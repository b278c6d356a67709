/** The double-checked database reconnect of main.py (_try_reconnect_pool). */
module Reconnecting {
  import opened Text

  type RequestId = nat
  type Pool = nat

  // The shared fields of app.state.
  datatype Shared = Shared(pool: Option<Pool>, lastAttempt: real, lockedBy: Option<RequestId>)

  // Where a request stands inside _try_reconnect_pool.
  datatype Phase =
    | WaitingForLock
    | Connecting
    | Returned(pool: Option<Pool>)

  datatype Connection = Connected(pool: Pool) | Failed | Cancelled

  // The unlocked fast path: use the pool, give up for now, or queue for the lock.
  function Enter(interval: real, s: Shared, now: real): Phase {
    if s.pool.Some? then Returned(s.pool)
    else if now - s.lastAttempt < interval then Returned(None)
    else WaitingForLock
  }

  // The same checks under the lock; passing them stamps the attempt and keeps the lock.
  function Acquire(interval: real, s: Shared, r: RequestId, now: real): (Shared, Phase) {
    if s.pool.Some? then (s, Returned(s.pool))
    else if now - s.lastAttempt < interval then (s, Returned(None))
    else (s.(lastAttempt := now, lockedBy := Some(r)), Connecting)
  }

  // The attempt ends: success publishes the pool, failure clears it, cancellation leaves it alone.
  function Finish(s: Shared, c: Connection): (Shared, Phase) {
    match c
    case Connected(pool) => (Shared(Some(pool), s.lastAttempt, None), Returned(Some(pool)))
    case Failed => (Shared(None, s.lastAttempt, None), Returned(None))
    case Cancelled => (s.(lockedBy := None), Returned(None))
  }

  class AppState {
    const interval: real
    var pool: Option<Pool>
    var lastAttempt: real
    var lockedBy: Option<RequestId>

    constructor (interval: real)
      ensures this.interval == interval && State() == Shared(None, 0.0, None)
    {
      this.interval := interval;
      pool, lastAttempt, lockedBy := None, 0.0, None;
    }

    ghost function State(): Shared
      reads this
    {
      Shared(pool, lastAttempt, lockedBy)
    }

    method TryFastPath(now: real) returns (phase: Phase)
      ensures phase == Enter(interval, State(), now)
    {
      if pool.Some? {
        return Returned(pool);
      }
      if now - lastAttempt < interval {
        return Returned(None);
      }
      phase := WaitingForLock;
    }

    method TryUnderLock(r: RequestId, now: real) returns (phase: Phase)
      requires lockedBy.None?
      modifies this
      ensures (State(), phase) == Acquire(interval, old(State()), r, now)
    {
      lockedBy := Some(r);
      if pool.Some? {
        phase := Returned(pool);
        lockedBy := None;
      } else if now - lastAttempt < interval {
        phase := Returned(None);
        lockedBy := None;
      } else {
        lastAttempt := now;
        phase := Connecting;
      }
    }

    method FinishAttempt(c: Connection) returns (phase: Phase)
      modifies this
      ensures (State(), phase) == Finish(old(State()), c)
    {
      phase := Returned(None);
      match c {
        case Connected(p) =>
          pool := Some(p);
          phase := Returned(Some(p));
        case Failed =>
          pool := None;
        case Cancelled =>
      }
      lockedBy := None;
    }

    // The handler for connection errors drops the pool at any moment.
    method HandleDbError()
      modifies this
      ensures State() == old(State()).(pool := None)
    {
      pool := None;
    }
  }

  /* ---- any number of requests, interleaved ---- */

  // One started connection attempt; `found` is the pool that was present at that moment.
  datatype Attempt = Attempt(request: RequestId, at: real, found: Option<Pool>)

  datatype System = System(
    shared: Shared,
    phases: map<RequestId, Phase>,
    now: real,
    attempts: seq<Attempt>)

  datatype Event =
    | Arrive(r: RequestId)
    | TakeLock(r: RequestId)
    | End(r: RequestId, c: Connection)
    | DbError
    | Tick(to: real)

  ghost predicate Enabled(s: System, e: Event) {
    match e
    case Arrive(r) => r !in s.phases
    case TakeLock(r) => r in s.phases && s.phases[r] == WaitingForLock && s.shared.lockedBy.None?
    case End(r, _) => r in s.phases && s.phases[r] == Connecting
    case DbError => true
    case Tick(to) => s.now <= to
  }

  function Next(interval: real, s: System, e: Event): System {
    match e
    case Arrive(r) => s.(phases := s.phases[r := Enter(interval, s.shared, s.now)])
    case TakeLock(r) =>
      var (shared, phase) := Acquire(interval, s.shared, r, s.now);
      s.(shared := shared,
         phases := s.phases[r := phase],
         attempts := s.attempts
                     + if phase == Connecting then [Attempt(r, s.now, s.shared.pool)] else [])
    case End(r, c) =>
      var (shared, phase) := Finish(s.shared, c);
      s.(shared := shared, phases := s.phases[r := phase])
    case DbError => s.(shared := s.shared.(pool := None))
    case Tick(to) => s.(now := to)
  }

  ghost predicate Run(interval: real, start: System, events: seq<Event>, end: System)
    decreases |events|
  {
    if events == [] then start == end
    else Enabled(start, events[0]) && Run(interval, Next(interval, start, events[0]), events[1..], end)
  }

  // The pool may have been opened at startup, or not.
  ghost predicate Initial(s: System) {
    && s.shared.lockedBy.None? && s.shared.lastAttempt == 0.0
    && s.phases == map[] && s.now >= 0.0 && s.attempts == []
  }

  ghost predicate Spaced(interval: real, attempts: seq<Attempt>) {
    forall i :: 0 < i < |attempts| ==> attempts[i].at - attempts[i - 1].at >= interval
  }

  ghost predicate InFlight(s: System, r: RequestId) {
    r in s.phases && s.phases[r] == Connecting
  }

  ghost predicate Inv(interval: real, s: System) {
    && s.shared.lastAttempt <= s.now
    && s.shared.lastAttempt == (if s.attempts == [] then 0.0 else s.attempts[|s.attempts| - 1].at)
    && (forall r: RequestId :: InFlight(s, r) <==> s.shared.lockedBy == Some(r))
    && Spaced(interval, s.attempts)
    && (forall i :: 0 <= i < |s.attempts| ==> s.attempts[i].found.None?)
  }

  lemma LockStepKeepsInv(interval: real, s: System, r: RequestId)
    requires Inv(interval, s) && Enabled(s, TakeLock(r))
    ensures Inv(interval, Next(interval, s, TakeLock(r)))
  {
    var next := Next(interval, s, TakeLock(r));
    var (shared, phase) := Acquire(interval, s.shared, r, s.now);
    assert next.phases == s.phases[r := phase];
    assert forall q: RequestId :: q != r ==> (InFlight(next, q) <==> InFlight(s, q));
    if phase == Connecting {
      assert next.attempts == s.attempts + [Attempt(r, s.now, s.shared.pool)];
    } else {
      assert next.attempts == s.attempts;
    }
  }

  lemma StepKeepsInv(interval: real, s: System, e: Event)
    requires Inv(interval, s) && Enabled(s, e)
    ensures Inv(interval, Next(interval, s, e))
  {
    var next := Next(interval, s, e);
    match e {
      case TakeLock(r) => LockStepKeepsInv(interval, s, r);
      case Arrive(r) =>
        assert forall q: RequestId :: InFlight(next, q) <==> InFlight(s, q);
      case End(r, c) =>
        assert InFlight(s, r);
        assert forall q: RequestId :: q != r ==> (InFlight(next, q) <==> InFlight(s, q));
      case DbError =>
        assert forall q: RequestId :: InFlight(next, q) <==> InFlight(s, q);
      case Tick(_) =>
        assert forall q: RequestId :: InFlight(next, q) <==> InFlight(s, q);
    }
  }

  lemma {:induction false} RunKeepsInv(interval: real, start: System, events: seq<Event>, end: System)
    requires Inv(interval, start) && Run(interval, start, events, end)
    ensures Inv(interval, end)
    decreases |events|
  {
    if events != [] {
      StepKeepsInv(interval, start, events[0]);
      RunKeepsInv(interval, Next(interval, start, events[0]), events[1..], end);
    }
  }

  // However requests, connection outcomes and errors interleave: never two attempts in flight,
  // attempts start at least the interval apart, and none starts while a pool is present.
  lemma ReconnectIsSafe(interval: real, start: System, events: seq<Event>, end: System)
    requires Initial(start) && Run(interval, start, events, end)
    ensures forall p: RequestId, q: RequestId :: InFlight(end, p) && InFlight(end, q) ==> p == q
    ensures Spaced(interval, end.attempts)
    ensures forall i :: 0 <= i < |end.attempts| ==> end.attempts[i].found.None?
  {
    RunKeepsInv(interval, start, events, end);
  }

  // A request is turned away without a pool only while the interval since the latest attempt
  // (or since clock zero, before any) has not passed; otherwise it gets to try.
  lemma TurnedAwayOnlyWithinInterval(interval: real, start: System, events: seq<Event>, s: System, r: RequestId)
    requires Initial(start) && Run(interval, start, events, s)
    ensures Enabled(s, Arrive(r)) ==>
              (Next(interval, s, Arrive(r)).phases[r] == Returned(None) <==>
                s.shared.pool.None? && s.now - LatestStart(s) < interval)
    ensures Enabled(s, TakeLock(r)) ==>
              (Next(interval, s, TakeLock(r)).phases[r] == Connecting <==>
                s.shared.pool.None? && s.now - LatestStart(s) >= interval)
  {
    RunKeepsInv(interval, start, events, s);
  }

  // The pool as the events leave it: what the latest successful attempt published, unless an attempt or
  // a connection failed after it.
  ghost function PoolAfter(pool: Option<Pool>, events: seq<Event>): Option<Pool> {
    if events == [] then pool
    else
      var before := PoolAfter(pool, events[..|events| - 1]);
      match events[|events| - 1]
      case End(_, Connected(p)) => Some(p)
      case End(_, Failed) => None
      case DbError => None
      case _ => before
  }

  lemma {:induction false} PoolAfterCons(pool: Option<Pool>, e: Event, rest: seq<Event>)
    ensures PoolAfter(pool, [e] + rest) == PoolAfter(PoolAfter(pool, [e]), rest)
  {
    if rest == [] {
      assert [e] + rest == [e];
    } else {
      PoolAfterCons(pool, e, rest[..|rest| - 1]);
      assert ([e] + rest)[..|[e] + rest| - 1] == [e] + rest[..|rest| - 1];
    }
  }

  lemma StepSetsPool(interval: real, s: System, e: Event)
    requires Enabled(s, e)
    ensures Next(interval, s, e).shared.pool == PoolAfter(s.shared.pool, [e])
  {
    assert [e][..0] == [];
  }

  // In every reachable state the pool is the one the events leave, so a success is published and a
  // failure clears it.
  lemma {:induction false} PoolIsTheLatest(interval: real, start: System, events: seq<Event>, s: System)
    requires Run(interval, start, events, s)
    ensures s.shared.pool == PoolAfter(start.shared.pool, events)
    decreases |events|
  {
    hide Next, Enabled, PoolAfter;
    if events == [] {
      assert PoolAfter(start.shared.pool, []) == start.shared.pool by { NoEvents(start.shared.pool); }
    } else {
      StepSetsPool(interval, start, events[0]);
      PoolIsTheLatest(interval, Next(interval, start, events[0]), events[1..], s);
      PoolAfterCons(start.shared.pool, events[0], events[1..]);
      assert [events[0]] + events[1..] == events;
    }
  }

  lemma NoEvents(pool: Option<Pool>)
    ensures PoolAfter(pool, []) == pool
  {
  }

  // A request is served a pool that is present, on the fast path and under the lock, and gets what its
  // own attempt connected; only an attempt keeps the lock, until it ends.
  lemma RequestsGetThePool(interval: real, s: System, r: RequestId)
    ensures Enabled(s, Arrive(r)) && s.shared.pool.Some? ==>
              Next(interval, s, Arrive(r)).phases[r] == Returned(s.shared.pool)
    ensures Enabled(s, TakeLock(r)) && s.shared.pool.Some? ==>
              Next(interval, s, TakeLock(r)).phases[r] == Returned(s.shared.pool)
    ensures Enabled(s, TakeLock(r)) ==>
              var next := Next(interval, s, TakeLock(r));
              if next.phases[r] == Connecting
              then next.shared.lockedBy == Some(r) && next.shared.lastAttempt == s.now
                   && next.attempts == s.attempts + [Attempt(r, s.now, None)]
              else next.shared == s.shared && next.attempts == s.attempts
    ensures forall c :: Enabled(s, End(r, c)) ==>
              var next := Next(interval, s, End(r, c));
              && next.phases[r] == Returned(if c.Connected? then Some(c.pool) else None)
              && next.shared.lockedBy == None && next.shared.lastAttempt == s.shared.lastAttempt
  {
  }

  ghost function LatestStart(s: System): real {
    if s.attempts == [] then 0.0 else s.attempts[|s.attempts| - 1].at
  }
}
