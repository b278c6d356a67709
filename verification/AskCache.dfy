/**
 * The /ask endpoint's rows in the same epoch-stamped table (main.py): an ask captures an epoch of its
 * own and then runs a whole SQL request, whose answer may come out of either cache.
 */
module AskCaching {
  import opened Text
  import opened EpochCaching

  // An ask answer rests on the SQL answer it was made from, generated or found by the inner request.
  // `captured` tells whether the ask filed it under the epoch it captured at lookup.
  datatype AskAnswer = AskAnswer(inner: Answer, source: Source, captured: bool)

  // Where an ask stands between two awaits.
  datatype AskPhase =
    | Asked
    | AskLookedUp(epoch: Option<nat>)
    | AskWarming(answer: AskAnswer)
    | AskGenerating(epoch: Option<nat>, sub: RequestId)
    | AskComputed(answer: AskAnswer, epoch: Option<nat>)
    | AskFiling(answer: AskAnswer, epoch: Option<nat>)
    | AskDone(served: Option<AskAnswer>)

  // The SQL endpoint's state, and the ask rows, the ask cache in memory and the asks.
  datatype AskSystem = AskSystem(
    base: System,
    askRows: map<(RequestKey, nat), AskAnswer>,
    askMemory: map<RequestKey, AskAnswer>,
    askKeys: map<RequestId, RequestKey>,
    asks: map<RequestId, AskPhase>)

  datatype AskEvent =
    | Sql(e: Event)                                            // any step of the SQL endpoint or of the world
    | Ask(r: RequestId, key: RequestKey)
    | AskMemoryHit(r: RequestId, found: RequestKey)
    | AskCapture(r: RequestId)
    | AskCaptureFails(r: RequestId)
    | AskRowHit(r: RequestId, found: RequestKey)
    | AskWarm(r: RequestId)
    | Generate(r: RequestId, sub: RequestId, key: RequestKey)  // starts the inner SQL request
    | Collect(r: RequestId)                                    // its answer is executed and put into words
    | AskFails(r: RequestId)
    | AskRemember(r: RequestId)
    | AskEpochForWrite(r: RequestId)
    | AskFile(r: RequestId)
    | AskFileFails(r: RequestId)
    | AskEvict(key: RequestKey)

  ghost predicate AskAt(s: AskSystem, r: RequestId) {
    r in s.asks && r in s.askKeys
  }

  ghost predicate AskEnabled(s: AskSystem, e: AskEvent) {
    match e
    case Sql(inner) => Enabled(s.base, inner)
    case Ask(r, _) => r !in s.asks
    case AskMemoryHit(r, found) => AskAt(s, r) && s.asks[r].Asked? && found in s.askMemory
    case AskCapture(r) => AskAt(s, r) && s.asks[r].Asked?
    case AskCaptureFails(r) => AskAt(s, r) && s.asks[r].Asked?
    case AskRowHit(r, found) =>
      AskAt(s, r) && s.asks[r].AskLookedUp? && s.asks[r].epoch.Some? && (found, s.asks[r].epoch.value) in s.askRows
    case AskWarm(r) => AskAt(s, r) && s.asks[r].AskWarming?
    case Generate(r, sub, key) =>
      AskAt(s, r) && s.asks[r].AskLookedUp? && key == s.askKeys[r] && Enabled(s.base, Begin(sub, key))
    case Collect(r) =>
      AskAt(s, r) && s.asks[r].AskGenerating? && s.asks[r].sub in s.base.phases
      && s.base.phases[s.asks[r].sub].Done? && s.base.phases[s.asks[r].sub].served.Some?
    case AskFails(r) => AskAt(s, r) && (s.asks[r].AskGenerating? || s.asks[r].AskComputed?)
    case AskRemember(r) => AskAt(s, r) && s.asks[r].AskComputed?
    case AskEpochForWrite(r) => AskAt(s, r) && s.asks[r].AskFiling? && s.asks[r].epoch.None?
    case AskFile(r) => AskAt(s, r) && s.asks[r].AskFiling? && s.asks[r].epoch.Some?
    case AskFileFails(r) => AskAt(s, r) && s.asks[r].AskFiling?
    case AskEvict(_) => true
  }

  // The ask phase an event leads to.
  ghost function NextAsk(s: AskSystem, e: AskEvent): AskPhase
    requires AskEnabled(s, e) && !e.Sql? && !e.AskEvict?
  {
    match e
    case Ask(_, _) => Asked
    case AskMemoryHit(_, found) => AskDone(Some(s.askMemory[found]))
    case AskCapture(_) => AskLookedUp(Some(Epoch(s.base)))
    case AskCaptureFails(_) => AskLookedUp(None)
    case AskRowHit(r, found) => AskWarming(s.askRows[(found, s.asks[r].epoch.value)])
    case AskWarm(r) => AskDone(Some(s.asks[r].answer))
    case Generate(r, sub, _) => AskGenerating(s.asks[r].epoch, sub)
    case Collect(r) =>
      var p, done := s.asks[r], s.base.phases[s.asks[r].sub];
      AskComputed(AskAnswer(done.served.value, done.source, p.epoch.Some?), p.epoch)
    case AskFails(_) => AskDone(None)
    case AskRemember(r) => AskFiling(s.asks[r].answer, s.asks[r].epoch)
    case AskEpochForWrite(r) => AskFiling(s.asks[r].answer, Some(Epoch(s.base)))
    case AskFile(r) => AskDone(Some(s.asks[r].answer))
    case AskFileFails(r) => AskDone(Some(s.asks[r].answer))
  }

  ghost function AskNext(s: AskSystem, e: AskEvent): AskSystem
    requires AskEnabled(s, e)
  {
    match e
    case Sql(inner) =>
      s.(base := Next(s.base, inner), askMemory := if inner.ClearMemory? then map[] else s.askMemory)
    case AskEvict(key) => s.(askMemory := s.askMemory - {key})
    case Ask(r, key) => s.(askKeys := s.askKeys[r := key], asks := s.asks[r := Asked])
    case Generate(r, sub, key) =>
      s.(base := Next(s.base, Begin(sub, key)), asks := s.asks[r := NextAsk(s, e)])
    case AskWarm(r) =>
      s.(askMemory := s.askMemory[s.askKeys[r] := s.asks[r].answer], asks := s.asks[r := NextAsk(s, e)])
    case AskRemember(r) =>
      s.(askMemory := s.askMemory[s.askKeys[r] := s.asks[r].answer], asks := s.asks[r := NextAsk(s, e)])
    case AskFile(r) =>
      s.(askRows := s.askRows[(s.askKeys[r], s.asks[r].epoch.value) := s.asks[r].answer],
         asks := s.asks[r := NextAsk(s, e)])
    case _ => s.(asks := s.asks[e.r := NextAsk(s, e)])
  }

  ghost predicate AskRun(start: AskSystem, events: seq<AskEvent>, end: AskSystem)
    decreases |events|
  {
    if events == [] then start == end
    else AskEnabled(start, events[0]) && AskRun(AskNext(start, events[0]), events[1..], end)
  }

  ghost predicate AskInitial(s: AskSystem) {
    Initial(s.base) && s.askRows == map[] && s.askMemory == map[] && s.askKeys == map[] && s.asks == map[]
  }

  /* ---- what the SQL endpoint does meanwhile ---- */

  // The SQL endpoint's own events within a run.
  function Inner(e: AskEvent): seq<Event> {
    match e
    case Sql(inner) => [inner]
    case Generate(_, sub, key) => [Begin(sub, key)]
    case _ => []
  }

  function InnerEvents(events: seq<AskEvent>): seq<Event> {
    if events == [] then [] else Inner(events[0]) + InnerEvents(events[1..])
  }

  lemma ConsRun(s: System, e: Event, rest: seq<Event>, end: System)
    requires Enabled(s, e) && Run(Next(s, e), rest, end)
    ensures Run(s, [e] + rest, end)
  {
    hide Enabled, Next;
    assert ([e] + rest)[1..] == rest;
  }

  lemma InnerStep(s: AskSystem, e: AskEvent, rest: seq<Event>, end: System)
    requires AskEnabled(s, e) && Run(AskNext(s, e).base, rest, end)
    ensures Run(s.base, Inner(e) + rest, end)
  {
    hide Enabled, Next, NextAsk, Run;
    match e
    case Sql(inner) => ConsRun(s.base, inner, rest, end);
    case Generate(_, sub, key) => ConsRun(s.base, Begin(sub, key), rest, end);
    case _ => assert [] + rest == rest;
  }

  lemma {:induction false} InnerRun(start: AskSystem, events: seq<AskEvent>, end: AskSystem)
    requires AskRun(start, events, end)
    ensures Run(start.base, InnerEvents(events), end.base)
    decreases |events|
  {
    hide AskEnabled, AskNext, Inner;
    if events != [] {
      InnerRun(AskNext(start, events[0]), events[1..], end);
      InnerStep(start, events[0], InnerEvents(events[1..]), end.base);
    }
  }

  /* ---- an inner request reads after the ask captured its epoch ---- */

  // Generated, or found in a row that the SQL endpoint itself filed under a captured epoch.
  ghost predicate Traceable(a: Answer, source: Source) {
    source == Generated || (source == FromRow && a.path == React && a.captured)
  }

  ghost predicate ReadSince(read: Option<Stamp>, epoch: nat) {
    read.Some? ==> epoch <= read.value.epoch
  }

  // Everything the request has read, it read in the epoch or later.
  ghost predicate Since(p: Phase, epoch: nat) {
    match p
    case Retrieved(read) => ReadSince(read, epoch)
    case LookedUp(read, at) => ReadSince(read, epoch) && (at.Some? ==> epoch <= at.value)
    case Warming(a) => Traceable(a, FromRow) ==> epoch <= a.oldest.epoch
    case Warmed(a) => Traceable(a, FromRow) ==> epoch <= a.oldest.epoch
    case Planning(_, read) => ReadSince(read, epoch)
    case Computed(_, oldest, _) => epoch <= oldest.epoch
    case Filing(a, _) => epoch <= a.oldest.epoch
    case Done(served, source) => served.Some? && Traceable(served.value, source) ==> epoch <= served.value.oldest.epoch
    case _ => true
  }

  lemma NextSince(s: System, e: Event, epoch: nat)
    requires Inv(s) && IsEpoch(s, epoch) && Enabled(s, e) && !WorldEvent(e)
    requires e.Begin? || Since(s.phases[e.r], epoch)
    ensures Since(NextPhase(s, e), epoch)
  {
    if e.DatabaseHit? {
      var k := (e.found, s.phases[e.r].epoch.value);
      assert RowOk(s, k.1, s.rows[k]);
    }
  }

  lemma StaysSince(s: System, e: Event, sub: RequestId, epoch: nat)
    requires Inv(s) && IsEpoch(s, epoch) && Enabled(s, e) && sub in s.phases && Since(s.phases[sub], epoch)
    ensures var next := Next(s, e);
            sub in next.phases && Since(next.phases[sub], epoch)
  {
    hide Since, Inv;
    if !WorldEvent(e) && e.r == sub {
      NextSince(s, e, epoch);
    }
  }

  /* ---- invariants ---- */

  ghost predicate AskAnswerOk(s: System, a: AskAnswer) {
    StampOk(s, a.inner.oldest)
  }

  ghost predicate FiledOk(s: System, a: AskAnswer, epoch: nat) {
    && IsEpoch(s, epoch) && AskAnswerOk(s, a)
    && (a.captured && Traceable(a.inner, a.source) ==> epoch <= a.inner.oldest.epoch)
  }

  // The answer may be filed under the epoch, if one was captured.
  ghost predicate FileableOk(s: System, a: AskAnswer, epoch: Option<nat>) {
    && AskAnswerOk(s, a) && (a.captured ==> epoch.Some?) && (epoch.Some? ==> FiledOk(s, a, epoch.value))
  }

  ghost predicate AskPhaseOk(s: System, p: AskPhase) {
    match p
    case AskLookedUp(epoch) => EpochOk(s, epoch)
    case AskWarming(a) => AskAnswerOk(s, a)
    case AskGenerating(epoch, sub) =>
      && EpochOk(s, epoch) && sub in s.phases
      && (epoch.Some? ==> Since(s.phases[sub], epoch.value))
    case AskComputed(a, epoch) => FileableOk(s, a, epoch)
    case AskFiling(a, epoch) => FileableOk(s, a, epoch)
    case _ => true
  }

  ghost predicate AskInv(s: AskSystem) {
    && Inv(s.base)
    && (forall r :: r in s.asks ==> AskPhaseOk(s.base, s.asks[r]))
    && (forall k :: k in s.askRows ==> FiledOk(s.base, s.askRows[k], k.1))
    && (forall k :: k in s.askMemory ==> AskAnswerOk(s.base, s.askMemory[k]))
  }

  lemma FiledStaysOk(s: System, next: System, a: AskAnswer, epoch: nat)
    requires EpochsKnown(s) && MovesOn(s, next) && FiledOk(s, a, epoch)
    ensures FiledOk(next, a, epoch)
  {
    StampStaysOk(s, next, a.inner.oldest);
  }

  lemma FileableStaysOk(s: System, next: System, a: AskAnswer, epoch: Option<nat>)
    requires EpochsKnown(s) && MovesOn(s, next) && FileableOk(s, a, epoch)
    ensures FileableOk(next, a, epoch)
  {
    hide StampOk;
    StampStaysOk(s, next, a.inner.oldest);
    if epoch.Some? {
      FiledStaysOk(s, next, a, epoch.value);
    }
  }

  // A step of the SQL endpoint leaves every ask where it stands.
  lemma AskPhaseStaysOk(s: System, e: Event, p: AskPhase)
    requires Inv(s) && Enabled(s, e) && AskPhaseOk(s, p)
    ensures AskPhaseOk(Next(s, e), p)
  {
    hide StampOk, Since, FileableOk, Inv, Enabled, Next;
    var next := Next(s, e);
    EpochsOfInv(s);
    StepMovesOn(s, e);
    match p
    case AskWarming(a) => StampStaysOk(s, next, a.inner.oldest);
    case AskGenerating(epoch, sub) =>
      if epoch.Some? {
        StaysSince(s, e, sub, epoch.value);
      } else {
        PhasesStay(s, e, sub);
      }
    case AskComputed(a, epoch) => FileableStaysOk(s, next, a, epoch);
    case AskFiling(a, epoch) => FileableStaysOk(s, next, a, epoch);
    case _ =>
  }

  lemma EpochsOfInv(s: System)
    requires Inv(s)
    ensures EpochsKnown(s)
  {
  }

  lemma PhasesStay(s: System, e: Event, sub: RequestId)
    requires Enabled(s, e) && sub in s.phases
    ensures sub in Next(s, e).phases
  {
    hide NextPhase;
  }

  lemma SqlStepKeepsAskInv(s: AskSystem, e: Event)
    requires AskInv(s) && Enabled(s.base, e)
    ensures AskInv(AskNext(s, Sql(e)))
  {
    hide Inv, AskPhaseOk, FiledOk, AskAnswerOk, StampOk, Enabled, Next;
    var next := AskNext(s, Sql(e));
    BaseMoves(s.base, e);
    forall r | r in next.asks
      ensures AskPhaseOk(next.base, next.asks[r])
    {
      AskPhaseStaysOk(s.base, e, s.asks[r]);
    }
    forall k | k in next.askRows
      ensures FiledOk(next.base, next.askRows[k], k.1)
    {
      FiledStaysOk(s.base, next.base, s.askRows[k], k.1);
    }
    forall k | k in next.askMemory
      ensures AskAnswerOk(next.base, next.askMemory[k])
    {
      AskAnswerStaysOk(s.base, next.base, s.askMemory[k]);
    }
  }

  lemma AskAnswerStaysOk(s: System, next: System, a: AskAnswer)
    requires EpochsKnown(s) && MovesOn(s, next) && AskAnswerOk(s, a)
    ensures AskAnswerOk(next, a)
  {
    StampStaysOk(s, next, a.inner.oldest);
  }

  lemma BaseMoves(s: System, e: Event)
    requires Inv(s) && Enabled(s, e)
    ensures Inv(Next(s, e)) && EpochsKnown(s) && MovesOn(s, Next(s, e))
  {
    hide Enabled, Next;
    EpochsOfInv(s);
    StepKeepsInv(s, e);
    StepMovesOn(s, e);
  }

  lemma NextAskIsOk(s: AskSystem, e: AskEvent)
    requires AskInv(s) && AskEnabled(s, e) && !e.Sql? && !e.AskEvict? && !e.Generate?
    ensures AskPhaseOk(s.base, NextAsk(s, e))
  {
    hide Enabled, Next, StampOk;
    if !e.Ask? {
      assert AskPhaseOk(s.base, s.asks[e.r]);
    }
    if e.AskRowHit? {
      var k := (e.found, s.asks[e.r].epoch.value);
      assert FiledOk(s.base, s.askRows[k], k.1);
    }
    if e.Collect? {
      assert PhaseOk(s.base, s.base.phases[s.asks[e.r].sub]);
    }
  }

  lemma OwnStepKeepsAskInv(s: AskSystem, e: AskEvent)
    requires AskInv(s) && AskEnabled(s, e) && !e.Sql? && !e.Generate?
    ensures AskInv(AskNext(s, e))
  {
    hide Inv, AskPhaseOk, FiledOk, AskAnswerOk, Enabled, Next;
    var next := AskNext(s, e);
    assert next.base == s.base;
    if !e.AskEvict? {
      NextAskIsOk(s, e);
    }
    forall k | k in next.askRows
      ensures FiledOk(s.base, next.askRows[k], k.1)
    {
      if !(k in s.askRows && next.askRows[k] == s.askRows[k]) {
        FileIsOk(s, e);
      }
    }
    forall k | k in next.askMemory
      ensures AskAnswerOk(s.base, next.askMemory[k])
    {
      if !(k in s.askMemory && next.askMemory[k] == s.askMemory[k]) {
        WriteIsOk(s, e);
      }
    }
  }

  lemma FileIsOk(s: AskSystem, e: AskEvent)
    requires AskInv(s) && AskEnabled(s, e) && e.AskFile?
    ensures FiledOk(s.base, s.asks[e.r].answer, s.asks[e.r].epoch.value)
  {
    assert AskPhaseOk(s.base, s.asks[e.r]);
  }

  lemma WriteIsOk(s: AskSystem, e: AskEvent)
    requires AskInv(s) && AskEnabled(s, e) && (e.AskWarm? || e.AskRemember?)
    ensures AskAnswerOk(s.base, s.asks[e.r].answer)
  {
    assert AskPhaseOk(s.base, s.asks[e.r]);
  }

  lemma GenerateKeepsAskInv(s: AskSystem, e: AskEvent)
    requires AskInv(s) && AskEnabled(s, e) && e.Generate?
    ensures AskInv(AskNext(s, e))
  {
    hide Inv, FiledOk, AskAnswerOk, StampOk, AskPhaseOk;
    var begun := AskNext(s, Sql(Begin(e.sub, e.key)));
    SqlStepKeepsAskInv(s, Begin(e.sub, e.key));
    GeneratingIsOk(s, e);
    var next := AskNext(s, e);
    forall r | r in next.asks
      ensures AskPhaseOk(next.base, next.asks[r])
    {
      if r != e.r {
        assert AskPhaseOk(begun.base, begun.asks[r]);
      }
    }
  }

  lemma GeneratingIsOk(s: AskSystem, e: AskEvent)
    requires AskInv(s) && AskEnabled(s, e) && e.Generate?
    ensures AskPhaseOk(Next(s.base, Begin(e.sub, e.key)), NextAsk(s, e))
  {
    assert AskPhaseOk(s.base, s.asks[e.r]);
  }

  lemma {:induction false} AskRunKeepsInv(start: AskSystem, events: seq<AskEvent>, end: AskSystem)
    requires AskInv(start) && AskRun(start, events, end)
    ensures AskInv(end)
    decreases |events|
  {
    hide AskInv, AskEnabled, AskNext;
    if events != [] {
      if events[0].Sql? {
        SqlEnabled(start, events[0]);
        SqlStepKeepsAskInv(start, events[0].e);
      } else if events[0].Generate? {
        GenerateKeepsAskInv(start, events[0]);
      } else {
        OwnStepKeepsAskInv(start, events[0]);
      }
      AskRunKeepsInv(AskNext(start, events[0]), events[1..], end);
    }
  }

  lemma SqlEnabled(s: AskSystem, e: AskEvent)
    requires AskEnabled(s, e) && e.Sql?
    ensures Enabled(s.base, e.e)
  {
  }

  lemma AskInitialIsInv(s: AskSystem)
    requires AskInitial(s)
    ensures AskInv(s)
  {
    InitialIsInv(s.base);
  }

  /* ---- when ask rows are fresh ---- */

  // An ask row filed under the epoch its ask captured, and made from SQL generated by the inner
  // request or found in a ReAct row filed under a captured epoch, rests on knowledge at least as new
  // as its epoch, however asks, SQL requests and invalidations interleave.
  lemma AskRowsAreFresh(start: AskSystem, events: seq<AskEvent>, s: AskSystem, r: RequestId, found: RequestKey)
    requires AskInitial(start) && AskRun(start, events, s) && AskEnabled(s, AskRowHit(r, found))
    ensures var epoch := s.asks[r].epoch.value;
            var a := s.askRows[(found, epoch)];
            a.captured && Traceable(a.inner, a.source) ==> Fresh(s.base, a.inner, epoch)
  {
    AskInitialIsInv(start);
    AskRunKeepsInv(start, events, s);
    var epoch := s.asks[r].epoch.value;
    assert FiledOk(s.base, s.askRows[(found, epoch)], epoch);
  }

  // Any ask row, and anything in the ask cache in memory, is fresh exactly when no commit that its
  // SQL answer's oldest read had not seen came before the bump to the epoch in question.
  lemma AskRowIsFreshExactly(start: AskSystem, events: seq<AskEvent>, s: AskSystem, key: RequestKey, epoch: nat)
    requires AskInitial(start) && AskRun(start, events, s)
    ensures (key, epoch) in s.askRows ==>
              (Fresh(s.base, s.askRows[(key, epoch)].inner, epoch)
               <==> !Overtaken(start.base, InnerEvents(events), s.askRows[(key, epoch)].inner, epoch))
    ensures key in s.askMemory ==>
              (Fresh(s.base, s.askMemory[key].inner, Epoch(s.base))
               <==> !Overtaken(start.base, InnerEvents(events), s.askMemory[key].inner, Epoch(s.base)))
  {
    hide Overtaken, Run, AskRun, AskPhaseOk, Next, Enabled, InnerEvents;
    AskInitialIsInv(start);
    AskRunKeepsInv(start, events, s);
    InnerRun(start, events, s);
    EpochsOfInv(s.base);
    if (key, epoch) in s.askRows {
      assert FiledOk(s.base, s.askRows[(key, epoch)], epoch);
      FreshExactly(start.base, InnerEvents(events), s.base, s.askRows[(key, epoch)].inner, epoch);
    }
    if key in s.askMemory {
      FreshExactly(start.base, InnerEvents(events), s.base, s.askMemory[key].inner, Epoch(s.base));
    }
  }

  /* ---- a captured epoch alone does not make an ask row fresh ---- */

  datatype AskTrace = AskTrace(start: AskSystem, events: seq<AskEvent>, end: AskSystem)

  ghost predicate AskReached(t: AskTrace) {
    AskInitial(t.start) && AskRun(t.start, t.events, t.end)
  }

  lemma {:induction false} AskRunSnoc(start: AskSystem, events: seq<AskEvent>, mid: AskSystem, e: AskEvent)
    requires AskRun(start, events, mid) && AskEnabled(mid, e)
    ensures AskRun(start, events + [e], AskNext(mid, e))
    decreases |events|
  {
    hide AskEnabled, AskNext;
    var all := events + [e];
    if events == [] {
      assert all[0] == e && all[1..] == [];
      assert AskRun(AskNext(mid, e), [], AskNext(mid, e));
    } else {
      AskRunSnoc(AskNext(start, events[0]), events[1..], mid, e);
      assert all[0] == events[0] && all[1..] == events[1..] + [e];
    }
  }

  lemma AskExtend(t: AskTrace, e: AskEvent) returns (u: AskTrace)
    requires AskReached(t) && AskEnabled(t.end, e)
    ensures AskReached(u) && u == AskTrace(t.start, t.events + [e], AskNext(t.end, e))
  {
    hide AskEnabled, AskNext;
    AskRunSnoc(t.start, t.events, t.end, e);
    u := AskTrace(t.start, t.events + [e], AskNext(t.end, e));
  }

  function WithoutAsks(s: System): AskSystem {
    AskSystem(s, map[], map[], map[], map[])
  }

  function Lifted(events: seq<Event>): seq<AskEvent> {
    if events == [] then [] else [Sql(events[0])] + Lifted(events[1..])
  }

  // A run of the SQL endpoint alone is a run without asks.
  lemma {:induction false} LiftedRun(start: System, events: seq<Event>, end: System)
    requires Run(start, events, end)
    ensures AskRun(WithoutAsks(start), Lifted(events), WithoutAsks(end))
    decreases |events|
  {
    hide Enabled, Next;
    if events != [] {
      LiftedRun(Next(start, events[0]), events[1..], end);
      var lifted := Lifted(events);
      assert lifted[0] == Sql(events[0]) && lifted[1..] == Lifted(events[1..]);
    }
  }

  // An ask captures the new epoch, its inner SQL request is answered from a memory tier that is
  // stale, and the ask files that answer under the new epoch.
  lemma AskRowCanBeStale() returns (t: AskTrace)
    ensures AskReached(t)
    ensures (KEY, 2) in t.end.askRows && t.end.askRows[(KEY, 2)].captured
    ensures !Fresh(t.end.base, t.end.askRows[(KEY, 2)].inner, 2)
  {
    hide AskReached, Reached;
    var stale := MemoryCanBeStale();
    t := LiftedTrace(stale);
    t := AskInStaleMemory(t);
    t := AskExtend(t, Collect(0));
    t := AskExtend(t, AskRemember(0));
    t := AskExtend(t, AskFile(0));
  }

  const STALE := Answer(React, OLD_READ, true)

  // The ask waits for its inner request, which the stale memory tier has answered.
  function Waiting(): AskSystem {
    var base := Late(map[], map[KEY := STALE], Filing(STALE, Some(1)));
    AskSystem(base.(keys := map[0 := KEY, 1 := KEY],
                    phases := map[0 := Filing(STALE, Some(1)), 1 := Done(Some(STALE), FromMemory)]),
              map[], map[], map[0 := KEY], map[0 := AskGenerating(Some(2), 1)])
  }

  lemma AskInStaleMemory(t: AskTrace) returns (u: AskTrace)
    requires AskReached(t) && t.end == WithoutAsks(Late(map[], map[KEY := STALE], Filing(STALE, Some(1))))
    ensures AskReached(u) && u.end == Waiting()
  {
    hide AskReached, Reached;
    u := AskExtend(t, Ask(0, KEY));
    u := AskExtend(u, AskCapture(0));
    u := AskExtend(u, Generate(0, 1, KEY));
    u := AskExtend(u, Sql(MemoryHit(1, KEY)));
  }

  lemma LiftedTrace(t: Trace) returns (u: AskTrace)
    requires Reached(t)
    ensures AskReached(u) && u.end == WithoutAsks(t.end)
  {
    LiftedRun(t.start, t.events, t.end);
    u := AskTrace(WithoutAsks(t.start), Lifted(t.events), WithoutAsks(t.end));
  }
}
