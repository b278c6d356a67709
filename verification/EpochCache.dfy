/** The epoch-stamped database cache shared by concurrent requests (db/db.py, sql_generator.py, main.py). */
module EpochCaching {
  import opened Text
  import CacheKeys

  // The columns that, with the epoch, identify a row (endpoint is fixed): query class and top_k.
  type RequestKey = (string, int)

  // Which path produced an answer.
  datatype Path = Deterministic | React

  // A read of the ingested knowledge: its version and the cache epoch at that moment.
  datatype Stamp = Stamp(knowledge: nat, epoch: nat)

  // An answer, stamped with the oldest read it was computed from. `captured` tells whether it is
  // filed under the epoch captured at lookup, or under one read at write time.
  datatype Answer = Answer(path: Path, oldest: Stamp, captured: bool)

  type Rows = map<(RequestKey, nat), Answer>

  /* ---- the two tables ---- */

  // The epoch row may be missing; it then counts as 1.
  function EpochOf(stateRow: Option<nat>): nat {
    if stateRow.Some? then stateRow.value else 1
  }

  function Bumped(stateRow: Option<nat>): Option<nat> {
    Some(EpochOf(stateRow) + 1)
  }

  // INSERT .. ON CONFLICT DO UPDATE: one row for each query class, top_k and epoch.
  function Filed(rows: Rows, key: RequestKey, epoch: nat, answer: Answer): Rows {
    rows[(key, epoch) := answer]
  }

  function Found(rows: Rows, key: RequestKey, epoch: nat): Option<Answer> {
    if (key, epoch) in rows then Some(rows[(key, epoch)]) else None
  }

  class CacheDatabase {
    var stateRow: Option<nat>
    var rows: Rows

    constructor ()
      ensures stateRow == None && rows == map[]
    {
      stateRow, rows := None, map[];
    }

    method GetQueryCacheEpoch() returns (epoch: nat)
      ensures epoch == EpochOf(stateRow)
    {
      match stateRow {
        case Some(e) => epoch := e;
        case None => epoch := 1;
      }
    }

    // INSERT 1 ON CONFLICT DO NOTHING, then UPDATE + 1, in one transaction.
    method BumpQueryCacheEpoch() returns (epoch: nat)
      modifies this`stateRow
      ensures stateRow == Bumped(old(stateRow)) && epoch == EpochOf(stateRow) == EpochOf(old(stateRow)) + 1
    {
      if stateRow.None? {
        stateRow := Some(1);
      }
      stateRow := Some(stateRow.value + 1);
      epoch := stateRow.value;
    }

    method Upsert(query: string, topK: int, answer: Answer, epoch: nat)
      modifies this`rows
      ensures rows == Filed(old(rows), CacheKeys.RowKey(query, topK), epoch, answer)
    {
      rows := rows[(CacheKeys.RowKey(query, topK), epoch) := answer];
    }

    method GetExact(query: string, topK: int, epoch: nat) returns (hit: Option<Answer>)
      ensures hit == Found(rows, CacheKeys.RowKey(query, topK), epoch)
    {
      var key := (CacheKeys.RowKey(query, topK), epoch);
      if key in rows {
        hit := Some(rows[key]);
      } else {
        hit := None;
      }
    }
  }

  // One write to the table.
  datatype Write = Write(query: string, topK: int, epoch: nat, answer: Answer)

  function RowsAfter(writes: seq<Write>): Rows {
    if writes == [] then map[]
    else
      var w := writes[|writes| - 1];
      Filed(RowsAfter(writes[..|writes| - 1]), CacheKeys.RowKey(w.query, w.topK), w.epoch, w.answer)
  }

  // The write is for the same canonical question, top_k and epoch.
  ghost predicate Answers(w: Write, query: string, topK: int, epoch: nat) {
    CacheKeys.Canonical(w.query) == CacheKeys.Canonical(query) && w.topK == topK && w.epoch == epoch
  }

  ghost predicate LatestAnswer(writes: seq<Write>, i: nat, query: string, topK: int, epoch: nat) {
    && i < |writes| && Answers(writes[i], query, topK, epoch)
    && forall j :: i < j < |writes| ==> !Answers(writes[j], query, topK, epoch)
  }

  // After any writes, a lookup finds exactly the latest write for the same canonical question, top_k
  // and epoch; a write for another question, top_k or epoch neither shows up nor gets in the way.
  lemma {:induction false} LookupFindsLatestWrite(writes: seq<Write>, query: string, topK: int, epoch: nat)
    ensures var found := Found(RowsAfter(writes), CacheKeys.RowKey(query, topK), epoch);
            if found.Some?
            then exists i: nat :: LatestAnswer(writes, i, query, topK, epoch) && found.value == writes[i].answer
            else forall i :: 0 <= i < |writes| ==> !Answers(writes[i], query, topK, epoch)
  {
    hide CacheKeys.Canonical;
    if writes != [] {
      var last := |writes| - 1;
      LookupFindsLatestWrite(writes[..last], query, topK, epoch);
      if Answers(writes[last], query, topK, epoch) {
        assert LatestAnswer(writes, last, query, topK, epoch);
      } else if Found(RowsAfter(writes[..last]), CacheKeys.RowKey(query, topK), epoch).Some? {
        var i: nat :| LatestAnswer(writes[..last], i, query, topK, epoch)
                      && Found(RowsAfter(writes), CacheKeys.RowKey(query, topK), epoch).value == writes[i].answer;
        assert LatestAnswer(writes, i, query, topK, epoch);
      }
    }
  }

  /* ---- requests interleaving with invalidations ---- */

  type RequestId = nat

  // Where a request stands between two awaits of generate_sql.
  datatype Phase =
    | Started
    | Retrieved(read: Option<Stamp>)                         // schema retrieval done, or failed
    | LookedUp(read: Option<Stamp>, epoch: Option<nat>)      // epoch captured, or the lookup failed
    | Warming(answer: Answer)                                // database row fetched, not yet copied
    | Warmed(answer: Answer)                                 // copied once, perhaps again with its embedding
    | Planning(epoch: Option<nat>, readSoFar: Option<Stamp>)   // inside the ReAct run
    | Computed(path: Path, oldest: Stamp, epoch: Option<nat>)
    | Filing(answer: Answer, epoch: Option<nat>)             // in memory; database write pending
    | Done(served: Option<Answer>, source: Source)

  // Where a served answer came from.
  datatype Source = Generated | FromMemory | FromRow

  datatype System = System(
    knowledge: nat,                  // version of the ingested knowledge
    stateRow: Option<nat>,
    knowledgeAt: map<nat, nat>,      // knowledge version when each epoch became current
    rows: Rows,
    memory: map<RequestKey, Answer>, // the in-process caches
    keys: map<RequestId, RequestKey>,
    phases: map<RequestId, Phase>)

  function Epoch(s: System): nat {
    EpochOf(s.stateRow)
  }

  datatype Event =
    // requests
    | Begin(r: RequestId, key: RequestKey)
    | MemoryHit(r: RequestId, found: RequestKey)
    | Retrieve(r: RequestId)
    | RetrieveFails(r: RequestId)
    | ObviousSql(r: RequestId)
    | CaptureEpoch(r: RequestId)
    | CaptureFails(r: RequestId)
    | DatabaseHit(r: RequestId, found: RequestKey)
    | Warm(r: RequestId)
    | WarmAgain(r: RequestId)
    | Respond(r: RequestId)
    | DeterministicSql(r: RequestId)
    | StartReact(r: RequestId)
    | ReactReads(r: RequestId)
    | ReactSucceeds(r: RequestId)
    | ReactFails(r: RequestId)
    | Remember(r: RequestId)
    | RememberAgain(r: RequestId)
    | EpochForWrite(r: RequestId)
    | File(r: RequestId)
    | FileFails(r: RequestId)
    // knowledge changes and invalidation
    | CommitKnowledge
    | ClearMemory
    | BumpEpoch
    | Evict(key: RequestKey)

  ghost predicate WorldEvent(e: Event) {
    e.CommitKnowledge? || e.ClearMemory? || e.BumpEpoch? || e.Evict?
  }

  ghost predicate At(s: System, r: RequestId) {
    r in s.phases && r in s.keys
  }

  ghost predicate Enabled(s: System, e: Event) {
    match e
    case Begin(r, _) => r !in s.phases
    case MemoryHit(r, found) =>
      At(s, r) && (s.phases[r].Started? || s.phases[r].Retrieved?) && found in s.memory
    case Retrieve(r) => At(s, r) && s.phases[r].Started?
    case RetrieveFails(r) => At(s, r) && s.phases[r].Started?
    case ObviousSql(r) => At(s, r) && s.phases[r].Retrieved? && s.phases[r].read.Some?
    case CaptureEpoch(r) => At(s, r) && s.phases[r].Retrieved?
    case CaptureFails(r) => At(s, r) && s.phases[r].Retrieved?
    case DatabaseHit(r, found) =>
      At(s, r) && s.phases[r].LookedUp? && s.phases[r].epoch.Some?
      && Found(s.rows, found, s.phases[r].epoch.value).Some?
    case Warm(r) => At(s, r) && s.phases[r].Warming?
    case WarmAgain(r) => At(s, r) && s.phases[r].Warmed?
    case Respond(r) => At(s, r) && s.phases[r].Warmed?
    case DeterministicSql(r) => At(s, r) && s.phases[r].LookedUp?
    case StartReact(r) => At(s, r) && s.phases[r].LookedUp?
    case ReactReads(r) => At(s, r) && s.phases[r].Planning?
    case ReactSucceeds(r) => At(s, r) && s.phases[r].Planning? && s.phases[r].readSoFar.Some?
    case ReactFails(r) => At(s, r) && s.phases[r].Planning?
    case Remember(r) => At(s, r) && s.phases[r].Computed?
    case RememberAgain(r) => At(s, r) && s.phases[r].Filing?
    case EpochForWrite(r) => At(s, r) && s.phases[r].Filing? && s.phases[r].epoch.None?
    case File(r) => At(s, r) && s.phases[r].Filing? && s.phases[r].epoch.Some?
    case FileFails(r) => At(s, r) && s.phases[r].Filing?
    case _ => true
  }

  function StampNow(s: System): Stamp {
    Stamp(s.knowledge, Epoch(s))
  }

  // The next phase of the request an event belongs to.
  ghost function NextPhase(s: System, e: Event): Phase
    requires Enabled(s, e)
    requires !WorldEvent(e)
  {
    match e
    case Begin(_, _) => Started
    case MemoryHit(_, found) => Done(Some(s.memory[found]), FromMemory)
    case Retrieve(_) => Retrieved(Some(StampNow(s)))
    case RetrieveFails(_) => Retrieved(None)
    case ObviousSql(r) => Computed(Deterministic, s.phases[r].read.value, None)
    case CaptureEpoch(r) => LookedUp(s.phases[r].read, Some(Epoch(s)))
    case CaptureFails(r) => LookedUp(s.phases[r].read, None)
    case DatabaseHit(r, found) => Warming(Found(s.rows, found, s.phases[r].epoch.value).value)
    case Warm(r) => Warmed(s.phases[r].answer)
    case WarmAgain(r) => Done(Some(s.phases[r].answer), FromRow)
    case Respond(r) => Done(Some(s.phases[r].answer), FromRow)
    case DeterministicSql(r) =>
      var read := s.phases[r].read;
      Computed(Deterministic, if read.Some? then read.value else StampNow(s), s.phases[r].epoch)
    case StartReact(r) => Planning(s.phases[r].epoch, None)
    case ReactReads(r) =>
      var oldest := s.phases[r].readSoFar;
      Planning(s.phases[r].epoch, if oldest.Some? then oldest else Some(StampNow(s)))
    case ReactSucceeds(r) => Computed(React, s.phases[r].readSoFar.value, s.phases[r].epoch)
    case ReactFails(_) => Done(None, Generated)
    case Remember(r) =>
      var p := s.phases[r];
      Filing(Answer(p.path, p.oldest, p.epoch.Some?), p.epoch)
    case RememberAgain(r) => s.phases[r]
    case EpochForWrite(r) => Filing(s.phases[r].answer, Some(Epoch(s)))
    case File(r) => Done(Some(s.phases[r].answer), Generated)
    case FileFails(r) => Done(Some(s.phases[r].answer), Generated)
  }

  // The request moves on and its answer is put into the in-process caches.
  ghost function Remembered(s: System, r: RequestId, phase: Phase, answer: Answer): System
    requires At(s, r)
  {
    s.(memory := s.memory[s.keys[r] := answer], phases := s.phases[r := phase])
  }

  ghost function Next(s: System, e: Event): System
    requires Enabled(s, e)
  {
    match e
    case CommitKnowledge => s.(knowledge := s.knowledge + 1)
    case ClearMemory => s.(memory := map[])
    case BumpEpoch =>
      s.(stateRow := Bumped(s.stateRow), knowledgeAt := s.knowledgeAt[Epoch(s) + 1 := s.knowledge])
    case Evict(key) => s.(memory := s.memory - {key})
    case Begin(r, key) => s.(keys := s.keys[r := key], phases := s.phases[r := Started])
    case Warm(r) => Remembered(s, r, NextPhase(s, e), s.phases[r].answer)
    case WarmAgain(r) => Remembered(s, r, NextPhase(s, e), s.phases[r].answer)
    case Remember(r) => Remembered(s, r, NextPhase(s, e), NextPhase(s, e).answer)
    case RememberAgain(r) => Remembered(s, r, NextPhase(s, e), s.phases[r].answer)
    case File(r) =>
      s.(rows := Filed(s.rows, s.keys[r], s.phases[r].epoch.value, s.phases[r].answer),
         phases := s.phases[r := NextPhase(s, e)])
    case _ => s.(phases := s.phases[e.r := NextPhase(s, e)])
  }

  ghost predicate Run(start: System, events: seq<Event>, end: System)
    decreases |events|
  {
    if events == [] then start == end
    else Enabled(start, events[0]) && Run(Next(start, events[0]), events[1..], end)
  }

  ghost predicate Initial(s: System) {
    && EpochOf(s.stateRow) == 1 && s.knowledgeAt == map[1 := s.knowledge]
    && s.rows == map[] && s.memory == map[] && s.keys == map[] && s.phases == map[]
  }

  /* ---- freshness under every interleaving ---- */

  ghost predicate IsEpoch(s: System, e: nat) {
    1 <= e <= Epoch(s)
  }

  ghost predicate EpochsKnown(s: System) {
    && Epoch(s) >= 1
    && forall e :: 1 <= e <= Epoch(s) ==> e in s.knowledgeAt && s.knowledgeAt[e] <= s.knowledge
  }

  // The read saw at least what was current when its epoch began, and no later epoch saw less.
  ghost predicate StampOk(s: System, stamp: Stamp) {
    && IsEpoch(s, stamp.epoch)
    && stamp.knowledge <= s.knowledge
    && (forall e :: 1 <= e <= Epoch(s) && e in s.knowledgeAt ==>
          (e <= stamp.epoch ==> s.knowledgeAt[e] <= stamp.knowledge)
          && (e > stamp.epoch ==> stamp.knowledge <= s.knowledgeAt[e]))
  }

  ghost predicate EpochOk(s: System, epoch: Option<nat>) {
    epoch.Some? ==> IsEpoch(s, epoch.value)
  }

  // A ReAct answer filed under a captured epoch was computed entirely within or after that epoch.
  ghost predicate AnswerOk(s: System, a: Answer, epoch: nat) {
    StampOk(s, a.oldest) && (a.path == React && a.captured ==> epoch <= a.oldest.epoch)
  }

  ghost predicate PhaseOk(s: System, p: Phase) {
    match p
    case Retrieved(read) => read.Some? ==> StampOk(s, read.value)
    case LookedUp(read, epoch) => EpochOk(s, epoch) && (read.Some? ==> StampOk(s, read.value))
    case Warming(answer) => StampOk(s, answer.oldest)
    case Warmed(answer) => StampOk(s, answer.oldest)
    case Planning(epoch, readSoFar) =>
      && EpochOk(s, epoch)
      && (readSoFar.Some? ==> StampOk(s, readSoFar.value))
      && (epoch.Some? && readSoFar.Some? ==> epoch.value <= readSoFar.value.epoch)
    case Computed(path, oldest, epoch) =>
      && EpochOk(s, epoch) && StampOk(s, oldest)
      && (epoch.Some? && path == React ==> epoch.value <= oldest.epoch)
    case Filing(answer, epoch) =>
      && EpochOk(s, epoch) && StampOk(s, answer.oldest)
      && (answer.captured ==> epoch.Some? && AnswerOk(s, answer, epoch.value))
    case Done(served, _) => served.Some? ==> StampOk(s, served.value.oldest)
    case _ => true
  }

  ghost predicate RowOk(s: System, epoch: nat, a: Answer) {
    IsEpoch(s, epoch) && AnswerOk(s, a, epoch)
  }

  ghost predicate Inv(s: System) {
    && EpochsKnown(s)
    && (forall r :: r in s.phases ==> PhaseOk(s, s.phases[r]))
    && (forall k :: k in s.rows ==> RowOk(s, k.1, s.rows[k]))
    && (forall k :: k in s.memory ==> StampOk(s, s.memory[k].oldest))
  }

  // The past epochs stay what they were, and new ones start from the present knowledge.
  ghost predicate MovesOn(s: System, next: System)
    requires EpochsKnown(s)
  {
    && Epoch(s) <= Epoch(next) && s.knowledge <= next.knowledge
    && (forall e :: 1 <= e <= Epoch(s) ==> e in next.knowledgeAt && next.knowledgeAt[e] == s.knowledgeAt[e])
    && (forall e :: Epoch(s) < e <= Epoch(next) ==> e in next.knowledgeAt && s.knowledge <= next.knowledgeAt[e])
  }

  lemma StampStaysOk(s: System, next: System, stamp: Stamp)
    requires EpochsKnown(s) && MovesOn(s, next) && StampOk(s, stamp)
    ensures StampOk(next, stamp)
  {
  }

  lemma PhaseStaysOk(s: System, next: System, p: Phase)
    requires EpochsKnown(s) && MovesOn(s, next) && PhaseOk(s, p)
    ensures PhaseOk(next, p)
  {
    match p {
      case Retrieved(read) => if read.Some? { StampStaysOk(s, next, read.value); }
      case LookedUp(read, _) => if read.Some? { StampStaysOk(s, next, read.value); }
      case Warming(answer) => StampStaysOk(s, next, answer.oldest);
      case Warmed(answer) => StampStaysOk(s, next, answer.oldest);
      case Planning(_, readSoFar) => if readSoFar.Some? { StampStaysOk(s, next, readSoFar.value); }
      case Computed(_, oldest, _) => StampStaysOk(s, next, oldest);
      case Filing(answer, _) => StampStaysOk(s, next, answer.oldest);
      case Done(served, _) => if served.Some? { StampStaysOk(s, next, served.value.oldest); }
      case _ =>
    }
  }

  lemma PresentStampIsOk(s: System)
    requires EpochsKnown(s)
    ensures StampOk(s, StampNow(s))
  {
  }

  lemma WorldMovesOn(s: System, e: Event)
    requires EpochsKnown(s) && Enabled(s, e) && WorldEvent(e)
    ensures EpochsKnown(Next(s, e)) && MovesOn(s, Next(s, e))
  {
  }

  lemma WorldStepKeepsInv(s: System, e: Event)
    requires Inv(s) && Enabled(s, e) && WorldEvent(e)
    ensures Inv(Next(s, e))
  {
    var next := Next(s, e);
    WorldMovesOn(s, e);
    assert next.phases == s.phases && next.rows == s.rows;
    forall r | r in next.phases
      ensures PhaseOk(next, next.phases[r])
    {
      PhaseStaysOk(s, next, s.phases[r]);
    }
    forall k | k in next.rows
      ensures RowOk(next, k.1, next.rows[k])
    {
      assert RowOk(s, k.1, s.rows[k]);
      StampStaysOk(s, next, s.rows[k].oldest);
    }
    forall k | k in next.memory
      ensures StampOk(next, next.memory[k].oldest)
    {
      assert k in s.memory && next.memory[k] == s.memory[k];
      StampStaysOk(s, next, s.memory[k].oldest);
    }
  }

  lemma NextPhaseIsOk(s: System, e: Event)
    requires Inv(s) && Enabled(s, e) && !WorldEvent(e)
    ensures PhaseOk(s, NextPhase(s, e))
  {
    PresentStampIsOk(s);
    if !e.Begin? {
      assert PhaseOk(s, s.phases[e.r]);
    }
    if e.DatabaseHit? {
      var k := (e.found, s.phases[e.r].epoch.value);
      assert RowOk(s, k.1, s.rows[k]);
    }
  }

  lemma RequestStepKeepsInv(s: System, e: Event)
    requires Inv(s) && Enabled(s, e) && !WorldEvent(e)
    ensures Inv(Next(s, e))
  {
    var next := Next(s, e);
    NextPhaseIsOk(s, e);
    forall r | r in next.phases
      ensures PhaseOk(next, next.phases[r])
    {
      var p := if r == e.r then NextPhase(s, e) else s.phases[r];
      assert next.phases[r] == p;
      PhaseStaysOk(s, next, p);
    }
    forall k | k in next.rows
      ensures RowOk(next, k.1, next.rows[k])
    {
      FiledRowIsOk(s, e, k);
    }
    forall k | k in next.memory
      ensures StampOk(next, next.memory[k].oldest)
    {
      RememberedIsOk(s, e, k);
    }
  }

  lemma RememberedIsOk(s: System, e: Event, k: RequestKey)
    requires Inv(s) && Enabled(s, e) && !WorldEvent(e) && k in Next(s, e).memory
    ensures StampOk(Next(s, e), Next(s, e).memory[k].oldest)
  {
    var kept := k in s.memory && Next(s, e).memory[k] == s.memory[k];
    if kept {
      StampStaysOk(s, Next(s, e), s.memory[k].oldest);
    } else {
      assert PhaseOk(s, s.phases[e.r]);
      StampStaysOk(s, Next(s, e), Next(s, e).memory[k].oldest);
    }
  }

  lemma FiledRowIsOk(s: System, e: Event, k: (RequestKey, nat))
    requires Inv(s) && Enabled(s, e) && !WorldEvent(e) && k in Next(s, e).rows
    ensures RowOk(Next(s, e), k.1, Next(s, e).rows[k])
  {
    if e.File? && k == (s.keys[e.r], s.phases[e.r].epoch.value) {
      assert PhaseOk(s, s.phases[e.r]);
      StampStaysOk(s, Next(s, e), s.phases[e.r].answer.oldest);
    } else {
      assert RowOk(s, k.1, s.rows[k]);
      StampStaysOk(s, Next(s, e), s.rows[k].oldest);
    }
  }

  lemma StepKeepsInv(s: System, e: Event)
    requires Inv(s) && Enabled(s, e)
    ensures Inv(Next(s, e))
  {
    if WorldEvent(e) {
      WorldStepKeepsInv(s, e);
    } else {
      RequestStepKeepsInv(s, e);
    }
  }

  lemma {:induction false} RunKeepsInv(start: System, events: seq<Event>, end: System)
    requires Inv(start) && Run(start, events, end)
    ensures Inv(end)
    decreases |events|
  {
    if events != [] {
      StepKeepsInv(start, events[0]);
      RunKeepsInv(Next(start, events[0]), events[1..], end);
    }
  }

  // The answer rests only on knowledge at least as new as what was current at the bump to `epoch`.
  ghost predicate Fresh(s: System, a: Answer, epoch: nat) {
    epoch in s.knowledgeAt && a.oldest.knowledge >= s.knowledgeAt[epoch]
  }

  // A database lookup at an epoch never returns a ReAct answer, filed under its captured epoch,
  // that rests on knowledge older than the bump to that epoch, however requests and invalidations
  // interleave.
  lemma ReactRowsAreFresh(start: System, events: seq<Event>, s: System, r: RequestId, found: RequestKey)
    requires Initial(start) && Run(start, events, s) && Enabled(s, DatabaseHit(r, found))
    ensures var epoch := s.phases[r].epoch.value;
            var a := Found(s.rows, found, epoch).value;
            a.path == React && a.captured ==> Fresh(s, a, epoch)
  {
    RunKeepsInv(start, events, s);
    assert RowOk(s, s.phases[r].epoch.value, s.rows[(found, s.phases[r].epoch.value)]);
  }

  /* ---- exactly when an answer is fresh, read off the events ---- */

  function Commits(events: seq<Event>): nat {
    if events == [] then 0 else (if events[0].CommitKnowledge? then 1 else 0) + Commits(events[1..])
  }

  function Bumps(events: seq<Event>): nat {
    if events == [] then 0 else (if events[0].BumpEpoch? then 1 else 0) + Bumps(events[1..])
  }

  // Event i commits knowledge that a read at the given version had not seen.
  ghost predicate UnseenCommit(start: System, events: seq<Event>, i: nat, version: nat) {
    i < |events| && events[i].CommitKnowledge? && version <= start.knowledge + Commits(events[..i])
  }

  // Event j makes the epoch the current one.
  ghost predicate BumpTo(start: System, events: seq<Event>, j: nat, epoch: nat) {
    j < |events| && events[j].BumpEpoch? && Epoch(start) + Bumps(events[..j]) + 1 == epoch
  }

  // A commit that the answer's oldest read had not seen came before the bump to the epoch.
  ghost predicate Overtaken(start: System, events: seq<Event>, a: Answer, epoch: nat) {
    exists i: nat, j: nat ::
      i < j && UnseenCommit(start, events, i, a.oldest.knowledge) && BumpTo(start, events, j, epoch)
  }

  lemma {:induction false} RunMovesOn(start: System, events: seq<Event>, end: System)
    requires EpochsKnown(start) && Run(start, events, end)
    ensures EpochsKnown(end) && MovesOn(start, end)
    decreases |events|
  {
    if events != [] {
      var next := Next(start, events[0]);
      StepMovesOn(start, events[0]);
      RunMovesOn(next, events[1..], end);
      MovesOnTwice(start, next, end);
    }
  }

  lemma StepMovesOn(s: System, e: Event)
    requires EpochsKnown(s) && Enabled(s, e)
    ensures EpochsKnown(Next(s, e)) && MovesOn(s, Next(s, e))
  {
    if WorldEvent(e) {
      WorldMovesOn(s, e);
    }
  }

  lemma MovesOnTwice(s: System, t: System, u: System)
    requires EpochsKnown(s) && MovesOn(s, t) && EpochsKnown(t) && MovesOn(t, u)
    ensures MovesOn(s, u)
  {
  }

  // What an epoch started from is the knowledge committed before the bump to it.
  lemma {:induction false} KnowledgeAtBump(start: System, events: seq<Event>, end: System, j: nat, epoch: nat)
    requires EpochsKnown(start) && Run(start, events, end) && BumpTo(start, events, j, epoch)
    ensures epoch in end.knowledgeAt && end.knowledgeAt[epoch] == start.knowledge + Commits(events[..j])
    decreases |events|
  {
    hide Enabled;
    var next := Next(start, events[0]);
    StepMovesOn(start, events[0]);
    RunMovesOn(next, events[1..], end);
    if j == 0 {
      assert events[..0] == [];
    } else {
      assert events[..j][1..] == events[1..][..j - 1];
      StepCounts(start, events[0]);
      KnowledgeAtBump(next, events[1..], end, j - 1, epoch);
    }
  }

  lemma StepCounts(s: System, e: Event)
    requires EpochsKnown(s) && Enabled(s, e)
    ensures Next(s, e).knowledge == s.knowledge + (if e.CommitKnowledge? then 1 else 0)
    ensures Epoch(Next(s, e)) == Epoch(s) + (if e.BumpEpoch? then 1 else 0)
  {
  }

  lemma {:induction false} BumpExists(start: System, events: seq<Event>, end: System, epoch: nat) returns (j: nat)
    requires EpochsKnown(start) && Run(start, events, end) && Epoch(start) < epoch <= Epoch(end)
    ensures BumpTo(start, events, j, epoch)
    decreases |events|
  {
    hide Enabled;
    var next := Next(start, events[0]);
    StepMovesOn(start, events[0]);
    StepCounts(start, events[0]);
    if events[0].BumpEpoch? && epoch == Epoch(start) + 1 {
      j := 0;
      assert events[..0] == [];
    } else {
      var rest := BumpExists(next, events[1..], end, epoch);
      j := rest + 1;
      assert events[..j][1..] == events[1..][..rest];
    }
  }

  lemma {:induction false} CommitExists(events: seq<Event>, j: nat, n: nat) returns (i: nat)
    requires j <= |events| && n < Commits(events[..j])
    ensures i < j && events[i].CommitKnowledge? && Commits(events[..i]) == n
    decreases j
  {
    var before := events[..j];
    assert before[0] == events[0] && before[1..] == events[1..][..j - 1];
    if events[0].CommitKnowledge? && n == 0 {
      i := 0;
      assert events[..0] == [];
    } else {
      var rest := CommitExists(events[1..], j - 1, n - if events[0].CommitKnowledge? then 1 else 0);
      i := rest + 1;
      assert events[..i][1..] == events[1..][..rest];
    }
  }

  lemma {:induction false} CommitsGrow(events: seq<Event>, i: nat, j: nat)
    requires i < j <= |events| && events[i].CommitKnowledge?
    ensures Commits(events[..i]) < Commits(events[..j])
    decreases i
  {
    assert events[..j][1..] == events[1..][..j - 1];
    if i == 0 {
      assert events[..0] == [];
    } else {
      assert events[..i][1..] == events[1..][..i - 1];
      CommitsGrow(events[1..], i - 1, j - 1);
    }
  }

  lemma InitialIsInv(start: System)
    requires Initial(start)
    ensures Inv(start) && Epoch(start) == 1
  {
  }

  // Fresh for an epoch, on events: no unseen commit came before the bump to it.
  lemma FreshExactly(start: System, events: seq<Event>, s: System, a: Answer, epoch: nat)
    requires Initial(start) && Run(start, events, s) && Inv(s) && StampOk(s, a.oldest) && IsEpoch(s, epoch)
    ensures epoch in s.knowledgeAt
    ensures Fresh(s, a, epoch) <==> !Overtaken(start, events, a, epoch)
  {
    hide Next, Enabled, Run;
    InitialIsInv(start);
    RunMovesOn(start, events, s);
    assert s.knowledgeAt[1] == start.knowledge && 1 <= a.oldest.epoch;
    if epoch > 1 {
      var j := BumpExists(start, events, s, epoch);
      KnowledgeAtBump(start, events, s, j, epoch);
      if !Fresh(s, a, epoch) {
        var i := CommitExists(events, j, a.oldest.knowledge - start.knowledge);
        assert UnseenCommit(start, events, i, a.oldest.knowledge);
      }
    }
    if i: nat, k: nat :| i < k && UnseenCommit(start, events, i, a.oldest.knowledge)
                         && BumpTo(start, events, k, epoch) {
      KnowledgeAtBump(start, events, s, k, epoch);
      CommitsGrow(events, i, k);
    }
  }

  // Any row, whatever path filed it, is fresh for its epoch exactly when no commit that its oldest
  // read had not seen came before the bump to that epoch; in stamps, when the read was not made in an
  // earlier epoch or saw all that the epoch started from.
  lemma RowIsFreshExactly(start: System, events: seq<Event>, s: System, key: RequestKey, epoch: nat)
    requires Initial(start) && Run(start, events, s) && (key, epoch) in s.rows
    ensures var a := s.rows[(key, epoch)];
            && epoch in s.knowledgeAt
            && (Fresh(s, a, epoch) <==> !Overtaken(start, events, a, epoch))
            && (Fresh(s, a, epoch) <==>
                  epoch <= a.oldest.epoch || s.knowledgeAt[epoch] == a.oldest.knowledge)
  {
    hide Next, Enabled, Run, Overtaken;
    InitialIsInv(start);
    RunKeepsInv(start, events, s);
    assert RowOk(s, epoch, s.rows[(key, epoch)]);
    FreshExactly(start, events, s, s.rows[(key, epoch)], epoch);
  }

  // The memory tier: what it holds is as fresh as the present epoch promises exactly when no commit
  // that the oldest read had not seen came before the bump to the present epoch; in stamps, when the
  // read was made in the present epoch or saw all that this epoch started from.
  lemma MemoryIsFreshExactly(start: System, events: seq<Event>, s: System, key: RequestKey)
    requires Initial(start) && Run(start, events, s) && key in s.memory
    ensures var a := s.memory[key];
            && Epoch(s) in s.knowledgeAt
            && (Fresh(s, a, Epoch(s)) <==> !Overtaken(start, events, a, Epoch(s)))
            && (Fresh(s, a, Epoch(s)) <==>
                  a.oldest.epoch == Epoch(s) || s.knowledgeAt[Epoch(s)] == a.oldest.knowledge)
  {
    hide Next, Enabled, Run, Overtaken;
    InitialIsInv(start);
    RunKeepsInv(start, events, s);
    FreshExactly(start, events, s, s.memory[key], Epoch(s));
  }

  /* ---- where the guarantee ends ---- */

  // A run, spelled out: where it starts, its events, and where it stands.
  datatype Trace = Trace(start: System, events: seq<Event>, end: System)

  ghost predicate Reached(t: Trace) {
    Initial(t.start) && Run(t.start, t.events, t.end)
  }

  lemma {:induction false} RunSnoc(start: System, events: seq<Event>, mid: System, e: Event)
    requires Run(start, events, mid) && Enabled(mid, e)
    ensures Run(start, events + [e], Next(mid, e))
    decreases |events|
  {
    hide Enabled, Next;
    var all := events + [e];
    if events == [] {
      assert all[0] == e && all[1..] == [];
      assert Run(Next(mid, e), [], Next(mid, e));
    } else {
      RunSnoc(Next(start, events[0]), events[1..], mid, e);
      assert all[0] == events[0] && all[1..] == events[1..] + [e];
    }
  }

  lemma Extend(t: Trace, e: Event) returns (u: Trace)
    requires Reached(t) && Enabled(t.end, e)
    ensures Reached(u) && u == Trace(t.start, t.events + [e], Next(t.end, e))
  {
    hide Enabled, Next;
    RunSnoc(t.start, t.events, t.end, e);
    u := Trace(t.start, t.events + [e], Next(t.end, e));
  }

  const KEY: RequestKey := ("latest payments", 5)

  // A read of version 0 at epoch 1.
  const OLD_READ := Stamp(0, 1)

  // Version 0 and epoch 1, with the given tables and one request.
  function Early(rows: Rows, memory: map<RequestKey, Answer>, phase: Phase): System {
    System(0, None, map[1 := 0], rows, memory, map[0 := KEY], map[0 := phase])
  }

  // The same after one invalidation.
  function Late(rows: Rows, memory: map<RequestKey, Answer>, phase: Phase): System {
    System(1, Some(2), map[1 := 0, 2 := 1], rows, memory, map[0 := KEY], map[0 := phase])
  }

  lemma StartOfAll() returns (t: Trace)
    ensures Reached(t) && t.end == System(0, None, map[1 := 0], map[], map[], map[], map[])
  {
    var start := System(0, None, map[1 := 0], map[], map[], map[], map[]);
    t := Trace(start, [], start);
  }

  lemma RetrieveFirst() returns (t: Trace)
    ensures Reached(t) && t.end == Early(map[], map[], Retrieved(Some(OLD_READ)))
  {
    hide Reached;
    t := StartOfAll();
    t := Extend(t, Begin(0, KEY));
    t := Extend(t, Retrieve(0));
  }

  // The first request plans, with the epoch captured or not, and has read once.
  lemma PlanFirst(capture: Event) returns (t: Trace)
    requires capture == CaptureEpoch(0) || capture == CaptureFails(0)
    ensures Reached(t)
    ensures t.end == Early(map[], map[], Planning(if capture.CaptureEpoch? then Some(1) else None, Some(OLD_READ)))
  {
    hide Reached;
    t := RetrieveFirst();
    t := Extend(t, capture);
    t := Extend(t, StartReact(0));
    t := Extend(t, ReactReads(0));
  }

  // Knowledge is committed, the memory tier cleared and the epoch bumped.
  lemma Invalidate(t: Trace, phase: Phase) returns (u: Trace)
    requires Reached(t) && t.end == Early(map[], map[], phase)
    ensures Reached(u) && u.end == Late(map[], map[], phase)
  {
    hide Reached;
    u := Extend(t, CommitKnowledge);
    u := Extend(u, ClearMemory);
    u := Extend(u, BumpEpoch);
  }

  // A computed answer is remembered and filed.
  lemma FileLate(t: Trace, path: Path) returns (u: Trace)
    requires Reached(t) && t.end == Late(map[], map[], Computed(path, OLD_READ, Some(2)))
    ensures var a := Answer(path, OLD_READ, true);
            Reached(u) && u.end == Late(map[(KEY, 2) := a], map[KEY := a], Done(Some(a), Generated))
  {
    hide Reached;
    u := Extend(t, Remember(0));
    u := Extend(u, File(0));
  }

  lemma DecideLate(t: Trace) returns (u: Trace)
    requires Reached(t) && t.end == Late(map[], map[], Retrieved(Some(OLD_READ)))
    ensures Reached(u) && u.end == Late(map[], map[], Computed(Deterministic, OLD_READ, Some(2)))
  {
    hide Reached;
    u := Extend(t, CaptureEpoch(0));
    u := Extend(u, DeterministicSql(0));
  }

  // A deterministic answer whose schema was retrieved before an invalidation is filed under the
  // epoch captured after it, and a later lookup at that epoch returns it.
  lemma DeterministicRowCanBeStale() returns (t: Trace)
    ensures Reached(t) && Enabled(t.end, DatabaseHit(1, KEY))
    ensures var epoch := t.end.phases[1].epoch.value;
            var a := Found(t.end.rows, KEY, epoch).value;
            a.path == Deterministic && !Fresh(t.end, a, epoch)
  {
    hide Reached;
    t := RetrieveFirst();
    t := Invalidate(t, Retrieved(Some(OLD_READ)));
    t := DecideLate(t);
    t := FileLate(t, Deterministic);
    t := Extend(t, Begin(1, KEY));
    t := Extend(t, Retrieve(1));
    t := Extend(t, CaptureEpoch(1));
  }

  // A ReAct answer whose epoch lookup failed reads an epoch only when it writes, and can be stale.
  lemma UncapturedReactRowCanBeStale() returns (t: Trace)
    ensures Reached(t)
    ensures var found := Found(t.end.rows, KEY, 2);
            found.Some? && found.value.path == React && !found.value.captured && !Fresh(t.end, found.value, 2)
  {
    hide Reached, Next, Enabled;
    t := PlanFirst(CaptureFails(0));
    t := Invalidate(t, Planning(None, Some(OLD_READ)));
    t := SucceedLate(t, None);
    t := FileUncaptured(t, Answer(React, OLD_READ, false));
  }

  lemma FileUncaptured(t: Trace, a: Answer) returns (u: Trace)
    requires Reached(t) && t.end == Late(map[], map[KEY := a], Filing(a, None))
    ensures Reached(u) && u.end == Late(map[(KEY, 2) := a], map[KEY := a], Done(Some(a), Generated))
  {
    hide Reached;
    u := Extend(t, EpochForWrite(0));
    u := Extend(u, File(0));
  }

  // A generation planned before the invalidation succeeds after it and is remembered.
  lemma SucceedLate(t: Trace, epoch: Option<nat>) returns (u: Trace)
    requires Reached(t) && t.end == Late(map[], map[], Planning(epoch, Some(OLD_READ)))
    ensures var a := Answer(React, OLD_READ, epoch.Some?);
            Reached(u) && u.end == Late(map[], map[KEY := a], Filing(a, epoch))
  {
    hide Reached;
    u := Extend(t, ReactSucceeds(0));
    u := Extend(u, Remember(0));
  }

  // The memory tier, cleared by an invalidation, can be refilled by a generation still in flight.
  lemma MemoryCanBeStale() returns (t: Trace)
    ensures Reached(t)
    ensures KEY in t.end.memory && !Fresh(t.end, t.end.memory[KEY], Epoch(t.end))
    ensures var a := Answer(React, OLD_READ, true);
            t.end == Late(map[], map[KEY := a], Filing(a, Some(1)))
  {
    hide Reached;
    t := PlanFirst(CaptureEpoch(0));
    t := Invalidate(t, Planning(Some(1), Some(OLD_READ)));
    t := SucceedLate(t, Some(1));
  }

  const FILED := Answer(React, OLD_READ, true)

  // One generation from beginning to end, filed under epoch 1.
  lemma FileFirst() returns (t: Trace)
    ensures Reached(t) && t.end == Early(map[(KEY, 1) := FILED], map[KEY := FILED], Done(Some(FILED), Generated))
  {
    hide Reached;
    t := PlanFirst(CaptureEpoch(0));
    t := Extend(t, ReactSucceeds(0));
    t := Extend(t, Remember(0));
    t := Extend(t, File(0));
  }

  // A second request, at version 1 and still epoch 1.
  function Between(memory: map<RequestKey, Answer>, phase: Phase): System {
    System(1, None, map[1 := 0], map[(KEY, 1) := FILED], memory, map[0 := KEY, 1 := KEY],
           map[0 := Done(Some(FILED), Generated), 1 := phase])
  }

  lemma LookUpBetween(t: Trace) returns (u: Trace)
    requires Reached(t)
    requires t.end == Early(map[(KEY, 1) := FILED], map[KEY := FILED], Done(Some(FILED), Generated))
    ensures Reached(u) && u.end == Between(map[], LookedUp(Some(Stamp(1, 1)), Some(1)))
    ensures u.events == t.events + [CommitKnowledge, ClearMemory, Begin(1, KEY), Retrieve(1), CaptureEpoch(1)]
  {
    hide Reached;
    u := BeginBetween(t);
    u := Extend(u, Retrieve(1));
    u := Extend(u, CaptureEpoch(1));
  }

  lemma BeginBetween(t: Trace) returns (u: Trace)
    requires Reached(t)
    requires t.end == Early(map[(KEY, 1) := FILED], map[KEY := FILED], Done(Some(FILED), Generated))
    ensures Reached(u) && u.end == Between(map[], Started)
    ensures u.events == t.events + [CommitKnowledge, ClearMemory, Begin(1, KEY)]
  {
    hide Reached;
    u := Extend(t, CommitKnowledge);
    u := Extend(u, ClearMemory);
    u := Extend(u, Begin(1, KEY));
  }

  lemma WarmBetween(t: Trace) returns (u: Trace)
    requires Reached(t) && t.end == Between(map[], LookedUp(Some(Stamp(1, 1)), Some(1)))
    ensures Reached(u) && u.end == Between(map[KEY := FILED], Done(Some(FILED), FromRow))
    ensures u.events == t.events + [DatabaseHit(1, KEY), Warm(1), Respond(1)]
  {
    hide Reached;
    u := Extend(t, DatabaseHit(1, KEY));
    u := Extend(u, Warm(1));
    u := Extend(u, Respond(1));
  }

  // A lookup between the clearing of the memory tier and the bump still finds the old rows: a whole
  // request fits in there, and the answer it copies outlives the bump. Every request is done at the
  // commit, at the clearing and at the bump, and nothing is generated in between.
  lemma WarmingBeforeTheBumpIsStale() returns (filed: Trace, t: Trace)
    ensures Reached(filed) && Reached(t) && AllDone(filed.end) && AllDone(t.end)
    ensures t.events == filed.events + [CommitKnowledge, ClearMemory, Begin(1, KEY), Retrieve(1), CaptureEpoch(1),
                                        DatabaseHit(1, KEY), Warm(1), Respond(1), BumpEpoch]
    ensures KEY in t.end.memory && !Fresh(t.end, t.end.memory[KEY], Epoch(t.end))
  {
    hide Reached;
    filed := FileFirst();
    t := LookUpBetween(filed);
    t := WarmBetween(t);
    t := Extend(t, BumpEpoch);
  }

  /* ---- with no request active from a commit to its bump, everything served is current ---- */

  ghost predicate AllDone(s: System) {
    forall r :: r in s.phases ==> s.phases[r].Done?
  }

  // How far an invalidation has come: knowledge committed, then memory cleared, then idle again.
  datatype Stage = Idle | Committed | Cleared

  function StageAfter(stage: Stage, e: Event): Stage {
    match e
    case CommitKnowledge => Committed
    case ClearMemory => if stage == Committed then Cleared else stage
    case BumpEpoch => if stage == Cleared then Idle else stage
    case _ => stage
  }

  // Knowledge is committed only while every request is done, and no request takes a step until the
  // memory tier has been cleared and the epoch bumped after it. Otherwise anything interleaves.
  ghost predicate Orderly(s: System, events: seq<Event>, stage: Stage)
    decreases |events|
  {
    if events == [] then true
    else
      && Enabled(s, events[0])
      && (events[0].CommitKnowledge? ==> AllDone(s))
      && (stage != Idle ==> WorldEvent(events[0]))
      && Orderly(Next(s, events[0]), events[1..], StageAfter(stage, events[0]))
  }

  ghost predicate Current(s: System, stamp: Stamp) {
    stamp.knowledge == s.knowledge
  }

  // Reads in progress are current, and lookups are at an epoch not older than `since`.
  ghost predicate PhaseCurrent(s: System, p: Phase, since: nat) {
    match p
    case Retrieved(read) => read.Some? ==> Current(s, read.value)
    case LookedUp(read, epoch) =>
      (read.Some? ==> Current(s, read.value)) && (epoch.Some? ==> epoch.value >= since)
    case Warming(answer) => Current(s, answer.oldest)
    case Warmed(answer) => Current(s, answer.oldest)
    case Planning(_, readSoFar) => readSoFar.Some? ==> Current(s, readSoFar.value)
    case Computed(_, oldest, _) => Current(s, oldest)
    case Filing(answer, _) => Current(s, answer.oldest)
    case _ => true
  }

  ghost predicate IdleInv(s: System, since: nat) {
    && since <= Epoch(s)
    && (forall r :: r in s.phases ==> PhaseCurrent(s, s.phases[r], since))
    && (forall k :: k in s.memory ==> Current(s, s.memory[k].oldest))
    && (forall k :: k in s.rows && k.1 >= since ==> Current(s, s.rows[k].oldest))
  }

  // `since` is the epoch that the latest completed invalidation made current.
  ghost predicate QuietInv(s: System, stage: Stage, since: nat) {
    match stage
    case Idle => IdleInv(s, since)
    case Committed => AllDone(s)
    case Cleared => AllDone(s) && s.memory == map[]
  }

  function SinceAfter(s: System, stage: Stage, since: nat, e: Event): nat {
    if e.BumpEpoch? && stage == Cleared then Epoch(s) + 1 else since
  }

  lemma RequestKeepsIdle(s: System, since: nat, e: Event)
    requires Inv(s) && IdleInv(s, since) && Enabled(s, e) && !WorldEvent(e)
    ensures IdleInv(Next(s, e), since)
  {
    var next := Next(s, e);
    assert next.knowledge == s.knowledge && Epoch(next) == Epoch(s);
    NextPhaseIsCurrent(s, since, e);
    forall r | r in next.phases
      ensures PhaseCurrent(next, next.phases[r], since)
    {
      assert next.phases[r] == if r == e.r then NextPhase(s, e) else s.phases[r];
    }
    forall k | k in next.memory
      ensures Current(next, next.memory[k].oldest)
    {
      RememberedIsCurrent(s, since, e, k);
    }
    forall k | k in next.rows && k.1 >= since
      ensures Current(next, next.rows[k].oldest)
    {
      FiledIsCurrent(s, since, e, k);
    }
  }

  lemma RememberedIsCurrent(s: System, since: nat, e: Event, k: RequestKey)
    requires IdleInv(s, since) && Enabled(s, e) && !WorldEvent(e) && k in Next(s, e).memory
    ensures Current(s, Next(s, e).memory[k].oldest)
  {
    if !(k in s.memory && Next(s, e).memory[k] == s.memory[k]) {
      assert PhaseCurrent(s, s.phases[e.r], since);
    }
  }

  lemma FiledIsCurrent(s: System, since: nat, e: Event, k: (RequestKey, nat))
    requires IdleInv(s, since) && Enabled(s, e) && !WorldEvent(e) && k in Next(s, e).rows && k.1 >= since
    ensures Current(s, Next(s, e).rows[k].oldest)
  {
    if !(k in s.rows && Next(s, e).rows[k] == s.rows[k]) {
      assert PhaseCurrent(s, s.phases[e.r], since);
    }
  }

  lemma NextPhaseIsCurrent(s: System, since: nat, e: Event)
    requires IdleInv(s, since) && Enabled(s, e) && !WorldEvent(e)
    ensures PhaseCurrent(s, NextPhase(s, e), since)
  {
    if !e.Begin? {
      assert PhaseCurrent(s, s.phases[e.r], since);
    }
  }

  lemma WorldKeepsQuiet(s: System, stage: Stage, since: nat, e: Event)
    requires Inv(s) && QuietInv(s, stage, since) && WorldEvent(e)
    requires e.CommitKnowledge? ==> AllDone(s)
    ensures QuietInv(Next(s, e), StageAfter(stage, e), SinceAfter(s, stage, since, e))
  {
    if e.BumpEpoch? && stage == Cleared {
      var next := Next(s, e);
      forall k | k in next.rows
        ensures k.1 < Epoch(next)
      {
        assert RowOk(s, k.1, s.rows[k]);
      }
    }
  }

  lemma {:induction false} OrderlyKeepsQuiet(
    s: System, events: seq<Event>, stage: Stage, since: nat, end: System) returns (last: Stage, latest: nat)
    requires Inv(s) && QuietInv(s, stage, since) && Orderly(s, events, stage) && Run(s, events, end)
    ensures QuietInv(end, last, latest)
    decreases |events|
  {
    if events == [] {
      last, latest := stage, since;
    } else {
      var e := events[0];
      StepKeepsInv(s, e);
      if WorldEvent(e) {
        WorldKeepsQuiet(s, stage, since, e);
      } else {
        RequestKeepsIdle(s, since, e);
      }
      last, latest := OrderlyKeepsQuiet(Next(s, e), events[1..], StageAfter(stage, e),
                                        SinceAfter(s, stage, since, e), end);
    }
  }

  // Then both tiers and both paths only ever serve answers computed from the present knowledge. That
  // requests are merely done at the commit, the clearing and the bump does not suffice.
  lemma QuietLookupsAreCurrent(start: System, events: seq<Event>, s: System, r: RequestId, found: RequestKey)
    requires Initial(start) && Run(start, events, s) && Orderly(start, events, Idle)
    ensures Enabled(s, MemoryHit(r, found)) ==> s.memory[found].oldest.knowledge == s.knowledge
    ensures Enabled(s, DatabaseHit(r, found)) ==>
              Found(s.rows, found, s.phases[r].epoch.value).value.oldest.knowledge == s.knowledge
  {
    InitialIsInv(start);
    var last, latest := OrderlyKeepsQuiet(start, events, Idle, 1, s);
    if Enabled(s, DatabaseHit(r, found)) && last == Idle {
      assert PhaseCurrent(s, s.phases[r], latest);
    }
  }
}
