/** The bounded, batching event pipeline (observability/logger.py) fed by TraceRecorder (main.py). */
module EventPipeline {

  // An event is identified by the recorder that emitted it and that recorder's sequence number.
  datatype Event = Event(recorder: nat, seqNo: nat)

  datatype Item = Payload(event: Event) | Sentinel

  // The worker task. `last` marks the flush that follows the sentinel.
  datatype Worker =
    | Absent
    | Collecting(batch: seq<Event>)
    | Flushing(batch: seq<Event>, handled: nat, last: bool)
    | Finished

  datatype StopPhase = NotStopping | PuttingSentinel | AwaitingWorker

  // A queue size of zero or less means unbounded, as in asyncio.
  datatype Config = Config(queueSize: int, batchSize: int)

  datatype Core = Core(queue: seq<Item>, worker: Worker, stop: StopPhase, flushed: seq<Event>)

  predicate HasRoom(config: Config, queue: seq<Item>) {
    config.queueSize <= 0 || |queue| < config.queueSize
  }

  /* ---- what each atomic segment does ---- */

  // publish: append, or drop when the queue is full.
  function Offer(config: Config, c: Core, e: Event): (Core, bool) {
    if HasRoom(config, c.queue) then (c.(queue := c.queue + [Payload(e)]), true) else (c, false)
  }

  // The worker received the head of the queue.
  function TakeItem(config: Config, c: Core): Core
    requires c.worker.Collecting? && c.queue != []
  {
    var rest := c.(queue := c.queue[1..]);
    match c.queue[0]
    case Sentinel =>
      rest.(worker := if c.worker.batch != [] then Flushing(c.worker.batch, 0, true) else Finished)
    case Payload(e) =>
      var batch := c.worker.batch + [e];
      rest.(worker := if |batch| >= config.batchSize then Flushing(batch, 0, false) else Collecting(batch))
  }

  // The worker's wait timed out.
  function Expire(c: Core): Core
    requires c.worker.Collecting?
  {
    if c.worker.batch != [] then c.(worker := Flushing(c.worker.batch, 0, false)) else c
  }

  // One event of the batch is observed, logged and persisted (a failing write is only logged).
  function FlushOne(c: Core): Core
    requires c.worker.Flushing? && c.worker.handled < |c.worker.batch|
  {
    c.(flushed := c.flushed + [c.worker.batch[c.worker.handled]],
       worker := c.worker.(handled := c.worker.handled + 1))
  }

  function EndFlush(c: Core): Core
    requires c.worker.Flushing?
  {
    c.(worker := if c.worker.last then Finished else Collecting([]))
  }

  function FlushRest(c: Core): Core
    requires c.worker.Flushing? && c.worker.handled <= |c.worker.batch|
    decreases |c.worker.batch| - c.worker.handled
  {
    if c.worker.handled < |c.worker.batch| then FlushRest(FlushOne(c)) else EndFlush(c)
  }

  class AsyncObservabilityPipeline {
    const config: Config
    var queue: seq<Item>
    var worker: Worker
    var stop: StopPhase
    var flushed: seq<Event>

    constructor (config: Config)
      ensures this.config == config && State() == Core([], Absent, NotStopping, [])
    {
      this.config := config;
      queue, worker, stop, flushed := [], Absent, NotStopping, [];
    }

    ghost function State(): Core
      reads this
    {
      Core(queue, worker, stop, flushed)
    }

    method Publish(e: Event) returns (ghost accepted: bool)
      modifies this`queue
      ensures (State(), accepted) == Offer(config, old(State()), e)
      ensures accepted <==> config.queueSize <= 0 || |old(queue)| < config.queueSize
      ensures queue == if accepted then old(queue) + [Payload(e)] else old(queue)
    {
      accepted := false;
      if HasRoom(config, queue) {
        queue := queue + [Payload(e)];
        accepted := true;
      }
    }

    method Receive()
      requires worker.Collecting? && queue != []
      modifies this`queue, this`worker
      ensures State() == TakeItem(config, old(State()))
      ensures queue == old(queue)[1..]
      ensures match old(queue)[0]
              case Sentinel =>
                if old(worker).batch == [] then worker == Finished else worker == Flushing(old(worker).batch, 0, true)
              case Payload(e) =>
                var batch := old(worker).batch + [e];
                if |batch| < config.batchSize then worker == Collecting(batch) else worker == Flushing(batch, 0, false)
    {
      var item, batch := queue[0], worker.batch;
      queue := queue[1..];
      match item {
        case Sentinel =>
          if batch != [] {
            worker := Flushing(batch, 0, true);
          } else {
            worker := Finished;
          }
        case Payload(e) =>
          batch := batch + [e];
          worker := Collecting(batch);
          if |batch| >= config.batchSize {
            worker := Flushing(batch, 0, false);
          }
      }
    }

    method TimeOut()
      requires worker.Collecting?
      modifies this`worker
      ensures State() == Expire(old(State()))
      ensures worker == if old(worker).batch == [] then old(worker) else Flushing(old(worker).batch, 0, false)
    {
      if worker.batch != [] {
        worker := Flushing(worker.batch, 0, false);
      }
    }

    // The whole flush, when nothing interleaves with it.
    method Flush()
      requires worker.Flushing? && worker.handled <= |worker.batch|
      modifies this`worker, this`flushed
      ensures State() == FlushRest(old(State()))
      ensures flushed == old(flushed) + old(worker).batch[old(worker).handled..]
      ensures worker == if old(worker).last then Finished else Collecting([])
    {
      while worker.handled < |worker.batch|
        invariant worker.Flushing? && worker.handled <= |worker.batch|
        invariant queue == old(queue) && stop == old(stop)
        invariant FlushRest(State()) == FlushRest(old(State()))
        invariant worker.batch == old(worker).batch && worker.last == old(worker).last
        invariant old(worker).handled <= worker.handled
        invariant flushed == old(flushed) + worker.batch[old(worker).handled..worker.handled]
        decreases |worker.batch| - worker.handled
      {
        flushed := flushed + [worker.batch[worker.handled]];
        worker := worker.(handled := worker.handled + 1);
      }
      worker := if worker.last then Finished else Collecting([]);
    }
  }

  class TraceRecorder {
    const id: nat
    const pipeline: AsyncObservabilityPipeline
    var seqNo: nat

    constructor (id: nat, pipeline: AsyncObservabilityPipeline)
      ensures this.id == id && this.pipeline == pipeline && seqNo == 0
    {
      this.id, this.pipeline, seqNo := id, pipeline, 0;
    }

    method Emit() returns (ghost accepted: bool)
      modifies this, pipeline`queue
      ensures seqNo == old(seqNo) + 1
      ensures (pipeline.State(), accepted) ==
              Offer(pipeline.config, old(pipeline.State()), Event(id, seqNo))
      ensures accepted <==> pipeline.config.queueSize <= 0 || |old(pipeline.queue)| < pipeline.config.queueSize
      ensures pipeline.queue == old(pipeline.queue) + if accepted then [Payload(Event(id, seqNo))] else []
    {
      seqNo := seqNo + 1;
      accepted := pipeline.Publish(Event(id, seqNo));
    }
  }

  /* ---- every interleaving of recorders, worker and stop ---- */

  datatype System = System(
    core: Core,
    seqNos: map<nat, nat>,       // each recorder's counter
    accepted: seq<Event>,
    dropped: set<Event>,
    sentinelAt: nat)             // how many events had been accepted when the last sentinel went in

  datatype Step =
    | Emit(recorder: nat)
    | Start
    | StopCall
    | StopPut
    | StopReturn
    | Get
    | Timeout
    | FlushEvent
    | FlushEnd

  ghost predicate Enabled(config: Config, s: System, step: Step) {
    match step
    case Emit(_) => true
    case Start => s.core.stop == NotStopping
    case StopCall => s.core.stop == NotStopping
    case StopPut => s.core.stop == PuttingSentinel && HasRoom(config, s.core.queue)
    case StopReturn => s.core.stop == AwaitingWorker && s.core.worker == Finished
    case Get => s.core.worker.Collecting? && s.core.queue != []
    case Timeout => s.core.worker.Collecting?
    case FlushEvent => s.core.worker.Flushing? && s.core.worker.handled < |s.core.worker.batch|
    case FlushEnd => s.core.worker.Flushing? && s.core.worker.handled == |s.core.worker.batch|
  }

  function Counter(seqNos: map<nat, nat>, recorder: nat): nat {
    if recorder in seqNos then seqNos[recorder] else 0
  }

  function EmitStep(config: Config, s: System, recorder: nat): System {
    var e := Event(recorder, Counter(s.seqNos, recorder) + 1);
    var (core, ok) := Offer(config, s.core, e);
    s.(core := core,
       seqNos := s.seqNos[recorder := e.seqNo],
       accepted := if ok then s.accepted + [e] else s.accepted,
       dropped := if ok then s.dropped else s.dropped + {e})
  }

  ghost function Next(config: Config, s: System, step: Step): System
    requires Enabled(config, s, step)
  {
    var c := s.core;
    match step
    case Emit(recorder) => EmitStep(config, s, recorder)
    case Start =>
      if c.worker.Absent? || c.worker.Finished? then s.(core := c.(worker := Collecting([]))) else s
    case StopCall => if c.worker.Absent? then s else s.(core := c.(stop := PuttingSentinel))
    case StopPut =>
      s.(core := c.(queue := c.queue + [Sentinel], stop := AwaitingWorker), sentinelAt := |s.accepted|)
    case StopReturn => s.(core := c.(worker := Absent, stop := NotStopping))
    case Get => s.(core := TakeItem(config, c))
    case Timeout => s.(core := Expire(c))
    case FlushEvent => s.(core := FlushOne(c))
    case FlushEnd => s.(core := EndFlush(c))
  }

  function EventsIn(queue: seq<Item>): seq<Event> {
    if queue == [] then []
    else (if queue[0].Payload? then [queue[0].event] else []) + EventsIn(queue[1..])
  }

  // Events ahead of the first sentinel.
  function BeforeSentinel(queue: seq<Item>): seq<Event> {
    if queue == [] || queue[0].Sentinel? then [] else [queue[0].event] + BeforeSentinel(queue[1..])
  }

  function Sentinels(queue: seq<Item>): nat {
    if queue == [] then 0 else (if queue[0].Sentinel? then 1 else 0) + Sentinels(queue[1..])
  }

  // Events the worker holds and has not flushed yet.
  function Held(w: Worker): seq<Event> {
    match w
    case Collecting(batch) => batch
    case Flushing(batch, handled, _) => if handled <= |batch| then batch[handled..] else []
    case _ => []
  }

  lemma {:induction false} EventsAppend(queue: seq<Item>, item: Item)
    ensures EventsIn(queue + [item]) == EventsIn(queue) + EventsIn([item])
  {
    if queue == [] {
      assert queue + [item] == [item];
      assert [] + EventsIn([item]) == EventsIn([item]);
    } else {
      var head := if queue[0].Payload? then [queue[0].event] else [];
      EventsAppend(queue[1..], item);
      assert (queue + [item])[0] == queue[0] && (queue + [item])[1..] == queue[1..] + [item];
      AppendAssociates(head, EventsIn(queue[1..]), EventsIn([item]));
    }
  }

  lemma AppendAssociates<T>(a: seq<T>, b: seq<T>, c: seq<T>)
    ensures a + (b + c) == (a + b) + c
  {
  }

  lemma {:induction false} SentinelsAppend(queue: seq<Item>, item: Item)
    ensures Sentinels(queue + [item]) == Sentinels(queue) + Sentinels([item])
  {
    if queue == [] {
      assert queue + [item] == [item];
    } else {
      SentinelsAppend(queue[1..], item);
      assert (queue + [item])[0] == queue[0] && (queue + [item])[1..] == queue[1..] + [item];
    }
  }

  lemma {:induction false} BeforeSentinelAppend(queue: seq<Item>, item: Item)
    ensures BeforeSentinel(queue + [item]) ==
            if Sentinels(queue) > 0 then BeforeSentinel(queue)
            else BeforeSentinel(queue) + BeforeSentinel([item])
  {
    if queue == [] {
      assert queue + [item] == [item];
      assert [] + BeforeSentinel([item]) == BeforeSentinel([item]);
    } else {
      BeforeSentinelAppend(queue[1..], item);
      assert (queue + [item])[0] == queue[0] && (queue + [item])[1..] == queue[1..] + [item];
      if queue[0].Payload? {
        AppendAssociates([queue[0].event], BeforeSentinel(queue[1..]), BeforeSentinel([item]));
      }
    }
  }

  lemma {:induction false} NothingButEvents(queue: seq<Item>)
    requires Sentinels(queue) == 0
    ensures BeforeSentinel(queue) == EventsIn(queue)
  {
    if queue != [] {
      NothingButEvents(queue[1..]);
    }
  }

  lemma QueueAppend(queue: seq<Item>, item: Item)
    ensures EventsIn(queue + [item]) == EventsIn(queue) + EventsIn([item])
    ensures Sentinels(queue + [item]) == Sentinels(queue) + Sentinels([item])
    ensures BeforeSentinel(queue + [item]) ==
            if Sentinels(queue) > 0 then BeforeSentinel(queue)
            else BeforeSentinel(queue) + BeforeSentinel([item])
    ensures Sentinels(queue) == 0 ==> BeforeSentinel(queue) == EventsIn(queue)
  {
    hide EventsIn, Sentinels, BeforeSentinel;
    EventsAppend(queue, item);
    SentinelsAppend(queue, item);
    BeforeSentinelAppend(queue, item);
    if Sentinels(queue) == 0 {
      NothingButEvents(queue);
    }
  }

  /* ---- invariants ---- */

  // Nothing is lost, duplicated or reordered.
  ghost predicate Conserved(s: System) {
    s.accepted == s.core.flushed + Held(s.core.worker) + EventsIn(s.core.queue)
  }

  ghost predicate Bounded(config: Config, s: System) {
    && (config.queueSize > 0 ==> |s.core.queue| <= config.queueSize)
    && (s.core.worker.Collecting? ==> s.core.worker.batch == [] || |s.core.worker.batch| < config.batchSize)
    && (s.core.worker.Flushing? ==> s.core.worker.handled <= |s.core.worker.batch|)
  }

  ghost predicate SentinelConsumed(w: Worker) {
    w.Finished? || (w.Flushing? && w.last)
  }

  // Where the sentinel is, and what lies ahead of it.
  ghost predicate SentinelTracked(s: System) {
    var c := s.core;
    && s.sentinelAt <= |s.accepted|
    && (c.stop == AwaitingWorker && !SentinelConsumed(c.worker) ==>
         && Sentinels(c.queue) == 1
         && s.accepted[..s.sentinelAt] == c.flushed + Held(c.worker) + BeforeSentinel(c.queue))
    && (c.stop == AwaitingWorker && SentinelConsumed(c.worker) ==>
         && Sentinels(c.queue) == 0
         && s.accepted[..s.sentinelAt] == c.flushed + Held(c.worker))
    && (c.stop != AwaitingWorker ==> Sentinels(c.queue) == 0 && !SentinelConsumed(c.worker))
    && (c.stop != NotStopping ==> !c.worker.Absent?)
  }

  // A recorder's accepted numbers increase strictly and each issued number is accepted or dropped.
  ghost predicate Numbered(accepted: seq<Event>, dropped: set<Event>, seqNos: map<nat, nat>) {
    && (forall e :: e in accepted || e in dropped ==> 1 <= e.seqNo <= Counter(seqNos, e.recorder))
    && (forall i, j :: 0 <= i < j < |accepted| && accepted[i].recorder == accepted[j].recorder
          ==> accepted[i].seqNo < accepted[j].seqNo)
    && (forall r: nat, n: nat :: 1 <= n <= Counter(seqNos, r) ==>
          (Event(r, n) in accepted <==> Event(r, n) !in dropped))
  }

  ghost predicate CoreInv(config: Config, s: System) {
    Conserved(s) && Bounded(config, s) && SentinelTracked(s)
  }

  ghost predicate Inv(config: Config, s: System) {
    CoreInv(config, s) && Numbered(s.accepted, s.dropped, s.seqNos)
  }

  ghost predicate Initial(s: System) {
    s == System(Core([], Absent, NotStopping, []), map[], [], {}, 0)
  }

  lemma EmitKeepsNumbering(config: Config, s: System, recorder: nat)
    requires Numbered(s.accepted, s.dropped, s.seqNos)
    ensures var next := EmitStep(config, s, recorder);
            Numbered(next.accepted, next.dropped, next.seqNos)
  {
    var next := EmitStep(config, s, recorder);
    var e := Event(recorder, Counter(s.seqNos, recorder) + 1);
    assert forall r: nat :: r != recorder ==> Counter(next.seqNos, r) == Counter(s.seqNos, r);
    assert Counter(next.seqNos, recorder) == Counter(s.seqNos, recorder) + 1;
    assert e !in s.accepted && e !in s.dropped;
    assert forall x :: x in next.accepted || x in next.dropped <==> x in s.accepted || x in s.dropped || x == e;
  }

  lemma OfferKeepsSentinel(config: Config, s: System, recorder: nat)
    requires SentinelTracked(s)
    ensures SentinelTracked(EmitStep(config, s, recorder))
  {
    var e := Event(recorder, Counter(s.seqNos, recorder) + 1);
    if HasRoom(config, s.core.queue) {
      QueueAppend(s.core.queue, Payload(e));
      assert (s.accepted + [e])[..s.sentinelAt] == s.accepted[..s.sentinelAt];
    }
  }

  lemma OfferKeepsConserved(config: Config, s: System, recorder: nat)
    requires Conserved(s)
    ensures Conserved(EmitStep(config, s, recorder))
  {
    hide EventsIn, Held, Counter;
    var e := Event(recorder, Counter(s.seqNos, recorder) + 1);
    if HasRoom(config, s.core.queue) {
      EventsAppend(s.core.queue, Payload(e));
      OneEvent(e);
      AppendAssociates(s.core.flushed + Held(s.core.worker), EventsIn(s.core.queue), [e]);
      EmittedQueue(config, s, recorder);
    }
  }

  lemma OneEvent(e: Event)
    ensures EventsIn([Payload(e)]) == [e]
  {
  }

  // An accepted event goes to the end of the queue and touches nothing else.
  lemma EmittedQueue(config: Config, s: System, recorder: nat)
    requires HasRoom(config, s.core.queue)
    ensures var e, next := Event(recorder, Counter(s.seqNos, recorder) + 1), EmitStep(config, s, recorder);
            next.core == s.core.(queue := s.core.queue + [Payload(e)]) && next.accepted == s.accepted + [e]
  {
  }

  lemma EmitKeepsInv(config: Config, s: System, recorder: nat)
    requires CoreInv(config, s)
    ensures CoreInv(config, EmitStep(config, s, recorder))
  {
    OfferKeepsSentinel(config, s, recorder);
    OfferKeepsConserved(config, s, recorder);
  }

  lemma GetKeepsOrder(config: Config, s: System)
    requires Conserved(s) && Enabled(config, s, Get)
    ensures var next := Next(config, s, Get).core;
            && next.flushed == s.core.flushed
            && Held(next.worker) + EventsIn(next.queue) == Held(s.core.worker) + EventsIn(s.core.queue)
            && (s.core.queue[0].Payload? ==>
                  Held(next.worker) + BeforeSentinel(next.queue)
                  == Held(s.core.worker) + BeforeSentinel(s.core.queue))
            && (s.core.queue[0].Sentinel? ==> Held(next.worker) == Held(s.core.worker))
  {
    var head, rest := s.core.queue[0], s.core.queue[1..];
    var batch := s.core.worker.batch;
    match head {
      case Payload(e) =>
        assert batch + EventsIn(s.core.queue) == (batch + [e]) + EventsIn(rest);
        assert batch + BeforeSentinel(s.core.queue) == (batch + [e]) + BeforeSentinel(rest);
      case Sentinel =>
        assert batch + EventsIn(s.core.queue) == batch + EventsIn(rest);
    }
  }

  lemma GetPayloadKeepsSentinel(config: Config, s: System)
    requires Conserved(s) && SentinelTracked(s) && Enabled(config, s, Get) && s.core.queue[0].Payload?
    ensures SentinelTracked(Next(config, s, Get))
  {
    var c, n := s.core, Next(config, s, Get).core;
    GetKeepsOrder(config, s);
    assert Sentinels(c.queue) == Sentinels(n.queue);
    AppendAssociates(c.flushed, Held(c.worker), BeforeSentinel(c.queue));
    AppendAssociates(n.flushed, Held(n.worker), BeforeSentinel(n.queue));
  }

  lemma GetSentinelKeepsSentinel(config: Config, s: System)
    requires Conserved(s) && SentinelTracked(s) && Enabled(config, s, Get) && s.core.queue[0].Sentinel?
    ensures SentinelTracked(Next(config, s, Get))
  {
    var c, n := s.core, Next(config, s, Get).core;
    assert Sentinels(c.queue) == 1 + Sentinels(n.queue);
    assert Held(n.worker) == Held(c.worker);
    assert c.flushed + Held(c.worker) + BeforeSentinel(c.queue) == c.flushed + Held(c.worker);
  }

  lemma GetKeepsConserved(config: Config, s: System)
    requires Conserved(s) && Enabled(config, s, Get)
    ensures Conserved(Next(config, s, Get))
  {
    hide EventsIn, BeforeSentinel, Held, TakeItem;
    var c, n := s.core, Next(config, s, Get).core;
    GetKeepsOrder(config, s);
    AppendAssociates(c.flushed, Held(c.worker), EventsIn(c.queue));
    AppendAssociates(n.flushed, Held(n.worker), EventsIn(n.queue));
  }

  lemma GetKeepsBounded(config: Config, s: System)
    requires Bounded(config, s) && Enabled(config, s, Get)
    ensures Bounded(config, Next(config, s, Get))
  {
  }

  lemma GetKeepsInv(config: Config, s: System)
    requires CoreInv(config, s) && Enabled(config, s, Get)
    ensures CoreInv(config, Next(config, s, Get))
  {
    GetKeepsConserved(config, s);
    GetKeepsBounded(config, s);
    if s.core.queue[0].Payload? {
      GetPayloadKeepsSentinel(config, s);
    } else {
      GetSentinelKeepsSentinel(config, s);
    }
  }

  lemma FlushEventKeepsInv(config: Config, s: System)
    requires CoreInv(config, s) && Enabled(config, s, FlushEvent)
    ensures CoreInv(config, Next(config, s, FlushEvent))
  {
    hide EventsIn, Sentinels, BeforeSentinel;
    var w, flushed := s.core.worker, s.core.flushed;
    var rest := w.batch[w.handled + 1..];
    assert w.batch[w.handled..] == [w.batch[w.handled]] + rest;
    AppendAssociates(flushed, [w.batch[w.handled]], rest);
  }

  lemma StopPutKeepsInv(config: Config, s: System)
    requires CoreInv(config, s) && Enabled(config, s, StopPut)
    ensures CoreInv(config, Next(config, s, StopPut))
  {
    QueueAppend(s.core.queue, Sentinel);
    assert EventsIn([Sentinel]) == [] && BeforeSentinel([Sentinel]) == [];
    assert s.accepted[..|s.accepted|] == s.accepted;
  }

  lemma StepKeepsCoreInv(config: Config, s: System, step: Step)
    requires CoreInv(config, s) && Enabled(config, s, step)
    ensures CoreInv(config, Next(config, s, step))
  {
    match step {
      case Emit(recorder) => EmitKeepsInv(config, s, recorder);
      case Get => GetKeepsInv(config, s);
      case FlushEvent => FlushEventKeepsInv(config, s);
      case StopPut => StopPutKeepsInv(config, s);
      case _ =>
    }
  }

  lemma StepKeepsInv(config: Config, s: System, step: Step)
    requires Inv(config, s) && Enabled(config, s, step)
    ensures Inv(config, Next(config, s, step))
  {
    StepKeepsCoreInv(config, s, step);
    if step.Emit? {
      EmitKeepsNumbering(config, s, step.recorder);
    }
  }

  ghost predicate Run(config: Config, start: System, steps: seq<Step>, end: System)
    decreases |steps|
  {
    if steps == [] then start == end
    else Enabled(config, start, steps[0])
         && Run(config, Next(config, start, steps[0]), steps[1..], end)
  }

  lemma {:induction false} RunKeepsInv(config: Config, start: System, steps: seq<Step>, end: System)
    requires Inv(config, start) && Run(config, start, steps, end)
    ensures Inv(config, end)
    decreases |steps|
  {
    if steps != [] {
      StepKeepsInv(config, start, steps[0]);
      RunKeepsInv(config, Next(config, start, steps[0]), steps[1..], end);
    }
  }

  // In every reachable state the accepted events are exactly the flushed ones, then those the
  // worker holds, then those queued, in publish order; the queue is within its size, and a batch that
  // is still collected is not full.
  lemma DeliveryIsExactlyOnce(config: Config, start: System, steps: seq<Step>, s: System)
    requires Initial(start) && Run(config, start, steps, s)
    ensures s.accepted == s.core.flushed + Held(s.core.worker) + EventsIn(s.core.queue)
    ensures config.queueSize > 0 ==> |s.core.queue| <= config.queueSize
    ensures s.core.worker.Collecting? ==> s.core.worker.batch == [] || |s.core.worker.batch| < config.batchSize
    ensures forall i, j :: 0 <= i < j < |s.accepted| ==> s.accepted[i] != s.accepted[j]
  {
    hide EventsIn, Held, Run, SentinelTracked, Numbered, Sentinels, BeforeSentinel;
    InitialIsInv(config, start);
    RunKeepsInv(config, start, steps, s);
    NumberedIsDistinct(s.accepted, s.dropped, s.seqNos);
  }

  lemma InitialIsInv(config: Config, start: System)
    requires Initial(start)
    ensures Inv(config, start)
  {
  }

  lemma NumberedIsDistinct(accepted: seq<Event>, dropped: set<Event>, seqNos: map<nat, nat>)
    requires Numbered(accepted, dropped, seqNos)
    ensures forall i, j :: 0 <= i < j < |accepted| ==> accepted[i] != accepted[j]
  {
    hide Counter;
  }

  // When stop returns, what was accepted before its sentinel is what has been flushed, in order.
  lemma StopFlushesEverythingBefore(config: Config, start: System, steps: seq<Step>, s: System)
    requires Initial(start) && Run(config, start, steps, s) && Enabled(config, s, StopReturn)
    ensures s.sentinelAt <= |s.accepted|
    ensures s.core.flushed == s.accepted[..s.sentinelAt]
    ensures EventsIn(s.core.queue) == s.accepted[s.sentinelAt..]
  {
    hide EventsIn, Run, Numbered;
    InitialIsInv(config, start);
    RunKeepsInv(config, start, steps, s);
    assert s.core.flushed + [] == s.core.flushed;
  }

  // An undropped event numbered below a flushed one of the same recorder is flushed too.
  lemma FlushedLeavesNoGap(config: Config, s: System, r: nat, m: nat, n: nat)
    requires Inv(config, s) && 1 <= m < n && Event(r, n) in s.core.flushed && Event(r, m) !in s.dropped
    ensures Event(r, m) in s.core.flushed
  {
    hide EventsIn, Held, Bounded, SentinelTracked, Numbered;
    FlushedIsPrefix(s);
    var j :| 0 <= j < |s.core.flushed| && s.core.flushed[j] == Event(r, n);
    assert s.accepted[j] == Event(r, n);
    var i := AcceptedBefore(s.accepted, s.dropped, s.seqNos, r, m, j);
    assert s.core.flushed[i] == s.accepted[i];
  }

  lemma AcceptedBefore(accepted: seq<Event>, dropped: set<Event>, seqNos: map<nat, nat>, r: nat, m: nat, j: nat)
    returns (i: nat)
    requires Numbered(accepted, dropped, seqNos) && j < |accepted| && accepted[j].recorder == r
    requires 1 <= m < accepted[j].seqNo && Event(r, m) !in dropped
    ensures i < j && accepted[i] == Event(r, m)
  {
    hide Counter;
    assert accepted[j] in accepted;
    assert Event(r, m) in accepted;
    i :| 0 <= i < |accepted| && accepted[i] == Event(r, m);
  }

  lemma FlushedIsPrefix(s: System)
    requires Conserved(s)
    ensures s.core.flushed <= s.accepted
  {
    hide EventsIn, Held;
  }

  /* ---- exactly what is dropped ---- */

  predicate Full(config: Config, s: System) {
    config.queueSize > 0 && |s.core.queue| == config.queueSize
  }

  // Wherever a run stands, an event is dropped exactly if the queue is full, and else goes to its end;
  // and the sentinel waits exactly while it is full.
  lemma FullDecides(config: Config, start: System, steps: seq<Step>, s: System, recorder: nat)
    requires Initial(start) && Run(config, start, steps, s)
    ensures var e, next := Event(recorder, Counter(s.seqNos, recorder) + 1), Next(config, s, Emit(recorder));
            if Full(config, s) then next.dropped == s.dropped + {e} && next.core == s.core
            else next.dropped == s.dropped && next.core == s.core.(queue := s.core.queue + [Payload(e)])
    ensures Enabled(config, s, StopPut) <==> s.core.stop == PuttingSentinel && !Full(config, s)
  {
    hide EventsIn, Held, Run, SentinelTracked, Conserved, Numbered;
    InitialIsInv(config, start);
    RunKeepsInv(config, start, steps, s);
  }

  // Some step of the run emits the event while the queue is full.
  ghost predicate EmittedWhenFull(config: Config, start: System, steps: seq<Step>, e: Event)
    decreases |steps|
  {
    && steps != [] && Enabled(config, start, steps[0])
    && (|| (steps[0] == Emit(e.recorder) && e.seqNo == Counter(start.seqNos, e.recorder) + 1 && Full(config, start))
        || EmittedWhenFull(config, Next(config, start, steps[0]), steps[1..], e))
  }

  lemma StepDrops(config: Config, s: System, step: Step, e: Event)
    requires Bounded(config, s) && Enabled(config, s, step)
    ensures e in Next(config, s, step).dropped <==>
              || e in s.dropped
              || (step == Emit(e.recorder) && e.seqNo == Counter(s.seqNos, e.recorder) + 1 && Full(config, s))
  {
    hide Counter;
  }

  lemma {:induction false} DropsOfRun(config: Config, start: System, steps: seq<Step>, end: System, e: Event)
    requires Inv(config, start) && Run(config, start, steps, end)
    ensures e in end.dropped <==> e in start.dropped || EmittedWhenFull(config, start, steps, e)
    decreases |steps|
  {
    hide Inv, Next, Enabled, Counter;
    if steps != [] {
      BoundedOfInv(config, start);
      StepDrops(config, start, steps[0], e);
      StepKeepsInv(config, start, steps[0]);
      DropsOfRun(config, Next(config, start, steps[0]), steps[1..], end, e);
    }
  }

  lemma BoundedOfInv(config: Config, s: System)
    requires Inv(config, s)
    ensures Bounded(config, s)
  {
  }

  // Over a whole run exactly the events emitted while the queue was full are dropped.
  lemma DroppedExactlyWhenFull(config: Config, start: System, steps: seq<Step>, s: System)
    requires Initial(start) && Run(config, start, steps, s)
    ensures forall e :: e in s.dropped <==> EmittedWhenFull(config, start, steps, e)
  {
    hide Run, EmittedWhenFull, Inv;
    InitialIsInv(config, start);
    forall e
      ensures e in s.dropped <==> EmittedWhenFull(config, start, steps, e)
    {
      DropsOfRun(config, start, steps, s, e);
    }
  }

  /* ---- the worker gets everything out ---- */

  predicate IsWorkerStep(step: Step) {
    step.Get? || step.Timeout? || step.FlushEvent? || step.FlushEnd?
  }

  ghost predicate WorkerRun(config: Config, start: System, steps: seq<Step>, end: System) {
    Run(config, start, steps, end) && forall i :: 0 <= i < |steps| ==> IsWorkerStep(steps[i])
  }

  lemma {:induction false} WorkerRunAppend(
    config: Config, s: System, a: seq<Step>, t: System, b: seq<Step>, u: System)
    requires WorkerRun(config, s, a, t) && WorkerRun(config, t, b, u)
    ensures WorkerRun(config, s, a + b, u)
    decreases |a|
  {
    hide Next, Enabled;
    if a == [] {
      assert a + b == b;
    } else {
      assert (a + b)[0] == a[0] && (a + b)[1..] == a[1..] + b;
      WorkerRunAppend(config, Next(config, s, a[0]), a[1..], t, b, u);
    }
  }

  lemma OneWorkerStep(config: Config, s: System, step: Step)
    requires Enabled(config, s, step) && IsWorkerStep(step)
    ensures WorkerRun(config, s, [step], Next(config, s, step))
  {
    var next := Next(config, s, step);
    assert Run(config, next, [], next);
    assert [step][1..] == [];
  }

  // A flush comes to its end with its whole batch flushed.
  lemma {:induction false} FlushCompletes(config: Config, s: System) returns (steps: seq<Step>, t: System)
    requires s.core.worker.Flushing? && s.core.worker.handled <= |s.core.worker.batch|
    ensures WorkerRun(config, s, steps, t) && t.accepted == s.accepted && t.core.queue == s.core.queue
    ensures t.core.worker == if s.core.worker.last then Finished else Collecting([])
    decreases |s.core.worker.batch| - s.core.worker.handled
  {
    var step := if s.core.worker.handled < |s.core.worker.batch| then FlushEvent else FlushEnd;
    OneWorkerStep(config, s, step);
    steps, t := [step], Next(config, s, step);
    if step == FlushEvent {
      var rest, end := FlushCompletes(config, t);
      WorkerRunAppend(config, s, [step], t, rest, end);
      steps, t := [step] + rest, end;
    }
  }

  lemma {:induction false} WorkerEmpties(config: Config, s: System) returns (steps: seq<Step>, t: System)
    requires s.core.worker.Collecting? || (s.core.worker.Flushing? && s.core.worker.handled <= |s.core.worker.batch|)
    ensures WorkerRun(config, s, steps, t) && t.accepted == s.accepted
    ensures t.core.worker == Finished || (t.core.worker == Collecting([]) && t.core.queue == [])
    decreases |s.core.queue|, if s.core.worker.Flushing? then 2 else if s.core.worker.batch != [] then 1 else 0
  {
    hide Run, WorkerRun;
    var first, next := [], s;
    if s.core.worker.Flushing? {
      first, next := FlushCompletes(config, s);
    } else if s.core.queue != [] {
      OneWorkerStep(config, s, Get);
      first, next := [Get], Next(config, s, Get);
    } else if s.core.worker.batch != [] {
      OneWorkerStep(config, s, Timeout);
      var mid := Next(config, s, Timeout);
      var more, end := FlushCompletes(config, mid);
      WorkerRunAppend(config, s, [Timeout], mid, more, end);
      first, next := [Timeout] + more, end;
    }
    if next == s {
      NoSteps(config, s);
      return [], s;
    }
    if next.core.worker == Finished {
      return first, next;
    }
    var rest, end := WorkerEmpties(config, next);
    WorkerRunAppend(config, s, first, next, rest, end);
    steps, t := first + rest, end;
  }

  lemma NoSteps(config: Config, s: System)
    ensures WorkerRun(config, s, [], s)
  {
  }

  // From wherever a run stands with a working worker, the worker alone gets everything accepted out,
  // or everything accepted before the sentinel if it meets one.
  lemma EverythingGetsOut(config: Config, start: System, before: seq<Step>, s: System)
    returns (steps: seq<Step>, t: System)
    requires Initial(start) && Run(config, start, before, s)
    requires s.core.worker.Collecting? || s.core.worker.Flushing?
    ensures WorkerRun(config, s, steps, t) && t.accepted == s.accepted
    ensures t.core.worker == Finished || t.core.flushed == s.accepted
    ensures t.core.worker == Finished ==> t.sentinelAt <= |s.accepted| && t.core.flushed == s.accepted[..t.sentinelAt]
  {
    hide EventsIn, Run, Numbered, BeforeSentinel, Sentinels;
    InitialIsInv(config, start);
    RunKeepsInv(config, start, before, s);
    steps, t := WorkerEmpties(config, s);
    RunKeepsInv(config, s, steps, t);
    if t.core.worker != Finished {
      assert EventsIn([]) == [];
    }
    assert t.core.flushed + [] == t.core.flushed;
  }

  // Flushed events of one recorder carry strictly increasing numbers, with gaps only for events
  // dropped on a full queue; and every number issued is flushed, still on its way, or was dropped.
  lemma RecorderOrderSurvives(config: Config, start: System, steps: seq<Step>, s: System)
    requires Initial(start) && Run(config, start, steps, s)
    ensures forall i, j :: 0 <= i < j < |s.core.flushed|
              && s.core.flushed[i].recorder == s.core.flushed[j].recorder
              ==> s.core.flushed[i].seqNo < s.core.flushed[j].seqNo
    ensures forall r: nat, m: nat, n: nat ::
              1 <= m < n && Event(r, n) in s.core.flushed && Event(r, m) !in s.dropped ==> Event(r, m) in s.core.flushed
    ensures forall r: nat, n: nat :: 1 <= n <= Counter(s.seqNos, r) && Event(r, n) !in s.dropped ==>
              Event(r, n) in s.core.flushed + Held(s.core.worker) + EventsIn(s.core.queue)
    ensures forall e :: e in s.core.flushed ==> e !in s.dropped
  {
    hide EventsIn, Held, Run, SentinelTracked, Bounded;
    InitialIsInv(config, start);
    RunKeepsInv(config, start, steps, s);
    FlushedIsPrefix(s);
    forall r: nat, m: nat, n: nat | 1 <= m < n && Event(r, n) in s.core.flushed && Event(r, m) !in s.dropped
      ensures Event(r, m) in s.core.flushed
    {
      FlushedLeavesNoGap(config, s, r, m, n);
    }
    assert forall i :: 0 <= i < |s.core.flushed| ==> s.accepted[i] == s.core.flushed[i];
  }
}
