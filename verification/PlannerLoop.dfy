/** One round of the ReAct loop and whole runs of it (agent/react_executor.py `run`, react_planner.py). */
module PlannerLoop {
  import opened Text
  import opened TableNames
  import opened PlannerActions
  import FocusSelection

  /* ---- confidence ---- */

  function MinReal(a: real, b: real): real {
    if a <= b then a else b
  }

  function MaxReal(a: real, b: real): real {
    if a >= b then a else b
  }

  function MaxInt(a: int, b: int): int {
    if a >= b then a else b
  }

  function Ratio(part: nat, whole: nat): real
    requires whole > 0
  {
    part as real / whole as real
  }

  // The tables the score is about: the focus, or else everything in scope.
  function ScoredTables(s: State): set<string> {
    var focus := ToSet(Names(s.focusTables));
    if focus != {} then focus else ToSet(Names(s.tablesInScope))
  }

  function Coverage(s: State, tables: set<string>): real {
    if tables == {} then 0.0 else Ratio(|tables * SchemaNames(s)|, |tables|)
  }

  function JoinShare(s: State, tables: set<string>): real {
    if |tables| > 1 then MinReal(1.0, Ratio(|s.joinPaths|, |tables| - 1))
    else if tables != {} then 1.0 else 0.0
  }

  function GroupShare(req: Request, s: State): real {
    if s.matchedGroups == [] then 0.0
    else MinReal(1.0, Ratio(|s.matchedGroups|, MaxInt(1, GroupBudget(req))))
  }

  function ExampleShare(s: State): real {
    if s.sampleQueries != [] || s.pastCorrections != [] then 1.0 else 0.0
  }

  function Weighted(share: real, weight: real): real {
    share * weight
  }

  function RawScore(req: Request, s: State): real {
    Weighted(Coverage(s, ScoredTables(s)), req.settings.tablesWeight)
    + Weighted(JoinShare(s, ScoredTables(s)), req.settings.joinWeight)
    + Weighted(GroupShare(req, s), req.settings.groupWeight)
    + Weighted(ExampleShare(s), req.settings.exampleWeight)
  }

  function Penalty(settings: Settings, iterationCount: int): real {
    MaxInt(0, iterationCount - 1) as real * settings.iterationPenalty
  }

  function Clamp(x: real): real {
    MaxReal(0.0, MinReal(1.0, x))
  }

  // compute_context_confidence_score
  function ConfidenceScore(req: Request, s: State, iterationCount: int): real {
    Clamp(RawScore(req, s) - Penalty(req.settings, iterationCount))
  }

  function GroupBudget(req: Request): int {
    if req.topK != 0 then req.topK else if req.settings.topK != 0 then req.settings.topK else 1
  }

  /* ---- which actions are on offer ---- */

  predicate Confident(req: Request, s: State) {
    s.score >= req.settings.threshold && s.tablesInScope != []
  }

  // The tables still without columns, among those that matter.
  function Uncovered(s: State, tables: seq<string>): seq<string> {
    if tables == [] then []
    else
      var last := tables[|tables| - 1];
      Uncovered(s, tables[..|tables| - 1]) + if Normalize(last) in SchemaKeys(s) then [] else [last]
  }

  predicate NeedsSchema(s: State) {
    var tables := OrElse(s.focusTables, s.tablesInScope);
    tables == [] || Uncovered(s, tables) != []
  }

  predicate NeedsJoins(s: State) {
    |s.focusTables| > 1 && s.joinPaths == []
  }

  predicate NeedsSamples(req: Request, s: State) {
    && s.score < req.settings.threshold
    && s.sampleQueries == []
    && (|s.focusTables| > 1 || s.matchedGroups == [] || s.lastErrors != [])
  }

  function Offer(condition: bool, action: Action): seq<Action> {
    if condition then [action] else []
  }

  // _build_available_actions
  function AvailableActions(req: Request, s: State, iteration: nat): (actions: seq<Action>)
    ensures actions != []
  {
    if iteration == 1 && !s.pastChecked then [RetrievePastCorrections]
    else if Confident(req, s) then [GenerateSql, RequestClarification, GiveUp]
    else
      Collected(NeedsSchema(s), NeedsJoins(s), NeedsSamples(req, s), OrElse(s.focusTables, s.tablesInScope) != [])
  }

  function Collected(schema: bool, joins: bool, samples: bool, tables: bool): (actions: seq<Action>)
    ensures actions != []
  {
    Offer(schema, RetrieveSchemaForTables) + Offer(joins, RetrieveJoinPaths)
    + Offer(samples, RetrieveSampleQueries) + Offer(tables, GenerateSql)
    + Offer(true, RequestClarification) + Offer(true, GiveUp)
  }

  // The position of an action on the list that _build_available_actions fills.
  function Place(action: Action): nat {
    match action
    case RetrieveSchemaForTables => 0
    case RetrieveJoinPaths => 1
    case RetrieveSampleQueries => 2
    case GenerateSql => 3
    case RequestClarification => 4
    case GiveUp => 5
    case _ => 6
  }

  ghost predicate InPlace(actions: seq<Action>, bound: nat) {
    && (forall i :: 0 <= i < |actions| ==> Place(actions[i]) < bound)
    && (forall i, j :: 0 <= i < j < |actions| ==> actions[i] != actions[j])
  }

  lemma OfferInPlace(actions: seq<Action>, condition: bool, action: Action)
    requires InPlace(actions, Place(action))
    ensures InPlace(actions + Offer(condition, action), Place(action) + 1)
  {
  }

  method Deduped(actions: seq<Action>) returns (deduped: seq<Action>)
    requires InPlace(actions, 6)
    ensures deduped == actions
  {
    deduped := [];
    for i := 0 to |actions|
      invariant deduped == actions[..i]
    {
      if actions[i] !in deduped {
        deduped := deduped + [actions[i]];
      }
    }
  }

  method BuildAvailableActions(req: Request, s: State, iteration: nat) returns (deduped: seq<Action>)
    ensures deduped == AvailableActions(req, s, iteration)
  {
    if iteration == 1 && !s.pastChecked {
      return [RetrievePastCorrections];
    }
    if Confident(req, s) {
      return [GenerateSql, RequestClarification, GiveUp];
    }
    deduped := CollectActions(NeedsSchema(s), NeedsJoins(s), NeedsSamples(req, s),
                              OrElse(s.focusTables, s.tablesInScope) != []);
  }

  method AppendIf(condition: bool, actions: seq<Action>, action: Action) returns (more: seq<Action>)
    requires InPlace(actions, Place(action))
    ensures more == actions + Offer(condition, action) && InPlace(more, Place(action) + 1)
  {
    OfferInPlace(actions, condition, action);
    more := actions;
    if condition {
      more := more + [action];
    }
  }

  lemma NothingInPlace()
    ensures InPlace([], 0)
  {
  }

  method CollectActions(schema: bool, joins: bool, samples: bool, tables: bool) returns (deduped: seq<Action>)
    ensures deduped == Collected(schema, joins, samples, tables)
  {
    hide InPlace, Offer;
    assert InPlace([], 0) by { NothingInPlace(); }
    var actions := AppendIf(schema, [], RetrieveSchemaForTables);
    assert actions == Offer(schema, RetrieveSchemaForTables);
    actions := AppendIf(joins, actions, RetrieveJoinPaths);
    actions := AppendIf(samples, actions, RetrieveSampleQueries);
    actions := AppendIf(tables, actions, GenerateSql);
    actions := AppendIf(true, actions, RequestClarification);
    actions := AppendIf(true, actions, GiveUp);
    deduped := Deduped(actions);
  }

  /* ---- choosing ---- */

  datatype Choice = Choice(action: Action, input: string)

  const NO_TARGETS := "Retrieve targeted schema for the current question."
  const CONFIDENT_INPUT := "Context confidence threshold reached; generate SQL with available context."
  const UNPARSED := "Could not parse action"
  const UNAVAILABLE :=
    "Planner selected an unavailable action; using the highest-priority available action instead."
  const SCHEMA_BLOCKED :=
    "Duplicate schema retrieval blocked because the requested table set was already retrieved in this session."
  const ACTION_BLOCKED := "Duplicate planner action blocked by the iteration memory guard."
  const REGENERATE := "Previous SQL failed validation; regenerate SQL to fix validation errors."

  function Either(a: string, b: string): string {
    if a != "" then a else b
  }

  // _select_state_driven_action
  function StateDriven(req: Request, s: State, available: seq<Action>): Option<Choice> {
    if available == [RetrievePastCorrections] then Some(Choice(RetrievePastCorrections, req.searchQuery))
    else
      var focus := Names(s.focusTables);
      var tables := OrElse(focus, Names(s.tablesInScope));
      var uncovered := Drop(tables, SchemaNames(s));
      if RetrieveSchemaForTables in available && (tables == [] || uncovered != []) then
        var targets := OrElse(uncovered, tables);
        var input := if targets != [] then Join(targets, ", ") else req.searchQuery;
        Some(Choice(RetrieveSchemaForTables, Either(input, NO_TARGETS)))
      else if RetrieveJoinPaths in available && |focus| > 1 && s.joinPaths == [] then
        Some(Choice(RetrieveJoinPaths, Join(tables, ", ")))
      else None
  }

  // choose_recovery_action_for_parse_failure
  function Recovery(s: State, payload: bool): Option<Choice> {
    if payload then None
    else if s.currentSql != "" then
      if s.lastErrors != [] then
        Some(Choice(GenerateSql, "Planner output was unparseable; regenerate SQL to fix validation errors."))
      else Some(Choice(ValidateAndReturn, "Planner output was unparseable; validate the current SQL."))
    else if s.tablesInScope == [] then
      Some(Choice(RetrieveSchemaForTables, "Planner output was unparseable; retrieve more schema context."))
    else Some(Choice(GenerateSql, "Planner output was unparseable; generate SQL from the retrieved context."))
  }

  // What the planning model's answer becomes: recovered if unparseable, and always on offer.
  function ModelChoice(s: State, available: seq<Action>, action: Action, input: string, payload: bool): Choice
    requires available != []
  {
    var said := Choice(action, input);
    var recovered := if said == Choice(GiveUp, UNPARSED) then Recovery(s, payload) else None;
    var choice := if recovered.Some? then recovered.value else said;
    if choice.action in available then choice else Choice(available[0], Either(choice.input, UNAVAILABLE))
  }

  datatype Plan = NoPlan(code: Code) | Planned(choice: Choice)

  function MakePlan(req: Request, s: State, iteration: nat, llm: LlmAnswer): Plan {
    var available := AvailableActions(req, s, iteration);
    var driven := StateDriven(req, s, available);
    if driven.Some? then Planned(driven.value)
    else if Confident(req, s) then Planned(Choice(GenerateSql, CONFIDENT_INPUT))
    else
      match llm
      case LlmFails(code) => NoPlan(code)
      case LlmSays(action, input, payload) => Planned(ModelChoice(s, available, action, input, payload))
  }

  /* ---- the memory guard ---- */

  predicate IsSchemaAction(action: Action) {
    action == RetrieveMoreContext || action == RetrieveSchemaForTables || action == FetchSchema
  }

  // The retrieved tables as the guard reads them.
  function RetrievedNames(s: State): set<string> {
    set t | t in s.retrievedTables && Strip(t) != "" :: Normalize(t)
  }

  function Fallback(s: State): Action {
    if s.tablesInScope != [] then GenerateSql else RequestClarification
  }

  // apply_iteration_memory_guard: the reason is empty when the action may go ahead.
  function GuardReason(req: Request, s: State, c: Choice): string {
    var target := ActionTarget(req, c.action, c.input, s);
    if IsSchemaAction(c.action) && ParseCsv(target) != [] && ToSet(ParseCsv(target)) <= RetrievedNames(s) then
      SCHEMA_BLOCKED
    else if (c.action, target) in s.actionsTaken then ACTION_BLOCKED
    else ""
  }

  function Guarded(req: Request, s: State, c: Choice): Choice {
    var reason := GuardReason(req, s, c);
    if reason == "" then c else Choice(Fallback(s), Either(c.input, reason))
  }

  // A failed validation is answered by generating again.
  function Redirected(s: State, c: Choice): Choice {
    if c.action == ValidateAndReturn && s.lastErrors != [] then Choice(GenerateSql, REGENERATE) else c
  }

  /* ---- narrowing the scope before generation, or refocusing ---- */

  function HitsOf(hits: seq<(string, real)>): (r: seq<FocusSelection.Hit>)
    ensures |r| == |hits|
  {
    seq(|hits|, i requires 0 <= i < |hits| => FocusSelection.Hit(hits[i].0, hits[i].1))
  }

  function FocusedTables(req: Request, s: State, hits: seq<(string, real)>): seq<string> {
    var before := Names(s.tablesInScope);
    if before == [] then []
    else if s.embedding.Some? then FocusSelection.Focus(before, HitsOf(hits), req.settings.maxTables)
    else FocusSelection.FirstOf(before, req.settings.maxTables)
  }

  // The scope is too wide and no column was ever refreshed: retrieve first.
  predicate MustRefocus(req: Request, s: State, focused: seq<string>) {
    |Names(s.tablesInScope)| > req.settings.maxTables && s.columnsRefreshed == {} && focused != []
  }

  // The state and the choice that are actually executed.
  function Narrowed(req: Request, s: State, c: Choice, a: Answers): (State, Choice) {
    if c.action != GenerateSql then (s.(generationTables := []), c)
    else
      var embedded := s.(embedding := if s.embedding.Some? then s.embedding else a.embedding);
      var focused := FocusedTables(req, embedded, a.hits);
      var narrowed := embedded.(generationTables := focused);
      if MustRefocus(req, s, focused)
      then (narrowed, Choice(RetrieveSchemaForTables, Join(focused, ",")))
      else (narrowed, c)
  }

  predicate Refocuses(req: Request, s: State, c: Choice, a: Answers) {
    c.action == GenerateSql && Narrowed(req, s, c, a).1.action == RetrieveSchemaForTables
  }

  /* ---- responses ---- */

  datatype Step = Step(iteration: nat, action: Action, input: string)

  datatype Trace = Trace(steps: seq<Step>, totalIterations: nat, finalAction: Action)

  datatype Response =
    | Success(sql: string, warnings: seq<Code>, tablesUsed: seq<string>, matchedGroups: seq<string>,
              attemptCount: nat, trace: Trace)
    | Rejected(warnings: seq<Code>, attemptCount: nat, trace: Trace)
    | Clarification(reason: string, warnings: seq<Code>, trace: Trace)

  /* ---- the loop ---- */

  datatype Loop = Loop(
    state: State,
    iteration: nat,
    planner: nat,          // planner_iterations, the counted rounds
    steps: seq<Step>,
    warnings: seq<Code>,
    last: Action)

  datatype RoundEnd = GoOn(l: Loop) | Ends(response: Response, l: Loop)

  predicate IsRetrieval(action: Action) {
    action in {RetrievePastCorrections, RetrieveSchemaForTables, RetrieveJoinPaths, RetrieveSampleQueries,
               RetrieveMoreContext, FetchSchema}
  }

  predicate IsFinal(action: Action) {
    action in {GiveUp, AskClarification, RequestClarification}
  }

  function LastAction(l: Loop): Action {
    if l.steps == [] then GiveUp else l.last
  }

  function TraceOf(l: Loop): Trace {
    Trace(l.steps, |l.steps|, LastAction(l))
  }

  // The state a round plans in: the confidence score is recomputed first.
  function Scored(req: Request, l: Loop): State {
    l.state.(score := ConfidenceScore(req, l.state, MaxInt(1, l.planner + 1)))
  }

  // The choice after the guard and the validation redirect, and whether round one runs in parallel.
  function Decided(req: Request, s: State, c: Choice): Choice {
    Redirected(s, Guarded(req, s, c))
  }

  predicate InParallel(s: State, iteration: nat, action: Action) {
    iteration == 1 && action == RetrievePastCorrections && !s.pastChecked
  }

  // Executing the choice and remembering it.
  function Performed(req: Request, s: State, iteration: nat, c: Choice, a: Answers): (State, seq<Code>) {
    if InParallel(s, iteration, c.action) then
      var done := FirstRound(req, s, a);
      (done.(actionsTaken := done.actionsTaken
             + [(RetrievePastCorrections, ActionTarget(req, RetrievePastCorrections, c.input, done)),
                (RetrieveSchemaForTables, ActionTarget(req, RetrieveSchemaForTables, "", done))]), [])
    else
      var (done, warnings) := Execute(req, s, c.action, c.input, a);
      (done.(actionsTaken := done.actionsTaken + [(c.action, ActionTarget(req, c.action, c.input, done))]), warnings)
  }

  // Generated SQL is validated in the same round.
  function Validated(s: State, action: Action, warnings: seq<Code>, review: Review): (State, seq<Code>, bool) {
    if action == GenerateSql && BlockingWarnings(warnings) == [] then
      var (checked, more) := ValidateAction(s, review);
      (checked, warnings + more, true)
    else (s, warnings, false)
  }

  // What is decided at the end of a round from the executed choice and its warnings.
  function Settle(s: State, l: Loop, c: Choice, completed: Action, warnings: seq<Code>): RoundEnd {
    var iteration := l.iteration + 1;
    var blocking := BlockingWarnings(warnings);
    var next := Loop(s, iteration,
                     if IsRetrieval(c.action) then l.planner else l.planner + 1,
                     l.steps + [Step(iteration, c.action, c.input)],
                     l.warnings,
                     completed);
    if IsTransportFailure(warnings) then
      Ends(Rejected(l.warnings + warnings, MaxInt(1, next.planner), Trace(next.steps, iteration, completed)), next)
    else if IsFinal(c.action) then
      Ends(Clarification(Either(c.input, "Could not generate valid SQL"), l.warnings,
                         Trace(next.steps, iteration, c.action)), next)
    else if completed == ValidateAndReturn && blocking == [] then
      Ends(Success(s.currentSql, InfoWarnings(warnings), s.tablesUsed, s.matchedGroups,
                   MaxInt(1, s.sqlGenerationCount), Trace(next.steps, iteration, completed)), next)
    else
      GoOn(next.(warnings := if blocking == [] then l.warnings else l.warnings + warnings))
  }

  function CompletedAction(s: State, iteration: nat, action: Action, validated: bool): Action {
    if InParallel(s, iteration, action) then RetrieveSchemaForTables
    else if validated then ValidateAndReturn
    else action
  }

  // A round from the planned choice on.
  function Act(req: Request, l: Loop, s: State, plan: Choice, a: Answers): RoundEnd {
    var iteration := l.iteration + 1;
    var (narrowed, c) := Narrowed(req, s, Decided(req, s, plan), a);
    var (done, warnings) := Performed(req, narrowed, iteration, c, a);
    var (checked, all, validated) := Validated(done, c.action, warnings, a.review);
    Settle(checked, l, c, CompletedAction(narrowed, iteration, c.action, validated), all)
  }

  function Round(req: Request, l: Loop, a: Answers): RoundEnd {
    var s := Scored(req, l);
    match MakePlan(req, s, l.iteration + 1, a.llm)
    case NoPlan(code) =>
      Ends(Rejected(l.warnings + [code], |l.steps|, TraceOf(l)), l.(state := s))
    case Planned(choice) => Act(req, l, s, choice, a)
  }

  predicate Continues(req: Request, l: Loop) {
    l.planner < req.settings.maxIterations || !l.state.pastChecked
  }

  // The loop condition failed. The reason given to the user is the list of the warnings' codes.
  function Exhausted(l: Loop): Response {
    var warnings := if l.steps != [] && IsFinal(l.steps[|l.steps| - 1].action) then l.warnings
                    else l.warnings + [MaxRetriesExceeded];
    Clarification("", warnings, TraceOf(l))
  }

  // The time budget ran out before the next round.
  function TimedOut(l: Loop): Response {
    Rejected(l.warnings + [RequestTimeout], l.planner, TraceOf(l))
  }

  // A run whose deadline lets |rounds| rounds start.
  function Run(req: Request, l: Loop, rounds: seq<Answers>): Response
    decreases |rounds|
  {
    if !Continues(req, l) then Exhausted(l)
    else if rounds == [] then TimedOut(l)
    else
      match Round(req, l, rounds[0])
      case Ends(response, _) => response
      case GoOn(next) => Run(req, next, rounds[1..])
  }

  // Where the run stands when it ends: every reachable state is one of these, for shorter |rounds|.
  function Final(req: Request, l: Loop, rounds: seq<Answers>): Loop
    decreases |rounds|
  {
    if !Continues(req, l) || rounds == [] then l
    else
      match Round(req, l, rounds[0])
      case Ends(_, end) => end
      case GoOn(next) => Final(req, next, rounds[1..])
  }

  function InitialState(skipPast: bool): State {
    State("", [], [], [], [], {}, {}, [], [], "", [], 0, [], [], [], skipPast, [], [], None, 0.0)
  }

  // The bootstrap retrieval before the loop; `skipPast` is set for simple questions.
  function Bootstrapped(req: Request, skipPast: bool, bootstrap: SchemaAnswer): Loop {
    Loop(SchemaAction(req, InitialState(skipPast), req.searchQuery, bootstrap), 0, 0, [], [], GiveUp)
  }
}
