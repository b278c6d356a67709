/**
 * How long the ReAct loop can go on without its deadline (agent/react_executor.py `run`): a linear
 * bound, exactly when the tables cannot outgrow the generation cap, and otherwise a loop that only
 * the deadline ends.
 */
module PlannerTermination {
  import opened Sets
  import opened Text
  import opened TableNames
  import opened PlannerMerges
  import opened PlannerActions
  import opened PlannerLoop
  import opened PlannerGrowth
  import opened PlannerAgreement
  import opened PlannerPlanning
  import opened PlannerAccounting

  /* ---- the measure ---- */

  // The tables and model inputs a run may meet.
  datatype World = World(tables: set<string>, inputs: set<string>)

  ghost predicate Within(a: Answers, w: World) {
    TablesOf(a) <= w.tables && (a.llm.LlmSays? ==> a.llm.input in w.inputs)
  }

  ghost predicate AllWithin(rounds: seq<Answers>, w: World) {
    forall i :: 0 <= i < |rounds| ==> Within(rounds[i], w)
  }

  ghost function OwnInputs(): set<string> {
    {OWN_INPUTS[0], OWN_INPUTS[1], OWN_INPUTS[2], OWN_INPUTS[3], OWN_INPUTS[4]}
  }

  ghost function Unretrieved(s: State, w: World): set<string> {
    set u | u in w.tables && Normalize(u) !in s.retrievedTables
  }

  ghost function Unscoped(s: State, w: World): set<string> {
    set u | u in w.tables && u !in s.tablesInScope
  }

  ghost function Unused(req: Request, s: State, w: World): set<string> {
    set i | i in w.inputs + OwnInputs() && (RetrieveSampleQueries, QueryTarget(req, i)) !in s.actionsTaken
  }

  function JoinKey(scope: seq<string>): string {
    Join(SortNames(NormalizeAll(scope)), ",")
  }

  function Bit(b: bool): nat {
    if b then 1 else 0
  }

  ghost predicate JoinsLeft(s: State) {
    (RetrieveJoinPaths, JoinKey(s.tablesInScope)) !in s.actionsTaken
  }

  // Nothing is in scope and the retrieval for that case has not been made.
  ghost predicate EmptyLeft(req: Request, s: State) {
    && s.tablesInScope == []
    && (RetrieveSchemaForTables, SchemaTarget(Either(req.searchQuery, NO_TARGETS), s)) !in s.actionsTaken
  }

  ghost function StateMeasure(req: Request, s: State, w: World): nat {
    |Unretrieved(s, w)| + |Unscoped(s, w)| + Bit(JoinsLeft(s)) + |Unused(req, s, w)|
    + Bit(EmptyLeft(req, s)) + Bit(s.columnsRefreshed == {}) + Bit(!s.pastChecked)
  }

  ghost function Measure(req: Request, l: Loop, w: World): nat {
    StateMeasure(req, l.state, w) + MaxInt(0, MaxInt(0, req.settings.maxIterations) - l.planner)
  }

  // No part of the measure grows along the run; the join retrieval may come back only when the
  // scope widens.
  ghost predicate NoneGrows(req: Request, s: State, t: State, w: World) {
    && |Unretrieved(t, w)| <= |Unretrieved(s, w)|
    && |Unscoped(t, w)| + Bit(JoinsLeft(t)) <= |Unscoped(s, w)| + Bit(JoinsLeft(s))
    && |Unused(req, t, w)| <= |Unused(req, s, w)|
    && Bit(EmptyLeft(req, t)) <= Bit(EmptyLeft(req, s))
    && Bit(t.columnsRefreshed == {}) <= Bit(s.columnsRefreshed == {})
    && Bit(!t.pastChecked) <= Bit(!s.pastChecked)
  }

  ghost predicate ScopeWithin(s: State, w: World) {
    forall x :: x in s.tablesInScope ==> x in w.tables
  }

  lemma ScopePartsShrink(s: State, more: set<string>, t: State, w: World)
    requires Grew(s, more, t) && ScopeWithin(t, w)
    ensures |Unscoped(t, w)| + Bit(JoinsLeft(t)) <= |Unscoped(s, w)| + Bit(JoinsLeft(s))
  {
    hide Settled, JoinKey, Contains;
    if s.tablesInScope == t.tablesInScope {
      assert Unscoped(t, w) == Unscoped(s, w);
    } else {
      var x := t.tablesInScope[|s.tablesInScope|];
      assert x in t.tablesInScope;
      NewItemIsNew(s, more, t);
      assert x in w.tables && x !in s.tablesInScope;
      ProperSubsetSize(Unscoped(t, w), Unscoped(s, w), x);
    }
  }

  lemma NewItemIsNew(s: State, more: set<string>, t: State)
    requires Grew(s, more, t) && s.tablesInScope != t.tablesInScope
    ensures |s.tablesInScope| < |t.tablesInScope| && t.tablesInScope[|s.tablesInScope|] !in s.tablesInScope
  {
    hide Contains;
    assert Tidy(t.tablesInScope);
    var n := |s.tablesInScope|;
    assert t.tablesInScope[..n] == s.tablesInScope;
    assert t.tablesInScope[..|t.tablesInScope|] == t.tablesInScope;
    forall i | 0 <= i < n
      ensures s.tablesInScope[i] != t.tablesInScope[n]
    {
      assert s.tablesInScope[i] == t.tablesInScope[i];
    }
  }

  lemma OtherPartsShrink(req: Request, s: State, more: set<string>, t: State, w: World)
    requires Grew(s, more, t)
    ensures |Unretrieved(t, w)| <= |Unretrieved(s, w)| && |Unused(req, t, w)| <= |Unused(req, s, w)|
    ensures Bit(t.columnsRefreshed == {}) <= Bit(s.columnsRefreshed == {})
    ensures Bit(!t.pastChecked) <= Bit(!s.pastChecked)
  {
    hide Settled, Normalize, QueryTarget, OwnInputs, Contains;
    SubsetSize(Unretrieved(t, w), Unretrieved(s, w));
    SubsetSize(Unused(req, t, w), Unused(req, s, w));
  }

  lemma EmptyPartShrinks(req: Request, s: State, more: set<string>, t: State)
    requires Grew(s, more, t)
    ensures Bit(EmptyLeft(req, t)) <= Bit(EmptyLeft(req, s))
  {
    hide Settled, SchemaTarget, Contains;
    if t.tablesInScope == [] {
      assert s.tablesInScope == [];
      TargetOnlyReadsScope(Either(req.searchQuery, NO_TARGETS), s, t);
    }
  }

  lemma GrowingShrinks(req: Request, s: State, more: set<string>, t: State, w: World)
    requires Grew(s, more, t) && ScopeWithin(t, w)
    ensures NoneGrows(req, s, t, w)
  {
    hide Grew, Unretrieved, Unscoped, Unused, JoinsLeft, EmptyLeft, ScopeWithin;
    ScopePartsShrink(s, more, t, w);
    OtherPartsShrink(req, s, more, t, w);
    EmptyPartShrinks(req, s, more, t);
  }

  /* ---- what a round leaves of the choice it executed ---- */

  ghost predicate SameFacts(s: State, t: State) {
    && s.tablesInScope == t.tablesInScope && s.retrievedTables == t.retrievedTables
    && s.columnsRefreshed == t.columnsRefreshed && s.actionsTaken == t.actionsTaken
    && s.pastChecked == t.pastChecked
  }

  lemma ValidatedKeepsFacts(s: State, action: Action, warnings: seq<Code>, review: Review)
    ensures SameFacts(s, Validated(s, action, warnings, review).0)
  {
    hide ReviewWarnings, TablesUsed, BlockingWarnings;
  }

  // The executed choice and the state in which it is executed.
  ghost function Executed(req: Request, l: Loop, a: Answers, plan: Choice): (State, Choice) {
    Narrowed(req, Scored(req, l), Decided(req, Scored(req, l), plan), a)
  }

  lemma RoundFacts(req: Request, l: Loop, a: Answers, plan: Choice)
    requires MakePlan(req, Scored(req, l), l.iteration + 1, a.llm) == Planned(plan)
    requires |l.steps| == l.iteration && Numbered(l.steps)
    ensures var (narrowed, c) := Executed(req, l, a, plan);
            var end := Round(req, l, a).l;
            && SameFacts(Performed(req, narrowed, l.iteration + 1, c, a).0, end.state)
            && end.planner == l.planner + (if IsRetrieval(c.action) then 0 else 1)
  {
    hide MakePlan, ConfidenceScore, Narrowed, Performed, Validated, Settle, Decided, CompletedAction,
         IsRetrieval, Numbered;
    var s := Scored(req, l);
    var (narrowed, c) := Narrowed(req, s, Decided(req, s, plan), a);
    var (done, warnings) := Performed(req, narrowed, l.iteration + 1, c, a);
    var (checked, all, validated) := Validated(done, c.action, warnings, a.review);
    ValidatedKeepsFacts(done, c.action, warnings, a.review);
    SettleCounts(checked, l, c, CompletedAction(narrowed, l.iteration + 1, c.action, validated), all);
  }

  /* ---- each kind of uncounted round makes progress ---- */

  // A schema retrieval planned for tables that lack columns retrieves a table not retrieved before.
  lemma SchemaTargetsNew(req: Request, s: State, c: Choice) returns (x: string)
    requires Agrees(s) && PlansSchema(req, s, c) && s.tablesInScope != [] && GuardReason(req, s, c) == ""
    ensures x in ParseCsv(c.input) && x !in s.retrievedTables && x in Names(s.tablesInScope)
  {
    hide Agrees, Missing, ParseCsv, Names, Canonical;
    var targets := ParseCsv(c.input);
    ParsedMissing(s);
    MissingIsCanonical(s);
    WantedOf(s);
    ParseJoinTidy(targets);
    TargetsJoined(s, c.input);
    RetrievedAreThemselves(s);
    assert !(ToSet(targets) <= RetrievedNames(s));
    x :| x in targets && x !in s.retrievedTables;
  }

  lemma TargetsJoined(s: State, input: string)
    requires ParseCsv(input) != []
    ensures SchemaTarget(input, s) == Join(ParseCsv(input), ",")
  {
    hide ParseCsv;
  }

  lemma ParsedMissing(s: State)
    requires Agrees(s) && Missing(s) != []
    ensures var parsed := ParseCsv(Join(Missing(s), ", "));
            parsed != [] && AllCanonical(parsed) && Tidy(parsed) && forall x :: x in parsed <==> x in Missing(s)
  {
    hide Agrees, Missing, ParseCsv, Canonical;
    MissingIsCanonical(s);
    ParseSpacedJoin(Missing(s));
    AddItemsFacts([], Missing(s));
    AddItemsKeepSome(Missing(s));
    var parsed := AddItems([], Missing(s));
    forall i | 0 <= i < |parsed|
      ensures Canonical(parsed[i])
    {
      assert parsed[i] in parsed;
      var j :| 0 <= j < |Missing(s)| && Missing(s)[j] == parsed[i];
    }
    forall x | x in Missing(s)
      ensures x in parsed
    {
      CanonicalNotEmpty(Missing(s), x);
    }
  }

  lemma CanonicalNotEmpty(names: seq<string>, x: string)
    requires AllCanonical(names) && x in names
    ensures x != "" && Canonical(x)
  {
    var i :| 0 <= i < |names| && names[i] == x;
  }

  lemma RetrievedAreThemselves(s: State)
    requires Agrees(s)
    ensures RetrievedNames(s) == s.retrievedTables
  {
    hide Normalize, Strip, Names, ColumnsAgree, Stored, InScope, Clean;
    NamesOfClean(s.tablesInScope);
    forall t | t in s.retrievedTables
      ensures Strip(t) != "" && Normalize(t) == t
    {
      CanonicalNotEmpty(Names(s.tablesInScope), t);
      CanonicalIsClean(t);
      CleanIsNotBlank(t);
    }
    assert forall t :: t in s.retrievedTables ==> Normalize(t) in RetrievedNames(s);
  }

  // A named table that is in scope is marked as retrieved.
  lemma NamedIsRetrieved(req: Request, s: State, input: string, a: SchemaAnswer, x: string)
    requires Agrees(s) && CleanSchema(a) && x in ParseCsv(input) && x in Names(s.tablesInScope)
    ensures x in SchemaAction(req, s, input, a).retrievedTables
  {
    hide MergeContext, MergeColumns, ParsedColumns, FocusSeed, ParseCsv, ColumnsAgree, InferredTargets, KnownTables,
         CleanKeys, MergeOrdered, Names;
    var scope := MergeOrdered(s.tablesInScope, a.tables);
    MergeKept(s.tablesInScope, a.tables);
    MergeStored(s.tablesInScope, a.tables);
    NamesGrow(s.tablesInScope, scope);
    KnownAreNames(scope);
    assert x in ExplicitTargets(scope, input);
    assert x in TargetTables(req, scope, input);
  }

  lemma SchemaRoundProgress(req: Request, s: State, iteration: nat, c: Choice, a: Answers, t: State, w: World)
    requires Agrees(s) && CleanAnswers(a) && PlansSchema(req, s, c) && GuardReason(req, s, c) == ""
    requires ScopeWithin(s, w)
    requires SameFacts(Performed(req, s.(generationTables := []), iteration, c, a).0, t)
    requires NoneGrows(req, s, t, w)
    ensures StateMeasure(req, t, w) < StateMeasure(req, s, w)
  {
    hide Agrees, Performed, Unretrieved, Unscoped, Unused, JoinsLeft, PlansSchema, ScopeWithin, GuardReason,
         CleanSchema, CleanCorrections, EmptyLeft;
    var cleared := s.(generationTables := []);
    AgreesBeside(s, cleared);
    var done := Performed(req, cleared, iteration, c, a).0;
    SchemaPlan(req, s, c);
    if s.tablesInScope != [] {
      var x := SchemaTargetsNew(req, s, c);
      NamedIsRetrieved(req, cleared, c.input, a.schema, x);
      SchemaPerformedRetrieves(req, cleared, iteration, c, a);
      RetrievedShrinks(s, t, w, x);
    } else {
      EmptyLeftBefore(req, s, c);
      SchemaPerformed(req, cleared, iteration, c, a);
      EmptyLeftAfter(req, s, c, done, t);
    }
  }

  lemma SchemaPlan(req: Request, s: State, c: Choice)
    requires PlansSchema(req, s, c)
    ensures c.action == RetrieveSchemaForTables
  {
  }

  lemma SchemaPerformedRetrieves(req: Request, s: State, iteration: nat, c: Choice, a: Answers)
    requires c.action == RetrieveSchemaForTables
    ensures var done, retrieved := Performed(req, s, iteration, c, a).0, SchemaAction(req, s, c.input, a.schema);
            done.retrievedTables == retrieved.retrievedTables && done.columnsRefreshed == retrieved.columnsRefreshed
  {
    hide SchemaAction, ActionTarget;
  }

  lemma RetrievedShrinks(s: State, t: State, w: World, x: string)
    requires Agrees(s) && ScopeWithin(s, w) && x in Names(s.tablesInScope)
    requires x !in s.retrievedTables && x in t.retrievedTables && |Unretrieved(t, w)| <= |Unretrieved(s, w)|
    requires s.retrievedTables <= t.retrievedTables
    ensures |Unretrieved(t, w)| < |Unretrieved(s, w)|
  {
    hide ColumnsAgree, Stored, InScope, Normalize, Clean;
    var table := TableOf(s.tablesInScope, x);
    ProperSubsetSize(Unretrieved(t, w), Unretrieved(s, w), table);
  }

  lemma EmptyLeftBefore(req: Request, s: State, c: Choice)
    requires PlansSchema(req, s, c) && GuardReason(req, s, c) == "" && s.tablesInScope == []
    ensures EmptyLeft(req, s)
  {
    hide GuardReason, SchemaTarget;
    GuardedKeyIsNew(req, s, c);
  }

  lemma EmptyLeftAfter(req: Request, s: State, c: Choice, done: State, t: State)
    requires PlansSchema(req, s, c) && s.tablesInScope == [] && SameFacts(done, t)
    requires (RetrieveSchemaForTables, SchemaTarget(c.input, done)) in done.actionsTaken
    ensures !EmptyLeft(req, t)
  {
    hide SchemaTarget;
    TargetOnlyReadsScope(c.input, done, t);
  }

  lemma JoinRoundProgress(req: Request, s: State, iteration: nat, c: Choice, a: Answers, t: State, w: World)
    requires c.action == RetrieveJoinPaths && GuardReason(req, s, c) == ""
    requires SameFacts(Performed(req, s.(generationTables := []), iteration, c, a).0, t)
    requires NoneGrows(req, s, t, w)
    ensures StateMeasure(req, t, w) < StateMeasure(req, s, w)
  {
    hide Performed, Unretrieved, Unused, GuardReason, EmptyLeft, SortNames, NormalizeAll, JoinAction;
    var cleared := s.(generationTables := []);
    GuardedKeyIsNew(req, s, c);
    OtherPerformed(req, cleared, iteration, c, a);
    JoinsKeepScope(req, cleared, iteration, c, a);
    assert Unscoped(s, w) == Unscoped(t, w);
    assert JoinsLeft(s) && !JoinsLeft(t);
  }

  lemma JoinsKeepScope(req: Request, s: State, iteration: nat, c: Choice, a: Answers)
    requires c.action == RetrieveJoinPaths
    ensures Performed(req, s, iteration, c, a).0.tablesInScope == s.tablesInScope
  {
    hide ActionTarget, MergeContext;
  }

  lemma SampleRoundProgress(
    req: Request, s: State, iteration: nat, llm: LlmAnswer, c: Choice, a: Answers, t: State, w: World)
    requires PlansSamples(s, llm, c) && GuardReason(req, s, c) == "" && (llm.LlmSays? ==> llm.input in w.inputs)
    requires SameFacts(Performed(req, s.(generationTables := []), iteration, c, a).0, t)
    requires NoneGrows(req, s, t, w) && s.actionsTaken <= t.actionsTaken
    ensures StateMeasure(req, t, w) < StateMeasure(req, s, w)
  {
    hide Performed, Unretrieved, Unscoped, JoinsLeft, GuardReason, EmptyLeft, QueryTarget, OwnInputs;
    var cleared := s.(generationTables := []);
    GuardedKeyIsNew(req, s, c);
    OtherPerformed(req, cleared, iteration, c, a);
    OwnInputsAreAll(c.input);
    ProperSubsetSize(Unused(req, t, w), Unused(req, s, w), c.input);
  }

  lemma OwnInputsAreAll(input: string)
    ensures input in OWN_INPUTS ==> input in OwnInputs()
  {
  }

  /* ---- the refocus ---- */

  // A round whose refocus refreshed no column at all.
  ghost predicate FruitlessRefocus(req: Request, l: Loop, a: Answers) {
    var s := Scored(req, l);
    match MakePlan(req, s, l.iteration + 1, a.llm)
    case NoPlan(_) => false
    case Planned(plan) =>
      Refocuses(req, s, Decided(req, s, plan), a) && Round(req, l, a).l.state.columnsRefreshed == {}
  }

  ghost function FruitlessRefocuses(req: Request, l: Loop, rounds: seq<Answers>): nat
    decreases |rounds|
  {
    if !Continues(req, l) || rounds == [] then 0
    else
      Bit(FruitlessRefocus(req, l, rounds[0]))
      + if Round(req, l, rounds[0]).GoOn? then FruitlessRefocuses(req, Round(req, l, rounds[0]).l, rounds[1..]) else 0
  }

  lemma RefocusFound(req: Request, s: State, c: Choice, a: Answers)
    requires Refocuses(req, s, c, a)
    ensures s.columnsRefreshed == {}
    ensures |Names(s.tablesInScope)| > req.settings.maxTables > 0
  {
    hide Names, FocusSelection.Focus;
    if req.settings.maxTables == 0 {
      FocusedOfNothing(req, s.(embedding := if s.embedding.Some? then s.embedding else a.embedding), a.hits);
    }
  }

  lemma FocusedOfNothing(req: Request, s: State, hits: seq<(string, real)>)
    requires req.settings.maxTables == 0
    ensures FocusedTables(req, s, hits) == []
  {
    hide Names, FocusSelection.Focus;
    FocusSelection.FocusIsBounded(Names(s.tablesInScope), HitsOf(hits), 0);
  }

  /* ---- one round ---- */

  lemma PerformedStays(req: Request, s: State, iteration: nat, c: Choice, a: Answers)
    requires Settled(s)
    ensures s.actionsTaken <= Performed(req, s, iteration, c, a).0.actionsTaken
    ensures s.retrievedTables <= Performed(req, s, iteration, c, a).0.retrievedTables
  {
    hide Performed, Settled, Contains;
    PerformedGrows(req, s, iteration, c, a);
  }

  // A retrieval that passed the guard lowers the state's part of the measure.
  lemma RetrievalProgress(req: Request, l: Loop, s: State, c: Choice, a: Answers, t: State, w: World)
    requires Agrees(s) && CleanAnswers(a) && Settled(s) && Within(a, w) && ScopeWithin(s, w)
    requires Sensible(req, s, l.iteration + 1, a.llm, c) && GuardReason(req, s, c) == "" && IsRetrieval(c.action)
    requires SameFacts(Performed(req, s.(generationTables := []), l.iteration + 1, c, a).0, t)
    requires NoneGrows(req, s, t, w) && t.pastChecked
    ensures StateMeasure(req, t, w) < StateMeasure(req, s, w)
  {
    hide Agrees, Performed, PlansSchema, PlansSamples, Missing, GuardReason, NeedsJoins, Settled, ScopeWithin,
         Unretrieved, Unscoped, Unused, JoinsLeft, EmptyLeft, TablesOf;
    if l.iteration + 1 == 1 && !s.pastChecked {
    } else if PlansSchema(req, s, c) {
      SchemaRoundProgress(req, s, l.iteration + 1, c, a, t, w);
    } else if PlansSamples(s, a.llm, c) {
      SettledBeside(s, s.(generationTables := []));
      PerformedStays(req, s.(generationTables := []), l.iteration + 1, c, a);
      SampleRoundProgress(req, s, l.iteration + 1, a.llm, c, a, t, w);
    } else {
      JoinRoundProgress(req, s, l.iteration + 1, c, a, t, w);
    }
  }

  lemma MeasureDrops(req: Request, l: Loop, end: Loop, w: World)
    requires NoneGrows(req, l.state, end.state, w) && end.planner == l.planner + 1
    requires l.planner < MaxInt(0, req.settings.maxIterations)
    ensures Measure(req, end, w) < Measure(req, l, w)
  {
    hide Unretrieved, Unscoped, Unused, JoinsLeft, EmptyLeft;
  }

  lemma MeasureStays(req: Request, l: Loop, end: Loop, w: World)
    requires NoneGrows(req, l.state, end.state, w) && end.planner == l.planner
    ensures Measure(req, end, w) <= Measure(req, l, w)
    ensures l.state.columnsRefreshed == {} && end.state.columnsRefreshed != {} ==>
              Measure(req, end, w) < Measure(req, l, w)
  {
    hide Unretrieved, Unscoped, Unused, JoinsLeft, EmptyLeft;
  }

  lemma ScoredMeasure(req: Request, l: Loop, w: World)
    ensures StateMeasure(req, Scored(req, l), w) == StateMeasure(req, l.state, w)
  {
    hide ConfidenceScore, QueryTarget, Normalize, JoinKey, OwnInputs;
    var s := Scored(req, l);
    assert Unretrieved(s, w) == Unretrieved(l.state, w);
    assert Unscoped(s, w) == Unscoped(l.state, w);
    assert Unused(req, s, w) == Unused(req, l.state, w);
    TargetOnlyReadsScope(Either(req.searchQuery, NO_TARGETS), s, l.state);
  }

  // Unless refocusing, an executed retrieval is the planned one and passed the guard.
  lemma ExecutedCases(req: Request, l: Loop, a: Answers, plan: Choice)
    requires Sensible(req, Scored(req, l), l.iteration + 1, a.llm, plan)
    ensures var s := Scored(req, l);
            var c := Executed(req, l, a, plan).1;
            || Refocuses(req, s, Decided(req, s, plan), a)
            || !IsRetrieval(c.action)
            || (c == plan && GuardReason(req, s, plan) == ""
                && Executed(req, l, a, plan).0 == s.(generationTables := []))
  {
    hide GuardReason, Missing, FocusedTables, MustRefocus, ConfidenceScore, NeedsJoins;
    DecidedCases(req, Scored(req, l), plan);
  }

  lemma PlannerHasRoom(req: Request, l: Loop, a: Answers)
    requires Sound(req, l) && Continues(req, l) && Round(req, l, a).l.planner == l.planner + 1
    ensures l.planner < MaxInt(0, req.settings.maxIterations)
  {
    hide Round, Agrees, Settled, Numbered;
    RoundCounts(req, l, a);
  }

  lemma GrowsWithin(req: Request, l: Loop, a: Answers, w: World)
    requires Settled(l.state) && ScopeWithin(l.state, w) && Within(a, w)
    ensures ScopeWithin(Round(req, l, a).l.state, w)
    ensures NoneGrows(req, l.state, Round(req, l, a).l.state, w)
  {
    hide Round, Settled, TablesOf, NoneGrows, Contains;
    RoundGrows(req, l, a);
    GrowingShrinks(req, l.state, TablesOf(a), Round(req, l, a).l.state, w);
  }

  lemma ScoredNoneGrows(req: Request, l: Loop, t: State, w: World)
    requires NoneGrows(req, l.state, t, w)
    ensures NoneGrows(req, Scored(req, l), t, w)
  {
    hide ConfidenceScore, QueryTarget, Normalize, JoinKey, OwnInputs, SchemaTarget;
    var s := Scored(req, l);
    assert Unretrieved(s, w) == Unretrieved(l.state, w);
    assert Unscoped(s, w) == Unscoped(l.state, w);
    assert Unused(req, s, w) == Unused(req, l.state, w);
    TargetOnlyReadsScope(Either(req.searchQuery, NO_TARGETS), s, l.state);
  }

  // The planned round's share of the measure.
  lemma PlannedRoundProgress(req: Request, l: Loop, a: Answers, plan: Choice, w: World)
    requires Sound(req, l) && Continues(req, l) && CleanAnswers(a) && Within(a, w) && ScopeWithin(l.state, w)
    requires MakePlan(req, Scored(req, l), l.iteration + 1, a.llm) == Planned(plan) && Round(req, l, a).GoOn?
    ensures Measure(req, Round(req, l, a).l, w) + 1 <= Measure(req, l, w) + Bit(FruitlessRefocus(req, l, a))
  {
    hide Round, Agrees, Settled, MakePlan, ConfidenceScore, Executed, Decided, Performed, NoneGrows, Sensible,
         GuardReason, StateMeasure, Numbered, IsRetrieval, Within, ScopeWithin, SameFacts, CleanAnswers, Refocuses,
         Measure;
    var s := Scored(req, l);
    var end := Round(req, l, a).l;
    AgreesBeside(l.state, s);
    SettledBeside(l.state, s);
    PlansAreSensible(req, s, l.iteration + 1, a.llm);
    RoundFacts(req, l, a, plan);
    ExecutedCases(req, l, a, plan);
    GrowsWithin(req, l, a, w);
    var c := Executed(req, l, a, plan).1;
    if Refocuses(req, s, Decided(req, s, plan), a) {
      RefocusFound(req, s, Decided(req, s, plan), a);
      RefocusIsRetrieval(req, l, a, plan);
      MeasureStays(req, l, end, w);
    } else if IsRetrieval(c.action) {
      GoesOnChecked(req, l, a);
      ScoredNoneGrows(req, l, end.state, w);
      ScopeWithinScored(req, l, w);
      RetrievalProgress(req, l, s, plan, a, end.state, w);
      ScoredMeasure(req, l, w);
      SameCounter(req, l, end, w);
    } else {
      PlannerHasRoom(req, l, a);
      MeasureDrops(req, l, end, w);
    }
  }

  lemma SameCounter(req: Request, l: Loop, end: Loop, w: World)
    requires StateMeasure(req, end.state, w) < StateMeasure(req, l.state, w) && end.planner == l.planner
    ensures Measure(req, end, w) < Measure(req, l, w)
  {
    hide StateMeasure;
  }

  lemma ScopeWithinScored(req: Request, l: Loop, w: World)
    requires ScopeWithin(l.state, w)
    ensures ScopeWithin(Scored(req, l), w)
  {
    hide ConfidenceScore;
  }

  lemma GoesOnChecked(req: Request, l: Loop, a: Answers)
    requires Sound(req, l) && Continues(req, l) && Round(req, l, a).GoOn?
    ensures Round(req, l, a).l.state.pastChecked
  {
    hide Round, Agrees, Settled, Numbered;
    RoundCounts(req, l, a);
  }

  lemma RefocusIsRetrieval(req: Request, l: Loop, a: Answers, plan: Choice)
    requires Refocuses(req, Scored(req, l), Decided(req, Scored(req, l), plan), a)
    ensures IsRetrieval(Executed(req, l, a, plan).1.action)
  {
    hide ConfidenceScore, Decided, FocusedTables, MustRefocus;
  }

  // Every round that goes on lowers the measure, except a refocus that refreshed nothing.
  lemma RoundProgress(req: Request, l: Loop, a: Answers, w: World)
    requires Sound(req, l) && Continues(req, l) && CleanAnswers(a) && Within(a, w) && ScopeWithin(l.state, w)
    requires Round(req, l, a).GoOn?
    ensures Measure(req, Round(req, l, a).l, w) + 1 <= Measure(req, l, w) + Bit(FruitlessRefocus(req, l, a))
  {
    hide Act, Agrees, Settled, MakePlan, ConfidenceScore, StateMeasure, Numbered, CleanAnswers, Within, ScopeWithin,
         FruitlessRefocus, Sound;
    var plan := MakePlan(req, Scored(req, l), l.iteration + 1, a.llm);
    match plan
    case NoPlan(_) =>
    case Planned(choice) => PlannedRoundProgress(req, l, a, choice, w);
  }

  /* ---- runs ---- */

  // All the given rounds took place and the loop still goes on.
  ghost predicate StillRunning(req: Request, l: Loop, rounds: seq<Answers>) {
    After(req, l, rounds, |rounds|).Some?
  }

  // Whatever the planning model answers, the number of rounds is bounded by the measure plus the
  // number of refocuses that refreshed nothing.
  lemma {:induction false} RoundsAreBounded(req: Request, l: Loop, rounds: seq<Answers>, w: World)
    requires Sound(req, l) && AllCleanAnswers(rounds) && AllWithin(rounds, w) && ScopeWithin(l.state, w)
    requires StillRunning(req, l, rounds)
    ensures |rounds| <= Measure(req, l, w) + FruitlessRefocuses(req, l, rounds)
    decreases |rounds|
  {
    hide Round, Sound, Measure, FruitlessRefocus, CleanAnswers, Within, ScopeWithin, NoneGrows, Continues;
    if rounds != [] {
      var next := Round(req, l, rounds[0]).l;
      RoundProgress(req, l, rounds[0], w);
      RoundIsSound(req, l, rounds[0]);
      SettledOfSound(req, l);
      GrowsWithin(req, l, rounds[0], w);
      RoundsAreBounded(req, next, rounds[1..], w);
    }
  }

  ghost function Bound(req: Request, w: World): nat {
    MaxInt(0, req.settings.maxIterations) + 2 * |w.tables| + |w.inputs| + 9
  }

  lemma OwnInputsAreFew()
    ensures |OwnInputs()| <= 5
  {
    FiveAtMost(OWN_INPUTS[0], OWN_INPUTS[1], OWN_INPUTS[2], OWN_INPUTS[3], OWN_INPUTS[4]);
  }

  lemma FiveAtMost(a: string, b: string, c: string, d: string, e: string)
    ensures |{a, b, c, d, e}| <= 5
  {
    assert {a, b, c, d, e} == {a} + ({b} + ({c} + ({d} + {e})));
    UnionSize({d}, {e});
    UnionSize({c}, {d} + {e});
    UnionSize({b}, {c} + ({d} + {e}));
    UnionSize({a}, {b} + ({c} + ({d} + {e})));
  }

  lemma MeasureIsLinear(req: Request, l: Loop, w: World)
    ensures Measure(req, l, w) <= Bound(req, w)
  {
    hide Normalize, QueryTarget, OwnInputs, JoinsLeft, EmptyLeft;
    SubsetSize(Unretrieved(l.state, w), w.tables);
    SubsetSize(Unscoped(l.state, w), w.tables);
    SubsetSize(Unused(req, l.state, w), w.inputs + OwnInputs());
    UnionSize(w.inputs, OwnInputs());
    OwnInputsAreFew();
  }

  // Once the run has ended, more time changes nothing.
  lemma {:induction false} EndedIsFinal(req: Request, l: Loop, rounds: seq<Answers>, more: seq<Answers>)
    requires !StillRunning(req, l, rounds)
    ensures Run(req, l, rounds + more) == Run(req, l, rounds)
    decreases |rounds|
  {
    hide Round, Continues;
    if rounds != [] && Continues(req, l) && Round(req, l, rounds[0]).GoOn? {
      assert (rounds + more)[1..] == rounds[1..] + more;
      EndedIsFinal(req, Round(req, l, rounds[0]).l, rounds[1..], more);
    }
  }

  // A run over the world, from its bootstrap retrieval on.
  ghost predicate RunOver(bootstrap: SchemaAnswer, rounds: seq<Answers>, w: World) {
    CleanSchema(bootstrap) && Added(bootstrap.tables) <= w.tables && AllCleanAnswers(rounds) && AllWithin(rounds, w)
  }

  lemma BootstrapWithin(req: Request, skipPast: bool, bootstrap: SchemaAnswer, w: World)
    requires Added(bootstrap.tables) <= w.tables
    ensures ScopeWithin(Bootstrapped(req, skipPast, bootstrap).state, w)
  {
    hide Bootstrapped, Settled, Added;
    BootstrapSettles(req, skipPast, bootstrap);
  }

  // The bound, linear in the tables, the model's inputs and the configured iterations. The refocus
  // comes after the guard, so only its fruitless rounds are not covered.
  lemma RunsAreBounded(req: Request, skipPast: bool, bootstrap: SchemaAnswer, rounds: seq<Answers>, w: World)
    requires RunOver(bootstrap, rounds, w)
    ensures var l := Bootstrapped(req, skipPast, bootstrap);
            && (StillRunning(req, l, rounds) ==> |rounds| <= Bound(req, w) + FruitlessRefocuses(req, l, rounds))
            && (|rounds| > Bound(req, w) + FruitlessRefocuses(req, l, rounds) ==>
                  forall more :: Run(req, l, rounds + more) == Run(req, l, rounds))
  {
    hide Bootstrapped, Sound, CleanSchema, Added, StillRunning, FruitlessRefocuses, Measure, Bound, Run, ScopeWithin,
         CleanAnswers, Within;
    var l := Bootstrapped(req, skipPast, bootstrap);
    BootstrapIsSound(req, skipPast, bootstrap);
    BootstrapWithin(req, skipPast, bootstrap, w);
    MeasureIsLinear(req, l, w);
    if StillRunning(req, l, rounds) {
      RoundsAreBounded(req, l, rounds, w);
    } else {
      forall more
        ensures Run(req, l, rounds + more) == Run(req, l, rounds)
      {
        EndedIsFinal(req, l, rounds, more);
      }
    }
  }
}
