/**
 * When the ReAct loop needs no deadline (agent/react_executor.py:1290-1296): the refocus retrieval
 * comes after the memory guard, so with more tables than the generation cap and no columns to find
 * it repeats for ever.
 */
module PlannerLivelock {
  import opened Sets
  import opened Text
  import opened TableNames
  import opened PlannerMerges
  import opened PlannerActions
  import opened PlannerLoop
  import opened PlannerGrowth
  import opened PlannerAgreement
  import opened PlannerPlanning
  import opened PlannerAccounting
  import opened PlannerSuccess
  import opened PlannerTermination

  /* ---- no fruitless refocus ---- */

  // What a schema retrieval finds, in documents, in the column catalog or in the live database.
  function FoundColumns(req: Request, s: State, input: string, a: SchemaAnswer): Columns {
    ParsedColumns(TargetTables(req, MergeOrdered(s.tablesInScope, a.tables), input), a)
  }

  lemma SchemaRefreshes(req: Request, s: State, input: string, a: SchemaAnswer)
    ensures SchemaAction(req, s, input, a).columnsRefreshed == s.columnsRefreshed + Keys(FoundColumns(req, s, input, a))
  {
    hide MergeContext, MergeOrdered, MergeColumns, FocusSeed, TargetTables, ParsedColumns, Keys;
  }

  // If the round refocuses, the retrieval finds some column.
  ghost predicate RefocusFinds(req: Request, l: Loop, a: Answers) {
    var s := Scored(req, l);
    match MakePlan(req, s, l.iteration + 1, a.llm)
    case NoPlan(_) => true
    case Planned(plan) =>
      var (narrowed, c) := Executed(req, l, a, plan);
      Refocuses(req, s, Decided(req, s, plan), a) ==> FoundColumns(req, narrowed, c.input, a.schema) != []
  }

  // Every refocus of the run finds some column.
  ghost predicate RefocusesFind(req: Request, l: Loop, rounds: seq<Answers>)
    decreases |rounds|
  {
    Continues(req, l) && rounds != [] ==>
      && RefocusFinds(req, l, rounds[0])
      && (Round(req, l, rounds[0]).GoOn? ==> RefocusesFind(req, Round(req, l, rounds[0]).l, rounds[1..]))
  }

  // A refocus executes a schema retrieval of the focused tables, in the state the round planned in.
  lemma RefocusExecutes(req: Request, l: Loop, a: Answers, plan: Choice)
    requires Refocuses(req, Scored(req, l), Decided(req, Scored(req, l), plan), a)
    ensures Executed(req, l, a, plan).1.action == RetrieveSchemaForTables
    ensures Executed(req, l, a, plan).0.columnsRefreshed == l.state.columnsRefreshed
  {
    hide ConfidenceScore, Decided, FocusedTables, MustRefocus;
  }

  lemma FindingIsFruitful(req: Request, l: Loop, a: Answers)
    requires Sound(req, l) && RefocusFinds(req, l, a)
    ensures !FruitlessRefocus(req, l, a)
  {
    hide Round, MakePlan, ConfidenceScore, Executed, Decided, Agrees, Settled, Numbered, Refocuses, Performed,
         SchemaAction, FoundColumns;
    var s := Scored(req, l);
    match MakePlan(req, s, l.iteration + 1, a.llm)
    case NoPlan(_) =>
    case Planned(plan) =>
      if Refocuses(req, s, Decided(req, s, plan), a) {
        RefocusExecutes(req, l, a, plan);
        RoundFacts(req, l, a, plan);
        var (narrowed, c) := Executed(req, l, a, plan);
        SchemaPerformedRetrieves(req, narrowed, l.iteration + 1, c, a);
        SchemaRefreshes(req, narrowed, c.input, a.schema);
        KeysAreNonEmpty(FoundColumns(req, narrowed, c.input, a.schema));
      }
  }

  lemma {:induction false} FindingsAreFruitful(req: Request, l: Loop, rounds: seq<Answers>)
    requires Sound(req, l) && AllCleanAnswers(rounds) && RefocusesFind(req, l, rounds)
    ensures FruitlessRefocuses(req, l, rounds) == 0
    decreases |rounds|
  {
    hide Round, Sound, FruitlessRefocus, CleanAnswers, RefocusFinds, Continues;
    if Continues(req, l) && rounds != [] {
      FindingIsFruitful(req, l, rounds[0]);
      if Round(req, l, rounds[0]).GoOn? {
        RoundIsSound(req, l, rounds[0]);
        FindingsAreFruitful(req, Round(req, l, rounds[0]).l, rounds[1..]);
      }
    }
  }

  // If every refocus finds a column, from whichever source, the run is short whatever the model answers.
  lemma FruitfulRunsAreBounded(
    req: Request, skipPast: bool, bootstrap: SchemaAnswer, rounds: seq<Answers>, w: World)
    requires RunOver(bootstrap, rounds, w) && RefocusesFind(req, Bootstrapped(req, skipPast, bootstrap), rounds)
    ensures StillRunning(req, Bootstrapped(req, skipPast, bootstrap), rounds) ==> |rounds| <= Bound(req, w)
  {
    hide Bootstrapped, Sound, CleanSchema, StillRunning, Bound, CleanAnswers, Within, RefocusesFind, Added;
    BootstrapIsSound(req, skipPast, bootstrap);
    FindingsAreFruitful(req, Bootstrapped(req, skipPast, bootstrap), rounds);
    RunsAreBounded(req, skipPast, bootstrap, rounds, w);
  }

  lemma FewTablesNeverRefocus(req: Request, l: Loop, a: Answers, w: World)
    requires Sound(req, l) && ScopeWithin(l.state, w)
    requires req.settings.maxTables == 0 || |w.tables| <= req.settings.maxTables
    ensures !FruitlessRefocus(req, l, a)
  {
    hide Round, MakePlan, ConfidenceScore, Decided, Agrees, Settled, Numbered, Refocuses, Names;
    var s := Scored(req, l);
    AgreesBeside(l.state, s);
    NamesOfAgreed(s);
    ScopeIsSmall(s, w);
    match MakePlan(req, s, l.iteration + 1, a.llm)
    case NoPlan(_) =>
    case Planned(plan) =>
      if Refocuses(req, s, Decided(req, s, plan), a) {
        RefocusFound(req, s, Decided(req, s, plan), a);
      }
  }

  lemma {:induction false} DistinctSize(items: seq<string>)
    requires Distinct(items)
    ensures |ToSet(items)| == |items|
  {
    if items != [] {
      var last := |items| - 1;
      DistinctSize(items[..last]);
      assert ToSet(items) == ToSet(items[..last]) + {items[last]};
    }
  }

  lemma ScopeIsSmall(s: State, w: World)
    requires Agrees(s) && ScopeWithin(s, w)
    ensures |s.tablesInScope| <= |w.tables|
  {
    hide ColumnsAgree, InScope, AllClean;
    DistinctSize(s.tablesInScope);
    SubsetSize(ToSet(s.tablesInScope), w.tables);
  }

  lemma {:induction false} FewTablesAreFruitful(req: Request, l: Loop, rounds: seq<Answers>, w: World)
    requires Sound(req, l) && AllCleanAnswers(rounds) && AllWithin(rounds, w) && ScopeWithin(l.state, w)
    requires req.settings.maxTables == 0 || |w.tables| <= req.settings.maxTables
    ensures FruitlessRefocuses(req, l, rounds) == 0
    decreases |rounds|
  {
    hide Round, Sound, FruitlessRefocus, CleanAnswers, Within, ScopeWithin, NoneGrows, Continues;
    if Continues(req, l) && rounds != [] {
      FewTablesNeverRefocus(req, l, rounds[0], w);
      if Round(req, l, rounds[0]).GoOn? {
        RoundIsSound(req, l, rounds[0]);
        SettledOfSound(req, l);
        GrowsWithin(req, l, rounds[0], w);
        FewTablesAreFruitful(req, Round(req, l, rounds[0]).l, rounds[1..], w);
      }
    }
  }

  /* ---- the livelock ---- */

  // A retrieval that finds nothing.
  const NOTHING := SchemaAnswer(None, [], [], "", [], [], None, "")

  const STUCK_ANSWERS := Answers(LlmFails(OllamaTimeout), None, [], PastAnswer([], ""), NOTHING, [],
                                 JoinAnswer([], ""), SampleAnswer([], ""), SqlFails(OllamaTimeout),
                                 Review([], [], {}, [], []))

  // Over the cap, without any column, and every wanted table already retrieved.
  ghost predicate Stuck(req: Request, s: State) {
    && Agrees(s) && Settled(s) && s.pastChecked
    && |s.tablesInScope| > req.settings.maxTables > 0
    && s.columnsRefreshed == {}
    && RetrievedAll(s)
  }

  // What the state rule could ask for has been retrieved.
  ghost predicate RetrievedAll(s: State) {
    && (forall x :: x in s.focusTables ==> x in s.retrievedTables)
    && (s.focusTables == [] ==> forall x :: x in Names(s.tablesInScope) ==> x in s.retrievedTables)
  }

  lemma StuckWanted(req: Request, s: State)
    requires Stuck(req, s)
    ensures Missing(s) != [] && forall x :: x in Missing(s) ==> x in s.retrievedTables
  {
    hide Agrees, Settled, Names, SchemaNames;
    MissingIsCanonical(s);
    FocusNeedsScope(s);
    FocusIsItsNames(s);
    assert Wanted(s)[0] in Wanted(s);
    assert Wanted(s)[0] in Missing(s);
  }

  // Neither the state rule nor the model gets past the guard with anything but generation.
  lemma StuckPlansGeneration(req: Request, s: State, iteration: nat)
    requires Stuck(req, s)
    ensures var plan := MakePlan(req, s, iteration, STUCK_ANSWERS.llm);
            plan.Planned? && Decided(req, s, plan.choice).action == GenerateSql
  {
    hide Stuck, Agrees, Settled, Missing, Wanted, GuardReason, AvailableActions, StateDriven, RetrievedAll,
         NeedsSchema, Decided;
    StuckParts(req, s);
    StuckWanted(req, s);
    var plan := MakePlan(req, s, iteration, STUCK_ANSWERS.llm);
    if Confident(req, s) {
      StuckConfident(req, s, iteration);
      DecidedCases(req, s, plan.choice);
    } else {
      StuckDriven(req, s, iteration);
      StuckGuard(req, s);
      DecidedCases(req, s, plan.choice);
    }
  }

  lemma StuckParts(req: Request, s: State)
    requires Stuck(req, s)
    ensures Agrees(s) && Settled(s) && s.pastChecked && s.tablesInScope != []
  {
  }

  lemma StuckConfident(req: Request, s: State, iteration: nat)
    requires s.pastChecked && Confident(req, s)
    ensures StateDriven(req, s, AvailableActions(req, s, iteration)).None?
  {
    hide Confident, SchemaNames, Names;
    assert AvailableActions(req, s, iteration)[0] == GenerateSql;
  }

  lemma StuckDriven(req: Request, s: State, iteration: nat)
    requires Agrees(s) && s.pastChecked && s.tablesInScope != [] && !Confident(req, s) && Missing(s) != []
    ensures StateDriven(req, s, AvailableActions(req, s, iteration))
            == Some(Choice(RetrieveSchemaForTables, Join(Missing(s), ", ")))
  {
    hide Agrees, Confident, AvailableActions, NeedsSchema, SchemaNames, Names;
    NeedsSchemaExactly(s);
    AvailableExactly(req, s, iteration, RetrieveSchemaForTables);
    AvailableExactly(req, s, iteration, RequestClarification);
    assert [RetrievePastCorrections][0] == RetrievePastCorrections;
    MissingIsCanonical(s);
    JoinOfCanonical(Missing(s), ", ");
    assert AvailableActions(req, s, iteration) != [RetrievePastCorrections] by {
      assert RequestClarification in AvailableActions(req, s, iteration);
      assert RequestClarification !in [RetrievePastCorrections];
    }
  }

  lemma StuckGuard(req: Request, s: State)
    requires Agrees(s) && Missing(s) != [] && forall x :: x in Missing(s) ==> x in s.retrievedTables
    ensures GuardReason(req, s, Choice(RetrieveSchemaForTables, Join(Missing(s), ", "))) != ""
  {
    hide Agrees, Missing, ParseCsv, RetrievedNames, Canonical;
    ParsedMissing(s);
    var parsed := ParseCsv(Join(Missing(s), ", "));
    ParseJoinTidy(parsed);
    TargetsJoined(s, Join(Missing(s), ", "));
    RetrievedAreThemselves(s);
  }

  // Generation is turned into a retrieval that changes nothing that matters.
  lemma StuckRefocuses(req: Request, s: State, c: Choice)
    requires Stuck(req, s) && c.action == GenerateSql
    ensures var (narrowed, executed) := Narrowed(req, s, c, STUCK_ANSWERS);
            executed.action == RetrieveSchemaForTables
  {
    hide Agrees, Settled, FocusedTables, Names, RetrievedAll;
    var embedded := s.(embedding := if s.embedding.Some? then s.embedding else STUCK_ANSWERS.embedding);
    AgreesBeside(s, embedded);
    FocusedIsBounded(req, embedded, STUCK_ANSWERS.hits);
    NamesOfAgreed(s);
  }

  lemma NothingParses(targets: seq<string>)
    ensures ParsedColumns(targets, NOTHING) == []
  {
  }

  lemma MergeNothing(scope: seq<string>)
    requires Stored(scope)
    ensures MergeOrdered(scope, []) == scope
  {
    assert scope + [] == scope;
    StripAllFixes(scope);
    AddItemsToNothing(scope);
  }

  // A schema retrieval marks as retrieved every table the state rule could ask for next.
  lemma SchemaRetrievesWanted(req: Request, s: State, input: string, a: SchemaAnswer)
    requires Agrees(s) && CleanSchema(a) && forall x :: x in s.focusTables ==> x in s.retrievedTables
    ensures RetrievedAll(SchemaAction(req, s, input, a))
  {
    hide MergeContext, MergeColumns, ParsedColumns, ColumnsAgree, InferredTargets, ExplicitTargets, KnownTables,
         CleanKeys, MergeOrdered, Names, Canonical, Agrees, CleanSchema;
    var scope := MergeOrdered(s.tablesInScope, a.tables);
    ScopeOfSchema(s, a);
    KnownAreNames(scope);
    var seed := FocusSeed(req, scope, input);
    SeedIsKnown(req, scope, input);
    FocusAfterSeed(s, seed, scope);
    var t := SchemaAction(req, s, input, a);
    assert t.focusTables == MergeOrdered(s.focusTables, seed);
    assert forall x :: x in seed ==> x in TargetTables(req, scope, input);
  }

  lemma ScopeOfSchema(s: State, a: SchemaAnswer)
    requires Agrees(s) && CleanSchema(a)
    ensures Kept(MergeOrdered(s.tablesInScope, a.tables))
  {
    hide MergeOrdered;
    MergeKept(s.tablesInScope, a.tables);
  }

  lemma FocusAfterSeed(s: State, seed: seq<string>, scope: seq<string>)
    requires Agrees(s) && Kept(scope) && forall x :: x in seed ==> x in KnownTables(scope)
    ensures var focus := MergeOrdered(s.focusTables, seed);
            && (forall x :: x in focus ==> x in s.focusTables || x in seed)
            && (focus == [] ==> s.focusTables == [] && seed == [])
  {
    hide MergeOrdered, Added, KnownTables;
    MergeStored(s.focusTables, seed);
    KnownInScope(seed, scope);
    var focus := MergeOrdered(s.focusTables, seed);
    forall x | x in Added(seed)
      ensures x in seed
    {
      AddedCanonical(seed, x);
    }
    if seed != [] {
      CanonicalIsStripped(seed[0]);
      StripAllAt(seed, 0);
      assert seed[0] in StripAll(seed);
      assert seed[0] in focus;
    }
  }

  lemma StuckRetrieval(req: Request, s: State, input: string)
    requires Stuck(req, s)
    ensures Stuck(req, SchemaAction(req, s, input, NOTHING))
  {
    hide Agrees, Settled, FocusSeed, TargetTables, MergeContext, RetrievedAll, ParsedColumns, MergeColumns;
    NothingIsClean();
    SchemaActionAgrees(req, s, input, NOTHING);
    SchemaGrows(req, s, input, NOTHING);
    SettledAfter(s, Added([]), SchemaAction(req, s, input, NOTHING));
    StoredOfSettled(s);
    MergeNothing(s.tablesInScope);
    NothingParses(TargetTables(req, s.tablesInScope, input));
    FocusOfRetrieved(s);
    SchemaRetrievesWanted(req, s, input, NOTHING);
    assert Keys([]) == {};
  }

  lemma StoredOfSettled(s: State)
    requires Settled(s)
    ensures Stored(s.tablesInScope)
  {
  }

  lemma FocusOfRetrieved(s: State)
    requires RetrievedAll(s)
    ensures forall x :: x in s.focusTables ==> x in s.retrievedTables
  {
  }

  lemma NothingIsClean()
    ensures CleanSchema(NOTHING) && Added(NOTHING.tables) == {}
    ensures CleanAnswers(STUCK_ANSWERS) && TablesOf(STUCK_ANSWERS) == {}
  {
  }

  lemma StuckBeside(req: Request, s: State, t: State)
    requires Stuck(req, s) && t.tablesInScope == s.tablesInScope && t.focusTables == s.focusTables
    requires t.allowedColumns == s.allowedColumns && t.retrievedSchema == s.retrievedSchema
    requires t.columnsRefreshed == s.columnsRefreshed && t.retrievedTables == s.retrievedTables
    requires t.context == s.context && t.pastChecked == s.pastChecked
    ensures Stuck(req, t)
  {
    hide Agrees;
    AgreesBeside(s, t);
  }

  lemma StuckPerforms(req: Request, s: State, iteration: nat, c: Choice)
    requires Stuck(req, s) && c.action == RetrieveSchemaForTables
    ensures Stuck(req, Performed(req, s, iteration, c, STUCK_ANSWERS).0)
    ensures Performed(req, s, iteration, c, STUCK_ANSWERS).1 == []
  {
    hide Stuck, SchemaAction, ActionTarget;
    StuckRetrieval(req, s, c.input);
    StuckBeside(req, SchemaAction(req, s, c.input, NOTHING), Performed(req, s, iteration, c, STUCK_ANSWERS).0);
  }

  lemma StuckNarrowed(req: Request, s: State, c: Choice)
    requires Stuck(req, s)
    ensures Stuck(req, Narrowed(req, s, c, STUCK_ANSWERS).0)
  {
    hide Stuck, FocusedTables, MustRefocus;
    StuckBeside(req, s, Narrowed(req, s, c, STUCK_ANSWERS).0);
  }

  lemma SettleGoesOn(s: State, l: Loop, c: Choice)
    requires c.action == RetrieveSchemaForTables
    ensures var end := Settle(s, l, c, RetrieveSchemaForTables, []);
            end.GoOn? && end.l.state == s && end.l.planner == l.planner
  {
  }

  lemma SchemaNotValidated(s: State, warnings: seq<Code>, review: Review)
    ensures Validated(s, RetrieveSchemaForTables, warnings, review) == (s, warnings, false)
  {
  }

  // A stuck round goes on and leaves the loop stuck.
  lemma StuckRound(req: Request, l: Loop)
    requires Stuck(req, l.state) && l.planner == 0
    ensures var end := Round(req, l, STUCK_ANSWERS);
            end.GoOn? && Stuck(req, end.l.state) && end.l.planner == 0
  {
    hide Stuck, MakePlan, ConfidenceScore, Narrowed, Performed, Validated, Settle, Decided;
    var s := Scored(req, l);
    StuckBeside(req, l.state, s);
    StuckPlansGeneration(req, s, l.iteration + 1);
    var c0 := Decided(req, s, MakePlan(req, s, l.iteration + 1, STUCK_ANSWERS.llm).choice);
    var (narrowed, c) := Narrowed(req, s, c0, STUCK_ANSWERS);
    StuckRefocuses(req, s, c0);
    StuckNarrowed(req, s, c0);
    StuckPerforms(req, narrowed, l.iteration + 1, c);
    var (done, warnings) := Performed(req, narrowed, l.iteration + 1, c, STUCK_ANSWERS);
    SchemaNotValidated(done, warnings, STUCK_ANSWERS.review);
    SettleGoesOn(done, l, c);
  }

  function Repeated(n: nat): (rounds: seq<Answers>)
    ensures |rounds| == n && forall i :: 0 <= i < n ==> rounds[i] == STUCK_ANSWERS
  {
    seq(n, i => STUCK_ANSWERS)
  }

  lemma {:induction false} StuckForever(req: Request, l: Loop, n: nat)
    requires Stuck(req, l.state) && l.planner == 0 && req.settings.maxIterations > 0
    ensures StillRunning(req, l, Repeated(n))
    decreases n
  {
    hide Stuck, Round;
    if n > 0 {
      StuckRound(req, l);
      assert Repeated(n)[0] == STUCK_ANSWERS && Repeated(n)[1..] == Repeated(n - 1);
      StuckForever(req, Round(req, l, STUCK_ANSWERS).l, n - 1);
    }
  }

  /* ---- exactly when ---- */

  lemma ListOf(names: set<string>) returns (list: seq<string>)
    requires forall x :: x in names ==> Canonical(x)
    ensures Tidy(list) && forall x :: x in list <==> x in names
  {
    hide Canonical;
    if names == {} {
      list := [];
    } else {
      var x :| x in names;
      var rest := ListOf(names - {x});
      list := rest + [x];
      CanonicalNotEmpty([x], x);
    }
  }

  // A bootstrap that brings the whole world into scope and finds no column.
  lemma StuckStart(req: Request, tables: seq<string>)
    requires Tidy(tables) && AllCanonical(tables) && |tables| > req.settings.maxTables > 0
    ensures var a := NOTHING.(tables := tables);
            CleanSchema(a) && Added(a.tables) <= ToSet(tables) && Stuck(req, Bootstrapped(req, true, a).state)
  {
    hide Agrees, Settled, Keys, FocusSeed, TargetTables, MergeContext, RetrievedAll, ParsedColumns, MergeColumns,
         Canonical, SchemaAction;
    var a := NOTHING.(tables := tables);
    CanonicalAreClean(tables);
    assert CleanSchema(a);
    BootstrapAgrees(req, true, a);
    BootstrapSettles(req, true, a);
    StartScope(req, tables);
    SchemaRetrievesWantedAtStart(req, a);
    AddedOfCanonical(tables);
  }

  lemma AddedOfCanonical(tables: seq<string>)
    requires AllCanonical(tables)
    ensures forall x :: x in Added(tables) <==> x in tables
  {
    hide Canonical;
    forall x | x in Added(tables)
      ensures x in tables
    {
      AddedCanonical(tables, x);
    }
    forall x | x in tables
      ensures x in Added(tables)
    {
      var i :| 0 <= i < |tables| && tables[i] == x;
      CanonicalIsStripped(x);
      StripAllAt(tables, i);
      CanonicalNotEmpty(tables, x);
    }
  }

  lemma StartScope(req: Request, tables: seq<string>)
    requires Tidy(tables) && AllCanonical(tables)
    ensures var s := Bootstrapped(req, true, NOTHING.(tables := tables)).state;
            s.tablesInScope == tables && s.columnsRefreshed == {} && s.pastChecked
  {
    hide Canonical, FocusSeed, TargetTables, MergeContext;
    forall i | 0 <= i < |tables|
      ensures Strip(tables[i]) == tables[i]
    {
      CanonicalIsStripped(tables[i]);
    }
    StripAllFixes(tables);
    AddItemsToNothing(tables);
    assert [] + tables == tables;
    StartParses(req, tables);
  }

  lemma StartParses(req: Request, tables: seq<string>)
    ensures forall targets :: ParsedColumns(targets, NOTHING.(tables := tables)) == []
  {
  }

  lemma SchemaRetrievesWantedAtStart(req: Request, a: SchemaAnswer)
    requires CleanSchema(a)
    ensures RetrievedAll(Bootstrapped(req, true, a).state)
  {
    hide SchemaAction, CleanSchema, RetrievedAll;
    InitialAgrees();
    SchemaRetrievesWanted(req, InitialState(true), req.searchQuery, a);
  }

  lemma InitialAgrees()
    ensures Agrees(InitialState(true))
  {
  }

  // Runs of every length exist as soon as the tables can outnumber the cap.
  lemma WideScopesCanLoopForever(req: Request, w: World, n: nat) returns (bootstrap: SchemaAnswer)
    requires (forall x :: x in w.tables ==> Canonical(x)) && |w.tables| > req.settings.maxTables > 0
    requires req.settings.maxIterations > 0
    ensures RunOver(bootstrap, Repeated(n), w) && StillRunning(req, Bootstrapped(req, true, bootstrap), Repeated(n))
  {
    hide Canonical, Stuck, CleanSchema, Bootstrapped, Added, StillRunning, CleanAnswers, Agrees;
    var tables := ListOf(w.tables);
    forall i | 0 <= i < |tables|
      ensures Canonical(tables[i])
    {
      assert tables[i] in w.tables;
    }
    DistinctSize(tables);
    assert ToSet(tables) == w.tables;
    bootstrap := NOTHING.(tables := tables);
    StuckStart(req, tables);
    StuckStartCounts(req, bootstrap);
    StuckForever(req, Bootstrapped(req, true, bootstrap), n);
    NothingIsClean();
    RepeatedWithin(n, w);
  }

  lemma StuckStartCounts(req: Request, bootstrap: SchemaAnswer)
    ensures Bootstrapped(req, true, bootstrap).planner == 0
  {
  }

  lemma RepeatedWithin(n: nat, w: World)
    ensures AllWithin(Repeated(n), w) && AllCleanAnswers(Repeated(n))
  {
    NothingIsClean();
  }

  // One number of rounds suffices for all runs over the world.
  ghost predicate Bounded(req: Request, w: World, bound: nat) {
    forall skipPast, bootstrap, rounds ::
      RunOver(bootstrap, rounds, w) && StillRunning(req, Bootstrapped(req, skipPast, bootstrap), rounds)
      ==> |rounds| <= bound
  }

  lemma NarrowScopesAreBounded(req: Request, w: World)
    requires req.settings.maxTables == 0 || |w.tables| <= req.settings.maxTables
    ensures Bounded(req, w, Bound(req, w))
  {
    hide Bootstrapped, Sound, CleanSchema, StillRunning, Bound, CleanAnswers, Within, Added, ScopeWithin, RunOver;
    forall skipPast, bootstrap, rounds |
      RunOver(bootstrap, rounds, w) && StillRunning(req, Bootstrapped(req, skipPast, bootstrap), rounds)
      ensures |rounds| <= Bound(req, w)
    {
      RunOverParts(bootstrap, rounds, w);
      BootstrapIsSound(req, skipPast, bootstrap);
      BootstrapWithin(req, skipPast, bootstrap, w);
      FewTablesAreFruitful(req, Bootstrapped(req, skipPast, bootstrap), rounds, w);
      RunsAreBounded(req, skipPast, bootstrap, rounds, w);
    }
  }

  lemma RunOverParts(bootstrap: SchemaAnswer, rounds: seq<Answers>, w: World)
    requires RunOver(bootstrap, rounds, w)
    ensures CleanSchema(bootstrap) && Added(bootstrap.tables) <= w.tables
    ensures AllCleanAnswers(rounds) && AllWithin(rounds, w)
  {
  }

  // Without any iterations only the first round, which looks at past corrections, can take place.
  lemma NoIterationsAreBounded(req: Request, w: World)
    requires req.settings.maxIterations <= 0
    ensures Bounded(req, w, 1)
  {
    hide Bootstrapped, Sound, CleanSchema, CleanAnswers, Within, Added, StillRunning;
    forall skipPast, bootstrap, rounds |
      RunOver(bootstrap, rounds, w) && StillRunning(req, Bootstrapped(req, skipPast, bootstrap), rounds)
      ensures |rounds| <= 1
    {
      BootstrapIsSound(req, skipPast, bootstrap);
      OneRoundOnly(req, Bootstrapped(req, skipPast, bootstrap), rounds);
    }
  }

  lemma OneRoundOnly(req: Request, l: Loop, rounds: seq<Answers>)
    requires Sound(req, l) && AllCleanAnswers(rounds) && req.settings.maxIterations <= 0
    ensures StillRunning(req, l, rounds) ==> |rounds| <= 1
  {
    hide Round, Sound, CleanAnswers, Continues;
    if rounds != [] && Continues(req, l) && Round(req, l, rounds[0]).GoOn? {
      EndsWhenChecked(req, l, rounds[0]);
      assert |rounds| > 1 ==> After(req, Round(req, l, rounds[0]).l, rounds[1..], |rounds| - 1).None?;
    }
  }

  lemma EndsWhenChecked(req: Request, l: Loop, a: Answers)
    requires Sound(req, l) && Continues(req, l) && CleanAnswers(a) && req.settings.maxIterations <= 0
    ensures Round(req, l, a).GoOn? ==> !Continues(req, Round(req, l, a).l)
  {
    hide Round, Agrees, Settled, CleanAnswers;
    RoundCounts(req, l, a);
  }

  // Exactly when the loop ends by itself, for all runs over given tables and model inputs: no
  // iterations are allowed, or the cap on generation tables is zero, or it is no smaller than the
  // number of tables.
  lemma RunsEndByThemselvesExactly(req: Request, w: World)
    requires forall x :: x in w.tables ==> Canonical(x)
    ensures (exists bound: nat :: Bounded(req, w, bound))
            <==> req.settings.maxIterations <= 0 || req.settings.maxTables == 0
                 || |w.tables| <= req.settings.maxTables
  {
    hide Canonical, Bound, RunOver, StillRunning, Bootstrapped, Bounded;
    if req.settings.maxIterations <= 0 {
      NoIterationsAreBounded(req, w);
    } else if req.settings.maxTables == 0 || |w.tables| <= req.settings.maxTables {
      NarrowScopesAreBounded(req, w);
    } else if bound: nat :| Bounded(req, w, bound) {
      var bootstrap := WideScopesCanLoopForever(req, w, bound + 1);
      BoundApplies(req, w, bound, bootstrap, Repeated(bound + 1));
    }
  }

  lemma BoundApplies(req: Request, w: World, bound: nat, bootstrap: SchemaAnswer, rounds: seq<Answers>)
    requires Bounded(req, w, bound) && RunOver(bootstrap, rounds, w)
    requires StillRunning(req, Bootstrapped(req, true, bootstrap), rounds)
    ensures |rounds| <= bound
  {
    hide RunOver, StillRunning, Bootstrapped;
  }
}
