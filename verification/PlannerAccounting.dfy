/** Counters, step numbers and retrieval keys over whole runs (agent/react_executor.py `run`). */
module PlannerAccounting {
  import opened Text
  import opened TableNames
  import opened PlannerMerges
  import opened PlannerActions
  import opened PlannerLoop
  import opened PlannerGrowth
  import opened PlannerAgreement
  import opened PlannerPlanning

  /* ---- counters ---- */

  ghost predicate Numbered(steps: seq<Step>) {
    forall i :: 0 <= i < |steps| ==> steps[i].iteration == i + 1
  }

  // Before the first round nothing is remembered; after it corrections have been looked at.
  ghost predicate Phased(l: Loop) {
    if l.iteration == 0 then l.state.actionsTaken == [] && l.planner == 0 else l.state.pastChecked
  }

  ghost predicate Counted(req: Request, l: Loop) {
    && |l.steps| == l.iteration && Numbered(l.steps)
    && l.state.sqlGenerationCount <= l.planner <= MaxInt(0, req.settings.maxIterations)
  }

  lemma {:induction false} InterleaveChecks(
    req: Request, g: Gather, schedule: seq<bool>, past: PastAnswer, a: SchemaAnswer)
    requires g.pastDone ==> g.state.pastChecked
    ensures Interleave(req, g, schedule, past, a).state.pastChecked
    ensures Interleave(req, g, schedule, past, a).state.sqlGenerationCount == g.state.sqlGenerationCount
    ensures Interleave(req, g, schedule, past, a).state.actionsTaken == g.state.actionsTaken
    decreases |schedule|
  {
    hide MergeContext, MergeOrdered, MergeColumns, FocusSeed, TargetTables, ScopeWithCorrections, ParsedColumns,
         ResumeSchema, ResumePast;
    if schedule == [] {
      var g1 := ResumeSchema(req, g, a);
      var g2 := ResumeSchema(req, g1, a);
      ResumeSchemaKeepsCounts(req, g, a);
      ResumeSchemaKeepsCounts(req, g1, a);
      ResumeSchemaKeepsCounts(req, g2, a);
      ResumePastKeepsCounts(ResumeSchema(req, g2, a), past);
    } else if schedule[0] {
      ResumePastKeepsCounts(g, past);
      InterleaveChecks(req, ResumePast(g, past), schedule[1..], past, a);
    } else {
      ResumeSchemaKeepsCounts(req, g, a);
      InterleaveChecks(req, ResumeSchema(req, g, a), schedule[1..], past, a);
    }
  }

  lemma ResumePastKeepsCounts(g: Gather, past: PastAnswer)
    requires g.pastDone ==> g.state.pastChecked
    ensures var next := ResumePast(g, past);
            next.pastDone && next.state.pastChecked && next.state.sqlGenerationCount == g.state.sqlGenerationCount
            && next.state.actionsTaken == g.state.actionsTaken
  {
    hide MergeContext, ScopeWithCorrections;
  }

  lemma ResumeSchemaKeepsCounts(req: Request, g: Gather, a: SchemaAnswer)
    ensures var next := ResumeSchema(req, g, a);
            next.pastDone == g.pastDone && next.state.pastChecked == g.state.pastChecked
            && next.state.sqlGenerationCount == g.state.sqlGenerationCount
            && next.state.actionsTaken == g.state.actionsTaken
  {
    hide MergeContext, MergeOrdered, MergeColumns, FocusSeed, TargetTables, ParsedColumns;
  }

  lemma SchemaKeepsCounts(req: Request, s: State, input: string, a: SchemaAnswer)
    ensures var t := SchemaAction(req, s, input, a);
            t.sqlGenerationCount == s.sqlGenerationCount && t.actionsTaken == s.actionsTaken
            && t.pastChecked == s.pastChecked
  {
    hide MergeContext, MergeOrdered, MergeColumns, FocusSeed, TargetTables, ParsedColumns;
  }

  // Only generation counts generations, one at most.
  lemma ExecuteCounts(req: Request, s: State, action: Action, input: string, a: Answers)
    ensures var t := Execute(req, s, action, input, a).0;
            && t.sqlGenerationCount <= s.sqlGenerationCount + (if action == GenerateSql then 1 else 0)
            && t.actionsTaken == s.actionsTaken
  {
    hide SchemaAction, MergeContext, ScopeWithCorrections, ReviewWarnings, TablesUsed;
    SchemaKeepsCounts(req, s, input, a.schema);
  }

  lemma PerformedCounts(req: Request, s: State, iteration: nat, c: Choice, a: Answers)
    ensures Performed(req, s, iteration, c, a).0.sqlGenerationCount
            <= s.sqlGenerationCount + (if c.action == GenerateSql then 1 else 0)
    ensures InParallel(s, iteration, c.action) ==> Performed(req, s, iteration, c, a).0.pastChecked
  {
    hide Execute, Interleave, ActionTarget;
    if InParallel(s, iteration, c.action) {
      InterleaveChecks(req, Gather(s, false, AtEmbedding), a.schedule, a.past, a.schema);
    } else {
      ExecuteCounts(req, s, c.action, c.input, a);
    }
  }

  lemma ValidatedCounts(s: State, action: Action, warnings: seq<Code>, review: Review)
    ensures Validated(s, action, warnings, review).0.sqlGenerationCount == s.sqlGenerationCount
    ensures Validated(s, action, warnings, review).0.pastChecked == s.pastChecked
  {
    hide ReviewWarnings, TablesUsed, BlockingWarnings;
  }

  // What one finished round does to the loop's own variables.
  lemma SettleCounts(s: State, l: Loop, c: Choice, completed: Action, warnings: seq<Code>)
    requires |l.steps| == l.iteration && Numbered(l.steps)
    ensures var end := Settle(s, l, c, completed, warnings);
            && end.l.state == s && end.l.iteration == l.iteration + 1
            && end.l.planner == l.planner + (if IsRetrieval(c.action) then 0 else 1)
            && end.l.steps == l.steps + [Step(l.iteration + 1, c.action, c.input)] && Numbered(end.l.steps)
            && (end.Ends? ==> end.response.trace.steps == end.l.steps
                              && end.response.trace.totalIterations == |end.l.steps|)
  {
    hide BlockingWarnings, IsTransportFailure, InfoWarnings, IsRetrieval, IsFinal;
  }

  // Planning while the past is unchecked leads to the parallel retrieval.
  lemma UncheckedRetrieves(req: Request, s: State, c: Choice, a: Answers)
    requires !s.pastChecked && s.actionsTaken == [] && c == Choice(RetrievePastCorrections, req.searchQuery)
    ensures Decided(req, s, c) == c && Narrowed(req, s, Decided(req, s, c), a).1 == c
    ensures !Narrowed(req, s, Decided(req, s, c), a).0.pastChecked
    ensures InParallel(Narrowed(req, s, Decided(req, s, c), a).0, 1, c.action)
  {
    hide ActionTarget, ParseCsv, RetrievedNames;
  }

  lemma NarrowedCounts(req: Request, s: State, c: Choice, a: Answers)
    ensures Narrowed(req, s, c, a).0.sqlGenerationCount == s.sqlGenerationCount
    ensures Narrowed(req, s, c, a).0.pastChecked == s.pastChecked
    ensures IsRetrieval(c.action) ==> Narrowed(req, s, c, a).1 == c
  {
    hide FocusedTables, MustRefocus;
  }

  // One numbered step more, which is counted unless it is a retrieval.
  ghost predicate Recorded(l: Loop, next: Loop) {
    && |next.steps| == |l.steps| + 1 && l.steps <= next.steps
    && next.steps[|l.steps|].iteration == |l.steps| + 1
    && next.planner == l.planner + (if IsRetrieval(next.steps[|l.steps|].action) then 0 else 1)
  }

  lemma ActCounts(req: Request, l: Loop, s: State, plan: Choice, a: Answers)
    requires Counted(req, l) && Phased(l) && Continues(req, l) && Settled(s)
    requires s == Scored(req, l)
    requires !s.pastChecked ==> plan == Choice(RetrievePastCorrections, req.searchQuery)
    ensures var end := Act(req, l, s, plan, a);
            && Counted(req, end.l) && end.l.iteration == l.iteration + 1 && Phased(end.l)
            && Recorded(l, end.l)
            && (end.Ends? ==> end.response.trace.steps == end.l.steps
                              && end.response.trace.totalIterations == |end.l.steps|)
  {
    hide Narrowed, Performed, Validated, Settle, Decided, CompletedAction, ConfidenceScore, Settled, InParallel;
    var (narrowed, c) := Narrowed(req, s, Decided(req, s, plan), a);
    NarrowedCounts(req, s, Decided(req, s, plan), a);
    var (done, warnings) := Performed(req, narrowed, l.iteration + 1, c, a);
    PerformedCounts(req, narrowed, l.iteration + 1, c, a);
    var (checked, all, validated) := Validated(done, c.action, warnings, a.review);
    ValidatedCounts(done, c.action, warnings, a.review);
    SettleCounts(checked, l, c, CompletedAction(narrowed, l.iteration + 1, c.action, validated), all);
    if s.pastChecked {
      PerformedKeepsChecked(req, l, s, plan, a);
    } else {
      UncheckedRetrieves(req, s, plan, a);
    }
  }

  lemma PerformedKeepsChecked(req: Request, l: Loop, s: State, plan: Choice, a: Answers)
    requires Settled(s) && s.pastChecked
    ensures Act(req, l, s, plan, a).l.state.pastChecked
  {
    hide Act, Settled, ScopeGrew, Contains;
    ActGrows(req, l, s, plan, a);
  }

  lemma RoundCounts(req: Request, l: Loop, a: Answers)
    requires Counted(req, l) && Phased(l) && Continues(req, l) && Settled(l.state)
    ensures var end := Round(req, l, a);
            && Counted(req, end.l) && Phased(end.l)
            && (end.GoOn? ==> end.l.iteration == l.iteration + 1)
            && (MakePlan(req, Scored(req, l), l.iteration + 1, a.llm).Planned? ==> Recorded(l, end.l))
            && (end.GoOn? ==> Recorded(l, end.l))
            && (end.Ends? ==> end.response.trace.steps == end.l.steps
                              && end.response.trace.totalIterations == |end.l.steps|)
  {
    hide Act, MakePlan, ConfidenceScore;
    var s := Scored(req, l);
    if !s.pastChecked {
      FirstPlan(req, s, a.llm);
    }
    match MakePlan(req, s, l.iteration + 1, a.llm)
    case NoPlan(_) =>
    case Planned(choice) => ActCounts(req, l, s, choice, a);
  }

  // On every run: generations never outnumber counted rounds, nor those the configured maximum; and
  // on every exit the response reports exactly the recorded steps, numbered from 1.
  lemma {:induction false} RunIsAccountedFor(req: Request, l: Loop, rounds: seq<Answers>)
    requires Counted(req, l) && Phased(l) && Settled(l.state)
    ensures var end, response := Final(req, l, rounds), Run(req, l, rounds);
            && Counted(req, end) && Phased(end)
            && response.trace.steps == end.steps && response.trace.totalIterations == |end.steps|
    decreases |rounds|
  {
    hide Round, Settled, Grew, TablesOf;
    if Continues(req, l) && rounds != [] {
      RoundCounts(req, l, rounds[0]);
      if Round(req, l, rounds[0]).GoOn? {
        RoundGrows(req, l, rounds[0]);
        SettledAfter(l.state, TablesOf(rounds[0]), Round(req, l, rounds[0]).l.state);
        RunIsAccountedFor(req, Round(req, l, rounds[0]).l, rounds[1..]);
      }
    }
  }

  lemma BootstrapIsCounted(req: Request, skipPast: bool, bootstrap: SchemaAnswer)
    ensures var l := Bootstrapped(req, skipPast, bootstrap);
            Counted(req, l) && Phased(l) && Settled(l.state)
  {
    hide SchemaAction, Settled;
    SchemaKeepsCounts(req, InitialState(skipPast), req.searchQuery, bootstrap);
    BootstrapSettles(req, skipPast, bootstrap);
  }

  lemma EveryRunIsAccountedFor(req: Request, skipPast: bool, bootstrap: SchemaAnswer, rounds: seq<Answers>)
    ensures var l := Bootstrapped(req, skipPast, bootstrap);
            var end, response := Final(req, l, rounds), Run(req, l, rounds);
            && end.state.sqlGenerationCount <= end.planner <= MaxInt(0, req.settings.maxIterations)
            && response.trace.totalIterations == |response.trace.steps| == |end.steps|
            && Numbered(response.trace.steps)
  {
    hide Bootstrapped, Final, Run, Settled;
    BootstrapIsCounted(req, skipPast, bootstrap);
    RunIsAccountedFor(req, Bootstrapped(req, skipPast, bootstrap), rounds);
  }

  /* ---- retrieval keys ---- */

  // The keys under which a round retrieves after passing the guard: the chosen retrieval, and in
  // the parallel first round also the schema retrieval beside it.
  ghost function RoundKeys(req: Request, l: Loop, a: Answers): set<(Action, string)> {
    var s := Scored(req, l);
    match MakePlan(req, s, l.iteration + 1, a.llm)
    case NoPlan(_) => {}
    case Planned(c) =>
      if !IsRetrieval(c.action) || GuardReason(req, s, c) != "" then {}
      else {(c.action, ActionTarget(req, c.action, c.input, s))} + BesideKeys(req, l, s, c, a)
  }

  ghost function BesideKeys(req: Request, l: Loop, s: State, c: Choice, a: Answers): set<(Action, string)> {
    if InParallel(s, l.iteration + 1, c.action)
    then {(RetrieveSchemaForTables, SchemaTarget("", FirstRound(req, s.(generationTables := []), a)))}
    else {}
  }

  // A schema retrieval that names no table while nothing is in scope has the empty key; it cannot
  // be asked for again once something is in scope.
  ghost predicate Remembered(s: State, key: (Action, string)) {
    key in s.actionsTaken || (key == (RetrieveSchemaForTables, "") && s.tablesInScope != [])
  }

  lemma RememberedStays(s: State, more: set<string>, t: State, key: (Action, string))
    requires Remembered(s, key) && Grew(s, more, t)
    ensures Remembered(t, key)
  {
    hide Settled, Contains;
  }

  // The key a schema retrieval had under the guard is the one it leaves behind, or is the empty key.
  lemma SchemaKeyStays(req: Request, s: State, t: State, c: Choice)
    requires Agrees(s) && PlansSchema(req, s, c)
    ensures SchemaTarget(c.input, s) == SchemaTarget(c.input, t)
            || (SchemaTarget(c.input, s) == "" && s.tablesInScope == [])
  {
    hide Agrees, Missing, ParseCsv;
    if s.tablesInScope != [] {
      MissingIsCanonical(s);
      ParseSpacedJoin(Missing(s));
      AddItemsKeepSome(Missing(s));
    }
  }

  lemma AddItemsKeepSome(names: seq<string>)
    requires names != [] && AllCanonical(names)
    ensures AddItems([], names) != []
  {
    AddItemsFacts([], names);
    assert names[0] in AddItems([], names);
  }

  lemma SchemaPerformed(req: Request, s: State, iteration: nat, c: Choice, a: Answers)
    requires c.action == RetrieveSchemaForTables
    ensures var done := Performed(req, s, iteration, c, a).0;
            (RetrieveSchemaForTables, SchemaTarget(c.input, done)) in done.actionsTaken
  {
    hide SchemaAction, SchemaTarget;
    var after := SchemaAction(req, s, c.input, a.schema);
    var done := Performed(req, s, iteration, c, a).0;
    TargetOnlyReadsScope(c.input, after, done);
    assert done.actionsTaken[|done.actionsTaken| - 1] == (RetrieveSchemaForTables, SchemaTarget(c.input, after));
  }

  lemma TargetOnlyReadsScope(input: string, s: State, t: State)
    requires s.tablesInScope == t.tablesInScope
    ensures SchemaTarget(input, s) == SchemaTarget(input, t)
  {
  }

  lemma OtherPerformed(req: Request, s: State, iteration: nat, c: Choice, a: Answers)
    requires c.action == RetrieveJoinPaths || c.action == RetrieveSampleQueries
    ensures var done := Performed(req, s, iteration, c, a).0;
            (c.action, ActionTarget(req, c.action, c.input, s)) in done.actionsTaken
  {
    hide MergeContext, SortNames, NormalizeAll, QueryTarget;
    var done := Performed(req, s, iteration, c, a).0;
    assert done.actionsTaken[|done.actionsTaken| - 1] == (c.action, ActionTarget(req, c.action, c.input, s));
  }

  lemma ParallelPerformed(req: Request, s: State, iteration: nat, c: Choice, a: Answers)
    requires InParallel(s, iteration, c.action)
    ensures var done := Performed(req, s, iteration, c, a).0;
            && (RetrievePastCorrections, QueryTarget(req, c.input)) in done.actionsTaken
            && (RetrieveSchemaForTables, SchemaTarget("", FirstRound(req, s, a))) in done.actionsTaken
  {
    hide FirstRound, QueryTarget, SchemaTarget;
    var done := Performed(req, s, iteration, c, a).0;
    var n := |done.actionsTaken|;
    assert done.actionsTaken[n - 1] == (RetrieveSchemaForTables, SchemaTarget("", FirstRound(req, s, a)));
    assert done.actionsTaken[n - 2] == (RetrievePastCorrections, QueryTarget(req, c.input));
  }

  ghost predicate AllRemembered(s: State, keys: set<(Action, string)>) {
    forall key :: key in keys ==> Remembered(s, key)
  }

  // The narrowing before a retrieval only clears the generation tables.
  lemma NarrowedRetrieval(req: Request, s: State, c: Choice, a: Answers)
    requires IsRetrieval(c.action)
    ensures Narrowed(req, s, c, a) == (s.(generationTables := []), c)
  {
  }

  lemma RestKeepsKeys(s: State, action: Action, warnings: seq<Code>, review: Review, key: (Action, string))
    requires Remembered(s, key)
    ensures Remembered(Validated(s, action, warnings, review).0, key)
  {
    hide ReviewWarnings, TablesUsed, BlockingWarnings;
  }

  // What Performed remembers, the finished round still does.
  lemma ActRemembers(req: Request, l: Loop, s: State, c: Choice, a: Answers, key: (Action, string))
    requires IsRetrieval(c.action) && Decided(req, s, c) == c
    requires Remembered(Performed(req, s.(generationTables := []), l.iteration + 1, c, a).0, key)
    ensures Remembered(Act(req, l, s, c, a).l.state, key)
  {
    hide Performed, Validated, Settle, Decided, CompletedAction, Narrowed, Remembered;
    NarrowedRetrieval(req, s, c, a);
    var (done, warnings) := Performed(req, s.(generationTables := []), l.iteration + 1, c, a);
    var (checked, all, validated) := Validated(done, c.action, warnings, a.review);
    RestKeepsKeys(done, c.action, warnings, a.review, key);
    var completed := CompletedAction(s.(generationTables := []), l.iteration + 1, c.action, validated);
    SettleKeepsState(checked, l, c, completed, all);
  }

  lemma ActionTargetOnlyReadsScope(req: Request, action: Action, input: string, s: State, t: State)
    requires s.tablesInScope == t.tablesInScope
    ensures ActionTarget(req, action, input, s) == ActionTarget(req, action, input, t)
  {
    hide QueryTarget, SortNames, NormalizeAll, ParseCsv, ActionName, Join;
  }

  // Executing a sensible retrieval that passed the guard leaves its key remembered.
  lemma RetrievalIsRemembered(
    req: Request, s: State, iteration: nat, llm: LlmAnswer, c: Choice, a: Answers)
    requires Agrees(s) && Settled(s) && IsRetrieval(c.action) && Sensible(req, s, iteration, llm, c)
    ensures Remembered(Performed(req, s.(generationTables := []), iteration, c, a).0,
                       (c.action, ActionTarget(req, c.action, c.input, s)))
  {
    hide Agrees, Performed, SchemaTarget, QueryTarget, Missing, Settled, SortNames, NormalizeAll;
    var cleared := s.(generationTables := []);
    var done := Performed(req, cleared, iteration, c, a).0;
    ActionTargetOnlyReadsScope(req, c.action, c.input, s, cleared);
    if c.action == RetrievePastCorrections {
      ParallelPerformed(req, cleared, iteration, c, a);
    } else if c.action == RetrieveSchemaForTables {
      SchemaPerformed(req, cleared, iteration, c, a);
      SchemaKeyStays(req, s, done, c);
      SchemaRemembered(s, c.input, done);
    } else {
      OtherPerformed(req, cleared, iteration, c, a);
    }
  }

  lemma SchemaRemembered(s: State, input: string, t: State)
    requires (RetrieveSchemaForTables, SchemaTarget(input, t)) in t.actionsTaken
    requires SchemaTarget(input, s) == SchemaTarget(input, t)
             || (SchemaTarget(input, s) == "" && s.tablesInScope == [])
    ensures Remembered(t, (RetrieveSchemaForTables, SchemaTarget(input, s)))
  {
    hide ParseCsv, Join;
    if SchemaTarget(input, s) != SchemaTarget(input, t) && t.tablesInScope == [] {
      TargetOnlyReadsScope(input, s, t);
    }
  }

  lemma RoundRemembersKeys(req: Request, l: Loop, a: Answers)
    requires Agrees(l.state) && Settled(l.state) && CleanAnswers(a)
    ensures AllRemembered(Round(req, l, a).l.state, RoundKeys(req, l, a))
  {
    hide Agrees, Act, MakePlan, ConfidenceScore, Remembered, Performed, ActionTarget, GuardReason, Sensible, Settled,
         SchemaTarget, IsRetrieval, Decided;
    var s := Scored(req, l);
    AgreesBeside(l.state, s);
    SettledBeside(l.state, s);
    match MakePlan(req, s, l.iteration + 1, a.llm)
    case NoPlan(_) =>
    case Planned(c) =>
      if IsRetrieval(c.action) && GuardReason(req, s, c) == "" {
        PlansAreSensible(req, s, l.iteration + 1, a.llm);
        NotValidation(c.action);
        DecidedCases(req, s, c);
        var key := (c.action, ActionTarget(req, c.action, c.input, s));
        RetrievalIsRemembered(req, s, l.iteration + 1, a.llm, c, a);
        ActRemembers(req, l, s, c, a, key);
        if InParallel(s, l.iteration + 1, c.action) {
          BesideIsRemembered(req, l, s, c, a);
        }
      }
  }

  lemma NotValidation(action: Action)
    requires IsRetrieval(action)
    ensures action != ValidateAndReturn
  {
  }

  lemma BesideIsRemembered(req: Request, l: Loop, s: State, c: Choice, a: Answers)
    requires InParallel(s, l.iteration + 1, c.action) && IsRetrieval(c.action) && Decided(req, s, c) == c
    ensures AllRemembered(Act(req, l, s, c, a).l.state, BesideKeys(req, l, s, c, a))
  {
    hide Act, Performed, FirstRound, SchemaTarget, Decided;
    var cleared := s.(generationTables := []);
    ParallelPerformed(req, cleared, l.iteration + 1, c, a);
    var key := (RetrieveSchemaForTables, SchemaTarget("", FirstRound(req, cleared, a)));
    ActRemembers(req, l, s, c, a, key);
  }

  lemma SettledBeside(s: State, t: State)
    requires Settled(s) && t.tablesInScope == s.tablesInScope && t.focusTables == s.focusTables
    requires t.context == s.context
    ensures Settled(t)
  {
  }

  lemma EmptyKeyNeedsEmptyScope(req: Request, s: State, c: Choice)
    requires Agrees(s) && PlansSchema(req, s, c) && SchemaTarget(c.input, s) == ""
    ensures s.tablesInScope == []
  {
    hide Agrees, Missing, ParseCsv, Join;
    if s.tablesInScope != [] {
      MissingIsCanonical(s);
      ParseSpacedJoin(Missing(s));
      var parsed := AddItems([], Missing(s));
      AddItemsKeepSome(Missing(s));
      AddItemsFacts([], Missing(s));
      assert parsed[0] in parsed;
      JoinNonEmpty(parsed, ",");
    }
  }

  // No retrieval passes the guard under a key already used. (Only the schema half of the parallel
  // first round does not pass the guard, and there nothing has been used yet.)
  lemma KeysAreNew(req: Request, l: Loop, a: Answers, key: (Action, string))
    requires Agrees(l.state) && Phased(l) && key in RoundKeys(req, l, a) && l.iteration > 0
    ensures !Remembered(l.state, key)
  {
    hide Agrees, MakePlan, ConfidenceScore, GuardReason, Missing, SchemaTarget, QueryTarget, SortNames, NormalizeAll;
    var s := Scored(req, l);
    AgreesBeside(l.state, s);
    match MakePlan(req, s, l.iteration + 1, a.llm)
    case NoPlan(_) =>
    case Planned(c) =>
      GuardedKeyIsNew(req, s, c);
      PlansAreSensible(req, s, l.iteration + 1, a.llm);
      if c.action == RetrieveSchemaForTables && SchemaTarget(c.input, s) == "" {
        EmptyKeyNeedsEmptyScope(req, s, c);
      }
  }

  // The keys cover every retrieval a round executes, except a refocus.
  lemma RetrievalsHaveKeys(req: Request, l: Loop, a: Answers, plan: Choice)
    requires MakePlan(req, Scored(req, l), l.iteration + 1, a.llm) == Planned(plan)
    requires var s := Scored(req, l);
             var d := Decided(req, s, plan);
             IsRetrieval(Narrowed(req, s, d, a).1.action) && !Refocuses(req, s, d, a)
    ensures var s := Scored(req, l);
            && Narrowed(req, s, Decided(req, s, plan), a).1 == plan
            && (plan.action, ActionTarget(req, plan.action, plan.input, s)) in RoundKeys(req, l, a)
  {
    hide MakePlan, ConfidenceScore, ActionTarget, GuardReason, BesideKeys, FocusedTables;
  }

  // The loop after the first n rounds, all of which went on.
  ghost function After(req: Request, l: Loop, rounds: seq<Answers>, n: nat): Option<Loop>
    requires n <= |rounds|
    decreases n
  {
    if n == 0 then Some(l)
    else if !Continues(req, l) || Round(req, l, rounds[0]).Ends? then None
    else After(req, Round(req, l, rounds[0]).l, rounds[1..], n - 1)
  }

  // The keys of round n of a run, none if the run is over before.
  ghost function KeysAt(req: Request, l: Loop, rounds: seq<Answers>, n: nat): set<(Action, string)>
    requires n < |rounds|
  {
    var at := After(req, l, rounds, n);
    if at.None? then {} else RoundKeys(req, at.value, rounds[n])
  }

  ghost predicate Sound(req: Request, l: Loop) {
    Agrees(l.state) && Settled(l.state) && Phased(l) && Counted(req, l)
  }

  lemma RoundIsSound(req: Request, l: Loop, a: Answers)
    requires Sound(req, l) && CleanAnswers(a) && Continues(req, l)
    ensures Sound(req, Round(req, l, a).l)
  {
    hide Round, Agrees, Settled, TablesOf, Counted, Phased, CleanAnswers;
    RoundAgrees(req, l, a);
    RoundGrows(req, l, a);
    SettledAfter(l.state, TablesOf(a), Round(req, l, a).l.state);
    RoundCounts(req, l, a);
  }

  // A remembered key is not used in any later round.
  lemma {:induction false} RememberedIsNotReused(
    req: Request, l: Loop, rounds: seq<Answers>, n: nat, key: (Action, string))
    requires Sound(req, l) && l.iteration > 0 && AllCleanAnswers(rounds) && n < |rounds|
    requires Remembered(l.state, key)
    ensures key !in KeysAt(req, l, rounds, n)
    decreases n
  {
    hide Round, Agrees, Settled, Counted, Phased, Remembered, RoundKeys, Continues, CleanAnswers, Sound, TablesOf;
    if n == 0 {
      NotReusedNow(req, l, rounds[0], key);
    } else if Continues(req, l) && Round(req, l, rounds[0]).GoOn? {
      var next := Round(req, l, rounds[0]).l;
      RoundIsSound(req, l, rounds[0]);
      NextIteration(req, l, rounds[0]);
      SettledOfSound(req, l);
      RoundGrows(req, l, rounds[0]);
      RememberedStays(l.state, TablesOf(rounds[0]), next.state, key);
      RememberedIsNotReused(req, next, rounds[1..], n - 1, key);
    }
  }

  lemma SettledOfSound(req: Request, l: Loop)
    requires Sound(req, l)
    ensures Settled(l.state) && Agrees(l.state) && Phased(l)
  {
  }

  lemma NotReusedNow(req: Request, l: Loop, a: Answers, key: (Action, string))
    requires Sound(req, l) && l.iteration > 0 && Remembered(l.state, key)
    ensures key !in RoundKeys(req, l, a)
  {
    hide Agrees, Settled, Counted, Phased, Remembered, RoundKeys;
    if key in RoundKeys(req, l, a) {
      KeysAreNew(req, l, a, key);
    }
  }

  lemma NextIteration(req: Request, l: Loop, a: Answers)
    requires Sound(req, l) && Continues(req, l) && Round(req, l, a).GoOn?
    ensures Round(req, l, a).l.iteration == l.iteration + 1
  {
    hide Round, Agrees, Settled;
    RoundCounts(req, l, a);
  }

  // No retrieval that passes the guard has the key of an earlier one: within a run, and whatever
  // the planning model answers, only the refocus retrieval can repeat work.
  lemma {:induction false} NoRetrievalKeyTwice(req: Request, l: Loop, rounds: seq<Answers>, i: nat, j: nat)
    requires Sound(req, l) && AllCleanAnswers(rounds) && i < j < |rounds|
    ensures KeysAt(req, l, rounds, i) !! KeysAt(req, l, rounds, j)
    decreases i
  {
    hide Round, Agrees, Settled, Counted, Phased, Remembered, RoundKeys, Continues, CleanAnswers, Sound, TablesOf;
    if Continues(req, l) && Round(req, l, rounds[0]).GoOn? {
      var next := Round(req, l, rounds[0]).l;
      RoundIsSound(req, l, rounds[0]);
      NextIteration(req, l, rounds[0]);
      SettledOfSound(req, l);
      if i == 0 {
        RoundRemembersKeys(req, l, rounds[0]);
        forall key | key in RoundKeys(req, l, rounds[0])
          ensures key !in KeysAt(req, l, rounds, j)
        {
          RememberedIsNotReused(req, next, rounds[1..], j - 1, key);
        }
      } else {
        NoRetrievalKeyTwice(req, next, rounds[1..], i - 1, j - 1);
      }
    }
  }

  lemma BootstrapIsSound(req: Request, skipPast: bool, bootstrap: SchemaAnswer)
    requires CleanSchema(bootstrap)
    ensures Sound(req, Bootstrapped(req, skipPast, bootstrap))
  {
    hide Bootstrapped, Agrees, Settled, CleanSchema;
    BootstrapAgrees(req, skipPast, bootstrap);
    BootstrapIsCounted(req, skipPast, bootstrap);
  }
}
