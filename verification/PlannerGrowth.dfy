/** What the planner only ever adds to, over rounds and whole runs (agent/react_executor.py `run`). */
module PlannerGrowth {
  import opened Text
  import opened TableNames
  import opened PlannerMerges
  import opened PlannerActions
  import opened PlannerFirstRound
  import opened PlannerLoop

  // The lists have the shape the merges leave.
  ghost predicate Settled(s: State) {
    Stored(s.tablesInScope) && Stored(s.focusTables) && Strip(s.context) == s.context
  }

  // From s to t nothing was forgotten, and all new tables come from `more`.
  ghost predicate Grew(s: State, more: set<string>, t: State) {
    && Settled(t)
    && ScopeGrew(s.tablesInScope, more, t.tablesInScope)
    && s.focusTables <= t.focusTables
    && Contains(t.context, s.context)
    && s.retrievedTables <= t.retrievedTables
    && s.columnsRefreshed <= t.columnsRefreshed
    && s.actionsTaken <= t.actionsTaken
    && (s.pastChecked ==> t.pastChecked)
  }

  ghost predicate ScopeGrew(old_: seq<string>, more: set<string>, next: seq<string>) {
    old_ <= next && forall x :: x in next ==> x in old_ || x in more
  }

  // Every table a round's answers could bring into scope.
  function TablesOf(a: Answers): set<string> {
    CorrectionTables(a.past.corrections) + Added(a.schema.tables)
  }

  function AllTablesOf(rounds: seq<Answers>): set<string> {
    if rounds == [] then {} else TablesOf(rounds[0]) + AllTablesOf(rounds[1..])
  }

  lemma GrewNothing(s: State, more: set<string>)
    requires Settled(s)
    ensures Grew(s, more, s)
  {
    ContainsItself(s.context);
  }

  lemma ScopeGrewTwice(a: seq<string>, m: set<string>, b: seq<string>, n: set<string>, c: seq<string>)
    requires ScopeGrew(a, m, b) && ScopeGrew(b, n, c)
    ensures ScopeGrew(a, m + n, c)
  {
  }

  lemma GrewTwice(s: State, m: set<string>, t: State, n: set<string>, u: State)
    requires Grew(s, m, t) && Grew(t, n, u)
    ensures Grew(s, m + n, u)
  {
    hide Settled, ScopeGrew, Contains;
    ScopeGrewTwice(s.tablesInScope, m, t.tablesInScope, n, u.tablesInScope);
    ContainsTransitive(u.context, t.context, s.context);
  }

  lemma GrewOn(s: State, m: set<string>, t: State, u: State)
    requires Grew(s, m, t) && Grew(t, m, u)
    ensures Grew(s, m, u)
  {
    GrewTwice(s, m, t, m, u);
    assert m + m == m;
  }

  lemma GrewWithin(s: State, m: set<string>, t: State, n: set<string>)
    requires Grew(s, m, t) && m <= n
    ensures Grew(s, n, t)
  {
  }

  /* ---- segments ---- */

  lemma PastGrows(s: State, a: PastAnswer)
    requires Settled(s)
    ensures Grew(s, CorrectionTables(a.corrections), PastSegment(s, a))
  {
    hide MergeContext, CorrectionTables, ScopeWithCorrections, Contains, StripOf;
    CorrectionsWiden(s.tablesInScope, a.corrections);
    PastHolds(s, a);
  }

  lemma EmbedGrows(s: State, a: SchemaAnswer)
    requires Settled(s)
    ensures Grew(s, Added(a.tables), EmbedSegment(s, a))
  {
    GrewNothing(s, Added(a.tables));
  }

  lemma GroupsGrow(req: Request, s: State, input: string, a: SchemaAnswer)
    requires Settled(s)
    ensures Grew(s, Added(a.tables), GroupsSegment(req, s, input, a))
  {
    hide MergeContext, MergeOrdered, FocusSeed, Contains, Added, StripOf;
    MergeStored(s.tablesInScope, a.tables);
    MergeStored(s.focusTables, FocusSeed(req, MergeOrdered(s.tablesInScope, a.tables), input));
    GroupsHold(req, s, input, a);
  }

  lemma ColumnsGrow(s: State, targets: seq<string>, a: SchemaAnswer)
    requires Settled(s)
    ensures Grew(s, Added(a.tables), ColumnsSegment(s, targets, a))
  {
    hide MergeContext, MergeOrdered, Contains, Added, ParsedColumns, MergeColumns, Keys, StripOf;
    ColumnsHold(s, targets, a);
  }

  lemma SchemaGrows(req: Request, s: State, input: string, a: SchemaAnswer)
    requires Settled(s)
    ensures Grew(s, Added(a.tables), SchemaAction(req, s, input, a))
  {
    hide Grew, GroupsSegment, ColumnsSegment, EmbedSegment, TargetTables, Added;
    var embedded := EmbedSegment(s, a);
    EmbedGrows(s, a);
    var grouped := GroupsSegment(req, embedded, input, a);
    SettledAfter(s, Added(a.tables), embedded);
    GroupsGrow(req, embedded, input, a);
    GrewOn(s, Added(a.tables), embedded, grouped);
    SettledAfter(s, Added(a.tables), grouped);
    var targets := TargetTables(req, grouped.tablesInScope, input);
    ColumnsGrow(grouped, targets, a);
    GrewOn(s, Added(a.tables), grouped, ColumnsSegment(grouped, targets, a));
  }

  lemma SettledAfter(s: State, more: set<string>, t: State)
    requires Grew(s, more, t)
    ensures Settled(t)
  {
  }

  lemma JoinsGrow(s: State, input: string, a: JoinAnswer)
    requires Settled(s)
    ensures Grew(s, {}, JoinAction(s, input, a))
  {
    hide MergeContext, Contains, StripOf;
    JoinsHold(s, input, a);
  }

  lemma SamplesGrow(s: State, a: SampleAnswer)
    requires Settled(s)
    ensures Grew(s, {}, SampleAction(s, a))
  {
    hide MergeContext, Contains, StripOf;
    SamplesHold(s, a);
  }

  lemma ActionGrows(req: Request, s: State, action: Action, input: string, a: Answers)
    requires Settled(s)
    ensures Grew(s, TablesOf(a), Execute(req, s, action, input, a).0)
  {
    hide SchemaAction, PastSegment, JoinAction, SampleAction, Added, CorrectionTables;
    match action
    case RetrievePastCorrections =>
      PastGrows(s, a.past);
      GrewWithin(s, CorrectionTables(a.past.corrections), PastSegment(s, a.past), TablesOf(a));
    case RetrieveJoinPaths =>
      JoinsGrow(s, input, a.joins);
    case RetrieveSampleQueries =>
      SamplesGrow(s, a.samples);
    case RetrieveSchemaForTables =>
      SchemaGrows(req, s, input, a.schema);
    case RetrieveMoreContext =>
      SchemaGrows(req, s, input, a.schema);
    case FetchSchema =>
      SchemaGrows(req, s, input, a.schema);
    case _ =>
      GrewNothing(s, TablesOf(a));
  }

  lemma ResumePastGrows(g: Gather, past: PastAnswer, more: set<string>)
    requires Settled(g.state) && CorrectionTables(past.corrections) <= more
    ensures Grew(g.state, more, ResumePast(g, past).state)
  {
    hide PastSegment, CorrectionTables;
    if g.pastDone {
      GrewNothing(g.state, more);
    } else {
      PastGrows(g.state, past);
    }
  }

  lemma ResumeSchemaGrows(req: Request, g: Gather, a: SchemaAnswer, more: set<string>)
    requires Settled(g.state) && Added(a.tables) <= more
    ensures Grew(g.state, more, ResumeSchema(req, g, a).state)
  {
    hide GroupsSegment, ColumnsSegment, EmbedSegment, TargetTables, Added;
    match g.at
    case AtEmbedding => EmbedGrows(g.state, a);
    case AtGroups => GroupsGrow(req, g.state, "", a);
    case AtColumns(targets) => ColumnsGrow(g.state, targets, a);
    case Over => GrewNothing(g.state, more);
  }

  lemma FinishGrows(req: Request, g: Gather, past: PastAnswer, a: SchemaAnswer, more: set<string>)
    requires Settled(g.state) && Added(a.tables) <= more && CorrectionTables(past.corrections) <= more
    ensures Grew(g.state, more, Interleave(req, g, [], past, a).state)
  {
    hide ResumeSchema, ResumePast, Grew, Settled, Added, CorrectionTables;
    var g1 := ResumeSchema(req, g, a);
    ResumeSchemaGrows(req, g, a, more);
    SettledAfter(g.state, more, g1.state);
    var g2 := ResumeSchema(req, g1, a);
    ResumeSchemaGrows(req, g1, a, more);
    SettledAfter(g1.state, more, g2.state);
    var g3 := ResumeSchema(req, g2, a);
    ResumeSchemaGrows(req, g2, a, more);
    SettledAfter(g2.state, more, g3.state);
    ResumePastGrows(g3, past, more);
    GrewOn(g.state, more, g1.state, g2.state);
    GrewOn(g.state, more, g2.state, g3.state);
    GrewOn(g.state, more, g3.state, ResumePast(g3, past).state);
  }

  lemma {:induction false} InterleaveGrows(
    req: Request, g: Gather, schedule: seq<bool>, past: PastAnswer, a: SchemaAnswer, more: set<string>)
    requires Settled(g.state) && Added(a.tables) <= more && CorrectionTables(past.corrections) <= more
    ensures Grew(g.state, more, Interleave(req, g, schedule, past, a).state)
    decreases |schedule|
  {
    hide ResumeSchema, ResumePast, Grew, Settled, Added, CorrectionTables;
    if schedule == [] {
      FinishGrows(req, g, past, a, more);
    } else {
      var next := if schedule[0] then ResumePast(g, past) else ResumeSchema(req, g, a);
      if schedule[0] {
        ResumePastGrows(g, past, more);
      } else {
        ResumeSchemaGrows(req, g, a, more);
      }
      SettledAfter(g.state, more, next.state);
      InterleaveGrows(req, next, schedule[1..], past, a, more);
      GrewOn(g.state, more, next.state, Interleave(req, next, schedule[1..], past, a).state);
    }
  }

  lemma FirstRoundGrows(req: Request, s: State, a: Answers)
    requires Settled(s)
    ensures Grew(s, TablesOf(a), FirstRound(req, s, a))
  {
    InterleaveGrows(req, Gather(s, false, AtEmbedding), a.schedule, a.past, a.schema, TablesOf(a));
  }

  /* ---- rounds ---- */

  // Fields that growing does not look at.
  lemma GrewBeside(s: State, more: set<string>, t: State)
    requires Settled(s) && t.tablesInScope == s.tablesInScope && t.focusTables == s.focusTables
    requires t.context == s.context && t.retrievedTables == s.retrievedTables
    requires t.columnsRefreshed == s.columnsRefreshed && t.pastChecked == s.pastChecked
    requires s.actionsTaken <= t.actionsTaken
    ensures Grew(s, more, t)
  {
    ContainsItself(s.context);
  }

  lemma NarrowedGrows(req: Request, s: State, c: Choice, a: Answers)
    requires Settled(s)
    ensures Grew(s, TablesOf(a), Narrowed(req, s, c, a).0)
  {
    hide FocusedTables, MustRefocus, TablesOf;
    GrewBeside(s, TablesOf(a), Narrowed(req, s, c, a).0);
  }

  lemma PerformedGrows(req: Request, s: State, iteration: nat, c: Choice, a: Answers)
    requires Settled(s)
    ensures Grew(s, TablesOf(a), Performed(req, s, iteration, c, a).0)
  {
    hide Execute, FirstRound, TablesOf, ActionTarget, Grew;
    var performed := Performed(req, s, iteration, c, a).0;
    var done := if InParallel(s, iteration, c.action) then FirstRound(req, s, a)
                else Execute(req, s, c.action, c.input, a).0;
    if InParallel(s, iteration, c.action) {
      FirstRoundGrows(req, s, a);
    } else {
      ActionGrows(req, s, c.action, c.input, a);
    }
    SettledAfter(s, TablesOf(a), done);
    GrewBeside(done, TablesOf(a), performed);
    GrewOn(s, TablesOf(a), done, performed);
  }

  lemma ValidatedGrows(s: State, action: Action, warnings: seq<Code>, review: Review, more: set<string>)
    requires Settled(s)
    ensures Grew(s, more, Validated(s, action, warnings, review).0)
  {
    hide ReviewWarnings, TablesUsed, GenerationTables, BlockingWarnings;
    GrewBeside(s, more, Validated(s, action, warnings, review).0);
  }

  lemma SettleKeepsState(s: State, l: Loop, c: Choice, completed: Action, warnings: seq<Code>)
    ensures Settle(s, l, c, completed, warnings).l.state == s
  {
  }

  lemma ActGrows(req: Request, l: Loop, s: State, plan: Choice, a: Answers)
    requires Settled(s)
    ensures Grew(s, TablesOf(a), Act(req, l, s, plan, a).l.state)
  {
    hide Narrowed, Performed, Validated, Settle, Grew, TablesOf, Decided, CompletedAction;
    var (narrowed, c) := Narrowed(req, s, Decided(req, s, plan), a);
    NarrowedGrows(req, s, Decided(req, s, plan), a);
    SettledAfter(s, TablesOf(a), narrowed);
    var (done, warnings) := Performed(req, narrowed, l.iteration + 1, c, a);
    PerformedGrows(req, narrowed, l.iteration + 1, c, a);
    SettledAfter(narrowed, TablesOf(a), done);
    var (checked, all, validated) := Validated(done, c.action, warnings, a.review);
    ValidatedGrows(done, c.action, warnings, a.review, TablesOf(a));
    GrewOn(s, TablesOf(a), narrowed, done);
    GrewOn(s, TablesOf(a), done, checked);
    SettleKeepsState(checked, l, c, CompletedAction(narrowed, l.iteration + 1, c.action, validated), all);
  }

  lemma RoundGrows(req: Request, l: Loop, a: Answers)
    requires Settled(l.state)
    ensures Grew(l.state, TablesOf(a), Round(req, l, a).l.state)
  {
    hide Act, MakePlan, ConfidenceScore, TablesOf;
    var s := Scored(req, l);
    GrewBeside(l.state, TablesOf(a), s);
    match MakePlan(req, s, l.iteration + 1, a.llm)
    case NoPlan(_) =>
    case Planned(choice) =>
      ActGrows(req, l, s, choice, a);
      GrewOn(l.state, TablesOf(a), s, Act(req, l, s, choice, a).l.state);
  }

  // Over a whole run the scope keeps its tables in order and without repetition, every table in it
  // was there before or was retrieved, and no focus table, retrieved table, refreshed column set,
  // remembered action or context block is lost.
  lemma {:induction false} RunOnlyGrows(req: Request, l: Loop, rounds: seq<Answers>)
    requires Settled(l.state)
    ensures Grew(l.state, AllTablesOf(rounds), Final(req, l, rounds).state)
    decreases |rounds|
  {
    hide Round, TablesOf, Grew;
    if !Continues(req, l) || rounds == [] {
      GrewNothing(l.state, AllTablesOf(rounds));
    } else {
      var next := Round(req, l, rounds[0]).l;
      RoundGrows(req, l, rounds[0]);
      SettledAfter(l.state, TablesOf(rounds[0]), next.state);
      if Round(req, l, rounds[0]).GoOn? {
        RunOnlyGrows(req, next, rounds[1..]);
        GrewTwice(l.state, TablesOf(rounds[0]), next.state,
                  AllTablesOf(rounds[1..]), Final(req, next, rounds[1..]).state);
      } else {
        GrewWithin(l.state, TablesOf(rounds[0]), next.state, AllTablesOf(rounds));
      }
    }
  }

  lemma BootstrapSettles(req: Request, skipPast: bool, bootstrap: SchemaAnswer)
    ensures Settled(Bootstrapped(req, skipPast, bootstrap).state)
    ensures forall x :: x in Bootstrapped(req, skipPast, bootstrap).state.tablesInScope
                        <==> x in Added(bootstrap.tables)
  {
    hide SchemaAction, Grew;
    var s := InitialState(skipPast);
    assert Strip("") == "";
    SchemaGrows(req, s, req.searchQuery, bootstrap);
    SchemaActionWidens(req, s, req.searchQuery, bootstrap);
    SettledAfter(s, Added(bootstrap.tables), SchemaAction(req, s, req.searchQuery, bootstrap));
  }

  /* ---- the prompt context over a run ---- */

  // The blocks a round merges into the context.
  function RoundMerges(req: Request, l: Loop, a: Answers): seq<string> {
    var s := Scored(req, l);
    match MakePlan(req, s, l.iteration + 1, a.llm)
    case NoPlan(_) => []
    case Planned(choice) =>
      var (narrowed, c) := Narrowed(req, s, Decided(req, s, choice), a);
      if InParallel(narrowed, l.iteration + 1, c.action)
      then Merged(req, Gather(narrowed, false, AtEmbedding), a.schedule, a.past, a.schema)
      else ActionMerges(req, narrowed, c.action, c.input, a)
  }

  function RunMerges(req: Request, l: Loop, rounds: seq<Answers>): seq<string>
    decreases |rounds|
  {
    if !Continues(req, l) || rounds == [] then []
    else
      RoundMerges(req, l, rounds[0])
      + if Round(req, l, rounds[0]).GoOn? then RunMerges(req, Round(req, l, rounds[0]).l, rounds[1..]) else []
  }

  lemma NarrowedKeepsContext(req: Request, s: State, c: Choice, a: Answers)
    ensures Narrowed(req, s, c, a).0.context == s.context
  {
  }

  lemma ValidatedKeepsContext(s: State, action: Action, warnings: seq<Code>, review: Review)
    ensures Validated(s, action, warnings, review).0.context == s.context
  {
    hide ReviewWarnings, TablesUsed, GenerationTables, BlockingWarnings;
  }

  lemma PerformedContext(req: Request, s: State, iteration: nat, c: Choice, a: Answers)
    ensures Performed(req, s, iteration, c, a).0.context
            == if InParallel(s, iteration, c.action) then FirstRound(req, s, a).context
               else Execute(req, s, c.action, c.input, a).0.context
  {
    hide Execute, FirstRound, ActionTarget;
  }

  lemma RoundKeepsContext(req: Request, l: Loop, a: Answers)
    requires Strip(l.state.context) == l.state.context
    ensures HoldsAll(l.state.context, RoundMerges(req, l, a), Round(req, l, a).l.state.context)
  {
    hide MakePlan, ConfidenceScore, Performed, Validated, Settle, Decided, CompletedAction, ActionMerges, Merged,
         Narrowed, HoldsAll;
    var s := Scored(req, l);
    match MakePlan(req, s, l.iteration + 1, a.llm)
    case NoPlan(_) => HoldsAllNothing(l.state.context);
    case Planned(choice) =>
      var (narrowed, c) := Narrowed(req, s, Decided(req, s, choice), a);
      NarrowedKeepsContext(req, s, Decided(req, s, choice), a);
      var (done, warnings) := Performed(req, narrowed, l.iteration + 1, c, a);
      PerformedContext(req, narrowed, l.iteration + 1, c, a);
      if InParallel(narrowed, l.iteration + 1, c.action) {
        FirstRoundKeepsContext(req, narrowed, a);
      } else {
        ActionKeepsContext(req, narrowed, c.action, c.input, a);
      }
      var (checked, all, validated) := Validated(done, c.action, warnings, a.review);
      ValidatedKeepsContext(done, c.action, warnings, a.review);
      SettleKeepsState(checked, l, c, CompletedAction(narrowed, l.iteration + 1, c.action, validated), all);
  }

  // Every block merged in any round of a run is still in the context at its end.
  lemma {:induction false} RunKeepsEveryBlock(req: Request, l: Loop, rounds: seq<Answers>)
    requires Strip(l.state.context) == l.state.context
    ensures HoldsAll(l.state.context, RunMerges(req, l, rounds), Final(req, l, rounds).state.context)
    decreases |rounds|
  {
    hide Round, RoundMerges, Contains;
    if !Continues(req, l) || rounds == [] {
      HoldsAllNothing(l.state.context);
    } else {
      var next := Round(req, l, rounds[0]).l;
      RoundKeepsContext(req, l, rounds[0]);
      if Round(req, l, rounds[0]).GoOn? {
        RunKeepsEveryBlock(req, next, rounds[1..]);
        HoldsAllOn(l.state.context, RoundMerges(req, l, rounds[0]), next.state.context,
                   RunMerges(req, next, rounds[1..]), Final(req, next, rounds[1..]).state.context);
      } else {
        assert RoundMerges(req, l, rounds[0]) + [] == RoundMerges(req, l, rounds[0]);
      }
    }
  }
}
