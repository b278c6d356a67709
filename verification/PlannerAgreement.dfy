/**
 * The parts of the planner state agree with each other (agent/react_executor.py): what counts as a
 * column source, as a focus table and as retrieved never drifts away from the scope.
 */
module PlannerAgreement {
  import opened Text
  import opened TableNames
  import opened PlannerMerges
  import opened PlannerActions
  import opened PlannerFirstRound
  import opened PlannerLoop
  import opened PlannerGrowth

  ghost predicate ColumnsAgree(allowed: Columns, schema: Columns, refreshed: set<string>) {
    allowed == schema && Keys(allowed) == refreshed && CanonicalKeys(allowed)
  }

  // The names are normalised names of tables in scope.
  ghost predicate InScope(names: seq<string>, scope: seq<string>) {
    AllCanonical(names) && forall x :: x in names ==> x in Names(scope)
  }

  ghost predicate Agrees(s: State) {
    && Kept(s.tablesInScope)
    && ColumnsAgree(s.allowedColumns, s.retrievedSchema, s.columnsRefreshed)
    && Stored(s.focusTables) && InScope(s.focusTables, s.tablesInScope)
    && forall x :: x in s.retrievedTables ==> x in Names(s.tablesInScope)
  }

  // Answers whose table names are free of commas and not empty once normalised.
  ghost predicate CleanCorrections(corrections: seq<Correction>) {
    forall i :: 0 <= i < |corrections| ==> AllClean(corrections[i].tables)
  }

  ghost predicate CleanSchema(a: SchemaAnswer) {
    && AllClean(a.tables) && CleanKeys(a.resultColumns) && CleanKeys(a.catalogColumns)
    && (a.liveColumns.Some? ==> CleanKeys(a.liveColumns.value))
  }

  ghost predicate CleanAnswers(a: Answers) {
    CleanCorrections(a.past.corrections) && CleanSchema(a.schema)
  }

  ghost predicate AllCleanAnswers(rounds: seq<Answers>) {
    forall i :: 0 <= i < |rounds| ==> CleanAnswers(rounds[i])
  }

  /* ---- names follow the scope ---- */

  lemma {:induction false} NamesOfPrefix(a: seq<string>, b: seq<string>, x: string)
    requires a <= b && x in Names(a)
    ensures x in Names(b)
    decreases |b|
  {
    if |a| < |b| {
      NamesOfPrefix(a, b[..|b| - 1], x);
    } else {
      assert a == b;
    }
  }

  lemma NamesGrow(a: seq<string>, b: seq<string>)
    requires a <= b
    ensures forall x :: x in Names(a) ==> x in Names(b)
  {
    forall x | x in Names(a)
      ensures x in Names(b)
    {
      NamesOfPrefix(a, b, x);
    }
  }

  lemma CanonicalAreClean(names: seq<string>)
    requires AllCanonical(names)
    ensures AllClean(names)
  {
    forall i | 0 <= i < |names|
      ensures Clean(names[i])
    {
      CanonicalIsClean(names[i]);
    }
  }

  lemma {:induction false} CorrectionsStayClean(scope: seq<string>, corrections: seq<Correction>)
    requires Kept(scope) && CleanCorrections(corrections)
    ensures Kept(ScopeWithCorrections(scope, corrections))
  {
    if corrections != [] {
      var last := |corrections| - 1;
      CorrectionsStayClean(scope, corrections[..last]);
      NamesOfClean(corrections[last].tables);
      CanonicalAreClean(Names(corrections[last].tables));
      MergeKept(ScopeWithCorrections(scope, corrections[..last]), Names(corrections[last].tables));
    }
  }

  lemma KnownAreNames(scope: seq<string>)
    requires Kept(scope)
    ensures forall x :: x in KnownTables(scope) <==> x in Names(scope)
    ensures AllCanonical(KnownTables(scope)) && AllCanonical(Names(scope))
  {
    NamesOfClean(scope);
    var known := KnownTables(scope);
    forall x | x in Names(scope)
      ensures Canonical(x)
    {
      var i :| 0 <= i < |Names(scope)| && Names(scope)[i] == x;
    }
    forall i | 0 <= i < |known|
      ensures Canonical(known[i])
    {
      assert known[i] in known;
    }
  }

  lemma InferredAreKnown(req: Request, scope: seq<string>)
    ensures forall x :: x in InferredTargets(req, scope) ==> x in KnownTables(scope)
  {
    AddItemsFacts([], Keep(KnownTables(scope), MentionedIn(req, KnownTables(scope))));
  }

  lemma SeedIsKnown(req: Request, scope: seq<string>, input: string)
    ensures forall x :: x in FocusSeed(req, scope, input) ==> x in KnownTables(scope)
    ensures forall x :: x in TargetTables(req, scope, input) ==> x in KnownTables(scope)
  {
    hide InferredTargets, KnownTables;
    InferredAreKnown(req, scope);
  }

  lemma KnownInScope(some: seq<string>, scope: seq<string>)
    requires Kept(scope) && forall x :: x in some ==> x in KnownTables(scope)
    ensures InScope(some, scope)
  {
    hide KnownTables;
    KnownAreNames(scope);
    forall i | 0 <= i < |some|
      ensures Canonical(some[i])
    {
      assert some[i] in KnownTables(scope);
      var j :| 0 <= j < |KnownTables(scope)| && KnownTables(scope)[j] == some[i];
    }
  }

  lemma AddedCanonical(names: seq<string>, x: string)
    requires AllCanonical(names) && x in Added(names)
    ensures x in names && Canonical(x)
  {
    StrippedMember(names, x);
    var t :| t in names && Strip(t) == x;
    CanonicalIsStripped(t);
  }

  lemma MergeInScope(focus: seq<string>, seed: seq<string>, scope: seq<string>)
    requires Stored(focus) && InScope(focus, scope) && InScope(seed, scope)
    ensures Stored(MergeOrdered(focus, seed)) && InScope(MergeOrdered(focus, seed), scope)
  {
    hide MergeOrdered, Added;
    MergeStored(focus, seed);
    var r := MergeOrdered(focus, seed);
    forall x | x in r
      ensures Canonical(x) && x in Names(scope)
    {
      if x in focus {
        var i :| 0 <= i < |focus| && focus[i] == x;
      } else {
        AddedCanonical(seed, x);
      }
    }
  }

  /* ---- segments ---- */

  lemma PastAgrees(s: State, a: PastAnswer)
    requires Agrees(s) && CleanCorrections(a.corrections)
    ensures Agrees(PastSegment(s, a))
  {
    hide ScopeWithCorrections, MergeContext, ColumnsAgree;
    CorrectionsStayClean(s.tablesInScope, a.corrections);
    CorrectionsWiden(s.tablesInScope, a.corrections);
    NamesGrow(s.tablesInScope, ScopeWithCorrections(s.tablesInScope, a.corrections));
  }

  lemma GroupsAgree(req: Request, s: State, input: string, a: SchemaAnswer)
    requires Agrees(s) && CleanSchema(a)
    ensures Agrees(GroupsSegment(req, s, input, a))
  {
    hide MergeContext, ColumnsAgree, MergeOrdered, FocusSeed, CleanKeys;
    var scope := MergeOrdered(s.tablesInScope, a.tables);
    MergeKept(s.tablesInScope, a.tables);
    MergeStored(s.tablesInScope, a.tables);
    NamesGrow(s.tablesInScope, scope);
    var seed := FocusSeed(req, scope, input);
    SeedIsKnown(req, scope, input);
    KnownInScope(seed, scope);
    MergeInScope(s.focusTables, seed, scope);
  }

  // The targets a schema retrieval will mark as retrieved are in scope.
  ghost predicate TargetsInScope(targets: seq<string>, a: SchemaAnswer, scope: seq<string>) {
    forall x :: x in OrElse(targets, NormalizeAll(a.tables)) ==> x in Names(scope)
  }

  lemma TargetsStayInScope(targets: seq<string>, a: SchemaAnswer, scope: seq<string>, wider: seq<string>)
    requires TargetsInScope(targets, a, scope) && scope <= wider
    ensures TargetsInScope(targets, a, wider)
  {
    NamesGrow(scope, wider);
  }

  lemma TargetsOfGroups(req: Request, s: State, input: string, a: SchemaAnswer)
    requires Agrees(s) && CleanSchema(a)
    ensures var scope := MergeOrdered(s.tablesInScope, a.tables);
            TargetsInScope(TargetTables(req, scope, input), a, scope)
  {
    hide MergeOrdered, TargetTables, CleanKeys, ColumnsAgree;
    var scope := MergeOrdered(s.tablesInScope, a.tables);
    MergeKept(s.tablesInScope, a.tables);
    SeedIsKnown(req, scope, input);
    KnownAreNames(scope);
    forall x | x in NormalizeAll(a.tables)
      ensures x in Names(scope)
    {
      var i :| 0 <= i < |a.tables| && NormalizeAll(a.tables)[i] == x;
      NormalizeAllAt(a.tables, i);
      MergeNames(s.tablesInScope, a.tables, a.tables[i]);
    }
  }

  lemma ParsedIsCanonical(targets: seq<string>, a: SchemaAnswer)
    requires CleanSchema(a)
    ensures CanonicalKeys(ParsedColumns(targets, a))
  {
    hide AllClean, CleanKeys, Restrict, MergeColumns;
    var wanted := ToSet(Names(OrElse(targets, a.tables)));
    KeysOfRestrict(a.resultColumns, wanted);
    MergeOfClean(Restrict(a.resultColumns, wanted), a.catalogColumns);
    var parsed := MergeColumns(Restrict(a.resultColumns, wanted), a.catalogColumns);
    if a.liveColumns.Some? {
      MergeOfClean(parsed, a.liveColumns.value);
    }
  }

  lemma MergeAgrees(allowed: Columns, schema: Columns, refreshed: set<string>, parsed: Columns)
    requires ColumnsAgree(allowed, schema, refreshed) && CanonicalKeys(parsed)
    ensures ColumnsAgree(MergeColumns(allowed, parsed), MergeColumns(schema, parsed), refreshed + Keys(parsed))
  {
    KeysOfCanonicalMerge(allowed, parsed);
  }

  lemma ColumnsSegmentAgrees(s: State, targets: seq<string>, a: SchemaAnswer)
    requires Agrees(s) && CleanSchema(a) && TargetsInScope(targets, a, s.tablesInScope)
    ensures Agrees(ColumnsSegment(s, targets, a))
  {
    hide MergeContext, ColumnsAgree, ParsedColumns, MergeColumns, CleanSchema, Keys;
    ParsedIsCanonical(targets, a);
    MergeAgrees(s.allowedColumns, s.retrievedSchema, s.columnsRefreshed, ParsedColumns(targets, a));
  }

  lemma EmbedAgrees(s: State, a: SchemaAnswer)
    requires Agrees(s)
    ensures Agrees(EmbedSegment(s, a))
  {
  }

  lemma SchemaActionAgrees(req: Request, s: State, input: string, a: SchemaAnswer)
    requires Agrees(s) && CleanSchema(a)
    ensures Agrees(SchemaAction(req, s, input, a))
  {
    hide Agrees, CleanSchema, ColumnsSegment, TargetTables, TargetsInScope, FocusSeed, MergeContext, MergeOrdered;
    var embedded := EmbedSegment(s, a);
    EmbedAgrees(s, a);
    GroupsAgree(req, embedded, input, a);
    TargetsOfGroups(req, embedded, input, a);
    var grouped := GroupsSegment(req, embedded, input, a);
    ColumnsSegmentAgrees(grouped, TargetTables(req, grouped.tablesInScope, input), a);
  }

  // Fields the agreement does not look at.
  lemma AgreesBeside(s: State, t: State)
    requires Agrees(s) && t.tablesInScope == s.tablesInScope && t.focusTables == s.focusTables
    requires t.allowedColumns == s.allowedColumns && t.retrievedSchema == s.retrievedSchema
    requires t.columnsRefreshed == s.columnsRefreshed && t.retrievedTables == s.retrievedTables
    ensures Agrees(t)
  {
  }

  lemma ActionAgrees(req: Request, s: State, action: Action, input: string, a: Answers)
    requires Agrees(s) && CleanAnswers(a)
    ensures Agrees(Execute(req, s, action, input, a).0)
  {
    hide Agrees, SchemaAction, PastSegment, CleanSchema, CleanCorrections, MergeContext, ReviewWarnings, TablesUsed;
    match action
    case RetrievePastCorrections => PastAgrees(s, a.past);
    case RetrieveSchemaForTables => SchemaActionAgrees(req, s, input, a.schema);
    case RetrieveMoreContext => SchemaActionAgrees(req, s, input, a.schema);
    case FetchSchema => SchemaActionAgrees(req, s, input, a.schema);
    case _ => AgreesBeside(s, Execute(req, s, action, input, a).0);
  }

  /* ---- the concurrent first round ---- */

  ghost predicate GatherAgrees(g: Gather, a: SchemaAnswer) {
    Agrees(g.state) && (g.at.AtColumns? ==> TargetsInScope(g.at.targets, a, g.state.tablesInScope))
  }

  lemma ResumePastAgrees(g: Gather, past: PastAnswer, a: SchemaAnswer)
    requires GatherAgrees(g, a) && CleanCorrections(past.corrections)
    ensures GatherAgrees(ResumePast(g, past), a)
  {
    hide TargetsInScope, MergeContext, ColumnsAgree, ScopeWithCorrections;
    if !g.pastDone {
      PastAgrees(g.state, past);
      CorrectionsWiden(g.state.tablesInScope, past.corrections);
      if g.at.AtColumns? {
        TargetsStayInScope(g.at.targets, a, g.state.tablesInScope,
                           ScopeWithCorrections(g.state.tablesInScope, past.corrections));
      }
    }
  }

  lemma ResumeSchemaAgrees(req: Request, g: Gather, a: SchemaAnswer)
    requires GatherAgrees(g, a) && CleanSchema(a)
    ensures GatherAgrees(ResumeSchema(req, g, a), a)
  {
    hide Agrees, TargetsInScope, MergeContext, CleanSchema, ColumnsSegment, TargetTables, FocusSeed, MergeOrdered;
    match g.at
    case AtEmbedding => EmbedAgrees(g.state, a);
    case AtGroups =>
      GroupsAgree(req, g.state, "", a);
      TargetsOfGroups(req, g.state, "", a);
    case AtColumns(targets) => ColumnsSegmentAgrees(g.state, targets, a);
    case Over =>
  }

  lemma {:induction false} InterleaveAgrees(
    req: Request, g: Gather, schedule: seq<bool>, past: PastAnswer, a: SchemaAnswer)
    requires GatherAgrees(g, a) && CleanCorrections(past.corrections) && CleanSchema(a)
    ensures GatherAgrees(Interleave(req, g, schedule, past, a), a)
    decreases |schedule|
  {
    hide ResumeSchema, ResumePast, GatherAgrees, CleanCorrections, CleanSchema;
    if schedule == [] {
      var g1 := ResumeSchema(req, g, a);
      var g2 := ResumeSchema(req, g1, a);
      ResumeSchemaAgrees(req, g, a);
      ResumeSchemaAgrees(req, g1, a);
      ResumeSchemaAgrees(req, g2, a);
      ResumePastAgrees(ResumeSchema(req, g2, a), past, a);
    } else if schedule[0] {
      ResumePastAgrees(g, past, a);
      InterleaveAgrees(req, ResumePast(g, past), schedule[1..], past, a);
    } else {
      ResumeSchemaAgrees(req, g, a);
      InterleaveAgrees(req, ResumeSchema(req, g, a), schedule[1..], past, a);
    }
  }

  lemma FirstRoundAgrees(req: Request, s: State, a: Answers)
    requires Agrees(s) && CleanAnswers(a)
    ensures Agrees(FirstRound(req, s, a))
  {
    hide Agrees, CleanCorrections, CleanSchema;
    InterleaveAgrees(req, Gather(s, false, AtEmbedding), a.schedule, a.past, a.schema);
  }

  /* ---- rounds and runs ---- */

  lemma NarrowedAgrees(req: Request, s: State, c: Choice, a: Answers)
    requires Agrees(s)
    ensures Agrees(Narrowed(req, s, c, a).0)
  {
    hide Agrees, FocusedTables, MustRefocus;
    AgreesBeside(s, Narrowed(req, s, c, a).0);
  }

  lemma PerformedAgrees(req: Request, s: State, iteration: nat, c: Choice, a: Answers)
    requires Agrees(s) && CleanAnswers(a)
    ensures Agrees(Performed(req, s, iteration, c, a).0)
  {
    hide Agrees, Execute, FirstRound, ActionTarget, CleanAnswers;
    if InParallel(s, iteration, c.action) {
      FirstRoundAgrees(req, s, a);
      AgreesBeside(FirstRound(req, s, a), Performed(req, s, iteration, c, a).0);
    } else {
      ActionAgrees(req, s, c.action, c.input, a);
      AgreesBeside(Execute(req, s, c.action, c.input, a).0, Performed(req, s, iteration, c, a).0);
    }
  }

  lemma ValidatedAgrees(s: State, action: Action, warnings: seq<Code>, review: Review)
    requires Agrees(s)
    ensures Agrees(Validated(s, action, warnings, review).0)
  {
    hide Agrees, ReviewWarnings, TablesUsed, GenerationTables, BlockingWarnings;
    AgreesBeside(s, Validated(s, action, warnings, review).0);
  }

  lemma RoundAgrees(req: Request, l: Loop, a: Answers)
    requires Agrees(l.state) && CleanAnswers(a)
    ensures Agrees(Round(req, l, a).l.state)
  {
    hide Agrees, MakePlan, ConfidenceScore, Narrowed, Performed, Validated, Settle, Decided, CleanAnswers;
    var s := Scored(req, l);
    AgreesBeside(l.state, s);
    match MakePlan(req, s, l.iteration + 1, a.llm)
    case NoPlan(_) =>
    case Planned(choice) =>
      var (narrowed, c) := Narrowed(req, s, Decided(req, s, choice), a);
      NarrowedAgrees(req, s, Decided(req, s, choice), a);
      var (done, warnings) := Performed(req, narrowed, l.iteration + 1, c, a);
      PerformedAgrees(req, narrowed, l.iteration + 1, c, a);
      var (checked, all, validated) := Validated(done, c.action, warnings, a.review);
      ValidatedAgrees(done, c.action, warnings, a.review);
      SettleKeepsState(checked, l, c, CompletedAction(narrowed, l.iteration + 1, c.action, validated), all);
  }

  lemma {:induction false} AgreementIsKept(req: Request, l: Loop, rounds: seq<Answers>)
    requires Agrees(l.state) && AllCleanAnswers(rounds)
    ensures Agrees(Final(req, l, rounds).state)
    decreases |rounds|
  {
    hide Round, Agrees;
    if Continues(req, l) && rounds != [] {
      RoundAgrees(req, l, rounds[0]);
      if Round(req, l, rounds[0]).GoOn? {
        AgreementIsKept(req, Round(req, l, rounds[0]).l, rounds[1..]);
      }
    }
  }

  lemma BootstrapAgrees(req: Request, skipPast: bool, bootstrap: SchemaAnswer)
    requires CleanSchema(bootstrap)
    ensures Agrees(Bootstrapped(req, skipPast, bootstrap).state)
  {
    hide SchemaAction, CleanSchema;
    SchemaActionAgrees(req, InitialState(skipPast), req.searchQuery, bootstrap);
  }

  // In every state a run reaches: allowed columns and retrieved schema are the same, their keys are
  // exactly the refreshed tables, and focus and retrieved tables are names of tables in scope.
  lemma EveryReachableStateAgrees(req: Request, skipPast: bool, bootstrap: SchemaAnswer, rounds: seq<Answers>)
    requires CleanSchema(bootstrap) && AllCleanAnswers(rounds)
    ensures Agrees(Final(req, Bootstrapped(req, skipPast, bootstrap), rounds).state)
  {
    hide Agrees, Final, Bootstrapped, CleanSchema;
    BootstrapAgrees(req, skipPast, bootstrap);
    AgreementIsKept(req, Bootstrapped(req, skipPast, bootstrap), rounds);
  }
}
