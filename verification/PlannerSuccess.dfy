/** What a successful answer guarantees, over whole runs (agent/react_executor.py `run`). */
module PlannerSuccess {
  import opened Text
  import opened TableNames
  import opened PlannerActions
  import opened PlannerLoop
  import opened PlannerGrowth
  import opened PlannerAgreement
  import opened PlannerPlanning
  import opened PlannerAccounting
  import FocusSelection

  /* ---- warnings ---- */

  lemma {:induction false} BlockingIsBlocking(warnings: seq<Code>)
    ensures forall i :: 0 <= i < |BlockingWarnings(warnings)| ==> BlockingWarnings(warnings)[i] != ExplainUnavailable
  {
    if warnings != [] {
      BlockingIsBlocking(warnings[1..]);
    }
  }

  lemma {:induction false} InfoIsInfo(warnings: seq<Code>)
    ensures forall i :: 0 <= i < |InfoWarnings(warnings)| ==> InfoWarnings(warnings)[i] == ExplainUnavailable
  {
    if warnings != [] {
      InfoIsInfo(warnings[1..]);
    }
  }

  lemma BlockingTwice(warnings: seq<Code>)
    ensures BlockingWarnings(BlockingWarnings(warnings)) == [] <==> BlockingWarnings(warnings) == []
  {
    BlockingIsBlocking(warnings);
    var blocking := BlockingWarnings(warnings);
    if blocking != [] {
      assert blocking[0] != ExplainUnavailable;
    }
  }

  lemma OnlyUnavailableOfAppend(a: seq<Code>, b: seq<Code>)
    ensures BlockingWarnings(a + b) == [] <==> BlockingWarnings(a) == [] && BlockingWarnings(b) == []
  {
    var all := a + b;
    if BlockingWarnings(all) == [] {
      forall i | 0 <= i < |a|
        ensures a[i] == ExplainUnavailable
      {
        assert a[i] == all[i];
      }
      forall i | 0 <= i < |b|
        ensures b[i] == ExplainUnavailable
      {
        assert b[i] == all[|a| + i];
      }
    }
  }

  lemma BlockingCodesBlock(codes: seq<Blocking>)
    ensures BlockingWarnings(codes) == [] <==> codes == []
  {
    if codes != [] {
      assert codes[0] != ExplainUnavailable;
    }
  }

  /* ---- the tables check ---- */

  // A table found in the SQL that is in scope, under the name the response gives it.
  ghost predicate FoundAs(found: seq<string>, i: nat, scope: seq<string>, name: string) {
    i < |found| && ResponseName(found[i]) != "" && AllowedName(scope, Lower(ResponseName(found[i]))) == Some(name)
  }

  ghost predicate Unknown(found: seq<string>, i: nat, ctes: set<string>, scope: seq<string>) {
    && i < |found| && ResponseName(found[i]) != ""
    && AllowedName(scope, Lower(ResponseName(found[i]))) == None && Lower(ResponseName(found[i])) !in ctes
  }

  // The tables used are exactly the found ones in scope; the check fails exactly on any other table
  // that is no common table expression.
  lemma {:induction false} TablesUsedExactly(found: seq<string>, ctes: set<string>, scope: seq<string>, name: string)
    ensures var (used, unknown) := TablesUsed(found, ctes, scope);
            && (name in used <==> name != "" && exists i: nat :: FoundAs(found, i, scope, name))
            && (unknown <==> exists i: nat :: Unknown(found, i, ctes, scope))
  {
    hide ResponseName, Lower, AllowedName;
    if found != [] {
      var last := |found| - 1;
      var front := found[..last];
      TablesUsedExactly(front, ctes, scope, name);
      FoundSplits(found, ctes, scope, name);
    }
  }

  lemma FoundSplits(found: seq<string>, ctes: set<string>, scope: seq<string>, name: string)
    requires found != []
    ensures var last, front := |found| - 1, found[..|found| - 1];
            && ((exists i: nat :: FoundAs(found, i, scope, name)) <==>
                  (exists i: nat :: FoundAs(front, i, scope, name)) || FoundAs(found, last, scope, name))
            && ((exists i: nat :: Unknown(found, i, ctes, scope)) <==>
                  (exists i: nat :: Unknown(front, i, ctes, scope)) || Unknown(found, last, ctes, scope))
  {
    hide ResponseName, Lower, AllowedName;
    var last, front := |found| - 1, found[..|found| - 1];
    forall i: nat | i < last
      ensures FoundAs(found, i, scope, name) <==> FoundAs(front, i, scope, name)
      ensures Unknown(found, i, ctes, scope) <==> Unknown(front, i, ctes, scope)
    {
    }
    if i: nat :| FoundAs(found, i, scope, name) && i < last {
      assert FoundAs(front, i, scope, name);
    }
    if i: nat :| Unknown(found, i, ctes, scope) && i < last {
      assert Unknown(front, i, ctes, scope);
    }
    if i: nat :| FoundAs(front, i, scope, name) {
      assert FoundAs(found, i, scope, name);
    }
    if i: nat :| Unknown(front, i, ctes, scope) {
      assert Unknown(found, i, ctes, scope);
    }
  }

  lemma {:induction false} AllowedIsListed(scope: seq<string>, key: string)
    ensures AllowedName(scope, key).Some? ==>
              exists t :: t in scope && ResponseName(t) == AllowedName(scope, key).value
  {
    hide ResponseName, Lower;
    if scope != [] {
      AllowedIsListed(scope[..|scope| - 1], key);
      assert scope[|scope| - 1] in scope;
    }
  }

  // Every table a response names is one of the tables the SQL was generated for.
  ghost predicate DrawnFrom(used: seq<string>, tables: seq<string>) {
    forall x :: x in used ==> exists t :: t in tables && ResponseName(t) == x
  }

  lemma UsedAreDrawn(found: seq<string>, ctes: set<string>, scope: seq<string>)
    ensures DrawnFrom(TablesUsed(found, ctes, scope).0, scope)
  {
    hide ResponseName, Lower, AllowedName, TablesUsed;
    forall x | x in TablesUsed(found, ctes, scope).0
      ensures exists t :: t in scope && ResponseName(t) == x
    {
      TablesUsedExactly(found, ctes, scope, x);
      var i: nat :| FoundAs(found, i, scope, x);
      AllowedIsListed(scope, Lower(ResponseName(found[i])));
    }
  }

  /* ---- what SQL is generated for ---- */

  // The round executes generation, on this state.
  ghost predicate Generates(req: Request, l: Loop, a: Answers) {
    var s := Scored(req, l);
    match MakePlan(req, s, l.iteration + 1, a.llm)
    case NoPlan(_) => false
    case Planned(c) => Narrowed(req, s, Decided(req, s, c), a).1.action == GenerateSql
  }

  // The tables the generation prompt and the checks see.
  ghost function GeneratedFor(req: Request, l: Loop, a: Answers): seq<string>
    requires Generates(req, l, a)
  {
    var s := Scored(req, l);
    GenerationTables(Narrowed(req, s, Decided(req, s, MakePlan(req, s, l.iteration + 1, a.llm).choice), a).0)
  }

  lemma FocusKeepsSome(tables: seq<string>, hits: seq<FocusSelection.Hit>, maxTables: nat)
    requires tables != [] && AllCanonical(tables) && maxTables > 0
    ensures FocusSelection.Focus(tables, hits, maxTables) != []
  {
    CanonicalAreClean(tables);
    NamesOfClean(tables);
    CanonicalNamesAreThemselves(tables);
    AddItemsKeepSome(tables);
    assert NormalizeAll(tables) == tables;
  }

  lemma FirstOfIsBounded(names: seq<string>, count: nat)
    ensures |FocusSelection.FirstOf(names, count)| <= count
    ensures forall x :: x in FocusSelection.FirstOf(names, count) ==> x in names
  {
  }

  lemma CanonicalNormalize(names: seq<string>)
    requires AllCanonical(names)
    ensures NormalizeAll(names) == names
  {
    CanonicalAreClean(names);
    NamesOfClean(names);
    CanonicalNamesAreThemselves(names);
  }

  // The focus: some of the names in scope, no more than the configured number.
  lemma FocusedIsBounded(req: Request, s: State, hits: seq<(string, real)>)
    requires Agrees(s)
    ensures var focused := FocusedTables(req, s, hits);
            && |focused| <= req.settings.maxTables
            && AllCanonical(focused) && (forall x :: x in focused ==> x in Names(s.tablesInScope))
            && (s.tablesInScope != [] && req.settings.maxTables > 0 ==> focused != [])
  {
    hide Agrees, Canonical, FocusSelection.Focus, FocusSelection.FirstOf, Names, NormalizeAll;
    var before, max := Names(s.tablesInScope), req.settings.maxTables;
    NamesOfAgreed(s);
    var focused := FocusedTables(req, s, hits);
    if before != [] {
      if s.embedding.Some? {
        FocusSelection.FocusIsBounded(before, HitsOf(hits), max);
        CanonicalNormalize(before);
        if max > 0 {
          FocusKeepsSome(before, HitsOf(hits), max);
        }
      } else {
        FirstOfIsBounded(before, max);
        FirstOfKeepsSome(before, max);
      }
    }
    forall i | 0 <= i < |focused|
      ensures Canonical(focused[i])
    {
      assert focused[i] in before;
      var j :| 0 <= j < |before| && before[j] == focused[i];
    }
  }

  lemma FirstOfKeepsSome(names: seq<string>, count: nat)
    ensures names != [] && count > 0 ==> FocusSelection.FirstOf(names, count) != []
  {
  }

  lemma NamesOfAgreed(s: State)
    requires Agrees(s)
    ensures AllCanonical(Names(s.tablesInScope)) && |Names(s.tablesInScope)| == |s.tablesInScope|
  {
    hide ColumnsAgree, InScope, Stored;
    NamesOfClean(s.tablesInScope);
  }

  lemma DecidedGeneration(req: Request, s: State, iteration: nat, llm: LlmAnswer, c: Choice)
    requires Sensible(req, s, iteration, llm, c) && Decided(req, s, c).action == GenerateSql
    ensures s.tablesInScope != []
  {
    hide GuardReason, Missing;
    DecidedCases(req, s, c);
  }

  lemma NarrowedGeneration(req: Request, s: State, c: Choice, a: Answers)
    requires Agrees(s) && s.tablesInScope != [] && req.settings.maxTables > 0
    requires c.action == GenerateSql && Narrowed(req, s, c, a).1.action == GenerateSql
    ensures var tables := GenerationTables(Narrowed(req, s, c, a).0);
            && tables != [] && |tables| <= req.settings.maxTables
            && (forall x :: x in tables ==> x in Names(s.tablesInScope))
            && (|s.tablesInScope| > req.settings.maxTables ==> s.columnsRefreshed != {})
  {
    hide Agrees, FocusedTables, Canonical, Names;
    var embedded := s.(embedding := if s.embedding.Some? then s.embedding else a.embedding);
    AgreesBeside(s, embedded);
    FocusedIsBounded(req, embedded, a.hits);
    NamesOfAgreed(s);
    CanonicalNamesAreThemselves(FocusedTables(req, embedded, a.hits));
  }

  // With a cap of zero nothing is focused and nothing refocused: the whole scope is generated for.
  lemma UncappedGeneration(req: Request, s: State, c: Choice, a: Answers)
    requires Agrees(s) && s.tablesInScope != [] && req.settings.maxTables == 0 && c.action == GenerateSql
    ensures GenerationTables(Narrowed(req, s, c, a).0) == Names(s.tablesInScope) != []
  {
    hide Agrees, FocusedTables, Canonical, Names;
    var embedded := s.(embedding := if s.embedding.Some? then s.embedding else a.embedding);
    AgreesBeside(s, embedded);
    FocusedIsBounded(req, embedded, a.hits);
    NamesOfAgreed(s);
    CanonicalNamesAreThemselves(FocusedTables(req, embedded, a.hits));
  }

  // The tables generated for: some, and all in scope. With a positive cap, no more than the cap, and
  // not over the cap before any column refresh; with a cap of zero, the whole scope.
  ghost predicate Scoped(req: Request, s: State, tables: seq<string>) {
    && s.tablesInScope != [] && tables != [] && (forall x :: x in tables ==> x in Names(s.tablesInScope))
    && if req.settings.maxTables > 0
       then |tables| <= req.settings.maxTables
            && (|s.tablesInScope| > req.settings.maxTables ==> s.columnsRefreshed != {})
       else tables == Names(s.tablesInScope)
  }

  // SQL is only ever generated for such tables.
  lemma GenerationIsScoped(req: Request, l: Loop, a: Answers)
    requires Agrees(l.state) && Generates(req, l, a)
    ensures Scoped(req, l.state, GeneratedFor(req, l, a))
  {
    hide Agrees, MakePlan, ConfidenceScore, Decided, Sensible, GenerationTables, FocusedTables, Names;
    var s := Scored(req, l);
    AgreesBeside(l.state, s);
    var c := MakePlan(req, s, l.iteration + 1, a.llm).choice;
    PlansAreSensible(req, s, l.iteration + 1, a.llm);
    DecidedGeneration(req, s, l.iteration + 1, a.llm, c);
    if req.settings.maxTables > 0 {
      NarrowedGeneration(req, s, Decided(req, s, c), a);
    } else {
      UncappedGeneration(req, s, Decided(req, s, c), a);
    }
  }

  /* ---- a round that succeeds ---- */

  // Every check passed: safety, tables and columns, and EXPLAIN reported nothing or was unavailable.
  ghost predicate Accepted(review: Review, tables: seq<string>) {
    && review.safety == [] && review.columns == []
    && !TablesUsed(review.found, review.ctes, tables).1
    && forall i :: 0 <= i < |review.explain| ==> review.explain[i] == ExplainUnavailable
  }

  lemma ReviewExactly(s: State, review: Review)
    ensures BlockingWarnings(ReviewWarnings(s, review)) == [] <==> Accepted(review, GenerationTables(s))
  {
    hide TablesUsed, GenerationTables, BlockingWarnings;
    BlockingCodesBlock(review.safety);
    BlockingCodesBlock(review.columns);
    var unknown := if TablesUsed(review.found, review.ctes, GenerationTables(s)).1 then [TableOutOfScope] else [];
    BlockingCodesBlock(unknown);
    OnlyUnavailableOfAppend(unknown, review.columns);
    var listed := unknown + review.columns;
    OnlyUnavailableOfAppend(listed, if BlockingWarnings(listed) == [] then review.explain else []);
    OnlyUnavailable(review.explain);
    OnlyUnavailable([]);
  }

  lemma OnlyUnavailable(codes: seq<Code>)
    ensures BlockingWarnings(codes) == [] <==> forall i :: 0 <= i < |codes| ==> codes[i] == ExplainUnavailable
  {
  }

  lemma ValidatesExactly(s: State, review: Review)
    ensures var (checked, warnings) := ValidateAction(s, review);
            && (BlockingWarnings(warnings) == [] <==> s.currentSql != "" && Accepted(review, GenerationTables(s)))
            && (BlockingWarnings(warnings) == [] ==>
                  && checked.tablesUsed == TablesUsed(review.found, review.ctes, GenerationTables(s)).0
                  && checked.lastErrors == []
                  && forall i :: 0 <= i < |warnings| ==> warnings[i] == ExplainUnavailable)
            && checked.currentSql == s.currentSql && checked.sqlGenerationCount == s.sqlGenerationCount
            && checked.matchedGroups == s.matchedGroups
  {
    hide TablesUsed, GenerationTables, BlockingWarnings, ReviewWarnings;
    var listed := ReviewWarnings(s, review);
    ReviewExactly(s, review);
    BlockingTwice(listed);
    InfoIsInfo(listed);
    OnlyUnavailable(InfoWarnings(listed));
    BlockingCodesBlock([SqlEmpty]);
  }

  lemma GenerateExactly(s: State, a: SqlAnswer)
    ensures var (done, warnings) := GenerateAction(s, a);
            && (BlockingWarnings(warnings) == [] <==> a.SqlText?)
            && (a.SqlText? ==> done.currentSql == a.sql && warnings == [] && done.matchedGroups == s.matchedGroups
                               && done.sqlGenerationCount == s.sqlGenerationCount + 1)
            && GenerationTables(done) == GenerationTables(s)
  {
    hide BlockingWarnings;
    OnlyUnavailable([]);
    if a.SqlFails? {
      OnlyUnavailable([a.code]);
      assert [a.code][0] != ExplainUnavailable;
    }
  }

  lemma PerformedGeneration(req: Request, s: State, iteration: nat, c: Choice, a: Answers)
    requires c.action == GenerateSql
    ensures var (done, warnings) := Performed(req, s, iteration, c, a);
            var (made, same) := GenerateAction(s, a.sql);
            && done == made.(actionsTaken := done.actionsTaken) && warnings == same
            && GenerationTables(done) == GenerationTables(made)
  {
    hide Names;
  }

  // Answers under which the round delivers the SQL it generated.
  ghost predicate Delivers(req: Request, l: Loop, a: Answers)
    requires Generates(req, l, a)
  {
    a.sql.SqlText? && a.sql.sql != "" && Accepted(a.review, GeneratedFor(req, l, a))
  }

  // A response that carries exactly that SQL and the tables found in it.
  ghost predicate Carries(req: Request, l: Loop, a: Answers, response: Response)
    requires Generates(req, l, a) && a.sql.SqlText?
  {
    && response.Success?
    && response.sql == a.sql.sql
    && response.tablesUsed == TablesUsed(a.review.found, a.review.ctes, GeneratedFor(req, l, a)).0
    && (forall i :: 0 <= i < |response.warnings| ==> response.warnings[i] == ExplainUnavailable)
    && response.attemptCount == l.state.sqlGenerationCount + 1
    && response.matchedGroups == l.state.matchedGroups
    && EndsInGeneration(l, response.trace)
  }

  // The trace ends with the generation of this round, reported as validated.
  ghost predicate EndsInGeneration(l: Loop, trace: Trace) {
    && trace.finalAction == ValidateAndReturn && trace.totalIterations == l.iteration + 1
    && l.steps < trace.steps && |trace.steps| == |l.steps| + 1
    && trace.steps[|l.steps|].action == GenerateSql && trace.steps[|l.steps|].iteration == l.iteration + 1
  }

  lemma SettleSuccess(s: State, l: Loop, c: Choice, warnings: seq<Code>, completed: Action)
    requires c.action == GenerateSql && completed == ValidateAndReturn
    ensures Settle(s, l, c, completed, warnings).Ends? && Settle(s, l, c, completed, warnings).response.Success?
            <==> BlockingWarnings(warnings) == []
    ensures BlockingWarnings(warnings) == [] ==>
              var r := Settle(s, l, c, completed, warnings).response;
              r.sql == s.currentSql && r.tablesUsed == s.tablesUsed && r.warnings == InfoWarnings(warnings)
              && r.attemptCount == MaxInt(1, s.sqlGenerationCount) && r.matchedGroups == s.matchedGroups
              && EndsInGeneration(l, r.trace)
  {
    hide BlockingWarnings, InfoWarnings;
    OnlyUnavailable(warnings);
    assert warnings != [] ==> !(IsTransport(warnings[0]) && warnings[0] == ExplainUnavailable);
  }

  lemma NoSuccessOtherwise(s: State, l: Loop, c: Choice, completed: Action, warnings: seq<Code>)
    requires completed != ValidateAndReturn
    ensures Settle(s, l, c, completed, warnings).Ends? ==> !Settle(s, l, c, completed, warnings).response.Success?
  {
    hide BlockingWarnings, InfoWarnings, IsTransportFailure, IsFinal;
  }

  // What generation and the validation after it come to.
  lemma GenerationOutcome(req: Request, s: State, l: Loop, c: Choice, a: Answers)
    requires c.action == GenerateSql
    ensures var (done, warnings) := Performed(req, s, l.iteration + 1, c, a);
            var (checked, all, validated) := Validated(done, c.action, warnings, a.review);
            && (validated <==> a.sql.SqlText?)
            && (validated ==>
                  && (BlockingWarnings(all) == [] <==> a.sql.sql != "" && Accepted(a.review, GenerationTables(s)))
                  && (BlockingWarnings(all) == [] ==>
                        && checked.currentSql == a.sql.sql
                        && checked.tablesUsed == TablesUsed(a.review.found, a.review.ctes, GenerationTables(s)).0
                        && checked.sqlGenerationCount == s.sqlGenerationCount + 1
                        && checked.matchedGroups == s.matchedGroups))
  {
    hide GenerationTables, TablesUsed, BlockingWarnings, ReviewWarnings, Performed, GenerateAction,
         ValidateAction, Accepted;
    PerformedGeneration(req, s, l.iteration + 1, c, a);
    GenerateExactly(s, a.sql);
    var (done, warnings) := Performed(req, s, l.iteration + 1, c, a);
    ValidatesExactly(done, a.review);
    if a.sql.SqlText? {
      assert warnings + ValidateAction(done, a.review).1 == ValidateAction(done, a.review).1;
    }
  }

  lemma ActSucceedsExactly(req: Request, l: Loop, s: State, plan: Choice, a: Answers)
    requires var (narrowed, c) := Narrowed(req, s, Decided(req, s, plan), a); c.action == GenerateSql
    ensures var narrowed := Narrowed(req, s, Decided(req, s, plan), a).0;
            var end := Act(req, l, s, plan, a);
            && (end.Ends? && end.response.Success? <==>
                  a.sql.SqlText? && a.sql.sql != "" && Accepted(a.review, GenerationTables(narrowed)))
            && (end.Ends? && end.response.Success? ==>
                  && end.response.sql == a.sql.sql
                  && end.response.tablesUsed
                     == TablesUsed(a.review.found, a.review.ctes, GenerationTables(narrowed)).0
                  && (forall i :: 0 <= i < |end.response.warnings| ==> end.response.warnings[i] == ExplainUnavailable)
                  && end.response.attemptCount == narrowed.sqlGenerationCount + 1
                  && end.response.matchedGroups == narrowed.matchedGroups && EndsInGeneration(l, end.response.trace))
  {
    hide Narrowed, Performed, Validated, Settle, Decided, InfoWarnings, TablesUsed, GenerationTables, Accepted,
         BlockingWarnings, EndsInGeneration;
    var (narrowed, c) := Narrowed(req, s, Decided(req, s, plan), a);
    var (done, warnings) := Performed(req, narrowed, l.iteration + 1, c, a);
    var (checked, all, validated) := Validated(done, c.action, warnings, a.review);
    var completed := CompletedAction(narrowed, l.iteration + 1, c.action, validated);
    GenerationOutcome(req, narrowed, l, c, a);
    InfoIsInfo(all);
    if validated {
      SettleSuccess(checked, l, c, all, completed);
    } else {
      NoSuccessOtherwise(checked, l, c, completed, all);
    }
  }

  lemma OthersDoNotSucceed(req: Request, l: Loop, s: State, plan: Choice, a: Answers)
    requires var c := Narrowed(req, s, Decided(req, s, plan), a).1;
             c.action != GenerateSql && c.action != ValidateAndReturn
    ensures var end := Act(req, l, s, plan, a);
            end.Ends? ==> !end.response.Success?
  {
    hide Narrowed, Performed, Settle, Decided, ValidateAction, BlockingWarnings;
    var (narrowed, c) := Narrowed(req, s, Decided(req, s, plan), a);
    var (done, warnings) := Performed(req, narrowed, l.iteration + 1, c, a);
    var (checked, all, validated) := Validated(done, c.action, warnings, a.review);
    NoSuccessOtherwise(checked, l, c, CompletedAction(narrowed, l.iteration + 1, c.action, validated), all);
  }

  lemma NeverValidatesAlone(req: Request, s: State, iteration: nat, llm: LlmAnswer, plan: Choice, a: Answers)
    requires Sensible(req, s, iteration, llm, plan)
    ensures Narrowed(req, s, Decided(req, s, plan), a).1.action != ValidateAndReturn
  {
    hide GuardReason, Missing, FocusedTables, MustRefocus;
    DecidedCases(req, s, plan);
  }

  lemma NarrowedKeepsGroups(req: Request, s: State, c: Choice, a: Answers)
    ensures Narrowed(req, s, c, a).0.matchedGroups == s.matchedGroups
  {
    hide FocusedTables, MustRefocus;
  }

  // A round ends in success exactly when it generates non-empty SQL that every check accepts, and
  // the response then carries that SQL.
  lemma RoundSucceedsExactly(req: Request, l: Loop, a: Answers)
    requires Agrees(l.state)
    ensures var end := Round(req, l, a);
            && (end.Ends? && end.response.Success? <==> Generates(req, l, a) && Delivers(req, l, a))
            && (end.Ends? && end.response.Success? ==> Carries(req, l, a, end.response))
  {
    hide Agrees, MakePlan, ConfidenceScore, Decided, Act, Narrowed, Sensible, Accepted, TablesUsed, GenerationTables;
    var s := Scored(req, l);
    AgreesBeside(l.state, s);
    match MakePlan(req, s, l.iteration + 1, a.llm)
    case NoPlan(_) =>
    case Planned(c) =>
      PlansAreSensible(req, s, l.iteration + 1, a.llm);
      NarrowedCounts(req, s, Decided(req, s, c), a);
      NarrowedKeepsGroups(req, s, Decided(req, s, c), a);
      if Generates(req, l, a) {
        ActSucceedsExactly(req, l, s, c, a);
      } else {
        NeverValidatesAlone(req, s, l.iteration + 1, a.llm, c, a);
        OthersDoNotSucceed(req, l, s, c, a);
      }
  }

  /* ---- runs ---- */

  // The response is delivered by one round, which generated its SQL for tables in scope there.
  ghost predicate DeliveredBy(req: Request, l: Loop, a: Answers, response: Response) {
    && Generates(req, l, a) && Delivers(req, l, a) && Carries(req, l, a, response)
    && DrawnFrom(response.tablesUsed, GeneratedFor(req, l, a))
    && Scoped(req, l.state, GeneratedFor(req, l, a))
  }

  lemma RoundDelivers(req: Request, l: Loop, a: Answers)
    requires Agrees(l.state) && Round(req, l, a).Ends? && Round(req, l, a).response.Success?
    ensures DeliveredBy(req, l, a, Round(req, l, a).response)
  {
    hide Agrees, Round, Generates, Delivers, GeneratedFor, TablesUsed, ResponseName, Names;
    RoundSucceedsExactly(req, l, a);
    UsedAreDrawn(a.review.found, a.review.ctes, GeneratedFor(req, l, a));
    GenerationIsScoped(req, l, a);
  }

  lemma {:induction false} SuccessComesFromARound(req: Request, l: Loop, rounds: seq<Answers>) returns (n: nat)
    requires Sound(req, l) && AllCleanAnswers(rounds) && Run(req, l, rounds).Success?
    ensures n < |rounds| && After(req, l, rounds, n).Some?
    ensures DeliveredBy(req, After(req, l, rounds, n).value, rounds[n], Run(req, l, rounds))
    decreases |rounds|
  {
    hide Round, Sound, DeliveredBy, CleanAnswers, Continues;
    assert Continues(req, l) && rounds != [];
    if Round(req, l, rounds[0]).Ends? {
      n := 0;
      SettledOfSound(req, l);
      RoundDelivers(req, l, rounds[0]);
    } else {
      RoundIsSound(req, l, rounds[0]);
      var rest := SuccessComesFromARound(req, Round(req, l, rounds[0]).l, rounds[1..]);
      n := rest + 1;
    }
  }

  lemma {:induction false} AfterIsFinal(req: Request, l: Loop, rounds: seq<Answers>, n: nat)
    requires n <= |rounds| && After(req, l, rounds, n).Some?
    ensures Final(req, l, rounds[..n]) == After(req, l, rounds, n).value
    decreases n
  {
    hide Round, Continues;
    if n > 0 {
      AfterIsFinal(req, Round(req, l, rounds[0]).l, rounds[1..], n - 1);
      assert rounds[..n][1..] == rounds[1..][..n - 1];
    }
  }

  // Every success of every run: its SQL was generated, non-empty, in the very round that ended the
  // run, for tables out of those the run had brought into scope by then, as many as the cap allows,
  // and passed every check.
  lemma SuccessIsSafe(req: Request, skipPast: bool, bootstrap: SchemaAnswer, rounds: seq<Answers>) returns (n: nat)
    requires CleanSchema(bootstrap) && AllCleanAnswers(rounds)
    requires Run(req, Bootstrapped(req, skipPast, bootstrap), rounds).Success?
    ensures var start := Bootstrapped(req, skipPast, bootstrap);
            && n < |rounds| && After(req, start, rounds, n).Some?
            && var at := After(req, start, rounds, n).value;
            && DeliveredBy(req, at, rounds[n], Run(req, start, rounds))
            && forall x :: x in at.state.tablesInScope ==> x in Added(bootstrap.tables) + AllTablesOf(rounds[..n])
  {
    hide Bootstrapped, Run, Sound, DeliveredBy, After, Settled, Added, AllTablesOf, CleanSchema, Contains;
    var start := Bootstrapped(req, skipPast, bootstrap);
    BootstrapIsSound(req, skipPast, bootstrap);
    n := SuccessComesFromARound(req, start, rounds);
    AfterIsFinal(req, start, rounds, n);
    BootstrapSettles(req, skipPast, bootstrap);
    RunOnlyGrows(req, start, rounds[..n]);
  }
}
