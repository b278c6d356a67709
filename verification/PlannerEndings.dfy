/**
 * How rounds and runs end, on the answers and the state's own fields (agent/react_executor.py `run`).
 */
module PlannerEndings {
  import opened Text
  import opened TableNames
  import opened PlannerActions
  import opened PlannerLoop
  import opened PlannerAgreement
  import opened PlannerPlanning
  import opened PlannerChoices
  import opened PlannerAccounting
  import opened PlannerSuccess
  import FocusSelection

  /* ---- what a round executes ---- */

  // The guard stops a choice under a key of the past, and a schema retrieval of tables all retrieved.
  ghost predicate Blocked(req: Request, s: State, c: Choice) {
    || (c.action, ActionTarget(req, c.action, c.input, s)) in s.actionsTaken
    || (&& c.action in {RetrieveSchemaForTables, RetrieveMoreContext, FetchSchema}
        && SchemaTargets(s, c.input) != []
        && forall t :: t in SchemaTargets(s, c.input) ==> t in s.retrievedTables)
  }

  // The tables a schema retrieval names, as they are remembered.
  function SchemaTargets(s: State, input: string): seq<string> {
    ParseCsv(SchemaTarget(input, s))
  }

  lemma RetrievedAreNames(s: State)
    requires Agrees(s)
    ensures RetrievedNames(s) == s.retrievedTables
  {
    hide ColumnsAgree, Canonical;
    NamesOfClean(s.tablesInScope);
    forall t | t in s.retrievedTables
      ensures Strip(t) != "" && Normalize(t) == t
    {
      var i :| 0 <= i < |Names(s.tablesInScope)| && Names(s.tablesInScope)[i] == t;
      CanonicalIsClean(t);
      CleanIsNotBlank(t);
      CanonicalNormal(t);
    }
    assert forall t :: t in s.retrievedTables ==> Normalize(t) in RetrievedNames(s);
  }

  lemma CanonicalNormal(t: string)
    requires Canonical(t)
    ensures Normalize(t) == t
  {
  }

  // A choice stands unless it is blocked; then SQL is generated instead, or, with nothing in scope, the
  // user is asked.
  lemma DecidedExactly(req: Request, s: State, c: Choice)
    requires Agrees(s) && c.action != ValidateAndReturn
    ensures if Blocked(req, s, c)
            then Decided(req, s, c).action == (if s.tablesInScope != [] then GenerateSql else RequestClarification)
                 && (c.input != "" ==> Decided(req, s, c).input == c.input)
            else Decided(req, s, c) == c
  {
    hide Agrees, ParseCsv, ActionTarget, RetrievedNames, SchemaTarget;
    RetrievedAreNames(s);
    SchemaTargetOf(req, s, c);
  }

  lemma SchemaTargetOf(req: Request, s: State, c: Choice)
    ensures IsSchemaAction(c.action) ==> ActionTarget(req, c.action, c.input, s) == SchemaTarget(c.input, s)
  {
    hide SchemaTarget;
  }

  // Generation over the cap before any column refresh turns into a schema retrieval of the focus.
  ghost predicate TooWide(req: Request, s: State) {
    0 < req.settings.maxTables < |s.tablesInScope| && s.columnsRefreshed == {}
  }

  lemma NarrowedExactly(req: Request, s: State, c: Choice, a: Answers)
    requires Agrees(s)
    ensures if c.action == GenerateSql && TooWide(req, s)
            then Narrowed(req, s, c, a).1.action == RetrieveSchemaForTables
            else Narrowed(req, s, c, a).1 == c
  {
    hide Agrees, FocusedTables, Names, Canonical;
    var embedded := s.(embedding := if s.embedding.Some? then s.embedding else a.embedding);
    AgreesBeside(s, embedded);
    FocusedIsBounded(req, embedded, a.hits);
    NamesOfAgreed(s);
  }

  // SQL is generated for the best of the scope by the question's embedding, if there is one, or else for
  // its first tables; with a cap of zero for all of it.
  lemma GenerationTablesExactly(req: Request, s: State, c: Choice, a: Answers)
    requires Agrees(s) && c.action == GenerateSql && s.tablesInScope != []
    ensures var names, max := Names(s.tablesInScope), req.settings.maxTables;
            var tables := GenerationTables(Narrowed(req, s, c, a).0);
            if max == 0 then tables == names
            else if s.embedding.Some? || a.embedding.Some? then
              tables == FocusSelection.Focus(names, HitsOf(a.hits), max)
            else tables == if |names| <= max then names else names[..max]
  {
    hide Agrees, Canonical, Names, FocusSelection.Focus;
    var embedded := s.(embedding := if s.embedding.Some? then s.embedding else a.embedding);
    AgreesBeside(s, embedded);
    FocusedIsBounded(req, embedded, a.hits);
    NamesOfAgreed(s);
    CanonicalNamesAreThemselves(FocusedTables(req, embedded, a.hits));
  }

  // What is executed, under a plan.
  ghost function Executes(req: Request, s: State, c: Choice, a: Answers): Choice {
    Narrowed(req, s, Decided(req, s, c), a).1
  }

  // A round generates SQL if and only if it plans to, or what it plans is blocked, with tables in scope
  // and no need to refocus.
  lemma GeneratesExactly(req: Request, l: Loop, a: Answers)
    requires Agrees(l.state)
    ensures var s := Scored(req, l);
            Generates(req, l, a) <==>
              match PlanByFields(req, s, l.iteration + 1, a.llm)
              case NoPlan(_) => false
              case Planned(c) =>
                s.tablesInScope != [] && (c.action == GenerateSql || Blocked(req, s, c)) && !TooWide(req, s)
  {
    hide Agrees, PlanByFields, MakePlan, ConfidenceScore, Decided, Narrowed, Blocked;
    var s := Scored(req, l);
    AgreesBeside(l.state, s);
    PlannedExactly(req, s, l.iteration + 1, a.llm);
    match MakePlan(req, s, l.iteration + 1, a.llm)
    case NoPlan(_) =>
    case Planned(c) =>
      PlanIsNoValidation(req, s, l.iteration + 1, a.llm);
      DecidedExactly(req, s, c);
      NarrowedExactly(req, s, Decided(req, s, c), a);
  }

  // A bare validation is never planned, and generation only with tables in scope.
  lemma PlanIsNoValidation(req: Request, s: State, iteration: nat, llm: LlmAnswer)
    requires Agrees(s)
    ensures var plan := MakePlan(req, s, iteration, llm);
            plan.Planned? ==> plan.choice.action != ValidateAndReturn
                              && (plan.choice.action == GenerateSql ==> s.tablesInScope != [])
  {
    hide Agrees, Lacking, Join, Ambiguous, MakePlan;
    PlannedExactly(req, s, iteration, llm);
  }

  /* ---- what validation objects to ---- */

  function WithoutUnavailable(codes: seq<Code>): seq<Code> {
    if codes == [] then []
    else (if codes[0] == ExplainUnavailable then [] else [codes[0]]) + WithoutUnavailable(codes[1..])
  }

  // The verdicts on generated SQL, in the order in which the checks run: an empty text; else what the
  // safety check says; else an unknown table and what the column check says; else what EXPLAIN says.
  function Objections(sql: string, review: Review, tables: seq<string>): seq<Code> {
    if sql == "" then [SqlEmpty]
    else if review.safety != [] then review.safety
    else
      var unknown := if TablesUsed(review.found, review.ctes, tables).1 then [TableOutOfScope] else [];
      var listed := unknown + review.columns;
      if listed != [] then listed else WithoutUnavailable(review.explain)
  }

  lemma {:induction false} BlockingIsWithout(codes: seq<Code>)
    ensures BlockingWarnings(codes) == WithoutUnavailable(codes)
  {
    if codes != [] {
      BlockingIsWithout(codes[1..]);
    }
  }

  lemma {:induction false} BlockingStays(codes: seq<Code>)
    requires forall i :: 0 <= i < |codes| ==> codes[i] != ExplainUnavailable
    ensures WithoutUnavailable(codes) == codes
  {
    if codes != [] {
      BlockingStays(codes[1..]);
      assert [codes[0]] + codes[1..] == codes;
    }
  }

  lemma ObjectionsOf(s: State, review: Review)
    requires s.currentSql != ""
    ensures BlockingWarnings(ReviewWarnings(s, review)) == Objections(s.currentSql, review, GenerationTables(s))
  {
    hide TablesUsed, GenerationTables, BlockingWarnings, WithoutUnavailable;
    var unknown := if TablesUsed(review.found, review.ctes, GenerationTables(s)).1 then [TableOutOfScope] else [];
    var listed := unknown + review.columns;
    BlockingIsWithout(ReviewWarnings(s, review));
    BlockingStays(review.safety);
    BlockingStays(listed);
    BlockingIsWithout(listed);
    if listed != [] {
      assert listed + [] == listed;
    } else {
      assert [] + review.explain == review.explain;
    }
  }

  lemma {:induction false} WithoutIsVerdict(codes: seq<Code>)
    requires forall i :: 0 <= i < |codes| ==> !IsTransport(codes[i])
    ensures forall i :: 0 <= i < |WithoutUnavailable(codes)| ==> !IsTransport(WithoutUnavailable(codes)[i])
  {
    if codes != [] {
      WithoutIsVerdict(codes[1..]);
    }
  }

  lemma ObjectionsAreVerdicts(sql: string, review: Review, tables: seq<string>)
    ensures !IsTransportFailure(Objections(sql, review, tables))
  {
    hide TablesUsed, WithoutUnavailable;
    WithoutIsVerdict(review.explain);
    var o := Objections(sql, review, tables);
    assert o != [] ==> !IsTransport(o[0]);
  }

  // Validation reports the objections, and remembers them unless there was nothing to check.
  lemma ValidationReports(s: State, review: Review)
    ensures var (checked, warnings) := ValidateAction(s, review);
            var objections := Objections(s.currentSql, review, GenerationTables(s));
            && BlockingWarnings(warnings) == objections
            && (objections != [] ==> warnings == objections)
            && !IsTransportFailure(warnings)
            && checked.lastErrors == if s.currentSql == "" then s.lastErrors else objections
  {
    hide TablesUsed, GenerationTables, BlockingWarnings, ReviewWarnings, Objections, IsTransportFailure;
    var objections := Objections(s.currentSql, review, GenerationTables(s));
    ObjectionsAreVerdicts(s.currentSql, review, GenerationTables(s));
    if s.currentSql == "" {
      EmptyObjected(review, GenerationTables(s));
    } else {
      ObjectionsOf(s, review);
      var listed := ReviewWarnings(s, review);
      BlockingOfObjections(listed);
      BlockingOfInfo(listed);
    }
  }

  lemma {:induction false} UnavailableIsInfo(codes: seq<Code>)
    requires forall i :: 0 <= i < |codes| ==> codes[i] == ExplainUnavailable
    ensures InfoWarnings(codes) == codes
  {
    if codes != [] {
      UnavailableIsInfo(codes[1..]);
      assert [codes[0]] + codes[1..] == codes;
    }
  }

  // SQL that nothing is objected to is reported with the warnings of EXPLAIN, all of them.
  lemma NothingObjected(s: State, review: Review)
    requires Objections(s.currentSql, review, GenerationTables(s)) == []
    ensures ValidateAction(s, review).1 == review.explain && InfoWarnings(review.explain) == review.explain
  {
    hide TablesUsed, GenerationTables, BlockingWarnings, InfoWarnings, WithoutUnavailable;
    BlockingIsWithout(review.explain);
    OnlyUnavailable(review.explain);
    OnlyUnavailable([]);
    UnavailableIsInfo(review.explain);
    assert [] + review.explain == review.explain;
  }

  lemma EmptyObjected(review: Review, tables: seq<string>)
    ensures Objections("", review, tables) == [SqlEmpty] == BlockingWarnings([SqlEmpty])
  {
    assert [SqlEmpty][1..] == [];
  }

  lemma BlockingOfObjections(warnings: seq<Code>)
    ensures BlockingWarnings(BlockingWarnings(warnings)) == BlockingWarnings(warnings)
  {
    hide BlockingWarnings, WithoutUnavailable;
    BlockingIsBlocking(warnings);
    BlockingStays(BlockingWarnings(warnings));
    BlockingIsWithout(BlockingWarnings(warnings));
  }

  lemma BlockingOfInfo(warnings: seq<Code>)
    ensures BlockingWarnings(InfoWarnings(warnings)) == [] && !IsTransportFailure(InfoWarnings(warnings))
  {
    InfoIsInfo(warnings);
    OnlyUnavailable(InfoWarnings(warnings));
    assert InfoWarnings(warnings) != [] ==> !IsTransport(InfoWarnings(warnings)[0]);
  }

  /* ---- how a round ends ---- */

  function StepsWith(l: Loop, c: Choice): seq<Step> {
    l.steps + [Step(l.iteration + 1, c.action, c.input)]
  }

  function LastOf(l: Loop): Action {
    if l.steps == [] then GiveUp else l.last
  }

  // Generation stops the run if the code model fails in transport, and answers if every check accepts
  // its SQL, with what EXPLAIN could not check as warnings; otherwise the round goes on and adds what was objected to.
  ghost predicate GenerationEnds(l: Loop, c: Choice, a: Answers, tables: seq<string>, end: RoundEnd) {
    match a.sql
    case SqlFails(code) =>
      && end.Ends?
      && end.response == Rejected(l.warnings + [code], l.planner + 1,
                                  Trace(StepsWith(l, c), l.iteration + 1, GenerateSql))
    case SqlText(sql) =>
      var objections := Objections(sql, a.review, tables);
      if objections == [] then end.Ends? && end.response.Success? && end.response.warnings == a.review.explain
      else end.GoOn? && end.l.warnings == l.warnings + objections && end.l.state.lastErrors ==
                                                                    (if sql == "" then [] else objections)
  }

  // Giving up or asking back ends in a clarification; a retrieval goes on and adds no warning.
  ghost predicate OtherEnds(l: Loop, c: Choice, end: RoundEnd) {
    if c.action == GiveUp || c.action == RequestClarification || c.action == AskClarification then
      && end.Ends?
      && end.response == Clarification(if c.input != "" then c.input else "Could not generate valid SQL", l.warnings,
                                       Trace(StepsWith(l, c), l.iteration + 1, c.action))
    else end.GoOn? && end.l.warnings == l.warnings
  }

  lemma SettledGeneration(s: State, l: Loop, c: Choice, warnings: seq<Code>, validated: bool)
    requires c.action == GenerateSql
    ensures var end := Settle(s, l, c, if validated then ValidateAndReturn else GenerateSql, warnings);
            && (IsTransportFailure(warnings) ==>
                  end.Ends? && end.response == Rejected(l.warnings + warnings, l.planner + 1,
                    Trace(StepsWith(l, c), l.iteration + 1, if validated then ValidateAndReturn else GenerateSql)))
            && (!IsTransportFailure(warnings) && validated && BlockingWarnings(warnings) == [] ==>
                  end.Ends? && end.response.Success? && end.response.warnings == InfoWarnings(warnings))
            && (!IsTransportFailure(warnings) && BlockingWarnings(warnings) != [] ==>
                  end.GoOn? && end.l.warnings == l.warnings + warnings && end.l.state == s)
  {
    hide BlockingWarnings, IsTransportFailure, InfoWarnings;
  }

  lemma GenerationEnding(req: Request, l: Loop, s: State, c: Choice, a: Answers, narrowed: State)
    requires c.action == GenerateSql
    ensures var (done, warnings) := Performed(req, narrowed, l.iteration + 1, c, a);
            var (checked, all, validated) := Validated(done, c.action, warnings, a.review);
            var completed := CompletedAction(narrowed, l.iteration + 1, c.action, validated);
            GenerationEnds(l, c, a, GenerationTables(narrowed), Settle(checked, l, c, completed, all))
  {
    hide Performed, Settle, BlockingWarnings, IsTransportFailure, ValidateAction, GenerationTables, Objections,
         GenerateAction;
    PerformedGeneration(req, narrowed, l.iteration + 1, c, a);
    GenerateExactly(narrowed, a.sql);
    GeneratedState(narrowed, a.sql);
    var (done, warnings) := Performed(req, narrowed, l.iteration + 1, c, a);
    var (checked, all, validated) := Validated(done, c.action, warnings, a.review);
    SettledGeneration(checked, l, c, all, validated);
    match a.sql
    case SqlFails(code) => TransportFails(code);
    case SqlText(_) =>
      ValidationReports(done, a.review);
      if Objections(done.currentSql, a.review, GenerationTables(done)) == [] {
        NothingObjected(done, a.review);
      }
      assert [] + ValidateAction(done, a.review).1 == ValidateAction(done, a.review).1;
  }

  lemma GeneratedState(s: State, a: SqlAnswer)
    ensures var (done, warnings) := GenerateAction(s, a);
            match a
            case SqlFails(code) => warnings == [code]
            case SqlText(sql) => warnings == [] && done.currentSql == sql && done.lastErrors == []
  {
  }

  lemma TransportFails(code: Transport)
    ensures IsTransportFailure([code])
  {
  }

  lemma OtherWarnings(req: Request, s: State, iteration: nat, c: Choice, a: Answers)
    requires c.action != GenerateSql && c.action != ValidateAndReturn
    ensures Performed(req, s, iteration, c, a).1 == []
  {
    hide FirstRound, SchemaAction, PastSegment, JoinAction, SampleAction, ActionTarget;
  }

  lemma OtherEnding(l: Loop, c: Choice, s: State, completed: Action)
    requires c.action != GenerateSql && c.action != ValidateAndReturn && completed != ValidateAndReturn
    ensures OtherEnds(l, c, Settle(s, l, c, completed, []))
  {
  }

  lemma ActEnds(req: Request, l: Loop, s: State, plan: Choice, a: Answers)
    requires Executes(req, s, plan, a).action != ValidateAndReturn
    ensures var c, end := Executes(req, s, plan, a), Act(req, l, s, plan, a);
            if c.action == GenerateSql
            then GenerationEnds(l, c, a, GenerationTables(Narrowed(req, s, Decided(req, s, plan), a).0), end)
            else OtherEnds(l, c, end)
    ensures Act(req, l, s, plan, a).l.steps == StepsWith(l, Executes(req, s, plan, a))
  {
    hide Narrowed, Decided, Performed, Settle, GenerationEnds, OtherEnds, ValidateAction, BlockingWarnings;
    var (narrowed, c) := Narrowed(req, s, Decided(req, s, plan), a);
    var (done, warnings) := Performed(req, narrowed, l.iteration + 1, c, a);
    var (checked, all, validated) := Validated(done, c.action, warnings, a.review);
    var completed := CompletedAction(narrowed, l.iteration + 1, c.action, validated);
    StepsOfSettle(checked, l, c, completed, all);
    if c.action == GenerateSql {
      GenerationEnding(req, l, s, c, a, narrowed);
    } else {
      OtherWarnings(req, narrowed, l.iteration + 1, c, a);
      OtherEnding(l, c, checked, completed);
    }
  }

  lemma StepsOfSettle(s: State, l: Loop, c: Choice, completed: Action, warnings: seq<Code>)
    ensures Settle(s, l, c, completed, warnings).l.steps == StepsWith(l, c)
  {
    hide BlockingWarnings, InfoWarnings, IsTransportFailure, IsRetrieval, IsFinal;
  }

  // How every round ends, whatever it plans: rejected at once if the planning model had to be asked and
  // failed; otherwise by what it executes, which is one numbered step more.
  lemma RoundEndsExactly(req: Request, l: Loop, a: Answers)
    requires Agrees(l.state)
    ensures var s, end := Scored(req, l), Round(req, l, a);
            match PlanByFields(req, s, l.iteration + 1, a.llm)
            case NoPlan(code) =>
              && end.Ends?
              && end.response == Rejected(l.warnings + [code], |l.steps|, Trace(l.steps, |l.steps|, LastOf(l)))
            case Planned(plan) =>
              var c := Executes(req, s, plan, a);
              && end.l.steps == StepsWith(l, c)
              && (c.action == GenerateSql <==> Generates(req, l, a))
              && if c.action == GenerateSql then GenerationEnds(l, c, a, GeneratedFor(req, l, a), end)
                 else OtherEnds(l, c, end)
  {
    hide Agrees, MakePlan, PlanByFields, ConfidenceScore, Narrowed, Decided, Act, GenerationEnds, OtherEnds,
         GenerationTables;
    var s := Scored(req, l);
    AgreesBeside(l.state, s);
    PlannedExactly(req, s, l.iteration + 1, a.llm);
    match MakePlan(req, s, l.iteration + 1, a.llm)
    case NoPlan(_) =>
    case Planned(plan) =>
      NeverExecutesValidation(req, s, l.iteration + 1, a, plan);
      ActEnds(req, l, s, plan, a);
  }

  lemma NeverExecutesValidation(req: Request, s: State, iteration: nat, a: Answers, plan: Choice)
    requires Agrees(s) && MakePlan(req, s, iteration, a.llm) == Planned(plan)
    ensures Executes(req, s, plan, a).action != ValidateAndReturn
  {
    hide Agrees, MakePlan, Sensible, Narrowed, Decided;
    PlansAreSensible(req, s, iteration, a.llm);
    NeverValidatesAlone(req, s, iteration, a.llm, plan, a);
  }

  // The planning model was asked and failed.
  ghost predicate ModelFails(req: Request, l: Loop, a: Answers) {
    AsksModel(req, Scored(req, l), l.iteration + 1) && a.llm.LlmFails?
  }

  // SQL was to be generated and the code model failed.
  ghost predicate CodeModelFails(req: Request, l: Loop, a: Answers) {
    Generates(req, l, a) && a.sql.SqlFails?
  }

  lemma NoPlanExactly(req: Request, s: State, iteration: nat, llm: LlmAnswer)
    requires Agrees(s)
    ensures PlanByFields(req, s, iteration, llm).NoPlan? <==> AsksModel(req, s, iteration) && llm.LlmFails?
    ensures PlanByFields(req, s, iteration, llm).NoPlan? ==> PlanByFields(req, s, iteration, llm).code == llm.code
  {
    hide Lacking, Join, ModelPlan;
  }

  // A round ends in a rejection if and only if a model it needs fails in transport. The response holds
  // the warnings so far and that failure.
  lemma RoundRejectsExactly(req: Request, l: Loop, a: Answers)
    requires Agrees(l.state)
    ensures var end := Round(req, l, a);
            && (end.Ends? && end.response.Rejected? <==> ModelFails(req, l, a) || CodeModelFails(req, l, a))
            && (ModelFails(req, l, a) ==>
                  end.response == Rejected(l.warnings + [a.llm.code], |l.steps|, Trace(l.steps, |l.steps|, LastOf(l))))
            && (CodeModelFails(req, l, a) ==>
                  end.response.warnings == l.warnings + [a.sql.code] && end.response.attemptCount == l.planner + 1
                  && end.response.trace == Trace(end.l.steps, l.iteration + 1, GenerateSql))
  {
    hide Agrees, MakePlan, PlanByFields, ConfidenceScore, Narrowed, Decided, Round, GenerationTables, AsksModel,
         Executes, Objections, StepsWith;
    var s := Scored(req, l);
    AgreesBeside(l.state, s);
    NoPlanExactly(req, s, l.iteration + 1, a.llm);
    PlannedExactly(req, s, l.iteration + 1, a.llm);
    RoundEndsExactly(req, l, a);
  }

  /* ---- how a run ends ---- */

  // The budget of planner iterations is used up, and past corrections have been looked at.
  predicate UsedUp(req: Request, l: Loop) {
    l.planner >= req.settings.maxIterations && l.state.pastChecked
  }

  // The answer of a run that has come to the loop m, before round n.
  ghost predicate AnsweredAt(req: Request, m: Loop, rounds: seq<Answers>, n: nat, response: Response)
    requires n <= |rounds|
  {
    if UsedUp(req, m) then
      response == Clarification("", m.warnings + [MaxRetriesExceeded], Trace(m.steps, |m.steps|, LastOf(m)))
    else if n == |rounds| then
      response == Rejected(m.warnings + [RequestTimeout], m.planner, Trace(m.steps, |m.steps|, LastOf(m)))
    else Round(req, m, rounds[n]).Ends? ==> response == Round(req, m, rounds[n]).response
  }

  ghost predicate NothingFinal(steps: seq<Step>) {
    forall i :: 0 <= i < |steps| ==> !IsFinal(steps[i].action)
  }

  lemma OnlyOthersGoOn(req: Request, l: Loop, a: Answers)
    requires Agrees(l.state) && NothingFinal(l.steps) && Round(req, l, a).GoOn?
    ensures NothingFinal(Round(req, l, a).l.steps)
  {
    hide Agrees, PlanByFields, ConfidenceScore, Executes, Round, Generates, Objections, GeneratedFor;
    RoundEndsExactly(req, l, a);
  }

  lemma StoppedAnswer(req: Request, l: Loop, rounds: seq<Answers>)
    requires NothingFinal(l.steps)
    ensures AnsweredAt(req, l, rounds, 0, Run(req, l, rounds))
  {
    hide Round;
  }

  // Wherever a run comes by, its answer is the one due there.
  lemma {:induction false} RunAnswers(req: Request, l: Loop, rounds: seq<Answers>, n: nat)
    requires n <= |rounds| && After(req, l, rounds, n).Some?
    requires Agrees(l.state) && NothingFinal(l.steps) && AllCleanAnswers(rounds)
    ensures AnsweredAt(req, After(req, l, rounds, n).value, rounds, n, Run(req, l, rounds))
    decreases n
  {
    hide Round, Agrees, NothingFinal, UsedUp, CleanAnswers;
    if n == 0 {
      StoppedAnswer(req, l, rounds);
    } else {
      RoundAgrees(req, l, rounds[0]);
      OnlyOthersGoOn(req, l, rounds[0]);
      RunAnswers(req, Round(req, l, rounds[0]).l, rounds[1..], n - 1);
    }
  }

  // The run stops at the loop before round n.
  ghost predicate StopsAt(req: Request, l: Loop, rounds: seq<Answers>, n: nat) {
    && n <= |rounds| && After(req, l, rounds, n).Some?
    && var m := After(req, l, rounds, n).value;
       UsedUp(req, m) || n == |rounds| || Round(req, m, rounds[n]).Ends?
  }

  lemma {:induction false} RunStops(req: Request, l: Loop, rounds: seq<Answers>) returns (n: nat)
    ensures StopsAt(req, l, rounds, n)
    decreases |rounds|
  {
    hide Round;
    if UsedUp(req, l) || rounds == [] || Round(req, l, rounds[0]).Ends? {
      n := 0;
    } else {
      var rest := RunStops(req, Round(req, l, rounds[0]).l, rounds[1..]);
      n := rest + 1;
    }
  }

  lemma BootstrapHasNoSteps(req: Request, skipPast: bool, bootstrap: SchemaAnswer)
    ensures NothingFinal(Bootstrapped(req, skipPast, bootstrap).steps)
  {
  }

  // Every run stops somewhere, and is answered there: by a clarification when the budget is used up, by
  // a rejection when the time is, and by the response of the round otherwise.
  lemma RunAnswersExactly(req: Request, skipPast: bool, bootstrap: SchemaAnswer, rounds: seq<Answers>)
    returns (n: nat)
    requires CleanSchema(bootstrap) && AllCleanAnswers(rounds)
    ensures var l := Bootstrapped(req, skipPast, bootstrap);
            StopsAt(req, l, rounds, n)
            && AnsweredAt(req, After(req, l, rounds, n).value, rounds, n, Run(req, l, rounds))
  {
    hide Bootstrapped, Agrees, CleanSchema, AnsweredAt, After, Run, CleanAnswers, Round;
    var l := Bootstrapped(req, skipPast, bootstrap);
    BootstrapAgrees(req, skipPast, bootstrap);
    BootstrapHasNoSteps(req, skipPast, bootstrap);
    n := RunStops(req, l, rounds);
    RunAnswers(req, l, rounds, n);
  }

  // Round n takes place and a model it needs fails.
  ghost predicate FailsAt(req: Request, l: Loop, rounds: seq<Answers>, n: nat) {
    && n < |rounds| && After(req, l, rounds, n).Some?
    && var m := After(req, l, rounds, n).value;
       !UsedUp(req, m) && (ModelFails(req, m, rounds[n]) || CodeModelFails(req, m, rounds[n]))
  }

  // All rounds took place and there was need of more.
  ghost predicate OutOfTime(req: Request, l: Loop, rounds: seq<Answers>) {
    After(req, l, rounds, |rounds|).Some? && !UsedUp(req, After(req, l, rounds, |rounds|).value)
  }

  lemma {:induction false} ReachedAgrees(req: Request, l: Loop, rounds: seq<Answers>, n: nat)
    requires n <= |rounds| && AllCleanAnswers(rounds) && After(req, l, rounds, n).Some? && Agrees(l.state)
    ensures Agrees(After(req, l, rounds, n).value.state)
    decreases n
  {
    hide Agrees, Round, Continues, CleanAnswers;
    if n > 0 {
      RoundAgrees(req, l, rounds[0]);
      ReachedAgrees(req, Round(req, l, rounds[0]).l, rounds[1..], n - 1);
    }
  }

  lemma FailureRejects(req: Request, l: Loop, rounds: seq<Answers>, n: nat)
    requires Agrees(l.state) && NothingFinal(l.steps) && AllCleanAnswers(rounds) && FailsAt(req, l, rounds, n)
    ensures Run(req, l, rounds).Rejected?
  {
    hide Agrees, Round, ModelFails, CodeModelFails, After, Run, CleanAnswers, NothingFinal;
    RunAnswers(req, l, rounds, n);
    ReachedAgrees(req, l, rounds, n);
    RoundRejectsExactly(req, After(req, l, rounds, n).value, rounds[n]);
  }

  lemma RejectionNeedsFailure(req: Request, l: Loop, rounds: seq<Answers>)
    requires Agrees(l.state) && NothingFinal(l.steps) && AllCleanAnswers(rounds) && Run(req, l, rounds).Rejected?
    ensures OutOfTime(req, l, rounds) || exists n: nat :: FailsAt(req, l, rounds, n)
  {
    hide Agrees, Round, ModelFails, CodeModelFails, After, Run, CleanAnswers, NothingFinal;
    var n := RunStops(req, l, rounds);
    RunAnswers(req, l, rounds, n);
    if n < |rounds| {
      ReachedAgrees(req, l, rounds, n);
      RoundRejectsExactly(req, After(req, l, rounds, n).value, rounds[n]);
      assert FailsAt(req, l, rounds, n);
    }
  }

  // A run is rejected if and only if it runs out of time, or reaches a round in which a model it needs
  // fails in transport.
  lemma RunRejectsExactly(req: Request, skipPast: bool, bootstrap: SchemaAnswer, rounds: seq<Answers>)
    requires CleanSchema(bootstrap) && AllCleanAnswers(rounds)
    ensures var l := Bootstrapped(req, skipPast, bootstrap);
            Run(req, l, rounds).Rejected? <==>
              OutOfTime(req, l, rounds) || exists n: nat :: FailsAt(req, l, rounds, n)
  {
    hide Agrees, CleanSchema, After, Run, CleanAnswers, Bootstrapped, FailsAt;
    var l := Bootstrapped(req, skipPast, bootstrap);
    BootstrapAgrees(req, skipPast, bootstrap);
    BootstrapHasNoSteps(req, skipPast, bootstrap);
    if Run(req, l, rounds).Rejected? {
      RejectionNeedsFailure(req, l, rounds);
    }
    if OutOfTime(req, l, rounds) {
      RunAnswers(req, l, rounds, |rounds|);
    }
    if n: nat :| FailsAt(req, l, rounds, n) {
      FailureRejects(req, l, rounds, n);
    }
  }
}
