/**
 * Planning answers from which no action can be read (agent/react_parser.py, react_planner.py
 * `choose_recovery_action_for_parse_failure`): when they end a run.
 */
module PlannerParsing {
  import opened Text
  import opened TableNames
  import opened PlannerMerges
  import opened PlannerActions
  import opened PlannerLoop
  import opened PlannerAgreement
  import opened PlannerPlanning
  import opened PlannerChoices
  import opened PlannerAccounting

  // The guard of the recovery: the word ACTION, in any case, in front of a colon, an equals sign or
  // a hyphen.
  ghost predicate ShapedLikeAction(answer: string) {
    exists i: nat, j: nat :: ActionAt(answer, i, j)
  }

  ghost predicate ActionAt(answer: string, i: nat, j: nat) {
    && i + 6 <= j < |answer|
    && Lower(answer[i..i + 6]) == "action" && (i > 0 ==> !IsWordChar(answer[i - 1]))
    && (forall k :: i + 6 <= k < j ==> answer[k] in WHITESPACE)
    && answer[j] in {':', '=', '-'}
  }

  // What the parser makes of an answer from which it can read no action.
  ghost function Unparsed(answer: string): LlmAnswer {
    LlmSays(GiveUp, UNPARSED, ShapedLikeAction(answer))
  }

  /* ---- giving up is never remembered while a run goes on ---- */

  ghost predicate NoFinalKeys(s: State) {
    forall k :: k in s.actionsTaken ==> !IsFinal(k.0)
  }

  lemma NarrowedKeepsKeys(req: Request, s: State, c: Choice, a: Answers)
    ensures Narrowed(req, s, c, a).0.actionsTaken == s.actionsTaken
  {
    hide FocusedTables, MustRefocus;
  }

  lemma PerformedKeys(req: Request, s: State, iteration: nat, c: Choice, a: Answers)
    requires NoFinalKeys(s) && !IsFinal(c.action)
    ensures NoFinalKeys(Performed(req, s, iteration, c, a).0)
  {
    hide Execute, Interleave, ActionTarget;
    if InParallel(s, iteration, c.action) {
      InterleaveChecks(req, Gather(s, false, AtEmbedding), a.schedule, a.past, a.schema);
    } else {
      ExecuteCounts(req, s, c.action, c.input, a);
    }
  }

  lemma ValidatedKeepsKeys(s: State, action: Action, warnings: seq<Code>, review: Review)
    ensures Validated(s, action, warnings, review).0.actionsTaken == s.actionsTaken
  {
    hide ReviewWarnings, TablesUsed, BlockingWarnings;
  }

  lemma SettledKeys(s: State, l: Loop, c: Choice, completed: Action, warnings: seq<Code>)
    ensures var end := Settle(s, l, c, completed, warnings);
            end.l.state == s && (end.GoOn? ==> !IsFinal(c.action))
  {
    hide BlockingWarnings, IsTransportFailure, InfoWarnings, IsRetrieval, IsFinal;
  }

  lemma RoundKeepsNoFinalKeys(req: Request, l: Loop, a: Answers)
    requires NoFinalKeys(l.state) && Round(req, l, a).GoOn?
    ensures NoFinalKeys(Round(req, l, a).l.state)
  {
    hide MakePlan, ConfidenceScore, Decided, Narrowed, Performed, Validated, Settle, IsFinal, InParallel,
         CompletedAction;
    var s := Scored(req, l);
    var plan := MakePlan(req, s, l.iteration + 1, a.llm).choice;
    var (narrowed, c) := Narrowed(req, s, Decided(req, s, plan), a);
    var (done, warnings) := Performed(req, narrowed, l.iteration + 1, c, a);
    var (checked, all, validated) := Validated(done, c.action, warnings, a.review);
    NarrowedKeepsKeys(req, s, Decided(req, s, plan), a);
    ValidatedKeepsKeys(done, c.action, warnings, a.review);
    SettledKeys(checked, l, c, CompletedAction(narrowed, l.iteration + 1, c.action, validated), all);
    PerformedKeys(req, narrowed, l.iteration + 1, c, a);
  }

  /* ---- one round ---- */

  lemma MendedPlan(req: Request, s: State, payload: bool)
    ensures var c := ModelPlan(req, s, GiveUp, UNPARSED, payload);
            if payload then c == Choice(GiveUp, UNPARSED)
            else c.action == GenerateSql || c.action == RetrieveSampleQueries
  {
    hide Ambiguous;
  }

  lemma UnparsedPlan(req: Request, s: State, iteration: nat, answer: string)
    requires Agrees(s) && AsksModel(req, s, iteration)
    ensures var plan := MakePlan(req, s, iteration, Unparsed(answer));
            plan.Planned? && plan.choice.action != ValidateAndReturn && s.tablesInScope != []
            && if ShapedLikeAction(answer) then plan.choice == Choice(GiveUp, UNPARSED)
               else !IsFinal(plan.choice.action)
  {
    hide Agrees, Lacking, ShapedLikeAction, MakePlan, ModelPlan, Join;
    PlannedExactly(req, s, iteration, Unparsed(answer));
    MendedPlan(req, s, ShapedLikeAction(answer));
  }

  // The decision, after the memory guard.
  lemma UnparsedDecision(req: Request, s: State, iteration: nat, answer: string)
    requires Agrees(s) && AsksModel(req, s, iteration) && NoFinalKeys(s)
    ensures var plan := MakePlan(req, s, iteration, Unparsed(answer));
            plan.Planned? && if ShapedLikeAction(answer) then Decided(req, s, plan.choice) == Choice(GiveUp, UNPARSED)
                             else !IsFinal(Decided(req, s, plan.choice).action)
  {
    hide Agrees, MakePlan, ShapedLikeAction, AsksModel, GuardReason;
    UnparsedPlan(req, s, iteration, answer);
    var c := MakePlan(req, s, iteration, Unparsed(answer)).choice;
    DecidedCases(req, s, c);
    if c.action == GiveUp {
      NothingBlocksGivingUp(req, s, c);
    }
  }

  lemma NothingBlocksGivingUp(req: Request, s: State, c: Choice)
    requires c.action == GiveUp && NoFinalKeys(s)
    ensures GuardReason(req, s, c) == ""
  {
    hide ActionTarget, ParseCsv, RetrievedNames;
  }

  // The run ends for want of an action, with nothing but the parser's remark for the user.
  ghost predicate GivesUp(end: RoundEnd) {
    end.Ends? && end.response.Clarification? && end.response.reason == UNPARSED
  }

  lemma GivingUpActs(req: Request, l: Loop, s: State, plan: Choice, a: Answers)
    requires Decided(req, s, plan) == Choice(GiveUp, UNPARSED)
    ensures GivesUp(Act(req, l, s, plan, a))
  {
    hide Decided, ActionTarget;
    assert BlockingWarnings([]) == [];
  }

  // The only round that asks for a clarification is one that executes a final action.
  lemma ClarifiesByFinalAction(req: Request, l: Loop, s: State, plan: Choice, a: Answers)
    requires !IsFinal(Decided(req, s, plan).action)
    ensures var end := Act(req, l, s, plan, a); end.Ends? ==> !end.response.Clarification?
  {
    hide Decided, Performed, Validated, FocusedTables, MustRefocus, BlockingWarnings, IsTransportFailure, InfoWarnings,
         IsRetrieval;
  }

  lemma UnparsedRound(req: Request, l: Loop, a: Answers, answer: string)
    requires Agrees(l.state) && NoFinalKeys(l.state) && AsksModel(req, Scored(req, l), l.iteration + 1)
    requires a.llm == Unparsed(answer)
    ensures GivesUp(Round(req, l, a)) <==> ShapedLikeAction(answer)
    ensures Round(req, l, a).Ends? && Round(req, l, a).response.Clarification? ==> ShapedLikeAction(answer)
  {
    hide Agrees, MakePlan, ShapedLikeAction, AsksModel, Decided, Act, ConfidenceScore;
    var s := Scored(req, l);
    AgreesBeside(l.state, s);
    UnparsedDecision(req, s, l.iteration + 1, answer);
    var plan := MakePlan(req, s, l.iteration + 1, a.llm).choice;
    if ShapedLikeAction(answer) {
      GivingUpActs(req, l, s, plan, a);
    } else {
      ClarifiesByFinalAction(req, l, s, plan, a);
    }
  }

  /* ---- whole runs ---- */

  lemma {:induction false} ReachedKeys(req: Request, l: Loop, rounds: seq<Answers>, n: nat)
    requires n <= |rounds| && AllCleanAnswers(rounds) && After(req, l, rounds, n).Some?
    requires Agrees(l.state) && NoFinalKeys(l.state)
    ensures var m := After(req, l, rounds, n).value; Agrees(m.state) && NoFinalKeys(m.state)
    decreases n
  {
    hide Agrees, NoFinalKeys, Round, Continues, CleanAnswers;
    if n > 0 {
      RoundAgrees(req, l, rounds[0]);
      RoundKeepsNoFinalKeys(req, l, rounds[0]);
      ReachedKeys(req, Round(req, l, rounds[0]).l, rounds[1..], n - 1);
    }
  }

  // Wherever a run turns to the planning model, an answer without a readable action makes it give up
  // if and only if the answer is shaped like an action line; otherwise something is executed instead.
  lemma UnparseableAnswersEndTheRunExactly(
    req: Request, skipPast: bool, bootstrap: SchemaAnswer, rounds: seq<Answers>, n: nat, answer: string)
    requires n < |rounds| && CleanSchema(bootstrap) && AllCleanAnswers(rounds)
    requires var reached := After(req, Bootstrapped(req, skipPast, bootstrap), rounds, n);
             reached.Some? && AsksModel(req, Scored(req, reached.value), reached.value.iteration + 1)
    requires rounds[n].llm == Unparsed(answer)
    ensures var l := After(req, Bootstrapped(req, skipPast, bootstrap), rounds, n).value;
            && (GivesUp(Round(req, l, rounds[n])) <==> ShapedLikeAction(answer))
            && (Round(req, l, rounds[n]).Ends? && Round(req, l, rounds[n]).response.Clarification?
                ==> ShapedLikeAction(answer))
  {
    hide Agrees, Round, AsksModel, Bootstrapped, CleanAnswers, CleanSchema, ShapedLikeAction, After, GivesUp,
         NoFinalKeys, ConfidenceScore;
    var start := Bootstrapped(req, skipPast, bootstrap);
    BootstrapAgrees(req, skipPast, bootstrap);
    NothingRemembered(req, skipPast, bootstrap);
    ReachedKeys(req, start, rounds, n);
    UnparsedRound(req, After(req, start, rounds, n).value, rounds[n], answer);
  }

  lemma NothingRemembered(req: Request, skipPast: bool, bootstrap: SchemaAnswer)
    ensures NoFinalKeys(Bootstrapped(req, skipPast, bootstrap).state)
  {
    hide SchemaAction;
    SchemaKeepsCounts(req, InitialState(skipPast), req.searchQuery, bootstrap);
  }

  // An answer from which no action can be read, though it is shaped like one.
  lemma PonderIsShapedLikeAction()
    ensures ShapedLikeAction("ACTION: ponder")
  {
    var answer := "ACTION: ponder";
    assert answer[0..6] == "ACTION";
    forall i | 0 <= i < 6
      ensures Lower("ACTION")[i] == "action"[i]
    {
      LowerAt("ACTION", i);
    }
    assert Lower("ACTION") == "action";
    assert ActionAt(answer, 0, 6);
  }

  /* ---- a run that ends so ---- */

  // One table, found with one column before the loop.
  function OneTable(table: string): SchemaAnswer {
    SchemaAnswer(None, [], [table], "", [], [(table, ["id"])], None, "")
  }

  lemma OneTableColumns(table: string, targets: seq<string>)
    requires Canonical(table)
    ensures CleanSchema(OneTable(table)) && Keys(ParsedColumns(targets, OneTable(table))) == {table}
  {
    hide Canonical, Normalize, MergeColumns;
    var a := OneTable(table);
    CanonicalIsClean(table);
    CanonicalIsItself(table);
    KeysOfMerge([], a.catalogColumns);
    assert a.catalogColumns[..0] == [];
  }

  lemma CanonicalIsItself(table: string)
    requires Canonical(table)
    ensures Normalize(table) == table && table != ""
  {
  }

  lemma OneTableStart(req: Request, table: string)
    requires Canonical(table)
    ensures var s := Bootstrapped(req, true, OneTable(table)).state;
            Agrees(s) && s.pastChecked && s.tablesInScope == [table] && s.columnsRefreshed == {table}
  {
    hide Canonical, FocusSeed, TargetTables, MergeContext, ParsedColumns, Agrees, Keys, MergeColumns, CleanSchema;
    CanonicalIsStripped(table);
    CanonicalIsItself(table);
    StripAllFixes([table]);
    AddItemsToNothing([table]);
    assert [] + [table] == [table];
    var a := OneTable(table);
    var grouped := GroupsSegment(req, EmbedSegment(InitialState(true), a), req.searchQuery, a);
    OneTableColumns(table, TargetTables(req, grouped.tablesInScope, req.searchQuery));
    BootstrapAgrees(req, true, OneTable(table));
  }

  lemma FocusOfOne(s: State, table: string)
    requires Agrees(s) && s.tablesInScope == [table] && Canonical(table)
    ensures Names(s.tablesInScope) == [table] && Names(s.focusTables) == s.focusTables && |s.focusTables| <= 1
  {
    hide Canonical, ColumnsAgree, Tidy, Names;
    CanonicalNamesAreThemselves([table]);
    FocusIsItsNames(s);
    DistinctCopies(s.focusTables, table);
  }

  lemma DistinctCopies(items: seq<string>, item: string)
    requires Tidy(items) && forall x :: x in items ==> x == item
    ensures |items| <= 1
  {
    FirstTwoDiffer(items);
  }

  lemma FirstTwoDiffer(items: seq<string>)
    requires Tidy(items)
    ensures |items| > 1 ==> items[0] != items[1] && items[0] in items && items[1] in items
  {
  }

  // With columns for its one table and too little confidence, a round has to ask.
  lemma OneTableAsks(req: Request, s: State, table: string)
    requires Agrees(s) && s.pastChecked && s.tablesInScope == [table] && Canonical(table)
    requires s.columnsRefreshed == {table} && s.score < req.settings.threshold
    ensures AsksModel(req, s, 1)
  {
    hide Agrees, Canonical, Names;
    FocusOfOne(s, table);
    FocusNeedsScope(s);
    FocusInScope(s);
    assert s.focusTables != [] ==> s.focusTables[0] in s.focusTables;
    assert s.focusTables == [] || s.focusTables == [table];
    assert [table][..0] == [];
    assert Drop([table], {table}) == [];
  }

  lemma FocusInScope(s: State)
    requires Agrees(s)
    ensures forall x :: x in s.focusTables ==> x in Names(s.tablesInScope)
  {
  }

  // A run over one table with known columns, whose first planning answer is `ACTION: ponder`, ends
  // there, although the table could be queried.
  lemma PonderEndsARun(req: Request, table: string, a: Answers)
    requires Canonical(table) && req.settings.maxIterations > 0
    requires ConfidenceScore(req, Bootstrapped(req, true, OneTable(table)).state, 1) < req.settings.threshold
    requires a.llm == Unparsed("ACTION: ponder")
    ensures var response := Run(req, Bootstrapped(req, true, OneTable(table)), [a]);
            response.Clarification? && response.reason == UNPARSED
  {
    hide Agrees, Round, AsksModel, Canonical, ShapedLikeAction, ConfidenceScore, SchemaAction, OneTable;
    var l := Bootstrapped(req, true, OneTable(table));
    OneTableStart(req, table);
    NothingRemembered(req, true, OneTable(table));
    AgreesBeside(l.state, Scored(req, l));
    OneTableAsks(req, Scored(req, l), table);
    PonderIsShapedLikeAction();
    UnparsedRound(req, l, a, "ACTION: ponder");
  }
}
