/**
 * The ReAct loop as it runs (agent/react_executor.py): a planner object that updates the state
 * dictionary, here a record, and the local variables of `run` in place, proved to do what the
 * functions of PlannerActions and PlannerLoop say.
 */
module ReactExecutor {
  import opened Text
  import opened TableNames
  import opened PlannerMerges
  import opened PlannerActions
  import opened PlannerLoop
  import FocusSelection

  class Planner {
    var state: State
    var iteration: nat
    var plannerIterations: nat
    var steps: seq<Step>
    var allWarnings: seq<Code>
    var lastCompleted: Action

    ghost function TheLoop(): Loop
      reads this
    {
      Loop(state, iteration, plannerIterations, steps, allWarnings, lastCompleted)
    }

    constructor (skipPast: bool)
      ensures TheLoop() == Loop(InitialState(skipPast), 0, 0, [], [], GiveUp)
    {
      state := InitialState(skipPast);
      iteration, plannerIterations, steps, allWarnings, lastCompleted := 0, 0, [], [], GiveUp;
    }

    /* ---- execute_action ---- */

    method RetrievePast(a: PastAnswer)
      modifies `state
      ensures state == PastSegment(old(state), a)
    {
      state := state.(pastChecked := true, pastCorrections := a.corrections);
      for i := 0 to |a.corrections|
        invariant state == old(state).(
          pastChecked := true, pastCorrections := a.corrections,
          tablesInScope := ScopeWithCorrections(old(state).tablesInScope, a.corrections[..i]))
      {
        assert a.corrections[..i + 1][..i] == a.corrections[..i];
        var scope := MergeOrderedStrings(state.tablesInScope, Names(a.corrections[i].tables));
        state := state.(tablesInScope := scope);
      }
      assert a.corrections[..|a.corrections|] == a.corrections;
      if a.corrections != [] {
        state := state.(context := MergeContext(state.context, "PAST CORRECTIONS:\n" + a.text));
      }
    }

    method EnsureEmbedding(found: Option<Vector>)
      modifies `state
      ensures state == old(state).(embedding := if old(state).embedding.Some? then old(state).embedding else found)
    {
      if state.embedding.None? {
        state := state.(embedding := found);
      }
    }

    method TakeGroups(req: Request, input: string, a: SchemaAnswer) returns (targets: seq<string>)
      modifies `state
      ensures state == GroupsSegment(req, old(state), input, a)
      ensures targets == TargetTables(req, state.tablesInScope, input)
    {
      hide MergeOrdered, FocusSeed, TargetTables, MergeContext;
      var groups := MergeOrderedStrings(state.matchedGroups, a.groups);
      state := state.(matchedGroups := groups);
      var scope := MergeOrderedStrings(state.tablesInScope, a.tables);
      state := state.(tablesInScope := scope);
      state := state.(context := MergeContext(state.context, a.context));
      targets := TargetTables(req, scope, input);
      var focus := MergeOrderedStrings(state.focusTables, FocusSeed(req, scope, input));
      state := state.(focusTables := focus);
    }

    method TakeColumns(targets: seq<string>, a: SchemaAnswer)
      modifies `state
      ensures state == ColumnsSegment(old(state), targets, a)
    {
      hide MergeColumns, Restrict, MergeContext, Keys, Names;
      var wanted := ToSet(Names(OrElse(targets, a.tables)));
      var parsed := MergeAllowedColumns(Restrict(a.resultColumns, wanted), a.catalogColumns);
      if parsed == [] && targets != [] && a.liveColumns.Some? {
        parsed := MergeAllowedColumns(parsed, a.liveColumns.value);
      }
      var schema := MergeAllowedColumns(state.retrievedSchema, parsed);
      state := state.(retrievedSchema := schema);
      var allowed := MergeAllowedColumns(state.allowedColumns, parsed);
      state := state.(allowedColumns := allowed);
      state := state.(columnsRefreshed := state.columnsRefreshed + Keys(parsed));
      state := state.(retrievedTables := state.retrievedTables + ToSet(OrElse(targets, NormalizeAll(a.tables))));
      if parsed != [] {
        state := state.(context := MergeContext(state.context, "RETRIEVED COLUMNS:\n" + a.columnsText));
      }
    }

    method RetrieveSchema(req: Request, input: string, a: SchemaAnswer)
      modifies `state
      ensures state == SchemaAction(req, old(state), input, a)
    {
      hide GroupsSegment, ColumnsSegment, TargetTables;
      EnsureEmbedding(a.embedding);
      var targets := TakeGroups(req, input, a);
      TakeColumns(targets, a);
    }

    method RetrieveJoins(input: string, a: JoinAnswer)
      modifies `state
      ensures state == JoinAction(old(state), input, a)
    {
      hide MergeContext, Names, ParseCsv;
      var names := Names(OrElse(ParseCsv(input), state.tablesInScope));
      state := state.(joinPaths := if |names| < 2 then [] else a.paths);
      if state.joinPaths != [] {
        state := state.(context := MergeContext(state.context, "JOIN PATHS:\n" + a.text));
      }
    }

    method RetrieveSamples(a: SampleAnswer)
      modifies `state
      ensures state == SampleAction(old(state), a)
    {
      hide MergeContext;
      state := state.(sampleQueries := a.queries);
      if a.queries != [] {
        state := state.(context := MergeContext(state.context, "SAMPLE QUERIES:\n" + a.text));
      }
    }

    method Generate(a: SqlAnswer) returns (warnings: seq<Code>)
      modifies `state
      ensures (state, warnings) == GenerateAction(old(state), a)
    {
      if a.SqlFails? {
        return [a.code];
      }
      state := state.(currentSql := a.sql);
      state := state.(sqlGenerationCount := state.sqlGenerationCount + 1);
      state := state.(lastErrors := []);
      warnings := [];
    }

    method Validate(review: Review) returns (warnings: seq<Code>)
      modifies `state
      ensures (state, warnings) == ValidateAction(old(state), review)
    {
      hide TablesUsed, GenerationTables, BlockingWarnings, InfoWarnings;
      if state.currentSql == "" {
        return [SqlEmpty];
      }
      var found: seq<Code> := review.safety;
      if review.safety == [] {
        var used := TablesUsed(review.found, review.ctes, GenerationTables(state));
        state := state.(tablesUsed := used.0);
        found := (if used.1 then [TableOutOfScope] else []) + review.columns;
        if BlockingWarnings(found) == [] {
          found := found + review.explain;
        } else {
          assert found + [] == found;
        }
      }
      state := state.(lastErrors := BlockingWarnings(found));
      warnings := if state.lastErrors == [] then InfoWarnings(found) else state.lastErrors;
    }

    method ExecuteAction(req: Request, action: Action, input: string, a: Answers) returns (warnings: seq<Code>)
      modifies `state
      ensures (state, warnings) == Execute(req, old(state), action, input, a)
    {
      hide PastSegment, SchemaAction, JoinAction, SampleAction, GenerateAction, ValidateAction;
      warnings := [];
      match action
      case RetrievePastCorrections =>
        RetrievePast(a.past);
      case RetrieveSchemaForTables =>
        RetrieveSchema(req, input, a.schema);
      case RetrieveMoreContext =>
        RetrieveSchema(req, input, a.schema);
      case FetchSchema =>
        RetrieveSchema(req, input, a.schema);
      case RetrieveJoinPaths =>
        RetrieveJoins(input, a.joins);
      case RetrieveSampleQueries =>
        RetrieveSamples(a.samples);
      case GenerateSql =>
        warnings := Generate(a.sql);
      case ValidateAndReturn =>
        warnings := Validate(a.review);
      case _ =>
    }

    /* ---- the concurrent first round ---- */

    // One resumption of the schema coroutine, up to its next await.
    method StepSchema(req: Request, at: SchemaPoint, a: SchemaAnswer, ghost pastDone: bool) returns (next: SchemaPoint)
      modifies `state
      ensures Gather(state, pastDone, next) == ResumeSchema(req, Gather(old(state), pastDone, at), a)
    {
      hide GroupsSegment, ColumnsSegment, TargetTables;
      match at
      case AtEmbedding =>
        EnsureEmbedding(a.embedding);
        next := AtGroups;
      case AtGroups =>
        var targets := TakeGroups(req, "", a);
        next := AtColumns(targets);
      case AtColumns(targets) =>
        TakeColumns(targets, a);
        next := Over;
      case Over =>
        next := Over;
    }

    method GatherFirstRound(req: Request, a: Answers)
      modifies `state
      ensures state == FirstRound(req, old(state), a)
    {
      hide PastSegment, ResumeSchema;
      var pastDone := false;
      var at := AtEmbedding;
      for i := 0 to |a.schedule|
        invariant Interleave(req, Gather(state, pastDone, at), a.schedule[i..], a.past, a.schema)
                  == Interleave(req, Gather(old(state), false, AtEmbedding), a.schedule, a.past, a.schema)
      {
        assert a.schedule[i..][1..] == a.schedule[i + 1..];
        if a.schedule[i] {
          if !pastDone {
            RetrievePast(a.past);
            pastDone := true;
          }
        } else {
          at := StepSchema(req, at, a.schema, pastDone);
        }
      }
      at := StepSchema(req, at, a.schema, pastDone);
      at := StepSchema(req, at, a.schema, pastDone);
      at := StepSchema(req, at, a.schema, pastDone);
      if !pastDone {
        RetrievePast(a.past);
      }
    }

    /* ---- one round of run ---- */

    method ChooseAction(req: Request, llm: LlmAnswer) returns (plan: Plan)
      ensures plan == MakePlan(req, state, iteration, llm)
    {
      hide AvailableActions, StateDriven, ModelChoice;
      var available := BuildAvailableActions(req, state, iteration);
      var driven := StateDriven(req, state, available);
      if driven.Some? {
        return Planned(driven.value);
      }
      if state.score >= req.settings.threshold && state.tablesInScope != [] {
        return Planned(Choice(GenerateSql, CONFIDENT_INPUT));
      }
      match llm
      case LlmFails(code) =>
        plan := NoPlan(code);
      case LlmSays(action, input, payload) =>
        plan := Planned(ModelChoice(state, available, action, input, payload));
    }

    method FocusGeneration(req: Request, choice: Choice, a: Answers) returns (c: Choice)
      modifies `state
      ensures (state, c) == Narrowed(req, old(state), choice, a)
    {
      hide Names, FocusSelection.Focus;
      c := choice;
      if choice.action != GenerateSql {
        state := state.(generationTables := []);
        return;
      }
      var before := Names(state.tablesInScope);
      EnsureEmbedding(a.embedding);
      var focused := before;
      if state.embedding.Some? && before != [] {
        focused := FocusSelection.FocusedTables(before, HitsOf(a.hits), req.settings.maxTables);
      } else if before != [] {
        focused := FocusSelection.FirstOf(before, req.settings.maxTables);
      }
      state := state.(generationTables := focused);
      if |before| > req.settings.maxTables && state.columnsRefreshed == {} && focused != [] {
        c := Choice(RetrieveSchemaForTables, Join(focused, ","));
      }
    }

    // Executes the choice and remembers it.
    method Perform(req: Request, c: Choice, a: Answers) returns (warnings: seq<Code>, parallel: bool)
      modifies `state
      ensures (state, warnings) == Performed(req, old(state), iteration, c, a)
      ensures parallel == InParallel(old(state), iteration, c.action)
    {
      hide Execute, FirstRound, ActionTarget;
      parallel := iteration == 1 && c.action == RetrievePastCorrections && !state.pastChecked;
      if parallel {
        GatherFirstRound(req, a);
        warnings := [];
        state := state.(actionsTaken := state.actionsTaken
          + [(RetrievePastCorrections, ActionTarget(req, RetrievePastCorrections, c.input, state)),
             (RetrieveSchemaForTables, ActionTarget(req, RetrieveSchemaForTables, "", state))]);
      } else {
        warnings := ExecuteAction(req, c.action, c.input, a);
        state := state.(actionsTaken := state.actionsTaken + [(c.action, ActionTarget(req, c.action, c.input, state))]);
      }
    }

    method AutoValidate(action: Action, found: seq<Code>, review: Review) returns (warnings: seq<Code>, validated: bool)
      modifies `state
      ensures (state, warnings, validated) == Validated(old(state), action, found, review)
    {
      hide ValidateAction, BlockingWarnings;
      warnings, validated := found, false;
      if action == GenerateSql && BlockingWarnings(found) == [] {
        var more := Validate(review);
        warnings, validated := warnings + more, true;
      }
    }

    // The end of a round: count, record, and answer or go on. `before` is the loop before the round.
    method Conclude(c: Choice, completed: Action, warnings: seq<Code>, ghost before: Loop)
      returns (answer: Option<Response>)
      requires iteration == before.iteration + 1 && plannerIterations == before.planner
      requires steps == before.steps && allWarnings == before.warnings
      modifies this
      ensures var end := Settle(old(state), before, c, completed, warnings);
              if answer.Some? then end.Ends? && end.response == answer.value else end == GoOn(TheLoop())
    {
      hide BlockingWarnings, InfoWarnings, IsTransportFailure, IsRetrieval, IsFinal;
      steps := steps + [Step(iteration, c.action, c.input)];
      lastCompleted := completed;
      if !IsRetrieval(c.action) {
        plannerIterations := plannerIterations + 1;
      }
      if IsTransportFailure(warnings) {
        return Some(Rejected(allWarnings + warnings, MaxInt(1, plannerIterations), Trace(steps, iteration, completed)));
      }
      if IsFinal(c.action) {
        return Some(Clarification(Either(c.input, "Could not generate valid SQL"), allWarnings,
                                  Trace(steps, iteration, c.action)));
      }
      if BlockingWarnings(warnings) != [] {
        allWarnings := allWarnings + warnings;
      }
      if completed == ValidateAndReturn && BlockingWarnings(warnings) == [] {
        return Some(Success(state.currentSql, InfoWarnings(warnings), state.tablesUsed, state.matchedGroups,
                            MaxInt(1, state.sqlGenerationCount), Trace(steps, iteration, completed)));
      }
      answer := None;
    }

    method PlayRound(req: Request, a: Answers) returns (answer: Option<Response>)
      modifies this
      ensures var end := Round(req, old(TheLoop()), a);
              if answer.Some? then end.Ends? && end.response == answer.value else end == GoOn(TheLoop())
    {
      hide MakePlan, ConfidenceScore, Performed, Validated, Settle, Decided, Narrowed;
      ghost var before := TheLoop();
      iteration := iteration + 1;
      state := state.(score := ConfidenceScore(req, state, MaxInt(1, plannerIterations + 1)));
      var plan := ChooseAction(req, a.llm);
      if plan.NoPlan? {
        return Some(Rejected(allWarnings + [plan.code], |steps|,
                             Trace(steps, |steps|, if steps == [] then GiveUp else lastCompleted)));
      }
      var choice := Decided(req, state, plan.choice);
      var c := FocusGeneration(req, choice, a);
      var found, parallel := Perform(req, c, a);
      var warnings, validated := AutoValidate(c.action, found, a.review);
      var completed := if parallel then RetrieveSchemaForTables
                       else if validated then ValidateAndReturn
                       else c.action;
      answer := Conclude(c, completed, warnings, before);
    }
  }

  /* ---- run ---- */

  // A whole run: `rounds` answers the rounds that start before the deadline.
  method RunLoop(req: Request, skipPast: bool, bootstrap: SchemaAnswer, rounds: seq<Answers>)
    returns (response: Response)
    ensures response == Run(req, Bootstrapped(req, skipPast, bootstrap), rounds)
  {
    hide SchemaAction, Round;
    var planner := new Planner(skipPast);
    planner.RetrieveSchema(req, req.searchQuery, bootstrap);
    ghost var start := planner.TheLoop();
    var started := 0;
    while planner.plannerIterations < req.settings.maxIterations || !planner.state.pastChecked
      invariant started <= |rounds|
      invariant Run(req, planner.TheLoop(), rounds[started..]) == Run(req, start, rounds)
      decreases |rounds| - started
    {
      if started == |rounds| {
        return Rejected(planner.allWarnings + [RequestTimeout], planner.plannerIterations,
                        Trace(planner.steps, |planner.steps|,
                              if planner.steps == [] then GiveUp else planner.lastCompleted));
      }
      assert rounds[started..][0] == rounds[started] && rounds[started..][1..] == rounds[started + 1..];
      var answer := planner.PlayRound(req, rounds[started]);
      if answer.Some? {
        return answer.value;
      }
      started := started + 1;
    }
    var warnings := planner.allWarnings;
    if planner.steps == [] || !IsFinal(planner.steps[|planner.steps| - 1].action) {
      warnings := warnings + [MaxRetriesExceeded];
    }
    response := Clarification("", warnings, Trace(planner.steps, |planner.steps|,
                                                  if planner.steps == [] then GiveUp else planner.lastCompleted));
  }
}
