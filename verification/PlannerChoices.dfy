/**
 * What a round plans, on the state's own fields (agent/react_planner.py `_build_available_actions`,
 * agent/react_executor.py `_select_state_driven_action`).
 */
module PlannerChoices {
  import opened Text
  import opened TableNames
  import opened PlannerActions
  import opened PlannerLoop
  import opened PlannerAgreement
  import opened PlannerPlanning

  // The tables the question is about, the focus or else the scope, that have no columns yet.
  function Lacking(s: State): seq<string> {
    Drop(if s.focusTables != [] then s.focusTables else Names(s.tablesInScope), s.columnsRefreshed)
  }

  // Sample queries are worth asking for: several tables, or nothing matched, or errors to mend.
  ghost predicate Ambiguous(req: Request, s: State) {
    && s.score < req.settings.threshold && s.sampleQueries == []
    && (|s.focusTables| > 1 || s.matchedGroups == [] || s.lastErrors != [])
  }

  // The first round looks at past corrections.
  ghost predicate LooksBack(s: State, iteration: nat) {
    iteration == 1 && !s.pastChecked
  }

  // Enough is known to generate at once.
  ghost predicate KnowsEnough(req: Request, s: State) {
    s.score >= req.settings.threshold && s.tablesInScope != []
  }

  // Nothing is decided by rule: the planning model is asked.
  ghost predicate AsksModel(req: Request, s: State, iteration: nat) {
    && !LooksBack(s, iteration) && s.tablesInScope != [] && s.score < req.settings.threshold
    && Lacking(s) == [] && (|s.focusTables| <= 1 || s.joinPaths != [])
  }

  // What an answer of the model comes to: an answer without a readable action is mended unless it is
  // shaped like one, and what is not on offer gives way to samples, if these are, or to generation.
  ghost function ModelPlan(req: Request, s: State, action: Action, input: string, payload: bool): Choice {
    var validate := s.currentSql != "" && s.lastErrors == [];
    var other := if Ambiguous(req, s) then RetrieveSampleQueries else GenerateSql;
    if action == GiveUp && input == UNPARSED && !payload then
      if validate then Choice(other, "Planner output was unparseable; validate the current SQL.")
      else if s.currentSql != "" then
        Choice(GenerateSql, "Planner output was unparseable; regenerate SQL to fix validation errors.")
      else Choice(GenerateSql, "Planner output was unparseable; generate SQL from the retrieved context.")
    else if action == GenerateSql || action == RequestClarification || action == GiveUp
            || (action == RetrieveSampleQueries && Ambiguous(req, s)) then
      Choice(action, input)
    else Choice(other, if input != "" then input else UNAVAILABLE)
  }

  ghost function PlanByFields(req: Request, s: State, iteration: nat, llm: LlmAnswer): Plan {
    if LooksBack(s, iteration) then Planned(Choice(RetrievePastCorrections, req.searchQuery))
    else if KnowsEnough(req, s) then Planned(Choice(GenerateSql, CONFIDENT_INPUT))
    else if s.tablesInScope == [] then
      Planned(Choice(RetrieveSchemaForTables, if req.searchQuery != "" then req.searchQuery else NO_TARGETS))
    else if Lacking(s) != [] then Planned(Choice(RetrieveSchemaForTables, Join(Lacking(s), ", ")))
    else if |s.focusTables| > 1 && s.joinPaths == [] then Planned(Choice(RetrieveJoinPaths, Join(s.focusTables, ", ")))
    else
      match llm
      case LlmFails(code) => NoPlan(code)
      case LlmSays(action, input, payload) => Planned(ModelPlan(req, s, action, input, payload))
  }

  /* ---- the lists behind it ---- */

  lemma LackingIsMissing(s: State)
    requires Agrees(s)
    ensures Lacking(s) == Missing(s)
    ensures NeedsSchema(s) <==> s.tablesInScope == [] || Lacking(s) != []
  {
    hide Agrees, Names, SchemaNames, Wanted, NeedsSchema;
    FocusIsItsNames(s);
    SchemaOfAgreed(s);
    FocusNeedsScope(s);
    NeedsSchemaExactly(s);
    WantedIs(s);
  }

  lemma WantedIs(s: State)
    requires Names(s.focusTables) == s.focusTables
    ensures Wanted(s) == if s.focusTables != [] then s.focusTables else Names(s.tablesInScope)
  {
    hide Names;
  }

  ghost predicate OnOffer(req: Request, s: State, action: Action) {
    match action
    case RetrieveSchemaForTables => s.tablesInScope == [] || Lacking(s) != []
    case RetrieveJoinPaths => |s.focusTables| > 1 && s.joinPaths == []
    case RetrieveSampleQueries => Ambiguous(req, s)
    case GenerateSql => s.tablesInScope != []
    case RequestClarification => true
    case GiveUp => true
    case _ => false
  }

  lemma OfferedOne(req: Request, s: State, iteration: nat, action: Action)
    requires Agrees(s) && !LooksBack(s, iteration) && !KnowsEnough(req, s)
    ensures action in AvailableActions(req, s, iteration) <==> OnOffer(req, s, action)
  {
    hide Agrees, NeedsSchema, Lacking, AvailableActions;
    LackingIsMissing(s);
    FocusNeedsScope(s);
    AvailableExactly(req, s, iteration, action);
  }

  // Exactly when each action is on offer.
  lemma OfferedExactly(req: Request, s: State, iteration: nat)
    requires Agrees(s)
    ensures var offered := AvailableActions(req, s, iteration);
            if LooksBack(s, iteration) then offered == [RetrievePastCorrections]
            else if KnowsEnough(req, s) then offered == [GenerateSql, RequestClarification, GiveUp]
            else forall action: Action :: action in offered <==> OnOffer(req, s, action)
  {
    hide Agrees, AvailableActions, OnOffer;
    OfferedByRule(req, s, iteration);
    if !LooksBack(s, iteration) && !KnowsEnough(req, s) {
      forall action: Action
        ensures action in AvailableActions(req, s, iteration) <==> OnOffer(req, s, action)
      {
        OfferedOne(req, s, iteration, action);
      }
    }
  }

  lemma OfferedByRule(req: Request, s: State, iteration: nat)
    ensures LooksBack(s, iteration) ==> AvailableActions(req, s, iteration) == [RetrievePastCorrections]
    ensures !LooksBack(s, iteration) && KnowsEnough(req, s) ==>
              AvailableActions(req, s, iteration) == [GenerateSql, RequestClarification, GiveUp]
  {
    hide Collected, NeedsSchema;
  }

  // With something in scope, columns for all and joins not needed, the list starts with samples or
  // with generation.
  lemma FirstOffered(req: Request, s: State, iteration: nat)
    requires Agrees(s) && AsksModel(req, s, iteration)
    ensures AvailableActions(req, s, iteration)[0] == if Ambiguous(req, s) then RetrieveSampleQueries else GenerateSql
  {
    hide Agrees, NeedsSchema, Lacking;
    LackingIsMissing(s);
    FocusNeedsScope(s);
  }

  /* ---- the plan ---- */

  // The state rule, where it may retrieve schema and joins exactly when it should.
  lemma DrivenBy(req: Request, s: State, available: seq<Action>)
    requires Names(s.focusTables) == s.focusTables && RetrievePastCorrections !in available
    requires RetrieveSchemaForTables in available <==> s.tablesInScope == [] || Missing(s) != []
    requires RetrieveJoinPaths in available <==> |s.focusTables| > 1 && s.joinPaths == []
    requires Wanted(s) == [] <==> s.tablesInScope == []
    ensures StateDriven(req, s, available) ==
            if s.tablesInScope == [] then
              Some(Choice(RetrieveSchemaForTables, Either(req.searchQuery, NO_TARGETS)))
            else if Missing(s) != [] then
              Some(Choice(RetrieveSchemaForTables, Either(Join(Missing(s), ", "), NO_TARGETS)))
            else if |s.focusTables| > 1 && s.joinPaths == [] then
              Some(Choice(RetrieveJoinPaths, Join(s.focusTables, ", ")))
            else None
  {
    hide Names, SchemaNames, Join;
  }

  lemma RulePlan(req: Request, s: State, iteration: nat)
    requires Agrees(s) && !LooksBack(s, iteration) && !KnowsEnough(req, s)
    ensures var driven := StateDriven(req, s, AvailableActions(req, s, iteration));
            if s.tablesInScope == [] then
              driven == Some(Choice(RetrieveSchemaForTables,
                                    if req.searchQuery != "" then req.searchQuery else NO_TARGETS))
            else if Lacking(s) != [] then driven == Some(Choice(RetrieveSchemaForTables, Join(Lacking(s), ", ")))
            else if |s.focusTables| > 1 && s.joinPaths == [] then
              driven == Some(Choice(RetrieveJoinPaths, Join(s.focusTables, ", ")))
            else driven == None
  {
    hide Agrees, AvailableActions, Join, Lacking, Missing, Wanted, StateDriven, KnowsEnough, LooksBack, Names;
    OfferedOne(req, s, iteration, RetrievePastCorrections);
    OfferedOne(req, s, iteration, RetrieveSchemaForTables);
    OfferedOne(req, s, iteration, RetrieveJoinPaths);
    LackingIsMissing(s);
    FocusIsItsNames(s);
    FocusNeedsScope(s);
    DrivenBy(req, s, AvailableActions(req, s, iteration));
    if Lacking(s) != [] {
      MissingIsCanonical(s);
      JoinedIsNotEmpty(Lacking(s));
    }
  }

  lemma JoinedIsNotEmpty(names: seq<string>)
    requires names != [] && AllCanonical(names)
    ensures Join(names, ", ") != ""
  {
    assert Canonical(names[0]);
    JoinNonEmpty(names, ", ");
  }

  lemma AskedState(req: Request, s: State, iteration: nat)
    requires AsksModel(req, s, iteration)
    ensures !LooksBack(s, iteration) && !KnowsEnough(req, s) && s.tablesInScope != []
    ensures Lacking(s) == [] && !(|s.focusTables| > 1 && s.joinPaths == [])
  {
    hide Lacking;
  }

  lemma OfferedWhenAsked(req: Request, s: State, iteration: nat, action: Action)
    requires Agrees(s) && AsksModel(req, s, iteration)
    ensures action in AvailableActions(req, s, iteration) <==>
            action == GenerateSql || action == RequestClarification || action == GiveUp
            || (action == RetrieveSampleQueries && Ambiguous(req, s))
  {
    hide Agrees, AvailableActions, Ambiguous, Lacking, LooksBack, KnowsEnough, AsksModel;
    AskedState(req, s, iteration);
    OfferedOne(req, s, iteration, action);
  }

  lemma SaidPlan(req: Request, s: State, iteration: nat, action: Action, input: string, payload: bool)
    requires Agrees(s) && AsksModel(req, s, iteration)
    ensures ModelChoice(s, AvailableActions(req, s, iteration), action, input, payload)
            == ModelPlan(req, s, action, input, payload)
  {
    hide Agrees, AvailableActions, Ambiguous, Lacking, AsksModel, LooksBack, KnowsEnough, OnOffer;
    AskedState(req, s, iteration);
    OfferedWhenAsked(req, s, iteration, action);
    OfferedWhenAsked(req, s, iteration, GenerateSql);
    OfferedWhenAsked(req, s, iteration, ValidateAndReturn);
    FirstOffered(req, s, iteration);
  }

  // In every agreeing state, whatever the model answers, a round plans by these rules and no others.
  lemma PlannedExactly(req: Request, s: State, iteration: nat, llm: LlmAnswer)
    requires Agrees(s)
    ensures MakePlan(req, s, iteration, llm) == PlanByFields(req, s, iteration, llm)
  {
    hide Agrees, AvailableActions, StateDriven, ModelChoice, ModelPlan, Lacking, Join;
    var available := AvailableActions(req, s, iteration);
    OfferedByRule(req, s, iteration);
    if LooksBack(s, iteration) {
      RuledOut(req, s, available);
    } else if KnowsEnough(req, s) {
      RuledOut(req, s, available);
    } else {
      RulePlan(req, s, iteration);
      if AsksModel(req, s, iteration) && llm.LlmSays? {
        SaidPlan(req, s, iteration, llm.action, llm.input, llm.payload);
      }
    }
  }

  lemma RuledOut(req: Request, s: State, available: seq<Action>)
    ensures available == [RetrievePastCorrections] ==>
              StateDriven(req, s, available) == Some(Choice(RetrievePastCorrections, req.searchQuery))
    ensures available == [GenerateSql, RequestClarification, GiveUp] ==> StateDriven(req, s, available) == None
  {
    hide Names, SchemaNames, Drop, Join;
  }
}
