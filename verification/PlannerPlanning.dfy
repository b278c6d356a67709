/** What a round can plan (agent/react_executor.py, react_planner.py), whatever the planning model answers. */
module PlannerPlanning {
  import opened Sets
  import opened Text
  import opened TableNames
  import opened PlannerMerges
  import opened PlannerActions
  import opened PlannerLoop
  import opened PlannerAgreement

  lemma AvailableExactly(req: Request, s: State, iteration: nat, action: Action)
    ensures action in AvailableActions(req, s, iteration) <==>
            if iteration == 1 && !s.pastChecked then action == RetrievePastCorrections
            else
              || action == RequestClarification || action == GiveUp
              || (action == GenerateSql && (Confident(req, s) || OrElse(s.focusTables, s.tablesInScope) != []))
              || (action == RetrieveSchemaForTables && !Confident(req, s) && NeedsSchema(s))
              || (action == RetrieveJoinPaths && !Confident(req, s) && NeedsJoins(s))
              || (action == RetrieveSampleQueries && !Confident(req, s) && NeedsSamples(req, s))
  {
    hide NeedsSchema, NeedsJoins, NeedsSamples, Confident, OrElse;
  }

  /* ---- the two ways the source computes uncovered tables agree ---- */

  // The tables that matter, as the state rule reads them, and those without columns.
  function Wanted(s: State): seq<string> {
    OrElse(Names(s.focusTables), Names(s.tablesInScope))
  }

  function Missing(s: State): seq<string> {
    Drop(Wanted(s), SchemaNames(s))
  }

  lemma {:induction false} UncoveredExactly(s: State, tables: seq<string>)
    ensures Uncovered(s, tables) == [] <==> forall i :: 0 <= i < |tables| ==> Normalize(tables[i]) in SchemaKeys(s)
  {
    hide SchemaKeys, Normalize;
    if tables != [] {
      UncoveredExactly(s, tables[..|tables| - 1]);
    }
  }

  lemma CanonicalSchemaNames(s: State)
    requires CanonicalKeys(s.retrievedSchema)
    ensures SchemaNames(s) == SchemaKeys(s) == Keys(s.retrievedSchema)
  {
    hide Normalize, Strip, Keys;
    forall k | k in Keys(s.retrievedSchema)
      ensures Strip(k) != "" && Normalize(k) == k
    {
      CanonicalIsClean(k);
      CleanIsNotBlank(k);
    }
    assert forall k :: k in Keys(s.retrievedSchema) ==> Normalize(k) in SchemaNames(s) && Normalize(k) in SchemaKeys(s);
  }

  lemma WantedOf(s: State)
    requires Agrees(s)
    ensures Wanted(s) == NormalizeAll(OrElse(s.focusTables, s.tablesInScope))
    ensures AllCanonical(Wanted(s)) && forall x :: x in Wanted(s) ==> x in Names(s.tablesInScope)
  {
    hide Normalize, Canonical, Stored, ColumnsAgree;
    NamesOfClean(s.tablesInScope);
    CanonicalAreClean(s.focusTables);
    NamesOfClean(s.focusTables);
    CanonicalNamesAreThemselves(s.focusTables);
  }

  lemma NeedsSchemaExactly(s: State)
    requires Agrees(s)
    ensures NeedsSchema(s) <==> Wanted(s) == [] || Missing(s) != []
  {
    hide Agrees, Wanted, SchemaNames, SchemaKeys, Normalize, OrElse;
    var tables := OrElse(s.focusTables, s.tablesInScope);
    WantedOf(s);
    UncoveredExactly(s, tables);
    SchemaOfAgreed(s);
    forall i | 0 <= i < |tables|
      ensures Wanted(s)[i] == Normalize(tables[i])
    {
      NormalizeAllAt(tables, i);
    }
    if Uncovered(s, tables) != [] {
      var i :| 0 <= i < |tables| && Normalize(tables[i]) !in SchemaKeys(s);
      assert Wanted(s)[i] in Missing(s);
    }
    if Missing(s) != [] {
      assert Missing(s)[0] in Missing(s);
      var i :| 0 <= i < |Wanted(s)| && Wanted(s)[i] == Missing(s)[0];
      assert Normalize(tables[i]) !in SchemaKeys(s);
    }
  }

  lemma SchemaOfAgreed(s: State)
    requires Agrees(s)
    ensures SchemaNames(s) == SchemaKeys(s) == s.columnsRefreshed
  {
    CanonicalSchemaNames(s);
  }

  lemma FocusNeedsScope(s: State)
    requires Agrees(s)
    ensures OrElse(s.focusTables, s.tablesInScope) != [] <==> s.tablesInScope != []
    ensures Wanted(s) != [] <==> s.tablesInScope != []
  {
    hide Stored, ColumnsAgree, Canonical;
    NamesOfClean(s.tablesInScope);
    WantedOf(s);
    if s.focusTables != [] {
      assert s.focusTables[0] in Names(s.tablesInScope);
    }
  }

  /* ---- the plans ---- */

  // The texts the planner may put in place of the model's input.
  const OWN_INPUTS: seq<string> := [
    UNAVAILABLE,
    "Planner output was unparseable; regenerate SQL to fix validation errors.",
    "Planner output was unparseable; validate the current SQL.",
    "Planner output was unparseable; retrieve more schema context.",
    "Planner output was unparseable; generate SQL from the retrieved context."]

  ghost predicate PlansCorrections(req: Request, s: State, iteration: nat, c: Choice) {
    iteration == 1 && !s.pastChecked && c == Choice(RetrievePastCorrections, req.searchQuery)
  }

  ghost predicate PlansSchema(req: Request, s: State, c: Choice) {
    && c.action == RetrieveSchemaForTables
    && if s.tablesInScope == [] then c.input == Either(req.searchQuery, NO_TARGETS)
       else Missing(s) != [] && c.input == Join(Missing(s), ", ")
  }

  ghost predicate PlansSamples(s: State, llm: LlmAnswer, c: Choice) {
    c.action == RetrieveSampleQueries && llm.LlmSays? && (c.input == llm.input || c.input in OWN_INPUTS)
  }

  // Everything a round can plan: a schema retrieval only for tables that lack columns, generation
  // only with tables in scope, and never a bare validation.
  ghost predicate Sensible(req: Request, s: State, iteration: nat, llm: LlmAnswer, c: Choice) {
    if iteration == 1 && !s.pastChecked then PlansCorrections(req, s, iteration, c)
    else
      || PlansSchema(req, s, c)
      || (c.action == RetrieveJoinPaths && NeedsJoins(s))
      || PlansSamples(s, llm, c)
      || (c.action == GenerateSql && s.tablesInScope != [])
      || c.action == RequestClarification
      || c.action == GiveUp
  }

  lemma StateDrivenIsSensible(req: Request, s: State, iteration: nat, llm: LlmAnswer, available: seq<Action>)
    requires Agrees(s) && available == AvailableActions(req, s, iteration)
    requires StateDriven(req, s, available).Some?
    ensures Sensible(req, s, iteration, llm, StateDriven(req, s, available).value)
  {
    hide Agrees, AvailableActions, SchemaNames, NeedsSchema, Confident, NeedsSamples, Join, Names;
    AvailableExactly(req, s, iteration, RetrievePastCorrections);
    AvailableExactly(req, s, iteration, RequestClarification);
    AvailableExactly(req, s, iteration, RetrieveJoinPaths);
    assert [RetrievePastCorrections][0] == RetrievePastCorrections;
    FocusNeedsScope(s);
    WantedOf(s);
    if Missing(s) != [] {
      MissingIsCanonical(s);
      JoinOfCanonical(Missing(s), ", ");
    }
    if iteration == 1 && !s.pastChecked {
      OnlyCorrections(req, s, iteration);
    }
  }

  lemma OnlyCorrections(req: Request, s: State, iteration: nat)
    requires iteration == 1 && !s.pastChecked
    ensures AvailableActions(req, s, iteration) == [RetrievePastCorrections]
  {
  }

  lemma MissingIsCanonical(s: State)
    requires Agrees(s)
    ensures AllCanonical(Missing(s)) && forall x :: x in Missing(s) <==> x in Wanted(s) && x !in s.columnsRefreshed
  {
    hide Agrees, Wanted, SchemaNames, Canonical;
    WantedOf(s);
    SchemaOfAgreed(s);
    forall i | 0 <= i < |Missing(s)|
      ensures Canonical(Missing(s)[i])
    {
      assert Missing(s)[i] in Wanted(s);
      var j :| 0 <= j < |Wanted(s)| && Wanted(s)[j] == Missing(s)[i];
    }
  }

  // When the rules do not decide, neither schema retrieval nor join retrieval is on offer.
  lemma ModelHasNoRetrievals(req: Request, s: State, iteration: nat)
    requires Agrees(s) && StateDriven(req, s, AvailableActions(req, s, iteration)).None?
    ensures RetrieveSchemaForTables !in AvailableActions(req, s, iteration)
    ensures RetrieveJoinPaths !in AvailableActions(req, s, iteration)
    ensures !(iteration == 1 && !s.pastChecked)
  {
    hide Agrees, AvailableActions, SchemaNames, NeedsSchema, Confident, NeedsSamples, Join, Names;
    AvailableExactly(req, s, iteration, RetrieveSchemaForTables);
    AvailableExactly(req, s, iteration, RetrieveJoinPaths);
    NeedsSchemaExactly(s);
    FocusIsItsNames(s);
    if iteration == 1 && !s.pastChecked {
      OnlyCorrections(req, s, iteration);
    }
  }

  lemma FocusIsItsNames(s: State)
    requires Agrees(s)
    ensures Names(s.focusTables) == s.focusTables
  {
    CanonicalNamesAreThemselves(s.focusTables);
  }

  lemma ModelChoiceIsOffered(s: State, available: seq<Action>, action: Action, input: string, payload: bool)
    requires available != []
    ensures var c := ModelChoice(s, available, action, input, payload);
            c.action in available && (c.input == input || c.input in OWN_INPUTS)
  {
    assert OWN_INPUTS[0] in OWN_INPUTS && OWN_INPUTS[1] in OWN_INPUTS && OWN_INPUTS[2] in OWN_INPUTS
           && OWN_INPUTS[3] in OWN_INPUTS && OWN_INPUTS[4] in OWN_INPUTS;
  }

  lemma PlansAreSensible(req: Request, s: State, iteration: nat, llm: LlmAnswer)
    requires Agrees(s) && MakePlan(req, s, iteration, llm).Planned?
    ensures Sensible(req, s, iteration, llm, MakePlan(req, s, iteration, llm).choice)
  {
    hide Agrees, AvailableActions, StateDriven, ModelChoice, NeedsSchema, NeedsSamples, OrElse, PlansSchema;
    var available := AvailableActions(req, s, iteration);
    if StateDriven(req, s, available).Some? {
      StateDrivenIsSensible(req, s, iteration, llm, available);
    } else {
      ModelHasNoRetrievals(req, s, iteration);
      if !Confident(req, s) && llm.LlmSays? {
        var c := ModelChoice(s, available, llm.action, llm.input, llm.payload);
        ModelChoiceIsOffered(s, available, llm.action, llm.input, llm.payload);
        AvailableExactly(req, s, iteration, c.action);
        FocusNeedsScope(s);
      }
    }
  }

  // In round one, corrections are retrieved unless they are switched off, whatever the state.
  lemma FirstPlan(req: Request, s: State, llm: LlmAnswer)
    requires !s.pastChecked
    ensures MakePlan(req, s, 1, llm) == Planned(Choice(RetrievePastCorrections, req.searchQuery))
  {
    OnlyCorrections(req, s, 1);
  }

  /* ---- after the guard ---- */

  // The guard and the redirect leave a sensible plan alone or turn it into generation or a question.
  lemma DecidedCases(req: Request, s: State, c: Choice)
    requires c.action != ValidateAndReturn
    ensures var d := Decided(req, s, c);
            if GuardReason(req, s, c) == "" then d == c
            else d.action == if s.tablesInScope != [] then GenerateSql else RequestClarification
  {
    hide GuardReason;
  }

  lemma GuardedKeyIsNew(req: Request, s: State, c: Choice)
    requires GuardReason(req, s, c) == ""
    ensures (c.action, ActionTarget(req, c.action, c.input, s)) !in s.actionsTaken
  {
    hide ActionTarget, ParseCsv, ToSet, RetrievedNames;
  }

  /* ---- the confidence score ---- */

  ghost predicate FairWeights(settings: Settings) {
    && settings.tablesWeight >= 0.0 && settings.joinWeight >= 0.0 && settings.groupWeight >= 0.0
    && settings.exampleWeight >= 0.0 && settings.iterationPenalty >= 0.0
  }

  // The second state knows at least as much about the same tables.
  ghost predicate KnowsMore(s: State, t: State) {
    && s.focusTables == t.focusTables && s.tablesInScope == t.tablesInScope
    && Keys(s.retrievedSchema) <= Keys(t.retrievedSchema)
    && |s.joinPaths| <= |t.joinPaths| && |s.matchedGroups| <= |t.matchedGroups|
    && (s.sampleQueries != [] ==> t.sampleQueries != []) && (s.pastCorrections != [] ==> t.pastCorrections != [])
  }

  lemma ProductGrows(x: real, y: real, w: real)
    requires x <= y && w >= 0.0
    ensures x * w <= y * w
  {
    assert (y - x) * w >= 0.0;
  }

  lemma RatioGrows(a: nat, b: nat, n: nat)
    requires a <= b && n > 0
    ensures Ratio(a, n) <= Ratio(b, n)
  {
    ProductGrows(a as real, b as real, 1.0 / n as real);
    assert Ratio(a, n) == a as real * (1.0 / n as real) && Ratio(b, n) == b as real * (1.0 / n as real);
  }

  lemma SharesGrow(req: Request, s: State, t: State)
    requires KnowsMore(s, t)
    ensures Coverage(s, ScoredTables(s)) <= Coverage(t, ScoredTables(t))
    ensures JoinShare(s, ScoredTables(s)) <= JoinShare(t, ScoredTables(t))
    ensures GroupShare(req, s) <= GroupShare(req, t) && ExampleShare(s) <= ExampleShare(t)
  {
    hide Names, SchemaNames, GroupBudget, Ratio, Keys;
    var tables := ScoredTables(s);
    SchemaNamesGrow(s, t);
    SubsetSize(tables * SchemaNames(s), tables * SchemaNames(t));
    if tables != {} {
      RatioGrows(|tables * SchemaNames(s)|, |tables * SchemaNames(t)|, |tables|);
    }
    if |tables| > 1 {
      RatioGrows(|s.joinPaths|, |t.joinPaths|, |tables| - 1);
    }
    RatioGrows(|s.matchedGroups|, |t.matchedGroups|, MaxInt(1, GroupBudget(req)));
    RatioIsPositive(|t.matchedGroups|, MaxInt(1, GroupBudget(req)));
  }

  lemma RatioIsPositive(a: nat, n: nat)
    requires n > 0
    ensures Ratio(a, n) >= 0.0
  {
  }

  lemma SchemaNamesGrow(s: State, t: State)
    requires Keys(s.retrievedSchema) <= Keys(t.retrievedSchema)
    ensures SchemaNames(s) <= SchemaNames(t)
  {
    hide Normalize, Strip;
  }

  lemma WeightedGrows(x: real, y: real, w: real)
    requires x <= y && w >= 0.0
    ensures Weighted(x, w) <= Weighted(y, w)
  {
    ProductGrows(x, y, w);
  }

  lemma PenaltyGrows(settings: Settings, m: int, n: int)
    requires FairWeights(settings) && m >= n
    ensures Penalty(settings, n) <= Penalty(settings, m)
  {
    ProductGrows(MaxInt(0, n - 1) as real, MaxInt(0, m - 1) as real, settings.iterationPenalty);
  }

  lemma ClampGrows(x: real, y: real)
    requires x <= y
    ensures Clamp(x) <= Clamp(y)
  {
  }

  // With weights that are not negative, knowing more never lowers the score and a later round never
  // raises it.
  lemma ConfidenceIsMonotone(req: Request, s: State, t: State, later: int, earlier: int)
    requires FairWeights(req.settings) && KnowsMore(s, t) && earlier <= later
    ensures ConfidenceScore(req, s, later) <= ConfidenceScore(req, t, earlier)
  {
    hide Coverage, JoinShare, GroupShare, ExampleShare, KnowsMore, ScoredTables, Penalty, Clamp, Weighted;
    var settings := req.settings;
    SharesGrow(req, s, t);
    WeightedGrows(Coverage(s, ScoredTables(s)), Coverage(t, ScoredTables(t)), settings.tablesWeight);
    WeightedGrows(JoinShare(s, ScoredTables(s)), JoinShare(t, ScoredTables(t)), settings.joinWeight);
    WeightedGrows(GroupShare(req, s), GroupShare(req, t), settings.groupWeight);
    WeightedGrows(ExampleShare(s), ExampleShare(t), settings.exampleWeight);
    PenaltyGrows(settings, later, earlier);
    ClampGrows(RawScore(req, s) - Penalty(settings, later), RawScore(req, t) - Penalty(settings, earlier));
  }
}
