/**
 * What each action does to the state's fields (agent/react_executor.py `execute_action`): which tables a
 * schema retrieval is about, where columns come from, and what the other actions set. And what the
 * confidence score weighs.
 */
module PlannerTargets {
  import opened TableNames
  import opened PlannerMerges
  import opened PlannerActions
  import opened PlannerLoop

  /* ---- the tables a schema retrieval is about ---- */

  // The item's first place in the list.
  ghost predicate FirstAt(items: seq<string>, x: string, i: nat) {
    i < |items| && items[i] == x && forall j :: 0 <= j < i ==> items[j] != x
  }

  // Each once, in the order in which they first come up in the list.
  ghost predicate OnceInOrderOf(some: seq<string>, items: seq<string>) {
    && (forall a, b :: 0 <= a < b < |some| ==> some[a] != some[b])
    && (forall a, b, i: nat, j: nat :: 0 <= a < b < |some| && FirstAt(items, some[a], i) && FirstAt(items, some[b], j)
          ==> i < j)
  }

  // Tables of the scope that the search query names.
  ghost predicate IsMentioned(req: Request, scope: seq<string>, x: string) {
    x in KnownTables(scope) && x in req.mentioned
  }

  lemma {:induction false} MentionedAre(req: Request, known: seq<string>)
    ensures forall x :: x in MentionedIn(req, known) <==> x in known && x in req.mentioned
  {
    if known != [] {
      MentionedAre(req, known[..|known| - 1]);
      assert forall x :: x in known <==> x in known[..|known| - 1] || x == known[|known| - 1];
    }
  }

  lemma FirstOfPrefix(items: seq<string>, x: string, i: nat)
    requires items != []
    ensures var init := items[..|items| - 1];
            FirstAt(items, x, i) <==> FirstAt(init, x, i) || (i == |init| && x == items[|init|] && x !in init)
  {
    var init := items[..|items| - 1];
    assert forall j :: 0 <= j < |init| ==> init[j] == items[j];
  }

  lemma {:induction false} KeptOnce(items: seq<string>, wanted: seq<string>)
    requires "" !in items
    ensures var r := AddItems([], Keep(items, wanted));
            OnceInOrderOf(r, items) && forall x :: x in r <==> x in items && x in wanted
  {
    hide OnceInOrderOf, AddItems, Keep;
    if items == [] {
      NothingOnce(wanted);
    } else {
      var init, last := items[..|items| - 1], items[|items| - 1];
      KeptOnce(init, wanted);
      var before := AddItems([], Keep(init, wanted));
      KeepLast(init, last, wanted);
      if last in wanted && last !in before {
        Appended(before, init, last);
      } else {
        Unchanged(before, init, last);
      }
      assert init + [last] == items;
    }
  }

  lemma NothingOnce(wanted: seq<string>)
    ensures var r := AddItems([], Keep([], wanted)); r == [] && OnceInOrderOf(r, [])
  {
  }

  lemma KeepLast(init: seq<string>, last: string, wanted: seq<string>)
    requires last != ""
    ensures var before := AddItems([], Keep(init, wanted));
            AddItems([], Keep(init + [last], wanted)) ==
            if last in wanted && last !in before then before + [last] else before
  {
    assert (init + [last])[..|init|] == init;
    if last in wanted {
      AddItemsSnoc([], Keep(init, wanted), last);
    } else {
      assert Keep(init, wanted) + [] == Keep(init, wanted);
    }
  }

  lemma Appended(some: seq<string>, init: seq<string>, last: string)
    requires OnceInOrderOf(some, init) && last !in some && last !in init && forall x :: x in some ==> x in init
    ensures OnceInOrderOf(some + [last], init + [last])
  {
    var more, items := some + [last], init + [last];
    assert items[..|items| - 1] == init;
    forall a, b, i: nat, j: nat | 0 <= a < b < |more| && FirstAt(items, more[a], i) && FirstAt(items, more[b], j)
      ensures i < j
    {
      FirstOfPrefix(items, more[a], i);
      FirstOfPrefix(items, more[b], j);
      assert more[a] in some;
    }
  }

  lemma Unchanged(some: seq<string>, init: seq<string>, last: string)
    requires OnceInOrderOf(some, init) && forall x :: x in some ==> x in init
    ensures OnceInOrderOf(some, init + [last])
  {
    var items := init + [last];
    assert items[..|items| - 1] == init;
    forall a, b, i: nat, j: nat | 0 <= a < b < |some| && FirstAt(items, some[a], i) && FirstAt(items, some[b], j)
      ensures i < j
    {
      FirstOfPrefix(items, some[a], i);
      FirstOfPrefix(items, some[b], j);
      assert some[a] in some && some[b] in some;
    }
  }

  // The inferred targets are the first two tables of the scope, each once, that the search query names;
  // fewer only if it names no more.
  lemma InferredExactly(req: Request, scope: seq<string>)
    ensures var r := InferredTargets(req, scope);
            && |r| <= 2 && OnceInOrderOf(r, KnownTables(scope))
            && (forall x :: x in r ==> IsMentioned(req, scope, x))
            && (forall x :: IsMentioned(req, scope, x) && x !in r ==>
                  |r| == 2 && forall i: nat, j: nat, y ::
                    y in r && FirstAt(KnownTables(scope), y, i) && FirstAt(KnownTables(scope), x, j) ==> i < j)
  {
    hide KnownTables, MentionedIn, Keep, FirstAt;
    var known := KnownTables(scope);
    NoEmptyNames(scope);
    MentionedAre(req, known);
    KeptOnce(known, MentionedIn(req, known));
    var all := AddItems([], Keep(known, MentionedIn(req, known)));
    var r := InferredTargets(req, scope);
    assert r == if |all| <= 2 then all else all[..2];
    forall x | IsMentioned(req, scope, x) && x !in r
      ensures |r| == 2 && forall i: nat, j: nat, y ::
                y in r && FirstAt(known, y, i) && FirstAt(known, x, j) ==> i < j
    {
      assert x in all;
      var k :| 0 <= k < |all| && all[k] == x;
      assert k >= |r|;
      assert forall a :: 0 <= a < |r| ==> r[a] == all[a];
    }
  }

  lemma NoEmptyNames(scope: seq<string>)
    ensures "" !in KnownTables(scope)
  {
  }

  // Columns are looked up for the tables the input names, else for those inferred, else for the whole
  // scope; the focus grows by the same, but by the whole scope only if that is a single table.
  lemma TargetsExactly(req: Request, scope: seq<string>, input: string)
    ensures var explicit, inferred := ExplicitTargets(scope, input), InferredTargets(req, scope);
            var known := KnownTables(scope);
            var targets, seed := TargetTables(req, scope, input), FocusSeed(req, scope, input);
            if explicit != [] then targets == explicit && seed == explicit
            else if inferred != [] then targets == inferred && seed == inferred
            else targets == known && seed == (if |known| == 1 then known else [])
  {
    hide KnownTables, ExplicitTargets, InferredTargets;
  }

  /* ---- where columns come from ---- */

  // The tables among the wanted that some document has columns for.
  ghost predicate Documented(a: SchemaAnswer, wanted: set<string>, k: string) {
    k in wanted && exists i :: 0 <= i < |a.resultColumns| && Normalize(a.resultColumns[i].0) == k
  }

  lemma {:induction false} RestrictedKeys(found: Columns, wanted: set<string>)
    ensures forall k :: k in Keys(Restrict(found, wanted)) <==>
              k in wanted && exists i :: 0 <= i < |found| && Normalize(found[i].0) == k
  {
    hide Normalize;
    if found != [] {
      var last := |found| - 1;
      var init := found[..last];
      assert forall i :: 0 <= i < last ==> found[i] == init[i];
      RestrictedKeys(init, wanted);
      KeysOfPut(Restrict(init, wanted), Normalize(found[last].0), found[last].1);
    }
  }

  // The refreshed tables are the wanted ones the documents have columns for and those of the column
  // catalog; only if these are none, and there are targets, those of the live database.
  lemma FoundExactly(targets: seq<string>, a: SchemaAnswer)
    ensures var wanted := ToSet(Names(OrElse(targets, a.tables)));
            var parsed := Keys(ParsedColumns(targets, a));
            var known := (set k | k in wanted && Documented(a, wanted, k)) + NormalKeys(a.catalogColumns);
            if known == {} && targets != [] && a.liveColumns.Some? then parsed == NormalKeys(a.liveColumns.value)
            else parsed == known
  {
    hide Names, Normalize, Restrict, MergeColumns, NormalKeys, Keys;
    var wanted := ToSet(Names(OrElse(targets, a.tables)));
    var documented := Restrict(a.resultColumns, wanted);
    RestrictedKeys(a.resultColumns, wanted);
    KeysOfMerge(documented, a.catalogColumns);
    var first := MergeColumns(documented, a.catalogColumns);
    assert Keys(documented) == set k | k in wanted && Documented(a, wanted, k);
    EmptyKeys(first);
    if first == [] && targets != [] && a.liveColumns.Some? {
      KeysOfMerge(first, a.liveColumns.value);
    }
  }

  lemma EmptyKeys(m: Columns)
    ensures Keys(m) == {} <==> m == []
  {
    if m != [] {
      KeysAreNonEmpty(m);
    }
  }

  // A schema retrieval, field by field.
  lemma SchemaActionExactly(req: Request, s: State, input: string, a: SchemaAnswer)
    ensures var t := SchemaAction(req, s, input, a);
            var scope := MergeOrdered(s.tablesInScope, a.tables);
            var targets := TargetTables(req, scope, input);
            var parsed := ParsedColumns(targets, a);
            && t.tablesInScope == scope && t.matchedGroups == MergeOrdered(s.matchedGroups, a.groups)
            && t.focusTables == MergeOrdered(s.focusTables, FocusSeed(req, scope, input))
            && t.retrievedTables == s.retrievedTables + ToSet(if targets != [] then targets else NormalizeAll(a.tables))
            && t.columnsRefreshed == s.columnsRefreshed + Keys(parsed)
            && t.retrievedSchema == MergeColumns(s.retrievedSchema, parsed)
            && t.allowedColumns == MergeColumns(s.allowedColumns, parsed)
            && t.embedding == (if s.embedding.Some? then s.embedding else a.embedding)
            && t.joinPaths == s.joinPaths && t.sampleQueries == s.sampleQueries && t.currentSql == s.currentSql
            && t.lastErrors == s.lastErrors && t.pastCorrections == s.pastCorrections && t.pastChecked == s.pastChecked
            && t.sqlGenerationCount == s.sqlGenerationCount && t.tablesUsed == s.tablesUsed
            && t.actionsTaken == s.actionsTaken && t.generationTables == s.generationTables && t.score == s.score
  {
    hide MergeContext, MergeOrdered, MergeColumns, FocusSeed, TargetTables, ParsedColumns, Keys, NormalizeAll;
  }

  // The other retrievals: corrections are kept and looked at once, samples and join paths are replaced,
  // and there are no join paths for fewer than two tables.
  lemma OtherActionsExactly(req: Request, s: State, input: string, a: Answers)
    ensures var t := Execute(req, s, RetrievePastCorrections, input, a).0;
            t.pastChecked && t.pastCorrections == a.past.corrections
            && t == s.(pastChecked := true, pastCorrections := a.past.corrections,
                       tablesInScope := t.tablesInScope, context := t.context)
    ensures var t := Execute(req, s, RetrieveJoinPaths, input, a).0;
            var tables := Names(if ParseCsv(input) != [] then ParseCsv(input) else s.tablesInScope);
            t == s.(joinPaths := if |tables| >= 2 then a.joins.paths else [], context := t.context)
    ensures var t := Execute(req, s, RetrieveSampleQueries, input, a).0;
            t == s.(sampleQueries := a.samples.queries, context := t.context)
    ensures var (t, warnings) := Execute(req, s, GenerateSql, input, a);
            match a.sql
            case SqlFails(code) => t == s && warnings == [code]
            case SqlText(sql) =>
              warnings == [] && t == s.(currentSql := sql, lastErrors := [],
                                        sqlGenerationCount := s.sqlGenerationCount + 1)
  {
    hide MergeContext, ScopeWithCorrections, Names, ParseCsv;
  }

  // A run starts with one schema retrieval for the search query and nothing counted; simple questions
  // skip the look at past corrections.
  lemma BootstrapExactly(req: Request, skipPast: bool, bootstrap: SchemaAnswer)
    ensures var l := Bootstrapped(req, skipPast, bootstrap);
            && l.iteration == 0 && l.planner == 0 && l.steps == [] && l.warnings == []
            && l.state.pastChecked == skipPast && l.state.actionsTaken == [] && l.state.currentSql == ""
            && l.state.tablesInScope == MergeOrdered([], bootstrap.tables)
            && l.state.focusTables == MergeOrdered([], FocusSeed(req, l.state.tablesInScope, req.searchQuery))
            && l.state.columnsRefreshed ==
               Keys(ParsedColumns(TargetTables(req, l.state.tablesInScope, req.searchQuery), bootstrap))
  {
    hide SchemaAction, MergeOrdered, FocusSeed, TargetTables, ParsedColumns, Keys;
    SchemaActionExactly(req, InitialState(skipPast), req.searchQuery, bootstrap);
  }

  /* ---- the confidence score ---- */

  // A round plans in its state with the score of the counted rounds and itself.
  lemma ScoredForTheRound(req: Request, l: Loop)
    ensures Scored(req, l) == l.state.(score := ConfidenceScore(req, l.state, l.planner + 1))
  {
    hide ConfidenceScore;
  }

  function PartOf(n: nat, whole: int): real {
    if whole <= 0 then 0.0 else n as real / whole as real
  }

  function AtMostOne(x: real): real {
    if x > 1.0 then 1.0 else x
  }

  // Tables with columns weigh by the table weight, join paths per further table by the join weight,
  // matched groups by the group weight, and having samples or corrections by the example weight; every
  // iteration after the first costs the penalty; and the score stays between zero and one.
  lemma ScoreExactly(req: Request, s: State, iteration: int)
    ensures var settings, tables := req.settings, ScoredTables(s);
            var joins := if |tables| > 1 then AtMostOne(PartOf(|s.joinPaths|, |tables| - 1))
                         else if |tables| == 1 then 1.0 else 0.0;
            var groups := AtMostOne(PartOf(|s.matchedGroups|, if GroupBudget(req) > 1 then GroupBudget(req) else 1));
            var examples := if s.sampleQueries != [] || s.pastCorrections != [] then 1.0 else 0.0;
            var raw := Weighted(PartOf(|tables * SchemaNames(s)|, |tables|), settings.tablesWeight)
                       + Weighted(joins, settings.joinWeight) + Weighted(groups, settings.groupWeight)
                       + Weighted(examples, settings.exampleWeight)
                       - (if iteration > 1 then Weighted((iteration - 1) as real, settings.iterationPenalty) else 0.0);
            ConfidenceScore(req, s, iteration) == if raw < 0.0 then 0.0 else AtMostOne(raw)
  {
    hide ScoredTables, SchemaNames, GroupBudget, Coverage, JoinShare, GroupShare, ExampleShare, PartOf, Clamp, Penalty,
         AtMostOne, Weighted;
    SharesAre(req, s);
    PenaltyIs(req.settings, iteration);
    ClampIs(RawScore(req, s) - Penalty(req.settings, iteration));
  }

  lemma SharesAre(req: Request, s: State)
    ensures var tables := ScoredTables(s);
            && Coverage(s, tables) == PartOf(|tables * SchemaNames(s)|, |tables|)
            && JoinShare(s, tables) == (if |tables| > 1 then AtMostOne(PartOf(|s.joinPaths|, |tables| - 1))
                                        else if |tables| == 1 then 1.0 else 0.0)
            && GroupShare(req, s) ==
               AtMostOne(PartOf(|s.matchedGroups|, if GroupBudget(req) > 1 then GroupBudget(req) else 1))
            && ExampleShare(s) == if s.sampleQueries != [] || s.pastCorrections != [] then 1.0 else 0.0
  {
    hide ScoredTables, SchemaNames, GroupBudget;
    var tables := ScoredTables(s);
    assert tables == {} <==> |tables| == 0;
    if s.matchedGroups == [] {
      NoneOf(if GroupBudget(req) > 1 then GroupBudget(req) else 1);
    }
  }

  lemma NoneOf(whole: int)
    requires whole > 0
    ensures PartOf(0, whole) == 0.0
  {
    assert 0.0 / whole as real == 0.0;
  }

  lemma PenaltyIs(settings: Settings, iteration: int)
    ensures Penalty(settings, iteration) ==
            if iteration > 1 then Weighted((iteration - 1) as real, settings.iterationPenalty) else 0.0
  {
  }

  lemma ClampIs(x: real)
    ensures Clamp(x) == if x < 0.0 then 0.0 else AtMostOne(x)
  {
  }
}
