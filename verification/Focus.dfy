/** Choosing the tables SQL generation sees (agent/react_executor.py, _focused_tables_for_generation). */
module FocusSelection {
  import opened TableNames

  // A column search hit, most similar columns first.
  datatype Hit = Hit(table: string, similarity: real)

  // A table's best similarity and the position of its first hit.
  datatype Rank = Rank(score: real, first: nat)

  type Ranks = map<string, Rank>

  function Max(a: real, b: real): real {
    if a >= b then a else b
  }

  function Ranked(ranks: Ranks, name: string, similarity: real, index: nat): Ranks {
    if name in ranks
    then ranks[name := Rank(Max(similarity, ranks[name].score), ranks[name].first)]
    else ranks[name := Rank(similarity, index)]
  }

  function RanksOf(hits: seq<Hit>, scope: seq<string>): Ranks {
    if hits == [] then map[]
    else
      var last := |hits| - 1;
      var name := Normalize(hits[last].table);
      var before := RanksOf(hits[..last], scope);
      if name in scope then Ranked(before, name, hits[last].similarity, last) else before
  }

  // In-scope tables with a hit, in order of first hit.
  function Scored(hits: seq<Hit>, scope: seq<string>): seq<string> {
    if hits == [] then []
    else
      var last := |hits| - 1;
      var name := Normalize(hits[last].table);
      var before := Scored(hits[..last], scope);
      if name in scope && name !in before then before + [name] else before
  }

  // Sort key (-score, first hit); first hits of different tables differ, so scope order never
  // has to break a tie.
  predicate Ahead(ranks: Ranks, a: string, b: string)
    requires a in ranks && b in ranks
  {
    ranks[a].score > ranks[b].score || (ranks[a].score == ranks[b].score && ranks[a].first < ranks[b].first)
  }

  ghost predicate AllRanked(ranks: Ranks, names: seq<string>) {
    forall i :: 0 <= i < |names| ==> names[i] in ranks
  }

  function InsertByRank(ranks: Ranks, name: string, sorted: seq<string>): (r: seq<string>)
    requires name in ranks && AllRanked(ranks, sorted)
    ensures AllRanked(ranks, r) && |r| == |sorted| + 1
    ensures forall x :: x in r <==> x == name || x in sorted
  {
    if sorted == [] then [name]
    else if Ahead(ranks, name, sorted[0]) then [name] + sorted
    else
      var rest := InsertByRank(ranks, name, sorted[1..]);
      assert sorted == [sorted[0]] + sorted[1..];
      [sorted[0]] + rest
  }

  function SortByRank(ranks: Ranks, names: seq<string>): (r: seq<string>)
    requires AllRanked(ranks, names)
    ensures AllRanked(ranks, r) && |r| == |names|
    ensures forall x :: x in r <==> x in names
  {
    if names == [] then []
    else
      var last := |names| - 1;
      assert names == names[..last] + [names[last]];
      InsertByRank(ranks, names[last], SortByRank(ranks, names[..last]))
  }

  function FirstOf(names: seq<string>, count: nat): seq<string> {
    if |names| <= count then names else names[..count]
  }

  function Focus(tables: seq<string>, hits: seq<Hit>, maxTables: nat): seq<string> {
    var names := AddItems([], NormalizeAll(tables));
    if |names| <= maxTables then names
    else
      var scored := Scored(hits, names);
      if scored == [] then FirstOf(names, maxTables)
      else
        ScoredAreRanked(hits, names);
        FirstOf(SortByRank(RanksOf(hits, names), scored), maxTables)
  }

  method FocusedTables(tables: seq<string>, hits: seq<Hit>, maxTables: nat) returns (focused: seq<string>)
    ensures focused == Focus(tables, hits, maxTables)
  {
    var names := AddItems([], NormalizeAll(tables));
    if |names| <= maxTables {
      return names;
    }
    var ranks: Ranks := map[];
    var order: seq<string> := [];
    for i := 0 to |hits|
      invariant ranks == RanksOf(hits[..i], names)
      invariant order == Scored(hits[..i], names)
    {
      assert hits[..i + 1][..i] == hits[..i];
      ScoredAreRanked(hits[..i], names);
      var name := Normalize(hits[i].table);
      if name !in names {
        continue;
      }
      if name !in order {
        order := order + [name];
      }
      ranks := Ranked(ranks, name, hits[i].similarity, i);
    }
    assert hits[..|hits|] == hits;
    if order == [] {
      return FirstOf(names, maxTables);
    }
    ScoredAreRanked(hits, names);
    focused := FirstOf(SortByRank(ranks, order), maxTables);
  }

  /* ---- what the loop computes ---- */

  lemma {:induction false} ScoredAreRanked(hits: seq<Hit>, scope: seq<string>)
    ensures Distinct(Scored(hits, scope))
    ensures AllRanked(RanksOf(hits, scope), Scored(hits, scope))
    ensures forall x :: x in RanksOf(hits, scope) ==> x in Scored(hits, scope)
    ensures forall x :: x in Scored(hits, scope) ==> x in scope
  {
    if hits != [] {
      ScoredAreRanked(hits[..|hits| - 1], scope);
    }
  }

  ghost predicate HitOn(hits: seq<Hit>, i: nat, name: string) {
    i < |hits| && Normalize(hits[i].table) == name
  }

  // Some hit lands on the table.
  ghost predicate HasHit(hits: seq<Hit>, name: string) {
    exists i: nat :: HitOn(hits, i, name)
  }

  // A rank is the table's best similarity, reached by some hit, and the position of its first hit.
  ghost predicate RankIsRight(hits: seq<Hit>, name: string, rank: Rank) {
    && HitOn(hits, rank.first, name)
    && (forall i: nat :: HitOn(hits, i, name) ==> rank.first <= i && hits[i].similarity <= rank.score)
    && (exists i: nat :: HitOn(hits, i, name) && hits[i].similarity == rank.score)
  }

  lemma {:induction false} RanksAreRight(hits: seq<Hit>, scope: seq<string>, name: string)
    ensures name in RanksOf(hits, scope) ==> RankIsRight(hits, name, RanksOf(hits, scope)[name])
    ensures name in RanksOf(hits, scope) <==> name in scope && HasHit(hits, name)
  {
    hide Normalize, Max;
    if hits != [] {
      var last := |hits| - 1;
      var before := hits[..last];
      RanksAreRight(before, scope, name);
      HitsSoFar(hits, name);
      if name in RanksOf(before, scope) {
        KeepRank(hits, name, RanksOf(before, scope)[name]);
      } else if HitOn(hits, last, name) && name in scope {
        NewRank(hits, name);
      }
    }
  }

  lemma HitsSoFar(hits: seq<Hit>, name: string)
    requires hits != []
    ensures var last := |hits| - 1;
            HasHit(hits, name) <==> HasHit(hits[..last], name) || HitOn(hits, last, name)
  {
    hide Normalize;
    var last := |hits| - 1;
    forall i: nat | i < last
      ensures HitOn(hits[..last], i, name) <==> HitOn(hits, i, name)
    {
    }
    if i: nat :| HitOn(hits, i, name) && i < last {
      assert HitOn(hits[..last], i, name);
    }
    if i: nat :| HitOn(hits[..last], i, name) {
      assert HitOn(hits, i, name);
    }
  }

  lemma NewRank(hits: seq<Hit>, name: string)
    requires hits != [] && HitOn(hits, |hits| - 1, name)
    requires !HasHit(hits[..|hits| - 1], name)
    ensures RankIsRight(hits, name, Rank(hits[|hits| - 1].similarity, |hits| - 1))
  {
    var last := |hits| - 1;
    forall i: nat | HitOn(hits, i, name)
      ensures i == last
    {
      if i < last {
        assert HitOn(hits[..last], i, name);
      }
    }
  }

  // One more hit leaves the first hit alone and can only raise the score.
  lemma KeepRank(hits: seq<Hit>, name: string, rank: Rank)
    requires hits != [] && RankIsRight(hits[..|hits| - 1], name, rank)
    ensures var last := |hits| - 1;
            var score := if HitOn(hits, last, name) then Max(hits[last].similarity, rank.score) else rank.score;
            RankIsRight(hits, name, Rank(score, rank.first))
  {
    var last := |hits| - 1;
    var before := hits[..last];
    var score := if HitOn(hits, last, name) then Max(hits[last].similarity, rank.score) else rank.score;
    assert HitOn(before, rank.first, name);
    var i: nat :| HitOn(before, i, name) && before[i].similarity == rank.score;
    assert HitOn(hits, i, name) && hits[i].similarity == rank.score;
    forall k: nat | HitOn(hits, k, name)
      ensures rank.first <= k && hits[k].similarity <= score
    {
      if k < last {
        assert HitOn(before, k, name);
      }
    }
  }

  lemma AheadIsTotal(hits: seq<Hit>, scope: seq<string>, a: string, b: string)
    requires a in RanksOf(hits, scope) && b in RanksOf(hits, scope) && a != b
    ensures var ranks := RanksOf(hits, scope);
            Ahead(ranks, a, b) <==> !Ahead(ranks, b, a)
  {
    RanksAreRight(hits, scope, a);
    RanksAreRight(hits, scope, b);
  }

  /* ---- the sort ---- */

  ghost predicate Sorted(ranks: Ranks, names: seq<string>)
    requires AllRanked(ranks, names)
  {
    forall i, j :: 0 <= i < j < |names| ==> Ahead(ranks, names[i], names[j])
  }

  lemma {:induction false} InsertKeepsSorted(hits: seq<Hit>, scope: seq<string>, name: string, sorted: seq<string>)
    requires var ranks := RanksOf(hits, scope);
             name in ranks && AllRanked(ranks, sorted) && Sorted(ranks, sorted) && name !in sorted
    ensures Sorted(RanksOf(hits, scope), InsertByRank(RanksOf(hits, scope), name, sorted))
  {
    var ranks := RanksOf(hits, scope);
    if sorted != [] {
      if Ahead(ranks, name, sorted[0]) {
        HeadStaysAhead(ranks, name, sorted);
      } else {
        assert name != sorted[0];
        AheadIsTotal(hits, scope, name, sorted[0]);
        InsertKeepsSorted(hits, scope, name, sorted[1..]);
        var rest := InsertByRank(ranks, name, sorted[1..]);
        forall j | 0 <= j < |rest|
          ensures Ahead(ranks, sorted[0], rest[j])
        {
          assert rest[j] in rest;
        }
      }
    }
  }

  lemma HeadStaysAhead(ranks: Ranks, name: string, sorted: seq<string>)
    requires name in ranks && AllRanked(ranks, sorted) && Sorted(ranks, sorted)
    requires sorted != [] && Ahead(ranks, name, sorted[0])
    ensures AllRanked(ranks, [name] + sorted) && Sorted(ranks, [name] + sorted)
  {
    forall j | 0 <= j < |sorted|
      ensures Ahead(ranks, name, sorted[j])
    {
      if j > 0 {
        assert Ahead(ranks, sorted[0], sorted[j]);
      }
    }
  }

  lemma {:induction false} SortIsSorted(hits: seq<Hit>, scope: seq<string>, names: seq<string>)
    requires AllRanked(RanksOf(hits, scope), names) && Distinct(names)
    ensures Sorted(RanksOf(hits, scope), SortByRank(RanksOf(hits, scope), names))
  {
    if names != [] {
      var last := |names| - 1;
      SortIsSorted(hits, scope, names[..last]);
      InsertKeepsSorted(hits, scope, names[last], SortByRank(RanksOf(hits, scope), names[..last]));
    }
  }

  lemma SortedIsDistinct(ranks: Ranks, names: seq<string>)
    requires AllRanked(ranks, names) && Sorted(ranks, names)
    ensures Distinct(names)
  {
  }

  /* ---- the selection is the true top k ---- */

  // Ordered by best score, then first hit.
  ghost predicate Beats(hits: seq<Hit>, a: string, b: string) {
    exists x, y :: RankIsRight(hits, a, x) && RankIsRight(hits, b, y)
      && (x.score > y.score || (x.score == y.score && x.first < y.first))
  }

  // Whatever the hits: distinct normalised scope names, at most maxTables of them.
  lemma FocusIsBounded(tables: seq<string>, hits: seq<Hit>, maxTables: nat)
    ensures |Focus(tables, hits, maxTables)| <= maxTables
    ensures forall x :: x in Focus(tables, hits, maxTables) ==> x in NormalizeAll(tables) && x != ""
    ensures Tidy(Focus(tables, hits, maxTables))
  {
    var names := AddItems([], NormalizeAll(tables));
    AddItemsFacts([], NormalizeAll(tables));
    if |names| > maxTables && Scored(hits, names) != [] {
      ScoredAreRanked(hits, names);
      SortedScored(hits, names);
      PrefixIsTidy(SortByRank(RanksOf(hits, names), Scored(hits, names)), names, maxTables);
    }
  }

  lemma SortedScored(hits: seq<Hit>, scope: seq<string>)
    ensures AllRanked(RanksOf(hits, scope), Scored(hits, scope))
    ensures var sorted := SortByRank(RanksOf(hits, scope), Scored(hits, scope));
            Distinct(sorted) && forall x :: x in sorted ==> x in scope
  {
    ScoredAreRanked(hits, scope);
    SortIsSorted(hits, scope, Scored(hits, scope));
    SortedIsDistinct(RanksOf(hits, scope), SortByRank(RanksOf(hits, scope), Scored(hits, scope)));
  }

  lemma PrefixIsTidy(some: seq<string>, scope: seq<string>, count: nat)
    requires Distinct(some) && Tidy(scope) && forall x :: x in some ==> x in scope
    ensures Tidy(FirstOf(some, count)) && forall x :: x in FirstOf(some, count) ==> x in scope
  {
    var kept := FirstOf(some, count);
    forall i | 0 <= i < |kept|
      ensures kept[i] in scope
    {
      assert some[i] in some;
    }
  }

  // Few tables are all kept; without an in-scope hit the scope's prefix is; otherwise exactly the
  // best-ranked scored tables are, in rank order, and none left out beats one that is kept.
  lemma FocusIsTopK(tables: seq<string>, hits: seq<Hit>, maxTables: nat)
    ensures var names := AddItems([], NormalizeAll(tables));
            var focus := Focus(tables, hits, maxTables);
            if |names| <= maxTables then focus == names
            else if forall x :: x in names ==> !HasHit(hits, x) then focus == names[..maxTables]
            else
              && (forall x :: x in focus ==> HasHit(hits, x))
              && (forall i, j :: 0 <= i < j < |focus| ==> Beats(hits, focus[i], focus[j]))
              && (forall x, y :: x in focus && y in names && y !in focus && HasHit(hits, y) ==> Beats(hits, x, y))
              && (|focus| < maxTables ==> forall x :: x in names && HasHit(hits, x) ==> x in focus)
  {
    var names := AddItems([], NormalizeAll(tables));
    var focus := Focus(tables, hits, maxTables);
    if |names| > maxTables {
      ScoredExactly(hits, names);
      var scored := Scored(hits, names);
      if scored == [] {
        assert forall x :: x in names ==> !HasHit(hits, x);
      } else {
        assert scored[0] in scored;
        SortIsSorted(hits, names, scored);
        SortedBeats(hits, names, SortByRank(RanksOf(hits, names), scored));
        PrefixBeats(hits, SortByRank(RanksOf(hits, names), scored), maxTables);
      }
    }
  }

  lemma ScoredExactly(hits: seq<Hit>, scope: seq<string>)
    ensures AllRanked(RanksOf(hits, scope), Scored(hits, scope)) && Distinct(Scored(hits, scope))
    ensures forall x :: x in Scored(hits, scope) <==> x in scope && HasHit(hits, x)
  {
    ScoredAreRanked(hits, scope);
    forall x
      ensures x in Scored(hits, scope) <==> x in scope && HasHit(hits, x)
    {
      RanksAreRight(hits, scope, x);
      if x in Scored(hits, scope) {
        var i :| 0 <= i < |Scored(hits, scope)| && Scored(hits, scope)[i] == x;
      }
    }
  }

  lemma SortedBeats(hits: seq<Hit>, scope: seq<string>, sorted: seq<string>)
    requires AllRanked(RanksOf(hits, scope), sorted) && Sorted(RanksOf(hits, scope), sorted)
    ensures forall i, j :: 0 <= i < j < |sorted| ==> Beats(hits, sorted[i], sorted[j])
  {
    var ranks := RanksOf(hits, scope);
    forall i, j | 0 <= i < j < |sorted|
      ensures Beats(hits, sorted[i], sorted[j])
    {
      RanksAreRight(hits, scope, sorted[i]);
      RanksAreRight(hits, scope, sorted[j]);
      assert Ahead(ranks, sorted[i], sorted[j]);
      assert RankIsRight(hits, sorted[i], ranks[sorted[i]]) && RankIsRight(hits, sorted[j], ranks[sorted[j]]);
    }
  }

  lemma PrefixBeats(hits: seq<Hit>, sorted: seq<string>, count: nat)
    requires forall i, j :: 0 <= i < j < |sorted| ==> Beats(hits, sorted[i], sorted[j])
    ensures var kept := FirstOf(sorted, count);
            && (forall x :: x in kept ==> x in sorted)
            && (forall x, y :: x in kept && y in sorted && y !in kept ==> Beats(hits, x, y))
            && (|kept| < count ==> kept == sorted)
  {
    var kept := FirstOf(sorted, count);
    forall x, y | x in kept && y in sorted && y !in kept
      ensures Beats(hits, x, y)
    {
      var i :| 0 <= i < |kept| && kept[i] == x;
      var j :| 0 <= j < |sorted| && sorted[j] == y;
      assert forall k :: 0 <= k < |kept| ==> sorted[k] in kept;
    }
  }
}
