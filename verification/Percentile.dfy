/** Latency percentiles with linear interpolation (evaluation/runner.py), over exact reals. */
module Percentiles {

  ghost predicate Ascending(s: seq<int>) {
    forall i, j :: 0 <= i <= j < |s| ==> s[i] <= s[j]
  }

  function Insert(x: int, s: seq<int>): (r: seq<int>)
    ensures multiset(r) == multiset{x} + multiset(s)
    ensures |r| == |s| + 1
  {
    if s == [] || x <= s[0] then [x] + s
    else
      assert s == [s[0]] + s[1..];
      [s[0]] + Insert(x, s[1..])
  }

  // sorted(values)
  function Sorted(values: seq<int>): (r: seq<int>)
    ensures multiset(r) == multiset(values)
    ensures |r| == |values|
  {
    if values == [] then []
    else
      assert values == [values[0]] + values[1..];
      Insert(values[0], Sorted(values[1..]))
  }

  lemma {:induction false} InsertMembers(x: int, s: seq<int>, y: int)
    requires y in Insert(x, s)
    ensures y == x || y in s
  {
    if s != [] && x > s[0] && y != s[0] {
      InsertMembers(x, s[1..], y);
    }
  }

  lemma {:induction false} InsertKeepsOrder(x: int, s: seq<int>)
    requires Ascending(s)
    ensures Ascending(Insert(x, s))
  {
    if s != [] && x > s[0] {
      InsertKeepsOrder(x, s[1..]);
      var rest := Insert(x, s[1..]);
      forall i | 0 <= i < |rest|
        ensures s[0] <= rest[i]
      {
        InsertMembers(x, s[1..], rest[i]);
      }
      HeadFirst(s[0], rest);
    }
  }

  lemma HeadFirst(head: int, rest: seq<int>)
    requires Ascending(rest) && forall i :: 0 <= i < |rest| ==> head <= rest[i]
    ensures Ascending([head] + rest)
  {
  }

  lemma {:induction false} SortedIsAscending(values: seq<int>)
    ensures Ascending(Sorted(values))
  {
    if values != [] {
      SortedIsAscending(values[1..]);
      InsertKeepsOrder(values[0], Sorted(values[1..]));
    }
  }

  function Between(low: real, high: real, fraction: real): real {
    low + (high - low) * fraction
  }

  // The position between closest ranks, interpolated.
  function AtRank(ordered: seq<int>, rank: real): real
    requires ordered != [] && 0.0 <= rank <= (|ordered| - 1) as real
  {
    var lower := rank.Floor;
    var upper := if rank == lower as real then lower else lower + 1;
    if lower == upper then ordered[rank.Floor] as real
    else Between(ordered[lower] as real, ordered[upper] as real, rank - lower as real)
  }

  function Rank(count: nat, percentile: real): (rank: real)
    requires count > 0 && 0.0 <= percentile <= 1.0
    ensures 0.0 <= rank <= (count - 1) as real
  {
    (count - 1) as real * percentile
  }

  function Percentile(values: seq<int>, percentile: real): real
    requires 0.0 <= percentile <= 1.0
  {
    if values == [] then 0.0
    else
      var ordered := Sorted(values);
      if |ordered| == 1 then ordered[0] as real
      else AtRank(ordered, Rank(|ordered|, percentile))
  }

  lemma ProductIsNotNegative(d: real, x: real)
    requires d >= 0.0 && x >= 0.0
    ensures d * x >= 0.0
  {
  }

  lemma BetweenGrows(low: real, high: real, x: real, y: real)
    requires low <= high && x <= y
    ensures Between(low, high, x) <= Between(low, high, y)
  {
    var d := high - low;
    ProductIsNotNegative(d, y - x);
    assert d * (y - x) == d * y - d * x;
  }

  lemma BetweenEnds(low: real, high: real)
    ensures Between(low, high, 0.0) == low && Between(low, high, 1.0) == high
  {
  }

  // On a segment the value is the interpolation, at its lower end too.
  lemma AtRankIs(ordered: seq<int>, rank: real, k: nat)
    requires 0.0 <= rank <= (|ordered| - 1) as real && k + 1 < |ordered| && k == rank.Floor
    ensures AtRank(ordered, rank) == Between(ordered[k] as real, ordered[k + 1] as real, rank - k as real)
  {
    hide Between;
    BetweenEnds(ordered[k] as real, ordered[k + 1] as real);
    assert rank == k as real ==> rank - k as real == 0.0;
  }

  lemma LastRank(ordered: seq<int>, rank: real)
    requires ordered != [] && 0.0 <= rank <= (|ordered| - 1) as real && rank.Floor + 1 >= |ordered|
    ensures rank.Floor == |ordered| - 1 && AtRank(ordered, rank) == ordered[|ordered| - 1] as real
  {
    hide Between;
  }

  lemma AtRankOnSegment(ordered: seq<int>, rank: real)
    requires Ascending(ordered)
    requires ordered != [] && 0.0 <= rank <= (|ordered| - 1) as real
    ensures var k := rank.Floor;
            && ordered[k] as real <= AtRank(ordered, rank)
            && (k + 1 < |ordered| ==> AtRank(ordered, rank) <= ordered[k + 1] as real)
            && (k + 1 == |ordered| ==> AtRank(ordered, rank) == ordered[k] as real)
  {
    hide Between, AtRank;
    var k := rank.Floor;
    if k + 1 < |ordered| {
      var low, high := ordered[k] as real, ordered[k + 1] as real;
      AtRankIs(ordered, rank, k);
      BetweenEnds(low, high);
      BetweenGrows(low, high, 0.0, rank - k as real);
      BetweenGrows(low, high, rank - k as real, 1.0);
    } else {
      LastRank(ordered, rank);
    }
  }

  lemma AtRankSameSegment(ordered: seq<int>, r: real, s: real)
    requires Ascending(ordered)
    requires ordered != [] && 0.0 <= r <= s <= (|ordered| - 1) as real && r.Floor == s.Floor
    ensures AtRank(ordered, r) <= AtRank(ordered, s)
  {
    hide Between, AtRank;
    var k := r.Floor;
    if k + 1 < |ordered| {
      AtRankIs(ordered, r, k);
      AtRankIs(ordered, s, k);
      BetweenGrows(ordered[k] as real, ordered[k + 1] as real, r - k as real, s - k as real);
    } else {
      LastRank(ordered, r);
      LastRank(ordered, s);
    }
  }

  lemma AtRankAcrossSegments(ordered: seq<int>, r: real, s: real)
    requires Ascending(ordered)
    requires ordered != [] && 0.0 <= r <= s <= (|ordered| - 1) as real && r.Floor < s.Floor
    ensures AtRank(ordered, r) <= AtRank(ordered, s)
  {
    hide AtRank;
    AtRankOnSegment(ordered, r);
    AtRankOnSegment(ordered, s);
    assert ordered[r.Floor + 1] <= ordered[s.Floor];
  }

  lemma AtRankIsMonotone(ordered: seq<int>, r: real, s: real)
    requires Ascending(ordered)
    requires ordered != [] && 0.0 <= r <= s <= (|ordered| - 1) as real
    ensures AtRank(ordered, r) <= AtRank(ordered, s)
  {
    hide AtRank, Ascending;
    if r.Floor == s.Floor {
      AtRankSameSegment(ordered, r, s);
    } else {
      AtRankAcrossSegments(ordered, r, s);
    }
  }

  lemma RankGrows(count: nat, p: real, q: real)
    requires count > 0 && 0.0 <= p <= q <= 1.0
    ensures Rank(count, p) <= Rank(count, q)
  {
    var span := (count - 1) as real;
    ProductIsNotNegative(span, q - p);
    assert span * (q - p) == span * q - span * p;
  }

  // A higher percentile never reports a lower latency, across segment boundaries too.
  lemma PercentileIsMonotone(values: seq<int>, p: real, q: real)
    requires 0.0 <= p <= q <= 1.0
    ensures Percentile(values, p) <= Percentile(values, q)
  {
    if |values| > 1 {
      SortedIsAscending(values);
      RankGrows(|values|, p, q);
      AtRankIsMonotone(Sorted(values), Rank(|values|, p), Rank(|values|, q));
    }
  }

  lemma InterpolatesAt(ordered: seq<int>, rank: real, k: nat)
    requires k + 1 < |ordered| && k as real <= rank <= (k + 1) as real
    ensures AtRank(ordered, rank) ==
            Between(ordered[k] as real, ordered[k + 1] as real, rank - k as real)
  {
    hide AtRank, Between;
    if rank == (k + 1) as real {
      BetweenEnds(ordered[k] as real, ordered[k + 1] as real);
      AtWholeRank(ordered, rank, k + 1);
    } else {
      AtRankIs(ordered, rank, k);
    }
  }

  lemma BetweenIs(low: real, high: real, fraction: real)
    ensures Between(low, high, fraction) == low + (high - low) * fraction
  {
  }

  lemma AtWholeRank(ordered: seq<int>, rank: real, k: nat)
    requires k < |ordered| && rank == k as real
    ensures AtRank(ordered, rank) == ordered[k] as real
  {
  }

  lemma PercentileAt(values: seq<int>, ordered: seq<int>, p: real, rank: real)
    requires 0.0 <= p <= 1.0 && Ascending(ordered) && multiset(ordered) == multiset(values)
    requires |ordered| > 1 && rank == (|ordered| - 1) as real * p
    ensures 0.0 <= rank <= (|ordered| - 1) as real && Percentile(values, p) == AtRank(ordered, rank)
  {
    hide AtRank, Ascending, Sorted, Rank;
    SortedIsAscending(values);
    AscendingIsUnique(ordered, Sorted(values));
    RankIs(|ordered|, p, rank);
  }

  lemma RankIs(count: nat, p: real, rank: real)
    requires count > 0 && 0.0 <= p <= 1.0 && rank == (count - 1) as real * p
    ensures Rank(count, p) == rank
  {
  }

  // The percentile lies on the straight line between the two closest of the ordered values, at the
  // given part of the distance from the first to the last.
  lemma PercentileInterpolates(values: seq<int>, ordered: seq<int>, p: real, rank: real, k: nat)
    requires 0.0 <= p <= 1.0 && Ascending(ordered) && multiset(ordered) == multiset(values)
    requires k + 1 < |ordered| && k as real <= rank <= (k + 1) as real && rank == (|ordered| - 1) as real * p
    ensures Percentile(values, p) ==
            ordered[k] as real + (ordered[k + 1] as real - ordered[k] as real) * (rank - k as real)
  {
    hide *;
    PercentileAt(values, ordered, p, rank);
    InterpolatesAt(ordered, rank, k);
    var low, high, part := ordered[k] as real, ordered[k + 1] as real, rank - k as real;
    assert Percentile(values, p) == Between(low, high, part);
    BetweenIs(low, high, part);
    assert Percentile(values, p) == low + (high - low) * part;
  }

  ghost predicate IsMinimum(m: int, values: seq<int>) {
    m in values && forall v :: v in values ==> m <= v
  }

  ghost predicate IsMaximum(m: int, values: seq<int>) {
    m in values && forall v :: v in values ==> v <= m
  }

  lemma SameMembers(a: seq<int>, b: seq<int>)
    requires multiset(a) == multiset(b)
    ensures forall x :: x in a <==> x in b
  {
    forall x
      ensures x in a <==> x in b
    {
      assert x in a <==> x in multiset(a);
      assert x in b <==> x in multiset(b);
    }
  }

  lemma SortedEnds(values: seq<int>, least: int, greatest: int)
    requires IsMinimum(least, values) && IsMaximum(greatest, values)
    ensures values != [] && Sorted(values)[0] == least && Sorted(values)[|values| - 1] == greatest
  {
    var ordered := Sorted(values);
    SortedIsAscending(values);
    SameMembers(values, ordered);
    var i :| 0 <= i < |ordered| && ordered[i] == least;
    var j :| 0 <= j < |ordered| && ordered[j] == greatest;
    assert ordered[0] in ordered && ordered[|ordered| - 1] in ordered;
    assert ordered[0] <= ordered[i] && ordered[j] <= ordered[|ordered| - 1];
  }

  // The 0th percentile is the minimum, the 100th the maximum, and the rest lie in between.
  lemma PercentileSpansTheRange(values: seq<int>, p: real, least: int, greatest: int)
    requires IsMinimum(least, values) && IsMaximum(greatest, values)
    requires 0.0 <= p <= 1.0
    ensures Percentile(values, 0.0) == least as real
    ensures Percentile(values, 1.0) == greatest as real
    ensures least as real <= Percentile(values, p) <= greatest as real
  {
    SortedEnds(values, least, greatest);
    if |values| > 1 {
      assert Rank(|values|, 0.0) == 0.0;
      assert Rank(|values|, 1.0) == (|values| - 1) as real;
    }
    PercentileIsMonotone(values, 0.0, p);
    PercentileIsMonotone(values, p, 1.0);
  }

  lemma AscendingFirst(a: seq<int>, b: seq<int>)
    requires Ascending(a) && Ascending(b) && multiset(a) == multiset(b) && a != []
    ensures b != [] && a[0] == b[0]
  {
    SameMembers(a, b);
    assert a[0] in a;
    var i :| 0 <= i < |b| && b[i] == a[0];
    assert b[0] in b;
    var j :| 0 <= j < |a| && a[j] == b[0];
  }

  lemma RestMultiset(a: seq<int>)
    requires a != []
    ensures multiset(a[1..]) == multiset(a) - multiset{a[0]}
  {
    assert a == [a[0]] + a[1..];
  }

  lemma {:induction false} AscendingIsUnique(a: seq<int>, b: seq<int>)
    requires Ascending(a) && Ascending(b) && multiset(a) == multiset(b)
    ensures a == b
  {
    if a == [] {
      assert |multiset(b)| == 0;
    } else {
      AscendingFirst(a, b);
      RestMultiset(a);
      RestMultiset(b);
      AscendingIsUnique(a[1..], b[1..]);
      assert a == [a[0]] + a[1..] && b == [b[0]] + b[1..];
    }
  }

  // The order in which latencies were recorded does not matter.
  lemma PercentileIgnoresOrder(values: seq<int>, shuffled: seq<int>, p: real)
    requires multiset(values) == multiset(shuffled) && 0.0 <= p <= 1.0
    ensures Percentile(values, p) == Percentile(shuffled, p)
  {
    SortedIsAscending(values);
    SortedIsAscending(shuffled);
    AscendingIsUnique(Sorted(values), Sorted(shuffled));
  }
}
