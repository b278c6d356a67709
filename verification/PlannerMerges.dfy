/** Column dictionaries and the growing prompt context of the planner state (agent/react_executor.py). */
module PlannerMerges {
  import opened Text
  import opened TableNames

  /* ---- columns per table ---- */

  // A dictionary in insertion order.
  type Columns = seq<(string, seq<string>)>

  function Keys(m: Columns): set<string> {
    if m == [] then {} else Keys(m[..|m| - 1]) + {m[|m| - 1].0}
  }

  function Lookup(m: Columns, key: string): seq<string> {
    if m == [] then []
    else if m[|m| - 1].0 == key then m[|m| - 1].1
    else Lookup(m[..|m| - 1], key)
  }

  function Put(m: Columns, key: string, columns: seq<string>): Columns
    decreases |m|
  {
    if m == [] then [(key, columns)]
    else if m[|m| - 1].0 == key then m[..|m| - 1] + [(key, columns)]
    else Put(m[..|m| - 1], key, columns) + [m[|m| - 1]]
  }

  lemma {:induction false} KeysOfPut(m: Columns, key: string, columns: seq<string>)
    ensures Keys(Put(m, key, columns)) == Keys(m) + {key}
    decreases |m|
  {
    var put := Put(m, key, columns);
    if m == [] {
      assert put[..0] == [];
    } else if m[|m| - 1].0 == key {
      assert put[..|put| - 1] == m[..|m| - 1];
    } else {
      KeysOfPut(m[..|m| - 1], key, columns);
      assert put[..|put| - 1] == Put(m[..|m| - 1], key, columns);
    }
  }

  function MergeEntry(m: Columns, entry: (string, seq<string>)): Columns {
    var key := Normalize(entry.0);
    if key == "" then m else Put(m, key, MergeOrdered(Lookup(m, key), entry.1))
  }

  // _merge_allowed_columns
  function MergeColumns(existing: Columns, incoming: Columns): Columns {
    if incoming == [] then existing
    else MergeEntry(MergeColumns(existing, incoming[..|incoming| - 1]), incoming[|incoming| - 1])
  }

  method MergeAllowedColumns(existing: Columns, incoming: Columns) returns (merged: Columns)
    ensures merged == MergeColumns(existing, incoming)
  {
    merged := existing;
    for i := 0 to |incoming|
      invariant merged == MergeColumns(existing, incoming[..i])
    {
      assert incoming[..i + 1][..i] == incoming[..i];
      var (table, columns) := incoming[i];
      var key := Normalize(table);
      if key == "" {
        continue;
      }
      var more := MergeOrderedStrings(Lookup(merged, key), columns);
      merged := Put(merged, key, more);
    }
    assert incoming[..|incoming|] == incoming;
  }

  ghost predicate CleanKeys(m: Columns) {
    forall i :: 0 <= i < |m| ==> Clean(m[i].0)
  }

  ghost predicate CanonicalKeys(m: Columns) {
    forall k :: k in Keys(m) ==> Canonical(k)
  }

  // The normal forms of the table names of incoming columns; a blank one is skipped.
  function NormalKeys(incoming: Columns): set<string> {
    if incoming == [] then {}
    else
      var key := Normalize(incoming[|incoming| - 1].0);
      NormalKeys(incoming[..|incoming| - 1]) + if key == "" then {} else {key}
  }

  // Merging keeps all keys and adds exactly the normal forms of the incoming ones.
  lemma {:induction false} KeysOfMerge(existing: Columns, incoming: Columns)
    ensures Keys(MergeColumns(existing, incoming)) == Keys(existing) + NormalKeys(incoming)
  {
    hide Normalize, MergeOrdered;
    if incoming != [] {
      var last := |incoming| - 1;
      var before := MergeColumns(existing, incoming[..last]);
      var key := Normalize(incoming[last].0);
      KeysOfMerge(existing, incoming[..last]);
      KeysOfPut(before, key, MergeOrdered(Lookup(before, key), incoming[last].1));
    }
  }

  lemma {:induction false} CleanNormalKeys(incoming: Columns)
    requires CleanKeys(incoming)
    ensures forall k :: k in NormalKeys(incoming) ==> Canonical(k)
    ensures incoming != [] ==> NormalKeys(incoming) != {}
  {
    hide Canonical;
    if incoming != [] {
      CleanNormalKeys(incoming[..|incoming| - 1]);
      assert Clean(incoming[|incoming| - 1].0);
      CanonicalIsNotEmpty(Normalize(incoming[|incoming| - 1].0));
    }
  }

  lemma CanonicalIsNotEmpty(name: string)
    requires Canonical(name)
    ensures name != ""
  {
  }

  // So clean incoming names keep every key canonical, and a non-empty merge finds something.
  lemma MergeOfClean(existing: Columns, incoming: Columns)
    requires CanonicalKeys(existing) && CleanKeys(incoming)
    ensures CanonicalKeys(MergeColumns(existing, incoming))
    ensures incoming != [] ==> MergeColumns(existing, incoming) != []
  {
    hide Canonical, MergeColumns;
    KeysOfMerge(existing, incoming);
    CleanNormalKeys(incoming);
  }

  lemma {:induction false} LookupPut(m: Columns, key: string, columns: seq<string>, k: string)
    ensures Lookup(Put(m, key, columns), k) == if k == key then columns else Lookup(m, k)
    decreases |m|
  {
    var put := Put(m, key, columns);
    if m == [] {
      assert put[..0] == [];
    } else if m[|m| - 1].0 == key {
      assert put[..|put| - 1] == m[..|m| - 1];
    } else {
      LookupPut(m[..|m| - 1], key, columns, k);
      assert put[..|put| - 1] == Put(m[..|m| - 1], key, columns);
    }
  }

  // Some incoming entry brings the column to the table.
  ghost predicate Brings(incoming: Columns, i: nat, key: string, column: string) {
    i < |incoming| && key != "" && Normalize(incoming[i].0) == key && column in Added(incoming[i].1)
  }

  ghost predicate Brought(incoming: Columns, key: string, column: string) {
    exists i: nat :: Brings(incoming, i, key, column)
  }

  // A table's columns stay in front, in order, and exactly the incoming ones for it are added.
  lemma {:induction false} MergeKeepsColumns(existing: Columns, incoming: Columns, key: string)
    requires Stored(Lookup(existing, key))
    ensures var old_, merged := Lookup(existing, key), Lookup(MergeColumns(existing, incoming), key);
            && Stored(merged) && old_ <= merged
            && forall c :: c in merged <==> c in old_ || Brought(incoming, key, c)
  {
    hide Normalize, MergeOrdered, Added, Stored, Lookup, Brought, MergeEntry;
    if incoming == [] {
      NothingBrought(key);
    } else {
      var last := |incoming| - 1;
      var before := MergeColumns(existing, incoming[..last]);
      MergeKeepsColumns(existing, incoming[..last], key);
      EntryAdds(before, incoming[last], key);
      var old_, merged := Lookup(existing, key), Lookup(MergeColumns(existing, incoming), key);
      assert old_ <= Lookup(before, key) <= merged;
      forall c
        ensures c in merged <==> c in old_ || Brought(incoming, key, c)
      {
        BringsSplit(incoming, key, c);
      }
    }
  }

  lemma NothingBrought(key: string)
    ensures forall c :: !Brought([], key, c)
  {
  }

  lemma EntryAdds(m: Columns, entry: (string, seq<string>), key: string)
    requires Stored(Lookup(m, key))
    ensures var old_, merged := Lookup(m, key), Lookup(MergeEntry(m, entry), key);
            && Stored(merged) && old_ <= merged
            && forall c :: c in merged <==> c in old_ || (key != "" && Normalize(entry.0) == key && c in Added(entry.1))
  {
    hide Normalize, MergeOrdered, Added, Stored, Lookup, Put;
    var name := Normalize(entry.0);
    LookupPut(m, name, MergeOrdered(Lookup(m, name), entry.1), key);
    if name == key {
      MergeStored(Lookup(m, key), entry.1);
    }
  }

  lemma BringsSplit(incoming: Columns, key: string, column: string)
    requires incoming != []
    ensures var last := |incoming| - 1;
            Brought(incoming, key, column)
            <==> Brought(incoming[..last], key, column) || Brings(incoming, last, key, column)
  {
    hide Normalize, Added;
    var last := |incoming| - 1;
    if i: nat :| Brings(incoming, i, key, column) && i < last {
      assert Brings(incoming[..last], i, key, column);
    }
    if i: nat :| Brings(incoming[..last], i, key, column) {
      assert Brings(incoming, i, key, column);
    }
  }

  lemma {:induction false} KeysOfCanonicalMerge(existing: Columns, incoming: Columns)
    requires CanonicalKeys(incoming)
    ensures Keys(MergeColumns(existing, incoming)) == Keys(existing) + Keys(incoming)
  {
    if incoming != [] {
      var last := |incoming| - 1;
      var before := MergeColumns(existing, incoming[..last]);
      var key := incoming[last].0;
      assert key in Keys(incoming) && Canonical(key);
      assert CanonicalKeys(incoming[..last]) by {
        assert Keys(incoming[..last]) <= Keys(incoming);
      }
      KeysOfCanonicalMerge(existing, incoming[..last]);
      KeysOfPut(before, key, MergeOrdered(Lookup(before, key), incoming[last].1));
    }
  }

  // Entries of a parsed result for the wanted tables, later entries replacing earlier ones.
  function Restrict(found: Columns, wanted: set<string>): Columns {
    if found == [] then []
    else
      var (table, columns) := found[|found| - 1];
      var rest := Restrict(found[..|found| - 1], wanted);
      if Normalize(table) in wanted then Put(rest, Normalize(table), columns) else rest
  }

  lemma {:induction false} KeysOfRestrict(found: Columns, wanted: set<string>)
    requires CleanKeys(found)
    ensures CanonicalKeys(Restrict(found, wanted))
  {
    if found != [] {
      var last := |found| - 1;
      KeysOfRestrict(found[..last], wanted);
      assert Clean(found[last].0);
      KeysOfPut(Restrict(found[..last], wanted), Normalize(found[last].0), found[last].1);
    }
  }

  lemma {:induction false} KeysAreNonEmpty(m: Columns)
    requires m != []
    ensures Keys(m) != {}
  {
    assert m[|m| - 1].0 in Keys(m);
  }

  /* ---- the context ---- */

  // _merge_context_block
  function MergeContext(current: string, block: string): string {
    var strippedNew, strippedCurrent := Strip(block), Strip(current);
    if strippedNew == "" then current
    else if strippedCurrent == "" then strippedNew
    else if Occurs(strippedCurrent, strippedNew) then strippedCurrent
    else strippedCurrent + "\n\n" + strippedNew
  }

  lemma ContainsItself(s: string)
    ensures Contains(s, s)
  {
    assert OccursAt(s, s, 0);
  }

  lemma ContainsNothing(s: string)
    ensures Contains(s, "")
  {
    assert OccursAt(s, "", 0);
  }

  lemma OnlyNothingIsInNothing(part: string)
    requires Contains("", part)
    ensures part == ""
  {
    var i :| OccursAt("", part, i);
  }

  // A context that holds every block merged so far keeps holding them, and gains the new one.
  lemma ContextKeepsBlocks(current: string, block: string, part: string)
    requires Strip(current) == current
    ensures var merged := MergeContext(current, block);
            && Strip(merged) == merged
            && Contains(merged, Strip(block))
            && (Contains(current, part) ==> Contains(merged, part))
  {
    var added := Strip(block);
    StripTwice(block, WHITESPACE);
    if added == "" {
      ContainsNothing(current);
    } else if current == "" {
      ContainsItself(added);
      if Contains(current, part) {
        OnlyNothingIsInNothing(part);
        ContainsNothing(added);
      }
    } else if !Occurs(current, added) {
      AppendedBlock(current, added, part);
    }
  }

  // A block that the context holds already changes nothing, a blank one neither; any other goes to the
  // end, behind an empty line.
  lemma MergedContextExactly(current: string, block: string)
    requires Strip(current) == current
    ensures var merged, added := MergeContext(current, block), Strip(block);
            if Contains(current, added) then merged == current
            else merged == if current == "" then added else current + "\n\n" + added
  {
    if Strip(block) == "" {
      ContainsNothing(current);
    } else if current == "" && Contains("", Strip(block)) {
      OnlyNothingIsInNothing(Strip(block));
    }
  }

  // So merging the same block again changes nothing.
  lemma MergingTwiceIsOnce(current: string, block: string)
    requires Strip(current) == current
    ensures MergeContext(MergeContext(current, block), block) == MergeContext(current, block)
  {
    hide MergeContext, Strip;
    ContextKeepsBlocks(current, block, "");
    MergedContextExactly(MergeContext(current, block), block);
  }

  lemma AppendedBlock(current: string, block: string, part: string)
    requires Strip(current) == current != "" && Strip(block) == block != ""
    ensures var merged := current + "\n\n" + block;
            && Strip(merged) == merged
            && Contains(merged, block)
            && (Contains(current, part) ==> Contains(merged, part))
  {
    var merged := current + "\n\n" + block;
    StripIsStripped(current, WHITESPACE);
    StripIsStripped(block, WHITESPACE);
    assert merged[0] == current[0] && merged[|merged| - 1] == block[|block| - 1];
    StripFixesStripped(merged, WHITESPACE);
    ContainsWhole(current + "\n\n", block, "");
    assert current + "\n\n" + block + "" == merged;
    if Contains(current, part) {
      ContainsInside("", current, "\n\n" + block, part);
      assert "" + current + ("\n\n" + block) == merged;
    }
  }
}
