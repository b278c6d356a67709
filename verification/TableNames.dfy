/** Table names, comma lists and the order-keeping merges of the planner state (agent/react_executor.py). */
module TableNames {
  import opened Text

  const QUOTES: set<char> := {'`', '"', '[', ']'}

  // _normalize_table_name
  function Normalize(name: string): string {
    Lower(StripOf(Strip(name), QUOTES))
  }

  /* ---- lists without repetitions ---- */

  // Appends an item unless it is empty or already there.
  function AddItem(items: seq<string>, item: string): seq<string> {
    if item != "" && item !in items then items + [item] else items
  }

  function AddItems(items: seq<string>, more: seq<string>): seq<string> {
    if more == [] then items else AddItem(AddItems(items, more[..|more| - 1]), more[|more| - 1])
  }

  ghost predicate Distinct(items: seq<string>) {
    forall i, j :: 0 <= i < j < |items| ==> items[i] != items[j]
  }

  // Distinct and without empty items.
  ghost predicate Tidy(items: seq<string>) {
    Distinct(items) && forall i :: 0 <= i < |items| ==> items[i] != ""
  }

  lemma {:induction false} AddItemsFacts(items: seq<string>, more: seq<string>)
    requires Tidy(items)
    ensures var r := AddItems(items, more);
            Tidy(r) && items <= r && forall x :: x in r <==> x in items || (x in more && x != "")
  {
    if more != [] {
      var last := |more| - 1;
      AddItemsFacts(items, more[..last]);
      assert forall x :: x in more <==> x in more[..last] || x == more[last];
    }
  }

  lemma {:induction false} AddItemsToNothing(more: seq<string>)
    requires Tidy(more)
    ensures AddItems([], more) == more
  {
    if more != [] {
      var last := |more| - 1;
      AddItemsToNothing(more[..last]);
      assert more[..last] + [more[last]] == more;
    }
  }

  function StripAll(items: seq<string>): (r: seq<string>)
    ensures |r| == |items|
  {
    if items == [] then [] else StripAll(items[..|items| - 1]) + [Strip(items[|items| - 1])]
  }

  function NormalizeAll(items: seq<string>): (r: seq<string>)
    ensures |r| == |items|
  {
    if items == [] then [] else NormalizeAll(items[..|items| - 1]) + [Normalize(items[|items| - 1])]
  }

  lemma {:induction false} NormalizeAllAt(items: seq<string>, i: nat)
    requires i < |items|
    ensures NormalizeAll(items)[i] == Normalize(items[i])
  {
    if i < |items| - 1 {
      NormalizeAllAt(items[..|items| - 1], i);
    }
  }

  lemma {:induction false} StripAllAt(items: seq<string>, i: nat)
    requires i < |items|
    ensures StripAll(items)[i] == Strip(items[i])
  {
    if i < |items| - 1 {
      StripAllAt(items[..|items| - 1], i);
    }
  }

  lemma AddItemsSnoc(items: seq<string>, more: seq<string>, x: string)
    ensures AddItems(items, more + [x]) == AddItem(AddItems(items, more), x)
  {
    assert (more + [x])[..|more|] == more;
  }

  lemma StripAllSnoc(items: seq<string>, x: string)
    ensures StripAll(items + [x]) == StripAll(items) + [Strip(x)]
  {
    assert (items + [x])[..|items|] == items;
  }

  lemma NormalizeAllSnoc(items: seq<string>, x: string)
    ensures NormalizeAll(items + [x]) == NormalizeAll(items) + [Normalize(x)]
  {
    assert (items + [x])[..|items|] == items;
  }

  lemma StripAllStep(items: seq<string>, i: nat)
    requires i < |items|
    ensures AddItems([], StripAll(items[..i + 1])) == AddItem(AddItems([], StripAll(items[..i])), Strip(items[i]))
  {
    assert items[..i + 1] == items[..i] + [items[i]];
    StripAllSnoc(items[..i], items[i]);
    AddItemsSnoc([], StripAll(items[..i]), Strip(items[i]));
  }

  lemma NormalizeAllStep(items: seq<string>, i: nat)
    requires i < |items|
    ensures AddItems([], NormalizeAll(items[..i + 1])) ==
            AddItem(AddItems([], NormalizeAll(items[..i])), Normalize(items[i]))
  {
    assert items[..i + 1] == items[..i] + [items[i]];
    NormalizeAllSnoc(items[..i], items[i]);
    AddItemsSnoc([], NormalizeAll(items[..i]), Normalize(items[i]));
  }

  // _merge_ordered_strings
  function MergeOrdered(existing: seq<string>, incoming: seq<string>): seq<string> {
    AddItems([], StripAll(existing + incoming))
  }

  method MergeOrderedStrings(existing: seq<string>, incoming: seq<string>) returns (merged: seq<string>)
    ensures merged == MergeOrdered(existing, incoming)
  {
    var all := existing + incoming;
    merged := [];
    for i := 0 to |all|
      invariant merged == AddItems([], StripAll(all[..i]))
    {
      StripAllStep(all, i);
      var normalized := Strip(all[i]);
      if normalized != "" && normalized !in merged {
        merged := merged + [normalized];
      }
    }
    assert all[..|all|] == all;
  }

  // _parse_csv_items
  function ParseCsv(value: string): seq<string> {
    AddItems([], NormalizeAll(Split(value, ',')))
  }

  method ParseCsvItems(value: string) returns (items: seq<string>)
    ensures items == ParseCsv(value)
  {
    var parts := Split(value, ',');
    items := [];
    for i := 0 to |parts|
      invariant items == AddItems([], NormalizeAll(parts[..i]))
    {
      NormalizeAllStep(parts, i);
      var item := Normalize(parts[i]);
      if item != "" && item !in items {
        items := items + [item];
      }
    }
    assert parts[..|parts|] == parts;
  }

  // The recurring comprehension: normalised names of the non-blank tables.
  function Names(tables: seq<string>): seq<string> {
    if tables == [] then []
    else
      var last := tables[|tables| - 1];
      Names(tables[..|tables| - 1]) + if Strip(last) == "" then [] else [Normalize(last)]
  }

  /* ---- names the service can tell apart ---- */

  // A name in normal form: not empty, free of commas, and left alone by normalising.
  predicate Canonical(name: string) {
    name != "" && ',' !in name && Normalize(name) == name
  }

  // A table name whose normal form is canonical. Ordinary table names are.
  predicate Clean(table: string) {
    Canonical(Normalize(table))
  }

  ghost predicate AllCanonical(names: seq<string>) {
    forall i :: 0 <= i < |names| ==> Canonical(names[i])
  }

  ghost predicate AllClean(tables: seq<string>) {
    forall i :: 0 <= i < |tables| ==> Clean(tables[i])
  }

  lemma NormalizeOfBlank(name: string)
    requires Strip(name) == ""
    ensures Normalize(name) == ""
  {
  }

  lemma NormalizeIgnoresStrip(name: string)
    ensures Normalize(Strip(name)) == Normalize(name)
  {
    StripTwice(name, WHITESPACE);
  }

  lemma CleanIsNotBlank(table: string)
    requires Clean(table)
    ensures Strip(table) != "" && Clean(Strip(table))
  {
    if Strip(table) == "" {
      NormalizeOfBlank(table);
    }
    NormalizeIgnoresStrip(table);
  }

  lemma CanonicalIsClean(name: string)
    requires Canonical(name)
    ensures Clean(name)
  {
  }

  lemma {:induction false} NamesOfClean(tables: seq<string>)
    requires AllClean(tables)
    ensures Names(tables) == NormalizeAll(tables) && AllCanonical(Names(tables))
  {
    if tables != [] {
      NamesOfClean(tables[..|tables| - 1]);
      CleanIsNotBlank(tables[|tables| - 1]);
    }
  }

  lemma NameOf(tables: seq<string>, table: string)
    requires AllClean(tables) && table in tables
    ensures Normalize(table) in Names(tables)
  {
    NamesOfClean(tables);
    var i :| 0 <= i < |tables| && tables[i] == table;
    NormalizeAllAt(tables, i);
  }

  lemma TableOf(tables: seq<string>, name: string) returns (table: string)
    requires AllClean(tables) && name in Names(tables)
    ensures table in tables && Normalize(table) == name
  {
    NamesOfClean(tables);
    var i :| 0 <= i < |tables| && Names(tables)[i] == name;
    NormalizeAllAt(tables, i);
    table := tables[i];
  }

  lemma CanonicalNamesAreThemselves(names: seq<string>)
    requires AllCanonical(names)
    ensures Names(names) == names
  {
    forall i | 0 <= i < |names|
      ensures Clean(names[i])
    {
      CanonicalIsClean(names[i]);
    }
    NamesOfClean(names);
    forall i | 0 <= i < |names|
      ensures NormalizeAll(names)[i] == names[i]
    {
      NormalizeAllAt(names, i);
    }
  }

  /* ---- a joined list of canonical names parses back ---- */

  function Spaced(names: seq<string>): (r: seq<string>)
    ensures |r| == |names|
  {
    if names == [] then [] else [" " + names[0]] + Spaced(names[1..])
  }

  lemma SplitAfterBlank(s: string)
    ensures Split(" " + s, ',') == [" " + Split(s, ',')[0]] + Split(s, ',')[1..]
  {
    assert (" " + s)[1..] == s;
  }

  lemma {:induction false} SplitSpacedJoin(names: seq<string>)
    requires names != [] && AllCanonical(names)
    ensures Split(Join(names, ", "), ',') == [names[0]] + Spaced(names[1..])
  {
    if |names| == 1 {
      SplitWithoutSeparator(names[0], ',');
      assert [names[0]] + Spaced(names[1..]) == [names[0]];
    } else {
      var rest := Join(names[1..], ", ");
      SplitSpacedJoin(names[1..]);
      JoinFirst(names, ", ");
      assert Join(names, ", ") == names[0] + [','] + (" " + rest);
      SplitAtFirst(names[0], ',', " " + rest);
      SplitAfterBlank(rest);
      assert Spaced(names[1..]) == [" " + names[1]] + Spaced(names[1..][1..]);
    }
  }

  lemma NormalizeAfterBlank(name: string)
    ensures Normalize(" " + name) == Normalize(name)
  {
    assert ' ' in WHITESPACE;
    StripIgnoresLeadingBlank(' ', name, WHITESPACE);
  }

  lemma {:induction false} SpacedAt(names: seq<string>, i: nat)
    requires i < |names|
    ensures Spaced(names)[i] == " " + names[i]
  {
    if i > 0 {
      SpacedAt(names[1..], i - 1);
    }
  }

  lemma NormalizePartsBack(names: seq<string>, parts: seq<string>)
    requires AllCanonical(names) && |parts| == |names|
    requires forall i :: 0 <= i < |names| ==> parts[i] == names[i] || parts[i] == " " + names[i]
    ensures NormalizeAll(parts) == names
  {
    forall i | 0 <= i < |names|
      ensures NormalizeAll(parts)[i] == names[i]
    {
      NormalizeAllAt(parts, i);
      NormalizeAfterBlank(names[i]);
    }
  }

  // ", ".join and "," .join of canonical names both parse back to the names, first mentions first.
  lemma ParseSpacedJoin(names: seq<string>)
    requires names != [] && AllCanonical(names)
    ensures ParseCsv(Join(names, ", ")) == AddItems([], names)
  {
    var parts := [names[0]] + Spaced(names[1..]);
    SplitSpacedJoin(names);
    forall i | 0 <= i < |names|
      ensures parts[i] == names[i] || parts[i] == " " + names[i]
    {
      if i > 0 {
        SpacedAt(names[1..], i - 1);
      }
    }
    NormalizePartsBack(names, parts);
  }

  lemma ParseJoin(names: seq<string>)
    requires names != [] && AllCanonical(names)
    ensures ParseCsv(Join(names, ",")) == AddItems([], names)
  {
    SplitJoin(names, ',');
    NormalizePartsBack(names, names);
  }

  lemma ParseJoinTidy(names: seq<string>)
    requires names != [] && AllCanonical(names) && Tidy(names)
    ensures ParseCsv(Join(names, ",")) == names
  {
    ParseJoin(names);
    AddItemsToNothing(names);
  }

  lemma JoinOfCanonical(names: seq<string>, sep: string)
    requires names != [] && AllCanonical(names)
    ensures Join(names, sep) != ""
  {
    JoinNonEmpty(names, sep);
  }

  /* ---- what merging does to the scope ---- */

  // A list as the merges leave it: tidy, and every item stripped.
  ghost predicate Stored(tables: seq<string>) {
    Tidy(tables) && forall i :: 0 <= i < |tables| ==> Strip(tables[i]) == tables[i]
  }

  // Such a list of clean table names.
  ghost predicate Kept(tables: seq<string>) {
    Stored(tables) && AllClean(tables)
  }

  // What merging a list adds.
  function Added(incoming: seq<string>): (r: set<string>)
    ensures forall x :: x in r <==> x in StripAll(incoming) && x != ""
  {
    set x | x in StripAll(incoming) && x != ""
  }

  lemma StrippedMember(items: seq<string>, x: string)
    requires x in StripAll(items)
    ensures exists t :: t in items && Strip(t) == x
  {
    var i :| 0 <= i < |items| && StripAll(items)[i] == x;
    StripAllAt(items, i);
    assert items[i] in items;
  }

  lemma {:induction false} AddItemsAssociates(items: seq<string>, a: seq<string>, b: seq<string>)
    ensures AddItems(items, a + b) == AddItems(AddItems(items, a), b)
  {
    if b == [] {
      assert a + b == a;
    } else {
      var last := |b| - 1;
      AddItemsAssociates(items, a, b[..last]);
      assert (a + b)[..|a + b| - 1] == a + b[..last];
    }
  }

  lemma AppendOneMore<T>(a: seq<T>, b: seq<T>, x: T)
    ensures a + (b + [x]) == (a + b) + [x]
  {
  }

  lemma {:induction false} StripAllAppend(a: seq<string>, b: seq<string>)
    ensures StripAll(a + b) == StripAll(a) + StripAll(b)
  {
    if b == [] {
      assert a + b == a;
    } else {
      var front, x := b[..|b| - 1], b[|b| - 1];
      StripAllAppend(a, front);
      AppendOneMore(a, front, x);
      StripAllSnoc(a + front, x);
      AppendOneMore(StripAll(a), StripAll(front), Strip(x));
      assert b == front + [x];
    }
  }

  lemma StripAllFixes(tables: seq<string>)
    requires forall i :: 0 <= i < |tables| ==> Strip(tables[i]) == tables[i]
    ensures StripAll(tables) == tables
  {
    forall i | 0 <= i < |tables|
      ensures StripAll(tables)[i] == tables[i]
    {
      StripAllAt(tables, i);
    }
  }

  // Merging keeps the old list as a prefix and adds exactly the new items, stripped, that are not blank.
  lemma MergeStored(existing: seq<string>, incoming: seq<string>)
    requires Stored(existing)
    ensures var r := MergeOrdered(existing, incoming);
            && Stored(r) && existing <= r
            && forall x :: x in r <==> x in existing || x in Added(incoming)
  {
    StripAllAppend(existing, incoming);
    StripAllFixes(existing);
    AddItemsAssociates([], existing, StripAll(incoming));
    AddItemsToNothing(existing);
    AddItemsFacts(existing, StripAll(incoming));
    var r := MergeOrdered(existing, incoming);
    forall i | 0 <= i < |r|
      ensures Strip(r[i]) == r[i]
    {
      assert r[i] in r;
      if r[i] in existing {
        var j :| 0 <= j < |existing| && existing[j] == r[i];
      } else {
        StrippedMember(incoming, r[i]);
        var t :| t in incoming && Strip(t) == r[i];
        StripTwice(t, WHITESPACE);
      }
    }
  }

  lemma AddedIsClean(incoming: seq<string>, x: string)
    requires AllClean(incoming) && x in Added(incoming)
    ensures Clean(x)
  {
    StrippedMember(incoming, x);
    var t :| t in incoming && Strip(t) == x;
    CleanIsNotBlank(t);
  }

  lemma MergeKept(existing: seq<string>, incoming: seq<string>)
    requires Kept(existing) && AllClean(incoming)
    ensures Kept(MergeOrdered(existing, incoming))
  {
    MergeStored(existing, incoming);
    var r := MergeOrdered(existing, incoming);
    forall i | 0 <= i < |r|
      ensures Clean(r[i])
    {
      assert r[i] in r;
      if r[i] in existing {
        var j :| 0 <= j < |existing| && existing[j] == r[i];
      } else {
        AddedIsClean(incoming, r[i]);
      }
    }
  }

  // The normal form of every clean incoming table is a name of the merged list.
  lemma MergeNames(existing: seq<string>, incoming: seq<string>, table: string)
    requires Kept(existing) && AllClean(incoming) && table in incoming
    ensures Normalize(table) in Names(MergeOrdered(existing, incoming))
  {
    MergeKept(existing, incoming);
    MergeStored(existing, incoming);
    var i :| 0 <= i < |incoming| && incoming[i] == table;
    StripAllAt(incoming, i);
    assert Strip(table) in StripAll(incoming);
    CleanIsNotBlank(table);
    NameOf(MergeOrdered(existing, incoming), Strip(table));
    NormalizeIgnoresStrip(table);
  }

  lemma CanonicalIsStripped(name: string)
    requires Canonical(name)
    ensures Strip(name) == name
  {
    var t := TrimLeft(name, WHITESPACE);
    var u := TrimLeft(Strip(name), QUOTES);
    assert |Normalize(name)| == |StripOf(Strip(name), QUOTES)| <= |u| <= |Strip(name)| <= |t| <= |name|;
    assert |t| == |name| ==> t == name;
  }
}
