/** What the template builder chooses, in terms of the question and the columns (sql_generator.py). */
module DeterministicChoice {
  import opened Text
  import opened DeterministicSql

  /* ---- first occurrences ---- */

  // The items that are not seen before, in order, each once.
  function Fresh(seen: set<string>, items: seq<string>): seq<string>
    decreases |items|
  {
    if items == [] then []
    else if items[0] in seen then Fresh(seen, items[1..])
    else [items[0]] + Fresh(seen + {items[0]}, items[1..])
  }

  function UpTo(items: seq<string>, count: int): seq<string> {
    if count <= 0 then [] else if |items| <= count then items else items[..count]
  }

  function ToSet(items: seq<string>): set<string> {
    set x | x in items
  }

  lemma {:induction false} FreshTogether(seen: set<string>, a: seq<string>, b: seq<string>)
    ensures Fresh(seen, a + b) == Fresh(seen, a) + Fresh(seen + ToSet(a), b)
    decreases |a|
  {
    if a == [] {
      assert a + b == b && seen + ToSet(a) == seen;
    } else {
      assert (a + b)[0] == a[0] && (a + b)[1..] == a[1..] + b;
      assert a == [a[0]] + a[1..];
      if a[0] in seen {
        FreshTogether(seen, a[1..], b);
        assert seen + ToSet(a[1..]) == seen + ToSet(a);
      } else {
        FreshTogether(seen + {a[0]}, a[1..], b);
        assert seen + {a[0]} + ToSet(a[1..]) == seen + ToSet(a);
      }
    }
  }

  lemma {:induction false} FreshItems(seen: set<string>, items: seq<string>)
    ensures forall x :: x in Fresh(seen, items) <==> x in items && x !in seen
    ensures Distinct(Fresh(seen, items))
    ensures items != [] && items[0] !in seen ==> Fresh(seen, items) != []
    decreases |items|
  {
    if items != [] {
      assert items == [items[0]] + items[1..];
      if items[0] in seen {
        FreshItems(seen, items[1..]);
      } else {
        FreshItems(seen + {items[0]}, items[1..]);
      }
    }
  }

  /* ---- the columns that are listed ---- */

  // Keys, descriptive names and audit columns, by name.
  lemma KindsByName(column: string)
    ensures var c := Lower(column);
            && (IsKind(IdLike, column) <==> c == "id" || EndsWith(c, "_id"))
            && (IsKind(NotAudit, column) <==>
                  c !in {"created_by", "created_at", "creator", "creator_id", "last_updated", "modified_at",
                         "modified_by", "updated_at", "updated_by"})
            && (IsKind(Descriptive, column) <==>
                  || Occurs(c, "name") || Occurs(c, "title") || Occurs(c, "subject") || Occurs(c, "status")
                  || Occurs(c, "type") || Occurs(c, "number") || Occurs(c, "no") || Occurs(c, "code")
                  || Occurs(c, "amount") || Occurs(c, "total"))
  {
    hide Occurs, Lower;
    var f := DESCRIPTIVE_FRAGMENTS;
    assert f[0] == "name" && f[1] == "title" && f[2] == "subject" && f[3] == "status" && f[4] == "type";
    assert f[5] == "number" && f[6] == "no" && f[7] == "code" && f[8] == "amount" && f[9] == "total";
  }

  function OfKind(kind: Kind, columns: seq<string>): seq<string> {
    if columns == [] then []
    else (if IsKind(kind, columns[0]) then [columns[0]] else []) + OfKind(kind, columns[1..])
  }

  // One pass appends what is new of its kind, up to eight columns in all.
  lemma {:induction false} PassAddsFresh(selected: seq<string>, kind: Kind, columns: seq<string>)
    requires |selected| <= MAX_COLUMNS
    ensures AddKind(selected, kind, columns) ==
            selected + UpTo(Fresh(ToSet(selected), OfKind(kind, columns)), MAX_COLUMNS - |selected|)
    decreases |columns|
  {
    hide IsKind;
    if columns != [] {
      var column, rest := columns[0], columns[1..];
      var next := if IsKind(kind, column) then Add(selected, column) else selected;
      PassAddsFresh(next, kind, rest);
      if IsKind(kind, column) {
        assert OfKind(kind, columns)[0] == column && OfKind(kind, columns)[1..] == OfKind(kind, rest);
        if next != selected {
          assert ToSet(next) == ToSet(selected) + {column};
          FreshHead(ToSet(selected), column, OfKind(kind, rest));
          TakeFirst(selected, column, Fresh(ToSet(next), OfKind(kind, rest)));
        }
      } else {
        assert OfKind(kind, columns) == OfKind(kind, rest);
      }
    }
  }

  lemma TakeFirst(selected: seq<string>, column: string, rest: seq<string>)
    requires |selected| < MAX_COLUMNS
    ensures selected + [column] + UpTo(rest, MAX_COLUMNS - |selected| - 1) ==
            selected + UpTo([column] + rest, MAX_COLUMNS - |selected|)
  {
  }

  // A run of passes is one pass over everything they look at.
  lemma TakeTwice(a: seq<string>, b: seq<string>, count: nat)
    ensures UpTo(a, count) + UpTo(b, count - |UpTo(a, count)|) == UpTo(a + b, count)
  {
  }

  // All columns the listing looks at, in its order of preference.
  function Wanted(columns: seq<string>, orderColumns: seq<string>): seq<string> {
    OfKind(IdLike, columns) + OfKind(Descriptive, columns) + (if orderColumns == [] then [] else [orderColumns[0]])
    + OfKind(NotAudit, columns)
  }

  lemma {:induction false} TakenSet(seen: set<string>, items: seq<string>, count: nat)
    requires |Fresh(seen, items)| <= count
    ensures UpTo(Fresh(seen, items), count) == Fresh(seen, items)
    ensures seen + ToSet(Fresh(seen, items)) == seen + ToSet(items)
  {
    FreshItems(seen, items);
  }

  // What has been selected so far, with everything wanted so far.
  ghost predicate Selected(selected: seq<string>, wanted: seq<string>) {
    selected == UpTo(Fresh({}, wanted), MAX_COLUMNS)
  }

  lemma MoreSelected(selected: seq<string>, wanted: seq<string>, more: seq<string>)
    requires Selected(selected, wanted)
    ensures Selected(selected + UpTo(Fresh(ToSet(selected), more), MAX_COLUMNS - |selected|), wanted + more)
  {
    FreshTogether({}, wanted, more);
    if |Fresh({}, wanted)| <= MAX_COLUMNS {
      TakenSet({}, wanted, MAX_COLUMNS);
      assert ToSet(selected) == {} + ToSet(wanted);
      TakeTwice(Fresh({}, wanted), Fresh(ToSet(selected), more), MAX_COLUMNS);
    }
  }

  lemma PassSelects(selected: seq<string>, kind: Kind, columns: seq<string>, wanted: seq<string>)
    requires Selected(selected, wanted)
    ensures Selected(AddKind(selected, kind, columns), wanted + OfKind(kind, columns))
  {
    PassAddsFresh(selected, kind, columns);
    MoreSelected(selected, wanted, OfKind(kind, columns));
  }

  lemma OrderSelects(selected: seq<string>, column: string, wanted: seq<string>)
    requires Selected(selected, wanted)
    ensures Selected(Add(selected, column), wanted + [column])
  {
    MoreSelected(selected, wanted, [column]);
    assert [column][1..] == [];
    assert Fresh(ToSet(selected), [column]) == if column in selected then [] else [column];
  }

  // The listed columns are the first eight, each once, of: those named like keys, those with a
  // descriptive name, the first order column, and those that are no audit columns. Without any of
  // these, the first eight columns.
  lemma ListedExactly(columns: seq<string>, orderColumns: seq<string>)
    ensures var selected := UpTo(Fresh({}, Wanted(columns, orderColumns)), 8);
            ListingColumns(columns, orderColumns) == if selected == [] then UpTo(columns, 8) else selected
  {
    hide Selected, IsKind, AddKind, Add;
    var ids := AddKind([], IdLike, columns);
    NothingSelected();
    PassSelects([], IdLike, columns, []);
    assert [] + OfKind(IdLike, columns) == OfKind(IdLike, columns);
    var described := AddKind(ids, Descriptive, columns);
    PassSelects(ids, Descriptive, columns, OfKind(IdLike, columns));
    var wanted := OfKind(IdLike, columns) + OfKind(Descriptive, columns);
    var ordered := if orderColumns == [] then described else Add(described, orderColumns[0]);
    if orderColumns != [] {
      OrderSelects(described, orderColumns[0], wanted);
      wanted := wanted + [orderColumns[0]];
    }
    PassSelects(ordered, NotAudit, columns, wanted);
    assert wanted + OfKind(NotAudit, columns) == Wanted(columns, orderColumns);
    SelectedIs(AddKind(ordered, NotAudit, columns), wanted + OfKind(NotAudit, columns));
  }

  lemma NothingSelected()
    ensures Selected([], [])
  {
  }

  lemma SelectedIs(selected: seq<string>, wanted: seq<string>)
    requires Selected(selected, wanted)
    ensures selected == UpTo(Fresh({}, wanted), 8)
  {
  }

  /* ---- the columns that order ---- */

  predicate TimeLike(column: string) {
    Occurs(Lower(column), "date") || Occurs(Lower(column), "time") || Occurs(Lower(column), "_at")
  }

  lemma TimeLikeByName(column: string)
    ensures AnyOccurs(TIME_FRAGMENTS, Lower(column)) <==> TimeLike(column)
  {
    assert TIME_FRAGMENTS[0] == "date" && TIME_FRAGMENTS[1] == "time" && TIME_FRAGMENTS[2] == "_at";
  }

  function TimeColumns(columns: seq<string>): seq<string> {
    if columns == [] then []
    else (if TimeLike(columns[0]) then [columns[0]] else []) + TimeColumns(columns[1..])
  }

  // While fewer than four columns order, time-like ones are appended up to four.
  lemma {:induction false} TimeColumnsFill(ordered: seq<string>, columns: seq<string>)
    requires |ordered| < 4
    ensures WithTimeColumns(ordered, columns) ==
            ordered + UpTo(Fresh(ToSet(ordered), TimeColumns(columns)), 4 - |ordered|)
    decreases |columns|
  {
    hide TimeLike, AnyOccurs, TIME_FRAGMENTS, TimeColumns, Fresh, ToSet;
    if columns == [] {
      NoTimeColumns(ordered);
    } else {
      var column, rest := columns[0], columns[1..];
      TimeLikeByName(column);
      TimeColumnsFirst(ToSet(ordered), columns);
      SetWith(ordered, column);
      if column !in ordered && TimeLike(column) {
        var next := ordered + [column];
        if |next| < 4 {
          TimeColumnsFill(next, rest);
        }
      } else {
        TimeColumnsFill(ordered, rest);
      }
    }
  }

  lemma NoTimeColumns(ordered: seq<string>)
    ensures Fresh(ToSet(ordered), TimeColumns([])) == []
  {
  }

  lemma SetWith(ordered: seq<string>, column: string)
    ensures ToSet(ordered + [column]) == ToSet(ordered) + {column}
    ensures column in ToSet(ordered) <==> column in ordered
  {
  }

  lemma TimeColumnsFirst(seen: set<string>, columns: seq<string>)
    requires columns != []
    ensures Fresh(seen, TimeColumns(columns)) ==
            if TimeLike(columns[0]) && columns[0] !in seen
            then [columns[0]] + Fresh(seen + {columns[0]}, TimeColumns(columns[1..]))
            else Fresh(seen, TimeColumns(columns[1..]))
  {
    hide TimeLike, Fresh;
    var rest := TimeColumns(columns[1..]);
    FreshHead(seen, columns[0], rest);
    assert [] + rest == rest;
  }

  lemma FreshHead(seen: set<string>, item: string, rest: seq<string>)
    ensures Fresh(seen, [item] + rest) ==
            if item in seen then Fresh(seen, rest) else [item] + Fresh(seen + {item}, rest)
  {
    assert ([item] + rest)[1..] == rest;
  }

  // With four or more, at most the first column not among them is appended, if it is time-like.
  lemma {:induction false} TimeColumnsOverflow(ordered: seq<string>, columns: seq<string>)
    requires |ordered| >= 4
    ensures WithTimeColumns(ordered, columns) ==
            ordered + TimeColumns(UpTo(Fresh(ToSet(ordered), columns), 1))
    decreases |columns|
  {
    hide TimeLike, AnyOccurs;
    if columns != [] {
      TimeLikeByName(columns[0]);
      if columns[0] in ordered {
        TimeColumnsOverflow(ordered, columns[1..]);
      } else {
        assert UpTo(Fresh(ToSet(ordered), columns), 1) == [columns[0]];
        assert [columns[0]][1..] == [];
        assert TimeColumns([columns[0]]) == if TimeLike(columns[0]) then [columns[0]] else [];
      }
    }
  }

  // The last column with this lower-case name stands at i.
  ghost predicate LastNamed(columns: seq<string>, name: string, i: nat) {
    i < |columns| && Lower(columns[i]) == name && forall j :: i < j < |columns| ==> Lower(columns[j]) != name
  }

  // {column.lower(): column}.get(name)
  lemma {:induction false} LastWithLowerExactly(columns: seq<string>, name: string)
    ensures match LastWithLower(columns, name)
            case None => forall i :: 0 <= i < |columns| ==> Lower(columns[i]) != name
            case Some(column) => exists i: nat :: LastNamed(columns, name, i) && columns[i] == column
  {
    hide Lower;
    if columns != [] {
      var last := |columns| - 1;
      var init := columns[..last];
      assert forall j :: 0 <= j < last ==> columns[j] == init[j];
      LastWithLowerExactly(init, name);
      if Lower(columns[last]) == name {
        assert LastNamed(columns, name, last);
      } else if LastWithLower(init, name).Some? {
        var i: nat :| LastNamed(init, name, i) && init[i] == LastWithLower(init, name).value;
        assert LastNamed(columns, name, i);
      }
    }
  }

  /* ---- the filter ---- */

  // The first of the terms that some column is named by decides, else the first column whose name
  // contains any of them.
  lemma {:induction false} ExactColumnIsFirst(columns: seq<string>, terms: seq<string>)
    ensures match ExactColumn(columns, terms)
            case None => forall i :: 0 <= i < |terms| ==> LastWithLower(columns, terms[i]).None?
            case Some(column) =>
              exists i :: 0 <= i < |terms| && LastWithLower(columns, terms[i]) == Some(column)
                          && forall j :: 0 <= j < i ==> LastWithLower(columns, terms[j]).None?
  {
    hide LastWithLower;
    if terms != [] && LastWithLower(columns, terms[0]).None? {
      ExactColumnIsFirst(columns, terms[1..]);
      if ExactColumn(columns, terms[1..]).Some? {
        var i :| 0 <= i < |terms[1..]| && LastWithLower(columns, terms[1..][i]) == ExactColumn(columns, terms[1..])
                 && forall j :: 0 <= j < i ==> LastWithLower(columns, terms[1..][j]).None?;
        assert terms[1..][i] == terms[i + 1];
        assert forall j :: 0 < j < i + 1 ==> terms[j] == terms[1..][j - 1];
      } else {
        assert forall j :: 0 < j < |terms| ==> terms[j] == terms[1..][j - 1];
      }
    }
  }

  ghost predicate Containing(columns: seq<string>, terms: seq<string>, i: nat) {
    && i < |columns| && AnyOccurs(terms, Lower(columns[i]))
    && forall j :: 0 <= j < i ==> !AnyOccurs(terms, Lower(columns[j]))
  }

  lemma {:induction false} PartialColumnIsFirst(columns: seq<string>, terms: seq<string>)
    ensures match PartialColumn(columns, terms)
            case None => forall i :: 0 <= i < |columns| ==> !AnyOccurs(terms, Lower(columns[i]))
            case Some(column) => exists i: nat :: Containing(columns, terms, i) && columns[i] == column
  {
    hide AnyOccurs, Lower;
    if columns != [] {
      if AnyOccurs(terms, Lower(columns[0])) {
        assert Containing(columns, terms, 0);
      } else {
        var rest := columns[1..];
        PartialColumnIsFirst(rest, terms);
        assert forall j :: 0 < j < |columns| ==> columns[j] == rest[j - 1];
        if PartialColumn(rest, terms).Some? {
          var i: nat :| Containing(rest, terms, i) && rest[i] == PartialColumn(rest, terms).value;
          assert Containing(columns, terms, i + 1);
        }
      }
    }
  }

  // A rule that applies to a named column, and for a literal only if the question mentions it.
  ghost predicate RuleApplies(rule: Rule, query: string, columns: seq<string>) {
    var target := FindColumn(columns, rule.columnTerms);
    && rule.applies && target.Some? && target.value != ""
    && (rule.literal != OtherLiteral ==> Mentions(query, target.value))
  }

  // Such a rule yields the literal the question holds, or, without one, that the column is set, if so
  // configured; any other rule yields its configured comparison. A rule that does not apply, or has
  // nothing to compare with, yields nothing.
  lemma RuleYieldsExactly(rule: Rule, query: string, columns: seq<string>, signals: Signals)
    ensures RuleFilter(rule, query, columns, signals).Some? <==>
              && RuleApplies(rule, query, columns)
              && match rule.literal
                 case EmailLiteral => signals.email.Some? || rule.fallbackNotNull
                 case IntegerLiteral => signals.number.Some? || rule.fallbackNotNull
                 case OtherLiteral => rule.value.Some?
    ensures var f := RuleFilter(rule, query, columns, signals);
            f.Some? ==>
              && Some(f.value.column) == FindColumn(columns, rule.columnTerms)
              && match rule.literal
                 case EmailLiteral =>
                   if signals.email.Some? then f.value.EmailIs? && f.value.email == signals.email.value
                   else f.value.NotNull?
                 case IntegerLiteral =>
                   if signals.number.Some? then f.value.NumberIs? && f.value.digits == signals.number.value
                   else f.value.NotNull?
                 case OtherLiteral =>
                   f.value.Compare? && f.value.operator == rule.operator && Some(f.value.value) == rule.value
  {
    hide FindColumn, Mentions;
  }

  // The rule at i yields the filter, and no earlier rule yields any.
  ghost predicate FirstYield(
    rules: seq<Rule>, query: string, columns: seq<string>, signals: Signals, i: nat, filter: Filter)
  {
    && i < |rules| && RuleFilter(rules[i], query, columns, signals) == Some(filter)
    && forall j :: 0 <= j < i ==> RuleFilter(rules[j], query, columns, signals).None?
  }

  lemma LaterYield(
    rules: seq<Rule>, query: string, columns: seq<string>, signals: Signals, i: nat, filter: Filter)
    requires rules != [] && RuleFilter(rules[0], query, columns, signals).None?
    requires FirstYield(rules[1..], query, columns, signals, i, filter)
    ensures FirstYield(rules, query, columns, signals, i + 1, filter)
  {
    hide RuleFilter;
    forall j | 0 <= j < i + 1
      ensures RuleFilter(rules[j], query, columns, signals).None?
    {
      assert j > 0 ==> rules[j] == rules[1..][j - 1];
    }
  }

  lemma {:induction false} FilterIsFirstYield(
    rules: seq<Rule>, query: string, columns: seq<string>, signals: Signals)
    ensures match FilterOf(rules, query, columns, signals)
            case None => forall i :: 0 <= i < |rules| ==> RuleFilter(rules[i], query, columns, signals).None?
            case Some(filter) => exists i: nat :: FirstYield(rules, query, columns, signals, i, filter)
  {
    hide RuleFilter;
    if rules != [] {
      var first, rest := RuleFilter(rules[0], query, columns, signals), rules[1..];
      if first.Some? {
        assert FilterOf(rules, query, columns, signals) == Some(first.value);
        assert FirstYield(rules, query, columns, signals, 0, first.value);
      } else {
        FilterIsFirstYield(rest, query, columns, signals);
        assert forall j :: 0 < j < |rules| ==> rules[j] == rest[j - 1];
        var filter := FilterOf(rest, query, columns, signals);
        if filter.Some? {
          var i: nat :| FirstYield(rest, query, columns, signals, i, filter.value);
          LaterYield(rules, query, columns, signals, i, filter.value);
          assert FilterOf(rules, query, columns, signals) == filter;
        }
      }
    }
  }

  /* ---- the whole statement ---- */

  // Some column can order: one of the preferred names, or a time-like one.
  ghost predicate CanOrder(columns: seq<string>) {
    exists c :: c in columns && (Lower(c) in PREFERRED_ORDER || TimeLike(c))
  }

  lemma {:induction false} PreferredIsSomeOf(columns: seq<string>, names: seq<string>)
    requires "" !in names
    ensures Preferred(columns, names) != [] <==> exists c :: c in columns && Lower(c) in names
  {
    hide Lower;
    if names != [] {
      PreferredIsSomeOf(columns, names[1..]);
      LastWithLowerExactly(columns, names[0]);
      var found := LastWithLower(columns, names[0]);
      assert names[0] in names;
      if found.Some? {
        EmptyLower(found.value);
      }
      if c :| c in columns && Lower(c) in names && Lower(c) !in names[1..] {
        assert Lower(c) == names[0];
      }
    }
  }

  lemma EmptyLower(s: string)
    ensures Lower(s) == "" <==> s == ""
  {
  }

  lemma {:induction false} TimeColumnsAre(columns: seq<string>)
    ensures forall c :: c in TimeColumns(columns) <==> c in columns && TimeLike(c)
  {
    hide TimeLike;
    if columns != [] {
      TimeColumnsAre(columns[1..]);
    }
  }

  lemma NamesAreNotEmpty()
    ensures "" !in PREFERRED_ORDER
  {
  }

  lemma OrdersExactly(columns: seq<string>)
    ensures RecentOrderColumns(columns) != [] <==> CanOrder(columns)
  {
    hide TimeLike, Lower;
    NamesAreNotEmpty();
    var preferred := Preferred(columns, PREFERRED_ORDER);
    PreferredIsSomeOf(columns, PREFERRED_ORDER);
    if preferred == [] {
      TimeColumnsFill([], columns);
      TimeColumnsAre(columns);
      FreshItems({}, TimeColumns(columns));
    } else {
      OrderedStays(preferred, columns);
    }
  }

  lemma {:induction false} OrderedStays(ordered: seq<string>, columns: seq<string>)
    ensures ordered <= WithTimeColumns(ordered, columns)
    decreases |columns|
  {
    hide AnyOccurs;
    if columns != [] && columns[0] in ordered {
      OrderedStays(ordered, columns[1..]);
    } else if columns != [] {
      var next := if AnyOccurs(TIME_FRAGMENTS, Lower(columns[0])) then ordered + [columns[0]] else ordered;
      if |next| < 4 {
        OrderedStays(next, columns[1..]);
      }
    }
  }

  // The columns of a named table are its own, when it has any and its name is not repeated.
  lemma {:induction false} OwnColumns(schema: Schema, i: nat)
    requires i < |schema| && forall j :: 0 <= j < i ==> schema[j].0 != schema[i].0
    ensures ColumnsUnder(schema, schema[i].0) == schema[i].1
    ensures schema[i].1 != [] ==> ColumnsOf(schema, schema[i].0) == schema[i].1
  {
    if i > 0 {
      OwnColumns(schema[1..], i - 1);
    }
  }

  predicate RecentStyle(signals: Signals) {
    signals.count.Some? || signals.recentTerm
  }

  // Between one and fifty.
  predicate IsClamped(n: int, limit: nat) {
    if n < 1 then limit == 1 else if n > 50 then limit == 50 else limit == n
  }

  // A statement is built if and only if the question names a table with columns and either asks for
  // recent rows and some column can order them, or some rule yields a filter.
  lemma BuiltExactly(query: string, schema: Schema, topK: int, rules: seq<Rule>, signals: Signals)
    ensures Build(query, schema, topK, rules, signals).Some? <==>
              && signals.table.Some? && signals.table.value < |schema|
              && var columns := ColumnsOf(schema, schema[signals.table.value].0);
              && columns != []
              && if RecentStyle(signals) then CanOrder(columns)
                 else exists i :: 0 <= i < |rules| && RuleFilter(rules[i], query, columns, signals).Some?
  {
    hide RecentOrderColumns, ListingColumns, ColumnsOf, FilterOf, DeterministicLimit, RuleFilter, CanOrder;
    if signals.table.Some? && signals.table.value < |schema| {
      var columns := ColumnsOf(schema, schema[signals.table.value].0);
      var recent := RecentStyle(signals);
      OrdersExactly(columns);
      FilterIsFirstYield(rules, query, columns, signals);
      SomethingIsListed(columns, if recent then RecentOrderColumns(columns) else []);
    }
  }

  lemma SomethingIsListed(columns: seq<string>, orderColumns: seq<string>)
    ensures columns != [] ==> ListingColumns(columns, orderColumns) != []
  {
    hide Wanted, Fresh;
    ListedExactly(columns, orderColumns);
  }

  // It reads from the table the question names, orders exactly when recent rows are asked for, filters
  // by the first rule that yields a filter, and is limited to the number the question gives, or else
  // to one row for a table named in the singular, or else to top_k, between one and fifty.
  lemma BuiltAsAsked(query: string, schema: Schema, topK: int, rules: seq<Rule>, signals: Signals)
    requires Build(query, schema, topK, rules, signals).Some?
    ensures var q := Build(query, schema, topK, rules, signals).value;
            && signals.table.value < |schema| && q.table == schema[signals.table.value].0
            && var columns := ColumnsOf(schema, q.table);
            && (q.selection.OrderBy? <==> RecentStyle(signals))
            && (match q.selection
                case OrderBy(order) => order == RecentOrderColumns(columns)
                case Where(filter) => exists i: nat :: FirstYield(rules, query, columns, signals, i, filter))
            && q.columns == ListingColumns(columns, if RecentStyle(signals) then RecentOrderColumns(columns) else [])
            && (if signals.count.Some? then IsClamped(signals.count.value, q.limit)
                else if signals.singularTable then q.limit == 1
                else IsClamped(topK, q.limit))
  {
    hide RecentOrderColumns, ListingColumns, ColumnsOf, FilterOf, RuleFilter;
    var columns := ColumnsOf(schema, schema[signals.table.value].0);
    FilterIsFirstYield(rules, query, columns, signals);
  }
}
