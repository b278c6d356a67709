/** The template SQL builder for simple intents (generation/sql_generator.py, build_deterministic_sql). */
module DeterministicSql {
  import opened Text
  import opened SqlText

  /* ---- statements ---- */

  datatype Filter =
    | NotNull(column: string)
    | NumberIs(column: string, digits: string)
    | EmailIs(column: string, email: string)
    | Compare(column: string, operator: string, value: string)

  datatype Selection = OrderBy(columns: seq<string>) | Where(filter: Filter)

  datatype Query = Query(columns: seq<string>, table: string, selection: Selection, limit: nat)

  /* ---- printing ---- */

  function PrintColumns(columns: seq<string>, suffix: string): string {
    if columns == [] then ""
    else if |columns| == 1 then QuoteIdentifier(columns[0]) + suffix
    else QuoteIdentifier(columns[0]) + (suffix + ", " + PrintColumns(columns[1..], suffix))
  }

  function PrintFilter(f: Filter): string {
    match f
    case NotNull(column) => QuoteIdentifier(column) + " IS NOT NULL"
    case NumberIs(column, digits) => QuoteIdentifier(column) + (" = " + digits)
    case EmailIs(column, email) => QuoteIdentifier(column) + (" = '" + email + "'")
    case Compare(column, operator, value) =>
      QuoteIdentifier(column) + (" " + operator + " " + Quoted(value, '\''))
  }

  function PrintSelection(s: Selection): string {
    match s
    case OrderBy(columns) => " ORDER BY " + PrintColumns(columns, " DESC")
    case Where(filter) => " WHERE " + PrintFilter(filter)
  }

  function Print(q: Query): string {
    "SELECT " + (PrintColumns(q.columns, "") + (" FROM " + (QuoteIdentifier(q.table)
      + (PrintSelection(q.selection) + (" LIMIT " + Decimal(q.limit))))))
  }

  /* ---- column choice ---- */

  const PREFERRED_ORDER: seq<string> :=
    ["created_at", "updated_at", "date", "modified_at", "last_updated", "id"]

  const TIME_FRAGMENTS: seq<string> := ["date", "time", "_at"]

  const DESCRIPTIVE_FRAGMENTS: seq<string> :=
    ["name", "title", "subject", "status", "type", "number", "no", "code", "amount", "total"]

  const AUDIT_COLUMNS: set<string> :=
    {"created_by", "created_at", "creator", "creator_id", "last_updated", "modified_at", "modified_by",
     "updated_at", "updated_by"}

  function AnyOccurs(fragments: seq<string>, text: string): bool {
    exists i :: 0 <= i < |fragments| && Occurs(text, fragments[i])
  }

  // {column.lower(): column}.get(name): the last column wins.
  function LastWithLower(columns: seq<string>, name: string): (r: Option<string>)
    ensures r.Some? ==> r.value in columns && Lower(r.value) == name
  {
    if columns == [] then None
    else
      var last := columns[|columns| - 1];
      if Lower(last) == name then Some(last) else LastWithLower(columns[..|columns| - 1], name)
  }

  // Preferred columns present in the table, in order of preference.
  function Preferred(columns: seq<string>, names: seq<string>): (r: seq<string>)
    ensures forall c :: c in r ==> c in columns && Lower(c) in names
  {
    if names == [] then []
    else
      var column := LastWithLower(columns, names[0]);
      (if column.Some? && column.value != "" then [column.value] else []) + Preferred(columns, names[1..])
  }

  // Adds time-like columns until four order columns are reached.
  function WithTimeColumns(ordered: seq<string>, columns: seq<string>): seq<string>
    decreases |columns|
  {
    if columns == [] then ordered
    else if columns[0] in ordered then WithTimeColumns(ordered, columns[1..])
    else
      var next := if AnyOccurs(TIME_FRAGMENTS, Lower(columns[0])) then ordered + [columns[0]] else ordered;
      if |next| >= 4 then next else WithTimeColumns(next, columns[1..])
  }

  function RecentOrderColumns(columns: seq<string>): seq<string> {
    WithTimeColumns(Preferred(columns, PREFERRED_ORDER), columns)
  }

  method BestRecentOrderColumns(columns: seq<string>) returns (ordered: seq<string>)
    ensures ordered == RecentOrderColumns(columns)
  {
    ordered := Preferred(columns, PREFERRED_ORDER);
    var i := 0;
    while i < |columns|
      invariant 0 <= i <= |columns|
      invariant WithTimeColumns(ordered, columns[i..]) == RecentOrderColumns(columns)
    {
      var column := columns[i];
      assert columns[i..][1..] == columns[i + 1..];
      i := i + 1;
      if column in ordered {
        continue;
      }
      if AnyOccurs(TIME_FRAGMENTS, Lower(column)) {
        ordered := ordered + [column];
      }
      if |ordered| >= 4 {
        break;
      }
    }
  }

  // The three kinds of column the listing picks, in turn.
  datatype Kind = IdLike | Descriptive | NotAudit

  predicate EndsWith(s: string, suffix: string) {
    |s| >= |suffix| && s[|s| - |suffix|..] == suffix
  }

  predicate IsKind(kind: Kind, column: string) {
    match kind
    case IdLike => Lower(column) == "id" || EndsWith(Lower(column), "_id")
    case Descriptive => AnyOccurs(DESCRIPTIVE_FRAGMENTS, Lower(column))
    case NotAudit => Lower(column) !in AUDIT_COLUMNS
  }

  const MAX_COLUMNS: nat := 8

  function Add(selected: seq<string>, column: string): seq<string> {
    if column !in selected && |selected| < MAX_COLUMNS then selected + [column] else selected
  }

  function AddKind(selected: seq<string>, kind: Kind, columns: seq<string>): seq<string>
    decreases |columns|
  {
    if columns == [] then selected
    else AddKind(if IsKind(kind, columns[0]) then Add(selected, columns[0]) else selected, kind, columns[1..])
  }

  method AddColumns(selected: seq<string>, kind: Kind, columns: seq<string>) returns (more: seq<string>)
    ensures more == AddKind(selected, kind, columns)
  {
    more := selected;
    var i := 0;
    while i < |columns|
      invariant 0 <= i <= |columns|
      invariant AddKind(more, kind, columns[i..]) == AddKind(selected, kind, columns)
    {
      assert columns[i..][1..] == columns[i + 1..];
      if IsKind(kind, columns[i]) {
        more := Add(more, columns[i]);
      }
      i := i + 1;
    }
  }

  function FirstColumns(columns: seq<string>): seq<string> {
    if |columns| <= MAX_COLUMNS then columns else columns[..MAX_COLUMNS]
  }

  function ListingColumns(columns: seq<string>, orderColumns: seq<string>): seq<string> {
    var ids := AddKind([], IdLike, columns);
    var described := AddKind(ids, Descriptive, columns);
    var ordered := if orderColumns == [] then described else Add(described, orderColumns[0]);
    var selected := AddKind(ordered, NotAudit, columns);
    FirstColumns(if selected == [] then columns else selected)
  }

  method SelectListingColumns(columns: seq<string>, orderColumns: seq<string>) returns (selected: seq<string>)
    ensures selected == ListingColumns(columns, orderColumns)
  {
    selected := AddColumns([], IdLike, columns);
    selected := AddColumns(selected, Descriptive, columns);
    if orderColumns != [] {
      selected := Add(selected, orderColumns[0]);
    }
    selected := AddColumns(selected, NotAudit, columns);
    selected := FirstColumns(if selected == [] then columns else selected);
  }

  /* ---- filters and limits ---- */

  datatype Literal = EmailLiteral | IntegerLiteral | OtherLiteral

  // One configured rule; `applies` is the outcome of matching its query terms.
  datatype Rule = Rule(
    applies: bool,
    columnTerms: seq<string>,
    literal: Literal,
    fallbackNotNull: bool,
    operator: string,
    value: Option<string>)

  // What the regular expressions and alias lookups find in the question.
  datatype Signals = Signals(
    table: Option<nat>,      // index of the explicitly mentioned table
    count: Option<nat>,      // a number of one to three digits
    recentTerm: bool,
    singularTable: bool,
    email: Option<string>,
    number: Option<string>)

  function ExactColumn(columns: seq<string>, terms: seq<string>): (r: Option<string>)
    ensures r.Some? ==> r.value in columns
  {
    if terms == [] then None
    else
      var column := LastWithLower(columns, terms[0]);
      if column.Some? then column else ExactColumn(columns, terms[1..])
  }

  function PartialColumn(columns: seq<string>, terms: seq<string>): (r: Option<string>)
    ensures r.Some? ==> r.value in columns
  {
    if columns == [] then None
    else if AnyOccurs(terms, Lower(columns[0])) then Some(columns[0])
    else PartialColumn(columns[1..], terms)
  }

  function FindColumn(columns: seq<string>, terms: seq<string>): (r: Option<string>)
    ensures r.Some? ==> r.value in columns
  {
    var exact := ExactColumn(columns, terms);
    if exact.Some? then exact else PartialColumn(columns, terms)
  }

  function Spaced(s: string): string {
    if s == [] then [] else [if s[0] == '_' then ' ' else s[0]] + Spaced(s[1..])
  }

  predicate Mentions(query: string, column: string) {
    Occurs(Lower(query), Lower(column)) || Occurs(Lower(query), Spaced(Lower(column)))
  }

  // The filter a single rule yields, if any.
  function RuleFilter(rule: Rule, query: string, columns: seq<string>, signals: Signals): (r: Option<Filter>)
    ensures r.Some? ==> r.value.column in columns
  {
    var target := FindColumn(columns, rule.columnTerms);
    if !rule.applies || target.None? || target.value == "" then None
    else
      var column := target.value;
      var fallback := if rule.fallbackNotNull then Some(NotNull(column)) else None;
      match rule.literal
      case EmailLiteral =>
        if !Mentions(query, column) then None
        else if signals.email.Some? then Some(EmailIs(column, signals.email.value)) else fallback
      case IntegerLiteral =>
        if !Mentions(query, column) then None
        else if signals.number.Some? then Some(NumberIs(column, signals.number.value)) else fallback
      case OtherLiteral =>
        if rule.value.None? then None else Some(Compare(column, rule.operator, rule.value.value))
  }

  // The first rule that yields a filter decides.
  function FilterOf(rules: seq<Rule>, query: string, columns: seq<string>, signals: Signals): (r: Option<Filter>)
    ensures r.Some? ==> r.value.column in columns
  {
    if rules == [] then None
    else
      var first := RuleFilter(rules[0], query, columns, signals);
      if first.Some? then first else FilterOf(rules[1..], query, columns, signals)
  }

  method BuildFilterClause(rules: seq<Rule>, query: string, columns: seq<string>, signals: Signals)
    returns (filter: Option<Filter>)
    ensures filter == FilterOf(rules, query, columns, signals)
  {
    var i := 0;
    while i < |rules|
      invariant 0 <= i <= |rules|
      invariant FilterOf(rules[i..], query, columns, signals) == FilterOf(rules, query, columns, signals)
    {
      var found := RuleFilter(rules[i], query, columns, signals);
      assert rules[i..][1..] == rules[i + 1..];
      if found.Some? {
        return found;
      }
      i := i + 1;
    }
    filter := None;
  }

  function Clamp(n: int): (r: nat)
    ensures 1 <= r <= 50
  {
    var capped := if n < 50 then n else 50;
    if capped < 1 then 1 else capped
  }

  function DeterministicLimit(signals: Signals, topK: int): (limit: nat)
    ensures 1 <= limit <= 50
  {
    if signals.count.Some? then Clamp(signals.count.value)
    else if signals.singularTable then 1
    else Clamp(topK)
  }

  /* ---- the builder ---- */

  // allowed_columns, in insertion order with distinct table names.
  type Schema = seq<(string, seq<string>)>

  function ColumnsUnder(schema: Schema, table: string): seq<string> {
    if schema == [] then []
    else if schema[0].0 == table then schema[0].1
    else ColumnsUnder(schema[1..], table)
  }

  function ColumnsOf(schema: Schema, table: string): seq<string> {
    var columns := ColumnsUnder(schema, table);
    if columns == [] then ColumnsUnder(schema, Lower(table)) else columns
  }

  function Build(query: string, schema: Schema, topK: int, rules: seq<Rule>, signals: Signals): Option<Query> {
    if signals.table.None? || signals.table.value >= |schema| then None
    else
      var table := schema[signals.table.value].0;
      var columns := ColumnsOf(schema, table);
      if columns == [] then None
      else
        var recent := signals.count.Some? || signals.recentTerm;
        var orderColumns := RecentOrderColumns(columns);
        var selected := ListingColumns(columns, if recent then orderColumns else []);
        var limit := DeterministicLimit(signals, topK);
        var filter := FilterOf(rules, query, columns, signals);
        if selected == [] then None
        else if recent then
          if orderColumns == [] then None else Some(Query(selected, table, OrderBy(orderColumns), limit))
        else if filter.None? then None
        else Some(Query(selected, table, Where(filter.value), limit))
  }

  /* ---- well-formedness ---- */

  ghost predicate Distinct(s: seq<string>) {
    forall i, j :: 0 <= i < j < |s| ==> s[i] != s[j]
  }

  lemma {:induction false} AddKindFacts(selected: seq<string>, kind: Kind, columns: seq<string>, all: seq<string>)
    requires Distinct(selected) && |selected| <= MAX_COLUMNS
    requires forall c :: c in selected || c in columns ==> c in all
    ensures var r := AddKind(selected, kind, columns);
            Distinct(r) && |r| <= MAX_COLUMNS && forall c :: c in r ==> c in all
    decreases |columns|
  {
    if columns != [] {
      var next := if IsKind(kind, columns[0]) then Add(selected, columns[0]) else selected;
      assert columns[0] in columns;
      AddKindFacts(next, kind, columns[1..], all);
    }
  }

  lemma ListingColumnsFacts(columns: seq<string>, orderColumns: seq<string>)
    requires Distinct(columns) && forall c :: c in orderColumns ==> c in columns
    ensures var r := ListingColumns(columns, orderColumns);
            && Distinct(r) && |r| <= 8
            && (columns != [] ==> r != [])
            && forall c :: c in r ==> c in columns
  {
    var ids := AddKind([], IdLike, columns);
    AddKindFacts([], IdLike, columns, columns);
    var described := AddKind(ids, Descriptive, columns);
    AddKindFacts(ids, Descriptive, columns, columns);
    var ordered := if orderColumns == [] then described else Add(described, orderColumns[0]);
    assert forall c :: c in ordered ==> c in columns;
    AddKindFacts(ordered, NotAudit, columns, columns);
  }

  lemma {:induction false} PreferredIsDistinct(columns: seq<string>, names: seq<string>)
    requires Distinct(names)
    ensures Distinct(Preferred(columns, names))
  {
    if names != [] {
      PreferredIsDistinct(columns, names[1..]);
      assert forall n :: n in names[1..] ==> n != names[0];
    }
  }

  lemma {:induction false} WithTimeColumnsFacts(ordered: seq<string>, columns: seq<string>, all: seq<string>)
    requires Distinct(ordered)
    requires forall c :: c in ordered || c in columns ==> c in all
    ensures var r := WithTimeColumns(ordered, columns);
            Distinct(r) && ordered <= r && forall c :: c in r ==> c in all
    decreases |columns|
  {
    if columns != [] {
      assert columns[0] in columns;
      if columns[0] in ordered {
        WithTimeColumnsFacts(ordered, columns[1..], all);
      } else {
        var next := if AnyOccurs(TIME_FRAGMENTS, Lower(columns[0])) then ordered + [columns[0]] else ordered;
        if |next| < 4 {
          WithTimeColumnsFacts(next, columns[1..], all);
        }
      }
    }
  }

  lemma OrderColumnsFacts(columns: seq<string>)
    ensures var r := RecentOrderColumns(columns);
            Distinct(r) && forall c :: c in r ==> c in columns
  {
    PreferredNamesAreDistinct();
    PreferredIsDistinct(columns, PREFERRED_ORDER);
    WithTimeColumnsFacts(Preferred(columns, PREFERRED_ORDER), columns, columns);
  }

  lemma PreferredNamesAreDistinct()
    ensures Distinct(PREFERRED_ORDER)
  {
    assert |PREFERRED_ORDER[0]| == 10 && |PREFERRED_ORDER[1]| == 10 && PREFERRED_ORDER[0][0] != PREFERRED_ORDER[1][0];
    assert |PREFERRED_ORDER[2]| == 4 && |PREFERRED_ORDER[3]| == 11;
    assert |PREFERRED_ORDER[4]| == 12 && |PREFERRED_ORDER[5]| == 2;
  }

  ghost predicate OneTable(schema: Schema, table: string) {
    exists i :: 0 <= i < |schema| && schema[i].0 == table
  }

  function SelectionColumns(s: Selection): seq<string> {
    match s
    case OrderBy(columns) => columns
    case Where(filter) => [filter.column]
  }

  // One table of the schema, one to eight distinct columns of it, ordered or filtered by columns of
  // it only, and a limit in 1..50.
  ghost predicate WellFormed(schema: Schema, q: Query) {
    var columns := ColumnsOf(schema, q.table);
    && OneTable(schema, q.table)
    && Distinct(q.columns) && 1 <= |q.columns| <= 8
    && (forall c :: c in q.columns ==> c in columns)
    && SelectionColumns(q.selection) != []
    && (forall c :: c in SelectionColumns(q.selection) ==> c in columns)
    && (q.selection.OrderBy? ==> Distinct(q.selection.columns))
    && 1 <= q.limit <= 50
  }

  // How the parts of a built statement were chosen.
  ghost predicate Chosen(schema: Schema, q: Query) {
    var columns := ColumnsOf(schema, q.table);
    && OneTable(schema, q.table)
    && columns != []
    && (q.columns == ListingColumns(columns, []) || q.columns == ListingColumns(columns, RecentOrderColumns(columns)))
    && (match q.selection
        case OrderBy(order) => order != [] && order == RecentOrderColumns(columns)
        case Where(filter) => filter.column in columns)
    && 1 <= q.limit <= 50
  }

  lemma BuiltQueryIsChosen(query: string, schema: Schema, topK: int, rules: seq<Rule>, signals: Signals)
    ensures var q := Build(query, schema, topK, rules, signals);
            q.Some? ==> Chosen(schema, q.value)
  {
    hide RecentOrderColumns, ListingColumns, ColumnsOf, FilterOf, DeterministicLimit;
  }

  lemma ChosenIsWellFormed(schema: Schema, q: Query)
    requires Chosen(schema, q) && Distinct(ColumnsOf(schema, q.table))
    ensures WellFormed(schema, q)
  {
    var columns := ColumnsOf(schema, q.table);
    OrderColumnsFacts(columns);
    ListingColumnsFacts(columns, RecentOrderColumns(columns));
    ListingColumnsFacts(columns, []);
  }

  // Whatever the question and the schema, anything built is well formed.
  lemma BuiltQueryIsWellFormed(query: string, schema: Schema, topK: int, rules: seq<Rule>, signals: Signals)
    requires forall i :: 0 <= i < |schema| ==> Distinct(schema[i].1)
    ensures var q := Build(query, schema, topK, rules, signals);
            q.Some? ==> WellFormed(schema, q.value)
  {
    BuiltQueryIsChosen(query, schema, topK, rules, signals);
    var built := Build(query, schema, topK, rules, signals);
    if built.Some? {
      ColumnsUnderIsListed(schema, built.value.table);
      ColumnsUnderIsListed(schema, Lower(built.value.table));
      ChosenIsWellFormed(schema, built.value);
    }
  }

  lemma {:induction false} ColumnsUnderIsListed(schema: Schema, table: string)
    requires forall i :: 0 <= i < |schema| ==> Distinct(schema[i].1)
    ensures Distinct(ColumnsUnder(schema, table))
  {
    if schema != [] && schema[0].0 != table {
      ColumnsUnderIsListed(schema[1..], table);
    }
  }

  /* ---- reading a printed statement back ---- */

  predicate StartsWith(s: string, word: string) {
    word <= s
  }

  // Columns separated by ", ", each followed by the suffix.
  function ReadColumns(s: string, suffix: string): (r: Option<(seq<string>, string)>)
    decreases |s|
  {
    match ReadIdentifier(s)
    case None => None
    case Some((column, rest)) =>
      if !StartsWith(rest, suffix) then None
      else if StartsWith(rest[|suffix|..], ", ") then
        match ReadColumns(rest[|suffix|..][2..], suffix)
        case None => None
        case Some((columns, after)) => Some(([column] + columns, after))
      else Some(([column], rest[|suffix|..]))
  }

  // The operator ends where a quote or a digit begins.
  function OperatorLength(s: string): (n: nat)
    ensures n <= |s|
  {
    if s == [] || s[0] == '\'' || IsDigit(s[0]) then 0 else 1 + OperatorLength(s[1..])
  }

  function DigitsLength(s: string): (n: nat)
    ensures n <= |s|
  {
    if s == [] || !IsDigit(s[0]) then 0 else 1 + DigitsLength(s[1..])
  }

  // ` operator 'value'` or ` = digits`, after the column.
  function ReadComparison(column: string, s: string): Option<(Filter, string)> {
    var n := OperatorLength(s);
    if n < 3 || n == |s| || s[0] != ' ' || s[n - 1] != ' ' then None
    else
      var operator, rest := s[1..n - 1], s[n..];
      if rest[0] == '\'' then
        match ReadQuoted(rest[1..], '\'')
        case None => None
        case Some((value, after)) => Some((Compare(column, operator, value), after))
      else if operator == "=" then
        var d := DigitsLength(rest);
        Some((NumberIs(column, rest[..d]), rest[d..]))
      else None
  }

  function ReadFilter(s: string): Option<(Filter, string)> {
    match ReadIdentifier(s)
    case None => None
    case Some((column, rest)) =>
      if StartsWith(rest, " IS NOT NULL") then Some((NotNull(column), rest[12..]))
      else ReadComparison(column, rest)
  }

  function ReadSelection(s: string): Option<(Selection, string)> {
    if StartsWith(s, " ORDER BY ") then
      match ReadColumns(s[10..], " DESC")
      case None => None
      case Some((columns, rest)) => Some((OrderBy(columns), rest))
    else if StartsWith(s, " WHERE ") then
      match ReadFilter(s[7..])
      case None => None
      case Some((filter, rest)) => Some((Where(filter), rest))
    else None
  }

  function ReadLimit(s: string): Option<nat> {
    if StartsWith(s, " LIMIT ") && AllDigits(s[7..]) then Some(NumeralValue(s[7..])) else None
  }

  function ReadFrom(s: string): Option<(string, Selection, nat)> {
    if !StartsWith(s, " FROM ") then None
    else
      match ReadIdentifier(s[6..])
      case None => None
      case Some((table, rest)) =>
        match ReadSelection(rest)
        case None => None
        case Some((selection, after)) =>
          match ReadLimit(after)
          case None => None
          case Some(limit) => Some((table, selection, limit))
  }

  function Read(s: string): Option<Query> {
    if !StartsWith(s, "SELECT ") then None
    else
      match ReadColumns(s[7..], "")
      case None => None
      case Some((columns, rest)) =>
        match ReadFrom(rest)
        case None => None
        case Some((table, selection, limit)) => Some(Query(columns, table, selection, limit))
  }

  // Names that survive printing, see IdentifierReadsBackExactly.
  ghost predicate Readable(name: string) {
    !PlainWithNewline(name)
  }

  ghost predicate AllReadable(names: seq<string>) {
    forall i :: 0 <= i < |names| ==> Readable(names[i])
  }

  // Configured operators: not empty, no blank at either end, no quotes or digits inside.
  ghost predicate OperatorOk(operator: string) {
    && operator != [] && !StartsWith(" " + operator + " '", " IS NOT NULL")
    && forall i :: 0 <= i < |operator| ==> operator[i] != '\'' && !IsDigit(operator[i])
  }

  // What the literal patterns guarantee: an e-mail match holds no quote, a number is digits.
  ghost predicate FilterOk(f: Filter) {
    match f
    case NotNull(column) => Readable(column)
    case NumberIs(column, digits) => Readable(column) && digits != [] && AllDigits(digits)
    case EmailIs(column, email) => Readable(column) && '\'' !in email
    case Compare(column, operator, _) => Readable(column) && OperatorOk(operator)
  }

  // An e-mail filter is printed like, and so read as, a comparison with =.
  function AsRead(f: Filter): Filter {
    if f.EmailIs? then Compare(f.column, "=", f.email) else f
  }

  function SelectionAsRead(s: Selection): Selection {
    match s
    case OrderBy(_) => s
    case Where(filter) => Where(AsRead(filter))
  }

  lemma StartsWithPrefix(word: string, rest: string)
    ensures StartsWith(word + rest, word) && (word + rest)[|word|..] == rest
  {
  }

  // What may follow a column list: a blank, so that no name, backtick or comma continues it.
  predicate BlankAhead(rest: string) {
    rest != [] && rest[0] == ' '
  }

  lemma LastColumnReadsBack(text: string, column: string, suffix: string, rest: string)
    requires text == QuoteIdentifier(column) + (suffix + rest)
    requires Readable(column) && BlankAhead(rest) && (suffix == "" || BlankAhead(suffix))
    ensures ReadColumns(text, suffix) == Some(([column], rest))
  {
    IdentifierReadsBackExactly(column, suffix + rest);
    StartsWithPrefix(suffix, rest);
    assert !StartsWith(rest, ", ");
  }

  lemma NextColumnReadsBack(text: string, column: string, suffix: string, tail: string, columns: seq<string>,
                            after: string)
    requires text == QuoteIdentifier(column) + (suffix + (", " + tail))
    requires Readable(column) && (suffix == "" || BlankAhead(suffix))
    requires ReadColumns(tail, suffix) == Some((columns, after))
    ensures ReadColumns(text, suffix) == Some(([column] + columns, after))
  {
    IdentifierReadsBackExactly(column, suffix + (", " + tail));
    StartsWithPrefix(suffix, ", " + tail);
    StartsWithPrefix(", ", tail);
  }

  lemma PrintedFirst(columns: seq<string>, suffix: string, rest: string)
    requires columns != []
    ensures PrintColumns(columns, suffix) + rest ==
            QuoteIdentifier(columns[0]) +
              (suffix + (if |columns| == 1 then rest else ", " + (PrintColumns(columns[1..], suffix) + rest)))
  {
  }

  lemma {:induction false} ColumnsReadBack(columns: seq<string>, suffix: string, rest: string)
    requires columns != [] && AllReadable(columns) && BlankAhead(rest)
    requires suffix == "" || BlankAhead(suffix)
    ensures ReadColumns(PrintColumns(columns, suffix) + rest, suffix) == Some((columns, rest))
    decreases |columns|
  {
    hide ReadColumns, QuoteIdentifier, Readable, PrintColumns;
    var text := PrintColumns(columns, suffix) + rest;
    PrintedFirst(columns, suffix, rest);
    if |columns| == 1 {
      LastColumnReadsBack(text, columns[0], suffix, rest);
      assert columns == [columns[0]];
    } else {
      ColumnsReadBack(columns[1..], suffix, rest);
      NextColumnReadsBack(text, columns[0], suffix, PrintColumns(columns[1..], suffix) + rest, columns[1..], rest);
      assert [columns[0]] + columns[1..] == columns;
    }
  }

  lemma {:induction false} OperatorLengthOf(operator: string, rest: string)
    requires forall i :: 0 <= i < |operator| ==> operator[i] != '\'' && !IsDigit(operator[i])
    requires rest != [] && (rest[0] == '\'' || IsDigit(rest[0]))
    ensures OperatorLength(operator + rest) == |operator|
  {
    if operator == [] {
      assert operator + rest == rest;
    } else {
      OperatorLengthOf(operator[1..], rest);
      assert (operator + rest)[1..] == operator[1..] + rest;
    }
  }

  lemma {:induction false} DigitsLengthOf(digits: string, rest: string)
    requires forall i :: 0 <= i < |digits| ==> IsDigit(digits[i])
    requires BlankAhead(rest)
    ensures DigitsLength(digits + rest) == |digits|
  {
    if digits == [] {
      assert digits + rest == rest;
    } else {
      DigitsLengthOf(digits[1..], rest);
      assert (digits + rest)[1..] == digits[1..] + rest;
    }
  }

  lemma ComparisonReadsBack(column: string, operator: string, value: string, rest: string)
    requires operator != [] && BlankAhead(rest)
    requires forall i :: 0 <= i < |operator| ==> operator[i] != '\'' && !IsDigit(operator[i])
    ensures ReadComparison(column, " " + operator + " " + (Quoted(value, '\'') + rest))
            == Some((Compare(column, operator, value), rest))
  {
    var lead, literal := " " + operator + " ", Quoted(value, '\'') + rest;
    LiteralReadsBack(value, rest);
    OperatorLengthOf(lead, literal);
    var s := lead + literal;
    assert s[1..|lead| - 1] == operator && s[|lead|..] == literal;
  }

  lemma NumberReadsBack(column: string, digits: string, rest: string)
    requires digits != [] && AllDigits(digits) && BlankAhead(rest)
    ensures ReadComparison(column, " = " + (digits + rest)) == Some((NumberIs(column, digits), rest))
  {
    var lead, number := " = ", digits + rest;
    assert number[0] == digits[0] && digits[0] in digits;
    OperatorLengthOf(lead, number);
    DigitsLengthOf(digits, rest);
    var s := lead + number;
    assert s[1..2] == "=" && s[3..] == number;
    assert number[..|digits|] == digits && number[|digits|..] == rest;
  }

  // After the column, a filter goes on with a text that reads back to the rest of it.
  lemma FilterFrom(f: Filter, column: string, after: string, read: Filter, rest: string)
    requires Readable(column) && Follows(after)
    requires PrintFilter(f) + rest == QuoteIdentifier(column) + after
    requires !StartsWith(after, " IS NOT NULL") && ReadComparison(column, after) == Some((read, rest))
    ensures ReadFilter(PrintFilter(f) + rest) == Some((read, rest))
  {
    IdentifierReadsBackExactly(column, after);
  }

  lemma NotNullReadsBack(column: string, rest: string)
    requires Readable(column)
    ensures ReadFilter(PrintFilter(NotNull(column)) + rest) == Some((NotNull(column), rest))
  {
    var after := " IS NOT NULL" + rest;
    assert PrintFilter(NotNull(column)) + rest == QuoteIdentifier(column) + after;
    IdentifierReadsBackExactly(column, after);
    StartsWithPrefix(" IS NOT NULL", rest);
  }

  lemma NumberIsReadsBack(column: string, digits: string, rest: string)
    requires FilterOk(NumberIs(column, digits)) && BlankAhead(rest)
    ensures ReadFilter(PrintFilter(NumberIs(column, digits)) + rest) == Some((NumberIs(column, digits), rest))
  {
    var after := " = " + (digits + rest);
    assert PrintFilter(NumberIs(column, digits)) + rest == QuoteIdentifier(column) + after;
    assert after[1] == '=' && " IS NOT NULL"[1] == 'I';
    NumberReadsBack(column, digits, rest);
    FilterFrom(NumberIs(column, digits), column, after, NumberIs(column, digits), rest);
  }

  lemma CompareReadsBack(column: string, operator: string, value: string, rest: string)
    requires FilterOk(Compare(column, operator, value)) && BlankAhead(rest)
    ensures ReadFilter(PrintFilter(Compare(column, operator, value)) + rest)
            == Some((Compare(column, operator, value), rest))
  {
    var after := " " + operator + " " + (Quoted(value, '\'') + rest);
    assert PrintFilter(Compare(column, operator, value)) + rest == QuoteIdentifier(column) + after;
    OperatorIsNotNull(operator, value, rest);
    ComparisonReadsBack(column, operator, value, rest);
    FilterFrom(Compare(column, operator, value), column, after, Compare(column, operator, value), rest);
  }

  // An e-mail is printed without doubling, which makes no difference to a text without quotes.
  lemma EmailPrintsAsComparison(column: string, email: string)
    requires '\'' !in email
    ensures PrintFilter(EmailIs(column, email)) == PrintFilter(Compare(column, "=", email))
  {
    DoubledWithoutQuotes(email, '\'');
    assert " = '" + email + "'" == " " + "=" + " " + (['\''] + email + ['\'']);
  }

  lemma EqualsIsOk()
    ensures OperatorOk("=")
  {
    var s := " " + "=" + " '";
    assert s[1] == '=' && " IS NOT NULL"[1] == 'I';
  }

  lemma FilterReadsBack(f: Filter, rest: string)
    requires FilterOk(f) && BlankAhead(rest)
    ensures ReadFilter(PrintFilter(f) + rest) == Some((AsRead(f), rest))
  {
    match f
    case NotNull(column) => NotNullReadsBack(column, rest);
    case NumberIs(column, digits) => NumberIsReadsBack(column, digits, rest);
    case EmailIs(column, email) =>
      EmailPrintsAsComparison(column, email);
      EqualsIsOk();
      CompareReadsBack(column, "=", email, rest);
    case Compare(column, operator, value) => CompareReadsBack(column, operator, value, rest);
  }

  lemma PrefixesMeet(s: string, word: string, lead: string)
    requires word <= s && lead <= s && lead != []
    ensures word <= lead || (|lead| < |word| && word[|lead| - 1] == lead[|lead| - 1])
  {
    if |word| <= |lead| {
      assert lead[..|word|] == s[..|word|];
    }
  }

  lemma NoQuoteInNotNull(i: nat)
    requires i < 12
    ensures " IS NOT NULL"[i] != '\''
  {
  }

  lemma OperatorIsNotNull(operator: string, value: string, rest: string)
    requires OperatorOk(operator)
    ensures !StartsWith(" " + operator + " " + (Quoted(value, '\'') + rest), " IS NOT NULL")
  {
    var lead := " " + operator + " '";
    var s := " " + operator + " " + (Quoted(value, '\'') + rest);
    assert s[..|lead|] == lead;
    if StartsWith(s, " IS NOT NULL") {
      PrefixesMeet(s, " IS NOT NULL", lead);
      if |lead| < 12 {
        NoQuoteInNotNull(|lead| - 1);
      }
    }
  }

  ghost predicate SelectionOk(s: Selection) {
    match s
    case OrderBy(columns) => columns != [] && AllReadable(columns)
    case Where(filter) => FilterOk(filter)
  }

  lemma SelectionReadsBack(sel: Selection, rest: string)
    requires SelectionOk(sel) && BlankAhead(rest)
    ensures ReadSelection(PrintSelection(sel) + rest) == Some((SelectionAsRead(sel), rest))
    ensures BlankAhead(PrintSelection(sel) + rest)
  {
    hide ReadColumns, PrintColumns, ReadFilter, PrintFilter, FilterOk, AllReadable, AsRead;
    match sel
    case OrderBy(columns) =>
      var list := PrintColumns(columns, " DESC") + rest;
      assert PrintSelection(sel) + rest == " ORDER BY " + list;
      StartsWithPrefix(" ORDER BY ", list);
      ColumnsReadBack(columns, " DESC", rest);
    case Where(filter) =>
      var clause := PrintFilter(filter) + rest;
      assert PrintSelection(sel) + rest == " WHERE " + clause;
      StartsWithPrefix(" WHERE ", clause);
      assert (" WHERE " + clause)[1] == 'W' && !StartsWith(" WHERE " + clause, " ORDER BY ");
      FilterReadsBack(filter, rest);
  }

  lemma LimitReadsBack(limit: nat)
    ensures ReadLimit(" LIMIT " + Decimal(limit)) == Some(limit) && BlankAhead(" LIMIT " + Decimal(limit))
  {
    StartsWithPrefix(" LIMIT ", Decimal(limit));
    ReadDecimal(limit);
  }

  lemma FromReadsBack(table: string, sel: Selection, limit: nat)
    requires Readable(table) && SelectionOk(sel)
    ensures ReadFrom(" FROM " + (QuoteIdentifier(table) + (PrintSelection(sel) + (" LIMIT " + Decimal(limit)))))
            == Some((table, SelectionAsRead(sel), limit))
  {
    var end := " LIMIT " + Decimal(limit);
    var after := PrintSelection(sel) + end;
    LimitReadsBack(limit);
    SelectionReadsBack(sel, end);
    IdentifierReadsBackExactly(table, after);
    StartsWithPrefix(" FROM ", QuoteIdentifier(table) + after);
  }

  // A printed statement reads back as the statement it was printed from: every name, literal and
  // number survives its quoting.
  lemma PrintedQueryReadsBack(q: Query)
    requires q.columns != [] && AllReadable(q.columns) && Readable(q.table) && SelectionOk(q.selection)
    ensures Read(Print(q)) == Some(q.(selection := SelectionAsRead(q.selection)))
  {
    var from := " FROM " + (QuoteIdentifier(q.table) + (PrintSelection(q.selection) + (" LIMIT " + Decimal(q.limit))));
    FromReadsBack(q.table, q.selection, q.limit);
    StartsWithPrefix("SELECT ", PrintColumns(q.columns, "") + from);
    ColumnsReadBack(q.columns, "", from);
  }

  // Configuration and question as the patterns and the rule format leave them.
  ghost predicate RulesOk(rules: seq<Rule>, signals: Signals) {
    && (forall i :: 0 <= i < |rules| ==> OperatorOk(rules[i].operator))
    && (signals.email.Some? ==> '\'' !in signals.email.value)
    && (signals.number.Some? ==> signals.number.value != [] && AllDigits(signals.number.value))
  }

  ghost predicate ReadableSchema(schema: Schema) {
    forall i :: 0 <= i < |schema| ==> Readable(schema[i].0) && AllReadable(schema[i].1)
  }

  lemma {:induction false} ColumnsUnderAreReadable(schema: Schema, table: string)
    requires ReadableSchema(schema)
    ensures AllReadable(ColumnsUnder(schema, table))
  {
    if schema != [] && schema[0].0 != table {
      ColumnsUnderAreReadable(schema[1..], table);
    }
  }

  lemma {:induction false} FilterOfIsOk(rules: seq<Rule>, query: string, columns: seq<string>, signals: Signals)
    requires RulesOk(rules, signals) && AllReadable(columns)
    ensures var f := FilterOf(rules, query, columns, signals);
            f.Some? ==> FilterOk(f.value)
  {
    if rules != [] {
      FilterOfIsOk(rules[1..], query, columns, signals);
      var f := RuleFilter(rules[0], query, columns, signals);
      if f.Some? {
        RuleFilterIsOk(rules[0], query, columns, signals);
      }
    }
  }

  lemma RuleFilterIsOk(rule: Rule, query: string, columns: seq<string>, signals: Signals)
    requires RulesOk([rule], signals) && AllReadable(columns)
    ensures var f := RuleFilter(rule, query, columns, signals);
            f.Some? ==> FilterOk(f.value)
  {
    assert OperatorOk([rule][0].operator);
    var f := RuleFilter(rule, query, columns, signals);
    if f.Some? {
      var i :| 0 <= i < |columns| && columns[i] == f.value.column;
      assert Readable(columns[i]);
    }
  }

  lemma MembersAreReadable(some: seq<string>, all: seq<string>)
    requires AllReadable(all) && forall c :: c in some ==> c in all
    ensures AllReadable(some)
  {
    forall i | 0 <= i < |some|
      ensures Readable(some[i])
    {
      assert some[i] in all;
      var j :| 0 <= j < |all| && all[j] == some[i];
    }
  }

  // Everything the builder prints for a readable schema reads back: the table, the columns in
  // order, the ordering or the filter with its literal, and the limit.
  lemma BuiltQueryReadsBack(query: string, schema: Schema, topK: int, rules: seq<Rule>, signals: Signals)
    requires ReadableSchema(schema) && RulesOk(rules, signals)
    requires forall i :: 0 <= i < |schema| ==> Distinct(schema[i].1)
    ensures var q := Build(query, schema, topK, rules, signals);
            q.Some? ==> Read(Print(q.value)) == Some(q.value.(selection := SelectionAsRead(q.value.selection)))
  {
    var built := Build(query, schema, topK, rules, signals);
    if built.Some? {
      var q := built.value;
      var columns := ColumnsOf(schema, q.table);
      BuiltQueryIsWellFormed(query, schema, topK, rules, signals);
      ColumnsUnderAreReadable(schema, q.table);
      ColumnsUnderAreReadable(schema, Lower(q.table));
      MembersAreReadable(q.columns, columns);
      var i :| 0 <= i < |schema| && schema[i].0 == q.table;
      BuiltSelectionIsOk(query, schema, topK, rules, signals);
      PrintedQueryReadsBack(q);
    }
  }

  lemma BuiltSelectionIsOk(query: string, schema: Schema, topK: int, rules: seq<Rule>, signals: Signals)
    requires Build(query, schema, topK, rules, signals).Some? && RulesOk(rules, signals)
    requires AllReadable(ColumnsOf(schema, Build(query, schema, topK, rules, signals).value.table))
    ensures SelectionOk(Build(query, schema, topK, rules, signals).value.selection)
  {
    var q := Build(query, schema, topK, rules, signals).value;
    var columns := ColumnsOf(schema, q.table);
    FilterOfIsOk(rules, query, columns, signals);
    OrderColumnsFacts(columns);
    MembersAreReadable(RecentOrderColumns(columns), columns);
  }
}
