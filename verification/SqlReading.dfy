/**
 * How the database reads the text of a statement: comments and quotes, the first statement only, and
 * the limit at its end. What the rows of the query under the limit are is left open.
 */
module SqlReading {
  import opened Text
  import opened RowCapping

  /* ---- scanning ---- */

  // Where a scan of the text stands. Dash, Dashes and Slash are code with one or two characters held
  // back that may turn out to start a comment.
  datatype Mode =
    | Code | Dash | Dashes | Slash
    | Line | Block | Star                          // in a comment; Star after an asterisk in a block
    | Quoted(quote: char) | Escaped(quote: char)
    | Ended                                        // behind the semicolon that ends the statement

  predicate Coding(m: Mode) {
    m.Code? || m.Dash? || m.Dashes? || m.Slash?
  }

  // A text that ends here is malformed: something is still open.
  predicate Open(m: Mode) {
    m.Block? || m.Star? || m.Quoted? || m.Escaped?
  }

  // Two dashes start a comment only in front of one of these, or at the end of the text.
  predicate BlankOrControl(c: char) {
    c <= ' ' || c == '\U{007F}'
  }

  function InCode(c: char): Mode {
    match c
    case '-' => Dash
    case '/' => Slash
    case '#' => Line
    case ';' => Ended
    case '\'' => Quoted(c)
    case '"' => Quoted(c)
    case '`' => Quoted(c)
    case _ => Code
  }

  function Step(m: Mode, c: char): Mode {
    match m
    case Code => InCode(c)
    case Dash => if c == '-' then Dashes else InCode(c)
    case Dashes =>
      if c == '\n' then Code else if BlankOrControl(c) then Line else if c == '-' then Dashes else InCode(c)
    case Slash => if c == '*' then Block else InCode(c)
    case Line => if c == '\n' then Code else Line
    case Block => if c == '*' then Star else Block
    case Star => if c == '/' then Code else if c == '*' then Star else Block
    case Quoted(q) => if c == q then Code else if c == '\\' && q != '`' then Escaped(q) else m
    case Escaped(q) => Quoted(q)
    case Ended => Ended
  }

  function CodeText(c: char): string {
    if c == '-' || c == '/' || c == ';' then "" else if c == '#' then " " else [c]
  }

  // What the character adds to the text without comments; a comment counts as a blank.
  function Shown(m: Mode, c: char): string {
    match m
    case Code => CodeText(c)
    case Dash => if c == '-' then "" else "-" + CodeText(c)
    case Dashes =>
      if c == '\n' then "\n" else if BlankOrControl(c) then " " else if c == '-' then "-" else "--" + CodeText(c)
    case Slash => if c == '*' then " " else "/" + CodeText(c)
    case Line => if c == '\n' then "\n" else ""
    case Block => ""
    case Star => ""
    case Quoted(_) => [c]
    case Escaped(_) => [c]
    case Ended => ""
  }

  // What is held back, when code goes on.
  function Held(m: Mode): string {
    match m
    case Dash => "-"
    case Dashes => "--"
    case Slash => "/"
    case _ => ""
  }

  function After(s: string): Mode {
    if s == [] then Code else Step(After(s[..|s| - 1]), s[|s| - 1])
  }

  function Seen(s: string): string {
    if s == [] then [] else Seen(s[..|s| - 1]) + Shown(After(s[..|s| - 1]), s[|s| - 1])
  }

  // The same at the end of the text, where two dashes are a comment.
  function HeldAtEnd(m: Mode): string {
    if m.Dashes? then "" else Held(m)
  }

  // The whole text without its comments.
  function Uncommented(s: string): string {
    Seen(s) + HeldAtEnd(After(s))
  }

  lemma Snoc(s: string, c: char)
    ensures After(s + [c]) == Step(After(s), c)
    ensures Seen(s + [c]) == Seen(s) + Shown(After(s), c)
  {
    assert (s + [c])[..|s + [c]| - 1] == s;
  }

  /* ---- text that opens and closes nothing ---- */

  predicate IsQuote(c: char) {
    c == '\'' || c == '"' || c == '`'
  }

  predicate PlainChar(c: char) {
    && c != '-' && c != '/' && c != '*' && c != '#' && c != ';'
    && !IsQuote(c) && c != '\\'
  }

  ghost predicate Plain(s: string) {
    forall i :: 0 <= i < |s| ==> PlainChar(s[i])
  }

  lemma PlainStep(m: Mode, c: char)
    requires PlainChar(c)
    ensures Coding(m) && (m.Dashes? ==> !BlankOrControl(c)) ==> Step(m, c).Code? && Shown(m, c) == Held(m) + [c]
    ensures Open(m) && QuoteIsQuote(m) ==> Open(Step(m, c)) && QuoteIsQuote(Step(m, c))
  {
  }

  lemma {:induction false} PlainInCode(s: string, piece: string)
    requires After(s).Code? && Plain(piece)
    ensures After(s + piece).Code? && Seen(s + piece) == Seen(s) + piece
  {
    hide Step, Shown, PlainChar, After, Seen;
    if piece == [] {
      assert s + piece == s;
    } else {
      var init, last := piece[..|piece| - 1], piece[|piece| - 1];
      PlainInCode(s, init);
      Snoc(s + init, last);
      PlainStep(Code, last);
      assert s + piece == (s + init) + [last] && piece == init + [last];
    }
  }

  // Plain text goes on as code, behind whatever was held back.
  lemma PlainAfterCode(s: string, piece: string)
    requires Coding(After(s)) && Plain(piece) && piece != [] && !BlankOrControl(piece[0])
    ensures After(s + piece).Code? && Seen(s + piece) == Seen(s) + Held(After(s)) + piece
  {
    hide Step, Shown, PlainChar, After, Seen, Held, BlankOrControl;
    Snoc(s, piece[0]);
    PlainStep(After(s), piece[0]);
    PlainInCode(s + [piece[0]], piece[1..]);
    assert s + piece == (s + [piece[0]]) + piece[1..];
    assert piece == [piece[0]] + piece[1..];
  }

  lemma UnseenStep(m: Mode, c: char)
    requires m.Ended? || (m.Line? && c != '\n')
    ensures Step(m, c) == m && Shown(m, c) == ""
  {
  }

  // In a line comment and behind the statement nothing is seen.
  lemma {:induction false} UnseenAfter(s: string, piece: string)
    requires After(s).Ended? || (After(s).Line? && '\n' !in piece)
    ensures After(s + piece) == After(s) && Seen(s + piece) == Seen(s)
  {
    hide Step, Shown, After, Seen;
    if piece == [] {
      assert s + piece == s;
    } else {
      var init, last := piece[..|piece| - 1], piece[|piece| - 1];
      UnseenAfter(s, init);
      Snoc(s + init, last);
      UnseenStep(After(s), last);
      assert s + piece == (s + init) + [last];
    }
  }

  predicate QuoteIsQuote(m: Mode) {
    m.Quoted? || m.Escaped? ==> IsQuote(m.quote)
  }

  lemma {:induction false} QuotesAreQuotes(s: string)
    ensures QuoteIsQuote(After(s))
  {
    if s != [] {
      QuotesAreQuotes(s[..|s| - 1]);
    }
  }

  lemma {:induction false} StaysOpenFrom(s: string, piece: string)
    requires Open(After(s)) && QuoteIsQuote(After(s)) && Plain(piece)
    ensures Open(After(s + piece)) && QuoteIsQuote(After(s + piece))
  {
    hide Step, Shown, After, PlainChar, Open, QuoteIsQuote;
    if piece == [] {
      assert s + piece == s;
    } else {
      var init, last := piece[..|piece| - 1], piece[|piece| - 1];
      StaysOpenFrom(s, init);
      Snoc(s + init, last);
      PlainStep(After(s + init), last);
      assert s + piece == (s + init) + [last];
    }
  }

  // Plain text closes nothing.
  lemma StaysOpen(s: string, piece: string)
    requires Open(After(s)) && Plain(piece)
    ensures Open(After(s + piece))
  {
    QuotesAreQuotes(s);
    StaysOpenFrom(s, piece);
  }

  predicate Comment(m: Mode) {
    m.Line? || m.Block? || m.Star?
  }

  lemma CommentStep(m: Mode, c: char)
    requires Comment(Step(m, c))
    ensures if Comment(m) then Shown(m, c) == "" else Shown(m, c) != "" && Shown(m, c)[|Shown(m, c)| - 1] == ' '
  {
  }

  // A comment has left a blank.
  lemma {:induction false} CommentIsBlank(s: string)
    requires Comment(After(s))
    ensures Seen(s) != [] && Seen(s)[|Seen(s)| - 1] == ' '
  {
    hide Step, Shown;
    var init := s[..|s| - 1];
    CommentStep(After(init), s[|s| - 1]);
    if Comment(After(init)) {
      CommentIsBlank(init);
    }
  }

  /* ---- blanks and semicolons at the end do not matter ---- */

  const END: set<char> := WHITESPACE + {';'}

  ghost predicate AllBlank(s: string) {
    forall i :: 0 <= i < |s| ==> s[i] in WHITESPACE
  }

  lemma EndCharStep(m: Mode, c: char) returns (blanks: string)
    requires c == ';' || BlankOrControl(c)
    requires QuoteIsQuote(m) && !(m.Dashes? && c == ';')
    ensures Open(m) <==> Open(Step(m, c))
    ensures blanks == "" || blanks == " " || blanks == "\n" || blanks == [c]
    ensures c == ';' ==> blanks == ""
    ensures !Open(m) ==> Shown(m, c) + HeldAtEnd(Step(m, c)) == HeldAtEnd(m) + blanks
    ensures !Step(m, c).Dashes?
  {
    blanks :=
      match m
      case Code => CodeText(c)
      case Dash => CodeText(c)
      case Slash => CodeText(c)
      case Dashes => if c == '\n' then "\n" else " "
      case Line => if c == '\n' then "\n" else ""
      case _ => "";
  }

  lemma BlanksAreBlank(c: char)
    requires c in WHITESPACE
    ensures BlankOrControl(c) && c != ';'
    ensures AllBlank("") && AllBlank(" ") && AllBlank("\n") && AllBlank([c])
  {
  }

  lemma EndStep(s: string, c: char) returns (blanks: string)
    requires c in END && !(After(s).Dashes? && c == ';')
    ensures Open(After(s)) <==> Open(After(s + [c]))
    ensures !Open(After(s)) ==> AllBlank(blanks) && Uncommented(s + [c]) == Uncommented(s) + blanks
    ensures !After(s + [c]).Dashes?
  {
    hide Step, Shown, After, Seen, HeldAtEnd, AllBlank, BlankOrControl, Open;
    Snoc(s, c);
    QuotesAreQuotes(s);
    BlanksAreBlank(if c == ';' then ' ' else c);
    blanks := EndCharStep(After(s), c);
    if !Open(After(s)) {
      Regroup(Seen(s), Shown(After(s), c), HeldAtEnd(After(s + [c])), HeldAtEnd(After(s)), blanks);
    }
  }

  lemma Regroup(s: string, a: string, b: string, c: string, d: string)
    requires a + b == c + d
    ensures (s + a) + b == (s + c) + d
  {
    assert (s + a) + b == s + (a + b) && (s + c) + d == s + (c + d);
  }

  lemma {:induction false} TrimBlanks(s: string, blanks: string)
    requires AllBlank(blanks)
    ensures TrimRight(s + blanks, WHITESPACE) == TrimRight(s, WHITESPACE)
    ensures Strip(s + blanks) == Strip(s)
  {
    if blanks == [] {
      assert s + blanks == s;
    } else {
      var init, last := blanks[..|blanks| - 1], blanks[|blanks| - 1];
      TrimBlanks(s, init);
      TrimLastBlank(s + init, last);
      assert s + blanks == (s + init) + [last];
    }
  }

  lemma TrimLastBlank(s: string, c: char)
    requires c in WHITESPACE
    ensures TrimRight(s + [c], WHITESPACE) == TrimRight(s, WHITESPACE)
    ensures Strip(s + [c]) == Strip(s)
  {
    assert (s + [c])[..|s + [c]| - 1] == s;
    TrimLeftLast(s, c);
    var t := TrimLeft(s, WHITESPACE);
    assert (t + [c])[..|t + [c]| - 1] == t;
  }

  lemma {:induction false} TrimLeftLast(s: string, c: char)
    ensures TrimLeft(s + [c], WHITESPACE) == TrimLeft(s, WHITESPACE) + [c]
            || (c in WHITESPACE && TrimLeft(s, WHITESPACE) == [] && TrimLeft(s + [c], WHITESPACE) == [])
  {
    if s != [] && s[0] in WHITESPACE {
      TrimLeftLast(s[1..], c);
      assert (s + [c])[1..] == s[1..] + [c];
    } else if s == [] {
      assert s + [c] == [c] && [c][1..] == [];
    }
  }

  // The text as the database reads it, without comments and blanks around it.
  function Read(s: string): string {
    Strip(Uncommented(s))
  }

  // Further blanks and semicolons at the end change nothing, unless they turn the comment that two
  // dashes at the end are into code.
  lemma {:induction false} EndIsIgnored(s: string, piece: string)
    requires forall i :: 0 <= i < |piece| ==> piece[i] in END
    requires piece != [] ==> !(After(s).Dashes? && piece[0] == ';')
    ensures Open(After(s)) <==> Open(After(s + piece))
    ensures !Open(After(s)) ==> Read(s + piece) == Read(s)
    ensures piece != [] ==> !After(s + piece).Dashes?
  {
    hide After, Seen, Uncommented, Open, TrimRight, TrimLeft, END;
    if piece == [] {
      assert s + piece == s;
    } else {
      var init, last := piece[..|piece| - 1], piece[|piece| - 1];
      EndIsIgnored(s, init);
      assert s + piece == (s + init) + [last];
      assert init == [] ==> s + init == s && last == piece[0];
      var blanks := EndStep(s + init, last);
      if !Open(After(s)) {
        TrimBlanks(Uncommented(s + init), blanks);
      }
    }
  }

  /* ---- leading blanks ---- */

  lemma BlanksArePlain(blanks: string)
    requires AllBlank(blanks)
    ensures Plain(blanks)
  {
  }

  lemma OnlyBlanks(blanks: string)
    requires AllBlank(blanks)
    ensures After(blanks) == After([]) == Code && Seen(blanks) == blanks && Seen([]) == []
  {
    BlanksArePlain(blanks);
    PlainInCode([], blanks);
    assert [] + blanks == blanks;
  }

  lemma {:induction false} LeadingBlanks(blanks: string, s: string)
    requires AllBlank(blanks)
    ensures After(blanks + s) == After(s) && Seen(blanks + s) == blanks + Seen(s)
  {
    hide After, Seen, AllBlank;
    OnlyBlanks(blanks);
    if s == [] {
      assert blanks + s == blanks == blanks + [];
    } else {
      LeadingBlanks(blanks, s[..|s| - 1]);
      SameStep(blanks, s[..|s| - 1], s[|s| - 1]);
      assert s == s[..|s| - 1] + [s[|s| - 1]];
    }
  }

  lemma SameStep(blanks: string, s: string, c: char)
    requires After(blanks + s) == After(s) && Seen(blanks + s) == blanks + Seen(s)
    ensures After(blanks + (s + [c])) == After(s + [c]) && Seen(blanks + (s + [c])) == blanks + Seen(s + [c])
  {
    hide After, Seen, Step, Shown;
    Snoc(s, c);
    Snoc(blanks + s, c);
    assert blanks + (s + [c]) == (blanks + s) + [c];
  }

  lemma {:induction false} StripLeading(blanks: string, s: string)
    requires AllBlank(blanks)
    ensures Strip(blanks + s) == Strip(s)
  {
    if blanks == [] {
      assert blanks + s == s;
    } else {
      StripLeading(blanks[1..], s);
      StripIgnoresLeadingBlank(blanks[0], blanks[1..] + s, WHITESPACE);
      assert blanks + s == [blanks[0]] + (blanks[1..] + s);
    }
  }

  lemma ReadIgnoresLeading(blanks: string, s: string)
    requires AllBlank(blanks)
    ensures After(blanks + s) == After(s) && Read(blanks + s) == Read(s)
  {
    hide After, Seen, AllBlank, Strip, HeldAtEnd;
    LeadingBlanks(blanks, s);
    StripLeading(blanks, Uncommented(s));
    assert Uncommented(blanks + s) == blanks + Uncommented(s);
  }

  /* ---- what a text asks for ---- */

  // A query refused by the database, a query, or a window of a query's rows. A window of no rows
  // starts nowhere.
  datatype Reading = Refused | Query(text: string) | Limited(text: string, skip: nat, count: nat)

  // `FOR UPDATE`, `FOR SHARE` or `LOCK IN SHARE MODE` at the end, in any case, perhaps with the names
  // of tables and a way of waiting behind it.
  ghost predicate Locked(query: string) {
    exists i: nat, j: nat :: LockAt(query, i, j)
  }

  ghost predicate LockAt(query: string, i: nat, j: nat) {
    && i < j <= |query|
    && (i > 0 ==> !IsWordChar(query[i - 1]))
    && (j < |query| ==> !IsWordChar(query[j]))
    && Words(Lower(query[i..j])) in LOCKS
    && forall k :: j <= k < |query| ==> IsWordChar(query[k]) || query[k] in WHITESPACE || query[k] in {',', '.', '$'}
  }

  const LOCKS: set<seq<string>> := {["for", "update"], ["for", "share"], ["lock", "in", "share", "mode"]}

  // A limit may be written behind this: a query without a limit or a locking clause of its own.
  ghost predicate TakesLimit(query: string) {
    query != "" && ParseTail(query).None? && !Locked(query)
  }

  ghost function WindowOf(query: string, skip: nat, count: nat): Reading {
    if TakesLimit(query) then Limited(query, if count == 0 then 0 else skip, count) else Refused
  }

  ghost function Parsed(text: string): Reading {
    match ParseTail(text)
    case None => if text == "" then Refused else Query(text)
    case Some(t) =>
      ParsedTailIsValid(text);
      WindowOf(QueryOf(t), SkipOf(t), CountOf(t))
  }

  ghost function ReadingOf(sql: string): Reading {
    var text := TrimRight(sql, END);
    if Open(After(text)) then Refused else Parsed(Read(text))
  }

  /* ---- what the database answers ---- */

  datatype Outcome<Row> = Failed | Rows(rows: seq<Row>)

  function Cut<Row>(o: Outcome<Row>, skip: nat, count: nat): Outcome<Row> {
    match o
    case Failed => Failed
    case Rows(rows) => Rows(Window(rows, skip, count))
  }

  function First<Row>(o: Outcome<Row>, cap: nat): Outcome<Row> {
    match o
    case Failed => Failed
    case Rows(rows) => Rows(Take(rows, cap))
  }

  // `run` gives the outcome of any query without a limit.
  function Answer<Row>(run: string -> Outcome<Row>, r: Reading): Outcome<Row> {
    match r
    case Refused => Failed
    case Query(text) => run(text)
    case Limited(text, skip, count) => Cut(run(text), skip, count)
  }

  function Capped(r: Reading, cap: nat): Reading {
    match r
    case Refused => Refused
    case Query(text) => Limited(text, 0, cap)
    case Limited(text, skip, count) =>
      Limited(text, if Least(count, cap) == 0 then 0 else skip, Least(count, cap))
  }

  lemma AnswerOfCapped<Row>(run: string -> Outcome<Row>, r: Reading, cap: nat)
    ensures Answer(run, Capped(r, cap)) == First(Answer(run, r), cap)
  {
    if r.Limited? && run(r.text).Rows? {
      TakeOfWindow(run(r.text).rows, r.skip, r.count, cap);
      NoWindow(run(r.text).rows, r.skip);
      NoWindow(run(r.text).rows, 0);
    } else if r.Query? && run(r.text).Rows? {
      WindowFromStart(run(r.text).rows, cap);
    }
  }

  lemma NoWindow<Row>(rows: seq<Row>, skip: nat)
    ensures Window(rows, skip, 0) == []
  {
  }

  lemma WindowFromStart<Row>(rows: seq<Row>, cap: nat)
    ensures Window(rows, 0, cap) == Take(rows, cap)
  {
  }

  /* ---- different readings are told apart by some database ---- */

  predicate Normal(r: Reading) {
    r.Limited? && r.count == 0 ==> r.skip == 0
  }

  lemma ReadingIsNormal(sql: string)
    ensures Normal(ReadingOf(sql))
  {
  }

  // A database that answers every query with the same rows, but fails on one of them.
  function FailingOn(text: string): string -> Outcome<nat> {
    q => if q == text then Failed else Rows([])
  }

  function Counting(n: nat): string -> Outcome<nat> {
    q => Rows(seq(n, i => i))
  }

  lemma AnswerOfCounting(r: Reading, n: nat)
    requires !r.Refused? && (r.Limited? ==> r.skip + r.count <= n)
    ensures var o := Answer(Counting(n), r);
            && o.Rows? && |o.rows| == (if r.Limited? then r.count else n)
            && (r.Limited? && r.count > 0 ==> o.rows[0] == r.skip)
  {
  }

  lemma WindowsToldApart(a: Reading, b: Reading, n: nat)
    requires Normal(a) && Normal(b) && a != b && !a.Refused? && !b.Refused? && a.text == b.text
    requires a.Limited? ==> a.skip + a.count < n
    requires b.Limited? ==> b.skip + b.count < n
    ensures Answer(Counting(n), a) != Answer(Counting(n), b)
  {
    hide Answer, Counting;
    AnswerOfCounting(a, n);
    AnswerOfCounting(b, n);
  }

  lemma ToldApart(a: Reading, b: Reading) returns (run: string -> Outcome<nat>)
    requires Normal(a) && Normal(b) && a != b
    ensures Answer(run, a) != Answer(run, b)
  {
    hide Window;
    if a.Refused? || b.Refused? {
      run := Counting(0);
    } else if a.text != b.text {
      run := FailingOn(a.text);
    } else {
      var n := (if a.Limited? then a.skip + a.count else 0) + (if b.Limited? then b.skip + b.count else 0) + 1;
      run := Counting(n);
      WindowsToldApart(a, b, n);
    }
  }
}
