/** The row cap rewritten onto a statement's tail (db/mysql_executor.py, apply_row_cap). */
module RowCapping {
  import opened Text

  const DIGITS: set<char> := {'0', '1', '2', '3', '4', '5', '6', '7', '8', '9'}

  /* ---- the tail grammar ---- */

  // The text of a recognised tail, piece by piece, after the statement's body:
  //   body LIMIT ws number [ws OFFSET ws number]     or     body LIMIT ws number ws , ws number
  datatype Tail =
    | Limit(body: string, keyword: string, gap: string, count: string, offset: OffsetPart)
    | Comma(body: string, keyword: string, gap: string, skip: string, before: string, after: string, count: string)

  datatype OffsetPart = NoOffset | Offset(lead: string, keyword: string, gap: string, skip: string)

  ghost predicate Blanks(s: string) {
    forall i :: 0 <= i < |s| ==> s[i] in WHITESPACE
  }

  ghost predicate Number(s: string) {
    s != [] && forall i :: 0 <= i < |s| ==> s[i] in DIGITS
  }

  // \bLIMIT: the keyword in any case, not glued to a preceding word character.
  predicate KeywordAfter(body: string, keyword: string) {
    Lower(keyword) == "limit" && (body == [] || !IsWordChar(body[|body| - 1]))
  }

  ghost predicate ValidOffset(o: OffsetPart) {
    o.Offset? ==>
      && Blanks(o.lead) && o.lead != []
      && Lower(o.keyword) == "offset"
      && Blanks(o.gap) && o.gap != []
      && Number(o.skip)
  }

  ghost predicate ValidTail(t: Tail) {
    && KeywordAfter(t.body, t.keyword)
    && Blanks(t.gap) && t.gap != []
    && Number(t.count)
    && match t
       case Limit(_, _, _, _, offset) => ValidOffset(offset)
       case Comma(_, _, _, skip, before, after, _) => Number(skip) && Blanks(before) && Blanks(after)
  }

  function OffsetText(o: OffsetPart): string {
    match o
    case NoOffset => ""
    case Offset(lead, keyword, gap, skip) => lead + keyword + gap + skip
  }

  function TailText(t: Tail): string {
    match t
    case Limit(body, keyword, gap, count, offset) => body + keyword + gap + count + OffsetText(offset)
    case Comma(body, keyword, gap, skip, before, after, count) =>
      body + keyword + gap + skip + before + "," + after + count
  }

  /* ---- recognising it from the end ---- */

  // Splits off the longest suffix made of the given characters.
  function Peel(s: string, chars: set<char>): (r: (string, string))
    ensures r.0 + r.1 == s
  {
    var rest := TrimRight(s, chars);
    (rest, s[|rest|..])
  }

  lemma PeelIsMaximal(s: string, chars: set<char>)
    ensures var (rest, piece) := Peel(s, chars);
            && (forall i :: 0 <= i < |piece| ==> piece[i] in chars)
            && (rest != [] ==> rest[|rest| - 1] !in chars)
  {
    TrimRightStops(s, chars);
  }

  lemma {:induction false} TrimRightExact(s: string, piece: string, chars: set<char>)
    requires forall i :: 0 <= i < |piece| ==> piece[i] in chars
    requires s == [] || s[|s| - 1] !in chars
    ensures TrimRight(s + piece, chars) == s
  {
    if piece == [] {
      assert s + piece == s;
    } else {
      assert (s + piece)[..|s + piece| - 1] == s + piece[..|piece| - 1];
      TrimRightExact(s, piece[..|piece| - 1], chars);
    }
  }

  lemma PeelExact(s: string, piece: string, chars: set<char>)
    requires forall i :: 0 <= i < |piece| ==> piece[i] in chars
    requires s == [] || s[|s| - 1] !in chars
    ensures Peel(s + piece, chars) == (s, piece)
  {
    TrimRightExact(s, piece, chars);
  }

  // Splits off a keyword of the given length, whatever it is.
  function CutWord(s: string, length: nat): (r: (string, string))
    ensures r.0 + r.1 == s
    ensures |r.1| == length || (|s| < length && r.1 == [])
  {
    if |s| < length then (s, []) else (s[..|s| - length], s[|s| - length..])
  }

  // body LIMIT, given that everything after the keyword has been peeled off.
  function CutLimit(s: string): Option<(string, string)> {
    var (body, keyword) := CutWord(s, 5);
    if KeywordAfter(body, keyword) then Some((body, keyword)) else None
  }

  // Group 1 of both patterns and what precedes it: `LIMIT ws number`.
  function CutLimitNumber(s: string): Option<(string, string, string, string)> {
    var (s1, number) := Peel(s, DIGITS);
    var (s2, gap) := Peel(s1, WHITESPACE);
    var limit := CutLimit(s2);
    if number == [] || gap == [] || limit.None? then None
    else Some((limit.value.0, limit.value.1, gap, number))
  }

  function CutComma(s: string): Option<Tail> {
    var (s1, count) := Peel(s, DIGITS);
    var (s2, after) := Peel(s1, WHITESPACE);
    if count == [] then None else CutCommaBefore(s2, after, count)
  }

  function CutCommaBefore(s: string, after: string, count: string): Option<Tail> {
    if s == [] || s[|s| - 1] != ',' then None
    else
      var (s1, before) := Peel(s[..|s| - 1], WHITESPACE);
      match CutLimitNumber(s1)
      case None => None
      case Some((body, keyword, gap, skip)) => Some(Comma(body, keyword, gap, skip, before, after, count))
  }

  function CutOffset(s: string): Option<Tail> {
    var (s1, skip) := Peel(s, DIGITS);
    var (s2, gap) := Peel(s1, WHITESPACE);
    if skip == [] || gap == [] then None else CutOffsetKeyword(s2, gap, skip)
  }

  function CutOffsetKeyword(s: string, gap: string, skip: string): Option<Tail> {
    var (s1, keyword) := CutWord(s, 6);
    var (s2, lead) := Peel(s1, WHITESPACE);
    if Lower(keyword) != "offset" || lead == [] then None
    else CutLimitBefore(s2, Offset(lead, keyword, gap, skip))
  }

  function CutLimitBefore(s: string, offset: OffsetPart): Option<Tail> {
    match CutLimitNumber(s)
    case None => None
    case Some((body, keyword, gap, count)) => Some(Limit(body, keyword, gap, count, offset))
  }

  function CutPlain(s: string): Option<Tail> {
    CutLimitBefore(s, NoOffset)
  }

  // The comma pattern is tried first, then LIMIT with an optional OFFSET.
  function ParseTail(base: string): Option<Tail> {
    var comma, offset := CutComma(base), CutOffset(base);
    if comma.Some? then comma else if offset.Some? then offset else CutPlain(base)
  }

  /* ---- the rewrite ---- */

  predicate EndsWithSemicolon(s: string) {
    s != [] && s[|s| - 1] == ';'
  }

  function WithoutSemicolon(stripped: string): string {
    if EndsWithSemicolon(stripped) then TrimRight(stripped[..|stripped| - 1], WHITESPACE) else stripped
  }

  function BaseOf(sql: string): string {
    WithoutSemicolon(Strip(sql))
  }

  function CappedTail(t: Tail, cap: nat): Tail
    requires ValidTail(t)
  {
    match t
    case Limit(body, _, _, _, offset) => Limit(body, "LIMIT", " ", Decimal(cap), offset)
    case Comma(body, _, _, skip, _, _, _) =>
      Comma(body, "LIMIT", " ", Decimal(NumberOf(skip)), "", " ", Decimal(cap))
  }

  lemma DigitsAreDigits(s: string)
    requires forall i :: 0 <= i < |s| ==> s[i] in DIGITS
    ensures AllDigits(s)
  {
  }

  function NumberOf(s: string): nat
    requires Number(s)
  {
    DigitsAreDigits(s);
    NumeralValue(s)
  }

  // The base with the cap applied, or nothing when its own limit is already within the cap.
  function CappedBase(base: string, cap: nat): Option<string> {
    match ParseTail(base)
    case None => Some(base + " LIMIT " + Decimal(cap))
    case Some(t) =>
      ParsedTailIsValid(base);
      if NumberOf(t.count) <= cap then None else Some(TailText(CappedTail(t, cap)))
  }

  // The base that ends up in the capped statement.
  function KeptBase(base: string, cap: nat): string {
    match CappedBase(base, cap)
    case None => base
    case Some(capped) => capped
  }

  function Statement(text: string, semicolon: bool): string {
    if semicolon then text + ";" else text
  }

  function CapStripped(stripped: string, cap: nat): string {
    match CappedBase(WithoutSemicolon(stripped), cap)
    case None => stripped
    case Some(capped) => Statement(capped, EndsWithSemicolon(stripped))
  }

  function ApplyRowCap(sql: string, cap: nat): string {
    var stripped := Strip(sql);
    if stripped == [] then sql else CapStripped(stripped, cap)
  }

  /* ---- the recogniser is exactly the grammar ---- */

  lemma CutLimitNumberIsSound(s: string)
    ensures match CutLimitNumber(s)
            case None => true
            case Some((body, keyword, gap, number)) =>
              s == body + keyword + gap + number && KeywordAfter(body, keyword)
              && Blanks(gap) && gap != [] && Number(number)
  {
    var (s1, number) := Peel(s, DIGITS);
    PeelIsMaximal(s, DIGITS);
    PeelIsMaximal(s1, WHITESPACE);
  }

  lemma CommaBeforeIsSound(s: string, after: string, count: string)
    requires Blanks(after) && Number(count)
    ensures match CutCommaBefore(s, after, count)
            case None => true
            case Some(t) => ValidTail(t) && TailText(t) == s + after + count
  {
    match CutCommaBefore(s, after, count)
    case None =>
    case Some(t) =>
      var s1 := Peel(s[..|s| - 1], WHITESPACE).0;
      PeelIsMaximal(s[..|s| - 1], WHITESPACE);
      CutLimitNumberIsSound(s1);
      assert s1 == t.body + t.keyword + t.gap + t.skip;
      assert s == s1 + t.before + ",";
  }

  lemma CommaIsSound(s: string)
    ensures CutComma(s).Some? ==> ValidTail(CutComma(s).value) && TailText(CutComma(s).value) == s
  {
    var (s1, count) := Peel(s, DIGITS);
    var (s2, after) := Peel(s1, WHITESPACE);
    PeelIsMaximal(s, DIGITS);
    PeelIsMaximal(s1, WHITESPACE);
    if count != [] {
      CommaBeforeIsSound(s2, after, count);
    }
  }

  lemma OffsetTextAfter(s: string, o: OffsetPart)
    requires o.Offset?
    ensures s + OffsetText(o) == s + o.lead + o.keyword + o.gap + o.skip
  {
  }

  lemma OffsetKeywordIsSound(s: string, gap: string, skip: string)
    requires Blanks(gap) && gap != [] && Number(skip)
    ensures match CutOffsetKeyword(s, gap, skip)
            case None => true
            case Some(t) => ValidTail(t) && TailText(t) == s + gap + skip
  {
    match CutOffsetKeyword(s, gap, skip)
    case None =>
    case Some(t) =>
      var s4 := t.body + t.keyword + t.gap + t.count;
      PeelIsMaximal(CutWord(s, 6).0, WHITESPACE);
      CutLimitNumberIsSound(Peel(CutWord(s, 6).0, WHITESPACE).0);
      OffsetTextAfter(s4, t.offset);
  }

  lemma OffsetIsSound(s: string)
    ensures CutOffset(s).Some? ==> ValidTail(CutOffset(s).value) && TailText(CutOffset(s).value) == s
  {
    var (s1, skip) := Peel(s, DIGITS);
    var (s2, gap) := Peel(s1, WHITESPACE);
    PeelIsMaximal(s, DIGITS);
    PeelIsMaximal(s1, WHITESPACE);
    if skip != [] && gap != [] {
      OffsetKeywordIsSound(s2, gap, skip);
    }
  }

  lemma PlainIsSound(s: string)
    ensures CutPlain(s).Some? ==> ValidTail(CutPlain(s).value) && TailText(CutPlain(s).value) == s
  {
    CutLimitNumberIsSound(s);
    if CutPlain(s).Some? {
      assert s + "" == s;
    }
  }

  lemma ParsedTailIsValid(base: string)
    ensures ParseTail(base).Some? ==> ValidTail(ParseTail(base).value) && TailText(ParseTail(base).value) == base
  {
    CommaIsSound(base);
    OffsetIsSound(base);
    PlainIsSound(base);
  }

  lemma KeywordEnds(body: string, keyword: string)
    requires KeywordAfter(body, keyword)
    ensures |keyword| == 5 && CutLimit(body + keyword) == Some((body, keyword))
    ensures keyword[3] in {'i', 'I'} && keyword[4] in {'t', 'T'}
  {
    LowerAt(keyword, 3);
    LowerAt(keyword, 4);
    var s := body + keyword;
    assert s[..|s| - 5] == body && s[|s| - 5..] == keyword;
  }

  lemma CutLimitNumberIsComplete(body: string, keyword: string, gap: string, number: string)
    requires KeywordAfter(body, keyword) && Blanks(gap) && gap != [] && Number(number)
    ensures CutLimitNumber(body + keyword + gap + number) == Some((body, keyword, gap, number))
  {
    hide TrimRight, Lower, KeywordAfter, CutLimit, Peel;
    var s2 := body + keyword;
    KeywordEnds(body, keyword);
    assert s2 != [] && s2[|s2| - 1] == keyword[4];
    LetterIsNoBlankOrDigit(keyword[4]);
    PeelNumber(s2, gap, number);
    assert s2 + gap + number == body + keyword + gap + number;
  }

  lemma LetterIsNoBlankOrDigit(c: char)
    requires c in {'t', 'T'}
    ensures c !in WHITESPACE && c !in DIGITS
  {
  }

  // A number and the blanks before it come off in two peels.
  lemma PeelNumber(s: string, gap: string, number: string)
    requires s != [] && s[|s| - 1] !in WHITESPACE && (gap == [] ==> s[|s| - 1] !in DIGITS)
    requires Blanks(gap) && Number(number)
    ensures Peel(s + gap + number, DIGITS) == (s + gap, number)
    ensures Peel(s + gap, WHITESPACE) == (s, gap)
  {
    hide TrimRight, Peel;
    var s1 := s + gap;
    assert s1[|s1| - 1] == if gap == [] then s[|s| - 1] else gap[|gap| - 1];
    if gap != [] {
      BlankIsNoDigit(gap[|gap| - 1]);
    }
    PeelExact(s1, number, DIGITS);
    PeelExact(s, gap, WHITESPACE);
  }

  lemma BlankIsNoDigit(c: char)
    requires c in WHITESPACE
    ensures c !in DIGITS
  {
  }

  lemma CommaBeforeIsComplete(t: Tail)
    requires t.Comma? && ValidTail(t)
    ensures var s := t.body + t.keyword + t.gap + t.skip + t.before + ",";
            CutCommaBefore(s, t.after, t.count) == Some(t)
  {
    var s1 := t.body + t.keyword + t.gap + t.skip;
    var s := s1 + t.before + ",";
    assert s[..|s| - 1] == s1 + t.before;
    assert s1[|s1| - 1] == t.skip[|t.skip| - 1];
    PeelExact(s1, t.before, WHITESPACE);
    CutLimitNumberIsComplete(t.body, t.keyword, t.gap, t.skip);
  }

  lemma CommaIsComplete(t: Tail)
    requires t.Comma? && ValidTail(t)
    ensures CutComma(TailText(t)) == Some(t)
  {
    var s2 := t.body + t.keyword + t.gap + t.skip + t.before + ",";
    PeelNumber(s2, t.after, t.count);
    CommaBeforeIsComplete(t);
  }

  // What stands before the last number and its blanks, when that is a keyword ending in T.
  lemma PeelBackToKeyword(s2: string, gap: string, number: string)
    requires s2 != [] && s2[|s2| - 1] in {'t', 'T'}
    requires Blanks(gap) && gap != [] && Number(number)
    ensures Peel(s2 + gap + number, DIGITS) == (s2 + gap, number)
    ensures Peel(s2 + gap, WHITESPACE) == (s2, gap)
    ensures CutComma(s2 + gap + number).None?
  {
    PeelNumber(s2, gap, number);
  }

  lemma LowerLast(keyword: string, word: string)
    requires Lower(keyword) == word && word != []
    ensures |keyword| == |word| && LowerChar(keyword[|word| - 1]) == word[|word| - 1]
  {
    LowerAt(keyword, |word| - 1);
  }

  lemma CutWordExact(s: string, keyword: string)
    ensures CutWord(s + keyword, |keyword|) == (s, keyword)
  {
    var whole := s + keyword;
    assert whole[..|whole| - |keyword|] == s && whole[|whole| - |keyword|..] == keyword;
  }

  lemma CutOffsetKeywordPart(s4: string, o: OffsetPart)
    requires s4 != [] && s4[|s4| - 1] !in WHITESPACE
    requires o.Offset? && ValidOffset(o)
    ensures CutOffsetKeyword(s4 + o.lead + o.keyword, o.gap, o.skip) == CutLimitBefore(s4, o)
  {
    LowerLast(o.keyword, "offset");
    CutWordExact(s4 + o.lead, o.keyword);
    PeelExact(s4, o.lead, WHITESPACE);
  }

  // Behind anything but a blank, the OFFSET part comes off whole.
  lemma CutOffsetPart(s4: string, o: OffsetPart)
    requires s4 != [] && s4[|s4| - 1] !in WHITESPACE
    requires o.Offset? && ValidOffset(o)
    ensures var s := s4 + o.lead + o.keyword + o.gap + o.skip;
            CutComma(s).None? && CutOffset(s) == CutLimitBefore(s4, o)
  {
    var s2 := s4 + o.lead + o.keyword;
    assert s2 != [] && s2[|s2| - 1] in {'t', 'T'} by {
      LowerLast(o.keyword, "offset");
      assert s2[|s2| - 1] == o.keyword[5];
    }
    PeelBackToKeyword(s2, o.gap, o.skip);
    CutOffsetKeywordPart(s4, o);
  }

  lemma OffsetIsComplete(t: Tail)
    requires t.Limit? && t.offset.Offset? && ValidTail(t)
    ensures ParseTail(TailText(t)) == Some(t)
  {
    var s4 := t.body + t.keyword + t.gap + t.count;
    assert s4[|s4| - 1] == t.count[|t.count| - 1];
    DigitIsNotBlank(s4[|s4| - 1]);
    CutLimitNumberIsComplete(t.body, t.keyword, t.gap, t.count);
    CutOffsetPart(s4, t.offset);
    OffsetTextAfter(s4, t.offset);
  }

  lemma LimitIsNotOffset(s2: string, gap: string, skip: string)
    requires |s2| >= 2 && s2[|s2| - 2] in {'i', 'I'}
    ensures CutOffsetKeyword(s2, gap, skip).None?
  {
    var word := CutWord(s2, 6).1;
    if |word| == 6 {
      assert word[4] == s2[|s2| - 2];
      LowerAt(word, 4);
    }
  }

  lemma PlainIsComplete(t: Tail)
    requires t.Limit? && t.offset.NoOffset? && ValidTail(t)
    ensures ParseTail(TailText(t)) == Some(t)
  {
    var s2 := t.body + t.keyword;
    var s := s2 + t.gap + t.count;
    assert TailText(t) == s;
    assert CutComma(s).None? && CutOffset(s).None? by {
      KeywordEnds(t.body, t.keyword);
      assert s2[|s2| - 1] == t.keyword[4] && s2[|s2| - 2] == t.keyword[3];
      PeelBackToKeyword(s2, t.gap, t.count);
      LimitIsNotOffset(s2, t.gap, t.count);
    }
    CutLimitNumberIsComplete(t.body, t.keyword, t.gap, t.count);
  }

  // The backward scan recognises exactly the tails of the grammar, and reads each one back whole.
  lemma TailGrammarIsExact(base: string, t: Tail)
    ensures ParseTail(base) == Some(t) <==> ValidTail(t) && TailText(t) == base
  {
    ParsedTailIsValid(base);
    if ValidTail(t) && TailText(t) == base {
      if t.Comma? {
        CommaIsComplete(t);
      } else if t.offset.Offset? {
        OffsetIsComplete(t);
      } else {
        PlainIsComplete(t);
      }
    }
  }

  /* ---- what a statement returns ---- */

  function Least(a: nat, b: nat): nat {
    if a <= b then a else b
  }

  function Window<Row>(rows: seq<Row>, skip: nat, count: nat): seq<Row> {
    rows[Least(skip, |rows|)..Least(skip + count, |rows|)]
  }

  function Take<Row>(rows: seq<Row>, count: nat): seq<Row> {
    rows[..Least(count, |rows|)]
  }

  function SkipOf(t: Tail): nat
    requires ValidTail(t)
  {
    match t
    case Limit(_, _, _, _, offset) => if offset.Offset? then NumberOf(offset.skip) else 0
    case Comma(_, _, _, skip, _, _, _) => NumberOf(skip)
  }

  function CountOf(t: Tail): nat
    requires ValidTail(t)
  {
    NumberOf(t.count)
  }

  // The query under a tail.
  function QueryOf(t: Tail): string {
    TrimRight(t.body, WHITESPACE)
  }

  lemma PrefixOfSlice<T>(s: seq<T>, from: nat, to: nat, count: nat)
    requires from <= to <= |s| && count <= to - from
    ensures s[from..to][..count] == s[from..from + count]
  {
  }

  lemma TakeOfWindow<Row>(rows: seq<Row>, skip: nat, count: nat, cap: nat)
    ensures Take(Window(rows, skip, count), cap) == Window(rows, skip, Least(count, cap))
  {
    var from, to := Least(skip, |rows|), Least(skip + count, |rows|);
    PrefixOfSlice(rows, from, to, Least(cap, to - from));
  }

  lemma DecimalIsNumber(n: nat)
    ensures Number(Decimal(n)) && NumberOf(Decimal(n)) == n
  {
    var s := Decimal(n);
    forall i | 0 <= i < |s|
      ensures s[i] in DIGITS
    {
      assert s[i] in s;
    }
    ReadDecimal(n);
  }

  lemma CappedTailIsValid(t: Tail, cap: nat)
    requires ValidTail(t)
    ensures var capped := CappedTail(t, cap);
            && ValidTail(capped) && capped.body == t.body
            && SkipOf(capped) == SkipOf(t) && NumberOf(capped.count) == cap
  {
    DecimalIsNumber(cap);
    if t.Comma? {
      DecimalIsNumber(NumberOf(t.skip));
    }
  }

  function AppendedTail(base: string, cap: nat): Tail {
    Limit(base + " ", "LIMIT", " ", Decimal(cap), NoOffset)
  }

  lemma AppendedTailIsValid(base: string, cap: nat)
    ensures var t := AppendedTail(base, cap);
            ValidTail(t) && TailText(t) == base + " LIMIT " + Decimal(cap)
            && SkipOf(t) == 0 && CountOf(t) == cap
  {
    DecimalIsNumber(cap);
    LimitKeyword(base + " ");
    var number := Decimal(cap);
    assert " " + ("LIMIT" + (" " + number)) == " LIMIT " + number;
  }

  lemma LimitKeyword(body: string)
    requires body == [] || !IsWordChar(body[|body| - 1])
    ensures KeywordAfter(body, "LIMIT")
  {
    assert Lower("LIMIT") == "limit";
  }

  // The tail the cap leaves behind, whenever it rewrites the base.
  lemma CappedBaseTail(base: string, cap: nat) returns (t: Tail)
    requires CappedBase(base, cap).Some?
    ensures ValidTail(t) && ParseTail(CappedBase(base, cap).value) == Some(t)
    ensures TailText(t) == CappedBase(base, cap).value && NumberOf(t.count) == cap
    ensures match ParseTail(base)
            case None => t == AppendedTail(base, cap)
            case Some(was) => ValidTail(was) && t == CappedTail(was, cap)
  {
    ParsedTailIsValid(base);
    match ParseTail(base)
    case None =>
      t := AppendedTail(base, cap);
      AppendedTailIsValid(base, cap);
      TailGrammarIsExact(CappedBase(base, cap).value, t);
    case Some(was) =>
      t := CappedTail(was, cap);
      CappedTailIsValid(was, cap);
      TailGrammarIsExact(CappedBase(base, cap).value, t);
  }

  // The tail of the kept base: the same body and offset, and the smaller of limit and cap.
  lemma KeptTail(base: string, cap: nat, t: Tail) returns (kept: Tail)
    requires ParseTail(base) == Some(t) && ValidTail(t) && TailText(t) == base
    ensures ValidTail(kept) && TailText(kept) == KeptBase(base, cap) && kept.body == t.body
    ensures SkipOf(kept) == SkipOf(t) && CountOf(kept) == Least(CountOf(t), cap)
  {
    hide TailText, ParseTail, Decimal;
    if NumberOf(t.count) <= cap {
      kept := t;
    } else {
      kept := CappedTail(t, cap);
      CappedTailIsValid(t, cap);
    }
  }

  /* ---- whole statements ---- */

  const EMPTY_STATEMENT := ";"

  lemma DigitIsNotBlank(c: char)
    requires c in DIGITS
    ensures c !in WHITESPACE && c != ';'
  {
  }

  lemma SemicolonIsNotBlank()
    ensures ';' !in WHITESPACE
  {
  }

  // What is left of a stripped statement, other than a lone semicolon, when its semicolon goes.
  lemma BaseIsClean(stripped: string)
    requires Stripped(stripped, WHITESPACE) && stripped != [] && stripped != EMPTY_STATEMENT
    ensures var base := WithoutSemicolon(stripped);
            base != [] && base[0] !in WHITESPACE && TrimRight(base, WHITESPACE) == base
  {
    if EndsWithSemicolon(stripped) {
      var body := stripped[..|stripped| - 1];
      assert stripped == body + ";";
      TrimRightStops(body, WHITESPACE);
    }
  }

  // Text that starts clean and ends neither in a blank nor in a semicolon reads back as itself.
  lemma StatementReadsBack(text: string, semicolon: bool)
    requires text != [] && text[0] !in WHITESPACE
    requires text[|text| - 1] !in WHITESPACE && text[|text| - 1] != ';'
    ensures var sql := Statement(text, semicolon);
            && Stripped(sql, WHITESPACE) && sql != []
            && EndsWithSemicolon(sql) == semicolon && WithoutSemicolon(sql) == text
  {
    var sql := Statement(text, semicolon);
    SemicolonIsNotBlank();
    assert sql[0] == text[0] && sql[|sql| - 1] == if semicolon then ';' else text[|text| - 1];
    if semicolon {
      assert sql[..|sql| - 1] == text;
      assert TrimRight(text, WHITESPACE) == text;
    }
  }

  lemma TailEndsInDigit(t: Tail)
    requires ValidTail(t)
    ensures TailText(t) != [] && TailText(t)[|TailText(t)| - 1] in DIGITS
  {
    if t.Limit? && t.offset.Offset? {
      var o := OffsetText(t.offset);
      assert o[|o| - 1] == t.offset.skip[|t.offset.skip| - 1];
      assert TailText(t)[|TailText(t)| - 1] == o[|o| - 1];
    } else {
      assert TailText(t)[|TailText(t)| - 1] == t.count[|t.count| - 1];
    }
  }

  lemma TailStarts(t: Tail)
    requires ValidTail(t)
    ensures TailText(t) != []
    ensures TailText(t)[0] == if t.body == [] then t.keyword[0] else t.body[0]
  {
    assert |t.keyword| == 5;
  }

  lemma TailIsClean(t: Tail)
    requires ValidTail(t) && t.keyword[0] == 'L'
    requires t.body != [] ==> t.body[0] !in WHITESPACE
    ensures var text := TailText(t);
            && text != [] && text[0] !in WHITESPACE
            && text[|text| - 1] !in WHITESPACE && text[|text| - 1] != ';'
  {
    TailEndsInDigit(t);
    DigitIsNotBlank(TailText(t)[|TailText(t)| - 1]);
    TailStarts(t);
  }

  lemma CappedBodyIsClean(base: string, cap: nat, t: Tail)
    requires base != [] && base[0] !in WHITESPACE
    requires match ParseTail(base)
             case None => t == AppendedTail(base, cap)
             case Some(was) => ValidTail(was) && TailText(was) == base && t == CappedTail(was, cap)
    ensures |t.keyword| == 5 && t.keyword[0] == 'L' && (t.body != [] ==> t.body[0] !in WHITESPACE)
  {
    match ParseTail(base)
    case None =>
    case Some(was) => TailStarts(was);
  }

  // A rewritten non-empty base starts where the original did and ends in the cap.
  lemma CappedStartsClean(base: string, cap: nat)
    requires base != [] && base[0] !in WHITESPACE && CappedBase(base, cap).Some?
    ensures var capped := CappedBase(base, cap).value;
            && capped != [] && capped[0] !in WHITESPACE
            && capped[|capped| - 1] !in WHITESPACE && capped[|capped| - 1] != ';'
  {
    var t := CappedBaseTail(base, cap);
    ParsedTailIsValid(base);
    CappedBodyIsClean(base, cap, t);
    TailIsClean(t);
  }

  // The capped statement is clean text over the kept base.
  lemma CappedStatement(stripped: string, cap: nat)
    requires Stripped(stripped, WHITESPACE) && stripped != [] && stripped != EMPTY_STATEMENT
    ensures var capped := CapStripped(stripped, cap);
            && Stripped(capped, WHITESPACE) && capped != []
            && WithoutSemicolon(capped) == KeptBase(WithoutSemicolon(stripped), cap)
  {
    var base := WithoutSemicolon(stripped);
    if CappedBase(base, cap).Some? {
      BaseIsClean(stripped);
      CappedStartsClean(base, cap);
      StatementReadsBack(CappedBase(base, cap).value, EndsWithSemicolon(stripped));
    }
  }

  // Capping twice is capping once, for every string but a lone semicolon with blanks around it.
  lemma RowCapIsIdempotentExactly(sql: string, cap: nat)
    ensures ApplyRowCap(ApplyRowCap(sql, cap), cap) == ApplyRowCap(sql, cap) <==> Strip(sql) != EMPTY_STATEMENT
  {
    StripIsStripped(sql, WHITESPACE);
    if Strip(sql) == EMPTY_STATEMENT {
      LoneSemicolonIsRewrittenTwice(sql, cap);
      assert |Statement(" LIMIT " + Decimal(cap), true)| != |Statement("LIMIT " + Decimal(cap), true)|;
    } else if Strip(sql) != [] {
      CappingAgainChangesNothing(Strip(sql), cap);
    }
  }

  lemma KeptBaseIsWithinCap(base: string, cap: nat)
    ensures CappedBase(KeptBase(base, cap), cap).None?
  {
    if CappedBase(base, cap).Some? {
      var t := CappedBaseTail(base, cap);
    }
  }

  lemma CappingAgainChangesNothing(stripped: string, cap: nat)
    requires Stripped(stripped, WHITESPACE) && stripped != [] && stripped != EMPTY_STATEMENT
    ensures ApplyRowCap(CapStripped(stripped, cap), cap) == CapStripped(stripped, cap)
  {
    CappedStatement(stripped, cap);
    StripFixesStripped(CapStripped(stripped, cap), WHITESPACE);
    KeptBaseIsWithinCap(WithoutSemicolon(stripped), cap);
  }

  lemma LoneSemicolonOnce(cap: nat)
    ensures CapStripped(EMPTY_STATEMENT, cap) == Statement(" LIMIT " + Decimal(cap), true)
  {
    assert EMPTY_STATEMENT[..|EMPTY_STATEMENT| - 1] == [];
    EmptyBaseIsAppended(cap);
  }

  lemma EmptyBaseIsAppended(cap: nat)
    ensures CappedBase("", cap) == Some(" LIMIT " + Decimal(cap))
  {
    ParsedTailIsValid("");
    if ParseTail("").Some? {
      TailEndsInDigit(ParseTail("").value);
    }
    assert "" + " LIMIT " + Decimal(cap) == " LIMIT " + Decimal(cap);
  }

  lemma BareTail(bare: string, cap: nat) returns (t: Tail)
    requires bare == "LIMIT " + Decimal(cap)
    ensures ValidTail(t) && TailText(t) == bare && NumberOf(t.count) == cap
  {
    DecimalIsNumber(cap);
    LimitKeyword("");
    t := Limit("", "LIMIT", " ", Decimal(cap), NoOffset);
    assert "LIMIT" + " " == "LIMIT ";
  }

  lemma BareLimitIsKept(bare: string, cap: nat)
    requires bare == "LIMIT " + Decimal(cap)
    ensures CappedBase(bare, cap).None? && bare[|bare| - 1] in DIGITS
  {
    var t := BareTail(bare, cap);
    TailGrammarIsExact(bare, t);
    TailEndsInDigit(t);
  }

  lemma BareStatementIsKept(bare: string, cap: nat)
    requires bare == "LIMIT " + Decimal(cap)
    ensures var kept := Statement(bare, true);
            Stripped(kept, WHITESPACE) && kept != [] && CapStripped(kept, cap) == kept
  {
    hide CappedBase, Decimal, Statement, EndsWithSemicolon, WithoutSemicolon;
    BareLimitIsKept(bare, cap);
    DigitIsNotBlank(bare[|bare| - 1]);
    StatementReadsBack(bare, true);
  }

  lemma StripLeadingBlank(kept: string)
    requires Stripped(kept, WHITESPACE)
    ensures Strip([' '] + kept) == kept
  {
    StripFixesStripped(kept, WHITESPACE);
    StripIgnoresLeadingBlank(' ', kept, WHITESPACE);
  }

  lemma PaddedStatement(number: string)
    ensures Statement(" LIMIT " + number, true) == [' '] + Statement("LIMIT " + number, true)
  {
  }

  // Capping once leaves the padded tail, whose stripped form capping leaves alone.
  lemma LoneSemicolonSteps(sql: string, cap: nat)
    requires Strip(sql) == EMPTY_STATEMENT
    ensures var once, kept := Statement(" LIMIT " + Decimal(cap), true), Statement("LIMIT " + Decimal(cap), true);
            ApplyRowCap(sql, cap) == once && Strip(once) == kept && kept != [] && CapStripped(kept, cap) == kept
  {
    hide Decimal, CapStripped, StripOf, Statement;
    LoneSemicolonOnce(cap);
    PaddedStatement(Decimal(cap));
    BareStatementIsKept("LIMIT " + Decimal(cap), cap);
    StripLeadingBlank(Statement("LIMIT " + Decimal(cap), true));
  }

  // A lone semicolon becomes a bare tail with a blank in front, which a second pass strips.
  lemma LoneSemicolonIsRewrittenTwice(sql: string, cap: nat)
    requires Strip(sql) == EMPTY_STATEMENT
    ensures ApplyRowCap(sql, cap) == Statement(" LIMIT " + Decimal(cap), true)
    ensures ApplyRowCap(ApplyRowCap(sql, cap), cap) == Statement("LIMIT " + Decimal(cap), true)
  {
    hide Decimal, CapStripped, StripOf, Statement;
    LoneSemicolonSteps(sql, cap);
  }
}
