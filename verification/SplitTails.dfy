/** Caps written across the end of a comment (RowCapReading.AcrossComment) do not keep the meaning. */
module SplitTails {
  import opened Text
  import opened RowCapping
  import opened SqlReading
  import opened RowCapReading

  /* ---- what is no tail ---- */

  lemma CutLimitEnds(s: string)
    requires CutLimit(s).Some?
    ensures |s| >= 5 && s[|s| - 2] in {'i', 'I'} && s[|s| - 1] in {'t', 'T'}
  {
    KeywordEnds(CutLimit(s).value.0, CutLimit(s).value.1);
    var keyword := CutLimit(s).value.1;
    assert s[|s| - 2] == keyword[3] && s[|s| - 1] == keyword[4];
  }

  lemma DigitIsNoEnd(c: char)
    requires c in DIGITS
    ensures c !in {'t', 'T'} && c != ','
  {
  }

  // A number right behind a number is no limit.
  lemma NoLimitNumber(s: string, gap: string, number: string)
    requires s != [] && s[|s| - 1] in DIGITS && Blanks(gap) && gap != [] && Number(number)
    ensures CutLimitNumber(s + gap + number).None?
  {
    hide CutLimit, TrimRight, Peel;
    DigitIsNotBlank(s[|s| - 1]);
    DigitIsNoEnd(s[|s| - 1]);
    PeelNumber(s, gap, number);
    if CutLimit(s).Some? {
      CutLimitEnds(s);
    }
  }

  lemma NoOffsetKeyword(s: string, gap: string, skip: string)
    requires s != [] && s[|s| - 1] !in {'t', 'T'}
    ensures CutOffsetKeyword(s, gap, skip).None?
  {
    var keyword := CutWord(s, 6).1;
    if |keyword| == 6 {
      assert keyword[5] == s[|s| - 1];
      LowerAt(keyword, 5);
    }
  }

  lemma NumberAfterNumber(s: string, gap: string, number: string)
    requires s != [] && s[|s| - 1] in DIGITS && Blanks(gap) && gap != [] && Number(number)
    ensures ParseTail(s + gap + number).None?
  {
    hide CutLimitNumber, TrimRight, Peel, CutOffsetKeyword;
    DigitIsNotBlank(s[|s| - 1]);
    DigitIsNoEnd(s[|s| - 1]);
    PeelNumber(s, gap, number);
    NoLimitNumber(s, gap, number);
    NoOffsetKeyword(s, gap, number);
  }

  // A tail that ends in an OFFSET part is a LIMIT in front of it.
  lemma OffsetBehind(s: string, o: OffsetPart)
    requires s != [] && s[|s| - 1] !in WHITESPACE && o.Offset? && ValidOffset(o)
    ensures ParseTail(s + OffsetText(o)) == CutLimitBefore(s, o)
  {
    hide CutLimitNumber, TrimRight, Peel, CutOffset, CutComma;
    OffsetTextAfter(s, o);
    CutOffsetPart(s, o);
    var s2 := s + o.lead + o.keyword;
    OffsetKeywordEnds(o.keyword);
    assert s2[|s2| - 1] == o.keyword[5] && s2[|s2| - 2] == o.keyword[4];
    NoLimitBeforeNumber(s2, o.gap, o.skip);
  }

  lemma OffsetKeywordEnds(keyword: string)
    requires Lower(keyword) == "offset"
    ensures |keyword| == 6 && keyword[4] in {'e', 'E'} && keyword[5] in {'t', 'T'}
  {
    hide Lower, LowerChar;
    LowerAt(keyword, 4);
    LowerAt(keyword, 5);
    OffsetLetters(keyword[4], keyword[5]);
  }

  lemma OffsetLetters(c: char, d: char)
    requires LowerChar(c) == "offset"[4] && LowerChar(d) == "offset"[5]
    ensures c in {'e', 'E'} && d in {'t', 'T'}
  {
  }

  lemma NoLimitBeforeNumber(s: string, gap: string, number: string)
    requires |s| >= 2 && s[|s| - 1] in {'t', 'T'} && s[|s| - 2] in {'e', 'E'}
    requires Blanks(gap) && gap != [] && Number(number)
    ensures CutLimitNumber(s + gap + number).None?
  {
    hide CutLimit, TrimRight, Peel;
    PeelNumber(s, gap, number);
    if CutLimit(s).Some? {
      CutLimitEnds(s);
    }
  }

  lemma OffsetAlone(keyword: string, gap: string, skip: string)
    requires Lower(keyword) == "offset" && Blanks(gap) && gap != [] && Number(skip)
    ensures ParseTail(keyword + gap + skip).None?
  {
    hide TrimRight, Peel, CutLimitNumber;
    OffsetKeywordEnds(keyword);
    PeelBackToKeyword(keyword, gap, skip);
    NoLimitBeforeNumber(keyword, gap, skip);
    CutWordExact("", keyword);
    assert "" + keyword == keyword;
    assert Peel("", WHITESPACE) == ("", "") by { PeelExact("", "", WHITESPACE); }
  }

  lemma NumberAlone(number: string)
    requires Number(number)
    ensures ParseTail(number).None?
  {
    hide TrimRight, Peel;
    assert "" + number == number && "" + "" == "";
    PeelExact([], number, DIGITS);
    PeelExact([], [], WHITESPACE);
  }

  // A tail that ends in a comma part is a LIMIT with a number in front of it.
  function CommaTail(s: string, before: string, after: string, count: string): Option<Tail> {
    match CutLimitNumber(s)
    case None => None
    case Some((body, keyword, gap, skip)) => Some(Comma(body, keyword, gap, skip, before, after, count))
  }

  lemma CommaBehind(s: string, before: string, after: string, count: string)
    requires s != [] && s[|s| - 1] !in WHITESPACE && Blanks(before) && Blanks(after) && Number(count)
    ensures ParseTail(s + before + "," + after + count) == CommaTail(s, before, after, count)
  {
    hide TrimRight, Peel, CutLimitNumber, CutOffsetKeyword;
    var s2 := s + before + ",";
    CommaIsNoBlank(s2[|s2| - 1]);
    PeelNumber(s2, after, count);
    assert s2[..|s2| - 1] == s + before;
    PeelExact(s, before, WHITESPACE);
    NoOffsetKeyword(s2, after, count);
    if after != "" {
      NoLimitBehindComma(s2, after, count);
    } else {
      assert s2 + after == s2;
      NoLimitWithoutGap(s2, count);
    }
  }

  lemma CommaIsNoBlank(c: char)
    requires c == ','
    ensures c !in WHITESPACE && c !in DIGITS && c !in {'t', 'T'}
  {
  }

  lemma NoLimitBehindComma(s: string, gap: string, number: string)
    requires s != [] && s[|s| - 1] == ',' && Blanks(gap) && gap != [] && Number(number)
    ensures CutLimitNumber(s + gap + number).None?
  {
    hide CutLimit, TrimRight, Peel;
    CommaIsNoBlank(s[|s| - 1]);
    PeelNumber(s, gap, number);
    if CutLimit(s).Some? {
      CutLimitEnds(s);
    }
  }

  lemma NoLimitWithoutGap(s: string, number: string)
    requires s != [] && s[|s| - 1] == ',' && Number(number)
    ensures CutLimitNumber(s + "" + number).None?
  {
    hide CutLimit, TrimRight, Peel;
    CommaIsNoBlank(s[|s| - 1]);
    PeelNumber(s, "", number);
    assert s + "" == s;
  }

  /* ---- a cap across the end of a comment: texts ---- */

  // What the database reads when a comment ends inside the blanks `gap`: what came before the
  // comment, some blanks, and what follows.
  function Joined(y: string, blanks: string, w: string): string {
    if y == "" then w else y + blanks + w
  }

  // The blanks at the end of what was seen.
  function Trail(z: string): nat {
    |z| - |TrimRight(z, WHITESPACE)|
  }

  // Blanks, the stripped text, and blanks.
  lemma StripParts(z: string) returns (lead: string, trail: string)
    ensures AllBlank(lead) && AllBlank(trail) && |trail| == Trail(z)
    ensures z == (lead + Strip(z)) + trail && Stripped(Strip(z), WHITESPACE)
  {
    hide WHITESPACE;
    var t := TrimRight(z, WHITESPACE);
    TrimRightStops(z, WHITESPACE);
    trail := z[|t|..];
    assert z == t + trail;
    TrimBlanks(t, trail);
    TrimLeftDrops(t);
    lead := t[..|t| - |TrimLeft(t, WHITESPACE)|];
    assert t == lead + TrimLeft(t, WHITESPACE);
    TrimLeftStops(t, WHITESPACE);
  }

  lemma JoinedIsStripped(y: string, blanks: string, w: string)
    requires AllBlank(blanks) && Stripped(y, WHITESPACE)
    requires w != [] && w[0] !in WHITESPACE && w[|w| - 1] !in WHITESPACE
    ensures Strip(y + (blanks + w)) == Joined(y, blanks, w)
  {
    hide WHITESPACE;
    var whole := y + (blanks + w);
    if y == "" {
      assert whole == blanks + w;
      StripLeading(blanks, w);
      StripFixesStripped(w, WHITESPACE);
    } else {
      assert whole[0] == y[0] && whole[|whole| - 1] == w[|w| - 1] && whole == y + blanks + w;
      StripFixesStripped(whole, WHITESPACE);
    }
  }

  lemma JoinStripped(z: string, gap: string, w: string) returns (blanks: string)
    requires Blanks(gap) && gap != [] && w != [] && w[0] !in WHITESPACE && w[|w| - 1] !in WHITESPACE
    ensures Strip(z + gap + w) == Joined(Strip(z), blanks, w)
    ensures Blanks(blanks) && Trail(z) < |blanks| <= Trail(z) + |gap|
  {
    hide WHITESPACE, Strip, Joined, Trail;
    var lead, trail := StripParts(z);
    blanks := trail + gap;
    Regrouped(lead, Strip(z), trail, gap, w);
    StripLeading(lead, Strip(z) + (blanks + w));
    JoinedIsStripped(Strip(z), blanks, w);
  }

  lemma Regrouped(lead: string, y: string, trail: string, gap: string, w: string)
    ensures ((lead + y) + trail) + gap + w == lead + (y + ((trail + gap) + w))
  {
  }

  lemma FindNewline(s: string) returns (i: nat)
    requires '\n' in s
    ensures i < |s| && s[i] == '\n' && '\n' !in s[..i]
  {
    i := 0;
    while s[i] != '\n'
      invariant i < |s| && '\n' !in s[..i] && exists j :: i <= j < |s| && s[j] == '\n'
      decreases |s| - i
    {
      i := i + 1;
    }
  }

  lemma NewlineStep(m: Mode)
    requires m.Line?
    ensures Step(m, '\n') == Code && Shown(m, '\n') == "\n" && HeldAtEnd(Code) == "" && !Open(Code)
  {
  }

  // A comment that ends in the blanks `gap` hides what comes before them.
  lemma SeenAcross(body: string, hidden: string, gap: string, w: string) returns (blanks: string)
    requires After(body).Line? && '\n' !in hidden && Blanks(gap) && '\n' in gap && Plain(w)
    ensures After(body + hidden + gap + w) == Code && Seen(body + hidden + gap + w) == Seen(body) + blanks + w
    ensures Blanks(blanks) && 0 < |blanks| <= |gap|
  {
    hide After, Seen, Step, Shown, PlainChar, Open;
    var i := FindNewline(gap);
    var early, late := hidden + gap[..i], gap[i + 1..];
    UnseenAfter(body, early);
    Snoc(body + early, '\n');
    NewlineStep(After(body));
    BlanksAndNumbersArePlain(late);
    PlainInCode((body + early) + ['\n'], late + w);
    blanks := ['\n'] + late;
    assert blanks == gap[i..] && body + hidden + gap + w == ((body + early) + ['\n']) + (late + w);
    assert Seen(body) + ['\n'] + (late + w) == Seen(body) + blanks + w;
  }

  lemma ReadAcross(body: string, hidden: string, gap: string, w: string) returns (blanks: string)
    requires After(body).Line? && '\n' !in hidden && Blanks(gap) && '\n' in gap
    requires Plain(w) && w != [] && w[0] !in WHITESPACE && w[|w| - 1] in DIGITS
    ensures ReadingOf(body + hidden + gap + w) == Parsed(Joined(Strip(Seen(body)), blanks, w))
    ensures Blanks(blanks) && Trail(Seen(body)) < |blanks| <= Trail(Seen(body)) + |gap|
  {
    hide After, Seen, PlainChar, Strip, Joined, Trail, TrimRight, Blanks, Parsed;
    var seen := SeenAcross(body, hidden, gap, w);
    var text := body + hidden + gap + w;
    assert text[|text| - 1] == w[|w| - 1];
    DigitEnds(text);
    DigitEnds(w);
    NewlineStep(After(body));
    blanks := JoinStripped(Seen(body), seen, w);
    assert Uncommented(text) == Seen(body) + seen + w;
  }

  /* ---- a cap across the end of a comment: readings ---- */

  // A capped reading is no plain query, and a refused one comes from a refused one.
  lemma LimitedByCap(r: Reading, cap: nat, k: Reading)
    requires k == Capped(r, cap) && !k.Refused?
    ensures k.Limited? && !r.Refused? && r.text == k.text
  {
  }

  lemma QueryIsShorter(text: string)
    requires Parsed(text).Limited?
    ensures |Parsed(text).text| < |text| && ParseTail(text).Some? && text != "" && text[|text| - 1] in DIGITS
  {
    hide ParseTail, TailText;
    var t := ParseTail(text).value;
    ParsedTailIsValid(text);
    TailEndsInDigit(t);
    RestIsPlain(t);
  }

  // The same query, once with the number as its count and once as its offset.
  lemma CountIsNoSkip(query: string, n: nat, count: nat, cap: nat)
    requires 0 < cap < count && WindowOf(query, 0, n) == Capped(WindowOf(query, n, count), cap)
    ensures WindowOf(query, 0, n) == Refused
  {
    hide TakesLimit;
  }

  // No cap can be kept by the shorter text when the longer one has no tail.
  lemma NoTailNoCap(short: string, long: string, cap: nat)
    requires |short| <= |long| && (Parsed(short).Limited? ==> ParseTail(long).None?)
    requires Parsed(short) == Capped(Parsed(long), cap)
    ensures Parsed(short) == Refused
  {
    hide ParseTail, TakesLimit;
    if !Parsed(short).Refused? {
      LimitedByCap(Parsed(long), cap, Parsed(short));
      QueryIsShorter(short);
    }
  }

  // A parsed LIMIT over this text, by itself.
  lemma ParsedLimit(body: string, keyword: string, gap: string, count: string)
    requires KeywordAfter(body, keyword) && Blanks(gap) && gap != [] && Number(count)
    ensures Parsed(body + keyword + gap + count) == WindowOf(TrimRight(body, WHITESPACE), 0, NumberOf(count))
  {
    hide ParseTail, KeywordAfter, Blanks, TrimRight, TakesLimit;
    var t := Limit(body, keyword, gap, count, NoOffset);
    assert TailText(t) == body + keyword + gap + count;
    TailGrammarIsExact(body + keyword + gap + count, t);
  }

  // The comment ended right before the comma.
  lemma CommaAcross(y: string, blanks: string, after: string, count: string, cap: nat)
    requires Stripped(y, WHITESPACE) && y != "" && Blanks(blanks) && Blanks(after) && Number(count)
    requires 0 < cap < NumberOf(count) && Parsed(y) == Capped(Parsed(y + blanks + "," + after + count), cap)
    ensures Parsed(y) == Refused
  {
    hide ParseTail, CutLimitNumber, TrimRight, TakesLimit, Capped, WindowOf, NumberOf, Blanks;
    var long := y + blanks + "," + after + count;
    CommaBehind(y, blanks, after, count);
    CutLimitNumberIsSound(y);
    match CutLimitNumber(y)
    case None => NoTailNoCap(y, long, cap);
    case Some((body, keyword, gap, skip)) =>
      ParsedLimit(body, keyword, gap, skip);
      CountIsNoSkip(TrimRight(body, WHITESPACE), NumberOf(skip), NumberOf(count), cap);
  }

  // The comment ended right before the number of the OFFSET, and, over the original count, earlier.
  lemma OffsetAcross(y: string, blanks: string, fewer: string, count: string, o: OffsetPart, cap: nat)
    requires Stripped(y, WHITESPACE) && y != "" && Blanks(blanks) && blanks != [] && Blanks(fewer) && fewer != []
    requires Number(count) && o.Offset? && ValidOffset(o) && |fewer| <= |blanks| + |o.gap|
    requires 0 < cap < NumberOf(count)
    requires Parsed(y + fewer + o.skip) == Capped(Parsed(y + blanks + (count + OffsetText(o))), cap)
    ensures Parsed(y + fewer + o.skip) == Refused
  {
    hide ParseTail, CutLimit, TrimRight, TakesLimit, Capped, WindowOf, NumberOf, Blanks, Peel, Lower;
    var s := y + blanks + count;
    assert y + blanks + (count + OffsetText(o)) == s + OffsetText(o);
    assert s[|s| - 1] == count[|count| - 1];
    DigitIsNotBlank(count[|count| - 1]);
    OffsetBehind(s, o);
    PeelNumber(y, blanks, count);
    OffsetTextAfter(s, o);
    match CutLimit(y)
    case None => NoTailNoCap(y + fewer + o.skip, s + OffsetText(o), cap);
    case Some((body, keyword)) =>
      LimitParts(y, body, keyword);
      ParsedLimit(body, keyword, fewer, o.skip);
      CountIsNoSkip(TrimRight(body, WHITESPACE), NumberOf(o.skip), NumberOf(count), cap);
  }

  lemma LimitParts(s: string, body: string, keyword: string)
    requires CutLimit(s) == Some((body, keyword))
    ensures s == body + keyword && KeywordAfter(body, keyword)
  {
  }

  lemma OffsetBehindNumber(y: string, blanks: string, count: string, o: OffsetPart)
    requires y != "" && y[|y| - 1] in DIGITS && Blanks(blanks) && blanks != [] && Number(count) && ValidOffset(o)
    ensures ParseTail(y + blanks + (count + OffsetText(o))).None?
  {
    hide ParseTail, CutLimitNumber, Blanks, Lower;
    var s := y + blanks + count;
    assert y + blanks + (count + OffsetText(o)) == s + OffsetText(o);
    if o.Offset? {
      assert s[|s| - 1] == count[|count| - 1];
      DigitIsNotBlank(count[|count| - 1]);
      OffsetBehind(s, o);
      NoLimitNumber(y, blanks, count);
    } else {
      assert s + "" == s;
      NumberAfterNumber(y, blanks, count);
    }
  }

  lemma CommaBehindNumber(y: string, blanks: string, t: Tail)
    requires y != "" && y[|y| - 1] in DIGITS && Blanks(blanks) && blanks != [] && t.Comma? && ValidTail(t)
    ensures ParseTail(y + blanks + (t.skip + t.before + "," + t.after + t.count)).None?
  {
    hide ParseTail, CutLimitNumber, Blanks, Lower, KeywordAfter;
    var s := y + blanks + t.skip;
    assert y + blanks + (t.skip + t.before + "," + t.after + t.count) == s + t.before + "," + t.after + t.count;
    assert s[|s| - 1] == t.skip[|t.skip| - 1];
    DigitIsNotBlank(t.skip[|t.skip| - 1]);
    CommaBehind(s, t.before, t.after, t.count);
    NoLimitNumber(y, blanks, t.skip);
  }

  // The comment ended in front of the OFFSET, and, over the original count, earlier.
  lemma LeadAcross(y: string, blanks: string, fewer: string, count: string, o: OffsetPart, cap: nat)
    requires Stripped(y, WHITESPACE) && Blanks(blanks) && blanks != [] && Blanks(fewer) && fewer != []
    requires Number(count) && o.Offset? && ValidOffset(o) && |fewer| <= |blanks| + |o.lead|
    requires var short := Joined(y, fewer, o.keyword + o.gap + o.skip);
             Parsed(short) == Capped(Parsed(Joined(y, blanks, count + OffsetText(o))), cap)
    ensures Parsed(Joined(y, fewer, o.keyword + o.gap + o.skip)) == Refused
  {
    hide ParseTail, CutLimitNumber, Blanks, Lower, Parsed, Capped;
    var short, long := Joined(y, fewer, o.keyword + o.gap + o.skip), Joined(y, blanks, count + OffsetText(o));
    OffsetTextAfter(count, o);
    if y == "" {
      OffsetAlone(o.keyword, o.gap, o.skip);
      NoTail(short);
    } else {
      var part := Offset(fewer, o.keyword, o.gap, o.skip);
      OffsetTextAfter(y, part);
      assert short == y + OffsetText(part);
      OffsetBehind(y, part);
      CutLimitNumberIsSound(y);
      if CutLimitNumber(y).Some? {
        var number := CutLimitNumber(y).value.3;
        assert y[|y| - 1] == number[|number| - 1];
        OffsetBehindNumber(y, blanks, count, o);
      } else {
        NoTail(short);
      }
    }
    NoTailNoCap(short, long, cap);
  }

  lemma NoTail(text: string)
    requires ParseTail(text).None?
    ensures !Parsed(text).Limited?
  {
  }

  /* ---- a cap across the end of a comment: statements ---- */

  lemma ReadHidden(body: string, rest: string)
    requires After(body).Line? && '\n' !in rest && rest != [] && rest[|rest| - 1] in DIGITS
    ensures ReadingOf(body + rest) == Parsed(Strip(Seen(body)))
  {
    hide After, Seen, Strip, Parsed, HeldAtEnd, Open;
    var text := body + rest;
    assert text[|text| - 1] == rest[|rest| - 1];
    DigitEnds(text);
    UnseenAfter(body, rest);
    NothingHeldInLine(After(body));
    assert Uncommented(text) == Seen(body) + "" == Seen(body);
  }

  lemma NothingHeldInLine(m: Mode)
    requires m.Line?
    ensures HeldAtEnd(m) == "" && !Open(m)
  {
  }

  // The text of a comma tail, up to and after each of its gaps.
  lemma CommaPieces(t: Tail)
    requires t.Comma?
    ensures TailText(t) == t.body + t.keyword + t.gap + (t.skip + t.before + "," + t.after + t.count)
    ensures TailText(t) == t.body + (t.keyword + t.gap + t.skip) + t.before + ("," + t.after + t.count)
    ensures TailText(t) == t.body + (t.keyword + t.gap + t.skip + t.before + ",") + t.after + t.count
  {
  }

  ghost predicate CommaCase(was: Tail, cap: nat) {
    && was.Comma? && ValidTail(was) && After(was.body).Line? && 0 < cap < CountOf(was)
    && Parsed(Strip(Seen(was.body))) == Capped(ReadingOf(TailText(was)), cap)
  }

  lemma CommaOutInGap(was: Tail, cap: nat)
    requires CommaCase(was, cap) && '\n' in was.gap
    ensures Parsed(Strip(Seen(was.body))) == Refused
  {
    hide After, Seen, Strip, Parsed, Capped, Blanks, Lower, KeywordAfter, ParseTail, PlainChar, NumberOf, Trail, Plain,
         TailText;
    var y := Strip(Seen(was.body));
    CommaTailIsPlain(was);
    CommaPieces(was);
    var w := was.skip + was.before + "," + was.after + was.count;
    var blanks := ReadAcross(was.body, was.keyword, was.gap, w);
    if Parsed(y).Limited? {
      QueryIsShorter(y);
      CommaBehindNumber(y, blanks, was);
    }
    NoTailNoCap(y, Joined(y, blanks, w), cap);
  }

  lemma CommaOutInBefore(was: Tail, cap: nat)
    requires CommaCase(was, cap) && '\n' !in was.gap && '\n' in was.before
    ensures Parsed(Strip(Seen(was.body))) == Refused
  {
    hide After, Seen, Strip, Parsed, Capped, Blanks, Lower, KeywordAfter, ParseTail, PlainChar, NumberOf, Trail, Plain,
         TailText;
    var y := Strip(Seen(was.body));
    CommaTailIsPlain(was);
    CommaPieces(was);
    var hidden, w := was.keyword + was.gap + was.skip, "," + was.after + was.count;
    var blanks := ReadAcross(was.body, hidden, was.before, w);
    if y == "" {
      NothingIsRefused();
    } else {
      StripIsStripped(Seen(was.body), WHITESPACE);
      StripIs(Seen(was.body));
      assert y + blanks + w == y + blanks + "," + was.after + was.count;
      CommaAcross(y, blanks, was.after, was.count, cap);
    }
  }

  lemma StripIs(s: string)
    ensures Strip(s) == StripOf(s, WHITESPACE)
  {
  }

  lemma NothingIsRefused()
    ensures Parsed("") == Refused
  {
    hide ParseTail;
    if Parsed("").Limited? {
      QueryIsShorter("");
    }
  }

  lemma CommaOutInAfter(was: Tail, cap: nat)
    requires CommaCase(was, cap) && '\n' !in was.gap && '\n' !in was.before && '\n' in was.after
    ensures Parsed(Strip(Seen(was.body))) == Refused
  {
    hide After, Seen, Strip, Parsed, Capped, Blanks, Lower, KeywordAfter, ParseTail, PlainChar, NumberOf, Trail, Plain,
         TailText;
    var y := Strip(Seen(was.body));
    CommaTailIsPlain(was);
    CommaPieces(was);
    var hidden := was.keyword + was.gap + was.skip + was.before + ",";
    var blanks := ReadAcross(was.body, hidden, was.after, was.count);
    if Parsed(y).Limited? {
      QueryIsShorter(y);
      NumberAfterNumber(y, blanks, was.count);
    }
    NoTailNoCap(y, Joined(y, blanks, was.count), cap);
  }

  lemma CommaTailIsPlain(was: Tail)
    requires was.Comma? && ValidTail(was)
    ensures var w := "," + was.after + was.count;
            Plain(w) && w[0] !in WHITESPACE && w[|w| - 1] in DIGITS
    ensures var w := was.skip + was.before + "," + was.after + was.count;
            Plain(w) && w[0] !in WHITESPACE && w[|w| - 1] in DIGITS
    ensures Plain(was.count) && was.count[0] !in WHITESPACE && was.count[|was.count| - 1] in DIGITS
    ensures '\n' !in was.keyword && '\n' !in was.skip
  {
    hide Blanks, Lower, PlainChar;
    BlanksAndNumbersArePlain(was.before);
    BlanksAndNumbersArePlain(was.after);
    BlanksAndNumbersArePlain(was.count);
    BlanksAndNumbersArePlain(was.skip);
    LetterIsPlain(',');
    CommaIsNoBlank(',');
    DigitIsNotBlank(was.count[0]);
    DigitIsNotBlank(was.skip[0]);
    NoNewlineInKeyword(was.keyword);
    NoNewlineInNumber(was.skip);
  }

  lemma LimitTailIsPlain(was: Tail)
    requires was.Limit? && ValidTail(was)
    ensures var w := was.count + OffsetText(was.offset);
            Plain(w) && w[0] !in WHITESPACE && w[|w| - 1] in DIGITS
    ensures '\n' !in was.keyword
  {
    hide Blanks, Lower, PlainChar, ValidOffset;
    BlanksAndNumbersArePlain(was.count);
    OffsetIsPlain(was.offset);
    DigitIsNotBlank(was.count[0]);
    NoNewlineInKeyword(was.keyword);
    OffsetEndsInDigit(was.offset);
  }

  lemma OffsetEndsInDigit(o: OffsetPart)
    requires ValidOffset(o)
    ensures var w := OffsetText(o); w != "" ==> w[|w| - 1] in DIGITS
  {
    if o.Offset? {
      assert OffsetText(o)[|OffsetText(o)| - 1] == o.skip[|o.skip| - 1];
    }
  }

  lemma OffsetPieces(o: OffsetPart)
    requires o.Offset? && ValidOffset(o)
    ensures Plain(o.skip) && o.skip[0] !in WHITESPACE && o.skip[|o.skip| - 1] in DIGITS
    ensures var w := o.keyword + o.gap + o.skip; Plain(w) && w[0] !in WHITESPACE && w[|w| - 1] in DIGITS
    ensures '\n' !in o.keyword && '\n' !in o.skip
  {
    hide Blanks, Lower, PlainChar, WHITESPACE;
    KeywordIsPlain(o.keyword, "offset");
    BlanksAndNumbersArePlain(o.gap);
    BlanksAndNumbersArePlain(o.skip);
    DigitIsNotBlank(o.skip[0]);
    OffsetKeywordEnds(o.keyword);
    NotBlank(o.keyword[0]);
    NoNewlineInNumber(o.skip);
    forall i | 0 <= i < |o.keyword|
      ensures o.keyword[i] != '\n'
    {
      LowerAt(o.keyword, i);
    }
  }

  ghost predicate LimitCase(was: Tail, cap: nat) {
    was.Limit? && ValidTail(was) && After(was.body).Line? && '\n' in was.gap && 0 < cap < CountOf(was)
  }

  // The original limit tail comes out of the comment in front of its count.
  lemma LimitOut(was: Tail, cap: nat) returns (blanks: string)
    requires LimitCase(was, cap)
    ensures Blanks(blanks) && Trail(Seen(was.body)) < |blanks|
    ensures ReadingOf(TailText(was)) ==
            Parsed(Joined(Strip(Seen(was.body)), blanks, was.count + OffsetText(was.offset)))
  {
    hide After, Seen, Strip, Parsed, Blanks, Lower, KeywordAfter, PlainChar, NumberOf, Trail, Plain, ValidOffset,
         OffsetText, Joined;
    LimitTailIsPlain(was);
    var w := was.count + OffsetText(was.offset);
    assert TailText(was) == was.body + was.keyword + was.gap + w;
    blanks := ReadAcross(was.body, was.keyword, was.gap, w);
  }

  // The capped tail stays in the comment.
  lemma LimitStaysIn(was: Tail, cap: nat)
    requires LimitCase(was, cap) && Parsed(Strip(Seen(was.body))) == Capped(ReadingOf(TailText(was)), cap)
    ensures Parsed(Strip(Seen(was.body))) == Refused
  {
    hide After, Seen, Strip, Parsed, Capped, Blanks, Lower, KeywordAfter, ParseTail, PlainChar, NumberOf, Trail, Plain,
         TailText, ValidOffset, OffsetText;
    var y, w := Strip(Seen(was.body)), was.count + OffsetText(was.offset);
    var blanks := LimitOut(was, cap);
    if Parsed(y).Limited? {
      QueryIsShorter(y);
      OffsetBehindNumber(y, blanks, was.count, was.offset);
    }
    NoTailNoCap(y, Joined(y, blanks, w), cap);
  }

  // The capped tail comes out in front of its OFFSET.
  lemma LimitOutInLead(was: Tail, cap: nat, hidden: string)
    requires LimitCase(was, cap) && was.offset.Offset? && '\n' in was.offset.lead && '\n' !in hidden
    requires var o := was.offset; ReadingOf(was.body + hidden + o.lead + (o.keyword + o.gap + o.skip)) ==
                                  Capped(ReadingOf(TailText(was)), cap)
    ensures Capped(ReadingOf(TailText(was)), cap) == Refused
  {
    hide After, Seen, Strip, Parsed, Capped, Lower, KeywordAfter, ParseTail, PlainChar, NumberOf, Trail, Plain,
         TailText, OffsetText, Joined, ReadingOf;
    var y, o := Strip(Seen(was.body)), was.offset;
    var blanks := LimitOut(was, cap);
    OffsetPieces(o);
    var fewer := ReadAcross(was.body, hidden, o.lead, o.keyword + o.gap + o.skip);
    StripIsStripped(Seen(was.body), WHITESPACE);
    StripIs(Seen(was.body));
    LeadAcross(y, blanks, fewer, was.count, o, cap);
  }

  // The capped tail comes out in front of the number of its OFFSET.
  lemma LimitOutInOffset(was: Tail, cap: nat, hidden: string)
    requires LimitCase(was, cap) && was.offset.Offset? && '\n' in was.offset.gap && '\n' !in hidden
    requires var o := was.offset; ReadingOf(was.body + hidden + o.gap + o.skip) == Capped(ReadingOf(TailText(was)), cap)
    ensures Capped(ReadingOf(TailText(was)), cap) == Refused
  {
    hide After, Seen, Strip, Parsed, Capped, Lower, KeywordAfter, ParseTail, PlainChar, NumberOf, Trail, Plain,
         TailText, OffsetText, ReadingOf;
    var y, o := Strip(Seen(was.body)), was.offset;
    var blanks := LimitOut(was, cap);
    OffsetPieces(o);
    var fewer := ReadAcross(was.body, hidden, o.gap, o.skip);
    StripIsStripped(Seen(was.body), WHITESPACE);
    StripIs(Seen(was.body));
    if y == "" {
      NumberAlone(o.skip);
      NoTail(o.skip);
      NeverAQuery(ReadingOf(TailText(was)), cap);
    } else {
      OffsetAcross(y, blanks, fewer, was.count, o, cap);
    }
  }

  lemma NeverAQuery(r: Reading, cap: nat)
    ensures !Capped(r, cap).Query?
  {
  }

  lemma CommaNeverStands(was: Tail, cap: nat)
    requires was.Comma? && ValidTail(was) && After(was.body).Line? && '\n' in NumberGaps(was) && 0 < cap < CountOf(was)
    requires ReadingOf(TailText(CappedTail(was, cap))) == Capped(ReadingOf(TailText(was)), cap)
    ensures ReadingOf(TailText(CappedTail(was, cap))) == Refused
  {
    hide After, Seen, Strip, Parsed, Capped, ReadingOf, ParseTail, NumberOf, Decimal, Blanks, Lower, TailText,
         ValidTail;
    var t := CappedTail(was, cap);
    CappedTailIsValid(was, cap);
    TailEndsInDigit(t);
    TailParts(t);
    NoNewlineInHead(t);
    assert TailText(t) == t.body + Head(t);
    assert TailText(t)[|TailText(t)| - 1] == Head(t)[|Head(t)| - 1];
    ReadHidden(was.body, Head(t));
    if '\n' in was.gap {
      CommaOutInGap(was, cap);
    } else if '\n' in was.before {
      CommaOutInBefore(was, cap);
    } else {
      CommaOutInAfter(was, cap);
    }
  }

  lemma OffsetSplits(body: string, head: string, o: OffsetPart)
    requires o.Offset?
    ensures body + head + OffsetText(o) == body + head + o.lead + (o.keyword + o.gap + o.skip)
    ensures body + head + OffsetText(o) == body + (head + o.lead + o.keyword) + o.gap + o.skip
    ensures body + head + OffsetText(o) == body + (head + OffsetText(o))
  {
  }

  lemma LimitNeverStands(was: Tail, cap: nat)
    requires LimitCase(was, cap)
    requires ReadingOf(TailText(CappedTail(was, cap))) == Capped(ReadingOf(TailText(was)), cap)
    ensures ReadingOf(TailText(CappedTail(was, cap))) == Refused
  {
    hide After, Seen, Strip, Parsed, Capped, ReadingOf, ParseTail, NumberOf, Decimal, Blanks, Lower, TailText,
         ValidTail;
    var t, o := CappedTail(was, cap), was.offset;
    CappedTailIsValid(was, cap);
    TailEndsInDigit(t);
    TailParts(t);
    NoNewlineInHead(t);
    ValidParts(was);
    if o.Offset? {
      OffsetSplits(was.body, Head(t), o);
      OffsetPieces(o);
    }
    if o.Offset? && '\n' in o.lead {
      LimitOutInLead(was, cap, Head(t));
    } else if o.Offset? && '\n' in o.gap {
      LimitOutInOffset(was, cap, Head(t) + o.lead + o.keyword);
    } else {
      var rest := Head(t) + OffsetText(o);
      assert TailText(t) == was.body + rest && rest != "";
      assert TailText(t)[|TailText(t)| - 1] == rest[|rest| - 1];
      ReadHidden(was.body, rest);
      LimitStaysIn(was, cap);
    }
  }

  lemma ValidParts(t: Tail)
    requires ValidTail(t) && t.Limit?
    ensures ValidOffset(t.offset)
  {
  }

  // Behind two dashes, a semicolon turns the comment at the end into code: what was read as a query
  // is read as another query, without a limit.
  lemma AppendNeverStands(base: string, cap: nat)
    requires ParseTail(base).None? && AcrossComment(base, cap)
    ensures ReadingOf(KeptBase(base, cap)).Query?
  {
    hide After, Seen, ParseTail, TailText, Step, Shown, Strip, Open, HeldAtEnd, END, WHITESPACE;
    var text := TrimRight(base, END);
    var t := AppendedTail(base, cap);
    var kept := KeptBase(base, cap);
    AppendedTailIsValid(base, cap);
    KeptEndsInDigit(base, cap, t);
    Snoc(text, ';');
    SemicolonBehindDashes(After(text));
    var rest := (base + " LIMIT " + Decimal(cap))[|text| + 1..];
    assert kept == (text + [';']) + rest;
    UnseenAfter(text + [';'], rest);
    DashIsNoBlank('-');
    StripKeepsEnd(Seen(text), "--");
    assert Uncommented(kept) == Seen(text) + "--";
    EndsInDash(Read(kept));
  }

  lemma SemicolonBehindDashes(m: Mode)
    requires m.Dashes?
    ensures Step(m, ';').Ended? && Shown(m, ';') == "--" && HeldAtEnd(Ended) == "" && !Open(Ended)
  {
  }

  lemma DashIsNoBlank(c: char)
    requires c == '-'
    ensures c !in WHITESPACE && c !in DIGITS
  {
  }

  lemma EndsInDash(text: string)
    requires text != "" && text[|text| - 1] == '-'
    ensures Parsed(text) == Query(text)
  {
    hide ParseTail, TailText;
    ParsedTailIsValid(text);
    DashIsNoBlank('-');
    if ParseTail(text).Some? {
      TailEndsInDigit(ParseTail(text).value);
    }
  }

  // Across the end of a comment, a positive cap keeps the meaning only if nothing is answered at all.
  lemma AcrossNeverStands(base: string, cap: nat)
    requires cap > 0 && AcrossComment(base, cap)
    requires ReadingOf(KeptBase(base, cap)) == Capped(ReadingOf(base), cap)
    ensures ReadingOf(KeptBase(base, cap)).Refused? && ReadingOf(base).Refused?
  {
    hide ReadingOf, ParseTail, TailText, ValidTail, After;
    ParsedTailIsValid(base);
    if ParseTail(base).None? {
      AppendNeverStands(base, cap);
      NeverAQuery(ReadingOf(base), cap);
    } else {
      var was := ParseTail(base).value;
      if was.Comma? {
        CommaNeverStands(was, cap);
      } else {
        LimitNeverStands(was, cap);
      }
    }
  }
}
