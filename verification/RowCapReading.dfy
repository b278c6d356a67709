/** How the database reads a statement under the row cap, by where in the text the cap is written. */
module RowCapReading {
  import opened Text
  import opened RowCapping
  import opened SqlReading

  // The text behind which the cap is written.
  function Landing(base: string): string {
    match ParseTail(base)
    case None => base + " "
    case Some(t) => t.body
  }

  /* ---- a tail in code ---- */

  // The tail without the body.
  function Rest(t: Tail): string {
    TailText(t.(body := ""))
  }

  predicate IsLetter(c: char) {
    'a' <= c <= 'z' || 'A' <= c <= 'Z'
  }

  lemma LetterIsPlain(c: char)
    requires IsLetter(c) || c in DIGITS || c in WHITESPACE || c == ','
    ensures PlainChar(c) && (IsLetter(c) ==> !BlankOrControl(c))
  {
  }

  lemma KeywordIsPlain(keyword: string, word: string)
    requires Lower(keyword) == word && forall i :: 0 <= i < |word| ==> 'a' <= word[i] <= 'z'
    ensures Plain(keyword) && (keyword != "" ==> !BlankOrControl(keyword[0]))
  {
    forall i | 0 <= i < |keyword|
      ensures IsLetter(keyword[i])
    {
      LowerAt(keyword, i);
    }
    forall i | 0 <= i < |keyword|
      ensures PlainChar(keyword[i]) && !BlankOrControl(keyword[i])
    {
      LetterIsPlain(keyword[i]);
    }
  }

  lemma BlanksAndNumbersArePlain(s: string)
    requires Blanks(s) || Number(s)
    ensures Plain(s)
  {
    forall i | 0 <= i < |s|
      ensures PlainChar(s[i])
    {
      LetterIsPlain(s[i]);
    }
  }

  lemma OffsetIsPlain(o: OffsetPart)
    requires ValidOffset(o)
    ensures Plain(OffsetText(o))
  {
    hide Blanks, Number, Lower, PlainChar;
    if o.Offset? {
      KeywordIsPlain(o.keyword, "offset");
      BlanksAndNumbersArePlain(o.lead);
      BlanksAndNumbersArePlain(o.gap);
      BlanksAndNumbersArePlain(o.skip);
    }
  }

  lemma TailPartsArePlain(t: Tail)
    requires ValidTail(t)
    ensures |t.keyword| == 5 && Plain(t.keyword) && !BlankOrControl(t.keyword[0]) && Plain(t.gap) && Plain(t.count)
    ensures t.Limit? ==> Plain(OffsetText(t.offset))
    ensures t.Comma? ==> Plain(t.skip) && Plain(t.before) && Plain(t.after) && Plain(",")
  {
    hide Blanks, Number, Lower, PlainChar, OffsetText, ValidOffset, BlankOrControl;
    KeywordIsPlain(t.keyword, "limit");
    BlanksAndNumbersArePlain(t.gap);
    BlanksAndNumbersArePlain(t.count);
    if t.Limit? {
      OffsetIsPlain(t.offset);
    } else {
      BlanksAndNumbersArePlain(t.skip);
      BlanksAndNumbersArePlain(t.before);
      BlanksAndNumbersArePlain(t.after);
      LetterIsPlain(',');
    }
  }

  lemma PlainTogether(a: string, b: string)
    requires Plain(a) && Plain(b)
    ensures Plain(a + b)
  {
    hide PlainChar;
  }

  lemma RestIsPlain(t: Tail)
    requires ValidTail(t)
    ensures TailText(t) == t.body + Rest(t)
    ensures Plain(Rest(t)) && Rest(t) != "" && !BlankOrControl(Rest(t)[0])
  {
    hide ValidTail, OffsetText, Plain, BlankOrControl;
    TailPartsArePlain(t);
    PlainTogether(t.keyword, t.gap);
    match t
    case Limit(_, keyword, gap, count, offset) =>
      PlainTogether(keyword + gap, count);
      PlainTogether(keyword + gap + count, OffsetText(offset));
      assert Rest(t) == keyword + gap + count + OffsetText(offset);
    case Comma(_, keyword, gap, skip, before, after, count) =>
      PlainTogether(keyword + gap, skip);
      PlainTogether(keyword + gap + skip, before);
      PlainTogether(keyword + gap + skip + before, ",");
      PlainTogether(keyword + gap + skip + before + ",", after);
      PlainTogether(keyword + gap + skip + before + "," + after, count);
      assert Rest(t) == keyword + gap + skip + before + "," + after + count;
  }

  // What a scan has seen of a body, when code goes on behind it.
  function SeenBody(body: string): string {
    Seen(body) + Held(After(body))
  }

  lemma LastSeen(m: Mode, c: char, seen: string)
    requires Coding(Step(m, c)) && !IsWordChar(c) && QuoteIsQuote(m)
    requires Comment(m) ==> seen != [] && !IsWordChar(seen[|seen| - 1])
    ensures var b := seen + Shown(m, c) + Held(Step(m, c));
            b != [] && !IsWordChar(b[|b| - 1])
  {
  }

  lemma BodyEndsAlike(body: string)
    requires Coding(After(body)) && (body == [] || !IsWordChar(body[|body| - 1]))
    ensures var b := SeenBody(body); b == [] || !IsWordChar(b[|b| - 1])
  {
    hide Step, Shown, IsWordChar, Held;
    if body != [] {
      var init, last := body[..|body| - 1], body[|body| - 1];
      QuotesAreQuotes(init);
      if Comment(After(init)) {
        CommentIsBlank(init);
        BlankIsNoWord();
      }
      Snoc(init, last);
      LastSeen(After(init), last, Seen(init));
      assert body == init + [last];
    } else {
      assert Held(Code) == "" by { OnlyBlanks([]); NothingHeld(); }
    }
  }

  lemma NothingHeld()
    ensures Held(Code) == ""
  {
  }

  lemma BlankIsNoWord()
    ensures !IsWordChar(' ')
  {
  }

  lemma {:induction false} StripKeepsEnd(b: string, rest: string)
    requires rest != [] && rest[0] !in WHITESPACE && rest[|rest| - 1] !in WHITESPACE
    ensures Strip(b + rest) == TrimLeft(b, WHITESPACE) + rest
  {
    if b != [] && b[0] in WHITESPACE {
      StripKeepsEnd(b[1..], rest);
      assert (b + rest)[1..] == b[1..] + rest;
    } else {
      assert b == [] ==> b + rest == rest;
      StripFixesStripped(b + rest, WHITESPACE);
    }
  }

  lemma DigitEnds(s: string)
    requires s != [] && s[|s| - 1] in DIGITS
    ensures TrimRight(s, END) == s && s[|s| - 1] !in WHITESPACE
  {
    DigitIsNotBlank(s[|s| - 1]);
  }

  lemma RestEnds(t: Tail)
    requires ValidTail(t)
    ensures Rest(t) != [] && Rest(t)[|Rest(t)| - 1] in DIGITS && Rest(t)[0] !in WHITESPACE
  {
    hide Lower, Number, Blanks, ValidOffset, TailText, OffsetText, WHITESPACE;
    TailEndsInDigit(t);
    RestIsPlain(t);
    assert TailText(t)[|TailText(t)| - 1] == Rest(t)[|Rest(t)| - 1];
    NotBlank(Rest(t)[0]);
  }

  lemma NotBlank(c: char)
    requires !BlankOrControl(c)
    ensures c !in WHITESPACE
  {
  }

  // The same tail behind the body as the database reads it.
  lemma TailOverBody(t: Tail, body: string)
    requires ValidTail(t) && (body == [] || !IsWordChar(body[|body| - 1]))
    ensures var u := t.(body := body);
            && ValidTail(u) && TailText(u) == body + Rest(t) && ParseTail(body + Rest(t)) == Some(u)
            && SkipOf(u) == SkipOf(t) && CountOf(u) == CountOf(t)
  {
    hide Lower, Number, Blanks, ValidOffset, ParseTail, OffsetText, IsWordChar, Plain;
    var u := t.(body := body);
    RestIsPlain(u);
    TailGrammarIsExact(TailText(u), u);
  }

  // A tail behind code is the limit of what was seen of its body.
  lemma CodedTail(t: Tail)
    requires ValidTail(t) && Coding(After(t.body))
    ensures ReadingOf(TailText(t)) == WindowOf(Strip(SeenBody(t.body)), SkipOf(t), CountOf(t))
  {
    hide Lower, Number, Blanks, ValidOffset, ParseTail, TailText, OffsetText, IsWordChar, Plain, BlankOrControl,
         After, Seen, TrimLeft, TrimRight, TakesLimit, Rest, SkipOf, CountOf, Coding, Held;
    var body, rest := TrimLeft(SeenBody(t.body), WHITESPACE), Rest(t);
    TailEndsInDigit(t);
    DigitEnds(TailText(t));
    RestIsPlain(t);
    PlainAfterCode(t.body, rest);
    NothingHeld();
    RestEnds(t);
    DigitEnds(rest);
    StripKeepsEnd(SeenBody(t.body), rest);
    assert Uncommented(TailText(t)) == SeenBody(t.body) + rest;
    BodyEndsAlike(t.body);
    TrimLeftStops(SeenBody(t.body), WHITESPACE);
    TailOverBody(t, body);
    assert QueryOf(t.(body := body)) == Strip(SeenBody(t.body));
  }

  /* ---- where the cap lands in code ---- */

  // The tail of the kept base, behind the landing.
  lemma TailOfKept(base: string, cap: nat) returns (t: Tail)
    ensures ValidTail(t) && TailText(t) == KeptBase(base, cap) && t.body == Landing(base)
    ensures match ParseTail(base)
            case None => SkipOf(t) == 0 && CountOf(t) == cap
            case Some(was) =>
              ValidTail(was) && TailText(was) == base
              && SkipOf(t) == SkipOf(was) && CountOf(t) == Least(CountOf(was), cap)
  {
    hide ParseTail, TailText, ValidTail, SkipOf, CountOf;
    ParsedTailIsValid(base);
    match ParseTail(base)
    case None =>
      t := AppendedTail(base, cap);
      AppendedTailIsValid(base, cap);
    case Some(was) =>
      t := KeptTail(base, cap, was);
  }

  lemma CappedWindow(query: string, skip: nat, count: nat, cap: nat)
    ensures Capped(WindowOf(query, skip, count), cap) == WindowOf(query, skip, Least(count, cap))
  {
    hide TakesLimit;
  }

  // Written onto a tail in code, the cap is the smaller limit.
  lemma RecappedReading(base: string, cap: nat)
    requires ParseTail(base).Some? && Coding(After(Landing(base)))
    ensures ReadingOf(KeptBase(base, cap)) == Capped(ReadingOf(base), cap)
  {
    hide ParseTail, TailText, ValidTail, KeptBase, ReadingOf, WindowOf, SkipOf, CountOf, Coding, SeenBody, Strip;
    var t := TailOfKept(base, cap);
    var was := ParseTail(base).value;
    CodedTail(t);
    CodedTail(was);
    CappedWindow(Strip(SeenBody(t.body)), SkipOf(was), CountOf(was), cap);
  }

  lemma BlankStep(m: Mode)
    requires Coding(Step(m, ' ')) && QuoteIsQuote(m)
    ensures Step(m, ' ') == Code && Shown(m, ' ') == HeldAtEnd(m) + " " && !Open(m) && Held(Code) == ""
  {
  }

  lemma SemicolonThenBlank(m: Mode)
    requires QuoteIsQuote(m)
    ensures !Coding(Step(Step(m, ';'), ' '))
  {
  }

  // A base that code can go on from, after a blank, ends neither in a blank nor in a semicolon.
  lemma NothingToTrim(base: string)
    requires base == TrimRight(base, WHITESPACE) && Coding(After(base + " "))
    ensures TrimRight(base, END) == base
  {
    hide Step, After;
    if base != "" {
      var init, last := base[..|base| - 1], base[|base| - 1];
      assert base == init + [last];
      Snoc(init, last);
      Snoc(base, ' ');
      QuotesAreQuotes(init);
      SemicolonThenBlank(After(init));
      TrimRightStops(base, WHITESPACE);
      assert last !in WHITESPACE;
    }
  }

  lemma SeenBeforeBlank(base: string)
    requires Coding(After(base + " "))
    ensures Strip(SeenBody(base + " ")) == Read(base) && !Open(After(base))
  {
    hide Step, After, Seen, Shown, Held, Strip, Coding, HeldAtEnd;
    Snoc(base, ' ');
    QuotesAreQuotes(base);
    BlankStep(After(base));
    assert SeenBody(base + " ") == Uncommented(base) + " ";
    TrimLastBlank(Uncommented(base), ' ');
  }

  // Appended to code, the cap limits the whole query if that takes a limit; otherwise the statement
  // is refused.
  lemma AppendedReading(base: string, cap: nat)
    requires base == TrimRight(base, WHITESPACE) && ParseTail(base).None? && Coding(After(Landing(base)))
    ensures TakesLimit(Read(base)) ==>
              ReadingOf(base) == Query(Read(base)) && ReadingOf(KeptBase(base, cap)) == Capped(ReadingOf(base), cap)
    ensures !TakesLimit(Read(base)) ==> ReadingOf(KeptBase(base, cap)) == Refused
  {
    hide TailText, ValidTail, KeptBase, SkipOf, CountOf, Coding, SeenBody, Strip, After, Locked, TrimRight;
    var t := TailOfKept(base, cap);
    CodedTail(t);
    NothingToTrim(base);
    SeenBeforeBlank(base);
  }

  /* ---- where it does not ---- */

  lemma KeptEndsInDigit(base: string, cap: nat, t: Tail)
    requires ValidTail(t) && TailText(t) == KeptBase(base, cap)
    ensures TrimRight(KeptBase(base, cap), END) == KeptBase(base, cap)
  {
    hide ValidTail, TailText, KeptBase, TrimRight;
    TailEndsInDigit(t);
    DigitEnds(KeptBase(base, cap));
  }

  // A tail in something that is still open leaves it open.
  lemma OpenTail(t: Tail)
    requires ValidTail(t) && Open(After(t.body))
    ensures ReadingOf(TailText(t)) == Refused
  {
    hide ValidTail, TailText, After, Plain, BlankOrControl, Open;
    TailEndsInDigit(t);
    DigitEnds(TailText(t));
    RestIsPlain(t);
    StaysOpen(t.body, Rest(t));
  }

  lemma OpenReadings(base: string, cap: nat)
    requires Open(After(Landing(base)))
    ensures ReadingOf(base) == Refused && ReadingOf(KeptBase(base, cap)) == Refused
  {
    hide ParseTail, TailText, ValidTail, KeptBase, Open, After;
    var t := TailOfKept(base, cap);
    OpenTail(t);
    match ParseTail(base)
    case None => OpenBeforeEnd(base);
    case Some(was) => OpenTail(was);
  }

  lemma OpenBeforeEnd(base: string)
    requires Open(After(base + " "))
    ensures ReadingOf(base) == Refused
  {
    hide Open, After, TrimRight;
    var text := TrimRight(base, END);
    TrimRightStops(base, END);
    var end := base[|text|..] + " ";
    assert base + " " == text + end;
    OpenNeedsOpen(text, end);
  }

  // Blanks and semicolons open nothing.
  lemma {:induction false} OpenNeedsOpen(s: string, end: string)
    requires (forall i :: 0 <= i < |end| ==> end[i] in END) && Open(After(s + end))
    ensures Open(After(s))
  {
    hide Step, After, Open;
    if end == [] {
      assert s + end == s;
    } else {
      var init, last := end[..|end| - 1], end[|end| - 1];
      assert s + end == (s + init) + [last];
      Snoc(s + init, last);
      EndOpensNothing(After(s + init), last);
      OpenNeedsOpen(s, init);
    }
  }

  lemma EndOpensNothing(m: Mode, c: char)
    requires c in END && Open(Step(m, c))
    ensures Open(m)
  {
    if c != ';' {
      BlanksAreBlank(c);
    }
  }

  /* ---- a limit that the database does not see ---- */

  // The blanks around the numbers that the cap rewrites.
  function NumberGaps(t: Tail): string {
    match t
    case Limit(_, _, gap, _, _) => gap
    case Comma(_, _, gap, _, before, after, _) => gap + before + after
  }

  // The cap is written across the end of a comment: over a tail whose keyword is in a line comment
  // and whose number is on the next line, or behind two dashes that a semicolon follows.
  ghost predicate AcrossComment(base: string, cap: nat) {
    && CappedBase(base, cap).Some?
    && match ParseTail(base)
       case None =>
         var text := TrimRight(base, END);
         After(text).Dashes? && |text| < |base| && base[|text|] == ';'
       case Some(t) => After(t.body).Line? && '\n' in NumberGaps(t)
  }

  // The tail up to its offset, which the cap keeps.
  function Head(t: Tail): string {
    match t
    case Limit(_, keyword, gap, count, _) => keyword + gap + count
    case Comma(_, keyword, gap, skip, before, after, count) =>
      keyword + gap + skip + before + "," + after + count
  }

  function OffsetOf(t: Tail): string {
    if t.Limit? then OffsetText(t.offset) else ""
  }

  lemma TailParts(t: Tail)
    ensures TailText(t) == (t.body + Head(t)) + OffsetOf(t)
  {
    hide OffsetText;
  }

  lemma NoNewlineInNumber(s: string)
    requires Number(s)
    ensures '\n' !in s
  {
  }

  lemma NoNewlineInKeyword(keyword: string)
    requires Lower(keyword) == "limit"
    ensures '\n' !in keyword
  {
    forall i | 0 <= i < |keyword|
      ensures keyword[i] != '\n'
    {
      LowerAt(keyword, i);
    }
  }

  lemma NoNewlineInHead(t: Tail)
    requires ValidTail(t) && '\n' !in NumberGaps(t)
    ensures '\n' !in Head(t)
  {
    hide Lower, Number, Blanks, ValidOffset;
    NoNewlineInKeyword(t.keyword);
    NoNewlineInNumber(t.count);
    if t.Comma? {
      NoNewlineInNumber(t.skip);
    }
  }

  lemma {:induction false} SameSuffix(a: string, b: string, suffix: string)
    requires After(a) == After(b) && Seen(a) == Seen(b)
    ensures After(a + suffix) == After(b + suffix) && Seen(a + suffix) == Seen(b + suffix)
  {
    hide After, Seen, Step, Shown;
    if suffix == [] {
      assert a + suffix == a && b + suffix == b;
    } else {
      var init, last := suffix[..|suffix| - 1], suffix[|suffix| - 1];
      SameSuffix(a, b, init);
      Snoc(a + init, last);
      Snoc(b + init, last);
      assert a + suffix == (a + init) + [last] && b + suffix == (b + init) + [last];
    }
  }

  // Two tails behind the same comment, or behind the same finished statement, read alike.
  lemma UnseenTails(a: Tail, b: Tail)
    requires ValidTail(a) && ValidTail(b) && a.body == b.body && OffsetOf(a) == OffsetOf(b)
    requires After(a.body).Ended? || (After(a.body).Line? && '\n' !in NumberGaps(a) && '\n' !in NumberGaps(b))
    ensures ReadingOf(TailText(a)) == ReadingOf(TailText(b))
  {
    hide After, Seen, ValidTail, TailText, Head, OffsetOf, NumberGaps, TrimRight, TrimLeft, Parsed;
    forall t: Tail | t in {a, b}
      ensures TrimRight(TailText(t), END) == TailText(t) && TailText(t) == (t.body + Head(t)) + OffsetOf(t)
      ensures After(t.body + Head(t)) == After(t.body) && Seen(t.body + Head(t)) == Seen(t.body)
    {
      TailEndsInDigit(t);
      DigitEnds(TailText(t));
      TailParts(t);
      if After(t.body).Line? {
        NoNewlineInHead(t);
      }
      UnseenAfter(t.body, Head(t));
    }
    SameSuffix(a.body + Head(a), b.body + Head(b), OffsetOf(a));
  }

  lemma UnseenRecap(base: string, cap: nat)
    requires ParseTail(base).Some? && !AcrossComment(base, cap)
    requires After(Landing(base)).Ended? || After(Landing(base)).Line?
    ensures ReadingOf(KeptBase(base, cap)) == ReadingOf(base)
  {
    hide After, ParseTail, ReadingOf, OffsetText, TailText;
    ParsedTailIsValid(base);
    if CappedBase(base, cap).Some? {
      var was := ParseTail(base).value;
      CappedTailIsValid(was, cap);
      UnseenTails(was, CappedTail(was, cap));
    }
  }

  lemma UnseenAppend(base: string, cap: nat)
    requires ParseTail(base).None? && !AcrossComment(base, cap)
    requires After(base + " ").Ended? || After(base + " ").Line?
    ensures ReadingOf(KeptBase(base, cap)) == ReadingOf(base)
  {
    hide After, Seen, ParseTail, TailText, Parsed, Strip, ValidTail, Head, Open, END, HeldAtEnd, TrimRight;
    var text := TrimRight(base, END);
    UnseenEnd(base);
    var t := AppendedTail(base, cap);
    AppendedTailIsValid(base, cap);
    KeptEndsInDigit(base, cap, t);
    TailParts(t);
    NoNewlineInHead(t);
    UnseenAfter(base + " ", Head(t));
    NotOpen(After(base + " "));
    assert OffsetOf(t) == "" && TailText(t) == t.body + Head(t);
  }

  lemma NotOpen(m: Mode)
    requires m.Ended? || m.Line?
    ensures !Open(m)
  {
  }

  lemma UnseenEnd(base: string)
    requires After(base + " ").Ended? || After(base + " ").Line?
    requires var text := TrimRight(base, END);
             !(After(text).Dashes? && |text| < |base| && base[|text|] == ';')
    ensures var text := TrimRight(base, END);
            !Open(After(text)) && Read(base + " ") == Read(text)
  {
    hide After, Seen, Open, HeldAtEnd, Strip;
    var text := TrimRight(base, END);
    TrimRightStops(base, END);
    var end := base[|text|..] + " ";
    assert base + " " == text + end;
    NotOpen(After(base + " "));
    EndIsIgnored(text, end);
  }

  // Elsewhere than in code the database does not see the cap: the statement reads as before.
  lemma UnseenReading(base: string, cap: nat)
    requires !Coding(After(Landing(base))) && !Open(After(Landing(base))) && !AcrossComment(base, cap)
    ensures ReadingOf(KeptBase(base, cap)) == ReadingOf(base)
  {
    hide ReadingOf, KeptBase, AcrossComment, After, ParseTail;
    if ParseTail(base).Some? {
      UnseenRecap(base, cap);
    } else {
      UnseenAppend(base, cap);
    }
  }

  /* ---- from the statement to its base ---- */

  lemma {:induction false} TrimEnd(s: string, end: string)
    requires forall i :: 0 <= i < |end| ==> end[i] in END
    ensures TrimRight(s + end, END) == TrimRight(s, END)
  {
    if end == [] {
      assert s + end == s;
    } else {
      assert (s + end)[..|s + end| - 1] == s + end[..|end| - 1];
      TrimEnd(s, end[..|end| - 1]);
    }
  }

  lemma {:induction false} TrimAfterLead(lead: string, s: string)
    requires AllBlank(lead)
    ensures TrimRight(lead + s, END) == lead + TrimRight(s, END) || TrimRight(lead + s, END) == TrimRight(s, END) == ""
  {
    hide WHITESPACE;
    if s == [] {
      assert lead + s == [] + lead;
      TrimEnd([], lead);
    } else if s[|s| - 1] in END {
      assert (lead + s)[..|lead + s| - 1] == lead + s[..|s| - 1];
      TrimAfterLead(lead, s[..|s| - 1]);
    }
  }

  lemma ReadingIgnoresEnds(lead: string, s: string, end: string)
    requires AllBlank(lead) && forall i :: 0 <= i < |end| ==> end[i] in END
    ensures ReadingOf(lead + s + end) == ReadingOf(s)
  {
    hide After, Read, AllBlank, TrimRight, Parsed;
    TrimEnd(lead + s, end);
    TrimAfterLead(lead, s);
    ReadIgnoresLeading(lead, TrimRight(s, END));
  }

  lemma {:induction false} TrimLeftDrops(s: string)
    ensures var n := |s| - |TrimLeft(s, WHITESPACE)|;
            0 <= n <= |s| && AllBlank(s[..n]) && s[n..] == TrimLeft(s, WHITESPACE)
  {
    if s != [] && s[0] in WHITESPACE {
      TrimLeftDrops(s[1..]);
      var n := |s| - |TrimLeft(s, WHITESPACE)|;
      assert s[..n] == [s[0]] + s[1..][..n - 1] && s[n..] == s[1..][n - 1..];
    }
  }

  ghost predicate AllEnd(s: string) {
    forall i :: 0 <= i < |s| ==> s[i] in END
  }

  lemma EndsTogether(a: string, b: string)
    requires AllEnd(a) && AllEnd(b)
    ensures AllEnd(a + b)
  {
    hide END;
  }

  // The blanks that stripping takes off the end.
  lemma TrimmedEnd(s: string)
    ensures var t := TrimRight(s, WHITESPACE); s == t + s[|t|..] && AllEnd(s[|t|..])
  {
    TrimRightStops(s, WHITESPACE);
  }

  lemma EndOfBase(stripped: string) returns (end: string)
    ensures AllEnd(end) && stripped == WithoutSemicolon(stripped) + end
  {
    hide WHITESPACE, TrimRight;
    if EndsWithSemicolon(stripped) {
      var body := stripped[..|stripped| - 1];
      var base := TrimRight(body, WHITESPACE);
      TrimmedEnd(body);
      EndsTogether(body[|base|..], ";");
      end := body[|base|..] + ";";
      assert stripped == body + ";" && body == base + body[|base|..];
    } else {
      end := "";
      assert stripped == stripped + end;
    }
  }

  // A statement is its base between blanks and, at the end, perhaps a semicolon.
  lemma StatementParts(sql: string) returns (lead: string, end: string)
    ensures AllBlank(lead) && AllEnd(end) && sql == lead + BaseOf(sql) + end
  {
    hide WHITESPACE, WithoutSemicolon, TrimLeft, TrimRight, END, AllEnd, AllBlank;
    var left := TrimLeft(sql, WHITESPACE);
    var stripped := Strip(sql);
    TrimLeftDrops(sql);
    TrimmedEnd(left);
    var trail := left[|stripped|..];
    lead := sql[..|sql| - |left|];
    var inner := EndOfBase(stripped);
    EndsTogether(inner, trail);
    Reassociate(lead, BaseOf(sql), inner, trail);
    assert sql == lead + left;
    end := inner + trail;
  }

  lemma Reassociate(a: string, b: string, c: string, d: string)
    ensures a + ((b + c) + d) == (a + b) + (c + d)
  {
  }

  lemma ReadingOfBase(sql: string)
    ensures ReadingOf(sql) == ReadingOf(BaseOf(sql))
  {
    var lead, end := StatementParts(sql);
    ReadingIgnoresEnds(lead, BaseOf(sql), end);
  }

  lemma ReadingOfStatement(text: string, semicolon: bool)
    ensures ReadingOf(Statement(text, semicolon)) == ReadingOf(text)
  {
    hide ReadingOf;
    if semicolon {
      ReadingIgnoresEnds("", text, ";");
      assert "" + text + ";" == text + ";";
    }
  }

  // What counts is the base before and after.
  lemma ReadingOfCapped(sql: string, cap: nat)
    requires Strip(sql) != ""
    ensures ReadingOf(ApplyRowCap(sql, cap)) == ReadingOf(KeptBase(BaseOf(sql), cap))
  {
    hide ReadingOf, CappedBase;
    match CappedBase(BaseOf(sql), cap)
    case None =>
      ReadingOfBase(Strip(sql));
      StripTwice(sql, WHITESPACE);
    case Some(capped) =>
      ReadingOfStatement(capped, EndsWithSemicolon(Strip(sql)));
  }
}
