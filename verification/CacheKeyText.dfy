/** What the canonical text of a query says, read off the query's own words (core/cache_keys.py). */
module CacheKeyText {
  import opened Text
  import opened CacheKeys

  /* ---- runs of letters and digits ---- */

  function Runs(s: string): (ws: seq<string>)
    ensures s != [] && IsAlnum(s[0]) ==> ws != []
  {
    if s == [] then []
    else if !IsAlnum(s[0]) then Runs(s[1..])
    else if |s| == 1 || !IsAlnum(s[1]) then [[s[0]]] + Runs(s[1..])
    else
      var rest := Runs(s[1..]);
      [[s[0]] + rest[0]] + rest[1..]
  }

  lemma WordsAfterBlank(s: string)
    ensures Words(" " + s) == Words(s)
  {
    assert (" " + s)[1..] == s && IsBlank(' ');
  }

  lemma {:induction false} SkippedWords(s: string)
    ensures Words(BlankOut(SkipNonAlnum(s))) == Words(BlankOut(s))
  {
    if s != [] && !IsAlnum(s[0]) {
      WordsAfterBlank(BlankOut(SkipNonAlnum(s[1..])));
      SkippedWords(s[1..]);
    }
  }

  lemma {:induction false} WordsAreRuns(s: string)
    ensures Words(BlankOut(s)) == Runs(s)
  {
    if s != [] {
      var out := BlankOut(s);
      WordsAreRuns(s[1..]);
      if IsAlnum(s[0]) {
        AlnumIsNotBlank(s[0]);
        var rest := BlankOut(s[1..]);
        assert out[0] == s[0] && out[1..] == rest;
        if |s| > 1 {
          assert rest[0] == if IsAlnum(s[1]) then s[1] else ' ';
          if IsAlnum(s[1]) {
            AlnumIsNotBlank(s[1]);
          }
        }
      } else {
        SkippedWords(s[1..]);
        WordsAfterBlank(BlankOut(SkipNonAlnum(s[1..])));
      }
    }
  }

  ghost predicate NoAlnum(s: string) {
    forall i :: 0 <= i < |s| ==> !IsAlnum(s[i])
  }

  lemma {:induction false} RunsAfter(gap: string, s: string)
    requires NoAlnum(gap)
    ensures Runs(gap + s) == Runs(s)
  {
    if gap == [] {
      assert gap + s == s;
    } else {
      RunsAfter(gap[1..], s);
      assert (gap + s)[1..] == gap[1..] + s;
    }
  }

  lemma {:induction false} RunsBefore(s: string, gap: string)
    requires NoAlnum(gap)
    ensures Runs(s + gap) == Runs(s)
  {
    if s == [] {
      RunsAfter(gap, []);
      assert s + gap == gap + [];
    } else {
      RunsBefore(s[1..], gap);
      assert (s + gap)[1..] == s[1..] + gap;
    }
  }

  lemma {:induction false} RunFirst(w: string, rest: string)
    requires w != [] && (forall i :: 0 <= i < |w| ==> IsAlnum(w[i])) && (rest == [] || !IsAlnum(rest[0]))
    ensures Runs(w + rest) == [w] + Runs(rest)
  {
    var s := w + rest;
    if |w| == 1 {
      assert s[1..] == rest && [s[0]] == w;
    } else {
      RunFirst(w[1..], rest);
      assert s[1..] == w[1..] + rest && s[1] == w[1] && [w[0]] + w[1..] == w;
    }
  }

  /* ---- case and blanks around the query do not matter ---- */

  lemma LowerBlanks(s: string)
    requires forall i :: 0 <= i < |s| ==> s[i] in WHITESPACE
    ensures NoAlnum(Lower(s))
  {
    hide Lower, IsAlnum, LowerChar, WHITESPACE;
    forall i | 0 <= i < |s|
      ensures !IsAlnum(Lower(s)[i])
    {
      LowerAt(s, i);
      BlankIsNoAlnum(s[i]);
    }
  }

  lemma BlankIsNoAlnum(c: char)
    requires c in WHITESPACE
    ensures !IsAlnum(LowerChar(c))
  {
  }

  lemma {:induction false} RunsOfTrimLeft(s: string)
    ensures Runs(Lower(TrimLeft(s, WHITESPACE))) == Runs(Lower(s))
  {
    if s != [] && s[0] in WHITESPACE {
      RunsOfTrimLeft(s[1..]);
      LowerBlanks([s[0]]);
      LowerTogether([s[0]], s[1..]);
      RunsAfter(Lower([s[0]]), Lower(s[1..]));
      assert [s[0]] + s[1..] == s;
    }
  }

  lemma RunsOfTrimRight(s: string)
    ensures Runs(Lower(TrimRight(s, WHITESPACE))) == Runs(Lower(s))
  {
    var t := TrimRight(s, WHITESPACE);
    TrimRightStops(s, WHITESPACE);
    var blanks := s[|t|..];
    assert s == t + blanks;
    LowerBlanks(blanks);
    LowerTogether(t, blanks);
    RunsBefore(Lower(t), Lower(blanks));
  }

  // The tokens of a query are the runs of letters and digits of its lower-case text.
  lemma TokensAreRuns(query: string)
    ensures QueryTokens(query) == Runs(Lower(query))
  {
    WordsAreRuns(Lower(Strip(query)));
    RunsOfTrimLeft(query);
    RunsOfTrimRight(TrimLeft(query, WHITESPACE));
  }

  // Queries that differ in case only share their canonical text, and so their keys in both tiers.
  lemma CaseDoesNotMatter(q1: string, q2: string, topK: int)
    requires Lower(q1) == Lower(q2)
    ensures Canonical(q1) == Canonical(q2) && KeyText(q1, topK) == KeyText(q2, topK)
  {
    TokensAreRuns(q1);
    TokensAreRuns(q2);
  }

  /* ---- queries spelled out: words of letters and digits in any case, and what stands between ---- */

  predicate IsWordLetter(c: char) {
    'a' <= c <= 'z' || 'A' <= c <= 'Z' || '0' <= c <= '9'
  }

  // What stands before each word, and the word.
  type Pieces = seq<(string, string)>

  function Spelled(pieces: Pieces, end: string): string {
    if pieces == [] then end else pieces[0].0 + (pieces[0].1 + Spelled(pieces[1..], end))
  }

  ghost predicate Between(s: string) {
    forall i :: 0 <= i < |s| ==> !IsWordLetter(s[i])
  }

  ghost predicate QueryWord(w: string) {
    w != "" && forall i :: 0 <= i < |w| ==> IsWordLetter(w[i])
  }

  ghost predicate Spelling(pieces: Pieces, end: string) {
    && (forall i :: 0 <= i < |pieces| ==> Between(pieces[i].0) && QueryWord(pieces[i].1))
    && (forall i :: 0 < i < |pieces| ==> pieces[i].0 != "")
    && Between(end)
  }

  // What a word stands for in the canonical text.
  function Meaning(word: string): seq<string> {
    var w := Lower(word);
    if w == "newest" || w == "recent" || w == "recently" then ["latest"]
    else if w == "show" || w == "list" || w == "give" || w == "tell" || w == "me" then []
    else if w == "what" || w == "which" || w == "is" || w == "are" then []
    else if w == "the" || w == "a" || w == "an" || w == "please" then []
    else [w]
  }

  function Meanings(pieces: Pieces): seq<string> {
    if pieces == [] then [] else Meaning(pieces[0].1) + Meanings(pieces[1..])
  }

  lemma MeaningIsTokenPart(word: string)
    requires word != ""
    ensures TokenPart(TOKEN_CANONICAL_MAP, Lower(word)) == Meaning(word)
  {
  }

  lemma LowerLetters(s: string)
    ensures Between(s) ==> NoAlnum(Lower(s))
    ensures QueryWord(s) ==> Lower(s) != "" && forall i :: 0 <= i < |s| ==> IsAlnum(Lower(s)[i])
  {
    hide Lower;
    forall i | 0 <= i < |s|
      ensures IsAlnum(Lower(s)[i]) <==> IsWordLetter(s[i])
    {
      LowerAt(s, i);
    }
  }

  lemma {:induction false} SpelledTokens(pieces: Pieces, end: string)
    requires Spelling(pieces, end)
    ensures CanonicalTokens(Runs(Lower(Spelled(pieces, end)))) == Meanings(pieces)
  {
    hide TOKEN_CANONICAL_MAP, TokenPart, Meaning, Lower;
    if pieces == [] {
      LowerLetters(end);
      RunsBefore([], Lower(end));
      assert [] + Lower(end) == Lower(end);
    } else {
      var (gap, word) := pieces[0];
      var rest := Spelled(pieces[1..], end);
      LowerLetters(gap);
      LowerLetters(word);
      LowerTogether(gap, word + rest);
      LowerTogether(word, rest);
      RunsAfter(Lower(gap), Lower(word) + Lower(rest));
      RestStarts(pieces[1..], end);
      RunFirst(Lower(word), Lower(rest));
      MeaningIsTokenPart(word);
      SpelledTokens(pieces[1..], end);
      FirstToken(Lower(word), Runs(Lower(rest)));
    }
  }

  lemma FirstToken(token: string, rest: seq<string>)
    ensures CanonicalTokens([token] + rest) == TokenPart(TOKEN_CANONICAL_MAP, token) + CanonicalTokens(rest)
  {
    hide TOKEN_CANONICAL_MAP, TokenPart;
    assert ([token] + rest)[1..] == rest;
  }

  // Behind a word the text goes on with something that ends it.
  lemma RestStarts(pieces: Pieces, end: string)
    requires Spelling(pieces, end) && (pieces != [] ==> pieces[0].0 != "")
    ensures var rest := Lower(Spelled(pieces, end)); rest == [] || !IsAlnum(rest[0])
  {
    var rest := Spelled(pieces, end);
    if rest != [] {
      LowerAt(rest, 0);
      assert rest[0] == if pieces == [] then end[0] else pieces[0].0[0];
    }
  }

  // The canonical text of a query says what its words mean, in order: its words in lower case, those
  // for recency as "latest", without the filler words. Case and what stands between do not matter.
  lemma CanonicalSaysTheWords(pieces: Pieces, end: string)
    requires Spelling(pieces, end)
    ensures Canonical(Spelled(pieces, end)) == Join(Meanings(pieces), " ")
  {
    TokensAreRuns(Spelled(pieces, end));
    SpelledTokens(pieces, end);
  }

  // Every query is spelled so.
  lemma {:induction false} EveryQueryIsSpelled(query: string) returns (pieces: Pieces, end: string)
    ensures Spelling(pieces, end) && Spelled(pieces, end) == query
    ensures pieces != [] && IsWordLetter(query[0]) ==> pieces[0].0 == ""
    ensures query != "" && IsWordLetter(query[0]) ==> pieces != []
    ensures query == "" || !IsWordLetter(query[0]) ==> pieces == [] || pieces[0].0 != ""
  {
    if query == "" {
      return [], "";
    }
    var rest, last := EveryQueryIsSpelled(query[1..]);
    var c := query[0];
    assert query == [c] + query[1..];
    if IsWordLetter(c) {
      if rest != [] && rest[0].0 == "" {
        var word := [c] + rest[0].1;
        pieces, end := [("", word)] + rest[1..], last;
        assert pieces[1..] == rest[1..];
      } else {
        pieces, end := [("", [c])] + rest, last;
        assert pieces[1..] == rest;
      }
    } else if rest == [] {
      pieces, end := [], [c] + last;
    } else {
      pieces, end := [([c] + rest[0].0, rest[0].1)] + rest[1..], last;
      assert pieces[1..] == rest[1..];
    }
  }

  // Two queries share a key in either tier exactly when their words mean the same, in order.
  lemma KeysSeparateMeanings(a: Pieces, endA: string, b: Pieces, endB: string, topK: int)
    requires Spelling(a, endA) && Spelling(b, endB)
    ensures KeyText(Spelled(a, endA), topK) == KeyText(Spelled(b, endB), topK) <==> Meanings(a) == Meanings(b)
    ensures RowKey(Spelled(a, endA), topK) == RowKey(Spelled(b, endB), topK) <==> Meanings(a) == Meanings(b)
  {
    hide Canonical, Meanings, Spelling, CanonicalTokens, IntText, KeyText;
    TokensAreRuns(Spelled(a, endA));
    TokensAreRuns(Spelled(b, endB));
    SpelledTokens(a, endA);
    SpelledTokens(b, endB);
    CanonicalSeparatesTokens(Spelled(a, endA), Spelled(b, endB));
    TiersAgreeOnKeys(Spelled(a, endA), topK, Spelled(b, endB), topK);
  }

  // In particular, words outside the vocabulary are told apart up to case.
  lemma {:induction false} OtherWordsSayThemselves(pieces: Pieces)
    requires forall i :: 0 <= i < |pieces| ==> Meaning(pieces[i].1) == [Lower(pieces[i].1)]
    ensures Meanings(pieces) == seq(|pieces|, i requires 0 <= i < |pieces| => Lower(pieces[i].1))
  {
    if pieces != [] {
      OtherWordsSayThemselves(pieces[1..]);
    }
  }
}
