/** Query canonicalisation and the cache key built from it (core/cache_keys.py, core/cache.py). */
module CacheKeys {
  import opened Text

  predicate IsAlnum(c: char) {
    'a' <= c <= 'z' || '0' <= c <= '9'
  }

  function SkipNonAlnum(s: string): (r: string)
    ensures |r| <= |s|
  {
    if s != [] && !IsAlnum(s[0]) then SkipNonAlnum(s[1..]) else s
  }

  // re.sub("[^a-z0-9]+", " ", s)
  function BlankOut(s: string): (r: string)
    ensures forall i :: 0 <= i < |r| ==> IsAlnum(r[i]) || r[i] == ' '
    decreases |s|
  {
    if s == [] then []
    else if IsAlnum(s[0]) then [s[0]] + BlankOut(s[1..])
    else " " + BlankOut(SkipNonAlnum(s[1..]))
  }

  // Words rewritten or, when mapped to the empty string, dropped.
  const TOKEN_CANONICAL_MAP: map<string, string> := map[
    "newest" := "latest", "recent" := "latest", "recently" := "latest",
    "show" := "", "list" := "", "give" := "", "tell" := "", "me" := "",
    "what" := "", "which" := "", "is" := "", "are" := "", "the" := "",
    "a" := "", "an" := "", "please" := ""
  ]

  function TokenIn(vocabulary: map<string, string>, token: string): string {
    if token in vocabulary then vocabulary[token] else token
  }

  // What one token contributes to the canonical list.
  function TokenPart(vocabulary: map<string, string>, token: string): seq<string> {
    var canonical := TokenIn(vocabulary, token);
    if canonical == "" then [] else [canonical]
  }

  function MappedTokens(vocabulary: map<string, string>, tokens: seq<string>): seq<string> {
    if tokens == [] then [] else TokenPart(vocabulary, tokens[0]) + MappedTokens(vocabulary, tokens[1..])
  }

  function CanonicalTokens(tokens: seq<string>): seq<string> {
    MappedTokens(TOKEN_CANONICAL_MAP, tokens)
  }

  function QueryTokens(query: string): seq<string> {
    Words(BlankOut(Lower(Strip(query))))
  }

  function Canonical(query: string): string {
    Join(CanonicalTokens(QueryTokens(query)), " ")
  }

  lemma {:induction false} MappedTokensSnoc(vocabulary: map<string, string>, tokens: seq<string>, last: string)
    ensures MappedTokens(vocabulary, tokens + [last]) ==
            MappedTokens(vocabulary, tokens) + TokenPart(vocabulary, last)
  {
    if tokens == [] {
      assert tokens + [last] == [last] && [last][1..] == [];
      assert MappedTokens(vocabulary, [last]) == TokenPart(vocabulary, last) + MappedTokens(vocabulary, []);
    } else {
      MappedTokensSnoc(vocabulary, tokens[1..], last);
      assert (tokens + [last])[1..] == tokens[1..] + [last];
      assert (tokens + [last])[0] == tokens[0];
    }
  }

  method MapTokens(vocabulary: map<string, string>, words: seq<string>) returns (tokens: seq<string>)
    ensures tokens == MappedTokens(vocabulary, words)
  {
    tokens := [];
    for i := 0 to |words|
      invariant tokens == MappedTokens(vocabulary, words[..i])
    {
      assert words[..i + 1] == words[..i] + [words[i]];
      MappedTokensSnoc(vocabulary, words[..i], words[i]);
      var canonical := TokenIn(vocabulary, words[i]);
      if canonical == "" {
        continue;
      }
      tokens := tokens + [canonical];
    }
    assert words[..|words|] == words;
  }

  method CanonicalizeQueryText(query: string) returns (canonical: string)
    ensures canonical == Canonical(query)
  {
    var words := QueryTokens(query);
    var tokens := MapTokens(TOKEN_CANONICAL_MAP, words);
    canonical := Join(tokens, " ");
  }

  /* ---- canonical text is a fixed point ---- */

  // A token that can stand in canonical text.
  predicate StableWord(vocabulary: map<string, string>, w: string) {
    w != [] && w !in vocabulary && forall c :: c in w ==> IsAlnum(c)
  }

  // Every replacement is dropped or stands for itself from then on.
  ghost predicate Settled(vocabulary: map<string, string>) {
    forall t :: t in vocabulary && vocabulary[t] != "" ==> StableWord(vocabulary, vocabulary[t])
  }

  lemma VocabularyIsSettled()
    ensures Settled(TOKEN_CANONICAL_MAP)
  {
    var latest := "latest";
    assert forall i :: 0 <= i < |latest| ==> IsAlnum(latest[i]);
    forall t | t in TOKEN_CANONICAL_MAP && TOKEN_CANONICAL_MAP[t] != ""
      ensures TOKEN_CANONICAL_MAP[t] == latest
    {
    }
    assert |latest| == 6 && latest[1] == 'a';
    assert latest !in TOKEN_CANONICAL_MAP;
  }

  ghost predicate AlnumWords(ws: seq<string>) {
    forall i :: 0 <= i < |ws| ==> ws[i] != [] && forall c :: c in ws[i] ==> IsAlnum(c)
  }

  lemma AlnumIsNotBlank(c: char)
    requires IsAlnum(c)
    ensures !IsBlank(c)
  {
  }

  ghost predicate StableWords(vocabulary: map<string, string>, ws: seq<string>) {
    forall i :: 0 <= i < |ws| ==> StableWord(vocabulary, ws[i])
  }

  lemma TokenPartIsStable(vocabulary: map<string, string>, token: string)
    requires Settled(vocabulary) && token != [] && forall c :: c in token ==> IsAlnum(c)
    ensures StableWords(vocabulary, TokenPart(vocabulary, token))
  {
  }

  lemma {:induction false} MappedTokensAreStable(vocabulary: map<string, string>, tokens: seq<string>)
    requires Settled(vocabulary) && AlnumWords(tokens)
    ensures StableWords(vocabulary, MappedTokens(vocabulary, tokens))
  {
    if tokens != [] {
      MappedTokensAreStable(vocabulary, tokens[1..]);
      assert tokens[0] != [] && forall c :: c in tokens[0] ==> IsAlnum(c);
      TokenPartIsStable(vocabulary, tokens[0]);
    }
  }

  lemma {:induction false} StableWordsMapToThemselves(vocabulary: map<string, string>, ws: seq<string>)
    requires StableWords(vocabulary, ws)
    ensures MappedTokens(vocabulary, ws) == ws
  {
    if ws != [] {
      StableWordsMapToThemselves(vocabulary, ws[1..]);
      assert [ws[0]] + ws[1..] == ws;
    }
  }

  lemma {:induction false} WordsUseOnlyLetters(s: string)
    requires forall i :: 0 <= i < |s| ==> IsAlnum(s[i]) || IsBlank(s[i])
    ensures AlnumWords(Words(s))
  {
    if s != [] {
      WordsUseOnlyLetters(s[1..]);
      var rest := Words(s[1..]);
      if !IsBlank(s[0]) && |s| > 1 && !IsBlank(s[1]) {
        assert rest[0] != [] && forall c :: c in rest[0] ==> IsAlnum(c);
      }
    }
  }

  lemma QueryTokensAreAlnum(query: string)
    ensures AlnumWords(QueryTokens(query))
  {
    assert IsBlank(' ');
    WordsUseOnlyLetters(BlankOut(Lower(Strip(query))));
  }

  // BlankOut, Lower and Strip leave a word followed by a clean rest alone.
  lemma {:induction false} BlankOutWord(w: string, rest: string)
    requires forall i :: 0 <= i < |w| ==> IsAlnum(w[i])
    ensures BlankOut(w + rest) == w + BlankOut(rest)
  {
    if w == [] {
      assert w + rest == rest && w + BlankOut(rest) == BlankOut(rest);
    } else {
      BlankOutWord(w[1..], rest);
      assert (w + rest)[1..] == w[1..] + rest;
      assert [w[0]] + w[1..] == w;
    }
  }

  lemma BlankOutSpace(s: string)
    requires s != [] && IsAlnum(s[0])
    ensures BlankOut(" " + s) == " " + BlankOut(s)
  {
    assert (" " + s)[1..] == s;
    assert SkipNonAlnum(s) == s;
  }

  // Canonical text passes through the three cleaning steps unchanged.
  lemma {:induction false} CleaningFixesJoined(ws: seq<string>)
    requires AlnumWords(ws)
    ensures var s := Join(ws, " ");
            && BlankOut(s) == s
            && (forall c :: c in s ==> IsAlnum(c) || c == ' ')
            && (ws != [] ==> s != [] && IsAlnum(s[0]) && IsAlnum(s[|s| - 1]))
  {
    if |ws| == 1 {
      BlankOutWord(ws[0], []);
      assert ws[0] + [] == ws[0] && BlankOut([]) == [];
    } else if |ws| > 1 {
      var joined := Join(ws[1..], " ");
      CleaningFixesJoined(ws[1..]);
      JoinFirst(ws, " ");
      BlankOutWord(ws[0], " " + joined);
      BlankOutSpace(joined);
    }
  }

  lemma {:induction false} LowerFixesClean(s: string)
    requires forall i :: 0 <= i < |s| ==> IsAlnum(s[i]) || s[i] == ' '
    ensures Lower(s) == s
  {
    forall i | 0 <= i < |s|
      ensures Lower(s)[i] == s[i]
    {
      LowerAt(s, i);
    }
  }

  lemma CleanTextIsUntouched(s: string)
    requires BlankOut(s) == s
    requires forall i :: 0 <= i < |s| ==> IsAlnum(s[i]) || s[i] == ' '
    requires s != [] ==> IsAlnum(s[0]) && IsAlnum(s[|s| - 1])
    ensures BlankOut(Lower(Strip(s))) == s
  {
    if s != [] {
      AlnumIsNotBlank(s[0]);
      AlnumIsNotBlank(s[|s| - 1]);
    }
    StripFixesStripped(s, WHITESPACE);
    LowerFixesClean(s);
  }

  lemma StableWordIsWord(vocabulary: map<string, string>, w: string)
    requires StableWord(vocabulary, w)
    ensures IsWord(w) && w != [] && forall c :: c in w ==> IsAlnum(c)
  {
    forall i | 0 <= i < |w|
      ensures !IsBlank(w[i])
    {
      assert w[i] in w;
      AlnumIsNotBlank(w[i]);
    }
  }

  lemma StableWordsAreWords(vocabulary: map<string, string>, ws: seq<string>)
    requires StableWords(vocabulary, ws)
    ensures AlnumWords(ws) && forall i :: 0 <= i < |ws| ==> IsWord(ws[i])
  {
    forall i | 0 <= i < |ws|
      ensures IsWord(ws[i]) && ws[i] != [] && forall c :: c in ws[i] ==> IsAlnum(c)
    {
      StableWordIsWord(vocabulary, ws[i]);
    }
  }

  lemma CanonicalTokensAreWords(query: string)
    ensures var ws := CanonicalTokens(QueryTokens(query));
            && StableWords(TOKEN_CANONICAL_MAP, ws)
            && AlnumWords(ws)
            && forall i :: 0 <= i < |ws| ==> IsWord(ws[i])
  {
    QueryTokensAreAlnum(query);
    VocabularyIsSettled();
    MappedTokensAreStable(TOKEN_CANONICAL_MAP, QueryTokens(query));
    StableWordsAreWords(TOKEN_CANONICAL_MAP, CanonicalTokens(QueryTokens(query)));
  }

  // The canonical tokens of any query are recovered from its canonical text.
  lemma CanonicalTextReadsBack(query: string)
    ensures QueryTokens(Canonical(query)) == CanonicalTokens(QueryTokens(query))
  {
    var ws := CanonicalTokens(QueryTokens(query));
    CanonicalTokensAreWords(query);
    CleaningFixesJoined(ws);
    CleanTextIsUntouched(Join(ws, " "));
    WordsOfJoin(ws);
  }

  // Canonicalising twice is canonicalising once.
  lemma CanonicalIsIdempotent(query: string)
    ensures Canonical(Canonical(query)) == Canonical(query)
  {
    CanonicalTextReadsBack(query);
    CanonicalTokensAreWords(query);
    StableWordsMapToThemselves(TOKEN_CANONICAL_MAP, CanonicalTokens(QueryTokens(query)));
  }

  // Two queries share a canonical text exactly when they have the same canonical tokens.
  lemma CanonicalSeparatesTokens(q1: string, q2: string)
    ensures Canonical(q1) == Canonical(q2) <==>
            CanonicalTokens(QueryTokens(q1)) == CanonicalTokens(QueryTokens(q2))
  {
    CanonicalTextReadsBack(q1);
    CanonicalTextReadsBack(q2);
  }

  /* ---- the two tiers' keys ---- */

  // The text the in-memory caches hash; hashing is taken as injective.
  function KeyText(query: string, topK: int): string {
    Canonical(query) + ":" + IntText(topK)
  }

  // The columns that, with endpoint and epoch, identify a database cache row.
  function RowKey(query: string, topK: int): (string, int) {
    (Canonical(query), topK)
  }

  lemma CanonicalHasNoColon(query: string)
    ensures ':' !in Canonical(query)
  {
    CanonicalTokensAreWords(query);
    CleaningFixesJoined(CanonicalTokens(QueryTokens(query)));
  }

  // The memory tier and the database tier put exactly the same requests in one class.
  lemma TiersAgreeOnKeys(q1: string, k1: int, q2: string, k2: int)
    ensures KeyText(q1, k1) == KeyText(q2, k2) <==> RowKey(q1, k1) == RowKey(q2, k2)
  {
    if KeyText(q1, k1) == KeyText(q2, k2) {
      CanonicalHasNoColon(q1);
      CanonicalHasNoColon(q2);
      assert ':' !in IntText(k1) && ':' !in IntText(k2);
      SplitAtFirst(Canonical(q1), ':', IntText(k1));
      SplitAtFirst(Canonical(q2), ':', IntText(k2));
      SplitWithoutSeparator(IntText(k1), ':');
      SplitWithoutSeparator(IntText(k2), ':');
      var parts := Split(KeyText(q1, k1), ':');
      assert parts == [Canonical(q1), IntText(k1)];
      assert parts == [Canonical(q2), IntText(k2)];
      assert parts[0] == Canonical(q1) == Canonical(q2);
      assert parts[1] == IntText(k1) == IntText(k2);
      IntTextInjective(k1, k2);
    }
  }
}
