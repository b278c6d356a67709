/** Identifiers and literals as the deterministic SQL printer writes them, and a reader for them. */
module SqlText {
  import opened Text

  predicate IsNameStart(c: char) {
    'a' <= c <= 'z' || 'A' <= c <= 'Z' || c == '_'
  }

  predicate IsNameChar(c: char) {
    IsNameStart(c) || '0' <= c <= '9' || c == '$'
  }

  predicate AllNameChars(s: string) {
    forall i :: 0 <= i < |s| ==> IsNameChar(s[i])
  }

  predicate IsPlainName(s: string) {
    s != [] && IsNameStart(s[0]) && AllNameChars(s)
  }

  // re.match("^[A-Za-z_][A-Za-z0-9_$]*$", s): the final $ also matches before one trailing newline.
  predicate LooksPlain(s: string) {
    IsPlainName(s) || PlainWithNewline(s)
  }

  predicate PlainWithNewline(s: string) {
    s != [] && s[|s| - 1] == '\n' && IsPlainName(s[..|s| - 1])
  }

  // s.replace(q, qq)
  function Doubled(s: string, quote: char): string {
    if s == [] then []
    else (if s[0] == quote then [quote, quote] else [s[0]]) + Doubled(s[1..], quote)
  }

  function Quoted(s: string, quote: char): string {
    [quote] + Doubled(s, quote) + [quote]
  }

  function QuoteIdentifier(identifier: string): string {
    if LooksPlain(identifier) then identifier else Quoted(identifier, '`')
  }

  /* ---- reading them back ---- */

  // After an opening quote: the text up to the closing quote, and what follows it.
  function ReadQuoted(s: string, quote: char): (r: Option<(string, string)>)
    ensures r.Some? ==> |r.value.1| < |s|
  {
    if s == [] then None
    else if s[0] != quote then Prepend(s[0], ReadQuoted(s[1..], quote))
    else if |s| > 1 && s[1] == quote then Prepend(quote, ReadQuoted(s[2..], quote))
    else Some(([], s[1..]))
  }

  function Prepend(c: char, r: Option<(string, string)>): Option<(string, string)> {
    if r.None? then None else Some(([c] + r.value.0, r.value.1))
  }

  function NameLength(s: string): (n: nat)
    ensures n <= |s|
  {
    if s == [] || !IsNameChar(s[0]) then 0 else 1 + NameLength(s[1..])
  }

  function ReadIdentifier(s: string): (r: Option<(string, string)>)
    ensures r.Some? ==> |r.value.1| < |s|
  {
    if s == [] then None
    else if s[0] == '`' then ReadQuoted(s[1..], '`')
    else
      var n := NameLength(s);
      if n == 0 then None else Some((s[..n], s[n..]))
  }

  lemma {:induction false} ReadDoubled(s: string, quote: char, rest: string)
    requires rest == [] || rest[0] != quote
    ensures ReadQuoted(Doubled(s, quote) + [quote] + rest, quote) == Some((s, rest))
  {
    var text := Doubled(s, quote) + [quote] + rest;
    if s == [] {
      assert text == [quote] + rest;
      assert text[1..] == rest;
    } else {
      var tail := Doubled(s[1..], quote) + [quote] + rest;
      ReadDoubled(s[1..], quote, rest);
      assert [s[0]] + s[1..] == s;
      if s[0] == quote {
        assert text[0] == quote && text[1] == quote && text[2..] == tail;
      } else {
        assert text[0] == s[0] && text[1..] == tail;
      }
    }
  }

  lemma {:induction false} NameLengthOf(s: string, rest: string)
    requires AllNameChars(s)
    requires rest == [] || !IsNameChar(rest[0])
    ensures NameLength(s + rest) == |s|
  {
    if s == [] {
      assert s + rest == rest;
    } else {
      NameLengthOf(s[1..], rest);
      assert (s + rest)[1..] == s[1..] + rest;
    }
  }

  // What may follow an identifier: neither more of a name nor another backtick.
  predicate Follows(rest: string) {
    rest == [] || (!IsNameChar(rest[0]) && rest[0] != '`')
  }

  lemma QuotedReadsBack(identifier: string, rest: string)
    requires Follows(rest) && !LooksPlain(identifier)
    ensures ReadIdentifier(QuoteIdentifier(identifier) + rest) == Some((identifier, rest))
  {
    var text := QuoteIdentifier(identifier) + rest;
    ReadDoubled(identifier, '`', rest);
    assert text[0] == '`' && text[1..] == Doubled(identifier, '`') + ['`'] + rest;
  }

  lemma PlainReadsBack(identifier: string, rest: string)
    requires Follows(rest) && IsPlainName(identifier)
    ensures ReadIdentifier(QuoteIdentifier(identifier) + rest) == Some((identifier, rest))
  {
    var text := identifier + rest;
    NameLengthOf(identifier, rest);
    assert text[0] == identifier[0];
    assert text[..|identifier|] == identifier && text[|identifier|..] == rest;
  }

  // A printed identifier reads back as itself exactly when it is not a plain name with a newline
  // stuck to its end; that one is printed bare and loses the newline.
  lemma IdentifierReadsBackExactly(identifier: string, rest: string)
    requires Follows(rest)
    ensures ReadIdentifier(QuoteIdentifier(identifier) + rest) == Some((identifier, rest)) <==>
            !PlainWithNewline(identifier)
  {
    if PlainWithNewline(identifier) {
      var name := identifier[..|identifier| - 1];
      var after := "\n" + rest;
      assert identifier + rest == name + after;
      PlainReadsBack(name, after);
      assert IsNameStart('\n') == false;
    } else if LooksPlain(identifier) {
      PlainReadsBack(identifier, rest);
    } else {
      QuotedReadsBack(identifier, rest);
    }
  }

  // A quote-doubled literal reads back as the value it was made from.
  lemma LiteralReadsBack(value: string, rest: string)
    requires rest == [] || rest[0] != '\''
    ensures var text := Quoted(value, '\'') + rest;
            text[0] == '\'' && ReadQuoted(text[1..], '\'') == Some((value, rest))
  {
    var text := Quoted(value, '\'') + rest;
    assert text[1..] == Doubled(value, '\'') + ['\''] + rest;
    ReadDoubled(value, '\'', rest);
  }

  lemma {:induction false} DoubledWithoutQuotes(s: string, quote: char)
    requires quote !in s
    ensures Doubled(s, quote) == s
  {
    if s != [] {
      DoubledWithoutQuotes(s[1..], quote);
      assert [s[0]] + s[1..] == s;
    }
  }
}
