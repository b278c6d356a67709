/** The few Python string operations the service's logic rests on, over ASCII text. */
module Text {

  datatype Option<+T> = None | Some(value: T)

  // What str.strip() and the regular-expression class \s treat as blank.
  const WHITESPACE: set<char> :=
    {' ', '\t', '\n', '\r', '\U{000B}', '\U{000C}', '\U{001C}', '\U{001D}', '\U{001E}', '\U{001F}'}

  /* ---- strip ---- */

  function TrimLeft(s: string, drop: set<char>): (r: string)
    ensures |r| <= |s|
  {
    if s != [] && s[0] in drop then TrimLeft(s[1..], drop) else s
  }

  function TrimRight(s: string, drop: set<char>): (r: string)
    ensures r <= s
  {
    if s != [] && s[|s| - 1] in drop then TrimRight(s[..|s| - 1], drop) else s
  }

  lemma {:induction false} TrimLeftStops(s: string, drop: set<char>)
    ensures var r := TrimLeft(s, drop);
            r != [] ==> r[0] !in drop && r[|r| - 1] == s[|s| - 1]
  {
    if s != [] && s[0] in drop {
      TrimLeftStops(s[1..], drop);
    }
  }

  lemma {:induction false} TrimRightStops(s: string, drop: set<char>)
    ensures var r := TrimRight(s, drop);
            && (r != [] ==> r[|r| - 1] !in drop)
            && forall i :: |r| <= i < |s| ==> s[i] in drop
  {
    if s != [] && s[|s| - 1] in drop {
      TrimRightStops(s[..|s| - 1], drop);
    }
  }

  function StripOf(s: string, drop: set<char>): string {
    TrimRight(TrimLeft(s, drop), drop)
  }

  function Strip(s: string): string {
    StripOf(s, WHITESPACE)
  }

  predicate Stripped(s: string, drop: set<char>) {
    s == [] || (s[0] !in drop && s[|s| - 1] !in drop)
  }

  lemma StripIsStripped(s: string, drop: set<char>)
    ensures Stripped(StripOf(s, drop), drop)
  {
    var t := TrimLeft(s, drop);
    TrimLeftStops(s, drop);
    TrimRightStops(t, drop);
  }

  lemma StripFixesStripped(s: string, drop: set<char>)
    requires Stripped(s, drop)
    ensures StripOf(s, drop) == s
  {
  }

  lemma StripTwice(s: string, drop: set<char>)
    ensures StripOf(StripOf(s, drop), drop) == StripOf(s, drop)
  {
    StripIsStripped(s, drop);
    StripFixesStripped(StripOf(s, drop), drop);
  }

  // A blank put in front is stripped away again.
  lemma StripIgnoresLeadingBlank(c: char, s: string, drop: set<char>)
    requires c in drop
    ensures StripOf([c] + s, drop) == StripOf(s, drop)
  {
    var padded := [c] + s;
    assert padded[1..] == s;
    assert TrimLeft(padded, drop) == TrimLeft(s, drop);
  }

  lemma {:induction false} TrimLeftPadded(pad: string, s: string, drop: set<char>)
    requires (forall i :: 0 <= i < |pad| ==> pad[i] in drop) && (s == "" || s[0] !in drop)
    ensures TrimLeft(pad + s, drop) == s
  {
    if pad == [] {
      assert pad + s == s;
    } else {
      TrimLeftPadded(pad[1..], s, drop);
      assert (pad + s)[1..] == pad[1..] + s;
    }
  }

  lemma {:induction false} TrimRightPadded(s: string, pad: string, drop: set<char>)
    requires (forall i :: 0 <= i < |pad| ==> pad[i] in drop) && (s == "" || s[|s| - 1] !in drop)
    ensures TrimRight(s + pad, drop) == s
  {
    if pad == [] {
      assert s + pad == s;
    } else {
      TrimRightPadded(s, pad[..|pad| - 1], drop);
      assert (s + pad)[..|s + pad| - 1] == s + pad[..|pad| - 1];
    }
  }

  // Stripping takes off exactly what is put around a text that is stripped itself.
  lemma StripPadded(left: string, s: string, right: string, drop: set<char>)
    requires (forall i :: 0 <= i < |left| ==> left[i] in drop) && (forall i :: 0 <= i < |right| ==> right[i] in drop)
    requires s != "" && Stripped(s, drop)
    ensures StripOf(left + s + right, drop) == s
  {
    assert left + s + right == left + (s + right);
    TrimLeftPadded(left, s + right, drop);
    TrimRightPadded(s, right, drop);
  }

  /* ---- lower ---- */

  function LowerChar(c: char): char {
    if 'A' <= c <= 'Z' then (c as int + 32) as char else c
  }

  function Lower(s: string): (r: string)
    ensures |r| == |s|
  {
    if s == [] then [] else [LowerChar(s[0])] + Lower(s[1..])
  }

  lemma {:induction false} LowerAt(s: string, i: nat)
    requires i < |s|
    ensures Lower(s)[i] == LowerChar(s[i])
  {
    if i > 0 {
      LowerAt(s[1..], i - 1);
    }
  }

  lemma {:induction false} LowerTogether(a: string, b: string)
    ensures Lower(a + b) == Lower(a) + Lower(b)
  {
    if a == [] {
      assert a + b == b;
    } else {
      LowerTogether(a[1..], b);
      assert (a + b)[1..] == a[1..] + b;
    }
  }

  /* ---- substrings ---- */

  ghost predicate Contains(s: string, part: string) {
    exists i :: OccursAt(s, part, i)
  }

  predicate OccursAt(s: string, part: string, i: int) {
    0 <= i <= |s| - |part| && s[i..i + |part|] == part
  }

  // The executable `part in s`.
  function Occurs(s: string, part: string): (r: bool)
    ensures r <==> Contains(s, part)
  {
    exists i {:trigger OccursAt(s, part, i)} :: 0 <= i <= |s| && OccursAt(s, part, i)
  }

  lemma ContainsInside(left: string, s: string, right: string, part: string)
    requires Contains(s, part)
    ensures Contains(left + s + right, part)
  {
    var i :| OccursAt(s, part, i);
    var whole := left + s + right;
    assert whole[|left| + i..|left| + i + |part|] == part;
    assert OccursAt(whole, part, |left| + i);
  }

  lemma ContainsWhole(left: string, part: string, right: string)
    ensures Contains(left + part + right, part)
  {
    assert OccursAt(left + part + right, part, |left|);
  }

  lemma ContainsTransitive(s: string, middle: string, part: string)
    requires Contains(s, middle) && Contains(middle, part)
    ensures Contains(s, part)
  {
    var i :| OccursAt(s, middle, i);
    assert s == s[..i] + middle + s[i + |middle|..];
    ContainsInside(s[..i], middle, s[i + |middle|..], part);
  }

  /* ---- split and join ---- */

  function Split(s: string, sep: char): (parts: seq<string>)
    ensures |parts| >= 1
  {
    if s == [] then [[]]
    else
      var rest := Split(s[1..], sep);
      if s[0] == sep then [[]] + rest else [[s[0]] + rest[0]] + rest[1..]
  }

  function Join(parts: seq<string>, sep: string): string {
    if parts == [] then []
    else if |parts| == 1 then parts[0]
    else parts[0] + sep + Join(parts[1..], sep)
  }

  lemma {:induction false} SplitWithoutSeparator(s: string, sep: char)
    requires sep !in s
    ensures Split(s, sep) == [s]
  {
    if s != [] {
      SplitWithoutSeparator(s[1..], sep);
      assert [s[0]] + s[1..] == s;
    }
  }

  lemma {:induction false} SplitAtFirst(head: string, sep: char, rest: string)
    requires sep !in head
    ensures Split(head + [sep] + rest, sep) == [head] + Split(rest, sep)
  {
    var s := head + [sep] + rest;
    if head == [] {
      assert s[1..] == rest;
    } else {
      SplitAtFirst(head[1..], sep, rest);
      assert s[1..] == head[1..] + [sep] + rest;
      assert [head[0]] + head[1..] == head;
    }
  }

  // Joining separator-free parts and splitting again gives the parts back.
  lemma {:induction false} SplitJoin(parts: seq<string>, sep: char)
    requires parts != []
    requires forall p :: p in parts ==> sep !in p
    ensures Split(Join(parts, [sep]), sep) == parts
  {
    if |parts| == 1 {
      SplitWithoutSeparator(parts[0], sep);
    } else {
      SplitJoin(parts[1..], sep);
      SplitAtFirst(parts[0], sep, Join(parts[1..], [sep]));
      assert parts[0] + [sep] + Join(parts[1..], [sep]) == Join(parts, [sep]);
      assert [parts[0]] + parts[1..] == parts;
    }
  }

  lemma {:induction false} JoinNonEmpty(parts: seq<string>, sep: string)
    requires parts != [] && parts[0] != []
    ensures Join(parts, sep) != []
  {
    if |parts| > 1 {
      assert Join(parts, sep)[0] == parts[0][0];
    }
  }

  /* ---- str.split(): maximal runs of non-blank characters ---- */

  predicate IsBlank(c: char) {
    c in WHITESPACE
  }

  function Words(s: string): (ws: seq<string>)
    ensures s != [] && !IsBlank(s[0]) ==> ws != []
  {
    if s == [] then []
    else if IsBlank(s[0]) then Words(s[1..])
    else if |s| == 1 || IsBlank(s[1]) then [[s[0]]] + Words(s[1..])
    else
      var rest := Words(s[1..]);
      [[s[0]] + rest[0]] + rest[1..]
  }

  predicate IsWord(w: string) {
    w != [] && forall i :: 0 <= i < |w| ==> !IsBlank(w[i])
  }

  lemma {:induction false} WordsOfFirst(w: string, rest: string)
    requires IsWord(w)
    requires rest == [] || IsBlank(rest[0])
    ensures Words(w + rest) == [w] + Words(rest)
  {
    var s := w + rest;
    assert s[0] == w[0];
    if |w| == 1 {
      assert s[1..] == rest;
      assert [s[0]] == w;
    } else {
      assert s[1..] == w[1..] + rest;
      WordsOfFirst(w[1..], rest);
      assert s[1] == w[1];
      assert [w[0]] + w[1..] == w;
    }
  }

  lemma JoinFirst(parts: seq<string>, sep: string)
    requires |parts| > 1
    ensures Join(parts, sep) == parts[0] + (sep + Join(parts[1..], sep))
  {
  }

  lemma WordsOfMore(w: string, joined: string)
    requires IsWord(w)
    ensures Words(w + (" " + joined)) == [w] + Words(joined)
  {
    WordsOfFirst(w, " " + joined);
    assert (" " + joined)[1..] == joined;
  }

  // Words undoes " ".join on a list of words.
  lemma {:induction false} WordsOfJoin(ws: seq<string>)
    requires forall i :: 0 <= i < |ws| ==> IsWord(ws[i])
    ensures Words(Join(ws, " ")) == ws
  {
    if |ws| == 1 {
      WordsOfFirst(ws[0], []);
      assert ws[0] + [] == ws[0];
    } else if |ws| > 1 {
      WordsOfJoin(ws[1..]);
      JoinFirst(ws, " ");
      WordsOfMore(ws[0], Join(ws[1..], " "));
      assert [ws[0]] + ws[1..] == ws;
    }
  }

  /* ---- decimal numerals ---- */

  predicate IsDigit(c: char) {
    '0' <= c <= '9'
  }

  function DigitChar(d: nat): (c: char)
    requires d < 10
    ensures IsDigit(c) && DigitValue(c) == d
  {
    ('0' as int + d) as char
  }

  function DigitValue(c: char): (d: nat)
    requires IsDigit(c)
    ensures d < 10
  {
    c as int - '0' as int
  }

  // The regular-expression class \w.
  predicate IsWordChar(c: char) {
    'a' <= c <= 'z' || 'A' <= c <= 'Z' || c == '_' || IsDigit(c)
  }

  predicate AllDigits(s: string) {
    forall c :: c in s ==> IsDigit(c)
  }

  // str(n) for a non-negative n.
  function Decimal(n: nat): (s: string)
    ensures s != [] && AllDigits(s)
  {
    if n < 10 then [DigitChar(n)] else Decimal(n / 10) + [DigitChar(n % 10)]
  }

  // int(s) for a string of digits.
  function NumeralValue(s: string): nat
    requires AllDigits(s)
  {
    if s == [] then 0
    else 10 * NumeralValue(s[..|s| - 1]) + DigitValue(s[|s| - 1])
  }

  lemma {:induction false} ReadDecimal(n: nat)
    ensures NumeralValue(Decimal(n)) == n
  {
    if n >= 10 {
      ReadDecimal(n / 10);
      var s := Decimal(n);
      assert s[..|s| - 1] == Decimal(n / 10);
    }
  }

  // str(n) for any integer n.
  function IntText(n: int): (s: string)
    ensures s != []
    ensures forall c :: c in s ==> c == '-' || IsDigit(c)
  {
    if n < 0 then "-" + Decimal(-n) else Decimal(n)
  }

  lemma IntTextSign(n: int)
    ensures IntText(n)[0] == '-' <==> n < 0
  {
    if n >= 0 {
      assert Decimal(n)[0] in Decimal(n);
    }
  }

  lemma IntTextInjective(a: int, b: int)
    requires IntText(a) == IntText(b)
    ensures a == b
  {
    IntTextSign(a);
    IntTextSign(b);
    if a < 0 {
      assert IntText(a)[1..] == Decimal(-a) && IntText(b)[1..] == Decimal(-b);
      ReadDecimal(-a);
      ReadDecimal(-b);
    } else {
      ReadDecimal(a);
      ReadDecimal(b);
    }
  }
}
