/**
 * What normalised names and the keys of remembered actions say, read off the texts
 * (agent/react_executor.py, agent/react_planner.py `_action_target`).
 */
module NameText {
  import opened Text
  import opened TableNames
  import opened PlannerActions

  ghost predicate AllOf(s: string, chars: set<char>) {
    forall i :: 0 <= i < |s| ==> s[i] in chars
  }

  // A name is what is left, in lower case, without blanks around it and quotes or brackets within these.
  lemma NormalizeExactly(left: string, open: string, name: string, close: string, right: string)
    requires AllOf(left, WHITESPACE) && AllOf(right, WHITESPACE)
    requires AllOf(open, {'`', '"', '[', ']'}) && AllOf(close, {'`', '"', '[', ']'})
    requires name != "" && Stripped(name, {'`', '"', '[', ']'}) && Stripped(open + name + close, WHITESPACE)
    ensures Normalize(left + (open + name + close) + right) == Lower(name)
  {
    StripPadded(left, open + name + close, right, WHITESPACE);
    StripPadded(open, name, close, {'`', '"', '[', ']'});
  }

  // Names that differ in case only are one name.
  lemma NormalizeIgnoresCase(a: string, b: string)
    requires Lower(a) == Lower(b) && Stripped(a, WHITESPACE) && Stripped(b, WHITESPACE)
    requires Stripped(a, {'`', '"', '[', ']'}) && Stripped(b, {'`', '"', '[', ']'})
    ensures Normalize(a) == Normalize(b) == Lower(a)
  {
    StripFixesStripped(a, WHITESPACE);
    StripFixesStripped(b, WHITESPACE);
    StripFixesStripped(a, {'`', '"', '[', ']'});
    StripFixesStripped(b, {'`', '"', '[', ']'});
  }

  /* ---- keys of query retrievals ---- */

  function LowerAll(words: seq<string>): (r: seq<string>)
    ensures |r| == |words|
  {
    if words == [] then [] else [Lower(words[0])] + LowerAll(words[1..])
  }

  lemma {:induction false} LowerJoined(words: seq<string>)
    ensures Lower(Join(words, " ")) == Join(LowerAll(words), " ")
  {
    if |words| == 1 {
      assert LowerAll(words) == [Lower(words[0])];
    } else if |words| > 1 {
      LowerJoined(words[1..]);
      JoinFirst(words, " ");
      JoinFirst(LowerAll(words), " ");
      LowerTogether(words[0], " " + Join(words[1..], " "));
      LowerTogether(" ", Join(words[1..], " "));
      LowerBlank();
      assert LowerAll(words)[1..] == LowerAll(words[1..]);
    }
  }

  lemma LowerBlank()
    ensures Lower(" ") == " "
  {
  }

  lemma LowerIsWord(w: string)
    requires IsWord(w)
    ensures IsWord(Lower(w))
  {
    forall i | 0 <= i < |w|
      ensures !IsBlank(Lower(w)[i])
    {
      LowerAt(w, i);
    }
  }

  lemma {:induction false} LowerAllAreWords(words: seq<string>)
    requires forall i :: 0 <= i < |words| ==> IsWord(words[i])
    ensures forall i :: 0 <= i < |LowerAll(words)| ==> IsWord(LowerAll(words)[i])
  {
    hide IsWord;
    if words != [] {
      LowerIsWord(words[0]);
      LowerAllAreWords(words[1..]);
    }
  }

  lemma {:induction false} WordsAreWords(s: string)
    ensures forall i :: 0 <= i < |Words(s)| ==> IsWord(Words(s)[i])
  {
    if s != [] {
      WordsAreWords(s[1..]);
    }
  }

  // The text a retrieval by query is about.
  function Asked(req: Request, input: string): string {
    if input != "" then input else req.searchQuery
  }

  // Two retrievals of samples, or of corrections, count as the same exactly when their texts have the
  // same words, up to case.
  lemma QueryKeysExactly(req: Request, a: string, b: string)
    ensures QueryTarget(req, a) == QueryTarget(req, b) <==>
            LowerAll(Words(Asked(req, a))) == LowerAll(Words(Asked(req, b)))
  {
    QueryKeyReadsBack(req, a);
    QueryKeyReadsBack(req, b);
  }

  lemma QueryKeyReadsBack(req: Request, input: string)
    ensures QueryTarget(req, input) == Join(LowerAll(Words(Asked(req, input))), " ")
    ensures Words(QueryTarget(req, input)) == LowerAll(Words(Asked(req, input)))
  {
    var words := Words(Asked(req, input));
    WordsAreWords(Asked(req, input));
    LowerJoined(words);
    LowerAllAreWords(words);
    WordsOfJoin(LowerAll(words));
  }

  /* ---- keys of schema retrievals ---- */

  // Two schema retrievals that name tables count as the same exactly when they name the same tables, in
  // the same order, however these are written.
  lemma SchemaKeysExactly(a: string, b: string, s: State, t: State)
    requires ParseCsv(a) != [] && ParseCsv(b) != []
    requires AllCanonical(ParseCsv(a)) && AllCanonical(ParseCsv(b))
    ensures SchemaTarget(a, s) == SchemaTarget(b, t) <==> ParseCsv(a) == ParseCsv(b)
  {
    hide ParseCsv, Canonical;
    ParsedIsTidy(a);
    ParsedIsTidy(b);
    ParseJoinTidy(ParseCsv(a));
    ParseJoinTidy(ParseCsv(b));
  }

  lemma ParsedIsTidy(value: string)
    ensures Tidy(ParseCsv(value))
  {
    AddItemsFacts([], NormalizeAll(Split(value, ',')));
  }
}
