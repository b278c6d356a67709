/**
 * What the row cap does to the rows of a statement: it keeps the first of them where the limit it
 * writes is code behind a query that takes one; where not, it is lost or breaks the statement.
 */
module RowCapMeaning {
  import opened Text
  import opened RowCapping
  import opened SqlReading
  import opened RowCapReading
  import opened SplitTails

  // For this database, the capped statement returns exactly the first `cap` rows of the original, and
  // fails when that fails.
  ghost predicate KeepsMeaning<Row(!new)>(run: string -> Outcome<Row>, sql: string, cap: nat) {
    Answer(run, ReadingOf(ApplyRowCap(sql, cap))) == First(Answer(run, ReadingOf(sql)), cap)
  }

  /* ---- exactly when the cap keeps the meaning ---- */

  // In every database alike: the readings decide.
  lemma ReadingsDecide(sql: string, cap: nat)
    ensures (forall run: string -> Outcome<nat> :: KeepsMeaning(run, sql, cap))
            <==> ReadingOf(ApplyRowCap(sql, cap)) == Capped(ReadingOf(sql), cap)
  {
    hide ReadingOf, ApplyRowCap, Capped;
    forall run: string -> Outcome<nat>
      ensures Answer(run, Capped(ReadingOf(sql), cap)) == First(Answer(run, ReadingOf(sql)), cap)
    {
      AnswerOfCapped(run, ReadingOf(sql), cap);
    }
    if ReadingOf(ApplyRowCap(sql, cap)) != Capped(ReadingOf(sql), cap) {
      ReadingIsNormal(ApplyRowCap(sql, cap));
      CappedIsNormal(ReadingOf(sql), cap);
      var run := ToldApart(ReadingOf(ApplyRowCap(sql, cap)), Capped(ReadingOf(sql), cap));
      assert !KeepsMeaning(run, sql, cap);
    }
  }

  lemma CappedIsNormal(r: Reading, cap: nat)
    ensures Normal(Capped(r, cap))
  {
  }

  // The text decides: the limit is written in code, onto a limit or onto a query that takes one; or
  // it is written where nothing counts, but the statement limits itself enough; or the database
  // refuses the statement anyway.
  ghost predicate CapStands(base: string, cap: nat) {
    var mode, reading := After(Landing(base)), ReadingOf(base);
    if AcrossComment(base, cap) then reading.Refused? && ReadingOf(KeptBase(base, cap)).Refused?
    else if Coding(mode) then ParseTail(base).Some? || TakesLimit(Read(base)) || reading.Refused?
    else Open(mode) || reading.Refused? || (reading.Limited? && reading.count <= cap)
  }

  lemma BaseOfIsTrimmed(sql: string)
    ensures BaseOf(sql) == TrimRight(BaseOf(sql), WHITESPACE)
  {
    var stripped := Strip(sql);
    StripIsStripped(sql, WHITESPACE);
    if EndsWithSemicolon(stripped) {
      TrimRightStops(stripped[..|stripped| - 1], WHITESPACE);
    }
  }

  lemma BaseStandsExactly(base: string, cap: nat)
    requires base == TrimRight(base, WHITESPACE)
    requires cap > 0 || !AcrossComment(base, cap)
    ensures ReadingOf(KeptBase(base, cap)) == Capped(ReadingOf(base), cap) <==> CapStands(base, cap)
  {
    hide ReadingOf, KeptBase, AcrossComment, ParseTail, TakesLimit, After, Coding, Open, TrimRight, Read;
    var mode := After(Landing(base));
    if AcrossComment(base, cap) {
      if ReadingOf(KeptBase(base, cap)) == Capped(ReadingOf(base), cap) {
        AcrossNeverStands(base, cap);
      }
    } else if Coding(mode) {
      if ParseTail(base).Some? {
        RecappedReading(base, cap);
      } else {
        AppendedReading(base, cap);
      }
    } else if Open(mode) {
      OpenReadings(base, cap);
    } else {
      UnseenReading(base, cap);
      ReadingIsNormal(base);
      SameReading(ReadingOf(base), cap);
    }
  }

  lemma SameReading(r: Reading, cap: nat)
    requires Normal(r)
    ensures r == Capped(r, cap) <==> r.Refused? || (r.Limited? && r.count <= cap)
  {
  }

  lemma BlankIsRefused(sql: string, cap: nat)
    requires Strip(sql) == ""
    ensures ApplyRowCap(sql, cap) == sql && ReadingOf(sql) == Refused && CapStands(BaseOf(sql), cap)
  {
    hide ParseTail, TakesLimit, Step, Shown;
    ReadingOfBase(sql);
    assert BaseOf(sql) == "" && TrimRight("", END) == "";
    OnlyBlanks("");
    OnlyBlanks(" ") by { BlanksAreBlank(' '); }
    EmptyIsTrimmed();
    NothingIsRefused();
  }

  lemma EmptyIsTrimmed()
    ensures ReadingOf("") == Parsed("") && ParseTail("").None? && Landing("") == " "
  {
    EmptyBaseIsAppended(0);
    NothingIsRefused();
  }

  lemma ReadingsOfBase(sql: string, cap: nat)
    requires cap > 0 || !AcrossComment(BaseOf(sql), cap)
    ensures ReadingOf(ApplyRowCap(sql, cap)) == Capped(ReadingOf(sql), cap) <==> CapStands(BaseOf(sql), cap)
  {
    hide ReadingOf, KeptBase, AcrossComment, CapStands, BaseOf;
    BaseOfIsTrimmed(sql);
    ReadingOfBase(sql);
    BaseStandsExactly(BaseOf(sql), cap);
    if Strip(sql) != "" {
      ReadingOfCapped(sql, cap);
    } else {
      BlankIsRefused(sql, cap);
    }
  }

  // Whatever the database holds, the capped statement returns exactly the first `cap` rows of the
  // original, if and only if the cap stands in its text. (For a cap of zero, texts on which the cap is
  // written across the end of a comment are left to ReadingsDecide.)
  lemma RowCapKeepsMeaningExactly(sql: string, cap: nat)
    requires cap > 0 || !AcrossComment(BaseOf(sql), cap)
    ensures (forall run: string -> Outcome<nat> :: KeepsMeaning(run, sql, cap)) <==> CapStands(BaseOf(sql), cap)
  {
    hide ReadingOf, CapStands, AcrossComment, KeepsMeaning;
    ReadingsDecide(sql, cap);
    ReadingsOfBase(sql, cap);
  }

  /* ---- for one database ---- */

  // Where the cap stands it keeps the meaning, whatever the rows are.
  lemma RowCapKeepsMeaning<Row(!new)>(run: string -> Outcome<Row>, sql: string, cap: nat)
    requires CapStands(BaseOf(sql), cap)
    ensures KeepsMeaning(run, sql, cap)
  {
    hide ReadingOf, CapStands, AcrossComment, KeptBase, BaseOf;
    if cap == 0 && AcrossComment(BaseOf(sql), cap) {
      StandsAcross(BaseOf(sql), cap);
      ReadingOfBase(sql);
      if Strip(sql) != "" {
        ReadingOfCapped(sql, cap);
      } else {
        BlankIsRefused(sql, cap);
      }
    } else {
      ReadingsOfBase(sql, cap);
    }
    AnswerOfCapped(run, ReadingOf(sql), cap);
  }

  lemma StandsAcross(base: string, cap: nat)
    requires CapStands(base, cap) && AcrossComment(base, cap)
    ensures ReadingOf(base).Refused? && ReadingOf(KeptBase(base, cap)).Refused?
  {
  }

  // Written in a comment or behind the statement, the cap changes nothing: it keeps the meaning
  // exactly when there were no more rows than the cap anyway.
  lemma RowCapIsLost<Row(!new)>(run: string -> Outcome<Row>, sql: string, cap: nat)
    requires var mode := After(Landing(BaseOf(sql))); !Coding(mode) && !Open(mode)
    requires !AcrossComment(BaseOf(sql), cap) && Strip(sql) != ""
    ensures Answer(run, ReadingOf(ApplyRowCap(sql, cap))) == Answer(run, ReadingOf(sql))
    ensures var o := Answer(run, ReadingOf(sql));
            KeepsMeaning(run, sql, cap) <==> (o.Failed? || |o.rows| <= cap)
  {
    hide ReadingOf, AcrossComment, KeptBase, BaseOf, Coding, Open, After;
    ReadingOfBase(sql);
    ReadingOfCapped(sql, cap);
    UnseenReading(BaseOf(sql), cap);
  }

  // Appended to a query that takes no limit, the cap makes the database refuse the statement.
  lemma RowCapBreaks<Row(!new)>(run: string -> Outcome<Row>, sql: string, cap: nat)
    requires var base := BaseOf(sql);
             ParseTail(base).None? && Coding(After(Landing(base))) && !TakesLimit(Read(base))
    requires Strip(sql) != ""
    ensures Answer(run, ReadingOf(ApplyRowCap(sql, cap))) == Failed
    ensures KeepsMeaning(run, sql, cap) <==> Answer(run, ReadingOf(sql)) == Failed
  {
    hide ReadingOf, KeptBase, BaseOf, Coding, After, Read, TakesLimit, ParseTail, Landing;
    BaseOfIsTrimmed(sql);
    ReadingOfCapped(sql, cap);
    AppendedReading(BaseOf(sql), cap);
  }

  /* ---- inputs on which the cap does not stand ---- */

  lemma PlainReading(query: string)
    requires Plain(query)
    ensures After(query) == Code && Seen(query) == query
  {
    hide After, Seen, PlainChar;
    OnlyBlanks("");
    PlainInCode("", query);
    assert "" + query == query;
  }

  lemma BaseWithoutSemicolon(sql: string)
    requires sql != "" && Stripped(sql, WHITESPACE) && sql[|sql| - 1] != ';' && sql[|sql| - 1] !in DIGITS
    ensures Strip(sql) == sql && BaseOf(sql) == sql && ParseTail(sql).None? && TrimRight(sql, END) == sql
  {
    hide ParseTail, TailText, TrimRight, TrimLeft, WHITESPACE, DIGITS;
    StripFixesStripped(sql, WHITESPACE);
    NoTrim(sql);
    NoDigitNoTail(sql);
  }

  lemma NoTrim(s: string)
    requires s != "" && s[|s| - 1] !in WHITESPACE && s[|s| - 1] != ';'
    ensures TrimRight(s, END) == s
  {
  }

  lemma NoDigitNoTail(s: string)
    requires s != "" && s[|s| - 1] !in DIGITS
    ensures ParseTail(s).None?
  {
    hide ParseTail, TailText, DIGITS;
    ParsedTailIsValid(s);
    if ParseTail(s).Some? {
      TailEndsInDigit(ParseTail(s).value);
    }
  }

  lemma NoteSteps()
    ensures Step(Code, ' ') == Code && Step(Code, '-') == Dash && Step(Dash, '-') == Dashes && Step(Dashes, ' ') == Line
    ensures Shown(Code, ' ') == " " && Shown(Code, '-') == "" && Shown(Dash, '-') == "" && Shown(Dashes, ' ') == " "
  {
  }

  lemma NoteIsUnseen(query: string, note: string)
    requires Plain(query) && '\n' !in note
    ensures After(query + " -- " + note) == Line && Seen(query + " -- " + note) == query + "  "
  {
    hide After, Seen, Step, Shown, PlainChar;
    PlainReading(query);
    NoteSteps();
    Snoc(query, ' ');
    Snoc(query + [' '], '-');
    Snoc(query + [' '] + ['-'], '-');
    Snoc(query + [' '] + ['-'] + ['-'], ' ');
    assert query + " -- " == query + [' '] + ['-'] + ['-'] + [' '];
    UnseenAfter(query + " -- ", note);
  }

  lemma NoteReading(query: string, note: string)
    requires Plain(query) && query != "" && Stripped(query, WHITESPACE) && ParseTail(query).None?
    requires '\n' !in note && note != "" && note[|note| - 1] !in END
    ensures ReadingOf(query + " -- " + note) == Query(query)
  {
    hide After, Seen, PlainChar, ParseTail;
    var sql := query + " -- " + note;
    NoteIsUnseen(query, note);
    assert sql[|sql| - 1] == note[|note| - 1];
    NothingHeldInLine(After(sql));
    assert Uncommented(sql) == query + "  ";
    TrimBlanks(query, "  ");
    StripFixesStripped(query, WHITESPACE);
  }

  // Behind a plain query with a line comment at its end, the cap is lost: every row comes back.
  lemma TrailingCommentLosesTheCap<Row(!new)>(
    run: string -> Outcome<Row>, query: string, note: string, cap: nat)
    requires Plain(query) && query != "" && Stripped(query, WHITESPACE) && ParseTail(query).None?
    requires '\n' !in note && note != "" && note[|note| - 1] !in END + DIGITS
    ensures var sql := query + " -- " + note;
            && Answer(run, ReadingOf(sql)) == run(query)
            && Answer(run, ReadingOf(ApplyRowCap(sql, cap))) == run(query)
            && !CapStands(BaseOf(sql), cap)
  {
    hide After, Seen, ParseTail, ReadingOf, TrimRight, TrimLeft, PlainChar;
    var sql := query + " -- " + note;
    assert sql[0] == query[0] && sql[|sql| - 1] == note[|note| - 1];
    BaseWithoutSemicolon(sql);
    NoteIsUnseen(query, note);
    NoteIsUnseen(query, note + " ");
    assert query + " -- " + (note + " ") == sql + " ";
    NoteReading(query, note);
    RowCapIsLost(run, sql, cap);
  }

  // For instance.
  lemma NoteLosesTheCap<Row(!new)>(run: string -> Outcome<Row>, cap: nat)
    ensures Answer(run, ReadingOf(ApplyRowCap("SELECT a FROM t -- note", cap))) == run("SELECT a FROM t")
  {
    hide ParseTail, ReadingOf, ApplyRowCap, Strip, TrimLeft, TrimRight;
    var query := "SELECT a FROM t";
    BaseWithoutSemicolon(query);
    assert query + " -- " + "note" == "SELECT a FROM t -- note";
    TrailingCommentLosesTheCap(run, query, "note", cap);
  }

  // A locking clause takes no limit behind it: the capped statement fails.
  lemma LockingClauseBreaks<Row(!new)>(run: string -> Outcome<Row>, query: string, cap: nat)
    requires Plain(query) && query != "" && Stripped(query, WHITESPACE)
    requires Locked(query) && query[|query| - 1] !in DIGITS
    ensures Answer(run, ReadingOf(query)) == run(query)
    ensures Answer(run, ReadingOf(ApplyRowCap(query, cap))) == Failed
  {
    hide After, Seen, ParseTail, TrimRight, TrimLeft, PlainChar, Locked;
    PlainReading(query);
    assert PlainChar(query[|query| - 1]);
    PlainIsNoSemicolon(query[|query| - 1]);
    BaseWithoutSemicolon(query);
    BlankIsPlain();
    PlainReading(query + " ");
    assert Uncommented(query) == query;
    RowCapBreaks(run, query, cap);
  }

  lemma PlainIsNoSemicolon(c: char)
    requires PlainChar(c)
    ensures c != ';'
  {
  }

  lemma BlankIsPlain()
    ensures PlainChar(' ')
  {
  }

  lemma ForShareBreaks<Row(!new)>(run: string -> Outcome<Row>, cap: nat)
    ensures Answer(run, ReadingOf(ApplyRowCap("SELECT a FROM t FOR SHARE", cap))) == Failed
  {
    hide ReadingOf, ApplyRowCap, Words, Lower;
    var query := "SELECT a FROM t FOR SHARE";
    ForShare();
    assert query[16..25] == "FOR SHARE";
    assert LockAt(query, 16, 25);
    LockingClauseBreaks(run, query, cap);
  }

  lemma ForShare()
    ensures Words(Lower("FOR SHARE")) == ["for", "share"]
  {
    hide Words, Lower;
    var upper, lower := "FOR SHARE", "for share";
    forall i | 0 <= i < |upper|
      ensures Lower(upper)[i] == lower[i]
    {
      LowerAt(upper, i);
    }
    assert Lower(upper) == lower;
    var words := ["for", "share"];
    assert Join(words[1..], " ") == "share";
    assert Join(words, " ") == "for" + " " + "share" == lower;
    WordsOfJoin(words);
  }
}
