/**
 * One statement followed through the parser, clause by clause: the tokens of
 *   LOOK (a'int): CONDITION [a'f1 GT 100] AT [2018.01.01:00.00.00 - 2018.01.02:00.00.00]
 * and what each clause of the grammar makes of them.
 */
module QueryExample {
  import opened Tokens
  import opened Lexer
  import opened LexerFacts
  import opened LexerText
  import opened Grammar
  import opened GrammarFacts

  /** `(a'int)`, after `LOOK` and a blank. */
  ghost predicate DeclTokens(ts: seq<Lexeme>) {
    7 <= |ts|
    && ts[1] == Lexeme(WS, " ") && ts[2] == Lexeme(ParLeft, "(") && ts[3] == Lexeme(IDENT, "a")
    && ts[4] == Lexeme(OWN, "'") && ts[5] == Lexeme(IDENT, "int") && ts[6] == Lexeme(ParRight, ")")
  }

  /** `a'f1 GT 100`. */
  ghost predicate EntryTokens(ts: seq<Lexeme>) {
    19 <= |ts|
    && ts[12] == Lexeme(IDENT, "a") && ts[13] == Lexeme(OWN, "'") && ts[14] == Lexeme(IDENT, "f1")
    && ts[15] == Lexeme(WS, " ") && ts[16] == Lexeme(GT, "GT") && ts[17] == Lexeme(WS, " ")
    && ts[18] == Lexeme(IDENT, "100")
  }

  /** `: CONDITION [a'f1 GT 100]`. */
  ghost predicate ConditionTokens(ts: seq<Lexeme>) {
    20 <= |ts|
    && ts[7] == Lexeme(IS, ":") && ts[8] == Lexeme(WS, " ") && ts[9] == Lexeme(CONDITION, "CONDITION")
    && ts[10] == Lexeme(WS, " ") && ts[11] == Lexeme(MParLeft, "[")
    && EntryTokens(ts) && ts[19] == Lexeme(MParRight, "]")
  }

  /** `2018.01.01:00.00.00`. */
  ghost predicate BeginTokens(ts: seq<Lexeme>) {
    27 <= |ts|
    && ts[24] == Lexeme(IDENT, "2018.01.01") && ts[25] == Lexeme(IS, ":") && ts[26] == Lexeme(IDENT, "00.00.00")
  }

  /** `- 2018.01.02:00.00.00`, with its blanks. */
  ghost predicate EndTokens(ts: seq<Lexeme>) {
    33 <= |ts|
    && ts[27] == Lexeme(WS, " ") && ts[28] == Lexeme(MIDEND, "-") && ts[29] == Lexeme(WS, " ")
    && ts[30] == Lexeme(IDENT, "2018.01.02") && ts[31] == Lexeme(IS, ":") && ts[32] == Lexeme(IDENT, "00.00.00")
  }

  /** ` AT [2018.01.01:00.00.00 - 2018.01.02:00.00.00]`. */
  ghost predicate TimeTokens(ts: seq<Lexeme>) {
    34 <= |ts|
    && ts[20] == Lexeme(WS, " ") && ts[21] == Lexeme(AT, "AT") && ts[22] == Lexeme(WS, " ")
    && ts[23] == Lexeme(MParLeft, "[")
    && BeginTokens(ts) && EndTokens(ts) && ts[33] == Lexeme(MParRight, "]")
  }

  /** The lexemes of the statement above, as the scanner splits it. */
  ghost predicate SpellsQuery(ts: seq<Lexeme>) {
    |ts| == 34 && ts[0] == Lexeme(LOOK, "LOOK") && DeclTokens(ts) && ConditionTokens(ts) && TimeTokens(ts)
  }

  /**
   * The statement as written, in the pieces scanned below:
   *   LOOK (a'int): CONDITION [a'f1 GT 100] AT [2018.01.01:00.00.00 - 2018.01.02:00.00.00]
   */
  const QueryText := "LOOK (" + ("a'int)" + (": CONDITION" + (" [" + ("a'f1 " + ("GT 100]" + (" AT [" + ("2018.01.01:00.00.00" + (" - " + ("2018.01.02:00.00.00]")))))))))

  /** The lexemes of each piece of the text, one per token, in order. */
  const LookOpenLexemes := [Lexeme(LOOK, "LOOK"), Lexeme(WS, " "), Lexeme(ParLeft, "(")]
  const DeclarationLexemes := [Lexeme(IDENT, "a"), Lexeme(OWN, "'"), Lexeme(IDENT, "int"), Lexeme(ParRight, ")")]
  const ConditionKeywordLexemes := [Lexeme(IS, ":"), Lexeme(WS, " "), Lexeme(CONDITION, "CONDITION")]
  const ConditionOpenLexemes := [Lexeme(WS, " "), Lexeme(MParLeft, "[")]
  const ReferenceLexemes := [Lexeme(IDENT, "a"), Lexeme(OWN, "'"), Lexeme(IDENT, "f1"), Lexeme(WS, " ")]
  const ComparisonLexemes := [Lexeme(GT, "GT"), Lexeme(WS, " "), Lexeme(IDENT, "100"), Lexeme(MParRight, "]")]
  const TimeOpenLexemes := [Lexeme(WS, " "), Lexeme(AT, "AT"), Lexeme(WS, " "), Lexeme(MParLeft, "[")]
  const BeginStampLexemes := [Lexeme(IDENT, "2018.01.01"), Lexeme(IS, ":"), Lexeme(IDENT, "00.00.00")]
  const HyphenLexemes := [Lexeme(WS, " "), Lexeme(MIDEND, "-"), Lexeme(WS, " ")]
  const EndStampCloseLexemes := [Lexeme(IDENT, "2018.01.02"), Lexeme(IS, ":"), Lexeme(IDENT, "00.00.00"), Lexeme(MParRight, "]")]

  /** The lexemes of the two times, of the time clause, from the comparison on, and of the whole statement. */
  const StampLexemes := BeginStampLexemes + (HyphenLexemes + EndStampCloseLexemes)
  const TimeLexemes := TimeOpenLexemes + StampLexemes
  const BackLexemes := ComparisonLexemes + TimeLexemes
  const QueryLexemes := LookOpenLexemes + (DeclarationLexemes + (ConditionKeywordLexemes + (ConditionOpenLexemes + (ReferenceLexemes + BackLexemes))))

  /** `LOOK (` scans as its lexemes when `a` follows. */
  lemma LookOpenScans()
    ensures Separated(LookOpenLexemes, "a")
  {
    assert ToUpper("LOOK") == "LOOK";
  }

  /** `a'int)` scans as its lexemes when `:` follows. */
  lemma DeclarationScans()
    ensures Separated(DeclarationLexemes, ":")
  {
    assert ToUpper("a") == "A";
    assert ToUpper("int") == "INT";
  }

  /** `: CONDITION` scans as its lexemes when ` ` follows. */
  lemma ConditionKeywordScans()
    ensures Separated(ConditionKeywordLexemes, " ")
  {
    assert ToUpper("CONDITION") == "CONDITION";
  }

  /** `[` scans as its lexemes when `a` follows. */
  lemma ConditionOpenScans()
    ensures Separated(ConditionOpenLexemes, "a")
  {
  }

  /** `a'f1` scans as its lexemes when `G` follows. */
  lemma ReferenceScans()
    ensures Separated(ReferenceLexemes, "G")
  {
    assert ToUpper("a") == "A";
    assert ToUpper("f1") == "F1";
  }

  /** `GT 100]` scans as its lexemes when ` ` follows. */
  lemma ComparisonScans()
    ensures Separated(ComparisonLexemes, " ")
  {
    assert ToUpper("GT") == "GT";
  }

  /** `AT [` scans as its lexemes when `2` follows. */
  lemma TimeOpenScans()
    ensures Separated(TimeOpenLexemes, "2")
  {
    assert ToUpper("AT") == "AT";
  }

  /** `2018.01.01:00.00.00` scans as its lexemes when ` ` follows. */
  lemma BeginStampScans()
    ensures Separated(BeginStampLexemes, " ")
  {
  }

  /** `-` scans as its lexemes when `2` follows. */
  lemma HyphenScans()
    ensures Separated(HyphenLexemes, "2")
  {
  }

  /** `2018.01.02:00.00.00]` scans as its lexemes at the end of the text. */
  lemma EndStampCloseScans()
    ensures Separated(EndStampCloseLexemes, "")
  {
  }

  /** The first five pieces spell their text. */
  lemma FrontPiecesSpelled()
    ensures Spelling(LookOpenLexemes) == "LOOK (" && Spelling(DeclarationLexemes) == "a'int)"
    ensures Spelling(ConditionKeywordLexemes) == ": CONDITION" && Spelling(ConditionOpenLexemes) == " ["
    ensures Spelling(ReferenceLexemes) == "a'f1 "
  {
    ConditionPiecesSpelled();
  }

  /** The three pieces from `:` to the field reference spell their text. */
  lemma ConditionPiecesSpelled()
    ensures Spelling(ConditionKeywordLexemes) == ": CONDITION" && Spelling(ConditionOpenLexemes) == " ["
    ensures Spelling(ReferenceLexemes) == "a'f1 "
  {
  }

  /** The last five pieces spell their text. */
  lemma BackPiecesSpelled()
    ensures Spelling(ComparisonLexemes) == "GT 100]" && Spelling(TimeOpenLexemes) == " AT ["
    ensures Spelling(BeginStampLexemes) == "2018.01.01:00.00.00" && Spelling(HyphenLexemes) == " - "
    ensures Spelling(EndStampCloseLexemes) == "2018.01.02:00.00.00]"
  {
    StampPiecesSpelled();
  }

  /** The two time stamps spell their text. */
  lemma StampPiecesSpelled()
    ensures Spelling(BeginStampLexemes) == "2018.01.01:00.00.00"
    ensures Spelling(EndStampCloseLexemes) == "2018.01.02:00.00.00]"
  {
  }

  /** The lexemes of the statement spell its text. */
  lemma QuerySpelling()
    ensures Spelling(QueryLexemes) == QueryText
  {
    FrontPiecesSpelled();
    BackPiecesSpelled();
    var tail := EndStampCloseLexemes;
    SpellingAppend(HyphenLexemes, tail);
    tail := HyphenLexemes + tail;
    SpellingAppend(BeginStampLexemes, tail);
    tail := BeginStampLexemes + tail;
    SpellingAppend(TimeOpenLexemes, tail);
    tail := TimeOpenLexemes + tail;
    SpellingAppend(ComparisonLexemes, tail);
    tail := ComparisonLexemes + tail;
    SpellingAppend(ReferenceLexemes, tail);
    tail := ReferenceLexemes + tail;
    SpellingAppend(ConditionOpenLexemes, tail);
    tail := ConditionOpenLexemes + tail;
    SpellingAppend(ConditionKeywordLexemes, tail);
    tail := ConditionKeywordLexemes + tail;
    SpellingAppend(DeclarationLexemes, tail);
    tail := DeclarationLexemes + tail;
    SpellingAppend(LookOpenLexemes, tail);
  }

  /** The two times, from the begin stamp on: every lexeme scans as itself before the next one. */
  lemma StampsSeparated()
    ensures Separated(StampLexemes, "")
  {
    EndStampCloseScans();
    HyphenScans();
    SeparatedAppend(HyphenLexemes, EndStampCloseLexemes, "");
    BeginStampScans();
    SeparatedAppend(BeginStampLexemes, HyphenLexemes + EndStampCloseLexemes, "");
  }

  /** The time clause: every lexeme scans as itself before the next one. */
  lemma TimeSeparated()
    ensures Separated(TimeLexemes, "")
  {
    StampsSeparated();
    TimeOpenScans();
    SeparatedAppend(TimeOpenLexemes, StampLexemes, "");
  }

  /** From the comparison on, every lexeme scans as itself before the next one. */
  lemma BackSeparated()
    ensures Separated(BackLexemes, "")
  {
    TimeSeparated();
    ComparisonScans();
    SeparatedAppend(ComparisonLexemes, TimeLexemes, "");
  }

  /** Every lexeme of the statement scans as itself before the next one. */
  lemma QuerySeparated()
    ensures Separated(QueryLexemes, "")
  {
    BackSeparated();
    var tail := BackLexemes;
    ReferenceScans();
    SeparatedAppend(ReferenceLexemes, tail, "");
    tail := ReferenceLexemes + tail;
    ConditionOpenScans();
    SeparatedAppend(ConditionOpenLexemes, tail, "");
    tail := ConditionOpenLexemes + tail;
    ConditionKeywordScans();
    SeparatedAppend(ConditionKeywordLexemes, tail, "");
    tail := ConditionKeywordLexemes + tail;
    DeclarationScans();
    SeparatedAppend(DeclarationLexemes, tail, "");
    tail := DeclarationLexemes + tail;
    LookOpenScans();
    SeparatedAppend(LookOpenLexemes, tail, "");
  }

  /** The scanner splits the text of the statement into exactly its lexemes. */
  lemma QueryScans()
    ensures Lexemes(QueryText) == QueryLexemes
  {
    QuerySeparated();
    SpellingScans(QueryLexemes, "");
    QuerySpelling();
    assert QueryText + "" == QueryText;
  }

  /** `LOOK (a'int)` is at the positions the parser lemmas below read it. */
  lemma QueryLexemesFront()
    ensures |QueryLexemes| == 34 && QueryLexemes[0] == Lexeme(LOOK, "LOOK") && DeclTokens(QueryLexemes)
  {
  }

  /** The condition clause is at the positions the parser lemmas below read it. */
  lemma QueryLexemesConditions()
    ensures ConditionTokens(QueryLexemes)
  {
  }

  /** The time clause is at the positions the parser lemmas below read it. */
  lemma QueryLexemesTimes()
    ensures TimeTokens(QueryLexemes)
  {
    QueryLexemesStamps();
  }

  /** The two time stamps are at the positions the parser lemmas below read them. */
  lemma QueryLexemesStamps()
    ensures BeginTokens(QueryLexemes) && EndTokens(QueryLexemes)
  {
  }

  /** The lexemes of the statement are the 34 tokens the parser lemmas below read. */
  lemma QueryLexemesSpellQuery()
    ensures SpellsQuery(QueryLexemes)
  {
    QueryLexemesFront();
    QueryLexemesConditions();
    QueryLexemesTimes();
  }

  /** The condition the statement states: index `a`, field `f1`, greater than 100. */
  const GreaterThan100 := Operation("f1", "GT", Float64("100"))
  const QueryCondition := map["a" := GreaterThan100]

  /** The two times as the time clause stores them: each date and clock joined back with ':'. */
  const Begin := "2018.01.01" + ":" + "00.00.00"
  const End := "2018.01.02" + ":" + "00.00.00"

  /** Where the parser stands between the pieces read below: the next token to read and the last token read. */
  const AfterLook := PState(1, Lexeme(LOOK, "LOOK"), 0)
  const AfterDeclarations := PState(7, Lexeme(ParRight, ")"), 0)
  const AtEntry := PState(12, Lexeme(MParLeft, "["), 0)
  const AtField := PState(14, Lexeme(OWN, "'"), 0)
  const AtValue := PState(17, Lexeme(GT, "GT"), 0)
  const AfterValue := PState(19, Lexeme(IDENT, "100"), 0)
  const AfterConditions := PState(20, Lexeme(MParRight, "]"), 0)
  const AtBegin := PState(24, Lexeme(MParLeft, "["), 0)
  const AfterBegin := PState(27, Lexeme(IDENT, "00.00.00"), 0)
  const AfterEnd := PState(33, Lexeme(IDENT, "00.00.00"), 0)
  const AfterTimes := PState(34, Lexeme(MParRight, "]"), 0)

  /** `(a'int)` binds index `a` to type `int`. */
  lemma QueryDeclarations(ts: seq<Lexeme>)
    requires DeclTokens(ts)
    ensures Declarations(ts, AfterLook) == (Ok(map["a" := "int"]), AfterDeclarations)
  {
    SkipBlank(ts, 1, AfterLook.buf);
    PlainDeclaration(ts, 3, ts[2]);
    SkipToken(ts, 6, ts[5]);
    assert ListsItems(ts, PState(3, ts[2], 0), [("a", "int")], AfterDeclarations);
    ItemsBind(ts, PState(3, ts[2], 0), [("a", "int")], AfterDeclarations, map[]);
    assert Bind(map[], [("a", "int")]) == Bind(map["a" := "int"], []);
  }

  /** `100` after `GT`: the number 100. */
  lemma QueryValue(ts: seq<Lexeme>)
    requires EntryTokens(ts)
    ensures CondValue(ts, AtValue, GT) == (Ok(Float64("100")), AfterValue)
  {
    SkipBlank(ts, 17, AtValue.buf);
    assert IsFloatLiteral("100");
  }

  /** `f1 GT 100` after the quote: field `f1`, comparator `GT`, the number 100. */
  lemma QueryField(ts: seq<Lexeme>)
    requires EntryTokens(ts)
    ensures Field(ts, AtField, "a") == (Ok(("a", GreaterThan100)), AfterValue)
  {
    assert PScan(ts, AtField) == (ts[14], PState(15, ts[14], 0));
    SkipBlank(ts, 15, ts[14]);
    QueryValue(ts);
    FieldReads(ts, AtField, "a", Float64("100"), AfterValue);
  }

  /** `a'f1 GT 100` is the condition on field `f1` of index `a`. */
  lemma QueryConditionEntry(ts: seq<Lexeme>)
    requires EntryTokens(ts)
    ensures Condition(ts, AtEntry) == (Ok(("a", GreaterThan100)), AfterValue)
  {
    SkipToken(ts, 12, AtEntry.buf);
    SkipToken(ts, 13, ts[12]);
    QuotedConditionReads(ts, AtEntry);
    QueryField(ts);
  }

  /** `a'f1 GT 100]` after the bracket: that one condition entry, then the closing empty map. */
  lemma QueryConditionList(ts: seq<Lexeme>)
    requires ConditionTokens(ts)
    ensures CondItems(ts, AtEntry, []) == (Ok([QueryCondition, map[]]), AfterConditions)
  {
    QueryConditionEntry(ts);
    SkipToken(ts, 19, AfterValue.buf);
    LastConditionReads(ts, AtEntry, [], ("a", GreaterThan100), AfterValue);
    assert [] + [QueryCondition] + [map[]] == [QueryCondition, map[]];
  }

  /** `: CONDITION [a'f1 GT 100]` gives that one condition entry, then the closing empty map. */
  lemma QueryConditions(ts: seq<Lexeme>)
    requires ConditionTokens(ts)
    ensures Conditions(ts, AfterDeclarations) == (Ok([QueryCondition, map[]]), AfterConditions)
  {
    SkipToken(ts, 7, AfterDeclarations.buf);
    SkipBlank(ts, 8, ts[7]);
    SkipBlank(ts, 10, ts[9]);
    ConditionsOpen(ts, AfterDeclarations);
    QueryConditionList(ts);
  }

  /** `2018.01.01:00.00.00` is read back as the begin time. */
  lemma QueryBegin(ts: seq<Lexeme>)
    requires BeginTokens(ts)
    ensures TimeBegin(ts, AtBegin) == (Ok(Begin), AfterBegin)
  {
    SkipToken(ts, 24, AtBegin.buf);
    SkipToken(ts, 25, ts[24]);
    SkipToken(ts, 26, ts[25]);
  }

  /** `- 2018.01.02:00.00.00` is read back as the end time. */
  lemma QueryEnd(ts: seq<Lexeme>)
    requires EndTokens(ts)
    ensures TimeEnd(ts, AfterBegin) == (Ok(End), AfterEnd)
  {
    SkipBlank(ts, 27, AfterBegin.buf);
    SkipBlank(ts, 29, ts[28]);
    SkipToken(ts, 31, ts[30]);
    SkipToken(ts, 32, ts[31]);
  }

  /** `AT [2018.01.01:00.00.00 - 2018.01.02:00.00.00]` gives both times, joined back with ':'. */
  lemma QueryTimeRange(ts: seq<Lexeme>)
    requires TimeTokens(ts)
    ensures TimeRange(ts, AfterConditions) == (Ok((Begin, End)), AfterTimes)
  {
    SkipBlank(ts, 20, AfterConditions.buf);
    SkipBlank(ts, 22, ts[21]);
    QueryBegin(ts);
    QueryEnd(ts);
    SkipToken(ts, 33, AfterEnd.buf);
    TimeRangeReads(ts, AfterConditions, Begin, End, AfterBegin, AfterEnd);
  }

  /** LOOK, then the three clauses, each read from where the one before it stopped. */
  lemma QueryClauses(ts: seq<Lexeme>)
    requires SpellsQuery(ts)
    ensures PSkip(ts, Initial).0.tok == LOOK
    ensures Declarations(ts, PSkip(ts, Initial).1).0 == Ok(map["a" := "int"])
    ensures Declarations(ts, PSkip(ts, Initial).1).1 == AfterDeclarations
    ensures Conditions(ts, AfterDeclarations).0 == Ok([QueryCondition, map[]])
    ensures Conditions(ts, AfterDeclarations).1 == AfterConditions
    ensures TimeRange(ts, AfterConditions).0 == Ok((Begin, End)) && TimeRange(ts, AfterConditions).1 == AfterTimes
  {
    assert PSkip(ts, Initial) == (ts[0], AfterLook);
    QueryDeclarations(ts);
    QueryConditions(ts);
    QueryTimeRange(ts);
  }

  /** The whole statement: the bindings, the condition set, and both times, with every token read. */
  lemma QueryParses(ts: seq<Lexeme>)
    requires SpellsQuery(ts)
    ensures ParseFrom(ts, Initial)
            == (Ok(SelectStatement([map["a" := "int"]], [QueryCondition, map[]], Begin, End)), AfterTimes)
  {
    QueryClauses(ts);
    LookReads(ts, Initial, map["a" := "int"], AfterDeclarations, [QueryCondition, map[]], AfterConditions,
              Begin, End, AfterTimes);
  }

  /** Scanned and parsed from its text, the statement gives its declarations, its condition set and its time range. */
  lemma QueryTextParses()
    ensures ParseQuery(QueryText) == Ok(SelectStatement([map["a" := "int"]], [QueryCondition, map[]], Begin, End))
  {
    QueryScans();
    QueryLexemesSpellQuery();
    QueryParses(QueryLexemes);
  }

  /**
   * The same statement without `CONDITION` (and the blank before it): the parser stops at `[`,
   * which it reports as found where CONDITION was expected.
   */
  lemma QueryWithoutConditionKeyword(u: seq<Lexeme>)
    requires SpellsQuery(u)
    ensures ParseFrom(u[..8] + u[10..], Initial).0 == Fail(Unexpected("[", "CONDITION"))
  {
    var ts := u[..8] + u[10..];
    assert ts[0] == u[0] && ts[1] == u[1] && ts[2] == u[2] && ts[3] == u[3];
    assert ts[4] == u[4] && ts[5] == u[5] && ts[6] == u[6] && ts[7] == u[7];
    assert ts[8] == u[10] && ts[9] == u[11];
    assert PSkip(ts, Initial) == (ts[0], PState(1, ts[0], 0));
    assert PSkip(ts, PState(1, ts[0], 0)) == (ts[2], PState(3, ts[2], 0));
    PlainDeclaration(ts, 3, ts[2]);
    SkipToken(ts, 6, ts[5]);
    assert ListsItems(ts, PState(3, ts[2], 0), [("a", "int")], PState(7, ts[6], 0));
    ItemsBind(ts, PState(3, ts[2], 0), [("a", "int")], PState(7, ts[6], 0), map[]);
    assert PSkip(ts, PState(7, ts[6], 0)) == (ts[7], PState(8, ts[7], 0));
    assert PSkip(ts, PState(8, ts[7], 0)) == (ts[9], PState(10, ts[9], 0));
    MissingConditionKeyword(ts, Initial);
  }
}
