/** Properties of the scanner's token stream. */
module LexerFacts {
  import opened Tokens
  import opened Lexer

  /** The concatenated literals of a lexeme sequence. */
  function Spelling(ls: seq<Lexeme>): string {
    if ls == [] then [] else ls[0].lit + Spelling(ls[1..])
  }

  predicate NulFree(s: string) {
    forall i | 0 <= i < |s| :: s[i] != Eof
  }

  /** No two consecutive lexemes are both whitespace. */
  predicate NoAdjacentWs(ls: seq<Lexeme>) {
    forall i | 0 <= i < |ls| - 1 :: ls[i].tok == WS ==> ls[i + 1].tok != WS
  }

  /** Every hyphen token is spelled "-". */
  predicate HyphensSpelled(ls: seq<Lexeme>) {
    forall i | 0 <= i < |ls| :: ls[i].tok == MIDEND ==> ls[i].lit == "-"
  }

  /** Scanning a NUL-free input loses nothing: the literals spell the input back. */
  lemma {:induction false} LexemesSpellInput(input: string, pos: nat)
    requires pos <= |input| && NulFree(input)
    ensures Spelling(LexemesFrom(input, pos)) == input[pos..]
    decreases |input| - pos
  {
    if pos < |input| {
      var r := Next(input, pos);
      NextFindsEof(input, pos, r);
      NextConsumes(input, pos, r);
      var ls := LexemesFrom(input, pos);
      var e := pos + |r.lexeme.lit|;
      assert r.end == e by {
        if e < |input| { assert input[e] != Eof; }
      }
      LexemesSpellInput(input, e);
      assert ls == [r.lexeme] + LexemesFrom(input, e);
      assert Spelling(ls) == r.lexeme.lit + Spelling(LexemesFrom(input, e)) by {
        assert ls[0] == r.lexeme && ls[1..] == LexemesFrom(input, e);
      }
      assert input[pos..] == input[pos..e] + input[e..];
    }
  }

  /** In a NUL-free input a whitespace token is never followed by another one. */
  lemma {:induction false} NoAdjacentWhitespace(input: string, pos: nat)
    requires pos <= |input| && NulFree(input)
    ensures NoAdjacentWs(LexemesFrom(input, pos))
    decreases |input| - pos
  {
    if pos < |input| {
      var r := Next(input, pos);
      NextFindsEof(input, pos, r);
      NextConsumes(input, pos, r);
      NextClassifies(input, pos, r);
      var rest := LexemesFrom(input, r.end);
      NoAdjacentWhitespace(input, r.end);
      assert LexemesFrom(input, pos) == [r.lexeme] + rest;
      if r.lexeme.tok == WS && rest != [] {
        assert r.end == pos + |r.lexeme.lit|;
        assert rest[0].tok != WS;
      }
    }
  }

  /** The scanner spells every hyphen token "-": only the character '-' maps to that kind. */
  lemma {:induction false} HyphensAreSpelled(input: string, pos: nat)
    requires pos <= |input|
    ensures HyphensSpelled(LexemesFrom(input, pos))
    decreases |input| - pos
  {
    if pos < |input| {
      var r := Next(input, pos);
      NextClassifies(input, pos, r);
      HyphensAreSpelled(input, r.end);
      assert LexemesFrom(input, pos) == [r.lexeme] + LexemesFrom(input, r.end);
    }
  }

  /** A NUL between two spaces is swallowed by the first whitespace run, so two whitespace tokens follow each other. */
  lemma NulSplitsWhitespace()
    ensures Lexemes([' ', Eof, ' ']) == [Lexeme(WS, " "), Lexeme(WS, " ")]
  {
    var input := [' ', Eof, ' '];
    assert RunEnd(input, 1, Blank) == 1;
    assert Next(input, 0) == Scanned(Lexeme(WS, " "), 2);
    assert RunEnd(input, 3, Blank) == 3;
    assert Next(input, 2) == Scanned(Lexeme(WS, " "), 3);
    assert LexemesFrom(input, 3) == [];
    assert LexemesFrom(input, 2) == [Lexeme(WS, " ")];
  }

  /** No input ever yields the TOTAL kind. */
  lemma {:induction false} NeverTotal(input: string, pos: nat)
    requires pos <= |input|
    ensures forall i | 0 <= i < |LexemesFrom(input, pos)| :: LexemesFrom(input, pos)[i].tok != TOTAL
    decreases |input| - pos
  {
    if pos < |input| {
      var r := Next(input, pos);
      NextClassifies(input, pos, r);
      NeverTotal(input, r.end);
      assert r.lexeme.tok != TOTAL by {
        if IsLetter(input[pos]) {
          var j := RunEnd(input, pos + 1, Word);
          assert r.lexeme.tok == Keyword(input[pos..j]);
        }
      }
      assert LexemesFrom(input, pos) == [r.lexeme] + LexemesFrom(input, r.end);
    }
  }

  /** Keyword matching ignores case: a word and its upper-cased spelling have the same kind. */
  lemma KeywordsIgnoreCase(w: string)
    ensures Keyword(ToUpper(w)) == Keyword(w)
  {
    assert ToUpper(ToUpper(w)) == ToUpper(w);
  }

  /** Keywords are recognised in any mix of case. */
  lemma KeywordExamples()
    ensures Keyword("look") == LOOK && Keyword("Condition") == CONDITION && Keyword("gte") == GTE
  {
    assert ToUpper("look") == "LOOK";
    assert ToUpper("Condition") == "CONDITION";
    assert ToUpper("gte") == "GTE";
  }

  /** A word that only starts with a keyword is an identifier. */
  lemma LongerWordIsAnIdentifier()
    ensures Keyword("looks") == IDENT
  {
    assert ToUpper("looks") == "LOOKS";
  }

  /** The misspelt table entry makes TOTAL an identifier in every spelling. */
  lemma TotalIsAnIdentifier()
    ensures Keyword("TOTAL") == IDENT && Keyword("total") == IDENT
  {
    assert ToUpper("TOTAL") == "TOTAL";
    assert ToUpper("total") == "TOTAL";
  }

  /** A dotted timestamp fragment is a single identifier token. */
  lemma DottedNumberIsOneToken()
    ensures Next("2018.01.01:", 0) == Scanned(Lexeme(IDENT, "2018.01.01"), 10)
  {
  }

  /** A carriage return is not whitespace: it comes out as ILLEGAL. */
  lemma CarriageReturnIsIllegal()
    ensures Next("\r\n", 0) == Scanned(Lexeme(ILLEGAL, "\r"), 1)
  {
  }

  /** At the end of input the scanner returns EOF with an empty literal and does not move, so it keeps doing so. */
  lemma EofRepeats(input: string, n: nat)
    ensures PosAfter(input, |input|, n) == |input|
    ensures Next(input, PosAfter(input, |input|, n)) == Scanned(Lexeme(EOF, ""), |input|)
  {
  }
}
