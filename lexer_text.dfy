/**
 * Texts written token by token: lexemes that each scan as themselves, written one
 * after the other, are exactly what the scanner makes of the text they spell.
 */
module LexerText {
  import opened Tokens
  import opened Lexer
  import opened LexerFacts

  /** Every character of `w` after its first continues a `run`: the run from the second character reaches the end of `w`. */
  predicate Continues(w: string, run: Run) {
    1 <= |w| && RunEnd(w, 1, run) == |w|
  }

  /** A `run` stops before `next`: it is empty, or starts with a character that neither continues the run nor is a NUL. */
  predicate StopsBefore(run: Run, next: string) {
    next == [] || (next[0] != Eof && !InRun(run, next[0]))
  }

  /** The scanner makes `l` out of its own literal when `next` follows it. */
  predicate ScansAs(l: Lexeme, next: string) {
    |l.lit| > 0
    && var ch := l.lit[0];
       if IsWhitespace(ch) then l.tok == WS && Continues(l.lit, Blank) && StopsBefore(Blank, next)
       else if IsLetter(ch) then l.tok == Keyword(l.lit) && Continues(l.lit, Word) && StopsBefore(Word, next)
       else if IsDigit(ch) then l.tok == IDENT && Continues(l.lit, Number) && StopsBefore(Number, next)
       else ch != Eof && |l.lit| == 1 && l.tok == Punctuation(ch)
  }

  /** Each lexeme of `ls` scans as itself, given the next lexeme's literal, or `rest` after the last. */
  predicate Separated(ls: seq<Lexeme>, rest: string)
    decreases |ls|
  {
    ls == [] || (ScansAs(ls[0], if |ls| > 1 then ls[1].lit else rest) && Separated(ls[1..], rest))
  }

  /** Run ends do not depend on what precedes the run. */
  lemma {:induction false} RunEndShift(a: string, b: string, i: nat, run: Run)
    requires i <= |b|
    ensures RunEnd(a + b, |a| + i, run) == |a| + RunEnd(b, i, run)
    decreases |b| - i
  {
    if i < |b| {
      assert (a + b)[|a| + i] == b[i];
      RunEndShift(a, b, i + 1, run);
    }
  }

  /** Scanning at `p` in `b` behind any prefix `a` finds the same lexeme, and resumes at the same place. */
  lemma NextShift(a: string, b: string, p: nat)
    requires p <= |b|
    ensures Next(a + b, |a| + p) == Scanned(Next(b, p).lexeme, |a| + Next(b, p).end)
  {
    if p < |b| {
      var ch := b[p];
      if IsWhitespace(ch) {
        BlankShift(a, b, p);
      } else if IsLetter(ch) {
        WordShift(a, b, p);
      } else if IsDigit(ch) {
        NumberShift(a, b, p);
      } else {
        assert (a + b)[|a| + p] == ch;
      }
    }
  }

  /** `NextShift` for a lexeme of whitespace. */
  lemma BlankShift(a: string, b: string, p: nat)
    requires p < |b| && IsWhitespace(b[p])
    ensures Next(a + b, |a| + p) == Scanned(Next(b, p).lexeme, |a| + Next(b, p).end)
  {
    assert (a + b)[|a| + p] == b[p];
    RunShift(a, b, p, Blank);
  }

  /** `NextShift` for a word. */
  lemma WordShift(a: string, b: string, p: nat)
    requires p < |b| && IsLetter(b[p])
    ensures Next(a + b, |a| + p) == Scanned(Next(b, p).lexeme, |a| + Next(b, p).end)
  {
    assert (a + b)[|a| + p] == b[p];
    RunShift(a, b, p, Word);
  }

  /** `NextShift` for a number. */
  lemma NumberShift(a: string, b: string, p: nat)
    requires p < |b| && IsDigit(b[p])
    ensures Next(a + b, |a| + p) == Scanned(Next(b, p).lexeme, |a| + Next(b, p).end)
  {
    assert (a + b)[|a| + p] == b[p];
    RunShift(a, b, p, Number);
  }

  /** A run that starts at `p` in `b` has the same text and the same resume point behind any prefix `a`. */
  lemma RunShift(a: string, b: string, p: nat, run: Run)
    requires p < |b|
    ensures var j := RunEnd(b, p + 1, run);
            RunEnd(a + b, |a| + p + 1, run) == |a| + j
            && (a + b)[|a| + p..|a| + j] == b[p..j]
            && Resume(a + b, |a| + j) == |a| + Resume(b, j)
  {
    RunEndShift(a, b, p + 1, run);
    var j := RunEnd(b, p + 1, run);
    assert (a + b)[|a| + p..|a| + j] == b[p..j];
    assert j < |b| ==> (a + b)[|a| + j] == b[j];
  }

  /** Scanning the tail `b` of `a + b` gives the lexemes of `b` alone. */
  lemma {:induction false} LexemesShift(a: string, b: string, p: nat)
    requires p <= |b|
    ensures LexemesFrom(a + b, |a| + p) == LexemesFrom(b, p)
    decreases |b| - p
  {
    if p < |b| {
      NextShift(a, b, p);
      LexemesShift(a, b, Next(b, p).end);
    }
  }

  /** A lexeme that scans as itself, followed by any text: it is scanned first, then the text on its own. */
  lemma LexemeThenRest(l: Lexeme, rest: string)
    requires ScansAs(l, rest)
    ensures Lexemes(l.lit + rest) == [l] + Lexemes(rest)
  {
    var input := l.lit + rest;
    var n := |l.lit|;
    assert input[0] == l.lit[0];
    var ch := l.lit[0];
    if IsWhitespace(ch) || IsLetter(ch) || IsDigit(ch) {
      var run := if IsWhitespace(ch) then Blank else if IsLetter(ch) then Word else Number;
      assert forall k | 1 <= k < n :: input[k] == l.lit[k] && InRun(run, l.lit[k]);
      assert n < |input| ==> input[n] == rest[0];
      assert RunEnd(input, 1, run) == n;
      assert input[0..n] == l.lit;
    }
    assert Next(input, 0) == Scanned(l, n);
    LexemesShift(l.lit, rest, 0);
  }

  /** Whether a lexeme scans as itself depends only on the first character after it. */
  lemma ScansAsSameStart(l: Lexeme, next: string, next': string)
    requires ScansAs(l, next) && |next| > 0 && |next'| > 0 && next'[0] == next[0]
    ensures ScansAs(l, next')
  {
  }

  /** The first lexeme of a separated run scans as itself before the spelling of the rest. */
  lemma SeparatedFront(ls: seq<Lexeme>, rest: string)
    requires Separated(ls, rest) && ls != []
    ensures ScansAs(ls[0], Spelling(ls[1..]) + rest) && Separated(ls[1..], rest)
  {
    if |ls| > 1 {
      assert ls[1..][0] == ls[1] && |ls[1].lit| > 0;
      assert Spelling(ls[1..]) == ls[1].lit + Spelling(ls[1..][1..]);
      ScansAsSameStart(ls[0], ls[1].lit, Spelling(ls[1..]) + rest);
    }
  }

  /** The spelling of a non-empty run starts with its first literal. */
  lemma SpellingFront(ls: seq<Lexeme>, rest: string)
    requires ls != []
    ensures Spelling(ls) + rest == ls[0].lit + (Spelling(ls[1..]) + rest)
  {
  }

  /** Two separated runs make one when the first stops before the second's first literal. */
  lemma {:induction false} SeparatedAppend(ls: seq<Lexeme>, ms: seq<Lexeme>, rest: string)
    requires ms != [] && Separated(ls, ms[0].lit) && Separated(ms, rest)
    ensures Separated(ls + ms, rest)
    decreases |ls|
  {
    if ls == [] {
      assert ls + ms == ms;
    } else {
      assert (ls + ms)[0] == ls[0] && (ls + ms)[1..] == ls[1..] + ms;
      assert (ls + ms)[1] == if |ls| > 1 then ls[1] else ms[0];
      SeparatedAppend(ls[1..], ms, rest);
    }
  }

  /** The spelling of two runs is the spelling of the first followed by the spelling of the second. */
  lemma {:induction false} SpellingAppend(ls: seq<Lexeme>, ms: seq<Lexeme>)
    ensures Spelling(ls + ms) == Spelling(ls) + Spelling(ms)
    decreases |ls|
  {
    if ls == [] {
      assert ls + ms == ms;
    } else {
      assert (ls + ms)[1..] == ls[1..] + ms;
      SpellingAppend(ls[1..], ms);
    }
  }

  /**
   * The converse of `LexemesSpellInput`: lexemes that each scan as themselves, written
   * one after the other, scan back to exactly those lexemes.
   */
  lemma {:induction false} SpellingScans(ls: seq<Lexeme>, rest: string)
    requires Separated(ls, rest)
    ensures Lexemes(Spelling(ls) + rest) == ls + Lexemes(rest)
    decreases |ls|
  {
    if ls != [] {
      var tail := Spelling(ls[1..]) + rest;
      SeparatedFront(ls, rest);
      LexemeThenRest(ls[0], tail);
      SpellingScans(ls[1..], rest);
      SpellingFront(ls, rest);
      assert ls == [ls[0]] + ls[1..];
    } else {
      assert Spelling(ls) + rest == rest;
    }
  }
}
