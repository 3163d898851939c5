/**
 * The scanner of the query language (scanner.go).
 *
 * The character stream is a `string` with a read position. The pure function `Next`
 * says which lexeme is scanned at a position and where scanning resumes; the class
 * `Scanner` is the imperative scanner, whose `Scan` is proved to agree with `Next`.
 */
module Lexer {
  import opened Tokens

  /** The marker the reader returns at end of input; a NUL character in the input reads the same. */
  const Eof: char := 0 as char

  predicate IsWhitespace(ch: char) { ch == ' ' || ch == '\t' || ch == '\n' }

  predicate IsLetter(ch: char) { ('a' <= ch <= 'z') || ('A' <= ch <= 'Z') }

  predicate IsDigit(ch: char) { '0' <= ch <= '9' }

  /** The three kinds of multi-character run the scanner consumes. */
  datatype Run = Blank | Word | Number

  /** The characters that continue a run of each kind. */
  predicate InRun(run: Run, ch: char) {
    match run
    case Blank => IsWhitespace(ch)
    case Word => IsLetter(ch) || IsDigit(ch) || ch == '_'
    case Number => IsDigit(ch) || ch == '.'
  }

  /** The end of the maximal run of `run` characters that starts at `i`. */
  function RunEnd(input: string, i: nat, run: Run): (j: nat)
    requires i <= |input|
    ensures i <= j <= |input|
    ensures forall k | i <= k < j :: InRun(run, input[k])
    ensures j == |input| || !InRun(run, input[j])
    decreases |input| - i
  {
    if i == |input| || !InRun(run, input[i]) then i else RunEnd(input, i + 1, run)
  }

  /**
   * Where scanning resumes after a run that ended at `j`: the run loops stop on the
   * end-of-input marker without pushing it back, so a NUL that ends a run is consumed.
   */
  function Resume(input: string, j: nat): nat
    requires j <= |input|
  {
    if j < |input| && input[j] == Eof then j + 1 else j
  }

  /** The single-character tokens; any other character is ILLEGAL. */
  function Punctuation(ch: char): Token {
    if ch == '(' then ParLeft
    else if ch == ')' then ParRight
    else if ch == ',' then COMMA
    else if ch == '\'' then OWN
    else if ch == ':' then IS
    else if ch == '{' then BParLeft
    else if ch == '}' then BParRight
    else if ch == '[' then MParLeft
    else if ch == ']' then MParRight
    else if ch == '.' then Point
    else if ch == '"' then STR
    else if ch == '-' then MIDEND
    else if ch == '>' then PointRight
    else ILLEGAL
  }

  function UpperChar(ch: char): (u: char)
    ensures !('a' <= u <= 'z')
    ensures u == ch || ('a' <= ch <= 'z' && u as int == ch as int - 32)
  {
    if 'a' <= ch <= 'z' then (ch as int - 32) as char else ch
  }

  /** Upper-casing of the ASCII words the scanner builds. */
  function ToUpper(s: string): string {
    seq(|s|, i requires 0 <= i < |s| => UpperChar(s[i]))
  }

  /**
   * The keyword table, keyed by upper-cased spelling. The TOTAL entry is spelt
   * "TOTAl" as in the source, so no upper-cased word can ever match it.
   */
  const Keywords: map<string, Token> := map[
    "LOOK" := LOOK, "TOTAl" := TOTAL, "CONDITION" := CONDITION, "AT" := AT,
    "EQ" := EQ, "NEQ" := NEQ, "PF" := PF, "SF" := SF,
    "LT" := LT, "GT" := GT, "GTE" := GTE, "LTE" := LTE]

  /** The kind of a letter-initial word: its keyword when its upper-cased text is in the table, IDENT otherwise. */
  function Keyword(word: string): (t: Token)
    ensures t == IDENT || IsKeyword(t)
    ensures t != TOTAL
  {
    var u := ToUpper(word);
    if u in Keywords then
      assert |u| == 5 ==> u[4] == UpperChar(word[4]);
      Keywords[u]
    else IDENT
  }

  /** One step of scanning: the lexeme found at `pos` and the position scanning resumes from. */
  datatype Scanned = Scanned(lexeme: Lexeme, end: nat)

  /** `len` characters from `pos` form a maximal non-empty run of `run` characters. */
  ghost predicate Munched(input: string, pos: nat, len: nat, run: Run) {
    1 <= len && pos + len <= |input|
    && (forall k | pos <= k < pos + len :: InRun(run, input[k]))
    && (pos + len == |input| || !InRun(run, input[pos + len]))
  }

  /** The lexeme that `Scan` returns when the reader is at `pos`. */
  function Next(input: string, pos: nat): (r: Scanned)
    requires pos <= |input|
    ensures pos <= r.end <= |input|
    // progress: every call before the end of input consumes at least one character
    ensures pos < |input| ==> pos < r.end
    ensures pos == |input| ==> r == Scanned(Lexeme(EOF, ""), pos)
  {
    if pos == |input| then Scanned(Lexeme(EOF, ""), pos)
    else
      var ch := input[pos];
      if IsWhitespace(ch) then
        var j := RunEnd(input, pos + 1, Blank);
        Scanned(Lexeme(WS, input[pos..j]), Resume(input, j))
      else if IsLetter(ch) then
        var j := RunEnd(input, pos + 1, Word);
        Scanned(Lexeme(Keyword(input[pos..j]), input[pos..j]), Resume(input, j))
      else if IsDigit(ch) then
        var j := RunEnd(input, pos + 1, Number);
        Scanned(Lexeme(IDENT, input[pos..j]), Resume(input, j))
      else if ch == Eof then Scanned(Lexeme(EOF, ""), pos + 1)
      else Scanned(Lexeme(Punctuation(ch), [ch]), pos + 1)
  }

  /** `Next` gives EOF exactly at the end of input or at a NUL, with an empty literal, stepping over the NUL. */
  lemma NextFindsEof(input: string, pos: nat, r: Scanned)
    requires pos <= |input| && r == Next(input, pos)
    ensures r.lexeme.tok == EOF <==> pos == |input| || input[pos] == Eof
    ensures r.lexeme.tok == EOF ==> r.lexeme.lit == "" && r.end == Resume(input, pos)
  {
  }

  /**
   * Any other lexeme's literal is exactly the text consumed, except that a NUL ending a
   * run is consumed and dropped.
   */
  lemma NextConsumes(input: string, pos: nat, r: Scanned)
    requires pos <= |input| && r == Next(input, pos)
    ensures r.lexeme.tok != EOF ==>
              pos + |r.lexeme.lit| <= |input| && r.lexeme.lit == input[pos..pos + |r.lexeme.lit|]
              && (r.end == pos + |r.lexeme.lit|
                  || (r.end == pos + |r.lexeme.lit| + 1 && input[pos + |r.lexeme.lit|] == Eof))
  {
    if pos < |input| && input[pos] != Eof {
      var ch := input[pos];
      if IsWhitespace(ch) || IsLetter(ch) || IsDigit(ch) {
        var run := if IsWhitespace(ch) then Blank else if IsLetter(ch) then Word else Number;
        var j := RunEnd(input, pos + 1, run);
        assert r.lexeme.lit == input[pos..j] && r.end == Resume(input, j);
      }
    }
  }

  /** The kind `Next` gives is fixed by the first character, with maximal munch for the three runs. */
  lemma NextClassifies(input: string, pos: nat, r: Scanned)
    requires pos <= |input| && r == Next(input, pos)
    ensures r.lexeme.tok == WS <==> pos < |input| && IsWhitespace(input[pos])
    ensures r.lexeme.tok == WS ==> Munched(input, pos, |r.lexeme.lit|, Blank)
    ensures pos < |input| && IsLetter(input[pos]) ==>
              (r.lexeme.tok == IDENT || IsKeyword(r.lexeme.tok)) && Munched(input, pos, |r.lexeme.lit|, Word)
    // a word's kind is what the keyword table gives for its literal
    ensures pos < |input| && IsLetter(input[pos]) ==> r.lexeme.tok == Keyword(r.lexeme.lit)
    ensures pos < |input| && IsDigit(input[pos]) ==>
              r.lexeme.tok == IDENT && Munched(input, pos, |r.lexeme.lit|, Number)
    ensures pos < |input| && !IsWhitespace(input[pos]) && !IsLetter(input[pos]) && !IsDigit(input[pos])
              && input[pos] != Eof ==>
              r.lexeme == Lexeme(Punctuation(input[pos]), [input[pos]])
  {
  }

  /** Every lexeme scanned from `pos` until the reader reaches the end of the input. */
  function LexemesFrom(input: string, pos: nat): seq<Lexeme>
    requires pos <= |input|
    decreases |input| - pos
  {
    if pos == |input| then []
    else
      var r := Next(input, pos);
      [r.lexeme] + LexemesFrom(input, r.end)
  }

  /** The token stream of a whole input; after it the scanner yields EOF forever. */
  function Lexemes(input: string): seq<Lexeme> {
    LexemesFrom(input, 0)
  }

  /** The reader position after `k` calls of `Scan` starting at `pos`. */
  function PosAfter(input: string, pos: nat, k: nat): (p: nat)
    requires pos <= |input|
    ensures pos <= p <= |input|
    decreases k
  {
    if k == 0 || pos == |input| then pos else PosAfter(input, Next(input, pos).end, k - 1)
  }

  /** The `k`-th lexeme of the stream is what `Scan` returns after `k` earlier calls. */
  lemma {:induction false} PosAfterStep(input: string, pos: nat, k: nat)
    requires pos <= |input|
    requires k < |LexemesFrom(input, pos)|
    ensures PosAfter(input, pos, k) < |input|
    ensures LexemesFrom(input, pos)[k] == Next(input, PosAfter(input, pos, k)).lexeme
    ensures PosAfter(input, pos, k + 1) == Next(input, PosAfter(input, pos, k)).end
    decreases k
  {
    var r := Next(input, pos);
    var ls := LexemesFrom(input, pos);
    assert pos < |input|;
    assert ls == [r.lexeme] + LexemesFrom(input, r.end);
    if k > 0 {
      PosAfterStep(input, r.end, k - 1);
      assert ls[k] == LexemesFrom(input, r.end)[k - 1];
      assert PosAfter(input, pos, k) == PosAfter(input, r.end, k - 1);
      assert PosAfter(input, pos, k + 1) == PosAfter(input, r.end, k);
    } else {
      assert PosAfter(input, r.end, 0) == r.end;
    }
  }

  /** Once the whole stream has been scanned the reader is at the end of the input. */
  lemma {:induction false} PosAfterAll(input: string, pos: nat)
    requires pos <= |input|
    ensures PosAfter(input, pos, |LexemesFrom(input, pos)|) == |input|
    decreases |input| - pos
  {
    if pos < |input| {
      PosAfterAll(input, Next(input, pos).end);
    }
  }

  /** The imperative scanner: a reader over `input` that can step back one character. */
  class Scanner {
    const input: string
    var pos: nat
    /** Whether the last operation was a successful read, the only state in which unreading moves back. */
    var canUnread: bool

    ghost predicate Valid()
      reads this
    {
      pos <= |input| && (canUnread ==> 0 < pos)
    }

    constructor (input: string)
      ensures Valid() && this.input == input && pos == 0 && !canUnread
    {
      this.input := input;
      pos := 0;
      canUnread := false;
    }

    /** Reads the next character, or returns the end-of-input marker without moving. */
    method Read() returns (ch: char)
      requires Valid()
      modifies this
      ensures Valid()
      ensures old(pos) < |input| ==> ch == input[old(pos)] && pos == old(pos) + 1 && canUnread
      ensures old(pos) == |input| ==> ch == Eof && pos == old(pos) && !canUnread
    {
      if pos < |input| {
        ch := input[pos];
        pos := pos + 1;
        canUnread := true;
      } else {
        ch := Eof;
        canUnread := false;
      }
    }

    /** Steps back over the character just read; does nothing unless the last operation was a successful read. */
    method Unread()
      requires Valid()
      modifies this
      ensures Valid() && !canUnread
      ensures pos == if old(canUnread) then old(pos) - 1 else old(pos)
    {
      if canUnread {
        pos := pos - 1;
      }
      canUnread := false;
    }

    /** Reads the character at the reader and every following `run` character; the loop shared by the three run scanners. */
    method ReadRun(run: Run) returns (lit: string)
      requires Valid() && pos < |input|
      modifies this
      ensures Valid()
      ensures var j := RunEnd(input, old(pos) + 1, run);
              lit == input[old(pos)..j] && pos == Resume(input, j)
    {
      ghost var start := pos;
      var ch := Read();
      lit := [ch];
      while true
        invariant Valid() && start < pos <= |input|
        invariant lit == input[start..pos]
        invariant RunEnd(input, pos, run) == RunEnd(input, start + 1, run)
        decreases |input| - pos
      {
        ghost var before := pos;
        ch := Read();
        if ch == Eof {
          assert RunEnd(input, before, run) == before;
          break;
        } else if !InRun(run, ch) {
          Unread();
          break;
        } else {
          lit := lit + [ch];
        }
      }
    }

    /** Consumes a run of whitespace. */
    method ScanWhitespace() returns (tok: Token, lit: string)
      requires Valid() && pos < |input| && IsWhitespace(input[pos])
      modifies this
      ensures Valid() && Scanned(Lexeme(tok, lit), pos) == Next(input, old(pos))
    {
      lit := ReadRun(Blank);
      tok := WS;
    }

    /** Consumes a run of digits and dots; it is returned as an identifier. */
    method ScanInteger() returns (tok: Token, lit: string)
      requires Valid() && pos < |input| && IsDigit(input[pos])
      modifies this
      ensures Valid() && Scanned(Lexeme(tok, lit), pos) == Next(input, old(pos))
    {
      lit := ReadRun(Number);
      tok := IDENT;
    }

    /** Consumes a run of letters, digits and underscores and looks it up in the keyword table. */
    method ScanIdent() returns (tok: Token, lit: string)
      requires Valid() && pos < |input| && IsLetter(input[pos])
      modifies this
      ensures Valid() && Scanned(Lexeme(tok, lit), pos) == Next(input, old(pos))
    {
      lit := ReadRun(Word);
      tok := Keyword(lit);
    }

    /** Returns the next token and its literal. */
    method Scan() returns (tok: Token, lit: string)
      requires Valid()
      modifies this
      ensures Valid() && Scanned(Lexeme(tok, lit), pos) == Next(input, old(pos))
    {
      var ch := Read();
      if IsWhitespace(ch) {
        Unread();
        tok, lit := ScanWhitespace();
      } else if IsLetter(ch) {
        Unread();
        tok, lit := ScanIdent();
      } else if IsDigit(ch) {
        Unread();
        tok, lit := ScanInteger();
      } else if ch == Eof {
        tok, lit := EOF, "";
      } else {
        tok, lit := Punctuation(ch), [ch];
      }
    }
  }
}
