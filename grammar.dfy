/**
 * The statement produced by the parser (parser.go) and a functional description of
 * how `Parse` reads the token stream.
 *
 * The parser pulls tokens one at a time and keeps the last one in a one-slot buffer so
 * that it can push it back. `PState` is that state: how many tokens have been pulled
 * from the scanner, the buffered token and the buffer size. Each function below
 * describes one part of `Parse` as a function from the token stream and the state
 * before it to an outcome and the state after it; the methods of `Parsing.Parser` are
 * proved to compute exactly these.
 */
module Grammar {
  import opened Tokens
  import Lexer

  // ---------------------------------------------------------------- the statement

  /** A condition value, tagged with its type; a number is kept as the literal that parsed as float64. */
  datatype Value = Float64(lit: string) | Text(text: string)

  /** The `ValueType` string the source stores next to a value. */
  function ValueType(v: Value): string {
    if v.Float64? then "Float64" else "string"
  }

  datatype Operation = Operation(fieldName: string, opt: string, value: Value)

  datatype SelectStatement = SelectStatement(
    indexToTypeSet: seq<map<string, string>>,
    indexToFieldSet: seq<map<string, Operation>>,
    timeBegin: string,
    timeEnd: string)

  /** The statement returned on the TOTAL path, which is a stub. */
  const EmptyStatement := SelectStatement([], [], "", "")

  /** Why a parse stopped: an unexpected token, or a number conversion that panics. */
  datatype Failure = Unexpected(found: string, expected: string) | Panicked(lit: string)

  datatype Outcome<T> = Ok(value: T) | Fail(failure: Failure)

  /** The `Opt` string stored for a comparator keyword. */
  function OptName(t: Token): string
    requires IsComparator(t)
  {
    match t
    case EQ => "EQ"
    case NEQ => "NEQ"
    case PF => "PF"
    case SF => "SF"
    case LT => "LT"
    case GT => "GT"
    case GTE => "GTE"
    case LTE => "LTE"
  }

  // ---------------------------------------------------------------- float syntax

  function LowerChar(ch: char): char {
    if 'A' <= ch <= 'Z' then (ch as int + 32) as char else ch
  }

  function ToLower(s: string): string {
    seq(|s|, i requires 0 <= i < |s| => LowerChar(s[i]))
  }

  /** The end of the run of decimal digits starting at `i`. */
  function DigitsEnd(s: string, i: nat): (j: nat)
    requires i <= |s|
    ensures i <= j <= |s|
    ensures forall k | i <= k < j :: Lexer.IsDigit(s[k])
    ensures j == |s| || !Lexer.IsDigit(s[j])
    decreases |s| - i
  {
    if i == |s| || !Lexer.IsDigit(s[i]) then i else DigitsEnd(s, i + 1)
  }

  /** Decimal mantissa with at least one digit and at most one dot, then an optional exponent. */
  predicate IsDecimal(b: string) {
    var a := DigitsEnd(b, 0);
    var c := if a < |b| && b[a] == '.' then DigitsEnd(b, a + 1) else a;
    var digits := a + (if c > a then c - a - 1 else 0);
    0 < digits
    && (c == |b|
        || ((b[c] == 'e' || b[c] == 'E')
            && var e := if c + 1 < |b| && (b[c + 1] == '+' || b[c + 1] == '-') then c + 2 else c + 1;
               e < |b| && DigitsEnd(b, e) == |b|))
  }

  /**
   * The decimal and special forms that float64 conversion accepts: an optional sign,
   * then a decimal number, "inf" or "infinity" in any case; or an unsigned "nan".
   */
  predicate IsFloatLiteral(s: string) {
    var body := if 0 < |s| && (s[0] == '+' || s[0] == '-') then s[1..] else s;
    ToLower(body) == "inf" || ToLower(body) == "infinity" || ToLower(s) == "nan" || IsDecimal(body)
  }

  /** The value shape each comparator admits: a number for GT/GTE/LT/LTE, a string for PF/SF, either for EQ/NEQ. */
  predicate Fits(opt: string, v: Value) {
    (opt in {"GT", "GTE", "LT", "LTE"} ==> v.Float64?)
    && (opt in {"PF", "SF"} ==> v.Text?)
    && (v.Float64? ==> IsFloatLiteral(v.lit))
  }

  // ---------------------------------------------------------------- the token buffer

  /** Parser state: tokens pulled from the scanner so far, the buffered token, and the buffer size (0 or 1). */
  datatype PState = PState(k: nat, buf: Lexeme, n: nat)

  /** A fresh parser: nothing pulled, a zero-valued buffer. */
  const Initial := PState(0, Lexeme(ILLEGAL, ""), 0)

  /** A decreasing measure: twice the tokens left to pull, plus one for a pushed-back token other than EOF. */
  function Measure(ts: seq<Lexeme>, s: PState): nat {
    2 * (if s.k < |ts| then |ts| - s.k else 0) + (if s.n != 0 && s.buf.tok != EOF then 1 else 0)
  }

  /** A buffered whitespace token is the last token pulled from the stream. */
  ghost predicate Synced(ts: seq<Lexeme>, s: PState) {
    s.buf.tok == WS ==> 0 < s.k <= |ts| && ts[s.k - 1] == s.buf
  }

  /** `scan`: the pushed-back token if there is one, else the next token of the stream (EOF past its end), recorded in the buffer. */
  function PScan(ts: seq<Lexeme>, s: PState): (r: (Lexeme, PState))
    // the token returned stays in the buffer, and nothing is left pushed back
    ensures r.1.n == 0 && r.1.buf == r.0
    // a pushed-back token is returned without reading from the scanner
    ensures s.n != 0 ==> r.0 == s.buf && r.1.k == s.k
    // otherwise exactly one token is pulled, or EOF once the stream is exhausted
    ensures s.n == 0 && s.k < |ts| ==> r.0 == ts[s.k] && r.1.k == s.k + 1
    ensures s.n == 0 && |ts| <= s.k ==> r.0 == Lexeme(EOF, "") && r.1.k == s.k
  {
    if s.n != 0 then (s.buf, s.(n := 0))
    else if s.k < |ts| then (ts[s.k], PState(s.k + 1, ts[s.k], 0))
    else (Lexeme(EOF, ""), PState(s.k, Lexeme(EOF, ""), 0))
  }

  /** `unscan`: mark the buffered token for re-delivery. */
  function PUnscan(s: PState): (r: PState)
    ensures r.n == 1 && r.buf == s.buf && r.k == s.k
  {
    s.(n := 1)
  }

  /** `scanIgnoreWhitespace`: scan, and scan once more if that gave whitespace. */
  function PSkip(ts: seq<Lexeme>, s: PState): (r: (Lexeme, PState))
    ensures r.1.n == 0 && r.1.buf == r.0
    ensures Measure(ts, r.1) <= Measure(ts, s)
    ensures r.0.tok != EOF ==> Measure(ts, r.1) < Measure(ts, s)
    ensures Measure(ts, PUnscan(r.1)) <= Measure(ts, s)
  {
    var (t, s1) := PScan(ts, s);
    if t.tok == WS then PScan(ts, s1) else (t, s1)
  }

  // ---------------------------------------------------------------- index/type declarations

  /** parser.go:125-141: the rest of a hyphenated declaration name; each later identifier or hyphen is appended twice. */
  function DeclChain(ts: seq<Lexeme>, s: PState, name: string): (r: (string, PState))
    ensures Measure(ts, r.1) <= Measure(ts, s)
    decreases Measure(ts, s)
  {
    var (t, s1) := PSkip(ts, s);
    if t.tok != IDENT && t.tok != MIDEND then (name, PUnscan(s1))
    else
      var name1 := (if t.tok == MIDEND then name + "-" else name + t.lit) + t.lit;
      DeclChain(ts, s1, name1)
  }

  /** parser.go:153-162 (label TYPE): the type name of a declaration. */
  function TypeName(ts: seq<Lexeme>, s: PState, name: string): (r: (Outcome<(string, string)>, PState))
    ensures Measure(ts, r.1) <= Measure(ts, s)
    ensures r.0.Ok? <==> PSkip(ts, s).0.tok == IDENT
    ensures r.0.Ok? ==> r.0.value == (name, PSkip(ts, s).0.lit)
  {
    var (t, s1) := PSkip(ts, s);
    if t.tok != IDENT then (Fail(Unexpected(t.lit, "type name")), PUnscan(s1))
    else (Ok((name, t.lit)), s1)
  }

  /** parser.go:103-162: one `name'type` declaration. */
  function DeclItem(ts: seq<Lexeme>, s: PState): (r: (Outcome<(string, string)>, PState))
    ensures Measure(ts, r.1) <= Measure(ts, s)
  {
    var (t1, s1) := PSkip(ts, s);
    if t1.tok != IDENT && t1.tok != ParRight && t1.tok != MIDEND then
      (Fail(Unexpected(t1.lit, "Index name or )")), PUnscan(s1))
    else
      var (t2, s2) := PSkip(ts, s1);
      if t2.tok != OWN && t2.tok != MIDEND then (Fail(Unexpected(t2.lit, "- or '")), PUnscan(s2))
      else if t2.tok == MIDEND then
        var (name, s3) := DeclChain(ts, s2, t1.lit + "-");
        var (t3, s4) := PSkip(ts, s3);
        if t3.tok != OWN then (Fail(Unexpected(t3.lit, "end symbol '")), PUnscan(s4))
        else TypeName(ts, s4, name)
      else TypeName(ts, s2, t1.lit)
  }

  /** parser.go:102-174: declarations up to `)`, each setting `m[name] = type`. */
  function DeclItems(ts: seq<Lexeme>, s: PState, m: map<string, string>): (r: (Outcome<map<string, string>>, PState))
    ensures Measure(ts, r.1) <= Measure(ts, s)
    ensures r.0.Ok? ==> m.Keys <= r.0.value.Keys
    decreases Measure(ts, s)
  {
    var (item, s1) := DeclItem(ts, s);
    if item.Fail? then (Fail(item.failure), s1)
    else
      var (name, tpe) := item.value;
      var m1 := m[name := tpe];
      var (t, s2) := PSkip(ts, s1);
      // the error reports the type name: the found literal is not captured here
      if t.tok != COMMA && t.tok != ParRight then (Fail(Unexpected(tpe, ", or )")), PUnscan(s2))
      else if t.tok == ParRight then (Ok(m1), s2)
      else DeclItems(ts, s2, m1)
  }

  /** parser.go:96-174: `(` and the declarations. */
  function Declarations(ts: seq<Lexeme>, s: PState): (r: (Outcome<map<string, string>>, PState))
    ensures Measure(ts, r.1) <= Measure(ts, s)
  {
    var (t, s1) := PSkip(ts, s);
    if t.tok != ParLeft then (Fail(Unexpected(t.lit, "index_name")), PUnscan(s1))
    else DeclItems(ts, s1, map[])
  }

  // ---------------------------------------------------------------- conditions

  /** parser.go:226-241: the rest of a hyphenated index reference; one "-" per hyphen. */
  function CondChain(ts: seq<Lexeme>, s: PState, name: string): (r: (string, PState))
    ensures Measure(ts, r.1) <= Measure(ts, s)
    decreases Measure(ts, s)
  {
    var (t, s1) := PSkip(ts, s);
    if t.tok != MIDEND && t.tok != IDENT then (name, PUnscan(s1))
    else
      var name1 := if t.tok == MIDEND then name + "-" else name + t.lit;
      CondChain(ts, s1, name1)
  }

  /** parser.go:282-366 (GT, GTE, LT, LTE): an identifier that must convert to float64; a bad number panics. */
  function NumberValue(ts: seq<Lexeme>, s: PState): (r: (Outcome<Value>, PState))
    ensures Measure(ts, r.1) <= Measure(ts, s)
    ensures r.0.Ok? ==> r.0.value.Float64? && IsFloatLiteral(r.0.value.lit)
    // the value is the literal of the identifier read
    ensures r.0.Ok? ==> r.0.value == Float64(PSkip(ts, s).0.lit)
  {
    var (t, s1) := PSkip(ts, s);
    if t.tok != IDENT then (Fail(Unexpected(t.lit, "int value")), PUnscan(s1))
    else if !IsFloatLiteral(t.lit) then (Fail(Panicked(t.lit)), s1)
    else (Ok(Float64(t.lit)), s1)
  }

  /** parser.go:368-424 (PF, SF): a quote, an identifier read without skipping whitespace, a quote. */
  function PrefixValue(ts: seq<Lexeme>, s: PState): (r: (Outcome<Value>, PState))
    ensures Measure(ts, r.1) <= Measure(ts, s)
    // the text is the identifier between the quotes
    ensures r.0.Ok? ==> PSkip(ts, s).0.tok == STR && r.0.value == Text(PScan(ts, PSkip(ts, s).1).0.lit)
  {
    var (t, s1) := PSkip(ts, s);
    if t.tok != STR then (Fail(Unexpected(t.lit, "string value prefix")), PUnscan(s1))
    else
      var (t2, s2) := PScan(ts, s1);
      if t2.tok != IDENT then (Fail(Unexpected(t2.lit, "string value")), PUnscan(s2))
      else
        var (t3, s3) := PSkip(ts, s2);
        if t3.tok != STR then (Fail(Unexpected(t3.lit, "string value end")), PUnscan(s3))
        else (Ok(Text(t2.lit)), s3)
  }

  /** parser.go:425-468 (EQ): a quoted identifier, or an identifier that must convert to float64 (a bad number panics). */
  function EqValue(ts: seq<Lexeme>, s: PState): (r: (Outcome<Value>, PState))
    ensures Measure(ts, r.1) <= Measure(ts, s)
    ensures r.0.Ok? && r.0.value.Float64? ==> IsFloatLiteral(r.0.value.lit)
    // a number is the identifier read; a string is the identifier between the quotes
    ensures r.0.Ok? && r.0.value.Float64? ==> r.0.value.lit == PSkip(ts, s).0.lit
    ensures r.0.Ok? && r.0.value.Text? ==> PSkip(ts, s).0.tok == STR && r.0.value.text == PScan(ts, PSkip(ts, s).1).0.lit
  {
    var (t, s1) := PSkip(ts, s);
    if t.tok != STR && t.tok != IDENT then (Fail(Unexpected(t.lit, "eq value")), s1)
    else if t.tok == STR then
      var (t2, s2) := PScan(ts, s1);
      if t2.tok != IDENT then (Fail(Unexpected(t2.lit, "string value")), PUnscan(s2))
      else
        var (t3, s3) := PSkip(ts, s2);
        if t3.tok != STR then (Fail(Unexpected(t3.lit, "string value end")), s3)
        else (Ok(Text(t2.lit)), s3)
    else if !IsFloatLiteral(t.lit) then (Fail(Panicked(t.lit)), s1)
    else (Ok(Float64(t.lit)), s1)
  }

  /** parser.go:470-509 (NEQ): the shapes of EQ, but a bad number is an error, not a panic, and nothing is pushed back. */
  function NeqValue(ts: seq<Lexeme>, s: PState): (r: (Outcome<Value>, PState))
    ensures Measure(ts, r.1) <= Measure(ts, s)
    ensures r.0.Ok? && r.0.value.Float64? ==> IsFloatLiteral(r.0.value.lit)
    ensures r.0.Fail? ==> r.0.failure.Unexpected?
    ensures r.0.Ok? && r.0.value.Float64? ==> r.0.value.lit == PSkip(ts, s).0.lit
    ensures r.0.Ok? && r.0.value.Text? ==> PSkip(ts, s).0.tok == STR && r.0.value.text == PScan(ts, PSkip(ts, s).1).0.lit
  {
    var (t, s1) := PSkip(ts, s);
    if t.tok != STR && t.tok != IDENT then (Fail(Unexpected(t.lit, "neq value.")), s1)
    else if t.tok == STR then
      var (t2, s2) := PScan(ts, s1);
      if t2.tok != IDENT then (Fail(Unexpected(t2.lit, "neq string value")), s2)
      else
        var (t3, s3) := PSkip(ts, s2);
        if t3.tok != STR then (Fail(Unexpected(t3.lit, "neq string value end")), s3)
        else (Ok(Text(t2.lit)), s3)
    else if !IsFloatLiteral(t.lit) then (Fail(Unexpected(t.lit, "value: type int")), s1)
    else (Ok(Float64(t.lit)), s1)
  }

  /** parser.go:281-510: the value after comparator `cmp`, in the shape that comparator takes. */
  function CondValue(ts: seq<Lexeme>, s: PState, cmp: Token): (r: (Outcome<Value>, PState))
    requires IsComparator(cmp)
    ensures Measure(ts, r.1) <= Measure(ts, s)
  {
    if cmp == GT || cmp == GTE || cmp == LT || cmp == LTE then NumberValue(ts, s)
    else if cmp == PF || cmp == SF then PrefixValue(ts, s)
    else if cmp == EQ then EqValue(ts, s)
    else NeqValue(ts, s)
  }

  /** A value read after a comparator has the shape that comparator admits. */
  lemma ValueFitsComparator(ts: seq<Lexeme>, s: PState, cmp: Token)
    requires IsComparator(cmp)
    ensures CondValue(ts, s, cmp).0.Ok? ==> Fits(OptName(cmp), CondValue(ts, s, cmp).0.value)
  {
    var v := CondValue(ts, s, cmp).0;
    if v.Ok? {
      if cmp == GT || cmp == GTE || cmp == LT || cmp == LTE {
        assert v == NumberValue(ts, s).0;
      } else if cmp == PF || cmp == SF {
        assert v == PrefixValue(ts, s).0;
      } else if cmp == EQ {
        assert v == EqValue(ts, s).0;
      } else {
        assert v == NeqValue(ts, s).0;
      }
    }
  }

  /** parser.go:254-510 (label FIELD): field name (no whitespace allowed before it), comparator and value. */
  function Field(ts: seq<Lexeme>, s: PState, name: string): (r: (Outcome<(string, Operation)>, PState))
    ensures Measure(ts, r.1) <= Measure(ts, s)
    ensures r.0.Ok? ==> r.0.value.0 == name && Fits(r.0.value.1.opt, r.0.value.1.value)
    // the field name is the token right after the quote, and `Opt` names the comparator after it
    ensures r.0.Ok? ==> r.0.value.1.fieldName == PScan(ts, s).0.lit
    ensures r.0.Ok? ==> var c := PSkip(ts, PScan(ts, s).1).0.tok; IsComparator(c) && r.0.value.1.opt == OptName(c)
  {
    var (t1, s1) := PScan(ts, s);
    if t1.tok != IDENT then (Fail(Unexpected(t1.lit, "")), PUnscan(s1))
    else
      var (t2, s2) := PSkip(ts, s1);
      if !IsComparator(t2.tok) then (Fail(Unexpected(t2.lit, "Opt: GT or LT or PF ...")), PUnscan(s2))
      else
        ValueFitsComparator(ts, s2, t2.tok);
        var (v, s3) := CondValue(ts, s2, t2.tok);
        if v.Fail? then (Fail(v.failure), s3)
        else (Ok((name, Operation(t1.lit, OptName(t2.tok), v.value))), s3)
  }

  /** parser.go:204-510: one condition `ref'field OP value`, keyed by its index reference. */
  function Condition(ts: seq<Lexeme>, s: PState): (r: (Outcome<(string, Operation)>, PState))
    ensures Measure(ts, r.1) <= Measure(ts, s)
    ensures r.0.Ok? ==> Fits(r.0.value.1.opt, r.0.value.1.value)
    // the key is the index reference: the first literal alone before a quote, else the chain after the hyphen
    ensures r.0.Ok? ==>
              var p1 := PSkip(ts, s); var p2 := PSkip(ts, p1.1);
              (p1.0.tok == IDENT || p1.0.tok == MParRight)
              && (p2.0.tok == OWN ==> r.0.value.0 == p1.0.lit)
              && (p2.0.tok == MIDEND ==> r.0.value.0 == CondChain(ts, p2.1, p1.0.lit + "-").0)
  {
    var (t1, s1) := PSkip(ts, s);
    if t1.tok != IDENT && t1.tok != MParRight then (Fail(Unexpected(t1.lit, "]")), PUnscan(s1))
    else
      var (t2, s2) := PSkip(ts, s1);
      if t2.tok != MIDEND && t2.tok != OWN then (Fail(Unexpected(t2.lit, "type declare - or Point")), PUnscan(s2))
      else if t2.tok == MIDEND then
        var (name, s3) := CondChain(ts, s2, t1.lit + "-");
        var (t3, s4) := PSkip(ts, s3);
        if t3.tok != OWN then (Fail(Unexpected(t3.lit, "end symbol")), PUnscan(s4))
        else Field(ts, s4, name)
      else Field(ts, s2, t1.lit)
  }

  /** One element of the condition set: a single index reference mapped to an operation whose value fits its comparator. */
  predicate IsConditionEntry(m: map<string, Operation>) {
    |m| == 1 && forall ref | ref in m :: Fits(m[ref].opt, m[ref].value)
  }

  /** parser.go:203-524: conditions up to `]`; each adds one single-entry map, and `]` adds one empty map. */
  function CondItems(ts: seq<Lexeme>, s: PState, fs: seq<map<string, Operation>>)
    : (r: (Outcome<seq<map<string, Operation>>>, PState))
    ensures Measure(ts, r.1) <= Measure(ts, s)
    decreases Measure(ts, s)
  {
    var (c, s1) := Condition(ts, s);
    if c.Fail? then (Fail(c.failure), s1)
    else
      var (ref, op) := c.value;
      var fs1 := fs + [map[ref := op]];
      var (t, s2) := PSkip(ts, s1);
      if t.tok != COMMA && t.tok != MParRight then (Fail(Unexpected(t.lit, "")), PUnscan(s2))
      else if t.tok == MParRight then (Ok(fs1 + [map[]]), s2)
      else CondItems(ts, s2, fs1)
  }

  /** parser.go:180-524: `: CONDITION [` and the conditions. */
  function Conditions(ts: seq<Lexeme>, s: PState): (r: (Outcome<seq<map<string, Operation>>>, PState))
    ensures Measure(ts, r.1) <= Measure(ts, s)
  {
    var (t1, s1) := PSkip(ts, s);
    if t1.tok != IS then (Fail(Unexpected(t1.lit, ": ")), PUnscan(s1))
    else
      var (t2, s2) := PSkip(ts, s1);
      if t2.tok != CONDITION then (Fail(Unexpected(t2.lit, "CONDITION")), PUnscan(s2))
      else
        var (t3, s3) := PSkip(ts, s2);
        if t3.tok != MParLeft then (Fail(Unexpected(t3.lit, "[")), PUnscan(s3))
        else CondItems(ts, s3, [])
  }

  // ---------------------------------------------------------------- time range

  /** parser.go:540-565: the begin time `b1:b2`; the kind of b2 is not checked. */
  function TimeBegin(ts: seq<Lexeme>, s: PState): (r: (Outcome<string>, PState))
    ensures Measure(ts, r.1) <= Measure(ts, s)
    // `b1:b2` is accepted once b1 is an identifier and ':' follows it, and is joined back with ':'
    ensures var p1 := PSkip(ts, s); var p2 := PSkip(ts, p1.1);
            (r.0.Ok? <==> p1.0.tok == IDENT && p2.0.tok == IS)
            && (r.0.Ok? ==> r.0.value == p1.0.lit + ":" + PSkip(ts, p2.1).0.lit)
  {
    var (t1, s1) := PSkip(ts, s);
    if t1.tok != IDENT then (Fail(Unexpected(t1.lit, "time value")), PUnscan(s1)) else
    var (t2, s2) := PSkip(ts, s1);
    // the source's message names "." although ':' is what is checked
    if t2.tok != IS then (Fail(Unexpected(t2.lit, ".")), PUnscan(s2)) else
    var (t3, s3) := PSkip(ts, s2);
    (Ok(t1.lit + ":" + t3.lit), s3)
  }

  /** parser.go:573-595: `e1:e2` after the hyphen, both parts identifiers. */
  function EndStamp(ts: seq<Lexeme>, s: PState): (r: (Outcome<string>, PState))
    ensures Measure(ts, r.1) <= Measure(ts, s)
    // `e1:e2` with both parts identifiers, joined back with ':'
    ensures var p1 := PSkip(ts, s); var p2 := PSkip(ts, p1.1); var p3 := PSkip(ts, p2.1);
            (r.0.Ok? <==> p1.0.tok == IDENT && p2.0.tok == IS && p3.0.tok == IDENT)
            && (r.0.Ok? ==> r.0.value == p1.0.lit + ":" + p3.0.lit)
  {
    var (t1, s1) := PSkip(ts, s);
    if t1.tok != IDENT then (Fail(Unexpected(t1.lit, "time value")), PUnscan(s1)) else
    var (t2, s2) := PSkip(ts, s1);
    if t2.tok != IS then (Fail(Unexpected(t2.lit, ":")), PUnscan(s2)) else
    var (t3, s3) := PSkip(ts, s2);
    if t3.tok != IDENT then (Fail(Unexpected(t3.lit, "time value")), PUnscan(s3))
    else (Ok(t1.lit + ":" + t3.lit), s3)
  }

  /** parser.go:566-597: `- e1:e2`, the end time. */
  function TimeEnd(ts: seq<Lexeme>, s: PState): (r: (Outcome<string>, PState))
    ensures Measure(ts, r.1) <= Measure(ts, s)
    // the end time is the stamp after a hyphen
    ensures r.0.Ok? ==> PSkip(ts, s).0.tok == MIDEND && EndStamp(ts, PSkip(ts, s).1).0 == r.0
  {
    var (t, s1) := PSkip(ts, s);
    if t.tok != MIDEND then (Fail(Unexpected(t.lit, "- ")), PUnscan(s1))
    else EndStamp(ts, s1)
  }

  /** parser.go:526-604: `AT [ b1:b2 - e1:e2 ]`, giving the begin and end strings. */
  function TimeRange(ts: seq<Lexeme>, s: PState): (r: (Outcome<(string, string)>, PState))
    ensures Measure(ts, r.1) <= Measure(ts, s)
    // on success the last token read is the closing bracket, and nothing is pushed back
    ensures r.0.Ok? ==> r.1.n == 0 && r.1.buf.tok == MParRight
    // the begin time is read right after `AT [`, and the end time right after it
    ensures r.0.Ok? ==>
              var p2 := PSkip(ts, PSkip(ts, s).1); var b := TimeBegin(ts, p2.1);
              b.0 == Ok(r.0.value.0) && TimeEnd(ts, b.1).0 == Ok(r.0.value.1)
  {
    var (t1, s1) := PSkip(ts, s);
    if t1.tok != AT then (Fail(Unexpected(t1.lit, "AT")), PUnscan(s1)) else
    var (t2, s2) := PSkip(ts, s1);
    if t2.tok != MParLeft then (Fail(Unexpected(t2.lit, "[")), PUnscan(s2)) else
    var (begin, s3) := TimeBegin(ts, s2);
    if begin.Fail? then (Fail(begin.failure), s3) else
    var (end, s4) := TimeEnd(ts, s3);
    if end.Fail? then (Fail(end.failure), s4) else
    var (t5, s5) := PSkip(ts, s4);
    if t5.tok != MParRight then (Fail(Unexpected(t5.lit, "]")), PUnscan(s5))
    else (Ok((begin.value, end.value)), s5)
  }

  // ---------------------------------------------------------------- the statement

  /** A statement built by the LOOK path: one non-empty binding map, and conditions closed by one empty map. */
  predicate IsLookStatement(st: SelectStatement) {
    |st.indexToTypeSet| == 1 && |st.indexToTypeSet[0]| > 0
    && 2 <= |st.indexToFieldSet| && st.indexToFieldSet[|st.indexToFieldSet| - 1] == map[]
    && forall i | 0 <= i < |st.indexToFieldSet| - 1 :: IsConditionEntry(st.indexToFieldSet[i])
  }

  /** parser.go:82-633: the whole statement, failing on the first mismatch. */
  function ParseFrom(ts: seq<Lexeme>, s: PState): (r: (Outcome<SelectStatement>, PState))
    ensures Measure(ts, r.1) <= Measure(ts, s)
  {
    var (t, s1) := PSkip(ts, s);
    if t.tok != LOOK && t.tok != TOTAL then (Fail(Unexpected(t.lit, "LOOK or TOTAL")), PUnscan(s1))
    else if t.tok == TOTAL then (Ok(EmptyStatement), s1)
    else
      var (decls, s2) := Declarations(ts, s1);
      if decls.Fail? then (Fail(decls.failure), s2) else
      var (conds, s3) := Conditions(ts, s2);
      if conds.Fail? then (Fail(conds.failure), s3) else
      var (times, s4) := TimeRange(ts, s3);
      if times.Fail? then (Fail(times.failure), s4)
      else (Ok(SelectStatement([decls.value], conds.value, times.value.0, times.value.1)), s4)
  }

  /** What a fresh parser over `input` returns. */
  function ParseQuery(input: string): Outcome<SelectStatement> {
    ParseFrom(Lexer.Lexemes(input), Initial).0
  }
}
