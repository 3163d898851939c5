/**
 * The recursive-descent parser (parser.go): a `Parser` owns a scanner and a one-slot
 * pushback buffer, and `Parse` reads the three clauses of a statement, failing on the
 * first token that does not fit.
 *
 * The labelled blocks of the source's `Parse` (its declaration loop, the TYPE and FIELD
 * labels, the condition loop and the time range) are separate methods here. Each method
 * is proved to return, and to leave the parser in, exactly what the function of the same
 * part in module `Grammar` describes.
 */
module Parsing {
  import opened Tokens
  import opened Lexer
  import opened Grammar
  import LexerFacts
  import GrammarFacts

  class Parser {
    const sc: Scanner
    /** The buffer: last token read, its literal, and how many tokens are pushed back (0 or 1). */
    var bufTok: Token
    var bufLit: string
    var bufN: nat
    /** The token stream of the scanner's input. */
    ghost const tokens: seq<Lexeme>
    /** How many tokens have been taken from the scanner. */
    ghost var pulled: nat

    /** The abstract parser state that the functions of `Grammar` work on. */
    ghost function Snap(): PState
      reads this
    {
      PState(pulled, Lexeme(bufTok, bufLit), bufN)
    }

    ghost predicate Valid()
      reads this, sc
    {
      sc.Valid() && tokens == Lexemes(sc.input) && pulled <= |tokens|
      && sc.pos == PosAfter(sc.input, 0, pulled)
      && Synced(tokens, Snap())
    }

    constructor (input: string)
      ensures Valid() && fresh(sc) && sc.input == input && Snap() == Initial
    {
      sc := new Scanner(input);
      tokens := Lexemes(input);
      bufTok, bufLit, bufN := ILLEGAL, "", 0;
      pulled := 0;
    }

    /** Returns the pushed-back token if there is one; otherwise reads a token from the scanner and records it. */
    method Scan() returns (tok: Token, lit: string)
      requires Valid()
      modifies this, sc
      ensures Valid()
      ensures (Lexeme(tok, lit), Snap()) == PScan(tokens, old(Snap()))
      ensures old(bufN) != 0 ==> sc.pos == old(sc.pos)
    {
      if bufN != 0 {
        bufN := 0;
        return bufTok, bufLit;
      }
      tok, lit := Pull();
    }

    /** The empty-buffer half of `Scan`: the next token of the stream, or EOF once it is exhausted. */
    method Pull() returns (tok: Token, lit: string)
      requires Valid() && bufN == 0
      modifies this, sc
      ensures Valid()
      ensures (Lexeme(tok, lit), Snap()) == PScan(tokens, old(Snap()))
    {
      ghost var k := pulled;
      ghost var next := Next(sc.input, sc.pos);
      if k < |tokens| {
        PosAfterStep(sc.input, 0, k);
        assert tokens[k] == next.lexeme;
        assert PosAfter(sc.input, 0, k + 1) == next.end;
      } else {
        PosAfterAll(sc.input, 0);
        assert next == Scanned(Lexeme(EOF, ""), |sc.input|);
      }
      tok, lit := sc.Scan();
      assert Lexeme(tok, lit) == next.lexeme && sc.pos == next.end;
      bufTok, bufLit := tok, lit;
      if k < |tokens| {
        pulled := k + 1;
      }
    }

    /** Pushes the last token read back onto the buffer. */
    method Unscan()
      requires Valid()
      modifies this
      ensures Valid() && Snap() == PUnscan(old(Snap()))
    {
      bufN := 1;
    }

    /** Scans, skipping one whitespace token; on NUL-free input the result is never whitespace. */
    method ScanIgnoreWhitespace() returns (tok: Token, lit: string)
      requires Valid()
      modifies this, sc
      ensures Valid()
      ensures (Lexeme(tok, lit), Snap()) == PSkip(tokens, old(Snap()))
      ensures LexerFacts.NulFree(sc.input) ==> tok != WS
    {
      ghost var s0 := Snap();
      tok, lit := Scan();
      if tok == WS {
        tok, lit := Scan();
      }
      if LexerFacts.NulFree(sc.input) {
        LexerFacts.NoAdjacentWhitespace(sc.input, 0);
        GrammarFacts.SkipNeverWhitespace(tokens, s0);
      }
    }

    // ------------------------------------------------------------ declarations

    /** The TYPE block: reads the type name of a declaration. */
    method ParseTypeName(indexName: string) returns (r: Outcome<(string, string)>)
      requires Valid()
      modifies this, sc
      ensures Valid() && (r, Snap()) == TypeName(tokens, old(Snap()), indexName)
    {
      var tok, lit := ScanIgnoreWhitespace();
      if tok != IDENT {
        Unscan();
        return Fail(Unexpected(lit, "type name"));
      }
      return Ok((indexName, lit));
    }

    /** The rest of a hyphenated index name, after its first hyphen; stops before the first other token. */
    method ParseIndexNameChain(name: string) returns (indexName: string)
      requires Valid()
      modifies this, sc
      ensures Valid() && (indexName, Snap()) == DeclChain(tokens, old(Snap()), name)
    {
      indexName := name;
      while true
        invariant Valid()
        invariant DeclChain(tokens, Snap(), indexName) == DeclChain(tokens, old(Snap()), name)
        decreases Measure(tokens, Snap())
      {
        var tok, lit := ScanIgnoreWhitespace();
        if tok != IDENT && tok != MIDEND {
          Unscan();
          break;
        }
        if tok == MIDEND {
          indexName := indexName + "-";
        }
        if tok == IDENT {
          indexName := indexName + lit;
        }
        indexName := indexName + lit;
      }
    }

    /** One declaration `name'type`, where a name may be a hyphenated chain. */
    method ParseDeclaration() returns (r: Outcome<(string, string)>)
      requires Valid()
      modifies this, sc
      ensures Valid() && (r, Snap()) == DeclItem(tokens, old(Snap()))
    {
      var indexName := "";
      var tok, lit := ScanIgnoreWhitespace();
      if tok != IDENT && tok != ParRight && tok != MIDEND {
        Unscan();
        return Fail(Unexpected(lit, "Index name or )"));
      }
      indexName := indexName + lit;
      assert indexName == lit;
      tok, lit := ScanIgnoreWhitespace();
      if tok != OWN && tok != MIDEND {
        Unscan();
        return Fail(Unexpected(lit, "- or '"));
      }
      if tok == MIDEND {
        indexName := indexName + "-";
        indexName := ParseIndexNameChain(indexName);
        tok, lit := ScanIgnoreWhitespace();
        if tok != OWN {
          Unscan();
          return Fail(Unexpected(lit, "end symbol '"));
        }
      }
      r := ParseTypeName(indexName);
    }

    /** `(` then declarations separated by `,` up to `)`, collected into one map. */
    method ParseDeclarations() returns (r: Outcome<map<string, string>>)
      requires Valid()
      modifies this, sc
      ensures Valid() && (r, Snap()) == Declarations(tokens, old(Snap()))
      ensures r.Ok? ==> |r.value| > 0
    {
      GrammarFacts.DeclarationsBind(tokens, old(Snap()));
      var tok, lit := ScanIgnoreWhitespace();
      if tok != ParLeft {
        Unscan();
        return Fail(Unexpected(lit, "index_name"));
      }
      var indexToType: map<string, string> := map[];
      ghost var s0 := Snap();
      while true
        invariant Valid()
        invariant DeclItems(tokens, Snap(), indexToType) == DeclItems(tokens, s0, map[])
        decreases Measure(tokens, Snap())
      {
        var item := ParseDeclaration();
        if item.Fail? {
          return Fail(item.failure);
        }
        var (indexName, tpe) := item.value;
        indexToType := indexToType[indexName := tpe];
        // the separator's literal is not kept: an error reports the type name
        var sep, sepLit := ScanIgnoreWhitespace();
        if sep != COMMA && sep != ParRight {
          Unscan();
          return Fail(Unexpected(tpe, ", or )"));
        }
        if sep == ParRight {
          return Ok(indexToType);
        }
      }
    }

    // ------------------------------------------------------------ conditions

    /** A number after GT, GTE, LT or LTE. */
    method ParseNumber() returns (r: Outcome<Value>)
      requires Valid()
      modifies this, sc
      ensures Valid() && (r, Snap()) == NumberValue(tokens, old(Snap()))
    {
      var tok, lit := ScanIgnoreWhitespace();
      if tok != IDENT {
        Unscan();
        return Fail(Unexpected(lit, "int value"));
      }
      if !IsFloatLiteral(lit) {
        return Fail(Panicked(lit));
      }
      return Ok(Float64(lit));
    }

    /** A quoted string after PF or SF. */
    method ParsePrefixValue() returns (r: Outcome<Value>)
      requires Valid()
      modifies this, sc
      ensures Valid() && (r, Snap()) == PrefixValue(tokens, old(Snap()))
    {
      var tok, lit := ScanIgnoreWhitespace();
      if tok != STR {
        Unscan();
        return Fail(Unexpected(lit, "string value prefix"));
      }
      var text, textLit := Scan();
      if text != IDENT {
        Unscan();
        return Fail(Unexpected(textLit, "string value"));
      }
      var close, closeLit := ScanIgnoreWhitespace();
      if close != STR {
        Unscan();
        return Fail(Unexpected(closeLit, "string value end"));
      }
      return Ok(Text(textLit));
    }

    /** A quoted string or a number after EQ. */
    method ParseEqValue() returns (r: Outcome<Value>)
      requires Valid()
      modifies this, sc
      ensures Valid() && (r, Snap()) == EqValue(tokens, old(Snap()))
    {
      var tok, lit := ScanIgnoreWhitespace();
      if tok != STR && tok != IDENT {
        return Fail(Unexpected(lit, "eq value"));
      }
      if tok == STR {
        var text, textLit := Scan();
        if text != IDENT {
          Unscan();
          return Fail(Unexpected(textLit, "string value"));
        }
        var close, closeLit := ScanIgnoreWhitespace();
        if close != STR {
          return Fail(Unexpected(closeLit, "string value end"));
        }
        return Ok(Text(textLit));
      }
      if !IsFloatLiteral(lit) {
        return Fail(Panicked(lit));
      }
      return Ok(Float64(lit));
    }

    /** A quoted string or a number after NEQ. */
    method ParseNeqValue() returns (r: Outcome<Value>)
      requires Valid()
      modifies this, sc
      ensures Valid() && (r, Snap()) == NeqValue(tokens, old(Snap()))
    {
      var tok, lit := ScanIgnoreWhitespace();
      if tok != STR && tok != IDENT {
        return Fail(Unexpected(lit, "neq value."));
      }
      if tok == STR {
        var text, textLit := Scan();
        if text != IDENT {
          return Fail(Unexpected(textLit, "neq string value"));
        }
        var close, closeLit := ScanIgnoreWhitespace();
        if close != STR {
          return Fail(Unexpected(closeLit, "neq string value end"));
        }
        return Ok(Text(textLit));
      }
      if !IsFloatLiteral(lit) {
        return Fail(Unexpected(lit, "value: type int"));
      }
      return Ok(Float64(lit));
    }

    /** The switch on the comparator: each case reads the value in its own shape. */
    method ParseValue(cmp: Token) returns (r: Outcome<Value>)
      requires Valid() && IsComparator(cmp)
      modifies this, sc
      ensures Valid() && (r, Snap()) == CondValue(tokens, old(Snap()), cmp)
    {
      if cmp == GT || cmp == GTE || cmp == LT || cmp == LTE {
        r := ParseNumber();
      } else if cmp == PF || cmp == SF {
        r := ParsePrefixValue();
      } else if cmp == EQ {
        r := ParseEqValue();
      } else {
        r := ParseNeqValue();
      }
    }

    /** The FIELD block: field name right after the quote, comparator, value. */
    method ParseField(conditionIndexName: string) returns (r: Outcome<(string, Operation)>)
      requires Valid()
      modifies this, sc
      ensures Valid() && (r, Snap()) == Field(tokens, old(Snap()), conditionIndexName)
    {
      var tok, lit := Scan();
      if tok != IDENT {
        Unscan();
        return Fail(Unexpected(lit, ""));
      }
      var fieldName := lit;
      var opt, optLit := ScanIgnoreWhitespace();
      if !IsComparator(opt) {
        Unscan();
        return Fail(Unexpected(optLit, "Opt: GT or LT or PF ..."));
      }
      var v := ParseValue(opt);
      if v.Fail? {
        return Fail(v.failure);
      }
      return Ok((conditionIndexName, Operation(fieldName, OptName(opt), v.value)));
    }

    /** The rest of a hyphenated index reference, after its first hyphen; stops before the first other token. */
    method ParseReferenceChain(name: string) returns (conditionIndexName: string)
      requires Valid()
      modifies this, sc
      ensures Valid() && (conditionIndexName, Snap()) == CondChain(tokens, old(Snap()), name)
    {
      conditionIndexName := name;
      while true
        invariant Valid()
        invariant CondChain(tokens, Snap(), conditionIndexName) == CondChain(tokens, old(Snap()), name)
        decreases Measure(tokens, Snap())
      {
        var tok, lit := ScanIgnoreWhitespace();
        if tok != MIDEND && tok != IDENT {
          Unscan();
          break;
        }
        if tok == MIDEND {
          conditionIndexName := conditionIndexName + "-";
        }
        if tok == IDENT {
          conditionIndexName := conditionIndexName + lit;
        }
      }
    }

    /** One condition `ref'field OP value`, where a reference may be a hyphenated chain. */
    method ParseCondition() returns (r: Outcome<(string, Operation)>)
      requires Valid()
      modifies this, sc
      ensures Valid() && (r, Snap()) == Condition(tokens, old(Snap()))
    {
      var conditionIndexName := "";
      var tok, lit := ScanIgnoreWhitespace();
      conditionIndexName := conditionIndexName + lit;
      assert conditionIndexName == lit;
      if tok != IDENT && tok != MParRight {
        Unscan();
        return Fail(Unexpected(lit, "]"));
      }
      tok, lit := ScanIgnoreWhitespace();
      if tok != MIDEND && tok != OWN {
        Unscan();
        return Fail(Unexpected(lit, "type declare - or Point"));
      }
      if tok == MIDEND {
        conditionIndexName := conditionIndexName + "-";
        conditionIndexName := ParseReferenceChain(conditionIndexName);
        tok, lit := ScanIgnoreWhitespace();
        if tok != OWN {
          Unscan();
          return Fail(Unexpected(lit, "end symbol"));
        }
      }
      r := ParseField(conditionIndexName);
    }

    /** `: CONDITION [` then conditions separated by `,` up to `]`. */
    method ParseConditions() returns (r: Outcome<seq<map<string, Operation>>>)
      requires Valid()
      modifies this, sc
      ensures Valid() && (r, Snap()) == Conditions(tokens, old(Snap()))
      ensures r.Ok? ==> GrammarFacts.ExtendsWithEntries([], r.value)
    {
      GrammarFacts.ConditionsShape(tokens, old(Snap()));
      var tok, lit := ScanIgnoreWhitespace();
      if tok != IS {
        Unscan();
        return Fail(Unexpected(lit, ": "));
      }
      tok, lit := ScanIgnoreWhitespace();
      if tok != CONDITION {
        Unscan();
        return Fail(Unexpected(lit, "CONDITION"));
      }
      tok, lit := ScanIgnoreWhitespace();
      if tok != MParLeft {
        Unscan();
        return Fail(Unexpected(lit, "["));
      }
      r := ParseConditionList();
    }

    /** The conditions after `[`: each one appends a single-entry map, and `]` appends an empty one. */
    method ParseConditionList() returns (r: Outcome<seq<map<string, Operation>>>)
      requires Valid()
      modifies this, sc
      ensures Valid() && (r, Snap()) == CondItems(tokens, old(Snap()), [])
    {
      var indexToFieldSet: seq<map<string, Operation>> := [];
      var indexToFieldMap: map<string, Operation> := map[];
      ghost var s0 := Snap();
      while true
        invariant Valid()
        invariant CondItems(tokens, Snap(), indexToFieldSet) == CondItems(tokens, s0, [])
        decreases Measure(tokens, Snap())
      {
        var c := ParseCondition();
        if c.Fail? {
          return Fail(c.failure);
        }
        var (conditionIndexName, op) := c.value;
        var i2o := map[conditionIndexName := op];
        indexToFieldSet := indexToFieldSet + [i2o];
        var tok, lit := ScanIgnoreWhitespace();
        if tok != COMMA && tok != MParRight {
          Unscan();
          return Fail(Unexpected(lit, ""));
        }
        if tok == MParRight {
          indexToFieldSet := indexToFieldSet + [indexToFieldMap];
          return Ok(indexToFieldSet);
        }
      }
    }

    // ------------------------------------------------------------ time range

    /** The begin time `b1:b2`; whatever token follows the ':' is taken as b2. */
    method ParseTimeBegin() returns (r: Outcome<string>)
      requires Valid()
      modifies this, sc
      ensures Valid() && (r, Snap()) == TimeBegin(tokens, old(Snap()))
    {
      var timeBegin := "";
      var tok, lit := ScanIgnoreWhitespace();
      if tok != IDENT {
        Unscan();
        return Fail(Unexpected(lit, "time value"));
      }
      timeBegin := timeBegin + lit;
      assert timeBegin == lit;
      ghost var first := lit;
      tok, lit := ScanIgnoreWhitespace();
      if tok != IS {
        Unscan();
        return Fail(Unexpected(lit, "."));
      }
      timeBegin := timeBegin + ":";
      tok, lit := ScanIgnoreWhitespace();
      timeBegin := timeBegin + lit;
      assert timeBegin == first + ":" + lit;
      return Ok(timeBegin);
    }

    /** The end time `- e1:e2`. */
    method ParseTimeEnd() returns (r: Outcome<string>)
      requires Valid()
      modifies this, sc
      ensures Valid() && (r, Snap()) == TimeEnd(tokens, old(Snap()))
    {
      var tok, lit := ScanIgnoreWhitespace();
      if tok != MIDEND {
        Unscan();
        return Fail(Unexpected(lit, "- "));
      }
      r := ParseEndStamp();
    }

    /** The `e1:e2` of the end time. */
    method ParseEndStamp() returns (r: Outcome<string>)
      requires Valid()
      modifies this, sc
      ensures Valid() && (r, Snap()) == EndStamp(tokens, old(Snap()))
    {
      var timeEnd := "";
      var tok, lit := ScanIgnoreWhitespace();
      if tok != IDENT {
        Unscan();
        return Fail(Unexpected(lit, "time value"));
      }
      timeEnd := timeEnd + lit;
      assert timeEnd == lit;
      ghost var first := lit;
      tok, lit := ScanIgnoreWhitespace();
      if tok != IS {
        Unscan();
        return Fail(Unexpected(lit, ":"));
      }
      timeEnd := timeEnd + ":";
      tok, lit := ScanIgnoreWhitespace();
      if tok != IDENT {
        Unscan();
        return Fail(Unexpected(lit, "time value"));
      }
      timeEnd := timeEnd + lit;
      assert timeEnd == first + ":" + lit;
      return Ok(timeEnd);
    }

    /** `AT [ b1:b2 - e1:e2 ]`, giving the begin and end strings. */
    method ParseTimeRange() returns (r: Outcome<(string, string)>)
      requires Valid()
      modifies this, sc
      ensures Valid() && (r, Snap()) == TimeRange(tokens, old(Snap()))
    {
      var tok, lit := ScanIgnoreWhitespace();
      if tok != AT {
        Unscan();
        return Fail(Unexpected(lit, "AT"));
      }
      tok, lit := ScanIgnoreWhitespace();
      if tok != MParLeft {
        Unscan();
        return Fail(Unexpected(lit, "["));
      }
      var timeBegin := ParseTimeBegin();
      if timeBegin.Fail? {
        return Fail(timeBegin.failure);
      }
      var timeEnd := ParseTimeEnd();
      if timeEnd.Fail? {
        return Fail(timeEnd.failure);
      }
      tok, lit := ScanIgnoreWhitespace();
      if tok != MParRight {
        Unscan();
        return Fail(Unexpected(lit, "]"));
      }
      return Ok((timeBegin.value, timeEnd.value));
    }

    // ------------------------------------------------------------ the statement

    /** Parses one statement: LOOK, declarations, conditions and time range; TOTAL returns an empty statement. */
    method Parse() returns (r: Outcome<SelectStatement>)
      requires Valid()
      modifies this, sc
      ensures Valid() && (r, Snap()) == ParseFrom(tokens, old(Snap()))
      ensures r.Ok? ==> IsLookStatement(r.value) || PSkip(tokens, old(Snap())).0.tok == TOTAL
      // a LOOK statement ends at its closing bracket: no token after it has been read
      ensures r.Ok? && PSkip(tokens, old(Snap())).0.tok == LOOK ==> bufTok == MParRight && bufN == 0
    {
      var tok, lit := ScanIgnoreWhitespace();
      if tok != LOOK && tok != TOTAL {
        Unscan();
        return Fail(Unexpected(lit, "LOOK or TOTAL"));
      }
      if tok == TOTAL {
        return Ok(EmptyStatement);
      }
      var indexToType := ParseDeclarations();
      if indexToType.Fail? {
        return Fail(indexToType.failure);
      }
      var conditions := ParseConditions();
      if conditions.Fail? {
        return Fail(conditions.failure);
      }
      var times := ParseTimeRange();
      if times.Fail? {
        return Fail(times.failure);
      }
      GrammarFacts.LookStatementOf(indexToType.value, conditions.value, times.value.0, times.value.1);
      r := Ok(SelectStatement([indexToType.value], conditions.value, times.value.0, times.value.1));
    }
  }

  /** A fresh parser over `input` and one call of `Parse`. */
  method ParseText(input: string) returns (r: Outcome<SelectStatement>)
    ensures r == ParseQuery(input)
    ensures r.Ok? ==> IsLookStatement(r.value)
  {
    var p := new Parser(input);
    GrammarFacts.FirstTokenNotTotal(input);
    r := p.Parse();
  }
}
