/** Properties of the parser's functional description in `Grammar`. */
module GrammarFacts {
  import opened Tokens
  import opened Grammar
  import Lexer
  import LexerFacts

  // ---------------------------------------------------------------- the token buffer

  /** When whitespace tokens never come in pairs, skipping whitespace never yields whitespace. */
  lemma SkipNeverWhitespace(ts: seq<Lexeme>, s: PState)
    requires Synced(ts, s) && LexerFacts.NoAdjacentWs(ts)
    ensures PSkip(ts, s).0.tok != WS
  {
    var (t, s1) := PScan(ts, s);
    if t.tok == WS && s.n == 0 && s.k + 1 < |ts| {
      assert ts[s.k].tok == WS;
    }
  }

  /** A token pushed back is delivered again, and the state is as if it had not been pushed back. */
  lemma {:induction false} ScanAfterUnscan(ts: seq<Lexeme>, s: PState)
    ensures var (t, s1) := PScan(ts, s); PScan(ts, PUnscan(s1)) == (t, s1)
    ensures var (t, s1) := PSkip(ts, s); t.tok != WS ==> PSkip(ts, PUnscan(s1)) == (t, s1)
  {
    var (t, s1) := PScan(ts, s);
    assert PUnscan(s1).n != 0 && PUnscan(s1).buf == t;
  }

  /** With nothing pushed back, a token other than whitespace is read as it stands. */
  lemma SkipToken(ts: seq<Lexeme>, k: nat, b: Lexeme)
    requires k < |ts| && ts[k].tok != WS
    ensures PSkip(ts, PState(k, b, 0)) == (ts[k], PState(k + 1, ts[k], 0))
  {
  }

  /** With nothing pushed back, a whitespace token is stepped over and the token after it is read. */
  lemma SkipBlank(ts: seq<Lexeme>, k: nat, b: Lexeme)
    requires k + 1 < |ts| && ts[k].tok == WS
    ensures PSkip(ts, PState(k, b, 0)) == (ts[k + 1], PState(k + 2, ts[k + 1], 0))
  {
  }

  // ---------------------------------------------------------------- hyphenated names

  /** The literals of the identifier and hyphen tokens a name chain consumes, and the state after it. */
  ghost function ChainRun(ts: seq<Lexeme>, s: PState): (r: (seq<string>, PState))
    decreases Measure(ts, s)
  {
    var (t, s1) := PSkip(ts, s);
    if t.tok != MIDEND && t.tok != IDENT then ([], PUnscan(s1))
    else
      var (rest, s2) := ChainRun(ts, s1);
      ([t.lit] + rest, s2)
  }

  function Concat(ps: seq<string>): string {
    if ps == [] then "" else ps[0] + Concat(ps[1..])
  }

  /** The pieces concatenated, each written twice. */
  function ConcatTwice(ps: seq<string>): string {
    if ps == [] then "" else (ps[0] + ps[0]) + ConcatTwice(ps[1..])
  }

  /** The buffered token and every token of the stream spell a hyphen as "-". */
  ghost predicate HyphensOk(ts: seq<Lexeme>, s: PState) {
    LexerFacts.HyphensSpelled(ts) && (s.buf.tok == MIDEND ==> s.buf.lit == "-")
  }

  lemma {:induction false} SkipKeepsHyphensOk(ts: seq<Lexeme>, s: PState)
    requires HyphensOk(ts, s)
    ensures HyphensOk(ts, PSkip(ts, s).1)
    ensures PSkip(ts, s).0.tok == MIDEND ==> PSkip(ts, s).0.lit == "-"
  {
    var (t, s1) := PScan(ts, s);
    assert t.tok == MIDEND ==> t.lit == "-";
    if t.tok == WS {
      var (t2, s2) := PScan(ts, s1);
      assert t2.tok == MIDEND ==> t2.lit == "-";
    }
  }

  /** One step of a chain run: stop at anything but an identifier or a hyphen, else record its literal. */
  lemma ChainStep(ts: seq<Lexeme>, s: PState)
    ensures var p := PSkip(ts, s);
            ChainRun(ts, s)
            == if p.0.tok != MIDEND && p.0.tok != IDENT then ([], PUnscan(p.1))
               else ([p.0.lit] + ChainRun(ts, p.1).0, ChainRun(ts, p.1).1)
  {
  }

  /** A chain step on a hyphen spelled "-" appends that literal to the reference name. */
  lemma CondChainStep(ts: seq<Lexeme>, s: PState, name: string)
    ensures var p := PSkip(ts, s);
            (p.0.tok == MIDEND || p.0.tok == IDENT) && (p.0.tok == MIDEND ==> p.0.lit == "-") ==>
            CondChain(ts, s, name) == CondChain(ts, p.1, name + p.0.lit)
  {
  }

  /** A chain step on a hyphen spelled "-" appends that literal twice to the declared name. */
  lemma DeclChainStep(ts: seq<Lexeme>, s: PState, name: string)
    ensures var p := PSkip(ts, s);
            (p.0.tok == MIDEND || p.0.tok == IDENT) && (p.0.tok == MIDEND ==> p.0.lit == "-") ==>
            DeclChain(ts, s, name) == DeclChain(ts, p.1, name + (p.0.lit + p.0.lit))
  {
    var p := PSkip(ts, s);
    if p.0.tok == MIDEND && p.0.lit == "-" {
      assert (name + "-") + p.0.lit == name + (p.0.lit + p.0.lit);
    } else if p.0.tok == IDENT {
      assert (name + p.0.lit) + p.0.lit == name + (p.0.lit + p.0.lit);
    }
  }

  lemma AppendTwice(name: string, x: string, ps: seq<string>)
    ensures (name + (x + x)) + ConcatTwice(ps) == name + ConcatTwice([x] + ps)
  {
    ConcatTwiceCons(x, ps);
  }

  lemma ConcatTwiceCons(x: string, ps: seq<string>)
    ensures ConcatTwice([x] + ps) == (x + x) + ConcatTwice(ps)
  {
    assert ([x] + ps)[1..] == ps;
  }

  lemma AppendOnce(name: string, x: string, ps: seq<string>)
    ensures (name + x) + Concat(ps) == name + Concat([x] + ps)
  {
    ConcatCons(x, ps);
  }

  lemma ConcatCons(x: string, ps: seq<string>)
    ensures Concat([x] + ps) == x + Concat(ps)
  {
    assert ([x] + ps)[1..] == ps;
  }

  /** In a condition reference, the chain after the first hyphen is spelled as written. */
  lemma {:induction false} CondChainSpells(ts: seq<Lexeme>, s: PState, name: string)
    requires HyphensOk(ts, s)
    ensures CondChain(ts, s, name).0 == name + Concat(ChainRun(ts, s).0)
    ensures CondChain(ts, s, name).1 == ChainRun(ts, s).1
    decreases Measure(ts, s)
  {
    var p := PSkip(ts, s);
    var t, s1 := p.0, p.1;
    SkipKeepsHyphensOk(ts, s);
    ChainStep(ts, s);
    if t.tok == MIDEND || t.tok == IDENT {
      CondChainStep(ts, s, name);
      CondChainSpells(ts, s1, name + t.lit);
      var c1 := ChainRun(ts, s1);
      assert ChainRun(ts, s) == ([t.lit] + c1.0, c1.1);
      assert CondChain(ts, s, name) == CondChain(ts, s1, name + t.lit);
      AppendOnce(name, t.lit, c1.0);
    } else {
      assert ChainRun(ts, s).0 == [] && name + Concat([]) == name;
    }
  }

  /** In a declaration name, every identifier and hyphen after the first hyphen is written twice. */
  lemma {:induction false} DeclChainDoubles(ts: seq<Lexeme>, s: PState, name: string)
    requires HyphensOk(ts, s)
    ensures DeclChain(ts, s, name).0 == name + ConcatTwice(ChainRun(ts, s).0)
    ensures DeclChain(ts, s, name).1 == ChainRun(ts, s).1
    decreases Measure(ts, s)
  {
    var p := PSkip(ts, s);
    var t, s1 := p.0, p.1;
    SkipKeepsHyphensOk(ts, s);
    ChainStep(ts, s);
    if t.tok == MIDEND || t.tok == IDENT {
      var twice := t.lit + t.lit;
      DeclChainStep(ts, s, name);
      DeclChainDoubles(ts, s1, name + twice);
      var c1 := ChainRun(ts, s1);
      assert ChainRun(ts, s) == ([t.lit] + c1.0, c1.1);
      assert DeclChain(ts, s, name) == DeclChain(ts, s1, name + twice);
      AppendTwice(name, t.lit, c1.0);
    } else {
      assert ChainRun(ts, s).0 == [] && name + ConcatTwice([]) == name;
    }
  }

  /** The tokens after `idx-` in `idx-11-22'`, with the first hyphen in the buffer. */
  const ChainTokens := [Lexeme(IDENT, "11"), Lexeme(MIDEND, "-"), Lexeme(IDENT, "22"), Lexeme(OWN, "'")]
  const ChainStart := PState(0, Lexeme(MIDEND, "-"), 0)

  /** As an index reference, `idx-11-22` is kept as written. */
  lemma ReferenceChainExample()
    ensures CondChain(ChainTokens, ChainStart, "idx-").0 == "idx-11-22"
  {
  }

  /** As a declared index name, `idx-11-22` becomes `idx-1111--2222`. */
  lemma DeclarationChainExample()
    ensures DeclChain(ChainTokens, ChainStart, "idx-").0 == "idx-1111--2222"
  {
  }

  // ---------------------------------------------------------------- values

  /** Only a number for GT/GTE/LT/LTE/EQ that float64 conversion rejects panics; NEQ reports such a number as an error. */
  lemma PanicsOnlyOnBadNumbers(ts: seq<Lexeme>, s: PState, cmp: Token)
    requires IsComparator(cmp)
    ensures var r := CondValue(ts, s, cmp).0;
            r.Fail? && r.failure.Panicked? <==>
              cmp != NEQ && cmp != PF && cmp != SF
              && PSkip(ts, s).0.tok == IDENT && !IsFloatLiteral(PSkip(ts, s).0.lit)
    ensures var r := CondValue(ts, s, cmp).0;
            r.Fail? && r.failure.Panicked? ==> r.failure.lit == PSkip(ts, s).0.lit
  {
    if cmp == GT || cmp == GTE || cmp == LT || cmp == LTE {
      assert CondValue(ts, s, cmp) == NumberValue(ts, s);
    } else if cmp == PF || cmp == SF {
      assert CondValue(ts, s, cmp) == PrefixValue(ts, s);
    } else if cmp == EQ {
      assert CondValue(ts, s, cmp) == EqValue(ts, s);
    } else {
      assert CondValue(ts, s, cmp) == NeqValue(ts, s);
    }
  }

  /**
   * What a value holds: a number is the literal of the identifier read after the
   * comparator, and a string is the identifier between the quotes.
   */
  lemma ValueLiterals(ts: seq<Lexeme>, s: PState, cmp: Token)
    requires IsComparator(cmp)
    ensures var r := CondValue(ts, s, cmp).0;
            r.Ok? && r.value.Float64? ==> r.value.lit == PSkip(ts, s).0.lit
    ensures var r := CondValue(ts, s, cmp).0;
            r.Ok? && r.value.Text? ==>
              PSkip(ts, s).0.tok == STR && r.value.text == PScan(ts, PSkip(ts, s).1).0.lit
  {
    if cmp == GT || cmp == GTE || cmp == LT || cmp == LTE {
      assert CondValue(ts, s, cmp) == NumberValue(ts, s);
    } else if cmp == PF || cmp == SF {
      assert CondValue(ts, s, cmp) == PrefixValue(ts, s);
    } else if cmp == EQ {
      assert CondValue(ts, s, cmp) == EqValue(ts, s);
    } else {
      assert CondValue(ts, s, cmp) == NeqValue(ts, s);
    }
  }

  // ---------------------------------------------------------------- names and keys

  /**
   * The name a declaration binds: the first literal alone when a quote follows it;
   * after a hyphen, the first literal, "-", and every later chained literal twice.
   */
  lemma DeclItemName(ts: seq<Lexeme>, s: PState)
    requires HyphensOk(ts, s)
    ensures var p1 := PSkip(ts, s); var p2 := PSkip(ts, p1.1); var r := DeclItem(ts, s).0;
            r.Ok? ==>
              r.value.0 == if p2.0.tok == OWN then p1.0.lit
                           else p1.0.lit + "-" + ConcatTwice(ChainRun(ts, p2.1).0)
  {
    var p1 := PSkip(ts, s);
    var p2 := PSkip(ts, p1.1);
    if p2.0.tok == MIDEND && DeclItem(ts, s).0.Ok? {
      SkipKeepsHyphensOk(ts, s);
      SkipKeepsHyphensOk(ts, p1.1);
      DeclChainDoubles(ts, p2.1, p1.0.lit + "-");
      var c := DeclChain(ts, p2.1, p1.0.lit + "-");
      assert DeclItem(ts, s) == TypeName(ts, PSkip(ts, c.1).1, c.0);
    }
  }

  /** The type a declaration binds is the identifier read right after its quote. */
  lemma DeclItemType(ts: seq<Lexeme>, s: PState)
    ensures var p1 := PSkip(ts, s); var p2 := PSkip(ts, p1.1); var r := DeclItem(ts, s).0;
            r.Ok? ==>
              var quote := if p2.0.tok == OWN then p2 else PSkip(ts, DeclChain(ts, p2.1, p1.0.lit + "-").1);
              quote.0.tok == OWN && PSkip(ts, quote.1).0.tok == IDENT && r.value.1 == PSkip(ts, quote.1).0.lit
  {
  }

  /**
   * The key of a condition: the first literal alone when a quote follows it; after a
   * hyphen, the reference as written, "-" and every later chained literal once.
   */
  lemma ConditionKey(ts: seq<Lexeme>, s: PState)
    requires HyphensOk(ts, s)
    ensures var p1 := PSkip(ts, s); var p2 := PSkip(ts, p1.1); var r := Condition(ts, s).0;
            r.Ok? ==>
              r.value.0 == if p2.0.tok == OWN then p1.0.lit
                           else p1.0.lit + "-" + Concat(ChainRun(ts, p2.1).0)
  {
    var p1 := PSkip(ts, s);
    SkipKeepsHyphensOk(ts, s);
    var p2 := PSkip(ts, p1.1);
    SkipKeepsHyphensOk(ts, p1.1);
    if p2.0.tok == MIDEND {
      CondChainSpells(ts, p2.1, p1.0.lit + "-");
    }
  }

  // ---------------------------------------------------------------- statement shape

  /** A declaration list that parses binds at least one index name. */
  lemma {:induction false} DeclItemsBind(ts: seq<Lexeme>, s: PState, m: map<string, string>)
    ensures DeclItems(ts, s, m).0.Ok? ==> |DeclItems(ts, s, m).0.value| > 0
    decreases Measure(ts, s)
  {
    var (item, s1) := DeclItem(ts, s);
    if item.Ok? {
      var (name, tpe) := item.value;
      var (t, s2) := PSkip(ts, s1);
      if t.tok == COMMA {
        var r := DeclItems(ts, s2, m[name := tpe]).0;
        if r.Ok? {
          assert name in r.value;
        }
      } else if t.tok == ParRight {
        assert name in m[name := tpe];
      }
    }
  }

  lemma DeclarationsBind(ts: seq<Lexeme>, s: PState)
    ensures Declarations(ts, s).0.Ok? ==> |Declarations(ts, s).0.value| > 0
  {
    DeclItemsBind(ts, PSkip(ts, s).1, map[]);
  }

  /** `out` extends `fs` with at least one condition entry and a closing empty map. */
  predicate ExtendsWithEntries(fs: seq<map<string, Operation>>, out: seq<map<string, Operation>>) {
    |fs| + 2 <= |out| && out[..|fs|] == fs
    && out[|out| - 1] == map[]
    && forall i | |fs| <= i < |out| - 1 :: IsConditionEntry(out[i])
  }

  lemma CloseEntries(fs: seq<map<string, Operation>>, e: map<string, Operation>)
    requires IsConditionEntry(e)
    ensures ExtendsWithEntries(fs, fs + [e] + [map[]])
  {
    var out := fs + [e] + [map[]];
    assert out[..|fs|] == fs;
    assert forall i | |fs| <= i < |out| - 1 :: out[i] == e;
  }

  lemma PrependEntry(fs: seq<map<string, Operation>>, e: map<string, Operation>, out: seq<map<string, Operation>>)
    requires IsConditionEntry(e) && ExtendsWithEntries(fs + [e], out)
    ensures ExtendsWithEntries(fs, out)
  {
    assert out[..|fs|] == out[..|fs + [e]|][..|fs|];
    assert out[|fs|] == (fs + [e])[|fs|] == e;
  }

  lemma SingleEntry(ref: string, op: Operation)
    requires Fits(op.opt, op.value)
    ensures IsConditionEntry(map[ref := op])
  {
    assert map[ref := op].Keys == {ref};
  }

  /** The condition loop keeps what it had, adds one single-entry map per condition, and ends with one empty map. */
  lemma {:induction false} CondItemsShape(ts: seq<Lexeme>, s: PState, fs: seq<map<string, Operation>>)
    ensures CondItems(ts, s, fs).0.Ok? ==> ExtendsWithEntries(fs, CondItems(ts, s, fs).0.value)
    decreases Measure(ts, s)
  {
    var (c, s1) := Condition(ts, s);
    if c.Ok? {
      var (ref, op) := c.value;
      SingleEntry(ref, op);
      var e := map[ref := op];
      var (t, s2) := PSkip(ts, s1);
      if t.tok == MParRight {
        CloseEntries(fs, e);
      } else if t.tok == COMMA {
        CondItemsShape(ts, s2, fs + [e]);
        var r := CondItems(ts, s2, fs + [e]).0;
        if r.Ok? {
          PrependEntry(fs, e, r.value);
        }
      }
    }
  }

  /** The condition clause yields at least one condition entry and a closing empty map. */
  lemma ConditionsShape(ts: seq<Lexeme>, s: PState)
    ensures Conditions(ts, s).0.Ok? ==> ExtendsWithEntries([], Conditions(ts, s).0.value)
  {
    var (t1, u1) := PSkip(ts, s);
    var (t2, u2) := PSkip(ts, u1);
    var (t3, u3) := PSkip(ts, u2);
    CondItemsShape(ts, u3, []);
  }

  /** A statement must open with LOOK or TOTAL: anything else is reported, and pushed back. */
  lemma FirstTokenDecides(ts: seq<Lexeme>, s: PState)
    ensures var t := PSkip(ts, s).0;
            t.tok != LOOK && t.tok != TOTAL ==> ParseFrom(ts, s) == (Fail(Unexpected(t.lit, "LOOK or TOTAL")), PUnscan(PSkip(ts, s).1))
    ensures ParseFrom(ts, s).0.Ok? ==> PSkip(ts, s).0.tok in {LOOK, TOTAL}
  {
  }

  /**
   * After a LOOK and its declarations, the condition clause must open with `:` and the
   * CONDITION keyword; anything else in place of the keyword is the unexpected token.
   */
  lemma MissingConditionKeyword(ts: seq<Lexeme>, s: PState)
    requires PSkip(ts, s).0.tok == LOOK
    requires Declarations(ts, PSkip(ts, s).1).0.Ok?
    requires var p := PSkip(ts, Declarations(ts, PSkip(ts, s).1).1); p.0.tok == IS && PSkip(ts, p.1).0.tok != CONDITION
    ensures var p := PSkip(ts, Declarations(ts, PSkip(ts, s).1).1);
            ParseFrom(ts, s).0 == Fail(Unexpected(PSkip(ts, p.1).0.lit, "CONDITION"))
  {
  }

  /** A binding map with at least one entry and a condition set built by the condition clause make a LOOK statement. */
  lemma LookStatementOf(bindings: map<string, string>, conditions: seq<map<string, Operation>>, begin: string, end: string)
    requires |bindings| > 0 && ExtendsWithEntries([], conditions)
    ensures IsLookStatement(SelectStatement([bindings], conditions, begin, end))
  {
  }

  /** TOTAL never reaches the parser: the first token a fresh parser reads is never TOTAL. */
  lemma FirstTokenNotTotal(input: string)
    ensures PSkip(Lexer.Lexemes(input), Initial).0.tok != TOTAL
  {
    var ts := Lexer.Lexemes(input);
    LexerFacts.NeverTotal(input, 0);
    var (t, s1) := PScan(ts, Initial);
    assert t.tok != TOTAL by {
      if 0 < |ts| { assert t == ts[0]; }
    }
    if t.tok == WS && 1 < |ts| {
      assert PSkip(ts, Initial).0 == ts[1];
    }
  }

  // ---------------------------------------------------------------- token-level examples

  /** `)` is accepted as an index name. */
  lemma ClosingParenIsAName()
    ensures DeclItem([Lexeme(ParRight, ")"), Lexeme(OWN, "'"), Lexeme(IDENT, "int")], Initial).0
            == Ok((")", "int"))
  {
  }

  /** `(` followed directly by `)` is not an empty declaration list: the `)` is read as a name. */
  lemma EmptyDeclarationsRejected()
    ensures Declarations([Lexeme(ParLeft, "("), Lexeme(ParRight, ")"), Lexeme(IS, ":")], Initial).0
            == Fail(Unexpected(":", "- or '"))
  {
    var ts := [Lexeme(ParLeft, "("), Lexeme(ParRight, ")"), Lexeme(IS, ":")];
    assert PSkip(ts, Initial) == (Lexeme(ParLeft, "("), PState(1, Lexeme(ParLeft, "("), 0));
    assert DeclItem(ts, PState(1, Lexeme(ParLeft, "("), 0)).0 == Fail(Unexpected(":", "- or '"));
  }

  /** A dot does not separate an index name from its type. */
  lemma DotIsNotASeparator()
    ensures DeclItem([Lexeme(IDENT, "idx"), Lexeme(Point, "."), Lexeme(IDENT, "int")], Initial).0
            == Fail(Unexpected(".", "- or '"))
  {
  }

  /** A bad separator after a declaration is reported with the type name, not with the token found. */
  lemma SeparatorErrorNamesType()
    ensures DeclItems([Lexeme(IDENT, "idx"), Lexeme(OWN, "'"), Lexeme(IDENT, "int"), Lexeme(IS, ":")],
                      Initial, map[]).0
            == Fail(Unexpected("int", ", or )"))
  {
    var ts := [Lexeme(IDENT, "idx"), Lexeme(OWN, "'"), Lexeme(IDENT, "int"), Lexeme(IS, ":")];
    assert DeclItem(ts, Initial) == (Ok(("idx", "int")), PState(3, Lexeme(IDENT, "int"), 0));
    assert PSkip(ts, PState(3, Lexeme(IDENT, "int"), 0)).0 == Lexeme(IS, ":");
  }

  /** A plain declaration `name'type` with no whitespace reads three tokens and binds the name to the type. */
  lemma PlainDeclaration(ts: seq<Lexeme>, k: nat, b: Lexeme)
    requires k + 3 <= |ts| && ts[k].tok == IDENT && ts[k + 1].tok == OWN && ts[k + 2].tok == IDENT
    ensures DeclItem(ts, PState(k, b, 0)) == (Ok((ts[k].lit, ts[k + 2].lit)), PState(k + 3, ts[k + 2], 0))
  {
    assert PSkip(ts, PState(k, b, 0)) == (ts[k], PState(k + 1, ts[k], 0));
    assert PSkip(ts, PState(k + 1, ts[k], 0)) == (ts[k + 1], PState(k + 2, ts[k + 1], 0));
  }

  /** One declaration followed by `,`: the rest of the list is read on top of its binding. */
  lemma DeclItemThenComma(ts: seq<Lexeme>, s: PState, m: map<string, string>, item: (string, string), s1: PState)
    requires DeclItem(ts, s).0 == Ok(item) && DeclItem(ts, s).1 == s1 && PSkip(ts, s1).0.tok == COMMA
    ensures DeclItems(ts, s, m) == DeclItems(ts, PSkip(ts, s1).1, m[item.0 := item.1])
  {
  }

  /** One declaration followed by `)`: the list ends with its binding, right after the `)`. */
  lemma DeclItemThenClose(ts: seq<Lexeme>, s: PState, m: map<string, string>, item: (string, string), s1: PState)
    requires DeclItem(ts, s).0 == Ok(item) && DeclItem(ts, s).1 == s1 && PSkip(ts, s1).0.tok == ParRight
    ensures DeclItems(ts, s, m) == (Ok(m[item.0 := item.1]), PSkip(ts, s1).1)
  {
  }

  /**
   * From `s` the declaration list reads the declarations `items` in order, each followed
   * by `,` except the last, which is followed by `)`; the list ends at `e`. Whitespace and
   * hyphenated names are whatever `DeclItem` makes of them.
   */
  ghost predicate ListsItems(ts: seq<Lexeme>, s: PState, items: seq<(string, string)>, e: PState)
    decreases |items|
  {
    |items| > 0
    && DeclItem(ts, s).0 == Ok(items[0])
    && var p := PSkip(ts, DeclItem(ts, s).1);
       if |items| == 1 then p.0.tok == ParRight && p.1 == e
       else p.0.tok == COMMA && ListsItems(ts, p.1, items[1..], e)
  }

  /** The bindings the declarations `items` make, from left to right on top of `m`. */
  ghost function Bind(m: map<string, string>, items: seq<(string, string)>): map<string, string>
    decreases |items|
  {
    if items == [] then m else Bind(m[items[0].0 := items[0].1], items[1..])
  }

  /** A declaration list parses to the bindings of its declarations, made in order, and stops right after its `)`. */
  lemma {:induction false} ItemsBind(ts: seq<Lexeme>, s: PState, items: seq<(string, string)>, e: PState, m: map<string, string>)
    requires ListsItems(ts, s, items, e)
    ensures DeclItems(ts, s, m) == (Ok(Bind(m, items)), e)
    decreases |items|
  {
    var s1 := DeclItem(ts, s).1;
    var m1 := m[items[0].0 := items[0].1];
    if |items| == 1 {
      DeclItemThenClose(ts, s, m, items[0], s1);
      assert Bind(m, items) == Bind(m1, []);
    } else {
      DeclItemThenComma(ts, s, m, items[0], s1);
      ItemsBind(ts, PSkip(ts, s1).1, items[1..], e, m1);
    }
  }

  /** A name no declaration of `items` declares keeps its binding in `m`, or stays unbound. */
  lemma {:induction false} UndeclaredNameKept(m: map<string, string>, items: seq<(string, string)>, name: string)
    requires forall j | 0 <= j < |items| :: items[j].0 != name
    ensures name in Bind(m, items) <==> name in m
    ensures name in m ==> Bind(m, items)[name] == m[name]
    decreases |items|
  {
    if items != [] {
      assert items[0].0 != name;
      UndeclaredNameKept(m[items[0].0 := items[0].1], items[1..], name);
    }
  }

  /** Every declared name is bound, to the type of its last declaration. */
  lemma {:induction false} LastDeclarationWins(m: map<string, string>, items: seq<(string, string)>, i: nat)
    requires i < |items| && forall j | i < j < |items| :: items[j].0 != items[i].0
    ensures items[i].0 in Bind(m, items) && Bind(m, items)[items[i].0] == items[i].1
    decreases |items|
  {
    var m1 := m[items[0].0 := items[0].1];
    if i == 0 {
      UndeclaredNameKept(m1, items[1..], items[0].0);
    } else {
      LastDeclarationWins(m1, items[1..], i - 1);
    }
  }

  /** `a'x, a'y)`, with a blank after the comma. */
  const DuplicateTokens := [
    Lexeme(IDENT, "a"), Lexeme(OWN, "'"), Lexeme(IDENT, "x"), Lexeme(COMMA, ","), Lexeme(WS, " "),
    Lexeme(IDENT, "a"), Lexeme(OWN, "'"), Lexeme(IDENT, "y"), Lexeme(ParRight, ")")]
  const AfterComma := PState(4, Lexeme(COMMA, ","), 0)
  const AfterDuplicates := PState(9, Lexeme(ParRight, ")"), 0)

  /** The declaration after the comma and the blank is read, up to its type `y`. */
  lemma SecondDuplicate()
    ensures DeclItem(DuplicateTokens, AfterComma) == (Ok(("a", "y")), PState(8, Lexeme(IDENT, "y"), 0))
  {
    var ts := DuplicateTokens;
    SkipBlank(ts, 4, ts[3]);
    PlainDeclaration(ts, 5, ts[4]);
  }

  /** After the comma, `a'y)` lists the one declaration `a'y`. */
  lemma SecondListed()
    ensures ListsItems(DuplicateTokens, AfterComma, [("a", "y")], AfterDuplicates)
  {
    SecondDuplicate();
    SkipToken(DuplicateTokens, 8, DuplicateTokens[7]);
  }

  /** `a'x, a'y)` lists the declarations `a'x` and `a'y`. */
  lemma DuplicatesListed()
    ensures ListsItems(DuplicateTokens, Initial, [("a", "x"), ("a", "y")], AfterDuplicates)
  {
    var ts := DuplicateTokens;
    PlainDeclaration(ts, 0, Initial.buf);
    SkipToken(ts, 3, ts[2]);
    SecondListed();
    assert [("a", "x"), ("a", "y")][1..] == [("a", "y")];
  }

  /** A later declaration of the same index name overwrites the earlier one: `a'x, a'y)` binds `a` to `y`. */
  lemma DuplicateNameOverwrites(m: map<string, string>)
    ensures DeclItems(DuplicateTokens, Initial, m) == (Ok(m["a" := "y"]), AfterDuplicates)
  {
    DuplicatesListed();
    ItemsBind(DuplicateTokens, Initial, [("a", "x"), ("a", "y")], AfterDuplicates, m);
    DeclaredTwice(m, "a", "x", "y");
  }

  /** Two declarations of one name bind it to the second type. */
  lemma DeclaredTwice(m: map<string, string>, name: string, first: string, second: string)
    ensures Bind(m, [(name, first), (name, second)]) == m[name := second]
  {
    var items := [(name, first), (name, second)];
    assert items[1..][1..] == [];
    assert Bind(m, items) == Bind(m[name := first][name := second], []);
    assert m[name := first][name := second] == m[name := second];
  }

  /** Right after `(` the declaration list is read, starting with no bindings. */
  lemma OpenDeclarations(ts: seq<Lexeme>, k: nat, b: Lexeme)
    requires k < |ts| && ts[k].tok == ParLeft
    ensures Declarations(ts, PState(k, b, 0)) == DeclItems(ts, PState(k + 1, ts[k], 0), map[])
  {
    assert PSkip(ts, PState(k, b, 0)) == (ts[k], PState(k + 1, ts[k], 0));
  }

  /** The field name must follow the quote directly: whitespace there is the unexpected token. */
  lemma FieldFollowsQuote()
    ensures Field([Lexeme(WS, " "), Lexeme(IDENT, "f")], Initial, "idx").0 == Fail(Unexpected(" ", ""))
  {
  }

  /** In a condition, a dot does not separate the index reference from the field. */
  lemma DotIsNotAFieldSeparator()
    ensures Condition([Lexeme(IDENT, "idx"), Lexeme(Point, "."), Lexeme(IDENT, "field")], Initial).0
            == Fail(Unexpected(".", "type declare - or Point"))
  {
  }

  // ---------------------------------------------------------------- statements read from their parts

  /** A field name, a comparator and a value the comparator accepts make an operation on that field. */
  lemma FieldReads(ts: seq<Lexeme>, s: PState, name: string, v: Value, s3: PState)
    requires PScan(ts, s).0.tok == IDENT
    requires var p := PSkip(ts, PScan(ts, s).1);
             IsComparator(p.0.tok) && CondValue(ts, p.1, p.0.tok).0 == Ok(v) && CondValue(ts, p.1, p.0.tok).1 == s3
    ensures var p := PSkip(ts, PScan(ts, s).1);
            Field(ts, s, name) == (Ok((name, Operation(PScan(ts, s).0.lit, OptName(p.0.tok), v))), s3)
  {
  }

  /** `ref'` hands the reference, as it stands, to the field that follows the quote. */
  lemma QuotedConditionReads(ts: seq<Lexeme>, s: PState)
    requires var p1 := PSkip(ts, s);
             (p1.0.tok == IDENT || p1.0.tok == MParRight) && PSkip(ts, p1.1).0.tok == OWN
    ensures var p1 := PSkip(ts, s);
            Condition(ts, s) == Field(ts, PSkip(ts, p1.1).1, p1.0.lit)
  {
  }

  /** A condition followed by `]` ends the list: its entry, then the closing empty map. */
  lemma LastConditionReads(ts: seq<Lexeme>, s: PState, fs: seq<map<string, Operation>>, entry: (string, Operation), s1: PState)
    requires Condition(ts, s).0 == Ok(entry) && Condition(ts, s).1 == s1 && PSkip(ts, s1).0.tok == MParRight
    ensures CondItems(ts, s, fs) == (Ok(fs + [map[entry.0 := entry.1]] + [map[]]), PSkip(ts, s1).1)
  {
  }

  /** A condition followed by `,` adds its entry and the list goes on. */
  lemma NextConditionReads(ts: seq<Lexeme>, s: PState, fs: seq<map<string, Operation>>, entry: (string, Operation), s1: PState)
    requires Condition(ts, s).0 == Ok(entry) && Condition(ts, s).1 == s1 && PSkip(ts, s1).0.tok == COMMA
    ensures CondItems(ts, s, fs) == CondItems(ts, PSkip(ts, s1).1, fs + [map[entry.0 := entry.1]])
  {
  }

  /** After `: CONDITION [` the condition list is read, starting from no entries. */
  lemma ConditionsOpen(ts: seq<Lexeme>, s: PState)
    requires var p1 := PSkip(ts, s); var p2 := PSkip(ts, p1.1);
             p1.0.tok == IS && p2.0.tok == CONDITION && PSkip(ts, p2.1).0.tok == MParLeft
    ensures var p2 := PSkip(ts, PSkip(ts, s).1);
            Conditions(ts, s) == CondItems(ts, PSkip(ts, p2.1).1, [])
  {
  }

  /** `AT [`, a begin time, an end time and `]` make the time range of those two times. */
  lemma TimeRangeReads(ts: seq<Lexeme>, s: PState, begin: string, end: string, s3: PState, s4: PState)
    requires var p1 := PSkip(ts, s); var p2 := PSkip(ts, p1.1);
             p1.0.tok == AT && p2.0.tok == MParLeft && TimeBegin(ts, p2.1).0 == Ok(begin) && TimeBegin(ts, p2.1).1 == s3
    requires TimeEnd(ts, s3).0 == Ok(end) && TimeEnd(ts, s3).1 == s4 && PSkip(ts, s4).0.tok == MParRight
    ensures TimeRange(ts, s) == (Ok((begin, end)), PSkip(ts, s4).1)
  {
  }

  /** LOOK followed by declarations, conditions and a time range that all succeed is the statement of those parts. */
  lemma LookReads(ts: seq<Lexeme>, s: PState, bindings: map<string, string>, s2: PState,
                  conditions: seq<map<string, Operation>>, s3: PState, begin: string, end: string, s4: PState)
    requires PSkip(ts, s).0.tok == LOOK
    requires Declarations(ts, PSkip(ts, s).1).0 == Ok(bindings) && Declarations(ts, PSkip(ts, s).1).1 == s2
    requires Conditions(ts, s2).0 == Ok(conditions) && Conditions(ts, s2).1 == s3
    requires TimeRange(ts, s3).0 == Ok((begin, end)) && TimeRange(ts, s3).1 == s4
    ensures ParseFrom(ts, s) == (Ok(SelectStatement([bindings], conditions, begin, end)), s4)
  {
  }
}
