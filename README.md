# A model of the query-language scanner and parser

The repository is a hand-written lexer and recursive-descent parser for a small query
language of the form

    LOOK (idx'type, ...) : CONDITION [ ref'field OP value, ... ] AT [ b1:b2 - e1:e2 ]

`scanner.go` turns a character stream into (token, literal) pairs. `parser.go` pulls those
pairs one at a time through a one-slot pushback buffer and builds a `SelectStatement`:
- one map from index name to type;
- a list of single-entry maps from an index reference to an `Operation` (field, comparator, value);
- a begin and an end time.
It stops at the first token that does not fit.

The model has eight modules, one file each:

- `tokens.dfy` (`Tokens`): the token kinds and the `Lexeme` pair.
- `lexer.dfy` (`Lexer`): the scanner.
  - `Next(input, pos)` is a function that says which lexeme is scanned at a read position and where reading resumes.
  - `Lexemes(input)` is the whole token stream.
  - The class `Scanner` is the imperative scanner: a string with a read position, `Read`/`Unread`, and the run loops. Its `Scan` is proved to agree with `Next`.
- `lexer_facts.dfy` (`LexerFacts`): properties of the token stream.
  - The literals spell the input back.
  - Whitespace tokens never come in pairs.
  - Keyword lookup ignores case, and only whole words match.
  - No input yields the TOTAL kind.
- `lexer_text.dfy` (`LexerText`): the converse of spelling. Lexemes that each scan as themselves before the next, written one after the other, scan back to exactly those lexemes.
- `grammar.dfy` (`Grammar`): the statement datatypes, and one function per part of `Parse`.
  - Each function maps the token stream and a parser state `PState` to an outcome and the new state. `PState` holds the tokens pulled so far, the buffered token and the buffer size.
  - An `Outcome` is `Ok(value)` or `Fail(failure)`.
  - A failure is `Unexpected(found, expected)` for the source's returned errors, or `Panicked(lit)` for its panics.
- `grammar_facts.dfy` (`GrammarFacts`): properties of those functions.
  - Pushback re-delivers a token.
  - How hyphenated names are rebuilt, which name a declaration binds and which key a condition gets.
  - What a value holds, and which comparator's value may panic.
  - What any declaration list binds, whitespace and hyphenated names included: its declarations in order, the last declaration of a name winning, and no other name touched.
  - The shape of a successful statement.
  - The converse direction: a field, a condition list, a time range and a whole LOOK statement whose parts parse are read as those parts.
  - Single-token examples of the language's quirks.
- `query_example.dfy` (`QueryExample`): one statement followed through the scanner and every clause of the parser, `LOOK (a'int): CONDITION [a'f1 GT 100] AT [2018.01.01:00.00.00 - 2018.01.02:00.00.00]`.
  - Its text scans to 34 lexemes, and `ParseQuery` of the text gives the statement.
  - It parses to the bindings `a -> int`, the condition set `[{a: f1 GT 100}, {}]` and the two times, and every token is read.
  - Without its `CONDITION` keyword the parse fails with `[` found where CONDITION was expected.
- `parsing.dfy` (`Parsing`): the class `Parser`, with the scanner and the `buf` fields (`bufTok`, `bufLit`, `bufN`), and the methods `Scan`, `Unscan`, `ScanIgnoreWhitespace` and `Parse`.
  - `Parse`'s labelled blocks and loops are separate methods: the declaration clause, the TYPE and FIELD labels, the condition loop and the time range.
  - Every method is proved to return what the matching `Grammar` function describes, and to leave the parser in the state that function gives.
  - `ParseText` creates a parser over a string and calls `Parse`.

The model reproduces these behaviours of the code as written:

- In a declaration, a hyphenated name such as `idx-11-22` is stored as `idx-1111--2222` (parser.go:133-139). Each hyphen and each identifier after the first hyphen is appended twice. In a condition the same reference is rebuilt as written (parser.go:234-239), so it cannot name the declared index.
- The index reference and the field are separated by `'`: the `.` check is commented out (parser.go:258-264). A `.` token in a declaration or a condition is rejected. A dot inside a run of digits is not such a token: `1.5` and `2018.01.01` are single IDENT tokens.
- The field name is read with a plain `scan` (parser.go:265), so it must follow the `'` with no whitespace.
- The keyword table spells the TOTAL entry `"TOTAl"` (scanner.go:141). An upper-cased word never matches it, so `TOTAL` and `total` scan as identifiers and the TOTAL branch of `Parse` is unreachable from text.
- A number that does not convert to float64 panics after GT, GTE, LT, LTE and EQ (`Panicked`), but after NEQ it is a returned error.
- `)` is accepted as a declaration name, and `]` as a condition reference (parser.go:107, 211).
- After a declaration, a bad separator is reported with the type name's literal (parser.go:163-166). The separator's own literal is discarded.
- The token after the `:` of the begin time is taken whatever its kind (parser.go:561-564). A missing `:` there is reported as expecting `"."` (parser.go:556).
- A second declaration of the same name overwrites the first (parser.go:162).
- Parsing stops at the `]` that closes the time range; nothing after it is read.
- The reader returns the end-of-input marker `rune(0)` for a NUL character in the input too (scanner.go:171-177, 198). So:
  - a NUL that ends a whitespace, word or number run is consumed and dropped;
  - a NUL anywhere else gives an EOF token and scanning continues after it;
  - " \0 " scans as two adjacent whitespace tokens. "`scanIgnoreWhitespace` never returns whitespace" therefore holds only for NUL-free input, and it is proved under that condition.

## Model

| member | source | states |
|---|---|---|
| Lexer.RunEnd | scanner.go:85-94 | the run loops stop at the end of the maximal run of characters the run accepts: every character before the result is accepted and the one at the result is not |
| Lexer.Keyword | scanner.go:137-166 | a letter-initial word is an identifier or a keyword, and never the TOTAL kind |
| Lexer.Next | scanner.go:24-75 | scanning stays inside the input, consumes at least one character before the end, and gives EOF with an empty literal at the end without moving |
| Lexer.NextFindsEof | scanner.go:44-45 | the EOF kind comes exactly at the end of input or at a NUL character, with an empty literal; a NUL is stepped over |
| Lexer.NextConsumes | scanner.go:78-116 | every other token's literal is exactly the input text consumed; the one exception is a NUL that ends a run, which is consumed and not kept |
| Lexer.NextClassifies | scanner.go:31-74 | whitespace iff the first character is whitespace. Whitespace, words and numbers are maximal runs. A word's kind is the keyword lookup of its literal (a keyword, or IDENT); numbers are identifiers. Every other character gives its punctuation kind, or ILLEGAL, with a one-character literal |
| Lexer.PosAfterStep | scanner.go:24-75 | the k-th token of the stream is what `Scan` returns after k earlier calls, and the reader then advances to where that token ends |
| Lexer.PosAfterAll | scanner.go:24-75 | after the whole stream has been scanned the reader is at the end of the input |
| Lexer.Scanner.constructor | scanner.go:19-21 | a new scanner reads its input from the start |
| Lexer.Scanner.Read | scanner.go:171-177 | returns the character at the reader and advances it, or returns the end-of-input marker and stays at the end |
| Lexer.Scanner.Unread | scanner.go:180 | steps back one character after a successful read, and does nothing otherwise |
| Lexer.Scanner.ReadRun | scanner.go:81-94 | the run loop reads the first character and the maximal run of accepted characters after it. The literal is exactly that text, and a NUL that stopped the loop is consumed |
| Lexer.Scanner.ScanWhitespace | scanner.go:78-97 | returns WS and the whole whitespace run, as `Next` says |
| Lexer.Scanner.ScanInteger | scanner.go:99-116 | returns IDENT and the whole run of digits and dots, as `Next` says |
| Lexer.Scanner.ScanIdent | scanner.go:119-167 | returns the keyword or IDENT kind of the whole word run and its original-case literal, as `Next` says |
| Lexer.Scanner.Scan | scanner.go:24-75 | returns the token and literal `Next` gives at the old reader position, and leaves the reader where `Next` says |
| LexerFacts.LexemesSpellInput | scanner.go:24-116 | for NUL-free input, the concatenated literals of the token stream are exactly the input |
| LexerText.NextShift | scanner.go:24-116 | the lexeme scanned at a position, and where reading resumes, depend only on the text from that position on |
| LexerText.LexemesShift | scanner.go:24-116 | the token stream from a position in `a + b` inside `b` is the stream `b` alone gives from there |
| LexerText.LexemeThenRest | scanner.go:24-116 | a lexeme that scans as itself (its literal a maximal run of its kind, or one punctuation character) followed by any text scans first, then the text on its own |
| LexerText.SpellingScans | scanner.go:24-116 | conversely to `LexemesSpellInput`: lexemes that each scan as themselves before the next, written one after the other, scan back to exactly those lexemes |
| LexerFacts.NoAdjacentWhitespace | scanner.go:78-97 | for NUL-free input, a whitespace token is never followed by another one |
| LexerFacts.HyphensAreSpelled | scanner.go:68-69 | every hyphen token in the stream has the literal "-" |
| LexerFacts.NulSplitsWhitespace | scanner.go:86-87 | a NUL between two spaces ends the first whitespace run and is dropped, so two whitespace tokens follow each other |
| LexerFacts.NeverTotal | scanner.go:138-142 | no token of any input has the TOTAL kind |
| LexerFacts.KeywordsIgnoreCase | scanner.go:138-162 | for every word, the kind of its upper-cased spelling is its own kind: keyword lookup ignores letter case |
| LexerFacts.KeywordExamples | scanner.go:138-162 | `look`, `Condition` and `gte` are the LOOK, CONDITION and GTE keywords |
| LexerFacts.LongerWordIsAnIdentifier | scanner.go:138-166 | `looks` is an identifier: only whole words match a keyword |
| LexerFacts.TotalIsAnIdentifier | scanner.go:141 | `TOTAL` and `total` both scan as identifiers |
| LexerFacts.DottedNumberIsOneToken | scanner.go:99-116 | `2018.01.01` is a single identifier token, which stops before the `:` |
| LexerFacts.CarriageReturnIsIllegal | scanner.go:183 | a carriage return is not whitespace and comes out as ILLEGAL |
| LexerFacts.EofRepeats | scanner.go:171-177 | once at the end of input the scanner returns EOF with an empty literal on every later call, without moving |
| Grammar.PScan | parser.go:637-651 | returns the pushed-back token without reading; otherwise exactly the next token of the stream, or EOF past its end. The token returned stays in the buffer and nothing is left pushed back |
| Grammar.PUnscan | parser.go:663 | marks the buffered token for re-delivery, keeping the buffer and the stream position |
| Grammar.PSkip | parser.go:654-660 | the token returned is the one left in the buffer, and nothing is pushed back; the parse never moves backwards in the stream |
| Grammar.TypeName | parser.go:153-161 | succeeds iff the next non-whitespace token is an identifier, and then binds the given name to that identifier's literal |
| Grammar.DeclItems | parser.go:102-174 | a successful declaration list keeps every name already bound; `ItemsBind`, `LastDeclarationWins` and `UndeclaredNameKept` state what it binds |
| Grammar.NumberValue | parser.go:282-366 | after GT, GTE, LT or LTE a successful value is a Float64 holding the literal of the identifier read, and that literal converts to float64 |
| Grammar.PrefixValue | parser.go:368-424 | after PF or SF a successful value is the string of the identifier between the quotes, read right after the opening quote |
| Grammar.EqValue | parser.go:425-468 | after EQ a successful number is the literal of the identifier read and converts to float64; a successful string is the identifier between the quotes |
| Grammar.NeqValue | parser.go:470-509 | after NEQ a successful number is the literal of the identifier read and converts to float64; a successful string is the identifier between the quotes; every failure is a returned error, never a panic |
| Grammar.ValueFitsComparator | parser.go:281-510 | a value read after a comparator has the type that comparator admits: Float64 for GT/GTE/LT/LTE, string for PF/SF, and a convertible number whenever it is Float64 |
| Grammar.Field | parser.go:254-512 | a parsed field is keyed by the given index reference. Its field name is the token right after the quote, its `Opt` names the comparator after that, and its value fits the comparator |
| Grammar.Condition | parser.go:204-512 | a parsed condition starts with an identifier or `]`, and its value fits its comparator. Its key is that first literal when a quote follows it, and the chain `CondChain` rebuilds when a hyphen follows it |
| Grammar.TimeBegin | parser.go:540-565 | succeeds iff an identifier and a `:` come first; the time is that identifier, ":" and the literal of the token after the `:` |
| Grammar.EndStamp | parser.go:573-596 | succeeds iff an identifier, a `:` and an identifier come; the time is the two identifiers joined with ":" |
| Grammar.TimeEnd | parser.go:566-597 | succeeds only after a hyphen, with the end stamp read after it |
| Grammar.TimeRange | parser.go:526-604 | on success the last token read is the closing `]`, and no token is pushed back. The begin time is the one read right after `AT [`, and the end time the one read right after that |
| GrammarFacts.SkipNeverWhitespace | parser.go:654-660 | when the stream has no two adjacent whitespace tokens, skipping one whitespace token never yields whitespace |
| GrammarFacts.SkipToken | parser.go:654-660 | with nothing pushed back, a token other than whitespace is read as it stands and the position moves past it |
| GrammarFacts.SkipBlank | parser.go:654-660 | with nothing pushed back, one whitespace token is stepped over and the token after it is read |
| GrammarFacts.ScanAfterUnscan | parser.go:637-651 | after `unscan`, the next `scan` returns the same token and leaves the same state; the same holds for `scanIgnoreWhitespace` when the token was not whitespace |
| GrammarFacts.CondChainSpells | parser.go:225-241 | a condition's hyphenated reference is rebuilt as written: the name followed by every chained literal once, with a hyphen as "-" |
| GrammarFacts.DeclChainDoubles | parser.go:125-141 | a declaration's hyphenated name gets every chained identifier and hyphen literal appended twice |
| GrammarFacts.ReferenceChainExample | parser.go:225-241 | `idx-11-22` as a condition reference is `idx-11-22` |
| GrammarFacts.DeclarationChainExample | parser.go:118-139 | `idx-11-22` as a declared name is `idx-1111--2222` |
| GrammarFacts.PanicsOnlyOnBadNumbers | parser.go:293-296 | a value panics iff the comparator is GT, GTE, LT, LTE or EQ and the next token is an identifier that does not convert to float64; the panic carries that literal |
| GrammarFacts.ValueLiterals | parser.go:281-510 | for every comparator, a number value holds the literal of the identifier read, and a string value is the identifier between the quotes |
| GrammarFacts.DeclItemName | parser.go:103-141 | the name a declaration binds is its first literal when a quote follows it; after a hyphen it is the first literal, "-" and every later chained literal twice |
| GrammarFacts.ConditionKey | parser.go:205-241 | the key of a condition is its first literal when a quote follows it; after a hyphen it is the first literal, "-" and every later chained literal once |
| GrammarFacts.DeclItemsBind | parser.go:102-171 | a successful declaration list binds at least one name |
| GrammarFacts.DeclarationsBind | parser.go:96-171 | a successful declaration clause binds at least one name |
| GrammarFacts.CondItemsShape | parser.go:203-524 | the condition loop keeps the entries it had, adds at least one single-entry map whose value fits its comparator, and ends with one empty map |
| GrammarFacts.ConditionsShape | parser.go:180-524 | a successful condition clause is at least one condition entry followed by one empty map |
| GrammarFacts.OpenDeclarations | parser.go:96-102 | right after `(` the declaration list is read starting from no bindings |
| GrammarFacts.DeclItemThenComma | parser.go:162-171 | a declaration followed by `,` binds its name to its type, and the list goes on from after the comma |
| GrammarFacts.DeclItemThenClose | parser.go:162-169 | a declaration followed by `)` binds its name to its type, and the list ends right after the `)` |
| GrammarFacts.ItemsBind | parser.go:102-171 | any declaration list (whitespace and hyphenated names included), whose declarations are separated by commas and closed by `)`, parses to the bindings of its declarations made left to right on top of the bindings so far, and stops right after the `)` |
| GrammarFacts.DeclaredTwice | parser.go:162 | two declarations of one name, in a row, leave it bound to the second type |
| GrammarFacts.UndeclaredNameKept | parser.go:162 | a name no declaration of the list declares keeps its earlier binding, or stays unbound |
| GrammarFacts.LastDeclarationWins | parser.go:162 | every declared name is bound, to the type of its last declaration in the list |
| GrammarFacts.DeclItemType | parser.go:153-161 | the type a declaration binds is the identifier read right after its quote, plain or after a hyphenated name |
| GrammarFacts.FirstTokenDecides | parser.go:87-91 | if the first non-whitespace token is neither LOOK nor TOTAL, the parse fails with that literal and pushes the token back; a successful parse began with LOOK or TOTAL |
| GrammarFacts.MissingConditionKeyword | parser.go:182-198 | after LOOK, the declarations and the `:`, any token other than CONDITION fails the parse, reporting that token as found where CONDITION was expected |
| GrammarFacts.LookStatementOf | parser.go:169-171 | a non-empty binding map and a condition clause's result make a statement of the LOOK shape |
| GrammarFacts.FirstTokenNotTotal | parser.go:87-92 | on a fresh parser over any text, the first non-whitespace token is never TOTAL |
| GrammarFacts.ClosingParenIsAName | parser.go:107-111 | `)'int` is accepted as a declaration binding `)` |
| GrammarFacts.EmptyDeclarationsRejected | parser.go:105-117 | `()` is not an empty declaration list: the `)` is read as a name and the `:` after it is rejected |
| GrammarFacts.DotIsNotASeparator | parser.go:112-117 | `idx.int` is rejected at the `.` |
| GrammarFacts.SeparatorErrorNamesType | parser.go:163-166 | a bad separator after `idx'int` is reported with `int`, not with the separator found |
| GrammarFacts.PlainDeclaration | parser.go:105-162 | `name'type` with no whitespace reads three tokens and binds the name, stored verbatim, to the type |
| GrammarFacts.DuplicateNameOverwrites | parser.go:162 | in `a'x, a'y)`, with a blank after the comma, the later binding of `a` replaces the earlier one |
| GrammarFacts.FieldFollowsQuote | parser.go:265-269 | whitespace between the `'` and the field name is rejected |
| GrammarFacts.DotIsNotAFieldSeparator | parser.go:216-221 | in a condition `idx.field` is rejected at the `.` |
| GrammarFacts.FieldReads | parser.go:254-512 | an identifier right after the quote, a comparator and a value that comparator accepts make the operation on that field, with `Opt` named after the comparator |
| GrammarFacts.QuotedConditionReads | parser.go:205-221 | an identifier or `]` followed by a quote hands that literal, as the key, to the field read after the quote |
| GrammarFacts.LastConditionReads | parser.go:513-522 | a condition followed by `]` ends the list: its single-entry map, then one empty map, and the parse stops after the `]` |
| GrammarFacts.NextConditionReads | parser.go:513-522 | a condition followed by `,` adds its single-entry map and the loop goes on after the comma |
| GrammarFacts.ConditionsOpen | parser.go:182-199 | after `: CONDITION [` the condition loop runs starting from no entries |
| GrammarFacts.TimeRangeReads | parser.go:526-604 | `AT [`, a begin time, an end time and `]` make the range of exactly those two times, and the parse stops after the `]` |
| GrammarFacts.LookReads | parser.go:82-604 | LOOK followed by a declaration clause, a condition clause and a time range that succeed is the statement made of their results |
| QueryExample.QueryDeclarations | parser.go:96-174 | `(a'int)` binds `a` to `int` and stops after the `)` |
| QueryExample.QueryValue | parser.go:282-366 | `100` after GT is the number 100 |
| QueryExample.QueryField | parser.go:254-512 | `f1 GT 100` after the quote is field `f1`, comparator GT, value 100 |
| QueryExample.QueryConditionEntry | parser.go:204-512 | `a'f1 GT 100` is that operation keyed by `a` |
| QueryExample.QueryConditionList | parser.go:203-524 | `a'f1 GT 100]` gives that single entry followed by the empty map |
| QueryExample.QueryConditions | parser.go:180-524 | `: CONDITION [a'f1 GT 100]` gives the same condition set |
| QueryExample.QueryBegin | parser.go:540-565 | `2018.01.01:00.00.00` is the begin time `2018.01.01:00.00.00` |
| QueryExample.QueryEnd | parser.go:566-597 | `- 2018.01.02:00.00.00` is the end time `2018.01.02:00.00.00` |
| QueryExample.QueryTimeRange | parser.go:526-604 | the AT clause gives both times and stops after its `]` |
| QueryExample.QueryClauses | parser.go:86-604 | after LOOK each clause of the statement reads its part, starting where the one before stopped |
| QueryExample.QueryParses | parser.go:82-633 | the whole statement parses to the bindings `a -> int`, the conditions `[{a: f1 GT 100}, {}]` and the two times, with all 34 tokens read |
| QueryExample.QuerySeparated | scanner.go:24-116 | each of the statement's 34 lexemes scans as itself before the next |
| QueryExample.QueryScans | scanner.go:24-116 | the scanner splits the text of the statement into exactly those 34 lexemes |
| QueryExample.QueryLexemesSpellQuery | scanner.go:24-116 | those lexemes are the token stream the parser lemmas read |
| QueryExample.QueryTextParses | parser.go:77-633 | `ParseQuery` of the statement's text gives the bindings `a -> int`, the conditions `[{a: f1 GT 100}, {}]` and the two times |
| QueryExample.QueryWithoutConditionKeyword | parser.go:190-194 | the same statement without `CONDITION` fails with `[` found where CONDITION was expected |
| Parsing.Parser.constructor | parser.go:77-79 | a new parser has an empty buffer and its scanner at the start of the input |
| Parsing.Parser.Scan | parser.go:637-651 | returns the pushed-back token without reading, or reads the next token of the stream and records it in the buffer |
| Parsing.Parser.Pull | parser.go:644-650 | with nothing pushed back, returns the next token of the stream (EOF past its end) and records it in the buffer |
| Parsing.Parser.Unscan | parser.go:663 | marks the buffered token for re-delivery, changing nothing else |
| Parsing.Parser.ScanIgnoreWhitespace | parser.go:654-660 | scans, and scans once more after a whitespace token; on NUL-free input the result is never whitespace |
| Parsing.Parser.ParseTypeName | parser.go:153-161 | the TYPE block reads the type name, as `TypeName` describes |
| Parsing.Parser.ParseIndexNameChain | parser.go:125-141 | the declaration chain loop builds the name and leaves the state that `DeclChain` gives; `DeclChainDoubles` shows the doubling |
| Parsing.Parser.ParseDeclaration | parser.go:103-162 | one declaration, with its error cases and pushbacks, as `DeclItem` describes |
| Parsing.Parser.ParseDeclarations | parser.go:96-174 | the declaration clause, as `Declarations` describes; a successful map binds at least one name |
| Parsing.Parser.ParseNumber | parser.go:282-366 | the GT/GTE/LT/LTE cases, as `NumberValue` describes |
| Parsing.Parser.ParsePrefixValue | parser.go:368-424 | the PF/SF cases, as `PrefixValue` describes |
| Parsing.Parser.ParseEqValue | parser.go:425-468 | the EQ case, as `EqValue` describes |
| Parsing.Parser.ParseNeqValue | parser.go:470-509 | the NEQ case, as `NeqValue` describes |
| Parsing.Parser.ParseValue | parser.go:281-511 | the switch on the comparator, as `CondValue` describes |
| Parsing.Parser.ParseField | parser.go:254-512 | the FIELD block, as `Field` describes |
| Parsing.Parser.ParseReferenceChain | parser.go:225-241 | the condition chain loop builds the reference and leaves the state that `CondChain` gives; `CondChainSpells` shows it is spelled as written |
| Parsing.Parser.ParseCondition | parser.go:204-512 | one condition, with its error cases and pushbacks, as `Condition` describes |
| Parsing.Parser.ParseConditions | parser.go:180-524 | the condition clause, as `Conditions` describes; on success it is at least one condition entry followed by one empty map |
| Parsing.Parser.ParseConditionList | parser.go:203-524 | the condition loop, as `CondItems` describes |
| Parsing.Parser.ParseTimeBegin | parser.go:540-565 | the begin time, as `TimeBegin` describes |
| Parsing.Parser.ParseTimeEnd | parser.go:567-596 | the hyphen and the end time, as `TimeEnd` describes |
| Parsing.Parser.ParseEndStamp | parser.go:573-596 | the end time's `e1:e2`, as `EndStamp` describes |
| Parsing.Parser.ParseTimeRange | parser.go:526-604 | the AT clause, as `TimeRange` describes |
| Parsing.Parser.Parse | parser.go:82-633 | returns and leaves the state `ParseFrom` describes. On success the statement has the LOOK shape (one non-empty binding map, conditions closed by an empty map) or the first token was TOTAL. A LOOK statement ends with `]` as the last token read and nothing pushed back |
| Parsing.ParseText | parser.go:77-91 | a fresh parser over a text returns `ParseQuery` of it, and any statement it returns has the LOOK shape |

## Left out

- Float64 conversion is modelled syntactically, by `IsFloatLiteral`: an optional sign, a decimal mantissa with an optional exponent, or inf, infinity or nan in any case. Hexadecimal forms, underscores and out-of-range values are not modelled, and neither is the numeric value itself. A value keeps its literal.
- The buffered reader and rune decoding: the input is a string read one character at a time. Read errors other than the end of input, and invalid UTF-8, are not modelled.
- Error messages are `Unexpected(found, expected)`, carrying the found literal and the expected words of the message, not the formatted text.
- A panic is the outcome `Panicked(lit)`; it is not an unwinding of the process.
- `isSymbol` (scanner.go:191-195) is unused and is not part of this model.
- test/main.go is an example driver that prints results, and is not part of this model. Map iteration order is seen only there.
- `Operation.ValueType` is not a separate field: it is `ValueType(value)`, derived from the Float64/string tag of the value.
- Grammar.DeclChain, Grammar.DeclItem, Grammar.DeclItems, Grammar.Declarations, Grammar.CondChain, Grammar.CondValue, Grammar.CondItems, Grammar.Conditions, Grammar.ParseFrom: their own contracts state little more than that the parse does not move backwards. They are the specifications of the `Parser` methods above. What they compute is stated by lemmas in `GrammarFacts`:
  - DeclChain by DeclChainDoubles, DeclItem by DeclItemName, DeclItems by ItemsBind, LastDeclarationWins and UndeclaredNameKept, Declarations by OpenDeclarations, ItemsBind and DeclarationsBind;
  - CondChain by CondChainSpells, CondValue by ValueLiterals and PanicsOnlyOnBadNumbers;
  - CondItems by CondItemsShape, LastConditionReads and NextConditionReads, Conditions by ConditionsShape and ConditionsOpen;
  - ParseFrom by FirstTokenDecides, MissingConditionKeyword and LookReads, and on one whole statement by QueryParses and QueryTextParses.
- Parsing.Parser.Parse: the TOTAL branch returns an empty statement, as the source's stub does. Since the scanner never yields TOTAL, that branch is reachable only from a hand-made token stream.
