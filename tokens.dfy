/** Token kinds of the query language and the (kind, literal) pairs the scanner hands to the parser. */
module Tokens {

  /** The lexical token kinds, in the order the source declares them. */
  datatype Token =
    // special tokens
    | ILLEGAL | EOF | WS
    // literals
    | IDENT
    // single-character punctuation
    | OWN        // '
    | COMMA      // ,
    | ParLeft    // (
    | ParRight   // )
    | IS         // :
    | BParLeft   // {
    | BParRight  // }
    | MParLeft   // [
    | MParRight  // ]
    | Point      // .
    | STR        // "
    | MIDEND     // -
    | PointRight // >
    // keywords
    | LOOK | TOTAL | CONDITION | AT | EQ | NEQ | PF | SF | GT | GTE | LT | LTE

  /** A token together with the literal text it was scanned from. */
  datatype Lexeme = Lexeme(tok: Token, lit: string)

  /** The comparator keywords a condition may use. */
  predicate IsComparator(t: Token) {
    t == EQ || t == NEQ || t == PF || t == SF || t == LT || t == GT || t == GTE || t == LTE
  }

  /** The keyword kinds; a letter-initial word scans as one of these or as IDENT. */
  predicate IsKeyword(t: Token) {
    t == LOOK || t == TOTAL || t == CONDITION || t == AT || IsComparator(t)
  }
}
