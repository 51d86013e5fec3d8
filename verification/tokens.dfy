/** Token kinds and tokens, as produced by the lexer and consumed by the parser. */
module Tokens {

  /** The eleven pattern kinds of the token table, plus the terminal EOF kind. */
  datatype Kind =
    | Number | Plus | Minus | Multiply | Divide | Caret | Factorial
    | Sin | Cos | LParen | RParen | Eof

  /** A token: its kind and the exact text it was matched from. */
  datatype Token = Token(kind: Kind, lexeme: string)

  /** The terminal token appended after the last character of the input. */
  const EofToken: Token := Token(Eof, "EOF")

  /** The priority order in which the lexer tries the patterns at each position. */
  const Priority: seq<Kind> :=
    [Number, Plus, Minus, Multiply, Divide, Caret, Factorial, Sin, Cos, LParen, RParen]

  /** Position of a kind in the priority order; EOF, which has no pattern, comes last. */
  function Rank(k: Kind): (n: nat)
    ensures n <= |Priority|
    ensures n < |Priority| <==> k != Eof
    ensures n < |Priority| ==> Priority[n] == k
  {
    match k
    case Number => 0
    case Plus => 1
    case Minus => 2
    case Multiply => 3
    case Divide => 4
    case Caret => 5
    case Factorial => 6
    case Sin => 7
    case Cos => 8
    case LParen => 9
    case RParen => 10
    case Eof => 11
  }

  /** Every kind but EOF occurs in the priority order, at its rank. */
  lemma PriorityIsRankOrder()
    ensures forall i :: 0 <= i < |Priority| ==> Rank(Priority[i]) == i
  {
  }

  /** The fixed text of every pattern other than NUMBER's. */
  function Literal(k: Kind): (w: string)
    requires k != Number && k != Eof
    ensures |w| > 0
  {
    match k
    case Plus => "+"
    case Minus => "-"
    case Multiply => "*"
    case Divide => "/"
    case Caret => "^"
    case Factorial => "!"
    case Sin => "sin"
    case Cos => "cos"
    case LParen => "("
    case RParen => ")"
  }

  /** True if the kind is one of the four binary operators. */
  predicate IsBinaryOp(k: Kind) {
    k == Plus || k == Minus || k == Multiply || k == Divide
  }

  /** True if the kind is one of the two operators the parser never reaches past. */
  predicate IsPostfix(k: Kind) {
    k == Caret || k == Factorial
  }

  /** True if the kind is a parenthesis. */
  predicate IsParen(k: Kind) {
    k == LParen || k == RParen
  }
}
