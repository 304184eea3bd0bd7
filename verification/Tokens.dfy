/** The tokens of the lexer and the rows of the Pratt table. */
module Tokens {
  import opened Syntax

  /** The token kinds of the modelled fragment. Every other kind is Other, which says only
      whether such a token can end a statement. */
  datatype Kind =
    | INT(n: nat) | BOOL(b: bool) | ID(x: Name)
    | ARROW | ASSIGN | COLON | SEMICOLON | COMMA | QUESTION | AT
    | LBRACKET | RBRACKET | L_ARROW | LPAREN | RPAREN | LANGLE | RANGLE
    | PLUS | MINUS | STAR | SLASH | PERCENT | BANG | BANG_BANG
    | AMP_AMP | BAR_BAR | EQ_EQ | BANG_EQ | LESS_EQ | GREATER_EQ
    | DOT | DOT_DOT | HAT | KEY_AS | KEY_TRY | KEY_CATCH | KEY_THROW
    | OTHER(canEnd: bool)
    | EOF

  datatype Token = Token(kind: Kind, line: nat)

  /** What the lexer still has to deliver. */
  datatype Tokens = Eof | Tok(head: Token, tail: Tokens)

  function Len(ts: Tokens): nat {
    match ts
    case Eof => 0
    case Tok(_, rest) => 1 + Len(rest)
  }

  const PREC_NONE: nat := 0
  const PREC_ASSIGNMENT: nat := 1
  const PREC_AS: nat := 2
  const PREC_POSTFIX: nat := 3
  const PREC_OR: nat := 4
  const PREC_AND: nat := 5
  const PREC_EQUALITY: nat := 6
  const PREC_COMPARISON: nat := 7
  const PREC_TERM: nat := 8
  const PREC_FACTOR: nat := 9
  const PREC_UNARY: nat := 10
  const PREC_CALL: nat := 11
  const PREC_PRIMARY: nat := 12

  /** The third column of the rules table. */
  function Precedence(k: Kind): nat {
    match k
    case ASSIGN => PREC_ASSIGNMENT
    case L_ARROW => PREC_ASSIGNMENT
    case KEY_AS => PREC_AS
    case BANG_BANG => PREC_POSTFIX
    case BAR_BAR => PREC_OR
    case AMP_AMP => PREC_AND
    case EQ_EQ => PREC_EQUALITY
    case BANG_EQ => PREC_EQUALITY
    case LANGLE => PREC_COMPARISON
    case RANGLE => PREC_COMPARISON
    case LESS_EQ => PREC_COMPARISON
    case GREATER_EQ => PREC_COMPARISON
    case PLUS => PREC_TERM
    case MINUS => PREC_TERM
    case STAR => PREC_FACTOR
    case SLASH => PREC_FACTOR
    case PERCENT => PREC_FACTOR
    case LPAREN => PREC_CALL
    case DOT => PREC_CALL
    case _ => PREC_NONE
  }

  /** token_can_end_statement. */
  predicate CanEnd(k: Kind) {
    match k
    case INT(_) => true
    case BOOL(_) => true
    case ID(_) => true
    case RPAREN => true
    case RBRACKET => true
    case BANG_BANG => true
    case DOT => true
    case DOT_DOT => true
    case OTHER(canEnd) => canEnd
    case _ => false
  }

  /** The binary operators: the tokens whose infix rule is binary. */
  function BinaryOf(k: Kind): Option<BinOp> {
    match k
    case PLUS => Some(Plus) case MINUS => Some(Less) case STAR => Some(Times)
    case SLASH => Some(Over) case PERCENT => Some(Percent)
    case EQ_EQ => Some(Equal) case BANG_EQ => Some(NotEqual)
    case LANGLE => Some(Below) case RANGLE => Some(Above)
    case LESS_EQ => Some(AtMost) case GREATER_EQ => Some(AtLeast)
    case AMP_AMP => Some(Both) case BAR_BAR => Some(Either)
    case _ => None
  }

  function TokenOf(op: BinOp): (k: Kind)
    ensures BinaryOf(k) == Some(op)
  {
    match op
    case Plus => PLUS case Less => MINUS case Times => STAR
    case Over => SLASH case Percent => PERCENT
    case Equal => EQ_EQ case NotEqual => BANG_EQ
    case Below => LANGLE case Above => RANGLE
    case AtMost => LESS_EQ case AtLeast => GREATER_EQ
    case Both => AMP_AMP case Either => BAR_BAR
  }

  /** Names of native functions and typeOf; they shadow functions of the program. */
  predicate IsNative(x: Name) {
    x == INT_NAME || 5 <= x < 50
  }
}
