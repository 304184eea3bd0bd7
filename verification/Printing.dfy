/** Programs written out as tokens on one line, with the fewest parentheses that the table of
    precedences allows. Every function takes the tokens that follow. */
module Printing {
  import opened Syntax
  import opened Tokens

  const LINE: nat := 1

  function On(k: Kind, rest: Tokens): Tokens {
    Tok(Token(k, LINE), rest)
  }

  /** How tightly the top of the expression binds. */
  function Level(e: Expr): nat {
    match e
    case Un(_, _) => PREC_UNARY
    case Bin(op, _, _) => Precedence(TokenOf(op))
    case _ => PREC_PRIMARY
  }

  /** Parentheses only where the expression binds less tightly than its place demands. */
  function ExprThen(e: Expr, level: nat, rest: Tokens): Tokens
    decreases e, 1
  {
    if Level(e) < level then On(LPAREN, BareThen(e, On(RPAREN, rest))) else BareThen(e, rest)
  }

  function BareThen(e: Expr, rest: Tokens): Tokens
    decreases e, 0
  {
    match e
    case IntLit(n) => On(INT(n), rest)
    case BoolLit(b) => On(BOOL(b), rest)
    case Var(x) => On(ID(x), rest)
    case Un(op, e1) => On(if op == Minus then MINUS else BANG, ExprThen(e1, PREC_UNARY, rest))
    case Bin(op, l, r) => ExprThen(l, Level(e), On(TokenOf(op), ExprThen(r, Level(e) + 1, rest)))
    case Call(f, args) => On(ID(f), On(LPAREN, ArgsThen(args, On(RPAREN, rest))))
  }

  function ArgsThen(args: Args, rest: Tokens): Tokens
    decreases args
  {
    match args
    case NoArgs => rest
    case Arg(e, NoArgs) => ExprThen(e, PREC_OR, rest)
    case Arg(e, others) => ExprThen(e, PREC_OR, On(COMMA, ArgsThen(others, rest)))
  }

  function TypeName(t: Type): Name {
    match t
    case TInt => INT_NAME case TBool => BOL_NAME case TVoid => VOID_NAME case TAny => ANY_NAME
  }

  /** Every statement but try ends with a semicolon. */
  function StmtThen(s: Stmt, rest: Tokens): Tokens
    decreases s
  {
    match s
    case Eval(e) => ExprThen(e, PREC_OR, On(SEMICOLON, rest))
    case Assign(e, x, None) => ExprThen(e, PREC_OR, On(ASSIGN, On(ID(x), On(SEMICOLON, rest))))
    case Assign(e, x, Some(t)) =>
      ExprThen(e, PREC_OR, On(ASSIGN, On(ID(x), On(COLON, On(ID(TypeName(t)), On(SEMICOLON, rest))))))
    case Print(e) => ExprThen(e, PREC_OR, On(BANG_BANG, On(SEMICOLON, rest)))
    case If(c, t) => ExprThen(c, PREC_OR, On(QUESTION, BlockThen(t, On(SEMICOLON, rest))))
    case IfElse(c, t, f) =>
      ExprThen(c, PREC_OR, On(QUESTION, BlockThen(t, On(COLON, BlockThen(f, On(SEMICOLON, rest))))))
    case While(c, b) => ExprThen(c, PREC_OR, On(AT, BlockThen(b, On(SEMICOLON, rest))))
    case Break => On(DOT, On(SEMICOLON, rest))
    case Continue => On(DOT_DOT, On(SEMICOLON, rest))
    case Return(e) => On(HAT, ExprThen(e, PREC_OR, On(SEMICOLON, rest)))
    case Throw(e) => On(KEY_THROW, ExprThen(e, PREC_OR, On(SEMICOLON, rest)))
    case Try(b, x, h) => On(KEY_TRY, BlockThen(b, On(KEY_CATCH, On(ID(x), BlockThen(h, rest)))))
  }

  function StmtsThen(b: Block, rest: Tokens): Tokens
    decreases b, 0
  {
    match b
    case End => rest
    case Then(s, others) => StmtThen(s, StmtsThen(others, rest))
  }

  function BlockThen(b: Block, rest: Tokens): Tokens
    decreases b, 1
  {
    On(LBRACKET, StmtsThen(b, On(RBRACKET, rest)))
  }

  function ParamsThen(ps: seq<Param>, rest: Tokens): Tokens {
    if ps == [] then rest
    else On(ID(ps[0].name), On(COLON, On(ID(TypeName(ps[0].ty)),
            if |ps| == 1 then rest else On(COMMA, ParamsThen(ps[1..], rest)))))
  }

  /** <x: int, y: bol> -> int : name [ ... ] */
  function FunThen(f: Fun, rest: Tokens): Tokens {
    On(LANGLE, ParamsThen(f.params, On(RANGLE, On(ARROW, On(ID(TypeName(f.ret)), On(COLON, On(ID(f.name),
      BlockThen(f.body, rest))))))))
  }

  /** The program from its n-th function on. */
  function FunsThen(p: Program, n: nat): Tokens
    requires n <= |p|
    decreases |p| - n
  {
    if n == |p| then Eof else FunThen(p[n], FunsThen(p, n + 1))
  }

  function PrintProgram(p: Program): Tokens {
    FunsThen(p, 0)
  }
}
