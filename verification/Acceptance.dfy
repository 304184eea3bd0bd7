/** What the compiler accepts is well typed: the checks of the one-pass compiler, together with a few
    rules that it leaves to the programmer, give the static rules of the language. */
module Acceptance {
  import opened Bytes
  import opened Values
  import opened Machine
  import opened Syntax
  import opened Semantics
  import opened Soundness
  import opened CodeGen
  import opened Emission
  import opened Tokens
  import opened Parsing
  import opened Printing
  import Grammar
  import opened Pratt
  import opened Shapes
  import opened Statements
  import opened Compilation

  // ----- what the compiler does not check -----

  predicate IsOrder(op: BinOp) {
    op == Below || op == Above || op == AtMost || op == AtLeast
  }

  predicate IsEquality(op: BinOp) {
    op == Equal || op == NotEqual
  }

  /** Order is asked of ints only, and equality of ints and bools. */
  predicate FitExpr(e: Expr, env: Scope, sg: Signatures) {
    match e
    case Un(_, e1) => FitExpr(e1, env, sg)
    case Bin(op, l, r) =>
      && FitExpr(l, env, sg) && FitExpr(r, env, sg)
      && (IsOrder(op) ==> TypeOf(l, env, sg) == TInt)
      && (IsEquality(op) ==> TypeOf(l, env, sg) == TInt || TypeOf(l, env, sg) == TBool)
    case Call(_, args) => FitArgs(args, env, sg)
    case _ => true
  }

  predicate FitArgs(args: Args, env: Scope, sg: Signatures) {
    match args
    case NoArgs => true
    case Arg(e, rest) => FitExpr(e, env, sg) && FitArgs(rest, env, sg)
  }

  /** A call of a void function is not used as a value. */
  predicate FitValue(e: Expr, env: Scope, sg: Signatures) {
    FitExpr(e, env, sg) && TypeOf(e, env, sg) != TVoid
  }

  /** A variable is not declared again at another type, and the locals fit their frame. */
  predicate FitAssign(x: Name, declared: Option<Type>, env: Scope) {
    if Known(env, x) then declared.Some? ==> declared.value == env[Resolve(env, x)].ty
    else |env| < LOCALS_PER_FRAME
  }

  /** Blocks that are no values end without one, the arms of an if agree, a try body is left neither
      by a return nor by a break or continue of a loop around it, and a handler declares nothing.
      looped: there is a loop around the statement. */
  predicate FitStmt(s: Stmt, cx: Context, env: Scope, looped: bool)
    decreases s, 0
  {
    match s
    case Eval(e) => FitExpr(e, env, cx.sg)
    case Assign(e, x, declared) => FitValue(e, env, cx.sg) && FitAssign(x, declared, env)
    case Print(e) => FitValue(e, env, cx.sg)
    case If(c, t) => FitValue(c, env, cx.sg) && FitArm(t, cx, env, looped, TVoid)
    case IfElse(c, t, f) =>
      && FitValue(c, env, cx.sg)
      && FitArm(t, cx, env, looped, StmtType(s, env, cx.sg))
      && FitArm(f, cx, BlockScope(t, env, cx.sg), looped, StmtType(s, env, cx.sg))
    case While(c, b) => FitValue(c, env, cx.sg) && FitArm(b, cx.(mayBreak := true), env, true, TVoid)
    case Break => looped ==> cx.mayBreak
    case Continue => looped ==> cx.mayBreak
    case Return(e) => cx.mayReturn && FitValue(e, env, cx.sg)
    case Throw(e) => FitValue(e, env, cx.sg)
    case Try(b, x, h) =>
      var env1 := BlockScope(b, env, cx.sg);
      && FitArm(b, cx.(mayBreak := false, mayReturn := false), env, looped, TVoid)
      && !Known(env1, x) && |env1| < LOCALS_PER_FRAME
      && FitArm(h, cx, env1 + [Local(x, TAny)], looped, TVoid)
      && BlockScope(h, env1 + [Local(x, TAny)], cx.sg) == env1 + [Local(x, TAny)]
  }

  predicate FitBlock(b: Block, cx: Context, env: Scope, looped: bool)
    decreases b, 0
  {
    match b
    case End => true
    case Then(s, rest) => FitStmt(s, cx, env, looped) && FitBlock(rest, cx, StmtScope(s, env, cx.sg), looped)
  }

  predicate FitArm(b: Block, cx: Context, env: Scope, looped: bool, t: Type)
    decreases b, 1
  {
    FitBlock(b, cx, env, looped) && (BlockCompletes(b) ==> BlockType(b, env, cx.sg) == t)
  }

  /** Parameters are ints and bools of distinct names, and a result is not of type any. */
  predicate FitFun(f: Fun, sg: Signatures) {
    && |f.params| <= 16
    && (forall i :: 0 <= i < |f.params| ==> f.params[i].ty == TInt || f.params[i].ty == TBool)
    && (forall i, j :: 0 <= i < j < |f.params| ==> f.params[i].name != f.params[j].name)
    && f.ret != TAny
    && FitBlock(f.body, BodyContext(f, sg), ParamScope(f.params), false)
  }

  /** The rules for a program that the compiler does not check; variables are assigned before they are read. */
  predicate FitProgram(p: Program) {
    && |p| <= 256
    && DistinctNames(p)
    && (forall i :: 0 <= i < |p| ==> FitFun(p[i], AllSignatures(p)))
    && (forall i :: 0 <= i < |p| ==> BlockDefinite(p[i].body, ParamNames(p[i].params)))
    && Defines(p, MAIN_NAME) && p[IndexOf(p, MAIN_NAME)].params == []
  }

  // ----- expressions -----

  /** The table holds the functions with a signature and no others. */
  predicate Exact(funcs: seq<Function>, sg: Signatures) {
    forall i :: 0 <= i < |funcs| ==> funcs[i].name in sg
  }

  predicate PlainParams(sg: Signatures) {
    forall f :: f in sg ==> forall i :: 0 <= i < |sg[f].params| ==> sg[f].params[i] == TInt || sg[f].params[i] == TBool
  }

  /** The compiler before an expression. */
  predicate Ready(st: State, sg: Signatures) {
    Prepared(st, sg) && Exact(st.out.funcs, sg) && PlainParams(sg)
  }

  lemma ReadyKept(st: State, r: State, c: Code, sg: Signatures)
    requires Ready(st, sg) && r.fault == NoFault && r.out == Emitted(st.out, c)
    ensures Ready(r, sg)
  {
    hide Emitted, Prepared, PlainParams;
    PreparedKept(st, r, c, sg);
    EmitKeepsTable(st.out, c);
    SameNames(st.out.funcs, r.out.funcs, sg);
  }

  lemma SameNames(f: seq<Function>, g: seq<Function>, sg: Signatures)
    requires SameTable(g, f) && Exact(f, sg)
    ensures Exact(g, sg)
  {}

  lemma ReadyMoves(st: State, r: State, sg: Signatures)
    requires Ready(st, sg) && r.out == st.out && r.fault == st.fault
    ensures Ready(r, sg)
  {}

  lemma {:induction false} AcceptedExpr(st: State, e: Expr, level: nat, prec: nat, rest: Tokens, sg: Signatures)
    requires Ready(st, sg) && PREC_OR <= level <= PREC_UNARY && 1 <= prec <= level
    requires st.toks == ExprThen(e, level, rest) && Calm(rest, level) && FitExpr(e, st.locals, sg)
    requires ParsePrecedence(st, prec).fault == NoFault
    ensures OkExpr(e, st.locals, sg, |st.types|)
    decreases e, 3
  {
    hide OkExpr, FitExpr, Infixes, WfOutput, Table, Exact, PlainParams, ParsePrecedence, BareThen;
    Levels(e);
    if Level(e) < level {
      var st1, inner := Advance(st), On(RPAREN, rest);
      OnePrefix(st, prec);
      assert Prefix(st1) == Grouping(st1);
      AcceptedBare(st1, e, PREC_ASSIGNMENT, inner, sg);
    } else {
      AcceptedBare(st, e, prec, rest, sg);
    }
  }

  lemma {:induction false} AcceptedBare(st: State, e: Expr, prec: nat, rest: Tokens, sg: Signatures)
    requires Ready(st, sg) && 1 <= prec <= Level(e)
    requires st.toks == BareThen(e, rest) && Calm(rest, Level(e)) && FitExpr(e, st.locals, sg)
    requires ParsePrecedence(st, prec).fault == NoFault
    ensures OkExpr(e, st.locals, sg, |st.types|)
    decreases e, 2
  {
    hide OkExpr, FitExpr, Ready, ParsePrecedence, BareThen;
    match e
    case Bin(_, _, _) => AcceptedBin(st, e, prec, rest, sg);
    case Un(_, _) => AcceptedUn(st, e, prec, rest, sg);
    case Call(_, _) => AcceptedCall(st, e, prec, rest, sg);
    case _ => AcceptedLeaf(st, e, prec, rest, sg);
  }

  lemma AcceptedLeaf(st: State, e: Expr, prec: nat, rest: Tokens, sg: Signatures)
    requires (e.IntLit? || e.BoolLit? || e.Var?) && prec > 0
    requires st.toks == BareThen(e, rest) && Calm(rest, Level(e))
    requires ParsePrecedence(st, prec).fault == NoFault
    ensures OkExpr(e, st.locals, sg, |st.types|)
  {
    hide Infixes, Put, Encode, Resolve, ParsePrecedence, Find, IsNative;
    OnePrefix(st, prec);
    assert Prefix(Advance(st)).fault == NoFault;
    if e.Var? {
      assert Prefix(Advance(st)) == Variable(Advance(st), e.x);
      VariableAccepted(Advance(st), e.x);
    }
  }

  /** A name that is not called must be a local. */
  lemma VariableAccepted(st: State, x: Name)
    requires Current(st) != LPAREN && Variable(st, x).fault == NoFault
    ensures Known(st.locals, x) && |st.types| < STACK_MAX
  {
    hide Put, Encode, Find, IsNative, CallFunction;
  }

  lemma {:induction false} AcceptedUn(st: State, e: Expr, prec: nat, rest: Tokens, sg: Signatures)
    requires e.Un? && Ready(st, sg) && prec > 0
    requires st.toks == BareThen(e, rest) && Calm(rest, Level(e)) && FitExpr(e, st.locals, sg)
    requires ParsePrecedence(st, prec).fault == NoFault
    ensures OkExpr(e, st.locals, sg, |st.types|)
    decreases e, 1
  {
    hide Infixes, WfOutput, Table, Exact, PlainParams, ExprThen, ParsePrecedence, OkExpr, ExprCode, TypeOf, Emitted, Last;
    var e1, st1 := e.operand, Advance(st);
    OnePrefix(st, prec);
    assert Prefix(st1) == UnaryRule(st1, e.uop);
    AcceptedExpr(st1, e1, PREC_UNARY, PREC_UNARY, rest, sg);
    ParseExpr(st1, e1, PREC_UNARY, PREC_UNARY, rest, sg);
    InfixesStop(Parsed(st1, e1, Last(e1, PREC_UNARY), rest, sg), PREC_UNARY);
    OkUn(e, st.locals, sg, |st.types|);
  }

  lemma OkUn(e: Expr, env: Scope, sg: Signatures, depth: nat)
    requires e.Un? && OkExpr(e.operand, env, sg, depth)
    ensures OkExpr(e, env, sg, depth) <==> TypeOf(e.operand, env, sg) == (if e.uop == Minus then TInt else TBool)
  {}

  lemma {:induction false} AcceptedBin(st: State, e: Expr, prec: nat, rest: Tokens, sg: Signatures)
    requires e.Bin? && Ready(st, sg) && 1 <= prec <= Level(e)
    requires st.toks == BareThen(e, rest) && Calm(rest, Level(e)) && FitExpr(e, st.locals, sg)
    requires ParsePrecedence(st, prec).fault == NoFault
    ensures OkExpr(e, st.locals, sg, |st.types|)
    decreases e, 1
  {
    hide Infixes, WfOutput, Table, Exact, PlainParams, ExprThen, BareThen, ParsePrecedence, OkExpr, ExprCode, TypeOf, Emitted, Last,
      FitExpr, GenOperator, Accepts, ResultType;
    var env, op, l, r, level := st.locals, e.bop, e.left, e.right, Level(e);
    Levels(e);
    BinTokens(e, rest);
    FitBin(e, env, sg);
    AcceptedExpr(st, l, level, prec, On(TokenOf(op), ExprThen(r, level + 1, rest)), sg);
    var st2 := LeftParsed(st, e, prec, rest, sg);
    ReadyKept(st, st2, ExprCode(l, env), sg);
    AcceptedExpr(st2, r, level + 1, level + 1, rest, sg);
    var st3 := RightParsed(st, st2, e, rest, sg);
    TwoTypes(st.types, TypeOf(l, env, sg), TypeOf(r, env, sg));
    OkBin(e, env, sg, |st.types|);
  }

  lemma TwoTypes(types: seq<Type>, a: Type, b: Type)
    ensures ((types + [a]) + [b])[..|types| + 1] == types + [a] && (types + [a])[..|types|] == types
  {}

  lemma FitBin(e: Expr, env: Scope, sg: Signatures)
    requires e.Bin? && FitExpr(e, env, sg)
    ensures FitExpr(e.left, env, sg) && FitExpr(e.right, env, sg)
  {}

  /** What binary accepts of operands that obey the rules is what the language demands. */
  lemma OkBin(e: Expr, env: Scope, sg: Signatures, depth: nat)
    requires e.Bin? && FitExpr(e, env, sg) && OkExpr(e.left, env, sg, depth) && OkExpr(e.right, env, sg, depth + 1)
    ensures OkExpr(e, env, sg, depth) <==> Accepts(e.bop, TypeOf(e.left, env, sg), TypeOf(e.right, env, sg))
  {
    hide TypeOf;
  }

  // ----- calls -----

  lemma {:induction false} AcceptedArgs(st: State, args: Args, params: seq<Type>, n: nat, rest: Tokens, sg: Signatures)
    requires args.Arg? && Ready(st, sg) && FitArgs(args, st.locals, sg)
    requires forall i :: 0 <= i < |params| ==> params[i] == TInt || params[i] == TBool
    requires st.toks == ArgsThen(args, On(RPAREN, rest)) && Arguments(st, params, n).st.fault == NoFault
    ensures Arguments(st, params, n).count == n + Count(args)
    ensures n + Count(args) == |params| ==> OkArgs(args, st.locals, sg, params[n..], |st.types|)
    decreases args, 4
  {
    hide Emitted, WfOutput, Table, Exact, PlainParams, ExprThen, ParsePrecedence, Infixes, Last, OkExpr, TypeOf, ExprCode, ArgsThen,
      OkArgs, Count, Arguments, FitExpr;
    var e, env := args.first, st.locals;
    var after := if args.others.NoArgs? then On(RPAREN, rest) else On(COMMA, ArgsThen(args.others, On(RPAREN, rest)));
    ArgsTokens(args, On(RPAREN, rest), after);
    var st1 := ParsePrecedence(st, PREC_ASSIGNMENT);
    OneTurn(st, params, n);
    AcceptedExpr(st, e, PREC_OR, PREC_ASSIGNMENT, after, sg);
    ParseExpr(st, e, PREC_OR, PREC_ASSIGNMENT, after, sg);
    InfixesStop(Parsed(st, e, Last(e, PREC_OR), after, sg), PREC_ASSIGNMENT);
    Popped(st.types, TypeOf(e, env, sg));
    if args.others.Arg? {
      var st3 := Advance(PopType(st1));
      ReadyKept(st, st3, ExprCode(e, env), sg);
      AcceptedArgs(st3, args.others, params, n + 1, rest, sg);
    }
    if n + Count(args) == |params| {
      OkMoreArgs(args, env, sg, params, n, |st.types|);
    }
  }

  /** One turn of the loop over the arguments of a call that is accepted. */
  lemma OneTurn(st: State, params: seq<Type>, n: nat)
    requires Arguments(st, params, n).st.fault == NoFault
    ensures var st1 := ParsePrecedence(st, PREC_ASSIGNMENT);
      && st1.fault == NoFault && (n < |params| ==> Assignable(params[n], TopType(st1)))
      && Arguments(st, params, n)
         == if Current(st1) == COMMA then Arguments(Advance(PopType(st1)), params, n + 1) else ArgsResult(PopType(st1), n + 1)
  {
    hide ParsePrecedence;
  }

  lemma ArgsTokens(args: Args, rest: Tokens, after: Tokens)
    requires args.Arg? && after == if args.others.NoArgs? then rest else On(COMMA, ArgsThen(args.others, rest))
    ensures ArgsThen(args, rest) == ExprThen(args.first, PREC_OR, after)
    ensures Count(args) == 1 + Count(args.others) && (args.others.NoArgs? ==> Count(args) == 1)
  {
    hide ExprThen;
  }

  lemma OkMoreArgs(args: Args, env: Scope, sg: Signatures, params: seq<Type>, n: nat, depth: nat)
    requires args.Arg? && n + Count(args) == |params|
    requires OkExpr(args.first, env, sg, depth) && TypeOf(args.first, env, sg) == params[n]
    requires args.others.Arg? ==> OkArgs(args.others, env, sg, params[n + 1..], depth)
    ensures OkArgs(args, env, sg, params[n..], depth)
  {
    hide OkExpr, TypeOf;
    assert params[n..][1..] == params[n + 1..];
  }

  lemma {:induction false} AcceptedCall(st: State, e: Expr, prec: nat, rest: Tokens, sg: Signatures)
    requires e.Call? && Ready(st, sg) && prec > 0
    requires st.toks == BareThen(e, rest) && FitExpr(e, st.locals, sg)
    requires ParsePrecedence(st, prec).fault == NoFault
    ensures OkExpr(e, st.locals, sg, |st.types|)
    decreases e, 1
  {
    hide Infixes, WfOutput, Exact, PlainParams, OkArgs, CallFunction, ParsePrecedence, ArgsThen, FitArgs, Variable, Find, Table;
    OnePrefix(st, prec);
    var st1 := Advance(st);
    assert Prefix(st1) == Variable(st1, e.f);
    CallNeedsFunction(st1, e.f);
    var i := Find(st.out.funcs, e.f);
    TableIsExact(st.out.funcs, sg, i);
    CallAccepted(Advance(st1), e, i, rest, sg);
  }

  /** A name that is called must be that of a function. */
  lemma CallNeedsFunction(st: State, x: Name)
    requires Current(st) == LPAREN && Variable(st, x).fault == NoFault
    ensures !Known(st.locals, x) && Find(st.out.funcs, x) >= 0
    ensures Variable(st, x) == CallFunction(Advance(st), Find(st.out.funcs, x))
  {
    hide Find, IsNative, CallFunction;
  }

  lemma TableIsExact(funcs: seq<Function>, sg: Signatures, i: nat)
    requires i < |funcs| && Exact(funcs, sg)
    ensures funcs[i].name in sg
  {}

  lemma {:induction false} CallAccepted(st: State, e: Expr, i: nat, rest: Tokens, sg: Signatures)
    requires e.Call? && Ready(st, sg) && i == Find(st.out.funcs, e.f) && e.f in sg
    requires st.toks == ArgsThen(e.args, On(RPAREN, rest)) && FitArgs(e.args, st.locals, sg)
    requires CallFunction(st, i).fault == NoFault
    ensures OkArgs(e.args, st.locals, sg, sg[e.f].params, |st.types|) && |st.types| < STACK_MAX
    decreases e, 0
  {
    hide Emitted, WfOutput, Exact, OkArgs, ArgsCode, EmitCall, Arguments, ArgsThen, FitArgs, Find, IsNative, Count, FinishCall;
    var f, env := st.out.funcs[i], st.locals;
    assert f.params == sg[e.f].params && f.params[0..] == f.params;
    if e.args.NoArgs? {
      EmptyArgs(On(RPAREN, rest), env);
      FinishAccepted(ArgsResult(st, 0), i, f);
      OkNoArgs(env, sg, |st.types|);
    } else {
      FirstArg(e.args, On(RPAREN, rest));
      var args := Arguments(st, f.params, 0);
      FinishAccepted(args, i, f);
      AcceptedArgs(st, e.args, f.params, 0, rest, sg);
      ParseArgs(st, e.args, f.params, 0, rest, sg);
    }
  }

  lemma OkNoArgs(env: Scope, sg: Signatures, depth: nat)
    ensures OkArgs(NoArgs, env, sg, [], depth)
  {}

  lemma FinishAccepted(args: ArgsResult, i: nat, f: Function)
    requires i < |args.st.out.funcs| && f.ret.Some? && FinishCall(args, i, f).fault == NoFault
    ensures args.st.fault == NoFault && args.count == |f.params| && |args.st.types| < STACK_MAX
  {
    hide EmitCall;
  }

  // ----- simple statements -----

  predicate Looped(st: State) {
    st.out.loops != []
  }

  /** The compiler before a statement. */
  predicate AtFit(st: State, cx: Context) {
    AtStmt(st, cx, 0) && Exact(st.out.funcs, cx.sg) && PlainParams(cx.sg) && cx.ret != TAny
  }

  /** A statement that obeys the rules, and that the compiler accepts. */
  predicate Offered(st: State, s: Stmt, cx: Context, rest: Tokens) {
    && AtFit(st, cx) && FitStmt(s, cx, st.locals, Looped(st))
    && st.toks == StmtThen(s, rest) && Statement(st).fault == NoFault
  }

  lemma AtFitIsReady(st: State, cx: Context)
    requires AtFit(st, cx)
    ensures AtStmt(st, cx, 0) && Ready(st, cx.sg) && st.types == [] && st.ret == Some(cx.ret) && WfOutput(st.out)
    ensures st.fault == NoFault && |st.locals| <= LOCALS_PER_FRAME && cx.ret != TAny
  {
    hide WfOutput, Table, Exact, PlainParams;
  }

  lemma AtFitAfter(st: State, r: State, cx: Context, rcx: Context, c: Code)
    requires AtFit(st, cx) && r.out == Emitted(st.out, c) && AtStmt(r, rcx, 0) && rcx.sg == cx.sg && rcx.ret == cx.ret
    ensures AtFit(r, rcx) && Looped(r) == Looped(st)
  {
    hide Emitted, WfOutput, Table, PlainParams, Exact;
    EmitKeepsTable(st.out, c);
    SameNames(st.out.funcs, r.out.funcs, cx.sg);
  }

  /** If n more breaks fit after the code c, they fit together with its own. */
  lemma BreaksBefore(st: State, r: State, cx: Context, rcx: Context, c: Code, n: nat)
    requires AtStmt(st, cx, 0) && r.out == Emitted(st.out, c) && AtStmt(r, rcx, n)
    ensures AtStmt(st, cx, |Sites(c, Here(st), BreakHole)| + n)
  {
    hide Emitted, WfOutput, Table, Sites;
    EmittedKeeps(st.out, c);
  }

  /** The expression that a statement starts with. */
  lemma AcceptedFirst(st: State, e: Expr, cx: Context, rest: Tokens)
    requires AtFit(st, cx) && FitExpr(e, st.locals, cx.sg) && Statement(st).fault == NoFault
    requires st.toks == ExprThen(e, PREC_OR, rest) && Calm(rest, PREC_OR)
    ensures OkExpr(e, st.locals, cx.sg, 0)
    ensures Statement(st) == FinishStatement(Expression(st), Here(st)) && Expression(st).fault == NoFault
  {
    hide OkExpr, FitExpr, ExprThen, AtFit, Ready, FinishStatement, ParsePrecedence;
    AtFitIsReady(st, cx);
    FirstToken(e, PREC_OR, rest);
    Dispatch(st);
    AcceptedExpr(st, e, PREC_OR, PREC_ASSIGNMENT, rest, cx.sg);
  }

  lemma AcceptedEval(st: State, s: Stmt, cx: Context, rest: Tokens)
    requires (s.Eval? || s.Print?) && Offered(st, s, cx, rest)
    ensures OkStmt(s, cx, st.locals)
  {
    hide OkExpr, FitExpr, ExprThen, AtFit, TypeOf, Statement, FinishStatement, Expression;
    AcceptedFirst(st, s.e, cx, if s.Eval? then On(SEMICOLON, rest) else On(BANG_BANG, On(SEMICOLON, rest)));
  }

  lemma AcceptedAssign(st: State, s: Stmt, cx: Context, rest: Tokens)
    requires s.Assign? && Offered(st, s, cx, rest)
    ensures OkStmt(s, cx, st.locals)
  {
    hide OkExpr, FitExpr, ExprThen, AtFit, TypeOf, Statement, FinishStatement, Expression, Infixes, Assignment, AtStmt, Ready, Last,
      Emitted, ExprCode, WfOutput;
    var after := On(ASSIGN, if s.declared.None? then On(ID(s.x), On(SEMICOLON, rest))
                            else On(ID(s.x), On(COLON, On(ID(TypeName(s.declared.value)), On(SEMICOLON, rest)))));
    AssignTokens(s, rest, after);
    AcceptedFirst(st, s.e, cx, after);
    AtFitIsReady(st, cx);
    ExprDone(st, s.e, cx, 0, after);
    var st1 := AfterExpr(st, s.e, after, cx.sg);
    InfixIsAssignment(st1);
    AssignmentAccepted(Advance(st1), s, rest, TypeOf(s.e, st.locals, cx.sg));
  }

  lemma InfixIsAssignment(st: State)
    requires st.toks.Tok? && st.toks.head == Token(ASSIGN, LINE) && st.prev.line == LINE
    ensures Infixes(st, PREC_ASSIGNMENT) == Infixes(Assignment(Advance(st)), PREC_ASSIGNMENT)
  {
    hide Assignment;
  }

  lemma AssignmentAccepted(st: State, s: Stmt, rest: Tokens, v: Type)
    requires s.Assign? && st.types == [v] && FitAssign(s.x, s.declared, st.locals)
    requires st.toks == (if s.declared.None? then On(ID(s.x), On(SEMICOLON, rest))
                         else On(ID(s.x), On(COLON, On(ID(TypeName(s.declared.value)), On(SEMICOLON, rest)))))
    requires Assignment(st).fault == NoFault
    ensures OkAssign(s.x, s.declared, v, st.locals)
  {
    hide StoreTo, ParseType, Resolve;
    if s.declared.Some? {
      TypeNameParsed(Advance(Advance(st)), s.declared.value, rest);
    }
  }

  /** break and continue need a loop, and a loop takes BREAKS_MAX breaks. */
  lemma AcceptedBreak(st: State, s: Stmt, cx: Context, rest: Tokens)
    requires (s.Break? || s.Continue?) && Offered(st, s, cx, rest)
    ensures OkStmt(s, cx, st.locals) && AtStmt(st, cx, StmtBreaks(s))
  {
    hide Infixes, AtFit, AtStmt, FinishStatement, Statement, Prefix, BreakOp, ContinueOp, ParsePrecedence, Looped;
    var st1 := Advance(st);
    AtFitIsReady(st, cx);
    Dispatch(st);
    ExpressionIs(st);
    OnePrefix(st, PREC_ASSIGNMENT);
    PrefixRules(st1);
    JumpsNeedLoop(st1);
    SameLoops(st, st1);
    OneMoreBreak(st, cx);
  }

  lemma SameLoops(st: State, r: State)
    requires r.out == st.out
    ensures Looped(r) == Looped(st) && BreaksSoFar(r.out) == BreaksSoFar(st.out)
  {}

  lemma OneMoreBreak(st: State, cx: Context)
    requires AtStmt(st, cx, 0)
    ensures BreaksSoFar(st.out) < BREAKS_MAX ==> AtStmt(st, cx, 1)
  {
    hide Prepared;
  }

  lemma JumpsNeedLoop(st: State)
    ensures BreakOp(st).fault == NoFault ==> Looped(st) && BreaksSoFar(st.out) < BREAKS_MAX
    ensures ContinueOp(st).fault == NoFault ==> Looped(st)
  {
    hide Encode, EmitBreak, Narrow;
  }

  lemma AcceptedReturn(st: State, s: Stmt, cx: Context, rest: Tokens)
    requires (s.Return? || s.Throw?) && Offered(st, s, cx, rest)
    ensures OkStmt(s, cx, st.locals)
  {
    hide OkExpr, OkStmt, FitExpr, FitStmt, ExprThen, StmtThen, AtFit, AtStmt, Statement, FinishStatement, Expression, Infixes, Ready,
      Prefix, ReturnOp, ThrowOp;
    var st1 := Advance(st);
    AtFitIsReady(st, cx);
    ReturnTokens(s, rest);
    Dispatch(st);
    ExpressionIs(st);
    OnePrefix(st, PREC_ASSIGNMENT);
    PrefixRules(st1);
    ReadyMoves(st, st1, cx.sg);
    ResultAccepted(st1, s, cx, rest, st.locals);
  }

  lemma ReturnTokens(s: Stmt, rest: Tokens)
    requires s.Return? || s.Throw?
    ensures StmtThen(s, rest) == On(if s.Return? then HAT else KEY_THROW, ExprThen(s.e, PREC_OR, On(SEMICOLON, rest)))
  {
    hide ExprThen;
  }

  /** The expression behind return or throw. */
  lemma ResultAccepted(st: State, s: Stmt, cx: Context, rest: Tokens, env: Scope)
    requires (s.Return? || s.Throw?) && Ready(st, cx.sg) && st.types == [] && st.prev.line == LINE && st.locals == env
    requires st.ret == Some(cx.ret) && cx.ret != TAny && FitStmt(s, cx, env, Looped(st))
    requires st.toks == ExprThen(s.e, PREC_OR, On(SEMICOLON, rest))
    requires (if s.Return? then ReturnOp(st) else ThrowOp(st)).fault == NoFault
    ensures OkStmt(s, cx, env)
  {
    hide OkExpr, FitExpr, ExprThen, TypeOf, Expression, Infixes, Ready, Last, Emitted, ExprCode, ReturnOp, ThrowOp, ParsePrecedence;
    FirstToken(s.e, PREC_OR, On(SEMICOLON, rest));
    ReturnNeedsValue(st);
    ExpressionIs(st);
    ReadyIsPrepared(st, cx.sg);
    AcceptedExpr(st, s.e, PREC_OR, PREC_ASSIGNMENT, On(SEMICOLON, rest), cx.sg);
    ParseExpr(st, s.e, PREC_OR, PREC_ASSIGNMENT, On(SEMICOLON, rest), cx.sg);
    InfixesStop(Parsed(st, s.e, Last(s.e, PREC_OR), On(SEMICOLON, rest), cx.sg), PREC_ASSIGNMENT);
  }

  lemma ReadyIsPrepared(st: State, sg: Signatures)
    requires Ready(st, sg)
    ensures Prepared(st, sg)
  {}

  lemma ExpressionIs(st: State)
    ensures Expression(st) == ParsePrecedence(st, PREC_ASSIGNMENT)
  {
    hide ParsePrecedence;
  }

  lemma ReturnNeedsValue(st: State)
    requires st.toks.Tok? && Grammar.StartsExpr(st.toks.head.kind) && st.toks.head.line == st.prev.line
    ensures ThrowOp(st).fault == NoFault ==> Expression(st).fault == NoFault
    ensures ReturnOp(st).fault == NoFault ==> Expression(st).fault == NoFault
    ensures ReturnOp(st).fault == NoFault && Expression(st).ret.Some?
        ==> Assignable(Expression(st).ret.value, TopType(Expression(st)))
  {
    hide Expression, Encode;
  }

  // ----- compound statements -----

  /** Behind the test of a statement the compiler is before its body. */
  lemma TestFit(st: State, stg: State, cx: Context, c: Expr)
    requires AtFit(st, cx) && stg.out == Put(Emitted(st.out, CondCode(c, st.locals, cx.sg)), Encode(JUMP_IF_F(0)))
    requires stg.fault == NoFault && stg.types == [] && stg.ret == st.ret && stg.locals == st.locals
    ensures AtFit(stg, cx) && Looped(stg) == Looped(st)
    ensures forall n: nat :: AtStmt(stg, cx, n) ==> AtStmt(st, cx, n)
  {
    hide Emitted, WfOutput, Encode, Put, CondCode, AtStmt, AtFit, Ready;
    var cc := CondCode(c, st.locals, cx.sg);
    AtFitIsReady(st, cx);
    Kept(st.out, cc);
    ThenIns(st.out, cc, JUMP_IF_F(0));
    CondHasNoBreaks(c, st.locals, cx.sg, Here(st));
    NoSitesInTest(cc, JUMP_IF_F(0), Here(st));
    TestOutput(st, stg, cx, c, 0);
    AtFitAfter(st, stg, cx, cx, Cat(cc, Ins(JUMP_IF_F(0))));
    forall n: nat | AtStmt(stg, cx, n)
      ensures AtStmt(st, cx, n)
    {
      BreaksBefore(st, stg, cx, cx, Cat(cc, Ins(JUMP_IF_F(0))), n);
    }
  }

  lemma IfNeedsArm(st: State)
    ensures IfStatement(st).fault == NoFault ==> BlockOrStatement(Gen(st, JUMP_IF_F(0))).fault == NoFault
  {
    hide BlockOrStatement, ElseBranch, Encode, Patch;
  }

  lemma ElseNeedsArm(st: State, b: State, mid: State)
    requires b == BlockOrStatement(Gen(st, JUMP_IF_F(0))) && |b.types| == 1 && b.toks == On(COLON, mid.toks) && b.fault == NoFault
    requires var o := Put(b.out, Encode(JUMP(0)));
      mid == State(mid.toks, Token(COLON, LINE), [], b.locals, b.ret, PatchTo(o, Here(st) + 1, |o.code|), NoFault)
    ensures IfStatement(st).fault == NoFault ==> BlockOrStatement(mid).fault == NoFault
  {
    hide BlockOrStatement, Encode, Put, PatchTo, ElseBranch;
    var st3 := Fix(Gen(PopType(b), JUMP(0)), Here(st) + 1);
    assert st3 == mid.(toks := b.toks, prev := b.prev);
    ElseIs(st3, TopType(b));
  }

  lemma ElseIs(st: State, t: Type)
    requires Current(st) == COLON
    ensures ElseBranch(st, t).fault == NoFault ==> BlockOrStatement(Advance(st)).fault == NoFault
  {
    hide BlockOrStatement;
  }

  lemma LoopNeedsBody(st: State, start: nat)
    ensures LoopStatement(st, start).fault == NoFault
        ==> BlockOrStatement(Gen(st.(out := PushLoop(st.out, start)), JUMP_IF_F(0))).fault == NoFault
  {
    hide BlockOrStatement, Encode, EndLoop, Narrow;
  }

  lemma TryNeedsBody(st: State)
    ensures TryStatement(st).fault == NoFault ==> BlockRule(Gen(st, TRY(0))).fault == NoFault
  {
    hide BlockRule, Encode, CatchClause, Patch;
  }

  lemma CatchNeedsHandler(st: State, mid: State, x: Name, leave: nat)
    requires |st.locals| < 256 && st.toks == On(KEY_CATCH, On(ID(x), mid.toks))
    requires mid == State(mid.toks, Token(ID(x), LINE), [], st.locals + [Local(x, TAny)], st.ret,
                          Put(st.out, Encode(STORE(SlotByte(|st.locals|)))), st.fault)
    requires st.types == []
    ensures CatchClause(st, leave).fault == NoFault ==> BlockRule(mid).fault == NoFault
  {
    hide BlockRule, Encode, PatchTo, SlotByte;
  }

  /** The condition and the first arm of an if. */
  lemma {:induction false} AcceptedArm(st: State, c: Expr, b: Block, cx: Context, after: Tokens)
    requires AtFit(st, cx) && FitExpr(c, st.locals, cx.sg) && FitBlock(b, cx, st.locals, Looped(st))
    requires st.toks == ExprThen(c, PREC_OR, On(QUESTION, BlockThen(b, after))) && Statement(st).fault == NoFault
    ensures OkExpr(c, st.locals, cx.sg, 0) && OkBlock(b, cx, st.locals) && AtStmt(st, cx, Breaks(b))
    decreases b, 4
  {
    hide OkExpr, FitExpr, FitBlock, OkBlock, ExprThen, BlockThen, AtFit, AtStmt, Statement, IfStatement, BlockRule, BlockOrStatement,
      Emitted, CondCode, Encode, Put, WfOutput, Breaks, FinishStatement, Expression;
    AcceptedFirst(st, c, cx, On(QUESTION, BlockThen(b, after)));
    AtFitIsReady(st, cx);
    var st2 := TestDone(st, c, cx, 0, QUESTION, BlockThen(b, after));
    var stg := Gen(st2, JUMP_IF_F(0));
    TestFit(st, stg, cx, c);
    IfNeedsArm(st2);
    BlockTokens(b, after);
    BodyBlock(stg);
    AcceptedBlock(stg, b, cx, after);
  }

  lemma IfElseTokens(s: Stmt, rest: Tokens)
    requires s.IfElse?
    ensures StmtThen(s, rest) == ExprThen(s.cond, PREC_OR, On(QUESTION,
              BlockThen(s.thn, On(COLON, BlockThen(s.els, On(SEMICOLON, rest))))))
    ensures StmtBreaks(s) == Breaks(s.thn) + Breaks(s.els)
  {
    hide ExprThen, BlockThen, Breaks;
  }

  lemma WhileTokens(s: Stmt, rest: Tokens)
    requires s.While?
    ensures StmtThen(s, rest) == ExprThen(s.cond, PREC_OR, On(AT, BlockThen(s.body, On(SEMICOLON, rest)))) && StmtBreaks(s) == 0
  {
    hide ExprThen, BlockThen;
  }

  lemma TryTokens(s: Stmt, rest: Tokens)
    requires s.Try?
    ensures StmtThen(s, rest) == On(KEY_TRY, BlockThen(s.body, On(KEY_CATCH, On(ID(s.err), BlockThen(s.handler, rest)))))
    ensures StmtBreaks(s) == Breaks(s.body) + Breaks(s.handler)
  {
    hide BlockThen, Breaks;
  }

  lemma {:induction false} AcceptedIf(st: State, s: Stmt, cx: Context, rest: Tokens)
    requires s.If? && Offered(st, s, cx, rest)
    ensures OkStmt(s, cx, st.locals) && AtStmt(st, cx, StmtBreaks(s))
    decreases s, 0
  {
    hide OkExpr, OkStmt, FitExpr, FitBlock, FitStmt, OkBlock, ExprThen, BlockThen, AtFit, AtStmt, Statement, Breaks;
    FitParts(s, cx, st.locals, Looped(st));
    AcceptedArm(st, s.cond, s.thn, cx, On(SEMICOLON, rest));
    OkFromParts(s, cx, st.locals, Looped(st));
  }

  lemma {:induction false} AcceptedIfElse(st: State, s: Stmt, cx: Context, rest: Tokens)
    requires s.IfElse? && Offered(st, s, cx, rest)
    ensures OkStmt(s, cx, st.locals) && AtStmt(st, cx, StmtBreaks(s))
    decreases s, 0
  {
    hide OkExpr, OkStmt, FitExpr, FitBlock, FitStmt, OkBlock, ExprThen, StmtThen, BlockThen, AtFit, AtStmt, Statement, Breaks,
      StmtBreaks, BlockScope, Looped;
    var env := st.locals;
    FitParts(s, cx, env, Looped(st));
    IfElseTokens(s, rest);
    AcceptedArm(st, s.cond, s.thn, cx, On(COLON, BlockThen(s.els, On(SEMICOLON, rest))));
    AcceptedElse(st, s, cx, rest);
    OkFromParts(s, cx, env, Looped(st));
  }

  /** The second arm of an if. */
  lemma {:induction false} AcceptedElse(st: State, s: Stmt, cx: Context, rest: Tokens)
    requires s.IfElse? && AtFit(st, cx) && st.toks == StmtThen(s, rest) && Statement(st).fault == NoFault
    requires FitBlock(s.els, cx, BlockScope(s.thn, st.locals, cx.sg), Looped(st))
    requires OkExpr(s.cond, st.locals, cx.sg, 0) && OkBlock(s.thn, cx, st.locals) && AtStmt(st, cx, Breaks(s.thn))
    ensures OkBlock(s.els, cx, BlockScope(s.thn, st.locals, cx.sg)) && AtStmt(st, cx, Breaks(s.thn) + Breaks(s.els))
    decreases s, -1
  {
    hide OkExpr, FitBlock, OkBlock, StmtThen, BlockThen, AtFit, AtStmt, Statement, Breaks, BlockType, BlockScope, Emitted, CondCode,
      BlockCode, Encode, Put, PatchTo, WfOutput, IfStatement, BlockOrStatement, BlockRule, Sites, Size, JumpIfFalse, Ready, Cont, Looped;
    var env, sg := st.locals, cx.sg;
    AtFitIsReady(st, cx);
    var st2, b, mid := ElseReached(st, s, cx, rest, 0);
    var cc := CondCode(s.cond, env, sg);
    var at := Here(st) + Size(cc) + 5;
    var ct := BlockCode(s.thn, env, sg, at, Cont(st.out));
    var tree := Cat(Cat(cc, JumpIfFalse(at + Size(ct) + 5)), Cat(ct, Ins(JUMP(0))));
    AtFitAfter(st, mid, cx, cx, tree);
    ElseNeedsArm(st2, b, mid);
    BlockTokens(s.els, On(SEMICOLON, rest));
    BodyBlock(mid);
    AcceptedBlock(mid, s.els, cx, On(SEMICOLON, rest));
    BreaksBefore(st, mid, cx, cx, tree, Breaks(s.els));
    SitesArm(s.cond, s.thn, env, sg, at, Cont(st.out), JUMP_IF_F(Narrow(at + Size(ct) + 5)), JUMP(0), Here(st));
    JumpIs(at + Size(ct) + 5);
  }

  lemma JumpIs(target: nat)
    ensures JumpIfFalse(target) == Ins(JUMP_IF_F(Narrow(target)))
  {}

  /** The parts of a compound statement that obeys the rules. */
  lemma FitParts(s: Stmt, cx: Context, env: Scope, looped: bool)
    requires FitStmt(s, cx, env, looped)
    ensures s.If? ==> FitExpr(s.cond, env, cx.sg) && FitBlock(s.thn, cx, env, looped)
    ensures s.IfElse? ==>
      && FitExpr(s.cond, env, cx.sg) && FitBlock(s.thn, cx, env, looped)
      && FitBlock(s.els, cx, BlockScope(s.thn, env, cx.sg), looped)
    ensures s.While? ==> FitExpr(s.cond, env, cx.sg) && FitBlock(s.body, cx.(mayBreak := true), env, true)
    ensures s.Try? ==>
      var env1 := BlockScope(s.body, env, cx.sg);
      && FitBlock(s.body, cx.(mayBreak := false, mayReturn := false), env, looped)
      && FitBlock(s.handler, cx, env1 + [Local(s.err, TAny)], looped) && |env1| < LOCALS_PER_FRAME
  {
    hide FitExpr, FitBlock, BlockScope, BlockType, BlockCompletes, TypeOf, StmtType, Known;
  }

  /** It is well formed when its parts are. */
  lemma OkFromParts(s: Stmt, cx: Context, env: Scope, looped: bool)
    requires FitStmt(s, cx, env, looped) && (s.If? || s.IfElse? || s.While? || s.Try?)
    requires s.If? ==> OkExpr(s.cond, env, cx.sg, 0) && OkBlock(s.thn, cx, env)
    requires s.IfElse? ==>
      OkExpr(s.cond, env, cx.sg, 0) && OkBlock(s.thn, cx, env) && OkBlock(s.els, cx, BlockScope(s.thn, env, cx.sg))
    requires s.While? ==>
      OkExpr(s.cond, env, cx.sg, 0) && OkBlock(s.body, cx.(mayBreak := true), env) && Breaks(s.body) <= BREAKS_MAX
    requires s.Try? ==>
      && OkBlock(s.body, cx.(mayBreak := false, mayReturn := false), env)
      && OkBlock(s.handler, cx, BlockScope(s.body, env, cx.sg) + [Local(s.err, TAny)])
    ensures OkStmt(s, cx, env)
  {
    hide OkExpr, OkBlock, FitExpr, FitBlock, BlockScope, Breaks, BlockType, BlockCompletes, TypeOf, StmtType, Known;
  }

  lemma {:induction false} AcceptedWhile(st: State, s: Stmt, cx: Context, rest: Tokens)
    requires s.While? && Offered(st, s, cx, rest)
    ensures OkStmt(s, cx, st.locals) && AtStmt(st, cx, StmtBreaks(s))
    decreases s, 0
  {
    hide OkExpr, OkStmt, FitExpr, FitBlock, FitStmt, OkBlock, ExprThen, StmtThen, BlockThen, AtFit, AtStmt, Statement, Breaks,
      StmtBreaks, Emitted, CondCode, Encode, Put, WfOutput, LoopStatement, BlockOrStatement, BlockRule, FinishStatement, Expression,
      Ready, Looped;
    FitParts(s, cx, st.locals, Looped(st));
    WhileTokens(s, rest);
    var body := BlockThen(s.body, On(SEMICOLON, rest));
    AcceptedFirst(st, s.cond, cx, On(AT, body));
    AtFitIsReady(st, cx);
    var st2 := TestDone(st, s.cond, cx, 0, AT, body);
    var stg := Gen(st2.(out := PushLoop(st2.out, Here(st))), JUMP_IF_F(0));
    LoopFit(st, stg, cx, s.cond);
    LoopNeedsBody(st2, Here(st));
    BlockTokens(s.body, On(SEMICOLON, rest));
    BodyBlock(stg);
    AcceptedBlock(stg, s.body, cx.(mayBreak := true), On(SEMICOLON, rest));
    NewLoop(stg, cx.(mayBreak := true), Breaks(s.body));
    OkFromParts(s, cx, st.locals, Looped(st));
  }

  /** The compiler at the start of the body of a new loop. */
  lemma LoopFit(st: State, stg: State, cx: Context, c: Expr)
    requires AtFit(st, cx)
    requires stg.out == Put(PushLoop(Emitted(st.out, CondCode(c, st.locals, cx.sg)), Here(st)), Encode(JUMP_IF_F(0)))
    requires stg.fault == NoFault && stg.types == [] && stg.ret == st.ret && stg.locals == st.locals
    ensures AtFit(stg, cx.(mayBreak := true)) && Looped(stg) && BreaksSoFar(stg.out) == 0
  {
    hide Emitted, WfOutput, Encode, CondCode, Exact, PlainParams, Table;
    LoopOutput(st, stg, cx, c, 0, 0);
    EmitKeepsTable(st.out, CondCode(c, st.locals, cx.sg));
    SameNames(st.out.funcs, stg.out.funcs, cx.sg);
  }

  lemma NewLoop(st: State, cx: Context, n: nat)
    requires AtStmt(st, cx, n) && Looped(st)
    ensures BreaksSoFar(st.out) + n <= BREAKS_MAX
  {}

  /** The body of a try. */
  lemma {:induction false} AcceptedGuard(st: State, s: Stmt, cx: Context, rest: Tokens)
    requires s.Try? && Offered(st, s, cx, rest)
    ensures OkBlock(s.body, cx.(mayBreak := false, mayReturn := false), st.locals) && AtStmt(st, cx, Breaks(s.body))
    decreases s, -1
  {
    hide OkBlock, FitBlock, FitStmt, StmtThen, BlockThen, AtFit, AtStmt, Breaks, StmtBreaks, BlockScope, Emitted, Encode, Put, WfOutput,
      TryStatement, BlockRule, Expression, FinishStatement, Ready, Looped;
    var inTry := cx.(mayBreak := false, mayReturn := false);
    var st1 := Advance(st);
    var g := Gen(st1, TRY(0));
    FitParts(s, cx, st.locals, Looped(st));
    TryTokens(s, rest);
    assert Statement(st) == TryStatement(st1);
    AtFitIsReady(st, cx);
    EmitIns(st.out, TRY(0));
    GuardOutput(st, g, cx, 0, 0);
    AtFitAfter(st, g, cx, inTry, Ins(TRY(0)));
    TryNeedsBody(st1);
    AcceptedBlock(g, s.body, inTry, On(KEY_CATCH, On(ID(s.err), BlockThen(s.handler, rest))));
    InsHasNoBreaks(TRY(0), Here(st));
    BreaksBefore(st, g, cx, inTry, Ins(TRY(0)), Breaks(s.body));
  }

  lemma {:induction false} AcceptedTry(st: State, s: Stmt, cx: Context, rest: Tokens)
    requires s.Try? && Offered(st, s, cx, rest)
    ensures OkStmt(s, cx, st.locals) && AtStmt(st, cx, StmtBreaks(s))
    decreases s, 0
  {
    hide OkBlock, OkStmt, FitBlock, FitStmt, StmtThen, BlockThen, AtFit, AtStmt, Breaks, StmtBreaks, BlockScope, Emitted, BlockCode,
      Encode, Put, PatchTo, WfOutput, Statement, CatchClause, BlockRule, Sites, Size, Narrow, SlotByte, Ready, Cont, Looped, StoreIn, Ins;
    var env, sg := st.locals, cx.sg;
    AcceptedGuard(st, s, cx, rest);
    AtFitIsReady(st, cx);
    FitParts(s, cx, env, Looped(st));
    TryTokens(s, rest);
    var env1 := BlockScope(s.body, env, sg);
    var st2, leave, mid := HandlerReached(st, s, cx, rest, 0);
    CatchNeedsHandler(st2, mid, s.err, leave);
    var cb := BlockCode(s.body, env, sg, Here(st) + 5, Cont(st.out));
    var catchAt := Here(st) + 5 + Size(cb) + 6;
    var tree := Cat(Cat(Ins(TRY(Narrow(catchAt))), Cat(Cat(cb, Ins(END_TRY)), Ins(JUMP(0)))), StoreIn(|env1|));
    AtFitAfter(st, mid, cx, cx, tree);
    AcceptedBlock(mid, s.handler, cx, rest);
    BreaksBefore(st, mid, cx, cx, tree, Breaks(s.handler));
    SitesGuarded(s.body, env, sg, Here(st) + 5, Cont(st.out), Narrow(catchAt), |env1|, Here(st));
    OkFromParts(s, cx, env, Looped(st));
  }

  // ----- all statements and blocks -----

  /** A printed statement that obeys the rules, and that statement accepts, is well formed. */
  lemma {:induction false} AcceptedStmt(st: State, s: Stmt, cx: Context, rest: Tokens)
    requires Offered(st, s, cx, rest)
    ensures Given(st, s, cx, rest)
    decreases s, 1
  {
    hide OkStmt, FitStmt, AtStmt, StmtThen, Statement, Exact, PlainParams;
    match s
    case Eval(_) => AcceptedEval(st, s, cx, rest);
    case Assign(_, _, _) => AcceptedAssign(st, s, cx, rest);
    case Print(_) => AcceptedEval(st, s, cx, rest);
    case If(_, _) => AcceptedIf(st, s, cx, rest);
    case IfElse(_, _, _) => AcceptedIfElse(st, s, cx, rest);
    case While(_, _) => AcceptedWhile(st, s, cx, rest);
    case Break => AcceptedBreak(st, s, cx, rest);
    case Continue => AcceptedBreak(st, s, cx, rest);
    case Return(_) => AcceptedReturn(st, s, cx, rest);
    case Throw(_) => AcceptedReturn(st, s, cx, rest);
    case Try(_, _, _) => AcceptedTry(st, s, cx, rest);
  }

  lemma {:induction false} AcceptedBlock(st: State, b: Block, cx: Context, rest: Tokens)
    requires AtFit(st, cx) && FitBlock(b, cx, st.locals, Looped(st)) && st.toks == BlockThen(b, rest)
    requires BlockRule(st).fault == NoFault
    ensures OkBlock(b, cx, st.locals) && AtStmt(st, cx, Breaks(b))
    decreases b, 3
  {
    hide FitBlock, OkBlock, WfOutput, Table, Exact, PlainParams, Parsing.Statements, StmtsThen, Breaks;
    var st1 := Advance(st);
    assert BlockRule(st) == Consume(Parsing.Statements(st1, true), RBRACKET);
    AcceptedStatements(st1, b, cx, rest);
  }

  lemma {:induction false} AcceptedStatements(st: State, b: Block, cx: Context, rest: Tokens)
    requires AtFit(st, cx) && FitBlock(b, cx, st.locals, Looped(st)) && st.toks == StmtsThen(b, On(RBRACKET, rest))
    requires Parsing.Statements(st, true).fault == NoFault
    ensures OkBlock(b, cx, st.locals) && AtStmt(st, cx, Breaks(b))
    decreases b, 2
  {
    hide FitStmt, OkStmt, AtStmt, AtFit, StmtThen, Parsing.Statements, Statement, StmtBreaks, StmtScope, Discard, Given;
    AtFitIsReady(st, cx);
    if b.Then? {
      AcceptedThen(st, b.s, b.rest, cx, rest);
    }
  }

  lemma {:induction false} AcceptedThen(st: State, s: Stmt, others: Block, cx: Context, rest: Tokens)
    requires AtFit(st, cx) && FitStmt(s, cx, st.locals, Looped(st))
    requires FitBlock(others, cx, StmtScope(s, st.locals, cx.sg), Looped(st))
    requires st.toks == StmtsThen(Then(s, others), On(RBRACKET, rest)) && Parsing.Statements(st, true).fault == NoFault
    ensures OkStmt(s, cx, st.locals) && OkBlock(others, cx, StmtScope(s, st.locals, cx.sg))
    ensures AtStmt(st, cx, StmtBreaks(s) + Breaks(others))
    decreases Then(s, others), 1
  {
    hide FitStmt, FitBlock, OkStmt, OkBlock, AtStmt, AtFit, StmtThen, Parsing.Statements, Statement, StmtBreaks, StmtScope, StmtType,
      StmtCode, Discard, Emitted, WfOutput, Cont, Looped;
    OkEnd(cx, StmtScope(s, st.locals, cx.sg));
    var more := StmtsThen(others, On(RBRACKET, rest));
    AtFitIsReady(st, cx);
    FirstOfStmt(s, more);
    StatementsStep(st, true);
    AcceptedStmt(st, s, cx, more);
    ParseStmt(st, s, cx, more);
    if others != End {
      AcceptedOthers(st, s, others, cx, rest, StmtParsed(st, s, LastOf(s), more, cx.sg));
    }
  }

  lemma OkEnd(cx: Context, env: Scope)
    ensures OkBlock(End, cx, env) && Breaks(End) == 0
  {}

  /** The rest of a block after its first statement. */
  lemma {:induction false} AcceptedOthers(st: State, s: Stmt, others: Block, cx: Context, rest: Tokens, st1: State)
    requires others != End && AtFit(st, cx) && OkStmt(s, cx, st.locals) && AtStmt(st, cx, StmtBreaks(s))
    requires FitBlock(others, cx, StmtScope(s, st.locals, cx.sg), Looped(st))
    requires st1 == StmtParsed(st, s, LastOf(s), StmtsThen(others, On(RBRACKET, rest)), cx.sg)
    requires Parsing.Statements(st1, false).fault == NoFault
    ensures OkBlock(others, cx, StmtScope(s, st.locals, cx.sg)) && AtStmt(st, cx, StmtBreaks(s) + Breaks(others))
    decreases Then(s, others), 0
  {
    hide FitBlock, OkStmt, OkBlock, AtStmt, AtFit, StmtThen, Parsing.Statements, StmtBreaks, Breaks, StmtScope, StmtType, StmtCode,
      Emitted, PopCode, Sites, WfOutput, Size, Cont, Looped;
    var cs, cp := StmtCode(s, st.locals, cx.sg, Here(st), Cont(st.out)), PopCode(s, st.locals, cx.sg);
    AtFitIsReady(st, cx);
    var st2 := NextReached(st, s, others, cx, rest, st1, 0);
    AtFitAfter(st, st2, cx, cx, Cat(cs, cp));
    AcceptedStatements(st2, others, cx, rest);
    BreaksBefore(st, st2, cx, cx, Cat(cs, cp), Breaks(others));
    SitesOfTwo(s, st.locals, cx.sg, Here(st), Cont(st.out));
  }

  // ----- why a handler declares nothing -----

  /** The compiler accepts a handler that declares locals, but at its end it drops the newest local, whatever
      that is: the error variable and nothing else goes out of scope if and only if the handler declares
      nothing. */
  lemma CatchScope(st: State, s: Stmt, cx: Context, rest: Tokens)
    requires s.Try? && AtStmt(st, cx, StmtBreaks(s)) && st.toks == StmtThen(s, rest)
    requires OkBlock(s.body, cx.(mayBreak := false, mayReturn := false), st.locals)
    requires var env1 := BlockScope(s.body, st.locals, cx.sg);
      |env1| < LOCALS_PER_FRAME && OkBlock(s.handler, cx, env1 + [Local(s.err, TAny)])
    ensures Statement(st).fault == NoFault
    ensures var env1 := BlockScope(s.body, st.locals, cx.sg);
      var env2 := env1 + [Local(s.err, TAny)];
      Statement(st).locals == env1 <==> BlockScope(s.handler, env2, cx.sg) == env2
  {
    hide OkBlock, StmtThen, BlockThen, AtStmt, Statement, CatchClause, BlockScope, BlockType, BlockCode, Emitted, Put, PatchTo, Encode,
      Breaks, StmtBreaks, Size, Cont, SlotByte, Narrow, Ins, StoreIn, WfOutput, BlockRule, Grows;
    var env1 := BlockScope(s.body, st.locals, cx.sg);
    var env2 := env1 + [Local(s.err, TAny)];
    TryTokens(s, rest);
    var st2, leave, mid := HandlerReached(st, s, cx, rest, Breaks(s.handler));
    ParseBlock(mid, s.handler, cx, rest);
    BlockGrows(s.handler, cx, env2);
    GrowsFrom(env2, BlockScope(s.handler, env2, cx.sg));
    CatchDone(st2, mid, BlockParsed(mid, s.handler, Token(RBRACKET, LINE), rest, cx.sg), s.err, leave);
    LastDropped(env1, Local(s.err, TAny), BlockScope(s.handler, env2, cx.sg));
  }

  lemma GrowsFrom(small: Scope, big: Scope)
    requires Grows(small, big)
    ensures |small| <= |big| && big[..|small|] == small
  {}

  lemma LastDropped(env: Scope, x: Local, big: Scope)
    requires |env| + 1 <= |big| && big[..|env| + 1] == env + [x]
    ensures big[..|big| - 1] == env <==> big == env + [x]
  {
    if big[..|big| - 1] == env {
      assert big == big[..|env| + 1];
    }
    if big == env + [x] {
      assert big[..|env|] == env;
    }
  }
}
