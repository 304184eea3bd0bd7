/** Programs of int and bool expressions, assignments, print, if, while, break, continue,
    return, throw, try/catch and direct calls, with the static rules of the language. */
module Syntax {
  import opened Bytes
  import opened Values
  import opened Machine

  /** Identifiers. The spelling of a name matters only for the type names and main. */
  type Name = nat

  const INT_NAME: Name := 0
  const BOL_NAME: Name := 1
  const VOID_NAME: Name := 2
  const ANY_NAME: Name := 3
  const MAIN_NAME: Name := 4

  datatype Option<+T> = None | Some(value: T)

  datatype Type = TVoid | TInt | TBool | TAny

  type Literal = n: int | 0 <= n < 0x8000_0000_0000_0000

  datatype UnOp = Minus | Bang

  datatype BinOp =
    | Plus | Less | Times | Over | Percent
    | Equal | NotEqual | Below | Above | AtMost | AtLeast
    | Both | Either

  datatype Expr =
    | IntLit(n: Literal)
    | BoolLit(b: bool)
    | Var(x: Name)
    | Un(uop: UnOp, operand: Expr)
    | Bin(bop: BinOp, left: Expr, right: Expr)
    | Call(f: Name, args: Args)

  datatype Args = NoArgs | Arg(first: Expr, others: Args)

  datatype Stmt =
    | Eval(e: Expr)
    | Assign(e: Expr, x: Name, declared: Option<Type>)
    | Print(e: Expr)
    | If(cond: Expr, thn: Block)
    | IfElse(cond: Expr, thn: Block, els: Block)
    | While(cond: Expr, body: Block)
    | Break
    | Continue
    | Return(e: Expr)
    | Throw(e: Expr)
    | Try(body: Block, err: Name, handler: Block)

  datatype Block = End | Then(s: Stmt, rest: Block)

  datatype Param = Param(name: Name, ty: Type)

  datatype Fun = Fun(name: Name, params: seq<Param>, ret: Type, body: Block)

  type Program = seq<Fun>

  // ----- static scopes -----

  datatype Local = Local(name: Name, ty: Type)

  /** The locals of the function being compiled, oldest first; the position is the slot. */
  type Scope = seq<Local>

  datatype Signature = Signature(params: seq<Type>, ret: Type)

  type Signatures = map<Name, Signature>

  /** resolve_local: the newest local of that name, or -1. */
  function Resolve(env: Scope, x: Name): (slot: int)
    ensures -1 <= slot < |env|
    ensures slot >= 0 ==> env[slot].name == x
    ensures slot < 0 ==> forall i :: 0 <= i < |env| ==> env[i].name != x
    decreases |env|
  {
    if env == [] then -1
    else if env[|env| - 1].name == x then |env| - 1
    else
      var slot := Resolve(env[..|env| - 1], x);
      assert forall i :: 0 <= i < |env| - 1 ==> env[i] == env[..|env| - 1][i];
      slot
  }

  predicate Known(env: Scope, x: Name) {
    Resolve(env, x) >= 0
  }

  /** The slot that an assignment to x stores into. */
  function SlotOf(env: Scope, x: Name): nat {
    if Known(env, x) then Resolve(env, x) else |env|
  }

  function Declare(env: Scope, x: Name, ty: Type): Scope {
    if Known(env, x) then env else env + [Local(x, ty)]
  }

  /** is_assignable on the types of this fragment. */
  predicate Assignable(expected: Type, actual: Type) {
    expected == TAny || expected == actual
  }

  predicate IsArithmetic(op: BinOp) {
    op == Plus || op == Less || op == Times || op == Over || op == Percent
  }

  predicate IsLogical(op: BinOp) {
    op == Both || op == Either
  }

  function TypeOf(e: Expr, env: Scope, sg: Signatures): Type {
    match e
    case IntLit(_) => TInt
    case BoolLit(_) => TBool
    case Var(x) => if Known(env, x) then env[Resolve(env, x)].ty else TVoid
    case Un(_, e1) => TypeOf(e1, env, sg)
    case Bin(op, l, _) => if op == Percent then TInt else if IsArithmetic(op) then TypeOf(l, env, sg) else TBool
    case Call(f, _) => if f in sg then sg[f].ret else TVoid
  }

  function StmtType(s: Stmt, env: Scope, sg: Signatures): Type {
    match s
    case Eval(e) => TypeOf(e, env, sg)
    case Return(e) => TypeOf(e, env, sg)
    case IfElse(_, t, f) =>
      var t1 := BlockType(t, env, sg);
      var t2 := BlockType(f, BlockScope(t, env, sg), sg);
      if t1 == t2 || Assignable(t1, t2) then t1 else if Assignable(t2, t1) then t2 else TVoid
    case _ => TVoid
  }

  /** The type left by the last statement; an empty block is void. */
  function BlockType(b: Block, env: Scope, sg: Signatures): Type {
    match b
    case End => TVoid
    case Then(s, End) => StmtType(s, env, sg)
    case Then(s, rest) => BlockType(rest, StmtScope(s, env, sg), sg)
  }

  /** The locals after a statement: one flat scope per function, so the locals of an inner
      block stay; only the error variable of a catch is removed again. */
  function StmtScope(s: Stmt, env: Scope, sg: Signatures): Scope {
    match s
    case Assign(e, x, declared) =>
      Declare(env, x, if declared.Some? then declared.value else TypeOf(e, env, sg))
    case If(_, t) => BlockScope(t, env, sg)
    case IfElse(_, t, f) => BlockScope(f, BlockScope(t, env, sg), sg)
    case While(_, b) => BlockScope(b, env, sg)
    case Try(b, x, h) =>
      var inner := BlockScope(h, BlockScope(b, env, sg) + [Local(x, TAny)], sg);
      if inner == [] then [] else inner[..|inner| - 1]
    case _ => env
  }

  function BlockScope(b: Block, env: Scope, sg: Signatures): Scope {
    match b
    case End => env
    case Then(s, rest) => BlockScope(rest, StmtScope(s, env, sg), sg)
  }

  /** Whether control can reach the end of the statement. */
  predicate Completes(s: Stmt) {
    match s
    case Break => false
    case Continue => false
    case Return(_) => false
    case Throw(_) => false
    case IfElse(_, t, f) => BlockCompletes(t) || BlockCompletes(f)
    case Try(b, _, h) => BlockCompletes(b) || BlockCompletes(h)
    case _ => true
  }

  predicate BlockCompletes(b: Block) {
    match b
    case End => true
    case Then(s, rest) => Completes(s) && BlockCompletes(rest)
  }

  // ----- well-formed expressions -----

  /** Expression e is well typed and every sub-expression used as a value has one;
      depth is the number of entries already on the compile-time type stack. */
  predicate OkExpr(e: Expr, env: Scope, sg: Signatures, depth: nat) {
    && depth < STACK_MAX
    && match e
       case IntLit(_) => true
       case BoolLit(_) => true
       case Var(x) => Known(env, x)
       case Un(op, e1) =>
         OkExpr(e1, env, sg, depth) && TypeOf(e1, env, sg) == (if op == Minus then TInt else TBool)
       case Bin(op, l, r) =>
         && OkExpr(l, env, sg, depth) && OkExpr(r, env, sg, depth + 1)
         && OkOperands(op, TypeOf(l, env, sg), TypeOf(r, env, sg))
       case Call(f, args) =>
         && !Known(env, f) && f in sg
         && OkArgs(args, env, sg, sg[f].params, depth)
  }

  predicate OkOperands(op: BinOp, a: Type, b: Type) {
    if IsLogical(op) then a == b == TBool
    else if op == Equal || op == NotEqual then a == b && (a == TInt || a == TBool)
    else a == b == TInt
  }

  predicate OkArgs(args: Args, env: Scope, sg: Signatures, params: seq<Type>, depth: nat) {
    match args
    case NoArgs => params == []
    case Arg(e, rest) =>
      && params != []
      && OkExpr(e, env, sg, depth) && TypeOf(e, env, sg) == params[0]
      && OkArgs(rest, env, sg, params[1..], depth)
  }

  predicate OkValue(e: Expr, env: Scope, sg: Signatures) {
    OkExpr(e, env, sg, 0) && TypeOf(e, env, sg) != TVoid
  }

  // ----- well-formed statements -----

  /** What the surroundings of a statement allow. A try body forbids leaving it by
      return, break or continue. */
  datatype Context = Context(sg: Signatures, ret: Type, mayBreak: bool, mayReturn: bool)

  predicate OkStmt(s: Stmt, cx: Context, env: Scope)
    decreases s, 0
  {
    match s
    case Eval(e) => OkExpr(e, env, cx.sg, 0)
    case Assign(e, x, declared) =>
      && OkValue(e, env, cx.sg)
      && OkAssign(x, declared, TypeOf(e, env, cx.sg), env)
    case Print(e) => OkValue(e, env, cx.sg)
    case If(c, t) =>
      && OkValue(c, env, cx.sg)
      && OkArm(t, cx, env, TVoid)
    case IfElse(c, t, f) =>
      && OkValue(c, env, cx.sg)
      && OkArm(t, cx, env, StmtType(s, env, cx.sg))
      && OkArm(f, cx, BlockScope(t, env, cx.sg), StmtType(s, env, cx.sg))
    case While(c, b) =>
      && OkValue(c, env, cx.sg)
      && OkArm(b, cx.(mayBreak := true), env, TVoid)
      && Breaks(b) <= 64
    case Break => cx.mayBreak
    case Continue => cx.mayBreak
    case Return(e) => cx.mayReturn && OkValue(e, env, cx.sg) && TypeOf(e, env, cx.sg) == cx.ret
    case Throw(e) => OkValue(e, env, cx.sg)
    case Try(b, x, h) =>
      var env1 := BlockScope(b, env, cx.sg);
      && OkArm(b, cx.(mayBreak := false, mayReturn := false), env, TVoid)
      && !Known(env1, x) && |env1| < LOCALS_PER_FRAME
      && OkArm(h, cx, env1 + [Local(x, TAny)], TVoid)
      && BlockScope(h, env1 + [Local(x, TAny)], cx.sg) == env1 + [Local(x, TAny)]
  }

  predicate OkAssign(x: Name, declared: Option<Type>, value: Type, env: Scope) {
    && (declared.Some? ==> Assignable(declared.value, value))
    && if Known(env, x) then
         var ty := env[Resolve(env, x)].ty;
         Assignable(ty, value) && (declared.Some? ==> declared.value == ty)
       else |env| < LOCALS_PER_FRAME
  }

  predicate OkBlock(b: Block, cx: Context, env: Scope)
    decreases b, 0
  {
    match b
    case End => true
    case Then(s, rest) => OkStmt(s, cx, env) && OkBlock(rest, cx, StmtScope(s, env, cx.sg))
  }

  /** A block whose value, when control reaches its end, has type t. */
  predicate OkArm(b: Block, cx: Context, env: Scope, t: Type)
    decreases b, 1
  {
    OkBlock(b, cx, env) && (BlockCompletes(b) ==> BlockType(b, env, cx.sg) == t)
  }

  /** How many breaks jump out of the loop around this block. */
  function Breaks(b: Block): nat {
    match b
    case End => 0
    case Then(s, rest) => StmtBreaks(s) + Breaks(rest)
  }

  function StmtBreaks(s: Stmt): nat {
    match s
    case Break => 1
    case If(_, t) => Breaks(t)
    case IfElse(_, t, f) => Breaks(t) + Breaks(f)
    case Try(b, _, h) => Breaks(b) + Breaks(h)
    case _ => 0
  }

  // ----- definite assignment -----

  predicate Reads(e: Expr, avail: set<Name>) {
    match e
    case Var(x) => x in avail
    case Un(_, e1) => Reads(e1, avail)
    case Bin(_, l, r) => Reads(l, avail) && Reads(r, avail)
    case Call(_, args) => ArgsRead(args, avail)
    case _ => true
  }

  predicate ArgsRead(args: Args, avail: set<Name>) {
    match args
    case NoArgs => true
    case Arg(e, rest) => Reads(e, avail) && ArgsRead(rest, avail)
  }

  /** The names surely assigned when control reaches the end of the statement. */
  function Assigned(s: Stmt, before: set<Name>): set<Name> {
    match s
    case Assign(_, x, _) => before + {x}
    case IfElse(_, t, f) =>
      if !BlockCompletes(t) then BlockAssigned(f, before)
      else if !BlockCompletes(f) then BlockAssigned(t, before)
      else BlockAssigned(t, before) * BlockAssigned(f, before)
    case Try(b, x, h) =>
      if !BlockCompletes(b) then BlockAssigned(h, before + {x}) - {x}
      else if !BlockCompletes(h) then BlockAssigned(b, before)
      else BlockAssigned(b, before) * (BlockAssigned(h, before + {x}) - {x})
    case _ => before
  }

  function BlockAssigned(b: Block, before: set<Name>): set<Name> {
    match b
    case End => before
    case Then(s, rest) => BlockAssigned(rest, Assigned(s, before))
  }

  /** Every read is of a name that is surely assigned. */
  predicate Definite(s: Stmt, before: set<Name>) {
    match s
    case Eval(e) => Reads(e, before)
    case Assign(e, _, _) => Reads(e, before)
    case Print(e) => Reads(e, before)
    case If(c, t) => Reads(c, before) && BlockDefinite(t, before)
    case IfElse(c, t, f) => Reads(c, before) && BlockDefinite(t, before) && BlockDefinite(f, before)
    case While(c, b) => Reads(c, before) && BlockDefinite(b, before)
    case Return(e) => Reads(e, before)
    case Throw(e) => Reads(e, before)
    case Try(b, x, h) => BlockDefinite(b, before) && BlockDefinite(h, before + {x})
    case _ => true
  }

  predicate BlockDefinite(b: Block, before: set<Name>) {
    match b
    case End => true
    case Then(s, rest) => Definite(s, before) && BlockDefinite(rest, Assigned(s, before))
  }

  // ----- programs -----

  function ParamTypes(ps: seq<Param>): (ts: seq<Type>)
    ensures |ts| == |ps| && forall i :: 0 <= i < |ps| ==> ts[i] == ps[i].ty
  {
    seq(|ps|, i requires 0 <= i < |ps| => ps[i].ty)
  }

  function ParamScope(ps: seq<Param>): (env: Scope)
    ensures |env| == |ps| && forall i :: 0 <= i < |ps| ==> env[i] == Local(ps[i].name, ps[i].ty)
  {
    seq(|ps|, i requires 0 <= i < |ps| => Local(ps[i].name, ps[i].ty))
  }

  function ParamNames(ps: seq<Param>): set<Name> {
    set i | 0 <= i < |ps| :: ps[i].name
  }

  predicate DistinctNames(p: Program) {
    forall i, j :: 0 <= i < j < |p| ==> p[i].name != p[j].name
  }

  predicate Defines(p: Program, f: Name) {
    exists i :: 0 <= i < |p| && p[i].name == f
  }

  function IndexOf(p: Program, f: Name): (i: nat)
    requires Defines(p, f)
    ensures i < |p| && p[i].name == f
    ensures forall j :: 0 <= j < i ==> p[j].name != f
    decreases |p|
  {
    if p[0].name == f then 0
    else
      assert Defines(p[1..], f) by {
        var i :| 0 <= i < |p| && p[i].name == f;
        assert p[1..][i - 1].name == f;
      }
      var i := IndexOf(p[1..], f);
      assert forall j :: 1 <= j < i + 1 ==> p[j] == p[1..][j - 1];
      i + 1
  }

  function SignatureOf(f: Fun): Signature {
    Signature(ParamTypes(f.params), f.ret)
  }

  function AllSignatures(p: Program): (sg: Signatures)
    ensures forall f :: f in sg <==> Defines(p, f)
  {
    map f | f in (set i | 0 <= i < |p| :: p[i].name) :: SignatureOf(p[IndexOf(p, f)])
  }

  function BodyContext(f: Fun, sg: Signatures): Context {
    Context(sg, f.ret, false, true)
  }

  /** A function with distinct int or bool parameters whose body has the declared type. */
  predicate OkFun(f: Fun, sg: Signatures) {
    && |f.params| <= 16
    && (forall i :: 0 <= i < |f.params| ==> f.params[i].ty == TInt || f.params[i].ty == TBool)
    && (forall i, j :: 0 <= i < j < |f.params| ==> f.params[i].name != f.params[j].name)
    && f.ret != TAny
    && OkBlock(f.body, BodyContext(f, sg), ParamScope(f.params))
    && BlockType(f.body, ParamScope(f.params), sg) == f.ret
  }

  /** The programs of the modelled fragment: typed, of the void discipline, definitely assigned. */
  predicate OkProgram(p: Program) {
    && |p| <= 256
    && DistinctNames(p)
    && (forall i :: 0 <= i < |p| ==> OkFun(p[i], AllSignatures(p)))
    && (forall i :: 0 <= i < |p| ==> BlockDefinite(p[i].body, ParamNames(p[i].params)))
    && Defines(p, MAIN_NAME) && p[IndexOf(p, MAIN_NAME)].params == []
  }
}
