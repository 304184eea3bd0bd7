/** What each parsing routine of the one-pass compiler does to the compiler's state, as a
    function. After a syntax or type error the program is rejected, so only the first error
    matters; constructs outside the modelled fragment are recorded as Unmodelled. */
module Parsing {
  import opened Bytes
  import opened Values
  import opened Machine
  import opened Syntax
  import opened Semantics
  import opened CodeGen
  import opened Emission
  import opened Tokens

  datatype Fault = NoFault | Rejected | Unmodelled

  /** toks starts with parser.current; prev is parser.previous; types is the compile-time type
      stack; ret is current_return_type, None while it is to be inferred. */
  datatype State = State(
    toks: Tokens,
    prev: Token,
    types: seq<Type>,
    locals: Scope,
    ret: Option<Type>,
    out: Output,
    fault: Fault)

  /** What every routine below the level of functions keeps: tokens are only consumed, code is
      only appended or patched, loops are left as they were entered, and the first error stays. */
  predicate Steady(st: State, r: State) {
    && Len(r.toks) <= Len(st.toks)
    && |st.out.code| <= |r.out.code|
    && |r.out.loops| == |st.out.loops| && |r.out.funcs| == |st.out.funcs|
    && Remembers(st, r)
  }

  predicate Remembers(st: State, r: State) {
    st.fault != NoFault ==> r.fault == st.fault
  }

  // ----- primitives -----

  function Current(st: State): Kind {
    if st.toks.Eof? then EOF else st.toks.head.kind
  }

  function Advance(st: State): (r: State)
    ensures Steady(st, r)
    ensures !st.toks.Eof? ==> Len(r.toks) < Len(st.toks)
  {
    if st.toks.Eof? then st.(prev := Token(EOF, st.prev.line)) else st.(toks := st.toks.tail, prev := st.toks.head)
  }

  function Reject(st: State): (r: State)
    ensures r.toks == st.toks && Steady(st, r)
  {
    if st.fault.NoFault? then st.(fault := Rejected) else st
  }

  function Outside(st: State): (r: State)
    ensures r.toks == st.toks && Steady(st, r)
  {
    if st.fault.NoFault? then st.(fault := Unmodelled) else st
  }

  function Consume(st: State, k: Kind): (r: State)
    ensures Steady(st, r)
  {
    if Current(st) == k then Advance(st) else Reject(st)
  }

  predicate ImplicitTerminator(st: State) {
    !st.toks.Eof? && st.toks.head.line > st.prev.line && CanEnd(st.prev.kind)
  }

  function Terminator(st: State): (r: State)
    ensures Steady(st, r)
  {
    if Current(st) == SEMICOLON then Advance(st) else st
  }

  function PushType(st: State, t: Type): (r: State)
    ensures r.toks == st.toks && Steady(st, r)
  {
    if |st.types| >= STACK_MAX then Reject(st) else st.(types := st.types + [t])
  }

  function PopType(st: State): (r: State)
    ensures r.toks == st.toks && Steady(st, r)
  {
    if st.types == [] then Reject(st) else st.(types := st.types[..|st.types| - 1])
  }

  /** What type_pop returns; void on underflow. */
  function TopType(st: State): Type {
    if st.types == [] then TVoid else st.types[|st.types| - 1]
  }

  function Gen(st: State, i: Instr): (r: State)
    ensures r.toks == st.toks && Steady(st, r)
  {
    st.(out := Put(st.out, Encode(i)))
  }

  function Here(st: State): nat {
    |st.out.code|
  }

  function Fix(st: State, offset: nat): (r: State)
    ensures r.toks == st.toks && Steady(st, r)
  {
    st.(out := PatchTo(st.out, offset, Here(st)))
  }

  function Check(st: State, ok: bool): (r: State)
    ensures r.toks == st.toks && Steady(st, r)
  {
    if ok then st else Reject(st)
  }

  function AddLocal(st: State, x: Name, t: Type): (r: State)
    ensures r.toks == st.toks && Steady(st, r)
  {
    if |st.locals| >= 256 then Reject(st) else st.(locals := st.locals + [Local(x, t)])
  }

  // ----- types -----

  datatype TypeResult = TypeResult(st: State, t: Type)

  /** parse_type for the type names of the fragment. */
  function ParseType(st: State): (r: TypeResult)
    ensures Steady(st, r.st) && r.st.out == st.out
  {
    var k, st1 := Current(st), Advance(st);
    if !k.ID? || Current(st1) == DOT || Current(st1) == QUESTION || Current(st1) == BANG then TypeResult(Outside(st1), TVoid)
    else if k.x == INT_NAME then TypeResult(st1, TInt)
    else if k.x == BOL_NAME then TypeResult(st1, TBool)
    else if k.x == VOID_NAME then TypeResult(st1, TVoid)
    else if k.x == ANY_NAME then TypeResult(st1, TAny)
    else TypeResult(Outside(st1), TVoid)
  }

  // ----- expressions -----

  predicate HasPrefix(k: Kind) {
    k.INT? || k.BOOL? || k.ID? || k == MINUS || k == BANG || k == LANGLE || k == LPAREN || k == LBRACKET
    || k == L_ARROW || k == DOT || k == DOT_DOT || k == HAT || k == KEY_THROW || k.OTHER?
  }

  /** strtoll saturates. */
  function Saturated(n: nat): int64 {
    if n < 0x8000_0000_0000_0000 then n else 0x7FFF_FFFF_FFFF_FFFF
  }

  function ParsePrecedence(st: State, prec: nat): (r: State)
    requires prec > 0
    ensures Steady(st, r)
    ensures !st.toks.Eof? ==> Len(r.toks) < Len(st.toks)
    decreases Len(st.toks), 2
  {
    var st1 := Advance(st);
    if st.toks.Eof? || !HasPrefix(st1.prev.kind) then Reject(st1) else Infixes(Prefix(st1), prec)
  }

  function Expression(st: State): (r: State)
    ensures Steady(st, r)
    ensures !st.toks.Eof? ==> Len(r.toks) < Len(st.toks)
    decreases Len(st.toks), 3
  {
    ParsePrecedence(st, PREC_ASSIGNMENT)
  }

  /** The while loop of parse_precedence. */
  function Infixes(st: State, prec: nat): (r: State)
    requires prec > 0
    ensures Steady(st, r)
    decreases Len(st.toks), 0
  {
    if prec <= Precedence(Current(st)) && !ImplicitTerminator(st) then Infixes(Infix(Advance(st)), prec) else st
  }

  function Prefix(st: State): (r: State)
    ensures Steady(st, r)
    decreases Len(st.toks), 5
  {
    match st.prev.kind
    case INT(n) => PushType(Gen(st, PUSH_INT(Saturated(n))), TInt)
    case BOOL(b) => PushType(Gen(st, PUSH_BOOL(b)), TBool)
    case ID(x) => Variable(st, x)
    case MINUS => UnaryRule(st, Minus)
    case BANG => UnaryRule(st, Bang)
    case LPAREN => Grouping(st)
    case DOT => BreakOp(st)
    case DOT_DOT => ContinueOp(st)
    case HAT => ReturnOp(st)
    case KEY_THROW => ThrowOp(st)
    case _ => Outside(st)
  }

  function Infix(st: State): (r: State)
    ensures Steady(st, r)
    decreases Len(st.toks), 5
  {
    if BinaryOf(st.prev.kind).Some? then BinaryRule(st, BinaryOf(st.prev.kind).value, Precedence(st.prev.kind))
    else if st.prev.kind == BANG_BANG then PrintOp(st)
    else if st.prev.kind == ASSIGN then Assignment(st)
    else Outside(st)
  }

  /** The operand types that binary accepts. */
  predicate Accepts(op: BinOp, a: Type, b: Type) {
    a != TAny && b != TAny &&
    if IsArithmetic(op) then a == b == TInt
    else if IsLogical(op) then a == b == TBool
    else a == b
  }

  function ResultType(op: BinOp, a: Type): Type {
    if op == Percent then TInt else if IsArithmetic(op) then a else TBool
  }

  function GenOperator(st: State, op: BinOp): (r: State)
    ensures r.toks == st.toks && Steady(st, r)
  {
    if op == NotEqual then Gen(Gen(st, OPER(EQ)), OPER(NOT)) else Gen(st, OPER(MachineOp(op)))
  }

  function BinaryRule(st: State, op: BinOp, prec: nat): (r: State)
    ensures Steady(st, r)
    decreases Len(st.toks), 4
  {
    var st1 := ParsePrecedence(st, prec + 1);
    var b, st2 := TopType(st1), PopType(st1);
    var a, st3 := TopType(st2), PopType(st2);
    PushType(GenOperator(Check(st3, Accepts(op, a, b)), op), ResultType(op, a))
  }

  function UnaryRule(st: State, op: UnOp): (r: State)
    ensures Steady(st, r)
    decreases Len(st.toks), 4
  {
    var st1 := ParsePrecedence(st, PREC_UNARY);
    var t, st2 := TopType(st1), PopType(st1);
    PushType(Gen(Check(st2, t == (if op == Minus then TInt else TBool)), OPER(if op == Minus then NEG else NOT)), t)
  }

  function Grouping(st: State): (r: State)
    ensures Steady(st, r)
    decreases Len(st.toks), 4
  {
    Consume(Expression(st), RPAREN)
  }

  function Variable(st: State, x: Name): (r: State)
    ensures Steady(st, r)
    decreases Len(st.toks), 4
  {
    var slot := Resolve(st.locals, x);
    if slot >= 0 then
      if Current(st) == LPAREN then Reject(st)
      else PushType(Gen(st, LOAD(SlotByte(slot))), st.locals[slot].ty)
    else if Current(st) == DOT || IsNative(x) then Outside(st)
    else FunctionName(st, x)
  }

  /** A name that is no local: a function that is called, or else an error. */
  function FunctionName(st: State, x: Name): (r: State)
    ensures Steady(st, r)
    decreases Len(st.toks), 3
  {
    var i := Find(st.out.funcs, x);
    if i < 0 then Reject(st)
    else if Current(st) == LPAREN then CallFunction(Advance(st), i)
    else Outside(st)
  }

  datatype ArgsResult = ArgsResult(st: State, count: nat)

  /** A direct call of the i-th function, after the opening parenthesis. */
  function CallFunction(st: State, i: nat): (r: State)
    requires i < |st.out.funcs|
    ensures Steady(st, r)
    decreases Len(st.toks), 5
  {
    var f := st.out.funcs[i];
    FinishCall(if Current(st) == RPAREN then ArgsResult(st, 0) else Arguments(st, f.params, 0), i, f)
  }

  /** After the arguments: their number, the call and the type of its result. */
  function FinishCall(args: ArgsResult, i: nat, f: Function): (r: State)
    requires i < |args.st.out.funcs|
    ensures Steady(args.st, r)
  {
    var st := Check(Check(Consume(args.st, RPAREN), args.count == |f.params|), f.ret.Some?);
    if f.ret.Some? then PushType(st.(out := EmitCall(st.out, i)), f.ret.value) else st
  }

  function Arguments(st: State, params: seq<Type>, n: nat): (r: ArgsResult)
    ensures Steady(st, r.st)
    decreases Len(st.toks), 4
  {
    var st1 := Expression(st);
    var t, st2 := TopType(st1), PopType(st1);
    var st3 := Check(st2, n < |params| ==> Assignable(params[n], t));
    if Current(st3) == COMMA then Arguments(Advance(st3), params, n + 1) else ArgsResult(st3, n + 1)
  }

  function Assignment(st: State): (r: State)
    ensures Steady(st, r)
    decreases Len(st.toks), 4
  {
    if !Current(st).ID? then Reject(st)
    else
      var x, st1 := Current(st).x, Advance(st);
      if Current(st1) == DOT then Outside(st1)
      else if Current(st1) == COLON then
        var ty := ParseType(Advance(st1));
        var v, st2 := TopType(ty.st), PopType(ty.st);
        StoreTo(Check(st2, Assignable(ty.t, v)), x, ty.t)
      else
        var v, st2 := TopType(st1), PopType(st1);
        var slot := Resolve(st1.locals, x);
        StoreTo(Check(st2, slot >= 0 ==> Assignable(st1.locals[slot].ty, v)), x, v)
  }

  /** The store into an existing local or a new one of type t. */
  function StoreTo(st: State, x: Name, t: Type): (r: State)
    ensures r.toks == st.toks && Steady(st, r)
  {
    var slot := Resolve(st.locals, x);
    var st1 := if slot >= 0 then st else AddLocal(st, x, t);
    var target := if slot >= 0 then slot else if |st1.locals| > 0 then |st1.locals| - 1 else 0;
    PushType(Gen(st1, STORE(SlotByte(target))), TVoid)
  }

  function PrintOp(st: State): (r: State)
    ensures r.toks == st.toks && Steady(st, r)
  {
    PushType(Gen(PopType(st), PRINT), TVoid)
  }

  function ThrowOp(st: State): (r: State)
    ensures Steady(st, r)
    decreases Len(st.toks), 4
  {
    PushType(PopType(Gen(Expression(st), THROW)), TVoid)
  }

  function BreakOp(st: State): (r: State)
    ensures r.toks == st.toks && Steady(st, r)
  {
    var n := |st.out.loops|;
    if n == 0 || |st.out.loops[n - 1].breaks| >= BREAKS_MAX then Reject(st)
    else PushType(st.(out := EmitBreak(st.out)), TVoid)
  }

  function ContinueOp(st: State): (r: State)
    ensures r.toks == st.toks && Steady(st, r)
  {
    var n := |st.out.loops|;
    if n == 0 then Reject(st)
    else PushType(Gen(st, JUMP(Narrow(st.out.loops[n - 1].start))), TVoid)
  }

  function ReturnOp(st: State): (r: State)
    ensures Steady(st, r)
    decreases Len(st.toks), 4
  {
    if Current(st) == RBRACKET || Current(st) == SEMICOLON || ImplicitTerminator(st) then
      PushType(Gen(Gen(Returning(st, TVoid), PUSH_INT(0)), RET), TVoid)
    else
      var st1 := Expression(st);
      var t, st2 := TopType(st1), PopType(st1);
      PushType(Gen(Returning(st2, t), RET), t)
  }

  /** A value of type t is returned. */
  function Returning(st: State, t: Type): (r: State)
    ensures r.toks == st.toks && Steady(st, r)
  {
    if st.ret.None? then st.(ret := Some(t)) else Check(st, Assignable(st.ret.value, t))
  }

  // ----- statements -----

  function Statement(st: State): (r: State)
    ensures Steady(st, r)
    ensures !st.toks.Eof? ==> Len(r.toks) < Len(st.toks)
    decreases Len(st.toks), 5
  {
    if Current(st) == SEMICOLON then PushType(Advance(st), TVoid)
    else if Current(st) == KEY_TRY then TryStatement(Advance(st))
    else FinishStatement(Expression(st), Here(st))
  }

  /** What follows the expression that starts at address start makes it a condition or a statement. */
  function FinishStatement(st: State, start: nat): (r: State)
    ensures Steady(st, r)
    decreases Len(st.toks), 4
  {
    if Current(st) == QUESTION then IfStatement(Advance(Condition(st)))
    else if Current(st) == AT then LoopStatement(Advance(Condition(st)), start)
    else Terminator(st)
  }

  /** The condition of an if or a loop is consumed; unless it is a bool it is tested for truth. */
  function Condition(st: State): (r: State)
    ensures r.toks == st.toks && Steady(st, r)
  {
    if TopType(st) == TBool then PopType(st) else Gen(PopType(st), IS_TRUTHY)
  }

  function BlockOrStatement(st: State): (r: State)
    ensures Steady(st, r)
    decreases Len(st.toks), 8
  {
    if Current(st) == LBRACKET then BlockRule(st) else Statement(st)
  }

  /** The type of an if with both arms. */
  function Joined(a: Type, b: Type): Type {
    if a == b || Assignable(a, b) then a else if Assignable(b, a) then b else TVoid
  }

  /** After the question mark. */
  function IfStatement(st: State): (r: State)
    ensures Steady(st, r)
    decreases Len(st.toks), 10
  {
    var st1 := BlockOrStatement(Gen(st, JUMP_IF_F(0)));
    var t1, st2 := TopType(st1), PopType(st1);
    var st3 := Fix(Gen(st2, JUMP(0)), Here(st) + 1);
    Terminator(Fix(ElseBranch(st3, t1), Here(st2) + 1))
  }

  /** The else branch, if there is one, and the type of the whole statement. */
  function ElseBranch(st: State, t1: Type): (r: State)
    ensures Steady(st, r)
    decreases Len(st.toks), 9
  {
    if Current(st) == COLON then
      var st1 := BlockOrStatement(Advance(st));
      PushType(PopType(st1), Joined(t1, TopType(st1)))
    else PushType(st, TVoid)
  }

  /** After the at sign; start is where the condition begins. */
  function LoopStatement(st: State, start: nat): (r: State)
    ensures Steady(st, r)
    decreases Len(st.toks), 9
  {
    var st1 := BlockOrStatement(Gen(st.(out := PushLoop(st.out, start)), JUMP_IF_F(0)));
    EndLoop(Gen(PopType(st1), JUMP(Narrow(start))), Here(st) + 1)
  }

  /** After the jump back: the test at hole and the breaks go to the current position. */
  function EndLoop(st: State, hole: nat): (r: State)
    requires st.out.loops != []
    ensures Len(r.toks) <= Len(st.toks) && |st.out.code| <= |r.out.code|
    ensures |r.out.loops| == |st.out.loops| - 1 && |r.out.funcs| == |st.out.funcs| && Remembers(st, r)
  {
    var st1 := Fix(st, hole);
    PushType(Terminator(st1.(out := PopLoop(st1.out))), TVoid)
  }

  /** After the try keyword. */
  function TryStatement(st: State): (r: State)
    ensures Steady(st, r)
    decreases Len(st.toks), 10
  {
    var st1 := Gen(PopType(BlockRule(Gen(st, TRY(0)))), END_TRY);
    CatchClause(Fix(Gen(st1, JUMP(0)), Here(st) + 1), Here(st1) + 1)
  }

  /** The handler; leave is the operand of the jump past it. */
  function CatchClause(st: State, leave: nat): (r: State)
    ensures Steady(st, r)
    decreases Len(st.toks), 9
  {
    var st1 := Consume(st, KEY_CATCH);
    if !Current(st1).ID? then Reject(st1)
    else
      var st2 := AddLocal(Advance(st1), Current(st1).x, TAny);
      var st3 := BlockRule(Gen(st2, STORE(SlotByte(if |st2.locals| > 0 then |st2.locals| - 1 else 0))));
      PushType(Fix(DropLocal(PopType(st3)), leave), TVoid)
  }

  /** local_count-- */
  function DropLocal(st: State): (r: State)
    ensures r.toks == st.toks && Steady(st, r)
  {
    if st.locals == [] then Outside(st) else st.(locals := st.locals[..|st.locals| - 1])
  }

  function BlockRule(st: State): (r: State)
    ensures Steady(st, r)
    decreases Len(st.toks), 7
  {
    Consume(Statements(Consume(st, LBRACKET), true), RBRACKET)
  }

  /** The loop of block, up to the closing bracket; empty says that there was no statement yet. */
  function Statements(st: State, empty: bool): (r: State)
    ensures Steady(st, r)
    decreases Len(st.toks), 6
  {
    if Current(st) == RBRACKET || Current(st) == EOF then (if empty then PushType(st, TVoid) else st)
    else Statements(Statement(if empty then st else Discard(st)), false)
  }

  /** The value of the previous statement is popped. */
  function Discard(st: State): (r: State)
    ensures r.toks == st.toks && Steady(st, r)
  {
    if TopType(st) == TVoid then PopType(st) else Gen(PopType(st), POP)
  }

  // ----- functions -----

  datatype ParamsResult = ParamsResult(st: State, params: seq<Param>)

  /** The parameters up to the closing angle bracket. */
  function Params(st: State, ps: seq<Param>): (r: ParamsResult)
    ensures Len(r.st.toks) <= Len(st.toks) && r.st.out == st.out && Remembers(st, r.st)
    ensures |ps| <= 16 ==> |r.params| <= 16
    decreases Len(st.toks)
  {
    if Current(st) == RANGLE then ParamsResult(st, ps)
    else if !Current(st).ID? then ParamsResult(Reject(st), ps)
    else if |ps| >= 16 then ParamsResult(Outside(st), ps)
    else
      var ty := ParseType(Consume(Advance(st), COLON));
      var st1 := if Current(ty.st) == COMMA then Advance(ty.st) else ty.st;
      Params(st1, ps + [Param(Current(st).x, ty.t)])
  }

  datatype Header = Header(st: State, params: seq<Param>, ret: Option<Type>, name: Option<Name>)

  /** Parameters, return type and name of a function. */
  function FunctionHeader(st: State): (r: Header)
    ensures Len(r.st.toks) <= Len(st.toks) && r.st.out == st.out && Remembers(st, r.st)
    ensures |r.params| <= 16
  {
    var ps := Params(st, []);
    var st1 := Consume(ps.st, RANGLE);
    var ty := if Current(st1) == ARROW then ParseType(Advance(st1)) else TypeResult(st1, TVoid);
    var ret := if Current(st1) == ARROW then Some(ty.t) else None;
    if Current(ty.st) != COLON then Header(ty.st, ps.params, ret, None)
    else
      var st2 := Advance(ty.st);
      if !Current(st2).ID? then Header(Reject(st2), ps.params, ret, None)
      else Header(Advance(st2), ps.params, ret, Some(Current(st2).x))
  }

  /** The entry of a function gets its address; the calls emitted before are patched. */
  function Define(o: Output, x: Name, addr: nat, ret: Option<Type>, params: seq<Type>): Output {
    var i := Find(o.funcs, x);
    var pending := if i >= 0 then o.funcs[i].pending else [];
    var f := Function(x, Narrow(addr), ret, params, []);
    Output(PatchAll(o.code, pending, Narrow(addr)), if i >= 0 then o.funcs[i := f] else o.funcs + [f], o.loops)
  }

  function SetReturn(o: Output, x: Name, ret: Type): Output {
    var i := Find(o.funcs, x);
    if i < 0 then o else o.(funcs := o.funcs[i := o.funcs[i].(ret := Some(ret))])
  }

  /** The stores of the parameters, last one first. */
  function GenStores(st: State, n: nat): (r: State)
    ensures r.toks == st.toks && Steady(st, r)
    decreases n
  {
    if n == 0 then st else GenStores(Gen(st, STORE(SlotByte(n - 1))), n - 1)
  }

  /** unify_inferred_types; the second type is always known here. */
  function Unified(current: Option<Type>, next: Type): Option<Type> {
    if current.None? then Some(next)
    else if current.value == next || Assignable(current.value, next) then current
    else if Assignable(next, current.value) then Some(next)
    else None
  }

  /** The check of the body's type against the declared return type, or the inferred type. */
  function Result(st: State, declared: Option<Type>, actual: Type): (r: TypeResult)
    ensures r.st.toks == st.toks && Steady(st, r.st)
  {
    if declared.Some? then TypeResult(Check(st, Assignable(declared.value, actual)), declared.value)
    else
      var u := Unified(st.ret, actual);
      if u.Some? then TypeResult(st, u.value) else TypeResult(Reject(st), TVoid)
  }

  /** The stores of n parameters, the body and the return. */
  function FunctionBody(st: State, n: nat, declared: Option<Type>): (r: TypeResult)
    ensures Steady(st, r.st)
  {
    var st1 := BlockRule(GenStores(st, n));
    var res := Result(PopType(st1), declared, TopType(st1));
    TypeResult(Gen(res.st, RET), res.t)
  }

  /** parse_function at top level, after the opening angle bracket. */
  function FunctionDefinition(st: State): (r: State)
    ensures Len(r.toks) <= Len(st.toks) && Remembers(st, r)
  {
    var h := FunctionHeader(Gen(st, JUMP(0)));
    var st1 := if h.name.None? then h.st
               else h.st.(out := Define(h.st.out, h.name.value, Here(h.st), h.ret, ParamTypes(h.params)));
    var res := FunctionBody(st1.(locals := ParamScope(h.params), ret := h.ret, types := []), |h.params|, h.ret);
    var st2 := Fix(res.st, Here(st) + 1).(locals := st.locals, ret := st.ret, types := st.types);
    if h.name.None? then st2 else st2.(out := SetReturn(st2.out, h.name.value, res.t))
  }

  // ----- programs -----

  /** skip_bracket_block_tokens at a bracket depth. */
  function Skipped(ts: Tokens, depth: nat): (r: Tokens)
    ensures Len(r) <= Len(ts)
    decreases ts
  {
    if depth == 0 || ts.Eof? then ts
    else if ts.head.kind == LBRACKET then Skipped(ts.tail, depth + 1)
    else if ts.head.kind == RBRACKET then Skipped(ts.tail, depth - 1)
    else Skipped(ts.tail, depth)
  }

  /** skip_bracket_block_tokens, with its effect on the parser. */
  function SkipBrackets(st: State, depth: nat): (r: State)
    ensures r == st.(toks := Skipped(st.toks, depth), prev := r.prev)
    decreases Len(st.toks)
  {
    if depth == 0 || st.toks.Eof? then st
    else
      var k := Current(st);
      SkipBrackets(Advance(st), if k == LBRACKET then depth + 1 else if k == RBRACKET then depth - 1 else depth)
  }

  /** The first pass enters every named function with address -1. */
  function Predeclared(st: State): (r: State)
    decreases Len(st.toks)
  {
    if st.toks.Eof? then st
    else if Current(st).OTHER? then Outside(st)
    else if Current(st) != LANGLE then Predeclared(Advance(st))
    else
      var h := FunctionHeader(Advance(st));
      var st1 := if h.name.None? then h.st else Declared(h.st, h.name.value, h.ret, ParamTypes(h.params));
      var st2 := Consume(st1, LBRACKET);
      if st2.fault != NoFault then st2
      else Predeclared(SkipBrackets(st2, 1))
  }

  function Declared(st: State, x: Name, ret: Option<Type>, params: seq<Type>): (r: State)
    ensures r.toks == st.toks
  {
    var i := Find(st.out.funcs, x);
    var fs := st.out.funcs;
    st.(out := st.out.(funcs :=
      if i >= 0 then fs[i := fs[i].(ret := ret, params := params)] else fs + [Function(x, -1, ret, params, [])]))
  }

  /** compile_internal. */
  function TopLevel(st: State): (r: State)
    ensures Remembers(st, r)
    decreases Len(st.toks)
  {
    if st.toks.Eof? then st
    else if Current(st) == SEMICOLON then TopLevel(Advance(st))
    else if Current(st) == LANGLE then TopLevel(FunctionDefinition(Advance(st)))
    else if Current(st).OTHER? then Outside(st)
    else TopLevel(Advance(Reject(st)))
  }

  function Start(ts: Tokens): State {
    State(ts, Token(EOF, 0), [], [], Some(TVoid), Output([], [], []), NoFault)
  }

  /** The call of main, if there is one, and the halt. */
  function Finish(st: State): State {
    var i := Find(st.out.funcs, MAIN_NAME);
    Gen(if i < 0 then st else Gen(st, CALL(st.out.funcs[i].addr)), HALT)
  }

  /** The table of functions after the first pass. An error of the first pass is forgotten by the
      compiler; what it does then is not modelled. */
  function WithFunctions(ts: Tokens): State {
    var pre := Predeclared(Start(ts));
    Start(ts).(out := Output([], pre.out.funcs, []), fault := if pre.fault == NoFault then NoFault else Unmodelled)
  }

  datatype Compiled = Compiled(code: seq<byte>) | Failed(fault: Fault)

  /** compiler_compile. */
  function Compile(ts: Tokens): Compiled {
    var st := Finish(TopLevel(WithFunctions(ts)));
    if st.fault == NoFault then Compiled(st.out.code) else Failed(st.fault)
  }
}
