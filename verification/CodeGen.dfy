/** The code of each construct as a tree of instructions with symbolic calls and breaks, its
    bytes, and the proof that back-patching placeholders gives the same bytes as emitting
    the targets at once. */
module CodeGen {
  import opened Bytes
  import opened Values
  import opened Machine
  import opened Syntax
  import opened Semantics

  // ----- code trees -----

  datatype Code =
    | Skip
    | Emit(bytes: seq<byte>)
    | CallTo(f: Name)
    | BreakOut
    | Cat(first: Code, second: Code)
    | Within(end: int32, loop: Code)  // the breaks of a loop body go to the end of the loop

  /** What the symbolic operands stand for. */
  datatype Targets = Targets(addrs: map<Name, int32>, brk: int32)

  /** An unresolved callee has address -1. */
  function CallTarget(addrs: map<Name, int32>, f: Name): int32 {
    if f in addrs then addrs[f] else -1
  }

  function Ins(i: Instr): Code {
    Emit(Encode(i))
  }

  function Size(c: Code): nat {
    match c
    case Skip => 0
    case Emit(bytes) => |bytes|
    case CallTo(_) => 5
    case BreakOut => 5
    case Cat(a, b) => Size(a) + Size(b)
    case Within(_, a) => Size(a)
  }

  /** The bytes of a code tree under given targets. */
  function Flat(c: Code, k: Targets): (r: seq<byte>)
    ensures |r| == Size(c)
  {
    match c
    case Skip => []
    case Emit(bytes) => bytes
    case CallTo(f) => Encode(CALL(CallTarget(k.addrs, f)))
    case BreakOut => Encode(JUMP(k.brk))
    case Cat(a, b) => Flat(a, k) + Flat(b, k)
    case Within(end, a) => Flat(a, k.(brk := end))
  }

  // ----- placeholders -----

  datatype Hole = BreakHole | CallHole(f: Name)

  function Fill(k: Targets, h: Hole, v: int32): Targets {
    match h
    case BreakHole => k.(brk := v)
    case CallHole(f) => k.(addrs := k.addrs[f := v])
  }

  /** The addresses of the operands of one kind, in the order of emission. */
  function Sites(c: Code, base: nat, h: Hole): seq<nat> {
    match c
    case CallTo(f) => if h == CallHole(f) then [base + 1] else []
    case BreakOut => if h.BreakHole? then [base + 1] else []
    case Cat(a, b) => Sites(a, base, h) + Sites(b, base + Size(a), h)
    case Within(_, a) => if h.BreakHole? then [] else Sites(a, base, h)
    case _ => []
  }

  lemma PatchOperand(pre: seq<byte>, i: Instr, post: seq<byte>, v: int32)
    requires HasTarget(i)
    ensures PatchAll(pre + Encode(i) + post, [|pre| + 1], v) == pre + Encode(Retarget(i, v)) + post
  {
    PatchOne(pre + Encode(i) + post, |pre| + 1, v);
    PatchInstr(pre + Encode(i) + post, pre + Encode(Retarget(i, v)) + post, |pre| + 1, pre, i, post, v);
  }

  /** Patching every site of a kind after the fact gives the bytes that would have been
      emitted with the target known from the start, and leaves the rest of the buffer alone. */
  lemma {:induction false} PatchingFills(pre: seq<byte>, base: nat, c: Code, post: seq<byte>, k: Targets, h: Hole, v: int32)
    requires base == |pre|
    ensures PatchAll(pre + Flat(c, k) + post, Sites(c, base, h), v) == pre + Flat(c, Fill(k, h, v)) + post
    decreases c, 1
  {
    match c
    case Skip =>
    case Emit(_) =>
    case CallTo(f) =>
      if h == CallHole(f) {
        PatchOperand(pre, CALL(CallTarget(k.addrs, f)), post, v);
      }
    case BreakOut =>
      if h.BreakHole? {
        PatchOperand(pre, JUMP(k.brk), post, v);
      }
    case Cat(a, b) => CatFills(pre, base, a, b, post, k, h, v);
    case Within(end, a) =>
      if !h.BreakHole? {
        PatchingFills(pre, base, a, post, k.(brk := end), h, v);
      }
  }

  lemma {:induction false} CatFills(pre: seq<byte>, base: nat, a: Code, b: Code, post: seq<byte>, k: Targets, h: Hole, v: int32)
    requires base == |pre|
    ensures PatchAll(pre + Flat(Cat(a, b), k) + post, Sites(Cat(a, b), base, h), v)
         == pre + Flat(Cat(a, b), Fill(k, h, v)) + post
    decreases Cat(a, b), 0
  {
    var fa, fb, fa', fb' := Flat(a, k), Flat(b, k), Flat(a, Fill(k, h, v)), Flat(b, Fill(k, h, v));
    PatchingFills(pre, base, a, fb + post, k, h, v);
    PatchingFills(pre + fa', base + Size(a), b, post, k, h, v);
    Regroup(pre, fa, fb, post);
    Regroup(pre, fa', fb, post);
    Regroup(pre, fa', fb', post);
    PatchInTurn(pre + Flat(Cat(a, b), k) + post, Sites(a, base, h), Sites(b, base + Size(a), h),
                Sites(Cat(a, b), base, h), v, pre + fa' + (fb + post), pre + Flat(Cat(a, b), Fill(k, h, v)) + post);
  }

  lemma PatchInTurn(code: seq<byte>, first: seq<nat>, second: seq<nat>, both: seq<nat>, v: int32,
                    middle: seq<byte>, result: seq<byte>)
    requires both == first + second
    requires PatchAll(code, first, v) == middle && PatchAll(middle, second, v) == result
    ensures PatchAll(code, both, v) == result
  {
    PatchAllAppend(code, first, second, v);
  }

  lemma Regroup(a: seq<byte>, b: seq<byte>, c: seq<byte>, d: seq<byte>)
    ensures a + (b + c) + d == a + b + (c + d) == (a + b) + c + d
  {}

  // ----- expressions -----

  /** A C int stored through emit_int32. */
  function Narrow(n: int): (r: int32)
    ensures -0x8000_0000 <= n < 0x8000_0000 ==> r == n
  {
    (n + 0x8000_0000) % 0x1_0000_0000 - 0x8000_0000
  }

  function SlotByte(n: nat): (r: byte)
    ensures n < 256 ==> r == n
  {
    n % 256
  }

  function OpCode(op: BinOp): Code {
    if op == NotEqual then Cat(Ins(OPER(EQ)), Ins(OPER(NOT))) else Ins(OPER(MachineOp(op)))
  }

  function UnCode(op: UnOp): Code {
    Ins(OPER(if op == Minus then NEG else NOT))
  }

  /** Postfix code. */
  function ExprCode(e: Expr, env: Scope): Code {
    match e
    case IntLit(n) => Ins(PUSH_INT(n))
    case BoolLit(b) => Ins(PUSH_BOOL(b))
    case Var(x) => Ins(LOAD(SlotByte(SlotOf(env, x))))
    case Un(op, e1) => Cat(ExprCode(e1, env), UnCode(op))
    case Bin(op, l, r) => Cat(Cat(ExprCode(l, env), ExprCode(r, env)), OpCode(op))
    case Call(f, args) => Cat(ArgsCode(args, env), CallTo(f))
  }

  function ArgsCode(args: Args, env: Scope): Code {
    match args
    case NoArgs => Skip
    case Arg(e, rest) => Cat(ExprCode(e, env), ArgsCode(rest, env))
  }

  // ----- statements -----

  /** A condition that is not a bool is tested for truthiness. */
  function CondCode(c: Expr, env: Scope, sg: Signatures): Code {
    if TypeOf(c, env, sg) == TBool then ExprCode(c, env)
    else Cat(ExprCode(c, env), Ins(IS_TRUTHY))
  }

  /** Between two statements of a block the value of the first is popped. */
  function PopCode(s: Stmt, env: Scope, sg: Signatures): Code {
    if StmtType(s, env, sg) == TVoid then Skip else Ins(POP)
  }

  function Jump(n: int): (c: Code)
    ensures Size(c) == 5
  {
    Ins(JUMP(Narrow(n)))
  }

  function JumpIfFalse(n: int): (c: Code)
    ensures Size(c) == 5
  {
    Ins(JUMP_IF_F(Narrow(n)))
  }

  function StoreIn(slot: nat): (c: Code)
    ensures Size(c) == 2
  {
    Ins(STORE(SlotByte(slot)))
  }

  function IfShape(cond: Code, thn: Code, end: nat): Code {
    Cat(Cat(cond, JumpIfFalse(end)), Cat(thn, Jump(end)))
  }

  function IfElseShape(cond: Code, thn: Code, els: Code, elseAt: nat): Code {
    Cat(Cat(Cat(cond, JumpIfFalse(elseAt)), Cat(thn, Jump(elseAt + Size(els)))), els)
  }

  function WhileShape(cond: Code, body: Code, start: nat, end: nat): Code {
    Cat(Cat(cond, JumpIfFalse(end)), Cat(Within(Narrow(end), body), Jump(start)))
  }

  /** The handler starts by storing the error into its slot. */
  function TryShape(body: Code, slot: nat, handler: Code, catchAt: nat): Code {
    Cat(Cat(Ins(TRY(Narrow(catchAt))), Cat(body, Cat(Ins(END_TRY), Jump(catchAt + 2 + Size(handler))))),
        Cat(StoreIn(slot), handler))
  }

  /** The code of a statement placed at address base; a continue goes to cont. */
  function StmtCode(s: Stmt, env: Scope, sg: Signatures, base: nat, cont: int32): Code {
    match s
    case Eval(e) => ExprCode(e, env)
    case Assign(e, x, _) => Cat(ExprCode(e, env), StoreIn(SlotOf(env, x)))
    case Print(e) => Cat(ExprCode(e, env), Ins(PRINT))
    case If(c, t) =>
      var cc := CondCode(c, env, sg);
      var ct := BlockCode(t, env, sg, base + Size(cc) + 5, cont);
      var end := base + Size(cc) + 5 + Size(ct) + 5;
      IfShape(cc, ct, end)
    case IfElse(c, t, f) =>
      var cc := CondCode(c, env, sg);
      var ct := BlockCode(t, env, sg, base + Size(cc) + 5, cont);
      var elseBase := base + Size(cc) + 5 + Size(ct) + 5;
      var cf := BlockCode(f, BlockScope(t, env, sg), sg, elseBase, cont);
      IfElseShape(cc, ct, cf, elseBase)
    case While(c, b) =>
      var cc := CondCode(c, env, sg);
      var cb := BlockCode(b, env, sg, base + Size(cc) + 5, Narrow(base));
      var end := base + Size(cc) + 5 + Size(cb) + 5;
      WhileShape(cc, cb, base, end)
    case Break => BreakOut
    case Continue => Ins(JUMP(cont))
    case Return(e) => Cat(ExprCode(e, env), Ins(RET))
    case Throw(e) => Cat(ExprCode(e, env), Ins(THROW))
    case Try(b, x, h) =>
      var env1 := BlockScope(b, env, sg);
      var cb := BlockCode(b, env, sg, base + 5, cont);
      var catchBase := base + 5 + Size(cb) + 6;
      var ch := BlockCode(h, env1 + [Local(x, TAny)], sg, catchBase + 2, cont);
      TryShape(cb, |env1|, ch, catchBase)
  }

  function BlockCode(b: Block, env: Scope, sg: Signatures, base: nat, cont: int32): Code {
    match b
    case End => Skip
    case Then(s, rest) =>
      var cs := StmtCode(s, env, sg, base, cont);
      if rest == End then cs
      else
        var cp := PopCode(s, env, sg);
        Cat(Cat(cs, cp), BlockCode(rest, StmtScope(s, env, sg), sg, base + Size(cs) + Size(cp), cont))
  }

  // ----- functions and programs -----

  /** Arguments are stored from the last parameter to the first. */
  function StoresCode(n: nat): (c: Code)
    ensures Size(c) == 2 * n
  {
    if n == 0 then Skip else Cat(StoreIn(n - 1), StoresCode(n - 1))
  }

  function BodyCode(f: Fun, sg: Signatures, entry: nat): Code {
    BlockCode(f.body, ParamScope(f.params), sg, entry + 2 * |f.params|, 0)
  }

  /** A jump over the function, the stores of its parameters, its body and a return. */
  function FunCode(f: Fun, sg: Signatures, base: nat): Code {
    var body := BodyCode(f, sg, base + 5);
    Cat(Jump(base + 5 + 2 * |f.params| + Size(body) + 1),
        Cat(StoresCode(|f.params|), Cat(body, Ins(RET))))
  }

  /** The first n functions, one after the other from address 0. */
  function FunsCode(p: Program, n: nat, sg: Signatures): Code
    requires n <= |p|
    decreases n
  {
    if n == 0 then Skip
    else
      var before := FunsCode(p, n - 1, sg);
      Cat(before, FunCode(p[n - 1], sg, Size(before)))
  }

  /** The start of the body of the i-th function, just after the jump over it. */
  function Entry(p: Program, i: nat, sg: Signatures): nat
    requires i < |p|
  {
    Size(FunsCode(p, i, sg)) + 5
  }

  /** The addresses known once the first n functions are defined. */
  function Entries(p: Program, n: nat, sg: Signatures): map<Name, int32>
    requires n <= |p|
    decreases n
  {
    if n == 0 then map[] else Entries(p, n - 1, sg)[p[n - 1].name := Narrow(Entry(p, n - 1, sg))]
  }

  lemma {:induction false} EntryIsKnown(p: Program, n: nat, i: nat, sg: Signatures)
    requires i < n <= |p| && DistinctNames(p)
    ensures p[i].name in Entries(p, n, sg) && Entries(p, n, sg)[p[i].name] == Narrow(Entry(p, i, sg))
    decreases n
  {
    hide Entry, Narrow;
    if i < n - 1 {
      EntryIsKnown(p, n - 1, i, sg);
    }
  }

  lemma {:induction false} OnlyEntries(p: Program, n: nat, sg: Signatures, f: Name)
    requires n <= |p| && f in Entries(p, n, sg)
    ensures exists i :: 0 <= i < n && p[i].name == f
    decreases n
  {
    hide Entry;
    if f != p[n - 1].name {
      OnlyEntries(p, n - 1, sg, f);
    }
  }

  /** The bytes depend only on the addresses of the callees. */
  lemma {:induction false} SameTargets(c: Code, k: Targets, k': Targets)
    requires k.brk == k'.brk && forall f :: CallTarget(k.addrs, f) == CallTarget(k'.addrs, f)
    ensures Flat(c, k) == Flat(c, k')
    decreases c
  {
    hide CallTarget;
    match c
    case Cat(a, b) =>
      SameTargets(a, k, k');
      SameTargets(b, k, k');
    case Within(end, a) => SameTargets(a, k.(brk := end), k'.(brk := end));
    case _ =>
  }

  function ProgramCode(p: Program): Code {
    Cat(FunsCode(p, |p|, AllSignatures(p)), Cat(CallTo(MAIN_NAME), Ins(HALT)))
  }

  function ProgramTargets(p: Program): Targets {
    Targets(Entries(p, |p|, AllSignatures(p)), 0)
  }

  function ProgramBytes(p: Program): seq<byte> {
    Flat(ProgramCode(p), ProgramTargets(p))
  }

  /** The addresses of the program fit the int32 operands. */
  predicate Fits(p: Program) {
    |ProgramBytes(p)| < 0x8000_0000
  }
}
