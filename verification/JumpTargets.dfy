/** Where the jumps of compiled programs go: every placeholder has been patched to the start of an
    instruction inside its own function, and every call goes to the entry of a function. */
module JumpTargets {
  import opened Bytes
  import opened Values
  import opened Machine
  import opened Syntax
  import opened Semantics
  import opened Soundness
  import opened CodeGen
  import opened Emission
  import opened Parsing
  import opened Printing
  import opened Statements
  import opened Compilation
  import opened Forward
  import Runs
  import Simulation
  import I = InstructionSet

  predicate Jumps(i: I.Instr) {
    i.op == I.JUMP || i.op == I.JUMP_IF_F || i.op == I.TRY
  }

  function Target(i: I.Instr): int32 {
    if i.operands != [] && i.operands[0].Int? then i.operands[0].n else 0
  }

  // ----- instruction boundaries -----

  /** An instruction of the list starts at address x, or its last one ends there, when the list starts at base. */
  predicate Starts(list: seq<I.Instr>, base: int, x: int)
    decreases |list|
  {
    x == base || (list != [] && Starts(list[1..], base + |I.Encode(list[0])|, x))
  }

  lemma {:induction false} StartsInside(list: seq<I.Instr>, base: int, x: int)
    requires Starts(list, base, x)
    ensures base <= x <= base + |I.Assemble(list)|
    decreases |list|
  {
    hide I.Encode;
    if x != base {
      StartsInside(list[1..], base + |I.Encode(list[0])|, x);
    }
  }

  lemma {:induction false} StartsCat(a: seq<I.Instr>, b: seq<I.Instr>, base: int, x: int)
    requires Starts(a, base, x) || Starts(b, base + |I.Assemble(a)|, x)
    ensures Starts(a + b, base, x)
    decreases |a|
  {
    hide I.Encode;
    if a == [] {
      assert a + b == b;
    } else if x != base {
      assert (a + b)[0] == a[0] && (a + b)[1..] == a[1..] + b;
      assert |I.Assemble(a)| == |I.Encode(a[0])| + |I.Assemble(a[1..])|;
      StartsCat(a[1..], b, base + |I.Encode(a[0])|, x);
    }
  }

  lemma {:induction false} EndStarts(list: seq<I.Instr>, base: int)
    ensures Starts(list, base, base + |I.Assemble(list)|)
    decreases |list|
  {
    hide I.Encode;
    if list != [] {
      EndStarts(list[1..], base + |I.Encode(list[0])|);
    }
  }

  // ----- code whose jumps go to boundaries -----

  /** Every jump goes to a boundary of the list or to one of the outer addresses, and every call to one
      of the entries. */
  predicate Aimed(list: seq<I.Instr>, base: int, outer: set<int>, entries: set<int>) {
    forall i | i in list ::
      && i.Valid()
      && (Jumps(i) ==> Starts(list, base, Target(i)) || Target(i) in outer)
      && (i.op == I.CALL ==> Target(i) in entries)
  }

  ghost predicate Sited(bytes: seq<byte>, base: int, outer: set<int>, entries: set<int>) {
    exists list :: I.Assemble(list) == bytes && Aimed(list, base, outer, entries)
  }

  lemma AimedCat(a: seq<I.Instr>, b: seq<I.Instr>, base: int, inner: set<int>, outer: set<int>, entries: set<int>)
    requires Aimed(a, base, inner, entries) && Aimed(b, base + |I.Assemble(a)|, inner, entries)
    requires forall x | x in inner ::
      x in outer || x == base || x == base + |I.Assemble(a)| || x == base + |I.Assemble(a)| + |I.Assemble(b)|
    ensures Aimed(a + b, base, outer, entries)
  {
    hide I.Assemble, Starts, Target, Jumps;
    var mid := base + |I.Assemble(a)|;
    forall x | Starts(a, base, x) || Starts(b, mid, x)
      ensures Starts(a + b, base, x)
    {
      StartsCat(a, b, base, x);
    }
    Seams(a, b, base);
    forall i | i in a + b
      ensures i.Valid() && (Jumps(i) ==> Starts(a + b, base, Target(i)) || Target(i) in outer)
      ensures i.op == I.CALL ==> Target(i) in entries
    {
      assert i in a || i in b;
    }
  }

  lemma Seams(a: seq<I.Instr>, b: seq<I.Instr>, base: int)
    ensures Starts(a, base, base) && Starts(a, base, base + |I.Assemble(a)|)
    ensures Starts(b, base + |I.Assemble(a)|, base + |I.Assemble(a)| + |I.Assemble(b)|)
  {
    EndStarts(a, base);
    EndStarts(b, base + |I.Assemble(a)|);
  }

  /** One tree after the other: jumps to the start, the seam and the end are no longer outer ones. */
  lemma SitedCat(a: Code, b: Code, k: Targets, base: int, inner: set<int>, outer: set<int>, entries: set<int>)
    requires Sited(Flat(a, k), base, inner, entries) && Sited(Flat(b, k), base + Size(a), inner, entries)
    requires forall x | x in inner :: x in outer || x == base || x == base + Size(a) || x == base + Size(a) + Size(b)
    ensures Sited(Flat(Cat(a, b), k), base, outer, entries)
  {
    hide Aimed, I.Assemble, Flat, Size;
    var la :| I.Assemble(la) == Flat(a, k) && Aimed(la, base, inner, entries);
    var lb :| I.Assemble(lb) == Flat(b, k) && Aimed(lb, base + Size(a), inner, entries);
    AimedCat(la, lb, base, inner, outer, entries);
    I.AssembleAppend(la, lb);
    FlatOfCat(a, b, k);
    assert I.Assemble(la + lb) == Flat(Cat(a, b), k);
  }

  lemma SitedMore(bytes: seq<byte>, base: int, inner: set<int>, outer: set<int>, entries: set<int>)
    requires Sited(bytes, base, inner, entries) && inner <= outer
    ensures Sited(bytes, base, outer, entries)
  {
    hide Starts, Target, Jumps, I.Assemble;
    var list :| I.Assemble(list) == bytes && Aimed(list, base, inner, entries);
    assert Aimed(list, base, outer, entries);
  }

  predicate GoesWell(i: Instr, outer: set<int>, entries: set<int>) {
    match i
    case JUMP(a) => a in outer
    case JUMP_IF_F(a) => a in outer
    case TRY(a) => a in outer
    case CALL(a) => a in entries
    case _ => true
  }

  lemma SitedIns(i: Instr, base: int, outer: set<int>, entries: set<int>)
    requires GoesWell(i, outer, entries)
    ensures Sited(Encode(i), base, outer, entries)
  {
    hide Encode, I.Encode, Starts, I.OpOf;
    var list := [I.Embed(i)];
    I.SameBytes(i);
    EmbedAims(i);
    assert list[1..] == [];
    assert I.Encode(list[0]) + [] == I.Encode(list[0]);
    assert I.Assemble(list) == Encode(i);
  }

  lemma EmbedAims(i: Instr)
    ensures var e := I.Embed(i);
      && (Jumps(e) ==> (i.JUMP? || i.JUMP_IF_F? || i.TRY?) && Target(e) == i.addr)
      && (e.op == I.CALL ==> i.CALL? && Target(e) == i.addr)
  {}

  lemma SitedNothing(base: int, outer: set<int>, entries: set<int>)
    ensures Sited([], base, outer, entries)
  {
    assert I.Assemble([]) == [] && Aimed([], base, outer, entries);
  }

  // ----- expressions -----

  /** Every function of the program is called at one of the entries. */
  predicate CallsKnown(sg: Signatures, k: Targets, entries: set<int>) {
    forall f | f in sg :: CallTarget(k.addrs, f) in entries
  }

  lemma {:induction false} ExprSited(e: Expr, env: Scope, sg: Signatures, depth: nat, k: Targets, base: int, entries: set<int>)
    requires OkExpr(e, env, sg, depth) && CallsKnown(sg, k, entries)
    ensures Sited(Flat(ExprCode(e, env), k), base, {}, entries)
    decreases e
  {
    hide Sited, Encode, TypeOf, CallsKnown, CallTarget;
    match e
    case IntLit(n) => SitedIns(PUSH_INT(n), base, {}, entries);
    case BoolLit(b) => SitedIns(PUSH_BOOL(b), base, {}, entries);
    case Var(x) => SitedIns(LOAD(SlotByte(SlotOf(env, x))), base, {}, entries);
    case Un(op, e1) =>
      ExprSited(e1, env, sg, depth, k, base, entries);
      SitedIns(OPER(if op == Minus then NEG else NOT), base + Size(ExprCode(e1, env)), {}, entries);
      SitedCat(ExprCode(e1, env), UnCode(op), k, base, {}, {}, entries);
    case Bin(op, l, r) =>
      var cl, cr := ExprCode(l, env), ExprCode(r, env);
      ExprSited(l, env, sg, depth, k, base, entries);
      ExprSited(r, env, sg, depth + 1, k, base + Size(cl), entries);
      SitedCat(cl, cr, k, base, {}, {}, entries);
      OpSited(op, k, base + Size(cl) + Size(cr), entries);
      SitedCat(Cat(cl, cr), OpCode(op), k, base, {}, {}, entries);
    case Call(f, args) =>
      ArgsSited(args, env, sg, sg[f].params, depth, k, base, entries);
      CallSited(f, sg, k, base + Size(ArgsCode(args, env)), entries);
      SitedCat(ArgsCode(args, env), CallTo(f), k, base, {}, {}, entries);
  }

  lemma OpSited(op: BinOp, k: Targets, base: int, entries: set<int>)
    ensures Sited(Flat(OpCode(op), k), base, {}, entries)
  {
    hide Sited, Encode;
    if op == NotEqual {
      SitedIns(OPER(EQ), base, {}, entries);
      SitedIns(OPER(NOT), base + Size(Ins(OPER(EQ))), {}, entries);
      SitedCat(Ins(OPER(EQ)), Ins(OPER(NOT)), k, base, {}, {}, entries);
    } else {
      SitedIns(OPER(MachineOp(op)), base, {}, entries);
    }
  }

  lemma CallSited(f: Name, sg: Signatures, k: Targets, base: int, entries: set<int>)
    requires f in sg && CallsKnown(sg, k, entries)
    ensures Sited(Flat(CallTo(f), k), base, {}, entries)
  {
    hide Sited, Encode, CallTarget;
    SitedIns(CALL(CallTarget(k.addrs, f)), base, {}, entries);
  }

  lemma {:induction false} ArgsSited(args: Args, env: Scope, sg: Signatures, params: seq<Type>, depth: nat, k: Targets, base: int,
                                     entries: set<int>)
    requires OkArgs(args, env, sg, params, depth) && CallsKnown(sg, k, entries)
    ensures Sited(Flat(ArgsCode(args, env), k), base, {}, entries)
    decreases args
  {
    hide Sited, CallsKnown, ExprCode;
    match args
    case NoArgs => SitedNothing(base, {}, entries);
    case Arg(e, rest) =>
      ExprSited(e, env, sg, depth, k, base, entries);
      ArgsSited(rest, env, sg, params[1..], depth, k, base + Size(ExprCode(e, env)), entries);
      SitedCat(ExprCode(e, env), ArgsCode(rest, env), k, base, {}, {}, entries);
  }

  lemma CondSited(c: Expr, env: Scope, sg: Signatures, k: Targets, base: int, outer: set<int>, entries: set<int>)
    requires OkExpr(c, env, sg, 0) && CallsKnown(sg, k, entries)
    ensures Sited(Flat(CondCode(c, env, sg), k), base, outer, entries)
  {
    hide Sited, CallsKnown, ExprCode, OkExpr, Encode;
    ExprSited(c, env, sg, 0, k, base, entries);
    SitedIns(IS_TRUTHY, base + Size(ExprCode(c, env)), {}, entries);
    SitedCat(ExprCode(c, env), Ins(IS_TRUTHY), k, base, {}, {}, entries);
    SitedMore(Flat(CondCode(c, env, sg), k), base, {}, outer, entries);
  }

  /** An expression and one plain instruction. */
  lemma ExprThenIns(e: Expr, i: Instr, env: Scope, sg: Signatures, k: Targets, base: int, outer: set<int>, entries: set<int>)
    requires OkExpr(e, env, sg, 0) && CallsKnown(sg, k, entries) && GoesWell(i, {}, {})
    ensures Sited(Flat(Cat(ExprCode(e, env), Ins(i)), k), base, outer, entries)
  {
    hide Sited, CallsKnown, ExprCode, OkExpr, Encode;
    ExprSited(e, env, sg, 0, k, base, entries);
    SitedIns(i, base + Size(ExprCode(e, env)), {}, entries);
    SitedCat(ExprCode(e, env), Ins(i), k, base, {}, {}, entries);
    SitedMore(Flat(Cat(ExprCode(e, env), Ins(i)), k), base, {}, outer, entries);
  }

  // ----- the shapes of compound statements -----

  lemma SitedJump(target: nat, base: int, outer: set<int>, entries: set<int>, k: Targets)
    requires target < 0x8000_0000 && target in outer
    ensures Sited(Flat(Jump(target), k), base, outer, entries) && Sited(Flat(JumpIfFalse(target), k), base, outer, entries)
    ensures Sited(Flat(Ins(TRY(Narrow(target))), k), base, outer, entries)
  {
    hide Sited, Encode;
    SitedIns(JUMP(Narrow(target)), base, outer, entries);
    SitedIns(JUMP_IF_F(Narrow(target)), base, outer, entries);
    SitedIns(TRY(Narrow(target)), base, outer, entries);
  }

  lemma IfSited(cc: Code, ct: Code, end: nat, k: Targets, base: nat, outer: set<int>, entries: set<int>)
    requires end == base + Size(cc) + 5 + Size(ct) + 5 < 0x8000_0000
    requires Sited(Flat(cc, k), base, outer, entries) && Sited(Flat(ct, k), base + Size(cc) + 5, outer, entries)
    ensures Sited(Flat(IfShape(cc, ct, end), k), base, outer, entries)
  {
    hide Sited, Flat, Jump, JumpIfFalse, Size;
    var inner := outer + {end};
    SitedMore(Flat(cc, k), base, outer, inner, entries);
    SitedMore(Flat(ct, k), base + Size(cc) + 5, outer, inner, entries);
    SitedJump(end, base + Size(cc), inner, entries, k);
    SitedJump(end, base + Size(cc) + 5 + Size(ct), inner, entries, k);
    SizeOfTwo(cc, JumpIfFalse(end));
    SizeOfTwo(ct, Jump(end));
    SitedCat(cc, JumpIfFalse(end), k, base, inner, inner, entries);
    SitedCat(ct, Jump(end), k, base + Size(cc) + 5, inner, inner, entries);
    SitedCat(Cat(cc, JumpIfFalse(end)), Cat(ct, Jump(end)), k, base, inner, outer, entries);
  }

  lemma IfElseSited(cc: Code, ct: Code, cf: Code, elseAt: nat, k: Targets, base: nat, outer: set<int>, entries: set<int>)
    requires elseAt == base + Size(cc) + 5 + Size(ct) + 5 && elseAt + Size(cf) < 0x8000_0000
    requires Sited(Flat(cc, k), base, outer, entries) && Sited(Flat(ct, k), base + Size(cc) + 5, outer, entries)
    requires Sited(Flat(cf, k), elseAt, outer, entries)
    ensures Sited(Flat(IfElseShape(cc, ct, cf, elseAt), k), base, outer, entries)
  {
    hide Sited, Flat, Jump, JumpIfFalse, Size;
    var end := elseAt + Size(cf);
    var inner := outer + {elseAt, end};
    SitedMore(Flat(cc, k), base, outer, inner, entries);
    SitedMore(Flat(ct, k), base + Size(cc) + 5, outer, inner, entries);
    SitedMore(Flat(cf, k), elseAt, outer, inner, entries);
    SitedJump(elseAt, base + Size(cc), inner, entries, k);
    SitedJump(end, base + Size(cc) + 5 + Size(ct), inner, entries, k);
    SizeOfTwo(cc, JumpIfFalse(elseAt));
    SizeOfTwo(ct, Jump(end));
    var first := Cat(Cat(cc, JumpIfFalse(elseAt)), Cat(ct, Jump(end)));
    SizeOfTwo(Cat(cc, JumpIfFalse(elseAt)), Cat(ct, Jump(end)));
    SitedCat(cc, JumpIfFalse(elseAt), k, base, inner, inner, entries);
    SitedCat(ct, Jump(end), k, base + Size(cc) + 5, inner, inner, entries);
    SitedCat(Cat(cc, JumpIfFalse(elseAt)), Cat(ct, Jump(end)), k, base, inner, inner, entries);
    SitedCat(first, cf, k, base, inner, outer, entries);
  }

  lemma WhileSited(cc: Code, cb: Code, start: nat, end: nat, k: Targets, outer: set<int>, entries: set<int>)
    requires end == start + Size(cc) + 5 + Size(cb) + 5 < 0x8000_0000
    requires Sited(Flat(cc, k), start, outer, entries)
    requires Sited(Flat(cb, k.(brk := Narrow(end))), start + Size(cc) + 5, outer + {start, end}, entries)
    ensures Sited(Flat(WhileShape(cc, cb, start, end), k), start, outer, entries)
  {
    hide Sited, Flat, Jump, JumpIfFalse, Size;
    var inner := outer + {start, end};
    var loop := Within(Narrow(end), cb);
    LoopIs(cb, Narrow(end), k);
    SitedMore(Flat(cc, k), start, outer, inner, entries);
    SitedJump(end, start + Size(cc), inner, entries, k);
    SitedJump(start, start + Size(cc) + 5 + Size(cb), inner, entries, k);
    SizeOfTwo(cc, JumpIfFalse(end));
    SizeOfTwo(loop, Jump(start));
    SitedCat(cc, JumpIfFalse(end), k, start, inner, inner, entries);
    SitedCat(loop, Jump(start), k, start + Size(cc) + 5, inner, inner, entries);
    SitedCat(Cat(cc, JumpIfFalse(end)), Cat(loop, Jump(start)), k, start, inner, outer, entries);
  }

  lemma LoopIs(body: Code, end: int32, k: Targets)
    ensures Flat(Within(end, body), k) == Flat(body, k.(brk := end)) && Size(Within(end, body)) == Size(body)
  {}

  lemma TrySited(cb: Code, slot: nat, ch: Code, catchAt: nat, k: Targets, base: nat, outer: set<int>, entries: set<int>)
    requires catchAt == base + 5 + Size(cb) + 6 && catchAt + 2 + Size(ch) < 0x8000_0000
    requires Sited(Flat(cb, k), base + 5, outer, entries) && Sited(Flat(ch, k), catchAt + 2, outer, entries)
    ensures Sited(Flat(TryShape(cb, slot, ch, catchAt), k), base, outer, entries)
  {
    hide Sited, Flat, Jump, StoreIn, Size, Encode, Ins;
    var end := catchAt + 2 + Size(ch);
    var inner := outer + {catchAt, end};
    var guard, leave := Ins(TRY(Narrow(catchAt))), Cat(Ins(END_TRY), Jump(end));
    Simulation.TrySizes(Narrow(catchAt));
    InsFlat(END_TRY, k);
    InsFlat(STORE(SlotByte(slot)), k);
    StoreInIs(slot);
    SitedMore(Flat(cb, k), base + 5, outer, inner, entries);
    SitedMore(Flat(ch, k), catchAt + 2, outer, inner, entries);
    SitedJump(catchAt, base, inner, entries, k);
    SitedIns(END_TRY, catchAt - 6, inner, entries);
    SitedJump(end, catchAt - 5, inner, entries, k);
    SitedIns(STORE(SlotByte(slot)), catchAt, inner, entries);
    SizeOfTwo(Ins(END_TRY), Jump(end));
    SizeOfTwo(cb, leave);
    SizeOfTwo(guard, Cat(cb, leave));
    SizeOfTwo(StoreIn(slot), ch);
    SitedCat(Ins(END_TRY), Jump(end), k, catchAt - 6, inner, inner, entries);
    SitedCat(cb, leave, k, base + 5, inner, inner, entries);
    SitedCat(guard, Cat(cb, leave), k, base, inner, inner, entries);
    SitedCat(StoreIn(slot), ch, k, catchAt, inner, inner, entries);
    SitedCat(Cat(guard, Cat(cb, leave)), Cat(StoreIn(slot), ch), k, base, inner, outer, entries);
  }

  lemma InsFlat(i: Instr, k: Targets)
    ensures Flat(Ins(i), k) == Encode(i)
  {
    hide Encode;
  }

  // ----- statements -----

  /** The targets of breaks and continues are among the outer addresses where they are allowed. */
  predicate LoopKnown(cx: Context, k: Targets, cont: int32, outer: set<int>) {
    cx.mayBreak ==> k.brk in outer && cont in outer
  }

  /** The jumps of a statement go to boundaries of its own code, and its breaks and continues to those
      of the loop around it. */
  lemma {:induction false} StmtSited(s: Stmt, cx: Context, env: Scope, base: nat, cont: int32, k: Targets, outer: set<int>,
                                     entries: set<int>)
    requires OkStmt(s, cx, env) && CallsKnown(cx.sg, k, entries) && LoopKnown(cx, k, cont, outer)
    requires base + Size(StmtCode(s, env, cx.sg, base, cont)) < 0x8000_0000
    ensures Sited(Flat(StmtCode(s, env, cx.sg, base, cont), k), base, outer, entries)
    decreases s, 1
  {
    hide Sited, CallsKnown, OkExpr, ExprCode, OkBlock, BlockCode, BlockScope, CondCode, IfShape, IfElseShape, WhileShape, TryShape, Size,
      Encode, SlotOf, TypeOf, StoreIn, Narrow, Flat;
    var sg := cx.sg;
    match s
    case Eval(e) =>
      ExprSited(e, env, sg, 0, k, base, entries);
      SitedMore(Flat(ExprCode(e, env), k), base, {}, outer, entries);
    case Assign(e, x, _) =>
      StoreInIs(SlotOf(env, x));
      ExprThenIns(e, STORE(SlotByte(SlotOf(env, x))), env, sg, k, base, outer, entries);
    case Print(e) => ExprThenIns(e, PRINT, env, sg, k, base, outer, entries);
    case Return(e) => ExprThenIns(e, RET, env, sg, k, base, outer, entries);
    case Throw(e) => ExprThenIns(e, THROW, env, sg, k, base, outer, entries);
    case Break => BreakSited(k, base, outer, entries);
    case Continue =>
      InsFlat(JUMP(cont), k);
      SitedIns(JUMP(cont), base, outer, entries);
    case _ => CompoundSited(s, cx, env, base, cont, k, outer, entries);
  }

  lemma BreakSited(k: Targets, base: nat, outer: set<int>, entries: set<int>)
    requires k.brk in outer
    ensures Sited(Flat(BreakOut, k), base, outer, entries)
  {
    hide Sited, Encode;
    SitedIns(JUMP(k.brk), base, outer, entries);
  }

  lemma {:induction false} CompoundSited(s: Stmt, cx: Context, env: Scope, base: nat, cont: int32, k: Targets, outer: set<int>,
                                         entries: set<int>)
    requires (s.If? || s.IfElse? || s.While? || s.Try?) && OkStmt(s, cx, env) && CallsKnown(cx.sg, k, entries)
    requires LoopKnown(cx, k, cont, outer) && base + Size(StmtCode(s, env, cx.sg, base, cont)) < 0x8000_0000
    ensures Sited(Flat(StmtCode(s, env, cx.sg, base, cont), k), base, outer, entries)
    decreases s, 0
  {
    hide Sited, CallsKnown, OkExpr, OkBlock, OkStmt, BlockCode, BlockScope, CondCode, IfShape, IfElseShape, WhileShape, TryShape, Size,
      Narrow, Flat;
    var sg := cx.sg;
    OkParts(s, cx, env);
    match s
    case If(c, t) =>
      var cc := CondCode(c, env, sg);
      var at := base + Size(cc) + 5;
      var ct := BlockCode(t, env, sg, at, cont);
      IfSize(cc, ct, at + Size(ct) + 5);
      CondSited(c, env, sg, k, base, outer, entries);
      BlockSited(t, cx, env, at, cont, k, outer, entries);
      IfSited(cc, ct, at + Size(ct) + 5, k, base, outer, entries);
    case IfElse(c, t, f) =>
      var cc := CondCode(c, env, sg);
      var at := base + Size(cc) + 5;
      var ct := BlockCode(t, env, sg, at, cont);
      var elseAt := at + Size(ct) + 5;
      var cf := BlockCode(f, BlockScope(t, env, sg), sg, elseAt, cont);
      IfElseSize(cc, ct, cf, elseAt);
      CondSited(c, env, sg, k, base, outer, entries);
      BlockSited(t, cx, env, at, cont, k, outer, entries);
      BlockSited(f, cx, BlockScope(t, env, sg), elseAt, cont, k, outer, entries);
      IfElseSited(cc, ct, cf, elseAt, k, base, outer, entries);
    case While(c, b) =>
      var cc := CondCode(c, env, sg);
      var at := base + Size(cc) + 5;
      var cb := BlockCode(b, env, sg, at, Narrow(base));
      var end := at + Size(cb) + 5;
      WhileSize(cc, cb, base, end);
      assert Narrow(base) == base && Narrow(end) == end;
      CondSited(c, env, sg, k, base, outer, entries);
      SameCalls(sg, k, Narrow(end), entries);
      BlockSited(b, cx.(mayBreak := true), env, at, Narrow(base), k.(brk := Narrow(end)), outer + {base, end}, entries);
      WhileSited(cc, cb, base, end, k, outer, entries);
    case Try(b, x, h) =>
      var env1 := BlockScope(b, env, sg);
      var cb := BlockCode(b, env, sg, base + 5, cont);
      var catchAt := base + 5 + Size(cb) + 6;
      var ch := BlockCode(h, env1 + [Local(x, TAny)], sg, catchAt + 2, cont);
      TryShapeSize(cb, |env1|, ch, catchAt);
      BlockSited(b, cx.(mayBreak := false, mayReturn := false), env, base + 5, cont, k, outer, entries);
      BlockSited(h, cx, env1 + [Local(x, TAny)], catchAt + 2, cont, k, outer, entries);
      TrySited(cb, |env1|, ch, catchAt, k, base, outer, entries);
  }

  lemma SameCalls(sg: Signatures, k: Targets, end: int32, entries: set<int>)
    requires CallsKnown(sg, k, entries)
    ensures CallsKnown(sg, k.(brk := end), entries)
  {}

  lemma IfSize(cc: Code, ct: Code, end: nat)
    ensures Size(IfShape(cc, ct, end)) == Size(cc) + 5 + Size(ct) + 5
  {
    hide Jump, JumpIfFalse;
    SizeOfTwo(Cat(cc, JumpIfFalse(end)), Cat(ct, Jump(end)));
  }

  lemma IfElseSize(cc: Code, ct: Code, cf: Code, elseAt: nat)
    ensures Size(IfElseShape(cc, ct, cf, elseAt)) == Size(cc) + 5 + Size(ct) + 5 + Size(cf)
  {
    hide Jump, JumpIfFalse;
    var end := elseAt + Size(cf);
    SizeOfTwo(Cat(cc, JumpIfFalse(elseAt)), Cat(ct, Jump(end)));
    SizeOfTwo(Cat(Cat(cc, JumpIfFalse(elseAt)), Cat(ct, Jump(end))), cf);
  }

  lemma WhileSize(cc: Code, cb: Code, start: nat, end: nat)
    ensures Size(WhileShape(cc, cb, start, end)) == Size(cc) + 5 + Size(cb) + 5
  {
    hide Jump, JumpIfFalse, Narrow;
    SizeOfTwo(Cat(cc, JumpIfFalse(end)), Cat(Within(Narrow(end), cb), Jump(start)));
  }

  lemma TryShapeSize(cb: Code, slot: nat, ch: Code, catchAt: nat)
    ensures Size(TryShape(cb, slot, ch, catchAt)) == 5 + Size(cb) + 6 + 2 + Size(ch)
  {
    hide Ins, Jump, StoreIn;
    Simulation.TrySizes(Narrow(catchAt));
    var leave := Cat(Ins(END_TRY), Jump(catchAt + 2 + Size(ch)));
    SizeOfTwo(cb, leave);
    SizeOfTwo(Ins(TRY(Narrow(catchAt))), Cat(cb, leave));
    SizeOfTwo(Cat(Ins(TRY(Narrow(catchAt))), Cat(cb, leave)), Cat(StoreIn(slot), ch));
  }

  lemma {:induction false} BlockSited(b: Block, cx: Context, env: Scope, base: nat, cont: int32, k: Targets, outer: set<int>,
                                      entries: set<int>)
    requires OkBlock(b, cx, env) && CallsKnown(cx.sg, k, entries) && LoopKnown(cx, k, cont, outer)
    requires base + Size(BlockCode(b, env, cx.sg, base, cont)) < 0x8000_0000
    ensures Sited(Flat(BlockCode(b, env, cx.sg, base, cont), k), base, outer, entries)
    decreases b, 2
  {
    hide Sited, CallsKnown, OkStmt, StmtCode, StmtScope, StmtType, PopCode, LoopKnown, Narrow;
    match b
    case End => SitedNothing(base, outer, entries);
    case Then(s, rest) =>
      if rest == End {
        StmtSited(s, cx, env, base, cont, k, outer, entries);
      } else {
        var cs, cp := StmtCode(s, env, cx.sg, base, cont), PopCode(s, env, cx.sg);
        var last := base + Size(cs) + Size(cp);
        var cr := BlockCode(rest, StmtScope(s, env, cx.sg), cx.sg, last, cont);
        StmtSited(s, cx, env, base, cont, k, outer, entries);
        PopSited(s, env, cx.sg, k, base + Size(cs), outer, entries);
        BlockSited(rest, cx, StmtScope(s, env, cx.sg), last, cont, k, outer, entries);
        SitedCat(cs, cp, k, base, outer, outer, entries);
        SitedCat(Cat(cs, cp), cr, k, base, outer, outer, entries);
      }
  }

  lemma PopSited(s: Stmt, env: Scope, sg: Signatures, k: Targets, base: int, outer: set<int>, entries: set<int>)
    ensures Sited(Flat(PopCode(s, env, sg), k), base, outer, entries)
  {
    hide Sited, StmtType, Encode;
    SitedNothing(base, outer, entries);
    SitedIns(POP, base, outer, entries);
  }

  // ----- functions -----

  lemma {:induction false} StoresSited(n: nat, k: Targets, base: int, entries: set<int>)
    ensures Sited(Flat(StoresCode(n), k), base, {}, entries)
    decreases n
  {
    hide Sited, StoreIn, Encode;
    if n == 0 {
      SitedNothing(base, {}, entries);
    } else {
      StoreInIs(n - 1);
      InsFlat(STORE(SlotByte(n - 1)), k);
      SitedIns(STORE(SlotByte(n - 1)), base, {}, entries);
      StoresSited(n - 1, k, base + 2, entries);
      SitedCat(StoreIn(n - 1), StoresCode(n - 1), k, base, {}, {}, entries);
    }
  }

  /** The stores and the body of a function: no jump leaves them. */
  lemma BodySited(f: Fun, sg: Signatures, base: nat, k: Targets, entries: set<int>)
    requires OkFun(f, sg) && CallsKnown(sg, k, entries) && base + Size(FunCode(f, sg, base)) < 0x8000_0000
    ensures Sited(Flat(Cat(StoresCode(|f.params|), BodyCode(f, sg, base + 5)), k), base + 5, {}, entries)
    ensures Size(FunCode(f, sg, base)) == 6 + Size(Cat(StoresCode(|f.params|), BodyCode(f, sg, base + 5)))
  {
    hide Sited, CallsKnown, StoresCode, OkBlock, BlockCode, Encode, Jump, Ins, BlockType;
    var n := 2 * |f.params|;
    var body := BodyCode(f, sg, base + 5);
    RetAndJumpSize();
    SizeOfTwo(body, Ins(RET));
    SizeOfTwo(StoresCode(|f.params|), Cat(body, Ins(RET)));
    SizeOfTwo(StoresCode(|f.params|), body);
    StoresSited(|f.params|, k, base + 5, entries);
    BlockSited(f.body, BodyContext(f, sg), ParamScope(f.params), base + 5 + n, 0, k, {}, entries);
    SitedCat(StoresCode(|f.params|), body, k, base + 5, {}, {}, entries);
  }

  // ----- the listing of a program -----

  function Offset(list: seq<I.Instr>, j: nat): nat
    requires j <= |list|
  {
    |I.Assemble(list[..j])|
  }

  /** Where the code of function i starts; the last one ends where the call of main starts. */
  function FunStart(p: Program, i: nat): nat
    requires i <= |p|
  {
    Size(FunsCode(p, i, AllSignatures(p)))
  }

  /** The jump at the start of a function goes just past the function, every other jump, if it is one, to
      an instruction of the same function behind that jump, and a call to the entry of a function. */
  ghost predicate WellAimed(p: Program, list: seq<I.Instr>, j: nat)
    requires j < |list|
  {
    && (Jumps(list[j]) ==>
          exists i: nat, m: nat ::
            && i < |p| && m <= |list| && Offset(list, m) == Target(list[j]) && FunStart(p, i) <= Offset(list, j) < FunStart(p, i + 1)
            && (if Offset(list, j) == FunStart(p, i) then list[j].op == I.JUMP && Target(list[j]) == FunStart(p, i + 1)
                else FunStart(p, i) + 5 <= Target(list[j]) < FunStart(p, i + 1)))
    && (list[j].op == I.CALL ==> exists i: nat :: i < |p| && Target(list[j]) == Entry(p, i, AllSignatures(p)))
  }

  lemma OffsetCat(a: seq<I.Instr>, b: seq<I.Instr>, j: nat)
    requires j <= |b|
    ensures Offset(a + b, |a| + j) == |I.Assemble(a)| + Offset(b, j)
  {
    assert (a + b)[..|a| + j] == a + b[..j];
    I.AssembleAppend(a, b[..j]);
  }

  lemma OffsetFirst(a: seq<I.Instr>, b: seq<I.Instr>, j: nat)
    requires j <= |a|
    ensures Offset(a + b, j) == Offset(a, j)
  {
    assert (a + b)[..j] == a[..j];
  }

  /** An instruction that is not the first does not start at the start, nor at the end. */
  lemma OffsetBetween(list: seq<I.Instr>, j: nat)
    requires j < |list|
    ensures Offset(list, j) < |I.Assemble(list)| && (Offset(list, j) == 0 <==> j == 0)
  {
    hide I.Encode;
    I.Around(list, j);
    I.SomeBytes(list[j]);
    if j > 0 {
      I.SomeBytes(list[0]);
      assert I.Assemble(list[..j]) == I.Encode(list[0]) + I.Assemble(list[..j][1..]);
    } else {
      assert list[..0] == [];
    }
  }

  lemma {:induction false} StartsIsOffset(list: seq<I.Instr>, base: int, x: int) returns (m: nat)
    requires Starts(list, base, x)
    ensures m <= |list| && base + Offset(list, m) == x
    decreases |list|
  {
    hide I.Encode;
    if x == base {
      m := 0;
      assert list[..0] == [];
    } else {
      var more := StartsIsOffset(list[1..], base + |I.Encode(list[0])|, x);
      m := more + 1;
      assert list[..m][1..] == list[1..][..more] && list[..m][0] == list[0];
    }
  }

  // ----- the listing of one function -----

  /** The instructions of a function that starts at base: the jump over it and then its body, whose jumps
      stay inside. */
  predicate OneFunction(list: seq<I.Instr>, base: nat, entries: set<int>) {
    && list != [] && (forall i | i in list :: i.Valid())
    && list[0].op == I.JUMP && Target(list[0]) == base + |I.Assemble(list)|
    && forall j | 1 <= j < |list| ::
         && (Jumps(list[j]) ==> Starts(list, base, Target(list[j])) && base + 5 <= Target(list[j]) < base + |I.Assemble(list)|)
         && (list[j].op == I.CALL ==> Target(list[j]) in entries)
  }

  lemma FunListed(f: Fun, sg: Signatures, base: nat, k: Targets, entries: set<int>) returns (list: seq<I.Instr>)
    requires OkFun(f, sg) && CallsKnown(sg, k, entries) && base + Size(FunCode(f, sg, base)) < 0x8000_0000
    ensures I.Assemble(list) == Flat(FunCode(f, sg, base), k) && OneFunction(list, base, entries)
  {
    hide I.Assemble, I.Encode, Aimed, FunCode, BodyCode, StoresCode, Encode, OkFun, CallsKnown, Flat, OneFunction;
    var middle := Cat(StoresCode(|f.params|), BodyCode(f, sg, base + 5));
    BodySited(f, sg, base, k, entries);
    var mid :| I.Assemble(mid) == Flat(middle, k) && Aimed(mid, base + 5, {}, entries);
    var end := base + Size(FunCode(f, sg, base));
    list := [I.Embed(JUMP(end))] + mid + [I.Embed(RET)];
    AroundBody(mid, base, end, entries);
    FunBytes(f, sg, base, k, end);
  }

  lemma FunBytes(f: Fun, sg: Signatures, base: nat, k: Targets, end: int32)
    requires end == base + Size(FunCode(f, sg, base))
    ensures Flat(FunCode(f, sg, base), k)
         == Encode(JUMP(end)) + Flat(Cat(StoresCode(|f.params|), BodyCode(f, sg, base + 5)), k) + Encode(RET)
  {
    hide BodyCode, StoresCode, Encode, Ins, Flat, Size;
    var stores, body := StoresCode(|f.params|), BodyCode(f, sg, base + 5);
    RetAndJumpSize();
    SizeOfTwo(body, Ins(RET));
    SizeOfTwo(stores, Cat(body, Ins(RET)));
    SizeOfTwo(Jump(base + 5 + 2 * |f.params| + Size(body) + 1), Cat(stores, Cat(body, Ins(RET))));
    InsFlat(JUMP(end), k);
    InsFlat(RET, k);
    FlatOfCat(body, Ins(RET), k);
    FlatOfCat(stores, Cat(body, Ins(RET)), k);
    FlatOfCat(Ins(JUMP(end)), Cat(stores, Cat(body, Ins(RET))), k);
    FlatOfCat(stores, body, k);
    assert Encode(JUMP(end)) + (Flat(stores, k) + (Flat(body, k) + Encode(RET)))
        == Encode(JUMP(end)) + (Flat(stores, k) + Flat(body, k)) + Encode(RET);
  }

  lemma AroundBody(mid: seq<I.Instr>, base: nat, end: int32, entries: set<int>)
    requires Aimed(mid, base + 5, {}, entries) && end == base + 6 + |I.Assemble(mid)|
    ensures var list := [I.Embed(JUMP(end))] + mid + [I.Embed(RET)];
      I.Assemble(list) == Encode(JUMP(end)) + I.Assemble(mid) + Encode(RET) && OneFunction(list, base, entries)
  {
    hide I.Encode, I.Assemble, Encode;
    var jump, ret := [I.Embed(JUMP(end))], [I.Embed(RET)];
    var list := jump + mid + ret;
    OneIns(JUMP(end));
    OneIns(RET);
    LastSizes(end);
    I.AssembleAppend(jump, mid);
    I.AssembleAppend(jump + mid, ret);
    I.EmbedIsValid(JUMP(end));
    I.EmbedIsValid(RET);
    forall j | 1 <= j < |list|
      ensures list[j].Valid() && (list[j].op == I.CALL ==> Target(list[j]) in entries)
      ensures Jumps(list[j]) ==> Starts(list, base, Target(list[j])) && base + 5 <= Target(list[j]) < end
    {
      if j <= |mid| {
        assert list[j] == mid[j - 1] && list[j] in mid;
        if Jumps(list[j]) {
          StartsInside(mid, base + 5, Target(list[j]));
          StartsCat(jump, mid, base, Target(list[j]));
          StartsCat(jump + mid, ret, base, Target(list[j]));
        }
      }
    }
  }

  lemma OneIns(i: Instr)
    ensures I.Assemble([I.Embed(i)]) == Encode(i)
  {
    hide I.Encode, Encode;
    I.SameBytes(i);
    assert [I.Embed(i)][1..] == [];
    assert I.Encode(I.Embed(i)) + [] == I.Encode(I.Embed(i));
  }

  lemma LastSizes(end: int32)
    ensures |Encode(JUMP(end))| == 5 && |Encode(RET)| == 1
  {}

  // ----- the listing of all functions -----

  function EntrySet(p: Program): set<int> {
    set i | 0 <= i < |p| :: Entry(p, i, AllSignatures(p))
  }

  /** A jump of a function goes to an offset of its listing. */
  lemma JumpOffset(list: seq<I.Instr>, base: nat, entries: set<int>, j: nat) returns (m: nat)
    requires OneFunction(list, base, entries) && j < |list| && Jumps(list[j])
    ensures m <= |list| && base + Offset(list, m) == Target(list[j])
    ensures if j == 0 then list[j].op == I.JUMP && Target(list[j]) == base + |I.Assemble(list)|
            else base + 5 <= Target(list[j]) < base + |I.Assemble(list)|
  {
    hide I.Assemble, I.Encode, Starts, Offset, Target, Jumps;
    EndStarts(list, base);
    m := StartsIsOffset(list, base, Target(list[j]));
  }

  /** One instruction of function n, seen from the whole listing. */
  lemma AimedInProgram(p: Program, n: nat, before: seq<I.Instr>, list: seq<I.Instr>, j: nat)
    requires n < |p| && |I.Assemble(before)| == FunStart(p, n) && OneFunction(list, FunStart(p, n), EntrySet(p))
    requires FunStart(p, n + 1) == FunStart(p, n) + |I.Assemble(list)| && j < |list|
    ensures WellAimed(p, before + list, |before| + j)
  {
    hide I.Assemble, I.Encode, FunStart, Entry, AllSignatures, Offset, Target, Jumps, OneFunction;
    var whole := before + list;
    OffsetCat(before, list, j);
    OffsetBetween(list, j);
    if list[j].op == I.CALL {
      CallEntry(p, list, FunStart(p, n), j);
    }
    if Jumps(list[j]) {
      var m := JumpOffset(list, FunStart(p, n), EntrySet(p), j);
      OffsetCat(before, list, m);
    }
  }

  lemma CallEntry(p: Program, list: seq<I.Instr>, base: nat, j: nat)
    requires OneFunction(list, base, EntrySet(p)) && j < |list| && list[j].op == I.CALL
    ensures exists i: nat :: i < |p| && Target(list[j]) == Entry(p, i, AllSignatures(p))
  {
    hide I.Assemble, I.Encode, Starts, Entry, AllSignatures, Target;
    assert Target(list[j]) in EntrySet(p);
  }

  lemma StillWellAimed(p: Program, list: seq<I.Instr>, more: seq<I.Instr>, j: nat)
    requires j < |list| && WellAimed(p, list, j)
    ensures WellAimed(p, list + more, j)
  {
    hide I.Assemble, FunStart, Entry, AllSignatures, Offset;
    assert (list + more)[j] == list[j];
    OffsetFirst(list, more, j);
    if Jumps(list[j]) {
      var i: nat, m: nat :| i < |p| && m <= |list| && Offset(list, m) == Target(list[j])
        && FunStart(p, i) <= Offset(list, j) < FunStart(p, i + 1)
        && (if Offset(list, j) == FunStart(p, i) then list[j].op == I.JUMP && Target(list[j]) == FunStart(p, i + 1)
            else FunStart(p, i) + 5 <= Target(list[j]) < FunStart(p, i + 1));
      OffsetFirst(list, more, m);
    }
  }

  lemma FunStartGrows(p: Program, n: nat)
    requires n < |p|
    ensures var sg := AllSignatures(p);
      FunsCode(p, n + 1, sg) == Cat(FunsCode(p, n, sg), FunCode(p[n], sg, FunStart(p, n)))
      && FunStart(p, n + 1) == FunStart(p, n) + Size(FunCode(p[n], sg, FunStart(p, n)))
  {
    hide FunCode, AllSignatures;
    FunsCons(p, n, AllSignatures(p));
  }

  lemma {:induction false} StartsGrow(p: Program, n: nat, m: nat)
    requires n <= m <= |p|
    ensures FunStart(p, n) <= FunStart(p, m)
    decreases m
  {
    hide FunStart, AllSignatures, FunsCode;
    if n < m {
      FunStartGrows(p, m - 1);
      StartsGrow(p, n, m - 1);
    }
  }

  lemma {:induction false} FunctionsListed(p: Program, n: nat, k: Targets) returns (list: seq<I.Instr>)
    requires n <= |p| && (forall i :: 0 <= i < |p| ==> OkFun(p[i], AllSignatures(p)))
    requires CallsKnown(AllSignatures(p), k, EntrySet(p)) && FunStart(p, |p|) < 0x8000_0000
    ensures I.Assemble(list) == Flat(FunsCode(p, n, AllSignatures(p)), k) && (forall i | i in list :: i.Valid())
    ensures forall j: nat | j < |list| :: WellAimed(p, list, j)
    decreases n
  {
    hide I.Assemble, I.Encode, OkFun, CallsKnown, AllSignatures, EntrySet, FunsCode, FunCode, WellAimed, Flat, FunStart;
    var sg := AllSignatures(p);
    if n == 0 {
      list := [];
      NoFunctionsYet(p, k);
    } else {
      var before := FunctionsListed(p, n - 1, k);
      FunStartGrows(p, n - 1);
      StartsGrow(p, n, |p|);
      var base := FunStart(p, n - 1);
      var one := FunListed(p[n - 1], sg, base, k, EntrySet(p));
      list := before + one;
      I.AssembleAppend(before, one);
      FlatOfCat(FunsCode(p, n - 1, sg), FunCode(p[n - 1], sg, base), k);
      FlatSizes(p, n - 1, k);
      OneIsValid(one, base, EntrySet(p));
      forall j: nat | j < |list|
        ensures WellAimed(p, list, j)
      {
        if j < |before| {
          StillWellAimed(p, before, one, j);
        } else {
          AimedInProgram(p, n - 1, before, one, j - |before|);
        }
      }
      forall i | i in list
        ensures i.Valid()
      {
        assert i in before || i in one;
      }
    }
  }

  lemma OneIsValid(list: seq<I.Instr>, base: nat, entries: set<int>)
    requires OneFunction(list, base, entries)
    ensures forall i | i in list :: i.Valid()
  {}

  lemma NoFunctionsYet(p: Program, k: Targets)
    ensures I.Assemble([]) == Flat(FunsCode(p, 0, AllSignatures(p)), k)
  {}

  lemma FlatSizes(p: Program, n: nat, k: Targets)
    requires n < |p|
    ensures |Flat(FunsCode(p, n, AllSignatures(p)), k)| == FunStart(p, n)
    ensures |Flat(FunCode(p[n], AllSignatures(p), FunStart(p, n)), k)| == Size(FunCode(p[n], AllSignatures(p), FunStart(p, n)))
  {
    hide Flat, FunCode, FunsCode, AllSignatures;
  }

  // ----- programs -----

  lemma KnownCalls(p: Program)
    requires OkProgram(p) && Fits(p)
    ensures CallsKnown(AllSignatures(p), ProgramTargets(p), EntrySet(p)) && FunStart(p, |p|) < 0x8000_0000
  {
    hide OkFun, BlockDefinite, IndexOf, FunsCode, Flat, Size;
    var sg := AllSignatures(p);
    ProgramIsCompilableSize(p);
    forall f | f in sg
      ensures CallTarget(ProgramTargets(p).addrs, f) in EntrySet(p)
    {
      var i := IndexOf(p, f);
      EntryIsKnown(p, |p|, i, sg);
      EntriesInside(p, |p|, i, sg);
    }
  }

  lemma ProgramIsCompilableSize(p: Program)
    requires Fits(p)
    ensures FunStart(p, |p|) + 6 == |ProgramBytes(p)| < 0x8000_0000
  {
    hide FunsCode, Encode, AllSignatures, Flat;
    CallAndHalt();
    SizeOfTwo(FunsCode(p, |p|, AllSignatures(p)), Cat(CallTo(MAIN_NAME), Ins(HALT)));
  }

  lemma CallAndHalt()
    ensures Size(Cat(CallTo(MAIN_NAME), Ins(HALT))) == 6
  {}

  /** The bytes of a program are a list of instructions whose jumps and calls are all well aimed. */
  lemma ProgramListed(p: Program)
    requires OkProgram(p) && Fits(p)
    ensures var l := I.Disassemble(ProgramBytes(p));
      l.Listing? && forall j: nat | j < |l.instrs| :: WellAimed(p, l.instrs, j)
  {
    hide I.Assemble, I.Encode, OkProgram, Fits, OkFun, CallsKnown, AllSignatures, EntrySet, FunsCode, WellAimed, Flat, FunStart, Encode;
    var k, sg := ProgramTargets(p), AllSignatures(p);
    KnownCalls(p);
    FunsAreOk(p);
    var funs := FunctionsListed(p, |p|, k);
    var entry := CallTarget(k.addrs, MAIN_NAME);
    MainIsEntry(p);
    var last := [I.Embed(CALL(entry))] + [I.Embed(HALT)];
    var list := funs + last;
    OneIns(CALL(entry));
    OneIns(HALT);
    I.AssembleAppend([I.Embed(CALL(entry))], [I.Embed(HALT)]);
    I.AssembleAppend(funs, last);
    LastBytes(k, entry);
    FlatOfCat(CallTo(MAIN_NAME), Ins(HALT), k);
    FlatOfCat(FunsCode(p, |p|, sg), Cat(CallTo(MAIN_NAME), Ins(HALT)), k);
    assert I.Assemble(list) == ProgramBytes(p);
    I.EmbedIsValid(CALL(entry));
    I.EmbedIsValid(HALT);
    forall i | i in list
      ensures i.Valid()
    {
      assert i in funs || i in last;
    }
    I.RoundTrip(list);
    forall j: nat | j < |list|
      ensures WellAimed(p, list, j)
    {
      if j < |funs| {
        StillWellAimed(p, funs, last, j);
      } else {
        assert list[j] == last[j - |funs|];
        LastAimed(p, list, j);
      }
    }
  }

  lemma MainIsEntry(p: Program)
    requires OkProgram(p) && Fits(p)
    ensures CallTarget(ProgramTargets(p).addrs, MAIN_NAME) in EntrySet(p)
  {
    hide OkFun, BlockDefinite, IndexOf, FunsCode, Flat, Size, EntrySet, ProgramTargets;
    KnownCalls(p);
    assert MAIN_NAME in AllSignatures(p);
  }

  lemma LastAimed(p: Program, list: seq<I.Instr>, j: nat)
    requires j < |list|
    requires list[j] == I.Embed(HALT) || exists a: int32 :: a in EntrySet(p) && list[j] == I.Embed(CALL(a))
    ensures WellAimed(p, list, j)
  {
    hide I.Assemble, Entry, AllSignatures, FunStart, Offset;
  }

  /** Jump patching is complete: the output of the compiler is a list of instructions in which every
      jump, conditional jump and handler address is the start of an instruction of the same function, but
      for the jump over a function, which goes to its end, and every call goes to the entry of a function. */
  lemma JumpPatchingIsComplete(p: Program)
    requires OkProgram(p) && Fits(p) && NoNatives(p) && FewForwardCalls(p)
    ensures var r := Compile(PrintProgram(p));
      r.Compiled? && var l := I.Disassemble(r.code);
      l.Listing? && forall j: nat | j < |l.instrs| :: WellAimed(p, l.instrs, j)
  {
    hide *;
    CompilePrinted(p);
    ProgramListed(p);
  }
}
