/** The machine running compiled code simulates the semantics, construct by construct. */
module Simulation {
  import opened Bytes
  import opened Values
  import opened Machine
  import opened Syntax
  import opened Semantics
  import opened Soundness
  import opened CodeGen
  import opened Runs

  /** The whole program lies in memory from address 0 and its addresses fit an int32. */
  ghost predicate Loaded(code: seq<byte>, p: Program, sg: Signatures) {
    && |code| < 0x8000_0000
    && DistinctNames(p)
    && sg == AllSignatures(p) && OkFuns(p, sg)
    && Placed(code, 0, FunsCode(p, |p|, sg), ProgramTargets(p))
  }

  /** The machine and the store agree, and both are well formed. */
  ghost predicate InStep(env: Scope, st: Store, vm: Vm) {
    && |env| <= LOCALS_PER_FRAME
    && Typed(env, st) && Covers(env, st)
    && WfVm(vm) && Agrees(env, st, vm)
  }

  /** The targets of code inside the program; the break target varies. */
  predicate InProgram(k: Targets, p: Program) {
    k.addrs == ProgramTargets(p).addrs
  }

  // ----- where functions are -----

  lemma {:induction false} FunIsPlaced(code: seq<byte>, p: Program, n: nat, i: nat, sg: Signatures, k: Targets)
    requires i < n <= |p| && Placed(code, 0, FunsCode(p, n, sg), k)
    ensures Placed(code, Size(FunsCode(p, i, sg)), FunCode(p[i], sg, Size(FunsCode(p, i, sg))), k)
    decreases n
  {
    hide FunCode;
    if i < n - 1 {
      FunIsPlaced(code, p, n - 1, i, sg, k);
    }
  }

  /** A call to f goes to the code of its body: parameter stores, statements, return. */
  lemma CalleeIsPlaced(code: seq<byte>, p: Program, sg: Signatures, f: Name)
    requires Loaded(code, p, sg) && Defines(p, f)
    ensures var i := IndexOf(p, f);
      && CallTarget(ProgramTargets(p).addrs, f) == Entry(p, i, sg)
      && Placed(code, Entry(p, i, sg), StoresCode(|p[i].params|), ProgramTargets(p))
      && Placed(code, Entry(p, i, sg) + 2 * |p[i].params|, BodyCode(p[i], sg, Entry(p, i, sg)), ProgramTargets(p))
      && Placed(code, Entry(p, i, sg) + 2 * |p[i].params| + Size(BodyCode(p[i], sg, Entry(p, i, sg))), Ins(RET),
                ProgramTargets(p))
  {
    hide StoresCode, BodyCode, Jump, Ins, FunsCode, FunCode, Entries, OkFuns, IndexOf, Placed, Size, DistinctNames;
    var i := IndexOf(p, f);
    assert p[i].name == f;
    FunIsPlaced(code, p, |p|, i, sg, ProgramTargets(p));
    EntryIsKnown(p, |p|, i, sg);
    FunParts(code, p[i], sg, Size(FunsCode(p, i, sg)), ProgramTargets(p));
    assert CallTarget(ProgramTargets(p).addrs, f) == Narrow(Entry(p, i, sg));
  }

  lemma FunParts(code: seq<byte>, f: Fun, sg: Signatures, base: nat, k: Targets)
    requires Placed(code, base, FunCode(f, sg, base), k)
    ensures var body := BodyCode(f, sg, base + 5);
      && base + 5 <= |code|
      && Placed(code, base + 5, StoresCode(|f.params|), k)
      && Placed(code, base + 5 + 2 * |f.params|, body, k)
      && Placed(code, base + 5 + 2 * |f.params| + Size(body), Ins(RET), k)
  {
    hide StoresCode, BodyCode, Jump, Ins, Placed, Size;
    var body := BodyCode(f, sg, base + 5);
    var jump := Jump(base + 5 + 2 * |f.params| + Size(body) + 1);
    FunLayout(code, base, jump, StoresCode(|f.params|), body, Ins(RET), base + 5, base + 5 + 2 * |f.params|, k);
    PlacedInside(code, base, jump, k);
  }

  lemma FunLayout(code: seq<byte>, base: nat, a: Code, b: Code, c: Code, d: Code, stores: nat, body: nat, k: Targets)
    requires Placed(code, base, Cat(a, Cat(b, Cat(c, d))), k)
    requires stores == base + Size(a) && body == stores + Size(b)
    ensures Placed(code, base, a, k) && Placed(code, stores, b, k) && Placed(code, body, c, k)
    ensures Placed(code, body + Size(c), d, k)
  {
    hide CodeAt, Encode, Size;
    PlacedCat(code, base, a, Cat(b, Cat(c, d)), k);
    PlacedCat(code, stores, b, Cat(c, d), k);
    PlacedCat(code, body, c, d, k);
  }

  // ----- operators -----

  /** One operator instruction on the top of the stack. */
  lemma SimOperator(code: seq<byte>, k: Targets, vm0: Vm, vm: Vm, op: Operator, values: seq<Value>, r: OpResult)
    returns (vm': Vm)
    requires WfVm(vm0) && WfVm(vm) && Placed(code, vm.ip, Ins(OPER(op)), k)
    requires vm.stack == vm0.stack + values && vm.frames == vm0.frames && vm.tries == vm0.tries && vm.limited == vm0.limited
    requires if op == NEG || op == NOT then |values| == 1 && r == Unary(op, values[0])
             else |values| == 2 && r == Binary(op, values[0], values[1])
    ensures match OfResult(r)
      case Yields(v, _) => v.Some? && Reaches(code, vm, vm') && vm' == vm.(ip := vm.ip + 1, stack := vm0.stack + [v.value])
      case o => Fails(code, vm, o, 0, vm', |vm.frames|)
  {
    hide Unary, Binary, Reaches, Stops, Survives, Encode, Decode, Caught;
    FetchIns(code, vm.ip, OPER(op), k);
    OperatorSize(op);
    var popped := Drop(vm.(ip := vm.ip + 1), |values|);
    assert popped.stack == vm0.stack;
    assert Step(code, vm) == Apply(popped, r);
    vm' := vm;
    match r
    case Gives(v) =>
      vm' := vm.(ip := vm.ip + 1, stack := vm0.stack + [v]);
      StepPasses(code, vm, vm');
    case Raises(m) => vm' := RaiseIsCaught(code, vm, popped, VErr(m));
    case Overflows =>
      StepStops(code, vm, QuotientOverflow, vm.out);
      assert vm.out + [] == vm.out;
    case Undefined =>
      StepStops(code, vm, UndefinedBehaviour, vm.out);
      assert vm.out + [] == vm.out;
  }

  lemma OperatorSize(op: Operator)
    ensures |Encode(OPER(op))| == 1
  {}

  lemma SimBinary(code: seq<byte>, k: Targets, vm0: Vm, vm: Vm, op: BinOp, a: Value, b: Value)
    returns (vm': Vm)
    requires WfVm(vm0) && WfVm(vm) && Placed(code, vm.ip, OpCode(op), k)
    requires vm.stack == vm0.stack + [a, b] && vm.frames == vm0.frames && vm.tries == vm0.tries && vm.limited == vm0.limited
    ensures match OfResult(BinaryResult(op, a, b))
      case Yields(v, _) =>
        v.Some? && Reaches(code, vm, vm') && vm' == vm.(ip := vm.ip + Size(OpCode(op)), stack := vm0.stack + [v.value])
      case o => Fails(code, vm, o, 0, vm', |vm.frames|)
  {
    hide Reaches, Fails, Encode, IntBinary;
    OperatorSize(MachineOp(op));
    vm' := SimOperator(code, k, vm0, vm, MachineOp(op), [a, b], Binary(MachineOp(op), a, b));
    if op == NotEqual {
      var v := VBool(ValuesEqual(a, b));
      OperatorSize(EQ);
      OperatorSize(NOT);
      var vm1 := vm';
      vm' := SimOperator(code, k, vm0, vm1, NOT, [v], Unary(NOT, v));
      ReachesOn(code, vm, vm1, vm');
    }
  }

  lemma SimUnary(code: seq<byte>, k: Targets, vm0: Vm, vm: Vm, op: UnOp, a: Value)
    returns (vm': Vm)
    requires WfVm(vm0) && WfVm(vm) && Placed(code, vm.ip, UnCode(op), k)
    requires vm.stack == vm0.stack + [a] && vm.frames == vm0.frames && vm.tries == vm0.tries && vm.limited == vm0.limited
    ensures match OfResult(UnaryResult(op, a))
      case Yields(v, _) =>
        v.Some? && Reaches(code, vm, vm') && vm' == vm.(ip := vm.ip + Size(UnCode(op)), stack := vm0.stack + [v.value])
      case o => Fails(code, vm, o, 0, vm', |vm.frames|)
  {
    hide Reaches, Fails, Encode, Unary;
    var o := if op == Minus then NEG else NOT;
    OperatorSize(o);
    vm' := SimOperator(code, k, vm0, vm, o, [a], Unary(o, a));
  }

  // ----- expressions -----

  /** Pushing a value, or the overflow of the operand stack. */
  lemma SimPush(code: seq<byte>, k: Targets, vm: Vm, i: Instr, v: Value) returns (vm': Vm)
    requires WfVm(vm) && Placed(code, vm.ip, Ins(i), k)
    requires Execute(vm.(ip := vm.ip + |Encode(i)|), i) == Push(vm.(ip := vm.ip + |Encode(i)|), v)
    ensures ExprResult(code, vm, vm.ip + Size(Ins(i)), Pushed(v, |vm.stack|), 0, vm')
  {
    hide Encode, Execute, Decode, Reaches, Stops, Survives;
    FetchIns(code, vm.ip, i, k);
    vm' := vm.(ip := vm.ip + |Encode(i)|, stack := vm.stack + [v]);
    assert vm.out + [] == vm.out;
    if |vm.stack| >= STACK_MAX {
      StepStops(code, vm, StackOverflow, vm.out);
    } else {
      StepPasses(code, vm, vm');
    }
  }

  lemma SimVar(code: seq<byte>, k: Targets, x: Name, env: Scope, st: Store, vm: Vm) returns (vm': Vm)
    requires InStep(env, st, vm) && Known(env, x) && x in st && Placed(code, vm.ip, ExprCode(Var(x), env), k)
    ensures ExprResult(code, vm, vm.ip + 2, Pushed(st[x], |vm.stack|), 0, vm')
  {
    hide Reaches, Stops, Survives, Encode, Resolve, Typed, Covers, ExprResult;
    var slot := SlotByte(Resolve(env, x));
    LoadSize(slot);
    assert SlotIndex(vm, slot) == FrameStart(|vm.frames| - 1) + Resolve(env, x);
    assert Slot(vm, Resolve(env, x)) == st[x];
    vm' := SimPush(code, k, vm, LOAD(slot), st[x]);
  }

  lemma LoadSize(slot: byte)
    ensures |Encode(LOAD(slot))| == 2
  {}

  /** The code of a well-formed expression, run from a state in step, does what the
      semantics says: the value on top of the stack and nothing else changed, the
      exception at the innermost handler, the same stop, or still running. */
  lemma {:induction false} SimExpr(code: seq<byte>, p: Program, sg: Signatures, k: Targets, e: Expr, env: Scope,
                                   depth: nat, st: Store, vm: Vm, fuel: nat) returns (vm': Vm)
    requires Loaded(code, p, sg) && InProgram(k, p) && InStep(env, st, vm)
    requires OkExpr(e, env, sg, depth) && Placed(code, vm.ip, ExprCode(e, env), k)
    ensures ExprResult(code, vm, vm.ip + Size(ExprCode(e, env)), EvalExpr(p, e, st, RoomOf(vm), fuel), fuel, vm')
    decreases fuel, e, 1
  {
    hide Loaded, InStep, Encode, ExprResult;
    match e
    case IntLit(n) => vm' := SimLit(code, p, k, e, PUSH_INT(n), VInt(n), env, st, vm, fuel);
    case BoolLit(b) => vm' := SimLit(code, p, k, e, PUSH_BOOL(b), VBool(b), env, st, vm, fuel);
    case Var(x) => vm' := SimRead(code, p, k, e, env, st, vm, fuel);
    case Un(op, e1) => vm' := SimUn(code, p, sg, k, e, env, depth, st, vm, fuel);
    case Bin(op, l, r) => vm' := SimBin(code, p, sg, k, e, env, depth, st, vm, fuel);
    case Call(f, args) => vm' := SimCall(code, p, sg, k, e, env, depth, st, vm, fuel);
  }

  /** An outcome with no more fuel than this one has. */
  lemma MoreFuel(code: seq<byte>, vm: Vm, end: int, o: ExprOutcome, fuel: nat, vm': Vm)
    requires ExprResult(code, vm, end, o, 0, vm') && !o.OutOfFuel?
    ensures ExprResult(code, vm, end, o, fuel, vm')
  {
    hide Reaches, Stops, Survives, Continues, Caught;
  }

  lemma SimLit(code: seq<byte>, p: Program, k: Targets, e: Expr, i: Instr, v: Value, env: Scope, st: Store, vm: Vm, fuel: nat)
    returns (vm': Vm)
    requires InStep(env, st, vm) && Placed(code, vm.ip, ExprCode(e, env), k)
    requires (e.IntLit? && i == PUSH_INT(e.n) && v == VInt(e.n)) || (e.BoolLit? && i == PUSH_BOOL(e.b) && v == VBool(e.b))
    ensures ExprResult(code, vm, vm.ip + Size(ExprCode(e, env)), EvalExpr(p, e, st, RoomOf(vm), fuel), fuel, vm')
  {
    hide Encode, ExprResult, Placed, Typed, Covers, Agrees;
    vm' := SimPush(code, k, vm, i, v);
    MoreFuel(code, vm, vm.ip + Size(ExprCode(e, env)), Pushed(v, |vm.stack|), fuel, vm');
  }

  lemma SimRead(code: seq<byte>, p: Program, k: Targets, e: Expr, env: Scope, st: Store, vm: Vm, fuel: nat)
    returns (vm': Vm)
    requires e.Var? && Known(env, e.x) && InStep(env, st, vm) && Placed(code, vm.ip, ExprCode(e, env), k)
    ensures ExprResult(code, vm, vm.ip + Size(ExprCode(e, env)), EvalExpr(p, e, st, RoomOf(vm), fuel), fuel, vm')
  {
    hide Encode, Reaches, Stops, Survives, Continues, Caught, Placed, Typed, Covers, Agrees, Resolve;
    LoadSize(SlotByte(SlotOf(env, e.x)));
    vm' := vm;
    if e.x in st {
      vm' := SimVar(code, k, e.x, env, st, vm);
      MoreFuel(code, vm, vm.ip + 2, Pushed(st[e.x], |vm.stack|), fuel, vm');
    }
  }

  lemma FailsMore(code: seq<byte>, vm: Vm, o: ExprOutcome, fuel: nat, vm': Vm, kept: nat)
    requires Fails(code, vm, o, 0, vm', kept) && !o.OutOfFuel?
    ensures Fails(code, vm, o, fuel, vm', kept)
  {
    hide Stops, Survives, Caught;
  }

  /** An operator after its operands, seen from before the operands. */
  lemma OperatorDone(code: seq<byte>, vm: Vm, mid: Vm, ip: int, values: seq<Value>, out: seq<Value>, r: OpResult,
                     end: int, fuel: nat, vm': Vm)
    requires WfVm(vm) && WfVm(mid) && values != []
    requires Reaches(code, vm, mid) && Continues(vm, mid, ip, values, out, |vm.frames|)
    requires match OfResult(r)
      case Yields(v, _) => v.Some? && Reaches(code, mid, vm') && vm' == mid.(ip := end, stack := vm.stack + [v.value])
      case o => Fails(code, mid, o, 0, vm', |mid.frames|)
    ensures ExprResult(code, vm, end, Before(out, OfResult(r)), fuel, vm')
  {
    hide Reaches, Stops, Survives, Caught;
    var o := OfResult(r);
    if o.Yields? {
      ReachesOn(code, vm, mid, vm');
      assert out + [] == out;
    } else {
      FailsMore(code, mid, o, fuel, vm', |mid.frames|);
      ContinuesLeads(code, vm, mid, ip, values, out, |vm.frames|);
      FailsEarlier(code, vm, mid, out, o, fuel, vm', |vm.frames|, |mid.frames|);
    }
  }

  lemma UnParts(code: seq<byte>, pc: int, op: UnOp, e: Expr, env: Scope, k: Targets)
    requires Placed(code, pc, ExprCode(Un(op, e), env), k)
    ensures Placed(code, pc, ExprCode(e, env), k) && Placed(code, pc + Size(ExprCode(e, env)), UnCode(op), k)
    ensures Size(ExprCode(Un(op, e), env)) == Size(ExprCode(e, env)) + Size(UnCode(op))
  {
    hide CodeAt, Encode, UnCode;
    PlacedCat(code, pc, ExprCode(e, env), UnCode(op), k);
  }

  lemma {:induction false} SimUn(code: seq<byte>, p: Program, sg: Signatures, k: Targets, e: Expr, env: Scope,
                                 depth: nat, st: Store, vm: Vm, fuel: nat) returns (vm': Vm)
    requires e.Un?
    requires Loaded(code, p, sg) && InProgram(k, p) && InStep(env, st, vm)
    requires OkExpr(e, env, sg, depth) && Placed(code, vm.ip, ExprCode(e, env), k)
    ensures ExprResult(code, vm, vm.ip + Size(ExprCode(e, env)), EvalExpr(p, e, st, RoomOf(vm), fuel), fuel, vm')
    decreases fuel, e, 0
  {
    hide OkFuns, FunsCode, DistinctNames, Typed, Covers, Agrees, Encode, Resolve, Reaches, Stops, Survives, Caught,
      SameBelow, UnaryResult, UnCode, WfVm, Fails, TypeOf, Known, Invoke, EvalArgs, OkArgs, ArgsCode, SlotOf, HasType,
      OkOperands, OpCode, BinaryResult, Pushed, Clean, Excusable, Defines, InProgram, Placed, Size, ExprCode;
    UnParts(code, vm.ip, e.uop, e.operand, env, k);
    vm' := SimExpr(code, p, sg, k, e.operand, env, depth, st, vm, fuel);
    SoundExpr(p, e.operand, env, sg, depth, st, RoomOf(vm), fuel);
    var o := EvalExpr(p, e.operand, st, RoomOf(vm), fuel);
    if o.Yields? {
      var mid, a := vm', o.value.value;
      vm' := SimUnary(code, k, vm, mid, e.uop, a);
      OperatorDone(code, vm, mid, mid.ip, [a], o.out, UnaryResult(e.uop, a), vm.ip + Size(ExprCode(e, env)), fuel, vm');
    }
  }

  /** The state after a value has been pushed is still in step. */
  lemma StillInStep(env: Scope, st: Store, vm: Vm, mid: Vm, ip: int, values: seq<Value>, out: seq<Value>)
    requires InStep(env, st, vm) && WfVm(mid) && Continues(vm, mid, ip, values, out, |vm.frames|)
    ensures InStep(env, st, mid)
  {
    hide Typed, Covers, Agrees;
    AgreesSame(env, st, vm, mid);
  }

  lemma BinParts(code: seq<byte>, pc: int, op: BinOp, l: Expr, r: Expr, env: Scope, k: Targets)
    requires Placed(code, pc, ExprCode(Bin(op, l, r), env), k)
    ensures Placed(code, pc, ExprCode(l, env), k) && Placed(code, pc + Size(ExprCode(l, env)), ExprCode(r, env), k)
    ensures Placed(code, pc + Size(ExprCode(l, env)) + Size(ExprCode(r, env)), OpCode(op), k)
    ensures Size(ExprCode(Bin(op, l, r), env)) == Size(ExprCode(l, env)) + Size(ExprCode(r, env)) + Size(OpCode(op))
  {
    hide CodeAt, Encode, OpCode;
    var cl, cr := ExprCode(l, env), ExprCode(r, env);
    PlacedCat(code, pc, Cat(cl, cr), OpCode(op), k);
    PlacedCat(code, pc, cl, cr, k);
  }

  lemma {:induction false} SimBin(code: seq<byte>, p: Program, sg: Signatures, k: Targets, e: Expr, env: Scope,
                                  depth: nat, st: Store, vm: Vm, fuel: nat) returns (vm': Vm)
    requires e.Bin?
    requires Loaded(code, p, sg) && InProgram(k, p) && InStep(env, st, vm)
    requires OkExpr(e, env, sg, depth) && Placed(code, vm.ip, ExprCode(e, env), k)
    ensures ExprResult(code, vm, vm.ip + Size(ExprCode(e, env)), EvalExpr(p, e, st, RoomOf(vm), fuel), fuel, vm')
    decreases fuel, e, 0
  {
    hide OkFuns, FunsCode, DistinctNames, Typed, Covers, Agrees, Encode, Resolve, Reaches, Stops, Survives, Caught,
      SameBelow, UnaryResult, UnCode, WfVm, Fails, TypeOf, Known, Invoke, EvalArgs, OkArgs, ArgsCode, SlotOf, HasType,
      OkOperands, OpCode, BinaryResult, Pushed, Clean, Excusable, Defines, InProgram, Placed, Size, ExprCode;
    BinParts(code, vm.ip, e.bop, e.left, e.right, env, k);
    OperandTypes(e.bop, TypeOf(e.left, env, sg), TypeOf(e.right, env, sg));
    vm' := SimExpr(code, p, sg, k, e.left, env, depth, st, vm, fuel);
    SoundExpr(p, e.left, env, sg, depth, st, RoomOf(vm), fuel);
    var o := EvalExpr(p, e.left, st, RoomOf(vm), fuel);
    if o.Yields? {
      var a := o.value.value;
      var mid := vm';
      StillInStep(env, st, vm, mid, mid.ip, [a], o.out);
      assert RoomOf(mid) == RoomOf(vm).(height := RoomOf(vm).height + 1);
      vm' := SimExpr(code, p, sg, k, e.right, env, depth + 1, st, mid, fuel);
      SoundExpr(p, e.right, env, sg, depth + 1, st, RoomOf(mid), fuel);
      var o' := EvalExpr(p, e.right, st, RoomOf(mid), fuel);
      if o'.Yields? {
        var b := o'.value.value;
        var last := vm';
        TwoOperands(code, vm, mid, last, a, b, o.out, o'.out);
        vm' := SimBinary(code, k, vm, last, e.bop, a, b);
        OperatorDone(code, vm, last, last.ip, [a, b], o.out + o'.out, BinaryResult(e.bop, a, b),
                     vm.ip + Size(ExprCode(e, env)), fuel, vm');
        BeforeTwice(o.out, o'.out, OfResult(BinaryResult(e.bop, a, b)));
      } else {
        ContinuesLeads(code, vm, mid, mid.ip, [a], o.out, |vm.frames|);
        FailsEarlier(code, vm, mid, o.out, o', fuel, vm', |vm.frames|, |mid.frames|);
      }
    }
  }

  lemma BeforeTwice(a: seq<Value>, b: seq<Value>, o: ExprOutcome)
    ensures Before(a + b, o) == Before(a, Before(b, o))
  {
    match o
    case Yields(_, c) => assert (a + b) + c == a + (b + c);
    case Raised(_, c) => assert (a + b) + c == a + (b + c);
    case Halted(_, c) => assert (a + b) + c == a + (b + c);
    case _ =>
  }

  lemma TwoOperands(code: seq<byte>, vm: Vm, mid: Vm, last: Vm, a: Value, b: Value, out: seq<Value>, out': seq<Value>)
    requires Reaches(code, vm, mid) && Continues(vm, mid, mid.ip, [a], out, |vm.frames|)
    requires Reaches(code, mid, last) && Continues(mid, last, last.ip, [b], out', |mid.frames|)
    ensures Reaches(code, vm, last) && Continues(vm, last, last.ip, [a, b], out + out', |vm.frames|)
  {
    hide Reaches;
    ReachesOn(code, vm, mid, last);
    assert (vm.stack + [a]) + [b] == vm.stack + [a, b];
    assert (vm.out + out) + out' == vm.out + (out + out');
  }

  // ----- calls -----

  ghost predicate ArgsResult(code: seq<byte>, vm: Vm, size: nat, o: ArgsOutcome, fuel: nat, vm': Vm) {
    match o
    case Ready(vs, out) =>
      && Reaches(code, vm, vm') && WfVm(vm') && Continues(vm, vm', vm.ip + size, vs, out, |vm.frames|)
    case NotReady(o) => !o.Yields? && Fails(code, vm, o, fuel, vm', |vm.frames|)
  }

  lemma NothingEmitted()
    ensures Size(Skip) == 0
  {}

  lemma ArgsParts(code: seq<byte>, pc: int, e: Expr, rest: Args, env: Scope, k: Targets)
    requires Placed(code, pc, ArgsCode(Arg(e, rest), env), k)
    ensures Placed(code, pc, ExprCode(e, env), k)
    ensures Placed(code, pc + Size(ExprCode(e, env)), ArgsCode(rest, env), k)
    ensures Size(ArgsCode(Arg(e, rest), env)) == Size(ExprCode(e, env)) + Size(ArgsCode(rest, env))
  {
    hide Placed, ExprCode;
    PlacedCat(code, pc, ExprCode(e, env), ArgsCode(rest, env), k);
  }

  lemma {:induction false} SimArgs(code: seq<byte>, p: Program, sg: Signatures, k: Targets, args: Args, env: Scope,
                                   ts: seq<Type>, depth: nat, st: Store, vm: Vm, fuel: nat) returns (vm': Vm)
    requires Loaded(code, p, sg) && InProgram(k, p) && InStep(env, st, vm)
    requires OkArgs(args, env, sg, ts, depth) && ValueTypes(ts) && Placed(code, vm.ip, ArgsCode(args, env), k)
    ensures ArgsResult(code, vm, Size(ArgsCode(args, env)), EvalArgs(p, args, st, RoomOf(vm), fuel), fuel, vm')
    decreases fuel, args, 1
  {
    hide OkFuns, FunsCode, DistinctNames, Typed, Covers, Agrees, Encode, Resolve, Reaches, Stops, Survives, Caught,
      SameBelow, WfVm, Fails, Known, OkExpr, EvalExpr, ExprCode, TypeOf, Placed, Size;
    match args
    case NoArgs =>
      vm' := vm;
      ReachesSelf(code, vm);
      NothingMoved(vm);
      assert Size(ArgsCode(args, env)) == 0 by {
        NothingEmitted();
      }
    case Arg(e, rest) =>
      ArgsParts(code, vm.ip, e, rest, env, k);
      vm' := SimExpr(code, p, sg, k, e, env, depth, st, vm, fuel);
      SoundExpr(p, e, env, sg, depth, st, RoomOf(vm), fuel);
      assert ts[0] != TVoid;
      var o := EvalExpr(p, e, st, RoomOf(vm), fuel);
      if o.Yields? {
        var v, mid := o.value.value, vm';
        StillInStep(env, st, vm, mid, mid.ip, [v], o.out);
        assert RoomOf(mid) == RoomOf(vm).(height := RoomOf(vm).height + 1);
        assert forall i :: 0 <= i < |ts| - 1 ==> ts[1..][i] == ts[i + 1];
        vm' := SimArgs(code, p, sg, k, rest, env, ts[1..], depth, st, mid, fuel);
        var o' := EvalArgs(p, rest, st, RoomOf(mid), fuel);
        if o'.Ready? {
          MoreValues(code, vm, mid, vm', [v], o'.values, o.out, o'.out);
        } else {
          ContinuesLeads(code, vm, mid, mid.ip, [v], o.out, |vm.frames|);
          FailsEarlier(code, vm, mid, o.out, o'.o, fuel, vm', |vm.frames|, |mid.frames|);
        }
      }
  }

  lemma NothingMoved(vm: Vm)
    ensures Continues(vm, vm, vm.ip, [], [], |vm.frames|)
  {
    assert vm.stack + [] == vm.stack && vm.out + [] == vm.out;
  }

  lemma MoreValues(code: seq<byte>, vm: Vm, mid: Vm, last: Vm, vs: seq<Value>, vs': seq<Value>, out: seq<Value>, out': seq<Value>)
    requires Reaches(code, vm, mid) && Continues(vm, mid, mid.ip, vs, out, |vm.frames|)
    requires Reaches(code, mid, last) && Continues(mid, last, last.ip, vs', out', |mid.frames|)
    ensures Reaches(code, vm, last) && Continues(vm, last, last.ip, vs + vs', out + out', |vm.frames|)
  {
    hide Reaches;
    ReachesOn(code, vm, mid, last);
    assert (vm.stack + vs) + vs' == vm.stack + (vs + vs');
    assert (vm.out + out) + out' == vm.out + (out + out');
  }

  lemma CallParts(code: seq<byte>, pc: int, f: Name, args: Args, env: Scope, k: Targets)
    requires Placed(code, pc, ExprCode(Call(f, args), env), k)
    ensures Placed(code, pc, ArgsCode(args, env), k) && Placed(code, pc + Size(ArgsCode(args, env)), CallTo(f), k)
    ensures Size(ExprCode(Call(f, args), env)) == Size(ArgsCode(args, env)) + 5
  {
    hide Placed, ArgsCode;
    PlacedCat(code, pc, ArgsCode(args, env), CallTo(f), k);
  }

  lemma {:induction false} SimCall(code: seq<byte>, p: Program, sg: Signatures, k: Targets, e: Expr, env: Scope,
                                   depth: nat, st: Store, vm: Vm, fuel: nat) returns (vm': Vm)
    requires e.Call?
    requires Loaded(code, p, sg) && InProgram(k, p) && InStep(env, st, vm)
    requires OkExpr(e, env, sg, depth) && Placed(code, vm.ip, ExprCode(e, env), k)
    ensures ExprResult(code, vm, vm.ip + Size(ExprCode(e, env)), EvalExpr(p, e, st, RoomOf(vm), fuel), fuel, vm')
    decreases fuel, e, 0
  {
    hide OkFuns, FunsCode, DistinctNames, Typed, Covers, Agrees, Encode, Resolve, Reaches, Stops, Caught, ExprCode,
      SameBelow, Invoke, Step, Defines, Placed, HaveTypes, Size, Excusable, Clean, HasType, Known, OkArgs, EvalArgs, ArgsCode;
    CallParts(code, vm.ip, e.f, e.args, env, k);
    ParamsAreValues(p, e.f, sg);
    vm' := SimArgs(code, p, sg, k, e.args, env, sg[e.f].params, depth, st, vm, fuel);
    SoundArgs(p, e.args, env, sg, sg[e.f].params, depth, st, RoomOf(vm), fuel);
    var o := EvalArgs(p, e.args, st, RoomOf(vm), fuel);
    if o.Ready? && fuel > 0 {
      var mid := vm';
      vm' := SimInvoke(code, p, sg, k, e.f, o.values, vm, mid, o.out, fuel - 1);
    }
  }

  // ----- entering and leaving a callee -----

  lemma StoreSize(slot: byte)
    ensures |Encode(STORE(slot))| == 2
  {}

  /** A store of the top of the stack into a slot of the running frame. */
  lemma SimStore(code: seq<byte>, k: Targets, vm: Vm, slot: nat, base: seq<Value>, v: Value) returns (vm': Vm)
    requires WfVm(vm) && slot < LOCALS_PER_FRAME && vm.stack == base + [v]
    requires vm.tries != [] ==> Innermost(vm).stackPtr <= |base|
    requires Placed(code, vm.ip, StoreIn(slot), k)
    ensures Passes(code, vm, vm') && WfVm(vm')
    ensures vm' == vm.(ip := vm.ip + 2, stack := base, locals := vm'.locals)
    ensures vm'.locals == vm.locals[FrameStart(|vm.frames| - 1) + slot := v]
  {
    hide Encode, Passes, Reaches;
    FetchIns(code, vm.ip, STORE(SlotByte(slot)), k);
    StoreSize(SlotByte(slot));
    assert Drop(vm, 1).stack == base;
    vm' := vm.(ip := vm.ip + 2, stack := base,
               locals := vm.locals[FrameStart(|vm.frames| - 1) + slot := v]);
    StepPasses(code, vm, vm');
  }

  /** The values vs lie at position at; everything else is the same. */
  ghost predicate Moved(before: seq<Value>, after: seq<Value>, at: nat, vs: seq<Value>) {
    && |after| == |before| && at + |vs| <= |before|
    && (forall i :: 0 <= i < |vs| ==> after[at + i] == vs[i])
    && (forall i :: 0 <= i < |before| && !(at <= i < at + |vs|) ==> after[i] == before[i])
  }

  lemma NothingMovedIn(locals: seq<Value>, at: nat)
    requires at <= |locals|
    ensures Moved(locals, locals, at, [])
  {}

  lemma MovedIn(before: seq<Value>, mid: seq<Value>, after: seq<Value>, at: nat, init: seq<Value>, v: Value, vs: seq<Value>)
    requires at + |init| < |before| && mid == before[at + |init| := v] && Moved(mid, after, at, init) && vs == init + [v]
    ensures Moved(before, after, at, vs)
  {}

  /** The first of the remaining parameter stores takes the last argument. */
  lemma StoreLast(code: seq<byte>, k: Targets, vm: Vm, base: seq<Value>, init: seq<Value>, v: Value) returns (vm': Vm)
    requires WfVm(vm) && |init| < LOCALS_PER_FRAME && vm.stack == base + (init + [v])
    requires vm.tries != [] ==> Innermost(vm).stackPtr <= |base|
    requires Placed(code, vm.ip, StoreIn(|init|), k)
    ensures Reaches(code, vm, vm') && WfVm(vm')
    ensures vm' == vm.(ip := vm.ip + 2, stack := base + init, locals := vm'.locals)
    ensures vm'.locals == vm.locals[FrameStart(|vm.frames| - 1) + |init| := v]
  {
    hide Reaches, Passes, StoreIn, Step;
    assert base + (init + [v]) == (base + init) + [v];
    vm' := SimStore(code, k, vm, |init|, base + init, v);
    PassesReaches(code, vm, vm');
  }

  lemma StoresParts(code: seq<byte>, pc: int, n: nat, k: Targets)
    requires n > 0 && Placed(code, pc, StoresCode(n), k)
    ensures Placed(code, pc, StoreIn(n - 1), k) && Placed(code, pc + 2, StoresCode(n - 1), k)
  {
    hide StoreIn, Placed;
    assert StoresCode(n) == Cat(StoreIn(n - 1), StoresCode(n - 1));
    PlacedCat(code, pc, StoreIn(n - 1), StoresCode(n - 1), k);
  }

  /** The parameter stores move the arguments into the first slots of the new frame. */
  lemma {:induction false} SimStores(code: seq<byte>, k: Targets, vm: Vm, base: seq<Value>, vs: seq<Value>, at: nat)
    returns (vm': Vm)
    requires WfVm(vm) && |vs| <= LOCALS_PER_FRAME && vm.stack == base + vs
    requires at == FrameStart(|vm.frames| - 1)
    requires vm.tries != [] ==> Innermost(vm).stackPtr <= |base|
    requires Placed(code, vm.ip, StoresCode(|vs|), k)
    ensures Reaches(code, vm, vm') && WfVm(vm')
    ensures vm' == vm.(ip := vm.ip + 2 * |vs|, stack := base, locals := vm'.locals)
    ensures Moved(vm.locals, vm'.locals, at, vs)
    decreases |vs|
  {
    hide Reaches, StoreIn, Moved, Placed, StoresCode;
    if vs == [] {
      vm' := vm;
      ReachesSelf(code, vm);
      assert vm.stack == base;
      NothingMovedIn(vm.locals, at);
    } else {
      var init, v := vs[..|vs| - 1], vs[|vs| - 1];
      StoresParts(code, vm.ip, |vs|, k);
      var mid := StoreLast(code, k, vm, base, init, v);
      vm' := SimStores(code, k, mid, base, init, at);
      ReachesOn(code, vm, mid, vm');
      MovedIn(vm.locals, mid.locals, vm'.locals, at, init, v, vs);
    }
  }

  /** OP_RET drops the frame, clears its slots and goes on after the call. */
  lemma SimReturn(code: seq<byte>, vm: Vm, ret: int, frames: seq<int>) returns (vm': Vm)
    requires WfVm(vm) && Decode(code, vm.ip) == Fetched(RET, 1)
    requires vm.frames == frames + [ret] && ret != -1 && frames != []
    requires vm.tries != [] ==> Innermost(vm).framePtr <= |frames|
    ensures Passes(code, vm, vm') && WfVm(vm') && SameBelow(vm, vm', |frames|)
    ensures vm' == vm.(ip := ret, frames := frames, locals := vm'.locals)
  {
    hide Passes, Reaches;
    var n := |frames|;
    assert vm.frames[..n] == frames;
    vm' := vm.(ip := ret, frames := frames, locals := Cleared(vm.locals, n, n + 1));
    StepPasses(code, vm, vm');
  }

  /** The end of a callee's body, seen from before the call. */
  lemma BodyDone(code: seq<byte>, vm0: Vm, vm2: Vm, out0: seq<Value>, ret: int, env: Scope, after: Scope, end: int,
                 o: Outcome, fuel: nat, vm3: Vm) returns (vm': Vm)
    requires WfVm(vm0) && WfVm(vm2) && ret != -1
    requires Leads(code, vm0, vm2, out0, |vm0.frames|) && Passes(code, vm0, vm2)
    requires vm2.stack == vm0.stack && vm2.frames == vm0.frames + [ret]
    requires StmtResult(code, vm2, env, after, end, 0, 0, o, fuel, vm3)
    requires Decode(code, end) == Fetched(RET, 1)
    requires !o.Broke? && !o.Continued?
    ensures ExprResult(code, vm0, ret, Before(out0, OfBody(o)), fuel + 1, vm')
  {
    hide Reaches, Stops, Survives, Caught, Passes, Agrees, Decode;
    vm' := vm3;
    match o
    case Normal(_, v, out) => vm' := ReturnDone(code, vm0, vm2, out0, ret, v, out, vm3);
    case Returned(v, out) => vm' := ReturnDone(code, vm0, vm2, out0, ret, Some(v), out, vm3);
    case Threw(v, _, out) => CaughtEarlier(code, vm0, vm2, out0, v, out, vm3, |vm0.frames|, |vm0.frames|);
    case Stopped(why, out) =>
      assert vm0.out + (out0 + out) == vm2.out + out;
      ReachesStops(code, vm0, vm2, why, vm2.out + out);
    case Timeout => PassesSurvives(code, vm0, vm2, fuel);
    case _ =>
  }

  lemma ReturnDone(code: seq<byte>, vm0: Vm, vm2: Vm, out0: seq<Value>, ret: int, v: Option<Value>, out: seq<Value>, vm3: Vm)
    returns (vm': Vm)
    requires WfVm(vm0) && WfVm(vm3) && ret != -1
    requires Leads(code, vm0, vm2, out0, |vm0.frames|)
    requires vm2.stack == vm0.stack && vm2.frames == vm0.frames + [ret]
    requires Reaches(code, vm2, vm3) && Continues(vm2, vm3, vm3.ip, Opt(v), out, |vm0.frames|)
    requires Decode(code, vm3.ip) == Fetched(RET, 1)
    ensures Reaches(code, vm0, vm') && WfVm(vm') && Continues(vm0, vm', ret, Opt(v), out0 + out, |vm0.frames|)
  {
    hide Reaches, Passes, Decode;
    vm' := SimReturn(code, vm3, ret, vm0.frames);
    PassesReaches(code, vm3, vm');
    ReachesOn(code, vm0, vm2, vm3);
    ReachesOn(code, vm0, vm3, vm');
    SameBelowOn(vm0, vm2, vm3, |vm0.frames|, |vm0.frames|, |vm0.frames|);
    SameBelowOn(vm0, vm3, vm', |vm0.frames|, |vm0.frames|, |vm0.frames|);
    assert vm0.out + (out0 + out) == (vm0.out + out0) + out;
  }

  /** The callee's frame after the parameter stores agrees with the bound parameters. */
  lemma ParamsAgree(f: Fun, vs: seq<Value>, vm: Vm)
    requires DistinctParams(f.params) && |vs| == |f.params|
    requires forall i :: 0 <= i < |vs| ==> Slot(vm, i) == vs[i]
    ensures Agrees(ParamScope(f.params), Bind(f.params, vs), vm)
  {
    hide Bind;
    var env := ParamScope(f.params);
    forall x | x in Bind(f.params, vs) && Known(env, x)
      ensures Slot(vm, Resolve(env, x)) == Bind(f.params, vs)[x]
    {
      ParamResolves(f.params, x);
      BindLooksUp(f.params, vs, Resolve(env, x));
    }
  }

  /** A call instruction at vm, whose arguments lie on top of the stack of vm0. */
  lemma {:induction false} SimInvoke(code: seq<byte>, p: Program, sg: Signatures, k: Targets, f: Name, vs: seq<Value>,
                                     vm0: Vm, vm: Vm, out0: seq<Value>, fuel: nat) returns (vm': Vm)
    requires Loaded(code, p, sg) && InProgram(k, p) && WfVm(vm0) && WfVm(vm)
    requires f in sg && HaveTypes(vs, sg[f].params) && Placed(code, vm.ip, CallTo(f), k)
    requires Reaches(code, vm0, vm) && Continues(vm0, vm, vm.ip, vs, out0, |vm0.frames|)
    ensures ExprResult(code, vm0, vm.ip + 5, Before(out0, Invoke(p, f, vs, RoomOf(vm0), fuel)), fuel + 1, vm')
    decreases fuel
  {
    hide Placed, ExprResult, Encode, Reaches, Passes, SameBelow, Bind, ExecBlock, BlockScope, BlockType, OkBlock,
      BlockDefinite, Entry, StoresCode, BlockCode, Typed, Covers, Agrees, FunsCode, DistinctNames, Decode, StmtResult,
      HasType, Excusable, Clean, Size, Slot, AllSignatures, OfBody, Definitely, BlockCompletes;
    var i := IndexOf(p, f);
    var callee := p[i];
    CalleeFacts(p, sg, f);
    FetchCall(code, p, sg, k, f, vm);
    if |vm.frames| >= FRAMES_MAX {
      vm' := FrameOverflows(code, vm0, vm, vs, out0, Entry(p, i, sg), fuel);
    } else {
      var vm2 := EnterCallee(code, p, sg, f, vs, vm0, vm, out0);
      var env, st := ParamScope(callee.params), Bind(callee.params, vs);
      var entry := Entry(p, i, sg);
      CalleeIsPlaced(code, p, sg, f);
      BoundParams(callee.params, vs);
      ParamsAgree(callee, vs, vm2);
      var cx := BodyContext(callee, sg);
      var vm3 := SimBlock(code, p, cx, ProgramTargets(p), callee.body, env, vm2.ip, 0, st, vm2, fuel);
      SoundBlock(p, callee.body, cx, env, ParamNames(callee.params), st, RoomOf(vm2), fuel);
      OneByteSizes();
      FetchIns(code, vm2.ip + Size(BodyCode(callee, sg, entry)), RET, ProgramTargets(p));
      vm' := BodyDone(code, vm0, vm2, out0, vm.ip + 5, env, BlockScope(callee.body, env, sg),
                      vm2.ip + Size(BodyCode(callee, sg, entry)), ExecBlock(p, callee.body, st, RoomOf(vm2), fuel), fuel, vm3);
    }
  }

  lemma CalleeFacts(p: Program, sg: Signatures, f: Name)
    requires OkFuns(p, sg) && f in sg
    ensures Defines(p, f) && OkFun(p[IndexOf(p, f)], sg) && sg[f] == SignatureOf(p[IndexOf(p, f)])
    ensures BlockDefinite(p[IndexOf(p, f)].body, ParamNames(p[IndexOf(p, f)].params))
  {}

  lemma CallSize(addr: int32)
    ensures |Encode(CALL(addr))| == 5
  {}

  lemma FetchCall(code: seq<byte>, p: Program, sg: Signatures, k: Targets, f: Name, vm: Vm)
    requires Loaded(code, p, sg) && InProgram(k, p) && Defines(p, f) && Placed(code, vm.ip, CallTo(f), k)
    ensures 0 <= Entry(p, IndexOf(p, f), sg) < 0x8000_0000
    ensures Decode(code, vm.ip) == Fetched(CALL(Entry(p, IndexOf(p, f), sg)), 5) && vm.ip >= 0
  {
    hide Encode, StoresCode, BodyCode, Entry, OkFuns, FunsCode;
    CalleeIsPlaced(code, p, sg, f);
    PlacedInside(code, Entry(p, IndexOf(p, f), sg), StoresCode(|p[IndexOf(p, f)].params|), ProgramTargets(p));
    DecodeEncode(code, vm.ip, CALL(CallTarget(k.addrs, f)));
    CallSize(CallTarget(k.addrs, f));
  }

  lemma FrameOverflows(code: seq<byte>, vm0: Vm, vm: Vm, vs: seq<Value>, out0: seq<Value>, entry: int32, fuel: nat)
    returns (vm': Vm)
    requires WfVm(vm0) && WfVm(vm) && |vm.frames| >= FRAMES_MAX
    requires Reaches(code, vm0, vm) && Continues(vm0, vm, vm.ip, vs, out0, |vm0.frames|)
    requires Decode(code, vm.ip) == Fetched(CALL(entry), 5)
    ensures ExprResult(code, vm0, vm.ip + 5, Before(out0, Raised(VErr(FrameOverflow), [])), fuel + 1, vm')
  {
    hide Reaches, Stops, SameBelow, Decode;
    vm' := RaiseIsCaught(code, vm, vm.(ip := vm.ip + 5), VErr(FrameOverflow));
    ContinuesLeads(code, vm0, vm, vm.ip, vs, out0, |vm0.frames|);
    CaughtEarlier(code, vm0, vm, out0, VErr(FrameOverflow), [], vm', |vm0.frames|, |vm0.frames|);
  }

  /** From the call instruction to the first instruction of the body. */
  lemma EnterCallee(code: seq<byte>, p: Program, sg: Signatures, f: Name, vs: seq<Value>, vm0: Vm, vm: Vm, out0: seq<Value>)
    returns (vm2: Vm)
    requires Loaded(code, p, sg) && WfVm(vm0) && WfVm(vm) && |vm.frames| < FRAMES_MAX && Defines(p, f)
    requires |vs| == |p[IndexOf(p, f)].params| <= 16 && vm.ip >= 0
    requires Reaches(code, vm0, vm) && Continues(vm0, vm, vm.ip, vs, out0, |vm0.frames|)
    requires 0 <= Entry(p, IndexOf(p, f), sg) < 0x8000_0000
    requires Decode(code, vm.ip) == Fetched(CALL(Entry(p, IndexOf(p, f), sg)), 5)
    ensures WfVm(vm2) && Passes(code, vm0, vm2) && Leads(code, vm0, vm2, out0, |vm0.frames|)
    ensures vm2.stack == vm0.stack && vm2.frames == vm0.frames + [vm.ip + 5]
    ensures vm2.ip == Entry(p, IndexOf(p, f), sg) + 2 * |vs|
    ensures forall i :: 0 <= i < |vs| ==> Slot(vm2, i) == vs[i]
  {
    hide Reaches, Passes, Decode, Entry, StoresCode, BodyCode, OkFuns, FunsCode;
    var entry := Entry(p, IndexOf(p, f), sg);
    CalleeIsPlaced(code, p, sg, f);
    var vm1 := vm.(ip := entry, frames := vm.frames + [vm.ip + 5]);
    StepPasses(code, vm, vm1);
    ReachesPasses(code, vm0, vm, vm1);
    vm2 := SimStores(code, ProgramTargets(p), vm1, vm0.stack, vs, FrameStart(|vm.frames|));
    PassesOn(code, vm0, vm1, vm2);
    PassesReaches(code, vm0, vm2);
    forall i | 0 <= i < |vs|
      ensures Slot(vm2, i) == vs[i]
    {
      assert vm2.locals[FrameStart(|vm.frames|) + i] == vs[i];
    }
    assert vm2.frames[..|vm0.frames|] == vm0.frames && vm2.stack[..|vm0.stack|] == vm0.stack;
  }

  // ----- simple statements -----

  lemma SameAsItself(vm: Vm, n: nat)
    ensures SameBelow(vm, vm, n)
  {}

  /** Only locals and frames matter for agreement. */
  lemma AgreesLocals(env: Scope, st: Store, a: Vm, b: Vm, origin: Vm, n: nat)
    requires a.locals == b.locals && a.frames == b.frames
    ensures Agrees(env, st, a) ==> Agrees(env, st, b)
    ensures SameBelow(origin, a, n) ==> SameBelow(origin, b, n)
  {}

  /** A throw that leaves the running frame's slots alone keeps the store, if it is caught there. */
  lemma KeepLess(code: seq<byte>, env: Scope, st: Store, vm: Vm, v: Value, out: seq<Value>, vm': Vm)
    requires InStep(env, st, vm) && Caught(code, vm, v, out, vm', |vm.frames|)
    ensures Caught(code, vm, v, out, vm', |vm.frames| - 1)
    ensures CaughtHere(vm) ==> Agrees(env, st, vm')
  {
    hide Reaches, Stops, Typed, Covers;
    if CaughtHere(vm) {
      assert vm'.frames == vm.frames;
      AgreesSame(env, st, vm, vm');
    }
  }

  /** An expression without a value ends the statement around it. */
  lemma FailedStatement(code: seq<byte>, env: Scope, st: Store, vm: Vm, after: Scope, end: int, brk: int, cont: int,
                        o: ExprOutcome, fuel: nat, vm': Vm)
    requires InStep(env, st, vm) && !o.Yields? && Fails(code, vm, o, fuel, vm', |vm.frames|)
    ensures StmtResult(code, vm, env, after, end, brk, cont, OfExpr(o, st), fuel, vm')
  {
    hide Reaches, Stops, Survives, Typed, Covers, Agrees, SameBelow, Caught, CaughtHere;
    if o.Raised? {
      KeepLess(code, env, st, vm, o.v, o.out, vm');
    }
  }

  lemma EvalDone(code: seq<byte>, env: Scope, st: Store, vm: Vm, brk: int, cont: int, v: Option<Value>, out: seq<Value>,
                 fuel: nat, vm': Vm)
    requires InStep(env, st, vm) && WfVm(vm') && Reaches(code, vm, vm')
    requires Continues(vm, vm', vm'.ip, Opt(v), out, |vm.frames|)
    ensures StmtResult(code, vm, env, env, vm'.ip, brk, cont, Normal(st, v, out), fuel, vm')
  {
    hide Reaches, Typed, Covers, Agrees;
    AgreesSame(env, st, vm, vm');
  }

  lemma AgreesStore(env: Scope, st: Store, x: Name, ty: Type, v: Value, vm: Vm, vm': Vm)
    requires |env| <= LOCALS_PER_FRAME && SlotOf(env, x) < LOCALS_PER_FRAME
    requires |vm.locals| == LOCALS_MAX && 1 <= |vm.frames| <= FRAMES_MAX
    requires Agrees(env, st, vm) && Covers(env, st) && vm'.frames == vm.frames && |vm'.locals| == |vm.locals|
    requires Slot(vm', SlotOf(env, x)) == v
    requires forall i :: 0 <= i < |vm.locals| && i != FrameStart(|vm.frames| - 1) + SlotOf(env, x) ==>
               vm'.locals[i] == vm.locals[i]
    ensures Agrees(Declare(env, x, ty), st[x := v], vm')
  {
    var env' := Declare(env, x, ty);
    if !Known(env, x) {
      GrowsByOne(env, x, ty);
    }
    forall y | y in st[x := v] && Known(env', y)
      ensures Slot(vm', Resolve(env', y)) == st[x := v][y]
    {
      if y != x {
        assert Known(env, y);
        if !Known(env, x) {
          GrowsResolve(env, env', y);
        }
        assert env[Resolve(env, y)].name == y;
        assert Resolve(env, y) != SlotOf(env, x);
        assert Slot(vm', Resolve(env, y)) == Slot(vm, Resolve(env, y));
      }
    }
  }

  lemma AssignDone(code: seq<byte>, k: Targets, env: Scope, st: Store, vm: Vm, mid: Vm, x: Name, ty: Type, brk: int, cont: int,
                   v: Value, out: seq<Value>, fuel: nat) returns (vm': Vm)
    requires InStep(env, st, vm) && WfVm(mid) && Reaches(code, vm, mid) && SlotOf(env, x) < LOCALS_PER_FRAME
    requires Continues(vm, mid, mid.ip, [v], out, |vm.frames|)
    requires Placed(code, mid.ip, StoreIn(SlotOf(env, x)), k)
    ensures StmtResult(code, vm, env, Declare(env, x, ty), mid.ip + 2, brk, cont, Normal(st[x := v], None, out), fuel, vm')
  {
    hide Reaches, Typed, Covers, Agrees, Passes, Resolve, Placed, Known, StoreIn, SlotOf, Declare;
    vm' := SimStore(code, k, mid, SlotOf(env, x), vm.stack, v);
    PassesReaches(code, mid, vm');
    ReachesOn(code, vm, mid, vm');
    AgreesSame(env, st, vm, mid);
    AgreesStore(env, st, x, ty, v, mid, vm');
    assert vm.stack + [] == vm.stack;
  }

  lemma PrintDone(code: seq<byte>, k: Targets, env: Scope, st: Store, vm: Vm, mid: Vm, brk: int, cont: int,
                  v: Value, out: seq<Value>, fuel: nat) returns (vm': Vm)
    requires InStep(env, st, vm) && WfVm(mid) && Reaches(code, vm, mid)
    requires Continues(vm, mid, mid.ip, [v], out, |vm.frames|)
    requires Placed(code, mid.ip, Ins(PRINT), k)
    ensures StmtResult(code, vm, env, env, mid.ip + 1, brk, cont, Normal(st, None, out + [v]), fuel, vm')
  {
    hide Reaches, Typed, Covers, Agrees, Passes, Placed, Encode, SameBelow;
    OneByteSizes();
    FetchIns(code, mid.ip, PRINT, k);
    assert Drop(mid, 1).stack == vm.stack;
    vm' := mid.(ip := mid.ip + 1, stack := vm.stack, out := mid.out + [v]);
    StepPasses(code, mid, vm');
    ReachesOn(code, vm, mid, vm');
    AgreesLocals(env, st, mid, vm', vm, |vm.frames|);
    assert vm.stack + [] == vm.stack && vm.out + (out + [v]) == mid.out + [v];
    EvalDone(code, env, st, vm, brk, cont, None, out + [v], fuel, vm');
  }

  lemma OneByteSizes()
    ensures |Encode(PRINT)| == 1 && |Encode(RET)| == 1 && |Encode(THROW)| == 1 && |Encode(POP)| == 1
    ensures |Encode(END_TRY)| == 1 && |Encode(IS_TRUTHY)| == 1
  {}

  lemma ReturnStmtDone(code: seq<byte>, k: Targets, env: Scope, vm: Vm, mid: Vm, after: Scope, end: int, brk: int, cont: int,
                       v: Value, out: seq<Value>, fuel: nat)
    requires WfVm(vm) && WfVm(mid) && Reaches(code, vm, mid)
    requires Continues(vm, mid, mid.ip, [v], out, |vm.frames|)
    requires Placed(code, mid.ip, Ins(RET), k)
    ensures StmtResult(code, vm, env, after, end, brk, cont, Returned(v, out), fuel, mid)
  {
    hide Reaches, Encode;
    OneByteSizes();
    FetchIns(code, mid.ip, RET, k);
  }

  lemma ThrowDone(code: seq<byte>, k: Targets, env: Scope, st: Store, vm: Vm, mid: Vm, after: Scope, end: int, brk: int, cont: int,
                  v: Value, out: seq<Value>, fuel: nat) returns (vm': Vm)
    requires InStep(env, st, vm) && WfVm(mid) && Reaches(code, vm, mid)
    requires Continues(vm, mid, mid.ip, [v], out, |vm.frames|)
    requires Placed(code, mid.ip, Ins(THROW), k)
    ensures StmtResult(code, vm, env, after, end, brk, cont, Threw(v, st, out), fuel, vm')
  {
    hide Reaches, Encode, Typed, Covers, Agrees, SameBelow, Caught, Raise, Placed, CaughtHere;
    OneByteSizes();
    FetchIns(code, mid.ip, THROW, k);
    var popped := Drop(mid.(ip := mid.ip + 1), 1);
    assert popped.stack == vm.stack == mid.stack[..|vm.stack|];
    assert Step(code, mid) == Raise(popped, v);
    vm' := RaiseIsCaught(code, mid, popped, v);
    ContinuesLeads(code, vm, mid, mid.ip, [v], out, |vm.frames|);
    CaughtEarlier(code, vm, mid, out, v, [], vm', |vm.frames|, |vm.frames|);
    assert out + [] == out;
    KeepLess(code, env, st, vm, v, out, vm');
  }

  lemma JumpSize(addr: int32)
    ensures |Encode(JUMP(addr))| == 5 && |Encode(JUMP_IF_F(addr))| == 5 && |Encode(TRY(addr))| == 5
  {}

  lemma SimJump(code: seq<byte>, vm: Vm, addr: int32) returns (vm': Vm)
    requires CodeAt(code, vm.ip, Encode(JUMP(addr)))
    ensures Passes(code, vm, vm') && Reaches(code, vm, vm') && vm' == vm.(ip := addr)
  {
    hide Encode, Decode, CodeAt, Passes, Reaches;
    DecodeEncode(code, vm.ip, JUMP(addr));
    vm' := vm.(ip := addr);
    StepPasses(code, vm, vm');
  }

  ghost predicate StmtGoal(code: seq<byte>, p: Program, cx: Context, k: Targets, s: Stmt, env: Scope, base: nat, cont: int32,
                           st: Store, vm: Vm, fuel: nat, vm': Vm)
    requires |vm.frames| > 0
  {
    StmtResult(code, vm, env, StmtScope(s, env, cx.sg), base + Size(StmtCode(s, env, cx.sg, base, cont)), k.brk, cont,
               ExecStmt(p, s, st, RoomOf(vm), fuel), fuel, vm')
  }

  ghost predicate StmtGiven(code: seq<byte>, p: Program, cx: Context, k: Targets, s: Stmt, env: Scope, base: nat, cont: int32,
                            st: Store, vm: Vm)
  {
    && Loaded(code, p, cx.sg) && InProgram(k, p) && InStep(env, st, vm)
    && OkStmt(s, cx, env) && base == vm.ip && Placed(code, base, StmtCode(s, env, cx.sg, base, cont), k)
  }

  lemma SimBreak(code: seq<byte>, p: Program, cx: Context, k: Targets, s: Stmt, env: Scope, base: nat, cont: int32,
                 st: Store, vm: Vm, fuel: nat) returns (vm': Vm)
    requires (s.Break? || s.Continue?) && StmtGiven(code, p, cx, k, s, env, base, cont, st, vm)
    ensures StmtGoal(code, p, cx, k, s, env, base, cont, st, vm, fuel, vm')
  {
    hide Loaded, Encode, Reaches, Typed, Covers, Agrees, Passes, SameBelow, CodeAt;
    vm' := SimJump(code, vm, if s.Break? then k.brk else cont);
    assert vm.stack + [] == vm.stack && vm.out + [] == vm.out;
    SameAsItself(vm, |vm.frames| - 1);
    AgreesLocals(env, st, vm, vm', vm, |vm.frames| - 1);
  }

  predicate HasExpr(s: Stmt) {
    s.Eval? || s.Assign? || s.Print? || s.Return? || s.Throw?
  }

  /** Such a statement starts with the code of its expression. */
  lemma ExprFirst(code: seq<byte>, p: Program, cx: Context, k: Targets, s: Stmt, env: Scope, base: nat,
                  cont: int32, st: Store, vm: Vm, fuel: nat)
    requires HasExpr(s) && StmtGiven(code, p, cx, k, s, env, base, cont, st, vm)
    ensures OkExpr(s.e, env, cx.sg, 0) && Placed(code, vm.ip, ExprCode(s.e, env), k)
    ensures !s.Eval? ==> TypeOf(s.e, env, cx.sg) != TVoid
    ensures var o := EvalExpr(p, s.e, st, RoomOf(vm), fuel); !o.Yields? ==> ExecStmt(p, s, st, RoomOf(vm), fuel) == OfExpr(o, st)
    ensures s.Eval? ==> ExecStmt(p, s, st, RoomOf(vm), fuel) == OfExpr(EvalExpr(p, s.e, st, RoomOf(vm), fuel), st)
    ensures s.Eval? ==> StmtScope(s, env, cx.sg) == env && StmtCode(s, env, cx.sg, base, cont) == ExprCode(s.e, env)
  {
    hide Loaded, InStep, OkExpr, ExprCode, TypeOf, EvalExpr, Encode, CodeAt, OkAssign, StoreIn, Known, Resolve, RoomOf;
  }

  lemma {:induction false} SimSimple(code: seq<byte>, p: Program, cx: Context, k: Targets, s: Stmt, env: Scope, base: nat,
                                     cont: int32, st: Store, vm: Vm, fuel: nat) returns (vm': Vm)
    requires Simple(s) && StmtGiven(code, p, cx, k, s, env, base, cont, st, vm)
    ensures StmtGoal(code, p, cx, k, s, env, base, cont, st, vm, fuel, vm')
    decreases fuel, s, 3
  {
    if s.Break? || s.Continue? {
      hide StmtGiven, StmtGoal;
      vm' := SimBreak(code, p, cx, k, s, env, base, cont, st, vm, fuel);
    } else {
      vm' := SimHasExpr(code, p, cx, k, s, env, base, cont, st, vm, fuel);
    }
  }

  lemma {:induction false} SimHasExpr(code: seq<byte>, p: Program, cx: Context, k: Targets, s: Stmt, env: Scope, base: nat,
                                      cont: int32, st: Store, vm: Vm, fuel: nat) returns (vm': Vm)
    requires HasExpr(s) && StmtGiven(code, p, cx, k, s, env, base, cont, st, vm)
    ensures StmtGoal(code, p, cx, k, s, env, base, cont, st, vm, fuel, vm')
    decreases fuel, s, 2
  {
    hide Encode, Reaches, Stops, Survives, Typed, Covers, Agrees, SameBelow, Fails, WfVm, OkFuns, FunsCode, Placed,
      StmtResult, EvalExpr, ExprCode, OkExpr, TypeOf, OkStmt, StmtCode, StmtScope, ExecStmt, HasType, Excusable, Clean;
    ExprFirst(code, p, cx, k, s, env, base, cont, st, vm, fuel);
    var mid := SimExpr(code, p, cx.sg, k, s.e, env, 0, st, vm, fuel);
    SoundExpr(p, s.e, env, cx.sg, 0, st, RoomOf(vm), fuel);
    var o := EvalExpr(p, s.e, st, RoomOf(vm), fuel);
    if !o.Yields? {
      vm' := mid;
      FailedStatement(code, env, st, vm, StmtScope(s, env, cx.sg), base + Size(StmtCode(s, env, cx.sg, base, cont)), k.brk, cont,
                      o, fuel, mid);
    } else if s.Eval? {
      vm' := mid;
      EvalDone(code, env, st, vm, k.brk, cont, o.value, o.out, fuel, mid);
    } else {
      var v := o.value.value;
      assert ValueReady(code, p, cx, k, s, env, base, cont, st, vm, fuel, mid, v, o.out);
      vm' := ValueStatement(code, p, cx, k, s, env, base, cont, st, vm, fuel, mid, v, o.out);
    }
  }

  lemma ValueStatement(code: seq<byte>, p: Program, cx: Context, k: Targets, s: Stmt, env: Scope, base: nat,
                       cont: int32, st: Store, vm: Vm, fuel: nat, mid: Vm, v: Value, out: seq<Value>) returns (vm': Vm)
    requires HasExpr(s) && !s.Eval? && ValueReady(code, p, cx, k, s, env, base, cont, st, vm, fuel, mid, v, out)
    ensures StmtGoal(code, p, cx, k, s, env, base, cont, st, vm, fuel, vm')
  {
    hide ValueReady, StmtGoal;
    if s.Assign? {
      vm' := SimAssign(code, p, cx, k, s, env, base, cont, st, vm, fuel, mid, v, out);
    } else if s.Print? {
      vm' := SimPrint(code, p, cx, k, s, env, base, cont, st, vm, fuel, mid, v, out);
    } else if s.Return? {
      vm' := SimReturnStmt(code, p, cx, k, s, env, base, cont, st, vm, fuel, mid, v, out);
    } else {
      vm' := SimThrow(code, p, cx, k, s, env, base, cont, st, vm, fuel, mid, v, out);
    }
  }

  /** The value of the statement's expression is on top of the stack. */
  ghost predicate ValueReady(code: seq<byte>, p: Program, cx: Context, k: Targets, s: Stmt, env: Scope, base: nat,
                             cont: int32, st: Store, vm: Vm, fuel: nat, mid: Vm, v: Value, out: seq<Value>)
    requires HasExpr(s)
  {
    && StmtGiven(code, p, cx, k, s, env, base, cont, st, vm)
    && EvalExpr(p, s.e, st, RoomOf(vm), fuel) == Yields(Some(v), out)
    && WfVm(mid) && Reaches(code, vm, mid) && mid.ip == vm.ip + Size(ExprCode(s.e, env))
    && Continues(vm, mid, mid.ip, [v], out, |vm.frames|)
  }

  /** The instruction after the expression, and what the statement does with its value. */
  lemma ValueParts(code: seq<byte>, p: Program, k: Targets, s: Stmt, sg: Signatures, env: Scope, base: nat, cont: int32,
                   last: Code, st: Store, room: Room, fuel: nat, v: Value, out: seq<Value>)
    requires HasExpr(s) && !s.Eval? && EvalExpr(p, s.e, st, room, fuel) == Yields(Some(v), out)
    requires last == (if s.Assign? then StoreIn(SlotOf(env, s.x)) else Ins(if s.Print? then PRINT else if s.Return? then RET else THROW))
    requires Placed(code, base, StmtCode(s, env, sg, base, cont), k)
    ensures Placed(code, base + Size(ExprCode(s.e, env)), last, k)
    ensures base + Size(StmtCode(s, env, sg, base, cont)) == base + Size(ExprCode(s.e, env)) + Size(last)
    ensures !s.Assign? ==> StmtScope(s, env, sg) == env
    ensures var o := ExecStmt(p, s, st, room, fuel);
      && (s.Assign? ==> o == Normal(st[s.x := v], None, out)) && (s.Print? ==> o == Normal(st, None, out + [v]))
      && (s.Return? ==> o == Returned(v, out)) && (s.Throw? ==> o == Threw(v, st, out))
  {
    hide EvalExpr, ExprCode, StoreIn, SlotOf, Ins, Placed, Declare, TypeOf;
    var ce := ExprCode(s.e, env);
    assert StmtCode(s, env, sg, base, cont) == Cat(ce, last) by {
      hide Size;
    }
    PlacedCat(code, base, ce, last, k);
  }

  lemma AssignParts(s: Stmt, cx: Context, env: Scope, ty: Type)
    requires s.Assign? && OkStmt(s, cx, env) && |env| <= LOCALS_PER_FRAME
    requires ty == (if s.declared.Some? then s.declared.value else TypeOf(s.e, env, cx.sg))
    ensures SlotOf(env, s.x) < LOCALS_PER_FRAME && StmtScope(s, env, cx.sg) == Declare(env, s.x, ty)
  {
    hide OkExpr, TypeOf;
  }

  lemma OneByte(i: Instr)
    requires i == PRINT || i == RET || i == THROW
    ensures Size(Ins(i)) == 1
  {
    OneByteSizes();
  }

  lemma SimAssign(code: seq<byte>, p: Program, cx: Context, k: Targets, s: Stmt, env: Scope, base: nat,
       cont: int32, st: Store, vm: Vm, fuel: nat, mid: Vm, v: Value, out: seq<Value>) returns (vm': Vm)
    requires s.Assign? && ValueReady(code, p, cx, k, s, env, base, cont, st, vm, fuel, mid, v, out)
    ensures StmtGoal(code, p, cx, k, s, env, base, cont, st, vm, fuel, vm')
  {
    hide Encode, Reaches, Typed, Covers, Agrees, Passes, Resolve, SameBelow, RoomOf, StmtResult, EvalExpr, ExprCode, OkExpr,
      StoreIn, Known, Continues, WfVm, Loaded, TypeOf, Placed, Size, StmtCode, StmtScope, ExecStmt, Ins, OkStmt, SlotOf, Declare;
    var ty := if s.declared.Some? then s.declared.value else TypeOf(s.e, env, cx.sg);
    AssignParts(s, cx, env, ty);
    ValueParts(code, p, k, s, cx.sg, env, base, cont, StoreIn(SlotOf(env, s.x)), st, RoomOf(vm), fuel, v, out);
    vm' := AssignDone(code, k, env, st, vm, mid, s.x, ty, k.brk, cont, v, out, fuel);
  }

  lemma SimPrint(code: seq<byte>, p: Program, cx: Context, k: Targets, s: Stmt, env: Scope, base: nat,
       cont: int32, st: Store, vm: Vm, fuel: nat, mid: Vm, v: Value, out: seq<Value>) returns (vm': Vm)
    requires s.Print? && ValueReady(code, p, cx, k, s, env, base, cont, st, vm, fuel, mid, v, out)
    ensures StmtGoal(code, p, cx, k, s, env, base, cont, st, vm, fuel, vm')
  {
    hide Encode, Reaches, Typed, Covers, Agrees, Passes, Resolve, SameBelow, RoomOf, StmtResult, EvalExpr, ExprCode, OkExpr,
      StoreIn, Known, Continues, WfVm, Loaded, TypeOf, Placed, Size, StmtCode, StmtScope, ExecStmt, Ins, OkStmt, SlotOf, Declare;
    OneByteSizes();
    ValueParts(code, p, k, s, cx.sg, env, base, cont, Ins(PRINT), st, RoomOf(vm), fuel, v, out);
    OneByte(PRINT);
    vm' := PrintDone(code, k, env, st, vm, mid, k.brk, cont, v, out, fuel);
  }

  lemma SimReturnStmt(code: seq<byte>, p: Program, cx: Context, k: Targets, s: Stmt, env: Scope, base: nat,
       cont: int32, st: Store, vm: Vm, fuel: nat, mid: Vm, v: Value, out: seq<Value>) returns (vm': Vm)
    requires s.Return? && ValueReady(code, p, cx, k, s, env, base, cont, st, vm, fuel, mid, v, out)
    ensures StmtGoal(code, p, cx, k, s, env, base, cont, st, vm, fuel, vm')
  {
    hide Encode, Reaches, Typed, Covers, Agrees, Passes, Resolve, SameBelow, RoomOf, StmtResult, EvalExpr, ExprCode, OkExpr,
      StoreIn, Known, Continues, WfVm, Loaded, TypeOf, Placed, Size, StmtCode, StmtScope, ExecStmt, Ins, OkStmt, SlotOf, Declare;
    ValueParts(code, p, k, s, cx.sg, env, base, cont, Ins(RET), st, RoomOf(vm), fuel, v, out);
    vm' := mid;
    ReturnStmtDone(code, k, env, vm, mid, env, base + Size(StmtCode(s, env, cx.sg, base, cont)), k.brk, cont, v, out, fuel);
  }

  lemma SimThrow(code: seq<byte>, p: Program, cx: Context, k: Targets, s: Stmt, env: Scope, base: nat,
       cont: int32, st: Store, vm: Vm, fuel: nat, mid: Vm, v: Value, out: seq<Value>) returns (vm': Vm)
    requires s.Throw? && ValueReady(code, p, cx, k, s, env, base, cont, st, vm, fuel, mid, v, out)
    ensures StmtGoal(code, p, cx, k, s, env, base, cont, st, vm, fuel, vm')
  {
    hide Encode, Reaches, Typed, Covers, Agrees, Passes, Resolve, SameBelow, RoomOf, StmtResult, EvalExpr, ExprCode, OkExpr,
      StoreIn, Known, Continues, WfVm, Loaded, TypeOf, Placed, Size, StmtCode, StmtScope, ExecStmt, Ins, OkStmt, SlotOf, Declare;
    ValueParts(code, p, k, s, cx.sg, env, base, cont, Ins(THROW), st, RoomOf(vm), fuel, v, out);
    vm' := ThrowDone(code, k, env, st, vm, mid, env, base + Size(StmtCode(s, env, cx.sg, base, cont)), k.brk, cont, v, out, fuel);
  }

  // ----- conditions and jumps -----

  /** The test of a condition: on to the next instruction if it is truthy, else to the target. */
  lemma {:induction false} SimTest(code: seq<byte>, p: Program, sg: Signatures, k: Targets, c: Expr, env: Scope, target: nat,
                                   st: Store, vm: Vm, fuel: nat) returns (vm': Vm)
    requires Loaded(code, p, sg) && InProgram(k, p) && InStep(env, st, vm) && OkValue(c, env, sg)
    requires target < 0x8000_0000 && Placed(code, vm.ip, Cat(CondCode(c, env, sg), JumpIfFalse(target)), k)
    ensures match EvalExpr(p, c, st, RoomOf(vm), fuel)
      case Yields(v, out) =>
        && v.Some? && Passes(code, vm, vm') && WfVm(vm')
        && Continues(vm, vm', if Truthy(v.value) then vm.ip + Size(CondCode(c, env, sg)) + 5 else target, [], out, |vm.frames|)
      case o => Fails(code, vm, o, fuel, vm', |vm.frames|)
    decreases fuel, c, 2
  {
    hide Encode, Reaches, Stops, Survives, Typed, Covers, Agrees, Passes, Resolve, SameBelow, OkFuns, FunsCode, Fails,
      EvalExpr, ExprCode, OkExpr, JumpIfFalse, Placed, WfVm;
    PlacedCat(code, vm.ip, CondCode(c, env, sg), JumpIfFalse(target), k);
    var ce := ExprCode(c, env);
    if TypeOf(c, env, sg) != TBool {
      PlacedCat(code, vm.ip, ce, Ins(IS_TRUTHY), k);
    }
    var mid := SimExpr(code, p, sg, k, c, env, 0, st, vm, fuel);
    SoundExpr(p, c, env, sg, 0, st, RoomOf(vm), fuel);
    vm' := mid;
    var o := EvalExpr(p, c, st, RoomOf(vm), fuel);
    if o.Yields? {
      var v := o.value.value;
      if TypeOf(c, env, sg) != TBool {
        mid := TruthyDone(code, k, vm, mid, v, o.out);
      }
      vm' := TestDone(code, k, vm, mid, Truthy(v), o.out, target);
    }
  }

  lemma PlacedCat(code: seq<byte>, pc: int, a: Code, b: Code, k: Targets)
    requires Placed(code, pc, Cat(a, b), k)
    ensures Placed(code, pc, a, k) && Placed(code, pc + Size(a), b, k)
  {
    hide CodeAt, Encode, Size, CallTarget;
  }

  lemma TruthyDone(code: seq<byte>, k: Targets, vm: Vm, mid: Vm, v: Value, out: seq<Value>) returns (vm': Vm)
    requires WfVm(mid) && Reaches(code, vm, mid) && Continues(vm, mid, mid.ip, [v], out, |vm.frames|)
    requires Placed(code, mid.ip, Ins(IS_TRUTHY), k)
    ensures WfVm(vm') && Reaches(code, vm, vm') && vm'.ip == mid.ip + Size(Ins(IS_TRUTHY))
    ensures Continues(vm, vm', vm'.ip, [VBool(Truthy(v))], out, |vm.frames|)
  {
    hide Reaches, Encode;
    OneByteSizes();
    FetchIns(code, mid.ip, IS_TRUTHY, k);
    assert Drop(mid, 1).stack == vm.stack;
    vm' := mid.(ip := mid.ip + 1, stack := vm.stack + [VBool(Truthy(v))]);
    StepPasses(code, mid, vm');
    ReachesOn(code, vm, mid, vm');
  }

  lemma TestDone(code: seq<byte>, k: Targets, vm: Vm, mid: Vm, b: bool, out: seq<Value>, target: nat) returns (vm': Vm)
    requires WfVm(vm) && WfVm(mid) && Reaches(code, vm, mid) && target < 0x8000_0000
    requires Continues(vm, mid, mid.ip, [VBool(b)], out, |vm.frames|)
    requires Placed(code, mid.ip, JumpIfFalse(target), k)
    ensures WfVm(vm') && Passes(code, vm, vm')
    ensures Continues(vm, vm', if b then mid.ip + 5 else target, [], out, |vm.frames|)
  {
    hide Reaches, Encode, Passes;
    JumpSize(Narrow(target));
    FetchIns(code, mid.ip, JUMP_IF_F(Narrow(target)), k);
    assert Drop(mid, 1).stack == vm.stack;
    vm' := mid.(ip := if b then mid.ip + 5 else target, stack := vm.stack);
    StepPasses(code, mid, vm');
    ReachesPasses(code, vm, mid, vm');
    assert vm.stack + [] == vm.stack;
  }

  /** After the block a jump leads to the end of the whole statement. */
  lemma JumpAfter(code: seq<byte>, k: Targets, vm: Vm, env: Scope, after: Scope, at: int, end: nat, brk: int, cont: int,
                  o: Outcome, fuel: nat, vm1: Vm) returns (vm': Vm)
    requires |vm.frames| > 0 && end < 0x8000_0000
    requires StmtResult(code, vm, env, after, at, brk, cont, o, fuel, vm1)
    requires Placed(code, at, Jump(end), k)
    ensures StmtResult(code, vm, env, after, end, brk, cont, o, fuel, vm')
    ensures o.Normal? ==> vm' == vm1.(ip := end)
  {
    hide Reaches, Encode, Passes, Stops, Survives, Caught, SameBelow, Agrees, CodeAt;
    vm' := vm1;
    if o.Normal? {
      vm' := SimJump(code, vm1, Narrow(end));
      ReachesOn(code, vm, vm1, vm');
      AgreesLocals(after, o.store, vm1, vm', vm, |vm.frames| - 1);
    }
  }

  /** The end scope of a statement result may grow. */
  lemma WiderAfter(code: seq<byte>, vm: Vm, env: Scope, after: Scope, wide: Scope, end: int, brk: int, cont: int,
                   o: Outcome, fuel: nat, vm': Vm)
    requires |vm.frames| > 0 && StmtResult(code, vm, env, after, end, brk, cont, o, fuel, vm')
    requires Grows(after, wide) && (o.Normal? ==> Covers(after, o.store))
    ensures StmtResult(code, vm, env, wide, end, brk, cont, o, fuel, vm')
  {
    hide Reaches, Stops, Survives, Caught, SameBelow, Agrees, Covers, Grows;
    if o.Normal? {
      AgreesGrows(after, wide, o.store, vm');
    }
  }

  /** An outcome that does not fall through does not depend on what follows. */
  lemma EscapesAnywhere(code: seq<byte>, vm: Vm, env: Scope, after: Scope, end: int, brk: int, cont: int,
                        o: Outcome, fuel: nat, vm': Vm, after': Scope, end': int)
    requires |vm.frames| > 0 && StmtResult(code, vm, env, after, end, brk, cont, o, fuel, vm') && !o.Normal?
    ensures StmtResult(code, vm, env, after', end', brk, cont, o, fuel, vm')
  {}

  /** A state at the same stack height with the same frame slots is in step. */
  lemma InStepAt(env: Scope, st: Store, vm: Vm, mid: Vm, out: seq<Value>)
    requires InStep(env, st, vm) && WfVm(mid) && Continues(vm, mid, mid.ip, [], out, |vm.frames|)
    ensures InStep(env, st, mid) && RoomOf(mid) == RoomOf(vm)
    ensures Continues(vm, mid, mid.ip, [], out, |vm.frames| - 1)
  {
    hide Typed, Covers, Agrees;
    AgreesSame(env, st, vm, mid);
    assert vm.stack + [] == vm.stack;
  }

  /** Only the position differs: nothing has run yet. */
  lemma SkipDone(code: seq<byte>, env: Scope, st: Store, vm: Vm, after: Scope, brk: int, cont: int, fuel: nat)
    requires InStep(env, st, vm) && Grows(env, after)
    ensures StmtResult(code, vm, env, after, vm.ip, brk, cont, Normal(st, None, []), fuel, vm)
  {
    hide Typed, Covers, Agrees, Reaches, Grows;
    ReachesSelf(code, vm);
    NothingMoved(vm);
    SameAsItself(vm, |vm.frames| - 1);
    AgreesGrows(env, after, st, vm);
  }

  // ----- if -----

  lemma IfParts(code: seq<byte>, p: Program, cx: Context, k: Targets, s: Stmt, env: Scope, base: nat, cont: int32,
                st: Store, vm: Vm, at: nat, ct: Code, end: nat)
    requires s.If? && StmtGiven(code, p, cx, k, s, env, base, cont, st, vm)
    requires at == base + Size(CondCode(s.cond, env, cx.sg)) + 5
    requires ct == BlockCode(s.thn, env, cx.sg, at, cont) && end == at + Size(ct) + 5
    ensures OkValue(s.cond, env, cx.sg) && OkArm(s.thn, cx, env, TVoid)
    ensures end < 0x8000_0000 && Placed(code, vm.ip, Cat(CondCode(s.cond, env, cx.sg), JumpIfFalse(end)), k)
    ensures Placed(code, at, ct, k) && Placed(code, at + Size(ct), Jump(end), k)
    ensures base + Size(StmtCode(s, env, cx.sg, base, cont)) == end && StmtScope(s, env, cx.sg) == BlockScope(s.thn, env, cx.sg)
  {
    hide InStep, Loaded, OkStmt, OkArm, OkValue, StmtScope, BlockScope, StmtCode, BlockCode, CondCode, Jump, JumpIfFalse,
      Placed, Size, IfShape;
    LoadedSize(code, p, cx.sg);
    PlacedInside(code, base, StmtCode(s, env, cx.sg, base, cont), k);
    IfFacts(s, cx, env);
    IfCode(s, env, cx.sg, base, cont, at, ct, end);
    IfLayout(code, base, CondCode(s.cond, env, cx.sg), ct, at, end, k);
  }

  lemma LoadedSize(code: seq<byte>, p: Program, sg: Signatures)
    requires Loaded(code, p, sg)
    ensures |code| < 0x8000_0000
  {}

  lemma IfFacts(s: Stmt, cx: Context, env: Scope)
    requires s.If? && OkStmt(s, cx, env)
    ensures OkValue(s.cond, env, cx.sg) && OkArm(s.thn, cx, env, TVoid)
    ensures StmtScope(s, env, cx.sg) == BlockScope(s.thn, env, cx.sg)
  {
    hide OkArm, OkValue, BlockScope;
  }

  lemma IfCode(s: Stmt, env: Scope, sg: Signatures, base: nat, cont: int32, at: nat, ct: Code, end: nat)
    requires s.If? && at == base + Size(CondCode(s.cond, env, sg)) + 5
    requires ct == BlockCode(s.thn, env, sg, at, cont) && end == at + Size(ct) + 5
    ensures StmtCode(s, env, sg, base, cont) == IfShape(CondCode(s.cond, env, sg), ct, end)
  {
    hide BlockCode, CondCode, Jump, JumpIfFalse, BlockScope, Size, Ins, Narrow, StoreIn, IfShape, IfElseShape, WhileShape, TryShape;
  }

  lemma IfLayout(code: seq<byte>, base: nat, cc: Code, ct: Code, at: nat, end: nat, k: Targets)
    requires Placed(code, base, IfShape(cc, ct, end), k)
    requires at == base + Size(cc) + 5 && end == at + Size(ct) + 5
    ensures Placed(code, base, Cat(cc, JumpIfFalse(end)), k)
    ensures Placed(code, at, ct, k) && Placed(code, at + Size(ct), Jump(end), k)
    ensures base + Size(IfShape(cc, ct, end)) == end
  {
    hide Jump, JumpIfFalse, Placed;
    TestSize(cc, end);
    PlacedCat(code, base, Cat(cc, JumpIfFalse(end)), Cat(ct, Jump(end)), k);
    PlacedCat(code, at, ct, Jump(end), k);
  }

  lemma {:induction false} SimIf(code: seq<byte>, p: Program, cx: Context, k: Targets, s: Stmt, env: Scope, base: nat,
                                 cont: int32, st: Store, vm: Vm, fuel: nat) returns (vm': Vm)
    requires s.If? && StmtGiven(code, p, cx, k, s, env, base, cont, st, vm)
    ensures StmtGoal(code, p, cx, k, s, env, base, cont, st, vm, fuel, vm')
    decreases fuel, s, 3
  {
    hide Encode, Reaches, Stops, Survives, Typed, Covers, Agrees, SameBelow, Fails, WfVm, OkFuns, FunsCode, Placed,
      StmtResult, EvalExpr, OkExpr, TypeOf, OkStmt, StmtCode, StmtScope, BlockScope, BlockCode, HasType, Excusable, Clean,
      Passes, ExecBlock, BlockType, BlockCompletes, CondCode, Grows, Continues, Jump, JumpIfFalse, InStep, Definitely,
      OkBlock, BlockDefinite, BlockAssigned, OkValue;
    var sg := cx.sg;
    var at := base + Size(CondCode(s.cond, env, sg)) + 5;
    var ct := BlockCode(s.thn, env, sg, at, cont);
    var end := at + Size(ct) + 5;
    var after := BlockScope(s.thn, env, sg);
    IfParts(code, p, cx, k, s, env, base, cont, st, vm, at, ct, end);
    InStepParts(env, st, vm);
    BlockGrows(s.thn, cx, env);
    var vm1 := SimTest(code, p, sg, k, s.cond, env, end, st, vm, fuel);
    var o := EvalExpr(p, s.cond, st, RoomOf(vm), fuel);
    vm' := vm1;
    if !o.Yields? {
      FailedStatement(code, env, st, vm, after, end, k.brk, cont, o, fuel, vm1);
    } else {
      TestIp(vm, vm1, if Truthy(o.value.value) then at else end, o.out);
      InStepAt(env, st, vm, vm1, o.out);
      PassesReaches(code, vm, vm1);
      if Truthy(o.value.value) {
        var vm2 := SimBlock(code, p, cx, k, s.thn, env, at, cont, st, vm1, fuel);
        var ob := ExecBlock(p, s.thn, st, RoomOf(vm1), fuel);
        SoundBlock(p, s.thn, cx, env, {}, st, RoomOf(vm1), fuel);
        vm' := JumpAfter(code, k, vm1, env, after, at + Size(ct), end, k.brk, cont, ob, fuel, vm2);
        StmtEarlier(code, vm, vm1, o.out, env, env, after, end, k.brk, cont, ob, fuel, vm');
      } else {
        SkipDone(code, env, st, vm1, after, k.brk, cont, fuel);
        StmtEarlier(code, vm, vm1, o.out, env, env, after, end, k.brk, cont, Normal(st, None, []), fuel, vm1);
      }
    }
  }

  lemma InStepParts(env: Scope, st: Store, vm: Vm)
    requires InStep(env, st, vm)
    ensures |env| <= LOCALS_PER_FRAME && Typed(env, st) && Covers(env, st) && WfVm(vm) && |vm.frames| > 0
    ensures Grows(env, env)
  {}

  lemma TestIp(vm: Vm, vm1: Vm, ip: int, out: seq<Value>)
    requires Continues(vm, vm1, ip, [], out, |vm.frames|)
    ensures vm1.ip == ip && |vm1.frames| == |vm.frames|
  {}

  // ----- if with else -----

  lemma IfElseParts(code: seq<byte>, p: Program, cx: Context, k: Targets, s: Stmt, env: Scope, base: nat, cont: int32,
                    st: Store, vm: Vm, at: nat, ct: Code, elseAt: nat, cf: Code)
    requires s.IfElse? && StmtGiven(code, p, cx, k, s, env, base, cont, st, vm)
    requires at == base + Size(CondCode(s.cond, env, cx.sg)) + 5
    requires ct == BlockCode(s.thn, env, cx.sg, at, cont) && elseAt == at + Size(ct) + 5
    requires cf == BlockCode(s.els, BlockScope(s.thn, env, cx.sg), cx.sg, elseAt, cont)
    ensures OkValue(s.cond, env, cx.sg) && OkArm(s.thn, cx, env, StmtType(s, env, cx.sg))
    ensures OkArm(s.els, cx, BlockScope(s.thn, env, cx.sg), StmtType(s, env, cx.sg))
    ensures elseAt + Size(cf) < 0x8000_0000
    ensures Placed(code, vm.ip, Cat(CondCode(s.cond, env, cx.sg), JumpIfFalse(elseAt)), k)
    ensures Placed(code, at, ct, k) && Placed(code, at + Size(ct), Jump(elseAt + Size(cf)), k) && Placed(code, elseAt, cf, k)
    ensures base + Size(StmtCode(s, env, cx.sg, base, cont)) == elseAt + Size(cf)
    ensures StmtScope(s, env, cx.sg) == BlockScope(s.els, BlockScope(s.thn, env, cx.sg), cx.sg)
  {
    hide InStep, Loaded, OkStmt, OkArm, OkValue, StmtType, StmtScope, BlockScope, StmtCode, BlockCode, CondCode, Jump,
      JumpIfFalse, Placed, Size, IfElseShape;
    LoadedSize(code, p, cx.sg);
    PlacedInside(code, base, StmtCode(s, env, cx.sg, base, cont), k);
    IfElseFacts(s, cx, env);
    IfElseCode(s, env, cx.sg, base, cont, at, ct, elseAt, cf);
    IfElseLayout(code, base, CondCode(s.cond, env, cx.sg), ct, cf, at, elseAt, k);
  }

  lemma IfElseFacts(s: Stmt, cx: Context, env: Scope)
    requires s.IfElse? && OkStmt(s, cx, env)
    ensures OkValue(s.cond, env, cx.sg) && OkArm(s.thn, cx, env, StmtType(s, env, cx.sg))
    ensures OkArm(s.els, cx, BlockScope(s.thn, env, cx.sg), StmtType(s, env, cx.sg))
    ensures StmtScope(s, env, cx.sg) == BlockScope(s.els, BlockScope(s.thn, env, cx.sg), cx.sg)
  {
    hide OkArm, OkValue, StmtType, BlockScope;
  }

  lemma IfElseLayout(code: seq<byte>, base: nat, cc: Code, ct: Code, cf: Code, at: nat, elseAt: nat, k: Targets)
    requires Placed(code, base, IfElseShape(cc, ct, cf, elseAt), k)
    requires at == base + Size(cc) + 5 && elseAt == at + Size(ct) + 5
    ensures Placed(code, base, Cat(cc, JumpIfFalse(elseAt)), k) && Placed(code, at, ct, k)
    ensures Placed(code, at + Size(ct), Jump(elseAt + Size(cf)), k) && Placed(code, elseAt, cf, k)
    ensures base + Size(IfElseShape(cc, ct, cf, elseAt)) == elseAt + Size(cf)
  {
    hide Placed, Jump, JumpIfFalse;
    TestSize(cc, elseAt);
    FourParts(code, base, Cat(cc, JumpIfFalse(elseAt)), ct, Jump(elseAt + Size(cf)), cf, at, elseAt, k);
  }

  lemma IfElseCode(s: Stmt, env: Scope, sg: Signatures, base: nat, cont: int32, at: nat, ct: Code, elseAt: nat, cf: Code)
    requires s.IfElse?
    requires at == base + Size(CondCode(s.cond, env, sg)) + 5
    requires ct == BlockCode(s.thn, env, sg, at, cont) && elseAt == at + Size(ct) + 5
    requires cf == BlockCode(s.els, BlockScope(s.thn, env, sg), sg, elseAt, cont)
    ensures StmtCode(s, env, sg, base, cont)
         == IfElseShape(CondCode(s.cond, env, sg), ct, cf, elseAt)
  {
    hide BlockCode, CondCode, Jump, JumpIfFalse, BlockScope, Size, Ins, Narrow, StoreIn, IfShape, IfElseShape, WhileShape, TryShape;
  }

  lemma TestSize(c: Code, target: nat)
    ensures Size(Cat(c, JumpIfFalse(target))) == Size(c) + 5
  {}

  lemma FourParts(code: seq<byte>, base: nat, a: Code, b: Code, c: Code, d: Code, at: nat, last: nat, k: Targets)
    requires Placed(code, base, Cat(Cat(a, Cat(b, c)), d), k)
    requires at == base + Size(a) && Size(c) == 5 && last == at + Size(b) + 5
    ensures Placed(code, base, a, k) && Placed(code, at, b, k) && Placed(code, at + Size(b), c, k) && Placed(code, last, d, k)
    ensures base + Size(Cat(Cat(a, Cat(b, c)), d)) == last + Size(d)
  {
    hide CodeAt, Encode;
    assert Size(Cat(b, c)) == Size(b) + Size(c);
    assert Size(Cat(a, Cat(b, c))) == Size(a) + Size(Cat(b, c));
    PlacedCat(code, base, Cat(a, Cat(b, c)), d, k);
    PlacedCat(code, base, a, Cat(b, c), k);
  }

  lemma {:induction false} SimIfElse(code: seq<byte>, p: Program, cx: Context, k: Targets, s: Stmt, env: Scope, base: nat,
                                     cont: int32, st: Store, vm: Vm, fuel: nat) returns (vm': Vm)
    requires s.IfElse? && StmtGiven(code, p, cx, k, s, env, base, cont, st, vm)
    ensures StmtGoal(code, p, cx, k, s, env, base, cont, st, vm, fuel, vm')
    decreases fuel, s, 3
  {
    hide Encode, Reaches, Stops, Survives, Typed, Covers, Agrees, SameBelow, Fails, WfVm, OkFuns, FunsCode, Placed,
      StmtResult, EvalExpr, OkExpr, TypeOf, OkStmt, StmtCode, StmtScope, StmtType, BlockScope, BlockCode, HasType, Excusable,
      Clean, Passes, ExecBlock, BlockType, BlockCompletes, CondCode, Grows, Continues, Jump, JumpIfFalse, InStep, Definitely,
      OkBlock, BlockDefinite, BlockAssigned, OkValue;
    var sg := cx.sg;
    var at := base + Size(CondCode(s.cond, env, sg)) + 5;
    var ct := BlockCode(s.thn, env, sg, at, cont);
    var elseAt := at + Size(ct) + 5;
    var env1 := BlockScope(s.thn, env, sg);
    var cf := BlockCode(s.els, env1, sg, elseAt, cont);
    var end := elseAt + Size(cf);
    var after := BlockScope(s.els, env1, sg);
    IfElseParts(code, p, cx, k, s, env, base, cont, st, vm, at, ct, elseAt, cf);
    InStepParts(env, st, vm);
    BlockGrows(s.thn, cx, env);
    BlockGrows(s.els, cx, env1);
    var vm1 := SimTest(code, p, sg, k, s.cond, env, elseAt, st, vm, fuel);
    var o := EvalExpr(p, s.cond, st, RoomOf(vm), fuel);
    vm' := vm1;
    if !o.Yields? {
      FailedStatement(code, env, st, vm, after, end, k.brk, cont, o, fuel, vm1);
    } else {
      TestIp(vm, vm1, if Truthy(o.value.value) then at else elseAt, o.out);
      InStepAt(env, st, vm, vm1, o.out);
      PassesReaches(code, vm, vm1);
      if Truthy(o.value.value) {
        var vm2 := SimBlock(code, p, cx, k, s.thn, env, at, cont, st, vm1, fuel);
        var ob := ExecBlock(p, s.thn, st, RoomOf(vm1), fuel);
        SoundBlock(p, s.thn, cx, env, {}, st, RoomOf(vm1), fuel);
        WiderAfter(code, vm1, env, env1, after, at + Size(ct), k.brk, cont, ob, fuel, vm2);
        vm' := JumpAfter(code, k, vm1, env, after, at + Size(ct), end, k.brk, cont, ob, fuel, vm2);
        StmtEarlier(code, vm, vm1, o.out, env, env, after, end, k.brk, cont, ob, fuel, vm');
      } else {
        InStepGrows(env, env1, st, vm1);
        vm' := SimBlock(code, p, cx, k, s.els, env1, elseAt, cont, st, vm1, fuel);
        StmtEarlier(code, vm, vm1, o.out, env, env1, after, end, k.brk, cont,
                    ExecBlock(p, s.els, st, RoomOf(vm1), fuel), fuel, vm');
      }
    }
  }

  lemma InStepGrows(env: Scope, env1: Scope, st: Store, vm: Vm)
    requires InStep(env, st, vm) && Grows(env, env1) && |env1| <= LOCALS_PER_FRAME
    ensures InStep(env1, st, vm)
  {
    hide Typed, Covers, Agrees, Grows;
    TypedGrows(env, env1, st);
    AgreesGrows(env, env1, st, vm);
  }

  // ----- loops -----

  lemma WhileParts(code: seq<byte>, p: Program, cx: Context, k: Targets, s: Stmt, env: Scope, base: nat, cont: int32,
                   st: Store, vm: Vm, at: nat, cb: Code, end: nat)
    requires s.While? && StmtGiven(code, p, cx, k, s, env, base, cont, st, vm)
    requires at == base + Size(CondCode(s.cond, env, cx.sg)) + 5
    requires cb == BlockCode(s.body, env, cx.sg, at, Narrow(base)) && end == at + Size(cb) + 5
    ensures OkValue(s.cond, env, cx.sg) && OkArm(s.body, cx.(mayBreak := true), env, TVoid)
    ensures base < 0x8000_0000 && end < 0x8000_0000 && Narrow(base) == base && Narrow(end) == end
    ensures Placed(code, vm.ip, Cat(CondCode(s.cond, env, cx.sg), JumpIfFalse(end)), k)
    ensures Placed(code, at, cb, k.(brk := end)) && Placed(code, at + Size(cb), Jump(base), k)
    ensures base + Size(StmtCode(s, env, cx.sg, base, cont)) == end && StmtScope(s, env, cx.sg) == BlockScope(s.body, env, cx.sg)
  {
    hide InStep, Loaded, OkStmt, OkArm, OkValue, StmtScope, BlockScope, StmtCode, BlockCode, CondCode, Jump, JumpIfFalse,
      Placed, Size, WhileShape;
    LoadedSize(code, p, cx.sg);
    PlacedInside(code, base, StmtCode(s, env, cx.sg, base, cont), k);
    WhileFacts(s, cx, env);
    WhileCode(s, env, cx.sg, base, cont, at, cb, end);
    WhileLayout(code, base, CondCode(s.cond, env, cx.sg), cb, at, end, k);
  }

  lemma WhileFacts(s: Stmt, cx: Context, env: Scope)
    requires s.While? && OkStmt(s, cx, env)
    ensures OkValue(s.cond, env, cx.sg) && OkArm(s.body, cx.(mayBreak := true), env, TVoid)
    ensures StmtScope(s, env, cx.sg) == BlockScope(s.body, env, cx.sg)
  {
    hide OkArm, OkValue, BlockScope;
  }

  lemma WhileCode(s: Stmt, env: Scope, sg: Signatures, base: nat, cont: int32, at: nat, cb: Code, end: nat)
    requires s.While? && at == base + Size(CondCode(s.cond, env, sg)) + 5
    requires cb == BlockCode(s.body, env, sg, at, Narrow(base)) && end == at + Size(cb) + 5
    ensures StmtCode(s, env, sg, base, cont) == WhileShape(CondCode(s.cond, env, sg), cb, base, end)
  {
    hide BlockCode, CondCode, Jump, JumpIfFalse, BlockScope, Size, Ins, Narrow, StoreIn, IfShape, IfElseShape, WhileShape, TryShape;
  }

  lemma WhileLayout(code: seq<byte>, base: nat, cc: Code, cb: Code, at: nat, end: nat, k: Targets)
    requires Placed(code, base, WhileShape(cc, cb, base, end), k)
    requires at == base + Size(cc) + 5 && end == at + Size(cb) + 5
    ensures Placed(code, base, Cat(cc, JumpIfFalse(end)), k)
    ensures Placed(code, at, cb, k.(brk := Narrow(end))) && Placed(code, at + Size(cb), Jump(base), k)
    ensures base + Size(WhileShape(cc, cb, base, end)) == end
  {
    hide Jump, JumpIfFalse, CodeAt, Encode;
    TestSize(cc, end);
    var test, loop := Cat(cc, JumpIfFalse(end)), Within(Narrow(end), cb);
    assert Size(loop) == Size(cb);
    PlacedCat(code, base, test, Cat(loop, Jump(base)), k);
    PlacedCat(code, at, loop, Jump(base), k);
  }

  lemma {:induction false} SimWhile(code: seq<byte>, p: Program, cx: Context, k: Targets, s: Stmt, env: Scope, base: nat,
                                    cont: int32, st: Store, vm: Vm, fuel: nat) returns (vm': Vm)
    requires s.While? && StmtGiven(code, p, cx, k, s, env, base, cont, st, vm)
    ensures StmtGoal(code, p, cx, k, s, env, base, cont, st, vm, fuel, vm')
    decreases fuel, s, 3
  {
    hide Encode, Reaches, Stops, Survives, Typed, Covers, Agrees, SameBelow, Fails, WfVm, OkFuns, FunsCode, Placed,
      StmtResult, EvalExpr, OkExpr, TypeOf, OkStmt, StmtCode, StmtScope, StmtType, BlockScope, BlockCode, HasType, Excusable,
      Clean, Passes, ExecBlock, BlockType, BlockCompletes, CondCode, Grows, Continues, Jump, JumpIfFalse, InStep, Definitely,
      OkBlock, BlockDefinite, BlockAssigned, OkValue, AfterBody;
    var sg := cx.sg;
    var at := base + Size(CondCode(s.cond, env, sg)) + 5;
    var cb := BlockCode(s.body, env, sg, at, Narrow(base));
    var end := at + Size(cb) + 5;
    var after := BlockScope(s.body, env, sg);
    WhileParts(code, p, cx, k, s, env, base, cont, st, vm, at, cb, end);
    InStepParts(env, st, vm);
    BlockGrows(s.body, cx.(mayBreak := true), env);
    var vm1 := SimTest(code, p, sg, k, s.cond, env, end, st, vm, fuel);
    var o := EvalExpr(p, s.cond, st, RoomOf(vm), fuel);
    vm' := vm1;
    if !o.Yields? {
      FailedStatement(code, env, st, vm, after, end, k.brk, cont, o, fuel, vm1);
    } else {
      TestIp(vm, vm1, if Truthy(o.value.value) then at else end, o.out);
      InStepAt(env, st, vm, vm1, o.out);
      PassesReaches(code, vm, vm1);
      if Truthy(o.value.value) {
        vm' := SimTurn(code, p, cx, k, s, env, base, cont, st, vm, vm1, o.out, fuel);
        var ob := AfterBody(p, s, st, RoomOf(vm), fuel, ExecBlock(p, s.body, st, RoomOf(vm), fuel));
        if ob.Timeout? {
          TurnSurvives(code, vm, env, after, end, k.brk, cont, fuel, vm');
        } else {
          StmtEarlier(code, vm, vm1, o.out, env, env, after, end, k.brk, cont, ob, fuel, vm');
        }
      } else {
        SkipDone(code, env, st, vm1, after, k.brk, cont, fuel);
        StmtEarlier(code, vm, vm1, o.out, env, env, after, end, k.brk, cont, Normal(st, None, []), fuel, vm1);
      }
    }
  }

  lemma TurnSurvives(code: seq<byte>, vm: Vm, env: Scope, after: Scope, end: int, brk: int, cont: int, fuel: nat, vm': Vm)
    requires |vm.frames| > 0 && Survives(code, vm, fuel)
    ensures StmtResult(code, vm, env, after, end, brk, cont, Timeout, fuel, vm')
  {}

  /** One turn of the loop from the start of its body at vm1, and the turns after it; when
      fuel runs out the machine has survived one more step since vm, before the test. */
  lemma {:induction false} SimTurn(code: seq<byte>, p: Program, cx: Context, k: Targets, s: Stmt, env: Scope, base: nat,
                                   cont: int32, st: Store, vm: Vm, vm1: Vm, out: seq<Value>, fuel: nat) returns (vm': Vm)
    requires s.While? && StmtGiven(code, p, cx, k, s, env, base, cont, st, vm)
    requires Passes(code, vm, vm1) && Continues(vm, vm1, vm1.ip, [], out, |vm.frames| - 1) && InStep(env, st, vm1)
    requires RoomOf(vm1) == RoomOf(vm) && vm1.ip == base + Size(CondCode(s.cond, env, cx.sg)) + 5
    ensures var o := AfterBody(p, s, st, RoomOf(vm), fuel, ExecBlock(p, s.body, st, RoomOf(vm), fuel));
      if o.Timeout? then Survives(code, vm, fuel)
      else StmtResult(code, vm1, env, StmtScope(s, env, cx.sg), base + Size(StmtCode(s, env, cx.sg, base, cont)),
                      k.brk, cont, o, fuel, vm')
    decreases fuel, s, 2
  {
    hide Encode, Reaches, Stops, Survives, Typed, Covers, Agrees, SameBelow, Fails, WfVm, OkFuns, FunsCode, Placed,
      StmtResult, EvalExpr, OkExpr, TypeOf, OkStmt, StmtCode, StmtScope, StmtType, BlockScope, BlockCode, HasType, Excusable,
      Clean, Passes, ExecBlock, BlockType, BlockCompletes, CondCode, Grows, Continues, Jump, JumpIfFalse, InStep, Definitely,
      OkBlock, BlockDefinite, BlockAssigned, OkValue;
    var sg := cx.sg;
    var room := RoomOf(vm);
    var at := base + Size(CondCode(s.cond, env, sg)) + 5;
    var cb := BlockCode(s.body, env, sg, at, Narrow(base));
    var end := at + Size(cb) + 5;
    var after := BlockScope(s.body, env, sg);
    var inLoop := cx.(mayBreak := true);
    WhileParts(code, p, cx, k, s, env, base, cont, st, vm, at, cb, end);
    InStepParts(env, st, vm1);
    BlockGrows(s.body, inLoop, env);
    var vm2 := SimBlock(code, p, inLoop, k.(brk := end), s.body, env, at, base, st, vm1, fuel);
    var ob := ExecBlock(p, s.body, st, room, fuel);
    SoundBlock(p, s.body, inLoop, env, {}, st, room, fuel);
    vm' := vm2;
    match ob
    case Normal(st2, v, out2) =>
      var vm3 := JumpAfter(code, k, vm1, env, after, at + Size(cb), base, end, base, ob, fuel, vm2);
      LoopAgain(code, vm1, env, after, st, st2, base, end, base, ob, fuel, vm3);
      vm' := SimAgain(code, p, cx, k, s, env, base, cont, st, vm, vm1, vm3, Restrict(st2, st.Keys), out2, fuel);
    case Continued(st2, out2) =>
      LoopAgain(code, vm1, env, after, st, st2, at + Size(cb), end, base, ob, fuel, vm2);
      vm' := SimAgain(code, p, cx, k, s, env, base, cont, st, vm, vm1, vm2, Restrict(st2, st.Keys), out2, fuel);
    case Broke(st2, out2) => LoopLeft(code, vm1, env, after, st, st2, at + Size(cb), end, base, k.brk, cont, ob, fuel, vm2);
    case Timeout => BodySurvives(code, vm, vm1, env, after, at + Size(cb), end, base, fuel, vm2);
    case _ => OtherTargets(code, vm1, env, after, at + Size(cb), end, base, ob, fuel, vm2, end, k.brk, cont);
  }

  lemma BodySurvives(code: seq<byte>, vm: Vm, vm1: Vm, env: Scope, after: Scope, at: int, brk: int, cont: int, fuel: nat, vm2: Vm)
    requires Passes(code, vm, vm1) && |vm1.frames| > 0
    requires StmtResult(code, vm1, env, after, at, brk, cont, Timeout, fuel, vm2)
    ensures Survives(code, vm, fuel)
  {
    hide Passes, Survives, Reaches;
    PassesReaches(code, vm, vm1);
    ReachesSurvives(code, vm, vm1, fuel);
  }

  /** Outcomes that are neither normal nor caught by the loop do not depend on its targets. */
  lemma OtherTargets(code: seq<byte>, vm: Vm, env: Scope, after: Scope, end: int, brk: int, cont: int, o: Outcome, fuel: nat,
                     vm': Vm, end': int, brk': int, cont': int)
    requires |vm.frames| > 0 && StmtResult(code, vm, env, after, end, brk, cont, o, fuel, vm')
    requires !o.Normal? && !o.Broke? && !o.Continued?
    ensures StmtResult(code, vm, env, after, end', brk', cont', o, fuel, vm')
  {}

  /** At the head of the loop again, in step with the variables of before. */
  lemma LoopAgain(code: seq<byte>, vm1: Vm, env: Scope, after: Scope, st: Store, st2: Store, end: int, brk: int, base: int,
                  o: Outcome, fuel: nat, vm2: Vm)
    requires |vm1.frames| > 0 && StmtResult(code, vm1, env, after, end, brk, base, o, fuel, vm2)
    requires (o.Normal? && o.store == st2 && o.value.None? && end == base && Typed(after, st2)) || (o.Continued? && o.store == st2 && Typed(env, st2))
    requires Grows(env, after) && Covers(env, st) && st.Keys <= st2.Keys && |env| <= LOCALS_PER_FRAME
    ensures InStep(env, Restrict(st2, st.Keys), vm2) && RoomOf(vm2) == RoomOf(vm1) && Reaches(code, vm1, vm2)
    ensures Continues(vm1, vm2, base, [], o.out, |vm1.frames| - 1) && vm2.ip == base
    ensures Restrict(st2, st.Keys).Keys == st.Keys
  {
    hide Reaches, SameBelow, Grows;
    TypedGrows(env, after, st2);
    AgreesGrows(env, after, st2, vm2);
    assert vm1.stack + [] == vm1.stack;
  }

  lemma LoopLeft(code: seq<byte>, vm1: Vm, env: Scope, after: Scope, st: Store, st2: Store, at: int, end: int, base: int,
                 brk: int, cont: int, o: Outcome, fuel: nat, vm2: Vm)
    requires |vm1.frames| > 0 && o.Broke? && o.store == st2 && StmtResult(code, vm1, env, after, at, end, base, o, fuel, vm2)
    requires Grows(env, after) && Covers(env, st) && st.Keys <= st2.Keys
    ensures StmtResult(code, vm1, env, after, end, brk, cont, Normal(Restrict(st2, st.Keys), None, o.out), fuel, vm2)
  {
    hide Reaches, SameBelow, Grows;
    var st3 := Restrict(st2, st.Keys);
    assert Agrees(env, st3, vm2) && Covers(env, st3);
    AgreesGrows(env, after, st3, vm2);
  }

  /** The turns after the first. */
  lemma {:induction false} SimAgain(code: seq<byte>, p: Program, cx: Context, k: Targets, s: Stmt, env: Scope, base: nat,
                                    cont: int32, st: Store, vm: Vm, vm1: Vm, vm3: Vm, st3: Store, out: seq<Value>, fuel: nat)
    returns (vm': Vm)
    requires s.While? && StmtGiven(code, p, cx, k, s, env, base, cont, st, vm) && WfVm(vm1)
    requires Passes(code, vm, vm1) && RoomOf(vm1) == RoomOf(vm) && |vm1.frames| > 0
    requires InStep(env, st3, vm3) && RoomOf(vm3) == RoomOf(vm1) && Reaches(code, vm1, vm3)
    requires Continues(vm1, vm3, base, [], out, |vm1.frames| - 1) && vm3.ip == base
    ensures var o := After(out, ExecAgain(p, s, st3, RoomOf(vm), fuel));
      if o.Timeout? then Survives(code, vm, fuel)
      else StmtResult(code, vm1, env, StmtScope(s, env, cx.sg), base + Size(StmtCode(s, env, cx.sg, base, cont)),
                      k.brk, cont, o, fuel, vm')
    decreases fuel, s, 1
  {
    hide Encode, Reaches, Stops, Typed, Covers, Agrees, SameBelow, WfVm, OkFuns, FunsCode, Placed,
      OkStmt, StmtCode, StmtScope, Passes, Grows, InStep, ExecStmt, Step, Continues;
    vm' := vm3;
    if fuel > 0 {
      vm' := SimStmt(code, p, cx, k, s, env, base, cont, st3, vm3, fuel - 1);
      var o := ExecStmt(p, s, st3, RoomOf(vm), fuel - 1);
      var after, end := StmtScope(s, env, cx.sg), base + Size(StmtCode(s, env, cx.sg, base, cont));
      if o.Timeout? {
        PassesOn(code, vm, vm1, vm3);
        PassesSurvives(code, vm, vm3, fuel - 1);
      } else {
        SameFuel(code, vm3, env, after, end, k.brk, cont, o, fuel - 1, vm', fuel);
        GrowsItself(env);
        StmtEarlier(code, vm1, vm3, out, env, env, after, end, k.brk, cont, o, fuel, vm');
      }
    }
  }

  lemma GrowsItself(env: Scope)
    ensures Grows(env, env)
  {}

  lemma SameFuel(code: seq<byte>, vm: Vm, env: Scope, after: Scope, end: int, brk: int, cont: int, o: Outcome, fuel: nat,
                 vm': Vm, fuel': nat)
    requires |vm.frames| > 0 && StmtResult(code, vm, env, after, end, brk, cont, o, fuel, vm') && !o.Timeout?
    ensures StmtResult(code, vm, env, after, end, brk, cont, o, fuel', vm')
  {}

  // ----- dispatch -----

  /** The code of a well-formed statement, run from a state in step, simulates its semantics. */
  lemma {:induction false} SimStmt(code: seq<byte>, p: Program, cx: Context, k: Targets, s: Stmt, env: Scope, base: nat,
                                   cont: int32, st: Store, vm: Vm, fuel: nat) returns (vm': Vm)
    requires StmtGiven(code, p, cx, k, s, env, base, cont, st, vm)
    ensures StmtGoal(code, p, cx, k, s, env, base, cont, st, vm, fuel, vm')
    decreases fuel, s, 4
  {
    hide StmtGiven, StmtGoal;
    match s
    case If(c, t) => vm' := SimIf(code, p, cx, k, s, env, base, cont, st, vm, fuel);
    case IfElse(c, t, f) => vm' := SimIfElse(code, p, cx, k, s, env, base, cont, st, vm, fuel);
    case While(c, b) => vm' := SimWhile(code, p, cx, k, s, env, base, cont, st, vm, fuel);
    case Try(b, x, h) => vm' := SimTry(code, p, cx, k, s, env, base, cont, st, vm, fuel);
    case _ => vm' := SimSimple(code, p, cx, k, s, env, base, cont, st, vm, fuel);
  }

  // ----- try -----

  lemma TryParts(code: seq<byte>, p: Program, cx: Context, k: Targets, s: Stmt, env: Scope, base: nat, cont: int32,
                 st: Store, vm: Vm, cb: Code, catchAt: nat, env1: Scope, ch: Code)
    requires s.Try? && StmtGiven(code, p, cx, k, s, env, base, cont, st, vm)
    requires env1 == BlockScope(s.body, env, cx.sg)
    requires cb == BlockCode(s.body, env, cx.sg, base + 5, cont) && catchAt == base + 5 + Size(cb) + 6
    requires ch == BlockCode(s.handler, env1 + [Local(s.err, TAny)], cx.sg, catchAt + 2, cont)
    ensures OkArm(s.body, cx.(mayBreak := false, mayReturn := false), env, TVoid)
    ensures OkArm(s.handler, cx, env1 + [Local(s.err, TAny)], TVoid)
    ensures BlockScope(s.handler, env1 + [Local(s.err, TAny)], cx.sg) == env1 + [Local(s.err, TAny)]
    ensures !Known(env1, s.err) && |env1| < LOCALS_PER_FRAME && StmtScope(s, env, cx.sg) == env1
    ensures base + Size(StmtCode(s, env, cx.sg, base, cont)) == catchAt + 2 + Size(ch) < 0x8000_0000
    ensures Placed(code, base, Ins(TRY(catchAt)), k) && Placed(code, base + 5, cb, k)
    ensures Placed(code, catchAt - 6, Ins(END_TRY), k) && Placed(code, catchAt - 5, Jump(catchAt + 2 + Size(ch)), k)
    ensures Placed(code, catchAt, StoreIn(|env1|), k) && Placed(code, catchAt + 2, ch, k)
  {
    hide InStep, Loaded, OkStmt, OkArm, StmtScope, BlockScope, StmtCode, BlockCode, Jump, StoreIn, Known, Ins, Placed, Size, TryShape;
    LoadedSize(code, p, cx.sg);
    PlacedInside(code, base, StmtCode(s, env, cx.sg, base, cont), k);
    TryFacts(s, cx, env, env1);
    TryCode(s, env, cx.sg, base, cont, cb, catchAt, env1, ch);
    TryShapeLayout(code, base, cb, |env1|, ch, catchAt, k);
  }

  lemma TryFacts(s: Stmt, cx: Context, env: Scope, env1: Scope)
    requires s.Try? && OkStmt(s, cx, env) && env1 == BlockScope(s.body, env, cx.sg)
    ensures OkArm(s.body, cx.(mayBreak := false, mayReturn := false), env, TVoid)
    ensures OkArm(s.handler, cx, env1 + [Local(s.err, TAny)], TVoid)
    ensures BlockScope(s.handler, env1 + [Local(s.err, TAny)], cx.sg) == env1 + [Local(s.err, TAny)]
    ensures !Known(env1, s.err) && |env1| < LOCALS_PER_FRAME && StmtScope(s, env, cx.sg) == env1
  {
    hide OkArm, BlockScope, Known;
    assert (env1 + [Local(s.err, TAny)])[..|env1|] == env1;
  }

  lemma TryShapeLayout(code: seq<byte>, base: nat, cb: Code, slot: nat, ch: Code, catchAt: nat, k: Targets)
    requires Placed(code, base, TryShape(cb, slot, ch, catchAt), k) && catchAt == base + 5 + Size(cb) + 6
    ensures Placed(code, base, Ins(TRY(Narrow(catchAt))), k) && Placed(code, base + 5, cb, k)
    ensures Placed(code, catchAt - 6, Ins(END_TRY), k) && Placed(code, catchAt - 5, Jump(catchAt + 2 + Size(ch)), k)
    ensures Placed(code, catchAt, StoreIn(slot), k) && Placed(code, catchAt + 2, ch, k)
    ensures base + Size(TryShape(cb, slot, ch, catchAt)) == catchAt + 2 + Size(ch)
  {
    hide Placed, Jump, StoreIn, Ins, Narrow;
    TrySizes(Narrow(catchAt));
    TryLayout(code, base, Ins(TRY(Narrow(catchAt))), cb, Ins(END_TRY), Jump(catchAt + 2 + Size(ch)), StoreIn(slot), ch,
              catchAt, k);
  }

  lemma TryCode(s: Stmt, env: Scope, sg: Signatures, base: nat, cont: int32, cb: Code, catchAt: nat, env1: Scope, ch: Code)
    requires s.Try? && env1 == BlockScope(s.body, env, sg)
    requires cb == BlockCode(s.body, env, sg, base + 5, cont) && catchAt == base + 5 + Size(cb) + 6
    requires ch == BlockCode(s.handler, env1 + [Local(s.err, TAny)], sg, catchAt + 2, cont)
    ensures StmtCode(s, env, sg, base, cont)
         == TryShape(cb, |env1|, ch, catchAt)
  {
    hide BlockCode, CondCode, Jump, JumpIfFalse, BlockScope, StoreIn, Ins, Size, Narrow, IfShape, IfElseShape, WhileShape, TryShape;
  }

  lemma TrySizes(catchAt: int32)
    ensures Size(Ins(TRY(catchAt))) == 5 && Size(Ins(END_TRY)) == 1
  {
    OneByteSizes();
    JumpSize(catchAt);
  }

  lemma TryLayout(code: seq<byte>, base: nat, a: Code, b: Code, c: Code, d: Code, e: Code, f: Code, at: nat, k: Targets)
    requires Placed(code, base, Cat(Cat(a, Cat(b, Cat(c, d))), Cat(e, f)), k)
    requires Size(a) == 5 && Size(c) == 1 && Size(d) == 5 && Size(e) == 2 && at == base + 5 + Size(b) + 6
    ensures Placed(code, base, a, k) && Placed(code, base + 5, b, k) && Placed(code, at - 6, c, k) && Placed(code, at - 5, d, k)
    ensures Placed(code, at, e, k) && Placed(code, at + 2, f, k)
    ensures base + Size(Cat(Cat(a, Cat(b, Cat(c, d))), Cat(e, f))) == at + 2 + Size(f)
  {
    hide CodeAt, Encode;
    assert Size(Cat(b, Cat(c, d))) == Size(b) + 6;
    assert Size(Cat(a, Cat(b, Cat(c, d)))) == 5 + Size(b) + 6;
    PlacedCat(code, base, Cat(a, Cat(b, Cat(c, d))), Cat(e, f), k);
    PlacedCat(code, base, a, Cat(b, Cat(c, d)), k);
    PlacedCat(code, base + 5, b, Cat(c, d), k);
    PlacedCat(code, at - 6, c, d, k);
    PlacedCat(code, at, e, f, k);
  }

  /** The state in which the body of a try starts. */
  function Guarded(vm: Vm, handler: int32): Vm {
    vm.(ip := vm.ip + 5, tries := vm.tries + [TryFrame(handler, |vm.stack|, |vm.frames|)])
  }

  lemma SimEnterTry(code: seq<byte>, k: Targets, env: Scope, st: Store, vm: Vm, handler: int32)
    requires InStep(env, st, vm) && Placed(code, vm.ip, Ins(TRY(handler)), k)
    ensures if HandlersFull(vm) then Stops(code, vm, TryOverflow, vm.out + [])
            else Reaches(code, vm, Guarded(vm, handler)) && InStep(env, st, Guarded(vm, handler))
  {
    hide Reaches, Passes, Stops, Encode, Typed, Covers, Agrees;
    JumpSize(handler);
    FetchIns(code, vm.ip, TRY(handler), k);
    assert vm.out + [] == vm.out;
    if HandlersFull(vm) {
      StepStops(code, vm, TryOverflow, vm.out);
    } else {
      var vm1 := Guarded(vm, handler);
      StepPasses(code, vm, vm1);
      AgreesLocals(env, st, vm, vm1, vm, |vm.frames|);
    }
  }

  /** The normal end of a try body: the handler is removed and jumped over. */
  lemma TryNormal(code: seq<byte>, k: Targets, env: Scope, env1: Scope, st: Store, vm: Vm, handler: int32, at: int, end: nat,
                  brk: int, cont: int, o: Outcome, fuel: nat, vm2: Vm) returns (vm': Vm)
    requires InStep(env, st, vm) && Reaches(code, vm, Guarded(vm, handler)) && o.Normal? && o.value.None?
    requires StmtResult(code, Guarded(vm, handler), env, env1, at, brk, cont, o, fuel, vm2)
    requires Placed(code, at, Ins(END_TRY), k) && Placed(code, at + 1, Jump(end), k) && end < 0x8000_0000
    ensures StmtResult(code, vm, env, env1, end, brk, cont, o, fuel, vm')
  {
    hide Reaches, Passes, Encode, Typed, Covers, Agrees, CodeAt, SameBelow;
    var vm1 := Guarded(vm, handler);
    OneByteSizes();
    FetchIns(code, at, END_TRY, k);
    assert vm1.tries[..|vm1.tries| - 1] == vm.tries;
    assert vm.stack + [] == vm.stack;
    var vm3 := vm2.(ip := at + 1, tries := vm.tries);
    StepPasses(code, vm2, vm3);
    vm' := SimJump(code, vm3, Narrow(end));
    ReachesOn(code, vm, vm1, vm2);
    ReachesOn(code, vm, vm2, vm3);
    ReachesOn(code, vm, vm3, vm');
    AgreesLocals(env1, o.store, vm2, vm', vm1, |vm.frames| - 1);
    SameOrigin(vm1, vm, vm', |vm.frames| - 1);
  }

  lemma SameOrigin(a: Vm, b: Vm, c: Vm, n: nat)
    requires a.locals == b.locals && SameBelow(a, c, n)
    ensures SameBelow(b, c, n)
  {}

  /** An exception out of a try body, up to the first statement of the handler: operands and
      frames as at OP_TRY, the error in its own slot. */
  lemma EnterHandler(code: seq<byte>, k: Targets, env: Scope, env1: Scope, x: Name, st: Store, vm: Vm, handler: nat,
                     v: Value, thrown: Store, out: seq<Value>, vm2: Vm) returns (vm3: Vm)
    requires InStep(env, st, vm) && handler < 0x8000_0000 && |vm.stack| < STACK_MAX
    requires Reaches(code, vm, Guarded(vm, handler)) && WfVm(Guarded(vm, handler))
    requires Caught(code, Guarded(vm, handler), v, out, vm2, |vm.frames| - 1) && Agrees(env, thrown, vm2)
    requires Grows(env, env1) && !Known(env1, x) && |env1| < LOCALS_PER_FRAME
    requires st.Keys <= thrown.Keys && Typed(env, thrown) && Clean(v)
    requires Placed(code, handler, StoreIn(|env1|), k)
    ensures InStep(env1 + [Local(x, TAny)], Restrict(thrown, st.Keys)[x := v], vm3) && RoomOf(vm3) == RoomOf(vm)
    ensures Reaches(code, vm, vm3) && Continues(vm, vm3, vm3.ip, [], out, |vm.frames| - 1) && vm3.ip == handler + 2
  {
    hide Reaches, Passes, StoreIn, Typed, Covers, Grows, Agrees, Stops, Clean, Placed, Restrict;
    var vm1 := Guarded(vm, handler);
    assert vm1.tries[..|vm1.tries| - 1] == vm.tries;
    assert vm1.stack[..|vm.stack|] == vm.stack && vm1.frames[..|vm.frames|] == vm.frames;
    vm3 := SimStore(code, k, vm2, |env1|, vm.stack, v);
    PassesReaches(code, vm2, vm3);
    ReachesOn(code, vm, vm1, vm2);
    ReachesOn(code, vm, vm2, vm3);
    assert vm.stack + [] == vm.stack;
    HandlerStore(env, env1, x, st, thrown, v, vm2, vm3);
  }

  lemma HandlerStore(env: Scope, env1: Scope, x: Name, st: Store, thrown: Store, v: Value, vm2: Vm, vm3: Vm)
    requires Grows(env, env1) && !Known(env1, x) && |env1| < LOCALS_PER_FRAME && Covers(env, st)
    requires st.Keys <= thrown.Keys && Typed(env, thrown) && Clean(v) && Agrees(env, thrown, vm2)
    requires |vm2.locals| == LOCALS_MAX && 1 <= |vm2.frames| <= FRAMES_MAX && vm3.frames == vm2.frames
    requires vm3.locals == vm2.locals[FrameStart(|vm2.frames| - 1) + |env1| := v]
    ensures var env2, st1 := env1 + [Local(x, TAny)], Restrict(thrown, st.Keys)[x := v];
      Typed(env2, st1) && Covers(env2, st1) && Agrees(env2, st1, vm3)
  {
    hide Typed, Grows, Clean;
    CaughtStore(env, env1, x, st, thrown, v);
    var kept := Restrict(thrown, st.Keys);
    assert Covers(env, kept) && Agrees(env, kept, vm2);
    AgreesGrows(env, env1, kept, vm2);
    forall y | y in kept
      ensures Known(env1, y)
    {
      GrowsKnown(env, env1, y);
    }
    AgreesStore(env1, kept, x, TAny, v, vm2, vm3);
  }

  /** The end of a handler, where its error variable goes out of scope. */
  lemma HandlerDone(code: seq<byte>, vm: Vm, env2: Scope, env1: Scope, x: Name, end: int, brk: int, cont: int, o: Outcome,
                    fuel: nat, vm': Vm)
    requires |vm.frames| > 0 && StmtResult(code, vm, env2, env2, end, brk, cont, o, fuel, vm')
    requires Grows(env1, env2) && (o.Normal? ==> o.value.None?)
    ensures StmtResult(code, vm, env2, env1, end, brk, cont, Forget(x, o), fuel, vm')
  {
    hide Reaches, Stops, Survives, Caught, SameBelow, Grows;
    if o.Normal? {
      AgreesGrows(env1, env2, o.store, vm');
    }
  }

  lemma ThrewParts(code: seq<byte>, vm: Vm, env: Scope, after: Scope, end: int, brk: int, cont: int, o: Outcome, fuel: nat,
                   vm': Vm)
    requires o.Threw? && |vm.frames| > 0 && StmtResult(code, vm, env, after, end, brk, cont, o, fuel, vm')
    ensures Caught(code, vm, o.v, o.out, vm', |vm.frames| - 1)
    ensures CaughtHere(vm) ==> Agrees(env, o.store, vm')
  {}

  /** Stopping and running on do not depend on handlers. */
  lemma TryLifts(code: seq<byte>, vm: Vm, handler: int32, env: Scope, env1: Scope, at: int, brk: int, cont: int, o: Outcome,
                 fuel: nat, vm2: Vm, end: int)
    requires |vm.frames| > 0 && Reaches(code, vm, Guarded(vm, handler)) && (o.Stopped? || o.Timeout? || o.Unspecified?)
    requires StmtResult(code, Guarded(vm, handler), env, env1, at, brk, cont, o, fuel, vm2)
    ensures StmtResult(code, vm, env, env1, end, brk, cont, o, fuel, vm2)
  {
    hide Reaches, Stops, Survives;
    var vm1 := Guarded(vm, handler);
    match o
    case Stopped(why, out) => ReachesStops(code, vm, vm1, why, vm.out + out);
    case Timeout => ReachesSurvives(code, vm, vm1, fuel);
    case _ =>
  }

  lemma OverflowInHandler(code: seq<byte>, vm: Vm, handler: int32, v: Value, out: seq<Value>, vm2: Vm, kept: nat)
    requires Reaches(code, vm, Guarded(vm, handler)) && |vm.stack| >= STACK_MAX
    requires Caught(code, Guarded(vm, handler), v, out, vm2, kept)
    ensures Stops(code, vm, StackOverflow, vm.out + out)
  {
    hide Reaches, Stops;
    ReachesStops(code, vm, Guarded(vm, handler), StackOverflow, vm.out + out);
  }

  lemma {:induction false} SimTry(code: seq<byte>, p: Program, cx: Context, k: Targets, s: Stmt, env: Scope, base: nat,
                                  cont: int32, st: Store, vm: Vm, fuel: nat) returns (vm': Vm)
    requires s.Try? && StmtGiven(code, p, cx, k, s, env, base, cont, st, vm)
    ensures StmtGoal(code, p, cx, k, s, env, base, cont, st, vm, fuel, vm')
    decreases fuel, s, 3
  {
    hide Encode, Reaches, Stops, Survives, Typed, Covers, Agrees, SameBelow, WfVm, OkFuns, FunsCode, Placed,
      StmtResult, OkStmt, StmtCode, StmtScope, StmtType, BlockScope, BlockCode, HasType, Excusable, Clean, ExecBlock, BlockType,
      BlockCompletes, Grows, Continues, Jump, InStep, Definitely, OkBlock, BlockDefinite, BlockAssigned, Guarded, Caught,
      CaughtHere, AfterTry, Known, StoreIn, Ins, DistinctNames;
    var sg := cx.sg;
    var inTry := cx.(mayBreak := false, mayReturn := false);
    var cb := BlockCode(s.body, env, sg, base + 5, cont);
    var catchAt := base + 5 + Size(cb) + 6;
    var env1 := BlockScope(s.body, env, sg);
    var ch := BlockCode(s.handler, env1 + [Local(s.err, TAny)], sg, catchAt + 2, cont);
    var end := catchAt + 2 + Size(ch);
    TryParts(code, p, cx, k, s, env, base, cont, st, vm, cb, catchAt, env1, ch);
    InStepParts(env, st, vm);
    BlockGrows(s.body, inTry, env);
    SimEnterTry(code, k, env, st, vm, catchAt);
    vm' := vm;
    if HandlersFull(vm) {
      StoppedAlready(code, vm, env, env1, end, k.brk, cont, TryOverflow, fuel);
    } else {
      var vm1 := Guarded(vm, catchAt);
      GuardedParts(vm, catchAt);
      InStepParts(env, st, vm1);
      var vm2 := SimBlock(code, p, inTry, k, s.body, env, base + 5, cont, st, vm1, fuel);
      var o := ExecBlock(p, s.body, st, RoomOf(vm1), fuel);
      SoundBlock(p, s.body, inTry, env, {}, st, RoomOf(vm1), fuel);
      if o.Normal? {
        vm' := TryNormal(code, k, env, env1, st, vm, catchAt, catchAt - 6, end, k.brk, cont, o, fuel, vm2);
        NormalTry(p, s, st, RoomOf(vm), fuel, o);
      } else if o.Threw? {
        ThrewParts(code, vm1, env, env1, catchAt - 6, k.brk, cont, o, fuel, vm2);
        vm' := SimHandler(code, p, cx, k, s, env, base, cont, st, vm, fuel, cb, catchAt, ch, o, vm2);
      } else {
        TryLifts(code, vm, catchAt, env, env1, catchAt - 6, k.brk, cont, o, fuel, vm2, end);
        OtherTry(p, s, st, RoomOf(vm), fuel, o);
        vm' := vm2;
      }
    }
  }

  lemma NormalTry(p: Program, s: Stmt, st: Store, room: Room, fuel: nat, o: Outcome)
    requires s.Try? && o.Normal? && o.value.None?
    ensures AfterTry(p, s, st, room, fuel, o) == o
  {}

  lemma OtherTry(p: Program, s: Stmt, st: Store, room: Room, fuel: nat, o: Outcome)
    requires s.Try? && !o.Normal? && !o.Threw?
    ensures AfterTry(p, s, st, room, fuel, o) == o
  {}

  lemma GuardedParts(vm: Vm, handler: int32)
    ensures var vm1 := Guarded(vm, handler);
      && vm1.ip == vm.ip + 5 && vm1.frames == vm.frames && RoomOf(vm1) == RoomOf(vm).(tries := |vm.tries| + 1)
      && (|vm.stack| < STACK_MAX ==> CaughtHere(vm1))
  {}

  lemma StoppedAlready(code: seq<byte>, vm: Vm, env: Scope, after: Scope, end: int, brk: int, cont: int, why: Halt, fuel: nat)
    requires |vm.frames| > 0 && Stops(code, vm, why, vm.out + [])
    ensures StmtResult(code, vm, env, after, end, brk, cont, Stopped(why, []), fuel, vm)
  {}

  lemma {:induction false} SimHandler(code: seq<byte>, p: Program, cx: Context, k: Targets, s: Stmt, env: Scope, base: nat,
                                      cont: int32, st: Store, vm: Vm, fuel: nat, cb: Code, catchAt: nat, ch: Code, o: Outcome,
                                      vm2: Vm) returns (vm': Vm)
    requires s.Try? && StmtGiven(code, p, cx, k, s, env, base, cont, st, vm)
    requires cb == BlockCode(s.body, env, cx.sg, base + 5, cont) && catchAt == base + 5 + Size(cb) + 6 < 0x8000_0000
    requires ch == BlockCode(s.handler, BlockScope(s.body, env, cx.sg) + [Local(s.err, TAny)], cx.sg, catchAt + 2, cont)
    requires Reaches(code, vm, Guarded(vm, catchAt)) && WfVm(Guarded(vm, catchAt)) && |vm.frames| > 0
    requires o.Threw? && Caught(code, Guarded(vm, catchAt), o.v, o.out, vm2, |vm.frames| - 1)
    requires |vm.stack| < STACK_MAX ==> Agrees(env, o.store, vm2)
    requires st.Keys <= o.store.Keys && Typed(env, o.store) && Clean(o.v)
    ensures StmtResult(code, vm, env, BlockScope(s.body, env, cx.sg), catchAt + 2 + Size(ch), k.brk, cont,
                       AfterTry(p, s, st, RoomOf(vm), fuel, o), fuel, vm')
    decreases fuel, s, 2
  {
    hide Encode, Reaches, Stops, Survives, Typed, Covers, Agrees, SameBelow, WfVm, OkFuns, FunsCode, Placed,
      StmtResult, OkStmt, StmtCode, StmtScope, StmtType, BlockScope, BlockCode, HasType, Excusable, Clean, ExecBlock, BlockType,
      BlockCompletes, Grows, Continues, Jump, InStep, Definitely, OkBlock, BlockDefinite, BlockAssigned, Guarded, Caught,
      CaughtHere, Known, StoreIn, Ins, DistinctNames, Forget, Restrict;
    var sg := cx.sg;
    var env1 := BlockScope(s.body, env, sg);
    var env2 := env1 + [Local(s.err, TAny)];
    TryParts(code, p, cx, k, s, env, base, cont, st, vm, cb, catchAt, env1, ch);
    InStepParts(env, st, vm);
    BlockGrows(s.body, cx.(mayBreak := false, mayReturn := false), env);
    vm' := vm;
    if |vm.stack| >= STACK_MAX {
      OverflowInHandler(code, vm, catchAt, o.v, o.out, vm2, |vm.frames| - 1);
      StoppedLater(code, vm, env, env1, catchAt + 2 + Size(ch), k.brk, cont, StackOverflow, o.out, fuel);
    } else {
      var st1 := Restrict(o.store, st.Keys)[s.err := o.v];
      var vm3 := EnterHandler(code, k, env, env1, s.err, st, vm, catchAt, o.v, o.store, o.out, vm2);
      vm' := SimBlock(code, p, cx, k, s.handler, env2, catchAt + 2, cont, st1, vm3, fuel);
      var oh := ExecBlock(p, s.handler, st1, RoomOf(vm3), fuel);
      InStepParts(env2, st1, vm3);
      SoundBlock(p, s.handler, cx, env2, {}, st1, RoomOf(vm3), fuel);
      GrowsByOne(env1, s.err, TAny);
      GrowsTransitive(env, env1, env2);
      HandlerDone(code, vm3, env2, env1, s.err, catchAt + 2 + Size(ch), k.brk, cont, oh, fuel, vm');
      StmtEarlier(code, vm, vm3, o.out, env, env2, env1, catchAt + 2 + Size(ch), k.brk, cont, Forget(s.err, oh), fuel, vm');
    }
  }

  lemma StoppedLater(code: seq<byte>, vm: Vm, env: Scope, after: Scope, end: int, brk: int, cont: int, why: Halt,
                     out: seq<Value>, fuel: nat)
    requires |vm.frames| > 0 && Stops(code, vm, why, vm.out + out)
    ensures StmtResult(code, vm, env, after, end, brk, cont, After(out, Stopped(why, [])), fuel, vm)
  {
    hide Stops;
    assert out + [] == out;
  }

  // ----- blocks -----

  lemma ThreeParts(code: seq<byte>, base: nat, a: Code, b: Code, c: Code, mid: nat, last: nat, k: Targets)
    requires Placed(code, base, Cat(Cat(a, b), c), k) && mid == base + Size(a) && last == mid + Size(b)
    ensures Placed(code, base, a, k) && Placed(code, mid, b, k) && Placed(code, last, c, k)
    ensures base + Size(Cat(Cat(a, b), c)) == last + Size(c)
  {
    hide CodeAt, Encode;
    PlacedCat(code, base, Cat(a, b), c, k);
    PlacedCat(code, base, a, b, k);
  }

  /** The value that a statement leaves before another one is popped. */
  lemma PopDone(code: seq<byte>, k: Targets, vm: Vm, vm1: Vm, v: Option<Value>, out: seq<Value>, env: Scope, st: Store,
                cp: Code, ip: int) returns (vm2: Vm)
    requires WfVm(vm) && WfVm(vm1) && Reaches(code, vm, vm1) && vm1.ip + Size(cp) == ip
    requires Continues(vm, vm1, vm1.ip, Opt(v), out, |vm.frames| - 1)
    requires Agrees(env, st, vm1) && Typed(env, st) && Covers(env, st) && |env| <= LOCALS_PER_FRAME
    requires cp == (if v.Some? then Ins(POP) else Skip) && Placed(code, vm1.ip, cp, k)
    ensures InStep(env, st, vm2) && RoomOf(vm2) == RoomOf(vm) && vm2.ip == ip
    ensures Reaches(code, vm, vm2) && Continues(vm, vm2, vm2.ip, [], out, |vm.frames| - 1)
  {
    hide Reaches, Passes, Encode, Typed, Covers, Agrees, SameBelow;
    assert vm.stack + [] == vm.stack;
    vm2 := vm1;
    if v.Some? {
      OneByteSizes();
      FetchIns(code, vm1.ip, POP, k);
      assert Drop(vm1, 1).stack == vm.stack;
      vm2 := vm1.(ip := vm1.ip + 1, stack := vm.stack);
      StepPasses(code, vm1, vm2);
      ReachesOn(code, vm, vm1, vm2);
      AgreesLocals(env, st, vm1, vm2, vm, |vm.frames| - 1);
    }
  }

  /** The code of a well-formed block simulates its semantics. Whichever way control comes to the
      end of a statement, the operand stack is as high as it was before it, plus its value if the
      static type of the statement is not void. */
  lemma {:induction false} SimBlock(code: seq<byte>, p: Program, cx: Context, k: Targets, b: Block, env: Scope, base: nat,
                                    cont: int32, st: Store, vm: Vm, fuel: nat) returns (vm': Vm)
    requires Loaded(code, p, cx.sg) && InProgram(k, p) && InStep(env, st, vm)
    requires OkBlock(b, cx, env) && base == vm.ip && Placed(code, base, BlockCode(b, env, cx.sg, base, cont), k)
    ensures StmtResult(code, vm, env, BlockScope(b, env, cx.sg), base + Size(BlockCode(b, env, cx.sg, base, cont)), k.brk, cont,
                       ExecBlock(p, b, st, RoomOf(vm), fuel), fuel, vm')
    decreases fuel, b, 1
  {
    hide Encode, Reaches, Stops, Survives, Typed, Covers, Agrees, SameBelow, WfVm, OkFuns, FunsCode, Placed, InStep, Loaded,
      StmtResult, OkStmt, StmtCode, StmtScope, StmtType, ExecStmt, Grows, Continues, InProgram, RoomOf;
    match b
    case End =>
      vm' := vm;
      InStepParts(env, st, vm);
      SkipDone(code, env, st, vm, env, k.brk, cont, fuel);
    case Then(s, rest) =>
      if rest == End {
        vm' := SimStmt(code, p, cx, k, s, env, base, cont, st, vm, fuel);
      } else {
        vm' := SimThen(code, p, cx, k, s, rest, env, base, cont, st, vm, fuel);
      }
  }

  lemma {:induction false} SimThen(code: seq<byte>, p: Program, cx: Context, k: Targets, s: Stmt, rest: Block, env: Scope,
                                   base: nat, cont: int32, st: Store, vm: Vm, fuel: nat) returns (vm': Vm)
    requires rest != End && Loaded(code, p, cx.sg) && InProgram(k, p) && InStep(env, st, vm)
    requires OkBlock(Then(s, rest), cx, env) && base == vm.ip
    requires Placed(code, base, BlockCode(Then(s, rest), env, cx.sg, base, cont), k)
    ensures StmtResult(code, vm, env, BlockScope(Then(s, rest), env, cx.sg),
                       base + Size(BlockCode(Then(s, rest), env, cx.sg, base, cont)), k.brk, cont,
                       ExecBlock(p, Then(s, rest), st, RoomOf(vm), fuel), fuel, vm')
    decreases fuel, Then(s, rest), 0
  {
    hide Encode, Reaches, Stops, Survives, Typed, Covers, Agrees, SameBelow, WfVm, OkFuns, FunsCode, Placed, InStep, DistinctNames,
      StmtResult, OkStmt, StmtCode, StmtScope, StmtType, ExecStmt, Grows, Continues, InProgram, RoomOf, HasType, Excusable,
      Clean, Completes, Definitely, Definite, Assigned;
    var sg, env1 := cx.sg, StmtScope(s, env, cx.sg);
    var cs, cp := StmtCode(s, env, sg, base, cont), PopCode(s, env, sg);
    var mid, last := base + Size(cs), base + Size(cs) + Size(cp);
    var cr := BlockCode(rest, env1, sg, last, cont);
    ThreeParts(code, base, cs, cp, cr, mid, last, k);
    InStepParts(env, st, vm);
    StmtGrows(s, cx, env);
    vm' := SimStmt(code, p, cx, k, s, env, base, cont, st, vm, fuel);
    SoundStmt(p, s, cx, env, {}, st, RoomOf(vm), fuel);
    var o := ExecStmt(p, s, st, RoomOf(vm), fuel);
    var after := BlockScope(rest, env1, sg);
    if o.Normal? {
      var vm1 := vm';
      NormalParts(code, vm, env, env1, mid, k.brk, cont, o, fuel, vm1);
      var vm2 := PopDone(code, k, vm, vm1, o.value, o.out, env1, o.store, cp, last);
      vm' := SimBlock(code, p, cx, k, rest, env1, last, cont, o.store, vm2, fuel);
      StmtEarlier(code, vm, vm2, o.out, env, env1, after, last + Size(cr), k.brk, cont,
                  ExecBlock(p, rest, o.store, RoomOf(vm2), fuel), fuel, vm');
    } else {
      EscapesAnywhere(code, vm, env, env1, mid, k.brk, cont, o, fuel, vm', after, last + Size(cr));
    }
  }

  lemma NormalParts(code: seq<byte>, vm: Vm, env: Scope, after: Scope, end: int, brk: int, cont: int, o: Outcome, fuel: nat,
                    vm1: Vm)
    requires o.Normal? && |vm.frames| > 0 && StmtResult(code, vm, env, after, end, brk, cont, o, fuel, vm1)
    ensures Reaches(code, vm, vm1) && WfVm(vm1) && vm1.ip == end
    ensures Continues(vm, vm1, vm1.ip, Opt(o.value), o.out, |vm.frames| - 1) && Agrees(after, o.store, vm1)
  {}
}
