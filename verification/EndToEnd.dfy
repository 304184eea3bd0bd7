/** Whole programs: the bytes of the compiler, run by the machine, do what the semantics says. */
module EndToEnd {
  import opened Bytes
  import opened Values
  import opened Machine
  import opened Syntax
  import opened Semantics
  import opened Soundness
  import opened CodeGen
  import opened Runs
  import opened Simulation

  /** The bytes of the program, placed in memory from address 0. */
  lemma ProgramIsLoaded(p: Program)
    requires OkProgram(p) && Fits(p)
    ensures Loaded(ProgramBytes(p), p, AllSignatures(p))
    ensures var at := Size(FunsCode(p, |p|, AllSignatures(p)));
      && Placed(ProgramBytes(p), at, CallTo(MAIN_NAME), ProgramTargets(p))
      && Placed(ProgramBytes(p), at + 5, Ins(HALT), ProgramTargets(p))
  {
    hide FunsCode, Encode, OkFun, BlockDefinite, AllSignatures, Entries, IndexOf, Ins, Placed, Size, Flat, Defines, CodeAt, DistinctNames;
    var code, k, sg := ProgramBytes(p), ProgramTargets(p), AllSignatures(p);
    WholeCode(code);
    FlatIsPlaced(code, 0, ProgramCode(p), k);
    ProgramParts(code, 0, FunsCode(p, |p|, sg), Ins(HALT), k);
  }

  lemma ProgramParts(code: seq<byte>, base: nat, funs: Code, halt: Code, k: Targets)
    requires Placed(code, base, Cat(funs, Cat(CallTo(MAIN_NAME), halt)), k)
    ensures Placed(code, base, funs, k) && Placed(code, base + Size(funs), CallTo(MAIN_NAME), k)
    ensures Placed(code, base + Size(funs) + 5, halt, k)
  {
    hide CodeAt, Encode;
    PlacedCat(code, base, funs, Cat(CallTo(MAIN_NAME), halt), k);
    PlacedCat(code, base + Size(funs), CallTo(MAIN_NAME), halt, k);
  }

  lemma WholeCode(code: seq<byte>)
    ensures CodeAt(code, 0, code)
  {}

  /** Top-level code jumps over the definitions of the first n functions. */
  lemma {:induction false} SkipFunctions(code: seq<byte>, p: Program, n: nat, sg: Signatures, k: Targets, vm: Vm)
    requires n <= |p| && Placed(code, 0, FunsCode(p, n, sg), k) && |code| < 0x8000_0000 && vm.ip == 0
    ensures Reaches(code, vm, vm.(ip := Size(FunsCode(p, n, sg))))
    decreases n
  {
    hide Reaches, Passes, FunCode, Placed, Size, FunsCode;
    if n == 0 {
      NoFunctions(p, sg);
      ReachesSelf(code, vm);
    } else {
      var base := Size(FunsCode(p, n - 1, sg));
      FunctionsParts(code, p, n, sg, k);
      SkipFunctions(code, p, n - 1, sg, k, vm);
      var vm' := SkipFunction(code, p[n - 1], sg, base, k, vm.(ip := base));
      ReachesOn(code, vm, vm.(ip := base), vm');
    }
  }

  lemma NoFunctions(p: Program, sg: Signatures)
    ensures Size(FunsCode(p, 0, sg)) == 0
  {}

  lemma FunctionsParts(code: seq<byte>, p: Program, n: nat, sg: Signatures, k: Targets)
    requires 0 < n <= |p| && Placed(code, 0, FunsCode(p, n, sg), k)
    ensures var base := Size(FunsCode(p, n - 1, sg));
      && Placed(code, 0, FunsCode(p, n - 1, sg), k) && Placed(code, base, FunCode(p[n - 1], sg, base), k)
      && Size(FunsCode(p, n, sg)) == base + Size(FunCode(p[n - 1], sg, base))
  {
    hide FunCode, Placed;
    PlacedCat(code, 0, FunsCode(p, n - 1, sg), FunCode(p[n - 1], sg, Size(FunsCode(p, n - 1, sg))), k);
  }

  lemma SkipFunction(code: seq<byte>, f: Fun, sg: Signatures, base: nat, k: Targets, vm: Vm) returns (vm': Vm)
    requires Placed(code, base, FunCode(f, sg, base), k) && |code| < 0x8000_0000 && vm.ip == base
    ensures Reaches(code, vm, vm') && vm' == vm.(ip := base + Size(FunCode(f, sg, base)))
  {
    hide Reaches, Passes, Encode, BodyCode, StoresCode, CodeAt;
    RetSize();
    PlacedInside(code, base, FunCode(f, sg, base), k);
    var body := BodyCode(f, sg, base + 5);
    var end := base + 5 + 2 * |f.params| + Size(body) + 1;
    assert Size(Cat(StoresCode(|f.params|), Cat(body, Ins(RET)))) == 2 * |f.params| + Size(body) + 1;
    assert base + Size(FunCode(f, sg, base)) == end;
    vm' := SimJump(code, vm, Narrow(end));
  }

  lemma RetSize()
    ensures Size(Ins(RET)) == 1
  {
    OneByteSizes();
  }

  /** From the first byte to the end of main. */
  lemma SimProgram(p: Program, limited: bool, fuel: nat)
    requires OkProgram(p) && Fits(p)
    ensures match RunMain(p, limited, fuel)
      case Ends(why, out) => Stops(ProgramBytes(p), Boot(limited), why, out)
      case Running => Survives(ProgramBytes(p), Boot(limited), fuel)
      case Unknown => false
  {
    hide Reaches, Stops, Survives, FunsCode, Encode, OkFun, AllSignatures, Entries, IndexOf, Invoke, Loaded, ProgramBytes,
      ProgramTargets, Clean, Excusable, Step;
    var code, sg, k := ProgramBytes(p), AllSignatures(p), ProgramTargets(p);
    ProgramIsLoaded(p);
    WellTypedPrograms(p, limited, fuel);
    var vm := Boot(limited).(ip := Size(FunsCode(p, |p|, sg)));
    LoadedParts(code, p, sg);
    SkipFunctions(code, p, |p|, sg, k, Boot(limited));
    ReachesSelf(code, vm);
    NothingMoved(vm);
    MainSignature(p);
    var vm' := SimInvoke(code, p, sg, k, MAIN_NAME, [], vm, vm, [], fuel);
    BeforeNothing(Invoke(p, MAIN_NAME, [], RoomOf(vm), fuel));
    match Invoke(p, MAIN_NAME, [], RoomOf(vm), fuel)
    case Yields(v, out) =>
      HaltStops(code, k, vm', vm.ip + 5);
      ReachesOn(code, Boot(limited), vm, vm');
      ReachesStops(code, Boot(limited), vm', Finished, out);
    case Raised(v, out) => ReachesStops(code, Boot(limited), vm, Uncaught(v), out);
    case Halted(why, out) => ReachesStops(code, Boot(limited), vm, why, out);
    case OutOfFuel => SurvivesFewer(code, Boot(limited), vm, fuel);
    case Unassigned =>
  }

  lemma BeforeNothing(o: ExprOutcome)
    ensures Before([], o) == o
  {}

  lemma SurvivesFewer(code: seq<byte>, a: Vm, b: Vm, fuel: nat)
    requires Reaches(code, a, b) && Survives(code, b, fuel + 1)
    ensures Survives(code, a, fuel)
  {
    hide Reaches, Step;
    RunLess(code, b, fuel + 1, fuel);
    ReachesSurvives(code, a, b, fuel);
  }

  lemma MainSignature(p: Program)
    requires OkProgram(p)
    ensures MAIN_NAME in AllSignatures(p) && AllSignatures(p)[MAIN_NAME].params == []
  {}

  lemma LoadedParts(code: seq<byte>, p: Program, sg: Signatures)
    requires Loaded(code, p, sg)
    ensures |code| < 0x8000_0000 && Placed(code, 0, FunsCode(p, |p|, sg), ProgramTargets(p))
  {}

  lemma HaltStops(code: seq<byte>, k: Targets, vm: Vm, at: int)
    requires vm.ip == at && Placed(code, at, Ins(HALT), k)
    ensures Stops(code, vm, Finished, vm.out)
  {
    hide Stops, Encode;
    FetchIns(code, at, HALT, k);
    StepStops(code, vm, Finished, vm.out);
  }

  // ----- main theorems -----

  /** The program ends with this result and output. */
  ghost predicate ProgramEnds(p: Program, limited: bool, why: Halt, out: seq<Value>) {
    exists fuel: nat :: RunMain(p, limited, fuel) == Ends(why, out)
  }

  ghost predicate Diverges(p: Program, limited: bool) {
    forall fuel: nat :: RunMain(p, limited, fuel).Running?
  }

  /** Semantic preservation: the compiled bytes stop with a result and an output exactly when the program
      does, on the machine with a limit on handlers and on the one without. */
  lemma CompiledCodeIsCorrect(p: Program, limited: bool, why: Halt, out: seq<Value>)
    requires OkProgram(p) && Fits(p)
    ensures Stops(ProgramBytes(p), Boot(limited), why, out) <==> ProgramEnds(p, limited, why, out)
  {
    hide RunMain, ProgramBytes, OkProgram, Step, Run, Boot;
    var code := ProgramBytes(p);
    if Stops(code, Boot(limited), why, out) {
      var n: nat :| Run(code, Boot(limited), n) == Stop(why, out);
      SimProgram(p, limited, n);
      match RunMain(p, limited, n) {
        case Ends(why', out') => StopsOnce(code, Boot(limited), why, out, why', out');
        case Running =>
        case Unknown =>
      }
    }
    if fuel: nat :| RunMain(p, limited, fuel) == Ends(why, out) {
      SimProgram(p, limited, fuel);
    }
  }

  lemma StopsOnce(code: seq<byte>, vm: Vm, why: Halt, out: seq<Value>, why': Halt, out': seq<Value>)
    requires Stops(code, vm, why, out) && Stops(code, vm, why', out')
    ensures why == why' && out == out'
  {
    hide Step, Run;
    var n: nat :| Run(code, vm, n) == Stop(why, out);
    var m: nat :| Run(code, vm, m) == Stop(why', out');
    if n <= m {
      RunStays(code, vm, n, m);
    } else {
      RunStays(code, vm, m, n);
    }
  }

  /** Both sides run forever together. */
  lemma DivergenceIsPreserved(p: Program, limited: bool)
    requires OkProgram(p) && Fits(p)
    ensures (forall n: nat :: Survives(ProgramBytes(p), Boot(limited), n)) <==> Diverges(p, limited)
  {
    hide RunMain, ProgramBytes, OkProgram, Step, Run, Boot;
    var code := ProgramBytes(p);
    if n: nat :| !Survives(code, Boot(limited), n) {
      SimProgram(p, limited, n);
    }
    if fuel: nat :| !RunMain(p, limited, fuel).Running? {
      SimProgram(p, limited, fuel);
      var b := RunMain(p, limited, fuel);
      assert Stops(code, Boot(limited), b.why, b.out);
      var n: nat :| Run(code, Boot(limited), n) == Stop(b.why, b.out);
      assert !Survives(code, Boot(limited), n);
    }
  }

  /** The compiled bytes of a well-formed program stop only by finishing, by an exception that
      is neither void nor a type error, by one of the limits of the machine's stacks, or at the
      one quotient that int64_t cannot hold. No pop underflows, no conditional jump pops a value
      that is not a bool, no slot or opcode is out of range. */
  lemma CompiledCodeIsSafe(p: Program, limited: bool, n: nat)
    requires OkProgram(p) && Fits(p)
    ensures match Run(ProgramBytes(p), Boot(limited), n)
      case Next(_) => true
      case Stop(why, _) =>
        why.Finished? || (why.Uncaught? && Clean(why.v)) || why.StackOverflow? || why.TryOverflow? || why.QuotientOverflow?
  {
    hide RunMain, ProgramBytes, OkProgram, Step, Run, Boot, Clean;
    var r := Run(ProgramBytes(p), Boot(limited), n);
    if r.Stop? {
      assert Stops(ProgramBytes(p), Boot(limited), r.why, r.out);
      CompiledCodeIsCorrect(p, limited, r.why, r.out);
      var fuel: nat :| RunMain(p, limited, fuel) == Ends(r.why, r.out);
      WellTypedPrograms(p, limited, fuel);
    }
  }

  // ----- the machine without checks -----

  ghost predicate VmStops(code: seq<byte>, vm: Vm, why: Halt, out: seq<Value>) {
    exists n: nat :: RunVm(code, vm, n) == Stop(why, out)
  }

  /** No run comes to an OP_TRY with TRY_STACK_MAX handlers open. */
  ghost predicate EnoughHandlers(p: Program) {
    forall fuel: nat :: RunMain(p, true, fuel).Ends? ==> RunMain(p, true, fuel).why != TryOverflow
  }

  lemma TurnIsStep(code: seq<byte>, vm: Vm)
    requires !Step(code, vm).Stop? || (Step(code, vm).why != TryOverflow && Step(code, vm).why != NoFrameLeft)
    ensures Turn(code, vm) == Step(code, vm)
  {
    hide Decode, ExecutePop, Operate, Raise, Cleared;
  }

  /** A checked run that does not stop early is a run of the machine. */
  lemma {:induction false} RunsAgree(code: seq<byte>, vm: Vm, n: nat)
    requires !Run(code, vm, n).Stop? || (Run(code, vm, n).why != TryOverflow && Run(code, vm, n).why != NoFrameLeft)
    ensures RunVm(code, vm, n) == Run(code, vm, n)
    decreases n
  {
    hide Step, Turn;
    if n > 0 {
      TurnIsStep(code, vm);
      if Step(code, vm).Next? {
        RunsAgree(code, Step(code, vm).vm, n - 1);
      }
    }
  }

  /** The same outcome on the machine without a limit on handlers. */
  function Freed(r: StepResult): StepResult {
    match r
    case Next(vm) => Next(vm.(limited := false))
    case Stop(why, out) => r
  }

  lemma RaiseIsFree(vm: Vm, v: Value)
    ensures Raise(vm.(limited := false), v) == Freed(Raise(vm, v))
  {
    hide Cleared;
  }

  lemma OperateIsFree(vm: Vm, op: Operator)
    ensures Operate(vm.(limited := false), op) == Freed(Operate(vm, op))
  {
    hide Unary, Binary, Raise;
    if op == NEG || op == NOT {
      if vm.stack != [] {
        ApplyIsFree(Drop(vm, 1), Unary(op, Top(vm)));
      }
    } else if |vm.stack| >= 2 {
      ApplyIsFree(Drop(vm, 2), Binary(op, vm.stack[|vm.stack| - 2], Top(vm)));
    }
  }

  lemma ApplyIsFree(vm: Vm, r: OpResult)
    ensures Apply(vm.(limited := false), r) == Freed(Apply(vm, r))
  {
    hide Raise;
    if r.Raises? {
      RaiseIsFree(vm, VErr(r.msg));
    }
  }

  lemma PopIsFree(vm: Vm, i: Instr, v: Value)
    ensures ExecutePop(vm.(limited := false), i, v) == Freed(ExecutePop(vm, i, v))
  {
    hide Raise, Truthy;
    RaiseIsFree(vm, v);
  }

  lemma ReturnIsFree(vm: Vm)
    ensures Machine.Return(vm.(limited := false)) == Freed(Machine.Return(vm))
  {
    hide Cleared;
  }

  lemma ExecuteIsFree(vm: Vm, i: Instr)
    requires !(i.TRY? && HandlersFull(vm))
    ensures Execute(vm.(limited := false), i) == Freed(Execute(vm, i))
  {
    hide Operate, Raise, ExecutePop, Machine.Return;
    match i
    case OPER(op) => OperateIsFree(vm, op);
    case CALL(_) => RaiseIsFree(vm, VErr(FrameOverflow));
    case RET => ReturnIsFree(vm);
    case _ =>
      if vm.stack != [] {
        PopIsFree(Drop(vm, 1), i, Top(vm));
      }
  }

  lemma StepIsFree(code: seq<byte>, vm: Vm)
    requires Step(code, vm).Stop? ==> Step(code, vm).why != TryOverflow
    ensures Step(code, vm.(limited := false)) == Freed(Step(code, vm))
  {
    hide Decode, Execute;
    match Decode(code, vm.ip)
    case NoInstr =>
    case Fetched(i, length) =>
      var next := vm.(ip := vm.ip + length);
      FullStops(next, i);
      ExecuteIsFree(next, i);
  }

  lemma FullStops(vm: Vm, i: Instr)
    ensures i.TRY? && HandlersFull(vm) ==> Execute(vm, i) == Stop(TryOverflow, vm.out)
  {
    hide Operate, Raise, ExecutePop, Machine.Return;
  }

  /** Without a seventeenth handler the limit makes no difference. */
  lemma {:induction false} LimitIsUnseen(code: seq<byte>, vm: Vm, n: nat)
    requires Run(code, vm, n).Stop? ==> Run(code, vm, n).why != TryOverflow
    ensures Run(code, vm.(limited := false), n) == Freed(Run(code, vm, n))
    decreases n
  {
    hide Step;
    if n > 0 {
      StepIsFree(code, vm);
      if Step(code, vm).Next? {
        LimitIsUnseen(code, Step(code, vm).vm, n - 1);
      }
    }
  }

  lemma NoEarlyStop(p: Program, n: nat)
    requires OkProgram(p) && Fits(p) && EnoughHandlers(p)
    ensures var r := Run(ProgramBytes(p), Init(), n); !r.Stop? || (r.why != TryOverflow && r.why != NoFrameLeft)
  {
    hide RunMain, ProgramBytes, OkProgram, Step, Run, Boot, Clean;
    CompiledCodeIsSafe(p, true, n);
    var r := Run(ProgramBytes(p), Init(), n);
    if r.Stop? && r.why == TryOverflow {
      assert Stops(ProgramBytes(p), Init(), TryOverflow, r.out);
      CompiledCodeIsCorrect(p, true, TryOverflow, r.out);
    }
  }

  /** With enough handlers vm_run, the checked machine and the machine without a limit go together. */
  lemma AllRunsAgree(p: Program, n: nat)
    requires OkProgram(p) && Fits(p) && EnoughHandlers(p)
    ensures RunVm(ProgramBytes(p), Init(), n) == Run(ProgramBytes(p), Init(), n)
    ensures Run(ProgramBytes(p), Boot(false), n) == Freed(Run(ProgramBytes(p), Init(), n))
  {
    hide RunMain, ProgramBytes, OkProgram, Run, RunVm, EnoughHandlers;
    NoEarlyStop(p, n);
    RunsAgree(ProgramBytes(p), Init(), n);
    LimitIsUnseen(ProgramBytes(p), Init(), n);
  }

  /** With enough handlers the limit changes nothing in what a program means. */
  lemma LimitChangesNothing(p: Program, why: Halt, out: seq<Value>)
    requires OkProgram(p) && Fits(p) && EnoughHandlers(p)
    ensures ProgramEnds(p, true, why, out) <==> ProgramEnds(p, false, why, out)
  {
    hide RunMain, ProgramBytes, OkProgram, Run, RunVm, Boot, EnoughHandlers, ProgramEnds;
    var code := ProgramBytes(p);
    CompiledCodeIsCorrect(p, true, why, out);
    CompiledCodeIsCorrect(p, false, why, out);
    if n: nat :| Run(code, Boot(true), n) == Stop(why, out) {
      AllRunsAgree(p, n);
      assert Run(code, Boot(false), n) == Stop(why, out);
    }
    if n: nat :| Run(code, Boot(false), n) == Stop(why, out) {
      AllRunsAgree(p, n);
      assert Run(code, Boot(true), n) == Stop(why, out);
    }
  }

  /** Semantic preservation for vm_run itself. */
  lemma VmIsCorrect(p: Program, why: Halt, out: seq<Value>)
    requires OkProgram(p) && Fits(p) && EnoughHandlers(p)
    ensures VmStops(ProgramBytes(p), Init(), why, out) <==> exists fuel: nat :: RunProgram(p, fuel) == Ends(why, out)
  {
    hide RunMain, ProgramBytes, OkProgram, Step, Run, RunVm, Boot, EnoughHandlers;
    var code := ProgramBytes(p);
    CompiledCodeIsCorrect(p, false, why, out);
    if n: nat :| RunVm(code, Init(), n) == Stop(why, out) {
      AllRunsAgree(p, n);
      assert Run(code, Boot(false), n) == Stop(why, out);
      var fuel: nat :| RunMain(p, false, fuel) == Ends(why, out);
      assert RunProgram(p, fuel) == Ends(why, out);
    }
    if fuel: nat :| RunProgram(p, fuel) == Ends(why, out) {
      assert RunMain(p, false, fuel) == Ends(why, out);
      var n: nat :| Run(code, Boot(false), n) == Stop(why, out);
      AllRunsAgree(p, n);
      assert RunVm(code, Init(), n) == Stop(why, out);
    }
  }

  ghost predicate GoesOn(code: seq<byte>, vm: Vm) {
    forall n: nat :: RunVm(code, vm, n).Next?
  }

  /** vm_run goes on for ever if and only if the program does. */
  lemma VmDiverges(p: Program)
    requires OkProgram(p) && Fits(p) && EnoughHandlers(p)
    ensures GoesOn(ProgramBytes(p), Init()) <==> Diverges(p, false)
  {
    hide RunMain, ProgramBytes, OkProgram, Run, RunVm, Boot, EnoughHandlers, Diverges;
    var code := ProgramBytes(p);
    DivergenceIsPreserved(p, false);
    if GoesOn(code, Init()) {
      forall n: nat
        ensures Survives(code, Boot(false), n)
      {
        AllRunsAgree(p, n);
        assert RunVm(code, Init(), n).Next?;
      }
    }
    if forall n: nat :: Survives(code, Boot(false), n) {
      forall n: nat
        ensures RunVm(code, Init(), n).Next?
      {
        AllRunsAgree(p, n);
        assert Survives(code, Boot(false), n);
      }
    }
  }

  // ----- at the seventeenth handler -----

  /** The machine is about to enter a try while all handlers are in use. */
  predicate OutOfHandlers(code: seq<byte>, vm: Vm) {
    Decode(code, vm.ip).Fetched? && Decode(code, vm.ip).instr.TRY? && HandlersFull(vm)
  }

  lemma OverflowIsTry(code: seq<byte>, vm: Vm, out: seq<Value>)
    requires Step(code, vm) == Stop(TryOverflow, out)
    ensures OutOfHandlers(code, vm) && vm.out == out
  {
    hide Decode, Operate, Cleared, Truthy;
    var f := Decode(code, vm.ip);
    if f.Fetched? && f.instr.OPER? {
      OperateHalts(vm.(ip := vm.ip + f.length), f.instr.op);
    }
  }

  lemma OperateHalts(vm: Vm, op: Operator)
    ensures Operate(vm, op).Stop? ==> Operate(vm, op).why != TryOverflow
  {
    hide Unary, Binary, Cleared;
  }

  lemma {:induction false} LastState(code: seq<byte>, vm: Vm, n: nat, out: seq<Value>) returns (m: nat, last: Vm)
    requires Run(code, vm, n) == Stop(TryOverflow, out)
    ensures Run(code, vm, m) == Next(last) && Step(code, last) == Stop(TryOverflow, out)
    decreases n
  {
    hide Step;
    if Step(code, vm).Stop? {
      m, last := 0, vm;
    } else {
      m, last := LastState(code, Step(code, vm).vm, n - 1, out);
      m := m + 1;
    }
  }

  /** Where the limited semantics gives up for want of handlers, the machine has come to that try with the
      same output. */
  lemma HandlersRunOut(p: Program, fuel: nat, out: seq<Value>) returns (n: nat, vm: Vm)
    requires OkProgram(p) && Fits(p) && RunMain(p, true, fuel) == Ends(TryOverflow, out)
    ensures RunVm(ProgramBytes(p), Init(), n) == Next(vm) && OutOfHandlers(ProgramBytes(p), vm) && vm.out == out
    ensures Run(ProgramBytes(p), Init(), n) == Next(vm)
  {
    hide RunMain, ProgramBytes, OkProgram, Step, Run, RunVm, Boot, OutOfHandlers;
    SimProgram(p, true, fuel);
    var k: nat :| Run(ProgramBytes(p), Init(), k) == Stop(TryOverflow, out);
    n, vm := LastState(ProgramBytes(p), Init(), k, out);
    RunsAgree(ProgramBytes(p), Init(), n);
    OverflowIsTry(ProgramBytes(p), vm, out);
  }

  /** vm_run goes through the states of the machine without a limit on handlers. */
  ghost predicate GoTogether(code: seq<byte>) {
    forall n: nat :: RunVm(code, Boot(false), n) == Freed(RunVm(code, Init(), n))
  }

  /** At the full handler stack vm_run raises an error and pushes the handler all the same, so that one
      handler is missing. */
  lemma HandlerIsLost(code: seq<byte>, vm: Vm)
    requires OutOfHandlers(code, vm)
    ensures Turn(code, vm.(limited := false)) != Freed(Turn(code, vm))
  {
    hide Decode, Cleared;
    var free := Turn(code, vm.(limited := false));
    assert free.Next? && |free.vm.tries| == |vm.tries| + 1;
    assert Turn(code, vm).Next? ==> |Turn(code, vm).vm.tries| <= |vm.tries|;
  }

  lemma {:induction false} OneMoreTurn(code: seq<byte>, vm: Vm, n: nat, last: Vm)
    requires RunVm(code, vm, n) == Next(last)
    ensures RunVm(code, vm, n + 1) == Turn(code, last)
    decreases n
  {
    hide Turn;
    if n > 0 {
      OneMoreTurn(code, Turn(code, vm).vm, n - 1, last);
    } else {
      assert RunVm(code, vm, 1) == Turn(code, vm);
    }
  }

  /** vm_run stays in step with a machine whose handler stack has no bound if and only if the program
      never opens a seventeenth handler. */
  lemma TogetherIffEnough(p: Program)
    requires OkProgram(p) && Fits(p)
    ensures GoTogether(ProgramBytes(p)) <==> EnoughHandlers(p)
  {
    hide RunMain, ProgramBytes, OkProgram, Turn, Run, RunVm, OutOfHandlers;
    var code := ProgramBytes(p);
    if EnoughHandlers(p) {
      forall n: nat
        ensures RunVm(code, Boot(false), n) == Freed(RunVm(code, Init(), n))
      {
        AllRunsAgree(p, n);
        NoEarlyStop(p, n);
        RunsAgree(code, Boot(false), n);
      }
    } else {
      var fuel: nat :| RunMain(p, true, fuel).Ends? && RunMain(p, true, fuel).why == TryOverflow;
      var n, vm := HandlersRunOut(p, fuel, RunMain(p, true, fuel).out);
      LimitIsUnseen(code, Init(), n);
      RunsAgree(code, Boot(false), n);
      OneMoreTurn(code, Init(), n, vm);
      OneMoreTurn(code, Boot(false), n, vm.(limited := false));
      HandlerIsLost(code, vm);
      assert RunVm(code, Boot(false), n + 1) != Freed(RunVm(code, Init(), n + 1));
    }
  }
}
