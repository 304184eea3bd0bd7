/** Exception unwinding, for any code: an error thrown inside a try block, however deep in calls and
    inner try blocks, resumes at the handler with the machine as the try block found it. */
module Unwinding {
  import opened Bytes
  import opened Values
  import opened Machine
  import opened Runs
  import opened Isolation

  /** How many operands an instruction takes off the stack. */
  function Pops(i: Instr): nat {
    match i
    case OPER(op) => if op == NEG || op == NOT then 1 else 2
    case PRINT => 1
    case STORE(_) => 1
    case JUMP_IF_F(_) => 1
    case POP => 1
    case THROW => 1
    case IS_TRUTHY => 1
    case _ => 0
  }

  /** The try block that was entered at machine state at, with handler h, is still open: what was on
      the three stacks is still there, its handler is on top of the old ones, and the handlers above
      it were pushed inside. */
  ghost predicate Holding(at: Vm, h: int32, vm: Vm) {
    var t := |at.tries|;
    && |at.stack| <= |vm.stack| && vm.stack[..|at.stack|] == at.stack
    && |at.frames| <= |vm.frames| && vm.frames[..|at.frames|] == at.frames
    && t < |vm.tries| && vm.tries[..t] == at.tries && vm.tries[t] == TryFrame(h, |at.stack|, |at.frames|)
    && forall j | t <= j < |vm.tries| :: vm.tries[j].stackPtr >= |at.stack| && vm.tries[j].framePtr >= |at.frames|
  }

  /** The turn at vm takes nothing off the stacks that was there at the try block, leaves by no return,
      and its handler is still there afterwards. */
  predicate Inside(code: seq<byte>, at: Vm, vm: Vm) {
    match Decode(code, vm.ip)
    case NoInstr => false
    case Fetched(i, _) =>
      && Turn(code, vm).Next? && |Turn(code, vm).vm.tries| > |at.tries|
      && |vm.stack| >= |at.stack| + Pops(i)
      && (i.RET? ==> |vm.frames| > |at.frames|)
      && (i.TRY? ==> !HandlersFull(vm))
  }

  /** vm has the stacks of before but for operands above those of the try block. */
  lemma RaiseHolds(at: Vm, h: int32, before: Vm, vm: Vm, v: Value)
    requires Holding(at, h, before) && vm.tries == before.tries && vm.frames == before.frames
    requires |at.stack| <= |vm.stack| <= |before.stack| && vm.stack == before.stack[..|vm.stack|]
    requires Raise(vm, v).Next? && |Raise(vm, v).vm.tries| > |at.tries|
    ensures Holding(at, h, Raise(vm, v).vm)
  {
    var t := vm.tries[|vm.tries| - 1];
    var r := Raise(vm, v).vm;
    assert r.stack[..|at.stack|] == at.stack;
    assert r.frames[..|at.frames|] == at.frames;
    assert r.tries[..|at.tries|] == at.tries;
  }

  lemma OperateHolds(at: Vm, h: int32, vm: Vm, op: Operator)
    requires Holding(at, h, vm) && |vm.stack| >= |at.stack| + Pops(OPER(op))
    requires Operate(vm, op).Next? && |Operate(vm, op).vm.tries| > |at.tries|
    ensures Holding(at, h, Operate(vm, op).vm)
  {
    hide Unary, Binary, Raise;
    var popped := Drop(vm, Pops(OPER(op)));
    var r := if op == NEG || op == NOT then Unary(op, Top(vm)) else Binary(op, vm.stack[|vm.stack| - 2], Top(vm));
    assert Operate(vm, op) == Apply(popped, r);
    if r.Raises? {
      RaiseHolds(at, h, vm, popped, VErr(r.msg));
    } else {
      assert Push(popped, r.v).vm.stack[..|at.stack|] == vm.stack[..|at.stack|];
    }
  }

  lemma PopHolds(at: Vm, h: int32, vm: Vm, i: Instr)
    requires Holding(at, h, vm) && |vm.stack| > |at.stack| && Pops(i) == 1 && !i.OPER?
    requires ExecutePop(Drop(vm, 1), i, Top(vm)).Next? && |ExecutePop(Drop(vm, 1), i, Top(vm)).vm.tries| > |at.tries|
    ensures Holding(at, h, ExecutePop(Drop(vm, 1), i, Top(vm)).vm)
  {
    hide Raise;
    var popped := Drop(vm, 1);
    if i.THROW? {
      RaiseHolds(at, h, vm, popped, Top(vm));
    } else {
      assert popped.stack[..|at.stack|] == at.stack;
      assert (popped.stack + [VBool(Truthy(Top(vm)))])[..|at.stack|] == at.stack;
    }
  }

  lemma PopFrameHolds(at: Vm, h: int32, vm: Vm)
    requires Holding(at, h, vm) && |vm.frames| > |at.frames| && PopFrame(vm).Next?
    ensures Holding(at, h, PopFrame(vm).vm)
  {
    assert vm.frames[..|vm.frames| - 1][..|at.frames|] == vm.frames[..|at.frames|];
  }

  lemma GrowHolds(at: Vm, h: int32, vm: Vm, next: Vm, inner: int32)
    requires Holding(at, h, vm)
    requires |vm.stack| <= |next.stack| && next.stack[..|vm.stack|] == vm.stack
    requires |vm.frames| <= |next.frames| && next.frames[..|vm.frames|] == vm.frames
    requires next.tries == vm.tries || next.tries == vm.tries + [TryFrame(inner, |vm.stack|, |vm.frames|)]
    ensures Holding(at, h, next)
  {
    assert next.stack[..|at.stack|] == vm.stack[..|at.stack|];
    assert next.frames[..|at.frames|] == vm.frames[..|at.frames|];
  }

  /** A turn inside the block keeps it open. */
  lemma TurnHolds(code: seq<byte>, at: Vm, h: int32, vm: Vm)
    requires Holding(at, h, vm) && Inside(code, at, vm) && at.frames != []
    ensures Holding(at, h, Turn(code, vm).vm)
  {
    hide Decode, Operate, Raise, PopFrame, Holding, ExecutePop;
    HoldingParts(at, h, vm);
    var f := Decode(code, vm.ip);
    var next := vm.(ip := vm.ip + f.length);
    HoldingElsewhere(at, h, vm, next);
    match f.instr
    case OPER(op) => OperateHolds(at, h, next, op);
    case PUSH_INT(n) => GrowHolds(at, h, next, Push(next, VInt(n)).vm, 0);
    case PUSH_BOOL(b) => GrowHolds(at, h, next, Push(next, VBool(b)).vm, 0);
    case LOAD(s) => GrowHolds(at, h, next, Push(next, next.locals[SlotIndex(next, s)]).vm, 0);
    case JUMP(a) => HoldingElsewhere(at, h, next, next.(ip := a));
    case CALL(a) =>
      if |next.frames| >= FRAMES_MAX {
        RaiseHolds(at, h, next, next, VErr(FrameOverflow));
      } else {
        GrowHolds(at, h, next, BeginCall(next, a).vm, 0);
      }
    case RET => PopFrameHolds(at, h, next);
    case TRY(a) => GrowHolds(at, h, next, next.(tries := next.tries + [TryFrame(a, |next.stack|, |next.frames|)]), a);
    case END_TRY => EndHolds(at, h, next);
    case HALT =>
    case _ => PopHolds(at, h, next, f.instr);
  }

  lemma HoldingParts(at: Vm, h: int32, vm: Vm)
    requires Holding(at, h, vm)
    ensures |at.tries| < |vm.tries| && |at.frames| <= |vm.frames| && |at.stack| <= |vm.stack|
  {}

  lemma HoldingElsewhere(at: Vm, h: int32, vm: Vm, next: Vm)
    requires Holding(at, h, vm) && next.stack == vm.stack && next.frames == vm.frames && next.tries == vm.tries
    ensures Holding(at, h, next)
  {}

  lemma EndHolds(at: Vm, h: int32, vm: Vm)
    requires Holding(at, h, vm) && |vm.tries| > |at.tries| + 1
    ensures Holding(at, h, vm.(tries := vm.tries[..|vm.tries| - 1]))
  {
    assert vm.tries[..|vm.tries| - 1][..|at.tries|] == vm.tries[..|at.tries|];
  }

  /** n turns inside the block. */
  predicate StaysInside(code: seq<byte>, at: Vm, vm: Vm, n: nat)
    decreases n
  {
    n > 0 ==> Inside(code, at, vm) && StaysInside(code, at, Turn(code, vm).vm, n - 1)
  }

  lemma {:induction false} RunHolds(code: seq<byte>, at: Vm, h: int32, vm: Vm, n: nat)
    requires Holding(at, h, vm) && StaysInside(code, at, vm, n) && at.frames != []
    ensures RunVm(code, vm, n).Next? && Holding(at, h, RunVm(code, vm, n).vm)
    decreases n
  {
    hide Turn, Holding;
    if n > 0 {
      TurnHolds(code, at, h, vm);
      RunHolds(code, at, h, Turn(code, vm).vm, n - 1);
    }
  }

  lemma TryEnters(code: seq<byte>, at: Vm, h: int32, length: nat)
    requires Decode(code, at.ip) == Fetched(TRY(h), length) && !HandlersFull(at)
    ensures Turn(code, at).Next? && Holding(at, h, Turn(code, at).vm)
    ensures Turn(code, at).vm.locals == at.locals && Turn(code, at).vm.frames == at.frames
  {}

  lemma ThrowLands(code: seq<byte>, at: Vm, h: int32, vm: Vm, length: nat)
    requires Holding(at, h, vm) && Decode(code, vm.ip) == Fetched(THROW, length)
    requires |vm.tries| == |at.tries| + 1 && |vm.stack| > |at.stack| && |at.stack| < STACK_MAX
    ensures var r := Turn(code, vm);
            r.Next? && r.vm == Vm(h, at.stack + [Top(vm)], Cleared(vm.locals, |at.frames|, |vm.frames|), at.frames, at.tries, vm.out, vm.limited)
  {
    assert vm.tries[|vm.tries| - 1] == TryFrame(h, |at.stack|, |at.frames|);
    assert vm.stack[..|vm.stack| - 1][..|at.stack|] == vm.stack[..|at.stack|];
  }

  /** From a TRY, through any turns that stay inside its block, to a THROW that finds its handler
      innermost: the machine goes on at the handler, with the operand stack of the TRY and the error on
      top, the frames and handlers of the TRY, every slot of the callers as it was, and every slot
      above the live frames void. */
  lemma ThrowRestoresTry(code: seq<byte>, at: Vm, h: int32, length: nat, n: nat, vm: Vm, length': nat)
    requires Decode(code, at.ip) == Fetched(TRY(h), length) && !HandlersFull(at) && |at.stack| < STACK_MAX
    requires Tidy(at) && at.frames != [] && Turn(code, at).Next?
    requires StaysInside(code, at, Turn(code, at).vm, n) && RunFits(code, Turn(code, at).vm, n)
    requires RunVm(code, Turn(code, at).vm, n) == Next(vm)
    requires Decode(code, vm.ip) == Fetched(THROW, length') && |vm.tries| == |at.tries| + 1 && |vm.stack| > |at.stack|
    ensures var r := Turn(code, vm);
            && r.Next? && r.vm.ip == h && r.vm.stack == at.stack + [Top(vm)]
            && r.vm.frames == at.frames && r.vm.tries == at.tries && r.vm.out == vm.out
            && SameBelow(at, r.vm, |at.frames| - 1) && Tidy(r.vm)
  {
    TryEnters(code, at, h, length);
    var vm1 := Turn(code, at).vm;
    assert Tidy(vm1);
    RunHolds(code, at, h, vm1, n);
    InsideIsAbove(code, at, h, vm1, n);
    CalleeIsIsolated(code, vm1, n, |at.frames| - 1);
    ThrowLands(code, at, h, vm, length');
    assert StoreFits(code, vm);
    TurnIsTidy(code, vm, |at.frames| - 1);
  }

  /** Inside the block the frames of the TRY stay live. */
  lemma {:induction false} InsideIsAbove(code: seq<byte>, at: Vm, h: int32, vm: Vm, n: nat)
    requires Holding(at, h, vm) && StaysInside(code, at, vm, n) && at.frames != []
    ensures StaysAbove(code, vm, n, |at.frames| - 1)
    decreases n
  {
    hide Turn, Holding;
    HoldingParts(at, h, vm);
    if n > 0 {
      TurnHolds(code, at, h, vm);
      InsideIsAbove(code, at, h, Turn(code, vm).vm, n - 1);
    }
  }
}
