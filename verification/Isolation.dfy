/** Frame isolation, for any code whose stores stay inside their frame. */
module Isolation {
  import opened Bytes
  import opened Values
  import opened Machine
  import opened Runs

  /** The instruction at ip does not store outside the running frame. */
  predicate StoreFits(code: seq<byte>, vm: Vm) {
    match Decode(code, vm.ip)
    case Fetched(STORE(slot), _) => slot < LOCALS_PER_FRAME
    case _ => true
  }

  predicate RunFits(code: seq<byte>, vm: Vm, n: nat)
    decreases n
  {
    n > 0 ==> StoreFits(code, vm) && (Turn(code, vm).Next? ==> RunFits(code, Turn(code, vm).vm, n - 1))
  }

  /** The live frames fit the slots, and every slot above them is void. */
  ghost predicate Tidy(vm: Vm) {
    && |vm.locals| == LOCALS_MAX && |vm.frames| <= FRAMES_MAX
    && forall i :: FrameStart(|vm.frames|) <= i < LOCALS_MAX ==> vm.locals[i] == VVoid
  }

  lemma InitIsTidy()
    ensures Tidy(Init())
  {}

  /** before has the slots and the frames of vm. */
  lemma RaiseIsTidy(before: Vm, vm: Vm, v: Value, k: nat)
    requires Tidy(before) && vm.locals == before.locals && vm.frames == before.frames && Raise(vm, v).Next?
    ensures Tidy(Raise(vm, v).vm) && |Raise(vm, v).vm.frames| <= |vm.frames|
    ensures k <= |Raise(vm, v).vm.frames| ==> SameBelow(before, Raise(vm, v).vm, k)
  {}

  lemma PopFrameIsTidy(vm: Vm)
    requires Tidy(vm) && PopFrame(vm).Next?
    ensures Tidy(PopFrame(vm).vm) && |PopFrame(vm).vm.frames| == |vm.frames| - 1
    ensures SameBelow(vm, PopFrame(vm).vm, |vm.frames| - 1)
  {}

  lemma StoreIsTidy(vm: Vm, slot: byte, v: Value, vm': Vm)
    requires Tidy(vm) && |vm.frames| > 0 && slot < LOCALS_PER_FRAME
    requires vm'.frames == vm.frames && vm'.locals == vm.locals[SlotIndex(vm, slot) := v]
    ensures Tidy(vm') && SameBelow(vm, vm', |vm.frames| - 1)
  {}

  lemma OperateIsTidy(before: Vm, vm: Vm, op: Operator, k: nat)
    requires Tidy(before) && vm.locals == before.locals && vm.frames == before.frames && Operate(vm, op).Next?
    ensures Tidy(Operate(vm, op).vm)
    ensures k <= |Operate(vm, op).vm.frames| ==> SameBelow(before, Operate(vm, op).vm, k)
  {
    hide Unary, Binary, Raise;
    var unary := op == NEG || op == NOT;
    var popped := Drop(vm, if unary then 1 else 2);
    var r := if unary then Unary(op, Top(vm)) else Binary(op, vm.stack[|vm.stack| - 2], Top(vm));
    assert Operate(vm, op) == Apply(popped, r);
    if r.Raises? {
      RaiseIsTidy(before, popped, VErr(r.msg), k);
    }
  }

  /** One turn keeps the machine tidy and leaves alone every slot below the frames that are live
      after it, but for the running frame. */
  lemma TurnIsTidy(code: seq<byte>, vm: Vm, k: nat)
    requires Tidy(vm) && StoreFits(code, vm) && Turn(code, vm).Next?
    requires k < |vm.frames| && k <= |Turn(code, vm).vm.frames|
    ensures Tidy(Turn(code, vm).vm) && SameBelow(vm, Turn(code, vm).vm, k)
  {
    hide Decode, Operate, Raise, PopFrame;
    var f := Decode(code, vm.ip);
    var next, i := vm.(ip := vm.ip + f.length), f.instr;
    match i
    case OPER(op) => OperateIsTidy(vm, next, op, k);
    case STORE(slot) => StoreIsTidy(next, slot, Top(vm), Turn(code, vm).vm);
    case THROW => RaiseIsTidy(vm, Drop(next, 1), Top(vm), k);
    case CALL(a) =>
      if |vm.frames| >= FRAMES_MAX {
        RaiseIsTidy(vm, next, VErr(FrameOverflow), k);
      }
    case TRY(h) =>
      if HandlersFull(vm) {
        RaiseIsTidy(vm, next, VErr(TooManyTries), k);
      }
    case RET =>
      if |vm.frames| <= 1 {
        RaiseIsTidy(vm, next, VErr(NoFrame), k);
        PopFrameIsTidy(Raise(next, VErr(NoFrame)).vm);
      } else {
        PopFrameIsTidy(next);
      }
    case _ =>
  }

  /** More than k frames are live before each of the n turns, and at least k after the last. */
  predicate StaysAbove(code: seq<byte>, vm: Vm, n: nat, k: nat)
    decreases n
  {
    if n == 0 then |vm.frames| >= k
    else |vm.frames| > k && (Turn(code, vm).Next? ==> StaysAbove(code, Turn(code, vm).vm, n - 1, k))
  }

  /** A call, whatever it calls, throws or catches until its frame is gone, leaves every slot of
      every caller as it was, and every slot above the live frames void. */
  lemma {:induction false} CalleeIsIsolated(code: seq<byte>, vm: Vm, n: nat, k: nat)
    requires Tidy(vm) && RunFits(code, vm, n) && StaysAbove(code, vm, n, k)
    ensures RunVm(code, vm, n).Next? ==> Tidy(RunVm(code, vm, n).vm) && SameBelow(vm, RunVm(code, vm, n).vm, k)
    decreases n
  {
    hide Turn, StoreFits, Tidy;
    if n > 0 && Turn(code, vm).Next? {
      var vm1 := Turn(code, vm).vm;
      AtLeast(code, vm1, n - 1, k);
      TurnIsTidy(code, vm, k);
      CalleeIsIsolated(code, vm1, n - 1, k);
      if RunVm(code, vm1, n - 1).Next? {
        SameBelowOn(vm, vm1, RunVm(code, vm1, n - 1).vm, k, k, k);
      }
    }
  }

  lemma AtLeast(code: seq<byte>, vm: Vm, n: nat, k: nat)
    requires StaysAbove(code, vm, n, k)
    ensures |vm.frames| >= k
  {
    hide Turn;
  }
}
