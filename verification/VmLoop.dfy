/** The virtual machine as it is written: fixed arrays for operands, slots, frames and handlers,
    updated in place by the loop of vm_run. Every turn does what Machine.Turn says. */
module VmLoop {
  import opened Bytes
  import opened Values
  import opened Machine
  import opened Syntax

  datatype CallFrame = CallFrame(returnAddr: int, localsOffset: nat)

  function ReturnAddresses(fs: seq<CallFrame>): (r: seq<int>)
    ensures |r| == |fs| && forall i :: 0 <= i < |fs| ==> r[i] == fs[i].returnAddr
  {
    seq(|fs|, i requires 0 <= i < |fs| => fs[i].returnAddr)
  }

  /** The number that little-endian bytes stand for without a sign. */
  function Unsigned(bs: seq<byte>): nat {
    if bs == [] then 0 else bs[0] + 256 * Unsigned(bs[1..])
  }

  function Power256(k: nat): nat {
    if k == 0 then 1 else 256 * Power256(k - 1)
  }

  lemma {:induction false} UnsignedAppend(bs: seq<byte>, b: byte)
    ensures Unsigned(bs + [b]) == Unsigned(bs) + Power256(|bs|) * b
    decreases |bs|
  {
    if bs == [] {
      assert [] + [b] == [b] && [b][1..] == [];
    } else {
      assert (bs + [b])[1..] == bs[1..] + [b];
      UnsignedAppend(bs[1..], b);
      assert Power256(|bs|) == 256 * Power256(|bs| - 1);
    }
  }

  /** A number with its top bit set stands for a negative one. */
  lemma {:induction false} SignedUnsigned(bs: seq<byte>)
    requires bs != []
    ensures Power256(|bs|) == 2 * HalfRange(|bs|) && Unsigned(bs) < Power256(|bs|)
    ensures Signed(bs) == if Unsigned(bs) < HalfRange(|bs|) then Unsigned(bs) else Unsigned(bs) - Power256(|bs|)
    decreases |bs|
  {
    if |bs| == 1 {
      assert bs[1..] == [] && Power256(1) == 256 * Power256(0);
    } else {
      SignedUnsigned(bs[1..]);
    }
  }

  lemma NothingCleared(locals: seq<Value>, n: nat)
    ensures Cleared(locals, n, n) == locals
  {
    var c := Cleared(locals, n, n);
    assert |c| == |locals| && forall i :: 0 <= i < |c| ==> c[i] == locals[i];
    assert c == locals;
  }

  lemma FrameIsCleared(before: seq<Value>, after: seq<Value>, n: nat)
    requires |before| == |after|
    requires forall j :: 0 <= j < |before| ==> after[j] == if FrameStart(n) <= j < FrameStart(n) + 48 then VVoid else before[j]
    ensures after == Cleared(before, n, n + 1)
  {
    var c := Cleared(before, n, n + 1);
    assert FrameStart(n + 1) == FrameStart(n) + 48;
    assert |c| == |after| && forall i :: 0 <= i < |c| ==> c[i] == after[i];
    assert c == after;
  }

  class VirtualMachine {
    const code: seq<byte>
    var ip: int
    const stack: array<Value>
    var stackPtr: nat
    const locals: array<Value>
    const frames: array<CallFrame>
    var framePtr: nat
    const tryStack: array<TryFrame>
    var tryPtr: nat
    var printed: seq<Value>

    /** Frame k owns the slots from 48k on. */
    ghost predicate Valid()
      reads this, frames
    {
      && stack.Length == STACK_MAX && stackPtr <= STACK_MAX
      && locals.Length == LOCALS_MAX
      && frames.Length == FRAMES_MAX && framePtr <= FRAMES_MAX
      && tryStack.Length == TRY_STACK_MAX && tryPtr <= TRY_STACK_MAX
      && forall k :: 0 <= k < framePtr ==> frames[k].localsOffset == FrameStart(k)
    }

    ghost function State(): (s: Vm)
      requires Valid()
      reads this, stack, locals, frames, tryStack
      ensures s.ip == ip && s.out == printed && |s.stack| == stackPtr && |s.frames| == framePtr && |s.tries| == tryPtr
      ensures |s.locals| == LOCALS_MAX
    {
      Vm(ip, stack[..stackPtr], locals[..], ReturnAddresses(frames[..framePtr]), tryStack[..tryPtr], printed, true)
    }

    /** A machine that goes on, or one that has stopped. */
    ghost function Outcome(halt: Option<Halt>): StepResult
      requires Valid()
      reads this, stack, locals, frames, tryStack
    {
      if halt.None? then Next(State()) else Stop(halt.value, printed)
    }

    constructor (program: seq<byte>)
      ensures Valid() && State() == Init() && code == program
      ensures fresh(stack) && fresh(locals) && fresh(frames) && fresh(tryStack)
    {
      code, ip, printed := program, 0, [];
      stack := new Value[STACK_MAX](_ => VVoid);
      locals := new Value[LOCALS_MAX](_ => VVoid);
      frames := new CallFrame[FRAMES_MAX](_ => CallFrame(-1, 0));
      tryStack := new TryFrame[TRY_STACK_MAX](_ => TryFrame(0, 0, 0));
      stackPtr, framePtr, tryPtr := 0, 1, 0;
    }

    /** read_int32 and read_int64: k bytes, lowest first, and the sign of the highest. */
    method ReadLittleEndian(k: nat) returns (v: int)
      requires Valid() && k > 0 && 0 <= ip && ip + k <= |code|
      modifies this`ip
      ensures Valid() && ip == old(ip) + k && v == Signed(code[old(ip)..old(ip) + k])
    {
      var scale: int := 1;
      v := 0;
      for i := 0 to k
        invariant ip == old(ip) + i
        invariant v == Unsigned(code[old(ip)..old(ip) + i]) && scale == Power256(i)
      {
        UnsignedAppend(code[old(ip)..ip], code[ip]);
        assert code[old(ip)..ip + 1] == code[old(ip)..ip] + [code[ip]];
        v := v + scale * code[ip];
        scale := 256 * scale;
        ip := ip + 1;
      }
      SignedUnsigned(code[old(ip)..old(ip) + k]);
      if 2 * v >= scale {
        v := v - scale;
      }
    }

    method VmPush(v: Value) returns (halt: Option<Halt>)
      requires Valid()
      modifies this`stackPtr, stack
      ensures Valid() && Outcome(halt) == Push(old(State()), v)
    {
      if stackPtr >= STACK_MAX {
        return Some(StackOverflow);
      }
      stack[stackPtr] := v;
      stackPtr := stackPtr + 1;
      halt := None;
    }

    /** Takes the top of the stack off, or stops when there is none. */
    method VmPop() returns (v: Value, halt: Option<Halt>)
      requires Valid()
      modifies this`stackPtr
      ensures Valid() && Outcome(halt) == (if old(stackPtr) == 0 then Stop(StackUnderflow, old(State()).out) else Next(Drop(old(State()), 1)))
      ensures old(stackPtr) > 0 ==> v == Top(old(State()))
    {
      if stackPtr == 0 {
        return VVoid, Some(StackUnderflow);
      }
      stackPtr := stackPtr - 1;
      v, halt := stack[stackPtr], None;
    }

    /** The slots of one frame are cleared. */
    method ClearFrame(n: nat)
      requires Valid() && n < FRAMES_MAX
      modifies locals
      ensures Valid() && locals[..] == Cleared(old(locals[..]), n, n + 1)
    {
      var offset := FrameStart(n);
      for i := 0 to LOCALS_PER_FRAME
        invariant forall j :: 0 <= j < LOCALS_MAX ==>
          locals[j] == if offset <= j < offset + i then VVoid else old(locals[j])
      {
        locals[offset + i] := VVoid;
      }
      FrameIsCleared(old(locals[..]), locals[..], n);
    }

    method PopValues(n: nat)
      requires Valid()
      modifies this`stackPtr
      ensures Valid() && stackPtr == (if n < old(stackPtr) then n else old(stackPtr))
    {
      while stackPtr > n
        invariant Valid() && stackPtr <= old(stackPtr) && (stackPtr >= n || stackPtr == old(stackPtr))
      {
        stackPtr := stackPtr - 1;
      }
    }

    /** The frames above the first n are popped, the newest first. */
    method PopFrames(n: nat)
      requires Valid()
      modifies this`framePtr, locals
      ensures Valid() && framePtr == (if n < old(framePtr) then n else old(framePtr))
      ensures locals[..] == Cleared(old(locals[..]), framePtr, old(framePtr))
    {
      NothingCleared(locals[..], framePtr);
      while framePtr > n
        invariant Valid() && framePtr <= old(framePtr) && (framePtr >= n || framePtr == old(framePtr))
        invariant locals[..] == Cleared(old(locals[..]), framePtr, old(framePtr))
      {
        framePtr := framePtr - 1;
        ClearFrame(framePtr);
        ClearedMore(old(locals[..]), framePtr, old(framePtr));
      }
    }

    /** The unwinding shared by OP_THROW and runtime_error. */
    method RaiseValue(v: Value) returns (halt: Option<Halt>)
      requires Valid()
      modifies this, stack, locals
      ensures Valid() && Outcome(halt) == Raise(old(State()), v)
    {
      if tryPtr == 0 {
        return Some(Uncaught(v));
      }
      tryPtr := tryPtr - 1;
      var frame := tryStack[tryPtr];
      PopValues(frame.stackPtr);
      PopFrames(frame.framePtr);
      ip := frame.handler;
      assert stack[..stackPtr] == old(stack[..stackPtr])[..stackPtr];
      assert tryStack[..tryPtr] == old(tryStack[..tryPtr])[..tryPtr];
      assert ReturnAddresses(frames[..framePtr]) == ReturnAddresses(old(frames[..framePtr]))[..framePtr];
      Unwound(old(State()), State(), v);
      halt := VmPush(v);
    }

    /** OP_CALL. */
    method Call(addr: int32) returns (halt: Option<Halt>)
      requires Valid()
      modifies this, stack, locals, frames
      ensures Valid() && Outcome(halt) == BeginCall(old(State()), addr)
    {
      if framePtr >= FRAMES_MAX {
        halt := RaiseValue(VErr(FrameOverflow));
      } else {
        frames[framePtr] := CallFrame(ip, LOCALS_PER_FRAME * framePtr);
        framePtr := framePtr + 1;
        ip := addr;
        halt := None;
        assert frames[..framePtr] == old(frames[..framePtr]) + [CallFrame(old(ip), LOCALS_PER_FRAME * old(framePtr))];
      }
    }

    method PopOneFrame() returns (halt: Option<Halt>)
      requires Valid()
      modifies this, locals
      ensures Valid() && Outcome(halt) == PopFrame(old(State()))
    {
      if framePtr == 0 {
        return Some(UndefinedBehaviour);
      }
      framePtr := framePtr - 1;
      var frame := frames[framePtr];
      ClearFrame(framePtr);
      if frame.returnAddr == -1 {
        return Some(Finished);
      }
      ip := frame.returnAddr;
      halt := None;
      assert ReturnAddresses(frames[..framePtr]) == ReturnAddresses(old(frames[..framePtr]))[..framePtr];
    }

    /** A two-operand or one-operand instruction. */
    method OperateOn(op: Operator) returns (halt: Option<Halt>)
      requires Valid()
      modifies this, stack, locals
      ensures Valid() && Outcome(halt) == Operate(old(State()), op)
    {
      hide Unary, Binary, Raise, Push;
      var unary := op == NEG || op == NOT;
      var b, none := VmPop();
      if none.Some? {
        return none;
      }
      var r;
      if unary {
        r := Unary(op, b);
      } else {
        var a, none := VmPop();
        if none.Some? {
          return none;
        }
        DropTwice(old(State()));
        r := Binary(op, a, b);
      }
      match r
      case Gives(v) => halt := VmPush(v);
      case Raises(m) => halt := RaiseValue(VErr(m));
      case Overflows => halt := Some(QuotientOverflow);
      case Undefined => halt := Some(UndefinedBehaviour);
    }

    method PushHandler(h: int32)
      requires Valid() && tryPtr < TRY_STACK_MAX
      modifies this`tryPtr, tryStack
      ensures Valid() && State() == old(State()).(tries := old(State()).tries + [TryFrame(h, stackPtr, framePtr)])
    {
      tryStack[tryPtr] := TryFrame(h, stackPtr, framePtr);
      tryPtr := tryPtr + 1;
    }

    method StoreSlot(slot: byte, v: Value) returns (halt: Option<Halt>)
      requires Valid()
      modifies locals
      ensures Valid() && Outcome(halt) == ExecutePop(old(State()), STORE(slot), v)
    {
      var i := FrameStart(framePtr - 1) + slot;
      if 0 <= i < LOCALS_MAX {
        locals[i] := v;
        halt := None;
      } else {
        halt := Some(UndefinedBehaviour);
      }
    }

    /** The cases that first pop one value. */
    method ExecutePopped(i: Instr, v: Value) returns (halt: Option<Halt>)
      requires Valid()
      modifies this, stack, locals
      ensures Valid() && Outcome(halt) == ExecutePop(old(State()), i, v)
    {
      hide Raise, Push;
      halt := None;
      match i
      case PRINT => printed := printed + [v];
      case STORE(s) => halt := StoreSlot(s, v);
      case JUMP_IF_F(a) =>
        if !v.VBool? {
          halt := Some(UndefinedBehaviour);
        } else if !v.b {
          ip := a;
        }
      case THROW => halt := RaiseValue(v);
      case IS_TRUTHY => halt := VmPush(VBool(Truthy(v)));
      case _ =>
    }

    method LoadSlot(slot: byte) returns (halt: Option<Halt>)
      requires Valid()
      modifies this`stackPtr, stack
      ensures Valid() && Outcome(halt) == Execute(old(State()), LOAD(slot))
    {
      var i := FrameStart(framePtr - 1) + slot;
      if 0 <= i < LOCALS_MAX {
        halt := VmPush(locals[i]);
      } else {
        halt := Some(UndefinedBehaviour);
      }
    }

    /** OP_TRY: runtime_error returns after it has unwound, and the handler is still pushed. */
    method EnterTry(h: int32) returns (halt: Option<Halt>)
      requires Valid()
      modifies this, stack, locals, tryStack
      ensures Valid() && Outcome(halt) == TurnOn(old(State()), TRY(h))
    {
      hide Raise;
      halt := None;
      if tryPtr >= TRY_STACK_MAX {
        halt := RaiseValue(VErr(TooManyTries));
      }
      if halt.None? {
        if old(tryPtr) >= TRY_STACK_MAX {
          RaiseFreesHandler(old(State()), VErr(TooManyTries));
        }
        PushHandler(h);
      }
    }

    /** OP_RET. */
    method LeaveCall() returns (halt: Option<Halt>)
      requires Valid()
      modifies this, stack, locals
      ensures Valid() && Outcome(halt) == TurnOn(old(State()), RET)
    {
      hide Raise, PopFrame;
      halt := None;
      if framePtr <= 1 {
        halt := RaiseValue(VErr(NoFrame));
      }
      if halt.None? {
        halt := PopOneFrame();
      }
    }

    /** The switch of vm_run; ip is already past the operand. */
    method Dispatch(i: Instr) returns (halt: Option<Halt>)
      requires Valid()
      modifies this, stack, locals, frames, tryStack
      ensures Valid() && Outcome(halt) == TurnOn(old(State()), i)
    {
      hide Raise, Push, Operate, BeginCall, ExecutePop, PopFrame, Machine.Return;
      halt := None;
      match i
      case HALT => halt := Some(Finished);
      case PUSH_INT(n) => halt := VmPush(VInt(n));
      case PUSH_BOOL(b) => halt := VmPush(VBool(b));
      case OPER(op) => halt := OperateOn(op);
      case LOAD(s) => halt := LoadSlot(s);
      case JUMP(a) => ip := a;
      case CALL(a) => halt := Call(a);
      case RET => halt := LeaveCall();
      case TRY(h) => halt := EnterTry(h);
      case END_TRY => DropHandler();
      case _ => halt := PopAndExecute(i);
    }

    /** The instructions that start by popping one value. */
    method PopAndExecute(i: Instr) returns (halt: Option<Halt>)
      requires Valid() && (i.PRINT? || i.STORE? || i.JUMP_IF_F? || i.POP? || i.THROW? || i.IS_TRUTHY?)
      modifies this, stack, locals, frames, tryStack
      ensures Valid() && Outcome(halt) == TurnOn(old(State()), i)
    {
      hide Raise, Push, Operate, BeginCall, ExecutePop, PopFrame, Machine.Return;
      var v, none := VmPop();
      if none.Some? {
        return none;
      }
      halt := ExecutePopped(i, v);
    }

    method DropHandler()
      requires Valid()
      modifies this`tryPtr
      ensures Valid() && Outcome(None) == Execute(old(State()), END_TRY)
    {
      if tryPtr > 0 {
        tryPtr := tryPtr - 1;
      }
    }

    /** Opcode and operand at ip. */
    method FetchInstr() returns (i: Option<Instr>)
      requires Valid()
      modifies this`ip
      ensures Valid()
      ensures match Decode(code, old(ip))
        case NoInstr => i.None?
        case Fetched(instr, length) => i == Some(instr) && ip == old(ip) + length
    {
      if !(0 <= ip < |code|) {
        return None;
      }
      var opcode := code[ip];
      var w := Width(opcode);
      if w < 0 || ip + 1 + w > |code| {
        return None;
      }
      ip := ip + 1;
      ghost var operand := code[ip..ip + w];
      if w == 8 {
        Ranges();
        LittleEndianSigned(operand);
        var n := ReadLittleEndian(8);
        i := Some(PUSH_INT(n));
      } else if w == 4 {
        Ranges();
        LittleEndianSigned(operand);
        var a := ReadLittleEndian(4);
        i := Some(if opcode == 22 then JUMP(a) else if opcode == 23 then JUMP_IF_F(a) else if opcode == 24 then CALL(a) else TRY(a));
      } else if w == 1 {
        i := Some(if opcode == 4 then PUSH_BOOL(code[ip] != 0) else if opcode == 20 then STORE(code[ip]) else LOAD(code[ip]));
        ip := ip + 1;
      } else {
        i := Some(WithOperand(opcode, []));
        assert operand == [];
      }
    }

    /** One turn of the loop. */
    method TakeTurn() returns (halt: Option<Halt>)
      requires Valid()
      modifies this, stack, locals, frames, tryStack
      ensures Valid() && Outcome(halt) == Turn(code, old(State()))
    {
      hide Decode, TurnOn;
      ghost var start := State();
      var i := FetchInstr();
      if i.None? {
        halt := Some(UndefinedBehaviour);
      } else {
        assert State() == start.(ip := ip);
        halt := Dispatch(i.value);
      }
    }

    /** At most n turns of the loop of vm_run. */
    method VmRun(n: nat) returns (halt: Option<Halt>)
      requires Valid()
      modifies this, stack, locals, frames, tryStack
      ensures Valid() && Outcome(halt) == RunVm(code, old(State()), n)
    {
      hide Turn;
      halt := None;
      var left := n;
      while left > 0 && halt.None?
        invariant Valid()
        invariant if halt.None? then RunVm(code, State(), left) == RunVm(code, old(State()), n)
                  else Outcome(halt) == RunVm(code, old(State()), n)
      {
        halt := TakeTurn();
        left := left - 1;
      }
    }
  }

  lemma DropTwice(vm: Vm)
    requires |vm.stack| >= 2
    ensures Drop(Drop(vm, 1), 1) == Drop(vm, 2) && Top(Drop(vm, 1)) == vm.stack[|vm.stack| - 2]
  {
    assert vm.stack[..|vm.stack| - 1][..|vm.stack| - 2] == vm.stack[..|vm.stack| - 2];
  }

  lemma RaiseFreesHandler(vm: Vm, v: Value)
    requires vm.tries != [] && Raise(vm, v).Next?
    ensures |Raise(vm, v).vm.tries| == |vm.tries| - 1
  {}

  /** The state after the unwinding loops. */
  lemma Unwound(before: Vm, after: Vm, v: Value)
    requires before.tries != []
    requires var t := before.tries[|before.tries| - 1];
      var n := if t.framePtr < |before.frames| then t.framePtr else |before.frames|;
      after == Vm(t.handler, if t.stackPtr < |before.stack| then before.stack[..t.stackPtr] else before.stack,
                  Cleared(before.locals, n, |before.frames|), before.frames[..n], before.tries[..|before.tries| - 1], before.out, before.limited)
    ensures Raise(before, v) == Push(after, v)
  {}

  lemma ClearedMore(locals: seq<Value>, from: nat, to: nat)
    requires from < to
    ensures Cleared(Cleared(locals, from + 1, to), from, from + 1) == Cleared(locals, from, to)
  {
    var inner := Cleared(locals, from + 1, to);
    var a, b := Cleared(inner, from, from + 1), Cleared(locals, from, to);
    assert FrameStart(from) < FrameStart(from + 1) <= FrameStart(to);
    forall i | 0 <= i < |locals|
      ensures a[i] == b[i]
    {
      assert inner[i] == if FrameStart(from + 1) <= i < FrameStart(to) then VVoid else locals[i];
    }
  }
}
