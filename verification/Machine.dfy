/** The instruction set, its byte encoding, and one turn of the loop of vm_run. */
module Machine {
  import opened Bytes
  import opened Values

  const STACK_MAX: nat := 256
  const LOCALS_PER_FRAME: nat := 48
  const FRAMES_MAX: nat := 64
  const LOCALS_MAX: nat := 3072
  const TRY_STACK_MAX: nat := 16

  datatype Instr =
    | HALT
    | PUSH_INT(n: int64)
    | PUSH_BOOL(b: bool)
    | OPER(op: Operator)
    | PRINT
    | STORE(slot: byte)
    | LOAD(slot: byte)
    | JUMP(addr: int32)
    | JUMP_IF_F(addr: int32)
    | CALL(addr: int32)
    | RET
    | POP
    | TRY(addr: int32)
    | END_TRY
    | THROW
    | IS_TRUTHY

  // ----- byte encoding -----

  function OperatorByte(op: Operator): byte {
    match op
    case ADD => 5 case SUB => 6 case NEG => 7 case MUL => 8 case DIV => 9 case MOD => 10
    case EQ => 11 case LT => 12 case GT => 13 case LTE => 14 case GTE => 15
    case AND => 16 case OR => 17 case NOT => 18
  }

  function ByteOperator(b: byte): Operator
    requires 5 <= b <= 18
  {
    if b == 5 then ADD else if b == 6 then SUB else if b == 7 then NEG
    else if b == 8 then MUL else if b == 9 then DIV else if b == 10 then MOD
    else if b == 11 then EQ else if b == 12 then LT else if b == 13 then GT
    else if b == 14 then LTE else if b == 15 then GTE else if b == 16 then AND
    else if b == 17 then OR else NOT
  }

  /** The first byte of an instruction: its position in the OpCode enumeration. */
  function Opcode(i: Instr): byte {
    match i
    case HALT => 0
    case PUSH_INT(_) => 1
    case PUSH_BOOL(_) => 4
    case OPER(op) => OperatorByte(op)
    case PRINT => 19
    case STORE(_) => 20
    case LOAD(_) => 21
    case JUMP(_) => 22
    case JUMP_IF_F(_) => 23
    case CALL(_) => 24
    case RET => 26
    case POP => 37
    case TRY(_) => 40
    case END_TRY => 41
    case THROW => 42
    case IS_TRUTHY => 47
  }

  /** The operand bytes that the emitter appends after the opcode. */
  function Operand(i: Instr): seq<byte> {
    match i
    case PUSH_INT(n) => Le64(n)
    case PUSH_BOOL(b) => [if b then 1 else 0]
    case STORE(s) => [s]
    case LOAD(s) => [s]
    case JUMP(a) => Le32(a)
    case JUMP_IF_F(a) => Le32(a)
    case CALL(a) => Le32(a)
    case TRY(a) => Le32(a)
    case _ => []
  }

  function Encode(i: Instr): (bs: seq<byte>)
    ensures |bs| > 0 && bs[0] == Opcode(i)
  {
    [Opcode(i)] + Operand(i)
  }

  /** The operand width that vm_run reads after each opcode; None for a byte that is not
      an opcode of the modelled fragment. */
  function Width(opcode: byte): int {
    if opcode == 1 then 8
    else if opcode == 4 || opcode == 20 || opcode == 21 then 1
    else if opcode == 22 || opcode == 23 || opcode == 24 || opcode == 40 then 4
    else if opcode == 0 || 5 <= opcode <= 19 || opcode == 26 || opcode == 37
         || opcode == 41 || opcode == 42 || opcode == 47 then 0
    else -1
  }

  datatype Fetch = NoInstr | Fetched(instr: Instr, length: nat)

  function WithOperand(opcode: byte, bytes: seq<byte>): Instr
    requires Width(opcode) == |bytes|
  {
    if opcode == 0 then HALT
    else if opcode == 1 then PUSH_INT(ReadInt64(bytes))
    else if opcode == 4 then PUSH_BOOL(bytes[0] != 0)
    else if opcode <= 18 then OPER(ByteOperator(opcode))
    else if opcode == 19 then PRINT
    else if opcode == 20 then STORE(bytes[0])
    else if opcode == 21 then LOAD(bytes[0])
    else if opcode == 22 then JUMP(ReadInt32(bytes))
    else if opcode == 23 then JUMP_IF_F(ReadInt32(bytes))
    else if opcode == 24 then CALL(ReadInt32(bytes))
    else if opcode == 26 then RET
    else if opcode == 37 then POP
    else if opcode == 40 then TRY(ReadInt32(bytes))
    else if opcode == 41 then END_TRY
    else if opcode == 42 then THROW
    else IS_TRUTHY
  }

  /** What vm_run reads at ip: the opcode and then an operand of the width of its case. */
  function Decode(code: seq<byte>, ip: int): Fetch {
    if !(0 <= ip < |code|) then NoInstr
    else
      var w := Width(code[ip]);
      if w < 0 || ip + 1 + w > |code| then NoInstr
      else Fetched(WithOperand(code[ip], code[ip + 1..ip + 1 + w]), 1 + w)
  }

  /** The bytes c sit at position pc of the code. */
  predicate CodeAt(code: seq<byte>, pc: int, c: seq<byte>) {
    0 <= pc && pc + |c| <= |code| && code[pc..pc + |c|] == c
  }

  lemma CodeAtParts(code: seq<byte>, pc: int, a: seq<byte>, b: seq<byte>)
    requires CodeAt(code, pc, a + b)
    ensures CodeAt(code, pc, a) && CodeAt(code, pc + |a|, b)
  {
    assert (a + b)[..|a|] == a && (a + b)[|a|..] == b;
    assert code[pc..pc + |a|] == code[pc..pc + |a + b|][..|a|];
    assert code[pc + |a|..pc + |a| + |b|] == code[pc..pc + |a + b|][|a|..];
  }

  /** Decoding the emitter's bytes gives the instruction back, at any place in the code. */
  lemma DecodeEncode(code: seq<byte>, pc: int, i: Instr)
    requires CodeAt(code, pc, Encode(i))
    ensures Decode(code, pc) == Fetched(i, |Encode(i)|)
  {
    CodeAtParts(code, pc, [Opcode(i)], Operand(i));
    assert code[pc] == code[pc..pc + 1][0] == Opcode(i);
    assert Width(Opcode(i)) == |Operand(i)|;
    match i
    case PUSH_INT(n) => ReadBack64(n);
    case JUMP(a) => ReadBack32(a);
    case JUMP_IF_F(a) => ReadBack32(a);
    case CALL(a) => ReadBack32(a);
    case TRY(a) => ReadBack32(a);
    case OPER(op) => assert ByteOperator(OperatorByte(op)) == op;
    case _ =>
  }

  predicate HasTarget(i: Instr) {
    i.JUMP? || i.JUMP_IF_F? || i.CALL? || i.TRY?
  }

  function Retarget(i: Instr, v: int32): Instr
    requires HasTarget(i)
  {
    match i
    case JUMP(_) => JUMP(v)
    case JUMP_IF_F(_) => JUMP_IF_F(v)
    case CALL(_) => CALL(v)
    case _ => TRY(v)
  }

  lemma PatchInstr(code: seq<byte>, patched: seq<byte>, at: nat, before: seq<byte>, i: Instr,
                   after: seq<byte>, v: int32)
    requires HasTarget(i) && at == |before| + 1
    requires code == before + Encode(i) + after && patched == before + Encode(Retarget(i, v)) + after
    ensures at + 4 <= |code| && Patch(code, at, v) == patched
  {
    assert Encode(Retarget(i, v)) == [Opcode(i)] + Le32(v);
    PatchAfterByte(code, patched, at, before, Opcode(i), Operand(i), after, v);
  }

  lemma PatchAfterByte(code: seq<byte>, patched: seq<byte>, at: nat, before: seq<byte>, op: byte,
                       operand: seq<byte>, after: seq<byte>, v: int32)
    requires |operand| == 4 && at == |before| + 1
    requires code == before + ([op] + operand) + after && patched == before + ([op] + Le32(v)) + after
    ensures at + 4 <= |code| && Patch(code, at, v) == patched
  {
    assert code == (before + [op]) + operand + after;
    PatchMiddle(before + [op], operand, after, v);
    assert patched == (before + [op]) + Le32(v) + after;
  }

  // ----- the machine -----

  datatype TryFrame = TryFrame(handler: int32, stackPtr: nat, framePtr: nat)

  /** The first slot of frame n: frames are LOCALS_PER_FRAME slots apart. */
  function FrameStart(n: int): int {
    48 * n
  }

  /** The fields of struct VM that this fragment uses. Frame k owns the slots from
      48k on; frames[k] is its return address. limited is no field of the source: the limited
      machine is vm_run, the other one has a handler stack without a bound. */
  datatype Vm = Vm(
    ip: int,
    stack: seq<Value>,
    locals: seq<Value>,
    frames: seq<int>,
    tries: seq<TryFrame>,
    out: seq<Value>,
    limited: bool)

  /** Why a run stops: vm_run returns, a value is thrown with no handler, or the process exits
      because the operand stack is full or empty; the quotient of INT64_MIN and -1 and
      UndefinedBehaviour are C code without defined behaviour. NoFrameLeft and TryOverflow only
      mark the two places where a checked run stops before the machine does (see Turn). */
  datatype Halt =
    | Finished
    | Uncaught(v: Value)
    | StackOverflow
    | StackUnderflow
    | NoFrameLeft
    | TryOverflow
    | QuotientOverflow
    | UndefinedBehaviour

  datatype StepResult = Next(vm: Vm) | Stop(why: Halt, out: seq<Value>)

  function Init(): Vm {
    Boot(true)
  }

  function Boot(limited: bool): Vm {
    Vm(0, [], seq(LOCALS_MAX, _ => VVoid), [-1], [], [], limited)
  }

  /** All handlers are in use. */
  predicate HandlersFull(vm: Vm) {
    vm.limited && |vm.tries| >= TRY_STACK_MAX
  }

  function Push(vm: Vm, v: Value): StepResult {
    if |vm.stack| >= STACK_MAX then Stop(StackOverflow, vm.out)
    else Next(vm.(stack := vm.stack + [v]))
  }

  function Top(vm: Vm): Value
    requires vm.stack != []
  {
    vm.stack[|vm.stack| - 1]
  }

  function Drop(vm: Vm, n: nat): Vm
    requires n <= |vm.stack|
  {
    vm.(stack := vm.stack[..|vm.stack| - n])
  }

  /** Release the slots from one frame boundary to another, as OP_RET and the unwinding loops do. */
  function Cleared(locals: seq<Value>, from: nat, to: nat): (r: seq<Value>)
    ensures |r| == |locals|
  {
    seq(|locals|, i requires 0 <= i < |locals| =>
      if FrameStart(from) <= i < FrameStart(to) then VVoid else locals[i])
  }

  /** Unwinding to the innermost handler, shared by OP_THROW and runtime_error. */
  function Raise(vm: Vm, v: Value): StepResult {
    if vm.tries == [] then Stop(Uncaught(v), vm.out)
    else
      var t := vm.tries[|vm.tries| - 1];
      var stack := if t.stackPtr < |vm.stack| then vm.stack[..t.stackPtr] else vm.stack;
      var frames := if t.framePtr < |vm.frames| then vm.frames[..t.framePtr] else vm.frames;
      Push(Vm(t.handler, stack, Cleared(vm.locals, |frames|, |vm.frames|), frames,
              vm.tries[..|vm.tries| - 1], vm.out, vm.limited), v)
  }

  /** begin_call for a direct call. */
  function BeginCall(vm: Vm, addr: int32): StepResult {
    if |vm.frames| >= FRAMES_MAX then Raise(vm, VErr(FrameOverflow))
    else Next(vm.(ip := addr, frames := vm.frames + [vm.ip]))
  }

  /** The frame pop of OP_RET: the slots of the frame are cleared. */
  function PopFrame(vm: Vm): StepResult {
    if vm.frames == [] then Stop(UndefinedBehaviour, vm.out)
    else
      var n := |vm.frames| - 1;
      var cleared := vm.(locals := Cleared(vm.locals, n, n + 1), frames := vm.frames[..n]);
      if vm.frames[n] == -1 then Stop(Finished, vm.out)
      else Next(cleared.(ip := vm.frames[n]))
  }

  function Return(vm: Vm): StepResult {
    if |vm.frames| <= 1 then Stop(NoFrameLeft, vm.out) else PopFrame(vm)
  }

  function Apply(vm: Vm, r: OpResult): StepResult {
    match r
    case Gives(v) => Push(vm, v)
    case Raises(m) => Raise(vm, VErr(m))
    case Overflows => Stop(QuotientOverflow, vm.out)
    case Undefined => Stop(UndefinedBehaviour, vm.out)
  }

  function Operate(vm: Vm, op: Operator): StepResult {
    if op == NEG || op == NOT then
      if |vm.stack| < 1 then Stop(StackUnderflow, vm.out)
      else Apply(Drop(vm, 1), Unary(op, Top(vm)))
    else
      if |vm.stack| < 2 then Stop(StackUnderflow, vm.out)
      else Apply(Drop(vm, 2), Binary(op, vm.stack[|vm.stack| - 2], Top(vm)))
  }

  /** The slot of the running frame that an operand byte names. */
  function SlotIndex(vm: Vm, slot: byte): int {
    FrameStart(|vm.frames| - 1) + slot
  }

  /** One case of the switch; ip is already past the operand. */
  function Execute(vm: Vm, i: Instr): StepResult {
    match i
    case HALT => Stop(Finished, vm.out)
    case PUSH_INT(n) => Push(vm, VInt(n))
    case PUSH_BOOL(b) => Push(vm, VBool(b))
    case OPER(op) => Operate(vm, op)
    case LOAD(s) =>
      if 0 <= SlotIndex(vm, s) < |vm.locals| then Push(vm, vm.locals[SlotIndex(vm, s)])
      else Stop(UndefinedBehaviour, vm.out)
    case JUMP(a) => Next(vm.(ip := a))
    case CALL(a) => BeginCall(vm, a)
    case RET => Return(vm)
    case TRY(h) =>
      if HandlersFull(vm) then Stop(TryOverflow, vm.out)
      else Next(vm.(tries := vm.tries + [TryFrame(h, |vm.stack|, |vm.frames|)]))
    case END_TRY =>
      Next(if vm.tries == [] then vm else vm.(tries := vm.tries[..|vm.tries| - 1]))
    case _ =>
      if vm.stack == [] then Stop(StackUnderflow, vm.out)
      else ExecutePop(Drop(vm, 1), i, Top(vm))
  }

  /** The cases that first pop one value v. */
  function ExecutePop(vm: Vm, i: Instr, v: Value): StepResult {
    match i
    case PRINT => Next(vm.(out := vm.out + [v]))
    case STORE(s) =>
      if 0 <= SlotIndex(vm, s) < |vm.locals|
      then Next(vm.(locals := vm.locals[SlotIndex(vm, s) := v]))
      else Stop(UndefinedBehaviour, vm.out)
    case JUMP_IF_F(a) =>
      if !v.VBool? then Stop(UndefinedBehaviour, vm.out)
      else Next(if v.b then vm else vm.(ip := a))
    case THROW => Raise(vm, v)
    case IS_TRUTHY => Push(vm, VBool(Truthy(v)))
    case _ => Next(vm)
  }

  /** One turn of the loop of vm_run, except that it stops at an OP_TRY that finds all handlers in
      use and at an OP_RET that finds a single frame. */
  function Step(code: seq<byte>, vm: Vm): StepResult {
    match Decode(code, vm.ip)
    case NoInstr => Stop(UndefinedBehaviour, vm.out)
    case Fetched(i, length) => Execute(vm.(ip := vm.ip + length), i)
  }

  /** One turn of the loop of vm_run. After runtime_error has unwound to a handler, an overflowing
      OP_TRY still pushes its own handler, and an underflowing OP_RET still pops a frame. */
  function Turn(code: seq<byte>, vm: Vm): StepResult {
    match Decode(code, vm.ip)
    case NoInstr => Stop(UndefinedBehaviour, vm.out)
    case Fetched(i, length) => TurnOn(vm.(ip := vm.ip + length), i)
  }

  /** The switch of vm_run; ip is already past the operand. */
  function TurnOn(vm: Vm, i: Instr): StepResult {
    if i.TRY? && HandlersFull(vm) then
      match Raise(vm, VErr(TooManyTries))
      case Next(r) => Next(r.(tries := r.tries + [TryFrame(i.addr, |r.stack|, |r.frames|)]))
      case stopped => stopped
    else if i == RET && |vm.frames| <= 1 then
      match Raise(vm, VErr(NoFrame))
      case Next(r) => PopFrame(r)
      case stopped => stopped
    else Execute(vm, i)
  }

  /** At most n turns of the loop of vm_run. */
  function RunVm(code: seq<byte>, vm: Vm, n: nat): StepResult
    decreases n
  {
    if n == 0 then Next(vm)
    else match Turn(code, vm)
      case Stop(why, out) => Stop(why, out)
      case Next(vm') => RunVm(code, vm', n - 1)
  }

  /** A checked run: at most n steps. */
  function Run(code: seq<byte>, vm: Vm, n: nat): StepResult
    decreases n
  {
    if n == 0 then Next(vm)
    else match Step(code, vm)
      case Stop(why, out) => Stop(why, out)
      case Next(vm') => Run(code, vm', n - 1)
  }
}
