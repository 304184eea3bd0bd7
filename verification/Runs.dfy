/** Runs of the machine, code laid out in memory, and the relation between a machine state
    and the state of the semantics. */
module Runs {
  import opened Bytes
  import opened Values
  import opened Machine
  import opened Syntax
  import opened Semantics
  import opened Soundness
  import opened CodeGen

  // ----- runs -----

  ghost predicate Reaches(code: seq<byte>, a: Vm, b: Vm) {
    exists n: nat :: Run(code, a, n) == Next(b)
  }

  /** Reaches in at least one step. */
  ghost predicate Passes(code: seq<byte>, a: Vm, b: Vm) {
    exists n: nat :: n > 0 && Run(code, a, n) == Next(b)
  }

  ghost predicate Stops(code: seq<byte>, vm: Vm, why: Halt, out: seq<Value>) {
    exists n: nat :: Run(code, vm, n) == Stop(why, out)
  }

  /** The machine is still running after n steps. */
  ghost predicate Survives(code: seq<byte>, vm: Vm, n: nat) {
    Run(code, vm, n).Next?
  }

  lemma {:induction false} RunFurther(code: seq<byte>, a: Vm, n: nat, b: Vm, m: nat)
    requires Run(code, a, n) == Next(b)
    ensures Run(code, a, n + m) == Run(code, b, m)
    decreases n
  {
    hide Step;
    if n > 0 {
      RunFurther(code, Step(code, a).vm, n - 1, b, m);
    }
  }

  lemma {:induction false} RunLess(code: seq<byte>, a: Vm, n: nat, m: nat)
    requires m <= n && Run(code, a, n).Next?
    ensures Run(code, a, m).Next?
    decreases m
  {
    hide Step;
    if m > 0 {
      RunLess(code, Step(code, a).vm, n - 1, m - 1);
    }
  }

  lemma {:induction false} RunStays(code: seq<byte>, a: Vm, n: nat, m: nat)
    requires n <= m && Run(code, a, n).Stop?
    ensures Run(code, a, m) == Run(code, a, n)
    decreases n
  {
    hide Step;
    if Step(code, a).Next? {
      RunStays(code, Step(code, a).vm, n - 1, m - 1);
    }
  }

  lemma ReachesSelf(code: seq<byte>, a: Vm)
    ensures Reaches(code, a, a)
  {
    assert Run(code, a, 0) == Next(a);
  }

  lemma ReachesOn(code: seq<byte>, a: Vm, b: Vm, c: Vm)
    requires Reaches(code, a, b) && Reaches(code, b, c)
    ensures Reaches(code, a, c)
  {
    hide Step, Run;
    var n: nat :| Run(code, a, n) == Next(b);
    var m: nat :| Run(code, b, m) == Next(c);
    RunFurther(code, a, n, b, m);
  }

  lemma ReachesPasses(code: seq<byte>, a: Vm, b: Vm, c: Vm)
    requires Reaches(code, a, b) && Passes(code, b, c)
    ensures Passes(code, a, c)
  {
    hide Step, Run;
    var n: nat :| Run(code, a, n) == Next(b);
    var m: nat :| m > 0 && Run(code, b, m) == Next(c);
    RunFurther(code, a, n, b, m);
    assert n + m > 0 && Run(code, a, n + m) == Next(c);
  }

  lemma PassesOn(code: seq<byte>, a: Vm, b: Vm, c: Vm)
    requires Passes(code, a, b) && Reaches(code, b, c)
    ensures Passes(code, a, c)
  {
    hide Step, Run;
    var n: nat :| n > 0 && Run(code, a, n) == Next(b);
    var m: nat :| Run(code, b, m) == Next(c);
    RunFurther(code, a, n, b, m);
    assert n + m > 0 && Run(code, a, n + m) == Next(c);
  }

  lemma PassesReaches(code: seq<byte>, a: Vm, b: Vm)
    requires Passes(code, a, b)
    ensures Reaches(code, a, b)
  {
    hide Step, Run;
  }

  lemma ReachesStops(code: seq<byte>, a: Vm, b: Vm, why: Halt, out: seq<Value>)
    requires Reaches(code, a, b) && Stops(code, b, why, out)
    ensures Stops(code, a, why, out)
  {
    hide Step, Run;
    var n: nat :| Run(code, a, n) == Next(b);
    var m: nat :| Run(code, b, m) == Stop(why, out);
    RunFurther(code, a, n, b, m);
  }

  lemma ReachesSurvives(code: seq<byte>, a: Vm, b: Vm, m: nat)
    requires Reaches(code, a, b) && Survives(code, b, m)
    ensures Survives(code, a, m)
  {
    hide Step, Run;
    var n: nat :| Run(code, a, n) == Next(b);
    RunFurther(code, a, n, b, m);
    RunLess(code, a, n + m, m);
  }

  lemma PassesSurvives(code: seq<byte>, a: Vm, b: Vm, m: nat)
    requires Passes(code, a, b) && Survives(code, b, m)
    ensures Survives(code, a, m + 1)
  {
    hide Step, Run;
    var n: nat :| n > 0 && Run(code, a, n) == Next(b);
    RunFurther(code, a, n, b, m);
    RunLess(code, a, n + m, m + 1);
  }

  lemma StepPasses(code: seq<byte>, a: Vm, b: Vm)
    requires Step(code, a) == Next(b)
    ensures Passes(code, a, b) && Reaches(code, a, b)
  {
    hide Step;
    assert Run(code, b, 0) == Next(b);
    assert Run(code, a, 1) == Next(b);
  }

  lemma StepStops(code: seq<byte>, a: Vm, why: Halt, out: seq<Value>)
    requires Step(code, a) == Stop(why, out)
    ensures Stops(code, a, why, out)
  {
    hide Step;
    assert Run(code, a, 1) == Stop(why, out);
  }

  // ----- code in memory -----

  /** The bytes of the tree lie at pc. */
  predicate Placed(code: seq<byte>, pc: int, c: Code, k: Targets)
    decreases c
  {
    match c
    case Skip => 0 <= pc <= |code|
    case Emit(bytes) => CodeAt(code, pc, bytes)
    case CallTo(f) => CodeAt(code, pc, Encode(CALL(CallTarget(k.addrs, f))))
    case BreakOut => CodeAt(code, pc, Encode(JUMP(k.brk)))
    case Cat(a, b) => Placed(code, pc, a, k) && Placed(code, pc + Size(a), b, k)
    case Within(end, a) => Placed(code, pc, a, k.(brk := end))
  }

  lemma {:induction false} FlatIsPlaced(code: seq<byte>, pc: int, c: Code, k: Targets)
    requires CodeAt(code, pc, Flat(c, k))
    ensures Placed(code, pc, c, k)
    decreases c
  {
    match c
    case Cat(a, b) =>
      CodeAtParts(code, pc, Flat(a, k), Flat(b, k));
      FlatIsPlaced(code, pc, a, k);
      FlatIsPlaced(code, pc + Size(a), b, k);
    case Within(end, a) => FlatIsPlaced(code, pc, a, k.(brk := end));
    case _ =>
  }

  lemma {:induction false} PlacedInside(code: seq<byte>, pc: int, c: Code, k: Targets)
    requires Placed(code, pc, c, k)
    ensures 0 <= pc && pc + Size(c) <= |code|
    decreases c
  {
    match c
    case Cat(a, b) =>
      PlacedInside(code, pc, a, k);
      PlacedInside(code, pc + Size(a), b, k);
    case Within(end, a) => PlacedInside(code, pc, a, k.(brk := end));
    case _ =>
  }

  /** The machine fetches the instruction emitted at ip. */
  lemma FetchIns(code: seq<byte>, pc: int, i: Instr, k: Targets)
    requires Placed(code, pc, Ins(i), k)
    ensures Decode(code, pc) == Fetched(i, |Encode(i)|)
  {
    DecodeEncode(code, pc, i);
  }

  // ----- states -----

  predicate WfVm(vm: Vm) {
    && |vm.locals| == LOCALS_MAX
    && 1 <= |vm.frames| <= FRAMES_MAX
    && |vm.stack| <= STACK_MAX
    && (vm.limited ==> |vm.tries| <= TRY_STACK_MAX)
    && (vm.tries != [] ==> Innermost(vm).stackPtr <= |vm.stack| && 1 <= Innermost(vm).framePtr <= |vm.frames|)
  }

  function Innermost(vm: Vm): TryFrame
    requires vm.tries != []
  {
    vm.tries[|vm.tries| - 1]
  }

  function RoomOf(vm: Vm): Room {
    Room(|vm.stack|, |vm.frames|, |vm.tries|, vm.limited)
  }

  /** The value in a slot of the running frame. */
  function Slot(vm: Vm, slot: int): Value {
    var i := FrameStart(|vm.frames| - 1) + slot;
    if 0 <= i < |vm.locals| then vm.locals[i] else VVoid
  }

  /** Every assigned variable sits in its slot of the running frame. */
  ghost predicate Agrees(env: Scope, st: Store, vm: Vm) {
    forall x :: x in st && Known(env, x) ==> Slot(vm, Resolve(env, x)) == st[x]
  }

  lemma AgreesGrows(small: Scope, big: Scope, st: Store, vm: Vm)
    requires Grows(small, big)
    ensures Agrees(big, st, vm) ==> Agrees(small, st, vm)
    ensures Agrees(small, st, vm) && Covers(small, st) ==> Agrees(big, st, vm)
  {
    forall x | x in st && Known(small, x)
      ensures Known(big, x) && Resolve(big, x) == Resolve(small, x)
    {
      GrowsResolve(small, big, x);
    }
  }

  /** The slots of the first n frames are the same. */
  ghost predicate SameBelow(a: Vm, b: Vm, n: nat) {
    && |a.locals| == |b.locals|
    && forall i :: 0 <= i < FrameStart(n) && i < |a.locals| ==> a.locals[i] == b.locals[i]
  }

  lemma SameBelowOn(a: Vm, b: Vm, c: Vm, n: nat, m: nat, least: nat)
    requires SameBelow(a, b, n) && SameBelow(b, c, m) && least <= n && least <= m
    ensures SameBelow(a, c, least)
  {}

  lemma AgreesSame(env: Scope, st: Store, a: Vm, b: Vm)
    requires SameBelow(a, b, |a.frames|) && a.frames == b.frames && |env| <= LOCALS_PER_FRAME
    requires Agrees(env, st, a)
    ensures Agrees(env, st, b)
  {
    forall x | x in st && Known(env, x)
      ensures Slot(b, Resolve(env, x)) == Slot(a, Resolve(env, x))
    {
      assert FrameStart(|a.frames| - 1) + Resolve(env, x) < FrameStart(|a.frames|);
    }
  }

  function Opt(v: Option<Value>): seq<Value> {
    if v.Some? then [v.value] else []
  }

  /** b is a with another ip, more values on the stack and more output; the first kept
      frames of slots, all frames and all handlers are the same. */
  ghost predicate Continues(a: Vm, b: Vm, ip: int, values: seq<Value>, out: seq<Value>, kept: nat) {
    && b == Vm(ip, a.stack + values, b.locals, a.frames, a.tries, a.out + out, a.limited)
    && SameBelow(a, b, kept)
  }

  // ----- outcomes on the machine -----

  function Min(a: nat, b: nat): nat {
    if a < b then a else b
  }

  /** An exception v thrown below vm: with no handler the machine stops; otherwise it is at
      the innermost handler, with the operand stack as it was at OP_TRY plus v, the frames
      that were live there, and their slots untouched up to the first kept frames. */
  ghost predicate Caught(code: seq<byte>, vm: Vm, v: Value, out: seq<Value>, vm': Vm, kept: nat) {
    if vm.tries == [] then Stops(code, vm, Uncaught(v), vm.out + out)
    else
      var t := Innermost(vm);
      if t.stackPtr >= STACK_MAX then Stops(code, vm, StackOverflow, vm.out + out)
      else
        && t.stackPtr <= |vm.stack| && t.framePtr <= |vm.frames|
        && Reaches(code, vm, vm')
        && vm' == Vm(t.handler, vm.stack[..t.stackPtr] + [v], vm'.locals, vm.frames[..t.framePtr],
                     vm.tries[..|vm.tries| - 1], vm.out + out, vm.limited)
        && SameBelow(vm, vm', Min(t.framePtr, kept))
  }

  /** An expression that does not yield a value. */
  ghost predicate Fails(code: seq<byte>, vm: Vm, o: ExprOutcome, fuel: nat, vm': Vm, kept: nat) {
    match o
    case Raised(v, out) => Caught(code, vm, v, out, vm', kept)
    case Halted(why, out) => Stops(code, vm, why, vm.out + out)
    case OutOfFuel => Survives(code, vm, fuel)
    case _ => true
  }

  ghost predicate ExprResult(code: seq<byte>, vm: Vm, end: int, o: ExprOutcome, fuel: nat, vm': Vm) {
    match o
    case Yields(v, out) =>
      && Reaches(code, vm, vm') && WfVm(vm')
      && Continues(vm, vm', end, Opt(v), out, |vm.frames|)
    case _ => Fails(code, vm, o, fuel, vm', |vm.frames|)
  }

  ghost predicate StmtResult(code: seq<byte>, vm: Vm, env: Scope, after: Scope, end: int, brk: int, cont: int,
                             o: Outcome, fuel: nat, vm': Vm)
    requires |vm.frames| > 0
  {
    var kept := |vm.frames| - 1;
    match o
    case Normal(st', v, out) =>
      && Reaches(code, vm, vm') && WfVm(vm')
      && Continues(vm, vm', end, Opt(v), out, kept) && Agrees(after, st', vm')
    case Broke(st', out) =>
      && Reaches(code, vm, vm') && WfVm(vm')
      && Continues(vm, vm', brk, [], out, kept) && Agrees(env, st', vm')
    case Continued(st', out) =>
      && Reaches(code, vm, vm') && WfVm(vm')
      && Continues(vm, vm', cont, [], out, kept) && Agrees(env, st', vm')
    case Returned(v, out) =>
      && Reaches(code, vm, vm') && WfVm(vm')
      && Continues(vm, vm', vm'.ip, [v], out, kept) && Decode(code, vm'.ip) == Fetched(RET, 1)
    case Threw(v, st', out) =>
      && Caught(code, vm, v, out, vm', kept)
      && (CaughtHere(vm) ==> Agrees(env, st', vm'))
    case Stopped(why, out) => Stops(code, vm, why, vm.out + out)
    case Timeout => Survives(code, vm, fuel)
    case Unspecified => true
  }

  /** The innermost handler belongs to the running frame and can take a value. */
  predicate CaughtHere(vm: Vm) {
    vm.tries != [] && Innermost(vm).stackPtr < STACK_MAX && Innermost(vm).framePtr == |vm.frames|
  }

  // ----- lifting an outcome to an earlier state -----

  /** mid is a later state of the same run whose stack and frames extend those of vm. */
  ghost predicate Leads(code: seq<byte>, vm: Vm, mid: Vm, out: seq<Value>, kept: nat) {
    && Reaches(code, vm, mid)
    && |vm.stack| <= |mid.stack| && mid.stack[..|vm.stack|] == vm.stack
    && |vm.frames| <= |mid.frames| && mid.frames[..|vm.frames|] == vm.frames
    && mid.tries == vm.tries && mid.out == vm.out + out && mid.limited == vm.limited
    && SameBelow(vm, mid, kept)
  }

  lemma ContinuesLeads(code: seq<byte>, a: Vm, b: Vm, ip: int, values: seq<Value>, out: seq<Value>, kept: nat)
    requires Reaches(code, a, b) && Continues(a, b, ip, values, out, kept)
    ensures Leads(code, a, b, out, kept)
  {
    hide Reaches, SameBelow;
    assert b.stack[..|a.stack|] == a.stack;
    assert b.frames[..|a.frames|] == a.frames;
  }

  lemma CaughtEarlier(code: seq<byte>, vm: Vm, mid: Vm, out: seq<Value>, v: Value, out': seq<Value>, vm': Vm,
                      kept: nat, keptMid: nat)
    requires WfVm(vm) && Leads(code, vm, mid, out, kept) && kept <= keptMid
    requires Caught(code, mid, v, out', vm', keptMid)
    ensures Caught(code, vm, v, out + out', vm', kept)
  {
    hide Reaches, Stops;
    assert vm.out + (out + out') == mid.out + out';
    if vm.tries == [] {
      ReachesStops(code, vm, mid, Uncaught(v), mid.out + out');
    } else {
      var t := Innermost(vm);
      if t.stackPtr >= STACK_MAX {
        ReachesStops(code, vm, mid, StackOverflow, mid.out + out');
      } else {
        ReachesOn(code, vm, mid, vm');
        assert vm.stack[..t.stackPtr] == mid.stack[..|vm.stack|][..t.stackPtr] == mid.stack[..t.stackPtr];
        assert vm.frames[..t.framePtr] == mid.frames[..|vm.frames|][..t.framePtr] == mid.frames[..t.framePtr];
        SameBelowOn(vm, mid, vm', kept, Min(t.framePtr, keptMid), Min(t.framePtr, kept));
      }
    }
  }

  lemma FailsEarlier(code: seq<byte>, vm: Vm, mid: Vm, out: seq<Value>, o: ExprOutcome, fuel: nat, vm': Vm,
                     kept: nat, keptMid: nat)
    requires WfVm(vm) && Leads(code, vm, mid, out, kept) && kept <= keptMid
    requires !o.Yields? && Fails(code, mid, o, fuel, vm', keptMid)
    ensures Fails(code, vm, Before(out, o), fuel, vm', kept)
  {
    hide WfVm, Reaches, Stops, Survives, Caught;
    match o
    case Raised(v, out') => CaughtEarlier(code, vm, mid, out, v, out', vm', kept, keptMid);
    case Halted(why, out') =>
      assert vm.out + (out + out') == mid.out + out';
      ReachesStops(code, vm, mid, why, mid.out + out');
    case OutOfFuel => ReachesSurvives(code, vm, mid, fuel);
    case _ =>
  }

  /** A statement result at mid, reached from vm at the same stack height and frame, is one at vm. */
  lemma StmtEarlier(code: seq<byte>, vm: Vm, mid: Vm, out: seq<Value>, env: Scope, inner: Scope, after: Scope,
                    end: int, brk: int, cont: int, o: Outcome, fuel: nat, vm': Vm)
    requires WfVm(vm) && Reaches(code, vm, mid) && Continues(vm, mid, mid.ip, [], out, |vm.frames| - 1)
    requires Grows(env, inner)
    requires StmtResult(code, mid, inner, after, end, brk, cont, o, fuel, vm')
    ensures StmtResult(code, vm, env, after, end, brk, cont, After(out, o), fuel, vm')
  {
    hide Reaches, Stops, Survives, Grows, Agrees, Caught, SameBelow;
    ContinuesLeads(code, vm, mid, mid.ip, [], out, |vm.frames| - 1);
    assert mid.stack == vm.stack;
    match o
    case Normal(st', v, out') => ContinuesOn(code, vm, mid, vm', out, end, Opt(v), out');
    case Broke(st', out') =>
      ContinuesOn(code, vm, mid, vm', out, brk, [], out');
      AgreesGrows(env, inner, st', vm');
    case Continued(st', out') =>
      ContinuesOn(code, vm, mid, vm', out, cont, [], out');
      AgreesGrows(env, inner, st', vm');
    case Returned(v, out') => ContinuesOn(code, vm, mid, vm', out, vm'.ip, [v], out');
    case Threw(v, st', out') =>
      CaughtEarlier(code, vm, mid, out, v, out', vm', |vm.frames| - 1, |vm.frames| - 1);
      AgreesGrows(env, inner, st', vm');
    case Stopped(why, out') =>
      assert vm.out + (out + out') == mid.out + out';
      ReachesStops(code, vm, mid, why, mid.out + out');
    case Timeout => ReachesSurvives(code, vm, mid, fuel);
    case Unspecified =>
  }

  lemma ContinuesOn(code: seq<byte>, vm: Vm, mid: Vm, vm': Vm, out: seq<Value>, ip: int, values: seq<Value>, out': seq<Value>)
    requires |vm.frames| > 0
    requires Reaches(code, vm, mid) && Continues(vm, mid, mid.ip, [], out, |vm.frames| - 1)
    requires Reaches(code, mid, vm') && Continues(mid, vm', ip, values, out', |mid.frames| - 1)
    ensures Reaches(code, vm, vm') && Continues(vm, vm', ip, values, out + out', |vm.frames| - 1)
  {
    hide Reaches;
    ReachesOn(code, vm, mid, vm');
    assert mid.stack == vm.stack;
    assert vm.out + (out + out') == (vm.out + out) + out';
  }

  // ----- raising -----

  lemma RaiseIsCaught(code: seq<byte>, vm: Vm, popped: Vm, v: Value) returns (vm': Vm)
    requires WfVm(vm) && Step(code, vm) == Raise(popped, v)
    requires popped.tries == vm.tries && popped.frames == vm.frames && popped.locals == vm.locals && popped.out == vm.out && popped.limited == vm.limited
    requires vm.tries != [] ==> Innermost(vm).stackPtr <= |popped.stack| <= |vm.stack|
    requires |popped.stack| <= |vm.stack| && popped.stack == vm.stack[..|popped.stack|]
    ensures Caught(code, vm, v, [], vm', |vm.frames|)
  {
    hide Step, Reaches, Stops;
    vm' := vm;
    assert vm.out + [] == vm.out;
    if vm.tries == [] {
      StepStops(code, vm, Uncaught(v), vm.out);
    } else {
      var t := Innermost(vm);
      assert popped.stack[..t.stackPtr] == vm.stack[..t.stackPtr];
      var stack := if t.stackPtr < |popped.stack| then popped.stack[..t.stackPtr] else popped.stack;
      assert stack == vm.stack[..t.stackPtr];
      var frames := if t.framePtr < |vm.frames| then vm.frames[..t.framePtr] else vm.frames;
      assert frames == vm.frames[..t.framePtr];
      if t.stackPtr >= STACK_MAX {
        StepStops(code, vm, StackOverflow, vm.out);
      } else {
        vm' := Vm(t.handler, stack + [v], Cleared(vm.locals, |frames|, |vm.frames|), frames,
                  vm.tries[..|vm.tries| - 1], vm.out, vm.limited);
        StepPasses(code, vm, vm');
      }
    }
  }
}
