/** What a seventeenth handler does to a program: main nests seventeen try blocks around a print, and
    nothing in it fails. */
module Nested {
  import opened Bytes
  import opened Values
  import opened Machine
  import opened Syntax
  import opened Semantics
  import opened CodeGen
  import opened Runs
  import opened Simulation
  import opened EndToEnd
  import opened Parsing
  import opened Printing
  import opened Shapes
  import opened Statements
  import opened Compilation
  import opened Forward
  import opened Correctness
  import Crowded

  const ERROR_NAME: Name := 60

  const DEPTH: byte := 17

  /** The handler of level n prints 1000 + n. */
  function OnError(n: byte): Block {
    Then(Print(IntLit(1000 + n)), End)
  }

  /** Level n is a try block around level n - 1; level 0 prints 100. */
  function Level(n: byte): Block {
    Then(if n == 0 then Print(IntLit(100)) else Try(Level(n - 1), ERROR_NAME, OnError(n)), End)
  }

  const NESTED: Program := [Fun(MAIN_NAME, [], TVoid, Level(DEPTH))]

  lemma NestedNames()
    ensures DistinctNames(NESTED) && NoNatives(NESTED)
    ensures Defines(NESTED, MAIN_NAME) && IndexOf(NESTED, MAIN_NAME) == 0 && ParamScope([]) == [] && ParamNames([]) == {}
  {
    assert NESTED[0].name == MAIN_NAME;
  }

  // ----- it is well typed -----

  lemma HandlerIsOk(n: byte, cx: Context, env: Scope)
    ensures OkBlock(OnError(n), cx, env) && BlockType(OnError(n), env, cx.sg) == TVoid && BlockScope(OnError(n), env, cx.sg) == env
    ensures BlockDefinite(OnError(n), {ERROR_NAME}) && BlockCompletes(OnError(n))
  {
    assert OkExpr(IntLit(1000 + n), env, cx.sg, 0);
    assert OkStmt(Print(IntLit(1000 + n)), cx, env);
    assert StmtScope(Print(IntLit(1000 + n)), env, cx.sg) == env;
  }

  lemma {:induction false} LevelIsOk(n: byte, cx: Context)
    ensures OkBlock(Level(n), cx, []) && BlockType(Level(n), [], cx.sg) == TVoid && BlockScope(Level(n), [], cx.sg) == []
    ensures BlockDefinite(Level(n), {})
    decreases n
  {
    if n == 0 {
      assert OkExpr(IntLit(100), [], cx.sg, 0);
      assert OkStmt(Print(IntLit(100)), cx, []);
      assert StmtScope(Print(IntLit(100)), [], cx.sg) == [];
    } else {
      var s := Try(Level(n - 1), ERROR_NAME, OnError(n));
      var env2 := [] + [Local(ERROR_NAME, TAny)];
      LevelIsOk(n - 1, cx.(mayBreak := false, mayReturn := false));
      HandlerIsOk(n, cx, env2);
      hide Level, OnError;
      assert env2[..0] == [] && {} + {ERROR_NAME} == {ERROR_NAME};
      assert OkStmt(s, cx, []);
      assert StmtScope(s, [], cx.sg) == [] && StmtType(s, [], cx.sg) == TVoid && Definite(s, {});
    }
  }

  lemma NestedIsOk()
    ensures OkProgram(NESTED)
  {
    hide Level, OkBlock, BlockDefinite, BlockType, AllSignatures, IndexOf;
    NestedNames();
    MainIsOk(AllSignatures(NESTED));
  }

  lemma MainIsOk(sg: Signatures)
    ensures OkFun(NESTED[0], sg) && BlockDefinite(NESTED[0].body, {})
  {
    hide Level, OkBlock, BlockDefinite, BlockType;
    NestedNames();
    LevelIsOk(DEPTH, BodyContext(NESTED[0], sg));
  }

  // ----- its meaning -----

  /** No level fails: 100 is printed, whatever the number of handlers. */
  /** A block of one statement, and a try block whose body ends well, mean what their inside means. */
  lemma InsideMeans(p: Program, s: Stmt, b: Block, x: Name, h: Block, room: Room, fuel: nat, out: seq<Value>)
    requires !room.limited
    ensures ExecStmt(p, s, map[], room, fuel) == Normal(map[], None, out)
      ==> ExecBlock(p, Then(s, End), map[], room, fuel) == Normal(map[], None, out)
    ensures ExecBlock(p, b, map[], room.(tries := room.tries + 1), fuel) == Normal(map[], None, out)
      ==> ExecStmt(p, Try(b, x, h), map[], room, fuel) == Normal(map[], None, out)
  {}

  lemma HundredMeans(p: Program, room: Room, fuel: nat)
    requires room.height == 0
    ensures ExecStmt(p, Print(IntLit(100)), map[], room, fuel) == Normal(map[], None, [VInt(100)])
  {
    assert [] + [VInt(100)] == [VInt(100)];
  }

  lemma {:induction false} LevelMeans(p: Program, n: byte, tries: nat, fuel: nat)
    ensures ExecBlock(p, Level(n), map[], Room(0, 2, tries, false), fuel) == Normal(map[], None, [VInt(100)])
    decreases n
  {
    hide OnError, ExecStmt, ExecBlock;
    var room := Room(0, 2, tries, false);
    if n == 0 {
      HundredMeans(p, room, fuel);
      InsideMeans(p, Print(IntLit(100)), End, ERROR_NAME, End, room, fuel, [VInt(100)]);
    } else {
      LevelMeans(p, n - 1, tries + 1, fuel);
      var s := Try(Level(n - 1), ERROR_NAME, OnError(n));
      InsideMeans(p, s, Level(n - 1), ERROR_NAME, OnError(n), room, fuel, [VInt(100)]);
    }
  }

  lemma NestedMeans()
    ensures RunProgram(NESTED, 0) == Ends(Finished, [VInt(100)])
  {
    NestedNames();
    LevelMeans(NESTED, DEPTH, 0, 0);
    hide Level, ExecBlock;
    assert Bind([], []) == map[];
  }

  // ----- its code -----

  function LevelCode(n: byte, base: nat): Code {
    BlockCode(Level(n), [], AllSignatures(NESTED), base, 0)
  }

  lemma HandlerCode(n: byte, env: Scope, base: nat)
    ensures BlockCode(OnError(n), env, AllSignatures(NESTED), base, 0) == Cat(Ins(PUSH_INT(1000 + n)), Ins(PRINT))
    ensures Size(Ins(PUSH_INT(1000 + n))) == 9 && Size(Ins(PRINT)) == 1
  {
    hide AllSignatures;
    assert StmtCode(Print(IntLit(1000 + n)), env, AllSignatures(NESTED), base, 0) == Cat(Ins(PUSH_INT(1000 + n)), Ins(PRINT));
  }

  lemma LevelZero(base: nat)
    ensures LevelCode(0, base) == Cat(Ins(PUSH_INT(100)), Ins(PRINT)) && Size(LevelCode(0, base)) == 10
  {
    hide AllSignatures;
    assert StmtCode(Print(IntLit(100)), [], AllSignatures(NESTED), base, 0) == Cat(Ins(PUSH_INT(100)), Ins(PRINT));
  }

  /** The try block of level n, whose body is the code of level n - 1. */
  lemma {:induction false} LevelShape(n: byte, base: nat)
    ensures Size(LevelCode(n, base)) == 10 + 23 * n
    ensures n > 0 ==>
      LevelCode(n, base) == TryShape(LevelCode(n - 1, base + 5), 0, Cat(Ins(PUSH_INT(1000 + n)), Ins(PRINT)), base + 23 * n - 2)
    decreases n
  {
    LevelZero(base);
    if n > 0 {
      LevelShape(n - 1, base + 5);
      NextLevel(n, base);
    }
  }

  lemma NextLevel(n: byte, base: nat)
    requires n > 0 && Size(LevelCode(n - 1, base + 5)) == 10 + 23 * (n - 1)
    ensures Size(LevelCode(n, base)) == 10 + 23 * n
    ensures LevelCode(n, base) == TryShape(LevelCode(n - 1, base + 5), 0, Cat(Ins(PUSH_INT(1000 + n)), Ins(PRINT)), base + 23 * n - 2)
  {
    hide AllSignatures, BlockScope, OnError, Ins, BlockCode, StmtCode, TryShape, Size, OkBlock, BlockType, BlockDefinite;
    var sg, body, handler := AllSignatures(NESTED), LevelCode(n - 1, base + 5), Cat(Ins(PUSH_INT(1000 + n)), Ins(PRINT));
    var s := Try(Level(n - 1), ERROR_NAME, OnError(n));
    LevelIsOk(n - 1, Context(sg, TVoid, false, false));
    HandlerCode(n, [] + [Local(ERROR_NAME, TAny)], base + 23 * n);
    SizeOfTwo(Ins(PUSH_INT(1000 + n)), Ins(PRINT));
    TryCode(s, [], sg, base, 0, body, base + 23 * n - 2, [], handler);
    OneStatement(s, [], sg, base, 0);
    ShapeSize(body, handler, base + 23 * n - 2);
  }

  lemma ShapeSize(body: Code, handler: Code, catchAt: nat)
    ensures Size(TryShape(body, 0, handler, catchAt)) == Size(body) + Size(handler) + 13
  {
    hide Ins, Jump, StoreIn;
    Simulation.TrySizes(Narrow(catchAt));
    var leave := Jump(catchAt + 2 + Size(handler));
    SizeOfTwo(Ins(END_TRY), leave);
    SizeOfTwo(body, Cat(Ins(END_TRY), leave));
    SizeOfTwo(Ins(TRY(Narrow(catchAt))), Cat(body, Cat(Ins(END_TRY), leave)));
    SizeOfTwo(StoreIn(0), handler);
  }

  // ----- what vm_run does -----

  /** main entered, with these handlers. */
  function InMain(at: nat, tries: seq<TryFrame>): Vm {
    Init().(ip := at, frames := [-1, 412], tries := tries)
  }

  lemma LevelPlaced(code: seq<byte>, n: byte, base: nat, k: Targets)
    requires n > 0 && base + 23 * n < 0x8000_0000 && Placed(code, base, LevelCode(n, base), k)
    ensures Placed(code, base, Ins(TRY(base + 23 * n - 2)), k) && Placed(code, base + 5, LevelCode(n - 1, base + 5), k)
    ensures Placed(code, base + 23 * n - 8, Ins(END_TRY), k)
    ensures Placed(code, base + 23 * n - 7, Ins(JUMP(Narrow(base + 23 * n + 10))), k)
    ensures Placed(code, base + 23 * n - 2, Ins(STORE(0)), k)
    ensures Placed(code, base + 23 * n, Ins(PUSH_INT(1000 + n)), k) && Placed(code, base + 23 * n + 9, Ins(PRINT), k)
  {
    hide Level, AllSignatures, BlockCode, Ins, Placed, OnError, Size;
    LevelShape(n, base);
    LevelShape(n - 1, base + 5);
    HandlerCode(n, [], base);
    var handler := Cat(Ins(PUSH_INT(1000 + n)), Ins(PRINT));
    SizeOfTwo(Ins(PUSH_INT(1000 + n)), Ins(PRINT));
    TryShapeLayout(code, base, LevelCode(n - 1, base + 5), 0, handler, base + 23 * n - 2, k);
    PlacedCat(code, base + 23 * n, Ins(PUSH_INT(1000 + n)), Ins(PRINT), k);
    ShapeIns(base + 23 * n + 10);
  }

  lemma ShapeIns(target: nat)
    ensures Jump(target) == Ins(JUMP(Narrow(target))) && StoreIn(0) == Ins(STORE(0))
  {}

  /** The handlers of levels n to 2, outermost first. */
  function Opened(n: byte, base: nat): seq<TryFrame> {
    if n < 2 then [] else [TryFrame(Narrow(base + 23 * n - 2), 0, 2)] + Opened(n - 1, base + 5)
  }

  lemma {:induction false} LastOpened(n: byte, base: nat)
    requires n >= 2
    ensures |Opened(n, base)| == n - 1 && Opened(n, base)[n - 2] == TryFrame(Narrow(base + 5 * n + 34), 0, 2)
    decreases n
  {
    if n > 2 {
      LastOpened(n - 1, base + 5);
    } else {
      assert Opened(1, base + 5) == [];
    }
  }

  /** The try blocks are entered one after the other, down to level 1. */
  lemma {:induction false} Down(code: seq<byte>, k: Targets, n: byte, base: nat, tries: seq<TryFrame>)
    requires 1 <= n && |tries| + n == 17 && base + 5 * n <= 1000 && Placed(code, base, LevelCode(n, base), k)
    ensures Reaches(code, InMain(base, tries), InMain(base + 5 * n - 5, tries + Opened(n, base)))
    ensures Placed(code, base + 5 * n - 5, LevelCode(1, base + 5 * n - 5), k)
    decreases n
  {
    hide Reaches, Passes, LevelCode, Placed, Init, Decode, Ins;
    if n == 1 {
      assert tries + Opened(1, base) == tries;
      ReachesSelf(code, InMain(base, tries));
    } else {
      var frame := TryFrame(base + 23 * n - 2, 0, 2);
      LevelPlaced(code, n, base, k);
      Down(code, k, n - 1, base + 5, tries + [frame]);
      EnterTry(code, k, base, base + 23 * n - 2, tries);
      assert (tries + [frame]) + Opened(n - 1, base + 5) == tries + Opened(n, base);
      ReachesOn(code, InMain(base, tries), InMain(base + 5, tries + [frame]), InMain(base + 5 * n - 5, tries + Opened(n, base)));
    }
  }

  lemma EnterTry(code: seq<byte>, k: Targets, at: nat, handler: int32, tries: seq<TryFrame>)
    requires |tries| < 16 && Placed(code, at, Ins(TRY(handler)), k)
    ensures Reaches(code, InMain(at, tries), InMain(at + 5, tries + [TryFrame(handler, 0, 2)]))
  {
    hide Reaches, Passes, Placed, Decode, Encode;
    FetchIns(code, at, TRY(handler), k);
    FiveBytes(handler);
    StepPasses(code, InMain(at, tries), InMain(at + 5, tries + [TryFrame(handler, 0, 2)]));
    PassesReaches(code, InMain(at, tries), InMain(at + 5, tries + [TryFrame(handler, 0, 2)]));
  }

  const TOO_MANY: Value := VErr(TooManyTries)

  /** After the error the handler of level 2 is running, and the top of the handler stack is that of
      level 1. */
  function AfterError(tries: seq<TryFrame>): Vm
    requires |tries| == 16
  {
    InMain(124, tries[..15] + [TryFrame(106, 1, 2)]).(stack := [TOO_MANY])
  }

  /** The seventeenth OP_TRY. */
  lemma Seventeenth(code: seq<byte>, k: Targets, tries: seq<TryFrame>)
    requires |tries| == 16 && tries[15] == TryFrame(124, 0, 2) && Placed(code, 85, Ins(TRY(106)), k)
    ensures Turn(code, InMain(85, tries)) == Next(AfterError(tries))
  {
    hide Placed, Decode, Encode;
    FetchIns(code, 85, TRY(106), k);
    var vm := InMain(85, tries);
    assert Cleared(vm.locals, 2, 2) == vm.locals;
    assert [] + [TOO_MANY] == [TOO_MANY] && vm.frames[..2] == vm.frames;
  }

  /** The handler of level 2 has printed and the machine is behind the try block of that level. */
  function BehindTwo(at: nat, tries: seq<TryFrame>): Vm {
    var vm := InMain(at, tries);
    vm.(locals := vm.locals[48 := TOO_MANY], out := [VInt(1002)])
  }

  lemma HandlerRuns(code: seq<byte>, k: Targets, tries: seq<TryFrame>)
    requires |tries| == 16 && Placed(code, 124, Ins(STORE(0)), k) && Placed(code, 126, Ins(PUSH_INT(1002)), k)
    requires Placed(code, 135, Ins(PRINT), k)
    ensures Reaches(code, AfterError(tries), BehindTwo(136, tries[..15] + [TryFrame(106, 1, 2)]))
  {
    hide Placed, Decode, Reaches, Passes, Init;
    var start, end := AfterError(tries), BehindTwo(136, tries[..15] + [TryFrame(106, 1, 2)]);
    FetchIns(code, 124, STORE(0), k);
    FetchIns(code, 126, PUSH_INT(1002), k);
    FetchIns(code, 135, PRINT, k);
    BootLocals();
    var stored := end.(ip := 126, out := []);
    var pushed := stored.(ip := 135, stack := [VInt(1002)]);
    assert Drop(start, 1).stack == [] && Drop(pushed, 1).stack == [] && [] + [VInt(1002)] == [VInt(1002)];
    StepPasses(code, start, stored);
    PassesReaches(code, start, stored);
    StepPasses(code, stored, pushed);
    PassesReaches(code, stored, pushed);
    StepPasses(code, pushed, end);
    PassesReaches(code, pushed, end);
    ReachesOn(code, start, stored, pushed);
    ReachesOn(code, start, pushed, end);
  }

  lemma BootLocals()
    ensures |Init().locals| == LOCALS_MAX && Init().stack == [] && Init().out == [] && Init().limited
  {}

  /** Behind level 2 the levels around it end one after the other, each with the handler of another. */
  lemma {:induction false} Up(code: seq<byte>, k: Targets, n: byte, base: nat, tries: seq<TryFrame>) returns (left: seq<TryFrame>)
    requires 2 <= n <= 17 && base + 5 * n <= 1000 && Placed(code, base, LevelCode(n, base), k)
    ensures Reaches(code, BehindTwo(base + 5 * n + 46, tries), BehindTwo(base + 23 * n + 10, left))
    decreases n
  {
    hide Reaches, Passes, LevelCode, Placed, Init, Decode, Ins, BehindTwo;
    if n == 2 {
      ReachesSelf(code, BehindTwo(base + 5 * n + 46, tries));
      left := tries;
    } else {
      LevelPlaced(code, n, base, k);
      left := Up(code, k, n - 1, base + 5, tries);
      var more := LeaveTry(code, k, base + 23 * n - 8, base + 23 * n + 10, left);
      ReachesOn(code, BehindTwo(base + 5 * n + 46, tries), BehindTwo(base + 23 * n - 8, left), BehindTwo(base + 23 * n + 10, more));
      left := more;
    }
  }

  lemma LeaveTry(code: seq<byte>, k: Targets, at: nat, end: nat, tries: seq<TryFrame>) returns (left: seq<TryFrame>)
    requires end < 0x8000_0000 && Placed(code, at, Ins(END_TRY), k) && Placed(code, at + 1, Ins(JUMP(Narrow(end))), k)
    ensures Reaches(code, BehindTwo(at, tries), BehindTwo(end, left))
  {
    hide Reaches, Passes, Placed, Decode, Encode, Init;
    FetchIns(code, at, END_TRY, k);
    FetchIns(code, at + 1, JUMP(Narrow(end)), k);
    FiveBytes(end);
    left := if tries == [] then [] else tries[..|tries| - 1];
    BootLocals();
    StepPasses(code, BehindTwo(at, tries), BehindTwo(at + 1, left));
    PassesReaches(code, BehindTwo(at, tries), BehindTwo(at + 1, left));
    StepPasses(code, BehindTwo(at + 1, left), BehindTwo(end, left));
    PassesReaches(code, BehindTwo(at + 1, left), BehindTwo(end, left));
    ReachesOn(code, BehindTwo(at, tries), BehindTwo(at + 1, left), BehindTwo(end, left));
  }

  lemma MainReturns(code: seq<byte>, k: Targets, tries: seq<TryFrame>)
    requires Placed(code, 406, Ins(RET), k) && Placed(code, 412, Ins(HALT), k)
    ensures Stops(code, BehindTwo(406, tries), Finished, [VInt(1002)])
  {
    hide Placed, Decode, Reaches, Passes, Stops;
    FetchIns(code, 406, RET, k);
    FetchIns(code, 412, HALT, k);
    var vm := BehindTwo(406, tries);
    var last := vm.(ip := 412, locals := Cleared(vm.locals, 1, 2), frames := [-1]);
    assert vm.frames[..1] == [-1];
    StepPasses(code, vm, last);
    PassesReaches(code, vm, last);
    StepStops(code, last, Finished, [VInt(1002)]);
    ReachesStops(code, vm, last, Finished, [VInt(1002)]);
  }

  // ----- the whole run -----

  /** The inner levels lie inside the outer ones. */
  lemma {:induction false} LevelWithin(code: seq<byte>, k: Targets, n: byte, base: nat, m: byte)
    requires 1 <= m <= n <= 17 && base + 5 * n <= 1000 && Placed(code, base, LevelCode(n, base), k)
    ensures Placed(code, base + 5 * (n - m), LevelCode(m, base + 5 * (n - m)), k)
    decreases n
  {
    hide LevelCode, Placed, Ins;
    if m < n {
      LevelPlaced(code, n, base, k);
      LevelWithin(code, k, n - 1, base + 5, m);
    }
  }

  lemma NestedSize()
    ensures var sg := AllSignatures(NESTED);
      Size(FunsCode(NESTED, 1, sg)) == 407 && Fits(NESTED) && BodyCode(NESTED[0], sg, 5) == LevelCode(DEPTH, 5)
      && Entry(NESTED, 0, sg) == 5
  {
    var sg := AllSignatures(NESTED);
    FunsCons(NESTED, 0, sg);
    NothingBefore(sg);
    MainSize(sg);
    hide *;
    SizeOfTwo(FunsCode(NESTED, 0, sg), FunCode(NESTED[0], sg, 0));
    Crowded.ProgramSize(NESTED);
    SmallFits();
  }

  lemma SmallFits()
    requires |ProgramBytes(NESTED)| == 413
    ensures Fits(NESTED)
  {
    hide ProgramBytes;
  }

  lemma NothingBefore(sg: Signatures)
    ensures FunsCode(NESTED, 0, sg) == Skip && Size(Skip) == 0 && Entry(NESTED, 0, sg) == 5
  {}

  lemma MainSize(sg: Signatures)
    requires sg == AllSignatures(NESTED)
    ensures BodyCode(NESTED[0], sg, 5) == LevelCode(DEPTH, 5) && Size(FunCode(NESTED[0], sg, 0)) == 407
  {
    hide Encode, AllSignatures, BlockCode, Level, Ins, Jump, StoresCode, LevelCode, BodyCode;
    MainLevels();
    MainBody(sg);
    Crowded.OneByte();
    var body := BodyCode(NESTED[0], sg, 5);
    SizeOfTwo(body, Ins(RET));
    SizeOfTwo(StoresCode(0), Cat(body, Ins(RET)));
    SizeOfTwo(Jump(5 + 2 * 0 + Size(body) + 1), Cat(StoresCode(0), Cat(body, Ins(RET))));
  }

  lemma MainBody(sg: Signatures)
    requires sg == AllSignatures(NESTED)
    ensures BodyCode(NESTED[0], sg, 5) == LevelCode(DEPTH, 5)
  {
    hide Level, AllSignatures, BlockCode;
    NestedNames();
  }

  /** vm_run jumps over main, calls it and is at its first try block. */
  lemma NestedPlaced()
    ensures var code, k := ProgramBytes(NESTED), ProgramTargets(NESTED);
      && OkProgram(NESTED) && Fits(NESTED) && Reaches(code, Init(), InMain(5, []))
      && Placed(code, 5, LevelCode(DEPTH, 5), k) && Placed(code, 406, Ins(RET), k) && Placed(code, 412, Ins(HALT), k)
  {
    hide AllSignatures, ProgramBytes, ProgramTargets, FunsCode, LevelCode, BodyCode, Placed, Reaches, Level, OkProgram, Fits, IndexOf,
      CallTarget, Size, Ins, Loaded, Decode, Entry;
    var code, k, sg := ProgramBytes(NESTED), ProgramTargets(NESTED), AllSignatures(NESTED);
    NestedIsOk();
    NestedNames();
    NestedSize();
    MainLevels();
    ProgramIsLoaded(NESTED);
    LoadedParts(code, NESTED, sg);
    CalleeIsPlaced(code, NESTED, sg, MAIN_NAME);
    SkipFunctions(code, NESTED, 1, sg, k, Init());
    var vm := Init().(ip := 407);
    FetchCall(code, NESTED, sg, k, MAIN_NAME, vm);
    EnterMain(code);
    ReachesOn(code, Init(), vm, InMain(5, []));
  }

  lemma MainLevels()
    ensures Size(LevelCode(DEPTH, 5)) == 401
  {
    LevelShape(DEPTH, 5);
  }

  lemma EnterMain(code: seq<byte>)
    requires Decode(code, 407) == Fetched(CALL(5), 5)
    ensures Reaches(code, Init().(ip := 407), InMain(5, []))
  {
    hide Decode, Reaches, Passes;
    StepPasses(code, Init().(ip := 407), InMain(5, []));
    PassesReaches(code, Init().(ip := 407), InMain(5, []));
  }

  lemma {:induction false} RunVmFurther(code: seq<byte>, a: Vm, n: nat, b: Vm, m: nat)
    requires RunVm(code, a, n) == Next(b)
    ensures RunVm(code, a, n + m) == RunVm(code, b, m)
    decreases n
  {
    hide Turn;
    if n > 0 {
      RunVmFurther(code, Turn(code, a).vm, n - 1, b, m);
    }
  }

  /** A run, one turn of vm_run that the checked machine does not take, and another run. */
  lemma ThreeRuns(code: seq<byte>, a: Vm, b: Vm, c: Vm, why: Halt, out: seq<Value>)
    requires Reaches(code, a, b) && Turn(code, b) == Next(c) && Stops(code, c, why, out)
    requires why != TryOverflow && why != NoFrameLeft
    ensures VmStops(code, a, why, out)
  {
    hide Turn, Step, Run, RunVm;
    var n: nat :| Run(code, a, n) == Next(b);
    var m: nat :| Run(code, c, m) == Stop(why, out);
    RunsAgree(code, a, n);
    RunsAgree(code, c, m);
    OneMoreTurn(code, a, n, b);
    RunVmFurther(code, a, n + 1, c, m);
    assert RunVm(code, a, n + 1 + m) == Stop(why, out);
  }

  /** From the error in the handler of level 2 to the end. */
  lemma Aftermath(code: seq<byte>, k: Targets, tries: seq<TryFrame>)
    requires |tries| == 16 && Placed(code, 5, LevelCode(DEPTH, 5), k) && Placed(code, 406, Ins(RET), k) && Placed(code, 412, Ins(HALT), k)
    ensures Stops(code, AfterError(tries), Finished, [VInt(1002)])
  {
    hide LevelCode, Placed, Reaches, Stops, Ins, BehindTwo, InMain, AfterError;
    LevelWithin(code, k, DEPTH, 5, 2);
    LevelPlaced(code, 2, 80, k);
    HandlerRuns(code, k, tries);
    var left := Up(code, k, DEPTH, 5, tries[..15] + [TryFrame(106, 1, 2)]);
    MainReturns(code, k, left);
    var behind := BehindTwo(136, tries[..15] + [TryFrame(106, 1, 2)]);
    ReachesStops(code, behind, BehindTwo(406, left), Finished, [VInt(1002)]);
    ReachesStops(code, AfterError(tries), behind, Finished, [VInt(1002)]);
  }

  /** Sixteen handlers are open and the machine is at the seventeenth OP_TRY. */
  lemma AllOpen(code: seq<byte>, k: Targets, n: byte) returns (tries: seq<TryFrame>)
    requires n == 17 && Placed(code, 5, LevelCode(n, 5), k)
    ensures |tries| == 16 && tries[15] == TryFrame(124, 0, 2) && Placed(code, 85, Ins(TRY(106)), k)
    ensures Reaches(code, InMain(5, []), InMain(85, tries))
  {
    hide LevelCode, Placed, Reaches, Opened, Ins, InMain;
    Down(code, k, n, 5, []);
    LastOpened(n, 5);
    LevelPlaced(code, 1, 85, k);
    tries := Opened(n, 5);
    assert [] + tries == tries;
  }

  lemma NestedStops()
    ensures VmStops(ProgramBytes(NESTED), Init(), Finished, [VInt(1002)])
  {
    hide ProgramBytes, ProgramTargets, LevelCode, Placed, Reaches, Stops, Turn, Ins, VmStops, Init, InMain, AfterError;
    var code, k := ProgramBytes(NESTED), ProgramTargets(NESTED);
    NestedPlaced();
    var tries := AllOpen(code, k, DEPTH);
    Seventeenth(code, k, tries);
    Aftermath(code, k, tries);
    ReachesOn(code, Init(), InMain(5, []), InMain(85, tries));
    ThreeRuns(code, Init(), InMain(85, tries), AfterError(tries), Finished, [VInt(1002)]);
  }

  lemma NoForwardCalls()
    ensures FewForwardCalls(NESTED)
  {
    assert Sites(FunsCode(NESTED, 0, AllSignatures(NESTED)), 0, CallHole(MAIN_NAME)) == [];
  }

  /** The seventeenth handler breaks this program: it means to print 100, and the output of the compiler,
      run by vm_run, prints 1002. */
  lemma SeventeenthHandlerBreaks()
    ensures WithinLimits(NESTED) && RunProgram(NESTED, 0) == Ends(Finished, [VInt(100)])
    ensures var r := Compile(PrintProgram(NESTED)); r.Compiled? && VmStops(r.code, Init(), Finished, [VInt(1002)])
  {
    hide *;
    NestedNames();
    NestedPlaced();
    NestedStops();
    NestedMeans();
    NoForwardCalls();
    NestedLimits();
    CompilePrinted(NESTED);
    Matches(Compile(PrintProgram(NESTED)), ProgramBytes(NESTED));
  }

  lemma {:induction false} RunVmStays(code: seq<byte>, vm: Vm, n: nat, m: nat)
    requires RunVm(code, vm, n).Stop?
    ensures RunVm(code, vm, n + m) == RunVm(code, vm, n)
    decreases n
  {
    hide Turn;
    if Turn(code, vm).Next? {
      RunVmStays(code, Turn(code, vm).vm, n - 1, m);
    }
  }

  lemma VmStopsOnce(code: seq<byte>, vm: Vm, why: Halt, out: seq<Value>, out': seq<Value>)
    requires VmStops(code, vm, why, out) && VmStops(code, vm, why, out')
    ensures out == out'
  {
    hide Turn, RunVm;
    var n: nat :| RunVm(code, vm, n) == Stop(why, out);
    var m: nat :| RunVm(code, vm, m) == Stop(why, out');
    RunVmStays(code, vm, n, m);
    RunVmStays(code, vm, m, n);
  }

  /** It is the handlers that it lacks. */
  lemma NestedLacksHandlers()
    ensures !EnoughHandlers(NESTED)
  {
    hide *;
    SeventeenthHandlerBreaks();
    if EnoughHandlers(NESTED) {
      CompilerAndMachineAreCorrect(NESTED, Finished, [VInt(100)]);
      VmStopsOnce(Compile(PrintProgram(NESTED)).code, Init(), Finished, [VInt(100)], [VInt(1002)]);
      assert false;
    }
  }

  lemma NestedLimits()
    requires OkProgram(NESTED) && Fits(NESTED) && NoNatives(NESTED) && FewForwardCalls(NESTED)
    ensures WithinLimits(NESTED)
  {
    hide OkProgram, Fits, NoNatives, FewForwardCalls;
  }
}
