/** A program that the compiler accepts and that stops with a type error: main prints true < false. */
module Mixed {
  import opened Bytes
  import opened Values
  import opened Machine
  import opened Syntax
  import opened Semantics
  import opened CodeGen
  import opened Emission
  import opened Tokens
  import opened Parsing
  import opened Printing
  import opened Pratt
  import opened Shapes
  import opened Statements
  import opened Compilation
  import opened Runs
  import opened Simulation
  import opened EndToEnd
  import opened Forward
  import opened Crowded
  import opened Acceptance

  const COMPARE: Expr := Bin(Below, BoolLit(true), BoolLit(false))

  const SHOW: Stmt := Print(COMPARE)

  const BODY: Block := Then(SHOW, End)

  const SHOW_FUN: Fun := Fun(MAIN_NAME, [], TVoid, BODY)

  const MIXED: Program := [SHOW_FUN]

  lemma MixedNames()
    ensures DistinctNames(MIXED) && NoNatives(MIXED) && ParamsFit(MIXED)
    ensures Defines(MIXED, MAIN_NAME) && IndexOf(MIXED, MAIN_NAME) == 0
    ensures ParamScope([]) == []
  {
    assert MIXED[0].name == MAIN_NAME;
  }

  // ----- it is accepted -----

  lemma CompareParsed(st: State, rest: Tokens, sg: Signatures)
    requires Prepared(st, sg) && st.types == [] && st.toks == ExprThen(COMPARE, PREC_OR, rest) && Calm(rest, PREC_OR)
    ensures Expression(st) == Infixes(Parsed(st, COMPARE, Last(COMPARE, PREC_OR), rest, sg), PREC_ASSIGNMENT)
  {
    hide Emitted, WfOutput, Table, ExprThen, BareThen, ParsePrecedence, GenOperator, Infixes, Last, ExprCode, PushType, TopType,
      PopType;
    CompareTokens(rest);
    var st2 := LeftParsed(st, COMPARE, PREC_ASSIGNMENT, rest, sg);
    var st3 := RightParsed(st, st2, COMPARE, rest, sg);
    BinaryDone(st, st3, COMPARE, sg);
  }

  lemma CompareTokens(rest: Tokens)
    ensures ExprThen(COMPARE, PREC_OR, rest) == BareThen(COMPARE, rest) && Level(COMPARE) == PREC_COMPARISON
    ensures LastBare(COMPARE) == Last(COMPARE, PREC_OR)
  {}

  lemma ShowParsed(st: State, cx: Context, rest: Tokens)
    requires AtStmt(st, cx, 0) && st.toks == BlockThen(BODY, rest)
    ensures BlockRule(st) == BlockParsed(st, BODY, Token(RBRACKET, LINE), rest, cx.sg)
  {
    hide Emitted, WfOutput, Table, ExprThen, Parsing.Statements, Statement, Infixes, Last, Expression, ExprCode, AtStmt, StmtCode,
      Cont, StmtScope, StmtType, BlockScope, BlockType, BlockCode;
    var more := On(RBRACKET, rest);
    var st1 := Advance(st);
    ShowTokens(rest);
    AtShow(st, st1, cx);
    CompareParsed(st1, On(BANG_BANG, On(SEMICOLON, more)), cx.sg);
    PrintParsed(st1, SHOW, cx, more);
    FirstOfStmt(SHOW, more);
    StatementsStep(st1, true);
    StatementsEnd(StmtParsed(st1, SHOW, LastOf(SHOW), more, cx.sg), false, rest);
    OneStatement(SHOW, st.locals, cx.sg, Here(st), Cont(st.out));
  }

  lemma ShowTokens(rest: Tokens)
    ensures BlockThen(BODY, rest) == On(LBRACKET, StmtThen(SHOW, On(RBRACKET, rest)))
    ensures StmtThen(SHOW, On(RBRACKET, rest)) == ExprThen(COMPARE, PREC_OR, On(BANG_BANG, On(SEMICOLON, On(RBRACKET, rest))))
  {
    hide ExprThen;
    assert StmtsThen(BODY, On(RBRACKET, rest)) == StmtThen(SHOW, StmtsThen(End, On(RBRACKET, rest)));
  }

  lemma AtShow(st: State, st1: State, cx: Context)
    requires AtStmt(st, cx, 0) && st1.out == st.out && st1.(toks := st.toks, prev := st.prev) == st
    ensures AtStmt(st1, cx, 0) && Prepared(st1, cx.sg) && st1.types == [] && Cont(st1.out) == Cont(st.out) && Here(st1) == Here(st)
  {}

  lemma ShowFits()
    ensures var sg := AllSignatures(MIXED);
      && BodyCode(SHOW_FUN, sg, 5) == Cat(ExprCode(COMPARE, []), Ins(PRINT)) && BlockType(BODY, [], sg) == TVoid
      && Size(FunsCode(MIXED, 1, sg)) == 12 && Fits(MIXED)
  {
    var sg := AllSignatures(MIXED);
    MixedNames();
    ShowCode(sg);
    FunsCons(MIXED, 0, sg);
    NoCodeYet(sg);
    hide *;
    SizeOfTwo(FunsCode(MIXED, 0, sg), FunCode(SHOW_FUN, sg, 0));
    ProgramSize(MIXED);
    EighteenFit();
  }

  lemma EighteenFit()
    requires |ProgramBytes(MIXED)| == 18
    ensures Fits(MIXED)
  {
    hide ProgramBytes;
  }

  lemma NoCodeYet(sg: Signatures)
    ensures FunsCode(MIXED, 0, sg) == Skip && Size(Skip) == 0
  {}

  lemma ShowCode(sg: Signatures)
    ensures BodyCode(SHOW_FUN, sg, 5) == Cat(ExprCode(COMPARE, []), Ins(PRINT)) && BlockType(BODY, [], sg) == TVoid
    ensures Size(FunCode(SHOW_FUN, sg, 0)) == 12
  {
    ShowBody(sg);
    CompareSize();
    Crowded.OneByte();
    hide ExprCode, Encode, BodyCode, Ins, Jump;
    var body := Cat(ExprCode(COMPARE, []), Ins(PRINT));
    SizeOfTwo(ExprCode(COMPARE, []), Ins(PRINT));
    SizeOfTwo(body, Ins(RET));
    SizeOfTwo(StoresCode(0), Cat(body, Ins(RET)));
    JumpIsFive(5 + 2 * 0 + Size(body) + 1);
    SizeOfTwo(Jump(5 + 2 * 0 + Size(body) + 1), Cat(StoresCode(0), Cat(body, Ins(RET))));
  }

  lemma JumpIsFive(target: nat)
    ensures Size(Jump(target)) == 5
  {
    FiveBytes(Narrow(target));
  }

  lemma ShowBody(sg: Signatures)
    ensures BodyCode(SHOW_FUN, sg, 5) == Cat(ExprCode(COMPARE, []), Ins(PRINT)) && BlockType(BODY, [], sg) == TVoid
  {
    hide ExprCode, Encode;
    assert ParamScope([]) == [];
    assert StmtCode(SHOW, [], sg, 5, 0) == Cat(ExprCode(COMPARE, []), Ins(PRINT));
  }

  lemma CompareSize()
    ensures Size(ExprCode(COMPARE, [])) == 5 && Size(Ins(PRINT)) == 1
  {
    var both := Cat(Ins(PUSH_BOOL(true)), Ins(PUSH_BOOL(false)));
    assert ExprCode(COMPARE, []) == Cat(both, Ins(OPER(LT)));
    assert Size(Ins(PUSH_BOOL(true))) == 2 && Size(Ins(PUSH_BOOL(false))) == 2;
    assert Size(Ins(OPER(LT))) == 1;
  }

  lemma FewCalls()
    ensures FewForwardCalls(MIXED)
  {
    assert Sites(FunsCode(MIXED, 0, AllSignatures(MIXED)), 0, CallHole(MAIN_NAME)) == [];
  }

  lemma MixedIsAccepted()
    ensures Compile(PrintProgram(MIXED)) == Compiled(ProgramBytes(MIXED))
  {
    var sg := AllSignatures(MIXED);
    MixedNames();
    ShowFits();
    FewCalls();
    var start := WithFunctions(PrintProgram(MIXED));
    hide AllSignatures, FunsCode, OutAfter, Fits, FewForwardCalls, EmittedBytes, ProgramBytes, TopLevel, Finish, Predeclared, NoNatives,
      BlockThen, IndexOf, Compilable;
    SmallIsCompilable(MIXED);
    FirstOutput(MIXED, sg);
    PredeclareFrom(Start(PrintProgram(MIXED)), MIXED, 0);
    MixedTopLevel(start, sg);
    FinishDone(TopLevel(start), MIXED, sg);
    EmittedIsFilled(MIXED);
  }

  lemma MixedTopLevel(st: State, sg: Signatures)
    requires Compilable(MIXED, sg) && BlockType(BODY, [], sg) == TVoid
    requires st == State(FunsThen(MIXED, 0), st.prev, [], [], Some(TVoid), OutAfter(MIXED, 0, sg), NoFault)
    ensures TopLevel(st) == st.(toks := Eof, prev := TopLevel(st).prev, out := OutAfter(MIXED, 1, sg))
  {
    hide FunctionDefinition, OutAfter, BlockThen, Compilable, GenStores, BehindHeader, AtStmt, BlockRule, BlockParsed, BlockType;
    var st1 := Advance(st);
    assert FunsThen(MIXED, 1) == Eof;
    assert st1.toks == HeaderThen(SHOW_FUN, BlockThen(BODY, Eof));
    var at := GenStores(BehindHeader(MIXED, 0, sg, Eof), 0);
    BodyReached(MIXED, 0, sg, Eof);
    FewerBreaks(at, BodyContext(SHOW_FUN, sg), Breaks(BODY), 0);
    ShowParsed(at, BodyContext(SHOW_FUN, sg), Eof);
    assert ParamScope([]) == [];
    FinishFunction(st1, MIXED, 0, sg, Eof);
    assert TopLevel(st) == TopLevel(FunctionDefinition(st1));
  }

  // ----- it stops with a type error -----

  const LT_ERROR: Value := VErr(TypeError(LT))

  /** main entered with this operand stack, at this address. */
  function InMain(at: nat, stack: seq<Value>): Vm {
    Init().(ip := at, frames := [-1, 17], stack := stack)
  }

  lemma MixedStops()
    ensures VmStops(ProgramBytes(MIXED), Init(), Uncaught(LT_ERROR), [])
  {
    var code, k, sg := ProgramBytes(MIXED), ProgramTargets(MIXED), AllSignatures(MIXED);
    MixedPlaced();
    var main := Init().(ip := 12);
    hide ProgramBytes, AllSignatures, ProgramTargets, FunsCode, Placed, Reaches, Stops, Step, Decode;
    SkipFunctions(code, MIXED, 1, sg, k, Init());
    MixedSteps(code, k);
    ReachesOn(code, Init(), main, InMain(5, []));
    ReachesOn(code, Init(), InMain(5, []), InMain(7, [VBool(true)]));
    ReachesOn(code, Init(), InMain(7, [VBool(true)]), InMain(9, [VBool(true), VBool(false)]));
    ReachesStops(code, Init(), InMain(9, [VBool(true), VBool(false)]), Uncaught(LT_ERROR), []);
    StopsForVm(code, Uncaught(LT_ERROR), []);
  }

  lemma StopsForVm(code: seq<byte>, why: Halt, out: seq<Value>)
    requires Stops(code, Init(), why, out) && why != TryOverflow && why != NoFrameLeft
    ensures VmStops(code, Init(), why, out)
  {
    hide Step, Turn, Init;
    var n: nat :| Run(code, Init(), n) == Stop(why, out);
    RunsAgree(code, Init(), n);
  }

  lemma MixedPlaced()
    ensures var code, k, sg := ProgramBytes(MIXED), ProgramTargets(MIXED), AllSignatures(MIXED);
      && |code| == 18 && Placed(code, 0, FunsCode(MIXED, 1, sg), k) && Size(FunsCode(MIXED, 1, sg)) == 12
      && Placed(code, 5, Ins(PUSH_BOOL(true)), k) && Placed(code, 7, Ins(PUSH_BOOL(false)), k) && Placed(code, 9, Ins(OPER(LT)), k)
      && Placed(code, 12, Ins(CALL(5)), k)
  {
    var code, k, sg := ProgramBytes(MIXED), ProgramTargets(MIXED), AllSignatures(MIXED);
    ShowFits();
    ShowCode(sg);
    ProgramSize(MIXED);
    hide AllSignatures, FunsCode, FunCode, Placed, Flat, Encode, CodeAt, ProgramCode, ProgramTargets;
    BytesAre();
    WholeCode(code);
    FlatIsPlaced(code, 0, ProgramCode(MIXED), k);
    CodeIs();
    ProgramParts(code, 0, FunsCode(MIXED, 1, sg), Ins(HALT), k);
    FunIsPlaced(code, MIXED, 1, 0, sg, k);
    NoCodeYet(sg);
    FunParts(code, SHOW_FUN, sg, 0, k);
    CompareParts(code, k);
    MainAddress(sg);
    CallIs(code, k);
  }

  lemma BytesAre()
    ensures ProgramBytes(MIXED) == Flat(ProgramCode(MIXED), ProgramTargets(MIXED))
  {
    hide Flat, ProgramCode, ProgramTargets;
  }

  lemma CodeIs()
    ensures ProgramCode(MIXED) == Cat(FunsCode(MIXED, 1, AllSignatures(MIXED)), Cat(CallTo(MAIN_NAME), Ins(HALT)))
  {
    hide FunsCode, AllSignatures;
  }

  lemma CompareParts(code: seq<byte>, k: Targets)
    requires Placed(code, 5, Cat(ExprCode(COMPARE, []), Ins(PRINT)), k)
    ensures Placed(code, 5, Ins(PUSH_BOOL(true)), k) && Placed(code, 7, Ins(PUSH_BOOL(false)), k) && Placed(code, 9, Ins(OPER(LT)), k)
  {
    assert Size(Ins(PUSH_BOOL(true))) == 2 && Size(Ins(PUSH_BOOL(false))) == 2;
    assert ExprCode(COMPARE, []) == Cat(Cat(Ins(PUSH_BOOL(true)), Ins(PUSH_BOOL(false))), Ins(OPER(LT)));
    hide Placed, Encode;
    PlacedCat(code, 5, ExprCode(COMPARE, []), Ins(PRINT), k);
    PlacedCat(code, 5, Cat(Ins(PUSH_BOOL(true)), Ins(PUSH_BOOL(false))), Ins(OPER(LT)), k);
    PlacedCat(code, 5, Ins(PUSH_BOOL(true)), Ins(PUSH_BOOL(false)), k);
  }

  lemma MainAddress(sg: Signatures)
    requires sg == AllSignatures(MIXED)
    ensures CallTarget(ProgramTargets(MIXED).addrs, MAIN_NAME) == 5
  {
    hide FunCode;
    MixedNames();
    EntryIsKnown(MIXED, 1, 0, sg);
    NoCodeYet(sg);
  }

  lemma CallIs(code: seq<byte>, k: Targets)
    requires Placed(code, 12, CallTo(MAIN_NAME), k) && CallTarget(k.addrs, MAIN_NAME) == 5
    ensures Placed(code, 12, Ins(CALL(5)), k)
  {
    hide Encode;
  }

  lemma MixedSteps(code: seq<byte>, k: Targets)
    requires |code| == 18
    requires Placed(code, 5, Ins(PUSH_BOOL(true)), k) && Placed(code, 7, Ins(PUSH_BOOL(false)), k) && Placed(code, 9, Ins(OPER(LT)), k)
    requires Placed(code, 12, Ins(CALL(5)), k)
    ensures Reaches(code, Init().(ip := 12), InMain(5, [])) && Reaches(code, InMain(5, []), InMain(7, [VBool(true)]))
    ensures Reaches(code, InMain(7, [VBool(true)]), InMain(9, [VBool(true), VBool(false)]))
    ensures Stops(code, InMain(9, [VBool(true), VBool(false)]), Uncaught(LT_ERROR), [])
  {
    hide Reaches, Stops, Passes, Placed, Decode;
    FetchIns(code, 12, CALL(5), k);
    FetchIns(code, 5, PUSH_BOOL(true), k);
    FetchIns(code, 7, PUSH_BOOL(false), k);
    FetchIns(code, 9, OPER(LT), k);
    StepPasses(code, Init().(ip := 12), InMain(5, []));
    PassesReaches(code, Init().(ip := 12), InMain(5, []));
    StepPasses(code, InMain(5, []), InMain(7, [VBool(true)]));
    PassesReaches(code, InMain(5, []), InMain(7, [VBool(true)]));
    StepPasses(code, InMain(7, [VBool(true)]), InMain(9, [VBool(true), VBool(false)]));
    PassesReaches(code, InMain(7, [VBool(true)]), InMain(9, [VBool(true), VBool(false)]));
    StepStops(code, InMain(9, [VBool(true), VBool(false)]), Uncaught(LT_ERROR), []);
  }

  /** The rule on ordered comparisons cannot be dropped: this program breaks it, the compiler accepts the
      program all the same, and vm_run stops it with a type error. */
  lemma OrderRuleIsNeeded()
    ensures !FitExpr(COMPARE, [], AllSignatures(MIXED)) && !FitProgram(MIXED)
    ensures var r := Compile(PrintProgram(MIXED)); r.Compiled? && VmStops(r.code, Init(), Uncaught(LT_ERROR), [])
  {
    RuleIsBroken();
    hide *;
    MixedIsAccepted();
    MixedStops();
  }

  lemma RuleIsBroken()
    ensures !FitExpr(COMPARE, [], AllSignatures(MIXED)) && !FitProgram(MIXED)
  {
    var sg := AllSignatures(MIXED);
    hide AllSignatures, IndexOf, BlockDefinite;
    assert ParamScope([]) == [];
    assert !FitStmt(SHOW, BodyContext(SHOW_FUN, sg), [], false);
    assert !FitFun(MIXED[0], sg);
  }
}
