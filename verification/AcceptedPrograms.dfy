/** A program is well typed exactly when it obeys the rules that the compiler leaves to the programmer
    and the compiler accepts it; such a program never meets a type error. */
module AcceptedPrograms {
  import opened Bytes
  import opened Values
  import opened Machine
  import opened Syntax
  import opened Semantics
  import opened Soundness
  import opened CodeGen
  import opened Emission
  import opened Tokens
  import opened Parsing
  import opened Printing
  import opened Pratt
  import opened Shapes
  import opened Statements
  import opened Compilation
  import opened Runs
  import opened EndToEnd
  import opened Handlers
  import opened Forward
  import opened Correctness
  import opened Acceptance

  // ----- functions -----

  lemma BodyTable(p: Program, n: nat, sg: Signatures, rest: Tokens)
    requires n < |p| && Compilable(p, sg)
    ensures Exact(GenStores(BehindHeader(p, n, sg, rest), |p[n].params|).out.funcs, sg)
  {
    hide Emitted, Encode, WfOutput, Table, Put, BlockThen, GenStores, Defined, Entry, AtStmt, Breaks, StoresCode, AllSignatures;
    CompilableParams(p, n, sg);
    DefinedIsWf(p, n, sg);
    DefinedTable(p, n, sg);
    DefinedBase(p, n, sg);
    var o := Defined(p, n, sg);
    BodyStarts(BehindHeader(p, n, sg, rest), p[n], sg, o, rest);
    forall i | 0 <= i < |o.funcs|
      ensures o.funcs[i].name in sg
    {
      DefinedLength(p, n, sg);
      DefinedEntry(p, n, i, sg);
      assert Defines(p, p[i].name);
    }
    var o1 := Emitted(o, Ins(JUMP(0)));
    EmitKeepsTable(o, Ins(JUMP(0)));
    SameNames(o.funcs, o1.funcs, sg);
    EmitKeepsTable(o1, StoresCode(|p[n].params|));
    SameNames(o1.funcs, Emitted(o1, StoresCode(|p[n].params|)).funcs, sg);
  }

  /** The body of a function that obeys the rules, and that parse_function accepts, has the declared type. */
  lemma AcceptedBody(p: Program, n: nat, sg: Signatures, rest: Tokens)
    requires n < |p| && Compilable(p, sg) && PlainParams(sg) && FitFun(p[n], sg)
    requires FunctionBody(BehindHeader(p, n, sg, rest), |p[n].params|, Some(p[n].ret)).st.fault == NoFault
    ensures OkFun(p[n], sg)
  {
    hide Compilable, GenStores, FitBlock, OkBlock, BlockRule, AtStmt, Exact, PlainParams, Breaks, BlockThen, BlockScope, BlockType,
      Emitted, BlockCode, BehindHeader;
    var f := p[n];
    var st1 := GenStores(BehindHeader(p, n, sg, rest), |f.params|);
    var cx := BodyContext(f, sg);
    BodyReached(p, n, sg, rest);
    BodyTable(p, n, sg, rest);
    FewerBreaks(st1, cx, Breaks(f.body), 0);
    AcceptedBlock(st1, f.body, cx, rest);
    ParseBlock(st1, f.body, cx, rest);
  }

  /** parse_function accepts a function that obeys the rules only if it is well formed. */
  lemma AcceptedFunction(st: State, p: Program, n: nat, sg: Signatures, rest: Tokens)
    requires n < |p| && Compilable(p, sg) && PlainParams(sg) && FitFun(p[n], sg)
    requires st == State(HeaderThen(p[n], BlockThen(p[n].body, rest)), st.prev, [], [], Some(TVoid), OutAfter(p, n, sg), NoFault)
    requires FunctionDefinition(st).fault == NoFault
    ensures OkFun(p[n], sg)
  {
    hide Compilable, FitFun, OkFun, PlainParams, BehindHeader, HeaderThen, BlockThen, OutAfter, FunctionBody, FunctionDefinition,
      SetReturn, PatchTo;
    ReachBody(st, p, n, sg, rest);
    AcceptedBody(p, n, sg, rest);
  }

  lemma {:induction false} AcceptedFunctions(st: State, p: Program, n: nat, sg: Signatures)
    requires n <= |p| && Compilable(p, sg) && PlainParams(sg) && forall i :: n <= i < |p| ==> FitFun(p[i], sg)
    requires st == State(FunsThen(p, n), st.prev, [], [], Some(TVoid), OutAfter(p, n, sg), NoFault)
    requires TopLevel(st).fault == NoFault
    ensures forall i :: n <= i < |p| ==> OkFun(p[i], sg)
    decreases |p| - n
  {
    hide FunctionDefinition, OutAfter, BlockThen, ParamsThen, Compilable, OkFun, FitFun, PlainParams;
    if n < |p| {
      var rest := FunsThen(p, n + 1);
      var st1 := Advance(st);
      assert st1.toks == HeaderThen(p[n], BlockThen(p[n].body, rest));
      var st2 := FunctionDefinition(st1);
      assert TopLevel(st) == TopLevel(st2);
      AcceptedFunction(st1, p, n, sg, rest);
      ParseFunction(st1, p, n, sg, rest);
      AcceptedFunctions(st2, p, n + 1, sg);
    }
  }

  // ----- programs -----

  lemma FitParams(p: Program)
    requires FitProgram(p)
    ensures ParamsFit(p) && PlainParams(AllSignatures(p))
    ensures forall i :: 0 <= i < |p| ==> FitFun(p[i], AllSignatures(p))
  {
    hide FitBlock, BlockDefinite, IndexOf, DistinctNames;
    var sg := AllSignatures(p);
    forall f | f in sg
      ensures forall i :: 0 <= i < |sg[f].params| ==> sg[f].params[i] == TInt || sg[f].params[i] == TBool
    {
      assert FitFun(p[IndexOf(p, f)], sg);
    }
  }

  /** compiler_compile accepts a printed program that obeys the rules only if it is well typed. */
  lemma AcceptedIsOk(p: Program)
    requires FitProgram(p) && Fits(p) && NoNatives(p) && Compile(PrintProgram(p)).Compiled?
    ensures OkProgram(p)
  {
    hide FitFun, OkFun, Fits, NoNatives, OutAfter, Predeclared, TopLevel, FunsThen, AllSignatures, PlainParams, BlockDefinite, IndexOf,
      Compilable;
    var sg := AllSignatures(p);
    FitParams(p);
    SmallIsCompilable(p);
    FirstOutput(p, sg);
    PredeclareFrom(Start(PrintProgram(p)), p, 0);
    AcceptedFunctions(WithFunctions(PrintProgram(p)), p, 0, sg);
  }

  // ----- a well-typed program obeys the rules -----

  lemma {:induction false} OkExprFits(e: Expr, env: Scope, sg: Signatures, depth: nat)
    requires OkExpr(e, env, sg, depth)
    ensures FitExpr(e, env, sg)
    decreases e
  {
    match e
    case Un(_, e1) => OkExprFits(e1, env, sg, depth);
    case Bin(_, l, r) =>
      OkExprFits(l, env, sg, depth);
      OkExprFits(r, env, sg, depth + 1);
    case Call(f, args) => OkArgsFit(args, env, sg, sg[f].params, depth);
    case _ =>
  }

  lemma {:induction false} OkArgsFit(args: Args, env: Scope, sg: Signatures, params: seq<Type>, depth: nat)
    requires OkArgs(args, env, sg, params, depth)
    ensures FitArgs(args, env, sg)
    decreases args
  {
    if args.Arg? {
      OkExprFits(args.first, env, sg, depth);
      OkArgsFit(args.others, env, sg, params[1..], depth);
    }
  }

  lemma {:induction false} OkStmtFits(s: Stmt, cx: Context, env: Scope, looped: bool)
    requires OkStmt(s, cx, env)
    ensures FitStmt(s, cx, env, looped)
    decreases s
  {
    hide OkExpr, FitExpr, BlockScope, BlockType, TypeOf, StmtType, Breaks, Known, OkBlock, FitBlock;
    match s
    case Eval(e) => OkExprFits(e, env, cx.sg, 0);
    case Assign(e, _, _) => OkExprFits(e, env, cx.sg, 0);
    case Print(e) => OkExprFits(e, env, cx.sg, 0);
    case If(c, t) =>
      OkExprFits(c, env, cx.sg, 0);
      OkBlockFits(t, cx, env, looped);
    case IfElse(c, t, f) =>
      OkExprFits(c, env, cx.sg, 0);
      OkBlockFits(t, cx, env, looped);
      OkBlockFits(f, cx, BlockScope(t, env, cx.sg), looped);
    case While(c, b) =>
      OkExprFits(c, env, cx.sg, 0);
      OkBlockFits(b, cx.(mayBreak := true), env, true);
    case Return(e) => OkExprFits(e, env, cx.sg, 0);
    case Throw(e) => OkExprFits(e, env, cx.sg, 0);
    case Try(b, x, h) =>
      OkBlockFits(b, cx.(mayBreak := false, mayReturn := false), env, looped);
      OkBlockFits(h, cx, BlockScope(b, env, cx.sg) + [Local(x, TAny)], looped);
    case _ =>
  }

  lemma {:induction false} OkBlockFits(b: Block, cx: Context, env: Scope, looped: bool)
    requires OkBlock(b, cx, env)
    ensures FitBlock(b, cx, env, looped)
    decreases b
  {
    hide OkStmt, FitStmt, StmtScope;
    if b.Then? {
      OkStmtFits(b.s, cx, env, looped);
      OkBlockFits(b.rest, cx, StmtScope(b.s, env, cx.sg), looped);
    }
  }

  lemma OkIsFit(p: Program)
    requires OkProgram(p)
    ensures FitProgram(p)
  {
    hide OkBlock, FitBlock, BlockDefinite, IndexOf, AllSignatures, DistinctNames;
    var sg := AllSignatures(p);
    forall i | 0 <= i < |p|
      ensures FitFun(p[i], sg)
    {
      assert OkFun(p[i], sg);
      OkBlockFits(p[i].body, BodyContext(p[i], sg), ParamScope(p[i].params), false);
    }
  }

  // ----- main results -----

  /** The checks of the compiler are exactly what is missing: among the programs that obey the rules it
      does not check, it accepts the well-typed ones and no others. */
  lemma WellTypedIffAccepted(p: Program)
    requires Fits(p) && NoNatives(p)
    ensures OkProgram(p) <==> FitProgram(p) && Compile(PrintProgram(p)).Compiled?
  {
    hide OkProgram, FitProgram, Fits, NoNatives, Compile, PrintProgram;
    if OkProgram(p) {
      OkIsFit(p);
      CompileEmits(p);
    }
    if FitProgram(p) && Compile(PrintProgram(p)).Compiled? {
      AcceptedIsOk(p);
    }
  }

  /** No run of an accepted program that obeys the rules meets a type error. */
  lemma AcceptedProgramsAreSafe(p: Program, fuel: nat)
    requires FitProgram(p) && Fits(p) && NoNatives(p) && Compile(PrintProgram(p)).Compiled?
    ensures var b := RunProgram(p, fuel);
      && !b.Unknown?
      && (b.Ends? ==> b.why.Finished? || (b.why.Uncaught? && Clean(b.why.v)) || b.why == StackOverflow || b.why == QuotientOverflow)
  {
    hide OkProgram, FitProgram, Fits, NoNatives, Compile, PrintProgram, RunMain, Clean;
    AcceptedIsOk(p);
    WellTypedPrograms(p, false, fuel);
    NoLimitNoOverflow(p, fuel);
  }

  /** vm_run on the output of the compiler ends by finishing, by an exception that is no type error, or
      for want of stack or of a quotient; it never underflows or decodes a wrong byte. */
  lemma AcceptedCodeIsSafe(p: Program, why: Halt, out: seq<Value>)
    requires FitProgram(p) && Fits(p) && NoNatives(p) && FewForwardCalls(p) && EnoughHandlers(p)
    requires var r := Compile(PrintProgram(p)); r.Compiled? && VmStops(r.code, Init(), why, out)
    ensures why.Finished? || (why.Uncaught? && Clean(why.v)) || why == StackOverflow || why == QuotientOverflow
  {
    hide OkProgram, FitProgram, Fits, NoNatives, FewForwardCalls, EnoughHandlers, VmStops, RunProgram, Compile, PrintProgram, Init,
      Clean;
    AcceptedIsOk(p);
    CompilerAndMachineAreCorrect(p, why, out);
    var fuel: nat :| RunProgram(p, fuel) == Ends(why, out);
    AcceptedProgramsAreSafe(p, fuel);
  }
}
