/** How many handlers a program can have open at once: a bound that can be read off its text. */
module Handlers {
  import opened Bytes
  import opened Values
  import opened Machine
  import opened Syntax
  import opened Semantics
  import opened Soundness
  import opened CodeGen
  import opened Runs
  import opened EndToEnd

  /** For each function, how many handlers its calls may need. */
  type Bounds = map<Name, nat>

  function Need(d: Bounds, f: Name): nat {
    if f in d then d[f] else 0
  }

  function Max(a: nat, b: nat): nat {
    if a < b then b else a
  }

  // ----- the bound of a tree: its own try blocks around the bounds of the functions it calls -----

  function ExprTries(e: Expr, d: Bounds): nat {
    match e
    case Un(_, e1) => ExprTries(e1, d)
    case Bin(_, l, r) => Max(ExprTries(l, d), ExprTries(r, d))
    case Call(f, args) => Max(Need(d, f), ArgsTries(args, d))
    case _ => 0
  }

  function ArgsTries(args: Args, d: Bounds): nat {
    match args
    case NoArgs => 0
    case Arg(e, rest) => Max(ExprTries(e, d), ArgsTries(rest, d))
  }

  function StmtTries(s: Stmt, d: Bounds): nat {
    match s
    case Eval(e) => ExprTries(e, d)
    case Assign(e, _, _) => ExprTries(e, d)
    case Print(e) => ExprTries(e, d)
    case If(c, t) => Max(ExprTries(c, d), BlockTries(t, d))
    case IfElse(c, t, f) => Max(ExprTries(c, d), Max(BlockTries(t, d), BlockTries(f, d)))
    case While(c, b) => Max(ExprTries(c, d), BlockTries(b, d))
    case Return(e) => ExprTries(e, d)
    case Throw(e) => ExprTries(e, d)
    case Try(b, _, h) => Max(1 + BlockTries(b, d), BlockTries(h, d))
    case _ => 0
  }

  function BlockTries(b: Block, d: Bounds): nat {
    match b
    case End => 0
    case Then(s, rest) => Max(StmtTries(s, d), BlockTries(rest, d))
  }

  /** d bounds every function. A recursive call inside a try block has no bound. */
  predicate Bounded(p: Program, d: Bounds) {
    forall i | 0 <= i < |p| :: BlockTries(p[i].body, d) <= Need(d, p[i].name)
  }

  /** No chain of calls nests more than sixteen try blocks. */
  predicate NestsFewTries(p: Program, d: Bounds) {
    Bounded(p, d) && Need(d, MAIN_NAME) <= TRY_STACK_MAX
  }

  // ----- the bound is kept by every run -----

  /** There is room for n more handlers. */
  predicate RoomFor(p: Program, room: Room, n: nat, d: Bounds) {
    room.limited ==> Bounded(p, d) && room.tries + n <= TRY_STACK_MAX
  }

  predicate ExprFine(o: ExprOutcome) {
    o.Halted? ==> o.why != TryOverflow
  }

  predicate Fine(o: Outcome) {
    o.Stopped? ==> o.why != TryOverflow
  }

  lemma {:induction false} ExprNests(p: Program, e: Expr, st: Store, room: Room, fuel: nat, d: Bounds)
    requires RoomFor(p, room, ExprTries(e, d), d)
    ensures ExprFine(EvalExpr(p, e, st, room, fuel))
    decreases fuel, e, 0
  {
    hide Bounded, UnaryResult, BinaryResult, Invoke;
    match e
    case Un(_, e1) => ExprNests(p, e1, st, room, fuel, d);
    case Bin(_, l, r) =>
      ExprNests(p, l, st, room, fuel, d);
      ExprNests(p, r, st, room.(height := room.height + 1), fuel, d);
    case Call(f, args) =>
      ArgsNest(p, args, st, room, fuel, d);
      var vs := EvalArgs(p, args, st, room, fuel);
      if vs.Ready? && fuel > 0 {
        InvokeNests(p, f, vs.values, room, fuel - 1, d);
      }
    case _ =>
  }

  lemma {:induction false} ArgsNest(p: Program, args: Args, st: Store, room: Room, fuel: nat, d: Bounds)
    requires RoomFor(p, room, ArgsTries(args, d), d)
    ensures var o := EvalArgs(p, args, st, room, fuel); o.NotReady? ==> ExprFine(o.o)
    decreases fuel, args, 0
  {
    hide Bounded, EvalExpr;
    match args
    case NoArgs =>
    case Arg(e, rest) =>
      ExprNests(p, e, st, room, fuel, d);
      ArgsNest(p, rest, st, room.(height := room.height + 1), fuel, d);
  }

  lemma {:induction false} InvokeNests(p: Program, f: Name, vs: seq<Value>, room: Room, fuel: nat, d: Bounds)
    requires RoomFor(p, room, Need(d, f), d)
    ensures ExprFine(Invoke(p, f, vs, room, fuel))
    decreases fuel
  {
    hide ExecBlock, BlockTries;
    if Defines(p, f) && |p[IndexOf(p, f)].params| == |vs| && room.frames < FRAMES_MAX {
      var callee := p[IndexOf(p, f)];
      BlockNests(p, callee.body, Bind(callee.params, vs), room.(frames := room.frames + 1), fuel, d);
    }
  }

  lemma {:induction false} StmtNests(p: Program, s: Stmt, st: Store, room: Room, fuel: nat, d: Bounds)
    requires RoomFor(p, room, StmtTries(s, d), d)
    ensures Fine(ExecStmt(p, s, st, room, fuel))
    decreases fuel, s, 1
  {
    hide Bounded, EvalExpr, ExecBlock, AfterBody, AfterTry, ExprTries, BlockTries;
    match s
    case Eval(e) => ExprNests(p, e, st, room, fuel, d);
    case Assign(e, _, _) => ExprNests(p, e, st, room, fuel, d);
    case Print(e) => ExprNests(p, e, st, room, fuel, d);
    case If(c, t) =>
      ExprNests(p, c, st, room, fuel, d);
      BlockNests(p, t, st, room, fuel, d);
    case IfElse(c, t, f) =>
      ExprNests(p, c, st, room, fuel, d);
      BlockNests(p, t, st, room, fuel, d);
      BlockNests(p, f, st, room, fuel, d);
    case While(c, b) =>
      ExprNests(p, c, st, room, fuel, d);
      BlockNests(p, b, st, room, fuel, d);
      LoopNests(p, s, st, room, fuel, ExecBlock(p, b, st, room, fuel), d);
    case Return(e) => ExprNests(p, e, st, room, fuel, d);
    case Throw(e) => ExprNests(p, e, st, room, fuel, d);
    case Try(b, x, h) =>
      if !room.limited || room.tries < TRY_STACK_MAX {
        var inner := room.(tries := room.tries + 1);
        BlockNests(p, b, st, inner, fuel, d);
        TryNests(p, s, st, room, fuel, ExecBlock(p, b, st, inner, fuel), d);
      }
    case _ =>
  }

  lemma {:induction false} LoopNests(p: Program, s: Stmt, st: Store, room: Room, fuel: nat, o: Outcome, d: Bounds)
    requires s.While? && RoomFor(p, room, StmtTries(s, d), d) && Fine(o)
    ensures Fine(AfterBody(p, s, st, room, fuel, o))
    decreases fuel, s, 0
  {
    hide Bounded, ExecStmt, StmtTries;
    if (o.Normal? || o.Continued?) && fuel > 0 {
      StmtNests(p, s, Restrict(o.store, st.Keys), room, fuel - 1, d);
    }
  }

  lemma {:induction false} TryNests(p: Program, s: Stmt, st: Store, room: Room, fuel: nat, o: Outcome, d: Bounds)
    requires s.Try? && RoomFor(p, room, StmtTries(s, d), d) && Fine(o)
    ensures Fine(AfterTry(p, s, st, room, fuel, o))
    decreases fuel, s, 0
  {
    hide Bounded, ExecBlock, BlockTries;
    if o.Threw? && room.height < STACK_MAX {
      BlockNests(p, s.handler, Restrict(o.store, st.Keys)[s.err := o.v], room, fuel, d);
    }
  }

  lemma {:induction false} BlockNests(p: Program, b: Block, st: Store, room: Room, fuel: nat, d: Bounds)
    requires RoomFor(p, room, BlockTries(b, d), d)
    ensures Fine(ExecBlock(p, b, st, room, fuel))
    decreases fuel, b, 1
  {
    hide Bounded, ExecStmt, StmtTries;
    match b
    case End =>
    case Then(s, rest) =>
      StmtNests(p, s, st, room, fuel, d);
      var o := ExecStmt(p, s, st, room, fuel);
      if o.Normal? {
        BlockNests(p, rest, o.store, room, fuel, d);
      }
  }

  /** A program whose text nests at most sixteen try blocks never runs out of handlers. */
  lemma FewTriesAreEnough(p: Program, d: Bounds)
    requires NestsFewTries(p, d)
    ensures EnoughHandlers(p)
  {
    hide Invoke, Bounded;
    forall fuel: nat | RunMain(p, true, fuel).Ends?
      ensures RunMain(p, true, fuel).why != TryOverflow
    {
      InvokeNests(p, MAIN_NAME, [], Room(0, 1, 0, true), fuel, d);
    }
  }

  /** The language has no limit on try blocks. */
  lemma NoLimitNoOverflow(p: Program, fuel: nat)
    ensures RunProgram(p, fuel).Ends? ==> RunProgram(p, fuel).why != TryOverflow
  {
    hide Invoke;
    InvokeNests(p, MAIN_NAME, [], Room(0, 1, 0, false), fuel, map[]);
  }

  lemma FreeRunGoesOn(p: Program, n: nat)
    requires OkProgram(p) && Fits(p)
    ensures RunVm(ProgramBytes(p), Boot(false), n) == Run(ProgramBytes(p), Boot(false), n)
  {
    hide RunMain, ProgramBytes, OkProgram, Step, Run, RunVm, Boot, Clean;
    var r := Run(ProgramBytes(p), Boot(false), n);
    CompiledCodeIsSafe(p, false, n);
    if r.Stop? && r.why == TryOverflow {
      assert Stops(ProgramBytes(p), Boot(false), TryOverflow, r.out);
      CompiledCodeIsCorrect(p, false, TryOverflow, r.out);
      var fuel: nat :| RunMain(p, false, fuel) == Ends(TryOverflow, r.out);
      NoLimitNoOverflow(p, fuel);
    }
    RunsAgree(ProgramBytes(p), Boot(false), n);
  }

  /** Without its limit on handlers vm_run does what the program means, for every program. */
  lemma FreeVmIsCorrect(p: Program, why: Halt, out: seq<Value>)
    requires OkProgram(p) && Fits(p)
    ensures VmStops(ProgramBytes(p), Boot(false), why, out) <==> exists fuel: nat :: RunProgram(p, fuel) == Ends(why, out)
  {
    hide RunMain, ProgramBytes, OkProgram, Run, RunVm, Boot;
    CompiledCodeIsCorrect(p, false, why, out);
    if n: nat :| RunVm(ProgramBytes(p), Boot(false), n) == Stop(why, out) {
      FreeRunGoesOn(p, n);
      assert Stops(ProgramBytes(p), Boot(false), why, out);
      var fuel: nat :| RunMain(p, false, fuel) == Ends(why, out);
      assert RunProgram(p, fuel) == Ends(why, out);
    }
    if fuel: nat :| RunProgram(p, fuel) == Ends(why, out) {
      assert RunMain(p, false, fuel) == Ends(why, out);
      var n: nat :| Run(ProgramBytes(p), Boot(false), n) == Stop(why, out);
      FreeRunGoesOn(p, n);
      assert RunVm(ProgramBytes(p), Boot(false), n) == Stop(why, out);
    }
  }
}
