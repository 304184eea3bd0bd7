/** The meaning of programs: a big-step semantics over named variables. Fuel bounds the
    number of calls and loop turns in a row, so that running out of it means "not yet
    finished"; the room says how much of the machine's three fixed stacks is in use. */
module Semantics {
  import opened Values
  import opened Machine
  import opened Syntax

  /** Assigned variables of the running function. */
  type Store = map<Name, Value>

  /** Operand stack height, live frames, live try blocks; limited says that TRY_STACK_MAX of them are all
      there can be. The language has no such limit, but vm_run has. */
  datatype Room = Room(height: nat, frames: nat, tries: nat, limited: bool)

  /** Outcome of an expression. The value of a call to a void function is None. */
  datatype ExprOutcome =
    | Yields(value: Option<Value>, out: seq<Value>)
    | Raised(v: Value, out: seq<Value>)
    | Halted(why: Halt, out: seq<Value>)
    | Unassigned
    | OutOfFuel

  datatype ArgsOutcome =
    | Ready(values: seq<Value>, out: seq<Value>)
    | NotReady(o: ExprOutcome)

  /** Outcome of a statement; a statement may leave a value, which the enclosing block
      discards unless it is the last. */
  datatype Outcome =
    | Normal(store: Store, value: Option<Value>, out: seq<Value>)
    | Broke(store: Store, out: seq<Value>)
    | Continued(store: Store, out: seq<Value>)
    | Returned(result: Value, out: seq<Value>)
    | Threw(v: Value, store: Store, out: seq<Value>)
    | Stopped(why: Halt, out: seq<Value>)
    | Unspecified
    | Timeout

  function Before(out: seq<Value>, o: ExprOutcome): ExprOutcome {
    match o
    case Yields(v, more) => Yields(v, out + more)
    case Raised(v, more) => Raised(v, out + more)
    case Halted(w, more) => Halted(w, out + more)
    case _ => o
  }

  function After(out: seq<Value>, o: Outcome): Outcome {
    match o
    case Normal(st, v, more) => Normal(st, v, out + more)
    case Broke(st, more) => Broke(st, out + more)
    case Continued(st, more) => Continued(st, out + more)
    case Returned(v, more) => Returned(v, out + more)
    case Threw(v, st, more) => Threw(v, st, out + more)
    case Stopped(w, more) => Stopped(w, out + more)
    case _ => o
  }

  /** A value that is about to be pushed at the given height. */
  function Pushed(v: Value, height: nat): ExprOutcome {
    if height >= STACK_MAX then Halted(StackOverflow, []) else Yields(Some(v), [])
  }

  function OfResult(r: OpResult): ExprOutcome {
    match r
    case Gives(v) => Yields(Some(v), [])
    case Raises(m) => Raised(VErr(m), [])
    case Overflows => Halted(QuotientOverflow, [])
    case Undefined => Halted(UndefinedBehaviour, [])
  }

  function MachineOp(op: BinOp): Operator {
    match op
    case Plus => ADD case Less => SUB case Times => MUL case Over => DIV case Percent => MOD
    case Equal => EQ case NotEqual => EQ
    case Below => LT case Above => GT case AtMost => LTE case AtLeast => GTE
    case Both => AND case Either => OR
  }

  /** Both operands of && and || are evaluated. */
  function BinaryResult(op: BinOp, a: Value, b: Value): OpResult {
    if op == NotEqual then Gives(VBool(!ValuesEqual(a, b))) else Binary(MachineOp(op), a, b)
  }

  function UnaryResult(op: UnOp, a: Value): OpResult {
    Unary(if op == Minus then NEG else NOT, a)
  }

  function Restrict(st: Store, names: set<Name>): (r: Store)
    ensures r.Keys == st.Keys * names
    ensures forall x :: x in r ==> r[x] == st[x]
  {
    map x | x in st && x in names :: st[x]
  }

  /** The store of a callee: its parameters in order. */
  function Bind(ps: seq<Param>, vs: seq<Value>): Store
    requires |ps| == |vs|
    decreases |ps|
  {
    if ps == [] then map[]
    else Bind(ps[..|ps| - 1], vs[..|vs| - 1])[ps[|ps| - 1].name := vs[|vs| - 1]]
  }

  // ----- expressions -----

  function EvalExpr(p: Program, e: Expr, st: Store, room: Room, fuel: nat): ExprOutcome
    decreases fuel, e, 0
  {
    match e
    case IntLit(n) => Pushed(VInt(n), room.height)
    case BoolLit(b) => Pushed(VBool(b), room.height)
    case Var(x) => if x in st then Pushed(st[x], room.height) else Unassigned
    case Un(op, e1) =>
      (match EvalExpr(p, e1, st, room, fuel)
       case Yields(Some(v), out) => Before(out, OfResult(UnaryResult(op, v)))
       case o => o)
    case Bin(op, l, r) =>
      (match EvalExpr(p, l, st, room, fuel)
       case Yields(Some(a), out) =>
         Before(out, match EvalExpr(p, r, st, room.(height := room.height + 1), fuel)
                     case Yields(Some(b), out') => Before(out', OfResult(BinaryResult(op, a, b)))
                     case o => o)
       case o => o)
    case Call(f, args) =>
      match EvalArgs(p, args, st, room, fuel)
      case NotReady(o) => o
      case Ready(vs, out) =>
        Before(out, if fuel == 0 then OutOfFuel else Invoke(p, f, vs, room, fuel - 1))
  }

  function EvalArgs(p: Program, args: Args, st: Store, room: Room, fuel: nat): ArgsOutcome
    decreases fuel, args, 0
  {
    match args
    case NoArgs => Ready([], [])
    case Arg(e, rest) =>
      match EvalExpr(p, e, st, room, fuel)
      case Yields(Some(v), out) =>
        (match EvalArgs(p, rest, st, room.(height := room.height + 1), fuel)
         case Ready(vs, out') => Ready([v] + vs, out + out')
         case NotReady(o) => NotReady(Before(out, o)))
      case o => NotReady(o)
  }

  /** A call with evaluated arguments, the fuel for it already taken off. Its own frame may not fit; its body may return,
      fall off the end, throw, or stop the machine. */
  function Invoke(p: Program, f: Name, vs: seq<Value>, room: Room, fuel: nat): ExprOutcome
    decreases fuel
  {
    if !Defines(p, f) || |p[IndexOf(p, f)].params| != |vs| then Unassigned
    else if room.frames >= FRAMES_MAX then Raised(VErr(FrameOverflow), [])
    else
      var callee := p[IndexOf(p, f)];
      OfBody(ExecBlock(p, callee.body, Bind(callee.params, vs), room.(frames := room.frames + 1), fuel))
  }

  function OfBody(o: Outcome): ExprOutcome {
    match o
    case Normal(_, v, out) => Yields(v, out)
    case Returned(v, out) => Yields(Some(v), out)
    case Threw(v, _, out) => Raised(v, out)
    case Stopped(why, out) => Halted(why, out)
    case Timeout => OutOfFuel
    case _ => Unassigned
  }

  // ----- statements -----

  function OfExpr(o: ExprOutcome, st: Store): Outcome {
    match o
    case Yields(v, out) => Normal(st, v, out)
    case Raised(v, out) => Threw(v, st, out)
    case Halted(why, out) => Stopped(why, out)
    case Unassigned => Unspecified
    case OutOfFuel => Timeout
  }

  function ExecStmt(p: Program, s: Stmt, st: Store, room: Room, fuel: nat): Outcome
    decreases fuel, s, 1
  {
    match s
    case Eval(e) => OfExpr(EvalExpr(p, e, st, room, fuel), st)
    case Assign(e, x, _) =>
      (match EvalExpr(p, e, st, room, fuel)
       case Yields(Some(v), out) => Normal(st[x := v], None, out)
       case o => OfExpr(o, st))
    case Print(e) =>
      (match EvalExpr(p, e, st, room, fuel)
       case Yields(Some(v), out) => Normal(st, None, out + [v])
       case o => OfExpr(o, st))
    case If(c, t) =>
      (match EvalExpr(p, c, st, room, fuel)
       case Yields(Some(v), out) =>
         After(out, if Truthy(v) then NoValue(ExecBlock(p, t, st, room, fuel)) else Normal(st, None, []))
       case o => OfExpr(o, st))
    case IfElse(c, t, f) =>
      (match EvalExpr(p, c, st, room, fuel)
       case Yields(Some(v), out) => After(out, ExecBlock(p, if Truthy(v) then t else f, st, room, fuel))
       case o => OfExpr(o, st))
    case While(c, b) =>
      (match EvalExpr(p, c, st, room, fuel)
       case Yields(Some(v), out) =>
         After(out,
           if !Truthy(v) then Normal(st, None, [])
           else AfterBody(p, s, st, room, fuel, ExecBlock(p, b, st, room, fuel)))
       case o => OfExpr(o, st))
    case Break => Broke(st, [])
    case Continue => Continued(st, [])
    case Return(e) =>
      (match EvalExpr(p, e, st, room, fuel)
       case Yields(Some(v), out) => Returned(v, out)
       case o => OfExpr(o, st))
    case Throw(e) =>
      (match EvalExpr(p, e, st, room, fuel)
       case Yields(Some(v), out) => Threw(v, st, out)
       case o => OfExpr(o, st))
    case Try(b, x, h) =>
      if room.limited && room.tries >= TRY_STACK_MAX then Stopped(TryOverflow, [])
      else AfterTry(p, s, st, room, fuel, ExecBlock(p, b, st, room.(tries := room.tries + 1), fuel))
  }

  /** The statement leaves no value whatever its block did. */
  function NoValue(o: Outcome): Outcome {
    if o.Normal? then o.(value := None) else o
  }

  /** At the end of a handler its error variable goes out of scope. */
  function Forget(x: Name, o: Outcome): Outcome {
    if o.Normal? then Normal(Restrict(o.store, o.store.Keys - {x}), None, o.out) else o
  }

  /** A loop whose body ended with outcome o. A further turn costs one unit of fuel and
      starts with the variables that were assigned before the loop. */
  function AfterBody(p: Program, s: Stmt, st: Store, room: Room, fuel: nat, o: Outcome): Outcome
    requires s.While?
    decreases fuel, s, 0
  {
    match o
    case Normal(st', _, out) => After(out, ExecAgain(p, s, Restrict(st', st.Keys), room, fuel))
    case Continued(st', out) => After(out, ExecAgain(p, s, Restrict(st', st.Keys), room, fuel))
    case Broke(st', out) => Normal(Restrict(st', st.Keys), None, out)
    case _ => o
  }

  function ExecAgain(p: Program, s: Stmt, st: Store, room: Room, fuel: nat): Outcome
    requires s.While?
    decreases fuel, s, -1
  {
    if fuel == 0 then Timeout else ExecStmt(p, s, st, room, fuel - 1)
  }

  /** A try statement whose body ended with outcome o. */
  function AfterTry(p: Program, s: Stmt, st: Store, room: Room, fuel: nat, o: Outcome): Outcome
    requires s.Try?
    decreases fuel, s, 0
  {
    match o
    case Normal(st', _, out) => Normal(st', None, out)
    case Threw(v, st', out) =>
      After(out,
        if room.height >= STACK_MAX then Stopped(StackOverflow, [])
        else Forget(s.err, ExecBlock(p, s.handler, Restrict(st', st.Keys)[s.err := v], room, fuel)))
    case _ => o
  }

  function ExecBlock(p: Program, b: Block, st: Store, room: Room, fuel: nat): Outcome
    decreases fuel, b, 1
  {
    match b
    case End => Normal(st, None, [])
    case Then(s, rest) =>
      match ExecStmt(p, s, st, room, fuel)
      case Normal(st', v, out) =>
        if rest == End then Normal(st', v, out)
        else After(out, ExecBlock(p, rest, st', room, fuel))
      case o => o
  }

  // ----- whole programs -----

  /** The observable end of a program run. */
  datatype Behaviour = Ends(why: Halt, out: seq<Value>) | Unknown | Running

  /** What the program means: main is called from the top-level frame with empty stacks, and try blocks
      nest without a limit. */
  function RunProgram(p: Program, fuel: nat): Behaviour {
    RunMain(p, false, fuel)
  }

  /** With at most TRY_STACK_MAX live try blocks, or without a limit. */
  function RunMain(p: Program, limited: bool, fuel: nat): Behaviour {
    match Invoke(p, MAIN_NAME, [], Room(0, 1, 0, limited), fuel)
    case Yields(_, out) => Ends(Finished, out)
    case Raised(v, out) => Ends(Uncaught(v), out)
    case Halted(why, out) => Ends(why, out)
    case Unassigned => Unknown
    case OutOfFuel => Running
  }
}
