/** Parsing inverts printing for statements and blocks, and emits the code of the tree. */
module Statements {
  import opened Bytes
  import opened Values
  import opened Machine
  import opened Syntax
  import opened Semantics
  import opened Soundness
  import opened CodeGen
  import opened Emission
  import opened Tokens
  import opened Parsing
  import opened Printing
  import Grammar
  import opened Pratt
  import opened Shapes

  /** Where a continue jumps to: the condition of the innermost loop. */
  function Cont(o: Output): int32 {
    if o.loops == [] then 0 else Narrow(o.loops[|o.loops| - 1].start)
  }

  function BreaksSoFar(o: Output): nat {
    if o.loops == [] then 0 else |o.loops[|o.loops| - 1].breaks|
  }

  /** The compiler is at the start of a statement in context cx; breaks is how many more breaks
      of the innermost loop will be recorded. */
  predicate AtStmt(st: State, cx: Context, breaks: nat) {
    && Prepared(st, cx.sg) && st.types == [] && |st.locals| <= LOCALS_PER_FRAME
    && st.ret == Some(cx.ret)
    && (cx.mayBreak ==> st.out.loops != [])
    && (st.out.loops != [] ==> BreaksSoFar(st.out) + breaks <= BREAKS_MAX)
  }

  function StmtParsed(st: State, s: Stmt, last: Token, rest: Tokens, sg: Signatures): State {
    State(rest, last, [StmtType(s, st.locals, sg)], StmtScope(s, st.locals, sg), st.ret,
          Emitted(st.out, StmtCode(s, st.locals, sg, Here(st), Cont(st.out))), st.fault)
  }

  function BlockParsed(st: State, b: Block, last: Token, rest: Tokens, sg: Signatures): State {
    State(rest, last, [BlockType(b, st.locals, sg)], BlockScope(b, st.locals, sg), st.ret,
          Emitted(st.out, BlockCode(b, st.locals, sg, Here(st), Cont(st.out))), st.fault)
  }

  /** The last token of a printed statement. */
  function LastOf(s: Stmt): Token {
    Token(if s.Try? then RBRACKET else SEMICOLON, LINE)
  }

  // ----- what emission keeps -----

  lemma EmittedKeeps(o: Output, c: Code)
    ensures Cont(Emitted(o, c)) == Cont(o) && |Emitted(o, c).loops| == |o.loops|
    ensures o.loops != [] ==> BreaksSoFar(Emitted(o, c)) == BreaksSoFar(o) + |Sites(c, |o.code|, BreakHole)|
  {}

  lemma {:induction false} ExprHasNoBreaks(e: Expr, env: Scope, at: nat)
    ensures Sites(ExprCode(e, env), at, BreakHole) == []
    decreases e
  {
    hide Encode, SlotOf;
    match e
    case Un(_, e1) => ExprHasNoBreaks(e1, env, at);
    case Bin(op, l, r) =>
      ExprHasNoBreaks(l, env, at);
      ExprHasNoBreaks(r, env, at + Size(ExprCode(l, env)));
      var both := Cat(ExprCode(l, env), ExprCode(r, env));
      assert Sites(both, at, BreakHole) == [];
      assert Sites(OpCode(op), at + Size(both), BreakHole) == [];
    case Call(_, args) => ArgsHaveNoBreaks(args, env, at);
    case _ =>
  }

  lemma {:induction false} ArgsHaveNoBreaks(args: Args, env: Scope, at: nat)
    ensures Sites(ArgsCode(args, env), at, BreakHole) == []
    decreases args
  {
    if args.Arg? {
      ExprHasNoBreaks(args.first, env, at);
      ArgsHaveNoBreaks(args.others, env, at + Size(ExprCode(args.first, env)));
    }
  }

  lemma CondHasNoBreaks(c: Expr, env: Scope, sg: Signatures, at: nat)
    ensures Sites(CondCode(c, env, sg), at, BreakHole) == []
  {
    hide ExprCode, TypeOf, Encode;
    ExprHasNoBreaks(c, env, at);
  }

  lemma SitesCat(a: Code, b: Code, at: nat)
    ensures |Sites(Cat(a, b), at, BreakHole)| == |Sites(a, at, BreakHole)| + |Sites(b, at + Size(a), BreakHole)|
  {
    hide Sites, Size;
    SitesOfCat(a, b, at, BreakHole);
    LengthOfCat(Sites(a, at, BreakHole), Sites(b, at + Size(a), BreakHole));
  }

  lemma SitesOfCat(a: Code, b: Code, at: nat, h: Hole)
    ensures Sites(Cat(a, b), at, h) == Sites(a, at, h) + Sites(b, at + Size(a), h)
  {
    hide Size;
  }

  lemma LengthOfCat(a: seq<nat>, b: seq<nat>)
    ensures |a + b| == |a| + |b|
  {}

  lemma SitesIf(cc: Code, ct: Code, end: nat, at: nat)
    ensures |Sites(IfShape(cc, ct, end), at, BreakHole)|
         == |Sites(cc, at, BreakHole)| + |Sites(ct, at + Size(Cat(cc, JumpIfFalse(end))), BreakHole)|
  {
    hide Encode;
    SitesCat(Cat(cc, JumpIfFalse(end)), Cat(ct, Jump(end)), at);
    SitesCat(cc, JumpIfFalse(end), at);
    SitesCat(ct, Jump(end), at + Size(Cat(cc, JumpIfFalse(end))));
  }

  lemma SitesIfElse(cc: Code, ct: Code, cf: Code, elseAt: nat, at: nat) returns (i: nat, j: nat)
    ensures |Sites(IfElseShape(cc, ct, cf, elseAt), at, BreakHole)|
         == |Sites(cc, at, BreakHole)| + |Sites(ct, i, BreakHole)| + |Sites(cf, j, BreakHole)|
  {
    hide Encode;
    var test, jump := Cat(cc, JumpIfFalse(elseAt)), Jump(elseAt + Size(cf));
    i := at + Size(test);
    j := at + Size(Cat(test, Cat(ct, jump)));
    SitesCat(Cat(test, Cat(ct, jump)), cf, at);
    SitesCat(test, Cat(ct, jump), at);
    SitesCat(cc, JumpIfFalse(elseAt), at);
    SitesCat(ct, jump, i);
  }

  lemma SitesWhile(cc: Code, cb: Code, start: nat, end: nat, at: nat)
    ensures |Sites(WhileShape(cc, cb, start, end), at, BreakHole)| == |Sites(cc, at, BreakHole)|
  {
    hide Encode;
    var test, loop := Cat(cc, JumpIfFalse(end)), Within(Narrow(end), cb);
    SitesCat(test, Cat(loop, Jump(start)), at);
    SitesCat(cc, JumpIfFalse(end), at);
    SitesCat(loop, Jump(start), at + Size(test));
  }

  lemma SitesTry(cb: Code, slot: nat, ch: Code, catchAt: nat, at: nat) returns (i: nat, j: nat)
    ensures |Sites(TryShape(cb, slot, ch, catchAt), at, BreakHole)| == |Sites(cb, i, BreakHole)| + |Sites(ch, j, BreakHole)|
  {
    hide Encode;
    var guard, leave := Ins(TRY(Narrow(catchAt))), Cat(Ins(END_TRY), Jump(catchAt + 2 + Size(ch)));
    var first := Cat(guard, Cat(cb, leave));
    i := at + Size(guard);
    j := at + Size(first) + Size(StoreIn(slot));
    SitesCat(first, Cat(StoreIn(slot), ch), at);
    SitesCat(guard, Cat(cb, leave), at);
    SitesCat(cb, leave, i);
    SitesCat(Ins(END_TRY), Jump(catchAt + 2 + Size(ch)), i + Size(cb));
    SitesCat(StoreIn(slot), ch, at + Size(first));
  }

  /** A statement records one patch for each of its breaks that leaves the surrounding loop. */
  lemma {:induction false} StmtSites(s: Stmt, env: Scope, sg: Signatures, base: nat, cont: int32, at: nat)
    ensures |Sites(StmtCode(s, env, sg, base, cont), at, BreakHole)| == StmtBreaks(s)
    decreases s
  {
    hide Encode, ExprCode, BlockCode, CondCode, BlockScope, IfShape, IfElseShape, WhileShape, TryShape, Breaks, Narrow,
      TypeOf, SlotOf, StoreIn, Size, Jump, JumpIfFalse;
    match s
    case If(c, t) =>
      var cc := CondCode(c, env, sg);
      var ct := BlockCode(t, env, sg, base + Size(cc) + 5, cont);
      var end := base + Size(cc) + 5 + Size(ct) + 5;
      SitesIf(cc, ct, end, at);
      CondHasNoBreaks(c, env, sg, at);
      BlockSites(t, env, sg, base + Size(cc) + 5, cont, at + Size(Cat(cc, JumpIfFalse(end))));
    case IfElse(c, t, f) =>
      var cc := CondCode(c, env, sg);
      var ct := BlockCode(t, env, sg, base + Size(cc) + 5, cont);
      var elseBase := base + Size(cc) + 5 + Size(ct) + 5;
      var cf := BlockCode(f, BlockScope(t, env, sg), sg, elseBase, cont);
      var i, j := SitesIfElse(cc, ct, cf, elseBase, at);
      CondHasNoBreaks(c, env, sg, at);
      BlockSites(t, env, sg, base + Size(cc) + 5, cont, i);
      BlockSites(f, BlockScope(t, env, sg), sg, elseBase, cont, j);
    case While(c, b) =>
      var cc := CondCode(c, env, sg);
      var cb := BlockCode(b, env, sg, base + Size(cc) + 5, Narrow(base));
      SitesWhile(cc, cb, base, base + Size(cc) + 5 + Size(cb) + 5, at);
      CondHasNoBreaks(c, env, sg, at);
    case Try(b, x, h) =>
      var env1 := BlockScope(b, env, sg);
      var cb := BlockCode(b, env, sg, base + 5, cont);
      var catchBase := base + 5 + Size(cb) + 6;
      var ch := BlockCode(h, env1 + [Local(x, TAny)], sg, catchBase + 2, cont);
      var i, j := SitesTry(cb, |env1|, ch, catchBase, at);
      BlockSites(b, env, sg, base + 5, cont, i);
      BlockSites(h, env1 + [Local(x, TAny)], sg, catchBase + 2, cont, j);
    case Break =>
    case Continue =>
    case _ => SimpleSites(s, env, sg, base, cont, at);
  }

  lemma SimpleSites(s: Stmt, env: Scope, sg: Signatures, base: nat, cont: int32, at: nat)
    requires s.Eval? || s.Assign? || s.Print? || s.Return? || s.Throw?
    ensures Sites(StmtCode(s, env, sg, base, cont), at, BreakHole) == []
  {
    hide Encode, ExprCode, TypeOf, SlotOf;
    ExprHasNoBreaks(s.e, env, at);
  }

  lemma {:induction false} BlockSites(b: Block, env: Scope, sg: Signatures, base: nat, cont: int32, at: nat)
    ensures |Sites(BlockCode(b, env, sg, base, cont), at, BreakHole)| == Breaks(b)
    decreases b
  {
    hide Encode, StmtCode, StmtBreaks, StmtScope, StmtType, Size, PopCode;
    match b
    case End =>
    case Then(s, rest) =>
      StmtSites(s, env, sg, base, cont, at);
      if rest != End {
        var cs, cp := StmtCode(s, env, sg, base, cont), PopCode(s, env, sg);
        var cr := BlockCode(rest, StmtScope(s, env, sg), sg, base + Size(cs) + Size(cp), cont);
        SitesCat(Cat(cs, cp), cr, at);
        SitesCat(cs, cp, at);
        PopHasNoBreaks(s, env, sg, at + Size(cs));
        BlockSites(rest, StmtScope(s, env, sg), sg, base + Size(cs) + Size(cp), cont, at + Size(Cat(cs, cp)));
      }
  }

  lemma PopHasNoBreaks(s: Stmt, env: Scope, sg: Signatures, at: nat)
    ensures Sites(PopCode(s, env, sg), at, BreakHole) == []
  {
    hide StmtType, Encode;
  }

  // ----- simple statements -----

  predicate Given(st: State, s: Stmt, cx: Context, rest: Tokens) {
    AtStmt(st, cx, StmtBreaks(s)) && OkStmt(s, cx, st.locals) && st.toks == StmtThen(s, rest)
  }

  predicate StartsStmt(k: Kind) {
    Grammar.StartsExpr(k) || k == DOT || k == DOT_DOT || k == HAT || k == KEY_THROW
  }

  lemma Dispatch(st: State)
    requires st.toks.Tok? && StartsStmt(st.toks.head.kind)
    ensures Statement(st) == FinishStatement(Expression(st), Here(st))
  {
    hide FinishStatement, Expression, TryStatement, PushType, Precedence, BinaryOf, Advance, Len, Here, Steady, CanEnd;
  }

  function AfterExpr(st: State, e: Expr, rest: Tokens, sg: Signatures): State {
    Parsed(st, e, Last(e, PREC_OR), rest, sg)
  }

  /** An expression at the start of a statement. */
  lemma ExprDone(st: State, e: Expr, cx: Context, breaks: nat, rest: Tokens)
    requires AtStmt(st, cx, breaks) && OkExpr(e, st.locals, cx.sg, 0)
    requires st.toks == ExprThen(e, PREC_OR, rest) && Calm(rest, PREC_OR)
    ensures var st1 := AfterExpr(st, e, rest, cx.sg);
      && Expression(st) == Infixes(st1, PREC_ASSIGNMENT)
      && st1.types == [TypeOf(e, st.locals, cx.sg)] && Prepared(st1, cx.sg) && st1.prev.line == LINE
      && (Precedence(rest.head.kind) == PREC_NONE ==> Expression(st) == st1)
    ensures st.toks.Tok? && st.toks.head.line == LINE && Grammar.StartsExpr(st.toks.head.kind)
  {
    hide OkExpr, ExprThen, ParsePrecedence, Emitted, Infixes, TypeOf, ExprCode, WfOutput, Table, Last;
    FirstToken(e, PREC_OR, rest);
    ParseExpr(st, e, PREC_OR, PREC_ASSIGNMENT, rest, cx.sg);
    var st1 := AfterExpr(st, e, rest, cx.sg);
    if Precedence(rest.head.kind) == PREC_NONE {
      InfixesStop(st1, PREC_ASSIGNMENT);
    }
    PreparedKept(st, st1, ExprCode(e, st.locals), cx.sg);
    LastLine(e, PREC_OR);
  }

  /** One more plain instruction after the code of a tree. */
  lemma ThenIns(o: Output, c: Code, i: Instr)
    requires WfOutput(Emitted(o, c))
    ensures Put(Emitted(o, c), Encode(i)) == Emitted(o, Cat(c, Ins(i)))
  {
    hide Emitted, Encode, WfOutput;
    EmitIns(Emitted(o, c), i);
    EmitCat(o, c, Ins(i));
  }

  lemma ParseEval(st: State, s: Stmt, cx: Context, rest: Tokens)
    requires s.Eval? && Given(st, s, cx, rest)
    ensures Statement(st) == StmtParsed(st, s, LastOf(s), rest, cx.sg)
  {
    hide OkExpr, ExprThen, Emitted, TypeOf, ExprCode, WfOutput, Table, Last, Expression, AtStmt, IfStatement, LoopStatement;
    ExprDone(st, s.e, cx, 0, On(SEMICOLON, rest));
    Dispatch(st);
    AtStmtKeeps(st, cx, 0);
  }

  lemma AtStmtKeeps(st: State, cx: Context, breaks: nat)
    requires AtStmt(st, cx, breaks)
    ensures st.types == [] && st.fault == NoFault && st.ret == Some(cx.ret) && |st.locals| <= LOCALS_PER_FRAME && WfOutput(st.out)
  {}

  /** The loop of parse_precedence takes the print operator. */
  lemma InfixPrint(st: State, rest: Tokens)
    requires st.toks == On(BANG_BANG, On(SEMICOLON, rest)) && st.prev.line == LINE
    ensures Infixes(st, PREC_ASSIGNMENT) == PrintOp(Advance(st))
  {
    hide PrintOp, BinaryRule, Assignment, Infix, Steady;
    var st2 := PrintOp(Advance(st));
    assert Infix(Advance(st)) == st2 by {
      PrintRule(Advance(st));
    }
    InfixesStop(st2, PREC_ASSIGNMENT);
  }

  lemma PrintRule(st: State)
    requires st.prev.kind == BANG_BANG
    ensures Infix(st) == PrintOp(st)
  {
    hide PrintOp, BinaryRule, Assignment;
  }

  lemma ParsePrint(st: State, s: Stmt, cx: Context, rest: Tokens)
    requires s.Print? && Given(st, s, cx, rest)
    ensures Statement(st) == StmtParsed(st, s, LastOf(s), rest, cx.sg)
  {
    hide OkExpr, ExprThen, Emitted, TypeOf, ExprCode, WfOutput, Table, Last, Expression, AtStmt, Infixes, Statement, StmtParsed;
    ExprDone(st, s.e, cx, 0, On(BANG_BANG, On(SEMICOLON, rest)));
    PrintParsed(st, s, cx, rest);
  }

  /** A print statement whose expression has been parsed. */
  lemma PrintParsed(st: State, s: Stmt, cx: Context, rest: Tokens)
    requires s.Print? && AtStmt(st, cx, 0) && st.toks == ExprThen(s.e, PREC_OR, On(BANG_BANG, On(SEMICOLON, rest)))
    requires Expression(st) == Infixes(AfterExpr(st, s.e, On(BANG_BANG, On(SEMICOLON, rest)), cx.sg), PREC_ASSIGNMENT)
    ensures Statement(st) == StmtParsed(st, s, LastOf(s), rest, cx.sg)
  {
    hide ExprThen, Emitted, TypeOf, ExprCode, WfOutput, Table, Last, Expression, AtStmt, IfStatement, LoopStatement,
      Infixes, Put, Encode, Ins;
    var after := On(BANG_BANG, On(SEMICOLON, rest));
    FirstToken(s.e, PREC_OR, after);
    LastLine(s.e, PREC_OR);
    Dispatch(st);
    AtStmtKeeps(st, cx, 0);
    Kept(st.out, ExprCode(s.e, st.locals));
    var st1 := AfterExpr(st, s.e, after, cx.sg);
    InfixPrint(st1, rest);
    ThenIns(st.out, ExprCode(s.e, st.locals), PRINT);
  }

  lemma InfixAssign(st: State, rest: Tokens)
    requires st.toks.Tok? && st.toks.head == Token(ASSIGN, LINE) && st.prev.line == LINE
    requires Precedence(Current(Assignment(Advance(st)))) == PREC_NONE
    ensures Infixes(st, PREC_ASSIGNMENT) == Assignment(Advance(st))
  {
    hide Assignment;
    assert Infixes(st, PREC_ASSIGNMENT) == Infixes(Assignment(Advance(st)), PREC_ASSIGNMENT);
  }

  lemma TypeNameParsed(st: State, t: Type, rest: Tokens)
    requires st.toks == On(ID(TypeName(t)), On(SEMICOLON, rest)) || st.toks == On(ID(TypeName(t)), On(COMMA, rest))
      || st.toks == On(ID(TypeName(t)), On(RANGLE, rest)) || st.toks == On(ID(TypeName(t)), On(COLON, rest))
    ensures ParseType(st) == TypeResult(Advance(st), t)
  {}

  lemma StoreToDone(st: State, x: Name, t: Type)
    requires st.fault == NoFault && st.types == [] && |st.locals| <= LOCALS_PER_FRAME
    ensures StoreTo(st, x, t) == st.(types := [TVoid], locals := Declare(st.locals, x, t),
                                     out := Put(st.out, Encode(STORE(SlotByte(SlotOf(st.locals, x))))))
  {
    hide Put, Encode, Resolve, SlotByte;
  }

  /** An assignment, with or without a declared type, after its arrow. */
  lemma AssignmentDone(st: State, s: Stmt, cx: Context, rest: Tokens, v: Type)
    requires s.Assign? && st.fault == NoFault && st.types == [v] && |st.locals| <= LOCALS_PER_FRAME
    requires st.toks == (if s.declared.None? then On(ID(s.x), On(SEMICOLON, rest))
                         else On(ID(s.x), On(COLON, On(ID(TypeName(s.declared.value)), On(SEMICOLON, rest)))))
    requires OkAssign(s.x, s.declared, v, st.locals)
    ensures var ty := if s.declared.Some? then s.declared.value else v;
      Assignment(st) == st.(toks := On(SEMICOLON, rest), types := [TVoid], locals := Declare(st.locals, s.x, ty),
                            prev := Assignment(st).prev, out := Put(st.out, Encode(STORE(SlotByte(SlotOf(st.locals, s.x))))))
  {
    hide Put, Encode, Resolve, StoreTo, Declare, SlotOf, ParseType;
    if s.declared.Some? {
      var st1 := Advance(Advance(st));
      TypeNameParsed(st1, s.declared.value, rest);
      StoreToDone(PopType(Advance(st1)), s.x, s.declared.value);
    } else {
      StoreToDone(PopType(Advance(st)), s.x, v);
    }
  }

  lemma ParseAssign(st: State, s: Stmt, cx: Context, rest: Tokens)
    requires s.Assign? && Given(st, s, cx, rest)
    ensures Statement(st) == StmtParsed(st, s, LastOf(s), rest, cx.sg)
  {
    hide OkExpr, ExprThen, Emitted, TypeOf, ExprCode, WfOutput, Table, Last, Expression, AtStmt, IfStatement, LoopStatement,
      Infixes, Put, Encode, Assignment, OkAssign, Declare, SlotOf;
    var after := On(ASSIGN, if s.declared.None? then On(ID(s.x), On(SEMICOLON, rest))
                            else On(ID(s.x), On(COLON, On(ID(TypeName(s.declared.value)), On(SEMICOLON, rest)))));
    AssignTokens(s, rest, after);
    ExprDone(st, s.e, cx, 0, after);
    Dispatch(st);
    AtStmtKeeps(st, cx, 0);
    var st1 := AfterExpr(st, s.e, after, cx.sg);
    AssignmentDone(Advance(st1), s, cx, rest, TypeOf(s.e, st.locals, cx.sg));
    InfixAssign(st1, rest);
    ThenIns(st.out, ExprCode(s.e, st.locals), STORE(SlotByte(SlotOf(st.locals, s.x))));
    StoreInIs(SlotOf(st.locals, s.x));
  }

  lemma StoreInIs(slot: nat)
    ensures StoreIn(slot) == Ins(STORE(SlotByte(slot)))
  {}

  lemma AssignTokens(s: Stmt, rest: Tokens, after: Tokens)
    requires s.Assign?
    requires after == On(ASSIGN, if s.declared.None? then On(ID(s.x), On(SEMICOLON, rest))
                                 else On(ID(s.x), On(COLON, On(ID(TypeName(s.declared.value)), On(SEMICOLON, rest)))))
    ensures StmtThen(s, rest) == ExprThen(s.e, PREC_OR, after)
  {
    hide ExprThen;
  }

  lemma PrefixRules(st: State)
    ensures st.prev.kind == DOT ==> Prefix(st) == BreakOp(st)
    ensures st.prev.kind == DOT_DOT ==> Prefix(st) == ContinueOp(st)
    ensures st.prev.kind == HAT ==> Prefix(st) == ReturnOp(st)
    ensures st.prev.kind == KEY_THROW ==> Prefix(st) == ThrowOp(st)
  {
    hide BreakOp, ContinueOp, ReturnOp, ThrowOp;
  }

  /** A prefix operator whose statement ends right after it. */
  lemma PrefixStatement(st: State, r: State, rest: Tokens)
    requires st.toks.Tok? && HasPrefix(st.toks.head.kind) && StartsStmt(st.toks.head.kind)
    requires r == Prefix(Advance(st)) && r.toks == On(SEMICOLON, rest)
    ensures Statement(st) == Advance(r)
  {
    hide Prefix, ParsePrecedence, IfStatement, LoopStatement;
    Dispatch(st);
    OnePrefix(st, PREC_ASSIGNMENT);
    InfixesStop(r, PREC_ASSIGNMENT);
  }

  lemma ParseBreak(st: State, s: Stmt, cx: Context, rest: Tokens)
    requires (s.Break? || s.Continue?) && Given(st, s, cx, rest)
    ensures Statement(st) == StmtParsed(st, s, LastOf(s), rest, cx.sg)
  {
    hide Emitted, WfOutput, Table, Encode, Statement, EmitBreak, Put, Narrow, Prefix;
    AtStmtKeeps(st, cx, StmtBreaks(s));
    var st1 := Advance(st);
    PrefixRules(st1);
    if s.Break? {
      EmitBreakIs(st.out);
    } else {
      EmitIns(st.out, JUMP(Cont(st.out)));
    }
    PrefixStatement(st, Prefix(st1), rest);
  }

  lemma PrefixTree(s: Stmt, cx: Context, env: Scope, base: nat, cont: int32, rest: Tokens)
    requires (s.Return? || s.Throw?) && OkStmt(s, cx, env)
    ensures OkExpr(s.e, env, cx.sg, 0) && (s.Return? ==> TypeOf(s.e, env, cx.sg) == cx.ret)
    ensures StmtThen(s, rest) == On(if s.Return? then HAT else KEY_THROW, ExprThen(s.e, PREC_OR, On(SEMICOLON, rest)))
    ensures StmtCode(s, env, cx.sg, base, cont) == Cat(ExprCode(s.e, env), Ins(if s.Return? then RET else THROW))
    ensures StmtScope(s, env, cx.sg) == env
    ensures StmtType(s, env, cx.sg) == (if s.Return? then TypeOf(s.e, env, cx.sg) else TVoid)
  {
    hide OkExpr, ExprThen, TypeOf, ExprCode, Encode;
  }

  /** return_op and throw_op after their keyword. */
  lemma PrefixDone(st: State, e: Expr, i: Instr, cx: Context, rest: Tokens)
    requires AtStmt(st, cx, 0) && OkExpr(e, st.locals, cx.sg, 0) && (i == RET || i == THROW) && st.prev.line == LINE
    requires st.toks == ExprThen(e, PREC_OR, On(SEMICOLON, rest)) && (i == RET ==> TypeOf(e, st.locals, cx.sg) == cx.ret)
    ensures (if i == RET then ReturnOp(st) else ThrowOp(st))
         == st.(toks := On(SEMICOLON, rest), prev := Last(e, PREC_OR), types := [if i == RET then cx.ret else TVoid],
                out := Emitted(st.out, Cat(ExprCode(e, st.locals), Ins(i))))
  {
    hide OkExpr, ExprThen, Emitted, TypeOf, ExprCode, WfOutput, Table, Last, Expression, Put, Encode, AtStmt;
    ExprDone(st, e, cx, 0, On(SEMICOLON, rest));
    AtStmtKeeps(st, cx, 0);
    ThenIns(st.out, ExprCode(e, st.locals), i);
  }

  lemma ParseReturn(st: State, s: Stmt, cx: Context, rest: Tokens)
    requires (s.Return? || s.Throw?) && Given(st, s, cx, rest)
    ensures Statement(st) == StmtParsed(st, s, LastOf(s), rest, cx.sg)
  {
    hide OkExpr, ExprThen, Emitted, TypeOf, ExprCode, WfOutput, Table, Last, Statement, Encode, ReturnOp, ThrowOp, OkStmt, StmtThen,
      StmtCode, StmtScope, StmtType, Ins, Prefix;
    PrefixTree(s, cx, st.locals, Here(st), Cont(st.out), rest);
    var st1 := Advance(st);
    var i := if s.Return? then RET else THROW;
    PrefixDone(st1, s.e, i, cx, rest);
    PrefixRules(st1);
    PrefixStatement(st, Prefix(st1), rest);
  }

  // ----- compound statements -----

  /** After the code of a tree the compiler is still at a statement of the same context. */
  lemma StillAt(st: State, r: State, cx: Context, c: Code, before: nat, now: nat)
    requires AtStmt(st, cx, before) && r.out == Emitted(st.out, c)
    requires r.fault == NoFault && r.types == [] && r.ret == st.ret && |r.locals| <= LOCALS_PER_FRAME
    requires |Sites(c, Here(st), BreakHole)| + now <= before
    ensures AtStmt(r, cx, now) && Cont(r.out) == Cont(st.out) && Here(r) == Here(st) + Size(c)
  {
    hide Emitted, WfOutput, Table, Sites;
    TableKept(st.out, c, cx.sg);
    EmittedKeeps(st.out, c);
    Kept(st.out, c);
  }

  lemma ConditionDone(st: State, c: Expr, cx: Context, rest: Tokens)
    requires AtStmt(st, cx, 0)
    ensures var st1 := AfterExpr(st, c, rest, cx.sg);
      Condition(st1) == st1.(types := [], out := Emitted(st.out, CondCode(c, st.locals, cx.sg)))
  {
    hide Emitted, WfOutput, Table, TypeOf, ExprCode, Put, Encode;
    var c1 := ExprCode(c, st.locals);
    Kept(st.out, c1);
    ThenIns(st.out, c1, IS_TRUTHY);
    assert ([] + [TypeOf(c, st.locals, cx.sg)])[..0] == [];
  }

  /** From the start of a statement with a condition to its body: the test has been emitted. */
  lemma TestDone(st: State, c: Expr, cx: Context, breaks: nat, k: Kind, body: Tokens) returns (st2: State)
    requires AtStmt(st, cx, breaks) && OkExpr(c, st.locals, cx.sg, 0) && (k == QUESTION || k == AT)
    requires st.toks == ExprThen(c, PREC_OR, On(k, body))
    ensures st2 == State(body, Token(k, LINE), [], st.locals, st.ret, Emitted(st.out, CondCode(c, st.locals, cx.sg)), NoFault)
    ensures Statement(st) == if k == QUESTION then IfStatement(st2) else LoopStatement(st2, Here(st))
  {
    hide OkExpr, ExprThen, Emitted, TypeOf, ExprCode, WfOutput, Table, Last, Expression, IfStatement, LoopStatement, Condition,
      CondCode, Statement;
    ExprDone(st, c, cx, breaks, On(k, body));
    Dispatch(st);
    ConditionDone(st, c, cx, On(k, body));
    st2 := Advance(Condition(AfterExpr(st, c, On(k, body), cx.sg)));
  }

  lemma IfDone(st: State, b: State, rest: Tokens)
    requires b == BlockOrStatement(Gen(st, JUMP_IF_F(0))) && b.fault == NoFault && |b.types| == 1
    requires b.toks == On(SEMICOLON, rest)
    ensures var o := Put(b.out, Encode(JUMP(0)));
      IfStatement(st) == b.(toks := rest, prev := Token(SEMICOLON, LINE), types := [TVoid],
                            out := PatchTo(PatchTo(o, Here(st) + 1, |o.code|), |b.out.code| + 1, |o.code|))
  {
    hide BlockOrStatement, Encode, Narrow, Patch;
  }

  lemma IfElseDone(st: State, b: State, mid: State, f: State, rest: Tokens)
    requires b == BlockOrStatement(Gen(st, JUMP_IF_F(0))) && b.fault == NoFault && |b.types| == 1
    requires b.toks == On(COLON, mid.toks)
    requires var o := Put(b.out, Encode(JUMP(0)));
      mid == State(mid.toks, Token(COLON, LINE), [], b.locals, b.ret, PatchTo(o, Here(st) + 1, |o.code|), NoFault)
    requires f == BlockOrStatement(mid) && f.fault == NoFault && |f.types| == 1 && f.toks == On(SEMICOLON, rest)
    ensures IfStatement(st) == f.(toks := rest, prev := Token(SEMICOLON, LINE), types := [Joined(b.types[0], f.types[0])],
                                  out := PatchTo(f.out, |b.out.code| + 1, |f.out.code|))
  {
    hide BlockOrStatement, Encode, Narrow, Patch, Joined;
  }

  lemma LoopDone(st: State, b: State, start: nat, rest: Tokens)
    requires b == BlockOrStatement(Gen(st.(out := PushLoop(st.out, start)), JUMP_IF_F(0))) && b.fault == NoFault && |b.types| == 1
    requires b.toks == On(SEMICOLON, rest) && b.out.loops != []
    ensures var o := Put(b.out, Encode(JUMP(Narrow(start))));
      LoopStatement(st, start) == b.(toks := rest, prev := Token(SEMICOLON, LINE), types := [TVoid],
                                     out := PopLoop(PatchTo(o, Here(st) + 1, |o.code|)))
  {
    hide BlockOrStatement, Encode, Narrow, Patch, PatchAll;
  }

  lemma TryDone(st: State, b: State)
    requires b == BlockRule(Gen(st, TRY(0))) && b.fault == NoFault && |b.types| == 1
    ensures var o := Put(Put(b.out, Encode(END_TRY)), Encode(JUMP(0)));
      TryStatement(st) == CatchClause(b.(types := [], out := PatchTo(o, Here(st) + 1, |o.code|)),
                                      |Put(b.out, Encode(END_TRY)).code| + 1)
  {
    hide BlockRule, Encode, PatchTo, CatchClause;
  }

  lemma CatchDone(st: State, mid: State, h: State, x: Name, leave: nat)
    requires st.fault == NoFault && st.types == [] && |st.locals| < 256 && st.toks == On(KEY_CATCH, On(ID(x), mid.toks))
    requires mid == State(mid.toks, Token(ID(x), LINE), [], st.locals + [Local(x, TAny)], st.ret,
                          Put(st.out, Encode(STORE(SlotByte(|st.locals|)))), NoFault)
    requires h == BlockRule(mid) && h.fault == NoFault && |h.types| == 1 && h.locals != []
    ensures CatchClause(st, leave) == h.(types := [TVoid], locals := h.locals[..|h.locals| - 1],
                                         out := PatchTo(h.out, leave, |h.out.code|))
  {
    hide BlockRule, Encode, PatchTo, SlotByte;
  }

  /** The parts of a well-formed compound statement are well formed. */
  lemma OkParts(s: Stmt, cx: Context, env: Scope)
    requires OkStmt(s, cx, env)
    ensures s.If? ==> OkExpr(s.cond, env, cx.sg, 0) && OkBlock(s.thn, cx, env)
    ensures s.IfElse? ==>
      OkExpr(s.cond, env, cx.sg, 0) && OkBlock(s.thn, cx, env) && OkBlock(s.els, cx, BlockScope(s.thn, env, cx.sg))
    ensures s.While? ==>
      OkExpr(s.cond, env, cx.sg, 0) && OkBlock(s.body, cx.(mayBreak := true), env) && Breaks(s.body) <= BREAKS_MAX
    ensures s.Try? ==>
      var env1 := BlockScope(s.body, env, cx.sg);
      && OkBlock(s.body, cx.(mayBreak := false, mayReturn := false), env)
      && OkBlock(s.handler, cx, env1 + [Local(s.err, TAny)]) && |env1| < LOCALS_PER_FRAME
      && BlockScope(s.handler, env1 + [Local(s.err, TAny)], cx.sg) == env1 + [Local(s.err, TAny)]
  {
    hide OkExpr, OkBlock, BlockScope, Breaks, BlockType, BlockCompletes, TypeOf, StmtType, Known;
  }

  lemma IfTree(s: Stmt, cx: Context, env: Scope, base: nat, cont: int32, rest: Tokens, at: nat, ct: Code, end: nat)
    requires s.If? && at == base + Size(CondCode(s.cond, env, cx.sg)) + 5
    requires ct == BlockCode(s.thn, env, cx.sg, at, cont) && end == at + Size(ct) + 5
    ensures StmtThen(s, rest) == ExprThen(s.cond, PREC_OR, On(QUESTION, BlockThen(s.thn, On(SEMICOLON, rest))))
    ensures StmtCode(s, env, cx.sg, base, cont) == IfShape(CondCode(s.cond, env, cx.sg), ct, end)
    ensures StmtScope(s, env, cx.sg) == BlockScope(s.thn, env, cx.sg) && StmtType(s, env, cx.sg) == TVoid
    ensures StmtBreaks(s) == Breaks(s.thn)
  {
    hide OkExpr, OkBlock, ExprThen, BlockThen, BlockCode, CondCode, IfShape, BlockScope, Breaks, Size, BlockType, BlockCompletes,
      TypeOf;
  }

  lemma NoSitesInTest(cc: Code, i: Instr, at: nat)
    requires Sites(cc, at, BreakHole) == []
    ensures Sites(Cat(cc, Ins(i)), at, BreakHole) == []
  {
    hide Encode;
  }

  lemma BodyBlock(st: State)
    requires st.toks.Tok? && st.toks.head.kind == LBRACKET
    ensures BlockOrStatement(st) == BlockRule(st)
  {
    hide BlockRule, Statement;
  }

  lemma {:induction false} ParseIf(st: State, s: Stmt, cx: Context, rest: Tokens)
    requires s.If? && Given(st, s, cx, rest)
    ensures Statement(st) == StmtParsed(st, s, LastOf(s), rest, cx.sg)
    decreases s, 0
  {
    hide OkExpr, OkBlock, ExprThen, StmtThen, Emitted, StmtCode, BlockCode, CondCode, WfOutput, Table, Statement, Encode, OkStmt,
      StmtScope, StmtType, BlockScope, BlockType, StmtBreaks, Breaks, Size, IfStatement, IfShape, Put, PatchTo, AtStmt, Cont, BlockRule,
      Sites, Jump, BlockOrStatement;
    var env, sg := st.locals, cx.sg;
    var cc := CondCode(s.cond, env, sg);
    var at := Here(st) + Size(cc) + 5;
    var ct := BlockCode(s.thn, env, sg, at, Cont(st.out));
    var end := at + Size(ct) + 5;
    OkParts(s, cx, st.locals);
    AtStmtKeeps(st, cx, StmtBreaks(s));
    IfTree(s, cx, env, Here(st), Cont(st.out), rest, at, ct, end);
    var st2 := TestDone(st, s.cond, cx, StmtBreaks(s), QUESTION, BlockThen(s.thn, On(SEMICOLON, rest)));
    var stg := Gen(st2, JUMP_IF_F(0));
    TestOutput(st, stg, cx, s.cond, StmtBreaks(s));
    ParseBlock(stg, s.thn, cx, On(SEMICOLON, rest));
    BodyBlock(stg);
    IfDone(st2, BlockParsed(stg, s.thn, Token(RBRACKET, LINE), On(SEMICOLON, rest), sg), rest);
    IfEmitted(st.out, cc, ct);
  }

  /** The compiler behind the conditional jump of a test. */
  lemma TestOutput(st: State, stg: State, cx: Context, c: Expr, breaks: nat)
    requires AtStmt(st, cx, breaks) && stg.out == Put(Emitted(st.out, CondCode(c, st.locals, cx.sg)), Encode(JUMP_IF_F(0)))
    requires stg.fault == NoFault && stg.types == [] && stg.ret == st.ret && stg.locals == st.locals
    ensures AtStmt(stg, cx, breaks) && Cont(stg.out) == Cont(st.out)
    ensures Here(stg) == Here(st) + Size(CondCode(c, st.locals, cx.sg)) + 5
  {
    hide Emitted, WfOutput, Encode, Put, CondCode, AtStmt, Cont;
    var cc := CondCode(c, st.locals, cx.sg);
    AtStmtKeeps(st, cx, breaks);
    Kept(st.out, cc);
    ThenIns(st.out, cc, JUMP_IF_F(0));
    CondHasNoBreaks(c, st.locals, cx.sg, Here(st));
    NoSitesInTest(cc, JUMP_IF_F(0), Here(st));
    FiveBytes(0);
    StillAt(st, stg, cx, Cat(cc, Ins(JUMP_IF_F(0))), breaks, breaks);
  }

  lemma IfElseTree(s: Stmt, cx: Context, env: Scope, base: nat, cont: int32, rest: Tokens, at: nat, ct: Code, env1: Scope,
                   elseAt: nat, cf: Code)
    requires s.IfElse? && at == base + Size(CondCode(s.cond, env, cx.sg)) + 5
    requires ct == BlockCode(s.thn, env, cx.sg, at, cont) && elseAt == at + Size(ct) + 5
    requires env1 == BlockScope(s.thn, env, cx.sg) && cf == BlockCode(s.els, env1, cx.sg, elseAt, cont)
    ensures StmtThen(s, rest) == ExprThen(s.cond, PREC_OR, On(QUESTION,
              BlockThen(s.thn, On(COLON, BlockThen(s.els, On(SEMICOLON, rest))))))
    ensures StmtCode(s, env, cx.sg, base, cont) == IfElseShape(CondCode(s.cond, env, cx.sg), ct, cf, elseAt)
    ensures StmtScope(s, env, cx.sg) == BlockScope(s.els, env1, cx.sg)
    ensures StmtType(s, env, cx.sg) == Joined(BlockType(s.thn, env, cx.sg), BlockType(s.els, env1, cx.sg))
    ensures StmtBreaks(s) == Breaks(s.thn) + Breaks(s.els)
  {
    hide OkExpr, OkBlock, ExprThen, BlockThen, BlockCode, CondCode, IfElseShape, BlockScope, Breaks, Size, BlockType,
      BlockCompletes, TypeOf;
  }

  lemma SitesArm(c: Expr, b: Block, env: Scope, sg: Signatures, base: nat, cont: int32, i: Instr, j: Instr, at: nat)
    ensures |Sites(Cat(Cat(CondCode(c, env, sg), Ins(i)), Cat(BlockCode(b, env, sg, base, cont), Ins(j))), at, BreakHole)| == Breaks(b)
  {
    hide Encode, Breaks, CondCode, BlockCode, Size;
    var cc, cb := CondCode(c, env, sg), BlockCode(b, env, sg, base, cont);
    var mid := at + Size(Cat(cc, Ins(i)));
    SitesCat(Cat(cc, Ins(i)), Cat(cb, Ins(j)), at);
    SitesCat(cc, Ins(i), at);
    SitesCat(cb, Ins(j), mid);
    CondHasNoBreaks(c, env, sg, at);
    BlockSites(b, env, sg, base, cont, mid);
    InsHasNoBreaks(i, at + Size(cc));
    InsHasNoBreaks(j, mid + Size(cb));
  }

  lemma InsHasNoBreaks(i: Instr, at: nat)
    ensures Sites(Ins(i), at, BreakHole) == []
  {
    hide Encode;
  }

  /** An if statement up to its else branch: st2 is behind the question mark, b behind the first arm
      and mid behind the colon. */
  lemma {:induction false} ElseReached(st: State, s: Stmt, cx: Context, rest: Tokens, breaks: nat)
    returns (st2: State, b: State, mid: State)
    requires s.IfElse? && AtStmt(st, cx, Breaks(s.thn) + breaks) && st.toks == StmtThen(s, rest)
    requires OkExpr(s.cond, st.locals, cx.sg, 0) && OkBlock(s.thn, cx, st.locals)
    ensures Statement(st) == IfStatement(st2) && b == BlockOrStatement(Gen(st2, JUMP_IF_F(0)))
    ensures b.fault == NoFault && b.types == [BlockType(s.thn, st.locals, cx.sg)]
    ensures b.locals == BlockScope(s.thn, st.locals, cx.sg) && b.ret == st.ret
    ensures var cc := CondCode(s.cond, st.locals, cx.sg);
      var at := Here(st) + Size(cc) + 5;
      var ct := BlockCode(s.thn, st.locals, cx.sg, at, Cont(st.out));
      && Here(st2) == Here(st) + Size(cc) && b.out == Emitted(Put(Emitted(st.out, cc), Encode(JUMP_IF_F(0))), ct)
      && mid.out == Emitted(st.out, Cat(Cat(cc, JumpIfFalse(at + Size(ct) + 5)), Cat(ct, Ins(JUMP(0)))))
    ensures b.toks == On(COLON, mid.toks) && mid.toks == BlockThen(s.els, On(SEMICOLON, rest))
    ensures var o := Put(b.out, Encode(JUMP(0)));
      mid == State(mid.toks, Token(COLON, LINE), [], b.locals, st.ret, PatchTo(o, Here(st2) + 1, |o.code|), NoFault)
    ensures AtStmt(mid, cx, breaks) && Cont(mid.out) == Cont(st.out)
    decreases s, -1
  {
    hide OkExpr, OkBlock, ExprThen, StmtThen, Emitted, StmtCode, BlockCode, CondCode, WfOutput, Table, Statement, Encode, OkStmt,
      StmtScope, StmtType, BlockScope, BlockType, StmtBreaks, Breaks, Size, IfStatement, IfElseShape, Put, PatchTo, AtStmt, Cont,
      BlockRule, Sites, Jump, BlockOrStatement, Joined, Grows;
    var env, sg := st.locals, cx.sg;
    var cc := CondCode(s.cond, env, sg);
    var at := Here(st) + Size(cc) + 5;
    var ct := BlockCode(s.thn, env, sg, at, Cont(st.out));
    var elseAt := at + Size(ct) + 5;
    var env1 := BlockScope(s.thn, env, sg);
    var cf := BlockCode(s.els, env1, sg, elseAt, Cont(st.out));
    var total := Breaks(s.thn) + breaks;
    AtStmtKeeps(st, cx, total);
    IfElseTree(s, cx, env, Here(st), Cont(st.out), rest, at, ct, env1, elseAt, cf);
    BlockGrows(s.thn, cx, env);
    var elseToks := BlockThen(s.els, On(SEMICOLON, rest));
    st2 := TestDone(st, s.cond, cx, total, QUESTION, BlockThen(s.thn, On(COLON, elseToks)));
    var stg := Gen(st2, JUMP_IF_F(0));
    TestOutput(st, stg, cx, s.cond, total);
    FewerBreaks(stg, cx, total, Breaks(s.thn));
    ParseBlock(stg, s.thn, cx, On(COLON, elseToks));
    BodyBlock(stg);
    b := BlockParsed(stg, s.thn, Token(RBRACKET, LINE), On(COLON, elseToks), sg);
    IfElseEmitted(st.out, cc, ct, cf);
    TestPatched(st.out, cc, ct, JUMP(0), elseAt);
    Kept(st.out, cc);
    mid := State(elseToks, Token(COLON, LINE), [], env1, st.ret,
                 PatchTo(Put(b.out, Encode(JUMP(0))), Here(st2) + 1, |Put(b.out, Encode(JUMP(0))).code|), NoFault);
    var tree := Cat(Cat(cc, JumpIfFalse(elseAt)), Cat(ct, Ins(JUMP(0))));
    SitesArm(s.cond, s.thn, env, sg, at, Cont(st.out), JUMP_IF_F(Narrow(elseAt)), JUMP(0), Here(st));
    StillAt(st, mid, cx, tree, total, breaks);
  }

  lemma {:induction false} ParseIfElse(st: State, s: Stmt, cx: Context, rest: Tokens)
    requires s.IfElse? && Given(st, s, cx, rest)
    ensures Statement(st) == StmtParsed(st, s, LastOf(s), rest, cx.sg)
    decreases s, 0
  {
    hide OkExpr, OkBlock, ExprThen, StmtThen, Emitted, StmtCode, BlockCode, CondCode, WfOutput, Table, Statement, Encode, OkStmt,
      StmtScope, StmtType, BlockScope, BlockType, StmtBreaks, Breaks, Size, IfStatement, IfElseShape, Put, PatchTo, AtStmt, Cont,
      BlockRule, Sites, Jump, BlockOrStatement, Joined, Grows;
    var env, sg := st.locals, cx.sg;
    var cc := CondCode(s.cond, env, sg);
    var at := Here(st) + Size(cc) + 5;
    var ct := BlockCode(s.thn, env, sg, at, Cont(st.out));
    var elseAt := at + Size(ct) + 5;
    var env1 := BlockScope(s.thn, env, sg);
    var cf := BlockCode(s.els, env1, sg, elseAt, Cont(st.out));
    OkParts(s, cx, st.locals);
    AtStmtKeeps(st, cx, StmtBreaks(s));
    IfElseTree(s, cx, env, Here(st), Cont(st.out), rest, at, ct, env1, elseAt, cf);
    var st2, b, mid := ElseReached(st, s, cx, rest, Breaks(s.els));
    ArmSize(cc, ct, elseAt);
    Kept(st.out, Cat(Cat(cc, JumpIfFalse(elseAt)), Cat(ct, Ins(JUMP(0)))));
    ParseBlock(mid, s.els, cx, On(SEMICOLON, rest));
    BodyBlock(mid);
    IfElseEmitted(st.out, cc, ct, cf);
    Kept(st.out, cc);
    AtStmtKeeps(mid, cx, Breaks(s.els));
    Kept(mid.out, cf);
    IfElseDone(st2, b, mid, BlockParsed(mid, s.els, Token(RBRACKET, LINE), On(SEMICOLON, rest), sg), rest);
  }

  lemma ArmSize(cc: Code, ct: Code, target: nat)
    ensures Size(Cat(Cat(cc, JumpIfFalse(target)), Cat(ct, Ins(JUMP(0))))) == Size(cc) + 5 + Size(ct) + 5
  {
    hide Encode;
    FiveBytes(0);
    assert Size(Cat(ct, Ins(JUMP(0)))) == Size(ct) + 5;
    assert Size(Cat(cc, JumpIfFalse(target))) == Size(cc) + 5;
  }

  lemma FewerBreaks(st: State, cx: Context, before: nat, now: nat)
    requires AtStmt(st, cx, before) && now <= before
    ensures AtStmt(st, cx, now)
  {}

  lemma WhileTree(s: Stmt, cx: Context, env: Scope, base: nat, cont: int32, rest: Tokens, at: nat, cb: Code, end: nat)
    requires s.While? && at == base + Size(CondCode(s.cond, env, cx.sg)) + 5
    requires cb == BlockCode(s.body, env, cx.sg, at, Narrow(base)) && end == at + Size(cb) + 5
    ensures StmtThen(s, rest) == ExprThen(s.cond, PREC_OR, On(AT, BlockThen(s.body, On(SEMICOLON, rest))))
    ensures StmtCode(s, env, cx.sg, base, cont) == WhileShape(CondCode(s.cond, env, cx.sg), cb, base, end)
    ensures StmtScope(s, env, cx.sg) == BlockScope(s.body, env, cx.sg) && StmtType(s, env, cx.sg) == TVoid
  {
    hide OkExpr, OkBlock, ExprThen, BlockThen, BlockCode, CondCode, WhileShape, BlockScope, Breaks, Size, BlockType,
      BlockCompletes, TypeOf, Narrow;
  }

  /** The compiler at the start of the body of a new loop. */
  lemma LoopOutput(st: State, stg: State, cx: Context, c: Expr, breaks: nat, inner: nat)
    requires AtStmt(st, cx, breaks) && inner <= BREAKS_MAX
    requires stg.out == Put(PushLoop(Emitted(st.out, CondCode(c, st.locals, cx.sg)), Here(st)), Encode(JUMP_IF_F(0)))
    requires stg.fault == NoFault && stg.types == [] && stg.ret == st.ret && stg.locals == st.locals
    ensures AtStmt(stg, cx.(mayBreak := true), inner) && Cont(stg.out) == Narrow(Here(st))
    ensures Here(stg) == Here(st) + Size(CondCode(c, st.locals, cx.sg)) + 5 && WfOutput(stg.out)
  {
    hide Emitted, Table, Encode, CondCode, Narrow;
    TableKept(st.out, CondCode(c, st.locals, cx.sg), cx.sg);
    Kept(st.out, CondCode(c, st.locals, cx.sg));
    FiveBytes(0);
  }

  lemma {:induction false} ParseWhile(st: State, s: Stmt, cx: Context, rest: Tokens)
    requires s.While? && Given(st, s, cx, rest)
    ensures Statement(st) == StmtParsed(st, s, LastOf(s), rest, cx.sg)
    decreases s, 0
  {
    hide OkExpr, OkBlock, ExprThen, StmtThen, Emitted, StmtCode, BlockCode, CondCode, WfOutput, Table, Statement, Encode, OkStmt,
      StmtScope, StmtType, BlockScope, BlockType, StmtBreaks, Breaks, Size, LoopStatement, WhileShape, Put, PatchTo, AtStmt, Cont,
      BlockRule, Sites, Jump, BlockOrStatement, PopLoop, Narrow;
    var env, sg, start := st.locals, cx.sg, Here(st);
    var cc := CondCode(s.cond, env, sg);
    var at := start + Size(cc) + 5;
    var cb := BlockCode(s.body, env, sg, at, Narrow(start));
    var end := at + Size(cb) + 5;
    var inLoop := cx.(mayBreak := true);
    OkParts(s, cx, st.locals);
    AtStmtKeeps(st, cx, StmtBreaks(s));
    WhileTree(s, cx, env, start, Cont(st.out), rest, at, cb, end);
    var st2 := TestDone(st, s.cond, cx, StmtBreaks(s), AT, BlockThen(s.body, On(SEMICOLON, rest)));
    var stg := Gen(st2.(out := PushLoop(st2.out, start)), JUMP_IF_F(0));
    LoopOutput(st, stg, cx, s.cond, StmtBreaks(s), Breaks(s.body));
    ParseBlock(stg, s.body, inLoop, On(SEMICOLON, rest));
    BodyBlock(stg);
    var b := BlockParsed(stg, s.body, Token(RBRACKET, LINE), On(SEMICOLON, rest), sg);
    WhileSizes(st.out, cc, cb, start);
    LoopDone(st2, b, start, rest);
    WhileEmitted(st.out, cc, cb, start);
  }

  lemma TryTree(s: Stmt, cx: Context, env: Scope, base: nat, cont: int32, rest: Tokens, cb: Code, env1: Scope, catchAt: nat, ch: Code)
    requires s.Try? && env1 == BlockScope(s.body, env, cx.sg)
    requires cb == BlockCode(s.body, env, cx.sg, base + 5, cont) && catchAt == base + 5 + Size(cb) + 6
    requires ch == BlockCode(s.handler, env1 + [Local(s.err, TAny)], cx.sg, catchAt + 2, cont)
    ensures BlockScope(s.handler, env1 + [Local(s.err, TAny)], cx.sg) == env1 + [Local(s.err, TAny)]
        ==> StmtScope(s, env, cx.sg) == env1
    ensures StmtThen(s, rest) == On(KEY_TRY, BlockThen(s.body, On(KEY_CATCH, On(ID(s.err), BlockThen(s.handler, rest)))))
    ensures StmtCode(s, env, cx.sg, base, cont) == TryShape(cb, |env1|, ch, catchAt)
    ensures StmtType(s, env, cx.sg) == TVoid
    ensures StmtBreaks(s) == Breaks(s.body) + Breaks(s.handler)
  {
    hide OkBlock, BlockThen, BlockCode, TryShape, BlockScope, Breaks, Size, BlockType, BlockCompletes, Known;
    assert (env1 + [Local(s.err, TAny)])[..|env1|] == env1;
  }

  lemma SitesGuarded(b: Block, env: Scope, sg: Signatures, base: nat, cont: int32, catchAt: int32, slot: nat, at: nat)
    ensures |Sites(Cat(Cat(Ins(TRY(catchAt)), Cat(Cat(BlockCode(b, env, sg, base, cont), Ins(END_TRY)), Ins(JUMP(0)))), StoreIn(slot)),
                   at, BreakHole)| == Breaks(b)
  {
    hide Encode, Breaks, BlockCode, Size;
    var guard, cb := Ins(TRY(catchAt)), BlockCode(b, env, sg, base, cont);
    var body := Cat(Cat(cb, Ins(END_TRY)), Ins(JUMP(0)));
    var mid := at + Size(guard);
    SitesCat(Cat(guard, body), StoreIn(slot), at);
    SitesCat(guard, body, at);
    SitesCat(Cat(cb, Ins(END_TRY)), Ins(JUMP(0)), mid);
    SitesCat(cb, Ins(END_TRY), mid);
    BlockSites(b, env, sg, base, cont, mid);
    InsHasNoBreaks(TRY(catchAt), at);
    InsHasNoBreaks(END_TRY, mid + Size(cb));
    InsHasNoBreaks(JUMP(0), mid + Size(Cat(cb, Ins(END_TRY))));
    InsHasNoBreaks(STORE(SlotByte(slot)), at + Size(Cat(guard, body)));
  }

  lemma GuardSize(catchAt: int32, cb: Code, slot: nat)
    ensures Size(Cat(Cat(Ins(TRY(catchAt)), Cat(Cat(cb, Ins(END_TRY)), Ins(JUMP(0)))), StoreIn(slot))) == 5 + Size(cb) + 6 + 2
  {
    hide Encode;
    FiveBytes(catchAt);
    FiveBytes(0);
    assert Size(Cat(cb, Ins(END_TRY))) == Size(cb) + 1;
    assert Size(Cat(Cat(cb, Ins(END_TRY)), Ins(JUMP(0)))) == Size(cb) + 6;
  }

  /** The compiler at the start of a handler, its error variable stored. */
  lemma HandlerOutput(st: State, mid: State, cx: Context, b: Block, base: nat, catchAt: nat, slot: nat, breaks: nat, now: nat)
    requires AtStmt(st, cx, breaks) && Breaks(b) + now <= breaks
    requires mid.out == Put(Emitted(st.out, Cat(Ins(TRY(Narrow(catchAt))),
               Cat(Cat(BlockCode(b, st.locals, cx.sg, base, Cont(st.out)), Ins(END_TRY)), Ins(JUMP(0))))), Encode(STORE(SlotByte(slot))))
    requires mid.fault == NoFault && mid.types == [] && mid.ret == st.ret && |mid.locals| <= LOCALS_PER_FRAME
    ensures AtStmt(mid, cx, now) && Cont(mid.out) == Cont(st.out)
    ensures Here(mid) == Here(st) + 5 + Size(BlockCode(b, st.locals, cx.sg, base, Cont(st.out))) + 6 + 2
  {
    hide Emitted, WfOutput, Encode, Put, BlockCode, AtStmt, Cont, Size, Sites, Breaks, Narrow, SlotByte;
    var cb := BlockCode(b, st.locals, cx.sg, base, Cont(st.out));
    var tree := Cat(Ins(TRY(Narrow(catchAt))), Cat(Cat(cb, Ins(END_TRY)), Ins(JUMP(0))));
    AtStmtKeeps(st, cx, breaks);
    Kept(st.out, tree);
    ThenIns(st.out, tree, STORE(SlotByte(slot)));
    StoreInIs(slot);
    SitesGuarded(b, st.locals, cx.sg, base, Cont(st.out), Narrow(catchAt), slot, Here(st));
    GuardSize(Narrow(catchAt), cb, slot);
    StillAt(st, mid, cx, Cat(tree, StoreIn(slot)), breaks, now);
  }

  /** The compiler at the start of a try body. */
  lemma GuardOutput(st: State, g: State, cx: Context, before: nat, now: nat)
    requires AtStmt(st, cx, before) && now <= before && g.out == Put(st.out, Encode(TRY(0)))
    requires g.fault == NoFault && g.types == [] && g.ret == st.ret && g.locals == st.locals
    ensures AtStmt(g, cx.(mayBreak := false, mayReturn := false), now) && Cont(g.out) == Cont(st.out) && Here(g) == Here(st) + 5
  {
    hide Emitted, WfOutput, Encode;
    AtStmtKeeps(st, cx, before);
    EmitIns(st.out, TRY(0));
    InsHasNoBreaks(TRY(0), Here(st));
    FiveBytes(0);
    StillAt(st, g, cx, Ins(TRY(0)), before, now);
  }

  /** A try statement up to its handler: st2 is before the catch and mid before the handler. */
  lemma {:induction false} HandlerReached(st: State, s: Stmt, cx: Context, rest: Tokens, breaks: nat)
    returns (st2: State, leave: nat, mid: State)
    requires s.Try? && AtStmt(st, cx, Breaks(s.body) + breaks) && st.toks == StmtThen(s, rest)
    requires OkBlock(s.body, cx.(mayBreak := false, mayReturn := false), st.locals)
    requires |BlockScope(s.body, st.locals, cx.sg)| < LOCALS_PER_FRAME
    ensures var env1 := BlockScope(s.body, st.locals, cx.sg);
      var cb := BlockCode(s.body, st.locals, cx.sg, Here(st) + 5, Cont(st.out));
      var catchAt := Here(st) + 5 + Size(cb) + 6;
      var o3 := Put(Emitted(Put(st.out, Encode(TRY(0))), cb), Encode(END_TRY));
      && Statement(st) == CatchClause(st2, leave) && leave == |o3.code| + 1
      && st2 == State(On(KEY_CATCH, On(ID(s.err), BlockThen(s.handler, rest))), st2.prev, [], env1, st.ret,
                      PatchTo(Put(o3, Encode(JUMP(0))), |st.out.code| + 1, catchAt), NoFault)
      && mid == State(BlockThen(s.handler, rest), Token(ID(s.err), LINE), [], env1 + [Local(s.err, TAny)], st.ret,
                      Put(st2.out, Encode(STORE(SlotByte(|env1|)))), NoFault)
      && AtStmt(mid, cx, breaks) && Cont(mid.out) == Cont(st.out) && Here(mid) == catchAt + 2
      && mid.out == Emitted(st.out, Cat(Cat(Ins(TRY(Narrow(catchAt))), Cat(Cat(cb, Ins(END_TRY)), Ins(JUMP(0)))), StoreIn(|env1|)))
    decreases s, -1
  {
    hide OkBlock, StmtThen, Emitted, StmtCode, BlockCode, WfOutput, Table, Encode, OkStmt, StmtScope, StmtType, BlockScope, BlockType,
      StmtBreaks, Breaks, Size, TryStatement, TryShape, Put, PatchTo, AtStmt, Cont, BlockRule, Sites, Jump, CatchClause, Narrow,
      Expression, FinishStatement, SlotByte, Grows;
    var env, sg, base := st.locals, cx.sg, Here(st);
    var inTry := cx.(mayBreak := false, mayReturn := false);
    var cb := BlockCode(s.body, env, sg, base + 5, Cont(st.out));
    var catchAt := base + 5 + Size(cb) + 6;
    var env1 := BlockScope(s.body, env, sg);
    var total := Breaks(s.body) + breaks;
    AtStmtKeeps(st, cx, total);
    TryTree(s, cx, env, base, Cont(st.out), rest, cb, env1, catchAt,
            BlockCode(s.handler, env1 + [Local(s.err, TAny)], sg, catchAt + 2, Cont(st.out)));
    var st1 := Advance(st);
    assert Statement(st) == TryStatement(st1);
    var g := Gen(st1, TRY(0));
    GuardOutput(st, g, cx, total, Breaks(s.body));
    var handlerToks := BlockThen(s.handler, rest);
    ParseBlock(g, s.body, inTry, On(KEY_CATCH, On(ID(s.err), handlerToks)));
    var b := BlockParsed(g, s.body, Token(RBRACKET, LINE), On(KEY_CATCH, On(ID(s.err), handlerToks)), sg);
    TryDone(st1, b);
    TrySizes(st.out, cb);
    TryPatched(st.out, cb, catchAt);
    var tree := Cat(Ins(TRY(Narrow(catchAt))), Cat(Cat(cb, Ins(END_TRY)), Ins(JUMP(0))));
    var o5 := Emitted(st.out, tree);
    leave := |Put(b.out, Encode(END_TRY)).code| + 1;
    st2 := b.(types := [], out := o5);
    mid := State(handlerToks, Token(ID(s.err), LINE), [], env1 + [Local(s.err, TAny)], st.ret,
                 Put(o5, Encode(STORE(SlotByte(|env1|)))), NoFault);
    HandlerOutput(st, mid, cx, s.body, base + 5, catchAt, |env1|, total, breaks);
    Kept(st.out, tree);
    ThenIns(st.out, tree, STORE(SlotByte(|env1|)));
    StoreInIs(|env1|);
  }

  lemma {:induction false} ParseTry(st: State, s: Stmt, cx: Context, rest: Tokens)
    requires s.Try? && Given(st, s, cx, rest)
    ensures Statement(st) == StmtParsed(st, s, LastOf(s), rest, cx.sg)
    decreases s, 0
  {
    hide OkBlock, StmtThen, Emitted, StmtCode, BlockCode, WfOutput, Table, Encode, OkStmt, StmtScope, StmtType, BlockScope, BlockType,
      StmtBreaks, Breaks, Size, TryShape, Put, PatchTo, AtStmt, Cont, BlockRule, Sites, Jump, CatchClause, Narrow, SlotByte, Statement;
    var env, sg, base := st.locals, cx.sg, Here(st);
    var cb := BlockCode(s.body, env, sg, base + 5, Cont(st.out));
    var catchAt := base + 5 + Size(cb) + 6;
    var env1 := BlockScope(s.body, env, sg);
    var env2 := env1 + [Local(s.err, TAny)];
    var ch := BlockCode(s.handler, env2, sg, catchAt + 2, Cont(st.out));
    OkParts(s, cx, st.locals);
    AtStmtKeeps(st, cx, StmtBreaks(s));
    TryTree(s, cx, env, base, Cont(st.out), rest, cb, env1, catchAt, ch);
    var st2, leave, mid := HandlerReached(st, s, cx, rest, Breaks(s.handler));
    ParseBlock(mid, s.handler, cx, rest);
    var h := BlockParsed(mid, s.handler, Token(RBRACKET, LINE), rest, sg);
    CatchDone(st2, mid, h, s.err, leave);
    assert env2[..|env1|] == env1;
    TryEmitted(st.out, cb, |env1|, ch);
    AtStmtKeeps(mid, cx, Breaks(s.handler));
    Kept(mid.out, ch);
  }

  // ----- dispatch and blocks -----

  /** statement on a printed statement: its tokens are consumed, its code is emitted, its locals are
      declared and its type is on the type stack. */
  lemma {:induction false} ParseStmt(st: State, s: Stmt, cx: Context, rest: Tokens)
    requires Given(st, s, cx, rest)
    ensures Statement(st) == StmtParsed(st, s, LastOf(s), rest, cx.sg)
    decreases s, 1
  {
    hide *;
    match s
    case Eval(_) => ParseEval(st, s, cx, rest);
    case Assign(_, _, _) => ParseAssign(st, s, cx, rest);
    case Print(_) => ParsePrint(st, s, cx, rest);
    case If(_, _) => ParseIf(st, s, cx, rest);
    case IfElse(_, _, _) => ParseIfElse(st, s, cx, rest);
    case While(_, _) => ParseWhile(st, s, cx, rest);
    case Break => ParseBreak(st, s, cx, rest);
    case Continue => ParseBreak(st, s, cx, rest);
    case Return(_) => ParseReturn(st, s, cx, rest);
    case Throw(_) => ParseReturn(st, s, cx, rest);
    case Try(_, _, _) => ParseTry(st, s, cx, rest);
  }

  lemma FirstOfStmt(s: Stmt, rest: Tokens)
    ensures var ts := StmtThen(s, rest); ts.Tok? && ts.head.kind != RBRACKET && ts.head.kind != EOF && ts.head.kind != COLON
  {
    hide ExprThen, BlockThen;
    match s
    case Eval(e) => FirstToken(e, PREC_OR, On(SEMICOLON, rest));
    case Assign(e, x, declared) =>
      var after := On(ASSIGN, if declared.None? then On(ID(x), On(SEMICOLON, rest))
                              else On(ID(x), On(COLON, On(ID(TypeName(declared.value)), On(SEMICOLON, rest)))));
      AssignTokens(s, rest, after);
      FirstToken(e, PREC_OR, after);
    case Print(e) => FirstToken(e, PREC_OR, On(BANG_BANG, On(SEMICOLON, rest)));
    case If(c, t) => FirstToken(c, PREC_OR, On(QUESTION, BlockThen(t, On(SEMICOLON, rest))));
    case IfElse(c, t, f) =>
      FirstToken(c, PREC_OR, On(QUESTION, BlockThen(t, On(COLON, BlockThen(f, On(SEMICOLON, rest))))));
    case While(c, b) => FirstToken(c, PREC_OR, On(AT, BlockThen(b, On(SEMICOLON, rest))));
    case _ =>
  }

  lemma DiscardDone(st: State, s: Stmt, env: Scope, sg: Signatures)
    requires st.types == [StmtType(s, env, sg)] && WfOutput(st.out) && st.fault == NoFault
    ensures Discard(st) == st.(types := [], out := Emitted(st.out, PopCode(s, env, sg)))
  {
    hide Emitted, WfOutput, Encode, StmtType;
    EmitSkip(st.out);
    EmitIns(st.out, POP);
  }

  lemma StatementsStep(st: State, empty: bool)
    requires st.toks.Tok? && st.toks.head.kind != RBRACKET && st.toks.head.kind != EOF
    ensures Statements(st, empty) == Statements(Statement(if empty then st else Discard(st)), false)
  {
    hide Statement, Discard;
  }

  lemma StatementsEnd(st: State, empty: bool, rest: Tokens)
    requires st.toks == On(RBRACKET, rest)
    ensures Statements(st, empty) == if empty then PushType(st, TVoid) else st
  {
    hide Statement, Discard;
  }

  lemma {:induction false} ParseStatements(st: State, b: Block, cx: Context, rest: Tokens)
    requires AtStmt(st, cx, Breaks(b)) && OkBlock(b, cx, st.locals) && st.toks == StmtsThen(b, On(RBRACKET, rest))
    ensures Statements(st, true) == BlockParsed(st, b, Statements(st, true).prev, On(RBRACKET, rest), cx.sg)
    decreases b, 2
  {
    hide Emitted, WfOutput, Table, AtStmt, Cont, Statements, Statement, Discard;
    AtStmtKeeps(st, cx, Breaks(b));
    match b
    case End =>
      StatementsEnd(st, true, rest);
      EmitSkip(st.out);
    case Then(s, others) => ParseThen(st, s, others, cx, rest);
  }

  lemma BlockTree(s: Stmt, others: Block, cx: Context, env: Scope, base: nat, cont: int32, rest: Tokens, cs: Code, cp: Code)
    requires others != End && OkBlock(Then(s, others), cx, env)
    requires cs == StmtCode(s, env, cx.sg, base, cont) && cp == PopCode(s, env, cx.sg)
    ensures var env1 := StmtScope(s, env, cx.sg);
      && OkStmt(s, cx, env) && OkBlock(others, cx, env1)
      && StmtsThen(Then(s, others), rest) == StmtThen(s, StmtsThen(others, rest))
      && BlockType(Then(s, others), env, cx.sg) == BlockType(others, env1, cx.sg)
      && BlockScope(Then(s, others), env, cx.sg) == BlockScope(others, env1, cx.sg)
      && BlockCode(Then(s, others), env, cx.sg, base, cont)
         == Cat(Cat(cs, cp), BlockCode(others, env1, cx.sg, base + Size(cs) + Size(cp), cont))
      && Breaks(Then(s, others)) == StmtBreaks(s) + Breaks(others)
  {
    hide OkStmt, StmtThen, StmtScope, StmtCode, StmtType, PopCode, StmtBreaks, Size;
  }

  lemma {:induction false} ParseThen(st: State, s: Stmt, others: Block, cx: Context, rest: Tokens)
    requires AtStmt(st, cx, Breaks(Then(s, others))) && OkBlock(Then(s, others), cx, st.locals)
    requires st.toks == StmtsThen(Then(s, others), On(RBRACKET, rest))
    ensures Statements(st, true) == BlockParsed(st, Then(s, others), Statements(st, true).prev, On(RBRACKET, rest), cx.sg)
    decreases Then(s, others), 1
  {
    hide Emitted, StmtCode, BlockCode, WfOutput, Table, Statement, OkStmt, StmtScope, BlockScope, StmtType, BlockType, StmtBreaks,
      AtStmt, Cont, Sites, Statements, StmtThen, PopCode, Discard, Grows, Size;
    AtStmtKeeps(st, cx, Breaks(Then(s, others)));
    var more := StmtsThen(others, On(RBRACKET, rest));
    FirstOfStmt(s, more);
    StatementsStep(st, true);
    FewerBreaks(st, cx, Breaks(Then(s, others)), StmtBreaks(s));
    ParseStmt(st, s, cx, more);
    var st1 := StmtParsed(st, s, LastOf(s), more, cx.sg);
    if others == End {
      StatementsEnd(st1, false, rest);
      OneStatement(s, st.locals, cx.sg, Here(st), Cont(st.out));
    } else {
      ParseOthers(st, s, others, cx, rest, st1);
    }
  }

  /** After a statement that is not the last of its block its value is discarded. */
  lemma NextReached(st: State, s: Stmt, others: Block, cx: Context, rest: Tokens, st1: State, breaks: nat) returns (st2: State)
    requires others != End && OkStmt(s, cx, st.locals) && AtStmt(st, cx, StmtBreaks(s) + breaks)
    requires st1 == StmtParsed(st, s, LastOf(s), StmtsThen(others, On(RBRACKET, rest)), cx.sg)
    ensures var cs, cp := StmtCode(s, st.locals, cx.sg, Here(st), Cont(st.out)), PopCode(s, st.locals, cx.sg);
      && st2 == st1.(types := [], out := Emitted(st.out, Cat(cs, cp))) && Parsing.Statements(st1, false) == Parsing.Statements(st2, true)
      && Cont(st2.out) == Cont(st.out) && Here(st2) == Here(st) + Size(cs) + Size(cp)
    ensures AtStmt(st2, cx, breaks)
  {
    hide Emitted, StmtCode, WfOutput, Statement, OkStmt, StmtScope, StmtType, StmtBreaks, AtStmt, Cont, Sites, Parsing.Statements,
      StmtThen, PopCode, Discard, Grows, Size;
    var cs, cp := StmtCode(s, st.locals, cx.sg, Here(st), Cont(st.out)), PopCode(s, st.locals, cx.sg);
    AtStmtKeeps(st, cx, StmtBreaks(s) + breaks);
    StmtGrows(s, cx, st.locals);
    FirstOfStmt(others.s, StmtsThen(others.rest, On(RBRACKET, rest)));
    Kept(st.out, cs);
    DiscardDone(st1, s, st.locals, cx.sg);
    st2 := Discard(st1);
    EmitCat(st.out, cs, cp);
    SitesOfTwo(s, st.locals, cx.sg, Here(st), Cont(st.out));
    StillAt(st, st2, cx, Cat(cs, cp), StmtBreaks(s) + breaks, breaks);
    SizeOfTwo(cs, cp);
    StatementsStep(st1, false);
    StatementsStep(st2, true);
  }

  /** The rest of a block after its first statement, whose value is discarded. */
  lemma {:induction false} ParseOthers(st: State, s: Stmt, others: Block, cx: Context, rest: Tokens, st1: State)
    requires others != End && AtStmt(st, cx, Breaks(Then(s, others))) && OkBlock(Then(s, others), cx, st.locals)
    requires st1 == StmtParsed(st, s, LastOf(s), StmtsThen(others, On(RBRACKET, rest)), cx.sg)
    ensures Parsing.Statements(st1, false)
         == BlockParsed(st, Then(s, others), Parsing.Statements(st1, false).prev, On(RBRACKET, rest), cx.sg)
    decreases Then(s, others), 0
  {
    hide Emitted, StmtCode, BlockCode, WfOutput, OkStmt, OkBlock, StmtScope, BlockScope, StmtType, BlockType, StmtBreaks, Breaks, AtStmt,
      Cont, Parsing.Statements, StmtThen, PopCode, Size;
    var cs, cp := StmtCode(s, st.locals, cx.sg, Here(st), Cont(st.out)), PopCode(s, st.locals, cx.sg);
    AtStmtKeeps(st, cx, Breaks(Then(s, others)));
    BlockTree(s, others, cx, st.locals, Here(st), Cont(st.out), On(RBRACKET, rest), cs, cp);
    var st2 := NextReached(st, s, others, cx, rest, st1, Breaks(others));
    ParseStatements(st2, others, cx, rest);
    EmitCat(st.out, Cat(cs, cp), BlockCode(others, st2.locals, cx.sg, Here(st2), Cont(st2.out)));
  }

  lemma OneStatement(s: Stmt, env: Scope, sg: Signatures, base: nat, cont: int32)
    ensures BlockType(Then(s, End), env, sg) == StmtType(s, env, sg)
    ensures BlockScope(Then(s, End), env, sg) == StmtScope(s, env, sg)
    ensures BlockCode(Then(s, End), env, sg, base, cont) == StmtCode(s, env, sg, base, cont)
  {
    hide StmtType, StmtScope, StmtCode;
    assert BlockScope(End, StmtScope(s, env, sg), sg) == StmtScope(s, env, sg);
  }

  lemma SizeOfTwo(a: Code, b: Code)
    ensures Size(Cat(a, b)) == Size(a) + Size(b)
  {}

  lemma SitesOfTwo(s: Stmt, env: Scope, sg: Signatures, base: nat, cont: int32)
    ensures |Sites(Cat(StmtCode(s, env, sg, base, cont), PopCode(s, env, sg)), base, BreakHole)| == StmtBreaks(s)
  {
    hide StmtCode, PopCode, StmtBreaks;
    StmtSites(s, env, sg, base, cont, base);
    PopHasNoBreaks(s, env, sg, base + Size(StmtCode(s, env, sg, base, cont)));
  }

  /** A printed block is consumed up to its closing bracket and its code emitted. */
  lemma {:induction false} ParseBlock(st: State, b: Block, cx: Context, rest: Tokens)
    requires AtStmt(st, cx, Breaks(b)) && OkBlock(b, cx, st.locals) && st.toks == BlockThen(b, rest)
    ensures BlockRule(st) == BlockParsed(st, b, Token(RBRACKET, LINE), rest, cx.sg)
    decreases b, 3
  {
    hide Emitted, WfOutput, Table, Statements, OkBlock, StmtsThen, BlockCode, Breaks, BlockScope, BlockType, Cont;
    var st1 := Advance(st);
    ParseStatements(st1, b, cx, rest);
  }
}
