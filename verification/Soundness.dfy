/** Static types and definite assignment are sound for the big-step semantics. */
module Soundness {
  import opened Values
  import opened Machine
  import opened Syntax
  import opened Semantics

  // ----- scopes grow by fresh names -----

  /** big extends small by locals whose names small does not know. */
  predicate Grows(small: Scope, big: Scope) {
    && |small| <= |big| && big[..|small|] == small
    && forall i :: |small| <= i < |big| ==> !Known(small, big[i].name)
  }

  lemma {:induction false} GrowsResolve(small: Scope, big: Scope, x: Name)
    requires Grows(small, big) && Known(small, x)
    ensures Resolve(big, x) == Resolve(small, x)
    decreases |big|
  {
    if |big| > |small| {
      var shorter := big[..|big| - 1];
      assert shorter[..|small|] == small;
      assert forall i :: |small| <= i < |shorter| ==> shorter[i] == big[i];
      GrowsResolve(small, shorter, x);
      assert big[|big| - 1].name != x;
    } else {
      assert big == small;
    }
  }

  lemma GrowsKnown(small: Scope, big: Scope, x: Name)
    requires Grows(small, big) && Known(small, x)
    ensures Known(big, x)
  {
    GrowsResolve(small, big, x);
  }

  lemma GrowsTransitive(a: Scope, b: Scope, c: Scope)
    requires Grows(a, b) && Grows(b, c)
    ensures Grows(a, c)
  {
    assert c[..|a|] == c[..|b|][..|a|];
    forall i | |a| <= i < |c|
      ensures !Known(a, c[i].name)
    {
      if i < |b| {
        assert c[i] == c[..|b|][i] == b[i];
      } else if Known(a, c[i].name) {
        GrowsKnown(a, b, c[i].name);
      }
    }
  }

  lemma GrowsByOne(env: Scope, x: Name, ty: Type)
    requires !Known(env, x)
    ensures Grows(env, env + [Local(x, ty)])
    ensures Resolve(env + [Local(x, ty)], x) == |env|
  {
    assert (env + [Local(x, ty)])[..|env|] == env;
  }

  lemma {:induction false} StmtGrows(s: Stmt, cx: Context, env: Scope)
    requires OkStmt(s, cx, env) && |env| <= LOCALS_PER_FRAME
    ensures Grows(env, StmtScope(s, env, cx.sg)) && |StmtScope(s, env, cx.sg)| <= LOCALS_PER_FRAME
    decreases s
  {
    match s
    case Assign(e, x, declared) =>
      if !Known(env, x) {
        GrowsByOne(env, x, if declared.Some? then declared.value else TypeOf(e, env, cx.sg));
      }
    case If(_, t) => BlockGrows(t, cx, env);
    case IfElse(_, t, f) =>
      BlockGrows(t, cx, env);
      BlockGrows(f, cx, BlockScope(t, env, cx.sg));
      GrowsTransitive(env, BlockScope(t, env, cx.sg), StmtScope(s, env, cx.sg));
    case While(_, b) => BlockGrows(b, cx.(mayBreak := true), env);
    case Try(b, x, h) =>
      BlockGrows(b, cx.(mayBreak := false, mayReturn := false), env);
      var env1 := BlockScope(b, env, cx.sg);
      assert (env1 + [Local(x, TAny)])[..|env1|] == env1;
    case _ =>
  }

  lemma {:induction false} BlockGrows(b: Block, cx: Context, env: Scope)
    requires OkBlock(b, cx, env) && |env| <= LOCALS_PER_FRAME
    ensures Grows(env, BlockScope(b, env, cx.sg)) && |BlockScope(b, env, cx.sg)| <= LOCALS_PER_FRAME
    decreases b
  {
    match b
    case End =>
    case Then(s, rest) =>
      StmtGrows(s, cx, env);
      BlockGrows(rest, cx, StmtScope(s, env, cx.sg));
      GrowsTransitive(env, StmtScope(s, env, cx.sg), BlockScope(b, env, cx.sg));
  }

  // ----- typed values and stores -----

  /** Neither void nor a type error. */
  predicate Clean(v: Value) {
    !v.VVoid? && !(v.VErr? && v.msg.TypeError?)
  }

  predicate HasType(v: Value, t: Type) {
    match t
    case TInt => v.VInt?
    case TBool => v.VBool?
    case TAny => Clean(v)
    case TVoid => false
  }

  predicate HasOptType(v: Option<Value>, t: Type) {
    if t == TVoid then v.None? else v.Some? && HasType(v.value, t)
  }

  ghost predicate Typed(env: Scope, st: Store) {
    forall x :: x in st && Known(env, x) ==> HasType(st[x], env[Resolve(env, x)].ty)
  }

  ghost predicate Covers(env: Scope, st: Store) {
    forall x :: x in st ==> Known(env, x)
  }

  lemma TypedGrows(small: Scope, big: Scope, st: Store)
    requires Grows(small, big)
    ensures Typed(big, st) ==> Typed(small, st)
    ensures Typed(small, st) && Covers(small, st) ==> Typed(big, st) && Covers(big, st)
  {
    forall x | x in st && Known(small, x)
      ensures Known(big, x) && big[Resolve(big, x)] == small[Resolve(small, x)]
    {
      GrowsResolve(small, big, x);
      assert big[Resolve(small, x)] == big[..|small|][Resolve(small, x)];
    }
  }

  /** Everything a well-typed program may stop with besides an uncaught clean value. */
  predicate Excusable(why: Halt) {
    why == StackOverflow || why == TryOverflow || why == QuotientOverflow
  }

  predicate OkFuns(p: Program, sg: Signatures) {
    && sg == AllSignatures(p)
    && (forall i :: 0 <= i < |p| ==> OkFun(p[i], sg))
    && (forall i :: 0 <= i < |p| ==> BlockDefinite(p[i].body, ParamNames(p[i].params)))
  }

  predicate SoundValue(o: ExprOutcome, t: Type) {
    match o
    case Yields(v, _) => HasOptType(v, t)
    case Raised(v, _) => Clean(v)
    case Halted(why, _) => Excusable(why)
    case _ => true
  }

  lemma SoundBinary(op: BinOp, a: Value, b: Value, ta: Type, tb: Type)
    requires OkOperands(op, ta, tb) && HasType(a, ta) && HasType(b, tb)
    ensures SoundValue(OfResult(BinaryResult(op, a, b)), if IsArithmetic(op) then TInt else TBool)
  {}

  lemma OperandTypes(op: BinOp, ta: Type, tb: Type)
    requires OkOperands(op, ta, tb)
    ensures ta != TVoid && tb != TVoid && (IsArithmetic(op) ==> ta == TInt)
  {}

  lemma SoundUnary(op: UnOp, a: Value, t: Type)
    requires t == (if op == Minus then TInt else TBool) && HasType(a, t)
    ensures SoundValue(OfResult(UnaryResult(op, a)), t)
  {}

  /** A well-typed expression yields a value of its type, or raises a clean error; it never
      takes a "Type error" branch and never reads an unassigned name. */
  lemma {:induction false} SoundExpr(p: Program, e: Expr, env: Scope, sg: Signatures, depth: nat,
                                     st: Store, room: Room, fuel: nat)
    requires OkFuns(p, sg) && OkExpr(e, env, sg, depth) && Typed(env, st)
    ensures SoundValue(EvalExpr(p, e, st, room, fuel), TypeOf(e, env, sg))
    ensures Reads(e, st.Keys) ==> !EvalExpr(p, e, st, room, fuel).Unassigned?
    decreases fuel, e, 0
  {
    match e
    case Un(op, e1) => SoundUn(p, e, env, sg, depth, st, room, fuel);
    case Bin(op, l, r) => SoundBin(p, e, env, sg, depth, st, room, fuel);
    case Call(f, args) => SoundCall(p, e, env, sg, depth, st, room, fuel);
    case _ =>
  }

  lemma {:induction false} SoundUn(p: Program, e: Expr, env: Scope, sg: Signatures, depth: nat,
                                   st: Store, room: Room, fuel: nat)
    requires e.Un? && OkFuns(p, sg) && OkExpr(e, env, sg, depth) && Typed(env, st)
    ensures SoundValue(EvalExpr(p, e, st, room, fuel), TypeOf(e, env, sg))
    ensures Reads(e, st.Keys) ==> !EvalExpr(p, e, st, room, fuel).Unassigned?
    decreases fuel, e, -1
  {
    hide OkFuns, Typed, UnaryResult, Resolve, Known, AllSignatures;
    SoundExpr(p, e.operand, env, sg, depth, st, room, fuel);
    var o := EvalExpr(p, e.operand, st, room, fuel);
    if o.Yields? {
      SoundUnary(e.uop, o.value.value, TypeOf(e.operand, env, sg));
    }
  }

  lemma BinReads(e: Expr, names: set<Name>)
    requires e.Bin?
    ensures Reads(e, names) ==> Reads(e.left, names) && Reads(e.right, names)
  {}

  lemma {:induction false} SoundBin(p: Program, e: Expr, env: Scope, sg: Signatures, depth: nat,
                                    st: Store, room: Room, fuel: nat)
    requires e.Bin? && OkFuns(p, sg) && OkExpr(e, env, sg, depth) && Typed(env, st)
    ensures SoundValue(EvalExpr(p, e, st, room, fuel), TypeOf(e, env, sg))
    ensures Reads(e, st.Keys) ==> !EvalExpr(p, e, st, room, fuel).Unassigned?
    decreases fuel, e, -1
  {
    hide OkFuns, Typed, OkOperands, BinaryResult, Resolve, Known, AllSignatures, HasType, Clean, Excusable, Reads;
    BinReads(e, st.Keys);
    OperandTypes(e.bop, TypeOf(e.left, env, sg), TypeOf(e.right, env, sg));
    SoundExpr(p, e.left, env, sg, depth, st, room, fuel);
    var o := EvalExpr(p, e.left, st, room, fuel);
    if o.Yields? {
      var room' := room.(height := room.height + 1);
      SoundExpr(p, e.right, env, sg, depth + 1, st, room', fuel);
      var o' := EvalExpr(p, e.right, st, room', fuel);
      if o'.Yields? {
        SoundBinary(e.bop, o.value.value, o'.value.value, TypeOf(e.left, env, sg), TypeOf(e.right, env, sg));
      }
    }
  }

  lemma {:induction false} SoundCall(p: Program, e: Expr, env: Scope, sg: Signatures, depth: nat,
                                     st: Store, room: Room, fuel: nat)
    requires e.Call? && OkFuns(p, sg) && OkExpr(e, env, sg, depth) && Typed(env, st)
    ensures SoundValue(EvalExpr(p, e, st, room, fuel), TypeOf(e, env, sg))
    ensures Reads(e, st.Keys) ==> !EvalExpr(p, e, st, room, fuel).Unassigned?
    decreases fuel, e, -1
  {
    hide OkFuns, Typed, Resolve, Defines, AllSignatures, Invoke, EvalArgs, OkArgs, ArgsRead, HaveTypes;
    ParamsAreValues(p, e.f, sg);
    SoundArgs(p, e.args, env, sg, sg[e.f].params, depth, st, room, fuel);
    var o := EvalArgs(p, e.args, st, room, fuel);
    if o.Ready? && fuel > 0 {
      SoundInvoke(p, e.f, o.values, sg, room, fuel - 1);
    }
  }

  lemma ParamsAreValues(p: Program, f: Name, sg: Signatures)
    requires OkFuns(p, sg) && f in sg
    ensures ValueTypes(sg[f].params)
  {
    var callee := p[IndexOf(p, f)];
    assert OkFun(callee, sg) && sg[f] == SignatureOf(callee);
  }

  predicate ValueTypes(ts: seq<Type>) {
    forall i :: 0 <= i < |ts| ==> ts[i] != TVoid
  }

  predicate HaveTypes(vs: seq<Value>, ts: seq<Type>) {
    |vs| == |ts| && forall i :: 0 <= i < |ts| ==> HasType(vs[i], ts[i])
  }

  lemma {:induction false} SoundArgs(p: Program, args: Args, env: Scope, sg: Signatures, ts: seq<Type>, depth: nat,
                                     st: Store, room: Room, fuel: nat)
    requires OkFuns(p, sg) && OkArgs(args, env, sg, ts, depth) && ValueTypes(ts) && Typed(env, st)
    ensures var o := EvalArgs(p, args, st, room, fuel);
      if o.Ready? then HaveTypes(o.values, ts)
      else !o.o.Yields? && SoundValue(o.o, TVoid) && (ArgsRead(args, st.Keys) ==> !o.o.Unassigned?)
    decreases fuel, args, 0
  {
    match args
    case NoArgs =>
    case Arg(e, rest) =>
      SoundExpr(p, e, env, sg, depth, st, room, fuel);
      assert ts[0] != TVoid;
      assert forall i :: 0 <= i < |ts| - 1 ==> ts[1..][i] == ts[i + 1];
      SoundArgs(p, rest, env, sg, ts[1..], depth, st, room.(height := room.height + 1), fuel);
  }

  // ----- parameters -----

  predicate DistinctParams(ps: seq<Param>) {
    forall i, j :: 0 <= i < j < |ps| ==> ps[i].name != ps[j].name
  }

  lemma {:induction false} BindKeys(ps: seq<Param>, vs: seq<Value>)
    requires |ps| == |vs|
    ensures Bind(ps, vs).Keys == ParamNames(ps)
    decreases |ps|
  {
    if ps != [] {
      var n := |ps| - 1;
      BindKeys(ps[..n], vs[..n]);
      ParamNamesGrow(ps);
    }
  }

  lemma ParamNamesGrow(ps: seq<Param>)
    requires ps != []
    ensures ParamNames(ps) == ParamNames(ps[..|ps| - 1]) + {ps[|ps| - 1].name}
  {
    var shorter := ps[..|ps| - 1];
    forall x | x in ParamNames(ps)
      ensures x in ParamNames(shorter) + {ps[|ps| - 1].name}
    {
      var i :| 0 <= i < |ps| && ps[i].name == x;
      if i < |shorter| {
        assert shorter[i].name == x;
      }
    }
    forall x | x in ParamNames(shorter)
      ensures x in ParamNames(ps)
    {
      var i :| 0 <= i < |shorter| && shorter[i].name == x;
      assert ps[i].name == x;
    }
  }

  lemma {:induction false} BindLooksUp(ps: seq<Param>, vs: seq<Value>, i: nat)
    requires |ps| == |vs| && DistinctParams(ps) && i < |ps|
    ensures ps[i].name in Bind(ps, vs) && Bind(ps, vs)[ps[i].name] == vs[i]
    decreases |ps|
  {
    var n := |ps| - 1;
    if i < n {
      BindLooksUp(ps[..n], vs[..n], i);
      assert ps[..n][i] == ps[i] && vs[..n][i] == vs[i];
    }
  }

  lemma ParamResolves(ps: seq<Param>, x: Name)
    requires DistinctParams(ps)
    ensures Known(ParamScope(ps), x) <==> x in ParamNames(ps)
    ensures Known(ParamScope(ps), x) ==> ps[Resolve(ParamScope(ps), x)].name == x
  {
    if x in ParamNames(ps) {
      var i :| 0 <= i < |ps| && ps[i].name == x;
      assert ParamScope(ps)[i].name == x;
    }
  }

  lemma BoundParams(ps: seq<Param>, vs: seq<Value>)
    requires DistinctParams(ps) && HaveTypes(vs, ParamTypes(ps))
    ensures Typed(ParamScope(ps), Bind(ps, vs)) && Covers(ParamScope(ps), Bind(ps, vs))
    ensures Bind(ps, vs).Keys == ParamNames(ps)
  {
    BindKeys(ps, vs);
    forall x | x in Bind(ps, vs)
      ensures Known(ParamScope(ps), x)
      ensures HasType(Bind(ps, vs)[x], ParamScope(ps)[Resolve(ParamScope(ps), x)].ty)
    {
      ParamResolves(ps, x);
      BindLooksUp(ps, vs, Resolve(ParamScope(ps), x));
    }
  }

  lemma {:induction false} SoundInvoke(p: Program, f: Name, vs: seq<Value>, sg: Signatures, room: Room, fuel: nat)
    requires OkFuns(p, sg) && f in sg && HaveTypes(vs, sg[f].params)
    ensures SoundValue(Invoke(p, f, vs, room, fuel), sg[f].ret)
    ensures !Invoke(p, f, vs, room, fuel).Unassigned?
    decreases fuel
  {
    hide Typed, Covers, OkBlock, BlockScope, BlockType, Bind, BlockDefinite, BlockAssigned, ParamNames,
      BlockCompletes, ExecBlock;
    var callee := p[IndexOf(p, f)];
    assert OkFun(callee, sg) && BlockDefinite(callee.body, ParamNames(callee.params));
    assert sg[f] == SignatureOf(callee);
    var env := ParamScope(callee.params);
    BoundParams(callee.params, vs);
    SoundBlock(p, callee.body, BodyContext(callee, sg), env, ParamNames(callee.params),
               Bind(callee.params, vs), room.(frames := room.frames + 1), fuel);
  }

  // ----- statements -----

  ghost predicate SoundOutcome(o: Outcome, cx: Context, env: Scope, st: Store, after: Scope, t: Type) {
    match o
    case Normal(st', v, _) => Typed(after, st') && Covers(after, st') && st.Keys <= st'.Keys && HasOptType(v, t)
    case Broke(st', _) => cx.mayBreak && Typed(env, st') && st.Keys <= st'.Keys
    case Continued(st', _) => cx.mayBreak && Typed(env, st') && st.Keys <= st'.Keys
    case Returned(v, _) => cx.mayReturn && HasType(v, cx.ret)
    case Threw(v, st', _) => Clean(v) && Typed(env, st') && st.Keys <= st'.Keys
    case Stopped(why, _) => Excusable(why)
    case _ => true
  }

  ghost predicate Definitely(o: Outcome, names: set<Name>) {
    !o.Unspecified? && (o.Normal? ==> names <= o.store.Keys)
  }

  /** An outcome that does not fall through is judged in the outer scope. */
  lemma Escapes(o: Outcome, cx: Context, env: Scope, st: Store, inner: Scope, st1: Store, after: Scope, t: Type,
                after': Scope, t': Type)
    requires Grows(env, inner) && st.Keys <= st1.Keys && !o.Normal?
    requires SoundOutcome(o, cx, inner, st1, after, t)
    ensures SoundOutcome(o, cx, env, st, after', t')
  {
    match o
    case Broke(st', _) => TypedGrows(env, inner, st');
    case Continued(st', _) => TypedGrows(env, inner, st');
    case Threw(v, st', _) => TypedGrows(env, inner, st');
    case _ =>
  }

  lemma SoundOfExpr(p: Program, e: Expr, cx: Context, env: Scope, avail: set<Name>, st: Store, room: Room, fuel: nat)
    requires OkFuns(p, cx.sg) && OkExpr(e, env, cx.sg, 0) && Typed(env, st) && Covers(env, st)
    ensures var o := OfExpr(EvalExpr(p, e, st, room, fuel), st);
      && SoundOutcome(o, cx, env, st, env, TypeOf(e, env, cx.sg))
      && (Reads(e, avail) && avail <= st.Keys ==> Definitely(o, avail))
    decreases fuel, e, 1
  {
    SoundExpr(p, e, env, cx.sg, 0, st, room, fuel);
    if Reads(e, avail) && avail <= st.Keys {
      ReadsMore(e, avail, st.Keys);
    }
  }

  lemma {:induction false} ReadsMore(e: Expr, few: set<Name>, many: set<Name>)
    requires few <= many && Reads(e, few)
    ensures Reads(e, many)
    decreases e
  {
    match e
    case Un(_, e1) => ReadsMore(e1, few, many);
    case Bin(_, l, r) => ReadsMore(l, few, many); ReadsMore(r, few, many);
    case Call(_, args) => ArgsReadMore(args, few, many);
    case _ =>
  }

  lemma {:induction false} ArgsReadMore(args: Args, few: set<Name>, many: set<Name>)
    requires few <= many && ArgsRead(args, few)
    ensures ArgsRead(args, many)
    decreases args
  {
    match args
    case NoArgs =>
    case Arg(e, rest) => ReadsMore(e, few, many); ArgsReadMore(rest, few, many);
  }

  /** A well-formed statement keeps the store typed, leaves a value exactly when its static
      type is not void, and escapes only in the ways its context allows. */
  lemma {:induction false} SoundStmt(p: Program, s: Stmt, cx: Context, env: Scope, avail: set<Name>,
                                     st: Store, room: Room, fuel: nat)
    requires OkFuns(p, cx.sg) && OkStmt(s, cx, env) && |env| <= LOCALS_PER_FRAME
    requires Typed(env, st) && Covers(env, st)
    ensures var o := ExecStmt(p, s, st, room, fuel);
      && SoundOutcome(o, cx, env, st, StmtScope(s, env, cx.sg), StmtType(s, env, cx.sg))
      && (o.Normal? ==> Completes(s))
      && (Definite(s, avail) && avail <= st.Keys ==> Definitely(o, Assigned(s, avail)))
    decreases fuel, s, 1
  {
    hide OkFuns, OkStmt, ExecStmt, StmtScope, StmtType, SoundOutcome, Completes, Definite, Definitely, Assigned;
    match s
    case If(c, t) => SoundIf(p, s, cx, env, avail, st, room, fuel);
    case IfElse(c, t, f) => SoundIfElse(p, s, cx, env, avail, st, room, fuel);
    case While(c, b) => SoundWhile(p, s, cx, env, avail, st, room, fuel);
    case Try(b, x, h) => SoundTry(p, s, cx, env, avail, st, room, fuel);
    case _ => SoundSimple(p, s, cx, env, avail, st, room, fuel);
  }

  predicate Simple(s: Stmt) {
    !s.If? && !s.IfElse? && !s.While? && !s.Try?
  }

  lemma {:induction false} SoundSimple(p: Program, s: Stmt, cx: Context, env: Scope, avail: set<Name>,
                                       st: Store, room: Room, fuel: nat)
    requires Simple(s) && OkFuns(p, cx.sg) && OkStmt(s, cx, env)
    requires Typed(env, st) && Covers(env, st)
    ensures var o := ExecStmt(p, s, st, room, fuel);
      && SoundOutcome(o, cx, env, st, StmtScope(s, env, cx.sg), StmtType(s, env, cx.sg))
      && (o.Normal? ==> Completes(s))
      && (Definite(s, avail) && avail <= st.Keys ==> Definitely(o, Assigned(s, avail)))
    decreases fuel, s, 0
  {
    hide OkFuns, OkExpr, Resolve, Known, EvalExpr, TypeOf, Typed, Covers;
    if !s.Break? && !s.Continue? {
      SoundOfExpr(p, s.e, cx, env, avail, st, room, fuel);
      var o := EvalExpr(p, s.e, st, room, fuel);
      if s.Assign? && o.Yields? {
        SoundAssign(s.e, s.x, s.declared, cx, env, st, o.value.value);
      }
    }
  }

  lemma {:induction false} SoundIf(p: Program, s: Stmt, cx: Context, env: Scope, avail: set<Name>,
                                   st: Store, room: Room, fuel: nat)
    requires s.If? && OkFuns(p, cx.sg) && OkStmt(s, cx, env) && |env| <= LOCALS_PER_FRAME
    requires Typed(env, st) && Covers(env, st)
    ensures var o := ExecStmt(p, s, st, room, fuel);
      && SoundOutcome(o, cx, env, st, StmtScope(s, env, cx.sg), StmtType(s, env, cx.sg))
      && (o.Normal? ==> Completes(s))
      && (Definite(s, avail) && avail <= st.Keys ==> Definitely(o, Assigned(s, avail)))
    decreases fuel, s, 0
  {
    hide OkFuns, OkExpr, EvalExpr, TypeOf, Reads, ExecBlock, OkBlock, BlockScope, BlockType, BlockCompletes,
      BlockDefinite, BlockAssigned, Grows, Typed, Covers, Known, Resolve, HasType, Before;
    SoundOfExpr(p, s.cond, cx, env, avail, st, room, fuel);
    SoundBlock(p, s.thn, cx, env, avail, st, room, fuel);
    BlockGrows(s.thn, cx, env);
    TypedGrows(env, BlockScope(s.thn, env, cx.sg), st);
  }

  lemma SoundAssign(e: Expr, x: Name, declared: Option<Type>, cx: Context, env: Scope, st: Store, v: Value)
    requires OkStmt(Assign(e, x, declared), cx, env) && Typed(env, st) && Covers(env, st)
    requires HasType(v, TypeOf(e, env, cx.sg))
    ensures var env' := StmtScope(Assign(e, x, declared), env, cx.sg);
      Typed(env', st[x := v]) && Covers(env', st[x := v])
  {
    hide OkExpr, TypeOf, Resolve, Typed, Covers;
    var ty := if declared.Some? then declared.value else TypeOf(e, env, cx.sg);
    if Known(env, x) {
      StoreKnown(env, x, st, v);
    } else {
      StoreFresh(env, x, ty, st, v);
    }
  }

  lemma StoreKnown(env: Scope, x: Name, st: Store, v: Value)
    requires Typed(env, st) && Covers(env, st) && Known(env, x) && HasType(v, env[Resolve(env, x)].ty)
    ensures Typed(env, st[x := v]) && Covers(env, st[x := v])
  {
    hide HasType;
  }

  lemma StoreFresh(env: Scope, x: Name, ty: Type, st: Store, v: Value)
    requires Typed(env, st) && Covers(env, st) && !Known(env, x) && HasType(v, ty)
    ensures Typed(env + [Local(x, ty)], st[x := v]) && Covers(env + [Local(x, ty)], st[x := v])
  {
    hide HasType;
    GrowsByOne(env, x, ty);
    TypedGrows(env, env + [Local(x, ty)], st);
  }

  lemma {:induction false} SoundIfElse(p: Program, s: Stmt, cx: Context, env: Scope, avail: set<Name>,
                                       st: Store, room: Room, fuel: nat)
    requires s.IfElse? && OkFuns(p, cx.sg) && OkStmt(s, cx, env) && |env| <= LOCALS_PER_FRAME
    requires Typed(env, st) && Covers(env, st)
    ensures var o := ExecStmt(p, s, st, room, fuel);
      && SoundOutcome(o, cx, env, st, StmtScope(s, env, cx.sg), StmtType(s, env, cx.sg))
      && (o.Normal? ==> Completes(s))
      && (Definite(s, avail) && avail <= st.Keys ==> Definitely(o, Assigned(s, avail)))
    decreases fuel, s, 0
  {
    hide OkFuns, OkExpr, EvalExpr, TypeOf, Reads, ExecBlock, OkBlock, BlockScope, BlockType, BlockCompletes,
      BlockDefinite, BlockAssigned, Grows, Typed, Covers, Known, Resolve, HasType, Before;
    SoundOfExpr(p, s.cond, cx, env, avail, st, room, fuel);
    SoundArms(p, s, cx, env, avail, st, room, fuel);
  }

  lemma {:induction false} SoundArms(p: Program, s: Stmt, cx: Context, env: Scope, avail: set<Name>,
                                       st: Store, room: Room, fuel: nat)
    requires s.IfElse? && OkFuns(p, cx.sg) && OkStmt(s, cx, env) && |env| <= LOCALS_PER_FRAME
    requires Typed(env, st) && Covers(env, st)
    ensures var t := ExecBlock(p, s.thn, st, room, fuel);
      && SoundOutcome(t, cx, env, st, StmtScope(s, env, cx.sg), StmtType(s, env, cx.sg))
      && (t.Normal? ==> BlockCompletes(s.thn))
      && (BlockDefinite(s.thn, avail) && avail <= st.Keys ==> Definitely(t, BlockAssigned(s.thn, avail)))
    ensures var f := ExecBlock(p, s.els, st, room, fuel);
      && SoundOutcome(f, cx, env, st, StmtScope(s, env, cx.sg), StmtType(s, env, cx.sg))
      && (f.Normal? ==> BlockCompletes(s.els))
      && (BlockDefinite(s.els, avail) && avail <= st.Keys ==> Definitely(f, BlockAssigned(s.els, avail)))
    decreases fuel, s, -1
  {
    hide OkFuns, OkExpr, EvalExpr, TypeOf, Reads, ExecBlock, OkBlock, BlockScope, BlockType, BlockCompletes,
      BlockDefinite, BlockAssigned, Grows, Typed, Covers, Known, Resolve, HasType, Before;
    var env1, env2 := BlockScope(s.thn, env, cx.sg), StmtScope(s, env, cx.sg);
    BlockGrows(s.thn, cx, env);
    BlockGrows(s.els, cx, env1);
    SoundBlock(p, s.thn, cx, env, avail, st, room, fuel);
    TypedGrows(env, env1, st);
    SoundBlock(p, s.els, cx, env1, avail, st, room, fuel);
    var t, f := ExecBlock(p, s.thn, st, room, fuel), ExecBlock(p, s.els, st, room, fuel);
    if t.Normal? {
      TypedGrows(env1, env2, t.store);
    }
    if !f.Normal? {
      Escapes(f, cx, env, st, env1, st, env2, BlockType(s.els, env1, cx.sg), env2, StmtType(s, env, cx.sg));
    }
  }

  lemma RestrictTyped(env: Scope, st: Store, names: set<Name>)
    requires Typed(env, st)
    ensures Typed(env, Restrict(st, names))
  {}

  lemma {:induction false} SoundWhile(p: Program, s: Stmt, cx: Context, env: Scope, avail: set<Name>,
                                      st: Store, room: Room, fuel: nat)
    requires s.While? && OkFuns(p, cx.sg) && OkStmt(s, cx, env) && |env| <= LOCALS_PER_FRAME
    requires Typed(env, st) && Covers(env, st)
    ensures var o := ExecStmt(p, s, st, room, fuel);
      && SoundOutcome(o, cx, env, st, StmtScope(s, env, cx.sg), StmtType(s, env, cx.sg))
      && (o.Normal? ==> Completes(s))
      && (Definite(s, avail) && avail <= st.Keys ==> Definitely(o, Assigned(s, avail)))
    decreases fuel, s, 0
  {
    hide OkFuns, OkExpr, EvalExpr, TypeOf, Reads, ExecBlock, OkBlock, BlockScope, BlockType, BlockCompletes,
      BlockDefinite, BlockAssigned, Grows, Typed, Covers, AfterBody;
    SoundOfExpr(p, s.cond, cx, env, avail, st, room, fuel);
    BlockGrows(s.body, cx.(mayBreak := true), env);
    TypedGrows(env, BlockScope(s.body, env, cx.sg), st);
    SoundTurn(p, s, cx, env, avail, st, room, fuel);
  }

  lemma {:induction false} SoundTurn(p: Program, s: Stmt, cx: Context, env: Scope, avail: set<Name>,
                                     st: Store, room: Room, fuel: nat)
    requires s.While? && OkFuns(p, cx.sg) && OkStmt(s, cx, env) && |env| <= LOCALS_PER_FRAME
    requires Typed(env, st) && Covers(env, st)
    ensures var o := AfterBody(p, s, st, room, fuel, ExecBlock(p, s.body, st, room, fuel));
      && SoundOutcome(o, cx, env, st, StmtScope(s, env, cx.sg), TVoid)
      && (Definite(s, avail) && avail <= st.Keys ==> Definitely(o, avail))
    decreases fuel, s, -1
  {
    hide OkFuns, OkExpr, ExecStmt, ExecBlock, OkBlock, BlockScope, BlockType, BlockCompletes,
      BlockDefinite, BlockAssigned, Grows, Typed, Covers, HasType;
    var env' := StmtScope(s, env, cx.sg);
    BlockGrows(s.body, cx.(mayBreak := true), env);
    SoundBlock(p, s.body, cx.(mayBreak := true), env, avail, st, room, fuel);
    var o := ExecBlock(p, s.body, st, room, fuel);
    if o.Normal? || o.Continued? || o.Broke? {
      if o.Normal? {
        TypedGrows(env, env', o.store);
      }
      LoopStore(env, env', st, o.store);
      if fuel > 0 {
        SoundStmt(p, s, cx, env, avail, Restrict(o.store, st.Keys), room, fuel - 1);
      }
    }
  }

  /** The store of the next loop turn has the variables of the previous one. */
  lemma LoopStore(env: Scope, env': Scope, st: Store, left: Store)
    requires Grows(env, env') && Covers(env, st) && st.Keys <= left.Keys && Typed(env, left)
    ensures var st1 := Restrict(left, st.Keys);
      st1.Keys == st.Keys && Typed(env, st1) && Covers(env, st1) && Typed(env', st1) && Covers(env', st1)
  {
    var st1 := Restrict(left, st.Keys);
    RestrictTyped(env, left, st.Keys);
    TypedGrows(env, env', st1);
  }

  lemma {:induction false} SoundTry(p: Program, s: Stmt, cx: Context, env: Scope, avail: set<Name>,
                                    st: Store, room: Room, fuel: nat)
    requires s.Try? && OkFuns(p, cx.sg) && OkStmt(s, cx, env) && |env| <= LOCALS_PER_FRAME
    requires Typed(env, st) && Covers(env, st)
    ensures var o := ExecStmt(p, s, st, room, fuel);
      && SoundOutcome(o, cx, env, st, StmtScope(s, env, cx.sg), StmtType(s, env, cx.sg))
      && (o.Normal? ==> Completes(s))
      && (Definite(s, avail) && avail <= st.Keys ==> Definitely(o, Assigned(s, avail)))
    decreases fuel, s, 0
  {
    hide OkFuns, ExecBlock, OkBlock, BlockScope, BlockType, BlockCompletes,
      BlockDefinite, BlockAssigned, Grows, Typed, Covers, HasType, Known, Resolve, Forget;
    var inTry := cx.(mayBreak := false, mayReturn := false);
    var env1 := BlockScope(s.body, env, cx.sg);
    assert (env1 + [Local(s.err, TAny)])[..|env1|] == env1;
    BlockGrows(s.body, inTry, env);
    SoundBlock(p, s.body, inTry, env, avail, st, room.(tries := room.tries + 1), fuel);
    var o := ExecBlock(p, s.body, st, room.(tries := room.tries + 1), fuel);
    if o.Threw? {
      SoundHandler(p, s, cx, env, avail, st, room, fuel, o.store, o.v);
    }
  }

  lemma {:induction false} SoundHandler(p: Program, s: Stmt, cx: Context, env: Scope, avail: set<Name>,
                                        st: Store, room: Room, fuel: nat, thrown: Store, v: Value)
    requires s.Try? && OkFuns(p, cx.sg) && OkStmt(s, cx, env) && |env| <= LOCALS_PER_FRAME
    requires Typed(env, st) && Covers(env, st)
    requires Clean(v) && Typed(env, thrown) && st.Keys <= thrown.Keys
    ensures var o := Forget(s.err, ExecBlock(p, s.handler, Restrict(thrown, st.Keys)[s.err := v], room, fuel));
      && SoundOutcome(o, cx, env, st, BlockScope(s.body, env, cx.sg), TVoid)
      && (o.Normal? ==> BlockCompletes(s.handler))
      && (BlockDefinite(s.handler, avail + {s.err}) && avail <= st.Keys ==>
            Definitely(o, BlockAssigned(s.handler, avail + {s.err}) - {s.err}))
    decreases fuel, s, -1
  {
    hide OkFuns, ExecBlock, OkBlock, BlockScope, BlockType, BlockCompletes,
      BlockDefinite, BlockAssigned, Grows, Typed, Covers, HasType, Known, Resolve;
    var env1 := BlockScope(s.body, env, cx.sg);
    var env2 := env1 + [Local(s.err, TAny)];
    BlockGrows(s.body, cx.(mayBreak := false, mayReturn := false), env);
    GrowsByOne(env1, s.err, TAny);
    GrowsTransitive(env, env1, env2);
    CaughtStore(env, env1, s.err, st, thrown, v);
    var st1 := Restrict(thrown, st.Keys)[s.err := v];
    SoundBlock(p, s.handler, cx, env2, avail + {s.err}, st1, room, fuel);
    var o2 := ExecBlock(p, s.handler, st1, room, fuel);
    if o2.Normal? {
      ForgetError(env, env1, s.err, st, o2.store);
    } else {
      Escapes(o2, cx, env, st, env2, st1, env2, BlockType(s.handler, env2, cx.sg), env1, TVoid);
    }
  }

  /** The store a handler starts with is typed in the scope with the error variable. */
  lemma CaughtStore(env: Scope, env1: Scope, x: Name, st: Store, thrown: Store, v: Value)
    requires Grows(env, env1) && !Known(env1, x) && Covers(env, st)
    requires st.Keys <= thrown.Keys && Typed(env, thrown) && Clean(v)
    ensures var st1 := Restrict(thrown, st.Keys)[x := v];
      && st1.Keys == st.Keys + {x} && x !in st.Keys
      && Typed(env1 + [Local(x, TAny)], st1) && Covers(env1 + [Local(x, TAny)], st1)
  {
    var kept := Restrict(thrown, st.Keys);
    RestrictTyped(env, thrown, st.Keys);
    assert Covers(env, kept);
    TypedGrows(env, env1, kept);
    GrowsByOne(env1, x, TAny);
    TypedGrows(env1, env1 + [Local(x, TAny)], kept);
    if x in st.Keys {
      GrowsKnown(env, env1, x);
    }
  }

  lemma ForgetError(env: Scope, env1: Scope, x: Name, st: Store, caught: Store)
    requires Grows(env, env1) && !Known(env1, x) && Covers(env, st) && st.Keys <= caught.Keys
    requires Typed(env1 + [Local(x, TAny)], caught) && Covers(env1 + [Local(x, TAny)], caught)
    ensures var left := Restrict(caught, caught.Keys - {x});
      Typed(env1, left) && Covers(env1, left) && st.Keys <= left.Keys
  {
    var left := Restrict(caught, caught.Keys - {x});
    GrowsByOne(env1, x, TAny);
    RestrictTyped(env1 + [Local(x, TAny)], caught, caught.Keys - {x});
    TypedGrows(env1, env1 + [Local(x, TAny)], left);
    forall y | y in left
      ensures Known(env1, y)
    {
      var slot := Resolve(env1 + [Local(x, TAny)], y);
      assert (env1 + [Local(x, TAny)])[slot].name == y;
      assert env1[slot].name == y;
    }
    forall y | y in st.Keys
      ensures y != x
    {
      GrowsKnown(env, env1, y);
    }
  }

  lemma {:induction false} SoundBlock(p: Program, b: Block, cx: Context, env: Scope, avail: set<Name>,
                                      st: Store, room: Room, fuel: nat)
    requires OkFuns(p, cx.sg) && OkBlock(b, cx, env) && |env| <= LOCALS_PER_FRAME
    requires Typed(env, st) && Covers(env, st)
    ensures var o := ExecBlock(p, b, st, room, fuel);
      && SoundOutcome(o, cx, env, st, BlockScope(b, env, cx.sg), BlockType(b, env, cx.sg))
      && (o.Normal? ==> BlockCompletes(b))
      && (BlockDefinite(b, avail) && avail <= st.Keys ==> Definitely(o, BlockAssigned(b, avail)))
    decreases fuel, b, 1
  {
    hide OkFuns, OkStmt, ExecStmt, StmtScope, StmtType, Completes, Definite, Assigned, Typed, Covers, Grows, HasType;
    match b
    case End =>
    case Then(s, rest) =>
      SoundStmt(p, s, cx, env, avail, st, room, fuel);
      var o := ExecStmt(p, s, st, room, fuel);
      if o.Normal? && rest != End {
        var env1 := StmtScope(s, env, cx.sg);
        StmtGrows(s, cx, env);
        SoundBlock(p, rest, cx, env1, Assigned(s, avail), o.store, room, fuel);
        var o2 := ExecBlock(p, rest, o.store, room, fuel);
        if !o2.Normal? {
          Escapes(o2, cx, env, st, env1, o.store, BlockScope(b, env, cx.sg), BlockType(rest, env1, cx.sg),
                  BlockScope(b, env, cx.sg), BlockType(b, env, cx.sg));
        }
      }
  }

  // ----- programs -----

  /** A run of a well-formed program is fully specified: it never depends on an unassigned
      variable, and it never ends in a type error. */
  lemma WellTypedPrograms(p: Program, limited: bool, fuel: nat)
    requires OkProgram(p)
    ensures var b := RunMain(p, limited, fuel);
      && !b.Unknown?
      && (b.Ends? && b.why.Uncaught? ==> Clean(b.why.v))
      && (b.Ends? && !b.why.Uncaught? && !b.why.Finished? ==> Excusable(b.why))
  {
    SoundInvoke(p, MAIN_NAME, [], AllSignatures(p), Room(0, 1, 0, limited), fuel);
  }
}
