/** Whole programs: compiling a printed program gives exactly the bytes of its code tree, with
    every call, forward or backward, holding the entry of its callee. */
module Compilation {
  import opened Bytes
  import opened Values
  import opened Machine
  import opened Syntax
  import opened Semantics
  import opened Soundness
  import opened CodeGen
  import opened Emission
  import opened Tokens
  import opened Parsing
  import opened Printing
  import opened Pratt
  import opened Shapes
  import opened Statements

  // ----- headers -----

  /** The parameter list is consumed. */
  lemma {:induction false} ParseParams(st: State, ps: seq<Param>, acc: seq<Param>, rest: Tokens)
    requires st.toks == ParamsThen(ps, On(RANGLE, rest)) && |acc| + |ps| <= 16
    ensures Params(st, acc) == ParamsResult(st.(toks := On(RANGLE, rest), prev := Params(st, acc).st.prev), acc + ps)
    decreases |ps|
  {
    hide Params, ParseType;
    if ps == [] {
      assert acc + ps == acc;
      NoParams(st, acc, rest);
    } else {
      var after := if |ps| == 1 then On(RANGLE, rest) else On(COMMA, ParamsThen(ps[1..], On(RANGLE, rest)));
      var st1 := OneParam(st, ps[0], acc, after);
      assert ps == [ps[0]] + ps[1..];
      assert (acc + [ps[0]]) + ps[1..] == acc + ps;
      assert |ps| == 1 ==> ps[1..] == [];
      ParseParams(st1, ps[1..], acc + [ps[0]], rest);
    }
  }

  lemma NoParams(st: State, acc: seq<Param>, rest: Tokens)
    requires st.toks == On(RANGLE, rest)
    ensures Params(st, acc) == ParamsResult(st, acc)
  {
    hide ParseType;
  }

  lemma OneParam(st: State, p: Param, acc: seq<Param>, after: Tokens) returns (st1: State)
    requires st.toks == On(ID(p.name), On(COLON, On(ID(TypeName(p.ty)), after))) && |acc| < 16
    requires after.Tok? && (after.head.kind == RANGLE || after.head.kind == COMMA)
    ensures Params(st, acc) == Params(st1, acc + [p])
    ensures st1 == st.(toks := if after.head.kind == COMMA then after.tail else after, prev := st1.prev)
  {
    hide ParseType;
    var mid := Advance(Advance(st));
    TypeParsed(mid, p.ty, after);
    st1 := if after.head.kind == COMMA then Advance(Advance(mid)) else Advance(mid);
  }

  lemma TypeParsed(st: State, t: Type, after: Tokens)
    requires st.toks == On(ID(TypeName(t)), after) && after.Tok?
    requires after.head.kind == RANGLE || after.head.kind == COMMA || after.head.kind == COLON
    ensures ParseType(st) == TypeResult(Advance(st), t)
  {}

  function HeaderThen(f: Fun, rest: Tokens): Tokens {
    ParamsThen(f.params, On(RANGLE, On(ARROW, On(ID(TypeName(f.ret)), On(COLON, On(ID(f.name), rest))))))
  }

  lemma ParseHeader(st: State, f: Fun, rest: Tokens)
    requires st.toks == HeaderThen(f, rest) && |f.params| <= 16
    ensures FunctionHeader(st) == Header(st.(toks := rest, prev := Token(ID(f.name), LINE)), f.params, Some(f.ret), Some(f.name))
  {
    hide Params, ParamsThen, ParseType;
    var after := On(COLON, On(ID(f.name), rest));
    ParseParams(st, f.params, [], On(ARROW, On(ID(TypeName(f.ret)), after)));
    assert [] + f.params == f.params;
    var st1 := st.(toks := On(ID(TypeName(f.ret)), after), prev := Token(ARROW, LINE));
    TypeParsed(st1, f.ret, after);
  }

  // ----- the first pass -----

  lemma {:induction false} SkipExpr(e: Expr, level: nat, rest: Tokens, depth: nat)
    requires depth > 0
    ensures Skipped(ExprThen(e, level, rest), depth) == Skipped(rest, depth)
    decreases e, 2
  {
    if Level(e) < level {
      SkipBare(e, On(RPAREN, rest), depth);
    } else {
      SkipBare(e, rest, depth);
    }
  }

  lemma {:induction false} SkipBare(e: Expr, rest: Tokens, depth: nat)
    requires depth > 0
    ensures Skipped(BareThen(e, rest), depth) == Skipped(rest, depth)
    decreases e, 1
  {
    hide ExprThen, ArgsThen;
    match e
    case Un(op, e1) => SkipExpr(e1, PREC_UNARY, rest, depth);
    case Bin(op, l, r) =>
      SkipExpr(l, Level(e), On(TokenOf(op), ExprThen(r, Level(e) + 1, rest)), depth);
      SkipExpr(r, Level(e) + 1, rest, depth);
    case Call(f, args) => SkipArgs(args, On(RPAREN, rest), depth);
    case _ =>
  }

  lemma {:induction false} SkipArgs(args: Args, rest: Tokens, depth: nat)
    requires depth > 0
    ensures Skipped(ArgsThen(args, rest), depth) == Skipped(rest, depth)
    decreases args
  {
    hide ExprThen;
    if args.Arg? {
      if args.others.NoArgs? {
        SkipExpr(args.first, PREC_OR, rest, depth);
      } else {
        SkipExpr(args.first, PREC_OR, On(COMMA, ArgsThen(args.others, rest)), depth);
        SkipArgs(args.others, rest, depth);
      }
    }
  }

  lemma SkipOther(k: Kind, rest: Tokens, depth: nat)
    requires k != LBRACKET && k != RBRACKET && depth > 0
    ensures Skipped(On(k, rest), depth) == Skipped(rest, depth)
  {}

  /** Brackets are balanced in a printed statement. */
  lemma {:induction false} SkipStmt(s: Stmt, rest: Tokens, depth: nat)
    requires depth > 0
    ensures Skipped(StmtThen(s, rest), depth) == Skipped(rest, depth)
    decreases s, 1
  {
    hide ExprThen, BlockThen, Skipped, On;
    SkipOther(SEMICOLON, rest, depth);
    match s
    case Eval(e) => SkipExpr(e, PREC_OR, On(SEMICOLON, rest), depth);
    case Assign(e, x, declared) => SkipAssign(s, rest, depth);
    case Print(e) =>
      SkipExpr(e, PREC_OR, On(BANG_BANG, On(SEMICOLON, rest)), depth);
      SkipOther(BANG_BANG, On(SEMICOLON, rest), depth);
    case If(c, t) => SkipCondition(c, QUESTION, t, On(SEMICOLON, rest), depth);
    case IfElse(c, t, f) =>
      var els := BlockThen(f, On(SEMICOLON, rest));
      SkipCondition(c, QUESTION, t, On(COLON, els), depth);
      SkipOther(COLON, els, depth);
      SkipBlock(f, On(SEMICOLON, rest), depth);
    case While(c, b) => SkipCondition(c, AT, b, On(SEMICOLON, rest), depth);
    case Break => SkipOther(DOT, On(SEMICOLON, rest), depth);
    case Continue => SkipOther(DOT_DOT, On(SEMICOLON, rest), depth);
    case Return(e) =>
      SkipOther(HAT, ExprThen(e, PREC_OR, On(SEMICOLON, rest)), depth);
      SkipExpr(e, PREC_OR, On(SEMICOLON, rest), depth);
    case Throw(e) =>
      SkipOther(KEY_THROW, ExprThen(e, PREC_OR, On(SEMICOLON, rest)), depth);
      SkipExpr(e, PREC_OR, On(SEMICOLON, rest), depth);
    case Try(b, x, h) =>
      var handler := On(ID(x), BlockThen(h, rest));
      SkipOther(KEY_TRY, BlockThen(b, On(KEY_CATCH, handler)), depth);
      SkipBlock(b, On(KEY_CATCH, handler), depth);
      SkipOther(KEY_CATCH, handler, depth);
      SkipOther(ID(x), BlockThen(h, rest), depth);
      SkipBlock(h, rest, depth);
  }

  lemma {:induction false} SkipCondition(c: Expr, k: Kind, b: Block, rest: Tokens, depth: nat)
    requires (k == QUESTION || k == AT) && depth > 0
    ensures Skipped(ExprThen(c, PREC_OR, On(k, BlockThen(b, rest))), depth) == Skipped(rest, depth)
    decreases b, 2
  {
    hide ExprThen, BlockThen, Skipped, On;
    SkipExpr(c, PREC_OR, On(k, BlockThen(b, rest)), depth);
    SkipOther(k, BlockThen(b, rest), depth);
    SkipBlock(b, rest, depth);
  }

  lemma SkipAssign(s: Stmt, rest: Tokens, depth: nat)
    requires s.Assign? && depth > 0
    ensures Skipped(StmtThen(s, rest), depth) == Skipped(rest, depth)
  {
    hide ExprThen, StmtThen, Skipped, On;
    var end := On(SEMICOLON, rest);
    var typed := if s.declared.None? then end else On(COLON, On(ID(TypeName(s.declared.value)), end));
    var after := On(ASSIGN, On(ID(s.x), typed));
    AssignTokens(s, rest, after);
    SkipExpr(s.e, PREC_OR, after, depth);
    SkipOther(ASSIGN, On(ID(s.x), typed), depth);
    SkipOther(ID(s.x), typed, depth);
    SkipOther(SEMICOLON, rest, depth);
    if s.declared.Some? {
      SkipOther(COLON, On(ID(TypeName(s.declared.value)), end), depth);
      SkipOther(ID(TypeName(s.declared.value)), end, depth);
    }
  }

  lemma {:induction false} SkipStmts(b: Block, rest: Tokens, depth: nat)
    requires depth > 0
    ensures Skipped(StmtsThen(b, rest), depth) == Skipped(rest, depth)
    decreases b, 0
  {
    hide StmtThen, Skipped;
    match b
    case End =>
    case Then(s, others) =>
      SkipStmt(s, StmtsThen(others, rest), depth);
      SkipStmts(others, rest, depth);
  }

  lemma {:induction false} SkipBlock(b: Block, rest: Tokens, depth: nat)
    requires depth > 0
    ensures Skipped(BlockThen(b, rest), depth) == Skipped(rest, depth)
    decreases b, 1
  {
    hide StmtsThen;
    SkipStmts(b, On(RBRACKET, rest), depth + 1);
  }

  function Declaration(f: Fun): Function {
    Function(f.name, -1, Some(f.ret), ParamTypes(f.params), [])
  }

  function Declarations(p: Program, n: nat): (r: seq<Function>)
    requires n <= |p|
    ensures |r| == n && forall i :: 0 <= i < n ==> r[i] == Declaration(p[i])
  {
    seq(n, i requires 0 <= i < n => Declaration(p[i]))
  }

  predicate ParamsFit(p: Program) {
    forall i :: 0 <= i < |p| ==> |p[i].params| <= 16
  }

  /** The first pass enters every function in order. */
  lemma {:induction false} PredeclareFrom(st: State, p: Program, n: nat)
    requires n <= |p| && DistinctNames(p) && ParamsFit(p)
    requires st.toks == FunsThen(p, n) && st.fault == NoFault && st.out.funcs == Declarations(p, n)
    ensures Predeclared(st).fault == NoFault && Predeclared(st).out.funcs == Declarations(p, |p|)
    decreases |p| - n
  {
    hide BlockThen, FunctionHeader, Skipped, SkipBrackets, Find, ParamsThen, ParamTypes;
    if n < |p| {
      var f, rest := p[n], FunsThen(p, n + 1);
      var st1 := Advance(st);
      assert st1.toks == HeaderThen(f, BlockThen(f.body, rest));
      ParseHeader(st1, f, BlockThen(f.body, rest));
      NotYetDeclared(p, n);
      assert Declarations(p, n) + [Declaration(f)] == Declarations(p, n + 1);
      BlockTokens(f.body, rest);
      SkipBody(f.body, rest);
      var st2 := Advance(Declared(FunctionHeader(st1).st, f.name, Some(f.ret), ParamTypes(f.params)));
      var st3 := SkipBrackets(st2, 1);
      PredeclareFrom(st3, p, n + 1);
      assert Predeclared(st) == Predeclared(st3);
    }
  }

  lemma BlockTokens(b: Block, rest: Tokens)
    ensures BlockThen(b, rest) == On(LBRACKET, StmtsThen(b, On(RBRACKET, rest)))
  {}

  lemma SkipBody(b: Block, rest: Tokens)
    ensures Skipped(StmtsThen(b, On(RBRACKET, rest)), 1) == rest
  {
    hide StmtsThen;
    SkipStmts(b, On(RBRACKET, rest), 1);
    assert Skipped(On(RBRACKET, rest), 1) == Skipped(rest, 0);
  }

  lemma NotYetDeclared(p: Program, n: nat)
    requires n < |p| && DistinctNames(p)
    ensures Find(Declarations(p, n), p[n].name) == -1
  {
    assert forall i :: 0 <= i < n ==> Declarations(p, n)[i].name == p[i].name;
  }

  // ----- one function -----

  /** The entry of the i-th function when n functions have been compiled. */
  function EntryAfter(p: Program, n: nat, i: nat, sg: Signatures): Function
    requires n <= |p| && i < |p|
  {
    var f := p[i];
    if i < n then Function(f.name, Narrow(Entry(p, i, sg)), Some(f.ret), ParamTypes(f.params), [])
    else Function(f.name, -1, Some(f.ret), ParamTypes(f.params),
                  FirstOf(Sites(FunsCode(p, n, sg), 0, CallHole(f.name)), PENDING_MAX))
  }

  function FuncsAfter(p: Program, n: nat, sg: Signatures): (r: seq<Function>)
    requires n <= |p|
    ensures |r| == |p| && forall i :: 0 <= i < |p| ==> r[i] == EntryAfter(p, n, i, sg)
  {
    seq(|p|, i requires 0 <= i < |p| => EntryAfter(p, n, i, sg))
  }

  function TargetsAfter(p: Program, n: nat, sg: Signatures): Targets
    requires n <= |p|
  {
    Targets(Entries(p, n, sg), 0)
  }

  /** The calls of function n before its definition. */
  function ForwardSites(p: Program, n: nat, sg: Signatures): seq<nat>
    requires n < |p|
  {
    Sites(FunsCode(p, n, sg), 0, CallHole(p[n].name))
  }

  /** The code when the first n functions have been compiled: when a function is defined its recorded
      calls are patched, and then its own code follows. */
  function CodeAfter(p: Program, n: nat, sg: Signatures): (r: seq<byte>)
    requires n <= |p|
    ensures |r| == Size(FunsCode(p, n, sg))
    decreases n, 0
  {
    if n == 0 then []
    else DefinedCode(p, n - 1, sg) + Flat(FunCode(p[n - 1], sg, Size(FunsCode(p, n - 1, sg))), TargetsAfter(p, n, sg))
  }

  /** The code once function n has its address. */
  function DefinedCode(p: Program, n: nat, sg: Signatures): (r: seq<byte>)
    requires n < |p|
    ensures |r| == Size(FunsCode(p, n, sg))
    decreases n, 1
  {
    PatchAll(CodeAfter(p, n, sg), FirstOf(ForwardSites(p, n, sg), PENDING_MAX), Narrow(Entry(p, n, sg)))
  }

  /** The compiler's output when the first n functions have been compiled. */
  function OutAfter(p: Program, n: nat, sg: Signatures): Output
    requires n <= |p|
  {
    Output(CodeAfter(p, n, sg), FuncsAfter(p, n, sg), [])
  }

  /** What the compiler leaves in its code buffer. */
  function EmittedBytes(p: Program): seq<byte> {
    CodeAfter(p, |p|, AllSignatures(p)) + Flat(Cat(CallTo(MAIN_NAME), Ins(HALT)), ProgramTargets(p))
  }

  predicate NoNatives(p: Program) {
    forall i :: 0 <= i < |p| ==> !IsNative(p[i].name)
  }

  /** The output once function n has its address. */
  function Defined(p: Program, n: nat, sg: Signatures): Output
    requires n < |p|
  {
    Output(DefinedCode(p, n, sg), FuncsAfter(p, n, sg)[n := EntryAfter(p, n + 1, n, sg)], [])
  }

  predicate Compilable(p: Program, sg: Signatures) {
    && DistinctNames(p) && sg == AllSignatures(p) && NoNatives(p) && ParamsFit(p)
    && (forall i :: 0 <= i < |p| ==> Entry(p, i, sg) < 0x8000_0000)
  }

  lemma FoundAt(p: Program, n: nat, i: nat, sg: Signatures)
    requires n <= |p| && i < |p| && DistinctNames(p)
    ensures Find(FuncsAfter(p, n, sg), p[i].name) == i
  {
    hide EntryAfter;
    EntryNames(p, n, sg);
    var j := Find(FuncsAfter(p, n, sg), p[i].name);
    assert FuncsAfter(p, n, sg)[i].name == p[i].name;
  }

  lemma EntryNames(p: Program, n: nat, sg: Signatures)
    requires n <= |p|
    ensures forall i :: 0 <= i < |p| ==> FuncsAfter(p, n, sg)[i].name == p[i].name
  {}

  /** The pending calls of a function are patched when its definition starts. */
  lemma DefinePatches(p: Program, n: nat, sg: Signatures)
    requires n < |p| && Compilable(p, sg)
    ensures var o1 := Put(OutAfter(p, n, sg), Encode(JUMP(0)));
      && |o1.code| == Entry(p, n, sg)
      && Define(o1, p[n].name, |o1.code|, Some(p[n].ret), ParamTypes(p[n].params)) == Put(Defined(p, n, sg), Encode(JUMP(0)))
  {
    hide Encode, Flat, Sites, FunsCode, Find, OkFun, AllSignatures, Narrow, CodeAfter, PatchAll, FirstOf;
    FiveBytes(0);
    FoundAt(p, n, n, sg);
    SitesInside(FunsCode(p, n, sg), 0, CallHole(p[n].name));
    FirstAreIn(ForwardSites(p, n, sg), PENDING_MAX);
    PatchInFront(CodeAfter(p, n, sg), Encode(JUMP(0)), FirstOf(ForwardSites(p, n, sg), PENDING_MAX), Narrow(Entry(p, n, sg)));
  }

  lemma FirstAreIn(s: seq<nat>, n: nat)
    ensures forall x | x in FirstOf(s, n) :: x in s
  {}

  /** An operand lies inside the code of its tree. */
  lemma {:induction false} SitesInside(c: Code, base: nat, h: Hole)
    ensures forall s | s in Sites(c, base, h) :: base < s && s + 4 <= base + Size(c)
    decreases c
  {
    match c
    case Cat(a, b) =>
      SitesInside(a, base, h);
      SitesInside(b, base + Size(a), h);
    case Within(_, a) => SitesInside(a, base, h);
    case _ =>
  }

  /** Patches inside the first part do not touch what follows. */
  lemma {:induction false} PatchInFront(code: seq<byte>, more: seq<byte>, sites: seq<nat>, v: int32)
    requires forall s | s in sites :: s + 4 <= |code|
    ensures PatchAll(code + more, sites, v) == PatchAll(code, sites, v) + more
    decreases |sites|
  {
    hide Patch;
    if sites != [] {
      assert sites[0] in sites;
      OneInFront(code, more, sites[0], v);
      forall s | s in sites[1..]
        ensures s + 4 <= |Patch(code, sites[0], v)|
      {
        assert s in sites;
      }
      PatchInFront(Patch(code, sites[0], v), more, sites[1..], v);
    }
  }

  lemma OneInFront(code: seq<byte>, more: seq<byte>, s: nat, v: int32)
    requires s + 4 <= |code|
    ensures Patch(code + more, s, v) == Patch(code, s, v) + more
  {
    assert (code + more)[..s] == code[..s] && (code + more)[s + 4..] == code[s + 4..] + more;
  }

  lemma DefinedIsWf(p: Program, n: nat, sg: Signatures)
    requires n < |p| && Compilable(p, sg)
    ensures WfOutput(Defined(p, n, sg))
  {
    hide Flat, CodeAfter, DefinedCode, Sites, FunsCode, Find, OkFun, Narrow, AllSignatures;
    forall i | 0 <= i < |p|
      ensures Defined(p, n, sg).funcs[i].name == p[i].name && |Defined(p, n, sg).funcs[i].pending| <= PENDING_MAX
    {
    }
  }

  /** The table has the signatures of the program. */
  lemma DefinedTable(p: Program, n: nat, sg: Signatures)
    requires n < |p| && Compilable(p, sg)
    ensures Table(Defined(p, n, sg).funcs, sg)
  {
    hide Flat, CodeAfter, DefinedCode, Sites, FunsCode, Find, OkFun, Narrow, Entry, WfOutput, FirstOf, IsNative;
    var o := Defined(p, n, sg);
    DefinedIsWf(p, n, sg);
    forall f | f in sg
      ensures !IsNative(f) && Find(o.funcs, f) >= 0
      ensures o.funcs[Find(o.funcs, f)].ret == Some(sg[f].ret) && o.funcs[Find(o.funcs, f)].params == sg[f].params
    {
      var i := IndexOf(p, f);
      DefinedEntry(p, n, i, sg);
      FindOf(o, i);
      assert sg[f] == SignatureOf(p[i]);
    }
  }

  lemma DefinedEntry(p: Program, n: nat, i: nat, sg: Signatures)
    requires n < |p| && i < |p| && Compilable(p, sg)
    ensures var f := Defined(p, n, sg).funcs[i];
      f.name == p[i].name && f.ret == Some(p[i].ret) && f.params == ParamTypes(p[i].params)
      && f.addr == (if i <= n then Narrow(Entry(p, i, sg)) else -1)
  {
    hide Flat, CodeAfter, DefinedCode, Sites, FunsCode, OkFun, Narrow, AllSignatures, FirstOf;
  }

  /** The addresses that the compiler knows are the entries of the functions defined so far. */
  lemma DefinedTargets(p: Program, n: nat, sg: Signatures, f: Name)
    requires n < |p| && Compilable(p, sg)
    ensures CallTarget(KnownTargets(Defined(p, n, sg)).addrs, f) == CallTarget(Entries(p, n + 1, sg), f)
  {
    hide Flat, CodeAfter, DefinedCode, Sites, FunsCode, OkFun, Narrow, AllSignatures, Entry, Find, Entries, FirstOf, KnownTargets, Defined, WfOutput, IndexOf;
    var o := Defined(p, n, sg);
    DefinedIsWf(p, n, sg);
    DefinedLength(p, n, sg);
    if f in Entries(p, n + 1, sg) {
      OnlyEntries(p, n + 1, sg, f);
      var i :| 0 <= i < n + 1 && p[i].name == f;
      DefinedEntry(p, n, i, sg);
      KnownAddress(o, i);
      EntryIsKnown(p, n + 1, i, sg);
      KnownMap(o);
    } else {
      NotAmongFirst(p, n, sg, f);
    }
  }

  lemma KnownMap(o: Output)
    ensures KnownTargets(o).addrs == AddrMap(o.funcs)
  {}

  lemma NotAmongFirst(p: Program, n: nat, sg: Signatures, f: Name)
    requires n < |p| && Compilable(p, sg) && f !in Entries(p, n + 1, sg)
    ensures CallTarget(KnownTargets(Defined(p, n, sg)).addrs, f) == -1
  {
    hide Flat, CodeAfter, DefinedCode, Sites, FunsCode, OkFun, Narrow, AllSignatures, Entry, Find, Entries, FirstOf, AddrMap, Defined, WfOutput, IndexOf;
    var o := Defined(p, n, sg);
    DefinedIsWf(p, n, sg);
    DefinedLength(p, n, sg);
    if i :| 0 <= i < |p| && p[i].name == f {
      DefinedEntry(p, n, i, sg);
      KnownAddress(o, i);
      if i <= n {
        EntryIsKnown(p, n + 1, i, sg);
      }
    } else {
      forall i | 0 <= i < |p|
        ensures o.funcs[i].name != f
      {
        DefinedEntry(p, n, i, sg);
      }
      UnknownAddress(o, f);
    }
  }

  lemma DefinedLength(p: Program, n: nat, sg: Signatures)
    requires n < |p|
    ensures |Defined(p, n, sg).funcs| == |p|
  {}

  lemma UnknownAddress(o: Output, f: Name)
    requires forall i :: 0 <= i < |o.funcs| ==> o.funcs[i].name != f
    ensures CallTarget(KnownTargets(o).addrs, f) == -1
  {}

  lemma GenStoresDone(st: State, n: nat)
    requires WfOutput(st.out)
    ensures GenStores(st, n) == st.(out := Emitted(st.out, StoresCode(n))) && WfOutput(GenStores(st, n).out)
    decreases n
  {
    hide Emitted, Encode, WfOutput, Put;
    Kept(st.out, StoresCode(n));
    if n == 0 {
      EmitSkip(st.out);
    } else {
      EmitIns(st.out, STORE(SlotByte(n - 1)));
      Kept(st.out, StoreIn(n - 1));
      GenStoresDone(Gen(st, STORE(SlotByte(n - 1))), n - 1);
      EmitCat(st.out, StoreIn(n - 1), StoresCode(n - 1));
    }
  }

  /** The state behind the header of function n, its entry known and its parameters in scope. */
  function AtBody(f: Fun, body: Tokens, o: Output): State {
    State(body, Token(ID(f.name), LINE), [], ParamScope(f.params), Some(f.ret), o, NoFault)
  }

  /** Behind the jump over a function and the stores of its parameters the compiler is at its body. */
  lemma BodyStarts(st: State, f: Fun, sg: Signatures, o: Output, rest: Tokens)
    requires WfOutput(o) && Table(o.funcs, sg) && o.loops == [] && |f.params| <= 16
    requires st == AtBody(f, BlockThen(f.body, rest), Put(o, Encode(JUMP(0))))
    ensures var st1 := GenStores(st, |f.params|);
      && AtStmt(st1, BodyContext(f, sg), Breaks(f.body)) && st1.out.loops == [] && Here(st1) == |o.code| + 5 + 2 * |f.params|
      && st1 == st.(out := Emitted(Emitted(o, Ins(JUMP(0))), StoresCode(|f.params|)))
  {
    hide Emitted, Encode, WfOutput, Table, Put, BlockThen, GenStores, StoresCode, Breaks;
    EmitIns(o, JUMP(0));
    Kept(o, Ins(JUMP(0)));
    FiveBytes(0);
    GenStoresDone(st, |f.params|);
    var st1 := GenStores(st, |f.params|);
    var o1 := Emitted(o, Ins(JUMP(0)));
    Kept(o1, StoresCode(|f.params|));
    TableKept(o, Ins(JUMP(0)), sg);
    TableKept(o1, StoresCode(|f.params|), sg);
    EmittedKeeps(o, Ins(JUMP(0)));
    EmittedKeeps(o1, StoresCode(|f.params|));
  }

  /** The body has been parsed with the declared return type. */
  predicate BodyParsed(st1: State, f: Fun, sg: Signatures, rest: Tokens) {
    BlockRule(st1) == BlockParsed(st1, f.body, Token(RBRACKET, LINE), rest, sg) && BlockType(f.body, st1.locals, sg) == f.ret
  }

  lemma OkBodyParsed(st1: State, f: Fun, sg: Signatures, rest: Tokens)
    requires OkFun(f, sg) && st1.locals == ParamScope(f.params) && st1.toks == BlockThen(f.body, rest)
    requires AtStmt(st1, BodyContext(f, sg), Breaks(f.body))
    ensures BodyParsed(st1, f, sg, rest)
  {
    hide Emitted, WfOutput, Table, OkBlock, BlockThen, BlockRule, Breaks, BlockType, BlockParsed, AtStmt;
    ParseBlock(st1, f.body, BodyContext(f, sg), rest);
  }

  /** The parameter stores, the body and the return, behind the jump over the function. */
  lemma BodyEmitted(st: State, f: Fun, sg: Signatures, o: Output, rest: Tokens) returns (r: State)
    requires WfOutput(o) && Table(o.funcs, sg) && o.loops == [] && |f.params| <= 16
    requires st == AtBody(f, BlockThen(f.body, rest), Put(o, Encode(JUMP(0))))
    requires BodyParsed(GenStores(st, |f.params|), f, sg, rest)
    ensures var base := |o.code|;
      var body := BodyCode(f, sg, base + 5);
      && r == BlockRule(GenStores(st, |f.params|))
      && r == State(rest, Token(RBRACKET, LINE), [f.ret], r.locals, Some(f.ret),
                    Emitted(Emitted(Emitted(o, Ins(JUMP(0))), StoresCode(|f.params|)), body), NoFault)
  {
    hide Emitted, Encode, WfOutput, Table, Put, BlockScope, BlockThen, GenStores, BlockRule, StoresCode, Breaks;
    BodyStarts(st, f, sg, o, rest);
    r := BlockRule(GenStores(st, |f.params|));
  }

  /** The return and the patch of the jump complete the code of the function. */
  lemma FunctionEmitted(f: Fun, sg: Signatures, o: Output)
    requires WfOutput(o)
    ensures var base := |o.code|;
      var body := BodyCode(f, sg, base + 5);
      var o1 := Put(Emitted(Emitted(Emitted(o, Ins(JUMP(0))), StoresCode(|f.params|)), body), Encode(RET));
      PatchTo(o1, base + 1, |o1.code|) == Emitted(o, FunCode(f, sg, base))
  {
    hide Emitted, Encode, WfOutput, PatchTo, BodyCode, StoresCode, Put;
    var base := |o.code|;
    var stores, body := StoresCode(|f.params|), BodyCode(f, sg, base + 5);
    var o1 := Emitted(o, Ins(JUMP(0)));
    Kept(o, Ins(JUMP(0)));
    Kept(o1, stores);
    Kept(Emitted(o1, stores), body);
    EmitIns(Emitted(Emitted(o1, stores), body), RET);
    Kept(Emitted(Emitted(o1, stores), body), Ins(RET));
    EmitThree(o1, stores, body, Ins(RET));
    RetAndJumpSize();
    var end := base + 5 + 2 * |f.params| + Size(body) + 1;
    PatchEmitted(o, JUMP(0), Cat(stores, Cat(body, Ins(RET))), end);
    EmitCat(o, Jump(end), Cat(stores, Cat(body, Ins(RET))));
  }

  lemma RetAndJumpSize()
    ensures Size(Ins(RET)) == 1 && Size(Ins(JUMP(0))) == 5
  {
    FiveBytes(0);
  }

  /** The output after function n is the one the next function starts with. */
  lemma NextOutput(p: Program, n: nat, sg: Signatures)
    requires n < |p| && Compilable(p, sg)
    ensures Emitted(Defined(p, n, sg), FunCode(p[n], sg, Size(FunsCode(p, n, sg)))) == OutAfter(p, n + 1, sg)
  {
    hide FunCode, Flat, Sites, DefinedCode, Record, OkFun, Entry, Entries, KnownTargets, AllSignatures, Narrow, FirstOf, EntryAfter;
    var o := Defined(p, n, sg);
    var c, base := FunCode(p[n], sg, Size(FunsCode(p, n, sg))), Size(FunsCode(p, n, sg));
    forall f
      ensures CallTarget(KnownTargets(o).addrs, f) == CallTarget(TargetsAfter(p, n + 1, sg).addrs, f)
    {
      DefinedTargets(p, n, sg, f);
    }
    BreakTarget(o);
    SameTargets(c, KnownTargets(o), TargetsAfter(p, n + 1, sg));
    assert FunsCode(p, n + 1, sg) == Cat(FunsCode(p, n, sg), c);
    forall i | 0 <= i < |p|
      ensures Recorded(o.funcs, c, base)[i] == EntryAfter(p, n + 1, i, sg)
    {
      NextEntry(p, n, i, sg);
    }
    assert Recorded(o.funcs, c, base) == FuncsAfter(p, n + 1, sg);
  }

  lemma BreakTarget(o: Output)
    ensures KnownTargets(o).brk == 0
  {}

  lemma FlatOfCat(a: Code, b: Code, k: Targets)
    ensures Flat(Cat(a, b), k) == Flat(a, k) + Flat(b, k)
  {}

  lemma NextEntry(p: Program, n: nat, i: nat, sg: Signatures)
    requires n < |p| && i < |p| && Compilable(p, sg)
    ensures var c := FunCode(p[n], sg, Size(FunsCode(p, n, sg)));
      var f := Defined(p, n, sg).funcs[i];
      Record(f, Sites(c, Size(FunsCode(p, n, sg)), CallHole(f.name))) == EntryAfter(p, n + 1, i, sg)
  {
    hide FunCode, FunsCode, Flat, CodeAfter, DefinedCode, Sites, OkFun, Entries, Entry, AllSignatures, FirstOf, DistinctNames, NoNatives, Size, Narrow;
    var before := FunsCode(p, n, sg);
    var c := FunCode(p[n], sg, Size(before));
    if i <= n {
      EntryFits(p, i, sg);
    } else {
      FunsCons(p, n, sg);
      MorePending(before, c, CallHole(p[i].name));
      FullStays(FirstOf(Sites(before, 0, CallHole(p[i].name)), PENDING_MAX), Sites(c, Size(before), CallHole(p[i].name)), PENDING_MAX);
    }
  }

  lemma EntryFits(p: Program, i: nat, sg: Signatures)
    requires i < |p| && Compilable(p, sg)
    ensures Narrow(Entry(p, i, sg)) != -1
  {
    hide FunsCode, OkFun, Size;
  }

  lemma FunsCons(p: Program, n: nat, sg: Signatures)
    requires n < |p|
    ensures FunsCode(p, n + 1, sg) == Cat(FunsCode(p, n, sg), FunCode(p[n], sg, Size(FunsCode(p, n, sg))))
  {
    hide FunCode, Size;
  }

  lemma MorePending(a: Code, b: Code, h: Hole)
    ensures FirstOf(FirstOf(Sites(a, 0, h), PENDING_MAX) + Sites(b, Size(a), h), PENDING_MAX) == FirstOf(Sites(Cat(a, b), 0, h), PENDING_MAX)
  {
    hide Sites, Size, FirstOf;
    SitesOfCat(a, b, 0, h);
    FirstOfMore([], Sites(a, 0, h), Sites(b, Size(a), h), PENDING_MAX);
    assert [] + Sites(a, 0, h) == Sites(a, 0, h);
    assert [] + (Sites(a, 0, h) + Sites(b, Size(a), h)) == Sites(Cat(a, b), 0, h);
  }

  // ----- whole programs -----

  /** The state behind the header of the n-th function. */
  function BehindHeader(p: Program, n: nat, sg: Signatures, rest: Tokens): State
    requires n < |p|
  {
    AtBody(p[n], BlockThen(p[n].body, rest), Put(Defined(p, n, sg), Encode(JUMP(0))))
  }

  /** parse_function up to the body of the n-th printed function. */
  lemma ReachBody(st: State, p: Program, n: nat, sg: Signatures, rest: Tokens)
    requires n < |p| && Compilable(p, sg)
    requires st == State(HeaderThen(p[n], BlockThen(p[n].body, rest)), st.prev, [], [], Some(TVoid), OutAfter(p, n, sg), NoFault)
    ensures var res := FunctionBody(BehindHeader(p, n, sg, rest), |p[n].params|, Some(p[n].ret));
      var st2 := Fix(res.st, Here(st) + 1).(locals := [], ret := Some(TVoid), types := []);
      FunctionDefinition(st) == st2.(out := SetReturn(st2.out, p[n].name, res.t))
  {
    hide Emitted, Encode, WfOutput, Table, Put, BlockThen, HeaderThen, OutAfter, Defined, FunctionBody, FunctionHeader, Define, FunsCode,
      PatchTo, SetReturn, Entry;
    var f := p[n];
    CompilableParams(p, n, sg);
    ParseHeader(Gen(st, JUMP(0)), f, BlockThen(f.body, rest));
    DefinePatches(p, n, sg);
    DefinedBase(p, n, sg);
  }

  lemma CompilableParams(p: Program, n: nat, sg: Signatures)
    requires n < |p| && Compilable(p, sg)
    ensures |p[n].params| <= 16
  {
    hide DistinctNames, NoNatives, AllSignatures, Entry;
  }

  /** parse_function on the n-th printed function, given that its body is parsed. */
  lemma FinishFunction(st: State, p: Program, n: nat, sg: Signatures, rest: Tokens)
    requires n < |p| && Compilable(p, sg)
    requires st == State(HeaderThen(p[n], BlockThen(p[n].body, rest)), st.prev, [], [], Some(TVoid), OutAfter(p, n, sg), NoFault)
    requires BodyParsed(GenStores(BehindHeader(p, n, sg, rest), |p[n].params|), p[n], sg, rest)
    ensures FunctionDefinition(st) == st.(toks := rest, prev := Token(RBRACKET, LINE), out := OutAfter(p, n + 1, sg))
  {
    hide Emitted, Encode, WfOutput, Table, Put, BlockScope, BlockThen, GenStores, BlockRule, HeaderThen, OutAfter, Defined,
      FunctionHeader, Define, FunsCode, PatchTo, SetReturn, BodyCode, StoresCode, FunCode, OkFun, Entry, BodyParsed, FunctionDefinition;
    var f := p[n];
    CompilableParams(p, n, sg);
    ReachBody(st, p, n, sg, rest);
    DefinedIsWf(p, n, sg);
    DefinedTable(p, n, sg);
    DefinedBase(p, n, sg);
    var o := Defined(p, n, sg);
    var r := BodyEmitted(BehindHeader(p, n, sg, rest), f, sg, o, rest);
    FunctionEmitted(f, sg, o);
    NextOutput(p, n, sg);
    SetReturnDone(p, n, sg);
  }

  /** parse_function on the n-th printed function. */
  lemma ParseFunction(st: State, p: Program, n: nat, sg: Signatures, rest: Tokens)
    requires n < |p| && Compilable(p, sg) && OkFun(p[n], sg)
    requires st == State(HeaderThen(p[n], BlockThen(p[n].body, rest)), st.prev, [], [], Some(TVoid), OutAfter(p, n, sg), NoFault)
    ensures FunctionDefinition(st) == st.(toks := rest, prev := Token(RBRACKET, LINE), out := OutAfter(p, n + 1, sg))
  {
    hide Emitted, Encode, WfOutput, Table, Put, BlockThen, GenStores, HeaderThen, OutAfter, Defined, OkFun, Entry, BodyParsed,
      FunctionDefinition, Compilable, AtStmt;
    BodyReached(p, n, sg, rest);
    OkBodyParsed(GenStores(BehindHeader(p, n, sg, rest), |p[n].params|), p[n], sg, rest);
    FinishFunction(st, p, n, sg, rest);
  }

  /** The compiler is ready for the body of the n-th function. */
  lemma BodyReached(p: Program, n: nat, sg: Signatures, rest: Tokens)
    requires n < |p| && Compilable(p, sg)
    ensures var st1 := GenStores(BehindHeader(p, n, sg, rest), |p[n].params|);
      && AtStmt(st1, BodyContext(p[n], sg), Breaks(p[n].body)) && st1.out.loops == []
      && st1.locals == ParamScope(p[n].params) && st1.toks == BlockThen(p[n].body, rest)
  {
    hide Emitted, Encode, WfOutput, Table, Put, BlockThen, GenStores, Defined, Entry, AtStmt, Breaks;
    CompilableParams(p, n, sg);
    DefinedIsWf(p, n, sg);
    DefinedTable(p, n, sg);
    DefinedBase(p, n, sg);
    BodyStarts(BehindHeader(p, n, sg, rest), p[n], sg, Defined(p, n, sg), rest);
  }

  lemma DefinedBase(p: Program, n: nat, sg: Signatures)
    requires n < |p|
    ensures var o := Defined(p, n, sg);
      o.loops == [] && |o.code| == Size(FunsCode(p, n, sg)) == |OutAfter(p, n, sg).code|
  {
    hide FunsCode;
  }

  lemma SetReturnDone(p: Program, n: nat, sg: Signatures)
    requires n < |p| && Compilable(p, sg)
    ensures SetReturn(OutAfter(p, n + 1, sg), p[n].name, p[n].ret) == OutAfter(p, n + 1, sg)
  {
    hide FunsCode, Flat, CodeAfter, DefinedCode, Find, OkFun, AllSignatures, Sites, Entry, Narrow;
    FoundAt(p, n + 1, n, sg);
    var fs := FuncsAfter(p, n + 1, sg);
    assert fs[n := fs[n].(ret := Some(p[n].ret))] == fs;
  }

  /** compile_internal from the n-th function on. */
  lemma {:induction false} ParseFunctions(st: State, p: Program, n: nat, sg: Signatures)
    requires n <= |p| && Compilable(p, sg) && forall i :: n <= i < |p| ==> OkFun(p[i], sg)
    requires st == State(FunsThen(p, n), st.prev, [], [], Some(TVoid), OutAfter(p, n, sg), NoFault)
    ensures TopLevel(st) == st.(toks := Eof, prev := TopLevel(st).prev, out := OutAfter(p, |p|, sg))
    decreases |p| - n
  {
    hide FunctionDefinition, OutAfter, BlockThen, ParamsThen, Compilable, OkFun;
    if n < |p| {
      var rest := FunsThen(p, n + 1);
      var st1 := Advance(st);
      assert st1.toks == HeaderThen(p[n], BlockThen(p[n].body, rest));
      ParseFunction(st1, p, n, sg, rest);
      var st2 := FunctionDefinition(st1);
      ParseFunctions(st2, p, n + 1, sg);
      assert TopLevel(st) == TopLevel(st2);
    }
  }

  lemma FirstOutput(p: Program, sg: Signatures)
    ensures OutAfter(p, 0, sg) == Output([], Declarations(p, |p|), [])
  {
    forall i | 0 <= i < |p|
      ensures EntryAfter(p, 0, i, sg) == Declaration(p[i])
    {
    }
    assert FuncsAfter(p, 0, sg) == Declarations(p, |p|);
  }

  /** The entries fit an int32 when the whole program does. */
  lemma {:induction false} EntriesInside(p: Program, n: nat, i: nat, sg: Signatures)
    requires i < n <= |p|
    ensures Entry(p, i, sg) <= Size(FunsCode(p, n, sg))
    decreases n
  {
    hide BodyCode, StoresCode, Jump, Ins;
    if i < n - 1 {
      EntriesInside(p, n - 1, i, sg);
    } else {
      var base := Size(FunsCode(p, i, sg));
      assert Size(FunCode(p[i], sg, base)) >= 5;
    }
  }

  /** The call of main and the halt complete the bytes of the program. */
  lemma FinishDone(st: State, p: Program, sg: Signatures)
    requires Compilable(p, sg) && Defines(p, MAIN_NAME) && st.out == OutAfter(p, |p|, sg)
    ensures Finish(st) == st.(out := st.out.(code := EmittedBytes(p)))
  {
    hide FunsCode, Flat, CodeAfter, DefinedCode, Encode, OkFun, Narrow, Entry, Find, FirstOf, Sites, BlockDefinite;
    var i := IndexOf(p, MAIN_NAME);
    FoundAt(p, |p|, i, sg);
    EntryIsKnown(p, |p|, i, sg);
    var k := ProgramTargets(p);
    FlatOfCat(CallTo(MAIN_NAME), Ins(HALT), k);
    LastBytes(k, CallTarget(k.addrs, MAIN_NAME));
    Associative(st.out.code, Encode(CALL(CallTarget(k.addrs, MAIN_NAME))), Encode(HALT));
  }

  lemma LastBytes(k: Targets, addr: int32)
    requires addr == CallTarget(k.addrs, MAIN_NAME)
    ensures Flat(CallTo(MAIN_NAME), k) == Encode(CALL(addr)) && Flat(Ins(HALT), k) == Encode(HALT)
  {
    hide Encode;
  }

  lemma ProgramIsCompilable(p: Program)
    requires OkProgram(p) && Fits(p) && NoNatives(p)
    ensures Compilable(p, AllSignatures(p))
  {
    hide FunsCode, OkFun, Sites, BlockDefinite, AllSignatures, Entry, IndexOf, Flat, CodeAfter, DefinedCode;
    var sg := AllSignatures(p);
    FunsAreOk(p);
    forall i | 0 <= i < |p|
      ensures |p[i].params| <= 16
    {
      OkFunParams(p[i], sg);
    }
    SmallIsCompilable(p);
  }

  lemma FunsAreOk(p: Program)
    requires OkProgram(p)
    ensures forall i :: 0 <= i < |p| ==> OkFun(p[i], AllSignatures(p))
  {
    hide OkFun, BlockDefinite, AllSignatures, IndexOf;
  }

  lemma MainIsDefined(p: Program)
    requires OkProgram(p)
    ensures Defines(p, MAIN_NAME)
  {
    hide OkFun, BlockDefinite, AllSignatures, IndexOf;
  }

  lemma OkFunParams(f: Fun, sg: Signatures)
    requires OkFun(f, sg)
    ensures |f.params| <= 16
  {
    hide OkBlock;
  }

  lemma SmallIsCompilable(p: Program)
    requires DistinctNames(p) && ParamsFit(p) && Fits(p) && NoNatives(p)
    ensures Compilable(p, AllSignatures(p))
  {
    hide FunsCode, Sites, AllSignatures, Entry, IndexOf, Flat, CodeAfter, DefinedCode, NoNatives, DistinctNames, ParamsFit;
    var sg := AllSignatures(p);
    forall i | 0 <= i < |p|
      ensures Entry(p, i, sg) < 0x8000_0000
    {
      EntriesInside(p, |p|, i, sg);
      assert Size(ProgramCode(p)) >= Size(FunsCode(p, |p|, sg));
    }
  }

  /** Compiling the tokens of a printed program gives exactly these bytes. */
  lemma CompileEmits(p: Program)
    requires OkProgram(p) && Fits(p) && NoNatives(p)
    ensures Compile(PrintProgram(p)) == Compiled(EmittedBytes(p))
  {
    hide OkProgram, Fits, NoNatives, OutAfter, EmittedBytes, Predeclared, TopLevel, Finish, FunsThen, AllSignatures;
    var sg := AllSignatures(p);
    ProgramIsCompilable(p);
    FirstOutput(p, sg);
    ParamsInside(p, sg);
    PredeclareFrom(Start(PrintProgram(p)), p, 0);
    var st := WithFunctions(PrintProgram(p));
    FunsAreOk(p);
    MainIsDefined(p);
    ParseFunctions(st, p, 0, sg);
    FinishDone(TopLevel(st), p, sg);
  }

  lemma ParamsInside(p: Program, sg: Signatures)
    requires Compilable(p, sg)
    ensures ParamsFit(p) && DistinctNames(p)
  {
    hide OkBlock, AllSignatures, FunsCode, Sites, Entry;
  }
}
