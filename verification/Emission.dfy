/** The compiler's output buffer, its table of functions with pending call patches and its
    stack of loops with pending break patches. */
module Emission {
  import opened Bytes
  import opened Machine
  import opened Syntax
  import opened CodeGen

  const PENDING_MAX: nat := 64
  const BREAKS_MAX: nat := 64

  /** A function known by name; its address is -1 until its definition is compiled. Pending
      entries are the offsets of call operands emitted before that. A return type of None is
      one that is still to be inferred. */
  datatype Function = Function(name: Name, addr: int32, ret: Option<Type>, params: seq<Type>, pending: seq<nat>)

  /** A loop being compiled: where its condition starts and the offsets of its break operands. */
  datatype Loop = Loop(start: nat, breaks: seq<nat>)

  datatype Output = Output(code: seq<byte>, funcs: seq<Function>, loops: seq<Loop>)

  /** find_function: the first function of that name, or -1. */
  function Find(funcs: seq<Function>, x: Name): (i: int)
    ensures -1 <= i < |funcs|
    ensures i >= 0 ==> funcs[i].name == x
    ensures i < 0 ==> forall j :: 0 <= j < |funcs| ==> funcs[j].name != x
    ensures forall j :: 0 <= j < i ==> funcs[j].name != x
    decreases |funcs|
  {
    if funcs == [] then -1
    else if funcs[0].name == x then 0
    else
      var i := Find(funcs[1..], x);
      assert forall j :: 1 <= j < |funcs| ==> funcs[j] == funcs[1..][j - 1];
      if i < 0 then -1 else i + 1
  }

  // ----- primitive operations -----

  function Put(o: Output, bytes: seq<byte>): Output {
    o.(code := o.code + bytes)
  }

  /** patch_int32 with a code position. */
  function PatchTo(o: Output, offset: nat, target: nat): Output {
    o.(code := Patch(o.code, offset, Narrow(target)))
  }

  /** At most PENDING_MAX patches are recorded, and only while the address is unknown. */
  function Record(f: Function, sites: seq<nat>): Function {
    if f.addr != -1 || |f.pending| >= PENDING_MAX then f else f.(pending := FirstOf(f.pending + sites, PENDING_MAX))
  }

  function FirstOf(s: seq<nat>, n: nat): (r: seq<nat>)
    ensures |r| <= n
  {
    if |s| <= n then s else s[..n]
  }

  /** emit_direct_function_call. */
  function EmitCall(o: Output, i: nat): Output
    requires i < |o.funcs|
  {
    o.(code := o.code + Encode(CALL(o.funcs[i].addr)), funcs := o.funcs[i := Record(o.funcs[i], [|o.code| + 1])])
  }

  /** The jump of a break out of the innermost loop, its target still 0. */
  function EmitBreak(o: Output): Output
    requires o.loops != []
  {
    o.(code := o.code + Encode(JUMP(0)), loops := MoreBreaks(o.loops, [|o.code| + 1]))
  }

  function MoreBreaks(loops: seq<Loop>, sites: seq<nat>): seq<Loop> {
    if loops == [] then loops
    else var n := |loops| - 1; loops[n := loops[n].(breaks := loops[n].breaks + sites)]
  }

  // ----- emitting a whole code tree -----

  function AddrMap(funcs: seq<Function>): map<Name, int32> {
    map x | x in (set i | 0 <= i < |funcs| :: funcs[i].name) :: if Find(funcs, x) >= 0 then funcs[Find(funcs, x)].addr else -1
  }

  /** The targets known at this point of the compilation. */
  function KnownTargets(o: Output): Targets {
    Targets(AddrMap(o.funcs), 0)
  }

  function Recorded(funcs: seq<Function>, c: Code, base: nat): (r: seq<Function>)
    ensures |r| == |funcs|
    ensures forall i :: 0 <= i < |funcs| ==> r[i] == Record(funcs[i], Sites(c, base, CallHole(funcs[i].name)))
  {
    seq(|funcs|, i requires 0 <= i < |funcs| => Record(funcs[i], Sites(c, base, CallHole(funcs[i].name))))
  }

  function Emitted(o: Output, c: Code): Output {
    Output(o.code + Flat(c, KnownTargets(o)), Recorded(o.funcs, c, |o.code|), MoreBreaks(o.loops, Sites(c, |o.code|, BreakHole)))
  }

  predicate WfOutput(o: Output) {
    && (forall i :: 0 <= i < |o.funcs| ==> |o.funcs[i].pending| <= PENDING_MAX)
    && forall i, j :: 0 <= i < j < |o.funcs| ==> o.funcs[i].name != o.funcs[j].name
  }

  lemma FirstOfMore(p: seq<nat>, a: seq<nat>, b: seq<nat>, n: nat)
    ensures FirstOf(FirstOf(p + a, n) + b, n) == FirstOf(p + (a + b), n)
  {
    if |p + a| <= n {
      assert (p + a) + b == p + (a + b);
    } else {
      assert ((p + a)[..n] + b)[..n] == (p + a)[..n] == (p + (a + b))[..n];
    }
  }

  lemma RecordMore(f: Function, a: seq<nat>, b: seq<nat>)
    ensures Record(Record(f, a), b) == Record(f, a + b)
  {
    hide FirstOf;
    if |f.pending| < PENDING_MAX {
      FirstOfMore(f.pending, a, b, PENDING_MAX);
      FullStays(FirstOf(f.pending + a, PENDING_MAX), b, PENDING_MAX);
    }
  }

  lemma FullStays(p: seq<nat>, s: seq<nat>, n: nat)
    ensures |p| == n ==> FirstOf(p + s, n) == p
  {
    assert (p + s)[..|p|] == p;
  }

  lemma MoreBreaksOn(loops: seq<Loop>, a: seq<nat>, b: seq<nat>)
    ensures MoreBreaks(MoreBreaks(loops, a), b) == MoreBreaks(loops, a + b)
  {
    if loops != [] {
      var l := loops[|loops| - 1];
      assert (l.breaks + a) + b == l.breaks + (a + b);
    }
  }

  /** Only patches change: the same functions are found at the same addresses. */
  predicate SameTable(f: seq<Function>, g: seq<Function>) {
    |f| == |g| && forall i :: 0 <= i < |f| ==> f[i] == g[i].(pending := f[i].pending)
  }

  lemma {:induction false} SameFind(f: seq<Function>, g: seq<Function>, x: Name)
    requires SameTable(f, g)
    ensures Find(f, x) == Find(g, x)
  {
    var i, j := Find(f, x), Find(g, x);
    assert i >= 0 ==> g[i].name == f[i].name;
    assert j >= 0 ==> g[j].name == f[j].name;
  }

  lemma SameAddresses(f: seq<Function>, g: seq<Function>)
    requires SameTable(f, g)
    ensures AddrMap(f) == AddrMap(g)
  {
    hide Find;
    forall x
      ensures x in AddrMap(f) <==> x in AddrMap(g)
      ensures x in AddrMap(f) ==> AddrMap(f)[x] == AddrMap(g)[x]
    {
      SameFind(f, g, x);
      if x in AddrMap(f) {
        var i :| 0 <= i < |f| && f[i].name == x;
        assert g[i].name == x;
      }
      if x in AddrMap(g) {
        var i :| 0 <= i < |g| && g[i].name == x;
        assert f[i].name == x;
      }
    }
  }

  lemma EmitKeepsTable(o: Output, c: Code)
    ensures SameTable(Emitted(o, c).funcs, o.funcs) && KnownTargets(Emitted(o, c)) == KnownTargets(o)
    ensures |Emitted(o, c).code| == |o.code| + Size(c) && |Emitted(o, c).loops| == |o.loops|
    ensures WfOutput(o) ==> WfOutput(Emitted(o, c))
  {
    hide Sites, Flat;
    SameAddresses(Emitted(o, c).funcs, o.funcs);
  }

  lemma RecordedCat(funcs: seq<Function>, a: Code, b: Code, n: nat)
    ensures Recorded(Recorded(funcs, a, n), b, n + Size(a)) == Recorded(funcs, Cat(a, b), n)
  {
    hide Record, Size;
    forall i | 0 <= i < |funcs|
      ensures Recorded(Recorded(funcs, a, n), b, n + Size(a))[i] == Recorded(funcs, Cat(a, b), n)[i]
    {
      var h := CallHole(funcs[i].name);
      assert Recorded(funcs, a, n)[i].name == funcs[i].name by {
        SameName(funcs[i], Sites(a, n, h));
      }
      RecordMore(funcs[i], Sites(a, n, h), Sites(b, n + Size(a), h));
    }
  }

  lemma SameName(f: Function, sites: seq<nat>)
    ensures Record(f, sites).name == f.name
  {}

  /** Emitting one tree after the other. */
  lemma EmitCat(o: Output, a: Code, b: Code)
    ensures Emitted(Emitted(o, a), b) == Emitted(o, Cat(a, b))
  {
    hide KnownTargets, Recorded, MoreBreaks;
    EmitKeepsTable(o, a);
    var n := |o.code|;
    RecordedCat(o.funcs, a, b, n);
    MoreBreaksOn(o.loops, Sites(a, n, BreakHole), Sites(b, n + Size(a), BreakHole));
    Associative(o.code, Flat(a, KnownTargets(o)), Flat(b, KnownTargets(o)));
  }

  lemma Associative(a: seq<byte>, b: seq<byte>, c: seq<byte>)
    ensures (a + b) + c == a + (b + c)
  {}

  /** A tree without symbolic operands only appends its bytes. */
  lemma EmitPlain(o: Output, c: Code)
    requires WfOutput(o) && (c.Emit? || c.Skip?)
    ensures Emitted(o, c) == Put(o, if c.Emit? then c.bytes else [])
  {
    assert forall i :: 0 <= i < |o.funcs| ==> o.funcs[i].pending + [] == o.funcs[i].pending;
    if o.loops != [] {
      assert o.loops[|o.loops| - 1].breaks + [] == o.loops[|o.loops| - 1].breaks;
    }
  }

  lemma EmitSkip(o: Output)
    requires WfOutput(o)
    ensures Emitted(o, Skip) == o
  {
    EmitPlain(o, Skip);
    assert o.code + [] == o.code;
  }

  lemma EmitIns(o: Output, i: Instr)
    requires WfOutput(o)
    ensures Put(o, Encode(i)) == Emitted(o, Ins(i))
  {
    EmitPlain(o, Ins(i));
  }

  lemma EmitCallIs(o: Output, i: nat)
    requires WfOutput(o) && i < |o.funcs|
    ensures EmitCall(o, i) == Emitted(o, CallTo(o.funcs[i].name))
  {
    hide Encode, AddrMap, CallTarget, Find;
    var f := o.funcs[i].name;
    KnownAddress(o, i);
    forall m | 0 <= m < |o.funcs|
      ensures EmitCall(o, i).funcs[m] == Emitted(o, CallTo(f)).funcs[m]
    {
      if m != i {
        assert Sites(CallTo(f), |o.code|, CallHole(o.funcs[m].name)) == [];
        assert o.funcs[m].pending + [] == o.funcs[m].pending;
      }
    }
    NoSites(o.loops);
  }

  lemma KnownAddress(o: Output, i: nat)
    requires WfOutput(o) && i < |o.funcs|
    ensures CallTarget(AddrMap(o.funcs), o.funcs[i].name) == o.funcs[i].addr
  {
    FindOf(o, i);
  }

  lemma FindOf(o: Output, i: nat)
    requires WfOutput(o) && i < |o.funcs|
    ensures Find(o.funcs, o.funcs[i].name) == i
  {}

  lemma EmitBreakIs(o: Output)
    requires WfOutput(o) && o.loops != []
    ensures EmitBreak(o) == Emitted(o, BreakOut)
  {
    hide Encode;
    assert forall i :: 0 <= i < |o.funcs| ==> o.funcs[i].pending + [] == o.funcs[i].pending;
  }

  /** Patching the operand of an instruction after more code has been emitted gives the output
      with the target in place from the start. */
  lemma PatchEmitted(o: Output, i: Instr, b: Code, target: nat)
    requires WfOutput(o) && HasTarget(i)
    ensures PatchTo(Emitted(Emitted(o, Ins(i)), b), |o.code| + 1, target) == Emitted(Emitted(o, Ins(Retarget(i, Narrow(target)))), b)
  {
    hide Encode, AddrMap, Recorded, MoreBreaks, WfOutput, Sites, Narrow;
    var v := Narrow(target);
    EmitPlain(o, Ins(i));
    EmitPlain(o, Ins(Retarget(i, v)));
    SameLength(i, v);
    var k := KnownTargets(o);
    PatchInstr(o.code + Encode(i) + Flat(b, k), o.code + Encode(Retarget(i, v)) + Flat(b, k), |o.code| + 1, o.code, i, Flat(b, k), v);
  }

  lemma SameLength(i: Instr, v: int32)
    requires HasTarget(i)
    ensures |Encode(Retarget(i, v))| == |Encode(i)| == 5
  {}

  // ----- loops -----

  function PushLoop(o: Output, start: nat): Output {
    o.(loops := o.loops + [Loop(start, [])])
  }

  /** The breaks of the innermost loop are patched to the current position and the loop is left. */
  function PopLoop(o: Output): Output
    requires o.loops != []
  {
    var n := |o.loops| - 1;
    o.(code := PatchAll(o.code, o.loops[n].breaks, Narrow(|o.code|)), loops := o.loops[..n])
  }

  /** A loop from its body on: every break of the body goes just past the loop. */
  lemma LoopEmitted(o: Output, start: nat, body: Code, last: Instr)
    requires WfOutput(o)
    ensures var end := |o.code| + Size(body) + |Encode(last)|;
      PopLoop(Emitted(Emitted(PushLoop(o, start), body), Ins(last))) == Emitted(Emitted(o, Within(Narrow(end), body)), Ins(last))
  {
    hide Encode, KnownTargets, Narrow, Sites, Flat, Recorded, Size, MoreBreaks, PatchAll, WfOutput;
    var o1 := PushLoop(o, start);
    var v := Narrow(|o.code| + Size(body) + |Encode(last)|);
    LoopIsWf(o, start);
    EmitKeepsTable(o1, body);
    EmitPlain(Emitted(o1, body), Ins(last));
    EmitKeepsTable(o, Within(v, body));
    EmitPlain(Emitted(o, Within(v, body)), Ins(last));
    LoopBytes(o, start, body, last, v);
    LoopRecords(o, body, v);
    InnermostBreaks(o.loops, start, Sites(body, |o.code|, BreakHole));
    NoSites(o.loops);
  }

  lemma LoopIsWf(o: Output, start: nat)
    requires WfOutput(o)
    ensures WfOutput(PushLoop(o, start))
  {}

  lemma InnermostBreaks(loops: seq<Loop>, start: nat, sites: seq<nat>)
    ensures MoreBreaks(loops + [Loop(start, [])], sites) == loops + [Loop(start, sites)]
    ensures (loops + [Loop(start, sites)])[..|loops|] == loops
  {
    assert [] + sites == sites;
  }

  lemma LoopBytes(o: Output, start: nat, body: Code, last: Instr, v: int32)
    ensures var k := KnownTargets(o);
      KnownTargets(PushLoop(o, start)) == k
      && PatchAll(o.code + Flat(body, k) + Encode(last), Sites(body, |o.code|, BreakHole), v)
         == o.code + Flat(Within(v, body), k) + Encode(last)
  {
    hide Encode, AddrMap;
    PatchingFills(o.code, |o.code|, body, Encode(last), KnownTargets(o), BreakHole, v);
  }

  lemma LoopRecords(o: Output, body: Code, v: int32)
    ensures Size(Within(v, body)) == Size(body)
    ensures Recorded(o.funcs, Within(v, body), |o.code|) == Recorded(o.funcs, body, |o.code|)
    ensures Sites(Within(v, body), |o.code|, BreakHole) == []
  {
    hide Record;
    assert forall f: Name :: Sites(Within(v, body), |o.code|, CallHole(f)) == Sites(body, |o.code|, CallHole(f));
  }

  lemma NoSites(loops: seq<Loop>)
    ensures MoreBreaks(loops, []) == loops
  {
    if loops != [] {
      assert loops[|loops| - 1].breaks + [] == loops[|loops| - 1].breaks;
    }
  }
}
