/** Forward calls: a function records at most 64 calls before its definition. Exactly the programs
    that stay within that limit compile to the bytes of their code tree. */
module Forward {
  import opened Bytes
  import opened Machine
  import opened Syntax
  import opened Semantics
  import opened CodeGen
  import opened Emission
  import opened Parsing
  import opened Printing
  import opened Statements
  import opened Compilation

  /** No function is called more than PENDING_MAX times before its definition. */
  predicate FewForwardCalls(p: Program) {
    forall i | 0 <= i < |p| :: |ForwardSites(p, i, AllSignatures(p))| <= PENDING_MAX
  }

  // ----- within the limit -----

  /** Patching the recorded calls gives the code with the address known from the start. */
  lemma DefinedIsFilled(p: Program, n: nat, sg: Signatures)
    requires n < |p| && |ForwardSites(p, n, sg)| <= PENDING_MAX
    requires CodeAfter(p, n, sg) == Flat(FunsCode(p, n, sg), TargetsAfter(p, n, sg))
    ensures DefinedCode(p, n, sg) == Flat(FunsCode(p, n, sg), TargetsAfter(p, n + 1, sg))
  {
    hide Flat, Sites, FunsCode, Narrow, PatchAll, CodeAfter;
    var c, v, f, k := FunsCode(p, n, sg), Narrow(Entry(p, n, sg)), p[n].name, TargetsAfter(p, n, sg);
    PatchingFills([], 0, c, [], k, CallHole(f), v);
    assert TargetsAfter(p, n + 1, sg) == Fill(k, CallHole(f), v);
    assert [] + Flat(c, k) + [] == Flat(c, k);
    assert [] + Flat(c, Fill(k, CallHole(f), v)) + [] == Flat(c, Fill(k, CallHole(f), v));
  }

  lemma {:induction false} CodeIsFilled(p: Program, n: nat, sg: Signatures)
    requires n <= |p| && forall i | 0 <= i < n :: |ForwardSites(p, i, sg)| <= PENDING_MAX
    ensures CodeAfter(p, n, sg) == Flat(FunsCode(p, n, sg), TargetsAfter(p, n, sg))
    decreases n
  {
    hide Flat, FunCode, FunsCode, DefinedCode, TargetsAfter, ForwardSites;
    if n == 0 {
      NothingYet(p, sg);
    } else {
      CodeIsFilled(p, n - 1, sg);
      DefinedIsFilled(p, n - 1, sg);
      FunsCons(p, n - 1, sg);
      FlatOfCat(FunsCode(p, n - 1, sg), FunCode(p[n - 1], sg, Size(FunsCode(p, n - 1, sg))), TargetsAfter(p, n, sg));
    }
  }

  lemma NothingYet(p: Program, sg: Signatures)
    ensures CodeAfter(p, 0, sg) == Flat(FunsCode(p, 0, sg), TargetsAfter(p, 0, sg))
  {}

  lemma EmittedIsFilled(p: Program)
    requires FewForwardCalls(p)
    ensures EmittedBytes(p) == ProgramBytes(p)
  {
    hide Flat, FunsCode, CodeAfter, ForwardSites;
    var sg := AllSignatures(p);
    CodeIsFilled(p, |p|, sg);
    FlatOfCat(FunsCode(p, |p|, sg), Cat(CallTo(MAIN_NAME), Ins(HALT)), ProgramTargets(p));
  }

  /** Compiling the tokens of a printed program gives exactly the bytes of its code tree. */
  lemma CompilePrinted(p: Program)
    requires OkProgram(p) && Fits(p) && NoNatives(p) && FewForwardCalls(p)
    ensures Compile(PrintProgram(p)) == Compiled(ProgramBytes(p))
  {
    hide *;
    CompileEmits(p);
    EmittedIsFilled(p);
  }

  // ----- beyond the limit -----

  /** The four bytes at s. */
  predicate Holds(code: seq<byte>, s: nat, v: int32) {
    s + 4 <= |code| && code[s..s + 4] == Le32(v)
  }

  lemma HoldsOne(code: seq<byte>, s: nat, v: int32, w: int32)
    requires Holds(code, s, v) && Holds(code, s, w)
    ensures v == w
  {
    ReadBack32(v);
    ReadBack32(w);
  }

  lemma HoldsInFront(a: seq<byte>, b: seq<byte>, s: nat, v: int32)
    requires Holds(a, s, v)
    ensures Holds(a + b, s, v)
  {
    assert (a + b)[s..s + 4] == a[s..s + 4];
  }

  lemma HoldsBehind(a: seq<byte>, b: seq<byte>, s: nat, v: int32)
    requires Holds(b, s, v)
    ensures Holds(a + b, |a| + s, v)
  {
    assert (a + b)[|a| + s..|a| + s + 4] == b[s..s + 4];
  }

  lemma CallHolds(addr: int32)
    ensures Holds(Encode(CALL(addr)), 1, addr)
  {
    assert Encode(CALL(addr))[1..5] == Le32(addr);
  }

  /** The operand of a call holds the address of its callee as it was known when the call was emitted. */
  lemma {:induction false} SiteHolds(c: Code, base: nat, f: Name, k: Targets, s: nat)
    requires s in Sites(c, base, CallHole(f))
    ensures base <= s && Holds(Flat(c, k), s - base, CallTarget(k.addrs, f))
    decreases c
  {
    hide Encode, Holds, CallTarget;
    match c
    case CallTo(g) => CallHolds(CallTarget(k.addrs, f));
    case Cat(a, b) =>
      if s in Sites(a, base, CallHole(f)) {
        SiteHolds(a, base, f, k, s);
        HoldsInFront(Flat(a, k), Flat(b, k), s - base, CallTarget(k.addrs, f));
      } else {
        SiteHolds(b, base + Size(a), f, k, s);
        HoldsBehind(Flat(a, k), Flat(b, k), s - base - Size(a), CallTarget(k.addrs, f));
      }
    case Within(end, a) => SiteHolds(a, base, f, k.(brk := end), s);
  }

  predicate Far(s: nat, t: nat) {
    s + 4 <= t || t + 4 <= s
  }

  /** Patches elsewhere leave the four bytes alone. */
  lemma PatchHolds(code: seq<byte>, s: nat, v: int32, t: nat, w: int32)
    requires Holds(code, s, v) && Far(s, t)
    ensures Holds(Patch(code, t, w), s, v)
  {
    if t + 4 <= |code| {
      var front, back := code[..t], code[t + 4..];
      if s + 4 <= t {
        assert (front + Le32(w) + back)[s..s + 4] == code[s..s + 4];
      } else {
        assert (front + Le32(w) + back)[s..s + 4] == code[s..s + 4];
      }
    }
  }

  lemma {:induction false} PatchAllHolds(code: seq<byte>, s: nat, v: int32, sites: seq<nat>, w: int32)
    requires Holds(code, s, v) && forall t | t in sites :: Far(s, t)
    ensures Holds(PatchAll(code, sites, w), s, v)
    decreases |sites|
  {
    hide Holds, Patch;
    if sites != [] {
      assert sites[0] in sites;
      PatchHolds(code, s, v, sites[0], w);
      PatchAllHolds(Patch(code, sites[0], w), s, v, sites[1..], w);
    }
  }

  /** The operands of different callees never overlap. */
  lemma {:induction false} CalleesApart(c: Code, base: nat, f: Name, g: Name)
    requires f != g
    ensures forall s, t | s in Sites(c, base, CallHole(f)) && t in Sites(c, base, CallHole(g)) :: Far(s, t)
    decreases c
  {
    match c
    case Cat(a, b) =>
      CalleesApart(a, base, f, g);
      CalleesApart(b, base + Size(a), f, g);
      SitesInside(a, base, CallHole(f));
      SitesInside(b, base + Size(a), CallHole(f));
      SitesInside(a, base, CallHole(g));
      SitesInside(b, base + Size(a), CallHole(g));
    case Within(_, a) => CalleesApart(a, base, f, g);
    case _ =>
  }

  predicate InOrder(s: seq<nat>) {
    forall i, j | 0 <= i < j < |s| :: s[i] + 4 <= s[j]
  }

  lemma OrderOfCat(a: seq<nat>, b: seq<nat>)
    requires InOrder(a) && InOrder(b) && forall s, t | s in a && t in b :: s + 4 <= t
    ensures InOrder(a + b)
  {
    var c := a + b;
    forall i, j | 0 <= i < j < |c|
      ensures c[i] + 4 <= c[j]
    {
      assert i < |a| ==> c[i] == a[i] && a[i] in a;
      assert i >= |a| ==> c[i] == b[i - |a|];
      assert j < |a| ==> c[j] == a[j];
      assert j >= |a| ==> c[j] == b[j - |a|] && b[j - |a|] in b;
    }
  }

  /** The operands of one callee are in order and do not overlap. */
  lemma {:induction false} CallsApart(c: Code, base: nat, f: Name)
    ensures InOrder(Sites(c, base, CallHole(f)))
    decreases c
  {
    match c
    case Cat(a, b) =>
      CallsApart(a, base, f);
      CallsApart(b, base + Size(a), f);
      SitesInside(a, base, CallHole(f));
      SitesInside(b, base + Size(a), CallHole(f));
      OrderOfCat(Sites(a, base, CallHole(f)), Sites(b, base + Size(a), CallHole(f)));
    case Within(_, a) => CallsApart(a, base, f);
    case _ =>
  }

  /** The calls of function i that no patch will reach, when n functions have been compiled. */
  function Unresolved(p: Program, n: nat, i: nat, sg: Signatures): seq<nat>
    requires n <= |p| && i < |p|
  {
    if i >= n then Sites(FunsCode(p, n, sg), 0, CallHole(p[i].name))
    else ForwardSites(p, i, sg)[|FirstOf(ForwardSites(p, i, sg), PENDING_MAX)|..]
  }

  /** An operand that still waits is not among those that are patched when function n is defined. */
  lemma UnresolvedIsFar(p: Program, n: nat, i: nat, sg: Signatures, s: nat)
    requires n < |p| && i < |p| && DistinctNames(p)
    requires s in (if i == n then Unresolved(p, n + 1, i, sg) else Unresolved(p, n, i, sg))
    ensures s in Unresolved(p, n, i, sg)
    ensures forall t | t in FirstOf(ForwardSites(p, n, sg), PENDING_MAX) :: Far(s, t)
  {
    hide FunsCode, Sites;
    var all := ForwardSites(p, n, sg);
    FirstAreIn(all, PENDING_MAX);
    if i == n {
      var few := |FirstOf(all, PENDING_MAX)|;
      CallsApart(FunsCode(p, n, sg), 0, p[n].name);
      assert InOrder(all);
      var k :| 0 <= k < |all[few..]| && all[few..][k] == s;
      assert all[few + k] == s && s in all;
      forall t | t in FirstOf(all, PENDING_MAX)
        ensures Far(s, t)
      {
        var j :| 0 <= j < few && FirstOf(all, PENDING_MAX)[j] == t;
        assert all[j] == t && all[j] + 4 <= all[few + k];
      }
    } else {
      EarlierSites(p, n, i, sg);
      CalleesApart(FunsCode(p, n, sg), 0, p[i].name, p[n].name);
    }
  }

  /** Sites of the first i functions are sites of the first n. */
  lemma {:induction false} SitesStay(p: Program, i: nat, n: nat, sg: Signatures, h: Hole, s: nat)
    requires i <= n <= |p| && s in Sites(FunsCode(p, i, sg), 0, h)
    ensures s in Sites(FunsCode(p, n, sg), 0, h)
    decreases n
  {
    hide Sites, FunsCode, FunCode, Size;
    if i < n {
      SitesStay(p, i, n - 1, sg, h, s);
      FunsCons(p, n - 1, sg);
      SitesOfCat(FunsCode(p, n - 1, sg), FunCode(p[n - 1], sg, Size(FunsCode(p, n - 1, sg))), 0, h);
    }
  }

  lemma EarlierSites(p: Program, n: nat, i: nat, sg: Signatures)
    requires n <= |p| && i < |p|
    ensures forall s | s in Unresolved(p, n, i, sg) :: s in Sites(FunsCode(p, n, sg), 0, CallHole(p[i].name))
  {
    hide FunsCode, Sites;
    if i < n {
      forall s | s in Unresolved(p, n, i, sg)
        ensures s in Sites(FunsCode(p, n, sg), 0, CallHole(p[i].name))
      {
        assert s in ForwardSites(p, i, sg);
        SitesStay(p, i, n, sg, CallHole(p[i].name), s);
      }
    }
  }

  /** What waits in the next round either waits now or is in the code of function n. */
  lemma NextUnresolved(p: Program, n: nat, i: nat, sg: Signatures, s: nat)
    requires n < |p| && i < |p| && s in Unresolved(p, n + 1, i, sg)
    ensures i <= n && i != n ==> s in Unresolved(p, n, i, sg)
    ensures var base := Size(FunsCode(p, n, sg));
            i > n && s !in Unresolved(p, n, i, sg) ==> s in Sites(FunCode(p[n], sg, base), base, CallHole(p[i].name))
  {
    hide FunsCode, Sites, FunCode, Size;
    if i > n {
      FunsCons(p, n, sg);
      SitesOfCat(FunsCode(p, n, sg), FunCode(p[n], sg, Size(FunsCode(p, n, sg))), 0, CallHole(p[i].name));
    }
  }

  lemma UnknownUntilDefined(p: Program, n: nat, i: nat, sg: Signatures)
    requires n <= i < |p| && DistinctNames(p)
    ensures CallTarget(TargetsAfter(p, n, sg).addrs, p[i].name) == -1
  {
    hide Entries;
    if p[i].name in Entries(p, n, sg) {
      OnlyEntries(p, n, sg, p[i].name);
    }
  }

  /** An operand that no patch reaches keeps its -1. */
  lemma {:induction false} UnresolvedHolds(p: Program, n: nat, i: nat, sg: Signatures, s: nat)
    requires n <= |p| && i < |p| && DistinctNames(p)
    ensures s in Unresolved(p, n, i, sg) ==> Holds(CodeAfter(p, n, sg), s, -1)
    decreases n
  {
    hide Flat, FunCode, Holds, Sites, Size, PatchAll, Unresolved, TargetsAfter, CallTarget, Narrow, FirstOf, ForwardSites, Far;
    if n == 0 {
      NothingWaits(p, i, sg);
    } else if s in Unresolved(p, n, i, sg) {
      var m := n - 1;
      var base := Size(FunsCode(p, m, sg));
      var c := FunCode(p[m], sg, base);
      var more := Flat(c, TargetsAfter(p, n, sg));
      NextUnresolved(p, m, i, sg, s);
      if i > m && s in Sites(c, base, CallHole(p[i].name)) {
        SiteHolds(c, base, p[i].name, TargetsAfter(p, n, sg), s);
        UnknownUntilDefined(p, n, i, sg);
        HoldsBehind(DefinedCode(p, m, sg), more, s - base, -1);
      } else {
        UnresolvedIsFar(p, m, i, sg, s);
        UnresolvedHolds(p, m, i, sg, s);
        PatchAllHolds(CodeAfter(p, m, sg), s, -1, FirstOf(ForwardSites(p, m, sg), PENDING_MAX), Narrow(Entry(p, m, sg)));
        HoldsInFront(DefinedCode(p, m, sg), more, s, -1);
      }
    }
  }

  lemma NothingWaits(p: Program, i: nat, sg: Signatures)
    requires i < |p|
    ensures Unresolved(p, 0, i, sg) == []
  {}

  /** The 65th call of a function before its definition stays unresolved, where the code tree has the
      address of its callee. */
  lemma ForwardCallIsLost(p: Program, i: nat)
    requires OkProgram(p) && Fits(p) && i < |p| && |ForwardSites(p, i, AllSignatures(p))| > PENDING_MAX
    ensures var s := ForwardSites(p, i, AllSignatures(p))[PENDING_MAX];
            Holds(EmittedBytes(p), s, -1) && Holds(ProgramBytes(p), s, Narrow(Entry(p, i, AllSignatures(p))))
    ensures EmittedBytes(p) != ProgramBytes(p)
  {
    var sg := AllSignatures(p);
    var s := ForwardSites(p, i, sg)[PENDING_MAX];
    var n, k := |p|, ProgramTargets(p);
    OverflowWaits(p, i, sg);
    hide Flat, FunsCode, Holds, Sites, Unresolved, CodeAfter, ForwardSites, OkProgram, Fits, TargetsAfter;
    UnresolvedHolds(p, n, i, sg, s);
    HoldsInFront(CodeAfter(p, n, sg), Flat(Cat(CallTo(MAIN_NAME), Ins(HALT)), k), s, -1);
    TreeHoldsEntry(p, i, s);
    if EmittedBytes(p) == ProgramBytes(p) {
      HoldsOne(EmittedBytes(p), s, -1, Narrow(Entry(p, i, sg)));
    }
  }

  lemma OverflowWaits(p: Program, i: nat, sg: Signatures)
    requires i < |p| && |ForwardSites(p, i, sg)| > PENDING_MAX
    ensures ForwardSites(p, i, sg)[PENDING_MAX] in Unresolved(p, |p|, i, sg)
  {
    hide Sites, FunsCode;
    var all := ForwardSites(p, i, sg);
    assert |FirstOf(all, PENDING_MAX)| == PENDING_MAX;
    assert all[PENDING_MAX..][0] == all[PENDING_MAX];
  }

  lemma TreeHoldsEntry(p: Program, i: nat, s: nat)
    requires OkProgram(p) && Fits(p) && i < |p| && s in ForwardSites(p, i, AllSignatures(p))
    ensures Holds(ProgramBytes(p), s, Narrow(Entry(p, i, AllSignatures(p))))
    ensures Narrow(Entry(p, i, AllSignatures(p))) != -1
  {
    var sg, k := AllSignatures(p), ProgramTargets(p);
    hide Flat, FunsCode, Holds, Sites, OkFun, BlockDefinite, IndexOf;
    SitesStay(p, i, |p|, sg, CallHole(p[i].name), s);
    SiteHolds(FunsCode(p, |p|, sg), 0, p[i].name, k, s);
    EntryIsKnown(p, |p|, i, sg);
    FlatOfCat(FunsCode(p, |p|, sg), Cat(CallTo(MAIN_NAME), Ins(HALT)), k);
    HoldsInFront(Flat(FunsCode(p, |p|, sg), k), Flat(Cat(CallTo(MAIN_NAME), Ins(HALT)), k), s, Narrow(Entry(p, i, sg)));
    EntriesInside(p, |p|, i, sg);
    assert Size(ProgramCode(p)) >= Size(FunsCode(p, |p|, sg));
  }

  /** A printed program compiles to the bytes of its code tree exactly when no function is called more
      than 64 times before its definition. */
  lemma CompilesIffFewForwardCalls(p: Program)
    requires OkProgram(p) && Fits(p) && NoNatives(p)
    ensures Compile(PrintProgram(p)) == Compiled(ProgramBytes(p)) <==> FewForwardCalls(p)
  {
    hide OkProgram, Fits, NoNatives, EmittedBytes, ProgramBytes, ForwardSites, Compile, PrintProgram;
    CompileEmits(p);
    if FewForwardCalls(p) {
      EmittedIsFilled(p);
    } else {
      var i :| 0 <= i < |p| && |ForwardSites(p, i, AllSignatures(p))| > PENDING_MAX;
      ForwardCallIsLost(p, i);
    }
  }
}
