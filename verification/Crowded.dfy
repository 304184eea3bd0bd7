/** A program that exceeds the limit on forward calls: main calls a function 65 times before its
    definition. */
module Crowded {
  import opened Bytes
  import opened Machine
  import opened Syntax
  import opened CodeGen
  import opened Emission
  import opened Parsing
  import opened Printing
  import opened Statements
  import opened Compilation
  import opened Forward

  const G_NAME: Name := 1000

  const CALL_G: Stmt := Eval(Call(G_NAME, NoArgs))

  function Calls(n: nat): Block {
    if n == 0 then End else Then(CALL_G, Calls(n - 1))
  }

  const MAIN_FUN: Fun := Fun(MAIN_NAME, [], TVoid, Calls(65))

  const G_FUN: Fun := Fun(G_NAME, [], TVoid, End)

  const CROWDED: Program := [MAIN_FUN, G_FUN]

  lemma Names()
    ensures DistinctNames(CROWDED) && NoNatives(CROWDED)
    ensures Defines(CROWDED, MAIN_NAME) && IndexOf(CROWDED, MAIN_NAME) == 0
    ensures Defines(CROWDED, G_NAME) && IndexOf(CROWDED, G_NAME) == 1
    ensures AllSignatures(CROWDED)[MAIN_NAME] == Signature([], TVoid)
    ensures AllSignatures(CROWDED)[G_NAME] == Signature([], TVoid)
  {
    assert CROWDED[0].name == MAIN_NAME && CROWDED[1].name == G_NAME;
    assert ParamTypes([]) == [];
  }

  lemma {:induction false} CallsAreOk(n: nat, cx: Context)
    requires G_NAME in cx.sg && cx.sg[G_NAME] == Signature([], TVoid)
    ensures OkBlock(Calls(n), cx, []) && BlockType(Calls(n), [], cx.sg) == TVoid && BlockDefinite(Calls(n), {})
    decreases n
  {
    if n > 0 {
      CallsAreOk(n - 1, cx);
      assert OkArgs(NoArgs, [], cx.sg, [], 0);
      assert OkExpr(Call(G_NAME, NoArgs), [], cx.sg, 0);
      assert StmtScope(CALL_G, [], cx.sg) == [] && StmtType(CALL_G, [], cx.sg) == TVoid;
      assert Definite(CALL_G, {}) && Assigned(CALL_G, {}) == {};
    }
  }

  lemma CrowdedIsOk()
    ensures OkProgram(CROWDED)
  {
    Names();
    var sg := AllSignatures(CROWDED);
    assert ParamScope([]) == [] && ParamNames([]) == {};
    CallsAreOk(65, BodyContext(MAIN_FUN, sg));
    hide AllSignatures, OkBlock, BlockDefinite, BlockType, IndexOf;
    MainIsOk(sg);
    GIsOk(sg);
    forall i | 0 <= i < |CROWDED|
      ensures OkFun(CROWDED[i], sg) && BlockDefinite(CROWDED[i].body, ParamNames(CROWDED[i].params))
    {
    }
  }

  lemma MainIsOk(sg: Signatures)
    requires OkBlock(Calls(65), BodyContext(MAIN_FUN, sg), []) && BlockType(Calls(65), [], sg) == TVoid
    ensures OkFun(MAIN_FUN, sg)
  {
    hide OkBlock, BlockType, Calls;
    assert ParamScope([]) == [];
  }

  lemma GIsOk(sg: Signatures)
    ensures OkFun(G_FUN, sg) && BlockDefinite(G_FUN.body, {})
  {
    assert ParamScope([]) == [];
    assert OkBlock(End, BodyContext(G_FUN, sg), []);
  }

  /** Each call is one site of five bytes. */
  lemma {:induction false} CallsCode(n: nat, sg: Signatures, base: nat, cont: int32, at: nat)
    requires G_NAME in sg && sg[G_NAME] == Signature([], TVoid)
    ensures var c := BlockCode(Calls(n), [], sg, base, cont); |Sites(c, at, CallHole(G_NAME))| == n && Size(c) == 5 * n
    decreases n
  {
    if n > 0 {
      var cs := StmtCode(CALL_G, [], sg, base, cont);
      assert cs == Cat(Skip, CallTo(G_NAME));
      assert Size(cs) == 5 && |Sites(cs, at, CallHole(G_NAME))| == 1;
      assert PopCode(CALL_G, [], sg) == Skip && StmtScope(CALL_G, [], sg) == [];
      CallsCode(n - 1, sg, base + 5, cont, at + 5);
      var rest := BlockCode(Calls(n - 1), [], sg, base + 5, cont);
      hide StmtCode, PopCode, StmtScope;
      if n == 1 {
        assert BlockCode(Calls(n), [], sg, base, cont) == cs;
      } else {
        assert Calls(n).rest == Calls(n - 1) && Calls(n - 1) != End;
        assert Size(Cat(cs, Skip)) == 5;
        assert BlockCode(Calls(n), [], sg, base, cont) == Cat(Cat(cs, Skip), rest);
        SitesOfCat(Cat(cs, Skip), rest, at, CallHole(G_NAME));
        SitesOfCat(cs, Skip, at, CallHole(G_NAME));
        LengthOfCat(Sites(cs, at, CallHole(G_NAME)), []);
        LengthOfCat(Sites(Cat(cs, Skip), at, CallHole(G_NAME)), Sites(rest, at + 5, CallHole(G_NAME)));
      }
    }
  }

  lemma MainCode(sg: Signatures)
    requires G_NAME in sg && sg[G_NAME] == Signature([], TVoid)
    ensures var c := FunCode(MAIN_FUN, sg, 0); |Sites(c, 0, CallHole(G_NAME))| == 65 && Size(c) == 331
  {
    assert ParamScope([]) == [];
    CallsCode(65, sg, 5, 0, 5);
    hide BlockCode, Calls, Encode;
    var body := BodyCode(MAIN_FUN, sg, 5);
    assert StoresCode(0) == Skip;
    OneByte();
    var jump := Jump(5 + Size(body) + 1);
    assert FunCode(MAIN_FUN, sg, 0) == Cat(jump, Cat(Skip, Cat(body, Ins(RET))));
    hide Jump, Ins, FunCode, BodyCode;
    SizeOfTwo(body, Ins(RET));
    SizeOfTwo(Skip, Cat(body, Ins(RET)));
    SitesOfCat(jump, Cat(Skip, Cat(body, Ins(RET))), 0, CallHole(G_NAME));
    SitesOfCat(Skip, Cat(body, Ins(RET)), 5, CallHole(G_NAME));
    SitesOfCat(body, Ins(RET), 5, CallHole(G_NAME));
    PlainSites(5 + Size(body) + 1, 0, 5 + Size(body));
  }

  lemma PlainSites(n: nat, at: nat, end: nat)
    ensures Sites(Jump(n), at, CallHole(G_NAME)) == [] && Sites(Ins(RET), end, CallHole(G_NAME)) == []
    ensures Sites(Skip, 5, CallHole(G_NAME)) == []
  {
    hide Encode;
  }

  lemma OneByte()
    ensures Size(Ins(RET)) == 1 && Size(Ins(HALT)) == 1
  {}

  lemma GCode(sg: Signatures, base: nat)
    ensures Size(FunCode(G_FUN, sg, base)) == 6
  {
    assert ParamScope([]) == [];
    OneByte();
    assert BodyCode(G_FUN, sg, base + 5) == Skip;
    assert StoresCode(0) == Skip;
  }

  /** The compiler accepts the program without an error, and its 65th call goes to address -1. */
  lemma CrowdedIsMiscompiled()
    ensures OkProgram(CROWDED) && Fits(CROWDED) && NoNatives(CROWDED) && !FewForwardCalls(CROWDED)
    ensures |ForwardSites(CROWDED, 1, AllSignatures(CROWDED))| == 65
    ensures var r := Compile(PrintProgram(CROWDED));
            r.Compiled? && Holds(r.code, ForwardSites(CROWDED, 1, AllSignatures(CROWDED))[64], -1)
  {
    Names();
    CrowdedIsOk();
    var sg := AllSignatures(CROWDED);
    assert G_NAME in sg;
    CrowdedCode(sg);
    hide *;
    ForwardCallIsLost(CROWDED, 1);
    CompileEmits(CROWDED);
    TooMany(CROWDED, 1);
  }

  lemma TooMany(p: Program, i: nat)
    requires i < |p| && |ForwardSites(p, i, AllSignatures(p))| > PENDING_MAX
    ensures !FewForwardCalls(p)
  {}

  lemma CrowdedCode(sg: Signatures)
    requires sg == AllSignatures(CROWDED) && G_NAME in sg && sg[G_NAME] == Signature([], TVoid)
    ensures |ForwardSites(CROWDED, 1, sg)| == 65 && Fits(CROWDED)
  {
    MainCode(sg);
    GCode(sg, 331);
    OneByte();
    hide FunCode, AllSignatures, Flat, Ins, Encode;
    var main := FunCode(MAIN_FUN, sg, 0);
    FunsCons(CROWDED, 0, sg);
    FunsCons(CROWDED, 1, sg);
    assert FunsCode(CROWDED, 0, sg) == Skip && Size(Skip) == 0;
    hide FunsCode;
    assert FunsCode(CROWDED, 1, sg) == Cat(Skip, main);
    SizeOfTwo(Skip, main);
    SitesOfCat(Skip, main, 0, CallHole(G_NAME));
    NoSitesYet(main);
    SizeOfTwo(FunsCode(CROWDED, 1, sg), FunCode(G_FUN, sg, 331));
    assert Size(FunsCode(CROWDED, 2, sg)) == 337;
    ProgramSize(CROWDED);
  }

  lemma NoSitesYet(main: Code)
    ensures Sites(Skip, 0, CallHole(G_NAME)) + Sites(main, 0 + Size(Skip), CallHole(G_NAME)) == Sites(main, 0, CallHole(G_NAME))
  {}

  lemma ProgramSize(p: Program)
    ensures |ProgramBytes(p)| == Size(FunsCode(p, |p|, AllSignatures(p))) + 6
  {
    hide FunsCode, Encode, AllSignatures, Flat;
    HaltSize();
    SizeOfTwo(FunsCode(p, |p|, AllSignatures(p)), Cat(CallTo(MAIN_NAME), Ins(HALT)));
  }

  lemma HaltSize()
    ensures Size(Cat(CallTo(MAIN_NAME), Ins(HALT))) == 6
  {}
}
