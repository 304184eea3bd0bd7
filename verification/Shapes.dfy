/** The output after back-patching is the output of the finished construct: what the compiler
    writes for if, loop and try statements, step by step, against their code trees. */
module Shapes {
  import opened Bytes
  import opened Machine
  import opened Syntax
  import opened CodeGen
  import opened Emission

  lemma FiveBytes(n: int32)
    ensures |Encode(JUMP(n))| == 5 && |Encode(JUMP_IF_F(n))| == 5 && |Encode(TRY(n))| == 5
    ensures Size(Ins(JUMP(n))) == 5 && Size(Ins(JUMP_IF_F(n))) == 5 && Size(Ins(TRY(n))) == 5
    ensures |Encode(END_TRY)| == 1 && Size(Ins(END_TRY)) == 1
  {}

  lemma Kept(o: Output, c: Code)
    requires WfOutput(o)
    ensures WfOutput(Emitted(o, c)) && |Emitted(o, c).code| == |o.code| + Size(c)
  {
    hide Emitted, WfOutput;
    EmitKeepsTable(o, c);
  }

  /** Three trees after one another, in the two ways to group them. */
  lemma EmitThree(o: Output, a: Code, b: Code, c: Code)
    ensures Emitted(Emitted(Emitted(o, a), b), c) == Emitted(o, Cat(Cat(a, b), c)) == Emitted(o, Cat(a, Cat(b, c)))
  {
    hide Emitted;
    EmitCat(o, a, b);
    EmitCat(o, Cat(a, b), c);
    EmitCat(o, a, Cat(b, c));
    EmitCat(Emitted(o, a), b, c);
  }

  /** cond, conditional jump, body, jump: the conditional jump goes past the jump. */
  lemma TestPatched(o: Output, cc: Code, ct: Code, last: Instr, target: nat)
    requires WfOutput(o)
    ensures var o1 := Emitted(o, cc);
      PatchTo(Put(Emitted(Put(o1, Encode(JUMP_IF_F(0))), ct), Encode(last)), |o1.code| + 1, target)
      == Emitted(o, Cat(Cat(cc, JumpIfFalse(target)), Cat(ct, Ins(last))))
  {
    hide Emitted, WfOutput, Put, PatchTo, Encode;
    var o1 := Emitted(o, cc);
    Kept(o, cc);
    EmitIns(o1, JUMP_IF_F(0));
    var o2 := Emitted(o1, Ins(JUMP_IF_F(0)));
    Kept(o1, Ins(JUMP_IF_F(0)));
    Kept(o2, ct);
    EmitIns(Emitted(o2, ct), last);
    EmitCat(o2, ct, Ins(last));
    PatchEmitted(o1, JUMP_IF_F(0), Cat(ct, Ins(last)), target);
    EmitThree(o, cc, JumpIfFalse(target), Cat(ct, Ins(last)));
  }

  /** The jump at the end of a tree is patched after more code c has been emitted. */
  lemma JumpPatched(o: Output, a: Code, b: Code, c: Code, target: nat)
    requires WfOutput(o)
    ensures PatchTo(Emitted(Emitted(o, Cat(a, Cat(b, Ins(JUMP(0))))), c), |o.code| + Size(a) + Size(b) + 1, target)
         == Emitted(Emitted(o, Cat(a, Cat(b, Jump(target)))), c)
  {
    hide Emitted, WfOutput, PatchTo, Encode;
    EmitThree(o, a, b, Ins(JUMP(0)));
    EmitThree(o, a, b, Jump(target));
    Kept(o, a);
    Kept(Emitted(o, a), b);
    PatchEmitted(Emitted(Emitted(o, a), b), JUMP(0), c, target);
  }

  /** What the compiler writes for an if with no else. */
  lemma IfEmitted(o: Output, cc: Code, ct: Code)
    requires WfOutput(o)
    ensures var o1 := Emitted(o, cc);
      var o3 := Emitted(Put(o1, Encode(JUMP_IF_F(0))), ct);
      var o4 := Put(o3, Encode(JUMP(0)));
      var end := |o.code| + Size(cc) + 5 + Size(ct) + 5;
      |o3.code| == end - 5 && |o4.code| == end
      && PatchTo(PatchTo(o4, |o1.code| + 1, end), |o3.code| + 1, end) == Emitted(o, IfShape(cc, ct, end))
  {
    hide Emitted, WfOutput, PatchTo, Encode, Jump, JumpIfFalse;
    var end := |o.code| + Size(cc) + 5 + Size(ct) + 5;
    ArmSizes(o, cc, ct);
    TestPatched(o, cc, ct, JUMP(0), end);
    var test := Cat(cc, JumpIfFalse(end));
    Kept(o, Cat(test, Cat(ct, Ins(JUMP(0)))));
    EmitSkip(Emitted(o, Cat(test, Cat(ct, Ins(JUMP(0))))));
    Kept(o, Cat(test, Cat(ct, Jump(end))));
    EmitSkip(Emitted(o, Cat(test, Cat(ct, Jump(end)))));
    JumpPatched(o, test, ct, Skip, end);
  }

  lemma ArmSizes(o: Output, cc: Code, ct: Code)
    requires WfOutput(o)
    ensures var o1 := Emitted(o, cc);
      var o3 := Emitted(Put(o1, Encode(JUMP_IF_F(0))), ct);
      && WfOutput(o1) && WfOutput(Put(o1, Encode(JUMP_IF_F(0)))) && WfOutput(o3)
      && |o1.code| == |o.code| + Size(cc) && |o3.code| == |o.code| + Size(cc) + 5 + Size(ct)
      && |Put(o3, Encode(JUMP(0))).code| == |o3.code| + 5
  {
    hide Emitted, Encode;
    FiveBytes(0);
    Kept(o, cc);
    Kept(Put(Emitted(o, cc), Encode(JUMP_IF_F(0))), ct);
  }

  /** What the compiler writes for an if with an else. */
  lemma IfElseEmitted(o: Output, cc: Code, ct: Code, cf: Code)
    requires WfOutput(o)
    ensures var o1 := Emitted(o, cc);
      var o3 := Emitted(Put(o1, Encode(JUMP_IF_F(0))), ct);
      var o4 := Put(o3, Encode(JUMP(0)));
      var elseAt := |o.code| + Size(cc) + 5 + Size(ct) + 5;
      |o3.code| == elseAt - 5 && |o4.code| == elseAt
      && PatchTo(Emitted(PatchTo(o4, |o1.code| + 1, elseAt), cf), |o3.code| + 1, elseAt + Size(cf))
         == Emitted(o, IfElseShape(cc, ct, cf, elseAt))
  {
    hide Emitted, WfOutput, PatchTo, Encode, Jump, JumpIfFalse;
    var elseAt := |o.code| + Size(cc) + 5 + Size(ct) + 5;
    ArmSizes(o, cc, ct);
    TestPatched(o, cc, ct, JUMP(0), elseAt);
    var test := Cat(cc, JumpIfFalse(elseAt));
    JumpPatched(o, test, ct, cf, elseAt + Size(cf));
    EmitCat(o, Cat(test, Cat(ct, Jump(elseAt + Size(cf)))), cf);
  }

  /** What the compiler writes for a loop: its breaks are patched last. */
  lemma WhileEmitted(o: Output, cc: Code, cb: Code, start: nat)
    requires WfOutput(o)
    ensures var o1 := PushLoop(Emitted(o, cc), start);
      var o3 := Emitted(Put(o1, Encode(JUMP_IF_F(0))), cb);
      var o4 := Put(o3, Encode(JUMP(Narrow(start))));
      var end := |o.code| + Size(cc) + 5 + Size(cb) + 5;
      var o5 := PatchTo(o4, |o1.code| + 1, end);
      && |o4.code| == end && o5.loops != []
      && PopLoop(o5) == Emitted(o, WhileShape(cc, cb, start, end))
  {
    hide Emitted, WfOutput, Encode, PatchTo, PopLoop;
    var end := |o.code| + Size(cc) + 5 + Size(cb) + 5;
    var o0 := Emitted(o, cc);
    var o1 := PushLoop(o0, start);
    var back := JUMP(Narrow(start));
    Kept(o, cc);
    LoopWf(o0, start);
    FiveBytes(0);
    FiveBytes(Narrow(start));
    FiveBytes(Narrow(end));
    EmitSkip(o1);
    TestPatched(o1, Skip, cb, back, end);
    EmitThree(o1, Skip, JumpIfFalse(end), Cat(cb, Ins(back)));
    EmitThree(o1, JumpIfFalse(end), cb, Ins(back));
    PushedFirst(o0, start, JUMP_IF_F(Narrow(end)));
    Kept(o0, JumpIfFalse(end));
    LoopEmitted(Emitted(o0, JumpIfFalse(end)), start, cb, back);
    EmitThree(Emitted(o0, JumpIfFalse(end)), Skip, Within(Narrow(end), cb), Ins(back));
    EmitThree(o, cc, JumpIfFalse(end), Cat(Within(Narrow(end), cb), Jump(start)));
    EmitCat(Emitted(o0, JumpIfFalse(end)), Within(Narrow(end), cb), Ins(back));
    WhileSizes(o, cc, cb, start);
    PatchKeepsLoops(Put(Emitted(Put(o1, Encode(JUMP_IF_F(0))), cb), Encode(back)), |o1.code| + 1, end);
    EmitCat(o1, Skip, Cat(JumpIfFalse(end), Cat(cb, Ins(back))));
    EmitCat(o1, JumpIfFalse(end), Cat(cb, Ins(back)));
  }

  lemma WhileSizes(o: Output, cc: Code, cb: Code, start: nat)
    requires WfOutput(o)
    ensures var o1 := PushLoop(Emitted(o, cc), start);
      var o3 := Emitted(Put(o1, Encode(JUMP_IF_F(0))), cb);
      && |Put(o3, Encode(JUMP(Narrow(start)))).code| == |o.code| + Size(cc) + 5 + Size(cb) + 5
      && |o1.code| == |o.code| + Size(cc) && o3.loops != []
  {
    hide Encode, WfOutput;
    FiveBytes(0);
    FiveBytes(Narrow(start));
    Kept(o, cc);
    EmitKeepsTable(Put(PushLoop(Emitted(o, cc), start), Encode(JUMP_IF_F(0))), cb);
  }

  lemma PatchKeepsLoops(o: Output, offset: nat, target: nat)
    ensures PatchTo(o, offset, target).loops == o.loops
  {}

  lemma LoopWf(o: Output, start: nat)
    requires WfOutput(o)
    ensures WfOutput(PushLoop(o, start))
  {}

  lemma PushedFirst(o: Output, start: nat, i: Instr)
    requires WfOutput(o)
    ensures Emitted(PushLoop(o, start), Ins(i)) == PushLoop(Emitted(o, Ins(i)), start)
  {
    hide Encode, Emitted;
    LoopWf(o, start);
    EmitPlain(o, Ins(i));
    EmitPlain(PushLoop(o, start), Ins(i));
  }

  /** What the compiler writes for a try statement. */
  lemma TryEmitted(o: Output, cb: Code, slot: nat, ch: Code)
    requires WfOutput(o)
    ensures var o3 := Put(Emitted(Put(o, Encode(TRY(0))), cb), Encode(END_TRY));
      var o4 := Put(o3, Encode(JUMP(0)));
      var catchAt := |o.code| + 5 + Size(cb) + 6;
      var o5 := PatchTo(o4, |o.code| + 1, catchAt);
      && |o4.code| == catchAt && |o3.code| == catchAt - 5
      && PatchTo(Emitted(Put(o5, Encode(STORE(SlotByte(slot)))), ch), |o3.code| + 1, catchAt + 2 + Size(ch))
         == Emitted(o, TryShape(cb, slot, ch, catchAt))
  {
    hide Emitted, WfOutput, Encode, PatchTo, Put, Jump, StoreIn, Size, SlotByte, Narrow, Ins, TryShape;
    var catchAt := |o.code| + 5 + Size(cb) + 6;
    TrySizes(o, cb);
    TryPatched(o, cb, catchAt);
    var guard := Ins(TRY(Narrow(catchAt)));
    var tree := Cat(guard, Cat(Cat(cb, Ins(END_TRY)), Ins(JUMP(0))));
    FiveBytes(Narrow(catchAt));
    Kept(o, tree);
    StoreEmitted(Emitted(o, tree), slot, ch);
    EndTrySize(cb);
    JumpPatched(o, guard, Cat(cb, Ins(END_TRY)), Cat(StoreIn(slot), ch), catchAt + 2 + Size(ch));
    TryGrouped(o, cb, slot, ch, catchAt);
  }

  lemma EndTrySize(cb: Code)
    ensures Size(Cat(cb, Ins(END_TRY))) == Size(cb) + 1
  {
    FiveBytes(0);
  }

  lemma StoreEmitted(o: Output, slot: nat, ch: Code)
    requires WfOutput(o)
    ensures Emitted(Put(o, Encode(STORE(SlotByte(slot)))), ch) == Emitted(o, Cat(StoreIn(slot), ch))
  {
    hide Emitted, WfOutput, Encode, Put;
    EmitIns(o, STORE(SlotByte(slot)));
    EmitCat(o, StoreIn(slot), ch);
  }

  lemma TryGrouped(o: Output, cb: Code, slot: nat, ch: Code, catchAt: nat)
    ensures var guard, jump, rest := Ins(TRY(Narrow(catchAt))), Jump(catchAt + 2 + Size(ch)), Cat(StoreIn(slot), ch);
      Emitted(Emitted(o, Cat(guard, Cat(Cat(cb, Ins(END_TRY)), jump))), rest) == Emitted(o, TryShape(cb, slot, ch, catchAt))
  {
    hide Emitted, Encode, Jump, StoreIn, Narrow, Ins;
    var guard, jump, rest := Ins(TRY(Narrow(catchAt))), Jump(catchAt + 2 + Size(ch)), Cat(StoreIn(slot), ch);
    EmitThree(Emitted(o, guard), cb, Ins(END_TRY), jump);
    EmitCat(o, guard, Cat(Cat(cb, Ins(END_TRY)), jump));
    EmitCat(o, guard, Cat(cb, Cat(Ins(END_TRY), jump)));
    EmitCat(o, Cat(guard, Cat(cb, Cat(Ins(END_TRY), jump))), rest);
  }

  lemma TrySizes(o: Output, cb: Code)
    requires WfOutput(o)
    ensures var o3 := Put(Emitted(Put(o, Encode(TRY(0))), cb), Encode(END_TRY));
      |o3.code| == |o.code| + 5 + Size(cb) + 1 && |Put(o3, Encode(JUMP(0))).code| == |o3.code| + 5
  {
    hide Emitted, Encode;
    FiveBytes(0);
    Kept(Put(o, Encode(TRY(0))), cb);
  }

  /** The handler address is patched once the body and the jump past the handler are written. */
  lemma TryPatched(o: Output, cb: Code, catchAt: nat)
    requires WfOutput(o)
    ensures PatchTo(Put(Put(Emitted(Put(o, Encode(TRY(0))), cb), Encode(END_TRY)), Encode(JUMP(0))), |o.code| + 1, catchAt)
         == Emitted(o, Cat(Ins(TRY(Narrow(catchAt))), Cat(Cat(cb, Ins(END_TRY)), Ins(JUMP(0)))))
  {
    hide Emitted, WfOutput, Encode, PatchTo, Put;
    EmitIns(o, TRY(0));
    var o1 := Emitted(o, Ins(TRY(0)));
    Kept(o, Ins(TRY(0)));
    Kept(o1, cb);
    EmitIns(Emitted(o1, cb), END_TRY);
    Kept(Emitted(o1, cb), Ins(END_TRY));
    EmitIns(Emitted(Emitted(o1, cb), Ins(END_TRY)), JUMP(0));
    EmitThree(o1, cb, Ins(END_TRY), Ins(JUMP(0)));
    var body := Cat(Cat(cb, Ins(END_TRY)), Ins(JUMP(0)));
    PatchEmitted(o, TRY(0), body, catchAt);
    EmitCat(o, Ins(TRY(Narrow(catchAt))), body);
  }
}
