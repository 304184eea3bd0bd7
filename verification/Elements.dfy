/** What the instructions on strings, arrays, maps and locals compute: laws between instructions that
    say which values come out, where the ownership laws only count references. */
module Elements {
  import opened Bytes
  import opened Counting
  import opened Ownership
  import opened Owners
  import opened Accounting
  import opened Captures
  import Values

  // ----- memory that only grows or loses objects -----

  /** Cells are only added, and an object that stays live stays as it is; but the object in cell x may
      change. */
  predicate UnchangedBut(m: Memory, n: Memory, x: int) {
    |m.cells| <= |n.cells|
    && forall y | 0 <= y < |m.cells| ::
         (m.cells[y].Freed? ==> n.cells[y].Freed?)
         && (y != x && m.cells[y].Live? && n.cells[y].Live? ==> n.cells[y].obj == m.cells[y].obj)
  }

  predicate Unchanged(m: Memory, n: Memory) {
    UnchangedBut(m, n, -1)
  }

  lemma SameIsUnchanged(m: Memory, n: Memory)
    requires SameObjects(m, n)
    ensures Unchanged(m, n)
  {}

  lemma UnchangedTwice(m: Memory, n: Memory, k: Memory, x: int)
    requires (UnchangedBut(m, n, x) || Unchanged(m, n)) && (UnchangedBut(n, k, x) || Unchanged(n, k))
    ensures UnchangedBut(m, k, x)
  {}

  lemma AllocateUnchanged(m: Memory, o: Object)
    ensures var n := Retain(New(m, o), Ref(|m.cells|));
      Unchanged(m, n) && n.cells == m.cells + [Live(1, o)]
  {}

  // ----- the pieces of an instruction -----

  /** The instruction replaced the top of the stack by v, and nothing else that can be seen has changed. */
  predicate Leaves(s: Vm, t: Vm, base: seq<Item>, v: Item) {
    !t.stopped && t == s.(mem := t.mem, stack := base + [v]) && Unchanged(s.mem, t.mem)
  }

  lemma TakeTwo(s: Vm, base: seq<Item>, a: Item, b: Item)
    requires !s.stopped && s.stack == base + [a, b]
    ensures PopItem(s) == (s.(stack := base + [a]), b)
    ensures PopItem(s.(stack := base + [a])) == (s.(stack := base), a)
  {
    assert s.stack[..|s.stack| - 1] == base + [a];
    assert (base + [a])[..|base|] == base;
  }

  lemma DropIs(s: Vm, v: Item)
    requires !s.stopped
    ensures Drop(s, v) == s.(mem := Release(s.mem, v)) && SameObjects(s.mem, Release(s.mem, v))
  {
    ReleaseSame(s.mem, v);
  }

  lemma PushIs(s: Vm, v: Item)
    requires !s.stopped && |s.stack| < STACK_MAX
    ensures Push(s, v) == s.(mem := Retain(s.mem, v), stack := s.stack + [v]) && SameObjects(s.mem, Retain(s.mem, v))
    ensures Leaves(s, Push(s, v), s.stack, v)
  {
    RetainSame(s.mem, v);
  }

  lemma PushNewIs(s: Vm, o: Object)
    requires !s.stopped && |s.stack| < STACK_MAX
    ensures Leaves(s, PushNew(s, o), s.stack, Ref(|s.mem.cells|))
    ensures PushNew(s, o).mem.cells == s.mem.cells + [Live(1, o)]
  {
    AllocateUnchanged(s.mem, o);
  }

  /** Dropping C variables after the result is on the stack. */
  lemma DropAfter(s: Vm, t: Vm, base: seq<Item>, v: Item, a: Item, b: Item)
    requires Leaves(s, t, base, v)
    ensures Leaves(s, Drop(Drop(t, a), b), base, v)
    ensures SameObjects(t.mem, Drop(Drop(t, a), b).mem)
  {
    hide Release, SameObjects, UnchangedBut;
    DropIs(t, a);
    DropIs(Drop(t, a), b);
    SameTwice(t.mem, Drop(t, a).mem, Drop(Drop(t, a), b).mem);
    SameIsUnchanged(t.mem, Drop(Drop(t, a), b).mem);
    UnchangedTwice(s.mem, t.mem, Drop(Drop(t, a), b).mem, -1);
  }

  lemma LeavesFrom(s: Vm, s2: Vm, t: Vm, base: seq<Item>, v: Item)
    requires s2 == s.(stack := s2.stack) && Leaves(s2, t, base, v)
    ensures Leaves(s, t, base, v)
  {}

  /** A value that one more instruction works on. */
  lemma LeavesThen(s: Vm, t: Vm, u: Vm, base: seq<Item>, v: Item, base2: seq<Item>, w: Item)
    requires Leaves(s, t, base, v) && Leaves(t, u, base2, w)
    ensures Leaves(s, u, base2, w)
  {
    hide UnchangedBut;
    UnchangedTwice(s.mem, t.mem, u.mem, -1);
  }

  lemma RunTwo(s: Vm, i: Instr, j: Instr)
    ensures Run(s, [i, j]) == Step(Step(s, i), j)
  {
    hide Step;
    assert [i, j][1..] == [j];
    RunOne(Step(s, i), j);
  }

  lemma RunOne(s: Vm, i: Instr)
    ensures Run(s, [i]) == Step(s, i)
  {
    hide Step;
    assert [i][1..] == [];
  }

  lemma RunThree(s: Vm, i: Instr, j: Instr, k: Instr)
    ensures Run(s, [i, j, k]) == Step(Step(Step(s, i), j), k)
  {
    hide Step;
    assert [i, j, k][1..] == [j, k];
    RunTwo(Step(s, i), j, k);
  }

  lemma RunFour(s: Vm, i: Instr, j: Instr, k: Instr, l: Instr)
    ensures Run(s, [i, j, k, l]) == Step(Step(Step(Step(s, i), j), k), l)
  {
    hide Step;
    assert [i, j, k, l][1..] == [j, k, l];
    RunThree(Step(s, i), j, k, l);
  }

  // ----- constants and operators -----

  /** A constant is pushed as it is; a string constant makes a new string. */
  lemma ConstantsArePushed(s: Vm, n: int64, b: bool, text: seq<byte>)
    requires !s.stopped && |s.stack| < STACK_MAX
    ensures Leaves(s, Step(s, PushInt(n)), s.stack, Int(n))
    ensures Leaves(s, Step(s, PushBool(b)), s.stack, Bool(b))
    ensures Leaves(s, Step(s, PushStr(text)), s.stack, Ref(|s.mem.cells|))
    ensures At(Step(s, PushStr(text)).mem, Ref(|s.mem.cells|)) == Text(text)
  {
    hide Push, PushNew, Leaves;
    PushIs(s, Int(n));
    PushIs(s, Bool(b));
    PushNewIs(s, Text(text));
  }

  lemma ResultIs(s: Vm, base: seq<Item>, a: Item, b: Item, v: Item)
    requires !s.stopped && |base| < STACK_MAX
    ensures Leaves(s, Drop(Drop(Push(s.(stack := base), v), a), b), base, v)
  {
    hide Push, Drop;
    PushIs(s.(stack := base), v);
    DropAfter(s.(stack := base), Push(s.(stack := base), v), base, v, a, b);
    LeavesFrom(s, s.(stack := base), Drop(Drop(Push(s.(stack := base), v), a), b), base, v);
  }

  /** The sum is the 64-bit number that differs from a + b by a multiple of 2^64. */
  lemma IntsAreAdded(s: Vm, base: seq<Item>, a: int64, b: int64) returns (sum: int64)
    requires !s.stopped && s.stack == base + [Int(a), Int(b)] && |s.stack| <= STACK_MAX
    ensures (sum - (a + b)) % 0x1_0000_0000_0000_0000 == 0
    ensures Leaves(s, Step(s, Add), base, Int(sum))
  {
    hide Push, Drop, PopItem, Leaves;
    sum := Values.Wrap(a + b);
    TakeTwo(s, base, Int(a), Int(b));
    ResultIs(s, base, Int(a), Int(b), Int(sum));
  }

  /** The quotient truncated toward zero; a zero divisor raises an error. */
  lemma IntsAreDivided(s: Vm, base: seq<Item>, a: int64, b: int64) returns (q: int64, r: int)
    requires !s.stopped && s.stack == base + [Int(a), Int(b)] && |s.stack| <= STACK_MAX
    ensures b == 0 ==> Step(s, Div) == Raise(Drop(Drop(s.(stack := base), Int(a)), Int(b)), [])
    ensures b != 0 && !(a == -0x8000_0000_0000_0000 && b == -1) ==>
      && Leaves(s, Step(s, Div), base, Int(q))
      && a == b * q + r && 0 - Values.Abs(b) < r < Values.Abs(b) && (a >= 0 ==> r >= 0) && (a <= 0 ==> r <= 0)
  {
    hide Push, Drop, PopItem, Leaves, Values.Quotient, Values.Remainder, Values.Wrap, Raise;
    TakeTwo(s, base, Int(a), Int(b));
    q, r := 0, 0;
    if b != 0 {
      q := Values.Wrap(Values.Quotient(a, b));
      ResultIs(s, base, Int(a), Int(b), Int(q));
      if !(a == Values.INT64_MIN && b == -1) {
        Values.QuotientRemainder(a, b);
        Values.QuotientFits(a, b);
        r := Values.Remainder(a, b);
      }
    }
  }

  // ----- locals -----

  function SlotAt(s: Vm, slot: nat): nat
    requires s.frames != []
  {
    s.frames[|s.frames| - 1] + slot
  }

  lemma StoreIs(s: Vm, base: seq<Item>, v: Item, slot: nat)
    requires !s.stopped && s.stack == base + [v] && s.frames != [] && SlotAt(s, slot) < |s.locals|
    ensures var t := Step(s, Store(slot));
      t == s.(stack := base, mem := t.mem, locals := s.locals[SlotAt(s, slot) := v]) && SameObjects(s.mem, t.mem)
  {
    hide Release, SameObjects;
    assert s.stack[..|s.stack| - 1] == base;
    ReleaseSame(s.mem, s.locals[SlotAt(s, slot)]);
  }

  /** A stored value is what the slot gives from then on; the other slots give what they gave. */
  lemma StoredIsLoaded(s: Vm, base: seq<Item>, v: Item, slot: nat, other: nat)
    requires !s.stopped && s.stack == base + [v] && |s.stack| <= STACK_MAX && s.frames != []
    requires SlotAt(s, slot) < |s.locals| && SlotAt(s, other) < |s.locals|
    ensures var t := Run(s, [Store(slot), Load(other)]);
      && t == s.(mem := t.mem, locals := s.locals[SlotAt(s, slot) := v],
                 stack := base + [if other == slot then v else s.locals[SlotAt(s, other)]])
      && SameObjects(s.mem, t.mem)
  {
    hide Run, Push, Release, Retain, SameObjects, Leaves, DoStore;
    RunTwo(s, Store(slot), Load(other));
    StoreIs(s, base, v, slot);
    var t := Step(s, Store(slot));
    PushIs(t, t.locals[SlotAt(t, other)]);
    SameTwice(s.mem, t.mem, Step(t, Load(other)).mem);
  }

  // ----- arrays -----

  /** i is the number k cut to 32 bits, as the cast of the source does. */
  predicate IsIndex(k: int64, i: int) {
    (i - k) % 0x1_0000_0000 == 0 && -0x8000_0000 <= i < 0x8000_0000
  }

  lemma IndexIs(k: int64, i: int)
    requires IsIndex(k, i)
    ensures ToInt32(k) == i
  {}

  lemma SmallIndex(k: int64)
    requires 0 <= k < 0x8000_0000
    ensures IsIndex(k, k)
  {}

  /** OP_INDEX on an array gives the item at that index; an index outside the array raises an error. */
  lemma ItemIsGiven(s: Vm, base: seq<Item>, o: Item, k: int64, i: int)
    requires !s.stopped && s.stack == base + [o, Int(k)] && |s.stack| <= STACK_MAX
    requires At(s.mem, o).List? && IsIndex(k, i)
    ensures 0 <= i < |At(s.mem, o).items| ==> Leaves(s, Step(s, Index), base, At(s.mem, o).items[i])
    ensures !(0 <= i < |At(s.mem, o).items|) ==>
      Step(s, Index) == Raise(Drop(Drop(s.(stack := base), o), Int(k)), [])
  {
    hide Push, Drop, PopItem, Leaves, Raise, ToInt32, IsIndex;
    TakeTwo(s, base, o, Int(k));
    IndexIs(k, i);
    if 0 <= i < |At(s.mem, o).items| {
      ResultIs(s, base, o, Int(k), At(s.mem, o).items[i]);
    }
  }

  /** OP_INDEX on a string gives a new string of the one character there. */
  lemma CharacterIsGiven(s: Vm, base: seq<Item>, o: Item, k: int64, i: int, leaked: seq<Item>)
    requires Good(s, leaked) && !s.stopped && s.stack == base + [o, Int(k)]
    requires IsText(s.mem, o) && IsIndex(k, i) && 0 <= i < |At(s.mem, o).text|
    ensures Leaves(s, Step(s, Index), base, Ref(|s.mem.cells|))
    ensures At(Step(s, Index).mem, Ref(|s.mem.cells|)) == Text([At(s.mem, o).text[i]])
  {
    var c := At(s.mem, o).text[i];
    var s2 := s.(stack := base);
    var t := PushNew(s2, Text([c]));
    RoomOnStack(s, leaked);
    StepIsExact(s, Index, leaked);
    assert [] + leaked == leaked;
    hide Push, PushNew, Drop, PopItem, Raise, ToInt32, IsIndex, Good, Leaves, SameObjects;
    TakeTwo(s, base, o, Int(k));
    IndexIs(k, i);
    PushNewIs(s2, Text([c]));
    DropAfter(s2, t, base, Ref(|s.mem.cells|), o, Int(k));
    LeavesFrom(s, s2, Step(s, Index), base, Ref(|s.mem.cells|));
    NewIsLive(s, Step(s, Index), base, t.mem, Text([c]), leaked);
  }

  lemma RoomOnStack(s: Vm, leaked: seq<Item>)
    requires Good(s, leaked) && !s.stopped
    ensures |s.stack| <= STACK_MAX && s.frames != [] && |s.locals| == FRAMES_MAX * SLOTS
  {
    hide Sound;
  }

  /** A new object on the stack still lives when the instruction ends. */
  lemma NewIsLive(s: Vm, t: Vm, base: seq<Item>, m: Memory, o: Object, leaked: seq<Item>)
    requires Good(t, leaked) && Leaves(s, t, base, Ref(|s.mem.cells|)) && SameObjects(m, t.mem)
    requires m.cells == s.mem.cells + [Live(1, o)]
    ensures At(t.mem, Ref(|s.mem.cells|)) == o
  {
    assert t.stack[|t.stack| - 1] == Ref(|s.mem.cells|);
    hide Good;
    StackIsLive(t, leaked, |s.mem.cells|);
  }

  /** The sum of two strings is a new string, their concatenation. */
  lemma TextsAreJoined(s: Vm, base: seq<Item>, a: Item, b: Item, leaked: seq<Item>)
    requires Good(s, leaked) && !s.stopped && s.stack == base + [a, b] && IsText(s.mem, a) && IsText(s.mem, b)
    ensures Leaves(s, Step(s, Add), base, Ref(|s.mem.cells|))
    ensures At(Step(s, Add).mem, Ref(|s.mem.cells|)) == Text(At(s.mem, a).text + At(s.mem, b).text)
  {
    var x := Text(At(s.mem, a).text + At(s.mem, b).text);
    var s2 := s.(stack := base);
    var k := Keep(Keep(s2, a), b);
    RoomOnStack(s, leaked);
    StepIsExact(s, Add, leaked);
    assert [] + leaked == leaked;
    KeptTwice(s2, a, b);
    assert Step(s, Add) == Drop(Drop(Drop(Drop(PushNew(k, x), a), b), a), b) by {
      TakeTwo(s, base, a, b);
      hide PopItem, Drop, PushNew, Keep;
    }
    hide PushNew, Drop, Good, Leaves, SameObjects, Keep, Unchanged, UnchangedBut, Step;
    PushNewIs(k, x);
    var r := Ref(|s.mem.cells|);
    KeptLeaves(s, s2, k, PushNew(k, x), base, r);
    DropAfter(s, PushNew(k, x), base, r, a, b);
    DropAfter(s, Drop(Drop(PushNew(k, x), a), b), base, r, a, b);
    SameTwice(PushNew(k, x).mem, Drop(Drop(PushNew(k, x), a), b).mem, Step(s, Add).mem);
    JoinedIsLive(s, k, Step(s, Add), base, PushNew(k, x).mem, x, leaked);
  }

  lemma KeptTwice(s: Vm, a: Item, b: Item)
    requires !s.stopped
    ensures var k := Keep(Keep(s, a), b); k == s.(mem := k.mem) && SameObjects(s.mem, k.mem)
  {
    hide Retain, SameObjects;
    RetainSame(s.mem, a);
    RetainSame(Retain(s.mem, a), b);
    SameTwice(s.mem, Retain(s.mem, a), Retain(Retain(s.mem, a), b));
  }

  lemma KeptLeaves(s: Vm, s2: Vm, k: Vm, t: Vm, base: seq<Item>, v: Item)
    requires s2 == s.(stack := base) && k == s2.(mem := k.mem) && SameObjects(s2.mem, k.mem) && Leaves(k, t, base, v)
    ensures Leaves(s, t, base, v)
  {
    SameIsUnchanged(s2.mem, k.mem);
    UnchangedTwice(s2.mem, k.mem, t.mem, -1);
  }

  lemma JoinedIsLive(s: Vm, k: Vm, t: Vm, base: seq<Item>, m: Memory, o: Object, leaked: seq<Item>)
    requires Good(t, leaked) && Leaves(s, t, base, Ref(|s.mem.cells|)) && SameObjects(m, t.mem)
    requires |k.mem.cells| == |s.mem.cells| && m.cells == k.mem.cells + [Live(1, o)]
    ensures At(t.mem, Ref(|s.mem.cells|)) == o
  {
    assert t.stack[|t.stack| - 1] == Ref(|s.mem.cells|);
    hide Good;
    StackIsLive(t, leaked, |s.mem.cells|);
  }

  lemma {:induction false} PopItemsTop(s: Vm, n: nat)
    requires !s.stopped && n <= |s.stack|
    ensures !PopItems(s, n).0.stopped
    decreases n
  {
    if n > 0 {
      PopItemsTop(PopItem(s).0, n - 1);
    }
  }

  /** An array is made of the values on top of the stack, the deepest first. */
  lemma ArrayIsMade(s: Vm, base: seq<Item>, vs: seq<Item>)
    requires !s.stopped && s.stack == base + vs && |base| < STACK_MAX
    ensures Leaves(s, Step(s, MakeArray(|vs|)), base, Ref(|s.mem.cells|))
    ensures At(Step(s, MakeArray(|vs|)).mem, Ref(|s.mem.cells|)) == List(vs)
  {
    hide PopItems, PushNew, Leaves;
    PopItemsTop(s, |vs|);
    PopItemsTake(s, |vs|);
    assert s.stack[..|s.stack| - |vs|] == base && s.stack[|s.stack| - |vs|..] == vs;
    PushNewIs(s.(stack := base), List(vs));
    LeavesFrom(s, s.(stack := base), Step(s, MakeArray(|vs|)), base, Ref(|s.mem.cells|));
  }

  /** [v0, v1, ...][k] is vk. */
  lemma ArrayGivesItsItems(s: Vm, base: seq<Item>, vs: seq<Item>, k: int64)
    requires !s.stopped && s.stack == base + vs && |s.stack| <= STACK_MAX && |base| + 2 <= STACK_MAX && 0 <= k < |vs|
    ensures Leaves(s, Run(s, [MakeArray(|vs|), PushInt(k), Index]), base, vs[k])
  {
    hide Step, Leaves, At, IsIndex;
    var r := Ref(|s.mem.cells|);
    RunThree(s, MakeArray(|vs|), PushInt(k), Index);
    ArrayIsMade(s, base, vs);
    var t := Step(s, MakeArray(|vs|));
    LeavesMeans(s, t, base, r);
    ConstantsArePushed(t, k, true, []);
    var u := Step(t, PushInt(k));
    LeavesMeans(t, u, base + [r], Int(k));
    assert base + [r] + [Int(k)] == base + [r, Int(k)];
    PushedKeeps(t, k, r);
    SmallIndex(k);
    ItemIsGiven(u, base, r, k, k);
    LeavesThen(s, t, u, base, r, base + [r], Int(k));
    LeavesThen(s, u, Step(u, Index), base + [r], Int(k), base, vs[k]);
  }

  lemma LeavesMeans(s: Vm, t: Vm, base: seq<Item>, v: Item)
    requires Leaves(s, t, base, v)
    ensures !t.stopped && t.stack == base + [v] && t.locals == s.locals && t.frames == s.frames && Unchanged(s.mem, t.mem)
  {}

  lemma PushedKeeps(s: Vm, k: int64, o: Item)
    requires !s.stopped
    ensures At(Step(s, PushInt(k)).mem, o) == At(s.mem, o)
  {}

  /** After a[k] = w the array gives w at k and the old items elsewhere, to everybody that holds it: here
      a local. */
  lemma AssignedItemIsGiven(s: Vm, leaked: seq<Item>, base: seq<Item>, w: Item, o: Item, k: int64, i: int, slot: nat, k': int64, i': int)
    requires Good(s, leaked) && !s.stopped && s.stack == base + [w, o, Int(k)] && At(s.mem, o).List? && o.Ref?
    requires slot < SLOTS && s.frames != [] && SlotAt(s, slot) < |s.locals| && s.locals[SlotAt(s, slot)] == o
    requires IsIndex(k, i) && 0 <= i < |At(s.mem, o).items| && IsIndex(k', i') && 0 <= i' < |At(s.mem, o).items|
    ensures var t, items := Run(s, [SetIndex, Load(slot), PushInt(k'), Index]), At(s.mem, o).items;
      && !t.stopped && t == s.(mem := t.mem, stack := base + [if i' == i then w else items[i']])
      && UnchangedBut(s.mem, t.mem, o.at)
  {
    hide Step, Leaves, At, IsIndex, Good, UnchangedBut, Run;
    RunFour(s, SetIndex, Load(slot), PushInt(k'), Index);
    var items := At(s.mem, o).items;
    RoomOnStack(s, leaked);
    ItemIsAssigned(s, leaked, base, w, o, k, i, SlotAt(s, slot));
    var t1 := Step(s, SetIndex);
    LoadIs(t1, slot);
    var t2 := Step(t1, Load(slot));
    LeavesMeans(t1, t2, base, o);
    LoadKeepsObject(t1, slot, o);
    ConstantsArePushed(t2, k', true, []);
    var t3 := Step(t2, PushInt(k'));
    LeavesMeans(t2, t3, base + [o], Int(k'));
    PushedKeeps(t2, k', o);
    assert base + [o] + [Int(k')] == base + [o, Int(k')];
    ItemIsGiven(t3, base, o, k', i');
    var v := items[i := w][i'];
    LeavesThen(t1, t2, t3, base, o, base + [o], Int(k'));
    LeavesThen(t1, t3, Step(t3, Index), base + [o], Int(k'), base, v);
    LeavesMeans(t1, Step(t3, Index), base, v);
    UnchangedTwice(s.mem, t1.mem, Step(t3, Index).mem, o.at);
    LeavesAll(t1, Step(t3, Index), base, v);
  }

  lemma LeavesAll(s: Vm, t: Vm, base: seq<Item>, v: Item)
    requires Leaves(s, t, base, v)
    ensures t == s.(mem := t.mem, stack := base + [v])
  {}

  lemma LoadIs(s: Vm, slot: nat)
    requires !s.stopped && |s.stack| < STACK_MAX && s.frames != [] && SlotAt(s, slot) < |s.locals|
    ensures Leaves(s, Step(s, Load(slot)), s.stack, s.locals[SlotAt(s, slot)])
  {
    PushIs(s, s.locals[SlotAt(s, slot)]);
  }

  lemma LoadKeepsObject(s: Vm, slot: nat, o: Item)
    requires !s.stopped && s.frames != []
    ensures At(Step(s, Load(slot)).mem, o) == At(s.mem, o)
  {}

  lemma TakeThree(s: Vm, base: seq<Item>, w: Item, a: Item, b: Item)
    requires !s.stopped && s.stack == base + [w, a, b]
    ensures PopItem(s) == (s.(stack := base + [w, a]), b)
    ensures PopItem(s.(stack := base + [w, a])) == (s.(stack := base + [w]), a)
    ensures PopItem(s.(stack := base + [w])) == (s.(stack := base), w)
  {
    assert s.stack[..|s.stack| - 1] == base + [w, a];
    assert (base + [w, a])[..|base| + 1] == base + [w];
    assert (base + [w])[..|base|] == base;
  }

  /** The array after the assignment, as long as a local holds it. */
  lemma ItemIsAssigned(s: Vm, leaked: seq<Item>, base: seq<Item>, w: Item, o: Item, k: int64, i: int, j: nat)
    requires Good(s, leaked) && !s.stopped && s.stack == base + [w, o, Int(k)] && At(s.mem, o).List? && o.Ref?
    requires j < |s.locals| && s.locals[j] == o
    requires IsIndex(k, i) && 0 <= i < |At(s.mem, o).items|
    ensures var t := Step(s, SetIndex);
      && !t.stopped && t == s.(mem := t.mem, stack := base) && Good(t, leaked)
      && At(t.mem, o) == List(At(s.mem, o).items[i := w]) && UnchangedBut(s.mem, t.mem, o.at)
  {
    var items := At(s.mem, o).items;
    var m := Overwrite(s.mem, o.at, List(items[i := w]), items[i], w);
    StepIsExact(s, SetIndex, leaked);
    assert [] + leaked == leaked;
    assert Step(s, SetIndex) == DropThree(s.(stack := base, mem := m), o, Int(k), w) by {
      TakeThree(s, base, w, o, Int(k));
      IndexIs(k, i);
      hide PopItem, DropThree, Overwrite, Raise, ToInt32;
    }
    assert o.at < |s.mem.cells| && s.mem.cells[o.at].Live?;
    hide Step, Good, At, IsIndex;
    WrittenStays(s, leaked, s.(stack := base, mem := m), m, o, Int(k), w, List(items[i := w]), j) by {
      OverwriteWrites(s.mem, o.at, List(items[i := w]), items[i], w);
    }
  }

  /** From m to n only cell x may change its object, and if it lives it holds o. */
  predicate Written(m: Memory, n: Memory, x: nat, o: Object) {
    UnchangedBut(m, n, x) && |n.cells| == |m.cells| && (x < |n.cells| && n.cells[x].Live? ==> n.cells[x].obj == o)
  }

  lemma OverwriteWrites(m: Memory, x: nat, o: Object, was: Item, comes: Item)
    requires x < |m.cells|
    ensures Written(m, Overwrite(m, x, o, was, comes), x, o)
  {
    hide Retain, Release;
    ReleaseSame(m, was);
    RetainSame(Release(m, was), comes);
  }

  /** The written object lives on, because a local holds it. */
  lemma WrittenStays(s: Vm, leaked: seq<Item>, s4: Vm, m: Memory, o: Item, a: Item, b: Item, obj: Object, j: nat)
    requires !s.stopped && o.Ref? && j < |s.locals| && s.locals[j] == o
    requires s4 == s.(stack := s4.stack, mem := m) && Written(s.mem, m, o.at, obj)
    requires Good(DropThree(s4, o, a, b), leaked)
    ensures var t := DropThree(s4, o, a, b);
      && !t.stopped && t == s4.(mem := t.mem) && At(t.mem, o) == obj && UnchangedBut(s.mem, t.mem, o.at)
  {
    var t := DropThree(s4, o, a, b);
    hide Good, Release;
    DropIs(s4, o);
    DropIs(Drop(s4, o), a);
    DropIs(Drop(Drop(s4, o), a), b);
    SameTwice(m, Drop(s4, o).mem, Drop(Drop(s4, o), a).mem);
    SameTwice(m, Drop(Drop(s4, o), a).mem, t.mem);
    LocalIsAlive(t, j, leaked);
    assert CountOf(t.mem.cells, o.at) > 0;
  }

  // ----- maps as finite maps -----

  /** What a key stands for: equal numbers, equal truth values, strings of the same text up to a zero byte, and
      the same array are one key. Void, maps and closures are no key: no search finds them. */
  datatype Key = IntKey(n: int64) | BoolKey(b: bool) | TextKey(text: seq<byte>) | ListKey(at: nat) | NoKey

  function KeyOf(m: Memory, v: Item): Key {
    match v
    case Void => NoKey
    case Int(n) => IntKey(n)
    case Bool(b) => BoolKey(b)
    case Ref(x) =>
      match At(m, v)
      case Text(text) => TextKey(UpToNul(text))
      case List(_) => ListKey(x)
      case _ => NoKey
  }

  function Bind(table: map<Key, Item>, k: Key, v: Item): map<Key, Item> {
    if k == NoKey then table else table[k := v]
  }

  /** The bindings of these entries over those of a table; the first entry of a key counts. */
  function Over(m: Memory, entries: seq<Entry>, table: map<Key, Item>): map<Key, Item> {
    if entries == [] then table
    else Bind(Over(m, entries[1..], table), KeyOf(m, entries[0].key), entries[0].value)
  }

  function Table(m: Memory, entries: seq<Entry>): map<Key, Item> {
    Over(m, entries, map[])
  }

  lemma SameIsSameKey(m: Memory, a: Item, b: Item)
    ensures Same(m, a, b) <==> KeyOf(m, a) != NoKey && KeyOf(m, a) == KeyOf(m, b)
  {}

  /** The search of map_get and map_set finds exactly the keys of the table. */
  lemma {:induction false} FindLooksUp(m: Memory, entries: seq<Entry>, key: Item)
    ensures NoKey !in Table(m, entries)
    ensures Find(m, entries, key) < |entries| <==> KeyOf(m, key) in Table(m, entries)
    ensures Find(m, entries, key) < |entries| ==>
      entries[Find(m, entries, key)].value == Table(m, entries)[KeyOf(m, key)]
    decreases |entries|
  {
    hide Same, KeyOf;
    if entries != [] {
      SameIsSameKey(m, entries[0].key, key);
      FindLooksUp(m, entries[1..], key);
      assert !Same(m, entries[0].key, key) ==> Find(m, entries, key) == 1 + Find(m, entries[1..], key);
    }
  }

  /** The entries after map_set. */
  function AfterSet(m: Memory, entries: seq<Entry>, key: Item, v: Item): seq<Entry> {
    var i := Find(m, entries, key);
    if i < |entries| then entries[i := entries[i].(value := v)] else entries + [Entry(key, v)]
  }

  lemma {:induction false} AfterSetBinds(m: Memory, entries: seq<Entry>, key: Item, v: Item)
    ensures Table(m, AfterSet(m, entries, key, v)) == Bind(Table(m, entries), KeyOf(m, key), v)
    decreases |entries|
  {
    hide Same, KeyOf;
    if entries == [] {
      assert AfterSet(m, entries, key, v)[1..] == [];
    } else {
      var first, rest := entries[0], entries[1..];
      SameIsSameKey(m, first.key, key);
      if Same(m, first.key, key) {
        assert AfterSet(m, entries, key, v)[1..] == rest;
      } else {
        AfterSetBinds(m, rest, key, v);
        assert AfterSet(m, entries, key, v)[0] == first && AfterSet(m, entries, key, v)[1..] == AfterSet(m, rest, key, v);
      }
    }
  }

  /** A live key means the same in both memories. */
  predicate KeptKey(m: Memory, n: Memory, v: Item) {
    v.Ref? ==>
      && v.at < |m.cells| && v.at < |n.cells| && m.cells[v.at].Live? && n.cells[v.at].Live?
      && (m.cells[v.at].obj == n.cells[v.at].obj || (m.cells[v.at].obj.Dict? && n.cells[v.at].obj.Dict?))
  }

  lemma {:induction false} TableStays(m: Memory, n: Memory, entries: seq<Entry>, table: map<Key, Item>)
    requires forall e | e in entries :: KeptKey(m, n, e.key)
    ensures Over(m, entries, table) == Over(n, entries, table)
    decreases |entries|
  {
    if entries != [] {
      assert entries[0] in entries;
      TableStays(m, n, entries[1..], table);
    }
  }

  lemma {:induction false} EntryKey(entries: seq<Entry>, i: nat)
    requires i < |entries|
    ensures 2 * i < |EntryParts(entries)| && EntryParts(entries)[2 * i] == entries[i].key
    ensures 2 * i + 1 < |EntryParts(entries)| && EntryParts(entries)[2 * i + 1] == entries[i].value
    decreases i
  {
    if i > 0 {
      EntryKey(entries[1..], i - 1);
    }
  }

  /** The keys of a map that lives are alive. */
  lemma KeysAreAlive(s: Vm, o: Item, leaked: seq<Item>)
    requires Good(s, leaked) && !s.stopped && At(s.mem, o).Dict?
    ensures forall e | e in At(s.mem, o).entries :: Alive(s, e.key)
    ensures forall v | v in EntryParts(At(s.mem, o).entries) :: Alive(s, v)
  {
    hide Good, Alive;
    var entries := At(s.mem, o).entries;
    forall v | v in EntryParts(entries)
      ensures Alive(s, v)
    {
      var i :| 0 <= i < |EntryParts(entries)| && EntryParts(entries)[i] == v;
      PartIsAlive(s, o, i, leaked);
    }
    forall e | e in entries
      ensures Alive(s, e.key)
    {
      var i :| 0 <= i < |entries| && entries[i] == e;
      EntryKey(entries, i);
    }
  }

  lemma AliveIsLive(s: Vm, v: Item)
    requires !s.stopped && Alive(s, v) && v.Ref?
    ensures v.at < |s.mem.cells| && s.mem.cells[v.at].Live?
  {}

  /** A key that is alive before and after, when only a map was written. */
  lemma KeyIsKept(s: Vm, t: Vm, x: int, v: Item)
    requires !s.stopped && !t.stopped && Alive(s, v) && Alive(t, v) && UnchangedBut(s.mem, t.mem, x)
    requires 0 <= x < |s.mem.cells| && s.mem.cells[x].Live? ==>
      s.mem.cells[x].obj.Dict? && (t.mem.cells[x].Live? ==> t.mem.cells[x].obj.Dict?)
    ensures KeptKey(s.mem, t.mem, v)
  {
    if v.Ref? {
      AliveIsLive(s, v);
      AliveIsLive(t, v);
    }
  }

  // ----- OP_INDEX on a map -----

  /** OP_INDEX on a map gives the value of the key; a key without a value raises an error. */
  lemma ValueIsGiven(s: Vm, base: seq<Item>, o: Item, key: Item)
    requires !s.stopped && s.stack == base + [o, key] && |s.stack| <= STACK_MAX && At(s.mem, o).Dict?
    ensures var table, k := Table(s.mem, At(s.mem, o).entries), KeyOf(s.mem, key);
      if k in table && table[k] != Void then Leaves(s, Step(s, Index), base, table[k])
      else Step(s, Index) == Raise(Drop(Drop(s.(stack := base), o), key), [])
  {
    hide Push, Drop, PopItem, Leaves, Raise, Find, Table, KeyOf;
    TakeTwo(s, base, o, key);
    var entries := At(s.mem, o).entries;
    FindLooksUp(s.mem, entries, key);
    var i := Find(s.mem, entries, key);
    if i < |entries| {
      ResultIs(s, base, o, key, entries[i].value);
    }
  }

  // ----- OP_SET_INDEX on a map -----

  /** After m[key] = w the map binds key to w and every other key as before, as long as a local holds it. */
  lemma KeyIsBound(s: Vm, leaked: seq<Item>, base: seq<Item>, w: Item, o: Item, key: Item, j: nat)
    requires Good(s, leaked) && !s.stopped && s.stack == base + [w, o, key] && At(s.mem, o).Dict? && o.Ref?
    requires j < |s.locals| && s.locals[j] == o
    ensures var t := Step(s, SetIndex);
      && !t.stopped && t == s.(mem := t.mem, stack := base) && Good(t, leaked) && UnchangedBut(s.mem, t.mem, o.at)
      && At(t.mem, o).Dict?
      && Table(t.mem, At(t.mem, o).entries) == Bind(Table(s.mem, At(s.mem, o).entries), KeyOf(s.mem, key), w)
  {
    var d := At(s.mem, o);
    var more := AfterSet(s.mem, d.entries, key, w);
    var obj := Dict(more, Grown(d.entries, d.capacity));
    var m := SetEntry(s.mem, o.at, d.entries, d.capacity, key, w);
    StepIsExact(s, SetIndex, leaked);
    assert [] + leaked == leaked;
    assert Step(s, SetIndex) == DropThree(s.(stack := base, mem := m), o, key, w) by {
      TakeThree(s, base, w, o, key);
      hide PopItem, DropThree, SetEntry, Raise;
    }
    KeysAreAlive(s, o, leaked);
    KeyOnStack(s, base, w, o, key, leaked);
    assert o.at < |s.mem.cells| && s.mem.cells[o.at].Live?;
    hide Step, Good, At, Table, KeyOf, AfterSet, Alive, DropThree, Written;
    SetEntryWrites(s, leaked, o, key, w);
    WrittenStays(s, leaked, s.(stack := base, mem := m), m, o, key, w, obj, j);
    var t := Step(s, SetIndex);
    AfterSetBinds(s.mem, d.entries, key, w);
    KeysAreAlive(t, o, leaked);
    EntriesAreKept(s, t, leaked, o, d.entries, key, w);
  }

  lemma KeyOnStack(s: Vm, base: seq<Item>, w: Item, o: Item, key: Item, leaked: seq<Item>)
    requires Good(s, leaked) && !s.stopped && s.stack == base + [w, o, key]
    ensures Alive(s, key)
  {
    if key.Ref? {
      assert s.stack[|base| + 2] == key;
      hide Good;
      OnStackIsAlive(s, |base| + 2, leaked);
    }
  }

  lemma OnStackIsAlive(s: Vm, i: nat, leaked: seq<Item>)
    requires Good(s, leaked) && !s.stopped && i < |s.stack|
    ensures Alive(s, s.stack[i])
  {
    var v := s.stack[i];
    if v.Ref? {
      TimesIn(s.stack, i, v.at);
      HeldTimes(s, leaked, v.at);
      OwnersAreLive(s.mem.cells, Held(s, leaked), v.at);
    }
  }

  lemma SetEntryWrites(s: Vm, leaked: seq<Item>, o: Item, key: Item, w: Item)
    requires Good(s, leaked) && !s.stopped && At(s.mem, o).Dict? && o.Ref?
    requires forall v | v in EntryParts(At(s.mem, o).entries) :: Alive(s, v)
    requires o.at < |s.mem.cells| && s.mem.cells[o.at].Live?
    ensures var d := At(s.mem, o);
      Written(s.mem, SetEntry(s.mem, o.at, d.entries, d.capacity, key, w), o.at,
              Dict(AfterSet(s.mem, d.entries, key, w), Grown(d.entries, d.capacity)))
  {
    var d := At(s.mem, o);
    GrowthChangesNothing(s, d.entries, d.capacity, leaked);
    hide Good, Alive, Retain, Overwrite, AfterGrowth, Find, Grown;
    var i := Find(s.mem, d.entries, key);
    if i < |d.entries| {
      OverwriteWrites(s.mem, o.at, Dict(AfterSet(s.mem, d.entries, key, w), Grown(d.entries, d.capacity)), d.entries[i].value, w);
    } else {
      RetainSame(s.mem, key);
      RetainSame(Retain(s.mem, key), w);
      SameTwice(s.mem, Retain(s.mem, key), Retain(Retain(s.mem, key), w));
    }
  }

  lemma EntriesAreKept(s: Vm, t: Vm, leaked: seq<Item>, o: Item, entries: seq<Entry>, key: Item, w: Item)
    requires !s.stopped && !t.stopped && o.Ref? && UnchangedBut(s.mem, t.mem, o.at) && At(s.mem, o).Dict? && At(t.mem, o).Dict?
    requires At(t.mem, o).entries == AfterSet(s.mem, entries, key, w)
    requires (forall e | e in entries :: Alive(s, e.key)) && Alive(s, key)
    requires forall e | e in At(t.mem, o).entries :: Alive(t, e.key)
    ensures Table(t.mem, At(t.mem, o).entries) == Table(s.mem, AfterSet(s.mem, entries, key, w))
  {
    var more := AfterSet(s.mem, entries, key, w);
    assert o.at < |s.mem.cells| && s.mem.cells[o.at].Live? && s.mem.cells[o.at].obj.Dict?;
    assert o.at < |t.mem.cells| && t.mem.cells[o.at].Live? && t.mem.cells[o.at].obj.Dict?;
    hide Alive, Find, UnchangedBut, At, Over, KeptKey;
    forall e | e in more
      ensures KeptKey(s.mem, t.mem, e.key)
    {
      var i :| 0 <= i < |more| && more[i] == e;
      assert e.key == key || exists d :: d in entries && d.key == e.key by {
        if i < |entries| {
          assert entries[i] in entries && entries[i].key == e.key;
        }
      }
      KeyIsKept(s, t, o.at, e.key);
    }
    TableStays(s.mem, t.mem, more, map[]);
  }

  // ----- keys pushed by an instruction -----

  /** The key that a constant stands for. */
  function Meant(i: Instr): Key {
    match i
    case PushInt(n) => IntKey(n)
    case PushBool(b) => BoolKey(b)
    case PushStr(text) => TextKey(UpToNul(text))
    case _ => NoKey
  }

  function Constant(s: Vm, i: Instr): Item {
    match i
    case PushInt(n) => Int(n)
    case PushBool(b) => Bool(b)
    case _ => Ref(|s.mem.cells|)
  }

  lemma KeyIsPushed(s: Vm, i: Instr, o: Item)
    requires !s.stopped && |s.stack| < STACK_MAX && Meant(i) != NoKey && At(s.mem, o).Dict?
    ensures var t := Step(s, i);
      && Leaves(s, t, s.stack, Constant(s, i)) && KeyOf(t.mem, Constant(s, i)) == Meant(i) && At(t.mem, o) == At(s.mem, o)
  {
    match i
    case PushInt(n) => ConstantsArePushed(s, n, true, []);
    case PushBool(b) => ConstantsArePushed(s, 0, b, []);
    case PushStr(text) =>
      ConstantsArePushed(s, 0, true, text);
      PushNewIs(s, Text(text));
  }

  /** A map that nobody wrote binds the same keys. */
  lemma TableUnchanged(s: Vm, t: Vm, leaked: seq<Item>, o: Item)
    requires Good(s, leaked) && Good(t, leaked) && !s.stopped && !t.stopped && Unchanged(s.mem, t.mem)
    requires At(s.mem, o).Dict? && At(t.mem, o) == At(s.mem, o)
    ensures Table(t.mem, At(t.mem, o).entries) == Table(s.mem, At(s.mem, o).entries)
  {
    hide Good, Alive, UnchangedBut, At, Over, KeptKey;
    KeysAreAlive(s, o, leaked);
    KeysAreAlive(t, o, leaked);
    var entries := At(s.mem, o).entries;
    forall e | e in entries
      ensures KeptKey(s.mem, t.mem, e.key)
    {
      KeyIsKept(s, t, -1, e.key);
    }
    TableStays(s.mem, t.mem, entries, map[]);
  }

  lemma StepKeepsGood(s: Vm, i: Instr, leaked: seq<Item>)
    requires Good(s, leaked) && Tame(i) && !i.Throw?
    ensures Good(Step(s, i), leaked)
  {
    hide Good;
    StepIsExact(s, i, leaked);
    assert [] + leaked == leaked;
  }

  /** A map on top of the stack, a constant key, and OP_INDEX. */
  lemma KeyIsLookedUp(s: Vm, leaked: seq<Item>, base: seq<Item>, o: Item, i: Instr)
    requires Good(s, leaked) && !s.stopped && s.stack == base + [o] && |base| + 2 <= STACK_MAX
    requires At(s.mem, o).Dict? && Meant(i) != NoKey
    ensures var table, k := Table(s.mem, At(s.mem, o).entries), Meant(i);
      k in table && table[k] != Void ==> Leaves(s, Step(Step(s, i), Index), base, table[k])
  {
    hide Good, Step, Leaves, Table, At, KeyOf;
    var v := Constant(s, i);
    var t := Step(s, i);
    KeyIsPushed(s, i, o);
    LeavesMeans(s, t, base + [o], v);
    StepKeepsGood(s, i, leaked);
    TableUnchanged(s, t, leaked, o);
    assert base + [o] + [v] == base + [o, v];
    ValueIsGiven(t, base, o, v);
    var table, k := Table(s.mem, At(s.mem, o).entries), Meant(i);
    if k in table && table[k] != Void {
      LeavesThen(s, t, Step(t, Index), base + [o], v, base, table[k]);
    }
  }

  /** After m[key] = w, m[k] is w when k is that key, and what it was for every other key. */
  lemma AssignedValueIsGiven(s: Vm, leaked: seq<Item>, base: seq<Item>, w: Item, o: Item, key: Item, slot: nat, i: Instr)
    requires Good(s, leaked) && !s.stopped && s.stack == base + [w, o, key] && At(s.mem, o).Dict? && o.Ref?
    requires slot < SLOTS && s.frames != [] && SlotAt(s, slot) < |s.locals| && s.locals[SlotAt(s, slot)] == o
    requires Meant(i) != NoKey
    ensures var table := Bind(Table(s.mem, At(s.mem, o).entries), KeyOf(s.mem, key), w);
            var t := Run(s, [SetIndex, Load(slot), i, Index]);
      Meant(i) in table && table[Meant(i)] != Void ==>
        && !t.stopped && t == s.(mem := t.mem, stack := base + [table[Meant(i)]])
        && UnchangedBut(s.mem, t.mem, o.at)
  {
    hide Good, Step, Leaves, Table, At, KeyOf, UnchangedBut, Run;
    RunFour(s, SetIndex, Load(slot), i, Index);
    RoomOnStack(s, leaked);
    KeyIsBound(s, leaked, base, w, o, key, SlotAt(s, slot));
    var t1 := Step(s, SetIndex);
    LoadIs(t1, slot);
    var t2 := Step(t1, Load(slot));
    LeavesMeans(t1, t2, base, o);
    LoadKeepsObject(t1, slot, o);
    StepKeepsGood(t1, Load(slot), leaked);
    TableUnchanged(t1, t2, leaked, o);
    KeyIsLookedUp(t2, leaked, base, o, i);
    var table := Table(t1.mem, At(t1.mem, o).entries);
    if Meant(i) in table && table[Meant(i)] != Void {
      var t := Step(Step(t2, i), Index);
      LeavesThen(t1, t2, t, base, o, base, table[Meant(i)]);
      LeavesMeans(t1, t, base, table[Meant(i)]);
      UnchangedTwice(s.mem, t1.mem, t.mem, o.at);
      LeavesAll(t1, t, base, table[Meant(i)]);
    }
  }

  // ----- OP_MAP -----

  lemma {:induction false} OverLast(m: Memory, pairs: seq<Entry>, table: map<Key, Item>)
    requires pairs != []
    ensures var last := pairs[|pairs| - 1];
      Over(m, pairs, table) == Over(m, pairs[..|pairs| - 1], Bind(table, KeyOf(m, last.key), last.value))
    decreases |pairs|
  {
    hide KeyOf;
    if |pairs| == 1 {
      assert pairs[1..] == [] && pairs[..0] == [];
    } else {
      OverLast(m, pairs[1..], table);
      assert pairs[1..][..|pairs| - 2] == pairs[..|pairs| - 1][1..];
    }
  }

  lemma {:induction false} PartsLast(pairs: seq<Entry>)
    requires pairs != []
    ensures var last := pairs[|pairs| - 1];
      EntryParts(pairs) == EntryParts(pairs[..|pairs| - 1]) + [last.key, last.value]
    decreases |pairs|
  {
    if |pairs| == 1 {
      assert pairs[1..] == [] && pairs[..0] == [];
    } else {
      PartsLast(pairs[1..]);
      assert pairs[1..][..|pairs| - 2] == pairs[..|pairs| - 1][1..];
    }
  }

  /** One turn of the loop of OP_MAP. */
  function FilledOnce(s: Vm, entries: seq<Entry>, capacity: nat, key: Item, value: Item): Vm {
    Drop(Drop(SetYoung(s, entries, capacity, key, value).0, key), value)
  }

  lemma FilledOnceIs(s: Vm, leaked: seq<Item>, entries: seq<Entry>, capacity: nat, key: Item, value: Item)
    requires !s.stopped && Good(s, Filling(key, value, entries, leaked))
    ensures var u, more := FilledOnce(s, entries, capacity, key, value), AfterSet(s.mem, entries, key, value);
      && SetYoung(s, entries, capacity, key, value).1 == more
      && u == s.(mem := u.mem) && SameObjects(s.mem, u.mem) && Good(u, EntryParts(more) + leaked)
  {
    var (s3, more) := SetYoung(s, entries, capacity, key, value);
    FillingIsAlive(s, key, value, entries, leaked);
    GrowthChangesNothing(s, entries, capacity, Filling(key, value, entries, leaked));
    SetYoungKeeps(s, entries, capacity, key, value, leaked);
    YoungIs(s, entries, capacity, key, value);
    hide Good, Alive, SetYoung, Release, SameObjects, AfterSet;
    DropKeeps(s3, key, [value] + (EntryParts(more) + leaked));
    DropKeeps(Drop(s3, key), value, EntryParts(more) + leaked);
    DropIs(s3, key);
    DropIs(Drop(s3, key), value);
    SameTwice(s.mem, s3.mem, Drop(s3, key).mem);
    SameTwice(s.mem, Drop(s3, key).mem, Drop(Drop(s3, key), value).mem);
  }

  lemma YoungIs(s: Vm, entries: seq<Entry>, capacity: nat, key: Item, value: Item)
    requires !s.stopped && AfterGrowth(s.mem, entries, capacity) == s.mem
    ensures var (s3, more) := SetYoung(s, entries, capacity, key, value);
      more == AfterSet(s.mem, entries, key, value) && s3 == s.(mem := s3.mem) && SameObjects(s.mem, s3.mem)
  {
    hide AfterGrowth, Release, Retain, Find, SameObjects;
    var i := Find(s.mem, entries, key);
    if i < |entries| {
      ReleaseSame(s.mem, entries[i].value);
      RetainSame(Release(s.mem, entries[i].value), value);
      SameTwice(s.mem, Release(s.mem, entries[i].value), Retain(Release(s.mem, entries[i].value), value));
    } else {
      RetainSame(s.mem, key);
      RetainSame(Retain(s.mem, key), value);
      SameTwice(s.mem, Retain(s.mem, key), Retain(Retain(s.mem, key), value));
    }
  }

  /** Keys that somebody holds before and after. */
  lemma HeldKeysStay(s: Vm, t: Vm, entries: seq<Entry>, table: map<Key, Item>)
    requires !s.stopped && !t.stopped && Unchanged(s.mem, t.mem)
    requires forall e | e in entries :: Alive(s, e.key) && Alive(t, e.key)
    ensures Over(t.mem, entries, table) == Over(s.mem, entries, table)
  {
    hide Alive, UnchangedBut, Over, KeptKey;
    forall e | e in entries
      ensures KeptKey(s.mem, t.mem, e.key)
    {
      KeyIsKept(s, t, -1, e.key);
    }
    TableStays(s.mem, t.mem, entries, table);
  }

  lemma KeysInHandAreAlive(s: Vm, entries: seq<Entry>, leaked: seq<Item>)
    requires Good(s, EntryParts(entries) + leaked)
    ensures forall e | e in entries :: Alive(s, e.key)
  {
    hide Good, Alive;
    forall e | e in entries
      ensures Alive(s, e.key)
    {
      var i :| 0 <= i < |entries| && entries[i] == e;
      EntryKey(entries, i);
      assert (EntryParts(entries) + leaked)[2 * i] == e.key;
      InHandIsAlive(s, e.key, EntryParts(entries) + leaked);
    }
  }

  lemma KeysOnStackAreAlive(s: Vm, base: seq<Item>, pairs: seq<Entry>, hand: seq<Item>)
    requires Good(s, hand) && !s.stopped && s.stack == base + EntryParts(pairs)
    ensures forall e | e in pairs :: Alive(s, e.key)
  {
    hide Good, Alive;
    forall e | e in pairs
      ensures Alive(s, e.key)
    {
      var i :| 0 <= i < |pairs| && pairs[i] == e;
      EntryKey(pairs, i);
      assert s.stack[|base| + 2 * i] == e.key;
      OnStackIsAlive(s, |base| + 2 * i, hand);
    }
  }

  /** The loop of OP_MAP binds the pairs from the last to the first over what the map holds. */
  lemma {:induction false} MapIsFilled(s: Vm, leaked: seq<Item>, base: seq<Item>, pairs: seq<Entry>, entries: seq<Entry>, capacity: nat)
    requires Good(s, EntryParts(entries) + leaked) && !s.stopped
    requires s.stack == base + EntryParts(pairs) && |base| < STACK_MAX
    ensures var t, r := DoMap(s, |pairs|, entries, capacity), Ref(|s.mem.cells|);
      && Leaves(s, t, base, r) && At(t.mem, r).Dict?
      && Table(t.mem, At(t.mem, r).entries) == Over(s.mem, pairs, Table(s.mem, entries))
    decreases |pairs|
  {
    if pairs == [] {
      assert base + [] == base;
      EmptyMap(s, leaked, base, entries, capacity);
    } else {
      var n := |pairs| - 1;
      var last, init := pairs[n], pairs[..n];
      var more := AfterSet(s.mem, entries, last.key, last.value);
      var s2 := s.(stack := base + EntryParts(init));
      var u := FilledOnce(s2, entries, capacity, last.key, last.value);
      hide Good, Alive, Over, Leaves, At, AfterSet, FilledOnce, SameObjects, EntryParts, UnchangedBut;
      LoopTurns(s, leaked, base, pairs, entries, capacity);
      MapIsFilled(u, leaked, base, init, more, Grown(entries, capacity));
      SameIsUnchanged(s.mem, u.mem);
      TurnBinds(s, u, leaked, base, pairs, entries);
      FilledLeaves(s, u, DoMap(s, |pairs|, entries, capacity), base, EntryParts(init), Ref(|s.mem.cells|));
    }
  }

  lemma FilledLeaves(s: Vm, u: Vm, t: Vm, base: seq<Item>, init: seq<Item>, r: Item)
    requires u == s.(mem := u.mem, stack := base + init) && Unchanged(s.mem, u.mem) && Leaves(u, t, base, r)
    ensures Leaves(s, t, base, r)
  {
    UnchangedTwice(s.mem, u.mem, t.mem, -1);
  }

  lemma EmptyMap(s: Vm, leaked: seq<Item>, base: seq<Item>, entries: seq<Entry>, capacity: nat)
    requires Good(s, EntryParts(entries) + leaked) && !s.stopped && s.stack == base && |base| < STACK_MAX
    ensures var t, r := PushNew(s, Dict(entries, capacity)), Ref(|s.mem.cells|);
      && Leaves(s, t, base, r) && At(t.mem, r) == Dict(entries, capacity)
      && Table(t.mem, entries) == Table(s.mem, entries)
  {
    hide Good, Over, Leaves;
    var t := PushNew(s, Dict(entries, capacity));
    PushNewIs(s, Dict(entries, capacity));
    KeysInHandAreAlive(s, entries, leaked);
    forall e | e in entries
      ensures KeptKey(s.mem, t.mem, e.key)
    {
      assert Alive(s, e.key);
    }
    TableStays(s.mem, t.mem, entries, map[]);
  }

  lemma LoopTurns(s: Vm, leaked: seq<Item>, base: seq<Item>, pairs: seq<Entry>, entries: seq<Entry>, capacity: nat)
    requires Good(s, EntryParts(entries) + leaked) && !s.stopped && pairs != [] && s.stack == base + EntryParts(pairs)
    ensures var n := |pairs| - 1;
            var last, init := pairs[n], pairs[..n];
            var more := AfterSet(s.mem, entries, last.key, last.value);
            var u := FilledOnce(s.(stack := base + EntryParts(init)), entries, capacity, last.key, last.value);
      && DoMap(s, |pairs|, entries, capacity) == DoMap(u, n, more, Grown(entries, capacity))
      && u == s.(mem := u.mem, stack := base + EntryParts(init)) && SameObjects(s.mem, u.mem)
      && Good(u, EntryParts(more) + leaked)
  {
    var n := |pairs| - 1;
    var last, init := pairs[n], pairs[..n];
    var s2 := s.(stack := base + EntryParts(init));
    PartsLast(pairs);
    hide Good, SetYoung, Drop, EntryParts, AfterSet, SameObjects;
    assert base + (EntryParts(init) + [last.key, last.value]) == (base + EntryParts(init)) + [last.key, last.value];
    PopKeeps(s, EntryParts(entries) + leaked);
    PopKeeps(PopItem(s).0, [PopItem(s).1] + (EntryParts(entries) + leaked));
    TakeTwo(s, base + EntryParts(init), last.key, last.value);
    FilledOnceIs(s2, leaked, entries, capacity, last.key, last.value);
  }

  lemma TurnBinds(s: Vm, u: Vm, leaked: seq<Item>, base: seq<Item>, pairs: seq<Entry>, entries: seq<Entry>)
    requires Good(s, EntryParts(entries) + leaked) && !s.stopped && pairs != [] && s.stack == base + EntryParts(pairs)
    requires var init, last := pairs[..|pairs| - 1], pairs[|pairs| - 1];
      && Good(u, EntryParts(AfterSet(s.mem, entries, last.key, last.value)) + leaked) && !u.stopped
      && u.stack == base + EntryParts(init) && Unchanged(s.mem, u.mem)
    ensures var init, last := pairs[..|pairs| - 1], pairs[|pairs| - 1];
      Over(u.mem, init, Table(u.mem, AfterSet(s.mem, entries, last.key, last.value)))
      == Over(s.mem, pairs, Table(s.mem, entries))
  {
    hide Good, Alive, Over, KeyOf, Find, UnchangedBut;
    var init, last := pairs[..|pairs| - 1], pairs[|pairs| - 1];
    var more := AfterSet(s.mem, entries, last.key, last.value);
    KeysInHandAreAlive(s, entries, leaked);
    KeysOnStackAreAlive(s, base, pairs, EntryParts(entries) + leaked);
    KeysInHandAreAlive(u, more, leaked);
    KeysOnStackAreAlive(u, base, init, EntryParts(more) + leaked);
    assert last in pairs;
    forall e | e in more
      ensures Alive(s, e.key) && Alive(u, e.key)
    {
      var i :| 0 <= i < |more| && more[i] == e;
      if i < |entries| {
        assert entries[i] in entries && entries[i].key == e.key;
      } else {
        assert e.key == last.key;
      }
    }
    HeldKeysStay(s, u, more, map[]);
    AfterSetBinds(s.mem, entries, last.key, last.value);
    forall e | e in init
      ensures Alive(s, e.key) && Alive(u, e.key)
    {
      assert e in pairs;
    }
    var table := Table(s.mem, more);
    HeldKeysStay(s, u, init, table);
    OverLast(s.mem, pairs, Table(s.mem, entries));
  }

  /** A map is made of the pairs on top of the stack; of several values for one key the deepest counts. */
  lemma MapIsMade(s: Vm, leaked: seq<Item>, base: seq<Item>, pairs: seq<Entry>)
    requires Good(s, leaked) && !s.stopped && s.stack == base + EntryParts(pairs) && |base| < STACK_MAX
    ensures var t, r := Step(s, MakeMap(|pairs|)), Ref(|s.mem.cells|);
      && Leaves(s, t, base, r) && At(t.mem, r).Dict?
      && Table(t.mem, At(t.mem, r).entries) == Table(s.mem, pairs)
  {
    hide Good, Leaves, At, Over, DoMap;
    assert EntryParts([]) + leaked == leaked;
    EmptyTable(s.mem);
    MapIsFilled(s, leaked, base, pairs, [], 8);
  }

  lemma EmptyTable(m: Memory)
    ensures Table(m, []) == map[]
  {}

  /** {k1: v1, k2: v2, ...}[k] is the value of the first pair with that key. */
  lemma MapGivesItsValues(s: Vm, leaked: seq<Item>, base: seq<Item>, pairs: seq<Entry>, i: Instr)
    requires Good(s, leaked) && !s.stopped && s.stack == base + EntryParts(pairs) && |base| + 2 <= STACK_MAX && Meant(i) != NoKey
    ensures var table, k := Table(s.mem, pairs), Meant(i);
      k in table && table[k] != Void ==> Leaves(s, Run(s, [MakeMap(|pairs|), i, Index]), base, table[k])
  {
    hide Good, Step, Leaves, At, Over, Run, Table;
    RunThree(s, MakeMap(|pairs|), i, Index);
    MapIsMade(s, leaked, base, pairs);
    var t, r := Step(s, MakeMap(|pairs|)), Ref(|s.mem.cells|);
    LeavesMeans(s, t, base, r);
    StepKeepsGood(s, MakeMap(|pairs|), leaked);
    KeyIsLookedUp(t, leaked, base, r, i);
    var table, k := Table(s.mem, pairs), Meant(i);
    if k in table && table[k] != Void {
      LeavesThen(s, t, Step(Step(t, i), Index), base, r, base, table[k]);
    }
  }

  /** OP_EQ pushes true exactly for operands that stand for the same key. */
  lemma EqualIsSameKey(s: Vm, base: seq<Item>, a: Item, b: Item)
    requires !s.stopped && s.stack == base + [a, b] && |s.stack| <= STACK_MAX
    ensures Leaves(s, Step(s, Equal), base, Bool(KeyOf(s.mem, a) != NoKey && KeyOf(s.mem, a) == KeyOf(s.mem, b)))
  {
    hide Push, Drop, PopItem, Leaves, Same, KeyOf;
    TakeTwo(s, base, a, b);
    SameIsSameKey(s.mem, a, b);
    ResultIs(s, base, a, b, Bool(Same(s.mem, a, b)));
  }

  // ----- errors -----

  lemma {:induction false} CutStackIs(s: Vm, depth: nat)
    requires !s.stopped
    ensures var t := CutStack(s, depth);
      && t == s.(mem := t.mem, stack := if |s.stack| <= depth then s.stack else s.stack[..depth])
      && SameObjects(s.mem, t.mem)
    decreases |s.stack|
  {
    hide Release, SameObjects;
    SameItself(s.mem);
    if |s.stack| > depth {
      var (t, v) := PopItem(s);
      DropIs(t, v);
      CutStackIs(Drop(t, v), depth);
      SameTwice(s.mem, Drop(t, v).mem, CutStack(s, depth).mem);
      assert t.stack[..depth] == s.stack[..depth];
      assert |t.stack| == depth ==> t.stack == s.stack[..depth];
    }
  }

  /** Only the memory and the slots may differ. */
  predicate SameButSlots(s: Vm, t: Vm) {
    t == s.(mem := t.mem, locals := t.locals) && SameObjects(s.mem, t.mem)
  }

  lemma {:induction false} ClearSlotsIs(s: Vm, offset: nat, i: nat)
    requires i <= SLOTS
    ensures SameButSlots(s, ClearSlots(s, offset, i))
    decreases SLOTS - i
  {
    hide Release, SameObjects;
    SameItself(s.mem);
    if i < SLOTS {
      var t := SetLocal(s, offset + i, Void);
      if offset + i < |s.locals| {
        ReleaseSame(s.mem, s.locals[offset + i]);
      }
      ClearSlotsIs(t, offset, i + 1);
      SameTwice(s.mem, t.mem, ClearSlots(s, offset, i).mem);
    }
  }

  lemma {:induction false} CutFramesIs(s: Vm, n: nat)
    requires !s.stopped
    ensures var t := CutFrames(s, n);
      SameButSlots(s.(frames := if |s.frames| <= n then s.frames else s.frames[..n]), t)
    decreases |s.frames|
  {
    hide SameObjects, ClearSlots;
    SameItself(s.mem);
    if |s.frames| > n {
      var short := s.(frames := s.frames[..|s.frames| - 1]);
      ClearSlotsIs(short, s.frames[|s.frames| - 1], 0);
      CutFramesIs(PopFrame(s), n);
      SameTwice(s.mem, PopFrame(s).mem, CutFrames(s, n).mem);
      assert short.frames[..n] == s.frames[..n];
      assert |short.frames| == n ==> short.frames == s.frames[..n];
    }
  }

  /** What a handler finds: the stack of its OP_TRY with the error on top, the frames of then, their slots as
      they were, and one handler less. */
  predicate Caught(s: Vm, t: Vm, e: Item)
    requires s.tries != []
  {
    var h := s.tries[|s.tries| - 1];
    && !t.stopped && t.stack == (if |s.stack| <= h.depth then s.stack else s.stack[..h.depth]) + [e]
    && t.frames == (if |s.frames| <= h.frames then s.frames else s.frames[..h.frames])
    && t.tries == s.tries[..|s.tries| - 1] && SameSlots(s, t, |t.frames|) && Unchanged(s.mem, t.mem)
  }

  lemma UnwindIs(s: Vm, h: Try)
    requires !s.stopped && Framed(s)
    ensures var t := Unwind(s, h);
      && !t.stopped && t.stack == (if |s.stack| <= h.depth then s.stack else s.stack[..h.depth])
      && t.frames == (if |s.frames| <= h.frames then s.frames else s.frames[..h.frames])
      && t.tries == s.tries && SameSlots(s, t, |t.frames|) && SameObjects(s.mem, t.mem)
  {
    hide SameObjects, CutStack, CutFrames, Framed, SameSlots;
    CutStackIs(s, h.depth);
    CutFramesIs(CutStack(s, h.depth), h.frames);
    SameTwice(s.mem, CutStack(s, h.depth).mem, Unwind(s, h).mem);
    UnwindCalm(s, h);
  }

  /** Unwinding to the innermost handler and pushing the error there. */
  lemma UnwoundIsCaught(s: Vm, a: Vm, e: Item)
    requires s.tries != [] && !a.stopped && Framed(a) && |a.stack| <= STACK_MAX
    requires a == s.(mem := a.mem, tries := s.tries[..|s.tries| - 1]) && Unchanged(s.mem, a.mem)
    requires |s.stack| < STACK_MAX || s.tries[|s.tries| - 1].depth < STACK_MAX
    ensures var h := s.tries[|s.tries| - 1]; Caught(s, Push(Unwind(a, h), e), e)
    ensures var h := s.tries[|s.tries| - 1]; SameObjects(a.mem, Push(Unwind(a, h), e).mem)
  {
    hide Unwind, Push, SameObjects, UnchangedBut, Framed, SameSlots, Leaves;
    var h := s.tries[|s.tries| - 1];
    var u := Unwind(a, h);
    UnwindIs(a, h);
    PushIs(u, e);
    SameTwice(a.mem, u.mem, Push(u, e).mem);
    SameIsUnchanged(a.mem, Push(u, e).mem);
    UnchangedTwice(s.mem, a.mem, Push(u, e).mem, -1);
    SameLocals(s, a, u, Push(u, e));
  }

  lemma SameLocals(s: Vm, a: Vm, u: Vm, t: Vm)
    requires a.locals == s.locals && t.locals == u.locals && t.frames == u.frames && SameSlots(a, u, |u.frames|)
    ensures SameSlots(s, t, |t.frames|)
  {}

  lemma UnchangedItself(m: Memory)
    ensures Unchanged(m, m)
  {}

  /** OP_THROW hands the value on top of the stack to the handler. */
  lemma ThrownIsCaught(s: Vm, leaked: seq<Item>, base: seq<Item>, e: Item)
    requires Good(s, leaked) && !s.stopped && s.stack == base + [e] && s.tries != []
    ensures Caught(s.(stack := base), Step(s, Throw), e)
  {
    hide Good, Unwind, Push, SameObjects, UnchangedBut, Framed, Caught;
    RoomOnStack(s, leaked);
    GoodIsFramed(s, leaked);
    UnchangedItself(s.mem);
    assert s.stack[..|s.stack| - 1] == base;
    var a := s.(stack := base, tries := s.tries[..|s.tries| - 1]);
    FramedMoves(s, a);
    UnwoundIsCaught(s.(stack := base), a, e);
  }

  lemma FramedMoves(s: Vm, t: Vm)
    requires Framed(s) && t.frames == s.frames && t.locals == s.locals
    ensures Framed(t)
  {}

  /** runtime_error hands its text to the handler as a new string. */
  lemma RaisedIsCaught(s: Vm, leaked: seq<Item>, text: seq<byte>)
    requires Good(s, leaked) && !s.stopped && s.tries != []
    requires |s.stack| < STACK_MAX || s.tries[|s.tries| - 1].depth < STACK_MAX
    ensures Caught(s, Raise(s, text), Ref(|s.mem.cells|))
    ensures At(Raise(s, text).mem, Ref(|s.mem.cells|)) == Text(text)
  {
    hide Good, Unwind, Push, Drop, SameObjects, UnchangedBut, Framed, Caught;
    RoomOnStack(s, leaked);
    GoodIsFramed(s, leaked);
    RaiseKeeps(s, text, leaked);
    AllocateUnchanged(s.mem, Text(text));
    var e, h := Ref(|s.mem.cells|), s.tries[|s.tries| - 1];
    var a := Allocate(s, Text(text)).(tries := s.tries[..|s.tries| - 1]);
    FramedMoves(s, a);
    UnwoundIsCaught(s, a, e);
    var t := Push(Unwind(a, h), e);
    assert Raise(s, text) == Drop(t, e);
    DroppedIsCaught(s, t, e);
    SameTwice(a.mem, t.mem, Drop(t, e).mem);
    RaisedIsLive(s, a, Drop(t, e), Text(text), leaked);
  }

  lemma DroppedIsCaught(s: Vm, t: Vm, e: Item)
    requires s.tries != [] && Caught(s, t, e)
    ensures Caught(s, Drop(t, e), e) && SameObjects(t.mem, Drop(t, e).mem)
    ensures var u := Drop(t, e); !u.stopped && u.stack != [] && u.stack[|u.stack| - 1] == e
  {
    hide SameObjects, UnchangedBut, Drop, SameSlots;
    DropIs(t, e);
    SameIsUnchanged(t.mem, Drop(t, e).mem);
    UnchangedTwice(s.mem, t.mem, Drop(t, e).mem, -1);
    SameLocals(s, s, t, Drop(t, e));
  }

  lemma RaisedIsLive(s: Vm, a: Vm, t: Vm, o: Object, leaked: seq<Item>)
    requires Good(t, leaked) && !t.stopped && t.stack != [] && t.stack[|t.stack| - 1] == Ref(|s.mem.cells|)
    requires a.mem.cells == s.mem.cells + [Live(1, o)] && SameObjects(a.mem, t.mem)
    ensures At(t.mem, Ref(|s.mem.cells|)) == o
  {
    hide Good;
    StackIsLive(t, leaked, |s.mem.cells|);
  }

  lemma HandlerOpens(s: Vm, leaked: seq<Item>, n: int64)
    requires Good(s, leaked) && !s.stopped && |s.stack| < STACK_MAX && |s.tries| < TRIES_MAX
    ensures var v := Step(Step(s, BeginTry), PushInt(n));
      && v == s.(stack := s.stack + [Int(n)], tries := s.tries + [Try(|s.stack|, |s.frames|)]) && Good(v, leaked)
    ensures Step(Step(s, BeginTry), EndTry) == s
  {
    StepKeepsGood(s, BeginTry, leaked);
    StepKeepsGood(Step(s, BeginTry), PushInt(n), leaked);
    hide Good;
    assert (s.tries + [Try(|s.stack|, |s.frames|)])[..|s.tries|] == s.tries;
  }

  /** A handler opened here catches with the stack, the frames and the handlers of here. */
  lemma HandlerRemembers(s: Vm, leaked: seq<Item>, n: int64)
    requires Good(s, leaked) && !s.stopped && |s.stack| < STACK_MAX && |s.tries| < TRIES_MAX
    ensures var t := Run(s, [BeginTry, PushInt(n), Throw]);
      && !t.stopped && t.stack == s.stack + [Int(n)] && t.frames == s.frames && t.tries == s.tries
      && SameSlots(s, t, |s.frames|) && Unchanged(s.mem, t.mem)
    ensures Run(s, [BeginTry, EndTry]) == s
  {
    hide Good, Run, Step, UnchangedBut;
    RunThree(s, BeginTry, PushInt(n), Throw);
    RunTwo(s, BeginTry, EndTry);
    HandlerOpens(s, leaked, n);
    ThrownIsCaught(Step(Step(s, BeginTry), PushInt(n)), leaked, s.stack, Int(n));
  }
}
