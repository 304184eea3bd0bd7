/** Whole instructions and whole runs: what the reference counts say about reachability and leaks. */
module Accounting {
  import opened Bytes
  import opened Counting
  import opened Ownership
  import opened Owners
  import Values

  /** Slot operands stay inside the frame. */
  predicate Tame(i: Instr) {
    match i
    case Load(slot) => slot < SLOTS
    case Store(slot) => slot < SLOTS
    case LoadGlobal(slot) => slot < 256
    case _ => true
  }

  lemma PopTwoKeeps(s: Vm, hand: seq<Item>)
    requires Good(s, hand)
    ensures var (s1, b) := PopItem(s); var (s2, a) := PopItem(s1); Good(s2, [a] + ([b] + hand))
  {
    hide Good;
    PopKeeps(s, hand);
    PopKeeps(PopItem(s).0, [PopItem(s).1] + hand);
  }

  lemma DropTwoKeeps(s: Vm, a: Item, b: Item, hand: seq<Item>)
    requires Good(s, [a] + ([b] + hand))
    ensures Good(Drop(Drop(s, a), b), hand)
  {
    hide Good;
    DropKeeps(s, a, [b] + hand);
    DropKeeps(Drop(s, a), b, hand);
  }

  lemma ConcatKeeps(s: Vm, a: Item, b: Item, text: seq<byte>, hand: seq<Item>)
    requires Good(s, [a] + ([b] + hand))
    ensures Good(Drop(Drop(Drop(Drop(PushNew(Keep(Keep(s, a), b), Text(text)), a), b), a), b), hand)
  {
    var two := [a] + ([b] + hand);
    assert two[0] == a && two[1] == b;
    hide Good, Alive;
    InHandIsAlive(s, a, two);
    KeepKeeps(s, a, two);
    var s1 := Keep(s, a);
    assert ([a] + two)[2] == b;
    InHandIsAlive(s1, b, [a] + two);
    KeepKeeps(s1, b, [a] + two);
    var s2 := Keep(s1, b);
    SwapTwo(s2, b, a, two);
    var four := [a] + ([b] + two);
    assert Parts(Text(text)) + four == four;
    PushNewKeeps(s2, Text(text), four);
    var s3 := PushNew(s2, Text(text));
    DropTwoKeeps(s3, a, b, two);
    DropTwoKeeps(Drop(Drop(s3, a), b), a, b, hand);
  }

  lemma FailKeeps(s: Vm, a: Item, b: Item, text: seq<byte>, hand: seq<Item>)
    requires Good(s, [a] + ([b] + hand))
    ensures Good(Raise(Drop(Drop(s, a), b), text), hand)
  {
    hide Good;
    DropTwoKeeps(s, a, b, hand);
    RaiseKeeps(Drop(Drop(s, a), b), text, hand);
  }

  lemma ResultKeeps(s: Vm, v: Item, a: Item, b: Item, hand: seq<Item>)
    requires Good(s, [a] + ([b] + hand)) && Alive(s, v)
    ensures Good(Drop(Drop(Push(s, v), a), b), hand)
  {
    hide Good, Alive;
    PushKeeps(s, v, [a] + ([b] + hand));
    DropTwoKeeps(Push(s, v), a, b, hand);
  }

  lemma StopKeeps(s: Vm, hand: seq<Item>, other: seq<Item>)
    requires Good(s, hand)
    ensures Good(Stop(s), other)
  {}

  lemma AddKeeps(s: Vm, hand: seq<Item>)
    requires Good(s, hand)
    ensures Good(DoAdd(s), hand)
  {
    var (s1, b) := PopItem(s);
    var (s2, a) := PopItem(s1);
    PopTwoKeeps(s, hand);
    hide Good;
    if a.Int? && b.Int? {
      ResultKeeps(s2, Int(Values.Wrap(a.n + b.n)), a, b, hand);
    } else if IsText(s2.mem, a) && IsText(s2.mem, b) {
      ConcatKeeps(s2, a, b, At(s2.mem, a).text + At(s2.mem, b).text, hand);
    } else {
      FailKeeps(s2, a, b, [], hand);
    }
  }

  lemma DivKeeps(s: Vm, hand: seq<Item>)
    requires Good(s, hand)
    ensures Good(DoDiv(s), hand)
  {
    var (s1, b) := PopItem(s);
    var (s2, a) := PopItem(s1);
    PopTwoKeeps(s, hand);
    hide Good;
    if a.Int? && b.Int? && b.n != 0 {
      ResultKeeps(s2, Int(Values.Wrap(Values.Quotient(a.n, b.n))), a, b, hand);
    } else {
      FailKeeps(s2, a, b, [], hand);
    }
  }

  lemma EqualKeeps(s: Vm, hand: seq<Item>)
    requires Good(s, hand)
    ensures Good(DoEqual(s), hand)
  {
    var (s1, b) := PopItem(s);
    var (s2, a) := PopItem(s1);
    PopTwoKeeps(s, hand);
    hide Good, Same;
    ResultKeeps(s2, Bool(Same(s2.mem, a, b)), a, b, hand);
  }

  lemma StoreKeeps(s: Vm, slot: nat, hand: seq<Item>)
    requires Good(s, hand) && slot < SLOTS
    ensures Good(DoStore(s, slot), hand)
  {
    var (s1, v) := PopItem(s);
    PopKeeps(s, hand);
    hide Sound;
    if !s1.stopped && s1.frames != [] {
      SetLocalKeeps(s1, s1.frames[|s1.frames| - 1] + slot, v, hand);
    }
  }

  lemma LoadKeeps(s: Vm, j: nat, hand: seq<Item>)
    requires Good(s, hand)
    ensures Good(DoLoad(s, j), hand)
  {
    hide Sound;
    if j < |s.locals| {
      LocalIsAlive(s, j, hand);
      PushKeeps(s, s.locals[j], hand);
    }
  }

  lemma EntryValue(entries: seq<Entry>, i: nat)
    requires i < |entries|
    ensures 2 * i + 1 < |EntryParts(entries)| && EntryParts(entries)[2 * i + 1] == entries[i].value
    decreases i
  {
    if i > 0 {
      EntryValue(entries[1..], i - 1);
    }
  }

  lemma IndexKeeps(s: Vm, hand: seq<Item>)
    requires Good(s, hand)
    ensures Good(DoIndex(s), hand)
  {
    var (s1, index) := PopItem(s);
    var (s2, o) := PopItem(s1);
    PopTwoKeeps(s, hand);
    FailKeeps(s2, o, index, [], hand);
    var two := [o] + ([index] + hand);
    StopKeeps(s2, two, hand);
    hide Good, Find, ToInt32, Alive, Drop, Push, PushNew, Raise;
    match At(s2.mem, o)
    case List(items) =>
      if index.Int? && 0 <= ToInt32(index.n) < |items| {
        ElementKeeps(s2, o, index, ToInt32(index.n), hand);
      }
    case Dict(entries, _) =>
      var i := Find(s2.mem, entries, index);
      if i < |entries| {
        EntryValue(entries, i);
        ElementKeeps(s2, o, index, 2 * i + 1, hand);
      }
    case Text(text) =>
      if index.Int? && 0 <= ToInt32(index.n) < |text| {
        CharacterKeeps(s2, o, index, text[ToInt32(index.n)], hand);
      }
    case Closure(_) =>
  }

  lemma CharacterKeeps(s: Vm, o: Item, index: Item, c: byte, hand: seq<Item>)
    requires Good(s, [o] + ([index] + hand))
    ensures Good(Drop(Drop(PushNew(s, Text([c])), o), index), hand)
  {
    hide Good;
    var two := [o] + ([index] + hand);
    assert Parts(Text([c])) + two == two;
    PushNewKeeps(s, Text([c]), two);
    DropTwoKeeps(PushNew(s, Text([c])), o, index, hand);
  }

  /** The value that OP_INDEX pushes is part of an object that is still held. */
  lemma ElementKeeps(s: Vm, o: Item, index: Item, i: nat, hand: seq<Item>)
    requires Good(s, [o] + ([index] + hand)) && i < |Parts(At(s.mem, o))|
    ensures Good(Drop(Drop(Push(s, Parts(At(s.mem, o))[i]), o), index), hand)
  {
    if !s.stopped {
      PartIsAlive(s, o, i, [o] + ([index] + hand));
      ResultKeeps(s, Parts(At(s.mem, o))[i], o, index, hand);
    }
  }

  lemma DropThreeKeeps(s: Vm, o: Item, index: Item, v: Item, hand: seq<Item>)
    requires Good(s, [v] + ([o] + ([index] + hand)))
    ensures Good(DropThree(s, o, index, v), hand)
  {
    hide Good;
    SwapTwo(s, v, o, [index] + hand);
    DropKeeps(s, o, [v] + ([index] + hand));
    SwapTwo(Drop(s, o), v, index, hand);
    DropTwoKeeps(Drop(s, o), index, v, hand);
  }

  lemma SetIndexKeeps(s: Vm, hand: seq<Item>)
    requires Good(s, hand)
    ensures Good(DoSetIndex(s), hand)
  {
    var (s1, index) := PopItem(s);
    var (s2, o) := PopItem(s1);
    var (s3, v) := PopItem(s2);
    PopTwoKeeps(s, hand);
    PopKeeps(s2, [o] + ([index] + hand));
    var three := [v] + ([o] + ([index] + hand));
    assert three[0] == v && three[1] == o && three[2] == index;
    if !s3.stopped {
      match At(s3.mem, o)
      case List(items) =>
        if index.Int? {
          var i := ToInt32(index.n);
          hide Good;
          if 0 <= i < |items| {
            ItemAssignKeeps(s3, o, v, i, three);
            DropThreeKeeps(s3.(mem := Overwrite(s3.mem, o.at, List(items[i := v]), items[i], v)), o, index, v, hand);
          } else {
            DropThreeKeeps(s3, o, index, v, hand);
            RaiseKeeps(DropThree(s3, o, index, v), [], hand);
          }
        }
      case Dict(entries, capacity) =>
        hide Good;
        SetEntryKeeps(s3, o, index, v, three);
        DropThreeKeeps(s3.(mem := SetEntry(s3.mem, o.at, entries, capacity, index, v)), o, index, v, hand);
      case _ =>
        hide Good;
        DropThreeKeeps(s3, o, index, v, hand);
        RaiseKeeps(DropThree(s3, o, index, v), [], hand);
    }
  }

  lemma InvokeKeeps(s: Vm, hand: seq<Item>)
    requires Good(s, hand)
    ensures Good(DoInvoke(s), hand)
  {
    var (s1, f) := PopItem(s);
    PopKeeps(s, hand);
    match At(s1.mem, f)
    case Closure(captures) =>
      if |captures| <= SLOTS {
        forall k | 0 <= k < |captures|
          ensures Alive(s1, captures[k])
        {
          if !s1.stopped {
            PartIsAlive(s1, f, k, [f] + hand);
          }
        }
        BeginCallKeeps(s1, captures, [f] + hand);
        DropKeeps(BeginCall(s1, captures), f, hand);
      }
    case _ =>
  }

  /** OP_THROW pushes the error with a retain and keeps the reference it popped. */
  lemma ThrowKeeps(s: Vm, hand: seq<Item>)
    requires Good(s, hand) && !s.stopped
    ensures Good(DoThrow(s), Thrown(s, Throw) + hand)
  {
    var (s1, e) := PopItem(s);
    PopKeeps(s, hand);
    if !s1.stopped && s1.tries != [] {
      DropTry(s1, [e] + hand);
      var t := s1.tries[|s1.tries| - 1];
      var s2 := s1.(tries := s1.tries[..|s1.tries| - 1]);
      hide Good;
      UnwindKeeps(s2, t, [e] + hand);
      assert ([e] + hand)[0] == e;
      InHandIsAlive(Unwind(s2, t), e, [e] + hand);
      PushKeeps(Unwind(s2, t), e, [e] + hand);
    } else {
      StopKeeps(s1, [e] + hand, Thrown(s, Throw) + hand);
    }
  }

  lemma TryKeeps(s: Vm, tries: seq<Try>, hand: seq<Item>)
    requires Good(s, hand) && |tries| <= TRIES_MAX
    requires forall k | 0 <= k < |tries| :: tries[k].frames >= 1
    ensures Good(s.(tries := tries), hand)
  {
    hide Sound;
    assert Held(s.(tries := tries), hand) == Held(s, hand);
  }

  lemma MakeKeeps(s: Vm, n: nat, hand: seq<Item>)
    requires Good(s, hand)
    ensures var (t, items) := PopItems(s, n);
            Good(PushNew(t, List(items)), hand) && Good(PushNew(t, Closure(items)), hand)
  {
    hide Good;
    PopItemsKeeps(s, n, hand);
    var (t, items) := PopItems(s, n);
    PushNewKeeps(t, List(items), hand);
    PushNewKeeps(t, Closure(items), hand);
  }

  lemma OtherStepIsExact(s: Vm, i: Instr, leaked: seq<Item>)
    requires Good(s, leaked) && Tame(i) && !s.stopped
    requires !i.Store? && !i.Ret? && !i.BeginTry? && !i.EndTry? && !i.Throw?
    ensures Good(Step(s, i), leaked)
  {
    hide Good;
    match i
    case PushInt(n) => PushKeeps(s, Int(n), leaked);
    case PushBool(b) => PushKeeps(s, Bool(b), leaked);
    case PushStr(text) =>
      assert Parts(Text(text)) + leaked == leaked;
      PushNewKeeps(s, Text(text), leaked);
    case Add => AddKeeps(s, leaked);
    case Div => DivKeeps(s, leaked);
    case Equal => EqualKeeps(s, leaked);
    case Load(slot) =>
      if s.frames != [] {
        LoadKeeps(s, s.frames[|s.frames| - 1] + slot, leaked);
      } else {
        StopKeeps(s, leaked, leaked);
      }
    case LoadGlobal(slot) => LoadKeeps(s, slot, leaked);
    case Pop =>
      PopKeeps(s, leaked);
      DropKeeps(PopItem(s).0, PopItem(s).1, leaked);
    case MakeArray(n) => MakeKeeps(s, n, leaked);
    case MakeMap(n) =>
      assert EntryParts([]) + leaked == leaked;
      MapKeeps(s, n, [], 8, leaked);
    case Index => IndexKeeps(s, leaked);
    case SetIndex => SetIndexKeeps(s, leaked);
    case PushFunc(n) => MakeKeeps(s, n, leaked);
    case Call => BeginCallKeeps(s, [], leaked);
    case Invoke => InvokeKeeps(s, leaked);
  }

  /** Every instruction keeps every count equal to the number of owners; a THROW adds one owner that
      nobody will ever give up. */
  lemma StepIsExact(s: Vm, i: Instr, leaked: seq<Item>)
    requires Good(s, leaked) && Tame(i)
    ensures Good(Step(s, i), Thrown(s, i) + leaked)
  {
    assert [] + leaked == leaked;
    if !s.stopped {
      match i
      case Store(slot) => StoreKeeps(s, slot, leaked);
      case Ret =>
        if |s.frames| > 1 {
          PopFrameKeeps(s, leaked);
        }
      case BeginTry =>
        if |s.tries| < TRIES_MAX {
          TryKeeps(s, s.tries + [Try(|s.stack|, |s.frames|)], leaked);
        }
      case EndTry =>
        if s.tries != [] {
          DropTry(s, leaked);
        }
      case Throw => ThrowKeeps(s, leaked);
      case _ => OtherStepIsExact(s, i, leaked);
    }
  }

  // ----- runs -----

  /** vm_init: an empty heap and stack, and one frame of void slots. */
  function Start(): Vm {
    Vm(Memory([], true), [], seq(FRAMES_MAX * SLOTS, _ => Void), [0], [], false)
  }

  function Run(s: Vm, code: seq<Instr>): Vm
    decreases |code|
  {
    if code == [] then s else Run(Step(s, code[0]), code[1..])
  }

  /** The values that the THROWs of a run left with one owner too many. */
  function AllThrown(s: Vm, code: seq<Instr>): seq<Item>
    decreases |code|
  {
    if code == [] then [] else AllThrown(Step(s, code[0]), code[1..]) + Thrown(s, code[0])
  }

  predicate AllTame(code: seq<Instr>) {
    forall i | i in code :: Tame(i)
  }

  lemma {:induction false} NoTimes(n: nat, r: nat)
    ensures Times(seq(n, _ => Void), r) == 0
  {
    if n > 0 {
      assert seq(n, _ => Void)[1..] == seq(n - 1, _ => Void);
      NoTimes(n - 1, r);
    }
  }

  lemma StartIsGood()
    ensures Good(Start(), [])
  {
    var s := Start();
    forall r: nat
      ensures CountOf(s.mem.cells, r) == Owned(s.mem.cells, r) + Times(Held(s, []), r)
    {
      HeldTimes(s, [], r);
      NoTimes(FRAMES_MAX * SLOTS, r);
    }
  }

  lemma {:induction false} RunIsGood(s: Vm, code: seq<Instr>, leaked: seq<Item>)
    requires Good(s, leaked) && AllTame(code)
    ensures Good(Run(s, code), AllThrown(s, code) + leaked)
    decreases |code|
  {
    hide Good, Step, Thrown, Tame;
    if code == [] {
      assert [] + leaked == leaked;
    } else {
      var t := Step(s, code[0]);
      assert code[0] in code;
      StepIsExact(s, code[0], leaked);
      RunIsGood(t, code[1..], Thrown(s, code[0]) + leaked);
      var later := AllThrown(t, code[1..]);
      assert later + (Thrown(s, code[0]) + leaked) == (later + Thrown(s, code[0])) + leaked;
    }
  }

  /** Along every run no freed object is retained, released or freed again, and while the process
      runs each count is the number of references from the stack, the locals, live objects, and the
      values thrown so far. */
  lemma CountsAreExact(code: seq<Instr>)
    requires AllTame(code)
    ensures var s := Run(Start(), code);
            s.mem.ok && (!s.stopped ==> Tight(s.mem.cells))
    ensures var s := Run(Start(), code);
            !s.stopped ==> forall r: nat ::
              CountOf(s.mem.cells, r) == Owned(s.mem.cells, r) + Times(s.stack, r) + Times(s.locals, r)
                                         + Times(AllThrown(Start(), code), r)
  {
    StartIsGood();
    RunIsGood(Start(), code, []);
    var s := Run(Start(), code);
    var leaked := AllThrown(Start(), code);
    assert leaked + [] == leaked;
    if !s.stopped {
      forall r: nat
        ensures CountOf(s.mem.cells, r)
                == Owned(s.mem.cells, r) + Times(s.stack, r) + Times(s.locals, r) + Times(leaked, r)
      {
        HeldTimes(s, leaked, r);
        assert CountOf(s.mem.cells, r) == Owned(s.mem.cells, r) + Times(Held(s, leaked), r);
      }
    }
  }

  lemma {:induction false} TimesMeansIn(items: seq<Item>, r: nat)
    ensures Times(items, r) > 0 <==> Ref(r) in items
  {
    if items != [] {
      TimesMeansIn(items[1..], r);
      assert Ref(r) in items <==> items[0] == Ref(r) || Ref(r) in items[1..];
    }
  }

  /** Extra owners show in the counts unless none of them is a heap object. */
  lemma ExtraOwnersShow(cells: seq<Cell>, held: seq<Item>, extra: seq<Item>)
    requires forall r: nat :: CountOf(cells, r) == Owned(cells, r) + Times(held, r) + Times(extra, r)
    ensures Exact(cells, held) <==> forall v | v in extra :: !v.Ref?
  {
    if Exact(cells, held) {
      forall v | v in extra
        ensures !v.Ref?
      {
        var r := if v.Ref? then v.at else 0;
        TimesMeansIn(extra, r);
        assert CountOf(cells, r) == Owned(cells, r) + Times(held, r);
      }
    }
    if forall v | v in extra :: !v.Ref? {
      forall r: nat
        ensures CountOf(cells, r) == Owned(cells, r) + Times(held, r)
      {
        TimesMeansIn(extra, r);
      }
    }
  }

  /** The counts are those of the stack, the locals and the heap exactly when no THROW threw a heap object. */
  lemma ExactIffNoObjectThrown(code: seq<Instr>)
    requires AllTame(code) && !Run(Start(), code).stopped
    ensures var s := Run(Start(), code);
            Exact(s.mem.cells, Held(s, [])) <==> forall v | v in AllThrown(Start(), code) :: !v.Ref?
  {
    CountsAreExact(code);
    var s := Run(Start(), code);
    forall r: nat
      ensures Times(Held(s, []), r) == Times(s.stack, r) + Times(s.locals, r)
    {
      HeldTimes(s, [], r);
    }
    ExtraOwnersShow(s.mem.cells, Held(s, []), AllThrown(Start(), code));
  }

  const LEAK := [BeginTry, PushStr([]), Throw, Pop]

  /** The four states of that run. */
  function Leaking(count: nat, stack: seq<Item>, tries: seq<Try>): Vm {
    Start().(mem := Memory(if count == 0 then [] else [Live(count, Text([]))], true), stack := stack, tries := tries)
  }

  lemma LeakSteps()
    ensures Step(Start(), BeginTry) == Leaking(0, [], [Try(0, 1)])
    ensures Step(Leaking(0, [], [Try(0, 1)]), PushStr([])) == Leaking(1, [Ref(0)], [Try(0, 1)])
    ensures Step(Leaking(2, [Ref(0)], []), Pop) == Leaking(1, [], [])
  {}

  lemma LeakingThrow()
    ensures Step(Leaking(1, [Ref(0)], [Try(0, 1)]), Throw) == Leaking(2, [Ref(0)], [])
  {}

  lemma {:induction false} RunFour(s: Vm, a: Instr, b: Instr, c: Instr, d: Instr)
    ensures var t := Step(s, a); var u := Step(t, b); var v := Step(u, c);
            Run(s, [a, b, c, d]) == Step(v, d)
            && AllThrown(s, [a, b, c, d]) == Thrown(v, d) + Thrown(u, c) + Thrown(t, b) + Thrown(s, a)
  {
    hide Step, Thrown;
    assert [a, b, c, d][1..] == [b, c, d] && [b, c, d][1..] == [c, d] && [c, d][1..] == [d] && [d][1..] == [];
    var t := Step(s, a);
    var u := Step(t, b);
    var v := Step(u, c);
    assert AllThrown(Step(v, d), [d][1..]) == [];
    assert Run(v, [d]) == Step(v, d);
    assert AllThrown(v, [d]) == AllThrown(Step(v, d), [d][1..]) + Thrown(v, d);
    assert AllThrown(v, [d]) == Thrown(v, d);
    assert Run(u, [c, d]) == Step(v, d) && AllThrown(u, [c, d]) == Thrown(v, d) + Thrown(u, c);
    assert Run(t, [b, c, d]) == Step(v, d) && AllThrown(t, [b, c, d]) == Thrown(v, d) + Thrown(u, c) + Thrown(t, b);
  }

  /** A string thrown, caught and dropped stays in memory: its count is one and nothing refers to it. */
  lemma ThrownStringIsLeaked()
    ensures Run(Start(), LEAK) == Leaking(1, [], []) && AllThrown(Start(), LEAK) == [Ref(0)]
  {
    hide Step;
    LeakSteps();
    LeakingThrow();
    RunFour(Start(), BeginTry, PushStr([]), Throw, Pop);
  }

  // ----- reachability -----

  /** r0, r1, ... each owned by the one before. */
  predicate Path(cells: seq<Cell>, path: seq<nat>) {
    forall k | 0 <= k < |path| - 1 :: path[k] < |cells| && Ref(path[k + 1]) in CellParts(cells[path[k]])
  }

  ghost predicate Reachable(s: Vm, roots: seq<Item>, r: nat) {
    exists path :: path != [] && Path(s.mem.cells, path) && Ref(path[0]) in roots && path[|path| - 1] == r
  }

  lemma {:induction false} OwnedMeansIn(cells: seq<Cell>, r: nat) returns (x: nat)
    requires Owned(cells, r) > 0
    ensures x < |cells| && Ref(r) in CellParts(cells[x])
  {
    if Times(CellParts(cells[0]), r) > 0 {
      TimesMeansIn(CellParts(cells[0]), r);
      x := 0;
    } else {
      var y := OwnedMeansIn(cells[1..], r);
      x := y + 1;
    }
  }

  lemma {:induction false} PathIsLive(m: Memory, held: seq<Item>, path: seq<nat>)
    requires Sound(m, held) && path != [] && Path(m.cells, path) && Ref(path[0]) in held
    ensures path[|path| - 1] < |m.cells| && m.cells[path[|path| - 1]].Live?
    decreases |path|
  {
    var r := path[|path| - 1];
    if |path| == 1 {
      TimesMeansIn(held, r);
    } else {
      var x := path[|path| - 2];
      assert path[..|path| - 1][|path| - 2] == x;
      PathIsLive(m, held, path[..|path| - 1]);
      TimesMeansIn(CellParts(m.cells[x]), r);
      OwnedIn(m.cells, x, r);
    }
    OwnersAreLive(m.cells, held, r);
  }

  /** No run frees an object that the stack or the locals can still reach. */
  lemma ReachableIsLive(code: seq<Instr>, r: nat)
    requires AllTame(code)
    requires var s := Run(Start(), code); !s.stopped && Reachable(s, s.stack + s.locals, r)
    ensures var s := Run(Start(), code); r < |s.mem.cells| && s.mem.cells[r].Live?
  {
    var s := Run(Start(), code);
    StartIsGood();
    RunIsGood(Start(), code, []);
    var held := Held(s, AllThrown(Start(), code) + []);
    var path :| path != [] && Path(s.mem.cells, path) && Ref(path[0]) in s.stack + s.locals && path[|path| - 1] == r;
    assert Ref(path[0]) in held;
    PathIsLive(s.mem, held, path);
  }

  /** Ownership without cycles: a rank that falls from every object to its parts. */
  ghost predicate Ranked(cells: seq<Cell>, rank: nat -> nat) {
    forall x: nat, r: nat :: x < |cells| && Ref(r) in CellParts(cells[x]) ==> rank(r) < rank(x)
  }

  function RankBound(cells: seq<Cell>, rank: nat -> nat): (b: nat)
    ensures forall x: nat :: x < |cells| ==> rank(x) <= b
  {
    if cells == [] then 0
    else
      var n := |cells| - 1;
      var b := RankBound(cells[..n], rank);
      if rank(n) > b then rank(n) else b
  }

  lemma {:induction false} ClimbToHolder(m: Memory, held: seq<Item>, rank: nat -> nat, path: seq<nat>)
    returns (full: seq<nat>)
    requires Sound(m, held) && Ranked(m.cells, rank)
    requires path != [] && Path(m.cells, path) && path[0] < |m.cells| && m.cells[path[0]].Live?
    ensures full != [] && Path(m.cells, full) && Ref(full[0]) in held && full[|full| - 1] == path[|path| - 1]
    decreases RankBound(m.cells, rank) - rank(path[0])
  {
    var r := path[0];
    if Ref(r) in held {
      full := path;
    } else {
      TimesMeansIn(held, r);
      assert CountOf(m.cells, r) == Owned(m.cells, r) + Times(held, r);
      var x := OwnedMeansIn(m.cells, r);
      var longer := [x] + path;
      forall k | 0 <= k < |longer| - 1
        ensures longer[k] < |m.cells| && Ref(longer[k + 1]) in CellParts(m.cells[longer[k]])
      {
        assert k > 0 ==> longer[k] == path[k - 1];
      }
      full := ClimbToHolder(m, held, rank, longer);
    }
  }

  /** Without cycles nothing is leaked: every live object is reachable from the stack, the locals or a
      value that was thrown. */
  lemma LiveIsReachable(code: seq<Instr>, r: nat, rank: nat -> nat)
    requires AllTame(code)
    requires var s := Run(Start(), code);
             !s.stopped && r < |s.mem.cells| && s.mem.cells[r].Live? && Ranked(s.mem.cells, rank)
    ensures var s := Run(Start(), code); Reachable(s, AllThrown(Start(), code) + (s.stack + s.locals), r)
  {
    var s := Run(Start(), code);
    StartIsGood();
    RunIsGood(Start(), code, []);
    var leaked := AllThrown(Start(), code);
    assert leaked + [] == leaked;
    var full := ClimbToHolder(s.mem, Held(s, leaked), rank, [r]);
  }
}
