/** The reference counts stay exact along every run of the virtual machine. */
module Owners {
  import opened Bytes
  import opened Counting
  import opened Ownership
  import Values

  /** Everything that holds references outside the heap: C variables, the stack and the locals. */
  function Held(s: Vm, hand: seq<Item>): seq<Item> {
    hand + (s.stack + s.locals)
  }

  /** Frame k starts at 48 * k, and the slots above the live frames are void. */
  predicate Layout(s: Vm) {
    && |s.stack| <= STACK_MAX && |s.locals| == FRAMES_MAX * SLOTS
    && 1 <= |s.frames| <= FRAMES_MAX && |s.tries| <= TRIES_MAX
    && (forall k | 0 <= k < |s.frames| :: s.frames[k] == SLOTS * k)
    && (forall j | SLOTS * |s.frames| <= j < |s.locals| :: s.locals[j] == Void)
    && (forall k | 0 <= k < |s.tries| :: s.tries[k].frames >= 1)
  }

  /** The heap has never been misused, and while the process runs every count is exact. */
  ghost predicate Good(s: Vm, hand: seq<Item>) {
    s.mem.ok && (s.stopped || (Layout(s) && Sound(s.mem, Held(s, hand))))
  }

  function TimesHeld(s: Vm, hand: seq<Item>, r: nat): nat {
    Times(hand, r) + Times(s.stack, r) + Times(s.locals, r)
  }

  lemma HeldTimes(s: Vm, hand: seq<Item>, r: nat)
    ensures Times(Held(s, hand), r) == TimesHeld(s, hand, r)
  {
    TimesAppend(hand, s.stack + s.locals, r);
    TimesAppend(s.stack, s.locals, r);
  }

  lemma SameHeld(m: Memory, s: Vm, hand: seq<Item>, t: Vm, other: seq<Item>)
    requires Sound(m, Held(s, hand))
    requires forall r: nat :: TimesHeld(s, hand, r) == TimesHeld(t, other, r)
    ensures Sound(m, Held(t, other))
  {
    forall r: nat
      ensures Times(Held(s, hand), r) == Times(Held(t, other), r)
    {
      HeldTimes(s, hand, r);
      HeldTimes(t, other, r);
    }
    Reorder(m, Held(s, hand), Held(t, other));
  }

  /** The order of the C variables does not matter. */
  lemma Shuffle(s: Vm, hand: seq<Item>, other: seq<Item>)
    requires Good(s, hand) && forall r: nat :: Times(hand, r) == Times(other, r)
    ensures Good(s, other)
  {
    hide Layout, Sound;
    if !s.stopped {
      SameHeld(s.mem, s, hand, s, other);
    }
  }

  lemma SwapTwo(s: Vm, a: Item, b: Item, hand: seq<Item>)
    requires Good(s, [a] + ([b] + hand))
    ensures Good(s, [b] + ([a] + hand))
  {
    forall r: nat
      ensures Times([a] + ([b] + hand), r) == Times([b] + ([a] + hand), r)
    {
      TimesAppend([a], [b] + hand, r);
      TimesAppend([b], hand, r);
      TimesAppend([b], [a] + hand, r);
      TimesAppend([a], hand, r);
    }
    Shuffle(s, [a] + ([b] + hand), [b] + ([a] + hand));
  }

  /** A value that a C variable, the stack or a local refers to, or part of a live object. */
  ghost predicate Alive(s: Vm, v: Item) {
    !s.stopped && v.Ref? ==> CountOf(s.mem.cells, v.at) > 0
  }

  lemma InHandIsAlive(s: Vm, v: Item, hand: seq<Item>)
    requires Good(s, hand) && v in hand
    ensures Alive(s, v)
  {
    if !s.stopped && v.Ref? {
      var i :| 0 <= i < |hand| && hand[i] == v;
      TimesIn(hand, i, v.at);
      HeldTimes(s, hand, v.at);
      OwnersAreLive(s.mem.cells, Held(s, hand), v.at);
    }
  }

  lemma LocalIsAlive(s: Vm, j: nat, hand: seq<Item>)
    requires Good(s, hand) && j < |s.locals|
    ensures Alive(s, s.locals[j])
  {
    if !s.stopped && s.locals[j].Ref? {
      TimesIn(s.locals, j, s.locals[j].at);
      HeldTimes(s, hand, s.locals[j].at);
      OwnersAreLive(s.mem.cells, Held(s, hand), s.locals[j].at);
    }
  }

  lemma PartIsAlive(s: Vm, o: Item, i: nat, hand: seq<Item>)
    requires Good(s, hand) && !s.stopped && i < |Parts(At(s.mem, o))|
    ensures Alive(s, Parts(At(s.mem, o))[i])
  {
    var v := Parts(At(s.mem, o))[i];
    if v.Ref? {
      TimesIn(Parts(At(s.mem, o)), i, v.at);
      OwnedIn(s.mem.cells, o.at, v.at);
      OwnersAreLive(s.mem.cells, Held(s, hand), v.at);
    }
  }

  // ----- the pieces -----

  lemma PushKeeps(s: Vm, v: Item, hand: seq<Item>)
    requires Good(s, hand) && Alive(s, v)
    ensures Good(Push(s, v), hand)
  {
    if !s.stopped && |s.stack| < STACK_MAX {
      var t := Push(s, v);
      RetainIsExact(s.mem, v, Held(s, hand));
      hide Sound;
      forall r: nat
        ensures TimesHeld(s, [v] + hand, r) == TimesHeld(t, hand, r)
      {
        TimesAppend([v], hand, r);
        TimesAppend(s.stack, [v], r);
      }
      assert [v] + Held(s, hand) == Held(s, [v] + hand);
      SameHeld(t.mem, s, [v] + hand, t, hand);
    }
  }

  lemma PopKeeps(s: Vm, hand: seq<Item>)
    requires Good(s, hand)
    ensures Good(PopItem(s).0, [PopItem(s).1] + hand)
  {
    var (t, v) := PopItem(s);
    if !t.stopped {
      hide Sound;
      assert s.stack == t.stack + [v];
      forall r: nat
        ensures TimesHeld(s, hand, r) == TimesHeld(t, [v] + hand, r)
      {
        TimesAppend([v], hand, r);
        TimesAppend(t.stack, [v], r);
      }
      SameHeld(s.mem, s, hand, t, [v] + hand);
    }
  }

  lemma DropKeeps(s: Vm, v: Item, hand: seq<Item>)
    requires Good(s, [v] + hand)
    ensures Good(Drop(s, v), hand)
  {
    if !s.stopped {
      assert Held(s, [v] + hand) == [v] + Held(s, hand);
      ReleaseIsExact(s.mem, v, Held(s, hand));
    }
  }

  lemma KeepKeeps(s: Vm, v: Item, hand: seq<Item>)
    requires Good(s, hand) && Alive(s, v)
    ensures Good(Keep(s, v), [v] + hand)
  {
    if !s.stopped {
      assert Held(s, [v] + hand) == [v] + Held(s, hand);
      RetainIsExact(s.mem, v, Held(s, hand));
    }
  }

  lemma AllocateKeeps(s: Vm, o: Object, hand: seq<Item>)
    requires Good(s, Parts(o) + hand)
    ensures Good(Allocate(s, o), [Ref(|s.mem.cells|)] + hand)
  {
    if !s.stopped {
      var e := Ref(|s.mem.cells|);
      assert Held(s, Parts(o) + hand) == Parts(o) + Held(s, hand);
      assert Held(s, [e] + hand) == [e] + Held(s, hand);
      NewIsExact(s.mem, o, Held(s, hand));
    }
  }

  lemma PushNewKeeps(s: Vm, o: Object, hand: seq<Item>)
    requires Good(s, Parts(o) + hand)
    ensures Good(PushNew(s, o), hand)
  {
    if !s.stopped && |s.stack| < STACK_MAX {
      AllocateKeeps(s, o, hand);
      var e := Ref(|s.mem.cells|);
      var u, t := Allocate(s, o), PushNew(s, o);
      hide Sound;
      forall r: nat
        ensures TimesHeld(u, [e] + hand, r) == TimesHeld(t, hand, r)
      {
        TimesAppend([e], hand, r);
        TimesAppend(s.stack, [e], r);
      }
      SameHeld(u.mem, u, [e] + hand, t, hand);
    }
  }

  /** A local takes over a reference and gives up the one it had. */
  lemma SetLocalKeeps(s: Vm, j: nat, v: Item, hand: seq<Item>)
    requires Good(s, [v] + hand) && j < |s.locals|
    requires s.stopped || Layout(s.(locals := s.locals[j := v]))
    ensures Good(SetLocal(s, j, v), hand)
  {
    if !s.stopped {
      var was := s.locals[j];
      var t := s.(locals := s.locals[j := v]);
      forall r: nat
        ensures TimesHeld(s, [v] + hand, r) == TimesHeld(t, [was] + hand, r)
      {
        TimesAppend([v], hand, r);
        TimesAppend([was], hand, r);
        TimesUpdate(s.locals, j, v, r);
      }
      SameHeld(s.mem, s, [v] + hand, t, [was] + hand);
      assert Held(t, [was] + hand) == [was] + Held(t, hand);
      ReleaseIsExact(s.mem, was, Held(t, hand));
    }
  }

  // ----- unwinding -----

  /** Layout while the slots of the frame just popped are being cleared: those from offset + i on may
      still be in use. */
  predicate Clearing(s: Vm, i: nat) {
    && i <= SLOTS
    && |s.stack| <= STACK_MAX && |s.locals| == FRAMES_MAX * SLOTS
    && |s.frames| < FRAMES_MAX && |s.tries| <= TRIES_MAX
    && (forall k | 0 <= k < |s.frames| :: s.frames[k] == SLOTS * k)
    && (forall j | SLOTS * |s.frames| <= j < |s.locals| ::
          SLOTS * |s.frames| + i <= j < SLOTS * |s.frames| + SLOTS || s.locals[j] == Void)
    && (forall k | 0 <= k < |s.tries| :: s.tries[k].frames >= 1)
  }

  lemma {:induction false} ClearKeeps(s: Vm, i: nat, hand: seq<Item>)
    requires s.mem.ok && Clearing(s, i) && Sound(s.mem, Held(s, hand)) && !s.stopped
    ensures var t := ClearSlots(s, SLOTS * |s.frames|, i);
            t.mem.ok && Clearing(t, SLOTS) && Sound(t.mem, Held(t, hand)) && !t.stopped
            && t.frames == s.frames && t.stack == s.stack && t.tries == s.tries
    decreases SLOTS - i
  {
    hide Sound;
    if i < SLOTS {
      var j := SLOTS * |s.frames| + i;
      var u := SetLocal(s, j, Void);
      ClearOne(s, j, hand);
      ClearKeeps(u, i + 1, hand);
    }
  }

  lemma ClearOne(s: Vm, j: nat, hand: seq<Item>)
    requires j < |s.locals| && Sound(s.mem, Held(s, hand)) && !s.stopped
    ensures Sound(SetLocal(s, j, Void).mem, Held(SetLocal(s, j, Void), hand))
  {
    var was := s.locals[j];
    var t := s.(locals := s.locals[j := Void]);
    forall r: nat
      ensures TimesHeld(s, hand, r) == TimesHeld(t, [was] + hand, r)
    {
      TimesAppend([was], hand, r);
      TimesUpdate(s.locals, j, Void, r);
      TimesOne(Void, r);
    }
    SameHeld(s.mem, s, hand, t, [was] + hand);
    assert Held(t, [was] + hand) == [was] + Held(t, hand);
    ReleaseIsExact(s.mem, was, Held(t, hand));
  }

  lemma PopFrameKeeps(s: Vm, hand: seq<Item>)
    requires Good(s, hand) && (s.stopped || |s.frames| > 1)
    ensures Good(PopFrame(s), hand)
    ensures !s.stopped ==> PopFrame(s).frames == s.frames[..|s.frames| - 1] && PopFrame(s).tries == s.tries
    ensures !s.stopped ==> PopFrame(s).stack == s.stack && !PopFrame(s).stopped
  {
    hide Sound;
    if !s.stopped {
      var t := s.(frames := s.frames[..|s.frames| - 1]);
      assert Held(t, hand) == Held(s, hand);
      FrameGone(s);
      hide Layout, Clearing, ClearSlots;
      ClearKeeps(t, 0, hand);
      FrameCleared(PopFrame(s));
    }
  }

  lemma FrameGone(s: Vm)
    requires Layout(s) && |s.frames| > 1
    ensures Clearing(s.(frames := s.frames[..|s.frames| - 1]), 0)
    ensures s.frames[|s.frames| - 1] == SLOTS * (|s.frames| - 1)
  {}

  lemma FrameCleared(s: Vm)
    requires Clearing(s, SLOTS) && |s.frames| >= 1
    ensures Layout(s)
  {}

  lemma {:induction false} CutStackKeeps(s: Vm, depth: nat, hand: seq<Item>)
    requires Good(s, hand)
    ensures Good(CutStack(s, depth), hand)
    ensures CutStack(s, depth).frames == s.frames && CutStack(s, depth).tries == s.tries
    decreases |s.stack|
  {
    hide Good;
    if !s.stopped && |s.stack| > depth {
      var (t, v) := PopItem(s);
      PopKeeps(s, hand);
      DropKeeps(t, v, hand);
      CutStackKeeps(Drop(t, v), depth, hand);
    }
  }

  lemma {:induction false} CutFramesKeeps(s: Vm, n: nat, hand: seq<Item>)
    requires Good(s, hand) && n >= 1
    ensures Good(CutFrames(s, n), hand)
    ensures CutFrames(s, n).tries == s.tries
    decreases |s.frames|
  {
    hide Sound;
    if !s.stopped && |s.frames| > n {
      PopFrameKeeps(s, hand);
      hide Good;
      CutFramesKeeps(PopFrame(s), n, hand);
    }
  }

  lemma UnwindKeeps(s: Vm, t: Try, hand: seq<Item>)
    requires Good(s, hand) && t.frames >= 1
    ensures Good(Unwind(s, t), hand)
  {
    hide Good;
    CutStackKeeps(s, t.depth, hand);
    CutFramesKeeps(CutStack(s, t.depth), t.frames, hand);
  }

  lemma DropTry(s: Vm, hand: seq<Item>)
    requires Good(s, hand) && (s.stopped || s.tries != [])
    ensures s.tries != [] ==> Good(s.(tries := s.tries[..|s.tries| - 1]), hand)
    ensures !s.stopped ==> s.tries[|s.tries| - 1].frames >= 1
  {
    hide Sound;
    if s.tries != [] {
      assert Held(s.(tries := s.tries[..|s.tries| - 1]), hand) == Held(s, hand);
    }
  }

  /** The error is in hand: its handler gets it. */
  lemma RaiseAllocated(a: Vm, e: Item, t: Try, hand: seq<Item>)
    requires Good(a, [e] + hand) && !a.stopped && a.tries != [] && t == a.tries[|a.tries| - 1]
    ensures var u := Unwind(a.(tries := a.tries[..|a.tries| - 1]), t); Good(Drop(Push(u, e), e), hand)
  {
    hide Good, Unwind, Push, Drop;
    var b := a.(tries := a.tries[..|a.tries| - 1]);
    DropTry(a, [e] + hand);
    UnwindKeeps(b, t, [e] + hand);
    var u := Unwind(b, t);
    InHandIsAlive(u, e, [e] + hand);
    PushKeeps(u, e, [e] + hand);
    DropKeeps(Push(u, e), e, hand);
  }

  lemma RaiseKeeps(s: Vm, text: seq<byte>, hand: seq<Item>)
    requires Good(s, hand)
    ensures Good(Raise(s, text), hand)
  {
    hide Sound, Unwind, Push, Drop;
    if !s.stopped && s.tries != [] {
      var e := Ref(|s.mem.cells|);
      var t := s.tries[|s.tries| - 1];
      var a := Allocate(s, Text(text));
      assert Parts(Text(text)) + hand == hand;
      AllocateKeeps(s, Text(text), hand);
      RaiseAllocated(a, e, t, hand);
    }
  }

  lemma {:induction false} CopyKeeps(s: Vm, captures: seq<Item>, i: nat, hand: seq<Item>)
    requires Good(s, hand) && !s.stopped && i <= |captures| <= SLOTS && |s.frames| >= 1
    requires forall j | SLOTS * (|s.frames| - 1) + i <= j < |s.locals| :: s.locals[j] == Void
    requires forall k | i <= k < |captures| :: Alive(s, captures[k])
    ensures Good(CopyIn(s, SLOTS * (|s.frames| - 1), captures, i), hand)
    decreases |captures| - i
  {
    if i < |captures| {
      var offset := SLOTS * (|s.frames| - 1);
      var v := captures[i];
      var t := s.(mem := Retain(s.mem, v), locals := s.locals[offset + i := v]);
      RetainIsExact(s.mem, v, Held(s, hand));
      RetainKeepsAlive(s, v, captures, i);
      hide Sound, Alive;
      assert [v] + Held(s, hand) == Held(s, [v] + hand);
      forall r: nat
        ensures TimesHeld(s, [v] + hand, r) == TimesHeld(t, hand, r)
      {
        TimesAppend([v], hand, r);
        TimesUpdate(s.locals, offset + i, v, r);
        TimesOne(Void, r);
      }
      SameHeld(t.mem, s, [v] + hand, t, hand);
      AliveLooksAtMemory(s.(mem := t.mem), t, captures, i);
      CopyKeeps(t, captures, i + 1, hand);
    }
  }

  lemma RetainKeepsAlive(s: Vm, v: Item, captures: seq<Item>, i: nat)
    requires !s.stopped && i <= |captures| && Alive(s, v)
    requires forall k | i <= k < |captures| :: Alive(s, captures[k])
    ensures forall k | i <= k < |captures| :: Alive(s.(mem := Retain(s.mem, v)), captures[k])
  {}

  lemma AliveLooksAtMemory(s: Vm, t: Vm, captures: seq<Item>, i: nat)
    requires s.mem == t.mem && s.stopped == t.stopped
    requires forall k | i <= k < |captures| :: Alive(s, captures[k])
    ensures forall k | i <= k < |captures| :: Alive(t, captures[k])
  {
    forall k | i <= k < |captures|
      ensures Alive(t, captures[k])
    {
      assert Alive(s, captures[k]);
    }
  }

  lemma BeginCallKeeps(s: Vm, captures: seq<Item>, hand: seq<Item>)
    requires Good(s, hand) && |captures| <= SLOTS
    requires forall k | 0 <= k < |captures| :: Alive(s, captures[k])
    ensures Good(BeginCall(s, captures), hand)
  {
    if !s.stopped {
      if |s.frames| >= FRAMES_MAX {
        RaiseKeeps(s, FRAME_OVERFLOW, hand);
      } else {
        var t := s.(frames := s.frames + [SLOTS * |s.frames|]);
        hide Sound;
        assert Held(t, hand) == Held(s, hand);
        AliveLooksAtMemory(s, t, captures, 0);
        CopyKeeps(t, captures, 0, hand);
      }
    }
  }

  lemma {:induction false} PopItemsKeeps(s: Vm, n: nat, hand: seq<Item>)
    requires Good(s, hand)
    ensures Good(PopItems(s, n).0, PopItems(s, n).1 + hand)
    decreases n
  {
    hide Good;
    if n == 0 {
      assert [] + hand == hand;
    } else {
      var (t, v) := PopItem(s);
      PopKeeps(s, hand);
      PopItemsKeeps(t, n - 1, [v] + hand);
      var (u, rest) := PopItems(t, n - 1);
      assert rest + ([v] + hand) == (rest + [v]) + hand;
    }
  }

  // ----- maps -----

  lemma CancelOne(m: Memory, v: Item)
    requires v.Ref? ==> CountOf(m.cells, v.at) > 0
    ensures Release(Retain(m, v), v) == m
  {
    if v.Ref? {
      assert Release(Retain(m, v), v).cells == m.cells;
    }
  }

  lemma CancelTwo(m: Memory, k: Item, v: Item)
    requires (k.Ref? ==> CountOf(m.cells, k.at) > 0) && (v.Ref? ==> CountOf(m.cells, v.at) > 0)
    ensures Release(Release(Retain(Retain(m, k), v), k), v) == m
  {
    CancelOne(m, v);
    CancelFirst(m, k, v);
  }

  lemma CancelFirst(m: Memory, k: Item, v: Item)
    requires (k.Ref? ==> CountOf(m.cells, k.at) > 0) && (v.Ref? ==> CountOf(m.cells, v.at) > 0)
    ensures Release(Retain(Retain(m, k), v), k) == Retain(m, v)
  {
    if k == v {
      CancelOne(Retain(m, k), v);
    } else if k.Ref? && v.Ref? {
      var c, d := m.cells[k.at], m.cells[v.at];
      var both := m.cells[k.at := c.(count := c.count + 1)][v.at := d.(count := d.count + 1)];
      assert Retain(Retain(m, k), v) == m.(cells := both);
      assert both[k.at := c] == m.cells[v.at := d.(count := d.count + 1)];
    } else if k.Ref? {
      CancelOne(m, k);
    }
  }

  /** Moving the entries to a bigger table leaves every count as it was. */
  lemma {:induction false} RehashChangesNothing(m: Memory, entries: seq<Entry>)
    requires forall v | v in EntryParts(entries) :: v.Ref? ==> CountOf(m.cells, v.at) > 0
    ensures Rehash(m, entries) == m
    decreases |entries|
  {
    if entries != [] {
      var e := entries[0];
      var parts := EntryParts(entries);
      assert e.key == parts[0] && e.value == parts[1] && EntryParts(entries[1..]) == parts[2..];
      CancelTwo(m, e.key, e.value);
      RehashChangesNothing(m, entries[1..]);
    }
  }

  lemma {:induction false} EntryUpdate(entries: seq<Entry>, i: nat, v: Item, r: nat)
    requires i < |entries|
    ensures Times(EntryParts(entries[i := entries[i].(value := v)]), r) + Times([entries[i].value], r)
            == Times(EntryParts(entries), r) + Times([v], r)
    decreases i
  {
    var more := entries[i := entries[i].(value := v)];
    TimesAppend([entries[0].key, entries[0].value], EntryParts(entries[1..]), r);
    TimesAppend([more[0].key, more[0].value], EntryParts(more[1..]), r);
    if i == 0 {
      assert more[1..] == entries[1..];
      TimesUpdate([entries[0].key, entries[0].value], 1, v, r);
      assert [entries[0].key, entries[0].value][1 := v] == [entries[0].key, v];
    } else {
      assert more[1..] == entries[1..][i - 1 := entries[1..][i - 1].(value := v)];
      EntryUpdate(entries[1..], i - 1, v, r);
    }
  }

  lemma {:induction false} EntryAppend(entries: seq<Entry>, key: Item, value: Item)
    ensures EntryParts(entries + [Entry(key, value)]) == EntryParts(entries) + [key, value]
    decreases |entries|
  {
    if entries == [] {
      assert EntryParts([Entry(key, value)]) == [key, value] + EntryParts([]);
      assert entries + [Entry(key, value)] == [Entry(key, value)];
    } else {
      assert (entries + [Entry(key, value)])[1..] == entries[1..] + [Entry(key, value)];
      EntryAppend(entries[1..], key, value);
    }
  }

  lemma GrowthChangesNothing(s: Vm, entries: seq<Entry>, capacity: nat, hand: seq<Item>)
    requires Good(s, hand) && !s.stopped
    requires forall v | v in EntryParts(entries) :: Alive(s, v)
    ensures AfterGrowth(s.mem, entries, capacity) == s.mem
  {
    forall v | v in EntryParts(entries)
      ensures v.Ref? ==> CountOf(s.mem.cells, v.at) > 0
    {
      assert Alive(s, v);
    }
    RehashChangesNothing(s.mem, entries);
  }

  /** The C variables of OP_MAP: the key, the value, and the parts of the map so far. */
  function Filling(key: Item, value: Item, entries: seq<Entry>, hand: seq<Item>): seq<Item> {
    [key] + ([value] + (EntryParts(entries) + hand))
  }

  lemma FillingTimes(key: Item, value: Item, entries: seq<Entry>, hand: seq<Item>, r: nat)
    ensures Times(Filling(key, value, entries, hand), r)
            == Times([key], r) + Times([value], r) + Times(EntryParts(entries), r) + Times(hand, r)
  {
    TimesAppend([key], [value] + (EntryParts(entries) + hand), r);
    TimesAppend([value], EntryParts(entries) + hand, r);
    TimesAppend(EntryParts(entries), hand, r);
  }

  lemma FillingIsAlive(s: Vm, key: Item, value: Item, entries: seq<Entry>, hand: seq<Item>)
    requires Good(s, Filling(key, value, entries, hand))
    ensures Alive(s, key) && Alive(s, value)
    ensures forall v | v in EntryParts(entries) :: Alive(s, v)
  {
    var h := Filling(key, value, entries, hand);
    assert h[0] == key && h[1] == value;
    hide Good, Alive;
    InHandIsAlive(s, key, h);
    InHandIsAlive(s, value, h);
    forall v | v in EntryParts(entries)
      ensures Alive(s, v)
    {
      assert v in h;
      InHandIsAlive(s, v, h);
    }
  }

  lemma ReplaceYoung(s: Vm, key: Item, value: Item, entries: seq<Entry>, i: nat, hand: seq<Item>)
    requires Good(s, Filling(key, value, entries, hand)) && !s.stopped && i < |entries|
    ensures Good(Keep(Drop(s, entries[i].value), value),
                 Filling(key, value, entries[i := entries[i].(value := value)], hand))
  {
    var was := entries[i].value;
    var less := entries[i := entries[i].(value := Void)];
    var more := entries[i := entries[i].(value := value)];
    forall r: nat
      ensures Times(Filling(key, value, entries, hand), r) == Times([was] + Filling(key, value, less, hand), r)
      ensures Times([value] + Filling(key, value, less, hand), r) == Times(Filling(key, value, more, hand), r)
    {
      FillingTimes(key, value, entries, hand, r);
      FillingTimes(key, value, less, hand, r);
      FillingTimes(key, value, more, hand, r);
      TimesAppend([was], Filling(key, value, less, hand), r);
      TimesAppend([value], Filling(key, value, less, hand), r);
      EntryUpdate(entries, i, Void, r);
      EntryUpdate(entries, i, value, r);
      TimesOne(Void, r);
    }
    hide Good, Filling;
    Shuffle(s, Filling(key, value, entries, hand), [was] + Filling(key, value, less, hand));
    DropKeeps(s, was, Filling(key, value, less, hand));
    var t := Drop(s, was);
    FillingIsAlive(t, key, value, less, hand);
    KeepKeeps(t, value, Filling(key, value, less, hand));
    Shuffle(Keep(t, value), [value] + Filling(key, value, less, hand), Filling(key, value, more, hand));
  }

  lemma AppendYoung(s: Vm, key: Item, value: Item, entries: seq<Entry>, hand: seq<Item>)
    requires Good(s, Filling(key, value, entries, hand)) && !s.stopped
    ensures Good(Keep(Keep(s, key), value), Filling(key, value, entries + [Entry(key, value)], hand))
  {
    var h := Filling(key, value, entries, hand);
    var more := entries + [Entry(key, value)];
    forall r: nat
      ensures Times([value] + ([key] + h), r) == Times(Filling(key, value, more, hand), r)
    {
      FillingTimes(key, value, entries, hand, r);
      FillingTimes(key, value, more, hand, r);
      TimesAppend([value], [key] + h, r);
      TimesAppend([key], h, r);
      EntryAppend(entries, key, value);
      TimesAppend(EntryParts(entries), [key, value], r);
      assert [key, value] == [key] + [value];
      TimesAppend([key], [value], r);
    }
    hide Good;
    FillingIsAlive(s, key, value, entries, hand);
    KeepKeeps(s, key, h);
    assert value in [key] + h by { assert ([key] + h)[2] == value; }
    InHandIsAlive(Keep(s, key), value, [key] + h);
    KeepKeeps(Keep(s, key), value, [key] + h);
    Shuffle(Keep(Keep(s, key), value), [value] + ([key] + h), Filling(key, value, more, hand));
  }

  lemma SetYoungKeeps(s: Vm, entries: seq<Entry>, capacity: nat, key: Item, value: Item, hand: seq<Item>)
    requires Good(s, Filling(key, value, entries, hand))
    ensures Good(SetYoung(s, entries, capacity, key, value).0,
                 Filling(key, value, SetYoung(s, entries, capacity, key, value).1, hand))
  {
    if !s.stopped {
      FillingIsAlive(s, key, value, entries, hand);
      GrowthChangesNothing(s, entries, capacity, Filling(key, value, entries, hand));
      hide Good, Filling, Alive;
      var i := Find(s.mem, entries, key);
      if i < |entries| {
        ReplaceYoung(s, key, value, entries, i, hand);
        assert SetYoung(s, entries, capacity, key, value).0 == Keep(Drop(s, entries[i].value), value);
      } else {
        AppendYoung(s, key, value, entries, hand);
        assert SetYoung(s, entries, capacity, key, value).0 == Keep(Keep(s, key), value);
      }
    } else {
      assert Good(s, []);
    }
  }

  lemma {:induction false} MapKeeps(s: Vm, n: nat, entries: seq<Entry>, capacity: nat, hand: seq<Item>)
    requires Good(s, EntryParts(entries) + hand)
    ensures Good(DoMap(s, n, entries, capacity), hand)
    decreases n
  {
    hide Good;
    if n == 0 {
      PushNewKeeps(s, Dict(entries, capacity), hand);
    } else {
      var (s1, value) := PopItem(s);
      var (s2, key) := PopItem(s1);
      var (s3, more) := SetYoung(s2, entries, capacity, key, value);
      PopKeeps(s, EntryParts(entries) + hand);
      PopKeeps(s1, [value] + (EntryParts(entries) + hand));
      SetYoungKeeps(s2, entries, capacity, key, value, hand);
      DropKeeps(s3, key, [value] + (EntryParts(more) + hand));
      DropKeeps(Drop(s3, key), value, EntryParts(more) + hand);
      MapKeeps(Drop(Drop(s3, key), value), n - 1, more, Grown(entries, capacity), hand);
    }
  }

  // ----- assignment to an element -----

  lemma HeldHand(s: Vm, v: Item, hand: seq<Item>)
    requires v in hand && v.Ref?
    ensures Times(Held(s, hand), v.at) > 0
  {
    var i :| 0 <= i < |hand| && hand[i] == v;
    TimesIn(hand, i, v.at);
    HeldTimes(s, hand, v.at);
  }

  lemma ItemAssignKeeps(s: Vm, o: Item, v: Item, i: nat, hand: seq<Item>)
    requires Good(s, hand) && !s.stopped && o in hand && v in hand && o.Ref? && At(s.mem, o).List?
    requires i < |At(s.mem, o).items|
    ensures var items := At(s.mem, o).items;
            Good(s.(mem := Overwrite(s.mem, o.at, List(items[i := v]), items[i], v)), hand)
  {
    var items := At(s.mem, o).items;
    InHandIsAlive(s, o, hand);
    HeldHand(s, o, hand);
    if v.Ref? {
      HeldHand(s, v, hand);
    }
    forall r: nat
      ensures Times(items, r) == Times(items[i := Void], r) + Times([items[i]], r)
      ensures Times(items[i := v], r) == Times(items[i := Void], r) + Times([v], r)
    {
      TimesUpdate(items, i, Void, r);
      TimesUpdate(items, i, v, r);
      TimesOne(Void, r);
    }
    OverwriteIsExact(s.mem, o.at, List(items[i := Void]), List(items[i := v]), items[i], v, Held(s, hand));
    HeldAgain(s, Overwrite(s.mem, o.at, List(items[i := v]), items[i], v), hand);
  }

  lemma HeldAgain(s: Vm, m: Memory, hand: seq<Item>)
    requires Good(s, hand) && !s.stopped && Sound(m, Held(s, hand))
    ensures Good(s.(mem := m), hand)
  {
    assert Held(s.(mem := m), hand) == Held(s, hand);
  }

  lemma ReplaceEntryKeeps(s: Vm, o: Item, v: Item, i: nat, capacity: nat, hand: seq<Item>)
    requires Good(s, hand) && !s.stopped && o in hand && v in hand && o.Ref? && At(s.mem, o).Dict?
    requires i < |At(s.mem, o).entries|
    ensures var entries := At(s.mem, o).entries;
            Good(s.(mem := Overwrite(s.mem, o.at, Dict(entries[i := entries[i].(value := v)], capacity),
                                     entries[i].value, v)), hand)
  {
    var entries := At(s.mem, o).entries;
    var less, more := entries[i := entries[i].(value := Void)], entries[i := entries[i].(value := v)];
    InHandIsAlive(s, o, hand);
    HeldHand(s, o, hand);
    if v.Ref? {
      HeldHand(s, v, hand);
    }
    forall r: nat
      ensures Times(EntryParts(entries), r) == Times(EntryParts(less), r) + Times([entries[i].value], r)
      ensures Times(EntryParts(more), r) == Times(EntryParts(less), r) + Times([v], r)
    {
      EntryUpdate(entries, i, Void, r);
      EntryUpdate(entries, i, v, r);
      TimesOne(Void, r);
    }
    OverwriteIsExact(s.mem, o.at, Dict(less, capacity), Dict(more, capacity), entries[i].value, v, Held(s, hand));
    HeldAgain(s, Overwrite(s.mem, o.at, Dict(more, capacity), entries[i].value, v), hand);
  }

  lemma AddEntryKeeps(s: Vm, o: Item, key: Item, v: Item, capacity: nat, hand: seq<Item>)
    requires Good(s, hand) && !s.stopped && o.Ref? && Alive(s, key) && Alive(s, v) && Alive(s, o) && At(s.mem, o).Dict?
    ensures var k := Retain(Retain(s.mem, key), v);
            var entries := At(s.mem, o).entries;
            o.at < |k.cells| && k.cells[o.at].Live?
            && Good(s.(mem := Put(k, o.at, Dict(entries + [Entry(key, v)], capacity))), hand)
  {
    var x := o.at;
    var entries := At(s.mem, o).entries;
    var held := Held(s, hand);
    RetainIsExact(s.mem, key, held);
    var k1 := Retain(s.mem, key);
    RetainIsExact(k1, v, [key] + held);
    var k2 := Retain(k1, v);
    assert k2.cells[x].Live? && k2.cells[x].obj == Dict(entries, At(s.mem, o).capacity);
    var half, full := Dict(entries + [Entry(Void, v)], capacity), Dict(entries + [Entry(key, v)], capacity);
    EntryAppend(entries, Void, v);
    EntryAppend(entries, key, v);
    forall r: nat
      ensures Times(Parts(half), r) == Times(EntryParts(entries), r) + Times([v], r)
      ensures Times(Parts(full), r) == Times(Parts(half), r) + Times([key], r)
    {
      TimesAppend(EntryParts(entries), [Void, v], r);
      TimesAppend(EntryParts(entries), [key, v], r);
      TimesAppend([Void], [v], r);
      TimesAppend([key], [v], r);
      TimesOne(Void, r);
      assert [Void, v] == [Void] + [v] && [key, v] == [key] + [v];
    }
    PutInIsExact(k2, x, half, v, [key] + held);
    PutInIsExact(Put(k2, x, half), x, full, key, held);
    PutPut(k2, x, half, full);
    HeldAgain(s, Put(k2, x, full), hand);
  }

  lemma SetEntryKeeps(s: Vm, o: Item, key: Item, v: Item, hand: seq<Item>)
    requires Good(s, hand) && !s.stopped && o in hand && key in hand && v in hand && o.Ref? && At(s.mem, o).Dict?
    ensures o.at < |s.mem.cells| && s.mem.cells[o.at].Live?
    ensures var d := At(s.mem, o); Good(s.(mem := SetEntry(s.mem, o.at, d.entries, d.capacity, key, v)), hand)
  {
    var d := At(s.mem, o);
    InHandIsAlive(s, o, hand);
    InHandIsAlive(s, key, hand);
    InHandIsAlive(s, v, hand);
    forall p | p in EntryParts(d.entries)
      ensures Alive(s, p)
    {
      var i :| 0 <= i < |EntryParts(d.entries)| && EntryParts(d.entries)[i] == p;
      PartIsAlive(s, o, i, hand);
    }
    GrowthChangesNothing(s, d.entries, d.capacity, hand);
    var i := Find(s.mem, d.entries, key);
    if i < |d.entries| {
      ReplaceEntryKeeps(s, o, v, i, Grown(d.entries, d.capacity), hand);
    } else {
      AddEntryKeeps(s, o, key, v, Grown(d.entries, d.capacity), hand);
    }
  }
}
