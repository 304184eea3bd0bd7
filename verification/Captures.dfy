/** Closures and frames: a closure keeps the values it captured, every invocation starts from them, and
    no callee touches the slots of its callers. */
module Captures {
  import opened Bytes
  import opened Counting
  import opened Ownership
  import opened Owners
  import opened Accounting
  import Values

  // ----- what happens to objects -----

  /** Cells are only added, freed objects stay freed, and a closure stays as it is until it is freed. */
  predicate Later(m: Memory, n: Memory) {
    |m.cells| <= |n.cells|
    && forall x | 0 <= x < |m.cells| ::
         (m.cells[x].Freed? ==> n.cells[x].Freed?)
         && (m.cells[x].Live? && m.cells[x].obj.Closure? && n.cells[x].Live? ==> n.cells[x].obj == m.cells[x].obj)
  }

  /** Only the count of a live object changes, or it is freed. */
  predicate SameObjects(m: Memory, n: Memory) {
    |m.cells| == |n.cells|
    && forall x | 0 <= x < |m.cells| ::
         (m.cells[x].Freed? ==> n.cells[x].Freed?)
         && (m.cells[x].Live? && n.cells[x].Live? ==> n.cells[x].obj == m.cells[x].obj)
  }

  lemma SameIsLater(m: Memory, n: Memory)
    requires SameObjects(m, n)
    ensures Later(m, n)
  {}

  lemma LaterTwice(m: Memory, n: Memory, k: Memory)
    requires Later(m, n) && Later(n, k)
    ensures Later(m, k)
  {}

  lemma SameTwice(m: Memory, n: Memory, k: Memory)
    requires SameObjects(m, n) && SameObjects(n, k)
    ensures SameObjects(m, k)
  {}

  lemma RetainSame(m: Memory, v: Item)
    ensures SameObjects(m, Retain(m, v))
  {}

  lemma {:induction false} ReleaseSame(m: Memory, v: Item)
    ensures SameObjects(m, Release(m, v))
    decreases Weight(m.cells), 0
  {
    if v.Ref? && v.at < |m.cells| && m.cells[v.at].Live? && m.cells[v.at].count == 1 {
      WeightUpdate(m.cells, v.at, Freed);
      var n := m.(cells := m.cells[v.at := Freed]);
      ReleaseAllSame(n, Parts(m.cells[v.at].obj));
      SameTwice(m, n, ReleaseAll(n, Parts(m.cells[v.at].obj)));
    }
  }

  lemma {:induction false} ReleaseAllSame(m: Memory, vs: seq<Item>)
    ensures SameObjects(m, ReleaseAll(m, vs))
    decreases Weight(m.cells), |vs|
  {
    hide Release;
    if vs != [] {
      ReleaseSame(m, vs[0]);
      ReleaseAllSame(Release(m, vs[0]), vs[1..]);
      SameTwice(m, Release(m, vs[0]), ReleaseAll(m, vs));
    }
  }

  lemma PutLater(m: Memory, x: nat, o: Object)
    requires x < |m.cells| && m.cells[x].Live? && !m.cells[x].obj.Closure?
    ensures Later(m, Put(m, x, o))
  {}

  lemma OverwriteLater(m: Memory, x: nat, o: Object, was: Item, comes: Item)
    requires x < |m.cells| && m.cells[x].Live? && !m.cells[x].obj.Closure?
    ensures Later(m, Overwrite(m, x, o, was, comes))
  {
    hide Retain, Release, Put;
    ReleaseSame(m, was);
    RetainSame(Release(m, was), comes);
    var n := Retain(Release(m, was), comes);
    SameTwice(m, Release(m, was), n);
    SameIsLater(m, n);
    if n.cells[x].Live? {
      PutLater(n, x, o);
      LaterTwice(m, n, Put(n, x, o));
    }
  }

  lemma {:induction false} RehashSame(m: Memory, entries: seq<Entry>)
    ensures SameObjects(m, Rehash(m, entries))
    decreases |entries|
  {
    hide Retain, Release;
    if entries != [] {
      var e := entries[0];
      var n := Retain(Retain(m, e.key), e.value);
      RetainSame(m, e.key);
      RetainSame(Retain(m, e.key), e.value);
      SameTwice(m, Retain(m, e.key), n);
      ReleaseSame(n, e.key);
      ReleaseSame(Release(n, e.key), e.value);
      var k := Release(Release(n, e.key), e.value);
      SameTwice(n, Release(n, e.key), k);
      SameTwice(m, n, k);
      RehashSame(k, entries[1..]);
      SameTwice(m, k, Rehash(m, entries));
    }
  }

  lemma SetEntryLater(m: Memory, x: nat, entries: seq<Entry>, capacity: nat, key: Item, value: Item)
    requires x < |m.cells| && m.cells[x].Live? && !m.cells[x].obj.Closure?
    ensures Later(m, SetEntry(m, x, entries, capacity, key, value))
  {
    hide Retain, Overwrite, Put, Rehash, Find;
    var g := AfterGrowth(m, entries, capacity);
    RehashSame(m, entries);
    SameItself(m);
    assert SameObjects(m, g);
    SameIsLater(m, g);
    var i := Find(g, entries, key);
    if i < |entries| {
      if g.cells[x].Live? {
        OverwriteLater(g, x, Dict(entries[i := entries[i].(value := value)], Grown(entries, capacity)), entries[i].value, value);
      } else {
        OverwriteFreed(g, x, Dict(entries[i := entries[i].(value := value)], Grown(entries, capacity)), entries[i].value, value);
      }
      LaterTwice(m, g, SetEntry(m, x, entries, capacity, key, value));
    } else {
      var k := Retain(Retain(g, key), value);
      RetainSame(g, key);
      RetainSame(Retain(g, key), value);
      SameTwice(g, Retain(g, key), k);
      SameTwice(m, g, k);
      SameIsLater(m, k);
      if k.cells[x].Live? {
        var o := Dict(entries + [Entry(key, value)], Grown(entries, capacity));
        PutLater(k, x, o);
        LaterTwice(m, k, Put(k, x, o));
      }
    }
  }

  lemma SameItself(m: Memory)
    ensures SameObjects(m, m)
  {}

  lemma OverwriteFreed(m: Memory, x: nat, o: Object, was: Item, comes: Item)
    requires x < |m.cells| && m.cells[x].Freed?
    ensures Later(m, Overwrite(m, x, o, was, comes))
  {
    hide Retain, Release, Put;
    ReleaseSame(m, was);
    RetainSame(Release(m, was), comes);
    SameTwice(m, Release(m, was), Retain(Release(m, was), comes));
  }

  // ----- what happens to frames -----

  /** Frame k starts at 48 * k. */
  predicate Framed(s: Vm) {
    |s.locals| == FRAMES_MAX * SLOTS && |s.frames| <= FRAMES_MAX
    && forall k | 0 <= k < |s.frames| :: s.frames[k] == SLOTS * k
  }

  predicate SameSlots(s: Vm, t: Vm, k: nat) {
    |s.locals| == |t.locals| && forall j | 0 <= j < SLOTS * k && j < |s.locals| :: t.locals[j] == s.locals[j]
  }

  /** From s to t objects only grow older, and frames are at most popped: the slots of those that are
      left are as they were. */
  predicate Calm(s: Vm, t: Vm) {
    && Later(s.mem, t.mem) && Framed(t) && |t.frames| <= |s.frames| && SameSlots(s, t, |t.frames|)
  }

  lemma CalmTwice(s: Vm, t: Vm, u: Vm)
    requires Calm(s, t) && Calm(t, u)
    ensures Calm(s, u)
  {
    LaterTwice(s.mem, t.mem, u.mem);
  }

  lemma CalmMemory(s: Vm, t: Vm)
    requires Framed(s) && Later(s.mem, t.mem) && t.locals == s.locals && t.frames == s.frames
    ensures Calm(s, t)
  {}

  lemma LaterItself(m: Memory)
    ensures Later(m, m)
  {}

  lemma PushCalm(s: Vm, v: Item)
    requires Framed(s)
    ensures Calm(s, Push(s, v)) && Push(s, v).frames == s.frames && Push(s, v).locals == s.locals
  {
    hide Retain, Later, Framed;
    RetainSame(s.mem, v);
    SameIsLater(s.mem, Retain(s.mem, v));
    LaterItself(s.mem);
    CalmMemory(s, Push(s, v));
  }

  lemma PopCalm(s: Vm)
    requires Framed(s)
    ensures Calm(s, PopItem(s).0) && PopItem(s).0.frames == s.frames && PopItem(s).0.locals == s.locals
  {
    hide Later, Framed;
    LaterItself(s.mem);
    CalmMemory(s, PopItem(s).0);
  }

  lemma DropCalm(s: Vm, v: Item)
    requires Framed(s)
    ensures Calm(s, Drop(s, v)) && Drop(s, v).frames == s.frames && Drop(s, v).locals == s.locals
  {
    hide Release, Later, Framed;
    ReleaseSame(s.mem, v);
    SameIsLater(s.mem, Release(s.mem, v));
    LaterItself(s.mem);
    CalmMemory(s, Drop(s, v));
  }

  lemma KeepCalm(s: Vm, v: Item)
    requires Framed(s)
    ensures Calm(s, Keep(s, v))
  {
    hide Retain, Later, Framed;
    RetainSame(s.mem, v);
    SameIsLater(s.mem, Retain(s.mem, v));
    LaterItself(s.mem);
    CalmMemory(s, Keep(s, v));
  }

  lemma AllocateCalm(s: Vm, o: Object)
    requires Framed(s)
    ensures Calm(s, Allocate(s, o)) && Allocate(s, o).frames == s.frames && Allocate(s, o).locals == s.locals
  {
    hide Framed;
    CalmMemory(s, Allocate(s, o));
  }

  lemma PushNewCalm(s: Vm, o: Object)
    requires Framed(s)
    ensures Calm(s, PushNew(s, o)) && PushNew(s, o).frames == s.frames && PushNew(s, o).locals == s.locals
  {
    hide Framed, Allocate, Later;
    LaterItself(s.mem);
    AllocateCalm(s, o);
    CalmMemory(s, PushNew(s, o));
  }

  lemma {:induction false} ClearCalm(s: Vm, i: nat)
    requires Framed(s) && i <= SLOTS && |s.frames| < FRAMES_MAX
    ensures var t := ClearSlots(s, SLOTS * |s.frames|, i); Calm(s, t) && t.frames == s.frames
    decreases SLOTS - i
  {
    hide Later, Release;
    LaterItself(s.mem);
    if i < SLOTS {
      var t := SetLocal(s, SLOTS * |s.frames| + i, Void);
      SetLocalLater(s, SLOTS * |s.frames| + i, Void);
      ClearCalm(t, i + 1);
      CalmTwice(s, t, ClearSlots(s, SLOTS * |s.frames|, i));
    }
  }

  lemma SetLocalLater(s: Vm, j: nat, v: Item)
    ensures Later(s.mem, SetLocal(s, j, v).mem)
  {
    hide Release, Later;
    LaterItself(s.mem);
    if j < |s.locals| {
      ReleaseSame(s.mem, s.locals[j]);
      SameIsLater(s.mem, Release(s.mem, s.locals[j]));
    }
  }

  lemma PopFrameCalm(s: Vm)
    requires Framed(s)
    ensures Calm(s, PopFrame(s))
    ensures !s.stopped && s.frames != [] ==> PopFrame(s).frames == s.frames[..|s.frames| - 1]
  {
    hide Later;
    LaterItself(s.mem);
    if !s.stopped && s.frames != [] {
      var t := s.(frames := s.frames[..|s.frames| - 1]);
      ClearCalm(t, 0);
      assert Calm(s, t);
      CalmTwice(s, t, PopFrame(s));
    }
  }

  lemma {:induction false} CutStackCalm(s: Vm, depth: nat)
    requires Framed(s)
    ensures Calm(s, CutStack(s, depth))
    decreases |s.stack|
  {
    hide Later, Framed, Calm, Release;
    StillCalm(s);
    if !s.stopped && |s.stack| > depth {
      var (t, v) := PopItem(s);
      PopCalm(s);
      CalmFrames(s, t);
      DropCalm(t, v);
      CalmTwice(s, t, Drop(t, v));
      CalmFrames(s, Drop(t, v));
      CutStackCalm(Drop(t, v), depth);
      CalmTwice(s, Drop(t, v), CutStack(s, depth));
    }
  }

  lemma StillCalm(s: Vm)
    requires Framed(s)
    ensures Calm(s, s)
  {}

  lemma CalmFrames(s: Vm, t: Vm)
    requires Calm(s, t)
    ensures Framed(t) && Later(s.mem, t.mem)
  {}

  lemma {:induction false} CutFramesCalm(s: Vm, n: nat)
    requires Framed(s)
    ensures Calm(s, CutFrames(s, n))
    decreases |s.frames|
  {
    hide Later, Calm, PopFrame;
    StillCalm(s);
    if !s.stopped && |s.frames| > n {
      PopFrameCalm(s);
      CalmFrames(s, PopFrame(s));
      CutFramesCalm(PopFrame(s), n);
      CalmTwice(s, PopFrame(s), CutFrames(s, n));
    }
  }

  lemma UnwindCalm(s: Vm, t: Try)
    requires Framed(s)
    ensures Calm(s, Unwind(s, t))
  {
    hide Framed, Calm, CutStack, CutFrames;
    CutStackCalm(s, t.depth);
    CalmFrames(s, CutStack(s, t.depth));
    CutFramesCalm(CutStack(s, t.depth), t.frames);
    CalmTwice(s, CutStack(s, t.depth), Unwind(s, t));
  }

  lemma TriesCalm(s: Vm, tries: seq<Try>, stopped: bool)
    requires Framed(s)
    ensures Calm(s, s.(tries := tries, stopped := stopped))
  {
    hide Later;
    LaterItself(s.mem);
  }

  lemma RaiseCalm(s: Vm, text: seq<byte>)
    requires Framed(s)
    ensures Calm(s, Raise(s, text))
  {
    hide Framed, Calm, Allocate, Unwind, Push, Drop;
    StillCalm(s);
    TriesCalm(s, s.tries, true);
    if !s.stopped && s.tries != [] {
      var e := Ref(|s.mem.cells|);
      var a := Allocate(s, Text(text));
      var b := a.(tries := s.tries[..|s.tries| - 1]);
      AllocateCalm(s, Text(text));
      CalmFrames(s, a);
      TriesCalm(a, s.tries[..|s.tries| - 1], a.stopped);
      CalmTwice(s, a, b);
      CalmFrames(s, b);
      var u := Unwind(b, s.tries[|s.tries| - 1]);
      UnwindCalm(b, s.tries[|s.tries| - 1]);
      CalmTwice(s, b, u);
      CalmFrames(s, u);
      PushCalm(u, e);
      CalmTwice(s, u, Push(u, e));
      CalmFrames(s, Push(u, e));
      DropCalm(Push(u, e), e);
      CalmTwice(s, Push(u, e), Drop(Push(u, e), e));
    }
  }

  // ----- the instructions that only work on the stack and the heap -----

  lemma PopTwoCalm(s: Vm)
    requires Framed(s)
    ensures var t := PopItem(PopItem(s).0).0; Calm(s, t) && Framed(t)
  {
    hide Framed, Calm, PopItem;
    var t := PopItem(s).0;
    PopCalm(s);
    CalmFrames(s, t);
    PopCalm(t);
    CalmTwice(s, t, PopItem(t).0);
    CalmFrames(s, PopItem(t).0);
  }

  lemma DropTwoCalm(s: Vm, t: Vm, a: Item, b: Item)
    requires Framed(s) && Calm(s, t)
    ensures Calm(s, Drop(Drop(t, a), b))
  {
    hide Framed, Calm, Drop;
    CalmFrames(s, t);
    DropCalm(t, a);
    CalmFrames(t, Drop(t, a));
    DropCalm(Drop(t, a), b);
    CalmTwice(s, t, Drop(t, a));
    CalmTwice(s, Drop(t, a), Drop(Drop(t, a), b));
  }

  lemma ResultCalm(s: Vm, t: Vm, v: Item, a: Item, b: Item)
    requires Framed(s) && Calm(s, t)
    ensures Calm(s, Drop(Drop(Push(t, v), a), b))
  {
    hide Framed, Calm, Drop, Push;
    CalmFrames(s, t);
    PushCalm(t, v);
    CalmTwice(s, t, Push(t, v));
    DropTwoCalm(s, Push(t, v), a, b);
  }

  lemma NewResultCalm(s: Vm, t: Vm, o: Object, a: Item, b: Item)
    requires Framed(s) && Calm(s, t)
    ensures Calm(s, Drop(Drop(PushNew(t, o), a), b))
  {
    hide Framed, Calm, Drop, PushNew;
    CalmFrames(s, t);
    PushNewCalm(t, o);
    CalmTwice(s, t, PushNew(t, o));
    DropTwoCalm(s, PushNew(t, o), a, b);
  }

  lemma ThenRaise(s: Vm, t: Vm, text: seq<byte>)
    requires Framed(s) && Calm(s, t)
    ensures Calm(s, Raise(t, text))
  {
    hide Framed, Calm, Raise;
    CalmFrames(s, t);
    RaiseCalm(t, text);
    CalmTwice(s, t, Raise(t, text));
  }

  lemma FailCalm(s: Vm, t: Vm, a: Item, b: Item)
    requires Framed(s) && Calm(s, t)
    ensures Calm(s, Raise(Drop(Drop(t, a), b), []))
  {
    hide Framed, Calm, Drop, Raise;
    DropTwoCalm(s, t, a, b);
    ThenRaise(s, Drop(Drop(t, a), b), []);
  }

  lemma ThenStop(s: Vm, t: Vm)
    requires Framed(s) && Calm(s, t)
    ensures Calm(s, Stop(t))
  {
    hide Framed, Calm;
    CalmFrames(s, t);
    TriesCalm(t, t.tries, true);
    CalmTwice(s, t, Stop(t));
  }

  lemma OperatorsCalm(s: Vm)
    requires Framed(s)
    ensures Calm(s, DoAdd(s)) && Calm(s, DoDiv(s)) && Calm(s, DoEqual(s))
  {
    hide Framed, Calm, Drop, Raise, Push, PushNew, PopItem, Keep, At, Same;
    var (s1, b) := PopItem(s);
    var (s2, a) := PopItem(s1);
    PopTwoCalm(s);
    if a.Int? && b.Int? {
      ResultCalm(s, s2, Int(Values.Wrap(a.n + b.n)), a, b);
      if b.n != 0 {
        ResultCalm(s, s2, Int(Values.Wrap(Values.Quotient(a.n, b.n))), a, b);
      }
    }
    if IsText(s2.mem, a) && IsText(s2.mem, b) {
      KeepCalm(s2, a);
      CalmTwice(s, s2, Keep(s2, a));
      CalmFrames(s, Keep(s2, a));
      KeepCalm(Keep(s2, a), b);
      var k := Keep(Keep(s2, a), b);
      CalmTwice(s, Keep(s2, a), k);
      var text := Text(At(s2.mem, a).text + At(s2.mem, b).text);
      NewResultCalm(s, k, text, a, b);
      DropTwoCalm(s, Drop(Drop(PushNew(k, text), a), b), a, b);
    }
    FailCalm(s, s2, a, b);
    ResultCalm(s, s2, Bool(Same(s2.mem, a, b)), a, b);
  }

  lemma {:induction false} PopItemsCalm(s: Vm, n: nat)
    requires Framed(s)
    ensures Calm(s, PopItems(s, n).0)
    decreases n
  {
    hide Framed, Calm, PopItem;
    StillCalm(s);
    if n > 0 {
      var t := PopItem(s).0;
      PopCalm(s);
      CalmFrames(s, t);
      PopItemsCalm(t, n - 1);
      CalmTwice(s, t, PopItems(t, n - 1).0);
    }
  }

  lemma MakeCalm(s: Vm, n: nat, o: Object)
    requires Framed(s)
    ensures Calm(s, PushNew(PopItems(s, n).0, o))
  {
    hide Framed, Calm, PopItems, PushNew;
    var t := PopItems(s, n).0;
    PopItemsCalm(s, n);
    CalmFrames(s, t);
    PushNewCalm(t, o);
    CalmTwice(s, t, PushNew(t, o));
  }

  lemma SetYoungCalm(s: Vm, entries: seq<Entry>, capacity: nat, key: Item, value: Item)
    requires Framed(s)
    ensures Calm(s, SetYoung(s, entries, capacity, key, value).0)
  {
    hide Framed, Calm, Retain, Release, Find, Rehash, SameObjects, Later;
    StillCalm(s);
    if !s.stopped {
      var m := AfterGrowth(s.mem, entries, capacity);
      RehashSame(s.mem, entries);
      SameItself(s.mem);
      var i := Find(m, entries, key);
      if i < |entries| {
        ReleaseSame(m, entries[i].value);
        var r := Release(m, entries[i].value);
        RetainSame(r, value);
        SameTwice(s.mem, m, r);
        SameTwice(s.mem, r, Retain(r, value));
        SameIsLater(s.mem, Retain(r, value));
      } else {
        RetainSame(m, key);
        RetainSame(Retain(m, key), value);
        SameTwice(s.mem, m, Retain(m, key));
        SameTwice(s.mem, Retain(m, key), Retain(Retain(m, key), value));
        SameIsLater(s.mem, Retain(Retain(m, key), value));
      }
      CalmMemory(s, SetYoung(s, entries, capacity, key, value).0);
    }
  }

  lemma {:induction false} MapCalm(s: Vm, n: nat, entries: seq<Entry>, capacity: nat)
    requires Framed(s)
    ensures Calm(s, DoMap(s, n, entries, capacity))
    decreases n
  {
    hide Framed, Calm, PopItem, SetYoung, Drop, PushNew, Grown;
    if n == 0 {
      PushNewCalm(s, Dict(entries, capacity));
    } else {
      var (s1, value) := PopItem(s);
      var (s2, key) := PopItem(s1);
      var (s3, more) := SetYoung(s2, entries, capacity, key, value);
      PopTwoCalm(s);
      SetYoungCalm(s2, entries, capacity, key, value);
      CalmTwice(s, s2, s3);
      DropTwoCalm(s, s3, key, value);
      var s4 := Drop(Drop(s3, key), value);
      CalmFrames(s, s4);
      MapCalm(s4, n - 1, more, Grown(entries, capacity));
      CalmTwice(s, s4, DoMap(s, n, entries, capacity));
    }
  }

  lemma IndexCalm(s: Vm)
    requires Framed(s)
    ensures Calm(s, DoIndex(s))
  {
    hide Framed, Calm, Drop, Raise, Push, PushNew, PopItem, At, Find, ToInt32;
    var (s1, index) := PopItem(s);
    var (s2, o) := PopItem(s1);
    PopTwoCalm(s);
    FailCalm(s, s2, o, index);
    ThenStop(s, s2);
    match At(s2.mem, o)
    case List(items) =>
      if index.Int? && 0 <= ToInt32(index.n) < |items| {
        ResultCalm(s, s2, items[ToInt32(index.n)], o, index);
      }
    case Dict(entries, _) =>
      var i := Find(s2.mem, entries, index);
      if i < |entries| {
        ResultCalm(s, s2, entries[i].value, o, index);
      }
    case Text(text) =>
      if index.Int? && 0 <= ToInt32(index.n) < |text| {
        NewResultCalm(s, s2, Text([text[ToInt32(index.n)]]), o, index);
      }
    case Closure(_) =>
  }

  lemma DropThreeCalm(s: Vm, t: Vm, o: Item, index: Item, v: Item)
    requires Framed(s) && Calm(s, t)
    ensures Calm(s, DropThree(t, o, index, v))
  {
    hide Framed, Calm, Drop;
    var u := Drop(Drop(t, o), index);
    DropTwoCalm(s, t, o, index);
    CalmFrames(s, u);
    DropCalm(u, v);
    CalmTwice(s, u, Drop(u, v));
  }

  /** Only lists and maps are written to. */
  lemma WriteCalm(s: Vm, t: Vm, o: Item, items: seq<Item>, i: nat, index: Item, v: Item)
    requires Framed(s) && Calm(s, t) && At(t.mem, o) == List(items) && i < |items|
    ensures Calm(s, DropThree(t.(mem := Overwrite(t.mem, o.at, List(items[i := v]), items[i], v)), o, index, v))
  {
    hide Framed, Calm, Overwrite, Later, DropThree;
    var m := Overwrite(t.mem, o.at, List(items[i := v]), items[i], v);
    CalmFrames(s, t);
    OverwriteLater(t.mem, o.at, List(items[i := v]), items[i], v);
    CalmMemory(t, t.(mem := m));
    CalmTwice(s, t, t.(mem := m));
    DropThreeCalm(s, t.(mem := m), o, index, v);
  }

  lemma WriteEntryCalm(s: Vm, t: Vm, o: Item, entries: seq<Entry>, capacity: nat, index: Item, v: Item)
    requires Framed(s) && Calm(s, t) && At(t.mem, o) == Dict(entries, capacity)
    ensures Calm(s, DropThree(t.(mem := SetEntry(t.mem, o.at, entries, capacity, index, v)), o, index, v))
  {
    hide Framed, Calm, SetEntry, Later, DropThree;
    var m := SetEntry(t.mem, o.at, entries, capacity, index, v);
    CalmFrames(s, t);
    SetEntryLater(t.mem, o.at, entries, capacity, index, v);
    CalmMemory(t, t.(mem := m));
    CalmTwice(s, t, t.(mem := m));
    DropThreeCalm(s, t.(mem := m), o, index, v);
  }

  lemma SetIndexCalm(s: Vm)
    requires Framed(s)
    ensures Calm(s, DoSetIndex(s))
  {
    hide Framed, Calm, DropThree, Raise, PopItem, At, ToInt32, Overwrite, SetEntry, Find;
    var (s1, index) := PopItem(s);
    var (s2, o) := PopItem(s1);
    var (s3, v) := PopItem(s2);
    PopTwoCalm(s);
    PopCalm(s2);
    CalmTwice(s, s2, s3);
    ThenStop(s, s3);
    DropThreeCalm(s, s3, o, index, v);
    ThenRaise(s, DropThree(s3, o, index, v), []);
    match At(s3.mem, o)
    case List(items) =>
      if index.Int? && 0 <= ToInt32(index.n) < |items| {
        WriteCalm(s, s3, o, items, ToInt32(index.n), index, v);
      }
    case Dict(entries, capacity) =>
      WriteEntryCalm(s, s3, o, entries, capacity, index, v);
    case _ =>
  }

  lemma ThrowCalm(s: Vm)
    requires Framed(s)
    ensures Calm(s, DoThrow(s))
  {
    hide Framed, Calm, PopItem, Unwind, Push;
    var (s1, e) := PopItem(s);
    PopCalm(s);
    ThenStop(s, s1);
    if !s1.stopped && s1.tries != [] {
      var a := s1.(tries := s1.tries[..|s1.tries| - 1]);
      CalmFrames(s, s1);
      TriesCalm(s1, s1.tries[..|s1.tries| - 1], s1.stopped);
      CalmTwice(s, s1, a);
      CalmFrames(s, a);
      var u := Unwind(a, s1.tries[|s1.tries| - 1]);
      UnwindCalm(a, s1.tries[|s1.tries| - 1]);
      CalmTwice(s, a, u);
      CalmFrames(s, u);
      PushCalm(u, e);
      CalmTwice(s, u, Push(u, e));
    }
  }

  lemma PopThenDrop(s: Vm)
    requires Framed(s)
    ensures Calm(s, Drop(PopItem(s).0, PopItem(s).1))
  {
    hide Framed, Calm, PopItem, Drop;
    var (t, v) := PopItem(s);
    PopCalm(s);
    CalmFrames(s, t);
    DropCalm(t, v);
    CalmTwice(s, t, Drop(t, v));
  }

  /** Every instruction but a store and the calls leaves the slots of every frame that stays as they were. */
  lemma MostStepsAreCalm(s: Vm, i: Instr)
    requires Framed(s) && !i.Store? && !i.Call? && !i.Invoke?
    ensures Calm(s, Step(s, i))
  {
    hide Framed, Calm, Push, PushNew, PopItem, PopItems, Drop, PopFrame, DoAdd, DoDiv, DoEqual, DoMap, DoIndex,
      DoSetIndex, DoThrow;
    StillCalm(s);
    ThenStop(s, s);
    match i
    case PushInt(n) => PushCalm(s, Int(n));
    case PushBool(b) => PushCalm(s, Bool(b));
    case PushStr(text) => PushNewCalm(s, Text(text));
    case Load(slot) =>
      if s.frames != [] && s.frames[|s.frames| - 1] + slot < |s.locals| {
        PushCalm(s, s.locals[s.frames[|s.frames| - 1] + slot]);
      }
    case LoadGlobal(slot) =>
      if slot < |s.locals| {
        PushCalm(s, s.locals[slot]);
      }
    case Pop => PopThenDrop(s);
    case MakeArray(n) => MakeCalm(s, n, List(PopItems(s, n).1));
    case MakeMap(n) => MapCalm(s, n, [], 8);
    case Index => IndexCalm(s);
    case SetIndex => SetIndexCalm(s);
    case PushFunc(n) => MakeCalm(s, n, Closure(PopItems(s, n).1));
    case Ret => PopFrameCalm(s);
    case BeginTry => TriesCalm(s, s.tries + [Try(|s.stack|, |s.frames|)], s.stopped);
    case EndTry =>
      if s.tries != [] {
        TriesCalm(s, s.tries[..|s.tries| - 1], s.stopped);
      }
    case Throw => ThrowCalm(s);
    case _ => OperatorsCalm(s);
  }

  // ----- stores and calls -----

  /** From s to t objects only grow older, and of the frames that stay only the running one may change. */
  predicate Isolated(s: Vm, t: Vm) {
    && Later(s.mem, t.mem) && Framed(t)
    && forall k: nat | k < |s.frames| && k <= |t.frames| :: SameSlots(s, t, k)
  }

  lemma CalmIsIsolated(s: Vm, t: Vm)
    requires Framed(s) && Calm(s, t)
    ensures Isolated(s, t)
  {
    hide Later;
  }

  lemma StoreIsolated(s: Vm, slot: nat)
    requires Framed(s) && slot < SLOTS
    ensures Isolated(s, DoStore(s, slot))
  {
    hide Later, Release;
    var (s1, v) := PopItem(s);
    PopCalm(s);
    LaterItself(s.mem);
    if !s1.stopped && s1.frames != [] {
      var j := s1.frames[|s1.frames| - 1] + slot;
      SetLocalLater(s1, j, v);
      assert j >= SLOTS * (|s.frames| - 1);
    }
  }

  /** The copies land in the slots of the new frame, in order, and nothing else changes. */
  lemma {:induction false} CopyInFills(s: Vm, offset: nat, captures: seq<Item>, i: nat)
    requires i <= |captures| && !s.stopped && offset + |captures| <= |s.locals|
    ensures var t := CopyIn(s, offset, captures, i);
            t == s.(mem := t.mem, locals := s.locals[..offset + i] + captures[i..] + s.locals[offset + |captures|..])
            && SameObjects(s.mem, t.mem)
    decreases |captures| - i
  {
    hide Retain, SameObjects;
    SameItself(s.mem);
    if i == |captures| {
      assert s.locals == s.locals[..offset + i] + captures[i..] + s.locals[offset + |captures|..];
    } else {
      var t := s.(mem := Retain(s.mem, captures[i]), locals := s.locals[offset + i := captures[i]]);
      RetainSame(s.mem, captures[i]);
      CopyInFills(t, offset, captures, i + 1);
      SameTwice(s.mem, t.mem, CopyIn(s, offset, captures, i).mem);
      assert t.locals[..offset + (i + 1)] + captures[i + 1..] + t.locals[offset + |captures|..]
          == s.locals[..offset + i] + captures[i..] + s.locals[offset + |captures|..];
    }
  }

  /** What a frame holds when it is entered with these captures. */
  function Fresh(captures: seq<Item>): (slots: seq<Item>)
    requires |captures| <= SLOTS
    ensures |slots| == SLOTS
  {
    captures + seq(SLOTS - |captures|, _ => Void)
  }

  /** The slots above the live frames are void. */
  predicate VoidAbove(s: Vm) {
    forall j | SLOTS * |s.frames| <= j < |s.locals| :: s.locals[j] == Void
  }

  /** t has one frame more than s: it starts from these captures and void slots, and the rest is as it was. */
  predicate Entered(s: Vm, t: Vm, captures: seq<Item>)
    requires |captures| <= SLOTS
  {
    var base := SLOTS * |s.frames|;
    && !t.stopped && t.frames == s.frames + [base] && t.tries == s.tries
    && base + SLOTS <= |s.locals|
    && t.locals == s.locals[..base] + Fresh(captures) + s.locals[base + SLOTS..]
  }

  lemma BeginCallEnters(s: Vm, captures: seq<Item>)
    requires Framed(s) && !s.stopped && |s.frames| < FRAMES_MAX && |captures| <= SLOTS
    ensures var t := BeginCall(s, captures);
            t.frames == s.frames + [SLOTS * |s.frames|] && t.stack == s.stack && Framed(t)
            && SameObjects(s.mem, t.mem) && SameSlots(s, t, |s.frames|)
            && (VoidAbove(s) ==> Entered(s, t, captures))
  {
    hide SameObjects;
    var base := SLOTS * |s.frames|;
    var u := s.(frames := s.frames + [base]);
    CopyInFills(u, base, captures, 0);
    var t := BeginCall(s, captures);
    assert captures[0..] == captures;
    if VoidAbove(s) {
      assert t.locals == s.locals[..base] + Fresh(captures) + s.locals[base + SLOTS..];
    }
  }

  lemma CallIsolated(s: Vm, captures: seq<Item>)
    requires Framed(s) && |captures| <= SLOTS
    ensures Isolated(s, BeginCall(s, captures))
  {
    hide Later, SameObjects, Raise, Calm, CopyIn;
    if s.stopped {
      StillCalm(s);
      CalmIsIsolated(s, s);
    } else if |s.frames| >= FRAMES_MAX {
      RaiseCalm(s, FRAME_OVERFLOW);
      CalmIsIsolated(s, Raise(s, FRAME_OVERFLOW));
    } else {
      BeginCallEnters(s, captures);
      SameIsLater(s.mem, BeginCall(s, captures).mem);
    }
  }

  lemma IsolatedThenCalm(s: Vm, t: Vm, u: Vm)
    requires Isolated(s, t) && Calm(t, u)
    ensures Isolated(s, u)
  {
    hide Later;
    LaterTwice(s.mem, t.mem, u.mem);
    forall k: nat | k < |s.frames| && k <= |u.frames|
      ensures SameSlots(s, u, k)
    {
      assert SameSlots(s, t, k);
    }
  }

  lemma CalmThenIsolated(s: Vm, t: Vm, u: Vm)
    requires Calm(s, t) && Isolated(t, u) && t.frames == s.frames
    ensures Isolated(s, u)
  {
    hide Later;
    LaterTwice(s.mem, t.mem, u.mem);
    forall k: nat | k < |s.frames| && k <= |u.frames|
      ensures SameSlots(s, u, k)
    {
      assert SameSlots(t, u, k);
    }
  }

  lemma IsolatedFrames(s: Vm, t: Vm)
    requires Isolated(s, t)
    ensures Framed(t) && Later(s.mem, t.mem)
  {}

  lemma InvokeIsolated(s: Vm)
    requires Framed(s)
    ensures Isolated(s, DoInvoke(s))
  {
    hide Framed, Calm, Isolated, PopItem, Drop, BeginCall, At;
    var (s1, f) := PopItem(s);
    PopCalm(s);
    CalmFrames(s, s1);
    ThenStop(s, s1);
    CalmIsIsolated(s, Stop(s1));
    match At(s1.mem, f)
    case Closure(captures) =>
      if |captures| <= SLOTS {
        var t := BeginCall(s1, captures);
        CallIsolated(s1, captures);
        CalmThenIsolated(s, s1, t);
        IsolatedFrames(s, t);
        DropCalm(t, f);
        IsolatedThenCalm(s, t, Drop(t, f));
      }
    case _ =>
  }

  /** One instruction, calls of closures included, leaves alone every slot of every frame that stays
      but the running one, and changes no closure. */
  lemma StepIsIsolated(s: Vm, i: Instr)
    requires Framed(s) && Tame(i)
    ensures Isolated(s, Step(s, i))
  {
    hide Framed, Calm, Isolated, DoStore, DoInvoke, BeginCall;
    match i
    case Store(slot) =>
      StillCalm(s);
      CalmIsIsolated(s, s);
      StoreIsolated(s, slot);
    case Call =>
      StillCalm(s);
      CalmIsIsolated(s, s);
      CallIsolated(s, []);
    case Invoke =>
      StillCalm(s);
      CalmIsIsolated(s, s);
      InvokeIsolated(s);
    case _ =>
      MostStepsAreCalm(s, i);
      CalmIsIsolated(s, Step(s, i));
  }

  // ----- runs -----

  /** More than k frames are live before each instruction, and at least k after the last. */
  predicate StaysAbove(s: Vm, code: seq<Instr>, k: nat)
    decreases |code|
  {
    if code == [] then |s.frames| >= k
    else |s.frames| > k && StaysAbove(Step(s, code[0]), code[1..], k)
  }

  /** Whatever a callee does, invoking closures included, until its frame is gone, the slots of its
      callers stay as they were. */
  lemma {:induction false} CalleeIsIsolated(s: Vm, code: seq<Instr>, k: nat)
    requires Framed(s) && AllTame(code) && StaysAbove(s, code, k)
    ensures SameSlots(s, Run(s, code), k)
    decreases |code|
  {
    hide Step, Framed, Later, Tame;
    if code != [] {
      var t := Step(s, code[0]);
      assert code[0] in code;
      StepIsIsolated(s, code[0]);
      StaysSomewhere(t, code[1..], k);
      assert SameSlots(s, t, k);
      CalleeIsIsolated(t, code[1..], k);
    }
  }

  lemma StaysSomewhere(s: Vm, code: seq<Instr>, k: nat)
    requires StaysAbove(s, code, k)
    ensures |s.frames| >= k
  {
    hide Step;
  }

  /** Along every run a closure keeps its captures for as long as it lives. */
  lemma {:induction false} ClosuresLast(s: Vm, code: seq<Instr>)
    requires Framed(s) && AllTame(code)
    ensures Later(s.mem, Run(s, code).mem) && Framed(Run(s, code))
    decreases |code|
  {
    hide Step, Framed, Later, Tame;
    LaterItself(s.mem);
    if code != [] {
      var t := Step(s, code[0]);
      assert code[0] in code;
      StepIsIsolated(s, code[0]);
      IsolatedFrames(s, t);
      ClosuresLast(t, code[1..]);
      LaterTwice(s.mem, t.mem, Run(s, code).mem);
    }
  }

  // ----- what an invocation starts from -----

  predicate IsClosure(m: Memory, v: Item, captures: seq<Item>) {
    v.Ref? && v.at < |m.cells| && m.cells[v.at].Live? && m.cells[v.at].obj == Closure(captures)
  }

  lemma InvokeEnters(s: Vm, captures: seq<Item>)
    requires Framed(s) && VoidAbove(s) && !s.stopped && |s.frames| < FRAMES_MAX && |captures| <= SLOTS
    requires s.stack != [] && IsClosure(s.mem, s.stack[|s.stack| - 1], captures)
    ensures Entered(s, Step(s, Invoke), captures) && Step(s, Invoke).stack == s.stack[..|s.stack| - 1]
  {
    hide Later, Release, CopyIn, Framed, VoidAbove;
    BeginCallOnPopped(s, captures);
  }

  lemma BeginCallOnPopped(s: Vm, captures: seq<Item>)
    requires Framed(s) && VoidAbove(s) && !s.stopped && |s.frames| < FRAMES_MAX && |captures| <= SLOTS && s.stack != []
    ensures var s1 := PopItem(s).0;
            Entered(s, BeginCall(s1, captures), captures) && BeginCall(s1, captures).stack == s.stack[..|s.stack| - 1]
  {
    hide BeginCall;
    BeginCallEnters(PopItem(s).0, captures);
  }

  lemma {:induction false} StoppedPops(s: Vm, n: nat)
    requires s.stopped
    ensures PopItems(s, n).0.stopped
  {
    if n > 0 {
      StoppedPops(s, n - 1);
    }
  }

  /** The items popped are the top of the stack, in the order they were pushed. */
  lemma {:induction false} PopItemsTake(s: Vm, n: nat)
    requires !PopItems(s, n).0.stopped
    ensures n <= |s.stack| && PopItems(s, n) == (s.(stack := s.stack[..|s.stack| - n]), s.stack[|s.stack| - n..])
    decreases n
  {
    if n == 0 {
      assert s.stack[..|s.stack|] == s.stack;
    } else {
      var (t, v) := PopItem(s);
      if t.stopped {
        StoppedPops(t, n - 1);
      }
      PopItemsTake(t, n - 1);
      assert s.stack[|s.stack| - n..] == t.stack[|t.stack| - (n - 1)..] + [v];
      assert t.stack[..|t.stack| - (n - 1)] == s.stack[..|s.stack| - n];
    }
  }

  lemma {:induction false} StoppedRuns(s: Vm, code: seq<Instr>)
    requires s.stopped
    ensures Run(s, code) == s
    decreases |code|
  {
    if code != [] {
      assert Step(s, code[0]) == s;
      StoppedRuns(s, code[1..]);
    }
  }

  lemma PushFuncMakes(s: Vm, n: nat)
    requires !Step(s, PushFunc(n)).stopped
    ensures n <= |s.stack| && IsClosure(Step(s, PushFunc(n)).mem, Ref(|s.mem.cells|), s.stack[|s.stack| - n..])
  {
    hide PopItems;
    assert PopItems(s, n).0.stopped ==> PushNew(PopItems(s, n).0, Closure(PopItems(s, n).1)).stopped;
    PopItemsTake(s, n);
  }

  lemma StackIsLive(s: Vm, hand: seq<Item>, r: nat)
    requires Good(s, hand) && !s.stopped && Ref(r) in s.stack
    ensures r < |s.mem.cells| && s.mem.cells[r].Live?
    ensures Framed(s) && VoidAbove(s)
  {
    TimesMeansIn(Held(s, hand), r);
    OwnersAreLive(s.mem.cells, Held(s, hand), r);
  }

  lemma GoodIsFramed(s: Vm, hand: seq<Item>)
    requires Good(s, hand) && !s.stopped
    ensures Framed(s)
  {
    hide Sound;
  }

  /** A closure is made of the top of the stack. Whatever runs between its making and its invocation,
      other invocations of it included, its new frame starts from those values, and the rest of the
      frame is void. */
  lemma EveryInvocationStartsFromTheCaptures(before: seq<Instr>, n: nat, between: seq<Instr>)
    requires AllTame(before) && AllTame(between) && n <= SLOTS
    requires var s := Run(Start(), before);
             var u := Run(Step(s, PushFunc(n)), between);
             !u.stopped && |u.frames| < FRAMES_MAX
             && u.stack != [] && u.stack[|u.stack| - 1] == Ref(|s.mem.cells|)
    ensures var s := Run(Start(), before);
            var u := Run(Step(s, PushFunc(n)), between);
            n <= |s.stack| && Entered(u, Step(u, Invoke), s.stack[|s.stack| - n..])
  {
    hide Step, Good, Later, Framed, VoidAbove, Entered, AllTame, AllThrown, Start;
    var s := Run(Start(), before);
    var t := Step(s, PushFunc(n));
    var u := Run(t, between);
    StartIsGood();
    RunIsGood(Start(), before, []);
    var leaked := AllThrown(Start(), before) + [];
    assert Tame(PushFunc(n));
    StepIsExact(s, PushFunc(n), leaked);
    leaked := Thrown(s, PushFunc(n)) + leaked;
    RunIsGood(t, between, leaked);
    if t.stopped {
      StoppedRuns(t, between);
    }
    GoodIsFramed(t, leaked);
    StackIsLive(u, AllThrown(t, between) + leaked, |s.mem.cells|);
    PushFuncMakes(s, n);
    ClosuresLast(t, between);
    StaysClosure(t.mem, u.mem, Ref(|s.mem.cells|), s.stack[|s.stack| - n..]);
    InvokeEnters(u, s.stack[|s.stack| - n..]);
  }

  lemma StaysClosure(m: Memory, n: Memory, v: Item, captures: seq<Item>)
    requires Later(m, n) && IsClosure(m, v, captures) && v.at < |n.cells| && n.cells[v.at].Live?
    ensures IsClosure(n, v, captures)
  {}
}
