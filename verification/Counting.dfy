/** Reference counting on the heap: retain, release and the cascade of free_object. */
module Counting {
  import opened Bytes

  /** A value of the virtual machine: the kinds without a heap object, and a reference to one. */
  datatype Item = Void | Int(n: int64) | Bool(b: bool) | Ref(at: nat)

  datatype Entry = Entry(key: Item, value: Item)

  /** The heap objects. A map keeps its used entries; where in the table they lie does not matter here. */
  datatype Object =
    | Text(text: seq<byte>)
    | List(items: seq<Item>)
    | Dict(entries: seq<Entry>, capacity: nat)
    | Closure(captures: seq<Item>)

  /** Each allocation takes a new cell, so a freed object stays recognizable. */
  datatype Cell = Live(count: int, obj: Object) | Freed

  /** The heap. ok turns false when a freed object is retained or released, or a count drops below zero. */
  datatype Memory = Memory(cells: seq<Cell>, ok: bool)

  function EntryParts(entries: seq<Entry>): seq<Item> {
    if entries == [] then [] else [entries[0].key, entries[0].value] + EntryParts(entries[1..])
  }

  /** What an object owns, in the order free_object releases it. */
  function Parts(o: Object): seq<Item> {
    match o
    case Text(_) => []
    case List(items) => items
    case Dict(entries, _) => EntryParts(entries)
    case Closure(captures) => captures
  }

  function CellParts(c: Cell): seq<Item> {
    match c
    case Live(_, o) => Parts(o)
    case Freed => []
  }

  // ----- the operations -----

  function CellWeight(c: Cell): nat {
    if c.Live? && c.count > 0 then c.count else 0
  }

  /** The sum of all counts: each release takes one off it. */
  function Weight(cells: seq<Cell>): nat {
    if cells == [] then 0 else CellWeight(cells[0]) + Weight(cells[1..])
  }

  lemma {:induction false} WeightUpdate(cells: seq<Cell>, i: nat, c: Cell)
    requires i < |cells|
    ensures Weight(cells[i := c]) == Weight(cells) - CellWeight(cells[i]) + CellWeight(c)
  {
    if i == 0 {
      assert cells[0 := c][1..] == cells[1..];
    } else {
      assert cells[i := c][1..] == cells[1..][i - 1 := c];
      WeightUpdate(cells[1..], i - 1, c);
    }
  }

  function Retain(m: Memory, v: Item): Memory {
    if !v.Ref? then m
    else if v.at >= |m.cells| || m.cells[v.at].Freed? then m.(ok := false)
    else
      var c := m.cells[v.at];
      m.(cells := m.cells[v.at := c.(count := c.count + 1)])
  }

  function Release(m: Memory, v: Item): (r: Memory)
    ensures |r.cells| == |m.cells| && Weight(r.cells) <= Weight(m.cells)
    decreases Weight(m.cells), 0
  {
    if !v.Ref? then m
    else if v.at >= |m.cells| || m.cells[v.at].Freed? || m.cells[v.at].count <= 0 then m.(ok := false)
    else
      var c := m.cells[v.at];
      WeightUpdate(m.cells, v.at, c.(count := c.count - 1));
      WeightUpdate(m.cells, v.at, Freed);
      if c.count > 1 then m.(cells := m.cells[v.at := c.(count := c.count - 1)])
      else ReleaseAll(m.(cells := m.cells[v.at := Freed]), Parts(c.obj))
  }

  function ReleaseAll(m: Memory, vs: seq<Item>): (r: Memory)
    ensures |r.cells| == |m.cells| && Weight(r.cells) <= Weight(m.cells)
    decreases Weight(m.cells), |vs|
  {
    if vs == [] then m else ReleaseAll(Release(m, vs[0]), vs[1..])
  }

  /** An allocation: the object starts with no owner. */
  function New(m: Memory, o: Object): Memory {
    m.(cells := m.cells + [Live(0, o)])
  }

  // ----- owners -----

  /** How often r occurs among items. */
  function Times(items: seq<Item>, r: nat): nat {
    if items == [] then 0 else (if items[0] == Ref(r) then 1 else 0) + Times(items[1..], r)
  }

  /** How often r occurs in live objects. */
  function Owned(cells: seq<Cell>, r: nat): nat {
    if cells == [] then 0 else Times(CellParts(cells[0]), r) + Owned(cells[1..], r)
  }

  function CountOf(cells: seq<Cell>, r: nat): int {
    if r < |cells| && cells[r].Live? then cells[r].count else 0
  }

  /** The count of every object is the number of its owners: held items and parts of live objects. */
  ghost predicate Exact(cells: seq<Cell>, held: seq<Item>) {
    forall r: nat :: CountOf(cells, r) == Owned(cells, r) + Times(held, r)
  }

  /** A live object has an owner: what nothing refers to has been freed. */
  predicate Tight(cells: seq<Cell>) {
    forall i | 0 <= i < |cells| :: cells[i].Live? ==> cells[i].count > 0
  }

  ghost predicate Sound(m: Memory, held: seq<Item>) {
    m.ok && Exact(m.cells, held) && Tight(m.cells)
  }

  lemma {:induction false} TimesAppend(a: seq<Item>, b: seq<Item>, r: nat)
    ensures Times(a + b, r) == Times(a, r) + Times(b, r)
  {
    if a == [] {
      assert a + b == b;
    } else {
      assert (a + b)[1..] == a[1..] + b;
      TimesAppend(a[1..], b, r);
    }
  }

  lemma TimesOne(v: Item, r: nat)
    ensures Times([v], r) == if v == Ref(r) then 1 else 0
  {}

  lemma {:induction false} TimesUpdate(s: seq<Item>, i: nat, v: Item, r: nat)
    requires i < |s|
    ensures Times(s[i := v], r) + Times([s[i]], r) == Times(s, r) + Times([v], r)
  {
    if i == 0 {
      assert s[0 := v][1..] == s[1..];
    } else {
      assert s[i := v][1..] == s[1..][i - 1 := v];
      TimesUpdate(s[1..], i - 1, v, r);
    }
  }

  lemma {:induction false} TimesIn(s: seq<Item>, i: nat, r: nat)
    requires i < |s| && s[i] == Ref(r)
    ensures Times(s, r) >= 1
  {
    if i > 0 {
      TimesIn(s[1..], i - 1, r);
    }
  }

  lemma {:induction false} OwnedUpdate(cells: seq<Cell>, i: nat, c: Cell, r: nat)
    requires i < |cells|
    ensures Owned(cells[i := c], r) + Times(CellParts(cells[i]), r) == Owned(cells, r) + Times(CellParts(c), r)
  {
    if i == 0 {
      assert cells[0 := c][1..] == cells[1..];
    } else {
      assert cells[i := c][1..] == cells[1..][i - 1 := c];
      OwnedUpdate(cells[1..], i - 1, c, r);
    }
  }

  lemma {:induction false} OwnedAppend(cells: seq<Cell>, c: Cell, r: nat)
    ensures Owned(cells + [c], r) == Owned(cells, r) + Times(CellParts(c), r)
  {
    if cells == [] {
      assert cells + [c] == [c];
      assert [c][1..] == [];
    } else {
      assert (cells + [c])[1..] == cells[1..] + [c];
      OwnedAppend(cells[1..], c, r);
    }
  }

  lemma {:induction false} OwnedIn(cells: seq<Cell>, i: nat, r: nat)
    requires i < |cells|
    ensures Owned(cells, r) >= Times(CellParts(cells[i]), r)
  {
    if i > 0 {
      OwnedIn(cells[1..], i - 1, r);
    }
  }

  /** An object with an owner is live. */
  lemma OwnersAreLive(cells: seq<Cell>, held: seq<Item>, r: nat)
    requires Exact(cells, held) && Owned(cells, r) + Times(held, r) > 0
    ensures r < |cells| && cells[r].Live? && cells[r].count > 0
  {
    assert CountOf(cells, r) > 0;
  }

  /** Only how often an object is held matters. */
  lemma Reorder(m: Memory, held: seq<Item>, other: seq<Item>)
    requires Sound(m, held) && forall r: nat :: Times(held, r) == Times(other, r)
    ensures Sound(m, other)
  {}

  // ----- retain, release and allocation keep the counts exact -----

  lemma RetainIsExact(m: Memory, v: Item, held: seq<Item>)
    requires Sound(m, held) && (v.Ref? ==> CountOf(m.cells, v.at) > 0)
    ensures Sound(Retain(m, v), [v] + held)
  {
    var w := Retain(m, v);
    forall r: nat
      ensures CountOf(w.cells, r) == Owned(w.cells, r) + Times([v] + held, r)
    {
      TimesAppend([v], held, r);
      TimesOne(v, r);
      assert CountOf(m.cells, r) == Owned(m.cells, r) + Times(held, r);
      if v.Ref? {
        OwnedUpdate(m.cells, v.at, w.cells[v.at], r);
      }
    }
  }

  lemma DecrementIsExact(m: Memory, x: nat, held: seq<Item>)
    requires Sound(m, [Ref(x)] + held)
    requires x < |m.cells| && m.cells[x].Live? && m.cells[x].count > 1
    ensures Sound(m.(cells := m.cells[x := m.cells[x].(count := m.cells[x].count - 1)]), held)
  {
    var cells := m.cells[x := m.cells[x].(count := m.cells[x].count - 1)];
    forall r: nat
      ensures CountOf(cells, r) == Owned(cells, r) + Times(held, r)
    {
      TimesAppend([Ref(x)], held, r);
      TimesOne(Ref(x), r);
      assert CountOf(m.cells, r) == Owned(m.cells, r) + Times([Ref(x)] + held, r);
      OwnedUpdate(m.cells, x, cells[x], r);
    }
  }

  /** Freeing an object hands what it owned to the loop that releases it. */
  lemma FreeIsExact(m: Memory, x: nat, held: seq<Item>)
    requires Sound(m, [Ref(x)] + held)
    requires x < |m.cells| && m.cells[x].Live? && m.cells[x].count == 1
    ensures Sound(m.(cells := m.cells[x := Freed]), Parts(m.cells[x].obj) + held)
  {
    var cells := m.cells[x := Freed];
    var parts := Parts(m.cells[x].obj);
    forall r: nat
      ensures CountOf(cells, r) == Owned(cells, r) + Times(parts + held, r)
    {
      TimesAppend([Ref(x)], held, r);
      TimesAppend(parts, held, r);
      TimesOne(Ref(x), r);
      assert CountOf(m.cells, r) == Owned(m.cells, r) + Times([Ref(x)] + held, r);
      OwnedUpdate(m.cells, x, Freed, r);
      assert Times(CellParts(Freed), r) == 0;
    }
  }

  lemma DropVoid(m: Memory, v: Item, held: seq<Item>)
    requires Sound(m, [v] + held) && !v.Ref?
    ensures Sound(m, held)
  {
    forall r: nat
      ensures Times([v] + held, r) == Times(held, r)
    {
      TimesAppend([v], held, r);
      TimesOne(v, r);
    }
    Reorder(m, [v] + held, held);
  }

  /** A release by an owner frees only what has no owner left, each object once, and keeps the counts exact. */
  lemma {:induction false} ReleaseIsExact(m: Memory, v: Item, held: seq<Item>)
    requires Sound(m, [v] + held)
    ensures Sound(Release(m, v), held)
    decreases Weight(m.cells), 0
  {
    hide Exact, Tight;
    if v.Ref? {
      HeldIsLive(m, v.at, held);
      var c := m.cells[v.at];
      if c.count > 1 {
        DecrementIsExact(m, v.at, held);
      } else {
        WeightUpdate(m.cells, v.at, Freed);
        FreeIsExact(m, v.at, held);
        ReleaseAllIsExact(m.(cells := m.cells[v.at := Freed]), Parts(c.obj), held);
      }
    } else {
      DropVoid(m, v, held);
    }
  }

  lemma HeldIsLive(m: Memory, x: nat, held: seq<Item>)
    requires Sound(m, [Ref(x)] + held)
    ensures x < |m.cells| && m.cells[x].Live? && m.cells[x].count > 0
  {
    TimesIn([Ref(x)] + held, 0, x);
    OwnersAreLive(m.cells, [Ref(x)] + held, x);
  }

  lemma {:induction false} ReleaseAllIsExact(m: Memory, vs: seq<Item>, held: seq<Item>)
    requires Sound(m, vs + held)
    ensures Sound(ReleaseAll(m, vs), held)
    decreases Weight(m.cells), |vs|
  {
    hide Sound;
    if vs == [] {
      assert vs + held == held;
    } else {
      assert vs + held == [vs[0]] + (vs[1..] + held);
      ReleaseIsExact(m, vs[0], vs[1..] + held);
      ReleaseAllIsExact(Release(m, vs[0]), vs[1..], held);
    }
  }

  /** A new object takes over its parts; its one owner is who retains it. */
  lemma NewIsExact(m: Memory, o: Object, held: seq<Item>)
    requires Sound(m, Parts(o) + held)
    ensures Sound(Retain(New(m, o), Ref(|m.cells|)), [Ref(|m.cells|)] + held)
  {
    var x := |m.cells|;
    var w := Retain(New(m, o), Ref(x));
    assert w.cells == m.cells + [Live(1, o)];
    forall r: nat
      ensures CountOf(w.cells, r) == Owned(w.cells, r) + Times([Ref(x)] + held, r)
    {
      assert CountOf(m.cells, r) == Owned(m.cells, r) + Times(Parts(o) + held, r);
      TimesAppend(Parts(o), held, r);
      TimesAppend([Ref(x)], held, r);
      TimesOne(Ref(x), r);
      OwnedAppend(m.cells, Live(1, o), r);
    }
  }

  // ----- overwriting a part of a live object -----

  /** The object in cell x changes, its count stays. */
  function Put(m: Memory, x: nat, o: Object): Memory
    requires x < |m.cells| && m.cells[x].Live?
  {
    m.(cells := m.cells[x := m.cells[x].(obj := o)])
  }

  lemma {:induction false} FreedStays(m: Memory, v: Item, x: nat)
    requires x < |m.cells| && m.cells[x].Freed?
    ensures Release(m, v).cells[x].Freed?
    decreases Weight(m.cells), 0
  {
    if v.Ref? && v.at < |m.cells| && m.cells[v.at].Live? && m.cells[v.at].count == 1 {
      WeightUpdate(m.cells, v.at, Freed);
      AllFreedStays(m.(cells := m.cells[v.at := Freed]), Parts(m.cells[v.at].obj), x);
    }
  }

  lemma {:induction false} AllFreedStays(m: Memory, vs: seq<Item>, x: nat)
    requires x < |m.cells| && m.cells[x].Freed?
    ensures ReleaseAll(m, vs).cells[x].Freed?
    decreases Weight(m.cells), |vs|
  {
    if vs != [] {
      FreedStays(m, vs[0], x);
      AllFreedStays(Release(m, vs[0]), vs[1..], x);
    }
  }

  /** As long as object x stays live, a cascade does not look at what x owns. */
  lemma {:induction false} ReleaseAroundPut(m: Memory, v: Item, x: nat, o: Object)
    requires x < |m.cells| && m.cells[x].Live?
    requires Release(Put(m, x, o), v).cells[x].Live?
    ensures Release(m, v).cells[x].Live? && Put(Release(m, v), x, o) == Release(Put(m, x, o), v)
    decreases Weight(m.cells), 0
  {
    var p := Put(m, x, o);
    if v.Ref? && v.at < |m.cells| && m.cells[v.at].Live? && m.cells[v.at].count > 0 {
      if m.cells[v.at].count > 1 {
        var c, d := m.cells[v.at], p.cells[v.at];
        assert m.cells[v.at := c.(count := c.count - 1)][x := m.cells[v.at := c.(count := c.count - 1)][x].(obj := o)]
            == p.cells[v.at := d.(count := d.count - 1)];
      } else {
        WeightUpdate(m.cells, v.at, Freed);
        var after := p.(cells := p.cells[v.at := Freed]);
        if v.at == x {
          AllFreedStays(after, Parts(p.cells[v.at].obj), x);
        }
        assert v.at != x;
        var next := m.(cells := m.cells[v.at := Freed]);
        assert Put(next, x, o) == after;
        ReleaseAllAroundPut(next, Parts(m.cells[v.at].obj), x, o);
      }
    }
  }

  lemma {:induction false} ReleaseAllAroundPut(m: Memory, vs: seq<Item>, x: nat, o: Object)
    requires x < |m.cells| && m.cells[x].Live?
    requires ReleaseAll(Put(m, x, o), vs).cells[x].Live?
    ensures ReleaseAll(m, vs).cells[x].Live? && Put(ReleaseAll(m, vs), x, o) == ReleaseAll(Put(m, x, o), vs)
    decreases Weight(m.cells), |vs|
  {
    if vs != [] {
      var p := Put(m, x, o);
      if Release(p, vs[0]).cells[x].Freed? {
        AllFreedStays(Release(p, vs[0]), vs[1..], x);
      }
      ReleaseAroundPut(m, vs[0], x, o);
      ReleaseAllAroundPut(Release(m, vs[0]), vs[1..], x, o);
    }
  }

  /** An assignment to a part of object x, as vm_run does it: release what was there, retain what
      comes, then write. While the release runs, x still holds the old part. */
  function Overwrite(m: Memory, x: nat, o: Object, was: Item, comes: Item): Memory {
    var released := Retain(Release(m, was), comes);
    if x < |released.cells| && released.cells[x].Live? then Put(released, x, o) else released.(ok := false)
  }

  lemma TakeOutIsExact(m: Memory, x: nat, o: Object, was: Item, held: seq<Item>)
    requires Sound(m, held) && x < |m.cells| && m.cells[x].Live?
    requires forall r: nat :: Times(Parts(m.cells[x].obj), r) == Times(Parts(o), r) + Times([was], r)
    ensures Sound(Put(m, x, o), [was] + held)
  {
    var w := Put(m, x, o);
    forall r: nat
      ensures CountOf(w.cells, r) == Owned(w.cells, r) + Times([was] + held, r)
    {
      assert CountOf(m.cells, r) == Owned(m.cells, r) + Times(held, r);
      TimesAppend([was], held, r);
      OwnedUpdate(m.cells, x, w.cells[x], r);
    }
  }

  lemma PutInIsExact(m: Memory, x: nat, o: Object, comes: Item, held: seq<Item>)
    requires Sound(m, [comes] + held) && x < |m.cells| && m.cells[x].Live?
    requires forall r: nat :: Times(Parts(o), r) == Times(Parts(m.cells[x].obj), r) + Times([comes], r)
    ensures Sound(Put(m, x, o), held)
  {
    var w := Put(m, x, o);
    forall r: nat
      ensures CountOf(w.cells, r) == Owned(w.cells, r) + Times(held, r)
    {
      assert CountOf(m.cells, r) == Owned(m.cells, r) + Times([comes] + held, r);
      TimesAppend([comes], held, r);
      OwnedUpdate(m.cells, x, w.cells[x], r);
    }
  }

  lemma PutPut(m: Memory, x: nat, o: Object, p: Object)
    requires x < |m.cells| && m.cells[x].Live?
    ensures Put(Put(m, x, o), x, p) == Put(m, x, p)
  {}

  lemma RetainAroundPut(m: Memory, v: Item, x: nat, o: Object)
    requires x < |m.cells| && m.cells[x].Live?
    ensures Retain(m, v).cells[x].Live? && Put(Retain(m, v), x, o) == Retain(Put(m, x, o), v)
  {
    if v.Ref? && v.at < |m.cells| && m.cells[v.at].Live? {
      assert Put(Retain(m, v), x, o).cells == Retain(Put(m, x, o), v).cells;
    }
  }

  /** Overwriting a part keeps the counts exact, whatever the release of the old part sets off, as long
      as somebody holds the object and the new part. less is the object without the old part. */
  lemma OverwriteIsExact(m: Memory, x: nat, less: Object, o: Object, was: Item, comes: Item, held: seq<Item>)
    requires Sound(m, held) && Times(held, x) > 0 && (comes.Ref? ==> Times(held, comes.at) > 0)
    requires x < |m.cells| && m.cells[x].Live?
    requires forall r: nat :: Times(Parts(m.cells[x].obj), r) == Times(Parts(less), r) + Times([was], r)
    requires forall r: nat :: Times(Parts(o), r) == Times(Parts(less), r) + Times([comes], r)
    ensures Sound(Overwrite(m, x, o, was, comes), held)
    ensures x < |Overwrite(m, x, o, was, comes).cells| && Overwrite(m, x, o, was, comes).cells[x].Live?
  {
    TakeOutIsExact(m, x, less, was, held);
    var out := Put(m, x, less);
    ReleaseIsExact(out, was, held);
    var released := Release(out, was);
    OwnersAreLive(released.cells, held, x);
    if comes.Ref? {
      OwnersAreLive(released.cells, held, comes.at);
    }
    ReleaseAroundPut(m, was, x, less);
    RetainIsExact(released, comes, held);
    RetainAroundPut(Release(m, was), comes, x, less);
    var kept := Retain(Release(m, was), comes);
    PutInIsExact(Put(kept, x, less), x, o, comes, held);
    PutPut(kept, x, less, o);
  }
}
