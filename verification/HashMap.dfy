/** The open-addressing hash map of the virtual machine: linear probing, growth at load 0.7 and
    deletion by backward shift, in place. Keys are ints, bools and strings. */
module HashMap {
  import opened Bytes
  import opened Values

  /** A string without zero bytes: only on these is strcmp the equality of all bytes. */
  type CText = t: seq<byte> | 0 !in t witness []

  datatype Key = KInt(n: int64) | KBool(b: bool) | KStr(text: CText)

  /** A slot with is_used false or true. */
  datatype Entry = Free | Used(key: Key, value: Value)

  // ----- hashing -----

  function FnvStep(h: bv32, b: byte): bv32 {
    (h ^ (b as bv32)) * 16777619
  }

  /** FNV-1a from hash h on. */
  function Fnv(text: seq<byte>, h: bv32): bv32 {
    if text == [] then h else Fnv(text[1..], FnvStep(h, text[0]))
  }

  function Hash(k: Key): (h: nat)
    ensures h < 0x1_0000_0000
  {
    match k
    case KInt(n) => n % 0x1_0000_0000
    case KBool(b) => if b then 1 else 0
    case KStr(text) => Fnv(text, 2166136261) as nat
  }

  /** hash_value. */
  method HashValue(k: Key) returns (h: nat)
    ensures h == Hash(k)
  {
    hide FnvStep;
    match k
    case KInt(n) => h := n % 0x1_0000_0000;
    case KBool(b) => h := if b then 1 else 0;
    case KStr(text) =>
      var hash: bv32 := 2166136261;
      for i := 0 to |text|
        invariant Fnv(text[i..], hash) == Fnv(text, 2166136261)
      {
        assert text[i..][0] == text[i] && text[i..][1..] == text[i + 1..];
        hash := FnvStep(hash, text[i]);
      }
      h := hash as nat;
  }

  /** values_equal on two strings: strcmp. */
  predicate SameText(a: seq<byte>, b: seq<byte>) {
    UpToNul(a) == UpToNul(b)
  }

  /** Strings without zero bytes are equal to values_equal exactly when they are the same, so that
      equal keys have equal hashes. */
  lemma TextsAgree(a: CText, b: CText)
    ensures SameText(a, b) <==> a == b
  {}

  lemma {:induction false} PrefixUpToNul(a: CText, rest: seq<byte>)
    ensures UpToNul(a + [0] + rest) == a
    decreases |a|
  {
    if a == [] {
      assert ([] + [0] + rest)[0] == 0;
    } else {
      assert a[0] in a && forall c | c in a[1..] :: c in a;
      assert (a + [0] + rest)[1..] == a[1..] + [0] + rest;
      PrefixUpToNul(a[1..], rest);
    }
  }

  /** With a zero byte they do not agree: every string equals, to values_equal, the longer ones that go
      on behind a zero byte, whose hash covers those bytes too. */
  lemma ZeroByteBreaksAgreement(a: CText, rest: seq<byte>)
    ensures SameText(a, a + [0] + rest) && a != a + [0] + rest
  {
    PrefixUpToNul(a, rest);
    assert |a + [0] + rest| > |a|;
  }

  /** A string is told apart from the zero-free strings if and only if it holds no zero byte itself. */
  lemma OnlyCTextsAgree(a: seq<byte>)
    ensures (forall b: CText :: SameText(a, b) <==> a == b) <==> 0 !in a
  {
    if 0 in a {
      var b: CText := UpToNul(a);
      assert SameText(a, b) && a != b;
    }
  }

  /** The empty string and char(0) are equal, but the search for them starts at different slots of a new
      map. */
  lemma EmptyAndCharZero()
    ensures SameText([], [0])
    ensures Fnv([], 2166136261) as nat % 8 == 5 && Fnv([0], 2166136261) as nat % 8 == 7
  {
    assert [0][1..] == [];
    assert FnvStep(2166136261, 0) == 84696351;
    assert Fnv([0], 2166136261) == 84696351;
  }

  // ----- cyclic distances -----

  /** How many steps lead from slot a forward to slot b of n slots. */
  function Steps(a: nat, b: nat, n: nat): nat
    requires a < n && b < n
  {
    if a <= b then b - a else b + n - a
  }

  /** The slot after i. */
  function After(i: nat, n: nat): (r: nat)
    requires i < n
    ensures r < n
  {
    (i + 1) % n
  }

  lemma AfterIs(i: nat, n: nat)
    requires i < n
    ensures After(i, n) == if i + 1 == n then 0 else i + 1
  {
    if i + 1 < n {
      SmallRemainder(i + 1, n);
    }
  }

  lemma SmallRemainder(a: nat, n: nat)
    requires a < n
    ensures a % n == a
  {}

  /** Slot s lies on the way from slot a up to, but not including, slot b. */
  predicate OnWay(a: nat, s: nat, b: nat, n: nat) {
    a < n && s < n && b < n && Steps(a, s, n) < Steps(a, b, n)
  }

  function Home(k: Key, n: nat): (h: nat)
    requires n > 0
    ensures h < n
  {
    Hash(k) % n
  }

  // ----- tables -----

  /** Every used slot is reached from its key's home through used slots only. */
  ghost predicate Reachable(es: seq<Entry>) {
    forall s, t :: 0 <= s < |es| && 0 <= t < |es| && es[s].Used? && OnWay(Home(es[s].key, |es|), t, s, |es|) ==> es[t].Used?
  }

  ghost predicate Distinct(es: seq<Entry>) {
    forall s, t :: 0 <= s < t < |es| && es[s].Used? && es[t].Used? ==> es[s].key != es[t].key
  }

  /** The used slots hold exactly the entries of the finite map m. */
  ghost predicate Holds(es: seq<Entry>, m: map<Key, Value>) {
    && (forall s :: 0 <= s < |es| && es[s].Used? ==> es[s].key in m && m[es[s].key] == es[s].value)
    && (forall k :: k in m ==> exists s :: 0 <= s < |es| && es[s].Used? && es[s].key == k)
  }

  ghost predicate Table(es: seq<Entry>, m: map<Key, Value>) {
    Reachable(es) && Distinct(es) && Holds(es, m)
  }

  // ----- how many slots are used -----

  function KeysOf(es: seq<Entry>): set<Key> {
    set s | 0 <= s < |es| && es[s].Used? :: es[s].key
  }

  function UsedSlots(es: seq<Entry>): nat {
    if es == [] then 0 else UsedSlots(es[..|es| - 1]) + (if es[|es| - 1].Used? then 1 else 0)
  }

  lemma {:induction false} UsedSlotsBound(es: seq<Entry>)
    ensures UsedSlots(es) <= |es|
    ensures UsedSlots(es) == |es| <==> forall s :: 0 <= s < |es| ==> es[s].Used?
    decreases |es|
  {
    if es != [] {
      UsedSlotsBound(es[..|es| - 1]);
      assert forall s :: 0 <= s < |es| - 1 ==> es[..|es| - 1][s] == es[s];
    }
  }

  lemma {:induction false} KeysCounted(es: seq<Entry>)
    requires Distinct(es)
    ensures |KeysOf(es)| == UsedSlots(es)
    decreases |es|
  {
    if es == [] {
      assert KeysOf(es) == {};
    } else {
      var init, last := es[..|es| - 1], es[|es| - 1];
      assert forall s :: 0 <= s < |init| ==> init[s] == es[s];
      KeysCounted(init);
      if last.Used? {
        assert KeysOf(es) == KeysOf(init) + {last.key};
        assert last.key !in KeysOf(init);
      } else {
        assert KeysOf(es) == KeysOf(init);
      }
    }
  }

  /** count is the number of used slots. */
  lemma CountIsUsed(es: seq<Entry>, m: map<Key, Value>)
    requires Distinct(es) && Holds(es, m)
    ensures |m| == UsedSlots(es) <= |es|
    ensures |m| < |es| <==> exists s :: 0 <= s < |es| && es[s].Free?
  {
    KeysCounted(es);
    UsedSlotsBound(es);
    assert KeysOf(es) == m.Keys;
  }

  // ----- probing -----

  lemma StepsAfter(a: nat, i: nat, n: nat)
    requires a < n && i < n
    ensures Steps(a, After(i, n), n) == (if After(i, n) == a then 0 else Steps(a, i, n) + 1)
    ensures After(i, n) == a <==> Steps(a, i, n) == n - 1
  {
    AfterIs(i, n);
  }

  lemma OneBeforeOther(a: nat, s: nat, t: nat, n: nat)
    requires a < n && s < n && t < n && s != t
    ensures OnWay(a, s, t, n) || OnWay(a, t, s, n)
  {}

  /** A free slot ends the search: a key not met on the way to it is not in the table. */
  lemma FreeEndsSearch(es: seq<Entry>, m: map<Key, Value>, k: Key, free: nat)
    requires Table(es, m) && free < |es| && es[free].Free?
    requires forall t :: 0 <= t < |es| && OnWay(Home(k, |es|), t, free, |es|) ==> es[t].Used? && es[t].key != k
    ensures k !in m
  {
    hide Home;
    forall s | 0 <= s < |es| && es[s].Used?
      ensures es[s].key != k
    {
      OneBeforeOther(Home(es[s].key, |es|), s, free, |es|);
    }
  }

  lemma FillFree(es: seq<Entry>, m: map<Key, Value>, k: Key, v: Value, free: nat)
    requires Table(es, m) && free < |es| && es[free].Free? && k !in m
    requires forall t :: 0 <= t < |es| && OnWay(Home(k, |es|), t, free, |es|) ==> es[t].Used?
    ensures Table(es[free := Used(k, v)], m[k := v])
  {
    var es' := es[free := Used(k, v)];
    var m' := m[k := v];
    forall x | x in m'
      ensures exists s :: 0 <= s < |es'| && es'[s].Used? && es'[s].key == x
    {
      if x == k {
        assert es'[free].key == x;
      } else {
        var s :| 0 <= s < |es| && es[s].Used? && es[s].key == x;
        assert es'[s].key == x;
      }
    }
  }

  lemma Overwrite(es: seq<Entry>, m: map<Key, Value>, at: nat, v: Value)
    requires Table(es, m) && at < |es| && es[at].Used?
    ensures Table(es[at := Used(es[at].key, v)], m[es[at].key := v])
  {
    var es' := es[at := Used(es[at].key, v)];
    forall x | x in m
      ensures exists s :: 0 <= s < |es'| && es'[s].Used? && es'[s].key == x
    {
      var s :| 0 <= s < |es| && es[s].Used? && es[s].key == x;
      assert es'[s].key == x;
    }
  }

  // ----- deletion -----

  /** Slot i is about to become free; j is the last slot that the deletion has looked at. Every
      entry is still reached when i counts as used, and the entries after i up to j do not need it. */
  ghost predicate Hole(es: seq<Entry>, m: map<Key, Value>, i: nat, j: nat) {
    && i < |es| && j < |es| && es[i].Used?
    && (forall s, t :: 0 <= s < |es| && 0 <= t < |es| && s != i && es[s].Used? && OnWay(Home(es[s].key, |es|), t, s, |es|) ==>
          es[t].Used?)
    && (forall s :: 0 <= s < |es| && s != i && es[s].Used? && Steps(i, s, |es|) <= Steps(i, j, |es|) ==>
          !OnWay(Home(es[s].key, |es|), i, s, |es|))
    && (forall s :: 0 <= s < |es| && Steps(i, s, |es|) <= Steps(i, j, |es|) ==> es[s].Used?)
    && Distinct(es[i := Free]) && Holds(es[i := Free], m)
  }

  lemma StartHole(es: seq<Entry>, m: map<Key, Value>, i: nat)
    requires Table(es, m) && i < |es| && es[i].Used?
    ensures Hole(es, m - {es[i].key}, i, i)
  {
    var es', m' := es[i := Free], m - {es[i].key};
    forall k | k in m'
      ensures exists s :: 0 <= s < |es'| && es'[s].Used? && es'[s].key == k
    {
      var s :| 0 <= s < |es| && es[s].Used? && es[s].key == k;
      assert es'[s].key == k;
    }
  }

  /** Slots between i and j, in the terms of the loop: k lies cyclically after i and not after j. */
  predicate Between(i: nat, k: nat, j: nat) {
    if i <= j then i < k <= j else i < k || k <= j
  }

  /** The test of the loop says exactly whether the entry at j, at home in k, does without slot i. */
  lemma BetweenMeans(i: nat, k: nat, j: nat, n: nat)
    requires i < n && k < n && j < n && i != j
    ensures Between(i, k, j) <==> !OnWay(k, i, j, n)
  {}

  /** The entry at j does not need slot i: it stays. */
  lemma SkipEntry(es: seq<Entry>, m: map<Key, Value>, i: nat, last: nat, j: nat)
    requires Hole(es, m, i, last) && j == After(last, |es|) && j != i && es[j].Used?
    requires Between(i, Home(es[j].key, |es|), j)
    ensures Hole(es, m, i, j)
  {
    hide Home;
    var n := |es|;
    StepsAfter(i, last, n);
    BetweenMeans(i, Home(es[j].key, n), j, n);
    forall s | 0 <= s < n && Steps(i, s, n) <= Steps(i, j, n)
      ensures s == j || Steps(i, s, n) <= Steps(i, last, n)
    {
    }
  }

  /** The entry at j needs slot i: it moves there, and slot j becomes the hole. */
  lemma MoveEntry(es: seq<Entry>, m: map<Key, Value>, i: nat, last: nat, j: nat)
    requires Hole(es, m, i, last) && j == After(last, |es|) && j != i && es[j].Used?
    requires !Between(i, Home(es[j].key, |es|), j)
    ensures Hole(es[i := es[j]], m, j, j)
  {
    hide Home;
    var n := |es|;
    var es' := es[i := es[j]];
    BetweenMeans(i, Home(es[j].key, n), j, n);
    MovedHolds(es, m, i, j);
  }

  lemma MovedHolds(es: seq<Entry>, m: map<Key, Value>, i: nat, j: nat)
    requires i < |es| && j < |es| && i != j && es[j].Used? && Distinct(es[i := Free]) && Holds(es[i := Free], m)
    ensures Distinct(es[i := es[j]][j := Free]) && Holds(es[i := es[j]][j := Free], m)
  {
    var before, after := es[i := Free], es[i := es[j]][j := Free];
    assert before[j] == es[j] && after[i] == es[j];
    forall s, t | 0 <= s < t < |after| && after[s].Used? && after[t].Used?
      ensures after[s].key != after[t].key
    {
      var s0, t0 := if s == i then j else s, if t == i then j else t;
      assert before[s0] == after[s] && before[t0] == after[t] && s0 != t0;
    }
    forall s | 0 <= s < |after| && after[s].Used?
      ensures after[s].key in m && m[after[s].key] == after[s].value
    {
      var s0 := if s == i then j else s;
      assert before[s0] == after[s];
    }
    forall k | k in m
      ensures exists s :: 0 <= s < |after| && after[s].Used? && after[s].key == k
    {
      var s :| 0 <= s < |before| && before[s].Used? && before[s].key == k;
      assert s == j ==> after[i].key == k;
      assert s != j ==> after[s].key == k;
    }
  }

  /** The slot after the last one looked at is free: the hole can be freed. */
  lemma CloseHole(es: seq<Entry>, m: map<Key, Value>, i: nat, last: nat)
    requires Hole(es, m, i, last) && es[After(last, |es|)].Free?
    ensures Table(es[i := Free], m)
  {
    hide Home;
    var n, f := |es|, After(last, |es|);
    StepsAfter(i, last, n);
    var es' := es[i := Free];
    forall s, t | 0 <= s < n && 0 <= t < n && es'[s].Used? && OnWay(Home(es'[s].key, n), t, s, n)
      ensures es'[t].Used?
    {
      assert es[s] == es'[s] && es[t].Used?;
      WayPassesFree(Home(es[s].key, n), i, last, s, n);
    }
  }

  /** A way that goes over slot i and beyond the slot last also goes over the slot after last. */
  lemma WayPassesFree(h: nat, i: nat, last: nat, s: nat, n: nat)
    requires h < n && i < n && last < n && s < n
    ensures OnWay(h, i, s, n) && Steps(i, last, n) < Steps(i, s, n) ==> s == After(last, n) || OnWay(h, After(last, n), s, n)
  {
    AfterIs(last, n);
  }

  // ----- growing -----

  /** The finite map of a table without repeated keys. */
  function Entries(es: seq<Entry>): map<Key, Value> {
    if es == [] then map[]
    else
      var last := es[|es| - 1];
      var before := Entries(es[..|es| - 1]);
      if last.Used? then before[last.key := last.value] else before
  }

  lemma {:induction false} EntriesHold(es: seq<Entry>)
    requires Distinct(es)
    ensures Holds(es, Entries(es))
    decreases |es|
  {
    if es != [] {
      var init, last := es[..|es| - 1], es[|es| - 1];
      assert forall s :: 0 <= s < |init| ==> init[s] == es[s];
      EntriesHold(init);
      forall k | k in Entries(es)
        ensures exists s :: 0 <= s < |es| && es[s].Used? && es[s].key == k
      {
        if last.Used? && last.key == k {
          assert es[|es| - 1].key == k;
        } else {
          var s :| 0 <= s < |init| && init[s].Used? && init[s].key == k;
          assert es[s].key == k;
        }
      }
    }
  }

  lemma HoldsOnce(es: seq<Entry>, a: map<Key, Value>, b: map<Key, Value>)
    requires Holds(es, a) && Holds(es, b)
    ensures a == b
  {
    forall k
      ensures k in a ==> k in b && a[k] == b[k]
      ensures k in b ==> k in a && a[k] == b[k]
    {
    }
  }

  /** The test count >= capacity * 0.7 in double precision, where 0.7 is stored as
      6305039478318694 / 2^53 and its product with a power of two is exact. */
  lemma LoadTest(count: nat, capacity: nat)
    requires capacity < 0x8000_0000
    ensures count * 0x20_0000_0000_0000 >= capacity * 6305039478318694 <==> 10 * count >= 7 * capacity
  {}

  /** 8 * 2^k for some k. */
  predicate IsCapacity(n: nat) {
    n == 8 || (n > 8 && n % 2 == 0 && IsCapacity(n / 2))
  }

  lemma {:induction false} CapacityBound(n: nat)
    requires IsCapacity(n)
    ensures n >= 8 && IsCapacity(2 * n)
  {
    assert (2 * n) / 2 == n;
  }

  // ----- the keys in slot order -----

  function SlotKeys(es: seq<Entry>): seq<Key> {
    if es == [] then []
    else SlotKeys(es[..|es| - 1]) + (if es[|es| - 1].Used? then [es[|es| - 1].key] else [])
  }

  /** Every key of the table occurs exactly once among them. */
  lemma {:induction false} SlotKeysOnce(es: seq<Entry>)
    requires Distinct(es)
    ensures |SlotKeys(es)| == UsedSlots(es)
    ensures forall k :: k in SlotKeys(es) <==> k in KeysOf(es)
    ensures forall i, j :: 0 <= i < j < |SlotKeys(es)| ==> SlotKeys(es)[i] != SlotKeys(es)[j]
    decreases |es|
  {
    if es != [] {
      var init, last := es[..|es| - 1], es[|es| - 1];
      assert forall s :: 0 <= s < |init| ==> init[s] == es[s];
      SlotKeysOnce(init);
      KeysGrow(es);
    }
  }

  lemma KeysGrow(es: seq<Entry>)
    requires es != [] && Distinct(es)
    ensures var init, last := es[..|es| - 1], es[|es| - 1];
      KeysOf(es) == KeysOf(init) + (if last.Used? then {last.key} else {}) && (last.Used? ==> last.key !in KeysOf(init))
  {
    assert forall s :: 0 <= s < |es| - 1 ==> es[..|es| - 1][s] == es[s];
  }

  // ----- the map object -----

  class ObjMap {
    var entries: array<Entry>
    var count: nat
    ghost var contents: map<Key, Value>

    /** The table holds the contents; once allocated it has 8 * 2^k slots, one of them free. */
    ghost predicate Valid()
      reads this, entries
    {
      && Table(entries[..], contents) && count == |contents|
      && (entries.Length > 0 ==> IsCapacity(entries.Length) && count < entries.Length)
    }

    /** allocate_map. */
    constructor ()
      ensures Valid() && fresh(entries) && contents == map[] && entries.Length == 8
    {
      entries := new Entry[8](_ => Free);
      count := 0;
      contents := map[];
      new;
      EmptyTable(entries[..], contents);
    }

    /** The probe loop of map_set, map_get and native_delete. */
    method Probe(key: Key) returns (index: nat, found: bool)
      requires Valid() && entries.Length > 0
      ensures index < entries.Length && found == entries[index].Used?
      ensures found ==> entries[index].key == key && key in contents && contents[key] == entries[index].value
      ensures !found ==> key !in contents
      ensures !found ==> forall t :: 0 <= t < entries.Length && OnWay(Home(key, entries.Length), t, index, entries.Length) ==>
                entries[t].Used?
    {
      hide Home, Table, Steps, OnWay, After;
      ghost var es, n := entries[..], entries.Length;
      TableParts(es, contents);
      CountIsUsed(es, contents);
      ghost var free :| 0 <= free < n && es[free].Free?;
      var hash := HashValue(key);
      index := hash % entries.Length;
      HomeIs(key, n);
      ghost var home := index;
      StepsFromSelf(home, free, n);
      while entries[index].Used?
        invariant 0 <= index < n && home == Home(key, n)
        invariant forall t :: 0 <= t < n && OnWay(home, t, index, n) ==> es[t].Used? && es[t].key != key
        invariant Steps(home, index, n) <= Steps(home, free, n)
        decreases Steps(index, free, n)
      {
        if entries[index].key == key {
          EntryIn(es, contents, index);
          return index, true;
        }
        CloserToFree(home, index, free, n);
        WayGrows(home, index, n);
        AfterDefinition(index, n);
        index := (index + 1) % entries.Length;
      }
      FreeEndsSearch(es, contents, key, index);
      found := false;
    }

    /** map_get; void for an absent key. */
    method Get(key: Key) returns (v: Value)
      requires Valid()
      ensures v == if key in contents then contents[key] else VVoid
    {
      if entries.Length == 0 {
        return VVoid;
      }
      var index, found := Probe(key);
      if found {
        v := entries[index].value;
      } else {
        v := VVoid;
      }
    }

    /** The load test of map_set. */
    predicate Full()
      reads this, entries
    {
      10 * count >= 7 * entries.Length
    }

    /** map_set: allocate, grow if full, then overwrite or insert. The calls that re-insert the old
        entries never grow again. */
    method Set(key: Key, value: Value)
      requires Valid()
      modifies this, entries
      ensures Valid() && contents == old(contents)[key := value]
      ensures entries == old(entries) || fresh(entries)
      ensures entries.Length > 0 && (old(entries.Length) > 0 && !old(Full()) ==> entries == old(entries))
      ensures count <= old(count) + 1
      decreases if entries.Length == 0 || Full() then 1 else 0
    {
      if entries.Length == 0 {
        entries := new Entry[8](_ => Free);
        EmptyTable(entries[..], contents);
      }
      if Full() {
        Grow();
      }
      CapacityBound(entries.Length);
      Insert(key, value);
    }

    /** The table is doubled and every old entry is set again. */
    method Grow()
      requires Valid() && entries.Length > 0 && Full()
      modifies this, entries
      ensures Valid() && contents == old(contents) && fresh(entries) && entries.Length == 2 * old(entries.Length)
      ensures !Full() && count == old(count)
      decreases 1, 0
    {
      hide Table, Entries, Distinct, Holds;
      CapacityBound(entries.Length);
      TableParts(entries[..], contents);
      var olds, n := entries, entries.Length;
      ghost var es := olds[..];
      entries := new Entry[2 * n](_ => Free);
      count := 0;
      contents := map[];
      EmptyTable(entries[..], contents);
      NoEntries(es[..0]);
      for i := 0 to n
        invariant Valid() && fresh(entries) && entries.Length == 2 * n && entries != olds && olds[..] == es
        invariant contents == Entries(es[..i]) && count <= i
      {
        assert es[..i + 1][..i] == es[..i];
        MoreEntries(es[..i + 1]);
        if olds[i].Used? {
          Set(olds[i].key, olds[i].value);
        }
      }
      assert es[..n] == es;
      EntriesHold(es);
      HoldsOnce(es, contents, old(contents));
    }

    /** The probe and the write of map_set, with room for one more entry. */
    method Insert(key: Key, value: Value)
      requires Valid() && entries.Length > 0 && count + 1 < entries.Length
      modifies this`count, this`contents, entries
      ensures Valid() && contents == old(contents)[key := value] && count <= old(count) + 1
    {
      var index, found := Probe(key);
      if found {
        Overwrite(entries[..], contents, index, value);
        entries[index] := Used(key, value);
      } else {
        FillFree(entries[..], contents, key, value, index);
        entries[index] := Used(key, value);
        count := count + 1;
      }
      contents := contents[key := value];
      assert entries[..] == old(entries[..])[index := Used(key, value)];
    }

    /** native_delete: the entries after the deleted one that need its slot move up. */
    method Delete(key: Key)
      requires Valid()
      modifies this, entries
      ensures Valid() && contents == old(contents) - {key} && entries == old(entries)
    {
      hide Reachable, Distinct, Hole;
      if entries.Length == 0 {
        assert contents - {key} == contents;
        return;
      }
      var index, found := Probe(key);
      if !found {
        assert contents - {key} == contents;
        return;
      }
      CountIsUsed(entries[..], contents);
      ghost var free :| 0 <= free < entries.Length && entries[free].Free?;
      StartHole(entries[..], contents, index);
      count := count - 1;
      contents := contents - {key};
      Shift(index, free);
    }

    /** The backward shift, from the slot of the deleted entry. */
    method Shift(index: nat, ghost free: nat)
      requires index < entries.Length && Hole(entries[..], contents, index, index) && count == |contents| < entries.Length
      requires free < entries.Length && entries[free].Free? && IsCapacity(entries.Length)
      modifies entries
      ensures Valid()
    {
      hide Hole, Table, Between;
      var i: nat, j: nat := index, index;
      ghost var n := entries.Length;
      while true
        invariant 0 <= i < n && 0 <= j < n && Hole(entries[..], contents, i, j) && entries[free].Free?
        decreases Steps(j, free, n)
      {
        ghost var es, last := entries[..], j;
        NextSlot(es, contents, i, j, free);
        j := (j + 1) % entries.Length;
        if entries[j].Free? {
          CloseHole(es, contents, i, last);
          entries[i] := Free;
          assert entries[..] == es[i := Free];
          return;
        }
        var hash := HashValue(entries[j].key);
        var k := hash % entries.Length;
        HomeIs(entries[j].key, n);
        if Between(i, k, j) {
          SkipEntry(es, contents, i, last, j);
        } else {
          MoveEntry(es, contents, i, last, j);
          entries[i] := entries[j];
          assert entries[..] == es[i := es[j]];
          i := j;
        }
      }
    }

    /** native_keys: the keys in the order of their slots. */
    method Keys() returns (keys: seq<Key>)
      requires Valid()
      ensures |keys| == |contents|
      ensures forall i, j :: 0 <= i < j < |keys| ==> keys[i] != keys[j]
      ensures forall k :: k in keys <==> k in contents
    {
      hide Distinct, Holds, Reachable, UsedSlots;
      keys := [];
      assert entries[..0] == [];
      for i := 0 to entries.Length
        invariant keys == SlotKeys(entries[..i])
      {
        assert entries[..i + 1][..i] == entries[..i];
        MoreSlotKeys(entries[..i + 1]);
        if entries[i].Used? {
          keys := keys + [entries[i].key];
        }
      }
      assert entries[..entries.Length] == entries[..];
      KeysAreContents(entries[..], contents);
    }
  }

  lemma MoreSlotKeys(es: seq<Entry>)
    requires es != []
    ensures SlotKeys(es) == SlotKeys(es[..|es| - 1]) + (if es[|es| - 1].Used? then [es[|es| - 1].key] else [])
  {}

  lemma KeysAreContents(es: seq<Entry>, m: map<Key, Value>)
    requires Table(es, m)
    ensures var keys := SlotKeys(es);
      && |keys| == |m| && (forall k :: k in keys <==> k in m)
      && forall i, j :: 0 <= i < j < |keys| ==> keys[i] != keys[j]
  {
    SlotKeysOnce(es);
    CountIsUsed(es, m);
    assert KeysOf(es) == m.Keys;
  }

  lemma TableParts(es: seq<Entry>, m: map<Key, Value>)
    requires Table(es, m)
    ensures Distinct(es) && Holds(es, m)
  {}

  lemma NoEntries(es: seq<Entry>)
    requires |es| == 0
    ensures Entries(es) == map[]
  {
    assert es == [];
  }

  lemma MoreEntries(es: seq<Entry>)
    requires es != []
    ensures var last, before := es[|es| - 1], Entries(es[..|es| - 1]);
      Entries(es) == if last.Used? then before[last.key := last.value] else before
  {}

  lemma EmptyTable(es: seq<Entry>, m: map<Key, Value>)
    requires (forall s :: 0 <= s < |es| ==> es[s].Free?) && m == map[]
    ensures Table(es, m)
  {}

  /** The next slot is not the hole again, and it is closer to a free one. */
  lemma NextSlot(es: seq<Entry>, m: map<Key, Value>, i: nat, j: nat, free: nat)
    requires Hole(es, m, i, j) && free < |es| && es[free].Free?
    ensures After(j, |es|) != i && Steps(After(j, |es|), free, |es|) < Steps(j, free, |es|) && free != i
  {
    hide Home, OnWay;
    StepsAfter(i, j, |es|);
    CloserToFree(j, j, free, |es|);
  }

  lemma HomeIs(k: Key, n: nat)
    requires n > 0
    ensures Home(k, n) == Hash(k) % n
  {}

  lemma AfterDefinition(i: nat, n: nat)
    requires i < n
    ensures After(i, n) == (i + 1) % n
  {}

  lemma StepsFromSelf(a: nat, b: nat, n: nat)
    requires a < n && b < n
    ensures Steps(a, a, n) == 0 <= Steps(a, b, n) && forall t: nat :: !OnWay(a, t, a, n)
  {}

  lemma WayGrows(home: nat, index: nat, n: nat)
    requires home < n && index < n && Steps(home, After(index, n), n) == Steps(home, index, n) + 1
    ensures forall t: nat :: OnWay(home, t, After(index, n), n) ==> t == index || OnWay(home, t, index, n)
  {
    hide After;
  }

  lemma EntryIn(es: seq<Entry>, m: map<Key, Value>, s: nat)
    requires Table(es, m) && s < |es| && es[s].Used?
    ensures es[s].key in m && m[es[s].key] == es[s].value
  {}

  lemma CloserToFree(home: nat, index: nat, free: nat, n: nat)
    requires home < n && index < n && free < n && index != free && Steps(home, index, n) <= Steps(home, free, n)
    ensures Steps(home, After(index, n), n) <= Steps(home, free, n)
    ensures Steps(After(index, n), free, n) < Steps(index, free, n)
    ensures Steps(home, After(index, n), n) == Steps(home, index, n) + 1
  {
    AfterIs(index, n);
  }
}
