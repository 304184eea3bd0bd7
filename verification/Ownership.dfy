/** Who owns what while vm_run works: the operand stack, the locals and the C variables of the running
    instruction. Every instruction of the model keeps the reference counts exact. */
module Ownership {
  import opened Bytes
  import opened Counting
  import Values

  const STACK_MAX := 256
  const SLOTS := 48
  const FRAMES_MAX := 64
  const TRIES_MAX := 16

  datatype Try = Try(depth: nat, frames: nat)

  /** The data of the VM; frames holds the locals_offset of each frame. stopped: the process has exited. */
  datatype Vm = Vm(mem: Memory, stack: seq<Item>, locals: seq<Item>, frames: seq<nat>, tries: seq<Try>, stopped: bool)

  datatype Instr =
    | PushInt(n: int64) | PushBool(b: bool) | PushStr(text: seq<byte>)
    | Add | Div | Equal
    | Load(slot: nat) | LoadGlobal(slot: nat) | Store(slot: nat) | Pop
    | MakeArray(size: nat) | MakeMap(size: nat) | Index | SetIndex
    | PushFunc(captures: nat) | Call | Invoke | Ret
    | BeginTry | EndTry | Throw

  // ----- the pieces of an instruction -----

  function Stop(s: Vm): Vm {
    s.(stopped := true)
  }

  function Push(s: Vm, v: Item): Vm {
    if s.stopped then s
    else if |s.stack| >= STACK_MAX then Stop(s)
    else s.(mem := Retain(s.mem, v), stack := s.stack + [v])
  }

  /** vm_pop: the reference moves from the stack to a C variable. */
  function PopItem(s: Vm): (r: (Vm, Item))
    ensures |r.0.stack| <= |s.stack|
  {
    if s.stopped then (s, Void)
    else if s.stack == [] then (Stop(s), Void)
    else (s.(stack := s.stack[..|s.stack| - 1]), s.stack[|s.stack| - 1])
  }

  function Drop(s: Vm, v: Item): Vm {
    if s.stopped then s else s.(mem := Release(s.mem, v))
  }

  function Keep(s: Vm, v: Item): Vm {
    if s.stopped then s else s.(mem := Retain(s.mem, v))
  }

  /** An allocation and the retain that follows it, the new object going into a C variable. */
  function Allocate(s: Vm, o: Object): Vm {
    if s.stopped then s else s.(mem := Retain(New(s.mem, o), Ref(|s.mem.cells|)))
  }

  /** An allocation that vm_push retains. */
  function PushNew(s: Vm, o: Object): Vm {
    if s.stopped then s
    else if |s.stack| >= STACK_MAX then Stop(s)
    else Allocate(s, o).(stack := s.stack + [Ref(|s.mem.cells|)])
  }

  /** release(vm->locals[j]); vm->locals[j] = v. */
  function SetLocal(s: Vm, j: nat, v: Item): Vm {
    if s.stopped || j >= |s.locals| then s
    else s.(mem := Release(s.mem, s.locals[j]), locals := s.locals[j := v])
  }

  /** The loop that empties the slots of a frame, from slot i on. */
  function ClearSlots(s: Vm, offset: nat, i: nat): Vm
    requires i <= SLOTS
    decreases SLOTS - i
  {
    if i == SLOTS then s else ClearSlots(SetLocal(s, offset + i, Void), offset, i + 1)
  }

  function PopFrame(s: Vm): Vm {
    if s.stopped || s.frames == [] then s
    else ClearSlots(s.(frames := s.frames[..|s.frames| - 1]), s.frames[|s.frames| - 1], 0)
  }

  lemma {:induction false} ClearSlotsKeepsFrames(s: Vm, offset: nat, i: nat)
    requires i <= SLOTS
    ensures ClearSlots(s, offset, i).frames == s.frames && ClearSlots(s, offset, i).stopped == s.stopped
    decreases SLOTS - i
  {
    hide Release;
    if i < SLOTS {
      ClearSlotsKeepsFrames(SetLocal(s, offset + i, Void), offset, i + 1);
    }
  }

  function CutStack(s: Vm, depth: nat): Vm
    decreases |s.stack|
  {
    if s.stopped || |s.stack| <= depth then s
    else var (t, v) := PopItem(s); CutStack(Drop(t, v), depth)
  }

  function CutFrames(s: Vm, n: nat): Vm
    decreases |s.frames|
  {
    if s.stopped || |s.frames| <= n then s
    else
      ClearSlotsKeepsFrames(s.(frames := s.frames[..|s.frames| - 1]), s.frames[|s.frames| - 1], 0);
      CutFrames(PopFrame(s), n)
  }

  function Unwind(s: Vm, t: Try): Vm {
    CutFrames(CutStack(s, t.depth), t.frames)
  }

  /** runtime_error. */
  function Raise(s: Vm, text: seq<byte>): Vm {
    if s.stopped then s
    else if s.tries == [] then Stop(s)
    else
      var e := Ref(|s.mem.cells|);
      var t := s.tries[|s.tries| - 1];
      var u := Unwind(Allocate(s, Text(text)).(tries := s.tries[..|s.tries| - 1]), t);
      Drop(Push(u, e), e)
  }

  /** The copy of the captures into the slots of a new frame, from capture i on. */
  function CopyIn(s: Vm, offset: nat, captures: seq<Item>, i: nat): Vm
    requires i <= |captures|
    decreases |captures| - i
  {
    if i == |captures| || s.stopped || offset + i >= |s.locals| then s
    else CopyIn(s.(mem := Retain(s.mem, captures[i]), locals := s.locals[offset + i := captures[i]]), offset, captures, i + 1)
  }

  const FRAME_OVERFLOW: seq<byte> := []

  /** begin_call. */
  function BeginCall(s: Vm, captures: seq<Item>): Vm {
    if s.stopped then s
    else if |s.frames| >= FRAMES_MAX then Raise(s, FRAME_OVERFLOW)
    else CopyIn(s.(frames := s.frames + [SLOTS * |s.frames|]), SLOTS * |s.frames|, captures, 0)
  }

  /** Pops n items; the deepest comes first. */
  function PopItems(s: Vm, n: nat): (Vm, seq<Item>)
    decreases n
  {
    if n == 0 then (s, [])
    else
      var (t, v) := PopItem(s);
      var (u, rest) := PopItems(t, n - 1);
      (u, rest + [v])
  }

  // ----- looking into objects -----

  /** The object of a reference that is live, and an empty text for anything else. */
  function At(m: Memory, v: Item): Object {
    if v.Ref? && v.at < |m.cells| && m.cells[v.at].Live? then m.cells[v.at].obj else Text([])
  }

  predicate IsText(m: Memory, v: Item) {
    v.Ref? && At(m, v).Text?
  }

  /** values_equal. */
  predicate Same(m: Memory, a: Item, b: Item) {
    if a.Ref? && b.Ref? then
      match (At(m, a), At(m, b))
      case (Text(x), Text(y)) => UpToNul(x) == UpToNul(y)
      case (List(_), List(_)) => a.at == b.at
      case _ => false
    else !a.Void? && a == b
  }

  /** The entry with this key, or the number of entries. */
  function Find(m: Memory, entries: seq<Entry>, key: Item): (i: nat)
    ensures i <= |entries|
    decreases |entries|
  {
    if entries == [] || Same(m, entries[0].key, key) then 0 else 1 + Find(m, entries[1..], key)
  }

  /** A 64-bit value cast to int. */
  function ToInt32(n: int): int {
    (n + 0x8000_0000) % 0x1_0000_0000 - 0x8000_0000
  }

  // ----- maps -----

  predicate MustGrow(entries: seq<Entry>, capacity: nat) {
    10 * |entries| >= 7 * capacity
  }

  /** The resize loop: each entry is set in the new table, which retains it, and released from the old. */
  function Rehash(m: Memory, entries: seq<Entry>): Memory
    decreases |entries|
  {
    if entries == [] then m
    else
      var e := entries[0];
      Rehash(Release(Release(Retain(Retain(m, e.key), e.value), e.key), e.value), entries[1..])
  }

  function Grown(entries: seq<Entry>, capacity: nat): nat {
    if MustGrow(entries, capacity) then 2 * capacity else capacity
  }

  function AfterGrowth(m: Memory, entries: seq<Entry>, capacity: nat): Memory {
    if MustGrow(entries, capacity) then Rehash(m, entries) else m
  }

  /** map_set on a map that OP_MAP is filling and nothing refers to yet. */
  function SetYoung(s: Vm, entries: seq<Entry>, capacity: nat, key: Item, value: Item): (Vm, seq<Entry>) {
    if s.stopped then (s, entries)
    else
      var m := AfterGrowth(s.mem, entries, capacity);
      var i := Find(m, entries, key);
      if i < |entries| then
        (s.(mem := Retain(Release(m, entries[i].value), value)), entries[i := entries[i].(value := value)])
      else (s.(mem := Retain(Retain(m, key), value)), entries + [Entry(key, value)])
  }

  /** map_set on the map in cell x. */
  function SetEntry(m: Memory, x: nat, entries: seq<Entry>, capacity: nat, key: Item, value: Item): Memory
    requires x < |m.cells| && m.cells[x].Live?
  {
    var g := AfterGrowth(m, entries, capacity);
    var i := Find(g, entries, key);
    if i < |entries| then
      Overwrite(g, x, Dict(entries[i := entries[i].(value := value)], Grown(entries, capacity)), entries[i].value, value)
    else
      var k := Retain(Retain(g, key), value);
      if x < |k.cells| && k.cells[x].Live? then
        Put(k, x, Dict(entries + [Entry(key, value)], Grown(entries, capacity)))
      else k.(ok := false)
  }

  // ----- the instructions -----

  function DoAdd(s: Vm): Vm {
    var (s1, b) := PopItem(s);
    var (s2, a) := PopItem(s1);
    if a.Int? && b.Int? then Drop(Drop(Push(s2, Int(Values.Wrap(a.n + b.n))), a), b)
    else if IsText(s2.mem, a) && IsText(s2.mem, b) then
      // native_str retains each string; both are released after the push
      var s3 := PushNew(Keep(Keep(s2, a), b), Text(At(s2.mem, a).text + At(s2.mem, b).text));
      Drop(Drop(Drop(Drop(s3, a), b), a), b)
    else Raise(Drop(Drop(s2, a), b), [])
  }

  function DoDiv(s: Vm): Vm {
    var (s1, b) := PopItem(s);
    var (s2, a) := PopItem(s1);
    if a.Int? && b.Int? && b.n != 0 then
      Drop(Drop(Push(s2, Int(Values.Wrap(Values.Quotient(a.n, b.n)))), a), b)
    else Raise(Drop(Drop(s2, a), b), [])
  }

  function DoEqual(s: Vm): Vm {
    var (s1, b) := PopItem(s);
    var (s2, a) := PopItem(s1);
    Drop(Drop(Push(s2, Bool(Same(s2.mem, a, b))), a), b)
  }

  function DoStore(s: Vm, slot: nat): Vm {
    var (s1, v) := PopItem(s);
    if s1.stopped || s1.frames == [] then Stop(s1)
    else SetLocal(s1, s1.frames[|s1.frames| - 1] + slot, v)
  }

  function DoLoad(s: Vm, j: nat): Vm {
    if j < |s.locals| then Push(s, s.locals[j]) else Stop(s)
  }

  function DoMap(s: Vm, n: nat, entries: seq<Entry>, capacity: nat): Vm
    decreases n
  {
    if n == 0 then PushNew(s, Dict(entries, capacity))
    else
      var (s1, value) := PopItem(s);
      var (s2, key) := PopItem(s1);
      var (s3, more) := SetYoung(s2, entries, capacity, key, value);
      DoMap(Drop(Drop(s3, key), value), n - 1, more, Grown(entries, capacity))
  }

  function DoIndex(s: Vm): Vm {
    var (s1, index) := PopItem(s);
    var (s2, o) := PopItem(s1);
    match At(s2.mem, o)
    case List(items) =>
      if !index.Int? then Stop(s2)
      else
        var i := ToInt32(index.n);
        if 0 <= i < |items| then Drop(Drop(Push(s2, items[i]), o), index)
        else Raise(Drop(Drop(s2, o), index), [])
    case Dict(entries, _) =>
      var i := Find(s2.mem, entries, index);
      if i < |entries| && !entries[i].value.Void? then Drop(Drop(Push(s2, entries[i].value), o), index)
      else Raise(Drop(Drop(s2, o), index), [])
    case Text(text) =>
      if !o.Ref? then Raise(Drop(Drop(s2, o), index), [])
      else if !index.Int? then Stop(s2)
      else
        var i := ToInt32(index.n);
        if 0 <= i < |text| then Drop(Drop(PushNew(s2, Text([text[i]])), o), index)
        else Raise(Drop(Drop(s2, o), index), [])
    case Closure(_) => Raise(Drop(Drop(s2, o), index), [])
  }

  function DropThree(s: Vm, o: Item, index: Item, v: Item): Vm {
    Drop(Drop(Drop(s, o), index), v)
  }

  function DoSetIndex(s: Vm): Vm {
    var (s1, index) := PopItem(s);
    var (s2, o) := PopItem(s1);
    var (s3, v) := PopItem(s2);
    if s3.stopped then s3
    else match At(s3.mem, o)
      case List(items) =>
        if !index.Int? then Stop(s3)
        else
          var i := ToInt32(index.n);
          if 0 <= i < |items| then
            DropThree(s3.(mem := Overwrite(s3.mem, o.at, List(items[i := v]), items[i], v)), o, index, v)
          else Raise(DropThree(s3, o, index, v), [])
      case Dict(entries, capacity) =>
        DropThree(s3.(mem := SetEntry(s3.mem, o.at, entries, capacity, index, v)), o, index, v)
      case _ => Raise(DropThree(s3, o, index, v), [])
  }

  function DoInvoke(s: Vm): Vm {
    var (s1, f) := PopItem(s);
    match At(s1.mem, f)
    case Closure(captures) => if |captures| <= SLOTS then Drop(BeginCall(s1, captures), f) else Stop(s1)
    case _ => Stop(s1)
  }

  function DoThrow(s: Vm): Vm {
    var (s1, e) := PopItem(s);
    if s1.stopped || s1.tries == [] then Stop(s1)
    else Push(Unwind(s1.(tries := s1.tries[..|s1.tries| - 1]), s1.tries[|s1.tries| - 1]), e)
  }

  function Step(s: Vm, i: Instr): Vm {
    if s.stopped then s
    else match i
      case PushInt(n) => Push(s, Int(n))
      case PushBool(b) => Push(s, Bool(b))
      case PushStr(text) => PushNew(s, Text(text))
      case Add => DoAdd(s)
      case Div => DoDiv(s)
      case Equal => DoEqual(s)
      case Load(slot) => if s.frames == [] then Stop(s) else DoLoad(s, s.frames[|s.frames| - 1] + slot)
      case LoadGlobal(slot) => DoLoad(s, slot)
      case Store(slot) => DoStore(s, slot)
      case Pop => var (s1, v) := PopItem(s); Drop(s1, v)
      case MakeArray(n) => var (s1, items) := PopItems(s, n); PushNew(s1, List(items))
      case MakeMap(n) => DoMap(s, n, [], 8)
      case Index => DoIndex(s)
      case SetIndex => DoSetIndex(s)
      case PushFunc(n) => var (s1, items) := PopItems(s, n); PushNew(s1, Closure(items))
      case Call => BeginCall(s, [])
      case Invoke => DoInvoke(s)
      case Ret => if |s.frames| <= 1 then Stop(s) else PopFrame(s)
      case BeginTry =>
        if |s.tries| >= TRIES_MAX then Stop(s) else s.(tries := s.tries + [Try(|s.stack|, |s.frames|)])
      case EndTry => if s.tries == [] then s else s.(tries := s.tries[..|s.tries| - 1])
      case Throw => DoThrow(s)
  }

  /** What a THROW that finds a handler pushes without giving up its own reference. */
  function Thrown(s: Vm, i: Instr): seq<Item> {
    if i.Throw? && !s.stopped && s.stack != [] && s.tries != [] then [s.stack[|s.stack| - 1]] else []
  }
}
