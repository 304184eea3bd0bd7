/** The reference-counting virtual machine in place: its heap, stack, locals, frames and handlers are
    fields that each method updates, and each method computes the step function of Ownership. */
module InPlace {
  import opened Bytes
  import opened Counting
  import O = Ownership
  import Values

  class Interpreter {
    var cells: seq<Cell>
    var ok: bool
    const stack: array<Item>
    var stackPtr: nat
    const locals: array<Item>
    const frames: array<nat>
    var framePtr: nat
    const tries: array<O.Try>
    var tryPtr: nat
    var stopped: bool

    ghost predicate Valid()
      reads this
    {
      && stack.Length == O.STACK_MAX && locals.Length == O.FRAMES_MAX * O.SLOTS && stack != locals
      && frames.Length == O.FRAMES_MAX && tries.Length == O.TRIES_MAX
      && stackPtr <= stack.Length && framePtr <= frames.Length && tryPtr <= tries.Length
    }

    function Heap(): Memory
      reads this
    {
      Memory(cells, ok)
    }

    ghost function State(): O.Vm
      requires Valid()
      reads this, stack, locals, frames, tries
    {
      O.Vm(Heap(), stack[..stackPtr], locals[..], frames[..framePtr], tries[..tryPtr], stopped)
    }

    /** vm_init. */
    constructor ()
      ensures Valid() && fresh(stack) && fresh(locals) && fresh(frames) && fresh(tries)
      ensures State() == O.Vm(Memory([], true), [], seq(O.FRAMES_MAX * O.SLOTS, _ => Void), [0], [], false)
    {
      cells, ok := [], true;
      stack := new Item[O.STACK_MAX](_ => Void);
      locals := new Item[O.FRAMES_MAX * O.SLOTS](_ => Void);
      frames := new nat[O.FRAMES_MAX](_ => 0);
      tries := new O.Try[O.TRIES_MAX](_ => O.Try(0, 0));
      stackPtr, framePtr, tryPtr, stopped := 0, 1, 0, false;
      new;
      assert locals[..] == seq(O.FRAMES_MAX * O.SLOTS, _ => Void);
      assert frames[..1] == [0];
    }

    // ----- the heap -----

    method RetainItem(v: Item)
      modifies this`cells, this`ok
      ensures Heap() == Retain(old(Heap()), v)
    {
      if v.Ref? {
        if v.at >= |cells| || cells[v.at].Freed? {
          ok := false;
        } else {
          cells := cells[v.at := cells[v.at].(count := cells[v.at].count + 1)];
        }
      }
    }

    /** release: takes one off the count, and frees the object when that was the last reference. */
    method ReleaseItem(v: Item)
      modifies this`cells, this`ok
      ensures Heap() == Release(old(Heap()), v)
      decreases Weight(cells), 0
    {
      if v.Ref? {
        if v.at >= |cells| || cells[v.at].Freed? || cells[v.at].count <= 0 {
          ok := false;
        } else {
          var c := cells[v.at];
          WeightUpdate(cells, v.at, c.(count := c.count - 1));
          WeightUpdate(cells, v.at, Freed);
          if c.count > 1 {
            cells := cells[v.at := c.(count := c.count - 1)];
          } else {
            cells := cells[v.at := Freed];
            FreeObject(Parts(c.obj));
          }
        }
      }
    }

    /** free_object: the loop that releases what the object owned. */
    method FreeObject(parts: seq<Item>)
      modifies this`cells, this`ok
      ensures Heap() == ReleaseAll(old(Heap()), parts)
      decreases Weight(cells), 1
    {
      for i := 0 to |parts|
        invariant ReleaseAll(Heap(), parts[i..]) == ReleaseAll(old(Heap()), parts)
        invariant Weight(cells) <= old(Weight(cells))
      {
        assert parts[i..][0] == parts[i] && parts[i..][1..] == parts[i + 1..];
        ReleaseItem(parts[i]);
      }
      assert parts[|parts|..] == [];
    }

    method AllocateObject(o: Object) returns (e: Item)
      requires Valid() && !stopped
      modifies this`cells, this`ok
      ensures Valid() && State() == O.Allocate(old(State()), o) && e == Ref(old(|cells|))
    {
      e := Ref(|cells|);
      cells := cells + [Live(0, o)];
      RetainItem(e);
    }

    // ----- the stack -----

    method Stop()
      requires Valid()
      modifies this`stopped
      ensures Valid() && State() == O.Stop(old(State()))
    {
      stopped := true;
    }

    method Push(v: Item)
      requires Valid()
      modifies this`cells, this`ok, this`stackPtr, this`stopped, stack
      ensures Valid() && State() == O.Push(old(State()), v)
    {
      if !stopped {
        if stackPtr >= O.STACK_MAX {
          Stop();
        } else {
          RetainItem(v);
          ghost var before := stack[..stackPtr];
          stack[stackPtr] := v;
          stackPtr := stackPtr + 1;
          assert stack[..stackPtr] == before + [v];
        }
      }
    }

    method PopItem() returns (v: Item)
      requires Valid()
      modifies this`stackPtr, this`stopped
      ensures Valid() && (State(), v) == O.PopItem(old(State()))
    {
      if stopped {
        return Void;
      }
      if stackPtr == 0 {
        Stop();
        return Void;
      }
      stackPtr := stackPtr - 1;
      v := stack[stackPtr];
      assert stack[..stackPtr] == old(stack[..stackPtr])[..stackPtr];
    }

    method Drop(v: Item)
      requires Valid()
      modifies this`cells, this`ok
      ensures Valid() && State() == O.Drop(old(State()), v)
    {
      if !stopped {
        ReleaseItem(v);
      }
    }

    method Keep(v: Item)
      requires Valid()
      modifies this`cells, this`ok
      ensures Valid() && State() == O.Keep(old(State()), v)
    {
      if !stopped {
        RetainItem(v);
      }
    }

    method PushNew(o: Object)
      requires Valid()
      modifies this`cells, this`ok, this`stackPtr, this`stopped, stack
      ensures Valid() && State() == O.PushNew(old(State()), o)
    {
      if !stopped {
        if stackPtr >= O.STACK_MAX {
          Stop();
        } else {
          var e := AllocateObject(o);
          ghost var before := stack[..stackPtr];
          stack[stackPtr] := e;
          stackPtr := stackPtr + 1;
          assert stack[..stackPtr] == before + [e];
        }
      }
    }

    // ----- frames -----

    method SetLocal(j: nat, v: Item)
      requires Valid()
      modifies this`cells, this`ok, locals
      ensures Valid() && State() == O.SetLocal(old(State()), j, v)
    {
      if !stopped && j < locals.Length {
        ReleaseItem(locals[j]);
        ghost var before := locals[..];
        locals[j] := v;
        assert locals[..] == before[j := v];
      }
    }

    method PopFrame()
      requires Valid()
      modifies this`cells, this`ok, this`framePtr, locals
      ensures Valid() && State() == O.PopFrame(old(State()))
    {
      hide Release, O.SetLocal;
      if stopped || framePtr == 0 {
        return;
      }
      framePtr := framePtr - 1;
      var offset := frames[framePtr];
      assert frames[..framePtr] == old(frames[..framePtr])[..framePtr];
      for i := 0 to O.SLOTS
        invariant Valid() && !stopped
        invariant O.ClearSlots(State(), offset, i) == O.PopFrame(old(State()))
      {
        SetLocal(offset + i, Void);
      }
    }

    method CutStack(depth: nat)
      requires Valid()
      modifies this`cells, this`ok, this`stackPtr, this`stopped
      ensures Valid() && State() == O.CutStack(old(State()), depth)
    {
      hide Release;
      while !stopped && stackPtr > depth
        invariant Valid() && O.CutStack(State(), depth) == O.CutStack(old(State()), depth)
        decreases stackPtr
      {
        ghost var before := State();
        var v := PopItem();
        Drop(v);
        assert O.CutStack(before, depth) == O.CutStack(State(), depth);
      }
    }

    method CutFrames(n: nat)
      requires Valid()
      modifies this`cells, this`ok, this`framePtr, locals
      ensures Valid() && State() == O.CutFrames(old(State()), n)
    {
      hide O.PopFrame;
      while !stopped && framePtr > n
        invariant Valid() && O.CutFrames(State(), n) == O.CutFrames(old(State()), n)
        decreases framePtr
      {
        ghost var before := State();
        FrameIsGone(before);
        PopFrame();
        assert |State().frames| == framePtr;
      }
    }

    lemma FrameIsGone(s: O.Vm)
      requires !s.stopped && s.frames != []
      ensures O.PopFrame(s).frames == s.frames[..|s.frames| - 1]
    {
      O.ClearSlotsKeepsFrames(s.(frames := s.frames[..|s.frames| - 1]), s.frames[|s.frames| - 1], 0);
    }

    method Unwind(t: O.Try)
      requires Valid()
      modifies this, stack, locals
      ensures Valid() && State() == O.Unwind(old(State()), t)
    {
      hide O.CutStack, O.CutFrames;
      CutStack(t.depth);
      CutFrames(t.frames);
    }

    method TakeTry() returns (t: O.Try)
      requires Valid() && tryPtr > 0
      modifies this`tryPtr
      ensures Valid() && tryPtr == old(tryPtr) - 1
      ensures State() == old(State()).(tries := old(State()).tries[..old(tryPtr) - 1])
      ensures t == old(State()).tries[old(tryPtr) - 1]
    {
      tryPtr := tryPtr - 1;
      t := tries[tryPtr];
      assert tries[..tryPtr] == old(tries[..tryPtr])[..tryPtr];
    }

    /** runtime_error. */
    method Raise(text: seq<byte>)
      requires Valid()
      modifies this, stack, locals
      ensures Valid() && State() == O.Raise(old(State()), text)
    {
      hide O.Unwind, O.Push, O.Drop;
      if stopped {
        return;
      }
      if tryPtr == 0 {
        Stop();
        return;
      }
      var e := AllocateObject(Text(text));
      var t := TakeTry();
      Unwind(t);
      Push(e);
      Drop(e);
    }

    // ----- calls -----

    /** The loop of begin_call that copies the captures. */
    method CopyIn(offset: nat, captures: seq<Item>)
      requires Valid() && !stopped
      modifies this`cells, this`ok, locals
      ensures Valid() && State() == O.CopyIn(old(State()), offset, captures, 0)
    {
      hide Retain;
      var i := 0;
      while i < |captures| && offset + i < locals.Length
        invariant Valid() && i <= |captures| && !stopped
        invariant O.CopyIn(State(), offset, captures, i) == O.CopyIn(old(State()), offset, captures, 0)
      {
        ghost var before := locals[..];
        RetainItem(captures[i]);
        locals[offset + i] := captures[i];
        assert locals[..] == before[offset + i := captures[i]];
        i := i + 1;
      }
    }

    /** begin_call. */
    method BeginCall(captures: seq<Item>)
      requires Valid()
      modifies this, stack, locals, frames
      ensures Valid() && State() == O.BeginCall(old(State()), captures)
    {
      hide O.CopyIn, O.Raise;
      if stopped {
        return;
      }
      if framePtr >= O.FRAMES_MAX {
        Raise(O.FRAME_OVERFLOW);
      } else {
        var offset := framePtr * O.SLOTS;
        frames[framePtr] := offset;
        framePtr := framePtr + 1;
        assert frames[..framePtr] == old(frames[..framePtr]) + [offset];
        CopyIn(offset, captures);
      }
    }

    /** The loops of OP_ARRAY and OP_PUSH_FUNC that take n items off the stack. */
    method PopItems(n: nat) returns (items: seq<Item>)
      requires Valid()
      modifies this`stackPtr, this`stopped
      ensures Valid() && (State(), items) == O.PopItems(old(State()), n)
    {
      hide O.PopItem;
      items := [];
      var left: nat := n;
      assert O.PopItems(State(), n).1 + [] == O.PopItems(State(), n).1;
      while left > 0
        invariant Valid() && left <= n
        invariant O.PopItems(State(), left).0 == O.PopItems(old(State()), n).0
        invariant O.PopItems(State(), left).1 + items == O.PopItems(old(State()), n).1
      {
        ghost var before := State();
        var v := PopItem();
        assert O.PopItems(before, left).1 + items == O.PopItems(State(), left - 1).1 + ([v] + items);
        items := [v] + items;
        left := left - 1;
      }
      assert O.PopItems(State(), left).1 + items == items;
    }

    // ----- maps -----

    /** The resize loop of map_set. */
    method Rehash(entries: seq<Entry>)
      modifies this`cells, this`ok
      ensures Heap() == O.Rehash(old(Heap()), entries)
    {
      hide Retain, Release;
      for i := 0 to |entries|
        invariant O.Rehash(Heap(), entries[i..]) == O.Rehash(old(Heap()), entries)
      {
        var e := entries[i];
        assert entries[i..][0] == e && entries[i..][1..] == entries[i + 1..];
        RetainItem(e.key);
        RetainItem(e.value);
        ReleaseItem(e.key);
        ReleaseItem(e.value);
      }
      assert entries[|entries|..] == [];
    }

    method Grow(entries: seq<Entry>, capacity: nat)
      modifies this`cells, this`ok
      ensures Heap() == O.AfterGrowth(old(Heap()), entries, capacity)
    {
      if O.MustGrow(entries, capacity) {
        Rehash(entries);
      }
    }

    /** map_set on the map that OP_MAP is filling. */
    method SetYoung(entries: seq<Entry>, capacity: nat, key: Item, value: Item) returns (more: seq<Entry>)
      requires Valid()
      modifies this`cells, this`ok
      ensures Valid() && (State(), more) == O.SetYoung(old(State()), entries, capacity, key, value)
    {
      hide Retain, Release, O.AfterGrowth, O.Find;
      if stopped {
        return entries;
      }
      Grow(entries, capacity);
      var i := O.Find(Heap(), entries, key);
      if i < |entries| {
        ReleaseItem(entries[i].value);
        RetainItem(value);
        return entries[i := entries[i].(value := value)];
      }
      RetainItem(key);
      RetainItem(value);
      return entries + [Entry(key, value)];
    }

    method WriteObject(x: nat, o: Object)
      modifies this`cells, this`ok
      ensures Heap() == if x < old(|cells|) && old(cells)[x].Live? then Put(old(Heap()), x, o) else old(Heap()).(ok := false)
    {
      if x < |cells| && cells[x].Live? {
        cells := cells[x := cells[x].(obj := o)];
      } else {
        ok := false;
      }
    }

    /** Release what was there, retain what comes, write. */
    method OverwritePart(x: nat, o: Object, was: Item, comes: Item)
      modifies this`cells, this`ok
      ensures Heap() == Overwrite(old(Heap()), x, o, was, comes)
    {
      hide Retain, Release, Put;
      ReleaseItem(was);
      RetainItem(comes);
      WriteObject(x, o);
    }

    /** map_set on the map in cell x. */
    method SetEntry(x: nat, entries: seq<Entry>, capacity: nat, key: Item, value: Item)
      requires x < |cells| && cells[x].Live?
      modifies this`cells, this`ok
      ensures Heap() == O.SetEntry(old(Heap()), x, entries, capacity, key, value)
    {
      hide Retain, Put, O.AfterGrowth, O.Find, Overwrite;
      Grow(entries, capacity);
      var i := O.Find(Heap(), entries, key);
      if i < |entries| {
        OverwritePart(x, Dict(entries[i := entries[i].(value := value)], O.Grown(entries, capacity)), entries[i].value, value);
      } else {
        RetainItem(key);
        RetainItem(value);
        WriteObject(x, Dict(entries + [Entry(key, value)], O.Grown(entries, capacity)));
      }
    }

    // ----- the instructions -----

    method PopTwo() returns (a: Item, b: Item)
      requires Valid()
      modifies this`stackPtr, this`stopped
      ensures Valid() && b == O.PopItem(old(State())).1
      ensures (State(), a) == O.PopItem(O.PopItem(old(State())).0)
    {
      hide O.PopItem;
      b := PopItem();
      a := PopItem();
    }

    method DropTwo(a: Item, b: Item)
      requires Valid()
      modifies this`cells, this`ok
      ensures Valid() && State() == O.Drop(O.Drop(old(State()), a), b)
    {
      hide O.Drop;
      Drop(a);
      Drop(b);
    }

    method Fail(a: Item, b: Item)
      requires Valid()
      modifies this, stack, locals
      ensures Valid() && State() == O.Raise(O.Drop(O.Drop(old(State()), a), b), [])
    {
      hide O.Drop, O.Raise;
      DropTwo(a, b);
      Raise([]);
    }

    method Result(v: Item, a: Item, b: Item)
      requires Valid()
      modifies this, stack
      ensures Valid() && State() == O.Drop(O.Drop(O.Push(old(State()), v), a), b)
    {
      hide O.Drop, O.Push;
      Push(v);
      DropTwo(a, b);
    }

    method DoAdd()
      requires Valid()
      modifies this, stack, locals
      ensures Valid() && State() == O.DoAdd(old(State()))
    {
      hide O.Drop, O.Push, O.Raise, O.PopItem, O.PushNew, O.Keep, O.IsText, O.At;
      var a, b := PopTwo();
      if a.Int? && b.Int? {
        Result(Int(Values.Wrap(a.n + b.n)), a, b);
      } else if O.IsText(Heap(), a) && O.IsText(Heap(), b) {
        TextsAreTexts(Heap(), a, b);
        var text := O.At(Heap(), a).text + O.At(Heap(), b).text;
        Keep(a);
        Keep(b);
        PushNew(Text(text));
        DropTwo(a, b);
        DropTwo(a, b);
      } else {
        Fail(a, b);
      }
    }

    lemma TextsAreTexts(m: Memory, a: Item, b: Item)
      requires O.IsText(m, a) && O.IsText(m, b)
      ensures O.At(m, a).Text? && O.At(m, b).Text?
    {}

    method DoDiv()
      requires Valid()
      modifies this, stack, locals
      ensures Valid() && State() == O.DoDiv(old(State()))
    {
      hide O.Drop, O.Push, O.Raise, O.PopItem;
      var a, b := PopTwo();
      if a.Int? && b.Int? && b.n != 0 {
        Result(Int(Values.Wrap(Values.Quotient(a.n, b.n))), a, b);
      } else {
        Fail(a, b);
      }
    }

    method DoEqual()
      requires Valid()
      modifies this, stack
      ensures Valid() && State() == O.DoEqual(old(State()))
    {
      hide O.Drop, O.Push, O.PopItem, O.Same;
      var a, b := PopTwo();
      Result(Bool(O.Same(Heap(), a, b)), a, b);
    }

    method DoStore(slot: nat)
      requires Valid()
      modifies this, locals
      ensures Valid() && State() == O.DoStore(old(State()), slot)
    {
      hide O.PopItem, O.SetLocal;
      var v := PopItem();
      if stopped || framePtr == 0 {
        Stop();
      } else {
        SetLocal(frames[framePtr - 1] + slot, v);
      }
    }

    method DoLoad(j: nat)
      requires Valid()
      modifies this, stack
      ensures Valid() && State() == O.DoLoad(old(State()), j)
    {
      hide O.Push;
      if j < locals.Length {
        Push(locals[j]);
      } else {
        Stop();
      }
    }

    method DoMap(n: nat)
      requires Valid()
      modifies this, stack
      ensures Valid() && State() == O.DoMap(old(State()), n, [], 8)
    {
      hide O.Drop, O.PopItem, O.SetYoung, O.PushNew;
      var entries, capacity := [], 8;
      var left: nat := n;
      while left > 0
        invariant Valid() && left <= n
        invariant O.DoMap(State(), left, entries, capacity) == O.DoMap(old(State()), n, [], 8)
      {
        var value := PopItem();
        var key := PopItem();
        var more := SetYoung(entries, capacity, key, value);
        DropTwo(key, value);
        capacity := O.Grown(entries, capacity);
        entries := more;
        left := left - 1;
      }
      PushNew(Dict(entries, capacity));
    }

    method DoIndex()
      requires Valid()
      modifies this, stack, locals
      ensures Valid() && State() == O.DoIndex(old(State()))
    {
      hide O.Drop, O.Push, O.Raise, O.PopItem, O.PushNew, O.At, O.Find, O.ToInt32;
      var o, index := PopTwo();
      match O.At(Heap(), o)
      case List(items) =>
        if !index.Int? {
          Stop();
        } else if 0 <= O.ToInt32(index.n) < |items| {
          Result(items[O.ToInt32(index.n)], o, index);
        } else {
          Fail(o, index);
        }
      case Dict(entries, _) =>
        var i := O.Find(Heap(), entries, index);
        if i < |entries| && !entries[i].value.Void? {
          Result(entries[i].value, o, index);
        } else {
          Fail(o, index);
        }
      case Text(text) =>
        if !o.Ref? {
          Fail(o, index);
        } else if !index.Int? {
          Stop();
        } else if 0 <= O.ToInt32(index.n) < |text| {
          PushNew(Text([text[O.ToInt32(index.n)]]));
          DropTwo(o, index);
        } else {
          Fail(o, index);
        }
      case Closure(_) => Fail(o, index);
    }

    method DropThree(o: Item, index: Item, v: Item)
      requires Valid()
      modifies this`cells, this`ok
      ensures Valid() && State() == O.DropThree(old(State()), o, index, v)
    {
      hide O.Drop;
      DropTwo(o, index);
      Drop(v);
    }

    method DoSetIndex()
      requires Valid()
      modifies this, stack, locals
      ensures Valid() && State() == O.DoSetIndex(old(State()))
    {
      hide O.DropThree, O.Raise, O.PopItem, O.ToInt32, Overwrite, O.SetEntry;
      var o, index := PopTwo();
      var v := PopItem();
      if stopped {
        return;
      }
      match O.At(Heap(), o)
      case List(items) =>
        if !index.Int? {
          Stop();
        } else {
          var i := O.ToInt32(index.n);
          if 0 <= i < |items| {
            OverwritePart(o.at, List(items[i := v]), items[i], v);
            DropThree(o, index, v);
          } else {
            DropThree(o, index, v);
            Raise([]);
          }
        }
      case Dict(entries, capacity) =>
        SetEntry(o.at, entries, capacity, index, v);
        DropThree(o, index, v);
      case _ =>
        DropThree(o, index, v);
        Raise([]);
    }

    method DoInvoke()
      requires Valid()
      modifies this, stack, locals, frames
      ensures Valid() && State() == O.DoInvoke(old(State()))
    {
      hide O.Drop, O.PopItem, O.At, O.BeginCall;
      var f := PopItem();
      match O.At(Heap(), f)
      case Closure(captures) =>
        if |captures| <= O.SLOTS {
          BeginCall(captures);
          Drop(f);
        } else {
          Stop();
        }
      case _ => Stop();
    }

    method DoThrow()
      requires Valid()
      modifies this, stack, locals
      ensures Valid() && State() == O.DoThrow(old(State()))
    {
      hide O.Push, O.PopItem, O.Unwind;
      var e := PopItem();
      if stopped || tryPtr == 0 {
        Stop();
      } else {
        var t := TakeTry();
        Unwind(t);
        Push(e);
      }
    }

    method DoTry()
      requires Valid() && !stopped
      modifies this, tries
      ensures Valid() && State() == O.Step(old(State()), O.BeginTry)
    {
      if tryPtr >= O.TRIES_MAX {
        Stop();
      } else {
        tries[tryPtr] := O.Try(stackPtr, framePtr);
        tryPtr := tryPtr + 1;
        assert tries[..tryPtr] == old(tries[..tryPtr]) + [O.Try(stackPtr, framePtr)];
      }
    }

    /** One pass of the loop of vm_run. */
    method Step(i: O.Instr)
      requires Valid()
      modifies this, stack, locals, frames, tries
      ensures Valid() && State() == O.Step(old(State()), i)
    {
      hide O.BeginCall, O.DoInvoke, O.PopFrame, O.DoThrow, O.DoStore, O.DoLoad;
      if stopped {
        return;
      }
      match i
      case Load(slot) =>
        if framePtr == 0 {
          Stop();
        } else {
          DoLoad(frames[framePtr - 1] + slot);
        }
      case LoadGlobal(slot) => DoLoad(slot);
      case Store(slot) => DoStore(slot);
      case Call => BeginCall([]);
      case Invoke => DoInvoke();
      case Ret =>
        if framePtr <= 1 {
          Stop();
        } else {
          PopFrame();
        }
      case BeginTry => DoTry();
      case EndTry =>
        if tryPtr > 0 {
          var t := TakeTry();
        }
      case Throw => DoThrow();
      case _ => Compute(i);
    }

    /** The instructions that only work on the stack and the heap. */
    method Compute(i: O.Instr)
      requires Valid() && !stopped && !i.Load? && !i.LoadGlobal? && !i.Store? && !i.Call? && !i.Invoke?
      requires !i.Ret? && !i.BeginTry? && !i.EndTry? && !i.Throw?
      modifies this, stack, locals
      ensures Valid() && State() == O.Step(old(State()), i)
    {
      hide O.Drop, O.Push, O.PushNew, O.PopItem, O.PopItems, O.DoAdd, O.DoDiv, O.DoEqual, O.DoMap, O.DoIndex, O.DoSetIndex;
      match i
      case PushInt(n) => Push(Int(n));
      case PushBool(b) => Push(Bool(b));
      case PushStr(text) => PushNew(Text(text));
      case Add => DoAdd();
      case Div => DoDiv();
      case Equal => DoEqual();
      case Pop =>
        var v := PopItem();
        Drop(v);
      case MakeArray(n) =>
        var items := PopItems(n);
        PushNew(List(items));
      case MakeMap(n) => DoMap(n);
      case Index => DoIndex();
      case SetIndex => DoSetIndex();
      case PushFunc(n) =>
        var items := PopItems(n);
        PushNew(Closure(items));
    }
  }
}
