/** The ring buffer of a buffered channel, in place and as a function. */
module Ring {
  import opened Values

  /** Position i steps after head in a ring of n slots. */
  function At(head: nat, i: nat, n: nat): (r: nat)
    requires n > 0
    ensures r < n
  {
    (head + i) % n
  }

  lemma AtIs(head: nat, i: nat, n: nat)
    requires head < n && i <= n
    ensures At(head, i, n) == if head + i < n then head + i else head + i - n
  {
    if head + i < n {
      Small(head + i, n);
    } else {
      WrapOnce(head + i - n, n);
    }
  }

  lemma Small(a: nat, n: nat)
    requires a < n
    ensures a % n == a
  {}

  lemma WrapOnce(a: nat, n: nat)
    requires a <= n && n > 0
    ensures (a + n) % n == if a == n then 0 else a
  {
    if a == n {
      assert (a + n) == 2 * n;
      assert (2 * n) % n == 0 by {
        Multiple(n);
      }
    } else {
      Small(a, n);
      assert (a + n) % n == a % n;
    }
  }

  lemma Multiple(n: nat)
    requires n > 0
    ensures (2 * n) % n == 0
  {
    assert (2 * n) / n == 2;
  }

  /** The count values from head on, oldest first. */
  function Window(buffer: seq<Value>, head: nat, count: nat): (r: seq<Value>)
    requires |buffer| > 0
    ensures |r| == count
  {
    seq(count, i requires 0 <= i < count => buffer[At(head, i, |buffer|)])
  }

  predicate WellFormed(buffer: seq<Value>, head: nat, tail: nat, count: nat) {
    |buffer| > 0 && head < |buffer| && count <= |buffer| && tail == At(head, count, |buffer|)
  }

  lemma TailInside(buffer: seq<Value>, head: nat, tail: nat, count: nat)
    requires WellFormed(buffer, head, tail, count)
    ensures tail < |buffer| && count <= |buffer|
  {}

  /** Writing at the tail appends to the window. */
  lemma Append(buffer: seq<Value>, head: nat, tail: nat, count: nat, v: Value)
    requires WellFormed(buffer, head, tail, count) && count < |buffer|
    ensures Window(buffer[tail := v], head, count + 1) == Window(buffer, head, count) + [v]
    ensures WellFormed(buffer[tail := v], head, (tail + 1) % |buffer|, count + 1)
  {
    var n := |buffer|;
    AtIs(head, count, n);
    AtIs(head, count + 1, n);
    AtIs(tail, 1, n);
    forall i | 0 <= i < count
      ensures At(head, i, n) != tail
    {
      AtIs(head, i, n);
    }
    assert Window(buffer[tail := v], head, count + 1)[..count] == Window(buffer, head, count);
    assert Window(buffer[tail := v], head, count + 1)[count] == v;
  }

  /** Moving the head takes the first value off the window. */
  lemma RemoveFirst(buffer: seq<Value>, head: nat, tail: nat, count: nat)
    requires WellFormed(buffer, head, tail, count) && count > 0
    ensures Window(buffer, head, count) == [buffer[head]] + Window(buffer, (head + 1) % |buffer|, count - 1)
    ensures WellFormed(buffer, (head + 1) % |buffer|, tail, count - 1)
  {
    var n := |buffer|;
    var next := (head + 1) % n;
    AtIs(head, 1, n);
    AtIs(head, 0, n);
    AtIs(head, count, n);
    AtIs(next, count - 1, n);
    forall i | 0 <= i < count - 1
      ensures At(head, i + 1, n) == At(next, i, n)
    {
      AtIs(head, i + 1, n);
      AtIs(next, i, n);
    }
    assert Window(buffer, head, count)[1..] == Window(buffer, next, count - 1);
  }

  /** The buffer fields of ObjChan. */
  class RingBuffer {
    const buffer: array<Value>
    var head: nat
    var tail: nat
    var count: nat

    ghost predicate Valid()
      reads this, buffer
    {
      WellFormed(buffer[..], head, tail, count)
    }

    ghost function Contents(): seq<Value>
      reads this, buffer
      requires Valid()
    {
      Window(buffer[..], head, count)
    }

    constructor (capacity: nat)
      requires capacity > 0
      ensures Valid() && fresh(buffer) && buffer.Length == capacity && Contents() == []
      ensures head == 0 && tail == 0 && count == 0 && forall i | 0 <= i < capacity :: buffer[i] == VVoid
    {
      buffer := new Value[capacity](_ => VVoid);
      head, tail, count := 0, 0, 0;
    }

    /** The write of OP_SEND. */
    method Put(v: Value)
      requires Valid() && count < buffer.Length
      modifies this, buffer
      ensures buffer[..] == old(buffer[..])[old(tail) := v]
      ensures head == old(head) && tail == (old(tail) + 1) % buffer.Length && count == old(count) + 1
      ensures Valid() && Contents() == old(Contents()) + [v]
    {
      Append(buffer[..], head, tail, count, v);
      ghost var before := buffer[..];
      buffer[tail] := v;
      assert buffer[..] == before[tail := v];
      tail := (tail + 1) % buffer.Length;
      count := count + 1;
    }

    /** The read of OP_RECV. */
    method Take() returns (v: Value)
      requires Valid() && count > 0
      modifies this
      ensures v == buffer[old(head)]
      ensures head == (old(head) + 1) % buffer.Length && tail == old(tail) && count == old(count) - 1
      ensures Valid() && old(Contents()) == [v] + Contents()
    {
      RemoveFirst(buffer[..], head, tail, count);
      v := buffer[head];
      head := (head + 1) % buffer.Length;
      count := count - 1;
    }
  }
}
