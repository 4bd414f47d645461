// The growable circular array of bbr/ringbuffer.go. Its abstract value is the sequence Contents().
module RingBuffers {
  lemma WrapOnce(i: nat, n: nat)
    requires 0 < n && i < 2 * n
    ensures i % n == if i < n then i else i - n
  {
    var q, r := i / n, i % n;
    assert i == q * n + r && 0 <= r < n;
    assert q >= 2 ==> q * n >= 2 * n;
    assert q <= -1 ==> q * n < 0;
    assert q == 0 || q == 1;
  }

  // The contents of a ring, oldest first: from head up to tail, wrapping past the end.
  ghost function Unrolled<T>(ring: seq<T>, head: nat, tail: nat, full: bool): seq<T>
    requires head <= |ring| && tail <= |ring|
  {
    if !full && head <= tail then ring[head..tail] else ring[head..] + ring[..tail]
  }

  // Writing the tail slot of a ring that is not full and advancing the tail appends, wrapped or not.
  lemma PushUnrolls<T>(ring: seq<T>, head: nat, tail: nat, t: T)
    requires head < |ring| && tail < |ring|
    ensures var next := if tail + 1 == |ring| then 0 else tail + 1;
            Unrolled(ring[tail := t], head, next, next == head) == Unrolled(ring, head, tail, false) + [t]
  {
    var after := ring[tail := t];
    if head <= tail {
      assert after[head..tail + 1] == ring[head..tail] + [t];
      if tail + 1 == |ring| {
        assert after[head..] == ring[head..tail] + [t];
      }
    } else {
      assert after[head..] == ring[head..];
      assert after[..tail + 1] == ring[..tail] + [t];
    }
  }

  class RingBuffer<T> {
    const zero: T  // the element type's zero value
    var ring: array<T>
    var headPos: nat
    var tailPos: nat
    var full: bool

    ghost var Repr: set<object>

    ghost predicate Valid()
      reads this, Repr
      ensures Valid() ==> this in Repr
    {
      && Repr == {this, ring}
      && (ring.Length == 0 ==> headPos == tailPos == 0 && !full)
      && (0 < ring.Length ==> headPos < ring.Length && tailPos < ring.Length)
      && (full ==> headPos == tailPos)
    }

    ghost function Contents(): seq<T>
      requires Valid()
      reads this, Repr
    {
      Unrolled(ring[..], headPos, tailPos, full)
    }

    constructor (size: nat, zero: T)
      ensures Valid() && fresh(Repr)
      ensures this.zero == zero && Contents() == []
    {
      this.zero := zero;
      ring := new T[size](_ => zero);
      headPos, tailPos, full := 0, 0, false;
      new;
      Repr := {this, ring};
    }

    function Len(): nat
      requires Valid()
      reads this, Repr
      ensures Len() == |Contents()|
    {
      if full then ring.Length
      else if headPos <= tailPos then tailPos - headPos
      else tailPos - headPos + ring.Length
    }

    predicate Empty()
      requires Valid()
      reads this, Repr
      ensures Empty() <==> Contents() == []
    {
      !full && headPos == tailPos
    }

    method PushBack(t: T)
      requires Valid()
      modifies Repr
      ensures Valid() && fresh(Repr - old(Repr))
      ensures Contents() == old(Contents()) + [t]
    {
      if full || ring.Length == 0 {
        Grow();
      }
      Append(t);
    }

    // Writes the tail slot of a ring with room and advances the tail.
    method Append(t: T)
      requires Valid() && !full && 0 < ring.Length
      modifies this`tailPos, this`full, ring
      ensures Valid()
      ensures Contents() == old(Contents()) + [t]
    {
      PushUnrolls(ring[..], headPos, tailPos, t);
      hide Unrolled;
      ghost var before := ring[..];
      ring[tailPos] := t;
      assert ring[..] == before[tailPos := t];
      tailPos := tailPos + 1;
      if tailPos == ring.Length {
        tailPos := 0;
      }
      if tailPos == headPos {
        full := true;
      }
    }

    // Popping an empty buffer panics.
    method PopFront() returns (t: T)
      requires Valid() && Contents() != []
      modifies Repr
      ensures Valid() && Repr == old(Repr)
      ensures old(Contents()) == [t] + Contents()
    {
      full := false;
      t := ring[headPos];
      ring[headPos] := zero;
      headPos := headPos + 1;
      if headPos == ring.Length {
        headPos := 0;
      }
    }

    // An index outside the contents panics.
    function Offset(index: nat): (t: T)
      requires Valid() && index < |Contents()|
      reads this, Repr
      ensures t == Contents()[index]
    {
      WrapOnce(headPos + index, ring.Length);
      ring[(headPos + index) % ring.Length]
    }

    // A store through the pointer that Offset returns.
    method SetOffset(index: nat, t: T)
      requires Valid() && index < |Contents()|
      modifies Repr
      ensures Valid() && Repr == old(Repr)
      ensures Contents() == old(Contents())[index := t]
    {
      WrapOnce(headPos + index, ring.Length);
      ring[(headPos + index) % ring.Length] := t;
    }

    function Front(): (t: T)
      requires Valid() && Contents() != []
      reads this, Repr
      ensures t == Contents()[0]
    {
      ring[headPos]
    }

    function Back(): (t: T)
      requires Valid() && Contents() != []
      reads this, Repr
      ensures t == Contents()[|Contents()| - 1]
    {
      Offset(Len() - 1)
    }

    // Doubles the capacity of a full buffer, unrolling the wrapped contents to the front.
    method Grow()
      requires Valid() && (full || ring.Length == 0)
      modifies this
      ensures Valid() && fresh(Repr - old(Repr))
      ensures Contents() == old(Contents())
      ensures !full && ring.Length == if old(ring.Length) == 0 then 1 else 2 * old(ring.Length)
    {
      var oldRing := ring;
      var newSize := oldRing.Length * 2;
      if newSize == 0 {
        newSize := 1;
      }
      var grown := new T[newSize](_ => zero);
      var headLen := oldRing.Length - headPos;
      forall i | 0 <= i < headLen {
        grown[i] := oldRing[headPos + i];
      }
      forall i | 0 <= i < headPos {
        grown[headLen + i] := oldRing[i];
      }
      ring := grown;
      headPos, tailPos, full := 0, oldRing.Length, false;
      Repr := {this, ring};
      assert Contents() == old(Contents());
    }

    method Clear()
      requires Valid()
      modifies Repr
      ensures Valid() && Repr == old(Repr)
      ensures Contents() == []
    {
      for i := 0 to ring.Length
        invariant Valid() && Repr == old(Repr) && ring == old(ring)
      {
        ring[i] := zero;
      }
      headPos, tailPos, full := 0, 0, false;
    }
  }
}
