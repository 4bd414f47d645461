// The sparse queue of bbr/packet_number_indexed_queue.go: a ring buffer of slots, some of them holes,
// that behaves as a finite map from packet numbers to entries.
module PacketQueues {
  import opened Options
  import opened Rates
  import opened RingBuffers

  datatype EntryWrapper<T> = EntryWrapper(present: bool, entry: T)

  // What a caller sees: the live entries, and the number of the last slot (INVALID_PACKET when empty).
  datatype Packets<T> = Packets(live: map<int, T>, last: int) {
    function Emplaced(packetNumber: int, entry: T): Packets<T> { Packets(live[packetNumber := entry], packetNumber) }

    function Keeping(rest: map<int, T>): Packets<T> { Packets(rest, if rest == map[] then INVALID_PACKET else last) }

    function Removed(packetNumber: int): Packets<T> { Keeping(live - {packetNumber}) }

    function RemovedUpTo(packetNumber: int): Packets<T> { Keeping(From(live, packetNumber)) }
  }

  function From<T>(live: map<int, T>, packetNumber: int): map<int, T> {
    map k | k in live && packetNumber <= k :: live[k]
  }

  // The entries present in a run of slots that starts at packet number first.
  ghost function Live<T>(slots: seq<EntryWrapper<T>>, first: int): map<int, T> {
    if slots == [] then map[]
    else
      var n := |slots| - 1;
      var rest := Live(slots[..n], first);
      if slots[n].present then rest[first + n := slots[n].entry] else rest
  }

  // Packet number k is live exactly when its slot exists and is not a hole.
  lemma {:induction false} LiveAt<T>(slots: seq<EntryWrapper<T>>, first: int, k: int)
    ensures k in Live(slots, first) <==> first <= k < first + |slots| && slots[k - first].present
    ensures k in Live(slots, first) ==> Live(slots, first)[k] == slots[k - first].entry
  {
    if slots != [] {
      LiveAt(slots[..|slots| - 1], first, k);
    }
  }

  lemma LivePush<T>(slots: seq<EntryWrapper<T>>, first: int, w: EntryWrapper<T>)
    ensures var n := first + |slots|;
            && Live(slots + [w], first) == (if w.present then Live(slots, first)[n := w.entry] else Live(slots, first))
            && |Live(slots + [w], first)| == |Live(slots, first)| + (if w.present then 1 else 0)
  {
    assert (slots + [w])[..|slots|] == slots;
    LiveAt(slots, first, first + |slots|);
    assert w.present ==> Live(slots + [w], first).Keys == Live(slots, first).Keys + {first + |slots|};
  }

  lemma Forget<T>(m: map<int, T>, k: int)
    ensures |m - {k}| == |m| - (if k in m then 1 else 0)
    ensures k !in m ==> m - {k} == m
  {
    assert (m - {k}).Keys == m.Keys - {k};
  }

  // Clearing one slot forgets one packet number, and nothing when the slot was a hole already.
  lemma {:induction false} LiveClear<T>(slots: seq<EntryWrapper<T>>, first: int, i: nat)
    requires i < |slots|
    ensures Live(slots[i := slots[i].(present := false)], first) == Live(slots, first) - {first + i}
  {
    var n := |slots| - 1;
    var hole := slots[i].(present := false);
    var rest := Live(slots[..n], first);
    if i == n {
      assert slots[i := hole][..n] == slots[..n];
      LiveAt(slots[..n], first, first + n);
      assert rest - {first + n} == rest;
    } else {
      LiveClear(slots[..n], first, i);
      assert slots[i := hole][..n] == slots[..n][i := hole];
    }
  }

  // Dropping the front slot shifts the run by one packet number.
  lemma LivePop<T>(slots: seq<EntryWrapper<T>>, first: int)
    requires slots != []
    ensures Live(slots[1..], first + 1) == Live(slots, first) - {first}
  {
    LiveClear(slots, first, 0);
    var cleared := slots[0 := slots[0].(present := false)];
    var before, after := Live(cleared, first), Live(slots[1..], first + 1);
    forall k ensures k in after <==> k in before
             ensures k in after ==> after[k] == before[k]
    {
      LiveAt(cleared, first, k);
      LiveAt(slots[1..], first + 1, k);
    }
    assert after == before;
  }

  // A run of slots whose first one is no hole spans its live packet numbers tightly.
  lemma LiveSpan<T>(slots: seq<EntryWrapper<T>>, first: int)
    requires slots != [] ==> slots[0].present
    ensures Live(slots, first) == map[] <==> slots == []
    ensures slots != [] ==> first in Live(slots, first)
    ensures forall k | k in Live(slots, first) :: first <= k < first + |slots|
  {
    forall k ensures k in Live(slots, first) ==> first <= k < first + |slots| {
      LiveAt(slots, first, k);
    }
    if slots != [] {
      LiveAt(slots, first, first);
    }
  }

  lemma FromNext<T>(live: map<int, T>, first: int)
    ensures From(live, first + 1) == From(live, first) - {first}
  {
  }

  // Where the popping loop of RemoveUpTo may stop: at the requested number, or past every live one.
  lemma FromFront<T>(live: map<int, T>, smallest: int, reached: int, wanted: int)
    requires forall k | k in live :: smallest <= k
    requires smallest <= reached <= Max(smallest, wanted)
    requires wanted <= reached || From(live, reached) == map[]
    ensures From(live, reached) == From(live, wanted)
  {
    if reached < wanted {
      forall k | k in live && wanted <= k ensures k in From(live, reached) {}
    }
  }

  class PacketNumberIndexedQueue<T> {
    const entries: RingBuffer<EntryWrapper<T>>
    var numberOfPresentEntries: int
    var firstPacket: int

    ghost var Repr: set<object>

    // Valid, except that holes may stand at the front while a removal is under way.
    ghost predicate Counted()
      reads this, Repr
      ensures Counted() ==> this in Repr && entries in Repr && entries.Repr <= Repr && entries.Valid()
    {
      && this in Repr && entries in Repr && entries.Repr <= Repr && this !in entries.Repr
      && entries.Valid()
      && !entries.zero.present
      && numberOfPresentEntries == |LiveNow()|
      && (entries.Contents() != [] ==> 0 <= firstPacket)
    }

    ghost predicate Valid()
      reads this, Repr
      ensures Valid() ==> this in Repr
    {
      && Counted()
      && (entries.Contents() == [] ==> firstPacket == INVALID_PACKET)
      && (entries.Contents() != [] ==> entries.Contents()[0].present)
    }

    ghost function LiveNow(): map<int, T>
      requires entries.Valid()
      reads this, entries, entries.Repr
    {
      Live(entries.Contents(), firstPacket)
    }

    ghost function View(): Packets<T>
      requires Valid()
      reads this, Repr
    {
      Packets(LiveNow(), if entries.Contents() == [] then INVALID_PACKET else firstPacket + |entries.Contents()| - 1)
    }

    // The slots span exactly the packet numbers from the smallest live one to the last.
    lemma Span()
      requires Valid()
      ensures numberOfPresentEntries == |View().live|
      ensures View().live == map[] <==> entries.Contents() == []
      ensures View().live != map[] ==>
                && firstPacket in View().live
                && (forall k | k in View().live :: firstPacket <= k <= View().last)
                && |entries.Contents()| == View().last - firstPacket + 1
    {
      LiveSpan(entries.Contents(), firstPacket);
    }

    constructor (size: nat, zero: T)
      ensures Valid() && fresh(Repr)
      ensures View() == Packets(map[], INVALID_PACKET)
    {
      entries := new RingBuffer(size, EntryWrapper(false, zero));
      numberOfPresentEntries, firstPacket := 0, INVALID_PACKET;
      new;
      Repr := {this} + entries.Repr;
    }

    predicate IsEmpty()
      requires Valid()
      reads this, Repr
      ensures IsEmpty() <==> View().live == map[]
    {
      numberOfPresentEntries == 0
    }

    function LastPacket(): int
      requires Valid()
      reads this, Repr
      ensures LastPacket() == View().last
    {
      Span();
      if IsEmpty() then INVALID_PACKET else firstPacket + entries.Len() - 1
    }

    // A nil entry is None.
    method Emplace(packetNumber: int, entry: Option<T>) returns (ok: bool)
      requires Valid() && INVALID_PACKET <= packetNumber
      modifies Repr
      ensures Valid() && fresh(Repr - old(Repr))
      ensures ok <==> entry.Some? && packetNumber != INVALID_PACKET
                      && (old(View()).live == map[] || old(View()).last < packetNumber)
      ensures View() == if ok then old(View()).Emplaced(packetNumber, entry.value) else old(View())
    {
      hide Live;
      hide Unrolled;
      Span();
      if packetNumber == INVALID_PACKET || entry.None? {
        return false;
      }
      if IsEmpty() {
        LiveSpan(entries.Contents(), packetNumber);
        firstPacket := packetNumber;
        PushEntry(entry.value);
        return true;
      }
      if packetNumber <= LastPacket() {
        return false;
      }
      var gap := packetNumber - firstPacket - entries.Len();
      if 0 < gap {
        AddHoles(gap);
      }
      PushEntry(entry.value);
      return true;
    }

    method PushEntry(entry: T)
      requires Counted() && 0 <= firstPacket
      requires entries.Contents() != [] ==> entries.Contents()[0].present
      modifies Repr
      ensures Valid() && fresh(Repr - old(Repr))
      ensures firstPacket == old(firstPacket) && |entries.Contents()| == |old(entries.Contents())| + 1
      ensures LiveNow() == old(LiveNow()[firstPacket + |entries.Contents()| := entry])
    {
      hide Live;
      hide Unrolled;
      LivePush(entries.Contents(), firstPacket, EntryWrapper(true, entry));
      entries.PushBack(EntryWrapper(true, entry));
      Repr := Repr + entries.Repr;
      numberOfPresentEntries := numberOfPresentEntries + 1;
    }

    // The filling loop of Emplace.
    method AddHoles(gap: nat)
      requires Valid() && entries.Contents() != []
      modifies Repr
      ensures Valid() && fresh(Repr - old(Repr))
      ensures firstPacket == old(firstPacket) && numberOfPresentEntries == old(numberOfPresentEntries)
      ensures |entries.Contents()| == |old(entries.Contents())| + gap
      ensures LiveNow() == old(LiveNow())
    {
      for i := 0 to gap
        invariant Valid() && fresh(Repr - old(Repr))
        invariant firstPacket == old(firstPacket) && numberOfPresentEntries == old(numberOfPresentEntries)
        invariant |entries.Contents()| == |old(entries.Contents())| + i
        invariant LiveNow() == old(LiveNow())
      {
        LivePush(entries.Contents(), firstPacket, entries.zero);
        entries.PushBack(entries.zero);
        Repr := Repr + entries.Repr;
      }
    }

    // The slot of a live packet number.
    function EntryWrapperAt(packetNumber: int): (index: Option<nat>)
      requires Valid()
      reads this, Repr
      ensures index.Some? <==> packetNumber in View().live
      ensures index.Some? ==>
                && index.value == packetNumber - firstPacket < |entries.Contents()|
                && entries.Contents()[index.value].present
    {
      LiveAt(entries.Contents(), firstPacket, packetNumber);
      if packetNumber == INVALID_PACKET || IsEmpty() || packetNumber < firstPacket then None
      else
        var offset := packetNumber - firstPacket;
        if entries.Len() <= offset then None
        else if !entries.Offset(offset).present then None
        else Some(offset)
    }

    function GetEntry(packetNumber: int): (entry: Option<T>)
      requires Valid()
      reads this, Repr
      ensures entry == if packetNumber in View().live then Some(View().live[packetNumber]) else None
    {
      LiveAt(entries.Contents(), firstPacket, packetNumber);
      var index := EntryWrapperAt(packetNumber);
      if index.None? then None else Some(entries.Offset(index.value).entry)
    }

    // The callback receives the entry that removed holds.
    method Remove(packetNumber: int) returns (removed: Option<T>)
      requires Valid()
      modifies Repr
      ensures Valid() && Repr == old(Repr)
      ensures removed == if packetNumber in old(View()).live then Some(old(View()).live[packetNumber]) else None
      ensures View() == old(View()).Removed(packetNumber)
    {
      hide Live;
      hide Unrolled;
      var index := EntryWrapperAt(packetNumber);
      LiveAt(entries.Contents(), firstPacket, packetNumber);
      if index.None? {
        assert LiveNow() - {packetNumber} == LiveNow();
        Span();
        return None;
      }
      var wrapper := entries.Offset(index.value);
      LiveClear(entries.Contents(), firstPacket, index.value);
      Forget(LiveNow(), packetNumber);
      ghost var last := View().last;
      entries.SetOffset(index.value, wrapper.(present := false));
      numberOfPresentEntries := numberOfPresentEntries - 1;
      if packetNumber == firstPacket {
        CleanUp(last);
      } else {
        Span();
      }
      return Some(wrapper.entry);
    }

    method RemoveUpTo(packetNumber: int)
      requires Valid()
      modifies Repr
      ensures Valid() && Repr == old(Repr)
      ensures View() == old(View()).RemovedUpTo(packetNumber)
    {
      Span();
      ghost var live, last := LiveNow(), View().last;
      assert From(live, firstPacket) == live;
      while !entries.Empty() && firstPacket != INVALID_PACKET && firstPacket < packetNumber
        invariant Counted() && Repr == old(Repr)
        invariant entries.Contents() != [] ==> firstPacket + |entries.Contents()| - 1 == last
        invariant old(firstPacket) <= firstPacket <= Max(old(firstPacket), packetNumber)
        invariant LiveNow() == From(live, firstPacket)
        decreases |entries.Contents()|
      {
        FromNext(live, firstPacket);
        DropFrontSlot();
      }
      FromFront(live, old(firstPacket), firstPacket, packetNumber);
      CleanUp(last);
    }

    method DropFrontSlot()
      requires Counted() && entries.Contents() != []
      modifies Repr
      ensures Counted() && Repr == old(Repr)
      ensures entries.Contents() == old(entries.Contents())[1..]
      ensures firstPacket == old(firstPacket) + 1
      ensures LiveNow() == old(LiveNow() - {firstPacket})
      ensures !old(entries.Contents())[0].present ==> LiveNow() == old(LiveNow())
    {
      hide Live;
      hide Unrolled;
      LivePop(entries.Contents(), firstPacket);
      LiveAt(entries.Contents(), firstPacket, firstPacket);
      Forget(LiveNow(), firstPacket);
      if entries.Front().present {
        numberOfPresentEntries := numberOfPresentEntries - 1;
      }
      var _ := entries.PopFront();
      assert entries.Contents() == old(entries.Contents())[1..];
      firstPacket := firstPacket + 1;
    }

    // Drops the holes at the front.
    method CleanUp(ghost last: int)
      requires Counted()
      requires entries.Contents() != [] ==> firstPacket + |entries.Contents()| - 1 == last
      modifies Repr
      ensures Valid() && Repr == old(Repr)
      ensures View() == Packets(old(LiveNow()), if old(LiveNow()) == map[] then INVALID_PACKET else last)
    {
      while !entries.Empty() && !entries.Front().present
        invariant Counted() && Repr == old(Repr)
        invariant entries.Contents() != [] ==> firstPacket + |entries.Contents()| - 1 == last
        invariant LiveNow() == old(LiveNow())
        decreases |entries.Contents()|
      {
        DropFrontSlot();
      }
      if entries.Empty() {
        firstPacket := INVALID_PACKET;
      }
      Span();
    }
  }
}
