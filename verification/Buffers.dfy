/** The two ring buffers of the engine, refining sequences: the packet history
    with constant-time lookup by stream index, and the delay queue. */
module Buffers {
  import opened Packets
  import opened State
  import opened GapFacts
  import opened Receive

  /** The slot of the k-th element of a ring that starts at `start`. */
  function Slot(start: nat, k: nat, capacity: nat): nat {
    if start + k < capacity then start + k else start + k - capacity
  }

  lemma SlotIsModulo(start: nat, k: nat, capacity: nat)
    requires start < capacity && k <= capacity
    ensures (start + k) % capacity == Slot(start, k, capacity)
  {
    var x := start + k;
    var turns := x / capacity;
    assert x == turns * capacity + x % capacity;
    TurnsAreAtMostOne(turns, capacity, x);
  }

  lemma TurnsAreAtMostOne(turns: nat, capacity: nat, x: nat)
    requires turns * capacity <= x < 2 * capacity
    ensures turns * capacity == if turns == 0 then 0 else capacity
  {
    if turns >= 2 {
      assert turns * capacity == 2 * capacity + (turns - 2) * capacity;
    }
  }

  /** The ring holds s from slot `start` on. */
  predicate RingHolds(ring: seq<Record>, start: nat, s: seq<Record>) {
    start < |ring| && |s| <= |ring| && forall k | 0 <= k < |s| :: ring[Slot(start, k, |ring|)] == s[k]
  }

  /** Writing the slot after the last one appends. */
  lemma RingAppends(ring: seq<Record>, start: nat, s: seq<Record>, r: Record)
    requires RingHolds(ring, start, s) && |s| < |ring|
    ensures RingHolds(ring[Slot(start, |s|, |ring|) := r], start, s + [r])
  {
  }

  /** In a full ring, overwriting the first slot drops the oldest and appends. */
  lemma RingRotates(ring: seq<Record>, start: nat, s: seq<Record>, r: Record)
    requires RingHolds(ring, start, s) && |s| == |ring|
    ensures RingHolds(ring[start := r], Slot(start, 1, |ring|), s[1..] + [r])
  {
    RingPops(ring, start, s);
    forall k | 0 <= k < |s| - 1 ensures Slot(Slot(start, 1, |ring|), k, |ring|) != start {
    }
  }

  /** Moving the start drops the oldest. */
  lemma RingPops(ring: seq<Record>, start: nat, s: seq<Record>)
    requires RingHolds(ring, start, s) && s != []
    ensures RingHolds(ring, Slot(start, 1, |ring|), s[1..])
  {
    forall k | 0 <= k < |s| - 1 ensures Slot(Slot(start, 1, |ring|), k, |ring|) == Slot(start, k + 1, |ring|) {
    }
  }

  /** The slot an element is read from. */
  lemma RingAt(ring: seq<Record>, start: nat, s: seq<Record>, k: nat)
    requires RingHolds(ring, start, s) && k < |s|
    ensures (start + k) % |ring| < |ring| && ring[(start + k) % |ring|] == s[k]
  {
    SlotIsModulo(start, k, |ring|);
  }

  /** The retained records after a push. */
  lemma AppendedTail(h: History, r: Record, capacity: nat)
    requires Indexed(h) && r.index == |h.log| && 0 < capacity && |h.log| - h.lo <= capacity
    ensures var h' := Appended(h, r, capacity);
            && Indexed(h')
            && h'.log[h'.lo..] == if |h.log| - h.lo < capacity then h.log[h.lo..] + [r] else h.log[h.lo..][1..] + [r]
  {
  }

  /** packet_history_t.  The ghost field `hist` is everything ever pushed and
      the first index still retained; the ring holds exactly its tail. */
  class PacketHistory {
    const records: array<Record>
    var start: nat
    var count: nat
    ghost var hist: History
    ghost var tail: seq<Record>

    ghost predicate Valid()
      reads this, records
    {
      Indexed(hist) && tail == hist.log[hist.lo..] && count == |tail| && RingHolds(records[..], start, tail)
    }

    constructor (capacity: nat, filler: Record)
      requires capacity > 0
      ensures Valid() && fresh(records) && records.Length == capacity && hist == History([], 0)
    {
      records := new Record[capacity](_ => filler);
      start, count := 0, 0;
      hist, tail := History([], 0), [];
    }

    /** packet_history_push, with the record filled in */
    method Push(r: Record)
      requires Valid() && r.index == |hist.log|
      modifies this, records
      ensures Valid() && hist == Appended(old(hist), r, records.Length)
    {
      ghost var ring, n := records[..], records.Length;
      ghost var h := Appended(hist, r, n);
      assert |tail| <= n;
      AppendedTail(hist, r, n);
      SlotIsModulo(start, count, n);
      SlotIsModulo(start, 1, n);
      hide Appended, Indexed, RingHolds, Slot;
      var index;
      if count < records.Length {
        RingAppends(ring, start, tail, r);
        index := (start + count) % records.Length;
        count := count + 1;
      } else {
        RingRotates(ring, start, tail, r);
        index := start;
        start := (start + 1) % records.Length;
      }
      records[index] := r;
      assert records[..] == ring[index := r];
      hist, tail := h, h.log[h.lo..];
    }

    /** packet_history_prune_older_than */
    method PruneOlderThan(cutoff: int)
      requires Valid()
      modifies this
      ensures Valid() && hist == Pruned(old(hist), cutoff)
    {
      while count > 0
        invariant Valid() && Pruned(hist, cutoff) == Pruned(old(hist), cutoff)
        decreases count
      {
        RingAt(records[..], start, tail, 0);
        RingPops(records[..], start, tail);
        SlotIsModulo(start, 1, records.Length);
        hide RingHolds, Slot;
        if records[start].arrival >= cutoff {
          break;
        }
        start := (start + 1) % records.Length;
        count := count - 1;
        hist, tail := hist.(lo := hist.lo + 1), tail[1..];
      }
    }

    /** packet_history_find_index */
    method FindIndex(i: nat) returns (r: Option<Record>)
      requires Valid()
      ensures r == Find(hist, i)
    {
      if count == 0 {
        return None;
      }
      RingAt(records[..], start, tail, 0);
      var oldest := records[start].index;
      if i < oldest {
        return None;
      }
      var offset := i - oldest;
      if offset >= count {
        return None;
      }
      RingAt(records[..], start, tail, offset);
      var index := (start + offset) % records.Length;
      assert records[index] == tail[offset] == hist.log[i];
      if records[index].index != i {
        return None;
      }
      return Some(records[index]);
    }

    /** find_matching_pcr_record */
    method FindPcrMatch(p: Packet) returns (best: Option<Record>)
      requires Valid()
      ensures best == PcrMatch(hist, hist.lo, p, None)
    {
      best := None;
      var i := 0;
      while i < count
        invariant 0 <= i <= count && PcrMatch(hist, hist.lo + i, p, best) == PcrMatch(hist, hist.lo, p, None)
      {
        RingAt(records[..], start, tail, i);
        var c := records[(start + i) % records.Length];
        assert c == tail[i] == hist.log[hist.lo + i];
        if PcrTwin(p, c.packet) && (best.None? || c.arrival > best.value.arrival) {
          best := Some(c);
        }
        i := i + 1;
      }
    }
  }

  /** The first record of a sequence that carries the wanted index. */
  function LinearFind(rs: seq<Record>, i: nat): Option<Record>
    decreases |rs|
  {
    if rs == [] then None else if rs[0].index == i then Some(rs[0]) else LinearFind(rs[1..], i)
  }

  /** Looking an index up is what a linear search of the retained records finds. */
  lemma {:induction false} FindIsLinearSearch(h: History, i: nat)
    requires Indexed(h)
    ensures Find(h, i) == LinearFind(h.log[h.lo..], i)
    decreases |h.log| - h.lo
  {
    if h.lo < |h.log| {
      var rs := h.log[h.lo..];
      assert rs[0] == h.log[h.lo] && rs[1..] == h.log[h.lo + 1..];
      FindIsLinearSearch(h.(lo := h.lo + 1), i);
    }
  }

  /** primary_delay_queue_t, a FIFO over a ring. */
  class DelayQueue {
    const records: array<Record>
    var start: nat
    var count: nat
    ghost var contents: seq<Record>

    ghost predicate Valid()
      reads this, records
    {
      count == |contents| && RingHolds(records[..], start, contents)
    }

    constructor (capacity: nat, filler: Record)
      requires capacity > 0
      ensures Valid() && fresh(records) && records.Length == capacity && contents == []
    {
      records := new Record[capacity](_ => filler);
      start, count := 0, 0;
      contents := [];
    }

    /** delay_queue_front */
    method Front() returns (r: Option<Record>)
      requires Valid()
      ensures r == if contents == [] then None else Some(contents[0])
    {
      if count == 0 {
        return None;
      }
      RingAt(records[..], start, contents, 0);
      return Some(records[start]);
    }

    /** delay_queue_pop */
    method Pop()
      requires Valid()
      modifies this
      ensures Valid() && contents == if old(contents) == [] then [] else old(contents)[1..]
    {
      if count == 0 {
        return;
      }
      SlotIsModulo(start, 1, records.Length);
      RingPops(records[..], start, contents);
      start := (start + 1) % records.Length;
      count := count - 1;
      contents := contents[1..];
    }

    /** delay_queue_push */
    method Push(r: Record) returns (ok: bool)
      requires Valid()
      modifies this, records
      ensures Valid() && ok == (|old(contents)| < records.Length)
      ensures contents == if ok then old(contents) + [r] else old(contents)
    {
      if count >= records.Length {
        return false;
      }
      SlotIsModulo(start, count, records.Length);
      RingAppends(records[..], start, contents, r);
      var index := (start + count) % records.Length;
      records[index] := r;
      count := count + 1;
      contents := contents + [r];
      return true;
    }
  }
}
