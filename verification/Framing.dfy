/** Splitting a datagram into transport packets and finding the packet
    boundary again after damage. */
module Framing {
  import opened Packets
  import opened State

  type Byte = n: nat | n < 256

  const PACKET_SIZE: nat := 188
  const SYNC_BYTE: Byte := 0x47
  const RUN_LENGTH: nat := 4

  /** size_t arithmetic */
  function Wrap64(x: int): nat { x % TWO64 }

  /** Whether ts_packet_parse accepts the packet at offset o. */
  predicate Parses(b: seq<Byte>, o: nat)
    requires o + PACKET_SIZE <= |b|
  {
    var control := (b[o + 3] / 16) % 4;
    b[o] == SYNC_BYTE && control != 0 && (control >= 2 && b[o + 4] != 0 ==> 5 + b[o + 4] <= PACKET_SIZE)
  }

  predicate SyncAt(b: seq<Byte>, o: nat) { o < |b| && b[o] == SYNC_BYTE }

  /** Four sync bytes a packet apart. */
  predicate SyncRun(b: seq<Byte>, o: nat) {
    forall i | 0 <= i < RUN_LENGTH :: SyncAt(b, o + i * PACKET_SIZE)
  }

  /** A boundary found this way is followed by a whole packet. */
  lemma RunFits(b: seq<Byte>, o: nat)
    requires SyncRun(b, o)
    ensures o + PACKET_SIZE <= |b|
  {
    assert SyncAt(b, o + 3 * PACKET_SIZE);
  }

  /** The first offset from o on that starts a sync run. */
  function FirstRun(b: seq<Byte>, o: nat): (r: Option<nat>)
    ensures r.Some? ==> o <= r.value < |b| && SyncRun(b, r.value) && forall x | o <= x < r.value :: !SyncRun(b, x)
    ensures r.None? ==> forall x | o <= x < |b| :: !SyncRun(b, x)
    decreases |b| - o
  {
    if o >= |b| then None else if SyncRun(b, o) then Some(o) else FirstRun(b, o + 1)
  }

  /** Where the loop goes after offset o. */
  function Next(b: seq<Byte>, o: nat): (n: nat)
    requires o + PACKET_SIZE <= |b|
    ensures n > o
  {
    if Parses(b, o) then o + PACKET_SIZE else
      var r := FirstRun(b, o + 1);
      if r.Some? then r.value else o + PACKET_SIZE
  }

  /** The offsets of the packets pushed, from offset o on. */
  function Frames(b: seq<Byte>, o: nat): seq<nat>
    decreases |b| - o
  {
    if o + PACKET_SIZE > |b| then []
    else if Parses(b, o) then [o] + Frames(b, Next(b, o))
    else Frames(b, Next(b, o))
  }

  /** The offset at which the loop ends. */
  function End(b: seq<Byte>, o: nat): nat
    decreases |b| - o
  {
    if o + PACKET_SIZE > |b| then o else End(b, Next(b, o))
  }

  /** How often the loop meets bytes that do not parse, from offset o on. */
  function Misfits(b: seq<Byte>, o: nat): nat
    decreases |b| - o
  {
    if o + PACKET_SIZE > |b| then 0 else (if Parses(b, o) then 0 else 1) + Misfits(b, Next(b, o))
  }

  /** How often it then finds a packet boundary again. */
  function Resyncs(b: seq<Byte>, o: nat): nat
    decreases |b| - o
  {
    if o + PACKET_SIZE > |b| then 0
    else (if !Parses(b, o) && FirstRun(b, o + 1).Some? then 1 else 0) + Resyncs(b, Next(b, o))
  }

  /** The packets pushed are whole, parse, do not overlap and come in order. */
  predicate Disjoint(b: seq<Byte>, from: nat, offsets: seq<nat>) {
    && (forall i | 0 <= i < |offsets| :: from <= offsets[i] && offsets[i] + PACKET_SIZE <= |b| && Parses(b, offsets[i]))
    && (forall i, j | 0 <= i < j < |offsets| :: offsets[i] + PACKET_SIZE <= offsets[j])
  }

  lemma {:induction false} FramesAreDisjoint(b: seq<Byte>, o: nat)
    ensures Disjoint(b, o, Frames(b, o))
    decreases |b| - o
  {
    hide Parses, FirstRun;
    if o + PACKET_SIZE <= |b| {
      FramesAreDisjoint(b, Next(b, o));
    }
  }

  // ------------------------------------------------------------------ the code

  /** has_sync_run */
  method HasSyncRun(b: seq<Byte>, o: nat) returns (run: bool)
    ensures run == SyncRun(b, o)
  {
    var i := 0;
    while i < RUN_LENGTH
      invariant 0 <= i <= RUN_LENGTH && forall j | 0 <= j < i :: SyncAt(b, o + j * PACKET_SIZE)
    {
      var at := o + i * PACKET_SIZE;
      if at >= |b| || b[at] != SYNC_BYTE {
        assert !SyncAt(b, o + i * PACKET_SIZE);
        return false;
      }
      i := i + 1;
    }
    run := true;
  }

  /** find_resync_offset */
  method FindResync(b: seq<Byte>, start: nat) returns (r: Option<nat>)
    ensures r == FirstRun(b, start + 1)
  {
    var o := start + 1;
    while o < |b|
      invariant FirstRun(b, o) == FirstRun(b, start + 1)
      decreases |b| - o
    {
      var run := HasSyncRun(b, o);
      if run {
        return Some(o);
      }
      o := o + 1;
    }
    r := None;
  }

  /** What a datagram did: the offsets pushed, and the counters bumped. */
  datatype Tally = Tally(pushed: seq<nat>, malformed: nat, resyncs: nat, partial: bool, ok: bool)

  lemma ResyncUndone(r: nat)
    requires r < TWO64
    ensures Wrap64(Wrap64(r - PACKET_SIZE) + PACKET_SIZE) == r
  {
    if r < PACKET_SIZE {
      assert (r - PACKET_SIZE) % TWO64 == r - PACKET_SIZE + TWO64;
    }
  }

  lemma SmallUnwrapped(x: nat)
    requires x < TWO64
    ensures Wrap64(x) == x
  {
  }

  lemma DisjointPrefix(b: seq<Byte>, o: nat, part: seq<nat>)
    requires part <= Frames(b, o)
    ensures Disjoint(b, o, part)
  {
    FramesAreDisjoint(b, o);
    var all := Frames(b, o);
    assert forall i | 0 <= i < |part| :: part[i] == all[i];
  }

  /** One turn of the loop. */
  lemma FramesStep(b: seq<Byte>, o: nat)
    requires o + PACKET_SIZE <= |b|
    ensures Frames(b, o) == (if Parses(b, o) then [o] else []) + Frames(b, Next(b, o)) && End(b, o) == End(b, Next(b, o))
    ensures Misfits(b, o) == (if Parses(b, o) then 0 else 1) + Misfits(b, Next(b, o))
    ensures Resyncs(b, o) == (if !Parses(b, o) && FirstRun(b, o + 1).Some? then 1 else 0) + Resyncs(b, Next(b, o))
    ensures Next(b, o) <= |b|
  {
  }

  /** process_datagram; accepts says which pushes into the engine succeed */
  method ProcessDatagram(b: seq<Byte>, accepts: nat -> bool) returns (out: Tally)
    requires |b| + PACKET_SIZE < TWO64
    ensures out.pushed <= Frames(b, 0) && Disjoint(b, 0, out.pushed)
    ensures out.ok <==> forall k | 0 <= k < |Frames(b, 0)| :: accepts(k)
    ensures out.ok ==> out.pushed == Frames(b, 0) && (out.partial <==> End(b, 0) != |b|)
    ensures out.ok ==> out.malformed == Misfits(b, 0) && out.resyncs == Resyncs(b, 0)
    ensures !out.ok ==> out.pushed != [] && !accepts(|out.pushed| - 1)
  {
    hide Parses, Wrap64, FirstRun, Frames, End, Misfits, Resyncs, Disjoint;
    out := Tally([], 0, 0, false, true);
    var offset: nat := 0;
    while offset + PACKET_SIZE <= |b|
      invariant out.ok && offset <= |b| && Frames(b, 0) == out.pushed + Frames(b, offset) && End(b, 0) == End(b, offset)
      invariant forall k | 0 <= k < |out.pushed| :: accepts(k)
      invariant Misfits(b, 0) == out.malformed + Misfits(b, offset) && Resyncs(b, 0) == out.resyncs + Resyncs(b, offset)
      decreases |b| - offset
    {
      ghost var here := offset;
      FramesStep(b, here);
      SmallUnwrapped(here + PACKET_SIZE);
      if !Parses(b, offset) {
        out := out.(malformed := out.malformed + 1);
        var r := FindResync(b, offset);
        if r.Some? {
          out := out.(resyncs := out.resyncs + 1);
          ResyncUndone(r.value);
          offset := Wrap64(r.value - PACKET_SIZE);
        }
      } else {
        var ok := accepts(|out.pushed|);
        out := out.(pushed := out.pushed + [offset], ok := ok);
        if !ok {
          DisjointPrefix(b, 0, out.pushed);
          return;
        }
      }
      offset := Wrap64(offset + PACKET_SIZE);
      assert offset == Next(b, here);
    }
    NothingLeft(b, offset);
    DisjointPrefix(b, 0, out.pushed);
    out := out.(partial := offset != |b|);
  }

  lemma NothingLeft(b: seq<Byte>, o: nat)
    requires o + PACKET_SIZE > |b|
    ensures Frames(b, o) == [] && End(b, o) == o && Misfits(b, o) == 0 && Resyncs(b, o) == 0
  {
  }

  // --------------------------------------------------------------- round trips

  function Joined(ps: seq<seq<Byte>>): seq<Byte>
    decreases |ps|
  {
    if ps == [] then [] else ps[0] + Joined(ps[1..])
  }

  predicate WholePacket(p: seq<Byte>) { |p| == PACKET_SIZE && Parses(p, 0) }

  predicate WholePackets(ps: seq<seq<Byte>>) { forall i | 0 <= i < |ps| :: WholePacket(ps[i]) }

  /** n packets, one after the other from offset o. */
  function Consecutive(o: nat, n: nat): seq<nat> { seq(n, i => o + i * PACKET_SIZE) }

  lemma {:induction false} JoinedLength(ps: seq<seq<Byte>>)
    requires WholePackets(ps)
    ensures |Joined(ps)| == |ps| * PACKET_SIZE
    decreases |ps|
  {
    if ps != [] { JoinedLength(ps[1..]); }
  }

  /** Whole packets sent one after the other are pushed exactly as sent,
      whatever precedes them in the datagram. */
  lemma {:induction false} JoinedFrames(junk: seq<Byte>, ps: seq<seq<Byte>>)
    requires WholePackets(ps)
    ensures Frames(junk + Joined(ps), |junk|) == Consecutive(|junk|, |ps|)
    ensures End(junk + Joined(ps), |junk|) == |junk + Joined(ps)|
    decreases |ps|
  {
    hide Parses, FirstRun;
    var b := junk + Joined(ps);
    if ps != [] {
      JoinedLength(ps);
      var junk' := junk + ps[0];
      assert b == junk' + Joined(ps[1..]);
      JoinedFrames(junk', ps[1..]);
      assert b[|junk|..|junk| + PACKET_SIZE] == ps[0];
      PacketInPlace(b, |junk|, ps[0]);
      assert Consecutive(|junk|, |ps|) == [|junk|] + Consecutive(|junk'|, |ps| - 1);
    }
  }

  lemma PacketInPlace(b: seq<Byte>, o: nat, p: seq<Byte>)
    requires WholePacket(p) && o + PACKET_SIZE <= |b| && b[o..o + PACKET_SIZE] == p
    ensures Parses(b, o)
  {
    assert forall i | 0 <= i < PACKET_SIZE :: b[o + i] == p[i];
  }

  /** Framing round trip: a datagram of whole packets yields those packets. */
  lemma FramingRoundTrip(ps: seq<seq<Byte>>)
    requires WholePackets(ps)
    ensures Frames(Joined(ps), 0) == Consecutive(0, |ps|) && End(Joined(ps), 0) == |Joined(ps)|
  {
    JoinedFrames([], ps);
    assert [] + Joined(ps) == Joined(ps);
  }

  lemma {:induction false} JoinedSyncs(junk: seq<Byte>, ps: seq<seq<Byte>>, i: nat)
    requires WholePackets(ps) && i < |ps|
    ensures SyncAt(junk + Joined(ps), |junk| + i * PACKET_SIZE)
    decreases i
  {
    JoinedLength(ps);
    if i > 0 {
      assert junk + Joined(ps) == (junk + ps[0]) + Joined(ps[1..]);
      JoinedSyncs(junk + ps[0], ps[1..], i - 1);
    }
  }

  /** Recovery from damage: if the datagram starts with bytes that do not parse
      and contain no sync run, and at least four whole packets follow, then
      exactly those packets are pushed. */
  lemma ResyncFindsThePackets(junk: seq<Byte>, ps: seq<seq<Byte>>)
    requires WholePackets(ps) && |ps| >= 4 && junk != []
    requires var b := junk + Joined(ps);
             |b| >= PACKET_SIZE && !Parses(b, 0) && forall x | 0 < x < |junk| :: !SyncRun(b, x)
    ensures Frames(junk + Joined(ps), 0) == Consecutive(|junk|, |ps|)
  {
    var b := junk + Joined(ps);
    forall i | 0 <= i < RUN_LENGTH ensures SyncAt(b, |junk| + i * PACKET_SIZE) {
      JoinedSyncs(junk, ps, i);
    }
    assert SyncRun(b, |junk|);
    assert FirstRun(b, 1) == Some(|junk|);
    JoinedFrames(junk, ps);
  }

  /** With no sync run behind it, a slot that does not parse is stepped over whole. */
  lemma NoRunStepsOver(b: seq<Byte>, o: nat)
    requires o + PACKET_SIZE <= |b| && !Parses(b, o) && forall x | o < x < |b| :: !SyncRun(b, x)
    ensures Next(b, o) == o + 188 && Frames(b, o) == Frames(b, o + 188)
  {
    hide Parses, SyncRun;
    assert FirstRun(b, o + 1).None?;
  }

  lemma PacketIsPushed(b: seq<Byte>, o: nat, p: seq<Byte>)
    requires WholePacket(p) && o + PACKET_SIZE <= |b| && b[o..o + PACKET_SIZE] == p
    ensures Frames(b, o) == [o] + Frames(b, o + PACKET_SIZE)
  {
    PacketInPlace(b, o, p);
    hide Parses, FirstRun;
  }

  lemma JoinedHead(junk: seq<Byte>, ps: seq<seq<Byte>>, rest: seq<Byte>)
    requires WholePackets(ps) && ps != []
    ensures var b := junk + Joined(ps) + rest;
            && |ps[0]| == PACKET_SIZE && |junk| + PACKET_SIZE <= |b| && b[|junk|..|junk| + PACKET_SIZE] == ps[0]
            && b == (junk + ps[0]) + Joined(ps[1..]) + rest
  {
    hide Parses;
    assert WholePacket(ps[0]) && Joined(ps) == ps[0] + Joined(ps[1..]);
    hide Joined, WholePacket;
    SliceHead(junk, ps[0], Joined(ps[1..]), rest);
  }

  lemma SliceHead(a: seq<Byte>, p: seq<Byte>, mid: seq<Byte>, rest: seq<Byte>)
    ensures var b := a + (p + mid) + rest;
            |a| + |p| <= |b| && b[|a|..|a| + |p|] == p && b == (a + p) + mid + rest
  {
  }

  lemma ConsecutiveHead(o: nat, n: nat)
    requires n > 0
    ensures Consecutive(o, n) == [o] + Consecutive(o + PACKET_SIZE, n - 1)
  {
  }

  /** Whole packets are pushed one after the other, whatever follows them. */
  lemma {:induction false} FramesThrough(junk: seq<Byte>, ps: seq<seq<Byte>>, rest: seq<Byte>)
    requires WholePackets(ps)
    ensures var b, o := junk + Joined(ps) + rest, |junk| + |ps| * PACKET_SIZE;
            Frames(b, |junk|) == Consecutive(|junk|, |ps|) + Frames(b, o)
    decreases |ps|
  {
    hide Parses, Frames, Joined;
    var b := junk + Joined(ps) + rest;
    if ps == [] {
      assert Consecutive(|junk|, 0) == [];
    } else {
      var o := |junk| + |ps| * PACKET_SIZE;
      JoinedHead(junk, ps, rest);
      FramesThrough(junk + ps[0], ps[1..], rest);
      PacketIsPushed(b, |junk|, ps[0]);
      ConsecutiveHead(|junk|, |ps|);
      hide Consecutive;
      assert [|junk|] + (Consecutive(|junk| + PACKET_SIZE, |ps| - 1) + Frames(b, o)) ==
             [|junk|] + Consecutive(|junk| + PACKET_SIZE, |ps| - 1) + Frames(b, o);
    }
  }

  /** A damaged slot near the end of a datagram, too near for a sync run behind
      it, costs that slot alone: the whole packets before and after it are pushed. */
  lemma DamagedSlotIsSkipped(ps: seq<seq<Byte>>, bad: seq<Byte>, qs: seq<seq<Byte>>)
    requires WholePackets(ps) && WholePackets(qs) && |bad| == PACKET_SIZE
    requires var b, o := Joined(ps) + bad + Joined(qs), |Joined(ps)|;
             !Parses(b, o) && forall x | o < x < |b| :: !SyncRun(b, x)
    ensures Frames(Joined(ps) + bad + Joined(qs), 0) ==
            Consecutive(0, |ps|) + Consecutive(|ps| * 188 + 188, |qs|)
  {
    hide Parses, SyncRun, Frames;
    var b, o := Joined(ps) + bad + Joined(qs), |Joined(ps)|;
    JoinedLength(ps);
    FramesThrough([], ps, bad + Joined(qs));
    assert [] + Joined(ps) + (bad + Joined(qs)) == b;
    NoRunStepsOver(b, o);
    JoinedFrames(Joined(ps) + bad, qs);
  }
}
