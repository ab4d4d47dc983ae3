/** The output batcher: transport packets leave in datagrams of exactly seven. */
module OutputUdp {
  import opened Framing

  const PER_DATAGRAM: nat := 7
  const PAYLOAD_BYTES: nat := 1316

  type TsPacket = p: seq<Byte> | |p| == PACKET_SIZE witness seq(PACKET_SIZE, _ => 0)

  /** The batcher's state: packets waiting, datagrams sent. */
  datatype Batch = Batch(pending: seq<TsPacket>, sent: seq<seq<Byte>>)

  datatype Reply = Reply(ok: bool, b: Batch)

  /** output_udp_flush */
  function Flushed(b: Batch, sends: bool): Reply {
    if b.pending == [] then Reply(true, b)
    else if |b.pending| != PER_DATAGRAM then Reply(true, b.(pending := []))
    else if !sends then Reply(false, b)
    else Reply(true, Batch([], b.sent + [Joined(b.pending)]))
  }

  /** output_udp_send_ts_packet */
  function Accepted(b: Batch, p: TsPacket, sends: bool): Reply {
    if |b.pending| >= PER_DATAGRAM then Reply(false, b) else
      var b1 := b.(pending := b.pending + [p]);
      if |b1.pending| == PER_DATAGRAM then Flushed(b1, sends) else Reply(true, b1)
  }

  lemma {:induction false} JoinedAppend(ps: seq<seq<Byte>>, qs: seq<seq<Byte>>)
    ensures Joined(ps + qs) == Joined(ps) + Joined(qs)
    decreases |ps|
  {
    if ps == [] {
      assert ps + qs == qs;
    } else {
      assert (ps + qs)[1..] == ps[1..] + qs;
      JoinedAppend(ps[1..], qs);
    }
  }

  lemma JoinedOne(p: seq<Byte>)
    ensures Joined([p]) == p
  {
    assert [p][1..] == [];
  }

  lemma {:induction false} PacketsLength(ps: seq<TsPacket>)
    ensures |Joined(ps)| == |ps| * PACKET_SIZE
    decreases |ps|
  {
    if ps != [] { PacketsLength(ps[1..]); }
  }

  // ---------------------------------------------------------------- the code

  class Output {
    const buffer: array<Byte>
    var pendingPackets: nat
    ghost var batch: Batch

    ghost predicate Valid()
      reads this, buffer
    {
      && buffer.Length == PAYLOAD_BYTES && pendingPackets == |batch.pending| <= PER_DATAGRAM
      && buffer[..pendingPackets * PACKET_SIZE] == Joined(batch.pending)
    }

    constructor ()
      ensures Valid() && fresh(buffer) && batch == Batch([], [])
    {
      buffer := new Byte[PAYLOAD_BYTES](_ => 0);
      pendingPackets := 0;
      batch := Batch([], []);
    }

    /** output_udp_flush; sends says whether sendto sends the whole payload */
    method Flush(sends: bool) returns (ok: bool)
      requires Valid()
      modifies this
      ensures Valid() && Reply(ok, batch) == Flushed(old(batch), sends)
    {
      if pendingPackets == 0 {
        return true;
      }
      if pendingPackets != PER_DATAGRAM {
        pendingPackets := 0;
        batch := batch.(pending := []);
        return true;
      }
      if !sends {
        return false;
      }
      assert buffer[..] == buffer[..pendingPackets * PACKET_SIZE];
      batch := Batch([], batch.sent + [buffer[..]]);
      pendingPackets := 0;
      ok := true;
    }

    /** output_udp_send_ts_packet */
    method SendTsPacket(p: TsPacket, sends: bool) returns (ok: bool)
      requires Valid()
      modifies this, buffer
      ensures Valid() && Reply(ok, batch) == Accepted(old(batch), p, sends)
    {
      if pendingPackets >= PER_DATAGRAM {
        return false;
      }
      var at := pendingPackets * PACKET_SIZE;
      forall i | 0 <= i < PACKET_SIZE {
        buffer[at + i] := p[i];
      }
      JoinedAppend(batch.pending, [p]);
      JoinedOne(p);
      assert buffer[..at + PACKET_SIZE] == buffer[..at] + buffer[at..at + PACKET_SIZE];
      assert buffer[at..at + PACKET_SIZE] == p;
      assert buffer[..at] == old(buffer[..at]);
      pendingPackets := pendingPackets + 1;
      batch := batch.(pending := batch.pending + [p]);
      if pendingPackets == PER_DATAGRAM {
        ok := Flush(sends);
        return;
      }
      ok := true;
    }
  }

  // ------------------------------------------------------------- whole streams

  /** The state after the packets ps, every send succeeding. */
  function Fed(ps: seq<TsPacket>): Batch
    decreases |ps|
  {
    if ps == [] then Batch([], []) else Accepted(Fed(ps[..|ps| - 1]), ps[|ps| - 1], true).b
  }

  /** Batching loses nothing: while sends succeed, the datagrams sent followed
      by the packets pending are the packets accepted; each datagram is exactly
      seven packets, and there is one for every seven. */
  lemma {:induction false} BatchingIsFaithful(ps: seq<TsPacket>)
    ensures var b := Fed(ps);
            && Joined(b.sent) + Joined(b.pending) == Joined(ps)
            && (forall i | 0 <= i < |b.sent| :: |b.sent[i]| == PAYLOAD_BYTES)
            && |b.sent| == |ps| / PER_DATAGRAM && |b.pending| == |ps| % PER_DATAGRAM
    decreases |ps|
  {
    if ps != [] {
      var n := |ps| - 1;
      var past, p := ps[..n], ps[n];
      BatchingIsFaithful(past);
      var b := Fed(past);
      var full := b.pending + [p];
      assert ps == past + [p];
      JoinedAppend(past, [p]);
      JoinedAppend(b.pending, [p]);
      JoinedOne(p);
      PacketsLength(full);
      JoinedAppend(b.sent, [Joined(full)]);
      JoinedOne(Joined(full));
      assert Joined(b.sent) + Joined(b.pending) + p == Joined(b.sent) + (Joined(b.pending) + p);
    }
  }

  // -------------------------------------------------------- when the network fails

  /** The state after the packets ps are offered one by one, whether accepted
      or not; net(k) says whether a send during the k-th would succeed. */
  function Offered(ps: seq<TsPacket>, net: nat -> bool): Batch
    decreases |ps|
  {
    if ps == [] then Batch([], []) else Accepted(Offered(ps[..|ps| - 1], net), ps[|ps| - 1], net(|ps| - 1)).b
  }

  /** Whether the k-th packet offered is accepted. */
  predicate Accepts(ps: seq<TsPacket>, net: nat -> bool, k: nat)
    requires k < |ps|
  {
    Accepted(Offered(ps[..k], net), ps[k], net(k)).ok
  }

  /** How many of the first n calls succeed. */
  function Successes(ok: nat -> bool, n: nat): nat {
    if n == 0 then 0 else Successes(ok, n - 1) + if ok(n - 1) then 1 else 0
  }

  /** One datagram is sent for every seven packets accepted, whatever the
      network does: once a send fails, nothing more is accepted. */
  lemma {:induction false} OneForSevenAccepted(ps: seq<TsPacket>, net: nat -> bool, ok: nat -> bool)
    requires forall k: nat | k < |ps| :: ok(k) <==> Accepts(ps, net, k)
    ensures var b, n := Offered(ps, net), Successes(ok, |ps|);
            && |b.sent| == n / PER_DATAGRAM
            && (|b.pending| == n % PER_DATAGRAM || (|b.pending| == PER_DATAGRAM && n % PER_DATAGRAM == PER_DATAGRAM - 1))
    decreases |ps|
  {
    if ps != [] {
      var n := |ps| - 1;
      var past := ps[..n];
      forall k: nat | k < n ensures ok(k) <==> Accepts(past, net, k) {
        assert past[..k] == ps[..k];
      }
      OneForSevenAccepted(past, net, ok);
      assert ok(n) <==> Accepts(ps, net, n);
    }
  }

  /** Every accept in such a stream succeeds, and the final flush sends no
      short datagram: it drops the at most six packets left over. */
  lemma FlushDropsTheRest(ps: seq<TsPacket>, p: TsPacket, sends: bool)
    ensures Accepted(Fed(ps), p, true).ok
    ensures var f := Flushed(Fed(ps), sends);
            f.ok && f.b == Batch([], Fed(ps).sent) && |Fed(ps).pending| <= 6
  {
    BatchingIsFaithful(ps);
  }

  /** Once a datagram cannot be sent, the batch is stuck: every later packet is
      refused and nothing changes until a flush succeeds. */
  lemma FailedSendSticks(b: Batch, p: TsPacket, q: TsPacket, sends: bool)
    requires |b.pending| == PER_DATAGRAM - 1
    ensures var o := Accepted(b, p, false);
            && !o.ok && |o.b.pending| == PER_DATAGRAM && Accepted(o.b, q, sends) == Reply(false, o.b)
            && Flushed(o.b, true) == Accepted(b, p, true)
  {
  }
}
