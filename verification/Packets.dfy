/** Transport packets, the records the engine keeps of them, and the
    continuity_counter rules of section 2.4.3.3 of ISO/IEC 13818-1. */
module Packets {

  datatype Option<+T> = None | Some(value: T)

  type Pid = n: nat | n < 8192
  type Counter = n: nat | n < 16

  /** A parsed 188-byte packet.  `hash` stands for its contents. */
  datatype Packet = Packet(hash: nat, pid: Pid, cc: Counter, hasPayload: bool, isNull: bool,
                           transportError: bool, discontinuity: bool, hasPcr: bool, pcr: nat)
  {
    /** Neither flagged damaged nor flagged discontinuous. */
    predicate Sound() { !transportError && !discontinuity }

    predicate Content() { !isNull && Sound() }
  }

  type StreamId = n: nat | n < 2

  /** One received packet: where it came from, its position in that stream, when it arrived. */
  datatype Record = Record(source: StreamId, index: nat, arrival: nat, packet: Packet)

  predicate SameIdentity(a: Packet, b: Packet) {
    a.hash == b.hash && a.pid == b.pid && a.cc == b.cc
  }

  /** records_match */
  predicate InformativeMatch(a: Packet, b: Packet) {
    a.Content() && b.Content() && SameIdentity(a, b)
  }

  /** records_exact_non_error_match */
  predicate ExactMatch(a: Packet, b: Packet) {
    a.Sound() && b.Sound() && SameIdentity(a, b)
  }

  /** records_are_non_null_exact_anchor, with None for a NULL record */
  predicate AnchorPair(a: Option<Record>, b: Option<Record>) {
    a.Some? && b.Some? && !a.value.packet.isNull && !b.value.packet.isNull &&
    ExactMatch(a.value.packet, b.value.packet)
  }

  function PacketsOf(rs: seq<Record>): (ps: seq<Packet>)
    ensures |ps| == |rs|
    ensures forall i | 0 <= i < |rs| :: ps[i] == rs[i].packet
  {
    seq(|rs|, i requires 0 <= i < |rs| => rs[i].packet)
  }

  // ---------------------------------------------------------------- continuity

  /** The last counter seen on each PID; absent means "no valid state". */
  type Counters = map<Pid, Counter>

  function NextCounter(c: Counter): Counter { (c + 1) % 16 }

  /** The counter a packet must carry after `last` on its PID: a packet
      without payload repeats the counter, one with payload advances it. */
  function Due(last: Counter, p: Packet): Counter {
    if p.hasPayload then NextCounter(last) else last
  }

  /** record_fits_output_states */
  predicate Fits(states: Counters, p: Packet) {
    p.isNull || (p.Sound() && (p.pid in states ==> p.cc == Due(states[p.pid], p)))
  }

  /** observe_output_states: the update used on a simulated copy */
  function Simulate(states: Counters, p: Packet): Counters {
    if p.Content() then states[p.pid := p.cc] else states
  }

  /** The state update of observe_output_record: damaged packets count too */
  function Observe(states: Counters, p: Packet): Counters {
    if p.isNull then states else states[p.pid := p.cc]
  }

  /** The duplicate-counter test of observe_output_record */
  predicate RepeatsCounter(states: Counters, p: Packet) {
    p.Content() && p.pid in states && p.hasPayload && p.cc == states[p.pid]
  }

  /** The continuity-error test of observe_output_record */
  predicate BreaksCounter(states: Counters, p: Packet) {
    p.Content() && p.pid in states && !RepeatsCounter(states, p) && p.cc != Due(states[p.pid], p)
  }

  /** Every packet of the run fits after the ones before it. */
  predicate FitsAll(states: Counters, ps: seq<Packet>)
    decreases |ps|
  {
    ps == [] || (Fits(states, ps[0]) && FitsAll(Observe(states, ps[0]), ps[1..]))
  }

  function ObserveAll(states: Counters, ps: seq<Packet>): Counters
    decreases |ps|
  {
    if ps == [] then states else ObserveAll(Observe(states, ps[0]), ps[1..])
  }

  /** Fitting is exactly being sound and counting as neither an error nor a
      duplicate, for every packet that carries content. */
  lemma FitsIffUncounted(states: Counters, p: Packet)
    ensures Fits(states, p) <==>
            p.isNull || (p.Sound() && !RepeatsCounter(states, p) && !BreaksCounter(states, p))
  {
  }

  lemma {:induction false} FitsAllSplit(states: Counters, a: seq<Packet>, b: seq<Packet>)
    ensures FitsAll(states, a + b) <==> FitsAll(states, a) && FitsAll(ObserveAll(states, a), b)
    ensures ObserveAll(states, a + b) == ObserveAll(ObserveAll(states, a), b)
    decreases |a|
  {
    if a == [] {
      assert a + b == b;
    } else {
      assert (a + b)[1..] == a[1..] + b;
      FitsAllSplit(Observe(states, a[0]), a[1..], b);
    }
  }

  /** Forgetting the state of some PIDs never makes a clean run unclean. */
  lemma {:induction false} FitsAllWithLess(less: Counters, more: Counters, ps: seq<Packet>)
    requires forall pid | pid in less :: pid in more && less[pid] == more[pid]
    requires FitsAll(more, ps)
    ensures FitsAll(less, ps)
    decreases |ps|
  {
    if ps != [] {
      FitsAllWithLess(Observe(less, ps[0]), Observe(more, ps[0]), ps[1..]);
    }
  }
}
