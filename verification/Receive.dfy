/** Receiving a packet: history retention, the alignment estimate, and the
    gap counters of the secondary input. */
module Receive {
  import opened Packets
  import opened State
  import opened Gaps

  const MATCH_THRESHOLD: nat := 8
  const PROBE_INTERVAL: nat := 512
  const SEARCH_PACKETS: nat := 2048

  // ------------------------------------------------------------------ history

  /** packet_history_push: the oldest record goes when the ring is full. */
  function Appended(h: History, r: Record, capacity: nat): History {
    History(h.log + [r], if |h.log| - h.lo < capacity then h.lo else h.lo + 1)
  }

  /** packet_history_prune_older_than */
  function Pruned(h: History, cutoff: int): History
    decreases |h.log| - h.lo
  {
    if h.lo < |h.log| && h.log[h.lo].arrival < cutoff then Pruned(h.(lo := h.lo + 1), cutoff) else h
  }

  function Retained(cfg: Config, h: History, now: nat): History {
    var retention := cfg.historyMs * 1000000;
    if retention > 0 && now > retention then Pruned(h, now - retention) else h
  }

  // ---------------------------------------------------------------- alignment

  /** update_alignment_from_match, given a primary and a secondary index */
  function AlignedAt(p: nat, s: nat): Alignment {
    Alignment(true, s - p, 100, 0)
  }

  /** The alignment a pair gives, `self` being on stream k. */
  function AlignedPair(k: StreamId, self: nat, other: nat): Alignment {
    if k == 0 then AlignedAt(self, other) else AlignedAt(other, self)
  }

  predicate PcrTwin(r: Packet, c: Packet) {
    c.hasPcr && c.pid == r.pid && c.pcr == r.pcr && c.Sound()
  }

  /** find_matching_pcr_record, from index i on, with the best so far */
  function PcrMatch(h: History, i: nat, r: Packet, best: Option<Record>): Option<Record>
    decreases |h.log| - i
  {
    if i >= |h.log| then best else
      var c := h.log[i];
      PcrMatch(h, i + 1, r,
               if PcrTwin(r, c.packet) && (best.None? || c.arrival > best.value.arrival) then Some(c) else best)
  }

  /** update_pcr_timing, as far as it can change the alignment */
  function PcrAligned(a: Alignment, other: History, k: StreamId, r: Record): Alignment {
    if !r.packet.hasPcr || !r.packet.Sound() then a else
      var m := PcrMatch(other, other.lo, r.packet, None);
      if m.Some? && ExactMatch(r.packet, m.value.packet) then AlignedPair(k, r.index, m.value.index) else a
  }

  predicate MatchBack(self: History, other: History, i: int, j: int, c: int) {
    Find(self, i - c).Some? && Find(other, j - c).Some? &&
    InformativeMatch(Find(self, i - c).value.packet, Find(other, j - c).value.packet)
  }

  /** has_confirmed_backward_run */
  predicate ConfirmedRun(self: History, other: History, i: nat, j: nat) {
    forall c | 1 <= c < MATCH_THRESHOLD :: i >= c && j >= c && MatchBack(self, other, i, j, c)
  }

  predicate Confirmed(self: History, other: History, r: Record, j: int) {
    j >= 0 && Find(other, j).Some? && InformativeMatch(r.packet, Find(other, j).value.packet) &&
    ConfirmedRun(self, other, r.index, j)
  }

  /** find_confirmed_matching_record_near, over the indexes first..last */
  function FirstConfirmed(self: History, other: History, r: Record, first: int, last: int): (m: Option<nat>)
    ensures m.Some? ==> first <= m.value <= last && Confirmed(self, other, r, m.value)
    decreases last - first + 1
  {
    if first > last then None
    else if Confirmed(self, other, r, first) then Some(first)
    else FirstConfirmed(self, other, r, first + 1, last)
  }

  /** alignment_search_radius_packets */
  function SearchRadius(cfg: Config): nat {
    var radius := (cfg.alignmentWindow * 14 + 999999) / 1000000;
    var atLeast := if radius < SEARCH_PACKETS then SEARCH_PACKETS else radius;
    if atLeast > cfg.capacity then cfg.capacity else atLeast
  }

  /** The narrow searches: around the aligned index, then around the same index. */
  function NearMatch(a: Alignment, self: History, other: History, k: StreamId, r: Record): Option<nat> {
    var x := if k == 0 then r.index + a.offset else r.index - a.offset;
    var m := if a.has then FirstConfirmed(self, other, r, x - SEARCH_EXTRA, x + SEARCH_EXTRA) else None;
    if m.Some? then m else FirstConfirmed(self, other, r, r.index - SEARCH_EXTRA, r.index + SEARCH_EXTRA)
  }

  function Missed(a: Alignment): Alignment {
    a.(misses := (a.misses + 1) % TWO32)
  }

  function Decayed(a: Alignment): Alignment {
    if a.misses >= 64 && a.confidence > 0 then a.(confidence := a.confidence - 1, misses := 0) else a
  }

  /** update_alignment */
  function UpdatedAlignment(cfg: Config, a: Alignment, self: History, other: History, k: StreamId, r: Record)
    : Alignment
  {
    if !r.packet.Content() then a else
      var near := NearMatch(a, self, other, k, r);
      if near.Some? then AlignedPair(k, r.index, near.value)
      else if r.index % PROBE_INTERVAL != 0 then Missed(a)
      else
        var wide := FirstConfirmed(self, other, r, r.index - SearchRadius(cfg), r.index + SearchRadius(cfg));
        if wide.Some? then AlignedPair(k, r.index, wide.value) else Decayed(Missed(a))
  }

  // ---------------------------------------------------- secondary gap counters

  /** Whether p does not follow the last counter of its PID. */
  predicate InputGap(states: Counters, p: Packet) {
    p.Content() && p.pid in states &&
    if p.hasPayload then p.cc != states[p.pid] && p.cc != NextCounter(states[p.pid])
    else p.cc != states[p.pid]
  }

  function GapSize(states: Counters, p: Packet): nat
    requires p.pid in states
  {
    var n := InferMissing(states[p.pid], p);
    if n.Some? then n.value else 1
  }

  /** observe_input_path_gap on the secondary */
  function InputObserved(s: Stats, states: Counters, p: Packet): Stats {
    if InputGap(states, p)
    then s.(lossEvents := s.lossEvents + 1, missing := s.missing + GapSize(states, p))
    else s
  }

  // ------------------------------------------------------------------- ingest

  /** delay_queue_push, dropping the oldest record of a full queue */
  function Queued(q: seq<Record>, r: Record, capacity: nat): seq<Record>
    requires capacity > 0
  {
    if |q| < capacity then q + [r] else q[1..] + [r]
  }

  function HistoryOf(e: Engine, k: StreamId): History { if k == 0 then e.h0 else e.h1 }

  /** The record of a packet received now on stream k. */
  function NewRecord(env: Env, e: Engine, k: StreamId, p: Packet): Record {
    Record(k, |HistoryOf(e, k).log|, env.clock(e.tick), p)
  }

  /** The stream's history with the new record in it. */
  function NewHistory(env: Env, e: Engine, k: StreamId, p: Packet): History {
    Retained(env.cfg, Appended(HistoryOf(e, k), NewRecord(env, e, k, p), env.cfg.capacity), env.clock(e.tick))
  }

  function NewAlignment(env: Env, e: Engine, k: StreamId, p: Packet): Alignment {
    var r := NewRecord(env, e, k, p);
    var other := HistoryOf(e, 1 - k);
    UpdatedAlignment(env.cfg, PcrAligned(e.align, other, k, r), NewHistory(env, e, k, p), other, k, r)
  }

  /** The state once record r is in history h and in its queue. */
  function Entered(cfg: Config, e: Engine, r: Record, h: History, a: Alignment): Engine {
    if r.source == 0 then
      var full := |e.q0| >= cfg.capacity;
      e.(tick := e.tick + 1, h0 := h, lastIn0 := r.arrival, align := a,
         q0 := Queued(e.q0, r, cfg.capacity),
         fates := if full then e.fates + [Overflowed] else e.fates,
         stats := if full then e.stats.(overflows := e.stats.overflows + 1) else e.stats)
    else
      e.(tick := e.tick + 1, h1 := h, lastIn1 := r.arrival, align := a,
         q1 := Queued(e.q1, r, cfg.capacity),
         in1 := Simulate(e.in1, r.packet),
         stats := InputObserved(e.stats, e.in1, r.packet))
  }

  /** recovery_engine_push_packet up to its call of drain */
  function Ingest(env: Env, e: Engine, k: StreamId, p: Packet): Engine {
    Entered(env.cfg, e, NewRecord(env, e, k, p), NewHistory(env, e, k, p), NewAlignment(env, e, k, p))
  }
}
