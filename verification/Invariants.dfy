/** What every move keeps, and therefore every run. */
module Invariants {
  import opened Packets
  import opened State
  import opened Gaps
  import opened GapFacts
  import opened Receive
  import opened Drain
  import opened Decisions
  import opened Protocol

  // ----------------------------------------------------------------- structure

  predicate FromStream(h: History, k: StreamId) {
    Indexed(h) && (forall i | 0 <= i < |h.log| :: h.log[i].source == k) && (h.log != [] ==> h.lo < |h.log|)
  }

  /** Histories hold the newest records, the queues are exactly the packets
      that have not left them yet. */
  predicate Structured(e: Engine) {
    && FromStream(e.h0, 0) && FromStream(e.h1, 1)
    && |e.fates| <= |e.h0.log| && e.q0 == e.h0.log[|e.fates|..]
    && |e.q1| <= |e.h1.log| && e.q1 == e.h1.log[|e.h1.log| - |e.q1|..]
  }

  lemma {:induction false} PruneKeepsNewest(h: History, cutoff: int)
    requires h.lo < |h.log| && h.log[|h.log| - 1].arrival >= cutoff
    ensures var p := Pruned(h, cutoff); p.log == h.log && h.lo <= p.lo < |h.log|
    decreases |h.log| - h.lo
  {
    if h.log[h.lo].arrival < cutoff {
      PruneKeepsNewest(h.(lo := h.lo + 1), cutoff);
    }
  }

  /** h' is h with r appended and possibly fewer old records retained. */
  predicate Extends(h: History, h': History, r: Record) {
    h'.log == h.log + [r] && h.lo <= h'.lo < |h'.log|
  }

  lemma ReceivedHistory(env: Env, e: Engine, k: StreamId, p: Packet)
    requires HistoryOf(e, k).lo <= |HistoryOf(e, k).log|
    ensures Extends(HistoryOf(e, k), NewHistory(env, e, k, p), NewRecord(env, e, k, p))
  {
    var a := Appended(HistoryOf(e, k), NewRecord(env, e, k, p), env.cfg.capacity);
    var retention := env.cfg.historyMs * 1000000;
    var now := env.clock(e.tick);
    if retention > 0 && now > retention {
      PruneKeepsNewest(a, now - retention);
    }
  }

  lemma QueuedIsSuffix(log: seq<Record>, q: seq<Record>, r: Record, capacity: nat)
    requires capacity > 0 && |q| <= |log| && q == log[|log| - |q|..]
    ensures var q' := Queued(q, r, capacity);
            |q'| <= |log| + 1 && q' == (log + [r])[|log| + 1 - |q'|..]
  {
  }

  lemma ExtendedStream(h: History, h': History, r: Record)
    requires FromStream(h, r.source) && r.index == |h.log| && Extends(h, h', r)
    ensures FromStream(h', r.source)
  {
  }

  lemma PrimaryEntry(cfg: Config, e: Engine, r: Record, h: History, a: Alignment)
    requires Structured(e) && r.source == 0 && r.index == |e.h0.log| && Extends(e.h0, h, r)
    ensures Structured(Entered(cfg, e, r, h, a))
  {
    hide FromStream;
    ExtendedStream(e.h0, h, r);
    QueuedIsSuffix(e.h0.log, e.q0, r, cfg.capacity);
  }

  lemma SecondaryEntry(cfg: Config, e: Engine, r: Record, h: History, a: Alignment)
    requires Structured(e) && r.source == 1 && r.index == |e.h1.log| && Extends(e.h1, h, r)
    ensures Structured(Entered(cfg, e, r, h, a))
  {
    hide FromStream, InputObserved, Simulate, Queued;
    ExtendedStream(e.h1, h, r);
    QueuedIsSuffix(e.h1.log, e.q1, r, cfg.capacity);
  }

  lemma StructuredEntry(cfg: Config, e: Engine, r: Record, h: History, a: Alignment)
    requires Structured(e) && r.index == |HistoryOf(e, r.source).log| && Extends(HistoryOf(e, r.source), h, r)
    ensures Structured(Entered(cfg, e, r, h, a))
  {
    if r.source == 0 {
      PrimaryEntry(cfg, e, r, h, a);
    } else {
      SecondaryEntry(cfg, e, r, h, a);
    }
  }

  lemma StructuredStep(env: Env, e: Engine, mv: Move)
    requires Structured(e) && Legal(env, e, mv)
    ensures Structured(Apply(env, e, mv))
  {
    if mv.Arrive? {
      hide Entered;
      ReceivedHistory(env, e, mv.k, mv.p);
      StructuredEntry(env.cfg, e, NewRecord(env, e, mv.k, mv.p), NewHistory(env, e, mv.k, mv.p), NewAlignment(env, e, mv.k, mv.p));
    } else {
      hide Structured, Accepted, Counted, Observe, Fits, Silent, ReturnReady, Slack, Cutoff, AlreadyOutput;
      QueuesStep(env, e, mv);
      var o := Apply(env, e, mv);
      if |o.fates| == |e.fates| {
        StructuredPops(e, o, 0, |e.q1| - |o.q1|);
      } else {
        StructuredPops(e, o, 1, 0);
      }
    }
  }

  /** Every move but an arrival leaves the histories alone and takes at most the
      head off a queue. */
  lemma QueuesStep(env: Env, e: Engine, mv: Move)
    requires Legal(env, e, mv) && !mv.Arrive?
    ensures var o := Apply(env, e, mv);
            && o.h0 == e.h0 && o.h1 == e.h1 && o.align == e.align
            && ((o.q0 == e.q0 && o.fates == e.fates && (o.q1 == e.q1 || (e.q1 != [] && o.q1 == e.q1[1..]))) ||
                (e.q0 != [] && o.q0 == e.q0[1..] && |o.fates| == |e.fates| + 1 && o.q1 == e.q1))
  {
    hide Fits, Counted, Observe, Silent, ReturnReady, Slack, Cutoff, AlreadyOutput;
  }

  lemma StructuredPops(e: Engine, o: Engine, i: nat, j: nat)
    requires Structured(e) && o.h0 == e.h0 && o.h1 == e.h1 && i <= |e.q0| && j <= |e.q1|
    requires o.q0 == e.q0[i..] && |o.fates| == |e.fates| + i && o.q1 == e.q1[j..]
    ensures Structured(o)
  {
    hide FromStream;
  }

  // --------------------------------------------------------------- conservation

  /** The primaries that met a given fate, in order. */
  function Kept(log: seq<Record>, fates: seq<Fate>, f: Fate): seq<Record>
    requires |fates| <= |log|
    decreases |fates|
  {
    if fates == [] then [] else
      var n := |fates| - 1;
      if fates[n] == f then Kept(log, fates[..n], f) + [log[n]] else Kept(log, fates[..n], f)
  }

  function NullCount(rs: seq<Record>): nat
    decreases |rs|
  {
    if rs == [] then 0 else NullCount(rs[..|rs| - 1]) + if rs[|rs| - 1].packet.isNull then 1 else 0
  }

  /** The books balance: the primaries emitted are exactly the ones sent, in
      order; every recovered, replaced and overflowed packet is counted once. */
  predicate Ledger(e: Engine)
    requires |e.fates| <= |e.h0.log|
  {
    && e.stats.output == |e.out| && e.stats.datagrams == |e.out| / 7
    && Through(e.out, Direct) == Kept(e.h0.log, e.fates, Emitted)
    && |Through(e.out, TeiFix)| == |Kept(e.h0.log, e.fates, Replaced)|
    && e.stats.overflows == |Kept(e.h0.log, e.fates, Overflowed)|
    && e.stats.recovered == |Through(e.out, Gap)| + |Through(e.out, TeiFix)|
    && e.stats.recovered == e.stats.recoveredNull + e.stats.recoveredContent
    && e.stats.recoveredNull == NullCount(Through(e.out, Gap))
  }

  lemma ThroughStep(out: seq<Emission>, x: Emission, via: Via)
    ensures Through(out + [x], via) == if x.via == via then Through(out, via) + [x.r] else Through(out, via)
  {
    assert (out + [x])[..|out|] == out;
  }

  lemma ThroughAllStep(out: seq<Emission>, x: Emission)
    ensures forall via :: Through(out + [x], via) == if x.via == via then Through(out, via) + [x.r] else Through(out, via)
  {
    forall via ensures Through(out + [x], via) == if x.via == via then Through(out, via) + [x.r] else Through(out, via) {
      ThroughStep(out, x, via);
    }
  }

  lemma KeptAllStep(log: seq<Record>, fates: seq<Fate>, x: Fate)
    requires |fates| < |log|
    ensures forall f :: Kept(log, fates + [x], f) == if x == f then Kept(log, fates, f) + [log[|fates|]] else Kept(log, fates, f)
  {
    assert (fates + [x])[..|fates|] == fates;
  }

  lemma {:induction false} KeptExtends(log: seq<Record>, r: Record, fates: seq<Fate>, f: Fate)
    requires |fates| <= |log|
    ensures Kept(log + [r], fates, f) == Kept(log, fates, f)
    decreases |fates|
  {
    if fates != [] {
      KeptExtends(log, r, fates[..|fates| - 1], f);
    }
  }

  lemma NullCountStep(rs: seq<Record>, r: Record)
    ensures NullCount(rs + [r]) == NullCount(rs) + if r.packet.isNull then 1 else 0
  {
    assert (rs + [r])[..|rs|] == rs;
  }

  lemma LedgerEntry(cfg: Config, e: Engine, r: Record, h: History, a: Alignment)
    requires Structured(e) && Ledger(e) && Extends(HistoryOf(e, r.source), h, r)
    ensures |Entered(cfg, e, r, h, a).fates| <= |Entered(cfg, e, r, h, a).h0.log|
    ensures Ledger(Entered(cfg, e, r, h, a))
  {
    if r.source == 0 {
      forall f ensures Kept(h.log, e.fates, f) == Kept(e.h0.log, e.fates, f) {
        KeptExtends(e.h0.log, r, e.fates, f);
      }
      KeptAllStep(h.log, e.fates, Overflowed);
    }
  }

  /** What the ledger needs to know of the counters of one emission. */
  lemma EmissionCounted(s: Stats, states: Counters, p: Packet)
    requires s.datagrams == s.output / 7
    ensures var t := Counted(s, states, p);
            && t.output == s.output + 1 && t.datagrams == t.output / 7 && t.overflows == s.overflows
            && t.recovered == s.recovered && t.recoveredNull == s.recoveredNull && t.recoveredContent == s.recoveredContent
  {
  }

  lemma LedgerFill(e: Engine, r: Record)
    requires |e.fates| <= |e.h0.log| && Ledger(e)
    ensures Ledger(Recovered(Accepted(e, r, Gap), r.packet.isNull))
  {
    EmissionCounted(e.stats, e.outCc, r.packet);
    hide Counted, Observe;
    ThroughAllStep(e.out, Emission(Gap, r));
    NullCountStep(Through(e.out, Gap), r);
  }

  lemma LedgerPass(e: Engine, m: Option<Record>)
    requires Structured(e) && Ledger(e) && e.q0 != []
    ensures Ledger(Popped(AnchorUpdated(Accepted(e, e.q0[0], Direct), e.q0[0], m), Emitted))
  {
    EmissionCounted(e.stats, e.outCc, e.q0[0].packet);
    hide Counted, Observe, BoundsMatch, FromStream;
    ThroughAllStep(e.out, Emission(Direct, e.q0[0]));
    KeptAllStep(e.h0.log, e.fates, Emitted);
  }

  lemma LedgerFix(e: Engine, r: Record)
    requires Structured(e) && Ledger(e) && e.q0 != []
    ensures Ledger(Popped(Recovered(Accepted(e, r, TeiFix), false), Replaced))
  {
    EmissionCounted(e.stats, e.outCc, r.packet);
    hide Counted, Observe, FromStream;
    ThroughAllStep(e.out, Emission(TeiFix, r));
    KeptAllStep(e.h0.log, e.fates, Replaced);
  }

  lemma LedgerSkip(e: Engine)
    requires Structured(e) && Ledger(e) && e.q0 != []
    ensures Ledger(Popped(e, Discarded))
  {
    hide FromStream, Through, NullCount;
    KeptAllStep(e.h0.log, e.fates, Discarded);
  }

  lemma LedgerStand(e: Engine)
    requires |e.fates| <= |e.h0.log| && Ledger(e) && e.q1 != []
    ensures Ledger(Accepted(e, e.q1[0], Failover).(q1 := e.q1[1..]))
  {
    EmissionCounted(e.stats, e.outCc, e.q1[0].packet);
    hide Counted, Observe;
    ThroughAllStep(e.out, Emission(Failover, e.q1[0]));
  }

  lemma LedgerStep(env: Env, e: Engine, mv: Move)
    requires Structured(e) && Ledger(e) && Legal(env, e, mv) && !mv.Arrive?
    ensures |Apply(env, e, mv).fates| <= |Apply(env, e, mv).h0.log|
    ensures Ledger(Apply(env, e, mv))
  {
    assert e.q0 != [] ==> |e.fates| < |e.h0.log|;
    hide Structured, Counted, Observe, Fits, Silent, ReturnReady, Slack, Cutoff, AlreadyOutput, BoundsMatch, Through, Kept, NullCount;
    match mv
    case Fill(r) => LedgerFill(e, r);
    case Pass(m) => LedgerPass(e, m);
    case Fix(r) => LedgerFix(e, r);
    case Skip => LedgerSkip(e);
    case Stand => LedgerStand(e);
    case _ =>
  }

  // ---------------------------------------------------------- sources and order

  /** Strictly increasing indexes, all below n. */
  predicate IncreasingTo(rs: seq<Record>, n: int) {
    (forall i, j | 0 <= i < j < |rs| :: rs[i].index < rs[j].index) && (forall i | 0 <= i < |rs| :: rs[i].index < n)
  }

  /** Nothing but primaries and received secondary packets is ever sent, and
      the fail-over packets leave in strictly increasing stream order, ahead
      of everything still queued. */
  predicate Sourced(e: Engine) {
    && (forall i | 0 <= i < |e.out| :: e.out[i].via != Direct ==> FromSecondary(e, e.out[i].r))
    && IncreasingTo(Through(e.out, Failover), |e.h1.log| - |e.q1|)
    && (e.lastOut0.Some? ==> e.lastOut0.value < |e.fates|)
    && (e.lastOut1.Some? ==> e.lastOut1.value < |e.h1.log|)
  }

  lemma SourcedEmission(e: Engine, r: Record, via: Via)
    requires Structured(e) && Sourced(e) && FromSecondary(e, r)
    requires via == Gap || via == TeiFix
    ensures Sourced(Accepted(e, r, via))
  {
    ThroughStep(e.out, Emission(via, r), Failover);
  }

  lemma SourcedPass(e: Engine, m: Option<Record>)
    requires Structured(e) && Sourced(e) && e.q0 != []
    ensures Sourced(Popped(AnchorUpdated(Accepted(e, e.q0[0], Direct), e.q0[0], m), Emitted))
  {
    ThroughStep(e.out, Emission(Direct, e.q0[0]), Failover);
  }

  lemma IncreasingNext(rs: seq<Record>, r: Record, n: int)
    requires IncreasingTo(rs, n) && r.index == n
    ensures IncreasingTo(rs + [r], n + 1)
  {
  }

  lemma SourcedStand(e: Engine)
    requires Structured(e) && Sourced(e) && e.q1 != []
    ensures Sourced(Accepted(e, e.q1[0], Failover).(q1 := e.q1[1..]))
  {
    hide Counted, Observe, Through, IncreasingTo, Structured;
    SecondaryHead(e);
    ThroughStep(e.out, Emission(Failover, e.q1[0]), Failover);
    IncreasingNext(Through(e.out, Failover), e.q1[0], e.q1[0].index);
  }

  lemma SecondaryHead(e: Engine)
    requires Structured(e) && e.q1 != []
    ensures e.q1[0].index == |e.h1.log| - |e.q1| && e.q1[0].source == 1 && FromSecondary(e, e.q1[0])
  {
    assert e.q1[0] == e.h1.log[|e.h1.log| - |e.q1|];
  }

  lemma SourcedStep(env: Env, e: Engine, mv: Move)
    requires Structured(e) && Sourced(e) && Legal(env, e, mv) && !mv.Arrive?
    ensures Sourced(Apply(env, e, mv))
  {
    hide Fits, Counted, Observe, Silent, ReturnReady, Slack, Cutoff, AlreadyOutput, Structured, Accepted;
    match mv
    case Fill(r) => SourcedEmission(e, r, Gap);
    case Pass(m) => SourcedPass(e, m);
    case Fix(r) => SourcedEmission(e, r, TeiFix);
    case Stand => SourcedStand(e);
    case _ =>
  }

  lemma SourcedEntry(cfg: Config, e: Engine, r: Record, h: History, a: Alignment)
    requires Structured(e) && Sourced(e) && Extends(HistoryOf(e, r.source), h, r)
    ensures Sourced(Entered(cfg, e, r, h, a))
  {
  }

  // ------------------------------------------------------------------ the anchor

  /** A valid anchor pairs a primary that has left the queue with a secondary
      copy of it, and it never runs ahead of the output. */
  predicate Anchored(e: Engine) {
    e.anchor.valid ==>
      && e.anchor.p < |e.fates| <= |e.h0.log| && e.anchor.s < |e.h1.log|
      && AnchorPair(Some(e.h0.log[e.anchor.p]), Some(e.h1.log[e.anchor.s]))
      && e.lastOut0.Some? && e.anchor.p <= e.lastOut0.value
  }

  /** An emission that is not a primary leaves the anchor where it is. */
  lemma AnchoredEmission(e: Engine, r: Record, via: Via)
    requires Anchored(e) && r.source == 1
    ensures Anchored(Accepted(e, r, via))
  {
    hide Counted, Observe, AnchorPair;
  }

  /** A primary sent moves the last output past the anchor, or becomes the anchor. */
  lemma AnchoredPass(e: Engine, m: Option<Record>)
    requires Structured(e) && Sourced(e) && Anchored(e) && e.q0 != [] && (m.Some? ==> FromSecondary(e, m.value))
    ensures Anchored(Popped(AnchorUpdated(Accepted(e, e.q0[0], Direct), e.q0[0], m), Emitted))
  {
    hide Counted, Observe, ExactMatch, IncreasingTo, Through;
    assert e.q0[0] == e.h0.log[|e.fates|] && e.q0[0].index == |e.fates| && e.q0[0].source == 0;
  }

  lemma SecondaryRecord(e: Engine, r: Record)
    requires Structured(e) && FromSecondary(e, r)
    ensures r.source == 1
  {
  }

  lemma AnchoredStep(env: Env, e: Engine, mv: Move)
    requires Structured(e) && Sourced(e) && Anchored(e) && Legal(env, e, mv) && !mv.Arrive?
    ensures Anchored(Apply(env, e, mv))
  {
    assert e.q0 != [] ==> |e.fates| < |e.h0.log|;
    hide Structured, Sourced, Accepted, Fits, Silent, ReturnReady, Slack, Cutoff, AlreadyOutput, AnchorPair, AnchorUpdated;
    match mv
    case Fill(r) =>
      SecondaryRecord(e, r);
      AnchoredEmission(e, r, Gap);
    case Pass(m) => AnchoredPass(e, m);
    case Fix(r) =>
      SecondaryRecord(e, r);
      AnchoredEmission(e, r, TeiFix);
    case Stand =>
      SecondaryHead(e);
      AnchoredEmission(e, e.q1[0], Failover);
    case _ =>
  }

  lemma AnchoredEntry(cfg: Config, e: Engine, r: Record, h: History, a: Alignment)
    requires Structured(e) && Anchored(e) && Extends(HistoryOf(e, r.source), h, r)
    ensures Anchored(Entered(cfg, e, r, h, a))
  {
  }

  // -------------------------------------------------------- continuity, switches

  /** Counted continuity damage never exceeds what was reported or sent
      without verification, and the switch counters tell the active source. */
  predicate Accounted(e: Engine) {
    Slack(e) >= 0 && e.stats.switches1 == e.stats.switches0 + e.active
  }

  lemma SlackEmission(e: Engine, r: Record, via: Via)
    ensures Slack(Accepted(e, r, via)) ==
            Slack(e) + (if via == Failover then 1 else 0)
            - (if RepeatsCounter(e.outCc, r.packet) || BreaksCounter(e.outCc, r.packet) then 1 else 0)
    ensures var o := Accepted(e, r, via);
            o.active == e.active && o.stats.switches0 == e.stats.switches0 && o.stats.switches1 == e.stats.switches1
  {
    ThroughStep(e.out, Emission(via, r), Failover);
  }

  lemma AccountedStep(env: Env, e: Engine, mv: Move)
    requires Accounted(e) && Legal(env, e, mv) && !mv.Arrive?
    ensures Accounted(Apply(env, e, mv))
  {
    hide Fits, RepeatsCounter, BreaksCounter, Accepted, Silent, ReturnReady, Cutoff, AlreadyOutput, Unrecoverable;
    match mv
    case Fill(r) =>
      FitsIffUncounted(e.outCc, r.packet);
      DamageIsContent(e.outCc, r.packet);
      SlackEmission(e, r, Gap);
    case Pass(m) =>
      FitsIffUncounted(e.outCc, e.q0[0].packet);
      DamageIsContent(e.outCc, e.q0[0].packet);
      SlackEmission(e, e.q0[0], Direct);
    case Fix(r) =>
      FitsIffUncounted(e.outCc, r.packet);
      SlackEmission(e, r, TeiFix);
    case Stand => SlackEmission(e, e.q1[0], Failover);
    case _ =>
  }

  lemma DamageIsContent(states: Counters, p: Packet)
    ensures RepeatsCounter(states, p) || BreaksCounter(states, p) ==> p.Content()
  {
  }

  // ------------------------------------------------------------------- alignment

  /** Primary packet i and secondary packet i + offset are informative copies. */
  predicate PairAt(l0: seq<Record>, l1: seq<Record>, offset: int, i: int) {
    0 <= i < |l0| && 0 <= i + offset < |l1| && InformativeMatch(l0[i].packet, l1[i + offset].packet)
  }

  /** Eight consecutive pairs at the offset, the last at primary index i. */
  predicate RunWitness(l0: seq<Record>, l1: seq<Record>, offset: int, i: int) {
    forall j | i - 8 < j <= i :: PairAt(l0, l1, offset, j)
  }

  /** A matching pair that carries a PCR. */
  predicate PcrWitness(l0: seq<Record>, l1: seq<Record>, offset: int, i: int) {
    && 0 <= i < |l0| && 0 <= i + offset < |l1| && l0[i].packet.hasPcr && l1[i + offset].packet.hasPcr
    && ExactMatch(l0[i].packet, l1[i + offset].packet)
  }

  ghost predicate Witnessed(l0: seq<Record>, l1: seq<Record>, offset: int) {
    exists i :: RunWitness(l0, l1, offset, i) || PcrWitness(l0, l1, offset, i)
  }

  /** An alignment in force rests on evidence in what was received. */
  ghost predicate AlignmentSound(a: Alignment, l0: seq<Record>, l1: seq<Record>) {
    a.confidence <= 100 && if a.has then Witnessed(l0, l1, a.offset) else a.confidence == 0
  }

  lemma WitnessExtends(l0: seq<Record>, l1: seq<Record>, m0: seq<Record>, m1: seq<Record>, offset: int)
    requires l0 <= m0 && l1 <= m1 && Witnessed(l0, l1, offset)
    ensures Witnessed(m0, m1, offset)
  {
    var i :| RunWitness(l0, l1, offset, i) || PcrWitness(l0, l1, offset, i);
    if RunWitness(l0, l1, offset, i) {
      assert forall j | PairAt(l0, l1, offset, j) :: PairAt(m0, m1, offset, j);
      assert RunWitness(m0, m1, offset, i);
    } else {
      assert PcrWitness(m0, m1, offset, i);
    }
  }

  lemma {:induction false} PcrMatchIsTwin(h: History, i: nat, r: Packet, best: Option<Record>)
    requires Indexed(h)
    requires best.Some? ==> PcrTwin(r, best.value.packet) && best.value.index < |h.log| && h.log[best.value.index] == best.value
    ensures var m := PcrMatch(h, i, r, best);
            m.Some? ==> PcrTwin(r, m.value.packet) && m.value.index < |h.log| && h.log[m.value.index] == m.value
    decreases |h.log| - i
  {
    if i < |h.log| {
      var c := h.log[i];
      PcrMatchIsTwin(h, i + 1, r,
                     if PcrTwin(r, c.packet) && (best.None? || c.arrival > best.value.arrival) then Some(c) else best);
    }
  }

  /** l0 and l1 in the order primary, secondary, whichever stream k is. */
  predicate Paired(k: StreamId, self: History, other: History, l0: seq<Record>, l1: seq<Record>) {
    if k == 0 then l0 == self.log && l1 == other.log else l1 == self.log && l0 == other.log
  }

  lemma PcrAlignmentSound(a: Alignment, self: History, other: History, k: StreamId, r: Record, l0: seq<Record>, l1: seq<Record>)
    requires Paired(k, self, other, l0, l1) && Indexed(other) && r.index < |self.log| && self.log[r.index] == r
    requires AlignmentSound(a, l0, l1)
    ensures AlignmentSound(PcrAligned(a, other, k, r), l0, l1)
    ensures a.has ==> PcrAligned(a, other, k, r).has
  {
    PcrMatchIsTwin(other, other.lo, r.packet, None);
    var b := PcrAligned(a, other, k, r);
    if b != a {
      var m := PcrMatch(other, other.lo, r.packet, None).value;
      assert PcrWitness(l0, l1, b.offset, if k == 0 then r.index else m.index);
    }
  }

  lemma ConfirmedIsWitness(self: History, other: History, k: StreamId, r: Record, j: nat, l0: seq<Record>, l1: seq<Record>)
    requires Paired(k, self, other, l0, l1) && r.index < |self.log| && self.log[r.index] == r
    requires Confirmed(self, other, r, j)
    ensures var a := AlignedPair(k, r.index, j); AlignmentSound(a, l0, l1) && a.has
  {
    var off := AlignedPair(k, r.index, j).offset;
    var i := if k == 0 then r.index else j;
    forall x | i - 8 < x <= i ensures PairAt(l0, l1, off, x) {
      if x < i { assert MatchBack(self, other, r.index, j, i - x); }
    }
    assert RunWitness(l0, l1, off, i);
  }

  lemma UpdatedAlignmentSound(cfg: Config, a: Alignment, self: History, other: History, k: StreamId, r: Record,
                              l0: seq<Record>, l1: seq<Record>)
    requires Paired(k, self, other, l0, l1) && r.index < |self.log| && self.log[r.index] == r
    requires AlignmentSound(a, l0, l1)
    ensures AlignmentSound(UpdatedAlignment(cfg, a, self, other, k, r), l0, l1)
    ensures a.has ==> UpdatedAlignment(cfg, a, self, other, k, r).has
  {
    if r.packet.Content() {
      var near := NearMatch(a, self, other, k, r);
      if near.Some? {
        ConfirmedIsWitness(self, other, k, r, near.value, l0, l1);
      } else if r.index % PROBE_INTERVAL == 0 {
        var wide := FirstConfirmed(self, other, r, r.index - SearchRadius(cfg), r.index + SearchRadius(cfg));
        if wide.Some? { ConfirmedIsWitness(self, other, k, r, wide.value, l0, l1); }
      }
    }
  }

  lemma AlignmentEntrySound(env: Env, e: Engine, k: StreamId, p: Packet)
    requires Structured(e) && AlignmentSound(e.align, e.h0.log, e.h1.log)
    ensures var e' := Ingest(env, e, k, p);
            AlignmentSound(e'.align, e'.h0.log, e'.h1.log) && (e.align.has ==> e'.align.has)
  {
    ReceivedHistory(env, e, k, p);
    var r, self, other := NewRecord(env, e, k, p), NewHistory(env, e, k, p), HistoryOf(e, 1 - k);
    var l0 := if k == 0 then self.log else e.h0.log;
    var l1 := if k == 1 then self.log else e.h1.log;
    if e.align.has { WitnessExtends(e.h0.log, e.h1.log, l0, l1, e.align.offset); }
    PcrAlignmentSound(e.align, self, other, k, r, l0, l1);
    UpdatedAlignmentSound(env.cfg, PcrAligned(e.align, other, k, r), self, other, k, r, l0, l1);
  }

  /** Fewer than eight packets confirm nothing. */
  lemma {:induction false} TooFewToConfirm(self: History, other: History, r: Record, first: int, last: int)
    requires r.index < 7
    ensures FirstConfirmed(self, other, r, first, last) == None
    decreases last - first + 1
  {
    if first <= last {
      var seventhBack := MatchBack(self, other, r.index, first, 7);
      TooFewToConfirm(self, other, r, first + 1, last);
    }
  }

  /** So early in a stream, only a PCR can align. */
  lemma EarlyAlignment(cfg: Config, a: Alignment, self: History, other: History, k: StreamId, r: Record)
    requires r.index < 7 && a.misses < 50
    ensures UpdatedAlignment(cfg, a, self, other, k, r) == if r.packet.Content() then a.(misses := a.misses + 1) else a
  {
    hide FirstConfirmed;
    var x := if k == 0 then r.index + a.offset else r.index - a.offset;
    TooFewToConfirm(self, other, r, x - SEARCH_EXTRA, x + SEARCH_EXTRA);
    TooFewToConfirm(self, other, r, r.index - SEARCH_EXTRA, r.index + SEARCH_EXTRA);
    TooFewToConfirm(self, other, r, r.index - SearchRadius(cfg), r.index + SearchRadius(cfg));
  }

  lemma PcrFound(h: History, r: Packet)
    requires h.lo == 0 && |h.log| == 1 && PcrTwin(r, h.log[0].packet)
    ensures PcrMatch(h, 0, r, None) == Some(h.log[0])
  {
  }

  // --------------------------------------------------------------- all of it

  ghost predicate Inv(e: Engine) {
    && Structured(e) && Ledger(e) && Sourced(e) && Anchored(e) && Accounted(e)
    && AlignmentSound(e.align, e.h0.log, e.h1.log)
  }

  /** No counter ever goes down. */
  predicate Grown(s: Stats, t: Stats) {
    && s.output <= t.output && s.errors <= t.errors && s.duplicates <= t.duplicates
    && s.recovered <= t.recovered && s.recoveredNull <= t.recoveredNull && s.recoveredContent <= t.recoveredContent
    && s.unrecoverable <= t.unrecoverable && s.rejects <= t.rejects && s.overflows <= t.overflows
    && s.lossEvents <= t.lossEvents && s.missing <= t.missing
    && s.switches0 <= t.switches0 && s.switches1 <= t.switches1
  }

  /** How a later state relates to an earlier one: nothing received, sent,
      counted or decided is revised, an alignment is never lost, and the anchor
      only moves to a later primary. */
  predicate Later(e: Engine, e': Engine) {
    && e.h0.log <= e'.h0.log && e.h1.log <= e'.h1.log && e.out <= e'.out && e.fates <= e'.fates
    && (e.align.has ==> e'.align.has)
    && (e.anchor.valid ==> e'.anchor == e.anchor || (e'.anchor.valid && e'.anchor.p > e.anchor.p))
    && Grown(e.stats, e'.stats)
  }

  lemma EmissionGrows(s: Stats, states: Counters, p: Packet)
    ensures Grown(s, Counted(s, states, p))
  {
  }

  lemma EmissionIsLater(e: Engine, r: Record, via: Via)
    ensures Later(e, Accepted(e, r, via))
  {
    EmissionGrows(e.stats, e.outCc, r.packet);
    hide Counted, Observe;
  }

  lemma PassIsLater(e: Engine, m: Option<Record>)
    requires Structured(e) && Anchored(e) && e.q0 != []
    ensures Later(e, Popped(AnchorUpdated(Accepted(e, e.q0[0], Direct), e.q0[0], m), Emitted))
  {
    assert e.q0[0].index == |e.fates|;
    EmissionGrows(e.stats, e.outCc, e.q0[0].packet);
    hide Counted, Observe, BoundsMatch, AnchorPair, FromStream;
  }

  lemma MoveIsLater(env: Env, e: Engine, mv: Move)
    requires Structured(e) && Anchored(e) && Legal(env, e, mv) && !mv.Arrive?
    ensures Later(e, Apply(env, e, mv))
  {
    hide Counted, Observe, Fits, Silent, ReturnReady, Slack, Unrecoverable, Accepted, Cutoff, AlreadyOutput, Anchored, Structured, AnchorUpdated;
    match mv
    case Fill(r) => EmissionIsLater(e, r, Gap);
    case Pass(m) => PassIsLater(e, m);
    case Fix(r) => EmissionIsLater(e, r, TeiFix);
    case Stand => EmissionIsLater(e, e.q1[0], Failover);
    case _ =>
  }

  lemma EntryIsLater(cfg: Config, e: Engine, r: Record, h: History, a: Alignment)
    requires Extends(HistoryOf(e, r.source), h, r) && (e.align.has ==> a.has)
    ensures Later(e, Entered(cfg, e, r, h, a))
  {
  }

  lemma AccountedEntry(cfg: Config, e: Engine, r: Record, h: History, a: Alignment)
    requires Accounted(e)
    ensures Accounted(Entered(cfg, e, r, h, a))
  {
  }

  lemma ArrivalKeepsInv(env: Env, e: Engine, k: StreamId, p: Packet)
    requires Inv(e)
    ensures Inv(Ingest(env, e, k, p)) && Later(e, Ingest(env, e, k, p))
  {
    ReceivedHistory(env, e, k, p);
    AlignmentEntrySound(env, e, k, p);
    var r, h, a := NewRecord(env, e, k, p), NewHistory(env, e, k, p), NewAlignment(env, e, k, p);
    StructuredEntry(env.cfg, e, r, h, a);
    LedgerEntry(env.cfg, e, r, h, a);
    SourcedEntry(env.cfg, e, r, h, a);
    AnchoredEntry(env.cfg, e, r, h, a);
    AccountedEntry(env.cfg, e, r, h, a);
    EntryIsLater(env.cfg, e, r, h, a);
    assert Ingest(env, e, k, p) == Entered(env.cfg, e, r, h, a);
    hide Entered;
  }

  lemma ArrivalIsIngest(env: Env, e: Engine, mv: Move)
    requires mv.Arrive?
    ensures Apply(env, e, mv) == Ingest(env, e, mv.k, mv.p)
  {
  }

  lemma MoveKeepsInv(env: Env, e: Engine, mv: Move)
    requires Inv(e) && Legal(env, e, mv)
    ensures Inv(Apply(env, e, mv)) && Later(e, Apply(env, e, mv))
  {
    hide Apply, Legal, Structured, Ledger, Sourced, Anchored, Accounted, AlignmentSound, Later;
    if mv.Arrive? {
      assert Apply(env, e, mv) == Ingest(env, e, mv.k, mv.p) by { ArrivalIsIngest(env, e, mv); }
      ArrivalKeepsInv(env, e, mv.k, mv.p);
    } else {
      QueuesStep(env, e, mv);
      MoveIsLater(env, e, mv);
      StructuredStep(env, e, mv);
      LedgerStep(env, e, mv);
      SourcedStep(env, e, mv);
      AnchoredStep(env, e, mv);
      AccountedStep(env, e, mv);
    }
  }

  lemma {:induction false} PathKeepsInv(env: Env, e: Engine, ms: seq<Move>)
    requires Inv(e) && Path(env, e, ms)
    ensures Inv(After(env, e, ms)) && Later(e, After(env, e, ms))
    decreases |ms|
  {
    if ms != [] {
      MoveKeepsInv(env, e, ms[0]);
      PathKeepsInv(env, Apply(env, e, ms[0]), ms[1..]);
    }
  }
}
