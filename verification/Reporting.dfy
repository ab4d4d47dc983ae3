/** What is reported: when a primary passes without a word, which objection is
    recorded otherwise, and what it adds to the counters. */
module Reporting {
  import opened Packets
  import opened State
  import opened Gaps
  import opened GapFacts
  import opened Decisions
  import opened GapRules

  // -------------------------------------------------------------- reading a gap

  /** The first k packets of the gap can be read: retained, sound, and each
      fits after what was sent. */
  predicate ReadsThrough(e: Engine, b: nat, k: nat) {
    GapRetained(e, b, k) && AllSound(GapPackets(e, b, k)) && FitsAll(e.outCc, GapPackets(e, b, k))
  }

  /** The k-th packet of the gap is retained. */
  predicate GapHolds(e: Engine, b: nat, k: nat) { InHistory(e.h1, e.anchor.s + 1 + b + k) }

  function GapAt(e: Engine, b: nat, k: nat): Packet
    requires GapHolds(e, b, k)
  {
    e.h1.log[e.anchor.s + 1 + b + k].packet
  }

  /** What is wrong with the packet behind the part that can be read. */
  predicate StopsAt(e: Engine, b: nat, k: nat) {
    ReadsThrough(e, b, k) && !ReadsThrough(e, b, k + 1)
  }

  predicate WrongNext(e: Engine, b: nat, k: nat)
    requires ReadsThrough(e, b, k) && GapHolds(e, b, k)
  {
    var p := GapAt(e, b, k);
    !p.Sound() || !Fits(ObserveAll(e.outCc, GapPackets(e, b, k)), p)
  }

  /** The objection to a packet that is damaged, discontinuous or out of turn. */
  function Objection(p: Packet): Flaw {
    if p.transportError then Flaw(Tei, SecondaryTei)
    else if p.discontinuity then Flaw(Discontinuity, SecondaryDiscontinuity)
    else Flaw(WrongCounter, CounterContradiction)
  }

  lemma RetainedStep(e: Engine, b: nat, k: nat)
    requires GapRetained(e, b, k)
    ensures GapRetained(e, b, k + 1) <==> GapHolds(e, b, k)
    ensures GapRetained(e, b, k + 1) ==> GapPackets(e, b, k + 1) == GapPackets(e, b, k) + [GapAt(e, b, k)]
  {
  }

  lemma SoundAppend(ps: seq<Packet>, p: Packet)
    ensures AllSound(ps + [p]) <==> AllSound(ps) && p.Sound()
  {
    var qs := ps + [p];
    assert qs[|ps|] == p;
    assert forall i | 0 <= i < |ps| :: qs[i] == ps[i];
  }

  lemma FitsAllAppend(states: Counters, ps: seq<Packet>, p: Packet)
    ensures FitsAll(states, ps + [p]) <==> FitsAll(states, ps) && Fits(ObserveAll(states, ps), p)
  {
    FitsAllSplit(states, ps, [p]);
    assert [p][1..] == [];
  }

  /** Reading stops at a packet that is gone or wrong, and only there. */
  lemma StopsIff(e: Engine, b: nat, k: nat)
    requires ReadsThrough(e, b, k)
    ensures StopsAt(e, b, k) <==> !GapHolds(e, b, k) || WrongNext(e, b, k)
  {
    RetainedStep(e, b, k);
    if GapHolds(e, b, k) {
      SoundAppend(GapPackets(e, b, k), GapAt(e, b, k));
      FitsAllAppend(e.outCc, GapPackets(e, b, k), GapAt(e, b, k));
    }
    hide FitsAll, Fits, ObserveAll, AllSound;
  }

  /** A gap that cannot be read through stops somewhere. */
  lemma {:induction false} StopsSomewhere(e: Engine, b: nat, n: nat) returns (k: nat)
    requires !ReadsThrough(e, b, n)
    ensures k < n && StopsAt(e, b, k)
    decreases n
  {
    hide FitsAll, AllSound;
    if n > 0 && !ReadsThrough(e, b, n - 1) {
      k := StopsSomewhere(e, b, n - 1);
    } else {
      assert ReadsThrough(e, b, 0) by { ReadsNothing(e, b); }
      k := n - 1;
    }
  }

  lemma ReadsNothing(e: Engine, b: nat)
    ensures ReadsThrough(e, b, 0)
  {
  }

  // ------------------------------------------------- what the scans say of a stop

  lemma SpanSplit(h: History, i: nat, k: nat)
    requires k > 0 && Held(h, i, k)
    ensures Held(h, i + 1, k - 1) && InHistory(h, i)
    ensures PacketsOf(Span(h, i, k))[0] == h.log[i].packet && PacketsOf(Span(h, i, k))[1..] == PacketsOf(Span(h, i + 1, k - 1))
  {
    SpanStep(h, i, k);
  }

  lemma SoundTail(ps: seq<Packet>)
    requires ps != [] && AllSound(ps)
    ensures ps[0].Sound() && AllSound(ps[1..])
  {
  }

  /** Reading past a sound part, the null scan either has met content or goes on. */
  lemma {:induction false} NullScanPast(h: History, i: nat, k: nat, n: nat)
    requires k <= n && Held(h, i, k) && AllSound(PacketsOf(Span(h, i, k)))
    ensures NullScan(h, i, n) == Some(Flaw(MissingCandidate, NotNullGap)) || NullScan(h, i, n) == NullScan(h, i + k, n - k)
    decreases k
  {
    if k > 0 {
      SpanSplit(h, i, k);
      SoundTail(PacketsOf(Span(h, i, k)));
      NullScanPast(h, i + 1, k - 1, n - 1);
    }
  }

  /** Reading past a part that fits, the mixed scan goes on behind it. */
  lemma {:induction false} MixedScanPast(h: History, i: nat, k: nat, n: nat, content: bool, states: Counters)
    requires k <= n && Held(h, i, k) && AllSound(PacketsOf(Span(h, i, k))) && FitsAll(states, PacketsOf(Span(h, i, k)))
    ensures var ps := PacketsOf(Span(h, i, k));
            MixedScan(h, i, n, content, states) ==
            MixedScan(h, i + k, n - k, content || SomeContent(ps), ObserveAll(states, ps))
    decreases k
  {
    if k == 0 {
      assert PacketsOf(Span(h, i, 0)) == [];
    } else {
      SpanSplit(h, i, k);
      var ps := PacketsOf(Span(h, i, k));
      SoundTail(ps);
      SoundStep(ps[0], ps[1..]);
      assert [ps[0]] + ps[1..] == ps;
      var c := content || !ps[0].isNull;
      assert Simulate(states, ps[0]) == Observe(states, ps[0]);
      MixedScanPast(h, i + 1, k - 1, n - 1, c, Observe(states, ps[0]));
      assert MixedScan(h, i, n, content, states) == MixedScan(h, i + 1, n - 1, c, Observe(states, ps[0]));
    }
  }

  /** Where reading stops at a wrong packet. */
  lemma ScansAtWrong(e: Engine, b: nat, k: nat, n: nat)
    requires k < n && ReadsThrough(e, b, k) && GapHolds(e, b, k) && WrongNext(e, b, k)
    ensures var i := e.anchor.s + 1 + b;
            && (NullScan(e.h1, i, n) == Some(Flaw(MissingCandidate, NotNullGap)) ||
                NullScan(e.h1, i, n) == Some(Objection(GapAt(e, b, k))))
            && MixedScan(e.h1, i, n, false, e.outCc).flaw == Some(Objection(GapAt(e, b, k)))
  {
    var i := e.anchor.s + 1 + b;
    GapIsSpan(e, b, k);
    NullScanPast(e.h1, i, k, n);
    MixedScanPast(e.h1, i, k, n, false, e.outCc);
    assert Find(e.h1, i + k) == Some(e.h1.log[i + k]);
    hide FitsAll, ObserveAll, AllSound, Span, PacketsOf;
  }

  // --------------------------------------------------------- verdicts on a gap

  /** The first k packets of the gap are retained nulls, sound or not. */
  predicate NullRun(e: Engine, b: nat, k: nat) {
    GapRetained(e, b, k) && AllNull(GapPackets(e, b, k))
  }

  lemma {:induction false} OversizeScanIs(h: History, i: nat, k: nat)
    ensures var f := OversizeScan(h, i, k);
            if Held(h, i, k) && AllNull(PacketsOf(Span(h, i, k))) then f == Flaw(BurstTooLarge, NullBurstTooBig)
            else f.kind == MissingCandidate
    decreases k
  {
    if k == 0 {
      assert Span(h, i, k) == [];
    } else if Find(h, i).Some? {
      OversizeScanIs(h, i + 1, k - 1);
      if Held(h, i, k) {
        SpanSplit(h, i, k);
        NullTail(PacketsOf(Span(h, i, k)));
      }
    }
  }

  lemma NullTail(ps: seq<Packet>)
    requires ps != []
    ensures AllNull(ps) <==> ps[0].isNull && AllNull(ps[1..])
  {
    if ps[0].isNull && AllNull(ps[1..]) {
      forall i | 0 <= i < |ps| ensures ps[i].isNull {
        if i > 0 { assert ps[1..][i - 1].isNull; }
      }
    }
    if AllNull(ps) {
      forall i | 0 <= i < |ps[1..]| ensures ps[1..][i].isNull { assert ps[i + 1].isNull; }
    }
  }

  lemma LongGapVerdicts(cfg: Config, e: Engine, p: Record, m: Record, b: nat, n: nat)
    requires Offers(e, p, m, b, n) && n > cfg.maxBurst
    ensures MixedVerdict(cfg, e, p, m) == Invalid(BurstTooLarge, MixedBurstTooBig, n, true)
    ensures var v := NullVerdict(cfg, e, p, m);
            if NullRun(e, b, cfg.maxBurst + 1) then v == Invalid(BurstTooLarge, NullBurstTooBig, n, true)
            else !v.valid && v.why.kind == MissingCandidate
  {
    OfferedGap(e, p, m, b, n);
    GapIsSpan(e, b, cfg.maxBurst + 1);
    OversizeScanIs(e.h1, e.anchor.s + 1 + b, cfg.maxBurst + 1);
    hide BeyondAnchor, BoundsMatch, OversizeScan, AnchorHeld, PrefixMatches, Held, Span, PacketsOf, GapRecords, GapRetained, AllNull;
  }

  lemma DoubtfulVerdicts(cfg: Config, e: Engine, p: Record, m: Record, b: nat, n: nat)
    requires Offers(e, p, m, b, n) && 0 < n <= cfg.maxBurst && e.align.confidence < cfg.minConfidence
    ensures NullVerdict(cfg, e, p, m) == Invalid(LowAlignment, LowConfidence, n, true)
  {
    OfferedGap(e, p, m, b, n);
    hide BeyondAnchor, BoundsMatch, AnchorHeld, PrefixMatches;
  }

  /** Between streams that differ, positions say nothing. */
  lemma UnboundedVerdicts(cfg: Config, e: Engine, p: Record, m: Record, b: nat, n: nat)
    requires Offers(e, p, m, b, n) && Allowed(cfg, e, n) && !(AnchorIsPair(e) && Shared(e, b))
    ensures !NullVerdict(cfg, e, p, m).valid && NullVerdict(cfg, e, p, m).why.kind == Ambiguous
    ensures !MixedVerdict(cfg, e, p, m).valid && MixedVerdict(cfg, e, p, m).why.kind == Ambiguous
  {
    OfferedGap(e, p, m, b, n);
    AnchorIsPairHeld(e);
    SharedIsPrefix(e, b);
    hide BeyondAnchor, BoundsMatch, AnchorHeld, PrefixMatches, AnchorIsPair, Shared, NullScan, MixedScan;
  }

  /** Between good bounds, the verdicts are those of the scans. */
  lemma BoundedVerdicts(cfg: Config, e: Engine, p: Record, m: Record, b: nat, n: nat)
    requires Offers(e, p, m, b, n) && Allowed(cfg, e, n) && AnchorIsPair(e) && Shared(e, b)
    ensures var f := NullScan(e.h1, e.anchor.s + 1 + b, n);
            f.Some? ==> NullVerdict(cfg, e, p, m) == Invalid(f.value.kind, f.value.reason, n, true)
    ensures var t := MixedScan(e.h1, e.anchor.s + 1 + b, n, false, e.outCc);
            && (t.flaw.Some? ==> MixedVerdict(cfg, e, p, m) == Invalid(t.flaw.value.kind, t.flaw.value.reason, n, true))
            && (t.flaw.None? && !t.content ==> MixedVerdict(cfg, e, p, m) == Invalid(MissingCandidate, NotMixedGap, n, true))
            && (t.flaw.None? && t.content && !Fits(t.states, p.packet) ==>
                  var f := MisfitFlaw(e, p, e.anchor.s + 1 + b, n);
                  MixedVerdict(cfg, e, p, m) == Invalid(f.kind, f.reason, n, true))
  {
    OfferedGap(e, p, m, b, n);
    AnchorIsPairHeld(e);
    SharedIsPrefix(e, b);
    hide BeyondAnchor, BoundsMatch, AnchorHeld, PrefixMatches, AnchorIsPair, Shared, NullScan, MixedScan, MisfitFlaw, Fits;
  }

  // -------------------------------------------------------------- what is reported

  /** A loss longer than the limit is reported with its size, whatever else is
      the matter; only a run of nulls is told apart. */
  lemma LongGapIsReported(cfg: Config, e: Engine, p: Record, m: Record, b: nat, n: nat)
    requires SoleCopy(cfg, e, p, m) && Offers(e, p, m, b, n) && n > cfg.maxBurst
    ensures PrimaryPlan(cfg, e, p) ==
            Refuse(Rejection(BurstTooLarge, if NullRun(e, b, cfg.maxBurst + 1) then NullBurstTooBig else MixedBurstTooBig, n, true))
  {
    hide SoleCopy, NullVerdict, MixedVerdict, StagePlan, PrimaryPlan, NullRun;
    SolePlan(cfg, e, p, m);
    SoleCandidate(cfg, e, NullStage, p, m);
    SoleCandidate(cfg, e, MixedStage, p, m);
    LongGapVerdicts(cfg, e, p, m, b, n);
  }

  /** A loss met with too little confidence in the alignment is reported. */
  lemma DoubtfulGapIsReported(cfg: Config, e: Engine, p: Record, m: Record, b: nat, n: nat)
    requires SoleCopy(cfg, e, p, m) && Offers(e, p, m, b, n) && 0 < n <= cfg.maxBurst
    requires e.align.confidence < cfg.minConfidence
    ensures PrimaryPlan(cfg, e, p) == Refuse(Rejection(LowAlignment, LowConfidence, n, true))
  {
    hide SoleCopy, NullVerdict, MixedVerdict, StagePlan, PrimaryPlan;
    SolePlan(cfg, e, p, m);
    SoleCandidate(cfg, e, NullStage, p, m);
    DoubtfulVerdicts(cfg, e, p, m, b, n);
  }

  /** A gap with a damaged or discontinuous packet, or one out of turn, behind a
      part that reads well is reported for that packet. */
  lemma WrongGapIsReported(cfg: Config, e: Engine, p: Record, m: Record, b: nat, n: nat, k: nat)
    requires SoleCopy(cfg, e, p, m) && Offers(e, p, m, b, n) && Allowed(cfg, e, n) && AnchorIsPair(e) && Shared(e, b)
    requires k < n && ReadsThrough(e, b, k) && GapHolds(e, b, k) && WrongNext(e, b, k)
    ensures var f := Objection(GapAt(e, b, k));
            PrimaryPlan(cfg, e, p) == Refuse(Rejection(f.kind, f.reason, n, true))
  {
    hide SoleCopy, NullVerdict, MixedVerdict, StagePlan, PrimaryPlan, NullScan, MixedScan, AnchorIsPair, Shared, FitsAll, Fits, WrongNext;
    SolePlan(cfg, e, p, m);
    SoleCandidate(cfg, e, NullStage, p, m);
    SoleCandidate(cfg, e, MixedStage, p, m);
    BoundedVerdicts(cfg, e, p, m, b, n);
    ScansAtWrong(e, b, k, n);
  }

  /** A fitting primary that would not fit after the packets of the gap. */
  lemma MisfitIsReported(cfg: Config, e: Engine, p: Record, m: Record, b: nat, n: nat)
    requires SoleCopy(cfg, e, p, m) && Offers(e, p, m, b, n) && Allowed(cfg, e, n) && AnchorIsPair(e) && Shared(e, b)
    requires ReadsThrough(e, b, n) && SomeContent(GapPackets(e, b, n))
    requires Fits(e.outCc, p.packet) && !Fits(ObserveAll(e.outCc, GapPackets(e, b, n)), p.packet)
    ensures PrimaryPlan(cfg, e, p) == Refuse(Rejection(WrongCounter, AfterAnchorCounter, n, true))
  {
    MisfitVerdict(cfg, e, p, m, b, n);
    hide SoleCopy, NullVerdict, MixedVerdict, StagePlan, PrimaryPlan, AnchorIsPair, Shared, GapPackets, GapRetained, FitsAll, ObserveAll,
         Fits, AllSound, SomeContent;
    SolePlan(cfg, e, p, m);
    SoleCandidate(cfg, e, NullStage, p, m);
    SoleCandidate(cfg, e, MixedStage, p, m);
  }

  lemma MisfitVerdict(cfg: Config, e: Engine, p: Record, m: Record, b: nat, n: nat)
    requires p.packet.Content() && Offers(e, p, m, b, n) && Allowed(cfg, e, n) && AnchorIsPair(e) && Shared(e, b)
    requires ReadsThrough(e, b, n) && SomeContent(GapPackets(e, b, n))
    requires Fits(e.outCc, p.packet) && !Fits(ObserveAll(e.outCc, GapPackets(e, b, n)), p.packet)
    ensures MixedVerdict(cfg, e, p, m) == Invalid(WrongCounter, AfterAnchorCounter, n, true)
    ensures !NullVerdict(cfg, e, p, m).valid && NullVerdict(cfg, e, p, m).why.kind == MissingCandidate
  {
    ReadGapScans(e, b, n);
    FittingMisfit(e, p, b, n);
    NullOrContent(GapPackets(e, b, n));
    NullApprovedIff(cfg, e, p, m, b, n);
    NullVerdictOfSound(cfg, e, p, m, b, n);
    hide NullVerdict, MixedVerdict, NullScan, MixedScan, AnchorIsPair, Shared, FitsAll, MisfitFlaw, PacketsOf, AllSound, ObserveAll, Fits,
         GapRecords, GapRetained;
    BoundedVerdicts(cfg, e, p, m, b, n);
  }

  /** A run of packets without this PID leaves its counter alone. */
  lemma {:induction false} OtherPidsKeep(states: Counters, ps: seq<Packet>, pid: Pid)
    requires forall i | 0 <= i < |ps| :: ps[i].isNull || ps[i].pid != pid
    ensures pid in ObserveAll(states, ps) <==> pid in states
    ensures pid in states ==> ObserveAll(states, ps)[pid] == states[pid]
    decreases |ps|
  {
    if ps != [] { OtherPidsKeep(Observe(states, ps[0]), ps[1..], pid); }
  }

  /** If p fits before the gap but not after it, the gap has packets of its PID. */
  lemma FittingMisfit(e: Engine, p: Record, b: nat, n: nat)
    requires p.packet.Content() && GapRetained(e, b, n) && Fits(e.outCc, p.packet)
    requires !Fits(ObserveAll(e.outCc, GapPackets(e, b, n)), p.packet)
    ensures MisfitFlaw(e, p, e.anchor.s + 1 + b, n) == Flaw(WrongCounter, AfterAnchorCounter)
  {
    var ps := GapPackets(e, b, n);
    var i := e.anchor.s + 1 + b;
    if forall k | 0 <= k < |ps| :: ps[k].isNull || ps[k].pid != p.packet.pid {
      OtherPidsKeep(e.outCc, ps, p.packet.pid);
    } else {
      var k :| 0 <= k < |ps| && !ps[k].isNull && ps[k].pid == p.packet.pid;
      assert Find(e.h1, i + k) == Some(e.h1.log[i + k]) && e.h1.log[i + k].packet == ps[k];
      assert CarriesPid(e.h1, i, n, p.packet.pid);
    }
  }

  /** The gaps that pass without a word before a primary that fits: allowed ones
      between streams that differ at or since the anchor, or of nulls that do not
      follow the anchor directly. */
  predicate PassesInSilence(cfg: Config, e: Engine, b: nat, n: nat) {
    Allowed(cfg, e, n) && (!AnchorIsPair(e) || !Shared(e, b) || (b > 0 && NullGap(cfg, e, b, n)))
  }

  /** Between an anchor and a copy that are both retained, so is the gap. */
  lemma GapIsHeld(cfg: Config, e: Engine, p: Record, m: Record, b: nat, n: nat, k: nat)
    requires SoleCopy(cfg, e, p, m) && Offers(e, p, m, b, n) && AnchorIsPair(e) && k < n
    ensures GapHolds(e, b, k)
  {
  }

  lemma BoundedGapIsSilentIff(cfg: Config, e: Engine, p: Record, m: Record, b: nat, n: nat)
    requires SoleCopy(cfg, e, p, m) && Offers(e, p, m, b, n) && Allowed(cfg, e, n) && AnchorIsPair(e) && Shared(e, b)
    requires Fits(e.outCc, p.packet)
    ensures PrimaryPlan(cfg, e, p) == Keep <==> b > 0 && NullGap(cfg, e, b, n)
  {
    hide SoleCopy, PrimaryPlan, StagePlan, NullVerdict, MixedVerdict, AnchorIsPair, Shared, Fits, ReadsThrough, NullGap, WrongNext, GapHolds;
    if ReadsThrough(e, b, n) {
      WholeGapIsSilentIff(cfg, e, p, m, b, n);
    } else {
      var k := StopsSomewhere(e, b, n);
      StopsIff(e, b, k);
      GapIsHeld(cfg, e, p, m, b, n, k);
      WrongGapIsReported(cfg, e, p, m, b, n, k);
      NullGapReads(cfg, e, b, n);
    }
  }

  lemma NullGapReads(cfg: Config, e: Engine, b: nat, n: nat)
    ensures NullGap(cfg, e, b, n) ==> ReadsThrough(e, b, n)
  {
    if NullGap(cfg, e, b, n) { NullsAlwaysFit(e.outCc, GapPackets(e, b, n)); }
  }

  /** A gap that reads through is filled or reported, unless it is of nulls
      behind packets shared. */
  lemma WholeGapIsSilentIff(cfg: Config, e: Engine, p: Record, m: Record, b: nat, n: nat)
    requires SoleCopy(cfg, e, p, m) && Offers(e, p, m, b, n) && Allowed(cfg, e, n) && AnchorIsPair(e) && Shared(e, b)
    requires ReadsThrough(e, b, n) && Fits(e.outCc, p.packet)
    ensures PrimaryPlan(cfg, e, p) == Keep <==> b > 0 && NullGap(cfg, e, b, n)
  {
    hide SoleCopy, PrimaryPlan, StagePlan, NullVerdict, MixedVerdict, AnchorIsPair, Shared, Fits, FitsAll, ObserveAll, AllSound, AllNull,
         PacketsOf, SomeContent;
    NullOrContent(GapPackets(e, b, n));
    if SomeContent(GapPackets(e, b, n)) {
      if Fits(ObserveAll(e.outCc, GapPackets(e, b, n)), p.packet) {
        MixedGapIsFilled(cfg, e, p, m, b, n);
      } else {
        MisfitIsReported(cfg, e, p, m, b, n);
      }
    } else if b == 0 {
      NullGapIsFilled(cfg, e, p, m, n);
    } else {
      NullsBehindAreKept(cfg, e, p, m, b, n);
    }
  }

  lemma NullsBehindAreKept(cfg: Config, e: Engine, p: Record, m: Record, b: nat, n: nat)
    requires SoleCopy(cfg, e, p, m) && Offers(e, p, m, b, n) && NullGap(cfg, e, b, n) && b > 0 && Fits(e.outCc, p.packet)
    ensures PrimaryPlan(cfg, e, p) == Keep
  {
    OfferedGap(e, p, m, b, n);
    hide SoleCopy, NullVerdict, MixedVerdict, StagePlan, PrimaryPlan, NullGap, Fits, NullPlan;
    SolePlan(cfg, e, p, m);
    SoleCandidate(cfg, e, NullStage, p, m);
    SoleCandidate(cfg, e, MixedStage, p, m);
    NullApprovedIff(cfg, e, p, m, b, n);
    NullsAreNotMixed(cfg, e, p, m, b, n);
    KeepsBehind(cfg, e, p, m);
  }

  lemma NullsAreNotMixed(cfg: Config, e: Engine, p: Record, m: Record, b: nat, n: nat)
    requires Offers(e, p, m, b, n) && NullGap(cfg, e, b, n)
    ensures MixedVerdict(cfg, e, p, m) == Invalid(MissingCandidate, NotMixedGap, n, true)
  {
    NullsAlwaysFit(e.outCc, GapPackets(e, b, n));
    NullOrContent(GapPackets(e, b, n));
    GapIsSpan(e, b, n);
    MixedScanPasses(e.h1, e.anchor.s + 1 + b, n, false, e.outCc);
    hide MixedVerdict, MixedScan, AnchorIsPair, Shared, FitsAll, Fits, Held, Span, PacketsOf, AllSound, AllNull, SomeContent, ObserveAll;
    BoundedVerdicts(cfg, e, p, m, b, n);
  }

  lemma KeepsBehind(cfg: Config, e: Engine, p: Record, m: Record)
    requires PrimaryBetween(e, p) != 0
    ensures NullPlan(cfg, e, p, m) == Keep
  {
  }

  /** A fitting primary with one copy passes in silence if and only if nothing
      is missing before it or the gap is one of those that pass. */
  lemma FittingIsSilentIff(cfg: Config, e: Engine, p: Record, m: Record, b: nat, n: nat)
    requires SoleCopy(cfg, e, p, m) && Offers(e, p, m, b, n) && Fits(e.outCc, p.packet)
    ensures PrimaryPlan(cfg, e, p) == Keep <==> n == 0 || PassesInSilence(cfg, e, b, n)
  {
    hide SoleCopy, PrimaryPlan, StagePlan, NullVerdict, MixedVerdict, AnchorIsPair, Shared, Fits, ReadsThrough, GapHolds, NullGap;
    if n == 0 {
      NothingBetweenIsKept(cfg, e, p, m);
    } else if n > cfg.maxBurst {
      LongGapIsReported(cfg, e, p, m, b, n);
    } else if e.align.confidence < cfg.minConfidence {
      DoubtfulGapIsReported(cfg, e, p, m, b, n);
    } else if AnchorIsPair(e) && Shared(e, b) {
      BoundedGapIsSilentIff(cfg, e, p, m, b, n);
    } else {
      UnboundedIsKept(cfg, e, p, m, b, n);
    }
  }

  lemma UnboundedIsKept(cfg: Config, e: Engine, p: Record, m: Record, b: nat, n: nat)
    requires SoleCopy(cfg, e, p, m) && Offers(e, p, m, b, n) && Allowed(cfg, e, n) && !(AnchorIsPair(e) && Shared(e, b))
    requires Fits(e.outCc, p.packet)
    ensures PrimaryPlan(cfg, e, p) == Keep
  {
    hide SoleCopy, PrimaryPlan, StagePlan, NullVerdict, MixedVerdict, AnchorIsPair, Shared, Fits;
    SolePlan(cfg, e, p, m);
    SoleCandidate(cfg, e, NullStage, p, m);
    SoleCandidate(cfg, e, MixedStage, p, m);
    UnboundedVerdicts(cfg, e, p, m, b, n);
  }

  lemma NothingBetweenIsKept(cfg: Config, e: Engine, p: Record, m: Record)
    requires SoleCopy(cfg, e, p, m) && e.anchor.valid && Fits(e.outCc, p.packet)
    requires m.index - e.anchor.s <= p.index - e.anchor.p
    ensures PrimaryPlan(cfg, e, p) == Keep
  {
    hide SoleCopy, PrimaryPlan, StagePlan, NullVerdict, MixedVerdict, Fits;
    SolePlan(cfg, e, p, m);
    SoleCandidate(cfg, e, NullStage, p, m);
    SoleCandidate(cfg, e, MixedStage, p, m);
    UnofferedIsInvalid(cfg, e, p, m);
  }

  /** A primary that does not fit and would not fit after the gap either, though
      the counters would allow it, is left to the exact stage if the gap has
      nothing on its PID. */
  lemma OtherPidIsLeft(cfg: Config, e: Engine, p: Record, m: Record, b: nat, n: nat, k: nat)
    requires SoleCopy(cfg, e, p, m) && Offers(e, p, m, b, n) && Allowed(cfg, e, n) && AnchorIsPair(e) && Shared(e, b)
    requires ReadsThrough(e, b, n) && SomeContent(GapPackets(e, b, n)) && !Fits(ObserveAll(e.outCc, GapPackets(e, b, n)), p.packet)
    requires p.packet.hasPayload && p.packet.pid in e.outCc && k < 15 && p.packet.cc == (e.outCc[p.packet.pid] + k + 1) % 16
    requires forall i | 0 <= i < n :: var q := GapPackets(e, b, n)[i]; q.isNull || q.pid != p.packet.pid
    ensures MixedVerdict(cfg, e, p, m) ==
            if k <= n then Invalid(WrongPid, OtherPid, n, true) else Invalid(WrongCounter, AfterAnchorCounter, n, true)
    ensures k <= n ==> PrimaryPlan(cfg, e, p) == StagePlan(cfg, e, ExactStage, p, Candidates([m], false))
  {
    OtherPidVerdict(cfg, e, p, m, b, n, k);
    OtherPidsKeep(e.outCc, GapPackets(e, b, n), p.packet.pid);
    SameFit(e.outCc, ObserveAll(e.outCc, GapPackets(e, b, n)), p.packet);
    hide SoleCopy, NullVerdict, MixedVerdict, StagePlan, PrimaryPlan, AnchorIsPair, Shared, GapPackets, GapRetained, FitsAll, ObserveAll,
         Fits, AllSound, SomeContent;
    SolePlan(cfg, e, p, m);
    SoleCandidate(cfg, e, NullStage, p, m);
    SoleCandidate(cfg, e, MixedStage, p, m);
  }

  lemma OtherPidVerdict(cfg: Config, e: Engine, p: Record, m: Record, b: nat, n: nat, k: nat)
    requires p.packet.Content() && Offers(e, p, m, b, n) && Allowed(cfg, e, n) && AnchorIsPair(e) && Shared(e, b)
    requires ReadsThrough(e, b, n) && SomeContent(GapPackets(e, b, n)) && !Fits(ObserveAll(e.outCc, GapPackets(e, b, n)), p.packet)
    requires p.packet.hasPayload && p.packet.pid in e.outCc && k < 15 && p.packet.cc == (e.outCc[p.packet.pid] + k + 1) % 16
    requires forall i | 0 <= i < n :: var q := GapPackets(e, b, n)[i]; q.isNull || q.pid != p.packet.pid
    ensures MixedVerdict(cfg, e, p, m) ==
            if k <= n then Invalid(WrongPid, OtherPid, n, true) else Invalid(WrongCounter, AfterAnchorCounter, n, true)
    ensures !NullVerdict(cfg, e, p, m).valid && NullVerdict(cfg, e, p, m).why.kind == MissingCandidate
  {
    ReadGapScans(e, b, n);
    NothingOnPid(e, p, b, n, k);
    NullOrContent(GapPackets(e, b, n));
    NullApprovedIff(cfg, e, p, m, b, n);
    NullVerdictOfSound(cfg, e, p, m, b, n);
    hide NullVerdict, MixedVerdict, NullScan, MixedScan, AnchorIsPair, Shared, FitsAll, MisfitFlaw, PacketsOf, AllSound, ObserveAll, Fits,
         GapRecords, GapRetained;
    BoundedVerdicts(cfg, e, p, m, b, n);
  }

  /** The mixed scan of a gap that reads through and has content. */
  lemma ReadGapScans(e: Engine, b: nat, n: nat)
    requires ReadsThrough(e, b, n) && SomeContent(GapPackets(e, b, n))
    ensures var t := MixedScan(e.h1, e.anchor.s + 1 + b, n, false, e.outCc);
            t.flaw.None? && t.content && t.states == ObserveAll(e.outCc, GapPackets(e, b, n))
  {
    GapIsSpan(e, b, n);
    MixedScanPasses(e.h1, e.anchor.s + 1 + b, n, false, e.outCc);
    hide MixedScan, FitsAll, PacketsOf, AllSound, ObserveAll, Held, Span, SomeContent;
  }

  lemma SameFit(a: Counters, b: Counters, p: Packet)
    requires (p.pid in a <==> p.pid in b) && (p.pid in a ==> a[p.pid] == b[p.pid])
    ensures Fits(a, p) <==> Fits(b, p)
  {
  }

  lemma NothingOnPid(e: Engine, p: Record, b: nat, n: nat, k: nat)
    requires GapRetained(e, b, n) && p.packet.Content() && p.packet.hasPayload && p.packet.pid in e.outCc
    requires k < 15 && p.packet.cc == (e.outCc[p.packet.pid] + k + 1) % 16
    requires forall i | 0 <= i < n :: var q := GapPackets(e, b, n)[i]; q.isNull || q.pid != p.packet.pid
    ensures MisfitFlaw(e, p, e.anchor.s + 1 + b, n) == if k <= n then Flaw(WrongPid, OtherPid) else Flaw(WrongCounter, AfterAnchorCounter)
  {
    var i0 := e.anchor.s + 1 + b;
    assert InferMissing(e.outCc[p.packet.pid], p.packet) == Some(k);
    forall x | i0 <= x < i0 + n ensures !(Find(e.h1, x).Some? && !Find(e.h1, x).value.packet.isNull && Find(e.h1, x).value.packet.pid == p.packet.pid) {
      assert GapPackets(e, b, n)[x - i0] == e.h1.log[x].packet;
    }
  }
}
