/** The rules for filling a gap, written on the records themselves: which gaps
    each stage approves, and that approved gaps are filled. */
module GapRules {
  import opened Packets
  import opened State
  import opened Gaps
  import opened GapFacts
  import opened Decisions

  // ------------------------------------------------------------------ the records

  /** One packet received twice, undamaged and without discontinuity. */
  predicate Twins(a: Packet, b: Packet) {
    && a.hash == b.hash && a.pid == b.pid && a.cc == b.cc
    && !a.transportError && !b.transportError && !a.discontinuity && !b.discontinuity
  }

  predicate InHistory(h: History, i: int) { h.lo <= i < |h.log| }

  /** d packets after the anchor both histories hold the same packet. */
  predicate PairHeld(e: Engine, d: int) {
    && InHistory(e.h0, e.anchor.p + d) && InHistory(e.h1, e.anchor.s + d)
    && Twins(e.h0.log[e.anchor.p + d].packet, e.h1.log[e.anchor.s + d].packet)
  }

  /** Both histories hold the same content packet at the anchor. */
  predicate AnchorIsPair(e: Engine) {
    PairHeld(e, 0) && !e.h0.log[e.anchor.p].packet.isNull && !e.h1.log[e.anchor.s].packet.isNull
  }

  /** The b packets after the anchor are the same on both streams. */
  predicate Shared(e: Engine, b: nat) {
    forall d | 1 <= d <= b :: PairHeld(e, d)
  }

  /** A content primary p, b packets after the anchor's, has its copy m on the
      secondary, where n more packets lie between. */
  predicate Offers(e: Engine, p: Record, m: Record, b: nat, n: nat) {
    && e.anchor.valid && p.index == e.anchor.p + 1 + b && m.index == e.anchor.s + 1 + b + n
    && !p.packet.isNull && !m.packet.isNull && Twins(p.packet, m.packet)
  }

  /** The gap behind b shared packets is retained up to its k-th packet. */
  predicate GapRetained(e: Engine, b: nat, k: nat) {
    k == 0 || (e.h1.lo <= e.anchor.s + 1 + b && e.anchor.s + 1 + b + k <= |e.h1.log|)
  }

  function GapRecords(e: Engine, b: nat, k: nat): seq<Record>
    requires GapRetained(e, b, k)
  {
    if k == 0 then [] else e.h1.log[e.anchor.s + 1 + b..e.anchor.s + 1 + b + k]
  }

  function GapPackets(e: Engine, b: nat, k: nat): seq<Packet>
    requires GapRetained(e, b, k)
  {
    PacketsOf(GapRecords(e, b, k))
  }

  predicate Allowed(cfg: Config, e: Engine, n: nat) {
    0 < n <= cfg.maxBurst && cfg.minConfidence <= e.align.confidence
  }

  lemma TwinsMatch(a: Packet, b: Packet)
    ensures Twins(a, b) <==> ExactMatch(a, b)
  {
  }

  lemma AnchorIsPairHeld(e: Engine)
    ensures AnchorIsPair(e) <==> AnchorHeld(e)
  {
  }

  lemma SharedIsPrefix(e: Engine, b: nat)
    ensures Shared(e, b) <==> PrefixMatches(e, b)
  {
    if Shared(e, b) {
      forall i | 0 <= i < b ensures PairMatches(e, i) { assert PairHeld(e, i + 1); }
    }
    if PrefixMatches(e, b) {
      forall d | 1 <= d <= b ensures PairHeld(e, d) { assert PairMatches(e, d - 1); }
    }
  }

  lemma GapIsSpan(e: Engine, b: nat, k: nat)
    ensures GapRetained(e, b, k) <==> Held(e.h1, e.anchor.s + 1 + b, k)
    ensures GapRetained(e, b, k) ==> GapRecords(e, b, k) == Span(e.h1, e.anchor.s + 1 + b, k)
  {
  }

  lemma OfferedGap(e: Engine, p: Record, m: Record, b: nat, n: nat)
    requires Offers(e, p, m, b, n)
    ensures BeyondAnchor(e, p, m) && PrimaryBetween(e, p) == b && Missing(e, p, m) == n && BoundsMatch(p, m)
    ensures GapStart(e, p) == e.anchor.s + 1 + b
  {
  }

  // ------------------------------------------------------- what a stage approves

  /** A gap that nulls fill: allowed, between pairs, retained, all sound nulls. */
  predicate NullGap(cfg: Config, e: Engine, b: nat, n: nat) {
    && Allowed(cfg, e, n) && AnchorIsPair(e) && Shared(e, b) && GapRetained(e, b, n)
    && AllNull(GapPackets(e, b, n)) && AllSound(GapPackets(e, b, n))
  }

  /** A gap with content: sound, not all nulls, and it fits between what was
      sent and p. */
  predicate MixedGap(cfg: Config, e: Engine, p: Packet, b: nat, n: nat) {
    && Allowed(cfg, e, n) && AnchorIsPair(e) && Shared(e, b) && GapRetained(e, b, n)
    && var ps := GapPackets(e, b, n);
       AllSound(ps) && SomeContent(ps) && FitsAll(e.outCc, ps) && Fits(ObserveAll(e.outCc, ps), p)
  }

  /** The null validator approves exactly the gaps that nulls fill. */
  lemma NullApprovedIff(cfg: Config, e: Engine, p: Record, m: Record, b: nat, n: nat)
    requires Offers(e, p, m, b, n)
    ensures NullVerdict(cfg, e, p, m).valid <==> NullGap(cfg, e, b, n)
  {
    OfferedGap(e, p, m, b, n);
    AnchorIsPairHeld(e);
    SharedIsPrefix(e, b);
    GapIsSpan(e, b, n);
    NullScanPasses(e.h1, e.anchor.s + 1 + b, n);
    hide BeyondAnchor, Missing, PrimaryBetween, BoundsMatch, GapStart, NullScan, AnchorHeld, PrefixMatches, AnchorIsPair, Shared,
         Held, Span, GapRetained, AllNull, AllSound, GapRecords, PacketsOf;
  }

  /** The mixed validator approves exactly the gaps that fit. */
  lemma MixedApprovedIff(cfg: Config, e: Engine, p: Record, m: Record, b: nat, n: nat)
    requires Offers(e, p, m, b, n)
    ensures MixedVerdict(cfg, e, p, m).valid <==> MixedGap(cfg, e, p.packet, b, n)
  {
    OfferedGap(e, p, m, b, n);
    AnchorIsPairHeld(e);
    SharedIsPrefix(e, b);
    GapIsSpan(e, b, n);
    MixedScanPasses(e.h1, e.anchor.s + 1 + b, n, false, e.outCc);
    hide BeyondAnchor, Missing, PrimaryBetween, BoundsMatch, GapStart, MixedScan, AnchorHeld, PrefixMatches, AnchorIsPair, Shared,
         Held, Span, GapRetained, SomeContent, AllSound, GapRecords, PacketsOf, FitsAll, Fits, ObserveAll, MisfitFlaw;
  }

  /** What is not offered beyond the anchor with something missing is not approved. */
  lemma UnofferedIsInvalid(cfg: Config, e: Engine, p: Record, m: Record)
    requires !(e.anchor.valid && p.index > e.anchor.p && m.index > e.anchor.s && m.index - e.anchor.s > p.index - e.anchor.p)
    ensures NullVerdict(cfg, e, p, m) == Invalid(MissingCandidate, NotNullGap, 0, false)
    ensures MixedVerdict(cfg, e, p, m) == Invalid(MissingCandidate, NotMixedGap, 0, false)
  {
  }

  // ---------------------------------------------------------------- the candidate

  /** Where copies of p are looked for: eight around the aligned index, and
      beyond the anchor as far as the longest gap that is told. */
  predicate InReach(cfg: Config, e: Engine, p: Record, i: int) {
    || (e.align.has && p.index + e.align.offset - 8 <= i <= p.index + e.align.offset + 8)
    || (e.anchor.valid && p.index > e.anchor.p && e.anchor.s < i &&
        (i <= e.anchor.s + (p.index - e.anchor.p) + 255 || i <= e.anchor.s + (p.index - e.anchor.p) + cfg.maxBurst + 1))
  }

  /** m is the only retained copy of the content primary p within reach. */
  predicate SoleCopy(cfg: Config, e: Engine, p: Record, m: Record) {
    && Indexed(e.h1) && p.packet.Content() && InHistory(e.h1, m.index) && e.h1.log[m.index] == m
    && InReach(cfg, e, p, m.index) && Twins(p.packet, m.packet)
    && forall i | e.h1.lo <= i < |e.h1.log| :: InReach(cfg, e, p, i) && Twins(p.packet, e.h1.log[i].packet) ==> i == m.index
  }

  lemma InReachIsWindow(cfg: Config, e: Engine, p: Record, i: int)
    ensures InReach(cfg, e, p, i) <==> NearAligned(e, p, i) || PastAnchor(cfg, e, p, i)
  {
  }

  /** The only copy within reach is the only candidate. */
  lemma SoleCopyIsCandidate(cfg: Config, e: Engine, p: Record, m: Record)
    requires SoleCopy(cfg, e, p, m)
    ensures FindCandidates(cfg, e, p) == Candidates([m], false)
  {
    CandidatesAreExact(cfg, e, p);
    var c := FindCandidates(cfg, e, p);
    hide FindCandidates, InReach, NearAligned, PastAnchor;
    forall i | IsCopy(e.h1, p.packet, i) && (NearAligned(e, p, i) || PastAnchor(cfg, e, p, i)) ensures i == m.index {
      InReachIsWindow(cfg, e, p, i);
      TwinsMatch(p.packet, e.h1.log[i].packet);
    }
    forall k | 0 <= k < |c.rs| ensures c.rs[k] == m { assert Listed(c, c.rs[k].index); }
    InReachIsWindow(cfg, e, p, m.index);
    TwinsMatch(p.packet, m.packet);
    AllTheSame(c.rs, m);
    assert CopyLeftOut(e.h1, p.packet, c, m.index) ==> c.truncated;
  }

  /** The k-th index of the list. */
  function IndexAt(rs: seq<Record>, k: nat): int { if k < |rs| then rs[k].index else -1 }

  lemma FirstTwoDiffer(rs: seq<Record>)
    requires forall j, k | 0 <= j < k < |rs| :: rs[j].index != rs[k].index
    ensures |rs| > 1 ==> IndexAt(rs, 0) != IndexAt(rs, 1)
  {
  }

  lemma FirstTwoAgree(rs: seq<Record>, m: Record)
    requires forall k | 0 <= k < |rs| :: rs[k] == m
    ensures |rs| > 1 ==> IndexAt(rs, 0) == IndexAt(rs, 1)
    ensures |rs| == 1 ==> rs == [m]
  {
  }

  lemma AllTheSame(rs: seq<Record>, m: Record)
    requires forall k | 0 <= k < |rs| :: rs[k] == m
    requires forall j, k | 0 <= j < k < |rs| :: rs[j].index != rs[k].index
    ensures rs == [] || rs == [m]
  {
    hide IndexAt;
    FirstTwoDiffer(rs);
    FirstTwoAgree(rs, m);
  }

  // -------------------------------------------------------- one candidate's verdict

  /** The kinds of objection a stage reports even about a primary that fits. */
  predicate Reported(kind: RejectKind) {
    match kind
    case WrongCounter => true
    case Tei => true
    case Discontinuity => true
    case BurstTooLarge => true
    case LowAlignment => true
    case _ => false
  }

  /** With one candidate, a positional stage follows that candidate's verdict. */
  lemma SoleCandidate(cfg: Config, e: Engine, stage: Stage, p: Record, m: Record)
    requires stage != ExactStage
    ensures var v := StageVerdict(cfg, e, stage, p, m);
            StagePlan(cfg, e, stage, p, Candidates([m], false)) ==
            if v.valid then StageRecovery(cfg, e, stage, p, m) else if Reported(v.why.kind) then Refuse(v.why) else Keep
  {
    hide NullVerdict, MixedVerdict, NullPlan, MixedPlan;
    OneVote(cfg, e, stage, p, m);
  }

  /** With one candidate, the exact stage decides in any case. */
  lemma SoleExactCandidate(cfg: Config, e: Engine, p: Record, m: Record)
    ensures var v := ExactVerdict(cfg, e, p, m);
            var plan := StagePlan(cfg, e, ExactStage, p, Candidates([m], false));
            if v.valid then plan == ExactPlan(cfg, e, p, m)
            else plan.Refuse? && (v.why.hasMissing || v.why.kind != MissingCandidate ==> plan.why == v.why)
  {
    hide ExactVerdict, ExactPlan;
    OneVote(cfg, e, ExactStage, p, m);
  }

  lemma OneVote(cfg: Config, e: Engine, stage: Stage, p: Record, m: Record)
    ensures Poll(cfg, e, stage, p, [m], NoVote) == CastVote(NoVote, m, StageVerdict(cfg, e, stage, p, m))
  {
    hide StageVerdict;
    var v := CastVote(NoVote, m, StageVerdict(cfg, e, stage, p, m));
    assert [m][1..] == [];
    assert Poll(cfg, e, stage, p, [m], NoVote) == Poll(cfg, e, stage, p, [], v) == v;
  }

  /** The decision about a content primary with one candidate, stage by stage. */
  lemma SolePlan(cfg: Config, e: Engine, p: Record, m: Record)
    requires SoleCopy(cfg, e, p, m) && e.anchor.valid
    ensures var c := Candidates([m], false);
            var a, b := StagePlan(cfg, e, NullStage, p, c), StagePlan(cfg, e, MixedStage, p, c);
            PrimaryPlan(cfg, e, p) ==
            if a != Keep then a else if b != Keep then b
            else if Fits(e.outCc, p.packet) then Keep
            else StagePlan(cfg, e, ExactStage, p, c)
  {
    SoleCopyIsCandidate(cfg, e, p, m);
    SoleExactCandidate(cfg, e, p, m);
    RecovererAgrees(cfg, e, ExactStage, p, m);
    hide FindCandidates, StagePlan, Fits, TeiPlan, LastResort, ExactVerdict, ExactPlan;
  }

  // ------------------------------------------------------------ gaps that are filled

  /** The null scan of sound packets stops only at a content packet. */
  lemma {:induction false} NullScanStops(h: History, i: nat, n: nat)
    requires Held(h, i, n) && AllSound(PacketsOf(Span(h, i, n)))
    ensures NullScan(h, i, n).None? || NullScan(h, i, n).value == Flaw(MissingCandidate, NotNullGap)
    decreases n
  {
    if n > 0 {
      SpanStep(h, i, n);
      assert PacketsOf(Span(h, i, n))[0] == h.log[i].packet;
      NullScanStops(h, i + 1, n - 1);
    }
  }

  /** What the null validator says of a sound gap. */
  lemma NullVerdictOfSound(cfg: Config, e: Engine, p: Record, m: Record, b: nat, n: nat)
    requires Offers(e, p, m, b, n) && Allowed(cfg, e, n) && AnchorIsPair(e) && Shared(e, b)
    requires GapRetained(e, b, n) && AllSound(GapPackets(e, b, n))
    ensures var v := NullVerdict(cfg, e, p, m); !v.valid ==> v.why.kind == MissingCandidate
  {
    OfferedGap(e, p, m, b, n);
    AnchorIsPairHeld(e);
    SharedIsPrefix(e, b);
    GapIsSpan(e, b, n);
    NullScanStops(e.h1, e.anchor.s + 1 + b, n);
    hide BeyondAnchor, Missing, PrimaryBetween, BoundsMatch, GapStart, NullScan, AnchorHeld, PrefixMatches;
  }

  lemma NullInsertion(cfg: Config, e: Engine, p: Record, m: Record, n: nat)
    requires Offers(e, p, m, 0, n) && NullGap(cfg, e, 0, n)
    ensures NullPlan(cfg, e, p, m) == Insert(GapRecords(e, 0, n), false)
  {
    OfferedGap(e, p, m, 0, n);
    AnchorIsPairHeld(e);
    GapIsSpan(e, 0, n);
    NullScanPasses(e.h1, e.anchor.s + 1, n);
    hide BeyondAnchor, Missing, PrimaryBetween, BoundsMatch, NullScan, AnchorHeld, GapRecords, Span, PacketsOf, AnchorIsPair, Shared,
         Held, GapRetained, AllNull, AllSound, OversizeScan;
  }

  lemma MixedInsertionIs(cfg: Config, e: Engine, p: Record, m: Record, b: nat, n: nat)
    requires Offers(e, p, m, b, n) && MixedGap(cfg, e, p.packet, b, n)
    ensures MixedPlan(cfg, e, p, m) == Insert(GapRecords(e, b, n), n > 1)
  {
    OfferedGap(e, p, m, b, n);
    AnchorIsPairHeld(e);
    SharedIsPrefix(e, b);
    GapIsSpan(e, b, n);
    MixedScanPasses(e.h1, e.anchor.s + 1 + b, n, false, e.outCc);
    hide BeyondAnchor, Missing, PrimaryBetween, BoundsMatch, GapStart, MixedScan, AnchorHeld, PrefixMatches, AnchorIsPair, Shared,
         Held, Span, GapRetained, SomeContent, AllSound, GapRecords, PacketsOf, FitsAll, Fits, ObserveAll, MisfitFlaw;
  }

  /** A gap of nulls directly after the anchor is filled with exactly its packets. */
  lemma NullGapIsFilled(cfg: Config, e: Engine, p: Record, m: Record, n: nat)
    requires SoleCopy(cfg, e, p, m) && Offers(e, p, m, 0, n) && NullGap(cfg, e, 0, n)
    ensures PrimaryPlan(cfg, e, p) == Insert(GapRecords(e, 0, n), false)
  {
    hide SoleCopy, NullGap, NullVerdict, MixedVerdict, NullPlan, MixedPlan, StagePlan, PrimaryPlan;
    SolePlan(cfg, e, p, m);
    SoleCandidate(cfg, e, NullStage, p, m);
    NullApprovedIff(cfg, e, p, m, 0, n);
    NullInsertion(cfg, e, p, m, n);
  }

  /** A gap with content, behind any number of packets both streams share after
      the anchor, is filled with exactly its packets. */
  lemma MixedGapIsFilled(cfg: Config, e: Engine, p: Record, m: Record, b: nat, n: nat)
    requires SoleCopy(cfg, e, p, m) && Offers(e, p, m, b, n) && MixedGap(cfg, e, p.packet, b, n)
    ensures PrimaryPlan(cfg, e, p) == Insert(GapRecords(e, b, n), n > 1)
  {
    hide SoleCopy, NullVerdict, MixedVerdict, NullPlan, MixedPlan, StagePlan, PrimaryPlan, FitsAll, Fits, ObserveAll, PacketsOf;
    SolePlan(cfg, e, p, m);
    SoleCandidate(cfg, e, NullStage, p, m);
    SoleCandidate(cfg, e, MixedStage, p, m);
    NullApprovedIff(cfg, e, p, m, b, n);
    MixedApprovedIff(cfg, e, p, m, b, n);
    NullVerdictOfSound(cfg, e, p, m, b, n);
    MixedInsertionIs(cfg, e, p, m, b, n);
  }

  /** Any sound gap that fits, between a pair at the anchor and the only copy of
      p, is filled with exactly its packets, unless it is of nulls alone behind
      packets shared. */
  lemma SoundGapIsFilled(cfg: Config, e: Engine, p: Record, m: Record, b: nat, n: nat)
    requires SoleCopy(cfg, e, p, m) && Offers(e, p, m, b, n) && Allowed(cfg, e, n) && AnchorIsPair(e) && Shared(e, b)
    requires GapRetained(e, b, n)
    requires var ps := GapPackets(e, b, n);
             && AllSound(ps) && FitsAll(e.outCc, ps) && Fits(ObserveAll(e.outCc, ps), p.packet)
             && (b == 0 || SomeContent(ps))
    ensures PrimaryPlan(cfg, e, p).Insert? && PrimaryPlan(cfg, e, p).rs == GapRecords(e, b, n)
  {
    NullOrContent(GapPackets(e, b, n));
    hide PrimaryPlan, SoleCopy, Offers, AnchorIsPair, Shared, FitsAll, Fits, ObserveAll, AllSound, SomeContent, AllNull, GapPackets,
         GapRetained;
    if SomeContent(GapPackets(e, b, n)) {
      MixedGapIsFilled(cfg, e, p, m, b, n);
    } else {
      NullGapIsFilled(cfg, e, p, m, n);
    }
  }

  lemma NullOrContent(ps: seq<Packet>)
    ensures AllNull(ps) <==> !SomeContent(ps)
  {
  }
}
