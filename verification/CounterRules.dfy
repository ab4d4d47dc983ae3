/** Two more rules on the records: when the packets that the counters miss are
    filled in, and when a damaged primary is replaced. */
module CounterRules {
  import opened Packets
  import opened State
  import opened Gaps
  import opened GapFacts
  import opened Drain
  import opened Decisions
  import opened GapRules

  // ------------------------------------------------------------- exact counters

  /** Record x carries this counter of this PID, undamaged, and no other
      retained record of [first, end) carries it. */
  predicate SoleSound(h: History, first: int, end: int, pid: Pid, cc: Counter, x: int) {
    && InHistory(h, x) && first <= x < end && Carries(h.log[x].packet, pid, cc) && h.log[x].packet.Sound()
    && forall y | h.lo <= y < |h.log| :: first <= y < end && Carries(h.log[y].packet, pid, cc) ==> y == x
  }

  predicate HasSole(h: History, first: int, end: int, pid: Pid, cc: Counter) {
    exists x | h.lo <= x < |h.log| :: SoleSound(h, first, end, pid, cc, x)
  }

  /** The i-th counter after prev is carried once. */
  predicate SoleAt(h: History, first: int, end: int, pid: Pid, prev: Counter, i: nat) {
    HasSole(h, first, end, pid, (prev + 1 + i) % 16)
  }

  predicate AllSole(h: History, first: int, end: int, pid: Pid, prev: Counter, n: nat) {
    forall i: nat | i < n :: SoleAt(h, first, end, pid, prev, i)
  }

  /** The counters of p's PID show that n packets are missing before p; fifteen
      of them, which the counters hide, only if the positions show them too. */
  predicate CountersMiss(e: Engine, p: Record, m: Record, n: nat) {
    && p.packet.Content() && p.packet.hasPayload && p.packet.pid in e.outCc && 1 <= n <= 15
    && p.packet.cc == (e.outCc[p.packet.pid] + n + 1) % 16
    && (n == 15 ==> m.index - e.anchor.s == p.index - e.anchor.p + 15)
  }

  /** Where the missing packets are looked for: behind what both streams share
      after the anchor if the secondary has more, else right after the anchor. */
  ghost function SearchFrom(e: Engine, p: Record, m: Record): int
    requires p.index > e.anchor.p
  {
    if p.index > e.anchor.p + 1 && m.index - e.anchor.s > p.index - e.anchor.p && Shared(e, p.index - e.anchor.p - 1)
    then e.anchor.s + (p.index - e.anchor.p)
    else e.anchor.s + 1
  }

  /** A gap of n counters that can be filled exactly. */
  ghost predicate CounterGapHolds(cfg: Config, e: Engine, p: Record, m: Record, n: nat) {
    && e.anchor.valid && p.index > e.anchor.p && m.index > e.anchor.s && m.index - e.anchor.s >= p.index - e.anchor.p
    && !m.packet.isNull && Twins(p.packet, m.packet) && CountersMiss(e, p, m, n) && Allowed(cfg, e, n) && AnchorIsPair(e)
    && AllSole(e.h1, SearchFrom(e, p, m), m.index, p.packet.pid, e.outCc[p.packet.pid], n)
  }

  lemma {:induction false} NoHits(h: History, first: int, end: int, pid: Pid, cc: Counter)
    requires forall y | h.lo <= y < |h.log| :: first <= y < end ==> !Carries(h.log[y].packet, pid, cc)
    ensures Hits(h, first, end, pid, cc) == []
    decreases end - first
  {
    hide Carries;
    if first < end { NoHits(h, first + 1, end, pid, cc); }
  }

  /** The only carrier is the only hit. */
  lemma {:induction false} SoleHit(h: History, first: int, end: int, pid: Pid, cc: Counter, x: int)
    requires SoleSound(h, first, end, pid, cc, x)
    ensures Hits(h, first, end, pid, cc) == [h.log[x]]
    decreases end - first
  {
    hide Carries;
    if first == x {
      NoHits(h, first + 1, end, pid, cc);
    } else {
      SoleHit(h, first + 1, end, pid, cc, x);
    }
  }

  lemma SoleIsPicked(h: History, first: int, end: int, pid: Pid, cc: Counter, x: int, fallback: Option<nat>)
    requires SoleSound(h, first, end, pid, cc, x)
    ensures PickOne(h, first, end, pid, cc, fallback) == Picked(h.log[x])
  {
    SoleHit(h, first, end, pid, cc, x);
  }

  lemma {:induction false} AllArePicked(h: History, first: int, end: int, pid: Pid, prev: Counter, k: nat, n: nat,
                                        fallback: Option<nat>, acc: seq<Record>)
    requires k <= n && AllSole(h, first, end, pid, prev, n)
    ensures PickAll(h, first, end, pid, prev, k, n, fallback, acc).flaw.None?
    decreases n - k
  {
    hide PickOne;
    if k < n {
      assert SoleAt(h, first, end, pid, prev, k);
      var x :| h.lo <= x < |h.log| && SoleSound(h, first, end, pid, (prev + 1 + k) % 16, x);
      SoleIsPicked(h, first, end, pid, (prev + 1 + k) % 16, x, fallback);
      AllArePicked(h, first, end, pid, prev, k + 1, n, fallback, acc + [h.log[x]]);
    }
  }

  lemma CarrierIsSole(h: History, first: int, end: int, pid: Pid, cc: Counter, r: Record)
    requires SoleCarrier(h, first, end, pid, cc, r) && r.packet.Sound()
    ensures HasSole(h, first, end, pid, cc)
  {
    forall y | h.lo <= y < |h.log| && first <= y < end && Carries(h.log[y].packet, pid, cc) ensures y == r.index {
      assert Find(h, y) == Some(h.log[y]);
    }
    assert SoleSound(h, first, end, pid, cc, r.index);
  }

  lemma RunIsSole(h: History, first: int, end: int, pid: Pid, prev: Counter, rs: seq<Record>)
    requires CarriesRun(h, first, end, pid, prev, 0, rs)
    ensures AllSole(h, first, end, pid, prev, |rs|)
  {
    hide SoleCarrier, HasSole;
    forall i: nat | i < |rs| ensures SoleAt(h, first, end, pid, prev, i) {
      assert (prev + 1 + 0 + i) % 16 == (prev + 1 + i) % 16;
      CarrierIsSole(h, first, end, pid, (prev + 1 + i) % 16, rs[i]);
    }
  }

  /** A sound packet with the i-th counter after prev. */
  predicate CarriesAt(p: Packet, pid: Pid, prev: Counter, i: nat) {
    Carries(p, pid, (prev + 1 + i) % 16) && p.Sound()
  }

  /** Packets that carry the missing counters fit, and then the primary does. */
  lemma {:induction false} RunFits(states: Counters, rs: seq<Record>, pid: Pid, p: Packet)
    requires pid in states && p.pid == pid && p.Content() && p.hasPayload && p.cc == (states[pid] + 1 + |rs|) % 16
    requires forall i: nat | i < |rs| :: CarriesAt(rs[i].packet, pid, states[pid], i)
    ensures FitsAll(states, PacketsOf(rs)) && Fits(ObserveAll(states, PacketsOf(rs)), p)
    decreases |rs|
  {
    if rs == [] {
      assert PacketsOf(rs) == [];
    } else {
      assert PacketsOf(rs)[0] == rs[0].packet && PacketsOf(rs)[1..] == PacketsOf(rs[1..]);
      assert CarriesAt(rs[0].packet, pid, states[pid], 0);
      var next := Observe(states, rs[0].packet);
      assert next[pid] == NextCounter(states[pid]);
      forall i: nat | i < |rs[1..]| ensures CarriesAt(rs[1..][i].packet, pid, next[pid], i) {
        assert CarriesAt(rs[i + 1].packet, pid, states[pid], i + 1);
        CounterSum(states[pid], i);
      }
      CounterSum(states[pid], |rs| - 1);
      RunFits(next, rs[1..], pid, p);
    }
  }

  lemma CounterSum(c: Counter, k: nat)
    ensures (NextCounter(c) + 1 + k) % 16 == (c + 1 + (k + 1)) % 16
  {
  }

  /** The gap the exact stage works on is the one the counters show. */
  lemma ExactGapIs(e: Engine, p: Record, m: Record, n: nat)
    requires BeyondAnchor(e, p, m) && Missing(e, p, m) >= 0 && n > 0
    ensures ExactGap(e, p, m) == Some(n) <==> CountersMiss(e, p, m, n)
  {
  }

  lemma SearchStarts(e: Engine, p: Record, m: Record)
    requires p.index > e.anchor.p
    ensures SearchStart(e, p, m) == SearchFrom(e, p, m)
  {
    SharedIsPrefix(e, p.index - e.anchor.p - 1);
  }

  /** The exact validator's verdict, once the gap is n and the bounds are good. */
  lemma ExactVerdictOf(cfg: Config, e: Engine, p: Record, m: Record, n: nat)
    requires Indexed(e.h1) && ExactGap(e, p, m) == Some(n) && n > 0 && Allowed(cfg, e, n) && AnchorIsPair(e)
    requires !m.packet.isNull && Twins(p.packet, m.packet)
    ensures p.packet.pid in e.outCc && p.index > e.anchor.p
    ensures ExactVerdict(cfg, e, p, m).valid <==>
            AllSole(e.h1, SearchFrom(e, p, m), m.index, p.packet.pid, e.outCc[p.packet.pid], n)
  {
    ExactGapIs(e, p, m, n);
    AnchorIsPairHeld(e);
    SearchStarts(e, p, m);
    TwinsMatch(p.packet, m.packet);
    assert BoundsMatch(p, m);
    var prev := e.outCc[p.packet.pid];
    var c := ExactPicks(e, p, m, prev, n);
    ExactPicksCarry(e, p, m, prev, n);
    hide SearchStart, SearchFrom, AnchorHeld, AnchorIsPair, PickAll, AllSole, ExactGap, CarriesRun, BeyondAnchor, Twins, BoundsMatch;
    if c.flaw.None? {
      RunIsSole(e.h1, SearchFrom(e, p, m), m.index, p.packet.pid, prev, c.rs);
      PicksReplay(e, p, m, prev, c.rs);
    } else if AllSole(e.h1, SearchFrom(e, p, m), m.index, p.packet.pid, prev, n) {
      AllArePicked(e.h1, SearchFrom(e, p, m), m.index, p.packet.pid, prev, 0, n, FallbackIndex(e, p, m), []);
    }
  }

  lemma PicksReplay(e: Engine, p: Record, m: Record, prev: Counter, rs: seq<Record>)
    requires CountersMiss(e, p, m, |rs|) && prev == e.outCc[p.packet.pid] && p.index > e.anchor.p
    requires CarriesRun(e.h1, SearchFrom(e, p, m), m.index, p.packet.pid, prev, 0, rs)
    ensures ReplayFlaw(e.outCc, rs, p).None?
  {
    hide SearchFrom, Fits, FitsAll, ObserveAll;
    forall i: nat | i < |rs| ensures CarriesAt(rs[i].packet, p.packet.pid, prev, i) {
      assert (prev + 1 + 0 + i) % 16 == (prev + 1 + i) % 16;
    }
    RunFits(e.outCc, rs, p.packet.pid, p.packet);
    assert AllSound(PacketsOf(rs));
    ReplayPasses(e.outCc, rs, p);
  }

  /** The exact validator approves exactly the counter gaps whose packets are
      each held once. */
  lemma ExactApprovedIff(cfg: Config, e: Engine, p: Record, m: Record)
    requires Indexed(e.h1)
    ensures ExactVerdict(cfg, e, p, m).valid <==> exists n | 1 <= n <= 15 :: CounterGapHolds(cfg, e, p, m, n)
  {
    if n: nat :| 1 <= n <= 15 && CounterGapHolds(cfg, e, p, m, n) {
      ExactGapIs(e, p, m, n);
      ExactVerdictOf(cfg, e, p, m, n);
    }
    if ExactVerdict(cfg, e, p, m).valid {
      var n := ExactGap(e, p, m).value;
      ExactGapIs(e, p, m, n);
      AnchorIsPairHeld(e);
      ExactVerdictOf(cfg, e, p, m, n);
      assert CounterGapHolds(cfg, e, p, m, n);
    }
  }

  // --------------------------------------------------------- counter gaps are filled

  /** The positional stages find nothing to say: the secondary has no more than
      the primary since the anchor, or what they have since differs. */
  predicate PositionsSilent(cfg: Config, e: Engine, p: Record, m: Record) {
    || m.index - e.anchor.s == p.index - e.anchor.p
    || exists b | 0 <= b < p.index :: DiffersBehind(cfg, e, p, m, b)
  }

  predicate DiffersBehind(cfg: Config, e: Engine, p: Record, m: Record, b: nat) {
    var n := m.index - e.anchor.s - 1 - b;
    n > 0 && Offers(e, p, m, b, n) && Allowed(cfg, e, n) && AnchorIsPair(e) && !Shared(e, b)
  }

  lemma DifferingIsStale(cfg: Config, e: Engine, p: Record, m: Record, b: nat)
    requires DiffersBehind(cfg, e, p, m, b)
    ensures var n := m.index - e.anchor.s - 1 - b;
            && NullVerdict(cfg, e, p, m) == Invalid(Ambiguous, StalePrefix, n, true)
            && MixedVerdict(cfg, e, p, m) == Invalid(Ambiguous, StalePrefix, n, true)
  {
    OfferedGap(e, p, m, b, m.index - e.anchor.s - 1 - b);
    AnchorIsPairHeld(e);
    SharedIsPrefix(e, b);
    hide BeyondAnchor, BoundsMatch, NullScan, MixedScan, AnchorHeld, PrefixMatches, OversizeScan;
  }

  lemma SilentPositionsKeep(cfg: Config, e: Engine, p: Record, m: Record)
    requires PositionsSilent(cfg, e, p, m)
    ensures StagePlan(cfg, e, NullStage, p, Candidates([m], false)) == Keep
    ensures StagePlan(cfg, e, MixedStage, p, Candidates([m], false)) == Keep
  {
    hide StagePlan, NullVerdict, MixedVerdict, DiffersBehind;
    SoleCandidate(cfg, e, NullStage, p, m);
    SoleCandidate(cfg, e, MixedStage, p, m);
    if m.index - e.anchor.s == p.index - e.anchor.p {
      UnofferedIsInvalid(cfg, e, p, m);
    } else {
      var b :| 0 <= b < p.index && DiffersBehind(cfg, e, p, m, b);
      DifferingIsStale(cfg, e, p, m, b);
    }
  }

  lemma MissingDoesNotFit(e: Engine, p: Record, m: Record, n: nat)
    requires CountersMiss(e, p, m, n)
    ensures !Fits(e.outCc, p.packet)
  {
  }

  /** A gap the counters show is filled, wherever the positions do not decide:
      if each missing counter is carried once and undamaged between the anchor
      and the only copy, these packets are inserted, in the order of their
      counters. */
  lemma CounterGapIsFilled(cfg: Config, e: Engine, p: Record, m: Record, n: nat)
    requires SoleCopy(cfg, e, p, m) && CounterGapHolds(cfg, e, p, m, n) && PositionsSilent(cfg, e, p, m)
    ensures p.packet.pid in e.outCc
    ensures var plan := PrimaryPlan(cfg, e, p);
            && plan.Insert? && |plan.rs| == n
            && forall i: nat | i < n ::
                 SoleSoundAt(e.h1, SearchFrom(e, p, m), m.index, p.packet.pid, e.outCc[p.packet.pid], i, plan.rs[i])
  {
    hide PrimaryPlan, ExactPlan, SoleSoundAt, SearchFrom, PositionsSilent;
    CounterGapPlan(cfg, e, p, m, n);
    CounterInsertion(cfg, e, p, m, n);
  }

  lemma CounterGapPlan(cfg: Config, e: Engine, p: Record, m: Record, n: nat)
    requires SoleCopy(cfg, e, p, m) && CounterGapHolds(cfg, e, p, m, n) && PositionsSilent(cfg, e, p, m)
    ensures ExactPlan(cfg, e, p, m).Insert? && PrimaryPlan(cfg, e, p) == ExactPlan(cfg, e, p, m)
  {
    MissingDoesNotFit(e, p, m, n);
    ExactApprovedIff(cfg, e, p, m);
    SolePlan(cfg, e, p, m);
    SilentPositionsKeep(cfg, e, p, m);
    SoleExactCandidate(cfg, e, p, m);
    RecovererAgrees(cfg, e, ExactStage, p, m);
    hide PrimaryPlan, StagePlan, ExactVerdict, ExactPlan, Fits, PositionsSilent;
  }

  lemma CounterInsertion(cfg: Config, e: Engine, p: Record, m: Record, n: nat)
    requires Indexed(e.h1) && CounterGapHolds(cfg, e, p, m, n) && ExactPlan(cfg, e, p, m).Insert?
    ensures p.packet.pid in e.outCc
    ensures var rs := ExactPlan(cfg, e, p, m).rs;
            && |rs| == n
            && forall i: nat | i < n ::
                 SoleSoundAt(e.h1, SearchFrom(e, p, m), m.index, p.packet.pid, e.outCc[p.packet.pid], i, rs[i])
  {
    ExactRecoveryFillsTheCounters(cfg, e, p, m);
    SearchStarts(e, p, m);
    hide ExactPlan, SearchFrom, SearchStart, FitsAll, Fits, AllSole, SoleCarrier, SoleSoundAt;
    var rs, prev := ExactPlan(cfg, e, p, m).rs, e.outCc[p.packet.pid];
    SameCount(prev, p.packet.cc, n, |rs|);
    forall i: nat | i < n ensures SoleSoundAt(e.h1, SearchFrom(e, p, m), m.index, p.packet.pid, prev, i, rs[i]) {
      assert (prev + 1 + 0 + i) % 16 == (prev + 1 + i) % 16;
      SoleCarrierIsSole(e.h1, SearchFrom(e, p, m), m.index, p.packet.pid, prev, i, rs[i]);
    }
  }

  /** r is the only packet with the i-th counter after prev, and undamaged. */
  predicate SoleSoundAt(h: History, first: int, end: int, pid: Pid, prev: Counter, i: nat, r: Record) {
    SoleSound(h, first, end, pid, (prev + 1 + i) % 16, r.index) && h.log[r.index] == r
  }

  lemma SoleCarrierIsSole(h: History, first: int, end: int, pid: Pid, prev: Counter, i: nat, r: Record)
    requires SoleCarrier(h, first, end, pid, (prev + 1 + i) % 16, r) && r.packet.Sound()
    ensures SoleSoundAt(h, first, end, pid, prev, i, r)
  {
    var cc: Counter := (prev + 1 + i) % 16;
    forall y | h.lo <= y < |h.log| && first <= y < end && Carries(h.log[y].packet, pid, cc) ensures y == r.index {
      assert Find(h, y) == Some(h.log[y]);
    }
  }

  lemma SameCount(prev: Counter, cc: Counter, n: nat, k: nat)
    requires 1 <= n <= 15 && cc == (prev + n + 1) % 16 && Explains(prev, cc, k)
    ensures n == k
  {
    OnlyOneExplains(prev, cc, n, k);
  }

  // ------------------------------------------------------ counter gaps that are not

  /** What the exact stage objects to before it looks for packets. */
  lemma CounterGapIsRefused(cfg: Config, e: Engine, p: Record, m: Record, n: nat)
    requires e.anchor.valid && p.index > e.anchor.p && m.index > e.anchor.s && m.index - e.anchor.s >= p.index - e.anchor.p
    requires CountersMiss(e, p, m, n)
    ensures n > cfg.maxBurst ==> ExactVerdict(cfg, e, p, m) == Invalid(BurstTooLarge, BurstTooBig, n, true)
    ensures n <= cfg.maxBurst && e.align.confidence < cfg.minConfidence ==>
              ExactVerdict(cfg, e, p, m) == Invalid(LowAlignment, LowConfidence, n, true)
    ensures Allowed(cfg, e, n) && !AnchorIsPair(e) ==> ExactVerdict(cfg, e, p, m) == Invalid(Ambiguous, BeforeAnchor, n, true)
  {
    ExactGapIs(e, p, m, n);
    AnchorIsPairHeld(e);
    hide ExactGap, AnchorHeld, AnchorIsPair, PickAll, ReplayFlaw, BoundsMatch, CountersMiss, BeyondAnchor;
  }

  predicate CarriedAt(h: History, first: int, end: int, pid: Pid, cc: Counter, x: int) {
    InHistory(h, x) && first <= x < end && Carries(h.log[x].packet, pid, cc)
  }

  /** Two records that carry the counter are ambiguous. */
  lemma TwoCarriersAreAmbiguous(h: History, first: int, end: int, pid: Pid, cc: Counter, fallback: Option<nat>, x: int, y: int)
    requires Indexed(h) && x != y && CarriedAt(h, first, end, pid, cc, x) && CarriedAt(h, first, end, pid, cc, y)
    ensures PickOne(h, first, end, pid, cc, fallback) == Flawed(Flaw(Ambiguous, MultipleCandidates))
  {
    HitsAreExact(h, first, end, pid, cc);
    var hits := Hits(h, first, end, pid, cc);
    assert h.log[x] in hits && h.log[y] in hits by {
      assert Find(h, x) == Some(h.log[x]) && Find(h, y) == Some(h.log[y]);
    }
    assert h.log[x].index != h.log[y].index;
    hide Carries, Hits, Indexed;
    TwoMembers(hits, h.log[x], h.log[y]);
  }

  lemma TwoMembers(rs: seq<Record>, a: Record, b: Record)
    requires a in rs && b in rs && a != b
    ensures |rs| > 1
  {
  }

  /** The only record that carries the counter is refused if it is damaged or
      discontinuous. */
  lemma WrongCarrierIsRefused(h: History, first: int, end: int, pid: Pid, cc: Counter, fallback: Option<nat>, x: int)
    requires CarriedAt(h, first, end, pid, cc, x) && !h.log[x].packet.Sound()
    requires forall y | h.lo <= y < |h.log| :: CarriedAt(h, first, end, pid, cc, y) ==> y == x
    ensures PickOne(h, first, end, pid, cc, fallback) ==
            Flawed(if h.log[x].packet.transportError then Flaw(Tei, SecondaryTei) else Flaw(Discontinuity, SecondaryDiscontinuity))
  {
    OnlyHit(h, first, end, pid, cc, x);
  }

  lemma {:induction false} OnlyHit(h: History, first: int, end: int, pid: Pid, cc: Counter, x: int)
    requires CarriedAt(h, first, end, pid, cc, x)
    requires forall y | h.lo <= y < |h.log| :: CarriedAt(h, first, end, pid, cc, y) ==> y == x
    ensures Hits(h, first, end, pid, cc) == [h.log[x]]
    decreases end - first
  {
    hide Carries;
    if first == x {
      forall y | h.lo <= y < |h.log| && first + 1 <= y < end ensures !Carries(h.log[y].packet, pid, cc) {
        assert CarriedAt(h, first, end, pid, cc, y) ==> y == x;
      }
      NoHits(h, first + 1, end, pid, cc);
    } else {
      assert !CarriedAt(h, first, end, pid, cc, first);
      var next := first + 1;
      forall y | h.lo <= y < |h.log| ensures CarriedAt(h, next, end, pid, cc, y) ==> y == x {
        assert CarriedAt(h, next, end, pid, cc, y) ==> CarriedAt(h, first, end, pid, cc, y);
      }
      OnlyHit(h, next, end, pid, cc, x);
    }
  }

  /** If no record carries the counter, what stands at the fallback index, if
      any, is refused for what it is. */
  lemma NoCarrierIsRefused(h: History, first: int, end: int, pid: Pid, cc: Counter, fallback: Option<nat>)
    requires forall y | h.lo <= y < |h.log| :: !CarriedAt(h, first, end, pid, cc, y)
    requires fallback.Some? ==> first <= fallback.value < end
    ensures PickOne(h, first, end, pid, cc, fallback) ==
            Flawed(if fallback.None? || !InHistory(h, fallback.value) then Flaw(MissingCandidate, NoCandidate)
                   else var q := h.log[fallback.value].packet;
                        if q.isNull then Flaw(WrongPid, NullCandidate)
                        else if q.transportError then Flaw(Tei, SecondaryTei)
                        else if q.discontinuity then Flaw(Discontinuity, SecondaryDiscontinuity)
                        else if q.pid != pid then Flaw(WrongPid, OtherPid)
                        else Flaw(WrongCounter, OtherCounter))
  {
    forall y | h.lo <= y < |h.log| && first <= y < end ensures !Carries(h.log[y].packet, pid, cc) {
      assert !CarriedAt(h, first, end, pid, cc, y);
    }
    NoHits(h, first, end, pid, cc);
    assert fallback.Some? && InHistory(h, fallback.value) ==> !CarriedAt(h, first, end, pid, cc, fallback.value);
  }

  /** The first i counters after prev are each carried once, the next one is
      not: the flaw of that one is the verdict. */
  lemma {:induction false} FirstFlawCounts(h: History, first: int, end: int, pid: Pid, prev: Counter, k: nat, n: nat, i: nat,
                                           fallback: Option<nat>, acc: seq<Record>)
    requires k <= i < n && AllSole(h, first, end, pid, prev, i)
    requires PickOne(h, first, end, pid, (prev + 1 + i) % 16, fallback).Flawed?
    ensures PickAll(h, first, end, pid, prev, k, n, fallback, acc).flaw ==
            Some(PickOne(h, first, end, pid, (prev + 1 + i) % 16, fallback).flaw)
    decreases i - k
  {
    hide PickOne;
    if k < i {
      assert SoleAt(h, first, end, pid, prev, k);
      var x :| h.lo <= x < |h.log| && SoleSound(h, first, end, pid, (prev + 1 + k) % 16, x);
      SoleIsPicked(h, first, end, pid, (prev + 1 + k) % 16, x, fallback);
      FirstFlawCounts(h, first, end, pid, prev, k + 1, n, i, fallback, acc + [h.log[x]]);
    }
  }

  /** The verdict on a counter gap whose bounds are good: the flaw of the first
      counter that is not carried once and undamaged. */
  lemma FlawedGapIsRefused(cfg: Config, e: Engine, p: Record, m: Record, n: nat, i: nat)
    requires e.anchor.valid && p.index > e.anchor.p && m.index > e.anchor.s && m.index - e.anchor.s >= p.index - e.anchor.p
    requires CountersMiss(e, p, m, n) && Allowed(cfg, e, n) && AnchorIsPair(e) && !m.packet.isNull && Twins(p.packet, m.packet) && i < n
    requires BeyondAnchor(e, p, m)
    requires AllSole(e.h1, SearchFrom(e, p, m), m.index, p.packet.pid, e.outCc[p.packet.pid], i)
    requires PickOne(e.h1, SearchFrom(e, p, m), m.index, p.packet.pid, (e.outCc[p.packet.pid] + 1 + i) % 16, FallbackIndex(e, p, m)).Flawed?
    ensures var f := PickOne(e.h1, SearchFrom(e, p, m), m.index, p.packet.pid, (e.outCc[p.packet.pid] + 1 + i) % 16, FallbackIndex(e, p, m)).flaw;
            ExactVerdict(cfg, e, p, m) == Invalid(f.kind, f.reason, n, true)
  {
    ExactGapIs(e, p, m, n);
    AnchorIsPairHeld(e);
    SearchStarts(e, p, m);
    TwinsMatch(p.packet, m.packet);
    assert BoundsMatch(p, m);
    FirstFlawCounts(e.h1, SearchFrom(e, p, m), m.index, p.packet.pid, e.outCc[p.packet.pid], 0, n, i, FallbackIndex(e, p, m), []);
    hide SearchStart, SearchFrom, AnchorHeld, AnchorIsPair, PickAll, PickOne, AllSole, ExactGap, BeyondAnchor, Twins, BoundsMatch, CountersMiss;
  }

  // ------------------------------------------------------------- damaged primaries

  /** A damaged primary that the secondary can replace: a payload packet whose
      aligned copy is undamaged, carries its PID and counter and fits, between a
      pair at the anchor and a pair directly after it. */
  predicate Replaceable(cfg: Config, e: Engine, p: Record) {
    var x := p.index + e.align.offset;
    && !p.packet.isNull && p.packet.hasPayload && !p.packet.discontinuity
    && cfg.minConfidence <= e.align.confidence && AnchorIsPair(e) && e.align.has && InHistory(e.h1, x)
    && (var c := e.h1.log[x].packet;
        && !c.transportError && !c.discontinuity && !c.isNull && c.hasPayload && c.pid == p.packet.pid && c.cc == p.packet.cc
        && (c.pid in e.outCc ==> c.cc == NextCounter(e.outCc[c.pid])))
    && InHistory(e.h0, p.index + 1) && InHistory(e.h1, x + 1)
    && !e.h0.log[p.index + 1].packet.isNull && !e.h1.log[x + 1].packet.isNull
    && Twins(e.h0.log[p.index + 1].packet, e.h1.log[x + 1].packet)
  }

  /** A damaged primary is replaced if and only if that holds, and then by the
      aligned copy; otherwise it is refused, which is always recorded. */
  lemma DamagedIsReplacedIff(cfg: Config, e: Engine, p: Record)
    requires Indexed(e.h1) && p.packet.transportError
    ensures PrimaryPlan(cfg, e, p).Replace? <==> Replaceable(cfg, e, p)
    ensures Replaceable(cfg, e, p) ==> PrimaryPlan(cfg, e, p) == Replace(e.h1.log[p.index + e.align.offset])
    ensures !Replaceable(cfg, e, p) ==> PrimaryPlan(cfg, e, p).Refuse?
  {
    AnchorIsPairHeld(e);
    hide AnchorHeld, AnchorIsPair;
  }

  /** What the output shows of a damaged primary that is replaced: its copy, once. */
  lemma DamagedIsRepaired(env: Env, e: Engine)
    requires Indexed(e.h1) && e.q0 != [] && e.q0[0].packet.transportError && Replaceable(env.cfg, e, e.q0[0]) && env.sinkOk(e.sends)
    ensures var o, c := ProcessFront(env, e), e.h1.log[e.q0[0].index + e.align.offset];
            && o.ok && o.e.out == e.out + [Emission(TeiFix, c)] && o.e.fates == e.fates + [Replaced] && o.e.q0 == e.q0[1..]
            && o.e.stats.recovered == e.stats.recovered + 1 && o.e.stats.rejects == e.stats.rejects
  {
    DamagedIsReplacedIff(env.cfg, e, e.q0[0]);
    hide PrimaryPlan, Replaceable, FindCandidates, AnchorMatch, Observe, RepeatsCounter, BreaksCounter;
  }

  /** Why a damaged primary is not replaced, in the order it is looked at. */
  lemma DamagedIsRefusedFor(cfg: Config, e: Engine, p: Record)
    requires Indexed(e.h1) && p.packet.transportError && !Replaceable(cfg, e, p)
    ensures var plan := PrimaryPlan(cfg, e, p);
            && plan.Refuse? && plan.why.hasMissing && plan.why.missing == 0
            && (p.packet.discontinuity ==> plan.why.kind == Discontinuity && plan.why.reason == PrimaryDiscontinuity)
            && (!p.packet.discontinuity && (p.packet.isNull || !p.packet.hasPayload) ==>
                  plan.why.kind == WrongPid && plan.why.reason == PrimaryNotContent)
    ensures var why, x := PrimaryPlan(cfg, e, p).why, p.index + e.align.offset;
            !p.packet.discontinuity && !p.packet.isNull && p.packet.hasPayload ==>
            && (e.align.confidence < cfg.minConfidence ==> why.kind == LowAlignment && why.reason == LowConfidence)
            && (e.align.confidence >= cfg.minConfidence && !AnchorIsPair(e) ==> why.kind == Ambiguous && why.reason == BeforeAnchor)
            && (e.align.confidence >= cfg.minConfidence && AnchorIsPair(e) && !(e.align.has && InHistory(e.h1, x)) ==>
                  why.kind == MissingCandidate && why.reason == NoCandidate)
            && (e.align.confidence >= cfg.minConfidence && AnchorIsPair(e) && e.align.has && InHistory(e.h1, x) ==>
                  var c := e.h1.log[x].packet;
                  && (c.transportError ==> why.kind == Tei && why.reason == SecondaryTei)
                  && (!c.transportError && c.discontinuity ==> why.kind == Discontinuity && why.reason == SecondaryDiscontinuity)
                  && (c.Sound() && (c.isNull || !c.hasPayload || c.pid != p.packet.pid) ==> why.kind == WrongPid && why.reason == OtherPid)
                  && (c.Content() && c.hasPayload && c.pid == p.packet.pid && c.cc != p.packet.cc ==>
                        why.kind == WrongCounter && why.reason == OtherCounter))
  {
    AnchorIsPairHeld(e);
    hide AnchorHeld, AnchorIsPair;
  }
}
