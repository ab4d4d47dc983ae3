/** The promises behind a recovery: it happens exactly when it is unambiguous,
    and what it inserts is exactly what the primary lost. */
module Decisions {
  import opened Packets
  import opened State
  import opened Gaps
  import opened GapFacts

  // ------------------------------------------------------------- unambiguity

  /** Each recoverer inserts exactly when its validator approves, except that
      the null recoverer also wants no primary between anchor and match. */
  lemma RecovererAgrees(cfg: Config, e: Engine, stage: Stage, p: Record, m: Record)
    ensures StageRecovery(cfg, e, stage, p, m).Insert? <==>
            StageVerdict(cfg, e, stage, p, m).valid && (stage == NullStage ==> PrimaryBetween(e, p) == 0)
    ensures StageVerdict(cfg, e, stage, p, m).valid ==> !StageRecovery(cfg, e, stage, p, m).Refuse?
    ensures !StageRecovery(cfg, e, stage, p, m).Replace?
  {
  }

  /** How many candidates a stage's validator approves. */
  function ValidCount(cfg: Config, e: Engine, stage: Stage, p: Record, ms: seq<Record>): nat
    decreases |ms|
  {
    if ms == [] then 0
    else (if StageVerdict(cfg, e, stage, p, ms[0]).valid then 1 else 0) + ValidCount(cfg, e, stage, p, ms[1..])
  }

  lemma {:induction false} PollCounts(cfg: Config, e: Engine, stage: Stage, p: Record, ms: seq<Record>, v: Vote)
    requires v.conflict.None?
    ensures var w := Poll(cfg, e, stage, p, ms, v);
            var n := ValidCount(cfg, e, stage, p, ms) + if v.winner.Some? then 1 else 0;
            && (w.conflict.Some? <==> n > 1)
            && (w.winner.Some? <==> n > 0)
            && (w.winner.Some? ==> w.winner == v.winner ||
                                   (w.winner.value in ms && StageVerdict(cfg, e, stage, p, w.winner.value).valid))
    decreases |ms|
  {
    if ms != [] {
      var v' := CastVote(v, ms[0], StageVerdict(cfg, e, stage, p, ms[0]));
      if v'.conflict.None? {
        PollCounts(cfg, e, stage, p, ms[1..], v');
      }
    }
  }

  /** A stage inserts if and only if the candidate list is complete and its
      validator approves exactly one candidate (with nothing between anchor and
      match for nulls); it then inserts that candidate's gap. */
  lemma InsertsExactlyWhenUnambiguous(cfg: Config, e: Engine, stage: Stage, p: Record, c: Candidates)
    ensures StagePlan(cfg, e, stage, p, c).Insert? <==>
            !c.truncated && ValidCount(cfg, e, stage, p, c.rs) == 1 &&
            (stage == NullStage ==> PrimaryBetween(e, p) == 0)
    ensures StagePlan(cfg, e, stage, p, c).Insert? ==>
            exists m :: m in c.rs && StageVerdict(cfg, e, stage, p, m).valid &&
                        StagePlan(cfg, e, stage, p, c) == StageRecovery(cfg, e, stage, p, m)
    ensures !c.truncated && ValidCount(cfg, e, stage, p, c.rs) > 1 ==>
            StagePlan(cfg, e, stage, p, c).Refuse? && StagePlan(cfg, e, stage, p, c).why.reason == MultipleValid
  {
    PollCounts(cfg, e, stage, p, c.rs, NoVote);
    var v := Poll(cfg, e, stage, p, c.rs, NoVote);
    if v.winner.Some? {
      RecovererAgrees(cfg, e, stage, p, v.winner.value);
    }
  }

  // ------------------------------------------------------------ exact counters

  /** The hits are the records of the interval that carry the counter, in order. */
  lemma {:induction false} HitsAreExact(h: History, first: int, end: int, pid: Pid, cc: Counter)
    requires Indexed(h)
    ensures var hits := Hits(h, first, end, pid, cc);
            && (forall k | 0 <= k < |hits| ::
                  first <= hits[k].index < end && Find(h, hits[k].index) == Some(hits[k]) && Carries(hits[k].packet, pid, cc))
            && (forall i :: first <= i < end && Find(h, i).Some? && Carries(Find(h, i).value.packet, pid, cc) ==> h.log[i] in hits)
    decreases end - first
  {
    hide Carries;
    if first < end {
      HitsAreExact(h, first + 1, end, pid, cc);
      var hits, later := Hits(h, first, end, pid, cc), Hits(h, first + 1, end, pid, cc);
      assert forall r | r in later :: r in hits;
      if Find(h, first).Some? && Carries(Find(h, first).value.packet, pid, cc) {
        assert hits == [h.log[first]] + later && hits[0] == h.log[first];
      }
    }
  }

  /** r is the only retained record of [first, end) with this PID and counter. */
  predicate SoleCarrier(h: History, first: int, end: int, pid: Pid, cc: Counter, r: Record) {
    && first <= r.index < end && Find(h, r.index) == Some(r) && Carries(r.packet, pid, cc)
    && forall i :: first <= i < end && Find(h, i).Some? && Carries(Find(h, i).value.packet, pid, cc) ==> i == r.index
  }

  /** An accepted packet is the sole carrier of its counter: the fallback
      index, lying inside the searched interval, can never be accepted. */
  lemma PickIsSoleCarrier(h: History, first: int, end: int, pid: Pid, cc: Counter, fallback: Option<nat>)
    requires Indexed(h)
    requires fallback.Some? ==> first <= fallback.value < end
    ensures var pick := PickOne(h, first, end, pid, cc, fallback);
            pick.Picked? ==> pick.r.packet.Sound() && SoleCarrier(h, first, end, pid, cc, pick.r)
    ensures Hits(h, first, end, pid, cc) == [] ==> PickOne(h, first, end, pid, cc, fallback).Flawed?
  {
    HitsAreExact(h, first, end, pid, cc);
    var hits := Hits(h, first, end, pid, cc);
    if hits == [] && fallback.Some? && Find(h, fallback.value).Some? {
      assert h.log[fallback.value] !in hits;
    }
  }

  /** rs carries the counters prev+1+k, prev+2+k, ... one after the other. */
  predicate CarriesRun(h: History, first: int, end: int, pid: Pid, prev: Counter, k: nat, rs: seq<Record>) {
    forall i | 0 <= i < |rs| ::
      rs[i].packet.Sound() && SoleCarrier(h, first, end, pid, (prev + 1 + k + i) % 16, rs[i])
  }

  lemma {:induction false} PicksAreCarriers(h: History, first: int, end: int, pid: Pid, prev: Counter, k: nat, n: nat,
                                            fallback: Option<nat>, acc: seq<Record>)
    requires Indexed(h) && k <= n && |acc| == k
    requires fallback.Some? ==> first <= fallback.value < end
    requires CarriesRun(h, first, end, pid, prev, 0, acc)
    ensures var c := PickAll(h, first, end, pid, prev, k, n, fallback, acc);
            c.flaw.None? ==> |c.rs| == n && CarriesRun(h, first, end, pid, prev, 0, c.rs)
    decreases n - k
  {
    if k < n {
      PickIsSoleCarrier(h, first, end, pid, (prev + 1 + k) % 16, fallback);
      var pick := PickOne(h, first, end, pid, (prev + 1 + k) % 16, fallback);
      if pick.Picked? {
        PicksAreCarriers(h, first, end, pid, prev, k + 1, n, fallback, acc + [pick.r]);
      }
    }
  }

  /** Replaying passes exactly when the packets and then p fit in turn. */
  lemma {:induction false} ReplayPasses(states: Counters, rs: seq<Record>, p: Record)
    requires AllSound(PacketsOf(rs))
    ensures ReplayFlaw(states, rs, p).None? <==>
            FitsAll(states, PacketsOf(rs)) && Fits(ObserveAll(states, PacketsOf(rs)), p.packet)
    decreases |rs|
  {
    if rs != [] {
      assert PacketsOf(rs)[0] == rs[0].packet && PacketsOf(rs)[1..] == PacketsOf(rs[1..]);
      assert forall i | 0 <= i < |rs[1..]| :: PacketsOf(rs[1..])[i] == PacketsOf(rs)[i + 1];
      ReplayPasses(Simulate(states, rs[0].packet), rs[1..], p);
    }
  }

  /** Counters that differ by less than a full turn are different. */
  lemma CountersDiffer(prev: Counter, i: nat, j: nat)
    requires i < j < i + 16
    ensures (prev + 1 + i) % 16 != (prev + 1 + j) % 16
  {
  }

  /** n lost packets explain why counter cc follows prev. */
  predicate Explains(prev: Counter, cc: Counter, n: nat) {
    1 <= n <= 15 && cc == (prev + n + 1) % 16
  }

  /** The number of missing packets is the only one in 1..15 that explains
      the primary's counter, also when a full turn hides fifteen of them. */
  lemma GapSizeIsForced(e: Engine, p: Record, m: Record)
    requires ExactGap(e, p, m).Some? && ExactGap(e, p, m).value > 0
    ensures p.packet.pid in e.outCc
    ensures forall n: nat :: Explains(e.outCc[p.packet.pid], p.packet.cc, n) <==> n == ExactGap(e, p, m).value
  {
    var prev, cc, g := e.outCc[p.packet.pid], p.packet.cc, ExactGap(e, p, m).value;
    assert Explains(prev, cc, g);
    forall n: nat | Explains(prev, cc, n) ensures n == g {
      OnlyOneExplains(prev, cc, n, g);
    }
  }

  lemma OnlyOneExplains(prev: Counter, cc: Counter, n: nat, k: nat)
    requires Explains(prev, cc, n) && Explains(prev, cc, k)
    ensures n == k
  {
  }

  /** The packets picked for the gap carry the missing counters. */
  lemma ExactPicksCarry(e: Engine, p: Record, m: Record, prev: Counter, n: nat)
    requires Indexed(e.h1) && BeyondAnchor(e, p, m) && Missing(e, p, m) >= 0
    ensures var c := ExactPicks(e, p, m, prev, n);
            c.flaw.None? ==> |c.rs| == n && CarriesRun(e.h1, SearchStart(e, p, m), m.index, p.packet.pid, prev, 0, c.rs)
  {
    PicksAreCarriers(e.h1, SearchStart(e, p, m), m.index, p.packet.pid, prev, 0, n, FallbackIndex(e, p, m), []);
  }

  lemma CarriersAreDistinct(h: History, first: int, end: int, pid: Pid, prev: Counter, rs: seq<Record>)
    requires CarriesRun(h, first, end, pid, prev, 0, rs) && |rs| <= 15
    ensures AllSound(PacketsOf(rs))
    ensures forall i, j | 0 <= i < j < |rs| :: rs[i].index != rs[j].index
  {
    forall i, j | 0 <= i < j < |rs| ensures rs[i].index != rs[j].index {
      CountersDiffer(prev, i, j);
    }
  }

  /** Exact-counter recovery inserts exactly the number of packets that the
      counters call for; they carry the missing counters in order, lie strictly
      between anchor and match, are distinct, and each is the only packet of
      the searched interval that could be meant. */
  lemma ExactRecoveryFillsTheCounters(cfg: Config, e: Engine, p: Record, m: Record)
    requires Indexed(e.h1)
    requires ExactPlan(cfg, e, p, m).Insert?
    ensures p.packet.pid in e.outCc
    ensures var rs := ExactPlan(cfg, e, p, m).rs;
            var prev := e.outCc[p.packet.pid];
            && Explains(prev, p.packet.cc, |rs|) && |rs| <= cfg.maxBurst
            && CarriesRun(e.h1, SearchStart(e, p, m), m.index, p.packet.pid, prev, 0, rs)
            && (forall i | 0 <= i < |rs| :: e.anchor.s < rs[i].index < m.index)
            && (forall i, j | 0 <= i < j < |rs| :: rs[i].index != rs[j].index)
            && FitsAll(e.outCc, PacketsOf(rs)) && Fits(ObserveAll(e.outCc, PacketsOf(rs)), p.packet)
  {
    GapSizeIsForced(e, p, m);
    var prev, n := e.outCc[p.packet.pid], ExactGap(e, p, m).value;
    assert Explains(prev, p.packet.cc, n);
    ExactPicksCarry(e, p, m, prev, n);
    var rs := ExactPicks(e, p, m, prev, n).rs;
    CarriersAreDistinct(e.h1, SearchStart(e, p, m), m.index, p.packet.pid, prev, rs);
    ReplayPasses(e.outCc, rs, p);
    assert SearchStart(e, p, m) > e.anchor.s;
  }

  // ------------------------------------------------------------- mixed splices

  /** What the output shows from the anchor to the primary once rs is inserted:
      the primary stream from the anchor on, rs, and the primary itself. */
  function Spliced(e: Engine, p: Record, rs: seq<Record>): seq<Packet>
    requires e.anchor.p < p.index <= |e.h0.log|
  {
    PacketsOf(e.h0.log[e.anchor.p..p.index]) + PacketsOf(rs) + [p.packet]
  }

  /** The packet at each place of a splice. */
  lemma SplicedAt(e: Engine, p: Record, rs: seq<Record>, i: nat)
    requires e.anchor.p < p.index <= |e.h0.log| && i <= PrimaryBetween(e, p) + 1 + |rs|
    ensures var ps, b := Spliced(e, p, rs), PrimaryBetween(e, p);
            && |ps| == b + 2 + |rs|
            && ps[i] == if i <= b then e.h0.log[e.anchor.p + i].packet
                        else if i <= b + |rs| then rs[i - b - 1].packet
                        else p.packet
  {
  }

  predicate CopyOf(ps: seq<Packet>, qs: seq<Packet>) {
    |ps| == |qs| && forall i | 0 <= i < |ps| :: ExactMatch(ps[i], qs[i])
  }

  /** The contents of a mixed insertion. */
  lemma MixedInsertion(cfg: Config, e: Engine, p: Record, m: Record)
    requires MixedPlan(cfg, e, p, m).Insert?
    ensures var rs := MixedPlan(cfg, e, p, m).rs;
            && 1 <= |rs| <= cfg.maxBurst && BeyondAnchor(e, p, m) && GapStart(e, p) + |rs| == m.index
            && Held(e.h1, GapStart(e, p), |rs|) && rs == e.h1.log[GapStart(e, p)..m.index]
            && AllSound(PacketsOf(rs)) && SomeContent(PacketsOf(rs))
            && FitsAll(e.outCc, PacketsOf(rs)) && Fits(ObserveAll(e.outCc, PacketsOf(rs)), p.packet)
            && AnchorHeld(e) && BoundsMatch(p, m) && PrefixMatches(e, PrimaryBetween(e, p))
  {
    MixedScanPasses(e.h1, GapStart(e, p), Missing(e, p, m), false, e.outCc);
  }

  /** A mixed recovery is a correct splice: with the burst in place, anchor,
      shared prefix, burst and primary reproduce the secondary run from the
      anchor to the match, packet by packet. */
  lemma MixedRecoveryIsASplice(cfg: Config, e: Engine, p: Record, m: Record)
    requires p.index <= |e.h0.log| && Find(e.h1, m.index) == Some(m)
    requires MixedPlan(cfg, e, p, m).Insert?
    ensures e.anchor.p < p.index && e.anchor.s < m.index
    ensures CopyOf(Spliced(e, p, MixedPlan(cfg, e, p, m).rs), PacketsOf(e.h1.log[e.anchor.s..m.index + 1]))
  {
    MixedInsertion(cfg, e, p, m);
    hide MixedPlan, FitsAll, ObserveAll, Fits, SomeContent, PacketsOf, Spliced, ExactMatch;
    var rs := MixedPlan(cfg, e, p, m).rs;
    var qs := PacketsOf(e.h1.log[e.anchor.s..m.index + 1]);
    SplicedAt(e, p, rs, 0);
    forall i | 0 <= i < |qs| ensures ExactMatch(Spliced(e, p, rs)[i], qs[i]) {
      SpliceMatches(e, p, m, rs, i);
    }
  }

  lemma SpliceMatches(e: Engine, p: Record, m: Record, rs: seq<Record>, i: nat)
    requires e.anchor.p < p.index <= |e.h0.log| && Find(e.h1, m.index) == Some(m) && i <= m.index - e.anchor.s
    requires AnchorHeld(e) && BoundsMatch(p, m) && PrefixMatches(e, PrimaryBetween(e, p)) && AllSound(PacketsOf(rs))
    requires 0 <= GapStart(e, p) < m.index && rs == e.h1.log[GapStart(e, p)..m.index]
    ensures |Spliced(e, p, rs)| == m.index + 1 - e.anchor.s
    ensures ExactMatch(Spliced(e, p, rs)[i], e.h1.log[e.anchor.s + i].packet)
  {
    SplicedAt(e, p, rs, i);
    hide Spliced, SameIdentity;
    var b := PrimaryBetween(e, p);
    if 0 < i <= b {
      assert PairMatches(e, i - 1);
    } else if b < i <= b + |rs| {
      assert PacketsOf(rs)[i - b - 1].Sound();
      SameAsItself(rs[i - b - 1].packet);
    }
  }

  lemma SameAsItself(p: Packet)
    ensures SameIdentity(p, p)
  {
  }

  // ------------------------------------------------------------ every decision

  /** r is a packet the secondary really delivered. */
  predicate FromSecondary(e: Engine, r: Record) {
    r.index < |e.h1.log| && e.h1.log[r.index] == r
  }

  predicate AllFromSecondary(e: Engine, rs: seq<Record>) {
    forall i | 0 <= i < |rs| :: FromSecondary(e, rs[i])
  }

  /** What makes it safe to insert rs before p. */
  predicate SafeInsertion(e: Engine, p: Packet, rs: seq<Record>) {
    && rs != [] && AllFromSecondary(e, rs) && FitsAll(e.outCc, PacketsOf(rs)) && AllSound(PacketsOf(rs))
    && (AllNull(PacketsOf(rs)) || Fits(ObserveAll(e.outCc, PacketsOf(rs)), p))
  }

  lemma {:induction false} NullsAlwaysFit(states: Counters, ps: seq<Packet>)
    requires AllNull(ps)
    ensures FitsAll(states, ps) && ObserveAll(states, ps) == states
    decreases |ps|
  {
    if ps != [] {
      NullsAlwaysFit(states, ps[1..]);
    }
  }

  lemma NullRecoveryIsSafe(cfg: Config, e: Engine, p: Record, m: Record)
    requires Indexed(e.h1) && NullPlan(cfg, e, p, m).Insert?
    ensures SafeInsertion(e, p.packet, NullPlan(cfg, e, p, m).rs)
  {
    hide Fits, Observe;
    NullScanPasses(e.h1, e.anchor.s + 1, Missing(e, p, m));
    NullsAlwaysFit(e.outCc, PacketsOf(NullPlan(cfg, e, p, m).rs));
  }

  lemma MixedRecoveryIsSafe(cfg: Config, e: Engine, p: Record, m: Record)
    requires Indexed(e.h1) && MixedPlan(cfg, e, p, m).Insert?
    ensures SafeInsertion(e, p.packet, MixedPlan(cfg, e, p, m).rs)
  {
    hide MixedPlan, Fits, FitsAll, ObserveAll;
    MixedInsertion(cfg, e, p, m);
  }

  lemma ExactRecoveryIsSafe(cfg: Config, e: Engine, p: Record, m: Record)
    requires Indexed(e.h1) && ExactPlan(cfg, e, p, m).Insert?
    ensures SafeInsertion(e, p.packet, ExactPlan(cfg, e, p, m).rs)
  {
    hide ExactPlan, Fits, FitsAll, ObserveAll;
    ExactRecoveryFillsTheCounters(cfg, e, p, m);
    var rs := ExactPlan(cfg, e, p, m).rs;
    assert forall i | 0 <= i < |rs| :: PacketsOf(rs)[i].Sound();
  }

  lemma RecoveryIsSafe(cfg: Config, e: Engine, stage: Stage, p: Record, m: Record)
    requires Indexed(e.h1)
    requires StageRecovery(cfg, e, stage, p, m).Insert?
    ensures SafeInsertion(e, p.packet, StageRecovery(cfg, e, stage, p, m).rs)
  {
    hide NullPlan, MixedPlan, ExactPlan, SafeInsertion;
    match stage
    case NullStage => NullRecoveryIsSafe(cfg, e, p, m);
    case MixedStage => MixedRecoveryIsSafe(cfg, e, p, m);
    case ExactStage => ExactRecoveryIsSafe(cfg, e, p, m);
  }

  lemma StageIsSafe(cfg: Config, e: Engine, stage: Stage, p: Record, c: Candidates)
    requires Indexed(e.h1)
    ensures var plan := StagePlan(cfg, e, stage, p, c);
            !plan.Replace? && (plan.Insert? ==> SafeInsertion(e, p.packet, plan.rs))
  {
    var v := Poll(cfg, e, stage, p, c.rs, NoVote);
    if !c.truncated && v.conflict.None? && v.winner.Some? {
      RecovererAgrees(cfg, e, stage, p, v.winner.value);
      if StagePlan(cfg, e, stage, p, c).Insert? {
        RecoveryIsSafe(cfg, e, stage, p, v.winner.value);
      }
    }
  }

  /** Every decision is safe: a primary kept in silence fits; packets inserted
      before it came from the secondary, fit in turn and, unless they are all
      nulls, make it fit; a replacement fits and carries its counter. */
  lemma DecisionIsSafe(cfg: Config, e: Engine, p: Record)
    requires Indexed(e.h1)
    ensures match PrimaryPlan(cfg, e, p)
            case Keep => Fits(e.outCc, p.packet)
            case Refuse(_) => true
            case Insert(rs, _) => SafeInsertion(e, p.packet, rs)
            case Replace(r) => FromSecondary(e, r) && r.packet.Content() && Fits(e.outCc, r.packet) &&
                               p.packet.transportError && r.packet.pid == p.packet.pid && r.packet.cc == p.packet.cc
  {
    if !p.packet.transportError {
      var c := FindCandidates(cfg, e, p);
      StageIsSafe(cfg, e, NullStage, p, c);
      StageIsSafe(cfg, e, MixedStage, p, c);
      StageIsSafe(cfg, e, ExactStage, p, c);
    }
  }
}
