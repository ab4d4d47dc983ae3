/** The promises that hold of every run of the engine. */
module Theorems {
  import opened Packets
  import opened State
  import opened Gaps
  import opened GapFacts
  import opened Receive
  import opened Drain
  import opened Protocol
  import opened Invariants
  import opened Refinement
  import OutputUdp

  // --------------------------------------------------------------- conservation

  lemma {:induction false} FatesPartition(log: seq<Record>, fates: seq<Fate>)
    requires |fates| <= |log|
    ensures |fates| == |Kept(log, fates, Emitted)| + |Kept(log, fates, Replaced)| +
                       |Kept(log, fates, Overflowed)| + |Kept(log, fates, Discarded)|
    decreases |fates|
  {
    if fates != [] {
      FatesPartition(log, fates[..|fates| - 1]);
    }
  }

  lemma {:induction false} OutputPartition(out: seq<Emission>)
    ensures |out| == |Through(out, Direct)| + |Through(out, Gap)| + |Through(out, TeiFix)| + |Through(out, Failover)|
    decreases |out|
  {
    if out != [] {
      OutputPartition(out[..|out| - 1]);
    }
  }

  lemma {:induction false} KeptInOrder(h: History, fates: seq<Fate>, f: Fate)
    requires Indexed(h) && |fates| <= |h.log|
    ensures IncreasingTo(Kept(h.log, fates, f), |fates|)
    ensures forall i | 0 <= i < |Kept(h.log, fates, f)| :: Kept(h.log, fates, f)[i] in h.log
    decreases |fates|
  {
    if fates != [] {
      KeptInOrder(h, fates[..|fates| - 1], f);
    }
  }

  /** Each primary received is still queued or met exactly one fate, the queue
      being the rest of the stream in order; each packet sent is a primary, a
      recovery or a fail-over packet; primaries are sent at most once and in
      stream order. */
  predicate Balanced(e: Engine) {
    && |e.fates| <= |e.h0.log| && e.q0 == e.h0.log[|e.fates|..]
    && |e.h0.log| == |e.q0| + |Through(e.out, Direct)| + |Through(e.out, TeiFix)| +
                     e.stats.overflows + |Kept(e.h0.log, e.fates, Discarded)|
    && e.stats.output == |e.out| == |Through(e.out, Direct)| + e.stats.recovered + |Through(e.out, Failover)|
    && e.stats.recovered == e.stats.recoveredContent + e.stats.recoveredNull
    && e.stats.datagrams == e.stats.output / 7
    && IncreasingTo(Through(e.out, Direct), |e.fates|)
    && (forall i | 0 <= i < |Through(e.out, Direct)| :: Through(e.out, Direct)[i] in e.h0.log)
  }

  /** Conservation over every run, whatever the sink does. */
  lemma Conservation(env: Env, evs: seq<Event>)
    ensures Balanced(Run(env, evs))
  {
    RunKeepsInv(env, evs);
    var e := Run(env, evs);
    FatesPartition(e.h0.log, e.fates);
    OutputPartition(e.out);
    KeptInOrder(e.h0, e.fates, Emitted);
  }

  // ----------------------------------------------------------------- continuity

  /** No continuity break is emitted silently: counted errors and duplicates
      never exceed the rejects recorded, the nulls inserted and the packets
      sent in fail-over. */
  lemma NoSilentBreak(env: Env, evs: seq<Event>)
    ensures var e := Run(env, evs);
            e.stats.errors + e.stats.duplicates <=
            |e.stats.rejects| + e.stats.recoveredNull + |Through(e.out, Failover)|
  {
    RunKeepsInv(env, evs);
  }

  /** The number of fail-overs is that of returns, plus one while the
      secondary is the source. */
  lemma SwitchesTellTheSource(env: Env, evs: seq<Event>)
    ensures var e := Run(env, evs); e.stats.switches1 == e.stats.switches0 + e.active
  {
    RunKeepsInv(env, evs);
  }

  lemma MoveCountsSends(env: Env, e: Engine, mv: Move)
    requires Legal(env, e, mv) && |e.out| == OutputUdp.Successes(env.sinkOk, e.sends)
    ensures var o := Apply(env, e, mv); |o.out| == OutputUdp.Successes(env.sinkOk, o.sends)
  {
    hide Fits, Counted, Observe, Silent, ReturnReady, Slack, Cutoff, AlreadyOutput, BoundsMatch;
    if mv.Arrive? { hide NewHistory, NewAlignment; }
  }

  lemma {:induction false} PathCountsSends(env: Env, e: Engine, ms: seq<Move>)
    requires Path(env, e, ms) && |e.out| == OutputUdp.Successes(env.sinkOk, e.sends)
    ensures var o := After(env, e, ms); |o.out| == OutputUdp.Successes(env.sinkOk, o.sends)
    decreases |ms|
  {
    hide Legal, Apply;
    if ms != [] {
      MoveCountsSends(env, e, ms[0]);
      PathCountsSends(env, Apply(env, e, ms[0]), ms[1..]);
    }
  }

  /** The output of a run is what the sink accepted of what it was offered. */
  lemma OutputIsAccepted(env: Env, evs: seq<Event>)
    ensures var e := Run(env, evs); |e.out| == OutputUdp.Successes(env.sinkOk, e.sends)
  {
    hide Run;
    var ms := RunIsAPath(env, evs);
    PathCountsSends(env, Initial, ms);
  }

  /** With the batcher as the sink, the datagrams the engine counts are the ones
      the batcher sent, whatever bytes the packets have and whenever the network
      fails. */
  lemma DatagramsAgree(env: Env, evs: seq<Event>, ps: seq<OutputUdp.TsPacket>, net: nat -> bool)
    requires |ps| == Run(env, evs).sends
    requires forall k: nat | k < |ps| :: env.sinkOk(k) <==> OutputUdp.Accepts(ps, net, k)
    ensures |OutputUdp.Offered(ps, net).sent| == Run(env, evs).stats.datagrams
  {
    hide Run;
    Conservation(env, evs);
    OutputIsAccepted(env, evs);
    OutputUdp.OneForSevenAccepted(ps, net, env.sinkOk);
  }

  // ------------------------------------------------------------ time and anchors

  lemma LaterTransitive(a: Engine, b: Engine, c: Engine)
    requires Later(a, b) && Later(b, c)
    ensures Later(a, c)
  {
  }

  lemma LaterReflexive(e: Engine)
    ensures Later(e, e)
  {
  }

  lemma StepOnlyAdds(env: Env, e: Engine, ev: Event)
    requires Inv(e)
    ensures Later(e, Step(env, e, ev))
  {
    StepKeepsInv(env, e, ev);
    hide Step, Received, Later, Inv;
    LaterTransitive(e, Received(env, e, ev), Step(env, e, ev));
  }

  /** A run only ever adds: what was received, sent and decided stays, an
      alignment is never lost, and the anchor moves only to later primaries. */
  lemma {:induction false} RunOnlyAdds(env: Env, evs: seq<Event>, i: nat)
    requires i <= |evs|
    ensures Later(Run(env, evs[..i]), Run(env, evs))
    decreases |evs|
  {
    hide Step, Inv, Later;
    var n := |evs|;
    if i == n {
      assert evs[..i] == evs;
      LaterReflexive(Run(env, evs));
    } else {
      RunOnlyAdds(env, evs[..n - 1], i);
      assert evs[..n - 1][..i] == evs[..i];
      var e := Run(env, evs[..n - 1]);
      RunKeepsInv(env, evs[..n - 1]);
      StepOnlyAdds(env, e, evs[n - 1]);
      LaterTransitive(Run(env, evs[..i]), e, Run(env, evs));
    }
  }

  /** In every reachable state a valid anchor is a true one: it names a primary
      already sent and an exact secondary copy of it, so it is lost only when
      one of the two records has left its history. */
  lemma AnchorIsTrue(env: Env, evs: seq<Event>)
    ensures var e := Run(env, evs);
            e.anchor.valid ==>
              && e.lastOut0.Some? && e.anchor.p <= e.lastOut0.value
              && (AnchorHeld(e) <==> Find(e.h0, e.anchor.p).Some? && Find(e.h1, e.anchor.s).Some?)
  {
    RunKeepsInv(env, evs);
  }

  lemma {:induction false} ScansDoNotBlameTheAnchor(h: History, i: nat, n: nat, content: bool, states: Counters)
    ensures NullScan(h, i, n).Some? ==> NullScan(h, i, n).value.reason != BeforeAnchor
    ensures OversizeScan(h, i, n).reason != BeforeAnchor
    ensures var f := MixedScan(h, i, n, content, states).flaw; f.Some? ==> f.value.reason != BeforeAnchor
    decreases n
  {
    if n > 0 && Find(h, i).Some? {
      var p := h.log[i].packet;
      ScansDoNotBlameTheAnchor(h, i + 1, n - 1, content || !p.isNull, Simulate(states, p));
    }
  }

  lemma PicksDoNotBlameTheAnchor(h: History, first: int, end: int, pid: Pid, prev: Counter, k: nat, n: nat,
                                 fallback: Option<nat>, acc: seq<Record>)
    requires k <= n
    ensures var f := PickAll(h, first, end, pid, prev, k, n, fallback, acc).flaw; f.Some? ==> f.value.reason != BeforeAnchor
    decreases n - k
  {
  }

  lemma ReplayDoesNotBlameTheAnchor(states: Counters, rs: seq<Record>, p: Record)
    ensures var f := ReplayFlaw(states, rs, p); f.Some? ==> f.value.reason != BeforeAnchor
    decreases |rs|
  {
  }

  /** The anchor is valid and both its records are retained. */
  predicate AnchorKept(e: Engine) {
    e.anchor.valid && Find(e.h0, e.anchor.p).Some? && Find(e.h1, e.anchor.s).Some?
  }

  /** No validator and no recoverer blames an anchor that is kept. */
  lemma StageDoesNotBlameTheAnchor(cfg: Config, e: Engine, stage: Stage, p: Record, m: Record)
    requires Inv(e) && AnchorKept(e)
    ensures StageVerdict(cfg, e, stage, p, m).why.reason != BeforeAnchor
    ensures var plan := StageRecovery(cfg, e, stage, p, m); plan.Refuse? ==> plan.why.reason != BeforeAnchor
  {
    assert AnchorHeld(e);
    hide Inv, AnchorKept, AnchorHeld, BoundsMatch, PrefixMatches, Fits;
    if BeyondAnchor(e, p, m) && Missing(e, p, m) >= 0 {
      var n := Missing(e, p, m);
      match stage
      case NullStage =>
        ScansDoNotBlameTheAnchor(e.h1, GapStart(e, p), n, false, e.outCc);
        ScansDoNotBlameTheAnchor(e.h1, GapStart(e, p), cfg.maxBurst + 1, false, e.outCc);
      case MixedStage =>
        ScansDoNotBlameTheAnchor(e.h1, GapStart(e, p), n, false, e.outCc);
      case ExactStage =>
        if ExactGap(e, p, m).Some? {
          var g := ExactGap(e, p, m).value;
          PicksDoNotBlameTheAnchor(e.h1, SearchStart(e, p, m), m.index, p.packet.pid, e.outCc[p.packet.pid], 0, g,
                                   FallbackIndex(e, p, m), []);
          ReplayDoesNotBlameTheAnchor(e.outCc, ExactPicks(e, p, m, e.outCc[p.packet.pid], g).rs, p);
        }
    }
  }

  lemma {:induction false} PollDoesNotBlameTheAnchor(cfg: Config, e: Engine, stage: Stage, p: Record, ms: seq<Record>, v: Vote)
    requires Inv(e) && AnchorKept(e) && v.best.reason != BeforeAnchor
    ensures Poll(cfg, e, stage, p, ms, v).best.reason != BeforeAnchor
    decreases |ms|
  {
    hide Inv, StageVerdict, StageRecovery;
    if ms != [] {
      StageDoesNotBlameTheAnchor(cfg, e, stage, p, ms[0]);
      PollDoesNotBlameTheAnchor(cfg, e, stage, p, ms[1..], CastVote(v, ms[0], StageVerdict(cfg, e, stage, p, ms[0])));
    }
  }

  lemma StagePlanDoesNotBlameTheAnchor(cfg: Config, e: Engine, stage: Stage, p: Record, c: Candidates)
    requires Inv(e) && AnchorKept(e)
    ensures var plan := StagePlan(cfg, e, stage, p, c); plan.Refuse? ==> plan.why.reason != BeforeAnchor
  {
    hide Inv, StageRecovery, Poll;
    var v := Poll(cfg, e, stage, p, c.rs, NoVote);
    PollDoesNotBlameTheAnchor(cfg, e, stage, p, c.rs, NoVote);
    if v.winner.Some? {
      StageDoesNotBlameTheAnchor(cfg, e, stage, p, v.winner.value);
    }
  }

  /** With a valid anchor in a reachable state, a reject is recorded with the
      reason "before_anchor" only when a record of the anchor has been evicted,
      damaged primaries included. */
  lemma BeforeAnchorMeansEvicted(cfg: Config, e: Engine, p: Record)
    requires Inv(e) && e.anchor.valid
    requires PrimaryPlan(cfg, e, p).Refuse? && PrimaryPlan(cfg, e, p).why.reason == BeforeAnchor
    ensures Find(e.h0, e.anchor.p).None? || Find(e.h1, e.anchor.s).None?
  {
    if AnchorKept(e) {
      assert AnchorHeld(e);
      hide Inv, StagePlan, FindCandidates, Fits, AnchorKept;
      var c := FindCandidates(cfg, e, p);
      StagePlanDoesNotBlameTheAnchor(cfg, e, NullStage, p, c);
      StagePlanDoesNotBlameTheAnchor(cfg, e, MixedStage, p, c);
      StagePlanDoesNotBlameTheAnchor(cfg, e, ExactStage, p, c);
    }
  }

  // ------------------------------------------------------------------- alignment

  /** In every reachable state an alignment rests on eight consecutive copies
      of informative packets at its offset, or on a matching pair with a PCR. */
  lemma AlignmentIsWitnessed(env: Env, evs: seq<Event>)
    ensures var e := Run(env, evs); AlignmentSound(e.align, e.h0.log, e.h1.log)
  {
    RunKeepsInv(env, evs);
  }

  predicate EightInARow(log: seq<Record>, i: int) {
    7 <= i < |log| && forall j | i - 8 < j <= i :: log[j].packet.Content()
  }

  /** Null and damaged packets never create an alignment: without a PCR on
      the primary, eight informative primaries in a row are behind it. */
  lemma NullsNeverAlign(e: Engine)
    requires Inv(e) && e.align.has
    requires forall i | 0 <= i < |e.h0.log| :: !e.h0.log[i].packet.hasPcr
    ensures exists i :: EightInARow(e.h0.log, i)
  {
    var l0, l1, off := e.h0.log, e.h1.log, e.align.offset;
    var i :| RunWitness(l0, l1, off, i) || PcrWitness(l0, l1, off, i);
    assert PairAt(l0, l1, off, i - 7) && PairAt(l0, l1, off, i);
    forall j | i - 8 < j <= i ensures l0[j].packet.Content() {
      assert PairAt(l0, l1, off, j);
    }
    assert EightInARow(l0, i);
  }
}
