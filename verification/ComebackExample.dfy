/** The discarded packet may still come back: when the secondary delivers it
    before the next primary is served, the exact stage sends that copy. */
module ComebackExample {
  import opened Packets
  import opened State
  import opened Gaps
  import opened GapFacts
  import opened Receive
  import opened Drain
  import opened Invariants
  import opened Refinement
  import opened Sources
  import opened SecondaryLoss
  import opened DrainShape
  import opened GapRepair
  import opened DiscardExample

  /** The run that loses D, and the secondary's D and E before the primary's E. */
  const LongerRun: seq<Event> := TheRun + [Push(1, D), Push(1, E), Push(0, E)]

  /** D has been discarded: C is the anchor and the last packet sent. */
  predicate WithoutD(e: Engine, n1: nat, S: seq<Packet>, F: seq<nat>, G: seq<nat>) {
    && CopyWithLosses(e.h0.log, S, G) && CopyWithLosses(e.h1.log, S, F)
    && |e.h0.log| == 3 && |e.h1.log| == n1 && e.h0.lo == 0 && e.h1.lo == 0 && e.q0 == [] && e.active == 0
    && |e.fates| == 3 && e.fates[2] == Discarded && e.anchor == Anchor(true, 1, 3) && e.lastOut1 == Some(2)
    && e.align.has && e.align.offset == 0 && e.align.confidence == 100 && e.align.misses <= n1 + 3
    && C.pid in e.outCc && e.outCc[C.pid] == C.cc && SentPackets(e.out) == [A, B1, B2, C]
  }

  lemma CountersAfterC(S: seq<Packet>, F: seq<nat>, G: seq<nat>)
    requires Delivers(S, F, G)
    ensures C.pid in ObserveAll(map[], S[0..4]) && ObserveAll(map[], S[0..4])[C.pid] == C.cc
  {
    hide CleanSource;
    assert S[0..4] == S[0..3] + [C];
    FitsAllSplit(map[], S[0..3], [C]);
    ObserveOne(ObserveAll(map[], S[0..3]), C);
  }

  /** C is where the output stands before D comes. */
  lemma AnchorIsC(e: Engine, S: seq<Packet>, F: seq<nat>, G: seq<nat>)
    requires BeforeD(e, S, F, G) && Delivers(S, F, G)
    ensures e.anchor == Anchor(true, 1, 3)
  {
    hide ObserveAll, SentPackets, CleanSource;
  }

  lemma DIsDiscarded(e: Engine, S: seq<Packet>, F: seq<nat>, G: seq<nat>)
    requires Inv(e) && BeforeD(e, S, F, G) && Delivers(S, F, G)
    ensures WithoutD(Step(TheEnv, e, Push(0, D)), 4, S, F, G)
  {
    Event6(e, S, F, G);
    HistoryGrows(e, 0, D);
    TrackSoFar(e, S, F, G);
    AnchorIsC(e, S, F, G);
    CountersAfterC(S, F, G);
    hide Step, Inv, NewHistory, CleanSource, ObserveAll, SentPackets, Rising;
  }

  /** The secondary delivers on; with nothing queued the output does not move. */
  lemma SecondaryGoesOn(e: Engine, p: Packet, n1: nat, S: seq<Packet>, F: seq<nat>, G: seq<nat>)
    requires WithoutD(e, n1, S, F, G) && Delivers(S, F, G) && 4 <= n1 < 6 && p == S[F[n1]] && !p.hasPcr
    ensures WithoutD(Step(TheEnv, e, Push(1, p)), n1 + 1, S, F, G)
  {
    hide DrainOnce, UpdatedAlignment, CleanSource, Rising, SentPackets, NewHistory, InputObserved;
    HistoryGrows(e, 1, p);
    EarlyAlignment(TheConfig, e.align, NewHistory(TheEnv, e, 1, p), e.h0, 1, NewRecord(TheEnv, e, 1, p));
    QuietDrain(Ingest(TheEnv, e, 1, p));
  }

  // ------------------------------------------------------------------ E is served

  /** E is at the head of the queue, C being the anchor and D missing between. */
  predicate EIsNext(e: Engine, S: seq<Packet>, F: seq<nat>, G: seq<nat>) {
    && Indexed(e.h0) && Indexed(e.h1) && CopyWithLosses(e.h0.log, S, G) && CopyWithLosses(e.h1.log, S, F)
    && |e.h0.log| == 4 && |e.h1.log| == 6 && e.h0.lo == 0 && e.h1.lo == 0 && e.q0 == e.h0.log[3..] && e.active == 0
    && |e.fates| == 3 && e.fates[2] == Discarded && e.anchor == Anchor(true, 1, 3) && e.lastOut1 == Some(2)
    && e.align.has && e.align.offset == 0 && e.align.confidence == 100
    && C.pid in e.outCc && e.outCc[C.pid] == C.cc && SentPackets(e.out) == [A, B1, B2, C]
  }

  lemma EArrives(e: Engine, S: seq<Packet>, F: seq<nat>, G: seq<nat>)
    requires Inv(e) && WithoutD(e, 6, S, F, G) && Delivers(S, F, G)
    ensures var b := Ingest(TheEnv, e, 0, E); EIsNext(b, S, F, G) && |b.q0| == 1 && !AlreadyOutput(b, b.q0[0])
  {
    hide UpdatedAlignment, CleanSource, Rising, SentPackets, NewHistory, Ledger, Sourced, Anchored, Accounted, AlignmentSound;
    HistoryGrows(e, 0, E);
    EarlyAlignment(TheConfig, e.align, NewHistory(TheEnv, e, 0, E), e.h1, 0, NewRecord(TheEnv, e, 0, E));
  }

  /** The search between the anchor and E finds D and nothing else. */
  lemma PicksD(h: History, S: seq<Packet>, F: seq<nat>, G: seq<nat>)
    requires Indexed(h) && CopyWithLosses(h.log, S, F) && |h.log| == 6 && h.lo == 0 && Delivers(S, F, G)
    ensures PickAll(h, 4, 5, C.pid, C.cc, 0, 1, None, []) == Picks([h.log[4]], None)
  {
    hide CleanSource, Rising;
    assert h.log[4].packet == D;
    assert Hits(h, 5, 5, C.pid, 4) == [];
    assert Hits(h, 4, 5, C.pid, 4) == [h.log[4]];
    assert PickOne(h, 4, 5, C.pid, 4, None) == Picked(h.log[4]);
    assert [] + [h.log[4]] == [h.log[4]];
  }

  lemma DFitsThenE(states: Counters, d: Record, p: Record)
    requires C.pid in states && states[C.pid] == C.cc && d.packet == D && p.packet == E
    ensures ReplayFlaw(states, [d], p) == None
  {
    assert [d][1..] == [];
  }

  /** The exact stage fills the gap before E with D. */
  lemma ExactPlanIsD(e: Engine, S: seq<Packet>, F: seq<nat>, G: seq<nat>)
    requires EIsNext(e, S, F, G) && Delivers(S, F, G)
    ensures var p, m := e.q0[0], e.h1.log[5];
            ExactVerdict(TheConfig, e, p, m).valid && ExactPlan(TheConfig, e, p, m) == Insert([e.h1.log[4]], false)
  {
    hide CleanSource, Rising, PickAll, ReplayFlaw, PrefixMatches, SentPackets;
    var p, m := e.q0[0], e.h1.log[5];
    PicksD(e.h1, S, F, G);
    DFitsThenE(e.outCc, e.h1.log[4], p);
    assert ExactGap(e, p, m) == Some(1);
  }

  /** A stage with one approved candidate carries out its plan. */
  lemma OneApproved(cfg: Config, e: Engine, stage: Stage, p: Record, m: Record)
    requires StageVerdict(cfg, e, stage, p, m).valid
    ensures StagePlan(cfg, e, stage, p, Candidates([m], false)) == StageRecovery(cfg, e, stage, p, m)
  {
    hide StageVerdict, StageRecovery;
    var v := CastVote(NoVote, m, StageVerdict(cfg, e, stage, p, m));
    assert [m][1..] == [];
    assert Poll(cfg, e, stage, p, [m], NoVote) == Poll(cfg, e, stage, p, [], v) == v;
  }

  lemma PlanIsD(e: Engine, S: seq<Packet>, F: seq<nat>, G: seq<nat>)
    requires EIsNext(e, S, F, G) && Delivers(S, F, G)
    ensures PrimaryPlan(TheConfig, e, e.q0[0]) == Insert([e.h1.log[4]], false)
  {
    hide FindCandidates, StagePlan, CleanSource, SentPackets, LastResort, TeiPlan, ExactPlan, ExactVerdict;
    var p, m := e.q0[0], e.h1.log[5];
    CopyIsFound(TheConfig, e, p, S, F, 5, 5);
    StageKeeps(TheConfig, e, NullStage, p, m);
    StageKeeps(TheConfig, e, MixedStage, p, m);
    ExactPlanIsD(e, S, F, G);
    OneApproved(TheConfig, e, ExactStage, p, m);
  }

  lemma SentPacketsAppend(out: seq<Emission>, x: Emission)
    ensures SentPackets(out + [x]) == SentPackets(out) + [x.r.packet]
  {
  }

  lemma OneFills(env: Env, e: Engine, d: Record)
    requires SinkWorks(env)
    ensures var o := SendGap(env, e, [d]);
            o.ok && o.e == Recovered(Accepted(e, d, Gap), d.packet.isNull)
  {
    hide Accepted;
    assert [d][1..] == [];
  }

  /** D is sent from the secondary, then E. */
  lemma EIsServed(e: Engine, S: seq<Packet>, F: seq<nat>, G: seq<nat>)
    requires EIsNext(e, S, F, G) && Delivers(S, F, G)
    ensures var o := ProcessFront(TheEnv, e);
            && o.ok && o.e.active == 0 && SentPackets(o.e.out) == [A, B1, B2, C, D, E]
            && |o.e.fates| == 4 && o.e.fates[2] == Discarded
  {
    hide FindCandidates, AnchorMatch, PrimaryPlan, CleanSource, Rising, SentPackets, Counted, Observe, BoundsMatch;
    PlanIsD(e, S, F, G);
    var d := e.h1.log[4];
    assert d.packet == D && e.q0[0].packet == E;
    assert [d][1..] == [];
    var o := CarryOut(TheEnv, e, e.q0[0], Insert([d], false));
    OneFills(TheEnv, e, d);
    SentPacketsAppend(e.out, Emission(Gap, d));
    SentPacketsAppend(o.e.out, Emission(Direct, e.q0[0]));
  }

  lemma EComes(e: Engine, S: seq<Packet>, F: seq<nat>, G: seq<nat>)
    requires Inv(e) && WithoutD(e, 6, S, F, G) && Delivers(S, F, G)
    ensures var o := Step(TheEnv, e, Push(0, E));
            SentPackets(o.out) == [A, B1, B2, C, D, E] && |o.fates| == 4 && o.fates[2] == Discarded
  {
    hide Ingest, DrainOnce, ProcessFront, Inv, SentPackets, CopyWithLosses, Delivers, AlreadyOutput;
    EArrives(e, S, F, G);
    var b := Ingest(TheEnv, e, 0, E);
    EIsServed(Opened(TheEnv, b).(tick := b.tick + 2), S, F, G);
    OneTurnDrain(b);
  }

  /** The packet comes back: the run that discards D ends with every packet of
      the source sent in order, D as a recovery. */
  lemma DiscardedPacketComesBack()
    ensures var e := Run(TheEnv, LongerRun);
            SentPackets(e.out) == Source && |e.fates| == 4 && e.fates[2] == Discarded
  {
    hide Run, Step, CleanSource, Rising, Inv, BeforeD, WithoutD;
    SourceIsClean();
    var S, F, G := Source, OnSecondary, OnPrimary;
    assert Delivers(S, F, G);
    BeforeTheDiscard(S, F, G);
    DIsDiscarded(Run(TheEnv, TheRun[..6]), S, F, G);
    DiscardExample.LastEvent();
    FromThereOn(S, F, G);
  }

  lemma FromThereOn(S: seq<Packet>, F: seq<nat>, G: seq<nat>)
    requires Delivers(S, F, G) && WithoutD(Run(TheEnv, TheRun), 4, S, F, G)
    ensures var e := Run(TheEnv, LongerRun);
            SentPackets(e.out) == [A, B1, B2, C, D, E] && |e.fates| == 4 && e.fates[2] == Discarded
  {
    hide Step, Delivers, Inv, WithoutD, SentPackets;
    var r := LongerRun;
    assert r[..7] == TheRun && r[..8][..7] == r[..7] && r[..9][..8] == r[..8] && r[..10] == r;
    DeliversLast(S, F, G);
    SecondaryGoesOn(Run(TheEnv, r[..7]), D, 4, S, F, G);
    SecondaryGoesOn(Run(TheEnv, r[..8]), E, 5, S, F, G);
    RunKeepsInv(TheEnv, r[..9]);
    EComes(Run(TheEnv, r[..9]), S, F, G);
  }

  lemma DeliversLast(S: seq<Packet>, F: seq<nat>, G: seq<nat>)
    requires Delivers(S, F, G)
    ensures |F| == |S| == 6 && F[4] < 6 && F[5] < 6 && S[F[4]] == D && S[F[5]] == E
  {
  }
}
