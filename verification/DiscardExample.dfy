/** The price of trusting an old alignment: a run in which a primary packet that
    was never sent is discarded as already sent, and nothing reports it; and the
    run that goes on from there and sends the secondary's copy after all. */
module DiscardExample {
  import opened Packets
  import opened State
  import opened Gaps
  import opened GapFacts
  import opened Receive
  import opened Drain
  import opened Protocol
  import opened Invariants
  import opened Refinement
  import opened Sources
  import opened SecondaryLoss
  import opened DrainShape
  import opened GapRules
  import opened GapRepair

  // ------------------------------------------------------------------- the run

  function Content(id: nat, cc: Counter, pcr: bool): Packet {
    Packet(id, 100, cc, true, false, false, false, pcr, if pcr then 9 else 0)
  }

  const A: Packet := Content(1, 0, true)
  const B1: Packet := Content(2, 1, false)
  const B2: Packet := Content(3, 2, false)
  const C: Packet := Content(4, 3, false)
  const D: Packet := Content(5, 4, false)

  const E: Packet := Content(6, 5, false)

  /** The source, and what each path delivers of it: the primary loses B1 and B2. */
  const Source: seq<Packet> := [A, B1, B2, C, D, E]
  const OnSecondary: seq<nat> := [0, 1, 2, 3, 4, 5]
  const OnPrimary: seq<nat> := [0, 3, 4, 5]

  const TheConfig: Config := Config(0, 0, 0, 0, 0, 0, 15, 8192)
  const TheEnv: Env := Env(TheConfig, (k: nat) => 1, (k: nat) => true)

  const TheRun: seq<Event> :=
    [Push(1, A), Push(0, A), Push(1, B1), Push(1, B2), Push(1, C), Push(0, C), Push(0, D)]

  lemma SourceIsClean()
    ensures CleanSource(Source) && Rising(OnSecondary, 6) && Rising(OnPrimary, 6)
  {
    hide FitsAll;
    SourceFitsInTurn();
  }

  lemma SourceFitsInTurn()
    ensures FitsAll(map[], Source)
  {
    var m0: Counters := map[];
    var m1 := Observe(m0, A);
    var m2 := Observe(m1, B1);
    var m3 := Observe(m2, B2);
    var m4 := Observe(m3, C);
    assert Fits(m0, A) && Fits(m1, B1) && Fits(m2, B2) && Fits(m3, C) && Fits(m4, D) && Fits(Observe(m4, D), E);
    hide Fits, FitsAll;
    ThreeFit(m3, C, D, E);
    ThreeFit(m0, A, B1, B2);
    FitsAllSplit(m0, [A, B1, B2], [C, D, E]);
    assert Source == [A, B1, B2] + [C, D, E];
  }

  lemma ThreeFit(states: Counters, a: Packet, b: Packet, c: Packet)
    requires Fits(states, a) && Fits(Observe(states, a), b) && Fits(Observe(Observe(states, a), b), c)
    ensures FitsAll(states, [a, b, c]) && ObserveAll(states, [a, b, c]) == Observe(Observe(Observe(states, a), b), c)
  {
    hide Fits, Observe;
    assert [a, b, c][1..] == [b, c] && [b, c][1..] == [c] && [c][1..] == [];
    var after := Observe(Observe(states, a), b);
    ObserveOne(after, c);
    assert FitsAll(after, [c]) && ObserveAll(after, [c]) == Observe(after, c);
    assert FitsAll(Observe(states, a), [b, c]) && ObserveAll(Observe(states, a), [b, c]) == Observe(after, c);
  }

  /** With the outage test off and nothing due, a drain only reads the clock. */
  lemma QuietDrain(e: Engine)
    requires e.active == 0 && e.q0 == []
    ensures DrainOnce(TheEnv, e, false) == Res(true, Opened(TheEnv, e))
  {
  }

  /** With one primary queued, a drain that discards nothing is one turn. */
  lemma OneTurnDrain(e: Engine)
    requires e.active == 0 && |e.q0| == 1 && !AlreadyOutput(e, e.q0[0])
    requires var o := ProcessFront(TheEnv, Opened(TheEnv, e).(tick := e.tick + 2)); o.ok && o.e.active == 0
    ensures DrainOnce(TheEnv, e, false).e ==
            ProcessFront(TheEnv, Opened(TheEnv, e).(tick := e.tick + 2)).e.(tick := ProcessFront(TheEnv, Opened(TheEnv, e).(tick := e.tick + 2)).e.tick + 1)
  {
    hide ProcessFront;
    var e1 := Opened(TheEnv, e);
    assert PrimaryTrimmed(e1) == e1 && SetActive(e1, 0) == e1;
    var e2 := e1.(tick := e1.tick + 1);
    assert DrainOnce(TheEnv, e, false) == Loop(TheEnv, e1, false);
    assert Loop(TheEnv, e1, false) == Turn(TheEnv, e2, false, 1);
    var o := ProcessFront(TheEnv, e2);
    assert !NotDue(TheConfig, e2.q0[0], false, 1);
    assert Turn(TheEnv, e2, false, 1) == Loop(TheEnv, o.e, false);
  }

  /** The facts carried from event to event. */
  predicate Going(e: Engine, n0: nat, n1: nat, aligned: bool) {
    && e.q0 == [] && e.active == 0 && e.h0.lo == 0 && e.h1.lo == 0 && |e.h0.log| == n0 && |e.h1.log| == n1
    && e.stats.rejects == multiset{} && e.lastOut1 == None && e.align.misses <= n0 + n1
    && e.align.has == aligned && (aligned ==> e.align.offset == 0 && e.align.confidence == 100)
  }

  lemma Event0(e: Engine)
    requires Inv(e) && Going(e, 0, 0, false) && !e.anchor.valid && e.outCc == map[] && e.out == [] && e.fates == [] && e.align.misses == 0
    ensures var o := Step(TheEnv, e, Push(1, A));
            && Going(o, 0, 1, false) && o.h1.log[0].packet == A && o.h1.log[0].index == 0
            && !o.anchor.valid && o.outCc == map[] && o.out == [] && o.fates == [] && o.align.misses == 1
  {
    hide DrainOnce, UpdatedAlignment, Inv;
    var b := Ingest(TheEnv, e, 1, A);
    var r := NewRecord(TheEnv, e, 1, A);
    EarlyAlignment(TheConfig, e.align, NewHistory(TheEnv, e, 1, A), e.h0, 1, r);
    assert PcrAligned(e.align, e.h0, 1, r) == e.align;
    QuietDrain(b);
  }

  lemma HistoryGrows(e: Engine, k: StreamId, p: Packet)
    requires HistoryOf(e, k).lo == 0 && |HistoryOf(e, k).log| < 10
    ensures NewHistory(TheEnv, e, k, p) == History(HistoryOf(e, k).log + [NewRecord(TheEnv, e, k, p)], 0)
  {
  }

  /** The PCR of A aligns the two streams at offset zero. */
  lemma FirstAlignment(e: Engine)
    requires e.h1.lo == 0 && |e.h1.log| == 1 && e.h1.log[0].packet == A && e.h1.log[0].index == 0 && |e.h0.log| == 0
    ensures NewAlignment(TheEnv, e, 0, A) == Alignment(true, 0, 100, 1)
  {
    hide UpdatedAlignment, PcrMatch, NewHistory;
    var r := NewRecord(TheEnv, e, 0, A);
    PcrFound(e.h1, A);
    assert PcrAligned(e.align, e.h1, 0, r) == Alignment(true, 0, 100, 0);
    EarlyAlignment(TheConfig, Alignment(true, 0, 100, 0), NewHistory(TheEnv, e, 0, A), e.h1, 0, r);
  }

  /** The primary's A arrives: its PCR aligns the streams. */
  lemma Arrival1(e: Engine)
    requires Inv(e) && Going(e, 0, 1, false) && e.h1.log[0].packet == A && e.h1.log[0].index == 0
    requires !e.anchor.valid && e.outCc == map[] && e.out == [] && e.fates == [] && e.align.misses == 1
    ensures var b := Ingest(TheEnv, e, 0, A);
            && b.q0 == b.h0.log && |b.h0.log| == 1 && b.h0.log[0] == Record(0, 0, 1, A) && b.h0.lo == 0 && b.h1 == e.h1
            && b.align == Alignment(true, 0, 100, 1) && b.active == 0 && !b.anchor.valid && b.outCc == map[]
            && b.out == [] && b.fates == [] && b.stats == e.stats && b.lastOut1 == None
  {
    hide NewHistory, NewAlignment, Inv;
    HistoryGrows(e, 0, A);
    FirstAlignment(e);
    assert e.h0.log == [] && [] + [NewRecord(TheEnv, e, 0, A)] == [NewRecord(TheEnv, e, 0, A)];
  }

  /** A source of the six packets, and the parts of it each path delivers. */
  predicate Delivers(S: seq<Packet>, F: seq<nat>, G: seq<nat>) {
    && CleanSource(S) && |S| == 6 && S[0] == A && S[1] == B1 && S[2] == B2 && S[3] == C && S[4] == D && S[5] == E
    && |F| == 6 && (forall i | 0 <= i < 6 :: F[i] == i) && |G| == 4 && G[0] == 0 && G[1] == 3 && G[2] == 4 && G[3] == 5
    && Rising(F, 6) && Rising(G, 6)
  }

  /** Without an anchor, a primary that fits is simply sent. */
  lemma UnanchoredIsKept(env: Env, e: Engine, m: Option<Record>)
    requires e.q0 != [] && !e.anchor.valid && !e.q0[0].packet.transportError && Fits(e.outCc, e.q0[0].packet)
    requires AnchorMatch(e, e.q0[0], FindCandidates(env.cfg, e, e.q0[0])) == m
    ensures ProcessFront(env, e) == EmitPrimary(env, e, m)
  {
    hide FindCandidates, AnchorMatch, EmitPrimary, StagePlan, LastResort, TeiPlan;
    assert PrimaryPlan(env.cfg, e, e.q0[0]) == Keep;
  }

  /** The first primary is sent as it is and pairs up with its copy. */
  lemma FirstEmission(env: Env, e: Engine, S: seq<Packet>, F: seq<nat>)
    requires Indexed(e.h1) && CleanSource(S) && CopyWithLosses(e.h1.log, S, F) && S != [] && F != [] && F[0] == 0 && !S[0].isNull
    requires e.q0 != [] && e.q0[0].packet == S[0] && e.q0[0].index == 0 && |e.h1.log| == 1 && e.h1.lo == 0
    requires e.align.has && e.align.offset == 0 && !e.anchor.valid && e.outCc == map[]
    ensures ProcessFront(env, e) == EmitPrimary(env, e, Some(e.h1.log[0]))
    ensures BoundsMatch(e.q0[0], e.h1.log[0])
  {
    hide FindCandidates, AnchorMatch, EmitPrimary, ProcessFront;
    assert S[0].Sound();
    CopyIsFound(env.cfg, e, e.q0[0], S, F, 0, 0);
    UnanchoredIsKept(env, e, Some(e.h1.log[0]));
  }

  /** After A the output is on track. */
  lemma Event1(e: Engine, S: seq<Packet>, F: seq<nat>, G: seq<nat>)
    requires Inv(e) && Going(e, 0, 1, false) && e.h1.log[0].packet == A && e.h1.log[0].index == 0
    requires !e.anchor.valid && e.outCc == map[] && e.out == [] && e.fates == [] && e.align.misses == 1 && Delivers(S, F, G)
    ensures var o := Step(TheEnv, e, Push(0, A)); OnTrack(o, S, F, G) && Going(o, 1, 1, true) && |o.fates| == 1 && o.anchor.p == 0
  {
    hide DrainOnce, Ingest, ProcessFront, Inv;
    Arrival1(e);
    ArrivalKeepsInv(TheEnv, e, 0, A);
    var b := Ingest(TheEnv, e, 0, A);
    var b1 := Opened(TheEnv, b).(tick := b.tick + 2);
    OpenedKeepsInv(TheEnv, b);
    MoveKeepsInv(TheEnv, Opened(TheEnv, b), Clock);
    FirstEmission(TheEnv, b1, S, F);
    FirstOnTrack(b1, S, F, G);
    OneTurnDrain(b);
  }

  lemma FirstOnTrack(e: Engine, S: seq<Packet>, F: seq<nat>, G: seq<nat>)
    requires e.q0 == e.h0.log && |e.h0.log| == 1 && e.h0.log[0] == Record(0, 0, 1, A) && |e.h1.log| == 1 && e.h1.lo == 0 && e.h0.lo == 0
    requires e.h1.log[0].packet == A && e.h1.log[0].index == 0 && e.align == Alignment(true, 0, 100, 1)
    requires e.active == 0 && e.outCc == map[] && e.out == [] && e.fates == [] && Delivers(S, F, G)
    requires e.stats.rejects == multiset{} && e.lastOut1 == None
    ensures var o := EmitPrimary(TheEnv, e, Some(e.h1.log[0]));
            o.ok && OnTrack(o.e, S, F, G) && Going(o.e, 1, 1, true) && |o.e.fates| == 1 && o.e.anchor.p == 0
  {
    hide CleanSource, RepeatsCounter, BreaksCounter;
    assert S[0..1] == [A];
    ObserveOne(map[], A);
  }

  /** The secondary delivers on: the output does not move. */
  lemma SecondaryEvent(e: Engine, p: Packet, n1: nat, S: seq<Packet>, F: seq<nat>, G: seq<nat>)
    requires Inv(e) && OnTrack(e, S, F, G) && Going(e, 1, n1, true) && |e.fates| == 1 && e.anchor.p == 0 && Delivers(S, F, G)
    requires 1 <= n1 < 4 && p == S[F[n1]] && !p.hasPcr
    ensures var o := Step(TheEnv, e, Push(1, p));
            OnTrack(o, S, F, G) && Going(o, 1, n1 + 1, true) && |o.fates| == 1 && o.anchor.p == 0
  {
    hide DrainOnce, UpdatedAlignment, ObserveAll, SentPackets, CleanSource, Inv;
    var ev := Push(1, p);
    ArrivalKeepsTrack(TheEnv, e, ev, S, F, G);
    var b := Ingest(TheEnv, e, 1, p);
    EarlyAlignment(TheConfig, e.align, NewHistory(TheEnv, e, 1, p), e.h0, 1, NewRecord(TheEnv, e, 1, p));
    assert Going(b, 1, n1 + 1, true);
    QuietDrain(b);
  }

  /** The primary's C arrives, two packets short. */
  lemma ArrivalOfC(e: Engine, S: seq<Packet>, F: seq<nat>, G: seq<nat>)
    requires Inv(e) && OnTrack(e, S, F, G) && Going(e, 1, 4, true) && |e.fates| == 1 && e.anchor.p == 0 && Delivers(S, F, G)
    ensures var b := Ingest(TheEnv, e, 0, C);
            && OnTrack(b, S, F, G) && |b.q0| == 1 && b.q0[0].index == 1 && |b.fates| == 1 && |b.h0.log| == 2 && b.h0.lo == 0
            && b.h1 == e.h1 && b.lastOut1 == None && b.stats.rejects == multiset{} && b.align.misses <= 6
            && b.align.has && b.align.offset == 0 && b.align.confidence == 100 && b.anchor == e.anchor && b.q0[0].source == 0
  {
    hide UpdatedAlignment, ObserveAll, SentPackets, CleanSource, Ledger, Sourced, Anchored, Accounted, AlignmentSound;
    ArrivalKeepsTrack(TheEnv, e, Push(0, C), S, F, G);
    EarlyAlignment(TheConfig, e.align, NewHistory(TheEnv, e, 0, C), e.h1, 0, NewRecord(TheEnv, e, 0, C));
  }

  lemma LossIsCovered(e: Engine, S: seq<Packet>, F: seq<nat>, G: seq<nat>)
    requires OnTrack(e, S, F, G) && |e.fates| == 1 && |e.h0.log| == 2 && e.h0.lo == 0 && Delivers(S, F, G)
    requires |e.h1.log| == 4 && e.h1.lo == 0 && e.align.confidence == 100 && e.anchor.p == 0
    ensures Covered(TheConfig, e, S, F, G)
  {
    hide ObserveAll, SentPackets, CleanSource;
    assert HoldsStretch(e.h1, F, 0, 0, 3);
    assert StretchHeld(e.h1, F, G[0], G[1]);
  }

  lemma {:induction false} GapMovesLastOutput(env: Env, e: Engine, rs: seq<Record>)
    requires SinkWorks(env) && forall i | 0 <= i < |rs| :: rs[i].source == 1
    ensures rs != [] ==> SendGap(env, e, rs).e.lastOut1 == Some(rs[|rs| - 1].index)
    decreases |rs|
  {
    if rs != [] {
      var e1 := Recovered(Accepted(e, rs[0], Gap), rs[0].packet.isNull);
      GapMovesLastOutput(env, e1, rs[1..]);
      assert |rs| > 1 ==> rs[1..][|rs| - 2] == rs[|rs| - 1];
    }
  }

  lemma GapBeforeC(e: Engine, S: seq<Packet>, F: seq<nat>, G: seq<nat>)
    requires Inv(e) && OnTrack(e, S, F, G) && |e.fates| == 1 && |e.h0.log| == 2 && e.h0.lo == 0 && Delivers(S, F, G)
    requires |e.h1.log| == 4 && e.h1.lo == 0 && e.align.confidence == 100 && e.anchor.p == 0 && e.q0 != []
    ensures var plan := PrimaryPlan(TheConfig, e, e.q0[0]); plan.Insert? && plan.rs == e.h1.log[1..3]
  {
    hide FindCandidates, AnchorMatch, PrimaryPlan, SentPackets, ObserveAll, CleanSource, SoleCopy, Covered, AnchorIsPair, Shared, FitsAll,
         Ledger, Sourced, Accounted, AlignmentSound, PacketsOf;
    LossIsCovered(e, S, F, G);
    var m := LossIsOffered(TheConfig, e, S, F, G);
    LossIsFilled(TheConfig, e, S, F, G, m, 0);
    assert e.anchor.s == 0;
  }

  /** Repairing the loss before C leaves B2 as the last secondary packet sent. */
  lemma RepairOfC(e: Engine, S: seq<Packet>, F: seq<nat>, G: seq<nat>)
    requires Inv(e) && OnTrack(e, S, F, G) && |e.fates| == 1 && |e.h0.log| == 2 && e.h0.lo == 0 && Delivers(S, F, G)
    requires |e.h1.log| == 4 && e.h1.lo == 0 && e.align.confidence == 100 && e.anchor.p == 0 && e.q0 != [] && e.q0[0].source == 0
    ensures ProcessFront(TheEnv, e).e.lastOut1 == Some(2)
  {
    hide FindCandidates, AnchorMatch, PrimaryPlan, SendGap, OnTrack, Delivers, Ledger, Sourced, Accounted, AlignmentSound;
    GapBeforeC(e, S, F, G);
    var plan := PrimaryPlan(TheConfig, e, e.q0[0]);
    assert plan.rs[|plan.rs| - 1] == e.h1.log[2];
    assert SinkWorks(TheEnv);
    GapMovesLastOutput(TheEnv, e, plan.rs);
    SendGapKeepsQueues(TheEnv, e, plan.rs);
    GapSent(TheEnv, e, plan.rs);
  }

  lemma OnTrackIsOnPrimary(e: Engine, S: seq<Packet>, F: seq<nat>, G: seq<nat>)
    requires OnTrack(e, S, F, G)
    ensures e.active == 0
  {
  }

  /** The state in which C comes up. */
  function TurnOfC(e: Engine): Engine {
    var b := Ingest(TheEnv, e, 0, C);
    Opened(TheEnv, b).(tick := b.tick + 2)
  }

  lemma PreparedForC(e: Engine, S: seq<Packet>, F: seq<nat>, G: seq<nat>)
    requires Inv(e) && OnTrack(e, S, F, G) && Going(e, 1, 4, true) && |e.fates| == 1 && e.anchor.p == 0 && Delivers(S, F, G)
    ensures var b, b1 := Ingest(TheEnv, e, 0, C), TurnOfC(e);
            && Inv(b1) && OnTrack(b1, S, F, G) && |b1.fates| == 1 && |b1.h0.log| == 2 && b1.h0.lo == 0 && b1.active == 0
            && |b1.h1.log| == 4 && b1.h1.lo == 0 && b1.align.confidence == 100 && b1.anchor.p == 0 && b1.lastOut1 == None
            && b1.align.has && b1.align.offset == 0 && b1.align.misses <= 6 && b1.stats.rejects == multiset{}
            && b.active == 0 && b.q0 == b1.q0 && |b.q0| == 1 && b.q0[0].source == 0 && b.lastOut1 == None
  {
    hide Ingest, OnTrack, Inv, Delivers;
    ArrivalOfC(e, S, F, G);
    ArrivalKeepsInv(TheEnv, e, 0, C);
    var b := Ingest(TheEnv, e, 0, C);
    OnTrackIsOnPrimary(b, S, F, G);
    OpenedKeepsInv(TheEnv, b);
    MoveKeepsInv(TheEnv, Opened(TheEnv, b), Clock);
    TrackIgnoresClock(b, TurnOfC(e), S, F, G);
  }

  lemma Event5(e: Engine, S: seq<Packet>, F: seq<nat>, G: seq<nat>)
    requires Inv(e) && OnTrack(e, S, F, G) && Going(e, 1, 4, true) && |e.fates| == 1 && e.anchor.p == 0 && Delivers(S, F, G)
    ensures BeforeD(Step(TheEnv, e, Push(0, C)), S, F, G)
  {
    hide DrainOnce, Ingest, ProcessFront, OnTrack, Ledger, Sourced, Accounted, AlignmentSound, Anchored, Delivers, Opened;
    PreparedForC(e, S, F, G);
    var b, b1 := Ingest(TheEnv, e, 0, C), TurnOfC(e);
    RepairTurn(b1, S, F, G);
    FrontKeepsInv(TheEnv, b1);
    FrontKeepsInputs(TheEnv, b1);
    OneTurnDrain(b);
    var o := ProcessFront(TheEnv, b1).e;
    QueueTellsFates(b1, o);
    TrackIgnoresClock(o, o.(tick := o.tick + 1), S, F, G);
    hide Structured;
  }

  /** The repair is done: C is the last primary sent, B2 the last secondary. */
  predicate BeforeD(e: Engine, S: seq<Packet>, F: seq<nat>, G: seq<nat>) {
    && OnTrack(e, S, F, G) && |e.fates| == 2 && e.q0 == [] && |e.h0.log| == 2 && e.h0.lo == 0
    && |e.h1.log| == 4 && e.h1.lo == 0 && e.lastOut1 == Some(2)
    && e.align.has && e.align.offset == 0 && e.align.confidence == 100 && e.align.misses <= 6 && e.stats.rejects == multiset{}
  }

  lemma TrackIgnoresClock(e: Engine, o: Engine, S: seq<Packet>, F: seq<nat>, G: seq<nat>)
    requires OnTrack(e, S, F, G) && o == e.(tick := o.tick, returnStart := o.returnStart)
    ensures OnTrack(o, S, F, G)
  {
    hide ObserveAll, SentPackets, CopyWithLosses;
  }

  lemma RepairTurn(e: Engine, S: seq<Packet>, F: seq<nat>, G: seq<nat>)
    requires Inv(e) && OnTrack(e, S, F, G) && |e.fates| == 1 && |e.h0.log| == 2 && e.h0.lo == 0 && Delivers(S, F, G)
    requires |e.h1.log| == 4 && e.h1.lo == 0 && e.align.confidence == 100 && e.anchor.p == 0 && e.q0 != [] && e.q0[0].source == 0
    ensures var o := ProcessFront(TheEnv, e);
            o.ok && OnTrack(o.e, S, F, G) && o.e.lastOut1 == Some(2) && o.e.stats.rejects == e.stats.rejects
  {
    hide ProcessFront, Inv, SentPackets, ObserveAll, CleanSource, Covered;
    LossIsCovered(e, S, F, G);
    assert SinkWorks(TheEnv);
    RepairedOnTrack(TheEnv, e, S, F, G);
    RepairOfC(e, S, F, G);
  }

  lemma DiscardDrain(e: Engine)
    requires e.active == 0 && |e.q0| == 1 && AlreadyOutput(e, e.q0[0])
    ensures DrainOnce(TheEnv, e, false).e == Popped(Opened(TheEnv, e), Discarded)
  {
    hide Loop, FailoverLoop;
    var e1 := Opened(TheEnv, e);
    assert PrimaryTrimmed(Popped(e1, Discarded)) == Popped(e1, Discarded);
  }

  /** The primary's D maps to the index of B2 and is taken for already sent. */
  lemma Event6(e: Engine, S: seq<Packet>, F: seq<nat>, G: seq<nat>)
    requires Inv(e) && BeforeD(e, S, F, G) && Delivers(S, F, G)
    ensures var o := Step(TheEnv, e, Push(0, D));
            && o.out == e.out && o.q0 == [] && o.fates == e.fates + [Discarded]
            && o.stats.rejects == multiset{} && o.stats.unrecoverable == e.stats.unrecoverable
            && o.h0 == NewHistory(TheEnv, e, 0, D) && o.h1 == e.h1 && o.anchor == e.anchor && o.outCc == e.outCc
            && o.align == e.align.(misses := e.align.misses + 1) && o.active == 0 && o.lastOut1 == e.lastOut1
  {
    hide DrainOnce, UpdatedAlignment, OnTrack, CleanSource, Inv, NewHistory;
    OnTrackIsOnPrimary(e, S, F, G);
    HistoryGrows(e, 0, D);
    var b := Ingest(TheEnv, e, 0, D);
    assert PcrAligned(e.align, e.h1, 0, NewRecord(TheEnv, e, 0, D)) == e.align;
    EarlyAlignment(TheConfig, e.align, NewHistory(TheEnv, e, 0, D), e.h1, 0, NewRecord(TheEnv, e, 0, D));
    DiscardDrain(b);
  }

  /** The first six events keep the output on track. */
  lemma BeforeTheDiscard(S: seq<Packet>, F: seq<nat>, G: seq<nat>)
    requires Delivers(S, F, G)
    ensures var e := Run(TheEnv, TheRun[..6]);
            Inv(e) && BeforeD(e, S, F, G)
  {
    hide Step, OnTrack, Delivers, Inv, BeforeD;
    var r := TheRun;
    assert r[..0] == [] && r[..1][..0] == r[..0] && r[..2][..1] == r[..1] && r[..3][..2] == r[..2] &&
           r[..4][..3] == r[..3] && r[..5][..4] == r[..4] && r[..6][..5] == r[..5];
    RunKeepsInv(TheEnv, r[..0]);
    RunKeepsInv(TheEnv, r[..1]);
    RunKeepsInv(TheEnv, r[..2]);
    RunKeepsInv(TheEnv, r[..3]);
    RunKeepsInv(TheEnv, r[..4]);
    RunKeepsInv(TheEnv, r[..5]);
    RunKeepsInv(TheEnv, r[..6]);
    Event0(Run(TheEnv, r[..0]));
    Event1(Run(TheEnv, r[..1]), S, F, G);
    SecondarySteps(Run(TheEnv, r[..2]), S, F, G);
    Event5(Run(TheEnv, r[..5]), S, F, G);
  }

  lemma SecondarySteps(e: Engine, S: seq<Packet>, F: seq<nat>, G: seq<nat>)
    requires Inv(e) && OnTrack(e, S, F, G) && Going(e, 1, 1, true) && |e.fates| == 1 && e.anchor.p == 0 && Delivers(S, F, G)
    ensures var o := Step(TheEnv, Step(TheEnv, Step(TheEnv, e, Push(1, B1)), Push(1, B2)), Push(1, C));
            OnTrack(o, S, F, G) && Going(o, 1, 4, true) && |o.fates| == 1 && o.anchor.p == 0
  {
    hide Step, OnTrack, Inv, CleanSource;
    var e1 := Step(TheEnv, e, Push(1, B1));
    var e2 := Step(TheEnv, e1, Push(1, B2));
    StepKeepsInv(TheEnv, e, Push(1, B1));
    StepKeepsInv(TheEnv, e1, Push(1, B2));
    SecondaryEvent(e, B1, 1, S, F, G);
    SecondaryEvent(e1, B2, 2, S, F, G);
    SecondaryEvent(e2, C, 3, S, F, G);
  }

  lemma TrackSoFar(e: Engine, S: seq<Packet>, F: seq<nat>, G: seq<nat>)
    requires OnTrack(e, S, F, G) && |e.fates| == 2 && Delivers(S, F, G)
    ensures SentPackets(e.out) == [A, B1, B2, C]
  {
    hide ObserveAll, SentPackets, CleanSource;
    assert S[0..4] == [A, B1, B2, C];
  }

  /** A primary packet can be lost in silence: here the primary delivers A, C
      and D, the output is A, B1, B2, C with nothing left in the queue, and no
      reject is recorded. */
  lemma PrimaryPacketLost()
    ensures var e := Run(TheEnv, TheRun);
            && SentPackets(e.out) == [A, B1, B2, C] && e.q0 == []
            && |e.fates| == 3 && e.fates[2] == Discarded && e.stats.rejects == multiset{}
  {
    hide Run, Step, CleanSource, Rising, Inv, OnTrack;
    SourceIsClean();
    var S, F, G := Source, OnSecondary, OnPrimary;
    assert Delivers(S, F, G);
    BeforeTheDiscard(S, F, G);
    var e := Run(TheEnv, TheRun[..6]);
    Event6(e, S, F, G);
    TrackSoFar(e, S, F, G);
    LastEvent();
  }

  lemma LastEvent()
    ensures Run(TheEnv, TheRun) == Step(TheEnv, Run(TheEnv, TheRun[..6]), Push(0, D))
  {
    hide Step;
  }
}
