/** A run in which the hand-over overlaps: the secondary sends X in fail-over,
    and the return to the primary sends X again, because the primary queue
    starts before the secondary's first packet and trimming looks at its head. */
module OverlapExample {
  import opened Packets
  import opened State
  import opened Gaps
  import opened Receive
  import opened Drain
  import opened Invariants
  import opened Refinement
  import opened DrainShape
  import opened Handover

  const Stuffing: Packet := Packet(0, 8191, 0, true, true, false, false, false, 0)
  const X: Packet := Packet(1, 100, 0, true, false, false, false, true, 9)

  function Readings(k: nat): nat {
    if k < 4 then 1 else if k < 7 then 11 else if k < 9 then 12 else if k < 11 then 13 else 20
  }

  const TheConfig: Config := Config(0, 0, 0, 10, 5, 0, 0, 8192)
  const TheEnv: Env := Env(TheConfig, Readings, (k: nat) => true)
  const TheRun: seq<Event> := [Push(0, Stuffing), Push(1, X), Push(0, Stuffing), Push(0, X), Tick(true)]

  /** What the run looks at: clock readings, last arrivals, what was received,
      how many primaries have left the queue, and the return hold-off. */
  datatype View = View(tick: nat, in0: nat, in1: nat, l0: seq<Packet>, l1: seq<Packet>, left: nat, active: StreamId,
                       start: nat, align: Alignment, out1: Option<nat>)

  predicate Holds(h: History, k: StreamId, ps: seq<Packet>) {
    && h.lo == 0 && |h.log| == |ps|
    && forall i | 0 <= i < |ps| :: h.log[i].packet == ps[i] && h.log[i].index == i && h.log[i].source == k
  }

  predicate Looks(e: Engine, v: View) {
    && e.tick == v.tick && e.lastIn0 == v.in0 && e.lastIn1 == v.in1 && e.active == v.active && e.returnStart == v.start
    && Holds(e.h0, 0, v.l0) && Holds(e.h1, 1, v.l1) && v.left <= |e.h0.log| && e.q0 == e.h0.log[v.left..]
    && e.align == v.align && !e.anchor.valid && e.lastOut1 == v.out1
    && (v.left > 0 ==> e.lastOut0 == Some(v.left - 1)) && (v.out1.Some? ==> LastSentIsX(e.out))
  }

  /** X was the last packet sent, and it came from the secondary. */
  predicate LastSentIsX(out: seq<Emission>) {
    out != [] && out[|out| - 1].via == Failover && out[|out| - 1].r.packet == X
  }

  /** The secondary queue holds the last n of the stream. */
  predicate Waiting(e: Engine, n: nat) {
    n <= |e.h1.log| && e.q1 == e.h1.log[|e.h1.log| - n..]
  }

  const None0: Alignment := Alignment(false, 0, 0, 0)

  const V0: View := View(0, 0, 0, [], [], 0, 0, 0, None0, None)
  const V1: View := View(4, 1, 0, [Stuffing], [], 1, 0, 0, None0, None)
  const V2: View := View(7, 1, 11, [Stuffing], [X], 1, 1, 0, None0.(misses := 1), Some(0))
  const V3: View := View(9, 12, 11, [Stuffing, Stuffing], [X], 1, 1, 12, None0.(misses := 1), Some(0))
  const V4: View := View(11, 13, 11, [Stuffing, Stuffing, X], [X], 1, 1, 12, Alignment(true, -2, 100, 1), Some(0))

  lemma HistoryGrows(e: Engine, k: StreamId, p: Packet, ps: seq<Packet>)
    requires Holds(HistoryOf(e, k), k, ps) && |ps| < 10
    ensures Holds(NewHistory(TheEnv, e, k, p), k, ps + [p])
    ensures NewHistory(TheEnv, e, k, p).log == HistoryOf(e, k).log + [NewRecord(TheEnv, e, k, p)]
  {
  }

  /** A primary arrives; a is the alignment it leaves behind. */
  lemma PrimaryArrives(e: Engine, v: View, p: Packet, a: Alignment)
    requires Looks(e, v) && |v.l0| < 7 && v.align.misses < 10
    requires PcrAligned(v.align, e.h1, 0, NewRecord(TheEnv, e, 0, p)) == a && a.misses < 10
    ensures Looks(Ingest(TheEnv, e, 0, p),
                  v.(tick := v.tick + 1, in0 := Readings(v.tick), l0 := v.l0 + [p],
                     align := if p.Content() then a.(misses := a.misses + 1) else a))
    ensures Ingest(TheEnv, e, 0, p).q1 == e.q1 && Ingest(TheEnv, e, 0, p).h1 == e.h1
  {
    hide UpdatedAlignment, PcrAligned, NewHistory;
    HistoryGrows(e, 0, p, v.l0);
    EarlyAlignment(TheConfig, a, NewHistory(TheEnv, e, 0, p), e.h1, 0, NewRecord(TheEnv, e, 0, p));
  }

  lemma {:induction false} NoTwin(h: History, i: nat, r: Packet)
    requires forall j | 0 <= j < |h.log| :: !h.log[j].packet.hasPcr
    ensures PcrMatch(h, i, r, None) == None
    decreases |h.log| - i
  {
    if i < |h.log| { NoTwin(h, i + 1, r); }
  }

  lemma Event0(e: Engine)
    requires Looks(e, V0) && Waiting(e, 0)
    ensures Looks(Step(TheEnv, e, Push(0, Stuffing)), V1) && Waiting(Step(TheEnv, e, Push(0, Stuffing)), 0)
  {
    hide Ingest, DrainOnce;
    PrimaryArrives(e, V0, Stuffing, None0);
    SendsStuffing(Ingest(TheEnv, e, 0, Stuffing));
  }

  /** The first null packet is sent as it is. */
  lemma SendsStuffing(e: Engine)
    requires Looks(e, View(1, 1, 0, [Stuffing], [], 0, 0, 0, None0, None)) && Waiting(e, 0)
    ensures var o := DrainOnce(TheEnv, e, false).e; Looks(o, V1) && Waiting(o, 0)
  {
    hide ProcessFront;
    var e1 := Opened(TheEnv, e);
    assert PrimaryTrimmed(e1) == e1 && SetActive(e1, 0) == e1;
    var e2 := e1.(tick := e1.tick + 1);
    StuffingTurn(e2);
    var o := ProcessFront(TheEnv, e2).e;
    assert Turn(TheEnv, e2, false, 1) == Loop(TheEnv, o, false);
    assert Loop(TheEnv, e1, false) == Turn(TheEnv, e2, false, 1);
    assert FailoverDrain(TheEnv, o.(tick := o.tick + 1), false, 1).e == o.(tick := o.tick + 1);
  }

  lemma StuffingTurn(e: Engine)
    requires Looks(e, View(3, 1, 0, [Stuffing], [], 0, 0, 0, None0, None)) && Waiting(e, 0)
    ensures var o := ProcessFront(TheEnv, e);
            o.ok && Looks(o.e, View(3, 1, 0, [Stuffing], [], 1, 0, 0, None0, None)) && Waiting(o.e, 0)
  {
    assert FindCandidates(TheConfig, e, e.q0[0]) == Candidates([], false);
    assert PrimaryPlan(TheConfig, e, e.q0[0]) == Keep;
  }

  /** X arrives on the secondary alone. */
  lemma SecondaryArrives(e: Engine)
    requires Looks(e, V1) && Waiting(e, 0)
    ensures var b := Ingest(TheEnv, e, 1, X);
            Looks(b, View(5, 1, 11, [Stuffing], [X], 1, 0, 0, None0.(misses := 1), None)) && Waiting(b, 1)
  {
    hide UpdatedAlignment, PcrMatch, NewHistory;
    HistoryGrows(e, 1, X, []);
    NoTwin(e.h0, e.h0.lo, X);
    EarlyAlignment(TheConfig, None0, NewHistory(TheEnv, e, 1, X), e.h0, 1, NewRecord(TheEnv, e, 1, X));
  }

  /** The primary is silent, so X stands in for it. */
  lemma Event1(e: Engine)
    requires Looks(e, V1) && Waiting(e, 0)
    ensures Looks(Step(TheEnv, e, Push(1, X)), V2) && Waiting(Step(TheEnv, e, Push(1, X)), 0)
  {
    hide Ingest;
    SecondaryArrives(e);
    XStandsIn(Opened(TheEnv, Ingest(TheEnv, e, 1, X)));
  }

  lemma XStandsIn(e: Engine)
    requires Looks(e, View(6, 1, 11, [Stuffing], [X], 1, 0, 0, None0.(misses := 1), None)) && Waiting(e, 1)
    ensures var o := FailoverDrain(TheEnv, e, false, 11).e; Looks(o, V2) && Waiting(o, 0)
  {
    assert TheEnv.clock(6) == 11 && !NotDue(TheConfig, e.q1[0], false, 11) && Silent(TheConfig, e, 11);
    hide Counted, Observe, SecondaryTrimmed, FailoverLoop;
    NothingToTrim(e);
    SendsOne(e);
  }

  lemma NothingToTrim(e: Engine)
    requires !e.align.has && !e.anchor.valid
    ensures SecondaryTrimmed(e) == e
  {
  }

  /** Outside of a forced drain fail-over sends at most one packet. */
  lemma SendsOne(e: Engine)
    requires |e.q1| == 1 && !NotDue(TheConfig, e.q1[0], false, TheEnv.clock(e.tick))
    ensures FailoverLoop(TheEnv, e, false) == StandIn(TheEnv, e.(tick := e.tick + 1))
  {
    hide StandIn, NotDue;
  }

  /** On the secondary, with nothing queued there and the hold-off running, a
      drain only reads the clock. */
  lemma HoldsOff(e: Engine, now: nat)
    requires e.active == 1 && e.q1 == []
    ensures FailoverDrain(TheEnv, e, false, now).e == e
  {
  }

  lemma Event2(e: Engine)
    requires Looks(e, V2) && Waiting(e, 0)
    ensures Looks(Step(TheEnv, e, Push(0, Stuffing)), V3) && Waiting(Step(TheEnv, e, Push(0, Stuffing)), 0)
  {
    hide Ingest, FailoverDrain, Served;
    PrimaryArrives(e, V2, Stuffing, V2.align);
    HoldsOff(Opened(TheEnv, Ingest(TheEnv, e, 0, Stuffing)), 12);
  }

  /** X arrives on the primary, two places later than on the secondary. */
  lemma Event3(e: Engine)
    requires Looks(e, V3) && Waiting(e, 0)
    ensures Looks(Step(TheEnv, e, Push(0, X)), V4) && Waiting(Step(TheEnv, e, Push(0, X)), 0)
  {
    hide Ingest, FailoverDrain, Served, PcrMatch;
    PcrFound(e.h1, X);
    assert PcrAligned(V3.align, e.h1, 0, NewRecord(TheEnv, e, 0, X)) == Alignment(true, -2, 100, 0);
    PrimaryArrives(e, V3, X, Alignment(true, -2, 100, 0));
    HoldsOff(Opened(TheEnv, Ingest(TheEnv, e, 0, X)), 13);
  }

  lemma BeforeTheReturn()
    ensures Looks(Run(TheEnv, TheRun[..4]), V4)
  {
    hide Step;
    var r := TheRun;
    assert r[..0] == [] && r[..1][..0] == r[..0] && r[..2][..1] == r[..1] && r[..3][..2] == r[..2] && r[..4][..3] == r[..3];
    Event0(Run(TheEnv, r[..0]));
    Event1(Run(TheEnv, r[..1]));
    Event2(Run(TheEnv, r[..2]));
    Event3(Run(TheEnv, r[..3]));
  }

  /** The queue is due up to its second packet, the one that crosses. */
  predicate CrossesAt(e: Engine) {
    var e1 := PrimaryTrimmed(e);
    Straddles(e1) && |e1.q0| == 2 && Crossing(e1) == 1 && DueThrough(TheEnv, e1.q0, 1, e.tick + 1, true)
  }

  lemma QueueStraddles(e: Engine)
    requires Looks(e, V4)
    ensures Straddles(PrimaryTrimmed(e)) && ReturnReady(TheConfig, Opened(TheEnv, e), TheEnv.clock(e.tick))
    ensures CrossingSound(PrimaryTrimmed(e)) && CrossesAt(e)
  {
    assert !AlreadyOutput(e, e.q0[0]);
    assert PrimaryTrimmed(e) == e;
  }

  /** In a state as before the return, only X has an image that was sent. */
  lemma RepeatedIsX(e: Engine, o: Engine, k: nat)
    requires Looks(e, V4) && Structured(o) && Ledger(o) && o.h0 == e.h0
    requires k < |o.out| && o.out[k].via == Direct && AlreadyOutput(e, o.out[k].r)
    ensures o.out[k].r.packet == X
  {
    hide Ledger, LastSentIsX;
    SentIsQueued(o, k);
    assert o.out[k].r.index == 2;
  }

  /** The hand-over can overlap: X was the last packet sent before the return,
      from the secondary, and the drain of the return sends it once more. */
  lemma HandoverOverlaps()
    ensures var e, o := Run(TheEnv, TheRun[..4]), Run(TheEnv, TheRun);
            && LastSentIsX(e.out) && e.out <= o.out
            && exists k :: |e.out| <= k < |o.out| && o.out[k].via == Direct && o.out[k].r.packet == X
  {
    hide Run, Step, Structured, Ledger, Sourced, Anchored, Accounted, AlignmentSound, DrainOnce, PrimaryTrimmed, DueThrough, ReturnReady;
    BeforeTheReturn();
    var e, o := Run(TheEnv, TheRun[..4]), Run(TheEnv, TheRun);
    RunKeepsInv(TheEnv, TheRun[..4]);
    RunKeepsInv(TheEnv, TheRun);
    LastEvent();
    QueueStraddles(e);
    DrainUnseenIff(TheEnv, e, true);
    FailoverSendsNews(TheEnv, e, true);
    DrainKeepsInputs(TheEnv, e, true);
    var k :| |e.out| <= k < |o.out| && o.out[k].via == Direct && AlreadyOutput(e, o.out[k].r);
    RepeatedIsX(e, o, k);
  }

  lemma LastEvent()
    ensures Run(TheEnv, TheRun) == DrainOnce(TheEnv, Run(TheEnv, TheRun[..4]), true).e
  {
    hide DrainOnce;
    assert TheRun[..|TheRun| - 1] == TheRun[..4];
  }
}
