/** A run in which the output returns to the primary at the very moment of the
    last fail-over, although a return time of five is configured: the drain of
    event 3 returns to the primary, outlasts the outage while it runs, fails
    over again, and leaves the old hold-off start behind. */
module BounceExample {
  import opened Packets
  import opened State
  import opened Gaps
  import opened Receive
  import opened Drain
  import opened Dwell
  import opened Theorems

  const Stuffing: Packet := Packet(0, 8191, 0, true, true, false, false, false, 0)

  function Readings(k: nat): nat {
    if k < 4 then 1 else if k < 7 then 11 else if k < 9 then 12 else if k < 12 then 17 else 22
  }

  const TheConfig: Config := Config(0, 0, 0, 10, 5, 0, 0, 8192)

  const TheEnv: Env := Env(TheConfig, Readings, (k: nat) => true)

  const TheRun: seq<Event> :=
    [Push(0, Stuffing), Push(1, Stuffing), Push(0, Stuffing), Push(1, Stuffing), Push(0, Stuffing)]

  /** What matters of a state reached by null packets alone: clock readings,
      last arrivals, queue lengths, source, hold-off start, fail-overs. */
  datatype View = View(tick: nat, in0: nat, in1: nat, n0: nat, n1: nat, active: StreamId, start: nat, failovers: nat)

  predicate Looks(e: Engine, v: View) {
    && v == View(e.tick, e.lastIn0, e.lastIn1, |e.q0|, |e.q1|, e.active, e.returnStart, e.stats.switches1)
    && !e.align.has && !e.anchor.valid
    && (forall i | 0 <= i < |e.q0| :: e.q0[i].packet == Stuffing && e.q0[i].source == 0)
    && (forall i | 0 <= i < |e.q1| :: e.q1[i].packet == Stuffing && e.q1[i].source == 1)
  }

  lemma Arrives(e: Engine, v: View, k: StreamId)
    requires Looks(e, v) && v.n0 < 10 && v.n1 < 10
    ensures var now := Readings(v.tick);
            Looks(Ingest(TheEnv, e, k, Stuffing),
                  if k == 0 then v.(tick := v.tick + 1, in0 := now, n0 := v.n0 + 1)
                  else v.(tick := v.tick + 1, in1 := now, n1 := v.n1 + 1))
  {
  }

  /** A null primary is sent as it is. */
  lemma Emits(e: Engine, v: View)
    requires Looks(e, v) && v.n0 > 0
    ensures var o := ProcessFront(TheEnv, e); o.ok && Looks(o.e, v.(n0 := v.n0 - 1))
  {
    var p := e.q0[0];
    assert FindCandidates(TheConfig, e, p) == Candidates([], false);
    assert PrimaryPlan(TheConfig, e, p) == Keep;
  }

  /** With one primary queued, the loop sends it and then looks at the outage. */
  lemma LoopsOnce(e: Engine, v: View) returns (e': Engine)
    requires Looks(e, v) && v.n0 == 1 && v.active == 0
    ensures Looks(e', v.(n0 := 0, tick := v.tick + 2))
    ensures Loop(TheEnv, e, false) == FailoverDrain(TheEnv, e', false, Readings(v.tick + 1))
  {
    hide ProcessFront, FailoverDrain;
    var e1 := e.(tick := e.tick + 1);
    Emits(e1, v.(tick := v.tick + 1));
    var o := ProcessFront(TheEnv, e1);
    e' := o.e.(tick := o.e.tick + 1);
    assert Loop(TheEnv, e, false) == Turn(TheEnv, e1, false, Readings(v.tick));
    assert Turn(TheEnv, e1, false, Readings(v.tick)) == Loop(TheEnv, o.e, false);
  }

  /** In fail-over, one queued secondary is sent. */
  lemma StandsIn(e: Engine, v: View, now: nat)
    requires Looks(e, v) && (v.active == 1 || Silent(TheConfig, e, now))
    ensures Looks(FailoverDrain(TheEnv, e, false, now).e,
                  if v.n1 == 0 then v
                  else v.(tick := v.tick + 1, n1 := v.n1 - 1, active := 1, failovers := v.failovers + 1 - v.active))
  {
    assert SecondaryTrimmed(e) == e;
  }

  /** Nothing queued is ever dropped: without an alignment there is no overlap. */
  lemma KeepsAll(e: Engine, v: View)
    requires Looks(e, v)
    ensures PrimaryTrimmed(e) == e
  {
  }

  lemma StaysQuiet(e: Engine, now: nat)
    requires e.active == 0 && !Silent(TheConfig, e, now)
    ensures FailoverDrain(TheEnv, e, false, now).e == e
  {
  }

  /** A drain that is ready sends the one queued primary, then closes. */
  lemma Serves(e: Engine, v: View) returns (e': Engine)
    requires Looks(e, v) && v.n0 == 1 && ReturnReady(TheConfig, Opened(TheEnv, e), Readings(v.tick))
    requires Looks(Opened(TheEnv, e), v.(tick := v.tick + 1))
    ensures Looks(e', v.(tick := v.tick + 3, n0 := 0, active := 0))
    ensures DrainOnce(TheEnv, e, false) == FailoverDrain(TheEnv, e', false, Readings(v.tick + 2))
  {
    hide Loop, FailoverDrain, ReturnReady;
    var o := Opened(TheEnv, e);
    KeepsAll(o, v.(tick := v.tick + 1));
    e' := LoopsOnce(SetActive(o, 0), v.(tick := v.tick + 1, active := 0));
    assert DrainOnce(TheEnv, e, false) == Served(TheEnv, o, false, Readings(v.tick));
  }

  // The five events, from view to view.

  const V0: View := View(0, 0, 0, 0, 0, 0, 0, 0)
  const V1: View := View(4, 1, 0, 0, 0, 0, 0, 0)
  const V2: View := View(7, 1, 11, 0, 0, 1, 0, 1)
  const V3: View := View(9, 12, 11, 1, 0, 1, 12, 1)
  const V4: View := View(14, 12, 17, 0, 0, 1, 12, 2)
  const V5: View := View(18, 22, 17, 0, 0, 0, 12, 2)

  lemma Event0(e: Engine)
    requires Looks(e, V0)
    ensures Looks(Step(TheEnv, e, Push(0, Stuffing)), V1)
  {
    hide DrainOnce, FailoverDrain, Ingest;
    Arrives(e, V0, 0);
    var e' := Serves(Ingest(TheEnv, e, 0, Stuffing), View(1, 1, 0, 1, 0, 0, 0, 0));
    StaysQuiet(e', Readings(3));
  }

  lemma Event1(e: Engine)
    requires Looks(e, V1)
    ensures Looks(Step(TheEnv, e, Push(1, Stuffing)), V2)
  {
    hide Served, FailoverDrain, Ingest;
    Arrives(e, V1, 1);
    StandsIn(Opened(TheEnv, Ingest(TheEnv, e, 1, Stuffing)), View(6, 1, 11, 0, 1, 0, 0, 0), 11);
  }

  lemma Event2(e: Engine)
    requires Looks(e, V2)
    ensures Looks(Received(TheEnv, e, Push(0, Stuffing)), View(8, 12, 11, 1, 0, 1, 0, 1))
    ensures Looks(Step(TheEnv, e, Push(0, Stuffing)), V3)
  {
    hide Served, FailoverDrain, Ingest;
    Arrives(e, V2, 0);
    StandsIn(Opened(TheEnv, Ingest(TheEnv, e, 0, Stuffing)), V3, 12);
  }

  lemma Event3(e: Engine)
    requires Looks(e, V3)
    ensures Looks(Received(TheEnv, e, Push(1, Stuffing)), View(10, 12, 17, 1, 1, 1, 12, 1))
    ensures Looks(Step(TheEnv, e, Push(1, Stuffing)), V4)
  {
    hide DrainOnce, FailoverDrain, Ingest;
    Arrives(e, V3, 1);
    var e' := Serves(Ingest(TheEnv, e, 1, Stuffing), View(10, 12, 17, 1, 1, 1, 12, 1));
    StandsIn(e', View(13, 12, 17, 0, 1, 0, 12, 1), 22);
  }

  lemma Event4(e: Engine)
    requires Looks(e, V4)
    ensures Looks(Received(TheEnv, e, Push(0, Stuffing)), View(15, 22, 17, 1, 0, 1, 12, 2))
    ensures Looks(Step(TheEnv, e, Push(0, Stuffing)), V5)
  {
    hide DrainOnce, FailoverDrain, Ingest;
    Arrives(e, V4, 0);
    var e' := Serves(Ingest(TheEnv, e, 0, Stuffing), View(15, 22, 17, 1, 0, 1, 12, 2));
    StaysQuiet(e', 22);
  }

  lemma TheStates()
    ensures Looks(Before(TheEnv, TheRun, 2), View(8, 12, 11, 1, 0, 1, 0, 1))
    ensures Looks(Before(TheEnv, TheRun, 3), View(10, 12, 17, 1, 1, 1, 12, 1))
    ensures Looks(Before(TheEnv, TheRun, 4), View(15, 22, 17, 1, 0, 1, 12, 2))
    ensures Looks(Run(TheEnv, TheRun), V5)
    ensures Before(TheEnv, TheRun, 0).active == 0 && Before(TheEnv, TheRun, 1).active == 0
  {
    hide Step, Received;
    var r := TheRun;
    assert r[..0] == [] && r[..1][..0] == r[..0] && r[..2][..1] == r[..1] && r[..3][..2] == r[..2] &&
           r[..4][..3] == r[..3] && r[..5] == r;
    Event0(Run(TheEnv, r[..0]));
    Event1(Run(TheEnv, r[..1]));
    Event2(Run(TheEnv, r[..2]));
    Event3(Run(TheEnv, r[..3]));
    Event4(Run(TheEnv, r[..4]));
    ReceivingKeepsSource(TheEnv, Run(TheEnv, r[..0]), r[0]);
    ReceivingKeepsSource(TheEnv, Run(TheEnv, r[..1]), r[1]);
  }

  /** The last event returns: the fail-overs tell the returns. */
  lemma TheLastReturn()
    ensures Returned(TheEnv, TheRun)
  {
    hide Run, Received;
    TheStates();
    SwitchesTellTheSource(TheEnv, TheRun);
    SwitchesTellTheSource(TheEnv, TheRun[..4]);
    ReceivingKeepsSource(TheEnv, Run(TheEnv, TheRun[..4]), TheRun[4]);
  }

  /** The drain of event 3 bounces. */
  lemma TheBounce()
    ensures BouncedAt(TheEnv, TheRun, 3)
  {
    hide Run, Received, FailsOver, Bounces;
    TheStates();
    SwitchesStep(TheEnv, TheRun, 3);
    HeardFailoverIsBounce(TheEnv, Before(TheEnv, TheRun, 3), Forced(TheRun[3]));
  }

  /** The dwell since the last fail-over is not guaranteed: here the clock is
      monotone, a drain bounces, the output returns to the primary, and every
      drain from which the return time could be counted lies before that. */
  lemma ReturnWithoutDwell()
    ensures Monotone(TheEnv) && TheConfig.primaryReturn == 5 && Returned(TheEnv, TheRun)
    ensures BouncedAt(TheEnv, TheRun, 3)
    ensures forall m: nat | m < |TheRun| && DwelledSince(TheEnv, TheRun, m) :: !NoFailoverSince(TheEnv, TheRun, m)
  {
    hide Run, Received, Silent;
    TheStates();
    TheLastReturn();
    TheBounce();
    forall m: nat | m < |TheRun| && DwelledSince(TheEnv, TheRun, m) ensures !NoFailoverSince(TheEnv, TheRun, m) {
      assert Heard(TheEnv, TheRun, m);
      assert m == 2 || m == 3 || m == 4;
    }
  }
}
