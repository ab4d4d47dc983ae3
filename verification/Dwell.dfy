/** When the output changes source: the fail-over to a silent primary's
    substitute, and the hold-off before the primary is trusted again. */
module Dwell {
  import opened Packets
  import opened State
  import opened Drain
  import opened Refinement
  import opened DrainShape

  // ------------------------------------------------------- when the source changes

  /** Some clock reading of [from, to) saw the primary silent beyond the outage. */
  predicate SawSilence(env: Env, e: Engine, from: nat, to: nat) {
    exists t | from <= t < to :: Silent(env.cfg, e, env.clock(t))
  }

  /** With the primary queue empty, a look at the outage at time now finds the
      primary silent and a packet of the secondary to send that is news and due. */
  predicate StandsIn(env: Env, e: Engine, force: bool, now: nat) {
    var q := SecondaryTrimmed(e).q1;
    Silent(env.cfg, e, now) && q != [] && !NotDue(env.cfg, q[0], force, env.clock(e.tick))
  }

  /** The drain finds the hold-off elapsed and a primary it has not output yet. */
  predicate Returns(env: Env, e: Engine) {
    e.active == 1 && ReturnReady(env.cfg, Opened(env, e), env.clock(e.tick)) && PrimaryTrimmed(Opened(env, e)).q0 != []
  }

  /** The turns of the drain, once the queue is trimmed. */
  function DrainTurns(env: Env, e: Engine, force: bool): Res {
    Turns(env, SetActive(PrimaryTrimmed(Opened(env, e)), 0), force)
  }

  /** The drain looks at the outage and finds what fail-over needs: at once if
      the trimmed primary queue is empty and the primary is the source, after
      its turns if they empty the queue. */
  predicate FailsOver(env: Env, e: Engine, force: bool) {
    var now, e1 := env.clock(e.tick), PrimaryTrimmed(Opened(env, e));
    if e1.q0 == [] then e.active == 0 && StandsIn(env, e1, force, now)
    else
      var c := DrainTurns(env, e, force);
      && (e.active == 0 || Returns(env, e)) && EndsEmpty(c)
      && StandsIn(env, c.e.(tick := c.e.tick + 1), force, env.clock(c.e.tick))
  }

  lemma StandInSource(env: Env, e: Engine)
    requires e.q1 != []
    ensures var o := StandIn(env, e).e;
            && o.active == 1 && o.stats.switches0 == e.stats.switches0
            && o.stats.switches1 == e.stats.switches1 + if e.active == 0 then 1 else 0
  {
    hide Observe, RepeatsCounter, BreaksCounter;
  }

  lemma {:induction false} FailoverLoopSource(env: Env, e: Engine, force: bool)
    ensures var o := FailoverLoop(env, e, force).e;
            var sends := e.q1 != [] && !NotDue(env.cfg, e.q1[0], force, env.clock(e.tick));
            && o.active == (if sends then 1 else e.active) && o.stats.switches0 == e.stats.switches0
            && o.stats.switches1 == e.stats.switches1 + if sends && e.active == 0 then 1 else 0
    decreases |e.q1|
  {
    hide StandIn, NotDue;
    if e.q1 != [] && !NotDue(env.cfg, e.q1[0], force, env.clock(e.tick)) {
      var o := StandIn(env, e.(tick := e.tick + 1));
      StandInSource(env, e.(tick := e.tick + 1));
      if o.ok && force { FailoverLoopSource(env, o.e, force); }
    }
  }

  lemma FailoverDrainSource(env: Env, e: Engine, force: bool, now: nat)
    ensures var o := FailoverDrain(env, e, force, now).e;
            var fails := e.active == 0 && StandsIn(env, e, force, now);
            && o.active == (if fails then 1 else e.active) && o.stats.switches0 == e.stats.switches0
            && o.stats.switches1 == e.stats.switches1 + if fails then 1 else 0
  {
    hide FailoverLoop, Cutoff, DropThrough, NotDue, Silent;
    FailoverLoopSource(env, SecondaryTrimmed(e), force);
  }

  lemma LoopSource(env: Env, e: Engine, force: bool)
    requires e.active == 0
    ensures var o, c := Loop(env, e, force).e, Turns(env, e, force);
            var fails := EndsEmpty(c) && StandsIn(env, c.e.(tick := c.e.tick + 1), force, env.clock(c.e.tick));
            && o.active == (if fails then 1 else 0) && o.stats.switches0 == e.stats.switches0
            && o.stats.switches1 == e.stats.switches1 + if fails then 1 else 0
  {
    hide Loop, Turns, FailoverDrain, StandsIn;
    LoopNeverReturns(env, e, force);
    TurnsKeep(env, e, force);
    var c := Turns(env, e, force);
    FailoverDrainSource(env, c.e.(tick := c.e.tick + 1), force, env.clock(c.e.tick));
  }

  lemma ServedSource(env: Env, e: Engine, force: bool, now: nat)
    ensures var o, e1 := Served(env, e, force, now).e, PrimaryTrimmed(e);
            var c := Turns(env, SetActive(e1, 0), force);
            var back := e.active == 1 && e1.q0 != [];
            var fails := if e1.q0 == [] then e.active == 0 && StandsIn(env, e1, force, now)
                         else EndsEmpty(c) && StandsIn(env, c.e.(tick := c.e.tick + 1), force, env.clock(c.e.tick));
            && o.active == (if fails then 1 else if back then 0 else e.active)
            && o.stats.switches0 == e.stats.switches0 + (if back then 1 else 0)
            && o.stats.switches1 == e.stats.switches1 + (if fails then 1 else 0)
  {
    hide Loop, Turns, FailoverDrain, StandsIn, PrimaryTrimmed;
    var e1 := PrimaryTrimmed(e);
    TrimKeepsCounters(e);
    if e1.q0 == [] {
      FailoverDrainSource(env, e1, force, now);
    } else {
      LoopSource(env, SetActive(e1, 0), force);
    }
  }

  lemma {:induction false} TrimKeepsCounters(e: Engine)
    ensures var o := PrimaryTrimmed(e); o == e.(q0 := o.q0, fates := o.fates)
    decreases |e.q0|
  {
    if e.q0 != [] && AlreadyOutput(e, e.q0[0]) { TrimKeepsCounters(Popped(e, Discarded)); }
  }

  /** The source changes exactly so: for every state, sink and clock, a drain
      returns to the primary if and only if it finds the hold-off elapsed and a
      primary to send, and fails over if and only if its look at the outage
      finds the primary silent and news of the secondary due. */
  lemma SourceChangesIff(env: Env, e: Engine, force: bool)
    ensures var o := DrainOnce(env, e, force).e;
            && o.stats.switches0 == e.stats.switches0 + (if Returns(env, e) then 1 else 0)
            && o.stats.switches1 == e.stats.switches1 + (if FailsOver(env, e, force) then 1 else 0)
            && o.active == if FailsOver(env, e, force) then 1 else if Returns(env, e) then 0 else e.active
  {
    hide Served, FailoverDrain, Turns, StandsIn, PrimaryTrimmed, Minus64, Silent;
    var e1, now := Opened(env, e), env.clock(e.tick);
    TrimOfNothing(e1);
    ServedSource(env, e1, force, now);
    FailoverDrainSource(env, e1, force, now);
  }

  lemma TrimOfNothing(e: Engine)
    ensures e.q0 == [] ==> PrimaryTrimmed(e) == e
  {
  }

  lemma SilenceIsSame(cfg: Config, e: Engine, f: Engine, now: nat)
    requires e.lastIn0 == f.lastIn0 && e.lastIn1 == f.lastIn1
    ensures Silent(cfg, e, now) == Silent(cfg, f, now)
  {
  }

  /** The parts of a drain keep the arrival times, and readings only go on. */
  lemma DrainTurnsKeep(env: Env, e: Engine, force: bool)
    ensures var e1, c := PrimaryTrimmed(Opened(env, e)), DrainTurns(env, e, force).e;
            && SameInputs(e, e1) && e1.tick == e.tick + 1 && e1.q1 == e.q1 && e1.stats == e.stats
            && SameInputs(e, c) && c.tick > e.tick && c.q1 == e.q1 && c.stats.switches1 == e.stats.switches1
  {
    hide Turns, PrimaryTrimmed;
    var e1 := Opened(env, e);
    TrimKeepsCounters(e1);
    TurnsKeep(env, SetActive(PrimaryTrimmed(e1), 0), force);
  }

  lemma FailoverKeepsQueue(env: Env, e: Engine, force: bool)
    requires FailsOver(env, e, force)
    ensures var o, e1, c := DrainOnce(env, e, force).e, PrimaryTrimmed(Opened(env, e)), DrainTurns(env, e, force).e;
            && o.q0 == [] && (e1.q0 != [] ==> o.tick > c.tick)
  {
    hide Turns, FailoverDrain, StandsIn, PrimaryTrimmed, Loop;
    var e1, now := Opened(env, e), env.clock(e.tick);
    var e2 := PrimaryTrimmed(e1);
    TrimOfNothing(e1);
    if e2.q0 == [] {
      FailoverDrainKeepsInputs(env, e2, force, now);
      FailoverDrainKeepsInputs(env, e1, force, now);
    } else {
      var c := DrainTurns(env, e, force).e;
      LoopNeverReturns(env, SetActive(e2, 0), force);
      FailoverDrainKeepsInputs(env, c.(tick := c.tick + 1), force, env.clock(c.tick));
    }
  }

  /** Every drain that fails over does so with the primary queue empty and the
      primary silent for at least the outage at one of its clock readings; one
      that was on the secondary before heard it at its first. */
  lemma FailoverNeedsSilence(env: Env, e: Engine, force: bool)
    requires DrainOnce(env, e, force).e.stats.switches1 > e.stats.switches1
    ensures var o := DrainOnce(env, e, force).e; o.q0 == [] && SawSilence(env, e, e.tick, o.tick)
    ensures e.active == 1 ==> !Silent(env.cfg, e, env.clock(e.tick)) &&
                              SawSilence(env, e, e.tick + 1, DrainOnce(env, e, force).e.tick)
  {
    hide DrainOnce, Turns, PrimaryTrimmed, Silent;
    SourceChangesIff(env, e, force);
    FailoverKeepsQueue(env, e, force);
    DrainTurnsKeep(env, e, force);
    DrainKeepsInputs(env, e, force);
    var e1, c := PrimaryTrimmed(Opened(env, e)), DrainTurns(env, e, force).e;
    SilenceIsSame(env.cfg, e, e1, env.clock(e.tick));
    SilenceIsSame(env.cfg, e, Opened(env, e), env.clock(e.tick));
    SilenceIsSame(env.cfg, e, c.(tick := c.tick + 1), env.clock(c.tick));
  }

  // ----------------------------------------------------------- bounces, forced

  /** A drain begun on the secondary bounces when it returns to the primary and
      fails over again before it ends. */
  predicate Bounces(env: Env, e: Engine, force: bool) {
    e.active == 1 && Returns(env, e) && FailsOver(env, e, force)
  }

  /** With a working sink a forced drain begun on the secondary bounces if and
      only if the hold-off has elapsed at its first reading, it has n > 0
      primaries to send, the primary is silent at reading n + 1 after the first,
      and the secondary then has news. */
  lemma ForcedBounceIff(env: Env, e: Engine)
    requires SinkWorks(env) && e.active == 1
    ensures var n := |PrimaryTrimmed(Opened(env, e)).q0|;
            DrainOnce(env, e, true).e.stats.switches1 > e.stats.switches1 <==>
              && ReturnReady(env.cfg, Opened(env, e), env.clock(e.tick)) && n > 0
              && Silent(env.cfg, e, env.clock(e.tick + 1 + n))
              && SecondaryTrimmed(DrainTurns(env, e, true).e).q1 != []
  {
    hide DrainOnce, Turns, PrimaryTrimmed, Silent, ReturnReady, Cutoff, DropThrough;
    SourceChangesIff(env, e, true);
    DrainTurnsKeep(env, e, true);
    var e1, c := PrimaryTrimmed(Opened(env, e)), DrainTurns(env, e, true).e;
    ForcedTurns(env, SetActive(e1, 0));
    TrimIgnoresClock(c);
    SilenceIsSame(env.cfg, e, c.(tick := c.tick + 1), env.clock(c.tick));
  }

  lemma TrimIgnoresClock(e: Engine)
    ensures SecondaryTrimmed(e.(tick := e.tick + 1)).q1 == SecondaryTrimmed(e).q1
  {
  }

  // --------------------------------------------------------------------- return

  /** The first clock reading of the drain of event k. */
  function Opening(env: Env, evs: seq<Event>, k: nat): nat
    requires k < |evs|
  {
    env.clock(Before(env, evs, k).tick)
  }

  /** Drain k started on the secondary and heard the primary. */
  predicate Heard(env: Env, evs: seq<Event>, k: nat)
    requires k < |evs|
  {
    Before(env, evs, k).active == 1 && !Silent(env.cfg, Before(env, evs, k), Opening(env, evs, k))
  }

  /** Every drain from m to the last one heard the primary. */
  predicate HeardSince(env: Env, evs: seq<Event>, m: nat) {
    m < |evs| && forall k | m <= k < |evs| :: Heard(env, evs, k)
  }

  /** start is the first reading of a drain since which the primary was heard. */
  ghost predicate Counting(env: Env, evs: seq<Event>, start: nat) {
    exists m: nat :: HeardSince(env, evs, m) && start == Opening(env, evs, m)
  }

  lemma CountingExtends(env: Env, evs: seq<Event>, start: nat)
    requires evs != [] && Counting(env, evs[..|evs| - 1], start) && Heard(env, evs, |evs| - 1)
    ensures Counting(env, evs, start)
  {
    hide Received, Run, Silent;
    var past := evs[..|evs| - 1];
    var m: nat :| HeardSince(env, past, m) && start == Opening(env, past, m);
    forall k: nat | k < |past| ensures Before(env, evs, k) == Before(env, past, k) {
      assert past[..k] == evs[..k];
    }
    forall k | m <= k < |evs| ensures Heard(env, evs, k) {
      if k < |past| { assert Heard(env, past, k); }
    }
    assert HeardSince(env, evs, m) && start == Opening(env, evs, m);
  }

  lemma ReceivingKeepsSource(env: Env, e: Engine, ev: Event)
    ensures var o := Received(env, e, ev);
            o.active == e.active && o.returnStart == e.returnStart && o.tick >= e.tick &&
            o.stats.switches0 == e.stats.switches0 && o.stats.switches1 == e.stats.switches1
  {
  }

  /** Whenever a drain that heard the primary holds off, the hold-off counts
      from the first reading of a drain since which the primary was always heard. */
  lemma {:induction false} HoldoffMeaning(env: Env, evs: seq<Event>)
    requires evs != []
    ensures var b := Before(env, evs, |evs| - 1);
            Heard(env, evs, |evs| - 1) && b.lastIn0 != 0 ==> Counting(env, evs, Opened(env, b).returnStart)
    decreases |evs|
  {
    hide DrainOnce, Received;
    var n := |evs| - 1;
    var past := evs[..n];
    var b := Before(env, evs, n);
    ReceivingKeepsSource(env, Run(env, past), evs[n]);
    if Heard(env, evs, n) && b.lastIn0 != 0 {
      if b.returnStart == 0 {
        assert HeardSince(env, evs, n);
      } else {
        assert past != [];
        HoldoffMeaning(env, past);
        var b' := Before(env, past, n - 1);
        DrainKeepsInputs(env, b', past[n - 1].Tick? && past[n - 1].force);
        assert Run(env, past).returnStart == Opened(env, b').returnStart;
        CountingExtends(env, evs, b.returnStart);
      }
    }
  }

  /** A drain returns to the primary only when the hold-off has elapsed. */
  lemma ReturnNeedsReady(env: Env, e: Engine, force: bool)
    requires DrainOnce(env, e, force).e.stats.switches0 > e.stats.switches0
    ensures e.active == 1 && e.q0 != [] && e.lastIn0 != 0 && !Silent(env.cfg, e, env.clock(e.tick))
    ensures Minus64(env.clock(e.tick), Opened(env, e).returnStart) >= env.cfg.primaryReturn
  {
    hide DrainOnce;
    SourceChangesIff(env, e, force);
    TrimOfNothing(Opened(env, e));
  }

  lemma {:induction false} TicksGrow(env: Env, evs: seq<Event>, m: nat)
    requires m < |evs|
    ensures Before(env, evs, m).tick <= Before(env, evs, |evs| - 1).tick
    decreases |evs|
  {
    hide DrainOnce, Received, Run;
    var n := |evs| - 1;
    if m < n {
      var past := evs[..n];
      TicksGrow(env, past, m);
      assert past[..m] == evs[..m] && past[..n - 1] == evs[..n - 1];
      TickStep(env, evs);
    }
  }

  lemma TickStep(env: Env, evs: seq<Event>)
    requires |evs| > 1
    ensures Before(env, evs, |evs| - 2).tick <= Before(env, evs, |evs| - 1).tick
  {
    hide DrainOnce, Received;
    var n := |evs| - 1;
    var b := Before(env, evs, n - 1);
    assert evs[..n][..n - 1] == evs[..n - 1];
    DrainKeepsInputs(env, b, evs[n - 1].Tick? && evs[n - 1].force);
    ReceivingKeepsSource(env, Run(env, evs[..n]), evs[n]);
  }

  ghost predicate Monotone(env: Env) {
    forall i: nat, j: nat | i <= j :: env.clock(i) <= env.clock(j)
  }

  /** The drain of the last event returned to the primary, wherever it ended. */
  predicate Returned(env: Env, evs: seq<Event>) {
    evs != [] && Run(env, evs).stats.switches0 > Before(env, evs, |evs| - 1).stats.switches0
  }

  /** The primary has been heard by every drain since m, m being at least the
      return time ago. */
  predicate DwelledSince(env: Env, evs: seq<Event>, m: nat) {
    HeardSince(env, evs, m) && Opening(env, evs, |evs| - 1) - Opening(env, evs, m) >= env.cfg.primaryReturn
  }

  /** Return dwell: the output returns to the primary only after drains spanning
      at least the return time, all begun on the secondary, have heard the
      primary without exception; forcing a drain does not shorten this. */
  lemma ReturnNeedsDwell(env: Env, evs: seq<Event>)
    requires Monotone(env) && Returned(env, evs)
    ensures exists m: nat :: DwelledSince(env, evs, m)
  {
    hide DrainOnce, Opened;
    var n := |evs| - 1;
    var b := Before(env, evs, n);
    assert Run(env, evs) == DrainOnce(env, b, evs[n].Tick? && evs[n].force).e;
    ReturnNeedsReady(env, b, evs[n].Tick? && evs[n].force);
    HoldoffMeaning(env, evs);
    var start := Opened(env, b).returnStart;
    var m: nat :| HeardSince(env, evs, m) && start == Opening(env, evs, m);
    TicksGrow(env, evs, m);
    assert DwelledSince(env, evs, m);
  }

  // ---------------------------------------------------- the return does happen

  /** The hold-off never starts in the future. */
  lemma {:induction false} StartIsPast(env: Env, evs: seq<Event>)
    requires Monotone(env)
    ensures Run(env, evs).returnStart <= env.clock(Run(env, evs).tick)
    decreases |evs|
  {
    hide DrainOnce, Received, Silent;
    if evs != [] {
      var n := |evs| - 1;
      StartIsPast(env, evs[..n]);
      var e := Run(env, evs[..n]);
      var b := Received(env, e, evs[n]);
      ReceivingKeepsSource(env, e, evs[n]);
      DrainKeepsInputs(env, b, evs[n].Tick? && evs[n].force);
      assert env.clock(e.tick) <= env.clock(b.tick) <= env.clock(Run(env, evs).tick);
    }
  }

  lemma ReceivingHearsPrimary(env: Env, e: Engine, ev: Event)
    ensures var o := Received(env, e, ev); o.lastIn0 == e.lastIn0 || o.lastIn0 == env.clock(e.tick)
  {
  }

  lemma HeardKeepsStart(env: Env, e: Engine)
    requires e.active == 1 && !Silent(env.cfg, e, env.clock(e.tick)) && e.lastIn0 != 0
    ensures Opened(env, e).returnStart == if e.returnStart == 0 then env.clock(e.tick) else e.returnStart
  {
  }

  /** While every drain since m hears the primary, the hold-off has been running
      since m at the latest. */
  lemma {:induction false} HoldoffRuns(env: Env, evs: seq<Event>, m: nat)
    requires Monotone(env) && HeardSince(env, evs, m) && Opening(env, evs, m) > 0 && Before(env, evs, m).lastIn0 != 0
    ensures var b := Before(env, evs, |evs| - 1); b.lastIn0 != 0 && 0 < Opened(env, b).returnStart <= Opening(env, evs, m)
    decreases |evs|
  {
    hide DrainOnce, Received, Run, Silent;
    var n := |evs| - 1;
    var b := Before(env, evs, n);
    assert Heard(env, evs, n);
    StartIsPast(env, evs[..n]);
    ReceivingKeepsSource(env, Run(env, evs[..n]), evs[n]);
    assert env.clock(Run(env, evs[..n]).tick) <= env.clock(b.tick);
    if m < n {
      var past := evs[..n];
      forall k: nat | k < n ensures Before(env, evs, k) == Before(env, past, k) { assert past[..k] == evs[..k]; }
      forall k | m <= k < n ensures Heard(env, past, k) { assert Heard(env, evs, k); }
      HoldoffRuns(env, past, m);
      RunHears(env, past, m, evs[n]);
    }
    HeardKeepsStart(env, b);
  }

  lemma RunHears(env: Env, past: seq<Event>, m: nat, ev: Event)
    requires Monotone(env) && m < |past| && Opening(env, past, m) > 0
    requires var b := Before(env, past, |past| - 1); b.lastIn0 != 0 && 0 < Opened(env, b).returnStart <= Opening(env, past, m)
    ensures var o := Received(env, Run(env, past), ev);
            o.lastIn0 != 0 && 0 < o.returnStart <= Opening(env, past, m)
  {
    hide DrainOnce, Received;
    var n := |past| - 1;
    var b := Before(env, past, n);
    assert Run(env, past) == DrainOnce(env, b, past[n].Tick? && past[n].force).e;
    DrainKeepsInputs(env, b, past[n].Tick? && past[n].force);
    TicksGrow(env, past, m);
    ReceivingKeepsSource(env, Run(env, past), ev);
    ReceivingHearsPrimary(env, Run(env, past), ev);
    assert env.clock(Before(env, past, m).tick) <= env.clock(b.tick) <= env.clock(Run(env, past).tick);
  }

  /** The return does happen: once every drain for the return time has heard the
      primary, all begun on the secondary, the drain returns to the primary if
      it has a primary to send that is not output yet. */
  lemma ReturnHappens(env: Env, evs: seq<Event>, m: nat)
    requires Monotone(env) && DwelledSince(env, evs, m) && Opening(env, evs, m) > 0 && Before(env, evs, m).lastIn0 != 0
    requires PrimaryTrimmed(Opened(env, Before(env, evs, |evs| - 1))).q0 != []
    ensures Returned(env, evs)
  {
    hide DrainOnce, Received, Silent, PrimaryTrimmed, FailsOver;
    var n := |evs| - 1;
    var b := Before(env, evs, n);
    assert Heard(env, evs, n);
    HoldoffRuns(env, evs, m);
    TicksGrow(env, evs, m);
    SilenceIsSame(env.cfg, b, Opened(env, b), env.clock(b.tick));
    assert Run(env, evs) == DrainOnce(env, b, evs[n].Tick? && evs[n].force).e;
    SourceChangesIff(env, b, evs[n].Tick? && evs[n].force);
    assert ReturnReady(env.cfg, Opened(env, b), env.clock(b.tick));
  }

  // ------------------------------------------------- the dwell since the fail-over

  predicate Forced(ev: Event) { ev.Tick? && ev.force }

  /** The drain of event k bounced. */
  predicate BouncedAt(env: Env, evs: seq<Event>, k: nat)
    requires k < |evs|
  {
    Bounces(env, Before(env, evs, k), Forced(evs[k]))
  }

  /** No fail-over has happened since drain m began. */
  predicate NoFailoverSince(env: Env, evs: seq<Event>, m: nat)
    requires m < |evs|
  {
    Before(env, evs, |evs| - 1).stats.switches1 == Before(env, evs, m).stats.switches1
  }

  /** Between two drains the fail-overs are those of the first. */
  lemma SwitchesStep(env: Env, evs: seq<Event>, k: nat)
    requires k + 1 < |evs|
    ensures var b, b' := Before(env, evs, k), Before(env, evs, k + 1);
            b'.stats.switches1 == b.stats.switches1 + if FailsOver(env, b, Forced(evs[k])) then 1 else 0
  {
    hide DrainOnce, Received, FailsOver, Returns;
    assert evs[..k + 1][..k] == evs[..k];
    var b := Before(env, evs, k);
    assert Run(env, evs[..k + 1]) == DrainOnce(env, b, Forced(evs[k])).e;
    SourceChangesIff(env, b, Forced(evs[k]));
    ReceivingKeepsSource(env, Run(env, evs[..k + 1]), evs[k + 1]);
  }

  /** From the secondary, only a bounce fails over. */
  lemma HeardFailoverIsBounce(env: Env, e: Engine, force: bool)
    requires e.active == 1
    ensures FailsOver(env, e, force) <==> Bounces(env, e, force)
  {
    hide Turns, StandsIn, PrimaryTrimmed;
  }

  /** The dwell found for a return lies after the last fail-over if and only if
      none of its drains bounced. */
  lemma {:induction false} DwellSinceFailoverIff(env: Env, evs: seq<Event>, m: nat)
    requires HeardSince(env, evs, m)
    ensures Before(env, evs, m).stats.switches1 <= Before(env, evs, |evs| - 1).stats.switches1
    ensures NoFailoverSince(env, evs, m) <==> forall k | m <= k < |evs| - 1 :: !BouncedAt(env, evs, k)
    decreases |evs|
  {
    hide Run, Received, Silent, Bounces, FailsOver;
    var n := |evs| - 1;
    if m < n {
      var past := evs[..n];
      forall k: nat | k < n ensures Before(env, past, k) == Before(env, evs, k) {
        assert past[..k] == evs[..k];
      }
      forall k | m <= k < n ensures Heard(env, past, k) { assert Heard(env, evs, k); }
      DwellSinceFailoverIff(env, past, m);
      forall k | m <= k < n - 1 ensures BouncedAt(env, past, k) == BouncedAt(env, evs, k) {}
      SwitchesStep(env, evs, n - 1);
      assert Heard(env, evs, n - 1);
      HeardFailoverIsBounce(env, Before(env, evs, n - 1), Forced(evs[n - 1]));
      if NoFailoverSince(env, evs, m) {
        forall k | m <= k < n ensures !BouncedAt(env, evs, k) {
          if k < n - 1 { assert !BouncedAt(env, past, k); }
        }
      } else if !BouncedAt(env, evs, n - 1) {
        assert !NoFailoverSince(env, past, m);
        var k :| m <= k < n - 1 && BouncedAt(env, past, k);
        assert BouncedAt(env, evs, k);
      }
    }
  }

  /** In no drain that hears the primary at its first reading does a later
      reading find it silent. */
  predicate StaysHeard(env: Env, evs: seq<Event>) {
    forall k | 0 <= k < |evs| - 1 && Heard(env, evs, k) ::
      !SawSilence(env, Before(env, evs, k), Before(env, evs, k).tick + 1, DrainOnce(env, Before(env, evs, k), Forced(evs[k])).e.tick)
  }

  lemma BounceSeesSilence(env: Env, e: Engine, force: bool)
    requires Bounces(env, e, force)
    ensures SawSilence(env, e, e.tick + 1, DrainOnce(env, e, force).e.tick)
  {
    hide DrainOnce, Returns, FailsOver;
    SourceChangesIff(env, e, force);
    FailoverNeedsSilence(env, e, force);
  }

  /** While no drain outlasts the outage, the promise holds in full: every return
      comes after the return time without fail-over, all of it hearing the primary. */
  lemma ReturnDwellsAfterFailover(env: Env, evs: seq<Event>)
    requires Monotone(env) && Returned(env, evs) && StaysHeard(env, evs)
    ensures exists m: nat :: DwelledSince(env, evs, m) && NoFailoverSince(env, evs, m)
  {
    hide Run, Received, Silent, Bounces, Returned;
    ReturnNeedsDwell(env, evs);
    var m: nat :| DwelledSince(env, evs, m);
    forall k | m <= k < |evs| - 1 ensures !BouncedAt(env, evs, k) {
      assert Heard(env, evs, k);
      if BouncedAt(env, evs, k) {
        BounceSeesSilence(env, Before(env, evs, k), Forced(evs[k]));
      }
    }
    DwellSinceFailoverIff(env, evs, m);
    assert DwelledSince(env, evs, m) && NoFailoverSince(env, evs, m);
  }
}
