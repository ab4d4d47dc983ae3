/** The delay that gives the secondary time to fill gaps: outside of a forced
    drain no packet is sent before it has waited its time, and none that has
    waited is left at the head of the queue. */
module DelayPromise {
  import opened Packets
  import opened State
  import opened Drain
  import opened Refinement
  import opened DrainShape
  import opened Handover

  /** At time now the record has waited its time, or the clock has gone back
      behind its arrival. */
  predicate Waited(cfg: Config, r: Record, now: nat) {
    now < r.arrival || r.arrival + cfg.primaryDelay <= now
  }

  /** It had waited at one of the clock readings of [from, to). */
  predicate WaitedWithin(env: Env, r: Record, from: nat, to: nat) {
    exists t | from <= t < to :: Waited(env.cfg, r, env.clock(t))
  }

  /** The primaries and the fail-over packets sent after position n had waited;
      what fills a gap goes out with the primary after it. */
  predicate AllWaited(env: Env, out: seq<Emission>, n: nat, from: nat, to: nat) {
    forall k | n <= k < |out| ::
      FromGap(out[k]) || WaitedWithin(env, out[k].r, from, to)
  }

  lemma AllWaitedJoin(env: Env, a: seq<Emission>, b: seq<Emission>, n: nat, from: nat, mid: nat, to: nat, from': nat)
    requires n <= |a| && a <= b && from <= from' && mid <= to
    requires AllWaited(env, a, n, from, mid) && AllWaited(env, b, |a|, from', to)
    ensures AllWaited(env, b, n, from, to)
  {
    forall k | n <= k < |b| && !FromGap(b[k]) ensures WaitedWithin(env, b[k].r, from, to) {
      if k < |a| {
        assert b[k] == a[k];
        var t :| from <= t < mid && Waited(env.cfg, a[k].r, env.clock(t));
        assert from <= t < to && Waited(env.cfg, b[k].r, env.clock(t));
      } else {
        var t :| from' <= t < to && Waited(env.cfg, b[k].r, env.clock(t));
        assert from <= t < to && Waited(env.cfg, b[k].r, env.clock(t));
      }
    }
  }

  // ------------------------------------------------------------------ fail-over

  /** Outside of a forced drain, fail-over sends at most the head, once it has waited. */
  lemma FailoverWaits(env: Env, e: Engine, now: nat)
    ensures var o := FailoverDrain(env, e, false, now).e;
            e.out <= o.out && e.tick <= o.tick && AllWaited(env, o.out, |e.out|, e.tick, o.tick)
  {
    hide Cutoff, SetActive, Counted, Observe, Silent;
    var e1 := SecondaryTrimmed(e);
    if e1.q1 != [] && !NotDue(env.cfg, e1.q1[0], false, env.clock(e1.tick)) {
      assert Waited(env.cfg, e1.q1[0], env.clock(e.tick));
      var e2 := e1.(tick := e1.tick + 1);
      StandInSendsNoPrimary(env, e2);
      StandInTick(env, e2);
    }
  }

  lemma StandInTick(env: Env, e: Engine)
    requires e.q1 != []
    ensures StandIn(env, e).e.tick == e.tick
  {
  }

  // ------------------------------------------------------------------- the loop

  lemma FrontWaits(env: Env, e: Engine, t: nat)
    requires e.q0 != [] && t < e.tick && Waited(env.cfg, e.q0[0], env.clock(t))
    ensures var o := ProcessFront(env, e).e; e.out <= o.out && o.tick == e.tick && AllWaited(env, o.out, |e.out|, t, o.tick)
  {
    hide ProcessFront;
    FrontSends(env, e);
  }

  /** What the loop promises when it is not forced. */
  predicate Patient(env: Env, e: Engine, o: Res) {
    && e.out <= o.e.out && e.tick < o.e.tick && AllWaited(env, o.e.out, |e.out|, e.tick, o.e.tick)
    && (o.ok && o.e.q0 != [] ==> !Waited(env.cfg, o.e.q0[0], env.clock(o.e.tick - 1)))
  }

  lemma {:induction false} LoopWaits(env: Env, e: Engine)
    requires e.active == 0
    ensures Patient(env, e, Loop(env, e, false))
    decreases |e.q0|
  {
    hide ProcessFront, FailoverDrain, HoldoffNoted, ReturnReady, AllWaited;
    var t, e1 := e.tick, e.(tick := e.tick + 1);
    if e.q0 == [] {
      FailoverWaits(env, e1, env.clock(t));
      FailoverDrainKeepsInputs(env, e1, false, env.clock(t));
      NothingSentWaits(env, e.out, t, e1.tick);
      AllWaitedJoin(env, e.out, FailoverDrain(env, e1, false, env.clock(t)).e.out, |e.out|, t, e1.tick,
                    FailoverDrain(env, e1, false, env.clock(t)).e.tick, e1.tick);
    } else {
      assert Loop(env, e, false) == Turn(env, e1, false, env.clock(t));
      if NotDue(env.cfg, e.q0[0], false, env.clock(t)) {
        NothingSentWaits(env, e.out, t, e1.tick);
      } else {
        FrontWaits(env, e1, t);
        FrontKeepsInputs(env, e1);
        var o := ProcessFront(env, e1);
        if o.ok {
          LoopWaits(env, o.e);
          var o' := Loop(env, o.e, false);
          AllWaitedJoin(env, o.e.out, o'.e.out, |e.out|, t, o.e.tick, o'.e.tick, o.e.tick);
        }
      }
    }
  }

  lemma NothingSentWaits(env: Env, out: seq<Emission>, from: nat, to: nat)
    ensures AllWaited(env, out, |out|, from, to)
  {
  }

  lemma ServedWaits(env: Env, e: Engine, now: nat)
    ensures var o := Served(env, e, false, now).e;
            e.out <= o.out && e.tick <= o.tick && AllWaited(env, o.out, |e.out|, e.tick, o.tick)
  {
    hide Loop, FailoverDrain, AllWaited;
    var e1 := PrimaryTrimmed(e);
    TrimKeepsOutput(e);
    NothingSentWaits(env, e.out, e.tick, e.tick);
    if e1.q0 == [] {
      FailoverWaits(env, e1, now);
    } else {
      LoopWaits(env, SetActive(e1, 0));
    }
  }

  /** Outside of a forced drain, every primary and every fail-over packet that
      is sent has waited the configured delay at a clock reading of the drain. */
  lemma DrainWaits(env: Env, e: Engine)
    ensures var o := DrainOnce(env, e, false).e; e.out <= o.out && AllWaited(env, o.out, |e.out|, e.tick, o.tick)
  {
    hide Served, FailoverDrain, AllWaited;
    var e1, now := Opened(env, e), env.clock(e.tick);
    var o := DrainOnce(env, e, false).e;
    NothingSentWaits(env, e.out, e.tick, e1.tick);
    ServedWaits(env, e1, now);
    FailoverWaits(env, e1, now);
    AllWaitedJoin(env, e.out, o.out, |e.out|, e.tick, e1.tick, o.tick, e1.tick);
  }

  /** A drain on the primary that succeeds leaves at the head of the queue only
      a packet that has not waited yet at its last clock reading. */
  lemma DrainLeavesNoneWaiting(env: Env, e: Engine)
    requires e.active == 0 && DrainOnce(env, e, false).ok && DrainOnce(env, e, false).e.q0 != []
    ensures var o := DrainOnce(env, e, false).e; o.tick > 0 && !Waited(env.cfg, o.q0[0], env.clock(o.tick - 1))
  {
    hide Loop, FailoverDrain;
    var e1, now := Opened(env, e), env.clock(e.tick);
    var e2 := PrimaryTrimmed(e1);
    FailoverDrainKeepsInputs(env, e1, false, now);
    FailoverDrainKeepsInputs(env, e2, false, now);
    TrimKeepsOutput(e1);
    if e2.q0 != [] { LoopWaits(env, SetActive(e2, 0)); }
  }
}
