/** What a drain consists of: turns on the primary, then at most one look at
    the outage. */
module DrainShape {
  import opened Packets
  import opened State
  import opened Gaps
  import opened GapFacts
  import opened Drain
  import opened Decisions
  import opened Protocol
  import opened Invariants
  import opened Refinement

  /** The turns of the drain loop: heads are sent until one is not due, the
      sink fails or the queue is empty. */
  function Turns(env: Env, e: Engine, force: bool): Res
    decreases |e.q0|
  {
    if e.q0 == [] then Res(true, e) else
      var e1 := e.(tick := e.tick + 1);
      if NotDue(env.cfg, e.q0[0], force, env.clock(e.tick)) then Res(true, e1) else
        var o := ProcessFront(env, e1);
        if o.ok then Turns(env, o.e, force) else o
  }

  /** The turns got through the whole queue. */
  predicate EndsEmpty(c: Res) { c.ok && c.e.q0 == [] }

  /** The return test inside the loop is dead code: the loop is its turns on the
      primary and, if they empty the queue, one look at the outage. */
  lemma {:induction false} LoopNeverReturns(env: Env, e: Engine, force: bool)
    requires e.active == 0
    ensures var c := Turns(env, e, force);
            Loop(env, e, force) ==
            if EndsEmpty(c) then FailoverDrain(env, c.e.(tick := c.e.tick + 1), force, env.clock(c.e.tick)) else c
    decreases |e.q0|
  {
    hide ProcessFront, FailoverDrain, HoldoffNoted, ReturnReady, NotDue;
    if e.q0 != [] {
      var e1 := e.(tick := e.tick + 1);
      assert Loop(env, e, force) == Turn(env, e1, force, env.clock(e.tick));
      FrontKeepsInputs(env, e1);
      var o := ProcessFront(env, e1);
      if o.ok { LoopNeverReturns(env, o.e, force); }
    }
  }

  /** No turn touches the source, its counters or the secondary queue. */
  predicate SameSource(e: Engine, e': Engine) {
    e'.active == e.active && e'.q1 == e.q1 && e'.stats.switches0 == e.stats.switches0 && e'.stats.switches1 == e.stats.switches1
  }

  lemma CarryOutKeepsSource(env: Env, e: Engine, p: Record, plan: Plan)
    ensures SameSource(e, CarryOut(env, e, p, plan).e)
  {
    if plan.Insert? { SendGapKeepsQueues(env, e, plan.rs); }
  }

  lemma FrontKeepsSourceAndQueue(env: Env, e: Engine)
    requires e.q0 != []
    ensures SameSource(e, ProcessFront(env, e).e)
  {
    hide PrimaryPlan, FindCandidates, AnchorMatch, CarryOut, BoundsMatch, Observe, RepeatsCounter, BreaksCounter;
    CarryOutKeepsSource(env, e, e.q0[0], PrimaryPlan(env.cfg, e, e.q0[0]));
  }

  lemma {:induction false} TurnsKeep(env: Env, e: Engine, force: bool)
    ensures var c := Turns(env, e, force).e; SameSource(e, c) && SameInputs(e, c) && c.returnStart == e.returnStart && c.tick >= e.tick
    decreases |e.q0|
  {
    hide ProcessFront, NotDue;
    if e.q0 != [] && !NotDue(env.cfg, e.q0[0], force, env.clock(e.tick)) {
      var e1 := e.(tick := e.tick + 1);
      FrontKeepsInputs(env, e1);
      FrontKeepsSourceAndQueue(env, e1);
      var o := ProcessFront(env, e1);
      if o.ok { TurnsKeep(env, o.e, force); }
    }
  }

  // ------------------------------------------------------- what a turn sends

  lemma {:induction false} GapSendsGap(env: Env, e: Engine, rs: seq<Record>)
    ensures var o := SendGap(env, e, rs).e;
            e.out <= o.out && o.tick == e.tick && forall k | |e.out| <= k < |o.out| :: o.out[k].via == Gap
    decreases |rs|
  {
    hide Counted, Observe;
    if rs != [] && env.sinkOk(e.sends) {
      var e1 := Recovered(Accepted(e, rs[0], Gap), rs[0].packet.isNull);
      GapSendsGap(env, e1, rs[1..]);
      var o := SendGap(env, e1, rs[1..]).e;
      assert o.out[|e.out|] == e1.out[|e.out|];
    }
  }

  /** A packet that fills a gap or stands for a damaged primary. */
  predicate FromGap(x: Emission) { x.via == Gap || x.via == TeiFix }

  lemma CarryOutSends(env: Env, e: Engine, p: Record, plan: Plan)
    ensures var o := CarryOut(env, e, p, plan).e;
            e.out <= o.out && forall k | |e.out| <= k < |o.out| :: FromGap(o.out[k])
  {
    hide SendGap, Counted, Observe, Unrecoverable;
    if plan.Insert? { GapSendsGap(env, e, plan.rs); }
  }

  /** A turn sends its head last, and before it only what fills the gap. */
  lemma FrontSends(env: Env, e: Engine)
    requires e.q0 != []
    ensures var o := ProcessFront(env, e).e;
            && e.out <= o.out && o.tick == e.tick
            && forall k | |e.out| <= k < |o.out| :: FromGap(o.out[k]) || o.out[k] == Emission(Direct, e.q0[0])
  {
    hide PrimaryPlan, FindCandidates, AnchorMatch, Counted, Observe, BoundsMatch, CarryOut;
    var plan := PrimaryPlan(env.cfg, e, e.q0[0]);
    CarryOutKeeps(env, e, e.q0[0], plan);
    CarryOutSends(env, e, e.q0[0], plan);
  }

  /** The turns send heads of the queue and what fills gaps, nothing else. */
  lemma {:induction false} TurnsSend(env: Env, e: Engine, force: bool)
    ensures var c := Turns(env, e, force).e;
            e.out <= c.out && forall k | |e.out| <= k < |c.out| :: FromGap(c.out[k]) || c.out[k].via == Direct
    decreases |e.q0|
  {
    hide ProcessFront, NotDue;
    if e.q0 != [] && !NotDue(env.cfg, e.q0[0], force, env.clock(e.tick)) {
      var e1 := e.(tick := e.tick + 1);
      FrontSends(env, e1);
      var o := ProcessFront(env, e1);
      if o.ok {
        TurnsSend(env, o.e, force);
        var c := Turns(env, o.e, force).e;
        forall k | |e.out| <= k < |c.out| ensures FromGap(c.out[k]) || c.out[k].via == Direct {
          if k < |o.e.out| { assert c.out[k] == o.e.out[k]; }
        }
      }
    }
  }

  lemma {:induction false} TurnsKeepInv(env: Env, e: Engine, force: bool)
    requires Inv(e) && e.active == 0
    ensures Inv(Turns(env, e, force).e)
    decreases |e.q0|
  {
    hide ProcessFront, NotDue, Inv;
    if e.q0 != [] {
      MoveKeepsInv(env, e, Clock);
      var e1 := Apply(env, e, Clock);
      if !NotDue(env.cfg, e.q0[0], force, env.clock(e.tick)) {
        FrontKeepsInv(env, e1);
        var o := ProcessFront(env, e1);
        if o.ok { TurnsKeepInv(env, o.e, force); }
      }
    }
  }

  // ------------------------------------------------------- with a working sink

  /** The sink accepts everything. */
  ghost predicate SinkWorks(env: Env) { forall k :: env.sinkOk(k) }

  lemma {:induction false} GapSendSucceeds(env: Env, e: Engine, rs: seq<Record>)
    requires SinkWorks(env)
    ensures SendGap(env, e, rs).ok
    ensures e.out <= SendGap(env, e, rs).e.out
    decreases |rs|
  {
    if rs != [] {
      GapSendSucceeds(env, Recovered(Accepted(e, rs[0], Gap), rs[0].packet.isNull), rs[1..]);
    }
  }

  lemma FrontSucceeds(env: Env, e: Engine)
    requires SinkWorks(env) && e.q0 != []
    ensures ProcessFront(env, e).ok && ProcessFront(env, e).e.tick == e.tick
  {
    hide PrimaryPlan, FindCandidates, AnchorMatch, Counted, Observe, BoundsMatch;
    var plan := PrimaryPlan(env.cfg, e, e.q0[0]);
    if plan.Insert? { GapSendSucceeds(env, e, plan.rs); }
    FrontSends(env, e);
  }

  /** With a working sink an undamaged primary is sent in its turn. */
  lemma FrontIsSent(env: Env, e: Engine)
    requires SinkWorks(env) && Indexed(e.h1) && e.q0 != [] && !e.q0[0].packet.transportError
    ensures var o := ProcessFront(env, e);
            o.ok && |o.e.out| > |e.out| && e.out <= o.e.out && o.e.out[|o.e.out| - 1] == Emission(Direct, e.q0[0])
  {
    hide PrimaryPlan, FindCandidates, AnchorMatch, Counted, Observe, SafeInsertion, BoundsMatch, Fits;
    var p := e.q0[0];
    var plan := PrimaryPlan(env.cfg, e, p);
    DecisionIsSafe(env.cfg, e, p);
    CarryOutKeeps(env, e, p, plan);
    if plan.Insert? { GapSendSucceeds(env, e, plan.rs); }
    var o := CarryOut(env, e, p, plan);
    assert o.ok && e.out <= o.e.out;
  }

  /** A forced pass takes one clock reading for each primary and empties the queue. */
  lemma {:induction false} ForcedTurns(env: Env, e: Engine)
    requires SinkWorks(env)
    ensures var c := Turns(env, e, true); EndsEmpty(c) && c.e.tick == e.tick + |e.q0|
    decreases |e.q0|
  {
    hide ProcessFront;
    if e.q0 != [] {
      var e1 := e.(tick := e.tick + 1);
      FrontSucceeds(env, e1);
      ForcedTurns(env, ProcessFront(env, e1).e);
    }
  }

  // ----------------------------------------------------- how far the turns get

  /** When the turns start at clock reading t, one reading each, the first i + 1
      of the queue are due. */
  predicate DueThrough(env: Env, q: seq<Record>, i: nat, t: nat, force: bool)
    requires i < |q|
  {
    forall j: nat | j <= i :: !NotDue(env.cfg, q[j], force, env.clock(t + j))
  }

  lemma DueThroughStep(env: Env, q: seq<Record>, i: nat, t: nat, force: bool)
    requires 0 < i < |q|
    ensures DueThrough(env, q, i, t, force) <==>
            !NotDue(env.cfg, q[0], force, env.clock(t)) && DueThrough(env, q[1..], i - 1, t + 1, force)
  {
    hide NotDue;
    var d := DueThrough(env, q, i, t, force);
    if d {
      assert !NotDue(env.cfg, q[0], force, env.clock(t + 0));
      forall j: nat | j <= i - 1 ensures !NotDue(env.cfg, q[1..][j], force, env.clock(t + 1 + j)) {
        assert !NotDue(env.cfg, q[j + 1], force, env.clock(t + (j + 1)));
      }
    } else if !NotDue(env.cfg, q[0], force, env.clock(t)) {
      var j: nat :| j <= i && NotDue(env.cfg, q[j], force, env.clock(t + j));
      assert NotDue(env.cfg, q[1..][j - 1], force, env.clock(t + 1 + (j - 1)));
    }
  }

  predicate Sent(out: seq<Emission>, n: nat, r: Record) {
    exists k | n <= k < |out| :: out[k] == Emission(Direct, r)
  }

  lemma SentEarlier(out: seq<Emission>, m: nat, n: nat, r: Record)
    requires m <= n && Sent(out, n, r)
    ensures Sent(out, m, r)
  {
    var k :| n <= k < |out| && out[k] == Emission(Direct, r);
    assert m <= k < |out| && out[k] == Emission(Direct, r);
  }

  /** With a working sink, an undamaged primary is sent if it and all before it are due. */
  lemma {:induction false} TurnsReach(env: Env, e: Engine, force: bool, i: nat)
    requires SinkWorks(env) && Indexed(e.h1) && i < |e.q0| && !e.q0[i].packet.transportError
    requires DueThrough(env, e.q0, i, e.tick, force)
    ensures Sent(Turns(env, e, force).e.out, |e.out|, e.q0[i])
    decreases i
  {
    hide ProcessFront, NotDue;
    assert !NotDue(env.cfg, e.q0[0], force, env.clock(e.tick + 0));
    var e1 := e.(tick := e.tick + 1);
    FrontSucceeds(env, e1);
    FrontKeepsInputs(env, e1);
    FrontSends(env, e1);
    var o := ProcessFront(env, e1).e;
    TurnsSend(env, o, force);
    if i == 0 {
      FrontIsSent(env, e1);
      assert Turns(env, o, force).e.out[|o.out| - 1] == Emission(Direct, e.q0[0]);
    } else {
      DueThroughStep(env, e.q0, i, e.tick, force);
      TurnsReach(env, o, force, i - 1);
      SentEarlier(Turns(env, o, force).e.out, |e.out|, |o.out|, e.q0[i]);
    }
  }

  /** Otherwise only primaries before it are sent, whatever the sink does. */
  lemma {:induction false} TurnsStop(env: Env, e: Engine, force: bool, i: nat)
    requires i < |e.q0| && !DueThrough(env, e.q0, i, e.tick, force)
    ensures var c := Turns(env, e, force).e;
            forall k | |e.out| <= k < |c.out| && c.out[k].via == Direct :: c.out[k].r in e.q0[..i]
    decreases i
  {
    hide ProcessFront, NotDue;
    if !NotDue(env.cfg, e.q0[0], force, env.clock(e.tick)) {
      var e1 := e.(tick := e.tick + 1);
      FrontSends(env, e1);
      var o := ProcessFront(env, e1);
      assert i > 0 && e.q0[0] in e.q0[..i];
      if o.ok {
        DueThroughStep(env, e.q0, i, e.tick, force);
        TurnsStop(env, o.e, force, i - 1);
        TurnsSend(env, o.e, force);
        var c := Turns(env, o.e, force).e;
        forall k | |e.out| <= k < |c.out| && c.out[k].via == Direct ensures c.out[k].r in e.q0[..i] {
          if k < |o.e.out| {
            assert c.out[k] == o.e.out[k];
          } else {
            assert e.q0[1..][..i - 1] == e.q0[..i][1..];
          }
        }
      }
    }
  }
}
