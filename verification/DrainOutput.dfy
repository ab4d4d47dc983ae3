/** What a drain sends, to the packet: the turns of the primary, and the news
    of the secondary while it stands in. */
module DrainOutput {
  import opened Packets
  import opened State
  import opened Drain
  import opened DrainShape
  import opened Dwell
  import opened DelayPromise

  /** The queue as it goes out in fail-over. */
  function StoodIn(q: seq<Record>): (xs: seq<Emission>)
    ensures |xs| == |q| && forall i | 0 <= i < |q| :: xs[i] == Emission(Failover, q[i])
  {
    seq(|q|, i requires 0 <= i < |q| => Emission(Failover, q[i]))
  }

  /** What fail-over sends of a queue whose head is looked at at time t: all of
      it if forced, else the head alone, once it has waited. */
  function NewsSent(cfg: Config, q: seq<Record>, force: bool, t: nat): seq<Emission> {
    if force then StoodIn(q)
    else if q != [] && Waited(cfg, q[0], t) then [Emission(Failover, q[0])]
    else []
  }

  lemma StandInSends(env: Env, e: Engine)
    requires SinkWorks(env) && e.q1 != []
    ensures var o := StandIn(env, e);
            o.ok && o.e.out == e.out + [Emission(Failover, e.q1[0])] && o.e.q1 == e.q1[1..] && o.e.tick == e.tick
  {
    hide Counted, Observe;
  }

  lemma StoodInHead(q: seq<Record>)
    requires q != []
    ensures StoodIn(q) == [Emission(Failover, q[0])] + StoodIn(q[1..])
  {
  }

  lemma AppendOne(out: seq<Emission>, x: Emission, xs: seq<Emission>)
    ensures out + [x] + xs == out + ([x] + xs)
  {
  }

  lemma {:induction false} ForcedFailoverSends(env: Env, e: Engine)
    requires SinkWorks(env)
    ensures var o := FailoverLoop(env, e, true); o.ok && o.e.out == e.out + StoodIn(e.q1) && o.e.q1 == []
    decreases |e.q1|
  {
    hide StandIn, StoodIn;
    if e.q1 == [] {
      assert StoodIn(e.q1) == [] && e.out + [] == e.out;
    } else {
      var e1 := e.(tick := e.tick + 1);
      StandInSends(env, e1);
      ForcedFailoverSends(env, StandIn(env, e1).e);
      StoodInHead(e.q1);
      AppendOne(e.out, Emission(Failover, e.q1[0]), StoodIn(e.q1[1..]));
    }
  }

  lemma FailoverLoopSends(env: Env, e: Engine, force: bool)
    requires SinkWorks(env)
    ensures var o := FailoverLoop(env, e, force);
            && o.ok && o.e.out == e.out + NewsSent(env.cfg, e.q1, force, env.clock(e.tick))
            && (force ==> o.e.q1 == [])
  {
    if force {
      ForcedFailoverSends(env, e);
    } else {
      hide StandIn;
      if e.q1 != [] { StandInSends(env, e.(tick := e.tick + 1)); }
      assert e.out + [] == e.out;
    }
  }

  /** The primary has been quiet for the outage, which is switched on, and both
      streams have been heard of. */
  predicate QuietTooLong(cfg: Config, e: Engine, now: nat) {
    0 < cfg.outage && 0 < e.lastIn0 && 0 < e.lastIn1 && e.lastIn0 + cfg.outage <= now
  }

  lemma SilentIsQuiet(cfg: Config, e: Engine, now: nat)
    ensures Silent(cfg, e, now) <==> QuietTooLong(cfg, e, now)
  {
  }

  /** With a working sink, a look at the outage sends exactly the news of the
      secondary if it is the source or the primary has been quiet too long. */
  lemma OutageSends(env: Env, e: Engine, force: bool, now: nat)
    requires SinkWorks(env)
    ensures var o := FailoverDrain(env, e, force, now);
            o.ok && o.e.out == e.out +
              if e.active == 1 || QuietTooLong(env.cfg, e, now)
              then NewsSent(env.cfg, SecondaryTrimmed(e).q1, force, env.clock(e.tick)) else []
  {
    SilentIsQuiet(env.cfg, e, now);
    FailoverLoopSends(env, SecondaryTrimmed(e), force);
    hide FailoverLoop, NewsSent, Silent, QuietTooLong, Cutoff, DropThrough;
  }

  /** What a drain sends after its turns, if it has any: one look at the outage. */
  function AfterTurns(env: Env, c: Res, force: bool): seq<Emission> {
    var e := c.e.(tick := c.e.tick + 1);
    if EndsEmpty(c) && QuietTooLong(env.cfg, e, env.clock(c.e.tick))
    then NewsSent(env.cfg, SecondaryTrimmed(e).q1, force, env.clock(e.tick))
    else []
  }

  lemma LoopSends(env: Env, e: Engine, force: bool)
    requires SinkWorks(env) && e.active == 0
    ensures var c := Turns(env, e, force);
            c.ok ==> Loop(env, e, force).ok && Loop(env, e, force).e.out == c.e.out + AfterTurns(env, c, force)
  {
    hide Loop, Turns, FailoverDrain, NewsSent, QuietTooLong, SecondaryTrimmed;
    LoopNeverReturns(env, e, force);
    TurnsKeep(env, e, force);
    var c := Turns(env, e, force);
    OutageSends(env, c.e.(tick := c.e.tick + 1), force, env.clock(c.e.tick));
    assert c.e.out + [] == c.e.out;
  }

  lemma {:induction false} TurnsSucceed(env: Env, e: Engine, force: bool)
    requires SinkWorks(env)
    ensures Turns(env, e, force).ok
    decreases |e.q0|
  {
    hide ProcessFront, NotDue;
    if e.q0 != [] {
      FrontSucceeds(env, e.(tick := e.tick + 1));
      TurnsSucceed(env, ProcessFront(env, e.(tick := e.tick + 1)).e, force);
    }
  }

  /** What a drain sends, with a working sink: on the secondary and not ready to
      return, the secondary's news; with no primary left to send, nothing while
      the return is due, else the news if the primary has been quiet too long;
      otherwise its turns on the primary and one look at the outage. */
  lemma DrainSends(env: Env, e: Engine, force: bool)
    requires SinkWorks(env)
    ensures var o, e1, now := DrainOnce(env, e, force), Opened(env, e), env.clock(e.tick);
            var e2, ready := PrimaryTrimmed(e1), ReturnReady(env.cfg, e1, now);
            && o.ok
            && o.e.out ==
               if !ready then e.out + NewsSent(env.cfg, SecondaryTrimmed(e1).q1, force, env.clock(e.tick + 1))
               else if e2.q0 == [] then
                 e.out + if e.active == 0 && QuietTooLong(env.cfg, e, now)
                         then NewsSent(env.cfg, SecondaryTrimmed(e2).q1, force, env.clock(e.tick + 1)) else []
               else DrainTurns(env, e, force).e.out + AfterTurns(env, DrainTurns(env, e, force), force)
  {
    hide FailoverDrain, Turns, Loop, NewsSent, QuietTooLong, AfterTurns, Silent, Minus64, SecondaryTrimmed, PrimaryTrimmed;
    var e1, now := Opened(env, e), env.clock(e.tick);
    var e2 := PrimaryTrimmed(e1);
    TrimKeepsCounters(e1);
    TrimOfNothing(e1);
    OutageSends(env, e1, force, now);
    OutageSends(env, e2, force, now);
    SameQuiet(env.cfg, e, e1, now);
    SameQuiet(env.cfg, e, e2, now);
    TurnsSucceed(env, SetActive(e2, 0), force);
    LoopSends(env, SetActive(e2, 0), force);
    assert e.out + [] == e.out;
  }

  lemma SameQuiet(cfg: Config, e: Engine, f: Engine, now: nat)
    requires e.lastIn0 == f.lastIn0 && e.lastIn1 == f.lastIn1
    ensures QuietTooLong(cfg, e, now) == QuietTooLong(cfg, f, now)
  {
  }
}
