/** What a history keeps: every record that is young enough and among the last
    the ring has room for; and when the delay queue overflows. */
module Retention {
  import opened Packets
  import opened State
  import opened Receive
  import opened Drain
  import opened Invariants
  import opened Refinement
  import opened Dwell

  /** Record i of the stream is too old or too far back to be kept: more than
      the ring holds came after it, or the newest came later than the time kept. */
  predicate MayGo(cfg: Config, log: seq<Record>, i: nat)
    requires i < |log|
  {
    || |log| - i > cfg.capacity
    || (cfg.historyMs > 0 && log[i].arrival + cfg.historyMs * 1000000 < log[|log| - 1].arrival)
  }

  /** Only what may go is gone, and the ring is never overfull. */
  predicate KeepsFresh(cfg: Config, h: History) {
    h.lo <= |h.log| && |h.log| - h.lo <= cfg.capacity && forall i | 0 <= i < h.lo :: MayGo(cfg, h.log, i)
  }

  lemma {:induction false} PrunedIsOld(h: History, cutoff: int)
    requires h.lo <= |h.log|
    ensures var p := Pruned(h, cutoff);
            && p.log == h.log && h.lo <= p.lo <= |h.log|
            && (forall i | h.lo <= i < p.lo :: h.log[i].arrival < cutoff)
            && (p.lo < |h.log| ==> h.log[p.lo].arrival >= cutoff)
    decreases |h.log| - h.lo
  {
    if h.lo < |h.log| && h.log[h.lo].arrival < cutoff { PrunedIsOld(h.(lo := h.lo + 1), cutoff); }
  }

  /** Receiving a record, not earlier than the last, keeps what is fresh. */
  lemma PushKeepsFresh(cfg: Config, h: History, r: Record)
    requires KeepsFresh(cfg, h) && (h.log != [] ==> h.log[|h.log| - 1].arrival <= r.arrival)
    ensures KeepsFresh(cfg, Receive.Retained(cfg, Appended(h, r, cfg.capacity), r.arrival))
  {
    var a := Appended(h, r, cfg.capacity);
    PrunedIsOld(a, r.arrival - cfg.historyMs * 1000000);
    var n := Receive.Retained(cfg, a, r.arrival);
    forall i | 0 <= i < n.lo ensures MayGo(cfg, n.log, i) {
      if i < h.lo { assert MayGo(cfg, h.log, i); }
    }
  }

  /** Both histories keep what is fresh, and nothing came after now. */
  predicate BothFresh(env: Env, e: Engine) {
    && KeepsFresh(env.cfg, e.h0) && KeepsFresh(env.cfg, e.h1)
    && (e.h0.log != [] ==> e.h0.log[|e.h0.log| - 1].arrival <= env.clock(e.tick))
    && (e.h1.log != [] ==> e.h1.log[|e.h1.log| - 1].arrival <= env.clock(e.tick))
  }

  lemma ReceivedFresh(env: Env, e: Engine, ev: Event)
    requires Monotone(env) && BothFresh(env, e)
    ensures BothFresh(env, Received(env, e, ev))
  {
    if ev.Push? {
      var k := ev.stream;
      PushKeepsFresh(env.cfg, HistoryOf(e, k), NewRecord(env, e, k, ev.packet));
      PrunedIsOld(Appended(HistoryOf(e, k), NewRecord(env, e, k, ev.packet), env.cfg.capacity),
                  env.clock(e.tick) - env.cfg.historyMs * 1000000);
      assert env.clock(e.tick) <= env.clock(e.tick + 1);
      hide KeepsFresh, NewAlignment, InputObserved, Simulate, Queued, Pruned;
    }
  }

  lemma {:induction false} RunIsFresh(env: Env, evs: seq<Event>)
    requires Monotone(env)
    ensures BothFresh(env, Run(env, evs))
    decreases |evs|
  {
    hide DrainOnce, Received;
    if evs == [] {
      NothingIsFresh(env);
    } else {
      var n := |evs| - 1;
      var e := Run(env, evs[..n]);
      RunIsFresh(env, evs[..n]);
      ReceivedFresh(env, e, evs[n]);
      var b := Received(env, e, evs[n]);
      DrainKeepsInputs(env, b, evs[n].Tick? && evs[n].force);
      assert env.clock(b.tick) <= env.clock(Run(env, evs).tick);
    }
  }

  lemma NothingIsFresh(env: Env)
    ensures BothFresh(env, Initial)
  {
  }

  /** Over every run with a clock that does not go back, a record of either
      stream that is among the last `capacity` and not older than the history
      time, counted back from the newest of its stream, can be found. */
  lemma FreshIsFound(env: Env, evs: seq<Event>, k: StreamId, i: nat)
    requires Monotone(env)
    requires var log := HistoryOf(Run(env, evs), k).log;
             && i < |log| && |log| - i <= env.cfg.capacity
             && (env.cfg.historyMs > 0 ==> log[|log| - 1].arrival - log[i].arrival <= env.cfg.historyMs * 1000000)
    ensures var h := HistoryOf(Run(env, evs), k); Find(h, i) == Some(h.log[i])
  {
    hide Run;
    RunIsFresh(env, evs);
    var h := HistoryOf(Run(env, evs), k);
    assert i < h.lo ==> MayGo(env.cfg, h.log, i);
  }

  /** A received primary joins the delay queue; only if that holds `capacity`
      packets is the oldest dropped, and counted. */
  lemma QueueTakes(env: Env, e: Engine, p: Packet)
    ensures var o, r := Ingest(env, e, 0, p), NewRecord(env, e, 0, p);
            if |e.q0| < env.cfg.capacity
            then o.q0 == e.q0 + [r] && o.stats.overflows == e.stats.overflows && o.fates == e.fates
            else o.q0 == e.q0[1..] + [r] && o.stats.overflows == e.stats.overflows + 1 && o.fates == e.fates + [Overflowed]
  {
    hide NewHistory, NewAlignment;
  }

  /** Receiving a record lets go of what is older than the history time: the
      oldest record kept is not, so none is while arrivals are in order. */
  lemma OldIsGone(env: Env, e: Engine, k: StreamId, p: Packet)
    requires HistoryOf(e, k).lo <= |HistoryOf(e, k).log|
    requires var keep := env.cfg.historyMs * 1000000; 0 < keep < env.clock(e.tick)
    ensures var h := NewHistory(env, e, k, p);
            h.lo < |h.log| && h.log[h.lo].arrival + env.cfg.historyMs * 1000000 >= env.clock(e.tick)
  {
    ReceivedHistory(env, e, k, p);
    PrunedIsOld(Appended(HistoryOf(e, k), NewRecord(env, e, k, p), env.cfg.capacity), env.clock(e.tick) - env.cfg.historyMs * 1000000);
  }
}
