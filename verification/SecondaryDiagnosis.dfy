/** The diagnosis of secondary loss over whole runs. */
module SecondaryDiagnosis {
  import opened Packets
  import opened State
  import opened Receive
  import opened Drain
  import opened Invariants
  import opened Refinement
  import opened SecondaryLoss
  import opened CounterGaps

  /** The engine's counters are the meter of what the secondary delivered. */
  lemma {:induction false} RunMeters(env: Env, evs: seq<Event>)
    ensures var e := Run(env, evs);
            Metered(Pushed(evs, 1)) == Meter(e.in1, e.stats.lossEvents, e.stats.missing)
    decreases |evs|
  {
    if evs != [] {
      hide DrainOnce, Inv;
      var past, ev := evs[..|evs| - 1], evs[|evs| - 1];
      RunMeters(env, past);
      var e := Run(env, past);
      ReceivedMeters(env, e, ev, Pushed(past, 1));
      DrainKeepsInputs(env, Received(env, e, ev), ev.Tick? && ev.force);
    }
  }

  lemma ReceivedMeters(env: Env, e: Engine, ev: Event, ps: seq<Packet>)
    requires Metered(ps) == Meter(e.in1, e.stats.lossEvents, e.stats.missing)
    ensures var o := Received(env, e, ev);
            Metered(if ev.Push? && ev.stream == 1 then ps + [ev.packet] else ps) == Meter(o.in1, o.stats.lossEvents, o.stats.missing)
  {
    hide NewHistory, NewAlignment;
    if ev.Push? && ev.stream == 1 {
      assert (ps + [ev.packet])[..|ps|] == ps;
    }
  }

  /** Over every run in which the secondary delivers a payload stream with any
      losses, secondary_missing_packets never exceeds the packets lost between
      survivors, and equals their number if and only if no gap is longer than
      fourteen packets; secondary_loss_events never exceeds the number of gaps,
      and equals it if and only if no gap is a multiple of sixteen packets or
      one short of it. */
  lemma DiagnosisIsExactIff(env: Env, evs: seq<Event>, T: seq<Packet>, keep: seq<bool>)
    requires PayloadStream(T) && |keep| == |T| && Pushed(evs, 1) == Survivors(T, keep)
    ensures var s := Run(env, evs).stats;
            && s.missing <= |ClosedLosses(T, keep)|
            && (s.missing == |ClosedLosses(T, keep)| <==> AllShort(T, keep))
            && s.lossEvents <= GapCount(T, keep)
            && (s.lossEvents == GapCount(T, keep) <==> NoneHidden(T, keep))
            && (AllShort(T, keep) ==> NoneHidden(T, keep))
  {
    hide Run, Metered, ClosedLosses;
    RunMeters(env, evs);
    CountingIsExactIff(T, keep);
    LostBetweenIsClosed(T, keep);
  }

  /** Over every run in which the secondary delivers a clean stream whole, packets
      without payload included, no loss is counted. */
  lemma CleanRunCountsNothing(env: Env, evs: seq<Event>)
    requires CleanStream(Pushed(evs, 1))
    ensures Run(env, evs).stats.lossEvents == 0 && Run(env, evs).stats.missing == 0
  {
    hide Run, Metered;
    RunMeters(env, evs);
    CleanCountsNothing(Pushed(evs, 1));
  }
}
