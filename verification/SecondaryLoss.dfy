/** Loss on the secondary path never disturbs the output: while the primary
    delivers a clean source in full, the output is that source, packet for
    packet, whatever the secondary loses and however the inputs interleave. */
module SecondaryLoss {
  import opened Packets
  import opened State
  import opened Gaps
  import opened Receive
  import opened Drain
  import opened Decisions
  import opened Protocol
  import opened Invariants
  import opened Refinement
  import opened Sources

  // ------------------------------------------------------------- one drain pass

  /** Every packet sent so far is a primary, in order and without exception. */
  predicate PassedOn(e: Engine) {
    && |e.out| == |e.fates| <= |e.h0.log|
    && forall i | 0 <= i < |e.out| :: e.out[i] == Emission(Direct, e.h0.log[i])
  }

  /** The primary delivered S so far, the secondary a copy with losses, and
      the output is what the primary delivered. */
  predicate Undisturbed(e: Engine, S: seq<Packet>, F: seq<nat>) {
    && |e.h0.log| <= |S| && (forall i | 0 <= i < |e.h0.log| :: e.h0.log[i].packet == S[i])
    && CopyWithLosses(e.h1.log, S, F)
    && PassedOn(e) && e.outCc == ObserveAll(map[], S[..|e.fates|])
    && e.active == 0 && e.lastOut1.None? && e.stats.rejects == multiset{} && e.stats.recovered == 0
    && AnchoredAt(e, F, e.anchor.p)
  }

  lemma FrontUndisturbed(env: Env, e: Engine, S: seq<Packet>, F: seq<nat>)
    requires CleanSource(S) && Inv(e) && Undisturbed(e, S, F) && e.q0 != []
    ensures Undisturbed(ProcessFront(env, e).e, S, F)
  {
    var n := |e.fates|;
    var p := e.q0[0];
    SourceFits(S, 0, n);
    NothingMissingIsKept(env.cfg, e, p, S, F, n, e.anchor.p);
    AnchorOfSource(env.cfg, e, p, S, F, n);
    var m := AnchorMatch(e, p, FindCandidates(env.cfg, e, p));
    assert ProcessFront(env, e) == EmitPrimary(env, e, m);
    EmissionUndisturbed(env, e, S, F, m);
  }

  lemma PassedOnStep(e: Engine, e': Engine, x: Fate)
    requires PassedOn(e) && |e.fates| < |e.h0.log| && e'.h0 == e.h0
    requires e'.out == e.out + [Emission(Direct, e.h0.log[|e.fates|])] && e'.fates == e.fates + [x]
    ensures PassedOn(e')
  {
  }

  lemma SourceStep(S: seq<Packet>, n: nat)
    requires n < |S|
    ensures ObserveAll(map[], S[..n + 1]) == Observe(ObserveAll(map[], S[..n]), S[n])
  {
    FitsAllSplit(map[], S[..n], [S[n]]);
    assert S[..n + 1] == S[..n] + [S[n]];
    ObserveOne(ObserveAll(map[], S[..n]), S[n]);
  }

  lemma EmissionUndisturbed(env: Env, e: Engine, S: seq<Packet>, F: seq<nat>, m: Option<Record>)
    requires Structured(e) && Undisturbed(e, S, F) && e.q0 != []
    requires m.Some? && BoundsMatch(e.q0[0], m.value) ==> FromSecondary(e, m.value) && F[m.value.index] == |e.fates|
    ensures Undisturbed(EmitPrimary(env, e, m).e, S, F)
  {
    hide PassedOn, ObserveAll, Observe, RepeatsCounter, BreaksCounter;
    SourceStep(S, |e.fates|);
    var o := EmitPrimary(env, e, m);
    if o.ok {
      assert PassedOn(e);
      PassedOnStep(e, o.e, Emitted);
    } else {
      PassedOnSame(e, o.e);
    }
  }

  lemma PassedOnSame(e: Engine, e': Engine)
    requires PassedOn(e) && e'.h0 == e.h0 && e'.out == e.out && e'.fates == e.fates
    ensures PassedOn(e')
  {
  }

  lemma ObserveOne(states: Counters, p: Packet)
    ensures ObserveAll(states, [p]) == Observe(states, p)
  {
    assert [p][1..] == [];
  }

  /** No clock reading of [from, to) finds the primary silent. */
  predicate NeverSilent(env: Env, e: Engine, from: nat, to: nat) {
    forall t | from <= t < to :: !Silent(env.cfg, e, env.clock(t))
  }

  lemma {:induction false} LoopUndisturbed(env: Env, e: Engine, force: bool, S: seq<Packet>, F: seq<nat>)
    requires CleanSource(S) && Inv(e) && Undisturbed(e, S, F)
    requires NeverSilent(env, e, e.tick, Loop(env, e, force).e.tick)
    ensures Undisturbed(Loop(env, e, force).e, S, F)
    decreases |e.q0|, 1
  {
    hide Turn, CleanSource, Inv, Silent;
    var e1 := Apply(env, e, Clock);
    MoveKeepsInv(env, e, Clock);
    LoopKeepsInputs(env, e, force);
    assert !Silent(env.cfg, e, env.clock(e.tick));
    SilenceIsSame(env, e, e1);
    assert Undisturbed(e1, S, F);
    if e.q0 != [] {
      TurnUndisturbed(env, e1, force, env.clock(e.tick), S, F);
    }
  }

  lemma SilenceIsSame(env: Env, e: Engine, f: Engine)
    requires e.lastIn0 == f.lastIn0 && e.lastIn1 == f.lastIn1
    ensures forall now: nat :: Silent(env.cfg, e, now) == Silent(env.cfg, f, now)
  {
  }

  lemma {:induction false} TurnUndisturbed(env: Env, e: Engine, force: bool, now: nat, S: seq<Packet>, F: seq<nat>)
    requires CleanSource(S) && Inv(e) && Undisturbed(e, S, F) && e.q0 != []
    requires NeverSilent(env, e, e.tick, Turn(env, e, force, now).e.tick)
    ensures Undisturbed(Turn(env, e, force, now).e, S, F)
    decreases |e.q0|, 0
  {
    hide ProcessFront, Loop, CleanSource, Inv, Silent;
    if !NotDue(env.cfg, e.q0[0], force, now) {
      FrontKeepsInputs(env, e);
      FrontKeepsInv(env, e);
      FrontUndisturbed(env, e, S, F);
      var o := ProcessFront(env, e);
      SilenceIsSame(env, e, o.e);
      if o.ok { LoopUndisturbed(env, o.e, force, S, F); }
    }
  }

  lemma DispatchUndisturbed(env: Env, e: Engine, force: bool, now: nat, S: seq<Packet>, F: seq<nat>)
    requires CleanSource(S) && Inv(e) && Undisturbed(e, S, F) && !Silent(env.cfg, e, now)
    requires NeverSilent(env, e, e.tick, Dispatch(env, e, force, now).e.tick)
    ensures Undisturbed(Dispatch(env, e, force, now).e, S, F)
  {
    hide Loop, CleanSource, Inv, Silent;
    assert PrimaryTrimmed(e) == e && SetActive(e, 0) == e;
    if e.q0 != [] {
      LoopUndisturbed(env, e, force, S, F);
    }
  }

  /** A drain that never finds the primary silent leaves the output undisturbed. */
  lemma DrainUndisturbed(env: Env, e: Engine, force: bool, S: seq<Packet>, F: seq<nat>)
    requires CleanSource(S) && Inv(e) && Undisturbed(e, S, F)
    requires NeverSilent(env, e, e.tick, DrainOnce(env, e, force).e.tick)
    ensures Undisturbed(DrainOnce(env, e, force).e, S, F)
  {
    hide Dispatch, CleanSource, Inv, Silent;
    var e1 := Opened(env, e);
    OpenedKeepsInv(env, e);
    DrainKeepsInputs(env, e, force);
    SilenceIsSame(env, e, e1);
    DispatchUndisturbed(env, e1, force, env.clock(e.tick), S, F);
  }

  // ------------------------------------------------------------------ whole runs

  /** The packets received on stream k, in order. */
  function Pushed(evs: seq<Event>, k: StreamId): seq<Packet>
    decreases |evs|
  {
    if evs == [] then [] else
      var past, last := Pushed(evs[..|evs| - 1], k), evs[|evs| - 1];
      if last.Push? && last.stream == k then past + [last.packet] else past
  }

  lemma {:induction false} LogsArePushed(env: Env, evs: seq<Event>)
    ensures PacketsOf(Run(env, evs).h0.log) == Pushed(evs, 0)
    ensures PacketsOf(Run(env, evs).h1.log) == Pushed(evs, 1)
    decreases |evs|
  {
    if evs != [] {
      hide DrainOnce, Inv;
      var past, last := evs[..|evs| - 1], evs[|evs| - 1];
      LogsArePushed(env, past);
      RunKeepsInv(env, past);
      var e := Run(env, past);
      LogStep(env, e, last);
      DrainKeepsInputs(env, Received(env, e, last), last.Tick? && last.force);
    }
  }

  lemma LogStep(env: Env, e: Engine, ev: Event)
    requires Inv(e)
    ensures var o := Received(env, e, ev);
            && PacketsOf(o.h0.log) == (if ev.Push? && ev.stream == 0 then PacketsOf(e.h0.log) + [ev.packet] else PacketsOf(e.h0.log))
            && PacketsOf(o.h1.log) == (if ev.Push? && ev.stream == 1 then PacketsOf(e.h1.log) + [ev.packet] else PacketsOf(e.h1.log))
  {
    if ev.Push? {
      ReceivedHistory(env, e, ev.stream, ev.packet);
    }
  }

  lemma ArrivalUndisturbed(env: Env, e: Engine, k: StreamId, p: Packet, S: seq<Packet>, F: seq<nat>)
    requires Structured(e) && Undisturbed(e, S, F)
    requires k == 0 ==> |e.q0| < env.cfg.capacity && |e.h0.log| < |S| && p == S[|e.h0.log|]
    requires k == 1 ==> |e.h1.log| < |F| && p == S[F[|e.h1.log|]]
    ensures Undisturbed(Ingest(env, e, k, p), S, F)
  {
    ReceivedHistory(env, e, k, p);
    hide NewHistory, NewAlignment, ObserveAll, GapSize;
  }

  /** At no clock reading of the run is the primary silent beyond the outage;
      with the outage test switched off this is always so. */
  predicate PrimaryAlive(env: Env, evs: seq<Event>) {
    forall k | 0 <= k < |evs| ::
      NeverSilent(env, Before(env, evs, k), Before(env, evs, k).tick, Run(env, evs[..k + 1]).tick)
  }

  lemma OutageOffIsAlive(env: Env, evs: seq<Event>)
    requires env.cfg.outage == 0
    ensures PrimaryAlive(env, evs)
  {
    hide Run, Received;
  }

  lemma AlivePrefix(env: Env, evs: seq<Event>)
    requires evs != [] && PrimaryAlive(env, evs)
    ensures PrimaryAlive(env, evs[..|evs| - 1])
    ensures var n := |evs| - 1; var b := Before(env, evs, n); NeverSilent(env, b, b.tick, Run(env, evs).tick)
  {
    hide Run, Received, NeverSilent;
    var n := |evs| - 1;
    var past := evs[..n];
    assert evs[..n + 1] == evs;
    forall k | 0 <= k < n
      ensures NeverSilent(env, Before(env, past, k), Before(env, past, k).tick, Run(env, past[..k + 1]).tick)
    {
      assert past[..k] == evs[..k] && past[..k + 1] == evs[..k + 1];
      assert NeverSilent(env, Before(env, evs, k), Before(env, evs, k).tick, Run(env, evs[..k + 1]).tick);
    }
  }

  /** What a run receives: the primary a prefix of the source, the secondary
      a copy of it with any losses. */
  predicate Feeds(evs: seq<Event>, S: seq<Packet>, F: seq<nat>) {
    && Pushed(evs, 0) <= S && Rising(F, |S|)
    && |Pushed(evs, 1)| <= |F| && forall i | 0 <= i < |Pushed(evs, 1)| :: Pushed(evs, 1)[i] == S[F[i]]
  }

  lemma FeedsStep(env: Env, evs: seq<Event>, S: seq<Packet>, F: seq<nat>)
    requires evs != [] && Feeds(evs, S, F)
    ensures Feeds(evs[..|evs| - 1], S, F)
    ensures var e, ev := Run(env, evs[..|evs| - 1]), evs[|evs| - 1];
            && (ev.Push? && ev.stream == 0 ==> |e.h0.log| < |S| && ev.packet == S[|e.h0.log|])
            && (ev.Push? && ev.stream == 1 ==> |e.h1.log| < |F| && ev.packet == S[F[|e.h1.log|]])
  {
    hide Run;
    var past, ev := evs[..|evs| - 1], evs[|evs| - 1];
    LogsArePushed(env, past);
    if ev.Push? && ev.stream == 0 {
      assert Pushed(evs, 0)[|Pushed(past, 0)|] == ev.packet;
    } else if ev.Push? {
      assert Pushed(evs, 1)[|Pushed(past, 1)|] == ev.packet;
    }
  }

  lemma OverflowStep(env: Env, e: Engine, ev: Event)
    requires Inv(e) && Step(env, e, ev).stats.overflows == 0
    ensures e.stats.overflows == 0 && (ev.Push? && ev.stream == 0 ==> |e.q0| < env.cfg.capacity)
  {
    hide DrainOnce, Inv;
    StepKeepsInv(env, e, ev);
  }

  lemma {:induction false} RunUndisturbed(env: Env, evs: seq<Event>, S: seq<Packet>, F: seq<nat>)
    requires CleanSource(S) && Feeds(evs, S, F) && PrimaryAlive(env, evs) && Run(env, evs).stats.overflows == 0
    ensures Undisturbed(Run(env, evs), S, F)
    decreases |evs|
  {
    hide CleanSource, Inv, DrainOnce, Ingest, PrimaryAlive, Feeds, NeverSilent, Undisturbed, Later;
    if evs == [] {
      InitialUndisturbed(evs, S, F);
    } else {
      var past, ev := evs[..|evs| - 1], evs[|evs| - 1];
      var e := Run(env, past);
      RunKeepsInv(env, past);
      StepKeepsInv(env, e, ev);
      OverflowStep(env, e, ev);
      AlivePrefix(env, evs);
      FeedsStep(env, evs, S, F);
      RunUndisturbed(env, past, S, F);
      ArrivesUndisturbed(env, e, ev, S, F);
      DrainUndisturbed(env, Received(env, e, ev), ev.Tick? && ev.force, S, F);
    }
  }

  lemma InitialUndisturbed(evs: seq<Event>, S: seq<Packet>, F: seq<nat>)
    requires Feeds(evs, S, F)
    ensures Undisturbed(Initial, S, F)
  {
    assert S[..0] == [];
  }

  lemma ArrivesUndisturbed(env: Env, e: Engine, ev: Event, S: seq<Packet>, F: seq<nat>)
    requires Inv(e) && Undisturbed(e, S, F)
    requires ev.Push? && ev.stream == 0 ==> |e.q0| < env.cfg.capacity && |e.h0.log| < |S| && ev.packet == S[|e.h0.log|]
    requires ev.Push? && ev.stream == 1 ==> |e.h1.log| < |F| && ev.packet == S[F[|e.h1.log|]]
    ensures Undisturbed(Received(env, e, ev), S, F)
  {
    hide Ingest;
    if ev.Push? {
      ArrivalUndisturbed(env, e, ev.stream, ev.packet, S, F);
    }
  }

  function SentPackets(out: seq<Emission>): (ps: seq<Packet>)
    ensures |ps| == |out|
    ensures forall i | 0 <= i < |out| :: ps[i] == out[i].r.packet
  {
    seq(|out|, i requires 0 <= i < |out| => out[i].r.packet)
  }

  lemma OutputThenQueue(e: Engine, S: seq<Packet>, F: seq<nat>)
    requires Structured(e) && Undisturbed(e, S, F)
    ensures SentPackets(e.out) + PacketsOf(e.q0) == PacketsOf(e.h0.log)
  {
    hide Rising, ObserveAll;
    assert e.h0.log == e.h0.log[..|e.fates|] + e.q0;
    assert SentPackets(e.out) == PacketsOf(e.h0.log[..|e.fates|]);
  }

  /** Secondary loss is harmless: over every interleaving, what was sent
      followed by what is queued is exactly what the primary received, with no
      recovery, no reject and no fail-over. */
  lemma SecondaryLossIsHarmless(env: Env, evs: seq<Event>, S: seq<Packet>, F: seq<nat>)
    requires CleanSource(S) && Feeds(evs, S, F) && PrimaryAlive(env, evs) && Run(env, evs).stats.overflows == 0
    ensures var e := Run(env, evs);
            && SentPackets(e.out) + PacketsOf(e.q0) == Pushed(evs, 0)
            && (forall i | 0 <= i < |e.out| :: e.out[i].via == Direct)
            && e.stats.recovered == 0 && e.stats.rejects == multiset{}
  {
    hide CleanSource, Feeds, PrimaryAlive, Run, ObserveAll, Ledger, Sourced, Anchored, Accounted, AlignmentSound;
    RunUndisturbed(env, evs, S, F);
    RunKeepsInv(env, evs);
    LogsArePushed(env, evs);
    OutputThenQueue(Run(env, evs), S, F);
  }
}
