/** Every call of the engine is a sequence of legal moves of the protocol. */
module Refinement {
  import opened Packets
  import opened State
  import opened Gaps
  import opened GapFacts
  import opened Drain
  import opened Decisions
  import opened Protocol
  import opened Invariants

  /** ms leads from e to e'. */
  predicate Leads(env: Env, e: Engine, ms: seq<Move>, e': Engine) {
    Path(env, e, ms) && After(env, e, ms) == e'
  }

  lemma OneMove(env: Env, e: Engine, mv: Move)
    requires Legal(env, e, mv)
    ensures Leads(env, e, [mv], Apply(env, e, mv))
  {
    assert [mv][1..] == [];
  }

  lemma Join(env: Env, e: Engine, a: seq<Move>, mid: Engine, b: seq<Move>, e': Engine)
    requires Leads(env, e, a, mid) && Leads(env, mid, b, e')
    ensures Leads(env, e, a + b, e')
  {
    PathsJoin(env, e, a, b);
  }

  /** One legal move, then a path. */
  lemma Prepend(env: Env, e: Engine, mv: Move, ms: seq<Move>, e': Engine)
    requires Legal(env, e, mv) && Leads(env, Apply(env, e, mv), ms, e')
    ensures Leads(env, e, [mv] + ms, e')
  {
    OneMove(env, e, mv);
    Join(env, e, [mv], Apply(env, e, mv), ms, e');
  }

  // --------------------------------------------------------------- filling a gap

  /** Filling a gap with packets that fit damages nothing, and nulls add slack. */
  lemma {:induction false} GapPath(env: Env, e: Engine, rs: seq<Record>) returns (ms: seq<Move>)
    requires e.active == 0 && AllFromSecondary(e, rs) && FitsAll(e.outCc, PacketsOf(rs))
    ensures var o := SendGap(env, e, rs);
            && Leads(env, e, ms, o.e)
            && Slack(o.e) >= Slack(e)
            && (o.ok ==> o.e.outCc == ObserveAll(e.outCc, PacketsOf(rs)))
            && (o.ok && rs != [] && AllNull(PacketsOf(rs)) ==> Slack(o.e) > Slack(e))
    decreases |rs|
  {
    ms := [];
    if rs != [] {
      assert PacketsOf(rs)[0] == rs[0].packet && PacketsOf(rs)[1..] == PacketsOf(rs[1..]);
      if env.sinkOk(e.sends) {
        var e1 := Apply(env, e, Fill(rs[0]));
        SlackEmission(e, rs[0], Gap);
        var rest := GapPath(env, e1, rs[1..]);
        Prepend(env, e, Fill(rs[0]), rest, SendGap(env, e, rs).e);
        ms := [Fill(rs[0])] + rest;
      } else {
        OneMove(env, e, SinkFails);
        ms := [SinkFails];
      }
    }
  }

  // ----------------------------------------------------------- one primary packet

  /** Whether the primary may be sent without adding unreported damage. */
  predicate Excused(e: Engine, p: Packet) {
    Fits(e.outCc, p) || !p.Sound() || Slack(e) > 0
  }

  lemma PlanPath(env: Env, e: Engine, p: Record, plan: Plan) returns (ms: seq<Move>)
    requires Inv(e) && e.active == 0 && !plan.Replace? && plan == PrimaryPlan(env.cfg, e, p)
    ensures var o := CarryOut(env, e, p, plan);
            Leads(env, e, ms, o.e) && (o.ok ==> Excused(o.e, p.packet))
  {
    DecisionIsSafe(env.cfg, e, p);
    match plan
    case Keep => ms := [];
    case Refuse(why) =>
      OneMove(env, e, Reject(p.packet, why));
      ms := [Reject(p.packet, why)];
    case Insert(rs, burst) =>
      ms := GapPath(env, e, rs);
      var o := SendGap(env, e, rs);
      if o.ok && burst {
        OneMove(env, o.e, NoteBurst);
        Join(env, e, ms, o.e, [NoteBurst], WithBurst(o.e, true));
        ms := ms + [NoteBurst];
      }
  }

  lemma CandidatesAreDelivered(cfg: Config, e: Engine, p: Record)
    requires Indexed(e.h1)
    ensures var m := AnchorMatch(e, p, FindCandidates(cfg, e, p)); m.Some? ==> FromSecondary(e, m.value)
  {
    if p.packet.Content() {
      CandidatesAreExact(cfg, e, p);
    }
  }

  lemma EmitPath(env: Env, e: Engine, m: Option<Record>) returns (ms: seq<Move>)
    requires e.active == 0 && e.q0 != [] && Excused(e, e.q0[0].packet)
    requires m.Some? ==> FromSecondary(e, m.value)
    ensures Leads(env, e, ms, EmitPrimary(env, e, m).e)
  {
    var mv := if env.sinkOk(e.sends) then Pass(m) else SinkFails;
    OneMove(env, e, mv);
    ms := [mv];
  }

  lemma CarryOutKeeps(env: Env, e: Engine, p: Record, plan: Plan)
    ensures var o := CarryOut(env, e, p, plan).e;
            o.q0 == e.q0 && o.h0 == e.h0 && o.h1 == e.h1 && o.active == e.active && o.fates == e.fates && o.align == e.align && o.tick == e.tick
  {
    if plan.Insert? { SendGapKeepsQueues(env, e, plan.rs); }
  }

  lemma SentPath(env: Env, e: Engine, plan: Plan) returns (ms: seq<Move>)
    requires Inv(e) && e.active == 0 && e.q0 != []
    requires plan == PrimaryPlan(env.cfg, e, e.q0[0]) && !plan.Replace?
    ensures Leads(env, e, ms, ProcessFront(env, e).e)
  {
    var p := e.q0[0];
    CarryOutKeeps(env, e, p, plan);
    ms := PlanPath(env, e, p, plan);
    var o := CarryOut(env, e, p, plan);
    if o.ok {
      CandidatesAreDelivered(env.cfg, e, p);
      var m := AnchorMatch(e, p, FindCandidates(env.cfg, e, p));
      var last := EmitPath(env, o.e, m);
      Join(env, e, ms, o.e, last, EmitPrimary(env, o.e, m).e);
      ms := ms + last;
    }
  }

  lemma FrontPath(env: Env, e: Engine) returns (ms: seq<Move>)
    requires Inv(e) && e.active == 0 && e.q0 != []
    ensures Leads(env, e, ms, ProcessFront(env, e).e)
  {
    var p := e.q0[0];
    var plan := PrimaryPlan(env.cfg, e, p);
    if plan.Replace? {
      DecisionIsSafe(env.cfg, e, p);
      var mv := if env.sinkOk(e.sends) then Fix(plan.r) else SinkFails;
      OneMove(env, e, mv);
      ms := [mv];
    } else {
      ms := SentPath(env, e, plan);
    }
  }

  /** A turn of the loop never switches the output source. */
  lemma FrontKeepsSource(env: Env, e: Engine)
    requires e.q0 != []
    ensures ProcessFront(env, e).e.active == e.active
  {
    CarryOutKeeps(env, e, e.q0[0], PrimaryPlan(env.cfg, e, e.q0[0]));
  }

  // -------------------------------------------------------------------- fail-over

  lemma {:induction false} TrimPath(env: Env, e: Engine) returns (ms: seq<Move>)
    ensures Leads(env, e, ms, SecondaryTrimmed(e))
    decreases |e.q1|
  {
    ms := [];
    var c := Cutoff(e);
    if c.Some? && e.q1 != [] && e.q1[0].index <= c.value {
      var e1 := e.(q1 := e.q1[1..]);
      var rest := TrimPath(env, e1);
      Prepend(env, e, Trim, rest, SecondaryTrimmed(e));
      ms := [Trim] + rest;
    }
  }

  /** Everything in the secondary queue is news from the secondary. */
  predicate AllNews(e: Engine) {
    forall i | 0 <= i < |e.q1| :: e.q1[i].source == 1 && (Cutoff(e).Some? ==> e.q1[i].index > Cutoff(e).value)
  }

  lemma {:induction false} DroppedIsNews(q: seq<Record>, c: nat)
    requires forall i, j | 0 <= i < j < |q| :: q[i].index < q[j].index
    requires forall i | 0 <= i < |q| :: q[i].source == 1
    ensures forall i | 0 <= i < |DropThrough(q, c)| :: DropThrough(q, c)[i].index > c && DropThrough(q, c)[i].source == 1
    decreases |q|
  {
    if q != [] && q[0].index <= c {
      DroppedIsNews(q[1..], c);
    }
  }

  lemma TrimmedIsNews(e: Engine)
    requires Structured(e)
    ensures AllNews(SecondaryTrimmed(e))
  {
    if Cutoff(e).Some? {
      DroppedIsNews(e.q1, Cutoff(e).value);
    }
  }

  /** The output may come from the secondary: it already does, or the primary
      queue is empty and the primary was silent at clock reading t. */
  predicate MayStand(env: Env, e: Engine, t: nat) {
    e.active == 1 || (t < e.tick && e.q0 == [] && Silent(env.cfg, e, env.clock(t)))
  }

  lemma StandInPath(env: Env, e: Engine, t: nat) returns (ms: seq<Move>)
    requires AllNews(e) && e.q1 != [] && MayStand(env, e, t)
    ensures var o := StandIn(env, e);
            Leads(env, e, ms, o.e) && o.e.active == 1 && (o.ok ==> AllNews(o.e))
  {
    hide Counted, Observe, Silent, ReturnReady, Slack, Fits;
    var e1 := Apply(env, e, Switch(1, t));
    var mv := if env.sinkOk(e.sends) then Stand else SinkFails;
    OneMove(env, e1, mv);
    Prepend(env, e, Switch(1, t), [mv], StandIn(env, e).e);
    ms := [Switch(1, t)] + [mv];
  }

  lemma {:induction false} StandPath(env: Env, e: Engine, force: bool, t: nat) returns (ms: seq<Move>)
    requires AllNews(e) && MayStand(env, e, t)
    ensures Leads(env, e, ms, FailoverLoop(env, e, force).e)
    decreases |e.q1|
  {
    ms := [];
    if e.q1 != [] {
      var e1 := Apply(env, e, Clock);
      if !NotDue(env.cfg, e.q1[0], force, env.clock(e.tick)) {
        ms := StandInPath(env, e1, t);
        var o := StandIn(env, e1);
        if o.ok && force {
          var rest := StandPath(env, o.e, force, t);
          Join(env, e1, ms, o.e, rest, FailoverLoop(env, o.e, force).e);
          ms := ms + rest;
        }
      }
      Prepend(env, e, Clock, ms, FailoverLoop(env, e, force).e);
      ms := [Clock] + ms;
    }
  }

  lemma FailoverPath(env: Env, e: Engine, force: bool, t: nat) returns (ms: seq<Move>)
    requires Structured(e) && t < e.tick && (e.active == 1 || e.q0 == [])
    ensures Leads(env, e, ms, FailoverDrain(env, e, force, env.clock(t)).e)
  {
    ms := [];
    if e.active == 1 || Silent(env.cfg, e, env.clock(t)) {
      var e1 := SecondaryTrimmed(e);
      ms := TrimPath(env, e);
      TrimmedIsNews(e);
      var rest := StandPath(env, e1, force, t);
      Join(env, e, ms, e1, rest, FailoverLoop(env, e1, force).e);
      ms := ms + rest;
    }
  }

  // -------------------------------------------------------------------- the drain

  lemma {:induction false} SkipPath(env: Env, e: Engine) returns (ms: seq<Move>)
    ensures Leads(env, e, ms, PrimaryTrimmed(e))
    ensures var e' := PrimaryTrimmed(e);
            e' == e.(q0 := e'.q0, fates := e'.fates) && (e'.q0 != [] ==> !AlreadyOutput(e', e'.q0[0]))
    decreases |e.q0|
  {
    ms := [];
    if e.q0 != [] && AlreadyOutput(e, e.q0[0]) {
      var rest := SkipPath(env, Popped(e, Discarded));
      Prepend(env, e, Skip, rest, PrimaryTrimmed(e));
      ms := [Skip] + rest;
    }
  }

  /** The loop runs on the primary throughout, so it never reconsiders the
      return of the primary. */
  lemma {:induction false} LoopPath(env: Env, e: Engine, force: bool) returns (ms: seq<Move>)
    requires Inv(e) && e.active == 0
    ensures Leads(env, e, ms, Loop(env, e, force).e)
    decreases |e.q0|, 1
  {
    var e1 := Apply(env, e, Clock);
    MoveKeepsInv(env, e, Clock);
    if e.q0 == [] {
      ms := FailoverPath(env, e1, force, e.tick);
    } else {
      ms := TurnPath(env, e1, force, env.clock(e.tick));
    }
    Prepend(env, e, Clock, ms, Loop(env, e, force).e);
    ms := [Clock] + ms;
  }

  lemma {:induction false} TurnPath(env: Env, e: Engine, force: bool, now: nat) returns (ms: seq<Move>)
    requires Inv(e) && e.active == 0 && e.q0 != []
    ensures Leads(env, e, ms, Turn(env, e, force, now).e)
    decreases |e.q0|, 0
  {
    ms := [];
    if !NotDue(env.cfg, e.q0[0], force, now) {
      ms := FrontPath(env, e);
      FrontKeepsSource(env, e);
      var o := ProcessFront(env, e);
      if o.ok {
        PathKeepsInv(env, e, ms);
        var rest := LoopPath(env, o.e, force);
        Join(env, e, ms, o.e, rest, Loop(env, o.e, force).e);
        ms := ms + rest;
      }
    }
  }

  lemma ServedPath(env: Env, e: Engine, force: bool, t: nat) returns (ms: seq<Move>)
    requires Inv(e) && t < e.tick && ReturnReady(env.cfg, e, env.clock(t))
    ensures Leads(env, e, ms, Served(env, e, force, env.clock(t)).e)
  {
    var e2 := PrimaryTrimmed(e);
    ms := SkipPath(env, e);
    PathKeepsInv(env, e, ms);
    var rest := [];
    if e2.q0 == [] {
      if e2.active != 1 { rest := FailoverPath(env, e2, force, t); }
    } else {
      var e3 := Apply(env, e2, Switch(0, t));
      MoveKeepsInv(env, e2, Switch(0, t));
      rest := LoopPath(env, e3, force);
      Prepend(env, e2, Switch(0, t), rest, Loop(env, e3, force).e);
      rest := [Switch(0, t)] + rest;
    }
    Join(env, e, ms, e2, rest, Served(env, e, force, env.clock(t)).e);
    ms := ms + rest;
  }

  lemma DispatchPath(env: Env, e: Engine, force: bool, t: nat) returns (ms: seq<Move>)
    requires Inv(e) && t < e.tick
    ensures Leads(env, e, ms, Dispatch(env, e, force, env.clock(t)).e)
  {
    var now := env.clock(t);
    if e.q0 == [] && e.active == 1 && ReturnReady(env.cfg, e, now) {
      ms := [];
    } else if e.q0 == [] || !ReturnReady(env.cfg, e, now) {
      ms := FailoverPath(env, e, force, t);
    } else {
      ms := ServedPath(env, e, force, t);
    }
  }

  /** The start of a drain reads the clock and looks at the hold-off. */
  lemma HoldPath(env: Env, e: Engine) returns (ms: seq<Move>)
    requires Inv(e)
    ensures var e1 := Opened(env, e);
            Leads(env, e, ms, e1) && Inv(e1)
  {
    var e0 := Apply(env, e, Clock);
    var e1 := HoldoffNoted(env.cfg, e0, env.clock(e.tick));
    OneMove(env, e0, Hold(e1.returnStart));
    Prepend(env, e, Clock, [Hold(e1.returnStart)], e1);
    ms := [Clock] + [Hold(e1.returnStart)];
    PathKeepsInv(env, e, ms);
  }

  lemma HeldPath(env: Env, e: Engine, e1: Engine, ms: seq<Move>, force: bool, t: nat) returns (all: seq<Move>)
    requires Leads(env, e, ms, e1) && Inv(e1) && t < e1.tick
    ensures Leads(env, e, all, Dispatch(env, e1, force, env.clock(t)).e)
  {
    var rest := DispatchPath(env, e1, force, t);
    Join(env, e, ms, e1, rest, Dispatch(env, e1, force, env.clock(t)).e);
    all := ms + rest;
  }

  /** recovery_engine_drain is a sequence of legal moves. */
  lemma DrainPath(env: Env, e: Engine, force: bool) returns (ms: seq<Move>)
    requires Inv(e)
    ensures Leads(env, e, ms, DrainOnce(env, e, force).e)
  {
    ms := HoldPath(env, e);
    ms := HeldPath(env, e, Opened(env, e), ms, force, e.tick);
  }

  // ------------------------------------------------------ the parts keep Inv too

  lemma OpenedKeepsInv(env: Env, e: Engine)
    requires Inv(e)
    ensures Inv(Opened(env, e))
  {
    var ms := HoldPath(env, e);
  }

  lemma TrimKeepsInv(env: Env, e: Engine)
    requires Inv(e)
    ensures Inv(PrimaryTrimmed(e))
  {
    var ms := SkipPath(env, e);
    PathKeepsInv(env, e, ms);
  }

  lemma FrontKeepsInv(env: Env, e: Engine)
    requires Inv(e) && e.active == 0 && e.q0 != []
    ensures Inv(ProcessFront(env, e).e) && Later(e, ProcessFront(env, e).e) && ProcessFront(env, e).e.active == 0
  {
    var ms := FrontPath(env, e);
    PathKeepsInv(env, e, ms);
    FrontKeepsSource(env, e);
  }

  lemma LoopKeepsInv(env: Env, e: Engine, force: bool)
    requires Inv(e) && e.active == 0
    ensures Inv(Loop(env, e, force).e) && Later(e, Loop(env, e, force).e)
  {
    var ms := LoopPath(env, e, force);
    PathKeepsInv(env, e, ms);
  }

  // ------------------------------------------------- what a drain leaves alone

  /** Nothing about the inputs has changed. */
  predicate SameInputs(e: Engine, e': Engine) {
    && e.h0 == e'.h0 && e.h1 == e'.h1 && e.align == e'.align && e.lastIn0 == e'.lastIn0 && e.lastIn1 == e'.lastIn1
    && e.in1 == e'.in1 && e.stats.lossEvents == e'.stats.lossEvents && e.stats.missing == e'.stats.missing
  }

  lemma CarryOutKeepsInputs(env: Env, e: Engine, p: Record, plan: Plan)
    ensures var o := CarryOut(env, e, p, plan).e;
            SameInputs(e, o) && o.returnStart == e.returnStart && o.tick == e.tick && o.q0 == e.q0 && o.active == e.active
  {
    if plan.Insert? { SendGapKeepsQueues(env, e, plan.rs); }
  }

  lemma EmitKeepsInputs(env: Env, e: Engine, m: Option<Record>)
    requires e.q0 != []
    ensures var o := EmitPrimary(env, e, m).e;
            SameInputs(e, o) && o.returnStart == e.returnStart && o.tick == e.tick && o.active == e.active
  {
  }

  lemma FrontKeepsInputs(env: Env, e: Engine)
    requires e.q0 != []
    ensures var o := ProcessFront(env, e).e;
            SameInputs(e, o) && o.returnStart == e.returnStart && o.tick == e.tick && o.active == e.active
  {
    var p := e.q0[0];
    var plan := PrimaryPlan(env.cfg, e, p);
    CarryOutKeepsInputs(env, e, p, plan);
    var o := CarryOut(env, e, p, plan);
    if o.ok && !plan.Replace? {
      EmitKeepsInputs(env, o.e, AnchorMatch(e, p, FindCandidates(env.cfg, e, p)));
    }
  }

  lemma {:induction false} FailoverKeepsInputs(env: Env, e: Engine, force: bool)
    ensures var o := FailoverLoop(env, e, force).e;
            SameInputs(e, o) && o.returnStart == e.returnStart && o.q0 == e.q0 && o.tick >= e.tick
    decreases |e.q1|
  {
    hide NotDue, Observe, RepeatsCounter, BreaksCounter;
    if e.q1 != [] && !NotDue(env.cfg, e.q1[0], force, env.clock(e.tick)) {
      var o := StandIn(env, e.(tick := e.tick + 1));
      if o.ok && force { FailoverKeepsInputs(env, o.e, force); }
    }
  }

  lemma FailoverDrainKeepsInputs(env: Env, e: Engine, force: bool, now: nat)
    ensures var o := FailoverDrain(env, e, force, now).e;
            SameInputs(e, o) && o.returnStart == e.returnStart && o.q0 == e.q0 && o.tick >= e.tick
  {
    FailoverKeepsInputs(env, SecondaryTrimmed(e), force);
  }

  lemma {:induction false} LoopKeepsInputs(env: Env, e: Engine, force: bool)
    requires e.active == 0
    ensures var o := Loop(env, e, force).e; SameInputs(e, o) && o.returnStart == e.returnStart && o.tick > e.tick
    decreases |e.q0|, 1
  {
    var e1 := e.(tick := e.tick + 1);
    if e.q0 == [] {
      FailoverDrainKeepsInputs(env, e1, force, env.clock(e.tick));
    } else {
      TurnKeepsInputs(env, e1, force, env.clock(e.tick));
    }
  }

  lemma {:induction false} TurnKeepsInputs(env: Env, e: Engine, force: bool, now: nat)
    requires e.active == 0 && e.q0 != []
    ensures var o := Turn(env, e, force, now).e; SameInputs(e, o) && o.returnStart == e.returnStart && o.tick >= e.tick
    decreases |e.q0|, 0
  {
    if !NotDue(env.cfg, e.q0[0], force, now) {
      FrontKeepsInputs(env, e);
      var o := ProcessFront(env, e);
      if o.ok { LoopKeepsInputs(env, o.e, force); }
    }
  }

  lemma ServedKeepsInputs(env: Env, e: Engine, force: bool, now: nat)
    ensures var o := Served(env, e, force, now).e; SameInputs(e, o) && o.returnStart == e.returnStart && o.tick >= e.tick
  {
    var ms := SkipPath(env, e);
    var e1 := PrimaryTrimmed(e);
    if e1.q0 == [] {
      FailoverDrainKeepsInputs(env, e1, force, now);
    } else {
      LoopKeepsInputs(env, SetActive(e1, 0), force);
    }
  }

  lemma DispatchKeepsInputs(env: Env, e: Engine, force: bool, now: nat)
    ensures var o := Dispatch(env, e, force, now).e; SameInputs(e, o) && o.returnStart == e.returnStart && o.tick >= e.tick
  {
    ServedKeepsInputs(env, e, force, now);
    FailoverDrainKeepsInputs(env, e, force, now);
  }

  /** A drain changes neither histories nor alignment, and touches the return
      hold-off only at its start. */
  lemma DrainKeepsInputs(env: Env, e: Engine, force: bool)
    ensures var o := DrainOnce(env, e, force).e;
            SameInputs(e, o) && o.returnStart == Opened(env, e).returnStart && o.tick > e.tick
  {
    DispatchKeepsInputs(env, Opened(env, e), force, env.clock(e.tick));
  }

  // ---------------------------------------------------------------------- runs

  lemma DrainKeepsInv(env: Env, e: Engine, force: bool)
    requires Inv(e)
    ensures Inv(DrainOnce(env, e, force).e) && Later(e, DrainOnce(env, e, force).e)
  {
    var ms := DrainPath(env, e, force);
    PathKeepsInv(env, e, ms);
  }

  lemma StepKeepsInv(env: Env, e: Engine, ev: Event)
    requires Inv(e)
    ensures Inv(Received(env, e, ev)) && Later(e, Received(env, e, ev))
    ensures Inv(Step(env, e, ev)) && Later(Received(env, e, ev), Step(env, e, ev))
  {
    if ev.Push? {
      ArrivalKeepsInv(env, e, ev.stream, ev.packet);
    }
    DrainKeepsInv(env, Received(env, e, ev), ev.Tick? && ev.force);
  }

  lemma EmptyIsStructured(e: Engine)
    requires e.h0 == e.h1 == History([], 0) && e.q0 == e.q1 == [] && e.fates == []
    ensures Structured(e)
  {
  }

  lemma EmptyBooks(e: Engine)
    requires e.out == [] && e.fates == [] && e.stats == NoStats
    ensures Ledger(e)
  {
  }

  lemma InitialSources()
    ensures Sourced(Initial) && Anchored(Initial)
  {
    assert Through([], Failover) == [];
  }

  lemma InitialAccounts()
    ensures Accounted(Initial)
  {
    assert Through([], Failover) == [];
  }

  lemma InitialInv()
    ensures Inv(Initial)
  {
    EmptyIsStructured(Initial);
    EmptyBooks(Initial);
    InitialSources();
    InitialAccounts();
  }

  /** Every reachable state satisfies the invariants. */
  lemma {:induction false} RunKeepsInv(env: Env, evs: seq<Event>)
    ensures Inv(Run(env, evs))
    decreases |evs|
  {
    if evs == [] {
      InitialInv();
    } else {
      RunKeepsInv(env, evs[..|evs| - 1]);
      StepKeepsInv(env, Run(env, evs[..|evs| - 1]), evs[|evs| - 1]);
    }
  }

  /** Every run of the engine is a path of the protocol. */
  lemma {:induction false} RunIsAPath(env: Env, evs: seq<Event>) returns (ms: seq<Move>)
    ensures Leads(env, Initial, ms, Run(env, evs))
    decreases |evs|
  {
    ms := [];
    if evs != [] {
      var n := |evs| - 1;
      var e, ev := Run(env, evs[..n]), evs[n];
      ms := RunIsAPath(env, evs[..n]);
      RunKeepsInv(env, evs[..n]);
      StepKeepsInv(env, e, ev);
      var e1 := Received(env, e, ev);
      var rest := DrainPath(env, e1, ev.Tick? && ev.force);
      if ev.Push? {
        Prepend(env, e, Arrive(ev.stream, ev.packet), rest, Step(env, e, ev));
        rest := [Arrive(ev.stream, ev.packet)] + rest;
      }
      Join(env, Initial, ms, e, rest, Step(env, e, ev));
      ms := ms + rest;
    }
  }
}
