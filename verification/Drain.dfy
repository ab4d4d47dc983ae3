/** Carrying decisions out: the drain loop, the fail-over to the secondary and
    the return, and runs of the whole engine. */
module Drain {
  import opened Packets
  import opened State
  import opened Gaps
  import opened Receive

  // ------------------------------------------------------- fail-over to stream 1

  /** primary_is_silent_beyond_outage */
  predicate Silent(cfg: Config, e: Engine, now: nat) {
    cfg.outage != 0 && e.lastIn1 != 0 && e.lastIn0 != 0 && e.lastIn0 <= now && now - e.lastIn0 >= cfg.outage
  }

  /** The highest secondary index the primary output already covers. */
  function Cutoff(e: Engine): Option<nat> {
    var image := if e.align.has && e.lastOut0.Some? then e.lastOut0.value + e.align.offset else -1;
    if e.anchor.valid then Some(if image > e.anchor.s then image else e.anchor.s)
    else if image >= 0 then Some(image)
    else None
  }

  /** discard_secondary_records_through */
  function DropThrough(q: seq<Record>, i: nat): seq<Record>
    decreases |q|
  {
    if q != [] && q[0].index <= i then DropThrough(q[1..], i) else q
  }

  /** discard_secondary_records_already_output_by_primary */
  function SecondaryTrimmed(e: Engine): Engine {
    if Cutoff(e).None? then e else e.(q1 := DropThrough(e.q1, Cutoff(e).value))
  }

  predicate NotDue(cfg: Config, r: Record, force: bool, now: nat) {
    !force && r.arrival <= now && now - r.arrival < cfg.primaryDelay
  }

  /** The secondary at the head of the queue is sent. */
  function StandIn(env: Env, e: Engine): (r: Res)
    requires e.q1 != []
    ensures r.ok ==> r.e.q1 == e.q1[1..]
  {
    var sent := Send(env, SetActive(e, 1), e.q1[0], Failover);
    if sent.ok then Res(true, sent.e.(q1 := e.q1[1..])) else sent
  }

  /** The emission loop of drain_secondary_on_primary_outage. */
  function FailoverLoop(env: Env, e: Engine, force: bool): Res
    decreases |e.q1|
  {
    if e.q1 == [] then Res(true, e) else
      var e1 := e.(tick := e.tick + 1);
      if NotDue(env.cfg, e.q1[0], force, env.clock(e.tick)) then Res(true, e1) else
        var o := StandIn(env, e1);
        if o.ok && force then FailoverLoop(env, o.e, force) else o
  }

  /** drain_secondary_on_primary_outage */
  function FailoverDrain(env: Env, e: Engine, force: bool, now: nat): Res {
    if e.active != 1 && !Silent(env.cfg, e, now) then Res(true, e)
    else FailoverLoop(env, SecondaryTrimmed(e), force)
  }

  /** primary_return_holdoff_elapsed: its effect */
  function HoldoffNoted(cfg: Config, e: Engine, now: nat): Engine {
    if e.active != 1 || Silent(cfg, e, now) || e.lastIn0 == 0 then e.(returnStart := 0)
    else if e.returnStart == 0 then e.(returnStart := now)
    else e
  }

  /** primary_return_holdoff_elapsed: its result, on the updated state */
  predicate ReturnReady(cfg: Config, e: Engine, now: nat) {
    e.active != 1 ||
    (!Silent(cfg, e, now) && e.lastIn0 != 0 && Minus64(now, e.returnStart) >= cfg.primaryReturn)
  }

  /** primary_record_already_output_by_secondary */
  predicate AlreadyOutput(e: Engine, p: Record) {
    e.align.has && e.lastOut1.Some? && 0 <= p.index + e.align.offset <= e.lastOut1.value
  }

  /** The primary at the head of the queue leaves it. */
  function Popped(e: Engine, fate: Fate): Engine
    requires e.q0 != []
  {
    e.(q0 := e.q0[1..], fates := e.fates + [fate])
  }

  /** discard_primary_records_already_output_by_secondary */
  function PrimaryTrimmed(e: Engine): (r: Engine)
    ensures |r.q0| <= |e.q0|
    decreases |e.q0|
  {
    if e.q0 != [] && AlreadyOutput(e, e.q0[0]) then PrimaryTrimmed(Popped(e, Discarded)) else e
  }

  // ------------------------------------------------------------- the drain loop

  /** update_primary_anchor */
  function AnchorUpdated(e: Engine, p: Record, m: Option<Record>): Engine {
    if m.Some? && BoundsMatch(p, m.value) then e.(anchor := Anchor(true, p.index, m.value.index)) else e
  }

  /** The primary itself is sent and leaves the queue. */
  function EmitPrimary(env: Env, e: Engine, m: Option<Record>): Res
    requires e.q0 != []
  {
    var sent := Send(env, e, e.q0[0], Direct);
    if !sent.ok then sent else Res(true, Popped(AnchorUpdated(sent.e, e.q0[0], m), Emitted))
  }

  /** What the stages do to the engine when the plan is carried out. */
  function CarryOut(env: Env, e: Engine, p: Record, plan: Plan): Res {
    match plan
    case Keep => Res(true, e)
    case Refuse(why) => Res(true, Refused(e, p.packet, why))
    case Insert(rs, burst) =>
      var o := SendGap(env, e, rs);
      if o.ok then Res(true, WithBurst(o.e, burst)) else o
    case Replace(r) =>
      var o := Send(env, e, r, TeiFix);
      if o.ok then Res(true, Recovered(o.e, false)) else o
  }

  lemma {:induction false} SendGapKeepsQueues(env: Env, e: Engine, rs: seq<Record>)
    ensures var o := SendGap(env, e, rs).e;
            o.q0 == e.q0 && o.q1 == e.q1 && o.fates == e.fates && o.h0 == e.h0 && o.h1 == e.h1 &&
            o.anchor == e.anchor && o.align == e.align && o.active == e.active && o.tick == e.tick &&
            o.lastIn0 == e.lastIn0 && o.lastIn1 == e.lastIn1 && o.returnStart == e.returnStart && o.in1 == e.in1 &&
            o.stats.lossEvents == e.stats.lossEvents && o.stats.missing == e.stats.missing &&
            o.stats.switches0 == e.stats.switches0 && o.stats.switches1 == e.stats.switches1
    decreases |rs|
  {
    if rs != [] && env.sinkOk(e.sends) {
      SendGapKeepsQueues(env, Recovered(Accepted(e, rs[0], Gap), rs[0].packet.isNull), rs[1..]);
    }
  }

  /** One turn of the loop once the primary at the head is due. */
  function ProcessFront(env: Env, e: Engine): (r: Res)
    requires e.q0 != []
    ensures r.ok ==> r.e.q0 == e.q0[1..]
  {
    var p := e.q0[0];
    var m := AnchorMatch(e, p, FindCandidates(env.cfg, e, p));
    var plan := PrimaryPlan(env.cfg, e, p);
    var o := CarryOut(env, e, p, plan);
    assert o.e.q0 == e.q0 by {
      if plan.Insert? { SendGapKeepsQueues(env, e, plan.rs); }
    }
    if !o.ok then o
    else if plan.Replace? then Res(true, Popped(o.e, Replaced))
    else EmitPrimary(env, o.e, m)
  }

  /** The while loop of recovery_engine_drain and what follows it. */
  function Loop(env: Env, e: Engine, force: bool): Res
    decreases |e.q0|, 1
  {
    var now := env.clock(e.tick);
    var e1 := e.(tick := e.tick + 1);
    if e.q0 == [] then FailoverDrain(env, e1, force, now)
    else if e.active == 0 then Turn(env, e1, force, now)
    else
      var e2 := HoldoffNoted(env.cfg, e1, now);
      if ReturnReady(env.cfg, e2, now) then Turn(env, SetActive(e2, 0), force, now)
      else FailoverDrain(env, e2, force, now)
  }

  /** A turn of the loop once the primary is the source. */
  function Turn(env: Env, e: Engine, force: bool, now: nat): Res
    requires e.q0 != []
    decreases |e.q0|, 0
  {
    if NotDue(env.cfg, e.q0[0], force, now) then Res(true, e) else
      var o := ProcessFront(env, e);
      if o.ok then Loop(env, o.e, force) else o
  }

  /** The part of a drain that serves the primary queue. */
  function Served(env: Env, e: Engine, force: bool, now: nat): Res {
    var e1 := PrimaryTrimmed(e);
    if e1.q0 == [] then
      if e1.active == 1 then Res(true, e1) else FailoverDrain(env, e1, force, now)
    else Loop(env, SetActive(e1, 0), force)
  }

  /** The drain once the return hold-off has been looked at. */
  function Dispatch(env: Env, e: Engine, force: bool, now: nat): Res {
    var ready := ReturnReady(env.cfg, e, now);
    if e.q0 == [] then
      if e.active == 1 && ready then Res(true, e) else FailoverDrain(env, e, force, now)
    else if !ready then FailoverDrain(env, e, force, now)
    else Served(env, e, force, now)
  }

  /** The state after the clock reading and the hold-off check at the start of a drain. */
  function Opened(env: Env, e: Engine): Engine {
    HoldoffNoted(env.cfg, e.(tick := e.tick + 1), env.clock(e.tick))
  }

  /** recovery_engine_drain */
  function DrainOnce(env: Env, e: Engine, force: bool): Res {
    Dispatch(env, Opened(env, e), force, env.clock(e.tick))
  }

  // ----------------------------------------------------------------------- runs

  /** A call of the engine: a received packet, or a drain on its own. */
  datatype Event = Push(stream: StreamId, packet: Packet) | Tick(force: bool)

  /** The state in which the drain of an event starts. */
  function Received(env: Env, e: Engine, ev: Event): Engine {
    if ev.Push? then Ingest(env, e, ev.stream, ev.packet) else e
  }

  function Step(env: Env, e: Engine, ev: Event): Engine {
    DrainOnce(env, Received(env, e, ev), ev.Tick? && ev.force).e
  }

  /** The state after a run of calls; a call that failed may be followed by more. */
  function Run(env: Env, evs: seq<Event>): Engine
    decreases |evs|
  {
    if evs == [] then Initial else Step(env, Run(env, evs[..|evs| - 1]), evs[|evs| - 1])
  }

  /** The state in which the drain of event k starts. */
  function Before(env: Env, evs: seq<Event>, k: nat): Engine
    requires k < |evs|
  {
    Received(env, Run(env, evs[..k]), evs[k])
  }
}
