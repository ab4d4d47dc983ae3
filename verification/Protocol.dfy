/** The engine seen as a protocol: thirteen kinds of move, each with the
    condition under which it may be taken.  Refinement.dfy shows that every
    call of the engine is a sequence of such moves, so what every move keeps
    holds in every reachable state. */
module Protocol {
  import opened Packets
  import opened State
  import opened Receive
  import opened Drain
  import opened Decisions

  /** The records that reached the sink in a given way, in order. */
  function Through(out: seq<Emission>, via: Via): seq<Record>
    decreases |out|
  {
    if out == [] then [] else
      var last := out[|out| - 1];
      if last.via == via then Through(out[..|out| - 1], via) + [last.r] else Through(out[..|out| - 1], via)
  }

  /** Reported trouble and unverified output, less counted continuity damage. */
  function Slack(e: Engine): int {
    |e.stats.rejects| + e.stats.recoveredNull + |Through(e.out, Failover)| - e.stats.errors - e.stats.duplicates
  }

  datatype Move =
    | Clock                                   // the clock is read
    | Hold(start: nat)                        // the return hold-off is set or cleared
    | Switch(to: StreamId, reading: nat)      // the output source changes
    | SinkFails                               // the sink refuses a packet
    | Reject(p: Packet, why: Rejection)       // a reject is recorded
    | Fill(r: Record)                         // a secondary packet fills a gap
    | NoteBurst                               // a recovered burst is counted
    | Pass(m: Option<Record>)                 // the head primary is sent
    | Fix(r: Record)                          // the head primary is replaced
    | Skip                                    // the head primary is discarded
    | Trim                                    // the head secondary is discarded
    | Stand                                   // the head secondary is sent in fail-over
    | Arrive(k: StreamId, p: Packet)          // a packet is received

  /** The head of the secondary queue is news: past the anchor and past the
      image of the last primary output. */
  predicate HeadIsNews(e: Engine) {
    e.q1 != [] && (Cutoff(e).Some? ==> e.q1[0].index > Cutoff(e).value)
  }

  predicate Legal(env: Env, e: Engine, mv: Move) {
    match mv
    case Switch(k, t) =>
      e.active == k ||
      (t < e.tick && if k == 1 then e.q0 == [] && Silent(env.cfg, e, env.clock(t))
                     else e.q0 != [] && ReturnReady(env.cfg, e, env.clock(t)))
    case SinkFails => !env.sinkOk(e.sends)
    case Fill(r) => env.sinkOk(e.sends) && e.active == 0 && FromSecondary(e, r) && Fits(e.outCc, r.packet)
    case Pass(m) =>
      env.sinkOk(e.sends) && e.active == 0 && e.q0 != [] && (m.Some? ==> FromSecondary(e, m.value)) &&
      (Fits(e.outCc, e.q0[0].packet) || !e.q0[0].packet.Sound() || Slack(e) > 0)
    case Fix(r) =>
      env.sinkOk(e.sends) && e.active == 0 && e.q0 != [] && e.q0[0].packet.transportError && FromSecondary(e, r) &&
      r.packet.Content() && Fits(e.outCc, r.packet) &&
      r.packet.pid == e.q0[0].packet.pid && r.packet.cc == e.q0[0].packet.cc
    case Skip => e.q0 != [] && AlreadyOutput(e, e.q0[0])
    case Trim => e.q1 != [] && !HeadIsNews(e)
    case Stand => env.sinkOk(e.sends) && e.active == 1 && HeadIsNews(e)
    case _ => true
  }

  function Apply(env: Env, e: Engine, mv: Move): Engine
    requires Legal(env, e, mv)
  {
    match mv
    case Clock => e.(tick := e.tick + 1)
    case Hold(t) => e.(returnStart := t)
    case Switch(k, _) => SetActive(e, k)
    case SinkFails => e.(sends := e.sends + 1)
    case Reject(p, why) => Refused(e, p, why)
    case Fill(r) => Recovered(Accepted(e, r, Gap), r.packet.isNull)
    case NoteBurst => WithBurst(e, true)
    case Pass(m) => Popped(AnchorUpdated(Accepted(e, e.q0[0], Direct), e.q0[0], m), Emitted)
    case Fix(r) => Popped(Recovered(Accepted(e, r, TeiFix), false), Replaced)
    case Skip => Popped(e, Discarded)
    case Trim => e.(q1 := e.q1[1..])
    case Stand => Accepted(e, e.q1[0], Failover).(q1 := e.q1[1..])
    case Arrive(k, p) => Ingest(env, e, k, p)
  }

  /** A sequence of legal moves from e. */
  predicate Path(env: Env, e: Engine, ms: seq<Move>)
    decreases |ms|
  {
    ms == [] || (Legal(env, e, ms[0]) && Path(env, Apply(env, e, ms[0]), ms[1..]))
  }

  function After(env: Env, e: Engine, ms: seq<Move>): Engine
    requires Path(env, e, ms)
    decreases |ms|
  {
    if ms == [] then e else After(env, Apply(env, e, ms[0]), ms[1..])
  }

  lemma {:induction false} PathsJoin(env: Env, e: Engine, a: seq<Move>, b: seq<Move>)
    requires Path(env, e, a) && Path(env, After(env, e, a), b)
    ensures Path(env, e, a + b) && After(env, e, a + b) == After(env, After(env, e, a), b)
    decreases |a|
  {
    if a == [] {
      assert a + b == b;
    } else {
      assert (a + b)[1..] == a[1..] + b;
      PathsJoin(env, Apply(env, e, a[0]), a[1..], b);
    }
  }
}
