/** The abstract state of the recovery engine, its configuration and its
    environment.  The class in RecoveryEngine.dfy refines this state. */
module State {
  import opened Packets

  // ------------------------------------------------------------- configuration

  type Capacity = n: nat | 8192 <= n <= 1048576 witness 8192
  type Burst = n: nat | n <= 255
  type Percent = n: nat | n <= 100

  datatype Config = Config(primaryDelay: nat, alignmentWindow: nat, historyMs: nat,
                           outage: nat, primaryReturn: nat,
                           minConfidence: Percent, maxBurst: Burst, capacity: Capacity)

  /** What the engine cannot control: the value of its k-th clock reading and
      whether the sink accepts its k-th send. */
  datatype Env = Env(cfg: Config, clock: nat -> nat, sinkOk: nat -> bool)

  const TWO64: nat := 0x1_0000_0000_0000_0000
  const TWO32: nat := 0x1_0000_0000

  /** Unsigned 64-bit subtraction. */
  function Minus64(a: nat, b: nat): int {
    if b <= a then a - b else a - b + TWO64
  }

  // ------------------------------------------------------------------ history

  /** A stream's history: everything ever received, and the first index still
      retained.  The ring buffer holds exactly log[lo..]. */
  datatype History = History(log: seq<Record>, lo: nat)

  /** packet_history_find_index */
  function Find(h: History, i: int): Option<Record> {
    if h.lo <= i < |h.log| then Some(h.log[i]) else None
  }

  /** The n retained records from index i on. */
  function Span(h: History, i: nat, n: nat): seq<Record> {
    if i + n <= |h.log| then h.log[i..i + n] else []
  }

  // -------------------------------------------------------------------- state

  datatype Alignment = Alignment(has: bool, offset: int, confidence: nat, misses: nat)

  /** The last primary packet whose secondary copy is known; the indexes are
      zero until the first one is found. */
  datatype Anchor = Anchor(valid: bool, p: nat, s: nat)

  datatype RejectKind =
    | LowAlignment | SecondaryLate | Tei | Discontinuity | WrongPid
    | WrongCounter | Ambiguous | BurstTooLarge | MissingCandidate

  /** The reason strings of the decision log. */
  datatype Reason =
    | NotNullGap | NotMixedGap | NotContentGap | NoCandidate
    | NullBurstTooBig | MixedBurstTooBig | BurstTooBig | LowConfidence
    | BeforeAnchor | AfterAnchor | StalePrefix | NoAfterAnchor
    | SecondaryTei | SecondaryDiscontinuity | PrimaryDiscontinuity | PrimaryNotContent
    | NullCandidate | OtherPid | OtherCounter | CounterContradiction
    | SecondaryCounter | AfterAnchorCounter
    | MultipleCandidates | MultipleValid | TooMany | NoAnchorOrCandidate

  datatype Rejection = Rejection(kind: RejectKind, reason: Reason, missing: nat, hasMissing: bool)

  /** The counters of report_stats the engine updates.  `rejects` holds one
      element per recorded reject, so rejects[k] is recovery_rejects[k]. */
  datatype Stats = Stats(output: nat, datagrams: nat, errors: nat, duplicates: nat,
                         recovered: nat, recoveredNull: nat, recoveredContent: nat, bursts: nat,
                         rejects: multiset<RejectKind>, unrecoverable: nat,
                         lossEvents: nat, missing: nat, overflows: nat,
                         switches0: nat, switches1: nat)

  /** How a packet reached the sink. */
  datatype Via = Direct | Gap | TeiFix | Failover

  datatype Emission = Emission(via: Via, r: Record)

  /** What became of a primary packet when it left the delay queue. */
  datatype Fate = Emitted | Replaced | Overflowed | Discarded

  datatype Engine = Engine(
    h0: History, h1: History, q0: seq<Record>, q1: seq<Record>,
    lastIn0: nat, lastIn1: nat,
    lastOut0: Option<nat>, lastOut1: Option<nat>,
    active: StreamId, returnStart: nat,
    align: Alignment, anchor: Anchor,
    in1: Counters, outCc: Counters,
    stats: Stats,
    tick: nat, sends: nat,          // clock readings and sends so far
    out: seq<Emission>,             // what the sink accepted
    fates: seq<Fate>)               // one per primary that left the queue

  const NoStats: Stats := Stats(0, 0, 0, 0, 0, 0, 0, 0, multiset{}, 0, 0, 0, 0, 0, 0)

  const Initial: Engine :=
    Engine(History([], 0), History([], 0), [], [], 0, 0, None, None, 0, 0,
           Alignment(false, 0, 0, 0), Anchor(false, 0, 0), map[], map[], NoStats, 0, 0, [], [])

  /** The outcome of a call that can fail because the sink does. */
  datatype Res = Res(ok: bool, e: Engine)

  // ------------------------------------------------------------------ rejects

  /** observe_unrecoverable_primary_gap */
  function Unrecoverable(p: Packet, why: Rejection): nat {
    if why.hasMissing && p.Content() && why.reason != NullCandidate && why.reason != NullBurstTooBig
    then why.missing else 0
  }

  /** recovery_reject_log */
  function Refused(e: Engine, p: Packet, why: Rejection): Engine {
    e.(stats := e.stats.(rejects := e.stats.rejects + multiset{why.kind},
                         unrecoverable := e.stats.unrecoverable + Unrecoverable(p, why)))
  }

  // ------------------------------------------------------------------- output

  /** One more packet sent, and a datagram for every seventh. */
  function Packed(s: Stats): Stats {
    s.(output := s.output + 1, datagrams := if (s.output + 1) % 7 == 0 then s.datagrams + 1 else s.datagrams)
  }

  /** Continuity damage counted against the given state. */
  function Judged(s: Stats, states: Counters, p: Packet): Stats {
    s.(duplicates := s.duplicates + (if RepeatsCounter(states, p) then 1 else 0),
       errors := s.errors + (if BreaksCounter(states, p) then 1 else 0))
  }

  /** The counters after the sink accepted p in the given continuity state. */
  function Counted(s: Stats, states: Counters, p: Packet): Stats {
    Judged(Packed(s), states, p)
  }

  /** output_record when the sink accepts */
  function Accepted(e: Engine, r: Record, via: Via): Engine {
    e.(sends := e.sends + 1,
       out := e.out + [Emission(via, r)],
       lastOut0 := if r.source == 0 then Some(r.index) else e.lastOut0,
       lastOut1 := if r.source == 1 then Some(r.index) else e.lastOut1,
       outCc := Observe(e.outCc, r.packet),
       stats := Counted(e.stats, e.outCc, r.packet))
  }

  /** output_record */
  function Send(env: Env, e: Engine, r: Record, via: Via): Res {
    if env.sinkOk(e.sends) then Res(true, Accepted(e, r, via))
    else Res(false, e.(sends := e.sends + 1))
  }

  /** report_stats_observe_recovery */
  function Recovered(e: Engine, isNull: bool): Engine {
    e.(stats := e.stats.(
       recovered := e.stats.recovered + 1,
       recoveredNull := e.stats.recoveredNull + (if isNull then 1 else 0),
       recoveredContent := e.stats.recoveredContent + (if isNull then 0 else 1)))
  }

  /** Sends the packets of a gap one by one, counting each as recovered. */
  function SendGap(env: Env, e: Engine, rs: seq<Record>): Res
    decreases |rs|
  {
    if rs == [] then Res(true, e) else
      var sent := Send(env, e, rs[0], Gap);
      if !sent.ok then sent else SendGap(env, Recovered(sent.e, rs[0].packet.isNull), rs[1..])
  }

  function WithBurst(e: Engine, burst: bool): Engine {
    if burst then e.(stats := e.stats.(bursts := e.stats.bursts + 1)) else e
  }

  /** set_active_output_stream */
  function SetActive(e: Engine, k: StreamId): Engine {
    if e.active == k then e else
    e.(active := k,
       stats := if k == 0 then e.stats.(switches0 := e.stats.switches0 + 1)
                else e.stats.(switches1 := e.stats.switches1 + 1))
  }
}
