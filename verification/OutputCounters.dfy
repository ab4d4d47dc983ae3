/** The continuity counters of the output, counted exactly: what the engine
    reports is what a receiver of the output would count. */
module OutputCounters {
  import opened Packets
  import opened State
  import opened Receive
  import opened Drain
  import opened Protocol
  import opened Refinement
  import opened SecondaryLoss

  // ------------------------------------------------- what a receiver would count

  /** Packet j is the last packet of i's PID before i. */
  predicate LastBefore(ps: seq<Packet>, i: nat, j: nat) {
    && j < i < |ps| && !ps[j].isNull && ps[j].pid == ps[i].pid
    && forall k | j < k < i :: ps[k].isNull || ps[k].pid != ps[i].pid
  }

  /** An undamaged payload packet that repeats the counter of its PID. */
  predicate Repeats(ps: seq<Packet>, i: nat) {
    && i < |ps| && ps[i].Content() && ps[i].hasPayload
    && exists j | 0 <= j < i :: LastBefore(ps, i, j) && ps[i].cc == ps[j].cc
  }

  /** An undamaged packet whose counter neither repeats nor follows. */
  predicate Breaks(ps: seq<Packet>, i: nat) {
    && i < |ps| && ps[i].Content()
    && exists j | 0 <= j < i :: LastBefore(ps, i, j) && ps[i].cc != ps[j].cc &&
                               !(ps[i].hasPayload && ps[i].cc == (ps[j].cc + 1) % 16)
  }

  function RepeatCount(ps: seq<Packet>, n: nat): nat {
    if n == 0 then 0 else RepeatCount(ps, n - 1) + if Repeats(ps, n - 1) then 1 else 0
  }

  function BreakCount(ps: seq<Packet>, n: nat): nat {
    if n == 0 then 0 else BreakCount(ps, n - 1) + if Breaks(ps, n - 1) then 1 else 0
  }

  // ---------------------------------------------------------- the engine agrees

  /** The state of a PID is the counter of its last packet. */
  predicate Follows(states: Counters, ps: seq<Packet>) {
    forall pid: Pid ::
      && (pid in states <==> exists j | 0 <= j < |ps| :: LastOn(ps, j, pid))
      && (forall j | 0 <= j < |ps| && LastOn(ps, j, pid) :: pid in states && states[pid] == ps[j].cc)
  }

  predicate LastOn(ps: seq<Packet>, j: nat, pid: Pid) {
    && j < |ps| && !ps[j].isNull && ps[j].pid == pid
    && forall k | j < k < |ps| :: ps[k].isNull || ps[k].pid != pid
  }

  lemma LastOnStep(ps: seq<Packet>, p: Packet, j: nat, pid: Pid)
    ensures var qs := ps + [p];
            LastOn(qs, j, pid) <==> if !p.isNull && p.pid == pid then j == |ps| else j < |ps| && LastOn(ps, j, pid)
  {
    var qs := ps + [p];
    assert qs[|ps|] == p;
    assert forall k | 0 <= k < |ps| :: qs[k] == ps[k];
    if j < |ps| && LastOn(qs, j, pid) {
      assert qs[|ps|].isNull || qs[|ps|].pid != pid;
      forall k | j < k < |ps| ensures ps[k].isNull || ps[k].pid != pid { assert qs[k] == ps[k]; }
    }
  }

  lemma FollowsStep(states: Counters, ps: seq<Packet>, p: Packet)
    requires Follows(states, ps)
    ensures Follows(Observe(states, p), ps + [p])
  {
    hide LastOn;
    var qs, next := ps + [p], Observe(states, p);
    forall pid: Pid
      ensures pid in next <==> exists j | 0 <= j < |qs| :: LastOn(qs, j, pid)
      ensures forall j | 0 <= j < |qs| && LastOn(qs, j, pid) :: pid in next && next[pid] == qs[j].cc
    {
      forall j: nat ensures LastOn(qs, j, pid) <==> if !p.isNull && p.pid == pid then j == |ps| else j < |ps| && LastOn(ps, j, pid) {
        LastOnStep(ps, p, j, pid);
      }
      if !p.isNull && p.pid == pid {
        assert LastOn(qs, |ps|, pid);
      } else if pid in next {
        var j :| 0 <= j < |ps| && LastOn(ps, j, pid);
        assert LastOn(qs, j, pid);
      }
    }
  }

  /** What the next packet counts as, in the engine and for the receiver. */
  lemma NextIsJudged(states: Counters, ps: seq<Packet>, p: Packet)
    requires Follows(states, ps)
    ensures Repeats(ps + [p], |ps|) <==> RepeatsCounter(states, p)
    ensures Breaks(ps + [p], |ps|) <==> BreaksCounter(states, p)
  {
    var qs := ps + [p];
    assert qs[|ps|] == p;
    if p.pid in states && !p.isNull {
      var j :| 0 <= j < |ps| && LastOn(ps, j, p.pid);
      LastIsBefore(ps, p, j);
    } else if !p.isNull {
      forall j: nat | j < |ps| ensures !LastBefore(qs, |ps|, j) {
        BeforeIsLast(ps, p, j);
      }
    }
  }

  lemma LastIsBefore(ps: seq<Packet>, p: Packet, j: nat)
    requires j < |ps| && LastOn(ps, j, p.pid) && !p.isNull
    ensures forall i: nat :: LastBefore(ps + [p], |ps|, i) <==> i == j
    ensures (ps + [p])[j] == ps[j]
  {
    var qs := ps + [p];
    assert forall k | 0 <= k < |ps| :: qs[k] == ps[k];
    forall i: nat | LastBefore(qs, |ps|, i) ensures i == j {
      assert qs[i] == ps[i] && qs[j] == ps[j];
    }
  }

  lemma BeforeIsLast(ps: seq<Packet>, p: Packet, j: nat)
    requires j < |ps|
    ensures LastBefore(ps + [p], |ps|, j) ==> LastOn(ps, j, p.pid)
  {
    var qs := ps + [p];
    assert forall k | 0 <= k < |ps| :: qs[k] == ps[k];
    if LastBefore(qs, |ps|, j) {
      forall k | j < k < |ps| ensures ps[k].isNull || ps[k].pid != p.pid { assert qs[k] == ps[k]; }
    }
  }

  lemma {:induction false} CountsExtend(ps: seq<Packet>, p: Packet, n: nat)
    requires n <= |ps|
    ensures RepeatCount(ps + [p], n) == RepeatCount(ps, n) && BreakCount(ps + [p], n) == BreakCount(ps, n)
    decreases n
  {
    if n > 0 {
      CountsExtend(ps, p, n - 1);
      SameBefore(ps, p, n - 1);
    }
  }

  lemma SameBefore(ps: seq<Packet>, p: Packet, i: nat)
    requires i < |ps|
    ensures Repeats(ps + [p], i) <==> Repeats(ps, i)
    ensures Breaks(ps + [p], i) <==> Breaks(ps, i)
  {
    var qs := ps + [p];
    assert forall k | 0 <= k < |ps| :: qs[k] == ps[k];
    forall j: nat | j < i ensures LastBefore(qs, i, j) <==> LastBefore(ps, i, j) {
      if LastBefore(qs, i, j) { forall k | j < k < i ensures ps[k].isNull || ps[k].pid != ps[i].pid { assert qs[k] == ps[k]; } }
    }
  }

  /** The books on the output: states, errors and duplicates. */
  predicate Tallied(e: Engine) {
    var ps := SentPackets(e.out);
    Follows(e.outCc, ps) && e.stats.errors == BreakCount(ps, |ps|) && e.stats.duplicates == RepeatCount(ps, |ps|)
  }

  lemma EmissionCounts(e: Engine, r: Record, via: Via)
    requires Tallied(e)
    ensures Tallied(Accepted(e, r, via))
  {
    var ps := SentPackets(e.out);
    hide Follows, Repeats, Breaks, RepeatsCounter, BreaksCounter, Observe, SentPackets;
    SentAppend(e.out, Emission(via, r));
    FollowsStep(e.outCc, ps, r.packet);
    NextIsJudged(e.outCc, ps, r.packet);
    CountsExtend(ps, r.packet, |ps|);
    CountsUnfold(ps + [r.packet], |ps|);
  }

  lemma CountsUnfold(ps: seq<Packet>, n: nat)
    ensures RepeatCount(ps, n + 1) == RepeatCount(ps, n) + if Repeats(ps, n) then 1 else 0
    ensures BreakCount(ps, n + 1) == BreakCount(ps, n) + if Breaks(ps, n) then 1 else 0
  {
  }

  lemma SentAppend(out: seq<Emission>, x: Emission)
    ensures SentPackets(out + [x]) == SentPackets(out) + [x.r.packet]
  {
  }

  lemma MoveCounts(env: Env, e: Engine, mv: Move)
    requires Legal(env, e, mv) && Tallied(e)
    ensures Tallied(Apply(env, e, mv))
  {
    hide Follows, Repeats, Breaks, BreakCount, RepeatCount, SentPackets, Accepted, Fits, Silent, ReturnReady, Slack, Cutoff, AlreadyOutput,
         NewHistory, NewAlignment, InputObserved, Simulate;
    match mv
    case Fill(r) => EmissionCounts(e, r, Gap);
    case Pass(m) => EmissionCounts(e, e.q0[0], Direct);
    case Fix(r) => EmissionCounts(e, r, TeiFix);
    case Stand => EmissionCounts(e, e.q1[0], Failover);
    case Arrive(k, p) => ArrivalCounts(env, e, k, p);
    case _ =>
  }

  lemma ArrivalCounts(env: Env, e: Engine, k: StreamId, p: Packet)
    ensures var o := Ingest(env, e, k, p);
            o.out == e.out && o.outCc == e.outCc && o.stats.errors == e.stats.errors && o.stats.duplicates == e.stats.duplicates
  {
    hide NewHistory, NewAlignment, GapSize, InputGap, Queued;
  }

  lemma {:induction false} PathCounts(env: Env, e: Engine, ms: seq<Move>)
    requires Path(env, e, ms) && Tallied(e)
    ensures Tallied(After(env, e, ms))
    decreases |ms|
  {
    hide Legal, Apply, Tallied;
    if ms != [] {
      MoveCounts(env, e, ms[0]);
      PathCounts(env, Apply(env, e, ms[0]), ms[1..]);
    }
  }

  lemma NothingCounts(e: Engine)
    requires e.out == [] && e.outCc == map[] && e.stats == NoStats
    ensures Tallied(e)
  {
    assert SentPackets(e.out) == [];
  }

  /** Over every run, the continuity errors and the duplicate counters the
      engine reports of its output are exactly those in what it sent. */
  lemma OutputIsCounted(env: Env, evs: seq<Event>)
    ensures var e := Run(env, evs); var ps := SentPackets(e.out);
            && e.stats.errors == BreakCount(ps, |ps|) && e.stats.duplicates == RepeatCount(ps, |ps|)
            && (forall j | 0 <= j < |ps| && LastOn(ps, j, ps[j].pid) :: ps[j].pid in e.outCc && e.outCc[ps[j].pid] == ps[j].cc)
  {
    hide Run, BreakCount, RepeatCount;
    var ms := RunIsAPath(env, evs);
    NothingCounts(Initial);
    PathCounts(env, Initial, ms);
  }
}
