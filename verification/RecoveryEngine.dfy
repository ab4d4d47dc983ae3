/** The engine as an object that updates its fields in place: ring histories,
    delay queues, alignment, anchor, per-PID state and counters.  Each method is
    proved to do what the function of the same step does on the abstract state,
    so every theorem about runs holds of it. */
module Implementation {
  import opened Packets
  import opened State
  import opened Gaps
  import opened GapFacts
  import opened Receive
  import opened Drain
  import opened Buffers

  /** The return codes of the recovery functions. */
  datatype Decision = Undecided | Inserted | Rejected | Failed

  function DecisionOf(plan: Plan, ok: bool): Decision {
    if !ok then Failed
    else match plan
      case Keep => Undecided
      case Refuse(_) => Rejected
      case Insert(_, _) => Inserted
      case Replace(_) => Inserted
  }

  const Blank: Record := Record(0, 0, 0, Packet(0, 0, 0, false, false, false, false, false, 0))

  class RecoveryEngine {
    const env: Env
    const history0: PacketHistory
    const history1: PacketHistory
    const primaryQueue: DelayQueue
    const secondaryQueue: DelayQueue
    var nextIndex0: nat
    var nextIndex1: nat
    var lastIn0: nat
    var lastIn1: nat
    var lastOut0: Option<nat>
    var lastOut1: Option<nat>
    var active: StreamId
    var returnStart: nat
    var align: Alignment
    var anchor: Anchor
    var in1: Counters
    var outCc: Counters
    var stats: Stats
    var tick: nat
    var sends: nat
    ghost var out: seq<Emission>
    ghost var fates: seq<Fate>

    /** The abstract state. */
    ghost function View(): Engine
      reads this, history0, history1, primaryQueue, secondaryQueue
    {
      Engine(history0.hist, history1.hist, primaryQueue.contents, secondaryQueue.contents,
             lastIn0, lastIn1, lastOut0, lastOut1, active, returnStart, align, anchor, in1, outCc,
             stats, tick, sends, out, fates)
    }

    ghost predicate Valid()
      reads this, history0, history1, primaryQueue, secondaryQueue,
            history0.records, history1.records, primaryQueue.records, secondaryQueue.records
    {
      && history0 != history1 && primaryQueue != secondaryQueue
      && history0.records != history1.records && history0.records != primaryQueue.records
      && history0.records != secondaryQueue.records && history1.records != primaryQueue.records
      && history1.records != secondaryQueue.records && primaryQueue.records != secondaryQueue.records
      && history0.Valid() && history1.Valid() && primaryQueue.Valid() && secondaryQueue.Valid()
      && history0.records.Length == history1.records.Length == env.cfg.capacity
      && primaryQueue.records.Length == secondaryQueue.records.Length == env.cfg.capacity
      && nextIndex0 == |history0.hist.log| && nextIndex1 == |history1.hist.log|
    }

    /** recovery_engine_init_with_config */
    constructor (env: Env)
      ensures Valid() && View() == Initial && this.env == env
      ensures fresh(history0) && fresh(history1) && fresh(primaryQueue) && fresh(secondaryQueue)
      ensures fresh(history0.records) && fresh(history1.records) && fresh(primaryQueue.records) && fresh(secondaryQueue.records)
    {
      this.env := env;
      history0 := new PacketHistory(env.cfg.capacity, Blank);
      history1 := new PacketHistory(env.cfg.capacity, Blank);
      primaryQueue := new DelayQueue(env.cfg.capacity, Blank);
      secondaryQueue := new DelayQueue(env.cfg.capacity, Blank);
      nextIndex0, nextIndex1, lastIn0, lastIn1 := 0, 0, 0, 0;
      lastOut0, lastOut1, active, returnStart := None, None, 0, 0;
      align, anchor := Alignment(false, 0, 0, 0), Anchor(false, 0, 0);
      in1, outCc, stats, tick, sends := map[], map[], NoStats, 0, 0;
      out, fates := [], [];
    }

    // ------------------------------------------------------------------- output

    /** report_stats_now_ns */
    method Now() returns (t: nat)
      requires Valid()
      modifies this
      ensures Valid() && t == env.clock(old(tick)) && View() == old(View()).(tick := old(tick) + 1)
    {
      hide PacketHistory.Valid, DelayQueue.Valid;
      t := env.clock(tick);
      tick := tick + 1;
    }

    /** observe_output_record */
    method ObserveOutput(p: Packet)
      requires Valid()
      modifies this
      ensures Valid()
      ensures View() == old(View()).(outCc := Observe(old(outCc), p), stats := Judged(old(stats), old(outCc), p))
    {
      hide PacketHistory.Valid, DelayQueue.Valid;
      if p.isNull {
        return;
      }
      if p.pid in outCc && !p.transportError && !p.discontinuity {
        if p.hasPayload {
          var expected := NextCounter(outCc[p.pid]);
          if p.cc == outCc[p.pid] {
            stats := stats.(duplicates := stats.duplicates + 1);
          } else if p.cc != expected {
            stats := stats.(errors := stats.errors + 1);
          }
        } else if p.cc != outCc[p.pid] {
          stats := stats.(errors := stats.errors + 1);
        }
      }
      outCc := outCc[p.pid := p.cc];
    }

    /** output_packets, and output_datagrams at every seventh packet */
    method NotePacked()
      requires Valid()
      modifies this
      ensures Valid() && View() == old(View()).(stats := Packed(old(stats)))
    {
      hide PacketHistory.Valid, DelayQueue.Valid;
      stats := stats.(output := stats.output + 1);
      if stats.output % 7 == 0 {
        stats := stats.(datagrams := stats.datagrams + 1);
      }
    }

    /** has_output_stream_index and last_output_stream_index */
    method NoteLastOutput(r: Record)
      requires Valid()
      modifies this
      ensures Valid()
      ensures View() == old(View()).(lastOut0 := if r.source == 0 then Some(r.index) else old(lastOut0),
                                     lastOut1 := if r.source == 1 then Some(r.index) else old(lastOut1))
    {
      hide PacketHistory.Valid, DelayQueue.Valid;
      if r.source == 0 {
        lastOut0 := Some(r.index);
      } else {
        lastOut1 := Some(r.index);
      }
    }

    /** output_record */
    method SendRecord(r: Record, ghost via: Via) returns (ok: bool)
      requires Valid()
      modifies this
      ensures Valid() && Res(ok, View()) == Send(env, old(View()), r, via)
    {
      hide PacketHistory.Valid, DelayQueue.Valid, Judged, Packed, Observe;
      ok := env.sinkOk(sends);
      sends := sends + 1;
      if !ok {
        return;
      }
      NotePacked();
      NoteLastOutput(r);
      ObserveOutput(r.packet);
      out := out + [Emission(via, r)];
    }

    /** recovery_reject_log */
    method Refuse(p: Packet, why: Rejection)
      requires Valid()
      modifies this
      ensures Valid() && View() == Refused(old(View()), p, why)
    {
      hide PacketHistory.Valid, DelayQueue.Valid;
      stats := stats.(rejects := stats.rejects + multiset{why.kind});
      if why.hasMissing && why.missing != 0 && !p.isNull && !p.transportError && !p.discontinuity &&
         why.reason != NullCandidate && why.reason != NullBurstTooBig {
        stats := stats.(unrecoverable := stats.unrecoverable + why.missing);
      }
    }

    /** report_stats_observe_recovery */
    method NoteRecovery(isNull: bool)
      requires Valid()
      modifies this
      ensures Valid() && View() == Recovered(old(View()), isNull)
    {
      hide PacketHistory.Valid, DelayQueue.Valid;
      stats := stats.(recovered := stats.recovered + 1);
      if isNull {
        stats := stats.(recoveredNull := stats.recoveredNull + 1);
      } else {
        stats := stats.(recoveredContent := stats.recoveredContent + 1);
      }
    }

    /** set_active_output_stream */
    method Activate(k: StreamId)
      requires Valid()
      modifies this
      ensures Valid() && View() == SetActive(old(View()), k)
    {
      hide PacketHistory.Valid, DelayQueue.Valid;
      if active == k {
        return;
      }
      active := k;
      if k == 0 {
        stats := stats.(switches0 := stats.switches0 + 1);
      } else {
        stats := stats.(switches1 := stats.switches1 + 1);
      }
    }

    /** The insertion loops of the recovery functions. */
    method SendAll(rs: seq<Record>) returns (ok: bool)
      requires Valid()
      modifies this
      ensures Valid() && Res(ok, View()) == SendGap(env, old(View()), rs)
    {
      hide PacketHistory.Valid, DelayQueue.Valid;
      ghost var target := SendGap(env, View(), rs);
      var i := 0;
      while i < |rs|
        invariant 0 <= i <= |rs| && Valid() && SendGap(env, View(), rs[i..]) == target
      {
        hide Send, Recovered;
        assert rs[i..][0] == rs[i] && rs[i..][1..] == rs[i + 1..];
        ok := SendRecord(rs[i], Gap);
        if !ok {
          return;
        }
        NoteRecovery(rs[i].packet.isNull);
        i := i + 1;
      }
      ok := true;
    }

    // --------------------------------------------------------------- candidates

    /** collect_secondary_after_anchor_candidates_in_range */
    method CollectRange(p: Packet, first: nat, last: int, c0: Candidates) returns (c: Candidates)
      requires Valid()
      ensures c == Collect(history1.hist, p, first, last, c0)
    {
      hide PacketHistory.Valid, DelayQueue.Valid;
      c := c0;
      var index := first;
      while index <= last
        invariant Collect(history1.hist, p, index, last, c) == Collect(history1.hist, p, first, last, c0)
        decreases last - index + 1
      {
        var r := history1.FindIndex(index);
        if r.Some? && ExactMatch(p, r.value.packet) {
          c := AddCandidate(c, r.value);
        }
        index := index + 1;
      }
    }

    /** find_aligned_secondary_record */
    method FindAligned(p: Record) returns (r: Option<Record>)
      requires Valid()
      ensures r == Aligned(View(), p)
    {
      hide PacketHistory.Valid, DelayQueue.Valid;
      if !align.has || p.index + align.offset < 0 {
        return None;
      }
      r := history1.FindIndex(p.index + align.offset);
    }

    /** find_secondary_boundary_matches */
    method FindMatches(p: Record) returns (c: Candidates)
      requires Valid()
      ensures c == FindCandidates(env.cfg, View(), p)
    {
      hide PacketHistory.Valid, DelayQueue.Valid, Collect, AddCandidate;
      c := Candidates([], false);
      if p.packet.isNull || p.packet.transportError || p.packet.discontinuity {
        return;
      }
      if align.has {
        var x := p.index + align.offset;
        if x >= 0 {
          var exact := history1.FindIndex(x);
          if exact.Some? && ExactMatch(p.packet, exact.value.packet) {
            c := AddCandidate(c, exact.value);
          }
        }
        if x + SEARCH_EXTRA >= 0 {
          c := CollectRange(p.packet, Max(x - SEARCH_EXTRA, 0), x + SEARCH_EXTRA, c);
        }
      }
      if !anchor.valid || p.index <= anchor.p {
        return;
      }
      var scan := if env.cfg.maxBurst + 1 < OVERSIZE_SCAN then OVERSIZE_SCAN else env.cfg.maxBurst + 1;
      var first := anchor.s + 1;
      c := CollectRange(p.packet, first, first + (p.index - anchor.p - 1) + scan, c);
    }
  
    // --------------------------------------------------------------- the validators

    /** The anchor test the recovery functions share. */
    method AnchorIsHeld() returns (held: bool)
      requires Valid()
      ensures held == AnchorHeld(View())
    {
      hide PacketHistory.Valid, DelayQueue.Valid;
      var p := history0.FindIndex(anchor.p);
      var s := history1.FindIndex(anchor.s);
      held := AnchorPair(p, s);
    }

    /** The prefix loops of the recovery functions. */
    method PrefixAgrees(n: nat) returns (agrees: bool)
      requires Valid()
      ensures agrees == PrefixMatches(View(), n)
    {
      hide PacketHistory.Valid, DelayQueue.Valid;
      var i := 0;
      while i < n
        invariant 0 <= i <= n && PrefixMatches(View(), i)
      {
        var p := history0.FindIndex(anchor.p + 1 + i);
        var s := history1.FindIndex(anchor.s + 1 + i);
        if p.None? || s.None? || !ExactMatch(p.value.packet, s.value.packet) {
          assert !PairMatches(View(), i);
          return false;
        }
        assert PairMatches(View(), i);
        i := i + 1;
      }
      agrees := true;
    }

    /** The loop over a gap of nulls. */
    method ScanNulls(first: nat, n: nat) returns (flaw: Option<Flaw>)
      requires Valid()
      ensures flaw == NullScan(history1.hist, first, n)
    {
      hide PacketHistory.Valid, DelayQueue.Valid;
      var i := 0;
      while i < n
        invariant 0 <= i <= n && NullScan(history1.hist, first + i, n - i) == NullScan(history1.hist, first, n)
      {
        var r := history1.FindIndex(first + i);
        if r.None? {
          return Some(Flaw(MissingCandidate, NoCandidate));
        }
        if !r.value.packet.isNull {
          return Some(Flaw(MissingCandidate, NotNullGap));
        }
        if r.value.packet.transportError {
          return Some(Flaw(Tei, SecondaryTei));
        }
        if r.value.packet.discontinuity {
          return Some(Flaw(Discontinuity, SecondaryDiscontinuity));
        }
        i := i + 1;
      }
      flaw := None;
    }

    /** The loop over the start of a gap that is too long. */
    method ScanOversize(first: nat, n: nat) returns (flaw: Flaw)
      requires Valid()
      ensures flaw == OversizeScan(history1.hist, first, n)
    {
      hide PacketHistory.Valid, DelayQueue.Valid;
      var i := 0;
      while i < n
        invariant 0 <= i <= n && OversizeScan(history1.hist, first + i, n - i) == OversizeScan(history1.hist, first, n)
      {
        var r := history1.FindIndex(first + i);
        if r.None? {
          return Flaw(MissingCandidate, NoCandidate);
        }
        if !r.value.packet.isNull {
          return Flaw(MissingCandidate, NotNullGap);
        }
        i := i + 1;
      }
      flaw := Flaw(BurstTooLarge, NullBurstTooBig);
    }

    /** validate_null_position_candidate */
    method ValidateNull(p: Record, m: Record) returns (v: Verdict)
      requires Valid()
      ensures v == NullVerdict(env.cfg, View(), p, m)
    {
      hide PacketHistory.Valid, DelayQueue.Valid, NullScan, OversizeScan, AnchorHeld, PrefixMatches;
      v := Invalid(MissingCandidate, NotNullGap, 0, false);
      if !p.packet.Content() || !anchor.valid || m.index <= anchor.s || p.index <= anchor.p {
        return;
      }
      var primaryBetween := p.index - anchor.p - 1;
      var secondaryBetween := m.index - anchor.s - 1;
      if secondaryBetween <= primaryBetween {
        return;
      }
      var n := secondaryBetween - primaryBetween;
      var first := anchor.s + primaryBetween + 1;
      if n > env.cfg.maxBurst {
        var f := ScanOversize(first, env.cfg.maxBurst + 1);
        return Invalid(f.kind, f.reason, n, true);
      }
      if align.confidence < env.cfg.minConfidence {
        return Invalid(LowAlignment, LowConfidence, n, true);
      }
      var held := AnchorIsHeld();
      if !held {
        return Invalid(Ambiguous, BeforeAnchor, n, true);
      }
      if !BoundsMatch(p, m) {
        return Invalid(Ambiguous, AfterAnchor, n, true);
      }
      var agrees := PrefixAgrees(primaryBetween);
      if !agrees {
        return Invalid(Ambiguous, StalePrefix, n, true);
      }
      var flaw := ScanNulls(first, n);
      v := if flaw.Some? then Invalid(flaw.value.kind, flaw.value.reason, n, true) else Approved(n);
    }

    /** The loop that simulates the output of a gap on a copy of the PID states. */
    method SimulateGap(first: nat, n: nat) returns (s: Scan)
      requires Valid()
      ensures s == MixedScan(history1.hist, first, n, false, outCc)
    {
      hide PacketHistory.Valid, DelayQueue.Valid;
      var states, content := outCc, false;
      var i := 0;
      while i < n
        invariant 0 <= i <= n
        invariant MixedScan(history1.hist, first + i, n - i, content, states) == MixedScan(history1.hist, first, n, false, outCc)
      {
        var r := history1.FindIndex(first + i);
        if r.None? {
          return Scan(Some(Flaw(MissingCandidate, NoCandidate)), content, states);
        }
        if r.value.packet.transportError {
          return Scan(Some(Flaw(Tei, SecondaryTei)), content, states);
        }
        if r.value.packet.discontinuity {
          return Scan(Some(Flaw(Discontinuity, SecondaryDiscontinuity)), content, states);
        }
        if !r.value.packet.isNull {
          content := true;
        }
        if !Fits(states, r.value.packet) {
          return Scan(Some(Flaw(WrongCounter, CounterContradiction)), content, states);
        }
        states := Simulate(states, r.value.packet);
        i := i + 1;
      }
      s := Scan(None, content, states);
    }

    /** The count of candidates on the primary's PID, as far as it matters. */
    method AnyOnPid(first: nat, n: nat, pid: Pid) returns (any: bool)
      requires Valid()
      ensures any == CarriesPid(history1.hist, first, n, pid)
    {
      hide PacketHistory.Valid, DelayQueue.Valid;
      var count := 0;
      var i := 0;
      while i < n
        invariant 0 <= i <= n && (count > 0 <==> CarriesPid(history1.hist, first, i, pid)) && count >= 0
      {
        var r := history1.FindIndex(first + i);
        if r.Some? && !r.value.packet.isNull && r.value.packet.pid == pid {
          count := count + 1;
        }
        i := i + 1;
      }
      any := count > 0;
    }

    /** The explanation both mixed functions give for a primary that does not fit. */
    method ExplainMisfit(p: Record, first: nat, n: nat) returns (f: Flaw)
      requires Valid()
      ensures f == MisfitFlaw(View(), p, first, n)
    {
      hide PacketHistory.Valid, DelayQueue.Valid, CarriesPid;
      if !p.packet.isNull && p.packet.pid in outCc {
        var missing := InferMissing(outCc[p.packet.pid], p.packet);
        if missing.Some? && missing.value <= n {
          var any := AnyOnPid(first, n, p.packet.pid);
          if !any {
            return Flaw(WrongPid, OtherPid);
          }
        }
      }
      f := Flaw(WrongCounter, AfterAnchorCounter);
    }

    /** validate_mixed_position_candidate */
    method ValidateMixed(p: Record, m: Record) returns (v: Verdict)
      requires Valid()
      ensures v == MixedVerdict(env.cfg, View(), p, m)
    {
      hide PacketHistory.Valid, DelayQueue.Valid, MixedScan, MisfitFlaw, AnchorHeld, PrefixMatches;
      v := Invalid(MissingCandidate, NotMixedGap, 0, false);
      if !p.packet.Content() || !anchor.valid || m.index <= anchor.s || p.index <= anchor.p {
        return;
      }
      var primaryBetween := p.index - anchor.p - 1;
      var secondaryBetween := m.index - anchor.s - 1;
      if secondaryBetween <= primaryBetween {
        return;
      }
      var n := secondaryBetween - primaryBetween;
      if n > env.cfg.maxBurst {
        return Invalid(BurstTooLarge, MixedBurstTooBig, n, true);
      }
      if align.confidence < env.cfg.minConfidence {
        return Invalid(LowAlignment, LowConfidence, n, true);
      }
      var held := AnchorIsHeld();
      if !held {
        return Invalid(Ambiguous, BeforeAnchor, n, true);
      }
      if !BoundsMatch(p, m) {
        return Invalid(Ambiguous, AfterAnchor, n, true);
      }
      var agrees := PrefixAgrees(primaryBetween);
      if !agrees {
        return Invalid(Ambiguous, StalePrefix, n, true);
      }
      var first := anchor.s + primaryBetween + 1;
      var s := SimulateGap(first, n);
      if s.flaw.Some? {
        return Invalid(s.flaw.value.kind, s.flaw.value.reason, n, true);
      }
      if !s.content {
        return Invalid(MissingCandidate, NotMixedGap, n, true);
      }
      if !Fits(s.states, p.packet) {
        var f := ExplainMisfit(p, first, n);
        return Invalid(f.kind, f.reason, n, true);
      }
      v := Approved(n);
    }
  
    /** The search loop for one missing counter. */
    method SearchCounter(first: nat, end: nat, pid: Pid, cc: Counter, fallback: Option<nat>) returns (pick: Pick)
      requires Valid()
      ensures pick == PickOne(history1.hist, first, end, pid, cc, fallback)
    {
      hide PacketHistory.Valid, DelayQueue.Valid, Carries, CheckCandidate;
      var candidate: Option<Record> := None;
      var index := first;
      ghost var found: seq<Record> := [];
      while index < end
        invariant Hits(history1.hist, first, end, pid, cc) == found + Hits(history1.hist, index, end, pid, cc)
        invariant if candidate.None? then found == [] else found == [candidate.value]
        decreases end - index
      {
        var r := history1.FindIndex(index);
        if r.Some? && Carries(r.value.packet, pid, cc) {
          if candidate.Some? {
            return Flawed(Flaw(Ambiguous, MultipleCandidates));
          }
          candidate := r;
          found := [r.value];
        }
        index := index + 1;
      }
      if candidate.None? && fallback.Some? {
        candidate := history1.FindIndex(fallback.value);
      }
      pick := CheckCandidate(candidate, pid, cc);
    }

    /** The loop over the missing counters. */
    method SearchCounters(first: nat, end: nat, pid: Pid, prev: Counter, n: nat, fallback: Option<nat>) returns (c: Picks)
      requires Valid()
      ensures c == PickAll(history1.hist, first, end, pid, prev, 0, n, fallback, [])
    {
      hide PacketHistory.Valid, DelayQueue.Valid, PickOne;
      var rs: seq<Record> := [];
      var k := 0;
      while k < n
        invariant 0 <= k <= n
        invariant PickAll(history1.hist, first, end, pid, prev, k, n, fallback, rs) ==
                  PickAll(history1.hist, first, end, pid, prev, 0, n, fallback, [])
      {
        var pick := SearchCounter(first, end, pid, (prev + 1 + k) % 16, fallback);
        if pick.Flawed? {
          return Picks(rs, Some(pick.flaw));
        }
        rs := rs + [pick.r];
        k := k + 1;
      }
      c := Picks(rs, None);
    }

    /** The loop that replays the picked packets on a copy of the PID states. */
    method Replay(rs: seq<Record>, p: Record) returns (flaw: Option<Flaw>)
      requires Valid()
      ensures flaw == ReplayFlaw(outCc, rs, p)
    {
      hide PacketHistory.Valid, DelayQueue.Valid;
      var states := outCc;
      var i := 0;
      while i < |rs|
        invariant 0 <= i <= |rs| && ReplayFlaw(states, rs[i..], p) == ReplayFlaw(outCc, rs, p)
      {
        assert rs[i..][0] == rs[i] && rs[i..][1..] == rs[i + 1..];
        if !Fits(states, rs[i].packet) {
          return Some(Flaw(WrongCounter, SecondaryCounter));
        }
        states := Simulate(states, rs[i].packet);
        i := i + 1;
      }
      flaw := if Fits(states, p.packet) then None else Some(Flaw(WrongCounter, AfterAnchorCounter));
    }

    /** The start of the counter search, past a prefix both streams share. */
    method FindSearchStart(p: Record, m: Record) returns (first: nat)
      requires Valid() && BeyondAnchor(View(), p, m)
      ensures first == SearchStart(View(), p, m)
    {
      hide PacketHistory.Valid, DelayQueue.Valid, PrefixMatches;
      var primaryBetween := p.index - anchor.p - 1;
      var secondaryBetween := m.index - anchor.s - 1;
      first := anchor.s + 1;
      if primaryBetween > 0 && secondaryBetween > primaryBetween {
        var agrees := PrefixAgrees(primaryBetween);
        if agrees {
          first := first + primaryBetween;
        }
      }
    }

    /** The gap the exact stage works on, or none. */
    method FindExactGap(p: Record, m: Record) returns (g: Option<nat>)
      requires Valid()
      ensures g == ExactGap(View(), p, m)
    {
      hide PacketHistory.Valid, DelayQueue.Valid;
      if !p.packet.Content() || !anchor.valid || m.index <= anchor.s || p.index <= anchor.p {
        return None;
      }
      var primaryBetween := p.index - anchor.p - 1;
      var secondaryBetween := m.index - anchor.s - 1;
      if secondaryBetween < primaryBetween || Fits(outCc, p.packet) {
        return None;
      }
      var missing := secondaryBetween - primaryBetween;
      if p.packet.pid !in outCc {
        return None;
      }
      var previous := outCc[p.packet.pid];
      g := InferMissing(previous, p.packet);
      if g.None? && p.packet.hasPayload && 0 < missing <= 15 && p.packet.cc == (previous + missing + 1) % 16 {
        g := Some(missing);
      }
    }

    /** The candidates of the exact stage. */
    method FindExactPicks(p: Record, m: Record, prev: Counter, n: nat) returns (c: Picks)
      requires Valid() && BeyondAnchor(View(), p, m)
      ensures c == ExactPicks(View(), p, m, prev, n)
    {
      hide PacketHistory.Valid, DelayQueue.Valid, PickAll, SearchStart;
      var first := FindSearchStart(p, m);
      var missing := (m.index - anchor.s) - (p.index - anchor.p);
      var fallback := if missing != 1 then None
                      else if p.index - anchor.p == 1 then Some(anchor.s + 1) else Some(m.index - 1);
      c := SearchCounters(first, m.index, p.packet.pid, prev, n, fallback);
    }

    /** validate_exact_content_candidate */
    method ValidateExact(p: Record, m: Record) returns (v: Verdict)
      requires Valid()
      ensures v == ExactVerdict(env.cfg, View(), p, m)
    {
      hide PacketHistory.Valid, DelayQueue.Valid;
      ExactGapFacts(View(), p, m);
      hide ExactGap, ExactPicks, ReplayFlaw, AnchorHeld, BeyondAnchor;
      var g := FindExactGap(p, m);
      if g.None? {
        return Invalid(MissingCandidate, NotContentGap, 0, false);
      }
      var n := g.value;
      if n == 0 {
        return Invalid(MissingCandidate, NotContentGap, 0, true);
      }
      if n > env.cfg.maxBurst {
        return Invalid(BurstTooLarge, BurstTooBig, n, true);
      }
      if align.confidence < env.cfg.minConfidence {
        return Invalid(LowAlignment, LowConfidence, n, true);
      }
      var held := AnchorIsHeld();
      if !held {
        return Invalid(Ambiguous, BeforeAnchor, n, true);
      }
      if !BoundsMatch(p, m) {
        return Invalid(Ambiguous, AfterAnchor, n, true);
      }
      var c := FindExactPicks(p, m, outCc[p.packet.pid], n);
      if c.flaw.Some? {
        return Invalid(c.flaw.value.kind, c.flaw.value.reason, n, true);
      }
      var flaw := Replay(c.rs, p);
      v := if flaw.Some? then Invalid(flaw.value.kind, flaw.value.reason, n, true) else Approved(n);
    }

    // -------------------------------------------------------------- the recoverers

    /** The checks of try_recover_null_position_gap. */
    method FindNullFlaw(p: Record, m: Record, first: nat, n: nat) returns (flaw: Option<Flaw>)
      requires Valid()
      ensures flaw == NullFlaw(env.cfg, View(), p, m, first, n)
    {
      hide PacketHistory.Valid, DelayQueue.Valid, NullScan, OversizeScan, AnchorHeld, BoundsMatch;
      if n > env.cfg.maxBurst {
        var f := ScanOversize(first, env.cfg.maxBurst + 1);
        return Some(f);
      }
      if align.confidence < env.cfg.minConfidence {
        return Some(Flaw(LowAlignment, LowConfidence));
      }
      var held := AnchorIsHeld();
      if !held {
        return Some(Flaw(Ambiguous, BeforeAnchor));
      }
      if !BoundsMatch(p, m) {
        return Some(Flaw(Ambiguous, AfterAnchor));
      }
      flaw := ScanNulls(first, n);
    }

    /** try_recover_null_position_gap */
    method RecoverNull(p: Record, m: Record) returns (d: Decision)
      requires Valid()
      modifies this
      ensures Valid()
      ensures var plan := NullPlan(env.cfg, old(View()), p, m);
              var o := CarryOut(env, old(View()), p, plan);
              d == DecisionOf(plan, o.ok) && View() == o.e
    {
      hide PacketHistory.Valid, DelayQueue.Valid, NullFlaw, SendGap, Refused, Held, Span;
      if !p.packet.Content() || !anchor.valid || m.index <= anchor.s || p.index <= anchor.p {
        return Undecided;
      }
      var primaryBetween := p.index - anchor.p - 1;
      var secondaryBetween := m.index - anchor.s - 1;
      if secondaryBetween <= primaryBetween || primaryBetween != 0 {
        return Undecided;
      }
      var n := secondaryBetween - primaryBetween;
      var first := anchor.s + 1;
      var flaw := FindNullFlaw(p, m, first, n);
      if flaw.Some? {
        if flaw.value.reason == NotNullGap {
          return Undecided;
        }
        Refuse(p.packet, Rejection(flaw.value.kind, flaw.value.reason, n, true));
        return Rejected;
      }
      NullFlawless(env.cfg, View(), p, m, first, n);
      var ok := SendSpan(first, n);
      d := if ok then Inserted else Failed;
    }

    /** The insertion loop over a gap of consecutive secondary packets. */
    method SendSpan(first: nat, n: nat) returns (ok: bool)
      requires Valid() && n > 0 && Held(history1.hist, first, n)
      modifies this
      ensures Valid() && Res(ok, View()) == SendGap(env, old(View()), Span(old(View()).h1, first, n))
    {
      hide PacketHistory.Valid, DelayQueue.Valid, Send, Recovered, Span;
      ghost var target := SendGap(env, View(), Span(history1.hist, first, n));
      var i := 0;
      while i < n
        invariant 0 <= i <= n && Valid()
        invariant SendGap(env, View(), Span(history1.hist, first + i, n - i)) == target
      {
        SpanHead(history1.hist, first + i, n - i);
        var r := history1.FindIndex(first + i);
        ok := SendRecord(r.value, Gap);
        if !ok {
          return;
        }
        NoteRecovery(r.value.packet.isNull);
        i := i + 1;
      }
      SpanHead(history1.hist, first + n, 0);
      ok := true;
    }

    /** try_recover_mixed_position_gap */
    method RecoverMixed(p: Record, m: Record) returns (d: Decision)
      requires Valid()
      modifies this
      ensures Valid()
      ensures var plan := MixedPlan(env.cfg, old(View()), p, m);
              var o := CarryOut(env, old(View()), p, plan);
              d == DecisionOf(plan, o.ok) && View() == o.e
    {
      hide PacketHistory.Valid, DelayQueue.Valid, MixedScan, MisfitFlaw, AnchorHeld, PrefixMatches, SendGap, Refused;
      if !p.packet.Content() || !anchor.valid || m.index <= anchor.s || p.index <= anchor.p {
        return Undecided;
      }
      var primaryBetween := p.index - anchor.p - 1;
      var secondaryBetween := m.index - anchor.s - 1;
      if secondaryBetween <= primaryBetween {
        return Undecided;
      }
      var n := secondaryBetween - primaryBetween;
      if n > env.cfg.maxBurst {
        Refuse(p.packet, Rejection(BurstTooLarge, MixedBurstTooBig, n, true));
        return Rejected;
      }
      if align.confidence < env.cfg.minConfidence {
        Refuse(p.packet, Rejection(LowAlignment, LowConfidence, n, true));
        return Rejected;
      }
      var held := AnchorIsHeld();
      if !held {
        Refuse(p.packet, Rejection(Ambiguous, BeforeAnchor, n, true));
        return Rejected;
      }
      if !BoundsMatch(p, m) {
        Refuse(p.packet, Rejection(Ambiguous, AfterAnchor, n, true));
        return Rejected;
      }
      var agrees := PrefixAgrees(primaryBetween);
      if !agrees {
        return Undecided;
      }
      var first := anchor.s + primaryBetween + 1;
      var s := SimulateGap(first, n);
      if s.flaw.Some? {
        Refuse(p.packet, Rejection(s.flaw.value.kind, s.flaw.value.reason, n, true));
        return Rejected;
      }
      if !s.content {
        return Undecided;
      }
      if !Fits(s.states, p.packet) {
        var f := ExplainMisfit(p, first, n);
        Refuse(p.packet, Rejection(f.kind, f.reason, n, true));
        return Rejected;
      }
      MixedScanPasses(history1.hist, first, n, false, outCc);
      var ok := SendSpan(first, n);
      if !ok {
        return Failed;
      }
      NoteBurst(n > 1);
      d := Inserted;
    }

    /** recovered_content_bursts */
    method NoteBurst(burst: bool)
      requires Valid()
      modifies this
      ensures Valid() && View() == WithBurst(old(View()), burst)
    {
      hide PacketHistory.Valid, DelayQueue.Valid;
      if burst {
        stats := stats.(bursts := stats.bursts + 1);
      }
    }

    /** try_recover_exact_content_gap */
    method RecoverExact(p: Record, m: Record) returns (d: Decision)
      requires Valid()
      modifies this
      ensures Valid()
      ensures var plan := ExactPlan(env.cfg, old(View()), p, m);
              var o := CarryOut(env, old(View()), p, plan);
              d == DecisionOf(plan, o.ok) && View() == o.e
    {
      hide PacketHistory.Valid, DelayQueue.Valid;
      ExactGapFacts(View(), p, m);
      hide ExactGap, ExactPicks, ReplayFlaw, AnchorHeld, BeyondAnchor, SendGap, Refused, WithBurst;
      var g := FindExactGap(p, m);
      if g.None? || g.value == 0 {
        return Undecided;
      }
      var n := g.value;
      if n > env.cfg.maxBurst {
        Refuse(p.packet, Rejection(BurstTooLarge, BurstTooBig, n, true));
        return Rejected;
      }
      if align.confidence < env.cfg.minConfidence {
        Refuse(p.packet, Rejection(LowAlignment, LowConfidence, n, true));
        return Rejected;
      }
      var held := AnchorIsHeld();
      if !held {
        Refuse(p.packet, Rejection(Ambiguous, BeforeAnchor, n, true));
        return Rejected;
      }
      if !BoundsMatch(p, m) {
        Refuse(p.packet, Rejection(Ambiguous, AfterAnchor, n, true));
        return Rejected;
      }
      var c := FindExactPicks(p, m, outCc[p.packet.pid], n);
      if c.flaw.Some? {
        Refuse(p.packet, Rejection(c.flaw.value.kind, c.flaw.value.reason, n, true));
        return Rejected;
      }
      var flaw := Replay(c.rs, p);
      if flaw.Some? {
        Refuse(p.packet, Rejection(flaw.value.kind, flaw.value.reason, n, true));
        return Rejected;
      }
      var ok := SendAll(c.rs);
      if !ok {
        return Failed;
      }
      NoteBurst(n > 1);
      d := Inserted;
    }

    /** The tests of try_recover_primary_tei_packet */
    method JudgeTei(p: Record) returns (plan: Plan)
      requires Valid()
      ensures plan == TeiPlan(env.cfg, View(), p)
    {
      hide PacketHistory.Valid, DelayQueue.Valid, AnchorHeld, Aligned, AnchorPair, Fits;
      if p.packet.isNull || !p.packet.hasPayload || p.packet.discontinuity {
        return Plan.Refuse(if p.packet.discontinuity then Rejection(Discontinuity, PrimaryDiscontinuity, 0, true)
                           else Rejection(WrongPid, PrimaryNotContent, 0, true));
      }
      if align.confidence < env.cfg.minConfidence {
        return Plan.Refuse(Rejection(LowAlignment, LowConfidence, 0, true));
      }
      var held := AnchorIsHeld();
      if !held {
        return Plan.Refuse(Rejection(Ambiguous, BeforeAnchor, 0, true));
      }
      var candidate := FindAligned(p);
      if candidate.None? {
        return Plan.Refuse(Rejection(MissingCandidate, NoCandidate, 0, true));
      }
      var c := candidate.value.packet;
      if c.transportError {
        return Plan.Refuse(Rejection(Tei, SecondaryTei, 0, true));
      }
      if c.discontinuity {
        return Plan.Refuse(Rejection(Discontinuity, SecondaryDiscontinuity, 0, true));
      }
      if c.isNull || !c.hasPayload || c.pid != p.packet.pid {
        return Plan.Refuse(Rejection(WrongPid, OtherPid, 0, true));
      }
      if c.cc != p.packet.cc {
        return Plan.Refuse(Rejection(WrongCounter, OtherCounter, 0, true));
      }
      var afterPrimary := history0.FindIndex(p.index + 1);
      var afterSecondary := history1.FindIndex(candidate.value.index + 1);
      if !AnchorPair(afterPrimary, afterSecondary) {
        return Plan.Refuse(Rejection(Ambiguous, NoAfterAnchor, 0, true));
      }
      if !Fits(outCc, c) {
        return Plan.Refuse(Rejection(WrongCounter, SecondaryCounter, 0, true));
      }
      plan := Replace(candidate.value);
    }

    /** try_recover_primary_tei_packet, for a primary flagged damaged */
    method RecoverTei(p: Record) returns (d: Decision)
      requires Valid()
      modifies this
      ensures Valid()
      ensures var plan := TeiPlan(env.cfg, old(View()), p);
              var o := CarryOut(env, old(View()), p, plan);
              d == DecisionOf(plan, o.ok) && View() == o.e
    {
      hide PacketHistory.Valid, DelayQueue.Valid;
      var plan := JudgeTei(p);
      assert plan.Refuse? || plan.Replace?;
      hide TeiPlan, Refused, Send, Recovered;
      if plan.Refuse? {
        Refuse(p.packet, plan.why);
        return Rejected;
      }
      var ok := SendRecord(plan.r, TeiFix);
      if !ok {
        return Failed;
      }
      NoteRecovery(false);
      d := Inserted;
    }

    // -------------------------------------------------------------- the stages

    method Validate(stage: Stage, p: Record, m: Record) returns (v: Verdict)
      requires Valid()
      ensures v == StageVerdict(env.cfg, View(), stage, p, m)
    {
      hide PacketHistory.Valid, DelayQueue.Valid, NullVerdict, MixedVerdict, ExactVerdict;
      match stage
      case NullStage => v := ValidateNull(p, m);
      case MixedStage => v := ValidateMixed(p, m);
      case ExactStage => v := ValidateExact(p, m);
    }

    method Recover(stage: Stage, p: Record, m: Record) returns (d: Decision)
      requires Valid()
      modifies this
      ensures Valid()
      ensures var plan := StageRecovery(env.cfg, old(View()), stage, p, m);
              var o := CarryOut(env, old(View()), p, plan);
              d == DecisionOf(plan, o.ok) && View() == o.e
    {
      hide PacketHistory.Valid, DelayQueue.Valid, NullPlan, MixedPlan, ExactPlan, CarryOut;
      match stage
      case NullStage => d := RecoverNull(p, m);
      case MixedStage => d := RecoverMixed(p, m);
      case ExactStage => d := RecoverExact(p, m);
    }

    /** try_unique_candidate_recovery */
    method TryUnique(stage: Stage, p: Record, c: Candidates) returns (d: Decision)
      requires Valid()
      modifies this
      ensures Valid()
      ensures var plan := StagePlan(env.cfg, old(View()), stage, p, c);
              var o := CarryOut(env, old(View()), p, plan);
              d == DecisionOf(plan, o.ok) && View() == o.e
    {
      hide PacketHistory.Valid, DelayQueue.Valid, StageVerdict, StageRecovery, Refused, SendGap, Send, Recovered, WithBurst;
      if c.truncated {
        Refuse(p.packet, Rejection(Ambiguous, TooMany, 0, false));
        return Rejected;
      }
      var vote := NoVote;
      var i := 0;
      while i < |c.rs| && vote.conflict.None?
        invariant 0 <= i <= |c.rs| && Valid() && View() == old(View())
        invariant Poll(env.cfg, View(), stage, p, c.rs[i..], vote) == Poll(env.cfg, View(), stage, p, c.rs, NoVote)
        decreases |c.rs| - i
      {
        assert c.rs[i..][0] == c.rs[i] && c.rs[i..][1..] == c.rs[i + 1..];
        var v := Validate(stage, p, c.rs[i]);
        vote := CastVote(vote, c.rs[i], v);
        i := i + 1;
      }
      if vote.conflict.Some? {
        Refuse(p.packet, Rejection(Ambiguous, MultipleValid, vote.conflict.value.missing, vote.conflict.value.hasMissing));
        return Rejected;
      }
      if vote.winner.Some? {
        d := Recover(stage, p, vote.winner.value);
        return;
      }
      if |c.rs| > 0 && (stage == ExactStage || Definitive(vote.best.kind)) {
        Refuse(p.packet, vote.best);
        return Rejected;
      }
      d := Undecided;
    }

    // ------------------------------------------------------------------ fail-over

    /** primary_is_silent_beyond_outage */
    method PrimaryIsSilent(now: nat) returns (silent: bool)
      requires Valid()
      ensures silent == Silent(env.cfg, View(), now)
    {
      hide PacketHistory.Valid, DelayQueue.Valid;
      if env.cfg.outage == 0 || lastIn1 == 0 || lastIn0 == 0 || lastIn0 > now {
        return false;
      }
      silent := now - lastIn0 >= env.cfg.outage;
    }

    /** discard_secondary_records_already_output_by_primary */
    method TrimSecondary()
      requires Valid()
      modifies secondaryQueue
      ensures Valid() && View() == SecondaryTrimmed(old(View()))
    {
      var cutoff, has := 0, false;
      if anchor.valid {
        cutoff, has := anchor.s, true;
      }
      if align.has && lastOut0.Some? {
        var image := lastOut0.value + align.offset;
        if image >= 0 && (!has || image > cutoff) {
          cutoff, has := image, true;
        }
      }
      if !has {
        return;
      }
      assert Cutoff(View()) == Some(cutoff);
      TrimThrough(cutoff);
    }

    /** discard_secondary_records_through */
    method TrimThrough(index: nat)
      requires Valid()
      modifies secondaryQueue
      ensures Valid() && View() == old(View()).(q1 := DropThrough(old(View()).q1, index))
    {
      hide PacketHistory.Valid, RingHolds;
      while secondaryQueue.count > 0
        invariant Valid() && View() == old(View()).(q1 := secondaryQueue.contents)
        invariant DropThrough(secondaryQueue.contents, index) == DropThrough(old(View()).q1, index)
        decreases |secondaryQueue.contents|
      {
        var front := secondaryQueue.Front();
        if front.None? || front.value.index > index {
          break;
        }
        secondaryQueue.Pop();
      }
    }

    /** The emission of drain_secondary_on_primary_outage */
    method StandInOnce(r: Record) returns (ok: bool)
      requires Valid() && secondaryQueue.contents != [] && secondaryQueue.contents[0] == r
      modifies this, secondaryQueue
      ensures Valid() && Res(ok, View()) == StandIn(env, old(View()))
    {
      hide SetActive, Accepted;
      Activate(1);
      ok := SendRecord(r, Failover);
      if ok {
        secondaryQueue.Pop();
      }
    }

    /** drain_secondary_on_primary_outage */
    method DrainSecondary(force: bool, now: nat) returns (ok: bool)
      requires Valid()
      modifies this, secondaryQueue
      ensures Valid() && Res(ok, View()) == FailoverDrain(env, old(View()), force, now)
    {
      hide PacketHistory.Valid, RingHolds, StandIn, SecondaryTrimmed, Silent, NotDue;
      if active != 1 {
        var silent := PrimaryIsSilent(now);
        if !silent {
          return true;
        }
      }
      TrimSecondary();
      ok := StandInWhileDue(force);
    }

    /** The loop of drain_secondary_on_primary_outage */
    method StandInWhileDue(force: bool) returns (ok: bool)
      requires Valid()
      modifies this, secondaryQueue
      ensures Valid() && Res(ok, View()) == FailoverLoop(env, old(View()), force)
    {
      hide PacketHistory.Valid, RingHolds, StandIn, NotDue;
      ghost var target := FailoverLoop(env, View(), force);
      while secondaryQueue.count > 0
        invariant Valid() && FailoverLoop(env, View(), force) == target
        decreases |secondaryQueue.contents|
      {
        var front := secondaryQueue.Front();
        var t := Now();
        if NotDue(env.cfg, front.value, force, t) {
          return true;
        }
        ok := StandInOnce(front.value);
        if !ok || !force {
          return;
        }
      }
      ok := true;
    }

    /** primary_return_holdoff_elapsed */
    method HoldoffElapsed(now: nat) returns (ready: bool)
      requires Valid()
      modifies this
      ensures Valid() && View() == HoldoffNoted(env.cfg, old(View()), now) && ready == ReturnReady(env.cfg, View(), now)
    {
      hide PacketHistory.Valid, DelayQueue.Valid;
      if active != 1 {
        returnStart := 0;
        return true;
      }
      var silent := PrimaryIsSilent(now);
      if silent || lastIn0 == 0 {
        returnStart := 0;
        return false;
      }
      if returnStart == 0 {
        returnStart := now;
      }
      ready := Minus64(now, returnStart) >= env.cfg.primaryReturn;
    }

    /** The head of the primary queue leaves it. */
    method PopPrimary(ghost fate: Fate)
      requires Valid() && primaryQueue.contents != []
      modifies this, primaryQueue
      ensures Valid() && View() == Popped(old(View()), fate)
    {
      primaryQueue.Pop();
      fates := fates + [fate];
    }

    /** discard_primary_records_already_output_by_secondary */
    method TrimPrimary()
      requires Valid()
      modifies this, primaryQueue
      ensures Valid() && View() == PrimaryTrimmed(old(View()))
    {
      hide PacketHistory.Valid, RingHolds;
      while primaryQueue.count > 0
        invariant Valid() && PrimaryTrimmed(View()) == PrimaryTrimmed(old(View()))
        decreases |primaryQueue.contents|
      {
        var front := primaryQueue.Front();
        if front.None? || !AlreadyOutputBySecondary(front.value) {
          break;
        }
        PopPrimary(Discarded);
      }
    }

    /** primary_record_already_output_by_secondary */
    predicate AlreadyOutputBySecondary(p: Record)
      reads this
    {
      align.has && lastOut1.Some? && 0 <= p.index + align.offset <= lastOut1.value
    }

    // ------------------------------------------------------------- the drain loop

    /** The null, mixed and exact stages of the drain loop, in order. */
    method TryStages(p: Record, c: Candidates) returns (d: Decision)
      requires Valid()
      modifies this
      ensures Valid()
      ensures var plan := StagedPlan(env.cfg, old(View()), p, c);
              var o := CarryOut(env, old(View()), p, plan);
              d == DecisionOf(plan, o.ok) && View() == o.e
    {
      hide PacketHistory.Valid, DelayQueue.Valid, StagePlan, SendGap, Refused, Send, Recovered, WithBurst;
      d := Undecided;
      var primaryFits := Fits(outCc, p.packet);
      if !anchor.valid || |c.rs| == 0 {
        return;
      }
      d := TryUnique(NullStage, p, c);
      if d != Undecided {
        return;
      }
      d := TryUnique(MixedStage, p, c);
      if d != Undecided {
        return;
      }
      if !primaryFits {
        d := TryUnique(ExactStage, p, c);
      }
    }

    /** The reject recorded when no stage decided about a primary that does not fit. */
    method RefuseUndecided(p: Record, c: Candidates)
      requires Valid()
      modifies this
      ensures Valid() && View() == Refused(old(View()), p.packet, LastResort(env.cfg, old(View()), p, c))
    {
      hide PacketHistory.Valid, DelayQueue.Valid, Refused;
      var missing: Option<nat> := None;
      if !p.packet.isNull && p.packet.pid in outCc {
        missing := InferMissing(outCc[p.packet.pid], p.packet);
      }
      var n := if missing.Some? then missing.value else 0;
      var why := Rejection(MissingCandidate, NoAnchorOrCandidate, n, missing.Some?);
      if align.confidence < env.cfg.minConfidence {
        why := why.(kind := LowAlignment, reason := LowConfidence);
      } else if anchor.valid && |c.rs| == 0 {
        why := why.(kind := Ambiguous, reason := NoAfterAnchor);
      } else if c.truncated {
        why := why.(kind := Ambiguous, reason := TooMany);
      }
      Refuse(p.packet, why);
    }

    /** Everything the loop does about the head before sending it. */
    method Decide(p: Record, c: Candidates) returns (d: Decision)
      requires Valid() && c == FindCandidates(env.cfg, View(), p)
      modifies this
      ensures Valid()
      ensures var plan := PrimaryPlan(env.cfg, old(View()), p);
              var o := CarryOut(env, old(View()), p, plan);
              d == DecisionOf(plan, o.ok) && View() == o.e
    {
      hide PacketHistory.Valid, DelayQueue.Valid, TeiPlan, StagedPlan, FindCandidates, LastResort, SendGap, Refused, Send, Recovered, WithBurst;
      if p.packet.transportError {
        d := RecoverTei(p);
        return;
      }
      var primaryFits := Fits(outCc, p.packet);
      d := TryStages(p, c);
      if d == Undecided && !primaryFits {
        RefuseUndecided(p, c);
        d := Rejected;
      }
    }

    /** update_primary_anchor */
    method UpdateAnchor(p: Record, m: Option<Record>)
      requires Valid()
      modifies this
      ensures Valid() && View() == AnchorUpdated(old(View()), p, m)
    {
      hide PacketHistory.Valid, DelayQueue.Valid;
      if p.packet.isNull || m.None? || m.value.packet.isNull || !ExactMatch(p.packet, m.value.packet) {
        return;
      }
      anchor := Anchor(true, p.index, m.value.index);
    }

    /** The end of a turn: the primary is sent, anchors, and leaves the queue. */
    method EmitHead(p: Record, m: Option<Record>) returns (ok: bool)
      requires Valid() && primaryQueue.contents != [] && primaryQueue.contents[0] == p
      modifies this, primaryQueue
      ensures Valid() && Res(ok, View()) == EmitPrimary(env, old(View()), m)
    {
      hide Accepted, AnchorUpdated;
      ghost var e := View();
      ok := SendRecord(p, Direct);
      if !ok {
        return;
      }
      ghost var sent := View();
      UpdateAnchor(p, m);
      AnchorKeepsQueue(sent, p, m);
      AcceptedKeepsQueue(e, p, Direct);
      PopPrimary(Emitted);
    }

    /** One turn of the drain loop for a primary that is due. */
    method ProcessHead(p: Record) returns (ok: bool)
      requires Valid() && primaryQueue.contents != [] && primaryQueue.contents[0] == p
      modifies this, primaryQueue
      ensures Valid() && Res(ok, View()) == ProcessFront(env, old(View()))
    {
      hide PacketHistory.Valid, RingHolds, FindCandidates, AnchorMatch, Aligned, PrimaryPlan, CarryOut, EmitPrimary;
      ghost var e := View();
      ghost var plan := PrimaryPlan(env.cfg, e, p);
      var c := FindMatches(p);
      var m := MatchForAnchor(p, c);
      CarryOutKeepsQueue(env, e, p, plan);
      PlanKinds(env.cfg, e, p);
      var d := Decide(p, c);
      if d == Failed {
        return false;
      }
      if p.packet.transportError && d == Inserted {
        PopPrimary(Replaced);
        return true;
      }
      ok := EmitHead(p, m);
    }

    /** The secondary copy offered as the next anchor. */
    method MatchForAnchor(p: Record, c: Candidates) returns (m: Option<Record>)
      requires Valid()
      ensures m == AnchorMatch(View(), p, c)
    {
      hide PacketHistory.Valid, DelayQueue.Valid;
      if |c.rs| == 1 && !c.truncated {
        return Some(c.rs[0]);
      }
      m := FindAligned(p);
    }

    /** The while loop of recovery_engine_drain and what follows it. */
    method DrainPrimary(force: bool) returns (ok: bool)
      requires Valid()
      modifies this, primaryQueue, secondaryQueue
      ensures Valid() && Res(ok, View()) == Loop(env, old(View()), force)
    {
      hide PacketHistory.Valid, RingHolds, FailoverDrain, HoldoffNoted, ReturnReady, NotDue, ProcessFront;
      ghost var target := Loop(env, View(), force);
      while primaryQueue.count > 0
        invariant Valid() && Loop(env, View(), force) == target
        decreases |primaryQueue.contents|
      {
        var front := primaryQueue.Front();
        var p := front.value;
        ghost var e := View();
        var now := Now();
        if active == 1 {
          HoldoffKeepsQueue(env.cfg, View(), now);
          var ready := HoldoffElapsed(now);
          if !ready {
            ok := DrainSecondary(force, now);
            return;
          }
          Activate(0);
        }
        assert target == Turn(env, View(), force, now);
        if NotDue(env.cfg, p, force, now) {
          return true;
        }
        ok := ProcessHead(p);
        if !ok {
          return;
        }
      }
      var now := Now();
      ok := DrainSecondary(force, now);
    }

    /** recovery_engine_drain */
    method Drain(force: bool) returns (ok: bool)
      requires Valid()
      modifies this, primaryQueue, secondaryQueue
      ensures Valid() && Res(ok, View()) == DrainOnce(env, old(View()), force)
    {
      hide PacketHistory.Valid, RingHolds, FailoverDrain, Loop, ReturnReady, PrimaryTrimmed, SetActive;
      ghost var e := View();
      var now := Now();
      HoldoffKeepsQueue(env.cfg, View(), now);
      var ready := HoldoffElapsed(now);
      assert View() == Opened(env, e);
      hide HoldoffNoted;
      if primaryQueue.count == 0 {
        if active == 1 && ready {
          return true;
        }
        ok := DrainSecondary(force, now);
        return;
      }
      if !ready {
        ok := DrainSecondary(force, now);
        return;
      }
      TrimPrimary();
      if primaryQueue.count == 0 {
        if active == 1 {
          return true;
        }
        ok := DrainSecondary(force, now);
        return;
      }
      Activate(0);
      ok := DrainPrimary(force);
    }

    // ------------------------------------------------------------------- receiving

    /** has_confirmed_backward_run */
    static method HasConfirmedRun(self: PacketHistory, other: PacketHistory, i: nat, j: nat) returns (confirmed: bool)
      requires self.Valid() && other.Valid()
      ensures confirmed == ConfirmedRun(self.hist, other.hist, i, j)
    {
      var count := 1;
      while count < MATCH_THRESHOLD
        invariant 1 <= count <= MATCH_THRESHOLD
        invariant forall c | 1 <= c < count :: i >= c && j >= c && MatchBack(self.hist, other.hist, i, j, c)
      {
        ghost var pair := MatchBack(self.hist, other.hist, i, j, count);
        if i < count || j < count {
          return false;
        }
        var a := self.FindIndex(i - count);
        var b := other.FindIndex(j - count);
        if a.None? || b.None? || !InformativeMatch(a.value.packet, b.value.packet) {
          assert !MatchBack(self.hist, other.hist, i, j, count);
          return false;
        }
        assert MatchBack(self.hist, other.hist, i, j, count);
        count := count + 1;
      }
      confirmed := true;
    }

    /** find_confirmed_matching_record_near */
    static method FindConfirmedNear(self: PacketHistory, other: PacketHistory, r: Record, expected: int, radius: nat)
      returns (m: Option<nat>)
      requires self.Valid() && other.Valid()
      ensures m == FirstConfirmed(self.hist, other.hist, r, expected - radius, expected + radius)
    {
      hide ConfirmedRun;
      var index := expected - radius;
      while index <= expected + radius
        invariant FirstConfirmed(self.hist, other.hist, r, index, expected + radius) ==
                  FirstConfirmed(self.hist, other.hist, r, expected - radius, expected + radius)
        decreases expected + radius - index + 1
      {
        if index >= 0 {
          var c := other.FindIndex(index);
          if c.Some? && InformativeMatch(r.packet, c.value.packet) {
            var confirmed := HasConfirmedRun(self, other, r.index, index);
            if confirmed {
              return Some(index);
            }
          }
        }
        index := index + 1;
      }
      m := None;
    }

    /** The narrow searches of update_alignment */
    method FindNear(self: PacketHistory, other: PacketHistory, k: StreamId, r: Record) returns (m: Option<nat>)
      requires self.Valid() && other.Valid()
      ensures m == NearMatch(align, self.hist, other.hist, k, r)
    {
      hide PacketHistory.Valid, FirstConfirmed;
      m := None;
      if align.has {
        var x := if k == 0 then r.index + align.offset else r.index - align.offset;
        m := FindConfirmedNear(self, other, r, x, SEARCH_EXTRA);
      }
      if m.None? {
        m := FindConfirmedNear(self, other, r, r.index, SEARCH_EXTRA);
      }
    }

    /** update_alignment */
    method UpdateAlignment(self: PacketHistory, other: PacketHistory, k: StreamId, r: Record)
      requires self.Valid() && other.Valid()
      modifies this`align
      ensures align == UpdatedAlignment(env.cfg, old(align), self.hist, other.hist, k, r)
    {
      hide PacketHistory.Valid, DelayQueue.Valid, NearMatch, FirstConfirmed;
      if !r.packet.Content() {
        return;
      }
      var m := FindNear(self, other, k, r);
      if m.None? {
        if r.index % PROBE_INTERVAL != 0 {
          align := Missed(align);
          return;
        }
        m := FindConfirmedNear(self, other, r, r.index, SearchRadius(env.cfg));
      }
      if m.None? {
        align := Missed(align);
        if align.misses >= 64 && align.confidence > 0 {
          align := align.(confidence := align.confidence - 1, misses := 0);
        }
        return;
      }
      align := AlignedPair(k, r.index, m.value);
    }

    /** update_pcr_timing, as far as it can change the alignment */
    method UpdatePcr(other: PacketHistory, k: StreamId, r: Record)
      requires other.Valid()
      modifies this`align
      ensures align == PcrAligned(old(align), other.hist, k, r)
    {
      hide PacketHistory.Valid, DelayQueue.Valid, PcrMatch;
      if !r.packet.hasPcr || r.packet.transportError || r.packet.discontinuity {
        return;
      }
      var m := other.FindPcrMatch(r.packet);
      if m.Some? && ExactMatch(r.packet, m.value.packet) {
        align := AlignedPair(k, r.index, m.value.index);
      }
    }

    /** observe_input_path_gap on the secondary */
    method ObserveInputGap(p: Packet)
      modifies this`stats, this`in1
      ensures stats == InputObserved(old(stats), old(in1), p) && in1 == Simulate(old(in1), p)
    {
      if !p.Content() {
        return;
      }
      if p.pid in in1 {
        var last := in1[p.pid];
        var gap := if p.hasPayload then p.cc != last && p.cc != NextCounter(last) else p.cc != last;
        var missing := InferMissing(last, p);
        if gap {
          stats := stats.(lossEvents := stats.lossEvents + 1,
                          missing := stats.missing + if missing.Some? then missing.value else 1);
        }
      }
      in1 := in1[p.pid := p.cc];
    }

    /** The new record in the history of its stream, and what is too old out of it. */
    method Remember(h: PacketHistory, r: Record)
      requires h.Valid() && r.index == |h.hist.log| && h.records.Length == env.cfg.capacity
      modifies h, h.records
      ensures h.Valid() && h.hist == Retained(env.cfg, Appended(old(h.hist), r, env.cfg.capacity), r.arrival)
    {
      hide Pruned, Appended;
      h.Push(r);
      var retention := env.cfg.historyMs * 1000000;
      if retention > 0 && r.arrival > retention {
        h.PruneOlderThan(r.arrival - retention);
      }
    }

    /** The new record in the delay queue of its stream, the oldest dropped if full. */
    method Delay(q: DelayQueue, r: Record) returns (dropped: bool)
      requires q.Valid() && q.records.Length == env.cfg.capacity
      modifies q, q.records
      ensures q.Valid() && q.contents == Queued(old(q.contents), r, env.cfg.capacity)
      ensures dropped == (|old(q.contents)| >= env.cfg.capacity)
    {
      var ok := q.Push(r);
      dropped := !ok;
      if dropped {
        q.Pop();
        ok := q.Push(r);
      }
    }

    /** The two alignment updates of a received record. */
    method Realign(self: PacketHistory, other: PacketHistory, k: StreamId, r: Record)
      requires self.Valid() && other.Valid()
      modifies this`align
      ensures align == UpdatedAlignment(env.cfg, PcrAligned(old(align), other.hist, k, r), self.hist, other.hist, k, r)
    {
      hide PacketHistory.Valid, DelayQueue.Valid, UpdatedAlignment, PcrAligned;
      UpdatePcr(other, k, r);
      UpdateAlignment(self, other, k, r);
    }

    /** The primary delay queue takes the record, counting an overflow. */
    method QueuePrimary(r: Record)
      requires Valid()
      modifies this, primaryQueue, primaryQueue.records
      ensures Valid()
      ensures View() == old(View()).(
                q0 := Queued(old(View()).q0, r, env.cfg.capacity),
                fates := if |old(View()).q0| >= env.cfg.capacity then old(fates) + [Overflowed] else old(fates),
                stats := if |old(View()).q0| >= env.cfg.capacity then old(stats).(overflows := old(stats).overflows + 1) else old(stats))
    {
      hide PacketHistory.Valid, DelayQueue.Valid, Queued;
      var dropped := Delay(primaryQueue, r);
      if dropped {
        stats := stats.(overflows := stats.overflows + 1);
        fates := fates + [Overflowed];
      }
    }

    /** The secondary delay queue takes the record. */
    method QueueSecondary(r: Record)
      requires Valid()
      modifies secondaryQueue, secondaryQueue.records
      ensures Valid() && View() == old(View()).(q1 := Queued(old(View()).q1, r, env.cfg.capacity))
    {
      hide PacketHistory.Valid, Queued;
      var dropped := Delay(secondaryQueue, r);
    }

    /** recovery_engine_push_packet on the primary, up to the drain */
    method ReceivePrimary(p: Packet)
      requires Valid()
      modifies this, history0, history0.records, primaryQueue, primaryQueue.records
      ensures Valid() && View() == Ingest(env, old(View()), 0, p)
    {
      hide PacketHistory.Valid, DelayQueue.Valid, Retained, UpdatedAlignment, PcrAligned, Queued, Appended;
      ghost var e := View();
      var now := Now();
      var r := Record(0, nextIndex0, now, p);
      RetainedLength(env.cfg, e.h0, r);
      Remember(history0, r);
      nextIndex0 := nextIndex0 + 1;
      lastIn0 := now;
      Realign(history0, history1, 0, r);
      assert View() == e.(tick := e.tick + 1, h0 := NewHistory(env, e, 0, p), lastIn0 := now, align := NewAlignment(env, e, 0, p));
      QueuePrimary(r);
    }

    /** The new secondary record, stamped and kept in its history. */
    method StoreSecondary(p: Packet) returns (r: Record)
      requires Valid()
      modifies this, history1, history1.records
      ensures Valid() && r == NewRecord(env, old(View()), 1, p)
      ensures View() == old(View()).(tick := old(tick) + 1, h1 := NewHistory(env, old(View()), 1, p), lastIn1 := r.arrival)
    {
      hide DelayQueue.Valid, PacketHistory.Valid, Retained, Appended;
      ghost var e := View();
      var now := Now();
      r := Record(1, nextIndex1, now, p);
      RetainedLength(env.cfg, e.h1, r);
      Remember(history1, r);
      nextIndex1 := nextIndex1 + 1;
      lastIn1 := now;
    }

    /** recovery_engine_push_packet on the secondary, up to the drain */
    method ReceiveSecondary(p: Packet)
      requires Valid()
      modifies this, history1, history1.records, secondaryQueue, secondaryQueue.records
      ensures Valid() && View() == Ingest(env, old(View()), 1, p)
    {
      hide PacketHistory.Valid, DelayQueue.Valid, NewHistory, UpdatedAlignment, PcrAligned, Queued, InputObserved, Simulate;
      var r := StoreSecondary(p);
      ObserveInputGap(p);
      Realign(history1, history0, 1, r);
      QueueSecondary(r);
    }

    /** recovery_engine_push_packet */
    method PushPacket(stream: int, p: Packet) returns (ok: bool)
      requires Valid()
      modifies this, history0, history1, primaryQueue, secondaryQueue,
               history0.records, history1.records, primaryQueue.records, secondaryQueue.records
      ensures Valid()
      ensures !(0 <= stream <= 1) ==> !ok && View() == old(View())
      ensures 0 <= stream <= 1 ==> Res(ok, View()) == DrainOnce(env, Ingest(env, old(View()), stream, p), false)
    {
      hide PacketHistory.Valid, DelayQueue.Valid, Ingest, DrainOnce;
      if stream < 0 || stream > 1 {
        return false;
      }
      if stream == 0 {
        ReceivePrimary(p);
      } else {
        ReceiveSecondary(p);
      }
      ok := Drain(false);
    }

    /** One event of a run: the object steps exactly as the abstract engine does. */
    method Handle(ev: Event) returns (ok: bool)
      requires Valid()
      modifies this, history0, history1, primaryQueue, secondaryQueue,
               history0.records, history1.records, primaryQueue.records, secondaryQueue.records
      ensures Valid() && View() == Step(env, old(View()), ev)
    {
      hide PacketHistory.Valid, DelayQueue.Valid, Ingest, DrainOnce;
      match ev
      case Push(k, p) => ok := PushPacket(k, p);
      case Tick(force) => ok := Drain(force);
    }
  }

  lemma {:induction false} PrunedLog(h: History, cutoff: int)
    ensures Pruned(h, cutoff).log == h.log
    decreases |h.log| - h.lo
  {
    if h.lo < |h.log| && h.log[h.lo].arrival < cutoff { PrunedLog(h.(lo := h.lo + 1), cutoff); }
  }

  lemma RetainedLength(cfg: Config, h: History, r: Record)
    ensures |Retained(cfg, Appended(h, r, cfg.capacity), r.arrival).log| == |h.log| + 1
  {
    PrunedLog(Appended(h, r, cfg.capacity), r.arrival - cfg.historyMs * 1000000);
  }

  /** A whole run on a new engine object reaches the state of the abstract run. */
  method Replayed(env: Env, evs: seq<Event>) returns (engine: RecoveryEngine)
    ensures engine.Valid() && engine.env == env && engine.View() == Run(env, evs)
  {
    hide Step;
    engine := new RecoveryEngine(env);
    var i := 0;
    assert evs[..0] == [];
    while i < |evs|
      invariant 0 <= i <= |evs| && engine.Valid() && engine.env == env && engine.View() == Run(env, evs[..i])
      invariant fresh(engine) && fresh(engine.history0) && fresh(engine.history1) && fresh(engine.primaryQueue) && fresh(engine.secondaryQueue)
      invariant fresh(engine.history0.records) && fresh(engine.history1.records) && fresh(engine.primaryQueue.records) && fresh(engine.secondaryQueue.records)
    {
      var ok := engine.Handle(evs[i]);
      assert evs[..i + 1][..i] == evs[..i];
      i := i + 1;
    }
    assert evs[..|evs|] == evs;
  }

  lemma HoldoffKeepsQueue(cfg: Config, e: Engine, now: nat)
    ensures var o := HoldoffNoted(cfg, e, now); o.q0 == e.q0 && o.active == e.active
  {
  }

  lemma AcceptedKeepsQueue(e: Engine, r: Record, via: Via)
    ensures Accepted(e, r, via).q0 == e.q0
  {
  }

  lemma AnchorKeepsQueue(e: Engine, p: Record, m: Option<Record>)
    ensures AnchorUpdated(e, p, m).q0 == e.q0
  {
  }

  lemma CarryOutKeepsQueue(env: Env, e: Engine, p: Record, plan: Plan)
    ensures CarryOut(env, e, p, plan).e.q0 == e.q0
  {
    if plan.Insert? { SendGapKeepsQueues(env, e, plan.rs); }
  }

  /** A replacement is planned exactly for damaged primaries, an insertion never. */
  lemma PlanKinds(cfg: Config, e: Engine, p: Record)
    ensures var plan := PrimaryPlan(cfg, e, p);
            if p.packet.transportError then plan.Refuse? || plan.Replace? else !plan.Replace?
  {
    if !p.packet.transportError {
      var c := FindCandidates(cfg, e, p);
      StageNeverReplaces(cfg, e, NullStage, p, c);
      StageNeverReplaces(cfg, e, MixedStage, p, c);
      StageNeverReplaces(cfg, e, ExactStage, p, c);
    }
  }

  lemma StageNeverReplaces(cfg: Config, e: Engine, stage: Stage, p: Record, c: Candidates)
    ensures !StagePlan(cfg, e, stage, p, c).Replace?
  {
  }

  lemma NullFlawless(cfg: Config, e: Engine, p: Record, m: Record, i: nat, n: nat)
    requires NullFlaw(cfg, e, p, m, i, n).None?
    ensures Held(e.h1, i, n)
  {
    NullScanPasses(e.h1, i, n);
  }

  lemma SpanHead(h: History, i: nat, n: nat)
    requires i + n <= |h.log|
    ensures n == 0 ==> Span(h, i, n) == []
    ensures n > 0 ==> Span(h, i, n) != [] && Span(h, i, n)[0] == h.log[i] && Span(h, i, n)[1..] == Span(h, i + 1, n - 1)
  {
  }

  lemma ExactGapFacts(e: Engine, p: Record, m: Record)
    ensures ExactGap(e, p, m).Some? ==> BeyondAnchor(e, p, m) && p.packet.pid in e.outCc
  {
  }
}
