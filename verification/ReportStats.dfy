/** Stream health: a ring of the last sixty counter samples, and a verdict that
    depends only on what the counters gained since the oldest of them. */
module ReportStats {
  import opened Packets
  import opened State

  const ROLLING: nat := 60
  const QUIET: nat := 30
  const HEALTH_INTERVAL: nat := 5000000000
  const OFFLINE: nat := 5000000000
  const SAMPLE_INTERVAL: nat := 1000000000

  datatype Health = Healthy | Degraded | Lossy | Untrusted | Offline

  datatype StreamTotals = StreamTotals(packets: nat, syncErrors: nat, transportErrors: nat,
                                       continuityErrors: nat, duplicates: nat)

  /** The counters that are sampled for the health verdicts. */
  datatype Totals = Totals(streams: map<StreamId, StreamTotals>, recovered: nat, unrecoverable: nat,
                           delayInsufficient: nat, exactCcGap: nat, lossEvents: nat, missing: nat,
                           missingAnchors: nat, tooLate: nat, disagreements: nat,
                           output: nat, outputErrors: nat, outputDuplicates: nat)
  {
    predicate Complete() { 0 in streams && 1 in streams }
  }

  const NoTotals: Totals :=
    Totals(map[0 := StreamTotals(0, 0, 0, 0, 0), 1 := StreamTotals(0, 0, 0, 0, 0)], 0, 0, 0, 0, 0, 0, 0, 0, 0, 0, 0, 0)

  /** No counter of t is behind s. */
  predicate AtLeast(t: Totals, s: Totals)
    requires t.Complete() && s.Complete()
  {
    && (forall k: StreamId ::
          && t.streams[k].packets >= s.streams[k].packets && t.streams[k].syncErrors >= s.streams[k].syncErrors
          && t.streams[k].transportErrors >= s.streams[k].transportErrors
          && t.streams[k].continuityErrors >= s.streams[k].continuityErrors
          && t.streams[k].duplicates >= s.streams[k].duplicates)
    && t.recovered >= s.recovered && t.unrecoverable >= s.unrecoverable
    && t.delayInsufficient >= s.delayInsufficient && t.exactCcGap >= s.exactCcGap
    && t.lossEvents >= s.lossEvents && t.missing >= s.missing && t.missingAnchors >= s.missingAnchors
    && t.tooLate >= s.tooLate && t.disagreements >= s.disagreements
    && t.output >= s.output && t.outputErrors >= s.outputErrors && t.outputDuplicates >= s.outputDuplicates
  }

  lemma AtLeastItself(t: Totals)
    requires t.Complete()
    ensures AtLeast(t, t)
  {
  }

  // ------------------------------------------------------------------ verdicts

  /** stream_problem_delta, with a zero sample standing for none */
  function ProblemDelta(t: Totals, s: Totals, k: StreamId): int
    requires t.Complete() && s.Complete()
  {
    var a, b := t.streams[k], s.streams[k];
    Minus64(a.syncErrors, b.syncErrors) + Minus64(a.transportErrors, b.transportErrors) +
    Minus64(a.continuityErrors, b.continuityErrors) + Minus64(a.duplicates, b.duplicates) +
    (if k == 0
     then Minus64(t.recovered, s.recovered) + Minus64(t.unrecoverable, s.unrecoverable) +
          Minus64(t.delayInsufficient, s.delayInsufficient) + Minus64(t.exactCcGap, s.exactCcGap)
     else Minus64(t.lossEvents, s.lossEvents) + Minus64(t.missing, s.missing) +
          Minus64(t.missingAnchors, s.missingAnchors) + Minus64(t.tooLate, s.tooLate)) +
    Minus64(t.disagreements, s.disagreements)
  }

  /** output_problem_delta */
  function OutputDelta(t: Totals, s: Totals): int {
    Minus64(t.outputErrors, s.outputErrors) + Minus64(t.outputDuplicates, s.outputDuplicates) +
    Minus64(t.unrecoverable, s.unrecoverable)
  }

  /** health_from_recent */
  function HealthFromRecent(packets: int, problems: int, quiet: int): Health {
    if packets == 0 then Degraded
    else if problems == 0 && quiet == 0 then Healthy
    else if problems * 1000 >= packets * 50 then Untrusted
    else if problems * 1000 >= packets * 10 then Lossy
    else Degraded
  }

  /** The verdict on a period in which `packets` packets brought `problems`
      problems: one in twenty is untrusted, one in a hundred lossy. */
  function Assess(packets: int, problems: int): Health {
    if packets == 0 then Degraded
    else if problems == 0 then Healthy
    else if problems * 20 >= packets then Untrusted
    else if problems * 100 >= packets then Lossy
    else Degraded
  }

  /** The quiet period can never change a verdict: it lies in the window. */
  lemma QuietIsRedundant(packets: nat, problems: nat, quiet: nat)
    requires quiet <= problems
    ensures HealthFromRecent(packets, problems, quiet) == Assess(packets, problems)
  {
  }

  /** A younger sample shows no more problems than an older one. */
  lemma YoungerShowsNoMore(now: Totals, young: Totals, old_: Totals, k: StreamId)
    requires now.Complete() && young.Complete() && old_.Complete()
    requires AtLeast(now, young) && AtLeast(young, old_)
    ensures 0 <= ProblemDelta(now, young, k) <= ProblemDelta(now, old_, k)
    ensures 0 <= OutputDelta(now, young) <= OutputDelta(now, old_)
  {
    assert AtLeast(now, old_);
  }

  /** The number of problems of a stream in all, without reference to a sample. */
  function Problems(t: Totals, k: StreamId): nat
    requires t.Complete()
  {
    var a := t.streams[k];
    a.syncErrors + a.transportErrors + a.continuityErrors + a.duplicates + t.disagreements +
    if k == 0 then t.recovered + t.unrecoverable + t.delayInsufficient + t.exactCcGap
    else t.lossEvents + t.missing + t.missingAnchors + t.tooLate
  }

  /** None of the counters that are problems of stream k has moved. */
  predicate NothingMoved(t: Totals, s: Totals, k: StreamId)
    requires t.Complete() && s.Complete()
  {
    var a, b := t.streams[k], s.streams[k];
    && a.syncErrors == b.syncErrors && a.transportErrors == b.transportErrors
    && a.continuityErrors == b.continuityErrors && a.duplicates == b.duplicates && t.disagreements == s.disagreements
    && if k == 0 then t.recovered == s.recovered && t.unrecoverable == s.unrecoverable &&
                      t.delayInsufficient == s.delayInsufficient && t.exactCcGap == s.exactCcGap
       else t.lossEvents == s.lossEvents && t.missing == s.missing &&
            t.missingAnchors == s.missingAnchors && t.tooLate == s.tooLate
  }

  /** As counters only grow, no problem gained means that each stood still. */
  lemma NoProblemMeansNoneMoved(t: Totals, s: Totals, k: StreamId)
    requires t.Complete() && s.Complete() && AtLeast(t, s)
    ensures Problems(t, k) == Problems(s, k) <==> NothingMoved(t, s, k)
  {
  }

  /** The number of problems of the output in all. */
  function OutputProblems(t: Totals): nat {
    t.outputErrors + t.outputDuplicates + t.unrecoverable
  }

  lemma DeltaIsGain(t: Totals, s: Totals, k: StreamId)
    requires t.Complete() && s.Complete() && AtLeast(t, s)
    ensures ProblemDelta(t, s, k) == Problems(t, k) - Problems(s, k) >= 0
    ensures OutputDelta(t, s) == OutputProblems(t) - OutputProblems(s) >= 0
  {
  }

  // ---------------------------------------------------------------- the ring

  /** Two of the last sixty indexes share a slot only if they are equal. */
  lemma SlotsDiffer(i: nat, n: nat)
    requires n - ROLLING < i < n
    ensures i % ROLLING != n % ROLLING
  {
  }

  /** Counting back from the newest slot reaches the slot of that sample. */
  lemma SlotAgo(n: nat, seconds: nat)
    requires seconds < n && seconds < ROLLING
    ensures var index := n % ROLLING;
            var newest := if index == 0 then ROLLING - 1 else index - 1;
            (newest + ROLLING - seconds) % ROLLING == (n - 1 - seconds) % ROLLING
  {
    var index, q := n % ROLLING, n / ROLLING;
    assert n == ROLLING * q + index;
    var newest := if index == 0 then ROLLING - 1 else index - 1;
    assert n - 1 - seconds == ROLLING * (if index == 0 then q - 1 else q) + (newest - seconds);
  }

  lemma NextSlot(n: nat)
    ensures (n % ROLLING + 1) % ROLLING == (n + 1) % ROLLING
  {
  }

  /** The sample the verdicts are measured from: the oldest in the ring. */
  function WindowOf(taken: seq<Totals>): Totals {
    if taken == [] then NoTotals else taken[if |taken| < ROLLING then 0 else |taken| - ROLLING]
  }

  /** The sample of the quiet period. */
  function QuietOf(taken: seq<Totals>): Totals {
    if |taken| <= QUIET then WindowOf(taken) else taken[|taken| - 1 - QUIET]
  }

  /** A sample is due a second after the last. */
  predicate SampleDue(last: nat, now: nat) {
    last == 0 || Minus64(now, last) >= SAMPLE_INTERVAL
  }

  /** The times at which ticks at these times take samples. */
  function SampleTimes(last: nat, ts: seq<nat>): seq<nat>
    decreases |ts|
  {
    if ts == [] then []
    else if ts[0] != 0 && SampleDue(last, ts[0]) then [ts[0]] + SampleTimes(ts[0], ts[1..])
    else SampleTimes(last, ts[1..])
  }

  /** Samples lie at least a second apart, starting from the last one taken. */
  predicate SecondsApart(last: nat, ss: seq<nat>)
    decreases |ss|
  {
    ss == [] || (ss[0] >= last + 1000000000 && SecondsApart(ss[0], ss[1..]))
  }

  function LastOf(last: nat, ss: seq<nat>): nat { if ss == [] then last else ss[|ss| - 1] }

  predicate InOrder(last: nat, ts: seq<nat>)
    decreases |ts|
  {
    ts == [] || (ts[0] >= last && InOrder(ts[0], ts[1..]))
  }

  lemma {:induction false} InOrderFrom(a: nat, b: nat, ts: seq<nat>)
    requires InOrder(b, ts) && a <= b
    ensures InOrder(a, ts)
    decreases |ts|
  {
  }

  /** With a clock that does not go back, samples lie at least a second apart,
      and once a tick is done the last sample is younger than a second. */
  lemma {:induction false} SamplesASecondApart(last: nat, ts: seq<nat>)
    requires last > 0 && InOrder(last, ts)
    ensures var ss := SampleTimes(last, ts);
            SecondsApart(last, ss) && (ts != [] ==> ts[|ts| - 1] < LastOf(last, ss) + 1000000000)
    decreases |ts|
  {
    if ts != [] {
      var t, rest := ts[0], ts[1..];
      InOrderFrom(last, t, rest);
      if SampleDue(last, t) {
        SamplesASecondApart(t, rest);
        SecondsApartStep(last, t, SampleTimes(t, rest));
      } else {
        SamplesASecondApart(last, rest);
      }
    }
  }

  lemma SecondsApartStep(last: nat, t: nat, ss: seq<nat>)
    requires t >= last + 1000000000 && SecondsApart(t, ss)
    ensures SecondsApart(last, [t] + ss) && LastOf(last, [t] + ss) == LastOf(t, ss)
  {
    assert ([t] + ss)[1..] == ss;
  }

  /** The ring holds the last sixty samples taken, each in the slot of its number. */
  predicate KeepsLast(ring: seq<Totals>, taken: seq<Totals>) {
    |ring| == ROLLING && forall i | 0 <= i < |taken| && |taken| - ROLLING <= i :: ring[i % ROLLING] == taken[i]
  }

  lemma KeepsNext(ring: seq<Totals>, taken: seq<Totals>, t: Totals)
    requires KeepsLast(ring, taken)
    ensures KeepsLast(ring[|taken| % ROLLING := t], taken + [t])
  {
    forall i | 0 <= i < |taken| && |taken| - ROLLING < i ensures i % ROLLING != |taken| % ROLLING {
      SlotsDiffer(i, |taken|);
    }
  }

  /** The counters only grow, from each sample to the next and up to t. */
  predicate Growing(taken: seq<Totals>, t: Totals) {
    && t.Complete() && (forall i | 0 <= i < |taken| :: taken[i].Complete() && AtLeast(t, taken[i]))
    && (forall i, j | 0 <= i <= j < |taken| :: AtLeast(taken[j], taken[i]))
  }

  lemma GrowingNext(taken: seq<Totals>, t: Totals)
    requires Growing(taken, t)
    ensures Growing(taken + [t], t)
  {
    AtLeastItself(t);
    hide AtLeast;
  }

  class Stats {
    var totals: Totals
    const samples: array<Totals>
    var index: nat
    var count: nat
    var lastSample: nat
    var lastHealthUpdate: nat
    var lastPacket: map<StreamId, nat>
    var health: map<StreamId, Health>
    var outputHealth: Health
    ghost var taken: seq<Totals>

    /** The ring holds the last sixty samples, and its fields tell where. */
    ghost predicate RingValid()
      reads this`totals, this`index, this`count, this`taken, samples
    {
      && index == |taken| % ROLLING && count == (if |taken| < ROLLING then |taken| else ROLLING)
      && KeepsLast(samples[..], taken) && Growing(taken, totals)
    }

    ghost predicate Valid()
      reads this, samples
    {
      RingValid() && totals.Complete() && lastPacket.Keys == {0, 1} && health.Keys == {0, 1}
    }

    /** report_stats_init */
    constructor (now: nat)
      ensures Valid() && fresh(samples) && taken == [] && totals == NoTotals
    {
      totals := NoTotals;
      samples := new Totals[ROLLING](_ => NoTotals);
      index, count := 0, 0;
      lastSample, lastHealthUpdate := now, 0;
      lastPacket := map[0 := now, 1 := now];
      health := map[0 := Healthy, 1 := Healthy];
      outputHealth := Healthy;
      taken := [];
    }

    /** The counters move on; none ever goes back. */
    method Count(t: Totals, k: StreamId, now: nat)
      requires Valid() && t.Complete() && AtLeast(t, totals)
      modifies this`totals, this`lastPacket
      ensures Valid() && totals == t && lastPacket == old(lastPacket)[k := now]
    {
      forall i | 0 <= i < |taken| ensures AtLeast(t, taken[i]) {
        assert AtLeast(totals, taken[i]);
      }
      totals := t;
      lastPacket := lastPacket[k := now];
    }

    /** capture_rolling_sample */
    method Capture()
      requires Valid()
      modifies this`index, this`count, this`taken, samples
      ensures Valid() && taken == old(taken) + [totals]
    {
      KeepsNext(samples[..], taken, totals);
      GrowingNext(taken, totals);
      NextSlot(|taken|);
      hide KeepsLast, Growing;
      samples[index] := totals;
      index := (index + 1) % ROLLING;
      if count < ROLLING {
        count := count + 1;
      }
      taken := taken + [totals];
    }

    /** oldest_rolling_sample */
    method Oldest() returns (s: Option<Totals>)
      requires Valid()
      ensures s == if taken == [] then None else Some(taken[if |taken| < ROLLING then 0 else |taken| - ROLLING])
    {
      if count == 0 {
        return None;
      }
      if count < ROLLING {
        assert samples[0 % ROLLING] == taken[0];
        return Some(samples[0]);
      }
      assert (|taken| - ROLLING) % ROLLING == index;
      s := Some(samples[index]);
    }

    /** rolling_sample_ago */
    method SampleAgo(seconds: nat) returns (s: Option<Totals>)
      requires Valid()
      ensures taken == [] ==> s == None
      ensures seconds < |taken| && seconds < ROLLING ==> s == Some(taken[|taken| - 1 - seconds])
      ensures taken != [] && (seconds >= |taken| || seconds >= ROLLING) ==>
              s == Some(taken[if |taken| < ROLLING then 0 else |taken| - ROLLING])
    {
      hide AtLeast;
      if count == 0 {
        return None;
      }
      if seconds >= count {
        s := Oldest();
        return;
      }
      SlotAgo(|taken|, seconds);
      var newest := if index == 0 then ROLLING - 1 else index - 1;
      var at := (newest + ROLLING - seconds) % ROLLING;
      assert at == (|taken| - 1 - seconds) % ROLLING;
      s := Some(samples[at]);
    }
  
    /** report_stats_tick */
    method Tick(now: nat)
      requires Valid()
      modifies this`index, this`count, this`taken, this`lastSample, samples
      ensures Valid()
      ensures var due := now != 0 && SampleDue(old(lastSample), now);
              && taken == (if due then old(taken) + [totals] else old(taken))
              && lastSample == (if due then now else old(lastSample))
    {
      if now == 0 {
        return;
      }
      if lastSample != 0 && Minus64(now, lastSample) < SAMPLE_INTERVAL {
        return;
      }
      Capture();
      lastSample := now;
    }

    lemma SamplesInOrder()
      requires Valid()
      ensures var w, q := WindowOf(taken), QuietOf(taken);
              w.Complete() && q.Complete() && AtLeast(totals, w) && AtLeast(totals, q) && AtLeast(q, w)
    {
      hide AtLeast;
      NothingIsLess(totals);
      NothingIsLess(WindowOf(taken));
      AtLeastItself(WindowOf(taken));
    }

    /** Whether the stream has been quiet for the offline period. */
    predicate IsOffline(k: StreamId, now: nat)
      requires lastPacket.Keys == {0, 1}
      reads this
    {
      now != 0 && lastPacket[k] != 0 && Minus64(now, lastPacket[k]) >= OFFLINE
    }

    /** Offline, or the assessment of what the stream gained since the oldest sample. */
    ghost function StreamVerdict(k: StreamId, now: nat): Health
      requires lastPacket.Keys == {0, 1} && totals.Complete() && WindowOf(taken).Complete()
      reads this
    {
      if IsOffline(k, now) then Offline
      else Assess(totals.streams[k].packets - WindowOf(taken).streams[k].packets, Problems(totals, k) - Problems(WindowOf(taken), k))
    }

    predicate UpdateDue(now: nat)
      reads this
    {
      now == 0 || lastHealthUpdate == 0 || Minus64(now, lastHealthUpdate) >= HEALTH_INTERVAL
    }

    /** A stream is found healthy if and only if it is not offline, received
        packets since the oldest sample and had no problem since then. */
    lemma HealthyIff(k: StreamId, now: nat)
      requires Valid()
      ensures WindowOf(taken).Complete()
      ensures StreamVerdict(k, now) == Healthy <==>
                && !IsOffline(k, now) && totals.streams[k].packets > WindowOf(taken).streams[k].packets
                && NothingMoved(totals, WindowOf(taken), k)
    {
      SamplesInOrder();
      NoProblemMeansNoneMoved(totals, WindowOf(taken), k);
      hide Problems, NothingMoved;
    }

    /** update_stream_health: every verdict is the assessment of what was gained
        since the oldest sample. */
    method UpdateHealth(now: nat)
      requires Valid()
      modifies this`lastHealthUpdate, this`health, this`outputHealth
      ensures Valid() && taken == old(taken) && WindowOf(taken).Complete()
      ensures !old(UpdateDue(now)) ==>
                health == old(health) && outputHealth == old(outputHealth) && lastHealthUpdate == old(lastHealthUpdate)
      ensures old(UpdateDue(now)) ==>
                && lastHealthUpdate == now
                && health == map[0 := StreamVerdict(0, now), 1 := StreamVerdict(1, now)]
                && outputHealth == Assess(totals.output - WindowOf(taken).output, OutputProblems(totals) - OutputProblems(WindowOf(taken)))
    {
      hide RingValid, AtLeast, Problems, OutputProblems, OutputDelta, WindowOf, QuietOf, Assess;
      SamplesInOrder();
      var w, q := Measure();
      if now != 0 && lastHealthUpdate != 0 && Minus64(now, lastHealthUpdate) < HEALTH_INTERVAL {
        return;
      }
      lastHealthUpdate := now;
      var h0 := JudgeStream(0, w, q, now);
      var h1 := JudgeStream(1, w, q, now);
      var out := JudgeOutput(w, q);
      health := map[0 := h0, 1 := h1];
      outputHealth := out;
    }

    /** The two samples the verdicts compare with. */
    method Measure() returns (w: Totals, q: Totals)
      requires Valid()
      ensures w == WindowOf(taken) && q == QuietOf(taken)
    {
      hide RingValid, AtLeast;
      var window := Oldest();
      var quiet := SampleAgo(QUIET);
      w := if window.None? then NoTotals else window.value;
      q := if quiet.None? then NoTotals else quiet.value;
    }

    /** The verdict about one stream. */
    method JudgeStream(k: StreamId, w: Totals, q: Totals, now: nat) returns (h: Health)
      requires Valid() && w == WindowOf(taken) && w.Complete() && q.Complete()
      requires AtLeast(totals, q) && AtLeast(q, w) && AtLeast(totals, w)
      ensures h == StreamVerdict(k, now)
    {
      hide RingValid;
      DeltaIsGain(totals, w, k);
      YoungerShowsNoMore(totals, q, w, k);
      var packets := Minus64(totals.streams[k].packets, w.streams[k].packets);
      var problems := ProblemDelta(totals, w, k);
      var quiet := ProblemDelta(totals, q, k);
      hide ProblemDelta, Problems;
      if now != 0 && lastPacket[k] != 0 && Minus64(now, lastPacket[k]) >= OFFLINE {
        h := Offline;
      } else {
        QuietIsRedundant(packets, problems, quiet);
        h := HealthFromRecent(packets, problems, quiet);
      }
    }

    /** The verdict about the output. */
    method JudgeOutput(w: Totals, q: Totals) returns (h: Health)
      requires Valid() && w.Complete() && q.Complete()
      requires AtLeast(totals, q) && AtLeast(q, w) && AtLeast(totals, w)
      ensures h == Assess(totals.output - w.output, OutputProblems(totals) - OutputProblems(w))
    {
      DeltaIsGain(totals, w, 0);
      YoungerShowsNoMore(totals, q, w, 0);
      var packets := Minus64(totals.output, w.output);
      QuietIsRedundant(packets, OutputDelta(totals, w), OutputDelta(totals, q));
      h := HealthFromRecent(packets, OutputDelta(totals, w), OutputDelta(totals, q));
    }
  }

  lemma NothingIsLess(t: Totals)
    requires t.Complete()
    ensures NoTotals.Complete() && AtLeast(t, NoTotals)
  {
  }
}
