/** More of what is reported: too many copies, several candidates, no bounds at
    all, and what a refusal adds to the counters. */
module Refusals {
  import opened Packets
  import opened State
  import opened Gaps
  import opened GapFacts
  import opened Drain
  import opened GapRules

  // ------------------------------------------------------------------ too many

  function Indexes(rs: seq<Record>): set<int> { set k | 0 <= k < |rs| :: rs[k].index }

  lemma {:induction false} IndexesAtMost(rs: seq<Record>)
    ensures |Indexes(rs)| <= |rs|
    decreases |rs|
  {
    if rs == [] {
      assert Indexes(rs) == {};
    } else {
      var n := |rs| - 1;
      IndexesAtMost(rs[..n]);
      assert Indexes(rs) == Indexes(rs[..n]) + {rs[n].index};
    }
  }

  lemma {:induction false} DistinctIndexes(rs: seq<Record>)
    requires forall j, k | 0 <= j < k < |rs| :: rs[j].index != rs[k].index
    ensures |Indexes(rs)| == |rs|
    decreases |rs|
  {
    if rs == [] {
      assert Indexes(rs) == {};
    } else {
      var n := |rs| - 1;
      DistinctIndexes(rs[..n]);
      assert Indexes(rs) == Indexes(rs[..n]) + {rs[n].index};
      assert rs[n].index !in Indexes(rs[..n]);
    }
  }

  function Window(a: int, n: nat): (w: set<int>)
    ensures forall i :: i in w <==> a <= i < a + n
  {
    if n == 0 then {} else Window(a, n - 1) + {a + n - 1}
  }

  lemma {:induction false} WindowSize(a: int, n: nat)
    ensures |Window(a, n)| == n
    decreases n
  {
    if n > 0 { WindowSize(a, n - 1); }
  }

  lemma SubsetSize(a: set<int>, b: set<int>)
    requires a <= b
    ensures |a| <= |b|
  {
    assert b == a + (b - a);
  }

  /** Secondary records i that p could be. */
  predicate CopyInReach(cfg: Config, e: Engine, p: Record, i: int) {
    InHistory(e.h1, i) && InReach(cfg, e, p, i) && Twins(p.packet, e.h1.log[i].packet)
  }

  lemma ManyCopiesTruncate(cfg: Config, e: Engine, p: Record, X: set<int>)
    requires Indexed(e.h1) && p.packet.Content() && |X| > 64
    requires forall i | i in X :: CopyInReach(cfg, e, p, i)
    ensures FindCandidates(cfg, e, p).truncated && FindCandidates(cfg, e, p).rs != []
  {
    CandidatesAreExact(cfg, e, p);
    var c := FindCandidates(cfg, e, p);
    hide FindCandidates, InReach, NearAligned, PastAnchor;
    IndexesAtMost(c.rs);
    if forall i | i in X :: i in Indexes(c.rs) {
      SubsetSize(X, Indexes(c.rs));
    } else {
      var i :| i in X && i !in Indexes(c.rs);
      InReachIsWindow(cfg, e, p, i);
      TwinsMatch(p.packet, e.h1.log[i].packet);
      assert CopyLeftOut(e.h1, p.packet, c, i);
    }
  }

  /** More than sixty-four copies within reach are ambiguous, and reported. */
  lemma ManyCopiesAreReported(cfg: Config, e: Engine, p: Record, X: set<int>)
    requires Indexed(e.h1) && p.packet.Content() && e.anchor.valid && |X| > 64
    requires forall i | i in X :: CopyInReach(cfg, e, p, i)
    ensures PrimaryPlan(cfg, e, p) == Refuse(Rejection(Ambiguous, TooMany, 0, false))
  {
    ManyCopiesTruncate(cfg, e, p, X);
    hide FindCandidates, CopyInReach, MixedVerdict, NullVerdict, ExactVerdict, TeiPlan, LastResort, Poll;
  }

  // ------------------------------------------------------------ several candidates

  /** Every objection but "nothing there" tells how many packets are missing. */
  lemma ObjectionsCount(cfg: Config, e: Engine, stage: Stage, p: Record, m: Record)
    ensures var v := StageVerdict(cfg, e, stage, p, m); v.why.kind != MissingCandidate ==> v.why.hasMissing
  {
    hide NullScan, OversizeScan, MixedScan, MisfitFlaw, PickAll, ReplayFlaw, CounterGap, AnchorHeld, PrefixMatches, Fits, BoundsMatch;
  }

  /** Candidate k is the last one with an objection other than "nothing there". */
  predicate LastObjector(cfg: Config, e: Engine, stage: Stage, p: Record, ms: seq<Record>, k: nat) {
    && k < |ms| && StageVerdict(cfg, e, stage, p, ms[k]).why.kind != MissingCandidate
    && forall j | k < j < |ms| :: StageVerdict(cfg, e, stage, p, ms[j]).why.kind == MissingCandidate
  }

  predicate NoneApproved(cfg: Config, e: Engine, stage: Stage, p: Record, ms: seq<Record>) {
    forall k | 0 <= k < |ms| :: !StageVerdict(cfg, e, stage, p, ms[k]).valid
  }

  lemma {:induction false} PollKeepsBest(cfg: Config, e: Engine, stage: Stage, p: Record, ms: seq<Record>, v: Vote)
    requires NoneApproved(cfg, e, stage, p, ms) && v.winner.None? && v.conflict.None? && v.best.hasMissing
    requires forall j | 0 <= j < |ms| :: StageVerdict(cfg, e, stage, p, ms[j]).why.kind == MissingCandidate
    ensures Poll(cfg, e, stage, p, ms, v) == v
    decreases |ms|
  {
    hide StageVerdict;
    if ms != [] {
      assert NoneApproved(cfg, e, stage, p, ms[1..]);
      PollKeepsBest(cfg, e, stage, p, ms[1..], v);
    }
  }

  lemma {:induction false} PollEndsWithLast(cfg: Config, e: Engine, stage: Stage, p: Record, ms: seq<Record>, v: Vote, k: nat)
    requires NoneApproved(cfg, e, stage, p, ms) && v.winner.None? && v.conflict.None? && LastObjector(cfg, e, stage, p, ms, k)
    ensures Poll(cfg, e, stage, p, ms, v) == v.(best := StageVerdict(cfg, e, stage, p, ms[k]).why)
    decreases |ms|
  {
    hide StageVerdict;
    var v' := CastVote(v, ms[0], StageVerdict(cfg, e, stage, p, ms[0]));
    assert !StageVerdict(cfg, e, stage, p, ms[0]).valid;
    assert NoneApproved(cfg, e, stage, p, ms[1..]);
    if k == 0 {
      ObjectionsCount(cfg, e, stage, p, ms[0]);
      forall j | 0 <= j < |ms[1..]| ensures StageVerdict(cfg, e, stage, p, ms[1..][j]).why.kind == MissingCandidate {
        assert StageVerdict(cfg, e, stage, p, ms[j + 1]).why.kind == MissingCandidate;
      }
      PollKeepsBest(cfg, e, stage, p, ms[1..], v');
    } else {
      forall j | k - 1 < j < |ms[1..]| ensures StageVerdict(cfg, e, stage, p, ms[1..][j]).why.kind == MissingCandidate {
        assert StageVerdict(cfg, e, stage, p, ms[j + 1]).why.kind == MissingCandidate;
      }
      PollEndsWithLast(cfg, e, stage, p, ms[1..], v', k - 1);
    }
  }

  /** With several candidates and none approved, the last objection counts: the
      exact stage reports it, a positional one if it is of a kind that is
      reported even about a primary that fits. */
  lemma LastObjectionCounts(cfg: Config, e: Engine, stage: Stage, p: Record, ms: seq<Record>, k: nat)
    requires NoneApproved(cfg, e, stage, p, ms) && LastObjector(cfg, e, stage, p, ms, k)
    ensures var why := StageVerdict(cfg, e, stage, p, ms[k]).why;
            StagePlan(cfg, e, stage, p, Candidates(ms, false)) ==
            if stage == ExactStage || Reported(why.kind) then Refuse(why) else Keep
  {
    hide StageVerdict;
    PollEndsWithLast(cfg, e, stage, p, ms, NoVote, k);
  }

  // ------------------------------------------------------------------- no bounds

  /** At most seventeen copies are near the aligned index, so without an anchor
      the list is never cut short. */
  lemma AlignedNeverTruncates(cfg: Config, e: Engine, p: Record)
    requires Indexed(e.h1) && p.packet.Content() && !e.anchor.valid
    ensures !FindCandidates(cfg, e, p).truncated
  {
    CandidatesAreExact(cfg, e, p);
    var c := FindCandidates(cfg, e, p);
    hide FindCandidates, IsCopy, CopyLeftOut;
    DistinctIndexes(c.rs);
    hide ProperList;
    var w := Window(p.index + e.align.offset - 8, 17);
    WindowSize(p.index + e.align.offset - 8, 17);
    forall i | i in Indexes(c.rs) ensures i in w { assert Listed(c, i); }
    SubsetSize(Indexes(c.rs), w);
  }

  /** The count a refusal carries when only the counters tell. */
  predicate CountedBy(e: Engine, p: Packet, why: Rejection) {
    && (why.hasMissing <==> p.hasPayload && !p.isNull && p.pid in e.outCc && p.cc != e.outCc[p.pid])
    && (if why.hasMissing then why.missing < 15 && p.cc == (e.outCc[p.pid] + why.missing + 1) % 16 else why.missing == 0)
  }

  /** A primary that does not fit and has no anchor before it or no copy within
      reach is refused, for want of confidence, of a copy or of an anchor. */
  lemma UnboundedIsReported(cfg: Config, e: Engine, p: Record)
    requires Indexed(e.h1) && p.packet.Content() && !Fits(e.outCc, p.packet)
    requires e.anchor.valid ==> forall i | e.h1.lo <= i < |e.h1.log| :: !CopyInReach(cfg, e, p, i)
    ensures var plan := PrimaryPlan(cfg, e, p);
            && plan.Refuse? && CountedBy(e, p.packet, plan.why)
            && (if e.align.confidence < cfg.minConfidence then plan.why.kind == LowAlignment && plan.why.reason == LowConfidence
                else if e.anchor.valid then plan.why.kind == Ambiguous && plan.why.reason == NoAfterAnchor
                else plan.why.kind == MissingCandidate && plan.why.reason == NoAnchorOrCandidate)
  {
    var c := FindCandidates(cfg, e, p);
    if e.anchor.valid {
      NoCopyNoCandidate(cfg, e, p);
    } else {
      AlignedNeverTruncates(cfg, e, p);
    }
    LastResortCounts(cfg, e, p, c);
    hide FindCandidates, StagePlan, TeiPlan, CopyInReach, LastResort, CountedBy, Fits;
    assert PrimaryPlan(cfg, e, p) == Refuse(LastResort(cfg, e, p, c));
  }

  lemma LastResortCounts(cfg: Config, e: Engine, p: Record, c: Candidates)
    requires (e.anchor.valid && c.rs == []) || (!e.anchor.valid && !c.truncated)
    ensures var why := LastResort(cfg, e, p, c);
            && CountedBy(e, p.packet, why)
            && (if e.align.confidence < cfg.minConfidence then why.kind == LowAlignment && why.reason == LowConfidence
                else if e.anchor.valid then why.kind == Ambiguous && why.reason == NoAfterAnchor
                else why.kind == MissingCandidate && why.reason == NoAnchorOrCandidate)
  {
  }

  lemma NoCopyNoCandidate(cfg: Config, e: Engine, p: Record)
    requires Indexed(e.h1) && p.packet.Content()
    requires forall i | e.h1.lo <= i < |e.h1.log| :: !CopyInReach(cfg, e, p, i)
    ensures FindCandidates(cfg, e, p).rs == []
  {
    if FindCandidates(cfg, e, p).rs != [] { CandidateIsCopy(cfg, e, p, 0); }
  }

  lemma CandidateIsCopy(cfg: Config, e: Engine, p: Record, k: nat)
    requires Indexed(e.h1) && p.packet.Content() && k < |FindCandidates(cfg, e, p).rs|
    ensures CopyInReach(cfg, e, p, FindCandidates(cfg, e, p).rs[k].index)
  {
    CandidatesAreExact(cfg, e, p);
    var c := FindCandidates(cfg, e, p);
    hide FindCandidates, InReach, NearAligned, PastAnchor;
    var i := c.rs[k].index;
    assert Listed(c, i) && IsCopy(e.h1, p.packet, i);
    InReachIsWindow(cfg, e, p, i);
    TwinsMatch(p.packet, e.h1.log[i].packet);
  }

  // ------------------------------------------------------------ what a refusal adds

  /** A refused gap of n packets before a content primary adds one reject of its
      kind and n packets of unrecoverable loss, nothing if it is one of nulls,
      whatever the sink then does. */
  lemma RefusedGapAdds(env: Env, e: Engine, kind: RejectKind, reason: Reason, n: nat)
    requires e.q0 != [] && e.q0[0].packet.Content()
    requires PrimaryPlan(env.cfg, e, e.q0[0]) == Refuse(Rejection(kind, reason, n, true))
    ensures var o := ProcessFront(env, e).e;
            && o.stats.rejects == e.stats.rejects + multiset{kind}
            && o.stats.unrecoverable == e.stats.unrecoverable + (if reason == NullBurstTooBig || reason == NullCandidate then 0 else n)
            && o.stats.recovered == e.stats.recovered
  {
    hide PrimaryPlan, FindCandidates, AnchorMatch, BoundsMatch, Observe, RepeatsCounter, BreaksCounter;
  }

  /** Sending a gap counts its packets once, and a burst if it is one. */
  lemma FilledGapAdds(env: Env, e: Engine, rs: seq<Record>, burst: bool)
    requires e.q0 != [] && PrimaryPlan(env.cfg, e, e.q0[0]) == Insert(rs, burst) && ProcessFront(env, e).ok
    ensures var o := ProcessFront(env, e).e;
            && o.stats.recovered == e.stats.recovered + |rs|
            && o.stats.bursts == e.stats.bursts + (if burst then 1 else 0)
            && o.stats.rejects == e.stats.rejects && o.stats.unrecoverable == e.stats.unrecoverable
  {
    hide PrimaryPlan, FindCandidates, AnchorMatch, BoundsMatch, Observe, RepeatsCounter, BreaksCounter, SendGap;
    GapAdds(env, e, rs);
    SendGapKeepsQueues(env, e, rs);
  }

  lemma {:induction false} GapAdds(env: Env, e: Engine, rs: seq<Record>)
    ensures var o := SendGap(env, e, rs);
            && (o.ok ==> o.e.stats.recovered == e.stats.recovered + |rs|)
            && o.e.stats.bursts == e.stats.bursts && o.e.stats.rejects == e.stats.rejects
            && o.e.stats.unrecoverable == e.stats.unrecoverable
    decreases |rs|
  {
    hide Observe, RepeatsCounter, BreaksCounter;
    if rs != [] && env.sinkOk(e.sends) {
      GapAdds(env, Recovered(Accepted(e, rs[0], Gap), rs[0].packet.isNull), rs[1..]);
    }
  }
}
