/** The repair itself: when both inputs are copies of one source with losses of
    their own, and the secondary holds each stretch the primary lost together
    with the content packets around it, the output is the source without a hole. */
module GapRepair {
  import opened Packets
  import opened State
  import opened Gaps
  import opened GapFacts
  import opened Receive
  import opened Drain
  import opened Decisions
  import opened Protocol
  import opened Invariants
  import opened Refinement
  import opened Sources
  import opened SecondaryLoss
  import opened DrainShape
  import opened GapRules

  // ------------------------------------------------------------------ the source

  /** Secondary records j, j+1, ... are retained and are source positions x .. y. */
  predicate HoldsStretch(h: History, F: seq<nat>, j: nat, x: nat, y: nat) {
    && x <= y && h.lo <= j && j + (y - x) < |h.log| <= |F|
    && forall k | j <= k <= j + (y - x) :: F[k] == x + (k - j)
  }

  ghost predicate StretchHeld(h: History, F: seq<nat>, x: nat, y: nat) {
    exists j: nat :: HoldsStretch(h, F, j, x, y)
  }

  /** A retained copy of this content packet, near the aligned position or near
      enough beyond the anchor, becomes the only candidate and the next anchor. */
  lemma CopyIsFound(cfg: Config, e: Engine, p: Record, S: seq<Packet>, F: seq<nat>, x: nat, j: nat)
    requires Indexed(e.h1) && CleanSource(S) && CopyWithLosses(e.h1.log, S, F)
    requires x < |S| && p.packet == S[x] && !S[x].isNull
    requires e.h1.lo <= j < |e.h1.log| && F[j] == x && (NearAligned(e, p, j) || PastAnchor(cfg, e, p, j))
    ensures FindCandidates(cfg, e, p) == Candidates([e.h1.log[j]], false)
    ensures AnchorMatch(e, p, FindCandidates(cfg, e, p)) == Some(e.h1.log[j]) && BoundsMatch(p, e.h1.log[j])
  {
    CandidatesOfSource(cfg, e, p, S, F, x);
    CandidatesAreExact(cfg, e, p);
    var c := FindCandidates(cfg, e, p);
    assert IsCopy(e.h1, p.packet, j);
    assert !CopyLeftOut(e.h1, p.packet, c, j);
    var k :| 0 <= k < |c.rs| && c.rs[k].index == j;
    assert c.rs == [e.h1.log[j]];
  }

  /** The output is the source from the first primary packet on, without a
      hole, up to the last primary sent; since the anchor the primary has lost
      nothing. */
  predicate OnTrack(e: Engine, S: seq<Packet>, F: seq<nat>, G: seq<nat>) {
    var n := |e.fates|;
    && CopyWithLosses(e.h0.log, S, G) && CopyWithLosses(e.h1.log, S, F)
    && 1 <= n <= |e.h0.log| && e.active == 0
    && SentPackets(e.out) == S[G[0]..G[n - 1] + 1] && e.outCc == ObserveAll(map[], S[G[0]..G[n - 1] + 1])
    && e.anchor.valid && e.anchor.p < n && e.anchor.s < |e.h1.log|
    && F[e.anchor.s] == G[e.anchor.p] && G[n - 1] == G[e.anchor.p] + (n - 1 - e.anchor.p)
  }

  lemma OnTrackCounts(e: Engine, S: seq<Packet>, F: seq<nat>, G: seq<nat>)
    requires OnTrack(e, S, F, G)
    ensures 1 <= |e.fates| <= |e.h0.log| <= |G| && e.active == 0
  {
  }

  /** The number of source packets lost directly before primary packet i. */
  function Lost(G: seq<nat>, i: nat): int
    requires 1 <= i < |G|
  {
    var x: int := G[i];
    x - G[i - 1] - 1
  }

  /** The last content packet of the primary before its packet i. */
  function LastContent(S: seq<Packet>, G: seq<nat>, i: nat): (c: nat)
    requires i <= |G| && Rising(G, |S|)
    ensures i > 0 ==> c < i
    ensures forall k | c < k < i :: S[G[k]].isNull
  {
    if i == 0 then 0 else if !S[G[i - 1]].isNull then i - 1 else LastContent(S, G, i - 1)
  }

  /** Something of the source between two positions has content. */
  predicate ContentBetween(S: seq<Packet>, x: nat, y: nat) {
    exists z | x < z < y :: z < |S| && !S[z].isNull
  }

  /** The loss before primary packet i can be repaired: it is no longer than
      the limit and ends before a content packet; nothing is lost among the
      nulls since the last content packet before it; the primary history still
      holds that packet and the secondary's the whole stretch from it on; and a
      loss of nulls alone follows that packet directly. */
  ghost predicate Repairable(cfg: Config, e: Engine, S: seq<Packet>, F: seq<nat>, G: seq<nat>, i: nat)
    requires CopyWithLosses(e.h0.log, S, G) && 1 <= i < |e.h0.log|
  {
    var c := LastContent(S, G, i);
    && Lost(G, i) <= cfg.maxBurst && !S[G[c]].isNull && !S[G[i]].isNull && G[i - 1] == G[c] + (i - 1 - c)
    && e.h0.lo <= c && StretchHeld(e.h1, F, G[c], G[i])
    && (c == i - 1 || ContentBetween(S, G[i - 1], G[i]))
  }

  /** Every loss in the queue can be repaired, with enough confidence in the
      alignment, and the content packet before it, once sent, is the anchor. */
  ghost predicate Covered(cfg: Config, e: Engine, S: seq<Packet>, F: seq<nat>, G: seq<nat>)
    requires OnTrack(e, S, F, G)
  {
    && e.align.confidence >= cfg.minConfidence
    && forall i | |e.fates| <= i < |e.h0.log| && Lost(G, i) > 0 ::
         Repairable(cfg, e, S, F, G, i) && (LastContent(S, G, i) < |e.fates| ==> e.anchor.p == LastContent(S, G, i))
  }

  lemma SourceFitsFrom(S: seq<Packet>, b: nat, a: nat, c: nat)
    requires CleanSource(S) && b <= a <= c <= |S|
    ensures FitsAll(ObserveAll(map[], S[b..a]), S[a..c])
    ensures ObserveAll(map[], S[b..c]) == ObserveAll(ObserveAll(map[], S[b..a]), S[a..c])
    ensures c < |S| ==> Fits(ObserveAll(map[], S[b..c]), S[c])
  {
    hide Fits, Observe, SameIdentity, ObserveAll, FitsAll;
    var T := S[b..];
    TailSlices(S, b, a, c);
    FitsAllSplit(map[], S[..b], T);
    FitsAllWithLess(map[], ObserveAll(map[], S[..b]), T);
    TailIsClean(S, b);
    SourceFits(T, a - b, c - b);
  }

  lemma TailSlices(S: seq<Packet>, b: nat, a: nat, c: nat)
    requires b <= a <= c <= |S|
    ensures var T := S[b..];
            && S[..b] + T == S && |T| == |S| - b && T[..a - b] == S[b..a] && T[..c - b] == S[b..c]
            && T[a - b..c - b] == S[a..c] && (c < |S| ==> T[c - b] == S[c])
  {
  }

  lemma TailIsClean(S: seq<Packet>, b: nat)
    requires CleanSource(S) && b <= |S| && FitsAll(map[], S[b..])
    ensures CleanSource(S[b..])
  {
  }

  // ------------------------------------------------------------- one primary sent

  /** Sending source packet x next continues the output. */
  lemma TrackExtends(S: seq<Packet>, b: nat, x: nat)
    requires b <= x < |S|
    ensures S[b..x] + [S[x]] == S[b..x + 1]
    ensures ObserveAll(map[], S[b..x + 1]) == Observe(ObserveAll(map[], S[b..x]), S[x])
  {
    FitsAllSplit(map[], S[b..x], [S[x]]);
    ObserveOne(ObserveAll(map[], S[b..x]), S[x]);
  }

  /** The output is the source up to, not including, the primary at the head. */
  predicate ReadyFor(e: Engine, S: seq<Packet>, F: seq<nat>, G: seq<nat>) {
    var n := |e.fates|;
    && CopyWithLosses(e.h0.log, S, G) && CopyWithLosses(e.h1.log, S, F)
    && 1 <= n < |e.h0.log| && e.q0 != [] && e.q0[0] == e.h0.log[n] && e.active == 0
    && SentPackets(e.out) == S[G[0]..G[n]] && e.outCc == ObserveAll(map[], S[G[0]..G[n]])
  }

  /** The anchor once the head has been sent with m as its copy. */
  predicate NextAnchor(e: Engine, F: seq<nat>, G: seq<nat>, m: Option<Record>) {
    var n := |e.fates|;
    if m.Some? && n < |G| && e.q0 != [] && BoundsMatch(e.q0[0], m.value)
    then FromSecondary(e, m.value) && m.value.index < |F| && F[m.value.index] == G[n]
    else e.anchor.valid && e.anchor.p < n < |G| && e.anchor.s < |e.h1.log| <= |F| &&
         F[e.anchor.s] == G[e.anchor.p] && G[n] == G[e.anchor.p] + (n - e.anchor.p)
  }

  lemma SentPacketsStep(out: seq<Emission>, x: Emission)
    ensures SentPackets(out + [x]) == SentPackets(out) + [x.r.packet]
  {
  }

  lemma EmissionOnTrack(env: Env, e: Engine, S: seq<Packet>, F: seq<nat>, G: seq<nat>, m: Option<Record>)
    requires Structured(e) && ReadyFor(e, S, F, G) && NextAnchor(e, F, G, m) && env.sinkOk(e.sends)
    ensures var o := EmitPrimary(env, e, m);
            && o.ok && OnTrack(o.e, S, F, G) && o.e.stats.recovered == e.stats.recovered && o.e.stats.rejects == e.stats.rejects
            && (if m.Some? && BoundsMatch(e.q0[0], m.value) then o.e.anchor == Anchor(true, |e.fates|, m.value.index)
                else o.e.anchor == e.anchor)
  {
    hide ObserveAll, RepeatsCounter, BreaksCounter, Observe, SentPackets;
    var n := |e.fates|;
    TrackExtends(S, G[0], G[n]);
    SentPacketsStep(e.out, Emission(Direct, e.q0[0]));
  }

  // ------------------------------------------------------- nothing missing before p

  lemma KeptOnTrack(env: Env, e: Engine, S: seq<Packet>, F: seq<nat>, G: seq<nat>)
    requires CleanSource(S) && Inv(e) && OnTrack(e, S, F, G) && e.q0 != [] && SinkWorks(env)
    requires Lost(G, |e.fates|) == 0
    ensures var o := ProcessFront(env, e);
            && o.ok && OnTrack(o.e, S, F, G) && o.e.stats.recovered == e.stats.recovered && o.e.stats.rejects == e.stats.rejects
            && (var m := AnchorMatch(e, e.q0[0], FindCandidates(env.cfg, e, e.q0[0]));
                if m.Some? && BoundsMatch(e.q0[0], m.value) then o.e.anchor == Anchor(true, |e.fates|, m.value.index)
                else o.e.anchor == e.anchor)
  {
    hide FindCandidates, AnchorMatch, PrimaryPlan, EmitPrimary, SentPackets, ObserveAll;
    var n := |e.fates|;
    var p := e.q0[0];
    assert G[n] == G[n - 1] + 1;
    SourceFitsFrom(S, G[0], G[n], G[n]);
    NothingMissingIsKept(env.cfg, e, p, S, F, G[n], G[e.anchor.p]);
    AnchorOfSource(env.cfg, e, p, S, F, G[n]);
    var m := AnchorMatch(e, p, FindCandidates(env.cfg, e, p));
    assert ReadyFor(e, S, F, G) && NextAnchor(e, F, G, m);
    EmissionOnTrack(env, e, S, F, G, m);
  }

  /** A copy no further from the anchor than the primary is within reach. */
  lemma CopyWithinReach(cfg: Config, e: Engine, p: Record, S: seq<Packet>, F: seq<nat>, j: nat, lost: nat)
    requires Rising(F, |S|) && e.anchor.valid && e.anchor.s < |F| && j < |F|
    requires F[e.anchor.s] < F[j] && F[j] == F[e.anchor.s] + (p.index - e.anchor.p) + lost
    requires p.index > e.anchor.p && lost <= cfg.maxBurst
    ensures PastAnchor(cfg, e, p, j)
  {
    if j <= e.anchor.s {
      RisingSpread(F, |S|, j, e.anchor.s);
    } else {
      RisingSpread(F, |S|, e.anchor.s, j);
    }
  }

  /** If this is the last content packet before a loss, it becomes the anchor. */
  lemma KeptIsAnchored(env: Env, e: Engine, S: seq<Packet>, F: seq<nat>, G: seq<nat>, i: nat)
    requires CleanSource(S) && Inv(e) && OnTrack(e, S, F, G) && e.q0 != []
    requires Lost(G, |e.fates|) == 0
    requires |e.fates| < i < |e.h0.log| && Repairable(env.cfg, e, S, F, G, i) && LastContent(S, G, i) == |e.fates|
    ensures var m := AnchorMatch(e, e.q0[0], FindCandidates(env.cfg, e, e.q0[0]));
            m.Some? && BoundsMatch(e.q0[0], m.value)
  {
    hide FindCandidates, AnchorMatch, SentPackets, ObserveAll, CleanSource, LastContent;
    var n := |e.fates|;
    var j: nat :| HoldsStretch(e.h1, F, j, G[n], G[i]);
    CopyWithinReach(env.cfg, e, e.q0[0], S, F, j, 0);
    CopyIsFound(env.cfg, e, e.q0[0], S, F, G[n], j);
  }

  // ----------------------------------------------------------- a loss before p

  /** The effect of sending rs in full. */
  lemma {:induction false} GapSent(env: Env, e: Engine, rs: seq<Record>)
    requires SinkWorks(env)
    ensures var o := SendGap(env, e, rs);
            && o.ok && SentPackets(o.e.out) == SentPackets(e.out) + PacketsOf(rs)
            && o.e.outCc == ObserveAll(e.outCc, PacketsOf(rs))
            && o.e.stats.recovered == e.stats.recovered + |rs| && o.e.stats.rejects == e.stats.rejects
    decreases |rs|
  {
    hide RepeatsCounter, BreaksCounter;
    if rs == [] {
      assert PacketsOf(rs) == [];
    } else {
      var e1 := Recovered(Accepted(e, rs[0], Gap), rs[0].packet.isNull);
      GapSent(env, e1, rs[1..]);
      assert PacketsOf(rs)[0] == rs[0].packet && PacketsOf(rs)[1..] == PacketsOf(rs[1..]);
      SentPacketsStep(e.out, Emission(Gap, rs[0]));
      assert SentPackets(e.out) + [rs[0].packet] + PacketsOf(rs[1..]) == SentPackets(e.out) + PacketsOf(rs);
    }
  }

  /** A held stretch, borders left off, is the lost part of the source. */
  lemma StretchIsSource(h: History, S: seq<Packet>, F: seq<nat>, j: nat, x: nat, y: nat)
    requires CopyWithLosses(h.log, S, F) && HoldsStretch(h, F, j, x, y) && x < y
    ensures y < |S| && Held(h, j + 1, y - x - 1) && PacketsOf(Span(h, j + 1, y - x - 1)) == S[x + 1..y]
  {
    assert F[j + (y - x)] == y;
    var ps := PacketsOf(Span(h, j + 1, y - x - 1));
    forall i | 0 <= i < |ps| ensures ps[i] == S[x + 1..y][i] {
      assert h.log[j + 1 + i].packet == S[F[j + 1 + i]];
    }
  }

  /** The stretch before the head starts at the anchor. */
  lemma StretchStartsAtAnchor(e: Engine, S: seq<Packet>, F: seq<nat>, G: seq<nat>, j: nat, x: nat, y: nat)
    requires CopyWithLosses(e.h1.log, S, F) && HoldsStretch(e.h1, F, j, x, y)
    requires e.anchor.s < |e.h1.log| && F[e.anchor.s] == x
    ensures j == e.anchor.s
  {
    if j < e.anchor.s {
      RisingSpread(F, |S|, j, e.anchor.s);
    } else {
      RisingSpread(F, |S|, e.anchor.s, j);
    }
  }

  /** The copy of a content packet of the source is the only one. */
  lemma CopyIsSole(cfg: Config, e: Engine, p: Record, S: seq<Packet>, F: seq<nat>, x: nat, k: nat)
    requires Indexed(e.h1) && CleanSource(S) && CopyWithLosses(e.h1.log, S, F)
    requires x < |S| && p.packet == S[x] && !S[x].isNull
    requires e.h1.lo <= k < |e.h1.log| && F[k] == x && PastAnchor(cfg, e, p, k)
    ensures SoleCopy(cfg, e, p, e.h1.log[k])
  {
    InReachIsWindow(cfg, e, p, k);
    forall i | e.h1.lo <= i < |e.h1.log| && Twins(p.packet, e.h1.log[i].packet) ensures i == k {
      TwinsMatch(p.packet, e.h1.log[i].packet);
      CopyIsUnique(S, F, e.h1, x, i);
    }
    hide InReach, PastAnchor;
  }

  /** Between the last content packet sent and the loss both streams agree. */
  lemma NullsAreShared(e: Engine, S: seq<Packet>, F: seq<nat>, G: seq<nat>, b: nat, y: nat)
    requires AllSound(S) && CopyWithLosses(e.h0.log, S, G) && CopyWithLosses(e.h1.log, S, F)
    requires e.h0.lo <= e.anchor.p && e.anchor.p + b < |e.h0.log| && HoldsStretch(e.h1, F, e.anchor.s, G[e.anchor.p], y)
    requires G[e.anchor.p + b] == G[e.anchor.p] + b <= y
    ensures forall d | 0 <= d <= b :: PairHeld(e, d)
  {
    var a, s := e.anchor.p, e.anchor.s;
    forall d | 0 <= d <= b ensures PairHeld(e, d) {
      RisingSpread(G, |S|, a, a + d);
      RisingSpread(G, |S|, a + d, a + b);
      assert G[a + d] == G[a] + d && F[s + d] == G[a] + d;
      assert S[G[a] + d].Sound();
    }
  }

  /** The stretch after the nulls is a stretch. */
  lemma StretchTail(h: History, F: seq<nat>, j: nat, x: nat, y: nat, b: nat)
    requires HoldsStretch(h, F, j, x, y) && x + b <= y
    ensures HoldsStretch(h, F, j + b, x + b, y)
  {
  }

  /** A loss at the head is offered for repair: its end has one copy, and both
      streams agree from the anchor to the loss. */
  lemma LossIsOffered(cfg: Config, e: Engine, S: seq<Packet>, F: seq<nat>, G: seq<nat>) returns (m: Record)
    requires CleanSource(S) && Inv(e) && OnTrack(e, S, F, G) && e.q0 != [] && Covered(cfg, e, S, F, G)
    requires Lost(G, |e.fates|) > 0
    ensures var n := |e.fates|; var p, b := e.q0[0], n - 1 - e.anchor.p;
            && AnchorMatch(e, p, FindCandidates(cfg, e, p)) == Some(m) && FromSecondary(e, m) && F[m.index] == G[n]
            && b >= 0 && SoleCopy(cfg, e, p, m) && Offers(e, p, m, b, Lost(G, n)) && Allowed(cfg, e, Lost(G, n))
            && AnchorIsPair(e) && Shared(e, b) && HoldsStretch(e.h1, F, e.anchor.s + b, G[n - 1], G[n])
            && (b == 0 || ContentBetween(S, G[n - 1], G[n]))
  {
    hide FindCandidates, AnchorMatch, SentPackets, ObserveAll, Ledger, Sourced, Accounted, AlignmentSound, LastContent, FitsAll, SoleCopy;
    var n := |e.fates|;
    var p := e.q0[0];
    assert Repairable(cfg, e, S, F, G, n);
    var c := LastContent(S, G, n);
    assert c == e.anchor.p;
    var b := n - 1 - c;
    var j: nat :| HoldsStretch(e.h1, F, j, G[c], G[n]);
    StretchStartsAtAnchor(e, S, F, G, j, G[c], G[n]);
    StretchTail(e.h1, F, j, G[c], G[n], b);
    var k := j + (G[n] - G[c]);
    m := e.h1.log[k];
    LossInReach(cfg, e, p, S, F, G, k);
    CopyIsFound(cfg, e, p, S, F, G[n], k);
    CopyIsSole(cfg, e, p, S, F, G[n], k);
    NullsAreShared(e, S, F, G, b, G[n]);
    assert PairHeld(e, 0);
  }

  lemma LossInReach(cfg: Config, e: Engine, p: Record, S: seq<Packet>, F: seq<nat>, G: seq<nat>, k: nat)
    requires Rising(F, |S|) && Rising(G, |S|) && e.anchor.valid && e.anchor.s < |F| && k < |F|
    requires 1 <= p.index < |G| && e.anchor.p < p.index && F[e.anchor.s] == G[e.anchor.p] && F[k] == G[p.index]
    requires G[p.index - 1] == G[e.anchor.p] + (p.index - 1 - e.anchor.p) && 0 < Lost(G, p.index) <= cfg.maxBurst
    ensures PastAnchor(cfg, e, p, k)
  {
    CopyWithinReach(cfg, e, p, S, F, k, Lost(G, p.index));
  }

  lemma SliceIsSound(S: seq<Packet>, a: nat, c: nat)
    requires CleanSource(S) && a <= c <= |S|
    ensures AllSound(S[a..c])
  {
  }

  /** The stretch of a copy between source positions x and y, after the source
      from b to x has been sent. */
  lemma StretchFits(h: History, S: seq<Packet>, F: seq<nat>, j: nat, b: nat, x: nat, y: nat, states: Counters)
    requires CleanSource(S) && CopyWithLosses(h.log, S, F) && HoldsStretch(h, F, j, x, y)
    requires b <= x < y < |S| && states == ObserveAll(map[], S[b..x + 1])
    ensures var ps := PacketsOf(Span(h, j + 1, y - x - 1));
            && ps == S[x + 1..y] && Held(h, j + 1, y - x - 1) && AllSound(ps)
            && FitsAll(states, ps) && Fits(ObserveAll(states, ps), S[y])
            && ObserveAll(states, ps) == ObserveAll(map[], S[b..y])
  {
    hide FitsAll, Fits, Observe, ObserveAll, CleanSource, AllSound, HoldsStretch, Held, CopyWithLosses, Span;
    SliceIsSound(S, x + 1, y);
    StretchIsSource(h, S, F, j, x, y);
    SourceFitsFrom(S, b, x + 1, y);
  }

  lemma SlicesJoin(S: seq<Packet>, a: nat, b: nat, c: nat)
    requires a <= b <= c <= |S|
    ensures S[a..b] + S[b..c] == S[a..c]
  {
  }

  lemma HeadOfCopy(e: Engine, S: seq<Packet>, F: seq<nat>, G: seq<nat>)
    requires Structured(e) && OnTrack(e, S, F, G) && e.q0 != []
    ensures var n := |e.fates|;
            n < |G| && G[0] <= G[n - 1] < G[n] < |S| && e.q0[0].packet == S[G[n]] && e.outCc == ObserveAll(map[], S[G[0]..G[n - 1] + 1])
  {
    hide ObserveAll, SentPackets;
    assert e.q0[0] == e.h0.log[|e.fates|];
  }

  lemma GapIsSpanPackets(e: Engine, b: nat, n: nat)
    ensures GapRetained(e, b, n) <==> Held(e.h1, e.anchor.s + b + 1, n)
    ensures GapRetained(e, b, n) ==> GapPackets(e, b, n) == PacketsOf(Span(e.h1, e.anchor.s + b + 1, n))
  {
    GapIsSpan(e, b, n);
  }

  lemma ContentShows(S: seq<Packet>, x: nat, y: nat)
    requires x < y <= |S|
    ensures ContentBetween(S, x, y) <==> SomeContent(S[x + 1..y])
  {
    var ps := S[x + 1..y];
    if z :| x < z < y && z < |S| && !S[z].isNull { assert ps[z - x - 1] == S[z]; }
    if i :| 0 <= i < |ps| && !ps[i].isNull { assert S[x + 1 + i] == ps[i]; }
  }

  /** A stretch of the source offered for repair is filled with exactly what is
      missing: o is where the output starts, x the last position sent, y the
      position of the head. */
  lemma StretchIsFilled(cfg: Config, e: Engine, S: seq<Packet>, F: seq<nat>, o: nat, x: nat, y: nat, m: Record, b: nat)
    requires CleanSource(S) && CopyWithLosses(e.h1.log, S, F) && HoldsStretch(e.h1, F, e.anchor.s + b, x, y)
    requires o <= x < y < |S| && e.outCc == ObserveAll(map[], S[o..x + 1]) && e.q0 != [] && e.q0[0].packet == S[y]
    requires SoleCopy(cfg, e, e.q0[0], m) && Offers(e, e.q0[0], m, b, y - x - 1) && Allowed(cfg, e, y - x - 1)
    requires AnchorIsPair(e) && Shared(e, b) && (b == 0 || ContentBetween(S, x, y))
    ensures var plan := PrimaryPlan(cfg, e, e.q0[0]);
            && plan.Insert? && PacketsOf(plan.rs) == S[x + 1..y] && GapRetained(e, b, y - x - 1)
            && plan.rs == GapRecords(e, b, y - x - 1)
            && ObserveAll(e.outCc, S[x + 1..y]) == ObserveAll(map[], S[o..y])
            && S[o..x + 1] + S[x + 1..y] == S[o..y]
  {
    hide *;
    var n: nat := y - x - 1;
    GapIsSpanPackets(e, b, n);
    StretchFits(e.h1, S, F, e.anchor.s + b, o, x, y, e.outCc);
    SlicesJoin(S, o, x + 1, y);
    ContentShows(S, x, y);
    SoundGapIsFilled(cfg, e, e.q0[0], m, b, n);
    GapRecordsAre(e, b, n);
  }

  /** A loss at the head is filled with exactly what is missing. */
  lemma LossIsFilled(cfg: Config, e: Engine, S: seq<Packet>, F: seq<nat>, G: seq<nat>, m: Record, b: nat)
    requires CleanSource(S) && Structured(e) && OnTrack(e, S, F, G) && e.q0 != [] && Lost(G, |e.fates|) > 0
    requires var n, p := |e.fates|, e.q0[0];
             && SoleCopy(cfg, e, p, m) && Offers(e, p, m, b, Lost(G, n)) && Allowed(cfg, e, Lost(G, n)) && AnchorIsPair(e) && Shared(e, b)
             && HoldsStretch(e.h1, F, e.anchor.s + b, G[n - 1], G[n]) && (b == 0 || ContentBetween(S, G[n - 1], G[n]))
    ensures var n, plan := |e.fates|, PrimaryPlan(cfg, e, e.q0[0]);
            && plan.Insert? && PacketsOf(plan.rs) == S[G[n - 1] + 1..G[n]] && GapRetained(e, b, Lost(G, n))
            && plan.rs == GapRecords(e, b, Lost(G, n))
            && ObserveAll(e.outCc, S[G[n - 1] + 1..G[n]]) == ObserveAll(map[], S[G[0]..G[n]])
            && S[G[0]..G[n - 1] + 1] + S[G[n - 1] + 1..G[n]] == S[G[0]..G[n]]
  {
    var n := |e.fates|;
    HeadOfCopy(e, S, F, G);
    SourcesOnTrack(e, S, F, G);
    hide PrimaryPlan, SoleCopy, Offers, Structured, OnTrack, ObserveAll, CleanSource, CopyWithLosses, HoldsStretch,
         AnchorIsPair, Shared, SentPackets, PacketsOf, GapRetained, GapRecords, ContentBetween, Allowed;
    var o, x, y := G[0], G[n - 1], G[n];
    assert Lost(G, n) == y - x - 1;
    hide Lost;
    StretchIsFilled(cfg, e, S, F, o, x, y, m, b);
  }

  lemma GapRecordsAre(e: Engine, b: nat, n: nat)
    requires GapRetained(e, b, n)
    ensures PacketsOf(GapRecords(e, b, n)) == GapPackets(e, b, n)
  {
  }

  lemma SourcesOnTrack(e: Engine, S: seq<Packet>, F: seq<nat>, G: seq<nat>)
    requires OnTrack(e, S, F, G)
    ensures CopyWithLosses(e.h1.log, S, F)
  {
  }

  /** Once the gap is sent, the output is complete up to the head. */
  lemma GapMakesReady(env: Env, e: Engine, S: seq<Packet>, F: seq<nat>, G: seq<nat>, rs: seq<Record>, burst: bool)
    requires Structured(e) && OnTrack(e, S, F, G) && e.q0 != [] && SinkWorks(env)
    requires var n := |e.fates|;
             && Lost(G, n) > 0 && PacketsOf(rs) == S[G[n - 1] + 1..G[n]]
             && ObserveAll(e.outCc, S[G[n - 1] + 1..G[n]]) == ObserveAll(map[], S[G[0]..G[n]])
             && S[G[0]..G[n - 1] + 1] + S[G[n - 1] + 1..G[n]] == S[G[0]..G[n]]
    ensures var o := CarryOut(env, e, e.q0[0], Insert(rs, burst));
            && o.ok && ReadyFor(o.e, S, F, G) && Structured(o.e)
            && o.e.stats.recovered == e.stats.recovered + |rs| && o.e.stats.rejects == e.stats.rejects
  {
    hide SentPackets, ObserveAll, SendGap;
    GapSent(env, e, rs);
    SendGapKeepsQueues(env, e, rs);
  }

  lemma RepairedOnTrack(env: Env, e: Engine, S: seq<Packet>, F: seq<nat>, G: seq<nat>)
    requires CleanSource(S) && Inv(e) && OnTrack(e, S, F, G) && e.q0 != [] && Covered(env.cfg, e, S, F, G) && SinkWorks(env)
    requires Lost(G, |e.fates|) > 0
    ensures var o := ProcessFront(env, e);
            && o.ok && OnTrack(o.e, S, F, G) && o.e.anchor.p == |e.fates|
            && o.e.stats.recovered == e.stats.recovered + Lost(G, |e.fates|) && o.e.stats.rejects == e.stats.rejects
  {
    var n := |e.fates|;
    var m := LossIsOffered(env.cfg, e, S, F, G);
    HeadOfCopy(e, S, F, G);
    var b := n - 1 - e.anchor.p;
    OfferIsBound(e, e.q0[0], m, b, Lost(G, n));
    hide FindCandidates, AnchorMatch, PrimaryPlan, ProcessFront, OnTrack, ObserveAll, SoleCopy, AnchorIsPair, Shared, Offers, Allowed,
         Ledger, Sourced, Accounted, AlignmentSound, Anchored, CleanSource, Covered, GapRecords, FromSecondary, BoundsMatch, HoldsStretch;
    LossIsFilled(env.cfg, e, S, F, G, m, b);
    FilledTurn(env, e, S, F, G, m);
  }

  /** A turn that fills the loss before the head with what the source has there. */
  lemma FilledTurn(env: Env, e: Engine, S: seq<Packet>, F: seq<nat>, G: seq<nat>, m: Record)
    requires Structured(e) && OnTrack(e, S, F, G) && e.q0 != [] && SinkWorks(env) && |e.fates| < |G| && Lost(G, |e.fates|) > 0
    requires G[|e.fates| - 1] < G[|e.fates|] < |S| && G[0] <= G[|e.fates| - 1]
    requires var n, plan := |e.fates|, PrimaryPlan(env.cfg, e, e.q0[0]);
             && plan.Insert? && PacketsOf(plan.rs) == S[G[n - 1] + 1..G[n]]
             && ObserveAll(e.outCc, S[G[n - 1] + 1..G[n]]) == ObserveAll(map[], S[G[0]..G[n]])
             && S[G[0]..G[n - 1] + 1] + S[G[n - 1] + 1..G[n]] == S[G[0]..G[n]]
    requires AnchorMatch(e, e.q0[0], FindCandidates(env.cfg, e, e.q0[0])) == Some(m)
    requires FromSecondary(e, m) && m.index < |F| && F[m.index] == G[|e.fates|] && BoundsMatch(e.q0[0], m)
    ensures var o := ProcessFront(env, e);
            && o.ok && OnTrack(o.e, S, F, G) && o.e.anchor.p == |e.fates|
            && o.e.stats.recovered == e.stats.recovered + Lost(G, |e.fates|) && o.e.stats.rejects == e.stats.rejects
  {
    hide FindCandidates, AnchorMatch, PrimaryPlan, EmitPrimary, CarryOut, SentPackets, ObserveAll, OnTrack, FromStream, BoundsMatch;
    var n, p := |e.fates|, e.q0[0];
    var plan := PrimaryPlan(env.cfg, e, p);
    GapMakesReady(env, e, S, F, G, plan.rs, plan.burst);
    CarryOutKeeps(env, e, p, plan);
    var o := CarryOut(env, e, p, plan).e;
    assert |PacketsOf(plan.rs)| == Lost(G, n);
    assert NextAnchor(o, F, G, Some(m));
    EmissionOnTrack(env, o, S, F, G, Some(m));
  }

  lemma OfferIsBound(e: Engine, p: Record, m: Record, b: nat, n: nat)
    requires Offers(e, p, m, b, n)
    ensures BoundsMatch(p, m)
  {
  }

  // --------------------------------------------------------------------- a pass

  /** The totals after a pass from e to o: everything the primary lost between
      its last packets sent was recovered, and nothing was rejected. */
  predicate Repaired(e: Engine, o: Engine, G: seq<nat>)
    requires 1 <= |e.fates| <= |o.fates| <= |G|
  {
    && o.stats.rejects == e.stats.rejects
    && o.stats.recovered + (|o.fates| - |e.fates|) + G[|e.fates| - 1] == e.stats.recovered + G[|o.fates| - 1]
  }

  /** After a turn the anchor is where the next losses want it: a null leaves it
      alone, and the last content packet before a loss becomes it. */
  ghost predicate AnchorsOn(e: Engine, o: Engine, S: seq<Packet>, G: seq<nat>)
    requires Rising(G, |S|) && |e.fates| < |e.h0.log| <= |G|
  {
    var n := |e.fates|;
    && (S[G[n]].isNull ==> o.anchor == e.anchor)
    && forall i | n < i < |e.h0.log| && Lost(G, i) > 0 && LastContent(S, G, i) == n :: o.anchor.p == n
  }

  lemma StillCovered(cfg: Config, e: Engine, o: Engine, S: seq<Packet>, F: seq<nat>, G: seq<nat>)
    requires OnTrack(e, S, F, G) && OnTrack(o, S, F, G) && Covered(cfg, e, S, F, G) && |e.fates| < |e.h0.log|
    requires SameInputs(e, o) && |o.fates| == |e.fates| + 1 && AnchorsOn(e, o, S, G)
    ensures Covered(cfg, o, S, F, G)
  {
    hide SentPackets, ObserveAll, StretchHeld, LastContent, ContentBetween;
    var n := |e.fates|;
    forall i | |o.fates| <= i < |o.h0.log| && Lost(G, i) > 0
      ensures Repairable(cfg, o, S, F, G, i) && (LastContent(S, G, i) < |o.fates| ==> o.anchor.p == LastContent(S, G, i))
    {
      assert Repairable(cfg, e, S, F, G, i);
      var c := LastContent(S, G, i);
      if c < n { assert S[G[n]].isNull; }
    }
  }

  lemma KeptTurn(env: Env, e: Engine, S: seq<Packet>, F: seq<nat>, G: seq<nat>)
    requires CleanSource(S) && Inv(e) && OnTrack(e, S, F, G) && e.q0 != [] && Covered(env.cfg, e, S, F, G) && SinkWorks(env)
    requires Lost(G, |e.fates|) == 0
    ensures var o := ProcessFront(env, e);
            && o.ok && OnTrack(o.e, S, F, G) && o.e.stats.recovered == e.stats.recovered && o.e.stats.rejects == e.stats.rejects
            && |e.fates| < |e.h0.log| && AnchorsOn(e, o.e, S, G)
  {
    hide ProcessFront, SentPackets, ObserveAll, CleanSource, FindCandidates, AnchorMatch, Repairable, LastContent,
         Ledger, Sourced, Accounted, AlignmentSound, Anchored;
    var n := |e.fates|;
    HeadOfCopy(e, S, F, G);
    KeptOnTrack(env, e, S, F, G);
    forall i | n < i < |e.h0.log| && Lost(G, i) > 0 && LastContent(S, G, i) == n ensures ProcessFront(env, e).e.anchor.p == n {
      assert Repairable(env.cfg, e, S, F, G, i);
      KeptIsAnchored(env, e, S, F, G, i);
    }
  }

  /** One turn repairs the loss before the head, if there is one, and sends it. */
  lemma FrontAdvances(env: Env, e: Engine, S: seq<Packet>, F: seq<nat>, G: seq<nat>)
    requires CleanSource(S) && Inv(e) && OnTrack(e, S, F, G) && e.q0 != [] && Covered(env.cfg, e, S, F, G) && SinkWorks(env)
    ensures var o, n := ProcessFront(env, e), |e.fates|;
            && n < |e.h0.log| <= |G| && Rising(G, |S|) && o.ok && OnTrack(o.e, S, F, G)
            && o.e.stats.recovered == e.stats.recovered + Lost(G, n) && o.e.stats.rejects == e.stats.rejects
            && AnchorsOn(e, o.e, S, G)
  {
    HeadOfCopy(e, S, F, G);
    if Lost(G, |e.fates|) > 0 {
      assert Repairable(env.cfg, e, S, F, G, |e.fates|);
      hide ProcessFront, SentPackets, ObserveAll, CleanSource, Covered, Rising, LastContent,
           Structured, Ledger, Sourced, Accounted, AlignmentSound, Anchored;
      RepairedOnTrack(env, e, S, F, G);
    } else {
      hide ProcessFront, SentPackets, ObserveAll, CleanSource, Covered, Rising, LastContent, AnchorsOn,
           Structured, Ledger, Sourced, Accounted, AlignmentSound, Anchored;
      KeptTurn(env, e, S, F, G);
    }
  }

  lemma OneMoreRepaired(e: Engine, o: Engine, G: seq<nat>)
    requires 1 <= |e.fates| < |G| && |o.fates| == |e.fates| + 1
    requires o.stats.recovered == e.stats.recovered + Lost(G, |e.fates|) && o.stats.rejects == e.stats.rejects
    ensures Repaired(e, o, G)
  {
  }

  /** One turn keeps the output whole, repairing the loss before the head. */
  lemma FrontOnTrack(env: Env, e: Engine, S: seq<Packet>, F: seq<nat>, G: seq<nat>)
    requires CleanSource(S) && Inv(e) && OnTrack(e, S, F, G) && e.q0 != [] && Covered(env.cfg, e, S, F, G) && SinkWorks(env)
    ensures var o := ProcessFront(env, e);
            && o.ok && OnTrack(o.e, S, F, G) && |o.e.fates| == |e.fates| + 1
            && Repaired(e, o.e, G) && Covered(env.cfg, o.e, S, F, G)
  {
    hide ProcessFront, OnTrack, CleanSource, Covered, Structured, Ledger, Sourced, Accounted, AlignmentSound, Anchored;
    var o := ProcessFront(env, e).e;
    OnTrackCounts(e, S, F, G);
    FrontAdvances(env, e, S, F, G);
    FrontKeepsInputs(env, e);
    FrontKeepsInv(env, e);
    QueueTellsFates(e, o);
    OneMoreRepaired(e, o, G);
    StillCovered(env.cfg, e, o, S, F, G);
  }

  lemma QueueTellsFates(e: Engine, o: Engine)
    requires Structured(e) && Structured(o) && o.h0 == e.h0 && e.q0 != [] && o.q0 == e.q0[1..]
    ensures |o.fates| == |e.fates| + 1
  {
  }

  lemma RepairedAdds(e: Engine, m: Engine, o: Engine, G: seq<nat>)
    requires 1 <= |e.fates| <= |m.fates| <= |o.fates| <= |G| && Repaired(e, m, G) && Repaired(m, o, G)
    ensures Repaired(e, o, G)
  {
  }

  /** What a pass that is on track achieves; a forced one empties the queue. */
  ghost predicate GoodPass(cfg: Config, e: Engine, o: Res, force: bool, S: seq<Packet>, F: seq<nat>, G: seq<nat>)
    requires OnTrack(e, S, F, G)
  {
    && o.ok && OnTrack(o.e, S, F, G) && |e.fates| <= |o.e.fates|
    && Repaired(e, o.e, G) && Covered(cfg, o.e, S, F, G) && (force ==> o.e.q0 == [])
  }

  lemma {:induction false} LoopOnTrack(env: Env, e: Engine, force: bool, S: seq<Packet>, F: seq<nat>, G: seq<nat>)
    requires CleanSource(S) && Inv(e) && OnTrack(e, S, F, G) && Covered(env.cfg, e, S, F, G) && SinkWorks(env)
    requires NeverSilent(env, e, e.tick, Loop(env, e, force).e.tick)
    ensures GoodPass(env.cfg, e, Loop(env, e, force), force, S, F, G)
    decreases |e.q0|, 1
  {
    hide Turn, CleanSource, Inv, Silent, SinkWorks, OnTrack, Covered;
    OnTrackCounts(e, S, F, G);
    var e1 := Apply(env, e, Clock);
    MoveKeepsInv(env, e, Clock);
    LoopKeepsInputs(env, e, force);
    assert !Silent(env.cfg, e, env.clock(e.tick));
    SilenceIsSame(env, e, e1);
    ClockKeepsTrack(env.cfg, e, S, F, G);
    if e.q0 != [] {
      TurnOnTrack(env, e1, force, env.clock(e.tick), S, F, G);
    }
  }

  lemma ClockKeepsTrack(cfg: Config, e: Engine, S: seq<Packet>, F: seq<nat>, G: seq<nat>)
    requires OnTrack(e, S, F, G) && Covered(cfg, e, S, F, G)
    ensures var e1 := e.(tick := e.tick + 1); OnTrack(e1, S, F, G) && Covered(cfg, e1, S, F, G)
  {
    hide SentPackets, ObserveAll, StretchHeld;
    var e1 := e.(tick := e.tick + 1);
    forall i | |e1.fates| <= i < |e1.h0.log| && Lost(G, i) > 0
      ensures Repairable(cfg, e1, S, F, G, i)
    {
      assert Repairable(cfg, e, S, F, G, i);
    }
  }

  lemma {:induction false} TurnOnTrack(env: Env, e: Engine, force: bool, now: nat, S: seq<Packet>, F: seq<nat>, G: seq<nat>)
    requires CleanSource(S) && Inv(e) && OnTrack(e, S, F, G) && Covered(env.cfg, e, S, F, G) && SinkWorks(env) && e.q0 != []
    requires NeverSilent(env, e, e.tick, Turn(env, e, force, now).e.tick)
    ensures GoodPass(env.cfg, e, Turn(env, e, force, now), force, S, F, G)
    decreases |e.q0|, 0
  {
    hide ProcessFront, Loop, CleanSource, Inv, Silent, SinkWorks, SentPackets, ObserveAll, Covered;
    if !NotDue(env.cfg, e.q0[0], force, now) {
      FrontKeepsInputs(env, e);
      FrontKeepsInv(env, e);
      FrontOnTrack(env, e, S, F, G);
      var o := ProcessFront(env, e);
      SilenceIsSame(env, e, o.e);
      LoopOnTrack(env, o.e, force, S, F, G);
      RepairedAdds(e, o.e, Loop(env, o.e, force).e, G);
    }
  }

  lemma DispatchOnTrack(env: Env, e: Engine, force: bool, now: nat, S: seq<Packet>, F: seq<nat>, G: seq<nat>)
    requires CleanSource(S) && Inv(e) && OnTrack(e, S, F, G) && Covered(env.cfg, e, S, F, G) && SinkWorks(env)
    requires (e.q0 != [] ==> !AlreadyOutput(e, e.q0[0])) && !Silent(env.cfg, e, now)
    requires NeverSilent(env, e, e.tick, Dispatch(env, e, force, now).e.tick)
    ensures GoodPass(env.cfg, e, Dispatch(env, e, force, now), force, S, F, G)
  {
    hide Loop, CleanSource, Inv, Silent, SinkWorks, SentPackets, ObserveAll, Covered;
    assert PrimaryTrimmed(e) == e && SetActive(e, 0) == e;
    if e.q0 != [] {
      LoopOnTrack(env, e, force, S, F, G);
    }
  }

  lemma OpenedKeepsTrack(env: Env, e: Engine, S: seq<Packet>, F: seq<nat>, G: seq<nat>)
    requires OnTrack(e, S, F, G) && Covered(env.cfg, e, S, F, G)
    ensures OnTrack(Opened(env, e), S, F, G) && Covered(env.cfg, Opened(env, e), S, F, G)
  {
    hide SentPackets, ObserveAll, StretchHeld;
    var e1 := Opened(env, e);
    forall i | |e1.fates| <= i < |e1.h0.log| && Lost(G, i) > 0
      ensures Repairable(env.cfg, e1, S, F, G, i)
    {
      assert Repairable(env.cfg, e, S, F, G, i);
    }
  }

  /** One drain repairs every loss it reaches: if the output is whole and ends
      at the anchor's stretch, every loss in the queue is covered by the
      secondary, and the drain discards nothing, then the output is the source
      without a hole up to the last primary sent, the packets recovered are
      exactly the ones lost, and nothing is rejected. */
  lemma DrainRepairs(env: Env, e: Engine, force: bool, S: seq<Packet>, F: seq<nat>, G: seq<nat>)
    requires CleanSource(S) && Inv(e) && OnTrack(e, S, F, G) && Covered(env.cfg, e, S, F, G) && SinkWorks(env)
    requires (e.q0 != [] ==> !AlreadyOutput(e, e.q0[0])) && NeverSilent(env, e, e.tick, DrainOnce(env, e, force).e.tick)
    ensures GoodPass(env.cfg, e, DrainOnce(env, e, force), force, S, F, G)
  {
    hide Dispatch, CleanSource, Inv, Silent, SinkWorks, SentPackets, ObserveAll, Covered;
    var e1 := Opened(env, e);
    OpenedKeepsInv(env, e);
    OpenedKeepsTrack(env, e, S, F, G);
    DrainKeepsInputs(env, e, force);
    SilenceIsSame(env, e, e1);
    DispatchOnTrack(env, e1, force, env.clock(e.tick), S, F, G);
    assert e1.fates == e.fates && e1.stats == e.stats;
  }

  // ------------------------------------------------------------ any number of passes

  /** The packet of an event is the next one of its stream, and it finds room. */
  predicate NextOfItsCopy(env: Env, e: Engine, ev: Event, S: seq<Packet>, F: seq<nat>, G: seq<nat>) {
    && (ev.Push? && ev.stream == 0 ==>
          |e.q0| < env.cfg.capacity && |e.h0.log| < |G| && G[|e.h0.log|] < |S| && ev.packet == S[G[|e.h0.log|]])
    && (ev.Push? && ev.stream == 1 ==>
          |e.h1.log| < |F| && F[|e.h1.log|] < |S| && ev.packet == S[F[|e.h1.log|]])
  }

  lemma PrimaryEntryOnTrack(cfg: Config, e: Engine, r: Record, h: History, a: Alignment, S: seq<Packet>, F: seq<nat>, G: seq<nat>)
    requires Structured(e) && OnTrack(e, S, F, G) && r.source == 0 && Extends(e.h0, h, r)
    requires |e.q0| < cfg.capacity && |e.h0.log| < |G| && r.packet == S[G[|e.h0.log|]]
    ensures var o := Entered(cfg, e, r, h, a);
            OnTrack(o, S, F, G) && o.fates == e.fates && o.stats == e.stats
  {
    hide ObserveAll, SentPackets, Queued;
  }

  lemma SecondaryEntryOnTrack(cfg: Config, e: Engine, r: Record, h: History, a: Alignment, S: seq<Packet>, F: seq<nat>, G: seq<nat>)
    requires Structured(e) && OnTrack(e, S, F, G) && r.source == 1 && Extends(e.h1, h, r)
    requires |e.h1.log| < |F| && r.packet == S[F[|e.h1.log|]]
    ensures var o := Entered(cfg, e, r, h, a);
            OnTrack(o, S, F, G) && o.fates == e.fates && o.stats.recovered == e.stats.recovered && o.stats.rejects == e.stats.rejects
  {
    hide ObserveAll, SentPackets, Queued, GapSize, InputGap, Simulate;
  }

  lemma ArrivalOnTrack(env: Env, e: Engine, ev: Event, S: seq<Packet>, F: seq<nat>, G: seq<nat>)
    requires Structured(e) && OnTrack(e, S, F, G) && NextOfItsCopy(env, e, ev, S, F, G)
    ensures var o := Received(env, e, ev);
            OnTrack(o, S, F, G) && o.fates == e.fates && o.stats.recovered == e.stats.recovered && o.stats.rejects == e.stats.rejects
  {
    hide NewHistory, NewAlignment, OnTrack, Entered;
    if ev.Push? {
      ReceivedHistory(env, e, ev.stream, ev.packet);
      var r, h, a := NewRecord(env, e, ev.stream, ev.packet), NewHistory(env, e, ev.stream, ev.packet), NewAlignment(env, e, ev.stream, ev.packet);
      if ev.stream == 0 {
        PrimaryEntryOnTrack(env.cfg, e, r, h, a, S, F, G);
      } else {
        SecondaryEntryOnTrack(env.cfg, e, r, h, a, S, F, G);
      }
    }
  }

  /** At each event of the rest of a run: the packet is the next of its copy,
      the losses queued are covered, nothing is discarded and the primary is
      not silent. */
  ghost predicate StaysCovered(env: Env, e: Engine, evs: seq<Event>, S: seq<Packet>, F: seq<nat>, G: seq<nat>)
    decreases |evs|
  {
    evs == [] ||
    (var b := Received(env, e, evs[0]);
     && NextOfItsCopy(env, e, evs[0], S, F, G) && (OnTrack(b, S, F, G) ==> Covered(env.cfg, b, S, F, G))
     && (b.q0 != [] ==> !AlreadyOutput(b, b.q0[0]))
     && NeverSilent(env, b, b.tick, Step(env, e, evs[0]).tick)
     && StaysCovered(env, Step(env, e, evs[0]), evs[1..], S, F, G))
  }

  function Continue(env: Env, e: Engine, evs: seq<Event>): Engine
    decreases |evs|
  {
    if evs == [] then e else Continue(env, Step(env, e, evs[0]), evs[1..])
  }

  /** Over any number of passes, as long as each loss is covered when it comes
      up, the output stays the source without a hole and the packets recovered
      are exactly the ones lost. */
  lemma {:induction false} RunRepairs(env: Env, e: Engine, evs: seq<Event>, S: seq<Packet>, F: seq<nat>, G: seq<nat>)
    requires CleanSource(S) && Inv(e) && OnTrack(e, S, F, G) && SinkWorks(env) && StaysCovered(env, e, evs, S, F, G)
    ensures var o := Continue(env, e, evs);
            OnTrack(o, S, F, G) && |e.fates| <= |o.fates| && Repaired(e, o, G)
    decreases |evs|
  {
    hide DrainOnce, Received, CleanSource, Inv, SinkWorks, OnTrack, Covered, NeverSilent, NextOfItsCopy, Later;
    OnTrackCounts(e, S, F, G);
    if evs != [] {
      var ev := evs[0];
      var b, o := Received(env, e, ev), Step(env, e, ev);
      StepKeepsInv(env, e, ev);
      ArrivalKeepsTrack(env, e, ev, S, F, G);
      DrainRepairs(env, b, ev.Tick? && ev.force, S, F, G);
      RunRepairs(env, o, evs[1..], S, F, G);
      OnTrackCounts(Continue(env, e, evs), S, F, G);
      RepairedAdds(e, o, Continue(env, e, evs), G);
    }
  }

  lemma ArrivalKeepsTrack(env: Env, e: Engine, ev: Event, S: seq<Packet>, F: seq<nat>, G: seq<nat>)
    requires Inv(e) && OnTrack(e, S, F, G) && NextOfItsCopy(env, e, ev, S, F, G)
    ensures var o := Received(env, e, ev);
            OnTrack(o, S, F, G) && o.fates == e.fates && o.stats.recovered == e.stats.recovered && o.stats.rejects == e.stats.rejects
  {
    hide Received, OnTrack, NextOfItsCopy;
    ArrivalOnTrack(env, e, ev, S, F, G);
  }
}
