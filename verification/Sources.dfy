/** A common source that both inputs are copies of, each with its own losses,
    and what the engine decides about a primary that nothing is missing before. */
module Sources {
  import opened Packets
  import opened State
  import opened Gaps
  import opened GapFacts
  import opened Decisions

  /** A well-formed source: no damage, counters in sequence, and no content
      packet sharing its identity with any other packet. */
  predicate CleanSource(S: seq<Packet>) {
    && AllSound(S) && FitsAll(map[], S)
    && forall i, j | 0 <= i < |S| && 0 <= j < |S| && i != j :: S[i].isNull || !SameIdentity(S[i], S[j])
  }

  /** Strictly increasing positions in a source of length n. */
  predicate Rising(F: seq<nat>, n: nat) {
    (forall i | 0 <= i < |F| :: F[i] < n) && (forall i, j | 0 <= i < j < |F| :: F[i] < F[j])
  }

  /** The log holds the packets of the source at the first positions of F: the
      source with everything between those positions lost. */
  predicate CopyWithLosses(log: seq<Record>, S: seq<Packet>, F: seq<nat>) {
    |log| <= |F| && Rising(F, |S|) && forall i | 0 <= i < |log| :: log[i].packet == S[F[i]]
  }

  lemma {:induction false} RisingSpread(F: seq<nat>, n: nat, i: nat, j: nat)
    requires Rising(F, n) && i <= j < |F|
    ensures F[j] - F[i] >= j - i
    decreases j - i
  {
    if i < j {
      RisingSpread(F, n, i + 1, j);
    }
  }

  /** The source fits after any of its own positions. */
  lemma SourceFits(S: seq<Packet>, a: nat, b: nat)
    requires CleanSource(S) && a <= b <= |S|
    ensures FitsAll(ObserveAll(map[], S[..a]), S[a..b])
    ensures ObserveAll(map[], S[..b]) == ObserveAll(ObserveAll(map[], S[..a]), S[a..b])
    ensures b < |S| ==> Fits(ObserveAll(map[], S[..b]), S[b])
  {
    assert S[..a] + S[a..] == S && S[a..b] + S[b..] == S[a..] && S[..a] + S[a..b] == S[..b] && S[..b] + S[b..] == S;
    FitsAllSplit(map[], S[..a], S[a..]);
    FitsAllSplit(ObserveAll(map[], S[..a]), S[a..b], S[b..]);
    FitsAllSplit(map[], S[..a], S[a..b]);
    FitsAllSplit(map[], S[..b], S[b..]);
  }

  /** The only copies of content packet S[x] are the ones taken from x. */
  lemma CopyIsUnique(S: seq<Packet>, F: seq<nat>, h: History, x: nat, i: int)
    requires CleanSource(S) && CopyWithLosses(h.log, S, F) && x < |S| && !S[x].isNull
    ensures IsCopy(h, S[x], i) ==> F[i] == x
  {
  }

  /** Every candidate for a content packet of the source is the one copy of it. */
  lemma CandidatesOfSource(cfg: Config, e: Engine, p: Record, S: seq<Packet>, F: seq<nat>, x: nat)
    requires Indexed(e.h1) && CleanSource(S) && CopyWithLosses(e.h1.log, S, F)
    requires x < |S| && p.packet == S[x] && !S[x].isNull
    ensures var c := FindCandidates(cfg, e, p);
            !c.truncated && |c.rs| <= 1 && (c.rs != [] ==> FromSecondary(e, c.rs[0]) && F[c.rs[0].index] == x)
  {
    CandidatesAreExact(cfg, e, p);
    var c := FindCandidates(cfg, e, p);
    forall k | 0 <= k < |c.rs| ensures F[c.rs[k].index] == x {
      CopyIsUnique(S, F, e.h1, x, c.rs[k].index);
    }
    AtMostOneCopy(c.rs, F, x, |S|);
  }

  lemma AtMostOneCopy(rs: seq<Record>, F: seq<nat>, x: nat, n: nat)
    requires Rising(F, n)
    requires forall k | 0 <= k < |rs| :: rs[k].index < |F| && F[rs[k].index] == x
    requires forall j, k | 0 <= j < k < |rs| :: rs[j].index != rs[k].index
    ensures |rs| <= 1
  {
    var first := if rs == [] then 0 else rs[0].index;
    var second := if |rs| < 2 then first else rs[1].index;
    assert first == second;
  }

  /** The copy offered as the next anchor is the copy of this packet. */
  lemma AnchorOfSource(cfg: Config, e: Engine, p: Record, S: seq<Packet>, F: seq<nat>, x: nat)
    requires Indexed(e.h1) && CleanSource(S) && CopyWithLosses(e.h1.log, S, F)
    requires x < |S| && p.packet == S[x]
    ensures var m := AnchorMatch(e, p, FindCandidates(cfg, e, p));
            m.Some? && BoundsMatch(p, m.value) ==> FromSecondary(e, m.value) && F[m.value.index] == x
  {
    if !S[x].isNull {
      CandidatesOfSource(cfg, e, p, S, F, x);
      var m := AnchorMatch(e, p, FindCandidates(cfg, e, p));
      if m.Some? && BoundsMatch(p, m.value) { CopyIsUnique(S, F, e.h1, x, m.value.index); }
    }
  }

  /** y is the source position of the anchor. */
  predicate AnchoredAt(e: Engine, F: seq<nat>, y: int) {
    e.anchor.valid ==> e.anchor.s < |F| && F[e.anchor.s] == y
  }

  /** A stage that sees one candidate with nothing missing decides nothing. */
  lemma StageKeeps(cfg: Config, e: Engine, stage: Stage, p: Record, m: Record)
    requires stage != ExactStage && (BeyondAnchor(e, p, m) ==> Missing(e, p, m) <= 0)
    ensures StagePlan(cfg, e, stage, p, Candidates([m], false)) == Keep
  {
    var ms := [m];
    var v := StageVerdict(cfg, e, stage, p, m);
    assert v.why.kind == MissingCandidate && !v.why.hasMissing && !v.valid;
    assert Poll(cfg, e, stage, p, ms, NoVote) == Poll(cfg, e, stage, p, [], CastVote(NoVote, m, v)) by {
      assert ms[1..] == [];
    }
  }

  /** When the primary has lost nothing since the anchor, whatever the
      secondary lost, a primary that fits is passed on in silence. */
  lemma NothingMissingIsKept(cfg: Config, e: Engine, p: Record, S: seq<Packet>, F: seq<nat>, x: nat, y: int)
    requires Indexed(e.h1) && CleanSource(S) && CopyWithLosses(e.h1.log, S, F)
    requires x < |S| && p.packet == S[x] && Fits(e.outCc, p.packet)
    requires e.anchor.valid ==> AnchoredAt(e, F, y) && e.anchor.s < |e.h1.log| && x - y == p.index - e.anchor.p
    ensures PrimaryPlan(cfg, e, p) == Keep
  {
    var c := FindCandidates(cfg, e, p);
    if !S[x].isNull {
      CandidatesOfSource(cfg, e, p, S, F, x);
      if e.anchor.valid && c.rs != [] {
        var m := c.rs[0];
        if BeyondAnchor(e, p, m) { RisingSpread(F, |S|, e.anchor.s, m.index); }
        assert c == Candidates([m], false);
        StageKeeps(cfg, e, NullStage, p, m);
        StageKeeps(cfg, e, MixedStage, p, m);
      }
    }
  }
}
