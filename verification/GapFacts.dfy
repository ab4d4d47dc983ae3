/** What the searches behind a decision find: exactly the copies in the search
    windows, and exactly the gaps that may be filled. */
module GapFacts {
  import opened Packets
  import opened State
  import opened Gaps

  // ---------------------------------------------------------------- candidates

  /** Every record sits at its own index. */
  predicate Indexed(h: History) {
    h.lo <= |h.log| && forall i | 0 <= i < |h.log| :: h.log[i].index == i
  }

  predicate Listed(c: Candidates, i: int) {
    exists k | 0 <= k < |c.rs| :: c.rs[k].index == i
  }

  /** The list holds records of the history, in no index twice, all copies of p. */
  predicate ProperList(h: History, p: Packet, c: Candidates) {
    && |c.rs| <= MAX_CANDIDATES
    && (c.truncated ==> |c.rs| == MAX_CANDIDATES)
    && (forall k | 0 <= k < |c.rs| :: IsCopy(h, p, c.rs[k].index) && h.log[c.rs[k].index] == c.rs[k])
    && (forall j, k | 0 <= j < k < |c.rs| :: c.rs[j].index != c.rs[k].index)
  }

  /** One index considered for the list. */
  function Considered(h: History, p: Packet, i: int, c: Candidates): Candidates {
    if IsCopy(h, p, i) then AddCandidate(c, h.log[i]) else c
  }

  lemma ConsideredIsExact(h: History, p: Packet, x: int, c: Candidates)
    requires Indexed(h) && ProperList(h, p, c)
    ensures var d := Considered(h, p, x, c);
            && ProperList(h, p, d) && c.rs <= d.rs && (c.truncated ==> d.truncated)
            && (forall i :: Listed(d, i) ==> Listed(c, i) || i == x)
            && (forall i :: Listed(c, i) ==> Listed(d, i))
            && (IsCopy(h, p, x) ==> Listed(d, x) || d.truncated)
            && (d.truncated && !c.truncated ==> d.rs == c.rs && IsCopy(h, p, x) && !Listed(c, x))
  {
    hide ExactMatch;
    var d := Considered(h, p, x, c);
    if IsCopy(h, p, x) && !Listed(c, x) && |c.rs| < MAX_CANDIDATES {
      assert d.rs[|c.rs|].index == x;
    }
    forall i | Listed(c, i) ensures Listed(d, i) {
      var k :| 0 <= k < |c.rs| && c.rs[k].index == i;
      assert d.rs[k].index == i;
    }
  }

  lemma SameListing(c: Candidates, d: Candidates)
    requires c.rs == d.rs
    ensures forall i :: Listed(c, i) <==> Listed(d, i)
  {
  }

  lemma {:induction false} CollectIsExact(h: History, p: Packet, first: int, last: int, c: Candidates)
    requires Indexed(h) && ProperList(h, p, c)
    ensures var d := Collect(h, p, first, last, c);
            && ProperList(h, p, d) && c.rs <= d.rs && (c.truncated ==> d.truncated)
            && (forall i :: Listed(d, i) ==> Listed(c, i) || first <= i <= last)
            && (!d.truncated ==> forall i :: Listed(c, i) || (first <= i <= last && IsCopy(h, p, i)) ==> Listed(d, i))
            && (d.truncated && !c.truncated ==> exists i :: first <= i <= last && IsCopy(h, p, i) && !Listed(d, i))
    decreases last - first + 1
  {
    if first <= last {
      ConsideredIsExact(h, p, first, c);
      var c1 := Considered(h, p, first, c);
      CollectIsExact(h, p, first + 1, last, c1);
      var d := Collect(h, p, first, last, c);
      assert d == Collect(h, p, first + 1, last, c1);
      assert c1.truncated ==> d.rs == c1.rs;
      hide Listed, IsCopy, ProperList, Collect, Considered;
      if c1.truncated && !c.truncated {
        SameListing(c, d);
        assert IsCopy(h, p, first) && !Listed(d, first);
      }
    }
  }

  /** Near the position the alignment predicts. */
  predicate NearAligned(e: Engine, p: Record, i: int) {
    var x := p.index + e.align.offset;
    e.align.has && x - SEARCH_EXTRA <= i <= x + SEARCH_EXTRA
  }

  /** Not too far beyond the anchor. */
  predicate PastAnchor(cfg: Config, e: Engine, p: Record, i: int) {
    SearchesAnchor(e, p) && e.anchor.s < i <= AnchorSearchEnd(cfg, e, p)
  }

  predicate CopyLeftOut(h: History, p: Packet, c: Candidates, i: int) {
    IsCopy(h, p, i) && !Listed(c, i)
  }

  lemma AlignedCandidatesAreExact(e: Engine, p: Record)
    requires Indexed(e.h1)
    ensures var c := AlignedCandidates(e, p);
            && ProperList(e.h1, p.packet, c)
            && (forall i :: Listed(c, i) ==> NearAligned(e, p, i))
            && (c.truncated <==> exists i :: NearAligned(e, p, i) && CopyLeftOut(e.h1, p.packet, c, i))
  {
    hide SameIdentity, ExactMatch;
    if e.align.has {
      var none := Candidates([], false);
      var x := p.index + e.align.offset;
      var c1 := if x >= 0 && IsCopy(e.h1, p.packet, x) then AddCandidate(none, e.h1.log[x]) else none;
      assert ProperList(e.h1, p.packet, c1) && !c1.truncated;
      assert forall i :: Listed(c1, i) ==> i == x;
      if x + SEARCH_EXTRA >= 0 {
        CollectIsExact(e.h1, p.packet, Max(x - SEARCH_EXTRA, 0), x + SEARCH_EXTRA, c1);
        var c := AlignedCandidates(e, p);
        if c.truncated {
          var i :| Max(x - SEARCH_EXTRA, 0) <= i <= x + SEARCH_EXTRA && IsCopy(e.h1, p.packet, i) && !Listed(c, i);
          assert NearAligned(e, p, i) && CopyLeftOut(e.h1, p.packet, c, i);
        }
      }
    }
  }

  /** The candidates are exactly the copies of p in the two search windows,
      each once; the list is cut short exactly when a copy had to be left out. */
  lemma CandidatesAreExact(cfg: Config, e: Engine, p: Record)
    requires Indexed(e.h1) && p.packet.Content()
    ensures var c := FindCandidates(cfg, e, p);
            && ProperList(e.h1, p.packet, c)
            && (forall i :: Listed(c, i) ==> NearAligned(e, p, i) || PastAnchor(cfg, e, p, i))
            && (c.truncated <==> exists i :: (NearAligned(e, p, i) || PastAnchor(cfg, e, p, i)) &&
                                             CopyLeftOut(e.h1, p.packet, c, i))
  {
    AlignedCandidatesAreExact(e, p);
    if SearchesAnchor(e, p) {
      CollectIsExact(e.h1, p.packet, e.anchor.s + 1, AnchorSearchEnd(cfg, e, p), AlignedCandidates(e, p));
      CombinedWindows(cfg, e, p);
    }
  }

  lemma CombinedWindows(cfg: Config, e: Engine, p: Record)
    requires Indexed(e.h1) && p.packet.Content() && SearchesAnchor(e, p)
    ensures var c := FindCandidates(cfg, e, p);
            c.truncated <==> exists i :: (NearAligned(e, p, i) || PastAnchor(cfg, e, p, i)) &&
                                         CopyLeftOut(e.h1, p.packet, c, i)
  {
    var a, c := AlignedCandidates(e, p), FindCandidates(cfg, e, p);
    AlignedCandidatesAreExact(e, p);
    CollectIsExact(e.h1, p.packet, e.anchor.s + 1, AnchorSearchEnd(cfg, e, p), a);
    if a.truncated {
      assert c.rs == a.rs;
      var i :| NearAligned(e, p, i) && CopyLeftOut(e.h1, p.packet, a, i);
      assert CopyLeftOut(e.h1, p.packet, c, i);
    } else if c.truncated {
      var i :| e.anchor.s + 1 <= i <= AnchorSearchEnd(cfg, e, p) && IsCopy(e.h1, p.packet, i) && !Listed(c, i);
      assert PastAnchor(cfg, e, p, i) && CopyLeftOut(e.h1, p.packet, c, i);
    } else {
      forall i | (NearAligned(e, p, i) || PastAnchor(cfg, e, p, i)) && IsCopy(e.h1, p.packet, i)
        ensures Listed(c, i)
      {
        if NearAligned(e, p, i) { assert !CopyLeftOut(e.h1, p.packet, a, i); }
      }
    }
  }

  // -------------------------------------------------------------- gap contents

  /** Indexes i .. i+n-1 are all retained. */
  predicate Held(h: History, i: int, n: int) {
    n == 0 || (h.lo <= i && i + n <= |h.log|)
  }

  predicate AllNull(ps: seq<Packet>) { forall i | 0 <= i < |ps| :: ps[i].isNull }

  predicate AllSound(ps: seq<Packet>) { forall i | 0 <= i < |ps| :: ps[i].Sound() }

  /** One packet off the front of a span. */
  lemma SpanStep(h: History, i: nat, n: nat)
    requires n > 0 && i + n <= |h.log|
    ensures PacketsOf(Span(h, i, n)) == [h.log[i].packet] + PacketsOf(Span(h, i + 1, n - 1))
    ensures PacketsOf(Span(h, i, n))[1..] == PacketsOf(Span(h, i + 1, n - 1))
  {
  }

  /** The null scan passes exactly on n retained sound null packets. */
  lemma {:induction false} NullScanPasses(h: History, i: nat, n: nat)
    ensures NullScan(h, i, n).None? <==>
            Held(h, i, n) && AllNull(PacketsOf(Span(h, i, n))) && AllSound(PacketsOf(Span(h, i, n)))
    decreases n
  {
    if n > 0 && Find(h, i).Some? {
      NullScanPasses(h, i + 1, n - 1);
      if i + n <= |h.log| { SpanStep(h, i, n); }
    }
  }

  predicate SomeContent(ps: seq<Packet>) { exists i | 0 <= i < |ps| :: !ps[i].isNull }

  lemma SoundStep(p: Packet, ps: seq<Packet>)
    ensures AllSound([p] + ps) <==> p.Sound() && AllSound(ps)
    ensures SomeContent([p] + ps) <==> !p.isNull || SomeContent(ps)
  {
    var qs := [p] + ps;
    assert qs[0] == p;
    assert forall i | 0 <= i < |ps| :: qs[i + 1] == ps[i];
    if SomeContent(qs) && p.isNull {
      var k :| 0 <= k < |qs| && !qs[k].isNull;
      assert !ps[k - 1].isNull;
    }
  }

  /** The mixed scan passes exactly on n retained sound packets that fit the
      output one after the other, and it then ends in the state the output
      itself would reach. */
  lemma {:induction false} MixedScanPasses(h: History, i: nat, n: nat, content: bool, states: Counters)
    ensures var s := MixedScan(h, i, n, content, states);
            var ps := PacketsOf(Span(h, i, n));
            && (s.flaw.None? <==> Held(h, i, n) && AllSound(ps) && FitsAll(states, ps))
            && (s.flaw.None? ==> s.states == ObserveAll(states, ps) && (s.content <==> content || SomeContent(ps)))
    decreases n
  {
    if n == 0 {
      assert Span(h, i, n) == [];
    } else if Find(h, i).Some? {
      var r := h.log[i].packet;
      MixedScanPasses(h, i + 1, n - 1, content || !r.isNull, Simulate(states, r));
      if i + n <= |h.log| {
        SpanStep(h, i, n);
        SoundStep(r, PacketsOf(Span(h, i + 1, n - 1)));
      }
    }
  }
}
