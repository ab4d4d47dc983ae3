/** How the anchor follows the output: the pair it moves to after each primary. */
module Anchors {
  import opened Packets
  import opened State
  import opened Gaps
  import opened GapFacts
  import opened Drain
  import opened Refinement
  import opened GapRules
  import opened Refusals

  /** The retained secondary record where the alignment expects p's copy. */
  predicate AlignedTwin(e: Engine, p: Record) {
    var x := p.index + e.align.offset;
    e.align.has && InHistory(e.h1, x) && Twins(p.packet, e.h1.log[x].packet) && !e.h1.log[x].packet.isNull
  }

  lemma CandidatesIfNotSole(cfg: Config, e: Engine, p: Record)
    requires Indexed(e.h1)
    requires var c := FindCandidates(cfg, e, p); |c.rs| == 1 && !c.truncated
    ensures SoleCopy(cfg, e, p, FindCandidates(cfg, e, p).rs[0])
  {
    CandidatesAreExact(cfg, e, p);
    var c := FindCandidates(cfg, e, p);
    var m := c.rs[0];
    CandidateIsCopy(cfg, e, p, 0);
    hide FindCandidates, InReach, NearAligned, PastAnchor;
    forall i | e.h1.lo <= i < |e.h1.log| && InReach(cfg, e, p, i) && Twins(p.packet, e.h1.log[i].packet) ensures i == m.index {
      InReachIsWindow(cfg, e, p, i);
      TwinsMatch(p.packet, e.h1.log[i].packet);
      assert !CopyLeftOut(e.h1, p.packet, c, i);
    }
  }

  /** The anchor after a primary is sent: the only copy within reach if there is
      one, else its aligned copy if that is one, else what it was. */
  lemma AnchorFollows(env: Env, e: Engine)
    requires Indexed(e.h1) && e.q0 != [] && !PrimaryPlan(env.cfg, e, e.q0[0]).Replace? && ProcessFront(env, e).ok
    ensures var o, p := ProcessFront(env, e).e, e.q0[0];
            && (forall i | e.h1.lo <= i < |e.h1.log| && SoleCopy(env.cfg, e, p, e.h1.log[i]) && !p.packet.isNull && !e.h1.log[i].packet.isNull ::
                  o.anchor == Anchor(true, p.index, i))
            && ((forall i | e.h1.lo <= i < |e.h1.log| :: !SoleCopy(env.cfg, e, p, e.h1.log[i])) ==>
                  o.anchor == if AlignedTwin(e, p) && !p.packet.isNull then Anchor(true, p.index, p.index + e.align.offset) else e.anchor)
  {
    var p := e.q0[0];
    var c := FindCandidates(env.cfg, e, p);
    forall i | e.h1.lo <= i < |e.h1.log| && SoleCopy(env.cfg, e, p, e.h1.log[i]) ensures c == Candidates([e.h1.log[i]], false) {
      SoleCopyIsCandidate(env.cfg, e, p, e.h1.log[i]);
    }
    if |c.rs| == 1 && !c.truncated { CandidatesIfNotSole(env.cfg, e, p); }
    FrontAnchor(env, e);
    MatchIs(e, p, c);
    hide ProcessFront, PrimaryPlan, FindCandidates, SoleCopy, AnchorMatch;
  }

  lemma MatchIs(e: Engine, p: Record, c: Candidates)
    requires Indexed(e.h1)
    ensures |c.rs| == 1 && !c.truncated ==> AnchorMatch(e, p, c) == Some(c.rs[0])
    ensures !(|c.rs| == 1 && !c.truncated) ==>
              var m, x := AnchorMatch(e, p, c), p.index + e.align.offset;
              if e.align.has && InHistory(e.h1, x) then m == Some(e.h1.log[x]) else m == None
  {
  }

  /** A primary that is sent and pairs with m moves the anchor there. */
  lemma FrontAnchor(env: Env, e: Engine)
    requires e.q0 != [] && !PrimaryPlan(env.cfg, e, e.q0[0]).Replace? && ProcessFront(env, e).ok
    ensures var p := e.q0[0];
            var m := AnchorMatch(e, p, FindCandidates(env.cfg, e, p));
            ProcessFront(env, e).e.anchor ==
            if m.Some? && !p.packet.isNull && !m.value.packet.isNull && Twins(p.packet, m.value.packet)
            then Anchor(true, p.index, m.value.index) else e.anchor
  {
    hide PrimaryPlan, FindCandidates, AnchorMatch, Counted, Observe, Unrecoverable;
    var plan := PrimaryPlan(env.cfg, e, e.q0[0]);
    if plan.Insert? { SendGapKeepsQueues(env, e, plan.rs); }
    CarryOutKeeps(env, e, e.q0[0], plan);
  }
}
