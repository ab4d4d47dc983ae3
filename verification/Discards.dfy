/** Which primaries a drain discards as already sent, and which of them are lost. */
module Discards {
  import opened Packets
  import opened State
  import opened Gaps
  import opened GapFacts
  import opened Drain
  import opened Decisions
  import opened Protocol
  import opened Invariants
  import opened Refinement
  import opened Sources
  import opened SecondaryLoss
  import opened Handover

  // ------------------------------------------------------- what is discarded

  /** A turn that succeeds emits its head, or replaces it if it is damaged. */
  lemma FrontFate(env: Env, e: Engine)
    requires Indexed(e.h1) && e.q0 != []
    ensures var o := ProcessFront(env, e);
            if o.ok
            then o.e.fates == e.fates + [Emitted] || (o.e.fates == e.fates + [Replaced] && e.q0[0].packet.transportError)
            else o.e.fates == e.fates
  {
    hide PrimaryPlan, FindCandidates, AnchorMatch, CarryOut, SafeInsertion, Fits;
    DecisionIsSafe(env.cfg, e, e.q0[0]);
    CarryOutKeeps(env, e, e.q0[0], PrimaryPlan(env.cfg, e, e.q0[0]));
  }

  /** If the head has left the queue by state o, this became of it. */
  predicate HeadMet(e: Engine, o: Engine, f: Fate)
    requires e.q0 != []
  {
    |o.fates| > |e.fates| ==>
      o.fates[|e.fates|] == f || (f == Emitted && o.fates[|e.fates|] == Replaced && e.q0[0].packet.transportError)
  }

  lemma LoopEmitsHead(env: Env, e: Engine, force: bool)
    requires Inv(e) && e.active == 0 && e.q0 != []
    ensures HeadMet(e, Loop(env, e, force).e, Emitted)
  {
    hide ProcessFront, FailoverDrain, Ledger, Sourced, Anchored, Accounted, AlignmentSound;
    var e1 := Apply(env, e, Clock);
    MoveKeepsInv(env, e, Clock);
    assert Loop(env, e, force) == Turn(env, e1, force, env.clock(e.tick));
    FrontFate(env, e1);
    FrontKeepsInv(env, e1);
    var o := ProcessFront(env, e1);
    if o.ok { LoopKeepsInv(env, o.e, force); }
  }

  lemma ServedIsLater(env: Env, e: Engine, force: bool, t: nat)
    requires Inv(e) && t < e.tick && ReturnReady(env.cfg, e, env.clock(t))
    ensures Later(e, Served(env, e, force, env.clock(t)).e)
  {
    hide Served, Inv;
    var ms := ServedPath(env, e, force, t);
    PathKeepsInv(env, e, ms);
  }

  /** Serving the primary queue discards its head if the test says so. */
  lemma ServedDiscards(env: Env, e: Engine, force: bool, t: nat)
    requires Inv(e) && e.q0 != [] && AlreadyOutput(e, e.q0[0]) && t < e.tick && ReturnReady(env.cfg, e, env.clock(t))
    ensures var o := Served(env, e, force, env.clock(t)).e; |o.fates| > |e.fates| && HeadMet(e, o, Discarded)
  {
    hide Loop, FailoverDrain, Inv;
    var e2 := Popped(e, Discarded);
    assert PrimaryTrimmed(e) == PrimaryTrimmed(e2);
    MoveKeepsInv(env, e, Skip);
    ServedIsLater(env, e2, force, t);
    assert Served(env, e, force, env.clock(t)) == Served(env, e2, force, env.clock(t));
  }

  lemma ServedEmits(env: Env, e: Engine, force: bool, now: nat)
    requires Inv(e) && e.q0 != [] && !AlreadyOutput(e, e.q0[0])
    ensures HeadMet(e, Served(env, e, force, now).e, Emitted)
  {
    hide Loop, FailoverDrain, Inv;
    assert PrimaryTrimmed(e) == e;
    ActiveKeepsInv(e);
    LoopEmitsHead(env, SetActive(e, 0), force);
  }

  /** Fail-over leaves the primary queue alone. */
  lemma {:induction false} FailoverKeepsFates(env: Env, e: Engine, force: bool)
    ensures FailoverLoop(env, e, force).e.fates == e.fates
    decreases |e.q1|
  {
    hide NotDue, Counted, Observe;
    if e.q1 != [] && !NotDue(env.cfg, e.q1[0], force, env.clock(e.tick)) {
      var o := StandIn(env, e.(tick := e.tick + 1));
      if o.ok && force { FailoverKeepsFates(env, o.e, force); }
    }
  }

  /** The drain discards the head of the primary queue: it turns to the primary,
      and the alignment maps the head at or before the last secondary sent. */
  predicate DiscardsHead(env: Env, e: Engine)
    requires e.q0 != []
  {
    ReturnReady(env.cfg, Opened(env, e), env.clock(e.tick)) && AlreadyOutput(e, e.q0[0])
  }

  lemma HeadMeetsItsFate(env: Env, e: Engine, force: bool)
    requires Inv(e) && e.q0 != []
    ensures var o := DrainOnce(env, e, force).e;
            && (DiscardsHead(env, e) ==> |o.fates| > |e.fates|)
            && HeadMet(e, o, if DiscardsHead(env, e) then Discarded else Emitted)
  {
    hide Served, FailoverLoop, Inv, ReturnReady;
    var e1, now := Opened(env, e), env.clock(e.tick);
    OpenedKeepsInv(env, e);
    if !ReturnReady(env.cfg, e1, now) {
      FailoverKeepsFates(env, SecondaryTrimmed(e1), force);
    } else if AlreadyOutput(e, e.q0[0]) {
      ServedDiscards(env, e1, force, e.tick);
    } else {
      ServedEmits(env, e1, force, now);
    }
  }

  /** A drain discards the head of the primary queue if and only if it turns to
      the primary and the alignment maps the head at or before the last
      secondary packet sent. */
  lemma HeadIsDiscardedIff(env: Env, e: Engine, force: bool)
    requires Inv(e) && e.q0 != []
    ensures var o := DrainOnce(env, e, force).e;
            |o.fates| > |e.fates| && o.fates[|e.fates|] == Discarded <==>
            ReturnReady(env.cfg, Opened(env, e), env.clock(e.tick)) && AlreadyOutput(e, e.q0[0])
  {
    hide DrainOnce, Inv, ReturnReady, AlreadyOutput;
    HeadMeetsItsFate(env, e, force);
  }

  // ----------------------------------------------------------- what is lost

  lemma {:induction false} KeptIff(log: seq<Record>, fates: seq<Fate>, f: Fate, r: Record)
    requires |fates| <= |log|
    ensures r in Kept(log, fates, f) <==> exists i | 0 <= i < |fates| :: fates[i] == f && log[i] == r
    decreases |fates|
  {
    if fates != [] {
      var n := |fates| - 1;
      KeptIff(log, fates[..n], f, r);
      assert r in Kept(log, fates, f) <==> r in Kept(log, fates[..n], f) || (fates[n] == f && log[n] == r);
      if i :| 0 <= i < |fates| && fates[i] == f && log[i] == r && i < n {
        assert fates[..n][i] == f;
      }
      if i :| 0 <= i < n && fates[..n][i] == f && log[i] == r {
        assert fates[i] == f;
      }
    }
  }

  lemma {:induction false} ThroughIff(out: seq<Emission>, via: Via, r: Record)
    ensures r in Through(out, via) <==> Emission(via, r) in out
    decreases |out|
  {
    if out != [] {
      var n := |out| - 1;
      ThroughIff(out[..n], via, r);
      assert out == out[..n] + [out[n]];
      assert r in Through(out, via) <==> r in Through(out[..n], via) || out[n] == Emission(via, r);
    }
  }

  /** The secondary has not delivered this packet. */
  predicate NoCopy(h: History, p: Packet) {
    forall i | 0 <= i < |h.log| :: h.log[i].packet != p
  }

  /** A content packet of a clean source occurs once in a copy of it. */
  lemma ContentIsUnique(log: seq<Record>, S: seq<Packet>, G: seq<nat>, i: nat, n: nat)
    requires CleanSource(S) && CopyWithLosses(log, S, G) && i < |log| && n < |log|
    requires !log[n].packet.isNull && log[i].packet == log[n].packet
    ensures i == n
  {
  }

  /** In every state that satisfies the invariants, a content primary that the
      secondary has not delivered has been sent if and only if its fate is to
      have been emitted: a discarded one is lost. */
  lemma SentIffEmitted(e: Engine, S: seq<Packet>, G: seq<nat>, n: nat)
    requires CleanSource(S) && Inv(e) && CopyWithLosses(e.h0.log, S, G)
    requires n < |e.h0.log| && !e.h0.log[n].packet.isNull && NoCopy(e.h1, e.h0.log[n].packet)
    ensures e.h0.log[n].packet in SentPackets(e.out) <==> n < |e.fates| && e.fates[n] == Emitted
  {
    hide CleanSource, CopyWithLosses, Accounted, AlignmentSound, Anchored;
    var r := e.h0.log[n];
    KeptIff(e.h0.log, e.fates, Emitted, r);
    ThroughIff(e.out, Direct, r);
    if n < |e.fates| && e.fates[n] == Emitted {
      var k :| 0 <= k < |e.out| && e.out[k] == Emission(Direct, r);
      assert SentPackets(e.out)[k] == r.packet;
    } else if r.packet in SentPackets(e.out) {
      var k :| 0 <= k < |e.out| && SentPackets(e.out)[k] == r.packet;
      assert e.out[k].via == Direct;
      ThroughIff(e.out, Direct, e.out[k].r);
      KeptIff(e.h0.log, e.fates, Emitted, e.out[k].r);
      var i :| 0 <= i < |e.fates| && e.fates[i] == Emitted && e.h0.log[i] == e.out[k].r;
      ContentIsUnique(e.h0.log, S, G, i, n);
    }
  }

  /** Loss by discarding, exactly: whatever the sink does and whether forced or
      not, a drain takes the next content primary off the queue without sending
      its contents if and only if it turns to the primary and the alignment maps
      the packet at or before the last secondary sent, unless the secondary has
      delivered the packet too. */
  lemma HeadIsLostIff(env: Env, e: Engine, force: bool, S: seq<Packet>, G: seq<nat>)
    requires CleanSource(S) && Inv(e) && CopyWithLosses(e.h0.log, S, G)
    requires e.q0 != [] && !e.q0[0].packet.isNull && NoCopy(e.h1, e.q0[0].packet)
    ensures var o := DrainOnce(env, e, force).e;
            |o.fates| > |e.fates| && e.q0[0].packet !in SentPackets(o.out) <==>
            ReturnReady(env.cfg, Opened(env, e), env.clock(e.tick)) && AlreadyOutput(e, e.q0[0])
  {
    var n := |e.fates|;
    assert e.q0[0] == e.h0.log[n] && e.q0[0].packet == S[G[n]] && S[G[n]].Sound();
    hide DrainOnce, Inv, CleanSource, CopyWithLosses, SentPackets, ReturnReady, AlreadyOutput;
    HeadMeetsItsFate(env, e, force);
    DrainKeepsInv(env, e, force);
    DrainKeepsInputs(env, e, force);
    SentIffEmitted(DrainOnce(env, e, force).e, S, G, n);
  }
}
