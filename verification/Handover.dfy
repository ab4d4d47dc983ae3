/** The hand-over between the two sources: what one has sent, the other does
    not repeat. */
module Handover {
  import opened Packets
  import opened State
  import opened GapFacts
  import opened Drain
  import opened Protocol
  import opened Invariants
  import opened Refinement
  import opened DrainShape

  // ----------------------------------------------------- fail-over sends news only

  /** The primary output covers secondary index i: it is at or before the
      anchor, or at or before the aligned image of the last primary sent. */
  predicate PrimaryCovers(e: Engine, i: int) {
    || (e.anchor.valid && i <= e.anchor.s)
    || (e.align.has && e.lastOut0.Some? && i <= e.lastOut0.value + e.align.offset)
  }

  lemma CutoffCovers(e: Engine, i: nat)
    ensures PrimaryCovers(e, i) <==> Cutoff(e).Some? && i <= Cutoff(e).value
  {
  }

  lemma {:induction false} DropIsExact(q: seq<Record>, c: nat)
    requires forall i, j | 0 <= i < j < |q| :: q[i].index < q[j].index
    ensures var d := DropThrough(q, c); var n := |q| - |d|;
            && n >= 0 && d == q[n..] && (forall i | 0 <= i < n :: q[i].index <= c) && (forall i | 0 <= i < |d| :: d[i].index > c)
    decreases |q|
  {
    if q != [] && q[0].index <= c { DropIsExact(q[1..], c); }
  }

  /** Trimming takes from the head of the secondary queue exactly what the
      primary output covers. */
  lemma SecondaryTrimIsExact(e: Engine)
    requires Structured(e)
    ensures var q := SecondaryTrimmed(e).q1; var n := |e.q1| - |q|;
            && n >= 0 && q == e.q1[n..]
            && (forall i | 0 <= i < n :: PrimaryCovers(e, e.q1[i].index))
            && (forall i | 0 <= i < |q| :: !PrimaryCovers(e, q[i].index))
  {
    var q := SecondaryTrimmed(e).q1;
    QueueInOrder(e);
    if Cutoff(e).Some? { DropIsExact(e.q1, Cutoff(e).value); }
    hide Structured, PrimaryCovers, Cutoff, DropThrough;
    var n := |e.q1| - |q|;
    assert q == e.q1[n..];
    forall i | 0 <= i < |e.q1| ensures PrimaryCovers(e, e.q1[i].index) <==> i < n {
      CutoffCovers(e, e.q1[i].index);
      assert i >= n ==> q[i - n] == e.q1[i];
    }
  }

  lemma QueueInOrder(e: Engine)
    requires Structured(e)
    ensures forall i, j | 0 <= i < j < |e.q1| :: e.q1[i].index < e.q1[j].index
  {
  }

  /** The fail-over packets sent after position n are past the anchor and past
      the aligned image of the last primary sent. */
  predicate NewsOnly(o: Engine, n: nat) {
    forall k | n <= k < |o.out| && o.out[k].via == Failover ::
      && (o.anchor.valid ==> o.out[k].r.index > o.anchor.s)
      && (o.align.has && o.lastOut0.Some? ==> o.out[k].r.index > o.lastOut0.value + o.align.offset)
  }

  lemma StandInNews(env: Env, e: Engine)
    requires AllNews(e) && e.q1 != []
    ensures var o := StandIn(env, e);
            SameBounds(e, o.e) && NewsOnly(o.e, |e.out|) && e.out <= o.e.out && (o.ok ==> AllNews(o.e))
  {
    hide Counted, Observe;
    CutoffCovers(e, e.q1[0].index);
  }

  /** The bounds of what the primary output covers are the same. */
  predicate SameBounds(e: Engine, f: Engine) {
    e.align == f.align && e.lastOut0 == f.lastOut0 && e.anchor == f.anchor
  }

  lemma {:induction false} FailoverLoopNews(env: Env, e: Engine, force: bool)
    requires AllNews(e)
    ensures var o := FailoverLoop(env, e, force).e; SameBounds(e, o) && NewsOnly(o, |e.out|) && e.out <= o.out
    decreases |e.q1|
  {
    hide StandIn, NotDue;
    if e.q1 != [] {
      var e1 := e.(tick := e.tick + 1);
      if !NotDue(env.cfg, e.q1[0], force, env.clock(e.tick)) {
        StandInNews(env, e1);
        var o := StandIn(env, e1);
        if o.ok && force {
          FailoverLoopNews(env, o.e, force);
          NewsJoins(o.e, FailoverLoop(env, o.e, force).e, |e.out|);
        }
      }
    }
  }

  lemma NewsJoins(m: Engine, o: Engine, n: nat)
    requires NewsOnly(m, n) && NewsOnly(o, |m.out|) && m.out <= o.out && SameBounds(m, o) && n <= |m.out|
    ensures NewsOnly(o, n)
  {
    forall k | n <= k < |m.out| ensures o.out[k] == m.out[k] {}
  }

  lemma FailoverDrainNews(env: Env, e: Engine, force: bool, now: nat)
    requires Structured(e)
    ensures var o := FailoverDrain(env, e, force, now).e; NewsOnly(o, |e.out|) && e.out <= o.out
  {
    hide Silent;
    TrimmedIsNews(e);
    FailoverLoopNews(env, SecondaryTrimmed(e), force);
  }

  lemma LoopNews(env: Env, e: Engine, force: bool)
    requires Inv(e) && e.active == 0
    ensures var o := Loop(env, e, force).e; NewsOnly(o, |e.out|) && e.out <= o.out
  {
    hide Loop, Turns, FailoverDrain, Ledger, Sourced, Anchored, Accounted, AlignmentSound;
    LoopNeverReturns(env, e, force);
    TurnsSend(env, e, force);
    TurnsKeepInv(env, e, force);
    var c := Turns(env, e, force);
    if EndsEmpty(c) {
      var e1 := c.e.(tick := c.e.tick + 1);
      FailoverDrainNews(env, e1, force, env.clock(c.e.tick));
      NothingBefore(c.e, FailoverDrain(env, e1, force, env.clock(c.e.tick)).e, |e.out|);
    }
  }

  lemma NothingBefore(m: Engine, o: Engine, n: nat)
    requires forall k | n <= k < |m.out| :: m.out[k].via != Failover
    requires NewsOnly(o, |m.out|) && m.out <= o.out
    ensures NewsOnly(o, n)
  {
    forall k | n <= k < |m.out| ensures o.out[k] == m.out[k] {}
  }

  lemma ServedNews(env: Env, e: Engine, force: bool, now: nat)
    requires Inv(e)
    ensures var o := Served(env, e, force, now).e; NewsOnly(o, |e.out|) && e.out <= o.out
  {
    hide Loop, FailoverDrain, PrimaryTrimmed;
    var e1 := PrimaryTrimmed(e);
    TrimKeepsOutput(e);
    TrimKeepsInv(env, e);
    ActiveKeepsInv(e1);
    FailoverDrainNews(env, e1, force, now);
    LoopNews(env, SetActive(e1, 0), force);
  }

  /** Every packet sent in fail-over during a drain is news: its index is past
      the anchor and past the aligned image of the last primary sent. */
  lemma FailoverSendsNews(env: Env, e: Engine, force: bool)
    requires Inv(e)
    ensures var o := DrainOnce(env, e, force).e; e.out <= o.out && NewsOnly(o, |e.out|)
  {
    hide Served, FailoverDrain;
    var e1 := Opened(env, e);
    OpenedKeepsInv(env, e);
    ServedNews(env, e1, force, env.clock(e.tick));
    FailoverDrainNews(env, e1, force, env.clock(e.tick));
  }

  /** Fail-over packets leave in strictly increasing stream order over a whole run. */
  lemma FailoverInOrder(env: Env, evs: seq<Event>)
    ensures var e := Run(env, evs); IncreasingTo(Through(e.out, Failover), |e.h1.log|)
  {
    RunKeepsInv(env, evs);
  }

  /** The primaries sent after position n of the output come from index first on. */
  predicate PrimariesFrom(out: seq<Emission>, n: nat, first: int) {
    forall k | n <= k < |out| :: out[k].via == Direct ==> out[k].r.index >= first
  }

  predicate NoPrimaries(out: seq<Emission>, n: nat) {
    forall k | n <= k < |out| :: out[k].via != Direct
  }

  lemma MoveSendsQueued(env: Env, e: Engine, mv: Move)
    requires Structured(e) && Legal(env, e, mv)
    ensures PrimariesFrom(Apply(env, e, mv).out, |e.out|, |e.fates|)
    ensures |Apply(env, e, mv).out| <= |e.out| + 1
  {
  }

  /** From any state on, the primaries sent are ones that were still queued. */
  lemma {:induction false} PathSendsQueued(env: Env, e: Engine, ms: seq<Move>)
    requires Inv(e) && Path(env, e, ms)
    ensures PrimariesFrom(After(env, e, ms).out, |e.out|, |e.fates|)
    decreases |ms|
  {
    if ms != [] {
      var e1 := Apply(env, e, ms[0]);
      MoveKeepsInv(env, e, ms[0]);
      PathKeepsInv(env, e1, ms[1..]);
      PathSendsQueued(env, e1, ms[1..]);
      MoveSendsQueued(env, e, ms[0]);
    }
  }

  lemma NoPrimariesStep(a: seq<Emission>, x: Emission, b: seq<Emission>)
    requires x.via != Direct && a + [x] <= b && NoPrimaries(b, |a| + 1)
    ensures a <= b && NoPrimaries(b, |a|)
  {
    assert b[|a|] == (a + [x])[|a|];
  }

  lemma StandInSendsNoPrimary(env: Env, e: Engine)
    requires e.q1 != []
    ensures var o := StandIn(env, e); o.e.out == if o.ok then e.out + [Emission(Failover, e.q1[0])] else e.out
  {
  }

  lemma {:induction false} FailoverSendsNoPrimary(env: Env, e: Engine, force: bool)
    ensures var o := FailoverLoop(env, e, force).e; e.out <= o.out && NoPrimaries(o.out, |e.out|)
    decreases |e.q1|
  {
    hide StandIn, NotDue;
    if e.q1 != [] && !NotDue(env.cfg, e.q1[0], force, env.clock(e.tick)) {
      var e1 := e.(tick := e.tick + 1);
      StandInSendsNoPrimary(env, e1);
      var o := StandIn(env, e1);
      if o.ok && force {
        FailoverSendsNoPrimary(env, o.e, force);
        NoPrimariesStep(e.out, Emission(Failover, e.q1[0]), FailoverLoop(env, o.e, force).e.out);
      }
    }
  }

  lemma FailoverDrainSendsNoPrimary(env: Env, e: Engine, force: bool, now: nat)
    ensures var o := FailoverDrain(env, e, force, now).e; e.out <= o.out && NoPrimaries(o.out, |e.out|)
  {
    FailoverSendsNoPrimary(env, SecondaryTrimmed(e), force);
  }

  // ------------------------------------------------- primaries after a fail-over

  /** The primaries sent after position n map past what the secondary had
      sent in state e, or to no secondary index. */
  predicate Unseen(e: Engine, out: seq<Emission>, n: nat) {
    forall k | n <= k < |out| :: out[k].via == Direct ==> !AlreadyOutput(e, out[k].r)
  }

  /** The queue reaches from before the start of the secondary stream into it,
      while the secondary has been output. */
  predicate Straddles(e: Engine) {
    && e.align.has && e.lastOut1.Some? && e.q0 != []
    && e.q0[0].index + e.align.offset < 0 <= e.q0[|e.q0| - 1].index + e.align.offset
  }

  /** Trimming stops at the first packet it need not drop, so it is complete
      if and only if the rest of the queue does not straddle the secondary's
      first packet. */
  lemma TrimIsCompleteIff(e: Engine)
    requires Structured(e) && (e.q0 != [] ==> !AlreadyOutput(e, e.q0[0]))
    ensures (exists i | 0 <= i < |e.q0| :: AlreadyOutput(e, e.q0[i])) <==> Straddles(e)
  {
    if Straddles(e) {
      var i := -e.align.offset - e.q0[0].index;
      assert e.q0[i].index + e.align.offset == 0;
    }
  }

  lemma LoopSendsUnseen(env: Env, e: Engine, force: bool)
    requires Inv(e) && e.active == 0 && e.q0 != [] && !AlreadyOutput(e, e.q0[0]) && !Straddles(e)
    ensures Unseen(e, Loop(env, e, force).e.out, |e.out|)
  {
    var o := Loop(env, e, force).e;
    var ms := LoopPath(env, e, force);
    PathSendsQueued(env, e, ms);
    PathKeepsInv(env, e, ms);
    LoopKeepsInputs(env, e, force);
    QueuedAreUnseen(e, o);
  }

  lemma QueuedAreUnseen(e: Engine, o: Engine)
    requires Structured(e) && e.q0 != [] && !AlreadyOutput(e, e.q0[0]) && !Straddles(e)
    requires PrimariesFrom(o.out, |e.out|, |e.fates|) && Structured(o) && Ledger(o) && o.h0 == e.h0
    ensures Unseen(e, o.out, |e.out|)
  {
    TrimIsCompleteIff(e);
    forall k | |e.out| <= k < |o.out| && o.out[k].via == Direct ensures !AlreadyOutput(e, o.out[k].r) {
      SentIsQueued(o, k);
      var i := o.out[k].r.index;
      assert e.q0[i - |e.fates|] == o.out[k].r;
    }
  }

  /** A primary that was sent is a record of the primary stream. */
  lemma SentIsQueued(e: Engine, k: nat)
    requires Structured(e) && Ledger(e) && k < |e.out| && e.out[k].via == Direct
    ensures var r := e.out[k].r; r.index < |e.h0.log| && e.h0.log[r.index] == r
  {
    SentIsListed(e.out, k);
    KeptAreRecords(e.h0, e.fates, Emitted);
  }

  lemma {:induction false} SentIsListed(out: seq<Emission>, k: nat)
    requires k < |out|
    ensures out[k].r in Through(out, out[k].via)
    decreases |out|
  {
    if k < |out| - 1 {
      SentIsListed(out[..|out| - 1], k);
    }
  }

  lemma {:induction false} KeptAreRecords(h: History, fates: seq<Fate>, f: Fate)
    requires Indexed(h) && |fates| <= |h.log|
    ensures forall r | r in Kept(h.log, fates, f) :: r.index < |h.log| && h.log[r.index] == r
    decreases |fates|
  {
    if fates != [] {
      KeptAreRecords(h, fates[..|fates| - 1], f);
    }
  }

  lemma ServedSendsUnseen(env: Env, e: Engine, force: bool, now: nat)
    requires Inv(e) && !Straddles(PrimaryTrimmed(e))
    ensures Unseen(e, Served(env, e, force, now).e.out, |e.out|)
  {
    hide Loop, FailoverDrain, Inv;
    var e1 := PrimaryTrimmed(e);
    TrimKeepsOutput(e);
    if e1.q0 == [] {
      FailoverDrainSendsNoPrimary(env, e1, force, now);
    } else {
      TrimKeepsInv(env, e);
      ActiveKeepsInv(e1);
      LoopSendsUnseen(env, SetActive(e1, 0), force);
      UnseenAgrees(e, SetActive(e1, 0), Loop(env, SetActive(e1, 0), force).e.out, |e.out|);
    }
  }

  lemma {:induction false} TrimKeepsOutput(e: Engine)
    ensures var o := PrimaryTrimmed(e);
            o.out == e.out && o.align == e.align && o.lastOut1 == e.lastOut1 && o.active == e.active && o.tick == e.tick
    ensures var o := PrimaryTrimmed(e); o.q0 != [] ==> !AlreadyOutput(o, o.q0[0])
    decreases |e.q0|
  {
    if e.q0 != [] && AlreadyOutput(e, e.q0[0]) { TrimKeepsOutput(Popped(e, Discarded)); }
  }

  lemma ActiveKeepsInv(e: Engine)
    requires Inv(e)
    ensures Inv(SetActive(e, 0))
  {
  }

  lemma DispatchSendsUnseen(env: Env, e: Engine, force: bool, now: nat)
    requires Inv(e) && !Straddles(PrimaryTrimmed(e))
    ensures Unseen(e, Dispatch(env, e, force, now).e.out, |e.out|)
  {
    ServedSendsUnseen(env, e, force, now);
    FailoverDrainSendsNoPrimary(env, e, force, now);
  }

  lemma OpenedTrims(env: Env, e: Engine)
    ensures Straddles(PrimaryTrimmed(Opened(env, e))) <==> Straddles(PrimaryTrimmed(e))
  {
    TrimDependsOnQueue(e, Opened(env, e));
  }

  lemma {:induction false} TrimDependsOnQueue(e: Engine, f: Engine)
    requires e.q0 == f.q0 && e.align == f.align && e.lastOut1 == f.lastOut1
    ensures var e', f' := PrimaryTrimmed(e), PrimaryTrimmed(f);
            e'.q0 == f'.q0 && e'.align == f'.align && e'.lastOut1 == f'.lastOut1
    decreases |e.q0|
  {
    if e.q0 != [] && AlreadyOutput(e, e.q0[0]) {
      TrimDependsOnQueue(Popped(e, Discarded), Popped(f, Discarded));
    }
  }

  lemma UnseenAgrees(e: Engine, f: Engine, out: seq<Emission>, n: nat)
    requires e.align == f.align && e.lastOut1 == f.lastOut1 && Unseen(f, out, n)
    ensures Unseen(e, out, n)
  {
  }

  lemma OpenedDrainSendsUnseen(env: Env, e: Engine, force: bool)
    requires Inv(Opened(env, e)) && !Straddles(PrimaryTrimmed(Opened(env, e)))
    ensures Unseen(Opened(env, e), DrainOnce(env, e, force).e.out, |e.out|)
  {
    DispatchSendsUnseen(env, Opened(env, e), force, env.clock(e.tick));
  }

  /** Every primary sent during a drain maps past the last secondary packet
      that had been output when the drain began, or to no secondary index,
      provided the trimmed queue does not straddle the secondary's start. */
  lemma DrainSendsUnseen(env: Env, e: Engine, force: bool)
    requires Inv(e) && !Straddles(PrimaryTrimmed(e))
    ensures Unseen(e, DrainOnce(env, e, force).e.out, |e.out|)
  {
    hide Inv, Dispatch, PrimaryTrimmed, Unseen;
    OpenedKeepsInv(env, e);
    OpenedTrims(env, e);
    OpenedDrainSendsUnseen(env, e, force);
    UnseenAgrees(e, Opened(env, e), DrainOnce(env, e, force).e.out, |e.out|);
  }

  // ------------------------------------------------------------ the other half

  /** The place in a straddling queue that maps to the secondary's first packet. */
  function Crossing(e: Engine): (i: nat)
    requires Straddles(e)
    ensures Structured(e) ==> i < |e.q0|
  {
    -e.align.offset - e.q0[0].index
  }

  /** The drain turns to the primary with a straddling queue and gets as far as
      the packet that maps to the secondary's first. */
  ghost predicate CrossesOver(env: Env, e: Engine, force: bool)
    requires Inv(e)
  {
    var e1 := PrimaryTrimmed(e);
    && ReturnReady(env.cfg, Opened(env, e), env.clock(e.tick)) && Straddles(e1)
    && Crossing(e1) < |e1.q0| && DueThrough(env, e1.q0, Crossing(e1), e.tick + 1, force)
  }

  /** The primary at the crossing is undamaged. */
  predicate CrossingSound(e: Engine) {
    Straddles(e) && Crossing(e) < |e.q0| ==> !e.q0[Crossing(e)].packet.transportError
  }

  /** What the turns send of a straddling queue repeats the secondary if and
      only if they get to the crossing. */
  lemma TurnsUnseenIff(env: Env, e: Engine, force: bool)
    requires SinkWorks(env) && Structured(e) && Straddles(e) && CrossingSound(e)
    ensures Crossing(e) < |e.q0|
    ensures Unseen(e, Turns(env, e, force).e.out, |e.out|) <==> !DueThrough(env, e.q0, Crossing(e), e.tick, force)
  {
    hide Turns, DueThrough;
    var i, out := Crossing(e), Turns(env, e, force).e.out;
    if DueThrough(env, e.q0, i, e.tick, force) {
      TurnsReach(env, e, force, i);
      var k :| |e.out| <= k < |out| && out[k] == Emission(Direct, e.q0[i]);
      assert AlreadyOutput(e, out[k].r);
    } else {
      TurnsStop(env, e, force, i);
    }
  }

  lemma LoopUnseenIff(env: Env, e: Engine, force: bool)
    requires SinkWorks(env) && Structured(e) && e.active == 0 && Straddles(e) && CrossingSound(e)
    ensures Crossing(e) < |e.q0|
    ensures Unseen(e, Loop(env, e, force).e.out, |e.out|) <==> !DueThrough(env, e.q0, Crossing(e), e.tick, force)
  {
    hide Turns, Loop, DueThrough, Structured, Straddles, FailoverDrain;
    TurnsUnseenIff(env, e, force);
    LoopNeverReturns(env, e, force);
    TurnsSend(env, e, force);
    var c := Turns(env, e, force);
    if EndsEmpty(c) {
      var e1 := c.e.(tick := c.e.tick + 1);
      FailoverDrainSendsNoPrimary(env, e1, force, env.clock(c.e.tick));
      NoPrimaryAdded(e, c.e.out, FailoverDrain(env, e1, force, env.clock(c.e.tick)).e.out, |e.out|);
    }
  }

  lemma NoPrimaryAdded(e: Engine, a: seq<Emission>, b: seq<Emission>, n: nat)
    requires a <= b && n <= |a| && NoPrimaries(b, |a|)
    ensures Unseen(e, a, n) <==> Unseen(e, b, n)
  {
    if Unseen(e, b, n) {
      forall k | n <= k < |a| && a[k].via == Direct ensures !AlreadyOutput(e, a[k].r) { assert b[k] == a[k]; }
    } else {
      var k :| n <= k < |b| && b[k].via == Direct && AlreadyOutput(e, b[k].r);
      assert a[k] == b[k];
    }
  }

  lemma ServedUnseenIff(env: Env, e: Engine, force: bool, now: nat)
    requires SinkWorks(env) && Inv(e) && Straddles(PrimaryTrimmed(e)) && CrossingSound(PrimaryTrimmed(e))
    ensures var e1 := PrimaryTrimmed(e);
            && Crossing(e1) < |e1.q0|
            && (Unseen(e, Served(env, e, force, now).e.out, |e.out|) <==> !DueThrough(env, e1.q0, Crossing(e1), e.tick, force))
  {
    hide Loop, FailoverDrain, Ledger, Sourced, Anchored, Accounted, AlignmentSound, PrimaryTrimmed, Unseen, DueThrough;
    var e1 := PrimaryTrimmed(e);
    TrimKeepsOutput(e);
    TrimKeepsInv(env, e);
    ActiveKeepsInv(e1);
    var e2 := SetActive(e1, 0);
    LoopUnseenIff(env, e2, force);
    assert Served(env, e, force, now) == Loop(env, e2, force);
    assert Crossing(e2) == Crossing(e1) && e2.q0 == e1.q0;
    UnseenIffAgrees(e2, e, Served(env, e, force, now).e.out, |e.out|);
  }

  lemma UnseenIffAgrees(e: Engine, f: Engine, out: seq<Emission>, n: nat)
    requires e.align == f.align && e.lastOut1 == f.lastOut1
    ensures Unseen(f, out, n) <==> Unseen(e, out, n)
  {
    if Unseen(f, out, n) { UnseenAgrees(e, f, out, n); }
    if Unseen(e, out, n) { UnseenAgrees(f, e, out, n); }
  }

  /** The hand-over repeats a packet exactly when the drain crosses over: for
      every reachable state, forced or not, no primary sent maps at or before
      the last secondary packet sent unless the drain turns to the primary, the
      trimmed queue straddles the secondary's start, and all packets up to the
      crossing are due. */
  lemma DrainUnseenIff(env: Env, e: Engine, force: bool)
    requires SinkWorks(env) && Inv(e) && CrossingSound(PrimaryTrimmed(e))
    ensures Unseen(e, DrainOnce(env, e, force).e.out, |e.out|) <==> !CrossesOver(env, e, force)
  {
    hide Served, FailoverDrain, Inv, ReturnReady, PrimaryTrimmed, DueThrough, Unseen;
    var e1, now := Opened(env, e), env.clock(e.tick);
    OpenedKeepsInv(env, e);
    TrimDependsOnQueue(e, e1);
    if !Straddles(PrimaryTrimmed(e)) {
      DrainSendsUnseen(env, e, force);
    } else if !ReturnReady(env.cfg, e1, now) {
      FailoverDrainSendsNoPrimary(env, e1, force, now);
      NothingRepeated(e, FailoverDrain(env, e1, force, now).e.out, |e.out|);
    } else {
      StraddlersAreQueued(e);
      ServedUnseenIff(env, e1, force, now);
      assert DrainOnce(env, e, force) == Served(env, e1, force, now);
      UnseenIffAgrees(e1, e, DrainOnce(env, e, force).e.out, |e.out|);
    }
  }

  lemma NothingRepeated(e: Engine, out: seq<Emission>, n: nat)
    requires NoPrimaries(out, n)
    ensures Unseen(e, out, n)
  {
  }

  lemma StraddlersAreQueued(e: Engine)
    requires Straddles(PrimaryTrimmed(e))
    ensures e.q0 != []
  {
  }
}
