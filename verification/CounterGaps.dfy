/** Diagnosing loss on the secondary: what the continuity counters of the
    survivors tell about the packets that are gone. */
module CounterGaps {
  import opened Packets
  import opened Receive

  // ------------------------------------------------------------- what is counted

  /** The diagnosis so far: last counters, loss events, missing packets. */
  datatype Meter = Meter(states: Counters, events: nat, missing: nat)

  function Metered(ps: seq<Packet>): Meter
    decreases |ps|
  {
    if ps == [] then Meter(map[], 0, 0) else
      var m, p := Metered(ps[..|ps| - 1]), ps[|ps| - 1];
      if InputGap(m.states, p)
      then Meter(Simulate(m.states, p), m.events + 1, m.missing + GapSize(m.states, p))
      else m.(states := Simulate(m.states, p))
  }

  // ---------------------------------------------------------------- what is lost

  /** A stream of stuffing and sound payload packets, counters in sequence. */
  predicate PayloadStream(T: seq<Packet>) {
    FitsAll(map[], T) && forall i | 0 <= i < |T| :: T[i].isNull || (T[i].Content() && T[i].hasPayload)
  }

  /** The packets that arrive. */
  function Survivors(T: seq<Packet>, keep: seq<bool>): seq<Packet>
    requires |keep| == |T|
    decreases |T|
  {
    if T == [] then [] else
      var n := |T| - 1;
      if keep[n] then Survivors(T[..n], keep[..n]) + [T[n]] else Survivors(T[..n], keep[..n])
  }

  predicate On(p: Packet, pid: Pid) { !p.isNull && p.pid == pid }

  /** A packet of this PID arrived. */
  predicate Seen(T: seq<Packet>, keep: seq<bool>, pid: Pid)
    requires |keep| == |T|
    decreases |T|
  {
    T != [] && ((On(T[|T| - 1], pid) && keep[|T| - 1]) || Seen(T[..|T| - 1], keep[..|T| - 1], pid))
  }

  /** How many packets of this PID were lost since the last that arrived. */
  function Pending(T: seq<Packet>, keep: seq<bool>, pid: Pid): nat
    requires |keep| == |T|
    decreases |T|
  {
    if T == [] then 0 else
      var n := |T| - 1;
      if !On(T[n], pid) then Pending(T[..n], keep[..n], pid)
      else if keep[n] || !Seen(T[..n], keep[..n], pid) then 0
      else Pending(T[..n], keep[..n], pid) + 1
  }

  /** The losses that a later survivor closes, and in how many gaps. */
  function LostBetween(T: seq<Packet>, keep: seq<bool>): nat
    requires |keep| == |T|
    decreases |T|
  {
    if T == [] then 0 else
      var n := |T| - 1;
      LostBetween(T[..n], keep[..n]) +
      if keep[n] && !T[n].isNull then Pending(T[..n], keep[..n], T[n].pid) else 0
  }

  function GapCount(T: seq<Packet>, keep: seq<bool>): nat
    requires |keep| == |T|
    decreases |T|
  {
    if T == [] then 0 else
      var n := |T| - 1;
      GapCount(T[..n], keep[..n]) +
      if keep[n] && !T[n].isNull && Pending(T[..n], keep[..n], T[n].pid) > 0 then 1 else 0
  }

  /** No closed gap is longer than fourteen packets. */
  predicate AllShort(T: seq<Packet>, keep: seq<bool>)
    requires |keep| == |T|
    decreases |T|
  {
    T == [] ||
    (var n := |T| - 1;
     AllShort(T[..n], keep[..n]) &&
     (keep[n] && !T[n].isNull ==> Pending(T[..n], keep[..n], T[n].pid) <= 14))
  }

  /** No closed gap is hidden by the counters: none brings them back to where
      they were, or to the last counter seen. */
  predicate NoneHidden(T: seq<Packet>, keep: seq<bool>)
    requires |keep| == |T|
    decreases |T|
  {
    T == [] ||
    (var n := |T| - 1;
     NoneHidden(T[..n], keep[..n]) &&
     (keep[n] && !T[n].isNull && Pending(T[..n], keep[..n], T[n].pid) > 0 ==>
        Pending(T[..n], keep[..n], T[n].pid) % 16 != 0 && Pending(T[..n], keep[..n], T[n].pid) % 16 != 15))
  }

  // ------------------------------------------------------------ the counters agree

  lemma CleanPrefix(T: seq<Packet>)
    requires PayloadStream(T) && T != []
    ensures var n := |T| - 1;
            && PayloadStream(T[..n]) && Fits(ObserveAll(map[], T[..n]), T[n])
            && ObserveAll(map[], T) == Observe(ObserveAll(map[], T[..n]), T[n])
  {
    var n := |T| - 1;
    assert T == T[..n] + [T[n]];
    FitsAllSplit(map[], T[..n], [T[n]]);
    assert [T[n]][1..] == [];
  }

  /** The meter lags behind the true counter of each PID by the pending losses. */
  predicate Lags(T: seq<Packet>, keep: seq<bool>, pid: Pid)
    requires |keep| == |T|
  {
    var seen, true_ := Metered(Survivors(T, keep)).states, ObserveAll(map[], T);
    && (pid in seen <==> Seen(T, keep, pid))
    && (pid in seen ==> pid in true_ && true_[pid] == (seen[pid] + Pending(T, keep, pid)) % 16)
  }

  lemma SurvivorsStep(T: seq<Packet>, keep: seq<bool>)
    requires |keep| == |T| && T != []
    ensures var n := |T| - 1;
            var m := Metered(Survivors(T[..n], keep[..n]));
            Metered(Survivors(T, keep)).states == if keep[n] then Simulate(m.states, T[n]) else m.states
  {
    var n := |T| - 1;
    var s := Survivors(T[..n], keep[..n]);
    if keep[n] {
      assert (s + [T[n]])[..|s|] == s;
    }
  }

  lemma {:induction false} MeterLags(T: seq<Packet>, keep: seq<bool>, pid: Pid)
    requires PayloadStream(T) && |keep| == |T|
    ensures Lags(T, keep, pid)
    decreases |T|
  {
    hide FitsAll;
    if T != [] {
      var n := |T| - 1;
      CleanPrefix(T);
      MeterLags(T[..n], keep[..n], pid);
      SurvivorsStep(T, keep);
      if On(T[n], pid) && pid in ObserveAll(map[], T[..n]) && Seen(T[..n], keep[..n], pid) {
        NextOfSum(Metered(Survivors(T[..n], keep[..n])).states[pid], Pending(T[..n], keep[..n], pid));
      }
    }
  }

  lemma NextOfSum(c: Counter, k: nat)
    ensures NextCounter((c + k) % 16) == (c + (k + 1)) % 16
  {
  }

  /** How much of a gap of k packets the counters show: whole turns of sixteen
      vanish, and so does a gap that looks like a repeated counter. */
  function Shown(k: nat): nat {
    if k % 16 == 15 then 0 else k % 16
  }

  lemma ShownIsExactIff(k: nat)
    ensures Shown(k) <= k && (Shown(k) == k <==> k <= 14)
    ensures Shown(k) > 0 <==> k % 16 != 0 && k % 16 != 15
  {
  }

  /** A survivor after k pending losses adds exactly what the counters show. */
  lemma GapIsShown(states: Counters, p: Packet, k: nat)
    requires p.Content() && p.hasPayload && p.pid in states && p.cc == (states[p.pid] + k + 1) % 16
    ensures InputGap(states, p) <==> Shown(k) > 0
    ensures InputGap(states, p) ==> GapSize(states, p) == Shown(k)
  {
    var c, d := states[p.pid], k % 16;
    TurnsVanish(c + d + 1, k / 16);
    assert c + d + 1 + 16 * (k / 16) == c + k + 1;
    GapOfLessThanATurn(states, p, d);
  }

  lemma TurnsVanish(x: nat, turns: nat)
    ensures (x + 16 * turns) % 16 == x % 16
  {
  }

  lemma GapOfLessThanATurn(states: Counters, p: Packet, d: nat)
    requires p.Content() && p.hasPayload && p.pid in states && d < 16 && p.cc == (states[p.pid] + d + 1) % 16
    ensures InputGap(states, p) <==> Shown(d) > 0
    ensures InputGap(states, p) ==> GapSize(states, p) == Shown(d)
  {
    var c := states[p.pid];
    assert p.cc == if c + d + 1 < 16 then c + d + 1 else if c + d + 1 < 32 then c + d + 1 - 16 else 0;
  }

  lemma {:induction false} NothingPendingUnseen(T: seq<Packet>, keep: seq<bool>, pid: Pid)
    requires |keep| == |T| && !Seen(T, keep, pid)
    ensures Pending(T, keep, pid) == 0
    decreases |T|
  {
    if T != [] {
      NothingPendingUnseen(T[..|T| - 1], keep[..|T| - 1], pid);
    }
  }

  lemma MeteredStep(ps: seq<Packet>, p: Packet)
    ensures var m, m' := Metered(ps), Metered(ps + [p]);
            && m'.missing == m.missing + (if InputGap(m.states, p) then GapSize(m.states, p) else 0)
            && m'.events == m.events + (if InputGap(m.states, p) then 1 else 0)
  {
    assert (ps + [p])[..|ps|] == ps;
  }

  /** What a survivor adds: what the counters show of the losses before it. */
  lemma SurvivorAdds(T: seq<Packet>, keep: seq<bool>)
    requires PayloadStream(T) && |keep| == |T| && T != [] && !T[|T| - 1].isNull
    ensures var n := |T| - 1;
            var states, p := Metered(Survivors(T[..n], keep[..n])).states, T[n];
            var k := Pending(T[..n], keep[..n], p.pid);
            (InputGap(states, p) <==> Shown(k) > 0) && (InputGap(states, p) ==> GapSize(states, p) == Shown(k))
  {
    hide Metered, Survivors, Pending, Seen, ObserveAll, InputGap, GapSize;
    var n := |T| - 1;
    var states, p := Metered(Survivors(T[..n], keep[..n])).states, T[n];
    CleanPrefix(T);
    MeterLags(T[..n], keep[..n], p.pid);
    if Seen(T[..n], keep[..n], p.pid) {
      var k := Pending(T[..n], keep[..n], p.pid);
      NextOfSum(states[p.pid], k);
      GapIsShown(states, p, k);
    } else {
      NothingPendingUnseen(T[..n], keep[..n], p.pid);
      NoGapUnseen(states, p);
    }
  }

  lemma NoGapUnseen(states: Counters, p: Packet)
    requires p.pid !in states
    ensures !InputGap(states, p)
  {
  }

  lemma MeterStep(T: seq<Packet>, keep: seq<bool>)
    requires PayloadStream(T) && |keep| == |T| && T != []
    ensures var n := |T| - 1;
            var m, m' := Metered(Survivors(T[..n], keep[..n])), Metered(Survivors(T, keep));
            var k := if keep[n] && !T[n].isNull then Pending(T[..n], keep[..n], T[n].pid) else 0;
            m'.missing == m.missing + Shown(k) && m'.events == m.events + if Shown(k) > 0 then 1 else 0
  {
    hide Metered, Pending, PayloadStream;
    var n := |T| - 1;
    if keep[n] {
      MeteredStep(Survivors(T[..n], keep[..n]), T[n]);
      if !T[n].isNull {
        SurvivorAdds(T, keep);
      }
    }
  }

  /** Counter-gap counting never counts too much.  The packets are counted
      exactly if and only if no gap is longer than fourteen, the gaps if and only
      if no gap is a multiple of sixteen or one short of it. */
  lemma {:induction false} CountingIsExactIff(T: seq<Packet>, keep: seq<bool>)
    requires PayloadStream(T) && |keep| == |T|
    ensures var m := Metered(Survivors(T, keep));
            && m.missing <= LostBetween(T, keep)
            && (m.missing == LostBetween(T, keep) <==> AllShort(T, keep))
            && m.events <= GapCount(T, keep)
            && (m.events == GapCount(T, keep) <==> NoneHidden(T, keep))
            && (AllShort(T, keep) ==> NoneHidden(T, keep))
    decreases |T|
  {
    if T != [] {
      var n := |T| - 1;
      CleanPrefix(T);
      CountingIsExactIff(T[..n], keep[..n]);
      MeterStep(T, keep);
      if keep[n] && !T[n].isNull {
        ShownIsExactIff(Pending(T[..n], keep[..n], T[n].pid));
      }
    }
  }

  // --------------------------------------------------- packets without payload

  /** A stream of stuffing and sound packets, counters in sequence; packets
      without payload repeat the counter before them. */
  predicate CleanStream(T: seq<Packet>) {
    FitsAll(map[], T) && forall i | 0 <= i < |T| :: T[i].isNull || T[i].Content()
  }

  lemma CleanStreamPrefix(T: seq<Packet>)
    requires CleanStream(T) && T != []
    ensures var n := |T| - 1;
            && CleanStream(T[..n]) && Fits(ObserveAll(map[], T[..n]), T[n])
            && ObserveAll(map[], T) == Observe(ObserveAll(map[], T[..n]), T[n])
  {
    var n := |T| - 1;
    assert T == T[..n] + [T[n]];
    FitsAllSplit(map[], T[..n], [T[n]]);
    assert [T[n]][1..] == [];
  }

  /** A clean stream received whole, packets without payload included, counts no
      loss at all. */
  lemma {:induction false} CleanCountsNothing(T: seq<Packet>)
    requires CleanStream(T)
    ensures Metered(T) == Meter(ObserveAll(map[], T), 0, 0)
    decreases |T|
  {
    if T != [] {
      CleanStreamPrefix(T);
      CleanCountsNothing(T[..|T| - 1]);
    }
  }

  /** A packet without payload whose counter is not the one before it counts as
      one loss event and one missing packet, whatever was lost. */
  lemma OutOfTurnWithoutPayload(ps: seq<Packet>, p: Packet)
    requires p.Content() && !p.hasPayload && p.pid in Metered(ps).states && p.cc != Metered(ps).states[p.pid]
    ensures var m := Metered(ps);
            Metered(ps + [p]) == Meter(m.states[p.pid := p.cc], m.events + 1, m.missing + 1)
  {
    assert (ps + [p])[..|ps|] == ps;
  }

  // ----------------------------------------------- what "lost between" stands for

  predicate ArrivedBefore(T: seq<Packet>, keep: seq<bool>, i: int, pid: Pid)
    requires |keep| == |T|
  {
    exists a | 0 <= a < |T| :: a < i && keep[a] && On(T[a], pid)
  }

  predicate ArrivedAfter(T: seq<Packet>, keep: seq<bool>, i: int, pid: Pid)
    requires |keep| == |T|
  {
    exists b | 0 <= b < |T| :: i < b && keep[b] && On(T[b], pid)
  }

  /** Lost packets of a PID with an arrival before and none after. */
  function OpenLosses(T: seq<Packet>, keep: seq<bool>, pid: Pid): set<nat>
    requires |keep| == |T|
  {
    set i: nat | i < |T| && On(T[i], pid) && !keep[i] && ArrivedBefore(T, keep, i, pid) && !ArrivedAfter(T, keep, i, pid)
  }

  /** Lost packets between two arrivals of their PID. */
  function ClosedLosses(T: seq<Packet>, keep: seq<bool>): set<nat>
    requires |keep| == |T|
  {
    set i: nat | i < |T| && !T[i].isNull && !keep[i] && ArrivedBefore(T, keep, i, T[i].pid) && ArrivedAfter(T, keep, i, T[i].pid)
  }

  lemma {:induction false} SeenIsArrived(T: seq<Packet>, keep: seq<bool>, pid: Pid)
    requires |keep| == |T|
    ensures Seen(T, keep, pid) <==> ArrivedBefore(T, keep, |T|, pid)
    decreases |T|
  {
    if T != [] {
      var n := |T| - 1;
      SeenIsArrived(T[..n], keep[..n], pid);
      if ArrivedBefore(T[..n], keep[..n], n, pid) {
        var a :| 0 <= a < n && a < n && keep[..n][a] && On(T[..n][a], pid);
        assert keep[a] && On(T[a], pid);
      }
      if ArrivedBefore(T, keep, |T|, pid) && !(On(T[n], pid) && keep[n]) {
        var a :| 0 <= a < |T| && a < |T| && keep[a] && On(T[a], pid);
        assert keep[..n][a] && On(T[..n][a], pid);
      }
    }
  }

  /** Adding a packet changes what arrived before or after an index only there. */
  lemma ArrivalsStep(T: seq<Packet>, keep: seq<bool>, i: nat, pid: Pid)
    requires |keep| == |T| && i < |T| - 1
    ensures var n := |T| - 1;
            && (ArrivedBefore(T, keep, i, pid) <==> ArrivedBefore(T[..n], keep[..n], i, pid))
            && (ArrivedAfter(T, keep, i, pid) <==> ArrivedAfter(T[..n], keep[..n], i, pid) || (keep[n] && On(T[n], pid)))
  {
    var n := |T| - 1;
    var U, k := T[..n], keep[..n];
    if ArrivedBefore(T, keep, i, pid) {
      var a :| 0 <= a < |T| && a < i && keep[a] && On(T[a], pid);
      assert k[a] && On(U[a], pid);
    }
    if ArrivedBefore(U, k, i, pid) {
      var a :| 0 <= a < |U| && a < i && k[a] && On(U[a], pid);
      assert keep[a] && On(T[a], pid);
    }
    if ArrivedAfter(T, keep, i, pid) && !(keep[n] && On(T[n], pid)) {
      var b :| 0 <= b < |T| && i < b && keep[b] && On(T[b], pid);
      assert k[b] && On(U[b], pid);
    }
    if ArrivedAfter(U, k, i, pid) {
      var b :| 0 <= b < |U| && i < b && k[b] && On(U[b], pid);
      assert keep[b] && On(T[b], pid);
    }
  }

  lemma LastArrivals(T: seq<Packet>, keep: seq<bool>, pid: Pid)
    requires |keep| == |T| && T != []
    ensures var n := |T| - 1;
            !ArrivedAfter(T, keep, n, pid) && (ArrivedBefore(T, keep, n, pid) <==> Seen(T[..n], keep[..n], pid))
  {
    var n := |T| - 1;
    SeenIsArrived(T[..n], keep[..n], pid);
    if ArrivedBefore(T, keep, n, pid) {
      var a :| 0 <= a < |T| && a < n && keep[a] && On(T[a], pid);
      assert keep[..n][a] && On(T[..n][a], pid);
    }
    if ArrivedBefore(T[..n], keep[..n], n, pid) {
      var a :| 0 <= a < n && a < n && keep[..n][a] && On(T[..n][a], pid);
      assert keep[a] && On(T[a], pid);
    }
  }

  lemma NothingOpenUnseen(T: seq<Packet>, keep: seq<bool>, pid: Pid)
    requires |keep| == |T| && !Seen(T, keep, pid)
    ensures forall i: nat | i < |T| :: !ArrivedBefore(T, keep, i, pid)
  {
    SeenIsArrived(T, keep, pid);
  }

  /** How the open losses of a PID change with the next packet. */
  lemma OpenStep(T: seq<Packet>, keep: seq<bool>, pid: Pid)
    requires |keep| == |T| && T != []
    ensures var n := |T| - 1;
            var open := OpenLosses(T[..n], keep[..n], pid);
            OpenLosses(T, keep, pid) ==
            if !On(T[n], pid) then open
            else if keep[n] || !Seen(T[..n], keep[..n], pid) then {} else open + {n}
  {
    var n := |T| - 1;
    var U, k := T[..n], keep[..n];
    LastArrivals(T, keep, pid);
    forall i: nat | i < n ensures
      && (ArrivedBefore(T, keep, i, pid) <==> ArrivedBefore(U, k, i, pid))
      && (ArrivedAfter(T, keep, i, pid) <==> ArrivedAfter(U, k, i, pid) || (keep[n] && On(T[n], pid)))
    { ArrivalsStep(T, keep, i, pid); }
    if !Seen(U, k, pid) { NothingOpenUnseen(U, k, pid); }
    hide ArrivedBefore, ArrivedAfter, Seen;
  }

  lemma {:induction false} PendingIsOpen(T: seq<Packet>, keep: seq<bool>, pid: Pid)
    requires |keep| == |T|
    ensures Pending(T, keep, pid) == |OpenLosses(T, keep, pid)|
    decreases |T|
  {
    hide OpenLosses, Seen, On;
    if T == [] {
      NoLossesInNothing(T, keep, pid);
    } else {
      var n := |T| - 1;
      PendingIsOpen(T[..n], keep[..n], pid);
      OpenStep(T, keep, pid);
      LossesAreIndexes(T[..n], keep[..n], pid);
    }
  }

  lemma NoLossesInNothing(T: seq<Packet>, keep: seq<bool>, pid: Pid)
    requires |keep| == |T| == 0
    ensures OpenLosses(T, keep, pid) == {} == ClosedLosses(T, keep)
  {
  }

  lemma LossesAreIndexes(T: seq<Packet>, keep: seq<bool>, pid: Pid)
    requires |keep| == |T|
    ensures |T| !in OpenLosses(T, keep, pid)
    ensures ClosedLosses(T, keep) !! OpenLosses(T, keep, pid)
  {
  }

  /** How the closed losses change with the next packet. */
  lemma ClosedStep(T: seq<Packet>, keep: seq<bool>)
    requires |keep| == |T| && T != []
    ensures var n := |T| - 1;
            var closed := ClosedLosses(T[..n], keep[..n]);
            ClosedLosses(T, keep) ==
            if keep[n] && !T[n].isNull then closed + OpenLosses(T[..n], keep[..n], T[n].pid) else closed
  {
    var n := |T| - 1;
    var U, k := T[..n], keep[..n];
    LastArrivals(T, keep, T[n].pid);
    forall i: nat | i < n ensures
      && (ArrivedBefore(T, keep, i, T[i].pid) <==> ArrivedBefore(U, k, i, T[i].pid))
      && (ArrivedAfter(T, keep, i, T[i].pid) <==> ArrivedAfter(U, k, i, T[i].pid) || (keep[n] && On(T[n], T[i].pid)))
    { ArrivalsStep(T, keep, i, T[i].pid); }
    hide ArrivedBefore, ArrivedAfter;
  }

  /** The losses counted are exactly the lost packets with an arrival of their
      PID on both sides. */
  lemma {:induction false} LostBetweenIsClosed(T: seq<Packet>, keep: seq<bool>)
    requires |keep| == |T|
    ensures LostBetween(T, keep) == |ClosedLosses(T, keep)|
    decreases |T|
  {
    hide OpenLosses, ClosedLosses, Pending;
    if T == [] {
      NoLossesInNothing(T, keep, 0);
    } else {
      var n := |T| - 1;
      LostBetweenIsClosed(T[..n], keep[..n]);
      ClosedStep(T, keep);
      PendingIsOpen(T[..n], keep[..n], T[n].pid);
      LossesAreIndexes(T[..n], keep[..n], T[n].pid);
    }
  }
}
