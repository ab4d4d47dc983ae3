/** A loss that passes without a word: of two nulls in a row between two content
    packets the primary delivers only the first. */
module SilenceExample {
  import opened Packets
  import opened State
  import opened Gaps
  import opened GapRules
  import opened Reporting

  const A: Packet := Packet(1, 100, 0, true, false, false, false, false, 0)
  const N1: Packet := Packet(2, 8191, 0, true, true, false, false, false, 0)
  const N2: Packet := Packet(3, 8191, 0, true, true, false, false, false, 0)
  const B: Packet := Packet(4, 100, 1, true, false, false, false, false, 0)

  const TheConfig: Config := Config(0, 0, 0, 0, 0, 0, 15, 8192)

  /** A and N1 are sent, A is the anchor, and B is next. */
  predicate BIsNext(e: Engine) {
    && e.h0 == History([Record(0, 0, 1, A), Record(0, 1, 2, N1), Record(0, 2, 3, B)], 0)
    && e.h1 == History([Record(1, 0, 1, A), Record(1, 1, 2, N1), Record(1, 2, 3, N2), Record(1, 3, 4, B)], 0)
    && e.q0 == [Record(0, 2, 3, B)] && e.anchor == Anchor(true, 0, 0) && e.align == Alignment(true, 0, 100, 0)
    && e.outCc == map[100 := 0]
  }

  lemma BHasOneCopy(e: Engine)
    requires BIsNext(e)
    ensures SoleCopy(TheConfig, e, e.q0[0], e.h1.log[3]) && Offers(e, e.q0[0], e.h1.log[3], 1, 1)
  {
  }

  lemma N2IsANullGap(e: Engine)
    requires BIsNext(e)
    ensures NullGap(TheConfig, e, 1, 1)
  {
    assert PairHeld(e, 0) && PairHeld(e, 1);
    assert GapRecords(e, 1, 1) == [e.h1.log[2]];
    assert GapPackets(e, 1, 1) == [N2];
  }

  /** B is passed on, N2 is neither inserted nor missed. */
  lemma N2IsLostInSilence(e: Engine)
    requires BIsNext(e)
    ensures PrimaryPlan(TheConfig, e, e.q0[0]) == Keep && PassesInSilence(TheConfig, e, 1, 1)
  {
    BHasOneCopy(e);
    N2IsANullGap(e);
    hide PrimaryPlan, SoleCopy, NullGap, FindCandidates;
    FittingIsSilentIff(TheConfig, e, e.q0[0], e.h1.log[3], 1, 1);
  }
}
