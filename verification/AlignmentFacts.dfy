/** When the alignment follows the streams: a run of eight matching packets near
    where it is expected sets it, a matching PCR does, and it wears off otherwise. */
module AlignmentFacts {
  import opened Packets
  import opened State
  import opened Gaps
  import opened Receive
  import opened Invariants
  import opened GapRules

  // ------------------------------------------------------------------ runs of eight

  /** Two receptions of one informative packet. */
  predicate InfoTwins(a: Packet, b: Packet) {
    Twins(a, b) && !a.isNull && !b.isNull
  }

  /** c packets back from i and j, both streams received the same packet. */
  predicate TwinBack(self: History, other: History, i: int, j: int, c: nat) {
    InHistory(self, i - c) && InHistory(other, j - c) && InfoTwins(self.log[i - c].packet, other.log[j - c].packet)
  }

  /** The eight packets up to i on one stream are those up to j on the other. */
  predicate RunOfEight(self: History, other: History, i: int, j: int) {
    forall c: nat | c < 8 :: TwinBack(self, other, i, j, c)
  }

  lemma RunIsConfirmed(self: History, other: History, r: Record, j: int)
    requires InHistory(self, r.index) && self.log[r.index] == r
    ensures Confirmed(self, other, r, j) <==> RunOfEight(self, other, r.index, j)
  {
    var i := r.index;
    if RunOfEight(self, other, i, j) {
      assert TwinBack(self, other, i, j, 0);
      forall c | 1 <= c < MATCH_THRESHOLD ensures i >= c && j >= c && MatchBack(self, other, i, j, c) {
        assert TwinBack(self, other, i, j, c);
      }
    }
    if Confirmed(self, other, r, j) {
      forall c: nat | c < 8 ensures TwinBack(self, other, i, j, c) {
        if c > 0 { assert MatchBack(self, other, i, j, c); }
      }
    }
  }

  /** The search finds a confirmed index if there is one. */
  lemma {:induction false} SearchFinds(self: History, other: History, r: Record, first: int, last: int, j: int)
    requires first <= j <= last && Confirmed(self, other, r, j)
    ensures FirstConfirmed(self, other, r, first, last).Some?
    decreases last - first + 1
  {
    hide Confirmed;
    if !Confirmed(self, other, r, first) { SearchFinds(self, other, r, first + 1, last, j); }
  }

  // ------------------------------------------------------------------ the estimate

  /** The offset at which record i of stream k meets record j of the other. */
  function OffsetOf(k: StreamId, i: int, j: int): int { if k == 0 then j - i else i - j }

  /** Index j is near where the alignment expects the partner of i, or near i. */
  predicate NearExpected(a: Alignment, k: StreamId, i: int, j: int) {
    || (a.has && k == 0 && i + a.offset - 8 <= j <= i + a.offset + 8)
    || (a.has && k == 1 && i - a.offset - 8 <= j <= i - a.offset + 8)
    || i - 8 <= j <= i + 8
  }

  /** Every 512th record is also looked for far and wide. */
  predicate WithinProbe(cfg: Config, i: int, j: int) {
    i % 512 == 0 && i - SearchRadius(cfg) <= j <= i + SearchRadius(cfg)
  }

  /** The wide search covers at least 2048 places and the configured window at
      14 packets a millisecond, but never more than a history holds. */
  lemma RadiusCovers(cfg: Config)
    ensures 2048 <= SearchRadius(cfg) <= cfg.capacity
    ensures SearchRadius(cfg) == cfg.capacity || SearchRadius(cfg) * 1000000 >= cfg.alignmentWindow * 14
  {
  }

  /** The stream's own history with the new record in it, and the other's. */
  predicate HasRecord(self: History, r: Record) { InHistory(self, r.index) && self.log[r.index] == r }

  lemma RunIsTaken(cfg: Config, a: Alignment, self: History, other: History, k: StreamId, r: Record, j: int)
    requires HasRecord(self, r) && r.packet.Content() && RunOfEight(self, other, r.index, j)
    requires NearExpected(a, k, r.index, j) || WithinProbe(cfg, r.index, j)
    ensures var b := UpdatedAlignment(cfg, a, self, other, k, r);
            && b.has && b.confidence == 100 && b.misses == 0
            && exists i :: RunOfEight(self, other, r.index, i) && b.offset == OffsetOf(k, r.index, i)
  {
    hide Confirmed, RunOfEight;
    RunIsConfirmed(self, other, r, j);
    var near := NearMatch(a, self, other, k, r);
    if near.Some? {
      RunIsConfirmed(self, other, r, near.value);
    } else {
      NearIsSearched(a, self, other, k, r, j);
      SearchFinds(self, other, r, r.index - SearchRadius(cfg), r.index + SearchRadius(cfg), j);
      var wide := FirstConfirmed(self, other, r, r.index - SearchRadius(cfg), r.index + SearchRadius(cfg));
      RunIsConfirmed(self, other, r, wide.value);
    }
  }

  lemma NearIsSearched(a: Alignment, self: History, other: History, k: StreamId, r: Record, j: int)
    requires Confirmed(self, other, r, j) && NearMatch(a, self, other, k, r).None?
    ensures !NearExpected(a, k, r.index, j)
  {
    hide Confirmed;
    var x := if k == 0 then r.index + a.offset else r.index - a.offset;
    if a.has && x - 8 <= j <= x + 8 {
      SearchFinds(self, other, r, x - SEARCH_EXTRA, x + SEARCH_EXTRA, j);
    } else if r.index - 8 <= j <= r.index + 8 {
      SearchFinds(self, other, r, r.index - SEARCH_EXTRA, r.index + SEARCH_EXTRA, j);
    }
  }

  /** Without a run where it is looked for, the packet counts as a miss, and on
      a probe the 64th miss takes one point of confidence. */
  lemma NoRunWearsOff(cfg: Config, a: Alignment, self: History, other: History, k: StreamId, r: Record)
    requires HasRecord(self, r) && r.packet.Content()
    requires forall j | other.lo <= j < |other.log| && (NearExpected(a, k, r.index, j) || WithinProbe(cfg, r.index, j)) ::
               !RunOfEight(self, other, r.index, j)
    ensures var b, m := UpdatedAlignment(cfg, a, self, other, k, r), (a.misses + 1) % 0x1_0000_0000;
            && b.has == a.has && b.offset == a.offset
            && if r.index % 512 == 0 && m >= 64 && a.confidence > 0 then b.confidence == a.confidence - 1 && b.misses == 0
               else b.confidence == a.confidence && b.misses == m
  {
    hide Confirmed, RunOfEight, FirstConfirmed;
    var near := NearMatch(a, self, other, k, r);
    var wide := FirstConfirmed(self, other, r, r.index - SearchRadius(cfg), r.index + SearchRadius(cfg));
    if near.Some? { FoundIsRun(self, other, r, near.value); }
    if wide.Some? { FoundIsRun(self, other, r, wide.value); }
  }

  lemma FoundIsRun(self: History, other: History, r: Record, j: int)
    requires HasRecord(self, r) && Confirmed(self, other, r, j)
    ensures RunOfEight(self, other, r.index, j) && other.lo <= j < |other.log|
  {
    RunIsConfirmed(self, other, r, j);
  }

  // ------------------------------------------------------------------------ PCR

  /** An undamaged packet with the same PCR on the same PID. */
  predicate SamePcr(r: Packet, c: Packet) {
    c.hasPcr && c.pcr == r.pcr && c.pid == r.pid && !c.transportError && !c.discontinuity
  }

  /** t is the latest retained packet with r's PCR from index i on. */
  predicate LatestPcr(h: History, i: nat, r: Packet, t: Record) {
    && (exists y | i <= y < |h.log| :: h.log[y] == t) && SamePcr(r, t.packet)
    && forall y | i <= y < |h.log| && SamePcr(r, h.log[y].packet) :: h.log[y].arrival <= t.arrival
  }

  lemma {:induction false} PcrMatchIsLatest(h: History, i: nat, r: Packet, best: Option<Record>)
    requires best.Some? ==> SamePcr(r, best.value.packet)
    ensures var m := PcrMatch(h, i, r, best);
            && (m.None? <==> best.None? && forall y | i <= y < |h.log| :: !SamePcr(r, h.log[y].packet))
            && (m.Some? ==> SamePcr(r, m.value.packet) && (m == best || exists y | i <= y < |h.log| :: h.log[y] == m.value)
                            && (best.Some? ==> best.value.arrival <= m.value.arrival)
                            && forall y | i <= y < |h.log| && SamePcr(r, h.log[y].packet) :: h.log[y].arrival <= m.value.arrival)
    decreases |h.log| - i
  {
    if i < |h.log| {
      var c := h.log[i];
      var next := if PcrTwin(r, c.packet) && (best.None? || c.arrival > best.value.arrival) then Some(c) else best;
      PcrMatchIsLatest(h, i + 1, r, next);
    }
  }

  /** A packet with a PCR aligns the streams if the latest one with that PCR on
      the other stream is an exact copy of it; else it leaves the alignment. */
  lemma PcrAligns(a: Alignment, other: History, k: StreamId, r: Record)
    requires r.packet.hasPcr && !r.packet.transportError && !r.packet.discontinuity
    ensures (forall y | other.lo <= y < |other.log| :: !SamePcr(r.packet, other.log[y].packet)) ==> PcrAligned(a, other, k, r) == a
    ensures (exists y | other.lo <= y < |other.log| :: SamePcr(r.packet, other.log[y].packet)) ==>
              exists y | other.lo <= y < |other.log| :: LatestPcr(other, other.lo, r.packet, other.log[y]) &&
                PcrAligned(a, other, k, r) ==
                if Twins(r.packet, other.log[y].packet) then Alignment(true, OffsetOf(k, r.index, other.log[y].index), 100, 0) else a
  {
    hide PcrMatch;
    PcrMatchIsLatest(other, other.lo, r.packet, None);
    var m := PcrMatch(other, other.lo, r.packet, None);
    if m.Some? {
      var y :| other.lo <= y < |other.log| && other.log[y] == m.value;
      TwinsMatch(r.packet, m.value.packet);
      assert LatestPcr(other, other.lo, r.packet, other.log[y]);
    }
  }

  // ---------------------------------------------------------------- on reception

  /** The alignment before the search: the PCR of the packet comes first. */
  function BeforeSearch(env: Env, e: Engine, k: StreamId, p: Packet): Alignment {
    PcrAligned(e.align, HistoryOf(e, 1 - k), k, NewRecord(env, e, k, p))
  }

  lemma WithoutPcr(env: Env, e: Engine, k: StreamId, p: Packet)
    requires !p.hasPcr || p.transportError || p.discontinuity
    ensures BeforeSearch(env, e, k, p) == e.align
  {
  }

  /** Receiving a content packet aligns the streams: if it and the seven before
      it are, pair by pair, eight consecutive packets of the other stream that
      end near where the alignment or the index expects them, or anywhere
      within the wide search on every 512th packet, then the alignment has full
      confidence, no misses and the offset of such a run. */
  lemma ReceivedRunAligns(env: Env, e: Engine, k: StreamId, p: Packet, j: int)
    requires Structured(e) && p.Content()
    requires var i := |HistoryOf(e, k).log|;
             && RunOfEight(NewHistory(env, e, k, p), HistoryOf(e, 1 - k), i, j)
             && (NearExpected(BeforeSearch(env, e, k, p), k, i, j) || WithinProbe(env.cfg, i, j))
    ensures var b, i := Ingest(env, e, k, p).align, |HistoryOf(e, k).log|;
            && b.has && b.confidence == 100 && b.misses == 0
            && exists m :: RunOfEight(NewHistory(env, e, k, p), HistoryOf(e, 1 - k), i, m) && b.offset == OffsetOf(k, i, m)
  {
    ReceivedHistory(env, e, k, p);
    hide NewHistory, UpdatedAlignment, PcrAligned, RunOfEight, Structured;
    RunIsTaken(env.cfg, BeforeSearch(env, e, k, p), NewHistory(env, e, k, p), HistoryOf(e, 1 - k), k, NewRecord(env, e, k, p), j);
  }

  /** Receiving a content packet without such a run lets the alignment wear off;
      a packet without content leaves it as it is. */
  lemma ReceivedMissWearsOff(env: Env, e: Engine, k: StreamId, p: Packet)
    requires Structured(e)
    requires var i, other := |HistoryOf(e, k).log|, HistoryOf(e, 1 - k);
             forall j | other.lo <= j < |other.log| && (NearExpected(BeforeSearch(env, e, k, p), k, i, j) || WithinProbe(env.cfg, i, j)) ::
               !RunOfEight(NewHistory(env, e, k, p), other, i, j)
    ensures var a, b := BeforeSearch(env, e, k, p), Ingest(env, e, k, p).align;
            var i, m := |HistoryOf(e, k).log|, (a.misses + 1) % 0x1_0000_0000;
            && b.has == a.has && b.offset == a.offset
            && if !p.Content() then b == a
               else if i % 512 == 0 && m >= 64 && a.confidence > 0 then b.confidence == a.confidence - 1 && b.misses == 0
               else b.confidence == a.confidence && b.misses == m
  {
    ReceivedHistory(env, e, k, p);
    if p.Content() {
      hide NewHistory, UpdatedAlignment, PcrAligned, RunOfEight, Structured;
      NoRunWearsOff(env.cfg, BeforeSearch(env, e, k, p), NewHistory(env, e, k, p), HistoryOf(e, 1 - k), k, NewRecord(env, e, k, p));
    }
  }
}
