/** The recovery decisions: which secondary packets a primary packet matches,
    which of those bound a repairable gap, and what the engine will insert.
    A decision depends only on the engine's state, never on the sink, so it is
    a plan that the drain loop then carries out. */
module Gaps {
  import opened Packets
  import opened State

  // --------------------------------------------------------------- candidates

  const SEARCH_EXTRA: nat := 8
  const OVERSIZE_SCAN: nat := 255
  const MAX_CANDIDATES: nat := 64

  datatype Candidates = Candidates(rs: seq<Record>, truncated: bool)

  /** add_secondary_after_anchor_candidate; a record is identified by its index */
  function AddCandidate(c: Candidates, r: Record): Candidates {
    if exists i | 0 <= i < |c.rs| :: c.rs[i].index == r.index then c
    else if |c.rs| >= MAX_CANDIDATES then c.(truncated := true)
    else c.(rs := c.rs + [r])
  }

  /** Whether secondary index i is retained and is an exact copy of p. */
  predicate IsCopy(h: History, p: Packet, i: int) {
    Find(h, i).Some? && ExactMatch(p, Find(h, i).value.packet)
  }

  /** collect_secondary_after_anchor_candidates_in_range */
  function Collect(h: History, p: Packet, first: int, last: int, c: Candidates): Candidates
    decreases last - first + 1
  {
    if first > last then c
    else Collect(h, p, first + 1, last,
                 if IsCopy(h, p, first) then AddCandidate(c, h.log[first]) else c)
  }

  function Max(a: int, b: int): int { if a < b then b else a }

  /** The last index of the search beyond the anchor. */
  function AnchorSearchEnd(cfg: Config, e: Engine, p: Record): int {
    e.anchor.s + 1 + (p.index - e.anchor.p - 1) + Max(cfg.maxBurst + 1, OVERSIZE_SCAN)
  }

  predicate SearchesAnchor(e: Engine, p: Record) {
    e.anchor.valid && p.index > e.anchor.p
  }

  /** The candidates the aligned position and its neighbourhood give. */
  function AlignedCandidates(e: Engine, p: Record): Candidates {
    var c := Candidates([], false);
    if !e.align.has then c else
      var x := p.index + e.align.offset;
      var c1 := if x >= 0 && IsCopy(e.h1, p.packet, x) then AddCandidate(c, e.h1.log[x]) else c;
      if x + SEARCH_EXTRA >= 0
      then Collect(e.h1, p.packet, Max(x - SEARCH_EXTRA, 0), x + SEARCH_EXTRA, c1)
      else c1
  }

  /** find_secondary_boundary_matches */
  function FindCandidates(cfg: Config, e: Engine, p: Record): Candidates {
    if !p.packet.Content() then Candidates([], false) else
      var c := AlignedCandidates(e, p);
      if SearchesAnchor(e, p)
      then Collect(e.h1, p.packet, e.anchor.s + 1, AnchorSearchEnd(cfg, e, p), c)
      else c
  }

  /** find_aligned_secondary_record */
  function Aligned(e: Engine, p: Record): Option<Record> {
    if !e.align.has then None else Find(e.h1, p.index + e.align.offset)
  }

  /** The secondary copy the drain loop offers as the next anchor. */
  function AnchorMatch(e: Engine, p: Record, c: Candidates): Option<Record> {
    if |c.rs| == 1 && !c.truncated then Some(c.rs[0]) else Aligned(e, p)
  }

  // ------------------------------------------------------------------ verdicts

  datatype Verdict = Verdict(valid: bool, why: Rejection)

  datatype Plan =
    | Keep
    | Refuse(why: Rejection)
    | Insert(rs: seq<Record>, burst: bool)
    | Replace(r: Record)

  datatype Flaw = Flaw(kind: RejectKind, reason: Reason)

  function Invalid(kind: RejectKind, reason: Reason, missing: nat, hasMissing: bool): Verdict {
    Verdict(false, Rejection(kind, reason, missing, hasMissing))
  }

  function Approved(missing: nat): Verdict {
    Verdict(true, Rejection(MissingCandidate, NoCandidate, missing, true))
  }

  /** The guards every gap test starts with: content on both sides of a valid
      anchor. */
  predicate BeyondAnchor(e: Engine, p: Record, m: Record) {
    p.packet.Content() && e.anchor.valid && m.index > e.anchor.s && p.index > e.anchor.p
  }

  function PrimaryBetween(e: Engine, p: Record): int { p.index - e.anchor.p - 1 }

  function SecondaryBetween(e: Engine, m: Record): int { m.index - e.anchor.s - 1 }

  function Missing(e: Engine, p: Record, m: Record): int {
    SecondaryBetween(e, m) - PrimaryBetween(e, p)
  }

  predicate AnchorHeld(e: Engine) {
    AnchorPair(Find(e.h0, e.anchor.p), Find(e.h1, e.anchor.s))
  }

  predicate PairMatches(e: Engine, i: int) {
    Find(e.h0, e.anchor.p + 1 + i).Some? && Find(e.h1, e.anchor.s + 1 + i).Some? &&
    ExactMatch(Find(e.h0, e.anchor.p + 1 + i).value.packet, Find(e.h1, e.anchor.s + 1 + i).value.packet)
  }

  /** The first n packets after the anchor agree on both streams. */
  predicate PrefixMatches(e: Engine, n: int) {
    forall i | 0 <= i < n :: PairMatches(e, i)
  }

  predicate BoundsMatch(p: Record, m: Record) {
    !p.packet.isNull && !m.packet.isNull && ExactMatch(p.packet, m.packet)
  }

  function GapStart(e: Engine, p: Record): int { e.anchor.s + PrimaryBetween(e, p) + 1 }

  // ----------------------------------------------------------------- null gaps

  /** The first obstacle to reading n sound null packets from index i on. */
  function NullScan(h: History, i: nat, n: nat): Option<Flaw>
    decreases n
  {
    if n == 0 then None else
    match Find(h, i)
    case None => Some(Flaw(MissingCandidate, NoCandidate))
    case Some(r) =>
      if !r.packet.isNull then Some(Flaw(MissingCandidate, NotNullGap))
      else if r.packet.transportError then Some(Flaw(Tei, SecondaryTei))
      else if r.packet.discontinuity then Some(Flaw(Discontinuity, SecondaryDiscontinuity))
      else NullScan(h, i + 1, n - 1)
  }

  /** The scan for a null gap longer than the limit. */
  function OversizeScan(h: History, i: nat, n: nat): Flaw
    decreases n
  {
    if n == 0 then Flaw(BurstTooLarge, NullBurstTooBig) else
    match Find(h, i)
    case None => Flaw(MissingCandidate, NoCandidate)
    case Some(r) =>
      if !r.packet.isNull then Flaw(MissingCandidate, NotNullGap) else OversizeScan(h, i + 1, n - 1)
  }

  /** validate_null_position_candidate */
  function NullVerdict(cfg: Config, e: Engine, p: Record, m: Record): Verdict {
    if !BeyondAnchor(e, p, m) || Missing(e, p, m) <= 0 then Invalid(MissingCandidate, NotNullGap, 0, false) else
      var n := Missing(e, p, m);
      if n > cfg.maxBurst then
        var f := OversizeScan(e.h1, GapStart(e, p), cfg.maxBurst + 1);
        Invalid(f.kind, f.reason, n, true)
      else if e.align.confidence < cfg.minConfidence then Invalid(LowAlignment, LowConfidence, n, true)
      else if !AnchorHeld(e) then Invalid(Ambiguous, BeforeAnchor, n, true)
      else if !BoundsMatch(p, m) then Invalid(Ambiguous, AfterAnchor, n, true)
      else if !PrefixMatches(e, PrimaryBetween(e, p)) then Invalid(Ambiguous, StalePrefix, n, true)
      else match NullScan(e.h1, GapStart(e, p), n)
        case Some(f) => Invalid(f.kind, f.reason, n, true)
        case None => Approved(n)
  }

  /** What keeps the null recoverer from filling a gap of n from index i on. */
  function NullFlaw(cfg: Config, e: Engine, p: Record, m: Record, i: nat, n: nat): Option<Flaw> {
    if n > cfg.maxBurst then Some(OversizeScan(e.h1, i, cfg.maxBurst + 1))
    else if e.align.confidence < cfg.minConfidence then Some(Flaw(LowAlignment, LowConfidence))
    else if !AnchorHeld(e) then Some(Flaw(Ambiguous, BeforeAnchor))
    else if !BoundsMatch(p, m) then Some(Flaw(Ambiguous, AfterAnchor))
    else NullScan(e.h1, i, n)
  }

  /** try_recover_null_position_gap */
  function NullPlan(cfg: Config, e: Engine, p: Record, m: Record): Plan {
    if !BeyondAnchor(e, p, m) || Missing(e, p, m) <= 0 || PrimaryBetween(e, p) != 0 then Keep else
      var n := Missing(e, p, m);
      match NullFlaw(cfg, e, p, m, e.anchor.s + 1, n)
      case Some(f) => if f.reason == NotNullGap then Keep else Refuse(Rejection(f.kind, f.reason, n, true))
      case None => Insert(Span(e.h1, e.anchor.s + 1, n), false)
  }

  // ---------------------------------------------------------------- mixed gaps

  datatype Scan = Scan(flaw: Option<Flaw>, content: bool, states: Counters)

  /** Reads n packets from index i on, simulating their output. */
  function MixedScan(h: History, i: nat, n: nat, content: bool, states: Counters): Scan
    decreases n
  {
    if n == 0 then Scan(None, content, states) else
    match Find(h, i)
    case None => Scan(Some(Flaw(MissingCandidate, NoCandidate)), content, states)
    case Some(r) =>
      if r.packet.transportError then Scan(Some(Flaw(Tei, SecondaryTei)), content, states)
      else if r.packet.discontinuity then Scan(Some(Flaw(Discontinuity, SecondaryDiscontinuity)), content, states)
      else if !Fits(states, r.packet) then
        Scan(Some(Flaw(WrongCounter, CounterContradiction)), content || !r.packet.isNull, states)
      else MixedScan(h, i + 1, n - 1, content || !r.packet.isNull, Simulate(states, r.packet))
  }

  /** infer_missing_from_cc */
  function InferMissing(prev: Counter, p: Packet): Option<nat> {
    var delta := (p.cc + 16 - prev) % 16;
    if !p.hasPayload || p.isNull || delta == 0 then None else Some(delta - 1)
  }

  /** previous_output_cc_for_record */
  function PreviousCc(e: Engine, p: Packet): Option<Counter> {
    if p.isNull || p.pid !in e.outCc then None else Some(e.outCc[p.pid])
  }

  /** Some content packet among the n from index i on is on this PID. */
  predicate CarriesPid(h: History, i: nat, n: nat, pid: Pid) {
    exists k | i <= k < i + n :: Find(h, k).Some? && !Find(h, k).value.packet.isNull && Find(h, k).value.packet.pid == pid
  }

  /** Why a primary does not fit after a simulated burst of n. */
  function MisfitFlaw(e: Engine, p: Record, first: nat, n: nat): Flaw {
    var prev := PreviousCc(e, p.packet);
    if prev.Some? && InferMissing(prev.value, p.packet).Some? &&
       InferMissing(prev.value, p.packet).value <= n && !CarriesPid(e.h1, first, n, p.packet.pid)
    then Flaw(WrongPid, OtherPid)
    else Flaw(WrongCounter, AfterAnchorCounter)
  }

  /** validate_mixed_position_candidate */
  function MixedVerdict(cfg: Config, e: Engine, p: Record, m: Record): Verdict {
    if !BeyondAnchor(e, p, m) || Missing(e, p, m) <= 0 then Invalid(MissingCandidate, NotMixedGap, 0, false) else
      var n := Missing(e, p, m);
      if n > cfg.maxBurst then Invalid(BurstTooLarge, MixedBurstTooBig, n, true)
      else if e.align.confidence < cfg.minConfidence then Invalid(LowAlignment, LowConfidence, n, true)
      else if !AnchorHeld(e) then Invalid(Ambiguous, BeforeAnchor, n, true)
      else if !BoundsMatch(p, m) then Invalid(Ambiguous, AfterAnchor, n, true)
      else if !PrefixMatches(e, PrimaryBetween(e, p)) then Invalid(Ambiguous, StalePrefix, n, true)
      else
        var s := MixedScan(e.h1, GapStart(e, p), n, false, e.outCc);
        if s.flaw.Some? then Invalid(s.flaw.value.kind, s.flaw.value.reason, n, true)
        else if !s.content then Invalid(MissingCandidate, NotMixedGap, n, true)
        else if !Fits(s.states, p.packet) then
          var f := MisfitFlaw(e, p, GapStart(e, p), n);
          Invalid(f.kind, f.reason, n, true)
        else Approved(n)
  }

  /** try_recover_mixed_position_gap */
  function MixedPlan(cfg: Config, e: Engine, p: Record, m: Record): Plan {
    if !BeyondAnchor(e, p, m) || Missing(e, p, m) <= 0 then Keep else
      var n := Missing(e, p, m);
      if n > cfg.maxBurst then Refuse(Rejection(BurstTooLarge, MixedBurstTooBig, n, true))
      else if e.align.confidence < cfg.minConfidence then Refuse(Rejection(LowAlignment, LowConfidence, n, true))
      else if !AnchorHeld(e) then Refuse(Rejection(Ambiguous, BeforeAnchor, n, true))
      else if !BoundsMatch(p, m) then Refuse(Rejection(Ambiguous, AfterAnchor, n, true))
      else if !PrefixMatches(e, PrimaryBetween(e, p)) then Keep
      else
        var s := MixedScan(e.h1, GapStart(e, p), n, false, e.outCc);
        if s.flaw.Some? then Refuse(Rejection(s.flaw.value.kind, s.flaw.value.reason, n, true))
        else if !s.content then Keep
        else if !Fits(s.states, p.packet) then
          var f := MisfitFlaw(e, p, GapStart(e, p), n);
          Refuse(Rejection(f.kind, f.reason, n, true))
        else Insert(Span(e.h1, GapStart(e, p), n), n > 1)
  }

  // -------------------------------------------------------- exact counter gaps

  /** A packet that carries the wanted counter of the wanted PID. */
  predicate Carries(p: Packet, pid: Pid, cc: Counter) {
    !p.isNull && p.hasPayload && p.pid == pid && p.cc == cc
  }

  /** The retained records of [first, end) that carry the wanted counter. */
  function Hits(h: History, first: int, end: int, pid: Pid, cc: Counter): seq<Record>
    decreases end - first
  {
    if first >= end then []
    else if Find(h, first).Some? && Carries(Find(h, first).value.packet, pid, cc)
    then [h.log[first]] + Hits(h, first + 1, end, pid, cc)
    else Hits(h, first + 1, end, pid, cc)
  }

  datatype Pick = Picked(r: Record) | Flawed(flaw: Flaw)

  /** The checks on the one candidate for a missing counter. */
  function CheckCandidate(c: Option<Record>, pid: Pid, cc: Counter): Pick {
    if c.None? then Flawed(Flaw(MissingCandidate, NoCandidate))
    else if c.value.packet.isNull then Flawed(Flaw(WrongPid, NullCandidate))
    else if c.value.packet.transportError then Flawed(Flaw(Tei, SecondaryTei))
    else if c.value.packet.discontinuity then Flawed(Flaw(Discontinuity, SecondaryDiscontinuity))
    else if c.value.packet.pid != pid then Flawed(Flaw(WrongPid, OtherPid))
    else if !c.value.packet.hasPayload || c.value.packet.cc != cc then Flawed(Flaw(WrongCounter, OtherCounter))
    else Picked(c.value)
  }

  /** The packet for one missing counter; with one packet missing a fallback
      index is looked up when the search finds nothing. */
  function PickOne(h: History, first: int, end: int, pid: Pid, cc: Counter, fallback: Option<nat>): Pick {
    var hits := Hits(h, first, end, pid, cc);
    if |hits| > 1 then Flawed(Flaw(Ambiguous, MultipleCandidates))
    else if |hits| == 1 then CheckCandidate(Some(hits[0]), pid, cc)
    else CheckCandidate(if fallback.Some? then Find(h, fallback.value) else None, pid, cc)
  }

  datatype Picks = Picks(rs: seq<Record>, flaw: Option<Flaw>)

  /** The packets for counters prev+1+k .. prev+n, appended to acc. */
  function PickAll(h: History, first: int, end: int, pid: Pid, prev: Counter, k: nat, n: nat,
                   fallback: Option<nat>, acc: seq<Record>): Picks
    requires k <= n
    decreases n - k
  {
    if k == n then Picks(acc, None) else
    match PickOne(h, first, end, pid, (prev + 1 + k) % 16, fallback)
    case Flawed(f) => Picks(acc, Some(f))
    case Picked(r) => PickAll(h, first, end, pid, prev, k + 1, n, fallback, acc + [r])
  }

  /** The number of packets missing on p's PID, judged by the counters and,
      when a full turn of 16 hides the gap, by the distance to the match. */
  function CounterGap(e: Engine, p: Record, m: Record): Option<nat> {
    var prev := PreviousCc(e, p.packet);
    if prev.None? then None
    else if InferMissing(prev.value, p.packet).Some? then InferMissing(prev.value, p.packet)
    else if p.packet.hasPayload && 0 < Missing(e, p, m) <= 15 &&
            p.packet.cc == (prev.value + Missing(e, p, m) + 1) % 16
    then Some(Missing(e, p, m))
    else None
  }

  /** Where the search for missing counters starts: past the packets both
      streams share after the anchor, when they do agree. */
  function SearchStart(e: Engine, p: Record, m: Record): int {
    if PrimaryBetween(e, p) > 0 && Missing(e, p, m) > 0 && PrefixMatches(e, PrimaryBetween(e, p))
    then e.anchor.s + 1 + PrimaryBetween(e, p)
    else e.anchor.s + 1
  }

  function FallbackIndex(e: Engine, p: Record, m: Record): Option<nat>
    requires BeyondAnchor(e, p, m)
  {
    if Missing(e, p, m) != 1 then None
    else if PrimaryBetween(e, p) == 0 then Some(e.anchor.s + 1)
    else Some(m.index - 1)
  }

  function ExactPicks(e: Engine, p: Record, m: Record, prev: Counter, n: nat): Picks
    requires BeyondAnchor(e, p, m)
  {
    PickAll(e.h1, SearchStart(e, p, m), m.index, p.packet.pid, prev, 0, n, FallbackIndex(e, p, m), [])
  }

  /** Whether the picked packets, then p, fit the output one after the other. */
  function ReplayFlaw(states: Counters, rs: seq<Record>, p: Record): Option<Flaw>
    decreases |rs|
  {
    if rs == [] then (if Fits(states, p.packet) then None else Some(Flaw(WrongCounter, AfterAnchorCounter)))
    else if !Fits(states, rs[0].packet) then Some(Flaw(WrongCounter, SecondaryCounter))
    else ReplayFlaw(Simulate(states, rs[0].packet), rs[1..], p)
  }

  /** The counter gap the exact stage works on; none when p fits as it is. */
  function ExactGap(e: Engine, p: Record, m: Record): Option<nat> {
    if !BeyondAnchor(e, p, m) || Missing(e, p, m) < 0 || Fits(e.outCc, p.packet) then None
    else CounterGap(e, p, m)
  }

  /** validate_exact_content_candidate */
  function ExactVerdict(cfg: Config, e: Engine, p: Record, m: Record): Verdict {
    var g := ExactGap(e, p, m);
    if g.None? then Invalid(MissingCandidate, NotContentGap, 0, false) else
      var n := g.value;
      if n == 0 then Invalid(MissingCandidate, NotContentGap, 0, true)
      else if n > cfg.maxBurst then Invalid(BurstTooLarge, BurstTooBig, n, true)
      else if e.align.confidence < cfg.minConfidence then Invalid(LowAlignment, LowConfidence, n, true)
      else if !AnchorHeld(e) then Invalid(Ambiguous, BeforeAnchor, n, true)
      else if !BoundsMatch(p, m) then Invalid(Ambiguous, AfterAnchor, n, true)
      else
        var c := ExactPicks(e, p, m, e.outCc[p.packet.pid], n);
        if c.flaw.Some? then Invalid(c.flaw.value.kind, c.flaw.value.reason, n, true)
        else match ReplayFlaw(e.outCc, c.rs, p)
          case Some(f) => Invalid(f.kind, f.reason, n, true)
          case None => Approved(n)
  }

  /** try_recover_exact_content_gap */
  function ExactPlan(cfg: Config, e: Engine, p: Record, m: Record): Plan {
    var g := ExactGap(e, p, m);
    if g.None? || g.value == 0 then Keep else
      var n := g.value;
      if n > cfg.maxBurst then Refuse(Rejection(BurstTooLarge, BurstTooBig, n, true))
      else if e.align.confidence < cfg.minConfidence then Refuse(Rejection(LowAlignment, LowConfidence, n, true))
      else if !AnchorHeld(e) then Refuse(Rejection(Ambiguous, BeforeAnchor, n, true))
      else if !BoundsMatch(p, m) then Refuse(Rejection(Ambiguous, AfterAnchor, n, true))
      else
        var c := ExactPicks(e, p, m, e.outCc[p.packet.pid], n);
        if c.flaw.Some? then Refuse(Rejection(c.flaw.value.kind, c.flaw.value.reason, n, true))
        else match ReplayFlaw(e.outCc, c.rs, p)
          case Some(f) => Refuse(Rejection(f.kind, f.reason, n, true))
          case None => Insert(c.rs, n > 1)
  }

  // ----------------------------------------------------- one stage, all stages

  datatype Stage = NullStage | MixedStage | ExactStage

  function StageVerdict(cfg: Config, e: Engine, stage: Stage, p: Record, m: Record): Verdict {
    match stage
    case NullStage => NullVerdict(cfg, e, p, m)
    case MixedStage => MixedVerdict(cfg, e, p, m)
    case ExactStage => ExactVerdict(cfg, e, p, m)
  }

  function StageRecovery(cfg: Config, e: Engine, stage: Stage, p: Record, m: Record): Plan {
    match stage
    case NullStage => NullPlan(cfg, e, p, m)
    case MixedStage => MixedPlan(cfg, e, p, m)
    case ExactStage => ExactPlan(cfg, e, p, m)
  }

  /** validation_reject_is_definitive */
  predicate Definitive(kind: RejectKind) {
    kind == WrongCounter || kind == Tei || kind == Discontinuity || kind == BurstTooLarge || kind == LowAlignment
  }

  /** The loop state of try_unique_candidate_recovery. */
  datatype Vote = Vote(winner: Option<Record>, best: Rejection, conflict: Option<Rejection>)

  const NoVote: Vote := Vote(None, Rejection(MissingCandidate, NoCandidate, 0, false), None)

  function CastVote(v: Vote, m: Record, verdict: Verdict): Vote {
    if verdict.valid then
      if v.winner.None? then v.(winner := Some(m)) else v.(conflict := Some(verdict.why))
    else if (verdict.why.hasMissing && !v.best.hasMissing) || verdict.why.kind != MissingCandidate
    then v.(best := verdict.why)
    else v
  }

  /** Judges the candidates in order and stops at the second valid one. */
  function Poll(cfg: Config, e: Engine, stage: Stage, p: Record, ms: seq<Record>, v: Vote): Vote
    decreases |ms|
  {
    if ms == [] || v.conflict.Some? then v
    else Poll(cfg, e, stage, p, ms[1..], CastVote(v, ms[0], StageVerdict(cfg, e, stage, p, ms[0])))
  }

  /** try_unique_candidate_recovery */
  function StagePlan(cfg: Config, e: Engine, stage: Stage, p: Record, c: Candidates): Plan {
    if c.truncated then Refuse(Rejection(Ambiguous, TooMany, 0, false)) else
      var v := Poll(cfg, e, stage, p, c.rs, NoVote);
      if v.conflict.Some? then Refuse(Rejection(Ambiguous, MultipleValid, v.conflict.value.missing, v.conflict.value.hasMissing))
      else if v.winner.Some? then StageRecovery(cfg, e, stage, p, v.winner.value)
      else if c.rs != [] && (stage == ExactStage || Definitive(v.best.kind)) then Refuse(v.best)
      else Keep
  }

  /** try_recover_primary_tei_packet, for a primary flagged damaged.  The
      anchor's indexes are used whether or not the anchor is valid. */
  function TeiPlan(cfg: Config, e: Engine, p: Record): Plan {
    if p.packet.isNull || !p.packet.hasPayload || p.packet.discontinuity then
      Refuse(if p.packet.discontinuity then Rejection(Discontinuity, PrimaryDiscontinuity, 0, true)
             else Rejection(WrongPid, PrimaryNotContent, 0, true))
    else if e.align.confidence < cfg.minConfidence then Refuse(Rejection(LowAlignment, LowConfidence, 0, true))
    else if !AnchorHeld(e) then Refuse(Rejection(Ambiguous, BeforeAnchor, 0, true))
    else
      var c := Aligned(e, p);
      if c.None? then Refuse(Rejection(MissingCandidate, NoCandidate, 0, true))
      else if c.value.packet.transportError then Refuse(Rejection(Tei, SecondaryTei, 0, true))
      else if c.value.packet.discontinuity then Refuse(Rejection(Discontinuity, SecondaryDiscontinuity, 0, true))
      else if c.value.packet.isNull || !c.value.packet.hasPayload || c.value.packet.pid != p.packet.pid then
        Refuse(Rejection(WrongPid, OtherPid, 0, true))
      else if c.value.packet.cc != p.packet.cc then Refuse(Rejection(WrongCounter, OtherCounter, 0, true))
      else if !AnchorPair(Find(e.h0, p.index + 1), Find(e.h1, c.value.index + 1)) then
        Refuse(Rejection(Ambiguous, NoAfterAnchor, 0, true))
      else if !Fits(e.outCc, c.value.packet) then Refuse(Rejection(WrongCounter, SecondaryCounter, 0, true))
      else Replace(c.value)
  }

  /** The reject recorded for a primary that does not fit and that no stage
      decided about. */
  function LastResort(cfg: Config, e: Engine, p: Record, c: Candidates): Rejection {
    var prev := PreviousCc(e, p.packet);
    var gap := if prev.Some? then InferMissing(prev.value, p.packet) else None;
    var missing := if gap.Some? then gap.value else 0;
    if e.align.confidence < cfg.minConfidence then Rejection(LowAlignment, LowConfidence, missing, gap.Some?)
    else if e.anchor.valid && c.rs == [] then Rejection(Ambiguous, NoAfterAnchor, missing, gap.Some?)
    else if c.truncated then Rejection(Ambiguous, TooMany, missing, gap.Some?)
    else Rejection(MissingCandidate, NoAnchorOrCandidate, missing, gap.Some?)
  }

  /** What the stages decide, in the order the drain loop tries them. */
  function StagedPlan(cfg: Config, e: Engine, p: Record, c: Candidates): Plan {
    if !e.anchor.valid || c.rs == [] then Keep else
      var a := StagePlan(cfg, e, NullStage, p, c);
      if a != Keep then a else
        var b := StagePlan(cfg, e, MixedStage, p, c);
        if b != Keep then b
        else if Fits(e.outCc, p.packet) then Keep
        else StagePlan(cfg, e, ExactStage, p, c)
  }

  /** The whole decision about the primary at the head of the queue. */
  function PrimaryPlan(cfg: Config, e: Engine, p: Record): Plan {
    if p.packet.transportError then TeiPlan(cfg, e, p) else
      var c := FindCandidates(cfg, e, p);
      var s := StagedPlan(cfg, e, p, c);
      if s != Keep then s
      else if Fits(e.outCc, p.packet) then Keep
      else Refuse(LastResort(cfg, e, p, c))
  }
}
