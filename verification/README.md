# Two-stream recovery: a verified model

The program receives the same MPEG transport stream over two paths, delays
stream #1 (the primary), and sends it on. Where the primary lost packets it
inserts the copies that stream #2 (the secondary) delivered, and while the
primary is silent it sends the secondary instead. It promises to preserve
stream #1 whenever it appears valid, to insert only what is unambiguous, and to
report what it cannot repair.

The project models the recovery engine (`src/recovery_engine.c`) in full, and
around it the datagram framing and resynchronisation (`src/main.c`), the
seven-packet output batcher (`src/output_udp.c`) and the rolling health verdicts
(`src/report_stats.c`). It proves what those promises amount to, over every run
of calls, every clock and every failing sink.

## How it is built

- **The specification.** `Packets`, `State`, `Gaps`, `Receive` and `Drain` define
  the engine as functions on a value: continuity rules, candidate search, the
  three gap validators and recoverers, TEI replacement, alignment, delay queues,
  fail-over and return, the drain, and runs of calls. The clock and the sink are
  parameters: `env.clock(k)` is the k-th clock reading of the engine and
  `env.sinkOk(k)` whether its k-th send succeeds, so time may pass inside a
  drain and any send may fail. A history keeps everything received together with
  the first index still retained. TEI replacement looks the anchor up by its
  indexes, 0 and 0 before the first anchor is found, as the source does.
- **The implementation.** `Buffers` and `RecoveryEngine.dfy` (module
  `Implementation`) hold the objects that update ring buffers and fields in
  place, with the loops of the source. Every method is proved to reach the state
  of the specification, so all theorems about `Run` are theorems about the
  object (`Implementation.Replayed`).
- **The protocol.** `Protocol` gives thirteen kinds of move with the condition
  under which each is legal; `Refinement` proves every call to be a path of legal
  moves; `Invariants` proves what each move keeps; `DrainShape` takes the drain
  apart into its turns; `Theorems`, `Handover`, `Discards`, `Dwell` and
  `DelayPromise` draw the conclusions for drains and runs.
- **The rules.** `GapRules`, `CounterRules`, `Reporting`, `Refusals`,
  `AlignmentFacts`, `Anchors`, `Retention` and `DrainOutput` say the same things
  once more on the records and fields alone: exactly which gaps are filled, which
  damaged packets replaced, which losses reported and for what, when the streams
  align, what the histories keep and what a drain sends. The specification is
  proved to follow these rules in both directions.
- **The purpose.** `Sources`, `SecondaryLoss`, `GapRepair`, `CounterGaps` and
  `SecondaryDiagnosis` relate both inputs to a common source with losses and say
  what reaches the output and what the counters show.

## Where the code does less than promised

- **Return dwell.** The hold-off is meant to start anew with each fail-over. A
  drain that returns to the primary and fails over again before it ends bounces:
  it keeps the old start, so the next drain may return at once. The dwell lies
  after the last fail-over if and only if none of its drains bounces
  (`Dwell.DwellSinceFailoverIff`). A forced drain with a working sink bounces if
  and only if the hold-off has elapsed at its first clock reading, it has n > 0
  primaries to send, the primary is silent n + 1 readings later and the
  secondary then has news (`Dwell.ForcedBounceIff`); `Dwell.SourceChangesIff`
  gives the condition for every drain, sink and clock. While no drain outlasts
  the outage the promise holds in full (`Dwell.ReturnDwellsAfterFailover`), and
  `BounceExample.ReturnWithoutDwell` is a run in which it fails.
- **Hand-over.** Trimming the primary queue stops at the first packet that need
  not go, and a packet the alignment maps before the secondary's first index
  never goes. With a working sink, a drain repeats what the secondary sent if
  and only if it turns to the primary, the trimmed queue straddles that first
  index, and all packets up to the crossing are due (`Handover.DrainUnseenIff`);
  `OverlapExample.HandoverOverlaps` is a run that sends a packet twice.
- **Reporting.** What cannot be repaired is meant to be reported. Before a primary
  that fits, a loss passes without a word if and only if it is within the limit
  and the confidence suffices, and the streams differ at or since the anchor, or
  the gap is of nulls alone and does not follow the anchor directly
  (`Reporting.FittingIsSilentIff`); `SilenceExample.N2IsLostInSilence` is such a
  loss.
- **Discarding primaries.** The last secondary index sent is also set by
  recoveries, while the offset may be older than the loss that was repaired. The
  next primary is then taken for already sent. It is discarded, without a
  reject, if and only if the drain turns to the primary and the offset maps the
  packet at or before that index (`Discards.HeadIsDiscardedIff`); if the
  secondary has not delivered the packet, that is exactly when its contents are
  lost (`Discards.HeadIsLostIff`). `DiscardExample.PrimaryPacketLost` is a run
  that ends with the packet unsent right after repairing a gap. Where the
  secondary does deliver the packet, a later recovery may still send it:
  `ComebackExample.DiscardedPacketComesBack` continues that run so.
- **Secondary loss counters.** Neither is ever too high. The missing packets are
  counted exactly if and only if no gap of a PID is longer than fourteen, the
  loss events if and only if no gap is a multiple of sixteen packets or one
  short of it (`SecondaryDiagnosis.DiagnosisIsExactIff`).
- **Default outage.** `README.md:164-166` of the program says 500 ms;
  `src/recovery_engine.h:21` has 50 ms. The model takes any value.

## Model

| member | source | states |
|---|---|---|
| Theorems.Conservation | src/recovery_engine.c:2175-2396 | over every run, sink failures included: each primary received is queued or was emitted, replaced, overflowed or discarded, exactly once; output = primaries + recoveries + fail-over packets; recovered = content + null; datagrams = output / 7; primaries leave at most once, in stream order |
| Theorems.NoSilentBreak | src/recovery_engine.c:2290-2383 | over every run, output continuity errors and duplicates never exceed rejects recorded + nulls inserted + packets sent in fail-over |
| OutputCounters.OutputIsCounted | src/recovery_engine.c:424-453 | over every run, the output continuity errors and duplicates counted are exactly those a receiver finds between each packet and the last one of its PID |
| Theorems.RunOnlyAdds | src/recovery_engine.c:2175-2396 | from any point of a run to its end nothing received, sent, counted or decided is revised, an alignment is never lost, and the anchor moves only to a later primary |
| Theorems.AnchorIsTrue | src/recovery_engine.c:2100-2111 | in every reachable state a valid anchor never runs ahead of the last primary output, and it is a non-null exact pair if and only if both records are still retained |
| Theorems.BeforeAnchorMeansEvicted | src/recovery_engine.c:2257-2380 | with a valid anchor in a state that satisfies the invariants, the decision about a primary, damaged or not, is a reject for "before_anchor" only if one of the two records has left its history |
| Theorems.AlignmentIsWitnessed | src/recovery_engine.c:729-777 | in every reachable state an alignment rests on eight consecutive informative copies at its offset or on a matching pair with a PCR; confidence is at most 100, and zero without an alignment |
| Theorems.NullsNeverAlign | src/recovery_engine.c:637-687 | without a PCR on the primary, an alignment implies eight informative primaries in a row: nulls and damaged packets never create one |
| Theorems.SwitchesTellTheSource | src/recovery_engine.c:473-483 | over every run, switches to the secondary = switches to the primary + active stream id |
| Theorems.DatagramsAgree | src/recovery_engine.c:455-471 | over every run with the batcher as its sink, whenever the network fails, the datagrams the engine counts are as many as the batcher has sent |
| Theorems.OutputIsAccepted | src/recovery_engine.c:455-471 | over every run, the output is as long as the number of sends the sink accepted |
| Refinement.RunIsAPath | src/recovery_engine.c:2234-2396 | every run is a sequence of legal protocol moves from the initial state |
| Refinement.RunKeepsInv | src/recovery_engine.c:2175-2396 | every reachable state satisfies all invariants: queues are the rest of their streams, balanced books, sourced output, true anchor, accounted damage, witnessed alignment |
| Refinement.DrainKeepsInputs | src/recovery_engine.c:2234-2274 | a drain changes neither histories, alignment nor input counters, and it touches the return hold-off only at its start |
| Invariants.MoveKeepsInv | src/recovery_engine.c:424-483 | each single move keeps every invariant and revises nothing |
| Invariants.ReceivedHistory | src/recovery_engine.c:2185-2208 | after a push the history is the old one plus the new record, which neither eviction nor pruning by time ever removes |
| Invariants.ConfirmedIsWitness | src/recovery_engine.c:637-687 | a confirmed match gives an offset at which eight consecutive index pairs are informative copies |
| Invariants.PcrAlignmentSound | src/recovery_engine.c:576-635 | an alignment taken from a PCR match rests on an exact pair in which both packets carry a PCR |
| AlignmentFacts.ReceivedRunAligns | src/recovery_engine.c:729-777 | if a received content packet and the seven before it are, pair by pair, eight consecutive packets of the other stream ending within eight places of the aligned or the same index, or within the wide search on every 512th packet, the alignment has confidence 100, no misses and the offset of such a run |
| AlignmentFacts.ReceivedMissWearsOff | src/recovery_engine.c:729-777 | without such a run a content packet counts one miss, and on every 512th packet 64 misses cost one point of confidence; nothing else changes, and packets without content change nothing |
| AlignmentFacts.PcrAligns | src/recovery_engine.c:554-635 | a sound packet with a PCR aligns the streams if the latest sound packet with that PID and PCR on the other stream is an exact copy of it, and only then |
| AlignmentFacts.RadiusCovers | src/recovery_engine.c:502-513 | the wide search covers 2048 places and the configured window at 14 packets a millisecond, unless the history is smaller, and never more than it |
| Retention.FreshIsFound | src/recovery_engine.c:157-209 | over every run with a clock that does not go back, a record among the last `capacity` and not older than the history time is found by its index |
| Retention.OldIsGone | src/recovery_engine.c:172-183 | once a packet is received, the oldest record kept is not older than the history time |
| Retention.QueueTakes | src/recovery_engine.c:2216-2229 | a received primary joins the delay queue; the oldest is dropped and counted only when `capacity` packets wait |
| SecondaryLoss.SecondaryLossIsHarmless | src/recovery_engine.c:2234-2396 | if the primary delivers a clean source in full and is never silent beyond the outage, then for any secondary losses and any interleaving, output followed by the queue is what the primary received, with no recovery, reject or fail-over packet |
| SecondaryLoss.OutageOffIsAlive | src/recovery_engine.c:779-792 | with the outage set to zero the primary is never silent, so the result above holds of every run |
| Sources.NothingMissingIsKept | src/recovery_engine.c:1476-1479 | a primary that fits and that nothing is missing before is passed on without a decision, whatever the secondary lost |
| GapRepair.DrainRepairs | src/recovery_engine.c:2257-2390 | one drain that discards nothing, over inputs that lost parts of one clean source: if each queued loss is within the limit, ends before content, lies behind the last content packet and nulls both streams share, and is held by the secondary, the output is the source without a hole up to the last primary sent, exactly the lost packets are recovered and nothing is rejected; a forced drain empties the queue |
| GapRepair.RunRepairs | src/recovery_engine.c:2175-2396 | the same over any number of further calls, while each loss stays covered and no drain begins with a discard |
| GapRules.SoundGapIsFilled | src/recovery_engine.c:1718-1896 | a gap whose packets are retained, sound and fit, behind any number of packets both streams share after the anchor and before the only copy of the primary, within the limit and with enough confidence, is filled with exactly its packets, unless it is of nulls alone behind packets shared |
| GapRules.NullApprovedIff | src/recovery_engine.c:1453-1573 | the null validator approves an offered gap if and only if, on the records, it is allowed, lies between a pair at the anchor and packets shared, and is retained, all null and sound |
| GapRules.MixedApprovedIff | src/recovery_engine.c:1575-1716 | the mixed validator approves an offered gap if and only if, on the records, it is allowed, so bounded, retained, sound, not all null, and it and then the primary fit |
| GapRules.SoleCopyIsCandidate | src/recovery_engine.c:910-961 | the only retained copy within reach (eight around the aligned index, or beyond the anchor up to 255 or limit + 1 more than the primary has) is the only candidate |
| CounterRules.ExactApprovedIff | src/recovery_engine.c:963-1142 | the exact validator approves if and only if, on the records, the counters miss 1 to 15 packets within the limit, the anchor and the match are pairs, and each missing counter is carried once and undamaged where it is looked for |
| CounterRules.CounterGapIsFilled | src/recovery_engine.c:1144-1351 | such a gap is filled with these packets, in the order of their counters, wherever the positions do not decide |
| CounterRules.CounterGapIsRefused | src/recovery_engine.c:963-1060 | before it looks for packets the exact validator objects to a gap beyond the limit, to low confidence and to an anchor that is no pair, with the number missing |
| CounterRules.FlawedGapIsRefused | src/recovery_engine.c:1062-1142 | else its verdict is the flaw of the first counter that is not carried once and undamaged |
| CounterRules.TwoCarriersAreAmbiguous | src/recovery_engine.c:1262-1318 | a counter carried twice in the searched interval is ambiguous |
| CounterRules.NoCarrierIsRefused | src/recovery_engine.c:1262-1318 | a counter carried nowhere is refused, for what stands at the fallback index if anything does |
| CounterRules.DamagedIsReplacedIff | src/recovery_engine.c:1353-1451 | a damaged primary is replaced, by the aligned copy, if and only if it is a payload packet, that copy is undamaged, of its PID and counter and fits, confidence suffices, and pairs stand at the anchor and directly after; otherwise it is refused |
| CounterRules.DamagedIsRefusedFor | src/recovery_engine.c:1353-1451 | what a damaged primary is refused for, in the order it is looked at |
| CounterRules.DamagedIsRepaired | src/recovery_engine.c:2291-2302 | a replaceable damaged primary leaves the queue, its copy is sent once and counted, and nothing is rejected |
| Reporting.FittingIsSilentIff | src/recovery_engine.c:2028-2098 | a primary that fits and has one copy within reach passes in silence if and only if nothing is missing before it, or the loss is allowed and the streams differ at or since the anchor, or it is of nulls behind packets shared |
| Reporting.LongGapIsReported | src/recovery_engine.c:2088-2095 | a loss longer than the limit is always rejected as such with its size; only a run of nulls is told apart |
| Reporting.DoubtfulGapIsReported | src/recovery_engine.c:2088-2095 | a loss within the limit met with too little confidence is rejected for that, with its size |
| Reporting.WrongGapIsReported | src/recovery_engine.c:1541-1716 | a gap with a damaged or discontinuous packet, or one out of turn, behind a part that reads well is rejected for that packet, with the size of the gap |
| Reporting.MisfitIsReported | src/recovery_engine.c:1680-1716 | a primary that fits before the gap but not after it is rejected for its counter |
| Reporting.OtherPidIsLeft | src/recovery_engine.c:1680-1716 | a primary that does not fit, before a gap without packets of its PID that is long enough for its counters, is left to the exact stage |
| Refusals.ManyCopiesAreReported | src/recovery_engine.c:2045-2055 | more than 64 copies within reach are rejected as ambiguous |
| Refusals.LastObjectionCounts | src/recovery_engine.c:2056-2098 | of several candidates of which none is approved, the last objection other than "nothing there" is reported, by the exact stage always, by the others if it is of a reported kind |
| Refusals.UnboundedIsReported | src/recovery_engine.c:2344-2380 | a content primary that does not fit, without an anchor or without a copy within reach, is rejected for low confidence, the missing copy or the missing anchor, with the number its counters miss |
| Refusals.RefusedGapAdds | src/recovery_engine.c:102-137 | a rejected gap of n packets before a content primary adds one reject of its kind and n to the unrecoverable loss, nothing if it is of nulls |
| Refusals.FilledGapAdds | src/recovery_engine.c:1788-1895 | a filled gap adds its packets to the recoveries, one burst if it is one, and no reject or loss |
| SilenceExample.N2IsLostInSilence | src/recovery_engine.c:1927 | a state in which the second of two nulls is lost on the primary and the next primary passes in silence |
| Anchors.AnchorFollows | src/recovery_engine.c:2381-2383 | after a primary is sent the anchor is the primary and its only copy within reach, else the primary and its aligned copy, else what it was |
| GapFacts.CandidatesAreExact | src/recovery_engine.c:910-961 | the candidates are exactly the retained exact copies in the two search windows, each once; the list is cut short if and only if a copy was left out |
| GapFacts.CollectIsExact | src/recovery_engine.c:689-727 | collecting over a range keeps the list proper, adds every copy of the range and nothing else, and truncates only when a copy does not fit |
| GapFacts.NullScanPasses | src/recovery_engine.c:1541-1573 | the null scan passes if and only if the gap is retained, all null and undamaged |
| GapFacts.MixedScanPasses | src/recovery_engine.c:1651-1716 | the simulated scan passes if and only if the gap is retained, undamaged and fits the output in turn; it then ends in the state the real output reaches |
| Decisions.RecovererAgrees | src/recovery_engine.c:1898-2019 | each recoverer inserts if and only if its validator approves (for nulls: and no primary lies between anchor and match), and it never replaces |
| Decisions.InsertsExactlyWhenUnambiguous | src/recovery_engine.c:2037-2098 | a stage inserts if and only if the list is complete and exactly one candidate is approved (for nulls: and no primary lies between), then with that candidate's gap; with two approved it refuses as ambiguous |
| Decisions.GapSizeIsForced | src/recovery_engine.c:1182-1195 | the exact stage's gap size is the only n in 1..15 that explains the primary's counter, also when a whole turn of 16 hides it |
| Decisions.PickIsSoleCarrier | src/recovery_engine.c:1262-1318 | a packet accepted for a missing counter is the only one of the searched interval with that PID and counter; the fallback lookup can never be accepted |
| Decisions.ExactRecoveryFillsTheCounters | src/recovery_engine.c:1144-1351 | exact recovery inserts as many packets as the counters call for, with the missing counters in order, strictly between anchor and match, distinct, each the sole carrier, and they and then the primary fit |
| Decisions.MixedRecoveryIsASplice | src/recovery_engine.c:1788-1895 | anchor, shared prefix, inserted burst and primary reproduce the secondary run from anchor to match, packet by packet |
| Decisions.DecisionIsSafe | src/recovery_engine.c:1353-1451 | a primary kept in silence fits; inserted packets were delivered by the secondary, are sound, fit in turn and, unless all null, make the primary fit; a TEI replacement is sound content with the primary's PID and counter, and fits |
| Packets.FitsIffUncounted | src/recovery_engine.c:302-325 | the fit test passes if and only if the packet is null, or sound and counted neither as continuity error nor as duplicate |
| Handover.FailoverSendsNews | src/recovery_engine.c:806-829 | every packet a drain sends in fail-over has, when the drain ends, an index past the anchor's and past the aligned image of the last primary output |
| Handover.SecondaryTrimIsExact | src/recovery_engine.c:794-829 | trimming takes from the head of the secondary queue exactly the packets at or before the anchor or the aligned image of the last primary output |
| DrainOutput.DrainSends | src/recovery_engine.c:2234-2396 | with a working sink, exactly what any drain sends: the secondary's news while it stands in and may not return, nothing while a return is due without a primary, the news if the primary has been quiet too long, or the turns on the primary and then one look at the outage; forced, all the news, else the head once it has waited |
| DrainOutput.SilentIsQuiet | src/recovery_engine.c:779-792 | the primary counts as silent if and only if the outage is on, both streams have been heard of and the primary has been quiet for at least the outage |
| Handover.FailoverInOrder | src/recovery_engine.c:857-888 | over every run, fail-over packets leave in strictly increasing stream order |
| Handover.TrimIsCompleteIff | src/recovery_engine.c:844-855 | once its head need not go, the queue holds a packet the secondary already sent if and only if it straddles the secondary's first index |
| Handover.DrainSendsUnseen | src/recovery_engine.c:2248-2255 | unless the trimmed queue straddles the secondary's first index, every primary sent in a drain maps past the last secondary index sent when the drain began, or to no index |
| Handover.DrainUnseenIff | src/recovery_engine.c:2234-2279 | with a working sink, in every reachable state and forced or not, a drain repeats nothing the secondary sent unless it turns to the primary, the trimmed queue straddles the secondary's first index and all packets up to the crossing are due; then it does |
| OverlapExample.HandoverOverlaps | src/recovery_engine.c:831-855 | a run of five calls in which the last packet sent is X, from the secondary, and the last drain sends X again as a primary |
| Dwell.SourceChangesIff | src/recovery_engine.c:857-908 | for every state, clock and sink: a drain returns to the primary exactly when the hold-off has elapsed and the trimmed queue is not empty; it fails over exactly when it looks at the outage with the primary queue empty, finds the primary silent and a due packet of the secondary that is news; the active source afterwards follows |
| Dwell.FailoverNeedsSilence | src/recovery_engine.c:779-792 | every drain that fails over does so with the primary queue empty and the primary silent for the outage at one of its clock readings; one begun on the secondary heard the primary at its first reading and found it silent at a later one |
| DrainShape.LoopNeverReturns | src/recovery_engine.c:2257-2274 | the drain loop equals its turns on the primary followed, if they empty the queue, by one look at the outage: its return test is dead |
| Dwell.HoldoffMeaning | src/recovery_engine.c:890-908 | while the primary is heard, the hold-off counts from the first reading of a drain since which every drain, begun on the secondary, heard it |
| Dwell.ReturnNeedsDwell | src/recovery_engine.c:890-908 | a drain returns to the primary, wherever it ends, only after drains spanning the return time all heard the primary, forced or not |
| Dwell.ReturnHappens | src/recovery_engine.c:890-908 | once every drain for the return time has heard the primary, the drain returns to it if it has a primary to send |
| Dwell.DwellSinceFailoverIff | src/recovery_engine.c:890-908 | such a dwell contains no fail-over if and only if none of its drains meets the condition for a bounce |
| Dwell.ReturnDwellsAfterFailover | src/recovery_engine.c:890-908 | if no drain that hears the primary at its first clock reading finds it silent at a later one, every return follows the return time without fail-over |
| Dwell.ForcedBounceIff | src/recovery_engine.c:2392-2394 | with a working sink, a forced drain begun on the secondary bounces if and only if the hold-off has elapsed at its first reading, n > 0 primaries are left to send, the primary is silent at reading n + 1 after the first, and the secondary then has news |
| DelayPromise.DrainWaits | src/recovery_engine.c:2275-2278 | outside of a forced drain, every primary and fail-over packet sent has waited the delay at a clock reading of that drain |
| DelayPromise.DrainLeavesNoneWaiting | src/recovery_engine.c:2275-2278 | a successful drain on the primary leaves at the head of the queue only a packet that has not waited yet at its last clock reading |
| BounceExample.ReturnWithoutDwell | src/recovery_engine.c:2234-2274 | a run with a monotone clock in which a drain bounces and the next returns although every dwell lies before that |
| Discards.HeadIsDiscardedIff | src/recovery_engine.c:831-855 | in every reachable state, a drain discards the head of the queue if and only if it turns to the primary and the alignment maps the head at or before the last secondary packet sent |
| Discards.HeadIsLostIff | src/recovery_engine.c:844-855 | whatever the sink does, forced or not, a drain takes a content primary that the secondary has not delivered off the queue, its contents unsent when the drain ends, if and only if that test holds |
| Discards.SentIffEmitted | src/recovery_engine.c:844-855 | in every reachable state, a content primary that the secondary has not delivered has been sent if and only if its fate is to have been emitted |
| ComebackExample.DiscardedPacketComesBack | src/recovery_engine.c:1144-1351 | the run that discards a primary, continued: the secondary delivers the packet, exact recovery sends it, and the output is the whole source in order |
| DiscardExample.PrimaryPacketLost | src/recovery_engine.c:462-465 | a run in which, after a repaired gap, a primary packet is discarded unsent and no reject is recorded |
| CounterGaps.CountingIsExactIff | src/recovery_engine.c:349-404 | for a payload stream with any losses, neither the missing count nor the events exceed the losses and the gaps between survivors; the missing count is exact if and only if no gap exceeds fourteen, the events if and only if no gap is a multiple of sixteen or one short of it |
| CounterGaps.LostBetweenIsClosed | src/recovery_engine.c:366-404 | the losses counted are exactly the lost packets that have an arrival of their PID before and after |
| SecondaryDiagnosis.DiagnosisIsExactIff | src/recovery_engine.c:366-404 | over every run, the same of secondary_missing_packets and secondary_loss_events, both directions |
| SecondaryDiagnosis.CleanRunCountsNothing | src/recovery_engine.c:366-404 | over every run in which the secondary delivers a clean stream, packets without payload included, no loss is counted |
| CounterGaps.OutOfTurnWithoutPayload | src/recovery_engine.c:366-404 | a packet without payload whose counter is not the one before counts one event and one missing packet |
| Buffers.PacketHistory.Push | src/recovery_engine.c:157-170 | the ring holds the retained tail with the record appended, the oldest dropped when full |
| Buffers.PacketHistory.PruneOlderThan | src/recovery_engine.c:172-183 | the ring holds the tail without the leading records older than the cutoff |
| Buffers.PacketHistory.FindIndex | src/recovery_engine.c:185-209 | the constant-time lookup returns the record of that stream index if it is retained, and nothing otherwise |
| Buffers.PacketHistory.FindPcrMatch | src/recovery_engine.c:554-574 | the scan of the ring finds the latest sound record with the same PID and PCR |
| Buffers.FindIsLinearSearch | src/recovery_engine.c:185-209 | that lookup equals a linear search of the retained records |
| Buffers.DelayQueue.Push | src/recovery_engine.c:247-259 | appends to the FIFO, and fails if and only if it is full, changing nothing |
| Buffers.DelayQueue.Pop | src/recovery_engine.c:238-245 | removes the front of the FIFO, if there is one |
| Implementation.RecoveryEngine.SendRecord | src/recovery_engine.c:455-471 | the new state is that of the specification: last output index, per-PID state, continuity counters and datagram count change only if the sink accepts |
| Implementation.RecoveryEngine.Refuse | src/recovery_engine.c:102-137 | one reject of the kind is recorded, and the unrecoverable loss grows as specified |
| Implementation.RecoveryEngine.FindMatches | src/recovery_engine.c:910-961 | the loops compute the specified candidate list |
| Implementation.RecoveryEngine.ValidateNull | src/recovery_engine.c:1453-1573 | the loops compute the specified null verdict |
| Implementation.RecoveryEngine.ValidateMixed | src/recovery_engine.c:1575-1716 | the simulation on a copied state computes the specified mixed verdict |
| Implementation.RecoveryEngine.ValidateExact | src/recovery_engine.c:963-1142 | the searches and the replay compute the specified exact verdict |
| Implementation.RecoveryEngine.RecoverNull | src/recovery_engine.c:1898-2019 | decision and new state are those of carrying out the specified null plan |
| Implementation.RecoveryEngine.RecoverMixed | src/recovery_engine.c:1718-1896 | decision and new state are those of carrying out the specified mixed plan |
| Implementation.RecoveryEngine.RecoverExact | src/recovery_engine.c:1144-1351 | decision and new state are those of carrying out the specified exact plan |
| Implementation.RecoveryEngine.RecoverTei | src/recovery_engine.c:1353-1451 | decision and new state are those of carrying out the specified replacement plan |
| Implementation.RecoveryEngine.TryUnique | src/recovery_engine.c:2037-2098 | judging the candidates one by one carries out the specified plan of the stage |
| Implementation.RecoveryEngine.TrimSecondary | src/recovery_engine.c:806-829 | the secondary queue loses exactly its head packets up to the cutoff |
| Implementation.RecoveryEngine.TrimPrimary | src/recovery_engine.c:844-855 | the primary queue loses exactly its head packets that the test calls already output, each with that fate |
| Implementation.RecoveryEngine.DrainSecondary | src/recovery_engine.c:857-888 | the fail-over drain of the specification, with every clock reading and send in its place |
| Implementation.RecoveryEngine.HoldoffElapsed | src/recovery_engine.c:890-908 | the hold-off start and the result are the specified ones |
| Implementation.RecoveryEngine.UpdateAlignment | src/recovery_engine.c:729-777 | the searches and the decay give the specified alignment |
| Implementation.RecoveryEngine.Drain | src/recovery_engine.c:2234-2396 | the whole drain reaches the state and result of the specification |
| Implementation.RecoveryEngine.PushPacket | src/recovery_engine.c:2175-2232 | a wrong stream id fails and changes nothing; otherwise receive, then drain, as specified |
| Implementation.RecoveryEngine.constructor | src/recovery_engine.c:2135-2173 | a new engine is in the initial state |
| Implementation.Replayed | src/recovery_engine.c:2175-2396 | any run of calls on a new engine object ends in the state of the specified run, so the theorems about runs hold of the object |
| Framing.HasSyncRun | src/main.c:28-40 | true if and only if four sync bytes lie a packet apart |
| Framing.RunFits | src/main.c:28-55 | where such a run starts, a whole packet fits in the datagram |
| Framing.FindResync | src/main.c:42-55 | the first later offset that starts such a run, if there is one |
| Framing.ProcessDatagram | src/main.c:57-93 | terminates; pushes whole, parsing, disjoint packets in order, all of them unless a push fails, in which case it stops there; counts misfits, resynchronisations and a partial rest exactly, the unsigned wrap of the loop being undone |
| Framing.FramesAreDisjoint | src/main.c:57-93 | the packets the loop pushes lie in the datagram, start with the sync byte, do not overlap and come in order |
| Framing.FramingRoundTrip | src/main.c:57-93 | a datagram of whole packets yields exactly those packets and no partial rest |
| Framing.ResyncFindsThePackets | src/main.c:42-55 | leading bytes that do not parse and hold no sync run, followed by four or more packets: exactly those packets are pushed |
| Framing.NoRunStepsOver | src/main.c:57-93 | with no sync run behind it, a slot that does not parse is stepped over by one packet length |
| Framing.DamagedSlotIsSkipped | src/main.c:57-93 | a damaged slot near the end of a datagram costs that slot alone: the whole packets before and after it are pushed |
| OutputUdp.Output.SendTsPacket | src/output_udp.c:110-124 | the packet bytes join the buffer; the seventh packet sends the datagram; a full buffer refuses |
| OutputUdp.Output.Flush | src/output_udp.c:87-108 | a full batch is sent, a short one is dropped, a failed send keeps the batch |
| OutputUdp.BatchingIsFaithful | src/output_udp.c:87-124 | while sends succeed, datagrams sent followed by packets pending are the packets accepted; every datagram is seven packets; there is one for every seven |
| OutputUdp.FlushDropsTheRest | src/output_udp.c:87-108 | every accept of such a stream succeeds, and the final flush drops at most six packets and sends no short datagram |
| OutputUdp.FailedSendSticks | src/output_udp.c:87-124 | after a failed send every later packet is refused until a flush succeeds, which then sends what the failed send would have sent |
| OutputUdp.OneForSevenAccepted | src/output_udp.c:110-124 | whenever the network fails, one datagram is sent for every seven packets accepted |
| ReportStats.Stats.Capture | src/report_stats.c:378-415 | the sample joins the ring, which keeps the last sixty |
| ReportStats.Stats.Tick | src/report_stats.c:417-431 | a sample is taken, and its time noted, exactly when the clock runs and a second has passed since the last |
| ReportStats.SamplesASecondApart | src/report_stats.c:417-431 | with a clock that does not go back, samples lie at least a second apart, and after each tick the last sample is younger than a second |
| ReportStats.Stats.Oldest | src/report_stats.c:231-241 | the oldest sample in the ring |
| ReportStats.Stats.SampleAgo | src/report_stats.c:243-261 | the k-th most recent sample, or the oldest when the ring does not reach back that far |
| ReportStats.YoungerShowsNoMore | src/report_stats.c:263-321 | measured from a younger sample, a stream and the output show no more problems than from an older one |
| ReportStats.DeltaIsGain | src/report_stats.c:263-321 | the problem deltas are what the counters gained since the sample, without wrap-around |
| ReportStats.QuietIsRedundant | src/report_stats.c:323-339 | the quiet-period count never changes a verdict |
| ReportStats.Stats.UpdateHealth | src/report_stats.c:341-376 | when due, every verdict is the assessment of what was gained since the oldest sample, or offline; otherwise nothing changes |
| ReportStats.Stats.HealthyIff | src/report_stats.c:341-376 | a stream is healthy if and only if it is not offline and, since the oldest sample, received packets while none of its nine problem counters moved |

## Left out

- Handover.DrainUnseenIff: says nothing of a queue whose packet at the crossing is damaged, which a secondary packet may replace, nor of a sink that fails on the way there.
- Discards.HeadIsLostIff: is about packets the secondary has not delivered; whether a copy it has delivered is sent after the discard depends on the recoveries that follow.
- GapRepair.DrainRepairs: assumes, as the repair itself does, a working sink, a primary that is not silent and a drain that does not begin with a discard.
- Integers are unbounded: stream indexes, times and counters are taken to stay below 2^63, except for the subtractions of times, the resynchronisation offset and the miss counter, whose wrap-around is written out.
- The packet hash is the identity of a packet's contents; collisions of the FNV hash are not modelled.
- PCR bitrate, delay and latency averages: they never influence the output; only the alignment a PCR match sets is modelled.
- The decision log, reports and JSON: of the text only the reason that decides a count is kept.
- `report_stats_observe_packet`: per-PID counters of the inputs; the health verdicts take the sampled totals as inputs that only grow.
- Bit decoding of packets beyond what decides acceptance; PIDs and counters are in range by type.
- Clamping of the configuration and sizing of the history at start-up; the capacity is any value in 8192..1048576, and memory allocation succeeds.
- Sockets, the select loop, signals, command line, HTTP server and web interface.
- Fields that are written but never read for a decision, such as the primary gap and the input state kept for stream #1.
