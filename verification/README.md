# Verified model of the BBR stack, the DNS codec and the core supervisor

This project models, in Dafny, the parts of the repository whose correctness is about whole runs:

- the BBR congestion controller of the H3 frontend, layer by layer: the ring buffer and the sparse packet queue, the
  windowed filter, the ack-aggregation tracker, the bandwidth sampler, the sender, and the token-bucket pacer;
- the DNS codec of the TUN data plane;
- the generation-numbered supervisor that keeps the core process running.

## How it is built

Each stateful part is a state machine (a datatype and step functions) and a class with the source's fields whose methods
change them in place. Every method is proved to take exactly the step of the machine, with everything it does not mention
unchanged. Theorems are then proved about all runs of the machines, so they hold of every sequence of calls on the objects.

| file | content |
|---|---|
| `Rates.dfy`, `Options.dfy` | integer rates with their machine wrap-around; an option type |
| `RingBuffer.dfy`, `PacketQueue.dfy` | growable circular array as a sequence; sparse queue as a finite map |
| `WindowedFilter.dfy` | three-estimate filter and the meaning of its estimates on any stream |
| `AckHeight.dfy` | ack-aggregation tracker |
| `SamplerState.dfy`, `Sampler.dfy` | bandwidth sampler: machine and object |
| `SamplerRuns.dfy`, `SamplerHistory.dfy` | samples as slopes; app-limited phase, A0 candidates, conservation of bytes |
| `HeightRuns.dfy` | the ack-aggregation tracker over runs of the sampler |
| `SenderState.dfy`, `Sender.dfy` | BBR sender: machine and object |
| `SenderRuns.dfy`, `SenderRounds.dfy` | windows, modes, ratchets; recovery, PROBE_RTT, minimum RTT, end of start-up |
| `SenderMarks.dfy` | when rounds, recovery, phases and modes begin and end, exactly, over the history of a run |
| `SenderRates.dfy` | pacing rate, congestion window and recovery window after an event, exactly |
| `SystemRuns.dfy`, `SystemLaws.dfy` | sender, filter, sampler and pacer together |
| `SystemSamples.dfy`, `SystemHeights.dfy` | what samples, the bandwidth estimate and the ack heights are in runs of the whole |
| `SystemReports.dfy`, `SystemEvents.dfy` | what an event reports, told by its packets; what it leaves behind |
| `SystemEpochs.dfy` | ack aggregation told by the packets and the clock of a run |
| `SystemPacing.dfy` | pacing conformance of runs of the whole |
| `SystemWitnesses.dfy` | runs of the whole in which a property fails |
| `Pacer.dfy` | token bucket: conformance and liveness |
| `PacerLimits.dfy` | token bucket: nothing is held back, and no earlier deadline would do |
| `Dns.dfy` | query parser, response printer, answer parser and their round trip |
| `DnsAnswers.dfy` | answers with any records in them, refused names, fields of the printed bytes |
| `Supervisor.dfy` | interleavings of callers and supervisors; the manager object |
| `SupervisorProgress.dfy` | when a supervisor may leave, and that it restarts its process |

A run of the whole sender (`SystemRuns`) is shown to be a run of the sender machine, a run of the sampler machine, a run
of the bandwidth filter and a run of the pacer, so the theorems about those, which assume nothing about the other layers, hold of the whole.

Conventions. Times are nanoseconds and 0 is the zero time. Byte counts are unbounded integers; uint64 wrap-around is modelled
in `BandwidthFromDelta` and in the filter's time differences. Gains are exact reals, rounded down where the source converts to
an integer. The constants of quic-go (maximum window in packets, packet buffer size, pacing delay, initial packet size) are
parameters. The connection's own minimum RTT and the random draw are inputs of each event.

Environment. Runs assume what the connection guarantees: a monotone clock, packet numbers that are not negative and grow from
send to send, events that report at least one acknowledged or lost packet, a largest acknowledged packet that was sent, and
datagram sizes that do not shrink (the source panics otherwise). A run stops before an event on which the source panics.
`SystemLaws.RunsWithEventsExist` builds a run, so these assumptions can be met. Where a theorem needs more it says so.

## Results that differ from what one might expect

- `Dns.RoundTrip`: the round trip holds exactly when fewer than 65536 addresses match; at more, the 16-bit answer count wraps
  and `Dns.ResponseReadsBack` says what comes back.
- `SystemHeights.IncreaseForgetsHeights`: the heights fed again after a bandwidth increase carry round 0, because the events
  the tracker records never set their round; from the first round beyond the window on they are discarded at once.
- `SamplerHistory.PruningIsInvisible`: dropping A0 candidates is invisible exactly under a condition on the front candidate; it
  always holds for queries in rising order. `SystemWitnesses.LateAckIsAnsweredWrongly` is a run of the whole, four packets, the
  second acknowledged last, in which it fails.
- `SamplerHistory.BytesAreConservedExactlyWhenCreditedOnce`: bytes are conserved along a run exactly when no step credits a
  packet twice or wrongly. `SystemWitnesses.LateAckBreaksConservation`: a packet declared lost by an event that
  acknowledges its neighbour stays tracked, and is credited twice when it is acknowledged after all.
- `Supervisor.StopMissesExactlyTheUnstartedProcess`: a stop that falls between the storing of the command and the start of its
  process does not end that process, unless the context is cancelled too.
- `SenderRuns.PacingPanicsExactlyOnOvershootWithoutRtt`: the overshooting branch divides by the connection's minimum RTT. An
  event panics there exactly when it corrects an overshoot while there is none, which only the conservative profile does, and
  `SystemWitnesses.OvershootWithoutRttPanics` is a run of the whole that reaches such an event: the connection has no minimum
  RTT all along, the sender's own expires after ten seconds, and PROBE_RTT lowers the target below the pacing rate. `Senders.BbrSender.OnCongestionEventEx` reports it.

## Model

| member | source | states |
|---|---|---|
| Rates.BandwidthFromDelta | h3frontend/internal/congestion/bbr/bandwidth.go:25-27 | Every rate is a multiple of 8 and less than the "infinite" rate, on all inputs, wrap-around included |
| Rates.BandwidthIsRoundedSlope | h3frontend/internal/congestion/bbr/bandwidth.go:24-27 | Without wrap-around the rate in bytes per second is the slope rounded down |
| Rates.BytesAreRateTimesTime | h3frontend/internal/congestion/bbr/bandwidth_sampler.go:870-873 | What a rate carries in a time is their product, rounded down to whole bytes |
| Rates.BytesComeBack | h3frontend/internal/congestion/bbr/bandwidth_sampler.go:870-873 | What the rate of some bytes over a time carries in that time is those bytes but for the rounding of the rate |
| RingBuffers.PushUnrolls | h3frontend/internal/congestion/bbr/ringbuffer.go:34-46 | Writing the tail slot of a ring and advancing appends to the contents, wrapped or not |
| RingBuffers.RingBuffer.PushBack | h3frontend/internal/congestion/bbr/ringbuffer.go:34-46 | Appends to the abstract sequence, growing first when full |
| RingBuffers.RingBuffer.PopFront | h3frontend/internal/congestion/bbr/ringbuffer.go:51-63 | Removes and returns the first element of the sequence |
| RingBuffers.RingBuffer.Offset | h3frontend/internal/congestion/bbr/ringbuffer.go:69-75 | Reads the element at that index of the sequence, through the modulus |
| RingBuffers.RingBuffer.Len | h3frontend/internal/congestion/bbr/ringbuffer.go:17-25 | Is the length of the sequence, wrapped, full or empty |
| RingBuffers.RingBuffer.Grow | h3frontend/internal/congestion/bbr/ringbuffer.go:99-109 | Doubles the capacity and keeps the sequence |
| RingBuffers.RingBuffer.Clear | h3frontend/internal/congestion/bbr/ringbuffer.go:112-118 | Empties the sequence |
| PacketQueues.LiveAt | h3frontend/internal/congestion/bbr/packet_number_indexed_queue.go:181-199 | A number is live exactly when its slot exists and is not a hole, with the slot's entry |
| PacketQueues.LiveClear | h3frontend/internal/congestion/bbr/packet_number_indexed_queue.go:103-119 | Clearing a slot forgets exactly its number |
| PacketQueues.LiveSpan | h3frontend/internal/congestion/bbr/packet_number_indexed_queue.go:15-22 | A non-empty queue starts at a live number and all live numbers lie within its slots |
| PacketQueues.PacketNumberIndexedQueue.Span | h3frontend/internal/congestion/bbr/packet_number_indexed_queue.go:140-169 | The present count is the map's size; the slots used are last minus first plus one; first is the smallest live number |
| PacketQueues.PacketNumberIndexedQueue.Emplace | h3frontend/internal/congestion/bbr/packet_number_indexed_queue.go:54-88 | Adds to the map exactly when the number is valid and the queue is empty or the number exceeds the last one |
| PacketQueues.PacketNumberIndexedQueue.GetEntry | h3frontend/internal/congestion/bbr/packet_number_indexed_queue.go:92-99 | Is lookup in the map |
| PacketQueues.PacketNumberIndexedQueue.Remove | h3frontend/internal/congestion/bbr/packet_number_indexed_queue.go:103-119 | Removes exactly that number, hands its entry to the callback, and cleans the front |
| PacketQueues.PacketNumberIndexedQueue.RemoveUpTo | h3frontend/internal/congestion/bbr/packet_number_indexed_queue.go:124-137 | Removes exactly the numbers below the bound |
| WindowedFilters.StandardComparatorsRank | h3frontend/internal/congestion/bbr/windowed_filter.go:55-73 | Both comparators are total preorders whose zero means equal rank, so the results on streams apply to them |
| WindowedFilters.UpdateKeepsRecords | h3frontend/internal/congestion/bbr/windowed_filter.go:102-151 | One update keeps each estimate the maximum since its recording, recordings in order, and the best inside the window |
| WindowedFilters.EstimatesAreSuffixMaxima | h3frontend/internal/congestion/bbr/windowed_filter.go:7-31 | On every stream of updates, resets and clears each estimate is a fed sample and the maximum of all fed since it was recorded; after an update the best is inside the window |
| WindowedFilters.EstimatesAreOrdered | h3frontend/internal/congestion/bbr/windowed_filter.go:9-11 | For non-decreasing times the estimates rank best, second, third and were taken in that order |
| WindowedFilters.UpdateReplacesExactly | h3frontend/internal/congestion/bbr/windowed_filter.go:102-151 | Which samples replace which estimates: the best stays for a window unless a sample is no worse; a second as good as the best is refreshed after a quarter of the window, a third as good as the second after half; an expired best gives way to the next estimate that is not expired |
| WindowedFilters.WindowedFilter.Update | h3frontend/internal/congestion/bbr/windowed_filter.go:102-151 | Overwrites the three slots in place as the three-case machine does |
| SystemHeights.EveryEventMarksEpoch | h3frontend/internal/congestion/bbr/bandwidth_sampler.go:854-859 | In every run an event reports no negative extra bytes, zero exactly when it starts an epoch or acknowledges nothing, and saves an A0 candidate exactly when it starts an epoch |
| SystemHeights.HeightsAreAlwaysSound | h3frontend/internal/congestion/bbr/bandwidth_sampler.go:167-208 | In every run no recorded height is negative, the last epoch began no later than now, and nothing acknowledged is left unreported between events |
| HeightRuns.HeightsAreUnstamped | h3frontend/internal/congestion/bbr/bandwidth_sampler.go:202-207 | Recorded events never carry a round, in every run of the sampler |
| HeightRuns.HeightsAreSuffixMaxima | h3frontend/internal/congestion/bbr/bandwidth_sampler.go:127-129 | In every run each of the three heights was measured since the filter was last cleared and is the largest measured since its own recording; right after a measurement the best is at most a window of rounds old |
| SystemHeights.HeightsAreMaximaInRuns | h3frontend/internal/congestion/bbr/bandwidth_sampler.go:127-129 | The same of the heights inside every run of the whole |
| SystemHeights.IncreaseForgetsHeights | h3frontend/internal/congestion/bbr/bandwidth_sampler.go:142-165 | In every run, after an event with a new maximum bandwidth the best height is the larger of the re-measured ones and the new one up to round 10, and the new one alone later |
| SystemEpochs.ExtraBytesAreExact | h3frontend/internal/congestion/bbr/bandwidth_sampler.go:167-208 | In every run the extra bytes of an event are those acknowledged since the event that began the epoch, less what the larger of estimate and new maximum carries in the time since; none exactly if those before were within the profile's factor of that, or no epoch had begun |
| SystemEvents.HeightsFollowReports | h3frontend/internal/congestion/bbr/bandwidth_sampler.go:142-208 | In every run the recorded heights change only by events that acknowledge bytes: measured again on a new maximum by the profile that reduces them, then updated with the event's extra bytes, if any, in its round |
| SystemEvents.RemeasuredIs | h3frontend/internal/congestion/bbr/bandwidth_sampler.go:146-163 | A height measured again is the excess of its bytes over what the new bandwidth carries in its time, and dropped when there is none |
| SystemEvents.HeightsRestartExactly | h3frontend/internal/congestion/bbr/bbr_sender.go:808-814 | In every run the heights start over exactly at a start-up comparison that finds growth, for the profile that lets them expire |
| AckHeights.MaxAckHeightTracker.Update | h3frontend/internal/congestion/bbr/bandwidth_sampler.go:131-209 | Takes the tracker machine's step, filter included, and returns its extra bytes |
| SamplerRuns.CongestionIsRun | h3frontend/internal/congestion/bbr/bandwidth_sampler.go:598-675 | A congestion event is a run of single losses, acknowledgements and one end of event |
| SamplerRuns.RunsAreGood | h3frontend/internal/congestion/bbr/bandwidth_sampler.go:554-596 | In every run all stored reference points lie on the sent and acknowledged curves and all totals are bounded |
| SamplerRuns.SamplesAreSlopes | h3frontend/internal/congestion/bbr/bandwidth_sampler.go:337-370 | Every valid sample is the smaller of the slope of the acknowledged curve from the A0 point to that acknowledgement and the slope of the sent curve from the point in the packet's snapshot to its own send, which is unlimited when that send was no later; numerators not negative, divisors positive; an invalid one has no bandwidth |
| SamplerRuns.SnapshotsAreMonotone | h3frontend/internal/congestion/bbr/bandwidth_sampler.go:308-328 | Snapshot totals are bounded by the current totals and monotone in the packet number |
| SamplerHistory.PhaseIsLimitedByHistory | h3frontend/internal/congestion/bbr/bandwidth_sampler.go:407-411 | The sampler is in the app-limited phase exactly when OnAppLimited was called and no tracked packet sent after the latest call has been acknowledged since |
| SamplerHistory.SnapshotRecordsSend | h3frontend/internal/congestion/bbr/bandwidth_sampler.go:308-328 | A packet's snapshot records the totals, reference points, in-flight bytes and app-limited phase at its own send |
| SamplerHistory.ReferenceIsLatest | h3frontend/internal/congestion/bbr/bandwidth_sampler.go:562-584 | The reference point of a run is the packet acknowledged last, or the send from idle after it |
| SamplerHistory.ChoiceIsLastWithin | h3frontend/internal/congestion/bbr/bandwidth_sampler.go:733-760 | On a sorted list the choice is the last point within the total, else the first |
| SamplerHistory.CandidatesAreSuffixOfSaved | h3frontend/internal/congestion/bbr/bandwidth_sampler.go:576-582 | The candidates are a suffix of all saved since the last clear, which is sorted, and what was dropped lies before a point already asked for |
| SamplerHistory.PruningIsInvisible | h3frontend/internal/congestion/bbr/bandwidth_sampler.go:733-760 | The answer equals a search of the full list exactly when nothing was dropped, the front qualifies, or it equals the first ever saved; the chosen point stays |
| SamplerHistory.PruningIsInvisibleToRisingQueries | h3frontend/internal/congestion/bbr/bandwidth_sampler.go:808-813 | For non-decreasing arguments the answer is always that of the full list |
| SamplerHistory.PruningLeavesExactly | h3frontend/internal/congestion/bbr/bandwidth_sampler.go:733-760 | What an acknowledgement leaves of the candidates: all unless it asks for a point; else the chosen point in front with no other within the argument, or the later half when all are within it |
| SamplerHistory.SavedPointIsPrevious | h3frontend/internal/congestion/bbr/bandwidth_sampler.go:854-859 | The candidate saved by an event is the latest update at an earlier time than the newest, or the newest if there is none or it counts no bytes |
| SamplerHistory.WronglyAnswered | h3frontend/internal/congestion/bbr/bandwidth_sampler.go:733-760 | Whenever the front candidate is above the argument and not the first point saved, it is the answer, and the full list has another |
| SystemWitnesses.LateAckIsAnsweredWrongly | h3frontend/internal/congestion/bbr/bandwidth_sampler.go:733-760 | A run of the whole, four packets, the second acknowledged last: it is given a point of 1200 acknowledged bytes where the full list has one of none |
| SamplerHistory.BytesAreAccounted | h3frontend/internal/congestion/bbr/bandwidth_sampler.go:35-39 | In every run the bytes acknowledged, lost, neutered, unresolved and resolved after pruning are exactly those sent plus those credited twice or wrongly |
| SamplerHistory.BytesAreConservedExactlyWhenCreditedOnce | h3frontend/internal/congestion/bbr/bandwidth_sampler.go:677-703 | Bytes are conserved all along a run if and only if no step credits a resolved packet again or reports a wrong loss |
| SamplerHistory.BytesAreConserved | h3frontend/internal/congestion/bbr/bandwidth_sampler.go:35-39 | If packets are resolved at most once, bytes are conserved and no more is credited than was sent |
| SystemWitnesses.LateAckBreaksConservation | h3frontend/internal/congestion/bbr/bandwidth_sampler.go:677-683 | A run of the whole in which more bytes are acknowledged and lost than were sent: a packet lost next to an acknowledged one is acknowledged later |
| SamplerHistory.RecentPointsAreLatest | h3frontend/internal/congestion/bbr/bandwidth_sampler.go:249-280 | While the clock does not go back, the newest point of a run is its latest update and the other one the latest update at an earlier time |
| Samplers.RecentAckPoints.Update | h3frontend/internal/congestion/bbr/bandwidth_sampler.go:254-263 | Takes the step that result is about: a later time shifts the points, any other time overwrites the newest |
| Samplers.BandwidthSampler.OnPacketSent | h3frontend/internal/congestion/bbr/bandwidth_sampler.go:554-596 | Counts the packet, reopens the reference points from idle, and records the snapshot |
| Samplers.BandwidthSampler.ChooseA0Point | h3frontend/internal/congestion/bbr/bandwidth_sampler.go:733-760 | Returns the chosen point and drops exactly the candidates before it, or half of them when all qualify |
| Samplers.BandwidthSampler.OnPacketAcknowledged | h3frontend/internal/congestion/bbr/bandwidth_sampler.go:762-833 | Takes the acknowledgement step and returns the sample of the state before it |
| Samplers.BandwidthSampler.OnPacketLost | h3frontend/internal/congestion/bbr/bandwidth_sampler.go:677-683 | Adds the lost bytes and returns the tracked send state, if any |
| Samplers.BandwidthSampler.OnPacketNeutered | h3frontend/internal/congestion/bbr/bandwidth_sampler.go:685-689 | Stops tracking the packet and adds its size when it was tracked |
| Samplers.BandwidthSampler.OnAckEventEnd | h3frontend/internal/congestion/bbr/bandwidth_sampler.go:835-861 | Takes the end-of-event step: feeds the tracker what was newly acknowledged, and saves the less recent point when the tracker reports zero |
| Samplers.BandwidthSampler.OnCongestionEvent | h3frontend/internal/congestion/bbr/bandwidth_sampler.go:598-675 | Takes the machine's event, loops and all; `SystemReports` says what each field of its report is, packet by packet |
| SenderStates.CycleStart | h3frontend/internal/congestion/bbr/bbr_sender.go:738-744 | The gain cycle starts at any offset but the draining one |
| SenderRates.EveryPhaseIsDrawn | h3frontend/internal/congestion/bbr/bbr_sender.go:733-753 | Each of the seven phases is drawn by exactly one remainder of the random number |
| SenderStates.PacerBandwidth | h3frontend/internal/congestion/bbr/bbr_sender.go:663-672 | The pacer is never given less than 65536 bytes per second |
| SenderStates.Target | h3frontend/internal/congestion/bbr/bbr_sender.go:692-702 | The target window is never below the minimum window |
| SenderRuns.RescaleIsExact | h3frontend/internal/congestion/bbr/bbr_sender.go:408-413 | Rescaling a window that is a whole number of datagrams is exact |
| SenderRuns.ModelKeepsWindows | h3frontend/internal/congestion/bbr/bbr_sender.go:902-935 | Updating the model touches no window, except that entering recovery clears the recovery window |
| SenderRuns.WindowsStayBounded | h3frontend/internal/congestion/bbr/bbr_sender.go:404-427 | In every reachable state the windows are 32, M and 4 datagrams exactly, and the window offered lies between minimum and maximum in every mode and recovery state |
| SenderRuns.RecoveryNeverPinsTheWindow | h3frontend/internal/congestion/bbr/bbr_sender.go:1044-1048 | After every event in recovery outside PROBE_RTT the window offered is at least the smaller of the ordinary window and half the target |
| SystemHeights.WindowAlwaysFollowsTarget | h3frontend/internal/congestion/bbr/bbr_sender.go:978-1008 | In every run at full bandwidth the window never exceeds target plus best ack height, grows by at most the bytes acknowledged, and is otherwise the lower of the two |
| SenderRuns.ModesAlwaysFit | h3frontend/internal/congestion/bbr/bbr_sender.go:721-752 | After every step mode, full-bandwidth flag and gains agree, with low gain held over a neutral slot only when draining to target |
| SenderRuns.StartupIsNeverReentered | h3frontend/internal/congestion/bbr/bbr_sender.go:833-898 | Full bandwidth is never forgotten and STARTUP never re-entered after it |
| SenderRuns.ProbingIsDrained | h3frontend/internal/congestion/bbr/bbr_sender.go:766-798 | Within one stay in PROBE_BW a gain of 1.25 is followed by 0.75 before any 1.0 |
| SenderRuns.StartupWindowNeverShrinks | h3frontend/internal/congestion/bbr/bbr_sender.go:995-1003 | Until full bandwidth the congestion window never decreases, over all events and datagram sizes |
| SenderRuns.StartupPacingDecreasesAtMostOnce | h3frontend/internal/congestion/bbr/bbr_sender.go:938-975 | Until full bandwidth the pacing rate decreases at most once, and never in a profile that does not detect overshooting |
| SenderRates.RateFollowsEstimateAtFullBandwidth | h3frontend/internal/congestion/bbr/bbr_sender.go:943-947 | After every event at full bandwidth with a non-zero estimate the pacing rate is the gain of the mode times the estimate, rounded down |
| SenderRates.RateReachesTargetInStartup | h3frontend/internal/congestion/bbr/bbr_sender.go:949-975 | In start-up every event but the one that sets the first rate leaves the rate at the target at least, and at the larger of rate and target unless it corrects an overshoot |
| SenderRates.StepRate | h3frontend/internal/congestion/bbr/bbr_sender.go:938-975 | The pacing rate, the lost bytes counted and the overshoot flag after any event, with literal conditions for each case |
| SenderRates.PacerBandwidthIs | h3frontend/internal/congestion/bbr/bbr_sender.go:640-674 | The pacer is given the pacing rate in whole bytes, at least 65536, and before a first rate the high gain times a window per round trip |
| SenderRates.TargetIsScaledBdp | h3frontend/internal/congestion/bbr/bbr_sender.go:692-702 | A target is the gain times the bandwidth-delay product rounded down, the gain times the initial window while that is zero, the minimum window at least |
| SenderRates.BdpRoundsDown | h3frontend/internal/congestion/bbr/bbr_sender.go:1074-1076 | The bandwidth-delay product is the round trip times the bandwidth in whole bytes, rounded down once, for all its two divisions |
| SenderRates.ProfilesAreBalanced | h3frontend/internal/congestion/bbr/bbr_sender.go:132-171 | In every profile the drain gain undoes the high gain, and the eight phases of the gain cycle average 1 |
| SenderRates.SlowStartGrowsByEveryByte | h3frontend/internal/congestion/bbr/bbr_sender.go:993-1004 | In start-up, over any stretch of a run in which the window is below its target, it grows by every byte acknowledged, up to its maximum |
| SenderRates.StepWindow | h3frontend/internal/congestion/bbr/bbr_sender.go:978-1008 | What one event does to the window in start-up, and that it leaves it alone in PROBE_RTT |
| SenderRates.RecoveryWindowIsLargest | h3frontend/internal/congestion/bbr/bbr_sender.go:1011-1049 | After an event in recovery the recovery window is exactly the largest of its floors and what losses left of it plus, past CONSERVATION, what was acknowledged |
| SenderRates.WindowOffered | h3frontend/internal/congestion/bbr/bbr_sender.go:522-532 | The window offered is four datagrams in PROBE_RTT, the lower of the two windows in recovery, else the window |
| SenderRates.ResizeKeepsPackets | h3frontend/internal/congestion/bbr/bbr_sender.go:408-427 | A larger datagram size keeps every size, and a window at one of them, at its number of datagrams; another keeps its bytes but is four datagrams at least |
| SenderRuns.PacingPanicsExactlyOnOvershootWithoutRtt | h3frontend/internal/congestion/bbr/bbr_sender.go:957-971 | In every run an event divides by a zero minimum RTT exactly when it corrects an overshoot without one, only in the conservative profile, before full bandwidth and while the pacing rate has never gone down |
| SystemWitnesses.OvershootWithoutRttPanics | h3frontend/internal/congestion/bbr/bbr_sender.go:957-971 | A run of the whole, without a minimum RTT from the connection, reaches such an event |
| SenderRounds.RecoveryNeedsFullBandwidth | h3frontend/internal/congestion/bbr/bbr_sender.go:902-922 | Recovery is entered only at full bandwidth, by an acknowledgement reporting losses, in CONSERVATION |
| SenderRounds.ConservationLastsARound | h3frontend/internal/congestion/bbr/bbr_sender.go:923-927 | CONSERVATION is left only on an acknowledgement of a packet sent after recovery was entered |
| SenderRounds.RecoveryEndsBeyondAllLosses | h3frontend/internal/congestion/bbr/bbr_sender.go:908-934 | Recovery ends only on a loss-free acknowledgement beyond everything sent at any earlier lossy acknowledgement |
| SenderRounds.RoundsSpanAFlight | h3frontend/internal/congestion/bbr/bbr_sender.go:756-763 | The packet that starts a round was sent after every earlier round start; when one must start is `SenderMarks.RoundStartsExactlyBeyondMark` |
| SenderMarks.RoundStartsExactlyBeyondMark | h3frontend/internal/congestion/bbr/bbr_sender.go:756-763 | In every run a step starts a round if and only if it acknowledges a packet and its largest number exceeds what had been sent at the latest round start or entry into recovery, if there was one |
| SenderMarks.FirstAckStartsRound | h3frontend/internal/congestion/bbr/bbr_sender.go:756-763 | The first acknowledgement of a run always starts a round |
| SenderMarks.RecoveryFollowsHistory | h3frontend/internal/congestion/bbr/bbr_sender.go:902-935 | In every run the recovery state after each acknowledgement is the one the history dictates, with necessary and sufficient conditions for entry, growth and exit |
| SenderMarks.ModeFollowsHistory | h3frontend/internal/congestion/bbr/bbr_sender.go:833-898 | In every run the mode after an event, exactly: when PROBE_RTT is entered and must be left, when STARTUP ends, when DRAIN gives way |
| SenderMarks.PhasesEndExactly | h3frontend/internal/congestion/bbr/bbr_sender.go:766-798 | In every run a gain phase ends exactly after a minimum RTT, unless it still probes for more, or at once when a draining one has drained; offset and gain of the next one follow |
| SenderMarks.MinRttExpiresExactly | h3frontend/internal/congestion/bbr/bbr_sender.go:709-718 | In every run the minimum RTT expires exactly at a sample more than ten seconds after the event that last set it or left PROBE_RTT |
| SenderMarks.RoundTripIsMinimum | h3frontend/internal/congestion/bbr/bbr_sender.go:676-689 | The round trip used for targets is the least sample since the expiry, else the connection's, else 100 ms |
| SenderMarks.StartupEndsExactly | h3frontend/internal/congestion/bbr/bbr_sender.go:802-823 | In every run start-up ends exactly at a round start with an unlimited sample that finds less than 1.25 times the bandwidth for the last allowed time or after a round of too many losses |
| SenderRounds.StepProbes | h3frontend/internal/congestion/bbr/bbr_sender.go:850-898 | What one step can do to the PROBE_RTT timer and the round flag |
| SenderRounds.ProbeRttDwells | h3frontend/internal/congestion/bbr/bbr_sender.go:866-895 | A visit to PROBE_RTT ends only 200 ms after an event of the same visit saw little enough in flight, at or after a later round start |
| SenderRounds.MinRttIsMinimumSinceExpiry | h3frontend/internal/congestion/bbr/bbr_sender.go:709-718 | The estimate is exactly the minimum of all RTT samples since it last expired |
| SenderRounds.StepGrowth | h3frontend/internal/congestion/bbr/bbr_sender.go:802-823 | A comparison that finds growth restarts the count; one that does not ends start-up exactly at the profile's count or on excessive loss |
| SenderRounds.GrowthMultiplies | h3frontend/internal/congestion/bbr/bbr_sender.go:807-809 | A growing round multiplies the bandwidth by at least 1.25, exactly, since rates are multiples of 8 |
| SenderRounds.StartupEnds | h3frontend/internal/congestion/bbr/bbr_sender.go:802-823 | With estimates between 8 and a bound below 8 * 1.25^n, full bandwidth is reached within n * numStartupRtts + 1 comparisons |
| SystemRuns.EventIsSamplerRun | h3frontend/internal/congestion/bbr/bbr_sender.go:538-637 | What an event does to the sampler is a run of the sampler's own steps |
| SystemRuns.RunProjectsToSampler | h3frontend/internal/congestion/bbr/bbr_sender.go:444-461 | The sampler inside any run of the sender has been through an orderly run of its own |
| SystemLaws.SamplesAreWholeRates | h3frontend/internal/congestion/bbr/bandwidth_sampler.go:822-824 | Every bandwidth sample is a non-negative multiple of 8 |
| SystemLaws.RunProjectsToCore | h3frontend/internal/congestion/bbr/bbr_sender.go:538-637 | The sender inside any run of the whole makes a run of the sender machine; filter and pacer stay sound and snapshots no newer than the clock |
| SystemLaws.WindowIsAlwaysBounded | h3frontend/internal/congestion/bbr/bbr_sender.go:522-532 | In every run of the whole the window offered lies between 4 datagrams and the maximum |
| SystemLaws.EventsAreHandledUnlessOvershootLacksRtt | h3frontend/internal/congestion/bbr/bbr_sender.go:938-975 | In every run of the whole an event that reports a packet is handled without a panic if and only if it does not correct an overshoot without a minimum RTT; so always with one, and always in the other profiles |
| SystemLaws.StartupAlwaysEnds | h3frontend/internal/congestion/bbr/bbr_sender.go:802-823 | Start-up of the whole ends within n * numStartupRtts + 1 comparisons when the compared estimates are non-zero and below 8 * 1.25^n |
| SystemLaws.NoPacingLivelock | h3frontend/internal/congestion/bbr/bbr_sender.go:434-441 | In every run, when the sender may send or its deadline has come, it has the pacing budget |
| SystemLaws.MinRttIsNatural | h3frontend/internal/congestion/bbr/bbr_sender.go:676-689 | The minimum RTT is never negative in any run |
| SystemLaws.SeededSenderStarts | h3frontend/internal/congestion/congestion.go:41-46 | A seeded packet size starts the sender at no more than the pacer's datagram size |
| SystemLaws.SamplerLawsApply | h3frontend/internal/congestion/bbr/bandwidth_sampler.go:330-370 | In every run of the whole the sampler keeps its invariant, its app-limited phase is that of its history, and its books balance |
| SystemSamples.EventSamplesAreSlopes | h3frontend/internal/congestion/bbr/bandwidth_sampler.go:626-648 | Each sample of each acknowledged packet of each event of every run is the smaller of two slopes, of the curves up to that acknowledgement |
| SystemSamples.EventChoicesAreUnpruned | h3frontend/internal/congestion/bbr/bandwidth_sampler.go:808-813 | Each A0 point asked for in every run is that of the full list exactly under the condition on the front candidate |
| SystemSamples.EventMaximum | h3frontend/internal/congestion/bbr/bandwidth_sampler.go:637-640 | What an event reports is the largest of its own samples |
| SystemReports.EventRttIsLeast | h3frontend/internal/congestion/bbr/bandwidth_sampler.go:634-636 | The RTT of an event is the least time since the send of any of its packets that yields a sample, and infinite without one |
| SystemReports.MinRttIsLeastRoundTrip | h3frontend/internal/congestion/bbr/bbr_sender.go:709-718 | In every run the sender's minimum RTT is exactly the least round trip of a packet since it last expired |
| SystemReports.EventIsLimitedByMaximum | h3frontend/internal/congestion/bbr/bandwidth_sampler.go:637-640 | An event is app-limited exactly when the packet of its first largest sample was sent so |
| SystemReports.EventStateIs | h3frontend/internal/congestion/bbr/bandwidth_sampler.go:650-665 | The send state of an event is that of its last packet with a sample, or of its last tracked loss when there is none or the losses go further |
| SystemReports.EventInflightIsGreatest | h3frontend/internal/congestion/bbr/bandwidth_sampler.go:641-646 | The in-flight bytes of an event are the most acknowledged over the flight of one of its packets |
| SystemReports.RateFollowsEstimate | h3frontend/internal/congestion/bbr/bbr_sender.go:943-947 | In every run of the whole, at full bandwidth the pacing rate is the gain of the mode times the filter's estimate, rounded down |
| SystemEvents.FactsReportTheEvent | h3frontend/internal/congestion/bbr/bbr_sender.go:538-637 | What an event tells the sender: its own arguments, the sums its packets report, and what the sampler's totals grew by |
| SystemEvents.EventsLeaveExactly | h3frontend/internal/congestion/bbr/bbr_sender.go:626-632 | After every event of every run exactly the tracked packets from two below the last acknowledged one on are left, or beyond the last loss; and the sampler is app-limited exactly as PROBE_RTT, the unreached target and the packets acknowledged dictate |
| SystemSamples.RunProjectsToFilter | h3frontend/internal/congestion/bbr/bbr_sender.go:577-581 | The bandwidth filter inside any run of the whole has been through a run of its own, fed by those events |
| SystemSamples.EstimateIsRecentMaximum | h3frontend/internal/congestion/bbr/bbr_sender.go:659-661 | In every run the bandwidth estimate is what some event fed and the largest fed since; right after an event that feeds it, it is at most ten rounds old; it is zero before |
| SystemSamples.EstimateIsSlope | h3frontend/internal/congestion/bbr/bbr_sender.go:659-661 | A non-zero estimate is a genuine sample of that event, the smaller of two slopes |
| SystemSamples.EstimatesStayOrdered | h3frontend/internal/congestion/bbr/windowed_filter.go:9-11 | In every run the three estimates rank best, second, third and were taken in rounds in that order |
| SystemSamples.EstimateChangesExactly | h3frontend/internal/congestion/bbr/bbr_sender.go:577-581 | In every run the estimate changes only by an event that feeds the filter, to a sample no lower at once, and down only when it is more than ten rounds old |
| Senders.BbrSender.constructor | h3frontend/internal/congestion/bbr/bbr_sender.go:335-402 | Makes the initial state of the machine for a profile |
| Senders.BbrSender.OnPacketSent | h3frontend/internal/congestion/bbr/bbr_sender.go:444-461 | Takes the machine's sending step: pacer, sender and sampler |
| Senders.BbrSender.OnCongestionEventEx | h3frontend/internal/congestion/bbr/bbr_sender.go:538-637 | Takes the machine's event step: sampler, filter, model, modes, rates, windows and cleaning up, in that order; reports a panic exactly on an event that reports nothing or an overshoot without a minimum RTT. What that step makes of each quantity is in `SenderMarks`, `SenderRates`, `SystemReports` and `SystemEvents` |
| Senders.BbrSender.SetMaxDatagramSize | h3frontend/internal/congestion/bbr/bbr_sender.go:489-509 | Takes the machine's resizing step, in sender and pacer |
| Senders.BbrSender.GetCongestionWindow | h3frontend/internal/congestion/bbr/bbr_sender.go:522-532 | Returns the window the bounds above are about |
| Senders.BbrSender.TimeUntilSend | h3frontend/internal/congestion/bbr/bbr_sender.go:434-436 | Once the returned time has come, HasPacingBudget holds at the same rate if the datagram fits the pacer's |
| Senders.BbrSender.HasPacingBudget | h3frontend/internal/congestion/bbr/bbr_sender.go:439-441 | Compares the pacer's budget with the sender's datagram size |
| Pacers.BudgetAt | h3frontend/internal/congestion/common/pacer.go:42-51 | The budget is never negative and never above the burst |
| Pacers.CeilingQuotient | h3frontend/internal/congestion/common/pacer.go:66-74 | The wait is the least number of nanoseconds that covers the missing bytes |
| Pacers.LedgerStaysBelow | h3frontend/internal/congestion/common/pacer.go:32-51 | Budget left plus bytes sent since a send never exceed a burst plus the capped rate |
| Pacers.TokenBucketConformance | h3frontend/internal/congestion/common/pacer.go:32-58 | In any interval of a run that keeps to its budget the bytes sent are at most a burst plus the capped rate times the time, rounded down |
| SystemPacing.RunProjectsToPacer | h3frontend/internal/congestion/bbr/bbr_sender.go:444-461 | The pacer inside any run of the whole that keeps to its budget has been through a conforming run of its own, at the rates the sender gives it |
| SystemPacing.SenderIsPaced | h3frontend/internal/congestion/bbr/bbr_sender.go:434-461 | In every run of the whole that keeps to its budget the bytes of any interval of sends are at most a burst plus the capped rate times the time, rounded down |
| Pacers.DeadlineBringsBudget | h3frontend/internal/congestion/common/pacer.go:60-76 | Once the promised time has come, the budget covers a datagram |
| Pacers.NeverStuckExactlyWhenSenderFitsPacer | h3frontend/internal/congestion/common/pacer.go:60-80 | A sender never waits on a passed deadline exactly when its datagram size is at most the pacer's |
| PacerLimits.NoEarlierTimeBringsBudget | h3frontend/internal/congestion/common/pacer.go:60-76 | The promised time is no later than the pacing delay requires or no earlier time brings the budget; it is the zero time exactly when the budget is there |
| PacerLimits.LedgerStaysAbove | h3frontend/internal/congestion/common/pacer.go:32-51 | Budget left plus bytes sent are at least a burst, or what there was plus the least rate times the time, less one byte for each send |
| PacerLimits.BudgetIs | h3frontend/internal/congestion/common/pacer.go:42-51 | The budget exactly: a burst before the first send, then what was left plus the refill, up to a burst; and what a clock that goes back does |
| PacerLimits.BurstIs | h3frontend/internal/congestion/common/pacer.go:53-58 | A burst is ten datagrams, or what the bandwidth carries in four pacing delays if that is more |
| PacerLimits.SendTakesItsBytes | h3frontend/internal/congestion/common/pacer.go:32-40 | A send takes exactly its bytes from the budget, or all of it |
| Pacers.Pacer.SentPacket | h3frontend/internal/congestion/common/pacer.go:32-40 | Spends the budget, down to zero at least |
| Pacers.Pacer.Budget | h3frontend/internal/congestion/common/pacer.go:42-51 | Computes the budget, within zero and the burst |
| Pacers.Pacer.TimeUntilSend | h3frontend/internal/congestion/common/pacer.go:60-76 | Returns a time from which on the budget covers a datagram |
| Dns.ReadNameInvertsEncodeName | tui/internal/tun/dns.go:51-70 | The name parser accepts exactly the encodings of legal labels and returns those labels |
| Dns.QueryAcceptedExactlyWhenWellFormed | tui/internal/tun/dns.go:40-77 | A packet is accepted exactly when it counts one question and starts with a well-formed one; name, type and end are that question's |
| Dns.ParseQueryWithEnd | tui/internal/tun/dns.go:40-77 | The loop computes the specified parse on every byte string, every error included, without reading out of bounds |
| Dns.BuildResponse | tui/internal/tun/dns.go:80-128 | Appending and patching in place yields header, question and one record per matching address |
| Dns.ParseAnswers | tui/internal/tun/dns.go:185-246 | The loops terminate on every byte string without reading out of bounds and return the specified addresses, which `DnsAnswers` describes for any list of records |
| Dns.ResponseKeepsQuestion | tui/internal/tun/dns.go:92-108 | A response parses to the query's name, type and end, with its identifier, the response flags and the answer count |
| Dns.RecordReadsBack | tui/internal/tun/dns.go:109-126 | One printed record is read back as its address, and parsing goes on right behind it |
| Dns.ResponseReadsBack | tui/internal/tun/dns.go:185-246 | Parsing a response returns the matching addresses in order up to the 16-bit answer count, and "no answers" when that is zero |
| Dns.RoundTrip | tui/internal/tun/dns.go:80-128 | All matching addresses come back exactly, or "no answers" when there are none, if and only if fewer than 65536 match |
| DnsAnswers.ResponseParses | tui/internal/tun/dns.go:204-240 | For any question and any list of well-formed records, with owners compressed or not and of any type, class and length, parsing returns the data of exactly the announced A records of 4 and AAAA records of 16 bytes, in order |
| DnsAnswers.WholeResponseParses | tui/internal/tun/dns.go:204-246 | The same for a packet that announces more records than it holds |
| DnsAnswers.TruncatedListParses | tui/internal/tun/dns.go:221-229 | A packet cut off anywhere inside a record yields the addresses before that record |
| DnsAnswers.NamesAreRefusedExactly | tui/internal/tun/dns.go:51-70 | Behind any legal labels a name is refused for exactly the reason it goes wrong for: the packet ends, a pointer follows, or a label overruns |
| DnsAnswers.QueriesAreRefusedExactly | tui/internal/tun/dns.go:40-77 | Both parsers hand on exactly that reason, and a question without room for type and class is refused as such |
| DnsAnswers.ShortOrUncountedQueries | tui/internal/tun/dns.go:40-50 | Packets without a whole header and queries that count other than one question are refused as such |
| DnsAnswers.MatchingIsFilter | tui/internal/tun/dns.go:85-91 | Exactly the addresses of the queried family are printed, in order, one mapped into IPv6 counting as IPv4 |
| DnsAnswers.PrintedRecordIs | tui/internal/tun/dns.go:109-126 | A printed record points to the question's name and has the address's type, class 1, the time to live and the address |
| DnsAnswers.ResponseFlagBits | tui/internal/tun/dns.go:94-98 | Each bit of the response flags |
| Supervisor.StartsNeverShareAGeneration | tui/internal/coremgr/coremgr.go:110-118 | In every interleaving each start that is not refused claims a generation of its own above all earlier ones, and the supervisors are exactly those |
| Supervisor.RunsAreConsistent | tui/internal/coremgr/coremgr.go:115-169 | In every interleaving, running means that the supervisor that claimed the current generation is alive, and cmd is its command exactly while it has one; a current supervisor that is gone has cleared both |
| SupervisorProgress.NoSupervisorLeavesUnasked | tui/internal/coremgr/coremgr.go:121-169 | In every interleaving a supervisor is leaving, gone or superseded only if its context has ended or a stop came after its start |
| SupervisorProgress.CrashedProcessIsRestarted | tui/internal/coremgr/coremgr.go:146-166 | In every run, an undismissed supervisor whose process has returned is launching it anew after its backoff and the loop head, with its command stored |
| SupervisorProgress.UndismissedSupervisorsComeUp | tui/internal/coremgr/coremgr.go:130-166 | From wherever an undismissed supervisor is, its own steps bring its process up and change nothing else |
| SupervisorProgress.RestartsWaitForBackoff | tui/internal/coremgr/coremgr.go:157-165 | No process is started again without a backoff that has run out in between |
| SupervisorProgress.CancelledSupervisorsGetOut | tui/internal/coremgr/coremgr.go:119-169 | From wherever it is, a supervisor whose context has ended can leave by its own steps, and an owner frees the manager |
| SupervisorProgress.ProcessesAreOnlyKilledByStop | tui/internal/coremgr/coremgr.go:175-184 | A process goes down only by itself or by the signal of a stop that found its command |
| Supervisor.OnlyTheOwnerAlters | tui/internal/coremgr/coremgr.go:121-151 | A superseded supervisor changes neither running nor cmd, and no supervisor sets running |
| Supervisor.StoppedSupervisorsNeverPassTheHead | tui/internal/coremgr/coremgr.go:131-135 | After a stop no existing supervisor passes the loop head, however the run goes on |
| Supervisor.StoppedSupervisorsStayDown | tui/internal/coremgr/coremgr.go:175-184 | After a stop no existing supervisor that was not launching launches or runs a process anew |
| Supervisor.StopEndsTheRunningProcess | tui/internal/coremgr/coremgr.go:175-184 | A stop that finds the owner's process running leaves its kill pending, and once that has come the process is down for good, however the run goes on |
| Supervisor.StopMissesExactlyTheUnstartedProcess | tui/internal/coremgr/coremgr.go:136-145 | A process can come up after the stop exactly when the stop fell between storing the command and starting it, with the context open |
| Supervisor.StoppedManagerCanKeepAProcess | tui/internal/coremgr/coremgr.go:175-184 | That case is reachable: the manager is stopped, nothing is left to signal, and the process runs |
| Supervisor.Manager.ClaimStart | tui/internal/coremgr/coremgr.go:110-118 | Claims a new generation exactly when not running |
| Supervisor.Manager.LoopHead | tui/internal/coremgr/coremgr.go:131-142 | Lets exactly the owner proceed and stores its command |
| Supervisor.Manager.AfterRun | tui/internal/coremgr/coremgr.go:146-151 | Forgets the command only for the current generation and reports whether the supervisor must stop |
| Supervisor.Manager.Deferred | tui/internal/coremgr/coremgr.go:121-128 | Clears running and cmd only for the current generation |
| Supervisor.Manager.Stop | tui/internal/coremgr/coremgr.go:175-184 | Supersedes every supervisor and hands out the command to signal |

## Left out

- Overflow of 64-bit byte counts, times and generations outside `BandwidthFromDelta` and the filter's time differences; with it
  the pacer's overflow guard is reached only by a clock that goes back.
- Rounding of float64: gains are exact, so results on the edge of a rounding step may differ from the machine's.
- Quantities the sender stores and never reads (the network-adjusted maximum window, the unused start-up flags), debug output,
  and parsing of profile names.
- The bandwidth callback of the pacer is an argument of its methods; that it reads the sender is stated where the sender calls it.
- The profile's constant settings are one record instead of separate fields, and the stored state of the sender is regrouped
  into records in the machine; the object keeps the source's fields.
- A supervisor is named by the generation its start claimed; no other identity is modelled.
- What a panic leaves behind: the object reports it and promises nothing more about its state than that it is well formed.
- Pointers into the queue and the ring buffer: a store through such a pointer is a method.
- In the supervisor: log lines, exit notifications, the length of the backoff, writing the configuration file, and the first of
  the two checks in Start, which changes nothing.
- In the DNS codec: the DoH client, and names in answers that mix labels and pointers beyond what skipping them requires.
- Everything else in the repository: proxies, TLS and REALITY, configuration, user interface, qlog and platform code.
