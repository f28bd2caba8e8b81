# Verified model of the SuperDARN USRP server

This project models the parts of the radar software whose correctness does not follow from reading one
function: the two-slot pipeline of the USRP server, the protocol and the search of the clear frequency
service, the transmit path from the schedule to the packets, the GPIO waveform, the mixing frequency search,
the decoding of pulse sequences, the bookkeeping of USRP connections and the index maps of the transmit kernel.
It proves what these parts promise for all inputs and all runs, and, where the code does not keep a promise,
exactly when it does.

`dafny verify dfyconfig.toml` verifies the whole project.

## Modules

| module | models |
|---|---|
| SwingPipeline, SwingInvariant, SwingTheorems, SwingRaces | the two swings shared by the control loop and a channel handler, as a state machine over single accesses to shared state; what every race-free run keeps; what the control program receives; what SET_READY queues when calls overtake it |
| SwingCall, UsrpServer | one call of `trigger_next_swing` and one scan as a caller sees them; the same as classes with fields: swingManager, scanManager, the channel handler and `trigger_next_swing`, every method proved to perform one step of the state machine, and a driver that runs a whole scan |
| ClearFreqProtocol, ClearFreqTheorems, ClearFreqAnswers | any number of clients and the clear frequency server with their nine semaphores; what every run keeps; which values every answer rests on |
| ClearBandSearch, ClearBandLaws | trimming, masking, sliding mean, choice of the band; where samples, windows, masks and aliases lie in Hz, and what each sample of the spectrum contributes |
| Reservations | reservation table of the clear frequency server |
| TxWorker | packing of the padded pulses and the packet loop of the transmit worker |
| GpioTiming | queue of the GPIO commands and the waveform they produce |
| PeriodSchedule | number and position of the pulse sequences of a period; sample counts up to CUDA |
| TxKernel | index maps, shared memory and result of the transmit kernel |
| MixingFreq | mixing frequency search |
| SequenceDecoder | run-length decoding and extraction of pulses |
| UsrpConnections | parallel lists of connected and lost USRPs |
| AntennaPower | active antennas and the list of muted antennas |
| Wrappers, Indexing, Division | optional values; arrays made of equal blocks; integer division and rounding up |

## Where the code does not keep a promise

Each item names the lemma with the failing input or run and, where one is proved, the lemma with the exact condition.

- SET_READY sets the state of `nextSwingToTrigger` and then reads `nextSwingToTrigger` again
  (usrp_server/usrp_server.py:3650-3651). `FirstTrigger` reaches the state in between in every scan; `PushIff` says that
  the queue is right exactly if no call of `trigger_next_swing` begins there. One call makes SET_READY queue the other
  swing; in the first round two can begin (`TwoCallsHappen`), and the queue is in the wrong order: `QueueAfterPush`.
- GET_DATA, GET_PARAMETERS and SET_PARAMETERS write the parameter structure that the control loop fills for CUDA_ADD and
  copies later (3554-3575, 3587-3591). `FirstLoad` and `RefreshRaceHappens` reach the race in every scan with two
  different beams, `ReceiveRaceHappens` in every scan of three periods; `RefreshBeforeCopy`, `RequestBeforeCopy` and
  `ReceiveBeforeCopy` say what is loaded then, and exactly when it is right nevertheless.
- SET_ACTIVE of another channel clears the flag "the last swing was not triggered" (4350); a period that was not
  triggered is then returned as valid, with stale samples and 0 sequences. `LostFlagHappens` reaches this in every scan;
  `LostInvalidFlag` and `DeliveredInOrder`: a result is valid exactly if its period was triggered or its flag was removed.
- With two clear frequency requests in flight a client may receive the answer to the other's request:
  `RepliesCanBeSwapped`; while samples are sent it may receive the answer to an earlier request: `StaleBandHappens`; with
  one request in flight it receives its own: `OwnReply`. The list of muted antennas is written without a lock:
  `MutedListNotProtected`.
- A restricted band that covers the whole search range is not masked: `CoveringBandNotMasked`, exactly then.
- The buffer of the search is too short for its samples or for a mask unless both limits of the range are equally far
  from the frequency grid: `AllocationSuffices`, with the ranges of `SamplesOverrun` and `MaskOverrun`.
- Masks are rounded from the start of the range, samples from frequency 0, so that a mask may end one sample early:
  `LostSample` says exactly when, `LostSampleReturned` is a search that returns restricted frequencies.
- The reservation failsafe, which "should not be needed", rejects a new band that is free exactly if another reservation
  begins where it ends: `NewBandFound`, `NeighbourRejected`. It lets a band through that engulfs another
  reservation: `FailsafeExact`, `EngulfingBandAccepted`. The fallback to the old reservation
  (cf_server/clear_frequency_server.c:1716-1724) is never taken, because that reservation was released before.
- The transmit worker truncates distances to 32 bits: `AimsRightIff`, `FarPulse`, `FarFirstPulse`. It needs room for a
  packet between two pulses: `SpacingIff`, `TooClose`. The padding of its buffer stays silent,
  pulses having no silent samples, exactly if every old pulse is cut off by the new layout or falls into one of its
  pulses: `PaddingIff`, `PaddingKeptIff`. It is lost when pulses become shorter and, unless they more than double, when
  they become longer: `LengthChanged`, `PaddingLost`, `PaddingLostLonger`.
- The mixing frequency may lie one step, 50 kHz, outside the hardware limits: `OvershootsIff`, `LimitOvershot`.
- A pulse at tick 0 of a sequence is not found: `SequenceDecoder.RoundTrip`.
- The maximal number of sequences can be negative, which makes the allocation of the offsets fail: `MaxNegativeIff`.
- SYNC comes once per sequence exactly if the pulses divide evenly into sequences: `OneWindowPerSequence`.
- `eval_client_return` without a radar may remove USRPs that did not fail: `ExactIff`.
- An amplitude of exactly 1 passes the clipping check of the transmit kernel but does not fit into 16 bits:
  `FitsInto16Bits`.

## Model

| member | source | states |
|---|---|---|
| SwingTheorems.RunKept | usrp_server/usrp_server.py:2589-3156 | every state of every race-free run of the control loop and the handler satisfies the pipeline invariant: every field of the channel, both swings, both queues and what each swing holds on the GPU, or that it holds nothing, are determined by the number of calls and the two positions |
| SwingTheorems.StepKept | usrp_server/usrp_server.py:2589-3156 | one access to shared state by the loop, the handler or another channel keeps the invariant, unless it is one of the two races |
| SwingTheorems.LoopKept | usrp_server/usrp_server.py:2629-3154 | every step of the control loop inside trigger_next_swing keeps the invariant |
| SwingTheorems.HandlerKept | usrp_server/usrp_server.py:3645-3653 | every step of SET_READY and GET_DATA keeps the invariant |
| SwingTheorems.AwaitedSwingFixed | usrp_server/usrp_server.py:3645-3650 | the swing SET_READY waits for does not change while it waits |
| SwingTheorems.ReadoutMatches | usrp_server/usrp_server.py:2794-2859 | whenever the processing swing is read out, the beam and frequency last loaded into it by CUDA_ADD are the current ones of the scan manager, and the swing on the air was loaded with the next ones |
| SwingTheorems.OldestResultReceivesData | usrp_server/usrp_server.py:2845-2854 | at most two results wait; the one that receives the samples is the oldest, has no data yet, and belongs to the swing at the end of the queue of triggered swings |
| SwingTheorems.DeliveredInOrder | usrp_server/usrp_server.py:4206-4215 | GET_DATA returns the beams from the start period on, each once and in order, labelled with their beam and frequency; a result is valid, with samples transmitted and beamformed with its label, exactly if its period was triggered or another channel removed the flag raised for it; untriggered periods have 0 sequences |
| SwingTheorems.ScanEnds | usrp_server/usrp_server.py:2934-2961 | when both threads rest, all N-s periods were returned in N-s+1 calls, the channel is removed and unloaded from both swings, no result is left, both swings are inactive, and one entry stays in the queue of triggered swings |
| SwingTheorems.NeverStuck | usrp_server/usrp_server.py:1885-1968 | until the scan has ended some step of the loop or the handler is possible that is not a race |
| SwingTheorems.StepsAdvance | usrp_server/usrp_server.py:2589-3156 | every step of the loop or the handler makes progress, and progress is bounded by the length of the scan |
| SwingTheorems.ScanTerminates | usrp_server/usrp_server.py:2589-3156 | however loop, handler and environment are scheduled, a scan takes at most 24 N + 31 steps of the two threads |
| SwingTheorems.PushInTime | usrp_server/usrp_server.py:3650-3651 | if no call of trigger_next_swing has begun in between, SET_READY queues the swing it has set to triggered |
| SwingTheorems.SetParametersWaits | usrp_server/usrp_server.py:3963-3982 | a SET_PARAMETERS behind the initial one has to wait exactly as long as the first SET_READY has not been sent |
| SwingRaces.QueueAfterPush | usrp_server/usrp_server.py:3645-3653 | the queue SET_READY leaves, for every number of calls that have begun in between: none, then the triggered swing is in front; one, then the other swing is; two, which is possible in the first round only, then the triggered swing is in front of the other one |
| SwingRaces.PushIff | usrp_server/usrp_server.py:3645-3653 | over every path of calls, steps of the loop and SET_ACTIVE of other channels, the queue has the triggered swing in front of those triggered before exactly if no call has begun in between; in the first round GET_DATA takes the triggered swing exactly then |
| SwingRaces.TwoCallsHappen | usrp_server/usrp_server.py:2629-3121 | in every scan two calls can begin in between, and the queue is then in the wrong order |
| SwingTheorems.FirstTrigger | usrp_server/usrp_server.py:3645-3653 | in every scan a run without races reaches the point between the two halves of SET_READY at which trigger_next_swing can start |
| SwingTheorems.RefreshBeforeCopy | usrp_server/usrp_server.py:3554-3575 | if GET_DATA refreshes the parameters between their calculation and their copy, the swing is loaded with the current parameters, which is right exactly if they equal those of the period to load |
| SwingTheorems.RequestBeforeCopy | usrp_server/usrp_server.py:4166-4170 | the same for GET_PARAMETERS |
| SwingTheorems.ReceiveBeforeCopy | usrp_server/usrp_server.py:3954-3985 | if SET_PARAMETERS receives in between, the swing is loaded with what was received, which is right exactly if it is what the next period needs |
| SwingTheorems.ReceiveRaceHappens | usrp_server/usrp_server.py:3954-3990 | every scan of at least three periods has a race-free run to a state in which SET_PARAMETERS or GET_PARAMETERS can come just before the copy |
| SwingTheorems.RefreshRaceHappens | usrp_server/usrp_server.py:3587-3591 | from the state FirstLoad reaches, one more step leads to that race with different parameters, in every scan whose first two beams differ |
| SwingTheorems.FirstLoad | usrp_server/usrp_server.py:2931-2967 | in every scan a run without races reaches the loading of the first call while GET_DATA is about to refresh the parameters |
| SwingTheorems.LostInvalidFlag | usrp_server/usrp_server.py:2769-2792 | the result of an untriggered period gets samples, and stays valid with 0 sequences, exactly if another channel removed the flag raised for it |
| SwingTheorems.LostFlagHappens | usrp_server/usrp_server.py:4350 | every scan has a race-free run in which its first period is not triggered and another SET_ACTIVE removes the flag before that period is read out |
| SwingInvariant.StoreLast | usrp_server/usrp_server.py:2845-2852 | the result that receives the samples has none yet: "Main beamformed data already exist" is unreachable |
| SwingInvariant.LoopNeverFails | usrp_server/usrp_server.py:2589-3156 | trigger_next_swing never indexes an empty result queue or a beam outside the scan |
| SwingInvariant.NewScanKept | usrp_server/usrp_server.py:2300-2366 | a new scan after any number of earlier ones starts with the invariant |
| SwingCall.RunCall | usrp_server/usrp_server.py:2589-3156 | the steps of one call end between two calls, keep the invariant, the scan and the handler, and count one call |
| SwingCall.CallEffect | usrp_server/usrp_server.py:2589-3156 | one call seen from outside: the swings change places; the period advances or, in the last one, the channel is removed; the swing on the air holds the current and the other one the next parameters, and from the last period on nothing; a fresh result is queued and the oldest is labelled with what was current, and filled unless flagged |
| SwingCall.PeriodAfter | usrp_server/usrp_server.py:2908-2972 | period, frequencies and registration after a call are functions of those before it |
| SwingCall.OldestFaithful | usrp_server/usrp_server.py:2845-2854 | after a call the oldest result is a faithful one of the period that was current when the call began |
| SwingCall.ScanReturned | usrp_server/usrp_server.py:4206-4215 | when all periods of a plan were returned, result j is exactly that of beam start+j with frequency j and the sequences asked for, and channel, queue and both swings, on the GPU as well, are as before a scan |
| UsrpServer.HardwareManager.TriggerNextSwing | usrp_server/usrp_server.py:2589-3156 | the method, with the fields of the source, performs exactly the steps RunCall describes, one method per step; as a whole it does what CallEffect says, unloading included; and it transmits unless the channel is in its last period and no other channel transmits |
| UsrpServer.HardwareManager.InitializeChannel | usrp_server/usrp_server.py:2300-2366 | the start of a scan: the first period is evaluated and loaded into the active swing, which becomes ready |
| UsrpServer.LiveScanManager.InitNewScan | usrp_server/usrp_server.py:1643-1671 | all fields of a new scan, without any clear frequency |
| UsrpServer.HardwareManager.ServePeriod | usrp_server/usrp_server.py:3645-3653 | SET_READY, one call, forced or not, and GET_DATA: returns the result of the period read out, triggers and queues the next one, and no thread waits |
| UsrpServer.HardwareManager.RunScan | usrp_server/usrp_server.py:2595-2604 | a whole scan, from initialize_channel to the last GET_DATA: returns exactly the planned results, period after period from the start period on, however the call behind the last period is made, removes the channel and unloads both swings, and leaves them inactive and the queue of results empty |
| ClearFreqTheorems.RunKept | cf_server/clear_frequency_server.c:963-1845 | every state of every run of any number of clients and the server satisfies the counting, turn and data invariants |
| ClearFreqTheorems.TurnConserved | cf_server/clear_frequency_server.c:965-975 | sf_client, the clients that write, sf_server and the turn of the server add up to one; at most one client writes, never while the server works; the fatal branch "No Clear Freq or Sample flag" is unreachable |
| ClearFreqTheorems.LocksExclude | cf_server/clear_frequency_server.c:1304-1307 | the clear frequency triple is never read while the server writes it, and no two clients hold the same lock |
| ClearFreqTheorems.ServedFromOneRequest | cf_server/clear_frequency_server.c:1312-1420 | however many requests are in flight, the values an answer takes from a request all come from one request, although radar and center frequency are written under two different locks |
| ClearFreqTheorems.OwnReply | usrp_server/usrp_server.py:1323-1368 | with at most one request in flight every client receives the answer to its own request, and the muted antennas are not read while they are written |
| ClearFreqAnswers.AnswersRestOnLatest | cf_server/clear_frequency_server.c:1072-1420 | however many requests are in flight, every answer is written with the samples and meta data of the send_samples whose turn came last, and for each other value with the one that the latest request gave which did not leave it out; with the value computed in this step |
| ClearFreqAnswers.LatestIs | cf_server/clear_frequency_server.c:1092-1110 | the latest value is that of the last request that gives one; later requests that leave it out do not matter |
| ClearFreqAnswers.OwnAnswer | usrp_server/usrp_server.py:1323-1368 | with at most one request in flight, what a client receives rests on the samples and meta data of the latest send_samples, and on the latest radar, frequency, beam and so on that any request gave, up to its own |
| ClearFreqTheorems.NoDeadlock | usrp_server/usrp_server.py:1186-1282 | as long as a request is unfinished, a client or the server can go on |
| ClearFreqTheorems.RequestsFinish | usrp_server/usrp_server.py:1186-1368 | every run of clients and server without new requests ends within the work that was outstanding |
| ClearFreqTheorems.WorkDecreases | cf_server/clear_frequency_server.c:963-1845 | every step of a client or of the server reduces the outstanding work |
| ClearFreqTheorems.ForeignReply | usrp_server/usrp_server.py:1347-1352 | a client that asks while the answer to another is not fetched yet can take that answer |
| ClearFreqTheorems.RepliesCanBeSwapped | usrp_server/usrp_server.py:1344-1368 | for any two clear frequency requests with different beams, a run in which the second client gets the answer to the first request |
| ClearFreqTheorems.MutedListNotProtected | cf_server/clear_frequency_server.c:1115-1158 | for any two send_samples, a run in which the first client reads the muted antennas while the server writes those of the second |
| ClearFreqTheorems.StaleBandTaken | usrp_server/usrp_server.py:1355-1368 | with one send_samples and one clear frequency request in flight, from any state without requests in flight: a run in which the latter takes the completion of the former and returns the band that was in shared memory before |
| ClearFreqTheorems.StaleBandHappens | usrp_server/usrp_server.py:1344-1368 | a run in which this is the answer to an earlier request for another beam |
| ClearBandSearch.Convolve | cf_server/clear_freq_search.c:174-182 | result i times w is the sum of the w samples from i on, for every start but the last one |
| ClearBandSearch.SumAdds | cf_server/clear_freq_search.c:177-179 | the sum of one sample is the sample and sums of adjacent parts add up, which determines it |
| ClearBandSearch.MeanBetween | cf_server/clear_freq_search.c:180 | the mean times w is the sum, and lies between the least and the greatest sample of the window |
| ClearBandSearch.MaskRestricted | cf_server/clear_freq_search.c:221-300 | exactly the samples covered by a band with an endpoint in the search range, or by an IF alias of an own reservation, become RAND_MAX; all others keep their value and nothing outside the array is written |
| ClearBandSearch.MaskBelow | cf_server/clear_freq_search.c:258-275 | the aliases below a band are masked as far as they reach into the range, although the loop stops at the first one outside |
| ClearBandSearch.MaskAbove | cf_server/clear_freq_search.c:277-294 | the same for the aliases above |
| ClearBandSearch.Fill | cf_server/clear_freq_search.c:247 | the samples between the limits become RAND_MAX, in bounds |
| ClearBandSearch.MaskInBounds | cf_server/clear_freq_search.c:238-247 | every sample a mask covers lies in the array, although the loop bound admits one more |
| ClearBandSearch.Trim | cf_server/clear_freq_search.c:386-402 | every sample is the spectrum plus the attenuated power at its aliases |
| ClearBandSearch.Choose | cf_server/clear_freq_search.c:414-471 | scan and hysteresis return the band that IsChosen determines from sums of samples: the first eligible window with the least sum, or the previous band if 0.9 times its noise is below |
| ClearBandSearch.FindClearFreqs | cf_server/clear_freq_search.c:338-493 | the search leaves the masked, trimmed samples in its buffer and returns the band chosen from them in this way |
| ClearBandSearch.SelectedIsChosen | cf_server/clear_freq_search.c:414-471 | the selected band satisfies the declarative choice |
| ClearBandSearch.ChosenUnique | cf_server/clear_freq_search.c:414-471 | which only one band does |
| ClearBandSearch.NoiseBetween | cf_server/clear_freq_search.c:436-471 | the noise returned lies between the least and the greatest sample of the returned band, also for a previous band of one window inside the range |
| ClearBandSearch.BestIsLeast | cf_server/clear_freq_search.c:440-453 | the strict minimum scan finds the first window with the least mean among those above 0 and below RAND_MAX |
| ClearBandSearch.NearlyLeast | cf_server/clear_freq_search.c:436-471 | with m the least mean of all eligible windows, the returned noise q is m at its first index, or the previous band was kept and 0.9 q < m |
| ClearBandSearch.NothingEligible | cf_server/clear_freq_search.c:431-434 | without an eligible window the whole range is returned at RAND_MAX, or the previous band |
| ClearBandSearch.MaskedBandsAvoided | cf_server/clear_freq_search.c:221-251 | under the quiet window hypothesis, the returned band shares with a restricted or reserved band that has an endpoint in the search range at most the frequencies of one sample at its upper end; none if the range begins, or the band ends, on the frequency grid |
| ClearBandSearch.AliasesAvoided | cf_server/clear_freq_search.c:253-294 | the same for the reservations of the two channels of the own radar and all their IF aliases |
| ClearBandSearch.AliasedAre | cf_server/clear_freq_search.c:254-256 | exactly the reservations of the two channels of the own radar have aliases, unless a limit is 0 |
| ClearBandSearch.LostSample | cf_server/clear_freq_search.c:239-247 | a mask leaves out a sample that has frequencies of the band exactly if it is the one after the last sample written and starts at or below the upper end of the band, up to the distance of the range from the grid |
| ClearBandSearch.LostSampleReturned | cf_server/clear_freq_search.c:239-247 | a search at 13 MHz whose result shares 2 kHz with a restricted band, at every intermediate rate from 250 kHz on |
| ClearBandSearch.AllocationSuffices | cf_server/clear_freq_search.c:646-653 | the buffer of (f_end - f_start) / delta_f elements holds all samples exactly if the remainder of f_start is not above that of f_end, and no mask of any band leaves it exactly if the remainders are equal |
| ClearBandSearch.SamplesOverrun | cf_server/clear_freq_search.c:386-388 | 10155 to 10600 kHz at 10 MHz: 28 samples are written into 27 elements |
| ClearBandSearch.MaskOverrun | cf_server/clear_freq_search.c:247 | 10155 to 10655 kHz: the samples fit, but a restricted band from 10652 to 10654 kHz is written behind them |
| ClearBandSearch.CoveringBandNotMasked | cf_server/clear_freq_search.c:227-228 | a restricted band that shares frequencies with the range is considered for masking exactly if it does not strictly cover the range; otherwise no sample is masked |
| ClearBandLaws.SampleFrequency | cf_server/clear_freq_search.c:357-388 | the power of a frequency in the range is read from a sample of the spectrum that lies less than a sample distance away |
| ClearBandLaws.CutIs | cf_server/clear_freq_search.c:357-369 | the spectrum lies between center minus and plus half the rate, and the search looks exactly at the samples of it that end above the lower and not above the upper limit |
| ClearBandLaws.WholeRange | cf_server/clear_freq_search.c:434-437 | the band returned when nothing is found is the searched range, to a sample distance, at RAND_MAX |
| ClearBandLaws.WindowWidth | cf_server/clear_freq_search.c:353 | a window is as wide as asked for, rounded up to whole samples |
| ClearBandLaws.PreviousSamples | cf_server/clear_freq_search.c:372-380 | the samples of the previous band are those in the range that end above its start and not above its end |
| ClearBandLaws.AliasDistance | cf_server/clear_freq_search.c:259-282 | alias k lies k intermediate rates away, rounded down to Hz for masks and to samples for power |
| ClearBandLaws.AliasCount | cf_server/clear_freq_search.c:383 | the number of aliases is the least one that covers the spectrum |
| ClearBandLaws.OnlyNearMasked | cf_server/clear_freq_search.c:221-294 | no sample is masked that does not share frequencies with a band, or with an alias of an own reservation |
| ClearBandLaws.TrimmedImpulse | cf_server/clear_freq_search.c:386-402 | each sample of the spectrum contributes its power to itself, a thousandth of it to the samples whose alias it is, and nothing to the others |
| ClearBandLaws.TrimmedAdds | cf_server/clear_freq_search.c:386-402 | contributions add up |
| Reservations.Server.HandleRequest | cf_server/clear_frequency_server.c:1498-1726 | a request releases the own reservation, expires old ones, and reserves the found band unless it is flagged; table, mirror, band and reply are those of the specification |
| Reservations.Server.ReleaseSlot | cf_server/clear_frequency_server.c:1507-1514 | a slot is released in the table and in the restricted list |
| Reservations.Server.ExpireOld | cf_server/clear_frequency_server.c:1516-1535 | exactly the reservations older than 10 s are released, in both lists |
| Reservations.Server.Intersects | cf_server/clear_frequency_server.c:1654-1672 | the failsafe compares with the reservations of the current radar |
| Reservations.Server.constructor | cf_server/clear_frequency_server.c:823-875 | table and reserved slots start empty, the file bands in front |
| Reservations.FailsafeExact | cf_server/clear_frequency_server.c:1661-1662 | the failsafe lets through exactly the disjoint bands that do not end where the reserved one begins, and those that engulf it |
| Reservations.RequestEffect | cf_server/clear_frequency_server.c:1498-1726 | the band of the search, or the one left from an earlier request, is reserved with the searched range and the current time, and returned, exactly if its noise is neither 0 nor RAND_MAX, it does not end at 0, and the other channel of the radar does not hold it; otherwise the own reservation is gone |
| Reservations.OthersKept | cf_server/clear_frequency_server.c:1516-1535 | every other reservation stays as it is unless it is older than 10 s |
| Reservations.RequestKept | cf_server/clear_frequency_server.c:1498-1726 | with bands of one width a request keeps the mirror and the disjointness |
| Reservations.RunKept | cf_server/clear_frequency_server.c:1498-1726 | over every run the reserved slots mirror the table and the reservations of one radar are pairwise disjoint, even when the band is stale |
| Reservations.SearchRunKept | cf_server/clear_frequency_server.c:1498-1726 | the same for runs whose bands come from the search, whatever the spectra are: bandwidth and resolution fix the width |
| Reservations.FileBandsKept | cf_server/clear_frequency_server.c:1498-1726 | the bands read from the file are never touched |
| Reservations.NoneOlder | cf_server/clear_frequency_server.c:1516-1535 | after a request no other reservation is older than 10 s, the others are unchanged, and the own one is the band sent back |
| Reservations.StaleBandRejected | cf_server/clear_frequency_server.c:1658-1680 | a stale band is rejected as soon as another channel of the radar holds it |
| Reservations.EngulfingBandAccepted | cf_server/clear_frequency_server.c:1661-1662 | a band that engulfs a reservation is accepted, and the table is not disjoint any more |
| Reservations.SelectedWidth | cf_server/clear_freq_search.c:442-443 | a usable band the search returns is as wide as its windows |
| Reservations.GridRunKept | cf_server/clear_frequency_server.c:1498-1726 | over every run in which each search gets the cleaned restricted list and the own reservation, all reservations begin and end on the frequency grid |
| Reservations.NewBandDisjoint | cf_server/clear_frequency_server.c:1656-1672 | the band such a search returns is disjoint from every other reservation of the radar, and the failsafe flags it for one exactly if it ends where that begins |
| Reservations.NewBandFound | cf_server/clear_frequency_server.c:1650-1696 | a new band is reserved and returned exactly if it is usable and no other reservation of the radar begins where it ends |
| Reservations.NeighbourRejected | cf_server/clear_frequency_server.c:1661-1662 | a band that only touches a reservation is rejected |
| TxWorker.Transmit | usrp_driver/tx_worker.cpp:58-118 | the samples sent on every side have length offset[last]+L-1 and are the pulse train: pulse p at offset[p], silence elsewhere; packets are in bounds, not longer than spb, the first starts the burst and the last, empty one ends it; short sends included |
| TxWorker.Locate | usrp_driver/tx_worker.cpp:77-98 | for any pulse times: length and buffer position of the next packet, or that the current pulse is over, as Decide says with the 32 bit conversions of the source |
| TxWorker.Located | usrp_driver/tx_worker.cpp:77-98 | while pulses are far enough apart and gaps fit into 32 bits, the packet starts at the right place of the block of its pulse, or in the first padding, or the pulse is really over |
| TxWorker.AimsRightIff | usrp_driver/tx_worker.cpp:81-88 | one packet is aimed as without conversions exactly if the distance is below 2^31, or is truncated to one out of reach as well, or to exactly the length of a full packet for pulse 0 |
| TxWorker.FarPulse | usrp_driver/tx_worker.cpp:81-98 | what happens to a pulse 2^31 to 2^32+2^31 samples away: at 2^31 the worker reads far behind the block, then the pulse is skipped, then sent 2^32 samples early, then handled right |
| TxWorker.FarFirstPulse | usrp_driver/tx_worker.cpp:81-98 | the first step of the loop with such a first pulse |
| TxWorker.Send | usrp_driver/tx_worker.cpp:100-117 | one send on all sides, of which at least one sample is accepted, continues every pulse train |
| TxWorker.PacketInBlock | usrp_driver/tx_worker.cpp:86-88 | a packet from the padding before a pulse or from inside it is in bounds and sends what is due |
| TxWorker.SilentPacket | usrp_driver/tx_worker.cpp:95-98 | a packet from the first padding sends what is due while no pulse is in reach |
| TxWorker.BeginsUnique | usrp_driver/tx_worker.cpp:58-118 | the pulse train determines the samples: the specification leaves no choice |
| TxWorker.DistanceFits | usrp_driver/tx_worker.cpp:81-82 | if from the end of each pulse the next one is less than 2^31 samples away, no distance is truncated |
| TxWorker.Driver.Setup | usrp_driver/usrp_driver.cpp:835-848 | sample r of pulse p, at p L + r in shared memory, is copied to spb + p (L + 2 spb) + r on every side, everything else is what resize left; silent paddings stay silent while the pulse length is unchanged |
| TxWorker.Driver.SetupAndTransmit | usrp_driver/usrp_driver.cpp:835-848 | from USRP_SETUP to the end of the burst: sample k sent on a side is sample p L + k - offset[p] of its shared memory while pulse p is due, and silence when none is; the buffer is ready for the next period |
| TxWorker.PackSide | usrp_driver/usrp_driver.cpp:839-847 | one side after resize and all memcpys, sample by sample of shared memory |
| TxWorker.HoldsIsCopied | usrp_driver/usrp_driver.cpp:845-846 | a buffer that holds the pulses holds sample p L + r of shared memory at spb + p (L + 2 spb) + r |
| TxWorker.TrainSent | usrp_driver/tx_worker.cpp:58-118 | the pulse train sample by sample in terms of shared memory |
| TxWorker.PaddingIff | usrp_driver/usrp_driver.cpp:840 | after USRP_SETUP of any buffer the padding is silent exactly if every old sample that is not silent and not cut off lies where the new layout has a pulse |
| TxWorker.PaddingKeptIff | usrp_driver/usrp_driver.cpp:840 | for a buffer packed with loud pulses: exactly if every old pulse is cut off or falls into one new pulse, a condition on the numbers and lengths of the old and the new pulses |
| TxWorker.LengthsNested | usrp_driver/usrp_driver.cpp:840 | with two pulses or more before and after, that condition holds if the length is the same, and otherwise at most if the new length is at least twice the old one plus two packets |
| TxWorker.LengthChanged | usrp_driver/usrp_driver.cpp:840 | so if the new length is below that, the padding stays silent exactly if the length does not change |
| TxWorker.PaddingSurvivesResize | usrp_driver/usrp_driver.cpp:840 | resize does so if the buffer was last packed with pulses of the same length, however many |
| TxWorker.PaddingLost | usrp_driver/usrp_driver.cpp:840 | it does not when the pulses become shorter and the old first pulse is not silent behind the new one |
| TxWorker.PaddingLostLonger | usrp_driver/usrp_driver.cpp:840 | nor when they become longer by at most two packets and the second pulse does not begin silently |
| TxWorker.SpacingIff | usrp_driver/tx_worker.cpp:77-118 | for pulses that do not overlap, fit into 32 bits and do not begin silently: whatever send accepts, what is sent is the pulse train, if and only if between the end of each pulse and the next one there is room for spb - 1 samples |
| TxWorker.SlowRun | usrp_driver/tx_worker.cpp:77-118 | when send accepts one sample at a time the loop reaches every position with the right pulse |
| TxWorker.TooClose | usrp_driver/tx_worker.cpp:86-88 | from the last sample of a pulse the loop can send a packet that is silent where the next pulse begins |
| GpioTiming.SendTiming | usrp_driver/dio.cpp:236-372 | the commands issued are a permutation, sorted by time, of the commands queued for all pulses |
| GpioTiming.PushPulse | usrp_driver/dio.cpp:296-327 | the commands of one pulse, pushed with one reused structure |
| GpioTiming.Drain | usrp_driver/dio.cpp:363-373 | the queue is drained in the order of time, equal times in any order |
| GpioTiming.GateFollowsPulses | usrp_driver/dio.cpp:317-327 | replaying the masked writes, TR_TX is high exactly on the union of the pulse intervals from the first pulse on, and TR_RX is its complement |
| GpioTiming.SyncFollowsSequences | usrp_driver/dio.cpp:298-311 | SYNC is high exactly from 0.5 to 0.4 ms before pulse m k for some sequence m |
| GpioTiming.OneWindowPerSequence | usrp_driver/dio.cpp:262 | there is one SYNC window per sequence exactly if the number of pulses is divisible by the number of sequences |
| GpioTiming.Decided | usrp_driver/dio.cpp:366-367 | the level of a pin is that of the latest command that has changed it |
| GpioTiming.SamplesInGate | usrp_driver/usrp_driver.cpp:928-931 | a sample lies in a pulse of the train exactly if its time lies in a pulse of the gate |
| GpioTiming.SilentWhileClosed | usrp_driver/usrp_driver.cpp:928-980 | from the first pulse on, the transmit worker sends silence whenever the gate is closed |
| PeriodSchedule.PeriodDetails.CalcPeriodDetails | usrp_server/usrp_server.py:2461-2586 | number of sequences, samples and offsets of a period; the allocation fails exactly if the maximal number of sequences is negative, otherwise it is not exceeded |
| PeriodSchedule.SequencesFit | usrp_server/usrp_server.py:2478-2492 | the sequences fit into the time left to the end of the period and to every scan boundary, and one more would not |
| PeriodSchedule.NeverMoreThanMax | usrp_server/usrp_server.py:2492-2495 | never more sequences than the maximum, unless that is negative |
| PeriodSchedule.MaxSequencesIs | usrp_server/usrp_server.py:2493-2495 | the maximum is what fits into the whole period, truncated towards zero |
| PeriodSchedule.MaxNegativeIff | usrp_server/usrp_server.py:2493-2495 | the maximum is negative exactly if the overhead exceeds the duration by a sequence or more |
| PeriodSchedule.SequencesPadded | usrp_server/usrp_server.py:2563-2567 | between the beginning of the last pulse of a sequence and the first pulse of the next lie a pulse and the padding, up to one sample |
| PeriodSchedule.PulseOffsets | usrp_server/usrp_server.py:2563-2567 | the array holds the rounded position of every pulse of every sequence |
| PeriodSchedule.PulseTime | usrp_server/usrp_server.py:2563-2567 | pulse j of sequence i is placed i periods and its own offset after the first sequence, to half a sample |
| PeriodSchedule.GridIs | usrp_server/usrp_server.py:2555-2559 | period, offsets and padded pulse length in RF samples are those in seconds times the RF rate |
| PeriodSchedule.ScheduleTimed | usrp_server/usrp_server.py:2563-2567 | the scheduled offsets meet what the transmit worker needs |
| PeriodSchedule.FilteredInverts | cuda_driver/cuda_driver.py:762-763 | the filter arithmetic of rx_init inverts that of the scheduler |
| PeriodSchedule.FilteredIs | cuda_driver/cuda_driver.py:762-763 | a filter leaves as many samples as there are windows of its length at the distance of its downsampling rate |
| PeriodSchedule.BasebandRecovered | cuda_driver/cuda_driver.py:761-763 | CUDA recovers exactly the baseband samples of all sequences from the requested RF samples; none are requested for no sequence |
| PeriodSchedule.SlicesInBounds | usrp_server/usrp_server.py:4280-4290 | every slice sent back lies in these samples, and slices are disjoint |
| TxKernel.OutputIndexIs | cuda_driver/tx_cuda.cu:67 | the output index is the nested position of antenna, pulse, sample and upsampling step |
| TxKernel.OutputInBounds | cuda_driver/tx_cuda.cu:114-115 | every write is in bounds |
| TxKernel.OutputInjective | cuda_driver/tx_cuda.cu:67 | no two threads write the same cell |
| TxKernel.OutputSurjective | cuda_driver/tx_cuda.cu:67 | every cell is written by some thread |
| TxKernel.InputIndexIs | cuda_driver/tx_cuda.cu:66 | the input index is the nested position of antenna, channel, pulse and sample |
| TxKernel.InputInBounds | cuda_driver/tx_cuda.cu:71-79 | every read is in bounds; that of the next sample exactly unless it is the very last row, which does not do it |
| TxKernel.NextSample | cuda_driver/tx_cuda.cu:71-78 | which sample the lookahead reads, in particular behind the last sample of a pulse, of a channel and of an antenna |
| TxKernel.InterpolatedIs | cuda_driver/tx_cuda.cu:71-79 | upsampling step u of n lies u parts from a sample towards the next one in memory, or towards 0 behind the very last row |
| TxKernel.TurnedBack | cuda_driver/tx_cuda.cu:81-91 | turning the value of a channel back by the phase of its own oscillator gives the interpolated input |
| TxKernel.FirstPhaseRaceFree | cuda_driver/tx_cuda.cu:85-91 | before the barrier every thread writes its own cell of shared memory, below 1024 |
| TxKernel.SecondPhaseRaceFree | cuda_driver/tx_cuda.cu:98-102 | behind it no other thread touches the cell a thread adds up |
| TxKernel.MixChannels | cuda_driver/tx_cuda.cu:65-91 | shared memory holds the values of all channels |
| TxKernel.SumChannels | cuda_driver/tx_cuda.cu:98-102 | a thread of the first row leaves the sum over all channels |
| TxKernel.SumOfOne | cuda_driver/tx_cuda.cu:98-102 | a channel that is alone is the sum |
| TxKernel.SumsAdd | cuda_driver/tx_cuda.cu:98-102 | sums of channels add up |
| TxKernel.RunBlock | cuda_driver/tx_cuda.cu:35-117 | a block leaves the quantized sums in its own output cells and changes no others |
| TxKernel.RunGrid | cuda_driver/tx_cuda.cu:35-117 | whatever the order of the blocks, every output cell holds the quantized sum over the channels |
| TxKernel.FitsInto16Bits | cuda_driver/tx_cuda.cu:104-115 | up to amplitude 1 the result fits into 16 bits exactly below 1 |
| TxKernel.QuantizedIs | cuda_driver/tx_cuda.cu:114-115 | amplitudes times 32768 are rounded towards zero |
| MixingFreq.MixingFreqManager.AddNewFreqBand | usrp_server/usrp_server.py:430-536 | rejected exactly if the range exceeds the limits, no mixing frequency holds all channels in the bandwidth, or none of the 1001 frequencies tried fits; then nothing changes but that a channel known before is forgotten; otherwise the new frequency is the first one tried that fits all ranges, and the lists are extended; other radars are unchanged |
| MixingFreq.Adjust | usrp_server/usrp_server.py:486-519 | the loop ends with the first frequency that fits among the start and 1000 shifts, down and then up; or gives up because none of them fits |
| MixingFreq.Shift | usrp_server/usrp_server.py:493-516 | one range: afterwards it fits, and a cleared flag still means checked against the current frequency |
| MixingFreq.MixingFreqManager.FindStart | usrp_server/usrp_server.py:455-481 | the current frequency if the channel lies in its bandwidth; nothing exactly if no mixing frequency holds all channels; otherwise the frequency equally far from the lowest and the highest one, moved inside the hardware limits |
| MixingFreq.StartIs | usrp_server/usrp_server.py:455-481 | the specification of the start is the declarative one |
| MixingFreq.NoRoomIff | usrp_server/usrp_server.py:459-476 | with all known channels in the current bandwidth, a channel is rejected for lack of bandwidth exactly if no mixing frequency holds all of them |
| MixingFreq.FitsIff | usrp_server/usrp_server.py:493-496 | a range fits exactly if all its frequencies are at least 50 kHz and at most half the bandwidth away |
| MixingFreq.MixingFreqManager.GetUniqueRanges | usrp_server/usrp_server.py:553-584 | the sorted ranges of the channel and of the other channels, each once; the list of the channel itself is extended by those of the others |
| MixingFreq.AdjustStep | usrp_server/usrp_server.py:493-516 | one shift keeps the invariant of the loop; after 1000 attempts between limits at most 24925 kHz apart, no candidate inside the limits or one step outside fits |
| MixingFreq.GivesUpIff | usrp_server/usrp_server.py:511-516 | the loop gives up exactly if no candidate inside the limits or one step outside fits, that is, if there is no first fitting candidate |
| MixingFreq.AddedOnce | usrp_server/usrp_server.py:430-536 | answer and new state of every call are determined by its input |
| MixingFreq.AddedState | usrp_server/usrp_server.py:439-445 | a channel that was known before starts anew, alone; a new one is added to the others; a rejected call keeps the mixing frequency |
| MixingFreq.FirstFittingUnique | usrp_server/usrp_server.py:486-519 | the result is determined |
| MixingFreq.NoNeedlessMove | usrp_server/usrp_server.py:493-496 | the frequency moves exactly if the start does not fit |
| MixingFreq.StartsInside | usrp_server/usrp_server.py:477-481 | the search starts inside the limits if they are at least half the bandwidth apart |
| MixingFreq.OvershootsIff | usrp_server/usrp_server.py:504-507 | the new frequency lies outside the hardware limits exactly if the first candidate below them fits before any other, or no candidate inside them fits |
| MixingFreq.LimitOvershot | usrp_server/usrp_server.py:504-507 | a channel from 8030 to 12650 kHz at 12680 kHz moves the frequency to 7980 kHz, below the limit of 8000 kHz, although 12730 kHz fits |
| MixingFreq.SortedUniqueIs | usrp_server/usrp_server.py:566-582 | exactly the given ranges, strictly ascending |
| MixingFreq.AddedKeeps | usrp_server/usrp_server.py:523-525 | a call keeps the state consistent and no range is lost |
| MixingFreq.HistoryConsistent | usrp_server/usrp_server.py:430-536 | over every history of calls the ranges of all remembered channels fit the mixing frequency |
| MixingFreq.ChannelsCovered | usrp_server/usrp_server.py:539-550 | in a consistent state every channel lies inside the USRP bandwidth |
| SequenceDecoder.RegisterSequence | usrp_server/usrp_server.py:3718-3774 | offsets, delay, pulses, lengths and phase masks are those of the expanded ticks, as DecodedIs states them |
| SequenceDecoder.DecodedIs | usrp_server/usrp_server.py:3724-3774 | fails exactly if at most three ticks are samples, or no gate or no pulse begins behind tick 0; otherwise the offsets are the beginnings of the gates, the pulses the runs of the pulse bit with their lengths and the phase bit of each tick, and the first pulse begins gateToPulse after the first gate |
| SequenceDecoder.MaskIs | usrp_server/usrp_server.py:3725-3729 | the bits of a tick that mark samples, gate, pulse and phase |
| SequenceDecoder.Expand | usrp_server/usrp_server.py:3718-3722 | the run-length code is expanded |
| SequenceDecoder.ExpandedAt | usrp_server/usrp_server.py:3718-3722 | entry i fills the ticks between the sums of the counts before and after it |
| SequenceDecoder.RisingEdgeIdx | usrp_server/usrp_server.py:3660-3663 | the edges are the indices more than one above their predecessor, without 0 |
| SequenceDecoder.PulseLen | usrp_server/usrp_server.py:3667-3673 | the length of the run at a tick |
| SequenceDecoder.PulsesAreRuns | usrp_server/usrp_server.py:3743-3766 | the pulses are exactly the maximal runs of the bit that do not begin at tick 0 |
| SequenceDecoder.PulsesInOrder | usrp_server/usrp_server.py:3743-3766 | in order, with at least one tick between them |
| SequenceDecoder.RoundTrip | usrp_server/usrp_server.py:3660-3673 | rebuilding the bits from edges and lengths returns the mask exactly if tick 0 is low |
| UsrpConnections.UsrpSockManager.ConfigureAll | usrp_server/usrp_server.py:189-233 | with the lists of each radar equally long, every configured antenna is among the connected or the other USRPs; every configured USRP is there once, with the address and driver of its first line and its antennas in the order of the lines, and is connected exactly if it was not refused when that line was read |
| UsrpConnections.UsrpSockManager.Configure | usrp_server/usrp_server.py:189-233 | one line of the configuration adds its antenna to the USRP with this host, connected or not; a new host is connected with a new socket, or listed with its address if it refuses; nothing else changes |
| UsrpConnections.LineRead | usrp_server/usrp_server.py:189-233 | one more line keeps what is said about all lines read so far |
| UsrpConnections.UsrpSockManager.RemoveSock | usrp_server/usrp_server.py:250-273 | the USRP moves from the end of one set of lists to the other, which stay parallel |
| UsrpConnections.UsrpSockManager.EvalClientReturn | usrp_server/usrp_server.py:276-299 | exactly the USRPs whose own return was an error are removed, in order, and no antenna is lost |
| UsrpConnections.UsrpSockManager.EvalAllReturns | usrp_server/usrp_server.py:282-299 | the same loop without a radar, as far as indices are in range; no antenna is lost |
| UsrpConnections.ExactIff | usrp_server/usrp_server.py:286-299 | without a radar exactly the failed sockets are removed if and only if one failed or all failures lie in a radar before which there are no sockets |
| UsrpConnections.OneRadarIsFirst | usrp_server/usrp_server.py:286-299 | which is so if there is one radar |
| UsrpConnections.SecondFailureWrong | usrp_server/usrp_server.py:294-299 | otherwise a failed socket stays |
| UsrpConnections.UsrpSockManager.RestoreLostConnections | usrp_server/usrp_server.py:350-409 | not more often than every 60 s every lost USRP is connected again or stays lost, in order, and no antenna is lost |
| UsrpConnections.UsrpSockManager.History | usrp_server/usrp_server.py:189-409 | after any sequence of failures, of one radar or all, and reconnections, the lists are parallel and every configured antenna is known; one configured once is on a connected or a lost USRP, not on both |
| UsrpConnections.InExactlyOne | usrp_server/usrp_server.py:189-233 | an antenna counted once is connected or lost, not both |
| AntennaPower.MuteAntennas | cf_server/clear_frequency_server.c:1118-1158 | an antenna is active exactly if it was marked, the client decodes the ascending list of those that are not, and the active ones of the main array are counted |
| AntennaPower.MarkActive | cf_server/clear_freq_search.c:1329-1358 | exactly the antennas with enough power that are not muted by configuration are marked and counted |
| AntennaPower.MarkedMeans | cf_server/clear_freq_search.c:1329-1358 | an antenna is marked exactly if it is not muted and receives at least a tenth of the mean power of its array, or a power of 1 if that mean is not positive |
| AntennaPower.MarksAre | cf_server/clear_freq_search.c:1329-1358 | an antenna is counted once for every entry of the list that is marked |
| AntennaPower.GroupMeans | cf_server/clear_freq_search.c:1294-1315 | mean powers of main and interferometer array without the muted antennas |
| AntennaPower.GroupMeanIs | cf_server/clear_freq_search.c:1294-1315 | the mean of an array times the number of its unmuted antennas is the sum of their powers |
| AntennaPower.GroupChanged | cf_server/clear_freq_search.c:1294-1315 | changing the power of one antenna changes that sum by the difference exactly if it is an unmuted one of the array |
| AntennaPower.AveragePower | cf_server/clear_freq_search.c:1271-1288 | mean power of an antenna |
| AntennaPower.PowerChanged | cf_server/clear_freq_search.c:1271-1288 | changing one sample changes the power of an antenna by the difference if the sample is one of its own |
| AntennaPower.AverageBetween | cf_server/clear_freq_search.c:1271-1288 | n times the average is the sum of the powers, and the average lies between the least and the greatest of them |
| AntennaPower.NeverSilenced | cf_server/clear_freq_search.c:1314-1358 | some antenna of an array is marked exactly if the mean power of its unmuted antennas is positive |
| AntennaPower.CollectMuted | cf_server/clear_frequency_server.c:1132-1148 | the antennas that are not active, in ascending order, and the number of active antennas of the main array |
| AntennaPower.ActiveCountIs | cf_server/clear_frequency_server.c:1132-1148 | the counter of the loop is the number of active antennas of the main array |
| AntennaPower.WriteInt | cf_server/clear_frequency_server.c:350-364 | the elements, then -1 to the end of the shared memory |
| AntennaPower.ReadData | usrp_server/usrp_server.py:1045-1066 | everything but the negative elements |
| AntennaPower.RoundTrip | cf_server/clear_frequency_server.c:350-364 | the client decodes what the server wrote exactly if no element is negative |
| AntennaPower.SomebodyLeft | cf_server/clear_frequency_server.c:1118-1158 | the list sent never contains every antenna of an array that receives any power |

## Left out

- Sockets, UHD, shared memory set-up, logging, file formats, configuration parsing, process control and plotting tools: outcomes of connections and sends are parameters or nondeterministic.
- FFT, beam phasing and filter design: spectra, phases and beamformed samples are given values.
- Floating point: power, time and frequency are real numbers, so rounding inside `double` and `float` is not modelled; conversions to integers are. Integer overflow is modelled only where the transmit worker truncates to 32 bits.
- The swing pipeline follows one channel in one process. Other channels may keep the radar transmitting, decide by the clock that a swing is not triggered, run calls while the channel is not registered, and clear the invalid flag.
- Camping scans (one beam), SET_INACTIVE and QUIT in the middle of a scan, and timeouts of waiting states.
- SwingRaces.PushIff: leaves out calls made for other channels after this one was removed, because the entry queued then is never taken.
- SET_READY and GET_DATA of `UsrpServer.HardwareManager` run when they need not wait; the order in which the control program and the control loop take turns in `RunScan` is one of those SwingTheorems covers.
- The clear frequency of the first period is evaluated by initialize_channel. If SET_PARAMETERS does it, evaluate_clear_freq waits for set_par_semaphore, which its caller holds (usrp_server/usrp_server.py:1748): this path is not modelled.
- The Booleans `fired` and `lost` of a result, `flagCleared` and the log of delivered results exist only in the model, for statements.
- Single Python statements are atomic, a list access and the test that follows it in the same statement being one step; and update_ctrlprm_class, which is several statements, is one step: two threads do not interleave inside it here.
- The clear frequency client always sends samples (`raw_samples` is not None) and at least one antenna, and writes its meta data each time; the source skips writing them when this client has not changed them, and reallocates shared memory when their size changes.
- Reads and writes of one shared memory object are one step each; that they do not overlap is what the lock theorems state.
- The result a server computes for a request is an arbitrary number in the protocol model; ClearBandSearch and Reservations model the computation.
- Per-range averaged spectra: the source reads them without the index of the range (cf_server/clear_frequency_server.c:1609) and does not wrap the index of the range it overwrites (1463).
- Disjointness of reservations across radars: the failsafe compares with the current radar only (cf_server/clear_frequency_server.c:1658).
- `clr_freq_vector` of the search, which only goes into log files, and the accumulated powers of the antennas.
- Fixed frequencies among several ranges, for which get_unique_ranges builds nested lists; ranges given with their limits swapped, which it turns round; and that get_unique_ranges may return the channel's own list object, so that a later extension of it would show in both places.
- The semaphore of the mixing frequency manager; its methods run one at a time here.
- The transmit worker's sleeping, its wait for the burst acknowledgement, and the two copies of the buffer.
- The mimic target commands of the GPIO queue, which are compiled out, and the single SYNC pulse at the start of the period, which is selected by a constant that is set the other way.
- Blocks of the transmit kernel run one after the other in any order, and the threads of a block in turn up to the barrier; that they do not touch each other's cells is proved, so any interleaving has the same result.
- Filling the shared memory of lost antennas with zeros, the watchdog, fault status and the resynchronisation after a reconnection.
- ActiveMute off: the constant USE_ACTIVE_MUTE is 1, so the branch that mutes only by configuration is not modelled.
