# Perftest Lite: verified model of the measurement protocol

A Dafny 4.11 model of Perftest Lite's publisher/subscriber measurement protocol, with the parts it rests
on: the latency history, the take loop, the loan-based writer, the bounded sample type, the QNX clock and
the command-line parser. `dafny verify dfyconfig.toml` checks the project.

## How the model is built

- **Two layers.** Each callback and loop of the C code is a method of a class (`SubCtx`, `PubCtx`,
  `PerftestSample`, `Writer`) or a free method with a loop, proved against a specification function.
  The same functions are the moves of `Protocol`, a step system of both nodes, the two channels, the
  binary semaphore and the clock. `LoopRefinement` proves that the publisher of every run is the
  imperative send loop on some script of its environment.
- **Runs.** A run is a sequence of labelled steps (`Protocol.Step`); a label fixes every choice the
  environment makes: the clock advance, the outcome of a write, which callback runs, what a channel
  loses. `Reaches(c, steps, s)` says the steps form a run that ends in `s`; statements about every run
  quantify over `steps`. The `Audit` record holds history variables that steer nothing; `Traces` ties what
  they and the state say to the steps themselves.
- **Channels.** In order, no duplicates. Best effort may lose any queued sample. Reliable loses only
  what a KEEP_LAST history evicts: a sample with at least `Depth` newer ones queued behind it (2 in
  latency mode, 8 otherwise, the smaller of the configured writer and reader depths), or what its writer
  still held when it shut down. A publisher write may fail at any time and then queues nothing. The loss
  theorems of `Subscriber` drop the ordering assumption: they are about the callback under arbitrary
  reordering and duplication.
- **Shutdown.** The subscriber may shut down once its main loop has seen the test finished; from then on
  no ping is handled or echoed. Once the publisher is done no pong is handled.
- **Callbacks** are atomic and may run between any two steps of the main loop. Result capture is one
  atomic snapshot.
- **Clock, sleep, semaphore.** As the OS interface promises: the clock never steps back, a sleep lasts
  at least as long as asked, the semaphore is binary and initially empty, an infinite wait ends only
  with a token. A wait of 200 ms that times out has lasted at least 200 ms.
- **The subscriber's reset** after matching is a step that may happen once, at any time.
- **Integers.** 64-bit and 32-bit wrap-around is written out where it can happen: the latency sum, the
  history's clamp, the percentile index, the clock conversion. `seq` is unbounded in the step system;
  `NumberFitsInt32Iff` says exactly when the C `int32_t` cannot overflow.

## What the proofs found

- Loss ahead of the first sample the subscriber sees is never reported: the callback skips the gap
  test while `last_seq` is 0. `LossIsTrueLossIff` and `Conservation` give the exact condition.
- A number jumped over, or behind the last one at the end, is counted lost each time, whether it arrives
  or not. The report is exact precisely when none is counted twice and none counted arrives
  (`LossExactIff`).
  `ReorderingOverReports` shows it fail on reordered input, which the step system's in-order channel
  never delivers: it is an input to the callback.
- `-pubrate` bounds the rate exactly when it divides one million; the sleep is truncated to whole
  microseconds otherwise, and above a million it is zero (`RateHonouredIff`). The documentation gives
  the option as a rate without that limit.
- Without pacing no sequence number is out of reach (`UnpacedIsUnbounded`), so only pacing excludes
  overflow of `seq`.
- A wait in latency mode is always released by its own pong exactly with `-rel`, or when a wait that
  times out and the sleep behind it outlast the test (`OwnPongIff`). Otherwise some run releases a wait
  by the pong of an earlier ping (`StaleRelease`).
- A publisher that stops early knows that its last number was handled, not that the counters survive:
  they are settled exactly when the subscriber handled a finalization after its reset
  (`EarlyStopIsFinal`). `LateResetLosesCounters` is a run in which a received sample is erased. The
  publisher's one-second settle is what makes that unlikely.
- A finalization that reaches a subscriber already shut down is never answered (`AnsweredIff`), so a
  publisher that gives up may have succeeded (`GivesUpThoughSettled`).
- The percentile index is exact for histories of up to 43383508 entries, and stays in range beyond,
  where a larger history can report p99 below p90 (`IndexExactIff`, `IndexInRange`, `AlwaysOrderedIff`).
  The QNX conversion is exact for counter frequencies from 1000000 to 18446744073710 (`ClockExactIff`).
  The average is exact while the latency sum fits 64 bits (`AverageExactIff`).

## Files

| file | content |
|---|---|
| `Samples.dfy` | samples, arrivals, reported sizes |
| `Subscriber.dfy`, `SubscriberEngine.dfy` | ping callback and loss accounting; the subscriber object and its loops |
| `Publisher.dfy`, `PublisherEngine.dfy` | pong callback and result row; the publisher object and its loops |
| `Percentiles.dfy` | in-place sort, index arithmetic, rank theorems |
| `ReaderTake.dfy`, `ZcopyWriter.dfy` | take loop; loans |
| `Protocol.dfy` | the step system |
| `Conservation.dfy`, `Lockstep.dfy`, `Tokens.dfy`, `StalePongs.dfy`, `LatencyBounds.dfy`, `Warmup.dfy`, `Pacing.dfy`, `Sizes.dfy` | what every run guarantees |
| `Traces.dfy` | the same read off a run's steps: traffic counts, stamps, round trips, the instants of start and capture |
| `Fates.dfy` | which runs there are: any pattern of refused, lost and received samples |
| `LoopRefinement.dfy` | the step system's publisher is the imperative loop |
| `SampleType.dfy`, `QnxClock.dfy`, `Numbers.dfy`, `Arguments.dfy` | sample type, clock, numbers, parser |

## Model

| member | source | states |
|---|---|---|
| Conservation.Conservation | src/core/perftest_lite_sub.c:55-82 | on every run, once the subscriber has finished: received + reported lost + (first received number - 1) = last number = publisher total + failed writes, or lost = last number when nothing arrived; the report is the whole loss exactly when the first sample seen was number 1 or none was |
| Conservation.FinalizationCausality | src/core/perftest_lite_pub.c:89-92 | in every reachable state the publisher's finished flag implies the subscriber has handled a finalization stamped with the publisher's last number, after the results were captured |
| Conservation.EarlyStopIsFinal | src/core/perftest_lite_pub.c:424-429 | a publisher that stops before ten finalizations leaves a subscriber that handled one with the last number; its counters are finished, conserved and unchanged on every continuation exactly when a finalization was handled since its reset |
| Conservation.SettledIff | src/core/perftest_lite_sub.c:162-176 | in every reachable state: finished, conserved and unchanged on every continuation exactly when the reset is past and a finalization was handled since |
| Conservation.FinishedIsFinal | src/core/perftest_lite_sub.c:55-67 | once finished and past its reset, no continuation of any run changes the subscriber's state |
| Conservation.AnsweredIff | src/core/perftest_lite_sub.c:65-67 | callbacks alone can set the publisher's finished flag exactly when it is set, or the publisher is up and an echo is in flight, or a finalization is on the way to a subscriber that is up |
| Conservation.LateResetLosesCounters | src/core/perftest_lite_sub.c:162-176 | a one-second run whose sample was sent, received, counted and conserved; the reset follows the finalization, erases the count and the finished flag, and the publisher stops early |
| Conservation.InvStep | src/core/perftest_lite_pub.c:205-219 | every step keeps: warm-up before data before finalizations on the ping channel, data strictly increasing above the subscriber's last number, and the subscriber's partial conservation equation |
| Traces.PingConserved | src/core/perftest_lite_pub.c:173-219 | for each kind of sample, on every run: queued, handled and lost on the ping channel add up to the successful writes, counted from the run's steps |
| Traces.PongConserved | src/core/perftest_lite_sub.c:65-91 | and on the pong channel to the samples echoed: every finalization, warm-up sample and ping handled, no plain data |
| Traces.WarmupConserved | src/core/perftest_lite_pub.c:169-177 | warm-up traffic of every run: queued + handled + lost = successful burst writes, at most initBurst, exactly initBurst turns once past the burst; each queued sample reports the burst size and a stamp of the past |
| Traces.LossFreeBurst | src/core/perftest_lite_pub.c:173-177 | a run that stands at the settle with all initBurst warm-up samples written and queued |
| Traces.ReliableLosesNothing | src/middleware/middleware_micro.c:789-804 | reliable, with at most 2 (latency mode) or 8 samples queued at any time: nothing is lost, every write is handled or queued |
| Traces.OverflowLoses | src/middleware/middleware_micro.c:789-804 | a burst one longer than that depth has a run that loses its first sample |
| Traces.StampsAreClockReadings | src/core/perftest_lite_pub.c:205-208 | every stamp in either channel is the clock at the step of the run that numbered (or burst) that sample |
| Traces.LatencyIsHalfRoundTrip | src/core/perftest_lite_pub.c:93-101 | the latencies of every run are its pongs in order, each half the time from the step that stamped the ping of that number to the step that handled the pong |
| Traces.GivenByLastPong | src/core/perftest_lite_pub.c:127 | the number the semaphore was last given for is that of the last pong handled |
| Traces.CaptureInstant | src/core/perftest_lite_pub.c:193-282 | the captured results belong to one step: the statistics there, the data writes that had succeeded, and the time since the step that started the test, at least a second after start-up |
| Traces.RowOfRun | src/core/perftest_lite_pub.c:253-282 | the result row field by field from the run's steps: size asked for, data writes succeeded, pongs handled, time from start to capture, percentiles of the history at capture |
| Fates.AnyFates | src/core/perftest_lite_pub.c:205-232 | throughput mode: every pattern of refused, lost and received samples that fits the test is a run (without losses when reliable), ending in the counters the pattern says |
| Fates.AnyFatesReported | src/core/perftest_lite_sub.c:55-67 | and can end in an answered finalization whose report is every sample behind the first received one that was not received |
| Fates.GivesUpThoughSettled | src/core/perftest_lite_pub.c:424-429 | for every pattern there is a run that ends after ten finalizations unanswered, with the subscriber finished, its counters settled, and shut down |
| Lockstep.OneInFlight | src/core/perftest_lite_pub.c:225-228 | reliable latency mode, every reachable state: pings in flight + pongs in flight + tokens is 1 while the publisher waits and 0 otherwise |
| Lockstep.TakeIsOwnPong | src/core/perftest_lite_pub.c:225-228 | a take that can succeed was released by the pong of the ping just written, and both channels are then empty |
| Lockstep.HistoryNeverEvictsPing | src/middleware/middleware_micro.c:789-804 | a KEEP_LAST history of any depth from 1 up retains every queued ping and echo, of which there is at most one per channel |
| Lockstep.EveryPingMeasured | src/core/perftest_lite_pub.c:269-273 | reliable latency mode: the result row has latency_samples_received = total_samples = successful takes |
| Lockstep.WaitIsReleasable | src/core/perftest_lite_sub.c:88-91 | no deadlock: from any reachable wait, delivering what is in flight leads to a token |
| StalePongs.StaleRelease | src/core/perftest_lite_pub.c:225-232 | best effort, with time for a second turn behind a timed-out one: a run in which the second wait is released by the first ping's pong |
| StalePongs.OwnPongIff | src/core/perftest_lite_pub.c:225-232 | in a latency test every wait is released by its own pong on every run exactly when reliable, or 200 ms plus the pacing sleep reach the test duration |
| StalePongs.LostPongTimesOut | src/core/perftest_lite_pub.c:225-232 | best effort: a run in which the pong is lost, the wait times out, and the received sample counts no latency |
| Tokens.TokenAccounting | src/core/perftest_lite_pub.c:216-228 | latency mode with timeouts, losses and late pongs: successful takes + token present <= pongs counted, and pongs counted + pings and pongs in flight <= samples sent |
| Tokens.ThroughputPings | src/core/perftest_lite_pub.c:206-228 | throughput mode: exactly seq / latency_count turns are pings, pongs counted <= pings written <= pings marked, the semaphore is never taken |
| LatencyBounds.GuardHidesNothing | src/core/perftest_lite_pub.c:93-97 | every pong delivered carries a stamp between test start and now, so the guarded latency is half the true difference |
| LatencyBounds.FiguresAreOfDelivered | src/core/perftest_lite_pub.c:98-107 | sum, count, minimum, maximum and history (each latency below 2^32 as it is, 2^32 - 1 otherwise) are those of exactly the pongs delivered since the reset, each at most half the elapsed time |
| LatencyBounds.ResultRowIsOrdered | src/core/perftest_lite_pub.c:253-282 | on every run the captured row has min <= max <= elapsed / 2, both of them latencies that occurred; p50 <= p90 <= p99 <= max for histories without an index wrap; and, while the latency sum fits 64 bits, the exact average with min <= avg <= max |
| LatencyBounds.HistoryIsOfLatencies | src/core/perftest_lite_pub.c:102-107 | on every run whose latencies fit 32 bits the history is the first min(count, capacity) latencies, the percentiles captured split that prefix, and p50 is at least the minimum |
| Publisher.CaptureReads | src/core/perftest_lite_pub.c:253-282 | the row's fields: size, total and elapsed as given, count, extremes, rounded-down mean, percentiles of rank n * q / 100 by counting |
| Publisher.HistoryIsPrefix | src/core/perftest_lite_pub.c:102-107 | while every latency fits 32 bits the history holds the first `capacity` of them unchanged |
| Publisher.ResetIsFresh | src/core/perftest_lite_pub.c:180-183 | the reset gives fresh statistics and leaves semaphore and finished flag |
| Publisher.AverageExactIff | src/core/perftest_lite_pub.c:274-275 | the reported average is the true mean exactly when the latency sum fits 64 bits |
| Publisher.RecordKeepsFigures | src/core/perftest_lite_pub.c:97-107 | recording one latency extends the figures of a list of latencies to the list with it appended, clamped and capped history included |
| Publisher.WarmupLeavesStatistics | src/core/perftest_lite_pub.c:82-88 | erasing warm-up echoes from any stream of pongs leaves statistics, semaphore and finished flag unchanged |
| Warmup.WarmupNeverInterferes | src/core/perftest_lite_pub.c:169-183 | every run has a shadow run in which no warm-up sample is ever in a channel and which ends in the same main-loop state, counters, statistics, semaphore, results and other traffic |
| Subscriber.WarmupLeavesCounters | src/core/perftest_lite_sub.c:69-74 | erasing warm-up samples from any stream, however interleaved, leaves the subscriber unchanged |
| Samples.WithoutInitPicks | src/core/perftest_lite_sub.c:69-74 | erasing warm-up samples keeps exactly the others, in order |
| Subscriber.CountersAreData | src/core/perftest_lite_sub.c:77-83 | the counters count the data samples, and the number and size are those of the last one |
| Subscriber.ResetForgets | src/core/perftest_lite_sub.c:163-166 | after the reset the subscriber is a fresh one but for the reported size, and for that too once data has come |
| Subscriber.MbpsIsBits | src/core/perftest_lite_sub.c:198-206 | the throughput times the interval is the bits received, 0 over an empty interval |
| Subscriber.LossNeverUnderReported | src/core/perftest_lite_sub.c:55-82 | for any order and duplication of numbers 1..exp, the loss after finalization is at least the count of numbers above the smallest received one that never arrived |
| Subscriber.LossExactIff | src/core/perftest_lite_sub.c:55-82 | for any order and duplication, the report is exactly that count if and only if no number was jumped over (or left behind at the end) twice and none of those arrived |
| Subscriber.ReportedIsPresumed | src/core/perftest_lite_sub.c:55-82 | the report counts the numbers jumped over and left behind, with multiplicity: all above the smallest received, every missing one among them |
| Subscriber.LossExactInOrder | src/core/perftest_lite_sub.c:77-82 | so it is exact when the numbers never step backwards |
| Subscriber.LossIsTrueLossIff | src/core/perftest_lite_sub.c:78-80 | in order, the report equals everything that never arrived exactly when nothing arrived or number 1 did |
| Subscriber.LeadingLossIsUnreported | src/core/perftest_lite_sub.c:78-80 | a concrete stream with two samples lost and none reported |
| Subscriber.ReorderingOverReports | src/core/perftest_lite_sub.c:77-82 | a concrete stream with nothing lost and two samples reported |
| Subscriber.RepeatedFinalization | src/core/perftest_lite_sub.c:55-67 | any number of consecutive finalizations leaves the state of the first alone |
| Subscriber.StartIsFirstData | src/core/perftest_lite_sub.c:84-86 | with clock readings above zero that never step back, the throughput interval starts at the first data sample and stays unset while there is none |
| Subscriber.CallbackStaysInInt32 | src/core/perftest_lite_sub.c:59-81 | for numbers below INT32_MAX every 32-bit intermediate of the callback is in range |
| SubscriberEngine.SubCtx.OnPingSample | src/core/perftest_lite_sub.c:48-92 | the callback's new state and its echo, for the four kinds |
| SubscriberEngine.SubCtx.ResetAfterMatch | src/core/perftest_lite_sub.c:163-166 | the reset clears everything but the reported size, and hands nothing to the pong writer |
| SubscriberEngine.SubCtx.WaitAndPrint | src/core/perftest_lite_sub.c:173-193 | the loop leaves at the first wake that finds the test finished, has handled and echoed exactly the arrivals up to it, and has printed the lines LogAfter says; with lines enabled no second goes unprinted |
| SubscriberEngine.LogPartitions | src/core/perftest_lite_sub.c:173-193 | the printed deltas and intervals partition the count and the time, on lines of at least a second; none without the option |
| SubscriberEngine.Line | src/core/perftest_lite_sub.c:179-191 | a printed line carries its delta, interval, size and loss; its rate times the interval is the delta, its throughput times the interval the bits |
| SubscriberEngine.SubCtx.CaptureResult | src/core/perftest_lite_sub.c:195-217 | the result row: counters as they stand, elapsed since the first data sample, throughput over reals |
| SubscriberEngine.SubscriberIgnoresBatching | src/core/perftest_lite_sub.c:94-97 | two ways of batching the same valid samples leave the same subscriber state and the same count |
| ReaderTake.Take | src/middleware/middleware_micro.c:115-145 | the callback sees the arrivals at exactly the positions whose flag is set, in increasing order, and the return value is the number of those positions; a failed take does nothing |
| ReaderTake.ValidOnlyPicks | src/middleware/middleware_micro.c:133-139 | filtering keeps exactly the entries whose flag is set, in order |
| ReaderTake.BatchInvariance | src/middleware/middleware_micro.c:126-144 | any cut of the stream into takes, with invalid entries and failed takes anywhere, is handling the valid samples one by one; the counts add up |
| PublisherEngine.PubCtx.OnPongSample | src/core/perftest_lite_pub.c:79-128 | the pong callback on the object and its history array equals the specification |
| PublisherEngine.PubCtx.SendLoop | src/core/perftest_lite_pub.c:197-251 | the loop runs a turn for each test inside the duration, stops at the first outside, and ends in the specified variables |
| PublisherEngine.PubCtx.CaptureResult | src/core/perftest_lite_pub.c:253-282 | sorts the history in place and fills the row with the percentiles of the unsorted history |
| PublisherEngine.PubCtx.RunOneSize | src/core/perftest_lite_pub.c:180-283 | reset, send loop and capture together: the row is that of the statistics the loop leaves from zero, the history ends sorted |
| PublisherEngine.PubCtx.Finalize | src/core/perftest_lite_pub.c:422-429 | at most ten sends, each stamped with the last number, fewer only once the peer answered, and none after |
| PublisherEngine.WrittenInOrder | src/core/perftest_lite_pub.c:205-219 | the samples written are numbered strictly upwards within 1..seq, one per counted success, sized and marked as configured |
| PublisherEngine.PublisherIgnoresBatching | src/core/perftest_lite_pub.c:130-134 | however pongs are batched into takes the statistics are those of the valid pongs one by one |
| LoopRefinement.RunIsLoop | src/core/perftest_lite_pub.c:193-251 | for every run past the warm-up there is a script under which the imperative loop has the run's number, total, statistics and written samples at every main-loop position, and at capture |
| LoopRefinement.RunWritesInOrder | src/core/perftest_lite_pub.c:205-219 | so on every run the data written is numbered strictly upwards within 1..seq, one sample per counted success, sized and marked as configured |
| LoopRefinement.RunIsFinalize | src/core/perftest_lite_pub.c:424-429 | for every run past the capture there is a script under which the finalization loop has the run's turns, statistics and successful writes, and stops where the run is done |
| Percentiles.SortHistory | src/core/perftest_lite_pub.c:256-257 | in place: the prefix becomes its ascending arrangement, the rest of the array is untouched |
| Percentiles.AscendingPermutes | src/core/perftest_lite_pub.c:256-257 | the ascending arrangement is a permutation |
| Percentiles.AscendingIsSorted | src/core/perftest_lite_pub.c:139-144 | the history after the capture step is in ascending order, for any collected latencies |
| Percentiles.IndexInRange | src/core/perftest_lite_pub.c:258-261 | the 32-bit index always lands in the history |
| Percentiles.IndexExactIff | src/core/perftest_lite_pub.c:258-261 | no index wraps for any fill exactly when the capacity is at most 43383508 |
| Percentiles.PercentileSplits | src/core/perftest_lite_pub.c:258-261 | the reported value is an entry with at most n * q / 100 entries below it and more than n * q / 100 at or below it |
| Percentiles.PercentilesOrdered | src/core/perftest_lite_pub.c:258-261 | p50 <= p90 <= p99 <= any bound on the history |
| Percentiles.AlwaysOrderedIff | src/core/perftest_lite_pub.c:256-261 | p50 <= p90 <= p99 for every history the array can hold exactly when its capacity is at most 43383508 |
| Pacing.NumbersExactly | src/core/perftest_lite_pub.c:205-232 | some run reaches sequence number n exactly when n = 0 or (n - 1) * sleep < timeout |
| Pacing.NumbersInMicroseconds | src/core/perftest_lite_pub.c:199-205 | the same in numbers: (n - 1) times the truncated rate gap, or the platform's minimum sleep without a rate, below exec * 1000000 |
| Pacing.NeverAboveIff | src/core/perftest_lite_pub.c:205-206 | no run exceeds m exactly when m * sleep >= timeout |
| Pacing.NumberFitsInt32Iff | src/core/perftest_lite_pub.c:198-206 | seq never overflows int32 on any run exactly when INT32_MAX sleeps last at least the test |
| Pacing.TwiceTheRate | src/core/perftest_lite_pub.c:202-203 | for rates up to a million, every run sends at most 2 * pubrate * exec_seconds |
| Pacing.RateHonouredIff | src/core/perftest_lite_pub.c:202-203 | every run sends at most pubrate * exec_seconds exactly when pubrate divides 1000000 |
| Pacing.UnpacedIsUnbounded | src/core/perftest_lite_config.h:272-280 | with no sleep every sequence number is reached by some run |
| Pacing.MainLoopEnds | src/core/perftest_lite_pub.c:205-232 | with any pacing every run takes at most initBurst + 25 + 5 * MaxTurns main-loop steps, so the send and finalization loops end |
| Pacing.RetriesArePaced | src/core/perftest_lite_pub.c:426-429 | each finalization turn takes at least 50 ms, so giving up takes at least half a second |
| Pacing.OnlyTimeHolds | src/os/os_interface.h:58-61 | outside the semaphore wait and before the end, a long enough tick always enables the main loop |
| Sizes.WarmupReports | src/core/perftest_lite_pub.c:169-178 | after any use of a created sample and whatever the library answers: the size the two calls before the burst leave it reporting, and the one the call after the settle restores |
| Sizes.WarmupSample | src/core/perftest_lite_pub.c:368-377 | the sample object created, initialized and resized for the burst is, seen from the engine, the sample the step system starts with |
| Sizes.SetSizeIsView | src/type/type_default.c:145-158 | after any use of a created sample, set_sample_size seen from the engine is the step system's SetSize |
| Sizes.SizeAgreement | src/core/perftest_lite_pub.c:170-178 | for a validated size, on every run: all data on the wire reports it, so does a subscriber that received any, and the throughput stands for total * datalen * 8 bits |
| SampleType.DefaultAlwaysValidates | src/type/type_default.c:30-47 | the default size validates for every configured default and bound, is the configured size exactly when that validates, and else the nearest valid size |
| SampleType.SizeRoundTrip | src/type/type_default.c:131-158 | set_sample_size succeeds exactly on the range, given the library's storage and length; an accepted size is read back, one out of range changes nothing, one the library refuses neither size nor payload |
| SampleType.MetadataRoundTrip | src/type/type_default.c:115-129 | kind, number and timestamp are read back as set, in any order, and touch nothing else |
| SampleType.CopyTransfers | src/type/type_default.c:98-113 | when copy_for_write succeeds, and that it then transfers metadata and payload; what each of its failures leaves of both |
| SampleType.BoundHolds | src/type/type_default.c:59-74 | over any sequence of calls from creation the payload stays within the bound and the buffer is never reallocated |
| SampleType.CreatedAcceptsExactlyInRange | src/type/type_default.c:145-153 | after any such sequence a size is accepted exactly when it validates and the library sets the length, whatever the allocator would answer |
| SampleType.PerftestSample.SetSampleSize | src/type/type_default.c:145-153 | the object after the call and its return code |
| SampleType.PerftestSample.SetLength | src/type/type_default.c:131-138 | growing, resizing, or refusing at either library call, with the buffer's contents |
| SampleType.PerftestSample.CopyForWriteFrom | src/type/type_default.c:98-113 | the destination after the copy and its return code, all three failures included; the source is untouched |
| SampleType.PerftestSample.CopyMetadataFrom | src/type/type_default.c:89-96 | every field but the payload |
| SampleType.Create | src/type/type_default.c:59-74 | a sample exactly when all three library calls succeed, its buffer at the bound |
| ZcopyWriter.LoanConservation | src/middleware/middleware_micro.c:169-202 | over any series of writes and failures: acquired = handed over + discard attempts, returns of 0 = handed over, held between calls = failed discards |
| ZcopyWriter.LedgerCounts | src/middleware/middleware_micro.c:169-202 | each count of the ledger is the number of writes whose library and type answers end that way |
| ZcopyWriter.Writer.WriteZcopy | src/middleware/middleware_micro.c:169-202 | the ledger after one write; 0 exactly when loan, copy and write all succeed |
| QnxClock.SplitIsExact | src/os/os_qnx.c:44-45 | the split conversion is the floor of now * 1000000 / c |
| QnxClock.ClockExactIff | src/os/os_qnx.c:35-46 | in 64-bit arithmetic it is exact at every cycle count exactly for 1000000 <= c <= 18446744073710 |
| QnxClock.ReadingsMeasureIntervals | src/os/os_qnx.c:35-46 | readings never step back and a difference of two is within a microsecond of the true interval |
| QnxClock.NoFrequencyNoTime | src/os/os_qnx.c:40-42 | without a frequency every reading is 0 |
| QnxClock.SleepUs | src/os/os_qnx.c:48-62 | the two sleeps add up to the request and neither argument overflows |
| Numbers.AcceptedIff | src/core/perftest_lite_args.c:35-54 | a value is accepted exactly when the whole text denotes it in base-0 notation and it lies in the range |
| Numbers.ConvertWhole | src/core/perftest_lite_args.c:43-45 | strtol consumes the whole text exactly when it is white space, a sign and a hexadecimal, octal or decimal numeral, and returns its value |
| Numbers.WrittenIsRead | src/core/perftest_lite_args.c:43-45 | round trip: a number written in decimal, octal or hexadecimal, either case, signed and behind white space, denotes itself and is read back by any range that holds it |
| Numbers.DigitsAreFigures | src/core/perftest_lite_args.c:43 | the digits of a radix are its figures in either case and nothing else |
| Numbers.SpacesAre | src/core/perftest_lite_args.c:43 | white space is the six characters of the "C" locale |
| Numbers.ParseInt32Option | src/core/perftest_lite_args.c:35-54 | return code and value, for any width of long |
| Arguments.ParseArguments | src/core/perftest_lite_args.c:135-215 | terminates inside the vector with the specified code (0, 1 for help, -1) and the arguments as left at that point |
| Arguments.ParseConcat | src/core/perftest_lite_args.c:141-213 | parsing xs + ys after xs succeeded is parsing ys from the state xs left |
| Arguments.ParsedInRange | src/core/perftest_lite_args.c:148-203 | from defaults in range every vector leaves every numeric field in its documented range, pubrate -1 or positive |
| Arguments.NumericTurnIff | src/core/perftest_lite_args.c:148-203 | a numeric option is accepted exactly when its text denotes an in-range number, zero excepted for -pubrate, and then sets that number |
| Arguments.DomainSets | src/core/perftest_lite_args.c:148-154 | `-domain` takes 0..232 into its own field and rejects every other number and text; the rest is parsed from there |
| Arguments.DatalenSets | src/core/perftest_lite_args.c:159-166 | `-datalen` takes 1..2147483647 into its own field and rejects every other number and text; the rest is parsed from there |
| Arguments.ExecSets | src/core/perftest_lite_args.c:167-174 | `-exec` takes 1..2147483647 into its own field and rejects every other number and text; the rest is parsed from there |
| Arguments.PubrateSets | src/core/perftest_lite_args.c:175-187 | `-pubrate` takes -1 and 1..2147483647 into its own field and rejects every other number and text; the rest is parsed from there |
| Arguments.LatencyCountSets | src/core/perftest_lite_args.c:188-195 | `-latencyCount` takes 1..2147483647 into its own field and rejects every other number and text; the rest is parsed from there |
| Arguments.SubSleepSets | src/core/perftest_lite_args.c:196-203 | `-subSleep` takes 0..2147483647 into its own field and rejects every other number and text; the rest is parsed from there |
| Arguments.TextualSets | src/core/perftest_lite_args.c:155-158 | the four textual options take any text into their own field |
| Arguments.ModesSet | src/core/perftest_lite_args.c:146-205 | -pub, -sub, -rel and -latencyTest set their own field and use no value |
| Arguments.PrintingSet | src/core/perftest_lite_args.c:206-208 | so do -printPeriodic, -noPrintConfig and -latencyStream |
| Arguments.OthersStop | src/core/perftest_lite_args.c:143-212 | help ends the parse, an unknown option or a missing value rejects it, with the arguments as left |
| Arguments.ParseFrame | src/core/perftest_lite_args.c:141-213 | whatever the outcome, only the fields of options among the tokens change |
| Arguments.BuiltInParse | src/core/perftest_lite_args.c:56-79 | the built-in defaults are what an empty vector gives and are in range, so every parse from them is, and the duration in microseconds fits 64 bits |

## Left out

- DDS itself: registry, QoS objects, discovery and transports; only channel behaviour and loan outcomes appear.
- Renderers, help text, banner, latency log and stream, memory checkpoints: output plumbing.
- The percentile sort running while a pong callback appends to the history, and torn reads of volatile fields: capture is one atomic snapshot.
- `qsort` is the C library's; the model sorts in place by insertion under the same contract.
- A failing pong write: on best effort it is the loss of the echo just queued; on a reliable channel it is assumed not to happen, as is a semaphore call that fails for other reasons than its timeout.
- Reliable writers that block or refuse when their queue is full: a refused write is the failing write of the model, a blocked one is a clock advance.
- Protocol.StampStep: numbers are unbounded integers; Pacing.NumberFitsInt32Iff says when int32_t cannot overflow.
- 64-bit wrap-around of the counters `total`, `lat_count`, `lost_samples` and `total_received`, which grow by at most 2^31 a sample.
- IEEE rounding in rates and throughput: reals.
- Protocol.WarmSample: takes a length within the maximum to be set; `Sizes.WarmupReports` says what is reported when the library refuses it.
- SubscriberEngine.Line: leaves out the printed whole seconds since the first data sample, which are output only.
- Contents of storage a sample buffer grows into: taken as zero; a successful copy overwrites all of it.
- The parsed arguments are an out-parameter value, `char *` fields are strings, and callbacks with a user pointer are folds over the state in ReaderTake.
- `type_zcopy.c`, NIC lookups, the Linux and FreeRTOS adapters, endpoint match counting and error-path cleanup: they would only add easy members.
