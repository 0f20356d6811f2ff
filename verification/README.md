# KVFlow decision and transfer proofs

KVFlow decides, per request, whether to move KV-cache state over the network,
recompute it, or wait. This project models the parts of it whose correctness
spans many steps, and proves what they promise:

- **Network replay** (`NetTrace.dfy`). A recorded run becomes bandwidth as a step
  function of time. The reference is the integral of that function
  (`Delivered`). `SendTime` is proved to be its inverse; additivity, no
  overtaking and exact replay of the recorded rows follow from that.
- **Loaders raced through it** (`LoadSim.dfy`). `Oracle` is proved optimal among
  all one-chunk-at-a-time schedules, including ones that idle. `Cake` is proved
  to stop at the best of all splits. `Cake <= Oracle <= 2 * Cake`, and the factor
  is attained. `Fixed` and `Chunked`, with any
  learner, belief and probe setting, are instances of the schedules.
- **Learners** (`Line.dfy`, `Ewma.dfy`, on the arithmetic of `Sums.dfy` and
  `Reals.dfy`). The decayed Welford update equals the closed-form faded sums over
  the whole history, an accepted fit is the unique least-squares line, a belief is
  never unusable, and the moving average contracts toward a steady rate.
- **The simulator** (`Scheduler.dfy`, `CostModel.dfy`, `Simulator.dfy`,
  `Adaptive.dfy`). Regret is bounded by the error of the belief behind each
  decision, a usable learner never stops a run, probing recovers a wrong belief
  after a computed number of requests, and without probes a wrong belief is final.
- **The controller** (`Controller.dfy`, `ControllerRuns.dfy`, `Agreement.dfy`). Its
  state is a function of the finished results, retries are spaced, and the exact
  conditions are given under which an early stop returns the finished requests and
  under which the controller decides as the simulator does.
- **The transfer protocol** (`Xfer.dfy`, `Worker.dfy`, `WorkerSafety.dfy`,
  `WorkerOutcomes.dfy`, `WorkerProgress.dfy`). The framing is a round trip for every length and every cut
  of the byte stream. Concurrent `Transfer` calls are a step relation in which
  calls, receivers, contexts, tripwires and failures interleave one byte at a
  time; one inductive invariant carries the safety results, a caller that gave up
  sends nothing, and a live send never jams.

`Beliefs.dfy` is the `Learner` interface as a record of functions, so whatever is
proved of a run is proved for every learner. Times, bytes and rates are reals.
`dafny verify dfyconfig.toml` checks everything.

Each step-by-step method of the source is an imperative method here, proved
against a function; the lemmas are then about that function. `hide` statements
only keep definitions out of proofs that do not need them.

Three places where the code and its comments differ, or where a comment can be
sharpened:

- The comment on `Oracle` says its choice is not proven best over the whole load
  (internal/loadsim/loadsim.go:47). It is: `LoadSim.OracleIsBest`.
- `Run`'s comment says that a run that stops early returns the finished requests
  (internal/controller/controller.go:76-79). The code returns none of them when the
  request that stops it cannot be priced, whether because the learner's belief or
  because that scenario itself is not usable (controller.go:117-123).
  `ControllerRuns.FinishedRequestLost` is a run that loses a finished request,
  `ControllerRuns.StopReturnsFinishedIff` says exactly which stopped runs keep the
  promise, and `ControllerRuns.NeverLosesRequestsIff` says, from the scenarios
  alone, exactly when every run does.
- `RunAdaptive` resets its probe count for every transfer and learns from any prefix
  that is not empty; `Run` does both only for prefixes of at least one whole byte,
  and learns the truncated size (simulator.go:198-205, controller.go:134-166). The
  two agree throughout a run exactly if every transfer in it is of a positive whole
  number of bytes (`Agreement.AgreeThroughoutIff`).
  `Agreement.ShortPrefixPartsRuns` gives runs from the start on which they part, one
  for every prefix of less than a byte.

## Model

| member | source | states |
|---|---|---|
| NetTrace.FromRows | internal/nettrace/nettrace.go:26-41 | succeeds exactly on a non-empty list of positive rows; each segment then starts where the last ended, lasts its row's seconds and moves its row's bytes; the error names the first bad row |
| NetTrace.FindSegment | internal/nettrace/nettrace.go:68-71 | the binary search finds the first end beyond `at`, or the last segment |
| NetTrace.RateIsSlope | internal/nettrace/nettrace.go:46-47 | the rate reported at a time is the slope of the delivered bytes until that segment ends |
| NetTrace.Send | internal/nettrace/nettrace.go:49-64 | the walk ends, and exactly `bytes` are delivered while it lasts |
| NetTrace.SendTimeDelivers | internal/nettrace/nettrace.go:49-50 | the integral of bandwidth over the send is the bytes sent, for every start and size |
| NetTrace.SendTimeIsInverse | internal/nettrace/nettrace.go:14-16 | the converse: sending what is delivered between two times takes exactly the time between them |
| NetTrace.SendTimeAdds | internal/nettrace/nettrace.go:57-62 | sending a, then b when it is done, takes as long as sending a + b, across segments and past the end |
| NetTrace.SendTimeNeverOvertakes | internal/nettrace/nettrace.go:53-63 | starting later never finishes earlier |
| NetTrace.SendTimeKeepsOrder | internal/nettrace/nettrace.go:54-55 | starting strictly later finishes strictly later |
| NetTrace.RowReplays | internal/nettrace/nettrace.go:22-24 | sending a row's bytes from when the row started takes exactly its measured seconds |
| NetTrace.WholeRunReplays | internal/nettrace/nettrace.go:43-44 | all recorded bytes sent from 0 take `Duration()` |
| LoadSim.FixedLoad | internal/loadsim/loadsim.go:38-43 | all chunks recomputed take their compute times, all chunks loaded are what the network delivers meanwhile; either is the schedule that treats every chunk alike, and never ahead of Oracle |
| LoadSim.OracleLoad | internal/loadsim/loadsim.go:54-60 | returns the least time of any schedule of the same chunks, and some schedule attains it |
| LoadSim.OracleIsBest | internal/loadsim/loadsim.go:45-49 | after any number of chunks no sequence of load/recompute choices, idling or not, is ahead of Oracle |
| LoadSim.OracleIsASchedule | internal/loadsim/loadsim.go:56-58 | Oracle itself is one of those schedules |
| LoadSim.OracleNeverOvertakes | internal/loadsim/loadsim.go:55-59 | a load that starts later is never ready earlier |
| LoadSim.Chunked.LoadChunks | internal/loadsim/loadsim.go:79-95 | some schedule gives the time, its loads in order are exactly what taught the learner, and its chunks since the last load are the probe count, all from the state carried over; never ahead of Oracle |
| LoadSim.ChunkedIsASchedule | internal/loadsim/loadsim.go:62-66 | whatever the learner, belief and probe setting, Chunked follows a schedule without idling, observing exactly its loads with their times, in order |
| LoadSim.ChunkedIsNearBest | internal/loadsim/loadsim.go:62-64 | a chunk is loaded exactly when its load is believed strictly faster or a probe is due; without a probe it is ready within the error of the predicted load time of the better of the two |
| LoadSim.ExactChunkedIsOracle | internal/loadsim/loadsim.go:82-93 | with a belief right about every chunk and no probes, Chunked is done when Oracle is |
| LoadSim.ProbesAreSpaced | internal/loadsim/loadsim.go:70-72 | with probing, no more than ProbeEvery chunks in a row are recomputed, across requests too |
| LoadSim.NoProbeNoRecovery | internal/loadsim/loadsim.go:83-88 | without probing, a belief that prefers recomputing is never revised |
| LoadSim.CakeLoad | internal/loadsim/loadsim.go:104-123 | the race ends, at the minimum over all splits of the later of its two sides |
| LoadSim.MeetingIsBest | internal/loadsim/loadsim.go:97-99 | a split whose neighbours on both sides end no earlier than it is best among all splits |
| LoadSim.NextLoadEvent | internal/loadsim/loadsim.go:117 | chunks loaded back to back arrive when one send of all their bytes would end |
| LoadSim.ScheduleNeedsItsSplit | internal/loadsim/loadsim.go:48-49 | no one-at-a-time schedule beats the split that loads as many chunks as it does |
| LoadSim.Sandwich | internal/loadsim/loadsim.go:48-49 | Cake <= Oracle <= 2 * Cake for every trace, start and load |
| LoadSim.SandwichIsTight | internal/loadsim/loadsim.go:54-60 | on a steady link with equal costs and an even number of chunks, Oracle takes exactly twice Cake's time |
| LineFit.NewLine | internal/learner/line.go:41-49 | succeeds exactly for alpha in (0, 1] and a positive cost, with no observation and no startup |
| LineFit.LineLearner.ObserveTransfer | internal/learner/line.go:62-95 | the in-place update is `Observe`, and keeps its divisions defined |
| LineFit.SpreadTest | internal/learner/line.go:72-73 | the relative spread compared with 0.1 agrees with the test on squares used here |
| LineFit.WelfordIsExact | internal/learner/line.go:63-70 | after any history the five running fields are the faded weight, means, and squared and cross deviations about the current means |
| LineFit.AcceptedFitIsLeastSquares | internal/learner/line.go:74-79 | in the first branch the belief is the one line, among all real lines, with the least faded squared error over the whole history |
| LineFit.OriginSlopeIsLeast | internal/learner/line.go:80-83 | one slope has the least faded squared error over the whole history among all lines without a startup, and no other does |
| LineFit.PinnedFitIsBestIffUnpinned | internal/learner/line.go:80-83 | the line without a startup through the mean point is the best one without a startup, for the whole history and among all slopes, if and only if the fitted intercept is 0 |
| LineFit.PinnedBeliefIsNotBest | internal/learner/line.go:81-83 | so whenever the pin is taken, some other line without a startup fits the history strictly better than the belief |
| LineFit.PinHappens | internal/learner/line.go:80-83 | a history of two transfers that takes the pin |
| LineFit.BeliefStaysUsable | internal/learner/line.go:88-94 | over all histories of positive sizes and times: startup >= 0, cost > 0, weight >= 1, and the line passes through the mean point |
| LineFit.PredictsInitialCost | internal/learner/line.go:39-40 | until something is observed, a transfer is predicted to take its bytes at the initial cost, with no startup |
| LineFit.PredictsTheMean | internal/learner/line.go:51-59 | as the loops read it, the belief predicts that the mean transfer takes the mean time, after any history of positive times |
| LineFit.PredictsTheExactLine | internal/learner/line.go:51-59 | after points on one line with enough spread, the belief as read predicts every size exactly |
| LineFit.AcceptedPredictionsAreBest | internal/learner/line.go:74-79 | whenever the fit is accepted, no line predicts the whole history with less faded squared error than the belief as read |
| LineFit.UnfittedBeliefKeepsStartup | internal/learner/line.go:85-94 | with too little spread or a falling line, the startup is kept, or dropped if the mean transfer is no longer than it, and the mean transfer is predicted to take the mean time |
| LineFit.ExactLineIsFoundAndKept | internal/learner/line.go:21-24 | points on one line: exactly that line from the first observation with enough spread on, even after sizes stop varying; before it, the mean point's cost |
| RateLearners.Ewma.Observe | internal/learner/ewma.go:31-34 | one transfer shrinks the gap between the belief and the rate it showed to the share 1 - alpha; the new belief is the one the run lemmas use |
| RateLearners.EwmaIsFadedAverage | internal/learner/ewma.go:8-16 | the belief is the initial one, faded once per transfer, plus the faded sum of the rates seen |
| RateLearners.EwmaContracts | internal/learner/ewma.go:32-34 | transfers that show one rate shrink the gap to it by 1 - alpha each |
| RateLearners.EwmaStaysPositive | internal/learner/ewma.go:19-20 | positive times keep the belief positive |
| RateLearners.LastSample.Observe | internal/learner/lastsample.go:26-27 | the new belief times the bytes is the time the transfer took; it is the one the run lemmas use |
| RateLearners.LastSampleIsEwma | internal/learner/lastsample.go:8-12 | over every history it equals EWMA with alpha 1, and is the last transfer's rate |
| RateLearners.LastSamplePredicts | internal/learner/lastsample.go:26-33 | as the loops read it, a transfer of the last one's size is predicted to take as long again, and others in proportion |
| Scheduler.ChooseLowestTTFT | internal/scheduler/scheduler.go:29-42 | fails exactly on no candidates; otherwise returns the first of the cheapest |
| Scheduler.ChooseIsFirstLowest | internal/scheduler/scheduler.go:27-28 | ties keep input order, and no other candidate is so |
| CostModel.EstimatePrices | internal/costmodel/costmodel.go:36-52 | what the three estimates are made of: A's queue and the suffix at A's rate; B's queue and all tokens at B's rate; and the suffix at B's rate from when both B's queue and the startup and bytes at the bandwidth are done, and no later |
| CostModel.TransferIsHiddenByQueue | internal/costmodel/costmodel.go:47-50 | a transfer that fits in B's queue costs what waiting would on a worker with B's queue and rate; a longer one costs its overrun more |
| Simulator.ScenarioPrices | internal/simulator/simulator.go:254-268 | the same of a scenario: the source waits, the destination recomputes, and the given startup is the transfer's |
| Simulator.EstimateOffersThree | internal/costmodel/costmodel.go:25-34 | an error exactly on invalid inputs; otherwise exactly the wait, transfer and recompute candidates, in tie-break order |
| CostModel.TransferErrorBounded | internal/costmodel/costmodel.go:36-52 | a wrong belief about the network leaves wait and recompute alone and misjudges transfer by no more than it misjudges the transfer time |
| Simulator.FindTtft | internal/simulator/simulator.go:66-73 | the TTFT of the first candidate with the action; fails exactly when none has it |
| Simulator.RecordIsSound | internal/simulator/simulator.go:212-238 | which error comes when, and otherwise predicted, actual and regret as the cost model's values for belief, truth and the true best |
| Simulator.LowestOfThree | internal/simulator/simulator.go:90-98 | the choice over the cost model's candidates, ties in the order wait, transfer, recompute |
| Simulator.RunAdaptive | internal/simulator/simulator.go:163-210 | outcomes or error, and the learner left behind, are those of the run request by request |
| Adaptive.RunPrefix | internal/simulator/simulator.go:174-175 | outcomes only grow: the run over fewer requests is a prefix |
| Adaptive.RequestServed | internal/simulator/simulator.go:176-207 | one request in full: when it stops, what it believes, does, scores, counts and teaches |
| Adaptive.RegretIsBounded | internal/simulator/simulator.go:75-88 | regret is never negative; without a forced probe it is at most the error in the predicted transfer TTFT, and that is at most the error in the predicted transfer time |
| Adaptive.ExactBeliefHasNoRegret | internal/simulator/simulator.go:55-57 | a belief that is right about a request's transfer regrets nothing there, unless it is a probe |
| Adaptive.RunNeverStops | internal/simulator/simulator.go:180-195 | a learner that stays usable finishes every request of a sound run, and knows exactly what its transfers taught |
| Adaptive.LineIsAlwaysUsable | internal/learner/line.go:88-94 | the line learner stays usable, so no run rejects its belief |
| Adaptive.EwmaIsAlwaysUsable | internal/learner/ewma.go:19-34 | so does the moving average |
| Adaptive.ProbesHappen | internal/simulator/simulator.go:158-159 | with probing, at least one request in every probeEvery + 1 transfers |
| Adaptive.ProbingRecovers | internal/simulator/simulator.go:188-191 | on a steady network where transfer is best, an EWMA run believes so, transfers and regrets nothing at every request from (probeEvery + 1) * enough on, probes included, where `enough` fades of the initial gap leave less than the margin |
| Adaptive.RecoveryIsCertain | internal/learner/ewma.go:32-34 | such a number of transfers exists for every gap and margin, and any that outgrows the gap linearly in alpha is one |
| Adaptive.NoProbesNoRecovery | internal/simulator/simulator.go:159 | with probing off, a learner of any kind that believes another plan on a steady network believes it forever |
| Adaptive.RunStatic | internal/simulator/simulator.go:129-145 | is the adaptive run of a learner that never learns, with no probes |
| Adaptive.StaticPrediction | internal/simulator/simulator.go:125-133 | the frozen belief has no startup and predicts the time that the bytes fill the frozen bandwidth |
| Controller.FindBestWithoutTransfer | internal/controller/controller.go:171-182 | for any candidates: fails exactly if all are transfers, otherwise returns the first of the cheapest that are not |
| Controller.BestOtherIsFirstLowest | internal/controller/controller.go:171-172 | and no other candidate is so |
| Controller.DecideRequest | internal/controller/controller.go:106-133 | the believed plan and the plan to take, or the error |
| Controller.Run | internal/controller/controller.go:80-169 | each config error first, in order; otherwise results, error and learner are those of the run request by request |
| ControllerRuns.DecisionMade | internal/controller/controller.go:120-133 | probe first, then the best other plan while down, else the cheapest plan; an error exactly on an unpriceable belief |
| ControllerRuns.StateIsHistory | internal/controller/controller.go:97-98 | at any point: the learner is the fold over exactly the successful calls in order, `down` holds iff the latest call failed, and `sinceTransfer` counts the requests after it |
| ControllerRuns.StoppedAt | internal/controller/controller.go:102-123 | where and why a run stopped: its log is that of the run up to that request, and the context, the failed call or the unpriceable request is that request's |
| ControllerRuns.FailureEndsRunIff | internal/controller/controller.go:150-162 | a failed call ends the run if and only if the context has ended or its code is InvalidArgument or PermissionDenied; otherwise it is recorded, the path is down, the learner is unchanged and the run goes on |
| ControllerRuns.OutageNeverEndsRun | internal/controller/controller.go:69-72 | under a context that never ends, with sound scenarios and a usable learner, a worker whose failures are never rejections lets every request finish |
| ControllerRuns.StopReturnsFinishedIff | internal/controller/controller.go:76-79 | a stopped run returns the finished requests if and only if there were none, the context had ended, or the request that stopped it could be priced; otherwise it returns none |
| ControllerRuns.FinishedRequestLost | internal/controller/controller.go:117-119 | a run of two requests that finishes one and returns none |
| ControllerRuns.NeverLosesRequestsIff | internal/controller/controller.go:74-79 | with a usable learner and positive reported times, every run returns its finished requests if and only if all scenarios are sound or the first is not |
| ControllerRuns.EachDecision | internal/controller/controller.go:63-69 | every finished request's believed and taken action, from the results before it alone |
| ControllerRuns.EachRecord | internal/controller/controller.go:35-43 | each finished request records the prediction of the belief it had and the worker's own answer to its call, or no seconds and no error |
| ControllerRuns.DeviationsExplained | internal/controller/controller.go:31-34 | believed and taken action differ only at a probe, or when transfer is believed while down |
| ControllerRuns.RetriesAreSpaced | internal/controller/controller.go:71-72 | the call after a failed one comes at least ProbeEvery + 1 requests later, with probing on |
| ControllerRuns.NeverRetriedWithoutProbes | internal/controller/controller.go:72 | with probing off a failed path is never called again |
| ControllerRuns.ProbesAreNotSkipped | internal/controller/controller.go:50-52 | with probing on, any ProbeEvery + 1 consecutive requests whose last has something to send contain a call |
| ControllerRuns.RunNeverRejectsBelief | internal/controller/controller.go:106-119 | over sound scenarios, a usable learner with positive reported times never has its belief rejected |
| Agreement.OneRequestAgreesIff | internal/controller/controller.go:142-166 | one request from agreeing states: the probe counts stay equal if and only if it is no transfer or has a whole byte to send, and counts and lesson both if and only if it is no transfer or a positive whole number of bytes |
| Agreement.AgreeThroughoutIff | internal/simulator/simulator.go:173-208 | with a client that succeeds with what `observe` would report, both loops believe, do, count and learn the same at every point of a run if and only if every transfer in it is of a positive whole number of bytes |
| Agreement.AgreesWithSimulator | internal/controller/controller.go:101-167 | in particular they do when every prefix is |
| Agreement.EmptyPrefixSeparatesThem | internal/simulator/simulator.go:197-206 | after a forced transfer of an empty prefix, the controller probes again at once and the simulator does not |
| Agreement.ShortPrefixPartsRuns | internal/simulator/simulator.go:197-206 | for every prefix of less than one byte, a run from the start on which the controller transfers where the simulator waits |
| Xfer.HeaderRoundTrip | internal/xfer/xfer.go:20-21 | every 64-bit length survives the 8-byte big-endian header, and every header is the header of its length |
| Xfer.HeaderIsBigEndian | internal/xfer/xfer.go:20-21 | byte i of a header counts in units of 256^(7-i), the first byte being the most significant |
| Xfer.FeedAllAppends | internal/xfer/xfer.go:56-75 | however the stream is cut into reads, the receiver ends up the same |
| Xfer.FramesParse | internal/xfer/xfer.go:53-55 | the receiver reads back exactly the lengths framed, in order |
| Xfer.Send | internal/xfer/xfer.go:19-35 | writes the frame, or as much of it as the connection takes, and succeeds exactly if all of it went and an ack came |
| Xfer.Serve | internal/xfer/xfer.go:56-75 | reads what the byte-by-byte receiver reads, acks each in turn, and ends cleanly exactly at a frame boundary |
| Xfer.ServeReadsWhatSendWrote | internal/xfer/xfer.go:17-18 | whole frames and then part of one: the whole ones are read and the part is not, unless it is all there |
| WorkerProtocol.ParsedIsPrefix | internal/xfer/xfer.go:59-70 | with bytes and acks in flight, the lengths read are a prefix of those sent, short of at most the last |
| WorkerProtocol.SettledIsClean | internal/xfer/xfer.go:32-34 | once the sender has read as many acks as it made sends, nothing is in flight either way and the receiver is at a boundary |
| WorkerSafety.StepKeepsInv | internal/worker/worker.go:51-98 | every step of a call, a receiver, a context, a tripwire or `Close` keeps the invariant |
| WorkerSafety.StepKeepsOrder | internal/worker/worker.go:63-64 | in particular, every step keeps the sends on each connection in the order in which their calls got the mutex |
| WorkerSafety.RunKeepsInv | internal/worker/worker.go:20-31 | so every state of every interleaving satisfies it |
| WorkerSafety.FramingHolds | internal/worker/worker.go:23-25 | the sizes a receiver has read are the sizes sent on its connection in lock order, short of at most the last, and each is what its own call asked for |
| WorkerSafety.PoolIsClean | internal/worker/worker.go:83-93 | whenever the mutex is free, every pooled connection is open, to its own peer, at a frame boundary, with nothing in flight, no deadline expired and no tripwire aimed at it |
| WorkerSafety.SuccessMeansConsumed | internal/worker/worker.go:94-97 | a call that succeeded had its own send, of its size to its peer, read in full |
| WorkerSafety.SendsAtMostOnce | internal/worker/worker.go:89-90 | no retry: a call begins at most one send, on one connection |
| WorkerSafety.UnreadMeansNoSuccess | internal/worker/worker.go:87-88 | the call behind a send that was not read in full has not succeeded |
| WorkerSafety.AckMeansAllRead | internal/xfer/xfer.go:17-18 | when `Send` returns nil, the receiver has read every byte on the connection and owes nothing |
| WorkerSafety.OnlyOwnCancellation | internal/worker/worker.go:76-79 | a connection in use expires only through its user's own tripwire, after its user's own context ended |
| WorkerSafety.OneSenderAtATime | internal/worker/worker.go:63-64 | two calls never have a connection at the same time |
| WorkerSafety.OutcomesAreHonest | internal/worker/worker.go:48-61 | each outcome code holds of the request that got it |
| WorkerOutcomes.GivingUpSendsNothing | internal/worker/worker.go:65-69 | a caller that gives up before its call gets to look at its context has nothing sent on any connection, ever, and a valid request for an allowed peer can then only end with the context's error |
| WorkerOutcomes.SendsReachTheirPeer | internal/worker/worker.go:52-61 | every send on a connection is a valid request for that connection's own, allowed peer; a refused request has sent nothing |
| WorkerOutcomes.RefusedIff | internal/worker/worker.go:54-61 | a finished request was refused as invalid exactly if malformed, and as not permitted exactly if well-formed for a peer that is not allowed |
| WorkerOutcomes.FailureBlames | internal/worker/worker.go:100-108 | a call that fails blames the context if its caller had given up by then and the network otherwise |
| WorkerOutcomes.NoConnectionLeaks | internal/worker/worker.go:86-93 | in every run a connection is open exactly while it is in the pool |
| WorkerOutcomes.CloseClosesEverything | internal/worker/worker.go:125-135 | closing the worker empties the pool and closes every connection |
| WorkerOutcomes.LateSendDropsConnection | internal/worker/worker.go:76-86 | once a send has begun after its caller's context ended, or its tripwire has fired, its connection is closed and out of the pool when the call is over, whatever the outcome |
| WorkerOutcomes.LandedTripwiresExpire | internal/worker/worker.go:79 | a tripwire that has run has expired its connection's deadline |
| WorkerProgress.SendNeverJams | internal/xfer/xfer.go:25-34 | in every run, while its receiver is up and its context live, some step of a send is possible, and every such step leaves it less to do |
| WorkerProgress.NewCallCanSucceed | internal/worker/worker.go:110-123 | after any history, with the mutex free, a new valid request can run to success, on the pooled connection if there is one, and leaves it pooled |

## Left out

- Floating point, NaN, infinities, `int64` overflow and rounding of `time.Duration` to nanoseconds: times, bytes and rates are reals, and learner properties are about the fields, not the rounded `Startup()`. A cost per byte of 0 gives bandwidth 0 here, which the cost model rejects as it rejects the source's infinity.
- The square root in `Line`'s spread test: replaced by the test on squares, with `LineFit.SpreadTest` showing that the two agree.
- `NewEWMA`, `NewLastSample`: their argument checks are those of `NewLine`, and appear here as the types of alpha and of the initial cost in the lemmas.
- The `Learner` interface is a record of functions over a state; a run holds one object with that state, and `Line`, `EWMA` and `LastSample` objects are each proved equal to their record.
- `Cake` and `Fixed` with fewer than one chunk or a negative size: `cmd/kvloadsim/main.go:40` rejects them, and `Cake`'s loop would not end without a chunk.
- `SendTime` of a negative size: the function follows the code, but only sizes of 0 or more are given a meaning.
- `Worker.Transfer` and `Worker.Close`: they run concurrently under a mutex, so they are steps of a relation rather than methods; the code between two steps is atomic, and `Close` is one step.
- TCP is two queues that may stop moving at any byte; bytes already written are not lost while the connection lives. Socket deadlines, dialing and timers are failures that may come at any time.
- The seconds a transfer takes in `Worker.Transfer`'s reply, wall-clock pacing (`waitUntil`) and each result's `At`: the replies and the end of a context are arbitrary functions of the request's position.
- gRPC, protobuf, `ServeAll`'s accept loop and logging: I/O around the modelled functions.
- `NoisyObserve` and its random numbers: `observe` is any function, which may differ from request to request.
- `internal/simulator/workload.go`, `internal/simulator/adaptation.go`, `internal/controller/csv.go`, `internal/xfercsv`, `cmd/`, `scripts/`: generators, summaries, parsing and printing, which would only add easy members.
- Termination under fairness: `WorkerProgress` shows that a live send can always go on and gets nearer its end, not that a scheduler lets it.
