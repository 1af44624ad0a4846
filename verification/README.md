# fusecraft: limiter, bucket, engine, sampling and namespace, verified

This project models the concurrent core of fusecraft in Dafny and proves what it promises for every
input, every run and every interleaving. `dafny verify dfyconfig.toml` checks all of it.

| file | content |
|---|---|
| `Wrappers.dfy`, `Sums.dfy`, `Words.dfy` | optional values; weighted sums over sequences, every counter below is one; numbers as machine words |
| `LimiterProtocol.dfy`, `LimiterTheorems.dfy` | the blocking limiter as a state machine; its invariant, admission, drain |
| `BlockingLimiter.dfy` | the limiter object with its real fields and wait loops, each method a run of the protocol |
| `TokenBucket.dfy`, `BandwidthLimiter.dfy` | the token bucket: closed form, least wait, windows, completions; the object |
| `SampleKey.dfy` | the key finaliser on 64-bit words: bijectivity and when seeds collide |
| `FaultSampler.dfy`, `SamplerBinding.dfy` | fault rules over a stream of draws; the engine's samplers built from both |
| `EngineProtocol.dfy`, `EngineInvariant.dfy`, `EngineTheorems.dfy` | `run_op` on many threads as a transition system; its invariant and theorems |
| `EngineBandwidth.dfy` | the bucket theory carried over to the delays that calls meet in runs of the engine |
| `EngineInWords.dfy` | the engine's laws in terms of the configuration's own fields: tiers, buckets, defaults, events, metrics |
| `ReplyBodies.dfy` | what events report when the results of the reply bodies are given |
| `ScheduleRuns.dfy`, `Determinism.dfy` | schedules made to measure; exactly when admission does not depend on the schedule |
| `Workloads.dfy`, `WorkloadOutcomes.dfy` | threads with programs of calls; exactly when numbers, and when outcomes, do not depend on the schedule |
| `EventLogs.dfy` | how event logs agree then |
| `SimEngine.dfy` | the engine object; `RunOp` runs the stages with arbitrary steps of other threads in every gap |
| `FlatNamespace.dfy`, `Paging.dfy` | names, lookup, attributes, listings; reading a directory in pages |
| `Content.dfy` | synthetic content, clamped reads, whole-file readers |

How the parts fit together:

- **Limiter.** A thread is idle, parked on the condition variable, woken (notified or spuriously), expired, or
  holding a slot. One step is one critical section or one wake-up. The fast path may overtake waiters, wake-ups may
  be spurious, timeouts race notifications, and `notify_one` may pick any parked thread. The counters are integers,
  so that an underflow would be visible. The invariant carries *no lost wake-up*: while someone is parked,
  slots in use plus notified waiters are at least the cap. Drain and the absence of deadlock rest on it.
- **Bucket.** Tokens and times are reals. After any history the balance is the least headroom over all starting
  requests; the wait is the least one that fits; queries and zero-byte reservations leave no trace.
- **Engine.** Each thread has a pc in `run_op`; the per-op limiters are instances of the limiter protocol, the buckets
  those of the bucket model. History variables record each call's owner (a thread that owes the event, or the event)
  and fate (pending, refused, served with its injection and delay).
- **Reproducibility.** The number of threads bounds how many calls run at once. With it, the configuration alone tells
  whether any schedule can refuse a call, and whether outcomes depend on the schedule.
- **Objects.** `BlockingLimiter`, `BandwidthLimiter`, `SimEngine`, the directory sink and the content store have the
  source's fields and loops; their methods are tied to the state machines and functions above. Clock readings
  enter as arguments; what other threads do during a wait or between stages enters as a schedule.

## Where the documentation and the code differ

- `sampler/key.rs:3-6` promises a unique seed and `key.rs:20-21` that any field change yields an independent stream.
  Single-field changes do change the seed (`SingleFieldChangesSeed`), but several fields can cancel: `SeedsNotUnique`
  gives a concrete pair, and `SeedsCollideIff` and `OffsetSeqCollision` say exactly when it happens.
- `README.md:12-13` and `docs/fidelity.md:66-73` promise identical event logs for the same workload. For a workload, that
  is a program of calls per thread, the sequence number enters the sampler key, and threads race for numbers: all
  schedules number the calls alike if and only if at most one thread has anything to do (`NumbersFixedIff`). The calls
  meet the same refusals and injections in all schedules, for every generator, if and only if at most one thread has
  anything to do or every call is of an operation with a zero cap (`OutcomesFixedIff`; the race is `NumbersAreARace`).
  With one program the logs are identical in all but the bandwidth delay (`SoleLog`). Runs that number the calls alike
  may still differ in *admission*: with `n` threads their outcomes agree, whatever the calls, if and only if every
  operation has a zero cap or `n <= cap + queue_cap` (`DeterminismIff`); otherwise one schedule serves a call that
  another one refuses (`AdmissionDependsOnSchedule`). With positive caps the same bound decides whether any schedule
  ever refuses a call (`NeverRefusedIff`), and under it logs agree event by event (`LogsAgree`, `InjectionsAgree`).
  Wall-clock fields are not modelled.
- `docs/architecture.md:55` says that a release frees the slot for the next waiting operation. Nothing is reserved: from
  every reachable state with a woken waiter, newcomers can take all slots before it re-checks, so that it waits again
  (`WaiterMayBeOvertaken`), and just as well it can be served (`WaiterMayBeServed`).

## Model

| member | source | states |
|---|---|---|
| LimiterProtocol.StepKeepsInv | crates/fusecraft-core/src/limiter/concurrency.rs:93-214 | every critical section and wake-up keeps exact counters, the caps and no-lost-wakeup, through barging, spurious wake-ups, timeouts and re-parking |
| LimiterTheorems.CountersExact | crates/fusecraft-core/src/limiter/concurrency.rs:10-34 | in every reachable state inflight counts the live guards, queued the waiters, acquired = inflight + releases, calls = acquired + rejected + queued, and no release underflows |
| LimiterTheorems.FreeSlotIsPromised | crates/fusecraft-core/src/limiter/concurrency.rs:121-134 | a parked waiter beside a free slot means that another waiter has been notified and not yet re-run |
| LimiterTheorems.ExactAdmission | crates/fusecraft-core/src/limiter/concurrency.rs:93-117 | with a positive cap `acquire` is refused exactly when inflight + queued = cap + queue_cap |
| LimiterTheorems.RejectionMeansFull | crates/fusecraft-core/src/limiter/concurrency.rs:142-194 | every refusal, also after any number of turns of the timed loop, happens while all slots are taken |
| LimiterTheorems.WaitersOutnumberSlots | crates/fusecraft-core/src/limiter/concurrency.rs:101-119 | in every reachable state, someone waits only if there are more threads than slots |
| LimiterTheorems.WaiterMayBeOvertaken | crates/fusecraft-core/src/limiter/concurrency.rs:101-134 | from every reachable state and for every woken waiter, arrivals of idle threads alone can fill all slots before it re-checks, so that it has to wait again |
| LimiterTheorems.WaiterMayBeServed | crates/fusecraft-core/src/limiter/concurrency.rs:121-134 | steps of other threads alone can also leave it a slot |
| LimiterTheorems.DrainNeverSticks | crates/fusecraft-core/src/limiter/concurrency.rs:118-135 | while some caller is unfinished, a release, re-check or timeout is possible: no deadlock |
| LimiterTheorems.UntimedWaiterIsAdmitted | crates/fusecraft-core/src/limiter/concurrency.rs:118-135 | a queued caller of `acquire` leaves the queue only with a slot |
| LimiterTheorems.Drain | crates/fusecraft-core/src/limiter/concurrency.rs:118-214 | without arrivals and spurious wake-ups every run is at most seven steps per thread long, and a maximal one ends with nothing in flight or queued and every untimed waiter admitted |
| LimiterTheorems.DrainCompletes | crates/fusecraft-core/src/limiter/concurrency.rs:118-214 | such a complete drain exists from every state of the invariant |
| BlockingLimiterObject.BlockingLimiter.constructor | crates/fusecraft-core/src/limiter/concurrency.rs:68-81 | a new limiter is the initial state of the protocol |
| BlockingLimiterObject.BlockingLimiter.TryEnter | crates/fusecraft-core/src/limiter/concurrency.rs:93-119 | the shared first part of both acquires: zero cap, fast path, full queue, or joining the queue |
| BlockingLimiterObject.BlockingLimiter.Acquire | crates/fusecraft-core/src/limiter/concurrency.rs:93-137 | with any steps of others during its waits, performs a protocol run that starts with its own entry; refused exactly on a zero cap or when all slots and queue places are taken on entry; a queued caller takes the first turn of its own that finds a free slot, and waits on only if there is none |
| BlockingLimiterObject.MissesNothing | crates/fusecraft-core/src/limiter/concurrency.rs:121-194 | at each turn of its own before the end of its wait a caller is asleep, or finds all slots taken with its time not up |
| BlockingLimiterObject.HowWaitsEnd | crates/fusecraft-core/src/limiter/concurrency.rs:121-194 | it still waits only when all turns are over; a free slot at the deciding turn means granted, and giving up means full slots and time up |
| BlockingLimiterObject.TurnsHappen | crates/fusecraft-core/src/limiter/concurrency.rs:121-134 | during the wait every possible step of another thread happens at its turn, and a re-check in vain changes nothing but parking the caller again |
| BlockingLimiterObject.BlockingLimiter.AcquireTimeout | crates/fusecraft-core/src/limiter/concurrency.rs:142-196 | performs a protocol run, with both timeout exits; any refusal leaves inflight at the cap; a queued caller is decided at the first turn of its own that finds a free slot, which grants it, or its time up, which refuses it |
| BlockingLimiterObject.BlockingLimiter.Release | crates/fusecraft-core/src/limiter/concurrency.rs:210-231 | dropping a guard gives the slot back, notifies one parked waiter if there is one, and never underflows |
| BlockingLimiterObject.BlockingLimiter.Stats | crates/fusecraft-core/src/limiter/concurrency.rs:198-207 | the snapshot is the number of guards and waiters, and balances with the totals |
| TokenBucket.ClosedForm | crates/fusecraft-core/src/limiter/bandwidth.rs:87-150 | after any history of positive reservations the balance is the minimum over all starting requests of burst + refill since then - bytes since then |
| TokenBucket.LeastWait | crates/fusecraft-core/src/limiter/bandwidth.rs:108-122 | the returned wait is exactly the least non-negative one after which every window of the history is covered |
| TokenBucket.WindowBound | crates/fusecraft-core/src/limiter/bandwidth.rs:105-122 | completions follow reservation order, and between two of them no more bytes pass than burst plus refill |
| TokenBucket.ThrottledAreLate | crates/fusecraft-core/src/limiter/bandwidth.rs:111-116 | with a positive rate the throttle count is the number of requests that were not covered when they arrived |
| TokenBucket.TotalIsSum | crates/fusecraft-core/src/limiter/bandwidth.rs:96-100 | the total is the sum of all bytes reserved, up to 2^64 - 1 |
| TokenBucket.CompletionSpacing | crates/fusecraft-core/src/limiter/bandwidth.rs:105-122 | arriving at a bucket in debt, a request completes exactly bytes/rate after its predecessor; otherwise after its own shortfall |
| BandwidthLimiterObject.RefillsCompose | crates/fusecraft-core/src/limiter/bandwidth.rs:139-150 | refilling at two instants is refilling at the later one, under the burst cap and at any rate |
| BandwidthLimiterObject.ObservationIsFree | crates/fusecraft-core/src/limiter/bandwidth.rs:87-136 | queries and zero-byte reservations anywhere in a run change no wait, throttle count, total or later balance |
| BandwidthLimiterObject.BandwidthLimiter.Reserve | crates/fusecraft-core/src/limiter/bandwidth.rs:87-123 | updates the fields as the bucket model does and returns the least wait for the whole logged history, whatever queries came between; no wait for zero bytes or a non-positive rate |
| BandwidthLimiterObject.BandwidthLimiter.Stats | crates/fusecraft-core/src/limiter/bandwidth.rs:126-136 | reports, of the logged history, the sum of the bytes up to saturation and the number of requests that had to wait, none for a non-positive rate; with a positive rate exactly the bytes up to the reported balance can be reserved without wait |
| BandwidthLimiterObject.BandwidthLimiter.Fill | crates/fusecraft-core/src/limiter/bandwidth.rs:139-150 | `refill` on the fields is the model's refill |
| SampleKeys.FinalizeBijective | crates/fusecraft-core/src/sampler/key.rs:47-49 | the finaliser has a two-sided inverse on 64-bit words |
| SampleKeys.SeedsCollideIff | crates/fusecraft-core/src/sampler/key.rs:39-50 | two seeds coincide exactly when the xor-ed inputs do |
| SampleKeys.StreamsDiffer | crates/fusecraft-core/src/sampler/key.rs:53-60 | for every key the latency and fault streams start from different seeds |
| SampleKeys.KnownSeeds | crates/fusecraft-core/src/sampler/key.rs:11-14 | the two seeds of one key, which fix rotations, stream constants, shifts and multipliers |
| SampleKeys.SingleFieldChangesSeed | crates/fusecraft-core/src/sampler/key.rs:20-36 | changing exactly one field of a key changes the seed |
| SampleKeys.OffsetSeqCollision | crates/fusecraft-core/src/sampler/key.rs:40-46 | two calls that differ in offset and sequence number share seeds exactly when offset xor rotated sequence number agree |
| SampleKeys.SeedsNotUnique | crates/fusecraft-core/src/sampler/key.rs:3-6 | call 0 at offset 65536 and call 1 at offset 0 share their seeds |
| FaultSampler.FirstFiringRuleDecides | crates/fusecraft-core/src/sampler/fault.rs:20-31 | the decision is the errno of the first rule whose own draw is below its rate; no fault means that none fires |
| FaultSampler.SampleFault | crates/fusecraft-core/src/sampler/fault.rs:20-31 | the loop over the rules with its advancing generator computes that decision |
| FaultSampler.OtherOpsDoNotLeak | crates/fusecraft-core/src/sampler/fault.rs:23-28 | rules for other operations never affect the result |
| FaultSampler.AppendedRules | crates/fusecraft-core/src/sampler/fault.rs:23-30 | appended rules leave hits alone and otherwise decide with the remaining draws |
| FaultSampler.RaisedRatesKeepHits | crates/fusecraft-core/src/sampler/fault.rs:25-27 | raising rates never turns a hit into a miss |
| FaultSampler.CertainRates | crates/fusecraft-core/src/sampler/fault.rs:23-30 | a matching rule of rate 1 guarantees a fault, rates of 0 exclude one |
| SamplerBinding.FaultIsolation | docs/fidelity.md:46-64 | over every run: the rules of a served call are the large tier's for a read or write of more than the threshold and the base rules otherwise; if the first of them for its op is certain its event reports that errno, and if none for its op has a positive rate it reports what the reply body gave, whatever other ops' rules are |
| SamplerBinding.CallStreamsDiffer | crates/fusecraft-core/src/engine/mod.rs:151-160 | every call draws its fault and its latency from different seeds |
| SamplerBinding.OneChangeOtherSeeds | crates/fusecraft-core/src/engine/mod.rs:151-160 | calls that differ in exactly one of op, inode, offset, length below 2^32 - 1 and number modulo 2^64 have different fault seeds and different latency seeds |
| SamplerBinding.SharedSeeds | crates/fusecraft-core/src/engine/mod.rs:151-158 | nothing else takes part: not the requested length, not what a length exceeds 2^32 - 1 by |
| SamplerBinding.SameCallOtherSeed | crates/fusecraft-core/src/engine/mod.rs:114-158 | a call repeated under the next number draws from other seeds |
| SamplerBinding.KnownCallSeeds | crates/fusecraft-core/src/engine/mod.rs:151-158 | the two seeds of one call, which fix which of its fields goes where in the key |
| EngineInvariant.StepKeepsInv | crates/fusecraft-core/src/engine/mod.rs:110-204 | every step of every thread keeps the limiter, ownership, fate, metrics and charge invariants |
| EngineTheorems.Bookkeeping | crates/fusecraft-core/src/engine/mod.rs:114-203 | the counter is events emitted plus calls without event; event numbers are distinct and below it; per op ok and error metrics equal the events minus the threads between emit and record |
| EngineTheorems.SlotsExact | crates/fusecraft-core/src/engine/mod.rs:121-203 | the slots in use per op are exactly its calls between admission and guard drop, at most the cap |
| EngineTheorems.ScheduleIndependence | crates/fusecraft-core/src/engine/mod.rs:134-160 | in any two runs, calls with one number and context that are served in both have the same fault decision and latency, and their events say so |
| EngineTheorems.Replay | docs/architecture.md:74-77 | a finished single-threaded run with positive caps refuses nothing, and its events report in order the injections that configuration and contexts determine |
| ReplyBodies.EventsSayResults | crates/fusecraft-core/src/engine/mod.rs:171-194 | in every run the event of a served call reports the injected fault, and without one exactly the result of the reply body |
| Determinism.NeverRefusedIff | crates/fusecraft-core/src/engine/mod.rs:114-131 | no schedule of n threads ever refuses a call if and only if every operation has slots and n is at most slots plus queue places |
| Determinism.DeterminismIff | docs/fidelity.md:66-73 | finished runs of n threads give the same calls, in the order of their numbers, the same refusals and injections whatever the schedule, if and only if every operation has no slot or n is at most slots plus queue places |
| Determinism.AdmissionDependsOnSchedule | docs/fidelity.md:66-73 | for every configuration and n where the condition fails, two finished runs of the same calls, one serving and one refusing the last |
| EventLogs.LogsAgree | docs/fidelity.md:66-73 | under the condition, the logs of any two finished runs of the same calls have one event per call and agree, number by number, in everything but the bandwidth delay |
| EventLogs.InjectionsAgree | docs/fidelity.md:66-73 | under the condition, and whatever the reply bodies give, events of equal number agree on op, inode, offset, length, latency, and on the refusal or injected errno |
| Workloads.NumbersFixedIff | crates/fusecraft-core/src/engine/mod.rs:114-115 | for any programs of any number of threads: every call has the same number in all finished schedules if and only if at most one thread has anything to do |
| Workloads.OrderIsPossible | crates/fusecraft-core/src/engine/mod.rs:114-115 | every order of the calls that keeps each thread's program is the numbering of some finished run, in which all calls of operations with slots are served |
| WorkloadOutcomes.OutcomesFixedIff | docs/fidelity.md:66-73 | for every seed and any programs: every call meets the same refusal or injection in all finished schedules, for every generator, if and only if at most one thread has anything to do or every call is of an operation with a zero cap |
| WorkloadOutcomes.NumbersAreARace | crates/fusecraft-core/src/engine/mod.rs:114-147 | whatever the generator: any call of an operation with slots, with another thread that has something to do, gets number j in one schedule and j + 1 in another, and its latency comes from two different seeds |
| EventLogs.SoleLog | docs/fidelity.md:66-73 | if one thread has all the calls of a workload, every schedule leaves the same log, event by event and in order, in everything but the bandwidth delay |
| EngineTheorems.ChargesConserved | crates/fusecraft-core/src/engine/mod.rs:148-166 | each bucket has reserved, up to saturation, the effective lengths of the served calls routed to it by requested length; the tiers partition the served data calls, and refused calls cost nothing |
| EngineBandwidth.BucketsReplayCharges | crates/fusecraft-core/src/engine/mod.rs:148-160 | over any run each bucket is the replay of the charges to it; these are, each once, the served calls with bytes that are routed there; and each call's delay is the wait of its turn |
| EngineBandwidth.EngineWindow | crates/fusecraft-core/src/engine/mod.rs:156-167 | with a positive rate, callers of any threads may proceed in the order of their charges, and between two of them no more bytes pass than burst plus refill |
| EngineBandwidth.EngineDelayIsLeast | crates/fusecraft-core/src/engine/mod.rs:156-167 | every delay is the least one with which the whole history of charges to the bucket is covered |
| EngineBandwidth.EngineTotals | crates/fusecraft-core/src/limiter/bandwidth.rs:96-116 | over any run a bucket's throttle count is the number of calls charged to it that were delayed, its total the sum of their bytes up to saturation |
| EngineBandwidth.EventDelays | crates/fusecraft-core/src/engine/mod.rs:156-194 | an event tells its call's delay, which is zero for refused, metadata and empty calls and for tiers without bucket |
| EngineInWords.ServedInWords | crates/fusecraft-core/src/engine/mod.rs:148-161 | in every reachable state a served read or write of more than the threshold has its fault and latency sampled from the large tier's rules and profile, every other served call from the base ones, with the key of its own fields |
| EngineInWords.ChargeInWords | crates/fusecraft-core/src/engine/mod.rs:250-275 | a charge reserves the effective length in the large bucket for a long read or write, in the base bucket for a short one, nowhere for other ops, and leaves every other bucket alone |
| EngineInWords.BaseTotalInWords | crates/fusecraft-core/src/engine/mod.rs:164-167 | in every reachable state the base bucket exists exactly if configured, and its total is that of the served reads or writes that do not exceed the threshold |
| EngineInWords.LargeTotalInWords | crates/fusecraft-core/src/engine/mod.rs:164-167 | the same of the large bucket and the served reads or writes that exceed it |
| EngineInWords.DelayInWords | crates/fusecraft-core/src/engine/mod.rs:163-167 | over any run a served call that is no read or write, or is empty, or whose tier has no bandwidth, has no delay; any other is in the ledger of its tier's bucket, with the wait of its turn |
| EngineInWords.LimitersInWords | crates/fusecraft-core/src/engine/mod.rs:59-61 | every limiter has the configured caps, or 64 slots and no queue |
| EngineInWords.UnconfiguredOp | crates/fusecraft-core/src/config.rs:349-374 | an op that is not configured has 64 slots, no queue and no bucket, samples no rules and the default profile, and is never delayed by bandwidth |
| EngineInWords.EventInWords | crates/fusecraft-core/src/engine/mod.rs:122-131 | every event tells the fields of its own call; a refused one EAGAIN and no delays, a served one the sampled latency, the bandwidth delay and any injected errno |
| EngineInWords.MetricsInWords | crates/fusecraft-core/src/engine/mod.rs:198-199 | in a quiet state the metrics of each op count its events without and with an errno |
| EngineTheorems.DrainNeverSticks | crates/fusecraft-core/src/engine/mod.rs:110-204 | while some call is unfinished, some thread can take its next step |
| EngineTheorems.QuietState | docs/architecture.md:49-55 | in a quiet state all slots are back, every number has exactly one event, and the metrics are the events counted |
| EngineTheorems.Drain | crates/fusecraft-core/src/engine/mod.rs:110-204 | from every reachable state, without new calls, runs are bounded and a maximal one is quiet, on the success, fault, body-error and refusal paths alike |
| EngineTheorems.DrainCompletes | crates/fusecraft-core/src/engine/mod.rs:110-204 | such a drain exists |
| SimEngineObject.SimEngine.BuildResources | crates/fusecraft-core/src/engine/mod.rs:57-78 | every op gets a limiter with its own or the default caps, and exactly the configured buckets |
| SimEngineObject.SimEngine.SampleAndReserve | crates/fusecraft-core/src/engine/mod.rs:148-166 | tier selection, sampling and the reservation are the engine's charge step |
| SimEngineObject.SimEngine.EmitEvent | crates/fusecraft-core/src/engine/mod.rs:181-197 | appends the one event of the call and nothing else |
| SimEngineObject.SimEngine.DropGuard | crates/fusecraft-core/src/engine/mod.rs:201-203 | returns the slot and notifies a parked waiter if there is one |
| SimEngineObject.SimEngine.RunOp | crates/fusecraft-core/src/engine/mod.rs:110-204 | with arbitrary steps of other threads in every gap between its accesses to shared state, a finished call is logged by exactly its event, and the reply is EAGAIN if refused, else the injected fault, else the body's result; a call without reply is asleep in the queue after all turns given to it |
| FlatNamespace.NamesRoundTrip | crates/fusecraft-core/src/namespace/flat.rs:70-92 | a name parses to n exactly if n is in range and the name is its six-digit printing |
| FlatNamespace.NameDigits | crates/fusecraft-core/src/namespace/flat.rs:70-73 | the name of an index is its six decimal digits, leading zeros included |
| FlatNamespace.LookupInWords | crates/fusecraft-core/src/namespace/flat.rs:122-128 | inode 1 leads to 2 by `objects` alone, 2 to 100 + n by the name of n alone, other inodes nowhere |
| FlatNamespace.ListingInWords | crates/fusecraft-core/src/namespace/flat.rs:139-183 | listings are the dots, then the children in order of their indices, with cookies that count from 1 |
| FlatNamespace.AttrIffReachable | crates/fusecraft-core/src/namespace/flat.rs:122-137 | exactly the root and what lookups yield have attributes |
| FlatNamespace.ListingAgrees | crates/fusecraft-core/src/namespace/flat.rs:122-183 | the children of the full listing are exactly the (name, inode) pairs that `lookup` accepts |
| FlatNamespace.AttributesAgree | crates/fusecraft-core/src/namespace/flat.rs:130-183 | exactly directories have listings, and listed inodes have attributes of the listed kind, with its size, permissions and link count |
| FlatNamespace.ChildrenDistinct | crates/fusecraft-core/src/namespace/flat.rs:139-183 | no two children share a name, inode or cookie, or are called like a dot entry |
| Paging.Readdir | crates/fusecraft-core/src/namespace/flat.rs:139-183 | pushes the entries behind the cookie, in order: the sink wanted more after each but the last, and said stop at that one if anything is left; without a stop exactly the listed entries with larger cookies; ENOTDIR exactly for all inodes but 1 and 2 |
| Paging.FuseReaddir | crates/fusecraft-fuser/src/lib.rs:294-333 | the reply is a first part of the entries behind the cookie, all of which fitted, and the next one, if there is one, does not fit |
| Paging.ReadThroughSinks | crates/fusecraft-core/src/namespace/flat.rs:139-183 | restarting `readdir` at the last cookie, with sinks that stop whenever they like, until a page is empty: terminates, and the pages together are the listing, each entry once and in order; only non-directories fail |
| Paging.ReadThroughReplies | crates/fusecraft-fuser/src/lib.rs:294-333 | the same for the adapter's collect-then-fill loop, with any replies that have room for one entry |
| Paging.PagingIsComplete | crates/fusecraft-core/src/namespace/flat.rs:139-183 | however pages are cut, resuming at the last cookie shows the listing once and in order, complete with the first empty page or after as many pages as entries |
| Paging.SinkGivesPage | crates/fusecraft-core/src/namespace/mod.rs:48-57 | any fresh sink takes a first part of what is left, at least one entry |
| Paging.ReplyGivesPage | crates/fusecraft-fuser/src/lib.rs:317-327 | a reply with room for one entry takes a first part of what is left, at least one entry |
| Content.Read | crates/fusecraft-fuser/src/lib.rs:173-216 | returns min(size, file length - offset) bytes, none behind the end, each the generator's at its own offset without wrap-around, and reports that length as the effective and the size as the requested one |
| Content.DeterministicContent.ReadAt | crates/fusecraft-core/src/content/deterministic.rs:51-55 | fills every byte of the buffer with the generator at the wrapping offset |
| Content.KnownBytes | crates/fusecraft-core/src/content/deterministic.rs:14-22 | two known bytes, which fix the multipliers, shifts and rotations of the generator |
| Content.KnownGenerator | crates/fusecraft-core/src/content/deterministic.rs:51-55 | one known byte of a file, which fixes the order of inode, offset and seed |
| Content.EveryByteOccurs | crates/fusecraft-core/src/content/deterministic.rs:14-22 | under every seed each byte value stands at some offset of every file number |
| Content.ReadToEnd | crates/fusecraft-fuser/src/lib.rs:173-248 | a loop of reads of positive sizes, with any writes in between, until a read is empty: terminates with exactly the rest of the file, charged byte by byte, and with the first read after the sizes asked for add up to it |
| Content.RunClient | crates/fusecraft-fuser/src/lib.rs:173-248 | a given sequence of reads and writes on the store receives the file without gap, each byte charged once, as many bytes as it asks for or as are left |

## Left out

- f64 rounding, `Duration` truncation and saturation: tokens, times and rates are reals, so waits are exact.
- `total_queue_wait_ns`, event timestamps, queue waits and total durations: wall-clock readings.
- FIFO order and starvation freedom of the limiter: they do not hold, see `WaiterMayBeOvertaken`.
- BlockingLimiterObject.BlockingLimiter.Stats: the cumulative queue wait of the snapshot is a sum of clock readings and is not modelled.
- EventLogs.LogsAgree: the order of the events in the log is that of the schedule; events are compared by number.
- `StdRng`, Box-Muller and the latency formula: a generator is any function from seed to draws, latency any function of profile and seed.
- Wrap-around of the u64 sequence number and totals: the counters are unbounded; only the key takes the number modulo 2^64.
- Panicking reply bodies and a poisoned guard drop.
- SimEngineObject.SimEngine.RunOp: the per-op limiters and buckets are values of the protocol models inside the engine object, so aliasing between limiter objects is not captured; the wait loop gives up after a given number of turns and then reports that the call is still queued; that the event's delay is the bucket's wait is stated over runs, by `EngineBandwidth.BucketsReplayCharges`.
- BlockingLimiterObject.BlockingLimiter.AcquireTimeout: the deadline arithmetic is reduced to whether time remains and whether the wait timed out.
- Content.DeterministicContent.ReadAt: of the distribution of the synthetic bytes only `EveryByteOccurs` is claimed.
- Config parsing and validation, TOML, errno tables, histograms, the JSONL sink, mounting and the CLI.
- Names that are not UTF-8: they are represented by strings with a character that is not a digit, which the parser rejects in the same way.
- statfs, access, open, flush and release bodies: they have no state.
