# msync in Dafny

A model of msync, a header-only library that merges timestamped message
streams. Each stream feeds a *policy*: a time-ordered storage plus a rule
(`doPeek`) that says which message, if any, answers a query at time `t`.
A *synchronizer* keeps a time pivot. After every accepted message it runs
a join loop with three steps:

1. Pick the next candidate stamp above the pivot.
2. Peek every policy at that stamp.
3. Emit a tuple, or skip the stamp, or wait.

Its `updatePivot` then moves the pivot. That happens in one of two ways,
by minimum interval or by master/slave.

The model is functional. Storages, policies and synchronizer states are
immutable datatypes, and each C++ member function becomes a pure Dafny
function, or a method where a loop is the point. The modules mirror the
headers:

| module | file | models |
|---|---|---|
| `Types` | types.dfy | `Time` (int64), `PolicyAttribute`, the status codes, and the `Result`/`Option` wrappers |
| `Interpolation` | interpolation.dfy | `LinearInterpolaterTraits::plus`/`between`, and the additive instance over reals |
| `MapStorage` | map_storage.dfy | `StorageBase` and `MapStorage`, as a strictly increasing `seq<(Time, M)>` with a history window |
| `ExactTime`, `Nearest`, `LinearInterpolate`, `Newest` | exact_time.dfy, nearest.dfy, linear_interpolate.dfy, newest.dfy | the four `doPeek` strategies |
| `Policies` | policies.dfy | `Policy::push/sucTime/peek/queueSize`, `PolicyArray`, and a participant that is one policy or an array |
| `Synchronizer` | synchronizer.dfy | `SyncronizerBase::push/checkQueue/sucTime/tryEmit/queueSize`, plus both `updatePivot` strategies |
| `JoinSteps` | join_steps.dfy | one-round facts about the join loop, used to evaluate concrete runs |
| `Scenarios`, `Interpolated`, `CatchUp`, `Interface` | scenarios.dfy, interpolated.dfy, catch_up.dfy, interface.dfy | the synchronizer scenarios of test/sync_test.cpp, replayed as lemmas |

Some C++ mechanisms are represented differently:

- A registered callback becomes the *trace*. This is the list of
  `Emission(time, outputs)` a callback would have received, in order.
- A `std::pair<Msg, bool>` output becomes an `Option<M>`.
- Iterators become optional indices into the storage sequence.
- The join loop is `Synchronizer.Loop`, which decreases on `TimeMax - pivot`.
  `Synchronizer.RoundConsumesPending` also shows that each continuing round
  uses up one stored stamp above the pivot.

## Model

| member | source | states |
|---|---|---|
| Types.AttributeOrder | msync/types.h:8-12 | attributes are strictly and totally ordered, with Optional < Normal < Master |
| Types.PeekCodesOrdered | msync/types.h:19-21 | the three peek codes are pairwise distinct and ordered NotReady < Expired < Success |
| Types.ContinuesIffExpiredOrSuccess | msync/types.h:23-25 | "greater than kEmitNotReady" holds exactly for Expired and Success |
| Interpolation.AdditiveRoundTrip | msync/traits.h:12-15 | `plus(a, between(a, b)) == b` for the default traits over reals |
| Interpolation.AdditiveBlend | msync/traits.h:13-14 | scaling `between` by r and adding gives `a + r (b - a)`; r = 0 gives a, r = 1 gives b, r = 1/2 gives the midpoint |
| MapStorage.Push | msync/supported_storages/map_storage.h:35-48 | rejected iff non-empty and `t <= back` (nothing changes then); otherwise the entry is appended and the oldest is dropped iff it is older than `t - history_win`; at most one entry leaves; the order stays strict; the history window stays the same; with a non-negative window the new entry is the back |
| MapStorage.AppendIncreasing | msync/storage.h:19-22 | appending a stamp above the back keeps the stamps strictly increasing |
| MapStorage.Find | msync/supported_storages/map_storage.h:58 | finds an index whose stamp is `t`, and finds none iff no entry has stamp `t` |
| MapStorage.UpperBound | msync/supported_storages/map_storage.h:61 | the index that splits stamps `<= t` from stamps `> t` |
| MapStorage.FindPre | msync/supported_storages/map_storage.h:60-63 | the entry with the greatest stamp `<= t`, and none iff every stamp is `> t` |
| MapStorage.FindSuc | msync/supported_storages/map_storage.h:65-67 | the entry with the smallest stamp `> t`, and none iff every stamp is `<= t` |
| MapStorage.NeighboursAdjacent | msync/supported_storages/map_storage.h:60-67 | when both exist, the successor is the entry right after the predecessor |
| MapStorage.NeighboursUnique | msync/storage.h:39-47 | predecessor and successor are each unique |
| MapStorage.SizeCountsStamps | msync/supported_storages/map_storage.h:50 | the size of a storage is the number of distinct stamps it holds |
| MapStorage.Front | msync/supported_storages/map_storage.h:69 | on a non-empty storage, a stored entry whose stamp is the smallest |
| MapStorage.Back | msync/supported_storages/map_storage.h:71 | on a non-empty storage, a stored entry whose stamp is the largest |
| ExactTime.DoPeek | msync/supported_policies/exact_time.h:30-40 | found iff some entry is stamped exactly `t`, and then its message |
| ExactTime.IgnoresWindow | msync/supported_policies/exact_time.h:30-40 | the result does not depend on the history window |
| Newest.DoPeek | msync/supported_policies/newest.h:34-43 | found iff the storage is non-empty, and then the back's message |
| Newest.IgnoresTime | msync/supported_policies/newest.h:34 | the result is the same for every query time |
| Nearest.Select | msync/supported_policies/nearest.h:34-53 | selects the predecessor unless the successor is strictly closer, and selects neither when no distance is below the sentinel |
| Nearest.DoPeek | msync/supported_policies/nearest.h:30-61 | empty storage gives nothing; a result is the message of a neighbour that is chosen (within the window, no farther than the other neighbour, the predecessor winning ties); no result means every neighbour lies outside the window |
| Nearest.NeighboursAre | msync/supported_policies/nearest.h:36-37 | the only candidates are exactly `findPre(t)` and `findSuc(t)` |
| Nearest.PreChosen | msync/supported_policies/nearest.h:39-45 | a predecessor within the window and no farther than the successor is the chosen neighbour, so ties go to it |
| Nearest.SucChosen | msync/supported_policies/nearest.h:47-53 | a successor is chosen only when it is strictly closer than the predecessor |
| Nearest.ExactHit | msync/supported_policies/nearest.h:36-45 | an entry stamped exactly `t` is the one returned, for any window `>= 0` |
| Nearest.FoundIff | msync/supported_policies/nearest.h:55-56 | found iff some neighbour lies within the window |
| LinearInterpolate.DoPeek | msync/supported_policies/linear_interpolater.h:32-71 | nothing when no stamp is `<= t`; an exact hit returns that message unchanged; past a single sample it does not extrapolate |
| LinearInterpolate.Interpolates | msync/supported_policies/linear_interpolater.h:59-69 | strictly between two consecutive samples, the result is their blend at the ratio `(t - lo)/(hi - lo)` |
| LinearInterpolate.Extrapolates | msync/supported_policies/linear_interpolater.h:53-61 | past the newest of two or more samples, the line through the newest two is extended iff `t - newest <= predict_win` |
| LinearInterpolate.InteriorRatio | msync/supported_policies/linear_interpolater.h:64 | between two samples the ratio lies strictly inside (0, 1) |
| LinearInterpolate.AdditiveEstimate | msync/supported_policies/linear_interpolater.h:64-68 | with the additive traits the estimate is `a + (t - t0)/(t1 - t0) (b - a)`, and the midpoint at the middle stamp |
| Policies.Push | msync/policy.h:51-53 | the new storage is exactly the storage's own push result, and the verdict is its verdict: accepted iff the storage is empty or `t` is above its back; nothing changes on rejection; the size grows by at most one; the attribute and strategy are kept |
| Policies.SucTime | msync/policy.h:55-63 | the smallest stored stamp `> t`; the sentinel when there is none or when the policy's attribute is below the asked one |
| Policies.DoPeek | msync/policy.h:65-76 | the strategy a policy was built with decides the lookup; an empty storage finds nothing; ExactTime finds a value iff `t` is stored, and then that entry's message; Newest finds a value iff the storage is non-empty, and then the back's message; Nearest returns only the message of a chosen neighbour; LinearInterpolate returns the stored message on an exact hit |
| Policies.QueueSizeCounts | msync/policy.h:80 | a policy's queue size is the number of distinct stamps it stores |
| Policies.Peek | msync/policy.h:65-74 | Success iff `doPeek` found a value; Expired iff not found, non-empty and `t` below the newest stamp; otherwise NotReady |
| Policies.ExactTimeClassified | msync/policy.h:65-74 | for ExactTime: Success iff `t` is stored; Expired iff `t` is not stored and lies below the newest stamp; NotReady otherwise |
| Policies.NewestNeverExpired | msync/supported_policies/newest.h:34-43 | for Newest, peek is never Expired: Success when non-empty, NotReady when empty |
| Policies.ArrayPush | msync/policy.h:103-105 | a fault iff the member id is out of range; otherwise only that member changes, by its own push |
| Policies.ArraySucTime | msync/policy.h:107-113 | the minimum over the members, i.e. the smallest stamp `> t` visible in any member, or the sentinel |
| Policies.ArrayScan | msync/policy.h:121-128 | one output per member in index order; the success flag holds iff every non-Optional member succeeds; the expiry flag holds iff some non-Optional member expired |
| Policies.PartPeek | msync/syncronizer.h:108-109 | peeking a participant returns the single policy's own peek output and status, or the array's aggregated peek outputs and status; for a single policy Success iff the output holds a value; for an array one output per member, Success iff every non-Optional member's own peek succeeds |
| Policies.ArrayPeek | msync/policy.h:115-139 | outputs in member order; Success iff every non-Optional member succeeds; Expired iff that fails and some non-Optional member expired; NotReady otherwise |
| Policies.ArrayQueueSize | msync/policy.h:141 | a fault iff the id is out of range, otherwise that member's storage size |
| Policies.PartPush | msync/syncronizer.h:40 | routes a push to the participant's policy, or to the addressed array member, with that member's accept/reject result; the new participant is the single policy's push result, or the array with only the addressed member replaced by its push result; a fault iff the array id is out of range |
| Policies.PartSucTime | msync/syncronizer.h:88-90 | a participant's successor stamp is the least visible stored stamp `> t`, or the sentinel |
| Synchronizer.Candidate | msync/syncronizer.h:81-98 | the least stamp `> t` stored in any policy whose attribute is not below the asked one, or the sentinel when none exists |
| Synchronizer.MasterCandidates | msync/syncronizer.h:195-196 | in master/slave mode every candidate is a stamp of a Master policy, and no Master stamp above the pivot is skipped |
| Synchronizer.EmitFromSpec | msync/syncronizer.h:104-118 | scanning from the last policy down, the first non-Success peek decides: Expired on Expired, NotReady otherwise; a full pass collects the outputs in declaration order |
| Synchronizer.TryEmitSpec | msync/syncronizer.h:100-127 | Success iff every participant peeks Success, and then the outputs are the peeks in order; otherwise the deciding (last non-Success) participant's status gives Expired or NotReady; attributes are not consulted |
| Synchronizer.Interest | msync/syncronizer.h:154-158 | the attribute the synchronizer asks candidates of (`kNormal` here, `kMaster` in the master/slave constructor at line 196) is never Optional, and is Master exactly for the master/slave kind |
| Synchronizer.TryEmit | msync/syncronizer.h:100-127 | the emission scan; what it computes is stated by `Synchronizer.TryEmitSpec` (row above) |
| Synchronizer.RoundPassesCandidate | msync/syncronizer.h:163-169 | with a gap of at least 1, a round that does not stop moves the pivot strictly above the old pivot, onto or past the candidate, and the next candidate lies strictly above the one just handled |
| Synchronizer.UpdatePivot | msync/syncronizer.h:163-169 | NotReady keeps the pivot; Expired moves it to `t`; Success moves it to `t + gap - 1` (gap is the minimum interval, or 1 for master/slave, which gives `t`) |
| Synchronizer.Loop | msync/syncronizer.h:62-79 | the join loop over an abstract view of the participants; what it guarantees is stated by `Synchronizer.LoopAdvances` and `Synchronizer.LoopSpaced` (rows below) |
| Synchronizer.Join | msync/syncronizer.h:62-79 | `checkQueue` on a synchronizer: the pivot never falls, every emission lies above the old pivot and at or below the new one, and consecutive emissions are at least the mode's gap apart |
| Synchronizer.LoopAdvances | msync/syncronizer.h:62-79 | the loop never lowers the pivot, and every emission lies above the old pivot and at or below the new one |
| Synchronizer.LoopSpaced | msync/syncronizer.h:163-169 | emissions of one loop are at least a gap apart, and the last is at least `gap - 1` below the final pivot |
| Synchronizer.JoinEmitsSuccesses | msync/syncronizer.h:72-75 | every emission is at a visible stamp where the attempt succeeds with exactly the emitted outputs |
| Synchronizer.JoinQuiescent | msync/syncronizer.h:67-76 | the loop stops only when there is no candidate or the candidate is NotReady |
| Synchronizer.RoundConsumesPending | msync/syncronizer.h:67-76 | every continuing round removes at least its candidate from the stamps pending above the pivot, so the loop terminates |
| Synchronizer.CheckQueue | msync/syncronizer.h:62-79 | the do-while computes the join loop's pivot and trace; it reports Emitted iff something was emitted, otherwise Accepted |
| Synchronizer.Settle | msync/syncronizer.h:62-79 | after an accepted message the pivot does not fall, the emissions lie between the old and new pivot and are spaced by the gap, and the participants are unchanged |
| Synchronizer.Push | msync/syncronizer.h:38-45 | fault iff the array id is out of range; Dropped iff the target storage rejects; nothing changes on fault or drop; otherwise only the pushed participant changes and the join loop runs; Emitted iff the trace is non-empty; the pivot never falls and emissions stay spaced |
| Synchronizer.PushStoresMessage | msync/syncronizer.h:39-41 | after an accepted push the addressed policy is exactly its own push's result; with a non-negative history window the pushed `(t, msg)` is the newest entry of its storage; an array keeps its size and every other member |
| Synchronizer.AcceptedPush | msync/syncronizer.h:39-41 | after an accepted push the state is quiescent, and each emission is a successful attempt at a visible stamp |
| Synchronizer.QueueSize | msync/syncronizer.h:51-57 | the storage size of the participant, or of the addressed array member; a fault iff the id is out of range |
| Synchronizer.Run | msync/syncronizer.h:38-45 | over any sequence of pushes the pivot never falls and all emissions stay a gap apart |
| JoinSteps.CandidateIs | msync/syncronizer.h:81-98 | a visible stamp above `t` with no visible stamp in between is the candidate |
| JoinSteps.CandidateNone | msync/syncronizer.h:68-70 | with no visible stamp above `t` the candidate is the sentinel |
| JoinSteps.TryEmitTwo | msync/syncronizer.h:104-118 | for two participants the second is peeked first; the emission succeeds only when both succeed |
| JoinSteps.JoinStops | msync/syncronizer.h:68-76 | a sentinel or NotReady candidate ends the loop with the pivot unchanged and nothing emitted |
| JoinSteps.JoinExpires | msync/syncronizer.h:166-167 | an Expired candidate moves the pivot onto it and the loop goes on from there |
| JoinSteps.JoinEmitsOnce | msync/syncronizer.h:164-165 | a successful candidate followed by a quiet round gives one emission and pivot `t + gap - 1` |
| JoinSteps.PushedFaults | msync/policy.h:103-105 | a push to an array id outside the array is a fault that leaves the synchronizer unchanged and emits nothing |
| Scenarios.FirstPushAccepted | test/sync_test.cpp:215-217 | the first message on stream 0 is Accepted |
| Scenarios.PartnerEmits | test/sync_test.cpp:218 | its partner at the same stamp is Emitted, as the pair at 0, and the pivot becomes 9 |
| Scenarios.DuplicateDropped | test/sync_test.cpp:222-225 | a second message at the same stamp is Dropped and changes nothing |
| Scenarios.SecondAccepted | test/sync_test.cpp:231-232 | stream 0 accepts stamps 0 and 5 |
| Scenarios.ExpiredSkipped | test/sync_test.cpp:233-234 | stream 1 at 4 is Accepted; stamps 0 and 4 expire, so the pivot is 4 |
| Scenarios.LaterEmits | test/sync_test.cpp:235-236 | stream 1 at 5 is Emitted with the pair at 5, and the pivot becomes 14 |
| Scenarios.FifthAccepted | test/sync_test.cpp:245 | after the pair at 0, stream 0 at 5 is Accepted with the pivot kept at 9 |
| Scenarios.PartnerFifthAccepted | test/sync_test.cpp:246 | stream 1 at 5 is Accepted too: 5 lies within the minimum interval |
| Scenarios.TenthAccepted | test/sync_test.cpp:248 | stream 0 at 10 is Accepted, with stream 1 not yet ready there |
| Scenarios.TenthEmits | test/sync_test.cpp:249-250 | stream 1 at 10 is Emitted with the pair at 10, and the pivot becomes 19 |
| Scenarios.QueuePush | msync/supported_storages/map_storage.h:43-45 | in the queue-size run, a push appends and drops the oldest entry once it lies more than 10 back |
| Scenarios.QueueSizes | test/sync_test.cpp:179-203 | with history window 10, pushes at 0, 2, ..., 14 leave sizes 1, 2, 3, 4, 5, 6, 6, 6 |
| Scenarios.ZeroIntervalRepeats | msync/syncronizer.h:154-165 | with a minimum interval of 0 and both streams holding a message at 0, the candidate above pivot -1 is 0, the emission there succeeds, and the success puts the pivot back at -1, so the same candidate comes round again |
| Interpolated.FirstSample | test/sync_test.cpp:312 | stream 0's sample at 0 is Accepted |
| Interpolated.SecondSample | test/sync_test.cpp:313 | stream 0's sample at 10 is Accepted |
| Interpolated.LineAt | msync/supported_policies/linear_interpolater.h:47-69 | between samples at 0 and 10, the peek at `2n` is the linear estimate (the sample itself at 0) |
| Interpolated.JoinAt | test/sync_test.cpp:316-320 | after stream 1's message at `2n` the join emits once at `2n`, with stream 0 interpolated there, and waits at `2n + 1` |
| Interpolated.PushAt | test/sync_test.cpp:316-320 | each of stream 1's messages at 0, 2, 4, 6, 8 is Emitted at its own stamp |
| Interpolated.PushTen | test/sync_test.cpp:321 | stream 1's message at 10 is Emitted at 10, so the emission times are 0, 2, ..., 10 |
| Interpolated.PushEleven | test/sync_test.cpp:322-323 | stream 1's message at 11 is Accepted with nothing emitted |
| CatchUp.FrontAccepted | test/sync_test.cpp:264-266 | while stream 1 is empty, each newer stream-0 message within the window is Accepted and the pivot stays at -1 |
| CatchUp.ThreeAccepted | test/sync_test.cpp:264-266 | stream 0's samples at 0, 10 and 20 are each Accepted |
| CatchUp.ThreePeeks | msync/supported_policies/linear_interpolater.h:59-69 | stream 0 answers at 1 and at 11 a tenth of the way along its lines from 0 to 10 and from 10 to 20 |
| CatchUp.FirstLate | test/sync_test.cpp:268-269 | stream 1's first message at 1 expires stamp 0, is Emitted once at 1, and moves the pivot to 10 |
| CatchUp.WaitSteps | msync/supported_policies/linear_interpolater.h:53-61 | with stream 1 at or before 10, the candidate 20 is NotReady because a prediction window of 0 forbids extrapolation |
| CatchUp.LateWaits | test/sync_test.cpp:271-278 | stream 1's messages at 3, 6 and 8 are Accepted and the pivot stays at 10 |
| CatchUp.CatchCandidates | msync/syncronizer.h:81-98 | once stream 1 reaches 11 the candidate after 10 is 11, and nothing lies after 20 |
| CatchUp.LateCatches | test/sync_test.cpp:280-281 | stream 1's message at 11 is Emitted once at 11, with stream 0 interpolated between 10 and 20, and the pivot moves to 20 |
| CatchUp.RampAccepted | test/sync_test.cpp:292-297 | stream 0's samples at 0, 2, ..., 10 are each Accepted |
| CatchUp.RampExpires | msync/syncronizer.h:166-167 | after stream 1's message at 9, each of stream 0's stamps 0 to 8 is the next candidate in turn and expires |
| CatchUp.RampLoop | msync/syncronizer.h:62-79 | any join loop whose candidates 0 to 8 expire and whose candidate 9 succeeds emits exactly once, at 9, and stops at 18 |
| CatchUp.RampCaughtUp | test/sync_test.cpp:299-301 | stream 1's message at 9 is Emitted, and the only emission time is 9 |
| Interface.FirstQueueSizes | test/sync_test.cpp:25-28 | after one message on stream 0, queue 0 holds one entry and queue 1 none |
| Interface.ArrayPushFaults | test/sync_test.cpp:39-43 | in an array of two, ids 0 and 1 are accepted and id 2 is a fault |
| Interface.ArrayQueueSizes | test/sync_test.cpp:48-54 | under master/slave the array's queue sizes are 1 and 2, and id 2 is out of range |
| Interface.OntoOne | msync/supported_storages/map_storage.h:35-48 | a newer message within the window of a lone entry is appended after it |

## Notes on the source

Behaviours of the code worth knowing; the model follows the code.

- Eviction in `MapStorage::pushImpl` is a single `if`
  (msync/supported_storages/map_storage.h:43-45), not a loop. One push
  removes at most one entry.
- With a negative history window, an accepted push into an empty storage
  evicts the entry it has just inserted.
- `tryEmit` peeks the participants from the last to the first. It stops at
  the first non-Success, and it does not consult `kOptional`
  (msync/syncronizer.h:104-118). This differs from `PolicyArray::peek`,
  which skips Optional members.
- `Policy::peek` calls `storage_.backStamp()`, which `StorageBase` does not
  declare. It is read as the stamp of `back()`.

## Left out

- Eigen quaternion and SE(3) payloads (msync/supported_messages/eigen_quaternion.h and msync/supported_messages/eigen_se3.h are not part of this model): interpolation is an abstract `plus`/`between`/scale record, and only the additive instance over reals is proved.
- Heterogeneous policy tuples: every stream of one synchronizer carries the same payload type `M`. A participant is one policy or a policy array.
- `registerCallback` and `std::function`: the emission trace records what a callback would receive.
- The `double` ratio of linear interpolation: it is a Dafny `real`, so rounding is not modelled.
- Signed 64-bit overflow: `t + min_interval - 1`, `time - history_win`, `std::abs` in Nearest and `time - hig->first` are computed on unbounded integers. Stored stamps are still confined to the int64 range. The pivot is an unbounded `int`.
- CRTP, allocators, `std::map` internals, `begin`/`end` and the unused `PolicyBase::derived`: storage is a sequence, and iterators are optional indices.
- Constructors and `timePivot()` are datatype constructors and field reads. `Synchronizer.Init` (pivot -1) has no contract of its own. The scenarios start from its value.
- A minimum interval below 1 is excluded by `Synchronizer.Valid`; see Findings.
- Constructor defaults are not modelled: the policy's default attribute `kNormal` (msync/policy.h:48) and the default history windows of the strategies' constructors. Every `Policy` value in the model is built with its window, attribute and strategy given explicitly.
- A stored stamp equal to the int64 maximum cannot be told apart from the "no candidate" sentinel. This is the same as in the source.
- Synchronizer.QueueSize: requires the participant's kind to match the id form (no id for a single policy, an id for an array), because the source resolves that overload at compile time.
- Scenarios.QueueSizes: replays the queue-size test on the pushed policy alone. Stream 1 of that synchronizer stays empty, so no push there emits, and `queueSize` reads only the storage size.
- The construction-only interface tests (test/sync_test.cpp:31-35, 57-166) are not replayed: they build synchronizers over Eigen messages and assert nothing about the model's behaviour.
- LinearInterpolate.DoPeek: its own contract covers only the no-predecessor, exact-hit and single-sample cases. Interpolation and extrapolation are stated by `LinearInterpolate.Interpolates` and `LinearInterpolate.Extrapolates`.
- Nearest.FoundIff: requires a valid window below the int64 maximum, because a neighbour at the sentinel distance is never selected.
- Synchronizer.Run: states pivot monotonicity and spacing over the whole run. The per-push statuses are stated by `Synchronizer.Push`.

## Findings

| source | as written | input that shows it | evidently intended | confidence | as-written member | corrected member |
|---|---|---|---|---|---|---|
| msync/syncronizer.h:154-165 | the minimum-interval constructor takes any interval, and a success sets the pivot to `time + min_interval_ - 1` | min interval 0, both streams holding a message at 0, pivot -1: the emission at 0 succeeds and the pivot goes back to -1, so `checkQueue` picks 0 again and never returns | a minimum interval of at least 1, so a success puts the pivot on or past its candidate | medium, not executed | Scenarios.ZeroIntervalRepeats | Synchronizer.RoundPassesCandidate |
