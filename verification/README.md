# Reliamesh, modelled and proved in Dafny

Reliamesh ingests reliability events for many tenants, keeps two bounded sample windows per
stream, opens and closes incidents by statistical rules, stores one expiring state per tenant,
and can publish a hash of a window report on Solana Devnet. This project states what each of
its stateful parts promises and proves it for every input, every run or every reachable state.

The modules, by part:

- **Detection.** `Protocol` (events and derived ids), `Numerics` (sorting, medians, rounding,
  the Wilson interval over exact reals), `Judgement` (window statistics, signals, recovery),
  `Ranks`, `Intervals` and `Rules` (the same in numbers of rows and ranked values),
  `Tenant` (what pruning, one event and one batch do, as functions on states), `Engine` (the
  same operations on a working copy updated in place, proved equal to `Tenant`), `Invariants`,
  `Pruning` and `Batches` (what every step keeps), `Ageing`, `Admission` and `Openings` (what
  time takes away, which calls are accepted or refused and how, what an event does to
  incidents), `Runs` (whole runs against the expiring store), `Endpoint` (the transaction
  callback), and the results over runs: `ExactlyOnce`, `Reachable`, `TwoWindows`, `Provenance`,
  `BatchShape`, `Healing` and `Liveness`, `Reports` and `Figures`.
- **Storage.** `Accounts` is the contract, with neither tables nor documents in it.
  `SqliteStore` and `FirestoreStore` are classes over their own records, each operation proved
  to meet the contract; `Tables` holds the record-level facts both need, and `StoreEquality`
  drives the two side by side. `Service` composes storage with detection: what callers of either
  store are told is what a run does.
- **Attestation.** `Positional` and `Base58` (numerals and the codec), `Wire` (the one memo
  transaction: build, verify, send gate), `LegacyFormat` (what any reader finds in it),
  `Publication` (publishing as a protocol of interleaved, failing runs over exclusive files).
- **SDK, API and release checks.** `Delivery` (the flush batcher), `JsonText` and
  `DepthScanner` (the nesting guard), `Licenses` (the dependency closure).

Conventions. Instants are integers and a run's clock never goes backwards. A hash over
canonical JSON is a free constructor, so equal hashes mean equal records. `score` gives the rate
and interval of so many failures among so many samples: `Numerics.Scored` is the detector's own,
from the Wilson formula, and the results about the detector hold for every score that meets
`Bounded` (the recovery deadline: `Clears`), as the Wilson score is proved to; the rules in
numbers of rows are about the Wilson score itself. `fits` and `small`
are the serialized-size limits, arbitrary predicates. `when` gives each event id its one
timestamp, which is the protocol's rule that an id names one event (docs/protocol.md:12); only
results about incidents use it. Exactly-once acceptance, the two-window view, where samples come
from, and the equality of the in-place code with its specification hold whatever was submitted.
One clock reading serves a whole transaction.

Three facts about the code the proofs bring out:

- The `not signals` guard in `_evaluate` never changes the outcome
  (`Judgement.RecoveryImpliesQuiet`).
- The final re-encoding comparison in `_decode58` never rejects anything its length check
  accepts (`Base58.EncodePlain`), which is why the readiness tool's length-only check agrees
  with it (`Base58.Hash32Agrees`).
- The client's send gate never refuses a transaction `publish` has built
  (`Publication.GateAdmits`).

## Model

| member | source | states |
|---|---|---|
| Numerics.Round6Monotone | src/reliamesh/detection.py:113 | rounding to six digits, ties to even, never reverses an order |
| Numerics.Round6Fixes | src/reliamesh/detection.py:113 | a value that has at most six digits is left alone, so rounding moves nothing across such a bound |
| Numerics.SortCorrect | src/reliamesh/detection.py:128-129 | the ordering behind medians and the 95th percentile is a nondecreasing rearrangement |
| Numerics.WilsonOrdered | src/reliamesh/detection.py:92-102 | with any nonnegative root the interval's bounds are ordered and lie in [0, 1] |
| Numerics.WilsonUnclamped | src/reliamesh/detection.py:101-102 | with the exact root neither clamp ever acts |
| Numerics.WilsonContains | src/reliamesh/detection.py:92-102 | with the exact root the interval contains the observed rate |
| Numerics.ScoredBounded | src/reliamesh/detection.py:92-102 | so the detector's score of a proportion meets what recovery asks of it |
| Numerics.ScoredClears | src/reliamesh/detection.py:92-102 | and fifty samples without a failure score an upper bound of at most 0.24, which is what the recovery deadline asks |
| Ranks.CountAboveCounts | src/reliamesh/detection.py:130-131 | counting the elevated values gives the number of positions whose value is above the threshold |
| Ranks.MedianByRank | src/reliamesh/detection.py:128 | the median is the value of middle rank, or the mean of the two, and nothing else is |
| Ranks.PercentileByRank | src/reliamesh/detection.py:129 | the sorted value picked is the least one with at least 95% of the values at or below it, and nothing else is |
| Intervals.Round6Nearest | src/reliamesh/detection.py:113 | rounding gives the nearest multiple of one millionth, of two equally near ones the even one |
| Intervals.ScoredExact | src/reliamesh/detection.py:92-102 | the detector's score gives the observed rate, and an interval holding exactly the proportions x with n(p - x)^2 <= z^2 x(1 - x), those the score test does not reject; the rules below hold for that score |
| Intervals.AbsoluteAlarm | src/reliamesh/detection.py:147 | with 25 to 50 rows the rounded lower bound passes one half exactly when the failures exceed the successes by d with d^2 > z^2 n |
| Intervals.SixFailures | src/reliamesh/detection.py:174 | of fifty rows the rounded upper bound reaches 0.25 exactly from the seventh failure on |
| Judgement.SignalKinds | src/reliamesh/detection.py:143-166 | the signal map holds exactly the kinds whose own rule fires, for all five kinds |
| Judgement.SignalsTell | src/reliamesh/detection.py:134-159 | the evidence kept with a signal names the right window's figures and by itself shows that the threshold was crossed |
| Judgement.SignalsSupported | src/reliamesh/detection.py:143-166 | a comparison fires only against a full baseline with the known values recovery will later need |
| Rules.KnownCollects | src/reliamesh/detection.py:107-109 | a window's values of a metric are its rows' own, in order, unknown ones left out |
| Rules.WindowDescribed | src/reliamesh/detection.py:105-120 | every statistic kept of a window, as numbers of its rows, ranks of its values and its first and last instants |
| Rules.SignalRule | src/reliamesh/detection.py:123-166 | exactly when each of the five signals fires: numbers of failed rows, or the later median above the alarm level and provably more values above it, the level being the highest of 95th percentile, 1.5 medians and median plus minimum |
| Rules.AllRise | src/reliamesh/detection.py:123-140 | if every known current value passes the level set by 40 known baseline values, the metric's signal fires |
| Rules.SteadyBaseline | src/reliamesh/detection.py:123-140 | against a constant baseline x that level is max(1.5 x, x + minimum) |
| Judgement.RecoveredTotal | src/reliamesh/detection.py:169-187 | recovery is decidable, with no missing rate or median, from any supporting baseline |
| Rules.RecoveryRule | src/reliamesh/detection.py:169-187 | exactly when an incident is over: fifty rows, at most 6 failed, at most 2 more than in the baseline, and for each gathered metric 40 known values with a median within 1.25 medians or median plus slack of the baseline |
| Judgement.RecoveryImpliesQuiet | src/reliamesh/detection.py:169-199 | once firing kinds are merged into the incident, a passed recovery test means no signal of any kind is firing |
| Pruning.PruneInv | src/reliamesh/detection.py:53-80 | pruning at any time keeps the whole state invariant |
| Pruning.FirstIsEach | src/reliamesh/detection.py:88-89 | looking records up by their first occurrence makes no difference once ids are distinct |
| Pruning.PruneComposes | src/reliamesh/detection.py:53-85 | pruning at t1 and then at t2 >= t1 is pruning at t2: windows, lapsed incidents with closing times, versions and cache |
| Pruning.PruneIdempotent | src/reliamesh/detection.py:53-85 | a state just pruned has nothing left to prune |
| Ageing.PruneAges | src/reliamesh/detection.py:53-85 | exactly what time takes away: streams, rows, cache entries and records seven days old; a baseline with an expired row is dealt out again and its open incident ends as expired at the instant its oldest row turned seven days old; nothing else changes |
| Batches.AcceptInv | src/reliamesh/detection.py:242-277 | accepting one new event keeps the invariant and never raises an exception |
| Batches.FoldInv | src/reliamesh/detection.py:228-278 | so does folding any batch |
| Batches.EvictSound | src/reliamesh/detection.py:279-282 | eviction leaves exactly min(size, 2048) entries, drops none newer than a kept one, and raises the floor exactly to the newest dropped entry if that is higher |
| Batches.CloseInv | src/reliamesh/detection.py:279-284 | closing a batch keeps the invariant and bounds the cache |
| Batches.SortEventsSame | src/reliamesh/detection.py:228 | ordering a batch only rearranges it |
| Batches.ProcessInv | src/reliamesh/detection.py:217-287 | a whole call keeps the invariant and fails only by a documented refusal |
| Admission.Verdict | src/reliamesh/detection.py:217-287 | the outcome of every call from its state and batch: batch size, else the first offence in time order (expired, future, conflict, stale replay, stream limit, late, version limit, each with its own condition), else every unseen event is taken and counted and the rest are duplicates, unless the result is too large |
| Admission.TimelyAccepted | src/reliamesh/detection.py:228-278 | a batch of 1 to 100 events in time, above the floor, unseen, none older than its stream's last, within 16 streams and 8 labels a stream, is taken whole |
| Admission.FirstEvent | src/reliamesh/detection.py:247-278 | what a new tenant's first event stores and is answered, in full |
| Admission.CallVerdict | src/reliamesh/api.py:255-269 | the same verdict for any call after any run, followed by the day's quota; no other outcome exists |
| Openings.RowKeeps | src/reliamesh/detection.py:263-267 | the row kept of an event holds its instant, failure, label and measurements, tokens only when both counts are known |
| Openings.AcceptQuiet | src/reliamesh/detection.py:201-214 | an accepted event opens an incident exactly when the windows it leads to alarm, with which record, and what a full history gives up for it; otherwise the history is unchanged |
| Openings.AcceptDegraded | src/reliamesh/detection.py:190-200 | an open record gathers what alarms now and closes exactly when the windows are over every gathered kind, at that event's instant, its window becoming the baseline; no other record changes |
| Openings.OneEventCall | src/reliamesh/detection.py:217-287 | so a call that takes one event does to what readers saw just before it |
| Openings.ServedOne | src/reliamesh/api.py:255-269 | after any run |
| Openings.RiseOpens | src/reliamesh/detection.py:123-140 | the event that completes windows risen well above a steady baseline opens an incident of that metric |
| Engine.Working.constructor | src/reliamesh/detection.py:54 | the working copy starts as the stored state |
| Engine.Working.Prune | src/reliamesh/detection.py:53-80 | the in-place loops over cache, incidents and streams end in the pruned state, records that share an id included |
| Engine.Working.PruneStreams | src/reliamesh/detection.py:58-79 | the loop over streams prunes every stream once, in whatever order the dictionary lists them |
| Engine.Working.PruneOne | src/reliamesh/detection.py:59-79 | one round prunes one stream and lapses exactly the first record with the id it names, leaving all else |
| Engine.Working.Evaluate | src/reliamesh/detection.py:190-214 | the in-place evaluation updates one record, or closes it with its stream, or appends one after making room |
| Engine.Working.EnterStream | src/reliamesh/detection.py:242-262 | the stream an event enters, or the stream-limit, late or version-limit refusal, checked in that order |
| Engine.Working.Accept | src/reliamesh/detection.py:242-277 | one event folded in place is one accepted event of the specification, or its error |
| Engine.Working.Take | src/reliamesh/detection.py:228-278 | one round of the batch loop: expired, future, duplicate, conflict, stale or accepted |
| Engine.Slide | src/reliamesh/detection.py:268-273 | popping and appending in place is the specified roll of the two windows |
| Engine.SortKeys | src/reliamesh/detection.py:280 | the keys come back without repetition, oldest first with ties broken by id |
| Engine.Working.EvictOldest | src/reliamesh/detection.py:279-282 | the eviction loop is repeated removal of the oldest entry |
| Engine.ProcessEvents | src/reliamesh/detection.py:217-287 | the whole call, with its early exits, computes the specified result for every batch |
| Endpoint.Update | src/reliamesh/api.py:258-266 | the callback meters the day and refuses the batch that would pass the quota, leaving the document as specified |
| Endpoint.LoadedOwned | src/reliamesh/api.py:258-268 | every document any run hands the callback meets the callback's precondition |
| ExactlyOnce.FoldTook | src/reliamesh/detection.py:228-278 | a batch accepts only in-time ids not in the cache and above the floor, each once, caches all of them, and accounts for every event as accepted or duplicate |
| ExactlyOnce.LoadRemembers | src/reliamesh/storage.py:319-326 | whatever the store hands back, expired or not, still accounts for every accepted event that is not past retention |
| ExactlyOnce.RunSound | src/reliamesh/storage.py:24 | over every run the cache, the floor and the retention constant together remember the whole log |
| ExactlyOnce.AcceptedOnce | src/reliamesh/detection.py:228-241 | over any run with a nondecreasing clock no (id, timestamp) pair is accepted twice |
| ExactlyOnce.ReplayAcceptsNothing | src/reliamesh/detection.py:235-241 | replaying accepted events later, in any combination, is refused or reported entirely as duplicates |
| ExactlyOnce.DailyQuotaHolds | src/reliamesh/api.py:258-266 | no day of any run accepts more events than the quota, even across store expiry |
| Reachable.RunHealthy | src/reliamesh/detection.py:217-287 | the state invariant and the cache bound hold of every stored document of every run |
| Reachable.NeverRaises | src/reliamesh/detection.py:88-89 | no call of any run fails to find an active incident's record or meets a missing rate or median |
| Reachable.Bijection | src/reliamesh/detection.py:190-214 | open incidents and degraded streams pair off one to one, each naming the other |
| Reachable.ReachableBijection | src/reliamesh/detection.py:57-74 | the pairing and the bounds hold in every reachable state and in what any reader sees of it |
| Reachable.BaselineFrozen | src/reliamesh/detection.py:268-276 | while an incident is open its recorded baseline statistics are those of its stream's baseline, which still decides its signals |
| Reachable.VersionsKnown | src/reliamesh/detection.py:83-85 | every retained row's version label is in its stream's version map |
| Reachable.OpenNeverEvicted | src/reliamesh/detection.py:202-206 | making room in a full history never drops an open incident, and the history stays within 32 |
| Reachable.RunNamed | src/reliamesh/detection.py:207-214 | in every document of every run a stream names only its own incident and records sit under their own stream, with no rule about event ids |
| TwoWindows.WindowsRefineHistory | src/reliamesh/detection.py:62-78 | a stream that no accepted call ever degraded shows exactly its newest 100 unexpired accepted samples, the first 50 as baseline once there are 50; one not shown has none |
| TwoWindows.RollViewed | src/reliamesh/detection.py:268-276 | rolling and promoting append to that view |
| TwoWindows.PruneViewed | src/reliamesh/detection.py:62-78 | pruning with rebuild prunes that view |
| Provenance.RunSourced | src/reliamesh/detection.py:266-276 | in every stored document and every reader's view each stream is well shaped and its rows are, in order, the samples of distinct accepted events of that stream |
| Provenance.HeldEvents | src/reliamesh/detection.py:266-276 | those events can be named: an order-preserving selection from the log, one per row |
| BatchShape.BatchOrder | src/reliamesh/detection.py:228 | a batch is taken oldest first, ties by id |
| BatchShape.OrderIrrelevant | src/reliamesh/detection.py:217-287 | permuting a batch gives the same state and counts, or a refusal both times |
| BatchShape.CutIrrelevant | src/reliamesh/detection.py:217-287 | without cache overflow, cutting an ordered batch into two calls at one instant agrees with the single call, errors included, up to unused version labels, unless the size guard refuses one of the three |
| BatchShape.GuardOnlyRefuses | src/reliamesh/detection.py:285-286 | the size guard changes no outcome except by its own refusal |
| BatchShape.ClashRejected | src/reliamesh/detection.py:234-237 | two different events under one id and time are never accepted together |
| Healing.HelpfulWindow | src/reliamesh/detection.py:169-187 | fifty successes whose comparable values are within the recovery limits fire nothing and pass every recovery test, whatever kinds were gathered |
| Healing.AcceptHeals | src/reliamesh/detection.py:190-200 | each helpful success of the stream brings its incident one row nearer to closing, and other streams' events take nothing away |
| Healing.AcceptKeepsClosed | src/reliamesh/detection.py:201-214 | no accepted event opens a closed incident again |
| Healing.PruneHeals | src/reliamesh/detection.py:57-78 | a prune keeps the successes that count towards closing an incident it keeps open |
| Liveness.HelpfulSuccessesClose | src/reliamesh/detection.py:169-200 | an incident open at some point of a run is closed for good, in the store and for every reader, once its stream's next 50 accepted events help, whatever is accepted after them, refused, pruned, evicted or forgotten |
| Liveness.FiftySuccessesClose | src/reliamesh/detection.py:147-159 | the case of failure-rate signals and no comparable measurements: the next 50 accepted successes |
| Liveness.CalmSuccessesClose | src/reliamesh/detection.py:178-187 | the case of any signals: 50 successes whose value of every comparable metric is known and within max(1.25 median, median + delta) |
| Liveness.SinceLog | src/reliamesh/api.py:258-268 | the accepted events these results count are exactly what the run's log gained |
| Liveness.ColdStartCloses | src/reliamesh/detection.py:147-150 | with an empty baseline any next 50 accepted successes close the incident, whatever they measured and whatever follows |
| Reports.SummaryStable | src/reliamesh/detection.py:308-327 | a summary does not depend on how often the state was pruned before |
| Reports.SameFingerprint | src/reliamesh/detection.py:297-301 | two failures share a fingerprint exactly when operation, classification and the nine component labels agree; nothing else of an event enters it |
| Reports.FingerprintsMatch | src/reliamesh/detection.py:290-303 | rows sampled from given events have exactly the fingerprints of those events, with multiplicity |
| Reports.FingerprintsCountEvents | src/reliamesh/detection.py:290-303 | after any run a stream's fingerprints never meet a missing label and are those of the accepted events, each counted once, that its window holds |
| Reports.ReportValid | src/reliamesh/attestation.py:53-61 | the report of a well-formed state passes every bound and validator |
| Reports.ReportCountsDegraded | src/reliamesh/attestation.py:119-134 | its open count is the number of selected degraded streams |
| Reports.ReportsAlwaysValid | src/reliamesh/attestation.py:112-134 | both hold after any run, at any reading time, for either scope |
| Figures.ReportCounts | src/reliamesh/attestation.py:121-134 | each figure counts what it names in the state a reader sees: streams of the scope, their rows and failed rows in either window, and their open, resolved and expired records |
| Figures.SummaryShows | src/reliamesh/detection.py:308-327 | a summary shows every unexpired stream once, with its windows' statistics, warm-up and status |
| Accounts.Deterministic | src/reliamesh/storage.py:50-73 | the storage contract leaves no freedom in answers or effects |
| Accounts.BoundNeedsKey | src/reliamesh/storage.py:211-219 | an operation bound to a key takes effect, or answers anything but tenant-missing, only if that key then authenticates to that tenant |
| Accounts.SameAnswers | src/reliamesh/storage.py:50-73 | any two stores meeting the contract answer any operation sequence alike |
| Accounts.BehavesWellFormed | src/reliamesh/storage.py:258-280 | every operation keeps at most 16 keys with distinct identifiers per tenant and no key in two tenants |
| Accounts.RevokesExactly | src/reliamesh/storage.py:282-293 | revoking removes exactly the key of that digest or the keys of that identifier and says whether there was one |
| Accounts.ListsExactly | src/reliamesh/storage.py:295-308 | a listing shows every key of the tenant, oldest first, ties by identifier |
| SqliteStore.Store.constructor | src/reliamesh/storage.py:143-181 | fresh tables hold no tenant |
| SqliteStore.Store.Create | src/reliamesh/storage.py:221-242 | creation, or tenant-exists or key-conflict, on the three tables |
| SqliteStore.Store.Authenticate | src/reliamesh/storage.py:244-256 | the principal of a key's only tenant, or none |
| SqliteStore.Store.Add | src/reliamesh/storage.py:258-280 | missing tenant, lapsed credential, key limit, conflict and success, in the code's order |
| SqliteStore.Store.Revoke | src/reliamesh/storage.py:282-293 | deletes the matching key by digest or identifier and says whether there was one |
| SqliteStore.Store.ListKeys | src/reliamesh/storage.py:295-308 | exactly the tenant's keys, by creation time and identifier |
| SqliteStore.Store.Transact | src/reliamesh/storage.py:310-336 | the callback sees the unexpired state or none; its result is stored with a new expiry, or nothing changes |
| SqliteStore.Store.Read | src/reliamesh/storage.py:338-357 | an expired row is removed without any visible effect |
| SqliteStore.Store.Delete | src/reliamesh/storage.py:359-368 | the cascade leaves no key and no state behind |
| SqliteStore.Store.PurgeExpired | src/reliamesh/storage.py:370-380 | removing any of the expired rows is invisible at every later time |
| FirestoreStore.Store.constructor | src/reliamesh/storage.py:412-427 | empty collections hold no tenant |
| FirestoreStore.Store.Create | src/reliamesh/storage.py:482-500 | as the contract, with the key list and key document created together |
| FirestoreStore.Store.Authenticate | src/reliamesh/storage.py:502-518 | as the contract, from the key document checked against the tenant's list |
| FirestoreStore.Store.Require | src/reliamesh/storage.py:445-460 | the metadata and key checks succeed exactly when the tenant exists and holds the key |
| FirestoreStore.Store.Add | src/reliamesh/storage.py:520-541 | as the contract, both copies of key membership kept in step |
| FirestoreStore.Store.Revoke | src/reliamesh/storage.py:543-562 | as the contract, removing the only match from both copies |
| FirestoreStore.Store.ListKeys | src/reliamesh/storage.py:564-582 | as the contract |
| FirestoreStore.Store.Transact | src/reliamesh/storage.py:584-601 | as the contract |
| FirestoreStore.Store.Read | src/reliamesh/storage.py:603-620 | as the contract |
| FirestoreStore.Store.Delete | src/reliamesh/storage.py:622-638 | as the contract, no orphan key or state document left |
| StoreEquality.SideBySide | src/reliamesh/storage.py:50-73 | the two stores give equal answers to any operation sequence at nondecreasing times, the answers the contract allows, and end up equal |
| Service.TransactStored | src/reliamesh/api.py:255-269 | an ingestion call the store serves is one step of a run: same document, same expiry, same receipt |
| Service.RunBehind | src/reliamesh/storage.py:310-336 | behind any history of operations by anyone, refused credentials included, a fresh tenant's calls are a run |
| Service.ReceiptsCountOnce | src/reliamesh/api.py:255-269 | so the accepted counts of its receipts add up to a log of submitted events with no (id, timestamp) pair twice, on either store |
| Service.ReceiptMatches | sdk/python/src/reliamesh_sdk/client.py:169-182 | a served call's receipt accounts for its whole batch, so the SDK counts the batch as sent |
| Base58.CharOfAlphabet | src/reliamesh/solana_attest.py:26 | the digits are spelled with the 58 letters of the alphabet, in its order |
| Positional.ValueFirst | src/reliamesh/solana_attest.py:53 | bytes are a number with the first byte most significant |
| Base58.Encode58 | src/reliamesh/solana_attest.py:51-58 | the division loop computes the specified encoding |
| Base58.Decode58 | src/reliamesh/solana_attest.py:61-75 | the multiplication loop computes the specified strict decoding |
| Base58.CheckHash32 | examples/solana_rpc_agent.py:146-156 | the length-only loop accepts exactly what strict decoding to 32 bytes accepts |
| Base58.RoundTrip | src/reliamesh/solana_attest.py:51-75 | decoding the encoding of any 32 or 64 bytes gives them back |
| Base58.SizesFit | src/reliamesh/solana_attest.py:62 | 256^32 <= 58^44 and 256^64 <= 58^88, so the length limits exclude no encoding |
| Base58.EncodePlain | src/reliamesh/solana_attest.py:73 | every text over the alphabet is the encoding of the bytes it stands for |
| Base58.DecodedReencodes | src/reliamesh/solana_attest.py:61-75 | every accepted text is the one encoding of its bytes |
| Base58.Hash32Agrees | examples/solana_rpc_agent.py:146-156 | the two checks accept the same texts |
| Wire.BuiltVerifies | src/reliamesh/solana_attest.py:144-168 | everything the builder emits verifies for its commitment, signature and signer |
| Wire.Accepted | src/reliamesh/solana_attest.py:153-168 | an accepted wire is 0x01, the signature and the message of some blockhash, and its signature verifies |
| Wire.AcceptedFields | src/reliamesh/solana_attest.py:182-204 | each field can be read back from its fixed place |
| Wire.AcceptedUnique | src/reliamesh/solana_attest.py:153-168 | a wire determines the commitment, signature and signer it is accepted for |
| Wire.SendGateExact | src/reliamesh/solana_attest.py:195-204 | the gate admits a wire exactly when some commitment, signature and signer verify it |
| LegacyFormat.WireReads | src/reliamesh/solana_attest.py:96-108 | a reader of the legacy transaction format finds one signature, one paying signer, the memo program only read, and one instruction for that signer on the versioned prefix and the commitment |
| LegacyFormat.AcceptedReads | src/reliamesh/solana_attest.py:153-168 | in everything accepted, with the expected signature, signer and commitment |
| Publication.NextInv | src/reliamesh/attest_cli.py:29-83 | every step of every run, and any crash, keeps the protocol invariant |
| Publication.AtMostOnce | src/reliamesh/attest_cli.py:32-62 | however runs interleave and fail, no two submissions are for one output path |
| Publication.PendingFirst | src/reliamesh/attest_cli.py:49-63 | when a run submits, its pending file is complete and names that signature, 0 < fee <= 10000, the balance covers the fee, and the transaction verifies for the job |
| Publication.ReceiptVerified | src/reliamesh/attest_cli.py:77-81 | any file a run created besides its pending one is at its output path, whole or torn by a crash, and only there: the run submitted, the pending file names the same signature, and a finalized transaction was fetched that carries the commitment |
| Publication.ReceiptOwned | src/reliamesh/cli.py:17-27 | a file with a receipt in it was created by the run whose output path it is |
| Publication.VerifiedConfirms | src/reliamesh/solana_attest.py:330-373 | what a successful final verification establishes about the transaction on the ledger |
| Publication.RefusesReuse | src/reliamesh/attest_cli.py:34-35 | a run started where an output or pending file exists never submits |
| Publication.GateAdmits | src/reliamesh/solana_attest.py:246-247 | the client's own gate never refuses a transaction a run built |
| Publication.GoodAnswersPublish | src/reliamesh/attest_cli.py:29-83 | a run left alone with good answers writes exactly its pending note and receipt, with one submission |
| Publication.RunsAnswered | src/reliamesh/attest_cli.py:37-81 | no run gets past a step without the answer that step asks for: network, blockhash, fee, balance, submission, matching signature, finalized status, verified fetch |
| Publication.BadAnswerStops | src/reliamesh/attest_cli.py:63-76 | a different signature, a malformed status or a failed one ends the run |
| Delivery.PayloadIsBody | sdk/python/src/reliamesh_sdk/client.py:158-167 | the running size is the length of the real request body |
| Delivery.GreedyCovers | sdk/python/src/reliamesh_sdk/client.py:155-169 | the batches concatenate to exactly the queue, in order |
| Delivery.GreedyFits | sdk/python/src/reliamesh_sdk/client.py:159-167 | no body exceeds 100 events or 131072 bytes when every event alone fits |
| Delivery.GreedyOptimal | sdk/python/src/reliamesh_sdk/client.py:155-169 | no order-preserving split within those limits uses fewer requests |
| Delivery.Client.constructor | sdk/python/src/reliamesh_sdk/client.py:80-89 | a new client has counted nothing |
| Delivery.Client.Emit | sdk/python/src/reliamesh_sdk/client.py:104-112 | an event is queued last or, when the queue is full, counted as dropped; the counters balance |
| Delivery.Client.Reject | sdk/python/src/reliamesh_sdk/client.py:97-103 | an event failing local validation is only counted |
| Delivery.Client.PopBatch | sdk/python/src/reliamesh_sdk/client.py:157-168 | the locked section pops exactly the greedy batch of what is left of the queue present at entry |
| Delivery.Client.Settle | sdk/python/src/reliamesh_sdk/client.py:170-183 | a batch is counted as sent exactly when its acknowledgement accounts for it, otherwise as failed and dropped |
| Delivery.Client.Flush | sdk/python/src/reliamesh_sdk/client.py:144-184 | the requests are the greedy batches of the queue present at entry despite concurrent emits, a raising client stops after its first failure, later events stay queued, and enqueued = sent + dropped after queueing + queued |
| DepthScanner.TooDeep | src/reliamesh/api.py:121-135 | the byte loop refuses a body exactly when its depth passes 12, hence a JSON text exactly when its value nests deeper than 12 |
| DepthScanner.PeakIsNesting | src/reliamesh/api.py:121-135 | for every way of writing a value, with any whitespace and escapes, the scanner's greatest depth is the value's nesting depth |
| Licenses.RuntimeDistributions | scripts/check_licenses.py:58-89 | the worklist terminates with exactly the packages of the least closed needs: every dependency without a marker, or whose marker holds without an extra or for an extra asked of its package, and no package or extra nothing asks for; it fails only when nothing is closed, naming the fault of a requirement reached from the roots through active dependencies |
| Licenses.LeastUnique | scripts/check_licenses.py:58-89 | the least closed needs are unique |
| Licenses.OrderIrrelevant | scripts/check_licenses.py:58-89 | two root lists with the same members, in any order and multiplicity, resolve to the same packages or fail both times |

## Left out

- Engine.ProcessEvents: requires that a record a stream names belongs to that stream, which `Endpoint.LoadedOwned` proves of every document of every run; on other states the outcome would depend on the order of the stream dictionary.
- Engine.Working.Prune: the same precondition, for the same reason.
- Liveness.FiftySuccessesClose: "no measurements" is asked only of the metrics the frozen baseline knows 40 times, the ones that can be compared.
- Rules.SignalRule: a failure-rate regression is a difference of at least 8 failures with separate intervals; which pairs of counts separate is left to `Intervals.ScoredExact`.
- Admission.Verdict: on a state that breaks the invariant the exception is a further outcome; `Admission.CallVerdict` excludes it for runs.
- BatchShape.OrderIrrelevant: when both orders are refused the error may differ only for events that share an id and a time.
- ExactlyOnce.AcceptedOnce: runs of one tenant that is not deleted; deleting and recreating a tenant discards its cache by design.
- Reports.FingerprintsCountEvents: states the multiset of fingerprints; the listing of the 16 most frequent in sorted order is not modelled.
- StoreEquality.SideBySide: needs nondecreasing operation times, because a document forgotten at one instant must stay forgotten.
- Service.ReceiptsCountOnce: the tenant is not deleted during the history, and the store's 800,000-byte limit accepts whatever the detector's 650,000-byte limit does.
- Publication.NextInv: publishing is a protocol of steps on values rather than a method over fields, because other runs act between any two of its steps; files are created but never deleted or overwritten by others.
- Publication.AtMostOnce: the transport makes one HTTP request per call, so a logged submission is one request; what the network does with it is an arbitrary answer.
- Delivery.Client.Flush: retries inside one request repeat the identical body and are part of the arbitrary answer to it, so the retry counter is not modelled; a raised `SDKError` from `emit` is the answer false.
- Licenses.RuntimeDistributions: names are canonical, specifiers and markers are arbitrary predicates of the version and the extra.
- Wire.SendGateExact: the wire part of the gate; the checks on encoding, preflight and retry options are plain comparisons.
- DepthScanner.PeakIsNesting: numbers are any run of the characters numbers are written with, more than RFC 8259 section 6 allows.
- Floating point: rates, medians and intervals are exact reals.
- SHA-256, Ed25519 (sections 5.1.6 and 5.1.7 of RFC 8032) and strict base64 are a free constructor, a parameter with its correctness law, and a constructor.
- The SQL and Firestore engines, their locks, retries and text forms of instants: each transaction is one step.
- Schema version checks on stored documents, argument validation of identifiers, digests and scopes, and event field validation.
- The `LIMIT 100` of a purge: any set of expired rows may be removed.
- Solana airdrops, submission status, key files, commitment bundles and their salted hash.
- Routing, headers, rate limiting, body streaming, configuration, the command line, backups and license text checks.
