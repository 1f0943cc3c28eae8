# Temperance router and promotion protocols, verified

This project models the parts of the Temperance repository in which state, ordering or parsing decide
whether the system is safe, and proves what those parts are for. Every module is plain Dafny; `dafny verify
dfyconfig.toml` checks all of them together.

| files | what they model |
|---|---|
| `ChallengeLedger`, `ChallengeReplay` | the values of the one-use challenge ledger: parsing, pruning, issue, consume, rollback, and the reader that turns a ledger into open and closed replay lists |
| `ChallengeProtocol`, `ChallengeSafety`, `ChallengeRuns` | the write-ahead protocol around the ledger as a transition system: any number of processes, death at every effect, power loss that drops any un-synced directory change; its invariant; and what holds in every run |
| `ChallengeHost` | the same commit and recovery as methods of one host, with the files a fault leaves behind and what recovery makes of them |
| `CodeUnits`, `StreamAttribution` | UTF-16 text and the bounded-memory reader of attribution trailers |
| `JsonGrammar` | the grammar of RFC 8259 as syntax trees that keep every space and escape, so that each JSON text is the print of a tree |
| `StrictManifest` | the one-pass stack scan that reports repeated keys |
| `StrictJson`, `MemberOrder`, `StrictParser`, `CanonicalJson` | the strict recursive-descent parser (as a function, and as the code runs it, with one shared index), what the order of members does and does not decide, and the canonical printer |
| `ObservationReceipt`, `ReceiptLanguage`, `ReceiptSize`, `RoutingObservation`, `ObservationAdapter` | observation receipts: content rules, sealing, reading back, size, the attribution algorithm and the adapter |
| `CutoverJournal`, `CutoverExecutor` | the file-backed cutover journal and the cutover saga over a failing adapter, journal, abort signal and clock |
| `StableSort`, `RoutingTelemetry`, `RoutingRuns`, `RoutingPlanner` | the circuit-breaker router: reduction of results, probe lease, runs of the locked commands, staleness filter, scoring and planning |
| `PromotionReceipts`, `PromotionSaga` | the promotion saga: prepare, promote, roll back and recover over an adapter that may throw at any call |

## How the world is represented

- SHA-256 is taken to be injective, so a digest is represented by the content it was taken of; for observation
  receipts it is any function to 64 hexadecimal digits.
- ISO timestamps are natural milliseconds. A timestamp is canonical up to the year 9999. An operation id begins with
  the digits of its clock, so past that year it begins with a sign that no reader accepts.
- A file name is a cell: the contents it had durably, oldest first, and later contents no directory sync has
  covered. Any of these may become durable early; power loss keeps the durable content or any later one.
- `localeCompare` is a rank. Fresh values (challenges, operation ids, transaction ids) are parameters.
- The answers of an adapter, a disk or a clock are arbitrary functions of the number of the call, so each
  contract speaks of every pattern of failures.
- `null` or `undefined` becomes `None`; a thrown error becomes a `Failure` or an error code.
- Scores and health are real numbers rounded to six decimals. JSON numbers are decoded by an arbitrary rounding
  function.

## Where the code does less than its design promises

- `issueProbeChallenge` accepts a clock so late that the stored retention deadline is no longer canonical; the
  committed ledger then cannot be read again. `ChallengeLedger.IssueReadable` gives the exact condition,
  `ChallengeLedger.LateIssueUnreadable` an input.
- `rollbackIssuedChallenge` compares its clock neither with the issue time nor with the last canonical instant, but
  the ledger parser does. `ChallengeLedger.RevokeReadable` gives the exact condition,
  `ChallengeLedger.EarlyRevokeUnreadable` an input.
- No operation checks that the timestamps of its own receipt are canonical, but the receipt parser does, so a receipt
  can be written that no recovery can load. `ChallengeRuns.ReceiptsParse` gives the exact condition for every receipt
  of every run, `ChallengeHost.LateRollbackUnreadable` an input and `ChallengeHost.LateRollback` a run;
  `ChallengeHost.FaultThenRecover` says what recovery still makes of a fault.
- `updateReceipt` carries an old failure code along, so a rollback restarted from `stuck_open` writes receipts that
  its own validation refuses (`PromotionReceipts.StuckOpenRestart`; the exact condition is
  `PromotionReceipts.UpdateValid`, and for a whole rollback `PromotionSaga.Saga.Rollback`).
- The basename of the connector token file is not checked when a manifest is parsed; a receipt that records it is
  valid exactly when it has the identifier shape (`PromotionReceipts.RecordValid`).
- A record that is stored `half_open` (no code path stores one) can be claimed twice at once
  (`RoutingRuns.StoredHalfOpenClaimedTwice`; the exact condition is `RoutingRuns.ExclusionIff`).
- A recovery can write an intermediate receipt that says `prepared` although resources are missing. It does so only
  from a journal in state `prepared` in which two or more of the seven are missing and every resource recorded before
  the first missing one bears its expected name (`PromotionSaga.Saga.Recover`), and from each such journal under some
  adapter (`PromotionSaga.RecoverExposed`); `PromotionSaga.EmptyJournalExposed` is one of them.

## Model

| member | source | states |
|---|---|---|
| ChallengeLedger.KeyInjective | package/router/signed-probe-receipt.ts:243-245 | the ledger key `keyId:challenge` determines both parts, for challenges of one length |
| ChallengeLedger.ParsesMeans | package/router/signed-probe-challenge-ledger.ts:740-772 | a ledger is accepted exactly when its header is consistent, it has at most 128 strictly sorted entries with unique keys, and every entry satisfies its time windows and status rules |
| ChallengeLedger.SortSorts | package/router/signed-probe-challenge-ledger.ts:830-834 | sorting entries with unique keys gives the strict order the parser demands |
| ChallengeLedger.PickChallenge | package/router/signed-probe-challenge-ledger.ts:1149-1160 | the loop over four attempts returns the first generated challenge that no entry uses, and gives up only when all four are taken |
| ChallengeLedger.IssueFits | package/router/signed-probe-challenge-ledger.ts:1044-1047 | an issue on a readable ledger never fails on the byte limit: the limit on entries binds first |
| ChallengeLedger.ReplacementsFit | package/router/signed-probe-challenge-ledger.ts:1044-1047 | neither does a consume or a rollback |
| ChallengeLedger.IssueReadable | package/router/signed-probe-challenge-ledger.ts:1125-1193 | a committed issue is accepted by the parser again if and only if its retention time is still a canonical timestamp |
| ChallengeLedger.LateIssueUnreadable | package/router/signed-probe-challenge-ledger.ts:1125-1193 | an issue at the last canonical instant succeeds and leaves a ledger nobody can read |
| ChallengeLedger.ConsumeReadable | package/router/signed-probe-challenge-ledger.ts:1195-1243 | every committed consume is accepted by the parser again |
| ChallengeLedger.RevokeReadable | package/router/signed-probe-challenge-ledger.ts:1245-1304 | a committed rollback is accepted again if and only if its clock is not before the issue time and is a canonical instant |
| ChallengeLedger.EarlyRevokeUnreadable | package/router/signed-probe-challenge-ledger.ts:1265-1282 | a rollback one millisecond before the issue time succeeds and leaves an unreadable ledger |
| ChallengeLedger.IssueEvolves | package/router/signed-probe-challenge-ledger.ts:1149-1174 | an issue adds one fresh issued entry, drops exactly the entries past retention, and raises the generation by one |
| ChallengeLedger.ConsumeEvolves | package/router/signed-probe-challenge-ledger.ts:1195-1243 | a consume turns the one named entry from issued to consumed and leaves every other entry alone |
| ChallengeLedger.RevokeEvolves | package/router/signed-probe-challenge-ledger.ts:1245-1304 | a rollback turns the one named entry from issued to revoked and leaves every other entry alone |
| ChallengeLedger.PruneForgetsNothingUsable | package/router/signed-probe-challenge-ledger.ts:836-838 | an entry dropped by pruning could not have been consumed at that clock or any later one |
| ChallengeReplay.ListsFromLedger | package/router/signed-probe-receipt.ts:263-341 | the loop that fills the two replay lists yields the keys of the issued entries and of the others, or rejects the ledger |
| ChallengeReplay.ReadableListable | package/router/signed-probe-receipt.ts:263-341 | every ledger the parser accepts is accepted by the reader |
| ChallengeReplay.ReplayMeans | package/router/signed-probe-receipt.ts:426-437 | the replay status is open exactly for entries still issued, already-consumed exactly for the other entries, and unknown for challenges not in the ledger |
| ChallengeReplay.ConsumeClosesReplay | package/router/signed-probe-receipt.ts:426-437 | a consume changes the replay status of its own challenge from open to consumed and of no other |
| ChallengeSafety.StepSafe | package/router/signed-probe-challenge-ledger.ts:1031-1123 | every event (a call, one effect of a process, a death, an early write-back, a power loss) keeps the whole invariant and takes nothing durable back |
| ChallengeSafety.CommitStep | package/router/signed-probe-challenge-ledger.ts:1031-1123 | each effect of a commit is safe in every reachable world |
| ChallengeSafety.DecideStep | package/router/signed-probe-challenge-ledger.ts:1306-1382 | the decision of recovery is safe in every reachable world |
| ChallengeSafety.WriteBackStep | package/router/signed-probe-challenge-ledger.ts:560-568 | a directory sync made for another file, or durability that comes by itself, disturbs no process and keeps the invariant |
| ChallengeSafety.PowerLossStep | package/router/signed-probe-challenge-ledger.ts:584-623 | losing any un-synced change of any file keeps the invariant |
| ChallengeRuns.RunGrows | package/router/signed-probe-challenge-ledger.ts:1031-1123 | continuing a run only extends the durable histories, the registry and the verdicts |
| ChallengeRuns.AppliedMeansDurable | package/router/signed-probe-challenge-ledger.ts:1031-1123 | in every run a receipt that says applied belongs to a ledger that really entered the durable history |
| ChallengeRuns.AbortedMeansNever | package/router/signed-probe-challenge-ledger.ts:1306-1382 | a receipt that says aborted belongs to a ledger that was never durable and is in no durable or pending content from then on |
| ChallengeRuns.VerdictsExclusive | package/router/signed-probe-challenge-ledger.ts:1306-1382 | no operation is ever seen both applied and aborted |
| ChallengeRuns.VerdictIsFinal | package/router/signed-probe-challenge-ledger.ts:1306-1382 | a durable verdict is the content of its receipt for good, visibly and durably |
| ChallengeRuns.InFlightNeverAborted | package/router/signed-probe-challenge-ledger.ts:1306-1382 | an operation whose process is still committing has no aborted receipt |
| ChallengeRuns.ReceiptsParse | package/router/signed-probe-challenge-ledger.ts:873-956 | every receipt written in any run is accepted by the receipt parser if and only if its creation time, and its completion time if it has one, are canonical |
| ChallengeRuns.BackupBeforeReceipt | package/router/signed-probe-challenge-ledger.ts:1031-1123 | a receipt file exists only beside a durable copy of the ledger it is about to replace |
| ChallengeRuns.ConsumedOnce | package/router/signed-probe-challenge-ledger.ts:1195-1243 | at most one consume call returns success per issued challenge, in every interleaving with crashes |
| ChallengeRuns.ConsumedStaysClosed | package/router/signed-probe-challenge-ledger.ts:1195-1243 | after a successful consume no later visible ledger shows the challenge as issued |
| ChallengeRuns.EntriesOnlyAdvance | package/router/signed-probe-challenge-ledger.ts:679-738 | through the durable history an entry stays, or moves once from issued to a terminal status |
| ChallengeRuns.LedgerNeverTorn | package/router/signed-probe-challenge-ledger.ts:584-623 | the ledger name never shows a torn file, before or after a power loss, and its generation never goes back |
| ChallengeRuns.MutualExclusion | package/router/signed-probe-challenge-ledger.ts:625-677 | one process at a time is past the lock |
| ChallengeRuns.CommitNeverDrifts | package/router/signed-probe-challenge-ledger.ts:1031-1123 | neither comparison inside a commit can fail while every writer takes the lock |
| ChallengeRuns.RollbackNeverReopens | package/router/signed-probe-challenge-ledger.ts:1268-1272 | the branch "would reopen terminal state" of rollback is dead: a ledger that matches the issue's result still holds the issued entry |
| ChallengeHost.Host.constructor | package/router/signed-probe-challenge-ledger.ts:784-793 | a new host starts from the absent ledger, in which the invariant holds |
| ChallengeHost.Host.CommitTransition | package/router/signed-probe-challenge-ledger.ts:1031-1123 | without a fault the new ledger and its applied receipt are both durable on return; a fault at any effect leaves exactly the files of that effect |
| ChallengeHost.Host.Execute | package/router/signed-probe-challenge-ledger.ts:1125-1304 | an issue, a consume or a rollback alone on the host commits exactly when it can be planned from the ledger as it is, and otherwise changes nothing |
| ChallengeHost.ConsumeTwice | package/router/signed-probe-challenge-ledger.ts:1195-1243 | of two consume calls for one challenge at most one returns success |
| ChallengeHost.FirstUse | package/router/signed-probe-challenge-ledger.ts:1125-1243 | a whole run from the absent ledger: one challenge is issued, consumed, and refused the second time |
| ChallengeHost.Host.Recover | package/router/signed-probe-challenge-ledger.ts:1306-1382 | recovery answers applied if the ledger shows the result, aborted if it shows the starting point, and nothing otherwise, and makes a verdict durable |
| ChallengeHost.DecideMeans | package/router/signed-probe-challenge-ledger.ts:1306-1382 | the two reference comparisons decide by what the ledger shows, not by what a digest happens to be |
| ChallengeHost.FaultThenRecover | package/router/signed-probe-challenge-ledger.ts:1306-1382 | a commit that dies between its two receipt writes can be recovered if and only if its clock was canonical; the verdict is aborted before the rename, and after it applied if the new ledger can be read |
| ChallengeHost.LateRollbackUnreadable | package/router/signed-probe-challenge-ledger.ts:1265-1299 | a rollback past year 9999 is planned, but neither its receipt nor its ledger is accepted again |
| ChallengeHost.LateRollback | package/router/signed-probe-challenge-ledger.ts:1245-1304 | the run from the absent ledger in which that happens |
| CodeUnits.CheckWellFormed | package/contracts/routing-observation-receipt.v1.ts:63-72 | the loop accepts exactly the texts in which every surrogate is part of a pair |
| StreamAttribution.LinesOfTerminated | package/router/temperance-openai-proxy.ts:475-535 | cutting a text into lines undoes joining lines with any mix of CR, LF and CRLF |
| StreamAttribution.LinesAppend | package/router/temperance-openai-proxy.ts:503-526 | one more code unit extends the open line, ends it, or completes a CRLF |
| StreamAttribution.InspectAllMeans | package/router/temperance-openai-proxy.ts:487-492 | reading lines one by one keeps the last provider and the last model among the lines of at most 1024 units |
| StreamAttribution.StreamAttributionParser.Take | package/router/temperance-openai-proxy.ts:503-526 | one code point updates the three flags so that they still describe the whole text so far |
| StreamAttribution.StreamAttributionParser.Push | package/router/temperance-openai-proxy.ts:503-533 | the value after a push is that of the whole text's lines, final or not, and at most 1024 units are buffered |
| StreamAttribution.ReadStream | package/router/temperance-openai-proxy.ts:479-535 | any chunking of a stream gives the attribution of its whole text |
| JsonGrammar.FindClose | package/router/omniroute-cloudflare-promotion.ts:286-293 | the loop finds the first quote that no backslash escapes |
| JsonGrammar.DecodePrint | package/router/omniroute-cloudflare-promotion.ts:296-302 | decoding a printed string literal gives what its pieces denote, with any mix of escapes |
| JsonGrammar.DecodeOnlyLiterals | package/contracts/routing-observation-receipt.v1.ts:227-241 | whatever decodes is the print of a literal of the grammar |
| JsonGrammar.ClashesMeans | package/router/omniroute-cloudflare-promotion.ts:296-302 | meeting a key already in the running set, at any depth, is the same as some object having two members with equal decoded keys |
| StrictManifest.ParseStrictJsonDocument | package/router/omniroute-cloudflare-promotion.ts:266-313 | the loop over the text with its stack of key sets computes the scan, after the size check and before the host's own parser |
| StrictManifest.ScanFindsRepeatedKeys | package/router/omniroute-cloudflare-promotion.ts:266-313 | on every text of the grammar the scan reports a duplicate exactly when some object of the tree has two members with equal decoded keys |
| StrictManifest.StrictDocument | package/router/omniroute-cloudflare-promotion.ts:266-313 | the whole function fails with the duplicate-key error exactly then, and otherwise returns the host's value |
| StrictManifest.ScanMembers | package/router/omniroute-cloudflare-promotion.ts:269-304 | scanning the members of one object, nested to any depth, finds exactly the clashes with the keys already seen |
| StrictJson.NumberLengthIs | package/contracts/routing-observation-receipt.v1.ts:263-266 | the number pattern matches a whole number of the grammar, sign, fraction and exponent included, and stops where it ends |
| StrictJson.NumberLengthOnly | package/contracts/routing-observation-receipt.v1.ts:263-266 | whatever the number pattern matches is a number of the grammar |
| StrictJson.ParseIsEval | package/contracts/routing-observation-receipt.v1.ts:224-271 | on every text of the grammar the parser returns the value of its tree, or the tree's first fault in document order |
| StrictJson.Accepted | package/contracts/routing-observation-receipt.v1.ts:224-271 | the parser accepts exactly the texts of trees that have a value, and returns that value |
| StrictJson.EvalSucceeds | package/contracts/routing-observation-receipt.v1.ts:242-267 | a tree of the accepted kind (no array, depth at most 8, well-formed strings) has a value exactly when no object repeats a key |
| StrictJson.RepeatedKeyRejected | package/contracts/routing-observation-receipt.v1.ts:251-252 | every text in which some object repeats a key is rejected |
| StrictJson.FieldsArePairs | package/contracts/routing-observation-receipt.v1.ts:246-258 | the fields of an accepted object are exactly its key and value pairs |
| StrictJson.OrderIrrelevant | package/contracts/routing-observation-receipt.v1.ts:246-258 | two objects with the same collection of keys and values are both rejected, or both accepted with the same value, whatever the order |
| MemberOrder.PermutedIsRearranged | package/contracts/routing-observation-receipt.v1.ts:246-258 | every permutation of the members of an object is a rearrangement |
| MemberOrder.RearrangedValue | package/contracts/routing-observation-receipt.v1.ts:242-267 | rearranging the members of the objects of a tree, at any depth, leaves it rejected, or accepted with the same value |
| MemberOrder.FaultDependsOnOrder | package/contracts/routing-observation-receipt.v1.ts:246-258 | which fault a rejected text is rejected for can change with the order |
| StrictParser.Parser.Value | package/contracts/routing-observation-receipt.v1.ts:242-267 | the recursive procedure on the shared index returns what the specification says and leaves the index where it says |
| StrictParser.Parser.Members | package/contracts/routing-observation-receipt.v1.ts:248-259 | the loop over the members keeps its set of seen keys and its result in step with the specification |
| StrictParser.Parser.String | package/contracts/routing-observation-receipt.v1.ts:227-241 | a string literal is decoded and checked, and the index ends behind its closing quote |
| StrictParser.ParseText | package/contracts/routing-observation-receipt.v1.ts:224-271 | the whole text is parsed, and nothing may follow the value |
| CanonicalJson.PiecesMean | package/contracts/routing-observation-receipt.v1.ts:193-196 | a stringified text denotes that text, control characters and lone surrogates included |
| CanonicalJson.Least | package/contracts/routing-observation-receipt.v1.ts:195 | the smallest key of an object in code-unit order, which is unique |
| CanonicalJson.PrintTree | package/contracts/routing-observation-receipt.v1.ts:193-196 | the canonical text of a value is the print of a tree of the grammar |
| CanonicalJson.CanonicalRoundTrip | package/contracts/routing-observation-receipt.v1.ts:193-196 | parsing the canonical text of any value of the parser's kind gives back that value |
| CanonicalJson.CanonicalInjective | package/contracts/routing-observation-receipt.v1.ts:193-196 | different values print differently |
| ObservationReceipt.Finish | package/contracts/routing-observation-receipt.v1.ts:201-213 | removing the supplied id, sealing and comparing comes to the specification: right policy, valid content, matching digest, size |
| ObservationReceipt.ParseReceipt | package/contracts/routing-observation-receipt.v1.ts:274-302 | the checks on the text, the strict parser and the verification of the receipt, in that order |
| ReceiptLanguage.DecimalHostIsSound | package/contracts/routing-observation-receipt.v1.ts:125-127 | what is assumed of the host's number printing and reading holds of plain decimals |
| ReceiptLanguage.SealIsValid | package/contracts/routing-observation-receipt.v1.ts:201-213 | sealing valid content gives a valid receipt, and taking the id away gives the content back |
| ReceiptLanguage.BuildThenParse | package/contracts/routing-observation-receipt.v1.ts:201-302 | reading the canonical text of any built receipt gives back that receipt and that text |
| ReceiptLanguage.ParseThenBuild | package/contracts/routing-observation-receipt.v1.ts:201-302 | whatever is read is the value of the text, reads back from its canonical text, and is what its own content would be built into |
| ReceiptLanguage.ContentsPrintDifferently | package/contracts/routing-observation-receipt.v1.ts:193-213 | two built contents with the same canonical text are equal |
| ReceiptLanguage.KeyOrderIrrelevant | package/contracts/routing-observation-receipt.v1.ts:274-302 | rearranging the members, at any depth, of an accepted text leaves it accepted with the same result, as long as it fits the limits checked before parsing; and no rejected text that fits them gets accepted that way |
| ReceiptLanguage.RepeatedKeyNeverAccepted | package/contracts/routing-observation-receipt.v1.ts:251-252 | a text in which some object, at any depth, repeats a key is never accepted |
| ReceiptSize.ContentFits | package/contracts/routing-observation-receipt.v1.ts:211 | no valid content, sealed or not, exceeds the size limit, so the size check of `finish` never fires |
| RoutingObservation.Conflicts | package/router/routing-observation-adapter.ts:162-173 | the single pass with a map and a set finds exactly the ordinals under which two bound records differ |
| RoutingObservation.AttributeRecords | package/router/routing-observation-adapter.ts:158-189 | the linear algorithm computes the pairwise specification on the set of records |
| RoutingObservation.AttributeIs | package/router/routing-observation-adapter.ts:174-189 | where no conflict and no doubt is left, every success is the one winner, so taking the first is no choice |
| RoutingObservation.ObservedMeans | package/router/routing-observation-adapter.ts:178-189 | an observed attribution speaks for every success: that identity, that ordinal, bound to this observation, terminal and finished |
| RoutingObservation.OrderAndRepetition | package/router/routing-observation-adapter.ts:158-189 | reordering the records or repeating existing ones changes nothing |
| ObservationAdapter.AttributionRules | package/router/routing-observation-adapter.ts:158-189 | the derived attribution satisfies every rule of the receipt contract |
| ObservationAdapter.ToolsRules | package/router/routing-observation-adapter.ts:191-197 | the derived tool state satisfies every rule of the receipt contract |
| ObservationAdapter.Adapt | package/router/routing-observation-adapter.ts:204-226 | context is checked before evidence is used, and the outcome is the specified one |
| ObservationAdapter.AdapterTotal | package/router/routing-observation-adapter.ts:204-226 | only bad context or bad evidence is refused; everything else becomes an accepted receipt that says what the evidence supports |
| CutoverJournal.Journal.Begin | package/router/v4-cutover-journal.ts:110-142 | a journal is begun once, with nothing recorded, or left as it was |
| CutoverJournal.Journal.Append | package/router/v4-cutover-journal.ts:144-161 | an event is recorded when it carries the next number and its write is confirmed, and only then; numbers run 1..n without gaps, in memory and on disk |
| CutoverJournal.Journal.Complete | package/router/v4-cutover-journal.ts:163-178 | a valid receipt of this operation is written once, before the journal says complete |
| CutoverExecutor.TraceLaws | package/router/v4-cutover-executor.ts:346-454 | a prefix of the plan followed by the compensation its flags call for never destroys before the boundary, never restores after destruction, and recovers at most once |
| CutoverExecutor.PutBack | package/router/v4-cutover-executor.ts:427-437 | before the boundary, a staging that was started is discarded and disturbed services are restored |
| CutoverExecutor.CompensationLaws | package/router/v4-cutover-executor.ts:416-437 | what each kind of compensation guarantees of the whole trace |
| CutoverExecutor.Executor.Run | package/router/v4-cutover-executor.ts:346-359 | one action is announced, done and recorded, or the run stops with the counters at most one action apart |
| CutoverExecutor.Executor.Append | package/router/v4-cutover-executor.ts:346-359 | once an append was refused the executor's counter is ahead and nothing is ever recorded again |
| CutoverExecutor.Executor.GoForward | package/router/v4-cutover-executor.ts:361-400 | the forward part either completes the whole plan with a verified replacement or stops after a prefix of it |
| CutoverExecutor.Executor.Compensate | package/router/v4-cutover-executor.ts:422-437 | the calls of the compensation, and a recovery status that says failed exactly if one of them threw |
| CutoverExecutor.Executor.Execute | package/router/v4-cutover-executor.ts:308-454 | for every pattern of adapter, journal, abort and clock behaviour: calls in order, compensation as the boundary demands, executor and journal in agreement, committed only when everything was done and verified, and a recovery status that tells whether a compensating call was made and whether one threw |
| StableSort.SortSorts | package/router/routing-policy.ts:465-480 | sorting rearranges and orders |
| StableSort.SortUnique | package/router/routing-policy.ts:465-480 | sorting does not depend on the input order of elements the order tells apart |
| StableSort.SortConcat | package/router/routing-policy.ts:465-480 | parts that sort one before the other can be sorted apart |
| RoutingTelemetry.ReduceObservations | package/router/routing-policy.ts:429-553 | the two loops over a cloned state compute the reduction |
| RoutingTelemetry.ReduceTwice | package/router/routing-policy.ts:429-553 | reducing A and then B at one clock is reducing both together if A sorts before B, including the timestamp migration and the global clock |
| RoutingTelemetry.InputOrderIrrelevant | package/router/routing-policy.ts:465-480 | the order of the results in the input does not matter where the sort keys tell them apart |
| RoutingRuns.Store.ObserveCommand | package/router/routing-policy.ts:734-763 | the locked observe command applies the reduction to the stored state |
| RoutingRuns.Store.ClaimCommand | package/router/routing-policy.ts:632-651 | a claim succeeds exactly when the circuit is effectively half-open, and then leases the probe |
| RoutingRuns.Store.SetObservationCommand | package/router/routing-policy.ts:708-728 | a given signal is stored inside [0,1] and dated now; a signal not given, every other field of the backend and every other backend stay as they were |
| RoutingRuns.CircuitFollowsHistory | package/router/routing-policy.ts:492-548 | in every run of the commands from the empty state a circuit is open exactly when three failures follow the last success, its cooldown dates from the last failure, it is never half-open, the counters count, and health is in [0,1] |
| RoutingRuns.HealthMoves | package/router/routing-policy.ts:513-533 | a success never lowers health, a failure never raises it, a timeout leaves it alone |
| RoutingRuns.ProbeExclusion | package/router/routing-policy.ts:166-185 | after a claim succeeds no other claim of that backend succeeds at any clock before the lease ends, unless a result of the backend was reduced in between |
| RoutingRuns.ExclusionIff | package/router/routing-policy.ts:166-185 | from any state, a lease excludes claims before its end if and only if the circuit was stored open |
| RoutingRuns.StoredHalfOpenClaimedTwice | package/router/routing-policy.ts:632-651 | a record stored half-open can be claimed twice at once |
| RoutingPlanner.FreshKeepsCircuit | package/router/routing-policy.ts:255-328 | dropping stale signals never changes the effective circuit |
| RoutingPlanner.OpenIsObserved | package/router/routing-policy.ts:301-325 | a record whose circuit is not closed always survives the staleness filter |
| RoutingPlanner.UnrelatedResultsKeepFreshness | package/router/routing-policy.ts:429-463 | reducing results of other backends never makes a signal look fresher or staler, at any later clock |
| RoutingPlanner.ScoreRange | package/router/routing-policy.ts:201-242 | a score is a fraction and an open circuit scores nothing |
| RoutingPlanner.BetterSignalsScoreHigher | package/router/routing-policy.ts:201-242 | under the same circuit, signals that are nowhere worse never lower the score |
| RoutingPlanner.SelectedIsPermutation | package/router/routing-policy.ts:330-407 | what is selected are all candidates, or exactly those not effectively open, or none; off and shadow keep the static order |
| RoutingPlanner.EnforceNeverSelectsOpen | package/router/routing-policy.ts:330-407 | enforce mode never selects a candidate whose unfiltered record is effectively open |
| RoutingPlanner.SelectedByScore | package/router/routing-policy.ts:376-388 | what enforce mode selects is ordered from the highest score down |
| RoutingPlanner.CandidateOrderIrrelevant | package/router/routing-policy.ts:330-345 | the plan does not depend on the order of candidates that rank, backend and model tell apart |
| PromotionReceipts.UpdateValid | package/router/omniroute-cloudflare-promotion.ts:553-557 | moving a valid receipt to a new state keeps it valid if and only if the stuck state is neither entered nor left |
| PromotionReceipts.StuckOpenRestart | package/router/omniroute-cloudflare-promotion.ts:553-578 | a rollback restarted from the stuck state writes receipts that validation refuses |
| PromotionReceipts.RecordValid | package/router/omniroute-cloudflare-promotion.ts:559-578 | recording an expected reference keeps a receipt valid if and only if its name has the identifier shape |
| PromotionReceipts.ValidateCanaries | package/router/omniroute-cloudflare-promotion.ts:727-745 | the loop accepts exactly six observations that each meet their row of the contract |
| PromotionSaga.LawfulEverywhere | package/router/omniroute-cloudflare-promotion.ts:747-860 | at every point of a lawful trace the call made there was permitted by what had happened before: DNS after approval and a connected connector, promoted after matching canaries, teardown after containment, the tunnel after an empty connection count within the poll bound, rolled back after everything was released |
| PromotionSaga.Saga.Mutate | package/router/omniroute-cloudflare-promotion.ts:601-616 | a mutation records exactly one resource, expected, correctly owned and produced by the adapter, or none |
| PromotionSaga.Saga.Prepare | package/router/omniroute-cloudflare-promotion.ts:633-677 | a prepared receipt accounts for exactly the seven private resources; a failure that was rolled back left nothing recorded unreleased; all receipts written are valid if the names are |
| PromotionSaga.Saga.Promote | package/router/omniroute-cloudflare-promotion.ts:747-789 | promoted only with approval consumed, connector connected and every canary met; a failure that was rolled back released everything; all receipts written are valid |
| PromotionSaga.Saga.Rollback | package/router/omniroute-cloudflare-promotion.ts:800-860 | once announced, both connector stop and DNS delete are tried whatever comes of them; success means every recorded resource was released; the receipts written are valid if and only if it does not start from the stuck state or writes none |
| PromotionSaga.Saga.PollConnections | package/router/omniroute-cloudflare-promotion.ts:838-848 | the poll loop ends with a count of zero just seen, within the bound, or fails |
| PromotionSaga.Saga.Recover | package/router/omniroute-cloudflare-promotion.ts:862-905 | recovery returns prepared only when all seven resources are there, each inspected unchanged or discovered with its expected owner; otherwise what is there is rolled back; a receipt that wrongly says prepared is written only from an exposed journal |
| PromotionSaga.RecoverExposed | package/router/omniroute-cloudflare-promotion.ts:885-896 | from every exposed journal there are adapter answers under which recovery writes a receipt that wrongly says prepared |
| PromotionSaga.EmptyJournalExposed | package/router/omniroute-cloudflare-promotion.ts:868-870 | a prepared journal that records nothing is accepted, and is exposed |

## Left out

- File descriptors, `flock`, `fsync`, modes, ownership, directory identity and the breaking of stale locks: only
  their meaning (mutual exclusion, atomic rename, durability after a directory sync) is modelled.
- Ed25519, SHA-256 and key parsing themselves.
- The shape errors of JSON values before they are typed (missing or extra keys of a ledger, an approval, evidence or a
  context) and the detaching of JavaScript objects (proxies, getters, prototypes, node limits).
- The list-shaped legacy ledger in `challengeListsFromLedger` and the parts of `verifySignedProbeReceipt` other than
  the replay status.
- The trailer pattern of the stream parser: any function from lines to trailers.
- The byte input of `parseReceipt` (UTF-8 decoding of a typed array): only strings are read.
- The rounding of JSON numbers to doubles: any rounding, except that naturals up to 10000 print and read back.
- Identifier, hostname and digest patterns of the promotion and the cutover: predicates.
- The admission checks of a cutover (plan, proof, confirmation, drift) and the seven fields of its verification are one
  outcome each; event times are not recorded.
- The preflight of a promotion and the checks on an approval other than its receipt are one outcome each.
- The capability table of the planner, its hashes, reasons and correlation ids.
- Legacy counters that are not natural numbers, and non-finite numbers in stored observations.
- `readChallengeLedgerStatus`, previews, review texts and command-line parsing: text layout.
- ChallengeProtocol.Step: a death between two statements of one effect is modelled at the effects that change a file, not inside a single system call.
- RoutingPlanner.PlanRouting: the score formula is computed as the source does; its weights are not derived from another statement.
- PromotionSaga.Saga.Rollback: the order among access policy, application, token and key deletions is not part of a contract.
