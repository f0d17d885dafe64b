# Verification of the Open Next Router control plane and stream translators

This project models the parts of Open Next Router whose correctness is a matter of whole runs, and proves what every run
keeps. `dafny verify dfyconfig.toml` checks everything.

**Control plane.** Each Redis script is one atomic step over the keys it touches. A class holds those keys as fields, its
methods change them as the scripts do, and each method is proved equal to a step function; the theorems are about all
sequences of steps.

- `LeaseQueue` (on `SortedSets`): the reconciliation queue with its lease tokens, due times, retries and pages.
- `AccessKeys`: the records, the secret index and the account index; `RoutingEdits` adds editors that read in one step
  and write, version-checked, in a later one.
- `Ledger`: idempotent money and token totals, the per-account event index, limited reads and batch adjustments.
- `Settlement`: the counter of unsettled billing events per access key under acks, dead letters and repeats.
- `Provisioning`: the admin service over both stores, with a crash possible after every write and failures that may or
  may not have taken effect.
- `UsageBills`: grouping of one key's events into usage and bill rows, and the account that this adds up to.

**Streams.** `SseFraming` is the line parser with the block specification it refines. `ResponsesToChat` and
`ClaudeToChat` are the two stateful translators, proved against functions of the whole event sequence; the second must
agree with the non-stream usage mapping.

**Algorithms.** `Tokens` (the printer of token keys, the percent and base64url codecs and the gateway's parser),
`KeyPool` (round robin) and `ProviderPriority` (permutation check and completion). `Text` has Go's trimming,
lower-casing and joining.

All inductions are written out; lemmas carry `{:induction false}`.

## Properties that hold only under a condition

Each case names a lemma with an input that breaks the property and the lemma with the condition. The conditions are
if-and-only-if statements, or come with a failing run for every input outside them.

- Candidate ids and due ids: settling calls drop colons from the record key but not from the due-set member, so a padded
  id settles the record and leaves the due entry (`LeaseQueue.PaddedAckLeavesDueEntry`,
  `LeaseQueue.RunKeepsSameIdsIff`). Due times of live candidates are never lost.
- Settling once: a lease token that the enqueuer put into the record can settle and, after another enqueue, settle again
  (`LeaseQueue.PresetTokenSettlesTwice`). Tokens minted by claims settle at most once (`LeaseQueue.SettledAtMostOnce`).
- A lease under a millisecond may leave a claimed candidate due, and claimed again, at once
  (`LeaseQueue.ShortLeaseIsClaimedTwice`, `LeaseQueue.DueAgainIff`).
- Writing a record over a secret hash owned by another name breaks the secret index; the routing script replaces the
  whole record and keeps the indexes only if the hash, the activity and an active record's account are unchanged
  (`AccessKeys.SharedSecretBreaksTheIndex`, `AccessKeys.RunKeepsIndexesIff`).
- Provisioning writes without a new version, so a routing edit read before it and written after it undoes it
  (`RoutingEdits.EditUndoesProvisioning`, `RoutingEdits.ComputedFromPredecessorIff`).
- The initial-credit mark keeps leading colons of the account id, the ledger account does not: keys on "x" and on ":x"
  credit one account twice (`Provisioning.PaddedIdIsCreditedTwice`). Two ids of one ledger account share a mark exactly
  if they agree up to trailing colons (`Provisioning.MarksAgreeIff`), otherwise two creations credit it twice
  (`Provisioning.DifferentStemsCreditTwice`).
- An adjustment whose idempotency key is the text of an initial-credit mark takes the mark, and the account is activated
  without its credit (`Provisioning.AdjustmentTakesTheMark`, `Provisioning.ActiveIsGrantedIff`).
- Record keys drop the colons around a name, idempotency keys of a batch keep leading ones: a batch that lists "x" and
  ":x" adjusts one record twice (`Ledger.PaddedNameIsAdjustedTwice`,
  `Ledger.RetriedBatchAppliesEachRecordOnceIff`).
- One idempotency key used for two different amounts makes totals depend on the order
  (`Ledger.SharedKeyMakesOrderMatter`, `Ledger.OrderIsIrrelevantIff`).
- A tool snapshot that does not extend the accumulated arguments is sent whole
  (`ResponsesToChat.NonExtendingSnapshotIsAppended`, `ResponsesToChat.ArgumentsTrackedIff`).
- A usage report without input tokens that repeats a cache counter counts it twice
  (`ClaudeToChat.RepeatedCacheReadIsSentTwice`, `ClaudeToChat.UsageAgreesIff`).

## Model

| member | source | states |
|---|---|---|
| LeaseQueue.Store.EnqueueCandidate | pkg/controlplane/reconciliation.go:46-144 | refuses blank required fields, a missing time and an id that is not the digest of its identity; creates record and due time once; an id that is already live changes nothing |
| LeaseQueue.Store.ClaimCandidates | pkg/controlplane/reconciliation.go:148-202 | the script loop over a due page, as a fold: live ids are leased with the fresh token and moved to the lease end, orphans leave the due set, the live ids are returned in due order |
| LeaseQueue.Store.AckCandidate | pkg/controlplane/reconciliation.go:206-222 | removes record and due member only for the holder of the current non-empty token; otherwise reports missing or stale and changes nothing |
| LeaseQueue.Store.RetryCandidate | pkg/controlplane/reconciliation.go:226-257 | error code and time checked first; the holder counts an attempt, drops the lease and reschedules; anyone else changes nothing |
| LeaseQueue.ValidateErrorCode | pkg/controlplane/reconciliation.go:90-104 | the loop accepts exactly the trimmed codes of one to 64 lower-case letters, digits, dots, dashes and underscores |
| LeaseQueue.VisitedCandidates | pkg/controlplane/reconciliation.go:163-183 | after a claim exactly the live visited candidates carry the new lease, every other record is untouched |
| LeaseQueue.VisitedDue | pkg/controlplane/reconciliation.go:163-183 | after a claim the due score of every visited live id is the lease end, orphans are gone, all other scores are kept |
| LeaseQueue.ClaimedIsHeld | pkg/controlplane/reconciliation.go:148-202 | every candidate a claim hands out is held under its token and owner until the lease end and otherwise unchanged |
| LeaseQueue.EnqueueMeaning | pkg/controlplane/reconciliation.go:123-144 | a creation stores the record as given and sets exactly its due time to the first attempt |
| LeaseQueue.SettleMeaning | pkg/controlplane/reconciliation.go:206-257 | an ack takes exactly its record and due time away; a retry sets exactly its due time to the next attempt, records code and time, counts the attempt and drops the lease |
| LeaseQueue.SettledAtMostOnce | pkg/controlplane/reconciliation.go:206-257 | in any interleaving each (candidate, token) pair is settled at most once |
| LeaseQueue.StaleSettleChangesNothing | pkg/controlplane/reconciliation.go:206-257 | once a minted token no longer holds a candidate, an ack or retry with it leaves the whole queue unchanged, at any later time |
| LeaseQueue.LostForGood | pkg/controlplane/reconciliation.go:148-257 | a lost lease never comes back |
| LeaseQueue.LeaseIsLost | pkg/controlplane/reconciliation.go:148-257 | settling, and any newer claim of the same candidate, take the lease away |
| LeaseQueue.HeldWasMinted | pkg/controlplane/reconciliation.go:148-202 | a held token that no enqueuer supplied was minted by an earlier claim |
| LeaseQueue.PresetTokenSettlesTwice | pkg/controlplane/reconciliation.go:123-144 | without that condition every such token settles twice: enqueue, ack, enqueue, ack |
| LeaseQueue.UnleasedUntilClaimed | pkg/controlplane/reconciliation.go:123-257 | until a claim takes it, an unleased candidate is unchanged by any run of acks, retries and repeated enqueues |
| LeaseQueue.AttemptsCountRetries | pkg/controlplane/reconciliation.go:226-257 | a live candidate has one creation since which it stayed live; its attempts are the enqueued ones plus the successful retries since, its correlation data are the enqueued ones |
| LeaseQueue.SameIdsIffCanonical | pkg/controlplane/reconciliation.go:206-257 | one step keeps candidate ids and due ids equal if and only if it is not a settle by the lease holder under a colon-padded id |
| LeaseQueue.RunKeepsSameIdsIff | pkg/controlplane/reconciliation.go:123-257 | over whole runs the ids agree at every moment if and only if no lease holder settles under a padded id |
| LeaseQueue.PaddedAckLeavesDueEntry | pkg/controlplane/reconciliation.go:206-222 | counterexample run: enqueue, claim and an ack under ":id" leave no record and one due entry |
| LeaseQueue.RunSchedules | pkg/controlplane/reconciliation.go:123-257 | in every run each live candidate has a due time |
| LeaseQueue.PendingCountsCandidates | pkg/controlplane/reconciliation.go:279-287 | in every run with unpadded ids the pending count is the number of live candidates |
| LeaseQueue.ClaimsAreALeaseApart | pkg/controlplane/reconciliation.go:148-202 | two successive claims of a candidate its holder did not settle are at least the first lease apart |
| LeaseQueue.RetryIsHeld | pkg/controlplane/reconciliation.go:226-257 | in every run, with an unpadded id, the first claim after a successful retry is not before the next attempt and finds the recorded code and time |
| LeaseQueue.FirstAttemptIsHeld | pkg/controlplane/reconciliation.go:123-202 | in every run the first claim of a candidate enqueued without a lease is not before its first attempt and finds the record as enqueued |
| LeaseQueue.UnleasedKeepsDue | pkg/controlplane/reconciliation.go:148-257 | a candidate without a lease keeps record and due time until a claim takes it |
| LeaseQueue.DueSinceClaim | pkg/controlplane/reconciliation.go:148-202 | between them the due time stays the lease end, whatever other workers do |
| LeaseQueue.ClaimTakesAPage | pkg/controlplane/reconciliation.go:148-202 | one claim removes min(page, n) of the n due ids from the due set and returns the live ones among them |
| LeaseQueue.ClaimsDrain | pkg/controlplane/reconciliation.go:148-202 | repeated claims at one instant return pairwise disjoint batches, and exactly all due candidates once pages times page size reaches n |
| LeaseQueue.DueAgainIff | pkg/controlplane/reconciliation.go:148-202 | a claimed candidate is due again at the same instant if and only if the lease end falls in the same millisecond or earlier |
| LeaseQueue.LeaseReachesAMillisecond | pkg/controlplane/reconciliation.go:148-202 | a lease always moves the due time if and only if it lasts a millisecond |
| LeaseQueue.ShortLeaseIsClaimedTwice | pkg/controlplane/reconciliation.go:148-202 | counterexample run for every shorter lease: two claims at one instant return the same candidate |
| SortedSets.AddScores | pkg/controlplane/reconciliation.go:132-136 | ZADD keeps the order and sets exactly one score |
| SortedSets.RemoveScores | pkg/controlplane/reconciliation.go:206-222 | ZREM keeps the order and forgets exactly one member |
| SortedSets.CardIsMembers | pkg/controlplane/reconciliation.go:279-287 | ZCARD is the number of members |
| SortedSets.RangeUpToIsDue | pkg/controlplane/reconciliation.go:163-183 | the limited score range has no repeats, only due members, and all of them if it is not full |
| AccessKeys.Client.CreateAccessKey | pkg/controlplane/redis.go:368-415 | refuses blank input, a taken name, a taken secret and an account with an active key, in that order; else writes record and both indexes |
| AccessKeys.Client.PutAccessKey | pkg/controlplane/redis.go:270-325 | normalises, then replaces the record and moves both index entries, unless another key is active on the account |
| AccessKeys.Client.RevokeAccessKey | pkg/controlplane/redis.go:468-476 | marks the record revoked with the next version and frees its account |
| AccessKeys.Client.RotateAccessKey | pkg/controlplane/redis.go:525-553 | moves the secret index to the new hash and raises the version |
| AccessKeys.Client.UpdateAccessKeyRouting | pkg/controlplane/redis.go:330-366 | refuses a blank name or hash, normalises, and writes only against the expected version |
| AccessKeys.Client.LookupAccessKey | pkg/controlplane/redis.go:213-242 | never yields a dead record; on indexed stores equals a linear search for a live record with the secret |
| AccessKeys.Client.ListAccessKeyRecords | pkg/controlplane/redis.go:479-500 | on indexed stores returns every record exactly once and nothing else |
| AccessKeys.NormalizeMeaning | pkg/controlplane/redis.go:417-446 | subject, account and status default to the first nonblank of subject and name, of account, subject and name, and of status and active; normalising again changes nothing |
| AccessKeys.CreateMeaning | pkg/controlplane/redis.go:368-415 | a creation goes through if and only if name and secret are free and, for an active key, no active key is on the account; then the new secret finds exactly the new key and other secrets find what they found |
| AccessKeys.PutMeaning | pkg/controlplane/redis.go:270-325 | a put is done if and only if no other key is active on the account, and then stores the record as given and touches no other |
| AccessKeys.RevokeMeaning | pkg/controlplane/redis.go:468-476 | a revoked key is found under no secret, frees its account, gets the next version, and no other key is touched |
| AccessKeys.StepKeepsIndexesIff | pkg/controlplane/redis.go:270-553 | each operation keeps both indexes exact if and only if it is harmless, a condition checkable before the call |
| AccessKeys.SharedSecretBreaksTheIndex | pkg/controlplane/redis.go:270-553 | counterexample runs: a put, a rotation and a routing write that give one key the secret of another |
| AccessKeys.PutKeepsIndexesIff | pkg/controlplane/redis.go:270-325 | a put keeps them if and only if it is refused or the hash is free or already its own |
| AccessKeys.RotateKeepsIndexesIff | pkg/controlplane/redis.go:525-553 | a rotation keeps them if and only if the new hash is free or already its own |
| AccessKeys.RouteKeepsIndexesIff | pkg/controlplane/redis.go:330-366 | a routing write keeps them if and only if it is refused or hash, activity and an active account are unchanged |
| AccessKeys.RunKeepsIndexes | pkg/controlplane/redis.go:270-553 | in every run of harmless operations the secret index is a bijection with the records and the account index is exactly the active records |
| AccessKeys.RunKeepsIndexesIff | pkg/controlplane/redis.go:270-553 | over whole runs the indexes are exact at every moment if and only if every operation is harmless |
| AccessKeys.OneActiveKeyPerAccount | pkg/controlplane/redis.go:270-553 | in every run of harmless operations no account has two active keys |
| AccessKeys.LookupIsSearch | pkg/controlplane/redis.go:213-242 | the index entry of a secret is the only record a search can find |
| AccessKeys.RotatedOutSecretFindsNothing | pkg/controlplane/redis.go:525-553 | after rotation to a fresh secret the old one finds nothing and the new one finds the same key |
| AccessKeys.RotatedOutForGood | pkg/controlplane/redis.go:213-553 | a rotated-out secret finds nothing in any later state until some operation installs it again |
| AccessKeys.SecretsCountRecords | pkg/controlplane/redis.go:479-500 | there are as many secrets as records |
| RoutingEdits.VersionCountsSuccesses | onr-admin/internal/service/service.go:248-296 | k successful versioned writes by any editors raise the version by exactly k |
| RoutingEdits.ComputedFromPredecessorIff | onr-admin/internal/service/service.go:248-296 | a successful edit was computed from precisely the record it replaced if and only if provisioning did not activate the key between read and write |
| RoutingEdits.UnchangedIffNotActivated | pkg/controlplane/redis.go:330-366 | between two moments with equal versions the record is the same if and only if no activation happened |
| RoutingEdits.StepOnRecord | pkg/controlplane/redis.go:330-366 | a step either raises the version by one or leaves the record, activation apart |
| RoutingEdits.RunTracks | onr-admin/internal/service/service.go:248-296 | every record an editor holds is no newer than the stored one, and equal to it up to activation if the versions agree |
| RoutingEdits.EditUndoesProvisioning | onr-admin/internal/service/service.go:248-296 | counterexample: an edit that straddles provisioning puts an active key back to pending and leaves a dangling account index |
| Ledger.AmountMicrosMeaning | pkg/billing/ledger.go:84-98 | an amount is accepted as n micros if and only if it is exactly n micros and n is a non-negative int64; parsing undoes formatting |
| Ledger.Store.ProvisionAccountWithCredit | pkg/billing/ledger.go:107-119 | opens the account, then grants the credit under its mark; refuses bad input before any write |
| Ledger.Store.GrantInitialCredit | pkg/controlplane/redis.go:797-810 | credits and marks once; a set mark changes nothing |
| Ledger.Store.AdjustAccount | pkg/controlplane/redis.go:865-886 | credits or debits once per idempotency key; refuses blank ids and zero |
| Ledger.Store.RecordEvent | pkg/controlplane/redis.go:814-849 | records event, index entry and five totals once per event id |
| Ledger.Store.ReadEvents | pkg/controlplane/redis.go:888-931 | newest first with a clamped limit, then reversed: the last entries of the ascending window, all fetched or an error |
| Ledger.Store.BatchAdjust | onr-admin/internal/service/service.go:605-685 | one keyed adjustment for each name whose record exists, found without its surrounding colons, on a nonblank account; one report for each nonblank name, true exactly for those |
| Ledger.Conservation | pkg/controlplane/redis.go:797-886 | in every run each total is the sum of the effects of the operations that come first under their key |
| Ledger.CurrencyIsTheFirst | pkg/controlplane/redis.go:784-886 | in every run an account keeps the currency of the first applied operation that brought one |
| Ledger.SeenIffUsed | pkg/controlplane/redis.go:797-886 | a key is marked exactly when an earlier operation used it |
| Ledger.TotalIsSetSum | pkg/controlplane/redis.go:797-886 | if equal keys mean equal operations, each total is the sum over the set of operations |
| Ledger.OrderAndReplaysDoNotMatter | pkg/controlplane/redis.go:797-886 | if equal keys mean equal effects, two runs of the same operations in any order with any replays have the same totals |
| Ledger.OrderIsIrrelevantIff | pkg/controlplane/redis.go:797-886 | the totals of a set of operations are independent of order and replays if and only if equal keys mean equal effects |
| Ledger.SharedKeyMakesOrderMatter | pkg/controlplane/redis.go:865-886 | counterexample: one key for two amounts |
| Ledger.BatchKeysAgreeIff | onr-admin/internal/service/service.go:605-623 | two names of a batch get one idempotency key if and only if they agree up to trailing colons, or, under a prefix of colons only, name one record; names under one key always name one record |
| Ledger.BatchOpsAreBatchSet | onr-admin/internal/service/service.go:605-623 | the operations of a batch are exactly one adjustment for each name it adjusts, however often a name is listed |
| Ledger.FirstUsesSplit | pkg/controlplane/redis.go:797-886 | in any run, operations that own their keys contribute once each, and the others as if those were absent |
| Ledger.RetriedBatchAppliesEachKeyOnce | onr-admin/internal/service/service.go:605-623 | in any run containing a batch, retried in whatever parts and among any other operations, totals are those of the others alone plus the amount once for each different key among the names on the account |
| Ledger.EachRecordOnceIff | pkg/controlplane/redis.go:187-195 | a batch has at least as many keys as records, and as many if and only if it spells the name of each record in one way up to trailing colons |
| Ledger.RetriedBatchAppliesEachRecordOnceIff | onr-admin/internal/service/service.go:605-623 | so a retried batch adjusts each record once if and only if it spells each name in one way |
| Ledger.PaddedNameIsAdjustedTwice | onr-admin/internal/service/service.go:605-685 | counterexample run: the names "x" and ":x" of one record add the amount twice and are both reported as carried out |
| Ledger.BatchOwnsItsKeys | onr-admin/internal/service/service.go:605-623 | every batch owns its keys against its own repeats, so repeating it is a retry |
| Ledger.RunKeepsIndex | pkg/controlplane/redis.go:814-849 | in every run each account index is a sorted set of exactly that account's events at their times |
| Ledger.WindowIsAccountEvents | pkg/controlplane/redis.go:888-931 | an unlimited read returns exactly the account's events of the window, each once, oldest first |
| Ledger.LimitedReadIsNewest | pkg/controlplane/redis.go:888-931 | a limited read is the newest part of the unlimited one in the same order, at most the limit and at most ten thousand events; all without a limit |
| Ledger.SpentIsIndexPlusDebits | pkg/controlplane/redis.go:814-886 | the spent total is the amounts in the account index plus applied debits |
| Ledger.SpentIsEventsPlusDebits | pkg/controlplane/redis.go:814-931 | over a window covering everything, the spent total is the read events' amounts plus applied debits |
| UsageBills.FilterAccessKeyEvents | onr-admin/internal/service/service.go:784-795 | the newest matching events in order: filter first, limit afterwards |
| UsageBills.QueryBills | onr-admin/internal/service/service.go:840-865 | exactly one row for each model that occurs, with that model's six sums, in model order |
| UsageBills.QueryUsage | onr-admin/internal/service/service.go:804-838 | exactly one row for each bucket and model that occur together, with their six sums, in bucket and model order |
| UsageBills.BillRowMeaning | onr-admin/internal/service/service.go:797-865 | each bill row holds, field by field, the sums over the events of its model; events without a reported total count input plus output |
| UsageBills.UsageRowMeaning | onr-admin/internal/service/service.go:797-838 | each usage row holds the same sums over the events of its bucket and model |
| UsageBills.MatchingIsTheClass | onr-admin/internal/service/service.go:784-795 | the filtered events are exactly those of the key, in order |
| UsageBills.GroupedIsTable | onr-admin/internal/service/service.go:804-865 | a table has one row for each class that occurs, with its sums, if and only if it is the table the queries list |
| UsageBills.GroupKeySplits | onr-admin/internal/service/service.go:804-838 | the joined grouping key splits back exactly, also when the model contains NUL |
| UsageBills.UsageSumsToBills | onr-admin/internal/service/service.go:804-865 | usage rows of a model summed over buckets are its bill row |
| UsageBills.BillsSumToEvents | onr-admin/internal/service/service.go:840-865 | bill rows sum to the events in all six counters |
| UsageBills.BilledIsEvents | onr-admin/internal/service/service.go:773-865 | the bill tables of several keys together hold exactly the events of those keys |
| UsageBills.BillsAndDebitsAreSpent | onr-admin/internal/service/service.go:773-865 | over a window covering everything, the rows of the bill tables of all keys on an account plus its applied debits are its spent total |
| Settlement.Client.EnqueueBillingEvent | pkg/controlplane/redis.go:637-654 | appends the event and counts it for its trimmed key, if any |
| Settlement.Client.AckBilling | pkg/controlplane/redis.go:700-722 | settles exactly the delivered unacked ids, and returns how many |
| Settlement.Client.IncrementBillingAttempt | pkg/controlplane/redis.go:1009-1017 | counts one attempt and returns the count |
| Settlement.Client.DeadLetterBilling | pkg/controlplane/redis.go:1019-1042 | moves the event to the dead letters, out of the stream, and settles it |
| Settlement.StepKeepsCount | pkg/controlplane/redis.go:637-735 | each step keeps every counter equal to the number of ids mapped to its key, and absent exactly at zero |
| Settlement.AckMeaning | pkg/controlplane/redis.go:700-722 | after an ack of any list an id is mapped or pending exactly if it was and was not both pending and listed |
| Settlement.StepOnEvent | pkg/controlplane/redis.go:637-722 | what each step does to an enqueued event: acks of delivered ids and dead letters unmap it, a delivery of its range makes it pending, nothing else changes it |
| Settlement.RunKeepsCount | pkg/controlplane/redis.go:637-735 | so does every run, with repeated, early and late acks |
| Settlement.CountedUntilSettled | pkg/controlplane/redis.go:637-722 | in every run an event counts for its key until the first ack after its delivery or its dead letter, and no longer |
| Settlement.AckLowersCounters | pkg/controlplane/redis.go:700-722 | in every run an ack lowers each key's counter by exactly its delivered, unacked, mapped ids |
| Settlement.DeadLetterLowersCounter | pkg/controlplane/redis.go:1019-1042 | in every run a dead letter is kept aside and lowers the counter of its key, and no other, by one |
| Settlement.AttemptsAreCounted | pkg/controlplane/redis.go:1009-1042 | an event's attempts are those since its last dead letter |
| Settlement.EnqueuedIsPendingPlusSettled | pkg/controlplane/redis.go:637-735 | events enqueued for a key are those still counted plus those settled by exactly one step |
| Settlement.SettledOnceForAll | pkg/controlplane/redis.go:700-722 | a settled event is never counted again |
| Settlement.DeadLetterIsFinal | pkg/controlplane/redis.go:1019-1042 | a dead-lettered event never returns; a late ack of it changes nothing |
| Settlement.EarlyAckChangesNothing | pkg/controlplane/redis.go:700-722 | acking any list of undelivered ids changes nothing |
| Provisioning.StepKeepsSound | onr-admin/internal/service/service.go:306-387 | every write, crash, misreported failure, restart, revocation, rotation and edit keeps: indexes exact, active keys granted, each grant under its own mark |
| Provisioning.RunKeepsSound | onr-admin/internal/service/service.go:155-179 | so does every run |
| Provisioning.CreationRuns | onr-admin/internal/service/service.go:306-387 | a creation that runs through leaves the stored key activated, the account opened and, unless its mark was set, one grant |
| Provisioning.RefusedCreationIsRecorded | onr-admin/internal/service/service.go:425-430 | a creation whose account or credit the ledger refuses leaves a pending key marked as failed and no credit |
| Provisioning.ProvisionRuns | onr-admin/internal/service/service.go:523-549 | provisioning a pending key on a free account makes it active and ready, sets its mark, credits it unless the mark was set, and touches no other key |
| Provisioning.CrashedCreationRecovers | onr-admin/internal/service/service.go:306-387 | however far a creation got before a crash, provisioning it afterwards makes the key active with exactly one initial credit |
| Provisioning.RestartRuns | onr-admin/internal/service/service.go:155-179 | a restart without failures sets exactly the marks of the listed active or pending keys that have an account |
| Provisioning.RevokeTakesEffect | onr-admin/internal/service/service.go:551-556 | while no operation runs, revoking a key takes effect on its record |
| Provisioning.RotateTakesEffect | onr-admin/internal/service/service.go:923-928 | so does rotating it to a free secret, with the next version and nothing else changed |
| Provisioning.RouteTakesEffect | onr-admin/internal/service/service.go:248-296 | so does routing it against its present version |
| Provisioning.ActiveOnlyIfGranted | onr-admin/internal/service/service.go:523-549 | a key is active only if its account's initial-credit mark is set |
| Provisioning.GrantsToOneAccountDiffer | pkg/billing/ledger.go:107-119 | in every run two logged grants went to the ledger accounts of their ids, under ids that differ up to trailing colons |
| Provisioning.GrantedAtMostOnce | pkg/billing/ledger.go:107-119 | in every run whose account ids have no leading colon, over all retries, crashes and restarts, no ledger account is credited its initial credit twice |
| Provisioning.CreditIsGrantsPlusAdjustments | pkg/controlplane/redis.go:797-886 | in every run the credit total of an account is its logged initial credits plus its applied credit adjustments |
| Provisioning.BalanceHoldsOneInitialCredit | pkg/billing/ledger.go:107-119 | hence the credit of a granted account holds exactly its one initial credit beside the applied adjustments |
| Provisioning.MarksAgreeIff | pkg/controlplane/redis.go:797-810 | two ids have one mark if and only if they agree up to trailing colons, and then they have one ledger account |
| Provisioning.DifferentStemsCreditTwice | onr-admin/internal/service/service.go:306-387 | for any two ids of one ledger account that do not, a run of two creations credits the account twice |
| Provisioning.PaddedIdIsCreditedTwice | onr-admin/internal/service/service.go:306-387 | such a run at "x" and ":x" |
| Provisioning.MarkHasOneOrigin | pkg/controlplane/redis.go:797-886 | a mark is set if and only if a logged grant or an adjustment that found it unset set it, never both |
| Provisioning.ActiveIsGrantedIff | onr-admin/internal/service/service.go:306-387 | an active key's account was granted its initial credit if and only if no adjustment took its mark first |
| Provisioning.ActiveIsGrantedExactlyOnce | onr-admin/internal/service/service.go:306-387 | then exactly one logged grant went to that account |
| Provisioning.AdjustmentTakesTheMark | pkg/controlplane/redis.go:865-886 | counterexample run: a debit under the mark's text leaves an active key whose account was never credited |
| Provisioning.RevokedStaysRevoked | onr-admin/internal/service/service.go:551-556 | a revoked key stays revoked in every later state |
| SseFraming.Parser.FeedLine | onr-core/pkg/apitransform/openai_responses_sse_to_chat.go:82-97 | one line: blank lines dispatch, event lines replace the name, data lines are collected |
| SseFraming.Parser.Flush | onr-core/pkg/apitransform/openai_responses_sse_to_chat.go:99-113 | dispatches what was collected and starts afresh; blank data and the end marker dispatch nothing |
| SseFraming.ParseLines | onr-core/pkg/apitransform/openai_responses_sse_to_chat.go:37-80 | feeding all lines and flushing yields exactly the events of the blank-separated blocks |
| SseFraming.InlinePayloads | onr-core/pkg/apitransform/openai_chat_sse_to_other.go:46-100 | the inline loop hands exactly the payloads of the block specification to the mapper |
| SseFraming.ParserRefinesBlocks | onr-core/pkg/apitransform/openai_responses_sse_to_chat.go:82-113 | on every line sequence the stateful parser equals the block specification |
| SseFraming.InlineMatchesParser | onr-core/pkg/apitransform/gemini_sse_to_openai_chat.go:25-62 | parser and inline loops yield the same payloads for every line sequence |
| SseFraming.ParseUndoesPrint | onr-core/pkg/apitransform/openai_responses_sse_to_chat.go:550-565 | parsing the printed form of any list of trimmed single-line payloads gives back that list, with or without the end marker |
| SseFraming.NamedBlockParses | onr-core/pkg/apitransform/openai_responses_sse_to_chat.go:82-113 | a block with a name and two data lines is one event with that name, its data joined by a line feed |
| ResponsesToChat.Translator.HandleEvent | onr-core/pkg/apitransform/openai_responses_sse_to_chat.go:137-226 | the state after one event is the step function's |
| ResponsesToChat.Translator.SendToolCallDelta | onr-core/pkg/apitransform/openai_responses_sse_to_chat.go:482-538 | numbers a new call, sends its name once, drops everything after text |
| ResponsesToChat.Translator.HandleOutputItem | onr-core/pkg/apitransform/openai_responses_sse_to_chat.go:244-274 | announces the item's call id, stores its snapshot, sends only the unseen part |
| ResponsesToChat.Translator.HandleArgsDelta | onr-core/pkg/apitransform/openai_responses_sse_to_chat.go:276-290 | accumulates and sends a delta under the announced call id |
| ResponsesToChat.Translator.EmitFinalIfPending | onr-core/pkg/apitransform/openai_responses_sse_to_chat.go:317-390 | the terminal chunk and [DONE] once a final response was captured |
| ResponsesToChat.Transform | onr-core/pkg/apitransform/openai_responses_sse_to_chat.go:37-80 | the whole translation is the run of the step function and its close |
| ResponsesToChat.RunIsShaped | onr-core/pkg/apitransform/openai_responses_sse_to_chat.go:204-538 | every event sequence: one id on all chunks, dense stable call numbers in first-appearance order, names sent once, no tool chunk after text, start first |
| ResponsesToChat.NamesAreSentOnce | onr-core/pkg/apitransform/openai_responses_sse_to_chat.go:482-538 | every event sequence: the names sent for a call are exactly one, the trimmed name of the first item event that named it before any text, or none if there is no such event |
| ResponsesToChat.NameIsOnTheItemsChunk | onr-core/pkg/apitransform/openai_responses_sse_to_chat.go:244-274 | that name is on the chunk the item event itself sends |
| ResponsesToChat.StartOpensTools | onr-core/pkg/apitransform/openai_responses_sse_to_chat.go:431-480 | in every stream a start chunk is followed by the tool chunk it opens the stream for; text needs none |
| ResponsesToChat.ChatIdIsTheFirstSeed | onr-core/pkg/apitransform/openai_responses_sse_to_chat.go:177-242 | all chunks carry the first id that the stream brings, with its prefix, unless something was sent before it |
| ResponsesToChat.EventKinds | onr-core/pkg/apitransform/openai_responses_sse_to_chat.go:204-226 | the event names and what they are taken for |
| ResponsesToChat.TerminalExactlyOnceAndLast | onr-core/pkg/apitransform/openai_responses_sse_to_chat.go:309-390 | terminal chunk and [DONE] appear exactly once and last if a final response was captured, otherwise never |
| ResponsesToChat.FinalIffCaptured | onr-core/pkg/apitransform/openai_responses_sse_to_chat.go:292-314 | a final response is pending exactly when some event was one |
| ResponsesToChat.FinishReason | onr-core/pkg/apitransform/openai_responses_sse_to_chat.go:392-407 | the terminal chunk says tool_calls if and only if tool chunks and no text were sent, else the reason of the last captured response, else stop |
| ResponsesToChat.TerminalStatuses | onr-core/pkg/apitransform/openai_responses_sse_to_chat.go:331-338 | the statuses that end a response |
| ResponsesToChat.FinalMeaning | onr-core/pkg/apitransform/openai_responses_sse_to_chat.go:292-306 | which other events end a response: "completed" anywhere in the name, or a terminal status of the response or of the event |
| ResponsesToChat.TextsAreTheTrimmedDeltas | onr-core/pkg/apitransform/openai_responses_sse_to_chat.go:204-226 | content chunks are exactly the trimmed non-blank text deltas in order |
| ResponsesToChat.ArgsDeltaCompletesIff | onr-core/pkg/apitransform/openai_responses_sse_to_chat.go:540-548 | past plus delta is the snapshot if and only if the snapshot is non-blank and extends the past |
| ResponsesToChat.HandleTracksIff | onr-core/pkg/apitransform/openai_responses_sse_to_chat.go:244-290 | an event keeps sent and accumulated arguments in step if and only if its snapshot fits: before text it is empty or extends the past, after text it extends what was sent |
| ResponsesToChat.ArgumentsTrackedIff | onr-core/pkg/apitransform/openai_responses_sse_to_chat.go:244-290 | over whole streams they are in step after every event if and only if every snapshot fits |
| ResponsesToChat.NonExtendingSnapshotIsAppended | onr-core/pkg/apitransform/openai_responses_sse_to_chat.go:540-548 | counterexample stream: snapshots "a" and "b" of one call leave "ab" with the client |
| ResponsesToChat.ArgumentsAreNeverRepeated | onr-core/pkg/apitransform/openai_responses_sse_to_chat.go:244-290 | in such streams the sent fragments of every call are always a prefix of its arguments and equal to them while no text was sent |
| ResponsesToChat.FinalSnapshotIsWhatWasSent | onr-core/pkg/apitransform/openai_responses_sse_to_chat.go:244-274 | a closing snapshot duplicates nothing: the sent fragments are that snapshot |
| ResponsesToChat.AnnouncementLasts | onr-core/pkg/apitransform/openai_responses_sse_to_chat.go:244-274 | an item keeps the call id it was last announced with |
| ResponsesToChat.DeltasFollowTheirCall | onr-core/pkg/apitransform/openai_responses_sse_to_chat.go:276-290 | deltas of an announced item are sent under that call id |
| ClaudeToChat.Translator.HandleEvent | onr-core/pkg/apitransform/claude_sse_to_openai_chat.go:67-218 | the state after one event is the step function's |
| ClaudeToChat.Translator.MergeUsage | onr-core/pkg/apitransform/claude_sse_to_openai_chat.go:261-292 | the branch-by-branch merge of one report |
| ClaudeToChat.Translator.SendDone | onr-core/pkg/apitransform/claude_sse_to_openai_chat.go:247-351 | usage chunk if there is something to report, then [DONE], once |
| ClaudeToChat.Transform | onr-core/pkg/apitransform/claude_sse_to_openai_chat.go:18-64 | the whole translation, closed at the end of input |
| ClaudeToChat.StreamShape | onr-core/pkg/apitransform/claude_sse_to_openai_chat.go:67-259 | every event sequence: role at most once and before any content or tool chunk, exactly one [DONE], at most one usage chunk and that right before it |
| ClaudeToChat.RoleIsSentIff | onr-core/pkg/apitransform/claude_sse_to_openai_chat.go:91-232 | the role chunk is out if and only if some event wanted it: a start message, a tool block or a block delta |
| ClaudeToChat.FragmentsArriveUnchanged | onr-core/pkg/apitransform/claude_sse_to_openai_chat.go:105-218 | every event sequence: the stream carries, in order and nothing else, the non-blank text deltas unchanged, one call for each named tool block, the argument fragments unchanged under the id of their block's tool, and one finish reason for each stop reason |
| ClaudeToChat.StopTable | onr-core/pkg/apitransform/claude_sse_to_openai_chat.go:353-366 | max_tokens, tool_use and stop_sequence give length, tool_calls and content_filter; every other reason gives stop |
| ClaudeToChat.IterationsMeaning | onr-core/pkg/apitransform/claude_sse_to_openai_chat.go:294-318 | each model's usage keeps kind and model, counts cache tokens as prompt tokens and lists them in its details |
| ClaudeToChat.EventKinds | onr-core/pkg/apitransform/claude_sse_to_openai_chat.go:67-89 | the event names and what they are taken for |
| ClaudeToChat.MergeAgreesIff | onr-core/pkg/apitransform/claude_sse_to_openai_chat.go:261-292 | merging a report agrees with the non-stream mapping of the updated counters if and only if the report repeats all cache counters seen when it has input tokens, and none when it has not |
| ClaudeToChat.CumulativeIsMergeable | onr-core/pkg/apitransform/claude_sse_to_openai_chat.go:261-292 | reports that are zero on the prompt side, or cumulative snapshots with input tokens, meet that condition |
| ClaudeToChat.RepeatedCacheReadCountsTwice | onr-core/pkg/apitransform/claude_sse_to_openai_chat.go:261-292 | counterexample outside it, for one report |
| ClaudeToChat.RepeatedCacheReadIsSentTwice | onr-core/pkg/apitransform/claude_sse_to_openai_chat.go:91-103 | counterexample stream: a start message and a message delta that repeat a cache counter send a prompt of 20 where the mapping gives 15 |
| ClaudeToChat.UsageAgreesIff | onr-core/pkg/apitransform/claude_openai.go:295-314 | before any stop the streamed usage is the mapping of the latest counters after every event if and only if every report is mergeable |
| ClaudeToChat.UsageFollowsCounters | onr-core/pkg/apitransform/claude_openai.go:295-314 | after any events the streamed usage is the mapping of the latest counters |
| ClaudeToChat.StreamedUsageIsMappedUsage | onr-core/pkg/apitransform/claude_openai.go:295-314 | the usage sent over a whole stream is the non-stream mapping of the counters at the first stop, whatever follows; none if all are zero |
| Tokens.UrlEscape | onr-admin/internal/cli/token.go:153-167 | the loop computes the escaping function |
| Tokens.UnescapeUndoesEscape | onr-admin/internal/cli/token.go:153-167 | query decoding undoes it on every byte string |
| Tokens.EscapeHasEscapedForm | onr-admin/internal/cli/token.go:153-167 | its output has only unreserved characters and upper-case percent triplets (sections 2.1 and 2.3 of RFC 3986) |
| Tokens.Decode64Iff | onr/internal/auth/token.go:80-86 | strict base64url decoding (section 5 of RFC 4648) yields s if and only if the text without line breaks is the encoding of s |
| Tokens.Decode64UndoesEncode64 | onr-admin/internal/cli/token.go:138-139 | decoding undoes encoding on every byte string |
| Tokens.TokenQueryValues | onr-admin/internal/cli/token.go:133-151 | the printed token is the joined query of its fields |
| Tokens.ParseQueryUndoesQuery | onr/internal/auth/token.go:63-67 | splitting on & and = and decoding recovers every field list with unreserved names |
| Tokens.ParseOfToken | onr/internal/auth/token.go:58-105 | parsing a printed token gives its fields trimmed, the provider in lower case; a missing key exactly when there is none |
| Tokens.EncodedKeysComeFirst | onr/internal/auth/token.go:69-86 | encoded upstream and access keys count before plain ones and are read back |
| Tokens.BadEncodingsAreRefused | onr/internal/auth/token.go:69-86 | key fields that are no strict encoding are refused, the upstream key first |
| Tokens.ParseUndoesBuild | onr-admin/internal/cli/token.go:102-131 | the gateway reads from a created token exactly what was asked for, in plain and in base64url form |
| Tokens.TokensAreUnique | onr-admin/internal/cli/token.go:133-151 | equal tokens mean equal access key, provider, model and upstream key |
| KeyPool.Service.NextProviderKeyName | onr-admin/internal/service/service.go:401-423 | hands out the pool entry at the counter modulo the pool size; blank without provider, configuration or pool |
| KeyPool.RoundRobin | onr-admin/internal/service/service.go:401-423 | in any interleaving over providers the k-th allocation for one provider takes position k modulo its pool size |
| KeyPool.PoolsAreLoadedOnce | onr-admin/internal/service/service.go:401-423 | the pools are those of the key file at the first call that reaches them, for good |
| KeyPool.EachPositionOnce | onr-admin/internal/service/service.go:401-423 | any pool-size consecutive allocations use each position exactly once |
| KeyPool.UsesDifferByAtMostOne | onr-admin/internal/service/service.go:401-423 | use counts of two positions differ by at most one, the earlier one ahead |
| ProviderPriority.ValidateProviderPriority | onr-admin/internal/web/server.go:1020-1042 | accepts if and only if the normalised priority is a duplicate-free permutation of the normalised configured providers; the error names the first offence |
| ProviderPriority.Pigeonhole | onr-admin/internal/web/server.go:1020-1042 | as many distinct known names as there are names are a permutation of them, with no assumption on repeats among the names |
| ProviderPriority.CollidingProvidersRejectAll | onr-admin/internal/web/server.go:1020-1042 | configured providers that collide once normalised leave no acceptable priority |
| ProviderPriority.CompleteProviderPriority | onr-admin/internal/web/server.go:999-1018 | the loop computes the completion |
| ProviderPriority.CompleteMeaning | onr-admin/internal/web/server.go:999-1018 | a duplicate-free list of exactly the configured providers in first-occurrence order |
| ProviderPriority.OrderDetermines | onr-admin/internal/web/server.go:999-1018 | which leaves one list only |
| ProviderPriority.CompletingAcceptedIsIdentity | onr-admin/internal/web/server.go:999-1042 | completing an accepted priority returns it unchanged |

## Left out

- AccessKeys.Client.CreateAccessKey: names must be their own Redis key part and differ from "index" and "account_index", since those names share a key with the indexes. The service sets no such rule.
- AccessKeys.Client.PutAccessKey: same restriction on names; normalisation of the provider, model and binding lists is not modelled.
- AccessKeys.Client.RevokeAccessKey: reads outside its write; modelled as one uninterrupted operation, on canonical names.
- AccessKeys.Client.RotateAccessKey: reads outside its write; modelled as one uninterrupted operation, on canonical names, and with the new hash as a parameter.
- AccessKeys.Client.LookupAccessKey: the hash is a parameter; that different secrets hash differently is assumed where the fresh hash is required.
- LeaseQueue.SettledAtMostOnce: claim tokens are parameters, required to be non-empty and different for different claims, in place of random bytes.
- Ledger.AmountMicrosMeaning: decimal text is read as a real number; syntax errors of the decimal parser are not modelled, and sums are unbounded where Redis has int64.
- Settlement.RunKeepsCount: stream trimming and reassignment of deliveries to other consumers are not modelled; a reassigned id stays pending and its counter is unaffected.
- Provisioning.StepKeepsSound: service operations run one at a time; the migration operations and the command-line creation of active keys are not steps. `EnsureAccessKey` and batch operations are sequences of the modelled ones.
- ResponsesToChat.Translator.HandleEvent: events arrive with their JSON decoded; the model name, time stamp and usage of chunks are not modelled, and the finish reason of the mapped response is an input.
- ClaudeToChat.Translator.HandleEvent: events arrive decoded; chunk id, model, time stamp and stop details are not modelled.
- SseFraming.ParseLines: works on lines; reading from the network, write errors and lines that break inside a character are not modelled.
- Tokens.ParseOfToken: text is bytes, and lower-casing is that of ASCII letters; flag and configuration reading of `token create` is not modelled.
- ProviderPriority.CompleteProviderPriority: lower-casing is that of ASCII letters, as everywhere in this model.
- UsageBills.QueryUsage: calendar bucketing and time zones are a function whose result has no NUL.
- RoutingEdits.VersionCountsSuccesses: revocation, rotation and provisioning each read and write in one step; in the source their read is outside the write, so an edit in between can be overwritten by an older record with a lower version.
- LeaseQueue.Store.EnqueueCandidate: the correlation fields of a record are one opaque text; their trimming is not modelled.
- AccessKeys.RunKeepsIndexesIff: steps identify a record by its name, so the run theorems of `AccessKeys`, `RoutingEdits` and `Provisioning` are about names that are their own record key.
- AccessKeys.Client.UpdateAccessKeyRouting: on canonical names; normalisation of the routing lists is not modelled.
- Redis connections, timeouts, JSON encoding, HMAC and SHA-256: foreign libraries.
- HTTP handlers, sessions, the web and terminal interfaces, update and OAuth commands: input and output.
- Image, video and Gemini mappers and the non-stream message mappers: field copying that would only add easy members.
- The DSL parser and evaluator and the YAML helpers are not part of this model.
