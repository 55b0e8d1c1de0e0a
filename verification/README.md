# The durable spool of the SMTP cloud relay, in Dafny

The relay accepts mail over SMTP, writes it to a spool and only then acknowledges it; a background worker hands each
message to Azure Communication Services or Amazon SES. This project is a Dafny model of that spool and worker, with the
retry arithmetic and the base64 code around them, and proofs about every run of the model. `dafny verify dfyconfig.toml`
checks all of it.

## How the model is built

**The file system** (`Disk.dfy`) is a tree with durability. A directory has its live entries and, for each name changed
since its last sync, the values that name had before. After a crash such a name may be absent, at its live value or at
an earlier one, and bytes of an unsynced file may be anything (`Image`). `Payload.dfy` says what `Save` writes, call by
call, and what `Load` makes of a directory.

**The relay** (`Machine.dfy`) is one step machine: any number of `HandleMessage` threads up to the inflight bound, the
delivery worker, start-up with clean-up, recovery and quarantine, the SQLite table and the payload tree. A step is one
system call, one transaction, one provider call or one reading of the clock. Crashes, exits and write-backs can come
between any two steps. A transaction has three outcomes: rolled back, committed, and committed while reporting an error
(`internal/spool/sqlite_record_store.go:763-772`). In the last case `Enqueue` removes the payload of a live row. From the
first of these removal calls on the row is in the history's `withdrawn` set; such rows were never acknowledged, and the
theorems about payloads are about all other rows, at every moment.
The history records what clients and provider have seen: acknowledgements, calls of `Submit` and what they were given,
polls, requeues. Provider answers are arbitrary.

**Invariants**: `DiskInvariant.dfy` with `SmtpSteps.dfy` and `ProcessSteps.dfy` for the payload tree, `RowInvariant.dfy`
with `RowSteps.dfy` for table, worker and history, one lemma per kind of step. `Theorems.dfy` states what follows for
whole runs, `Ledger.dfy` ties the history to the steps of the run, `Clock.dfy` says when no write is ever refused,
`Fairness.dfy` when no row starves. `Scenarios.dfy` builds runs step by step from a fresh spool; they show that the
conditions in those theorems are exact, and what happens without them.

**The objects** (`Store.dfy` with `StoreFacts.dfy`, `WorkerLoop.dfy`) are the source's own form: `SpoolStore` and
`DeliveryWorker` change fields in place, with the loops of `Save`, `ClaimReady`, `Recover`, `QuarantineOrphans` and `Start`.
Each change is also logged as a machine step in a ghost run that every method continues (`RunSteps.dfy`), so the theorems
about runs hold of the objects. The parameter `calm` says that nothing fails during the call and that the clock is not
set back; the promise that a calm call succeeds is made for configurations whose retries fit (`Clock.RetriesFit`). The
parameter `tidy` says that the removal calls of a clean-up, whose errors the source ignores, do not fail.

**Around them**: `Trees.dfy` has the directory walks, `Recovery.dfy` what recovery promises, `Rows.dfy` the records and
their SQL form, `Delivery.dfy` the worker's decisions, `Outcomes.dfy` the rows they write, text by text, `Ids.dfy` the
identifiers, `Durations.dfy` the retry arithmetic, `Base64Mime.dfy` the MIME body printer and decoder. `Codecs.dfy` has a
codec that reads back what it writes, so the assumption about JSON can be met.

## What turned out to need a condition

- The worker's retry wait is an unchecked 64-bit product (`internal/spool/worker.go:334-343`). It agrees with the two
  provider forms exactly when nothing is cut off (`Durations.WorkerDelayAgreesIff`), and every wait leads forward exactly
  when the longest one fits (`Clock.DelaysFitIff`). Two promises depend on it. No run has a write refused if and only if
  no retry made as early as can be is due before 1970 (`Scenarios.NoWriteIsRefusedIff`). No queued row starves, in any run,
  if and only if all waits fit (`Scenarios.NoStarvationIff`); a retried row gets ahead of a waiting one exactly when its
  new due time says so (`Fairness.RetryGetsAheadIff`). A base delay of 5,000,000,000,000 ms with two attempts breaks both
  (`Scenarios.LongBaseDelayMisbehaves`). Submitted rows never starve, whatever the configuration.
- The timeout of a submitted row is compared with the time the pass began, not with the time of the poll: polls at or after
  the deadline are possible, exactly for passes begun before it (`Scenarios.PollMayComeLate`), and they happen in every
  configuration (`Scenarios.LatePollHappens`).
- An orphan moved across devices is copied, then removed; when the removal fails the copy is deleted
  (`internal/spool/payload_store.go:488-498`). After such a failure the tree is still whole exactly when no removal call had
  succeeded (`Store.SpoolStore.CopyAndRemoveOrphan`); otherwise it is lost (`Scenarios.OrphanCanBeLost`).
- A provider that answers "running" with an operation id of white space only leaves a submitted row without operation id
  (`Delivery.SubmittedWithoutOperationIff`, witness `Delivery.BlankOperationIsStored`).
- The send budget covers the ACS retry loop with its two seconds to spare exactly when the sum fits in 64 bits
  (`Durations.SubmitUnderBudget`).
- Base64 text the parser accepts is the canonical encoding of its bytes exactly when the spare bits of its last symbol are
  zero (`Base64Mime.ReencodeIffSpareBitsZero`, witness `Base64Mime.SpareBitsAreIgnored`).

## Model

| member | source | states |
|---|---|---|
| `Ids.ValidateCanonicalRecordID` | internal/spool/common.go:92-124 | accepts exactly the canonical lower-case UUIDv4 texts (section 5.4 of RFC 9562) |
| `Ids.NewUUIDv4` | internal/spool/common.go:71-90 | the buffer filled piece by piece is the text of the 16 random bytes with version and variant set |
| `Ids.NewIdsAreCanonical` | internal/spool/common.go:71-90 | every drawn identifier passes the validation |
| `Ids.FormatInjective` | internal/spool/common.go:78-89 | different bytes give different texts |
| `Ids.CollisionIffSameRandomBits` | internal/spool/common.go:71-90 | two draws collide if and only if they agree on the 122 random bits |
| `Ids.CanonicalIffDrawn` | internal/spool/common.go:71-124 | a text passes the validation if and only if it is the identifier of some random bytes |
| `Ids.ScratchNamesDiffer` | internal/spool/payload_fs.go:162-228 | two staging names, or two publish names, are equal if and only if record and suffix are; a staging name is never a publish name; their text |
| `Ids.CanonicalIsNoScratchName` | internal/spool/payload_store.go:435-446 | no identifier looks like a publish temporary or a staging directory |
| `Disk.SettledSurvives` | internal/spool/payload_fs.go:514-519 | a tree whose bytes and entries are all synced comes back from any crash unchanged |
| `Disk.UnsyncedMayBeUndone` | internal/spool/payload_fs.go:514-519 | without the sync a crash may undo a new or a removed entry, or not |
| `Disk.UnsyncedBytesMayChange` | internal/spool/payload_fs.go:230-276 | and unsynced bytes may become any bytes |
| `Disk.RunFile` | internal/spool/payload_fs.go:230-276 | create, write, sync, rename, sync leaves exactly the new file, on disk |
| `Disk.RunMakeFolder` | internal/spool/payload_fs.go:139-160 | creating a directory leaves it, and all else in its parent, on disk |
| `Disk.RunFolder` | internal/spool/payload_fs.go:326-356 | copying a tree into a directory in any state leaves the complete copy on disk and every other entry alone |
| `Disk.RunAll` | internal/spool/payload_fs.go:374-405 | the calls for a whole listing build exactly the listed tree, every part of it on disk |
| `Disk.UnlinkBelow` | internal/spool/payload_fs.go:278-324 | removal calls only ever leave parts of the tree they work on |
| `Payload.StagePlanBuilds` | internal/spool/payload_store.go:184-236 | all calls of Save together leave the complete, settled payload directory, for any number of attachments |
| `Payload.CopyPlanBuilds` | internal/spool/payload_store.go:458-486 | so do the calls of the cross-device copy, in any listing order |
| `Payload.Load` | internal/spool/payload_store.go:256-338 | the loop returns what the directory means as a whole: the message, or corrupt; or a read error |
| `Payload.SaveThenLoad` | internal/spool/payload_store.go:184-338 | loading a saved payload gives the message back with the two sender fields trimmed |
| `Payload.LoadBelow` | internal/spool/payload_store.go:256-338 | whatever is left of a saved payload loads to that message or is corrupt, never to another message |
| `Payload.LoadsIff` | internal/spool/payload_store.go:256-338 | a load gives a message if and only if manifest and files hold it: every field, and for attachment i the path, size and SHA-256 of attachments/i.bin |
| `Payload.CorruptIff` | internal/spool/payload_store.go:256-338 | and finds the payload corrupt if and only if it holds no message |
| `Payload.LoadChecksEveryAttachment` | internal/spool/payload_store.go:304-335 | of an accepted payload, attachment i is in attachments/i.bin with the recorded path, size and digest, in either case of letters |
| `Payload.ReplacedBytesAreCorrupt` | internal/spool/payload_store.go:326-329 | bytes with another digest in place of a saved attachment make the payload corrupt |
| `Payload.HexTextDenotes` | internal/spool/payload_store.go:326-328 | comparing hex texts without regard to case compares the bytes they denote |
| `Payload.LowerLetters` | internal/smtp/parser.go:143 | the 26 letters in lower case |
| `Durations.SaturatingAdd` | internal/providers/factory.go:140-152 | the sum of the positive values, capped |
| `Durations.MultiplyDuration` | internal/providers/factory.go:130-138 | the product, capped, without overflow in between |
| `Durations.RetryBackoffTotal` | internal/providers/factory.go:112-128 | min(base * (2^(n-1) - 1), max) |
| `Durations.RetryBackoff` | internal/providers/acs/provider.go:424-437 | min(base * 2^(k-1), max) |
| `Durations.BackoffDelay` | internal/providers/ses/provider.go:601-617 | the same value as the ACS loop |
| `Durations.WorkerDelayAgreesIff` | internal/spool/worker.go:334-343 | the shift form equals them if and only if k-1 <= 30 and the product fits in 64 bits |
| `Durations.WorkerDelayCanBeNegative` | internal/spool/worker.go:334-343 | inputs for which the unchecked product is negative, or zero |
| `Durations.RuntimeSendTimeout` | internal/providers/factory.go:106-110 | the worst case of the ACS loop plus two seconds, capped; never below two seconds |
| `Durations.AcsSubmit` | internal/providers/acs/provider.go:333-376 | stops at the first answer that is accepted, permanent, last or canceled, with the result of that answer; the time spent, exactly: requests, capped doubling waits, and the cut wait |
| `Durations.PermanentIff` | internal/providers/acs/provider.go:346-372 | a permanent failure if and only if the last answer was permanent, or its wait was canceled before the last attempt |
| `Durations.SpentIsBounded` | internal/providers/acs/provider.go:333-376 | never more than the worst case; just that, or more than any 64-bit duration, when every request times out |
| `Durations.RetryDelayIs` | internal/spool/worker.go:334-343 | the shift form is the exact product modulo 2^64, the shift between 0 and 30 |
| `Durations.SubmitUnderBudget` | internal/providers/factory.go:36-56 | the budget covers every run of the ACS loop with two seconds to spare if and only if the sum fits in 64 bits |
| `Base64Mime.WriteBase64MIME` | internal/providers/ses/provider.go:545-558 | the encoding in lines of at most 76 characters, each ended by CR LF |
| `Base64Mime.EncodeAt` | internal/providers/ses/provider.go:546 | character k is the standard alphabet at bits 6k to 6k+5 (section 4 of RFC 4648), then padding to a multiple of four |
| `Base64Mime.SymbolIsStandard` | internal/providers/ses/provider.go:546 | the alphabet, character by character |
| `Base64Mime.PrintedAt` | internal/providers/ses/provider.go:547-557 | where each character of the encoding stands in the output, and how long that is |
| `Base64Mime.LineEndsAt` | internal/providers/ses/provider.go:548-555 | CR LF after every 76 characters and at the end |
| `Base64Mime.DecodesIff` | internal/smtp/parser.go:149-153 | the parser takes exactly the texts of whole groups with padding only at the end |
| `Base64Mime.ReencodeClears` | internal/smtp/parser.go:149-154 | what it makes of them: the bytes whose encoding is the text with its spare bits cleared |
| `Base64Mime.IdentityEncodings` | internal/smtp/parser.go:142-145 | bodies in 7bit, 8bit, binary or no encoding come back as they are |
| `Base64Mime.DecodeEncode` | internal/smtp/parser.go:142-154 | decoding undoes encoding |
| `Base64Mime.MimeRoundTrip` | internal/smtp/parser.go:142-154 | for every byte string the parser gives back what the printer wrote, in lines of 76 characters and a last one of at most 76 (section 6.8 of RFC 2045) |
| `Base64Mime.ReencodeIffSpareBitsZero` | internal/smtp/parser.go:142-154 | accepted text is the canonical encoding of its bytes if and only if the spare bits of its last symbol are zero |
| `Base64Mime.SpareBitsAreIgnored` | internal/smtp/parser.go:149-154 | a witness: two texts for the same byte |
| `Rows.RowRoundTrip` | internal/spool/sqlite_record_store.go:845-1010 | the CHECKs accept a row if and only if the next read does, and it reads back at millisecond precision with trimmed text |
| `Rows.EncodeMeetsConstraintsIff` | internal/spool/schema.go:10-31 | the exact condition on a record for the table to take it |
| `Rows.NullsAre` | internal/spool/sqlite_record_store.go:966-1010 | which columns are NULL, and when |
| `Rows.NewRecordIs` | internal/spool/spool_store.go:70-92 | the row of a new record, field by field |
| `Rows.MarkedIff` | internal/spool/sqlite_record_store.go:226-320 | a mark is refused exactly for records in the wrong state |
| `Rows.TextLessAt` | internal/spool/sqlite_record_store.go:135-144 | the first difference decides the order of two identifiers |
| `Rows.BeforeIsTotalOrder` | internal/spool/sqlite_record_store.go:135-144 | the ORDER BY of the ready queries is a strict total order |
| `Rows.QueryFirstDue` | internal/spool/sqlite_record_store.go:135-149 | the ready query returns the least due row, and nothing exactly when none is due |
| `Delivery.SubmitOutcome` | internal/spool/worker.go:139-228 | every answer uses one attempt; the answer and the attempts left decide the next state and due time |
| `Delivery.PollOutcome` | internal/spool/worker.go:254-316 | a poll uses no attempt and leads to submitted, succeeded or dead-letter |
| `Outcomes.SubmitWrites` | internal/spool/worker.go:139-228 | the whole row written for every answer to a submission, with the text, provider, time and temporary flag of the error |
| `Outcomes.PollWrites` | internal/spool/worker.go:250-316 | the whole row written for every answer to a poll |
| `Outcomes.TimeoutWrites` | internal/spool/worker.go:237-248 | the whole row written when the deadline has passed |
| `Delivery.SubmitAnswerIsKept` | internal/spool/worker.go:167-198 | operation id, location, message id, poll time and first submission time of the row are those of the answer |
| `Delivery.PollAnswerIsKept` | internal/spool/worker.go:274-305 | a poll keeps the operation and updates the message id only if the answer has one |
| `Delivery.FailureIsRecorded` | internal/spool/worker.go:368-391 | message, provider, time and temporary flag of the recorded error; a delivery error decides before a context error does |
| `Delivery.SubmittedWithoutOperationIff` | internal/spool/worker.go:176-198 | a submitted row lacks an operation id if and only if the provider answered with white space only |
| `Delivery.BlankOperationIsStored` | internal/spool/sqlite_record_store.go:231-239 | a witness: one blank |
| `ProcessSteps.InvAlways` | internal/spool/spool_store.go:70-99 | the order "payload synced, then row" holds in every state of every run, across crashes and all threads |
| `RowSteps.RInvAlways` | internal/spool/sqlite_record_store.go:226-404 | table, worker memory, attempt counts and provider history agree in every state of every run |
| `RowSteps.StepRows` | internal/spool/sqlite_record_store.go:463-527 | no step loses a row, and every changed row takes one edge of the state graph |
| `Theorems.CommittedRowLoads` | internal/spool/spool_store.go:81-98 | at every point of every run, and in every image a crash there could leave, a committed row loads to the enqueued message |
| `Theorems.AcknowledgedForever` | internal/relay/handler.go:110-127 | after HandleMessage returned nil: one row for ever, payload in place and loadable, never condemned (section 6.1 of RFC 5321) |
| `Theorems.RowsAreNotQuarantined` | internal/spool/payload_store.go:407-428 | no start-up step moves or removes the payload directory of a row |
| `Theorems.SubmitAccounting` | internal/spool/worker.go:330-332 | attempt <= Submit calls <= attempt + requeues + (1 if working), and at most RetryAttempts + 1 + requeues calls |
| `Theorems.NeverSubmittedAgain` | internal/spool/worker.go:167-198 | once a running or succeeded result is recorded, Submit is never called again for that row |
| `Ledger.HistoryCountsSteps` | internal/spool/worker.go:139-147 | the counters of the history are the numbers of Submit calls and of put-backs in the run itself |
| `Ledger.SubmissionsOfRun` | internal/spool/worker.go:330-332 | so the attempts of a row bound the Submit calls of the run from both sides |
| `Ledger.TakenAlways` | internal/spool/worker.go:167-198 | every submitted or succeeded row was recorded as accepted |
| `Ledger.TakenIsNeverSubmittedAgain` | internal/spool/worker.go:167-198 | once a row is submitted or succeeded, no later step of the run calls Submit for it |
| `Ledger.ServesLoadableRows` | cmd/relay/main.go:65-147 | when SMTP starts, the payload of every submitted row loads |
| `Ledger.AcknowledgedIsNeverGivenUp` | internal/spool/spool_store.go:114-131 | no step of any run gives up an acknowledged message as corrupt |
| `Theorems.SubmitsTheEnqueuedMessage` | internal/spool/worker.go:139-147 | Submit is only ever given the message that was enqueued under that identifier |
| `Theorems.PollsAreInTime` | internal/spool/worker.go:237-256 | every poll belongs to a pass begun before the deadline; with ACS its operation id is the record id |
| `Theorems.PollsSubmittedRows` | internal/spool/worker.go:231-256 | a poll asks with the operation id and first submission time of a row submitted at that moment |
| `Theorems.ExpiredIsDeadLettered` | internal/spool/worker.go:237-248 | a row picked at or past its deadline can only be dead-lettered |
| `Theorems.PolledBeforeDeadline` | internal/spool/worker.go:237-252 | a picked row is polled if and only if the pass began before its deadline |
| `Theorems.RowsFollowTheStateGraph` | internal/spool/sqlite_record_store.go:226-330 | over any stretch of a run: terminal rows constant, submitted never goes back, attempts never fall, creation time constant |
| `Theorems.StepsAreEdges` | internal/spool/sqlite_record_store.go:463-527 | each single step is an edge of the state graph |
| `Theorems.OperationData` | internal/spool/sqlite_record_store.go:226-274 | queued and working rows carry no operation data, submitted rows know their first submission; every row meets the CHECKs and reads back |
| `Theorems.OneWorkingRow` | internal/spool/worker.go:100-136 | at most one row is working, it is the one the worker holds, and none is at the head of the loop |
| `Theorems.InflightBound` | internal/relay/handler.go:110-116 | never more enqueues under way than slots |
| `Theorems.SweptTreeIsTidy` | internal/spool/payload_store.go:121-129 | after any crash, the clean-up leaves staging/ empty and only directories with canonical names in payloads/ |
| `Theorems.ServesOnlyRows` | cmd/relay/main.go:65-147 | when SMTP starts, payloads/ holds directories of rows only and no row is working |
| `Clock.NoWriteIsRefused` | internal/spool/schema.go:10-31 | with a positive clock that never goes back, and a configuration whose retries fit, every row about to be written is in the expected state and meets every CHECK |
| `Clock.RetryWriteAcceptedIff` | internal/spool/worker.go:155-162 | a retry is written if and only if its wait, after wrap-around, does not lead back before 1970 |
| `Clock.LongBaseDelay` | internal/spool/worker.go:334-343 | a configuration with a wait that wraps around, and with a retry that does not fit |
| `Clock.DelaysFitIff` | internal/spool/worker.go:334-343 | the longest wait fits in 64 bits if and only if every wait of the configuration leads forward |
| `Clock.DelaysFitIsEnough` | internal/spool/worker.go:334-343 | then every retry fits too |
| `Clock.EInvAlways` | internal/spool/worker.go:150-162 | in every run no attempt is made before the earliest time the waits allow |
| `Clock.TInvAlways` | internal/spool/worker.go:100-136 | in every run with a clock that never goes back: no row is from the future, every mark waits as the configuration says |
| `Fairness.NoStarvation` | internal/spool/worker.go:100-136 | with n rows and enqueues ahead of it, an overdue row has one of the next n + 1 turns, within n + 2 passes: submitted rows always, queued rows if all waits fit |
| `Fairness.WaitIsBounded` | internal/spool/sqlite_record_store.go:135-144 | while an overdue row waits behind n others there are at most n turns and n + 1 passes |
| `Fairness.AheadShrinks` | internal/spool/sqlite_record_store.go:250-274 | no step puts a row ahead of one that is past its due millisecond: submitted rows never, queued rows if all waits fit |
| `Fairness.RetryGetsAheadIff` | internal/spool/worker.go:150-162 | the write of a retry puts its row ahead of an overdue one if and only if the due time it computed comes first in the order of the queue |
| `Fairness.DeadlineIsEnforced` | internal/spool/worker.go:231-248 | a submitted row past its deadline is picked within that bound, by a pass that finds it expired |
| `Scenarios.PollMayComeLate` | internal/spool/worker.go:237-256 | a picked record can still be polled at any later time, in some run, if and only if the pass began before the deadline |
| `Scenarios.LatePollHappens` | internal/spool/worker.go:237-256 | in every configuration there is a run with a poll after the deadline, by any length of time |
| `Scenarios.NoWriteIsRefusedIff` | internal/spool/schema.go:10-31 | no run with a positive clock that never goes back has a write refused, if and only if all retries of the configuration fit |
| `Scenarios.RefusedRun` | internal/spool/worker.go:150-162 | for every other configuration, a run from a fresh spool to the refused write |
| `Scenarios.NoStarvationIff` | internal/spool/worker.go:100-136 | every overdue queued row gets its turn in time, in every run, if and only if all waits of the configuration fit |
| `Scenarios.StarvationRun` | internal/spool/worker.go:334-343 | for every other configuration, a run in which one row is overtaken by the same other row for a second time |
| `Scenarios.LongBaseDelayMisbehaves` | internal/spool/worker.go:334-343 | a concrete configuration with both runs |
| `Scenarios.AcceptRun` | internal/relay/handler.go:72-127 | from every serving state with a free slot, an empty staging/ and an unused identifier, there is a run that accepts the message |
| `Scenarios.OrphanCanBeLost` | internal/spool/payload_store.go:488-498 | a run in which an orphan ends up whole neither in its old place nor in quarantine |
| `Codecs.FaithfulCodecExists` | internal/spool/payload_store.go:204-233 | manifests can be written as bytes and read back, so the assumption about the codec can be met |
| `Recovery.QueryByState` | internal/spool/sqlite_record_store.go:340-361 | the recovery snapshot lists the rows of a state, oldest first |
| `Recovery.JudgedIsRecovered` | internal/spool/spool_store.go:161-213 | the recovery transaction and the two loops together recover the table |
| `Recovery.JudgedIsTouched` | internal/spool/spool_store.go:161-213 | an interrupted recovery leaves every row as it was, requeued, or recovered |
| `Recovery.RecoveringTwice` | internal/spool/spool_store.go:161-221 | after recovery no row is working, and a second recovery changes nothing |
| `Recovery.NothingLeftToQuarantine` | internal/spool/payload_store.go:367-433 | a second orphan scan moves nothing |
| `Trees.RemoveEntryTree` | internal/spool/payload_fs.go:291-324 | removes exactly that entry, by calls confined to it; without faults it succeeds on trees of files and directories |
| `Trees.RemoveTreeContents` | internal/spool/payload_fs.go:278-289 | empties the directory; without faults it succeeds if and only if the tree is ordinary |
| `Trees.ListTree` | internal/spool/payload_fs.go:374-405 | the listing to be copied is the whole tree; it fails exactly on other file types |
| `Trees.UniqueName` | internal/spool/payload_fs.go:521-535 | ends for every directory, with the first unused of the numbered names |
| `Trees.NumberedInjective` | internal/spool/payload_fs.go:528 | the numbered names are all different |
| `Store.SpoolStore.HandleMessage` | internal/relay/handler.go:72-127 | accepted only with a durable payload and a row; busy exactly when all slots are taken; rejected without an acknowledgement; nothing of any other record is touched; if clean-up calls work no scratch directory is left, and after a rejection not both row and payload |
| `Store.SpoolStore.BeginEnqueue` | internal/spool/spool_store.go:70-79 | a new thread with its time and identifier |
| `Store.SpoolStore.StageMessage` | internal/spool/payload_store.go:169-235 | the staging directory holds the complete payload, or the call failed; no other staging directory changes |
| `Store.SpoolStore.StageOne` | internal/spool/payload_store.go:184-233 | one call of Save changes its staging directory only |
| `Store.SpoolStore.PublishByRename` | internal/spool/payload_store.go:235-252 | the payload under its final name, durable; nothing else in payloads/ changed |
| `Store.SpoolStore.PublishByCopy` | internal/spool/payload_store.go:458-486 | the same by way of a temporary directory |
| `Store.SpoolStore.Save` | internal/spool/payload_store.go:135-253 | on both paths: the complete payload durable and, if clean-up calls work, no staging directory; or only names of this record touched |
| `Store.SpoolStore.AbandonSave` | internal/spool/payload_store.go:176-182 | clean-up after a failed Save stays within its own names and removes both scratch directories if its calls work |
| `Store.SpoolStore.InsertRecord` | internal/spool/sqlite_record_store.go:83-125 | the three outcomes of the insert |
| `Store.SpoolStore.WithdrawPayload` | internal/spool/spool_store.go:94-96 | after a failed insert the payload of this record is removed, if the calls work, and no other |
| `Store.SpoolStore.ClaimReadyMetadata` | internal/spool/sqlite_record_store.go:127-176 | claims the least due queued row: state and time of change, nothing else |
| `Store.SpoolStore.DeadLetterCorruptRecord` | internal/spool/sqlite_record_store.go:406-429 | the whole dead-letter row: error, times, operation fields cleared |
| `Store.SpoolStore.RequeueClaimedRecord` | internal/spool/sqlite_record_store.go:322-330 | the claimed row is queued again: state and time of change, nothing else |
| `Store.SpoolStore.LoadClaimed` | internal/spool/spool_store.go:114-125 | the three results of loading |
| `Store.SpoolStore.ClaimReady` | internal/spool/spool_store.go:102-133 | terminates; returns the least due row that loads, all due rows before it dead-lettered, every other row unchanged |
| `Store.SpoolStore.NextSubmittedReady` | internal/spool/sqlite_record_store.go:179-194 | the least due submitted row, or none exactly when none is due |
| `Store.SpoolStore.FinalizeRecord` | internal/spool/worker.go:318-328 | the marked record is written over the row it was decided for, never refused for its state |
| `Store.SpoolStore.CleanupPayloadTemps` | internal/spool/payload_store.go:435-456 | removes exactly the publish temporaries |
| `Store.SpoolStore.CleanUp` | internal/spool/payload_store.go:84-132 | without faults the clean-up always succeeds, whatever crash came before |
| `Store.SpoolStore.RecoverMetadata` | internal/spool/sqlite_record_store.go:332-404 | one transaction requeues every working row; there is at most one (`Theorems.OneWorkingRow`), so one reading of the clock |
| `Store.SpoolStore.RecoverRecord` | internal/spool/spool_store.go:177-193 | a record is kept, or dead-lettered exactly if its payload is corrupt |
| `Store.SpoolStore.RecoverRecords` | internal/spool/spool_store.go:177-213 | the loop judges every listed row and no other; its two result lists, in order |
| `Store.SpoolStore.CopyAndRemoveOrphan` | internal/spool/payload_store.go:488-498 | the copy is complete before the original goes; after a failure the original is whole if and only if no removal call had succeeded, the copy is gone if its removal works, and no other entry changed |
| `Store.SpoolStore.DropCopy` | internal/spool/payload_store.go:492-495 | the copy is removed, if the calls work, and nothing else |
| `Store.SpoolStore.QuarantineOne` | internal/spool/payload_store.go:411-428 | the directory arrives intact under an unused name, on either path; after any failure but a broken removal it is whole in one of the two places |
| `Store.SpoolStore.QuarantineOrphans` | internal/spool/payload_store.go:367-433 | every directory without a row moved intact, nothing overwritten; directories of rows untouched even if it fails |
| `Store.SpoolStore.Recover` | internal/spool/spool_store.go:161-221 | the exact table, row by row, quarantine and result lists; without faults it always succeeds; if it fails, every row is as it was, requeued or recovered |
| `Store.SpoolStore.JudgeSnapshot` | internal/spool/spool_store.go:177-213 | the two loops: every working and submitted row judged, the three lists in order |
| `Store.SpoolStore.StartUp` | cmd/relay/main.go:65-82 | from any state of the disk and table: temporaries gone, the table recovered, orphans moved, no working row, payloads/ tidy, then serving |
| `Store.SpoolStore.StartUpTwice` | cmd/relay/main.go:65-82 | a second start-up changes no row, no payload and nothing in quarantine |
| `Store.SpoolStore.Quit` | cmd/relay/main.go:149-190 | the process ends; disk and table stay |
| `StoreFacts.RestartedTwice` | internal/spool/spool_store.go:161-221 | what a start-up promises leaves a second one nothing to do |
| `Store.SpoolStore.PowerLoss` | internal/spool/payload_fs.go:514-519 | the disk comes back as any of its possible images |
| `Store.SpoolStore.ReadClock` | internal/spool/spool_store.go:32-34 | any reading; never an earlier one when the clock is calm |
| `Store.SpoolStore.Commit` | internal/spool/sqlite_record_store.go:763-772 | rolled back, committed, or committed with an error; only rows the table takes |
| `Store.SpoolStore.constructor` | internal/spool/spool_store.go:30-54 | a fresh spool root |
| `WorkerLoop.DeliveryWorker.ProcessSubmittedOnce` | internal/spool/worker.go:231-316 | writes the whole row for the least due submitted record: timed out, or as the one poll of it says; at most one poll even if the store fails |
| `WorkerLoop.DeliveryWorker.ProcessQueuedOnce` | internal/spool/worker.go:139-228 | claims the least loadable due row, submits its message once, writes the whole row for the answer; at most one submission even if the store fails |
| `WorkerLoop.DeliveryWorker.Pass` | internal/spool/worker.go:109-127 | one poll if one is due, then one submission if one is due, with their exact effect on table and provider history; idle exactly without either |
| `WorkerLoop.DeliveryWorker.Start` | internal/spool/worker.go:100-136 | the table and history after every round, pass after pass; without store failures it never stops |
| `Store.SpoolStore.Sync` | internal/spool/payload_fs.go:514-519 | makes the entries of the chosen directories durable, or fails and promises nothing |
| `Store.SpoolStore.MakeDurable` | internal/spool/payload_store.go:245-247 | the final sync: the payload is durable, the row may follow |
| `Store.SpoolStore.SyncPublished` | internal/spool/payload_store.go:245-252 | the entries stay, and are durable when both syncs succeed |
| `Store.SpoolStore.CleanStage` | internal/spool/payload_store.go:176-182 | removes the staging directory of this record, if the calls work, and touches no other |
| `Store.SpoolStore.RenameStage` | internal/spool/payload_store.go:235-237 | the staged tree moves to its final name |
| `Store.SpoolStore.CopyToTemp` | internal/spool/payload_store.go:458-475 | only the temporary directory of this record changes; in the end it holds the whole copy |
| `Store.SpoolStore.PlaceTemp` | internal/spool/payload_store.go:476-478 | the temporary directory becomes the payload |
| `Store.SpoolStore.PlaceCopy` | internal/spool/payload_store.go:458-481 | the payload stands under its final name, or only the temporary changed |
| `Store.SpoolStore.FinishEnqueue` | internal/spool/spool_store.go:84-98 | the row and the acknowledgement, or the payload withdrawn |
| `Store.SpoolStore.Acknowledge` | internal/relay/handler.go:119-127 | the slot is free and the message counts as acknowledged |
| `Store.SpoolStore.ReturnError` | internal/relay/handler.go:119-125 | the slot is free, nothing is acknowledged |
| `Store.SpoolStore.RemoveInPayloads` | internal/spool/payload_fs.go:291-324 | the calls of a removal in payloads/, one step each |
| `Store.SpoolStore.RemoveInStaging` | internal/spool/payload_fs.go:278-289 | the calls that empty staging/, one step each |
| `Store.SpoolStore.DeadLetterRecovered` | internal/spool/sqlite_record_store.go:406-429 | the whole dead-letter row; a submitted one keeps its operation id, location, message id and first submission time |
| `Store.SpoolStore.RenameOrphan` | internal/spool/payload_fs.go:537-542 | the directory moves as a whole |
| `Store.SpoolStore.MoveOrphans` | internal/spool/payload_store.go:488-498 | only the quarantine directory changes |
| `Store.SpoolStore.FinishRecovery` | internal/spool/spool_store.go:215-220 | the orphan scan, then the relay serves |
| `WorkerLoop.AcceptOne` | cmd/relay/main.go:65-147 | a fresh spool, started without faults, accepts a message: one due queued row whose payload loads to it |
| `WorkerLoop.DeliverOne` | internal/spool/worker.go:100-228 | and the first pass submits that message and leaves the row where the answer leads |
| `StoreFacts.AckedStays` | internal/relay/handler.go:119-127 | whatever the objects do later, an acknowledgement stays |
| `WorkerLoop.DeliveryWorker.Decide` | internal/spool/worker.go:237-252 | polls, once and with the record's operation id, if and only if the record has not expired |
| `WorkerLoop.DeliveryWorker.CallSubmit` | internal/spool/worker.go:145-147 | exactly one more call, with the loaded message and the record id |
| `WorkerLoop.DeliveryWorker.BeginPass` | internal/spool/worker.go:109 | one reading of the clock serves the whole pass |
| `SmtpSteps.SmtpKeeps` | internal/spool/payload_store.go:135-253 | every call of every enqueue thread keeps the disk invariant, the other threads' files included |
| `ProcessSteps.CrashKeeps` | internal/spool/payload_fs.go:514-519 | so does a crash at any point |
| `ProcessSteps.ProcessKeeps` | internal/spool/payload_store.go:367-456 | so do clean-up, recovery and quarantine |
| `RowInvariant.LoadVerdict` | internal/spool/spool_store.go:114-131 | loading the payload of a row gives its own message or corrupt, and corrupt only after a commit that reported an error |
| `RowInvariant.MarkedEdge` | internal/spool/sqlite_record_store.go:226-320 | every mark is an edge of the state graph and counts exactly one attempt for a working row, none for a submitted one |
| `RowInvariant.MarkedOk` | internal/spool/sqlite_record_store.go:226-320 | every marked row keeps the row invariant |
| `RowInvariant.RecoveredOk` | internal/spool/sqlite_record_store.go:367-393 | a requeued working row keeps its attempt count |
| `RowInvariant.CorruptOk` | internal/spool/sqlite_record_store.go:406-429 | a corrupt record becomes dead-letter with its attempt count |

## Left out

- SQL text, pragmas, schema validation and connection pooling: a transaction is one change of the table with the three outcomes above.
- File descriptors, modes and no-follow flags: entries have a type; symbolic links and devices matter as corrupt payloads and as entries a walk refuses.
- JSON and SHA-256: any codec that reads back what it wrote (`Codecs.FaithfulCodecExists`), and any digest function of 32 bytes; Dafny's `char` is a Unicode scalar value, so text is valid Unicode throughout.
- Sender policy, SMTP sessions, TLS, authentication, address and MIME header parsing: `HandleMessage` starts with the message the policy let through.
- HTTP signing, the AWS SDK, status classification: the provider is any function from calls to answers; for ACS, an accepted submission carries the identifier it was given (`internal/providers/acs/provider.go:333-342`).
- Configuration loading, metrics, logging, readiness endpoints, Helm charts.
- More than one relay process on the same spool root, and changes of payload files from outside.
- Go's `%q` escapes in error texts, and `%s` of a duration: the texts are kept as given.
- Store.SpoolStore.HandleMessage: identifiers and scratch names are drawn unused; a collision (for identifiers exactly `Ids.CollisionIffSameRandomBits`) and the 16 tries for a scratch name are not modelled.
- WorkerLoop.DeliveryWorker.Start: cancellation is a number of rounds; the sleep between idle rounds has no effect on the state.
- Base64Mime.IdentityEncodings and the other lemmas about transfer encodings: lower case is that of the letters A to Z.
- Store.SpoolStore.StartUpTwice: the two start-ups follow each other without a power loss in between, which could bring back other images of payloads that were being withdrawn.
- Store.SpoolStore.HandleMessage and WorkerLoop.DeliveryWorker.Pass run one at a time as objects; their interleavings are runs of the machine.
