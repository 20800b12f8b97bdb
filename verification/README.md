# Sprøyt: a verified model

A Dafny model of the parts of the Sprøyt chat service whose correctness depends on interleavings,
leases, retries and bounded stores, with proofs about whole runs of them:

- **Native sessions** (`src/native_sessions.rs`): login, redemption, renewal, cancellation and
  revocation of native app sessions, with every call to the identity provider split in two.
- **Media store** (`src/media_store.rs`): chunked uploads, sealing, completion and budgets.
- **Notifications** (`src/notification.rs`): the push outbox, filled per message and in bulk, and the rollout that
  the bulk fill is for.
- **Image jobs** (`src/imagegen.rs`, review in `src/web/imagegen.rs`): compare-and-swap saves and
  at-most-once submission to the image server.
- **Chat agent jobs** (`src/chatbot.rs`): a lease and retry scheduler, and the token stripper.
- **Share inbox** (`assets/share-inbox.js`): a bounded browser store with admission locks and a logout fence.
- **Chat actor** (`src/chat.rs`): announcement cache and local presence.

Each part has the same shape. A `...Spec`, `...Jobs` or `...Types` module gives the rows and each
transaction as a function from tables to tables and a reply. A class changes its tables in place, with
early returns and loops, and every method is proved equal to its transaction. A `...Runs` module
lets clients, workers, crashes and clock readings interleave in any order, and proves invariants and
theorems over all runs and all pairs of moments in them. The `...Answers`, `...Uses`, `...Reasons`,
`...Pictures` and `...Outcomes` modules say what each operation promises a caller, on the columns of the rows
and with the numbers themselves: when it is answered and how, exactly then, and what it leaves behind. These are
proved of the transactions without using their definitions in the statements. One abstract store stands for
PostgreSQL and SQLite.

Modelling decisions:

- Hashes and sealed boxes are symbolic: a digest remembers what was hashed, and a box opens only under
  the purpose it was sealed for. Random values are parameters, new with respect to all drawn before.
- Clock readings are parameters, one per transaction; an image worker reads it once more for each job. Media and
  native runs have a clock that never goes back; the image, agent and inbox runs allow any reading.
- Answers of the identity provider, the image server and the language model are parameters of the events.
- Worker leases of the image queue restrict nothing in `ImageRuns`: the theorems hold for any number of
  workers at once, so also when a lease runs out.

Places where a promise holds only under a condition, with the exact condition and a run that fails it:

- The user of an issued family kept one epoch since the login exactly when no change of it stamped with clock
  zero fell between the storing of the login and its identification; any other change is seen
  (`NativeLogins.EpochHeld`, `NativeLogins.MissedBumpIsStampedZero`; the run is `NativeZeroBump.ZeroBumpIsMissed`).
- A capture answers with the id of a share that the same capture drops exactly when the share is held by a
  finished row that fifty newer ones push out (`InboxRuns.CaptureAnswerIsStored`; the run is
  `InboxSurplus.AnswerCanBeDropped`).
- The start-up backfill gives a message stored without an enqueue between two of its statements exactly what
  the remaining statements owe it, which may be a lower kind (`NotificationRuns.LateMessageIsBridged`; the run
  is `NotificationRuns.LateMentionIsDemoted`).

## Model

| member | source | states |
|---|---|---|
| NativeStore.NativeSessions.constructor | src/native_sessions.rs:306-335 | the service starts with empty tables |
| NativeStore.NativeSessions.FenceFamily | src/native_sessions.rs:411-422 | succeeds exactly for a live family on its user's current epoch whose lease, if any, still runs; a run-out lease sends the family to reauthentication and empties its box |
| NativeStore.NativeSessions.CurrentEpoch | src/native_sessions.rs:399-410 | the user's epoch and its time of change, zero when never bumped |
| NativeStore.NativeSessions.FamilySecretOf | src/native_sessions.rs:423-444 | a family's box is handed out exactly when its grant agrees with every column of the row |
| NativeStore.NativeSessions.AttemptByState | src/native_sessions.rs:548-554 | the login with that state hash, if there is one |
| NativeStore.NativeSessions.FamilyByRefresh | src/native_sessions.rs:891-901 | the family with that refresh hash, if there is one |
| NativeStore.NativeSessions.FamilyByRevoke | src/native_sessions.rs:768-784 | the family with that revocation hash, if there is one |
| NativeStore.NativeSessions.Login | src/native_sessions.rs:445-501 | a valid request stores one new attempt with its start epoch, within the table bound; everything else leaves the tables alone |
| NativeStore.NativeSessions.Browser | src/native_sessions.rs:502-524 | only a new, unexpired attempt moves to authorizing and gets its cookie |
| NativeStore.NativeSessions.BeginCallback | src/native_sessions.rs:536-578 | only an authorizing attempt with the matching state and cookie claims the provider code |
| NativeStore.NativeSessions.FinishCallback | src/native_sessions.rs:579-627 | a provider answer identifies the user of a still verifying attempt whose epoch is untouched; a refused code fails the attempt, and any other mismatch leaves it claimed for good |
| NativeStore.NativeSessions.ConfirmLogin | src/native_sessions.rs:628-661 | confirmation with the matching nonce and cookie hands out one handoff code with its own deadline |
| NativeStore.NativeSessions.Exchange | src/native_sessions.rs:662-738 | a handoff code is redeemed once with the matching verifier, and replayed only for the same redemption id |
| NativeStore.NativeSessions.ReplayHandoff | src/native_sessions.rs:680-693 | a replay returns the sealed first result of a live, unchanged family or nothing |
| NativeStore.NativeSessions.IssueFamily | src/native_sessions.rs:694-738 | redemption inserts one family whose sealed grant agrees with its row, and stores the sealed result with the attempt |
| NativeStore.NativeSessions.CancelLogin | src/native_sessions.rs:739-767 | an authorised cancellation ends the attempt and revokes the family it issued, in one transaction |
| NativeStore.NativeSessions.RevokeSession | src/native_sessions.rs:768-784 | a revocation token ends exactly the family that carries its hash |
| NativeStore.NativeSessions.Referenced | src/native_sessions.rs:785-800 | a session reference is honoured only after the fence, unexpired, and with matching access hash, generation and epoch |
| NativeStore.NativeSessions.BeginRecheck | src/native_sessions.rs:837-842 | a recheck starts only from a reference that passes |
| NativeStore.NativeSessions.FinishRecheck | src/native_sessions.rs:843-852 | the answer is admitted only if the provider named the user of the reference's family and the reference passes the fence again afterwards |
| NativeStore.NativeSessions.BeginRefresh | src/native_sessions.rs:863-915 | a refresh replays its receipt, or puts an active family of the right generation on lease, or is refused |
| NativeStore.NativeSessions.ReplayReceipt | src/native_sessions.rs:880-890 | a receipt is replayed only in its lifetime and for a family still past the fence |
| NativeStore.NativeSessions.FinishRefresh | src/native_sessions.rs:916-962 | a renewal is stored only under its own unexpired lease; a refusal or another user asks for reauthentication, and an unusable answer leaves the lease to run out |
| NativeStore.NativeSessions.KeepRenewal | src/native_sessions.rs:936-961 | the rotation writes new hashes, generation plus one and the receipt together |
| NativeStore.NativeSessions.RequireReauthentication | src/native_sessions.rs:963-967 | only the family still refreshing on that lease is sent to reauthentication |
| NativeSteps.EveryEventSteps | src/native_sessions.rs:445-967 | every transaction changes each table row only in the ways the per-row step relation allows, and its reply follows from the row it read |
| NativeRuns.ExecutionIsRun | src/native_sessions.rs:445-967 | any interleaving of the transactions themselves is a run of the step relation, so all run theorems apply to it |
| NativeInvariant.InvKept | src/native_sessions.rs:423-444 | every step keeps rows, boxes, receipts, attempts and in-flight calls in agreement |
| NativeRuns.RunInv | src/native_sessions.rs:423-444 | the invariant holds in every state of every run |
| NativeRuns.DeadForever | src/native_sessions.rs:411-422 | a family that has ended or lost its epoch stays so, and no later reply of any kind hands out or admits its session |
| NativeRuns.RevocationIsFinal | src/native_sessions.rs:768-784 | after an accepted revocation the family is revoked in every later state and no in-flight recheck, refresh or replay uses it |
| NativeRuns.RevokedForever | src/native_sessions.rs:739-784 | revoked is absorbing over every run |
| NativeRuns.CancellationIsFinal | src/native_sessions.rs:739-767 | after an accepted cancellation the login never takes another step and the family it had issued stays revoked and unused |
| NativeRuns.OneRenewalPerGeneration | src/native_sessions.rs:902-915 | at most one upstream renewal is ever started for a family and generation |
| NativeRuns.FailedRenewalIsLost | src/native_sessions.rs:916-967 | after a crash, a refused or unusable answer or a late reply the family on that lease is lost |
| NativeRuns.LostForever | src/native_sessions.rs:411-422 | a lost family never becomes active again, whatever replies still arrive |
| NativeRuns.WaitingInRun | src/native_sessions.rs:902-967 | in every reachable state the family of a waiting renewal is on that renewal's lease or has ended, and is never active |
| NativeRuns.FailedRenewalIsFinal | src/native_sessions.rs:916-967 | once a renewal has crashed, been refused or come too late, its family is active in no later state of the run |
| NativeRuns.RefreshTokenSpentOnce | src/native_sessions.rs:863-961 | a refresh token buys one successor: later answers carry the same operation and grant, come from the receipt and change nothing; another operation on it is refused |
| NativeRuns.GenerationRisesByOne | src/native_sessions.rs:936-958 | the successor's generation is exactly one higher and fits in 64 bits |
| NativeRuns.LiveFamilyOpens | src/native_sessions.rs:423-444 | in every reachable state a live family's box opens to a grant agreeing with its row, so the defensive comparison never refuses one |
| NativeRuns.OneFamilyPerAttempt | src/native_sessions.rs:662-738 | an attempt issues at most one family, and every answered exchange of it carries the first redemption id and returns the first result |
| NativeRuns.OneCodeUsePerAttempt | src/native_sessions.rs:555-578 | the provider code of a login is put to use at most once |
| NativeLogins.IssuedInOrder | src/native_sessions.rs:502-738 | every issued family went through login, browser, callback, identification, confirmation and exchange in this order, with matching cookie, state, nonce, code and verifier, strictly within 600 seconds |
| NativeLogins.EpochHeld | src/native_sessions.rs:611-617 | the user of an issued family had one epoch from login to redemption, the family's, if and only if no bump of that user stamped zero fell between storing and identification; with an expected user none ever does |
| NativeLogins.MissedBumpIsStampedZero | src/native_sessions.rs:611-617 | the only bump that the callback of an older login misses is one stamped zero, for a login without an expected user |
| NativeLogins.BumpEndsOlderLogins | src/native_sessions.rs:611-617 | after an epoch change no login stored before it issues a family for that user, unless the change is stamped zero and the login expects no user |
| NativeZeroBump.ZeroBumpIsMissed | src/native_sessions.rs:611-617 | an execution of the transactions in which the remaining case happens: bumped at clock zero, the login still issues a family |
| NativeLogins.BumpEndsOlderFamilies | src/native_sessions.rs:411-422 | after an epoch change every family issued before it is dead and serves nothing |
| NativeLogins.QuietSince | src/native_sessions.rs:399-410 | a user whose last change is older than a moment has kept the epoch since that moment |
| NativeAnswers.LoginAnswers | src/native_sessions.rs:445-501 | a login is started if and only if its request is well formed and there is room; the one new row then carries the request's challenge, port, expected user and the user's epoch, and nothing else changes |
| NativeAnswers.BrowserAnswers | src/native_sessions.rs:502-524 | the browser is sent on if and only if the attempt is new and unexpired; its row then has the cookie's hash, and nothing else changes |
| NativeAnswers.CallbackAnswers | src/native_sessions.rs:536-578 | the provider is called if and only if an unexpired authorizing attempt has that state and that cookie |
| NativeAnswers.NamedAnswers | src/native_sessions.rs:579-627 | which provider answer names the user on which attempt, and what every other one leaves behind |
| NativeAnswers.ConfirmAnswers | src/native_sessions.rs:628-661 | a code is handed out if and only if nonce, cookie, state, deadline and epoch agree; the row then has its hash |
| NativeUses.ExchangeAnswers | src/native_sessions.rs:662-738 | tokens are given if and only if code, verifier, deadline and epoch agree and the code is unused, or this redemption used it; a first exchange adds one family of the attempt's user with the hashes of exactly these tokens |
| NativeUses.CancelAnswers | src/native_sessions.rs:739-767 | who may cancel, and that exactly the attempt and its own family end |
| NativeUses.RevokeAnswers | src/native_sessions.rs:768-784 | exactly the family with the token's hash is revoked |
| NativeUses.FinishRecheckAnswers | src/native_sessions.rs:843-852 | a principal is admitted if and only if the provider named the family's own user and the reference still passes |
| NativeUses.BeginRefreshAnswers | src/native_sessions.rs:863-915 | a refresh is replayed, started on a lease of its own, or refused, each under exactly its condition on the row |
| NativeUses.FinishRefreshAnswers | src/native_sessions.rs:916-967 | a renewal for the family's user on its lease rotates the row; a refusal or another user leaves it in reauthentication with an empty box; anything else changes nothing but a run-out lease |
| NativeUses.EveryAnswer | src/native_sessions.rs:445-967 | over every execution of the transactions each reply and each change is the one described for its event, given exactly under the stated condition |
| NativeUses.RefusedRenewalEndsSession | src/native_sessions.rs:916-967 | a refused renewal, or one for another user, of the family still on that lease leaves it in reauthentication with an empty box and all other rows untouched, and no later reply uses the family |
| NativeUses.RecheckAdmitsItsUser | src/native_sessions.rs:837-852 | a recheck admits u if and only if the provider named u, u is the user of the family's row, the row is live on the user's current epoch without a run-out lease, and hash, generation, epoch and expiry match |
| NativeUses.RunOutLeaseLapses | src/native_sessions.rs:411-422 | any use of a family with a run-out lease leaves it in reauthentication with an empty box |
| NativeUses.HandoffGoesToLoginPort | src/native_sessions.rs:445-661 | a code is handed to the port that the login itself named, over the whole flow |
| NativeUses.OneCodePerLogin | src/native_sessions.rs:628-661 | a login is handed at most one code |
| MediaStore.MediaStore.constructor | src/media_store.rs:326-365 | the store starts empty and within any limits |
| MediaStore.MediaStore.Visible | src/media_store.rs:153-211 | an upload is read only by its owner, in an enabled channel they are still a member of, before it expires unless it is complete |
| MediaStore.MediaStore.UploadByRequest | src/media_store.rs:443-447 | the owner's upload for that request id, if there is one |
| MediaStore.MediaStore.Reserved | src/media_store.rs:475-478 | the loop adds up exactly the charges of objects and unfinished uploads, overall or for one owner |
| MediaStore.MediaStore.Budgeted | src/media_store.rs:457-484 | a new upload fits exactly when both sums and both counts stay within their limits |
| MediaStore.MediaStore.Create | src/media_store.rs:377-497 | a repeated request returns its upload, or is a conflict when it asks for something else; a new one is stored as asked for, within budget |
| MediaStore.MediaStore.PutChunk | src/media_store.rs:509-553 | only the next chunk with its exact length and hash is stored; earlier chunks are compared, later ones refused |
| MediaStore.MediaStore.SealUpload | src/media_store.rs:554-576 | an upload is sealed once all bytes are received |
| MediaStore.MediaStore.ReadSealedChunk | src/media_store.rs:577-589 | a chunk is read back only by the owner and member while its upload is sealed and unexpired, or complete |
| MediaStore.MediaStore.CompleteUpload | src/media_store.rs:590-677 | the loop over chunks reads the whole content in order before publishing |
| MediaStore.MediaStore.Publish | src/media_store.rs:628-677 | publication inserts the object and closes the upload together, or returns the object already published |
| MediaStore.MediaStore.AbortUpload | src/media_store.rs:679-694 | an unfinished upload is removed with its chunks |
| MediaStore.MediaStore.CleanupExpired | src/media_store.rs:696-708 | exactly the expired unfinished uploads are removed with their chunks |
| MediaInvariant.PutKeeps | src/media_store.rs:509-553 | a put keeps every upload's chunks exact and every object's content |
| MediaInvariant.FinishKeeps | src/media_store.rs:628-677 | publication keeps every upload's chunks exact and gives the object their hash and size |
| MediaRuns.InvStep | src/media_store.rs:377-708 | every event keeps chunks, objects, budgets and running completions consistent, and only extends what was accepted |
| MediaRuns.PublishedContentIsAccepted | src/media_store.rs:595-677 | in every reachable state an object has the hash and size of the concatenated accepted chunks of its one upload, although they were read one by one between other clients' steps |
| MediaRuns.ReservationsWithinLimits | src/media_store.rs:457-491 | over every run the total and per-owner charges and the numbers of unfinished uploads stay within their limits |
| MediaRuns.ChunksAreExact | src/media_store.rs:509-575 | every reachable upload holds exactly its first chunks, each of its exact length, and counts their bytes |
| MediaRuns.ChunkFixed | src/media_store.rs:527-546 | an accepted chunk keeps its bytes as long as its upload exists |
| MediaRuns.UploadReturnsNever | src/media_store.rs:679-708 | an aborted or expired upload never comes back |
| MediaRuns.CompletionsAgree | src/media_store.rs:590-677 | all completions of one upload, however they interleave, return the same object |
| MediaRuns.SecondFinisherGetsFirstObject | src/media_store.rs:641-648 | when two clients have read every chunk and one publishes, the other can still finish, is answered with the first object and stores nothing |
| MediaRuns.CompletionNeverRefusedForSize | src/media_store.rs:622-653 | the length check cannot fail and a completion is never refused for quota |
| MediaBudget.CreateWithinBudget | src/media_store.rs:457-491 | an admitted upload keeps all sums and counts within their limits |
| MediaBudget.PublicationMovesCharge | src/media_store.rs:649-662 | publication moves a charge from upload to object without changing the total or any owner's sum |
| MediaBudget.PublicationFits | migrations/sqlite/0065_media_budget_policy.sql:1-32 | the insert trigger never refuses the object of a completion, because its upload's charge is credited |
| MediaBudget.TriggerIsExact | migrations/sqlite/0065_media_budget_policy.sql:16-32 | whoever inserts an object, the trigger admits it if and only if it is no larger than a file may be and the tables with it, its sealed upload published, are within the total and its owner's limit |
| MediaBudget.RepeatedPut | src/media_store.rs:527-546 | a repeated put changes nothing and is accepted if and only if the bytes agree |
| MediaBudget.SealNeedsEveryChunk | src/media_store.rs:554-576 | sealing succeeds if and only if every chunk of the file is present |
| MediaAnswers.EveryAnswer | src/media_store.rs:377-708 | over every run each answer and each change is the one described for its event: when a create, chunk, seal, completion or abort is accepted, exactly, and which columns it writes |
| MediaAnswers.CreateAnswers | src/media_store.rs:377-497 | a new request is stored if and only if it is admissible and there is room, as an open, empty upload with its owner, channel, request, filename, type and size and one day to live; a known one gets its visible upload if and only if it asks for the same |
| MediaAnswers.PutAnswers | src/media_store.rs:509-553 | a chunk is accepted if and only if it is the next one or repeats a stored one, whole and with its hash, on an open visible upload; the next one is stored under its index |
| MediaAnswers.CompleteBeginAnswers | src/media_store.rs:590-606 | a visible upload with every chunk is sealed and read from its first chunk, or answered with its object; any other is refused |
| MediaAnswers.CompleteEndAnswers | src/media_store.rs:628-677 | a full reading of an acceptable type publishes the upload of one who still sees it, as an object with its owner, channel, filename and size, the detected type and the hash of what was read |
| MediaAnswers.AcceptedIsStored | src/media_store.rs:447-497 | the row answered to a create is stored for its request and carries the owner, channel, request id, filename, type and size asked for |
| MediaAnswers.RepeatedCreateIsIdempotent | src/media_store.rs:447-456 | over every run, repeating an accepted create while its upload exists and is visible is answered with the stored row and changes nothing; for another channel, filename, type or size it is a conflict |
| MediaAnswers.CreationStays | src/media_store.rs:487-489 | an upload keeps what its create asked for, and its deadline, for as long as it exists |
| NotificationStore.Outboxes.Insert | src/notification.rs:446-517 | one insert statement adds its rows where the pair is absent and leaves present rows alone |
| NotificationStore.Outboxes.EnqueueMessage | src/notification.rs:587-682 | the per-message statements run in priority order, so the rows are those of the first reason |
| NotificationStore.Outboxes.BackfillStatement | src/notification.rs:466-513 | one separately committed statement adds its row to exactly the absent pairs it selects |
| NotificationStore.Outboxes.BackfillCurrentCursors | src/notification.rs:446-517 | the six statements with nothing in between have the effect of the backfill in priority order |
| NotificationSpec.SameSelection | src/notification.rs:446-682 | for a stored message the bulk and the per-message form of each statement select the same rows |
| NotificationSpec.BackfillFills | src/notification.rs:446-517 | the backfill adds exactly the owed pairs, each with the kind owed to it |
| NotificationSpec.EnqueueFills | src/notification.rs:587-682 | the enqueue adds exactly the owed pairs of its message |
| NotificationSpec.BackfillIsEnqueueInAnyOrder | src/notification.rs:446-682 | the backfill equals enqueuing all messages in any order, with any repetitions, from any outbox |
| NotificationSpec.BackfillIsEnqueueAsStored | src/notification.rs:587-682 | the same holds when each message is enqueued while only the messages before it are stored, as long as threads are stored in order |
| NotificationSpec.BackfillGivesHighestPriority | src/notification.rs:446-517 | from an empty outbox a pair is present if and only if some kind applies, with the highest one |
| NotificationSpec.BackfillBridges | src/notification.rs:446-682 | a backfill before, after or between enqueues, and a repetition of either, add nothing beyond one backfill |
| NotificationRuns.RolloutGivesWhatIsOwed | src/notification.rs:446-517 | however storing, enqueuing and the six statements interleave, messages enqueued by their transaction or stored before the first statement end with exactly the owed rows, and later ones with what the remaining statements owe them |
| NotificationRuns.LateMessageIsBridged | src/notification.rs:446-517 | a message left for the backfill between two statements gets its owed row if and only if the missed statements give the pair nothing or the same |
| NotificationRuns.LateMentionIsDemoted | src/notification.rs:446-517 | a run in which a mention stored after the first statement ends as a channel message |
| NotificationRuns.RunInv | src/notification.rs:446-682 | at every moment of a rollout each pair holds exactly what its storing and the statements since then owe it |
| NotificationReasons.DirectGoesToOtherMember | src/notification.rs:453-453 | in a direct conversation of two a due subscription is selected, in bulk and per message, if and only if its user is the member who is not the sender |
| NotificationReasons.OwedForFirstReason | src/notification.rs:446-517 | a pair is owed a row for its user with the first of: mentioned, in the direct conversation or group, wrote in the thread before, follows the channel; never the sender, and only with the preferences and past the cursors |
| NotificationReasons.RowsHaveReasons | src/notification.rs:446-682 | at every moment of every rollout each row is for its subscription's user, its kind is a reason for that user, and the user is not the message's sender |
| NotificationReasons.RolloutNotifies | src/notification.rs:446-682 | a message enqueued by its transaction or stored before the first statement ends with exactly one row, of the first reason, for each subscription it notifies |
| NotificationReasons.OtherMemberIsNotified | src/notification.rs:597-643 | every due subscription of the other member of a direct conversation ends with a row, as a direct message unless its mention came first |
| ImageStore.ImageQueue.constructor | migrations/sqlite/0035_image_generation.sql:1-16 | the queue starts empty with a free worker lease |
| ImageStore.ImageQueue.Save | src/imagegen.rs:411-439 | the row is replaced only while it has the copy's revision |
| ImageStore.ImageQueue.Enqueue | src/imagegen.rs:315-409 | a request id names one job for good; a new job holds the request untouched and takes the lowest free of eight slots, if its owner has nothing to review, and otherwise, or with too many reference images, nothing is stored |
| ImageStore.ImageQueue.WorkJob | src/imagegen.rs:493-636 | one job of the worker's pass: expiry, reopening, interrupted submission, expansion, claim, submission and delivery, each saved by compare-and-swap |
| ImageStore.ImageQueue.Select | src/imagegen.rs:492-492 | a selection holds wanted rows in order, each once, and leaves a wanted row out only when it is full of rows that come before |
| ImageStore.ImageQueue.WorkOne | src/imagegen.rs:489-636 | the pass works on the copies of the eight longest untouched jobs, stops at the first job that ends it, and lists the jobs submitted |
| ImageStore.ImageQueue.Tick | src/imagegen.rs:455-487 | a tick works only after the previous lease ran out at the moment of comparison, and gives its own lease back |
| ImageStore.ImageQueue.List | src/imagegen.rs:226-246 | of the owner's twenty latest open jobs exactly the posted ones are dismissed, each one revision on and without picture, prompt and expansion; every other row is untouched and exactly the others are shown |
| ImageStore.ImageQueue.Dismiss | src/imagegen.rs:233-243 | the loop shows exactly the copies that are not posted, and dismisses the others one after the other |
| ImageJobs.DismissesExactlyPosted | src/imagegen.rs:231-244 | over any copies, also outdated ones, a row is replaced exactly when a posted copy of it still has its revision |
| ImageRuns.RowFate | src/imagegen.rs:411-439 | one event leaves a row or replaces it by the next revision, never back to the queue, to an outstanding state or to review |
| ImageRuns.InvKept | src/imagegen.rs:411-636 | every event keeps copies, rows, slots and pending submissions consistent |
| ImageRuns.SubmittedAtMostOnce | src/imagegen.rs:558-609 | over any number of workers, run-out leases and crashes the image server is called at most once for a job |
| ImageRuns.SubmitFollowsClaim | src/imagegen.rs:558-600 | every call follows a compare-and-swap by the same process that found the job queued and left it submitting |
| ImageRuns.RowsMoveForward | src/imagegen.rs:411-439 | over every run revisions only rise, equal revisions mean equal rows, and no job returns to queued |
| ImageRuns.StaleNeverOverwrites | src/imagegen.rs:411-439 | a save that replaces a row found it untouched since it was read, whatever ran in between |
| ImageRuns.QueueIsBounded | migrations/sqlite/0035_image_generation.sql:11-14 | in every reachable state at most eight requests are outstanding and no owner has two unreviewed jobs |
| ImageRuns.WorkerRuns | src/imagegen.rs:489-636 | from any state the worker's whole pass over its selection is reached by events, with the same rows and the same calls, so every run theorem covers it |
| ImageRuns.PassesRun | src/imagegen.rs:493-636 | the pass over held copies has the effect and the calls of its events taken in a row |
| ImagePictures.PassMakes | src/imagegen.rs:493-636 | what a pass makes of the latest copy, by its age, state and the outside world: a picture makes a running job ready with that picture one revision on and nothing else changed; a pass over an outdated copy changes and submits nothing |
| ImagePictures.SaveReplaces | src/web/imagegen.rs:361-443 | a row changes if and only if a copy of its revision is saved, and then into what the decision or the worker's step calls for, from the states and ages allowed for it |
| ImagePictures.PictureIsDelivered | src/imagegen.rs:612-615 | over every run a job that is ready, being accepted or accepted has a picture, the one of the delivery that made the running job ready, kept ever since |
| ImagePictures.PictureStays | src/imagegen.rs:612-636 | a picture is kept until the job is declined, dismissed or expired, and is then gone for good with prompt and expansion |
| ImagePictures.RunningIsConfirmed | src/imagegen.rs:596-609 | a running job has the id with which the image server confirmed its submission |
| ImagePictures.RequestStays | src/imagegen.rs:349-368 | owner, channel, slot, mode and references never change, and the prompt only by closing the job |
| ImagePictures.InsertStores | migrations/sqlite/0035_image_generation.sql:11-14 | over every run a new job is stored if and only if its id is new, its owner has nothing to review and its slot is free |
| ImagePictures.WorkIsSelected | src/imagegen.rs:492-492 | the worker takes up to eight jobs that are under way or older than seven days, longest untouched first, and leaves one out only behind eight others |
| ImagePictures.ListingIsSelected | src/imagegen.rs:226-231 | an owner is shown up to twenty of their own open jobs, latest first, and misses one only behind twenty others |
| InternalTokens.StripInternalTokens | src/chatbot.rs:2017-2032 | the loop ends, and its output is the stripped and trimmed body |
| InternalTokens.OutputIsClean | src/chatbot.rs:2017-2032 | no opening pair in the output has a closing pair behind it |
| InternalTokens.StrippingIsIdempotent | src/chatbot.rs:2017-2032 | stripping an output changes nothing |
| InternalTokens.RemovesExactlyTokens | src/chatbot.rs:2017-2032 | a body cut into kept pieces and tokens loses exactly the tokens and keeps all pieces and the tail, also with an unterminated opening |
| InternalTokens.EveryBodyIsCut | src/chatbot.rs:2017-2032 | every body can be cut that way, so the previous statement covers all inputs |
| AgentStore.JobTable.Enqueue | src/chatbot.rs:2440-2443 | afterwards the agent has exactly one job for the message: the one it had, untouched, or a new one due at once; all other jobs are untouched |
| AgentStore.JobTable.Claim | src/chatbot.rs:1478-1514 | exhausted leases are failed, then the first due job by availability and id is leased |
| AgentStore.JobTable.FindDue | src/chatbot.rs:1494-1496 | the search returns the least due job in the claim's order, or none if none is due |
| AgentStore.JobTable.Sweep | src/chatbot.rs:1480-1486 | exactly the leases that ran out on the last attempt are failed |
| AgentStore.JobTable.Finish | src/chatbot.rs:1987-2000 | only the holder of the current token finishes a leased job; a located job loses its cached reply |
| AgentStore.JobTable.Retry | src/chatbot.rs:2002-2014 | a busy model gives the attempt back; otherwise the job waits, or fails on its third attempt |
| AgentStore.JobTable.Settle | src/chatbot.rs:1654-1686 | the error code decides between skipping, failing and retrying |
| AgentStore.JobTable.Purge | src/chatbot/location.rs:563-589 | the cleanup clears the cached reply of exactly the located jobs without a published message whose share is gone |
| AgentRuns.RowFate | src/chatbot.rs:1478-2014 | only a row's sweep, its claim, the holder of its token and the location cleanup change it, each in one way, and its agent and message never change |
| AgentRuns.InvKept | src/chatbot.rs:1478-2014 | every event keeps attempts, tokens and counts consistent |
| AgentRuns.AttemptsCountClaims | src/chatbot.rs:1478-1514 | over every run attempts are claims less busy settlements, at most three, and below three while pending |
| AgentRuns.OneJobPerMessage | src/chatbot.rs:2440-2443 | over a whole run an agent gets at most one job for a source message, also after that job is finished |
| AgentRuns.FinishedForever | src/chatbot.rs:1987-2000 | a completed, skipped or failed job never changes again, except that the location cleanup may clear its cached reply |
| AgentRuns.OldTokenIsDead | src/chatbot.rs:1987-2014 | a token that has left its job never returns, and nothing settled or stored with it later has an effect |
| AgentRuns.SettlingEndsHold | src/chatbot.rs:1987-2014 | after a settlement its worker no longer holds the job |
| AgentRuns.EveryJobIsServed | src/chatbot.rs:1478-1514 | as many claims as there are due jobs reach every unfinished job past its deadline: it is leased anew, or failed if its last attempt ran out |
| AgentRuns.DrainIsRun | src/chatbot.rs:1478-1514 | every run can be continued by claims with any unused tokens, with the effect of claiming in a row |
| AgentRuns.NoJobIsStuck | src/chatbot.rs:1478-1514 | in every reachable state every unfinished job has such a deadline and is served after it |
| AgentRuns.JobGetsServed | src/chatbot.rs:1478-1514 | from every reachable state the run goes on so that an overdue unfinished job is leased anew or failed |
| AgentOutcomes.EveryOutcome | src/chatbot.rs:1478-2014 | over every run each job is after each event exactly what the event makes of it, column by column: leased for ninety seconds, completed, skipped, failed, or waiting again |
| AgentOutcomes.SettleOutcome | src/chatbot.rs:1654-1684 | which codes end a held job as skipped and which as failed; any other lets it wait five seconds after the first attempt and twenty after the second, and fails it after the third; a busy model costs no attempt |
| InboxStore.ShareInbox.constructor | assets/share-inbox.js:7-8 | the inbox starts empty at generation zero |
| InboxStore.ShareInbox.Capture | assets/share-inbox.js:61-94 | old and surplus rows are dropped, a repeated share answers with its row, and a new one is stored only within the limits, else everything is rolled back |
| InboxStore.ShareInbox.SortDone | assets/share-inbox.js:84-84 | the finished rows, newest first, each once |
| InboxStore.ShareInbox.FindHolder | assets/share-inbox.js:86-87 | the first row in key order that already holds the share, if any |
| InboxStore.ShareInbox.PendingBytes | assets/share-inbox.js:88-89 | the total file size of the unfinished rows |
| InboxStore.DropsSurplus | assets/share-inbox.js:84-85 | cutting the sorted list after fifty removes exactly the rows with fifty newer ones |
| InboxStore.ShareInbox.Claim | assets/share-inbox.js:99-104 | only an unfinished row without another owner is claimed |
| InboxStore.ShareInbox.Edit | assets/share-inbox.js:105-110 | only an unadmitted row of the owner takes a new text of bounded length |
| InboxStore.ShareInbox.Admit | assets/share-inbox.js:111-115 | an admission is recorded once and repeated only unchanged |
| InboxStore.ShareInbox.Owned | assets/share-inbox.js:116-119 | the file is dropped and a rejection withdrawn |
| InboxStore.ShareInbox.Reject | assets/share-inbox.js:120-123 | the row is marked as rejected |
| InboxStore.ShareInbox.Finish | assets/share-inbox.js:124-130 | the row keeps only its tombstone |
| InboxStore.ShareInbox.Discard | assets/share-inbox.js:131-135 | an admitted row is removed only after a rejection |
| InboxStore.ShareInbox.Logout | assets/share-inbox.js:136-143 | the local counter moves at once, the store is cleared when its transaction commits |
| InboxSpec.TrimmedIsBounded | assets/share-inbox.js:83-85 | at most fifty finished rows survive a capture |
| InboxRuns.RowFate | assets/share-inbox.js:99-135 | a call on one receipt adds nothing, removes only a receipt its owner may discard, and changes one receipt as it may |
| InboxRuns.CaptureFate | assets/share-inbox.js:78-93 | a capture leaves the store, cleans it, or cleans it and adds one receipt within the limits |
| InboxRuns.InboxIsBounded | assets/share-inbox.js:78-93 | over every run at most 5 unfinished rows, 55 rows and 70 MiB of files |
| InboxRuns.OwnerIsFixed | assets/share-inbox.js:99-104 | an owner once set is the receipt's owner for as long as it exists |
| InboxRuns.AdmittedIsKept | assets/share-inbox.js:105-135 | an admitted receipt keeps its text and admission until a finish of it |
| InboxRuns.AdmittedLeavesOnly | assets/share-inbox.js:78-85 | an admitted receipt disappears only by logout, after seven days, or by a discard after rejection |
| InboxRuns.GoneForever | assets/share-inbox.js:91-92 | a removed receipt never comes back |
| InboxRuns.LogoutFences | assets/share-inbox.js:41-43 | after a committed logout no call of any page or worker with an older generation takes effect |
| InboxRuns.LogoutFencesAtOnce | assets/share-inbox.js:136-139 | within one page or worker the fence falls when logout is called, even if its transaction never commits |
| InboxRuns.CaptureAnswerIsStored | assets/share-inbox.js:83-87 | the id answered is missing from the store if and only if the share is held by a finished row that fifty newer ones push out |
| InboxSurplus.AnswerCanBeDropped | assets/share-inbox.js:83-87 | a run of fifty-one finished shares after which sharing the first one again is answered with a receipt that is gone |
| InboxAnswers.EveryAnswer | assets/share-inbox.js:61-143 | over every run each call is answered, and changes the store, as its rows and the request demand, exactly; a logout fences its page when it begins and empties the store when it commits |
| InboxAnswers.CaptureAnswers | assets/share-inbox.js:78-93 | a share some young row has is answered with the first such row; another is stored if and only if fewer than five wait and seventy mebibytes suffice; young rows with fewer than fifty later ones stay |
| InboxAnswers.CapturedIsStored | assets/share-inbox.js:91-92 | a capture answered with its new id has stored the share's owner, hash, text and file under it, with the login and the time |
| InboxAnswers.CallAnswers | assets/share-inbox.js:99-135 | who may claim, edit, admit, reject, finish or discard a receipt, and the row it becomes |
| InboxText.LimitCountsEncodedBytes | assets/share-inbox.js:72-72 | the limit of a text counts the bytes of its UTF-8 form, which decodes to the text again |
| ChatActor.Actor.constructor | src/chat.rs:1370-1379 | the actor starts with nothing announced and nobody present |
| ChatActor.Actor.PublishMessage | src/chat.rs:1666-1678 | set and queue refine the rule: a message is announced if and only if it is not among the last 4096 announced |
| ChatActor.Remember | src/chat.rs:1666-1678 | dropping the oldest before adding the newest keeps set and queue equal to the last 4096, each once |
| ChatActor.Actor.Subscribe | src/chat.rs:1532-1594 | an allowed subscription opens one connection and announces a join exactly for the user's first |
| ChatActor.Actor.Leave | src/chat.rs:1596-1629 | a leave closes exactly its connection and announces a departure exactly for the user's last, also for unknown or repeated ids |
| ChatSpec.RepeatsAreFarApart | src/chat.rs:1666-1678 | over every run two announcements of one message have at least 4096 others between them |
| ChatSpec.EveryMessageIsAnnounced | src/chat.rs:1666-1678 | over every run exactly the published messages are announced |
| ChatSpec.OpenConnections | src/chat.rs:1532-1629 | a connection is open if and only if it was opened and not left since |
| ChatSpec.VisitsAlternate | src/chat.rs:1532-1629 | over every run a user's joins and leaves of a channel alternate, starting with a join, and joins are one ahead exactly while a connection is open |
| ChatSpec.AnnouncedUnlessRecent | src/chat.rs:1666-1678 | after any run a message is announced, in its channel, if and only if it is not among the last 4096 announced |
| ChatSpec.EveryEventHasCause | src/chat.rs:1532-1678 | every announcement was made by a command that calls for just that one, in the order of the commands |

## Left out

- Native sessions: reading cookies out of headers (a cookie is present or not), configuration, the constant labels of a grant, and several clock readings within one transaction.
- The identity provider, AES-GCM and SHA-256: symbolic or nondeterministic, because they are foreign libraries.
- Media store: preview jobs, type detection (a parameter), policy start-up and other writers of media objects.
- MediaRuns.ReservationsWithinLimits: covers runs of the store's own operations only.
- Notifications: the delivery worker, subscriptions and preference changes; memberships and preferences are fixed during a rollout.
- Image jobs bound to an agent: their submission is authorised by another transaction; the model covers jobs without a binding.
- Image prompt expansion, review of the picture's bytes and the image server's protocol: parameters.
- Chat agent jobs: building the context, the model call and publication; the other cached columns the location cleanup clears; deletion of jobs together with their agent, channel or message.
- InternalTokens.StripInternalTokens: works on Unicode scalar values, so byte offsets do not appear.
- Share inbox: composing the text from the form fields, hashing, the identity request and browser timeouts; an aborted transaction is a call without effect.
- Chat actor: distributed presence, history loading and the other events, which keep no state of their own.
- Web routes, frontends, migrations other than the cited indexes and trigger: they carry requests to the parts above and keep no state that these properties depend on.
