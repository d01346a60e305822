# PixcelBOB upload pipeline in Dafny

PixcelBOB is a LINE bot. It stores the photos users send it in their Google Drive. This project models the back end that decides what happens to each photo and proves properties of that model. The modelled parts are:

- **the LINE webhook**, which:
  - dispatches the events of a delivery;
  - guards an image message (bound user, refresh token, folder) and checks it against the upload quota;
  - fetches the image, uploads it at once and adds it to a batch;
  - on failure, pushes a classified error message and queues the image for one retry;
  - for text messages, answers the status commands.
- **the batch aggregator**. It keeps a map from LINE user id to a session of uploads with one inactivity timer. When the timer fires, it composes one summary message and drops the session.
- **the upload processor and the Drive client**, covering:
  - the file-name scheme and the upload metadata;
  - the ledger row written for each attempt;
  - the retry pass over `pending_uploads`: oldest first, at most ten rows, each marked processed whatever its outcome, with the first failure aborting the pass.
- **the two queue workers**: the `isRunning`/`intervalId` state machines with idempotent `start` and `stop`.
- **the HTTP controllers**:
  - LINE id normalisation and binding, the binding flags, the folder setting and listing, and paged upload history;
  - usage and quota statistics, with package resolution and trial assignment;
  - Google sign-in: the state parameter, the upsert by e-mail and the redirect;
  - token verification.
- **the shared structured logger**: level priorities, the patched console's filter, entry construction, and loggers with fixed context fields.

The database is a `Database` class with one sequence per table (`users`, `upload_history` as `ledger`, `pending_uploads`, `packages`, `user_packages`), plus the next values of the SERIAL keys. Each handler that writes a table is a method. Its `modifies` names the database, and its `ensures` states every table afterwards.

External services are parameters of the model. They answer as inputs or as total functions from request to `Result`:
- Google's token refresh, `files.create` and `files.list`;
- the OAuth token exchange, the user-info call and the JWT signer and verifier;
- the LINE client (profile lookup, content stream, folder-name lookup, and whether each reply or push throws).

Timers and intervals are explicit tokens and handles, fired by `FireTimer` and `Tick`. Clocks are integer inputs. Where one call meets the outside world many times, the answers and the clock readings are indexed by attempt or by event:
- the retry pass gets `envs(k)` and `nows(k)` for its k-th attempt;
- the webhook gets `lines(k)`, `drives(k)` and `clocks(k)` for the k-th event of a delivery.

Modules and files:
- `wrappers.dfy`: `Option`, `Result` and JavaScript truthiness of a nullable string.
- `text.dfy`: the JavaScript string built-ins the code relies on.
- `tables.dfy`: rows, the `Database` class and the lookup queries.
- `http.dfy`: the bearer token and the catch-block status mapping.
- `drive.dfy`, `batch.dfy`, `processor.dfy`, `worker.dfy`, `backend_worker.dfy`, `webhook.dfy`, `users.dfy`, `stats.dfy`, `auth.dfy` and `logger.dfy`: one each per source file of the same name.

The two quota paths disagree when a package's `upload_limit` is 0:
- the webhook uses `??` and keeps the 0, so every image is refused;
- the statistics page uses `||` and shows 10000.

`Stats.QuotaFallbacksDiffer` proves this. The model keeps both behaviours as written, because neither is evidently the intended one.

The image handler's inner catch also covers the folder-name lookup and the first-photo reply. So a photo that is already on Drive is queued again when only one of those fails, and the retry pass attempts it once more. `Webhook.UploadedPhotoQueuedAgain` states this. The model keeps it as written.

## Model

| member | source | states |
|---|---|---|
| Http.BearerToken | backend/src/controllers/userController.js:10 | no header, or a header without a space, yields no token |
| Http.BearerTokenRoundTrip | backend/src/controllers/userController.js:10 | the header `Bearer <t>` yields exactly `t` for every space-free `t` |
| Http.Caught | backend/src/controllers/userController.js:81-89 | a caught error is a 401 exactly when its name is JsonWebTokenError; otherwise a 500 with the handler's own message |
| Http.Authenticate | backend/src/controllers/userController.js:94-101 | a missing or empty token gives 401 'No token provided'; the result is Ok exactly when a token is present and verifies, and then it is the token's id claim |
| Tables.Database.InsertPending | backend/src/controllers/lineWebhookController.js:255-260 | exactly one unprocessed row is appended, with the next key and the current time; no other table changes |
| Tables.Database.InsertLedger | backend/src/services/googleDriveService.js:76-91 | exactly one row is appended to upload_history; no other table changes |
| Tables.FindUserByLineId | backend/src/controllers/lineWebhookController.js:97-100 | the row found carries that LINE id; None exactly when no row does |
| Tables.FindUserById | backend/src/controllers/userController.js:287-292 | the row found has that id; None exactly when no row does |
| Tables.SuccessCount | backend/src/controllers/lineWebhookController.js:145-151 | the success count never exceeds the number of ledger rows |
| Tables.SuccessCountAppend | backend/src/controllers/lineWebhookController.js:145-151 | a new row raises the count by one exactly when it is a success row of that user |
| Tables.SuccessCountZero | backend/src/controllers/statsController.js:112-117 | the count is zero exactly when the user has no success row |
| Tables.FindPackage | backend/src/controllers/statsController.js:83 | the package found has that id; None exactly when none does |
| Tables.SubscriptionsOf | backend/src/controllers/statsController.js:81-84 | the join holds exactly the user's rows whose package exists, each with its package |
| Tables.Newest | backend/src/controllers/lineWebhookController.js:154-161 | None only for no rows; otherwise a row with the latest start date |
| Tables.LiveSubscriptions | backend/src/controllers/statsController.js:85 | keeps exactly the rows without an end date or ending today or later |
| Tables.ActiveNewbie | backend/src/controllers/statsController.js:91-93 | an active package named 'newbie', None exactly when there is none |
| Text.NatToDecimal | backend/src/services/googleDriveService.js:31 | String(n): at least one digit, only digits, no leading zero |
| Text.DecimalRoundTrip | backend/src/services/googleDriveService.js:31 | reading String(n) back gives n |
| Text.DecimalLength | backend/src/services/googleDriveService.js:31 | String(n) has k+1 digits when 10^k <= n < 10^(k+1) |
| Text.PadStart2 | backend/src/services/googleDriveService.js:31 | padStart(2, '0'): two characters or more, and the added characters are zeros |
| Text.Pad2RoundTrip | backend/src/services/googleDriveService.js:31 | below 100 the padded field is two digits that read back as the number |
| Text.TrimStart | backend/src/controllers/userController.js:21 | drops exactly the leading white space |
| Text.TrimEnd | backend/src/controllers/userController.js:21 | drops exactly the trailing white space |
| Text.TrimIsTrimmed | backend/src/controllers/userController.js:21 | trim leaves no white space at either end |
| Text.TrimOfTrimmed | backend/src/controllers/userController.js:21 | trim leaves a trimmed string alone |
| Text.ToUpper | backend/src/controllers/userController.js:21 | toUpperCase keeps the length |
| Text.TrimUpper | backend/src/controllers/userController.js:21 | trim and toUpperCase commute |
| Text.LowerOfUpper | backend/src/controllers/lineWebhookController.js:36 | toLowerCase after toUpperCase is toLowerCase |
| Text.ContainsAt | backend/src/controllers/lineWebhookController.js:239-246 | includes() is true wherever the substring occurs |
| Text.ContainsWitness | backend/src/controllers/lineWebhookController.js:239-246 | whatever includes() reports occurs at some position |
| Text.BeforeFirst | backend/src/controllers/authController.js:180 | split(c)[0] is a prefix without c, followed by c when shorter |
| Text.BeforeFirstOfJoin | backend/src/controllers/authController.js:180 | the part before the first c of x+c+y is x when x has no c |
| Text.SecondField | backend/src/controllers/userController.js:10 | split(c)[1] is absent exactly when c does not occur |
| Drive.TimestampNameRoundTrip | backend/src/services/googleDriveService.js:29-32 | for a four-digit year the synthesised name has 24 characters, starts LINE_, ends .jpg, and parses back to the month (1-based), day, hour, minute and second it was made from |
| Drive.UploadMetadata | backend/src/services/googleDriveService.js:35-43 | the MIME type is always image/jpeg, and parents is present exactly when the user has a folder id, holding only that id |
| Drive.AttemptRowMatchesOutcome | backend/src/services/googleDriveService.js:56-69 | each attempt logs one row: success exactly when the upload succeeded, with the file id, chosen name and buffer length; otherwise no id, size 0 and the error message |
| Drive.RefreshFailureComesFirst | backend/src/services/googleDriveService.js:23-72 | a refresh failure is re-thrown and logged under the supplied name or 'unknown'; no answer of files.create changes the outcome |
| Drive.SuppliedNameKept | backend/src/services/googleDriveService.js:20-32 | a truthy caller-supplied name is used unchanged, else the timestamp name |
| Drive.ReportedSize | backend/src/services/googleDriveService.js:58-63 | the returned size is the reported size when present, else the buffer length |
| Drive.LogUpload | backend/src/services/googleDriveService.js:75-95 | the ledger gains the row when the insert succeeds and is unchanged when it fails; nothing else changes |
| Drive.UploadToDrive | backend/src/services/googleDriveService.js:20-73 | the outcome and the logged row are those of the reference attempt; only the ledger changes |
| Drive.FolderFilter | backend/src/services/googleDriveService.js:146-148 | keeps exactly the items of folder MIME type |
| Drive.FolderFilterAppend | backend/src/services/googleDriveService.js:146-148 | the filter keeps the original order |
| Drive.ListFolders | backend/src/services/googleDriveService.js:121-155 | Ok exactly when the refresh and the listing succeed, and then the filtered list; a refresh error propagates |
| Batch.ListingShort | backend/src/services/batchUploadService.js:94-98 | up to six uploads, every file name is listed, numbered 1..n, in order |
| Batch.ListingLong | backend/src/services/batchUploadService.js:99-111 | beyond six: entries 1-3, a marker carrying n-6, then the last three files numbered n-2..n |
| Batch.ListingAccountsForAll | backend/src/services/batchUploadService.js:94-111 | the listed entries plus the marker's hidden count make n |
| Batch.FolderLinkRoundTrip | backend/src/services/batchUploadService.js:77-79 | the link names the session's folder exactly when one is set, else it is the My Drive link |
| Batch.ElapsedMinutesFloor | backend/src/services/batchUploadService.js:81 | the duration is the elapsed whole minutes, rounded down |
| Batch.AppendEntries | backend/src/services/batchUploadService.js:96-110 | one forEach appends the numbered lines of the given uploads |
| Batch.ComposeSummary | backend/src/services/batchUploadService.js:76-111 | the message built with += is the summary function: header, heading, listing |
| Batch.BatchUploadService.constructor | backend/src/services/batchUploadService.js:4-9 | no sessions and no timers |
| Batch.BatchUploadService.StartOrContinueBatch | backend/src/services/batchUploadService.js:12-37 | first photo exactly when there was no session; a new empty session then, else the timer is cleared |
| Batch.BatchUploadService.AddUploadToBatch | backend/src/services/batchUploadService.js:40-63 | first photo exactly when there was no session; exactly one entry appended at the end; folder fields overwritten only by truthy arguments; a fresh timer that no earlier live timer shares; other sessions unchanged |
| Batch.BatchUploadService.SendBatchSummary | backend/src/services/batchUploadService.js:66-126 | nothing sent and nothing changed for a missing or empty session; otherwise the summary message and the session removed |
| Batch.BatchUploadService.FireTimer | backend/src/services/batchUploadService.js:55-58 | only the live timer, set by the latest add, sends a summary; a cleared one does nothing |
| Batch.BatchUploadService.GetBatchStatus | backend/src/services/batchUploadService.js:129-138 | read-only; null exactly when there is no session, else the photo count, start time and elapsed whole seconds |
| Batch.BatchUploadService.CancelBatch | backend/src/services/batchUploadService.js:141-147 | the session is removed without sending; no-op for an absent user |
| BatchScenarios.BurstOfThree | backend/src/services/batchUploadService.js:40-63 | three adds: only the first reports a first photo, the earlier timers fire nothing, the last sends one summary of all three |
| BatchScenarios.TwoWindows | backend/src/services/batchUploadService.js:40-63 | photos more than a window apart make two sessions and two summaries |
| Processor.UsersWithLineIdMembers | backend/src/services/uploadProcessorService.js:12 | the JOIN partners of a LINE id are exactly the users holding it, the first being the one the webhook's lookup finds |
| Processor.Eligible | backend/src/services/uploadProcessorService.js:9-13 | there are at most as many joined rows as pairs of a pending row and a user |
| Processor.EligibleMembers | backend/src/services/uploadProcessorService.js:9-13 | a joined row exists exactly for each unprocessed pending row and each user holding its LINE id, so a row shared by several users is joined once per user |
| Processor.SharedLineIdJoinedTwice | backend/src/services/uploadProcessorService.js:9-16 | a pending row whose LINE id two users hold is selected twice, once with each user, and both count against the LIMIT |
| Processor.UniqueLineIdsJoinOnce | backend/src/services/uploadProcessorService.js:9-13 | when no two users share a LINE id, there are at most as many joined rows as pending rows |
| Processor.InsertByAge | backend/src/services/uploadProcessorService.js:14 | inserting into a sorted list keeps it sorted and adds exactly the one row |
| Processor.SortByAge | backend/src/services/uploadProcessorService.js:14 | sorted by created_at and a permutation of its input |
| Processor.SelectPendingSplit | backend/src/services/uploadProcessorService.js:9-16 | the selection is the first min(n, 10) of the sorted eligible rows |
| Processor.SelectPendingSorted | backend/src/services/uploadProcessorService.js:14 | the selection is oldest first |
| Processor.SelectPendingEligible | backend/src/services/uploadProcessorService.js:9-13 | every selected row is an unprocessed pending row with a user |
| Processor.SelectPendingOldestFirst | backend/src/services/uploadProcessorService.js:14-15 | no eligible row left out is older than a selected one |
| Processor.MarkProcessed | backend/src/services/uploadProcessorService.js:49-52 | exactly the rows with that id become processed |
| Processor.MarkAll | backend/src/services/uploadProcessorService.js:21-23 | after a pass, exactly the rows of the attempted ids are processed |
| Processor.MarkFirstIsMarkAll | backend/src/services/uploadProcessorService.js:21-23 | marking the first n selected rows one at a time, as the loop does, gives the table where exactly their ids are processed |
| Processor.MarkedNotEligible | backend/src/services/uploadProcessorService.js:13 | a row attempted in one pass is never selected again |
| Processor.AttachMessageId | backend/src/services/uploadProcessorService.js:55-58 | only rows of the returned file id get the message id; other rows are unchanged |
| Processor.LedgerAfterShape | backend/src/services/uploadProcessorService.js:54-58 | one attempt adds at most one row; older rows keep every column but line_message_id, which changes only on rows of the uploaded file |
| Processor.ProcessUpload | backend/src/services/uploadProcessorService.js:36-78 | one attempt; the row is marked processed on success and on failure; the error is re-thrown |
| Processor.PassAttemptsAt | backend/src/services/uploadProcessorService.js:21-23 | the k-th attempt of a retry pass is the k-th selected row uploaded with the k-th answers of the storage service at the k-th clock reading |
| Processor.PassLedgerShape | backend/src/services/uploadProcessorService.js:54-58 | the ledger after k attempts has one row more per successful ledger insert among them, and the rows already there keep every column but line_message_id |
| Processor.PassLedgerRowAt | backend/src/services/uploadProcessorService.js:21-23 | the row the k-th attempt logs sits right after the rows of the attempts before it, and it is that attempt's row up to the message id |
| Processor.RetryStep | backend/src/services/uploadProcessorService.js:21-23 | the i-th selected row is attempted with the i-th answers at the i-th clock reading; the result is that attempt's, the row is marked, and the ledger is the pass ledger one attempt further |
| Processor.RetryRows | backend/src/services/uploadProcessorService.js:21-23 | the loop attempts the rows in order and stops at the first failure; the pending table and the ledger are those of the attempts it made; every attempt before the last succeeded |
| Processor.ProcessPendingUploads | backend/src/services/uploadProcessorService.js:6-34 | rows are attempted in selection order, the k-th with the k-th answers and clock reading; without failure processed is the selection's size; the first failure is re-thrown and later rows are not attempted; every attempted row is processed; the ledger is the fold of the attempts made, one row more per successful insert, old rows changing only in line_message_id |
| Processor.PassEnds | backend/src/services/uploadProcessorService.js:21-33 | a pass that stopped after m attempts, the last failed if the outcome is an error, leaves the pending table, the ledger and the outcome that the pass's effect describes |
| Processor.ProcessUploadImmediately | backend/src/services/uploadProcessorService.js:86-119 | 'User not found' with no attempt when no user has the LINE id; otherwise one attempt, errors unchanged, no pending row written |
| WorkerQueue.UploadQueueWorker.constructor | worker/src/uploadQueueWorker.js:6-9 | stopped, no interval |
| WorkerQueue.UploadQueueWorker.ProcessQueue | worker/src/uploadQueueWorker.js:53-66 | the pass's failure is caught and logged; the log line follows the outcome |
| WorkerQueue.UploadQueueWorker.Start | worker/src/uploadQueueWorker.js:11-37 | a no-op while running; otherwise running, one pass at once and one new interval |
| WorkerQueue.UploadQueueWorker.Tick | worker/src/uploadQueueWorker.js:20-36 | a tick runs a pass exactly when its interval is installed and isRunning holds |
| WorkerQueue.UploadQueueWorker.Stop | worker/src/uploadQueueWorker.js:39-51 | a no-op while stopped; otherwise the interval is cleared and the worker stopped |
| WorkerQueue.StartThenStop | worker/src/uploadQueueWorker.js:11-51 | start then stop returns to the initial state, and the old interval fires nothing |
| BackendQueue.UploadQueueWorker.constructor | backend/src/workers/uploadQueueWorker.js:4-7 | stopped, no interval |
| BackendQueue.UploadQueueWorker.ProcessQueue | backend/src/workers/uploadQueueWorker.js:41-52 | failures caught; a count is logged only when processed > 0 |
| BackendQueue.UploadQueueWorker.Start | backend/src/workers/uploadQueueWorker.js:9-25 | a no-op while running; otherwise running, one pass at once and one new interval |
| BackendQueue.UploadQueueWorker.Tick | backend/src/workers/uploadQueueWorker.js:22-24 | a tick runs a pass exactly when its interval is installed, whatever isRunning says |
| BackendQueue.UploadQueueWorker.Stop | backend/src/workers/uploadQueueWorker.js:27-39 | a no-op while stopped; otherwise the interval is cleared and the worker stopped |
| BackendQueue.StartTwiceThenStop | backend/src/workers/uploadQueueWorker.js:9-39 | a second start adds no interval and runs no pass; ticks run until stop |
| Webhook.ImageGuard | backend/src/controllers/lineWebhookController.js:97-140 | the guards in order: no user, then no refresh token, then no folder, each exactly in its case; otherwise the user |
| Webhook.UploadLimitOfNewest | backend/src/controllers/lineWebhookController.js:154-165 | the package with the latest start date decides the limit (0 stays 0); a null limit gives 10000 |
| Webhook.UploadLimitWithoutPackage | backend/src/controllers/lineWebhookController.js:162-165 | without a package row the limit is 10000 |
| Webhook.Classify | backend/src/controllers/lineWebhookController.js:239-247 | first match wins with case-sensitive substrings: token, then folder, then permission |
| Webhook.ErrorMessage | backend/src/controllers/lineWebhookController.js:237-247 | the pushed text starts with the error header |
| Webhook.ErrorMessageShowsRawText | backend/src/controllers/lineWebhookController.js:245-246 | an unclassified error's raw text appears in the message |
| Webhook.FlattenAppend | backend/src/controllers/lineWebhookController.js:190 | Buffer.concat of two runs of chunks is the concatenation of their buffers |
| Webhook.FlattenLength | backend/src/controllers/lineWebhookController.js:190 | each chunk appears in the buffer at its offset |
| Webhook.CollectImage | backend/src/controllers/lineWebhookController.js:183-190 | the buffer collected chunk by chunk is their concatenation |
| Webhook.GuardsComeFirst | backend/src/controllers/lineWebhookController.js:100-183 | a failed guard or exhausted quota decides before the fetch; an upload goes ahead only with user, token, folder and count below the limit |
| Webhook.UploadAndBatch | backend/src/controllers/lineWebhookController.js:198-228 | upload, folder-name lookup, batch; the entry joins the user's batch and no other; the first-photo reply is sent exactly when the batch reports a first photo; the upload error, the lookup error or the reply error, in that order, reaches the catch |
| Webhook.InnerFailure | backend/src/controllers/lineWebhookController.js:198-228 | the inner catch runs whenever the photo did not reach the batch, and never for a later photo of an open batch that got there |
| Webhook.UploadOrQueue | backend/src/controllers/lineWebhookController.js:198-261 | a fetched image has exactly the FetchedEffect: the upload's row, the batch entry when the upload and the lookup succeed, and after an inner failure the classified push followed by exactly one pending row, with nothing queued when the push throws |
| Webhook.HandleImageMessage | backend/src/controllers/lineWebhookController.js:88-273 | the whole effect from the state before: guard, quota and fetch failures change nothing and send their reply (the generic apology when it throws); a fetched image makes one upload attempt and its ledger row, joins the batch exactly when upload and folder lookup succeed, and after any inner failure, including one after a successful upload, pushes the classified message and then adds exactly one pending row, none when the push throws |
| Webhook.UploadedPhotoQueuedAgain | backend/src/controllers/lineWebhookController.js:198-261 | a photo already uploaded whose folder-name lookup fails keeps its success row and is queued again with the same message id and image |
| Webhook.CommandIgnoresCase | backend/src/controllers/lineWebhookController.js:36 | command matching ignores surrounding white space and the case of ASCII letters |
| Webhook.ConnectionOf | backend/src/controllers/lineWebhookController.js:63-76 | ready exactly with token and folder, needs-folder exactly with a token but no folder |
| Webhook.StatusText | backend/src/controllers/lineWebhookController.js:61-76 | the ready text starts with the status header; the other two end with the link |
| Webhook.ReadyShowsEmail | backend/src/controllers/lineWebhookController.js:66 | the ready text carries the e-mail line when an e-mail is set |
| Webhook.TextReplies | backend/src/controllers/lineWebhookController.js:34-86 | unbound users always get the link reply; bound users get a reply exactly for the three status commands, and it is the status text |
| Webhook.ActionOf | backend/src/controllers/lineWebhookController.js:18-24 | only message/image and message/text events are dispatched; others are ignored |
| Webhook.DispatchEvent | backend/src/controllers/lineWebhookController.js:18-24 | an image event has exactly the effect of the image handler; a text event sends its replies and changes nothing; other events change nothing; a message without its message object throws |
| Webhook.HandleWebhook | backend/src/controllers/lineWebhookController.js:8-32 | 200 at once for missing or empty events; otherwise the events in order, each with the effect of its dispatch from the state the previous one left, the k-th event meeting the k-th answers of LINE and the storage service and the k-th clock reading; 200 when none throws, 500 at the first that throws and none dispatched after it; a delivery holding a malformed message always gives 500 |
| Webhook.TextOnlyWebhook | backend/src/controllers/lineWebhookController.js:8-86 | a run over events none of which is an image leaves the tables and batches as they were, and what it sent is the text replies of the events before the one that threw, if any |
| Users.NormalizeLineId | backend/src/controllers/userController.js:21 | normalising never lengthens the id |
| Users.NormalizeIdempotent | backend/src/controllers/userController.js:21 | normalising twice is normalising once |
| Users.AcceptedIdsAreUpperHex | backend/src/controllers/userController.js:21-28 | an accepted id has 33 characters and upper-case hex digits |
| Users.LowercaseUAccepted | backend/src/controllers/userController.js:21-28 | a lower-case 'u' and surrounding blanks are accepted |
| Users.UpdateWhere | backend/src/controllers/userController.js:104-109 | the row with that id has the one column set; every other row is unchanged |
| Users.UpdateWhereFinds | backend/src/controllers/userController.js:49-60 | the updated row is found, and it is the old row with the one column set |
| Users.BoundIdIsFound | backend/src/controllers/userController.js:49-56 | after binding, the webhook's lookup by that LINE id finds a user |
| Users.BindCheck | backend/src/controllers/userController.js:13-43 | 401 without a token, then 400 without an id, then 400 on a bad format, then 400 when unreachable; Ok gives the normalised id |
| Users.UnreachableIdRefused | backend/src/controllers/userController.js:31-46 | an unreachable id is refused whatever the token says |
| Users.UpdateUser | backend/src/controllers/userController.js:49-60 | one column of the key's row set; 404 when there is no such row |
| Users.BindLineAccount | backend/src/controllers/userController.js:8-90 | checks, then verification, then the update of the token's user only; a confirmation goes to the bound id exactly on success |
| Users.UnbindLineAccount | backend/src/controllers/userController.js:92-131 | line_user_id becomes null for the token's user only; other columns intact |
| Users.SetGoogleDriveFolder | backend/src/controllers/userController.js:192-232 | google_folder_id becomes the body's folderId for the token's user only |
| Users.GetBindingStatus | backend/src/controllers/userController.js:133-190 | lineConnected exactly when line_user_id is non-null; googleConnected exactly when the refresh token is non-null |
| Users.GetGoogleDriveFolders | backend/src/controllers/userController.js:275-314 | 400 without a refresh token; Ok exactly when the user exists, is connected and the listing succeeds, with folder items only |
| Users.RowsOf | backend/src/controllers/userController.js:339-340 | exactly the user's ledger rows |
| Users.RowsOfAppend | backend/src/controllers/userController.js:339-340 | a new ledger row joins the end of its user's rows and no one else's, so the rows keep table order and multiplicity |
| Users.Reverse | backend/src/controllers/userController.js:341 | newest first: the rows in reverse order |
| Users.Page | backend/src/controllers/userController.js:342 | LIMIT/OFFSET: the rows from the offset, at most limit of them |
| Users.PagesConcatenate | backend/src/controllers/userController.js:342 | two consecutive pages make the larger page |
| Users.GetUploadHistory | backend/src/controllers/userController.js:316-371 | defaults limit 20 and offset 0; the user's rows newest first, one page, with the user's total |
| Users.HasMoreMeansNextPage | backend/src/controllers/userController.js:352-359 | hasMore exactly when offset + limit < total; for a positive limit, exactly when the next page has rows |
| Stats.Summarize | backend/src/controllers/statsController.js:16-24 | successful + failed = total; no rows means size 0 |
| Stats.SummarySuccessIsUsed | backend/src/controllers/statsController.js:19 | the successful count is the success-row count the quota uses |
| Stats.SummarizeAppend | backend/src/controllers/statsController.js:16-24 | a row of the user adds one to the total and its size to the total size; other rows change nothing |
| Stats.HistoryCountsUsage | backend/src/controllers/statsController.js:16-24 | the usage summary's total is the number of rows the upload history counts for the user |
| Stats.GetUsageStats | backend/src/controllers/statsController.js:4-64 | the token's user's summary; errors follow the token check |
| Stats.ResolvePackage | backend/src/controllers/statsController.js:80-95 | a live subscription's package or the active newbie package; none exactly when the user has no live subscription and there is no newbie package |
| Stats.ResolveNewestLive | backend/src/controllers/statsController.js:80-93 | when the user has a live subscription, it wins over newbie, and the package chosen is that of a live subscription with the latest start date |
| Stats.AfterLookup | backend/src/controllers/statsController.js:90-103 | the trial row is inserted only when no live package was found, a newbie package exists and the user has no row at all |
| Stats.AfterLookupIdempotent | backend/src/controllers/statsController.js:96-102 | a second lookup inserts nothing more |
| Stats.TotalQuota | backend/src/controllers/statsController.js:109 | the package's limit when truthy, else 10000 (0 or null gives 10000) |
| Stats.Remaining | backend/src/controllers/statsController.js:124 | max(0, total - used): never negative |
| Stats.QuotaOf | backend/src/controllers/statsController.js:119-127 | total, used, remaining; name falls back to 'newbie'; price null without a package |
| Stats.GetQuotaInfo | backend/src/controllers/statsController.js:66-139 | the quota of the resolved package and the success count; the trial insert as AfterLookup |
| Stats.QuotaFallbacksDiffer | backend/src/controllers/statsController.js:109 | a newest package with limit 0 makes the webhook refuse every image while statistics show 10000 |
| Auth.HttpSession.constructor | backend/src/controllers/authController.js:8 | the session remembers the given LINE id |
| Auth.StateFor | shared/config/googleAuth.js:25-27 | the state carries the LINE id exactly when it is truthy |
| Auth.InitiateGoogleAuth | backend/src/controllers/authController.js:6-25 | the query id wins over the session's; a truthy id is stored in the session and carried in the state |
| Auth.ResolveLineId | backend/src/controllers/authController.js:38-58 | the state's id, else the session's, else null; a malformed state is ignored |
| Auth.StateRoundTrip | backend/src/controllers/authController.js:39-48 | the id sent in the state comes back in the callback whatever the session holds |
| Auth.SuccessUrl | backend/src/controllers/authController.js:129-136 | LIFF_URL when set, else FRONTEND_URL, ending with the token |
| Auth.FailureUrlHasNoToken | backend/src/controllers/authController.js:129-147 | for a signed token (which has no '?'), the failure redirect differs from the success redirect, whether LIFF_URL or FRONTEND_URL is its base |
| Auth.FindUserByEmail | backend/src/controllers/authController.js:71-74 | the row with that e-mail; None exactly when there is none |
| Auth.Relogin | backend/src/controllers/authController.js:75-78 | the refresh token is replaced; an existing line_user_id is kept (COALESCE); id, e-mail and folder are kept |
| Auth.ReloginWhere | backend/src/controllers/authController.js:71-79 | only rows of that e-mail are updated |
| Auth.ReloginFinds | backend/src/controllers/authController.js:79 | the returned row is the one found afterwards |
| Auth.Upsert | backend/src/controllers/authController.js:71-89 | a new e-mail appends a row; for an existing one, the rows of that e-mail get the relogin update with COALESCE on line_user_id and every other row is unchanged; the folder is untouched |
| Auth.AssignNewbie | backend/src/controllers/authController.js:92-108 | the trial package is added only for a user without any package row |
| Auth.HandleGoogleCallback | backend/src/controllers/authController.js:27-149 | 400 without a code; the upsert, trial assignment and success redirect; any later error redirects with error=auth_failed |
| Auth.ReloginKeepsBinding | backend/src/controllers/authController.js:75-77 | a bound LINE id survives a later sign-in |
| Auth.DisplayName | backend/src/controllers/authController.js:180 | the prefix of the e-mail before the first '@' |
| Auth.DisplayNameOfAddress | backend/src/controllers/authController.js:180 | the name of local@domain is local |
| Auth.VerifyToken | backend/src/controllers/authController.js:151-190 | every failure is a 401; Ok exactly when the token verifies and the user exists, with e-mail, name, LINE id and folder |
| Logger.Priority | shared/utils/logger.js:3-8 | priorities run from 0 to 3 |
| Logger.PrioritiesOrdered | shared/utils/logger.js:3-8 | error < warn < info < debug, all distinct |
| Logger.LevelNamed | shared/utils/logger.js:3-8 | only the four lower-case names are LEVEL_PRIORITY's own keys |
| Logger.MethodLevel | shared/utils/logger.js:10-16 | log and info, and only they, write at info |
| Logger.MethodOrderComplete | shared/utils/logger.js:10-16 | every console method is patched |
| Logger.DefaultOptions | shared/utils/logger.js:18-22 | the first truthy service name; the lower-cased level, info when unset |
| Logger.Merge | shared/utils/logger.js:97-100 | every custom field given replaces the default |
| Logger.MergeEmpty | shared/utils/logger.js:96-100 | no custom fields keeps the defaults |
| Logger.Threshold | shared/utils/logger.js:102-103 | the configured level's priority; a name inherited from Object.prototype gives no number, so nothing is filtered; any other unknown level uses info's |
| Logger.FilterFacts | shared/utils/logger.js:102-109 | errors always pass; debug passes exactly at the debug level or an inherited name; an inherited name filters nothing; any other unknown level behaves like info |
| Logger.InheritedLevelFromEnvironment | shared/utils/logger.js:18-22 | LOG_LEVEL constructor or __proto__ survives the lower-casing and switches the filter off |
| Logger.SafeSerialize | shared/utils/logger.js:32-50 | null, undefined and strings are returned unchanged |
| Logger.SerializeAll | shared/utils/logger.js:70-74 | one serialised element per argument, in order |
| Logger.BuildEntry | shared/utils/logger.js:52-78 | no arguments give message ''; a string first argument is the message, with context present exactly when there are more arguments; otherwise message '[object]' and every argument in context; default fields override timestamp, level and service |
| Logger.ContextElements | shared/utils/logger.js:65-75 | the context has one element per argument after the message, in order |
| Logger.Route | shared/utils/logger.js:80-94 | error to the error stream, warn to the warn stream, info and debug to log |
| Logger.PatchedCall | shared/utils/logger.js:106-113 | nothing exactly when the level's priority exceeds the threshold, else one entry on its stream |
| Logger.Console.constructor | shared/utils/logger.js:24-30 | every method is the original |
| Logger.Console.PatchConsole | shared/utils/logger.js:96-115 | every method is replaced by its level with the merged options and threshold |
| Logger.Console.Call | shared/utils/logger.js:106-113 | a patched call is dropped exactly when filtered, else writes the built entry on its stream |
| Logger.PatchedDefaults | shared/utils/logger.js:96-115 | with the defaults, debug writes exactly when LOG_LEVEL is debug or an inherited name, and error always writes to the error stream |
| Logger.CreateLogger | shared/utils/logger.js:117-121 | the logger's fields are the context |
| Logger.LogWith | shared/utils/logger.js:123-129 | no level filter; every context field is in the entry |
| Logger.LoggerIgnoresLevel | shared/utils/logger.js:123-129 | a context logger always writes debug entries, which the patched console with the same defaults drops exactly when the level is neither debug nor an inherited name |

## Left out

- Database errors, other than the ledger insert of logUpload, are not modelled. This covers the best-effort catches around the package lookups in the statistics and sign-in handlers, and the 500 responses they lead to. Unique constraints are not modelled either, so several users may hold one LINE id; the retry query then joins a pending row with each of them.
- Concurrency is not modelled: overlapping worker passes, and two webhook deliveries at once. Handlers run one at a time.
- Real time is not modelled. Timers and intervals fire only through `FireTimer` and `Tick`. Clock values are inputs, and the local calendar fields of `new Date()` are given as integers.
- created_at order is the order of the tables' sequences. Ties in ORDER BY are broken by table order; the database leaves their order unspecified.
- Processor.ProcessUpload: `SELECT pu.*, u.*` lets the user's `id` shadow the pending row's `id`. The model marks the selected pending row itself and does not model the column collision.
- Drive.UploadToDrive: refreshAccessToken, files.create and files.list are oracle functions. setCredentials and the googleapis client are not modelled.
- Users.NormalizeLineId: toUpperCase and toLowerCase map the ASCII letters only. Non-ASCII case mapping is not modelled.
- Users.GetUploadHistory: limit and offset are natural numbers. parseInt of non-numeric or negative query strings is not modelled.
- Stats.Summarize: activeDays and the daily chart query are not modelled (date grouping). Statuses other than success and failed do not occur, because only those two are written.
- Webhook.LimitText shows the limit as a plain decimal. The thousands separators of toLocaleString are not modelled.
- Logger.SafeSerialize: the JSON round trip and util.inspect are a parameter. Timestamps (toISOString) are inputs.
- Logger.Console.Call: the output of an original, unpatched console method is not modelled. Only patched calls can be made.
- The text replies, pushes and summary texts are carried as opaque constants.
- The confirmation push after binding is reduced to the id it goes to, and its failure is ignored as in the source.
- The URL generateAuthUrl builds is not modelled, only the state it carries.
- notifyUser only writes to the console, so it has no modelled effect.
- getRecentActivity, the hourly statistics and debugGoogleDriveFiles are diagnostics outside the upload pipeline and are not modelled.
- getContentFromLine is never called and is not modelled.
- The webhook's quota check ignores end_date as written (both the as-written limit and the statistics limit are modelled).
- The HMAC signature middleware, server.js, the route files and CORS are not part of this model.
- The shared services that the webhook and the stand-alone worker import (`shared/services/...`) are not part of this model. They are taken to behave like backend/src/services/uploadProcessorService.js and googleDriveService.js. getFolderName is an oracle of the LINE environment.
