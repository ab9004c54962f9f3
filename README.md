# fire core in Dafny

This project models the parts of the `fire` web framework that coordinate through guarded updates of stored records or through small decision functions, and proves properties of them:

- **glut** — token lease locks on stored values. A value is addressed by component and name, locked by a token until a deadline, and read, written, unlocked or deleted only by its holder.
- **blaze** — the life cycle of uploaded files: Uploading, Uploaded, Claimed, Released, Deleting, removed. It covers the upload, the link validator that claims new files and releases old ones, the view-key decoration and download guard, and the cleanup sweep.
- **axe** — the job record: its five statuses, its timestamps and the indexes registered for it. It also covers the job's transitions (claim, conclude, reap), which are run by worker code that is not part of this model.
- **ash** — the authorization strategy (dispatch of an operation to authorizer lists, first decision wins) and policies (selection into the context, access bitmasks, action allow-list, filters, field intersection).
- **callbacks** — `Combine`, fatal errors and the stock validators.
- **flame** — the OAuth2 policy defaults and token issuing.
- **coal** — index registration on a model and its compilation to database options.
- **tester** — the test helper's path normalisation, its reset, and the defaults it fills into a context before a handler runs.

One module per source file. `Common` holds `Option`, `Result` and the time units; `Fire` holds the operations and the request context class shared by ash and the tester. Time is an integer number of nanoseconds passed in as `now`. Foreign calls are function parameters: the blob service, the notary, govalidator, `AccessTable.Collect`, `stick.Intersect`, `Client.ValidRedirectURI` and the model translator. A Go map that a function iterates is given as a sequence of pairs in iteration order.

The claim, conclude and reap transitions of a job are this model's assumption about the queue, whose code is not part of this model. A job that exhausts its retries becomes Failed with Ended set and Finished left unset, following the field comment at axe/model.go:61, which says Finished is set only for completed or cancelled jobs.

## Model

| member | source | states |
|---|---|---|
| Glut.HeldLockExcludesOthers | glut/locks.go:39-69 | A lock held by one token and not past its deadline cannot be acquired by another token |
| Glut.LockStore.constructor | glut/locks.go:16-76 | The store starts empty |
| Glut.LockStore.Lock | glut/locks.go:16-76 | A zero token is rejected with "invalid token" and nothing changes. A missing value is created with the deadline `now + timeout` and the token, and the result is true. An existing value takes the deadline and token exactly when it is unlocked, timed out or already held by the token; the result is true exactly when the record changed. Otherwise nothing changes and the result is false. Every stored value keeps "token set iff deadline set" and a non-zero token |
| Glut.LockStore.SetLocked | glut/locks.go:80-101 | A zero token is rejected. Only when the value exists and holds the token is its data replaced, with the result true iff the data changed; deadline and token are unchanged and expiry is not checked. A missing value or a foreign token leaves the store unchanged with the result false |
| Glut.LockStore.GetLocked | glut/locks.go:105-120 | The data is loaded exactly when the value exists and holds the token; otherwise the result is no data and false |
| Glut.LockStore.DelLocked | glut/locks.go:124-141 | A zero token is rejected. The value is removed, and the count drops by one, exactly when it holds the token; otherwise nothing changes and the result is false |
| Glut.LockStore.Unlock | glut/locks.go:144-166 | A zero token is rejected. With the matching token, the deadline and token are cleared and the data kept, and the result is true; with any other token nothing changes |
| Blaze.ContentTypeOrDefault | blaze/storage.go:50-52 | An empty content type becomes "application/octet-stream"; any other is kept; the result is never empty |
| Blaze.Classify | blaze/storage.go:304-311 | A link change is Unchanged iff both links are absent, or both exist and the new one has no claim key; Added iff only the new link exists; Deleted iff only the old one exists |
| Blaze.ClaimFile | blaze/storage.go:314-348 | The claim step: a missing claim key, an unknown key and a file that is not Uploaded are the three errors; otherwise the file becomes Claimed at `now` and the link takes its id, type and length. Its outcomes are stated by the lemmas on `ValidateLinkSpec` below |
| Blaze.ReleaseFile | blaze/storage.go:351-366 | The release step: a link whose file is not a Claimed record gives "unable to release file"; otherwise that file becomes Released at `now`. Its outcomes are stated by the lemmas on `ValidateLinkSpec` below |
| Blaze.ValidateLinkSpec | blaze/storage.go:298-369 | validateLink as a function of the file records: classify, claim the new file, release the old one, and keep a claim that succeeded when the release after it fails. Its properties are the lemmas that follow |
| Blaze.ValidateLinkRespectsLifecycle | blaze/storage.go:298-369 | validateLink adds and removes no file records and moves no file backwards in the life cycle |
| Blaze.ClaimedLinkNamesUploadedFile | blaze/storage.go:320-347 | A new link is accepted only if its claim key is valid and names an Uploaded file. The stored link then carries that file's id, type and length, and the file is now Claimed, or Released if it also replaced itself |
| Blaze.UnchangedLinkIsNoOp | blaze/storage.go:303-311 | A link that is neither added, updated nor deleted (both absent, or a new link without a claim key replacing an old one) is accepted as it is and no file changes |
| Blaze.UnknownClaimKeyRejected | blaze/storage.go:320-326 | A claim key the notary does not recognise is rejected as an invalid key, whether the link is added or replaces another, and no file changes |
| Blaze.MissingClaimKeyRejected | blaze/storage.go:316-318 | Adding a link without a claim key fails with "missing claim key" and changes no file |
| Blaze.DropReleasesClaimedFile | blaze/storage.go:351-365 | Dropping a link whose file is Claimed moves exactly that file to Released at `now` |
| Blaze.UpdateClaimsNewAndReleasesOld | blaze/storage.go:313-366 | Replacing a link whose new file is Uploaded and whose old file is Claimed stores a link to the new file with its type and length. The new file becomes Claimed, the old one Released, and no other record changes |
| Blaze.UnclaimableFileRejected | blaze/storage.go:327-342 | A claim key naming a file that is missing or not Uploaded gives "unable to claim file", and no record changes |
| Blaze.UnreleasableOldFileKeepsClaim | blaze/storage.go:350-365 | When the replaced link's file is not Claimed, the update fails with "unable to release file", and the new file stays Claimed |
| Blaze.DropOfUnclaimedFileFails | blaze/storage.go:350-365 | Dropping a link whose file is not Claimed fails with "unable to release file", and no record changes |
| Blaze.LinksToValidate | blaze/storage.go:266-283 | On Delete the current link is validated as the old link, with no new link; otherwise the current and original links are validated as new and old |
| Blaze.StoredLink | blaze/storage.go:273-285 | The value written back into the field: the validated link, except on Delete, where a pointer field is cleared and a value field keeps its link. Stated for Delete by `Blaze.DeleteReleasesLinkedFile` |
| Blaze.ValidatorSpec | blaze/storage.go:245-293 | The Validator's loop as a function: fields in order, an unsupported type or the first validateLink error stops it. Its properties are `Blaze.ValidatorRespectsLifecycle` and `Blaze.DeleteReleasesLinkedFile` |
| Blaze.ValidatorRespectsLifecycle | blaze/storage.go:232-296 | The Validator keeps every file record, only moves files forward, and on success yields one stored value per field |
| Blaze.DeleteReleasesLinkedFile | blaze/storage.go:266-283 | Deleting a model with a claimed pointer link releases that file and clears the field |
| Blaze.DecorateLink | blaze/storage.go:428-446 | A link without a file, or with the zero id, is returned unchanged. Otherwise the link gets the issued view key for its file, or the issuing error is returned |
| Blaze.Download | blaze/storage.go:450-477 | A download succeeds iff the view key is valid, names a Claimed file and the blob service starts the download; it then returns that file. An unknown key gives the invalid-key error, a file that is missing or not Claimed gives "missing file", and otherwise the blob service's error is returned |
| Blaze.EffectiveRetention | blaze/storage.go:538-541 | A zero retention means one hour; any other retention is used as given |
| Blaze.Obsolete | blaze/storage.go:544-560 | The filter of the cleanup query: Uploading or Uploaded files last updated before the retention window, and all Released or Deleting files |
| Blaze.CleanupSpec | blaze/storage.go:565-606 | The cleanup loop as a function over the found records. Its properties are the three lemmas that follow |
| Blaze.CleanupRespectsLifecycle | blaze/storage.go:532-621 | Cleanup removes records or marks them Deleting and changes nothing else. A file that the query did not find stays exactly as it was, and a record is removed only when its blob was deleted |
| Blaze.CleanupFreshSnapshot | blaze/storage.go:565-605 | On found records that are distinct and still current, with no failing blob deletion, Cleanup returns no error. Every found file is then removed if its blob was deleted and is Deleting otherwise |
| Blaze.CleanupStopsAtGuardMiss | blaze/storage.go:575-590 | When the guarded update misses on a stale record after current ones, Cleanup returns no error with the records as the earlier ones left them. That record and every later one not handled before stay as they were |
| Blaze.FileStore.constructor | blaze/storage.go:33-39 | The file store starts with no records |
| Blaze.FileStore.Upload | blaze/storage.go:43-116 | Upload inserts the file as Uploading at `now` with the defaulted content type. It marks the file Uploaded with the written length only after the callback succeeded, and then returns the issued claim key with the file. A service failure before the insert changes nothing; a later failure leaves the file Uploading; an issuing failure returns its error with the file left Uploaded. The life cycle is respected |
| Blaze.FileStore.ValidateLink | blaze/storage.go:298-369 | The returned link and the new file records are those of the validateLink definition |
| Blaze.FileStore.Validator | blaze/storage.go:232-296 | Validating the fields in order, stopping at the first error, gives the stored values and the file records of the Validator definition |
| Blaze.FileStore.Cleanup | blaze/storage.go:532-621 | The sweep over the found records gives the result and the file records of the Cleanup definition |
| Axe.ParseStatus | axe/model.go:13-19 | A string is a status iff it is one of "enqueued", "dequeued", "completed", "failed" or "cancelled" |
| Axe.StatusName | axe/model.go:13-19 | The string of each status. Stated by `Axe.StatusNameRoundTrip` and `Axe.ParseStatus` |
| Axe.StatusNameRoundTrip | axe/model.go:13-19 | Parsing the name of a status gives that status back |
| Axe.Enqueue | axe/model.go:34-69 | A new job is Enqueued, never attempted, available after its delay, has no start, end or finish, and satisfies the record's invariants |
| Axe.Apply | axe/model.go:49-65 | A transition applies iff the job is an available Enqueued job (claim), is Dequeued (conclude), or is Dequeued and claimed longer ago than the lifetime (reap) |
| Axe.ApplyAppendsEvent | axe/model.go:22-31 | A transition keeps the job's name, label, data and creation time, and appends exactly one event stamped `now` with the new status |
| Axe.ApplyPreservesConsistent | axe/model.go:49-65 | Every transition keeps the record's invariants: the last event matches the status; Finished is set iff Completed or Cancelled; Started is set iff an attempt was made; Ended is set for terminal jobs; the timestamps are ordered. Attempts grow by one exactly on a claim and never decrease |
| Axe.TerminalIsFinal | axe/model.go:13-19 | A completed, failed or cancelled job accepts no further transition |
| Axe.FinishedOnlyOnCompleteOrCancel | axe/model.go:61-62 | After any transition, Finished is set iff the job is Completed or Cancelled |
| Axe.Failures | axe/pool_test.go:127-140 | A run of `count` retryable failures with the same reason; it only builds the handler outcomes the retry lemmas run a job on |
| Axe.Run | axe/model.go:49-65 | A job run against a sequence of handler outcomes: claim, then conclude with the outcome, until the job leaves the queue. Its properties are the lemmas that follow |
| Axe.RetryRound | axe/model.go:58-65 | A round with a retryable failure counts one attempt and sets Started and Ended. The job is re-enqueued after the delay while attempts remain and fails with the reason otherwise; Finished is not touched |
| Axe.SuccessRound | axe/model.go:58-65 | A round that succeeds completes the job with one more attempt, with Started, Ended and Finished all at `now` |
| Axe.RunStops | axe/model.go:49-65 | A job that is not Enqueued is not run again |
| Axe.RetriesThenSuccess | axe/pool_test.go:127-161 | A job that fails retryably k times while attempts remain and then succeeds ends Completed after k + 1 attempts, with Started ≤ Ended ≤ Finished |
| Axe.ExhaustedRetriesFail | axe/model.go:58-62 | A job whose handler keeps failing retryably ends Failed after exactly the allowed attempts. Ended is set, Finished is not, and the last event records the failure reason |
| Axe.NonRetryableCancels | axe/pool_test.go:181-211 | A non-retryable error cancels the job on its attempt, with Ended = Finished = Started, whatever outcomes follow |
| Axe.FirstAttemptCompletes | axe/pool_test.go:47-56 | A handler that succeeds at once leaves the job Completed with one attempt and Started, Ended and Finished set |
| Axe.OneRetryCompletes | axe/pool_test.go:155-161 | One retryable failure, then success, with two attempts allowed: Completed after two attempts |
| Axe.CancelOnFirstAttempt | axe/pool_test.go:199-211 | A non-retryable "cancelled" error leaves the job Cancelled after one attempt, with Finished set and that reason |
| Axe.AbandonedClaimIsRecovered | axe/model.go:55-65 | A claim older than the reaper's lifetime is returned to the queue available at once; a later successful run completes the job and counts both attempts |
| Axe.AddModelIndexes | axe/model.go:74-83 | Exactly three indexes are appended, on name, status and finished_at; only the last carries the removal expiry |
| Ash.Lists | ash/strategy.go:91-113 | List, Find, Create, Update and Delete dispatch to their own list first (List, Find, Create, Update, Delete respectively). List and Find then go to Read, then All; Create, Update and Delete to Write, then All. The two action operations go to the named action list, the all-actions list, Actions, then All. Any other operation panics |
| Ash.CallList | ash/strategy.go:119-136 | One list yields no decision iff every authorizer in it abstains |
| Ash.Call | ash/strategy.go:115-141 | The scan of all lists. Its properties are the lemmas that follow |
| Ash.FlattenVisitsEveryAuthorizer | ash/strategy.go:115-141 | The scan visits exactly the authorizers of the given lists |
| Ash.CallListFirstDecision | ash/strategy.go:119-136 | Within one list, the first authorizer that does not abstain decides |
| Ash.CallFirstDecisionWins | ash/strategy.go:115-141 | Across all lists, the first authorizer that does not abstain decides the result: its error, or its enforcer's result. No later authorizer matters |
| Ash.CallDeniesWhenAllAbstain | ash/strategy.go:139-140 | When every authorizer abstains, the result is "access denied" |
| Ash.CallGrantsOnlyThroughEnforcer | ash/strategy.go:115-141 | When the scan returns no error, some authorizer returned an enforcer whose run passed |
| Ash.OwnListAbstainsFallsBack | ash/strategy.go:94-103 | When the operation's own list (List, Find, Create, Update or Delete) abstains throughout, the result is decided by Read then All (List, Find), or by Write then All (Create, Update, Delete) |
| Ash.Authorize | ash/strategy.go:91-113 | The strategy panics exactly for operations outside its switch; every other operation returns |
| Ash.A | ash/strategy.go:12-30 | The authorizer's name is pushed on the tracer and popped again unless the handler failed; the handler's decision is passed on; no other field of the context changes |
| Ash.SelectSpec | ash/policy.go:66-92 | Selection changes the data only on success, and then only by adding the policy key, which was absent before: every earlier entry is kept |
| Ash.Select | ash/policy.go:66-92 | The result and the new data map are those of the selection definition; no other field of the context changes |
| Ash.SelectedPolicyIsExecuted | ash/policy.go:66-92 | Without an identity, selection is denied and the data unchanged. With one: a selector that picks nothing gives success with the data unchanged; a stored policy gives "existing policy" with the data unchanged; otherwise the picked policy is stored, and it is the one Execute then reads |
| Ash.SelectMatchOnlyMatchingType | ash/policy.go:96-108 | The matched selector yields a policy only for identities of the template's type, and for those it yields the factory's policy |
| Ash.ExecuteAllowsOnlyGrantedAccess | ash/policy.go:127-186 | Execute allows an operation only when the policy shares a bit with the operation's required access, an action operation's name is allowed, and CheckID, when set, grants a required bit for the selected id |
| Ash.ExecuteAllowsWhenChecksPass | ash/policy.go:127-186 | The converse: when the policy shares a bit with the required access, an action operation's name is allowed, and CheckID, where it applies, grants a required bit for the selected id, Execute lets the operation through |
| Ash.CollectionActionAlwaysDenied | ash/policy.go:127-156 | A collection action requires no access bit and is therefore denied under every policy |
| Ash.NoPolicyDenies | ash/policy.go:148-151 | Without a stored policy every operation is denied |
| Ash.ExecuteVerdict | ash/policy.go:127-186 | The verdict of Execute. Its properties are `Ash.ExecuteAllowsOnlyGrantedAccess` and its converse `Ash.ExecuteAllowsWhenChecksPass`, `Ash.CollectionActionAlwaysDenied` and `Ash.NoPolicyDenies` |
| Ash.CheckModelVerdict | ash/policy.go:188-200 | The deferred model check allows iff the model's access shares a bit with the required access |
| Ash.Execute | ash/policy.go:119-233 | The result is the Execute verdict. The policy's filter is appended after the general access check passed, for operations that take filters, even if a later check denies. The model check is deferred and the readable and writable fields are intersected with the collected ones exactly when access is allowed. Operation, context, data, store, selector, action names and tracer are untouched |
| Ash.AddFilter | ash/policy.go:158-161 | The policy's filter is appended, onto an empty list when there is none, only for operations that take filters and only when the policy has one; no other field changes |
| Ash.Grant | ash/policy.go:188-210 | The model check is deferred for operations with a model when the policy has one, and both field lists become their intersection with the fields collected at the operation's read and write access; no other field changes |
| Callbacks.Fatal | callbacks.go:23-37 | A wrapped error is fatal and reports the message of the error it wraps |
| Callbacks.PlainErrorsAreNotFatal | callbacks.go:34-37 | An error not wrapped by Fatal is not fatal |
| Callbacks.Combine | callbacks.go:42-54 | The callbacks run in order. The result is the first error, after which no callback runs, or nothing iff all pass, in which case all ran |
| Callbacks.ModelValidator | callbacks.go:58-80 | It passes for actions other than Create and Update, reports "Invalid ID" for an invalid id, and otherwise returns the struct validation's verdict |
| Callbacks.FirstChanged | callbacks.go:99-121 | Nothing is found iff every listed field holds its expected value; otherwise the result names a listed field whose value differs |
| Callbacks.ProtectedAttributesValidator | callbacks.go:92-125 | The validator itself. Its properties are stated by `Callbacks.ProtectedAttributesVerdict` |
| Callbacks.ProtectedAttributesVerdict | callbacks.go:92-125 | It passes for actions other than Create and Update. On Create it passes iff every protected field holds its default, and on Update iff every protected field equals the original. A failure to load the original is returned as a fatal error. Any other error is "Field f is protected" for a listed f |
| Callbacks.DependentScan | callbacks.go:147-160 | With a reachable store, the scan passes iff no listed collection has a document whose field equals the id; otherwise it reports "Resource has dependent resources". A store failure is fatal |
| Callbacks.DependentResourcesValidator | callbacks.go:139-165 | It passes for anything other than Delete. On Delete it passes iff no listed collection references the deleted id |
| Callbacks.VerifyScan | callbacks.go:186-205 | With a reachable store, the scan passes iff every reference is nil or names an existing document. Otherwise the error is "Missing required relationship f" for a listed f |
| Callbacks.VerifyReferencesValidator | callbacks.go:178-210 | It passes for actions other than Create and Update; on Create and Update its verdict is the reference scan of `Callbacks.VerifyScan` |
| Callbacks.NilReferencesAreSkipped | callbacks.go:190-193 | When every reference is nil, the validator passes without a lookup |
| Callbacks.NilScanPasses | callbacks.go:186-205 | A scan over nil references always passes |
| Callbacks.QueryMatchesReferences | callbacks.go:238-253 | With distinct target fields other than `_id`, a document matches the built query iff it holds the main reference as `_id` and every target field matches the model's value |
| Callbacks.QueryKeys | callbacks.go:238-253 | The built query's keys are `_id` and the target fields |
| Callbacks.MatchingReferencesValidator | callbacks.go:223-268 | It passes for actions other than Create and Update and for a nil main reference. A nil matched reference gives "Missing ID". Otherwise a store failure is fatal, and it passes iff a document matches the query, failing with "References do not match" if none does |
| Flame.StaticGrantsForEveryClient | flame/policy.go:131-141 | Every client gets exactly the five given flags and no error |
| Flame.DefaultRedirectURIValidator | flame/policy.go:145-152 | The URI is returned unchanged iff the client accepts it; otherwise the result is "" with the invalid-redirect-URI error |
| Flame.DefaultGrantStrategy | flame/policy.go:155-162 | Only the empty scope is granted, unchanged; any other scope gives the invalid-scope error and no scope |
| Flame.DefaultApproveStrategy | flame/policy.go:172-174 | Every approval is rejected |
| Flame.DefaultTokenData | flame/policy.go:177-185 | With an owner the data is exactly {"user": owner id}; without an owner there is no data |
| Flame.DefaultPolicy | flame/policy.go:189-209 | Lifespans are one hour (access), seven days (refresh) and one minute (authorization code), with no approval URL and token data set |
| Flame.DefaultPolicyGrantsNothing | flame/policy.go:189-209 | The default policy enables no grant for any client and grants no non-empty scope. It rejects every approval, accepts exactly the redirect URIs the client accepts, and puts the owner's id in the token data |
| Flame.IssueKey | flame/policy.go:213-229 | The signed key carries the token's id and expiry, and extra data only when the policy has a token data function |
| Flame.IssueAsWritten | flame/policy.go:212-238 | Issue as written: the signed key with no error, and an empty token with no error when signing fails. Stated by `Flame.IssueSwallowsNotaryError` |
| Flame.Issue | flame/policy.go:212-238 | A signed key is returned with no error; a notary failure is reported as an error with an empty token |
| Flame.IssueSwallowsNotaryError | flame/policy.go:232-235 | As written, a failing notary makes Issue report success with an empty token, where the corrected Issue reports the failure |
| Flame.IssueAgreesWhenSigned | flame/policy.go:212-238 | Whenever the notary signs, the written and the corrected Issue agree and return the signed key |
| Coal.TrimDash | coal/index.go:97-100 | Exactly one leading dash is removed, if there is one; any other field is unchanged |
| Coal.ToSortKey | coal/index.go:75-82 | A field with a leading dash sorts descending, any other ascending, keyed by the translated field without its dash |
| Coal.Int32 | coal/index.go:37-39 | Go's int32 conversion: the result is in the 32-bit signed range, congruent to the input modulo 2^32, and equal to the input when that is in range |
| Coal.Compile | coal/index.go:32-51 | Keys and uniqueness are copied, background is always on, expire-after-seconds is set iff the expiry is positive, and the partial filter is copied |
| Coal.CompileExpiryInWholeSeconds | coal/index.go:37-39 | A positive expiry below 2^31 seconds compiles to its whole number of seconds, rounded down |
| Coal.Meta.constructor | coal/index.go:14-29 | A model starts with no indexes |
| Coal.Meta.AddIndexWithFilter | coal/index.go:71-110 | Exactly one index is appended and earlier entries are unchanged. Its fields are the inputs in order without their leading dash, its keys the matching sort keys, and uniqueness, expiry and filter are stored as given |
| Coal.Meta.AddIndex | coal/index.go:55-57 | Like addIndex, with no partial filter |
| Coal.Meta.AddPartialIndex | coal/index.go:61-69 | An empty filter panics and nothing is added. Otherwise exactly one index is appended, as addIndex registers it with that filter: the fields without their leading dash, the matching sort keys, and the given uniqueness and expiry |
| Coal.Meta.EnsureIndexes | coal/index.go:115-132 | The compiled indexes are submitted in order. The result is no error iff all were accepted; otherwise it is the first refusal, after which nothing more is submitted |
| Fire.Except | ash/policy.go:121-124 | The matcher holds exactly for the operations not listed |
| Fire.Context.constructor | tester.go:103-105 | A new context has every field at its zero value |
| Testing.TrimLeftSlashes | tester.go:77 | The result is a suffix of the input that does not start with a slash; everything dropped is slashes |
| Testing.TrimRightSlashes | tester.go:77 | The result is a prefix of the input that does not end with a slash; everything dropped is slashes |
| Testing.Trim | tester.go:77 | strings.Trim(s, "/"). Stated by `Testing.TrimKeepsInnerSlashes` |
| Testing.TrimStart | tester.go:77 | The number of slashes dropped at the front |
| Testing.TrimKeepsInnerSlashes | tester.go:77 | Trimming yields the slice of the input between the leading and trailing runs of slashes; it neither starts nor ends with a slash, and inner slashes are kept |
| Testing.TrimOfTrimmed | tester.go:77 | A string without slashes at its ends is left alone by trimming, also after one more leading slash |
| Testing.Path | tester.go:75-85 | The path always starts with "/". With a prefix it is "/" + prefix + "/" + the trimmed path; without one it is "/" + the trimmed path |
| Testing.PathIdempotent | tester.go:75-85 | Without a prefix, normalising a normalised path changes nothing |
| Testing.Tester.constructor | tester.go:35-41 | A new tester has no prefix, an empty header, the background context and the given store |
| Testing.Tester.Clean | tester.go:63-72 | The header is reset to empty and the context to background; prefix and store stay |
| Testing.Tester.Prepare | tester.go:107-168 | Context, data, operation, store, selector and filters get their defaults only when unset, and set ones are untouched. The tracer is rooted at "fire/Tester.RunHandler", and everything else stays |
| Testing.Tester.SetMissing | tester.go:107-125 | Context, data, operation and store get their defaults only when unset, and nothing else changes |
| Testing.Tester.InitQueries | tester.go:132-167 | Selector and filters become empty only when unset and the tracer is rooted at "fire/Tester.RunHandler"; nothing else changes |
| Testing.Tester.RunHandler | tester.go:101-173 | The given context, or a new one, is returned with every default in place. A new context gets exactly the defaults; a given one keeps every field that was already set and every field the defaults do not touch. The handler's error is returned |
| Testing.PrepareTwice | tester.go:107-138 | Preparing a context twice leaves it exactly as preparing it once does |

## Left out

- HTTP and I/O. Upload and download actions and multipart parsing are not modelled, nor request recording, the response writer and the JSON:API request built by `RunHandler`, nor the tester's `Request`, `Assign` and `RunCallback`.
- The blob service, the notary's signing and verification, and `Policy.Verify` are not modelled; their outcomes are parameters (the claim and view keys as maps to file ids, the issued keys and the blob-service errors as functions or options).
- The worker pool, queue, claim and reaper code of axe is not part of this model. The claim, conclude and reap transitions are this model's assumption about that code.
- Concurrency between workers, and between cleanup and other writers, is not modelled. Cleanup takes the records its query found as a possibly stale input, so that the guard-miss branch stays reachable.
- Database errors other than the store failure of the validators are not modelled; neither are the lock store's own errors, the index creation errors of `Compile`, and translator panics. Mongo's modified count is read as "the record changed".
- The Validator's check that the context uses the storage's own store, its collection of link fields when none are named, and the final blob-service cleanup of `Cleanup` are left out.
- `coal.Init`, the tracer's spans beyond the push and pop in `ash.A`, `GetFields`/`GetProperties` getters and `SelectPublic` are left out.
- The value of `ash:identity`, the identity data key, is declared in a file that is not part of this model; the model uses that string.
- Testing.Tester.RunHandler: the handler is given by the error it returns. What it does with the context is not modelled.
- Axe.Run: the retry delay is a non-negative number of nanoseconds, and each round claims at exactly the time the job becomes available again.
- Blaze.ValidatorSpec: returns no stored values when a field fails, whereas the Go code writes the field back before checking the error (blaze/storage.go:273 and :285), so a link claimed before a failing release is still in the model; the request is aborted by the error, so nothing is saved either way.
- Blaze.ValidatorSpec: accepts every operation and treats all but Delete like Update; the callback is registered only for Create, Update and Delete (blaze/storage.go:233), so other operations never reach it.
- Callbacks.ProtectedAttributesValidator: requires the listed fields to exist on the model and the original, because the Go code panics on a missing field.
- Callbacks.VerifyReferencesValidator: requires the listed fields to exist on the model, for the same reason.
- Callbacks.MatchingReferencesValidator: requires the reference and matched fields to exist on the model, for the same reason.
- Go map iteration order is unspecified; the maps handed to the validators and strategies are sequences of pairs in the order they are iterated.
- Ash.A: the handler is given by its decision; the enforcer itself is not run.
- Ash.Execute: a selector without an `_id` makes the Go type assertion panic; the model returns the error `Failure("interface conversion: missing _id")` instead.
- Axe.AddModelIndexes: the Go function registers the indexes on a `coal.Catalog`, whose code is not part of this model; the model registers them on the model's `Coal.Meta` with `AddIndex`, which stores the same index.
- Testing.Tester.Clean: the embedded coal tester's `Clean`, which drops the collections of the registered models, is not modelled; only the header and context reset are.

## Findings

| source | as written | input that shows it | evidently intended | confidence | as-written member | corrected member |
|---|---|---|---|---|---|---|
| flame/policy.go:232-235 | When the notary fails to sign the key, `Issue` returns an empty token and a nil error | Any token with a notary whose signing fails | The signing error is returned to the caller | not executed | Flame.IssueAsWritten, Flame.IssueSwallowsNotaryError | Flame.Issue |
