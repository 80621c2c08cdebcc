# py-libp2p: models and proofs

Dafny models of the parts of py-libp2p and its examples that keep real state, with
proofs about all inputs, all runs and all interleavings. `dafny verify
dfyconfig.toml` checks everything.

| files | what they model |
|---|---|
| `Json`, `Quotes` | JSON input, store requests, payment quotes and authorizations |
| `Tasks`, `TaskInvariants`, `Sending` | the A2A payment service as state transitions, what they keep, and exactly what each does |
| `Streaming`, `Rpc`, `Runs` | the streaming handler as a suspendable call, the JSON-RPC dispatcher, and whole runs of everything interleaved |
| `TaskService` | the service, handler and server as objects updated in place, proved against those transitions |
| `CertPaths`, `Certificates`, `CertRefinement`, `CertTiming` | the AutoTLS certificate manager: file names, cache and renewal tasks, refinement of a cacheless manager, timing |
| `CertificateManager` | the manager as an object |
| `Overlay`, `PairBattery` | the tree-shaped DHT overlay: join, warm-up, pair exam |
| `Transports` | transport selection and shared-port detection of `new_swarm` |
| `EncodingConfig` | the default encoding and its overrides |
| `Outcomes`, `Numbers`, `Lists`, `Text` | optional values and results, minimum and maximum, lists without repeats, text made of parts |

Foreign code appears as parameters about which nothing is assumed: digests (not
assumed injective), address parsing, UTF-8 encodability and supported encodings are
function values; clock readings, the network's behaviour, random shuffles and the
outcome of generating a certificate are arguments of the step they belong to.

## Where the code falls short of what one would expect

- `complete_working_task` is documented as completing a WORKING task. It looks only at
  the pending slot, and `cancel_task` leaves that slot filled, so called directly it
  revives a canceled task (`CanceledCanBeRevived`); exactly those
  (`CompleteWorkingOnTerminal`). The streaming handler is safe because it sends the
  message first (`FinishEvolves`, `TerminalIsForever`).
- A stream opened on a terminal task with a paying authorization first reports WORKING
  and only then raises (`StreamOnTerminalTask`); so does one whose message is not a user's,
  because the pre-check does not look at the role (`FinishOutcome`).
- Certificate file names are not unique even for domains without underscore and without
  the text `wildcard`, because `pathlib` collapses doubled slashes: two such domains share
  a file exactly when they are equal up to repeated slashes (`CertPathInjective`).
  None of the three exclusions can be dropped anywhere in a domain (`CollidingDomains`).
  Any clash makes cache and storage differ (`ClashingKeysDiverge`), and distinct files are
  exactly what keeps them equal (`DistinctPathsExactly`).
- A write that breaks off leaves the old certificate in the cache and an unreadable file:
  cache and storage part exactly when the key is cached at that moment, also in a renewal
  (`NextRefines`, `CoherentExactlyWhenTame`).
- A failed renewal leaves its certificate cached with nothing to renew it
  (`FailedRenewalAbandons`).
- Shared-port detection asks for the ip4 value first. The multiaddr library raises when
  there is none (libp2p/network/connection_gate.py:48-60 relies on that), the handler
  skips the address, and so ip6 addresses never get a demultiplexer
  (`PortSharedOnIp4Only`); exactly the ip4 ones do (`SharedOnPaper`).
- With `enable_quic` and no listen addresses the flags decide, so QUIC is then not alone;
  it replaces the list only when addresses were given (`WhichTransports`).
- Overlapping override blocks of two threads leave the first override in force for good
  (`OverlapLeaks`), as the module's own warning suggests.

## Model

| member | source | states |
|---|---|---|
| `Quotes.NormalizeRoundTrip` | examples/request_response/a2a_payment_service.py:548-603 | Normalization accepts only requests within the limits, rejects with at least one error, and is undone by spelling the request out: the acceptable requests are exactly those it can produce. |
| `Quotes.NormalizeExact` | examples/request_response/a2a_payment_service.py:548-603 | A payload yields a request exactly when it says it, integers as integers or whole floats and the fields it leaves out at their defaults (2 copies, no CDN, rate 1, 2880 epochs, USDFC), and the request is within the limits. |
| `Quotes.NormalizeErrorsExact` | examples/request_response/a2a_payment_service.py:548-603 | A rejection names everything that is wrong with the payload and nothing else. |
| `Json.CoerceIntExact` | examples/request_response/a2a_payment_service.py:893-900 | A value counts as an integer exactly when it is one or is a float without a fraction; booleans do not. |
| `Json.OptionalStringExact` | examples/request_response/a2a_payment_service.py:886-890 | An optional string is there exactly when it is a non-empty string. |
| `Quotes.ValidateExact` | examples/request_response/a2a_payment_service.py:696-722 | The validator reports no error exactly for authorizations that are approved, name a parseable payer, cover the quoted deposit and use the quoted token. |
| `Quotes.AuthErrorsExact` | examples/request_response/a2a_payment_service.py:696-722 | The validator names everything that is wrong with an authorization and nothing else. |
| `Quotes.QuoteSays` | examples/request_response/a2a_payment_service.py:617-641 | Fixed lockup: the least number of 127-byte units that hold the size, times copies. Streaming lockup: rate times epochs times copies. Deposit: their sum; with token, rate, epochs, task id and rail id in their places. |
| `Quotes.StreamingLockupLaws` | examples/request_response/a2a_payment_service.py:625 | The streaming lockup is additive in rate, in epochs and in copies, and is one for one of each. |
| `Quotes.FixedLockupLaws` | examples/request_response/a2a_payment_service.py:617-624 | The fixed lockup is additive in copies. |
| `Quotes.IdsFollowDigest` | examples/request_response/a2a_payment_service.py:729-734 | Task ids tell request digests apart, and a context id carries the digest of its task. |
| `Quotes.UnitsAreLeast` | examples/request_response/a2a_payment_service.py:617-623 | The fixed lockup counts the least number of 127-byte units that hold the declared size. |
| `Quotes.DepositMonotone` | examples/request_response/a2a_payment_service.py:617-626 | Deposit and fixed lockup never fall when size, copies, rate or epochs grow. |
| `Quotes.DepositAdditiveInCopies` | examples/request_response/a2a_payment_service.py:617-626 | The deposit for m + n copies is the deposit for m plus the deposit for n. |
| `Quotes.SplittingNeverCheaper` | examples/request_response/a2a_payment_service.py:617-624 | Splitting the declared size in two never lowers the fixed lockup. |
| `Quotes.FixedLockupBound` | examples/request_response/a2a_payment_service.py:617-624 | For every accepted request the fixed lockup lies between 1 and 3 * 2^23, and the bound is reached only with three copies. |
| `Quotes.AuthorizationCoversSmaller` | examples/request_response/a2a_payment_service.py:606-722 | An authorization accepted for one request is accepted for every request that is no larger and uses the same token. |
| `Tasks.ResultAccountsForCopies` | examples/request_response/a2a_payment_service.py:762-828 | Every requested copy is stored or failed; the result is complete exactly for one or two copies; the copies sit at the healthy providers in catalog order. |
| `Tasks.ResultNamesProviders` | examples/request_response/a2a_payment_service.py:762-828 | Which provider holds which copy under which piece and data set ids, which one fails, and what the result repeats of request and quote. |
| `Tasks.OpenStates` | examples/request_response/a2a_payment_service.py:449-455 | A task is open exactly when it waits for its payment or is WORKING. |
| `TaskInvariants.ForceCompleteKeeps` | examples/request_response/a2a_payment_service.py:207-252 | Completion keeps the invariant on every record, whatever the state of the completed one. |
| `TaskInvariants.CancelKeeps` | examples/request_response/a2a_payment_service.py:293-316 | So does canceling, which leaves the pending completion in place. |
| `TaskInvariants.CreateKeeps` | examples/request_response/a2a_payment_service.py:340-436 | So does creating, also when it replaces a record under the same id. |
| `TaskInvariants.ContinueKeeps` | examples/request_response/a2a_payment_service.py:438-545 | So does a follow-up message: with a paying authorization it becomes the pending one, without one the earlier pending one stays the last that paid. |
| `TaskInvariants.ListKeeps` | examples/request_response/a2a_payment_service.py:254-278 | So does listing. |
| `Sending.PayloadExact` | examples/request_response/a2a_payment_service.py:831-843 | A message is readable exactly when it is a user's and its first part is a JSON object. |
| `Sending.StoreIsFiled` | examples/request_response/a2a_payment_service.py:405-436 | A store request is answered with a new task that waits for its payment and is filed with its request, quote and this one message, at the end of the order if its id is new; no other task and no deadline changes. |
| `Sending.EveryRequestCanBeStored` | examples/request_response/a2a_payment_service.py:340-436 | Every acceptable, encodable request can be stored. |
| `Sending.UnnamedMessage` | examples/request_response/a2a_payment_service.py:171-183 | A message that names no task is accepted exactly when it is a store request, and otherwise is a ValueError that changes nothing. |
| `Sending.NamedMessage` | examples/request_response/a2a_payment_service.py:438-545 | A message to a task: ValueError exactly when unreadable, KeyError exactly when the task is missing, RuntimeError exactly when it is terminal, all without a change; otherwise it is appended, the state is WORKING exactly when it pays, and pending completion and deadline follow. |
| `Sending.ReadExact` | examples/request_response/a2a_payment_service.py:185-205 | A read changes a task exactly when it is WORKING and its deadline has come, and then completes it with the pending payment. |
| `Sending.CancelExact` | examples/request_response/a2a_payment_service.py:293-316 | A cancellation changes state and stamp of an open task and nothing else. |
| `Sending.CompleteExact` | examples/request_response/a2a_payment_service.py:280-291 | A forced completion completes what is pending, changes nothing if nothing is, and touches no other task. |
| `TaskInvariants.WorkingUntilDeadline` | examples/request_response/a2a_payment_service.py:185-205 | A WORKING task has a deadline; a read shows it WORKING exactly while the deadline is ahead and COMPLETED from then on. |
| `TaskInvariants.CompletedWasPaid` | examples/request_response/a2a_payment_service.py:207-252 | A completed task shows an authorization that pays for its own quote and that some message after the creating one carried. |
| `TaskInvariants.CompletedShowsReceipt` | examples/request_response/a2a_payment_service.py:644-693 | Its two artifacts are an approved payment of the two lockups and the deposit of its request by the parseable payer of its authorization, and a receipt on the same rail that accounts for every requested copy. |
| `TaskInvariants.SortIsStable` | examples/request_response/a2a_payment_service.py:274-277 | The listing order is newest first, a rearrangement, and stable among equal timestamps. |
| `TaskInvariants.PickExact` | examples/request_response/a2a_payment_service.py:265-272 | A context filter keeps the tasks of that context, a status filter those in the state of that name, an empty filter everything; artifacts are dropped exactly when not asked for. |
| `TaskInvariants.ListIsEveryGet` | examples/request_response/a2a_payment_service.py:254-278 | Listing at an instant returns the filtered, stably sorted collection of what get_task returns for every id at that instant, and leaves every record as that get_task would. |
| `TaskInvariants.CompleteWorkingOnTerminal` | examples/request_response/a2a_payment_service.py:280-291 | On a terminal task, complete_working_task changes the state exactly when the task was canceled with a completion pending. |
| `TaskInvariants.CanceledCanBeRevived` | examples/request_response/a2a_payment_service.py:280-316 | Cancel followed by complete_working_task turns every WORKING task COMPLETED: the service alone does not keep CANCELED final. |
| `Streaming.PreCheckAgreesWithService` | examples/request_response/a2a_http_payment_demo.py:309-333 | For a task that reads as non-terminal, the streaming pre-check passes exactly when the service would accept the same message, which is exactly when its authorization pays for the record's quote. |
| `Streaming.AcceptedStream` | examples/request_response/a2a_http_payment_demo.py:309-352 | Left alone, an accepted stream yields one WORKING task, the payment and storage artifacts, and a COMPLETED status, and returns. |
| `Streaming.UnnamedStream` | examples/request_response/a2a_http_payment_demo.py:300-307 | Left alone, a stream whose message names no task yields exactly the task the service files and returns, or raises InvalidParams and changes nothing. |
| `Streaming.UnpaidStream` | examples/request_response/a2a_http_payment_demo.py:309-360 | Left alone, a stream for a task its message does not pay for yields exactly the task the service returns, AUTH_REQUIRED; TaskNotFound exactly for a missing task, InvalidParams for an unreadable message, UnsupportedOperation for a terminal task. |
| `Streaming.FinishUnpaid` | examples/request_response/a2a_http_payment_demo.py:333-352 | An accepted message that does not pay for the quote it meets later leaves AUTH_REQUIRED and a lone status event, or completes with an earlier pending payment. |
| `Streaming.FinishOutcome` | examples/request_response/a2a_http_payment_demo.py:333-351 | The three outcomes of resuming an accepted stream, each with its exact condition. |
| `Streaming.WorkingForHalfASecond` | examples/request_response/a2a_payment_service.py:192-205 | A paying message keeps its task WORKING for exactly half a second of monotonic time; any later read shows it COMPLETED. |
| `Streaming.StreamOnTerminalTask` | examples/request_response/a2a_http_payment_demo.py:309-334 | On a terminal task a paying stream yields a WORKING copy and then raises the service's RuntimeError, a non-paying one raises UnsupportedOperation; neither changes anything. |
| `Streaming.ResumeKeeps` | examples/request_response/a2a_http_payment_demo.py:289-360 | Every piece of a streaming call between two yields keeps the invariant. |
| `Rpc.EveryRequestAnswered` | examples/request_response/a2a_payment_protocol.py:28-127 | Every JSON value sent as a request gets a response with exactly one of result and error and with the request's id (section 5 of the JSON-RPC 2.0 Specification); an error response leaves tasks, histories, pending slots and deadlines unchanged. |
| `Rpc.RejectedRequests` | examples/request_response/a2a_payment_protocol.py:29-42 | Non-objects, wrong versions and methods that are no strings are invalid requests; a well-formed request is answered with method-not-found exactly when its method is none of the five. |
| `Rpc.CancelOutcome` | examples/request_response/a2a_payment_protocol.py:83-92 | CancelTask answers -32001 exactly for missing tasks, -32002 exactly for terminal ones, and otherwise returns the canceled task. |
| `Rpc.FollowUpOutcome` | examples/request_response/a2a_payment_protocol.py:64-72 | A follow-up message answers -32001 exactly for missing tasks, -32004 exactly for terminal ones, and otherwise appends itself to the history. |
| `Rpc.SendOutcome` | examples/request_response/a2a_payment_protocol.py:64-72 | SendMessage answers with the task the service returns, or -32001, -32004 and -32602 for its KeyError, RuntimeError and ValueError, and leaves the service's state. |
| `Rpc.GetOutcome` | examples/request_response/a2a_payment_protocol.py:73-82 | GetTask answers with what a read at that instant shows and leaves what it leaves; -32001 exactly for a missing task, -32602 without an id. |
| `Rpc.ListOutcome` | examples/request_response/a2a_payment_protocol.py:93-117 | ListTasks answers with the listing for its context and status filters and its length twice; artifacts are included by default. |
| `Rpc.OtherOutcomes` | examples/request_response/a2a_payment_protocol.py:52-92 | CancelTask without an id is invalid; GetAgentCard answers with the card; neither changes anything. |
| `Rpc.Parameters` | examples/request_response/a2a_payment_protocol.py:44-50 | Missing and null parameters are no parameters; anything else that is no object is invalid. |
| `Rpc.RequestKeeps` | examples/request_response/a2a_payment_protocol.py:28-127 | Every request keeps the invariant. |
| `Runs.EveryReachableTaskIsPaidFor` | examples/request_response/a2a_payment_service.py:207-252 | In every state reachable by any interleaving of handlers, requests and streams: history and quote of task and record agree, pending and completed tasks carry the last paying authorization after the creating message, WORKING implies a pending completion and a deadline. |
| `Runs.FinishEvolves` | examples/request_response/a2a_http_payment_demo.py:333-334 | Because the message is sent before the completion is forced, resuming a stream never touches a terminal task, and leaves request and quote of every other task alone. |
| `Runs.SendEvolves` | examples/request_response/a2a_payment_service.py:171-183 | An accepted store request with the same id starts a task over; any other message leaves its request, quote and context, only extends its history, and does not touch it if it is terminal. |
| `Runs.EffectEvolves` | examples/request_response/a2a_http_payment_demo.py:223-360 | So does any step of either entrypoint. |
| `Runs.TasksOnlyEvolve` | examples/request_response/a2a_http_payment_demo.py:223-360 | In every run and every continuation of it, until a store request with the same id replaces it, a task keeps request, quote and context, its history only grows, and once terminal it does not change. |
| `Runs.QuoteIsFixed` | examples/request_response/a2a_payment_service.py:606-642 | A task's quote changes in no run that leaves the task unreplaced, and in no run at all if no two requests share a task id. |
| `Runs.AcceptedCallOutcome` | examples/request_response/a2a_http_payment_demo.py:309-352 | Whatever runs between the acceptance of a stream and its next resumption, the call then completes the task with its own authorization, or raises and changes nothing: RuntimeError exactly when the task is terminal by then, ValueError exactly when the message is not a user's. |
| `Runs.TerminalIsForever` | examples/request_response/a2a_http_payment_demo.py:258-360 | In every run and every continuation of it, a COMPLETED or CANCELED task stays exactly as it is until a store request with the same id replaces it. |
| `Runs.ReadsComplete` | examples/request_response/a2a_http_payment_demo.py:223-288 | After a read, a subscription or a listing no task it looked at is overdue. |
| `Runs.EntrypointsAgree` | examples/request_response/a2a_payment_protocol.py:52-92 | The JSON-RPC methods do to the store what the HTTP handlers do, and opening a stream only adds the call. |
| `Runs.PurchaseCompletes` | examples/request_response/a2a_payment_service.py:171-252 | From every reachable store: a store request, a message that pays for it and a read half a second later leave the task COMPLETED with that payment and those two messages. |
| `TaskServices.BuildSimulatedStorageResult` | examples/request_response/a2a_payment_service.py:762-828 | The catalog loop computes the simulated result. |
| `TaskServices.TaskService.ForceComplete` | examples/request_response/a2a_payment_service.py:207-252 | In-place completion of one record is the completion step of the state. |
| `TaskServices.TaskService.TryCompletePending` | examples/request_response/a2a_payment_service.py:192-205 | In-place completion of a due record, and of no other. |
| `TaskServices.TaskService.GetTask` | examples/request_response/a2a_payment_service.py:185-190 | The read and the state it leaves. |
| `TaskServices.TaskService.ListTasks` | examples/request_response/a2a_payment_service.py:254-278 | The loop over the dictionary computes the listing and the state it leaves. |
| `TaskServices.TaskService.CompleteWorkingTask` | examples/request_response/a2a_payment_service.py:280-291 | Forced completion of a task by id. |
| `TaskServices.TaskService.CancelTask` | examples/request_response/a2a_payment_service.py:293-316 | Cancels in place; missing and terminal tasks are reported and nothing changes. |
| `TaskServices.TaskService.BuildStreamingWorkingTask` | examples/request_response/a2a_payment_service.py:318-338 | A WORKING copy that leaves the stored task alone. |
| `TaskServices.TaskService.CreateTaskFromMessage` | examples/request_response/a2a_payment_service.py:340-436 | Files a new record, or rejects without a change. |
| `TaskServices.TaskService.ContinueTask` | examples/request_response/a2a_payment_service.py:438-545 | Appends to the history, then rejects, or sets the task WORKING with pending completion and deadline. |
| `TaskServices.TaskService.SendMessage` | examples/request_response/a2a_payment_service.py:171-183 | Routes a message to creation or continuation; role and payload errors change nothing. |
| `TaskServices.RequestHandler.ResumeStream` | examples/request_response/a2a_http_payment_demo.py:289-360 | Runs a streaming call to its next yield exactly as the machine says. |
| `TaskServices.RequestHandler.StartStream` | examples/request_response/a2a_http_payment_demo.py:295-332 | From the start to the first yield. |
| `TaskServices.RequestHandler.FinishStream` | examples/request_response/a2a_http_payment_demo.py:333-351 | From the WORKING event to the first update. |
| `TaskServices.DemoServer.Dispatch` | examples/request_response/a2a_payment_protocol.py:52-127 | Method dispatch and the mapping of exceptions to error codes. |
| `TaskServices.DemoServer.ProcessRequest` | examples/request_response/a2a_payment_protocol.py:28-127 | Envelope checks, dispatch, response. |
| `CertPaths.WordIsLiteral` | examples/autotls_browser/certificate_manager.py:258 | An occurrence of `wildcard` at the front of an encoded domain that does not start with a star is literally in the domain: `wildcard` cannot overlap itself. |
| `CertPaths.EncodeRoundTrip` | examples/autotls_browser/certificate_manager.py:258 | A domain without underscore and without `wildcard` can be read back from its encoding. |
| `CertPaths.PathsCoincide` | examples/autotls_browser/certificate_manager.py:256-259 | Two keys with base58 peers share a file exactly when the peers are equal and the encoded domains are equal up to repeated slashes. |
| `CertPaths.CollapseEncode` | examples/autotls_browser/certificate_manager.py:256-259 | Replacing dots and stars commutes with the collapsing of slashes. |
| `CertPaths.CertPathInjective` | examples/autotls_browser/certificate_manager.py:256-259 | For domains without underscore and without `wildcard`, two keys share a file exactly when the peers are equal and the domains are equal up to repeated slashes. |
| `CertPaths.CleanDomainsNeverShare` | examples/autotls_browser/certificate_manager.py:256-259 | So without doubled slashes distinct keys never share a file. |
| `CertPaths.PlainPath` | examples/autotls_browser/certificate_manager.py:256-259 | A domain without dots, stars and doubled slashes stands in its file name as it is. |
| `CertPaths.CollidingDomains` | examples/autotls_browser/certificate_manager.py:256-259 | Wherever in a domain it stands and whatever the peer, a dot shares its file with an underscore, `*` with `wildcard`, and a doubled slash with a single one. |
| `Certificates.NextRegisters` | examples/autotls_browser/certificate_manager.py:192-254 | Every action keeps every uncancelled renewal task registered for its key, the key cached, and every registered scope alive. |
| `Certificates.GetReturnsValid` | examples/autotls_browser/certificate_manager.py:85-114 | get_certificate never returns an expired certificate, and has cached what it returns. |
| `Certificates.GetTouchesOwnKey` | examples/autotls_browser/certificate_manager.py:85-114 | It touches cache entry, file, registration and tasks of its own key only. |
| `Certificates.GetFromCache` | examples/autotls_browser/certificate_manager.py:87-91 | An unforced get returns a cached certificate that has not expired and changes nothing. |
| `Certificates.GetFromFile` | examples/autotls_browser/certificate_manager.py:93-101 | Otherwise it returns the one in the file if that has not expired, caches it and schedules its renewal. |
| `Certificates.GetMakesNew` | examples/autotls_browser/certificate_manager.py:103-114 | Otherwise, and always when forced, it makes one that is valid from now for the configured days, in cache and file and scheduled; a failed attempt changes at most the file. |
| `Certificates.ScheduleSparesCurrent` | examples/autotls_browser/certificate_manager.py:192-254 | Scheduling cancels the task registered so far unless that one is scheduling its own successor, cancels no other, and the new one sleeps until the threshold before expiry, or for a second. |
| `Certificates.RenewalReplaces` | examples/autotls_browser/certificate_manager.py:223-249 | A renewal whose time has come and that succeeds ends its task and leaves a new certificate in cache and file with its own renewal. |
| `Certificates.RenewalTouchesOwnKey` | examples/autotls_browser/certificate_manager.py:223-249 | However it ends, it touches its own key only. |
| `Certificates.SleepsUntilDue` | examples/autotls_browser/certificate_manager.py:223-227 | Before its time, or once cancelled, a renewal task does nothing. |
| `Certificates.CleanupKeepsValid` | examples/autotls_browser/certificate_manager.py:340-361 | Clean-up keeps exactly the cached certificates that have not expired, and drops registration and file of the others. |
| `Certificates.ShutdownSilences` | examples/autotls_browser/certificate_manager.py:61-65 | After a shutdown no renewal task is left to wake, and nothing else has changed. |
| `Certificates.CancelledTaskEnds` | examples/autotls_browser/certificate_manager.py:241-249 | A cancelled task ends and unregisters its own scope only. |
| `Certificates.OneRenewalPerKey` | examples/autotls_browser/certificate_manager.py:192-254 | In every run there is at most one uncancelled renewal task per key, the registered one, and only for cached keys. |
| `Certificates.CachedKeysAreTended` | examples/autotls_browser/certificate_manager.py:192-254 | In every run without shutdown and without failed renewals every cached key has exactly one uncancelled renewal task. |
| `Certificates.FailedRenewalAbandons` | examples/autotls_browser/certificate_manager.py:245-249 | A failed renewal leaves its key cached with no renewal task. |
| `Certificates.RevokeRemoves` | examples/autotls_browser/certificate_manager.py:395-415 | Revocation removes cache entry, registration, live task and file. |
| `Certificates.RevokedStaysAway` | examples/autotls_browser/certificate_manager.py:395-415 | After a revocation nothing but a new get_certificate for the key brings it back, in every run. |
| `CertRefinement.GetRefines` | examples/autotls_browser/certificate_manager.py:85-114 | For keys with distinct files, get_certificate returns and stores what a manager that reads only files would, however the attempt ends; the cache still equals the files exactly when it did not tear the file of a cached key. |
| `CertRefinement.NextRefines` | examples/autotls_browser/certificate_manager.py:223-240 | So does every action, renewals included: each is a step of the storage-only manager, and leaves cache equal to files exactly when it does not tear the file of a cached key. |
| `CertRefinement.CacheIsInvisible` | examples/autotls_browser/certificate_manager.py:85-114 | Along every run in which no step tears the file of a key cached at that time, the cache equals the files, the files are those of the storage-only manager, and any get_certificate returns what that manager would. |
| `CertRefinement.CoherentExactlyWhenTame` | examples/autotls_browser/certificate_manager.py:280-292 | The cache equals the files throughout a run exactly when no step of it tears the file of a cached key. |
| `CertRefinement.DistinctPathsExactly` | examples/autotls_browser/certificate_manager.py:256-259 | A set of keys has distinct files exactly when the cache equals the files after every run over those keys without such a torn write. |
| `CertRefinement.NamesWithDistinctPaths` | examples/autotls_browser/certificate_manager.py:256-259 | Keys with base58 peers and domains without underscore and `wildcard` have distinct files exactly when no two differ only by repeated slashes. |
| `CertRefinement.CleanKeysHaveDistinctPaths` | examples/autotls_browser/certificate_manager.py:256-259 | So keys without doubled slashes have distinct files. |
| `CertRefinement.ClashingKeysDiverge` | examples/autotls_browser/certificate_manager.py:256-259 | From any state, fetching new certificates for any two keys that share a file makes cache and files differ. |
| `CertRefinement.TornFileDiverges` | examples/autotls_browser/certificate_manager.py:280-292 | A file left unreadable makes cache and files differ exactly when its key is cached. |
| `CertRefinement.RevokedFileStaysAway` | examples/autotls_browser/certificate_manager.py:395-415 | With distinct files a revoked key's file stays away as well. |
| `CertTiming.RenewedInTime` | examples/autotls_browser/certificate_manager.py:207-214 | A valid certificate is renewed strictly before it expires exactly when it has more than one second left. |
| `CertTiming.RenewalSpacing` | examples/autotls_browser/certificate_manager.py:207-214 | Renewals are spaced by validity (days of 86400 seconds) minus threshold (hours of 3600), or by one second when the threshold is not smaller. |
| `CertTiming.NoCachedCertificateExpires` | examples/autotls_browser/certificate_manager.py:181-240 | If renewals fire on time and succeed, there is no shutdown, and files are loaded with more than a second left, then along every run no cached certificate ever expires. |
| `CertificateManagers.CertificateManager.GetCertificate` | examples/autotls_browser/certificate_manager.py:67-114 | Cache, then file, then a new certificate; cached and scheduled. |
| `CertificateManagers.CertificateManager.ScheduleRenewal` | examples/autotls_browser/certificate_manager.py:192-254 | Cancels the registered scope unless it is the current one, registers a new one and starts its task. |
| `CertificateManagers.CertificateManager.RenewCertificate` | examples/autotls_browser/certificate_manager.py:223-249 | A renewal task from wake-up to end. |
| `CertificateManagers.CertificateManager.FinishRenewal` | examples/autotls_browser/certificate_manager.py:247-249 | Unregisters a task's scope only if it is still the registered one. |
| `CertificateManagers.CertificateManager.CollectExpired` | examples/autotls_browser/certificate_manager.py:342-346 | Finds exactly the expired cached keys. |
| `CertificateManagers.CertificateManager.CleanupExpiredCertificates` | examples/autotls_browser/certificate_manager.py:340-361 | The loop drops exactly the expired keys from cache, files and registry and cancels their tasks. |
| `CertificateManagers.CertificateManager.RevokeCertificate` | examples/autotls_browser/certificate_manager.py:395-417 | Drops one key everywhere. |
| `CertificateManagers.CertificateManager.Shutdown` | examples/autotls_browser/certificate_manager.py:61-65 | Cancels exactly the registered scopes and unregisters none. |
| `Overlay.DepthIsLog` | examples/dht_chat/dht_chat.py:422 | The number of parents above peer i is the whole part of log2(i + 1). |
| `Overlay.AncestorsExact` | examples/dht_chat/dht_chat.py:480-489 | The climb from i meets exactly the proper ancestors of i, as many as its depth, and ends at the root. |
| `Overlay.JoinPeer` | examples/dht_chat/dht_chat.py:421-439 | A peer joins exactly when one of its eight attempts succeeds. |
| `Overlay.RunLevel` | examples/dht_chat/dht_chat.py:447-450 | A level's attempts all run, in any order, at most the limit at a time, each once and after its parent's. |
| `Overlay.NextLevel` | examples/dht_chat/dht_chat.py:451-456 | The loop computes the children of the level that are in the network. |
| `Overlay.ChildrenOfRange` | examples/dht_chat/dht_chat.py:451-456 | Consecutive peers have consecutive children, so the levels tile the network. |
| `Overlay.JoinOverlay` | examples/dht_chat/dht_chat.py:414-456 | For every size the join terminates, attempts each peer 1..N-1 exactly once after its parent's attempt has ended, at most 8 at a time from 200 peers on and else at most 16, ok + fail = N - 1, exactly the peers that can join have joined, and no failure is counted exactly when all have. |
| `Overlay.ParentsFirst` | examples/dht_chat/dht_chat.py:447-456 | In such a log the entry that ends the parent's attempt comes before the one that begins the child's. |
| `Overlay.BeginsOnce` | examples/dht_chat/dht_chat.py:447-456 | In such a log no attempt begins twice. |
| `Overlay.AllReachRoot` | examples/dht_chat/dht_chat.py:414-456 | When all have joined every peer reaches the root through joined parents in floor(log2(i + 1)) hops. |
| `Overlay.Climb` | examples/dht_chat/dht_chat.py:478-489 | One climb hands the peer to its ancestors and to nobody else. |
| `Overlay.WarmUp` | examples/dht_chat/dht_chat.py:475-489 | Every joined peer is handed to exactly its ancestors, once each. |
| `Overlay.WarmUpReachesAncestors` | examples/dht_chat/dht_chat.py:475-489 | So exactly the proper ancestors, the root among them, know peer i, after floor(log2(i + 1)) add_peer calls. |
| `PairBattery.PairCountExact` | examples/dht_chat/dht_chat.py:340-350 | The pair count is rejected exactly for networks below two peers or requests below one; a request is clamped to N(N-1); the default is min(N(N-1), max(N, 10), 40), spelled out for every N. |
| `PairBattery.ChosenPairs` | examples/dht_chat/dht_chat.py:517-520 | However the shuffle falls, the chosen pairs are distinct, directed, between joined peers, and min(count, j(j-1)) >= 1 in number. |
| `PairBattery.PayloadsDiffer` | examples/dht_chat/dht_chat.py:534 | No two attempts of a run have the same payload. |
| `PairBattery.PayloadSays` | examples/dht_chat/dht_chat.py:534 | The text of a payload. |
| `PairBattery.Waiters.Handle` | examples/dht_chat/dht_chat.py:383-397 | A handler sets and removes the waiter of the data it read, and no other. |
| `PairBattery.Waiters.HandleAll` | examples/dht_chat/dht_chat.py:383-397 | While one payload is awaited, its event is set exactly when that payload arrives. |
| `PairBattery.Waiters.Attempt` | examples/dht_chat/dht_chat.py:534-568 | An attempt succeeds exactly when the network delivers its own payload, and leaves no waiter behind. |
| `PairBattery.RunPair` | examples/dht_chat/dht_chat.py:530-578 | Up to three attempts; one ok or one fail; latencies recorded accordingly. |
| `PairBattery.RunBattery` | examples/dht_chat/dht_chat.py:522-588 | ok counts exactly the pairs with a delivering attempt; ok + fail = pairs; len(msg_ms) = ok; ok <= len(lookup_ms) <= 3 * pairs; the recorded times are those of the attempts that found their peer and of those that delivered, in order; no waiter is left. |
| `Transports.BuildTransports` | libp2p/__init__.py:405-524 | The builder's loops and branches compute the transport list. |
| `Transports.Detect` | libp2p/__init__.py:414-469 | The detection loop computes the first occurrences of the classified addresses. |
| `Transports.FlagTransports` | libp2p/__init__.py:484-522 | The flag branch appends in its fixed order. |
| `Transports.FirstOccurrencesHold` | libp2p/__init__.py:466-469 | Detection names exactly the kinds that occur, each once. |
| `Transports.FirstOccurrencesInOrder` | libp2p/__init__.py:466-469 | In the order of their first occurrence. |
| `Transports.FlagsNeverTwice` | libp2p/__init__.py:484-522 | The flag list is in the fixed order, never empty, without repeats. |
| `Transports.FlagsNamed` | libp2p/__init__.py:484-522 | It names exactly what the flags ask for, and TCP when asked or when nothing else is. |
| `Transports.NeverEmptyNeverTwice` | libp2p/__init__.py:405-524 | Without an explicit list the result is never empty and never repeats a kind; building fails exactly when QUIC is asked for without a key pair. |
| `Transports.KindExact` | libp2p/__init__.py:420-461 | From the component names of an address: which names and absences give exactly which of the six transports, and which four need the key pair. |
| `Transports.WhichTransports` | libp2p/__init__.py:405-524 | From the names in the listen addresses to the list: QUIC alone when asked for and called for by no given address; else exactly the kinds the addresses call for, as far as the key allows; else the flag list. |
| `Transports.OneAddress` | libp2p/__init__.py:414-469 | A single address gets exactly the transport it calls for. |
| `Transports.GivenListWins` | libp2p/__init__.py:405-407 | An explicit list is taken as it is. |
| `Transports.DetectSharedPorts` | libp2p/__init__.py:724-755 | A key gets a demultiplexer exactly when a plain TCP and a WebSocket address are filed under it. |
| `Transports.SharingIgnoresOrder` | libp2p/__init__.py:724-755 | Whatever the order of the addresses. |
| `Transports.FiledUnderPaperKey` | libp2p/__init__.py:732-746 | An address is filed under the key its components spell exactly when it has an ip4 component. |
| `Transports.SharedOnPaper` | libp2p/__init__.py:724-755 | So a shared port gets its demultiplexer exactly when addresses with an ip4 component share it. |
| `Transports.PortSharedOnIp4Only` | libp2p/__init__.py:736-755 | A plain TCP and a WebSocket address on one host and port share a demultiplexer on ip4 and get none on ip6. |
| `Transports.LookupFindsFirst` | libp2p/__init__.py:736-740 | A lookup finds the first component of its name. |
| `Transports.SharedPortHasBothTransports` | libp2p/__init__.py:414-481 | A port with a demultiplexer has both TCP and WebSocket in the transport list when no address mixes WebSocket with QUIC or WebTransport, no explicit list is given and QUIC does not replace the list. |
| `EncodingConfig.AlwaysSupported` | libp2p/encoding_config.py:13-94 | In every interleaving of any threads the default and every saved value are supported. |
| `EncodingConfig.NestedOverridesRestore` | libp2p/encoding_config.py:87-94 | Code whose override blocks nest in one sequence of steps, over any threads and with sets inside, leaves the default its sets outside blocks leave, and every thread's saved values as they were. |
| `EncodingConfig.BlockRestores` | libp2p/encoding_config.py:87-94 | In every interleaving with other threads, also between a block's read and its write, the step that closes a block leaves as default the value the block itself read, for any nested code inside. |
| `EncodingConfig.OwnCodeRestores` | libp2p/encoding_config.py:87-94 | And nested code of one thread puts back whatever it saved, however others interleave. |
| `EncodingConfig.OverlapLeaks` | libp2p/encoding_config.py:87-94 | Two blocks that overlap without nesting leave the first override in force; the default comes back exactly if that override changed nothing. |
| `EncodingConfig.Encodings.SetDefaultEncoding` | libp2p/encoding_config.py:18-48 | Sets a supported encoding, rejects others without a change. |
| `EncodingConfig.Encodings.ReadPreviousEncoding` | libp2p/encoding_config.py:87 | Remembers the default for the block about to open and changes nothing else. |
| `EncodingConfig.Encodings.EnterOverride` | libp2p/encoding_config.py:88 | Opens a block, or rejects before it is entered. |
| `EncodingConfig.Encodings.LeaveOverride` | libp2p/encoding_config.py:91-94 | Restores what the innermost block saved. |

## Left out

- The Synapse storage backend, agent cards, push notifications, protobuf conversion and the
  texts and ids of status messages: foreign code or wording without a property of its own.
- Digest values, address syntax, X.509, PEM and JSON text: foreign code, taken as parameters.
- CPython's limits on converting very long integers to text and on recursion depth: inputs
  that hit them are rejected before any state changes.
- Timestamps within one call: all readings of a clock during one uninterrupted piece of code
  are the same reading.
- `get_ssl_context`, `get_certificate_info`, `list_certificates` and `start` of the certificate
  manager: reads and wiring that would add only easy members.
- Partial effects of a failed join attempt on routing tables, the seeding from live connections
  and the `find_peer` warm-up: calls into the DHT, whose code is not part of this model.
- Percentiles and progress output.
- Listening, dialing and everything else `new_swarm` and `new_host` do: they pass the computed
  lists on.
- The interactive chat commands and the remaining examples: they would add only easy members.
