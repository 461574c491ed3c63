# Session machinery of stripelink, modelled and proved in Dafny

The SDK lets any number of clients share one `AuthStorage`. Each client refreshes its access token in
the background, several clients may run device logins at the same time, and the store is a file that
other processes use too. This project models that machinery as it is written and proves what its
documentation promises about it, over every interleaving of callers, workers, cancellations, faults and
server answers. `dafny verify dfyconfig.toml` checks all of it.

## The parts

- `Session.dfy`: tokens, the pending flow, the stored state, and one transaction on it (`Transact`): run the
  callback, look at the context again, check and fill in, replace. 64-bit wrap-around is explicit.
- `MemoryStore.dfy`: the in-memory store as a class, proved against `Transact`.
- `Refresh.dfy`, `RefreshInvariant.dfy`, `RefreshSteps.dfy`, `RefreshTheorems.dfy`, `RefreshCompletion.dfy`: token
  refresh as a step machine over any number of clients, callers and workers. A world holds the list of all values the
  stored session has had, the sessions the server has issued with their origin, and every client's gate, call in
  flight, calls and callers. `Apply` makes one step, `Run` a list of them.
- `Tokens.dfy`: the token provider itself, with the fields its mutex protects. Each critical section is a method
  whose contract says that it makes exactly the corresponding move of the machine.
- `DeviceFlow.dfy`: the transactions of device authorization as a step machine over one store, with the
  wrapping generation, for a store in memory and for one in a file. `Auth.dfy`: the blocking operations with their
  loop, clock and replies, and with other clients using the store in between.
- `WebBotAuth.dfy`: the signature cache: a class over its three maps, proved against functions on their
  values, and the machine of all its callers.
- `FileStore.dfy`, `FileWrite.dfy`: the file store. Reading and writing go through a JSON library that is a
  record of functions with the laws that are used (`Codec.Lawful`); writing goes through a disk on which every
  operation may fail. `CodecWitness.dfy` builds a library that meets all the laws, so they do not contradict each other.
- `Gate.dfy`, `Expiry.dfy`, `Transport.dfy`, `Luhn.dfy`, `Utf8.dfy`: the one-token gate, expiry arithmetic, the
  retry loop, and the two loops that clean diagnostics.

Steps of the refresh machine and the lines they stand for, all in `tokens.go`: first look 70-76, gate 77-79,
second look 83-90, load 93-102, third look 104-147, release and launch 148-153, send 166, denied and reload
167-177, rejected 178-181, granted and commit 183-203, finish 207-217, collect and leave 219-254. Steps of the
device machine: reserve 73-80, answer 86-133, commit 134-143 and poll success 184-195 in `auth.go`, expired
resume 283-294 in `auth.go`, terminal clear 208-221 in `auth_tokens.go`, clear 69-81 in `memory_storage.go`,
clear of the file 292-308 in `storage.go`.

## What is assumed

- The server issues no access token, refresh token or device code twice. Stored and issued sessions carry a
  non-zero expiry, as `decodeAuthTokens` produces them (`Expiry.StorageAgreesWithTheEndpoint`); what happens without
  one is stated by `DeviceFlow.MissingExpirySupersedesItself` and `RefreshTheorems.MissingExpiryUndoesARefresh`.
- A token is reported as rejected only to the client that handed it out, which is what the request engine does
  (`transport.go:115`). `RefreshTheorems.ForeignTokenCanBeServedAgain` shows that this is needed.
- Only this SDK's own operations write the store. A storage transaction may work, fail without effect, or fail
  after its effect (a file whose directory could not be synced).
- Replies, clocks, cancellations and faults are inputs of the steps and methods.

## Where the code falls short of its promise

Each of these is proved, with the exact condition.

- A file may hold a session without an expiry. The next transaction fills it in, and that alone makes a login
  under way fail as superseded and makes a refresh under way discard the tokens it was granted.
- `FileStorage.Clear` restarts the generation at 1. A reservation made without a session can be committed after it
  exactly if no session is stored again by then and the number of bumps since the last clear, modulo 2^64-1, is one
  less than the generation it reserved. A login that was replaced or signed out of can so become pending after all
  (`DeviceFlow.FileClearLetsBothIn`). After `MemoryStorage.Clear` it takes a multiple of 2^64-1 bumps since the
  reservation.
- The poll interval grows in int64 nanoseconds without a check. The schedule is kept for all replies exactly if the
  slow-downs it takes to overflow cannot all be polled before the code expires, or an interval too long from the start
  wraps to one that outlasts the code (`Auth.PaceIsKeptExactly`). For a lifetime that fits in a Duration:
  `I` seconds fit and either `I+5` seconds fit or `I` seconds outlast the lifetime; or `I` seconds do not fit and the
  wrapped value outlasts it. With 9223372037 s the loop polls without waiting; with 9223372032 s and a
  lifetime of 9223372036 s it does so after the first slow-down (`Auth.PaceIsLost`).
- Writes do not check the size that reads enforce: a file of more than 1 MiB is written and can then not be read,
  exactly such a one (`FileStore.WrittenFileReadsBack`, with sessions that do it in
  `CodecWitness.LongSessionsCannotBeReadBack`).

## Model

| member | source | states |
|---|---|---|
| RefreshTheorems.RejectedTokenIsNotServedAgain | tokens.go:61-155 | in every run, a caller told the API that a token this client handed out was rejected and then got a token: it is a different one, also when the caller only joined a refresh that was running |
| RefreshTheorems.ForeignTokenCanBeServedAgain | tokens.go:69-75 | the hypothesis of the previous row is tight: for any two sessions there is a run in which a rejected token that did not come from this client is handed back |
| RefreshTheorems.ChainOfSessions | tokens.go:183-203 | every session a refresh wrote was obtained with the refresh token of exactly the session it replaced, and no two stored sessions share a token |
| RefreshTheorems.CommitWritesExactlyOverItsSource | tokens.go:186-199 | a commit writes if and only if nothing was stored, cleared or rotated since its source was loaded; otherwise the store keeps what it has, a cleared one included |
| RefreshTheorems.CommittedSourceIsNotSentAgain | tokens.go:77-153 | once a client's refresh of a session is stored, no later request of that client sends that session's refresh token |
| RefreshTheorems.SingleFlight | tokens.go:31-54 | at most one refresh per client is unfinished and it is the one in flight; `waiters` is the exact number of callers that joined and have not left; a caller about to decide holds the gate and sees no call |
| RefreshTheorems.ResultsWereStored | tokens.go:55-61 | every token handed out was the stored session's at some instant: after the caller began, or after the shared call's source was loaded and before the call was closed |
| RefreshTheorems.WaitersShareTheResult | tokens.go:219-254 | callers that stayed for the same call got the same result |
| RefreshTheorems.CommitServesWhatIsStored | tokens.go:183-204 | a commit without a fault offers its waiters what the store then holds: the refreshed session over its source, a session stored meanwhile otherwise, an error only over a cleared store; a fault is an error |
| RefreshTheorems.FailureServesANewerSession | tokens.go:167-177 | after a failed request the stored session is offered if and only if it was stored after the source, otherwise the error |
| RefreshTheorems.WorkerFollowsTheServer | tokens.go:165-205 | usable new credentials are committed, and over an undisturbed source they are stored and offered; unusable ones are an error |
| RefreshTheorems.RefreshCanSucceed | tokens.go:61-217 | over any stored session there is a run in which a forced call ends with the new token and the store holds it |
| RefreshTheorems.WaitersGetTheResult | tokens.go:219-254 | a waiter that collects gets exactly the access token or the error that was published |
| RefreshTheorems.LooksJoinTheCallInFlight | tokens.go:70-90 | a caller that finds a call in flight at its first or second look joins it and is counted |
| RefreshTheorems.CancelledWaiterLeavesTheWorkAlone | tokens.go:231-242 | a cancelled waiter changes no worker, no other caller and not the call in flight; every granted rotation is stored exactly as it would have been |
| RefreshTheorems.CancelledCallersAreTold | tokens.go:231-242 | a caller whose context ends can leave before it decides and while it waits for an unfinished call, and gets that error; a finished call is collected instead |
| RefreshTheorems.RotatesExactlyWhenNeeded | tokens.go:104-147 | in every reachable state the third section starts a call exactly when the loaded session is due or its token is the one rejected; for a token of the client's own exactly when the version it came from is the one loaded, so a delayed rejection never rotates a newer session and is answered with it |
| RefreshCompletion.RefreshCompletes | tokens.go:46-48 | in every reachable world a refresh that was started can be completed by its leader's and its worker's own steps, with every waiter idle or gone; then the client is free for the next refresh and every waiter can collect |
| RefreshCompletion.OwnStepsMakeProgress | tokens.go:57-60 | every own step of a call brings it nearer to its end, and no other step, a cancelled waiter's included, changes how far it is |
| RefreshCompletion.RunsMakeProgress | tokens.go:165-217 | in any run a call makes at most six own steps |
| RefreshCompletion.NextOwnStepIsEnabled | tokens.go:148-217 | an unfinished call always has an own step that is enabled, whatever everybody else has done |
| RefreshCompletion.WaitersCanCollect | tokens.go:219-254 | in every reachable world everybody who stayed for a finished call can collect its result |
| RefreshCompletion.CallersAreNeverStuck | tokens.go:61-155 | in every reachable world a caller can take its next step unless another one has the gate or the call it waits for is unfinished |
| RefreshTheorems.SwapIsATransaction | tokens.go:186-199 | the machine's commit is what the callback does as a storage transaction, and it leaves the pending flow and generation alone |
| RefreshTheorems.RotationIsACommit | tokens.go:186-199 | the rotation step of the device machine is the refresh's storage transaction over the stored session |
| RefreshTheorems.MissingExpiryUndoesARefresh | storage_codec.go:379-392 | a refresh overtaken by any successful transaction that leaves the session alone stores the new session if and only if its source carries an expiry; without one it serves the old access token |
| RefreshSteps.StepKeeps | tokens.go:61-254 | every step of every caller, worker, login and sign-out keeps the machine's invariant |
| RefreshSteps.ThirdLookKeeps | tokens.go:104-147 | the third critical section keeps the invariant: a started call is the only unfinished one and has one waiter |
| RefreshSteps.CollectActor | tokens.go:246-254 | the result a waiter collects differs from the token it reported, because it is a later version than the call's source |
| RefreshSteps.CommitLinks | tokens.go:186-199 | the compare-and-swap writes a session never stored before, directly after the one it exchanged |
| RefreshInvariant.WaitersMove | tokens.go:46-51 | a caller that joins or leaves a call changes the number of its waiters by one and no other call's |
| Tokens.TokenProvider.Look | tokens.go:70-90 | joins the call in flight and counts itself, or changes nothing: the machine's move |
| Tokens.TokenProvider.DecideUnderLock | tokens.go:104-153 | joins, answers or publishes a new call exactly as the machine's third section does |
| Tokens.TokenProvider.FinishRefresh | tokens.go:207-217 | publishes the result, closes the call and clears `inflight` only if it is this call |
| Tokens.TokenProvider.StopWaiting | tokens.go:219-244 | a cancelled waiter still gets a finished result, otherwise it leaves and is no longer counted |
| Tokens.CommitRefreshed | tokens.go:183-204 | on success the tokens returned are the ones stored, the refreshed ones if the source was still there; without a cancellation it succeeds over every stored session; a cleared session is an error; pending flow and generation stay |
| DeviceFlow.CommitsExactlyWhenUndisturbed | auth.go:134-143 | in every reachable state an initiation commits if and only if the session is the one at its reservation and the generation has come back: a multiple of 2^64-1 bumps since the reservation, or after a clear of the file bumps that lead from 1 to it; a refused commit leaves the store untouched |
| DeviceFlow.OldAndNewFlowExclude | auth.go:53-55 | flow A is pending when B reserves: in any run A is never pending again once B is, and both B becoming pending and A's poll storing tokens happens only if B was reserved without a session, the store was cleared since, and that was the file or 2^64-1 bumps lie between |
| DeviceFlow.FileClearLetsBothIn | storage.go:300-305 | the exception is real: a run in which A logs in, the file is cleared and B, reserved before, still becomes pending; the same run over memory refuses B |
| DeviceFlow.CodesStoreOnce | auth.go:184-192 | each device code stores tokens at most once, and a pending code has not stored any |
| DeviceFlow.StepsTouchOnlyTheirFlow | auth.go:184-192 | the exact store after every step: an initiation that has not committed advances only the generation, a poll stores tokens exactly for the pending code, terminal answers drop exactly that code and resumption exactly a flow whose expiry has passed |
| DeviceFlow.ReservationsRemember | auth.go:73-80 | a reservation captures the new generation and the session it found |
| DeviceFlow.BumpsAreCounted | storage_codec.go:205-210 | the bumps that the commit condition counts are exactly the steps that advance the stored generation |
| DeviceFlow.GenerationReturns | storage_codec.go:205-210 | a generation recurs exactly after multiples of 2^64-1 bumps |
| DeviceFlow.CommitKeeps | auth.go:134-143 | a commit keeps the flow invariant: codes stay distinct and no earlier pending code comes back |
| DeviceFlow.MissingExpirySupersedesItself | auth.go:73-80 | an undisturbed initiation over a file's state commits if and only if the stored session, if any, carries an expiry |
| Auth.AuthResource.InitiateDeviceAuth | auth.go:56-145 | whatever other clients do between reservation and commit: succeeds exactly for a well-formed answer with neither transaction cancelled and session and generation as reserved; then only the pending flow is replaced, with its absolute expiry, otherwise the store stays as the others left it |
| Auth.AuthResource.PollDeviceAuthOnce | auth.go:163-214 | status 400 with authorization_pending, slow_down, expired_token or access_denied gives exactly that outcome and no other reply does; tokens are stored exactly for the pending code, the terminal codes drop exactly this flow, everything else leaves the store alone |
| Auth.AuthResource.ClearTerminalPending | auth_tokens.go:208-221 | drops the pending flow only if it still has this code |
| Auth.AuthResource.PollDeviceAuth | auth.go:222-271 | requests go out exactly at `RequestTimes`, none at or after expiry, and on schedule whenever the pace can be kept; an undecided loop ends only by cancellation or because the next request would be too late; on top of what others did the store changes exactly by the granted tokens or by dropping this flow |
| Auth.AuthResource.PollTurn | auth.go:231-269 | a request is sent if and only if the code has not expired before and after the wait and the context lives; tokens are stored only for the flow still pending, expiry and denial drop exactly this flow |
| Auth.UndecidedIsPolledOn | auth.go:231-262 | while every reply is authorization_pending the loop sends the next request after the given interval until that would be too late, and the flow stays pending until then |
| Auth.RequestsFollowTheReplies | auth.go:252-256 | each request waits the interval and five seconds more for every slow_down so far |
| Auth.AuthResource.ResumeDeviceAuth | auth.go:278-308 | a flow whose expiry has passed is dropped and nothing is sent; any other pending flow is polled on its own interval and expiry with the same effect on the store |
| Auth.SlowedRequestsSpan | auth.go:216-221 | n requests of which n-1 were slowed take at least n*I + 5*n*(n-1)/2 seconds, which is less than the lifetime |
| Auth.RequestsAreFew | auth.go:229-251 | the number of requests times the interval is less than the lifetime, so polling ends |
| Auth.PaceIsKeptExactly | auth.go:229-270 | for every interval and lifetime: all replies are polled on schedule if and only if `KeepsPace` holds, with a script of slow-downs as the witness otherwise |
| Auth.PaceWithinADuration | auth.go:230 | for lifetimes that fit in a Duration the condition in closed form: only the conversion and the first slow-down can overflow |
| WebBotAuth.OneLiveCallPerHost | web_bot_auth.go:85-110 | a call in flight is unfinished, not cancelled and has a waiter; `waiters` is exact for every call; at most one unfinished uncancelled call per host |
| WebBotAuth.OnlyTheLastWaiterCancels | web_bot_auth.go:176-190 | work is cancelled if and only if its last waiter is cancelled before it completes; nobody waits for a cancelled call |
| WebBotAuth.AbandonedCallIsInert | web_bot_auth.go:192-211 | a cancelled call that completes after all changes neither the cache nor the calls in flight |
| WebBotAuth.BlocksAreGenuine | web_bot_auth.go:245-266 | every block handed out was bound to the caller's host and unexpired when validated; a cached one has more than 30 s left at the caller's time |
| WebBotAuth.RepliesReachTheWaiters | web_bot_auth.go:192-266 | the reply to a live call reaches every waiter: its block if and only if all five fields are there, it is bound to the host and unexpired, an error otherwise; it is cached if and only if more than 30 s remain |
| WebBotAuth.SignURLStartsACallExactlyWhenNeeded | web_bot_auth.go:84-106 | a caller is served the cached block at once if and only if it has more than 30 s left; a request is made if and only if there is none and no live call for the host exists; otherwise the caller joins that call; a stale block is dropped |
| WebBotAuth.AnswersAreCached | web_bot_auth.go:84-93 | after the valid answer to a live call, in every run in which no caller of the host samples its clock within 30 s of the expiry: no request is made for the host, and every caller of it is served that answer at once |
| WebBotAuth.WebBotAuthResource.EnterSection | web_bot_auth.go:82-107 | serves, joins or starts a call exactly as the machine's step, and drops a stale entry |
| WebBotAuth.WebBotAuthResource.ReleaseWaiter | web_bot_auth.go:176-190 | uncounts the waiter and abandons the call when the last one was cancelled |
| WebBotAuth.WebBotAuthResource.SignSection | web_bot_auth.go:192-211 | publishes the validated result; only the current call removes itself and fills the cache |
| MemoryStore.MemoryStorage.Transact | memory_storage.go:36-66 | one transaction: all three fields replaced together, or none |
| MemoryStore.MemoryStorage.Load | memory_storage.go:19-32 | the complete state, or the cancellation |
| MemoryStore.MemoryStorage.Clear | memory_storage.go:69-81 | session and pending flow go, the generation advances |
| Session.TransactKeepsPrepared | memory_storage.go:50-65 | a transaction moves only between checked states, and a failed one does not move the store |
| Session.TransactIsExact | memory_storage.go:50-65 | field by field when a transaction is accepted, what it stores, the expiry now + 1000 * seconds it fills in, and the error and unchanged store otherwise |
| Session.BlankIsExact | web_bot_auth.go:246-253 | which Latin-1 characters count as white space |
| Session.PrepareAuthExact | storage_codec.go:379-392 | a missing expiry is filled exactly when the sum fits in int64 and the clock is not negative, with that sum |
| FileStore.FileStorage.Transact | storage.go:258-289 | refines the in-memory transaction under "decode, then snapshot" for every plan of faults, up to the repair of invalid UTF-8; a failure leaves the file except after the rename; unknown keys survive |
| FileStore.FileStorage.Load | storage.go:243-254 | the state the file holds |
| FileStore.FileStorage.Clear | storage.go:292-308 | succeeds exactly if locked and, for an existing file, readable and nothing fails; the file then holds no session, no flow and generation 1; an absent one stays absent |
| FileStore.WrittenFileReadsBack | storage_codec.go:74-141 | what is written is accepted by the next read with the same snapshot if and only if it is at most 1 MiB |
| CodecWitness.LongSessionsCannotBeReadBack | storage_codec.go:84-90 | with a library that meets the laws, every session whose refresh token is longer than 1 MiB is written over any readable file and then refused by the read |
| FileStore.LoadedStateIsChecked | storage_codec.go:74-141 | only files of at most 1 MiB with complete records are read; an absent file reads as the empty state |
| FileStore.ReadingIsExact | storage_codec.go:98-157 | record by record when a file can be read and what it then says: absent and null are none, unparsable or incomplete is malformed |
| FileStore.UnreadableFiles | storage_codec.go:84-120 | a file over 1 MiB is too large, one that is not JSON is malformed |
| FileStore.EqualEncodingsEqualSnapshots | storage.go:276-287 | skipping a write because the encodings agree loses nothing |
| FileStore.SnapshotOfReplaced | storage_codec.go:143-182 | the snapshot of a replaced state is that state, with invalid UTF-8 repaired |
| FileStore.TextSurvives | storage_codec.go:159-182 | a state of valid text comes through a file unchanged |
| FileStore.UnknownKeysSurvive | storage_codec.go:159-182 | keys this SDK does not know keep their values in the new file |
| FileStore.SnapshotOfDefaults | storage_codec.go:122-140 | the defaults a decode fills in do not change the snapshot |
| FileStore.ClearAgreesWithMemory | storage.go:296-307 | clearing a file and clearing memory agree if and only if the generation was 0 or the largest |
| FileStore.ClearSupersedes | storage.go:300-305 | n bumps after a file clear a commit succeeds if and only if the session agrees and n modulo 2^64-1 is the reserved generation minus 1; n bumps after a memory clear if and only if the bumps since the reservation make full cycles |
| FileWrite.WriteStorageState | storage_codec.go:264-356 | at every step the destination holds the old bytes or the complete synced new ones; success if and only if nothing failed and no checkpoint saw a cancellation; errors keep the old bytes except for the directory sync; a temp file stays only if both removals failed |
| FileWrite.FillTemp | storage_codec.go:311-347 | up to the last look at the context only the temp file changes, and it ends complete and synced |
| FileWrite.Cleanup | storage_codec.go:288-306 | the temp file is gone unless both removals fail |
| Gate.StepConserves | storage.go:19-42 | every step keeps the tokens in the channel plus the owners at one |
| Gate.AtMostOneInside | storage.go:30-42 | in every run at most one user owns the token, and it can give it back without blocking, also when its context ended just after acquiring |
| Gate.TokenIsNeverLost | storage.go:30-40 | when nobody owns the token it is in the channel and every waiter can take it |
| Gate.WaitersGetIn | storage.go:30-42 | in every run a waiter that finds the token gets in if and only if its context lives, and its unlock restores the gate; otherwise it leaves the gate as it was |
| Expiry.AbsoluteExpiryExact | auth_tokens.go:149-154 | accepts exactly positive lifetimes that fit in a Duration and yields now + 1000 * seconds in milliseconds |
| Expiry.DecodingIsExact | auth_tokens.go:133-147 | a token response is accepted if and only if its fields are there and its lifetime is positive and at most 9223372036 s; every field is taken over and the expiry is exact |
| Expiry.StorageAgreesWithTheEndpoint | auth_tokens.go:133-147 | decoded tokens are valid with a positive expiry, the same a storage transaction would compute |
| Expiry.RefreshIsDueFrom | tokens.go:157-159 | a token is due first at exactly its expiry minus 60 s, and at every later time |
| Transport.Do | transport.go:77-128 | a second attempt exactly for an authenticated GET that may be replayed, after a 401 and with a usable answer; when the session's provider gives both answers, in any run of any clients, the replay carries a different bearer |
| Luhn.IsPaymentCardNumber | transport.go:405-428 | the forward parity loop computes the standard's right-to-left sum on 12 to 19 digits |
| Luhn.DoubledIsADigitSum | transport.go:417-422 | doubling takes the sum of the decimal digits |
| Luhn.DigitsOfText | transport.go:407-411 | the digits of a text are its ASCII digits in order |
| Luhn.AcceptedLengths | transport.go:412-427 | 12 to 19 digits with a sum that is a multiple of ten, and no others |
| Luhn.SeparatorsAreIgnored | transport.go:407-411 | an inserted non-digit makes no difference |
| Luhn.SingleErrorsAreFound | transport.go:415-427 | changing one digit of an accepted number makes it rejected |
| Luhn.TranspositionsAreFound | transport.go:415-427 | swapping two different neighbours goes unnoticed if and only if they are 0 and 9 |
| Luhn.ExactlyOneCheckDigit | transport.go:412-427 | every prefix of 11 to 18 digits is completed by exactly one digit |
| Utf8.TruncateDiagnostic | transport.go:391-401 | at most 512 bytes; valid UTF-8 stays valid and loses at most three bytes more than needed |
| Utf8.TruncateInput | transport.go:337-344 | long input is cut to the longest valid prefix of its first 4096 bytes |
| Utf8.CutAtRuneStart | transport.go:397-400 | a valid string may be cut before any byte that starts a character |
| Utf8.ValidExactlyIfEncoded | transport.go:337-341 | a string is valid if and only if it is the RFC 3629 encoding of some scalar values |
| Utf8.StartIsNear | transport.go:397-399 | in a valid string a character starts at most three bytes before any position |

## Left out

- HTTP, TLS, redirects, headers, form encoding and logging: the server is a label or an input.
- JSON, RFC 3339 and `net/url`: functions with stated laws; host canonicalisation stays abstract, including the single trailing dot it removes.
- File modes, symbolic links, special files and `flock`: acquiring gate and lock is one input, `locked`; the unlocked shortcut for absent files is not modelled.
- `FileStorage.Delete`: no SDK flow calls it, and it resets the generation.
- `Logout`: in both machines it is an ordinary clear after a revocation that is not modelled.
- Auth.AuthResource.PollTurn: other clients use the store before this client's first transaction of a turn; a terminal reply that arrives after the expiry leads to two transactions with nobody in between.
- Transport.Do: a client with a fixed or custom token source replays with whatever that source answers.
- WebBotAuth.WebBotAuthResource.EnterSection: call records are values in a map under their names instead of objects that callers point to.
- Fair scheduling and timer precision: that enabled steps are taken is not modelled, and clocks advance at least by the requested wait.
- Resource endpoints, diagnostics patterns, redacting formatters and client configuration.
