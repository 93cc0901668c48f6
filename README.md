# phrase-sync: upload-completion poll and argument lookup

This project models the two pieces of logic in phrase-sync that are not I/O plumbing.

- **The upload-completion poll of `PhraseClient`** (`ensureUploadSucceeded` and its response handler `requestUploadState`), plus the guard of `removeUnmentionedKeys` that awaits the poll. After an upload, the poll sends a status GET on every tick of an interval timer. Each tick first checks its attempt counter against `iterations`. Each reply is then classified: status 200 with state "success" resolves `true`; status 200 with state "error" resolves `false` and warns; status 200 with any other or missing state keeps polling; anything else rejects. Every settling path clears the timer. A promise settles only once, so a later `resolve` or `reject` has no effect.
- **`getArgument`**: finds the value that follows the first occurrence of a flag in the process arguments. A missing value or an empty one counts as absent.

The network is abstracted to its replies. `replies[k]` is the reply to the k-th status GET, and each reply arrives before the next timer tick. If a tick sends a GET and no reply for it is left in the sequence, that GET is still in flight and the observation stops there. So no precondition asks for "enough" replies. The state the poll closes over (counter, timer, promise, GET count, warnings) is the datatype `Poll`. The function `Run` gives the tick-by-tick semantics. `EnsureUploadSucceeded` is the imperative form: a loop with an explicit counter, a settled check and a live-timer flag, proved equal to `PollUpload`.

The model follows the code as written. The timeout branch resolves `false` and clears the timer, but it does not return. That tick therefore still sends a status GET, so a timed-out poll sends `max(iterations, 0) + 1` GETs (`PollTimesOut`). The timeout warning (src/phrase-client.ts:150-153) reports `interval * iterations` ms as the whole wait, which implies `iterations` GETs. The model follows the code, and the difference is listed under Findings. In the same way, `removeUnmentionedKeys` does not return after `reject()`, so it sends the DELETE even when the upload failed.

Files: `wrappers.dfy` (`Option`), `utils.dfy` (module `Utils`, for src/utils.ts), `phrase_client.dfy` (module `PhraseClient`, for src/phrase-client.ts).

## Model

| member | source | states |
|---|---|---|
| `Utils.IndexOf` | src/utils.ts:3 | `indexOf` returns -1 exactly when the flag is absent; otherwise it returns a position holding the flag with no earlier occurrence |
| `Utils.GetArgument` | src/utils.ts:1-15 | a returned value is never empty and is the element right after the first occurrence of the flag; an absent flag yields `None` |
| `Utils.FirstOccurrenceDecides` | src/utils.ts:3-14 | only the first occurrence matters: the result is the next element when one exists and is non-empty, and `None` otherwise |
| `Utils.FlagThenValue` | src/utils.ts:5-14 | the value after the flag is returned unchanged, even one that looks like another flag, whatever follows; an empty value yields `None` |
| `Utils.FlagLast` | src/utils.ts:5-11 | a flag given as the last argument yields `None` |
| `PhraseClient.TickSendsOneQuery` | src/phrase-client.ts:147-165 | every tick sends exactly one GET and adds one to the counter; below the budget nothing else changes; at the budget the tick also resolves false, warns with `interval * iterations` ms and clears the timer |
| `PhraseClient.Fire` | src/phrase-client.ts:148-166 | no contract; the synchronous part of one `setInterval` callback (budget check without return, GET, counter increment), stated by `TickSendsOneQuery` |
| `PhraseClient.Run` | src/phrase-client.ts:146-199 | no contract; the sequence of ticks, each followed by the callback on its reply, until the timer is cleared; stated by `RunKeepsSettlement`, `TimerLiveWhilePending`, `QueriesBounded`, `RunSettlesAt`, `RunStillPending` and `RunTimesOut` |
| `PhraseClient.PollUpload` | src/phrase-client.ts:134-167 | no contract; `ensureUploadSucceeded` as a function (guards, then `Run` from the started state); stated by `EnsureUploadSucceeded`, `PollSettlesAt`, `PollStillPending`, `PollTimesOut` and `TimeoutReplyIgnored` |
| `PhraseClient.HandleReply` | src/phrase-client.ts:184-199 | the timer is cleared exactly on a terminal reply ("success", "error", failed request); an unsettled promise takes that reply's verdict; a settled one never changes; only state "error" warns |
| `PhraseClient.EnsureUploadSucceeded` | src/phrase-client.ts:134-167 | an empty `uploadId` rejects first, then an empty `projectId`, both with no GET; at most `max(iterations, 0) + 1` GETs; the timer is live exactly while the promise is pending; outcome, GET count and warnings are those of `PollUpload` |
| `PhraseClient.RunKeepsSettlement` | src/phrase-client.ts:146-199 | once settled, the poll keeps its result whatever replies follow |
| `PhraseClient.TimerLiveWhilePending` | src/phrase-client.ts:149-199 | every settling path clears the timer, and only those paths clear it |
| `PhraseClient.QueriesBounded` | src/phrase-client.ts:147-165 | at most one GET per remaining tick, plus one on the timing-out tick |
| `PhraseClient.RunSettlesAt` | src/phrase-client.ts:158-199 | from any pending state, the first terminal reply within the budget settles the poll after exactly that many GETs and stops the timer |
| `PhraseClient.RunStillPending` | src/phrase-client.ts:147-196 | non-terminal replies within the budget leave the poll pending, the timer live and the warnings unchanged |
| `PhraseClient.RunTimesOut` | src/phrase-client.ts:149-165 | with no terminal reply before the budget, the poll resolves false, clears the timer, warns with `interval * iterations` ms and sends one GET more than the remaining budget |
| `PhraseClient.PollSettlesAt` | src/phrase-client.ts:185-195 | "success" on GET k (within the budget) resolves true, "error" resolves false, and a failed request rejects, each after exactly k GETs |
| `PhraseClient.PollStillPending` | src/phrase-client.ts:185-196 | fewer non-terminal replies than the budget: pending, timer live, one GET in flight, no warning |
| `PhraseClient.PollTimesOut` | src/phrase-client.ts:149-165 | a timed-out poll resolves false after `max(iterations, 0) + 1` GETs and emits the timeout warning |
| `PhraseClient.TimeoutReplyIgnored` | src/phrase-client.ts:149-165 | the reply to the GET sent on the timing-out tick changes neither the result nor the GET count |
| `PhraseClient.AfterDelete` | src/phrase-client.ts:123-129 | a promise already settled (rejected after a false poll) is unchanged by the DELETE reply; a pending one is settled by any arrived reply; a DELETE in flight changes nothing |
| `PhraseClient.RemoveUnmentioned` | src/phrase-client.ts:100-132 | no contract; `removeUnmentionedKeys` as a function; stated by `RemoveUnmentionedKeys` and `RemoveAfterFailedUpload` |
| `PhraseClient.RemoveUnmentionedKeys` | src/phrase-client.ts:100-132 | an empty `uploadId` rejects with no poll and no DELETE; the DELETE is sent exactly when the poll resolved, even with false; a false poll rejects with no reason; a rejected poll rejects the removal with the same reason; after a true poll the DELETE reply decides the result (its body, or a transport rejection); a still-pending poll leaves the removal pending |
| `PhraseClient.TimeoutExtraQuery` | src/phrase-client.ts:149-165 | with a budget of 3 and three "pending" replies, the code as written sends a 4th GET; the corrected poll sends 3 |
| `PhraseClient.RunFixed` | src/phrase-client.ts:149-165 | no contract; the tick sequence with a `return` after the timeout branch; stated by `RunFixedSameOutcome` |
| `PhraseClient.PollUploadFixed` | src/phrase-client.ts:134-167 | no contract; the corrected `ensureUploadSucceeded`; stated by `PollFixedAgrees` and `TimeoutExtraQuery` |
| `PhraseClient.RunFixedSameOutcome` | src/phrase-client.ts:149-157 | returning after the timeout branch changes no outcome, and at most one GET is sent per remaining tick |
| `PhraseClient.PollFixedAgrees` | src/phrase-client.ts:149-157 | the corrected poll settles exactly like the code as written and never sends more than `max(iterations, 0)` GETs |
| `PhraseClient.RemoveAfterFailedUpload` | src/phrase-client.ts:109-131 | as written, an upload in state "error" rejects the removal and still sends the DELETE; the corrected version does not send it |
| `PhraseClient.RemoveUnmentionedFixed` | src/phrase-client.ts:109-115 | no contract; the corrected `removeUnmentionedKeys` with a `return` after `reject()`; stated by `RemoveFixedDeletesOnlyAfterSuccess` and `RemoveAfterFailedUpload` |
| `PhraseClient.RemoveFixedDeletesOnlyAfterSuccess` | src/phrase-client.ts:109-115 | corrected: the DELETE is sent exactly when the upload succeeded, and the promise settles as in the code as written |

## Left out

- HTTP request construction, headers, URLs and transport for the status GET and the DELETE are left out. They are calls into the `request` library, so only their abstract replies (`StatusReply`, `DeleteReply`) are modelled.
- `fetchLocales`, `uploadLocale` and `downloadLocale` are left out. Each is one HTTP call that resolves on the expected status code and rejects otherwise, and the call is a foreign library call.
- `JSON.parse` of reply bodies is left out. A body that is not JSON would throw inside the callback, and that is not modelled; a `state` that is missing or not a string is `None`.
- src/phrase_integration.ts is left out: configuration globals, git operations, pull-request creation and vote, file writes, `runTasks`. It is I/O sequencing with no local logic.
- Wall-clock timing is left out. `interval` appears only in the timeout warning. GETs that overlap because a reply takes longer than `interval` are event-loop concurrency, and the model assumes one reply per tick.
- `console.log` in `getArgument` and the "could not be removed" warning in `removeUnmentionedKeys` are left out. They are output only; the poll's two warnings are recorded as `Warning` values.
- Falsy identifiers other than the empty string (`undefined`, `null`) are left out: identifiers are modelled as strings. `iterations` and `interval` are integers, so a fractional or NaN `number` is not modelled; for `interval` this only affects the ms value in the timeout warning.
- The `token` and `apiBaseUrl` fields of `PhraseClient` and the DTO interfaces are left out. They only feed the abstracted HTTP calls.

## Findings

| source | as written | input that shows it | evidently intended | confidence | as-written member | corrected member |
|---|---|---|---|---|---|---|
| src/phrase-client.ts:149-165 | the timeout branch resolves false and clears the timer but falls through, so the same tick still sends a status GET | `iterations` 3, three "pending" replies: a 4th GET is sent (and a late "error" reply would add a spurious warning) | return after the timeout branch: at most `max(iterations, 0)` GETs | medium, not executed | `PhraseClient.TimeoutExtraQuery` | `PhraseClient.PollFixedAgrees` |
| src/phrase-client.ts:109-115 | `reject()` is not followed by `return`, so the DELETE of unmentioned keys is sent even when the upload did not succeed | one status reply with state "error": the removal rejects, but the keys are still deleted | return after `reject()`: delete only after a successful upload | high, not executed | `PhraseClient.RemoveAfterFailedUpload` | `PhraseClient.RemoveFixedDeletesOnlyAfterSuccess` |

The corrected functions `RunFixed`, `PollUploadFixed` and `RemoveUnmentionedFixed` sit beside the as-written ones. The as-written ones remain the model of the code.
