# Verified model of the cs-ai runtime

cs-ai is an LLM client runtime in Go. This project models the parts of it that keep
state, retry, rewrite or reassemble, in Dafny, and proves what they guarantee on every
input, run and interleaving. Strings are sequences of characters, instants are integers
in the unit the code uses, and everything outside the process (the model's service, token
endpoint, tool handlers, clock, verifier, escalation) is an arbitrary function handed in
as a parameter.

## Components

- **Credentials** (`AuthStore`, `AuthManager`, `ImplicitOrder`, `StoreEffects`, `Resolution`,
  `Lockout`). `AuthStore` says what every operation of the file manager does to the store; the class
  `AuthManager.FileAuthManager` updates its four maps in place and is proved to do exactly that.
  `ImplicitOrder` proves in which order profiles are tried, told by credentials and last uses alone,
  `StoreEffects` what each operation means for the next: who comes first, how long a failure locks,
  when a token is renewed. `Resolution` proves which profile `ResolveAuth` chooses whatever the token
  endpoint answers, `Lockout` what holds of the failure windows in every run on a clock that does
  not go back.
- **Send cycles** (`SendCycle`, `Failover`, `ModelSend`, `RotationWalk`, `Rotation`). The downgrade
  loop, the profile loop and the model loop against a provider that may answer anything, and the
  class `ModelSend.Sender` that runs them over a `FileAuthManager`. `Failover` proves what they
  return, round by round and cycle by cycle, with every reason and provider that leads on or ends
  the send spelled out. `RotationWalk` composes store and
  loop: on any clock that runs forward, it says which profile each round of a cycle tries when
  every request fails. `Rotation` proves exactly when that is every usable profile, each once, in
  the preference order.
- **Shared store** (`MongoStore`, `MongoClient`, `SharedLockout`). The revision compare-and-swap of
  `withLockedStore` as steps of any number of clients; every interleaving is serialisable.
  `MongoClient` is the retry loop itself, with other clients moving at every gap, proved to
  take only such steps. `SharedLockout` runs the manager's operations on it: the failure windows
  stay sound in every interleaving.
- **Tool loops** (`ToolTurn`, `ToolTurnRuns`, `ToolTurnBounds`, `ToolReplay`, `ToolResults`,
  `ToolExits`, `ToolSignature`, `ToolCache`, `AnswerTurn`, `TurnEndings`, `Confirmation`, `SavedTurn`,
  `AnswerLoop`). The loops of `execLegacy` and `runCompactAnswerLoop` and how their turns end:
  termination and bounds, paired tool messages, counters, what the model is shown each time, what
  the tool messages carry, why each run goes on and ends, the cache as a refinement, what the user
  is shown and what the session is left with. `AnswerLoop` has the loops as methods that update
  counters, cache and transcript.
- **Tool schemas** (`JsonSchema`, `StrictSchema`, `StrictLoss`, `StrictForm`, `StrictRewrite`,
  `ToolSchema`, `ToolArguments`, `ToolRoundTrip`, `ToolMeaning`). A meaning for the schema fragment
  tools use (JSON Schema Validation 2020-12, sections 6.1.1 and 6.5.3; JSON Schema Core 2020-12,
  section 10.3), the rewrite, strict or not, exactly when it keeps that meaning, and exactly when the
  argument normaliser undoes it.
- **Streams** (`ResponsesStream`, `ResponsesCalls`, `ResponsesAccumulator`, `ChatStream`). The two
  accumulators, the first with records shared by three maps and an order list, and the theorems that
  they put every call back together, whichever of its names an event carries.
- **Smaller parts** (`RateLimiter`, `Compaction`, `Session`, `RecentConversation`, `Usage`,
  `MiddlewareChain`), and two helpers the others share (`Sorting`, `Wrappers`).

## Findings

Proved of the code as it is, where its comments or names suggest otherwise; each comes
with an instance and with the exact condition:

- The strict rewrite does not keep the meaning of every schema: maps are closed to empty
  objects, and an optional property of any type no longer tells absent from null.
  `StrictLoss.NotRewritableLoses` builds the instances, `StrictLoss.LosslessIffRewritable`
  says these are the only cases.
- `normalizeToolArguments` does not always undo the filling. It drops nulls at the top level
  only (`ToolRoundTrip.NestedNullStays`), and it does not trim a tag's name where the schema
  does (`tool.go:106`, `tool_arg_normalizer.go:67`; `ToolRoundTrip.MisnamedNullStays`).
  `ToolRoundTrip.NormalizeUndoesFill` says when one instance comes back and
  `ToolRoundTrip.GivesBackIff` when every instance does, for any fields, also ones that share
  a name; `ToolRoundTrip.FlatArgumentsRoundTrip` is the case of scalars and lists.
- A confirmation a tool demands is not always shown. The format re-send comes after the
  confirmation guard and can replace it (`Confirmation.FormatReplacesConfirmation`), and so can
  a guard that trips after the demand (`Confirmation.HopLimitDropsConfirmation`).
  `Confirmation.TurnShowsConfirmation` says exactly when a turn shows it.
- A send cycle does not always try every usable profile. The send loop stops at the first profile
  it has tried before, on the ground that a failed profile is skipped while it is locked; but a
  first rate limit or time-out locks a profile for one minute only. When a later round comes after
  that minute, it is given the first profile again and the cycle ends, with any number of others
  untried (`Rotation.SlowCycleSkips`). `Rotation.RotationIsComplete` says exactly when the whole
  list is tried, on any clock that runs forward, pin or no pin: when no round finds a profile ahead
  of its own that has left its window. A cycle that is over within a minute, while no older window
  ends, is such a one (`Rotation.RotationWithinAMinute`), but for the next point.
- The send loop trims profile ids, the store does not. A profile whose id has blanks at an end,
  which only an edited store holds, is tried under another name and ends the rotation
  (`Rotation.BlankedIdIsMisnamed`); the condition of `Rotation.RotationIsComplete` covers it
  (`Rotation.InTurnMeans`), and after any run of the manager's own operations no id is like that
  (`Rotation.RotationAfterAnyRun`).
- A saved conversation can hold a call without an answer. A turn the hop limit cuts saves the last
  answer with its calls, followed by a fallback (`SavedTurn.HopLimitLeavesCalls`), and so does a
  format re-send that comes back with calls (`SavedTurn.ResendLeavesCalls`).
  `SavedTurn.SavedIsPaired` says that there is no third way, and `SavedTurn.SessionStaysPaired`
  that these are exactly the turns after which a session no longer meets what
  `Session.DeletionIsSafe` asks of it.
- A call of a Responses stream is known by the names its first event and its items carry and learns
  none from its deltas: a later delta that carries only such a name is taken for a call without a
  name and lost (`ResponsesCalls.LateIndexIsLost`). `ResponsesCalls.StreamIsReassembled` and
  `ResponsesCalls.ContinuesIff` say which call every event is taken for.
- Hops count as the same when their signatures agree, and those join names and arguments with marks
  that are not escaped: with a bar in the arguments one call can pass for two
  (`ToolSignature.BarsConfuse`). Without a colon in a name and a bar in the arguments the signatures
  agree exactly when the calls do (`ToolSignature.SignatureTells`).
- A store document written without a revision can never be updated, and only such a one
  (`MongoStore.UnversionedIsFrozen`, `MongoStore.FreshSave`): even a client that is alone fails to
  save eight times and gives up (`MongoStore.AloneAndFrozen`).

## Model

| member | source | states |
|---|---|---|
| `AuthStore.DedupeSound` | auth_manager.go:694-709 | an explicit order keeps each trimmed, non-empty id once and loses none |
| `AuthStore.ProviderOrderSound` | auth_manager.go:637-692 | the order of a provider has no duplicates and only profiles of that provider |
| `AuthStore.SortedUnique` | auth_manager.go:661-691 | the implicit order is determined by the ranks alone, not by how the map is walked |
| `AuthStore.SortedExists` | auth_manager.go:661-691 | that order exists for every set of profiles |
| `AuthStore.MoveToFront` | auth_manager.go:711-730 | moving the pinned profile to the front neither loses, adds nor repeats a profile |
| `AuthManager.CalculateDisabledBackoff` | auth_manager.go:942-958 | the doubling loop stays within 64 bits and yields min(5h * 2^(n-1), 24h) |
| `AuthManager.FileAuthManager.ClearExpiredWindows` | auth_manager.go:743-766 | exactly the windows that have ended are cleared, in every profile; the flag is false only when nothing changed |
| `AuthManager.FileAuthManager.RecordFailure` | auth_manager.go:768-797 | one profile's statistics after a failure: counts, back-off window and reason |
| `AuthManager.FileAuthManager.MarkFailure` | auth_manager.go:375-392 | the failure is recorded and the session's pin lifted if it points at the profile |
| `AuthManager.FileAuthManager.MarkSuccess` | auth_manager.go:351-373 | windows and counts are reset and the session pinned to the profile |
| `AuthManager.FileAuthManager.UpsertOAuthProfile` | auth_manager.go:394-433 | the credential is stored under its provider and e-mail and unlocked, or nothing changes |
| `AuthManager.FileAuthManager.SetOrder` | auth_manager.go:468-494 | the explicit order is stored without repetition, or removed when empty |
| `AuthManager.FileAuthManager.ResolveProviderOrder` | auth_manager.go:637-692 | explicit profiles that exist, else those of the provider by type, last use and id |
| `AuthManager.FileAuthManager.ScanProfiles` | auth_manager.go:241-293 | the scan with its refreshes leaves the store and the choice of the specification |
| `AuthManager.FileAuthManager.UseSoleProfile` | auth_manager.go:295-333 | the last resort with a single profile |
| `AuthManager.FileAuthManager.ResolveAuth` | auth_manager.go:210-349 | the whole operation on the mutable maps: store committed and selection returned |
| `AuthManager.NormalizeIdempotent` | auth_manager.go:633-635 | normalising a provider name twice is normalising it once |
| `AuthManager.ProfileIdTrimmed` | auth_manager.go:394-433 | a stored profile id is trimmed and not empty |
| `ImplicitOrder.OrderIs` | auth_manager.go:661-691 | without a configured order every profile of the provider is listed once: logins before pasted tokens before the rest, within a kind the one used longer ago first, and by id where that is the same |
| `ImplicitOrder.UsedGoesLast` | auth_manager.go:351-373 | logins take turns: a profile just used with success is the last of its kind in the next order |
| `ImplicitOrder.DedupeKeepsOrder` | auth_manager.go:694-709 | configured ids stand by the place they are first listed at |
| `ImplicitOrder.ConfiguredIs` | auth_manager.go:637-659 | a configured order that names a profile of the provider is followed, and leaves none of those it names out |
| `StoreEffects.FailureLocks` | auth_manager.go:768-797 | a failure outside the windows locks for 1, 5, 25 and then 60 minutes by the failures of the row; for a quota or a refused login for 5, 10, 20 and then 24 hours by those for that reason |
| `StoreEffects.ClearingLifts` | auth_manager.go:743-766 | exactly the windows that are over are lifted, and the counts start again when none is left |
| `StoreEffects.SuccessIsPreferred` | auth_manager.go:351-373 | after a success the profile is usable at any time and the session tries it first |
| `StoreEffects.FailureUnpins` | auth_manager.go:375-392 | after a failure a session pinned to the profile is back to the provider's order; other pins and profiles stay |
| `StoreEffects.PinnedFirst` | auth_manager.go:711-730 | a pinned profile comes first and the others follow in their order |
| `StoreEffects.PinsApart` | auth_manager.go:627-632 | a pin belongs to one session and one provider |
| `StoreEffects.OtherSessionsKeepTheirPin` | auth_manager.go:210-392 | whatever one session resolves or reports, the pins of the others stay |
| `StoreEffects.LoginIsUsable` | auth_manager.go:394-433 | a login is usable at once under the id of its provider and e-mail, with the tokens as entered, and touches no other |
| `StoreEffects.OrderIsFollowed` | auth_manager.go:468-494 | an order that is set is followed: as given, every profile of the provider it names |
| `StoreEffects.OrderIsDropped` | auth_manager.go:468-494 | one that names none leaves the implicit order |
| `StoreEffects.RenewalMeans` | auth_manager.go:253-288 | a renewed token is stored and used; a failed renewal locks the profile for five hours or more as a refused login |
| `StoreEffects.ScanStep` | auth_manager.go:241-293 | a profile is passed over when it is another provider's, locked or without a token, taken while its token is valid, and renewed first when that has expired |
| `StoreEffects.SoleProfileStep` | auth_manager.go:295-333 | the only profile is used even when it is locked, with its old token where renewing fails |
| `Resolution.ScanTakesFirst` | auth_manager.go:241-293 | the scan settles on a usable profile; each one before it was unusable, or its refresh failed and locked it |
| `Resolution.ResolveSelectsFirstUsable` | auth_manager.go:223-349 | the selection is the stored token, not blank, of the first usable profile and is pinned; with several profiles never a locked one, and none available only when none is; a sole profile is selected, locked or not, unless it has no token left |
| `Resolution.ResolveSelectsOwn` | auth_manager.go:210-349 | it selects a profile of the provider with a token that is not blank; no profile comes, goes or changes its provider |
| `Lockout.RunIsSound` | auth_manager.go:743-797 | in every run counts agree, a reason is set iff a disabled window is, and windows end within 1h and 24h of the last failure |
| `Lockout.UsableAfterADay` | auth_manager.go:732-797 | every profile is usable a day after its last failure, an hour after it when not disabled |
| `Lockout.ActiveWindowNeverExtended` | auth_manager.go:768-797 | no operation moves the end of a running window, it can only lift it |
| `Lockout.RunKeepsIdsTrimmed` | auth_manager.go:394-433 | profile ids are trimmed and not empty in every run |
| `SendCycle.DowngradeLightens` | runtime_model_send.go:1225-1254 | every downgrade removes a feature |
| `Failover.DowngradeDropsComplaint` | runtime_model_send.go:1225-1254 | a request is changed exactly when it is called a bad one for something it has, and then what was complained of goes and nothing else |
| `Failover.AttemptRuns` | runtime_model_send.go:226-253 | an attempt is a run of rejected and changed requests that ends with one that is answered or cannot be changed |
| `Failover.KeyAlone` | runtime_model_send.go:103-112 | without a manager there is one attempt with the configured key, and none without a key |
| `Failover.CycleRuns` | runtime_model_send.go:91-186 | what a cycle returns, told by its rounds: each failed for a reason that leads on (any for the two OpenAI names, else not the unknown one), with a profile of its own, and the manager was told; the last succeeded, failed for good, found nothing new, or used the static key |
| `Failover.ModelLoopReturns` | runtime_model_send.go:32-65 | the model loop returns the first cycle that succeeded or failed for good, or the last; those before it failed for a rate limit, a quota, a time-out or without a known cause, or in any way for the two OpenAI names |
| `SendCycle.RunAttempt` | runtime_model_send.go:191-293 | an attempt sends one request more than features removed, at most, and answers with its last reply |
| `SendCycle.AttemptModelRequest` | runtime_model_send.go:226-253 | the request loop ends within 5 requests whatever comes back |
| `SendCycle.EveryFeatureCostsOneRequest` | runtime_model_send.go:226-253 | the bound is met by a provider that complains about everything |
| `SendCycle.RunRound` | runtime_model_send.go:119-180 | a round that goes on tried a profile the manager may select, not tried before, with a token that is not blank |
| `SendCycle.CycleBound` | runtime_model_send.go:91-186 | one send cycle makes at most one attempt for each profile the manager may select for the provider (at least one) and 5 requests each, for any errors and any manager that selects from fixed pools, whether or not profiles come and go in them |
| `SendCycle.RequestBound` | runtime_model_send.go:32-65 | the model loop ends within 5 requests for each profile of each candidate's pool |
| `ModelSend.Sender.TryNextProfile` | runtime_model_send.go:119-180 | a round on the mutable manager is the round of the specification |
| `ModelSend.Sender.SendWithModel` | runtime_model_send.go:91-186 | the profile loop on the mutable manager: attempts, error, state, and at most one attempt and 5 requests for each profile of the provider |
| `ModelSend.Sender.SendWithModelCandidates` | runtime_model_send.go:32-65 | the model loop on the mutable manager: it returns as `Failover.ModelLoopReturns` tells, within 5 requests for each profile of each candidate's provider |
| `ModelSend.FileManagerClosed` | auth_manager.go:210-392 | while sending, the file manager selects profiles of the provider only and no provider gains or loses any |
| `ModelSend.AnsweredMeans` | runtime_model_send.go:278-280 | after an answered attempt its profile was used now and is locked at no time |
| `ModelSend.SettledMeans` | runtime_model_send.go:255-276 | after any other it is locked now, and the reason is counted, one that cannot be read as unknown |
| `RotationWalk.MarkedStats` | auth_manager.go:375-392 | a failed round clears the ended windows and records the failure on the trimmed id, and on no other |
| `RotationWalk.MarkedOrder` | auth_manager.go:375-392 | it leaves the order of the profiles alone and lifts the pin, unless it was marked under another id |
| `RotationWalk.RoundMarks` | runtime_model_send.go:119-180 | a round tries the first profile of the order that is outside its windows then, and marks it failed |
| `RotationWalk.RoundEnds` | runtime_model_send.go:120-153 | a round with nothing left to choose, or only what was tried before, ends the cycle |
| `RotationWalk.CycleWalks` | runtime_model_send.go:91-186 | when every request fails, on any clock that runs forward, a cycle tries what the walk tries, a reference told by statistics, times and failures alone; a static key only when there is nothing to walk |
| `Rotation.FailureWindow` | auth_manager.go:768-797 | the failure of a profile outside its windows locks it exactly until its back-off is over |
| `Rotation.LockedIsStill` | auth_manager.go:732-797 | at any round a profile is locked exactly when the window its own failed round started, or one it had from the start, has not ended |
| `Rotation.RotationIsComplete` | runtime_model_send.go:119-180 | when every request fails, a cycle tries the usable profiles in preference order, each once, iff no round finds a profile ahead of its own that has left its window; and nothing else iff no other has after them |
| `Rotation.InTurnMeans` | runtime_model_send.go:146-153 | a round is on time iff the id of its profile is trimmed and every profile ahead of it is still locked |
| `Rotation.SlowCycleSkips` | auth_manager.go:743-766 | any three or more clean, usable profiles and requests that time out: a third round more than a minute after the first failure ends the cycle with all the others untried |
| `Rotation.SlowScene` | runtime_model_send.go:119-180 | the file manager of an OpenAI provider meets such a cycle |
| `Rotation.LockedSteady` | auth_manager.go:732-797 | within a minute, while no older window ends, exactly the profiles locked at first and those tried are locked |
| `Rotation.RestLeft` | auth_manager.go:223-240 | after a failure the usable rest of the preference order is unchanged, pin or no pin |
| `Rotation.TriedAllIffClean` | runtime_model_send.go:146-153 | what the loop makes of a list of profiles is the whole list exactly when their ids are clean |
| `Rotation.RotationWithinAMinute` | runtime_model_send.go:119-180 | such a cycle tries the usable profiles in preference order (a sole profile even if locked), each once, up to the first unclean id, so all of them exactly when their ids are clean, and ends exhausted |
| `Rotation.RotationAtOneInstant` | runtime_model_send.go:91-186 | the same for the file manager of an OpenAI provider at one instant, given tokens that are present and unexpired and requests that all fail |
| `Rotation.RotationAfterAnyRun` | runtime_model_send.go:91-186 | and for every store the manager's own operations made the whole list is tried |
| `Rotation.BlankedIdIsMisnamed` | runtime_model_send.go:146-153 | a store whose profile is tried under another name |
| `MongoStore.SaveIffUnchanged` | auth_manager_mongo.go:596-648 | a conditional save goes through iff nothing was committed since its load |
| `MongoStore.StepKeepsInv` | auth_manager_mongo.go:520-556 | every step of every client keeps the invariant and adds at most one commit |
| `MongoStore.Serialisable` | auth_manager_mongo.go:520-648 | in every interleaving the stored document is the committed updates run one after the other, each raising the revision by one |
| `MongoStore.FirstCommitBuildsOn` | auth_manager_mongo.go:569-612 | the first commit of a run builds on the document, without one on the legacy records, and on an empty store where there is neither; revisions are counted from the document's |
| `MongoStore.LegacyProfilesStay` | auth_manager_mongo.go:569-612 | when no update drops a profile, every profile of the legacy records is in the stored document at every later time |
| `MongoStore.AcknowledgedIsNeverLost` | auth_manager_mongo.go:520-556 | an acknowledged update is committed once and stays in the history |
| `MongoStore.RealTimeOrder` | auth_manager_mongo.go:520-556 | a call that has not begun when another is acknowledged commits after it |
| `MongoStore.FreshSave` | auth_manager_mongo.go:614-647 | a save right after its load goes through iff the document has a revision |
| `MongoStore.GivingUpWroteNothing` | auth_manager_mongo.go:525-555 | a client that gives up wrote nothing, and eight other updates were committed meanwhile |
| `MongoStore.UnversionedIsFrozen` | auth_manager_mongo.go:614-647 | a document without a revision is never updated |
| `MongoStore.AloneAndFrozen` | auth_manager_mongo.go:520-556 | on such a document a client that is alone fails all its saves and gives up, whatever its update writes |
| `SharedLockout.SharedStoreIsSound` | auth_manager_mongo.go:520-648 | in every interleaving of clients that run the manager's operations on one clock the stored counts, reasons and windows agree, and every profile is usable a day after its last failure |
| `MongoClient.WithLockedStore` | auth_manager_mongo.go:520-556 | the retry loop takes only steps of the protocol, and its result is the one the protocol reached |
| `ToolTurn.StepUsesFuel` | compact_exec.go:292-561 | every iteration that goes on spends a hop, a follow-up or a repair |
| `ToolTurn.Run` | cs_ai.go:389-599 | both loops end for every model, handler and verifier; what they do on the way is told by `ToolReplay`, `ToolResults` and `ToolExits` |
| `ToolTurnRuns.CallsAreAnswered` | cs_ai.go:421-494 | a hop answers every call once, in order, under its id |
| `ToolTurnRuns.NoCallIsUnhandled` | cs_ai.go:496-510 | the check for unanswered calls never finds one |
| `ToolTurnRuns.EveryHopClosesItsBlock` | compact_exec.go:425-495 | in every run each answer is followed at once by its tool messages, unless cut by the hop limit or a handler error |
| `ToolTurnRuns.CountersSummariseTheRun` | cs_ai.go:512-528 | the two counters are the longest no-progress suffix and the longest one with one signature |
| `ToolSignature.SignatureTells` | cs_ai.go:1113-1123 | hops have one signature iff they make the same calls in the same order, when no name has a colon and no arguments a bar |
| `ToolSignature.BarsConfuse` | cs_ai.go:1113-1123 | with a bar in its arguments one call has the signature of two |
| `ToolReplay.EveryAnswerIsSaid` | cs_ai.go:601-605 | in every run of either loop each answer is what the model says when shown the conversation before the turn and everything the turn added since |
| `ToolReplay.LatestToolFinds` | tool_status_guard.go:52-62 | the latest tool message is found iff there is one |
| `ToolResults.EveryResultIsGiven` | cs_ai.go:421-528 | in every run each tool message carries what its handler returned for that call, or for an earlier accepted one of the same name and arguments; progress, signatures and counters are those of the blocks and handler runs |
| `ToolExits.EveryExitHasItsReason` | compact_exec.go:292-561 | every run ends for the reason its exit names, and an answer without calls is sent back only when a tool result asks for more, twice at most, or the verifier found it ungrounded |
| `ToolTurnBounds.TurnIsBounded` | compact_exec.go:292-561 | hops, sends and verifications of a loop are bounded; idle turns, turns of one repeated signature and turns of invalid calls end at their guards |
| `ToolTurnBounds.CallsCountedOnce` | cs_ai.go:421-494 | each call counts at most once, as invalid or successful |
| `ToolCache.HandlersRunOnce` | cs_ai.go:429-480 | a name and arguments that gave an accepted result are not run again in the turn, whatever the handlers do |
| `ToolCache.RunSimulates` | compact_exec.go:425-475 | with handlers that depend on name and arguments the cached loop goes through the states of the loop without a cache |
| `AnswerTurn.CacheChangesNothing` | cs_ai.go:376-667 | and so exit, transcript, sends and the answer shown are the same |
| `AnswerTurn.EveryAnswerIsPresentable` | compact_exec.go:562-579 | every answered turn of either loop shows an assistant message without calls that is not blank, and ends with it |
| `TurnEndings.CompactTurnSays` | compact_exec.go:341-579 | what a compact turn says at each exit: the model's own answer, the escalation, the tool's status or the notice for that exit |
| `TurnEndings.LegacyTurnSays` | cs_ai.go:389-664 | the same for the legacy turn, with the confirmation that replaces its answer and the format re-send |
| `AnswerTurn.EscalationText` | guard_escalation.go:43-64 | an escalated turn never says nothing, whatever the takeover tool returned and the tag filter left |
| `Confirmation.FinishShowsConfirmation` | tool_status_guard.go:11-41 | a finished legacy turn shows a demanded confirmation exactly when its answer is the assistant's, its calls were not all invalid and the words have the asked-for format |
| `Confirmation.TurnShowsConfirmation` | cs_ai.go:512-664 | over whole turns, for every model, tool and first answer: exactly when the loop also ended by itself |
| `Confirmation.FormatReplacesConfirmation` | cs_ai.go:629-646 | a turn that is asked for a confirmation and shows the re-sent answer |
| `Confirmation.HopLimitDropsConfirmation` | cs_ai.go:391-414 | a turn that is asked for a confirmation and shows a fallback |
| `SavedTurn.SavedIsPaired` | cs_ai.go:389-664 | an answered turn saves a conversation whose calls are all answered at once iff the hop limit did not cut it and, in the legacy loop, the format re-send did not come back with calls |
| `SavedTurn.SessionStaysPaired` | compact_exec.go:118-124 | with a model that speaks as the assistant, a well-paired session stays well-paired by the user's message and what the turn added iff those calls are all answered |
| `SavedTurn.HopLimitLeavesCalls` | cs_ai.go:391-414 | a turn that saves a call without an answer, cut by the hop limit |
| `SavedTurn.ResendLeavesCalls` | cs_ai.go:349-375 | and one whose re-sent answer has a call |
| `AnswerTurn.ExhaustedText` | compact_exec.go:341-363 | the text when the follow-up gate gives up is not blank |
| `AnswerLoop.ExecuteCall` | cs_ai.go:421-494 | one call, from the cache or its handler |
| `AnswerLoop.ExecuteCalls` | cs_ai.go:421-494 | all calls of an answer, in order |
| `AnswerLoop.CountHop` | cs_ai.go:517-528 | the counters after a hop |
| `AnswerLoop.FindLatestTool` | tool_status_guard.go:52-62 | the backward search finds the latest tool message |
| `AnswerLoop.ToolLoop.ProcessHop` | cs_ai.go:417-528 | one hop on the mutable loop state |
| `AnswerLoop.ToolLoop.HandleCalls` | cs_ai.go:389-599 | a hop with its guards and the next send |
| `AnswerLoop.ToolLoop.HandleAnswer` | compact_exec.go:292-388 | follow-up gate and grounding repair |
| `AnswerLoop.ToolLoop.RunLegacy` | cs_ai.go:389-605 | the legacy loop computes the turn of the specification |
| `AnswerLoop.ToolLoop.RunCompact` | compact_exec.go:292-561 | the compact loop computes the turn of the specification |
| `AnswerLoop.ToolLoop.OverrideReply` | cs_ai.go:607-610 | the confirmation overwrites the last message |
| `AnswerLoop.ToolLoop.PresentReply` | cs_ai.go:629-664 | the format re-send and the last check of the answer |
| `AnswerLoop.ExecLegacy` | cs_ai.go:338-667 | the whole legacy turn from its first answer, with at most 2 + MaxHops sends, the format re-send included |
| `AnswerLoop.RunCompactAnswerLoop` | compact_exec.go:262-579 | the whole compact turn from its first answer, with its bound on sends |
| `StrictSchema.RequiredKeysListed` | runtime_model_send.go:1060-1092 | the normalised required list holds exactly the trimmed, known keys |
| `StrictSchema.StrictObject` | runtime_model_send.go:913-952 | the strict form of an object: closed, every property required, optional ones nullable |
| `StrictSchema.NullableAddsNull` | runtime_model_send.go:1094-1147 | making a schema nullable adds null to its instances and nothing else |
| `StrictSchema.FillIsFaithful` | runtime_model_send.go:902-979 | filling absent optional keys with null takes instances to strict instances, and stripping takes them back |
| `StrictSchema.StripIsFaithful` | runtime_model_send.go:902-979 | stripping takes strict instances to instances, and filling takes them back |
| `StrictSchema.DropNullsIsStrip` | runtime_model_send.go:902-979 | for fully typed schemas dropping every null member is that inverse |
| `StrictLoss.LosslessIffRewritable` | runtime_model_send.go:902-979 | the rewrite keeps the meaning of a schema iff it has no map and no untyped optional property |
| `StrictLoss.NotRewritableLoses` | runtime_model_send.go:932-952 | otherwise an instance is refused or two become one |
| `StrictForm.ObjectForm` | runtime_model_send.go:913-952 | any object schema comes out closed over its rewritten properties; strict, it requires them all, ascending, the unnamed ones nullable; not strict, it requires those it named, once each and by their first mention |
| `StrictForm.OtherForm` | runtime_model_send.go:944-962 | any other schema keeps its keywords, and an array without items gets some |
| `StrictForm.NullableMeans` | runtime_model_send.go:1094-1147 | making any schema nullable adds null; it shuts out nothing, but of an untyped schema with properties or items all that is no object or no array |
| `StrictForm.LooseKeepsMeaningIff` | runtime_model_send.go:902-979 | the rewrite that is not strict leaves a tool's schema its instances iff the schema has no map |
| `StrictRewrite.AscendingUnique` | runtime_model_send.go:1082-1088 | the sorted required list does not depend on how the map is walked |
| `StrictRewrite.NormalizeRequiredKeys` | runtime_model_send.go:1060-1092 | the loop over the required list and the sort |
| `StrictRewrite.MakeOptionalNullable` | runtime_model_send.go:933-945 | exactly the properties not required are made nullable |
| `StrictRewrite.Rewrite` | runtime_model_send.go:902-979 | the rewrite with its loops, strict or not |
| `ToolSchema.BuildIsTidy` | tool.go:21-95 | every parameter type gives an untyped schema, a scalar, an array, a map or a closed object with agreeing required keys |
| `ToolSchema.KeysOfField` | tool.go:97-112 | what a tag makes of a field's key in the schema and of its key in the arguments: hidden by a dash, else the part before the first comma, else the field's own name |
| `ToolSchema.FieldHasProperty` | tool.go:57-83 | every field that is not hidden has a property |
| `ToolSchema.LastFieldHasKey` | tool.go:57-83 | and a property is the schema of the last such field under its key |
| `ToolSchema.AnnotationsAre` | tool.go:67-73 | it carries the field's description, and its format or that of a time |
| `ToolArguments.NormalizeToolArguments` | tool_arg_normalizer.go:11-56 | the field loop with its coercions, deletions and errors |
| `ToolArguments.AcceptedArgument` | tool_arg_normalizer.go:11-56 | accepted arguments come out each as the fields of its key leave it |
| `ToolArguments.RefusedArgument` | tool_arg_normalizer.go:28-53 | arguments are refused for one whose fields refuse it, and the error names it |
| `ToolArguments.NormalizesTo` | tool_arg_normalizer.go:11-56 | for any fields and arguments: exactly a given set of nulls is dropped and nothing else, iff their first fields let them go, no other null has a field, and boolean fields get booleans |
| `ToolArguments.BooleanWords` | tool_arg_normalizer.go:79-114 | the words and numbers that become true, those that become false, and that everything else is refused |
| `ToolArguments.CoerceIff` | tool_arg_normalizer.go:79-114 | a value stays as it is iff no boolean is asked for or it is one; anything else becomes a boolean or an error |
| `ToolRoundTrip.CoerceKeeps` | tool_arg_normalizer.go:79-114 | a value of the schema's type is not changed by coercion |
| `ToolRoundTrip.StrictArgumentsLoseNulls` | tool_arg_normalizer.go:11-56 | strict arguments of fields that suit the schema lose exactly the nulls of their optional keys |
| `ToolRoundTrip.FullIffFilled` | runtime_model_send.go:932-952 | filling changes nothing iff no object omits an optional key |
| `ToolRoundTrip.NormalizeUndoesFill` | tool_arg_normalizer.go:24-53 | for any fields and instance: the normaliser undoes the filling iff absent keys are let go, no field touches a null that was there, boolean fields meet booleans and no nested object omits an optional key |
| `ToolRoundTrip.GivesBackIff` | tool_arg_normalizer.go:24-53 | every instance comes back iff the fields suit every property and no nested object has an optional key |
| `ToolRoundTrip.MisnamedNullStays` | tool_arg_normalizer.go:58-72 | a field whose null is never taken out, for its names differ |
| `ToolRoundTrip.TrimmedNamesAgree` | tool.go:97-112 | the two names of a field differ only where the argument's has blanks at an end |
| `ToolRoundTrip.NestedNullStays` | tool_arg_normalizer.go:24-53 | an instance it does not give back |
| `ToolRoundTrip.FlatArgumentsRoundTrip` | tool_arg_normalizer.go:11-56 | for scalars and lists, fields with names of their own: every instance comes back iff the optional fields' two names agree |
| `ToolMeaning.BuildMeansType` | tool.go:21-95 | the instances of the schema built for a Go type are exactly the JSON values of that type's shape: its kinds and the fields the schema lists |
| `ToolMeaning.HandlerGetsItsType` | tool_arg_normalizer.go:11-56 | when the fields suit the schema and nested objects omit nothing, every strict instance reaches the handler as a value of its parameter type |
| `ToolRoundTrip.ToolSchemaIsLossless` | tool.go:21-95 | the same iff for the schema of any Go parameter type |
| `ResponsesCalls.StreamIsReassembled` | request.go:445-513 | for every stream whose events each belong to one call, by any of the names it is known by, or to the last one spoken of when they name none: the calls come out in the order in which they came up, each put together from its own events alone, whatever came between |
| `ResponsesCalls.ContinuesIff` | request.go:588-645 | every event continues such a stream, unless it carries the names of two calls |
| `ResponsesCalls.NamesRank` | request.go:608-626 | of an event that does the item id decides, then the call id, then the index |
| `ResponsesCalls.LateIndexIsLost` | request.go:588-645 | a stream whose last piece is lost, for it carries an index the call was not opened with |
| `ResponsesCalls.FindsItsCall` | request.go:588-645 | an event finds the call it speaks of, or that there is none yet |
| `ResponsesCalls.ArgumentsSpelled` | request.go:466-512 | a call's arguments are those of its last end that is not empty, else those its items brought, with the deltas that follow, joined in order |
| `ResponsesCalls.SameCallsSameResult` | request.go:445-513 | streams whose calls come to the same come out alike |
| `ResponsesCalls.FinalResponseIs` | request.go:662-685 | the final output lists exactly the calls that have a name, in order and as put together, with an id made up only when there is none |
| `ResponsesStream.TextIsJoined` | request.go:457-461 | the answer text is that of the text events in order, whatever comes between |
| `ResponsesAccumulator.Accumulator.Resolve` | request.go:588-645 | the shared record of an event, found by the three maps or made, and every alias kept |
| `ResponsesAccumulator.Accumulator.Absorb` | request.go:445-513 | one event on the shared records |
| `ResponsesAccumulator.Accumulator.FinalOutput` | request.go:662-685 | the calls of the final response |
| `ResponsesAccumulator.Reassemble` | request.go:445-685 | a whole stream on the shared records: it lists what `ResponsesCalls.FinalResponseIs` tells |
| `ChatStream.ChunksAreReassembled` | request.go:709-781 | each index ends up with the call its own fragments spell, whatever came between |
| `ChatStream.SplitCallIsJoined` | request.go:753-778 | a split call keeps its names and has its arguments joined |
| `ChatStream.InterleavingIsLost` | request.go:709-781 | streams whose calls have the same fragments come out alike |
| `ChatStream.FinalCallsListed` | request.go:833-861 | one entry for each index mentioned, the n-th for the n-th smallest: the last id, kind and name given, the arguments joined, and an id made up only when there is none |
| `ChatStream.OwnSelects` | request.go:709-781 | the fragments of an index are exactly those that carry it, in their order |
| `ChatStream.Accumulator.Absorb` | request.go:709-781 | one delta on the accumulator |
| `ChatStream.Accumulator.FinalToolCalls` | request.go:833-861 | the calls in strictly ascending index |
| `ChatStream.Reassemble` | request.go:709-861 | a whole stream: content joined, and the calls listed as `ChatStream.FinalCallsListed` tells |
| `RateLimiter.PrunedDecidesAlike` | security_impl.go:65-118 | deciding on the pruned list agrees with the full history |
| `RateLimiter.WindowsAreBounded` | security_impl.go:65-118 | no window of a minute, hour or day, wherever it ends, holds more than its limit |
| `RateLimiter.AllowedIffRoom` | security_impl.go:65-118 | a request is allowed iff the day, the hour and the minute that end now all have room, and a refusal names the widest that has none |
| `RateLimiter.Limiter.Check` | security_impl.go:65-118 | that decision, from the pruned list, and which requests are entered |
| `RateLimiter.Limiter.NoWindowOverflows` | security_impl.go:65-118 | the bound for every state of the limiter |
| `RateLimiter.Limiter.Reset` | security_impl.go:121-126 | one user is forgotten |
| `Compaction.CompactValue` | bootstrap.go:347-402 | the recursion with its loops |
| `Compaction.CompactIsSmall` | bootstrap.go:347-402 | at most (3 + 4 d) B^d nodes with d levels left and B the larger limit |
| `Compaction.StringsAreShort` | bootstrap.go:404-415 | no string value is longer than the limit, or than nine bytes |
| `Compaction.CompactAbridges` | bootstrap.go:347-415 | the result abridges the payload: the first items and members and nothing else but a marker whose number adds up, and cut strings marked where there is room |
| `Session.DeleteMessage` | session.go:207-271 | numbering, search, cut and backward walk |
| `Session.EnsureIds` | message.go:165-174 | messages are numbered 1 to n in place; the flag says whether any changed |
| `Session.SafePrefixIsLongest` | session.go:241-262 | the longest prefix that ends in nothing dangling |
| `Session.DeletionIsSafe` | session.go:223-265 | deleting keeps a well-paired session well-paired, numbered 1 to n and as long as possible |
| `Session.DeletionOutcome` | session.go:207-271 | for any session: which ids are refused, and that the part before the id up to its last message that dangles not is saved, renumbered |
| `RecentConversation.BuildRecent` | compact_exec.go:581-609 | exactly the last k messages worth repeating, in order |
| `RecentConversation.RepeatedAre` | compact_exec.go:581-609 | the messages worth repeating are those of the user and the answers without calls that are not blank, in their order, clipped |
| `RecentConversation.ClipKeepsPrefix` | compact_exec.go:611-620 | what fits stays whole; of the rest the longest trimmed prefix that leaves room for the mark |
| `RecentConversation.ReverseInPlace` | compact_exec.go:604-606 | the swap loop reverses |
| `RecentConversation.ClipIsShort` | compact_exec.go:611-620 | no clipped content is longer than asked for |
| `Usage.NormalizeIsIdempotent` | message.go:63-95 | what normalisation reaches, exactly, and at once |
| `Usage.NormalizeFills` | message.go:63-95 | what every count becomes: no negative ones, cache counts that stand in for each other, misses and total worked out when not given |
| `Usage.EachCountAddsUp` | message.go:97-115 | every count of a total is the sum of that count of the normalised reports |
| `Usage.AddIsMonoid` | message.go:97-115 | addition is closed on normal usages, commutative and associative, with zero |
| `Usage.OrderDoesNotMatter` | message.go:97-115 | a turn's total does not depend on the order of its answers |
| `Usage.Aggregate` | cs_ai.go:258-271 | a turn's aggregate is the component-wise sum of its normalised reports; the last normalisation changes nothing |
| `MiddlewareChain.Chain.Add` | middleware.go:79-89 | a registration goes behind those of its priority or a lower one, and the list stays the stable sort of all |
| `MiddlewareChain.Chain.Select` | middleware.go:93-100 | the applicable middlewares, in order |
| `MiddlewareChain.ChainRunsInOrder` | middleware.go:112-123 | handlers that call on once run once each, in order, before the final one |
| `MiddlewareChain.ChainStopsEarly` | middleware.go:112-123 | a handler that does not call on is the last to run |
| `MiddlewareChain.RegisteredRunInOrder` | middleware.go:79-123 | after any registrations exactly those that apply to the intent run, once each, by priority and then by time, and then the final handler |

## Left out

- Drivers, files, logging, the login command, mirroring and refresh of tokens over the network, prompt assembly, stream events, storage and analytics: input and output, or easy members.
- The file lock and its removal when stale: the file manager's operations are taken one at a time.
- `RecordRateLimit`, which only the Mongo manager has, and the values its operations return; the shared store is proved serialisable, not that a returned selection matches the committed attempt.
- A manager that keeps selecting ids never seen before: the send loop has no bound for it, and the source none either.
- Rotation.RotationIsComplete: not for a static key on a provider without usable profiles, which is then tried instead; `RotationWalk.CycleWalks` has that case.
- Tokens that expire during a send cycle: the rotation theorems are for the file manager and tokens that are present and unexpired throughout.
- ToolMeaning.BuildMeansType: the values of a type are told by the shape the schema is built from, not by Go's JSON decoding of pointers, byte slices and embedded structs.
- AuthManager.NormalizeIdempotent: lower-casing is modelled for ASCII letters only, here and wherever names are compared.
- 64-bit integers are unbounded here, except in the doubling of the back-off.
- Heuristics on error texts and tool statuses (which feature a rejection names, failure reasons, follow-up codes, grounding risk, progress, response format): arbitrary outcomes here.
- In the tool loops the definition hash in the legacy cache key is taken as a function of the tool's name for the length of a turn; the fixed Indonesian replies, and the filter for thinking tags, are arbitrary, the replies not blank.
- Handlers whose results vary for the same name and arguments: for them only `ToolCache.HandlersRunOnce` is claimed of the cache.
- Schema keywords no parameter type produces (`anyOf`, `oneOf`, `allOf`, `not`, `$defs`, `$ref`) and the spelling of type words; a schema is a value, not a tree rewritten in place, for the rewrite clones properties at every level.
- The default schema for a tool without parameters.
- Reading a field's validation tag: whether it says required, and which format, is given.
- The lines of a server-sent event stream and the metadata of responses (id, model, usage); events start decoded and trimmed.
- Shared records in the chat accumulator: each call is a value in the map, as no two indices share one.
- In compaction the members of an object are a sequence in key order, as the code walks them, and numbers of bytes are numbers of characters; the byte limit on the whole payload is not modelled.
- The limiter's clock does not go back.
- Saving a session after a deletion, and the trim of a stored transcript; what an unanswered turn has saved before it failed.
