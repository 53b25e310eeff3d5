# A model of the session kernel, with proofs

This project models the parts of the agent whose correctness depends on order: who may
refresh a credential and when, what one turn may ask of a model, what a session can rely on
after a restart, and what the indexes and budgets in between promise. Each property is
proved for every input, every run or every interleaving of the model; where the code does
not have a property it is meant to have, the project says exactly when it does.

## How it is laid out

Credentials and sign-in (`src/credential-lock.ts`, `src/credentials.ts`, `src/oauth.ts`, `src/oauth-codex.ts`)

- `LockFile.dfy`: the lock file, any number of processes, and an operating system that drops
  a process's lock when it closes *any* connection to the file. Each system call is a step.
- `LockSlot.dfy`: the in-process FIFO queue, as the object the program keeps, with its promises as history.
- `NotADatabase.dfy`: recovery from a lock file that is not a database.
- `Credentials.dfy`, `CredentialStore.dfy`: entries, mutations, the locked read-modify-write, the identity-stamped cache.
- `OAuthTokens.dfy`, `OAuthRefresh.dfy`: token responses, and the refresh protocol over any number of sessions.
- `RefreshGate.dfy`: the shared wait for one refresh.
- `ExclusiveLock.dfy`: the lock as its users see it, which the lock file implements and the refresh protocol uses.

One turn (`src/turn.ts`)

- `Conversation.dfy`: histories, pending and answered calls, flattening for the wrap-up.
- `LlmStream.dfy`: one streamed reply and the tests made on it.
- `TurnLoop.dfy`: the step loop, as functions and as the loop the program runs.
- `TurnInvariants.dfy`: what every turn keeps. `TurnDialogue.dfy`: what each request tells the model, and why a turn stops.
  `TurnCorners.dfy`: how far a turn can go, and the corner where a reply is lost.

Sessions (`src/event-log.ts`, `src/auto-compact.ts`, `src/state-graph.ts`, `src/state-graph-checkpoint.ts`)

- `JsonText.dfy`, `LogText.dfy`, `EventLog.dfy`: the log file as text, the cache over it, reset boundaries, marks.
- `Compaction.dfy`: choosing and marking the events to summarise.
- `StateGraph.dfy`, `StateReplay.dfy`, `TierAgeing.dfy`, `WorkingMemory.dfy`: working memory, live and replayed,
  saved and restored, aged by a sweep per turn. `ReplayedState.dfy`: what a replayed log restores.

Indexes, gates and budgets

- `ProviderCatalog.dfy`, `CatalogIndex.dfy` (`src/provider-catalog.ts`)
- `RequestKeys.dfy`, `ArtifactStore.dfy`, `ArtifactRuns.dfy` (`src/context-engine/artifact-store.ts`)
- `LoopGate.dfy` (`src/circuit/loop-gate.ts`)
- `TokenBudget.dfy` (`src/token-estimate.ts`, `src/compiler.ts`), with `TextLines.dfy` and `Spaces.dfy`

Code that changes an object is a class whose methods are proved against a function of the
old state; code that loops is a method with a loop; the properties are lemmas about those
functions and about runs of them. A synchronous stretch between two awaits is one step.
Clocks only move forward. Outcomes of the network, of tools and of the user are arbitrary.

A few proofs name functions in a `hide` statement. It keeps the bodies of those functions
out of that one proof, so it can only make a proof harder to find, never easier.

## What the code does not promise

Each of these is stated as a lemma with the input that shows it, or with its exact condition.

- A provider fetch that throws before its first await stays registered for good: its `finally`
  block runs before the entry is made. `ProviderCatalog.DeadRegistrationIffFailedAtOnce` and
  `ProviderCatalog.DeadRegistrationStays`.
- Reading a file again with a text stored before violates the primary key, once a write has cleared
  its ranges or another text was stored in between. `ArtifactStore.WhenIngestFails`,
  `ArtifactRuns.ReadFailsIff`, `ArtifactRuns.ReadFailsIffDisplaced`.
- Clearing the ranges of `a#1` also drops the ranges of `a` that start at line 1.
  `RequestKeys.ClearedKeys`, `ArtifactStore.ClearCanHitAnotherFile`.
- A resumed session finds ranges that were cleared before the restart. `ArtifactStore.ResumeRevivesClearedRanges`.
- Appending through a cache that another writer has made stale stamps it as current. `EventLog.AppendIsExactIff`,
  `EventLog.StaleAppendIsServed`.
- A process serves its own unusable write from the cache although a read would drop it.
  `CredentialStore.OwnWriteAgreesIffReadable`.
- The gate rebuilt from the log charges every failure of a batch to its last call, and reads arguments
  that were redacted before they were logged. It is at least as strict as the live gate iff the charges
  are right for each call that can fail and every key is logged as often as it was counted.
  `LoopGate.BatchDominatesIff`, `LoopGate.MischargedFailure`, `LoopGate.LostCall`, `LoopGate.RedactedCallIsLost`.
- Signing in again with the token a refresh has just sent is overwritten by that refresh.
  `OAuthRefresh.LoginOverwrittenIffRepeated`.
- A compaction abandoned after part of its summary is stored and before its chunk is marked is
  summarised again. `Compaction.TwiceIffAbandonedInTheWindow`.
- A chunk is marked even if the summariser stored nothing, and is then lost to memory and prompt.
  `Compaction.FinishingUnstoredLosesTheChunk`.
- A session that dies, or cannot write, with a new refresh token in hand loses it.
  `OAuthRefresh.NewestSurvivesIff`.
- An append after a read that could not stat the log is served with the earlier events missing.
  `EventLog.FailedStatIsForgotten`.
- Text shown by the fallback asked for a failed sign-in is not stored if the signal fires before the
  first step. `TurnInvariants.ShownIsStoredIff`, `TurnCorners.ShownIsAlwaysStoredIff`.
- The recent-turns section can exceed its budget: newlines and the notice are not charged.
  `TokenBudget.WithinBudgetIff`, `TokenBudget.FullBudgetOverruns`.

A remark on the bound of requests: if the request made before the loop could throw an abort error
without the signal having fired, the error would be dropped and the loop would start afresh, with one
request more. No driver is known to throw one; `TurnInvariants.RequestsBoundedUnlessStray` covers the case.

## Model

| member | source | states |
|---|---|---|
| LockFile.MutualExclusion | src/credential-lock.ts:313-411 | in every reachable state, over processes and sessions in them, at most one session holds the lock; the system agrees and that process has exactly one connection |
| LockFile.StepKeepsInv | src/credential-lock.ts:341-351 | a process never has a second connection to a path it holds, through opens, failed opens, releases and deaths |
| LockFile.EveryStepIsALockStep | src/credential-lock.ts:313-411 | seen from outside every step takes a free lock, releases it by the session that has it, ends that session's process, or goes unnoticed |
| LockFile.RunIsALockRun | src/credential-lock.ts:313-411 | every run of the lock file is a run of an abstract exclusive lock whose holders are the sessions' lock objects |
| LockFile.ReleaseFreesTheLock | src/credential-lock.ts:331-351 | a release gives up the lock and leaves its process as it was before it acquired |
| LockFile.UnguardedOpenBreaksExclusion | src/credential-lock.ts:9-12 | without the test on `held` before opening there is a run in which two sessions hold the lock |
| LockSlots.OneTokenInArrivalOrder | src/credential-lock.ts:245-289 | over every run, callers releasing as often as they like: those granted and not yet done are one while the slot is held and none while it is free; waiters only while held; a promise is settled iff its caller left the queue; grants in arrival order |
| LockSlots.UnflaggedReleaseMakesTwoHolders | src/credential-lock.ts:423-433 | without the `released` flag a former holder's second release makes two holders |
| LockSlots.SettledOnce | src/credential-lock.ts:255-289 | a settled waiter keeps its outcome and is never queued again |
| LockSlots.HandOver | src/credential-lock.ts:417-439 | the holder's release grants the oldest caller still waiting, never one that left, and frees the slot only when nobody waits; a former holder's release changes nothing |
| LockSlots.LeavingAlone | src/credential-lock.ts:255-289 | who leaves the queue is settled for its own reason, and nothing else moves; a settled caller loses nothing to a late signal or timer |
| LockSlots.WaiterLeavesAs | src/credential-lock.ts:255-289 | a signal leaves a waiter aborted and a timer leaves it timed out |
| LockSlots.ArrivalIsDecided | src/credential-lock.ts:245-289 | in every reachable state an arrival is aborted, granted, timed out or queued last, looked at in this order |
| LockSlots.LockSlot.Acquire | src/credential-lock.ts:245-289 | an aborted or late request never queues; a free slot is granted at once |
| LockSlots.LockSlot.ReleaseSlot | src/credential-lock.ts:423-433 | once for each caller, shifts the first waiter and grants it, or frees the slot, keeping the invariant |
| LockSlots.LockSlot.Leave | src/credential-lock.ts:255-289 | splices out a waiter that is still queued; a settled promise is not settled again |
| NotADatabase.NotADatabaseState.RecoverNotADatabase | src/credential-lock.ts:198-224 | the counters and the verdict of one failed open |
| NotADatabase.BoundedRecovery | src/credential-lock.ts:198-224 | whatever happens to the file, an acquire retries a bounded number of times, deletes at most once, and ends by reporting corruption |
| NotADatabase.UnlinkOnlyTheFailedFile | src/credential-lock.ts:161-224 | a deletion hits only the very file that failed to open |
| NotADatabase.GarbageFile | src/credential-lock.ts:23-28 | a garbage file is deleted at the fourth failure and reported at the eighth |
| Credentials.SanitizeKeepsReadable | src/credentials.ts:250-286 | reading keeps everything iff every entry is usable, and what it keeps is usable |
| Credentials.LastWriteWins | src/credentials.ts:222-235 | the store holds for a provider what the last mutation naming it left, however many others ran |
| CredentialStore.Store.ReadCredentialsFromDisk | src/credentials.ts:349-385 | the four outcomes of a read and what each does to the cache |
| CredentialStore.Store.PersistCredentials | src/credentials.ts:413-441 | an atomic replace with a new identity that the cache adopts; a failure changes nothing |
| CredentialStore.Store.RunCredentialMutation | src/credentials.ts:126-136 | stores exactly the mutation of a fresh read; a timeout, an unreadable file, a throwing mutator or a failed write leaves the file as it was |
| CredentialStore.Store.ReadCachedOAuthIfUnchanged | src/credentials.ts:322-336 | answers from the cache only while the file's identity is the one remembered |
| CredentialStore.MutationsLinearise | src/credentials.ts:197-235 | over every interleaving of processes the file equals the written mutations applied one after another in lock order |
| CredentialStore.LoadedIsCurrent | src/credentials.ts:126-136 | inside the locked section what was loaded is still the file, and nobody else is inside |
| CredentialStore.SectionIsAtomic | src/credentials.ts:197-235 | in every reachable state a write is the mutation of the file as it is then, and what was decided from the load still holds |
| CredentialStore.CacheAnswerIsCurrent | src/credentials.ts:322-336 | whenever a cache answers "unchanged" its token is the one a fresh read gives, for a readable entry |
| CredentialStore.OwnWriteAgreesIffReadable | src/credentials.ts:413-441 | for the process that wrote the file that condition is exact |
| OAuthTokens.StoreThenRead | src/oauth.ts:441-487 | storing and reading back gives the new tokens with the union of extra fields, the new ones winning |
| OAuthTokens.RotatedTokenIsKept | src/oauth-codex.ts:129-172 | a rotated refresh token is kept whatever else the response lacks; something is kept iff some token arrived |
| OAuthTokens.ResponseIsReadExactly | src/oauth-codex.ts:129-172 | a response is complete iff it has an access token, a lifetime and an account; which of its fields and which of the previous credential are taken |
| OAuthTokens.CompleteIsUsable | src/oauth-codex.ts:129-172 | a complete result has both tokens, a future expiry and an account |
| OAuthRefresh.NewestTokenIsStored | src/oauth.ts:552-641 | over every interleaving, with deaths and store failures at any moment but with a new token in hand, and no lost reply, login or logout: whenever nobody holds the refresh lock the stored token is the newest issued, and whoever asks presents it |
| OAuthRefresh.NewestSurvivesIff | src/oauth.ts:584-632 | a death or a store failure loses the newest token iff the session had it in hand |
| OAuthRefresh.LoginSurvives | src/oauth.ts:598-632 | with faults, logins and logouts anywhere, the stored token is of the family of the latest login's token, and a login with a new token starts its own |
| OAuthRefresh.LoginOverwrittenIffRepeated | src/oauth.ts:598-632 | a refresh with its reply in hand overwrites a login that comes before its commit iff that login stored the very token the refresh had sent |
| OAuthRefresh.LogoutSticks | src/oauth.ts:598-632 | after a logout nothing is stored until somebody logs in |
| OAuthRefresh.OnlyItsOwnToken | src/oauth.ts:598-632 | a refresh replaces a stored credential only if its refresh token is the one it sent, on both commit paths |
| OAuthRefresh.OneRefreshAtATime | src/oauth.ts:552-583 | at most one session is past the refresh lock |
| OAuthRefresh.ReturnedIsStored | src/oauth.ts:510-550 | what a session gets, by the look before any lock, a wait, a refresh or the recovery from a store failure, is what is stored then; it has not expired unless it comes from a commit |
| OAuthRefresh.OutcomeIsExact | src/oauth.ts:503-641 | unless it gave up, what a session ends with is decided by what is stored then: nothing, the stored credential, busy or an error; a commit of its own gives the credential |
| OAuthRefresh.RefusedOnlyIfExpired | src/oauth.ts:503-641 | in every reachable world a session that did not give up ends without a credential only if nothing unexpired is stored, and with none at all iff nothing is |
| OAuthRefresh.NextPhase | src/oauth.ts:510-641 | when a step ends a session and where it goes otherwise; what signing in and out store |
| OAuthRefresh.OnlyStaleIsRefreshed | src/oauth.ts:522-583 | over every run the provider is asked only about a credential within a minute of its end |
| OAuthRefresh.LoneRefreshSucceeds | src/oauth.ts:552-641 | a session that finds the lock free and a stale credential, and whose refresh is answered completely, stores what the reply gave and gets just that |
| OAuthRefresh.StepKeepsInv | src/oauth.ts:552-641 | every step, faults included, keeps the lock with its holder and the stored token with the latest login |
| OAuthRefresh.StepKeepsCurrent | src/oauth.ts:584-632 | every step that loses nothing the provider issued keeps the newest token stored or in the lock holder's hands, partial responses included |
| OAuthRefresh.UsesTheLock | src/oauth.ts:557-641 | every run takes the refresh lock only while it is free and only its holder gives it up: it is a run of the same abstract lock |
| RefreshGate.RefreshWaitGate.Enter | src/oauth.ts:37-58 | a caller that enters is counted, and leaves at once if its signal has fired |
| RefreshGate.RefreshWaitGate.Leave | src/oauth.ts:37-58 | leaving counts once; the gate aborts iff the last caller leaves |
| RefreshGate.AbortsExactlyWhenEmpty | src/oauth.ts:31-59 | over every run the count is the callers inside, and a gate is aborted iff nobody is |
| RefreshGate.NeverJoinsAnAbortedGate | src/oauth.ts:643-690 | a caller that needs a refresh waits on one that is not aborted, and that is settled iff the registered one has settled and is not unregistered yet; at most one pending refresh is awaited |
| RefreshGate.LeavingTwiceCountsOnce | src/oauth.ts:37-58 | a second leave changes nothing |
| Conversation.FlattenWrapUpHistory | src/turn.ts:631-664 | the loop computes the flattened history |
| Conversation.FlattenIsPlain | src/turn.ts:631-664 | flattening any history leaves no tool calls, no tool results and no two adjacent user messages |
| Conversation.InstructionComesLast | src/turn.ts:616-629 | the wrap-up instruction ends the request, whatever it was merged with |
| Conversation.FlattenSaysAll | src/turn.ts:572-664 | every message of any history is said in its flattened form, in order: user texts, results with name, id and text up to the cap, calls with id, name and arguments up to the cap |
| Conversation.TextPartsAreRead | src/turn.ts:572-582 | the text parts of a message, in order, make its text |
| Conversation.UsePartsAreRead | src/turn.ts:590-594 | the parts that carry calls, in order, give its calls |
| Conversation.Capped | src/turn.ts:584-588 | a capped text is within the cap, unchanged if it fits and otherwise cut and marked |
| Conversation.AppendNotExecutedResults | src/turn.ts:1292-1305 | records a result for each pending call, in order |
| Conversation.AnsweringCompletes | src/turn.ts:1292-1305 | results in the order of the pending calls complete a history |
| Conversation.AssistantOpens | src/turn.ts:1586-1605 | an assistant message opens exactly the calls it carries |
| LlmStream.RunLlmStream | src/turn.ts:229-440 | the loop over stream events folds them into a result and stops at the abort signal |
| LlmStream.SentIsReported | src/turn.ts:229-440 | every reply, interrupted or not, reports exactly the text it sent |
| LlmStream.ReasonIsTheLast | src/turn.ts:229-440 | the reason is that of the last event that gives one |
| LlmStream.MessageIsTheLast | src/turn.ts:229-440 | the message is that of the last ending event, and the reply counts as ended iff there is one |
| LlmStream.FailureIsTheLast | src/turn.ts:229-440 | whether a failure may be retried is what the last error says |
| LlmStream.StatusIsTheLast | src/turn.ts:229-440 | a status is kept until another comes |
| LlmStream.KindIsTheLast | src/turn.ts:229-440 | so is a kind of error |
| LlmStream.ToolsAreNoticed | src/turn.ts:229-440 | a reply has shown tool calls iff one of its events did |
| LlmStream.InterruptedIff | src/turn.ts:229-440 | a reply is cut short iff the signal fires before its last event is taken, and what it sent is a prefix of the whole |
| LlmStream.TimeoutKeepsText | src/turn.ts:1515-1525 | a reply that timed out keeps its visible text and none of its calls; any other stays as it is |
| LlmStream.DriverGivesToolsOk | src/turn.ts:229-440 | a reply that asks for tools carries the message with exactly its pending calls |
| TurnLoop.ClampTurnInt | src/turn.ts:671-674 | a positive configured value is used, anything else is replaced by the default, so loop bounds are positive |
| TurnLoop.ExecuteBatch | src/turn.ts:1769-1915 | pushes for each call, in the order of the calls, a result with its id, its name, and the text and error flag its tool gave |
| TurnInvariants.AttemptFacts | src/turn.ts:1136-1179 | a request is recorded with the history as it is; its text is shown or held, and is the text of its result |
| TurnInvariants.StopFacts | src/turn.ts:1618-1623 | pending calls are answered as not executed, then one wrap-up request is made and no batch runs |
| TurnLoop.RunTurn | src/turn.ts:1246-1957 | the loop computes the turn that the lemmas are about |
| TurnInvariants.RequestsAreWellFormed | src/turn.ts:1442-1957 | there is at most one wrap-up request, the last, plain and ending with its instruction; as long as drivers pair tool calls with their message, every main request answers each tool call once and in order, and the history after a wrap-up is complete |
| TurnInvariants.ShownIsStoredIff | src/turn.ts:1448-1588 | in every turn that does not throw, the text shown equals the accumulated response iff no reply taken before the loop is lost to an abort |
| TurnInvariants.RequestsAreBounded | src/turn.ts:1442-1957 | at most one request a step and two more, three with a fallback, as long as a request before the loop throws an abort error only once the signal has fired |
| TurnInvariants.RequestsBoundedUnlessStray | src/turn.ts:1246-1286 | without that premise, at most one more |
| TurnInvariants.BatchFacts | src/turn.ts:1674-1957 | a batch runs at most once a step and answers its calls in order; an abort around it ends the turn without another request |
| TurnInvariants.BatchesAreBounded | src/turn.ts:1625-1636 | with a sink that can pause at most hard_max_steps - 1 batches run, otherwise at most max_steps |
| TurnInvariants.LimitsFacts | src/turn.ts:1608-1672 | a stop before the batch runs nothing, answers every pending call and asks at most the wrap-up |
| TurnInvariants.RecoverFacts | src/turn.ts:1456-1528 | after a retry and a fallback the text shown is the text of the result used; a rejected fallback shows nothing |
| TurnInvariants.StepFacts | src/turn.ts:1442-1957 | every step keeps the invariant within its number of requests and batches |
| TurnInvariants.WrapUpFacts | src/turn.ts:1363-1440 | a wrap-up adds one plain request and leaves a complete history and the text as it was |
| TurnInvariants.CredentialFacts | src/turn.ts:1246-1286 | the fallback for a failed sign-in makes at most one request and shows only what it commits |
| TurnDialogue.TurnTells | src/turn.ts:1442-1957 | in every turn each main request holds the user message, every reply taken over and the output of every tool run before it; each batch was asked for by a whole reply and forbidden by no budget, pause or ceiling; a wrap-up has its reason, its request is the flattened dialogue with the instruction, and its reply is the summary that ends the history; a turn ends without one only by the signal, an exception, a reply without calls or a failure |
| TurnDialogue.OutputsAreSent | src/turn.ts:1898-1904 | every output of every batch run before a main request is in that request |
| TurnDialogue.RetriedIff | src/turn.ts:1456-1475 | a first reply nobody has seen is asked for again iff it failed for the moment, was empty or was cut off |
| TurnDialogue.SeenReplyIsFinal | src/turn.ts:1456-1475 | a reply is never asked for again once the user has seen text of it, the signal has fired or a step is done |
| TurnDialogue.TimeoutGoesToFallback | src/turn.ts:1456-1528 | a first reply that timed out goes straight to the fallback, if there is one to go to |
| TurnDialogue.FallbackIsUsedIff | src/turn.ts:1476-1528 | the fallback's reply is used iff it ended properly with something to go on, and only then is its text shown |
| TurnDialogue.SignInFallback | src/turn.ts:1246-1286 | after a failed sign-in, what each outcome of the fallback's sign-in, preparation and reply does to the turn |
| TurnDialogue.NothingIsAskedAfterAbort | src/turn.ts:1442-1449 | a turn whose signal has fired before it starts asks for nothing |
| TurnCorners.MostRequestsIsExact | src/turn.ts:1442-1957 | for every configuration with a credential, that number is exactly the most requests any environment brings about |
| TurnCorners.BoundIsReached | src/turn.ts:1456-1528 | the environment that reaches it: first replies cut off, then tool calls to the last step |
| TurnCorners.ShownIsAlwaysStoredIff | src/turn.ts:1246-1286 | what is shown is stored in all environments iff the turn never asks the fallback first |
| TurnCorners.LateAbortLosesReply | src/turn.ts:1442-1449 | the environment in which a shown reply is not stored |
| ProviderCatalog.NothingStaleIsStored | src/provider-catalog.ts:354-365 | over every interleaving a stored catalog comes from a fetch started after the provider's last invalidation |
| ProviderCatalog.StoredWasFetched | src/provider-catalog.ts:545-581 | over every run a stored catalog holds exactly the models its fetch settled with |
| ProviderCatalog.FetchedIsStored | src/provider-catalog.ts:545-581 | models that an unaborted fetch settles with are stored, and stay until an invalidation or another catalog |
| ProviderCatalog.LifeOfAFetch | src/provider-catalog.ts:354-581 | a fetch is aborted by its timeout or an invalidation while in flight and by nothing else, and settles once |
| ProviderCatalog.SettleTouchesOnlyItsOwn | src/provider-catalog.ts:562-581 | a settling fetch removes no registration but its own; an aborted one stores nothing |
| ProviderCatalog.DeadRegistrationIffFailedAtOnce | src/provider-catalog.ts:430-581 | a registration's fetch is already settled iff it threw before its first await |
| ProviderCatalog.DeadRegistrationStays | src/provider-catalog.ts:430-440 | such a registration answers every request until the provider is invalidated |
| ProviderCatalog.CatalogCache.FetchProviderCatalogFresh | src/provider-catalog.ts:430-581 | joins the fetch in flight or registers a new one |
| ProviderCatalog.CatalogCache.SettleFetch | src/provider-catalog.ts:545-581 | stores unless aborted, then unregisters itself if it is the registered one |
| ProviderCatalog.CatalogCache.InvalidateProviderCatalog | src/provider-catalog.ts:354-365 | aborts and unregisters the fetch in flight and drops the stored catalog |
| CatalogIndex.BuildSuffixIndex | src/provider-catalog.ts:81-90 | the loop builds the map from each bare name to the first id that has it |
| CatalogIndex.Scan | src/provider-catalog.ts:194-202 | the loop finds the first id that ends in a slash and the name |
| CatalogIndex.SuffixIsLastSegment | src/provider-catalog.ts:81-90 | for a name without slashes, ending in "/name" is having it as last segment |
| CatalogIndex.IndexEqualsScan | src/provider-catalog.ts:178-202 | index and scan find the same id, or neither finds one |
| CatalogIndex.FindInCatalog | src/provider-catalog.ts:178-202 | the answer is the same with the index, without it, and by the scan alone |
| CatalogIndex.ResolveMeans | src/provider-catalog.ts:178-202 | the answer is the first candidate the catalog has; failing that, for a name without a slash only, the first id whose last segment is the name; nothing only if there is neither |
| JsonText.ParseUndoesWrite | src/event-log.ts:150-185 | parsing undoes writing for every value |
| JsonText.WriteIsOneLine | src/event-log.ts:174-176 | a written value contains no line break |
| LogText.ReadBackUndoesWrite | src/event-log.ts:105-137 | reading the file gives back exactly the events written, in order |
| LogText.SizeTellsHowMany | src/event-log.ts:105-117 | a size is the size of one prefix of the log only |
| EventLog.SyncIsExact | src/event-log.ts:105-137 | a cache that was right once answers with exactly the events now in the file |
| EventLog.AppendIsExactIff | src/event-log.ts:150-185 | after an append the cache is exact iff it was cold or exact before |
| EventLog.StaleAppendIsServed | src/event-log.ts:150-185 | after an append through a stale cache, reads go on missing the other writer's events |
| EventLog.FailedStatIsForgotten | src/event-log.ts:105-137 | a read that cannot stat the file gives nothing; the next is exact again, but an append in between is exact only on an empty log |
| EventLog.ReadsAreExact | src/event-log.ts:105-193 | with one writer at a time, after any appends, reads and reopenings every log object reads exactly the appended events in order |
| EventLog.EventLog.SyncCache | src/event-log.ts:105-137 | the cache after a sync, with the time and size shortcut and the failing stat |
| EventLog.EventLog.Append | src/event-log.ts:150-185 | writes one line and extends the cache, filling a cold one first |
| EventLog.EventLog.ReadAllUncompressed | src/event-log.ts:203-208 | all events without the marked ones |
| EventLog.EventLog.ReadAllUncompressedAfterResetBoundary | src/event-log.ts:215-220 | cut at the last boundary, then without the marked ones |
| EventLog.EventLog.MarkEventsAsCompressed | src/event-log.ts:294-301 | marks are added and the checkpoint lists exactly the marked ids |
| EventLog.FindLastResetBoundaryIndex | src/event-log.ts:343-349 | the index of the last boundary, or -1 when there is none |
| EventLog.EventsAfterResetBoundary | src/event-log.ts:351-354 | the events after the last boundary |
| EventLog.DropAndCutCommute | src/event-log.ts:203-219 | dropping the marked and cutting at the boundary commute when no boundary is marked |
| Compaction.ChunkBounds | src/auto-compact.ts:97-105 | a chunk is an oldest-first prefix of two to half of the selectable events, or empty below four |
| Compaction.ChunkIsTheShare | src/auto-compact.ts:103-104 | a chunk holds the fraction asked for, rounded down, but two events at least |
| Compaction.SelectingKeepsOrder | src/auto-compact.ts:59-63 | selecting keeps the order and leaves out only context actions and system notes |
| Compaction.ChooseChunk | src/auto-compact.ts:59-105 | the filter loop and the cut give the chunk |
| Compaction.MaybeAutoCompactClassic | src/auto-compact.ts:69-138 | marks exactly the chunk and appends the note, or changes no mark |
| Compaction.BoundariesAreNeverMarked | src/compile-classic.ts:104-105 | over any run, failing compactions included, no boundary is marked, so the classic prompt and compaction see the same events |
| Compaction.NothingIsSummarisedTwice | src/auto-compact.ts:97-112 | as long as no compaction is abandoned between its first stored fact and the mark, no event is summarised twice |
| Compaction.TwiceIffAbandonedInTheWindow | src/auto-compact.ts:111-112 | abandoning a compaction, by a crash or a failure, can lead to an event being summarised twice iff part of its summary is stored and its chunk is still after the last boundary |
| Compaction.FinishingUnstoredLosesTheChunk | src/memory/store.ts:359-378 | a chunk marked although nothing was stored is never chosen or summarised again |
| StateGraph.DoKeepsInv | src/state-graph.ts:25-103 | every live operation keeps key equal to id and at most one focused object |
| StateGraph.ReplayKeepsInv | src/state-graph.ts:214-273 | so does replaying any logged action |
| StateGraph.StateGraph.CreateObject | src/state-graph.ts:31-45 | a new object is active and stamped with the current turn |
| StateGraph.StateGraph.UpdateObject | src/state-graph.ts:47-55 | merges the patch into a known object and stamps it |
| StateGraph.StateGraph.MoveToTier | src/state-graph.ts:57-64 | changes the tier and restarts the object's age |
| StateGraph.StateGraph.Focus | src/state-graph.ts:93-103 | focuses one known object and clears every other |
| StateGraph.StateGraph.AutoHydrate | src/state-graph.ts:178-212 | wakes exactly the matched peripheral objects |
| StateGraph.StateGraph.Replay | src/state-graph.ts:214-273 | one logged action, without stamping the touched turn; what it restores is said by the rows of ReplayedState |
| ReplayedState.KnownIff | src/state-graph.ts:214-273 | after replaying any log an object exists iff it was created after the last reset, or was there and nothing was reset |
| ReplayedState.PayloadIsLastNamed | src/state-graph.ts:221-241 | each payload key has the value of the last logged creation or update of the object that names it |
| ReplayedState.PayloadKeys | src/state-graph.ts:221-241 | the payload has exactly the keys named since the last creation |
| ReplayedState.TierIsLastSet | src/state-graph.ts:219-250 | the tier is that of the last creation or tier change |
| ReplayedState.UpdatedIsLastSet | src/state-graph.ts:219-271 | the time of change is that of the last creation, retraction or update with a patch |
| ReplayedState.BirthIsLastCreate | src/state-graph.ts:219-229 | kind and creation time are those of the last creation |
| ReplayedState.RetractedIff | src/state-graph.ts:264-271 | an object is retracted iff a retraction came after its last creation |
| ReplayedState.FocusedIff | src/state-graph.ts:252-262 | an object has the focus iff the last focus on an object that existed then was on it and it has not been created again since |
| ReplayedState.OperationRedoes | src/tools/memory.ts:89-337 | replaying what a live operation logs does to the objects what the operation did |
| ReplayedState.ReplayRestoresSession | src/tools/memory.ts:89-337 | so replaying the log of a session, hydrations and resets included, gives the objects it ended with; of a retracted one the times may differ, because a retraction is logged without its time |
| StateReplay.FindReplayStartIndex | src/state-graph-checkpoint.ts:95-102 | the position after the first event with the anchor's id |
| StateReplay.ReplayStateGraphFromEvents | src/state-graph-checkpoint.ts:104-125 | the loop replays exactly the suffix and counts the effective events |
| StateReplay.Snapshot | src/state-graph.ts:125-130 | all objects, retracted ones included, once each, by creation time and id |
| StateReplay.ExportCheckpoint | src/state-graph.ts:142-159 | the checkpoint of a graph |
| StateReplay.RestoreFromCheckpoint | src/state-graph.ts:161-171 | rebuilds a graph from a checkpoint |
| StateReplay.CheckpointRoundTrip | src/state-graph.ts:142-171 | restoring a checkpoint gives the graph it was made from |
| StateReplay.ResumeEqualsFullReplay | src/state-graph-checkpoint.ts:95-125 | prefix, checkpoint, restore and replay of the suffix give the graph of the full replay |
| StateReplay.RestoreWorkingMemory | src/session.ts:702-723 | no checkpoint or no anchor leaves the graph empty; otherwise restore and replay the suffix |
| WorkingMemory.EveryGraphIsSound | src/state-graph.ts:20-273 | over every run of live operations, sweeps, saves and resumes, key equals id and one object at most has the focus |
| TierAgeing.ApplyTierManagement | src/turn.ts:2242-2266 | the two loops compute the sweep |
| TierAgeing.SweepOne | src/turn.ts:2242-2266 | what a sweep does to one object, and that a demotion restarts its age |
| TierAgeing.NoIdleObjectIsLeft | src/turn.ts:2242-2266 | no sweep promotes, and no visible object is left idle for its tier's limit |
| TierAgeing.ExactAgeing | src/turn.ts:2242-2266 | untouched since turn c: active until c+soft, soft until c+soft+hard, then hard, whatever happens to others |
| TierAgeing.TouchingStartsTheClock | src/state-graph.ts:31-103 | every operation that touches an object and leaves it active starts that clock |
| RequestKeys.KeyIsInjective | src/context-engine/artifact-store.ts:557-559 | keys are equal iff path and both bounds are, whatever the path contains |
| RequestKeys.ClearedKeys | src/context-engine/artifact-store.ts:580-587 | exactly which keys clearing a path removes |
| ArtifactStore.RetrieveExactLines | src/context-engine/artifact-store.ts:383-440 | lines a..b of a stored read of s..e are returned, exactly, iff s <= a <= b <= e |
| ArtifactStore.AbsentStart | src/context-engine/artifact-store.ts:405-416 | an absent start is line 1 of the file, so the request succeeds iff the stored range begins there |
| ArtifactStore.AbsentEnd | src/context-engine/artifact-store.ts:405-416 | an absent end is the last line stored |
| ArtifactStore.RetrievesFileLines | src/context-engine/artifact-store.ts:383-440 | of a read of a file's lines any stored lines come back as they are in the file |
| ArtifactStore.AdjacentRetrievalsRejoin | src/context-engine/artifact-store.ts:47-56 | adjacent retrievals joined by a newline are the retrieval of the whole |
| ArtifactStore.WholeRangeIsTheText | src/context-engine/artifact-store.ts:383-440 | retrieving the whole range gives the stored text |
| ArtifactStore.KeysMeanRequests | src/context-engine/artifact-store.ts:347-374 | requests share a key iff they mean the same lines, or meet at the open-end sentinel; never so with offset and limit at least 1 |
| ArtifactStore.ArtifactStore.IngestToolResult | src/context-engine/artifact-store.ts:182-381 | reuses a row whose text is unchanged, otherwise inserts one under its primary key |
| ArtifactStore.ArtifactStore.FindFileReadArtifactByRange | src/context-engine/artifact-store.ts:557-578 | the row the index gives for the request |
| ArtifactStore.ArtifactStore.ClearFileReadAllRanges | src/context-engine/artifact-store.ts:580-587 | removes exactly the keys with the path's prefix |
| ArtifactStore.ArtifactStore.RebuildFileReadIndex | src/context-engine/artifact-store.ts:109-134 | the index of a resumed session |
| ArtifactStore.RepeatFindsIt | src/context-engine/artifact-store.ts:347-374 | a repeated request finds the artifact just stored, and other keys find what they found before |
| ArtifactStore.SameReadIsReused | src/context-engine/artifact-store.ts:182-254 | reading the same text by the same request again stores nothing: the row is reused and counted once more |
| ArtifactStore.ClearForgetsThePath | src/context-engine/artifact-store.ts:580-587 | after a clear no range of the path is found, and exactly which other requests are lost |
| ArtifactStore.ClearSparesOtherPaths | src/context-engine/artifact-store.ts:580-587 | paths without '#' never share a fate |
| ArtifactStore.ClearCanHitAnotherFile | src/context-engine/artifact-store.ts:580-587 | a path ending like a key drops another file's range |
| ArtifactStore.WhenIngestFails | src/context-engine/db.ts:334-374 | an ingest violates the primary key iff this text was stored for this request and the index no longer says so |
| ArtifactStore.UnchangedRereadFails | src/turn.ts:1834-1853 | reading an unchanged file again after clearing it always does |
| ArtifactRuns.ReachableInv | src/context-engine/artifact-store.ts:109-381 | every store a session reaches by reads, writes and restarts is sound: rows hold the lines they claim and the index points at rows of its keys |
| ArtifactRuns.IndexFollowsHistory | src/context-engine/artifact-store.ts:347-374 | what a repeated request finds is what the history of the session says |
| ArtifactRuns.ReadFailsIff | src/context-engine/db.ts:334-374 | in any session a read violates the primary key iff this text was read for this request and a repeat would not find it now |
| ArtifactRuns.ReadFailsIffDisplaced | src/context-engine/db.ts:334-374 | within one process, iff since some read of it the path was written to or another text was stored for it |
| ArtifactRuns.ReadIsFoundAgain | src/context-engine/artifact-store.ts:182-381 | in any session a read that does not fail is found by its repeat, and other requests find what they found |
| ArtifactStore.ResumeRevivesClearedRanges | src/context-engine/artifact-store.ts:109-134 | a resumed session finds a range iff it was ever stored |
| LoopGate.LoopGate.ObservePre | src/circuit/loop-gate.ts:130-157 | blocks iff the call does not only read and at least threshold - 1 earlier calls had its arguments or as many earlier failures its target; counts the call and notes the first block of a key |
| LoopGate.LoopGate.ObservePost | src/circuit/loop-gate.ts:144-148 | counts a failure of a call that is not exempt |
| LoopGate.FromEvents | src/circuit/loop-gate.ts:86-116 | the loop over the log rebuilds the gate, which has observed every logged call and every result as that of the last call |
| LoopGate.RefusedIff | src/circuit/loop-gate.ts:130-142 | after any run of a new gate, by counting the events of the run: refused iff threshold - 1 calls with these arguments or threshold - 1 failures with this target came before |
| LoopGate.NotedIffRefused | src/circuit/loop-gate.ts:143-157 | over any run a key is noted iff a call was refused under it, and once |
| LoopGate.RebuiltIsAtLeastAsStrict | src/circuit/loop-gate.ts:86-148 | for any run of batches logged and charged rightly, in whatever order concurrent calls ran, the rebuilt counters dominate the live ones, so the rebuilt gate blocks whatever the live one blocks |
| LoopGate.SequentialSessionsAreRebuilt | src/circuit/loop-gate.ts:86-148 | in particular for a session that makes its calls one at a time and logs them verbatim |
| LoopGate.BatchDominatesIff | src/turn.ts:1676-1760 | after a batch whose failures are logged the rebuilt gate dominates, from every dominated start and in every order, iff each call that can fail has the target its last call is logged with, that one counts, and every key is logged at least as often as counted |
| LoopGate.LiveCounts | src/circuit/loop-gate.ts:130-148 | after a batch in any order the live counters have grown by exactly the calls that got there and the failures that ran |
| LoopGate.RebuildCounts | src/circuit/loop-gate.ts:86-116 | the rebuilt counters grow by every logged call, and every logged failure is charged to the last call of the batch |
| LoopGate.MischargedFailure | src/circuit/loop-gate.ts:86-116 | for a batch with a failure charged elsewhere, the run that leaves the rebuilt gate behind |
| LoopGate.LostCall | src/turn.ts:1679-1685 | for a batch with a key that redaction changed in the log, the run that leaves it behind |
| LoopGate.RedactedCallIsLost | src/turn.ts:1679-1685 | for one harmless call, the keys are logged iff its logged arguments still count under the raw key |
| LoopGate.VerbatimLogsKeys | src/turn.ts:1679-1685 | when nothing that reaches the gate is redacted, every key is logged often enough |
| LoopGate.AllowedAtMostThreshold | src/circuit/loop-gate.ts:130-142 | in any run a call is let through at most threshold - 1 times |
| LoopGate.BlockedStaysBlocked | src/circuit/loop-gate.ts:130-148 | a blocked call stays blocked |
| TokenBudget.EstimateTokens | src/token-estimate.ts:66-77 | the loop computes the estimate |
| TokenBudget.EstimateConcat | src/token-estimate.ts:66-77 | est(a) + est(b) - 1 <= est(a + b) <= est(a) + est(b) |
| TokenBudget.FourLettersAToken | src/token-estimate.ts:17-77 | text below the general punctuation counts four characters to a token, rounded up |
| TokenBudget.ThreeIdeographsTwoTokens | src/token-estimate.ts:25-37 | text of kana, ideographs, Hangul and full-width forms counts 0.667 a character, rounded up |
| TokenBudget.OneTokenAnEmoji | src/token-estimate.ts:43-60 | pictographs count one each, joiners and variation selectors nothing |
| TokenBudget.OthersCountAsLetters | src/token-estimate.ts:17-60 | exactly the characters outside these classes count like letters |
| TokenBudget.TrimSectionToTokenBudget | src/compiler.ts:709-731 | truncates iff a positive budget is exceeded and there is a second line, to the fitting prefix of lines and a notice; otherwise the text is unchanged |
| TokenBudget.TrimmedWithinBudget | src/compiler.ts:709-731 | a trimmed section is a line prefix estimated at no more than the larger of the budget and its first line, plus the notice |
| TokenBudget.FitIsUnique | src/compiler.ts:709-731 | the number of lines kept is determined |
| TokenBudget.BuildRecentTurns | src/compiler.ts:545-603 | the text is the header, the longest prefix of non-empty rendered lines that fits and, if cut, the notice; says when it is cut |
| TokenBudget.SectionWeight | src/compiler.ts:545-603 | the section weighs exactly its header, its lines, a newline for each and the notice if cut |
| TokenBudget.WithinBudgetIff | src/compiler.ts:545-603 | the section stays within its budget iff the slack left by rounding covers the newlines and the notice, which are not charged |
| TokenBudget.RecentTurnsOverrun | src/compiler.ts:545-603 | it exceeds its budget by at most those |
| TokenBudget.FullBudgetOverruns | src/compiler.ts:545-603 | three or more short user messages that fit their budget to the token are all kept and exceed it, by an amount that grows with their number |
| TextLines.JoinUndoesSplit | src/compiler.ts:709-731 | joining the lines of a text gives the text |
| TextLines.SplitUndoesJoin | src/context-engine/artifact-store.ts:47-56 | splitting joined lines gives the lines |

## Left out

- Network, browser, callback server, provider drivers, SSE parsing and SQLite itself: each is an arbitrary outcome. Of SQLite the lock rule and the primary key are kept.
- OAuthRefresh.NewestTokenIsStored: the refresh lock and the lock file are tied through the abstract lock of ExclusiveLock, and a store section is one step by CredentialStore.SectionIsAtomic; there is no single model of all layers.
- LockFile.MutualExclusion: follows one path, because lock files share no state; polling intervals, deadlines and busy times are left to the order of steps.
- OAuthRefresh.ReturnedIsStored: does not claim that a returned token is unexpired, because two paths return one without looking.
- RefreshGate.NeverJoinsAnAbortedGate: one provider at a time, because gates of different providers are independent.
- CredentialStore.CacheAnswerIsCurrent: assumes that a replaced file never has an identity seen before, as the code does.
- JsonText.ParseUndoesWrite: numbers are their tokens and strings are sequences of characters; whitespace between tokens, which the log never contains, is not read.
- EventLog.ReadsAreExact: one writer at a time and a file that can be stat-ed; two writers are the subject of EventLog.AppendIsExactIff, a failing stat of EventLog.FailedStatIsForgotten. Searching the log is left out.
- Compaction.NothingIsSummarisedTwice: marking is one step. The checkpoint of marks is written in place, and one that a death left half written is ignored on the next start, so all marks can be lost; the model has no such death. A summary counts from its first stored fact. What the memory store makes of a chunk, its own search for duplicates included, is left out, and so is the armed flag of the trigger, which never changes when it fires.
- Compaction.ChunkBounds: the fraction is a real number; rounding in floating point is not modelled.
- StateGraph.StateGraph.AutoHydrate: which objects match a query is a set given from outside; the two passes, by keyword and by score, are one set.
- StateReplay.ResumeEqualsFullReplay: about replay only. Replay does not stamp touched turns and sweeps are not logged, so a replayed graph need not age like the live one.
- ReplayedState.ReplayRestoresSession: sessions without sweeps, for the same reason.
- TurnLoop.RunTurn: thinking text, usage, logging, context accounting and the sink's other callbacks are left out; tools, pauses, budgets and the moment of the abort are arbitrary. The wording of the wrap-up instruction is arbitrary too.
- TurnInvariants.ShownIsStoredIff: covers the main loop and the fallback before it. In a wrap-up, leading white space goes out before the separator, so what is shown then can differ from what is stored.
- Conversation.FlattenIsPlain: a summarised call is its id, name and capped arguments without the JSON syntax around them.
- ArtifactRuns.ReadFailsIff: requests have offset and limit at least 1, which the tool's schema checks (`src/tools/system.ts:421-432`).
- ArtifactStore.RetrieveExactLines: other ways to retrieve (pattern, JSON path) and distillation are left out; a digest is taken to be injective.
- CatalogIndex.FindInCatalog: names inherited from a JavaScript object's prototype are not in the model's maps.
- LoopGate.RebuiltIsAtLeastAsStrict: what redaction makes of arguments is arbitrary. A batch that is interrupted counts as one whose calls did not get there. Nothing is said about notes; a rebuilt gate remembers the text of a note where the live one remembers its key.
- TokenBudget.EstimateConcat: weights are exact thousandths, where the program adds floating-point numbers.
- trimAgentsContext, the compiler's other sections, memory, embeddings, BM25, hooks, individual tools, the terminal interface, configuration tables and release scripts: case lists and prose, or code without the state worth proving here.
