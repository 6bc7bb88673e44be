# Verified models of the AI platform's stateful cores

A Dafny 4.11 model of the parts of the platform whose correctness depends on whole histories rather than on single
calls, with proofs over every run, every interleaving or every input.

| file | what it holds |
|---|---|
| `Prelude.dfy`, `NewestFirst.dfy` | options, index lists, powers; the stable newest-first order and slicing |
| `TokenStore.dfy` | the refresh-token repository as a value, and the flat document collection it must agree with |
| `AuthStores.dfy`, `AuthSpec.dfy` | accounts, OAuth states, and the auth service as one state machine: login, refresh, logout, housekeeping |
| `AuthRepositories.dfy`, `AuthUseCases.dfy` | the same service as objects: mutable tokens shared by two indexes, use cases that change them in place, each proved against the state machine |
| `AuthInvariant.dfy`, `AuthTheorems.dfy`, `AuthWitnesses.dfy` | the inductive invariant, the guarantees over every run, and runs that show where they end |
| `AuthAnswers.dfy`, `AuthAccess.dfy` | what each use case answers and writes, by the stored fields; who gets in over every run |
| `AuthFlat.dfy` | the auth service that sees only the flat collection, indistinguishable from the other |
| `AsyncJobs.dfy`, `AsyncAnswers.dfy`, `AsyncOutcomes.dfy`, `AsyncOrchestrator.dfy` | `process_job` and `cancel_job` cut at their awaits, any number of them interleaving over shared job objects; the orchestrator object refines it |
| `AsyncWorker.dfy` | the asyncio worker: semaphore, task table, cancellation |
| `JobLifecycle.dfy`, `JobHistory.dfy`, `JobManager.dfy` | the AI worker's job manager: transitions, events, timed cleanup, listing, statistics |
| `Summarizer.dfy` | the extractive summarizer: sentence splitting as a parser, joining as its printer |
| `Profiling.dfy` | column profiles of record lists, and the law by which they merge |
| `Polling.dfy`, `Connection.dfy` | the polling loop with back-off, and the connection retry loop |
| `Policies.dfy` | authorization policy trees and their builders |

Code that mutates objects is modelled by classes whose methods are proved equal to a step function on values; the
theorems are then about that function. Code that computes is modelled by functions.

## What the code does that its texts do not say

Each of these is stated of the code as it is, with its exact condition and an input that shows it happens.

- `delete_expired` forgets superseded tokens, so presenting one again revokes its family only until a sweep has
  removed it: `AuthTheorems.ReuseDetectedUntilSwept` says exactly when, `AuthWitnesses.ReuseMissedAfterSweep` is a run.
- Logging out with a superseded token does nothing and its family stays alive: `AuthTheorems.LogoutKillsFamily`,
  `AuthWitnesses.LogoutWithSupersededToken`.
- Saving a token under a stored hash of another session leaves the hash in two session lists:
  `TokenStore.SaveExactIff`.
- A second `process_job` on an id whose job is running fails that job, however its validation ends and whatever the
  first one's task goes on to return: `AsyncOutcomes.SecondProcessFailsRunningJob`, `AsyncOutcomes.SecondProcessHappens`.
  `AsyncOutcomes.OwnerDecidesIff` says exactly when the owner's outcome counts.
- Calling `enqueue` again for an id can drop the newer task from the worker's table, because the older task's callback
  pops by id: `AsyncWorker.EnqueueSafeIffQuiet` says exactly which calls are safe, `AsyncWorker.ReEnqueueLosesTask` is
  a run.
- `poll_until_complete` says it retries after connection errors, but `get_job_status` turns each of them into a
  `ValueError` whose text contains "Failed", which ends the wait; and a missing job is not waited for when its own id
  contains "failed" or "cancelled": `Polling.OnlyMissingJobsAreAwaited`.
- A time-based policy never decides for a context made from token claims: it compares a naive clock reading with an
  aware expiry (shared/shared_auth/models.py:139-141, shared/shared_auth/jwt_handler.py:99-104), which raises. With such
  a leaf, or one whose argument is missing, an added role can turn a grant into an error:
  `Policies.TimeBasedAlwaysStarves`, `Policies.StarvedLeafBreaksMonotony`. It never turns one into a denial
  (`Policies.RolesNeverDeny`), and `Policies.GrantSurvivesIff` says exactly when the grant survives.
- An empty composite policy grants, also inside an "or", so removing one there can turn a grant into a denial:
  `Policies.SplicePreserves` says exactly when, `Policies.EmptyOrSpliceDenies` is a case.
- The job manager's retention bound needs a retention of at least 0 days, and the strict bound after a creation needs a
  cleanup interval above 0 hours: `JobLifecycle.RetentionBoundIff` and `JobLifecycle.YoungIff`.

## Assumptions

- One step is one use case or repository call with one clock reading, the clock never goes back, and TTLs are fixed.
- `uuid4` and `token_urlsafe` values are new each time; SHA-256 is injective (a constructor).
- The asyncio store hands out the stored job objects themselves, as an in-memory repository does.
- Provider answers, task outcomes, status replies and server pings are inputs.

## Model

| member | source | states |
|---|---|---|
| AuthTheorems.AtMostOneLiveToken | services/auth_service/src/application/use_cases/refresh_token.py:38-75 | In every reachable state of every run, a session has at most one unrevoked stored token. |
| AuthTheorems.FamilyIsOneChain | services/auth_service/src/application/use_cases/refresh_token.py:59-65 | In every reachable state the index list of a session holds exactly its stored tokens, in creation order; each but the newest is revoked and names the next by `replaced_by_id`, and the newest names none. |
| AuthTheorems.SuccessorStored | services/auth_service/src/infrastructure/repositories/in_memory_refresh_token_repository.py:48-61 | No `replaced_by_id` of a stored token dangles, sweeps notwithstanding. |
| AuthTheorems.RefreshMovesLiveRole | services/auth_service/src/application/use_cases/refresh_token.py:59-75 | A successful refresh was of the one live token and leaves the new token as the one live token, linked from the old one and of the same user. |
| AuthTheorems.TokenHistory | services/auth_service/src/domain/entities/refresh_token.py:83-89 | Along any run a token stays stored exactly until a sweep at or after its expiry; its identity, expiry and owner never change, and once set neither do the time and reason of its revocation. |
| AuthTheorems.RunRevivesNothing | services/auth_service/src/infrastructure/repositories/in_memory_refresh_token_repository.py:48-61 | A token that was removed never comes back. |
| AuthTheorems.DeathIsPermanent | services/auth_service/src/application/use_cases/refresh_token.py:45-48 | A session without an unrevoked token never gets one again in any run. |
| AuthTheorems.DeadFamilyNeverRefreshes | services/auth_service/src/application/use_cases/refresh_token.py:42-48 | After a session has died, in every continuation a refresh with any token it stored is rejected: as a compromise while the token is stored, as unknown once it is swept. |
| AuthTheorems.ReuseKillsFamily | services/auth_service/src/application/use_cases/refresh_token.py:45-48 | Presenting a revoked stored token is answered with a compromise error and leaves its session dead. |
| AuthTheorems.LogoutKillsFamily | services/auth_service/src/application/use_cases/token_ops.py:23-28 | Logging out with a stored token leaves its session dead exactly when that token was unrevoked or the session was dead already. |
| AuthTheorems.ReuseDetectedUntilSwept | services/auth_service/src/application/use_cases/refresh_token.py:42-48 | Presenting a revoked token after any further run is detected as reuse if no sweep has run at or after its expiry, and is merely unknown, without touching any token, if one has. |
| AuthTheorems.StateAcceptedOnce | services/auth_service/src/infrastructure/security/oauth_state_store.py:47-55 | In every run each OAuth state is accepted at most once. |
| AuthTheorems.SpentNeverAccepted | services/auth_service/src/infrastructure/security/oauth_state_store.py:47-55 | A state that was issued and is no longer pending is never accepted again. |
| AuthTheorems.AcceptedStateWasStarted | services/auth_service/src/presentation/routes/v1/auth/service.py:74-100 | Every accepted callback answers a start of its state for its provider that came before it and is younger than the state lifetime. |
| AuthTheorems.LoginsAreCausedByStarts | services/auth_service/src/presentation/routes/v1/auth/service.py:48-100 | From an empty service, each accepted callback has its own earlier start, within the lifetime, and no other callback uses the same state. |
| AuthTheorems.SessionsNeverOutnumberStarts | services/auth_service/src/presentation/routes/v1/auth/service.py:48-100 | Sessions plus pending states grow by no more than the starts of the run. |
| AuthTheorems.EverySessionWasStarted | services/auth_service/src/application/use_cases/oauth_login.py:36-55 | From an empty service, sessions never outnumber starts. |
| AuthTheorems.OneUserPerProfile | services/auth_service/src/infrastructure/repositories/in_memory_user_repository.py:26-49 | In every reachable state two stored users share provider and provider id exactly when they are the same, and the provider index finds that user. |
| AuthTheorems.AccountsAreStable | services/auth_service/src/application/use_cases/oauth_login.py:69-83 | A provider profile, once known, resolves to the same account in every continuation. |
| AuthAccess.RefreshIssuedIff | services/auth_service/src/application/use_cases/refresh_token.py:38-75 | In every reachable state a refresh is issued exactly to a stored, unrevoked, unexpired token whose owner is stored and active, in the name of that owner and session. |
| AuthAccess.RefreshRefusals | services/auth_service/src/application/use_cases/refresh_token.py:42-57 | In every reachable state each other refresh has its own error; reuse revokes exactly the unrevoked tokens of the family, with its reason and time, and the rest leave the tokens alone. |
| AuthAnswers.RefreshWrites | services/auth_service/src/application/use_cases/refresh_token.py:59-65 | An issued refresh adds one token, one TTL ahead and of the same owner and session, marks the old one used, replaced and rotated, and touches no other. |
| AuthAnswers.LogoutWrites | services/auth_service/src/application/use_cases/token_ops.py:26-28 | A logout with a stored unrevoked token revokes exactly the unrevoked tokens of its session, under the given reason or "user_logout"; any other changes nothing. |
| AuthAccess.LoginIssuedIff | services/auth_service/src/application/use_cases/oauth_login.py:47-83 | In every reachable state a callback that passes its checks logs in exactly if its profile is new or its account active, as that account, with a token of that account; a refused one names the account and changes nothing. |
| AuthAccess.CallbackRefusedIff | services/auth_service/src/presentation/routes/v1/auth/service.py:83-99 | The exact cases of the three earlier refusals, which change neither tokens nor accounts; the named state is spent in any case. |
| AuthAnswers.LoginAnswers | services/auth_service/src/application/use_cases/oauth_login.py:69-83 | What a login writes: the login time of the known account or the whole new account, and the one new token. |
| AuthAnswers.StartAnswers | services/auth_service/src/presentation/routes/v1/auth/service.py:48-72 | A start leaves one new pending state good for one lifetime, for a registered provider only. |
| AuthAccess.DeactivatedNeverIssued | services/auth_service/src/application/use_cases/refresh_token.py:56-57 | Once an account is deactivated, no refresh and no login of any run is issued to it, and it stays so. |
| AuthFlat.UseCaseAgrees | services/auth_service/src/application/use_cases/refresh_token.py:38-75 | Each use case makes only admissible repository calls, gets the same answers from the two-index store and from the flat collection, and leaves the two agreeing. |
| AuthFlat.FlatServiceAgrees | services/auth_service/src/infrastructure/repositories/mongo_refresh_token_repository.py:90-133 | Over every run from the start, a service that reads only what the flat collection answers, and decides from that, gives reply for reply what the service on the two-index store gives and holds exactly the same tokens. |
| AuthFlat.FlatStepAgrees | services/auth_service/src/infrastructure/repositories/mongo_refresh_token_repository.py:90-133 | One event gets the same reply from both services and leaves them with the same tokens, accounts and states. |
| AuthWitnesses.ReuseMissedAfterSweep | services/auth_service/src/application/use_cases/refresh_token.py:42-48 | A concrete legal run sweeps a superseded token while its successor is live; presenting it then is not seen as reuse and the session lives on. |
| AuthWitnesses.LogoutWithSupersededToken | services/auth_service/src/application/use_cases/token_ops.py:26-28 | A concrete legal run leaves a live session with a superseded token whose logout changes no token. |
| AuthInvariant.RunOk | services/auth_service/src/application/use_cases/refresh_token.py:38-75 | The token, account and state invariant survives every legal run. |
| AuthInvariant.StepOk | services/auth_service/src/application/use_cases/refresh_token.py:38-75 | Every enabled event keeps the invariant. |
| AuthInvariant.RotateOk | services/auth_service/src/application/use_cases/refresh_token.py:59-65 | A rotation keeps both indexes exact, ids unique and every chain linked. |
| AuthInvariant.RevokeSessionOk | services/auth_service/src/infrastructure/repositories/in_memory_refresh_token_repository.py:37-46 | Revoking a family keeps the invariant. |
| AuthInvariant.ExpiryMonotone | services/auth_service/src/domain/entities/refresh_token.py:51-58 | Expiry never decreases along a rotation chain. |
| AuthInvariant.SweepDropsPrefix | services/auth_service/src/infrastructure/repositories/in_memory_refresh_token_repository.py:48-61 | A sweep removes from each chain exactly a prefix: the tokens it drops are those that have expired. |
| AuthInvariant.LiveIsLast | services/auth_service/src/application/use_cases/refresh_token.py:59-65 | An unrevoked token is the newest of its session. |
| TokenStore.StoresAgreeOnEveryRun | services/auth_service/src/infrastructure/repositories/in_memory_refresh_token_repository.py:20-61 | Over every run of repository calls from empty, the two-index store answers exactly as the flat collection does: found tokens, session members as a set, revocation counts and deletion counts. |
| TokenStore.StoreStep | services/auth_service/src/infrastructure/repositories/mongo_refresh_token_repository.py:90-133 | One call keeps the two stores in agreement and gets the same answer from both. |
| TokenStore.SaveKeepsIndex | services/auth_service/src/infrastructure/repositories/in_memory_refresh_token_repository.py:20-26 | Saving keeps the session lists exact: every stored hash listed once, under its own session. |
| TokenStore.SaveExactIff | services/auth_service/src/infrastructure/repositories/in_memory_refresh_token_repository.py:20-26 | Saving keeps the session lists exact exactly if it does not move a stored hash to another session. |
| TokenStore.RevokeSessionKeepsIndex | services/auth_service/src/infrastructure/repositories/in_memory_refresh_token_repository.py:37-46 | Revoking a session keeps the session lists exact. |
| TokenStore.DeleteExpiredKeepsIndex | services/auth_service/src/infrastructure/repositories/in_memory_refresh_token_repository.py:48-61 | Deleting expired tokens keeps the session lists exact. |
| TokenStore.RevokeFamilyAgrees | services/auth_service/src/infrastructure/repositories/mongo_refresh_token_repository.py:104-119 | Revoking through the session list revokes the same tokens, and counts as many, as one update over all documents. |
| TokenStore.SweepAgrees | services/auth_service/src/infrastructure/repositories/mongo_refresh_token_repository.py:121-133 | The expiry sweep deletes the same tokens, and counts as many, as one delete over all documents. |
| AuthRepositories.RefreshToken.Create | services/auth_service/src/domain/entities/refresh_token.py:37-65 | A new token: hashed secret, own id, expiry one TTL after creation, no marks. |
| AuthRepositories.RefreshToken.MarkUsed | services/auth_service/src/domain/entities/refresh_token.py:83-85 | Sets use time and successor, nothing else. |
| AuthRepositories.RefreshToken.Revoke | services/auth_service/src/domain/entities/refresh_token.py:87-89 | Sets revocation time and reason, nothing else. |
| AuthRepositories.InMemoryRefreshTokenRepository.Save | services/auth_service/src/infrastructure/repositories/in_memory_refresh_token_repository.py:20-26 | The in-place store becomes the specified one for every token: object stored by reference under its hash, hash appended to its session once; the lists stay exact exactly if no stored hash changes session. |
| AuthRepositories.InMemoryRefreshTokenRepository.FindByHash | services/auth_service/src/infrastructure/repositories/in_memory_refresh_token_repository.py:28-30 | Returns the very object stored under the hash, or none. |
| AuthRepositories.InMemoryRefreshTokenRepository.FindBySessionId | services/auth_service/src/infrastructure/repositories/in_memory_refresh_token_repository.py:32-35 | Returns the stored objects of the session list, in its order. |
| AuthRepositories.InMemoryRefreshTokenRepository.RevokeSession | services/auth_service/src/infrastructure/repositories/in_memory_refresh_token_repository.py:37-46 | The loop over shared token objects revokes exactly the unrevoked ones of the session and returns how many. |
| AuthRepositories.InMemoryRefreshTokenRepository.DeleteExpired | services/auth_service/src/infrastructure/repositories/in_memory_refresh_token_repository.py:48-61 | The deletion loop removes exactly the expired tokens from both indexes and returns how many. |
| AuthRepositories.InMemoryUserRepository.FindByProvider | services/auth_service/src/infrastructure/repositories/in_memory_user_repository.py:26-29 | Returns the object found through the provider index, or none. |
| AuthRepositories.InMemoryUserRepository.Save | services/auth_service/src/infrastructure/repositories/in_memory_user_repository.py:43-49 | Stores the user object under its id and its provider key. |
| AuthRepositories.InMemoryOAuthStateStore.Save | services/auth_service/src/infrastructure/security/oauth_state_store.py:29-45 | Stores the entry, challenge and verifier included, with its expiry one lifetime ahead. |
| AuthRepositories.InMemoryOAuthStateStore.Consume | services/auth_service/src/infrastructure/security/oauth_state_store.py:47-55 | Removes the entry in any case and returns it only before its expiry. |
| AuthUseCases.RefreshTokenUseCase.Execute | services/auth_service/src/application/use_cases/refresh_token.py:38-75 | The in-place use case changes the shared store, and answers, exactly as the refresh step does; it issues exactly to a stored, unrevoked, unexpired token of a stored, active user; the answer names the user and session that the access token is for. |
| AuthUseCases.RefreshTokenUseCase.Rotate | services/auth_service/src/application/use_cases/refresh_token.py:59-65 | Creating, saving, marking and revoking in place is one rotation of the store. |
| AuthUseCases.RevokeTokenUseCase.Execute | services/auth_service/src/application/use_cases/token_ops.py:23-28 | The in-place use case is the logout step. |
| AuthUseCases.OAuthLoginUseCase.Execute | services/auth_service/src/application/use_cases/oauth_login.py:36-55 | The in-place use case is the login step, and issues exactly if the state agrees, the code is exchanged, and the profile is new or its account active; a new id for a new user keeps the user indexes exact. |
| AuthUseCases.OAuthLoginUseCase.ResolveUser | services/auth_service/src/application/use_cases/oauth_login.py:69-83 | Finds and marks the account of the profile, refuses exactly an inactive one, or creates it. |
| AuthUseCases.AuthApiService.StartOauth | services/auth_service/src/presentation/routes/v1/auth/service.py:48-72 | A known provider gets a pending state with the challenge of its verifier, and both back; an unknown one an error. |
| AuthUseCases.AuthApiService.CompleteOauth | services/auth_service/src/presentation/routes/v1/auth/service.py:74-100 | Consumes the state before anything else and then runs the login, as the callback step does; issues exactly if the state matches in time, provider and verifier, the provider is registered, the code is exchanged, and the profile is new or its account active. |
| AsyncJobs.EveryJobIsSound | ai_engine/application/async_orchestrator.py:70-155 | In every interleaving each job's statuses follow the lifecycle edges, its task is entered at most once, and it holds a result exactly when completed (a successful one) or failed (an unsuccessful one). |
| AsyncJobs.TerminalIsFinal | ai_engine/domain/models.py:121-142 | In every interleaving a completed, failed or cancelled job never changes again. |
| AsyncJobs.CancellationHolds | ai_engine/application/async_orchestrator.py:119-133 | A cancellation that reached its save holds for good against every process coroutine. |
| AsyncJobs.ProcessSettlesItsJob | ai_engine/application/async_orchestrator.py:78-107 | A `process_job` that returns leaves its job with a result; one that raises after finding its job leaves it terminal. |
| AsyncJobs.RunningJobsAreOwned | ai_engine/application/async_orchestrator.py:81-107 | A running job has exactly one responsible coroutine, and can stay running with no coroutine left only if that one was interrupted. |
| AsyncOutcomes.SecondProcessFailsRunningJob | ai_engine/application/async_orchestrator.py:81-107 | A second `process_job` whose validation ends in any way while the job runs fails it for good, with that validation's error, in every continuation. |
| AsyncOutcomes.RunningJobChangesIff | ai_engine/application/async_orchestrator.py:70-133 | A step changes a running job exactly if it resumes a coroutine of that job with the task's outcome, a validation, a cancellation, or a load that finds no task registered; the job is then terminal. |
| AsyncOutcomes.OwnerDecidesIff | ai_engine/application/async_orchestrator.py:84-107 | From a running job and its owner: the outcome of the owner's execution decides the final job exactly if no validation, cancellation or unregistered load of that job comes first; otherwise the job has ended without it and the owner raises. |
| AsyncOutcomes.SecondProcessHappens | ai_engine/application/async_orchestrator.py:70-107 | A concrete interleaving reaches a running job with a second coroutine still validating. |
| AsyncOutcomes.CompletedByItsExecution | ai_engine/application/async_orchestrator.py:88-92 | In every interleaving a completed job was entered once, exactly one execution of it ended, and its result is the one that execution returned. |
| AsyncOutcomes.OneExecution | ai_engine/application/async_orchestrator.py:84-107 | Of one job at most one execution ever ends. |
| AsyncOutcomes.NoRunningJobIsStuck | ai_engine/infrastructure/workers/async_job_worker.py:107-125 | When coroutines are interrupted only after a `cancel_job` of their job has returned, as the worker does, every running job has a live owner. |
| AsyncJobs.StepOk | ai_engine/application/async_orchestrator.py:70-155 | Every continuation keeps the protocol invariant. |
| AsyncJobs.FailJobMoves | ai_engine/application/async_orchestrator.py:151-155 | The failure handler moves a pending or running job to failed with a failure result, and leaves a terminal job alone by raising. |
| AsyncAnswers.TaskNeedsValidPayload | ai_engine/application/async_orchestrator.py:82-88 | In every interleaving a coroutine enters `task.execute` only after its own validation found the payload valid. |
| AsyncAnswers.ValidationDecides | ai_engine/application/async_orchestrator.py:82-85 | A pending job is left running exactly by a valid payload; an invalid one fails it with the validation's text, a crash with that text behind "Unexpected error: ". |
| AsyncAnswers.ExecutionDecides | ai_engine/application/async_orchestrator.py:88-106 | A running job is completed exactly by a successful task, with its very result; a failed task, a `ValueError` and any other exception fail it, each with its own text. |
| AsyncAnswers.LoadDecides | ai_engine/application/async_orchestrator.py:78-82 | An unknown id is reported, a registered type goes on unchanged, an unregistered one fails a job that has not ended. |
| AsyncAnswers.CancelDecides | ai_engine/application/async_orchestrator.py:129-131 | Exactly a pending or running job is cancelled; any other stays as it is and the call raises. |
| AsyncAnswers.SubmitDecides | ai_engine/application/async_orchestrator.py:53-68 | A submitted job is pending, of its type, without result or start. |
| AsyncAnswers.StartsCountEntries | ai_engine/application/async_orchestrator.py:85-88 | Entries into the task are counted at the entering step and nowhere else. |
| AsyncOrchestrator.AIJob.MarkRunning | ai_engine/domain/models.py:121-124 | Moves a pending job to running or raises and changes nothing. |
| AsyncOrchestrator.AIJob.MarkCompleted | ai_engine/domain/models.py:126-130 | Moves a running job to completed with the result or raises and changes nothing. |
| AsyncOrchestrator.AIJob.MarkFailed | ai_engine/domain/models.py:132-136 | Moves a running job to failed with a failure result or raises and changes nothing. |
| AsyncOrchestrator.AIJob.Cancel | ai_engine/domain/models.py:138-142 | Cancels a pending or running job or raises and changes nothing. |
| AsyncOrchestrator.AsyncAIJobOrchestrator.SubmitJob | ai_engine/application/async_orchestrator.py:53-68 | Stores a pending job. |
| AsyncOrchestrator.AsyncAIJobOrchestrator.OnLoaded | ai_engine/application/async_orchestrator.py:78-82 | From the load to the validation await, on the shared job object, or into the failure handler, or raises for an unknown id. |
| AsyncOrchestrator.AsyncAIJobOrchestrator.OnValidated | ai_engine/application/async_orchestrator.py:82-85 | From validation to the first save, or into an exception handler; a pending job is started exactly by a valid payload. |
| AsyncOrchestrator.AsyncAIJobOrchestrator.OnStartSaved | ai_engine/application/async_orchestrator.py:85-88 | Enters `task.execute`. |
| AsyncOrchestrator.AsyncAIJobOrchestrator.OnExecuted | ai_engine/application/async_orchestrator.py:88-106 | From the task's outcome to the last save, through completion, failure or an exception handler; a running job is completed exactly by a successful task. |
| AsyncOrchestrator.AsyncAIJobOrchestrator.OnCancelLoaded | ai_engine/application/async_orchestrator.py:129-131 | Cancels the loaded job in place or raises. |
| AsyncWorker.ConcurrencyBound | ai_engine/infrastructure/workers/async_job_worker.py:162-172 | In every interleaving the permits not held by a coroutine inside the block plus those coroutines equal `max_concurrent`, so no more than that are inside. |
| AsyncWorker.SubmittedTasksAreTracked | ai_engine/infrastructure/workers/async_job_worker.py:72-101 | When ids are fresh, as from `submit_and_enqueue`, no unfinished task is ever missing from the table and the table holds no stale entry, whatever is cancelled when. |
| AsyncWorker.EnqueueSafeIffQuiet | ai_engine/infrastructure/workers/async_job_worker.py:88-125 | Enqueueing an id is safe for every later run of safe enqueues and anything else exactly when nothing of an earlier run of it is left: no task unfinished or with its callback to come, no cancellation awaiting one. |
| AsyncWorker.ReEnqueueLosesTask | ai_engine/infrastructure/workers/async_job_worker.py:88-101 | A concrete run in which a second enqueue of an id leaves an unfinished task out of the table. |
| AsyncWorker.AnswerDecides | ai_engine/infrastructure/workers/async_job_worker.py:116-121 | The tabled task is cancelled exactly if the orchestrator accepted the cancellation and the task is unfinished. |
| AsyncWorker.OnlyAcceptedCancels | ai_engine/infrastructure/workers/async_job_worker.py:116-121 | In every interleaving a task is cancelled only for a call whose cancellation the orchestrator accepted. |
| AsyncWorker.StepKeepsTable | ai_engine/infrastructure/workers/async_job_worker.py:88-125 | Every step keeps the table exact, an enqueue provided it is quiet. |
| AsyncWorker.StepKeepsSemaphore | ai_engine/infrastructure/workers/async_job_worker.py:162-172 | Every step conserves permits. |
| AsyncWorker.AsyncAIJobWorker.EnqueueJob | ai_engine/infrastructure/workers/async_job_worker.py:88-101 | Creates the task and overwrites the table entry of its id. |
| AsyncWorker.AsyncAIJobWorker.OnTaskDone | ai_engine/infrastructure/workers/async_job_worker.py:100 | The done callback pops the entry of the id, whichever task it holds. |
| AsyncWorker.AsyncAIJobWorker.OnOrchestratorAnswer | ai_engine/infrastructure/workers/async_job_worker.py:116-121 | Goes on to cancel the tabled task only if the orchestrator accepted and that task is unfinished. |
| AsyncWorker.AsyncAIJobWorker.OnTaskGathered | ai_engine/infrastructure/workers/async_job_worker.py:122 | Pops the entry after the cancelled task has ended. |
| JobLifecycle.RetentionBoundIff | services/ai_worker/src/infrastructure/jobs/job_manager.py:315-348 | In every reachable state every stored terminal job completed no earlier than one retention period before the last cleanup; this holds of all runs exactly when the retention is not negative. |
| JobLifecycle.YoungIff | services/ai_worker/src/infrastructure/jobs/job_manager.py:113-128 | Right after any creation every stored terminal job is younger than retention plus interval; this holds of all runs exactly when the interval is positive. |
| JobLifecycle.CreateLeavesYoung | services/ai_worker/src/infrastructure/jobs/job_manager.py:113-128 | The bound itself, at any creation in any run. |
| JobLifecycle.TerminalIsFinal | services/ai_worker/src/infrastructure/jobs/job_manager.py:160-313 | Over any sequence of calls a terminal job is unchanged for as long as it is kept. |
| JobLifecycle.StepEvolves | services/ai_worker/src/infrastructure/jobs/job_manager.py:160-348 | One call moves a job along the transition table only, and removes only terminal jobs. |
| JobLifecycle.RunNeverRevives | services/ai_worker/src/infrastructure/jobs/job_manager.py:100-128 | A removed job never comes back. |
| JobHistory.GoneIffOutdated | services/ai_worker/src/infrastructure/jobs/job_manager.py:315-348 | Over every run a stored job is gone exactly if some call on the way, a cleanup with its own days or a creation after the interval, found it ended before its cutoff. |
| JobHistory.EndedJobKeptIff | services/ai_worker/src/infrastructure/jobs/job_manager.py:315-348 | A job that has ended is kept, unchanged, exactly if no cutoff on the way lies above its completion time. |
| JobHistory.CallRemovesIff | services/ai_worker/src/infrastructure/jobs/job_manager.py:334-342 | One call removes a job exactly if the job ended before the call's cutoff. |
| JobHistory.LastCleanupMoves | services/ai_worker/src/infrastructure/jobs/job_manager.py:315-322 | Only a creation that found the interval passed moves the time of the last cleanup, to its own check. |
| JobHistory.CallMakes | services/ai_worker/src/infrastructure/jobs/job_manager.py:160-313 | What each call makes of a kept job: started, ended with status, time and what the call brings, or exactly as it was. |
| JobHistory.FirstEndingCallDecides | services/ai_worker/src/infrastructure/jobs/job_manager.py:183-313 | The first call that ends a job decides its status, time, result and error for as long as it is kept. |
| JobHistory.AnswerIff | services/ai_worker/src/infrastructure/jobs/job_manager.py:160-313 | A call on one job answers true exactly if it started or ended the job. |
| JobHistory.NoticesMade | services/ai_worker/src/infrastructure/jobs/job_manager.py:183-236 | A notice is published exactly by a completion or failure that ends its job, with what the call brings. |
| JobHistory.CreateMakes | services/ai_worker/src/infrastructure/jobs/job_manager.py:100-128 | A created job is pending with nothing but its creation time, and survives its own cleanup. |
| JobLifecycle.TimestampsAreOrdered | services/ai_worker/src/infrastructure/jobs/job_manager.py:160-313 | In every reachable state completion time is set exactly in terminal states and created, started and completed times are in order. |
| JobLifecycle.OneNoticePerJob | services/ai_worker/src/infrastructure/jobs/job_manager.py:183-236 | Over every run each job has at most one published completion or failure event, and it agrees with the final status. |
| JobManager.JobManager.CreateJob | services/ai_worker/src/infrastructure/jobs/job_manager.py:100-128 | Adds a pending job and runs the timed cleanup, as specified. |
| JobManager.JobManager.StartJob | services/ai_worker/src/infrastructure/jobs/job_manager.py:160-181 | Starts a pending job in place, or refuses. |
| JobManager.JobManager.CompleteJob | services/ai_worker/src/infrastructure/jobs/job_manager.py:183-209 | Completes a pending or running job in place and publishes, or refuses. |
| JobManager.JobManager.FailJob | services/ai_worker/src/infrastructure/jobs/job_manager.py:211-236 | Fails a job that has not ended in place and publishes, or refuses. |
| JobManager.JobManager.CancelJob | services/ai_worker/src/infrastructure/jobs/job_manager.py:238-260 | Cancels a job that has not ended in place, or refuses. |
| JobManager.JobManager.UpdateJobStatus | services/ai_worker/src/infrastructure/jobs/job_manager.py:262-313 | Moves a job along the transition table, or refuses. |
| JobManager.JobManager.CleanupOldJobs | services/ai_worker/src/infrastructure/jobs/job_manager.py:324-348 | The deletion loop removes exactly the ended jobs whose completion lies before the cutoff of the given days, keeps every other object, and returns how many went. |
| JobManager.JobManager.ListJobs | services/ai_worker/src/infrastructure/jobs/job_manager.py:139-158 | The filter loop, sort and slice return the specified list, for no status, a named one, or a string that names none. |
| JobManager.JobManager.ListIsNewestFirst | services/ai_worker/src/infrastructure/jobs/job_manager.py:139-158 | The list is the first `limit` of the order by falling creation time of exactly the jobs with the status asked for (all of them, or none for an unknown status), ties in insertion order, and any such order gives the same list. |
| NewestFirst.SortOk | services/ai_worker/src/infrastructure/jobs/job_manager.py:156 | The sort is newest first, stable and a permutation. |
| NewestFirst.SortUnique | services/ai_worker/src/infrastructure/jobs/job_manager.py:156 | There is only one stable newest-first order. |
| JobManager.JobManager.GetStatistics | services/ai_worker/src/infrastructure/jobs/job_manager.py:350-375 | The counts per status are those of the stored jobs, zero counts absent; the active count is the running jobs capped at 100; the average is over the newest 100 completed jobs, those never started counting as zero, and absent if there are none. |
| JobManager.JobManager.StatisticsAddUp | services/ai_worker/src/infrastructure/jobs/job_manager.py:350-361 | The counts per status sum to the number of stored jobs. |
| JobManager.TotalTimeAdds | services/ai_worker/src/infrastructure/jobs/job_manager.py:366-373 | The summed execution time behind the average adds over lists of jobs. |
| JobManager.TotalTimeOfOne | services/ai_worker/src/infrastructure/jobs/job_manager.py:366-373 | For one job it is the time from start to completion, or nothing if either is missing. |
| Summarizer.SplitJoin | ai_engine/application/tasks/summarization.py:212-219 | Splitting a joined list of sentences gives back the list. |
| Summarizer.SentencesAreWellFormed | ai_engine/application/tasks/summarization.py:212-216 | Splitting a text that is not blank yields well-formed sentences: trimmed, not empty, no break inside, all but the last ending in . ! or ? |
| Summarizer.SentencesOfJoin | ai_engine/application/tasks/summarization.py:212-219 | The service's own splitting, strip and filter included, undoes its joining. |
| Summarizer.SummaryRoundTrip | ai_engine/application/tasks/summarization.py:212-219 | Re-splitting a summary returns exactly the sentences that were kept. |
| Summarizer.SummarizeTwice | ai_engine/application/tasks/summarization.py:204-221 | For every text and all n, m from 0 on, summarizing to n and then m sentences is summarizing to min(n, m). |
| Summarizer.SentencesKeepWords | ai_engine/application/tasks/summarization.py:212-216 | Splitting keeps the sequence of words. |
| Summarizer.FirstSentence | ai_engine/application/tasks/summarization.py:212-216 | A trimmed text is split first right after the first full stop, exclamation or question mark before white space, and the rest likewise; without one it is one sentence. |
| Summarizer.OutputIsSummary | ai_engine/application/tasks/summarization.py:187-221 | What is returned is the kept sentences, with the word counts of the text and of themselves. |
| Summarizer.SummaryWordsArePrefix | ai_engine/application/tasks/summarization.py:187-221 | The words of a summary are a prefix of the words of the text, for every requested length. |
| Summarizer.SummaryLosslessIff | ai_engine/application/tasks/summarization.py:212-219 | A summary keeps all words exactly when it keeps all sentences. |
| Summarizer.CompressionRatio | ai_engine/application/tasks/summarization.py:187-200 | Summary words never exceed original words; the ratio, rounded to four places with ties to even, is at least 1 exactly when the text is not blank and some sentence is kept, is otherwise 0, and is within 0.00005 of the exact one. |
| Profiling.ProfileOfConcatenation | ai_engine/application/tasks/dataset_profiling.py:194-224 | Profiling a concatenation is merging the two profiles: null counts add, minima, maxima and weighted means combine, the type is numeric when both non-empty halves are; the unique count lies between maximum and sum. |
| Profiling.OneRecord | ai_engine/application/tasks/dataset_profiling.py:200-216 | The profile of a single record: null, numeric with its value as minimum, maximum and mean, or categorical; with the merge law it decides every profile but the unique count. |
| Profiling.UniqueCount | ai_engine/application/tasks/dataset_profiling.py:207 | The unique count is the number of different non-null values of the column. |
| Profiling.NamesOfConcatenation | ai_engine/application/tasks/dataset_profiling.py:196 | The columns of a concatenation are those of its halves. |
| Profiling.AbsentColumn | ai_engine/application/tasks/dataset_profiling.py:200-208 | A column absent from some records reads there as all null. |
| Profiling.RowOrderDoesNotMatter | ai_engine/application/tasks/dataset_profiling.py:194-224 | Permuting the rows changes neither the columns nor any profile. |
| Profiling.MeanIsBetween | ai_engine/application/tasks/dataset_profiling.py:210-216 | In every numeric column minimum <= mean <= maximum. |
| Profiling.ProfileRecords | ai_engine/application/tasks/dataset_profiling.py:194-224 | The loop profiles exactly the columns that some record has, null or not, each by its values. |
| Polling.AIWorkerClient.PollUntilComplete | services/api_service/src/infrastructure/external/ai_worker_client.py:220-281 | The loop ends for every stream of replies, after the first reply that settles the wait or the first attempt past the timeout, having slept the specified intervals and counted the status replies; a negative interval makes the first sleep raise, and an interval of zero needs only that attempts take time. |
| Polling.OneEnding | services/api_service/src/infrastructure/external/ai_worker_client.py:230-281 | Replies and clock decide how and after how many attempts a wait ends. |
| Polling.AttemptsBound | services/api_service/src/infrastructure/external/ai_worker_client.py:230-277 | At most floor(T / min(p, 5)) + 1 attempts are made, and no more polls than attempts; if each attempt takes at least `tick` besides, min(p, 5) + tick takes the place of min(p, 5), also for p = 0. |
| Polling.AIWorkerClient.WaitUsesWhatIsGiven | services/api_service/src/infrastructure/external/ai_worker_client.py:220-225 | A given timeout or interval other than zero is used, and the client's default otherwise. |
| Polling.IntervalBounds | services/api_service/src/infrastructure/external/ai_worker_client.py:259-262 | The interval stays between min(p, 5) and max(p, 5). |
| Polling.IntervalClosedForm | services/api_service/src/infrastructure/external/ai_worker_client.py:259-262 | After k unfinished replies the interval is min(p * 1.5^k, 5), but for a longer first one, which is used as it is. |
| Polling.OnlyMissingJobsAreAwaited | services/api_service/src/infrastructure/external/ai_worker_client.py:264-277 | Only a missing job delays without backing off, and only if its id contains neither "failed" nor "cancelled"; a failed request always ends the wait, as does everything else but an unfinished status, each with its own outcome. |
| Connection.MongoConnectionManager.Connect | shared/shared_infrastructure/src/mongodb/connection.py:230-275 | Connects at the first attempt that finds the server up, within the retries; sleeps min(d * 2^i, 30) after each failed attempt but the last, a negative d making the first sleep raise; counts attempts, successes, failures and reconnects; keeps attempts = successes + failures. |
| Connection.MongoConnectionManager.Reconnect | shared/shared_infrastructure/src/mongodb/connection.py:285-293 | Drops the connection and connects again, counting one reconnect. |
| Connection.TotalSleep | shared/shared_infrastructure/src/mongodb/connection.py:259-270 | Each sleep is d * 2^i or, where that is more, 30 seconds; those of n failed attempts total at most 30 each, and d * (2^n - 1) while the cap is not reached. |
| Policies.OwnershipDecides | shared/shared_auth/policies.py:166-186 | An ownership leaf grants exactly the owner, or an admin under the override; without the argument it raises. |
| Policies.PermissionDecides | shared/shared_auth/policies.py:316-332 | A permission leaf grants exactly if some role of the caller was granted the required permission. |
| Policies.RoleDecides | shared/shared_auth/policies.py:111-134 | A role leaf grants exactly a caller with every required role and, if there are alternatives, one of them. |
| Policies.TimeDecides | shared/shared_auth/policies.py:342-344 | A time leaf grants up to the expiry, denies after it, and raises on an expiry with a time zone. |
| Policies.CompositeDecides | shared/shared_auth/policies.py:226-240 | An "and" grants exactly if all parts do; an "or" if it is empty or some part grants after denials only, which without raising parts means if some part grants. |
| Policies.RolesAreMonotone | shared/shared_auth/policies.py:111-134 | For every policy tree whose leaves have what they need (their argument, a comparable expiry), more roles never turn a grant into anything else. |
| Policies.RolesNeverDeny | shared/shared_auth/policies.py:111-134 | For every tree, caller and call, without condition: more roles never turn a grant into a denial. |
| Policies.GrantSurvivesIff | shared/shared_auth/policies.py:226-240 | A grant survives added roles exactly if the evaluation with them reaches no leaf that lacks what it needs. |
| Policies.FailsIffStarved | shared/shared_auth/policies.py:226-240 | An evaluation raises exactly if, with its short cuts, it reaches such a leaf. |
| Policies.TimeBasedAlwaysStarves | shared/shared_auth/policies.py:342-344 | For a context made from token claims a time-based leaf always raises, and a concrete tree with one turns a grant into an error when the caller gains a role. |
| Policies.StarvedLeafBreaksMonotony | shared/shared_auth/policies.py:226-240 | The same tree with any leaf that lacks what it needs: granted without the added role, raising with it. |
| Policies.MissingContextBreaksMonotony | shared/shared_auth/policies.py:166-186 | The same for an ownership leaf without its argument. |
| Policies.SplicePreserves | shared/shared_auth/policies.py:226-240 | Splicing a nested composite of the same mode into its parent keeps the decision, errors included, except for an empty one in an "or", where the exact condition is given. |
| Policies.EmptyOrSpliceDenies | shared/shared_auth/policies.py:226-240 | A concrete case of the exception: dropping an empty "or" from an "or" turns a grant into a denial. |
| Policies.FlattenPreserves | shared/shared_auth/policies.py:226-240 | Splicing at all depths keeps every decision and every error. |
| Policies.FlattenIsFlat | shared/shared_auth/policies.py:226-240 | The flattened tree has no non-empty composite inside one of its own mode. |
| Policies.CompositeAuthorizationPolicy.Judge | shared/shared_auth/policies.py:226-240 | The short-circuiting loop decides as the tree does. |
| Policies.RoleBasedAuthorizationPolicy.Judge | shared/shared_auth/policies.py:111-134 | The three role checks decide as the leaf does. |
| Policies.PermissionBasedPolicy.GetUserPermissions | shared/shared_auth/policies.py:301-314 | The loop collects exactly the permissions granted to the caller's roles. |
| Policies.PermissionBasedPolicy.GrantPermission | shared/shared_auth/policies.py:263-281 | Exactly the holders of the role gain exactly the permission. |
| Policies.PermissionBasedPolicy.GrantPermissions | shared/shared_auth/policies.py:283-299 | Exactly the holders of the role gain exactly the permissions. |

## Left out

- Interleavings of two refreshes: the code locks each repository call, not the use case, so each use case is one step here and nothing is claimed of interleaved halves.
- Several clock readings within one step: `delete_expired` reads the clock once per token and the job manager once per field; each method has one reading here, `create_job` three.
- Access tokens, JWT claims, published auth events, logging, IP addresses: no effect on the stores modelled.
- `login` with a password, roles, display names, and the e-mail and username lookups of the user store.
- The code exchange with an OAuth provider is an input; PKCE verification by the provider is not part of this model.
- AuthUseCases.RefreshTokenUseCase.Execute: does not model the signing of the access token, which is taken to succeed and stores nothing.
- AuthUseCases.OAuthLoginUseCase.Execute: likewise; the source signs before it saves the session.
- AuthUseCases.AuthApiService.StartOauth: does not build the authorization URL, a text that each provider composes.
- AuthRepositories.InMemoryUserRepository.Save: does not model the username index, which no OAuth account enters.
- AsyncJobs.CancellationHolds: says nothing of a store that returns copies, such as the Motor adapter, whose late save can overwrite a cancellation.
- AsyncJobs.EveryJobIsSound: repository calls that raise are left out; interruption at any await is in.
- AsyncWorker.ConcurrencyBound: a permit already handed to a woken waiter counts as free until that waiter is inside, where CPython's own counter may be one lower; who gets a free permit is left open, and `shutdown` appears only as the interruptions it causes.
- JobManager.JobManager.GetStatistics: the average is exact over whole seconds, without floating-point rounding.
- JobManager.JobManager.UpdateJobStatus: status strings outside the five named ones are one value that is always refused; this call publishes nothing, as in the code.
- Summarizer.CompressionRatio: the division before the rounding is exact, not a float.
- Summarizer: payload validation, latency fields and the neural service.
- Profiling.ProfileOfConcatenation: arithmetic is exact, without floating-point rounding or NaN; CSV reading and validation are left out.
- Polling.AIWorkerClient.PollUntilComplete: the HTTP session's own retries happen inside one reply; with an interval of zero an attempt must take some least time, as a loop that neither sleeps nor takes time need not end.
- Connection.MongoConnectionManager.Connect: latency and operation counters, timestamps and `ping` are left out.
- Policies: a part added to a composite is a value here, so a policy mutated after it was added is not covered; an evaluation reads the clock once.
- Workers on a thread pool, the synchronous orchestrator, the api_service job entity and its unconditional status updates.
- HTTP routes, middleware, configuration, message brokers and database drivers.
