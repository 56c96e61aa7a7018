# Verified model of the governed sandbox runtime

The repository runs one authorised command in a sandbox. This project models, in Dafny 4.11, the protocols that make
that safe and proves what they promise: the service boundary that owns sandbox lifecycles across concurrent handlers
and crashes, the governed dispatcher with its write-ahead records, the OpenShell adapter that turns arbitrary gateway
behaviour into truthful results, the concurrent bounded readers of the native runtime, and the small algorithms they
rely on. `dafny verify dfyconfig.toml` checks everything.

## How the model is built

**Service boundary** (`ServiceBoundary`, `BoundaryCustody`, `BoundaryOrphans`, `BoundaryExecution`, `BoundaryLifecycles`,
`BoundaryTokens`, `BoundaryLives`, `BoundaryConflicts`, `BoundaryWakeups`, `BoundaryHandlers`, `BoundaryWithdrawal`,
`BoundaryAdmission`, `BoundaryService`). Handlers interleave at every await, so a handler is a frame saying what it holds
and where it resumes, one event is one stretch between two awaits, and `Next` is the whole transition function: request arrival,
every store, lock and runtime reply, notification, drain, crash (only the store survives), and startup
reconciliation record by record. Store writes and removals may fail before or after their effect; a crash between an
effect and its reply leaves the same directory as such a failure followed by a crash. The clock failing inside
`transition` is a failed write. Each submission of create is an `Attempt`; `mayExist` holds the attempts that may have
left a sandbox. An attempt leaves `mayExist` when the runtime says NotCreated or Conflict for it, or when
`wait_deleted` succeeds for its id. `BoundaryService` is the same boundary as an object: the operations on its maps
under one lock and the turn of the loop in `reconcile_startup`, each proved equal to steps of the transition system.
`BoundaryHandlers` tells what each handler comes to, from its request to its last reply, for every reply: `Told` gives
the outcome from a view of one task and one id, `AnsweredIsTold` ties it to the transition system, and
`OthersLeaveItAlone` says that interleaving does not disturb it.

**Dispatcher** (`CommandEncoding`, `Governance`, `DispatchRecords`, `Dispatcher`). A `Deployment` is one directory and
any number of processes with their own result caches. What a call hears from outside is a parameter of the call
(`CallAnswers`, `SweepAnswers`): the outcome of every write, which may take effect and still fail, the answers of
governance, executors and the sandbox runtime, of any value of their truthful types, and the point at which the process
dies, if it does (`Step` propagates `Crashed`). `Reply` is the reply a call owes for these answers. A ghost `Trace` per dispatch id records what really
happened; `Sound` relates it to the durable record. Calls are serial because each runs under the directory lock. The
digest is the canonical encoding itself, standing for an ideal hash of it.

**Adapter, readers, algorithms** (`RuntimeContract`, `OutputCollection`, `OpenShellAdapter`, `OpenShellPolicy`,
`NativeReaders`, `Text`, `SeatbeltProfile`, `Proxy`). Clocks, delays, gateway replies and stream contents are inputs.
Seatbelt rules are modelled with their text and with their meaning, under which the last rule that applies decides, as
the comment at `src/native/policy.rs:127-130` has it.

**Assumed of the runtime below both protocols:** failures carry the caller's own cleanup id, NotCreated, Conflict and
NotDispatched are truthful, and a successful `wait_deleted` means that nothing of that id exists. `OpenShellAdapter`
proves the parts of this that the adapter decides itself. Generated tokens and cleanup ids are fresh.

## What the code does not do

- Two creates for one id whose first is still in flight both pass the check at `src/service/boundary.rs:296`; the second
  then removes the record of a sandbox that exists (`ConcurrentCreatesOrphan`). This is not special to two creates:
  whatever a handler is doing with the id, a create that passes can be followed by events that leave a sandbox off the
  record (`ConflictIsFatal`). After any behaved run, a create that passes keeps every sandbox on record in all
  continuations without another create, crashes and drain included, if and only if no handler is working on its id
  (`NoOrphanIsExact`). That is what `BehavedRun` asks of callers, and with it no run leaves an orphan (`RunsAreSafe`).
- A prepare token can outlive its sandbox and run the next one of its id: the insertion into `prepared` may follow the
  purge by `delete`, or come after `wait_deleted`, and the id may then be created again (`StaleTokenRuns`). After any
  prudent run, a create that passes for an id nobody works on keeps tokens and sandboxes together in every continuation
  without another create if and only if its caller has no preparation of that id under way (`PrudenceIsExact`); if every
  create is prudent in this sense, every execution is of the sandbox its token was issued for (`TokenNamesItsSandbox`).
  Caller, id, single use and the durable record hold in every run regardless (`RunsAreAccounted`).
- A call that is turned away before its record is consulted (directory not lockable or not readable, command invalid, id
  of another command) answers "not dispatched" also for a command that was dispatched (`UnderstatementIsReal`);
  `Deployment.Execute` states that this happens exactly then.
- `normalize_exit_124` drops isolation evidence: from exit 124 without an observed timeout, and only there
  (`EvidenceSurvivesIff`, `EvidenceIsLost`), and the loss reaches the caller of either executor (`TellsCompletion`).
- An absolute-form target whose path is exactly two slashes is forwarded with one (`TwoSlashesLoseOne`, `TwoSlashesInput`); every other
  nonempty path is forwarded as it came (`AbsoluteTargetParts`).
- The adapter reads the clock twice before it submits; if the budget runs out in between it reports a possible creation
  or dispatch for a call that never started (`CreateOverstates`, `ExecOverstates`). `Create` and `Exec` state that
  they never err on the other side, and on this one exactly then.

## Model

| member | source | states |
|---|---|---|
| BoundaryCustody.StepKeepsCustody | src/service/boundary.rs:280-791 | Every event keeps exclusive custody as long as no create passes for an id in use: an id is in one handler or in `owned`, never both and never twice |
| BoundaryCustody.CreateKeepsCustodyIff | src/service/boundary.rs:296-298 | A create that passes keeps custody if and only if no handler is working on the id |
| BoundaryCustody.TakeStep | src/service/boundary.rs:723-738 | A take moves exactly one entry from `owned` to the asking handler, in one of six ways, or touches no entry at all |
| BoundaryCustody.HandlerKeepsIdentity | src/service/boundary.rs:299-690 | No handler step ever changes the id or the caller of the entry it holds |
| BoundaryOrphans.RunsAreSafe | src/service/boundary.rs:280-791 | In every behaved run, with crashes and store failures anywhere: custody holds, and every sandbox that may exist has a durable record that is not Unowned and, while serving, a custodian |
| BoundaryOrphans.OnlyTheHolderTouches | src/service/boundary.rs:299-690 | In every behaved run, the record of an id and what may exist under it change only by the single handler holding the id or by startup reconciliation |
| BoundaryOrphans.ReconciliationLeavesNothing | src/service/boundary.rs:105-152 | Whenever the service opens, the store is empty and no sandbox of an earlier life may exist |
| BoundaryOrphans.HandlerIsCareful | src/service/boundary.rs:299-690 | Records are erased, or marked Unowned, and custody is given up only at points where the handler knows that nothing exists |
| BoundaryOrphans.ConcurrentCreatesOrphan | src/service/boundary.rs:296-354 | A run without any crash in which two creates for one id leave a sandbox off the record |
| BoundaryConflicts.NoOrphanIsExact | src/service/boundary.rs:291-690 | After any behaved run, a create that passes keeps every sandbox that may exist on record in all continuations without another create, crashes and drain included, if and only if no handler is working on its id |
| BoundaryConflicts.ConflictIsFatal | src/service/boundary.rs:296-690 | From any state, whatever the handler of the id is doing, a create that passes can be followed by calm events that leave a sandbox which may exist without its record |
| BoundaryExecution.RunsAreAccounted | src/service/boundary.rs:359-567 | In every run whatsoever: each execution is of a sandbox its caller created, with a token issued to that caller for that id under the rotated lifecycle token, after a durable ExecPossible record; each sandbox and each token is used at most once; each id has at most one prepared execution; access to a sandbox is in one place only |
| BoundaryTokens.TokenNamesItsSandbox | src/service/boundary.rs:435-567 | If no create passes while its id is worked on or prepared for its caller, every execution is of the very sandbox its token was issued for, also when ids are created again |
| BoundaryTokens.CreateKeepsNamedIff | src/service/boundary.rs:291-298 | A create that passes keeps "every outstanding preparation names the sandbox standing for its owner" if and only if its caller has no preparation of the id under way |
| BoundaryLives.PrudenceIsExact | src/service/boundary.rs:291-567 | After any prudent run, tokens and sandboxes stay together in every continuation without another create, crashes and drain included, if and only if the creating caller had no preparation of the id under way |
| BoundaryLives.ImprudenceIsFatal | src/service/boundary.rs:435-567 | From any accounted state, a create that passes while its caller's preparation is under way can be followed by calm events that execute the new sandbox under an earlier one's token |
| BoundaryLives.StaleTokenRuns | src/service/boundary.rs:446-567 | A behaved run without a crash in which a token issued for one sandbox runs the next one of the same id |
| BoundaryLifecycles.LifecyclesOnlyAdvance | src/service/boundary.rs:393-423 | In every run, no event moves any sandbox back in the order unsubmitted, awaiting its reply, Created, Ready, out of reach |
| BoundaryExecution.HandlerIsLicensed | src/service/boundary.rs:359-567 | Access to a sandbox is gained only from its create reply, rotated only by readiness and used up by executing |
| BoundaryLives.ExecutionHappens | src/service/boundary.rs:280-567 | Some behaved run without a crash creates, waits, prepares, commits and executes |
| BoundaryWakeups.RunsStayAwake | src/service/boundary.rs:740-791 | In every run whatsoever, a waiter that looked in vain and whose entry is back under its caller is notified or some put of that very id has yet to notify |
| BoundaryWakeups.WaiterGetsItsEntry | src/service/boundary.rs:740-791 | From any reachable state such a waiter holds its entry after at most three steps, none of them a timeout |
| BoundaryWakeups.WaitsIff | src/service/boundary.rs:753-766 | A cleanup that did not find its entry waits exactly if the store can be read and holds a record of its own caller that is not Unowned; otherwise it ends; nothing else changes |
| BoundaryWakeups.StaysUntilServed | src/service/boundary.rs:740-791 | In every run, a cleanup that reads a record of its own caller stays through every continuation short of a wakeup, its own deadline or a crash, and holds its entry at most three steps after the entry is back |
| BoundaryWakeups.CleanupOvertakesReady | src/service/boundary.rs:740-791 | From any state in which wait_ready holds a created entry, a delete or wait_deleted of the same caller arrives, waits, and gets the entry, ready, after it is put back |
| BoundaryWakeups.DeleteOvertakesReady | src/service/boundary.rs:740-791 | A run from the start in which exactly this happens to a delete |
| BoundaryHandlers.CreateTakenUpIff | src/service/boundary.rs:287-298 | A create does anything exactly if the service is open, not draining, offered its own assets and does not hold the id |
| BoundaryHandlers.PrepareTakenUpIff | src/service/boundary.rs:443-457 | A preparation passes its check exactly if the service takes new work and the entry has this caller, this token and is ready |
| BoundaryHandlers.CommitTakenUpIff | src/service/boundary.rs:485-498 | A commit does anything exactly if the service takes new work and knows the token |
| BoundaryHandlers.WaitingTakenUpIff | src/service/boundary.rs:359-373 | wait_ready, delete and wait_deleted are taken up by a draining service too, wait_ready exactly with the right caller and token |
| BoundaryHandlers.AnsweredIsTold | src/service/boundary.rs:280-690 | What any replies make of a handler, its id's entry, record and attempts, the prepared executions and the executions depends on these alone; the outcomes below hold in every state |
| BoundaryHandlers.AnsweredApart | src/service/boundary.rs:280-690 | Whatever the replies, a handler leaves every other task, entry and record, the phase, the drain flag and the notification count alone |
| BoundaryHandlers.OthersLeaveItAlone | src/service/boundary.rs:280-791 | In every behaved run, no event of anybody else changes the frame, entry, record or attempts of a handler between two of its replies |
| BoundaryHandlers.CreateBegins | src/service/boundary.rs:287-307 | A create that is taken up holds a record of possible creation for its caller and id, and has touched nothing yet |
| BoundaryHandlers.CreateWithoutFence | src/service/boundary.rs:299-310 | Without its first record a create submits nothing and leaves nothing but perhaps that record |
| BoundaryHandlers.CreateSucceeds | src/service/boundary.rs:311-337 | A successful create leaves one attempt, a record, and an entry under a fresh token that gives access exactly if the record could be advanced |
| BoundaryHandlers.CreateUncertain | src/service/boundary.rs:338-348 | A create of unknown outcome leaves the attempt on record and an entry good for cleanup only |
| BoundaryHandlers.CreateRefuted | src/service/boundary.rs:349-356 | A create that made nothing or met a foreign sandbox leaves no entry and no attempt, and no record unless the removal left it |
| BoundaryHandlers.WaitReadyBegins | src/service/boundary.rs:368-392 | wait_ready takes the entry out; one that is not Created goes back as it is, another expected policy makes it good for cleanup only, and only otherwise the runtime is asked |
| BoundaryHandlers.PutBackUnchanged | src/service/boundary.rs:379-383 | An entry that was only looked at goes back as it was |
| BoundaryHandlers.WrittenAndPutBack | src/service/boundary.rs:384-391 | After a best-effort write the entry goes back whatever became of the write |
| BoundaryHandlers.BecomesReady | src/service/boundary.rs:402-424 | Ready with a durable record rotates the token and keeps access; without one the entry is good for cleanup only under its old token |
| BoundaryHandlers.NeverReady | src/service/boundary.rs:425-431 | A failed readiness leaves an entry good for cleanup only under its old token |
| BoundaryHandlers.PrepareIssues | src/service/boundary.rs:443-474 | A preparation issues one fresh token for its caller and id exactly if none is outstanding for the id, and touches nothing else |
| BoundaryHandlers.CommitSpends | src/service/boundary.rs:492-505 | A commit spends its token whether or not it fits, and goes on exactly if caller and id fit |
| BoundaryHandlers.CommitTakes | src/service/boundary.rs:506-539 | A commit goes on to its fence exactly if its caller's entry is there, ready, and the preparation has not expired; otherwise the entry goes back as it was |
| BoundaryHandlers.ExecWithoutFence | src/service/boundary.rs:540-550 | Without the durable mark nothing is executed and the entry goes back ready |
| BoundaryHandlers.ExecHappens | src/service/boundary.rs:551-566 | With it the sandbox is executed once, under this token, with the mark durable, and the entry is good for cleanup only whatever exec answers |
| BoundaryHandlers.CleanupTakes | src/service/boundary.rs:748-752 | A cleanup that looks takes the entry of its caller if it is there, and otherwise goes on to the store |
| BoundaryHandlers.Deleted | src/service/boundary.rs:585-624 | A delete withdraws exactly the preparations of its id, makes its intention durable, and leaves the entry good for cleanup only whatever the runtime answers |
| BoundaryHandlers.DeleteDeferred | src/service/boundary.rs:590-609 | A delete without its durable intention, or without time after it, puts the entry back with the access it had; the preparations are withdrawn all the same |
| BoundaryHandlers.ConfirmedAbsent | src/service/boundary.rs:656-677 | Confirmed absence with the record removed leaves no entry, record or attempt: the id is free again |
| BoundaryHandlers.AbsentButKept | src/service/boundary.rs:666-674 | A failed removal puts the entry back as it was though nothing exists any more |
| BoundaryHandlers.NotConfirmed | src/service/boundary.rs:679-688 | Absence not confirmed leaves everything on record and the entry good for cleanup only |
| BoundaryWithdrawal.DeletedTokensNeverRun | src/service/boundary.rs:569-624 | In every run, the event by which a delete moves on from its entry leaves no preparation of that id and every other one as it was, and a token outstanding for the id is never executed, before or in any continuation, crashes and later sandboxes of the id included |
| BoundaryWithdrawal.CrashedTokensNeverRun | src/service/boundary.rs:54-70 | No token of an earlier life is ever executed after a crash |
| BoundaryAdmission.DrainIsFinal | src/service/boundary.rs:710-795 | Once a draining service has no handler left that is about to create or execute, nothing is created or executed before the process is replaced, whatever requests arrive |
| BoundaryAdmission.DrainBegins | src/service/boundary.rs:710-716 | Beginning to drain touches nothing in progress |
| BoundaryAdmission.ReconcileOutcome | src/service/boundary.rs:114-142 | One record at startup: Unowned is only removed, any other is removed exactly when its sandbox is confirmed gone and counted as unresolved otherwise; a failed removal closes the service |
| BoundaryAdmission.OpensIff | src/service/boundary.rs:143-152 | The service opens exactly when every record has had its turn and none is unresolved, and is down otherwise |
| BoundaryAdmission.CanOpen | src/service/boundary.rs:105-152 | From every state, a closed service opens again if store and runtime oblige |
| BoundaryAdmission.Restarts | src/service/boundary.rs:54-70 | A crash forgets maps, handlers and drain and keeps the directory and what exists; the new process can come to take work again |
| BoundaryService.SandboxServiceBoundary.TakeOwned | src/service/boundary.rs:723-738 | Hands over the entry exactly when caller and token fit, and leaves `owned` as it was otherwise |
| BoundaryService.SandboxServiceBoundary.WaitReadyTake | src/service/boundary.rs:368-392 | The first stretch of wait_ready is the step of the transition system |
| BoundaryService.SandboxServiceBoundary.InsertPrepared | src/service/boundary.rs:458-474 | The second stretch of prepare_exec is the step of the transition system, and issues a token exactly when none is outstanding for the id |
| BoundaryService.SandboxServiceBoundary.PutOwned | src/service/boundary.rs:775-791 | Undisturbed, a put is the insertion step followed by the notification step |
| BoundaryService.SandboxServiceBoundary.ReconcileRecord | src/service/boundary.rs:115-140 | One turn of startup reconciliation equals the reconciliation step of the transition system for the replies it gets, and removes and counts exactly as these say |
| BoundaryService.SandboxServiceBoundary.ReconcileStartup | src/service/boundary.rs:105-152 | Succeeds exactly when the directory can be read, every owned sandbox is confirmed gone and every removal succeeds; then the store is empty, no sandbox is left and the service is open; any failure keeps it closed, every sandbox on record and every unconfirmed record in place |
| Dispatcher.Deployment.Run | src/dispatcher/mod.rs:255-703 | Over any history of calls by any processes, with any answers of the environment and crashes anywhere: at most one executor call per id, host only after an accepted ALLOW and sandbox only after CONSTRAIN for that id, in a sandbox created and attested, with the governed command; no leaked sandbox; honest evidence that tells what the executor reported; replay and cache agreement; histories only grow |
| Dispatcher.Deployment.Execute | src/dispatcher/mod.rs:255-402 | The reply, or the crash, is the one `Reply` gives for the command, what the environment answers, and the record and cached result found; one id only advances; the reply is fair and repeats the first result or replay up to cleanup; a replay of a pending record has asked for deletion; a dispatched command is called never dispatched exactly when the call was turned away before its record was consulted |
| Dispatcher.Deployment.ExecuteLocked | src/dispatcher/mod.rs:264-402 | The reply is `Reply`: each way of being turned away with its own code and nothing changed, the cached result, the record replayed after its cleanup was tried, or the outcome of a new command; a new command calls and creates exactly what its verdict and fence allow and is cached exactly if it gets as far as `finish` |
| Dispatcher.Deployment.ReconcileAll | src/dispatcher/mod.rs:676-703 | Deletion is requested for every record found pending; each is reported once, as confirmed exactly if its wait succeeded; durable records and cached results follow exactly; only cleanup happens; none pending means no sandbox is left; it fails only without lock or directory |
| Dispatcher.Deployment.ReconcileRecord | src/dispatcher/mod.rs:656-674 | Requests deletion of the retained id; the record is confirmed exactly if this call's wait succeeded, durably exactly if the write took effect, and then in the cached result too |
| Dispatcher.Deployment.Finish | src/dispatcher/mod.rs:636-654 | The closing write keeps the record sound whether it succeeds, fails or is lost; the answer carries the write failure exactly if it failed, is cached and becomes the first result |
| Dispatcher.Deployment.ExecuteSandbox | src/dispatcher/mod.rs:454-614 | The command is executed exactly after a successful create, a Ready answer whose policy matches and two durable fences; otherwise the error is the one of the first thing missing: create, attestation, readiness or persistence; whatever may have been created is deleted and the cleanup reported as the wait answered |
| Dispatcher.Deployment.ExecuteHost | src/dispatcher/mod.rs:404-451 | The host is called once, after ALLOW and a durable fence, and the result tells exactly what the host reported: dispatch, output, counts and timeout |
| Dispatcher.Deployment.OnConstrain | src/dispatcher/mod.rs:366-386 | The cleanup id is durable before create; create is submitted exactly behind a durable fence, and the reply is that of the sandbox branch or the persistence failure with nothing created or executed |
| Dispatcher.Deployment.OnAllow | src/dispatcher/mod.rs:359-366 | The host is called exactly behind a durable fence, and the reply is the host's report or the persistence failure |
| Dispatcher.Deployment.Route | src/dispatcher/mod.rs:310-402 | Each answer of governance takes its branch and the reply is the one `GovernedReply` gives: unavailable, rejected with its reason, ALLOW on the host, CONSTRAIN in the sandbox, any other verdict nowhere; something is called or created exactly behind the durable fence of an accepted ALLOW or CONSTRAIN |
| Dispatcher.Deployment.Cleanup | src/dispatcher/mod.rs:616-634 | Requests deletion of the fenced id and confirms absence exactly after a successful wait |
| Dispatcher.SoundAnswer | src/dispatcher/mod.rs:636-654 | Handing the result out keeps every claim, whichever record the closing write left behind |
| Dispatcher.AnswerReplays | src/dispatcher/store.rs:118-184 | The replay agrees with the answer: same or weaker evidence, and from a closed record everything but bodies, evidence and the report of the failed write |
| Dispatcher.ReplayIsFair | src/dispatcher/mod.rs:300-307 | A replay never says more than happened, also when cleanup was confirmed in memory only |
| Dispatcher.SoundReplay | src/dispatcher/mod.rs:300-307 | Every replay repeats the first replay given out, up to cleanup, also after a crash |
| Dispatcher.CachedIsFair | src/dispatcher/mod.rs:294-299 | A cached result is as fair as the first one, with cleanup possibly confirmed since |
| Dispatcher.DigestIdentifies | src/dispatcher/mod.rs:282-293 | A call passes the digest check exactly when it carries the command that was governed |
| Dispatcher.NothingLeft | src/dispatcher/mod.rs:689-703 | If every record found pending was cleaned up, no sandbox may exist |
| Dispatcher.UnderstatementIsReal | src/dispatcher/mod.rs:257-281 | A deployment satisfying the invariant, built by the soundness steps of one host call whose process died before it heard back, in which a dispatched command is reported as never dispatched because the directory cannot be read; that the methods reach this very state is not stated |
| DispatchRecords.ReplayInvertsClose | src/dispatcher/store.rs:118-234 | Replaying a closed record gives the result back with only bodies and isolation evidence erased, and the record validates exactly when a named sandbox belongs to a sandbox result |
| DispatchRecords.ValidatesIff | src/dispatcher/store.rs:222-241 | A closed record validates exactly when its replay claims completion of a run it can show and it names a sandbox only for the sandbox executor |
| DispatchRecords.OpenRecordReplays | src/dispatcher/store.rs:153-221 | A record that was never closed replays what it admits: perhaps dispatched with nothing known of the run, or not dispatched, and marked as indeterminate |
| DispatchRecords.InterruptedReplays | src/dispatcher/store.rs:58-221 | What a call interrupted after each of its writes is replayed as: nowhere dispatched, perhaps on the host, in a sandbox to clean up, perhaps in that sandbox, or with its absence confirmed |
| DispatchRecords.SandboxResult | src/dispatcher/mod.rs:818-881 | Well formed; never dispatched exactly when the executor said so; output, counts, timeout and evidence as reported, up to an ambiguous exit; the error names transport, dispatch, execution or pending cleanup, and is absent exactly when completed and cleaned up |
| DispatchRecords.HostResult | src/dispatcher/mod.rs:404-451 | Well formed; never dispatched exactly when the host said so; output, counts, timeout and evidence as reported, up to an ambiguous exit |
| DispatchRecords.NormalizeExit124 | src/dispatcher/mod.rs:883-893 | An ambiguous exit 124 gets possible timeout; exit code and output are kept; anything else is left alone |
| DispatchRecords.EvidenceSurvivesIff | src/dispatcher/mod.rs:883-893 | Isolation evidence survives if and only if the exit is not an ambiguous 124 or there was none |
| DispatchRecords.EvidenceIsLost | src/dispatcher/mod.rs:883-893 | An input whose evidence neither executor's caller ever sees |
| Governance.AcceptedIffAuthorizes | src/dispatcher/mod.rs:707-816 | A response is accepted exactly when it is an authoritative, current, unmodified verdict for this very activity |
| Governance.AuthorizationIsSpecific | src/dispatcher/mod.rs:707-816 | No response authorises two activities or two verdicts |
| Governance.RejectedForFirstFlaw | src/dispatcher/mod.rs:707-816 | A rejected response is rejected for its first flaw in the order of the checks, under that flaw's name |
| Governance.AcceptedWithoutWarnings | src/dispatcher/mod.rs:759-776 | In an accepted response each of the three warnings is absent or the literal false |
| Governance.VerdictRoundTrip | src/dispatcher/mod.rs:787-794 | Each verdict has exactly one name |
| CommandEncoding.Validate | src/dispatcher/types.rs:222-251 | Accepts exactly the argument vectors within both ceilings and free of NUL with a timeout in range, unchanged, and names the cause of each refusal |
| CommandEncoding.FeedHasher | src/dispatcher/types.rs:264-288 | The loop feeds the hasher exactly the canonical encoding |
| CommandEncoding.DecodeInverts | src/dispatcher/types.rs:264-288 | Decoding the encoding gives the command back, empty elements included |
| CommandEncoding.EncodeInjective | src/dispatcher/types.rs:264-288 | Two commands have one encoding exactly when they are the same command |
| RuntimeContract.ValidatedIffCoherent | src/runtime_contract/error.rs:418-460 | `validated` accepts exactly the coherent combinations of evidence |
| RuntimeContract.PossiblyDispatchedFailure | src/runtime_contract/error.rs:354-380 | Succeeds exactly for ordinary codes with timeout evidence |
| RuntimeContract.OutputLimitExceededFailure | src/runtime_contract/error.rs:400-416 | Succeeds exactly with timeout evidence, and names the ceiling |
| OpenShellAdapter.Create | src/openshell/operations.rs:24-242 | Succeeds exactly for a submitted call whose reply matches name, identity and spec; NotCreated or Conflict only if the call was never submitted or proved so; created or possibly created, under the request's own id, exactly if it may have been submitted or the budget ran out between the last check and the submission; each failure carries the code of how far the call got |
| OpenShellAdapter.Exec | src/openshell/operations.rs:425-523 | Completes exactly when the stream is clean and ends in an exit; NotDispatched only when the call cannot have been dispatched, and exactly then but for a budget that ran out between check and call; every failure is coherent, with the exact code and counts of how far the call got or of the first fault |
| OpenShellAdapter.CreateOverstates | src/openshell/operations.rs:107-126 | An input for which create reports a possible creation although the call never started |
| OpenShellAdapter.ExecOverstates | src/openshell/operations.rs:449-469 | For any admissible ceilings, an input for which the exec call never started and is reported as possibly dispatched |
| OpenShellAdapter.Drain | src/openshell/operations.rs:488-522 | The stream loop: success exactly for a clean, ended, complete stream, otherwise the first fault, the break or the missing exit |
| OpenShellAdapter.CollectionFailed | src/openshell/operations.rs:640-661 | Every collection failure maps to a coherent failure of the same kind with the same counts and ceiling, its timeout unknown |
| OpenShellAdapter.PolicyIsLoaded | src/openshell/operations.rs:358-423 | Answers from the reply alone if it is heard within the budget, with the exact time it takes, and otherwise with the budget's own failure |
| OpenShellAdapter.JudgeSandbox | src/openshell/operations.rs:270-345 | Told from the reply alone: goes on to the policy exactly when identity, phase and nonzero expected version attest; polls again exactly when the reply settles nothing (no status, on its way, ready without a version); fails with a code exactly when the reply means it |
| OpenShellAdapter.JudgePolicy | src/openshell/operations.rs:358-423 | Told from the reply alone: loaded exactly when it attests, undecided exactly when not found or pending, refuted with a code exactly when the reply means it |
| OpenShellAdapter.PollsAreClassified | src/openshell/operations.rs:270-423 | Every poll is silent, attests, or means exactly one failure |
| OpenShellAdapter.WaitReady | src/openshell/operations.rs:245-356 | Another policy or a malformed handle is refused before any poll; Ready only after a poll whose replies attest everything; at most about deadline over interval polls; without cancellation, if all polls before n are silent and poll n is not and ends in time, there are n + 1 polls and the result is Ready if it attests and the failure it means otherwise; with no such poll by the deadline the result is Deadline |
| OpenShellAdapter.WaitDeleted | src/openshell/operations.rs:556-579 | Absence only on NotFound after polls that all found the sandbox; same bound; without cancellation the first miss in time decides, and the deadline if there is none |
| OutputCollection.OutputCollector.Push | src/openshell/exec.rs:46-124 | Accepts an event exactly when the sequence stays within every ceiling and protocol, keeping bytes and counts exact, and otherwise reports the fault including the offending chunk |
| OutputCollection.PushAll | src/openshell/operations.rs:488-522 | Takes the whole stream exactly when it is clean, and stops at the first fault |
| OutputCollection.Collect | src/openshell/exec.rs:46-132 | The collector over a whole stream refines the declarative outcome on unbounded integers |
| OutputCollection.FirstFaultIsUnique | src/openshell/exec.rs:46-124 | A stream has at most one first fault |
| OutputCollection.CeilingsAreTheLargest | src/openshell/exec.rs:134-139 | The process ceilings are admissible, and nothing above any of them is |
| NativeReaders.ReadBounded | src/native/mod.rs:635-676 | One reader's loop computes its specification; retained bytes are a prefix, and all bytes without overflow |
| NativeReaders.CeilingsAreExact | src/native/mod.rs:360-461 | Under every interleaving some reader flags overflow exactly when a ceiling was exceeded, every flag names a ceiling truly exceeded, and without one both results are the bytes delivered |
| NativeReaders.FinishedIffScheduled | src/native/mod.rs:635-676 | Both readers reach end of file exactly when the interleaving gives each its two operations per chunk |
| NativeReaders.RetentionIsBounded | src/native/mod.rs:635-676 | At every instant of every interleaving retained bytes respect each ceiling, and flags are justified |
| NativeReaders.NativeExecIsExact | src/native/mod.rs:360-497 | The classification completes exactly for an observed exit or command timeout without excess, with exact bytes, exit and timeout; it reports every excess with a ceiling truly exceeded and exact counts, and otherwise how the wait ended |
| OpenShellPolicy.PathsAreUnambiguous | src/openshell/policy.rs:153-160 | True exactly when all normalised paths of both lists are distinct |
| OpenShellPolicy.Enrich | src/openshell/policy.rs:130-151 | The loops append exactly the missing baseline paths in order |
| OpenShellPolicy.FloorIsTight | src/openshell/policy.rs:100-119 | Two policies that meet the floor agree on everything but readable paths, network rules and, where allowed, the degraded Landlock mode |
| OpenShellPolicy.FloorAdmits | src/openshell/policy.rs:100-119 | The floor is met by every such policy with unambiguous paths and, with network rules, the temporary directory among the readable ones |
| OpenShellPolicy.EnrichmentNeverWidensWrites | src/openshell/policy.rs:100-151 | For every policy on the floor: writable stays `/sandbox`, read-only grows by the missing baseline once each, paths stay distinct, enriching twice is enriching once |
| SeatbeltProfile.ProfileRoundTrip | src/native/policy.rs:126-164 | Parsing a compiled profile gives the access back for Deny, and for an allowlist exactly when it is nonempty with nonempty, newline-free hosts |
| SeatbeltProfile.ProfileMeans | src/native/policy.rs:126-164 | Wherever the workspace lies, the rules of a compiled profile, later ones taking precedence, permit exactly: processes and system controls; reading in the workspace, of three devices, and outside workspace root, homes and volumes; writing in the workspace and to the null device; and the network only to the proxy and only with an allowlist |
| SeatbeltProfile.ProfileText | src/native/policy.rs:126-164 | The lines of a compiled profile are the preamble, the text of these rules in order, and for an allowlist its endpoints before the rule that opens the proxy |
| SeatbeltProfile.TextsArePaths | src/native/policy.rs:144-160 | The text of each fixed place and device is the path its rule is about |
| SeatbeltProfile.RuleTextTells | src/native/policy.rs:144-160 | The text of a rule says whether it allows or denies, then which operations, then where |
| SeatbeltProfile.AllowlistIff | src/native/policy.rs:275-299 | An allowlist is read exactly from a body with endpoint lines, all well formed, in which the proxy rule stands |
| SeatbeltProfile.MarkedLinesMustParse | src/native/policy.rs:275-299 | The endpoint lines are read exactly if every one of them is well formed |
| SeatbeltProfile.LayoutRoundTrip | src/native/policy.rs:275-299 | The same for every layout whose fixed lines cannot be mistaken for endpoint lines |
| SeatbeltProfile.SeatbeltIsWellFormed | src/native/policy.rs:126-164 | The fixed lines of the profile are such |
| Text.U16RoundTrip | src/native/policy.rs:285-296 | Printing a port in decimal and parsing it gives it back |
| Proxy.ParseRequest | src/native/proxy.rs:162-220 | Accepts exactly the understood requests, with normal hosts; a forward, split at its first blank line, is the rebuilt line, the original header lines without Proxy-Connection in order, and the same trailing bytes |
| Proxy.BuildForward | src/native/proxy.rs:199-213 | The loop that builds the forward prints the kept lines before the first empty one, in order |
| Proxy.AuthorityIsNormalForm | src/native/proxy.rs:222-243 | A normal host printed with its port parses to itself, whatever the default port |
| Proxy.AuthorityIffNamed | src/native/proxy.rs:222-243 | An authority is accepted for a host and port exactly when it is a spelling of that normal host, in any case and with trailing dots, alone or followed by the port |
| Proxy.ForwardedLineParses | src/native/proxy.rs:189-199 | The forwarded request line, read again, is the original with the path in place of the absolute target |
| Proxy.RequestLineParses | src/native/proxy.rs:170-177 | Three words are read as a request line exactly if the last names HTTP/1. |
| Proxy.DroppedByName | src/native/proxy.rs:204-210 | A header line is dropped exactly if its name is Proxy-Connection in any case |
| Proxy.KeptPiecewise | src/native/proxy.rs:200-210 | Each header line is kept or dropped for itself, in order |
| Proxy.AbsoluteTargetParts | src/native/proxy.rs:189-198 | An accepted absolute target is scheme, authority and rest; the rest is forwarded as it came if and only if it is neither empty nor exactly two slashes |
| Proxy.AbsoluteTargetParses | src/native/proxy.rs:189-198 | Every target of that shape with an accepted authority is accepted, with that authority and rest |
| Proxy.TwoSlashesLoseOne | src/native/proxy.rs:189-198 | Under any normal host the path of two slashes is forwarded as one |
| Proxy.HeadLines | src/native/proxy.rs:163-170 | Splitting the head together with its blank line and stopping at the first empty line gives exactly the lines before the first blank line |
| Proxy.HeadInverts | src/native/proxy.rs:162-214 | Printing nonempty lines, a blank line and anything is undone by splitting at the first blank line |

## Left out

- BoundaryCustody.StepKeepsCustody: the interleaving handlers are modelled on values, because a sequential method cannot be suspended at an await; `BoundaryService` gives the stretches under one lock and the reconciliation loop as methods on the object.
- BoundaryService.SandboxServiceBoundary.ReconcileStartup: visits the records in any order, of which the sorted order is one, and counts without the 64-bit saturation.
- NativeReaders.CeilingsAreExact: assumes that both streams together stay below 2^64 bytes, where the atomic counters would wrap, and sequentially consistent atomics.
- NativeReaders.RetentionIsBounded: same bound on the total.
- Dispatcher.Deployment.ReconcileAll: counts without the 64-bit saturation.
- Dispatcher.Deployment.Execute: the reply that stands in for a panicked dispatcher task is not modelled.
- DispatchRecords.ReplayInvertsClose: the schema version is constant here.
- BoundaryExecution.RunsAreAccounted: the request carried by a prepared execution is opaque, and its expiry is an arbitrary choice.
- The `active` map, Cancel, Health and drain status: bookkeeping about operations that no lifecycle decision reads.
- TLS, certificates, framing, semaphores and signals of the server; the transport and its generated types.
- SHA-256, JSON, base64 and UUID handling; the policy hash is an opaque function.
- UTF-8 decoding of a proxy head, the decisions log and the allowlist lookup of the proxy.
- File modes, symbolic links and the fsync sequence of both stores: a store is a map whose operations may fail before or after their effect.
- Configuration ranges, start-up wiring, packaging, bubblewrap compilation, child process set-up and the egress monitor.
- The response codes of the boundary's handlers: the model states what each request does to entries, records, tokens and sandboxes, and which requests are taken up.
- SeatbeltProfile.ProfileText: the strings of operations and filters are a table of their own; `verify_compiled_profile` and its digest are not modelled.
- Redacted formatting.
