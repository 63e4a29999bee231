# Flask-XXLJob in Dafny

This project models the parts of Flask-XXLJob in which several threads, several failure points or
several retries meet, and proves what holds in every run of them.

## The Registry protocol

One process registers an executor with the XXL-JOB Admin, renews the registration from a background
Worker and removes it again.  `RegistryService` does this with two locks: `state_lock` guards short
critical sections, `network_lock` is held across one Admin RPC and numbers it.

* `RegistryState.dfy` has the state of one process and every `state_lock` section as a function.
  Worker contexts, Remove operations and register coordinations are compared by identity in the
  program; each is a row of a table, and a reference is a row number.  `RegistryProcess.dfy` has the
  same state as an object with one method per section, written statement by statement as the program
  writes it and proved to compute that function.
* `RegistrySystem.dfy` is the protocol: any number of threads (renewal threads behind their activation
  gate, cleanup actors, callers of register, remove, start, stop and shutdown, and an `init_app` that
  withdraws or settles its token) that interleave one event, one section, one send or one answer at a
  time.  An answered RPC that has not been applied yet is a state of its own, and the loops of
  `_run_worker` and `_terminal_remove_result` are cycles of these steps, because every other thread
  may act between two turns.  Whether an RPC succeeds and whether a thread starts is chosen freely at
  each step, and callers may arrive at any time.
  `History` records what properties speak about (who claimed what, which RPC an operation sent, who
  is inside a window, what a caller was answered); no step reads it.
* `RegistryInvariant.dfy` states what holds in every state.  `RegistrySections.dfy` says what the
  sections do once the slots are consistent; `RegistrySteps.dfy` has the frames that let one thread
  step while all others keep what they rely on; the `Registry...Steps.dfy` files prove that each kind of
  step keeps the invariant, and `RegistryRuns.dfy` that every run does.
* `RegistryTransitions.dfy` says what one step may change.  `RegistryTheorems.dfy` and
  `RegistryOverTime.dfy` have the theorems about reachable states and about whole runs.
* `RegistryEffects.dfy` says what the steps have to bring about, from the slots they find: the invariant
  says what they may not do.  `RegistryControl.dfy` has the order of the actions of a thread.  On it rest `RegistryRenewals.dfy`, what a
  Worker does while it is current (of any eight turns of its thread one sends a renewal, and it never
  pauses without having applied an answer), and `RegistryCallers.dfy`, what callers get: a register
  makes one RPC and is answered by it, a Remove makes one at most, and `start`, `stop` and `shutdown`
  make none.  `RegistrySharing.dfy` proves over runs that a caller of `remove_once` that meets a Remove
  of its generation, Active, Pending or cached, makes no RPC of its own and ends with that Remove's
  result.  `RegistryShutdown.dfy` says what `stop` and `shutdown` bring about: a Remove of the
  generation is Pending afterwards exactly if one was or the responsibility was open, registers in
  flight postpone it, and a Pending Remove reaches the Admin.
* `RegistryReopening.dfy` is about a promise the code does not keep.  The prose of its
  documentation (the program's own `README.md`, lines 172-178, and `docs/deployment.md` lines 88-93)
  says that a register accepted after a Remove in the same generation opens a new cleanup
  responsibility; the flowchart at `docs/deployment.md` lines 95-105 does not: it lets a later cleanup
  reuse the success after a register outside the coordinated window.  Two runs break the prose.  In one the
  Remove has been answered but not applied when a register of a fresh window is applied: none of the
  three conditions at `flask_xxljob/registry/registry_service.py` lines 279-299 holds, the Remove is
  rejected as stale, and `last_remove_requested_generation` still blocks another request
  (`PromiseFails`).  In the other a register finds the window closed, joins none and is accepted after
  the Remove that is cached, and the cache then answers for it (`PromiseFailsOutside`).
  `ReopensExactly` gives the condition, in both directions, for every register inside a window or
  outside, with or without a Worker, at a completion that leaves no register of the installed window
  in flight; `OnlyRegistersDrain` says that within its generation nothing but such a completion
  empties a window that has registers in flight.

* `RegistryRank.dfy`, `RegistryAdvances.dfy` and `RegistryProgress.dfy` prove that the protocol does not
  livelock.  Every thread carries a charge for what it can still do, and every turn spends some of it
  or brings the thread nearer to its next wait; only the renewals of the current Worker are free.  So
  the calls, the cleanup actors and the stopped Workers of a run with `n` calls together make at most
  `17 n (216 n + 1)` turns, whatever the schedule, the Admin and the thread starts (`EffortOfCalls`),
  and once there is no Worker and no caller arrives the run ends with every thread done (`CallsEnd`).
* `RegistryAnswers.dfy` and `RegistryAdmin.dfy` compare `registered` with what the Admin holds, which is
  decided by the RPCs that succeeded there, in the order of their sequences.  `AdminAgreesExactly` says
  for every reachable state when the two are the same, and `AgreesWithoutFailures` when no failure can
  have come between them.  They can differ for good: an accepted failure makes an older success stale
  that has not been applied yet.  A register that the Admin accepted is then neither counted as
  registered nor ever cleaned up (`StaleSuccessIsLost`), though the program's own `README.md`, lines
  172-178, promises that the remote state is removed exactly when needed; or a Remove has taken the
  executor away and it still counts as registered (`StaleRemoveIsLost`).

## The smaller cores

* `AdminPost.dfy`: the retry and failover loops, proved against a rule that names the address of the
  next POST, and the clamps of the policy.
* `Urls.dfy`: joining URLs, normalising the route prefix and the address an executor advertises.
* `BodyReader.dfy`: the bounded reader of request bodies over a stream that chunks as it likes.
* `InitApp.dfy`: `init_app` as a transaction that can fail at every step while others act between
  any two.  Undisturbed, the contract of `InitApp.Host.InitApp` decides from the circumstances whether
  the call raises, whether its Blueprint is visible, whether its start is activated and what every
  slot holds afterwards; disturbed, it says what is withdrawn and what is kept.  Two things a rollback
  does not restore: an application that was in the record before is dropped from it, and the Worker
  of an activated start stays, in its generation.  For every call the contract says when, in terms of
  whether the Blueprint was visible at the check that follows its registration: the record is dropped
  exactly if the call came to write it, and the generation has moved exactly if the start was
  activated, after which a call raises only at the log line or in an activation that had committed.
  For an undisturbed call `RecordIsLost` and `WorkerSurvives` turn this into exact conditions on the
  circumstances, and `LostRecord` and `SurvivingWorker` are calls that reach them.  In a disturbed
  call others may also have removed the Blueprint before the check.

## Model

| member | source | states |
|---|---|---|
| RegistryProcess.ProcessState.JoinRegisterCoordination | flask_xxljob/registry/registry_service.py:231-267 | a register enters the open window of the current generation, opens one, or stays outside a window whose cleanup was requested; on consistent slots nothing is ever detached |
| RegistryProcess.ProcessState.InvalidateSuccessfulCleanup | flask_xxljob/registry/registry_service.py:269-306 | the three conditions under which a success clears the cached cleanup and its request marker |
| RegistryProcess.ProcessState.EnsurePendingRemove | flask_xxljob/registry/registry_service.py:323-350 | one lifecycle cleanup responsibility becomes at most one Pending Remove |
| RegistryProcess.ProcessState.ReconcileRegisterCoordination | flask_xxljob/registry/registry_service.py:352-400 | an empty window creates the Remove it owes and is cleared when nothing is left to do |
| RegistryProcess.ProcessState.CommitRegisterOnce | flask_xxljob/registry/registry_service.py:603-668 | a register completion is accepted by sequence alone, reopens responsibility only for its own installed window, and leaves its window |
| RegistryProcess.ProcessState.CommitRemoveOnce | flask_xxljob/registry/registry_service.py:603-632 | a Remove outside the terminal path only records its accepted result |
| RegistryProcess.ProcessState.TerminalDecision | flask_xxljob/registry/registry_service.py:481-522 | one turn of the terminal loop: wait for registers, reuse the cache, wait for the Active or Pending Remove, or take the Active slot |
| RegistryProcess.ProcessState.PrepareStart | flask_xxljob/registry/registry_service.py:687-743 | a start is prepared only if there is neither a current Worker nor another token, and leaves nothing behind if its thread cannot start |
| RegistryProcess.ProcessState.ActivatePreparedStart | flask_xxljob/registry/registry_service.py:745-814 | activation commits generation and Worker, detaches the window, cancels the Pending Remove and waits for the Active one; on consistent slots it only succeeds or finds its token taken |
| RegistryProcess.ProcessState.CancelPreparedStart | flask_xxljob/registry/registry_service.py:816-833 | only a token still in its slot is cancelled |
| RegistryProcess.ProcessState.SettlePreparedStart | flask_xxljob/registry/registry_service.py:835-901 | an uncommitted token is cancelled, a committed one is woken, any other is left alone |
| RegistryProcess.ProcessState.CommitRenewalOnce | flask_xxljob/registry/registry_service.py:1016-1040 | a renewal is applied only for the current Worker and in sequence; it never reopens a cleanup |
| RegistryProcess.ProcessState.RequestLifecycleRemove | flask_xxljob/registry/registry_service.py:1078-1105 | a request closes the window and is postponed while registers are in flight |
| RegistryProcess.ProcessState.StopRegistry | flask_xxljob/registry/registry_service.py:1042-1076 | stop takes the prepared token, moves the Worker to the stopping map and may request a Remove, in one section |
| RegistryProcess.ProcessState.ShutdownRegistry | flask_xxljob/registry/registry_service.py:1409-1455 | shutdown stops locally, closes the window and decides whether a Remove is due |
| RegistryProcess.ProcessState.RequestShutdownRemove | flask_xxljob/registry/registry_service.py:1477-1480 | the Remove is requested only if the generation is still the one that was shut down |
| RegistryProcess.ProcessState.FinishWorker | flask_xxljob/registry/registry_service.py:1107-1134 | a finishing Worker claims its own generation's Pending Remove and leaves the stopping map in one section |
| RegistryProcess.ProcessState.SchedulePendingRemove | flask_xxljob/registry/registry_service.py:1150-1214 | the scheduler starts an actor, leaves the Remove to its stopping Worker or live actor, or gives it a failure result and takes it out |
| RegistryProcess.ProcessState.ClaimPendingRemove | flask_xxljob/registry/registry_service.py:1247-1254 | an actor claims only its own Pending Remove, and only into an empty Active slot |
| RegistryProcess.ProcessState.EndCleanupActor | flask_xxljob/registry/registry_service.py:1257-1262 | an ending actor unbinds only itself |
| RegistryProcess.ProcessState.CompleteRemoveOperation | flask_xxljob/registry/registry_service.py:1308-1374 | a completion stores the result, satisfies its generation only without a Worker, cancels the Pending fallback and clears only its own Active slot |
| RegistrySections.RequestEffect | flask_xxljob/registry/registry_service.py:1078-1105 | a request with registers in flight changes neither slot nor marker, a window never yields a new Remove, and clearing one means generation 0 without a registration |
| RegistrySections.JoinEffect | flask_xxljob/registry/registry_service.py:231-267 | a register never meets a window of another generation, so nothing is detached |
| RegistrySections.LeaveLast | flask_xxljob/registry/registry_service.py:649-662 | the last register of a window keeps it exactly if a cleanup is wanted and a Remove carries it |
| RegistrySections.CommitOwes | flask_xxljob/registry/registry_service.py:618-662 | the cleanup a window owes survives the completions of its registers |
| RegistrySections.CompleteEffect | flask_xxljob/registry/registry_service.py:1318-1368 | a completion creates no Remove, and ends an empty window only if the fallback has gone with it |
| RegistrySections.StartFailedEffect | flask_xxljob/registry/registry_service.py:1186-1214 | a cleanup thread that cannot start takes the Pending Remove with it and no other |
| RegistrySections.ActivateEffect | flask_xxljob/registry/registry_service.py:757-803 | the RuntimeErrors and the repair of a stale Worker are unreachable |
| RegistrySections.TerminalSlots | flask_xxljob/registry/registry_service.py:481-522 | the terminal path takes the Active slot only when both slots are empty |
| RegistryCompletionSteps.RenewalOnlyRecords | flask_xxljob/registry/registry_service.py:1018-1036 | an accepted renewal only writes the snapshot, because no cleanup is cached while a Worker is current |
| RegistryCompletionSteps.RenewApplyKeeps | flask_xxljob/registry/registry_service.py:1016-1040 | applying a renewal keeps the invariant |
| RegistryCompletionSteps.OneShotApplyKeeps | flask_xxljob/registry/registry_service.py:620-632 | applying a one-shot Remove keeps the invariant |
| RegistryWorkerSteps.CheckKeeps | flask_xxljob/registry/registry_service.py:921-966 | the checks of a renewal thread keep the invariant |
| RegistryWorkerSteps.LockedCheckKeeps | flask_xxljob/registry/registry_service.py:994-1007 | the check under `network_lock` keeps the invariant: a current Worker may call, and no Remove of its generation or a later one has been sent |
| RegistryWorkerSteps.FinishKeeps | flask_xxljob/registry/registry_service.py:1107-1144 | `_finish_worker` keeps the invariant |
| RegistryRpcSteps.RenewSendKeeps | flask_xxljob/registry/registry_service.py:1006-1009 | sending a renewal keeps the invariant |
| RegistryRpcSteps.RegisterSendKeeps | flask_xxljob/registry/registry_service.py:585-601 | sending a register keeps the invariant |
| RegistryRemoveSteps.RemoveSendKeeps | flask_xxljob/registry/registry_service.py:1282-1288 | sending a Remove operation keeps the invariant: it is the operation's first RPC and comes after every RPC of its generation and older ones |
| RegistryRemoveSteps.ClaimKeeps | flask_xxljob/registry/registry_service.py:1247-1256 | an actor's claim keeps the invariant |
| RegistryRemoveSteps.OwnedKeeps | flask_xxljob/registry/registry_service.py:517-535 | taking the Active slot on the terminal path keeps the invariant |
| RegistryRemoveSteps.ScheduleKeeps | flask_xxljob/registry/registry_service.py:1150-1231 | every outcome of the scheduler keeps the invariant |
| RegistryRemoveSteps.RemoveApplyKeeps | flask_xxljob/registry/registry_service.py:1295-1306 | completing a Remove keeps the invariant |
| RegistryRegisterSteps.JoinKeeps | flask_xxljob/registry/registry_service.py:231-267 | joining a window keeps the invariant |
| RegistryRegisterSteps.OutsideKeeps | flask_xxljob/registry/registry_service.py:618-647 | a register outside every window keeps the invariant |
| RegistryRegisterSteps.RegisterApplyKeeps | flask_xxljob/registry/registry_service.py:618-668 | a register inside a window keeps the invariant, whatever was applied before it |
| RegistryCallSteps.ObserverKeeps | flask_xxljob/registry/registry_service.py:481-567 | an observer of the terminal path keeps the invariant and always finds a result or a reason to look again |
| RegistryCallSteps.PrepareKeeps | flask_xxljob/registry/registry_service.py:687-743 | preparing a start keeps the invariant |
| RegistryCallSteps.CancelKeeps | flask_xxljob/registry/registry_service.py:816-833 | withdrawing a token keeps the invariant |
| RegistryCallSteps.SettleKeeps | flask_xxljob/registry/registry_service.py:835-901 | settling a token keeps the invariant |
| RegistryCallSteps.ActivateKeeps | flask_xxljob/registry/registry_service.py:745-814 | activation keeps the invariant |
| RegistryStopSteps.StopKeeps | flask_xxljob/registry/registry_service.py:1042-1067 | `stop` keeps the invariant |
| RegistryStopSteps.ShutdownKeeps | flask_xxljob/registry/registry_service.py:1409-1459 | the first section of `shutdown` keeps the invariant |
| RegistryStopSteps.ShutdownRequestKeeps | flask_xxljob/registry/registry_service.py:1461-1491 | the second section of `shutdown` keeps the invariant, after valid and invalid configurations |
| RegistrySignalSteps.SignalKeeps | flask_xxljob/registry/registry_service.py:1299-1303 | setting an owed event keeps the invariant |
| RegistryRuns.StepKeeps | flask_xxljob/registry/registry_service.py:101-117 | every step of every thread, and every arriving caller, keeps the invariant |
| RegistryRuns.RunHolds | flask_xxljob/registry/registry_service.py:62-98 | the invariant holds in every state of every run from the blank state |
| RegistryTransitions.TurnEvolves | flask_xxljob/registry/registry_service.py:101-117 | what any one step may change: log, slots, windows, token, snapshot and reopened responsibilities |
| RegistryTheorems.RpcOrder | flask_xxljob/registry/registry_service.py:994-1014 | renewals and Remove operations reach the Admin by generation, renewals before the Remove, in every run |
| RegistryTheorems.RpcsNeverOverlap | flask_xxljob/registry/registry_service.py:585-601 | no two threads are inside `network_lock`, and the RPC under way, of whichever kind, has the latest sequence |
| RegistryTheorems.LateRegisterIsCleaned | flask_xxljob/registry/registry_service.py:634-662 | a register accepted after its window's cleanup request has a later Remove, a cleanup thread that failed to start later, or a window that is still installed with its cleanup on the way |
| RegistryTheorems.CacheIsSound | flask_xxljob/registry/registry_service.py:1323-1349 | the cached cleanup of the current generation is an accepted Remove whose sequence exceeds every accepted renewal and windowed register success of that generation |
| RegistryTheorems.SlotsAgree | flask_xxljob/registry/registry_service.py:694-803 | how Pending, Active, Worker, stopping Workers and the prepared token exclude and order each other |
| RegistryTheorems.WindowNeverLingers | flask_xxljob/registry/registry_service.py:377-400 | an installed window has registers in flight, or its requested cleanup is Pending or Active |
| RegistryTheorems.InflightCountsCallers | flask_xxljob/registry/registry_service.py:261-263 | `inflight_count` is the number of callers between join and commit |
| RegistryTheorems.OneRemovePerWindow | flask_xxljob/registry/registry_service.py:649-662 | a window has at most one lifecycle Remove, sent after every one of its registers |
| RegistryTheorems.OneRpcPerRemove | flask_xxljob/registry/registry_service.py:1282-1293 | no Remove operation sends two RPCs |
| RegistryTheorems.UnsignalledIsOwed | flask_xxljob/registry/registry_service.py:1299-1303 | an operation whose event is not set is in a slot or owed its event by a thread |
| RegistryTheorems.NothingBreaks | flask_xxljob/registry/registry_service.py:556-567 | "completed without a result" is unreachable: whatever has left the Active slot has a result |
| RegistryTheorems.PendingIsCarried | flask_xxljob/registry/registry_service.py:1150-1268 | a Pending Remove without an Active one is carried by its stopping Worker, a started actor or a thread that will run the scheduler |
| RegistryTheorems.EveryWaitEnds | flask_xxljob/registry/registry_service.py:524-545 | from every thread that waits for an operation, a window, its gate or `network_lock` a chain of waits leads to a thread that can step |
| RegistryTheorems.WaitsAreAcyclic | flask_xxljob/registry/registry_service.py:952-958 | no chain of waits is longer than four threads, and one that does not end at a thread that can step goes on |
| RegistryTheorems.WaitsDescend | flask_xxljob/registry/registry_service.py:921-921 | what a thread waits for is not done, and can step or is nearer to a thread that can |
| RegistryTheorems.NoDeadlock | flask_xxljob/registry/registry_service.py:524-545 | a reachable state with an unfinished thread has a thread that can step |
| RegistryTheorems.IdleIsEmpty | flask_xxljob/registry/registry_service.py:1504-1513 | once every thread is done, everything the idle test reads is empty: the slots, the stopping map and the bound cleanup actors |
| RegistryTheorems.SnapshotIsFold | flask_xxljob/registry/registry_service.py:187-196 | `registered` is the fold of the accepted completions, whose sequences strictly increase |
| RegistryTheorems.RegisteredMeans | flask_xxljob/registry/registry_service.py:187-196 | the executor counts as registered exactly if a renewal or register success was accepted and no failed renewal or successful Remove since |
| RegistryTheorems.CommittedFinishes | flask_xxljob/registry/registry_service.py:943-968 | a committed context is current or stopping exactly until its own thread has run `_finish_worker` |
| RegistryTheorems.UncommittedSendsNothing | flask_xxljob/registry/registry_service.py:914-941 | a prepared start that was never committed has sent no RPC |
| RegistryTheorems.ActivationIsExpected | flask_xxljob/registry/registry_service.py:757-786 | an owner that finds its token in the slot activates it without error or repair |
| RegistryOverTime.SlotsAreNotOverwritten | flask_xxljob/registry/registry_service.py:1194-1217 | what leaves Pending is claimed or owed its signal by the thread that took it, what leaves Active has just been completed by its claimer, and neither slot changes operation |
| RegistryOverTime.NoRemoveWhileInflight | flask_xxljob/registry/registry_service.py:367-375 | a step that creates a Remove leaves no register of the window that was in the slot in flight |
| RegistryOverTime.OnlyNewerCompletions | flask_xxljob/registry/registry_service.py:620-632 | no completion changes the snapshot after a newer one, success or failure |
| RegistryOverTime.OnlyOwnersCommit | flask_xxljob/registry/registry_service.py:757-790 | a Worker appears only when the owner activates the token in the slot |
| RegistryOverTime.StoppingIsNotOverwritten | flask_xxljob/registry/registry_service.py:1129-1130 | a stopping Worker stays in the map until its own thread takes it out |
| RegistryOverTime.ZeroOnce | flask_xxljob/registry/registry_service.py:649-661 | a window that has reached zero is never rejoined |
| RegistryOverTime.ClaimedOnce | flask_xxljob/registry/registry_service.py:1120-1127 | an operation becomes Active at most once in a run |
| RegistryOverTime.TokenTakenOnce | flask_xxljob/registry/registry_service.py:816-833 | at most one of activate, cancel, settle, stop and shutdown takes a token |
| RegistryOverTime.WithdrawnIsSilent | flask_xxljob/registry/registry_service.py:921-937 | a start withdrawn before activation never sends an RPC afterwards |
| RegistryOverTime.FinishedOnce | flask_xxljob/registry/registry_service.py:967-968 | `_finish_worker` runs at most once for a Worker |
| RegistryOverTime.OneCreationPerWindow | flask_xxljob/registry/registry_service.py:649-662 | a run creates at most one lifecycle Remove while a given window is installed |
| RegistryOverTime.Convergence | flask_xxljob/registry/registry_service.py:279-306 | after a late successful register, its window is not cleared within the generation before a Remove with a greater sequence was issued or its cleanup thread has failed to start since |
| RegistryOverTime.NoAutomaticRetry | flask_xxljob/registry/registry_service.py:329-350 | the lifecycle Removes a run creates for a generation number at most one plus the register completions that reopened its responsibility |
| RegistryEffects.PreparesStart | flask_xxljob/registry/registry_service.py:687-743 | `start` prepares a context behind its gate exactly if there is neither Worker nor token and its thread starts |
| RegistryEffects.ActivatesStart | flask_xxljob/registry/registry_service.py:757-814 | an owner that proceeds makes its token the Worker of the next generation, owes its gate and the events of the window and Remove it displaces, and leaves the Active Remove to be waited for |
| RegistryEffects.WithdrawsStart | flask_xxljob/registry/registry_service.py:816-833 | a withdrawn token leaves its slot and its thread is woken; a committed start is left alone |
| RegistryEffects.SettlesStart | flask_xxljob/registry/registry_service.py:835-901 | settling withdraws a token that is still there and wakes a start that is committed |
| RegistryEffects.FinishesWorker | flask_xxljob/registry/registry_service.py:1107-1144 | a finishing Worker takes over the Pending Remove of its generation exactly if none is Active, and leaves slot and map |
| RegistryEffects.SchedulesActor | flask_xxljob/registry/registry_service.py:1150-1231 | for a startable Remove the scheduler starts one bound actor, or gives it a failure and owes its event |
| RegistryEffects.CompletesRemove | flask_xxljob/registry/registry_service.py:1308-1374 | a completion frees the slot and stores its result; it is cached and takes the Pending Remove with it exactly if it cleans up, and decides `registered` exactly if it is the newest |
| RegistryRenewals.WorkerRenews | flask_xxljob/registry/registry_service.py:959-1009 | of any eight turns that the thread of the current Worker makes, whatever the others do in between, one sends a renewal of the current generation |
| RegistryRenewals.PauseFollowsRenewal | flask_xxljob/registry/registry_service.py:959-966 | a renewal thread pauses only after it has applied the answer of a renewal of its own, accepted exactly if it is the newest and then decisive for `registered` |
| RegistryRenewals.WorkerRegisters | flask_xxljob/registry/registry_service.py:994-1036 | a run in which a started Worker registers the executor |
| RegistryCallers.RegisterJoins | flask_xxljob/registry/registry_service.py:231-267 | a register enters the open window or opens one, and stays outside only when the cleanup of the window has been requested |
| RegistryCallers.RegisterIsAnswered | flask_xxljob/registry/registry_service.py:412-435 | a finished `register_once` has made exactly one RPC, a register that has been applied, and was answered by it |
| RegistryCallers.RemoveIsAnswered | flask_xxljob/registry/registry_service.py:437-567 | a finished `remove_once` has made one Remove at most and was answered by it, by another thread's, by a cached one or by the exception of a cleanup thread |
| RegistryCallers.LifecycleSendsNothing | flask_xxljob/registry/registry_service.py:1042-1067 | `start`, `stop` and `shutdown` make no RPC themselves |
| RegistrySharing.TerminalMeets | flask_xxljob/registry/registry_service.py:481-535 | what a terminal turn does for each state of the slots: ordinary RPC, wait for registers, cached success, wait for the Remove that is there, or a Remove of its own |
| RegistrySharing.EntryMeets | flask_xxljob/registry/registry_service.py:447-460 | `remove_once` is an ordinary RPC while there is a Worker and takes the terminal path otherwise |
| RegistrySharing.ActiveIsShared | flask_xxljob/registry/registry_service.py:501-559 | a caller that meets an Active Remove of its generation makes no RPC afterwards and ends with its result |
| RegistrySharing.CacheIsShared | flask_xxljob/registry/registry_service.py:493-500 | a caller that meets the cached success is answered by it and makes no RPC |
| RegistrySharing.PendingIsShared | flask_xxljob/registry/registry_service.py:509-559 | a caller that meets a Pending Remove that gets a result makes no RPC and ends with this result or with the exception of a cleanup thread |
| RegistryShutdown.StopHalts | flask_xxljob/registry/registry_service.py:1042-1076 | `stop` leaves no Worker and no token and flags the Worker; without removal it touches nothing of the cleanup |
| RegistryShutdown.ShutdownHalts | flask_xxljob/registry/registry_service.py:1409-1455 | the same for `shutdown`, which without deregistration touches no window, marker or Remove |
| RegistryShutdown.ShutdownIsStop | flask_xxljob/registry/registry_service.py:1409-1480 | `shutdown` with deregistration and a valid configuration has the effect of `stop(remove=True)`, or neither creates anything |
| RegistryShutdown.ShutdownDeregisters | flask_xxljob/registry/registry_service.py:1443-1480 | without registers in flight a Remove of the generation is Pending after `shutdown` exactly if one was or the responsibility was open |
| RegistryShutdown.ShutdownPostpones | flask_xxljob/registry/registry_service.py:1417-1436 | with registers in flight `shutdown` closes their window and creates nothing |
| RegistryShutdown.LastRegisterLeavesRemove | flask_xxljob/registry/registry_service.py:634-662 | the last register of a closed window, accepted as a success, leaves a Remove Pending |
| RegistryShutdown.StopGets | flask_xxljob/registry/registry_service.py:1042-1067 | a caller of `stop(remove=True)` goes on to schedule a Pending Remove exactly if the responsibility was open |
| RegistryShutdown.ShutdownAsks | flask_xxljob/registry/registry_service.py:1443-1461 | the first section of `shutdown` goes on to its request and leaves the responsibility open |
| RegistryShutdown.ShutdownGets | flask_xxljob/registry/registry_service.py:1475-1484 | the second section gets a Remove exactly if the responsibility is open |
| RegistryShutdown.ShutdownRefuses | flask_xxljob/registry/registry_service.py:1461-1480 | with an invalid configuration or in another generation `shutdown` requests nothing |
| RegistryShutdown.PendingReachesAdmin | flask_xxljob/registry/registry_service.py:1150-1293 | within its generation a Pending Remove has sent its RPC once it has left the slots, unless its thread could not start or a cleanup has been cached since |
| RegistryReopening.CleanableExactly | flask_xxljob/registry/registry_service.py:1084-1105 | without registers in flight, `stop(remove=True)` finds a Remove exactly if the responsibility for the generation is open |
| RegistryReopening.ReopensExactly | flask_xxljob/registry/registry_service.py:279-299 | for every register whose completion leaves none of the installed window in flight, a cleanup can be requested afterwards if and only if the stated guard held before |
| RegistryReopening.OnlyRegistersDrain | flask_xxljob/registry/registry_service.py:649-662 | within its generation a window is emptied by the completion of its last register only |
| RegistryReopening.PromiseFails | flask_xxljob/registry/registry_service.py:341-342 | a run in which a register of a window, accepted after the Remove of its generation, has nothing to clean it up |
| RegistryReopening.PromiseFailsOutside | flask_xxljob/registry/registry_service.py:493-500 | a run in which a register outside every window is accepted after the cached Remove, so that a later cleanup requests nothing or is answered from the cache |
| RegistryAnswers.AllApplied | flask_xxljob/registry/registry_service.py:585-632 | once every thread is done every RPC that was sent has been applied, and only a newer completion has made the answer of a register or a Remove stale |
| RegistryAdmin.RegisteredFromLog | flask_xxljob/registry/registry_service.py:187-196 | `registered` read off the log in sequence order: an accepted success of a renewal or register that no later accepted completion denies |
| RegistryAdmin.AdminAgreesExactly | flask_xxljob/registry/registry_service.py:618-632 | in every reachable state `registered` is what the Admin holds if and only if the last success there was taken in and no failed renewal hides it |
| RegistryAdmin.OnlyFailuresOvertake | flask_xxljob/registry/registry_service.py:618-630 | the last success, if of a register or a Remove, is stale at the end only because a newer failure was accepted first |
| RegistryAdmin.AgreesWithoutFailures | flask_xxljob/registry/registry_service.py:618-632 | the process is right at the end if the last success is of a register or a Remove and no failure was accepted after it |
| RegistryAdmin.StaleSuccessIsLost | flask_xxljob/registry/registry_service.py:618-632 | a run that ends with the executor at the Admin, not counted as registered and with no cleanup that could be requested |
| RegistryAdmin.StaleRemoveIsLost | flask_xxljob/registry/registry_service.py:1318-1330 | a run that ends with the executor removed at the Admin and counted as registered |
| RegistryProgress.TurnLowersRank | flask_xxljob/registry/registry_service.py:943-968 | every turn lowers the rank, except a renewal of the current Worker, which leaves it |
| RegistryProgress.BoundedEffort | flask_xxljob/registry/registry_service.py:468-567 | between any two states of a run the turns other than renewals of the current Worker are bounded by what was left to do and the calls that arrived |
| RegistryProgress.EffortOfCalls | flask_xxljob/registry/registry_service.py:468-567 | over a whole run these turns number at most a quadratic function of the calls, so that neither the terminal loop nor the scheduler and its actors spin |
| RegistryProgress.CallsEnd | flask_xxljob/registry/registry_service.py:943-968 | without callers and without a Worker a run has boundedly many turns left and can stop only when every thread is done |
| RegistryProgress.WaitsBlock | flask_xxljob/registry/registry_service.py:536-549 | a terminal turn that waits finds the event of its window or operation unset |
| RegistryProgress.BoundActorClaims | flask_xxljob/registry/registry_service.py:1169-1176 | the actor bound to a Pending Remove is alive and its claim succeeds, so that a dead actor is never replaced |
| AdminPost.FromConfig | flask_xxljob/client/policy.py:42-56 | a number within its caps is kept, any other becomes the cap it is beyond, and the flags are copied |
| AdminPost.PostToAdmins | flask_xxljob/client/__init__.py:109-315 | the loops make exactly the POSTs the rule prescribes, wait once per retry, and report error, code, message and status of the last reply, shape by shape |
| AdminPost.SucceedsByReply | flask_xxljob/client/__init__.py:261-270 | a call succeeds exactly if its last POST was answered with status 200, code 200 and a text or no text |
| AdminPost.NextPost | flask_xxljob/client/__init__.py:283-315 | by the reply and the flags alone, whether a POST is repeated at its address, followed by one to the next, or the last |
| AdminPost.TryAddress | flask_xxljob/client/__init__.py:170-305 | the attempts at one address end the call or abandon the address after an error that may fail over |
| AdminPost.FollowedBy | flask_xxljob/client/__init__.py:283-305 | a POST to the same address follows a transient error only, one to the next address an error that may fail over with no retry left, and nothing follows a success |
| AdminPost.EarlierAttempts | flask_xxljob/client/__init__.py:283-300 | addresses never go back, and attempts that are not the last at their address met transient errors |
| AdminPost.VisitsPrefix | flask_xxljob/client/__init__.py:170-171 | the addresses tried are a prefix of the list |
| AdminPost.PostsAreBounded | flask_xxljob/client/__init__.py:170-176 | at most addresses times retries plus one POSTs, eleven per address under the clamp |
| AdminPost.WaitsAreBounded | flask_xxljob/client/__init__.py:287-299 | at most ten waits and 300 seconds per address under the clamps |
| AdminPost.SucceedsExactly | flask_xxljob/client/__init__.py:261-270 | a call succeeds exactly when one of its POSTs did, and its attempt count is the POSTs made |
| AdminPost.GivesUpOnlyAtTheEnd | flask_xxljob/client/__init__.py:302-315 | a failed call ended in an error that may not fail over or at the last address |
| AdminPost.CallIsUnique | flask_xxljob/client/__init__.py:109-315 | the replies determine the POSTs |
| Urls.JoinedHasNoSlash | flask_xxljob/utils/url_utils.py:27-31 | a joined URL never ends in a slash |
| Urls.JoinIgnoresSlashes | flask_xxljob/utils/url_utils.py:14-31 | redundant slashes at the seam and at the end change nothing |
| Urls.JoinOfTrimmed | flask_xxljob/utils/url_utils.py:27-31 | trimmed parts are joined by one slash, and an empty path or one of slashes adds nothing |
| Urls.JoinIsAssociative | flask_xxljob/utils/url_utils.py:27-31 | joining twice is joining once with the joined path |
| Urls.NormalizeExactly | flask_xxljob/config.py:539-575 | a prefix is accepted exactly if it is one of the four spellings of a canonical path, or of the two of the empty one, and becomes that path |
| Urls.AllowedMeans | flask_xxljob/config.py:545-552 | which characters a prefix may have, in ASCII and beyond |
| Urls.SegmentsSplit | flask_xxljob/config.py:569-571 | joining the segments with slashes gives the string back, and no segment has a slash |
| Urls.NormalizeRefuses | flask_xxljob/config.py:545-574 | which of the three errors refuses a prefix |
| Urls.NormalizeIsIdempotent | flask_xxljob/config.py:539-575 | normalising a normalised prefix changes nothing |
| Urls.NormalizeAddressMeans | flask_xxljob/config.py:454-460 | all slashes at the end of an address are dropped and nothing else |
| Urls.ExecutorPathsAre | flask_xxljob/_app.py:13-19 | the paths below a prefix, spelled out |
| Urls.AdvertisedAddressReachesRoutes | flask_xxljob/config.py:454-460 | the advertised address plus a suffix is the trimmed base plus a mounted route, for every accepted prefix and suffix |
| Urls.PrefixIsJoined | flask_xxljob/config.py:578-595 | appending a canonical prefix to a trimmed address is plain concatenation |
| Urls.RoutesAreDistinct | flask_xxljob/_app.py:13-19 | the five executor routes of a prefix are five paths |
| BodyReader.ReadLimitedBody | flask_xxljob/protocol/parser.py:22-49 | for every chunking the body is returned whole if and only if it fits and no larger length was declared, and at most one byte beyond the limit is consumed |
| InitApp.Host.Prepare | flask_xxljob/extension.py:158-208 | which step of the private part raises and what exists then; nothing is published, generation and Worker stay |
| InitApp.Host.PublishCommand | flask_xxljob/extension.py:415-422 | the command is added only if the name is free, and only an added one is noted |
| InitApp.Host.PublishExtension | flask_xxljob/extension.py:218-221 | the Runtime is published after the command |
| InitApp.Host.PublishRecord | flask_xxljob/extension.py:222-227 | the record is noted before it is made and follows the Runtime |
| InitApp.Host.PublishRuntime | flask_xxljob/extension.py:217-227 | command, Runtime and record are written in this order, each exactly if the call gets past its step |
| InitApp.Host.PublishBlueprint | flask_xxljob/extension.py:229-244 | the exact Blueprint is visible or not, whether or not Flask raises |
| InitApp.Host.ActivateToken | flask_xxljob/extension.py:246-250 | only this call's own token, still in its slot, is activated |
| InitApp.Host.Commit | flask_xxljob/extension.py:215-261 | for every failure point, what the commit has published and whether it has activated |
| InitApp.Host.RemoveCommand | flask_xxljob/extension.py:348-356 | only this package's command is removed |
| InitApp.Host.RemoveExtension | flask_xxljob/extension.py:364-373 | a replacement of the Runtime is kept |
| InitApp.Host.Unpublish | flask_xxljob/extension.py:348-391 | what this call wrote is taken back, what others have written since is kept, while others go on acting |
| InitApp.Host.Close | flask_xxljob/extension.py:294-402 | every cleanup runs whichever of the others fail, and takes back only what is this call's |
| InitApp.Host.Fail | flask_xxljob/extension.py:262-292 | with a visible Blueprint only the token is settled, otherwise everything of this call's is withdrawn |
| InitApp.Host.InitApp | flask_xxljob/extension.py:99-292 | for every call, its writes are withdrawn if it raises with no Blueprint visible and others' are kept, the generation moves exactly if it has activated, after which it raises only at the log line or in a committed activation, and a rollback drops the record exactly if it came to write it; undisturbed, when it raises, publishes, records and activates, step by step in terms of its configuration and of the slots it finds, and what it leaves |
| InitApp.WorkerSurvives | flask_xxljob/extension.py:281-291 | an undisturbed rolled-back call leaves its Worker running exactly if Flask did not take the Blueprint in and activation had committed |
| InitApp.RecordIsLost | flask_xxljob/extension.py:382-384 | an undisturbed rolled-back call drops an earlier record exactly if it raised while recording or later, with no Blueprint taken in |
| InitApp.LostRecord | flask_xxljob/extension.py:382-384 | a call that drops an application recorded before |
| InitApp.SurvivingWorker | flask_xxljob/extension.py:281-291 | a rolled-back call whose Worker is left running |

## Left out

- RegistryTheorems.EveryWaitEnds: does not say which thread is scheduled next, because fairness of the operating system is not modelled; a renewal thread that is always preferred can hold up the others.
- PID changes and forks: one process is modelled; the program replaces the whole state behind one guard.
- Real time: interval waits and bounded joins are steps that may happen at any moment.
- An RPC result is reduced to success or failure, an exception of the client being a failure; results, timestamps and messages kept for status reports are not modelled.
- What `stop` raises and `shutdown` logs when a cleanup thread cannot start: answers are kept for registers and Removes only.
- Log closing; the set of cleanup actors is derived from the threads bound to Remove operations.
- The stop flag of a prepared start that is cancelled: its thread returns without reading it.
- Consecutive calls of `_worker_is_current` with nothing between them are one step, and the acquisition of `network_lock` by a one-shot call or a Remove is one step with the sequence it takes.
- The finalizer's own `close`, `XXLJobRuntime` beyond its finalizer, and the log manager beyond being open or closed.
- A step of `init_app` other than the Blueprint and activation raises before its effect, and two calls for the same application at once are modelled as one call and what others do to it.
- InitApp.Host.InitApp: does not keep this package's command, or the record, when others write them while the call runs, because a cleanup cannot tell them from this call's.
- HTTP, JSON decoding, Flask routing and URL parsing: replies, parsed bodies and the acceptance of a Blueprint are inputs.
- Elapsed times, error texts and log lines of `post_to_admins`.
- Disabled configurations, the command line, callbacks and the protocol models: one-branch facts and field mappings.
