/**
 * What one step may change, whoever makes it: how the slots, the windows, the prepared token, the
 * snapshot and the log go from one state of a run to the next.
 */
module RegistryTransitions {
  import opened Options
  import opened RegistryState
  import opened RegistrySystem
  import opened RegistryInvariant
  import opened RegistrySections
  import opened RegistryCompletionSteps
  import opened RegistryWorkerSteps
  import opened RegistryRemoveSteps
  import opened RegistryRegisterSteps
  import opened RegistryCallSteps
  import opened RegistryStopSteps
  import opened RegistrySignalSteps

  /** The log only grows, and an applied entry never changes again. */
  ghost predicate LogGrows(s: System, s': System) {
    && |s.log| <= |s'.log| <= |s.log| + 1
    && (forall i :: 0 <= i < |s.log| ==>
          && s'.log[i].kind == s.log[i].kind && s'.log[i].thread == s.log[i].thread
          && (s'.log[i].status == s.log[i].status
              || (s.log[i].status.InFlight? && s'.log[i].status.Returned?)
              || (s.log[i].status.Returned? && s'.log[i].status.Applied? && s'.log[i].status.ok == s.log[i].status.ok)))
    && (|s'.log| > |s.log| ==> s'.log[|s.log|].status.InFlight?)
  }

  /** The thread completes the Active Remove and owes its signal. */
  predicate CompletesActive(s: System, s': System, t: nat, o: nat) {
    && t < |s.threads| && t < |s'.threads|
    && s.threads[t].act.Removing? && s.threads[t].act.o == o && s.threads[t].act.rpc.Answered?
    && o < |s'.sh.operations| && s'.sh.operations[o].result == Some(s.threads[t].act.rpc.ok)
    && SignalOperation(o) in s'.threads[t].owed
  }

  /** A Remove leaves the Pending slot unclaimed because a start has begun a new generation, because its
      actor could not start, or because the Active one before it has satisfied the cleanup. */
  predicate Dropped(s: System, s': System, o: nat) {
    || s'.sh.generation > s.sh.generation
    || (o < |s'.sh.operations| && s'.sh.operations[o].result == Some(false))
    || s'.sh.removed == Some(s.sh.generation)
  }

  /** Neither slot is ever overwritten: what leaves one is claimed, completed or owed its signal;
      and no operation outside the slots gets a result. */
  ghost predicate SlotMoves(s: System, s': System, t: nat) {
    && t < |s'.threads|
    && (s.sh.pending.Some? ==>
          || s'.sh.pending == s.sh.pending
          || (s'.sh.pending.None?
              && (s'.sh.active == s.sh.pending
                  || (SignalOperation(s.sh.pending.value) in s'.threads[t].owed
                      && Dropped(s, s', s.sh.pending.value)))))
    && (s.sh.active.Some? ==>
          s'.sh.active == s.sh.active || (s'.sh.active.None? && CompletesActive(s, s', t, s.sh.active.value)))
    && (s.sh.pending.None? && s'.sh.pending.Some? ==> s'.sh.pending.value == |s.sh.operations| < |s'.sh.operations|)
    && (s.sh.active.None? && s'.sh.active.Some? ==>
          s'.sh.active == s.sh.pending || s'.sh.active.value == |s.sh.operations| < |s'.sh.operations|)
    && s'.history.claimed == (if s.sh.active.None? && s'.sh.active.Some?
                              then s.history.claimed + {s'.sh.active.value} else s.history.claimed)
    && (s.sh.active.None? && s'.sh.active.Some? ==> s'.sh.active.value !in s.history.claimed)
    && |s.sh.operations| <= |s'.sh.operations|
    && forall o :: 0 <= o < |s.sh.operations| ==>
         && s'.sh.operations[o].generation == s.sh.operations[o].generation
         && (s.sh.operations[o].done ==> s'.sh.operations[o].done)
         && (s.sh.operations[o].result.Some? ==> s'.sh.operations[o].result == s.sh.operations[o].result)
         && (s'.sh.operations[o].result != s.sh.operations[o].result ==> Some(o) in {s.sh.pending, s.sh.active})
  }

  /** The step created a lifecycle Remove; the terminal path's own Remove is never Pending. */
  predicate CreatesLifecycle(s: System, s': System) {
    |s'.sh.operations| > |s.sh.operations| && s'.sh.pending == Some(|s.sh.operations|)
  }

  /** A Remove is created only when the window that was in the slot has no registers left in flight. */
  ghost predicate CreatesIdle(s: System, s': System) {
    && |s'.sh.operations| <= |s.sh.operations| + 1
    && s'.history.created == (if CreatesLifecycle(s, s') then s.history.created + multiset{s.sh.generation}
                              else s.history.created)
    && s'.history.origin == (if CreatesLifecycle(s, s') && s.sh.coordination.Some?
                             then s.history.origin[|s.sh.operations| := s.sh.coordination.value] else s.history.origin)
    && (|s'.sh.operations| > |s.sh.operations| ==>
          && s'.sh.operations[|s.sh.operations|] == Operation(s.sh.generation, false, None, None)
          && (s.sh.coordination.Some? ==>
                s.sh.coordination.value < |s'.sh.coordinations|
                && s'.sh.coordinations[s.sh.coordination.value].inflight == 0))
  }

  /** Thread `t` is about to apply the completion of a register of window `k`. */
  predicate Leaves(s: System, t: nat, k: nat) {
    && t < |s.threads| && s.threads[t].owed == [] && s.threads[t].act.Registering?
    && s.threads[t].act.window == Some(k) && s.threads[t].act.rpc.Answered?
  }

  /** A window keeps its generation, changes by one register at a time and never comes back from zero;
      within its generation it leaves the slot only empty. */
  ghost predicate WindowMoves(s: System, s': System, t: nat) {
    && s.sh.generation <= s'.sh.generation
    && |s.sh.coordinations| <= |s'.sh.coordinations| <= |s.sh.coordinations| + 1
    && (forall k :: 0 <= k < |s.sh.coordinations| ==>
          var row, row' := s.sh.coordinations[k], s'.sh.coordinations[k];
          && row'.generation == row.generation
          && row.inflight - 1 <= row'.inflight <= row.inflight + 1
          && (row.inflight == 0 ==> row'.inflight == 0)
          && (row.cleanupRequested ==> row'.cleanupRequested && row'.inflight <= row.inflight)
          && (row'.inflight < row.inflight ==> Leaves(s, t, k)))
    && (s.sh.coordination.Some? && s'.sh.coordination != s.sh.coordination ==>
          && s.sh.coordination.value < |s'.sh.coordinations|
          && (s'.sh.generation > s.sh.generation || s'.sh.coordinations[s.sh.coordination.value].inflight == 0))
  }

  /** A prepared token leaves its slot once, and only activation by its owner commits it. */
  ghost predicate TokenMoves(s: System, s': System, t: nat) {
    var h, h' := s.history, s'.history;
    && t < |s.threads|
    && |s.sh.contexts| <= |s'.sh.contexts|
    && (s'.sh.prepared.Some? ==> s'.sh.prepared == s.sh.prepared
                                 || (s.sh.prepared.None? && s'.sh.prepared.value == |s.sh.contexts| < |s'.sh.contexts|))
    && h'.committed == (if s'.sh.worker.Some? && s'.sh.worker != s.sh.worker
                        then h.committed + {s'.sh.worker.value} else h.committed)
    && (s'.sh.worker.Some? && s'.sh.worker != s.sh.worker ==>
          && s.sh.worker.None? && s'.sh.worker == s.sh.prepared && s'.sh.prepared.None?
          && s.threads[t].act == OwnStart(s'.sh.worker.value)
          && s'.sh.worker.value !in h.committed)
    && (h'.finished == h.finished
        || (s.threads[t].act.Renewing? && s.threads[t].act.phase.Last?
            && s.threads[t].act.c !in h.finished && h'.finished == h.finished + {s.threads[t].act.c}))
  }

  /** A stopping Worker stays in the map until it leaves it itself in `_finish_worker`. */
  ghost predicate StoppingMoves(s: System, s': System, t: nat) {
    && t < |s.threads|
    && forall g :: g in s.sh.stopping ==>
         || (g in s'.sh.stopping && s'.sh.stopping[g] == s.sh.stopping[g])
         || (g !in s'.sh.stopping && s.threads[t].act == Renewing(s.sh.stopping[g], Last))
  }

  /** The snapshot changes with an accepted completion only, and each is newer than the last. */
  ghost predicate SnapshotMoves(s: System, s': System) {
    var acc, acc' := s.history.accepted, s'.history.accepted;
    || (acc' == acc && s'.sh.registered == s.sh.registered && s'.sh.lastApplied == s.sh.lastApplied)
    || (&& |acc'| == |acc| + 1 && acc' == acc + [acc'[|acc|]]
        && s'.sh.lastApplied == acc'[|acc|].n > s.sh.lastApplied
        && s'.sh.registered == Record(s.sh.registered, acc'[|acc|].source, acc'[|acc|].ok))
  }

  /** Thread `t` is about to apply a register success, newer than any completion applied, of the window
      in the slot, while the cleanup of its generation `g` is cached or requested or `g` is 0. */
  predicate Reopening(s: System, t: nat, g: nat) {
    && t < |s.threads| && s.threads[t].owed == [] && s.threads[t].act.Registering?
    && var a := s.threads[t].act;
      && a.g == g == s.sh.generation
      && a.window.Some? && a.window == s.sh.coordination && a.window.value < |s.sh.coordinations|
      && a.rpc.Answered? && a.rpc.ok && a.rpc.n > s.sh.lastApplied
      && (s.sh.removed == Some(g) || s.sh.coordinations[a.window.value].cleanupRequested || g == 0)
  }

  /** A responsibility is reopened by such a step and by no other. */
  ghost predicate Reopens(s: System, s': System, t: nat) {
    || s'.history.reopened == s.history.reopened
    || (Reopening(s, t, s.sh.generation)
        && s'.history.reopened == s.history.reopened + multiset{s.sh.generation})
  }

  /** The scheduler could not start the cleanup thread while window `k` was installed. */
  predicate FailsToStart(s: System, s': System, k: nat) {
    && s.sh.coordination == Some(k)
    && s.sh.pending.Some? && s.sh.pending.value < |s'.sh.operations|
    && s'.sh.operations[s.sh.pending.value].result == Some(false)
    && s'.sh.pending.None? && s'.sh.active.None?
  }

  ghost predicate FailureMoves(s: System, s': System, t: nat) {
    var h, h' := s.history, s'.history;
    || h'.startFailed == h.startFailed
    || (&& t < |s.threads| && s.threads[t].act.ScheduleRemove?
        && s.sh.coordination.Some? && FailsToStart(s, s', s.sh.coordination.value)
        && h'.startFailed == h.startFailed[s.sh.coordination.value := s.sh.lastApplied])
  }

  ghost predicate Evolves(s: System, s': System, t: nat) {
    && FailureMoves(s, s', t)
    && LogGrows(s, s')
    && SlotMoves(s, s', t)
    && CreatesIdle(s, s')
    && WindowMoves(s, s', t)
    && TokenMoves(s, s', t)
    && StoppingMoves(s, s', t)
    && SnapshotMoves(s, s')
    && Reopens(s, s', t)
  }

  // ---------------------------------------------------------------- steps that change little

  /** The shared state is the same but for events and the bound actor. */
  ghost predicate Still(s: System, s': System, t: nat) {
    && t < |s.threads| && t < |s'.threads|
    && (s'.history == s.history.(topKey := s'.history.topKey, removeSent :=
                                       s'.history.removeSent, sent := s'.history.sent))
    && s'.sh == s.sh.(contexts := s'.sh.contexts, operations := s'.sh.operations, coordinations := s'.sh.coordinations)
    && |s'.sh.contexts| == |s.sh.contexts|
    && |s'.sh.operations| == |s.sh.operations|
    && |s'.sh.coordinations| == |s.sh.coordinations|
    && (forall o :: 0 <= o < |s.sh.operations| ==>
          && s'.sh.operations[o].generation == s.sh.operations[o].generation
          && s'.sh.operations[o].result == s.sh.operations[o].result
          && (s.sh.operations[o].done ==> s'.sh.operations[o].done))
    && (forall k :: 0 <= k < |s.sh.coordinations| ==>
          s'.sh.coordinations[k] == s.sh.coordinations[k].(done := s'.sh.coordinations[k].done))
  }

  lemma StillEvolves(s: System, s': System, t: nat)
    requires Still(s, s', t) && LogGrows(s, s')
    ensures Evolves(s, s', t)
  {
  }

  lemma MoveEvolves(s: System, t: nat, owed: seq<Signal>, next: Action, network: Option<nat>)
    requires t < |s.threads|
    ensures Evolves(s, Move(s.(network := network), t, owed, next), t)
  {
    StillEvolves(s, Move(s.(network := network), t, owed, next), t);
  }

  lemma SignalEvolves(s: System, s': System, t: nat, x: Signal)
    requires Signals(s, s', t, x)
    ensures Evolves(s, s', t)
  {
    hide Bounded;
    StillEvolves(s, s', t);
  }

  lemma SendEvolves(s: System, t: nat, kind: Kind, act: Action, h: History)
    requires t < |s.threads|
    requires h == s.history.(topKey := h.topKey, removeSent := h.removeSent, sent := h.sent)
    ensures Evolves(s, Send(s.(history := h), t, kind, act), t)
  {
    StillEvolves(s, Send(s.(history := h), t, kind, act), t);
  }

  lemma ReceiveEvolves(s: System, t: nat, n: nat, ok: bool, act: Action)
    requires t < |s.threads| && 0 < n <= |s.log| && s.log[n - 1].status.InFlight?
    ensures Evolves(s, Receive(s, t, n, ok, act), t)
  {
    StillEvolves(s, Receive(s, t, n, ok, act), t);
  }

  lemma EndActorEvolves(s: System, t: nat, o: nat)
    requires t < |s.threads| && o < |s.sh.operations|
    ensures Evolves(s, StepEndActor(s, t, o), t)
  {
    StillEvolves(s, StepEndActor(s, t, o), t);
  }

  // ---------------------------------------------------------------- completions

  /** Applying an entry moves the log and the snapshot together. */
  lemma AppliesMoves(s: System, s': System, n: nat, ok: bool, accepted: bool, late: bool)
    requires Applies(s, s', n, ok, accepted, late)
    ensures LogGrows(s, s') && SnapshotMoves(s, s')
  {
  }

  lemma SnapshotOnlyEvolves(s: System, s': System, t: nat, n: nat, ok: bool, accepted: bool)
    requires SnapshotOnly(s, s', t) && Applies(s, s', n, ok, accepted, false)
    ensures Evolves(s, s', t)
  {
    AppliesMoves(s, s', n, ok, accepted, false);
    hide Applies;
  }

  lemma CompletedMoves(s: System, s': System, t: nat, o: nat, n: nat, ok: bool, r: Return, cancelled: Option<nat>)
    requires Completing(s, t, o, r) && Completed(s, s', t, o, ok, r, cancelled)
    requires s.threads[t] == Thread([], Removing(o, r, Answered(n, ok))) && s.sh.operations[o].result.None?
    ensures SlotMoves(s, s', t) && CreatesIdle(s, s') && s'.history.reopened == s.history.reopened
    ensures s'.history.committed == s.history.committed && s'.history.finished == s.history.finished
  {
  }

  lemma CompleteEvolves(s: System, t: nat, o: nat, n: nat, ok: bool, r: Return)
    requires AtComplete(s, t, o, n, ok, r)
    ensures Evolves(s, StepRemoveApply(s, t, o, n, ok, r), t)
  {
    var s' := StepRemoveApply(s, t, o, n, ok, r);
    CompleteApplies(s, t, o, n, ok, r);
    AppliesMoves(s, s', n, ok, n > s.sh.lastApplied, false);
    CompletedShape(s, t, o, n, ok, r);
    CompletedMoves(s, s', t, o, n, ok, r, Complete(s.sh, o, n, ok).1.cancelled);
    CompleteEffect(s.sh, o, n, ok);
    hide Applies, ApplyFrame, CountInv, WellFormed, CoordinationInv, Complete, LogGrows, SnapshotMoves, SlotMoves;
    hide CreatesIdle, Completed;
    assert s'.sh.worker == s.sh.worker;
    hide StepRemoveApply, Slots;
  }

  lemma DepartEvolves(s: System, s': System, t: nat, k: nat, g: nat, n: nat, ok: bool, out: Verdict, left: Departure)
    requires Leaving(s, t, k, g, n, ok) && Departs(s, s', t, k, g, n, ok, out, left)
    requires 0 < n <= |s.log| && s.log[n - 1] == Entry(Register(Some(k), g), t, Returned(ok))
    ensures Evolves(s, s', t)
  {
    AppliesMoves(s, s', n, ok, out.accepted, out.late);
    hide LogGrows, SnapshotMoves, Applies;
  }

  // ---------------------------------------------------------------- claims

  lemma FinishEvolves(s: System, t: nat, c: nat)
    requires FinishReady(s, t, c)
    ensures Evolves(s, StepFinish(s, t, c), t)
  {
    hide WellFormed, HistoryBounded;
  }

  lemma ClaimEvolves(s: System, t: nat, o: nat)
    requires AtClaim(s, t, o)
    ensures Evolves(s, StepClaim(s, t, o), t)
  {
    hide WellFormed, HistoryBounded;
  }

  lemma OwnedEvolves(s: System, t: nat, g: nat)
    requires AtOwned(s, t, g)
    ensures Evolves(s, StepTerminal(s, t, g), t)
  {
    TerminalSlots(s.sh, g);
    hide WellFormed;
  }

  lemma StartedEvolves(s: System, t: nat, raising: bool, r: Return)
    requires Starting(s, t, raising, r, true)
    ensures Evolves(s, StepSchedule(s, t, raising, r, true), t)
  {
    hide WellFormed, HistoryBounded, ActorAlive;
  }

  lemma FailedEvolves(s: System, t: nat, raising: bool, r: Return)
    requires Starting(s, t, raising, r, false)
    ensures Evolves(s, StepSchedule(s, t, raising, r, false), t)
  {
    StartFailedEffect(s.sh, ActorAlive(s), |s.threads|);
    hide WellFormed, HistoryBounded, ActorAlive, Schedule;
  }

  lemma ScheduleEvolves(s: System, t: nat, raising: bool, r: Return, started: bool)
    requires Inv(s) && t < |s.threads| && s.threads[t] == Thread([], ScheduleRemove(raising, r))
    ensures Evolves(s, StepSchedule(s, t, raising, r, started), t)
  {
    hide ThreadsInv, TablesInv, HistoryBounded, LogInv, SnapshotInv, OriginInv, Carried, CountInv, Slots, AtSchedule;
    hide Evolves;
    ScheduleReady(s, t, raising, r);
    if Schedule(s.sh, ActorAlive(s), |s.threads|, started).1.NothingToStart? {
      MoveEvolves(s, t, [], After(r), s.network);
      assert StepSchedule(s, t, raising, r, started) == Move(s, t, [], After(r));
    } else {
      if s.sh.pending.Some? { OperationAt(s, s.sh.pending.value); }
      StartingReady(s, t, raising, r, started);
      if started { StartedEvolves(s, t, raising, r); } else { FailedEvolves(s, t, raising, r); }
    }
  }

  // ---------------------------------------------------------------- callers

  lemma JoinedEvolves(s: System, s': System, t: nat, k: nat)
    requires JoinsWindow(s, s', t, k) && Slots(s.sh)
    requires s.sh.coordination.Some? ==> !s.sh.coordinations[s.sh.coordination.value].cleanupRequested
    ensures Evolves(s, s', t)
  {
  }

  lemma PreparesEvolves(s: System, s': System, t: nat)
    requires Prepares(s, s', t)
    ensures Evolves(s, s', t)
  {
  }

  lemma WithdrawsEvolves(s: System, s': System, t: nat, c: nat, taken: bool)
    requires Withdraws(s, s', t, c, taken)
    ensures Evolves(s, s', t)
  {
  }

  lemma ActivatesEvolves(s: System, s': System, t: nat, c: nat)
    requires AtActivate(s, c) && Activates(s, s', t, c)
    ensures Evolves(s, s', t)
  {
  }

  lemma HaltsEvolves(s: System, s': System, t: nat, next: Action)
    requires Slots(s.sh) && Halts(s, s', t, next)
    ensures Evolves(s, s', t)
  {
  }

  lemma RequestsEvolves(s: System, s': System, t: nat, next: Action)
    requires Requests(s, s', t, next)
    ensures Evolves(s, s', t)
  {
  }

  lemma StopMovesSlots(s: System, mid: System, s': System, t: nat, next: Action)
    requires Halts(s, mid, t, ShutdownRequest(s.sh.generation)) && Requests(mid, s', t, next)
    ensures SlotMoves(s, s', t) && CreatesIdle(s, s') && LogGrows(s, s')
  {
    hide SameWindows;
  }

  lemma StopMovesWindows(s: System, mid: System, s': System, t: nat, next: Action)
    requires Halts(s, mid, t, ShutdownRequest(s.sh.generation)) && Requests(mid, s', t, next)
    ensures WindowMoves(s, s', t) && SnapshotMoves(s, s') && Reopens(s, s', t) && FailureMoves(s, s', t)
  {
  }

  lemma StopEvolvesInTwo(s: System, mid: System, s': System, t: nat, next: Action)
    requires Slots(s.sh) && Halts(s, mid, t, ShutdownRequest(s.sh.generation)) && Requests(mid, s', t, next)
    ensures Evolves(s, s', t)
  {
    StopMovesSlots(s, mid, s', t, next);
    StopMovesWindows(s, mid, s', t, next);
    hide SlotMoves, CreatesIdle, LogGrows, WindowMoves, SnapshotMoves, Reopens, FailureMoves, SameWindows;
  }

  // ---------------------------------------------------------------- every step

  lemma RenewingEvolves(s: System, t: nat, c: nat, p: Phase, ok: bool)
    requires Inv(s) && t < |s.threads| && s.threads[t] == Thread([], Renewing(c, p))
    requires ActionBounded(s.sh, s.log, Renewing(c, p)) && Ready(s, Renewing(c, p))
    ensures Evolves(s, PerformRenewing(s, t, c, p, ok), t)
  {
    hide TablesInv, LogInv, OriginInv, SnapshotInv, CountInv, Carried, HistoryBounded, Slots, WellFormed;
    hide StepRenewApply, StepFinish, Current, Stopping, Evolves, ThreadsInv;
    var s' := PerformRenewing(s, t, c, p, ok);
    match p {
      case Calling(ToSend) =>
        var g := s.sh.contexts[c].generation;
        SendEvolves(s, t, Renew(c, g), Renewing(c, Calling(Sent(|s.log| + 1))), s.history.(topKey := 2 * g));
      case Calling(Sent(n)) =>
        ThreadAt(s, t);
        ReceiveEvolves(s, t, n, ok, Renewing(c, Calling(Answered(n, ok))));
      case Calling(Answered(n, answer)) =>
        RenewApplyShape(s, t, c, n, answer);
        SnapshotOnlyEvolves(s, s', t, n, answer, Current(s.sh, c) && n > s.sh.lastApplied);
      case Last =>
        FinishIsReady(s, t, c);
        FinishEvolves(s, t, c);
      case _ =>
        assert s' == Move(s.(network := s'.network), t, [], s'.threads[t].act);
        MoveEvolves(s, t, [], s'.threads[t].act, s'.network);
    }
  }

  lemma RegisteringEvolves(s: System, t: nat, k: Option<nat>, g: nat, p: Rpc, ch: Choice)
    requires Inv(s) && t < |s.threads| && s.threads[t] == Thread([], Registering(k, g, p))
    requires ActionBounded(s.sh, s.log, Registering(k, g, p))
    ensures Evolves(s, Perform(s, t, Registering(k, g, p), ch), t)
  {
    hide ThreadsInv, TablesInv, LogInv, OriginInv, SnapshotInv, CountInv, Carried, HistoryBounded, Slots, WellFormed;
    hide Evolves;
    ThreadAt(s, t);
    match p {
      case ToSend => SendEvolves(s, t, Register(k, g), Registering(k, g, Sent(|s.log| + 1)), s.history);
      case Sent(n) => ReceiveEvolves(s, t, n, ch.ok, Registering(k, g, Answered(n, ch.ok)));
      case Answered(n, ok) =>
        if k.Some? { WindowedEvolves(s, t, k.value, g, n, ok); } else { OutsideEvolves(s, t, g, n, ok); }
    }
  }

  lemma OutsideEvolves(s: System, t: nat, g: nat, n: nat, ok: bool)
    requires Inv(s) && t < |s.threads| && s.threads[t] == Thread([], Registering(None, g, Answered(n, ok)))
    requires 0 < n <= |s.log|
    ensures Evolves(s, StepRegisterApply(s, t, None, g, n, ok), t)
  {
    hide ThreadsInv, TablesInv, LogInv, OriginInv, SnapshotInv, CountInv, Carried, HistoryBounded, Slots, Evolves;
    ThreadAt(s, t);
    NetworkNotMine(s, t);
    SnapshotOnlyEvolves(s, StepRegisterApply(s, t, None, g, n, ok), t, n, ok, n > s.sh.lastApplied);
  }

  lemma WindowedEvolves(s: System, t: nat, k: nat, g: nat, n: nat, ok: bool)
    requires Inv(s) && t < |s.threads| && s.threads[t] == Thread([], Registering(Some(k), g, Answered(n, ok)))
    requires k < |s.sh.coordinations| && 0 < n <= |s.log|
    ensures Evolves(s, StepRegisterApply(s, t, Some(k), g, n, ok), t)
  {
    hide ThreadsInv, TablesInv, LogInv, OriginInv, SnapshotInv, CountInv, Carried, HistoryBounded, Slots, Evolves;
    hide CommitRegister, StepRegisterApply, InWindow, CoordinationInv, WellFormed;
    LeaveReady(s, t, k, g, n, ok);
    LeaveIsLeaving(s, t, k, g, n, ok);
    DepartShape(s, t, k, g, n, ok);
    var (_, out, left) := CommitRegister(s.sh, n, ok, g, Some(k));
    hide Departs, Leaving;
    DepartEvolves(s, StepRegisterApply(s, t, Some(k), g, n, ok), t, k, g, n, ok, out, left);
  }

  lemma RemovingEvolves(s: System, t: nat, o: nat, r: Return, p: Rpc, ch: Choice)
    requires Inv(s) && t < |s.threads| && s.threads[t] == Thread([], Removing(o, r, p))
    requires ActionBounded(s.sh, s.log, Removing(o, r, p))
    ensures Evolves(s, Perform(s, t, Removing(o, r, p), ch), t)
  {
    hide ThreadsInv, TablesInv, LogInv, OriginInv, SnapshotInv, CountInv, Carried, HistoryBounded, Slots, WellFormed;
    hide Evolves, StepRemoveApply;
    ThreadAt(s, t);
    match p {
      case ToSend =>
        var g := s.sh.operations[o].generation;
        var h := s.history;
        var n := |s.log| + 1;
        SendEvolves(s, t, RemoveOf(o, g), Removing(o, r, Sent(n)),
                    h.(sent := h.sent[o := n], topKey := 2 * g + 1,
                       removeSent := if g == s.sh.generation then n else h.removeSent));
      case Sent(n) => ReceiveEvolves(s, t, n, ch.ok, Removing(o, r, Answered(n, ch.ok)));
      case Answered(n, ok) =>
        CompleteReady(s, t, o, n, ok, r);
        CompleteEvolves(s, t, o, n, ok, r);
    }
  }

  lemma OneShotEvolves(s: System, t: nat, p: Rpc, ch: Choice)
    requires Inv(s) && t < |s.threads| && s.threads[t] == Thread([], OneShotRemoving(p))
    requires ActionBounded(s.sh, s.log, OneShotRemoving(p))
    ensures Evolves(s, Perform(s, t, OneShotRemoving(p), ch), t)
  {
    hide ThreadsInv, TablesInv, LogInv, OriginInv, SnapshotInv, CountInv, Carried, HistoryBounded, Slots, WellFormed;
    hide Evolves, StepOneShotApply;
    ThreadAt(s, t);
    match p {
      case ToSend => SendEvolves(s, t, OneShotRemove, OneShotRemoving(Sent(|s.log| + 1)), s.history);
      case Sent(n) => ReceiveEvolves(s, t, n, ch.ok, OneShotRemoving(Answered(n, ch.ok)));
      case Answered(n, ok) =>
        NetworkNotMine(s, t);
        OneShotApplied(s, t, n, ok);
    }
  }

  lemma OneShotApplied(s: System, t: nat, n: nat, ok: bool)
    requires t < |s.threads| && s.threads[t] == Thread([], OneShotRemoving(Answered(n, ok))) && s.network != Some(t)
    requires 0 < n <= |s.log| && s.log[n - 1] == Entry(OneShotRemove, t, Returned(ok))
    ensures Evolves(s, StepOneShotApply(s, t, n, ok), t)
  {
    hide Evolves;
    SnapshotOnlyEvolves(s, StepOneShotApply(s, t, n, ok), t, n, ok, n > s.sh.lastApplied);
  }

  lemma JoinEvolves(s: System, t: nat)
    requires Inv(s) && t < |s.threads| && s.threads[t] == Thread([], JoinWindow)
    ensures Evolves(s, StepJoin(s, t), t)
  {
    hide ThreadsInv, TablesInv, LogInv, OriginInv, SnapshotInv, CountInv, Carried, HistoryBounded, Evolves;
    JoinedShape(s, t);
    var out := Join(s.sh).1;
    if out.coordination.Some? {
      JoinedEvolves(s, StepJoin(s, t), t, out.coordination.value);
    } else {
      MoveEvolves(s, t, [], Registering(None, s.sh.generation, ToSend), s.network);
    }
  }

  lemma PrepareEvolves(s: System, t: nat, started: bool)
    requires Inv(s) && t < |s.threads| && s.threads[t] == Thread([], PrepareStart)
    ensures Evolves(s, StepPrepare(s, t, started), t)
  {
    hide ThreadsInv, TablesInv, LogInv, OriginInv, SnapshotInv, CountInv, Carried, HistoryBounded, Evolves;
    NetworkNotMine(s, t);
    PrepareSlots(s.sh, |s.threads|, started);
    if Prepare(s.sh, |s.threads|, started).1.None? {
      MoveEvolves(s, t, [], Idle, s.network);
    } else {
      PreparesEvolves(s, StepPrepare(s, t, started), t);
    }
  }

  lemma OwnerEvolves(s: System, t: nat, c: nat, way: Way)
    requires Inv(s) && t < |s.threads| && s.threads[t] == Thread([], OwnStart(c)) && c < |s.sh.contexts|
    ensures Evolves(s, StepOwn(s, t, c, way), t)
  {
    hide ThreadsInv, TablesInv, LogInv, OriginInv, SnapshotInv, CountInv, Carried, HistoryBounded, Evolves, WellFormed;
    NetworkNotMine(s, t);
    if way.SettleIt? {
      SettleEvolves(s, t, c);
    } else if s.sh.prepared != Some(c) {
      MoveEvolves(s, t, [], if way.Proceed? then AfterActivation(c) else Idle, s.network);
    } else if way.Withdraw? {
      WithdrawsEvolves(s, StepCancel(s, t, c), t, c, true);
    } else {
      ActivatesShape(s, t, c);
      hide StepActivate, Activates, AtActivate, Slots;
      ActivatesEvolves(s, StepActivate(s, t, c), t, c);
    }
  }

  lemma SettleEvolves(s: System, t: nat, c: nat)
    requires Inv(s) && t < |s.threads| && c < |s.sh.contexts|
    requires s.threads[t] == Thread([], OwnStart(c)) || s.threads[t] == Thread([], AfterActivation(c))
    ensures Evolves(s, StepSettle(s, t, c), t)
  {
    hide ThreadsInv, TablesInv, LogInv, OriginInv, SnapshotInv, CountInv, Carried, HistoryBounded, Evolves, WellFormed;
    NetworkNotMine(s, t);
    SettleShape(s, t, c);
    hide StepSettle, Withdraws, Slots;
    match Settle(s.sh, c).1
    case CancelUncommitted => WithdrawsEvolves(s, StepSettle(s, t, c), t, c, true);
    case WakeCommitted => WithdrawsEvolves(s, StepSettle(s, t, c), t, c, false);
    case Untouched => MoveEvolves(s, t, [], Idle, s.network);
  }

  /** `stop` up to its request for a Remove. */
  function Halted(s: System, t: nat, next: Action): System
    requires Bounded(s.sh) && t < |s.threads|
  {
    Move(s.(sh := StopLocal(s.sh.(prepared := None)), history := OweGate(s.history, s.sh.prepared, t)),
         t, GateSignals(s.sh.prepared), next)
  }

  lemma HaltedShape(s: System, t: nat, next: Action)
    requires Slots(s.sh) && t < |s.threads| && s.threads[t].owed == [] && s.threads[t].act.StopCall?
    requires s.network != Some(t) && (next == Idle || next == ShutdownRequest(s.sh.generation))
    ensures Halts(s, Halted(s, t, next), t, next) && Slots(Halted(s, t, next).sh)
    ensures Halted(s, t, next).sh.worker.None? && Halted(s, t, next).sh.generation == s.sh.generation
  {
    StopLocalSlots(s.sh);
    hide Slots;
  }

  lemma StopEvolves(s: System, t: nat, remove: bool)
    requires Inv(s) && t < |s.threads| && s.threads[t] == Thread([], StopCall(remove))
    ensures Evolves(s, StepStop(s, t, remove), t)
  {
    NetworkNotMine(s, t);
    hide ThreadsInv, TablesInv, LogInv, OriginInv, SnapshotInv, CountInv, Carried, HistoryBounded, RequestRemove;
    hide Slots, Evolves, Halts, StopLocal, WellFormed;
    if remove {
      StopWithRemoveEvolves(s, t);
    } else {
      HaltedShape(s, t, Idle);
      assert StepStop(s, t, false) == Halted(s, t, Idle);
      HaltsEvolves(s, Halted(s, t, Idle), t, Idle);
    }
  }

  lemma StopWithRemoveEvolves(s: System, t: nat)
    requires Slots(s.sh) && Bounded(s.sh) && t < |s.threads| && s.threads[t] == Thread([], StopCall(true))
    requires s.network != Some(t)
    ensures Evolves(s, StepStop(s, t, true), t)
  {
    hide Slots, Evolves, Halts, StopLocal, RequestRemove, Requests, NoteCreated;
    var halted := Halted(s, t, ShutdownRequest(s.sh.generation));
    HaltedShape(s, t, ShutdownRequest(s.sh.generation));
    RequestsShape(halted, t);
    StopInTwo(s, t, halted);
    var next := if RequestRemove(halted.sh).1.Some? then ScheduleRemove(true, End) else Idle;
    StopEvolvesInTwo(s, halted, StepStop(s, t, true), t, next);
  }

  lemma ShutdownEvolves(s: System, t: nat, deregister: bool)
    requires Inv(s) && t < |s.threads| && s.threads[t] == Thread([], ShutdownCall(deregister))
    ensures Evolves(s, StepShutdown(s, t, deregister), t)
  {
    NetworkNotMine(s, t);
    hide ThreadsInv, TablesInv, LogInv, OriginInv, SnapshotInv, CountInv, Carried, HistoryBounded;
    ShutdownSlots(s.sh, deregister);
    var s' := StepShutdown(s, t, deregister);
    hide Slots, Shutdown, SameWindows, Evolves;
    HaltsEvolves(s, s', t, s'.threads[t].act);
  }

  lemma ShutdownRequestEvolves(s: System, t: nat, g: nat, valid: bool)
    requires Inv(s) && t < |s.threads| && s.threads[t] == Thread([], ShutdownRequest(g))
    ensures Evolves(s, if valid then StepShutdownRequest(s, t, g) else Move(s, t, [], Idle), t)
  {
    hide ThreadsInv, TablesInv, LogInv, OriginInv, SnapshotInv, CountInv, Carried, HistoryBounded, Slots, RequestRemove;
    hide Evolves;
    ThreadAt(s, t);
    NetworkNotMine(s, t);
    if valid && g == s.sh.generation {
      RequestsShape(s, t);
      var (sh', operation) := RequestRemove(s.sh);
      RequestsEvolves(s, StepShutdownRequest(s, t, g), t, if operation.Some? then ScheduleRemove(true, End) else Idle);
    } else {
      assert s.(sh := s.sh, history := NoteCreated(s.history, s.sh, s.sh)) == s;
      MoveEvolves(s, t, [], Idle, s.network);
    }
  }

  /** The actions of `PerformCall`. */
  predicate Calls(a: Action) {
    || Observes(a) || a.PrepareStart? || a.OwnStart? || a.AfterActivation?
    || a.StopCall? || a.ShutdownCall? || a.ShutdownRequest?
  }

  lemma StartingEvolves(s: System, t: nat, a: Action, ch: Choice)
    requires Inv(s) && t < |s.threads| && s.threads[t] == Thread([], a)
    requires ActionBounded(s.sh, s.log, a) && (a.PrepareStart? || a.OwnStart? || a.AfterActivation?)
    ensures Evolves(s, PerformCall(s, t, a, ch), t)
  {
    assert Bounded(s.sh);
    hide ThreadsInv, TablesInv, LogInv, OriginInv, SnapshotInv, CountInv, Carried, HistoryBounded, Slots, WellFormed;
    hide StepPrepare, StepActivate, StepCancel, StepSettle, Evolves, StepOwn, Bounded;
    match a {
      case PrepareStart => PrepareEvolves(s, t, ch.started);
      case OwnStart(c) => OwnerEvolves(s, t, c, ch.way);
      case AfterActivation(c) => AfterEvolves(s, t, c, ch);
    }
  }

  lemma AfterEvolves(s: System, t: nat, c: nat, ch: Choice)
    requires Inv(s) && t < |s.threads| && s.threads[t] == Thread([], AfterActivation(c)) && c < |s.sh.contexts|
    ensures Evolves(s, PerformCall(s, t, AfterActivation(c), ch), t)
  {
    hide ThreadsInv, TablesInv, LogInv, OriginInv, SnapshotInv, CountInv, Carried, HistoryBounded, Slots, WellFormed;
    hide StepSettle, Evolves;
    SettleEvolves(s, t, c);
    MoveEvolves(s, t, [], Idle, s.network);
    assert s.(network := s.network) == s;
  }

  lemma StoppingEvolves(s: System, t: nat, a: Action, ch: Choice)
    requires Inv(s) && t < |s.threads| && s.threads[t] == Thread([], a) && ActionBounded(s.sh, s.log, a)
    requires WellFormed(s) && Bounded(s.sh) && (a.StopCall? || a.ShutdownCall? || a.ShutdownRequest?)
    ensures Evolves(s, PerformCall(s, t, a, ch), t)
  {
    hide Inv, WellFormed, Evolves, Bounded, StepStop, StepShutdown, StepShutdownRequest;
    hide StepTerminal, StepObserve, StepPrepare, StepOwn, StepSettle;
    if a.StopCall? {
      StopEvolves(s, t, a.remove);
    } else if a.ShutdownCall? {
      ShutdownEvolves(s, t, a.deregister);
    } else {
      ShutdownRequestEvolves(s, t, a.g, ch.ok);
    }
  }

  lemma CallEvolves(s: System, t: nat, a: Action, ch: Choice)
    requires Inv(s) && t < |s.threads| && s.threads[t] == Thread([], a)
    requires ActionBounded(s.sh, s.log, a) && Ready(s, a) && Calls(a)
    ensures Evolves(s, PerformCall(s, t, a, ch), t)
  {
    assert WellFormed(s) && Bounded(s.sh);
    hide Inv, WellFormed, Evolves, StepTerminal, Bounded;
    if a.TerminalTurn? {
      TerminalEvolves(s, t, a.g);
    } else if Observes(a) {
      hide PerformCall;
      ObserverEvolves(s, t, a, ch);
    } else if a.StopCall? || a.ShutdownCall? || a.ShutdownRequest? {
      hide PerformCall;
      StoppingEvolves(s, t, a, ch);
    } else {
      hide PerformCall;
      StartingEvolves(s, t, a, ch);
    }
  }

  lemma ObserverEvolves(s: System, t: nat, a: Action, ch: Choice)
    requires WellFormed(s) && t < |s.threads| && s.threads[t] == Thread([], a)
    requires ActionBounded(s.sh, s.log, a) && Ready(s, a) && Observes(a) && !a.TerminalTurn?
    ensures Evolves(s, PerformCall(s, t, a, ch), t)
  {
    hide WellFormed, Evolves;
    MoveEvolves(s, t, [], PerformCall(s, t, a, ch).threads[t].act, s.network);
  }

  lemma TerminalEvolves(s: System, t: nat, g: nat)
    requires Inv(s) && t < |s.threads| && s.threads[t] == Thread([], TerminalTurn(g))
    ensures Evolves(s, StepTerminal(s, t, g), t)
  {
    hide ThreadsInv, TablesInv, OriginInv, SnapshotInv, CountInv, Carried, HistoryBounded, EntryInv, Evolves;
    NetworkNotMine(s, t);
    if Terminal(s.sh, g).1.Owned? {
      OwnedEvolves(s, t, g);
    } else {
      MoveEvolves(s, t, [], StepTerminal(s, t, g).threads[t].act, s.network);
    }
  }

  lemma PerformEvolves(s: System, t: nat, a: Action, ch: Choice)
    requires Inv(s) && t < |s.threads| && s.threads[t] == Thread([], a)
    requires ActionBounded(s.sh, s.log, a) && Ready(s, a)
    ensures Evolves(s, Perform(s, t, a, ch), t)
  {
    hide ThreadsInv, TablesInv, LogInv, OriginInv, SnapshotInv, CountInv, Carried, HistoryBounded, Slots, WellFormed;
    hide PerformCall, PerformRenewing, StepSchedule, StepClaim, StepEndActor, StepJoin, StepOneShotApply, Evolves;
    match a {
      case Renewing(c, p) => RenewingEvolves(s, t, c, p, ch.ok);
      case Removing(o, r, p) => RemovingEvolves(s, t, o, r, p, ch);
      case ScheduleRemove(raising, r) => ScheduleEvolves(s, t, raising, r, ch.started);
      case ClaimPending(o) =>
        ClaimReady(s, t, o);
        ClaimEvolves(s, t, o);
      case EndActor(o) => EndActorEvolves(s, t, o);
      case JoinWindow => JoinEvolves(s, t);
      case Registering(k, g, p) => RegisteringEvolves(s, t, k, g, p, ch);
      case OneShotRemoving(p) => OneShotEvolves(s, t, p, ch);
      case _ => CallEvolves(s, t, a, ch);
    }
  }

  /** Every turn of every thread is such a step. */
  lemma TurnEvolves(s: System, t: nat, ch: Choice)
    requires Inv(s) && Enabled(s, t)
    ensures Evolves(s, Next(s, t, ch), t)
  {
    ThreadAt(s, t);
    hide ThreadsInv, TablesInv, LogInv, OriginInv, SnapshotInv, CountInv, Carried, HistoryBounded, Slots;
    hide Perform, SendSignal, ThreadInv, Evolves;
    var th := s.threads[t];
    if th.owed != [] {
      SignalFacts(s, t);
      SignalShape(s, t);
      hide Signals;
      SignalEvolves(s, SendSignal(s, t), t, th.owed[0]);
    } else {
      assert th == Thread([], th.act);
      PerformEvolves(s, t, th.act, ch);
      hide Inv, WellFormed, AnswerOf;
      NotedEvolves(s, Perform(s, t, th.act, ch), t, AnswerOf(s, th.act, ch));
    }
  }

  lemma NotedEvolves(s: System, s': System, t: nat, answer: Option<Answer>)
    requires Evolves(s, s', t)
    ensures Evolves(s, WithAnswer(s', t, answer), t)
  {
  }
}
