/** The steps of Remove operations: claiming, sending, scheduling and completing them. */
module RegistryRemoveSteps {
  import opened Options
  import opened RegistryState
  import opened RegistrySystem
  import opened RegistryInvariant
  import opened RegistrySections
  import opened RegistrySteps
  import opened RegistryCompletionSteps

  // ---------------------------------------------------------------- sending

  ghost predicate SendReady(s: System, t: nat, o: nat, r: Return) {
    && WellFormed(s) && Slots(s.sh) && HistoryBounded(s)
    && t < |s.threads| && s.threads[t] == Thread([], Removing(o, r, ToSend))
    && o < |s.sh.operations| && ReturnBounded(s.sh, r)
    && RemoveInv(s, t, o, r)
    && o in s.history.claimed && o !in s.history.sent
    && s.network.None?
    && s.sh.lastApplied <= |s.log|
    && s.history.removeSent <= |s.log|
    && s.history.topKey <= 2 * s.sh.operations[o].generation + 1
  }

  lemma SendIsReady(s: System, t: nat, o: nat, r: Return)
    requires Inv(s) && t < |s.threads| && s.threads[t] == Thread([], Removing(o, r, ToSend)) && s.network.None?
    ensures SendReady(s, t, o, r)
  {
    hide ThreadsInv, TablesInv, OriginInv, SnapshotInv, CountInv, Carried;
    ThreadAt(s, t);
    OperationAt(s, o);
  }

  lemma SendWellFormed(s: System, t: nat, o: nat, r: Return)
    requires SendReady(s, t, o, r)
    ensures WellFormed(StepRemoveSend(s, t, o, r)) && HistoryBounded(StepRemoveSend(s, t, o, r))
  {
    hide Slots;
    GrownWellFormed(s, StepRemoveSend(s, t, o, r), t);
  }

  lemma SendThread(s: System, t: nat, o: nat, r: Return)
    requires SendReady(s, t, o, r) && WellFormed(StepRemoveSend(s, t, o, r))
    ensures Guarantee(s, StepRemoveSend(s, t, o, r), t) && OwnThread(s, StepRemoveSend(s, t, o, r), t)
  {
    hide HistoryBounded;
    var s' := StepRemoveSend(s, t, o, r);
    assert RelyContexts(s, s', t);
    assert RelyOperations(s, s', t);
    assert RelyRest(s, s', t);
  }

  lemma SendOperation(s: System, t: nat, o: nat, r: Return, p: nat)
    requires SendReady(s, t, o, r) && p < |s.sh.operations| && OperationInv(s, p)
    ensures OperationInv(StepRemoveSend(s, t, o, r), p)
  {
    hide Slots, HistoryBounded;
  }

  lemma SendTables(s: System, t: nat, o: nat, r: Return)
    requires SendReady(s, t, o, r) && TablesInv(s) && Carried(s)
    ensures TablesInv(StepRemoveSend(s, t, o, r)) && Carried(StepRemoveSend(s, t, o, r))
  {
    if s.sh.coordination.Some? { assert CoordinationInv(s, s.sh.coordination.value); }
    hide ContextInv, OperationInv, CoordinationInv, HistoryBounded;
    var s' := StepRemoveSend(s, t, o, r);
    ContextsKeep(s, s', t);
    CoordinationsKeep(s, s', t);
    forall p | 0 <= p < |s.sh.operations| ensures OperationInv(s', p) { SendOperation(s, t, o, r, p); }
    CarriedKeeps(s, s', t);
  }

  lemma SendLog(s: System, t: nat, o: nat, r: Return)
    requires SendReady(s, t, o, r) && LogInv(s)
    ensures LogInv(StepRemoveSend(s, t, o, r))
  {
    var s' := StepRemoveSend(s, t, o, r);
    forall i | 0 <= i < |s'.log| ensures EntryInv(s', i) {
      if i < |s.log| { assert EntryInv(s, i); }
    }
    forall i, j | 0 <= i < j < |s'.log| && Key(s'.log[i].kind).Some? && Key(s'.log[j].kind).Some?
      ensures Key(s'.log[i].kind).value <= Key(s'.log[j].kind).value
    {
      assert EntryInv(s, i);
    }
  }

  lemma SendOrigin(s: System, t: nat, o: nat, r: Return)
    requires SendReady(s, t, o, r) && OriginInv(s) && SnapshotInv(s)
    ensures OriginInv(StepRemoveSend(s, t, o, r)) && SnapshotInv(StepRemoveSend(s, t, o, r))
  {
    hide Slots, HistoryBounded, WellFormed;
  }

  /** A Remove is sent after every RPC of its generation and of older ones that is in the log. */
  lemma RemoveSendKeeps(s: System, t: nat, o: nat, r: Return)
    requires Inv(s) && t < |s.threads| && s.threads[t] == Thread([], Removing(o, r, ToSend)) && s.network.None?
    ensures o < |s.sh.operations| && Inv(StepRemoveSend(s, t, o, r))
  {
    SendIsReady(s, t, o, r);
    assert CountInv(StepRemoveSend(s, t, o, r)) && Slots(StepRemoveSend(s, t, o, r).sh);
    hide StepRemoveSend, SendReady, WellFormed, ContextInv, OperationInv, CoordinationInv, LogInv, OriginInv;
    hide SnapshotInv, CountInv, Carried, Guarantee, OwnThread, ThreadsInv, HistoryBounded, Slots;
    SendWellFormed(s, t, o, r);
    SendThread(s, t, o, r);
    SendTables(s, t, o, r);
    SendLog(s, t, o, r);
    SendOrigin(s, t, o, r);
    Assemble(s, StepRemoveSend(s, t, o, r), t);
  }

  // ---------------------------------------------------------------- claiming

  ghost predicate AtClaim(s: System, t: nat, o: nat) {
    && WellFormed(s) && Slots(s.sh) && HistoryBounded(s)
    && t < |s.threads| && s.threads[t] == Thread([], ClaimPending(o)) && o < |s.sh.operations|
    && s.sh.operations[o].thread == Some(t)
    && s.network != Some(t)
    && (s.sh.pending == Some(o) ==> o !in s.history.claimed && o !in s.history.sent)
    && s.history.topKey <= 2 * s.sh.generation + 1
  }

  lemma ClaimReady(s: System, t: nat, o: nat)
    requires Inv(s) && t < |s.threads| && s.threads[t] == Thread([], ClaimPending(o))
    ensures AtClaim(s, t, o)
  {
    hide ThreadsInv, TablesInv, OriginInv, SnapshotInv, CountInv, Carried, EntryInv;
    ThreadAt(s, t);
    OperationAt(s, o);
    NetworkNotMine(s, t);
  }

  lemma NetworkNotMine(s: System, t: nat)
    requires Inv(s) && t < |s.threads| && !HoldsNetwork(s.threads[t].act)
    ensures s.network != Some(t)
  {
    hide ThreadInv, TablesInv, LogInv, OriginInv, SnapshotInv, CountInv, Carried, HistoryBounded, Slots;
  }

  lemma ClaimFrame(s: System, t: nat, o: nat)
    requires AtClaim(s, t, o)
    ensures OperationStep(s, StepClaim(s, t, o), t) && RelyOperations(s, StepClaim(s, t, o), t)
    ensures HistoryBounded(StepClaim(s, t, o))
  {
  }

  lemma ClaimThread(s: System, t: nat, o: nat)
    requires AtClaim(s, t, o)
    ensures WellFormed(StepClaim(s, t, o)) && OwnThread(s, StepClaim(s, t, o), t)
  {
    hide HistoryBounded;
    GrownWellFormed(s, StepClaim(s, t, o), t);
  }

  lemma ClaimOperation(s: System, t: nat, o: nat, p: nat)
    requires AtClaim(s, t, o) && p < |s.sh.operations| && OperationInv(s, p)
    ensures OperationInv(StepClaim(s, t, o), p)
  {
    hide HistoryBounded;
  }

  lemma ClaimRest(s: System, t: nat, o: nat)
    requires AtClaim(s, t, o) && OriginInv(s) && CountInv(s) && Carried(s)
    ensures OriginInv(StepClaim(s, t, o)) && CountInv(StepClaim(s, t, o)) && Carried(StepClaim(s, t, o))
  {
    hide HistoryBounded, Slots;
    OriginKeeps(s, StepClaim(s, t, o));
    CarriedKeeps(s, StepClaim(s, t, o), t);
  }

  lemma ClaimKeeps(s: System, t: nat, o: nat)
    requires Inv(s) && t < |s.threads| && s.threads[t] == Thread([], ClaimPending(o))
    ensures Inv(StepClaim(s, t, o))
  {
    ClaimReady(s, t, o);
    var s' := StepClaim(s, t, o);
    ClaimSlots(s.sh, o);
    assert Slots(s'.sh);
    hide StepClaim, AtClaim, WellFormed, OperationInv, LogInv, OriginInv,
      SnapshotInv, CountInv, Carried, HistoryBounded;
    hide Slots, ThreadsInv, OperationStep, RelyOperations, OwnThread, TablesInv;
    ClaimFrame(s, t, o);
    ClaimThread(s, t, o);
    ClaimRest(s, t, o);
    assert |s'.sh.operations| == |s.sh.operations| by { ClaimSameCount(s, t, o); }
    forall p | 0 <= p < |s'.sh.operations| ensures OperationInv(s', p) {
      OperationAt(s, p);
      ClaimOperation(s, t, o, p);
    }
    OperationStepKeeps(s, s', t);
  }

  lemma ClaimSameCount(s: System, t: nat, o: nat)
    requires t < |s.threads|
    ensures |StepClaim(s, t, o).sh.operations| == |s.sh.operations|
  {
  }

  // ---------------------------------------------------------------- the end of an actor

  ghost predicate AtEnd(s: System, t: nat, o: nat) {
    && WellFormed(s) && Slots(s.sh) && HistoryBounded(s)
    && t < |s.threads| && s.threads[t] == Thread([], EndActor(o)) && o < |s.sh.operations|
    && s.sh.operations[o].thread == Some(t)
    && s.network != Some(t)
  }

  lemma EndFrame(s: System, t: nat, o: nat)
    requires AtEnd(s, t, o)
    ensures OperationStep(s, StepEndActor(s, t, o), t) && RelyOperations(s, StepEndActor(s, t, o), t)
    ensures HistoryBounded(StepEndActor(s, t, o))
  {
  }

  lemma EndThread(s: System, t: nat, o: nat)
    requires AtEnd(s, t, o)
    ensures WellFormed(StepEndActor(s, t, o)) && OwnThread(s, StepEndActor(s, t, o), t)
  {
    hide HistoryBounded;
    GrownWellFormed(s, StepEndActor(s, t, o), t);
  }

  lemma EndOperation(s: System, t: nat, o: nat, p: nat)
    requires AtEnd(s, t, o) && p < |s.sh.operations| && OperationInv(s, p)
    ensures OperationInv(StepEndActor(s, t, o), p)
  {
    hide HistoryBounded, Slots;
  }

  lemma EndActorKeeps(s: System, t: nat, o: nat)
    requires Inv(s) && t < |s.threads| && s.threads[t] == Thread([], EndActor(o)) && o < |s.sh.operations|
    ensures Inv(StepEndActor(s, t, o))
  {
    var s' := StepEndActor(s, t, o);
    hide ThreadsInv, OperationInv, LogInv, SnapshotInv, TablesInv, HistoryBounded, WellFormed;
    ThreadAt(s, t);
    NetworkNotMine(s, t);
    assert AtEnd(s, t, o);
    OriginKeeps(s, s');
    CarriedKeeps(s, s', t);
    ActorEndSlots(s.sh, o, t);
    hide AtEnd, OriginInv, Carried, Slots, OperationStep, RelyOperations, OwnThread;
    EndFrame(s, t, o);
    EndThread(s, t, o);
    forall p | 0 <= p < |s'.sh.operations| ensures OperationInv(s', p) {
      OperationAt(s, p);
      EndOperation(s, t, o, p);
    }
    OperationStepKeeps(s, s', t);
  }

  // ---------------------------------------------------------------- the terminal path takes the Active slot

  ghost predicate AtOwned(s: System, t: nat, g: nat) {
    && WellFormed(s) && Slots(s.sh) && HistoryBounded(s)
    && t < |s.threads| && s.threads[t] == Thread([], TerminalTurn(g))
    && Terminal(s.sh, g).1.Owned?
    && s.network != Some(t)
    && s.history.topKey <= 2 * s.sh.generation + 1
  }

  lemma OwnedFrame(s: System, t: nat, g: nat)
    requires AtOwned(s, t, g)
    ensures OperationStep(s, StepTerminal(s, t, g), t) && RelyOperations(s, StepTerminal(s, t, g), t)
    ensures HistoryBounded(StepTerminal(s, t, g))
  {
    TerminalSlots(s.sh, g);
  }

  lemma OwnedThread(s: System, t: nat, g: nat)
    requires AtOwned(s, t, g)
    ensures WellFormed(StepTerminal(s, t, g)) && OwnThread(s, StepTerminal(s, t, g), t)
  {
    GrownWellFormed(s, StepTerminal(s, t, g), t);
  }

  lemma OwnedOperation(s: System, t: nat, g: nat, p: nat)
    requires AtOwned(s, t, g) && p < |StepTerminal(s, t, g).sh.operations|
    requires p < |s.sh.operations| ==> OperationInv(s, p)
    ensures OperationInv(StepTerminal(s, t, g), p)
  {
  }

  lemma OwnedKeeps(s: System, t: nat, g: nat)
    requires Inv(s) && t < |s.threads| && s.threads[t] == Thread([], TerminalTurn(g)) && Terminal(s.sh, g).1.Owned?
    ensures Inv(StepTerminal(s, t, g))
  {
    var s' := StepTerminal(s, t, g);
    hide ThreadsInv, OperationInv, EntryInv, SnapshotInv, TablesInv, HistoryBounded, WellFormed;
    NetworkNotMine(s, t);
    assert AtOwned(s, t, g);
    OriginKeeps(s, s');
    TerminalSlots(s.sh, g);
    CarriedKeeps(s, s', t);
    hide AtOwned, OriginInv, Carried, Slots, OperationStep, RelyOperations, OwnThread, StepTerminal, LogInv;
    OwnedFrame(s, t, g);
    OwnedThread(s, t, g);
    forall p | 0 <= p < |s'.sh.operations| ensures OperationInv(s', p) {
      if p < |s.sh.operations| { OperationAt(s, p); }
      OwnedOperation(s, t, g, p);
    }
    OperationStepKeeps(s, s', t);
  }

  // ---------------------------------------------------------------- scheduling

  ghost predicate AtSchedule(s: System, t: nat, raising: bool, r: Return) {
    && WellFormed(s) && Slots(s.sh) && HistoryBounded(s)
    && t < |s.threads| && s.threads[t] == Thread([], ScheduleRemove(raising, r))
    && ReturnBounded(s.sh, r) && ReturnInv(s, t, raising, r)
    && s.network != Some(t)
  }

  lemma ScheduleReady(s: System, t: nat, raising: bool, r: Return)
    requires Inv(s) && t < |s.threads| && s.threads[t] == Thread([], ScheduleRemove(raising, r))
    ensures AtSchedule(s, t, raising, r)
  {
    hide TablesInv, LogInv, OriginInv, SnapshotInv, CountInv, Carried, HistoryBounded, Slots;
    ThreadAt(s, t);
    NetworkNotMine(s, t);
  }

  /** After the scheduler has run, its caller has what it needs to go on. */
  lemma AfterSchedule(s: System, t: nat, raising: bool, r: Return)
    requires AtSchedule(s, t, raising, r)
    ensures ActionBounded(s.sh, s.log, After(r)) && ActionInv(s, t, After(r)) && !HoldsNetwork(After(r))
    ensures r.BackToActor? ==> OwesSchedule(After(r))
  {
  }

  /** The scheduler starts nothing only when a stopping Worker or a live actor carries the Pending
      Remove, or when there is nothing to carry. */
  lemma NothingCarried(s: System, t: nat, raising: bool, r: Return)
    requires AtSchedule(s, t, raising, r) && Schedule(s.sh, ActorAlive(s), |s.threads|, true).1.NothingToStart?
    requires s.sh.pending.Some? ==> OperationInv(s, s.sh.pending.value)
    ensures Carried(Move(s, t, [], After(r)))
  {
    hide HistoryBounded;
    var s' := Move(s, t, [], After(r));
    if s.sh.pending.Some? && s.sh.active.None? && s.sh.generation !in s.sh.stopping {
      var a := s.sh.operations[s.sh.pending.value].thread.value;
      assert OwesSchedule(s'.threads[a].act);
    }
  }

  lemma NothingKeeps(s: System, t: nat, raising: bool, r: Return)
    requires Inv(s) && AtSchedule(s, t, raising, r)
    requires Schedule(s.sh, ActorAlive(s), |s.threads|, true).1.NothingToStart?
    ensures Inv(Move(s, t, [], After(r)))
  {
    hide ActionInv, OperationInv, TablesInv, ThreadsInv, LogInv, SnapshotInv, OriginInv, CountInv, Carried, Slots;
    hide HistoryBounded;
    if s.sh.pending.Some? { OperationAt(s, s.sh.pending.value); }
    AfterSchedule(s, t, raising, r);
    NothingCarried(s, t, raising, r);
    QuietKeeps(s, Move(s, t, [], After(r)), t);
  }

  ghost predicate Starting(s: System, t: nat, raising: bool, r: Return, started: bool) {
    && AtSchedule(s, t, raising, r)
    && !Schedule(s.sh, ActorAlive(s), |s.threads|, started).1.NothingToStart?
    && (s.sh.pending.Some? ==>
          && s.sh.pending.value !in s.history.claimed
          && s.sh.operations[s.sh.pending.value].thread.None?)
  }

  /** A bound actor is always alive, so the branch that replaces a dead one is never taken. */
  lemma StartingReady(s: System, t: nat, raising: bool, r: Return, started: bool)
    requires AtSchedule(s, t, raising, r)
    requires !Schedule(s.sh, ActorAlive(s), |s.threads|, started).1.NothingToStart?
    requires s.sh.pending.Some? ==> OperationInv(s, s.sh.pending.value)
    ensures Starting(s, t, raising, r, started)
  {
  }

  lemma StartedFrame(s: System, t: nat, raising: bool, r: Return)
    requires Starting(s, t, raising, r, true)
    ensures OperationStep(s, StepSchedule(s, t, raising, r, true), t)
    ensures RelyOperations(s, StepSchedule(s, t, raising, r, true), t)
    ensures HistoryBounded(StepSchedule(s, t, raising, r, true)) && Slots(StepSchedule(s, t, raising, r, true).sh)
  {
    StartedSlots(s.sh, ActorAlive(s), |s.threads|);
  }

  lemma StartedThread(s: System, t: nat, raising: bool, r: Return)
    requires Starting(s, t, raising, r, true)
    ensures WellFormed(StepSchedule(s, t, raising, r, true))
    ensures OwnThread(s, StepSchedule(s, t, raising, r, true), t)
  {
    hide HistoryBounded;
    GrownWellFormed(s, StepSchedule(s, t, raising, r, true), t);
  }

  lemma StartedOperation(s: System, t: nat, raising: bool, r: Return, p: nat)
    requires Starting(s, t, raising, r, true) && p < |s.sh.operations| && OperationInv(s, p)
    ensures OperationInv(StepSchedule(s, t, raising, r, true), p)
  {
    hide HistoryBounded;
  }

  lemma StartedCarried(s: System, t: nat, raising: bool, r: Return)
    requires Starting(s, t, raising, r, true)
    ensures Carried(StepSchedule(s, t, raising, r, true))
  {
    hide HistoryBounded, Slots;
    assert OwesSchedule(StepSchedule(s, t, raising, r, true).threads[|s.threads|].act);
  }

  lemma StartedKeeps(s: System, t: nat, raising: bool, r: Return)
    requires Inv(s) && Starting(s, t, raising, r, true)
    ensures Inv(StepSchedule(s, t, raising, r, true))
  {
    var s' := StepSchedule(s, t, raising, r, true);
    hide ThreadsInv, OperationInv, TablesInv, HistoryBounded, WellFormed, LogInv, SnapshotInv, AtSchedule;
    OriginKeeps(s, s');
    assert CountInv(s') && |s'.sh.operations| == |s.sh.operations|;
    hide Starting, OriginInv, Carried, CountInv, Slots, OperationStep, RelyOperations, OwnThread, StepSchedule;
    StartedFrame(s, t, raising, r);
    StartedThread(s, t, raising, r);
    StartedCarried(s, t, raising, r);
    forall p | 0 <= p < |s'.sh.operations| ensures OperationInv(s', p) {
      OperationAt(s, p);
      StartedOperation(s, t, raising, r, p);
    }
    OperationStepKeeps(s, s', t);
  }

  // ---------------------------------------------------------------- a cleanup thread that fails to start

  lemma FailedFrame(s: System, t: nat, raising: bool, r: Return)
    requires Starting(s, t, raising, r, false)
    ensures OperationStep(s, StepSchedule(s, t, raising, r, false), t)
  {
    StartFailedEffect(s.sh, ActorAlive(s), |s.threads|);
    hide Schedule, ActorAlive, HistoryBounded, Slots;
  }

  lemma FailedRely(s: System, t: nat, raising: bool, r: Return)
    requires Starting(s, t, raising, r, false)
    ensures RelyOperations(s, StepSchedule(s, t, raising, r, false), t)
    ensures HistoryBounded(StepSchedule(s, t, raising, r, false)) && Slots(StepSchedule(s, t, raising, r, false).sh)
  {
    StartFailedEffect(s.sh, ActorAlive(s), |s.threads|);
    hide Schedule, ActorAlive, Slots;
  }

  lemma FailedThread(s: System, t: nat, raising: bool, r: Return)
    requires Starting(s, t, raising, r, false)
    ensures WellFormed(StepSchedule(s, t, raising, r, false))
    ensures OwnThread(s, StepSchedule(s, t, raising, r, false), t)
  {
    StartFailedEffect(s.sh, ActorAlive(s), |s.threads|);
    hide HistoryBounded, Schedule, ActorAlive;
    GrownWellFormed(s, StepSchedule(s, t, raising, r, false), t);
  }

  lemma FailedOperation(s: System, t: nat, raising: bool, r: Return, p: nat)
    requires Starting(s, t, raising, r, false) && p < |s.sh.operations| && OperationInv(s, p)
    ensures OperationInv(StepSchedule(s, t, raising, r, false), p)
  {
    StartFailedEffect(s.sh, ActorAlive(s), |s.threads|);
    hide HistoryBounded, Schedule, ActorAlive;
  }

  lemma FailedRest(s: System, t: nat, raising: bool, r: Return)
    requires Starting(s, t, raising, r, false) && OriginInv(s) && CountInv(s)
    ensures
      var s' := StepSchedule(s, t, raising, r, false);
      OriginInv(s') && CountInv(s') && Carried(s') && |s'.sh.operations| == |s.sh.operations|
  {
    StartFailedEffect(s.sh, ActorAlive(s), |s.threads|);
    hide HistoryBounded, Slots, Schedule, ActorAlive;
    OriginKeeps(s, StepSchedule(s, t, raising, r, false));
  }

  lemma FailedKeeps(s: System, t: nat, raising: bool, r: Return)
    requires Inv(s) && Starting(s, t, raising, r, false)
    ensures Inv(StepSchedule(s, t, raising, r, false))
  {
    var s' := StepSchedule(s, t, raising, r, false);
    hide ThreadsInv, OperationInv, TablesInv, HistoryBounded, WellFormed, LogInv, SnapshotInv, AtSchedule;
    hide Starting, OriginInv, Carried, CountInv, Slots, OperationStep, RelyOperations, OwnThread, StepSchedule;
    FailedFrame(s, t, raising, r);
    FailedRely(s, t, raising, r);
    FailedThread(s, t, raising, r);
    FailedRest(s, t, raising, r);
    forall p | 0 <= p < |s'.sh.operations| ensures OperationInv(s', p) {
      OperationAt(s, p);
      FailedOperation(s, t, raising, r, p);
    }
    OperationStepKeeps(s, s', t);
  }

  lemma ScheduleKeeps(s: System, t: nat, raising: bool, r: Return, started: bool)
    requires Inv(s) && t < |s.threads| && s.threads[t] == Thread([], ScheduleRemove(raising, r))
    ensures Inv(StepSchedule(s, t, raising, r, started))
  {
    hide ThreadsInv, TablesInv, HistoryBounded, LogInv, SnapshotInv, OriginInv, Carried, CountInv, Slots, AtSchedule;
    ScheduleReady(s, t, raising, r);
    if Schedule(s.sh, ActorAlive(s), |s.threads|, started).1.NothingToStart? {
      NothingKeeps(s, t, raising, r);
      assert StepSchedule(s, t, raising, r, started) == Move(s, t, [], After(r));
    } else {
      if s.sh.pending.Some? { OperationAt(s, s.sh.pending.value); }
      StartingReady(s, t, raising, r, started);
      if started { StartedKeeps(s, t, raising, r); } else { FailedKeeps(s, t, raising, r); }
    }
  }

  // ---------------------------------------------------------------- completing

  ghost predicate AtComplete(s: System, t: nat, o: nat, n: nat, ok: bool, r: Return) {
    && WellFormed(s) && Slots(s.sh)
    && t < |s.threads| && s.threads[t] == Thread([], Removing(o, r, Answered(n, ok)))
    && o < |s.sh.operations| && ReturnBounded(s.sh, r) && RemoveInv(s, t, o, r)
    && 0 < n <= |s.log|
    && s.log[n - 1] == Entry(RemoveOf(o, s.sh.operations[o].generation), t, Returned(ok))
    && o in s.history.claimed
    && (s.sh.operations[o].generation == s.sh.generation ==> n <= s.history.removeSent)
    && o in s.history.sent
    && s.network != Some(t)
    && (s.sh.coordination.Some? ==> CoordinationInv(s, s.sh.coordination.value))
  }

  lemma CompleteReady(s: System, t: nat, o: nat, n: nat, ok: bool, r: Return)
    requires Inv(s) && t < |s.threads| && s.threads[t] == Thread([], Removing(o, r, Answered(n, ok)))
    ensures AtComplete(s, t, o, n, ok, r)
  {
    hide ThreadsInv, TablesInv, LogInv, OriginInv, SnapshotInv, CountInv, Carried, HistoryBounded;
    ThreadAt(s, t);
    OperationAt(s, o);
    if s.sh.coordination.Some? { CoordinationAt(s, s.sh.coordination.value); }
    NetworkNotMine(s, t);
  }

  lemma CompleteContexts(s: System, t: nat, o: nat, n: nat, ok: bool, r: Return)
    requires AtComplete(s, t, o, n, ok, r)
    ensures
      var s' := StepRemoveApply(s, t, o, n, ok, r);
      Bounded(s'.sh) && ContextFrame(s, s', t) && RelyContexts(s, s', t)
  {
    CompleteEffect(s.sh, o, n, ok);
    hide Complete, Slots, WellFormed, CoordinationInv;
  }

  /** If the window ends, or the fallback goes, a Remove later than its last debt has been sent. */
  lemma CompleteWindows(s: System, t: nat, o: nat, n: nat, ok: bool, r: Return)
    requires AtComplete(s, t, o, n, ok, r)
    ensures
      var s' := StepRemoveApply(s, t, o, n, ok, r);
      Bounded(s'.sh) && CoordinationFrame(s, s', t) && RelyRest(s, s', t) && Others(s, s', t)
  {
    CompleteEffect(s.sh, o, n, ok);
    hide Complete, WellFormed;
  }

  lemma CompleteApplies(s: System, t: nat, o: nat, n: nat, ok: bool, r: Return)
    requires AtComplete(s, t, o, n, ok, r)
    ensures
      var s' := StepRemoveApply(s, t, o, n, ok, r);
      var accepted := n > s.sh.lastApplied;
      && Bounded(s'.sh)
      && Applies(s, s', n, ok, accepted, false) && ApplyFrame(s, s', n, ok, accepted, false)
      && s'.history.sent == s.history.sent && s'.history.origin == s.history.origin
      && (CountInv(s) ==> CountInv(s'))
  {
    CompleteEffect(s.sh, o, n, ok);
    hide Complete, WellFormed, CoordinationInv;
  }

  lemma CompleteLog(s: System, t: nat, o: nat, n: nat, ok: bool, r: Return)
    requires AtComplete(s, t, o, n, ok, r) && LogInv(s) && OriginInv(s) && SnapshotInv(s) && CountInv(s)
    ensures
      var s' := StepRemoveApply(s, t, o, n, ok, r);
      LogInv(s') && OriginInv(s') && SnapshotInv(s') && CountInv(s')
  {
    CompleteApplies(s, t, o, n, ok, r);
    hide LogInv, SnapshotInv, OriginInv, WellFormed, CoordinationInv, StepRemoveApply, Slots, CountInv, ApplyFrame;
    var s' := StepRemoveApply(s, t, o, n, ok, r);
    var accepted := n > s.sh.lastApplied;
    ApplyEntries(s, s', n, ok, accepted, false);
    ApplySnapshot(s, s', n, ok, accepted, false);
    ApplyOrigin(s, s', n, ok, accepted, false);
  }

  /** The state after the completion, as far as operations and threads are concerned. */
  ghost predicate Completed(s: System, s': System, t: nat, o: nat, ok: bool, r: Return, cancelled: Option<nat>)
    requires t < |s.threads| && o < |s.sh.operations|
  {
    var h, h' := s.history, s'.history;
    && (cancelled.Some? ==> cancelled == s.sh.pending && s'.sh.removed == Some(s.sh.generation))
    && s'.sh.operations == s.sh.operations[o := s.sh.operations[o].(result := Some(ok))]
    && s'.sh.active.None?
    && s'.sh.pending == (if cancelled.Some? then None else s.sh.pending)
    && s'.sh.generation == s.sh.generation && s'.sh.contexts == s.sh.contexts
    && s'.sh.coordinations == s.sh.coordinations && s'.sh.prepared == s.sh.prepared && Bounded(s'.sh)
    && s'.network == s.network
    && LogExtends(s, s')
    && s'.threads == s.threads[t := Thread([SignalOperation(o)] + OperationSignals(cancelled),
                                       ScheduleRemove(false, r))]
    && h' == h.(accepted := h'.accepted, removedBy := h'.removedBy,
                operationDebtor := if cancelled.Some? then h.operationDebtor[o := t][cancelled.value := t]
                                   else h.operationDebtor[o := t])
  }

  lemma CompletedShape(s: System, t: nat, o: nat, n: nat, ok: bool, r: Return)
    requires AtComplete(s, t, o, n, ok, r)
    ensures Completed(s, StepRemoveApply(s, t, o, n, ok, r), t, o, ok, r, Complete(s.sh, o, n, ok).1.cancelled)
  {
    CompleteSlotsOnly(s.sh, o, n, ok);
    hide Complete, WellFormed, CoordinationInv, Slots;
  }

  /** The part of the starting point that the operations depend on. */
  ghost predicate Completing(s: System, t: nat, o: nat, r: Return) {
    && Bounded(s.sh)
    && t < |s.threads| && s.threads[t].act.Removing? && s.threads[t].act.o == o && s.threads[t].act.next == r
    && o < |s.sh.operations| && ReturnBounded(s.sh, r) && RemoveInv(s, t, o, r)
    && s.sh.active != s.sh.pending
    && o in s.history.claimed
  }

  lemma CompleteRely(s: System, s': System, t: nat, o: nat, ok: bool, r: Return, cancelled: Option<nat>)
    requires Completing(s, t, o, r) && Completed(s, s', t, o, ok, r, cancelled)
    ensures RelyOperations(s, s', t) && (HistoryBounded(s) ==> HistoryBounded(s')) && Carried(s')
  {
    assert OwesSchedule(s'.threads[t].act);
  }

  lemma CompleteThread(s: System, s': System, t: nat, o: nat, ok: bool, r: Return, cancelled: Option<nat>)
    requires WellFormed(s) && Completing(s, t, o, r) && Completed(s, s', t, o, ok, r, cancelled)
    requires s.threads[t].owed == [] && s.network != Some(t)
    ensures WellFormed(s') && OwnThread(s, s', t)
  {
    GrownWellFormed(s, s', t);
  }

  lemma CompleteOperation(s: System, s': System, t: nat, o: nat, ok: bool, r: Return, cancelled: Option<nat>, p: nat)
    requires Completing(s, t, o, r) && Completed(s, s', t, o, ok, r, cancelled) && s.threads[t].owed == []
    requires p < |s.sh.operations| && OperationInv(s, p)
    ensures OperationInv(s', p)
  {
  }

  lemma RemoveApplyKeeps(s: System, t: nat, o: nat, n: nat, ok: bool, r: Return)
    requires Inv(s) && t < |s.threads| && s.threads[t] == Thread([], Removing(o, r, Answered(n, ok)))
    ensures o < |s.sh.operations| && 0 < n <= |s.log| && Inv(StepRemoveApply(s, t, o, n, ok, r))
  {
    CompleteReady(s, t, o, n, ok, r);
    var s' := StepRemoveApply(s, t, o, n, ok, r);
    var cancelled := Complete(s.sh, o, n, ok).1.cancelled;
    CompletedShape(s, t, o, n, ok, r);
    assert Completing(s, t, o, r);
    CompleteSlots(s.sh, o, n, ok);
    assert Slots(s'.sh) && |s'.sh.operations| == |s.sh.operations|;
    hide StepRemoveApply, AtComplete, WellFormed, ContextInv, OperationInv, CoordinationInv, LogInv, OriginInv,
      Complete;
    hide SnapshotInv, CountInv, Carried, OwnThread, ThreadsInv, HistoryBounded, Slots, ContextFrame, CoordinationFrame;
    hide RelyContexts, RelyOperations, RelyRest, Completed, Completing;
    CompleteThread(s, s', t, o, ok, r, cancelled);
    CompleteRely(s, s', t, o, ok, r, cancelled);
    CompleteContexts(s, t, o, n, ok, r);
    ContextsKeep(s, s', t);
    CompleteWindows(s, t, o, n, ok, r);
    CoordinationsKeep(s, s', t);
    forall p | 0 <= p < |s'.sh.operations| ensures OperationInv(s', p) {
      OperationAt(s, p);
      CompleteOperation(s, s', t, o, ok, r, cancelled, p);
    }
    CompleteLog(s, t, o, n, ok, r);
    Assemble(s, s', t);
  }
}
