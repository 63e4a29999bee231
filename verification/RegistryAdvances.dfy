/**
 * Every turn of a thread other than the renewal thread of the current Worker pays for itself out of the
 * charges of `RegistryRank.dfy`, or walks towards the thread's next wait.  This needs three more facts of
 * every reachable state: nobody waits for an event that is already set, so that no wait is left only to be
 * entered again, and an actor that has been started for a Pending Remove claims it.
 */
module RegistryAdvances {
  import opened Options
  import opened RegistryState
  import opened RegistrySystem
  import opened RegistryInvariant
  import opened RegistrySections
  import opened RegistrySignalSteps
  import opened RegistryRuns
  import opened RegistryTransitions
  import opened RegistryTheorems
  import opened RegistryOverTime
  import opened RegistryRank

  // ---------------------------------------------------------------- waits that do not spin

  /** An installed window with registers in flight has not set its event. */
  ghost predicate EventUnset(s: System) {
    s.sh.coordination.Some? ==>
      var k := s.sh.coordination.value;
      k < |s.sh.coordinations| && (s.sh.coordinations[k].inflight == 0 || !s.sh.coordinations[k].done)
  }

  /** The event of an installed window is owed only when it is empty. */
  ghost predicate OwesEmpty(s: System, u: nat)
    requires u < |s.threads|
  {
    forall k: nat :: SignalCoordination(k) in s.threads[u].owed && s.sh.coordination == Some(k) ==>
      k < |s.sh.coordinations| && s.sh.coordinations[k].inflight == 0
  }

  /** The actor bound to the Pending Remove is about to claim it, and no Active Remove keeps it from it. */
  ghost predicate ActorClaims(s: System) {
    s.sh.pending.Some? && s.sh.pending.value < |s.sh.operations|
    && s.sh.operations[s.sh.pending.value].thread.Some? ==>
      var u := s.sh.operations[s.sh.pending.value].thread.value;
      s.sh.active.None? && u < |s.threads| && s.threads[u].act == ClaimPending(s.sh.pending.value)
  }

  ghost predicate Steady(s: System) {
    && EventUnset(s)
    && (forall u :: 0 <= u < |s.threads| ==> OwesEmpty(s, u))
    && ActorClaims(s)
  }

  /** One thread changes, and one may be started. */
  ghost predicate Replaces(s: System, s': System, t: nat) {
    && t < |s.threads| <= |s'.threads| <= |s.threads| + 1
    && (forall u :: 0 <= u < |s.threads| && u != t ==> s'.threads[u] == s.threads[u])
    && (|s'.threads| > |s.threads| ==> s'.threads[|s.threads|].owed == [])
  }

  ghost predicate Ordinary(s: System, s': System, t: nat) {
    && Bounded(s.sh) && Bounded(s'.sh)
    && Replaces(s, s', t)
    && Tame(s.sh, s'.sh)
    && (forall k: nat :: SignalCoordination(k) in s'.threads[t].owed && s'.sh.coordination == Some(k) ==>
          || SignalCoordination(k) in s.threads[t].owed
          || s'.sh.coordinations[k].inflight == 0)
    && (s'.threads[t].act == s.threads[t].act
        || !s.threads[t].act.ClaimPending? || s'.sh.pending != Some(s.threads[t].act.o))
  }

  /** A window that has reached zero stays there. */
  ghost predicate ZerosStay(sh: Shared, sh': Shared) {
    && |sh.coordinations| <= |sh'.coordinations|
    && forall k :: 0 <= k < |sh.coordinations| && sh.coordinations[k].inflight == 0 ==>
         sh'.coordinations[k].inflight == 0
  }

  lemma OrdinarySteady(s: System, s': System, t: nat)
    requires Steady(s) && Ordinary(s, s', t) && ZerosStay(s.sh, s'.sh)
    ensures Steady(s')
  {
    forall u | 0 <= u < |s'.threads| ensures OwesEmpty(s', u) {
      if u < |s.threads| { assert OwesEmpty(s, u); }
    }
  }

  /** What a step costs: the thread, the thread it starts and the Pending Remove. */
  function StartCharge(s: System, s': System): nat {
    if |s'.threads| > |s.threads| then ThreadCharge(s'.threads[|s.threads|]) else 0
  }

  ghost predicate Pays(s: System, s': System, t: nat) {
    && Bounded(s.sh) && Bounded(s'.sh) && Replaces(s, s', t)
    && ThreadCharge(s'.threads[t]) + StartCharge(s, s') + PendingCharge(s'.sh)
       < ThreadCharge(s.threads[t]) + PendingCharge(s.sh)
  }

  /** The step costs nothing and brings the thread nearer to its next wait. */
  ghost predicate Walks(s: System, s': System, t: nat) {
    && Replaces(s, s', t) && |s'.threads| == |s.threads|
    && s'.sh == s.sh
    && ThreadCharge(s'.threads[t]) == ThreadCharge(s.threads[t])
    && LocalSteps(s.sh, s'.threads[t].act) < LocalSteps(s.sh, s.threads[t].act)
  }

  /** The thread renews the current Worker. */
  predicate RenewsWorker(s: System, t: nat) {
    && t < |s.threads| && s.threads[t].act.Renewing? && !s.threads[t].act.phase.Last?
    && s.sh.worker == Some(s.threads[t].act.c)
  }

  ghost predicate Renewed(s: System, s': System, t: nat) {
    && Replaces(s, s', t) && |s'.threads| == |s.threads|
    && RenewsWorker(s, t) && RenewsWorker(s', t)
    && s'.threads[t].owed == s.threads[t].owed == []
    && s'.sh.worker == s.sh.worker && s'.sh.pending == s.sh.pending
    && s'.sh.operations == s.sh.operations && s'.sh.coordinations == s.sh.coordinations
  }

  ghost predicate Advances(s: System, s': System, t: nat) {
    if RenewsWorker(s, t) then Renewed(s, s', t) else Pays(s, s', t) || Walks(s, s', t)
  }

  // ---------------------------------------------------------------- renewal threads

  lemma MovesOrdinary(s: System, s': System, t: nat)
    requires Bounded(s.sh) && Replaces(s, s', t) && s'.sh == s.sh && s'.threads[t].owed == []
    requires !s.threads[t].act.ClaimPending?
    ensures Ordinary(s, s', t)
  {
  }

  /** A context is the current Worker, or its checks find that it is not. */
  lemma WorkerIsCurrent(s: System, t: nat, c: nat, p: Phase)
    requires Inv(s) && t < |s.threads| && s.threads[t] == Thread([], Renewing(c, p)) && c < |s.sh.contexts|
    ensures s.sh.worker == Some(c) <==> Current(s.sh, c)
    ensures p.Interval? && s.sh.worker != Some(c) ==> s.sh.contexts[c].stop
  {
    hide TablesInv, ThreadsInv, LogInv, OriginInv, SnapshotInv, CountInv, Carried, HistoryBounded;
    ThreadAt(s, t);
    ContextAt(s, c);
  }

  /** How a renewal thread goes on when it neither applies an answer nor finishes. */
  ghost predicate Phases(s: System, s': System, t: nat, c: nat, p: Phase) {
    && Replaces(s, s', t) && |s'.threads| == |s.threads| && s'.sh == s.sh && s'.threads[t].owed == []
    && (if s.sh.worker == Some(c) then
          s'.threads[t].act.Renewing? && s'.threads[t].act.c == c && !s'.threads[t].act.phase.Last?
        else
          || s'.threads[t].act.Idle?
          || (s'.threads[t].act.Renewing? && s'.threads[t].act.c == c
              && PhasesLeft(s'.threads[t].act.phase) < PhasesLeft(p)))
  }

  lemma PhaseMoves(s: System, t: nat, c: nat, p: Phase, ok: bool)
    requires WellFormed(s) && t < |s.threads| && s.threads[t] == Thread([], Renewing(c, p))
    requires ActionBounded(s.sh, s.log, Renewing(c, p)) && !p.Last? && !(p.Calling? && p.rpc.Answered?)
    requires s.sh.worker == Some(c) <==> Current(s.sh, c)
    requires p.Interval? ==> (s.sh.worker == Some(c) <==> !s.sh.contexts[c].stop)
    ensures Phases(s, PerformRenewing(s, t, c, p, ok), t, c, p)
  {
    hide WellFormed, Current;
  }

  lemma PhaseAdvances(s: System, t: nat, c: nat, p: Phase, ok: bool)
    requires Inv(s) && t < |s.threads| && s.threads[t] == Thread([], Renewing(c, p))
    requires ActionBounded(s.sh, s.log, Renewing(c, p)) && !p.Last? && !(p.Calling? && p.rpc.Answered?)
    ensures Ordinary(s, PerformRenewing(s, t, c, p, ok), t) && Advances(s, PerformRenewing(s, t, c, p, ok), t)
  {
    WorkerIsCurrent(s, t, c, p);
    assert WellFormed(s);
    hide Inv, WellFormed;
    assert Bounded(s.sh);
    hide PerformRenewing, Tame, Ordinary, Bounded, PendingCharge;
    PhaseMoves(s, t, c, p, ok);
    MovesOrdinary(s, PerformRenewing(s, t, c, p, ok), t);
  }

  lemma AnsweredAdvances(s: System, t: nat, c: nat, n: nat, ok: bool)
    requires Inv(s) && t < |s.threads| && s.threads[t] == Thread([], Renewing(c, Calling(Answered(n, ok))))
    requires ActionBounded(s.sh, s.log, s.threads[t].act)
    ensures Ordinary(s, StepRenewApply(s, t, c, n, ok), t) && Advances(s, StepRenewApply(s, t, c, n, ok), t)
  {
    WorkerIsCurrent(s, t, c, Calling(Answered(n, ok)));
    assert Bounded(s.sh);
    hide Inv, CommitRenewal, Tame, Bounded, Current;
    TameRenewal(s.sh, c, n, ok);
  }

  lemma LastAdvances(s: System, t: nat, c: nat)
    requires Inv(s) && t < |s.threads| && s.threads[t] == Thread([], Renewing(c, Last)) && c < |s.sh.contexts|
    ensures Ordinary(s, StepFinish(s, t, c), t) && Pays(s, StepFinish(s, t, c), t)
  {
    assert Bounded(s.sh);
    hide Inv, Finish, Tame, PendingCharge, Bounded;
    TameFinish(s.sh, c);
    TameCharge(s.sh, Finish(s.sh, c).0);
  }

  // ---------------------------------------------------------------- Removes and actors

  /** A step that leaves the shared state and spends some of its charge. */
  lemma CheaperAdvances(s: System, s': System, t: nat)
    requires Bounded(s.sh) && Replaces(s, s', t) && |s'.threads| == |s.threads| && s'.sh == s.sh
    requires s.threads[t].owed == s'.threads[t].owed == [] && !s.threads[t].act.ClaimPending?
    requires Charge(s'.threads[t].act) < Charge(s.threads[t].act)
    ensures Ordinary(s, s', t) && Pays(s, s', t)
  {
    MovesOrdinary(s, s', t);
    hide Ordinary, Charge, PendingCharge, Bounded;
  }

  lemma CompleteAdvances(s: System, t: nat, o: nat, n: nat, ok: bool, r: Return)
    requires Slots(s.sh) && t < |s.threads| && s.threads[t] == Thread([], Removing(o, r, Answered(n, ok)))
    requires o < |s.sh.operations| && 0 < n <= |s.log| && s.sh.active == Some(o)
    ensures Ordinary(s, StepRemoveApply(s, t, o, n, ok, r), t) && Pays(s, StepRemoveApply(s, t, o, n, ok, r), t)
  {
    assert Bounded(s.sh);
    hide Slots, Complete, Tame, PendingCharge, Bounded, StepRemoveApply;
    TameComplete(s.sh, o, n, ok);
    TameCharge(s.sh, Complete(s.sh, o, n, ok).0);
    CompletedThread(s, t, o, n, ok, r);
  }

  lemma CompletedThread(s: System, t: nat, o: nat, n: nat, ok: bool, r: Return)
    requires Bounded(s.sh) && t < |s.threads| && o < |s.sh.operations| && 0 < n <= |s.log|
    ensures
      var s' := StepRemoveApply(s, t, o, n, ok, r);
      && s'.sh == Complete(s.sh, o, n, ok).0
      && s'.threads == s.threads[t := s'.threads[t]]
      && s'.threads[t].act == ScheduleRemove(false, r)
      && |s'.threads[t].owed| <= 2 && forall k: nat :: SignalCoordination(k) !in s'.threads[t].owed
  {
    hide Complete, Bounded, NoteCreated;
  }

  lemma RemovingAdvances(s: System, t: nat, o: nat, r: Return, p: Rpc, ch: Choice)
    requires Inv(s) && t < |s.threads| && s.threads[t] == Thread([], Removing(o, r, p))
    requires ActionBounded(s.sh, s.log, Removing(o, r, p))
    ensures Ordinary(s, Perform(s, t, Removing(o, r, p), ch), t) && Pays(s, Perform(s, t, Removing(o, r, p), ch), t)
  {
    assert Bounded(s.sh) && Slots(s.sh);
    if p.Answered? {
      hide Inv, Slots, Bounded, Ordinary, Pays, StepRemoveApply;
      ThreadAt(s, t);
      CompleteAdvances(s, t, o, p.n, p.ok, r);
    } else {
      hide Inv, Ordinary, Pays, Bounded;
      CheaperAdvances(s, Perform(s, t, Removing(o, r, p), ch), t);
    }
  }

  /** The scheduler starts an actor only for a Remove that has none. */
  lemma NoActorYet(s: System, started: bool)
    requires Bounded(s.sh) && ActorClaims(s)
    requires !Schedule(s.sh, ActorAlive(s), |s.threads|, started).1.NothingToStart?
    ensures s.sh.pending.Some? && s.sh.active.None? && PendingCharge(s.sh) == PENDING
    ensures s.sh.operations[s.sh.pending.value].thread.None?
  {
  }

  lemma StartAdvances(s: System, t: nat, raising: bool, r: Return)
    requires Bounded(s.sh) && Steady(s) && t < |s.threads| && s.threads[t] == Thread([], ScheduleRemove(raising, r))
    requires Schedule(s.sh, ActorAlive(s), |s.threads|, true).1.Started?
    ensures Steady(StepSchedule(s, t, raising, r, true)) && Pays(s, StepSchedule(s, t, raising, r, true), t)
  {
    hide ActorAlive;
    NoActorYet(s, true);
    var s' := StepSchedule(s, t, raising, r, true);
    forall u | 0 <= u < |s'.threads| ensures OwesEmpty(s', u) {
      if u < |s.threads| { assert OwesEmpty(s, u); }
    }
  }

  lemma FailAdvances(s: System, t: nat, raising: bool, r: Return)
    requires Inv(s) && Steady(s) && t < |s.threads| && s.threads[t] == Thread([], ScheduleRemove(raising, r))
    requires Schedule(s.sh, ActorAlive(s), |s.threads|, false).1.StartFailed?
    ensures Ordinary(s, StepSchedule(s, t, raising, r, false), t) && Pays(s, StepSchedule(s, t, raising, r, false), t)
  {
    assert Slots(s.sh) && Bounded(s.sh);
    NoActorYet(s, false);
    hide Inv, Steady, ActorAlive, StepSchedule, Tame, Schedule, PendingCharge, Bounded, Slots, Charge;
    TameFailedStart(s.sh, ActorAlive(s), |s.threads|);
    FailedThread(s, t, raising, r);
  }

  lemma FailedThread(s: System, t: nat, raising: bool, r: Return)
    requires Bounded(s.sh) && t < |s.threads| && s.threads[t] == Thread([], ScheduleRemove(raising, r))
    requires Schedule(s.sh, ActorAlive(s), |s.threads|, false).1.StartFailed?
    ensures
      var s' := StepSchedule(s, t, raising, r, false);
      && s'.sh == Schedule(s.sh, ActorAlive(s), |s.threads|, false).0
      && s'.threads == s.threads[t := s'.threads[t]]
      && s'.threads[t].owed == [SignalOperation(Schedule(s.sh, ActorAlive(s), |s.threads|, false).1.operation)]
      && Charge(s'.threads[t].act) <= Charge(s.threads[t].act)
  {
    hide Schedule, ActorAlive, Bounded, NoteCreated;
  }

  lemma ClaimAdvances(s: System, t: nat, o: nat)
    requires Bounded(s.sh) && ActorClaims(s) && t < |s.threads| && s.threads[t] == Thread([], ClaimPending(o))
    requires o < |s.sh.operations| && s.sh.operations[o].thread == Some(t)
    ensures Ordinary(s, StepClaim(s, t, o), t) && Pays(s, StepClaim(s, t, o), t)
  {
    var s' := StepClaim(s, t, o);
    if s.sh.pending == Some(o) {
      assert s'.sh == s.sh.(pending := None, active := Some(o));
    } else {
      assert s'.sh == s.sh;
    }
  }

  lemma EndActorAdvances(s: System, t: nat, o: nat)
    requires Bounded(s.sh) && Steady(s) && t < |s.threads| && s.threads[t] == Thread([], EndActor(o))
    requires o < |s.sh.operations| && s.sh.operations[o].thread == Some(t)
    ensures Ordinary(s, StepEndActor(s, t, o), t) && Pays(s, StepEndActor(s, t, o), t)
  {
    assert s.sh.pending != Some(o);
  }

  lemma ActorAdvances(s: System, t: nat, a: Action, ch: Choice)
    requires Inv(s) && Steady(s) && t < |s.threads| && s.threads[t] == Thread([], a)
    requires ActionBounded(s.sh, s.log, a) && (a.ClaimPending? || a.EndActor?)
    ensures Ordinary(s, Perform(s, t, a, ch), t) && Pays(s, Perform(s, t, a, ch), t)
  {
    assert Bounded(s.sh);
    assert ActorClaims(s);
    hide Inv, Bounded, Steady, ActorClaims, Ordinary, Pays, StepClaim, StepEndActor;
    ThreadAt(s, t);
    if a.ClaimPending? { ClaimAdvances(s, t, a.o); } else { EndActorAdvances(s, t, a.o); }
  }

  // ---------------------------------------------------------------- registers

  lemma JoinPays(s: System, t: nat)
    requires Slots(s.sh) && t < |s.threads| && s.threads[t] == Thread([], JoinWindow)
    ensures Pays(s, StepJoin(s, t), t)
  {
    JoinEffect(s.sh);
    hide Slots;
  }

  lemma JoinSteady(s: System, t: nat)
    requires WellFormed(s) && Slots(s.sh) && Steady(s) && t < |s.threads| && s.threads[t] == Thread([], JoinWindow)
    ensures Steady(StepJoin(s, t))
  {
    JoinEffect(s.sh);
    var s' := StepJoin(s, t);
    forall u | 0 <= u < |s'.threads| ensures OwesEmpty(s', u) {
      assert OwesEmpty(s, u) && ThreadBounded(s.sh, s.log, s.threads[u]);
    }
  }

  lemma LeaveOrdinary(s: System, t: nat, k: Option<nat>, g: nat, n: nat, ok: bool)
    requires WellFormed(s) && t < |s.threads| && s.threads[t] == Thread([], Registering(k, g, Answered(n, ok)))
    requires WindowBounded(s.sh, k) && 0 < n <= |s.log|
    ensures Ordinary(s, StepRegisterApply(s, t, k, g, n, ok), t)
  {
    assert Bounded(s.sh);
    TameRegister(s.sh, n, ok, g, k);
    hide WellFormed, CommitRegister, Tame, LeaveHistory, NoteAccepted, NoteReopened, Bounded;
  }

  lemma LeavePays(s: System, t: nat, k: Option<nat>, g: nat, n: nat, ok: bool)
    requires WellFormed(s) && t < |s.threads| && s.threads[t] == Thread([], Registering(k, g, Answered(n, ok)))
    requires WindowBounded(s.sh, k) && 0 < n <= |s.log|
    ensures Pays(s, StepRegisterApply(s, t, k, g, n, ok), t)
  {
    assert Bounded(s.sh);
    hide WellFormed, CommitRegister, PendingCharge, StepRegisterApply, Bounded, Charge;
    RegisterCharge(s.sh, n, ok, g, k);
    LeftThread(s, t, k, g, n, ok);
  }

  lemma LeftThread(s: System, t: nat, k: Option<nat>, g: nat, n: nat, ok: bool)
    requires Bounded(s.sh) && t < |s.threads| && s.threads[t] == Thread([], Registering(k, g, Answered(n, ok)))
    requires WindowBounded(s.sh, k) && 0 < n <= |s.log|
    ensures
      var s' := StepRegisterApply(s, t, k, g, n, ok);
      && s'.sh == CommitRegister(s.sh, n, ok, g, k).0
      && s'.threads == s.threads[t := s'.threads[t]]
      && |s'.threads[t].owed| <= 1 && Charge(s'.threads[t].act) <= 1 && Charge(s.threads[t].act) == 13
  {
    hide CommitRegister, Bounded, LeaveHistory, NoteAccepted, NoteReopened;
  }

  lemma RegisteringAdvances(s: System, t: nat, k: Option<nat>, g: nat, p: Rpc, ch: Choice)
    requires WellFormed(s) && t < |s.threads| && s.threads[t] == Thread([], Registering(k, g, p))
    requires ActionBounded(s.sh, s.log, Registering(k, g, p))
    ensures Ordinary(s, Perform(s, t, Registering(k, g, p), ch), t)
    ensures Pays(s, Perform(s, t, Registering(k, g, p), ch), t)
  {
    assert Bounded(s.sh);
    hide WellFormed, Ordinary, Pays, StepRegisterApply;
    if p.Answered? {
      LeaveOrdinary(s, t, k, g, p.n, p.ok);
      LeavePays(s, t, k, g, p.n, p.ok);
    } else {
      CheaperAdvances(s, Perform(s, t, Registering(k, g, p), ch), t);
    }
  }

  lemma OneShotAdvances(s: System, t: nat, p: Rpc, ch: Choice)
    requires WellFormed(s) && t < |s.threads| && s.threads[t] == Thread([], OneShotRemoving(p))
    requires ActionBounded(s.sh, s.log, OneShotRemoving(p))
    ensures Ordinary(s, Perform(s, t, OneShotRemoving(p), ch), t)
    ensures Pays(s, Perform(s, t, OneShotRemoving(p), ch), t)
  {
    assert Bounded(s.sh);
    hide WellFormed, Ordinary, Pays, Bounded, StepOneShotApply;
    if p.Answered? {
      OneShotApplyAdvances(s, t, p.n, p.ok);
    } else {
      CheaperAdvances(s, Perform(s, t, OneShotRemoving(p), ch), t);
    }
  }

  lemma OneShotApplyAdvances(s: System, t: nat, n: nat, ok: bool)
    requires Bounded(s.sh) && t < |s.threads| && s.threads[t] == Thread([], OneShotRemoving(Answered(n, ok)))
    requires 0 < n <= |s.log|
    ensures Ordinary(s, StepOneShotApply(s, t, n, ok), t) && Pays(s, StepOneShotApply(s, t, n, ok), t)
  {
    var s' := StepOneShotApply(s, t, n, ok);
    assert Bounded(s'.sh) && Tame(s.sh, s'.sh) && PendingCharge(s'.sh) == PendingCharge(s.sh);
    hide Bounded, Tame, PendingCharge, CommitOneShotRemove;
  }

  // ---------------------------------------------------------------- the terminal path

  lemma TerminalAdvances(s: System, t: nat, g: nat)
    requires Slots(s.sh) && EventUnset(s) && t < |s.threads| && s.threads[t] == Thread([], TerminalTurn(g))
    ensures Ordinary(s, StepTerminal(s, t, g), t)
    ensures Pays(s, StepTerminal(s, t, g), t) || Walks(s, StepTerminal(s, t, g), t)
  {
    if Terminal(s.sh, g).1.Owned? {
      hide Slots, EventUnset, Terminal, StepTerminal, Ordinary, Pays;
      OwnedAdvances(s, t, g);
    } else {
      var s' := StepTerminal(s, t, g);
      assert Replaces(s, s', t);
      MovesOrdinary(s, s', t);
      hide Ordinary, Tame, PendingCharge;
    }
  }

  lemma OwnedAdvances(s: System, t: nat, g: nat)
    requires Slots(s.sh) && t < |s.threads| && s.threads[t] == Thread([], TerminalTurn(g))
    requires Terminal(s.sh, g).1.Owned?
    ensures Ordinary(s, StepTerminal(s, t, g), t) && Pays(s, StepTerminal(s, t, g), t)
  {
    assert Bounded(s.sh);
    hide Slots, Bounded, Tame, PendingCharge, Terminal;
    TameTerminal(s.sh, g);
    TameCharge(s.sh, Terminal(s.sh, g).0);
  }

  lemma ObserverAdvances(s: System, t: nat, a: Action, ch: Choice)
    requires WellFormed(s) && t < |s.threads| && s.threads[t] == Thread([], a)
    requires ActionBounded(s.sh, s.log, a) && Ready(s, a)
    requires a.RemoveEntry? || a.AwaitRegisters? || a.AwaitOperation? || a.ReadResult?
    ensures Ordinary(s, PerformCall(s, t, a, ch), t)
    ensures Pays(s, PerformCall(s, t, a, ch), t) || Walks(s, PerformCall(s, t, a, ch), t)
  {
    assert Bounded(s.sh);
    var s' := PerformCall(s, t, a, ch);
    assert Replaces(s, s', t);
    MovesOrdinary(s, s', t);
    hide Ordinary, WellFormed, PendingCharge, Bounded;
  }

  // ---------------------------------------------------------------- starts and stops

  lemma PrepareAdvances(s: System, t: nat, started: bool)
    requires Bounded(s.sh) && t < |s.threads| && s.threads[t] == Thread([], PrepareStart)
    ensures Ordinary(s, StepPrepare(s, t, started), t) && Pays(s, StepPrepare(s, t, started), t)
  {
    hide Bounded, Tame, PendingCharge, Prepare;
    TamePrepare(s.sh, |s.threads|, started);
    TameCharge(s.sh, Prepare(s.sh, |s.threads|, started).0);
  }

  lemma ActivateAdvances(s: System, t: nat, c: nat)
    requires Bounded(s.sh) && t < |s.threads| && s.threads[t] == Thread([], OwnStart(c)) && c < |s.sh.contexts|
    ensures Ordinary(s, StepActivate(s, t, c), t) && Pays(s, StepActivate(s, t, c), t)
  {
    hide Bounded, Tame, PendingCharge, Activate;
    TameActivate(s.sh, c);
    TameCharge(s.sh, Activate(s.sh, c).0);
  }

  lemma SettleAdvances(s: System, t: nat, c: nat, way: Way)
    requires Bounded(s.sh) && t < |s.threads| && c < |s.sh.contexts| && !way.Proceed?
    requires s.threads[t] == Thread([], OwnStart(c)) || s.threads[t] == Thread([], AfterActivation(c))
    ensures Ordinary(s, StepOwn(s, t, c, way), t) && Pays(s, StepOwn(s, t, c, way), t)
  {
    hide Bounded, Tame, PendingCharge, Cancel, Settle;
    TameSettle(s.sh, c);
    TameCharge(s.sh, Cancel(s.sh, c).0);
    TameCharge(s.sh, Settle(s.sh, c).0);
  }

  lemma StartingAdvances(s: System, t: nat, a: Action, ch: Choice)
    requires WellFormed(s) && t < |s.threads| && s.threads[t] == Thread([], a) && ActionBounded(s.sh, s.log, a)
    requires a.PrepareStart? || a.OwnStart? || a.AfterActivation?
    ensures Ordinary(s, PerformCall(s, t, a, ch), t) && Pays(s, PerformCall(s, t, a, ch), t)
  {
    assert Bounded(s.sh);
    hide WellFormed, Bounded, Ordinary, Pays, StepPrepare, StepActivate, StepCancel, StepSettle;
    match a
    case PrepareStart => PrepareAdvances(s, t, ch.started);
    case OwnStart(c) =>
      if ch.way.Proceed? { ActivateAdvances(s, t, c); } else { SettleAdvances(s, t, c, ch.way); }
    case AfterActivation(c) =>
      if ch.way.SettleIt? { SettleAdvances(s, t, c, SettleIt); } else { CheaperAdvances(s, Move(s, t, [], Idle), t); }
  }

  lemma StopAdvances(s: System, t: nat, remove: bool)
    requires Bounded(s.sh) && t < |s.threads| && s.threads[t] == Thread([], StopCall(remove))
    ensures Ordinary(s, StepStop(s, t, remove), t) && Pays(s, StepStop(s, t, remove), t)
  {
    hide Bounded, Tame, PendingCharge, Stop, NoteCreated;
    TameStop(s.sh, remove);
    TameCharge(s.sh, Stop(s.sh, remove).0);
  }

  lemma ShutdownAdvances(s: System, t: nat, deregister: bool)
    requires Bounded(s.sh) && t < |s.threads| && s.threads[t] == Thread([], ShutdownCall(deregister))
    ensures Ordinary(s, StepShutdown(s, t, deregister), t) && Pays(s, StepShutdown(s, t, deregister), t)
  {
    hide Bounded, Tame, PendingCharge, Shutdown;
    TameShutdown(s.sh, deregister);
    TameCharge(s.sh, Shutdown(s.sh, deregister).0);
  }

  lemma ShutdownRequestAdvances(s: System, t: nat, g: nat)
    requires Bounded(s.sh) && t < |s.threads| && s.threads[t] == Thread([], ShutdownRequest(g))
    ensures Ordinary(s, StepShutdownRequest(s, t, g), t) && Pays(s, StepShutdownRequest(s, t, g), t)
  {
    hide Bounded, Tame, PendingCharge, ShutdownRemove, NoteCreated;
    TameShutdownRequest(s.sh, g);
    TameCharge(s.sh, ShutdownRemove(s.sh, g).0);
  }

  lemma StoppingAdvances(s: System, t: nat, a: Action, ch: Choice)
    requires WellFormed(s) && t < |s.threads| && s.threads[t] == Thread([], a) && ActionBounded(s.sh, s.log, a)
    requires a.StopCall? || a.ShutdownCall? || a.ShutdownRequest?
    ensures Ordinary(s, PerformCall(s, t, a, ch), t) && Pays(s, PerformCall(s, t, a, ch), t)
  {
    assert Bounded(s.sh);
    hide WellFormed, Bounded, Ordinary, Pays, StepStop, StepShutdown, StepShutdownRequest;
    match a
    case StopCall(remove) => StopAdvances(s, t, remove);
    case ShutdownCall(deregister) => ShutdownAdvances(s, t, deregister);
    case ShutdownRequest(g) =>
      if ch.ok { ShutdownRequestAdvances(s, t, g); } else { CheaperAdvances(s, Move(s, t, [], Idle), t); }
  }

  // ---------------------------------------------------------------- events

  lemma SignalsPay(s: System, s': System, t: nat, x: Signal)
    requires Signals(s, s', t, x)
    ensures Pays(s, s', t)
  {
    assert PendingCharge(s'.sh) == PendingCharge(s.sh);
    hide Bounded, Charge, PendingCharge;
  }

  lemma SignalsSteady(s: System, s': System, t: nat, x: Signal)
    requires Signals(s, s', t, x) && Steady(s)
    ensures Steady(s')
  {
    assert OwesEmpty(s, t) && x in s.threads[t].owed;
    forall u | 0 <= u < |s'.threads| ensures OwesEmpty(s', u) { assert OwesEmpty(s, u); }
    hide Bounded;
  }

  lemma SignalAdvances(s: System, t: nat)
    requires Inv(s) && Steady(s) && t < |s.threads| && s.threads[t].owed != []
    ensures Pays(s, SendSignal(s, t), t) && Steady(SendSignal(s, t)) && !RenewsWorker(s, t)
  {
    ThreadAt(s, t);
    assert Bounded(s.sh);
    hide Inv, ThreadInv, Pays, Steady, SendSignal, Signals;
    SignalFacts(s, t);
    SignalShape(s, t);
    SignalsPay(s, SendSignal(s, t), t, s.threads[t].owed[0]);
    SignalsSteady(s, SendSignal(s, t), t, s.threads[t].owed[0]);
  }

  // ---------------------------------------------------------------- every step

  lemma ScheduleAdvances(s: System, t: nat, raising: bool, r: Return, started: bool)
    requires Inv(s) && Steady(s) && t < |s.threads| && s.threads[t] == Thread([], ScheduleRemove(raising, r))
    ensures
      var s' := StepSchedule(s, t, raising, r, started);
      (Ordinary(s, s', t) || Steady(s')) && (Pays(s, s', t) || Walks(s, s', t))
  {
    assert Bounded(s.sh);
    hide Inv, Steady, Ordinary, Pays;
    match Schedule(s.sh, ActorAlive(s), |s.threads|, started).1
    case NothingToStart => NothingAdvances(s, t, raising, r, started);
    case Started(_) => StartAdvances(s, t, raising, r);
    case StartFailed(_) => FailAdvances(s, t, raising, r);
  }

  lemma NothingAdvances(s: System, t: nat, raising: bool, r: Return, started: bool)
    requires Bounded(s.sh) && t < |s.threads| && s.threads[t] == Thread([], ScheduleRemove(raising, r))
    requires Schedule(s.sh, ActorAlive(s), |s.threads|, started).1.NothingToStart?
    ensures
      var s' := StepSchedule(s, t, raising, r, started);
      Ordinary(s, s', t) && (Pays(s, s', t) || Walks(s, s', t))
  {
    var s' := StepSchedule(s, t, raising, r, started);
    assert s' == Move(s, t, [], After(r));
    hide StepSchedule, Schedule, Bounded, ActorAlive;
    MovesOrdinary(s, s', t);
    hide Ordinary;
  }

  lemma RenewingAdvances(s: System, t: nat, c: nat, p: Phase, ok: bool)
    requires Inv(s) && t < |s.threads| && s.threads[t] == Thread([], Renewing(c, p))
    requires ActionBounded(s.sh, s.log, Renewing(c, p))
    ensures Ordinary(s, PerformRenewing(s, t, c, p, ok), t) && Advances(s, PerformRenewing(s, t, c, p, ok), t)
  {
    assert WellFormed(s);
    hide Inv, WellFormed, Ordinary, Pays, Walks, Renewed, StepRenewApply, StepFinish;
    if p.Last? {
      LastAdvances(s, t, c);
    } else if p.Calling? && p.rpc.Answered? {
      hide Advances;
      AnsweredAdvances(s, t, c, p.rpc.n, p.rpc.ok);
    } else {
      hide Advances, PerformRenewing;
      PhaseAdvances(s, t, c, p, ok);
    }
  }

  lemma CallAdvances(s: System, t: nat, a: Action, ch: Choice)
    requires Inv(s) && Steady(s) && t < |s.threads| && s.threads[t] == Thread([], a)
    requires ActionBounded(s.sh, s.log, a) && Ready(s, a) && Calls(a)
    ensures
      var s' := PerformCall(s, t, a, ch);
      Ordinary(s, s', t) && (Pays(s, s', t) || Walks(s, s', t))
  {
    assert WellFormed(s) && Slots(s.sh);
    if a.TerminalTurn? {
      hide Inv, WellFormed, Slots, Ordinary, Pays, Walks, StepTerminal;
      TerminalAdvances(s, t, a.g);
    } else {
      hide Inv, Steady, WellFormed, Slots, Ordinary, Pays, Walks, PerformCall;
      if a.PrepareStart? || a.OwnStart? || a.AfterActivation? {
        StartingAdvances(s, t, a, ch);
      } else if a.StopCall? || a.ShutdownCall? || a.ShutdownRequest? {
        StoppingAdvances(s, t, a, ch);
      } else {
        ObserverAdvances(s, t, a, ch);
      }
    }
  }

  lemma PerformAdvances(s: System, t: nat, a: Action, ch: Choice)
    requires Inv(s) && Steady(s) && t < |s.threads| && s.threads[t] == Thread([], a)
    requires ActionBounded(s.sh, s.log, a) && Ready(s, a)
    ensures Ordinary(s, Perform(s, t, a, ch), t) || Steady(Perform(s, t, a, ch))
    ensures Advances(s, Perform(s, t, a, ch), t)
  {
    assert WellFormed(s) && Slots(s.sh);
    hide Inv, WellFormed, Slots, Steady, Ordinary, Pays, Walks, Renewed, PerformRenewing, PerformCall;
    hide StepSchedule, StepClaim, StepEndActor, StepJoin;
    match a
    case Renewing(c, p) => RenewingAdvances(s, t, c, p, ch.ok);
    case Removing(o, r, p) => RemovingAdvances(s, t, o, r, p, ch);
    case ScheduleRemove(raising, r) => ScheduleAdvances(s, t, raising, r, ch.started);
    case ClaimPending(_) => ActorAdvances(s, t, a, ch);
    case EndActor(_) => ActorAdvances(s, t, a, ch);
    case JoinWindow =>
      JoinSteady(s, t);
      JoinPays(s, t);
    case Registering(k, g, p) => RegisteringAdvances(s, t, k, g, p, ch);
    case OneShotRemoving(p) => OneShotAdvances(s, t, p, ch);
    case _ => CallAdvances(s, t, a, ch);
  }

  lemma TurnAdvances(s: System, t: nat, ch: Choice)
    requires Inv(s) && Steady(s) && Enabled(s, t)
    ensures Advances(s, Next(s, t, ch), t) && Steady(Next(s, t, ch))
  {
    ThreadAt(s, t);
    var s' := Next(s, t, ch);
    var th := s.threads[t];
    assert th.owed == [] ==> th == Thread([], th.act) && Ready(s, th.act) && ActionBounded(s.sh, s.log, th.act);
    hide Inv, ThreadInv, Steady, Ordinary, Pays, Walks, Renewed, Perform, SendSignal, WellFormed, RenewsWorker, Ready;
    if th.owed != [] {
      SignalAdvances(s, t);
    } else {
      hide Advances, AnswerOf;
      var s1 := Perform(s, t, th.act, ch);
      PerformAdvances(s, t, th.act, ch);
      TurnZeros(s, t, ch);
      NotedAdvances(s, s1, t, AnswerOf(s, th.act, ch));
      if Ordinary(s, s1, t) { OrdinarySteady(s, s', t); }
    }
  }

  /** Nothing here depends on the answers. */
  lemma NotedAdvances(s: System, s1: System, t: nat, answer: Option<Answer>)
    requires Advances(s, s1, t)
    ensures Advances(s, WithAnswer(s1, t, answer), t)
    ensures Ordinary(s, s1, t) ==> Ordinary(s, WithAnswer(s1, t, answer), t)
    ensures Steady(s1) ==> Steady(WithAnswer(s1, t, answer))
  {
    hide Tame, Charge, PendingCharge, LocalSteps, Bounded;
    var s' := WithAnswer(s1, t, answer);
    if Steady(s1) {
      forall u | 0 <= u < |s'.threads| ensures OwesEmpty(s', u) { assert OwesEmpty(s1, u); }
    }
  }

  lemma TurnZeros(s: System, t: nat, ch: Choice)
    requires Inv(s) && Enabled(s, t)
    ensures ZerosStay(s.sh, Next(s, t, ch).sh)
  {
    hide Inv, Enabled, Next, LogGrows, SlotMoves, CreatesIdle, TokenMoves, SnapshotMoves, Reopens, StoppingMoves;
    hide FailureMoves;
    TurnEvolves(s, t, ch);
  }

  lemma {:induction false} RunSteady(states: seq<System>, events: seq<Event>, i: nat)
    requires IsRun(states, events) && i < |states|
    ensures Steady(states[i])
  {
    hide Inv, Steady, Happen, Possible;
    if i == 0 {
      StartSteady();
    } else {
      RunSteady(states, events, i - 1);
      RunHolds(states, events, i - 1);
      StepAt(states, events, i - 1);
      hide IsRun;
      EventSteady(states[i - 1], events[i - 1]);
    }
  }

  lemma StartSteady()
    ensures Steady(START)
  {
  }

  lemma EventSteady(s: System, e: Event)
    requires Inv(s) && Possible(s, e) && Steady(s)
    ensures Steady(Happen(s, e))
  {
    hide Inv;
    if e.Turn? {
      hide Steady, Next, Advances;
      TurnAdvances(s, e.t, e.choice);
    } else {
      ArrivalSteady(s, e.call);
    }
  }

  lemma ArrivalSteady(s: System, call: Call)
    requires Steady(s)
    ensures Steady(Arrive(s, call))
  {
    var s' := Arrive(s, call);
    forall u | 0 <= u < |s'.threads| ensures OwesEmpty(s', u) {
      if u < |s.threads| { assert OwesEmpty(s, u); }
    }
  }

  lemma ReachableSteady(s: System)
    requires Reachable(s)
    ensures Steady(s)
  {
    hide Steady, Happen, Possible;
    var states: seq<System>, events: seq<Event> :| IsRun(states, events) && s in states;
    var i :| 0 <= i < |states| && states[i] == s;
    hide IsRun;
    RunSteady(states, events, i);
  }
}
