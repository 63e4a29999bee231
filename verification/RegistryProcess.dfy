/**
 * The Registry state of one process as an object whose methods are the `state_lock` sections, each
 * written as the program writes it and proved to compute the section of `RegistryState.dfy`, so that
 * what is proved about every run of those sections holds of these methods.
 */
module RegistryProcess {
  import opened Options
  import opened RegistryState
  import opened RegistryInvariant
  import opened RegistrySections
  import opened RegistryWorkerSteps

  class ProcessState {
    var generation: nat
    var removeRequested: Option<nat>
    var removed: Option<nat>
    var removedResult: Option<bool>
    var coordination: Option<nat>
    var prepared: Option<nat>
    var worker: Option<nat>
    var stopping: map<nat, nat>
    var pending: Option<nat>
    var active: Option<nat>
    var registered: bool
    var lastApplied: nat
    var contexts: seq<Context>
    var operations: seq<Operation>
    var coordinations: seq<Coordination>

    ghost function Model(): Shared
      reads this
    {
      Shared(generation, removeRequested, removed, removedResult, coordination, prepared, worker, stopping,
             pending, active, registered, lastApplied, contexts, operations, coordinations)
    }

    ghost predicate Valid()
      reads this
    {
      Bounded(Model())
    }

    constructor ()
      ensures Model() == INITIAL && Slots(Model())
    {
      generation, lastApplied, registered := 0, 0, false;
      removeRequested, removed, removedResult := None, None, None;
      coordination, prepared, worker, pending, active := None, None, None, None, None;
      stopping, contexts, operations, coordinations := map[], [], [], [];
    }

    // -------------------------------------------------------------- register coordination

    method JoinRegisterCoordination() returns (joined: Joined)
      requires Valid()
      modifies this
      ensures (Model(), joined) == Join(old(Model()))
      ensures old(Slots(Model())) ==> Slots(Model()) && joined.detached.None?
    {
      hide Slots, InWindow;
      if Slots(Model()) { JoinSlots(Model()); JoinEffect(Model()); }
      var detached: Option<nat> := None;
      var open := coordination;
      if open.Some? && coordinations[open.value].generation != generation {
        coordination := None;
        detached := open;
        open := None;
      }
      if open.Some? {
        if coordinations[open.value].cleanupRequested { open := None; }
      } else {
        coordinations := coordinations + [Coordination(generation, 0, false, false)];
        coordination := Some(|coordinations| - 1);
        open := coordination;
      }
      if open.Some? {
        var row := coordinations[open.value];
        coordinations := coordinations[open.value := row.(inflight := row.inflight + 1, done := false)];
      }
      assert |coordinations| > |old(coordinations)| ==>
          coordinations == old(coordinations) + [Coordination(generation, 1, false, false)];
      joined := Joined(open, generation, detached);
    }

    method InvalidateSuccessfulCleanup(g: nat, k: Option<nat>) returns (reopened: bool)
      requires Valid() && (k.Some? ==> k.value < |coordinations|)
      modifies `removed, `removedResult, `removeRequested
      ensures (Model(), reopened) == Invalidate(old(Model()), g, k)
    {
      if generation != g { return false; }
      var installed := k.Some? && coordination == k && coordinations[k.value].generation == g;
      var invalidates := removed == Some(g);
      var restores := installed && coordinations[k.value].cleanupRequested;
      var opens := g == 0 && installed;
      if !(invalidates || restores || opens) { return false; }
      removed := None;
      removedResult := None;
      removeRequested := None;
      return true;
    }

    method EnsurePendingRemove(g: nat) returns (operation: Option<nat>)
      requires Valid()
      modifies `removeRequested, `pending, `operations
      ensures (Model(), operation) == EnsurePending(old(Model()), g)
    {
      if g == 0 && !registered { return None; }
      if removed == Some(g) { return None; }
      if pending.Some? {
        if operations[pending.value].generation == g {
          removeRequested := Some(g);
          return pending;
        }
        return None;
      }
      if removeRequested == Some(g) { return None; }
      removeRequested := Some(g);
      operations := operations + [Operation(g, false, None, None)];
      pending := Some(|operations| - 1);
      return pending;
    }

    method ReconcileRegisterCoordination(k: nat) returns (operation: Option<nat>)
      requires Valid() && k < |coordinations|
      modifies `coordination, `removeRequested, `pending, `operations
      ensures (Model(), operation) == Reconcile(old(Model()), k)
    {
      if coordination != Some(k) { return None; }
      var row := coordinations[k];
      var g := row.generation;
      if generation != g {
        coordination := None;
        return None;
      }
      operation := None;
      if row.cleanupRequested && row.inflight == 0 && (g > 0 || registered) && removed != Some(g) {
        operation := EnsurePendingRemove(g);
      }
      if row.inflight == 0 {
        var present := (active.Some? && operations[active.value].generation == g)
                       || (pending.Some? && operations[pending.value].generation == g);
        var satisfied := removed == Some(g);
        var none := g == 0 && !registered;
        var finished := row.cleanupRequested && !present && removeRequested == Some(g);
        if !row.cleanupRequested || satisfied || none || finished { coordination := None; }
      }
    }

    /** `_commit_one_shot` of a register, up to the record of the completion */
    method ApplyRegisterCompletion(n: nat, ok: bool, g: nat, k: Option<nat>) returns (out: Verdict)
      requires Valid() && (k.Some? ==> k.value < |coordinations|)
      modifies `registered, `lastApplied, `removed, `removedResult, `removeRequested
      ensures (Model(), out) == ApplyRegister(old(Model()), n, ok, g, k)
    {
      if n <= lastApplied { return Verdict(false, false, false); }
      if ok { registered := true; }
      lastApplied := n;
      if ok && k.Some? && generation == g && coordinations[k.value].generation == g && coordination == k {
        var late := coordinations[k.value].cleanupRequested;
        var reopened := InvalidateSuccessfulCleanup(g, k);
        return Verdict(true, reopened, late);
      }
      return Verdict(true, false, false);
    }

    /** The register leaves its window. */
    method LeaveCoordination(k: nat) returns (left: Departure)
      requires Valid() && k < |coordinations|
      modifies `coordination, `coordinations, `removeRequested, `pending, `operations
      ensures (Model(), left) == Leave(old(Model()), k)
    {
      var row := coordinations[k];
      if row.inflight > 0 {
        row := row.(inflight := row.inflight - 1);
      }
      coordinations := coordinations[k := row];
      var scheduled: Option<nat> := None;
      if coordination == Some(k) {
        scheduled := ReconcileRegisterCoordination(k);
      }
      left := Departure(if row.inflight == 0 then Some(k) else None, scheduled);
    }

    /** `_commit_one_shot` of a register */
    method CommitRegisterOnce(n: nat, ok: bool, g: nat, k: Option<nat>) returns (out: Verdict, left: Departure)
      requires Valid() && (k.Some? ==> k.value < |coordinations|)
      modifies this
      ensures (Model(), out, left) == CommitRegister(old(Model()), n, ok, g, k)
      ensures old(Slots(Model()) && (k.Some? ==> InWindow(Model(), g, k.value))) ==> Slots(Model())
    {
      hide Slots, InWindow, Leave, ApplyRegister;
      if Slots(Model()) && (k.Some? ==> InWindow(Model(), g, k.value)) { CommitSlots(Model(), n, ok, g, k); }
      out := ApplyRegisterCompletion(n, ok, g, k);
      left := Departure(None, None);
      if k.Some? {
        left := LeaveCoordination(k.value);
      }
    }

    /** `_commit_one_shot` of a Remove */
    method CommitRemoveOnce(n: nat, ok: bool) returns (accepted: bool)
      modifies `registered, `lastApplied
      ensures (Model(), accepted) == CommitOneShotRemove(old(Model()), n, ok)
      ensures old(Slots(Model())) ==> Slots(Model())
    {
      accepted := n > lastApplied;
      if accepted {
        if ok { registered := false; }
        lastApplied := n;
      }
    }

    // -------------------------------------------------------------- terminal Remove

    method TerminalDecision(g: nat) returns (decision: Decision)
      requires Valid()
      modifies `active, `operations
      ensures (Model(), decision) == Terminal(old(Model()), g)
      ensures old(Slots(Model())) ==> Slots(Model())
    {
      hide Slots, InWindow;
      if Slots(Model()) { TerminalSlots(Model(), g); }
      if generation != g || worker.Some? { return OneShot; }
      if coordination.Some? && coordinations[coordination.value].generation == g
         && coordinations[coordination.value].inflight > 0 {
        return WaitRegisters(coordination.value);
      }
      if removed == Some(g) && removedResult.Some? { return Cached(removedResult.value); }
      if active.Some? {
        if operations[active.value].generation == g { return WaitSameActive(active.value); }
        return WaitOther(active.value);
      }
      if pending.Some? {
        if operations[pending.value].generation == g { return WaitSamePending(pending.value); }
        return WaitOther(pending.value);
      }
      operations := operations + [Operation(g, false, None, None)];
      active := Some(|operations| - 1);
      return Owned(|operations| - 1);
    }

    // -------------------------------------------------------------- renewal lifecycle

    method PrepareStart(thread: nat, started: bool) returns (token: Option<nat>)
      requires Valid()
      modifies `prepared, `contexts
      ensures (Model(), token) == Prepare(old(Model()), thread, started)
      ensures old(Slots(Model())) ==> Slots(Model())
    {
      hide Slots, InWindow;
      if Slots(Model()) { PrepareSlots(Model(), thread, started); }
      if worker.Some? && generation == contexts[worker.value].generation { return None; }
      if prepared.Some? { return None; }
      if started {
        contexts := contexts + [Context(generation + 1, false, false, None, true, thread)];
        prepared := Some(|contexts| - 1);
        return prepared;
      }
      return None;
    }

    method StopLocally()
      requires Valid()
      modifies `worker, `stopping, `contexts
      ensures Model() == StopLocal(old(Model()))
    {
      if worker.Some? {
        var c := worker.value;
        worker := None;
        stopping := stopping[contexts[c].generation := c];
        contexts := contexts[c := contexts[c].(stop := true)];
      }
    }

    method ActivatePreparedStart(c: nat) returns (out: Activation)
      requires Valid() && c < |contexts|
      modifies this
      ensures (Model(), out) == Activate(old(Model()), c)
      ensures old(Slots(Model())) ==> Slots(Model()) && (out.NotOwner? || out.Activated?)
    {
      hide Slots, InWindow;
      if Slots(Model()) && prepared == Some(c) { ActivateEffect(Model(), c); }
      if prepared != Some(c) { return NotOwner; }
      if !contexts[c].owned { return OwnerMismatch; }
      if contexts[c].generation != generation + 1 { return GenerationMismatch; }
      if worker.Some? {
        if generation == contexts[worker.value].generation { return WorkerAppeared; }
        StopLocally();
      }
      generation := contexts[c].generation;
      worker := Some(c);
      prepared := None;
      var detached := coordination;
      coordination := None;
      var cancelled := pending;
      pending := None;
      if active.Some? {
        contexts := contexts[c := contexts[c].(waitRemove := active)];
      }
      return Activated(cancelled, detached);
    }

    method CancelPreparedStart(c: nat) returns (taken: bool)
      requires Valid() && c < |contexts|
      modifies `prepared, `contexts
      ensures (Model(), taken) == Cancel(old(Model()), c)
      ensures old(Slots(Model())) ==> Slots(Model())
    {
      hide Slots, InWindow;
      if Slots(Model()) { CancelSlots(Model(), c); }
      if prepared != Some(c) { return false; }
      prepared := None;
      contexts := contexts[c := contexts[c].(owned := false)];
      return true;
    }

    method SettlePreparedStart(c: nat) returns (out: Settlement)
      requires Valid() && c < |contexts|
      modifies `prepared, `contexts
      ensures (Model(), out) == Settle(old(Model()), c)
      ensures old(Slots(Model())) ==> Slots(Model())
    {
      hide Slots, InWindow;
      if Slots(Model()) { CancelSlots(Model(), c); }
      var row := contexts[c];
      if prepared == Some(c) && row.owned {
        prepared := None;
        contexts := contexts[c := row.(owned := false)];
        return CancelUncommitted;
      }
      if row.owned && (worker == Some(c) || (row.generation in stopping && stopping[row.generation] == c)) {
        return WakeCommitted;
      }
      return Untouched;
    }

    /** The completion section of `_perform_worker_registry` */
    method CommitRenewalOnce(c: nat, n: nat, ok: bool) returns (out: Renewal)
      requires Valid() && c < |contexts|
      modifies this
      ensures (Model(), out) == CommitRenewal(old(Model()), c, n, ok)
      ensures old(Slots(Model())) ==> Slots(Model()) && !out.reopened
    {
      hide Slots, InWindow;
      if Slots(Model()) { RenewalSlots(Model(), c, n, ok); }
      var current := !contexts[c].stop && worker == Some(c) && generation == contexts[c].generation;
      var accepted, reopened := false, false;
      if current && n > lastApplied {
        registered := ok;
        if ok {
          reopened := InvalidateSuccessfulCleanup(contexts[c].generation, None);
        }
        lastApplied := n;
        accepted := true;
      }
      out := Renewal(accepted, reopened, current);
    }

    method RequestLifecycleRemove() returns (operation: Option<nat>)
      requires Valid()
      modifies `coordination, `coordinations, `removeRequested, `pending, `operations
      ensures (Model(), operation) == RequestRemove(old(Model()))
      ensures old(Slots(Model()) && worker.None?) ==> Slots(Model())
    {
      hide Slots, InWindow;
      if Slots(Model()) && worker.None? { RequestSlots(Model()); }
      var g := generation;
      if coordination.Some? && coordinations[coordination.value].generation == g {
        var k := coordination.value;
        coordinations := coordinations[k := coordinations[k].(cleanupRequested := true)];
        operation := ReconcileRegisterCoordination(k);
        if operation.Some? { return operation; }
        if removed == Some(g) || coordinations[k].inflight > 0 { return None; }
      }
      if removed == Some(g) { return None; }
      if g == 0 && !registered { return None; }
      operation := EnsurePendingRemove(g);
    }

    method StopRegistry(remove: bool) returns (cancelled: Option<nat>, operation: Option<nat>)
      requires Valid()
      modifies this
      ensures (Model(), operation) == Stop(old(Model()), remove) && cancelled == old(prepared)
      ensures old(Slots(Model())) ==> Slots(Model())
    {
      hide Slots, InWindow;
      if Slots(Model()) { StopLocalSlots(Model()); }
      cancelled := prepared;
      prepared := None;
      StopLocally();
      operation := None;
      if remove {
        operation := RequestLifecycleRemove();
      }
    }

    /** The first section of `shutdown` */
    method ShutdownRegistry(deregister: bool) returns (cancelled: Option<nat>, target: nat, validate: bool)
      requires Valid()
      modifies this
      ensures (Model(), validate) == Shutdown(old(Model()), deregister)
      ensures cancelled == old(prepared) && target == old(generation)
      ensures old(Slots(Model())) ==> Slots(Model())
    {
      hide Slots, InWindow;
      if Slots(Model()) { ShutdownSlots(Model(), deregister); }
      cancelled := prepared;
      prepared := None;
      StopLocally();
      target := generation;
      var matching := coordination.Some? && coordinations[coordination.value].generation == target;
      var inflight := matching && coordinations[coordination.value].inflight > 0;
      if deregister && matching {
        var k := coordination.value;
        coordinations := coordinations[k := coordinations[k].(cleanupRequested := true)];
      }
      var required := target > 0 || registered;
      validate := deregister
                  && (inflight || (required && removed != Some(target) && removeRequested != Some(target)));
    }

    /** The second section of `shutdown` */
    method RequestShutdownRemove(target: nat) returns (operation: Option<nat>)
      requires Valid()
      modifies `coordination, `coordinations, `removeRequested, `pending, `operations
      ensures (Model(), operation) == ShutdownRemove(old(Model()), target)
      ensures old(Slots(Model()) && worker.None?) ==> Slots(Model())
    {
      hide Slots;
      operation := None;
      if generation == target {
        operation := RequestLifecycleRemove();
      }
    }

    method FinishWorker(c: nat) returns (claimed: Option<nat>)
      requires Valid() && c < |contexts|
      modifies `pending, `active, `stopping, `worker, `contexts
      ensures (Model(), claimed) == Finish(old(Model()), c)
      ensures old(Slots(Model()) && prepared != Some(c)) ==> Slots(Model())
    {
      hide Slots, InWindow;
      if Slots(Model()) && prepared != Some(c) { FinishSectionSlots(Model(), c); }
      var g := contexts[c].generation;
      claimed := None;
      if pending.Some? && operations[pending.value].generation == g && active.None? {
        claimed := pending;
        active := pending;
        pending := None;
      }
      if g in stopping && stopping[g] == c { stopping := stopping - {g}; }
      if worker == Some(c) { worker := None; }
      contexts := contexts[c := contexts[c].(owned := false)];
    }

    // -------------------------------------------------------------- Pending / Active scheduler

    method SchedulePendingRemove(alive: bool, thread: nat, started: bool) returns (out: Scheduling)
      requires Valid()
      modifies `pending, `operations, `coordination, `removeRequested
      ensures (Model(), out) == Schedule(old(Model()), alive, thread, started)
      ensures old(Slots(Model())) ==> Slots(Model())
    {
      hide Slots, InWindow;
      if Slots(Model()) { ScheduleSlots(Model(), alive, thread, started); }
      if active.Some? || pending.None? { return NothingToStart; }
      var o := pending.value;
      var g := operations[o].generation;
      if g in stopping { return NothingToStart; }
      if operations[o].thread.Some? && alive { return NothingToStart; }
      operations := operations[o := operations[o].(thread := Some(thread))];
      if started { return Started(o); }
      operations := operations[o := operations[o].(thread := None)];
      pending := None;
      operations := operations[o := operations[o].(result := Some(false))];
      assert operations == old(operations)[o := old(operations)[o].(thread := None, result := Some(false))];
      if coordination.Some? && coordinations[coordination.value].generation == g {
        var _ := ReconcileRegisterCoordination(coordination.value);
      }
      return StartFailed(o);
    }

    method ClaimPendingRemove(o: nat) returns (claimed: bool)
      requires Valid() && o < |operations|
      modifies `pending, `active
      ensures (Model(), claimed) == ActorClaim(old(Model()), o)
      ensures old(Slots(Model())) ==> Slots(Model())
    {
      hide Slots, InWindow;
      if Slots(Model()) { ClaimSlots(Model(), o); }
      claimed := active.None? && pending == Some(o);
      if claimed {
        pending := None;
        active := Some(o);
      }
    }

    method EndCleanupActor(o: nat, me: nat)
      requires Valid() && o < |operations|
      modifies `operations
      ensures Model() == ActorEnd(old(Model()), o, me)
      ensures old(Slots(Model())) ==> Slots(Model())
    {
      hide Slots, InWindow;
      if Slots(Model()) { ActorEndSlots(Model(), o, me); }
      if operations[o].thread == Some(me) {
        operations := operations[o := operations[o].(thread := None)];
      }
    }

    /** A Remove completion is accepted; with success it satisfies the cleanup of its own generation,
        unless a Worker has appeared, and cancels the Pending fallback. */
    method AcceptRemove(g: nat, n: nat, ok: bool) returns (satisfied: bool, cancelled: Option<nat>)
      requires Valid()
      modifies `registered, `lastApplied, `removeRequested, `removed, `removedResult, `pending
      ensures lastApplied == n && registered == (old(registered) && !ok)
      ensures satisfied == (ok && generation == g && worker.None?)
      ensures cancelled == if satisfied && old(pending).Some? && operations[old(pending).value].generation == g
                           then old(pending) else None
      ensures pending == if cancelled.Some? then None else old(pending)
      ensures (removeRequested, removed, removedResult) == if satisfied then (Some(g), Some(g), Some(ok))
                                                           else old((removeRequested, removed, removedResult))
    {
      if ok { registered := false; }
      lastApplied := n;
      satisfied := ok && generation == g && worker.None?;
      cancelled := None;
      if satisfied {
        removeRequested := Some(g);
        removed := Some(g);
        removedResult := Some(ok);
        if pending.Some? && operations[pending.value].generation == g {
          cancelled := pending;
          pending := None;
        }
      }
    }

    /** The completion up to the release of the Active slot */
    method ReleaseActive(o: nat, n: nat, ok: bool) returns (out: Completion)
      requires Valid() && o < |operations|
      modifies `operations, `registered, `lastApplied, `removeRequested, `removed, `removedResult, `pending, `active
      ensures (Model(), out) == Release(old(Model()), o, n, ok)
    {
      var g := operations[o].generation;
      operations := operations[o := operations[o].(result := Some(ok))];
      var accepted := active == Some(o) && n > lastApplied;
      var satisfied, cancelled := false, None;
      if accepted {
        satisfied, cancelled := AcceptRemove(g, n, ok);
      }
      if active == Some(o) { active := None; }
      out := Completion(accepted, satisfied, cancelled);
    }

    method CompleteRemoveOperation(o: nat, n: nat, ok: bool) returns (out: Completion)
      requires Valid() && o < |operations|
      modifies this
      ensures (Model(), out) == Complete(old(Model()), o, n, ok)
      ensures old(Slots(Model()) && active == Some(o)) ==> Slots(Model())
    {
      hide Slots, Reconcile;
      if Slots(Model()) && active == Some(o) { CompleteSlots(Model(), o, n, ok); }
      var g := operations[o].generation;
      out := ReleaseActive(o, n, ok);
      if coordination.Some? && coordinations[coordination.value].generation == g {
        var _ := ReconcileRegisterCoordination(coordination.value);
      }
    }
  }

  lemma RenewalSlots(sh: Shared, c: nat, n: nat, ok: bool)
    requires Slots(sh) && c < |sh.contexts|
    ensures Slots(CommitRenewal(sh, c, n, ok).0) && !CommitRenewal(sh, c, n, ok).1.reopened
  {
  }

  lemma ScheduleSlots(sh: Shared, alive: bool, thread: nat, started: bool)
    requires Slots(sh)
    ensures Slots(Schedule(sh, alive, thread, started).0)
  {
    if started {
      StartedSlots(sh, alive, thread);
    } else if Schedule(sh, alive, thread, false).1.StartFailed? {
      StartFailedEffect(sh, alive, thread);
    }
  }
}
