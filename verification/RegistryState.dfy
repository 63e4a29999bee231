/**
 * The Registry state one process keeps, and every `state_lock` critical section on it.
 *
 * Worker contexts, Remove operations and register coordinations are compared by identity in the
 * program, so each is a row of a table here and a reference is its row number.  A prepared start
 * and its context are created together and share one number.  A section is a function from the
 * state before the lock is taken to the state when it is released, with what the section hands to
 * the code after it.  `RegistryProcess.dfy` has the same sections as methods that update fields.
 */
module RegistryState {
  import opened Options

  /** One renewal lifecycle; `owned` says that `prepared_owner` is still its own prepared start. */
  datatype Context = Context(
    generation: nat,
    stop: bool,
    gate: bool,
    waitRemove: Option<nat>,
    owned: bool,
    thread: nat)

  /** One terminal or lifecycle Remove; an RPC result is reduced to its success flag. */
  datatype Operation = Operation(
    generation: nat,
    done: bool,
    result: Option<bool>,
    thread: Option<nat>)

  /** The window of explicit registers that overlap one generation's cleanup. */
  datatype Coordination = Coordination(
    generation: nat,
    inflight: nat,
    done: bool,
    cleanupRequested: bool)

  datatype Shared = Shared(
    generation: nat,
    removeRequested: Option<nat>,
    removed: Option<nat>,
    removedResult: Option<bool>,
    coordination: Option<nat>,
    prepared: Option<nat>,
    worker: Option<nat>,
    stopping: map<nat, nat>,
    pending: Option<nat>,
    active: Option<nat>,
    registered: bool,
    lastApplied: nat,
    contexts: seq<Context>,
    operations: seq<Operation>,
    coordinations: seq<Coordination>)

  const INITIAL: Shared :=
    Shared(0, None, None, None, None, None, None, map[], None, None, false, 0, [], [], [])

  /** Every reference held by a slot names a row. */
  predicate Bounded(sh: Shared) {
    && (sh.coordination.Some? ==> sh.coordination.value < |sh.coordinations|)
    && (sh.prepared.Some? ==> sh.prepared.value < |sh.contexts|)
    && (sh.worker.Some? ==> sh.worker.value < |sh.contexts|)
    && (sh.pending.Some? ==> sh.pending.value < |sh.operations|)
    && (sh.active.Some? ==> sh.active.value < |sh.operations|)
    && (forall g :: g in sh.stopping ==> sh.stopping[g] < |sh.contexts|)
  }

  // ---------------------------------------------------------------- snapshot

  datatype Source = FromWorker | FromRegister | FromRemove

  /** What one accepted completion does to the `registered` snapshot. */
  function Record(registered: bool, source: Source, ok: bool): bool {
    match source
    case FromWorker => ok
    case FromRegister => registered || ok
    case FromRemove => registered && !ok
  }

  predicate IsCurrentWorker(sh: Shared, c: nat)
    requires c < |sh.contexts|
  {
    sh.worker == Some(c) && sh.generation == sh.contexts[c].generation
  }

  /** The answer of `_worker_is_current`. */
  predicate Current(sh: Shared, c: nat)
    requires c < |sh.contexts|
  {
    !sh.contexts[c].stop && IsCurrentWorker(sh, c)
  }

  // ---------------------------------------------------------------- events

  function SetGate(sh: Shared, c: nat): Shared
    requires c < |sh.contexts|
  {
    sh.(contexts := sh.contexts[c := sh.contexts[c].(gate := true)])
  }

  function SetOperationDone(sh: Shared, o: nat): Shared
    requires o < |sh.operations|
  {
    sh.(operations := sh.operations[o := sh.operations[o].(done := true)])
  }

  function SetCoordinationDone(sh: Shared, k: nat): Shared
    requires k < |sh.coordinations|
  {
    sh.(coordinations := sh.coordinations[k := sh.coordinations[k].(done := true)])
  }

  // ---------------------------------------------------------------- register coordination

  datatype Joined = Joined(coordination: Option<nat>, generation: nat, detached: Option<nat>)

  /** `_join_register_coordination` */
  function Join(sh: Shared): (Shared, Joined)
    requires Bounded(sh)
  {
    var g := sh.generation;
    var stale := sh.coordination.Some? && sh.coordinations[sh.coordination.value].generation != g;
    var detached := if stale then sh.coordination else None;
    if sh.coordination.Some? && !stale then
      var k := sh.coordination.value;
      var row := sh.coordinations[k];
      if row.cleanupRequested then
        (sh, Joined(None, g, None))
      else
        (sh.(coordinations := sh.coordinations[k := row.(inflight := row.inflight + 1, done := false)]),
         Joined(Some(k), g, None))
    else
      var k := |sh.coordinations|;
      (sh.(coordination := Some(k),
           coordinations := sh.coordinations + [Coordination(g, 1, false, false)]),
       Joined(Some(k), g, detached))
  }

  /** `_invalidate_successful_cleanup_locked` */
  function Invalidate(sh: Shared, g: nat, k: Option<nat>): (r: (Shared, bool))
    requires Bounded(sh) && (k.Some? ==> k.value < |sh.coordinations|)
    ensures Bounded(r.0)
  {
    if sh.generation != g then
      (sh, false)
    else
      var installed := k.Some? && sh.coordination == k && sh.coordinations[k.value].generation == g;
      if sh.removed == Some(g) || (installed && (sh.coordinations[k.value].cleanupRequested || g == 0)) then
        (sh.(removed := None, removedResult := None, removeRequested := None), true)
      else
        (sh, false)
  }

  /** `_has_remove_for_generation_locked` */
  predicate HasRemove(sh: Shared, g: nat)
    requires Bounded(sh)
  {
    || (sh.active.Some? && sh.operations[sh.active.value].generation == g)
    || (sh.pending.Some? && sh.operations[sh.pending.value].generation == g)
  }

  /** `_ensure_pending_remove_locked` */
  function EnsurePending(sh: Shared, g: nat): (r: (Shared, Option<nat>))
    requires Bounded(sh)
    ensures Bounded(r.0)
  {
    if (g == 0 && !sh.registered) || sh.removed == Some(g) then
      (sh, None)
    else if sh.pending.Some? then
      if sh.operations[sh.pending.value].generation == g then
        (sh.(removeRequested := Some(g)), sh.pending)
      else
        (sh, None)
    else if sh.removeRequested == Some(g) then
      (sh, None)
    else
      var o := |sh.operations|;
      (sh.(removeRequested := Some(g), pending := Some(o),
           operations := sh.operations + [Operation(g, false, None, None)]),
       Some(o))
  }

  /** `_reconcile_register_coordination_locked` */
  function Reconcile(sh: Shared, k: nat): (r: (Shared, Option<nat>))
    requires Bounded(sh) && k < |sh.coordinations|
    ensures Bounded(r.0)
  {
    if sh.coordination != Some(k) then
      (sh, None)
    else
      var row := sh.coordinations[k];
      var g := row.generation;
      if sh.generation != g then
        (sh.(coordination := None), None)
      else if row.inflight != 0 then
        (sh, None)
      else
        var (sh1, operation) :=
          if row.cleanupRequested && (g > 0 || sh.registered) && sh.removed != Some(g)
          then EnsurePending(sh, g) else (sh, None);
        var finished := row.cleanupRequested && !HasRemove(sh1, g) && sh1.removeRequested == Some(g);
        if !row.cleanupRequested || sh1.removed == Some(g) || (g == 0 && !sh1.registered) || finished then
          (sh1.(coordination := None), operation)
        else
          (sh1, operation)
  }

  /** What a register completion does before it leaves its window; `late` records whether an accepted
      success met a cleanup request of its own installed window. */
  datatype Verdict = Verdict(accepted: bool, reopened: bool, late: bool)

  function ApplyRegister(sh: Shared, n: nat, ok: bool, g: nat, k: Option<nat>): (r: (Shared, Verdict))
    requires Bounded(sh) && (k.Some? ==> k.value < |sh.coordinations|)
    ensures Bounded(r.0) && r.0.coordinations == sh.coordinations
  {
    if n <= sh.lastApplied then
      (sh, Verdict(false, false, false))
    else
      var sh1 := sh.(registered := Record(sh.registered, FromRegister, ok), lastApplied := n);
      if ok && k.Some? && sh.generation == g
         && sh.coordinations[k.value].generation == g && sh.coordination == k then
        var (sh2, reopened) := Invalidate(sh1, g, k);
        (sh2, Verdict(true, reopened, sh.coordinations[k.value].cleanupRequested))
      else
        (sh1, Verdict(true, false, false))
  }

  /** A register leaves its window: the window whose event must be set, and the Remove to schedule. */
  datatype Departure = Departure(signal: Option<nat>, scheduled: Option<nat>)

  function Leave(sh: Shared, k: nat): (r: (Shared, Departure))
    requires Bounded(sh) && k < |sh.coordinations|
    ensures Bounded(r.0)
  {
    var row := sh.coordinations[k];
    var left := if row.inflight > 0 then row.inflight - 1 else 0;
    var (sh1, scheduled) := Reconcile(sh.(coordinations := sh.coordinations[k := row.(inflight := left)]), k);
    (sh1, Departure(if left == 0 then Some(k) else None, scheduled))
  }

  /** `_commit_one_shot` for a register: `g` and `k` are what the caller joined with. */
  function CommitRegister(sh: Shared, n: nat, ok: bool, g: nat, k: Option<nat>): (r: (Shared, Verdict, Departure))
    requires Bounded(sh) && (k.Some? ==> k.value < |sh.coordinations|)
    ensures Bounded(r.0)
  {
    var (sh1, applied) := ApplyRegister(sh, n, ok, g, k);
    if k.None? then
      (sh1, applied, Departure(None, None))
    else
      var (sh2, left) := Leave(sh1, k.value);
      (sh2, applied, left)
  }

  /** `_commit_one_shot` for a Remove outside the terminal path. */
  function CommitOneShotRemove(sh: Shared, n: nat, ok: bool): (Shared, bool) {
    if n > sh.lastApplied then
      (sh.(registered := Record(sh.registered, FromRemove, ok), lastApplied := n), true)
    else
      (sh, false)
  }

  // ---------------------------------------------------------------- terminal Remove

  datatype Decision =
    | OneShot
    | Cached(ok: bool)
    | Owned(operation: nat)
    | WaitRegisters(coordination: nat)
    | WaitSameActive(operation: nat)
    | WaitSamePending(operation: nat)
    | WaitOther(operation: nat)

  /** One turn of the loop in `_terminal_remove_result` */
  function Terminal(sh: Shared, g: nat): (Shared, Decision)
    requires Bounded(sh)
  {
    if sh.generation != g || sh.worker.Some? then
      (sh, OneShot)
    else if sh.coordination.Some?
         && sh.coordinations[sh.coordination.value].generation == g
         && sh.coordinations[sh.coordination.value].inflight > 0 then
      (sh, WaitRegisters(sh.coordination.value))
    else if sh.removed == Some(g) && sh.removedResult.Some? then
      (sh, Cached(sh.removedResult.value))
    else if sh.active.Some? then
      if sh.operations[sh.active.value].generation == g then (sh, WaitSameActive(sh.active.value))
      else (sh, WaitOther(sh.active.value))
    else if sh.pending.Some? then
      if sh.operations[sh.pending.value].generation == g then (sh, WaitSamePending(sh.pending.value))
      else (sh, WaitOther(sh.pending.value))
    else
      var o := |sh.operations|;
      (sh.(active := Some(o), operations := sh.operations + [Operation(g, false, None, None)]), Owned(o))
  }

  // ---------------------------------------------------------------- renewal lifecycle

  /** `_prepare_start`: `thread` is the thread about to be started and `started` its outcome. */
  function Prepare(sh: Shared, thread: nat, started: bool): (Shared, Option<nat>)
    requires Bounded(sh)
  {
    if sh.worker.Some? && IsCurrentWorker(sh, sh.worker.value) then
      (sh, None)
    else if sh.prepared.Some? then
      (sh, None)
    else if !started then
      (sh, None)
    else
      var c := |sh.contexts|;
      (sh.(prepared := Some(c),
           contexts := sh.contexts + [Context(sh.generation + 1, false, false, None, true, thread)]),
       Some(c))
  }

  datatype Activation =
    | NotOwner
    | OwnerMismatch
    | GenerationMismatch
    | WorkerAppeared
    | Activated(cancelled: Option<nat>, detached: Option<nat>)

  /** Move the Worker slot to the stopping map, as `_stop_local_locked` does. */
  function StopLocal(sh: Shared): (r: Shared)
    requires Bounded(sh)
    ensures Bounded(r)
  {
    if sh.worker.None? then
      sh
    else
      var c := sh.worker.value;
      sh.(worker := None,
          stopping := sh.stopping[sh.contexts[c].generation := c],
          contexts := sh.contexts[c := sh.contexts[c].(stop := true)])
  }

  /** `_activate_prepared_start`, with its defensive repair of a Worker that is no longer current. */
  function Activate(sh: Shared, c: nat): (Shared, Activation)
    requires Bounded(sh) && c < |sh.contexts|
  {
    if sh.prepared != Some(c) then
      (sh, NotOwner)
    else if !sh.contexts[c].owned then
      (sh, OwnerMismatch)
    else if sh.contexts[c].generation != sh.generation + 1 then
      (sh, GenerationMismatch)
    else if sh.worker.Some? && IsCurrentWorker(sh, sh.worker.value) then
      (sh, WorkerAppeared)
    else
      var repaired := StopLocal(sh);
      var row := repaired.contexts[c];
      (repaired.(generation := row.generation,
                 worker := Some(c),
                 prepared := None,
                 coordination := None,
                 pending := None,
                 contexts := if sh.active.Some?
                             then repaired.contexts[c := row.(waitRemove := sh.active)]
                             else repaired.contexts),
       Activated(sh.pending, sh.coordination))
  }

  /** `_cancel_prepared_start` */
  function Cancel(sh: Shared, c: nat): (Shared, bool)
    requires Bounded(sh) && c < |sh.contexts|
  {
    if sh.prepared != Some(c) then
      (sh, false)
    else
      (sh.(prepared := None, contexts := sh.contexts[c := sh.contexts[c].(owned := false)]), true)
  }

  datatype Settlement = CancelUncommitted | WakeCommitted | Untouched

  /** `_settle_prepared_after_publish_failure` */
  function Settle(sh: Shared, c: nat): (Shared, Settlement)
    requires Bounded(sh) && c < |sh.contexts|
  {
    var row := sh.contexts[c];
    if sh.prepared == Some(c) && row.owned then
      (sh.(prepared := None, contexts := sh.contexts[c := row.(owned := false)]), CancelUncommitted)
    else if row.owned && (sh.worker == Some(c) || Stopping(sh, c)) then
      (sh, WakeCommitted)
    else
      (sh, Untouched)
  }

  /** `state.stopping_workers.get(ctx.generation) is ctx` */
  predicate Stopping(sh: Shared, c: nat)
    requires c < |sh.contexts|
  {
    var g := sh.contexts[c].generation;
    g in sh.stopping && sh.stopping[g] == c
  }

  /** The completion section of `_perform_worker_registry` */
  datatype Renewal = Renewal(accepted: bool, reopened: bool, current: bool)

  function CommitRenewal(sh: Shared, c: nat, n: nat, ok: bool): (r: (Shared, Renewal))
    requires Bounded(sh) && c < |sh.contexts|
    ensures Bounded(r.0)
  {
    if !Current(sh, c) then
      (sh, Renewal(false, false, false))
    else if n <= sh.lastApplied then
      (sh, Renewal(false, false, true))
    else
      var sh1 := sh.(registered := Record(sh.registered, FromWorker, ok));
      var (sh2, reopened) := if ok then Invalidate(sh1, sh.contexts[c].generation, None) else (sh1, false);
      (sh2.(lastApplied := n), Renewal(true, reopened, true))
  }

  /** `_request_remove_locked` */
  function RequestRemove(sh: Shared): (r: (Shared, Option<nat>))
    requires Bounded(sh)
    ensures Bounded(r.0)
  {
    var g := sh.generation;
    if sh.coordination.Some? && sh.coordinations[sh.coordination.value].generation == g then
      var k := sh.coordination.value;
      var sh1 := sh.(coordinations := sh.coordinations[k := sh.coordinations[k].(cleanupRequested := true)]);
      var (sh2, operation) := Reconcile(sh1, k);
      if operation.Some? then
        (sh2, operation)
      else if sh2.removed == Some(g) || sh2.coordinations[k].inflight > 0 then
        (sh2, None)
      else
        RequestUncoordinated(sh2)
    else
      RequestUncoordinated(sh)
  }

  /** The tail of `_request_remove_locked`, after any coordination has been consulted. */
  function RequestUncoordinated(sh: Shared): (r: (Shared, Option<nat>))
    requires Bounded(sh)
    ensures Bounded(r.0)
  {
    var g := sh.generation;
    if sh.removed == Some(g) || (g == 0 && !sh.registered) then (sh, None)
    else EnsurePending(sh, g)
  }

  /** The section of `stop`; the prepared start it takes is the one in the slot before. */
  function Stop(sh: Shared, remove: bool): (Shared, Option<nat>)
    requires Bounded(sh)
  {
    var sh1 := StopLocal(sh.(prepared := None));
    if remove then RequestRemove(sh1) else (sh1, None)
  }

  /** The first section of `shutdown`: the new state and whether a Remove must be requested. */
  function Shutdown(sh: Shared, deregister: bool): (Shared, bool)
    requires Bounded(sh)
  {
    var g := sh.generation;
    var sh1 := StopLocal(sh.(prepared := None));
    var matching := sh.coordination.Some? && sh.coordinations[sh.coordination.value].generation == g;
    var sh2 :=
      if deregister && matching then
        var k := sh.coordination.value;
        sh1.(coordinations := sh1.coordinations[k := sh1.coordinations[k].(cleanupRequested := true)])
      else sh1;
    var inflight := matching && sh.coordinations[sh.coordination.value].inflight > 0;
    var required := g > 0 || sh.registered;
    (sh2, deregister && (inflight || (required && sh.removed != Some(g) && sh.removeRequested != Some(g))))
  }

  /** The second section of `shutdown`, after its configuration has been validated. */
  function ShutdownRemove(sh: Shared, target: nat): (Shared, Option<nat>)
    requires Bounded(sh)
  {
    if sh.generation == target then RequestRemove(sh) else (sh, None)
  }

  /** `_finish_worker`: the claimed Remove, if any. */
  function Finish(sh: Shared, c: nat): (Shared, Option<nat>)
    requires Bounded(sh) && c < |sh.contexts|
  {
    var row := sh.contexts[c];
    var claims := sh.pending.Some? && sh.operations[sh.pending.value].generation == row.generation && sh.active.None?;
    (sh.(pending := if claims then None else sh.pending,
         active := if claims then sh.pending else sh.active,
         stopping := if Stopping(sh, c) then sh.stopping - {row.generation} else sh.stopping,
         worker := if sh.worker == Some(c) then None else sh.worker,
         contexts := sh.contexts[c := row.(owned := false)]),
     if claims then sh.pending else None)
  }

  // ---------------------------------------------------------------- Pending / Active scheduler

  datatype Scheduling = NothingToStart | Started(operation: nat) | StartFailed(operation: nat)

  /** The section of `_schedule_pending_remove`.  `alive` answers for the actor already bound to the
      Pending Remove; `thread` is the actor about to be started and `started` its outcome. */
  function Schedule(sh: Shared, alive: bool, thread: nat, started: bool): (r: (Shared, Scheduling))
    requires Bounded(sh)
    ensures Bounded(r.0)
  {
    if sh.active.Some? || sh.pending.None? then
      (sh, NothingToStart)
    else
      var o := sh.pending.value;
      var row := sh.operations[o];
      if row.generation in sh.stopping || (row.thread.Some? && alive) then
        (sh, NothingToStart)
      else if started then
        (sh.(operations := sh.operations[o := row.(thread := Some(thread))]), Started(o))
      else
        var sh1 := sh.(pending := None,
                       operations := sh.operations[o := row.(thread := None, result := Some(false))]);
        if sh.coordination.Some? && sh.coordinations[sh.coordination.value].generation == row.generation then
          (Reconcile(sh1, sh.coordination.value).0, StartFailed(o))
        else
          (sh1, StartFailed(o))
  }

  /** The claim section of `_run_cleanup_actor` */
  function ActorClaim(sh: Shared, o: nat): (Shared, bool) {
    if sh.active.None? && sh.pending == Some(o) then (sh.(pending := None, active := Some(o)), true)
    else (sh, false)
  }

  /** The `finally` section of `_run_cleanup_actor` */
  function ActorEnd(sh: Shared, o: nat, me: nat): Shared
    requires o < |sh.operations|
  {
    if sh.operations[o].thread == Some(me)
    then sh.(operations := sh.operations[o := sh.operations[o].(thread := None)])
    else sh
  }

  datatype Completion = Completion(accepted: bool, satisfied: bool, cancelled: Option<nat>)

  /** `_complete_remove_operation`, up to the release of the Active slot. */
  function Release(sh: Shared, o: nat, n: nat, ok: bool): (r: (Shared, Completion))
    requires Bounded(sh) && o < |sh.operations|
    ensures Bounded(r.0)
  {
    var g := sh.operations[o].generation;
    var owns := sh.active == Some(o);
    var accepted := owns && n > sh.lastApplied;
    var satisfied := accepted && ok && sh.generation == g && sh.worker.None?;
    var cancels := satisfied && sh.pending.Some? && sh.operations[sh.pending.value].generation == g;
    (sh.(operations := sh.operations[o := sh.operations[o].(result := Some(ok))],
         registered := if accepted then Record(sh.registered, FromRemove, ok) else sh.registered,
         lastApplied := if accepted then n else sh.lastApplied,
         removeRequested := if satisfied then Some(g) else sh.removeRequested,
         removed := if satisfied then Some(g) else sh.removed,
         removedResult := if satisfied then Some(ok) else sh.removedResult,
         pending := if cancels then None else sh.pending,
         active := if owns then None else sh.active),
     Completion(accepted, satisfied, if cancels then sh.pending else None))
  }

  /** `_complete_remove_operation` */
  function Complete(sh: Shared, o: nat, n: nat, ok: bool): (r: (Shared, Completion))
    requires Bounded(sh) && o < |sh.operations|
    ensures Bounded(r.0)
  {
    var (sh1, out) := Release(sh, o, n, ok);
    if sh.coordination.Some?
       && sh.coordinations[sh.coordination.value].generation == sh.operations[o].generation then
      (Reconcile(sh1, sh.coordination.value).0, out)
    else
      (sh1, out)
  }
}
