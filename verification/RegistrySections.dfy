/**
 * What each `state_lock` section does once the slots are consistent: it keeps them so, and most of
 * its branches turn out to be impossible or to have a simpler effect than its code allows for.
 */
module RegistrySections {
  import opened Options
  import opened RegistryState
  import opened RegistryInvariant

  // ---------------------------------------------------------------- requesting a Remove

  /** The rows agree except that cleanup may have been requested. */
  ghost predicate SameWindows(a: seq<Coordination>, b: seq<Coordination>) {
    && |a| == |b|
    && forall k :: 0 <= k < |a| ==>
         && b[k] == a[k].(cleanupRequested := b[k].cleanupRequested)
         && (a[k].cleanupRequested ==> b[k].cleanupRequested)
  }

  /** The window in the slot stays, or an empty one is removed. */
  ghost predicate WindowStaysOrEnds(sh: Shared, sh': Shared)
    requires Bounded(sh)
  {
    || sh'.coordination == sh.coordination
    || (sh'.coordination.None? && sh.coordination.Some? && sh.coordinations[sh.coordination.value].inflight == 0)
  }

  /** A section created the Pending Remove `|sh.operations|` of the current generation. */
  ghost predicate CreatesPending(sh: Shared, sh': Shared) {
    && sh.pending.None?
    && sh.removeRequested != Some(sh.generation)
    && sh.removed != Some(sh.generation)
    && sh'.pending == Some(|sh.operations|)
    && sh'.operations == sh.operations + [Operation(sh.generation, false, None, None)]
    && sh'.removeRequested == Some(sh.generation)
  }

  ghost predicate SameOperations(sh: Shared, sh': Shared) {
    sh'.operations == sh.operations && sh'.pending == sh.pending
    && (sh'.removeRequested == sh.removeRequested || sh'.removeRequested == Some(sh.generation))
  }

  /** A request for a Remove: an empty window never creates one, and a full one postpones it. */
  lemma RequestEffect(sh: Shared)
    requires Slots(sh) && sh.worker.None?
    ensures
      var (sh', operation) := RequestRemove(sh);
      && sh' == sh.(coordination := sh'.coordination, coordinations := sh'.coordinations,
                    pending := sh'.pending, operations := sh'.operations, removeRequested := sh'.removeRequested)
      && SameWindows(sh.coordinations, sh'.coordinations)
      && WindowStaysOrEnds(sh, sh')
      && (sh'.coordination != sh.coordination ==> sh.generation == 0 && !sh.registered)
      && (SameOperations(sh, sh') || (sh.coordination.None? && CreatesPending(sh, sh') && operation == sh'.pending))
      && (sh.coordination.Some? && sh.coordinations[sh.coordination.value].inflight > 0 ==>
            SameOperations(sh, sh') && sh'.removeRequested == sh.removeRequested)
  {
    if sh.coordination.Some? {
      RequestInWindow(sh, sh.coordination.value);
    }
  }

  lemma RequestSlots(sh: Shared)
    requires Slots(sh) && sh.worker.None?
    ensures Slots(RequestRemove(sh).0)
  {
    if sh.coordination.Some? {
      RequestInWindow(sh, sh.coordination.value);
    }
  }

  lemma RequestInWindow(sh: Shared, k: nat)
    requires Slots(sh) && sh.worker.None? && sh.coordination == Some(k)
    ensures
      var sh1 := sh.(coordinations := sh.coordinations[k := sh.coordinations[k].(cleanupRequested := true)]);
      var ended := sh.coordinations[k].inflight == 0 && sh.generation == 0 && !sh.registered;
      RequestRemove(sh).0 == if ended then sh1.(coordination := None) else sh1
  {
    var sh1 := sh.(coordinations := sh.coordinations[k := sh.coordinations[k].(cleanupRequested := true)]);
    if sh.coordinations[k].inflight == 0 {
      assert sh.removed != Some(sh.generation);
      assert HasRemove(sh1, sh.generation);
    }
  }

  /** The slots that `stop` and `shutdown` empty. */
  lemma StopLocalSlots(sh: Shared)
    requires Slots(sh)
    ensures
      var sh' := StopLocal(sh.(prepared := None));
      && Slots(sh') && sh'.worker.None? && sh'.prepared.None?
      && sh' == sh.(prepared := None, worker := None, stopping := sh'.stopping, contexts := sh'.contexts)
  {
  }

  lemma ShutdownSlots(sh: Shared, deregister: bool)
    requires Slots(sh)
    ensures
      var sh1 := StopLocal(sh.(prepared := None));
      var sh' := Shutdown(sh, deregister).0;
      && Slots(sh')
      && sh' == sh1.(coordinations := sh'.coordinations)
      && SameWindows(sh.coordinations, sh'.coordinations)
  {
    StopLocalSlots(sh);
  }

  // ---------------------------------------------------------------- register windows

  /** A window in the slot always belongs to the current generation, so nothing is ever detached. */
  lemma JoinEffect(sh: Shared)
    requires Slots(sh)
    ensures
      var (sh', out) := Join(sh);
      && out.detached.None? && out.generation == sh.generation
      && sh' == sh.(coordination := sh'.coordination, coordinations := sh'.coordinations)
      && (out.coordination.None? ==> sh' == sh)
      && (out.coordination.Some? ==> Joins(sh, sh', out.coordination.value))
  {
  }

  ghost predicate Joins(sh: Shared, sh': Shared, k: nat)
    requires Bounded(sh)
  {
    && sh'.coordination == Some(k)
    && if sh.coordination.Some?
       then k == sh.coordination.value
            && sh.coordinations[k].inflight > 0
            && sh'.coordinations == sh.coordinations[k := sh.coordinations[k].(
                 inflight := sh.coordinations[k].inflight + 1, done := false)]
       else k == |sh.coordinations|
            && sh'.coordinations == sh.coordinations + [Coordination(sh.generation, 1, false, false)]
  }

  lemma JoinSlots(sh: Shared)
    requires Slots(sh)
    ensures Slots(Join(sh).0)
  {
    JoinEffect(sh);
    hide Join;
  }

  /** What a register must have kept since it joined. */
  ghost predicate InWindow(sh: Shared, g: nat, k: nat) {
    && k < |sh.coordinations|
    && sh.coordinations[k].inflight > 0
    && sh.coordinations[k].generation == g <= sh.generation
    && (g == sh.generation ==> sh.coordination == Some(k))
  }

  /** A completion reopens the responsibility of its own installed window only. */
  lemma ApplyEffect(sh: Shared, n: nat, ok: bool, g: nat, k: Option<nat>)
    requires Slots(sh) && (k.Some? ==> InWindow(sh, g, k.value))
    ensures
      var (sh', out) := ApplyRegister(sh, n, ok, g, k);
      && out.accepted == (n > sh.lastApplied)
      && Bounded(sh')
      && sh' == sh.(registered := sh'.registered, lastApplied := sh'.lastApplied, removed := sh'.removed,
                    removedResult := sh'.removedResult, removeRequested := sh'.removeRequested)
      && sh'.registered == (if out.accepted then Record(sh.registered, FromRegister, ok) else sh.registered)
      && sh'.lastApplied == (if out.accepted then n else sh.lastApplied)
      && (out.reopened ==> sh'.removed.None? && sh'.removedResult.None? && sh'.removeRequested.None?)
      && (!out.reopened ==> sh'.removed == sh.removed && sh'.removedResult == sh.removedResult
                            && sh'.removeRequested == sh.removeRequested)
      && (out.late ==> out.reopened && ok && out.accepted && k.Some? && sh.coordination == k
                       && sh.coordinations[k.value].cleanupRequested)
      && (out.accepted && ok && k.Some? && g == sh.generation ==>
            sh'.removed != Some(g) && out.late == sh.coordinations[k.value].cleanupRequested)
      && (out.reopened <==> out.accepted && ok && g == sh.generation && k.Some? && sh.coordination == k
                            && (sh.removed == Some(g) || sh.coordinations[k.value].cleanupRequested || g == 0))
  {
  }

  /** A register that leaves others behind in its window, or a window of an older generation. */
  lemma LeaveEarly(sh: Shared, k: nat)
    requires Bounded(sh) && k < |sh.coordinations| && sh.coordinations[k].inflight > 0
    requires sh.coordination == Some(k) ==>
               sh.coordinations[k].inflight > 1 && sh.coordinations[k].generation == sh.generation
    ensures Leave(sh, k).0 == sh.(coordinations := sh.coordinations[k := sh.coordinations[k].(
                                    inflight := sh.coordinations[k].inflight - 1)])
    ensures Leave(sh, k).1.scheduled.None?
    ensures Leave(sh, k).1.signal == if sh.coordinations[k].inflight == 1 then Some(k) else None
  {
  }

  /** The last register of the installed window decides what becomes of it. */
  lemma LeaveLast(sh: Shared, k: nat)
    requires Bounded(sh) && sh.coordination == Some(k) && sh.coordinations[k].inflight == 1
    requires sh.coordinations[k].generation == sh.generation
    requires sh.pending.Some? ==> sh.operations[sh.pending.value].generation == sh.generation
    requires sh.removed == Some(sh.generation) ==> sh.pending.None? && sh.active.None?
    ensures
      var (sh', out) := Leave(sh, k);
      var g := sh.generation;
      var wanted := sh.coordinations[k].cleanupRequested && (g > 0 || sh.registered) && sh.removed != Some(g);
      var creates := wanted && sh.pending.None? && sh.removeRequested != Some(g);
      && Bounded(sh')
      && out.signal == Some(k)
      && sh' == sh.(coordination := sh'.coordination, removeRequested := sh'.removeRequested, pending := sh'.pending,
                    operations := sh'.operations,
                    coordinations := sh.coordinations[k := sh.coordinations[k].(inflight := 0)])
      && (creates ==> CreatesPending(sh, sh') && out.scheduled == sh'.pending)
      && (!creates ==> SameOperations(sh, sh') && (out.scheduled.Some? ==> sh.pending.Some?))
      && (sh'.coordination == Some(k) || sh'.coordination.None?)
      && (sh'.coordination == Some(k) <==> wanted && HasRemove(sh', g))
      && (sh'.coordination == Some(k) ==> sh'.removeRequested == Some(g))
      && (wanted && sh.removeRequested != Some(g) ==> sh'.coordination == Some(k) && sh'.pending.Some?)
  {
  }

  lemma ApplySlots(sh: Shared, n: nat, ok: bool, g: nat, k: Option<nat>)
    requires Slots(sh) && (k.Some? ==> InWindow(sh, g, k.value))
    ensures Slots(ApplyRegister(sh, n, ok, g, k).0)
  {
    ApplyEffect(sh, n, ok, g, k);
    hide ApplyRegister;
  }

  lemma LeaveSlots(sh: Shared, g: nat, k: nat)
    requires Slots(sh) && InWindow(sh, g, k)
    ensures Slots(Leave(sh, k).0)
  {
    if g == sh.generation && sh.coordinations[k].inflight == 1 {
      LeaveLast(sh, k);
    } else {
      LeaveEarly(sh, k);
    }
    hide Leave;
  }

  lemma CommitSlots(sh: Shared, n: nat, ok: bool, g: nat, k: Option<nat>)
    requires Slots(sh) && (k.Some? ==> InWindow(sh, g, k.value))
    ensures Slots(CommitRegister(sh, n, ok, g, k).0)
  {
    ApplySlots(sh, n, ok, g, k);
    if k.Some? {
      ApplyEffect(sh, n, ok, g, k);
      hide ApplyRegister, Slots;
      LeaveSlots(ApplyRegister(sh, n, ok, g, k).0, g, k.value);
    }
  }

  /** The effect of a register completion on its window and on the cleanup the window owes. */
  ghost predicate Commits(sh: Shared, sh': Shared, n: nat, ok: bool, g: nat, k: nat, out: Verdict, left: Departure)
    requires Bounded(sh) && k < |sh.coordinations|
  {
    var row := sh.coordinations[k];
    var last := row.inflight == 1;
    var installed := sh.coordination == Some(k);
    var created := |sh'.operations| == |sh.operations| + 1;
    && Bounded(sh')
    && row.inflight > 0
    && out.accepted == (n > sh.lastApplied)
    && (out.late ==> out.accepted && ok && installed && out.reopened)
    && (out.accepted && ok && g == sh.generation ==> sh'.removed != Some(g) && out.late == row.cleanupRequested)
    && (out.reopened <==> out.accepted && ok && installed && g == sh.generation
                          && (sh.removed == Some(g) || row.cleanupRequested || g == 0))
    && sh' == sh.(registered := if out.accepted then Record(sh.registered, FromRegister, ok) else sh.registered,
                  lastApplied := if out.accepted then n else sh.lastApplied,
                  removed := if out.reopened then None else sh.removed,
                  removedResult := sh'.removedResult, removeRequested := sh'.removeRequested,
                  pending := sh'.pending, operations := sh'.operations, coordination := sh'.coordination,
                  coordinations := sh.coordinations[k := row.(inflight := row.inflight - 1)])
    && left.signal == (if last then Some(k) else None)
    && (!installed ==> !out.reopened && sh'.removeRequested == sh.removeRequested)
    && (sh'.coordination == sh.coordination || (sh'.coordination.None? && installed && last))
    && (if created
        then && installed && last && sh.pending.None?
             && sh'.pending == Some(|sh.operations|) && left.scheduled == sh'.pending
             && sh'.operations == sh.operations + [Operation(sh.generation, false, None, None)]
             && sh'.removeRequested == Some(sh.generation)
             && (out.reopened || sh.removeRequested != Some(sh.generation))
        else && sh'.operations == sh.operations && sh'.pending == sh.pending
             && (out.reopened || sh'.removeRequested == sh.removeRequested
                 || sh'.removeRequested == Some(sh.generation)))
  }

  /** The cleanup a window owes survives the completions of its own registers. */
  ghost predicate OwesOn(sh: Shared, sh': Shared, k: nat, out: Verdict)
    requires Bounded(sh) && k < |sh.coordinations|
  {
    var row := sh.coordinations[k];
    var g := sh.generation;
    var free := sh'.removeRequested != Some(g) && sh'.removed != Some(g);
    && (out.late ==> sh'.coordination == Some(k) && (sh'.pending.Some? || (row.inflight > 1 && free)))
    && (!out.late && sh.coordination == Some(k) && row.cleanupRequested && (g > 0 || sh'.registered) ==>
          && (sh.pending.Some? ==> sh'.coordination == Some(k) && sh'.pending.Some?)
          && (sh.active.Some? && sh.operations[sh.active.value].generation == g ==> sh'.coordination == Some(k))
          && (sh.removeRequested != Some(g) && sh.removed != Some(g) ==>
                sh'.coordination == Some(k) && (sh'.pending.Some? || (row.inflight > 1 && free))))
    && (!out.late && sh.coordination == Some(k) && row.cleanupRequested && row.inflight > 1 ==>
          && sh'.coordination == sh.coordination && sh'.pending == sh.pending
          && (sh.removeRequested != Some(g) && sh.removed != Some(g) ==> free))
  }

  lemma CommitEffect(sh: Shared, n: nat, ok: bool, g: nat, k: nat)
    requires Slots(sh) && InWindow(sh, g, k)
    ensures
      var (sh', out, left) := CommitRegister(sh, n, ok, g, Some(k));
      Commits(sh, sh', n, ok, g, k, out, left)
  {
    ApplyEffect(sh, n, ok, g, Some(k));
    ApplySlots(sh, n, ok, g, Some(k));
    var sh1 := ApplyRegister(sh, n, ok, g, Some(k)).0;
    hide ApplyRegister;
    if g == sh.generation && sh.coordinations[k].inflight == 1 {
      LeaveLast(sh1, k);
    } else {
      LeaveEarly(sh1, k);
    }
    hide Leave, Slots;
  }

  lemma CommitOwes(sh: Shared, n: nat, ok: bool, g: nat, k: nat)
    requires Slots(sh) && InWindow(sh, g, k)
    ensures
      var (sh', out, left) := CommitRegister(sh, n, ok, g, Some(k));
      OwesOn(sh, sh', k, out)
  {
    ApplyEffect(sh, n, ok, g, Some(k));
    ApplySlots(sh, n, ok, g, Some(k));
    var sh1 := ApplyRegister(sh, n, ok, g, Some(k)).0;
    hide ApplyRegister;
    if g == sh.generation && sh.coordinations[k].inflight == 1 {
      LeaveLast(sh1, k);
    } else {
      LeaveEarly(sh1, k);
    }
    hide Leave;
  }

  // ---------------------------------------------------------------- the Pending and Active slots

  /** The completion of the Active Remove creates none, and a window ends only if the Pending fallback
      is gone with it. */
  lemma CompleteEffect(sh: Shared, o: nat, n: nat, ok: bool)
    requires Slots(sh) && sh.active == Some(o)
    ensures
      var (sh', out) := Complete(sh, o, n, ok);
      && out == Release(sh, o, n, ok).1
      && sh' == Release(sh, o, n, ok).0.(coordination := sh'.coordination)
      && (if sh'.coordination == sh.coordination then CleanupStays(sh, sh', o) else CleanupEnds(sh, sh', o, out))
  {
    var (sh1, out) := Release(sh, o, n, ok);
    if sh.coordination.Some? && sh.coordinations[sh.coordination.value].inflight == 0
       && sh.operations[o].generation == sh.generation {
      var k := sh.coordination.value;
      assert sh1.removeRequested == Some(sh.generation);
    }
  }

  ghost predicate CleanupStays(sh: Shared, sh': Shared, o: nat)
    requires Bounded(sh) && o < |sh.operations|
  {
    sh.coordination.Some? && sh.coordinations[sh.coordination.value].inflight == 0 ==> sh'.pending.Some?
  }

  /** What a completion does to the operations and their slots. */
  lemma CompleteSlotsOnly(sh: Shared, o: nat, n: nat, ok: bool)
    requires Slots(sh) && sh.active == Some(o)
    ensures
      var (sh', out) := Complete(sh, o, n, ok);
      && sh'.operations == sh.operations[o := sh.operations[o].(result := Some(ok))]
      && sh'.active.None?
      && sh'.pending == (if out.cancelled.Some? then None else sh.pending)
      && (out.cancelled.Some? ==> out.cancelled == sh.pending && sh'.removed == Some(sh.generation))
      && sh'.generation == sh.generation && sh'.contexts == sh.contexts && sh'.coordinations == sh.coordinations
      && sh'.prepared == sh.prepared && Bounded(sh')
  {
    CompleteEffect(sh, o, n, ok);
    hide Complete;
  }

  lemma CompleteSlots(sh: Shared, o: nat, n: nat, ok: bool)
    requires Slots(sh) && sh.active == Some(o)
    ensures Slots(Complete(sh, o, n, ok).0)
  {
    CompleteEffect(sh, o, n, ok);
    hide Complete;
  }

  /** An empty window ends with the Active Remove of its generation. */
  ghost predicate CleanupEnds(sh: Shared, sh': Shared, o: nat, out: Completion)
    requires Bounded(sh) && o < |sh.operations|
  {
    && sh'.coordination.None?
    && sh.coordination.Some?
    && sh.coordinations[sh.coordination.value].inflight == 0
    && sh.operations[o].generation == sh.generation
    && (sh.pending.None? || out.satisfied || (sh.generation == 0 && !sh'.registered))
  }

  /** A cleanup thread that fails to start takes its Pending Remove with it. */
  lemma StartFailedEffect(sh: Shared, alive: bool, thread: nat)
    requires Slots(sh) && Schedule(sh, alive, thread, false).1.StartFailed?
    ensures
      var (sh', out) := Schedule(sh, alive, thread, false);
      var o := out.operation;
      && Slots(sh')
      && sh.pending == Some(o) && sh.active.None?
      && sh' == sh.(pending := None, coordination := sh'.coordination,
                    operations := sh.operations[o := sh.operations[o].(thread := None, result := Some(false))])
      && WindowStaysOrEnds(sh, sh')
  {
    var o := sh.pending.value;
    var sh1 := sh.(pending := None,
                   operations := sh.operations[o := sh.operations[o].(thread := None, result := Some(false))]);
    if sh.coordination.Some? && sh.coordinations[sh.coordination.value].inflight == 0 {
      assert Reconcile(sh1, sh.coordination.value).0 == sh1.(coordination := None);
    }
  }

  lemma StartedSlots(sh: Shared, alive: bool, thread: nat)
    requires Slots(sh)
    ensures Slots(Schedule(sh, alive, thread, true).0)
  {
  }

  lemma ClaimSlots(sh: Shared, o: nat)
    requires Slots(sh) && o < |sh.operations|
    ensures Slots(ActorClaim(sh, o).0)
  {
  }

  lemma ActorEndSlots(sh: Shared, o: nat, me: nat)
    requires Slots(sh) && o < |sh.operations|
    ensures Slots(ActorEnd(sh, o, me))
  {
  }

  /** The terminal path takes the Active slot only when both slots are empty and no window is open. */
  lemma TerminalSlots(sh: Shared, g: nat)
    requires Slots(sh)
    ensures Slots(Terminal(sh, g).0)
    ensures Terminal(sh, g).1.Owned? ==> sh.active.None? && sh.pending.None? && sh.worker.None? && g == sh.generation
    ensures Terminal(sh, g).1.WaitOther? ==> sh.active == Some(Terminal(sh, g).1.operation)
  {
  }

  // ---------------------------------------------------------------- starting

  lemma PrepareSlots(sh: Shared, thread: nat, started: bool)
    requires Slots(sh)
    ensures Slots(Prepare(sh, thread, started).0)
    ensures Prepare(sh, thread, started).1.Some? ==> sh.prepared.None? && sh.worker.None?
  {
  }

  /** Activation never meets an owner, a generation or a Worker it did not expect. */
  lemma ActivateEffect(sh: Shared, c: nat)
    requires Slots(sh) && c < |sh.contexts| && sh.prepared == Some(c)
    ensures
      var (sh', out) := Activate(sh, c);
      && Slots(sh')
      && out == Activated(sh.pending, sh.coordination)
      && sh.worker.None?
      && sh' == sh.(generation := sh.generation + 1, worker := Some(c), prepared := None, coordination := None,
                    pending := None, contexts := sh'.contexts)
      && sh'.contexts == (if sh.active.Some? then sh.contexts[c := sh.contexts[c].(waitRemove := sh.active)]
                          else sh.contexts)
  {
  }

  lemma CancelSlots(sh: Shared, c: nat)
    requires Slots(sh) && c < |sh.contexts|
    ensures Slots(Cancel(sh, c).0) && Slots(Settle(sh, c).0)
  {
  }

  // ---------------------------------------------------------------- events

  lemma GateSlots(sh: Shared, c: nat)
    requires Slots(sh) && c < |sh.contexts| && sh.prepared != Some(c)
    ensures Slots(SetGate(sh, c))
  {
  }

  lemma OperationDoneSlots(sh: Shared, o: nat)
    requires Slots(sh) && o < |sh.operations| && sh.pending != Some(o) && sh.active != Some(o)
    ensures Slots(SetOperationDone(sh, o))
  {
  }

  lemma CoordinationDoneSlots(sh: Shared, k: nat)
    requires Slots(sh) && k < |sh.coordinations|
    ensures Slots(SetCoordinationDone(sh, k))
  {
  }
}
