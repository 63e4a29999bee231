/**
 * How one thread steps while all others keep what they rely on: the guarantee a step gives, the frames
 * under which the tables, the log and the counts keep their meaning, and the steps that only move on.
 */
module RegistrySteps {
  import opened Options
  import opened RegistryState
  import opened RegistrySystem
  import opened RegistryInvariant
  import opened RegistrySections

  // ---------------------------------------------------------------- what others can rely on

  /** What one step of thread `t` may do to the contexts, as every other thread sees it. */
  ghost predicate RelyContexts(s: System, s': System, t: nat) {
    var h, h' := s.history, s'.history;
    && |s.sh.contexts| <= |s'.sh.contexts|
    && (s'.sh.worker.Some? ==> s'.sh.worker == s.sh.worker || s'.sh.generation > s.sh.generation)
    && forall c :: 0 <= c < |s.sh.contexts| ==>
         var row, row' := s.sh.contexts[c], s'.sh.contexts[c];
         && row'.generation == row.generation
         && row'.thread == row.thread
         && (row.gate ==> row'.gate)
         && (c in h.committed ==> c in h'.committed && row'.waitRemove == row.waitRemove)
         && (c in h'.finished ==> c in h.finished || row.thread == t)
         && (c in h.starter ==> c in h'.starter && h'.starter[c] == h.starter[c])
         && (s'.sh.prepared == Some(c) ==> s.sh.prepared == Some(c))
  }

  /** The same for the operations and the slots that hold them. */
  ghost predicate RelyOperations(s: System, s': System, t: nat) {
    var h, h' := s.history, s'.history;
    && |s.sh.operations| <= |s'.sh.operations|
    && (forall o :: 0 <= o < |s.sh.operations| ==>
          var row, row' := s.sh.operations[o], s'.sh.operations[o];
          && row'.generation == row.generation
          && (row.done ==> row'.done)
          && (row.thread.Some? && row.thread.value != t ==> row'.thread == row.thread)
          && (o in h.claimed ==> o in h'.claimed)
          && (o in h.sent ==> o in h'.sent && h'.sent[o] == h.sent[o])
          && (o in h'.sent && o !in h.sent ==> s.sh.active == Some(o) && h.holder == t)
          && (s'.sh.pending == Some(o) ==> s.sh.pending == Some(o))
          && (s'.sh.active == Some(o) ==> s.sh.active == Some(o) || s.sh.pending == Some(o)))
    && (s.sh.active.Some? && h.holder != t ==> s'.sh.active == s.sh.active && h'.holder == h.holder)
    && (s'.sh.active.Some? && s'.sh.active != s.sh.active ==>
          s'.sh.active.value < |s'.sh.operations|
          && s'.sh.operations[s'.sh.active.value].generation == s'.sh.generation)
  }

  /** The same for the windows, the lock and the log. */
  ghost predicate RelyRest(s: System, s': System, t: nat) {
    var h, h' := s.history, s'.history;
    && |s.threads| <= |s'.threads|
    && |s.sh.coordinations| <= |s'.sh.coordinations|
    && |s.log| <= |s'.log|
    && s.sh.generation <= s'.sh.generation
    && (forall u :: 0 <= u < |s.threads| && u != t ==> s'.threads[u] == s.threads[u])
    && (forall k :: 0 <= k < |s.sh.coordinations| ==>
          && s'.sh.coordinations[k].generation == s.sh.coordinations[k].generation
          && (k in h.members ==> k in h'.members && forall u :: u in h.members[k] && u != t ==> u in h'.members[k]))
    && (s.network.Some? && s.network.value != t ==>
          s'.network == s.network && |s'.log| == |s.log| && h'.topKey == h.topKey)
    && (forall i :: 0 <= i < |s.log| && s.log[i].thread != t ==> s'.log[i] == s.log[i])
  }

  ghost predicate Guarantee(s: System, s': System, t: nat) {
    RelyContexts(s, s', t) && RelyOperations(s, s', t) && RelyRest(s, s', t)
  }

  lemma PhaseKeeps(s: System, s': System, t: nat, u: nat, c: nat, p: Phase)
    requires WellFormed(s) && TablesInv(s) && u < |s.threads| && u != t
    requires s.threads[u].act == Renewing(c, p) && ThreadInv(s, u)
    requires WellFormed(s') && Guarantee(s, s', t)
    ensures ActionInv(s', u, Renewing(c, p))
  {
    assert ThreadBounded(s.sh, s.log, s.threads[u]);
    assert ContextInv(s, c);
  }

  lemma OtherKeeps(s: System, s': System, t: nat, u: nat)
    requires WellFormed(s) && TablesInv(s) && u < |s.threads| && u != t
    requires ThreadInv(s, u)
    requires WellFormed(s') && Guarantee(s, s', t)
    ensures ThreadInv(s', u)
  {
    var th := s.threads[u];
    assert ThreadBounded(s.sh, s.log, th);
    assert s'.threads[u] == th;
    forall x | x in th.owed ensures SignalInv(s', x) {
      assert SignalBounded(s.sh, x);
    }
    if th.act.Renewing? {
      PhaseKeeps(s, s', t, u, th.act.c, th.act.phase);
    } else if th.act.Removing? {
      RemovingKeeps(s, s', t, u);
    } else {
      assert ActionInv(s', u, th.act);
    }
  }

  lemma RemovingKeeps(s: System, s': System, t: nat, u: nat)
    requires WellFormed(s) && TablesInv(s) && u < |s.threads| && u != t
    requires s.threads[u].act.Removing? && ThreadInv(s, u)
    requires WellFormed(s') && Guarantee(s, s', t)
    ensures ActionInv(s', u, s.threads[u].act)
  {
    assert ThreadBounded(s.sh, s.log, s.threads[u]);
  }

  /** A step of `t` keeps every thread, given what the step itself establishes. */
  lemma ThreadsKeep(s: System, s': System, t: nat)
    requires WellFormed(s) && TablesInv(s) && ThreadsInv(s) && t < |s.threads|
    requires WellFormed(s') && Guarantee(s, s', t)
    requires ThreadInv(s', t)
    requires forall u :: |s.threads| <= u < |s'.threads| ==> ThreadInv(s', u)
    requires s'.network == Some(t) ==> HoldsNetwork(s'.threads[t].act)
    requires s'.network.Some? && s'.network != Some(t) ==> s'.network == s.network
    ensures ThreadsInv(s')
  {
    forall u | 0 <= u < |s'.threads| ensures ThreadInv(s', u) {
      if u < |s.threads| && u != t {
        OtherKeeps(s, s', t, u);
      }
    }
  }

  // ---------------------------------------------------------------- what a step leaves alone

  /** Only thread `t` moved, and it still owes the events it owed; threads may have been added. */
  ghost predicate Others(s: System, s': System, t: nat) {
    && t < |s.threads| <= |s'.threads|
    && (s.threads[t].owed == [] || s'.threads[t].owed == s.threads[t].owed)
    && forall u :: 0 <= u < |s.threads| && u != t ==> s'.threads[u] == s.threads[u]
  }

  /** The log may have grown and statuses may have changed. */
  ghost predicate LogExtends(s: System, s': System) {
    && |s.log| <= |s'.log|
    && forall i :: 0 <= i < |s.log| ==> s'.log[i].kind == s.log[i].kind && s'.log[i].thread == s.log[i].thread
  }

  ghost predicate KeepsRenewing(s: System, t: nat, next: Action)
    requires t < |s.threads|
  {
    var a := s.threads[t].act;
    && (a.Renewing? && a.c in s.history.committed && a.c !in s.history.finished ==> Works(next, a.c))
    && (a.Renewing? && a.phase.Gate? ==> a.c < |s.sh.contexts| && s.sh.contexts[a.c].gate)
    && (a.OwnStart? ==> s.sh.prepared != Some(a.c))
  }

  ghost predicate KeepsRemoving(s: System, t: nat, next: Action)
    requires t < |s.threads|
  {
    var a := s.threads[t].act;
    && (a.Removing? ==> next.Removing? && next.o == a.o && next.next == a.next)
    && (a.ClaimPending? ==> next == EndActor(a.o) || next == Removing(a.o, BackToActor(a.o), ToSend))
    && (a.ScheduleRemove? ==> next == After(a.next))
    && !a.EndActor?
  }

  ghost predicate KeepsRegistering(s: System, t: nat, next: Action)
    requires t < |s.threads|
  {
    var a := s.threads[t].act;
    a.Registering? && a.window.Some? ==> next.Registering? && next.window == a.window
  }

  ghost predicate ContextFrame(s: System, s': System, t: nat) {
    var h, h' := s.history, s'.history;
    && Others(s, s', t)
    && KeepsRenewing(s, t, s'.threads[t].act)
    && s'.sh.contexts == s.sh.contexts
    && s'.sh.worker == s.sh.worker && s'.sh.prepared == s.sh.prepared && s'.sh.stopping == s.sh.stopping
    && s'.sh.generation == s.sh.generation
    && h'.committed == h.committed && h'.finished == h.finished
    && h'.starter == h.starter && h'.waker == h.waker
    && h.claimed <= h'.claimed
  }

  lemma ContextsKeep(s: System, s': System, t: nat)
    requires Bounded(s.sh) && TablesInv(s) && ContextFrame(s, s', t) && Bounded(s'.sh)
    ensures forall c :: 0 <= c < |s'.sh.contexts| ==> ContextInv(s', c)
  {
    forall c | 0 <= c < |s.sh.contexts| ensures ContextInv(s', c) { ContextKeeps(s, s', t, c); }
  }

  lemma ContextKeeps(s: System, s': System, t: nat, c: nat)
    requires Bounded(s.sh) && c < |s.sh.contexts| && ContextInv(s, c) && ContextFrame(s, s', t) && Bounded(s'.sh)
    ensures ContextInv(s', c)
  {
  }

  ghost predicate OperationFrame(s: System, s': System, t: nat) {
    var h, h' := s.history, s'.history;
    && Others(s, s', t)
    && KeepsRemoving(s, t, s'.threads[t].act)
    && s'.sh.operations == s.sh.operations
    && s'.sh.pending == s.sh.pending && s'.sh.active == s.sh.active
    && h'.claimed == h.claimed && h'.holder == h.holder && h'.sent == h.sent
    && h'.operationDebtor == h.operationDebtor && h'.origin == h.origin
    && s'.sh.generation == s.sh.generation && h.removeSent <= h'.removeSent
    && LogExtends(s, s')
    && WindowsGrow(s, s')
  }

  /** A window keeps its generation, and one that is empty stays empty. */
  ghost predicate WindowsGrow(s: System, s': System) {
    && |s.sh.coordinations| <= |s'.sh.coordinations|
    && forall k :: 0 <= k < |s.sh.coordinations| ==>
         && s'.sh.coordinations[k].generation == s.sh.coordinations[k].generation
         && (s.sh.coordinations[k].inflight == 0 ==> s'.sh.coordinations[k].inflight == 0)
  }

  lemma OperationsKeep(s: System, s': System, t: nat)
    requires Bounded(s.sh) && TablesInv(s) && OperationFrame(s, s', t)
    ensures forall o :: 0 <= o < |s'.sh.operations| ==> OperationInv(s', o)
  {
    forall o | 0 <= o < |s.sh.operations| ensures OperationInv(s', o) { OperationKeeps(s, s', t, o); }
  }

  lemma OperationKeeps(s: System, s': System, t: nat, o: nat)
    requires o < |s.sh.operations| && OperationInv(s, o) && OperationFrame(s, s', t)
    ensures OperationInv(s', o)
  {
  }

  /** The windows are as they were, except that cleanup may have been requested and that an empty
      window whose cleanup was sent, or could not be started, may have ended. */
  ghost predicate CoordinationFrame(s: System, s': System, t: nat)
    requires Bounded(s.sh) && Bounded(s'.sh)
  {
    var h, h' := s.history, s'.history;
    && Others(s, s', t)
    && KeepsRegistering(s, t, s'.threads[t].act)
    && SameWindows(s.sh.coordinations, s'.sh.coordinations)
    && WindowStaysOrEnds(s.sh, s'.sh)
    && s'.sh.generation == s.sh.generation
    && s.sh.lastApplied <= s'.sh.lastApplied
    && (s.sh.registered && s.sh.generation == 0 ==> s'.sh.registered || h'.removeSent > s.sh.lastApplied)
    && h'.members == h.members && h'.debt == h.debt && h'.coordinationDebtor == h.coordinationDebtor
    && h.removeSent <= h'.removeSent
    && (forall p :: p in h.startFailed ==>
          p in h'.startFailed && (h'.startFailed[p] == h.startFailed[p] || h'.startFailed[p] == s.sh.lastApplied))
    && (forall p :: p in h'.startFailed ==> h'.startFailed[p] == s.sh.lastApplied || p in h.startFailed)
    && (s.sh.coordination.Some? && s.sh.coordination.value in h.debt && h.debt[s.sh.coordination.value] > 0
        && Outstanding(s, s.sh.coordination.value) ==>
          || (s'.sh.coordination == s.sh.coordination && Outstanding(s', s.sh.coordination.value))
          || h'.removeSent > h.debt[s.sh.coordination.value]
          || (s.sh.coordination.value in h'.startFailed
              && h'.startFailed[s.sh.coordination.value] == s.sh.lastApplied))
  }

  lemma CoordinationsKeep(s: System, s': System, t: nat)
    requires Bounded(s.sh) && Bounded(s'.sh) && TablesInv(s) && CoordinationFrame(s, s', t)
    ensures forall k :: 0 <= k < |s'.sh.coordinations| ==> CoordinationInv(s', k)
  {
    forall k | 0 <= k < |s.sh.coordinations| ensures CoordinationInv(s', k) { CoordinationKeeps(s, s', t, k); }
  }

  lemma CoordinationKeeps(s: System, s': System, t: nat, k: nat)
    requires Bounded(s.sh) && Bounded(s'.sh) && k < |s.sh.coordinations|
    requires CoordinationInv(s, k) && CoordinationFrame(s, s', t)
    ensures CoordinationInv(s', k)
  {
  }

  ghost predicate LogFrame(s: System, s': System)
    requires Bounded(s'.sh)
  {
    var h, h' := s.history, s'.history;
    && s'.log == s.log
    && s'.sh.lastApplied == s.sh.lastApplied && s'.sh.registered == s.sh.registered
    && h'.accepted == h.accepted
    && h'.sent == h.sent && h'.topKey == h.topKey
    && h.committed <= h'.committed
    && (forall k :: k in h.debt ==> k in h'.debt && h.debt[k] <= h'.debt[k])
    && WindowsGrow(s, s')
    && s.sh.generation <= s'.sh.generation
    && (s'.sh.removed == Some(s'.sh.generation) ==>
          s.sh.removed == s'.sh.removed && s.sh.generation == s'.sh.generation && h'.removedBy == h.removedBy)
    && (s'.sh.worker.Some? ==>
          (s.sh.worker == s'.sh.worker && s'.sh.generation == s.sh.generation) || s'.sh.generation > s.sh.generation)
    && (s'.sh.active.Some? ==>
          var o := s'.sh.active.value;
          || (&& s'.sh.active == s.sh.active && o < |s.sh.operations|
              && s'.sh.operations[o].generation == s.sh.operations[o].generation)
          || h.topKey <= 2 * s'.sh.operations[o].generation + 1)
    && (h'.removeSent == 0 || (h'.removeSent == h.removeSent && s'.sh.generation == s.sh.generation))
  }

  /** Nothing the log speaks about has changed. */
  lemma LogKeeps(s: System, s': System)
    requires Bounded(s.sh) && Bounded(s'.sh) && LogInv(s) && LogFrame(s, s')
    ensures LogInv(s')
  {
    forall i | 0 <= i < |s.log| ensures EntryInv(s', i) { assert EntryInv(s, i); }
  }

  lemma SnapshotKeeps(s: System, s': System)
    requires Bounded(s'.sh) && SnapshotInv(s) && LogFrame(s, s')
    ensures SnapshotInv(s')
  {
  }

  lemma OriginKeeps(s: System, s': System)
    requires OriginInv(s) && s'.log == s.log && s'.history.sent == s.history.sent
               && s'.history.origin == s.history.origin
    ensures OriginInv(s')
  {
  }

  /** The Pending Remove is the one it was, and whoever carried it still does. */
  lemma CarriedKeeps(s: System, s': System, t: nat)
    requires Carried(s) && Others(s, s', t)
    requires s'.sh.pending.Some? && s'.sh.active.None? ==>
               || OwesSchedule(s'.threads[t].act)
               || (&& s.sh.pending.Some? && s.sh.active.None?
                   && !OwesSchedule(s.threads[t].act)
                   && (s.sh.generation in s.sh.stopping ==> s'.sh.generation in s'.sh.stopping))
    ensures Carried(s')
  {
    if s'.sh.pending.Some? && s'.sh.active.None? {
      if OwesSchedule(s'.threads[t].act) {
      } else if s.sh.generation !in s.sh.stopping {
        var u :| 0 <= u < |s.threads| && OwesSchedule(s.threads[u].act);
        assert OwesSchedule(s'.threads[u].act);
      }
    }
  }

  // ---------------------------------------------------------------- putting the parts together

  /** A step's own thread, the threads it started and its use of the lock. */
  ghost predicate OwnThread(s: System, s': System, t: nat)
    requires WellFormed(s')
  {
    && t < |s.threads| <= |s'.threads|
    && ThreadInv(s', t)
    && (forall u :: |s.threads| <= u < |s'.threads| ==> ThreadInv(s', u))
    && (s'.network == Some(t) ==> HoldsNetwork(s'.threads[t].act))
    && (s'.network.Some? && s'.network != Some(t) ==> s'.network == s.network)
  }

  lemma Assemble(s: System, s': System, t: nat)
    requires Inv(s)
    requires WellFormed(s') && Slots(s'.sh) && HistoryBounded(s')
    requires Guarantee(s, s', t) && OwnThread(s, s', t)
    requires forall c :: 0 <= c < |s'.sh.contexts| ==> ContextInv(s', c)
    requires forall o :: 0 <= o < |s'.sh.operations| ==> OperationInv(s', o)
    requires forall k :: 0 <= k < |s'.sh.coordinations| ==> CoordinationInv(s', k)
    requires LogInv(s') && OriginInv(s') && SnapshotInv(s') && CountInv(s') && Carried(s')
    ensures Inv(s')
  {
    hide Guarantee, ThreadInv, ContextInv, OperationInv, CoordinationInv, LogInv, OriginInv, SnapshotInv, CountInv;
    hide Carried, HistoryBounded, Slots;
    ThreadsKeep(s, s', t);
  }

  /** The tables have grown and every new reference is in range. */
  lemma GrownWellFormed(s: System, s': System, t: nat)
    requires WellFormed(s) && Others(s, s', t) && Bounded(s'.sh)
    requires |s.sh.contexts| <= |s'.sh.contexts| && |s.sh.operations| <= |s'.sh.operations|
    requires |s.sh.coordinations| <= |s'.sh.coordinations| && |s.log| <= |s'.log|
    requires forall c :: 0 <= c < |s.sh.contexts| && s.sh.contexts[c].waitRemove.Some? ==>
               s'.sh.contexts[c].waitRemove.Some?
    requires forall c :: 0 <= c < |s'.sh.contexts| && s'.sh.contexts[c].waitRemove.Some?
               ==> s'.sh.contexts[c].waitRemove.value < |s'.sh.operations|
    requires ThreadBounded(s'.sh, s'.log, s'.threads[t])
    requires forall u :: |s.threads| <= u < |s'.threads| ==> ThreadBounded(s'.sh, s'.log, s'.threads[u])
    ensures WellFormed(s')
  {
    forall u | 0 <= u < |s.threads| ensures ThreadBounded(s'.sh, s'.log, s'.threads[u]) {
      assert ThreadBounded(s.sh, s.log, s.threads[u]);
    }
  }

  /** A step that works on the operations and leaves contexts, windows and log as they are. */
  ghost predicate OperationStep(s: System, s': System, t: nat) {
    && Bounded(s.sh) && Bounded(s'.sh)
    && ContextFrame(s, s', t)
    && CoordinationFrame(s, s', t)
    && LogFrame(s, s')
    && s'.history.members == s.history.members
    && s'.network == s.network && s.network != Some(t)
  }

  lemma OperationStepRely(s: System, s': System, t: nat)
    requires WellFormed(s) && OperationStep(s, s', t)
    ensures RelyContexts(s, s', t) && RelyRest(s, s', t)
  {
  }

  lemma OperationStepTables(s: System, s': System, t: nat)
    requires WellFormed(s) && TablesInv(s) && LogInv(s) && SnapshotInv(s) && OperationStep(s, s', t)
    ensures forall c :: 0 <= c < |s'.sh.contexts| ==> ContextInv(s', c)
    ensures forall k :: 0 <= k < |s'.sh.coordinations| ==> CoordinationInv(s', k)
    ensures LogInv(s') && SnapshotInv(s')
  {
    hide ContextInv, OperationInv, CoordinationInv, EntryInv, WellFormed;
    ContextsKeep(s, s', t);
    CoordinationsKeep(s, s', t);
    SnapshotKeeps(s, s');
    LogKeeps(s, s');
  }

  lemma OperationStepKeeps(s: System, s': System, t: nat)
    requires Inv(s) && OperationStep(s, s', t)
    requires WellFormed(s') && Slots(s'.sh) && HistoryBounded(s')
    requires RelyOperations(s, s', t) && OwnThread(s, s', t)
    requires forall o :: 0 <= o < |s'.sh.operations| ==> OperationInv(s', o)
    requires OriginInv(s') && CountInv(s') && Carried(s')
    ensures Inv(s')
  {
    hide ContextInv, OperationInv, CoordinationInv, LogInv, SnapshotInv, OriginInv, CountInv, Carried, HistoryBounded;
    hide Slots, ThreadsInv, OperationStep, RelyOperations, RelyContexts, RelyRest, OwnThread, WellFormed;
    OperationStepRely(s, s', t);
    OperationStepTables(s, s', t);
    Assemble(s, s', t);
  }

  // ---------------------------------------------------------------- steps that leave the shared state

  /** Thread `t` goes from one action to another without giving up a role others rely on. */
  ghost predicate Calm(s: System, s': System, t: nat) {
    && Others(s, s', t)
    && |s'.threads| == |s.threads|
    && s'.threads[t].owed == []
    && KeepsRenewing(s, t, s'.threads[t].act)
    && KeepsRemoving(s, t, s'.threads[t].act)
    && KeepsRegistering(s, t, s'.threads[t].act)
    && s'.sh == s.sh
    && s'.history == s.history.(topKey := s'.history.topKey)
    && LogExtends(s, s')
  }

  lemma CalmTables(s: System, s': System, t: nat)
    requires Bounded(s.sh) && TablesInv(s) && Calm(s, s', t)
    ensures TablesInv(s')
  {
    hide ContextInv, OperationInv, CoordinationInv;
    ContextsKeep(s, s', t);
    OperationsKeep(s, s', t);
    CoordinationsKeep(s, s', t);
  }

  lemma CalmWellFormed(s: System, s': System, t: nat)
    requires WellFormed(s) && Calm(s, s', t) && ActionBounded(s'.sh, s'.log, s'.threads[t].act)
    ensures WellFormed(s')
  {
    forall u | 0 <= u < |s'.threads| ensures ThreadBounded(s'.sh, s'.log, s'.threads[u]) {
      assert ThreadBounded(s.sh, s.log, s.threads[u]);
    }
  }

  /** How a calm step may treat `network_lock` and the log of others. */
  ghost predicate NetworkStep(s: System, s': System, t: nat)
    requires t < |s'.threads|
  {
    && |s.log| <= |s'.log|
    && (s'.network == Some(t) <==> HoldsNetwork(s'.threads[t].act))
    && (s'.network.Some? && s'.network != Some(t) ==> s'.network == s.network)
    && (s.network.Some? && s.network != Some(t) ==>
          s'.network == s.network && |s'.log| == |s.log| && s'.history.topKey == s.history.topKey)
    && (forall i :: 0 <= i < |s.log| && s.log[i].thread != t ==> s'.log[i] == s.log[i])
  }

  lemma CalmThreads(s: System, s': System, t: nat)
    requires WellFormed(s) && TablesInv(s) && ThreadsInv(s) && Calm(s, s', t) && NetworkStep(s, s', t)
    requires WellFormed(s') && ActionInv(s', t, s'.threads[t].act)
    ensures ThreadsInv(s')
  {
    assert ThreadInv(s', t);
    hide ContextInv, OperationInv, CoordinationInv, ThreadInv, ActionInv;
    ThreadsKeep(s, s', t);
  }

  /** A calm step keeps everything, once it has kept the log. */
  lemma CalmKeeps(s: System, s': System, t: nat)
    requires Inv(s) && Calm(s, s', t) && NetworkStep(s, s', t)
    requires ActionBounded(s'.sh, s'.log, s'.threads[t].act)
    requires WellFormed(s') ==> ActionInv(s', t, s'.threads[t].act)
    requires LogInv(s') && OriginInv(s') && SnapshotInv(s') && Carried(s')
    ensures Inv(s')
  {
    CalmWellFormed(s, s', t);
    hide ActionInv, TablesInv, ThreadsInv, LogInv, OriginInv, SnapshotInv, Carried, WellFormed;
    CalmThreads(s, s', t);
    CalmTables(s, s', t);
  }

  /** What an action needs does not depend on the threads or the lock. */
  lemma ActionSame(s: System, s': System, t: nat, a: Action)
    requires WellFormed(s) && ActionBounded(s.sh, s.log, a) && ActionInv(s, t, a)
    requires s'.sh == s.sh && s'.log == s.log && s'.history == s.history && WellFormed(s')
    ensures ActionInv(s', t, a)
  {
  }

  ghost predicate KeepsRoles(s: System, t: nat, next: Action)
    requires t < |s.threads|
  {
    && s.threads[t].owed == []
    && KeepsRenewing(s, t, next) && KeepsRemoving(s, t, next) && KeepsRegistering(s, t, next)
    && (OwesSchedule(s.threads[t].act) ==> OwesSchedule(next))
  }

  lemma QuietKeeps(s: System, s': System, t: nat)
    requires Inv(s) && Calm(s, s', t) && NetworkStep(s, s', t)
    requires s'.log == s.log && s'.history == s.history
    requires ActionBounded(s.sh, s.log, s'.threads[t].act) && ActionInv(s, t, s'.threads[t].act)
    requires Carried(s')
    ensures Inv(s')
  {
    hide ActionInv, ContextInv, OperationInv, CoordinationInv, EntryInv, Slots, Carried;
    CalmWellFormed(s, s', t);
    ActionSame(s, s', t, s'.threads[t].act);
    LogKeeps(s, s');
    SnapshotKeeps(s, s');
    OriginKeeps(s, s');
    hide WellFormed, TablesInv, ThreadsInv, LogInv, OriginInv, SnapshotInv;
    CalmKeeps(s, s', t);
  }

  /** A step that only moves its own thread on. */
  lemma MoveKeeps(s: System, t: nat, next: Action)
    requires Inv(s) && t < |s.threads| && KeepsRoles(s, t, next)
    requires ActionBounded(s.sh, s.log, next) && ActionInv(s, t, next)
    requires !HoldsNetwork(s.threads[t].act) && !HoldsNetwork(next)
    ensures Inv(Move(s, t, [], next))
  {
    hide ActionInv, ContextInv, OperationInv, CoordinationInv, EntryInv, Slots;
    assert s.network != Some(t);
    CarriedKeeps(s, Move(s, t, [], next), t);
    QuietKeeps(s, Move(s, t, [], next), t);
  }

  /** A step that takes `network_lock`, or gives it up, without an RPC. */
  lemma LockKeeps(s: System, t: nat, next: Action, network: Option<nat>)
    requires Inv(s) && t < |s.threads| && KeepsRoles(s, t, next)
    requires s.network.None? || s.network == Some(t)
    requires network == if HoldsNetwork(next) then Some(t) else None
    requires ActionBounded(s.sh, s.log, next) && ActionInv(s, t, next)
    ensures Inv(Move(s.(network := network), t, [], next))
  {
    hide ActionInv, ContextInv, OperationInv, CoordinationInv, EntryInv, Slots;
    CarriedKeeps(s, Move(s.(network := network), t, [], next), t);
    QuietKeeps(s, Move(s.(network := network), t, [], next), t);
  }
}
