/** The steps of renewal threads: their checks, the completion of a renewal and `_finish_worker`. */
module RegistryWorkerSteps {
  import opened Options
  import opened RegistryState
  import opened RegistrySystem
  import opened RegistryInvariant
  import opened RegistrySteps

  predicate Checks(p: Phase) {
    p.Gate? || p.EntryCheck? || p.FirstCheck? || p.AwaitOld? || p.Loop? || p.Interval?
  }

  lemma CheckMayGo(s: System, t: nat, c: nat, p: Phase, next: Action)
    requires Inv(s) && t < |s.threads| && s.threads[t] == Thread([], Renewing(c, p)) && Checks(p)
    requires ActionBounded(s.sh, s.log, Renewing(c, p)) && Ready(s, Renewing(c, p))
    requires PerformRenewing(s, t, c, p, true) == Move(s, t, [], next)
    requires next.Idle? || (next.Renewing? && next.c == c)
    ensures KeepsRoles(s, t, next) && ActionBounded(s.sh, s.log, next) && ActionInv(s, t, next) && !HoldsNetwork(next)
  {
    hide OperationInv, CoordinationInv, EntryInv;
    assert ThreadInv(s, t);
    assert ContextInv(s, c);
    assert next == Move(s, t, [], next).threads[t].act;
  }

  lemma CheckKeeps(s: System, t: nat, c: nat, p: Phase)
    requires Inv(s) && t < |s.threads| && s.threads[t] == Thread([], Renewing(c, p)) && Checks(p)
    requires ActionBounded(s.sh, s.log, Renewing(c, p)) && Ready(s, Renewing(c, p))
    ensures Inv(PerformRenewing(s, t, c, p, true))
  {
    hide ActionInv, PhaseInv, ContextInv, OperationInv, CoordinationInv, EntryInv, Slots;
    var next := PerformRenewing(s, t, c, p, true).threads[t].act;
    CheckMayGo(s, t, c, p, next);
    MoveKeeps(s, t, next);
  }

  lemma AcquireKeeps(s: System, t: nat, c: nat)
    requires Inv(s) && t < |s.threads| && s.threads[t] == Thread([], Renewing(c, Acquire)) && s.network.None?
    ensures Inv(Move(s.(network := Some(t)), t, [], Renewing(c, Check)))
  {
    hide ContextInv, OperationInv, CoordinationInv, EntryInv, Slots;
    assert ThreadBounded(s.sh, s.log, s.threads[t]);
    assert ThreadInv(s, t);
    LockKeeps(s, t, Renewing(c, Check), Some(t));
  }

  /** The check under `network_lock`: a Worker that is still current may call, and no Remove of its
      generation or a later one has been sent. */
  lemma LockedCheckKeeps(s: System, t: nat, c: nat)
    requires Inv(s) && t < |s.threads| && s.threads[t] == Thread([], Renewing(c, Check))
    requires ActionBounded(s.sh, s.log, Renewing(c, Check))
    ensures Inv(PerformRenewing(s, t, c, Check, true))
  {
    hide ContextInv, OperationInv, CoordinationInv, EntryInv;
    assert ThreadInv(s, t);
    if Current(s.sh, c) {
      MayCall(s, t, c);
      LockKeeps(s, t, Renewing(c, Calling(ToSend)), Some(t));
    } else {
      LockKeeps(s, t, Renewing(c, Last), None);
    }
  }

  lemma MayCall(s: System, t: nat, c: nat)
    requires Inv(s) && c < |s.sh.contexts| && Renews(s, t, c) && Current(s.sh, c)
    ensures PhaseInv(s, t, c, Calling(ToSend))
  {
    hide ContextInv, OperationInv, CoordinationInv, EntryInv;
  }

  // ---------------------------------------------------------------- `_finish_worker`

  ghost predicate Finishing(s: System, t: nat, c: nat) {
    Inv(s) && t < |s.threads| && s.threads[t] == Thread([], Renewing(c, Last)) && c < |s.sh.contexts|
  }

  /** What the section needs from the invariant. */
  ghost predicate FinishReady(s: System, t: nat, c: nat) {
    && WellFormed(s) && Slots(s.sh) && HistoryBounded(s)
    && t < |s.threads| && s.threads[t] == Thread([], Renewing(c, Last)) && c < |s.sh.contexts|
    && s.sh.contexts[c].thread == t && s.sh.prepared != Some(c)
    && c in s.history.committed && c !in s.history.finished
    && (s.sh.pending.Some? ==> s.sh.pending.value !in s.history.claimed && s.sh.pending.value !in s.history.sent)
  }

  lemma FinishIsReady(s: System, t: nat, c: nat)
    requires Finishing(s, t, c)
    ensures FinishReady(s, t, c)
  {
    hide ThreadsInv, TablesInv, LogInv, OriginInv, SnapshotInv, CountInv, Carried, Slots;
    ThreadAt(s, t);
    ContextAt(s, c);
    if s.sh.pending.Some? { OperationAt(s, s.sh.pending.value); }
  }

  lemma FinishSectionSlots(sh: Shared, c: nat)
    requires Slots(sh) && c < |sh.contexts| && sh.prepared != Some(c)
    ensures Slots(Finish(sh, c).0)
  {
  }

  lemma FinishWellFormed(s: System, t: nat, c: nat)
    requires FinishReady(s, t, c)
    ensures WellFormed(StepFinish(s, t, c))
  {
    hide Slots, HistoryBounded;
    GrownWellFormed(s, StepFinish(s, t, c), t);
  }

  lemma FinishSlots(s: System, t: nat, c: nat)
    requires FinishReady(s, t, c)
    ensures Slots(StepFinish(s, t, c).sh) && HistoryBounded(StepFinish(s, t, c))
  {
    FinishSectionSlots(s.sh, c);
    hide Slots;
  }

  lemma FinishGuarantee(s: System, t: nat, c: nat)
    requires FinishReady(s, t, c)
    ensures Guarantee(s, StepFinish(s, t, c), t)
  {
    hide HistoryBounded;
    assert RelyContexts(s, StepFinish(s, t, c), t);
    assert RelyOperations(s, StepFinish(s, t, c), t);
    assert RelyRest(s, StepFinish(s, t, c), t);
  }

  lemma FinishThread(s: System, t: nat, c: nat)
    requires FinishReady(s, t, c) && WellFormed(StepFinish(s, t, c))
    requires s.network != Some(t)
    ensures OwnThread(s, StepFinish(s, t, c), t)
  {
  }

  lemma FinishContext(s: System, t: nat, c: nat, d: nat)
    requires FinishReady(s, t, c) && d < |s.sh.contexts| && ContextInv(s, d)
    requires Bounded(StepFinish(s, t, c).sh)
    ensures ContextInv(StepFinish(s, t, c), d)
  {
    hide WellFormed, HistoryBounded;
  }

  lemma FinishOperation(s: System, t: nat, c: nat, o: nat)
    requires FinishReady(s, t, c) && o < |s.sh.operations| && OperationInv(s, o)
    ensures OperationInv(StepFinish(s, t, c), o)
  {
    hide WellFormed, HistoryBounded, ContextInv;
  }

  lemma FinishLog(s: System, t: nat, c: nat)
    requires FinishReady(s, t, c) && Bounded(StepFinish(s, t, c).sh)
    requires LogInv(s) && OriginInv(s) && SnapshotInv(s)
    ensures LogInv(StepFinish(s, t, c)) && OriginInv(StepFinish(s, t, c)) && SnapshotInv(StepFinish(s, t, c))
  {
    hide ContextInv, EntryInv, OriginInv, SnapshotInv;
    var s' := StepFinish(s, t, c);
    LogKeeps(s, s');
    SnapshotKeeps(s, s');
    OriginKeeps(s, s');
  }

  lemma FinishRest(s: System, t: nat, c: nat)
    requires FinishReady(s, t, c) && Bounded(StepFinish(s, t, c).sh)
    requires TablesInv(s) && CountInv(s) && Carried(s)
    ensures forall k :: 0 <= k < |s.sh.coordinations| ==> CoordinationInv(StepFinish(s, t, c), k)
    ensures CountInv(StepFinish(s, t, c)) && Carried(StepFinish(s, t, c))
  {
    hide ContextInv, OperationInv, CoordinationInv, TablesInv, ThreadInv;
    var s' := StepFinish(s, t, c);
    CoordinationsKeep(s, s', t);
    CarriedKeeps(s, s', t);
  }

  lemma FinishKeeps(s: System, t: nat, c: nat)
    requires Finishing(s, t, c)
    ensures Inv(StepFinish(s, t, c))
  {
    FinishIsReady(s, t, c);
    assert s.network != Some(t);
    hide StepFinish, FinishReady, WellFormed, ContextInv, OperationInv, CoordinationInv, LogInv, OriginInv, SnapshotInv;
    hide CountInv, Carried, Guarantee, OwnThread, TablesInv, ThreadsInv, HistoryBounded, Slots;
    var s' := StepFinish(s, t, c);
    FinishWellFormed(s, t, c);
    FinishSlots(s, t, c);
    FinishGuarantee(s, t, c);
    FinishThread(s, t, c);
    forall d | 0 <= d < |s'.sh.contexts| ensures ContextInv(s', d) {
      ContextAt(s, d);
      FinishContext(s, t, c, d);
    }
    forall o | 0 <= o < |s'.sh.operations| ensures OperationInv(s', o) {
      OperationAt(s, o);
      FinishOperation(s, t, c, o);
    }
    FinishLog(s, t, c);
    FinishRest(s, t, c);
    Assemble(s, s', t);
  }
}
