/** The steps of explicit registers: joining a window and applying the completion. */
module RegistryRegisterSteps {
  import opened Options
  import opened RegistryState
  import opened RegistrySystem
  import opened RegistryInvariant
  import opened RegistrySections
  import opened RegistrySteps
  import opened RegistryCompletionSteps
  import opened RegistryRemoveSteps

  // ---------------------------------------------------------------- joining

  /** The state after joining window `k`. */
  ghost predicate JoinsWindow(s: System, s': System, t: nat, k: nat) {
    var h, h' := s.history, s'.history;
    && Bounded(s.sh) && Bounded(s'.sh)
    && t < |s.threads| && s.threads[t] == Thread([], JoinWindow)
    && s'.sh == s.sh.(coordination := s'.sh.coordination, coordinations := s'.sh.coordinations)
    && Joins(s.sh, s'.sh, k)
    && s'.threads == s.threads[t := Thread([], Registering(Some(k), s.sh.generation, ToSend))]
    && s'.network == s.network && s.network != Some(t) && s'.log == s.log
    && h' == h.(members := h.members[k := (if k in h.members then h.members[k] else {}) + {t}],
                debt := if k in h.debt then h.debt else h.debt[k := 0])
  }

  lemma JoinedShape(s: System, t: nat)
    requires Inv(s) && t < |s.threads| && s.threads[t] == Thread([], JoinWindow)
    ensures
      var (sh', out) := Join(s.sh);
      if out.coordination.Some? then JoinsWindow(s, StepJoin(s, t), t, out.coordination.value)
      else StepJoin(s, t) == Move(s, t, [], Registering(None, s.sh.generation, ToSend))
  {
    hide ThreadsInv, TablesInv, LogInv, OriginInv, SnapshotInv, CountInv, Carried, HistoryBounded;
    NetworkNotMine(s, t);
    JoinEffect(s.sh);
    hide Join, Slots;
  }

  lemma JoinedFrames(s: System, s': System, t: nat, k: nat)
    requires JoinsWindow(s, s', t, k) && HistoryBounded(s)
    requires forall p :: 0 <= p < |s.sh.coordinations| ==> p in s.history.debt
    ensures ContextFrame(s, s', t) && OperationFrame(s, s', t) && LogFrame(s, s') && Guarantee(s, s', t)
    ensures HistoryBounded(s')
  {
  }

  lemma JoinedThread(s: System, s': System, t: nat, k: nat)
    requires WellFormed(s) && JoinsWindow(s, s', t, k)
    requires k < |s.sh.coordinations| ==> s.sh.coordinations[k].generation == s.sh.generation
    ensures WellFormed(s') && OwnThread(s, s', t)
  {
    GrownWellFormed(s, s', t);
  }

  lemma JoinedWindow(s: System, s': System, t: nat, k: nat, p: nat)
    requires JoinsWindow(s, s', t, k) && Slots(s.sh) && HistoryBounded(s) && p < |s'.sh.coordinations|
    requires p < |s.sh.coordinations| ==> CoordinationInv(s, p)
    requires s.sh.coordination.Some? ==> !s.sh.coordinations[s.sh.coordination.value].cleanupRequested
    ensures CoordinationInv(s', p)
  {
    if p == k && p < |s.sh.coordinations| {
      assert t !in s.history.members[k];
    }
  }

  lemma JoinKeeps(s: System, t: nat)
    requires Inv(s) && t < |s.threads| && s.threads[t] == Thread([], JoinWindow)
    ensures Inv(StepJoin(s, t))
  {
    JoinedShape(s, t);
    hide ThreadsInv, OperationInv, ContextInv, LogInv, SnapshotInv, HistoryBounded, OriginInv;
    var out := Join(s.sh).1;
    var s' := StepJoin(s, t);
    if out.coordination.None? {
      MoveKeeps(s, t, Registering(None, s.sh.generation, ToSend));
    } else {
      var k := out.coordination.value;
      assert s.sh.coordination.Some? ==> !s.sh.coordinations[s.sh.coordination.value].cleanupRequested;
      assert k < |s.sh.coordinations| ==> s.sh.coordinations[k].generation == s.sh.generation;
      JoinSlots(s.sh);
      forall p | 0 <= p < |s.sh.coordinations| ensures p in s.history.debt { CoordinationAt(s, p); }
      JoinedFrames(s, s', t, k);
      JoinedThread(s, s', t, k);
      forall p | 0 <= p < |s'.sh.coordinations| ensures CoordinationInv(s', p) {
        if p < |s.sh.coordinations| { CoordinationAt(s, p); }
        JoinedWindow(s, s', t, k, p);
      }
      JoinedRest(s, s', t, k);
    }
  }

  lemma JoinedRest(s: System, s': System, t: nat, k: nat)
    requires Inv(s) && JoinsWindow(s, s', t, k) && Slots(s'.sh) && HistoryBounded(s')
    requires ContextFrame(s, s', t) && OperationFrame(s, s', t) && LogFrame(s, s') && Guarantee(s, s', t)
    requires WellFormed(s') && OwnThread(s, s', t)
    requires forall p :: 0 <= p < |s'.sh.coordinations| ==> CoordinationInv(s', p)
    ensures Inv(s')
  {
    hide ContextInv, OperationInv, CoordinationInv, EntryInv, Slots, HistoryBounded, ThreadsInv, WellFormed, Guarantee;
    CarriedKeeps(s, s', t);
    OriginKeeps(s, s');
    LogKeeps(s, s');
    SnapshotKeeps(s, s');
    assert CountInv(s');
    hide OriginInv, LogInv, SnapshotInv, CountInv, Carried, OwnThread;
    ContextsKeep(s, s', t);
    OperationsKeep(s, s', t);
    hide TablesInv;
    Assemble(s, s', t);
  }

  // ---------------------------------------------------------------- completions outside every window

  lemma OutsideKeeps(s: System, t: nat, g: nat, n: nat, ok: bool)
    requires Inv(s) && t < |s.threads| && s.threads[t] == Thread([], Registering(None, g, Answered(n, ok)))
    requires 0 < n <= |s.log|
    ensures Inv(StepRegisterApply(s, t, None, g, n, ok))
  {
    hide TablesInv, LogInv, OriginInv, SnapshotInv, CountInv, Carried, HistoryBounded, Slots;
    ThreadAt(s, t);
    NetworkNotMine(s, t);
    hide ThreadsInv;
    SnapshotOnlyKeeps(s, StepRegisterApply(s, t, None, g, n, ok), t, n, ok, n > s.sh.lastApplied);
  }

  // ---------------------------------------------------------------- completions inside a window

  ghost predicate AtLeave(s: System, t: nat, k: nat, g: nat, n: nat, ok: bool) {
    && WellFormed(s) && Slots(s.sh) && HistoryBounded(s)
    && t < |s.threads| && s.threads[t] == Thread([], Registering(Some(k), g, Answered(n, ok)))
    && InWindow(s.sh, g, k)
    && CoordinationInv(s, k) && t in s.history.members[k]
    && 0 < n <= |s.log| && s.log[n - 1] == Entry(Register(Some(k), g), t, Returned(ok))
    && s.network != Some(t)
  }

  lemma LeaveReady(s: System, t: nat, k: nat, g: nat, n: nat, ok: bool)
    requires Inv(s) && t < |s.threads| && s.threads[t] == Thread([], Registering(Some(k), g, Answered(n, ok)))
    ensures AtLeave(s, t, k, g, n, ok)
  {
    hide TablesInv, LogInv, OriginInv, SnapshotInv, CountInv, Carried, HistoryBounded, Slots;
    ThreadAt(s, t);
    CoordinationAt(s, k);
    NetworkNotMine(s, t);
    hide ThreadsInv;
  }

  /** The state after the completion of a register in window `k`. */
  ghost predicate Departs(s: System, s': System, t: nat, k: nat, g: nat, n: nat, ok: bool, out: Verdict,
      left: Departure)
    requires Bounded(s.sh) && k < |s.sh.coordinations| && t < |s.threads|
  {
    && Commits(s.sh, s'.sh, n, ok, g, k, out, left)
    && s'.network == s.network
    && Applies(s, s', n, ok, out.accepted, out.late)
    && s'.threads == s.threads[t := Thread(CoordinationSignals(left.signal),
                                           if left.scheduled.Some? then ScheduleRemove(false, End) else Idle)]
    && Remembers(s, s', t, k, g, n, ok, out, left)
  }

  ghost predicate Remembers(s: System, s': System, t: nat, k: nat, g: nat, n: nat, ok: bool, out: Verdict,
      left: Departure) {
    var h, h' := s.history, s'.history;
    && k in h.members && k in h.debt
    && h'.holder == h.holder && h'.claimed == h.claimed && h'.sent == h.sent
    && h'.operationDebtor == h.operationDebtor && h'.committed == h.committed && h'.finished == h.finished
    && h'.starter == h.starter && h'.waker == h.waker && h'.startFailed == h.startFailed
    && h'.removedBy == h.removedBy && h'.topKey == h.topKey && h'.removeSent == h.removeSent
    && h'.accepted == (if out.accepted then h.accepted + [Acceptance(n, FromRegister, ok)] else h.accepted)
    && h'.reopened == (if out.reopened then h.reopened + multiset{g} else h.reopened)
    && h'.members == h.members[k := h.members[k] - {t}]
    && h'.debt == (if out.late then h.debt[k := n] else h.debt)
    && h'.coordinationDebtor == (if left.signal.Some? then h.coordinationDebtor[k := t] else h.coordinationDebtor)
    && (if |s'.sh.operations| == |s.sh.operations| + 1
        then && h'.created == h.created + multiset{s.sh.generation}
             && h'.origin == h.origin[|s.sh.operations| := k]
        else h'.created == h.created && h'.origin == h.origin)
  }

  lemma LeaveHistoryShape(s: System, s': System, t: nat, k: nat, g: nat, n: nat, ok: bool, out: Verdict,
      left: Departure)
    requires k in s.history.members && k in s.history.debt
    requires left.signal.Some? ==> left.signal == Some(k)
    requires |s'.sh.operations| == |s.sh.operations| + 1 ==>
               && s.sh.coordination == Some(k)
               && s'.sh.pending == Some(|s.sh.operations|)
               && s'.sh.operations[|s.sh.operations|].generation == s.sh.generation
    requires
      var h1 := NoteReopened(NoteAccepted(s.history, out.accepted, n, FromRegister, ok), out.reopened, g);
      s'.history == LeaveHistory(h1, s.sh, s'.sh, t, k, n, out.late, left.signal)
    ensures Remembers(s, s', t, k, g, n, ok, out, left)
  {
  }

  lemma DepartHistory(s: System, t: nat, k: nat, g: nat, n: nat, ok: bool)
    requires AtLeave(s, t, k, g, n, ok)
    requires var (sh', out, left) := CommitRegister(s.sh, n, ok, g, Some(k));
      Commits(s.sh, sh', n, ok, g, k, out, left)
    ensures
      var (_, out, left) := CommitRegister(s.sh, n, ok, g, Some(k));
      Remembers(s, StepRegisterApply(s, t, Some(k), g, n, ok), t, k, g, n, ok, out, left)
  {
    assert k in s.history.members && k in s.history.debt;
    hide WellFormed, Slots, HistoryBounded, CoordinationInv, InWindow, CommitRegister, LeaveHistory, NoteAccepted;
    hide NoteReopened, Remembers;
    var (sh', out, left) := CommitRegister(s.sh, n, ok, g, Some(k));
    LeaveHistoryShape(s, StepRegisterApply(s, t, Some(k), g, n, ok), t, k, g, n, ok, out, left);
  }

  lemma DepartShape(s: System, t: nat, k: nat, g: nat, n: nat, ok: bool)
    requires AtLeave(s, t, k, g, n, ok)
    ensures
      var (_, out, left) := CommitRegister(s.sh, n, ok, g, Some(k));
      Departs(s, StepRegisterApply(s, t, Some(k), g, n, ok), t, k, g, n, ok, out, left)
  {
    CommitEffect(s.sh, n, ok, g, k);
    DepartHistory(s, t, k, g, n, ok);
    hide CommitRegister, WellFormed, Slots, HistoryBounded, CoordinationInv, InWindow, LeaveHistory;
  }

  /** What the rest of the proof needs of the starting point. */
  ghost predicate Leaving(s: System, t: nat, k: nat, g: nat, n: nat, ok: bool) {
    && Bounded(s.sh)
    && t < |s.threads| && s.threads[t] == Thread([], Registering(Some(k), g, Answered(n, ok)))
    && InWindow(s.sh, g, k)
    && k in s.history.members && t in s.history.members[k]
    && (s.sh.coordination.Some? ==> s.sh.coordination.value < |s.sh.coordinations|
                                    && s.sh.coordinations[s.sh.coordination.value].generation == s.sh.generation)
  }

  lemma DepartRely(s: System, s': System, t: nat, k: nat, g: nat, n: nat, ok: bool, out: Verdict, left: Departure)
    requires Leaving(s, t, k, g, n, ok) && Departs(s, s', t, k, g, n, ok, out, left)
    requires 0 < n <= |s.log| && s.log[n - 1].thread == t
    ensures ContextFrame(s, s', t) && RelyContexts(s, s', t) && RelyOperations(s, s', t) && RelyRest(s, s', t)
  {
  }

  lemma DepartThread(s: System, s': System, t: nat, k: nat, g: nat, n: nat, ok: bool, out: Verdict, left: Departure)
    requires WellFormed(s) && Leaving(s, t, k, g, n, ok) && Departs(s, s', t, k, g, n, ok, out, left)
    requires s.network != Some(t)
    ensures WellFormed(s') && OwnThread(s, s', t)
  {
    GrownWellFormed(s, s', t);
  }

  lemma DepartOperation(s: System, s': System, t: nat, k: nat, g: nat, n: nat, ok: bool, out: Verdict,
      left: Departure, p: nat)
    requires Leaving(s, t, k, g, n, ok) && Departs(s, s', t, k, g, n, ok, out, left) && HistoryBounded(s)
    requires p < |s'.sh.operations| && (p < |s.sh.operations| ==> OperationInv(s, p))
    ensures OperationInv(s', p)
  {
  }

  lemma DepartOwnWindow(s: System, s': System, t: nat, k: nat, g: nat, n: nat, ok: bool, out: Verdict, left: Departure)
    requires Leaving(s, t, k, g, n, ok) && Departs(s, s', t, k, g, n, ok, out, left)
    requires OwesOn(s.sh, s'.sh, k, out) && CoordinationInv(s, k)
    ensures CoordinationInv(s', k)
  {
  }

  lemma DepartOtherWindow(s: System, s': System, t: nat, k: nat, g: nat, n: nat, ok: bool, out: Verdict,
      left: Departure, p: nat)
    requires Leaving(s, t, k, g, n, ok) && Departs(s, s', t, k, g, n, ok, out, left)
    requires p < |s.sh.coordinations| && p != k && CoordinationInv(s, p)
    ensures CoordinationInv(s', p)
  {
  }

  lemma DepartLog(s: System, s': System, t: nat, k: nat, g: nat, n: nat, ok: bool, out: Verdict, left: Departure)
    requires Leaving(s, t, k, g, n, ok) && Departs(s, s', t, k, g, n, ok, out, left)
    requires LogInv(s) && SnapshotInv(s) && s.history.debt[k] <= s.sh.lastApplied
    requires 0 < n <= |s.log| && s.log[n - 1] == Entry(Register(Some(k), g), t, Returned(ok))
    ensures LogInv(s') && SnapshotInv(s')
  {
    hide EntryInv, SnapshotInv;
    ApplySnapshot(s, s', n, ok, out.accepted, out.late);
    ApplyEntries(s, s', n, ok, out.accepted, out.late);
  }

  lemma DepartCount(s: System, s': System, t: nat, k: nat, g: nat, n: nat, ok: bool, out: Verdict, left: Departure)
    requires Leaving(s, t, k, g, n, ok) && Departs(s, s', t, k, g, n, ok, out, left)
    requires CountInv(s) && Carried(s) && (s.sh.removeRequested.Some? ==> s.sh.removeRequested.value <= s.sh.generation)
    ensures CountInv(s') && Carried(s')
  {
    CarriedKeeps(s, s', t);
  }

  /** Nothing was ever created for this window before, because one of its registers was still there. */
  lemma DepartOrigin(s: System, s': System, t: nat, k: nat, g: nat, n: nat, ok: bool, out: Verdict, left: Departure)
    requires Leaving(s, t, k, g, n, ok) && Departs(s, s', t, k, g, n, ok, out, left)
    requires OriginInv(s) && HistoryBounded(s)
    requires forall p :: p in s.history.origin ==> s.history.origin[p] != k
    ensures OriginInv(s') && HistoryBounded(s')
  {
  }

  lemma LeaveIsLeaving(s: System, t: nat, k: nat, g: nat, n: nat, ok: bool)
    requires AtLeave(s, t, k, g, n, ok)
    ensures Leaving(s, t, k, g, n, ok) && s.history.debt[k] <= s.sh.lastApplied
    ensures s.sh.removeRequested.Some? ==> s.sh.removeRequested.value <= s.sh.generation
  {
  }

  lemma NoOriginYet(s: System, k: nat)
    requires Inv(s) && k < |s.sh.coordinations| && s.sh.coordinations[k].inflight > 0
    ensures forall p :: p in s.history.origin ==> s.history.origin[p] != k
  {
    forall p | p in s.history.origin ensures s.history.origin[p] != k {
      hide ThreadsInv, LogInv, SnapshotInv, OriginInv, CountInv, Carried, Slots;
      OperationAt(s, p);
    }
  }

  lemma RegisterApplyKeeps(s: System, t: nat, k: nat, g: nat, n: nat, ok: bool)
    requires Inv(s) && t < |s.threads| && s.threads[t] == Thread([], Registering(Some(k), g, Answered(n, ok)))
    ensures k < |s.sh.coordinations| && 0 < n <= |s.log| && Inv(StepRegisterApply(s, t, Some(k), g, n, ok))
  {
    LeaveReady(s, t, k, g, n, ok);
    LeaveIsLeaving(s, t, k, g, n, ok);
    var (_, out, left) := CommitRegister(s.sh, n, ok, g, Some(k));
    var s' := StepRegisterApply(s, t, Some(k), g, n, ok);
    DepartShape(s, t, k, g, n, ok);
    CommitSlots(s.sh, n, ok, g, Some(k));
    CommitOwes(s.sh, n, ok, g, k);
    NoOriginYet(s, k);
    assert Slots(s'.sh) && OwesOn(s.sh, s'.sh, k, out) && |s'.sh.coordinations| == |s.sh.coordinations|;
    hide StepRegisterApply, WellFormed, ContextInv, OperationInv, CoordinationInv, LogInv, OriginInv, CommitRegister;
    hide SnapshotInv, CountInv, Carried, OwnThread, ThreadsInv, HistoryBounded, Slots, ContextFrame, Departs, OwesOn;
    hide RelyContexts, RelyOperations, RelyRest, Leaving;
    assert s.log[n - 1] == Entry(Register(Some(k), g), t, Returned(ok));
    assert s.network != Some(t);
    hide AtLeave;
    DepartRely(s, s', t, k, g, n, ok, out, left);
    DepartThread(s, s', t, k, g, n, ok, out, left);
    ContextsKeep(s, s', t);
    forall p | 0 <= p < |s'.sh.operations| ensures OperationInv(s', p) {
      if p < |s.sh.operations| { OperationAt(s, p); }
      DepartOperation(s, s', t, k, g, n, ok, out, left, p);
    }
    forall p | 0 <= p < |s'.sh.coordinations| ensures CoordinationInv(s', p) {
      CoordinationAt(s, p);
      if p == k {
        DepartOwnWindow(s, s', t, k, g, n, ok, out, left);
      } else {
        DepartOtherWindow(s, s', t, k, g, n, ok, out, left, p);
      }
    }
    DepartLog(s, s', t, k, g, n, ok, out, left);
    DepartCount(s, s', t, k, g, n, ok, out, left);
    DepartOrigin(s, s', t, k, g, n, ok, out, left);
    Assemble(s, s', t);
  }
}
