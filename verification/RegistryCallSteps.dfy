/** The steps of callers: observing a Remove, starting, stopping and shutting down. */
module RegistryCallSteps {
  import opened Options
  import opened RegistryState
  import opened RegistrySystem
  import opened RegistryInvariant
  import opened RegistrySections
  import opened RegistrySteps
  import opened RegistryRemoveSteps

  // ---------------------------------------------------------------- observers

  /** Actions that only read the shared state and give up nothing. */
  predicate Observes(a: Action) {
    a.RemoveEntry? || a.TerminalTurn? || a.AwaitRegisters? || a.AwaitOperation? || a.ReadResult?
  }

  ghost predicate MayGo(s: System, t: nat, next: Action)
    requires WellFormed(s) && t < |s.threads|
  {
    && KeepsRoles(s, t, next)
    && ActionBounded(s.sh, s.log, next) && ActionInv(s, t, next)
    && !HoldsNetwork(s.threads[t].act) && !HoldsNetwork(next)
  }

  lemma EntryMayGo(s: System, t: nat)
    requires Inv(s) && t < |s.threads| && s.threads[t] == Thread([], RemoveEntry)
    ensures MayGo(s, t, if s.sh.worker.None? then TerminalTurn(s.sh.generation) else OneShotRemoving(ToSend))
  {
    hide ThreadsInv, TablesInv, LogInv, OriginInv, SnapshotInv, CountInv, Carried, HistoryBounded;
    if s.sh.worker.Some? { ContextAt(s, s.sh.worker.value); }
  }

  lemma TerminalMayGo(s: System, t: nat, g: nat, next: Action)
    requires Inv(s) && t < |s.threads| && s.threads[t] == Thread([], TerminalTurn(g))
    requires !Terminal(s.sh, g).1.Owned? && StepTerminal(s, t, g) == Move(s, t, [], next)
    ensures MayGo(s, t, next)
  {
    hide ThreadsInv, TablesInv, LogInv, OriginInv, SnapshotInv, CountInv, Carried, HistoryBounded;
    ThreadAt(s, t);
    if s.sh.active.Some? { OperationAt(s, s.sh.active.value); }
    if s.sh.worker.Some? { ContextAt(s, s.sh.worker.value); }
    assert next == Move(s, t, [], next).threads[t].act;
  }

  /** An observer that has been woken finds a result, or a cancelled Pending Remove. */
  lemma ObserveMayGo(s: System, t: nat, o: nat, g: nat, wait: Wait, next: Action)
    requires Inv(s) && t < |s.threads| && s.threads[t] == Thread([], AwaitOperation(o, g, wait))
    requires o < |s.sh.operations| && s.sh.operations[o].done && StepObserve(s, t, o, g, wait) == Move(s, t, [], next)
    ensures MayGo(s, t, next)
  {
    hide ThreadsInv, TablesInv, LogInv, OriginInv, SnapshotInv, CountInv, Carried, HistoryBounded;
    ThreadAt(s, t);
    OperationAt(s, o);
    assert next == Move(s, t, [], next).threads[t].act;
  }

  lemma ReadMayGo(s: System, t: nat, o: nat)
    requires Inv(s) && t < |s.threads| && s.threads[t] == Thread([], ReadResult(o)) && o < |s.sh.operations|
    ensures s.sh.operations[o].result.Some? && MayGo(s, t, Idle)
  {
    hide ThreadsInv, TablesInv, LogInv, OriginInv, SnapshotInv, CountInv, Carried, HistoryBounded;
    ThreadAt(s, t);
    OperationAt(s, o);
  }

  lemma ObserverKeeps(s: System, t: nat, ch: Choice)
    requires Inv(s) && t < |s.threads| && s.threads[t].owed == [] && Observes(s.threads[t].act)
    requires ActionBounded(s.sh, s.log, s.threads[t].act) && Ready(s, s.threads[t].act)
    requires s.threads[t].act.TerminalTurn? ==> !Terminal(s.sh, s.threads[t].act.g).1.Owned?
    ensures Inv(PerformCall(s, t, s.threads[t].act, ch))
  {
    hide ThreadsInv, TablesInv, LogInv, OriginInv, SnapshotInv, CountInv, Carried, HistoryBounded, Slots, ActionInv;
    var a := s.threads[t].act;
    assert s.threads[t] == Thread([], a);
    var next := PerformCall(s, t, a, ch).threads[t].act;
    match a {
      case RemoveEntry => EntryMayGo(s, t);
      case TerminalTurn(g) => TerminalMayGo(s, t, g, next);
      case AwaitRegisters(k, g) => AwaitMayGo(s, t, k, g);
      case AwaitOperation(o, g, wait) => ObserveMayGo(s, t, o, g, wait, next);
      case ReadResult(o) => ReadMayGo(s, t, o);
    }
    MoveKeeps(s, t, next);
  }

  lemma AwaitMayGo(s: System, t: nat, k: nat, g: nat)
    requires Inv(s) && t < |s.threads| && s.threads[t] == Thread([], AwaitRegisters(k, g))
    ensures MayGo(s, t, TerminalTurn(g))
  {
    hide ThreadsInv, TablesInv, LogInv, OriginInv, SnapshotInv, CountInv, Carried, HistoryBounded;
    ThreadAt(s, t);
  }

  // ---------------------------------------------------------------- steps that work on the contexts

  /** What such a step leaves as it was. */
  ghost predicate ContextStep(s: System, s': System, t: nat) {
    && Bounded(s.sh) && Bounded(s'.sh)
    && CoordinationFrame(s, s', t)
    && LogFrame(s, s')
    && s'.network == s.network && s.network != Some(t)
    && s'.history.members == s.history.members
  }

  lemma ContextStepKeeps(s: System, s': System, t: nat)
    requires Inv(s) && ContextStep(s, s', t)
    requires WellFormed(s') && Slots(s'.sh) && HistoryBounded(s')
    requires RelyContexts(s, s', t) && RelyOperations(s, s', t) && OwnThread(s, s', t)
    requires forall c :: 0 <= c < |s'.sh.contexts| ==> ContextInv(s', c)
    requires forall o :: 0 <= o < |s'.sh.operations| ==> OperationInv(s', o)
    requires OriginInv(s') && CountInv(s') && Carried(s')
    ensures Inv(s')
  {
    hide ContextInv, OperationInv, CoordinationInv, EntryInv, OriginInv, CountInv, Carried, HistoryBounded;
    hide Slots, ThreadsInv, RelyOperations, RelyContexts, OwnThread, WellFormed;
    CoordinationsKeep(s, s', t);
    SnapshotKeeps(s, s');
    LogKeeps(s, s');
    assert RelyRest(s, s', t);
    hide LogInv, SnapshotInv, CoordinationFrame, LogFrame, RelyRest, TablesInv;
    Assemble(s, s', t);
  }

  // ---------------------------------------------------------------- preparing a start

  /** The state after a start has been prepared. */
  ghost predicate Prepares(s: System, s': System, t: nat) {
    var c := |s.sh.contexts|;
    && Bounded(s.sh) && Bounded(s'.sh)
    && t < |s.threads| && s.threads[t] == Thread([], PrepareStart)
    && s.network != Some(t)
    && s.sh.prepared.None? && s.sh.worker.None?
    && s'.sh == s.sh.(prepared := Some(c), contexts := s.sh.contexts
                        + [Context(s.sh.generation + 1, false, false, None, true, |s.threads|)])
    && s'.network == s.network && s'.log == s.log
    && s'.history == s.history.(starter := s.history.starter[c := t])
    && s'.threads == s.threads[t := Thread([], OwnStart(c))] + [Thread([], Renewing(c, Gate))]
  }

  lemma PreparesFrames(s: System, s': System, t: nat)
    requires Prepares(s, s', t) && HistoryBounded(s)
    ensures ContextStep(s, s', t) && OperationFrame(s, s', t) && HistoryBounded(s')
    ensures RelyContexts(s, s', t) && RelyOperations(s, s', t)
  {
  }

  lemma PreparesThread(s: System, s': System, t: nat)
    requires WellFormed(s) && HistoryBounded(s) && Prepares(s, s', t)
    ensures WellFormed(s') && OwnThread(s, s', t)
  {
    GrownWellFormed(s, s', t);
  }

  lemma PreparesContext(s: System, s': System, t: nat, d: nat)
    requires Prepares(s, s', t) && HistoryBounded(s) && d < |s'.sh.contexts|
    requires d < |s.sh.contexts| ==> ContextInv(s, d)
    ensures ContextInv(s', d)
  {
  }

  lemma PrepareKeeps(s: System, t: nat, started: bool)
    requires Inv(s) && t < |s.threads| && s.threads[t] == Thread([], PrepareStart)
    ensures Inv(StepPrepare(s, t, started))
  {
    NetworkNotMine(s, t);
    hide ThreadsInv, ContextInv, OperationInv, LogInv, OriginInv, SnapshotInv, CountInv, Carried, HistoryBounded;
    var s' := StepPrepare(s, t, started);
    PrepareSlots(s.sh, |s.threads|, started);
    if Prepare(s.sh, |s.threads|, started).1.None? {
      MoveKeeps(s, t, Idle);
    } else {
      assert Prepares(s, s', t);
      hide Slots, StepPrepare, Prepares, WellFormed;
      PreparesFrames(s, s', t);
      PreparesThread(s, s', t);
      forall d | 0 <= d < |s'.sh.contexts| ensures ContextInv(s', d) {
        if d < |s.sh.contexts| { ContextAt(s, d); }
        PreparesContext(s, s', t, d);
      }
      PreparesRest(s, s', t);
    }
  }

  lemma PreparesRest(s: System, s': System, t: nat)
    requires Inv(s) && Prepares(s, s', t)
    requires ContextStep(s, s', t) && OperationFrame(s, s', t) && HistoryBounded(s') && Slots(s'.sh)
    requires RelyContexts(s, s', t) && RelyOperations(s, s', t)
    requires WellFormed(s') && OwnThread(s, s', t)
    requires forall c :: 0 <= c < |s'.sh.contexts| ==> ContextInv(s', c)
    ensures Inv(s')
  {
    hide ThreadsInv, ContextInv, OperationInv, CoordinationInv, LogInv, SnapshotInv, HistoryBounded, WellFormed, Slots;
    hide RelyContexts, RelyOperations, OwnThread, ContextStep;
    OriginKeeps(s, s');
    CarriedKeeps(s, s', t);
    OperationsKeep(s, s', t);
    assert CountInv(s');
    hide OperationFrame, OriginInv, Carried, CountInv, Prepares, TablesInv;
    ContextStepKeeps(s, s', t);
  }

  // ---------------------------------------------------------------- withdrawing or waking a prepared start

  /** The state after `cancel` or `settle` set out to open the gate of `c`; `taken` says that the token
      was still in its slot. */
  ghost predicate Withdraws(s: System, s': System, t: nat, c: nat, taken: bool) {
    && Bounded(s.sh) && Bounded(s'.sh)
    && t < |s.threads| && s.threads[t].owed == [] && c < |s.sh.contexts|
    && (s.threads[t].act == OwnStart(c) || s.threads[t].act == AfterActivation(c))
    && s.network != Some(t)
    && taken == (s.sh.prepared == Some(c))
    && s'.sh == (if taken then s.sh.(prepared := None,
                                     contexts := s.sh.contexts[c := s.sh.contexts[c].(owned := false)])
                 else s.sh)
    && s'.history == (if taken then s.history.(waker := s.history.waker[c := t]) else s.history)
    && s'.network == s.network && s'.log == s.log
    && s'.threads == s.threads[t := Thread([SignalGate(c)], Idle)]
  }

  lemma WithdrawsFrames(s: System, s': System, t: nat, c: nat, taken: bool)
    requires Withdraws(s, s', t, c, taken) && HistoryBounded(s)
    ensures ContextStep(s, s', t) && OperationFrame(s, s', t) && HistoryBounded(s')
  {
  }

  lemma WithdrawsRest(s: System, s': System, t: nat, c: nat, taken: bool)
    requires Withdraws(s, s', t, c, taken) && CountInv(s) && OriginInv(s) && Carried(s)
    ensures RelyContexts(s, s', t) && RelyOperations(s, s', t)
    ensures CountInv(s') && OriginInv(s') && Carried(s')
  {
    CarriedKeeps(s, s', t);
  }

  lemma WithdrawsThread(s: System, s': System, t: nat, c: nat, taken: bool)
    requires WellFormed(s) && Withdraws(s, s', t, c, taken)
    ensures WellFormed(s') && OwnThread(s, s', t)
  {
    GrownWellFormed(s, s', t);
  }

  lemma WithdrawsContext(s: System, s': System, t: nat, c: nat, taken: bool, d: nat)
    requires Withdraws(s, s', t, c, taken) && d < |s.sh.contexts| && ContextInv(s, d)
    ensures ContextInv(s', d)
  {
  }

  lemma WithdrawKeeps(s: System, s': System, t: nat, c: nat, taken: bool)
    requires Inv(s) && Withdraws(s, s', t, c, taken) && Slots(s'.sh)
    ensures Inv(s')
  {
    assert |s'.sh.contexts| == |s.sh.contexts|;
    hide ThreadsInv, ContextInv, OperationInv, LogInv, OriginInv, SnapshotInv, CountInv, Carried, HistoryBounded;
    hide WellFormed, Withdraws, Slots, CoordinationInv, OperationFrame, ContextStep, OwnThread, RelyContexts;
    hide RelyOperations;
    WithdrawsFrames(s, s', t, c, taken);
    WithdrawsRest(s, s', t, c, taken);
    WithdrawsThread(s, s', t, c, taken);
    forall d | 0 <= d < |s'.sh.contexts| ensures ContextInv(s', d) {
      ContextAt(s, d);
      WithdrawsContext(s, s', t, c, taken, d);
    }
    OperationsKeep(s, s', t);
    ContextStepKeeps(s, s', t);
  }

  lemma CancelKeeps(s: System, t: nat, c: nat)
    requires Inv(s) && t < |s.threads| && s.threads[t] == Thread([], OwnStart(c)) && c < |s.sh.contexts|
    ensures Inv(StepCancel(s, t, c))
  {
    NetworkNotMine(s, t);
    CancelSlots(s.sh, c);
    hide ThreadsInv, TablesInv, LogInv, OriginInv, SnapshotInv, CountInv, Carried, HistoryBounded, Slots;
    if s.sh.prepared == Some(c) {
      WithdrawKeeps(s, StepCancel(s, t, c), t, c, true);
    } else {
      MoveKeeps(s, t, Idle);
    }
  }

  lemma SettleKeeps(s: System, t: nat, c: nat)
    requires Inv(s) && t < |s.threads| && c < |s.sh.contexts|
    requires s.threads[t] == Thread([], OwnStart(c)) || s.threads[t] == Thread([], AfterActivation(c))
    ensures Inv(StepSettle(s, t, c))
  {
    NetworkNotMine(s, t);
    ThreadAt(s, t);
    CancelSlots(s.sh, c);
    SettleShape(s, t, c);
    hide ThreadsInv, TablesInv, LogInv, OriginInv, SnapshotInv, CountInv, Carried, HistoryBounded, Slots, Withdraws;
    hide StepSettle, WellFormed;
    match Settle(s.sh, c).1
    case CancelUncommitted => WithdrawKeeps(s, StepSettle(s, t, c), t, c, true);
    case WakeCommitted => WithdrawKeeps(s, StepSettle(s, t, c), t, c, false);
    case Untouched => MoveKeeps(s, t, Idle);
  }

  lemma SettleShape(s: System, t: nat, c: nat)
    requires Slots(s.sh) && t < |s.threads| && c < |s.sh.contexts| && s.network != Some(t)
    requires s.threads[t] == Thread([], OwnStart(c)) || s.threads[t] == Thread([], AfterActivation(c))
    ensures
      var s' := StepSettle(s, t, c);
      var (sh', out) := Settle(s.sh, c);
      && (out.CancelUncommitted? ==> Withdraws(s, s', t, c, true))
      && (out.WakeCommitted? ==> Withdraws(s, s', t, c, false))
      && (out.Untouched? ==> s' == Move(s, t, [], Idle) && (s.sh.prepared != Some(c)))
      && s'.sh == sh'
  {
  }

  // ---------------------------------------------------------------- activation

  /** The state after a prepared start has become the Worker. */
  ghost predicate Activates(s: System, s': System, t: nat, c: nat) {
    var h, h' := s.history, s'.history;
    && Bounded(s.sh) && Bounded(s'.sh)
    && t < |s.threads| && s.threads[t] == Thread([], OwnStart(c)) && c < |s.sh.contexts|
    && s.network != Some(t)
    && s.sh.prepared == Some(c) && s.sh.worker.None?
    && s'.sh == s.sh.(generation := s.sh.generation + 1, worker := Some(c), prepared := None, coordination := None,
                      pending := None, contexts := s'.sh.contexts)
    && s'.sh.contexts == (if s.sh.active.Some? then s.sh.contexts[c := s.sh.contexts[c].(waitRemove := s.sh.active)]
                          else s.sh.contexts)
    && s'.network == s.network && s'.log == s.log
    && s'.threads == s.threads[t := Thread(OperationSignals(s.sh.pending) + CoordinationSignals(s.sh.coordination)
                                           + [SignalGate(c)], AfterActivation(c))]
    && h' == h.(committed := h.committed + {c}, removeSent := 0,
                waker := h.waker[c := t],
                operationDebtor := if s.sh.pending.Some? then h.operationDebtor[s.sh.pending.value := t]
                                   else h.operationDebtor,
                coordinationDebtor := if s.sh.coordination.Some?
                                      then h.coordinationDebtor[s.sh.coordination.value := t]
                                      else h.coordinationDebtor)
  }

  /** What activation relies on: the slots, the bounds of the history, and a Worker-to-be that has
      never finished and still waits at its gate. */
  ghost predicate AtActivate(s: System, c: nat) {
    && Slots(s.sh) && HistoryBounded(s)
    && c < |s.sh.contexts| && ContextInv(s, c)
    && (s.sh.active.Some? ==> s.sh.active.value in s.history.claimed)
    && s.history.topKey <= 2 * s.sh.generation + 1
  }

  lemma ActivatesShape(s: System, t: nat, c: nat)
    requires Inv(s) && t < |s.threads| && s.threads[t] == Thread([], OwnStart(c)) && s.sh.prepared == Some(c)
    ensures Activates(s, StepActivate(s, t, c), t, c) && AtActivate(s, c) && Slots(StepActivate(s, t, c).sh)
  {
    hide ThreadsInv, TablesInv, EntryInv, OriginInv, SnapshotInv, CountInv, Carried;
    NetworkNotMine(s, t);
    ContextAt(s, c);
    if s.sh.active.Some? { OperationAt(s, s.sh.active.value); }
    ActivateEffect(s.sh, c);
    hide Activate;
  }

  lemma ActivatesLog(s: System, s': System, t: nat, c: nat)
    requires AtActivate(s, c) && Activates(s, s', t, c) && LogInv(s) && OriginInv(s) && SnapshotInv(s) && CountInv(s)
    ensures LogInv(s') && OriginInv(s') && SnapshotInv(s') && CountInv(s') && Carried(s') && HistoryBounded(s')
  {
    hide EntryInv, ContextInv, OriginInv, SnapshotInv;
    LogKeeps(s, s');
    SnapshotKeeps(s, s');
    OriginKeeps(s, s');
  }

  lemma ActivatesRely(s: System, s': System, t: nat, c: nat)
    requires AtActivate(s, c) && Activates(s, s', t, c)
    ensures Guarantee(s, s', t)
  {
    assert RelyContexts(s, s', t);
    assert RelyOperations(s, s', t);
    assert RelyRest(s, s', t);
  }

  lemma ActivatesThread(s: System, s': System, t: nat, c: nat)
    requires WellFormed(s) && AtActivate(s, c) && Activates(s, s', t, c)
    ensures WellFormed(s') && OwnThread(s, s', t)
  {
    hide ContextInv, HistoryBounded;
    GrownWellFormed(s, s', t);
  }

  lemma ActivatesContext(s: System, s': System, t: nat, c: nat, d: nat)
    requires AtActivate(s, c) && Activates(s, s', t, c) && d < |s.sh.contexts| && ContextInv(s, d)
    ensures ContextInv(s', d)
  {
  }

  lemma ActivatesOperation(s: System, s': System, t: nat, c: nat, o: nat)
    requires AtActivate(s, c) && Activates(s, s', t, c) && o < |s.sh.operations| && OperationInv(s, o)
    ensures OperationInv(s', o)
  {
    hide ContextInv;
  }

  lemma ActivatesWindow(s: System, s': System, t: nat, c: nat, k: nat)
    requires AtActivate(s, c) && Activates(s, s', t, c) && k < |s.sh.coordinations| && CoordinationInv(s, k)
    ensures CoordinationInv(s', k)
  {
    hide ContextInv;
  }

  lemma ActivateKeeps(s: System, t: nat, c: nat)
    requires Inv(s) && t < |s.threads| && s.threads[t] == Thread([], OwnStart(c)) && c < |s.sh.contexts|
    ensures Inv(StepActivate(s, t, c))
  {
    if s.sh.prepared != Some(c) {
      NetworkNotMine(s, t);
      hide ThreadsInv, TablesInv, LogInv, OriginInv, SnapshotInv, CountInv, Carried, HistoryBounded, Slots;
      MoveKeeps(s, t, AfterActivation(c));
    } else {
      ActivatesShape(s, t, c);
      var s' := StepActivate(s, t, c);
      assert |s'.sh.contexts| == |s.sh.contexts| && s'.sh.operations == s.sh.operations
             && s'.sh.coordinations == s.sh.coordinations;
      hide ThreadsInv, LogInv, OriginInv, SnapshotInv, CountInv, Carried, HistoryBounded, Slots, StepActivate;
      hide Activates, AtActivate, WellFormed, ContextInv, OperationInv, CoordinationInv, Guarantee, OwnThread;
      ActivatesRely(s, s', t, c);
      ActivatesThread(s, s', t, c);
      ActivatesLog(s, s', t, c);
      forall d | 0 <= d < |s'.sh.contexts| ensures ContextInv(s', d) {
        ContextAt(s, d);
        ActivatesContext(s, s', t, c, d);
      }
      forall o | 0 <= o < |s'.sh.operations| ensures OperationInv(s', o) {
        OperationAt(s, o);
        ActivatesOperation(s, s', t, c, o);
      }
      forall k | 0 <= k < |s'.sh.coordinations| ensures CoordinationInv(s', k) {
        CoordinationAt(s, k);
        ActivatesWindow(s, s', t, c, k);
      }
      Assemble(s, s', t);
    }
  }
}
