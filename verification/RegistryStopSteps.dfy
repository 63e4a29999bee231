/** The steps of `stop` and `shutdown`: stopping locally and requesting the lifecycle Remove. */
module RegistryStopSteps {
  import opened Options
  import opened RegistryState
  import opened RegistrySystem
  import opened RegistryInvariant
  import opened RegistrySections
  import opened RegistrySteps
  import opened RegistryRemoveSteps
  import opened RegistryCallSteps

  // ---------------------------------------------------------------- stopping locally

  /** The state after the Worker and the prepared start have been taken out of their slots. */
  ghost predicate Halts(s: System, s': System, t: nat, next: Action) {
    var h := s.history;
    && Bounded(s.sh) && Bounded(s'.sh)
    && t < |s.threads| && s.threads[t].owed == []
    && (s.threads[t].act.StopCall? || s.threads[t].act.ShutdownCall?)
    && s.network != Some(t)
    && s'.sh == StopLocal(s.sh.(prepared := None)).(coordinations := s'.sh.coordinations)
    && SameWindows(s.sh.coordinations, s'.sh.coordinations)
    && s'.history == (if s.sh.prepared.Some? then h.(waker := h.waker[s.sh.prepared.value := t]) else h)
    && s'.network == s.network && s'.log == s.log
    && s'.threads == s.threads[t := Thread(GateSignals(s.sh.prepared), next)]
    && (next == Idle || next == ShutdownRequest(s.sh.generation))
  }

  lemma HaltsFrames(s: System, s': System, t: nat, next: Action)
    requires Slots(s.sh) && Halts(s, s', t, next) && HistoryBounded(s)
    ensures ContextStep(s, s', t) && OperationFrame(s, s', t) && HistoryBounded(s')
  {
    HaltsOperations(s, s', t, next);
    HaltsWindows(s, s', t, next);
    HaltsLog(s, s', t, next);
    hide OperationFrame, HistoryBounded, Slots, CoordinationFrame, LogFrame, SameWindows;
  }

  lemma HaltsOperations(s: System, s': System, t: nat, next: Action)
    requires Halts(s, s', t, next) && HistoryBounded(s)
    ensures OperationFrame(s, s', t) && HistoryBounded(s')
  {
  }

  lemma HaltsWindows(s: System, s': System, t: nat, next: Action)
    requires Halts(s, s', t, next)
    ensures CoordinationFrame(s, s', t)
  {
  }

  lemma HaltsLog(s: System, s': System, t: nat, next: Action)
    requires Halts(s, s', t, next)
    ensures LogFrame(s, s')
  {
  }

  lemma HaltsRely(s: System, s': System, t: nat, next: Action)
    requires Slots(s.sh) && Halts(s, s', t, next)
    ensures RelyContexts(s, s', t) && RelyOperations(s, s', t)
  {
  }

  lemma HaltsRest(s: System, s': System, t: nat, next: Action)
    requires Slots(s.sh) && Halts(s, s', t, next) && CountInv(s) && OriginInv(s) && Carried(s)
    ensures CountInv(s') && OriginInv(s') && Carried(s')
  {
    hide SameWindows;
    CarriedKeeps(s, s', t);
    OriginKeeps(s, s');
  }

  lemma HaltsThread(s: System, s': System, t: nat, next: Action)
    requires WellFormed(s) && Slots(s.sh) && Halts(s, s', t, next)
    ensures WellFormed(s') && OwnThread(s, s', t)
  {
    assert |s'.sh.coordinations| == |s.sh.coordinations|;
    hide Slots, SameWindows;
    GrownWellFormed(s, s', t);
  }

  lemma HaltsContext(s: System, s': System, t: nat, next: Action, d: nat)
    requires Slots(s.sh) && Halts(s, s', t, next) && d < |s.sh.contexts| && ContextInv(s, d)
    ensures ContextInv(s', d)
  {
    hide SameWindows;
  }

  lemma HaltKeeps(s: System, s': System, t: nat, next: Action)
    requires Inv(s) && Halts(s, s', t, next) && Slots(s'.sh)
    ensures Inv(s')
  {
    assert |s'.sh.contexts| == |s.sh.contexts|;
    hide ThreadsInv, ContextInv, OperationInv, LogInv, OriginInv, SnapshotInv, CountInv, Carried, HistoryBounded;
    hide WellFormed, Halts, Slots, CoordinationInv, OperationFrame, ContextStep, OwnThread, RelyContexts;
    hide RelyOperations;
    HaltsFrames(s, s', t, next);
    HaltsRely(s, s', t, next);
    HaltsRest(s, s', t, next);
    HaltsThread(s, s', t, next);
    forall d | 0 <= d < |s'.sh.contexts| ensures ContextInv(s', d) {
      ContextAt(s, d);
      HaltsContext(s, s', t, next, d);
    }
    OperationsKeep(s, s', t);
    ContextStepKeeps(s, s', t);
  }

  // ---------------------------------------------------------------- requesting the Remove

  /** The state after a Remove has been requested for the current generation. */
  ghost predicate Requests(s: System, s': System, t: nat, next: Action) {
    var h := s.history;
    var created := |s'.sh.operations| == |s.sh.operations| + 1;
    && Bounded(s.sh) && Bounded(s'.sh)
    && t < |s.threads| && s.threads[t].act == ShutdownRequest(s.sh.generation)
    && s.network != Some(t)
    && s.sh.worker.None?
    && s'.sh == s.sh.(coordination := s'.sh.coordination, coordinations := s'.sh.coordinations,
                      pending := s'.sh.pending, operations := s'.sh.operations,
                      removeRequested := s'.sh.removeRequested)
    && SameWindows(s.sh.coordinations, s'.sh.coordinations)
    && WindowStaysOrEnds(s.sh, s'.sh)
    && (s'.sh.coordination != s.sh.coordination ==> s.sh.generation == 0 && !s.sh.registered)
    && (if created then s.sh.coordination.None? && CreatesPending(s.sh, s'.sh) else SameOperations(s.sh, s'.sh))
    && (s.sh.coordination.Some? && s.sh.coordinations[s.sh.coordination.value].inflight > 0 ==>
          s'.sh.removeRequested == s.sh.removeRequested)
    && s'.history == (if created then h.(created := h.created + multiset{s.sh.generation}) else h)
    && s'.network == s.network && s'.log == s.log
    && s'.threads == s.threads[t := Thread(s.threads[t].owed, next)]
    && (next == ScheduleRemove(true, End) || (next == Idle && !created))
  }

  lemma RequestsFrames(s: System, s': System, t: nat, next: Action)
    requires Requests(s, s', t, next) && HistoryBounded(s)
    requires s.sh.coordination.Some? ==> CoordinationInv(s, s.sh.coordination.value)
                                         && s.sh.coordinations[s.sh.coordination.value].generation == s.sh.generation
    ensures OperationStep(s, s', t) && HistoryBounded(s')
  {
  }

  lemma RequestsRely(s: System, s': System, t: nat, next: Action)
    requires Requests(s, s', t, next)
    ensures RelyOperations(s, s', t)
  {
  }

  lemma RequestsThread(s: System, s': System, t: nat, next: Action)
    requires WellFormed(s) && Requests(s, s', t, next) && ThreadInv(s, t)
    ensures WellFormed(s') && OwnThread(s, s', t)
  {
    assert ThreadBounded(s.sh, s.log, s.threads[t]);
    GrownWellFormed(s, s', t);
    forall x | x in s'.threads[t].owed ensures SignalInv(s', x) {
      assert SignalBounded(s.sh, x) && SignalInv(s, x);
    }
  }

  lemma RequestsOperation(s: System, s': System, t: nat, next: Action, p: nat)
    requires Requests(s, s', t, next) && HistoryBounded(s) && p < |s'.sh.operations|
    requires p < |s.sh.operations| ==> OperationInv(s, p)
    ensures OperationInv(s', p)
  {
  }

  lemma RequestsRest(s: System, s': System, t: nat, next: Action)
    requires Slots(s.sh) && Requests(s, s', t, next) && CountInv(s) && OriginInv(s) && Carried(s)
    ensures CountInv(s') && OriginInv(s') && Carried(s')
  {
    hide SameWindows;
    CarriedKeeps(s, s', t);
    OriginKeeps(s, s');
  }

  lemma RequestKeeps(s: System, s': System, t: nat, next: Action)
    requires Inv(s) && Requests(s, s', t, next) && Slots(s'.sh)
    ensures Inv(s')
  {
    assert |s'.sh.operations| <= |s.sh.operations| + 1;
    if s.sh.coordination.Some? { CoordinationAt(s, s.sh.coordination.value); }
    ThreadAt(s, t);
    assert s.sh.coordination.Some? ==> s.sh.coordinations[s.sh.coordination.value].generation == s.sh.generation;
    hide ThreadsInv, ThreadInv, ContextInv, OperationInv, LogInv, OriginInv, SnapshotInv, CountInv, Carried;
    hide WellFormed, Requests, Slots, CoordinationInv, OperationStep, OwnThread, RelyOperations, HistoryBounded;
    RequestsFrames(s, s', t, next);
    RequestsRely(s, s', t, next);
    RequestsRest(s, s', t, next);
    RequestsThread(s, s', t, next);
    forall p | 0 <= p < |s'.sh.operations| ensures OperationInv(s', p) {
      if p < |s.sh.operations| { OperationAt(s, p); }
      RequestsOperation(s, s', t, next, p);
    }
    OperationStepKeeps(s, s', t);
  }

  /** The section that requests a Remove has the effect described. */
  lemma RequestsShape(s: System, t: nat)
    requires Slots(s.sh) && s.sh.worker.None? && s.network != Some(t)
    requires t < |s.threads| && s.threads[t].act == ShutdownRequest(s.sh.generation)
    ensures
      var (sh', operation) := RequestRemove(s.sh);
      var next := if operation.Some? then ScheduleRemove(true, End) else Idle;
      var s' := Move(s.(sh := sh', history := NoteCreated(s.history, s.sh, sh')), t, s.threads[t].owed, next);
      Requests(s, s', t, next) && Slots(s'.sh)
  {
    RequestEffect(s.sh);
    RequestSlots(s.sh);
    hide Slots, RequestRemove, SameWindows;
  }

  lemma RequestStepKeeps(s: System, t: nat)
    requires Inv(s) && t < |s.threads| && s.threads[t].act == ShutdownRequest(s.sh.generation)
    ensures
      var (sh', operation) := RequestRemove(s.sh);
      var next := if operation.Some? then ScheduleRemove(true, End) else Idle;
      Inv(Move(s.(sh := sh', history := NoteCreated(s.history, s.sh, sh')), t, s.threads[t].owed, next))
  {
    hide TablesInv, LogInv, OriginInv, SnapshotInv, CountInv, Carried, HistoryBounded, Slots, ThreadsInv;
    ThreadAt(s, t);
    NetworkNotMine(s, t);
    RequestsShape(s, t);
    var (sh', operation) := RequestRemove(s.sh);
    var next := if operation.Some? then ScheduleRemove(true, End) else Idle;
    hide WellFormed, ThreadInv, RequestRemove, Requests, NoteCreated;
    RequestKeeps(s, Move(s.(sh := sh', history := NoteCreated(s.history, s.sh, sh')),
                  t, s.threads[t].owed, next), t, next);
  }

  lemma ShutdownRequestKeeps(s: System, t: nat, g: nat, valid: bool)
    requires Inv(s) && t < |s.threads| && s.threads[t] == Thread([], ShutdownRequest(g))
    ensures Inv(if valid then StepShutdownRequest(s, t, g) else Move(s, t, [], Idle))
  {
    hide ThreadsInv, TablesInv, LogInv, OriginInv, SnapshotInv, CountInv, Carried, HistoryBounded, Slots, RequestRemove;
    if valid && g == s.sh.generation {
      RequestStepKeeps(s, t);
    } else {
      assert NoteCreated(s.history, s.sh, s.sh) == s.history;
      MoveKeeps(s, t, Idle);
      assert s.(sh := s.sh, history := s.history) == s;
    }
  }

  lemma ShutdownKeeps(s: System, t: nat, deregister: bool)
    requires Inv(s) && t < |s.threads| && s.threads[t] == Thread([], ShutdownCall(deregister))
    ensures Inv(StepShutdown(s, t, deregister))
  {
    NetworkNotMine(s, t);
    hide ThreadsInv, TablesInv, LogInv, OriginInv, SnapshotInv, CountInv, Carried, HistoryBounded;
    ShutdownSlots(s.sh, deregister);
    var s' := StepShutdown(s, t, deregister);
    var next := s'.threads[t].act;
    hide Slots, Shutdown, SameWindows;
    HaltKeeps(s, s', t, next);
  }

  /** `stop` with a Remove is a local stop and a request in one section. */
  lemma StopKeeps(s: System, t: nat, remove: bool)
    requires Inv(s) && t < |s.threads| && s.threads[t] == Thread([], StopCall(remove))
    ensures Inv(StepStop(s, t, remove))
  {
    NetworkNotMine(s, t);
    hide ThreadsInv, TablesInv, LogInv, OriginInv, SnapshotInv, CountInv, Carried, HistoryBounded, RequestRemove;
    StopLocalSlots(s.sh);
    hide Slots;
    var sh1 := StopLocal(s.sh.(prepared := None));
    var h1 := OweGate(s.history, s.sh.prepared, t);
    var next := if remove then ShutdownRequest(s.sh.generation) else Idle;
    var halted := Move(s.(sh := sh1, history := h1), t, GateSignals(s.sh.prepared), next);
    HaltKeeps(s, halted, t, next);
    if remove {
      RequestStepKeeps(halted, t);
      StopInTwo(s, t, halted);
    } else {
      assert StepStop(s, t, false) == halted;
    }
  }

  lemma StopInTwo(s: System, t: nat, halted: System)
    requires Bounded(s.sh) && t < |s.threads|
    requires
      var sh1 := StopLocal(s.sh.(prepared := None));
      var h1 := OweGate(s.history, s.sh.prepared, t);
      halted == Move(s.(sh := sh1, history := h1), t, GateSignals(s.sh.prepared), ShutdownRequest(s.sh.generation))
    ensures
      var (sh', operation) := RequestRemove(halted.sh);
      var next := if operation.Some? then ScheduleRemove(true, End) else Idle;
      StepStop(s, t, true)
        == Move(halted.(sh := sh', history := NoteCreated(halted.history, halted.sh, sh')),
                t, halted.threads[t].owed, next)
  {
    hide RequestRemove;
  }
}
