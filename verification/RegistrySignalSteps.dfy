/** Setting the events a thread owes, which happens after every section outside the locks. */
module RegistrySignalSteps {
  import opened Options
  import opened RegistryState
  import opened RegistrySystem
  import opened RegistryInvariant
  import opened RegistrySections
  import opened RegistrySteps
  import opened RegistryRemoveSteps

  /** Thread `t` sets the event `x`, the first it owes. */
  ghost predicate Signals(s: System, s': System, t: nat, x: Signal) {
    && Bounded(s.sh) && Bounded(s'.sh)
    && t < |s.threads| && s.threads[t].owed != [] && x == s.threads[t].owed[0]
    && !s.threads[t].act.Removing? && !s.threads[t].act.Renewing?
    && SignalBounded(s.sh, x)
    && s'.sh == (match x
                 case SignalOperation(o) => SetOperationDone(s.sh, o)
                 case SignalCoordination(k) => SetCoordinationDone(s.sh, k)
                 case SignalGate(c) => SetGate(s.sh, c))
    && s'.network == s.network && s'.log == s.log && s'.history == s.history
    && s'.threads == s.threads[t := Thread(s.threads[t].owed[1..], s.threads[t].act)]
  }

  /** An event that is still owed is owed by the same thread. */
  lemma StillOwed(s: System, s': System, t: nat, x: Signal, m: map<nat, nat>, id: nat, y: Signal)
    requires Signals(s, s', t, x) && OwedBy(s, m, id, y) && y != x
    ensures OwedBy(s', m, id, y)
  {
    if m[id] == t {
      var owed := s.threads[t].owed;
      assert owed == [x] + owed[1..];
    }
  }

  lemma SignalSlots(s: System, s': System, t: nat, x: Signal)
    requires Slots(s.sh) && Signals(s, s', t, x) && SignalInv(s, x)
    ensures Slots(s'.sh)
  {
    match x
    case SignalOperation(o) => OperationDoneSlots(s.sh, o);
    case SignalCoordination(k) => CoordinationDoneSlots(s.sh, k);
    case SignalGate(c) => GateSlots(s.sh, c);
  }

  lemma SignalGuarantee(s: System, s': System, t: nat, x: Signal)
    requires Signals(s, s', t, x)
    ensures Guarantee(s, s', t)
  {
  }

  lemma SignalContext(s: System, s': System, t: nat, x: Signal, c: nat)
    requires Signals(s, s', t, x) && c < |s.sh.contexts| && ContextInv(s, c)
    ensures ContextInv(s', c)
  {
    if x != SignalGate(c) && !s.sh.contexts[c].gate && s.sh.prepared != Some(c) {
      StillOwed(s, s', t, x, s.history.waker, c, SignalGate(c));
    }
  }

  lemma SignalOperationKeeps(s: System, s': System, t: nat, x: Signal, o: nat)
    requires Signals(s, s', t, x) && o < |s.sh.operations| && OperationInv(s, o)
    ensures OperationInv(s', o)
  {
    if x != SignalOperation(o) && !s.sh.operations[o].done && s.sh.pending != Some(o) && s.sh.active != Some(o) {
      StillOwed(s, s', t, x, s.history.operationDebtor, o, SignalOperation(o));
    }
  }

  lemma SignalWindow(s: System, s': System, t: nat, x: Signal, k: nat)
    requires Signals(s, s', t, x) && k < |s.sh.coordinations| && CoordinationInv(s, k)
    ensures CoordinationInv(s', k)
  {
    if x != SignalCoordination(k) && !s.sh.coordinations[k].done && s.sh.coordinations[k].inflight == 0 {
      StillOwed(s, s', t, x, s.history.coordinationDebtor, k, SignalCoordination(k));
    }
  }

  lemma SignalWellFormed(s: System, s': System, t: nat, x: Signal)
    requires WellFormed(s) && Signals(s, s', t, x)
    ensures WellFormed(s')
  {
    forall u | 0 <= u < |s.threads| ensures ThreadBounded(s'.sh, s'.log, s'.threads[u]) {
      assert ThreadBounded(s.sh, s.log, s.threads[u]);
    }
  }

  lemma SignalThread(s: System, s': System, t: nat, x: Signal)
    requires WellFormed(s) && Signals(s, s', t, x) && ThreadInv(s, t) && WellFormed(s')
    requires s.network != Some(t)
    ensures OwnThread(s, s', t)
  {
    assert ActionInv(s', t, s.threads[t].act);
    forall y | y in s'.threads[t].owed ensures SignalInv(s', y) { assert y in s.threads[t].owed; }
  }

  lemma SignalLog(s: System, s': System, t: nat, x: Signal)
    requires Signals(s, s', t, x) && LogInv(s) && OriginInv(s) && SnapshotInv(s) && CountInv(s) && Carried(s)
    ensures LogInv(s') && OriginInv(s') && SnapshotInv(s') && CountInv(s') && Carried(s')
  {
    hide EntryInv, OriginInv, SnapshotInv, LogInv;
    LogKeeps(s, s');
    SnapshotKeeps(s, s');
    OriginKeeps(s, s');
    if s.sh.pending.Some? && s.sh.active.None? && s.sh.generation !in s.sh.stopping {
      var u :| 0 <= u < |s.threads| && OwesSchedule(s.threads[u].act);
      assert OwesSchedule(s'.threads[u].act);
    }
  }

  lemma SignalFacts(s: System, t: nat)
    requires WellFormed(s) && t < |s.threads| && s.threads[t].owed != [] && ThreadInv(s, t)
    ensures !s.threads[t].act.Removing? && !s.threads[t].act.Renewing? && !HoldsNetwork(s.threads[t].act)
    ensures SignalBounded(s.sh, s.threads[t].owed[0]) && SignalInv(s, s.threads[t].owed[0])
  {
    hide ActionInv, SignalInv;
    assert ThreadBounded(s.sh, s.log, s.threads[t]);
    assert s.threads[t].owed[0] in s.threads[t].owed;
  }

  lemma SignalShape(s: System, t: nat)
    requires WellFormed(s) && Bounded(s.sh) && t < |s.threads| && s.threads[t].owed != []
    requires !s.threads[t].act.Removing? && !s.threads[t].act.Renewing?
    requires SignalBounded(s.sh, s.threads[t].owed[0])
    ensures Signals(s, SendSignal(s, t), t, s.threads[t].owed[0])
  {
    hide WellFormed;
  }

  lemma SignalKeeps(s: System, t: nat)
    requires Inv(s) && t < |s.threads| && s.threads[t].owed != []
    ensures Inv(SendSignal(s, t))
  {
    ThreadAt(s, t);
    SignalFacts(s, t);
    SignalShape(s, t);
    NetworkNotMine(s, t);
    var s' := SendSignal(s, t);
    var x := s.threads[t].owed[0];
    assert |s'.sh.contexts| == |s.sh.contexts| && |s'.sh.operations| == |s.sh.operations|
           && |s'.sh.coordinations| == |s.sh.coordinations|;
    hide ThreadsInv, ThreadInv, ContextInv, OperationInv, CoordinationInv, LogInv, OriginInv, SnapshotInv, CountInv;
    hide Carried, WellFormed, Slots, HistoryBounded, Signals, SendSignal, Guarantee, OwnThread, SignalInv;
    SignalSlots(s, s', t, x);
    SignalGuarantee(s, s', t, x);
    SignalWellFormed(s, s', t, x);
    SignalThread(s, s', t, x);
    SignalLog(s, s', t, x);
    forall c | 0 <= c < |s'.sh.contexts| ensures ContextInv(s', c) {
      ContextAt(s, c);
      SignalContext(s, s', t, x, c);
    }
    forall o | 0 <= o < |s'.sh.operations| ensures OperationInv(s', o) {
      OperationAt(s, o);
      SignalOperationKeeps(s, s', t, x, o);
    }
    forall k | 0 <= k < |s'.sh.coordinations| ensures CoordinationInv(s', k) {
      CoordinationAt(s, k);
      SignalWindow(s, s', t, x, k);
    }
    SignalHistory(s, s', t, x);
    Assemble(s, s', t);
  }

  lemma SignalHistory(s: System, s': System, t: nat, x: Signal)
    requires HistoryBounded(s) && Signals(s, s', t, x)
    ensures HistoryBounded(s')
  {
  }
}
