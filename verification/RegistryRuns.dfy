/** Every step keeps the invariant, so every state of every run satisfies it. */
module RegistryRuns {
  import opened Options
  import opened RegistryState
  import opened RegistrySystem
  import opened RegistryInvariant
  import opened RegistrySteps
  import opened RegistryRpcSteps
  import opened RegistryCompletionSteps
  import opened RegistryWorkerSteps
  import opened RegistryRemoveSteps
  import opened RegistryRegisterSteps
  import opened RegistryCallSteps
  import opened RegistryStopSteps
  import opened RegistrySignalSteps

  // ---------------------------------------------------------------- arrivals

  lemma ArrivesThread(s: System, call: Call, u: nat)
    requires WellFormed(s) && WellFormed(Arrive(s, call)) && u <= |s.threads|
    requires u < |s.threads| ==> ThreadInv(s, u)
    ensures ThreadInv(Arrive(s, call), u)
  {
    if u < |s.threads| { assert ThreadBounded(s.sh, s.log, s.threads[u]); }
  }

  lemma ArrivesTables(s: System, call: Call)
    requires Bounded(s.sh) && TablesInv(s)
    ensures TablesInv(Arrive(s, call))
  {
    var s' := Arrive(s, call);
    forall c | 0 <= c < |s.sh.contexts| ensures ContextInv(s', c) { assert ContextInv(s, c); }
    forall o | 0 <= o < |s.sh.operations| ensures OperationInv(s', o) { assert OperationInv(s, o); }
    forall k | 0 <= k < |s.sh.coordinations| ensures CoordinationInv(s', k) { assert CoordinationInv(s, k); }
  }

  lemma ArrivesRest(s: System, call: Call)
    requires Bounded(s.sh) && LogInv(s) && SnapshotInv(s) && Carried(s)
    ensures LogInv(Arrive(s, call)) && SnapshotInv(Arrive(s, call)) && Carried(Arrive(s, call))
  {
    var s' := Arrive(s, call);
    hide EntryInv, LogInv, SnapshotInv;
    LogKeeps(s, s');
    SnapshotKeeps(s, s');
    if s.sh.pending.Some? && s.sh.active.None? && s.sh.generation !in s.sh.stopping {
      var u :| 0 <= u < |s.threads| && OwesSchedule(s.threads[u].act);
      assert OwesSchedule(s'.threads[u].act);
    }
  }

  lemma ArrivesWellFormed(s: System, call: Call)
    requires WellFormed(s)
    ensures WellFormed(Arrive(s, call))
  {
    var s' := Arrive(s, call);
    forall u | 0 <= u < |s'.threads| ensures ThreadBounded(s'.sh, s'.log, s'.threads[u]) {
      if u < |s.threads| { assert ThreadBounded(s.sh, s.log, s.threads[u]); }
    }
  }

  lemma ArriveKeeps(s: System, call: Call)
    requires Inv(s)
    ensures Inv(Arrive(s, call))
  {
    hide ThreadInv, TablesInv, LogInv, SnapshotInv, Carried, Slots, WellFormed;
    var s' := Arrive(s, call);
    ArrivesWellFormed(s, call);
    ArrivesTables(s, call);
    ArrivesRest(s, call);
    forall u | 0 <= u < |s'.threads| ensures ThreadInv(s', u) { ArrivesThread(s, call, u); }
  }

  // ---------------------------------------------------------------- turns

  lemma RenewingKeeps(s: System, t: nat, c: nat, p: Phase, ok: bool)
    requires Inv(s) && t < |s.threads| && s.threads[t] == Thread([], Renewing(c, p))
    requires ActionBounded(s.sh, s.log, Renewing(c, p)) && Ready(s, Renewing(c, p))
    ensures Inv(PerformRenewing(s, t, c, p, ok))
  {
    hide ThreadsInv, TablesInv, LogInv, OriginInv, SnapshotInv, CountInv, Carried, HistoryBounded, Slots, WellFormed;
    hide StepRenewApply, StepFinish, Current, Stopping;
    match p {
      case Acquire => AcquireKeeps(s, t, c);
      case Check => LockedCheckKeeps(s, t, c);
      case Calling(ToSend) => RenewSendKeeps(s, t, c);
      case Calling(Sent(n)) => RenewalAnswered(s, t, c, n, ok);
      case Calling(Answered(n, answer)) => RenewApplyKeeps(s, t, c, n, answer);
      case Last => FinishKeeps(s, t, c);
      case _ => CheckKeeps(s, t, c, p);
    }
  }

  lemma CallKeeps(s: System, t: nat, a: Action, ch: Choice)
    requires Inv(s) && t < |s.threads| && s.threads[t] == Thread([], a)
    requires ActionBounded(s.sh, s.log, a) && Ready(s, a)
    ensures Inv(PerformCall(s, t, a, ch))
  {
    assert Bounded(s.sh);
    hide ThreadsInv, TablesInv, LogInv, OriginInv, SnapshotInv, CountInv, Carried, HistoryBounded, Slots, WellFormed;
    hide StepTerminal, StepObserve, Terminal;
    if a.TerminalTurn? {
      hide Inv;
      if Terminal(s.sh, a.g).1.Owned? { OwnedKeeps(s, t, a.g); } else { ObserverKeeps(s, t, ch); }
    } else if a.RemoveEntry? || a.AwaitRegisters? || a.AwaitOperation? || a.ReadResult? {
      hide Inv;
      ObserverKeeps(s, t, ch);
    } else if a.PrepareStart? || a.OwnStart? || a.AfterActivation? {
      hide Inv, PerformCall;
      StartingKeeps(s, t, a, ch);
    } else if a.StopCall? || a.ShutdownCall? || a.ShutdownRequest? {
      hide Inv, PerformCall;
      StoppingKeeps(s, t, a, ch);
    }
  }

  lemma StartingKeeps(s: System, t: nat, a: Action, ch: Choice)
    requires Inv(s) && t < |s.threads| && s.threads[t] == Thread([], a) && ActionBounded(s.sh, s.log, a)
    requires a.PrepareStart? || a.OwnStart? || a.AfterActivation?
    ensures Inv(PerformCall(s, t, a, ch))
  {
    assert Bounded(s.sh);
    hide ThreadsInv, TablesInv, LogInv, OriginInv, SnapshotInv, CountInv, Carried, HistoryBounded, Slots, WellFormed;
    hide StepPrepare, StepOwn, StepSettle;
    if a.PrepareStart? {
      PrepareKeeps(s, t, ch.started);
    } else if a.OwnStart? {
      OwnerKeeps(s, t, a.c, ch.way);
    } else if ch.way.SettleIt? {
      SettleKeeps(s, t, a.c);
    } else {
      MoveKeeps(s, t, Idle);
    }
  }

  lemma StoppingKeeps(s: System, t: nat, a: Action, ch: Choice)
    requires Inv(s) && t < |s.threads| && s.threads[t] == Thread([], a)
    requires WellFormed(s) && Bounded(s.sh) && (a.StopCall? || a.ShutdownCall? || a.ShutdownRequest?)
    ensures ActionBounded(s.sh, s.log, a) && Inv(PerformCall(s, t, a, ch))
  {
    hide Inv, WellFormed, Bounded, StepStop, StepShutdown, StepShutdownRequest;
    hide StepTerminal, StepObserve, StepPrepare, StepOwn, StepSettle, Current, Stopping;
    if a.StopCall? {
      StopKeeps(s, t, a.remove);
    } else if a.ShutdownCall? {
      ShutdownKeeps(s, t, a.deregister);
    } else {
      ShutdownRequestKeeps(s, t, a.g, ch.ok);
    }
  }

  lemma OwnerKeeps(s: System, t: nat, c: nat, way: Way)
    requires Inv(s) && t < |s.threads| && s.threads[t] == Thread([], OwnStart(c)) && c < |s.sh.contexts|
    ensures Inv(StepOwn(s, t, c, way))
  {
    hide ThreadsInv, TablesInv, LogInv, OriginInv, SnapshotInv, CountInv, Carried, HistoryBounded, Slots, WellFormed;
    hide StepActivate, StepCancel, StepSettle;
    match way {
      case Proceed => ActivateKeeps(s, t, c);
      case Withdraw => CancelKeeps(s, t, c);
      case SettleIt => SettleKeeps(s, t, c);
    }
  }

  lemma RegisteringKeeps(s: System, t: nat, k: Option<nat>, g: nat, p: Rpc, ch: Choice)
    requires Inv(s) && t < |s.threads| && s.threads[t] == Thread([], Registering(k, g, p))
    requires ActionBounded(s.sh, s.log, Registering(k, g, p)) && Ready(s, Registering(k, g, p))
    ensures Inv(Perform(s, t, Registering(k, g, p), ch))
  {
    hide ThreadsInv, TablesInv, LogInv, OriginInv, SnapshotInv, CountInv, Carried, HistoryBounded, Slots, WellFormed;
    hide StepRegisterApply;
    match p {
      case ToSend => RegisterSendKeeps(s, t, k, g);
      case Sent(n) => RegisterAnswered(s, t, k, g, n, ch.ok);
      case Answered(n, ok) =>
        if k.Some? { RegisterApplyKeeps(s, t, k.value, g, n, ok); } else { OutsideKeeps(s, t, g, n, ok); }
    }
  }

  lemma RemovingStepKeeps(s: System, t: nat, o: nat, r: Return, p: Rpc, ch: Choice)
    requires Inv(s) && t < |s.threads| && s.threads[t] == Thread([], Removing(o, r, p))
    requires ActionBounded(s.sh, s.log, Removing(o, r, p)) && Ready(s, Removing(o, r, p))
    ensures Inv(Perform(s, t, Removing(o, r, p), ch))
  {
    hide ThreadsInv, TablesInv, LogInv, OriginInv, SnapshotInv, CountInv, Carried, HistoryBounded, Slots, WellFormed;
    hide StepRemoveSend, StepRemoveApply;
    match p {
      case ToSend => RemoveSendKeeps(s, t, o, r);
      case Sent(n) => RemoveAnswered(s, t, o, r, n, ch.ok);
      case Answered(n, ok) => RemoveApplyKeeps(s, t, o, n, ok, r);
    }
  }

  lemma PerformKeeps(s: System, t: nat, a: Action, ch: Choice)
    requires Inv(s) && t < |s.threads| && s.threads[t] == Thread([], a)
    requires ActionBounded(s.sh, s.log, a) && Ready(s, a)
    ensures Inv(Perform(s, t, a, ch))
  {
    hide ThreadsInv, TablesInv, LogInv, OriginInv, SnapshotInv, CountInv, Carried, HistoryBounded, Slots, WellFormed;
    hide PerformCall, PerformRenewing, StepSchedule, StepClaim, StepEndActor, StepJoin, StepOneShotApply;
    match a {
      case Renewing(c, p) => RenewingKeeps(s, t, c, p, ch.ok);
      case Removing(o, r, p) => RemovingStepKeeps(s, t, o, r, p, ch);
      case ScheduleRemove(raising, r) => ScheduleKeeps(s, t, raising, r, ch.started);
      case ClaimPending(o) => ClaimKeeps(s, t, o);
      case EndActor(o) => EndActorKeeps(s, t, o);
      case JoinWindow => JoinKeeps(s, t);
      case Registering(k, g, p) => RegisteringKeeps(s, t, k, g, p, ch);
      case OneShotRemoving(ToSend) => OneShotSendKeeps(s, t);
      case OneShotRemoving(Sent(n)) => OneShotAnswered(s, t, n, ch.ok);
      case OneShotRemoving(Answered(n, ok)) => OneShotApplyKeeps(s, t, n, ok);
      case _ => CallKeeps(s, t, a, ch);
    }
  }

  // ---------------------------------------------------------------- runs

  /** Every event, an arrival or any thread's next step, keeps the invariant. */
  lemma StepKeeps(s: System, e: Event)
    requires Inv(s) && Possible(s, e)
    ensures Inv(Happen(s, e))
  {
    match e {
      case Arrival(call) => ArriveKeeps(s, call);
      case Turn(t, ch) =>
        ThreadAt(s, t);
        hide ThreadsInv, TablesInv, LogInv, OriginInv, SnapshotInv, CountInv, Carried, HistoryBounded, Slots;
        hide Perform, SendSignal, ThreadInv;
        var th := s.threads[t];
        if th.owed != [] {
          SignalKeeps(s, t);
        } else {
          assert th == Thread([], th.act);
          PerformKeeps(s, t, th.act, ch);
          hide Inv, AnswerOf;
          NotedKeeps(Perform(s, t, th.act, ch), t, AnswerOf(s, th.act, ch));
        }
    }
  }

  /** The invariant says nothing of answers. */
  lemma NotedKeeps(s: System, t: nat, answer: Option<Answer>)
    requires Inv(s)
    ensures Inv(WithAnswer(s, t, answer))
  {
    hide ThreadsInv, TablesInv, LogInv, OriginInv, SnapshotInv, CountInv, Carried, HistoryBounded, Slots;
    var s' := WithAnswer(s, t, answer);
    NotedThreads(s, t, answer);
    NotedTables(s, t, answer);
    NotedLog(s, t, answer);
    NotedRest(s, t, answer);
  }

  lemma NotedThreads(s: System, t: nat, answer: Option<Answer>)
    requires WellFormed(s) && ThreadsInv(s)
    ensures WellFormed(WithAnswer(s, t, answer)) && ThreadsInv(WithAnswer(s, t, answer))
  {
    var s' := WithAnswer(s, t, answer);
    forall u | 0 <= u < |s'.threads| ensures ThreadInv(s', u) { assert ThreadInv(s, u); }
  }

  lemma NotedTables(s: System, t: nat, answer: Option<Answer>)
    requires Bounded(s.sh) && TablesInv(s)
    ensures TablesInv(WithAnswer(s, t, answer))
  {
    var s' := WithAnswer(s, t, answer);
    forall c | 0 <= c < |s'.sh.contexts| ensures ContextInv(s', c) { assert ContextInv(s, c); }
    forall o | 0 <= o < |s'.sh.operations| ensures OperationInv(s', o) { assert OperationInv(s, o); }
    forall k | 0 <= k < |s'.sh.coordinations| ensures CoordinationInv(s', k) { assert CoordinationInv(s, k); }
  }

  lemma NotedLog(s: System, t: nat, answer: Option<Answer>)
    requires Bounded(s.sh) && LogInv(s)
    ensures LogInv(WithAnswer(s, t, answer))
  {
    var s' := WithAnswer(s, t, answer);
    forall i | 0 <= i < |s'.log| ensures EntryInv(s', i) { assert EntryInv(s, i); }
  }

  lemma NotedRest(s: System, t: nat, answer: Option<Answer>)
    requires OriginInv(s) && SnapshotInv(s) && CountInv(s) && Carried(s) && HistoryBounded(s)
    ensures var s' := WithAnswer(s, t, answer);
      OriginInv(s') && SnapshotInv(s') && CountInv(s') && Carried(s') && HistoryBounded(s')
  {
  }

  lemma StartHolds()
    ensures Inv(START)
  {
  }

  /** The invariant holds in every state of every run. */
  lemma {:induction false} RunHolds(states: seq<System>, events: seq<Event>, i: nat)
    requires IsRun(states, events) && i < |states|
    ensures Inv(states[i])
  {
    if i == 0 {
      StartHolds();
    } else {
      RunHolds(states, events, i - 1);
      StepKeeps(states[i - 1], events[i - 1]);
    }
  }
}
