/** Sending an Admin RPC and receiving its answer: the steps that hold `network_lock`. */
module RegistryRpcSteps {
  import opened Options
  import opened RegistryState
  import opened RegistrySystem
  import opened RegistryInvariant
  import opened RegistrySteps

  /** What a thread must know to send a renewal, a register or a one-shot Remove. */
  ghost predicate MaySend(s: System, kind: Kind)
    requires Bounded(s.sh)
  {
    && (kind.Renew? ==>
          && kind.c in s.history.committed
          && kind.generation <= s.sh.generation
          && s.history.topKey <= 2 * kind.generation
          && (s.sh.active.Some? ==> kind.generation <= s.sh.operations[s.sh.active.value].generation))
    && (kind.Register? && kind.k.Some? ==>
          && kind.k.value < |s.sh.coordinations|
          && s.sh.coordinations[kind.k.value].generation == kind.generation
          && s.sh.coordinations[kind.k.value].inflight > 0)
    && !kind.RemoveOf?
  }

  ghost predicate Sends(s: System, s': System, t: nat, kind: Kind) {
    && Calm(s, s', t)
    && s'.network == Some(t)
    && s'.log == s.log + [Entry(kind, t, InFlight)]
    && s'.history.topKey == if kind.Renew? then 2 * kind.generation else s.history.topKey
  }

  lemma SendEntries(s: System, s': System, t: nat, kind: Kind)
    requires Bounded(s.sh) && LogInv(s) && MaySend(s, kind) && Sends(s, s', t, kind)
    ensures LogInv(s')
  {
    forall i | 0 <= i < |s'.log| ensures EntryInv(s', i) {
      if i < |s.log| { assert EntryInv(s, i); }
    }
    forall i, j | 0 <= i < j < |s'.log| && Key(s'.log[i].kind).Some? && Key(s'.log[j].kind).Some?
      ensures Key(s'.log[i].kind).value <= Key(s'.log[j].kind).value
    {
      assert EntryInv(s, i);
    }
  }

  lemma SendOrigins(s: System, s': System, t: nat, kind: Kind)
    requires Bounded(s.sh) && HistoryBounded(s) && OriginInv(s) && TablesInv(s)
    requires MaySend(s, kind) && Sends(s, s', t, kind)
    ensures OriginInv(s')
  {
    forall o | o in s.history.origin ensures kind.Register? ==> kind.k != Some(s.history.origin[o]) {
      assert OperationInv(s, o);
    }
  }

  lemma SendKeeps(s: System, s': System, t: nat, kind: Kind)
    requires Inv(s) && MaySend(s, kind) && Sends(s, s', t, kind)
    requires s.network.None? || s.network == Some(t)
    requires HoldsNetwork(s'.threads[t].act) && !OwesSchedule(s.threads[t].act)
    requires ActionBounded(s'.sh, s'.log, s'.threads[t].act)
    requires WellFormed(s') ==> ActionInv(s', t, s'.threads[t].act)
    ensures Inv(s')
  {
    SendEntries(s, s', t, kind);
    SendOrigins(s, s', t, kind);
    CarriedKeeps(s, s', t);
    hide ActionInv, TablesInv, ThreadsInv, LogInv, OriginInv, Carried, WellFormed;
    CalmKeeps(s, s', t);
  }

  lemma RenewSendKeeps(s: System, t: nat, c: nat)
    requires Inv(s) && t < |s.threads| && s.threads[t] == Thread([], Renewing(c, Calling(ToSend)))
    requires ActionBounded(s.sh, s.log, s.threads[t].act)
    ensures Inv(PerformRenewing(s, t, c, Calling(ToSend), true))
  {
    hide OperationInv, CoordinationInv, EntryInv, Slots;
    assert ThreadInv(s, t);
    assert ContextInv(s, c);
    SendKeeps(s, PerformRenewing(s, t, c, Calling(ToSend), true), t, Renew(c, s.sh.contexts[c].generation));
  }

  lemma RegisterSendKeeps(s: System, t: nat, k: Option<nat>, g: nat)
    requires Inv(s) && t < |s.threads| && s.threads[t] == Thread([], Registering(k, g, ToSend)) && s.network.None?
    ensures Inv(Send(s, t, Register(k, g), Registering(k, g, Sent(|s.log| + 1))))
  {
    hide ContextInv, OperationInv, EntryInv, Slots;
    assert ThreadBounded(s.sh, s.log, s.threads[t]);
    assert ThreadInv(s, t);
    if k.Some? { assert CoordinationInv(s, k.value); }
    SendKeeps(s, Send(s, t, Register(k, g), Registering(k, g, Sent(|s.log| + 1))), t, Register(k, g));
  }

  lemma OneShotSendKeeps(s: System, t: nat)
    requires Inv(s) && t < |s.threads| && s.threads[t] == Thread([], OneShotRemoving(ToSend)) && s.network.None?
    ensures Inv(Send(s, t, OneShotRemove, OneShotRemoving(Sent(|s.log| + 1))))
  {
    hide ContextInv, OperationInv, CoordinationInv, EntryInv, Slots;
    assert ThreadBounded(s.sh, s.log, s.threads[t]);
    assert ThreadInv(s, t);
    SendKeeps(s, Send(s, t, OneShotRemove, OneShotRemoving(Sent(|s.log| + 1))), t, OneShotRemove);
  }

  // ---------------------------------------------------------------- answers

  /** An answer changes the status of one entry that nobody has applied. */
  ghost predicate Answers(s: System, s': System, t: nat, n: nat, ok: bool) {
    && Calm(s, s', t)
    && 0 < n <= |s.log|
    && s.log[n - 1].status.InFlight?
    && s.log[n - 1].thread == t
    && s.network == Some(t)
    && s'.network == None
    && s'.history == s.history
    && s'.log == s.log[n - 1 := s.log[n - 1].(status := Returned(ok))]
  }

  lemma AnswerEntries(s: System, s': System, t: nat, n: nat, ok: bool)
    requires Bounded(s.sh) && LogInv(s) && Answers(s, s', t, n, ok)
    ensures LogInv(s')
  {
    forall i | 0 <= i < |s.log| ensures EntryInv(s', i) { assert EntryInv(s, i); }
  }

  lemma AnswerSnapshot(s: System, s': System, t: nat, n: nat, ok: bool)
    requires OriginInv(s) && SnapshotInv(s) && Answers(s, s', t, n, ok)
    ensures OriginInv(s') && SnapshotInv(s')
  {
  }

  lemma AnswerKeeps(s: System, s': System, t: nat, n: nat, ok: bool)
    requires Inv(s) && Answers(s, s', t, n, ok)
    requires !HoldsNetwork(s'.threads[t].act)
    requires OwesSchedule(s.threads[t].act) ==> OwesSchedule(s'.threads[t].act)
    requires ActionBounded(s'.sh, s'.log, s'.threads[t].act)
    requires WellFormed(s') ==> ActionInv(s', t, s'.threads[t].act)
    ensures Inv(s')
  {
    AnswerEntries(s, s', t, n, ok);
    AnswerSnapshot(s, s', t, n, ok);
    CarriedKeeps(s, s', t);
    hide ActionInv, TablesInv, ThreadsInv, LogInv, OriginInv, SnapshotInv, Carried, WellFormed;
    CalmKeeps(s, s', t);
  }

  lemma RenewalAnswered(s: System, t: nat, c: nat, n: nat, ok: bool)
    requires Inv(s) && t < |s.threads| && s.threads[t] == Thread([], Renewing(c, Calling(Sent(n))))
    requires 0 < n <= |s.log|
    ensures Inv(Receive(s, t, n, ok, Renewing(c, Calling(Answered(n, ok)))))
  {
    hide ContextInv, OperationInv, CoordinationInv, EntryInv, Slots;
    assert ThreadBounded(s.sh, s.log, s.threads[t]);
    assert ThreadInv(s, t);
    AnswerKeeps(s, Receive(s, t, n, ok, Renewing(c, Calling(Answered(n, ok)))), t, n, ok);
  }

  lemma RemoveAnswered(s: System, t: nat, o: nat, r: Return, n: nat, ok: bool)
    requires Inv(s) && t < |s.threads| && s.threads[t] == Thread([], Removing(o, r, Sent(n)))
    requires 0 < n <= |s.log|
    ensures Inv(Receive(s, t, n, ok, Removing(o, r, Answered(n, ok))))
  {
    hide ContextInv, OperationInv, CoordinationInv, EntryInv, Slots;
    assert ThreadBounded(s.sh, s.log, s.threads[t]);
    assert ThreadInv(s, t);
    AnswerKeeps(s, Receive(s, t, n, ok, Removing(o, r, Answered(n, ok))), t, n, ok);
  }

  lemma RegisterAnswered(s: System, t: nat, k: Option<nat>, g: nat, n: nat, ok: bool)
    requires Inv(s) && t < |s.threads| && s.threads[t] == Thread([], Registering(k, g, Sent(n)))
    requires 0 < n <= |s.log|
    ensures Inv(Receive(s, t, n, ok, Registering(k, g, Answered(n, ok))))
  {
    hide ContextInv, OperationInv, CoordinationInv, EntryInv, Slots;
    assert ThreadBounded(s.sh, s.log, s.threads[t]);
    assert ThreadInv(s, t);
    AnswerKeeps(s, Receive(s, t, n, ok, Registering(k, g, Answered(n, ok))), t, n, ok);
  }

  lemma OneShotAnswered(s: System, t: nat, n: nat, ok: bool)
    requires Inv(s) && t < |s.threads| && s.threads[t] == Thread([], OneShotRemoving(Sent(n)))
    requires 0 < n <= |s.log|
    ensures Inv(Receive(s, t, n, ok, OneShotRemoving(Answered(n, ok))))
  {
    hide ContextInv, OperationInv, CoordinationInv, EntryInv, Slots;
    assert ThreadBounded(s.sh, s.log, s.threads[t]);
    assert ThreadInv(s, t);
    AnswerKeeps(s, Receive(s, t, n, ok, OneShotRemoving(Answered(n, ok))), t, n, ok);
  }
}
