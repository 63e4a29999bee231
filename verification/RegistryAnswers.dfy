/** Every RPC that was sent is the one its thread is at, until it is applied; and only a newer completion
    makes the answer of a register or a Remove stale. */
module RegistryAnswers {
  import opened Options
  import opened RegistryState
  import opened RegistrySystem
  import opened RegistryInvariant
  import opened RegistryRuns
  import opened RegistryTransitions
  import opened RegistryTheorems
  import opened RegistryOverTime

  // ---------------------------------------------------------------- every RPC is applied

  /** The RPC a thread has sent and not applied. */
  function AtRpc(a: Action): Option<nat> {
    match a
    case Renewing(_, Calling(Sent(n))) => Some(n)
    case Renewing(_, Calling(Answered(n, _))) => Some(n)
    case Removing(_, _, Sent(n)) => Some(n)
    case Removing(_, _, Answered(n, _)) => Some(n)
    case Registering(_, _, Sent(n)) => Some(n)
    case Registering(_, _, Answered(n, _)) => Some(n)
    case OneShotRemoving(Sent(n)) => Some(n)
    case OneShotRemoving(Answered(n, _)) => Some(n)
    case _ => None
  }

  /** An entry is applied or is the RPC its thread is at, and only a newer completion makes the answer of
      a register or a Remove stale. */
  predicate Followed(s: System, i: nat)
    requires i < |s.log|
  {
    var e := s.log[i];
    && e.thread < |s.threads|
    && (!e.status.Applied? ==> AtRpc(s.threads[e.thread].act) == Some(i + 1))
    && (e.status.Applied? && !e.status.accepted && !e.kind.Renew? ==> i + 1 <= s.sh.lastApplied)
  }

  predicate AllFollowed(s: System) {
    forall i :: 0 <= i < |s.log| ==> Followed(s, i)
  }

  /** The other threads stay where they are, and an RPC leaves its thread only by being applied. */
  predicate RpcMoves(s: System, s': System, t: nat) {
    && t < |s.threads| <= |s'.threads|
    && (forall u :: 0 <= u < |s.threads| && u != t ==> s'.threads[u].act == s.threads[u].act)
    && (AtRpc(s'.threads[t].act) == AtRpc(s.threads[t].act)
        || AtRpc(s.threads[t].act).None?
        || (0 < AtRpc(s.threads[t].act).value <= |s'.log|
            && s'.log[AtRpc(s.threads[t].act).value - 1].status.Applied?))
    && (|s'.log| > |s.log| ==>
          s'.log[|s.log|].thread == t && AtRpc(s'.threads[t].act) == Some(|s.log| + 1))
    && (forall i :: (0 <= i < |s.log| <= |s'.log| && s'.log[i].status.Applied? && !s.log[i].status.Applied?
                     && !s'.log[i].status.accepted && !s'.log[i].kind.Renew?) ==> i + 1 <= s'.sh.lastApplied)
  }

  lemma MovesFollow(s: System, s': System, t: nat)
    requires AllFollowed(s) && RpcMoves(s, s', t) && LogGrows(s, s') && SnapshotMoves(s, s')
    ensures AllFollowed(s')
  {
    hide AtRpc;
    forall i | 0 <= i < |s'.log| ensures Followed(s', i) {
      if i < |s.log| { assert Followed(s, i); }
    }
  }

  /** A step that is not part of an RPC. */
  predicate Aside(s: System, s': System, t: nat) {
    && t < |s.threads| <= |s'.threads|
    && s'.log == s.log
    && forall u :: 0 <= u < |s.threads| && u != t ==> s'.threads[u].act == s.threads[u].act
  }

  lemma SchedulingAside(s: System, t: nat, raising: bool, r: Return, started: bool)
    requires Bounded(s.sh) && t < |s.threads|
    ensures Aside(s, StepSchedule(s, t, raising, r, started), t)
  {
    hide Schedule, NoteCreated;
  }

  lemma RenewingAside(s: System, t: nat, c: nat, p: Phase, ok: bool)
    requires WellFormed(s) && t < |s.threads| && ActionBounded(s.sh, s.log, Renewing(c, p)) && !p.Calling?
    ensures Aside(s, PerformRenewing(s, t, c, p, ok), t)
  {
    hide WellFormed, Finish, Current;
  }

  lemma StartAside(s: System, t: nat, a: Action, ch: Choice)
    requires WellFormed(s) && t < |s.threads| && ActionBounded(s.sh, s.log, a)
    requires a.PrepareStart? || a.OwnStart? || a.AfterActivation?
    ensures Aside(s, PerformCall(s, t, a, ch), t)
  {
    assert Bounded(s.sh);
    hide WellFormed, Prepare, Activate, Cancel, Settle, Bounded;
  }

  lemma CallAside(s: System, t: nat, a: Action, ch: Choice)
    requires WellFormed(s) && t < |s.threads| && ActionBounded(s.sh, s.log, a)
    requires !a.Renewing? && !a.Removing? && !a.ScheduleRemove? && !a.ClaimPending? && !a.EndActor?
    requires !a.JoinWindow? && !a.Registering? && !a.OneShotRemoving?
    ensures Aside(s, PerformCall(s, t, a, ch), t)
  {
    assert Bounded(s.sh);
    if a.PrepareStart? || a.OwnStart? || a.AfterActivation? {
      StartAside(s, t, a, ch);
    } else {
      hide WellFormed, Terminal, Stop, Shutdown, ShutdownRemove, NoteCreated, Bounded, StepPrepare, StepOwn, StepSettle;
    }
  }

  lemma AsideMoves(s: System, s': System, t: nat)
    requires Aside(s, s', t) && AtRpc(s.threads[t].act).None?
    ensures RpcMoves(s, s', t)
  {
    hide AtRpc;
  }

  lemma SendMoves(s: System, t: nat, kind: Kind, act: Action, h: History)
    requires t < |s.threads| && AtRpc(s.threads[t].act).None? && AtRpc(act) == Some(|s.log| + 1)
    ensures RpcMoves(s, Send(s.(history := h), t, kind, act), t)
  {
    hide AtRpc;
  }

  lemma ReceiveMoves(s: System, t: nat, n: nat, ok: bool, act: Action)
    requires t < |s.threads| && 0 < n <= |s.log| && AtRpc(act) == AtRpc(s.threads[t].act)
    ensures RpcMoves(s, Receive(s, t, n, ok, act), t)
  {
    hide AtRpc;
  }

  /** The thread applies its RPC. */
  predicate Settles(s: System, s': System, t: nat, n: nat, accepted: bool) {
    && t < |s.threads| && |s'.threads| == |s.threads| && 0 < n <= |s.log|
    && AtRpc(s.threads[t].act) == Some(n)
    && (forall u :: 0 <= u < |s.threads| && u != t ==> s'.threads[u].act == s.threads[u].act)
    && |s'.log| == |s.log|
    && (forall i :: 0 <= i < |s.log| && i != n - 1 ==> s'.log[i] == s.log[i])
    && s'.log[n - 1].status.Applied? && s'.log[n - 1].status.accepted == accepted
    && (accepted || s'.log[n - 1].kind.Renew? || n <= s'.sh.lastApplied)
  }

  lemma SettlesMoves(s: System, s': System, t: nat, n: nat, accepted: bool)
    requires Settles(s, s', t, n, accepted)
    ensures RpcMoves(s, s', t)
  {
    hide AtRpc;
  }

  lemma RegisterSettles(s: System, t: nat, k: Option<nat>, g: nat, n: nat, ok: bool)
    requires WellFormed(s) && t < |s.threads| && s.threads[t] == Thread([], Registering(k, g, Answered(n, ok)))
    requires WindowBounded(s.sh, k) && 0 < n <= |s.log|
    ensures RpcMoves(s, StepRegisterApply(s, t, k, g, n, ok), t)
  {
    var s' := StepRegisterApply(s, t, k, g, n, ok);
    var (sh1, out, left) := CommitRegister(s.sh, n, ok, g, k);
    RegisterIsNewer(s.sh, n, ok, g, k);
    hide CommitRegister, WellFormed, LeaveHistory;
    SettlesMoves(s, s', t, n, out.accepted);
  }

  lemma RegisterIsNewer(sh: Shared, n: nat, ok: bool, g: nat, k: Option<nat>)
    requires Bounded(sh) && (k.Some? ==> k.value < |sh.coordinations|)
    ensures CommitRegister(sh, n, ok, g, k).1.accepted || n <= CommitRegister(sh, n, ok, g, k).0.lastApplied
  {
    hide ApplyRegister, Leave;
    ApplyIsNewer(sh, n, ok, g, k);
    if k.Some? { LeaveKeepsApplied(ApplyRegister(sh, n, ok, g, k).0, k.value); }
  }

  lemma ApplyIsNewer(sh: Shared, n: nat, ok: bool, g: nat, k: Option<nat>)
    requires Bounded(sh) && (k.Some? ==> k.value < |sh.coordinations|)
    ensures ApplyRegister(sh, n, ok, g, k).1.accepted || n <= ApplyRegister(sh, n, ok, g, k).0.lastApplied
  {
    hide Invalidate;
  }

  lemma LeaveKeepsApplied(sh: Shared, k: nat)
    requires Bounded(sh) && k < |sh.coordinations|
    ensures Leave(sh, k).0.lastApplied == sh.lastApplied
  {
  }

  lemma RemoveSettles(s: System, t: nat, o: nat, n: nat, ok: bool, r: Return)
    requires WellFormed(s) && t < |s.threads| && s.threads[t] == Thread([], Removing(o, r, Answered(n, ok)))
    requires o < |s.sh.operations| && 0 < n <= |s.log| && s.sh.active == Some(o)
    ensures RpcMoves(s, StepRemoveApply(s, t, o, n, ok, r), t)
  {
    var s' := StepRemoveApply(s, t, o, n, ok, r);
    RemoveIsNewer(s.sh, o, n, ok);
    hide Complete, WellFormed, NoteCreated;
    SettlesMoves(s, s', t, n, Complete(s.sh, o, n, ok).1.accepted);
  }

  lemma RemoveIsNewer(sh: Shared, o: nat, n: nat, ok: bool)
    requires Bounded(sh) && o < |sh.operations| && sh.active == Some(o)
    ensures Complete(sh, o, n, ok).1.accepted || n <= Complete(sh, o, n, ok).0.lastApplied
  {
  }

  lemma RenewSettles(s: System, t: nat, c: nat, n: nat, ok: bool)
    requires WellFormed(s) && t < |s.threads| && s.threads[t] == Thread([], Renewing(c, Calling(Answered(n, ok))))
    requires c < |s.sh.contexts| && 0 < n <= |s.log| && s.log[n - 1].kind.Renew?
    ensures RpcMoves(s, StepRenewApply(s, t, c, n, ok), t)
  {
    var s' := StepRenewApply(s, t, c, n, ok);
    hide CommitRenewal, WellFormed;
    SettlesMoves(s, s', t, n, CommitRenewal(s.sh, c, n, ok).1.accepted);
  }

  lemma OneShotSettles(s: System, t: nat, n: nat, ok: bool)
    requires t < |s.threads| && s.threads[t] == Thread([], OneShotRemoving(Answered(n, ok))) && 0 < n <= |s.log|
    ensures RpcMoves(s, StepOneShotApply(s, t, n, ok), t)
  {
    SettlesMoves(s, StepOneShotApply(s, t, n, ok), t, n, n > s.sh.lastApplied);
  }

  // ---------------------------------------------------------------- every step

  lemma CallingMoves(s: System, t: nat, c: nat, r: Rpc, ok: bool)
    requires Inv(s) && t < |s.threads| && s.threads[t] == Thread([], Renewing(c, Calling(r)))
    requires ActionBounded(s.sh, s.log, Renewing(c, Calling(r)))
    ensures RpcMoves(s, PerformRenewing(s, t, c, Calling(r), ok), t)
  {
    ThreadAt(s, t);
    hide Inv, StepRenewApply, RpcMoves;
    match r
    case ToSend =>
      var g := s.sh.contexts[c].generation;
      SendMoves(s, t, Renew(c, g), Renewing(c, Calling(Sent(|s.log| + 1))), s.history.(topKey := 2 * g));
    case Sent(n) => ReceiveMoves(s, t, n, ok, Renewing(c, Calling(Answered(n, ok))));
    case Answered(n, ok') => RenewSettles(s, t, c, n, ok');
  }

  lemma RemovingMoves(s: System, t: nat, o: nat, r: Return, p: Rpc, ch: Choice)
    requires Inv(s) && t < |s.threads| && s.threads[t] == Thread([], Removing(o, r, p))
    requires ActionBounded(s.sh, s.log, Removing(o, r, p))
    ensures RpcMoves(s, Perform(s, t, Removing(o, r, p), ch), t)
  {
    ThreadAt(s, t);
    hide Inv, StepRemoveApply, RpcMoves;
    match p
    case ToSend =>
      var g := s.sh.operations[o].generation;
      var n := |s.log| + 1;
      var h := s.history;
      SendMoves(s, t, RemoveOf(o, g), Removing(o, r, Sent(n)),
                h.(sent := h.sent[o := n], topKey := 2 * g + 1,
                   removeSent := if g == s.sh.generation then n else h.removeSent));
    case Sent(n) => ReceiveMoves(s, t, n, ch.ok, Removing(o, r, Answered(n, ch.ok)));
    case Answered(n, ok) => RemoveSettles(s, t, o, n, ok, r);
  }

  lemma RegisteringMoves(s: System, t: nat, k: Option<nat>, g: nat, p: Rpc, ch: Choice)
    requires WellFormed(s) && t < |s.threads| && s.threads[t] == Thread([], Registering(k, g, p))
    requires ActionBounded(s.sh, s.log, Registering(k, g, p))
    ensures RpcMoves(s, Perform(s, t, Registering(k, g, p), ch), t)
  {
    hide WellFormed, StepRegisterApply, RpcMoves;
    match p
    case ToSend => SendMoves(s, t, Register(k, g), Registering(k, g, Sent(|s.log| + 1)), s.history);
    case Sent(n) => ReceiveMoves(s, t, n, ch.ok, Registering(k, g, Answered(n, ch.ok)));
    case Answered(n, ok) => RegisterSettles(s, t, k, g, n, ok);
  }

  lemma OneShotMoves(s: System, t: nat, p: Rpc, ch: Choice)
    requires WellFormed(s) && t < |s.threads| && s.threads[t] == Thread([], OneShotRemoving(p))
    requires ActionBounded(s.sh, s.log, OneShotRemoving(p))
    ensures RpcMoves(s, Perform(s, t, OneShotRemoving(p), ch), t)
  {
    hide WellFormed, StepOneShotApply, RpcMoves;
    match p
    case ToSend => SendMoves(s, t, OneShotRemove, OneShotRemoving(Sent(|s.log| + 1)), s.history);
    case Sent(n) => ReceiveMoves(s, t, n, ch.ok, OneShotRemoving(Answered(n, ch.ok)));
    case Answered(n, ok) => OneShotSettles(s, t, n, ok);
  }

  lemma SectionAside(s: System, t: nat, a: Action, ch: Choice)
    requires WellFormed(s) && t < |s.threads| && ActionBounded(s.sh, s.log, a)
    requires a.ScheduleRemove? || a.ClaimPending? || a.EndActor? || a.JoinWindow?
    ensures Aside(s, Perform(s, t, a, ch), t)
  {
    assert Bounded(s.sh);
    hide WellFormed, Join, StepSchedule, ActorClaim, ActorEnd;
    if a.ScheduleRemove? { SchedulingAside(s, t, a.raising, a.next, ch.started); }
  }

  lemma PerformMoves(s: System, t: nat, a: Action, ch: Choice)
    requires Inv(s) && t < |s.threads| && s.threads[t] == Thread([], a) && ActionBounded(s.sh, s.log, a)
    ensures RpcMoves(s, Perform(s, t, a, ch), t)
  {
    assert WellFormed(s);
    hide Inv, WellFormed, PerformRenewing, PerformCall, RpcMoves, Aside;
    hide StepSchedule, StepClaim, StepEndActor, StepJoin;
    var s' := Perform(s, t, a, ch);
    match a
    case Renewing(c, p) =>
      if p.Calling? {
        CallingMoves(s, t, c, p.rpc, ch.ok);
      } else {
        RenewingAside(s, t, c, p, ch.ok);
        AsideMoves(s, s', t);
      }
    case Removing(o, r, p) => RemovingMoves(s, t, o, r, p, ch);
    case Registering(k, g, p) => RegisteringMoves(s, t, k, g, p, ch);
    case OneShotRemoving(p) => OneShotMoves(s, t, p, ch);
    case _ =>
      if a.ScheduleRemove? || a.ClaimPending? || a.EndActor? || a.JoinWindow? {
        SectionAside(s, t, a, ch);
      } else {
        CallAside(s, t, a, ch);
      }
      AsideMoves(s, s', t);
  }

  lemma TurnMoves(s: System, t: nat, ch: Choice)
    requires Inv(s) && Enabled(s, t)
    ensures RpcMoves(s, Next(s, t, ch), t)
  {
    var th := s.threads[t];
    assert ThreadBounded(s.sh, s.log, th);
    if th.owed == [] {
      hide Inv, RpcMoves, Perform;
      assert th == Thread([], th.act);
      PerformMoves(s, t, th.act, ch);
    } else {
      hide Inv;
    }
  }

  lemma {:induction false} RunFollows(states: seq<System>, events: seq<Event>, i: nat)
    requires IsRun(states, events) && i < |states|
    ensures AllFollowed(states[i])
  {
    hide Inv, AllFollowed, Happen, Possible;
    if i == 0 {
      NothingToFollow();
    } else {
      RunFollows(states, events, i - 1);
      RunHolds(states, events, i - 1);
      StepAt(states, events, i - 1);
      hide IsRun;
      EventFollows(states[i - 1], events[i - 1]);
    }
  }

  lemma NothingToFollow()
    ensures AllFollowed(START)
  {
  }

  lemma EventFollows(s: System, e: Event)
    requires Inv(s) && Possible(s, e) && AllFollowed(s)
    ensures AllFollowed(Happen(s, e))
  {
    if e.Turn? {
      hide Inv, RpcMoves, Next, LogGrows, SlotMoves, CreatesIdle, WindowMoves, TokenMoves, SnapshotMoves, Reopens;
      hide StoppingMoves, FailureMoves, AllFollowed;
      TurnMoves(s, e.t, e.choice);
      TurnEvolves(s, e.t, e.choice);
      MovesFollow(s, Next(s, e.t, e.choice), e.t);
    } else {
      hide Inv;
      forall i | 0 <= i < |s.log| ensures Followed(Happen(s, e), i) { assert Followed(s, i); }
    }
  }

  /** Once every thread is done, every RPC has been applied. */
  lemma AllApplied(s: System)
    requires Reachable(s) && forall u :: 0 <= u < |s.threads| ==> Finished(s.threads[u])
    ensures forall i :: 0 <= i < |s.log| ==> s.log[i].status.Applied? && Followed(s, i)
  {
    ReachableFollows(s);
    hide Reachable;
    forall i | 0 <= i < |s.log| ensures s.log[i].status.Applied? && Followed(s, i) { assert Followed(s, i); }
  }

  lemma ReachableFollows(s: System)
    requires Reachable(s)
    ensures AllFollowed(s)
  {
    hide AllFollowed, Happen, Possible;
    var states: seq<System>, events: seq<Event> :| IsRun(states, events) && s in states;
    var i :| 0 <= i < |states| && states[i] == s;
    hide IsRun;
    RunFollows(states, events, i);
  }
}
