/**
 * Where a thread goes: the actions that follow one another, whatever the shared state, and that a step
 * moves one thread only, starts at most one and answers nobody but its own caller.
 */
module RegistryControl {
  import opened Options
  import opened RegistryState
  import opened RegistrySystem

  /** What may follow an action of the same thread. */
  predicate Leads(a: Action, next: Action) {
    match a
    case Renewing(c, p) =>
      || (next.Renewing? && next.c == c)
      || (next == Idle && p.EntryCheck?)
      || (p.Last? && next == ScheduleRemove(false, End))
      || (p.Last? && next.Removing? && next.next == End && next.rpc == ToSend)
    case Removing(o, r, ToSend) => next.Removing? && next.o == o && next.next == r && next.rpc.Sent?
    case Removing(o, r, Sent(n)) =>
      next.Removing? && next.o == o && next.next == r && next.rpc.Answered? && next.rpc.n == n
    case Removing(o, r, Answered(_, _)) => next == ScheduleRemove(false, r)
    case ScheduleRemove(raising, r) => next == After(r) || (raising && next == Idle)
    case ClaimPending(o) => next == Removing(o, BackToActor(o), ToSend) || next == EndActor(o)
    case EndActor(o) => next == ScheduleRemove(false, End)
    case JoinWindow => next.Registering? && next.rpc == ToSend
    case Registering(k, g, ToSend) => next.Registering? && next.window == k && next.g == g && next.rpc.Sent?
    case Registering(k, g, Sent(n)) =>
      next.Registering? && next.window == k && next.g == g && next.rpc.Answered? && next.rpc.n == n
    case Registering(_, _, Answered(_, _)) => next == ScheduleRemove(false, End) || next == Idle
    case RemoveEntry => next.TerminalTurn? || next == OneShotRemoving(ToSend)
    case TerminalTurn(g) =>
      || next == OneShotRemoving(ToSend) || next == Idle
      || (next.Removing? && next == Removing(next.o, ReadBack(next.o), ToSend))
      || (next.AwaitRegisters? && next.g == g)
      || (next.AwaitOperation? && next.g == g && !next.wait.SamePending?)
      || (next.ScheduleRemove? && next.raising && next.next.AwaitPending? && next.next.g == g)
    case AwaitRegisters(_, g) => next == TerminalTurn(g)
    case AwaitOperation(o, g, wait) =>
      || (next == TerminalTurn(g) && !wait.SameActive?)
      || (next == Idle && !wait.Other?) || (next == Broken && wait.SameActive?)
    case ReadResult(_) => next == Idle || next == Broken
    case OneShotRemoving(ToSend) => next.OneShotRemoving? && next.rpc.Sent?
    case OneShotRemoving(Sent(n)) => next.OneShotRemoving? && next.rpc.Answered? && next.rpc.n == n
    case OneShotRemoving(Answered(_, _)) => next == Idle
    case PrepareStart => next == Idle || next.OwnStart?
    case OwnStart(c) => next == AfterActivation(c) || next == Idle || next == Broken
    case AfterActivation(_) => next == Idle
    case StopCall(_) => next == ScheduleRemove(true, End) || next == Idle
    case ShutdownCall(deregister) => next == Idle || (deregister && next.ShutdownRequest?)
    case ShutdownRequest(_) => next == ScheduleRemove(true, End) || next == Idle
    case Idle => false
    case Broken => false
  }

  /** The step moves this thread, starts a renewal thread or an actor at most, and notes no answer. */
  predicate Moves(s: System, s': System, t: nat) {
    && t < |s.threads| <= |s'.threads| <= |s.threads| + 1
    && (forall u :: 0 <= u < |s.threads| && u != t ==> s'.threads[u] == s.threads[u])
    && (|s'.threads| > |s.threads| ==>
          var th := s'.threads[|s.threads|];
          th.owed == [] && (th.act.ClaimPending? || (th.act.Renewing? && th.act.phase.Gate?)))
    && s'.history.answers == s.history.answers
  }

  predicate Goes(s: System, s': System, t: nat) {
    Moves(s, s', t) && Leads(s.threads[t].act, s'.threads[t].act)
  }

  lemma RenewingGoes(s: System, t: nat, c: nat, p: Phase, ok: bool)
    requires WellFormed(s) && t < |s.threads| && ActionBounded(s.sh, s.log, Renewing(c, p))
    requires s.threads[t].act == Renewing(c, p)
    ensures Goes(s, PerformRenewing(s, t, c, p, ok), t)
  {
    assert Bounded(s.sh);
    hide WellFormed, Finish, Current, CommitRenewal, Bounded;
  }

  lemma CompletedGoes(s: System, t: nat, o: nat, r: Return, n: nat, ok: bool)
    requires Bounded(s.sh) && t < |s.threads| && s.threads[t].act == Removing(o, r, Answered(n, ok))
    requires o < |s.sh.operations| && 0 < n <= |s.log|
    ensures Goes(s, StepRemoveApply(s, t, o, n, ok, r), t)
  {
    forall h: History, sh1 ensures NoteCreated(h, s.sh, sh1).answers == h.answers { CreatedAnswers(h, s.sh, sh1); }
    hide Complete, Bounded, NoteCreated;
  }

  lemma RemovingGoes(s: System, t: nat, o: nat, r: Return, p: Rpc, ch: Choice)
    requires WellFormed(s) && Bounded(s.sh) && t < |s.threads| && s.threads[t].act == Removing(o, r, p)
    requires ActionBounded(s.sh, s.log, Removing(o, r, p))
    ensures Goes(s, Perform(s, t, Removing(o, r, p), ch), t)
  {
    hide WellFormed, StepRemoveApply, Bounded;
    if p.Answered? { CompletedGoes(s, t, o, r, p.n, p.ok); }
  }

  lemma RegisteredGoes(s: System, t: nat, k: Option<nat>, g: nat, n: nat, ok: bool)
    requires Bounded(s.sh) && t < |s.threads| && s.threads[t].act == Registering(k, g, Answered(n, ok))
    requires WindowBounded(s.sh, k) && 0 < n <= |s.log|
    ensures Goes(s, StepRegisterApply(s, t, k, g, n, ok), t)
  {
    hide CommitRegister, Bounded, LeaveHistory, NoteAccepted, NoteReopened;
    var (sh1, out, left) := CommitRegister(s.sh, n, ok, g, k);
    var h := NoteReopened(NoteAccepted(s.history, out.accepted, n, FromRegister, ok), out.reopened, g);
    SameAnswers(s.history, out.accepted, n, ok, out.reopened, g);
    if k.Some? { LeaveAnswers(h, s.sh, sh1, t, k.value, n, out.late, left.signal); }
  }

  lemma SameAnswers(h: History, accepted: bool, n: nat, ok: bool, reopened: bool, g: nat)
    ensures NoteReopened(NoteAccepted(h, accepted, n, FromRegister, ok), reopened, g).answers == h.answers
  {
  }

  lemma LeaveAnswers(h: History, before: Shared, after: Shared, t: nat, k: nat, n: nat, late: bool,
                     signal: Option<nat>)
    ensures LeaveHistory(h, before, after, t, k, n, late, signal).answers == h.answers
  {
    hide NoteCreated;
    forall h1: History ensures NoteCreated(h1, before, after).answers == h1.answers {
      CreatedAnswers(h1, before, after);
    }
  }

  lemma CreatedAnswers(h: History, before: Shared, after: Shared)
    ensures NoteCreated(h, before, after).answers == h.answers
  {
    if |after.operations| == |before.operations| + 1 && after.pending == Some(|before.operations|) {
      var h1 := h.(created := h.created + multiset{after.operations[|before.operations|].generation});
      assert h1.answers == h.answers;
      assert NoteCreated(h, before, after)
             == if before.coordination.Some?
                then h1.(origin := h1.origin[|before.operations| := before.coordination.value]) else h1;
    }
  }

  lemma RegisteringGoes(s: System, t: nat, k: Option<nat>, g: nat, p: Rpc, ch: Choice)
    requires WellFormed(s) && t < |s.threads| && s.threads[t].act == Registering(k, g, p)
    requires ActionBounded(s.sh, s.log, Registering(k, g, p))
    ensures Goes(s, Perform(s, t, Registering(k, g, p), ch), t)
  {
    assert Bounded(s.sh);
    hide WellFormed, StepRegisterApply, Bounded;
    if p.Answered? { RegisteredGoes(s, t, k, g, p.n, p.ok); }
  }

  lemma ScheduleGoes(s: System, t: nat, raising: bool, r: Return, started: bool)
    requires Bounded(s.sh) && t < |s.threads| && s.threads[t].act == ScheduleRemove(raising, r)
    ensures Goes(s, StepSchedule(s, t, raising, r, started), t)
  {
    hide Schedule, Bounded, ActorAlive;
  }

  lemma ActorGoes(s: System, t: nat, o: nat)
    requires t < |s.threads| && o < |s.sh.operations|
    ensures s.threads[t].act == ClaimPending(o) ==> Goes(s, StepClaim(s, t, o), t)
    ensures s.threads[t].act == EndActor(o) ==> Goes(s, StepEndActor(s, t, o), t)
  {
    hide ActorClaim, ActorEnd;
  }

  lemma JoinGoes(s: System, t: nat)
    requires Bounded(s.sh) && t < |s.threads| && s.threads[t].act == JoinWindow
    ensures Goes(s, StepJoin(s, t), t)
  {
    hide Join, Bounded;
  }

  lemma OneShotGoes(s: System, t: nat, p: Rpc, ch: Choice)
    requires WellFormed(s) && t < |s.threads| && s.threads[t].act == OneShotRemoving(p)
    requires ActionBounded(s.sh, s.log, OneShotRemoving(p))
    ensures Goes(s, Perform(s, t, OneShotRemoving(p), ch), t)
  {
    hide WellFormed, CommitOneShotRemove;
  }

  lemma ActivationGoes(s: System, t: nat, c: nat)
    requires Bounded(s.sh) && t < |s.threads| && c < |s.sh.contexts| && s.threads[t].act == OwnStart(c)
    ensures Goes(s, StepActivate(s, t, c), t)
  {
    hide Activate, Bounded;
  }

  lemma SettleGoes(s: System, t: nat, c: nat)
    requires Bounded(s.sh) && t < |s.threads| && c < |s.sh.contexts|
    requires s.threads[t].act == OwnStart(c) || s.threads[t].act == AfterActivation(c)
    ensures Goes(s, StepCancel(s, t, c), t) && Goes(s, StepSettle(s, t, c), t)
  {
    hide Cancel, Settle, Bounded;
  }

  lemma PrepareGoes(s: System, t: nat, started: bool)
    requires Bounded(s.sh) && t < |s.threads| && s.threads[t].act == PrepareStart
    ensures Goes(s, StepPrepare(s, t, started), t)
  {
    hide Prepare, Bounded;
  }

  lemma StartGoes(s: System, t: nat, a: Action, ch: Choice)
    requires WellFormed(s) && t < |s.threads| && ActionBounded(s.sh, s.log, a) && s.threads[t].act == a
    requires a.PrepareStart? || a.OwnStart? || a.AfterActivation?
    ensures Goes(s, PerformCall(s, t, a, ch), t)
  {
    assert Bounded(s.sh);
    hide WellFormed, StepPrepare, StepActivate, StepCancel, StepSettle, Bounded;
    if a.PrepareStart? {
      hide Goes;
      PrepareGoes(s, t, ch.started);
    } else if a.OwnStart? {
      hide Goes;
      ActivationGoes(s, t, a.c);
      SettleGoes(s, t, a.c);
    } else {
      SettleGoes(s, t, a.c);
    }
  }

  lemma TerminalGoes(s: System, t: nat, g: nat)
    requires Bounded(s.sh) && t < |s.threads| && s.threads[t].act == TerminalTurn(g)
    ensures Goes(s, StepTerminal(s, t, g), t)
  {
    hide Terminal, Bounded;
  }

  lemma StopGoes(s: System, t: nat, a: Action, ch: Choice)
    requires WellFormed(s) && t < |s.threads| && s.threads[t].act == a
    requires a.StopCall? || a.ShutdownCall? || a.ShutdownRequest?
    ensures Goes(s, PerformCall(s, t, a, ch), t)
  {
    assert Bounded(s.sh);
    forall h: History, sh1 ensures NoteCreated(h, s.sh, sh1).answers == h.answers { CreatedAnswers(h, s.sh, sh1); }
    hide WellFormed, Stop, ShutdownRemove, Bounded, NoteCreated;
  }

  lemma CallGoes(s: System, t: nat, a: Action, ch: Choice)
    requires WellFormed(s) && t < |s.threads| && ActionBounded(s.sh, s.log, a) && s.threads[t].act == a
    requires a.RemoveEntry? || a.AwaitRegisters? || a.AwaitOperation? || a.ReadResult?
    ensures Goes(s, PerformCall(s, t, a, ch), t)
  {
    hide WellFormed;
  }

  lemma PerformGoes(s: System, t: nat, a: Action, ch: Choice)
    requires WellFormed(s) && t < |s.threads| && ActionBounded(s.sh, s.log, a) && s.threads[t].act == a && Ready(s, a)
    ensures Goes(s, Perform(s, t, a, ch), t)
  {
    assert Bounded(s.sh);
    hide WellFormed, Bounded, Goes, PerformRenewing, PerformCall, StepSchedule, StepClaim, StepEndActor, StepJoin;
    match a
    case Renewing(c, p) => RenewingGoes(s, t, c, p, ch.ok);
    case Removing(o, r, p) => RemovingGoes(s, t, o, r, p, ch);
    case Registering(k, g, p) => RegisteringGoes(s, t, k, g, p, ch);
    case ScheduleRemove(raising, r) => ScheduleGoes(s, t, raising, r, ch.started);
    case OneShotRemoving(p) => OneShotGoes(s, t, p, ch);
    case ClaimPending(o) => ActorGoes(s, t, o);
    case EndActor(o) => ActorGoes(s, t, o);
    case JoinWindow => JoinGoes(s, t);
    case _ => OtherGoes(s, t, a, ch);
  }

  lemma OtherGoes(s: System, t: nat, a: Action, ch: Choice)
    requires WellFormed(s) && t < |s.threads| && ActionBounded(s.sh, s.log, a) && s.threads[t].act == a && Ready(s, a)
    requires !a.Renewing? && !a.Removing? && !a.Registering? && !a.ScheduleRemove? && !a.OneShotRemoving?
    requires !a.ClaimPending? && !a.EndActor? && !a.JoinWindow?
    ensures Goes(s, PerformCall(s, t, a, ch), t)
  {
    assert Bounded(s.sh);
    hide WellFormed, Bounded, Goes, StepTerminal;
    if a.PrepareStart? || a.OwnStart? || a.AfterActivation? {
      hide PerformCall;
      StartGoes(s, t, a, ch);
    } else if a.StopCall? || a.ShutdownCall? || a.ShutdownRequest? {
      hide PerformCall;
      StopGoes(s, t, a, ch);
    } else if a.TerminalTurn? {
      TerminalGoes(s, t, a.g);
    } else {
      hide PerformCall;
      CallGoes(s, t, a, ch);
    }
  }

  /** One turn: the thread sets its first event, or goes on and may have its answer. */
  ghost predicate Turns(s: System, s': System, t: nat, answer: Option<Answer>) {
    && t < |s.threads| <= |s'.threads| <= |s.threads| + 1
    && (forall u :: 0 <= u < |s.threads| && u != t ==> s'.threads[u] == s.threads[u])
    && (|s'.threads| > |s.threads| ==>
          var th := s'.threads[|s.threads|];
          th.owed == [] && (th.act.ClaimPending? || (th.act.Renewing? && th.act.phase.Gate?)))
    && (if s.threads[t].owed != [] then
          s'.threads[t] == Thread(s.threads[t].owed[1..], s.threads[t].act) && answer.None?
        else
          Leads(s.threads[t].act, s'.threads[t].act))
    && s'.history.answers == if answer.Some? then s.history.answers[t := answer.value] else s.history.answers
  }

  /** The answer of a turn. */
  function TurnAnswer(s: System, t: nat, ch: Choice): Option<Answer>
    requires WellFormed(s) && Enabled(s, t)
  {
    if s.threads[t].owed != [] then None else AnswerOf(s, s.threads[t].act, ch)
  }

  lemma TurnGoes(s: System, t: nat, ch: Choice)
    requires WellFormed(s) && Enabled(s, t)
    ensures Turns(s, Next(s, t, ch), t, TurnAnswer(s, t, ch))
  {
    var th := s.threads[t];
    assert ThreadBounded(s.sh, s.log, th);
    if th.owed == [] {
      hide WellFormed, Perform, Leads, AnswerOf, Ready;
      PerformGoes(s, t, th.act, ch);
    } else {
      hide WellFormed;
    }
  }
}
