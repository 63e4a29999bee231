/**
 * What callers get.  A call of `register_once` makes one RPC and is answered by it; a call of `remove_once`
 * makes at most one, and is answered by it, by a Remove that another thread made or by the cached one;
 * `start`, `stop` and `shutdown` contact nobody themselves.
 */
module RegistryCallers {
  import opened Options
  import opened RegistryState
  import opened RegistrySystem
  import opened RegistryInvariant
  import opened RegistrySections
  import opened RegistryRuns
  import opened RegistryTransitions
  import opened RegistryOverTime
  import opened RegistryControl
  import opened RegistryAnswers

  // ---------------------------------------------------------------- the RPCs of one thread

  predicate NoRpc(s: System, t: nat) {
    forall i :: 0 <= i < |s.log| ==> s.log[i].thread != t
  }

  predicate OnlyRpc(s: System, t: nat, n: nat) {
    0 < n <= |s.log| && forall i :: 0 <= i < |s.log| ==> (s.log[i].thread == t <==> i == n - 1)
  }

  predicate Unanswered(s: System, t: nat) {
    t !in s.history.answers
  }

  predicate Answers(s: System, t: nat, answer: Answer) {
    t in s.history.answers && s.history.answers[t] == answer
  }

  /** The thread has made one RPC, which has been applied and was a register. */
  ghost predicate Registered(s: System, t: nat) {
    exists n :: OnlyRpc(s, t, n) && s.log[n - 1].kind.Register? && s.log[n - 1].status.Applied?
                && Answers(s, t, Says(s.log[n - 1].status.ok))
  }

  // ---------------------------------------------------------------- register

  /** A call of `register_once`, from its entry to its end. */
  ghost predicate InRegister(s: System, t: nat)
    requires t < |s.threads|
  {
    match s.threads[t].act
    case JoinWindow => NoRpc(s, t) && Unanswered(s, t)
    case Registering(k, g, p) =>
      Unanswered(s, t)
      && (if p.ToSend? then NoRpc(s, t) else OnlyRpc(s, t, p.n) && s.log[p.n - 1].kind == Register(k, g))
    case ScheduleRemove(raising, r) => !raising && r == End && Registered(s, t)
    case Idle => Registered(s, t)
    case _ => false
  }

  // ---------------------------------------------------------------- one step

  /** What a turn of thread `u` does to threads, log and answers. */
  ghost predicate Steps(s: System, s': System, u: nat, answer: Option<Answer>) {
    Turns(s, s', u, answer) && RpcMoves(s, s', u) && LogGrows(s, s') && SlotMoves(s, s', u)
  }

  lemma TurnSteps(s: System, u: nat, ch: Choice)
    requires Inv(s) && WellFormed(s) && Enabled(s, u)
    ensures Steps(s, Next(s, u, ch), u, TurnAnswer(s, u, ch))
  {
    hide Inv, WellFormed, Enabled, Next, TurnAnswer, Turns, RpcMoves, LogGrows, SlotMoves, CreatesIdle, WindowMoves;
    hide TokenMoves, SnapshotMoves, Reopens, StoppingMoves, FailureMoves;
    TurnGoes(s, u, ch);
    TurnMoves(s, u, ch);
    TurnEvolves(s, u, ch);
  }

  /** A step of another thread leaves the thread, its RPC and its answer alone. */
  lemma OthersStep(s: System, s': System, u: nat, answer: Option<Answer>, t: nat)
    requires Steps(s, s', u, answer) && t < |s.threads| && u != t
    ensures Undisturbed(s, s', t)
  {
    hide SlotMoves, AtRpc, Leads;
  }

  /** A step of the thread itself appends to the log only by sending an RPC. */
  lemma OwnLog(s: System, s': System, t: nat, now: Option<nat>, next: Option<nat>)
    requires RpcMoves(s, s', t) && LogGrows(s, s')
    requires now == AtRpc(s.threads[t].act) && next == AtRpc(s'.threads[t].act)
    requires next.Some? ==> 0 < next.value <= |s'.log| && s'.log[next.value - 1].thread == t
    requires now.Some? ==> now.value <= |s.log|
    ensures NoRpc(s, t) && next.None? ==> NoRpc(s', t)
    ensures NoRpc(s, t) && next.Some? ==> OnlyRpc(s', t, next.value)
    ensures forall n :: OnlyRpc(s, t, n) && (next.None? || next == now) ==>
              && OnlyRpc(s', t, n) && s'.log[n - 1].kind == s.log[n - 1].kind
              && (s.log[n - 1].status.Applied? ==> s'.log[n - 1] == s.log[n - 1])
              && (now == Some(n) && next.None? ==> s'.log[n - 1].status.Applied?)
  {
    hide AtRpc;
  }

  /** The RPC a thread is at is its own. */
  lemma SentByThread(s: System, t: nat, n: nat)
    requires Inv(s) && t < |s.threads| && AtRpc(s.threads[t].act) == Some(n)
    ensures 0 < n <= |s.log| && s.log[n - 1].thread == t && !s.log[n - 1].status.Applied?
    ensures s.threads[t].act.Registering? ==>
              s.log[n - 1].kind == Register(s.threads[t].act.window, s.threads[t].act.g)
    ensures s.threads[t].act.OneShotRemoving? ==> s.log[n - 1].kind.OneShotRemove?
    ensures s.threads[t].act.Removing? ==> s.log[n - 1].kind.RemoveOf? && s.log[n - 1].kind.o == s.threads[t].act.o
    ensures var a := s.threads[t].act;
      && (a.Registering? && a.rpc.Answered? ==> s.log[n - 1].status == Returned(a.rpc.ok))
      && (a.OneShotRemoving? && a.rpc.Answered? ==> s.log[n - 1].status == Returned(a.rpc.ok))
      && (a.Removing? && a.rpc.Answered? ==> s.log[n - 1].status == Returned(a.rpc.ok))
  {
    hide TablesInv, LogInv, OriginInv, SnapshotInv, CountInv, Carried, HistoryBounded, Slots;
    ThreadAt(s, t);
  }

  /** What a step of the thread itself does to its RPC. */
  ghost predicate OwnMove(s: System, s': System, t: nat) {
    && t < |s.threads| && t < |s'.threads|
    && var now, next := AtRpc(s.threads[t].act), AtRpc(s'.threads[t].act);
      && (NoRpc(s, t) && next.None? ==> NoRpc(s', t))
      && (NoRpc(s, t) && next.Some? ==> OnlyRpc(s', t, next.value))
      && (forall n :: OnlyRpc(s, t, n) && (next.None? || next == now) ==>
            && OnlyRpc(s', t, n) && s'.log[n - 1].kind == s.log[n - 1].kind
            && (s.log[n - 1].status.Applied? ==> s'.log[n - 1] == s.log[n - 1])
            && (now == Some(n) && next.None? ==>
                  s'.log[n - 1].status.Applied? && s.log[n - 1].status.Returned?
                  && s'.log[n - 1].status.ok == s.log[n - 1].status.ok))
  }

  lemma OwnStep(s: System, s': System, t: nat)
    requires Inv(s) && Inv(s') && RpcMoves(s, s', t) && LogGrows(s, s') && t < |s.threads| <= |s'.threads|
    ensures OwnMove(s, s', t)
  {
    hide AtRpc, Inv, RpcMoves, LogGrows, OnlyRpc, NoRpc;
    var now, next := AtRpc(s.threads[t].act), AtRpc(s'.threads[t].act);
    if now.Some? { SentByThread(s, t, now.value); }
    if next.Some? { SentByThread(s', t, next.value); }
    OwnLog(s, s', t, now, next);
    if now.Some? && next.None? && OnlyRpc(s, t, now.value) { AppliedOnce(s, s', now.value); }
  }

  /** An entry that is applied had been answered, and keeps its success. */
  lemma AppliedOnce(s: System, s': System, n: nat)
    requires LogGrows(s, s') && 0 < n <= |s.log| && !s.log[n - 1].status.Applied? && s'.log[n - 1].status.Applied?
    ensures s.log[n - 1].status.Returned? && s'.log[n - 1].status.ok == s.log[n - 1].status.ok
  {
  }

  /** What a step of the thread itself does to its action and its answer. */
  ghost predicate OwnTurn(s: System, s': System, t: nat, answer: Option<Answer>) {
    && t < |s.threads| && t < |s'.threads|
    && (if s.threads[t].owed != [] then s'.threads[t].act == s.threads[t].act && answer.None?
        else Leads(s.threads[t].act, s'.threads[t].act))
    && (answer.None? && Unanswered(s, t) ==> Unanswered(s', t))
    && (answer.None? ==> forall a :: Answers(s, t, a) ==> Answers(s', t, a))
    && (answer.Some? ==> Answers(s', t, answer.value))
  }

  lemma TurnIsOwn(s: System, s': System, t: nat, answer: Option<Answer>)
    requires Turns(s, s', t, answer)
    ensures OwnTurn(s, s', t, answer)
  {
    hide Leads;
  }

  // ---------------------------------------------------------------- register, step by step

  lemma RegisterGoesOn(s: System, s': System, t: nat, answer: Option<Answer>)
    requires OwnMove(s, s', t) && OwnTurn(s, s', t, answer) && InRegister(s, t)
    requires var a' := s'.threads[t].act;
      a'.Registering? && !a'.rpc.ToSend? ==>
        0 < a'.rpc.n <= |s'.log| && s'.log[a'.rpc.n - 1].kind == Register(a'.window, a'.g)
    requires var a := s.threads[t].act; s.threads[t].owed == [] ==>
      && (a.Registering? && a.rpc.Answered? ==>
            && 0 < a.rpc.n <= |s.log| && s.log[a.rpc.n - 1].status == Returned(a.rpc.ok)
            && answer == Some(Says(a.rpc.ok)))
      && (a.JoinWindow? || (a.Registering? && !a.rpc.Answered?) || (a.ScheduleRemove? && !a.raising) ==> answer.None?)
    ensures InRegister(s', t)
  {
    hide OnlyRpc, NoRpc, Answers, Unanswered;
  }

  /** The thread is the same and the log keeps what it says of it. */
  ghost predicate Undisturbed(s: System, s': System, t: nat) {
    && t < |s.threads| && t < |s'.threads| && s'.threads[t] == s.threads[t]
    && (Unanswered(s, t) ==> Unanswered(s', t))
    && (forall a :: Answers(s, t, a) ==> Answers(s', t, a))
    && (NoRpc(s, t) ==> NoRpc(s', t))
    && (forall n :: OnlyRpc(s, t, n) ==> OnlyRpc(s', t, n) && s'.log[n - 1].kind == s.log[n - 1].kind)
    && (forall n :: OnlyRpc(s, t, n) && s.log[n - 1].status.Applied? ==> s'.log[n - 1] == s.log[n - 1])
  }

  lemma RegisterWaits(s: System, s': System, t: nat)
    requires Undisturbed(s, s', t) && InRegister(s, t)
    ensures InRegister(s', t)
  {
    hide OnlyRpc, NoRpc, Answers, Unanswered;
  }

  /** What the answer of a turn says of registers and Removes. */
  lemma RegisterAnswers(s: System, t: nat, ch: Choice)
    requires Inv(s) && WellFormed(s) && Enabled(s, t) && s.threads[t].owed == []
    ensures var a, answer := s.threads[t].act, TurnAnswer(s, t, ch);
      && (a.Registering? && a.rpc.Answered? ==>
            && 0 < a.rpc.n <= |s.log| && s.log[a.rpc.n - 1].status == Returned(a.rpc.ok)
            && answer == Some(Says(a.rpc.ok)))
      && (a.JoinWindow? || (a.Registering? && !a.rpc.Answered?) || (a.ScheduleRemove? && !a.raising) ==> answer.None?)
  {
    var a := s.threads[t].act;
    if a.Registering? && a.rpc.Answered? { SentByThread(s, t, a.rpc.n); }
    hide Inv, WellFormed;
  }

  lemma OwnFacts(s: System, s': System, t: nat, ch: Choice)
    requires Inv(s) && WellFormed(s) && Enabled(s, t) && s' == Next(s, t, ch) && Inv(s')
    ensures t < |s.threads| <= |s'.threads| && OwnMove(s, s', t) && OwnTurn(s, s', t, TurnAnswer(s, t, ch))
  {
    hide Inv, WellFormed, Enabled, Next, TurnAnswer, RpcMoves, LogGrows, SlotMoves, OwnMove, OwnTurn, Leads;
    TurnSteps(s, t, ch);
    OwnStep(s, s', t);
    TurnIsOwn(s, s', t, TurnAnswer(s, t, ch));
  }

  lemma OthersFacts(s: System, s': System, t: nat, u: nat, ch: Choice)
    requires Inv(s) && WellFormed(s) && Enabled(s, u) && s' == Next(s, u, ch) && t < |s.threads| && u != t
    ensures Undisturbed(s, s', t)
  {
    hide Inv, WellFormed, Enabled, Next, TurnAnswer, Turns, RpcMoves, LogGrows, SlotMoves, Undisturbed;
    TurnSteps(s, u, ch);
    OthersStep(s, s', u, TurnAnswer(s, u, ch), t);
  }

  lemma RegisterTurn(s: System, s': System, t: nat, u: nat, ch: Choice)
    requires Inv(s) && WellFormed(s) && Enabled(s, u) && s' == Next(s, u, ch) && Inv(s')
    requires t < |s.threads| && InRegister(s, t)
    ensures t < |s'.threads| && InRegister(s', t)
  {
    hide Inv, WellFormed, Enabled, Next, TurnAnswer, OwnMove, OwnTurn, InRegister;
    if u == t {
      OwnFacts(s, s', t, ch);
      RegisterOwnTurn(s, s', t, ch);
    } else {
      OthersFacts(s, s', t, u, ch);
      RegisterWaits(s, s', t);
    }
  }

  lemma RegisterOwnTurn(s: System, s': System, t: nat, ch: Choice)
    requires Inv(s) && WellFormed(s) && Enabled(s, t) && Inv(s')
    requires t < |s.threads| && t < |s'.threads| && InRegister(s, t)
    requires OwnMove(s, s', t) && OwnTurn(s, s', t, TurnAnswer(s, t, ch))
    ensures InRegister(s', t)
  {
    hide Inv, WellFormed, Enabled, TurnAnswer, OwnMove, OwnTurn, InRegister;
    var a' := s'.threads[t].act;
    if a'.Registering? && !a'.rpc.ToSend? { SentByThread(s', t, a'.rpc.n); }
    if s.threads[t].owed == [] { RegisterAnswers(s, t, ch); }
    RegisterGoesOn(s, s', t, TurnAnswer(s, t, ch));
  }

  /** A register enters the window that is open, or opens one; it stays outside only when the cleanup of the
      window in the slot has been requested. */
  lemma RegisterJoins(s: System, s': System, t: nat, ch: Choice)
    requires Slots(s.sh) && WellFormed(s) && Enabled(s, t) && s' == Next(s, t, ch)
    requires s.threads[t] == Thread([], JoinWindow)
    ensures
      var sh, g := s.sh, s.sh.generation;
      && t < |s'.threads|
      && (if sh.coordination.Some? && sh.coordinations[sh.coordination.value].cleanupRequested then
            s'.sh == sh && s'.threads[t] == Thread([], Action.Registering(None, g, ToSend))
          else
            var k := if sh.coordination.Some? then sh.coordination.value else |sh.coordinations|;
            var joined := if sh.coordination.Some? then sh.coordinations[k].inflight else 0;
            && s'.threads[t] == Thread([], Action.Registering(Some(k), g, ToSend))
            && s'.sh.coordination == Some(k) && k < |s'.sh.coordinations|
            && s'.sh.coordinations[k] == Coordination(g, joined + 1, false, false))
  {
    hide WellFormed;
  }

  // ---------------------------------------------------------------- remove

  /** The thread has made one RPC, a Remove, and it has been applied with this success. */
  ghost predicate RemovedBy(s: System, t: nat, ok: bool) {
    exists n :: OnlyRpc(s, t, n) && TakesAway(s.log[n - 1].kind) && s.log[n - 1].status.Applied?
                && s.log[n - 1].status.ok == ok
  }

  /** An operation has this result. */
  predicate HasResult(s: System, o: nat, ok: bool) {
    o < |s.sh.operations| && s.sh.operations[o].result == Some(ok)
  }

  /** Somebody else has made a Remove with this success: an operation has it as its result, or an accepted
      Remove succeeded. */
  ghost predicate Reused(s: System, ok: bool) {
    || (exists o :: HasResult(s, o, ok))
    || (ok && exists i, g :: 0 <= i < |s.log| && CleanedBy(s.log[i], g))
  }

  /** What a call of `remove_once` may end with. */
  ghost predicate RemoveAnswered(s: System, t: nat) {
    || (exists ok :: Answers(s, t, Says(ok)) && RemovedBy(s, t, ok))
    || (exists ok :: Answers(s, t, Says(ok)) && NoRpc(s, t) && Reused(s, ok))
    || (Answers(s, t, Raises) && NoRpc(s, t))
  }

  /** The operation a thread owns has been completed with the success of the thread's only RPC. */
  ghost predicate Owned(s: System, t: nat, o: nat) {
    exists ok :: RemovedBy(s, t, ok) && HasResult(s, o, ok)
  }

  /** A call of `remove_once`, from its entry to its end. */
  ghost predicate InRemove(s: System, t: nat)
    requires t < |s.threads|
  {
    match s.threads[t].act
    case RemoveEntry => NoRpc(s, t) && Unanswered(s, t)
    case TerminalTurn(_) => NoRpc(s, t) && Unanswered(s, t)
    case AwaitRegisters(_, _) => NoRpc(s, t) && Unanswered(s, t)
    case AwaitOperation(_, _, _) => NoRpc(s, t) && Unanswered(s, t)
    case OneShotRemoving(p) =>
      Unanswered(s, t)
      && (if p.ToSend? then NoRpc(s, t) else OnlyRpc(s, t, p.n) && s.log[p.n - 1].kind.OneShotRemove?)
    case Removing(o, r, p) =>
      r == ReadBack(o) && Unanswered(s, t)
      && (if p.ToSend? then NoRpc(s, t)
          else OnlyRpc(s, t, p.n) && s.log[p.n - 1].kind.RemoveOf? && s.log[p.n - 1].kind.o == o)
    case ScheduleRemove(raising, r) =>
      Unanswered(s, t)
      && (if raising then r.AwaitPending? && NoRpc(s, t) else r.ReadBack? && Owned(s, t, r.o))
    case ReadResult(o) => Unanswered(s, t) && Owned(s, t, o)
    case Idle => RemoveAnswered(s, t)
    case _ => false
  }

  /** Results and accepted Removes stay. */
  ghost predicate ResultsStay(s: System, s': System) {
    && (forall o, ok :: HasResult(s, o, ok) ==> HasResult(s', o, ok))
    && (forall ok :: Reused(s, ok) ==> Reused(s', ok))
  }

  lemma StepKeepsResults(s: System, s': System, u: nat, answer: Option<Answer>)
    requires Steps(s, s', u, answer)
    ensures ResultsStay(s, s')
  {
    hide Turns, RpcMoves;
    forall ok | Reused(s, ok) ensures Reused(s', ok) {
      if o :| HasResult(s, o, ok) {
        assert HasResult(s', o, ok);
      } else {
        var i, g :| 0 <= i < |s.log| && CleanedBy(s.log[i], g);
        assert s'.log[i] == s.log[i];
      }
    }
  }

  lemma RemovedStays(s: System, s': System, t: nat)
    requires Undisturbed(s, s', t)
    ensures forall ok :: RemovedBy(s, t, ok) ==> RemovedBy(s', t, ok)
  {
    hide OnlyRpc, NoRpc, Answers, Unanswered;
  }

  lemma RemoveWaits(s: System, s': System, t: nat)
    requires Undisturbed(s, s', t) && ResultsStay(s, s') && InRemove(s, t)
    ensures InRemove(s', t)
  {
    RemovedStays(s, s', t);
    hide OnlyRpc, NoRpc, Answers, Unanswered, RemovedBy, HasResult, Reused;
  }

  /** What a turn of a caller of `remove_once` decides. */
  ghost predicate Concludes(s: System, s': System, t: nat, answer: Option<Answer>)
    requires t < |s.threads| && t < |s'.threads|
  {
    var a, a' := s.threads[t].act, s'.threads[t].act;
    match a
    case OneShotRemoving(Answered(n, ok)) =>
      0 < n <= |s.log| && s.log[n - 1].status == Returned(ok) && answer == Some(Says(ok))
    case Removing(o, _, Answered(n, ok)) =>
      0 < n <= |s.log| && s.log[n - 1].status == Returned(ok) && answer.None? && HasResult(s', o, ok)
    case TerminalTurn(_) => if a'.Idle? then answer == Some(Says(true)) && Reused(s, true) else answer.None?
    case AwaitOperation(o, _, _) =>
      if a'.Idle? then exists ok :: answer == Some(Says(ok)) && HasResult(s, o, ok)
      else answer.None? && !a'.Broken?
    case ScheduleRemove(true, AwaitPending(_, _)) => answer == if a'.Idle? then Some(Raises) else None
    case ReadResult(o) => a'.Idle? && exists ok :: answer == Some(Says(ok)) && HasResult(s, o, ok)
    case ScheduleRemove(true, _) => true
    case Registering(_, _, _) => true
    case _ => answer.None?
  }

  /** The RPC of the next action, if it has been sent. */
  ghost predicate Sends(s': System, a': Action) {
    && (a'.OneShotRemoving? && !a'.rpc.ToSend? ==> 0 < a'.rpc.n <= |s'.log| && s'.log[a'.rpc.n - 1].kind.OneShotRemove?)
    && (a'.Removing? && !a'.rpc.ToSend? ==>
          0 < a'.rpc.n <= |s'.log| && s'.log[a'.rpc.n - 1].kind.RemoveOf? && s'.log[a'.rpc.n - 1].kind.o == a'.o)
  }

  lemma AppliesRemove(s: System, s': System, t: nat, n: nat, ok: bool)
    requires OwnMove(s, s', t) && OnlyRpc(s, t, n) && TakesAway(s.log[n - 1].kind)
    requires s.log[n - 1].status == Returned(ok)
    requires AtRpc(s.threads[t].act) == Some(n) && AtRpc(s'.threads[t].act).None?
    ensures RemovedBy(s', t, ok)
  {
    hide AtRpc;
    hide OnlyRpc;
    assert OnlyRpc(s', t, n);
  }

  lemma KeepsRemoved(s: System, s': System, t: nat, ok: bool)
    requires OwnMove(s, s', t) && RemovedBy(s, t, ok) && AtRpc(s'.threads[t].act).None?
    ensures RemovedBy(s', t, ok)
  {
    hide AtRpc;
    var n :| OnlyRpc(s, t, n) && TakesAway(s.log[n - 1].kind) && s.log[n - 1].status.Applied?
             && s.log[n - 1].status.ok == ok;
    assert OnlyRpc(s', t, n);
  }

  lemma RemoveGoesOn(s: System, s': System, t: nat, answer: Option<Answer>)
    requires OwnMove(s, s', t) && OwnTurn(s, s', t, answer) && ResultsStay(s, s') && InRemove(s, t)
    requires Sends(s', s'.threads[t].act)
    requires s.threads[t].owed == [] ==> Concludes(s, s', t, answer)
    ensures InRemove(s', t)
  {
    if AtRpc(s'.threads[t].act).None? {
      RemoveStays(s, s', t);
      if s.threads[t].owed == [] { RemoveApplied(s, s', t, answer); }
    }
    hide OnlyRpc, NoRpc, Answers, Unanswered, RemovedBy, HasResult, CleanedBy;
  }

  lemma RemoveStays(s: System, s': System, t: nat)
    requires OwnMove(s, s', t) && AtRpc(s'.threads[t].act).None?
    ensures forall ok :: RemovedBy(s, t, ok) ==> RemovedBy(s', t, ok)
  {
    hide RemovedBy, OnlyRpc, NoRpc;
    forall ok | RemovedBy(s, t, ok) ensures RemovedBy(s', t, ok) { KeepsRemoved(s, s', t, ok); }
  }

  lemma RemoveApplied(s: System, s': System, t: nat, answer: Option<Answer>)
    requires OwnMove(s, s', t) && InRemove(s, t) && AtRpc(s'.threads[t].act).None?
    requires s.threads[t].owed == [] && Concludes(s, s', t, answer)
    ensures var a := s.threads[t].act;
      && (a.OneShotRemoving? && a.rpc.Answered? ==> RemovedBy(s', t, a.rpc.ok))
      && (a.Removing? && a.rpc.Answered? ==> RemovedBy(s', t, a.rpc.ok))
  {
    var a := s.threads[t].act;
    if a.OneShotRemoving? && a.rpc.Answered? { AppliesRemove(s, s', t, a.rpc.n, a.rpc.ok); }
    if a.Removing? && a.rpc.Answered? { AppliesRemove(s, s', t, a.rpc.n, a.rpc.ok); }
    hide OwnMove, RemovedBy;
  }

  lemma ResultStored(sh: Shared, o: nat, n: nat, ok: bool)
    requires Slots(sh) && sh.active == Some(o)
    ensures o < |Complete(sh, o, n, ok).0.operations|
    ensures Complete(sh, o, n, ok).0.operations[o].result == Some(ok)
  {
    CompleteEffect(sh, o, n, ok);
    hide Complete, Slots;
  }

  lemma TerminalDecides(s: System, t: nat, g: nat)
    requires Inv(s) && t < |s.threads| && s.threads[t] == Thread([], TerminalTurn(g))
    ensures StepTerminal(s, t, g).threads[t].act.Idle? <==> Terminal(s.sh, g).1.Cached?
    ensures Terminal(s.sh, g).1.Cached? ==> Terminal(s.sh, g).1 == Cached(true) && Reused(s, true)
  {
    hide HistoryBounded, ThreadsInv, TablesInv, OriginInv, SnapshotInv, CountInv, Carried, EntryInv;
    if Terminal(s.sh, g).1.Cached? {
      assert s.sh.removed == Some(s.sh.generation) && s.sh.removedResult == Some(true);
      assert CleanedBy(s.log[s.history.removedBy - 1], s.sh.generation);
    }
    hide Slots, LogInv, WellFormed;
  }

  lemma ObserverDecides(s: System, s1: System, t: nat, a: Action, ch: Choice)
    requires WellFormed(s) && t < |s.threads| && s.threads[t] == Thread([], a) && ActionBounded(s.sh, s.log, a)
    requires a.AwaitOperation? || a.ReadResult?
    requires s1 == WithAnswer(Perform(s, t, a, ch), t, AnswerOf(s, a, ch)) && !s1.threads[t].act.Broken?
    ensures Concludes(s, s1, t, AnswerOf(s, a, ch))
  {
    hide WellFormed;
  }

  lemma SchedulerDecides(s: System, s1: System, t: nat, raising: bool, r: Return, ch: Choice)
    requires WellFormed(s) && t < |s.threads| && s.threads[t] == Thread([], ScheduleRemove(raising, r))
    requires ActionBounded(s.sh, s.log, s.threads[t].act)
    requires s1 == WithAnswer(StepSchedule(s, t, raising, r, ch.started), t, AnswerOf(s, s.threads[t].act, ch))
    ensures Concludes(s, s1, t, AnswerOf(s, s.threads[t].act, ch))
  {
    assert Bounded(s.sh);
    hide WellFormed, Schedule, ActorAlive, Bounded;
  }

  lemma RemovingDecides(s: System, s1: System, t: nat, o: nat, n: nat, ok: bool, r: Return)
    requires Inv(s) && t < |s.threads| && s.threads[t] == Thread([], Removing(o, r, Answered(n, ok)))
    requires o < |s.sh.operations| && 0 < n <= |s.log| && s1 == StepRemoveApply(s, t, o, n, ok, r)
    ensures t < |s1.threads| && Concludes(s, s1, t, None)
  {
    ThreadAt(s, t);
    SentByThread(s, t, n);
    assert Slots(s.sh) && Bounded(s.sh);
    hide Inv, ThreadInv, Slots, Complete, Bounded;
    ResultStored(s.sh, o, n, ok);
  }

  lemma TurnDecides(s: System, s': System, t: nat, ch: Choice)
    requires Inv(s) && WellFormed(s) && Enabled(s, t) && s.threads[t].owed == []
    requires s' == Next(s, t, ch) && Inv(s') && t < |s'.threads|
    ensures Concludes(s, s', t, TurnAnswer(s, t, ch))
  {
    NotBroken(s', t);
    hide Inv, WellFormed, Reused, Terminal, Concludes, StepRemoveApply, StepSchedule, StepTerminal, AnswerOf, Ready;
    ThreadAt(s, t);
    var a := s.threads[t].act;
    assert s.threads[t] == Thread([], a);
    if a.TerminalTurn? {
      TerminalTurnDecides(s, s', t, a.g, ch);
    } else if a.AwaitOperation? || a.ReadResult? {
      ObserverDecides(s, s', t, a, ch);
    } else if a.ScheduleRemove? {
      SchedulerDecides(s, s', t, a.raising, a.next, ch);
    } else if a.Removing? && a.rpc.Answered? {
      RemovingDecides(s, s', t, a.o, a.rpc.n, a.rpc.ok, a.next);
    } else {
      SentAsOneShot(s, t);
      PlainDecides(s, s', t, a, ch);
    }
  }

  lemma SentAsOneShot(s: System, t: nat)
    requires Inv(s) && t < |s.threads|
    ensures var a := s.threads[t].act; a.OneShotRemoving? && a.rpc.Answered? ==>
      0 < a.rpc.n <= |s.log| && s.log[a.rpc.n - 1].status == Returned(a.rpc.ok)
  {
    var a := s.threads[t].act;
    if a.OneShotRemoving? && a.rpc.Answered? { SentByThread(s, t, a.rpc.n); }
    hide Inv;
  }

  lemma PlainDecides(s: System, s': System, t: nat, a: Action, ch: Choice)
    requires WellFormed(s) && t < |s.threads| && s.threads[t] == Thread([], a) && t < |s'.threads|
    requires ActionBounded(s.sh, s.log, a)
    requires !a.TerminalTurn? && !a.AwaitOperation? && !a.ReadResult? && !a.ScheduleRemove?
    requires !(a.Removing? && a.rpc.Answered?)
    requires a.OneShotRemoving? && a.rpc.Answered? ==> s.log[a.rpc.n - 1].status == Returned(a.rpc.ok)
    ensures Concludes(s, s', t, AnswerOf(s, a, ch))
  {
    hide WellFormed;
  }

  lemma NotBroken(s: System, t: nat)
    requires Inv(s) && t < |s.threads|
    ensures !s.threads[t].act.Broken?
  {
    hide TablesInv, LogInv, OriginInv, SnapshotInv, CountInv, Carried, HistoryBounded, Slots;
    ThreadAt(s, t);
  }

  lemma TerminalTurnDecides(s: System, s': System, t: nat, g: nat, ch: Choice)
    requires Inv(s) && WellFormed(s) && t < |s.threads| && s.threads[t] == Thread([], TerminalTurn(g))
    requires s' == WithAnswer(StepTerminal(s, t, g), t, AnswerOf(s, TerminalTurn(g), ch)) && t < |s'.threads|
    ensures Concludes(s, s', t, AnswerOf(s, TerminalTurn(g), ch))
  {
    hide Inv, WellFormed, Reused, Terminal, StepTerminal;
    TerminalDecides(s, t, g);
  }

  lemma RemoveTurn(s: System, s': System, t: nat, u: nat, ch: Choice)
    requires Inv(s) && WellFormed(s) && Enabled(s, u) && s' == Next(s, u, ch) && Inv(s')
    requires t < |s.threads| && InRemove(s, t)
    ensures t < |s'.threads| && InRemove(s', t)
  {
    hide Inv, WellFormed, Enabled, Next, TurnAnswer, OwnMove, OwnTurn, InRemove, Turns, RpcMoves, LogGrows, SlotMoves;
    hide ResultsStay, Undisturbed, Steps, Concludes, Sends;
    TurnSteps(s, u, ch);
    StepKeepsResults(s, s', u, TurnAnswer(s, u, ch));
    if u == t {
      OwnFacts(s, s', t, ch);
      RemoveSends(s', t);
      if s.threads[t].owed == [] { TurnDecides(s, s', t, ch); }
      RemoveGoesOn(s, s', t, TurnAnswer(s, t, ch));
    } else {
      OthersFacts(s, s', t, u, ch);
      OthersThere(s, s', t);
      RemoveWaits(s, s', t);
    }
  }

  lemma OthersThere(s: System, s': System, t: nat)
    requires Undisturbed(s, s', t)
    ensures t < |s.threads| && t < |s'.threads|
  {
  }

  lemma RemoveSends(s: System, t: nat)
    requires Inv(s) && t < |s.threads|
    ensures Sends(s, s.threads[t].act)
  {
    hide Inv;
    var a := s.threads[t].act;
    if AtRpc(a).Some? { SentByThread(s, t, AtRpc(a).value); }
  }

  // ---------------------------------------------------------------- start, stop and shutdown

  /** A call of `start`, `stop` or `shutdown`: it makes no RPC. */
  ghost predicate InLifecycle(s: System, t: nat)
    requires t < |s.threads|
  {
    var a := s.threads[t].act;
    && NoRpc(s, t)
    && (a.PrepareStart? || a.OwnStart? || a.AfterActivation? || a.StopCall? || a.ShutdownCall?
        || a.ShutdownRequest? || a == ScheduleRemove(true, End) || a.Idle?)
  }

  lemma LifecycleTurn(s: System, s': System, t: nat, u: nat, ch: Choice)
    requires Inv(s) && WellFormed(s) && Enabled(s, u) && s' == Next(s, u, ch) && Inv(s')
    requires t < |s.threads| && InLifecycle(s, t)
    ensures t < |s'.threads| && InLifecycle(s', t)
  {
    hide Inv, WellFormed, Enabled, Next, TurnAnswer, NoRpc, OnlyRpc;
    if u == t {
      OwnFacts(s, s', t, ch);
      NotBroken(s', t);
    } else {
      OthersFacts(s, s', t, u, ch);
    }
  }

  // ---------------------------------------------------------------- whole calls

  /** The thread is somewhere in its call. */
  ghost predicate InCall(s: System, t: nat, call: Call)
    requires t < |s.threads|
  {
    match call
    case CallRegister => InRegister(s, t)
    case CallRemove => InRemove(s, t)
    case _ => InLifecycle(s, t)
  }

  /** Only threads that exist have been answered. */
  ghost predicate AnswersBounded(s: System) {
    forall t :: t in s.history.answers ==> t < |s.threads|
  }

  lemma EventAnswers(s: System, e: Event)
    requires Possible(s, e) && AnswersBounded(s)
    ensures AnswersBounded(Happen(s, e))
  {
    hide WellFormed, Enabled, Next, TurnAnswer, Leads;
    if e.Turn? { TurnGoes(s, e.t, e.choice); }
  }

  lemma {:induction false} RunAnswers(states: seq<System>, events: seq<Event>, i: nat)
    requires IsRun(states, events) && i < |states|
    ensures AnswersBounded(states[i])
  {
    hide AnswersBounded, Happen, Possible;
    if i == 0 {
      StartAnswers();
    } else {
      RunAnswers(states, events, i - 1);
      StepAt(states, events, i - 1);
      hide IsRun;
      EventAnswers(states[i - 1], events[i - 1]);
    }
  }

  lemma StartAnswers()
    ensures AnswersBounded(START)
  {
  }

  lemma CallBegins(s: System, call: Call)
    requires AllFollowed(s) && AnswersBounded(s)
    ensures InCall(Arrive(s, call), |s.threads|, call)
  {
    hide AtRpc;
    forall i | 0 <= i < |s.log| ensures s.log[i].thread != |s.threads| { assert Followed(s, i); }
  }

  lemma CallGoesOn(s: System, e: Event, t: nat, call: Call)
    requires Inv(s) && Possible(s, e) && Inv(Happen(s, e)) && t < |s.threads| && InCall(s, t, call)
    ensures t < |Happen(s, e).threads| && InCall(Happen(s, e), t, call)
  {
    hide Inv, WellFormed, Enabled, Next, InRegister, InRemove, InLifecycle;
    match e
    case Turn(u, ch) =>
      if call.CallRegister? {
        RegisterTurn(s, Next(s, u, ch), t, u, ch);
      } else if call.CallRemove? {
        RemoveTurn(s, Next(s, u, ch), t, u, ch);
      } else {
        LifecycleTurn(s, Next(s, u, ch), t, u, ch);
      }
    case Arrival(c) =>
      ArrivalIsQuiet(s, c, t);
      CallWaits(s, Arrive(s, c), t, call);
  }

  lemma ArrivalIsQuiet(s: System, call: Call, t: nat)
    requires t < |s.threads|
    ensures Undisturbed(s, Arrive(s, call), t) && ResultsStay(s, Arrive(s, call))
  {
    var s' := Arrive(s, call);
    forall ok | Reused(s, ok) ensures Reused(s', ok) {
      if o :| HasResult(s, o, ok) { assert HasResult(s', o, ok); }
    }
  }

  lemma CallWaits(s: System, s': System, t: nat, call: Call)
    requires Undisturbed(s, s', t) && ResultsStay(s, s') && InCall(s, t, call)
    ensures InCall(s', t, call)
  {
    hide InRegister, InRemove, ResultsStay;
    if call.CallRegister? { RegisterWaits(s, s', t); }
    if call.CallRemove? { RemoveWaits(s, s', t); }
  }

  lemma {:induction false} RunCall(states: seq<System>, events: seq<Event>, i: nat, j: nat, t: nat, call: Call)
    requires IsRun(states, events) && |states| == |events| + 1 && i < j < |states|
    requires events[i] == Arrival(call) && t == |states[i].threads|
    ensures t < |states[j].threads| && InCall(states[j], t, call)
    decreases j - i
  {
    hide IsRun, Inv, InCall, AllFollowed, AnswersBounded;
    StepAt(states, events, j - 1);
    if i + 1 == j {
      RunFollows(states, events, i);
      RunAnswers(states, events, i);
      CallBegins(states[i], call);
    } else {
      RunCall(states, events, i, j - 1, t, call);
      RunHolds(states, events, j - 1);
      RunHolds(states, events, j);
      hide Happen, Possible;
      CallGoesOn(states[j - 1], events[j - 1], t, call);
    }
  }

  /** A call of `register_once` that is over has made exactly one RPC, a register that has been applied, and
      was answered by it. */
  lemma RegisterIsAnswered(states: seq<System>, events: seq<Event>, i: nat, j: nat, t: nat)
    requires IsRun(states, events) && |states| == |events| + 1 && i < j < |states|
    requires events[i] == Arrival(CallRegister) && t == |states[i].threads|
    requires t < |states[j].threads| && Finished(states[j].threads[t])
    ensures Registered(states[j], t)
  {
    hide IsRun, Registered;
    RunCall(states, events, i, j, t, CallRegister);
  }

  /** A call of `remove_once` that is over has made one Remove at most.  It was answered by that Remove or,
      if it made none, by the result of an operation of another thread, by an accepted Remove that
      succeeded, or by the exception of a cleanup thread that could not start. */
  lemma RemoveIsAnswered(states: seq<System>, events: seq<Event>, i: nat, j: nat, t: nat)
    requires IsRun(states, events) && |states| == |events| + 1 && i < j < |states|
    requires events[i] == Arrival(CallRemove) && t == |states[i].threads|
    requires t < |states[j].threads| && Finished(states[j].threads[t])
    ensures RemoveAnswered(states[j], t)
  {
    hide IsRun, RemoveAnswered;
    RunCall(states, events, i, j, t, CallRemove);
  }

  /** `start`, `stop` and `shutdown` make no RPC themselves. */
  lemma LifecycleSendsNothing(states: seq<System>, events: seq<Event>, i: nat, j: nat, t: nat)
    requires IsRun(states, events) && |states| == |events| + 1 && i < j < |states|
    requires events[i].Arrival? && !events[i].call.CallRegister? && !events[i].call.CallRemove?
    requires t == |states[i].threads|
    ensures NoRpc(states[j], t)
  {
    hide IsRun, NoRpc;
    RunCall(states, events, i, j, t, events[i].call);
  }
}
