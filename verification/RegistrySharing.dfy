/**
 * One cleanup for all: a caller of `remove_once` that meets a Remove of its generation under way, waiting
 * or cached makes no RPC of its own and ends with that Remove's result.
 */
module RegistrySharing {
  import opened Options
  import opened RegistryState
  import opened RegistrySystem
  import opened RegistryInvariant
  import opened RegistryRuns
  import opened RegistryTransitions
  import opened RegistryOverTime
  import opened RegistryControl
  import opened RegistryAnswers
  import opened RegistryReopening
  import opened RegistryCallers

  // ---------------------------------------------------------------- what a terminal turn meets

  /** The generation is still the caller's, there is no Worker, and no register is in flight. */
  predicate Terminates(sh: Shared, g: nat)
    requires Bounded(sh)
  {
    sh.generation == g && sh.worker.None? && Drained(sh)
  }

  /** What a turn of the terminal path does, by what it finds in the slots: an ordinary RPC beside a Worker
      or for an older generation, a wait for registers, the cached success, a wait for the Remove that is
      there, or a Remove of its own if there is none. */
  ghost predicate Meets(s: System, s': System, t: nat, g: nat)
    requires Bounded(s.sh) && t < |s'.threads|
  {
    var sh, a' := s.sh, s'.threads[t].act;
    && s'.log == s.log && s'.threads[t].owed == []
    && (sh.generation != g || sh.worker.Some? ==> s'.sh == sh && a' == OneShotRemoving(ToSend))
    && (sh.generation == g && sh.worker.None? && !Drained(sh) ==>
          s'.sh == sh && a' == AwaitRegisters(sh.coordination.value, g))
    && (Terminates(sh, g) && sh.removed == Some(g) ==> s'.sh == sh && a' == Idle)
    && (Terminates(sh, g) && sh.removed != Some(g) ==>
          && (sh.active.Some? ==>
                var same := sh.operations[sh.active.value].generation == g;
                s'.sh == sh && a' == AwaitOperation(sh.active.value, g, if same then SameActive else Other))
          && (sh.active.None? && sh.pending.Some? ==>
                s'.sh == sh && a' == ScheduleRemove(true, AwaitPending(sh.pending.value, g)))
          && (sh.active.None? && sh.pending.None? ==>
                var o := |sh.operations|;
                && s'.sh == sh.(active := Some(o), operations := sh.operations + [Operation(g, false, None, None)])
                && a' == Removing(o, ReadBack(o), ToSend)))
  }

  lemma SectionMeets(s: System, t: nat, g: nat)
    requires Slots(s.sh) && t < |s.threads| && s.threads[t] == Thread([], TerminalTurn(g))
    ensures Meets(s, StepTerminal(s, t, g), t, g)
  {
  }

  lemma CachedAnswer(s: System, t: nat, g: nat, ch: Choice)
    requires Slots(s.sh) && WellFormed(s) && t < |s.threads| && s.threads[t] == Thread([], TerminalTurn(g))
    ensures Terminates(s.sh, g) && s.sh.removed == Some(g) ==> AnswerOf(s, TerminalTurn(g), ch) == Some(Says(true))
  {
    hide WellFormed;
  }

  lemma TerminalMeets(s: System, s': System, t: nat, g: nat, ch: Choice)
    requires Slots(s.sh) && WellFormed(s) && Enabled(s, t) && s.threads[t] == Thread([], TerminalTurn(g))
    requires s' == Next(s, t, ch)
    ensures t < |s'.threads| && Meets(s, s', t, g)
    ensures Terminates(s.sh, g) && s.sh.removed == Some(g) ==> Answers(s', t, Says(true))
  {
    assert s' == WithAnswer(StepTerminal(s, t, g), t, AnswerOf(s, TerminalTurn(g), ch));
    hide WellFormed, Slots, AnswerOf, Terminal, StepTerminal, Next, Meets;
    SectionMeets(s, t, g);
    CachedAnswer(s, t, g, ch);
    MeetsNoted(s, StepTerminal(s, t, g), t, g, AnswerOf(s, TerminalTurn(g), ch));
  }

  lemma MeetsNoted(s: System, s1: System, t: nat, g: nat, answer: Option<Answer>)
    requires Bounded(s.sh) && t < |s1.threads| && Meets(s, s1, t, g)
    ensures Meets(s, WithAnswer(s1, t, answer), t, g)
  {
  }

  /** `remove_once` is an ordinary RPC while there is a Worker, and takes the terminal path otherwise. */
  lemma EntryMeets(s: System, t: nat, ch: Choice)
    requires WellFormed(s) && Enabled(s, t) && s.threads[t] == Thread([], RemoveEntry)
    ensures
      var s' := Next(s, t, ch);
      && s'.sh == s.sh && s'.log == s.log && s'.history == s.history
      && s'.threads == s.threads[t := Thread([], if s.sh.worker.Some? then OneShotRemoving(ToSend)
                                                 else TerminalTurn(s.sh.generation))]
  {
    hide WellFormed;
  }

  // ---------------------------------------------------------------- no RPC since

  predicate NoRpcSince(n: nat, s: System, t: nat) {
    forall i :: n <= i < |s.log| ==> s.log[i].thread != t
  }

  lemma OthersSendNothing(n: nat, s: System, s': System, u: nat, answer: Option<Answer>, t: nat)
    requires Steps(s, s', u, answer) && NoRpcSince(n, s, t) && t < |s.threads|
    requires u != t || AtRpc(s'.threads[t].act).None?
    ensures NoRpcSince(n, s', t)
  {
    hide SlotMoves, Turns, AtRpc;
  }

  // ---------------------------------------------------------------- the Active Remove

  /** Since the log had `n` entries the thread has made no RPC; it waits for operation `o`, or is done and
      has been answered by its result. */
  ghost predicate Shares(n: nat, s: System, t: nat, o: nat, g: nat) {
    && t < |s.threads| && NoRpcSince(n, s, t)
    && (|| s.threads[t].act == AwaitOperation(o, g, SameActive)
        || (s.threads[t].act == Idle && exists ok :: Answers(s, t, Says(ok)) && HasResult(s, o, ok)))
  }

  lemma SharesGoesOn(n: nat, s: System, s': System, t: nat, o: nat, g: nat, answer: Option<Answer>)
    requires OwnTurn(s, s', t, answer) && ResultsStay(s, s') && Shares(n, s, t, o, g)
    requires s.threads[t].owed == [] ==> Concludes(s, s', t, answer)
    requires AtRpc(s'.threads[t].act).None? ==> NoRpcSince(n, s', t)
    requires !s'.threads[t].act.Broken?
    ensures Shares(n, s', t, o, g)
  {
    hide NoRpcSince, Answers, HasResult, Reused;
  }

  lemma SharesWaits(n: nat, s: System, s': System, t: nat, o: nat, g: nat)
    requires Undisturbed(s, s', t) && ResultsStay(s, s') && Shares(n, s, t, o, g) && NoRpcSince(n, s', t)
    ensures Shares(n, s', t, o, g)
  {
    hide NoRpcSince, Answers, HasResult, Reused;
  }

  // ---------------------------------------------------------------- turns

  lemma OwnTurnFacts(n: nat, s: System, s': System, t: nat, ch: Choice)
    requires Inv(s) && WellFormed(s) && Enabled(s, t) && s' == Next(s, t, ch) && Inv(s') && NoRpcSince(n, s, t)
    ensures t < |s.threads| <= |s'.threads| && OwnTurn(s, s', t, TurnAnswer(s, t, ch)) && ResultsStay(s, s')
    ensures s.threads[t].owed == [] ==> Concludes(s, s', t, TurnAnswer(s, t, ch))
    ensures AtRpc(s'.threads[t].act).None? ==> NoRpcSince(n, s', t)
    ensures !s'.threads[t].act.Broken? && SlotMoves(s, s', t)
  {
    hide Inv, WellFormed, Enabled, Next, TurnAnswer, OwnMove, OwnTurn, Turns, RpcMoves, LogGrows, SlotMoves;
    hide ResultsStay, Concludes, NoRpcSince, AtRpc;
    OwnFacts(s, s', t, ch);
    NotBroken(s', t);
    TurnSteps(s, t, ch);
    StepKeepsResults(s, s', t, TurnAnswer(s, t, ch));
    if s.threads[t].owed == [] { TurnDecides(s, s', t, ch); }
    if AtRpc(s'.threads[t].act).None? { OthersSendNothing(n, s, s', t, TurnAnswer(s, t, ch), t); }
  }

  lemma OtherTurnFacts(n: nat, s: System, s': System, t: nat, u: nat, ch: Choice)
    requires Inv(s) && WellFormed(s) && Enabled(s, u) && s' == Next(s, u, ch) && t < |s.threads| && u != t
    requires NoRpcSince(n, s, t)
    ensures Undisturbed(s, s', t) && ResultsStay(s, s') && NoRpcSince(n, s', t) && SlotMoves(s, s', u)
  {
    hide Inv, WellFormed, Enabled, Next, TurnAnswer, Turns, RpcMoves, LogGrows, SlotMoves, Undisturbed;
    hide ResultsStay, NoRpcSince;
    OthersFacts(s, s', t, u, ch);
    TurnSteps(s, u, ch);
    StepKeepsResults(s, s', u, TurnAnswer(s, u, ch));
    OthersSendNothing(n, s, s', u, TurnAnswer(s, u, ch), t);
  }

  /** An event that is not a turn of the thread. */
  lemma OtherEventFacts(n: nat, s: System, e: Event, t: nat)
    requires Inv(s) && Possible(s, e) && t < |s.threads| && (e.Turn? ==> e.t != t) && NoRpcSince(n, s, t)
    ensures Undisturbed(s, Happen(s, e), t) && ResultsStay(s, Happen(s, e)) && NoRpcSince(n, Happen(s, e), t)
    ensures e.Turn? ==> SlotMoves(s, Happen(s, e), e.t)
    ensures e.Arrival? ==> Happen(s, e).sh == s.sh
  {
    hide Inv, WellFormed, Enabled, Next, Undisturbed, ResultsStay, SlotMoves;
    match e
    case Arrival(call) => ArrivalIsQuiet(s, call, t);
    case Turn(u, ch) =>
      hide NoRpcSince;
      OtherTurnFacts(n, s, Next(s, u, ch), t, u, ch);
  }

  lemma SharesEvent(n: nat, s: System, e: Event, t: nat, o: nat, g: nat)
    requires Inv(s) && Possible(s, e) && Inv(Happen(s, e)) && t < |s.threads| && Shares(n, s, t, o, g)
    ensures Shares(n, Happen(s, e), t, o, g)
  {
    hide Inv, WellFormed, Enabled, Next, TurnAnswer, OwnTurn, ResultsStay, Concludes, NoRpcSince, Undisturbed, Answers;
    hide HasResult, SlotMoves;
    assert NoRpcSince(n, s, t);
    if e.Turn? && e.t == t {
      hide Shares;
      OwnTurnFacts(n, s, Next(s, t, e.choice), t, e.choice);
      SharesGoesOn(n, s, Next(s, t, e.choice), t, o, g, TurnAnswer(s, t, e.choice));
    } else {
      hide Shares, Happen, Possible;
      OtherEventFacts(n, s, e, t);
      SharesWaits(n, s, Happen(s, e), t, o, g);
    }
  }

  lemma {:induction false} RunShares(states: seq<System>, events: seq<Event>, i: nat, j: nat, n: nat, t: nat, o: nat,
                                     g: nat)
    requires IsRun(states, events) && |states| == |events| + 1 && i <= j < |states|
    requires Shares(n, states[i], t, o, g)
    ensures Shares(n, states[j], t, o, g)
    decreases j - i
  {
    hide IsRun, Inv, Happen, Possible;
    if i < j {
      RunShares(states, events, i, j - 1, n, t, o, g);
      RunHolds(states, events, j - 1);
      RunHolds(states, events, j);
      StepAt(states, events, j - 1);
      assert t < |states[j - 1].threads|;
      hide Shares;
      SharesEvent(n, states[j - 1], events[j - 1], t, o, g);
    }
  }

  /** The turn of the terminal path at state `i` of the run. */
  ghost predicate TerminalAt(states: seq<System>, events: seq<Event>, i: nat, t: nat, g: nat)
    requires |states| == |events| + 1 && i < |events|
  {
    && events[i].Turn? && events[i].t == t && t < |states[i].threads|
    && states[i].threads[t] == Thread([], TerminalTurn(g))
    && Bounded(states[i].sh) && Terminates(states[i].sh, g)
  }

  lemma MeetsAt(states: seq<System>, events: seq<Event>, i: nat, t: nat, g: nat)
    requires IsRun(states, events) && |states| == |events| + 1 && i < |events| && TerminalAt(states, events, i, t, g)
    ensures t < |states[i + 1].threads| && Meets(states[i], states[i + 1], t, g)
    ensures states[i].sh.removed == Some(g) ==> Answers(states[i + 1], t, Says(true))
  {
    RunHolds(states, events, i);
    StepAt(states, events, i);
    hide IsRun;
    assert Slots(states[i].sh) && WellFormed(states[i]);
    hide Inv, Slots, WellFormed, Meets, Next, Enabled;
    TerminalMeets(states[i], states[i + 1], t, g, events[i].choice);
  }

  /** A caller of `remove_once` that meets an Active Remove of its generation makes no RPC of its own
      afterwards, and ends with the result of that Remove. */
  lemma ActiveIsShared(states: seq<System>, events: seq<Event>, i: nat, j: nat, t: nat, g: nat, o: nat)
    requires IsRun(states, events) && |states| == |events| + 1 && i < j < |states|
    requires TerminalAt(states, events, i, t, g) && states[i].sh.removed != Some(g)
    requires states[i].sh.active == Some(o) && states[i].sh.operations[o].generation == g
    ensures NoRpcSince(|states[i].log|, states[j], t) && t < |states[j].threads|
    ensures Finished(states[j].threads[t]) ==>
              exists ok :: Answers(states[j], t, Says(ok)) && HasResult(states[j], o, ok)
  {
    hide IsRun, Answers, HasResult;
    MeetsAt(states, events, i, t, g);
    assert Shares(|states[i].log|, states[i + 1], t, o, g);
    RunShares(states, events, i + 1, j, |states[i].log|, t, o, g);
  }

  // ---------------------------------------------------------------- the cached Remove

  /** The thread is done and has been answered, without an RPC since the log had `n` entries. */
  ghost predicate Reuses(n: nat, s: System, t: nat, ok: bool) {
    t < |s.threads| && NoRpcSince(n, s, t) && s.threads[t].act == Idle && Answers(s, t, Says(ok))
  }

  lemma ReusesEvent(n: nat, s: System, e: Event, t: nat, ok: bool)
    requires Inv(s) && Possible(s, e) && Inv(Happen(s, e)) && Reuses(n, s, t, ok)
    ensures Reuses(n, Happen(s, e), t, ok)
  {
    hide Inv, WellFormed, Enabled, Next, TurnAnswer, ResultsStay, Concludes, NoRpcSince, Answers, HasResult, SlotMoves;
    if e.Turn? && e.t == t {
      OwnTurnFacts(n, s, Next(s, t, e.choice), t, e.choice);
    } else {
      hide Happen, Possible;
      OtherEventFacts(n, s, e, t);
    }
  }

  lemma {:induction false} RunReuses(states: seq<System>, events: seq<Event>, i: nat, j: nat, n: nat, t: nat, ok: bool)
    requires IsRun(states, events) && |states| == |events| + 1 && i <= j < |states|
    requires Reuses(n, states[i], t, ok)
    ensures Reuses(n, states[j], t, ok)
    decreases j - i
  {
    hide IsRun, Inv, Happen, Possible, Reuses;
    if i < j {
      RunReuses(states, events, i, j - 1, n, t, ok);
      RunHolds(states, events, j - 1);
      RunHolds(states, events, j);
      StepAt(states, events, j - 1);
      ReusesEvent(n, states[j - 1], events[j - 1], t, ok);
    }
  }

  /** A caller that meets the cached success of its generation is answered by it, and makes no RPC. */
  lemma CacheIsShared(states: seq<System>, events: seq<Event>, i: nat, j: nat, t: nat, g: nat)
    requires IsRun(states, events) && |states| == |events| + 1 && i < j < |states|
    requires TerminalAt(states, events, i, t, g) && states[i].sh.removed == Some(g)
    ensures NoRpcSince(|states[i].log|, states[j], t) && Answers(states[j], t, Says(true))
    ensures t < |states[j].threads| && states[j].threads[t].act == Idle
  {
    hide IsRun, Answers, HasResult;
    MeetsAt(states, events, i, t, g);
    assert Reuses(|states[i].log|, states[i + 1], t, true);
    RunReuses(states, events, i + 1, j, |states[i].log|, t, true);
  }

  // ---------------------------------------------------------------- the Pending Remove

  /** The operation has left its slot without a result, and will never get one. */
  predicate Cancelled(s: System, o: nat) {
    && o < |s.sh.operations| && s.sh.operations[o].result.None?
    && s.sh.pending != Some(o) && s.sh.active != Some(o)
  }

  /** Since the log had `n` entries the thread has made no RPC; it starts the actor of operation `o`, waits
      for it, or is done: answered by its result, or with the exception of an actor that cannot start. */
  ghost predicate Awaits(n: nat, s: System, t: nat, o: nat, g: nat) {
    && t < |s.threads| && NoRpcSince(n, s, t)
    && (|| s.threads[t].act == ScheduleRemove(true, AwaitPending(o, g))
        || s.threads[t].act == AwaitOperation(o, g, SamePending)
        || (s.threads[t].act == Idle
            && ((exists ok :: Answers(s, t, Says(ok)) && HasResult(s, o, ok)) || Answers(s, t, Raises))))
  }

  lemma CancelledStays(s: System, s': System, u: nat, o: nat)
    requires SlotMoves(s, s', u) && Bounded(s.sh) && Cancelled(s, o)
    ensures Cancelled(s', o)
  {
  }

  /** The wait for a Pending Remove ends with its result, or because the Remove was cancelled. */
  lemma WaitEnds(s: System, t: nat, o: nat, g: nat, ch: Choice)
    requires Slots(s.sh) && WellFormed(s) && Enabled(s, t)
    requires s.threads[t] == Thread([], AwaitOperation(o, g, SamePending))
    ensures o < |s.sh.operations|
    ensures TurnAnswer(s, t, ch).None? ==> Cancelled(s, o)
  {
    assert ThreadBounded(s.sh, s.log, s.threads[t]);
    hide WellFormed;
  }

  lemma AwaitsGoesOn(n: nat, s: System, s': System, t: nat, o: nat, g: nat, answer: Option<Answer>)
    requires OwnTurn(s, s', t, answer) && ResultsStay(s, s') && Awaits(n, s, t, o, g)
    requires s.threads[t].owed == [] ==> Concludes(s, s', t, answer)
    requires AtRpc(s'.threads[t].act).None? ==> NoRpcSince(n, s', t)
    ensures Awaits(n, s', t, o, g)
            || (s.threads[t] == Thread([], AwaitOperation(o, g, SamePending)) && answer.None?)
  {
    hide NoRpcSince, Answers, HasResult, Reused;
  }

  lemma AwaitsWaits(n: nat, s: System, s': System, t: nat, o: nat, g: nat)
    requires Undisturbed(s, s', t) && ResultsStay(s, s') && Awaits(n, s, t, o, g) && NoRpcSince(n, s', t)
    ensures Awaits(n, s', t, o, g)
  {
    hide NoRpcSince, Answers, HasResult, Reused;
  }

  lemma AwaitsEvent(n: nat, s: System, e: Event, t: nat, o: nat, g: nat)
    requires Inv(s) && Possible(s, e) && Inv(Happen(s, e)) && t < |s.threads|
    requires Awaits(n, s, t, o, g) || Cancelled(s, o)
    ensures t < |Happen(s, e).threads|
    ensures Awaits(n, Happen(s, e), t, o, g) || Cancelled(Happen(s, e), o)
  {
    if Cancelled(s, o) {
      CancelledEvent(s, e, t, o);
    } else if e.Turn? && e.t == t {
      AwaitsOwnTurn(n, s, t, o, g, e.choice);
    } else {
      assert NoRpcSince(n, s, t);
      hide Inv, WellFormed, Happen, Possible, ResultsStay, NoRpcSince, SlotMoves, Awaits, Cancelled;
      OtherEventFacts(n, s, e, t);
      AwaitsWaits(n, s, Happen(s, e), t, o, g);
    }
  }

  lemma CancelledEvent(s: System, e: Event, t: nat, o: nat)
    requires Inv(s) && Possible(s, e) && t < |s.threads| && Cancelled(s, o)
    ensures t < |Happen(s, e).threads| && Cancelled(Happen(s, e), o)
  {
    assert Bounded(s.sh) && (e.Turn? ==> WellFormed(s) && Enabled(s, e.t));
    hide Inv, WellFormed, Enabled, Next, TurnAnswer, Turns, RpcMoves, LogGrows, SlotMoves, Bounded;
    if e.Turn? {
      hide Cancelled;
      TurnSteps(s, e.t, e.choice);
      CancelledStays(s, Next(s, e.t, e.choice), e.t, o);
      TurnThreads(s, Next(s, e.t, e.choice), e.t, TurnAnswer(s, e.t, e.choice));
    }
  }

  lemma TurnThreads(s: System, s': System, u: nat, answer: Option<Answer>)
    requires Turns(s, s', u, answer)
    ensures |s.threads| <= |s'.threads|
  {
    hide Leads;
  }

  lemma AwaitsOwnTurn(n: nat, s: System, t: nat, o: nat, g: nat, ch: Choice)
    requires Inv(s) && WellFormed(s) && Enabled(s, t) && Inv(Next(s, t, ch)) && Awaits(n, s, t, o, g)
    ensures t < |Next(s, t, ch).threads|
    ensures Awaits(n, Next(s, t, ch), t, o, g) || Cancelled(Next(s, t, ch), o)
  {
    assert NoRpcSince(n, s, t) && Slots(s.sh) && Bounded(s.sh);
    var s' := Next(s, t, ch);
    hide Inv, WellFormed, Enabled, Next, TurnAnswer, OwnTurn, ResultsStay, Concludes, NoRpcSince, Slots, Bounded;
    hide SlotMoves, AtRpc, Awaits, Cancelled;
    OwnTurnFacts(n, s, s', t, ch);
    AwaitsGoesOn(n, s, s', t, o, g, TurnAnswer(s, t, ch));
    if s.threads[t] == Thread([], AwaitOperation(o, g, SamePending)) && TurnAnswer(s, t, ch).None? {
      WaitEnds(s, t, o, g, ch);
      CancelledStays(s, s', t, o);
    }
  }

  lemma {:induction false} RunAwaits(states: seq<System>, events: seq<Event>, i: nat, j: nat, n: nat, t: nat, o: nat,
                                     g: nat)
    requires IsRun(states, events) && |states| == |events| + 1 && i <= j < |states|
    requires t < |states[i].threads| && Awaits(n, states[i], t, o, g)
    ensures t < |states[j].threads| && (Awaits(n, states[j], t, o, g) || Cancelled(states[j], o))
    decreases j - i
  {
    hide IsRun, Inv, Happen, Possible, Awaits, Cancelled;
    if i < j {
      RunAwaits(states, events, i, j - 1, n, t, o, g);
      RunHolds(states, events, j - 1);
      RunHolds(states, events, j);
      StepAt(states, events, j - 1);
      AwaitsEvent(n, states[j - 1], events[j - 1], t, o, g);
    }
  }

  /** A caller that meets a Pending Remove of its generation, with none Active before it, makes no RPC of its
      own if that Remove gets a result; it ends with this result, or with the exception of a cleanup
      thread that cannot start. */
  lemma PendingIsShared(states: seq<System>, events: seq<Event>, i: nat, j: nat, t: nat, g: nat, o: nat)
    requires IsRun(states, events) && |states| == |events| + 1 && i < j < |states|
    requires TerminalAt(states, events, i, t, g) && states[i].sh.removed != Some(g)
    requires states[i].sh.active.None? && states[i].sh.pending == Some(o)
    requires o < |states[j].sh.operations| && states[j].sh.operations[o].result.Some?
    ensures NoRpcSince(|states[i].log|, states[j], t) && t < |states[j].threads|
    ensures Finished(states[j].threads[t]) ==>
              Answers(states[j], t, Says(states[j].sh.operations[o].result.value)) || Answers(states[j], t, Raises)
  {
    hide IsRun, Answers;
    MeetsAt(states, events, i, t, g);
    assert Awaits(|states[i].log|, states[i + 1], t, o, g);
    RunAwaits(states, events, i + 1, j, |states[i].log|, t, o, g);
  }
}
