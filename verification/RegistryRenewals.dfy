/**
 * What a Worker does while it is current: it renews.  Its thread sends a renewal at least once in eight of
 * its own turns, whatever the others do in between, and it never pauses without having applied an answer.
 */
module RegistryRenewals {
  import opened Options
  import opened RegistryState
  import opened RegistrySystem
  import opened RegistryInvariant
  import opened RegistryRuns
  import opened RegistryTransitions
  import opened RegistryTheorems
  import opened RegistryOverTime
  import opened RegistryControl
  import opened RegistryAdvances
  import opened RegistryReopening

  /** A renewal of context `c` in the current generation is sent. */
  predicate SendsRenewal(s: System, s': System, t: nat, c: nat) {
    s'.log == s.log + [Entry(Renew(c, s.sh.generation), t, InFlight)]
  }

  /** How many turns a current Worker makes before the one that sends. */
  function TurnsToSend(p: Phase): nat {
    match p
    case Gate => 7
    case EntryCheck => 6
    case FirstCheck => 5
    case AwaitOld => 4
    case Loop => 3
    case Acquire => 2
    case Check => 1
    case Calling(ToSend) => 0
    case Calling(Sent(_)) => 6
    case Calling(Answered(_, _)) => 5
    case Interval => 4
    case Last => 0
  }

  /** The thread is in the renewal loop of the current Worker, so many turns from its next renewal. */
  predicate RenewsWithin(s: System, t: nat, c: nat, turns: nat) {
    && t < |s.threads| && s.sh.worker == Some(c)
    && s.threads[t].act.Renewing? && s.threads[t].act.c == c && !s.threads[t].act.phase.Last?
    && TurnsToSend(s.threads[t].act.phase) <= turns
  }

  lemma WorkerSends(s: System, t: nat, c: nat, p: Phase, ok: bool)
    requires WellFormed(s) && t < |s.threads| && s.threads[t] == Thread([], Renewing(c, p)) && !p.Last?
    requires ActionBounded(s.sh, s.log, Renewing(c, p)) && Current(s.sh, c)
    ensures
      var s' := PerformRenewing(s, t, c, p, ok);
      || SendsRenewal(s, s', t, c)
      || (s'.threads[t].act.Renewing? && s'.threads[t].act.c == c && !s'.threads[t].act.phase.Last?
          && TurnsToSend(s'.threads[t].act.phase) < TurnsToSend(p))
  {
    assert Bounded(s.sh);
    hide WellFormed, CommitRenewal, Bounded;
    if p.Calling? && p.rpc.Answered? { CurrentGoesOn(s.sh, c, p.rpc.n, p.rpc.ok); }
    hide Current;
  }

  lemma CurrentGoesOn(sh: Shared, c: nat, n: nat, ok: bool)
    requires Bounded(sh) && c < |sh.contexts| && Current(sh, c)
    ensures CommitRenewal(sh, c, n, ok).1.current
    ensures CommitRenewal(sh, c, n, ok).1.accepted <==> n > sh.lastApplied
    ensures n > sh.lastApplied ==>
              CommitRenewal(sh, c, n, ok).0.registered == ok && CommitRenewal(sh, c, n, ok).0.lastApplied == n
  {
  }

  // ---------------------------------------------------------------- the last phase

  /** A thread that is about to finish its context is not that of the current Worker. */
  ghost predicate LastIsOver(s: System) {
    forall u :: 0 <= u < |s.threads| && s.threads[u].act.Renewing? && s.threads[u].act.phase.Last? ==>
      s.sh.worker != Some(s.threads[u].act.c)
  }

  lemma TurnIsOver(s: System, t: nat, ch: Choice)
    requires Inv(s) && Steady(s) && WellFormed(s) && Enabled(s, t) && LastIsOver(s)
    ensures LastIsOver(Next(s, t, ch))
  {
    hide Inv, WellFormed, Enabled, Steady, Next, LogGrows, SlotMoves, CreatesIdle, WindowMoves, SnapshotMoves, Reopens;
    hide StoppingMoves, FailureMoves, Pays, Walks, TurnAnswer;
    var s' := Next(s, t, ch);
    TurnEvolves(s, t, ch);
    TurnGoes(s, t, ch);
    TurnAdvances(s, t, ch);
    forall u | 0 <= u < |s'.threads| && s'.threads[u].act.Renewing? && s'.threads[u].act.phase.Last?
      ensures s'.sh.worker != Some(s'.threads[u].act.c)
    {
      if u < |s.threads| && u != t { LastIsCommitted(s, u); }
    }
  }

  lemma LastIsCommitted(s: System, u: nat)
    requires Inv(s) && u < |s.threads| && s.threads[u].act.Renewing? && s.threads[u].act.phase.Last?
    ensures s.threads[u].act.c in s.history.committed
  {
    hide TablesInv, LogInv, OriginInv, SnapshotInv, CountInv, Carried, HistoryBounded, Slots;
    ThreadAt(s, u);
  }

  lemma {:induction false} RunIsOver(states: seq<System>, events: seq<Event>, i: nat)
    requires IsRun(states, events) && i < |states|
    ensures LastIsOver(states[i])
  {
    hide Inv, Steady, LastIsOver, Happen, Possible;
    if i == 0 {
      StartIsOver();
    } else {
      RunIsOver(states, events, i - 1);
      RunHolds(states, events, i - 1);
      RunSteady(states, events, i - 1);
      StepAt(states, events, i - 1);
      hide IsRun;
      EventIsOver(states[i - 1], events[i - 1]);
    }
  }

  lemma StartIsOver()
    ensures LastIsOver(START)
  {
  }

  lemma EventIsOver(s: System, e: Event)
    requires Inv(s) && Steady(s) && Possible(s, e) && LastIsOver(s)
    ensures LastIsOver(Happen(s, e))
  {
    hide Inv, Steady, WellFormed, Enabled, Next;
    if e.Turn? {
      hide LastIsOver;
      TurnIsOver(s, e.t, e.choice);
    }
  }

  // ---------------------------------------------------------------- renewals are sent

  /** A turn of the thread sends, or brings it nearer to its next renewal. */
  lemma OwnTurnSends(s: System, t: nat, c: nat, turns: nat, ch: Choice)
    requires Inv(s) && WellFormed(s) && Enabled(s, t) && RenewsWithin(s, t, c, turns)
    ensures
      var s' := Next(s, t, ch);
      || SendsRenewal(s, s', t, c)
      || (turns > 0 && (s'.sh.worker == Some(c) ==> RenewsWithin(s', t, c, turns - 1)))
  {
    ThreadAt(s, t);
    var p := s.threads[t].act.phase;
    assert s.threads[t] == Thread([], Renewing(c, p));
    hide Inv, WellFormed, PerformRenewing, AnswerOf, SendsRenewal;
    WorkerIsCurrent(s, t, c, p);
    WorkerSends(s, t, c, p, ch.ok);
    NotedSends(s, PerformRenewing(s, t, c, p, ch.ok), t, c, AnswerOf(s, Renewing(c, p), ch));
  }

  lemma NotedSends(s: System, s1: System, t: nat, c: nat, answer: Option<Answer>)
    ensures SendsRenewal(s, s1, t, c) <==> SendsRenewal(s, WithAnswer(s1, t, answer), t, c)
  {
  }

  lemma OthersTurn(s: System, u: nat, t: nat, c: nat, turns: nat, ch: Choice)
    requires WellFormed(s) && Enabled(s, u) && u != t && RenewsWithin(s, t, c, turns)
    ensures Next(s, u, ch).sh.worker == Some(c) ==> RenewsWithin(Next(s, u, ch), t, c, turns)
  {
    hide WellFormed, Enabled, Next, TurnAnswer;
    TurnGoes(s, u, ch);
  }

  /** The turns of thread `t` between two states of a run. */
  function TurnsOf(events: seq<Event>, t: nat, i: nat, j: nat): nat
    requires i <= j <= |events|
    decreases j - i
  {
    if i == j then 0
    else TurnsOf(events, t, i, j - 1) + (if events[j - 1].Turn? && events[j - 1].t == t then 1 else 0)
  }

  /** Event `m` of the run is a turn of thread `t` that sends a renewal of context `c`. */
  predicate RenewsAt(states: seq<System>, events: seq<Event>, m: nat, t: nat, c: nat)
    requires |states| == |events| + 1 && m < |events|
  {
    events[m].Turn? && events[m].t == t && SendsRenewal(states[m], states[m + 1], t, c)
  }

  lemma EventBringsNearer(s: System, e: Event, t: nat, c: nat, turns: nat)
    requires Inv(s) && Possible(s, e) && RenewsWithin(s, t, c, turns)
    requires e.Turn? && e.t == t ==> !SendsRenewal(s, Happen(s, e), t, c)
    ensures e.Turn? && e.t == t ==> turns > 0
    ensures Happen(s, e).sh.worker == Some(c) ==>
              RenewsWithin(Happen(s, e), t, c, if e.Turn? && e.t == t then turns - 1 else turns)
  {
    hide Inv, WellFormed, Enabled, Next, SendsRenewal;
    if e.Turn? {
      hide RenewsWithin;
      if e.t == t { OwnTurnSends(s, t, c, turns, e.choice); } else { OthersTurn(s, e.t, t, c, turns, e.choice); }
    }
  }

  lemma {:induction false} NoRenewalYet(states: seq<System>, events: seq<Event>, i: nat, j: nat, t: nat, c: nat)
    requires IsRun(states, events) && |states| == |events| + 1 && i <= j < |states|
    requires RenewsWithin(states[i], t, c, 7)
    requires forall m :: i <= m < j ==> states[m].sh.worker == Some(c) && !RenewsAt(states, events, m, t, c)
    ensures TurnsOf(events, t, i, j) <= 7
    ensures states[j].sh.worker == Some(c) ==> RenewsWithin(states[j], t, c, 7 - TurnsOf(events, t, i, j))
    decreases j - i
  {
    hide IsRun, Inv, Possible, Happen, RenewsWithin, SendsRenewal;
    if i < j {
      NoRenewalYet(states, events, i, j - 1, t, c);
      RunHolds(states, events, j - 1);
      StepAt(states, events, j - 1);
      assert !RenewsAt(states, events, j - 1, t, c);
      EventBringsNearer(states[j - 1], events[j - 1], t, c, 7 - TurnsOf(events, t, i, j - 1));
    }
  }

  /** A current Worker renews: of any eight turns that its thread makes in a run while it is the current
      Worker, whatever the others do in between, one sends a renewal in the current generation. */
  lemma WorkerRenews(states: seq<System>, events: seq<Event>, i: nat, j: nat, t: nat, c: nat)
    requires IsRun(states, events) && |states| == |events| + 1 && i <= j < |states|
    requires c < |states[i].sh.contexts| && t == states[i].sh.contexts[c].thread
    requires forall m :: i <= m < j ==> states[m].sh.worker == Some(c)
    requires TurnsOf(events, t, i, j) >= 8
    ensures exists m :: i <= m < j && RenewsAt(states, events, m, t, c)
  {
    hide IsRun, Inv, RenewsWithin, SendsRenewal, LastIsOver;
    RunHolds(states, events, i);
    RunIsOver(states, events, i);
    WorkerIsWorking(states[i], t, c);
    if forall m :: i <= m < j ==> !RenewsAt(states, events, m, t, c) {
      NoRenewalYet(states, events, i, j, t, c);
    }
  }

  lemma WorkerIsWorking(s: System, t: nat, c: nat)
    requires Inv(s) && LastIsOver(s) && s.sh.worker == Some(c) && c < |s.sh.contexts| && s.sh.contexts[c].thread == t
    ensures RenewsWithin(s, t, c, 7)
  {
    hide ThreadsInv, LogInv, OriginInv, SnapshotInv, CountInv, Carried, HistoryBounded, Slots;
    ContextAt(s, c);
  }

  // ---------------------------------------------------------------- pauses follow renewals

  /** The thread applies the answer of a renewal of its own, which is accepted exactly if it is newer than
      any completion applied before, and then decides the snapshot. */
  predicate AppliesRenewal(s: System, s': System, t: nat, c: nat, n: nat, ok: bool) {
    && 0 < n <= |s.log|
    && s.log[n - 1] == Entry(Renew(c, s.sh.generation), t, Returned(ok))
    && s'.log == s.log[n - 1 := Entry(Renew(c, s.sh.generation), t, Applied(ok, n > s.sh.lastApplied, false))]
    && (n > s.sh.lastApplied ==> s'.sh.registered == ok && s'.sh.lastApplied == n)
  }

  lemma PauseApplies(s: System, t: nat, c: nat, p: Phase, ok: bool)
    requires WellFormed(s) && t < |s.threads| && s.threads[t] == Thread([], Renewing(c, p)) && !p.Interval?
    requires ActionBounded(s.sh, s.log, Renewing(c, p))
    requires PerformRenewing(s, t, c, p, ok).threads[t].act == Renewing(c, Interval)
    ensures p.Calling? && p.rpc.Answered? && Current(s.sh, c)
  {
    assert Bounded(s.sh);
    hide WellFormed, CommitRenewal, Finish, Bounded;
    if p.Calling? && p.rpc.Answered? {
      NotCurrentStops(s.sh, c, p.rpc.n, p.rpc.ok);
    }
    hide Current;
  }

  lemma NotCurrentStops(sh: Shared, c: nat, n: nat, ok: bool)
    requires Bounded(sh) && c < |sh.contexts|
    ensures CommitRenewal(sh, c, n, ok).1.current ==> Current(sh, c)
  {
  }

  /** The thread reaches its pause by applying such an answer, as the thread of the current Worker. */
  ghost predicate PausesRenewed(s: System, s': System, t: nat, c: nat) {
    s.sh.worker == Some(c) && exists n, ok :: AppliesRenewal(s, s', t, c, n, ok)
  }

  /** A renewal thread pauses for its interval only after it has applied the answer of a renewal of its
      own: as an entry is applied once, every pause has an entry of its own. */
  lemma PauseFollowsRenewal(s: System, s': System, t: nat, ch: Choice, c: nat)
    requires Reachable(s) && WellFormed(s) && Enabled(s, t) && s' == Next(s, t, ch) && t < |s'.threads|
    requires s'.threads[t].act == Renewing(c, Interval) && s.threads[t].act != Renewing(c, Interval)
    ensures PausesRenewed(s, s', t, c)
  {
    hide Reachable, WellFormed, Enabled, Next, Inv, PausesRenewed;
    ReachableHolds(s);
    PauseOf(s, t, ch, c);
  }

  lemma PauseOf(s: System, t: nat, ch: Choice, c: nat)
    requires Inv(s) && WellFormed(s) && Enabled(s, t) && s.threads[t].act != Renewing(c, Interval)
    requires t < |Next(s, t, ch).threads| && Next(s, t, ch).threads[t].act == Renewing(c, Interval)
    ensures PausesRenewed(s, Next(s, t, ch), t, c)
  {
    PausesInLoop(s, t, ch, c);
    var p := s.threads[t].act.phase;
    hide Inv, WellFormed, Leads, AnswerOf, PerformRenewing;
    ThreadAt(s, t);
    PauseApplies(s, t, c, p, ch.ok);
    RenewalApplies(s, t, c, p.rpc.n, p.rpc.ok);
    AppliedNoted(s, StepRenewApply(s, t, c, p.rpc.n, p.rpc.ok), t, c, p.rpc.n, p.rpc.ok,
                 AnswerOf(s, s.threads[t].act, ch));
  }

  lemma AppliedNoted(s: System, s1: System, t: nat, c: nat, n: nat, ok: bool, answer: Option<Answer>)
    requires AppliesRenewal(s, s1, t, c, n, ok)
    ensures AppliesRenewal(s, WithAnswer(s1, t, answer), t, c, n, ok)
  {
  }

  /** Only a renewal thread of the context reaches its pause, by a step of the loop. */
  lemma PausesInLoop(s: System, t: nat, ch: Choice, c: nat)
    requires Inv(s) && WellFormed(s) && Enabled(s, t) && s.threads[t].act != Renewing(c, Interval)
    requires t < |Next(s, t, ch).threads| && Next(s, t, ch).threads[t].act == Renewing(c, Interval)
    ensures s.threads[t].act.Renewing? && s.threads[t] == Thread([], Renewing(c, s.threads[t].act.phase))
    ensures PerformRenewing(s, t, c, s.threads[t].act.phase, ch.ok).threads[t].act == Renewing(c, Interval)
  {
    hide Inv, WellFormed, TurnAnswer, AnswerOf, PerformRenewing;
    TurnGoes(s, t, ch);
    ThreadAt(s, t);
  }

  lemma RenewalApplies(s: System, t: nat, c: nat, n: nat, ok: bool)
    requires WellFormed(s) && t < |s.threads| && c < |s.sh.contexts| && 0 < n <= |s.log| && Current(s.sh, c)
    requires s.log[n - 1] == Entry(Renew(c, s.sh.contexts[c].generation), t, Returned(ok))
    ensures AppliesRenewal(s, StepRenewApply(s, t, c, n, ok), t, c, n, ok)
  {
    assert Bounded(s.sh);
    hide WellFormed, Bounded;
    CurrentGoesOn(s.sh, c, n, ok);
  }

  // ---------------------------------------------------------------- a run that registers

  /** A Worker that was started registers the executor: its first renewal is answered and applied. */
  lemma WorkerRegisters()
    ensures exists s :: Reachable(s) && s.sh.registered && s.sh.worker == Some(0)
              && s.log == [Entry(Renew(0, 1), 1, Applied(true, true, false))]
  {
    hide Reachable, WellFormed;
    var s := SceneSending();
    s := Takes(s, 1);
    assert s.threads[1] == Thread([], Renewing(0, Calling(Sent(1))));
    s := Takes(s, 1);
    assert s.threads[1] == Thread([], Renewing(0, Calling(Answered(1, true))));
    s := Takes(s, 1);
  }

  lemma SceneSending() returns (s: System)
    ensures Reachable(s) && s.network == Some(1) && s.log == []
    ensures s.threads == [Thread([], AfterActivation(0)), Thread([], Renewing(0, Calling(ToSend)))]
    ensures s.sh == INITIAL.(generation := 1, worker := Some(0), contexts := [Context(1, false, true, None, true, 1)])
  {
    hide Reachable, WellFormed;
    s := SceneStarted();
    s := Takes(s, 1);
    assert s.threads[1] == Thread([], Renewing(0, EntryCheck));
    s := Takes(s, 1);
    assert s.threads[1] == Thread([], Renewing(0, FirstCheck));
    s := Takes(s, 1);
    assert s.threads[1] == Thread([], Renewing(0, Loop));
    s := Takes(s, 1);
    assert s.threads[1] == Thread([], Renewing(0, Acquire));
    s := Takes(s, 1);
    assert s.threads[1] == Thread([], Renewing(0, Check));
    s := Takes(s, 1);
  }
}
