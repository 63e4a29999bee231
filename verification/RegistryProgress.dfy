/**
 * The protocol does not livelock.  Every turn of a thread other than the renewal thread of the current
 * Worker lowers a rank, and a turn of that one leaves it: without new callers, all calls, actors and
 * stopped Workers together make a bounded number of steps, whatever the schedule.
 */
module RegistryProgress {
  import opened RegistryState
  import opened RegistrySystem
  import opened RegistryInvariant
  import opened RegistryRuns
  import opened RegistryTheorems
  import opened RegistryOverTime
  import opened RegistryRank
  import opened RegistryAdvances

  // ---------------------------------------------------------------- the rank

  /** What all threads and the Pending Remove have left to spend. */
  function Budget(s: System): nat
    requires Bounded(s.sh)
  {
    TotalCharge(s.threads) + PendingCharge(s.sh)
  }

  /** The threads there are and those that the budget can start. */
  function Size(s: System): nat
    requires Bounded(s.sh)
  {
    |s.threads| + Budget(s)
  }

  /** One unit of budget outweighs all local counters together. */
  predicate Outweighs(unit: nat, s: System)
    requires Bounded(s.sh)
  {
    unit > MOST_STEPS * Size(s)
  }

  function Rank(s: System, unit: nat): nat
    requires Bounded(s.sh)
  {
    Budget(s) * unit + TotalSteps(s.sh, s.threads)
  }

  lemma SpendingLowers(budget: nat, budget': nat, unit: nat, steps: nat, steps': nat)
    requires budget' < budget && steps' < unit
    ensures budget' * unit + steps' < budget * unit + steps
  {
    assert (budget' + 1) * unit <= budget * unit;
  }

  /** The threads after a step: the stepping one, and perhaps a new one. */
  lemma ReplacedThreads(s: System, s': System, t: nat)
    requires Replaces(s, s', t)
    ensures |s'.threads| == |s.threads| ==> s'.threads == s.threads[t := s'.threads[t]]
    ensures TotalCharge(s'.threads) + ThreadCharge(s.threads[t])
            == TotalCharge(s.threads) + ThreadCharge(s'.threads[t]) + StartCharge(s, s')
  {
    ChargeAfter(s.threads, t, s'.threads[t]);
    if |s'.threads| > |s.threads| {
      ChargeOfMore(s.threads[t := s'.threads[t]], s'.threads[|s.threads|]);
      assert s'.threads == s.threads[t := s'.threads[t]] + [s'.threads[|s.threads|]];
    } else {
      assert s'.threads == s.threads[t := s'.threads[t]];
    }
  }

  lemma PaysLowers(s: System, s': System, t: nat, unit: nat)
    requires Pays(s, s', t) && Outweighs(unit, s)
    ensures Rank(s', unit) < Rank(s, unit) && Size(s') <= Size(s)
  {
    ReplacedThreads(s, s', t);
    StepsAreFew(s'.sh, s'.threads);
    hide TotalCharge, TotalSteps, ThreadCharge, PendingCharge, Bounded;
    SpendingLowers(Budget(s), Budget(s'), unit, TotalSteps(s.sh, s.threads), TotalSteps(s'.sh, s'.threads));
  }

  lemma WalksLowers(s: System, s': System, t: nat, unit: nat)
    requires Walks(s, s', t) && Bounded(s.sh)
    ensures Rank(s', unit) < Rank(s, unit) && Size(s') == Size(s)
  {
    ReplacedThreads(s, s', t);
    StepsAfter(s.sh, s.threads, t, s'.threads[t]);
    hide TotalCharge, TotalSteps, ThreadCharge, PendingCharge, LocalSteps, Bounded;
    assert Budget(s') == Budget(s);
  }

  lemma RenewedKeeps(s: System, s': System, t: nat, unit: nat)
    requires Renewed(s, s', t) && Bounded(s.sh) && Bounded(s'.sh)
    ensures Rank(s', unit) == Rank(s, unit) && Size(s') == Size(s)
  {
    ReplacedThreads(s, s', t);
    StepsAfter(s.sh, s.threads, t, s'.threads[t]);
    StepsDependOn(s.sh, s'.sh, s'.threads);
    assert ThreadCharge(s'.threads[t]) == ThreadCharge(s.threads[t]);
    assert PendingCharge(s'.sh) == PendingCharge(s.sh);
    assert LocalSteps(s.sh, s'.threads[t].act) == LocalSteps(s.sh, s.threads[t].act) == 0;
    hide TotalCharge, TotalSteps, ThreadCharge, PendingCharge, LocalSteps, Bounded;
    assert Budget(s') == Budget(s);
  }

  /** A turn lowers the rank, unless it is a renewal of the current Worker, which leaves it. */
  lemma TurnLowersRank(s: System, t: nat, ch: Choice, unit: nat)
    requires Reachable(s) && Bounded(s.sh) && WellFormed(s) && Enabled(s, t) && Outweighs(unit, s)
    ensures Bounded(Next(s, t, ch).sh) && Size(Next(s, t, ch)) <= Size(s)
    ensures if RenewsWorker(s, t) then Rank(Next(s, t, ch), unit) == Rank(s, unit)
            else Rank(Next(s, t, ch), unit) < Rank(s, unit)
  {
    ReachableHolds(s);
    ReachableSteady(s);
    TurnAdvances(s, t, ch);
    StepKeeps(s, Turn(t, ch));
    var s' := Next(s, t, ch);
    assert Bounded(s'.sh);
    hide Reachable, Inv, Steady, Next, Enabled, WellFormed, Renewed, Pays, Walks, Rank, Size, Bounded, Outweighs;
    if RenewsWorker(s, t) {
      RenewedKeeps(s, s', t, unit);
    } else if Pays(s, s', t) {
      PaysLowers(s, s', t, unit);
    } else {
      WalksLowers(s, s', t, unit);
    }
  }

  // ---------------------------------------------------------------- whole runs

  /** The most a call is charged when it arrives. */
  const CALL: nat := 17

  /** An arriving call is charged once and counts no local steps. */
  lemma ArrivalRaisesRank(s: System, call: Call, unit: nat)
    requires Bounded(s.sh)
    ensures Rank(Arrive(s, call), unit) <= Rank(s, unit) + CALL * unit
    ensures Size(Arrive(s, call)) <= Size(s) + CALL + 1
  {
    var th := Thread([], Entrance(call));
    ChargeOfMore(s.threads, th);
    assert (s.threads + [th])[..|s.threads|] == s.threads;
    assert ThreadCharge(th) <= CALL && LocalSteps(s.sh, th.act) == 0;
    hide TotalCharge, ThreadCharge, PendingCharge, LocalSteps, Entrance, Bounded;
    MoreUnits(Budget(Arrive(s, call)), Budget(s), CALL, unit);
  }

  lemma MoreUnits(after: nat, before: nat, more: nat, unit: nat)
    requires after <= before + more
    ensures after * unit <= before * unit + more * unit
  {
    assert after * unit <= (before + more) * unit;
  }

  /** The turns between two states of a run that are not renewals of the current Worker. */
  ghost function Effort(states: seq<System>, events: seq<Event>, i: nat, j: nat): nat
    requires |states| == |events| + 1 && i <= j < |states|
    decreases j - i
  {
    if i == j then 0
    else Effort(states, events, i, j - 1)
         + (if events[j - 1].Turn? && !RenewsWorker(states[j - 1], events[j - 1].t) then 1 else 0)
  }

  /** The calls that arrive between two states. */
  function Arrivals(events: seq<Event>, i: nat, j: nat): nat
    requires i <= j <= |events|
    decreases j - i
  {
    if i == j then 0 else Arrivals(events, i, j - 1) + (if events[j - 1].Arrival? then 1 else 0)
  }

  /** The turns between the two states are paid for by the rank of the first and the calls since. */
  ghost predicate Spends(states: seq<System>, events: seq<Event>, i: nat, j: nat, unit: nat)
    requires |states| == |events| + 1 && i <= j < |states|
  {
    && Bounded(states[i].sh) && Bounded(states[j].sh)
    && Size(states[j]) <= Size(states[i]) + Arrivals(events, i, j) * (CALL + 1)
    && Effort(states, events, i, j) + Rank(states[j], unit)
       <= Rank(states[i], unit) + Arrivals(events, i, j) * CALL * unit
  }

  lemma RunLength(states: seq<System>, events: seq<Event>)
    requires IsRun(states, events)
    ensures |states| == |events| + 1
  {
  }

  lemma RunBounded(states: seq<System>, events: seq<Event>, i: nat)
    requires IsRun(states, events) && i < |states|
    ensures Bounded(states[i].sh)
  {
    hide IsRun;
    RunHolds(states, events, i);
  }

  /** What one event does to the rank. */
  ghost predicate Costs(s: System, e: Event, s': System, unit: nat)
    requires Bounded(s.sh)
  {
    && Bounded(s'.sh)
    && Size(s') <= Size(s) + (if e.Arrival? then CALL + 1 else 0)
    && Rank(s', unit) + (if e.Turn? && !RenewsWorker(s, e.t) then 1 else 0)
       <= Rank(s, unit) + (if e.Arrival? then CALL * unit else 0)
  }

  lemma EventCosts(s: System, e: Event, unit: nat)
    requires Reachable(s) && Possible(s, e) && Bounded(s.sh) && Outweighs(unit, s)
    ensures Costs(s, e, Happen(s, e), unit)
  {
    hide Reachable, Rank, Size, Bounded, Next, Enabled, RenewsWorker, WellFormed, Outweighs;
    match e
    case Turn(t, ch) => TurnLowersRank(s, t, ch, unit);
    case Arrival(call) =>
      assert Happen(s, e).sh == s.sh;
      hide Arrive;
      ArrivalRaisesRank(s, call, unit);
  }

  lemma StepCosts(states: seq<System>, events: seq<Event>, m: nat, unit: nat)
    requires IsRun(states, events) && m < |events| && m < |states| && Bounded(states[m].sh)
    requires Outweighs(unit, states[m])
    ensures m + 1 < |states| && Costs(states[m], events[m], states[m + 1], unit)
  {
    RunLength(states, events);
    hide IsRun, Reachable, Costs, Outweighs, Bounded, Happen, Possible;
    IsReachable(states, events, m);
    StepAt(states, events, m);
    EventCosts(states[m], events[m], unit);
  }

  lemma SpendsMore(states: seq<System>, events: seq<Event>, i: nat, j: nat, unit: nat)
    requires |states| == |events| + 1 && i < j < |states| && Spends(states, events, i, j - 1, unit)
    requires Costs(states[j - 1], events[j - 1], states[j], unit)
    ensures Spends(states, events, i, j, unit)
  {
    hide Rank, Size, Bounded, RenewsWorker;
    var before, more := Arrivals(events, i, j - 1), if events[j - 1].Arrival? then 1 else 0;
    assert Arrivals(events, i, j) == before + more;
    assert (before + more) * CALL * unit == before * CALL * unit + (if events[j - 1].Arrival? then CALL * unit else 0);
  }

  lemma {:induction false} RunSpends(states: seq<System>, events: seq<Event>, i: nat, j: nat, unit: nat)
    requires IsRun(states, events) && |states| == |events| + 1 && i <= j < |states| && Bounded(states[i].sh)
    requires unit > MOST_STEPS * (Size(states[i]) + Arrivals(events, i, j) * (CALL + 1))
    ensures Spends(states, events, i, j, unit)
    decreases j - i
  {
    hide IsRun, Rank, Size, Bounded, Costs;
    if i < j {
      RunSpends(states, events, i, j - 1, unit);
      StepCosts(states, events, j - 1, unit);
      SpendsMore(states, events, i, j, unit);
    }
  }

  /** No livelock: between any two states of a run, the turns that are not renewals of the current Worker
      are bounded by what the first state has left to do and by the number of calls that arrive, whatever
      the schedule, the Admin and the thread starts. */
  lemma BoundedEffort(states: seq<System>, events: seq<Event>, i: nat, j: nat)
    requires IsRun(states, events) && |states| == |events| + 1 && i <= j < |states|
    ensures
      Bounded(states[i].sh) &&
      var calls := Arrivals(events, i, j);
      var unit := MOST_STEPS * (Size(states[i]) + calls * (CALL + 1)) + 1;
      Effort(states, events, i, j) <= Rank(states[i], unit) + calls * CALL * unit
  {
    hide IsRun, Rank, Size, Bounded;
    RunBounded(states, events, i);
    RunSpends(states, events, i, j, MOST_STEPS * (Size(states[i]) + Arrivals(events, i, j) * (CALL + 1)) + 1);
  }

  /** Over a whole run with `n` calls, the turns that are not renewals of the current Worker number at most
      `17 n (216 n + 1)`. */
  lemma EffortOfCalls(states: seq<System>, events: seq<Event>)
    requires IsRun(states, events) && |states| == |events| + 1
    ensures
      var calls := Arrivals(events, 0, |events|);
      Effort(states, events, 0, |events|) <= calls * CALL * (MOST_STEPS * (calls * (CALL + 1)) + 1)
  {
    RunStarts(states, events);
    hide IsRun, Rank, Size, Effort, Arrivals, START, Bounded;
    BoundedEffort(states, events, 0, |events|);
    NothingToDo(MOST_STEPS * (Size(START) + Arrivals(events, 0, |events|) * (CALL + 1)) + 1);
  }

  lemma RunStarts(states: seq<System>, events: seq<Event>)
    requires IsRun(states, events)
    ensures states != [] && states[0] == START
  {
  }

  lemma NothingToDo(unit: nat)
    ensures Bounded(START.sh) && Size(START) == 0 && Rank(START, unit) == 0
  {
  }

  /** Once no caller arrives and no Worker is current, the run ends, and it ends with every thread done. */
  lemma CallsEnd(states: seq<System>, events: seq<Event>, i: nat)
    requires IsRun(states, events) && i < |states| == |events| + 1
    requires forall m :: i <= m < |events| ==> events[m].Turn? && states[m].sh.worker.None?
    ensures Bounded(states[i].sh) && |events| - i <= Rank(states[i], MOST_STEPS * Size(states[i]) + 1)
    ensures WellFormed(states[|events|])
    ensures (forall t: nat :: !Enabled(states[|events|], t)) ==>
              forall u :: 0 <= u < |states[|events|].threads| ==> Finished(states[|events|].threads[u])
  {
    hide IsRun, Reachable, Rank, Size, Enabled, WellFormed, Bounded;
    BoundedEffort(states, events, i, |events|);
    EffortCounts(states, events, i, |events|);
    IsReachable(states, events, |events|);
    StuckIsDone(states[|events|]);
  }

  lemma StuckIsDone(s: System)
    requires Reachable(s)
    ensures WellFormed(s)
    ensures (forall t: nat :: !Enabled(s, t)) ==> forall u :: 0 <= u < |s.threads| ==> Finished(s.threads[u])
  {
    ReachableHolds(s);
    assert WellFormed(s);
    hide Inv, Reachable, Enabled, WellFormed;
    forall u | 0 <= u < |s.threads| && forall t: nat :: !Enabled(s, t) ensures Finished(s.threads[u]) {
      if !Finished(s.threads[u]) { NoDeadlock(s); }
    }
  }

  lemma {:induction false} EffortCounts(states: seq<System>, events: seq<Event>, i: nat, j: nat)
    requires |states| == |events| + 1 && i <= j < |states|
    requires forall m :: i <= m < j ==> events[m].Turn? && states[m].sh.worker.None?
    ensures Effort(states, events, i, j) == j - i && Arrivals(events, i, j) == 0
    decreases j - i
  {
    if i < j { EffortCounts(states, events, i, j - 1); }
  }

  /** A turn of the terminal path that has to wait is blocked at once: it never finds the event of what it
      waits for already set, and so never spins. */
  lemma WaitsBlock(s: System, t: nat, g: nat, ch: Choice)
    requires Reachable(s) && WellFormed(s) && t < |s.threads| && s.threads[t] == Thread([], TerminalTurn(g))
    requires var a := Next(s, t, ch).threads[t].act; a.AwaitRegisters? || a.AwaitOperation?
    ensures WellFormed(Next(s, t, ch)) && !Enabled(Next(s, t, ch), t)
  {
    assert Next(s, t, ch) == StepTerminal(s, t, g) && Enabled(s, t);
    hide Reachable, Next, Slots, EventUnset, WellFormed, StepTerminal, Enabled;
    WindowsWait(s);
    TurnIsWellFormed(s, t, ch);
    WaitIsUnset(s, t, g);
  }

  lemma WindowsWait(s: System)
    requires Reachable(s)
    ensures Slots(s.sh) && EventUnset(s)
  {
    hide Reachable, WellFormed, HistoryBounded, ThreadsInv, TablesInv, LogInv, OriginInv, SnapshotInv, CountInv;
    hide Carried;
    ReachableHolds(s);
    ReachableSteady(s);
  }

  lemma TurnIsWellFormed(s: System, t: nat, ch: Choice)
    requires Reachable(s) && WellFormed(s) && Enabled(s, t)
    ensures WellFormed(Next(s, t, ch))
  {
    hide Reachable, Next, Enabled, Slots, HistoryBounded, ThreadsInv, TablesInv, LogInv, OriginInv, SnapshotInv;
    hide CountInv, Carried, WellFormed;
    ReachableHolds(s);
    StepKeeps(s, Turn(t, ch));
  }

  lemma WaitIsUnset(s: System, t: nat, g: nat)
    requires Slots(s.sh) && EventUnset(s) && t < |s.threads| && s.threads[t] == Thread([], TerminalTurn(g))
    requires var a := StepTerminal(s, t, g).threads[t].act; a.AwaitRegisters? || a.AwaitOperation?
    requires WellFormed(StepTerminal(s, t, g))
    ensures !Enabled(StepTerminal(s, t, g), t)
  {
    hide WellFormed;
  }

  /** The actor bound to a Pending Remove is alive, so that the scheduler never replaces it, and its claim
      succeeds. */
  lemma BoundActorClaims(s: System)
    requires Reachable(s) && Bounded(s.sh) && s.sh.pending.Some?
    requires s.sh.operations[s.sh.pending.value].thread.Some?
    ensures ActorAlive(s) && ActorClaim(s.sh, s.sh.pending.value).1
    ensures s.threads[s.sh.operations[s.sh.pending.value].thread.value].act == ClaimPending(s.sh.pending.value)
  {
    ReachableSteady(s);
    hide Reachable;
  }
}
