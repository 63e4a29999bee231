/** What the Registry protocol guarantees between the states of one run. */
module RegistryOverTime {
  import opened Options
  import opened RegistryState
  import opened RegistrySystem
  import opened RegistryInvariant
  import opened RegistryRuns
  import opened RegistryTransitions
  import opened RegistryTheorems

  // ---------------------------------------------------------------- one step

  /** An arriving caller changes nothing but the threads. */
  ghost predicate OnlyArrives(s: System, s': System) {
    s'.sh == s.sh && s'.log == s.log && s'.history == s.history
  }

  lemma StepEvolves(s: System, e: Event)
    requires Inv(s) && Possible(s, e)
    ensures e.Arrival? ==> OnlyArrives(s, Happen(s, e))
    ensures e.Turn? ==> Evolves(s, Happen(s, e), e.t)
  {
    hide Inv, Next, Evolves;
    if e.Turn? { TurnEvolves(s, e.t, e.choice); }
  }

  /** A Remove leaves the Pending slot only into the Active slot or with its signal owed by the thread
      that took it out, and leaves the Active slot only when the thread that sent its RPC has stored
      the result; neither slot ever goes from one operation to another. */
  lemma SlotsAreNotOverwritten(s: System, e: Event)
    requires Reachable(s) && Possible(s, e)
    ensures
      var s' := Happen(s, e);
      && (s.sh.pending.Some? && s'.sh.pending != s.sh.pending ==>
            && s'.sh.pending.None? && e.Turn? && e.t < |s'.threads|
            && (s'.sh.active == s.sh.pending || SignalOperation(s.sh.pending.value) in s'.threads[e.t].owed))
      && (s.sh.active.Some? && s'.sh.active != s.sh.active ==>
            && s'.sh.active.None? && e.Turn? && CompletesActive(s, s', e.t, s.sh.active.value))
  {
    hide Reachable, Inv, Happen, Possible, CompletesActive;
    ReachableHolds(s);
    StepEvolves(s, e);
  }

  /** No Remove is created while the window in the slot has registers in flight: the step that creates
      one leaves none of them behind. */
  lemma NoRemoveWhileInflight(s: System, e: Event)
    requires Reachable(s) && Possible(s, e)
    requires |Happen(s, e).sh.operations| > |s.sh.operations|
    ensures
      var s' := Happen(s, e);
      s.sh.coordination.Some? ==>
        && s.sh.coordination.value < |s'.sh.coordinations|
        && s'.sh.coordinations[s.sh.coordination.value].inflight == 0
  {
    hide Reachable, Inv, Happen, Possible;
    ReachableHolds(s);
    StepEvolves(s, e);
  }

  /** A completion changes the snapshot only if its sequence is newer than any applied before, and the
      change is the one that its source and its success stand for. */
  lemma OnlyNewerCompletions(s: System, e: Event)
    requires Reachable(s) && Possible(s, e)
    ensures
      var s' := Happen(s, e);
      || (s'.sh.registered == s.sh.registered && s'.sh.lastApplied == s.sh.lastApplied)
      || exists a :: s'.history.accepted == s.history.accepted + [a]
           && a.n > s.sh.lastApplied && s'.sh.lastApplied == a.n
           && s'.sh.registered == Record(s.sh.registered, a.source, a.ok)
  {
    hide Reachable, Inv, Happen, Possible, Record;
    ReachableHolds(s);
    StepEvolves(s, e);
  }

  /** A Worker appears only when the owner of the token in the slot activates it. */
  lemma OnlyOwnersCommit(s: System, e: Event)
    requires Reachable(s) && Possible(s, e)
    ensures
      var s' := Happen(s, e);
      s'.sh.worker.Some? && s'.sh.worker != s.sh.worker ==>
        && s.sh.worker.None? && s'.sh.worker == s.sh.prepared && s'.sh.prepared.None?
        && e.Turn? && e.t < |s.threads| && s.threads[e.t].act == OwnStart(s'.sh.worker.value)
  {
    hide Reachable, Inv, Happen, Possible;
    ReachableHolds(s);
    StepEvolves(s, e);
  }

  /** An entry of the stopping map is never overwritten: only the Worker's own thread takes it out, in
      `_finish_worker`. */
  lemma StoppingIsNotOverwritten(s: System, e: Event, g: nat)
    requires Reachable(s) && Possible(s, e) && g in s.sh.stopping
    ensures
      var s' := Happen(s, e);
      || (g in s'.sh.stopping && s'.sh.stopping[g] == s.sh.stopping[g])
      || (g !in s'.sh.stopping && e.Turn? && e.t < |s.threads|
          && s.threads[e.t].act == Renewing(s.sh.stopping[g], Last))
  {
    hide Reachable, Inv, Happen, Possible;
    ReachableHolds(s);
    StepEvolves(s, e);
  }

  // ---------------------------------------------------------------- any number of steps

  /** What stays so for ever. */
  ghost predicate Later(s: System, s': System) {
    var h, h' := s.history, s'.history;
    && s.sh.generation <= s'.sh.generation && s.sh.lastApplied <= s'.sh.lastApplied
    && |s.log| <= |s'.log|
    && (forall i :: 0 <= i < |s.log| ==>
          s'.log[i].kind == s.log[i].kind && (s.log[i].status.Applied? ==> s'.log[i] == s.log[i]))
    && |s.sh.coordinations| <= |s'.sh.coordinations|
    && (forall k :: 0 <= k < |s.sh.coordinations| ==>
          var row, row' := s.sh.coordinations[k], s'.sh.coordinations[k];
          && row'.generation == row.generation
          && (row.inflight == 0 ==> row'.inflight == 0)
          && (row.cleanupRequested ==> row'.cleanupRequested && row'.inflight <= row.inflight))
    && |s.sh.contexts| <= |s'.sh.contexts|
    && (forall c :: 0 <= c < |s.sh.contexts| && s.sh.prepared != Some(c) ==>
          s'.sh.prepared != Some(c) && (c !in h.committed ==> c !in h'.committed))
    && h.committed <= h'.committed && h.finished <= h'.finished && h.claimed <= h'.claimed
    && |s.sh.operations| <= |s'.sh.operations|
    && (forall o :: 0 <= o < |s.sh.operations| ==>
          && s'.sh.operations[o].generation == s.sh.operations[o].generation
          && (s.sh.operations[o].done ==> s'.sh.operations[o].done)
          && (s.sh.operations[o].result.Some? ==> s'.sh.operations[o].result == s.sh.operations[o].result)
          && (s.sh.pending != Some(o) ==> s'.sh.pending != Some(o))
          && (o in h.claimed && s.sh.active != Some(o) ==> s'.sh.active != Some(o)))
    && h.accepted <= h'.accepted
    && (forall o :: o in h.origin && o < |s.sh.operations| ==> o in h'.origin && h'.origin[o] == h.origin[o])
  }

  lemma EvolvesIsLater(s: System, s': System, t: nat)
    requires Evolves(s, s', t)
    ensures Later(s, s')
  {
  }

  lemma LaterIsReflexive(s: System)
    ensures Later(s, s)
  {
  }

  lemma LaterIsTransitive(a: System, b: System, c: System)
    requires Later(a, b) && Later(b, c)
    ensures Later(a, c)
  {
  }

  lemma {:induction false} RunLater(states: seq<System>, events: seq<Event>, i: nat, j: nat)
    requires IsRun(states, events) && i <= j < |states|
    ensures Later(states[i], states[j])
    decreases j - i
  {
    hide Later, Inv, Evolves, Happen, Possible;
    if i == j {
      LaterIsReflexive(states[i]);
    } else {
      RunLater(states, events, i, j - 1);
      RunHolds(states, events, j - 1);
      StepAt(states, events, j - 1);
      StepEvolves(states[j - 1], events[j - 1]);
      StepIsLater(states[j - 1], events[j - 1]);
      LaterIsTransitive(states[i], states[j - 1], states[j]);
    }
  }

  lemma StepAt(states: seq<System>, events: seq<Event>, i: nat)
    requires IsRun(states, events) && i < |events|
    ensures Possible(states[i], events[i]) && states[i + 1] == Happen(states[i], events[i])
  {
    hide Happen, Possible;
  }

  lemma StepIsLater(s: System, e: Event)
    requires Possible(s, e)
    requires e.Arrival? ==> OnlyArrives(s, Happen(s, e))
    requires e.Turn? ==> Evolves(s, Happen(s, e), e.t)
    ensures Later(s, Happen(s, e))
  {
    hide Evolves, Happen, Possible;
    if e.Turn? { EvolvesIsLater(s, Happen(s, e), e.t); }
  }

  // ---------------------------------------------------------------- what runs cannot do

  /** A window that has reached zero stays there: its registers never come back. */
  lemma ZeroOnce(states: seq<System>, events: seq<Event>, i: nat, j: nat, k: nat)
    requires IsRun(states, events) && i <= j < |states| && k < |states[i].sh.coordinations|
    requires states[i].sh.coordinations[k].inflight == 0
    ensures k < |states[j].sh.coordinations| && states[j].sh.coordinations[k].inflight == 0
  {
    hide IsRun;
    RunLater(states, events, i, j);
  }

  /** An operation becomes Active at most once. */
  lemma ClaimedOnce(states: seq<System>, events: seq<Event>, i: nat, j: nat, l: nat, o: nat)
    requires IsRun(states, events) && i <= j <= l < |states|
    requires states[i].sh.active == Some(o) && states[j].sh.active != Some(o)
    ensures states[l].sh.active != Some(o) && states[l].sh.pending != Some(o)
  {
    hide IsRun, ThreadsInv, LogInv, OriginInv, SnapshotInv, CountInv, Carried, TablesInv;
    RunLater(states, events, i, j);
    RunLater(states, events, j, l);
    RunHolds(states, events, i);
    OperationAt(states[i], o);
  }

  /** At most one of activate, cancel, settle, stop and shutdown takes a prepared token. */
  lemma TokenTakenOnce(states: seq<System>, events: seq<Event>, i: nat, j: nat, l: nat, c: nat)
    requires IsRun(states, events) && i <= j <= l < |states|
    requires states[i].sh.prepared == Some(c) && states[j].sh.prepared != Some(c)
    ensures states[l].sh.prepared != Some(c)
  {
    hide IsRun, ThreadsInv, LogInv, OriginInv, SnapshotInv, CountInv, Carried, TablesInv, HistoryBounded;
    RunLater(states, events, i, j);
    RunLater(states, events, j, l);
    RunHolds(states, events, i);
  }

  /** A prepared start that was withdrawn before activation never sends an RPC. */
  lemma WithdrawnIsSilent(states: seq<System>, events: seq<Event>, i: nat, j: nat, c: nat, n: nat)
    requires IsRun(states, events) && i <= j < |states| && c < |states[i].sh.contexts|
    requires states[i].sh.prepared != Some(c) && c !in states[i].history.committed
    requires n < |states[j].log| && states[j].log[n].kind.Renew?
    ensures states[j].log[n].kind.c != c
  {
    hide IsRun, ThreadsInv, OriginInv, SnapshotInv, CountInv, Carried, TablesInv, HistoryBounded, Slots;
    RunLater(states, events, i, j);
    RunHolds(states, events, j);
    assert EntryInv(states[j], n);
  }

  /** `_finish_worker` runs at most once for a Worker: no thread is about to run it again. */
  lemma FinishedOnce(states: seq<System>, events: seq<Event>, i: nat, j: nat, c: nat, u: nat)
    requires IsRun(states, events) && i <= j < |states| && c in states[i].history.finished
    requires u < |states[j].threads|
    ensures states[j].threads[u].act != Renewing(c, Last)
  {
    hide IsRun, ThreadsInv, LogInv, OriginInv, SnapshotInv, CountInv, Carried, TablesInv, HistoryBounded, Slots;
    RunLater(states, events, i, j);
    RunHolds(states, events, j);
    ThreadAt(states[j], u);
  }

  /** A run creates at most one lifecycle Remove while a given window is installed, however many
      registers the window has had. */
  lemma OneCreationPerWindow(states: seq<System>, events: seq<Event>, i: nat, j: nat, k: nat)
    requires IsRun(states, events) && i <= j < |events|
    requires states[i].sh.coordination == Some(k) && CreatesLifecycle(states[i], states[i + 1])
    requires states[j].sh.coordination == Some(k) && CreatesLifecycle(states[j], states[j + 1])
    ensures i == j
  {
    if i < j {
      CreationIsNoted(states, events, i, k);
      CreationIsNoted(states, events, j, k);
      RunLater(states, events, i + 1, j);
      RunLater(states, events, j, j + 1);
      IsReachable(states, events, j + 1);
      hide IsRun, Reachable, CreatesLifecycle;
      OneRemovePerWindow(states[j + 1], |states[i].sh.operations|, |states[j].sh.operations|);
    }
  }

  lemma CreationIsNoted(states: seq<System>, events: seq<Event>, i: nat, k: nat)
    requires IsRun(states, events) && i < |events|
    requires states[i].sh.coordination == Some(k) && CreatesLifecycle(states[i], states[i + 1])
    ensures |states[i].sh.operations| in states[i + 1].history.origin
    ensures states[i + 1].history.origin[|states[i].sh.operations|] == k
    ensures |states[i].sh.operations| < |states[i + 1].sh.operations|
  {
    RunHolds(states, events, i);
    StepAt(states, events, i);
    hide IsRun, Inv, Happen, Possible, LogGrows, SlotMoves, WindowMoves, TokenMoves, SnapshotMoves, Reopens;
    StepEvolves(states[i], events[i]);
  }

  // ---------------------------------------------------------------- late registers

  /** The register `n` of window `k`, successful and newer than any completion applied, is about to be
      applied while the window is installed and its cleanup has been requested. */
  ghost predicate AppliedLate(s: System, t: nat, k: nat, g: nat, n: nat) {
    && t < |s.threads| && s.threads[t] == Thread([], Registering(Some(k), g, Answered(n, true)))
    && n > s.sh.lastApplied
    && s.sh.generation == g && s.sh.coordination == Some(k)
    && k < |s.sh.coordinations| && s.sh.coordinations[k].cleanupRequested
  }

  lemma AppliedLateIsLogged(s: System, t: nat, k: nat, g: nat, n: nat, ch: Choice)
    requires Inv(s) && AppliedLate(s, t, k, g, n) && Enabled(s, t)
    ensures
      var s' := Next(s, t, ch);
      0 < n <= |s'.log| && s'.log[n - 1] == Entry(Register(Some(k), g), t, Applied(true, true, true))
  {
    hide ThreadsInv, LogInv, OriginInv, SnapshotInv, CountInv, Carried, TablesInv, HistoryBounded, Slots;
    ThreadAt(s, t);
    assert s.log[n - 1] == Entry(Register(Some(k), g), t, Returned(true));
    hide WellFormed, ThreadInv, Inv, Reconcile, Invalidate;
  }

  lemma LateInRun(states: seq<System>, events: seq<Event>, i: nat, j: nat, t: nat, k: nat, g: nat, n: nat)
    requires IsRun(states, events) && i < j < |states|
    requires events[i].Turn? && events[i].t == t && AppliedLate(states[i], t, k, g, n)
    ensures 0 < n <= |states[j].log|
    ensures states[j].log[n - 1] == Entry(Register(Some(k), g), t, Applied(true, true, true))
  {
    StepAt(states, events, i);
    hide IsRun, Inv, Later, Next, WellFormed, Enabled, AppliedLate;
    RunHolds(states, events, i);
    AppliedLateIsLogged(states[i], t, k, g, n, events[i].choice);
    RunLater(states, events, i + 1, j);
    LaterKeepsApplied(states[i + 1], states[j], n - 1);
  }

  /** A failed start recorded after completion `n` is a step of the run after state `i`. */
  lemma {:induction false} FailureHappened(states: seq<System>, events: seq<Event>, i: nat, j: nat, k: nat, n: nat)
    requires IsRun(states, events) && i <= j < |states|
    requires n > states[i].sh.lastApplied && FailedAfter(states[j], k, n)
    ensures exists m :: i <= m < j && FailsToStart(states[m], states[m + 1], k)
    decreases j - i
  {
    hide Inv, Evolves, Happen, Possible, FailsToStart;
    if i == j {
      hide IsRun;
      RunHolds(states, events, i);
      NoFailureYet(states[i], k);
    } else if FailedAfter(states[j - 1], k, n) {
      FailureHappened(states, events, i, j - 1, k, n);
    } else {
      RunHolds(states, events, j - 1);
      StepAt(states, events, j - 1);
      StepEvolves(states[j - 1], events[j - 1]);
      NewFailure(states[j - 1], states[j], events[j - 1], k);
    }
  }

  lemma NoFailureYet(s: System, k: nat)
    requires Inv(s) && k in s.history.startFailed
    ensures s.history.startFailed[k] <= s.sh.lastApplied
  {
    hide ThreadsInv, LogInv, OriginInv, SnapshotInv, CountInv, Carried, TablesInv, Slots;
    CoordinationAt(s, k);
  }

  lemma NewFailure(s: System, s': System, e: Event, k: nat)
    requires e.Arrival? ==> OnlyArrives(s, s')
    requires e.Turn? ==> Evolves(s, s', e.t)
    requires k in s'.history.startFailed
    requires k !in s.history.startFailed || s'.history.startFailed[k] != s.history.startFailed[k]
    ensures FailsToStart(s, s', k)
  {
    hide LogGrows, SlotMoves, CreatesIdle, WindowMoves, TokenMoves, SnapshotMoves, Reopens, FailsToStart;
  }

  /** Convergence: once such a register has been applied, its window is not cleared within its
      generation before a Remove with a greater sequence has been issued, or its cleanup thread has
      failed to start after that. */
  lemma Convergence(states: seq<System>, events: seq<Event>, i: nat, j: nat, t: nat, k: nat, g: nat, n: nat)
    requires IsRun(states, events) && i < j < |states|
    requires events[i].Turn? && events[i].t == t && AppliedLate(states[i], t, k, g, n)
    requires states[j].sh.generation == g && states[j].sh.coordination != Some(k)
    ensures RemovedAfter(states[j], g, n)
            || exists m :: i <= m < j && FailsToStart(states[m], states[m + 1], k)
  {
    hide IsRun, Reachable, Outstanding, RemovedAfter, WellFormed, FailedAfter, FailsToStart;
    LateInRun(states, events, i, j, t, k, g, n);
    IsReachable(states, events, j);
    LateRegisterIsCleaned(states[j], n - 1, k);
    if FailedAfter(states[j], k, n) {
      FailureHappened(states, events, i, j, k, n);
    }
  }

  lemma LaterKeepsApplied(s: System, s': System, i: nat)
    requires Later(s, s') && i < |s.log| && s.log[i].status.Applied?
    ensures i < |s'.log| && s'.log[i] == s.log[i]
  {
  }

  lemma IsReachable(states: seq<System>, events: seq<Event>, j: nat)
    requires IsRun(states, events) && j < |states|
    ensures Reachable(states[j])
  {
  }

  // ---------------------------------------------------------------- no automatic retry

  /** The lifecycle Removes of generation `g` that a run creates. */
  ghost function Created(states: seq<System>, g: nat): nat {
    if |states| < 2 then 0
    else
      var s, s' := states[|states| - 2], states[|states| - 1];
      Created(states[..|states| - 1], g) + (if CreatesLifecycle(s, s') && s.sh.generation == g then 1 else 0)
  }

  /** The steps of a run that reopen the responsibility for generation `g`. */
  ghost function Reopenings(states: seq<System>, events: seq<Event>, g: nat): nat
    requires |states| == |events| + 1
  {
    var n := |events| - 1;
    if events == [] then 0
    else Reopenings(states[..n + 1], events[..n], g)
         + (if events[n].Turn? && Reopening(states[n], events[n].t, g) then 1 else 0)
  }

  ghost predicate Counted(states: seq<System>, events: seq<Event>, g: nat)
    requires |states| == |events| + 1
  {
    var s := states[|states| - 1];
    s.history.created[g] == Created(states, g) && s.history.reopened[g] <= Reopenings(states, events, g)
  }

  lemma CountStep(states: seq<System>, events: seq<Event>, g: nat)
    requires events != [] && |states| == |events| + 1
    requires Counted(states[..|events|], events[..|events| - 1], g)
    requires var e, s, s' := events[|events| - 1], states[|events| - 1], states[|events|];
      if e.Turn? then Evolves(s, s', e.t) else OnlyArrives(s, s')
    ensures Counted(states, events, g)
  {
    var n := |events| - 1;
    assert states[..n + 1][n] == states[n];
    hide LogGrows, SlotMoves, WindowMoves, TokenMoves, StoppingMoves, SnapshotMoves, FailureMoves, Reopening;
  }

  lemma {:induction false} RunCounts(states: seq<System>, events: seq<Event>, g: nat)
    requires IsRun(states, events)
    ensures Counted(states, events, g)
    decreases |events|
  {
    if events == [] {
    } else {
      var last := |events| - 1;
      assert IsRun(states[..last + 1], events[..last]);
      RunCounts(states[..last + 1], events[..last], g);
      RunHolds(states, events, last);
      StepAt(states, events, last);
      hide IsRun, Inv, Evolves, Happen, Possible, Counted;
      StepEvolves(states[last], events[last]);
      CountStep(states, events, g);
    }
  }

  /** Over a whole run, the lifecycle Removes of a generation number at most one plus the steps that
      reopened its responsibility: a failed Remove is never retried by itself. */
  lemma NoAutomaticRetry(states: seq<System>, events: seq<Event>, g: nat)
    requires IsRun(states, events)
    ensures Created(states, g) <= 1 + Reopenings(states, events, g)
  {
    RunCounts(states, events, g);
    RunHolds(states, events, |states| - 1);
    hide IsRun, WellFormed, Slots, ThreadsInv, LogInv, OriginInv, SnapshotInv, Carried, TablesInv, HistoryBounded;
  }
}
