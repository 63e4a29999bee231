/**
 * What `shutdown` and `stop` bring about: they halt the Worker, and with deregistration a Remove of the
 * generation is Pending afterwards, or will be once the registers in flight are applied; and a Pending
 * Remove reaches the Admin.
 */
module RegistryShutdown {
  import opened Options
  import opened RegistryState
  import opened RegistrySystem
  import opened RegistryInvariant
  import opened RegistrySections
  import opened RegistryRuns
  import opened RegistryTransitions
  import opened RegistryOverTime
  import opened RegistryReopening

  /** A Remove of the generation is Pending. */
  predicate PendingFor(sh: Shared, g: nat)
    requires Bounded(sh)
  {
    sh.pending.Some? && sh.operations[sh.pending.value].generation == g
  }

  /** What becomes of the shared state if `shutdown` runs with nothing in between. */
  function AfterShutdown(sh: Shared, deregister: bool, valid: bool): (r: Shared)
    requires Bounded(sh)
  {
    var (sh1, requests) := Shutdown(sh, deregister);
    if requests && valid then ShutdownRemove(sh1, sh.generation).0 else sh1
  }

  // ---------------------------------------------------------------- halting

  /** There is neither a Worker nor a prepared start any more, and what was the Worker is stopping. */
  predicate Halted(sh: Shared, sh': Shared)
    requires Bounded(sh)
  {
    && sh'.worker.None? && sh'.prepared.None? && sh'.generation == sh.generation
    && |sh'.contexts| == |sh.contexts|
    && (sh.worker.Some? ==> sh'.contexts[sh.worker.value].stop && Stopping(sh', sh.worker.value))
  }

  /** What a cleanup is made of. */
  predicate SameCleanup(sh: Shared, sh': Shared) {
    && sh'.coordination == sh.coordination && sh'.coordinations == sh.coordinations
    && sh'.pending == sh.pending && sh'.active == sh.active && sh'.operations == sh.operations
    && sh'.removeRequested == sh.removeRequested
    && sh'.removed == sh.removed && sh'.removedResult == sh.removedResult
    && sh'.registered == sh.registered && sh'.lastApplied == sh.lastApplied
  }

  lemma StopHalts(sh: Shared, remove: bool)
    requires Slots(sh)
    ensures Halted(sh, Stop(sh, remove).0)
    ensures !remove ==> SameCleanup(sh, Stop(sh, remove).0) && Stop(sh, remove).1.None?
  {
    var sh1 := StopLocal(sh.(prepared := None));
    StopLocalSlots(sh);
    assert Halted(sh, sh1) && SameCleanup(sh, sh1);
    hide StopLocal;
    RequestEffect(sh1);
    hide RequestRemove, Slots;
  }

  lemma ShutdownHalts(sh: Shared, deregister: bool)
    requires Slots(sh)
    ensures Halted(sh, Shutdown(sh, deregister).0)
    ensures !deregister ==> SameCleanup(sh, Shutdown(sh, deregister).0) && !Shutdown(sh, deregister).1
  {
    ShutdownSlots(sh, deregister);
    var sh1 := StopLocal(sh.(prepared := None));
    StopLocalSlots(sh);
    assert Halted(sh, sh1) && SameCleanup(sh, sh1);
    hide StopLocal, Slots;
  }

  // ---------------------------------------------------------------- deregistering

  /** `shutdown` with deregistration and a valid configuration does what `stop(remove=True)` does, unless it
      finds nothing to request; then `stop` would create nothing either. */
  lemma ShutdownIsStop(sh: Shared)
    requires Slots(sh)
    ensures Shutdown(sh, true).1 ==> AfterShutdown(sh, true, true) == Stop(sh, true).0
    ensures !Shutdown(sh, true).1 ==>
              && Stop(sh, true).0.operations == sh.operations
              && AfterShutdown(sh, true, true).operations == sh.operations
              && AfterShutdown(sh, true, true).pending == Stop(sh, true).0.pending == sh.pending
  {
    StopLocalSlots(sh);
    var sh1 := StopLocal(sh.(prepared := None));
    hide StopLocal;
    if sh.coordination.Some? {
      var k := sh.coordination.value;
      var closed := sh1.coordinations[k].(cleanupRequested := true);
      assert sh1.coordinations[k := closed][k := closed] == sh1.coordinations[k := closed];
    }
    hide Slots;
  }

  /** Without registers in flight, a Remove of the generation is Pending after `shutdown` with deregistration
      and a valid configuration exactly if one was or the responsibility was open. */
  lemma ShutdownDeregisters(sh: Shared)
    requires Slots(sh) && Drained(sh)
    ensures PendingFor(AfterShutdown(sh, true, true), sh.generation) <==> sh.pending.Some? || Responsible(sh)
  {
    StopLocalSlots(sh);
    var sh1 := StopLocal(sh.(prepared := None));
    hide StopLocal;
    if sh.coordination.Some? { ShutdownOfEmpty(sh, sh1, sh.coordination.value); }
  }

  lemma ShutdownOfEmpty(sh: Shared, sh1: Shared, k: nat)
    requires Slots(sh) && sh.coordination == Some(k) && sh.coordinations[k].inflight == 0
    requires sh1 == StopLocal(sh.(prepared := None)) && Slots(sh1) && sh1.worker.None?
    requires sh1 == sh.(prepared := None, worker := None, stopping := sh1.stopping, contexts := sh1.contexts)
    ensures PendingFor(AfterShutdown(sh, true, true), sh.generation) <==> sh.pending.Some? || Responsible(sh)
  {
    hide StopLocal;
    RequestInWindow(sh1.(coordinations := sh1.coordinations[k := sh1.coordinations[k].(cleanupRequested := true)]), k);
  }

  /** With registers in flight it closes their window and leaves the Remove to them. */
  lemma ShutdownPostpones(sh: Shared, valid: bool)
    requires Slots(sh) && !Drained(sh)
    ensures
      var k := sh.coordination.value;
      var sh' := AfterShutdown(sh, true, valid);
      && Shutdown(sh, true).1
      && sh'.coordination == Some(k) && k < |sh'.coordinations|
      && sh'.coordinations[k] == sh.coordinations[k].(cleanupRequested := true)
      && sh'.pending == sh.pending && sh'.operations == sh.operations
  {
    StopLocalSlots(sh);
    hide StopLocal;
  }

  /** The last register of a closed window, applied as a success that is newer than any completion before,
      leaves a Remove of the generation Pending and the window in its slot. */
  lemma LastRegisterLeavesRemove(sh: Shared, k: nat, n: nat)
    requires Slots(sh) && sh.coordination == Some(k) && sh.coordinations[k].inflight == 1
    requires sh.coordinations[k].cleanupRequested && n > sh.lastApplied
    ensures
      var sh' := CommitRegister(sh, n, true, sh.generation, Some(k)).0;
      PendingFor(sh', sh.generation) && sh'.coordination == Some(k) && sh'.registered
  {
  }

  // ---------------------------------------------------------------- callers

  /** A request of the current generation, with no Worker, finds the Pending Remove or creates it exactly if
      the responsibility is open. */
  lemma RequestGets(sh: Shared)
    requires Slots(sh) && sh.worker.None? && Drained(sh)
    ensures RequestRemove(sh).1.Some? <==> Responsible(sh)
    ensures RequestRemove(sh).1.Some? ==> PendingFor(RequestRemove(sh).0, sh.generation)
  {
    if sh.coordination.Some? { RequestInWindow(sh, sh.coordination.value); }
  }

  /** A caller of `stop` or `shutdown` whose request got a Remove goes on to schedule it. */
  predicate Schedules(s: System, t: nat, g: nat) {
    && t < |s.threads| && Bounded(s.sh) && s.sh.generation == g && PendingFor(s.sh, g)
    && s.threads[t].act == ScheduleRemove(true, End)
  }

  /** `stop(remove=True)` with an open responsibility. */
  lemma StopGets(s: System, s': System, t: nat, ch: Choice)
    requires Slots(s.sh) && WellFormed(s) && Enabled(s, t) && s' == Next(s, t, ch)
    requires s.threads[t] == Thread([], StopCall(true)) && Drained(s.sh)
    ensures Schedules(s', t, s.sh.generation) <==> Responsible(s.sh)
  {
    assert Bounded(s.sh);
    hide WellFormed, NoteCreated, StopLocal, RequestRemove, Slots;
    StopLocalSlots(s.sh);
    var sh1 := StopLocal(s.sh.(prepared := None));
    RequestGets(sh1);
    RequestEffect(sh1);
  }

  /** The first section of `shutdown` goes on to its request, for which the responsibility is still open. */
  lemma ShutdownAsks(s: System, s': System, t: nat, ch: Choice)
    requires Slots(s.sh) && WellFormed(s) && Enabled(s, t) && s' == Next(s, t, ch)
    requires s.threads[t] == Thread([], ShutdownCall(true)) && Drained(s.sh) && Responsible(s.sh) && s.sh.pending.None?
    ensures t < |s'.threads| && s'.threads[t].act == ShutdownRequest(s.sh.generation)
    ensures Bounded(s'.sh) && Drained(s'.sh) && Responsible(s'.sh)
    ensures s'.sh.generation == s.sh.generation && s'.sh.worker.None?
  {
    hide WellFormed, StopLocal, Slots;
    StopLocalSlots(s.sh);
  }

  /** Its second section, in the same generation and with a valid configuration, gets the Remove. */
  lemma ShutdownGets(s: System, s': System, t: nat, ch: Choice)
    requires Slots(s.sh) && s.sh.worker.None? && WellFormed(s) && Enabled(s, t) && s' == Next(s, t, ch) && ch.ok
    requires s.threads[t] == Thread([], ShutdownRequest(s.sh.generation)) && Drained(s.sh)
    ensures Schedules(s', t, s.sh.generation) <==> Responsible(s.sh)
  {
    assert Bounded(s.sh);
    hide WellFormed, NoteCreated, RequestRemove, Slots;
    RequestGets(s.sh);
    RequestEffect(s.sh);
  }

  /** With an invalid configuration, or once another generation has begun, it requests nothing. */
  lemma ShutdownRefuses(s: System, s': System, t: nat, g: nat, ch: Choice)
    requires WellFormed(s) && Enabled(s, t) && s' == Next(s, t, ch)
    requires s.threads[t] == Thread([], ShutdownRequest(g)) && (!ch.ok || s.sh.generation != g)
    ensures s'.sh == s.sh && s'.threads == s.threads[t := Thread([], Idle)]
  {
    hide WellFormed, RequestRemove;
  }

  // ---------------------------------------------------------------- what becomes of a Pending Remove

  /** An RPC of the operation has been sent. */
  predicate HasRpc(s: System, o: nat) {
    exists n :: 0 <= n < |s.log| && s.log[n].kind.RemoveOf? && s.log[n].kind.o == o
  }

  /** Every operation that has been Active and is not any more has sent its RPC. */
  ghost predicate ClaimedHaveRpc(s: System) {
    forall o :: o in s.history.claimed && s.sh.active != Some(o) ==> HasRpc(s, o)
  }

  lemma RpcStays(s: System, s': System, o: nat)
    requires LogGrows(s, s') && HasRpc(s, o)
    ensures HasRpc(s', o)
  {
    var n :| 0 <= n < |s.log| && s.log[n].kind.RemoveOf? && s.log[n].kind.o == o;
    assert s'.log[n].kind == s.log[n].kind;
  }

  /** The thread that completes the Active Remove has sent its RPC. */
  lemma CompletedHasRpc(s: System, t: nat)
    requires Inv(s) && t < |s.threads| && s.threads[t].act.Removing? && s.threads[t].act.rpc.Answered?
    ensures HasRpc(s, s.threads[t].act.o)
  {
    hide TablesInv, LogInv, OriginInv, SnapshotInv, CountInv, Carried, HistoryBounded, Slots;
    ThreadAt(s, t);
    assert s.log[s.threads[t].act.rpc.n - 1].kind.RemoveOf?;
  }

  lemma TurnHasRpc(s: System, t: nat, ch: Choice)
    requires Inv(s) && WellFormed(s) && Enabled(s, t) && ClaimedHaveRpc(s)
    ensures ClaimedHaveRpc(Next(s, t, ch))
  {
    hide Inv, WellFormed, Enabled, Next, LogGrows, CreatesIdle, WindowMoves, TokenMoves, SnapshotMoves, Reopens;
    hide StoppingMoves, FailureMoves, HasRpc, Dropped;
    TurnEvolves(s, t, ch);
    var s' := Next(s, t, ch);
    forall o | o in s'.history.claimed && s'.sh.active != Some(o) ensures HasRpc(s', o) {
      if s.sh.active == Some(o) { CompletedHasRpc(s, t); }
      RpcStays(s, s', o);
    }
  }

  lemma {:induction false} RunHasRpc(states: seq<System>, events: seq<Event>, i: nat)
    requires IsRun(states, events) && i < |states|
    ensures ClaimedHaveRpc(states[i])
  {
    hide Inv, ClaimedHaveRpc, Happen, Possible;
    if i == 0 {
      StartHasRpc();
    } else {
      RunHasRpc(states, events, i - 1);
      RunHolds(states, events, i - 1);
      StepAt(states, events, i - 1);
      hide IsRun;
      EventHasRpc(states[i - 1], events[i - 1]);
    }
  }

  lemma StartHasRpc()
    ensures ClaimedHaveRpc(START)
  {
  }

  lemma EventHasRpc(s: System, e: Event)
    requires Inv(s) && Possible(s, e) && ClaimedHaveRpc(s)
    ensures ClaimedHaveRpc(Happen(s, e))
  {
    hide Inv, WellFormed, Enabled, Next;
    if e.Turn? {
      hide ClaimedHaveRpc;
      TurnHasRpc(s, e.t, e.choice);
    } else {
      forall o | HasRpc(s, o) ensures HasRpc(Happen(s, e), o) {
        var n :| 0 <= n < |s.log| && s.log[n].kind.RemoveOf? && s.log[n].kind.o == o;
        assert Happen(s, e).log[n] == s.log[n];
      }
    }
  }

  /** The operation is Pending, has been claimed, has failed to start, or its generation has been cleaned up
      between the two states. */
  ghost predicate Traced(states: seq<System>, i: nat, j: nat, o: nat, g: nat)
    requires i <= j < |states|
  {
    var s := states[j];
    || s.sh.pending == Some(o) || o in s.history.claimed
    || (o < |s.sh.operations| && s.sh.operations[o].result == Some(false))
    || exists m :: i < m <= j && states[m].sh.removed == Some(g)
  }

  lemma TracedOn(states: seq<System>, i: nat, j: nat, o: nat, g: nat, t: nat)
    requires i < j < |states| && Traced(states, i, j - 1, o, g) && SlotMoves(states[j - 1], states[j], t)
    requires states[j - 1].sh.generation == states[j].sh.generation == g
    requires states[j - 1].sh.pending.Some? ==> states[j - 1].sh.active != states[j - 1].sh.pending
    ensures Traced(states, i, j, o, g)
  {
    if states[j].sh.removed == Some(g) {
      assert i < j <= j;
    } else if m :| i < m <= j - 1 && states[m].sh.removed == Some(g) {
      assert i < m <= j;
    }
  }

  lemma TracedUnchanged(states: seq<System>, i: nat, j: nat, o: nat, g: nat)
    requires i < j < |states| && Traced(states, i, j - 1, o, g)
    requires states[j].sh == states[j - 1].sh && states[j].history == states[j - 1].history
    ensures Traced(states, i, j, o, g)
  {
    if m :| i < m <= j - 1 && states[m].sh.removed == Some(g) { assert i < m <= j; }
  }

  lemma TracedFirst(states: seq<System>, i: nat, o: nat, g: nat)
    requires i < |states| && states[i].sh.pending == Some(o)
    ensures Traced(states, i, i, o, g)
  {
  }

  lemma SlotsDiffer(s: System)
    requires Inv(s)
    ensures s.sh.pending.Some? ==> s.sh.active != s.sh.pending
  {
    hide WellFormed, ThreadsInv, TablesInv, LogInv, OriginInv, SnapshotInv, CountInv, Carried, HistoryBounded;
  }

  lemma SameGeneration(a: System, b: System, c: System)
    requires Later(a, b) && Later(b, c) && a.sh.generation == c.sh.generation
    ensures b.sh.generation == a.sh.generation
  {
  }

  lemma {:induction false} RunTraced(states: seq<System>, events: seq<Event>, i: nat, j: nat, o: nat, g: nat)
    requires IsRun(states, events) && |states| == |events| + 1 && i <= j < |states|
    requires states[i].sh.pending == Some(o) && states[i].sh.generation == g == states[j].sh.generation
    ensures Traced(states, i, j, o, g)
    decreases j - i
  {
    hide IsRun, Inv, Happen, Possible, Later, Traced, LogGrows, SlotMoves, CreatesIdle, WindowMoves, TokenMoves;
    hide SnapshotMoves, Reopens, StoppingMoves, FailureMoves;
    if i == j {
      TracedFirst(states, i, o, g);
    } else {
      RunLater(states, events, i, j - 1);
      RunLater(states, events, j - 1, j);
      SameGeneration(states[i], states[j - 1], states[j]);
      RunTraced(states, events, i, j - 1, o, g);
      RunHolds(states, events, j - 1);
      StepAt(states, events, j - 1);
      StepEvolves(states[j - 1], events[j - 1]);
      SlotsDiffer(states[j - 1]);
      if events[j - 1].Turn? {
        TracedOn(states, i, j, o, g, events[j - 1].t);
      } else {
        TracedUnchanged(states, i, j, o, g);
      }
    }
  }

  /** The RPC of the operation is among the entries from `n` on. */
  predicate HasRpcFrom(n: nat, s: System, o: nat) {
    exists m :: n <= m < |s.log| && s.log[m].kind.RemoveOf? && s.log[m].kind.o == o
  }

  lemma RpcIsLater(s: System, s': System, o: nat)
    requires Inv(s) && s.sh.pending == Some(o) && Later(s, s') && HasRpc(s', o)
    ensures HasRpcFrom(|s.log|, s', o)
  {
    hide ThreadsInv, SnapshotInv, CountInv, Carried, WellFormed, Slots, OriginInv;
    var m :| 0 <= m < |s'.log| && s'.log[m].kind.RemoveOf? && s'.log[m].kind.o == o;
    if m < |s.log| {
      assert EntryInv(s, m);
      OperationAt(s, o);
    }
  }

  /** A Pending Remove reaches the Admin: when, in the same generation, it is neither Pending nor Active any
      more, its RPC has been sent since, or its cleanup thread could not start, or the cleanup of the
      generation has been cached since. */
  lemma PendingReachesAdmin(states: seq<System>, events: seq<Event>, i: nat, j: nat, o: nat, g: nat)
    requires IsRun(states, events) && |states| == |events| + 1 && i <= j < |states|
    requires states[i].sh.pending == Some(o) && states[i].sh.generation == g == states[j].sh.generation
    requires Some(o) !in {states[j].sh.pending, states[j].sh.active}
    ensures || HasRpcFrom(|states[i].log|, states[j], o)
            || (o < |states[j].sh.operations| && states[j].sh.operations[o].result == Some(false))
            || exists m :: i < m <= j && states[m].sh.removed == Some(g)
  {
    hide IsRun, Inv, Later, HasRpc, HasRpcFrom;
    RunTraced(states, events, i, j, o, g);
    RunHasRpc(states, events, j);
    RunHolds(states, events, i);
    RunLater(states, events, i, j);
    if HasRpc(states[j], o) { RpcIsLater(states[i], states[j], o); }
  }
}
