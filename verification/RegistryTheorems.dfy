/**
 * What the Registry protocol guarantees in every state that some run reaches, whatever the threads,
 * the Admin, the thread starts and the callers do.
 */
module RegistryTheorems {
  import opened Options
  import opened RegistryState
  import opened RegistrySystem
  import opened RegistryInvariant
  import opened RegistryRuns

  ghost predicate Reachable(s: System) {
    exists states: seq<System>, events: seq<Event> :: IsRun(states, events) && s in states
  }

  lemma ReachableHolds(s: System)
    requires Reachable(s)
    ensures Inv(s)
  {
    hide Inv, Happen, Possible;
    var states: seq<System>, events: seq<Event> :| IsRun(states, events) && s in states;
    var i :| 0 <= i < |states| && states[i] == s;
    hide IsRun;
    RunHolds(states, events, i);
  }

  // ---------------------------------------------------------------- order of the RPCs

  /** Renewals and Remove operations reach the Admin by generation, renewals before the Remove: no
      renewal follows a Remove of its generation or a later one, and no Remove follows a renewal of a
      later generation. */
  lemma RpcOrder(s: System, i: nat, j: nat)
    requires Reachable(s) && i < j < |s.log|
    ensures s.log[i].kind.RemoveOf? && s.log[j].kind.Renew? ==> s.log[i].kind.generation < s.log[j].kind.generation
    ensures s.log[i].kind.Renew? && s.log[j].kind.RemoveOf? ==> s.log[i].kind.generation <= s.log[j].kind.generation
    ensures s.log[i].kind.Renew? && s.log[j].kind.Renew? ==> s.log[i].kind.generation <= s.log[j].kind.generation
    ensures s.log[i].kind.RemoveOf? && s.log[j].kind.RemoveOf? ==> s.log[i].kind.generation <= s.log[j].kind.generation
  {
    hide Reachable, WellFormed, Slots, ThreadsInv, TablesInv, EntryInv, OriginInv, SnapshotInv, CountInv, Carried;
    ReachableHolds(s);
    if Key(s.log[i].kind).Some? && Key(s.log[j].kind).Some? {
      assert Key(s.log[i].kind).value <= Key(s.log[j].kind).value;
    }
  }

  /** The RPC under way in an action, if there is one. */
  function Underway(a: Action): Option<nat> {
    match a
    case Renewing(_, Calling(Sent(n))) => Some(n)
    case Removing(_, _, Sent(n)) => Some(n)
    case Registering(_, _, Sent(n)) => Some(n)
    case OneShotRemoving(Sent(n)) => Some(n)
    case _ => None
  }

  /** No two threads are inside `network_lock`, so no two RPCs overlap, and the one under way has the
      latest sequence. */
  lemma RpcsNeverOverlap(s: System, u: nat, v: nat)
    requires Reachable(s) && u < |s.threads| && v < |s.threads|
    requires HoldsNetwork(s.threads[u].act) && HoldsNetwork(s.threads[v].act)
    ensures u == v
    ensures var n := Underway(s.threads[u].act);
      n.Some? ==> 0 < n.value == |s.log| && s.log[n.value - 1].thread == u && s.log[n.value - 1].status.InFlight?
  {
    hide Reachable, Slots, ThreadsInv, TablesInv, LogInv, OriginInv, SnapshotInv, CountInv, Carried;
    ReachableHolds(s);
    ThreadAt(s, u);
    ThreadAt(s, v);
  }

  // ---------------------------------------------------------------- cleanup of late registers

  /** A Remove of generation `g` with a sequence greater than `n` has been issued. */
  predicate RemovedAfter(s: System, g: nat, n: nat) {
    exists m :: n <= m < |s.log| && s.log[m].kind.RemoveOf? && s.log[m].kind.generation == g
  }

  /** The cleanup thread of window `k` could not be started after the completion `n` was applied. */
  predicate FailedAfter(s: System, k: nat, n: nat) {
    k in s.history.startFailed && n <= s.history.startFailed[k]
  }

  /** A register that succeeded after its window's cleanup was requested is followed by a Remove of
      the same generation, unless the cleanup thread could not be started, before the window is
      cleared within that generation. */
  lemma LateRegisterIsCleaned(s: System, i: nat, k: nat)
    requires Reachable(s) && i < |s.log| && s.log[i].kind.Register? && s.log[i].kind.k == Some(k)
    requires s.log[i].status.Applied? && s.log[i].status.late
    requires s.log[i].kind.generation == s.sh.generation
    ensures || RemovedAfter(s, s.sh.generation, i + 1)
            || FailedAfter(s, k, i + 1)
            || (s.sh.coordination == Some(k) && Bounded(s.sh) && Outstanding(s, k))
  {
    hide Reachable, Slots, ThreadsInv, TablesInv, LogInv, OriginInv, SnapshotInv, CountInv, Carried, Outstanding;
    ReachableHolds(s);
    LateInLog(s, i, k);
  }

  lemma LateInLog(s: System, i: nat, k: nat)
    requires Inv(s) && i < |s.log| && s.log[i].kind.Register? && s.log[i].kind.k == Some(k)
    requires s.log[i].status.Applied? && s.log[i].status.late
    requires s.log[i].kind.generation == s.sh.generation
    ensures k < |s.sh.coordinations|
    ensures || RemovedAfter(s, s.sh.generation, i + 1)
            || FailedAfter(s, k, i + 1)
            || (s.sh.coordination == Some(k) && Outstanding(s, k))
  {
    hide ThreadsInv, TablesInv, OriginInv, SnapshotInv, CountInv, Carried, HistoryBounded, Slots,
      Outstanding, WellFormed;
    assert EntryInv(s, i);
    CoordinationAt(s, k);
    if s.history.removeSent > s.history.debt[k] {
      assert s.log[s.history.removeSent - 1].kind.RemoveOf?;
    }
  }

  // ---------------------------------------------------------------- the cleanup cache

  /** While a cleanup of the current generation is cached as successful, the Remove that satisfied it
      was accepted, and its sequence exceeds that of every renewal and every register of a window of
      that generation that was accepted as a success.  Of registers outside every window this is false:
      see `RegistryReopening.dfy`. */
  lemma CacheIsSound(s: System)
    requires Reachable(s) && s.sh.removed == Some(s.sh.generation)
    ensures s.sh.removedResult == Some(true)
    ensures 0 < s.history.removedBy <= |s.log| && CleanedBy(s.log[s.history.removedBy - 1], s.sh.generation)
    ensures forall i :: 0 <= i < |s.log| && s.log[i].status.Applied? && s.log[i].status.accepted && s.log[i].status.ok
              && (s.log[i].kind.Renew? || (s.log[i].kind.Register? && s.log[i].kind.k.Some?))
              && s.log[i].kind.generation == s.sh.generation
              ==> i + 1 < s.history.removedBy
  {
    hide Reachable, WellFormed, ThreadsInv, TablesInv, OriginInv, SnapshotInv, CountInv, Carried, HistoryBounded;
    ReachableHolds(s);
    forall i | 0 <= i < |s.log| && s.log[i].status.Applied? && s.log[i].status.accepted && s.log[i].status.ok
               && (s.log[i].kind.Renew? || (s.log[i].kind.Register? && s.log[i].kind.k.Some?))
               && s.log[i].kind.generation == s.sh.generation
      ensures i + 1 < s.history.removedBy
    {
      assert EntryInv(s, i);
    }
  }

  // ---------------------------------------------------------------- the slots

  /** Pending means no Worker and the current generation; a Worker has the current generation; an
      Active Remove beside a Worker is older and is the one the Worker waits for; stopping Workers are
      flagged; a prepared start means no Worker and the next generation. */
  lemma SlotsAgree(s: System)
    requires Reachable(s)
    ensures Bounded(s.sh)
    ensures s.sh.pending.Some? ==>
              s.sh.worker.None? && s.sh.operations[s.sh.pending.value].generation == s.sh.generation
    ensures s.sh.worker.Some? ==>
              s.sh.contexts[s.sh.worker.value].generation == s.sh.generation && s.sh.generation !in s.sh.stopping
    ensures s.sh.worker.Some? && s.sh.active.Some? ==>
              && s.sh.operations[s.sh.active.value].generation < s.sh.generation
              && s.sh.contexts[s.sh.worker.value].waitRemove == s.sh.active
    ensures forall g :: g in s.sh.stopping ==>
              s.sh.contexts[s.sh.stopping[g]].stop && s.sh.contexts[s.sh.stopping[g]].generation == g
    ensures s.sh.prepared.Some? ==>
              s.sh.worker.None? && s.sh.contexts[s.sh.prepared.value].generation == s.sh.generation + 1
    ensures s.sh.pending.Some? && s.sh.active.Some? ==> s.sh.pending != s.sh.active
  {
    hide Reachable, ThreadsInv, TablesInv, OriginInv, SnapshotInv, CountInv, Carried, HistoryBounded, LogInv;
    ReachableHolds(s);
  }

  /** An installed window has registers in flight, or cleanup was requested and a Remove of its
      generation is Pending or Active. */
  lemma WindowNeverLingers(s: System)
    requires Reachable(s) && s.sh.coordination.Some?
    ensures
      var k := s.sh.coordination.value;
      && Bounded(s.sh)
      && s.sh.coordinations[k].generation == s.sh.generation
      && (s.sh.coordinations[k].inflight > 0
          || (s.sh.coordinations[k].cleanupRequested && HasRemove(s.sh, s.sh.generation)))
  {
    hide Reachable, ThreadsInv, TablesInv, OriginInv, SnapshotInv, CountInv, Carried, HistoryBounded, LogInv;
    ReachableHolds(s);
  }

  // ---------------------------------------------------------------- registers in flight

  /** The callers that have joined a window and have not committed. */
  ghost function Inside(s: System, k: nat): set<nat> {
    set u: nat | u < |s.threads| && Registers(s.threads[u].act, k)
  }

  lemma MembersAreInside(s: System, k: nat)
    requires Inv(s) && k < |s.sh.coordinations|
    ensures k in s.history.members && s.history.members[k] == Inside(s, k)
  {
    hide TablesInv, OriginInv, SnapshotInv, CountInv, Carried, HistoryBounded, LogInv, Slots, ThreadsInv;
    CoordinationAt(s, k);
    forall u | u in Inside(s, k) ensures u in s.history.members[k] { ThreadAt(s, u); }
  }

  /** `inflight_count` is the number of callers between joining a window and committing. */
  lemma InflightCountsCallers(s: System, k: nat)
    requires Reachable(s) && k < |s.sh.coordinations|
    ensures s.sh.coordinations[k].inflight == |Inside(s, k)|
  {
    hide Reachable, ThreadsInv, TablesInv, OriginInv, SnapshotInv, CountInv, Carried, HistoryBounded, LogInv, Slots;
    hide Inside;
    ReachableHolds(s);
    CoordinationAt(s, k);
    MembersAreInside(s, k);
  }

  /** However many registers a window had, one lifecycle Remove at most was created for it, and its
      RPC has a greater sequence than every register of the window. */
  lemma OneRemovePerWindow(s: System, o: nat, p: nat)
    requires Reachable(s) && o in s.history.origin && p in s.history.origin
    requires s.history.origin[o] == s.history.origin[p]
    ensures o == p
    ensures o in s.history.sent ==>
              forall i :: 0 <= i < |s.log| && s.log[i].kind.Register? && s.log[i].kind.k == Some(s.history.origin[o])
                ==> i + 1 < s.history.sent[o]
  {
    hide Reachable, ThreadsInv, TablesInv, SnapshotInv, CountInv, Carried, HistoryBounded, LogInv, Slots;
    ReachableHolds(s);
  }

  // ---------------------------------------------------------------- Remove operations

  /** No operation sends two RPCs. */
  lemma OneRpcPerRemove(s: System, i: nat, j: nat)
    requires Reachable(s) && i < |s.log| && j < |s.log|
    requires s.log[i].kind.RemoveOf? && s.log[j].kind.RemoveOf? && s.log[i].kind.o == s.log[j].kind.o
    ensures i == j
  {
    hide Reachable, ThreadsInv, TablesInv, SnapshotInv, CountInv, Carried, HistoryBounded, OriginInv, Slots;
    ReachableHolds(s);
    assert EntryInv(s, i) && EntryInv(s, j);
  }

  /** An operation whose event is not set is in a slot, or some thread has yet to set it. */
  lemma UnsignalledIsOwed(s: System, o: nat)
    requires Reachable(s) && o < |s.sh.operations| && !s.sh.operations[o].done
    ensures || s.sh.pending == Some(o) || s.sh.active == Some(o)
            || exists u :: 0 <= u < |s.threads| && SignalOperation(o) in s.threads[u].owed
  {
    hide Reachable, ThreadsInv, TablesInv, SnapshotInv, CountInv, Carried, HistoryBounded, OriginInv, Slots, LogInv;
    ReachableHolds(s);
    OperationAt(s, o);
  }

  /** The branches the program answers with an internal error are never taken, and an operation that
      has been claimed has a result as soon as it is not Active. */
  lemma NothingBreaks(s: System)
    requires Reachable(s)
    ensures forall u :: 0 <= u < |s.threads| ==> !s.threads[u].act.Broken?
    ensures forall o :: 0 <= o < |s.sh.operations| && o in s.history.claimed && s.sh.active != Some(o) ==>
              s.sh.operations[o].result.Some?
  {
    hide Reachable, TablesInv, SnapshotInv, CountInv, Carried, HistoryBounded, OriginInv, Slots, LogInv, ThreadsInv;
    ReachableHolds(s);
    forall u | 0 <= u < |s.threads| ensures !s.threads[u].act.Broken? { ThreadAt(s, u); }
    forall o | 0 <= o < |s.sh.operations| && o in s.history.claimed && s.sh.active != Some(o)
      ensures s.sh.operations[o].result.Some?
    {
      OperationAt(s, o);
    }
  }

  /** The thread of a stopping Worker that has not claimed yet. */
  ghost predicate StoppingWorker(s: System, u: nat, g: nat) {
    && u < |s.threads| && s.threads[u].act.Renewing? && s.threads[u].act.c < |s.sh.contexts|
    && s.sh.contexts[s.threads[u].act.c].generation == g && Stopping(s.sh, s.threads[u].act.c)
  }

  /** A Pending Remove that no Active one holds up is carried by its generation's stopping Worker
      before its claim, by a started actor, or by a thread that has yet to run the scheduler. */
  lemma PendingIsCarried(s: System)
    requires Reachable(s) && s.sh.pending.Some? && s.sh.active.None?
    ensures exists u :: 0 <= u < |s.threads| && !Finished(s.threads[u])
                        && (StoppingWorker(s, u, s.sh.generation) || OwesSchedule(s.threads[u].act))
  {
    hide Reachable, ThreadsInv, TablesInv, SnapshotInv, CountInv, HistoryBounded, OriginInv, LogInv;
    ReachableHolds(s);
    var g := s.sh.generation;
    if g in s.sh.stopping {
      var c := s.sh.stopping[g];
      ContextAt(s, c);
      assert StoppingWorker(s, s.sh.contexts[c].thread, g);
    } else {
      var u :| 0 <= u < |s.threads| && OwesSchedule(s.threads[u].act);
      assert !Finished(s.threads[u]);
    }
  }

  // ---------------------------------------------------------------- no deadlock

  /** The threads on which the event of operation `o` depends: the claimer while it is Active, whoever
      owes the event once it has left both slots, and for a Pending one the claimer of the Active Remove
      before it or, if there is none, whoever carries it. */
  ghost predicate Serves(s: System, u: nat, o: nat) {
    && u < |s.threads|
    && if s.sh.active == Some(o) then Removes(s.threads[u].act, o)
       else if s.sh.pending != Some(o) then SignalOperation(o) in s.threads[u].owed
       else if s.sh.active.Some? then Removes(s.threads[u].act, s.sh.active.value)
       else StoppingWorker(s, u, s.sh.generation) || OwesSchedule(s.threads[u].act)
  }

  predicate Blocked(s: System, t: nat)
    requires WellFormed(s)
  {
    t < |s.threads| && !Finished(s.threads[t]) && !Enabled(s, t)
  }

  /** Thread `t` cannot step before thread `u` has: the owner of its prepared start or whoever owes the
      gate, a thread that serves its operation, a member of its window or whoever owes the event, or the
      holder of `network_lock`. */
  ghost predicate WaitsFor(s: System, t: nat, u: nat)
    requires WellFormed(s)
  {
    && Blocked(s, t) && u < |s.threads|
    && assert ThreadBounded(s.sh, s.log, s.threads[t]);
      match s.threads[t].act
      case Renewing(c, Gate) =>
        if s.sh.prepared == Some(c) then s.threads[u].act == OwnStart(c) else SignalGate(c) in s.threads[u].owed
      case Renewing(c, AwaitOld) => Serves(s, u, s.sh.contexts[c].waitRemove.value)
      case AwaitOperation(o, _, _) => Serves(s, u, o)
      case AwaitRegisters(k, _) =>
        if s.sh.coordinations[k].inflight > 0 then Registers(s.threads[u].act, k)
        else SignalCoordination(k) in s.threads[u].owed
      case _ => s.network == Some(u)
  }

  ghost predicate Waits(s: System, t: nat)
    requires WellFormed(s)
  {
    exists u :: WaitsFor(s, t, u)
  }

  /** How many waits can be between a thread with this action and one that can step. */
  function Depth(a: Action): nat {
    match a
    case AwaitOperation(_, _, _) => 3
    case AwaitRegisters(_, _) => 2
    case Renewing(_, p) => if p.Gate? || p.AwaitOld? then 2 else 1
    case _ => 1
  }

  lemma OperationServed(s: System, o: nat)
    requires Inv(s) && o < |s.sh.operations| && !s.sh.operations[o].done
    ensures exists u :: Serves(s, u, o)
  {
    hide ThreadsInv, TablesInv, SnapshotInv, CountInv, HistoryBounded, OriginInv, LogInv, WellFormed;
    OperationAt(s, o);
    if s.sh.active.Some? { OperationAt(s, s.sh.active.value); }
    if s.sh.active == Some(o) || (s.sh.pending == Some(o) && s.sh.active.Some?) {
      assert Serves(s, s.history.holder, o);
    } else if s.sh.pending != Some(o) {
      assert Serves(s, s.history.operationDebtor[o], o);
    } else {
      var u := Carrier(s);
      assert Serves(s, u, o);
    }
  }

  lemma Carrier(s: System) returns (u: nat)
    requires Inv(s) && s.sh.pending.Some? && s.sh.active.None?
    ensures u < |s.threads| && (StoppingWorker(s, u, s.sh.generation) || OwesSchedule(s.threads[u].act))
  {
    hide ThreadsInv, TablesInv, SnapshotInv, CountInv, HistoryBounded, OriginInv, LogInv, WellFormed;
    var g := s.sh.generation;
    if g in s.sh.stopping {
      ContextAt(s, s.sh.stopping[g]);
      u := s.sh.contexts[s.sh.stopping[g]].thread;
    } else {
      u :| 0 <= u < |s.threads| && OwesSchedule(s.threads[u].act);
    }
  }

  lemma LockHolder(s: System)
    requires Inv(s) && s.network.Some?
    ensures s.network.value < |s.threads| && HoldsNetwork(s.threads[s.network.value].act)
  {
    hide TablesInv, SnapshotInv, CountInv, Carried, HistoryBounded, OriginInv, LogInv, Slots, ThreadInv;
  }

  /** Every blocked thread waits for some thread. */
  lemma BlockedWaits(s: System, t: nat)
    requires Inv(s) && Blocked(s, t)
    ensures exists u :: WaitsFor(s, t, u)
  {
    hide ThreadsInv, TablesInv, SnapshotInv, CountInv, Carried, HistoryBounded, OriginInv, LogInv, Slots;
    ThreadAt(s, t);
    var act := s.threads[t].act;
    hide Serves;
    if act.Renewing? && act.phase.Gate? {
      GateWaits(s, t, act.c);
    } else if act.Renewing? && act.phase.AwaitOld? {
      OperationWaits(s, t, s.sh.contexts[act.c].waitRemove.value);
    } else if act.AwaitOperation? {
      OperationWaits(s, t, act.o);
    } else if act.AwaitRegisters? {
      WindowWaits(s, t, act.k);
    } else {
      LockHolder(s);
      assert WaitsFor(s, t, s.network.value);
    }
  }

  lemma GateWaits(s: System, t: nat, c: nat)
    requires Inv(s) && Blocked(s, t) && s.threads[t].act == Renewing(c, Gate)
    ensures exists u :: WaitsFor(s, t, u)
  {
    hide ThreadsInv, TablesInv, SnapshotInv, CountInv, Carried, HistoryBounded, OriginInv, LogInv, Slots;
    ThreadAt(s, t);
    ContextAt(s, c);
    if s.sh.prepared == Some(c) {
      assert WaitsFor(s, t, s.history.starter[c]);
    } else {
      assert WaitsFor(s, t, s.history.waker[c]);
    }
  }

  lemma OperationWaits(s: System, t: nat, o: nat)
    requires Inv(s) && Blocked(s, t) && o < |s.sh.operations| && !s.sh.operations[o].done
    requires var a := s.threads[t].act;
      || (a.AwaitOperation? && a.o == o)
      || (a.Renewing? && a.phase.AwaitOld? && a.c < |s.sh.contexts| && s.sh.contexts[a.c].waitRemove == Some(o))
    ensures exists u :: WaitsFor(s, t, u)
  {
    OperationServed(s, o);
    hide Inv, Serves, WellFormed, Blocked;
    var u: nat :| Serves(s, u, o);
    assert u < |s.threads| by { ServesInRange(s, u, o); }
    assert WaitsFor(s, t, u);
  }

  lemma ServesInRange(s: System, u: nat, o: nat)
    requires Serves(s, u, o)
    ensures u < |s.threads|
  {
  }

  lemma WindowWaits(s: System, t: nat, k: nat)
    requires Inv(s) && Blocked(s, t) && k < |s.sh.coordinations| && !s.sh.coordinations[k].done
    requires s.threads[t].act.AwaitRegisters? && s.threads[t].act.k == k
    ensures exists u :: WaitsFor(s, t, u)
  {
    hide ThreadsInv, TablesInv, SnapshotInv, CountInv, Carried, HistoryBounded, OriginInv, LogInv, Slots, WellFormed;
    CoordinationAt(s, k);
    if s.sh.coordinations[k].inflight > 0 {
      var u :| u in s.history.members[k];
      assert WaitsFor(s, t, u);
    } else {
      assert WaitsFor(s, t, s.history.coordinationDebtor[k]);
    }
  }

  /** A wait leads to a thread that is not done, and that can step or is nearer to one that can. */
  lemma WaitsDescend(s: System, t: nat, u: nat)
    requires Inv(s) && WaitsFor(s, t, u)
    ensures !Finished(s.threads[u])
    ensures Enabled(s, u) || (Blocked(s, u) && Depth(s.threads[u].act) < Depth(s.threads[t].act))
  {
    hide ThreadsInv, TablesInv, SnapshotInv, CountInv, Carried, HistoryBounded, OriginInv, LogInv, Slots;
    ThreadAt(s, t);
    ThreadAt(s, u);
    if s.threads[t].act.Renewing? && s.threads[t].act.phase.AwaitOld? {
      var o := s.sh.contexts[s.threads[t].act.c].waitRemove.value;
      ContextAt(s, s.threads[t].act.c);
      OperationAt(s, o);
    }
    if s.network == Some(u) { LockHolder(s); }
    hide WellFormed;
  }

  /** Threads of which each waits for the next. */
  ghost predicate WaitChain(s: System, chain: seq<nat>)
    requires WellFormed(s)
  {
    && chain != []
    && (forall i :: 0 <= i < |chain| ==> chain[i] < |s.threads|)
    && forall i :: 0 <= i < |chain| - 1 ==> WaitsFor(s, chain[i], chain[i + 1])
  }

  lemma {:induction false} ChainFrom(s: System, t: nat) returns (chain: seq<nat>)
    requires Inv(s) && Blocked(s, t)
    ensures WaitChain(s, chain) && chain[0] == t && |chain| >= 2 && Enabled(s, chain[|chain| - 1])
    decreases Depth(s.threads[t].act)
  {
    BlockedWaits(s, t);
    var u: nat :| WaitsFor(s, t, u);
    WaitsDescend(s, t, u);
    assert u < |s.threads|;
    hide Inv, WellFormed, WaitsFor, Enabled, Blocked;
    if Enabled(s, u) {
      chain := [t, u];
    } else {
      var rest := ChainFrom(s, u);
      chain := [t] + rest;
      assert t < |s.threads| by { BlockedInRange(s, t); }
    }
  }

  lemma BlockedInRange(s: System, t: nat)
    requires WellFormed(s) && Blocked(s, t)
    ensures t < |s.threads|
  {
  }

  lemma {:induction false} ChainsDescend(s: System, chain: seq<nat>)
    requires Inv(s) && WaitChain(s, chain) && |chain| >= 2
    ensures |chain| <= Depth(s.threads[chain[0]].act) + 1
    decreases |chain|
  {
    hide WellFormed, WaitsFor, Enabled, ThreadsInv, TablesInv, SnapshotInv, CountInv, Carried, HistoryBounded;
    hide OriginInv, LogInv, Slots;
    assert WaitsFor(s, chain[0], chain[1]);
    if |chain| > 2 {
      assert WaitsFor(s, chain[1], chain[2]);
      WaitsDescend(s, chain[0], chain[1]);
      WaiterIsBlocked(s, chain[1], chain[2]);
      assert WaitChain(s, chain[1..]) by {
        forall i | 0 <= i < |chain| - 2 ensures WaitsFor(s, chain[1..][i], chain[1..][i + 1]) {
          assert WaitsFor(s, chain[i + 1], chain[i + 2]);
        }
      }
      ChainsDescend(s, chain[1..]);
    }
  }

  lemma WaiterIsBlocked(s: System, t: nat, u: nat)
    requires WellFormed(s) && WaitsFor(s, t, u)
    ensures Blocked(s, t) && !Enabled(s, t)
  {
  }

  /** Assuming that RPCs and thread starts return, every wait ends at a thread that can step: each
      blocked thread begins a chain of waits whose last thread is enabled. */
  lemma EveryWaitEnds(s: System, t: nat)
    requires Reachable(s) && WellFormed(s) && Blocked(s, t)
    ensures exists chain: seq<nat> :: WaitChain(s, chain) && chain[0] == t && |chain| >= 2
                                      && Enabled(s, chain[|chain| - 1])
  {
    hide Reachable, Inv, WellFormed, Blocked, WaitsFor;
    ReachableHolds(s);
    var chain := ChainFrom(s, t);
  }

  /** No chain of waits is longer than four threads, so none is a cycle, and one that does not end at an
      enabled thread goes on. */
  lemma WaitsAreAcyclic(s: System, chain: seq<nat>)
    requires Reachable(s) && WellFormed(s) && WaitChain(s, chain) && |chain| >= 2
    ensures |chain| <= 4
    ensures Enabled(s, chain[|chain| - 1]) || Waits(s, chain[|chain| - 1])
  {
    hide Reachable, Inv, WellFormed, WaitsFor, Blocked, Enabled;
    ReachableHolds(s);
    ChainsDescend(s, chain);
    var n := |chain| - 1;
    assert WaitsFor(s, chain[n - 1], chain[n]);
    WaitsDescend(s, chain[n - 1], chain[n]);
    if !Enabled(s, chain[n]) { BlockedWaits(s, chain[n]); }
  }

  /** No reachable state has a thread that is not done and no thread that can step. */
  lemma NoDeadlock(s: System)
    requires Reachable(s) && WellFormed(s)
    requires exists t :: 0 <= t < |s.threads| && !Finished(s.threads[t])
    ensures exists u :: 0 <= u < |s.threads| && Enabled(s, u)
  {
    hide Reachable, Inv, WellFormed, Finished, WaitsFor;
    var t :| 0 <= t < |s.threads| && !Finished(s.threads[t]);
    if !Enabled(s, t) {
      EveryWaitEnds(s, t);
      var chain: seq<nat> :| WaitChain(s, chain) && Enabled(s, chain[|chain| - 1]);
    }
  }

  // ---------------------------------------------------------------- quiescence

  /** The live cleanup actors: a thread is in this set from its start to the end of its `finally`, as long
      as it is bound to its operation. */
  function Actors(sh: Shared): set<nat> {
    set o | 0 <= o < |sh.operations| && sh.operations[o].thread.Some? :: sh.operations[o].thread.value
  }

  /** Once every thread is done, nothing is left in any slot and no cleanup actor is bound: what the program
      tests before it closes its logs. */
  lemma IdleIsEmpty(s: System)
    requires Reachable(s) && forall u :: 0 <= u < |s.threads| ==> Finished(s.threads[u])
    ensures s.sh.prepared.None? && s.sh.worker.None? && s.sh.stopping == map[]
    ensures s.sh.active.None? && s.sh.pending.None? && s.sh.coordination.None? && s.network.None?
    ensures Actors(s.sh) == {}
  {
    hide Reachable, ThreadsInv, TablesInv, SnapshotInv, CountInv, HistoryBounded, OriginInv, LogInv;
    ReachableHolds(s);
    if s.sh.prepared.Some? { ContextAt(s, s.sh.prepared.value); }
    if s.sh.worker.Some? { ContextAt(s, s.sh.worker.value); }
    forall g | g in s.sh.stopping ensures false { ContextAt(s, s.sh.stopping[g]); }
    if s.sh.active.Some? { OperationAt(s, s.sh.active.value); }
    if s.sh.coordination.Some? {
      var k := s.sh.coordination.value;
      CoordinationAt(s, k);
      forall u | 0 <= u < |s.threads| ensures !Registers(s.threads[u].act, k) { assert Finished(s.threads[u]); }
    }
    if s.network.Some? { LockHolder(s); }
    forall o | 0 <= o < |s.sh.operations| && s.sh.operations[o].thread.Some? ensures false { OperationAt(s, o); }
  }

  // ---------------------------------------------------------------- the snapshot

  /** `registered` is the fold of the accepted completions, whose sequences strictly increase and
      never exceed the number of RPCs sent. */
  lemma SnapshotIsFold(s: System)
    requires Reachable(s)
    ensures s.sh.registered == Fold(s.history.accepted)
    ensures forall i, j :: 0 <= i < j < |s.history.accepted| ==> s.history.accepted[i].n < s.history.accepted[j].n
    ensures forall j :: 0 <= j < |s.history.accepted| ==>
              && 0 < s.history.accepted[j].n <= |s.log|
              && AcceptedAs(s.log[s.history.accepted[j].n - 1], s.history.accepted[j])
    ensures s.history.accepted != [] ==> s.sh.lastApplied == s.history.accepted[|s.history.accepted| - 1].n
  {
    hide Reachable, ThreadsInv, TablesInv, CountInv, Carried, HistoryBounded, OriginInv, LogInv,
      Slots, AcceptedAs, Fold;
    ReachableHolds(s);
  }

  /** Completions that show the executor registered, and those that show it is not. */
  predicate Confirms(a: Acceptance) {
    a.ok && !a.source.FromRemove?
  }

  predicate Denies(a: Acceptance) {
    (a.source.FromWorker? && !a.ok) || (a.source.FromRemove? && a.ok)
  }

  /** Completion `j` shows the executor registered and nothing after it says otherwise. */
  predicate Decides(accepted: seq<Acceptance>, j: nat)
    requires j < |accepted|
  {
    Confirms(accepted[j]) && forall i :: j < i < |accepted| ==> !Denies(accepted[i])
  }

  lemma DecidesNext(front: seq<Acceptance>, a: Acceptance, j: nat)
    requires j < |front|
    ensures Decides(front + [a], j) <==> Decides(front, j) && !Denies(a)
  {
    hide Confirms, Denies;
    var all := front + [a];
    if Decides(all, j) {
      assert !Denies(all[|front|]);
      forall i | j < i < |front| ensures !Denies(front[i]) { assert front[i] == all[i]; }
    }
  }

  lemma {:induction false} FoldMeans(accepted: seq<Acceptance>)
    ensures Fold(accepted) <==> exists j :: 0 <= j < |accepted| && Decides(accepted, j)
  {
    if accepted != [] {
      var n := |accepted| - 1;
      var front := accepted[..n];
      assert accepted == front + [accepted[n]];
      assert Decides(accepted, n) == Confirms(accepted[n]);
      FoldMeans(front);
      forall j | 0 <= j < n ensures Decides(accepted, j) <==> Decides(front, j) && !Denies(accepted[n]) {
        DecidesNext(front, accepted[n], j);
      }
      hide Decides;
      if j :| 0 <= j < n && Decides(front, j) { assert Decides(accepted, j) <==> !Denies(accepted[n]); }
      if j :| 0 <= j < n && Decides(accepted, j) { assert Decides(front, j); }
    }
  }

  /** The executor counts as registered exactly if a renewal or register was accepted as a success and
      neither a failed renewal nor a successful Remove has been accepted since. */
  lemma RegisteredMeans(s: System)
    requires Reachable(s)
    ensures s.sh.registered <==>
              exists j :: 0 <= j < |s.history.accepted| && Decides(s.history.accepted, j)
  {
    hide Reachable, Fold, Decides;
    SnapshotIsFold(s);
    FoldMeans(s.history.accepted);
  }

  // ---------------------------------------------------------------- renewal threads

  /** A context that became the Worker is renewed or finished by its own thread: once that thread has
      ended, `_finish_worker` has run for it. */
  lemma CommittedFinishes(s: System, c: nat)
    requires Reachable(s) && c < |s.sh.contexts| && c in s.history.committed
    ensures s.sh.contexts[c].thread < |s.threads|
    ensures c in s.history.finished || Works(s.threads[s.sh.contexts[c].thread].act, c)
    ensures c !in s.history.finished <==> (s.sh.worker == Some(c) || Stopping(s.sh, c))
  {
    hide Reachable, ThreadsInv, TablesInv, CountInv, Carried, HistoryBounded, OriginInv, LogInv, Slots, SnapshotInv;
    ReachableHolds(s);
    ContextAt(s, c);
  }

  /** A prepared start that was never committed has sent no RPC. */
  lemma UncommittedSendsNothing(s: System, i: nat)
    requires Reachable(s) && i < |s.log| && s.log[i].kind.Renew?
    ensures s.log[i].kind.c in s.history.committed
  {
    hide Reachable, ThreadsInv, TablesInv, CountInv, Carried, HistoryBounded, OriginInv, Slots, SnapshotInv;
    ReachableHolds(s);
    assert EntryInv(s, i);
  }

  /** When the owner of a token activates it, the token is still whole, its generation follows the
      committed one and there is no Worker to repair. */
  lemma ActivationIsExpected(s: System, t: nat, c: nat)
    requires Reachable(s) && t < |s.threads| && s.threads[t] == Thread([], OwnStart(c))
    ensures Bounded(s.sh) && c < |s.sh.contexts|
    ensures s.sh.prepared == Some(c) ==>
              && s.sh.contexts[c].owned
              && s.sh.contexts[c].generation == s.sh.generation + 1
              && s.sh.worker.None?
              && Activate(s.sh, c).1 == Activated(s.sh.pending, s.sh.coordination)
  {
    hide Reachable, ThreadsInv, TablesInv, CountInv, Carried, HistoryBounded, OriginInv, LogInv, SnapshotInv;
    ReachableHolds(s);
    ThreadAt(s, t);
  }
}
