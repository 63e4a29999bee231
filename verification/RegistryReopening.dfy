/**
 * When a register that the Admin accepted can still be cleaned up.  The documentation promises a new
 * cleanup responsibility for every register accepted after a Remove of the same generation.  The code
 * does not always open one: the condition below says, at every completion of a register that leaves
 * none of the installed window in flight, exactly when a cleanup can be requested afterwards, and two
 * runs show it failing, for a register of a window and for one outside every window.
 */
module RegistryReopening {
  import opened Options
  import opened RegistryState
  import opened RegistrySystem
  import opened RegistryInvariant
  import opened RegistrySections
  import opened RegistryRegisterSteps
  import opened RegistryTransitions
  import opened RegistryTheorems
  import opened RegistryOverTime

  /** A `stop(remove=True)` now would find a Remove to schedule. */
  predicate Cleanable(sh: Shared)
    requires Bounded(sh)
  {
    Stop(sh, true).1.Some?
  }

  /** No register of the installed window is in flight. */
  predicate Drained(sh: Shared)
    requires Bounded(sh)
  {
    sh.coordination.Some? ==> sh.coordinations[sh.coordination.value].inflight == 0
  }

  /** The responsibility for the current generation is open: there is something to remove, no cleanup of
      it is cached, and a Remove is Pending or may still be requested. */
  predicate Responsible(sh: Shared) {
    var g := sh.generation;
    && (g > 0 || sh.registered)
    && sh.removed != Some(g)
    && (sh.pending.Some? || sh.removeRequested != Some(g))
  }

  /** Without registers in flight, a cleanup can be requested exactly if the responsibility is open. */
  lemma CleanableExactly(sh: Shared)
    requires Slots(sh) && Drained(sh)
    ensures Cleanable(sh) <==> Responsible(sh)
  {
    var sh1 := StopLocal(sh.(prepared := None));
    StopLocalSlots(sh);
    hide StopLocal;
    if sh.coordination.Some? {
      RequestOfEmpty(sh1, sh.coordination.value);
    }
  }

  lemma RequestOfEmpty(sh: Shared, k: nat)
    requires Slots(sh) && sh.worker.None? && sh.coordination == Some(k) && sh.coordinations[k].inflight == 0
    ensures RequestRemove(sh).1.Some? <==> Responsible(sh)
  {
  }

  /** The completion `n` of a register that joined `k` in generation `g` is a success that reopens the
      responsibility: it is newer than any applied, its window is installed, and the cleanup of its
      generation is cached or requested or the generation is 0. */
  predicate Restores(sh: Shared, k: Option<nat>, g: nat, n: nat, ok: bool)
    requires k.Some? ==> k.value < |sh.coordinations|
  {
    && ok && n > sh.lastApplied && sh.generation == g && k.Some? && sh.coordination == k
    && (sh.removed == Some(g) || sh.coordinations[k.value].cleanupRequested || g == 0)
  }

  /** What must hold before the completion for a cleanup to be possible after it. */
  predicate Reopenable(sh: Shared, k: Option<nat>, g: nat, n: nat, ok: bool)
    requires k.Some? ==> k.value < |sh.coordinations|
  {
    || Restores(sh, k, g, n, ok)
    || Responsible(sh.(registered := sh.registered || (ok && n > sh.lastApplied)))
  }

  /** The completion leaves no register of the installed window in flight. */
  predicate Drains(sh: Shared, k: Option<nat>)
    requires Bounded(sh)
  {
    Drained(sh) || (k == sh.coordination && sh.coordinations[sh.coordination.value].inflight == 1)
  }

  lemma LastLeaves(sh: Shared, n: nat, ok: bool, k: nat)
    requires Slots(sh) && InWindow(sh, sh.generation, k) && sh.coordinations[k].inflight == 1
    ensures
      var sh' := CommitRegister(sh, n, ok, sh.generation, Some(k)).0;
      Bounded(sh') && Drained(sh') && (Responsible(sh') <==> Reopenable(sh, Some(k), sh.generation, n, ok))
  {
    ApplyEffect(sh, n, ok, sh.generation, Some(k));
    ApplySlots(sh, n, ok, sh.generation, Some(k));
    var sh1 := ApplyRegister(sh, n, ok, sh.generation, Some(k)).0;
    hide ApplyRegister;
    LeaveLast(sh1, k);
    hide Leave, Slots;
  }

  /** A register outside every window, or of a window that is not installed any more. */
  lemma OthersLeave(sh: Shared, n: nat, ok: bool, g: nat, k: Option<nat>)
    requires Slots(sh) && (k.Some? ==> InWindow(sh, g, k.value)) && Drained(sh)
    ensures
      var sh' := CommitRegister(sh, n, ok, g, k).0;
      Bounded(sh') && Drained(sh') && (Responsible(sh') <==> Reopenable(sh, k, g, n, ok))
  {
    ApplyEffect(sh, n, ok, g, k);
    var sh1 := ApplyRegister(sh, n, ok, g, k).0;
    hide ApplyRegister;
    if k.Some? {
      LeaveEarly(sh1, k.value);
      hide Leave;
    }
  }

  lemma CompletionLeaves(sh: Shared, n: nat, ok: bool, g: nat, k: Option<nat>)
    requires Slots(sh) && (k.Some? ==> InWindow(sh, g, k.value)) && Drains(sh, k)
    ensures
      var sh' := CommitRegister(sh, n, ok, g, k).0;
      Slots(sh') && Drained(sh') && (Responsible(sh') <==> Reopenable(sh, k, g, n, ok))
  {
    CommitSlots(sh, n, ok, g, k);
    hide CommitRegister, Responsible, Reopenable;
    if Drained(sh) {
      OthersLeave(sh, n, ok, g, k);
    } else {
      LastLeaves(sh, n, ok, k.value);
    }
  }

  /** For every register, inside a window or outside, with or without a Worker, successful or not: if its
      completion leaves none of the installed window in flight, a cleanup can be requested afterwards if
      and only if the guard held before. */
  lemma ReopensExactly(s: System, t: nat, k: Option<nat>, g: nat, n: nat, ok: bool, ch: Choice)
    requires Reachable(s) && t < |s.threads| && s.threads[t] == Thread([], Registering(k, g, Answered(n, ok)))
    requires Bounded(s.sh) && Drains(s.sh, k)
    ensures WellFormed(s) && Enabled(s, t) && WindowBounded(s.sh, k) && Bounded(Next(s, t, ch).sh)
    ensures Cleanable(Next(s, t, ch).sh) <==> Reopenable(s.sh, k, g, n, ok)
  {
    hide Reachable, ThreadsInv, TablesInv, OriginInv, SnapshotInv, CountInv, Carried, LogInv, HistoryBounded, Slots;
    ReachableHolds(s);
    ThreadAt(s, t);
    if k.Some? { LeaveReady(s, t, k.value, g, n, ok); }
    hide WellFormed, Cleanable, Reopenable, CoordinationInv, InWindow, CommitRegister, ThreadInv, Drains, Responsible;
    CompletionLeaves(s.sh, n, ok, g, k);
    CleanableExactly(CommitRegister(s.sh, n, ok, g, k).0);
  }

  /** A window that has registers in flight is drained, within its generation, by the completion of one
      of them and by no other step: a register that leaves others behind is decided at that completion. */
  lemma OnlyRegistersDrain(s: System, e: Event)
    requires Reachable(s) && Possible(s, e) && Bounded(s.sh) && !Drained(s.sh)
    requires Happen(s, e).sh.generation == s.sh.generation
    requires Bounded(Happen(s, e).sh) && Drained(Happen(s, e).sh)
    ensures e.Turn? && Leaves(s, e.t, s.sh.coordination.value) && Drains(s.sh, s.sh.coordination)
  {
    hide Reachable, Inv, Happen, Possible;
    ReachableHolds(s);
    StepEvolves(s, e);
  }

  // ---------------------------------------------------------------- a run that breaks the promise

  const YES: Choice := Choice(true, true, Proceed)

  lemma Extends(s: System, e: Event)
    requires Reachable(s) && Possible(s, e)
    ensures Reachable(Happen(s, e))
  {
    hide Possible, Happen;
    var states: seq<System>, events: seq<Event> :| IsRun(states, events) && s in states;
    var i :| 0 <= i < |states| && states[i] == s;
    var s' := Happen(s, e);
    assert IsRun(states[..i + 1] + [s'], events[..i] + [e]);
    assert s' in states[..i + 1] + [s'];
  }

  /** Thread `t` takes its next step. */
  lemma Takes(s: System, t: nat) returns (s': System)
    requires Reachable(s) && t < |s.threads|
    requires WellFormed(s) ==> Enabled(s, t)
    ensures WellFormed(s) && Enabled(s, t) && s' == Next(s, t, YES) && Reachable(s') && WellFormed(s')
  {
    s' := TakesWith(s, t, YES);
  }

  lemma TakesWith(s: System, t: nat, ch: Choice) returns (s': System)
    requires Reachable(s) && t < |s.threads|
    requires WellFormed(s) ==> Enabled(s, t)
    ensures WellFormed(s) && Enabled(s, t) && s' == Next(s, t, ch) && Reachable(s') && WellFormed(s')
  {
    hide Reachable, Next, Enabled, WellFormed;
    ReachableHolds(s);
    s' := Happen(s, Turn(t, ch));
    Extends(s, Turn(t, ch));
    ReachableHolds(s');
  }

  lemma Arrives(s: System, call: Call) returns (s': System)
    requires Reachable(s)
    ensures s' == Arrive(s, call) && Reachable(s') && WellFormed(s')
  {
    hide Reachable, Arrive, WellFormed;
    s' := Happen(s, Arrival(call));
    Extends(s, Arrival(call));
    ReachableHolds(s');
  }

  lemma StartIsReachable()
    ensures Reachable(START)
  {
    assert IsRun([START], []);
  }

  /** A Worker of generation 1 waits at its open gate. */
  lemma SceneStarted() returns (s: System)
    ensures Reachable(s) && s.network.None? && s.log == []
    ensures s.threads == [Thread([], AfterActivation(0)), Thread([], Renewing(0, Gate))]
    ensures s.sh == INITIAL.(generation := 1, worker := Some(0), contexts := [Context(1, false, true, None, true, 1)])
  {
    hide Reachable, WellFormed;
    StartIsReachable();
    s := Arrives(START, CallStart);
    assert s.threads == [Thread([], PrepareStart)];
    s := Takes(s, 0);
    var row := Context(1, false, false, None, true, 1);
    assert s.sh == INITIAL.(prepared := Some(0), contexts := [row]);
    assert s.threads == [Thread([], OwnStart(0)), Thread([], Renewing(0, Gate))];
    s := Takes(s, 0);
    assert s.sh == INITIAL.(generation := 1, worker := Some(0), contexts := [row]);
    assert s.threads[0].owed == [SignalGate(0)];
    assert s.threads == [Thread([SignalGate(0)], AfterActivation(0)), Thread([], Renewing(0, Gate))];
    s := Takes(s, 0);
    assert s.threads[0].owed == [] && s.sh.contexts == [row.(gate := true)];
    assert s.threads == [Thread([], AfterActivation(0)), Thread([], Renewing(0, Gate))];
  }

  /** Its Remove has been answered, and is not applied yet. */
  const STOPPED: Shared :=
    INITIAL.(generation := 1, active := Some(0), removeRequested := Some(1),
             contexts := [Context(1, true, true, None, false, 1)],
             operations := [Operation(1, false, None, None)])

  lemma SceneClaimed() returns (s: System)
    ensures Reachable(s) && s.network.None? && s.log == [] && s.sh == STOPPED
    ensures s.threads == [Thread([], AfterActivation(0)), Thread([], Removing(0, End, ToSend)), Thread([], Idle)]
  {
    hide Reachable, WellFormed;
    s := SceneStarted();
    var owner := Thread([], AfterActivation(0));
    s := Arrives(s, CallStop(true));
    assert s.threads == [owner, Thread([], Renewing(0, Gate)), Thread([], StopCall(true))];
    s := Takes(s, 2);
    var row := Context(1, true, true, None, true, 1);
    assert s.sh == STOPPED.(active := None, pending := Some(0), stopping := map[1 := 0], contexts := [row]);
    assert s.threads == [owner, Thread([], Renewing(0, Gate)), Thread([], ScheduleRemove(true, End))];
    s := Takes(s, 2);
    assert s.threads == [owner, Thread([], Renewing(0, Gate)), Thread([], Idle)];
    s := SceneFinishing(s);
  }

  lemma SceneFinishing(s0: System) returns (s: System)
    requires Reachable(s0) && s0.network.None? && s0.log == []
    requires s0.sh == STOPPED.(active := None, pending := Some(0), stopping := map[1 := 0],
                               contexts := [Context(1, true, true, None, true, 1)])
    requires s0.threads == [Thread([], AfterActivation(0)), Thread([], Renewing(0, Gate)), Thread([], Idle)]
    ensures Reachable(s) && s.network.None? && s.log == [] && s.sh == STOPPED
    ensures s.threads == [Thread([], AfterActivation(0)), Thread([], Removing(0, End, ToSend)), Thread([], Idle)]
  {
    hide Reachable, WellFormed;
    s := Takes(s0, 1);
    assert s.threads[1] == Thread([], Renewing(0, EntryCheck));
    s := Takes(s, 1);
    assert s.threads[1] == Thread([], Renewing(0, FirstCheck));
    s := Takes(s, 1);
    assert s.threads[1] == Thread([], Renewing(0, Last));
    s := Takes(s, 1);
    assert s.sh.contexts == STOPPED.contexts && s.sh.stopping == map[];
  }

  lemma SceneAnswered() returns (s: System)
    ensures Reachable(s) && s.network.None? && s.sh == STOPPED
    ensures s.log == [Entry(RemoveOf(0, 1), 1, Returned(true))]
    ensures s.threads == [Thread([], AfterActivation(0)), Thread([], Removing(0, End, Answered(1, true))),
                          Thread([], Idle)]
  {
    hide Reachable, WellFormed;
    s := SceneClaimed();
    s := Takes(s, 1);
    assert s.threads[1] == Thread([], Removing(0, End, Sent(1))) && s.log == [Entry(RemoveOf(0, 1), 1, InFlight)];
    s := Takes(s, 1);
  }

  /** A register joins, is sent and is answered in the gap. */
  lemma SceneRegistered() returns (s: System)
    ensures Reachable(s) && s.network.None?
    ensures s.sh == STOPPED.(coordination := Some(0), coordinations := [Coordination(1, 1, false, false)])
    ensures s.log == [Entry(RemoveOf(0, 1), 1, Returned(true)), Entry(Register(Some(0), 1), 3, Returned(true))]
    ensures s.threads == [Thread([], AfterActivation(0)), Thread([], Removing(0, End, Answered(1, true))),
                          Thread([], Idle), Thread([], Registering(Some(0), 1, Answered(2, true)))]
  {
    hide Reachable, WellFormed;
    s := SceneAnswered();
    s := Arrives(s, CallRegister);
    assert s.threads[3] == Thread([], JoinWindow);
    s := Takes(s, 3);
    assert s.sh == STOPPED.(coordination := Some(0), coordinations := [Coordination(1, 1, false, false)]);
    assert s.threads[3].owed == [] && s.threads[3] == Thread([], Registering(Some(0), 1, ToSend));
    s := Takes(s, 3);
    assert s.threads[3] == Thread([], Registering(Some(0), 1, Sent(2)));
    s := Takes(s, 3);
  }

  lemma FreshCommit()
    ensures
      var sh := STOPPED.(coordination := Some(0), coordinations := [Coordination(1, 1, false, false)]);
      CommitRegister(sh, 2, true, 1, Some(0))
        == (sh.(coordination := None, coordinations := [Coordination(1, 0, false, false)], registered := true,
                lastApplied := 2),
            Verdict(true, false, false), Departure(Some(0), None))
  {
    var sh := STOPPED.(coordination := Some(0), coordinations := [Coordination(1, 1, false, false)]);
    assert CommitRegister(sh, 2, true, 1, Some(0)).0.coordinations == [Coordination(1, 0, false, false)];
  }

  lemma SceneApplied(s0: System) returns (s: System)
    requires Reachable(s0) && s0.network.None?
    requires s0.sh == STOPPED.(coordination := Some(0), coordinations := [Coordination(1, 1, false, false)])
    requires s0.log == [Entry(RemoveOf(0, 1), 1, Returned(true)), Entry(Register(Some(0), 1), 3, Returned(true))]
    requires |s0.threads| == 4 && s0.threads[1] == Thread([], Removing(0, End, Answered(1, true)))
    requires s0.threads[3] == Thread([], Registering(Some(0), 1, Answered(2, true)))
    ensures Reachable(s) && s.network.None? && |s.threads| == 4
    ensures s.sh == STOPPED.(coordinations := [Coordination(1, 0, false, false)], registered := true, lastApplied := 2)
    ensures s.log == [Entry(RemoveOf(0, 1), 1, Returned(true)),
                      Entry(Register(Some(0), 1), 3, Applied(true, true, false))]
    ensures s.threads[1] == Thread([], Removing(0, End, Answered(1, true)))
  {
    FreshCommit();
    hide Reachable, WellFormed, CommitRegister;
    s := Takes(s0, 3);
  }

  /** The register is applied before the Remove, whose completion is then stale. */
  lemma SceneEnded() returns (s: System)
    ensures Reachable(s) && s.network.None?
    ensures s.sh.registered && s.sh.generation == 1 && s.sh.worker.None? && s.sh.coordination.None?
    ensures s.sh.pending.None? && s.sh.active.None? && s.sh.removed.None? && s.sh.removeRequested == Some(1)
    ensures s.sh.stopping == map[] && s.sh.prepared.None?
    ensures s.log == [Entry(RemoveOf(0, 1), 1, Applied(true, false, false)),
                      Entry(Register(Some(0), 1), 3, Applied(true, true, false))]
  {
    hide Reachable, WellFormed;
    s := SceneRegistered();
    s := SceneApplied(s);
    assert s.threads[1] == Thread([], Removing(0, End, Answered(1, true)));
    s := Takes(s, 1);
  }

  /** The promise fails: the Admin accepted a register after the Remove of the same generation, both
      have been applied, and no cleanup can be requested any more. */
  lemma PromiseFails()
    ensures exists s :: Reachable(s) && Bounded(s.sh)
              && s.sh.registered && s.sh.worker.None? && s.sh.pending.None? && s.sh.active.None?
              && |s.log| == 2 && s.log[0].kind == RemoveOf(0, 1) && s.log[1].kind == Register(Some(0), 1)
              && s.log[0].status == Applied(true, false, false) && s.log[1].status == Applied(true, true, false)
              && !Cleanable(s.sh)
  {
    hide Reachable;
    var s := SceneEnded();
    assert Bounded(s.sh) && !Cleanable(s.sh);
  }

  // ---------------------------------------------------------------- a register outside every window

  const CLEANED: Shared :=
    INITIAL.(registered := true, removed := Some(0), removedResult := Some(true), removeRequested := Some(0),
             lastApplied := 3, operations := [Operation(0, false, Some(true), Some(2))],
             coordinations := [Coordination(0, 0, true, true)])

  lemma SceneJoined() returns (s: System)
    ensures Reachable(s) && s.network.None? && s.log == []
    ensures s.sh == INITIAL.(coordination := Some(0), coordinations := [Coordination(0, 1, false, false)])
    ensures s.threads == [Thread([], Registering(Some(0), 0, ToSend))]
  {
    hide Reachable, WellFormed;
    StartIsReachable();
    s := Arrives(START, CallRegister);
    assert s.threads == [Thread([], JoinWindow)];
    s := Takes(s, 0);
    assert s.sh.coordinations == [Coordination(0, 1, false, false)] && s.threads[0].owed == [];
  }

  /** A manual register is in flight when `stop(remove=True)` closes its window. */
  lemma SceneClosed() returns (s: System)
    ensures Reachable(s) && s.network.None? && s.log == []
    ensures s.sh == INITIAL.(coordination := Some(0), coordinations := [Coordination(0, 1, false, true)])
    ensures s.threads == [Thread([], Registering(Some(0), 0, ToSend)), Thread([], Idle)]
  {
    hide Reachable, WellFormed;
    s := SceneJoined();
    s := Arrives(s, CallStop(true));
    assert s.threads[1] == Thread([], StopCall(true));
    s := Takes(s, 1);
    assert s.sh.coordinations == [Coordination(0, 1, false, true)] && s.threads[1].owed == [];
  }

  lemma SceneLate() returns (s: System)
    ensures Reachable(s) && s.network.None?
    ensures s.log == [Entry(Register(Some(0), 0), 0, Returned(true))]
    ensures s.sh == INITIAL.(coordination := Some(0), coordinations := [Coordination(0, 1, false, true)])
    ensures s.threads == [Thread([], Registering(Some(0), 0, Answered(1, true))), Thread([], Idle)]
  {
    hide Reachable, WellFormed;
    s := SceneClosed();
    s := Takes(s, 0);
    assert s.threads[0] == Thread([], Registering(Some(0), 0, Sent(1)));
    s := Takes(s, 0);
  }

  /** Its success makes the Remove Pending. */
  lemma SceneRequested() returns (s: System)
    ensures Reachable(s) && s.network.None?
    ensures s.log == [Entry(Register(Some(0), 0), 0, Applied(true, true, true))]
    ensures s.sh == INITIAL.(coordination := Some(0), coordinations := [Coordination(0, 0, false, true)],
                             registered := true, lastApplied := 1, removeRequested := Some(0), pending := Some(0),
                             operations := [Operation(0, false, None, None)])
    ensures s.threads == [Thread([SignalCoordination(0)], ScheduleRemove(false, End)), Thread([], Idle)]
  {
    LateCommit();
    hide Reachable, WellFormed, CommitRegister;
    s := SceneLate();
    s := Takes(s, 0);
    assert s.threads[0].owed == [SignalCoordination(0)] && s.threads[0].act == ScheduleRemove(false, End);
  }

  lemma ScenePending() returns (s: System)
    ensures Reachable(s) && s.network.None?
    ensures s.log == [Entry(Register(Some(0), 0), 0, Applied(true, true, true))]
    ensures s.sh == INITIAL.(coordination := Some(0), coordinations := [Coordination(0, 0, true, true)],
                             registered := true, lastApplied := 1, removeRequested := Some(0), pending := Some(0),
                             operations := [Operation(0, false, None, None)])
    ensures s.threads == [Thread([], ScheduleRemove(false, End)), Thread([], Idle)]
  {
    hide Reachable, WellFormed;
    s := SceneRequested();
    s := Takes(s, 0);
    assert s.threads[0].owed == [] && s.sh.coordinations == [Coordination(0, 0, true, true)];
  }

  lemma LateCommit()
    ensures
      var sh := INITIAL.(coordination := Some(0), coordinations := [Coordination(0, 1, false, true)]);
      CommitRegister(sh, 1, true, 0, Some(0))
        == (sh.(coordinations := [Coordination(0, 0, false, true)], registered := true, lastApplied := 1,
                removeRequested := Some(0), pending := Some(0), operations := [Operation(0, false, None, None)]),
            Verdict(true, true, true), Departure(Some(0), Some(0)))
  {
    var sh := INITIAL.(coordination := Some(0), coordinations := [Coordination(0, 1, false, true)]);
    var sh' := CommitRegister(sh, 1, true, 0, Some(0)).0;
    assert sh'.operations == [Operation(0, false, None, None)];
    assert sh'.coordinations == [Coordination(0, 0, false, true)];
  }

  /** The cleanup thread has its answer, which is not applied yet. */
  lemma SceneRemoved() returns (s: System)
    ensures Reachable(s) && s.network.None?
    ensures s.log == [Entry(Register(Some(0), 0), 0, Applied(true, true, true)),
                      Entry(RemoveOf(0, 0), 2, Returned(true))]
    ensures s.sh == INITIAL.(coordination := Some(0), coordinations := [Coordination(0, 0, true, true)],
                             registered := true, lastApplied := 1, removeRequested := Some(0), active := Some(0),
                             operations := [Operation(0, false, None, Some(2))])
    ensures s.threads == [Thread([], Idle), Thread([], Idle),
                          Thread([], Removing(0, BackToActor(0), Answered(2, true)))]
  {
    hide Reachable, WellFormed;
    s := ScenePending();
    s := Takes(s, 0);
    assert s.sh.operations == [Operation(0, false, None, Some(2))];
    assert s.threads == [Thread([], Idle), Thread([], Idle), Thread([], ClaimPending(0))];
    s := Takes(s, 2);
    assert s.threads[2] == Thread([], Removing(0, BackToActor(0), ToSend));
    s := Takes(s, 2);
    assert s.threads[2] == Thread([], Removing(0, BackToActor(0), Sent(2)));
    assert s.log[1] == Entry(RemoveOf(0, 0), 2, InFlight);
    s := Takes(s, 2);
  }

  /** Another register finds the window closed, and is answered after the Remove. */
  lemma SceneOutside() returns (s: System)
    ensures Reachable(s) && s.network.None?
    ensures s.log == [Entry(Register(Some(0), 0), 0, Applied(true, true, true)),
                      Entry(RemoveOf(0, 0), 2, Returned(true)), Entry(Register(None, 0), 3, Returned(true))]
    ensures s.sh == INITIAL.(coordination := Some(0), coordinations := [Coordination(0, 0, true, true)],
                             registered := true, lastApplied := 1, removeRequested := Some(0), active := Some(0),
                             operations := [Operation(0, false, None, Some(2))])
    ensures s.threads == [Thread([], Idle), Thread([], Idle),
                          Thread([], Removing(0, BackToActor(0), Answered(2, true))),
                          Thread([], Registering(None, 0, Answered(3, true)))]
  {
    hide Reachable, WellFormed;
    s := SceneRemoved();
    s := Arrives(s, CallRegister);
    assert s.threads[3] == Thread([], JoinWindow);
    s := Takes(s, 3);
    assert s.threads[3].owed == [] && s.threads[3] == Thread([], Registering(None, 0, ToSend));
    s := Takes(s, 3);
    assert s.threads[3] == Thread([], Registering(None, 0, Sent(3)));
    s := Takes(s, 3);
  }

  /** The promise fails for it too: both completions are applied in the order of their RPCs, the cached
      Remove answers every later cleanup, and the register stays at the Admin. */
  lemma PromiseFailsOutside()
    ensures exists s :: Reachable(s) && s.sh == CLEANED && Bounded(s.sh)
              && |s.log| == 3
              && s.log[1] == Entry(RemoveOf(0, 0), 2, Applied(true, true, false))
              && s.log[2] == Entry(Register(None, 0), 3, Applied(true, true, false))
              && !Cleanable(s.sh) && Terminal(s.sh, 0).1 == Cached(true)
  {
    hide Reachable, WellFormed;
    var s := SceneOutside();
    s := Takes(s, 2);
    assert s.sh == CLEANED.(registered := false, lastApplied := 2);
    assert s.threads[3] == Thread([], Registering(None, 0, Answered(3, true)));
    s := Takes(s, 3);
    assert s.sh == CLEANED && Bounded(s.sh) && !Cleanable(s.sh);
  }
}
