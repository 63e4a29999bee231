/**
 * The Admin's side.  What the Admin holds is decided by the RPCs that succeeded there, in the order of
 * their sequences; what the process believes, `registered`, by the completions it accepted.  The two
 * differ in known cases only, and can differ for good.
 */
module RegistryAdmin {
  import opened Options
  import opened RegistryState
  import opened RegistrySystem
  import opened RegistryInvariant
  import opened RegistryTheorems
  import opened RegistryAnswers
  import opened RegistryReopening

  // ---------------------------------------------------------------- what the Admin holds

  /** The Admin has performed the RPC; one that failed is taken to have changed nothing there. */
  predicate Succeeds(e: Entry) {
    !e.status.InFlight? && e.status.ok
  }

  predicate Accepted(e: Entry) {
    e.status.Applied? && e.status.accepted
  }

  /** Whether the Admin holds the executor after the RPCs of the log, in the order of their sequences. */
  function Admin(log: seq<Entry>): bool {
    if log == [] then false
    else
      var last := log[|log| - 1];
      if Succeeds(last) then !TakesAway(last.kind) else Admin(log[..|log| - 1])
  }

  /** Entry `l` is the last RPC that succeeded. */
  predicate LastSuccess(log: seq<Entry>, l: nat) {
    l < |log| && Succeeds(log[l]) && forall j :: l < j < |log| ==> !Succeeds(log[j])
  }

  lemma {:induction false} AdminIsLast(log: seq<Entry>)
    ensures Admin(log) <==> exists l: nat :: LastSuccess(log, l) && !TakesAway(log[l].kind)
  {
    hide TakesAway, Succeeds;
    if log != [] {
      var n := |log| - 1;
      AdminIsLast(log[..n]);
      if Succeeds(log[n]) {
        assert LastSuccess(log, n);
      } else {
        if l: nat :| LastSuccess(log[..n], l) && !TakesAway(log[..n][l].kind) { assert LastSuccess(log, l); }
        if l: nat :| LastSuccess(log, l) && !TakesAway(log[l].kind) { assert LastSuccess(log[..n], l); }
      }
    }
  }

  // ---------------------------------------------------------------- what the process believes

  /** An accepted completion that shows the executor registered, and one that shows it is not. */
  predicate Confirming(e: Entry) {
    Accepted(e) && e.status.ok && !TakesAway(e.kind)
  }

  predicate Denying(e: Entry) {
    Accepted(e) && ((e.kind.Renew? && !e.status.ok) || (TakesAway(e.kind) && e.status.ok))
  }

  /** Entry `i` shows the executor registered and no later one says otherwise. */
  predicate Shows(log: seq<Entry>, i: nat) {
    i < |log| && Confirming(log[i]) && forall j :: i < j < |log| ==> !Denying(log[j])
  }

  lemma ShowsIfDecided(s: System, j: nat)
    requires SnapshotInv(s) && j < |s.history.accepted| && Decides(s.history.accepted, j)
    ensures Shows(s.log, s.history.accepted[j].n - 1)
  {
    var acc := s.history.accepted;
    var i := acc[j].n - 1;
    hide Fold;
    forall m | i < m < |s.log| ensures !Denying(s.log[m]) {
      if Accepted(s.log[m]) { var j' :| 0 <= j' < |acc| && acc[j'].n == m + 1; }
    }
  }

  lemma DecidedIfShows(s: System, i: nat)
    requires SnapshotInv(s) && Shows(s.log, i)
    ensures exists j :: 0 <= j < |s.history.accepted| && Decides(s.history.accepted, j)
  {
    var acc := s.history.accepted;
    hide Fold;
    var j :| 0 <= j < |acc| && acc[j].n == i + 1;
    forall m | j < m < |acc| ensures !Denies(acc[m]) {
      assert acc[m].n > acc[j].n;
      assert AcceptedAs(s.log[acc[m].n - 1], acc[m]);
      assert !Denying(s.log[acc[m].n - 1]);
    }
    assert Decides(acc, j);
  }

  lemma RegisteredFromLog(s: System)
    requires Reachable(s)
    ensures s.sh.registered <==> exists i: nat :: Shows(s.log, i)
  {
    RegisteredMeans(s);
    ReachableHolds(s);
    assert SnapshotInv(s);
    hide Reachable, Inv, SnapshotInv, Decides, Shows;
    var acc := s.history.accepted;
    if s.sh.registered {
      var j :| 0 <= j < |acc| && Decides(acc, j);
      ShowsIfDecided(s, j);
    }
    if i: nat :| Shows(s.log, i) { DecidedIfShows(s, i); }
  }

  // ---------------------------------------------------------------- when the two agree

  /** A failed renewal was accepted after entry `l`. */
  predicate FailsLater(log: seq<Entry>, l: nat) {
    exists j :: l < j < |log| && Accepted(log[j]) && log[j].kind.Renew? && !log[j].status.ok
  }

  /** The entries before entry `l` show the executor registered. */
  predicate ShownBefore(log: seq<Entry>, l: nat)
    requires l <= |log|
  {
    exists i: nat :: i < l && Shows(log[..l], i)
  }

  /** After its last success, entry `l`, the Admin and the process agree: a Remove was accepted, or the
      process did not count the executor as registered anyway; a renewal or register was accepted, or
      the executor was registered before, and no failed renewal has been accepted since. */
  predicate Agrees(log: seq<Entry>, l: nat)
    requires l < |log|
  {
    if TakesAway(log[l].kind) then Accepted(log[l]) || FailsLater(log, l) || !ShownBefore(log, l)
    else !FailsLater(log, l) && (Accepted(log[l]) || ShownBefore(log, l))
  }

  lemma ShownAround(log: seq<Entry>, l: nat)
    requires LastSuccess(log, l)
    ensures (exists i: nat :: Shows(log, i)) <==>
              && !FailsLater(log, l)
              && (if Accepted(log[l]) then !TakesAway(log[l].kind) else ShownBefore(log, l))
  {
    if i: nat :| Shows(log, i) {
      assert i <= l;
      if i < l { assert Shows(log[..l], i); }
    }
    if !FailsLater(log, l) {
      forall j | l < j < |log| ensures !Denying(log[j]) {}
      if Accepted(log[l]) && !TakesAway(log[l].kind) { assert Shows(log, l); }
      if !Accepted(log[l]) && ShownBefore(log, l) {
        var i: nat :| i < l && Shows(log[..l], i);
        forall j | i < j < l ensures !Denying(log[j]) { assert log[..l][j] == log[j]; }
        assert Shows(log, i);
      }
    }
  }

  lemma LastIsUnique(log: seq<Entry>, l: nat, m: nat)
    requires LastSuccess(log, l) && LastSuccess(log, m)
    ensures l == m
  {
  }

  lemma AgreesOnLog(log: seq<Entry>)
    ensures ((exists i: nat :: Shows(log, i)) <==> Admin(log)) <==>
              forall l: nat :: LastSuccess(log, l) ==> Agrees(log, l)
  {
    AdminIsLast(log);
    hide Admin, FailsLater, ShownBefore, TakesAway, LastSuccess;
    if l: nat :| LastSuccess(log, l) {
      ShownAround(log, l);
      forall m: nat | LastSuccess(log, m) ensures m == l { LastIsUnique(log, l, m); }
      hide Shows;
    } else {
      if i: nat :| Shows(log, i) { SuccessHasLast(log, i); }
      hide Shows;
    }
  }

  /** In every reachable state, `registered` is what the Admin holds exactly if the two agree after the
      last RPC that succeeded. */
  lemma AdminAgreesExactly(s: System)
    requires Reachable(s)
    ensures s.sh.registered == Admin(s.log) <==> forall l: nat :: LastSuccess(s.log, l) ==> Agrees(s.log, l)
  {
    RegisteredFromLog(s);
    AgreesOnLog(s.log);
    hide Reachable, Admin, Shows, Agrees, LastSuccess;
  }

  lemma {:induction false} SuccessHasLast(log: seq<Entry>, i: nat)
    requires i < |log| && Succeeds(log[i])
    ensures exists l: nat :: LastSuccess(log, l)
    decreases |log| - i
  {
    hide Succeeds;
    if j :| i < j < |log| && Succeeds(log[j]) { SuccessHasLast(log, j); } else { assert LastSuccess(log, i); }
  }

  /** Once every thread is done, the answer of a register or a Remove that succeeded last was accepted
      unless a newer failure was accepted before it. */
  lemma OnlyFailuresOvertake(s: System, l: nat)
    requires Reachable(s) && forall u :: 0 <= u < |s.threads| ==> Finished(s.threads[u])
    requires LastSuccess(s.log, l) && !s.log[l].kind.Renew? && !Accepted(s.log[l])
    ensures exists j :: l < j < |s.log| && Accepted(s.log[j]) && !s.log[j].status.ok
  {
    hide Reachable, Inv;
    AllApplied(s);
    assert Followed(s, l);
    NewestIsAccepted(s);
    var j := s.sh.lastApplied - 1;
    assert j != l;
    assert !Succeeds(s.log[j]);
  }

  /** The newest completion applied is that of an accepted entry. */
  lemma NewestIsAccepted(s: System)
    requires Reachable(s) && s.sh.lastApplied > 0
    ensures s.sh.lastApplied <= |s.log| && Accepted(s.log[s.sh.lastApplied - 1])
  {
    ReachableHolds(s);
    assert SnapshotInv(s);
    hide Reachable, Inv, Fold;
    var acc := s.history.accepted;
    assert AcceptedAs(s.log[s.sh.lastApplied - 1], acc[|acc| - 1]);
  }

  /** If no failure was accepted after the last RPC that succeeded, and that was a register or a Remove,
      the process is right once every thread is done. */
  lemma AgreesWithoutFailures(s: System, l: nat)
    requires Reachable(s) && forall u :: 0 <= u < |s.threads| ==> Finished(s.threads[u])
    requires LastSuccess(s.log, l) && !s.log[l].kind.Renew?
    requires forall j :: l < j < |s.log| && Accepted(s.log[j]) ==> s.log[j].status.ok
    ensures s.sh.registered == Admin(s.log)
  {
    if !Accepted(s.log[l]) { OnlyFailuresOvertake(s, l); }
    AdminAgreesExactly(s);
    hide Reachable, Admin;
    assert !FailsLater(s.log, l);
    forall m: nat | LastSuccess(s.log, m) ensures m == l {}
  }

  // ---------------------------------------------------------------- two runs in which they differ

  const NO: Choice := Choice(true, false, Proceed)

  /** Two registers are answered, the older with success and the newer with failure. */
  lemma SceneCrossed() returns (s: System)
    ensures Reachable(s) && s.network.None?
    ensures s.sh == INITIAL.(coordination := Some(0), coordinations := [Coordination(0, 2, false, false)])
    ensures s.log == [Entry(Register(Some(0), 0), 0, Returned(true)), Entry(Register(Some(0), 0), 1, Returned(false))]
    ensures s.threads == [Thread([], Registering(Some(0), 0, Answered(1, true))),
                          Thread([], Registering(Some(0), 0, Answered(2, false)))]
  {
    hide Reachable, WellFormed;
    s := SceneJoined();
    s := Arrives(s, CallRegister);
    assert s.threads == [Thread([], Registering(Some(0), 0, ToSend)), Thread([], JoinWindow)];
    s := Takes(s, 1);
    assert s.sh.coordinations == [Coordination(0, 2, false, false)] && s.threads[1].owed == [];
    s := SceneBothSent(s);
  }

  lemma SceneBothSent(s0: System) returns (s: System)
    requires Reachable(s0) && s0.network.None? && s0.log == []
    requires s0.threads == [Thread([], Registering(Some(0), 0, ToSend)), Thread([], Registering(Some(0), 0, ToSend))]
    ensures Reachable(s) && s.network.None? && s.sh == s0.sh
    ensures s.log == [Entry(Register(Some(0), 0), 0, Returned(true)), Entry(Register(Some(0), 0), 1, Returned(false))]
    ensures s.threads == [Thread([], Registering(Some(0), 0, Answered(1, true))),
                          Thread([], Registering(Some(0), 0, Answered(2, false)))]
  {
    hide Reachable, WellFormed;
    s := Takes(s0, 0);
    assert s.threads[0] == Thread([], Registering(Some(0), 0, Sent(1)));
    s := Takes(s, 0);
    assert s.threads[1] == Thread([], Registering(Some(0), 0, ToSend));
    s := Takes(s, 1);
    assert s.threads[1] == Thread([], Registering(Some(0), 0, Sent(2)));
    s := TakesWith(s, 1, NO);
  }

  lemma CrossedCommits()
    ensures
      var sh := INITIAL.(coordination := Some(0), coordinations := [Coordination(0, 2, false, false)]);
      CommitRegister(sh, 2, false, 0, Some(0))
        == (sh.(coordinations := [Coordination(0, 1, false, false)], lastApplied := 2),
            Verdict(true, false, false), Departure(None, None))
    ensures
      var row := Coordination(0, 1, false, false);
      var sh := INITIAL.(coordination := Some(0), coordinations := [row], lastApplied := 2);
      CommitRegister(sh, 1, true, 0, Some(0))
        == (sh.(coordination := None, coordinations := [Coordination(0, 0, false, false)]),
            Verdict(false, false, false), Departure(Some(0), None))
  {
    var two := INITIAL.(coordination := Some(0), coordinations := [Coordination(0, 2, false, false)]);
    var one := two.(coordinations := [Coordination(0, 1, false, false)], lastApplied := 2);
    assert CommitRegister(two, 2, false, 0, Some(0)).0.coordinations == [Coordination(0, 1, false, false)];
    assert CommitRegister(one, 1, true, 0, Some(0)).0.coordinations == [Coordination(0, 0, false, false)];
  }

  lemma SceneCrossedEnd() returns (s: System)
    ensures Reachable(s) && s.threads == [Thread([], Idle), Thread([], Idle)]
    ensures s.log == [Entry(Register(Some(0), 0), 0, Applied(true, false, false)),
                      Entry(Register(Some(0), 0), 1, Applied(false, true, false))]
    ensures s.sh == INITIAL.(coordinations := s.sh.coordinations, lastApplied := 2)
  {
    s := SceneCrossed();
    CrossedCommits();
    hide Reachable, WellFormed, CommitRegister;
    s := Takes(s, 1);
    assert s.threads[1] == Thread([], Idle);
    s := Takes(s, 0);
    assert s.log == [Entry(Register(Some(0), 0), 0, Applied(true, false, false)),
                     Entry(Register(Some(0), 0), 1, Applied(false, true, false))];
    assert s.threads[0].owed == [SignalCoordination(0)] && s.threads[0].act == Idle;
    s := Takes(s, 0);
  }

  /** The failure is applied first, and makes the success stale: every thread is done, the Admin holds the
      executor, the process does not count it as registered, and no cleanup can be requested. */
  lemma StaleSuccessIsLost()
    ensures exists s :: Reachable(s) && Bounded(s.sh)
              && (forall u :: 0 <= u < |s.threads| ==> Finished(s.threads[u]))
              && Admin(s.log) && !s.sh.registered && !Cleanable(s.sh)
  {
    hide Reachable;
    var s := SceneCrossedEnd();
    CrossedLog(s.log);
    assert Bounded(s.sh) && !Cleanable(s.sh);
    forall u | 0 <= u < |s.threads| ensures Finished(s.threads[u]) {}
  }

  lemma CrossedLog(log: seq<Entry>)
    requires |log| == 2 && Succeeds(log[0]) && !TakesAway(log[0].kind) && !Succeeds(log[1])
    ensures Admin(log)
  {
    assert LastSuccess(log, 0);
    AdminIsLast(log);
  }

  /** A register has been applied. */
  const HELD: Shared :=
    INITIAL.(registered := true, lastApplied := 1, coordinations := [Coordination(0, 0, true, false)])

  lemma HeldCommit()
    ensures
      var sh := INITIAL.(coordination := Some(0), coordinations := [Coordination(0, 1, false, false)]);
      CommitRegister(sh, 1, true, 0, Some(0))
        == (HELD.(coordinations := [Coordination(0, 0, false, false)]), Verdict(true, true, false),
            Departure(Some(0), None))
  {
    var sh := INITIAL.(coordination := Some(0), coordinations := [Coordination(0, 1, false, false)]);
    assert CommitRegister(sh, 1, true, 0, Some(0)).0.coordinations == [Coordination(0, 0, false, false)];
  }

  lemma SceneSent() returns (s: System)
    ensures Reachable(s) && s.network.None?
    ensures s.sh == INITIAL.(coordination := Some(0), coordinations := [Coordination(0, 1, false, false)])
    ensures s.log == [Entry(Register(Some(0), 0), 0, Returned(true))]
    ensures s.threads == [Thread([], Registering(Some(0), 0, Answered(1, true)))]
  {
    hide Reachable, WellFormed;
    s := SceneJoined();
    s := Takes(s, 0);
    assert s.threads[0] == Thread([], Registering(Some(0), 0, Sent(1)));
    s := Takes(s, 0);
  }

  lemma SceneHeld() returns (s: System)
    ensures Reachable(s) && s.network.None? && s.sh == HELD
    ensures s.log == [Entry(Register(Some(0), 0), 0, Applied(true, true, false))] && s.threads == [Thread([], Idle)]
  {
    HeldCommit();
    hide Reachable, WellFormed, CommitRegister;
    s := SceneSent();
    s := Takes(s, 0);
    assert s.threads[0].owed == [SignalCoordination(0)] && s.threads[0].act == Idle;
    s := Takes(s, 0);
    assert s.sh.coordinations == HELD.coordinations;
  }

  /** Its Remove is answered and not applied. */
  lemma SceneRemoveAnswered() returns (s: System)
    ensures Reachable(s) && s.network.None?
    ensures s.sh == HELD.(active := Some(0), operations := [Operation(0, false, None, None)])
    ensures s.log == [Entry(Register(Some(0), 0), 0, Applied(true, true, false)),
                      Entry(RemoveOf(0, 0), 1, Returned(true))]
    ensures s.threads == [Thread([], Idle), Thread([], Removing(0, ReadBack(0), Answered(2, true)))]
  {
    hide Reachable, WellFormed;
    s := SceneHeld();
    s := Arrives(s, CallRemove);
    assert s.threads == [Thread([], Idle), Thread([], RemoveEntry)];
    s := Takes(s, 1);
    assert s.threads[1] == Thread([], TerminalTurn(0));
    s := Takes(s, 1);
    assert s.threads[1] == Thread([], Removing(0, ReadBack(0), ToSend));
    s := Takes(s, 1);
    assert s.threads[1] == Thread([], Removing(0, ReadBack(0), Sent(2)));
    s := Takes(s, 1);
  }

  lemma OvertakingCommit()
    ensures
      var sh := HELD.(active := Some(0), operations := [Operation(0, false, None, None)], coordination := Some(1),
                      coordinations := [Coordination(0, 0, true, false), Coordination(0, 1, false, false)]);
      CommitRegister(sh, 3, false, 0, Some(1))
        == (sh.(coordination := None, lastApplied := 3,
                coordinations := [Coordination(0, 0, true, false), Coordination(0, 0, false, false)]),
            Verdict(true, false, false), Departure(Some(1), None))
  {
    var sh := HELD.(active := Some(0), operations := [Operation(0, false, None, None)], coordination := Some(1),
                    coordinations := [Coordination(0, 0, true, false), Coordination(0, 1, false, false)]);
    assert CommitRegister(sh, 3, false, 0, Some(1)).0.coordinations
           == [Coordination(0, 0, true, false), Coordination(0, 0, false, false)];
  }

  /** A register fails after it. */
  lemma SceneBothAnswered() returns (s: System)
    ensures Reachable(s) && s.network.None?
    ensures s.sh == HELD.(active := Some(0), operations := [Operation(0, false, None, None)], coordination := Some(1),
                          coordinations := [Coordination(0, 0, true, false), Coordination(0, 1, false, false)])
    ensures s.log == [Entry(Register(Some(0), 0), 0, Applied(true, true, false)),
                      Entry(RemoveOf(0, 0), 1, Returned(true)), Entry(Register(Some(1), 0), 2, Returned(false))]
    ensures s.threads == [Thread([], Idle), Thread([], Removing(0, ReadBack(0), Answered(2, true))),
                          Thread([], Registering(Some(1), 0, Answered(3, false)))]
  {
    hide Reachable, WellFormed;
    s := SceneRemoveAnswered();
    s := Arrives(s, CallRegister);
    assert s.threads[2] == Thread([], JoinWindow);
    s := Takes(s, 2);
    assert s.sh.coordinations == [Coordination(0, 0, true, false), Coordination(0, 1, false, false)];
    assert s.threads[2] == Thread([], Registering(Some(1), 0, ToSend));
    s := Takes(s, 2);
    assert s.threads[2] == Thread([], Registering(Some(1), 0, Sent(3)));
    s := TakesWith(s, 2, NO);
  }

  /** Its failure is applied first. */
  lemma SceneOvertaken() returns (s: System)
    ensures Reachable(s) && s.network.None? && |s.sh.coordinations| == 2
    ensures s.sh == HELD.(active := Some(0), operations := [Operation(0, false, None, None)], lastApplied := 3,
                          coordinations := s.sh.coordinations)
    ensures s.log == [Entry(Register(Some(0), 0), 0, Applied(true, true, false)),
                      Entry(RemoveOf(0, 0), 1, Returned(true)),
                      Entry(Register(Some(1), 0), 2, Applied(false, true, false))]
    ensures s.threads == [Thread([], Idle), Thread([], Removing(0, ReadBack(0), Answered(2, true))), Thread([], Idle)]
  {
    OvertakingCommit();
    hide Reachable, WellFormed, CommitRegister;
    s := SceneBothAnswered();
    s := Takes(s, 2);
    assert s.threads[2].owed == [SignalCoordination(1)] && s.threads[2].act == Idle;
    s := Takes(s, 2);
  }

  lemma SceneStale() returns (s: System)
    ensures Reachable(s) && s.sh.registered && s.sh.pending.None? && s.sh.active.None?
    ensures |s.sh.operations| == 1 && s.sh.operations[0].result == Some(true)
    ensures s.log == [Entry(Register(Some(0), 0), 0, Applied(true, true, false)),
                      Entry(RemoveOf(0, 0), 1, Applied(true, false, false)),
                      Entry(Register(Some(1), 0), 2, Applied(false, true, false))]
    ensures s.threads == [Thread([], Idle), Thread([], ScheduleRemove(false, ReadBack(0))), Thread([], Idle)]
  {
    hide Reachable, WellFormed;
    s := SceneOvertaken();
    s := Takes(s, 1);
    assert s.threads[1].owed == [SignalOperation(0)] && s.threads[1].act == ScheduleRemove(false, ReadBack(0));
    s := Takes(s, 1);
  }

  /** The Remove is stale then: every thread is done, the Admin no longer holds the executor, and the process
      counts it as registered. */
  lemma StaleRemoveIsLost()
    ensures exists s :: Reachable(s) && (forall u :: 0 <= u < |s.threads| ==> Finished(s.threads[u]))
              && !Admin(s.log) && s.sh.registered
  {
    hide Reachable, WellFormed;
    var s := SceneStale();
    s := Takes(s, 1);
    assert s.threads[1] == Thread([], ReadResult(0));
    s := Takes(s, 1);
    assert s.threads == [Thread([], Idle), Thread([], Idle), Thread([], Idle)];
    RemovedLog(s.log);
    forall u | 0 <= u < |s.threads| ensures Finished(s.threads[u]) {}
  }

  lemma RemovedLog(log: seq<Entry>)
    requires |log| == 3 && Succeeds(log[1]) && TakesAway(log[1].kind) && !Succeeds(log[2])
    ensures !Admin(log)
  {
    assert LastSuccess(log, 1);
    AdminIsLast(log);
  }
}
