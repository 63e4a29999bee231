/**
 * How much work is left.  A thread carries a charge that pays for every step it can still make, for the
 * events it owes and for the threads it starts; a Pending Remove without an actor carries the charge of
 * its actor.  The loops that charge nothing, an observer that looks again and a stopped Worker on its way
 * out, move along local counters instead.
 */
module RegistryRank {
  import opened Options
  import opened RegistryState
  import opened RegistrySystem
  import opened RegistryInvariant
  import opened RegistrySections

  // ---------------------------------------------------------------- charges

  function RpcCharge(r: Rpc): nat {
    match r
    case ToSend => 2
    case Sent(_) => 1
    case Answered(_, _) => 0
  }

  /** The charge of a scheduler that goes on with `r`. */
  function ReturnCharge(r: Return): nat {
    match r
    case End => 1
    case ReadBack(_) => 2
    case BackToActor(_) => 3
    case AwaitPending(_, _) => 8
  }

  function Charge(a: Action): nat {
    match a
    case Renewing(_, _) => 7
    case Removing(_, r, p) => ReturnCharge(r) + 3 + RpcCharge(p)
    case ScheduleRemove(_, r) => ReturnCharge(r)
    case ClaimPending(_) => 9
    case EndActor(_) => 2
    case JoinWindow => 17
    case Registering(_, _, p) => 13 + RpcCharge(p)
    case RemoveEntry => 9
    case TerminalTurn(_) => 8
    case AwaitRegisters(_, _) => 8
    case AwaitOperation(_, _, _) => 8
    case ReadResult(_) => 1
    case OneShotRemoving(p) => 1 + RpcCharge(p)
    case PrepareStart => 14
    case OwnStart(_) => 6
    case AfterActivation(_) => 2
    case StopCall(_) => 13
    case ShutdownCall(_) => 14
    case ShutdownRequest(_) => 12
    case Idle => 0
    case Broken => 0
  }

  function ThreadCharge(th: Thread): nat {
    |th.owed| + Charge(th.act)
  }

  /** The charge of a Pending Remove that no actor has been started for. */
  const PENDING: nat := 10

  function PendingCharge(sh: Shared): nat
    requires Bounded(sh)
  {
    if sh.pending.Some? && sh.operations[sh.pending.value].thread.None? then PENDING else 0
  }

  // ---------------------------------------------------------------- local counters

  function PhasesLeft(p: Phase): nat {
    match p
    case Gate => 12
    case EntryCheck => 11
    case FirstCheck => 10
    case AwaitOld => 9
    case Loop => 8
    case Acquire => 7
    case Check => 6
    case Calling(ToSend) => 5
    case Calling(Sent(_)) => 4
    case Calling(Answered(_, _)) => 3
    case Interval => 2
    case Last => 1
  }

  function OperationTurns(sh: Shared, o: nat, turns: nat, blocked: nat): nat {
    if o < |sh.operations| && sh.operations[o].done then turns else blocked
  }

  /** The steps a thread can make before it spends its charge or waits; none are counted for the Worker. */
  function LocalSteps(sh: Shared, a: Action): nat {
    match a
    case Renewing(c, p) => if sh.worker == Some(c) then 0 else PhasesLeft(p)
    case TerminalTurn(_) => 4
    case ScheduleRemove(_, AwaitPending(o, _)) => OperationTurns(sh, o, 6, 3)
    case AwaitOperation(o, _, _) => OperationTurns(sh, o, 5, 0)
    case AwaitRegisters(k, _) => if k < |sh.coordinations| && sh.coordinations[k].done then 5 else 0
    case _ => 0
  }

  const MOST_STEPS: nat := 12

  function TotalCharge(threads: seq<Thread>): nat {
    if threads == [] then 0
    else TotalCharge(threads[..|threads| - 1]) + ThreadCharge(threads[|threads| - 1])
  }

  function TotalSteps(sh: Shared, threads: seq<Thread>): nat {
    if threads == [] then 0
    else TotalSteps(sh, threads[..|threads| - 1]) + LocalSteps(sh, threads[|threads| - 1].act)
  }

  lemma {:induction false} ChargeAfter(threads: seq<Thread>, t: nat, th: Thread)
    requires t < |threads|
    ensures TotalCharge(threads[t := th]) + ThreadCharge(threads[t]) == TotalCharge(threads) + ThreadCharge(th)
  {
    hide ThreadCharge;
    var n := |threads| - 1;
    if t == n {
      assert threads[t := th][..n] == threads[..n];
    } else {
      assert threads[t := th][..n] == threads[..n][t := th];
      ChargeAfter(threads[..n], t, th);
    }
  }

  lemma ChargeOfMore(threads: seq<Thread>, th: Thread)
    ensures TotalCharge(threads + [th]) == TotalCharge(threads) + ThreadCharge(th)
  {
    assert (threads + [th])[..|threads|] == threads;
  }

  lemma {:induction false} StepsAfter(sh: Shared, threads: seq<Thread>, t: nat, th: Thread)
    requires t < |threads|
    ensures TotalSteps(sh, threads[t := th]) + LocalSteps(sh, threads[t].act)
            == TotalSteps(sh, threads) + LocalSteps(sh, th.act)
  {
    hide LocalSteps;
    var n := |threads| - 1;
    if t == n {
      assert threads[t := th][..n] == threads[..n];
    } else {
      assert threads[t := th][..n] == threads[..n][t := th];
      StepsAfter(sh, threads[..n], t, th);
    }
  }

  lemma {:induction false} StepsAreFew(sh: Shared, threads: seq<Thread>)
    ensures TotalSteps(sh, threads) <= MOST_STEPS * |threads|
  {
    if threads != [] {
      StepsAreFew(sh, threads[..|threads| - 1]);
      assert LocalSteps(sh, threads[|threads| - 1].act) <= MOST_STEPS;
    }
  }

  /** Only the Worker and the events decide the local counters. */
  lemma {:induction false} StepsDependOn(sh: Shared, sh': Shared, threads: seq<Thread>)
    requires sh'.worker == sh.worker && sh'.operations == sh.operations && sh'.coordinations == sh.coordinations
    ensures TotalSteps(sh', threads) == TotalSteps(sh, threads)
  {
    if threads != [] {
      StepsDependOn(sh, sh', threads[..|threads| - 1]);
      assert LocalSteps(sh', threads[|threads| - 1].act) == LocalSteps(sh, threads[|threads| - 1].act);
    }
  }

  // ---------------------------------------------------------------- what sections leave alone

  /** No section sets the event of a window, puts a window back into the slot, binds an actor, lets an
      operation return to Pending or fills the Active slot beside a Remove that stays Pending; the
      exceptions are a join and the start of an actor. */
  ghost predicate Tame(sh: Shared, sh': Shared) {
    && (sh'.coordination == sh.coordination || sh'.coordination.None?)
    && |sh'.coordinations| == |sh.coordinations|
    && (forall k :: 0 <= k < |sh.coordinations| ==> sh'.coordinations[k].done == sh.coordinations[k].done)
    && |sh.operations| <= |sh'.operations|
    && (forall o :: 0 <= o < |sh.operations| ==>
          || sh'.operations[o].thread == sh.operations[o].thread
          || (sh'.operations[o].thread.None? && sh'.pending != Some(o)))
    && (sh'.pending.Some? ==>
          || (sh'.pending == sh.pending && (sh.active.None? ==> sh'.active.None?))
          || (sh'.pending.value == |sh.operations| < |sh'.operations|
              && sh'.operations[|sh.operations|].thread.None?))
  }

  lemma TameCharge(sh: Shared, sh': Shared)
    requires Bounded(sh) && Bounded(sh') && Tame(sh, sh')
    ensures PendingCharge(sh') <= PendingCharge(sh) + PENDING
    ensures sh'.pending == sh.pending || sh'.pending.None? ==> PendingCharge(sh') <= PendingCharge(sh)
  {
  }

  lemma TameFinish(sh: Shared, c: nat)
    requires Bounded(sh) && c < |sh.contexts|
    ensures var sh' := Finish(sh, c).0;
      Bounded(sh') && Tame(sh, sh') && (sh'.pending == sh.pending || sh'.pending.None?)
  {
  }

  lemma TameRenewal(sh: Shared, c: nat, n: nat, ok: bool)
    requires Bounded(sh) && c < |sh.contexts|
    ensures var sh' := CommitRenewal(sh, c, n, ok).0;
      Tame(sh, sh') && sh'.pending == sh.pending && sh'.operations == sh.operations
      && sh'.coordinations == sh.coordinations && sh'.worker == sh.worker
      && (CommitRenewal(sh, c, n, ok).1.current <==> Current(sh, c)) && (!Current(sh, c) ==> sh' == sh)
  {
  }

  lemma TameComplete(sh: Shared, o: nat, n: nat, ok: bool)
    requires Slots(sh) && sh.active == Some(o)
    ensures var sh' := Complete(sh, o, n, ok).0;
      Tame(sh, sh') && (sh'.pending == sh.pending || sh'.pending.None?)
  {
    CompleteEffect(sh, o, n, ok);
    hide Complete;
  }

  lemma TameFailedStart(sh: Shared, alive: bool, thread: nat)
    requires Slots(sh) && Schedule(sh, alive, thread, false).1.StartFailed?
    ensures Tame(sh, Schedule(sh, alive, thread, false).0)
    ensures PendingCharge(Schedule(sh, alive, thread, false).0) == 0
    ensures sh.pending == Some(Schedule(sh, alive, thread, false).1.operation)
  {
    StartFailedEffect(sh, alive, thread);
    hide Schedule;
  }

  /** A section that may create the Pending Remove and clear the window. */
  ghost predicate Creates(sh: Shared, sh': Shared, g: nat) {
    && sh' == sh.(coordination := sh'.coordination, removeRequested := sh'.removeRequested,
                  pending := sh'.pending, operations := sh'.operations)
    && (sh'.coordination == sh.coordination || sh'.coordination.None?)
    && ((sh'.pending == sh.pending && sh'.operations == sh.operations)
        || (sh'.pending == Some(|sh.operations|)
            && sh'.operations == sh.operations + [Operation(g, false, None, None)]))
  }

  lemma CreatesIsTame(sh: Shared, sh': Shared, g: nat)
    requires Creates(sh, sh', g)
    ensures Tame(sh, sh')
  {
  }

  lemma EnsureCreates(sh: Shared, g: nat)
    requires Bounded(sh)
    ensures Creates(sh, EnsurePending(sh, g).0, g) && EnsurePending(sh, g).0.coordination == sh.coordination
  {
  }

  lemma ReconcileCreates(sh: Shared, k: nat)
    requires Bounded(sh) && k < |sh.coordinations|
    ensures Creates(sh, Reconcile(sh, k).0, sh.coordinations[k].generation)
  {
    EnsureCreates(sh, sh.coordinations[k].generation);
    hide EnsurePending;
  }

  lemma TameReconcile(sh: Shared, k: nat)
    requires Bounded(sh) && k < |sh.coordinations|
    ensures Tame(sh, Reconcile(sh, k).0)
    ensures Reconcile(sh, k).0.coordinations == sh.coordinations && Reconcile(sh, k).0.worker == sh.worker
  {
    ReconcileCreates(sh, k);
    CreatesIsTame(sh, Reconcile(sh, k).0, sh.coordinations[k].generation);
    hide Reconcile, Tame;
  }

  /** A section that touches only the snapshot and the cleanup cache. */
  lemma ApplyRecords(sh: Shared, n: nat, ok: bool, g: nat, k: Option<nat>)
    requires Bounded(sh) && (k.Some? ==> k.value < |sh.coordinations|)
    ensures var sh' := ApplyRegister(sh, n, ok, g, k).0;
      sh' == sh.(registered := sh'.registered, lastApplied := sh'.lastApplied, removed := sh'.removed,
                 removedResult := sh'.removedResult, removeRequested := sh'.removeRequested)
  {
  }

  lemma TameLeave(sh: Shared, k: nat)
    requires Bounded(sh) && k < |sh.coordinations|
    ensures Tame(sh, Leave(sh, k).0)
    ensures Leave(sh, k).1.signal.Some? ==>
              Leave(sh, k).1.signal == Some(k) && k < |Leave(sh, k).0.coordinations|
              && Leave(sh, k).0.coordinations[k].inflight == 0
  {
    var row := sh.coordinations[k];
    var left := if row.inflight > 0 then row.inflight - 1 else 0;
    TameReconcile(sh.(coordinations := sh.coordinations[k := row.(inflight := left)]), k);
    hide Reconcile;
  }

  /** The event that a leaving register owes is that of an empty window. */
  lemma TameRegister(sh: Shared, n: nat, ok: bool, g: nat, k: Option<nat>)
    requires Bounded(sh) && (k.Some? ==> k.value < |sh.coordinations|)
    ensures Tame(sh, CommitRegister(sh, n, ok, g, k).0)
    ensures var (sh', _, left) := CommitRegister(sh, n, ok, g, k);
      left.signal.Some? ==> k == left.signal && k.value < |sh'.coordinations|
                            && sh'.coordinations[k.value].inflight == 0
  {
    ApplyRecords(sh, n, ok, g, k);
    if k.Some? { TameLeave(ApplyRegister(sh, n, ok, g, k).0, k.value); }
    hide ApplyRegister, Leave;
  }

  lemma RegisterCharge(sh: Shared, n: nat, ok: bool, g: nat, k: Option<nat>)
    requires Bounded(sh) && (k.Some? ==> k.value < |sh.coordinations|)
    ensures PendingCharge(CommitRegister(sh, n, ok, g, k).0) <= PendingCharge(sh) + PENDING
  {
    hide CommitRegister, PendingCharge, Tame;
    TameRegister(sh, n, ok, g, k);
    TameCharge(sh, CommitRegister(sh, n, ok, g, k).0);
  }

  lemma TameTerminal(sh: Shared, g: nat)
    requires Slots(sh)
    ensures var sh' := Terminal(sh, g).0;
      Bounded(sh') && Tame(sh, sh') && sh'.pending == sh.pending
  {
    TerminalSlots(sh, g);
  }

  lemma TamePrepare(sh: Shared, thread: nat, started: bool)
    requires Bounded(sh)
    ensures var (sh', token) := Prepare(sh, thread, started);
      Bounded(sh') && Tame(sh, sh') && sh'.pending == sh.pending && (token.None? ==> sh' == sh)
  {
  }

  lemma TameActivate(sh: Shared, c: nat)
    requires Bounded(sh) && c < |sh.contexts|
    ensures var (sh', out) := Activate(sh, c);
      Bounded(sh') && Tame(sh, sh') && (sh'.pending == sh.pending || sh'.pending.None?)
      && (if out.Activated? then sh'.coordination.None? else sh' == sh)
  {
  }

  lemma TameSettle(sh: Shared, c: nat)
    requires Bounded(sh) && c < |sh.contexts|
    ensures Bounded(Cancel(sh, c).0) && Tame(sh, Cancel(sh, c).0) && Cancel(sh, c).0.pending == sh.pending
    ensures !Cancel(sh, c).1 ==> Cancel(sh, c).0 == sh
    ensures !Settle(sh, c).1.CancelUncommitted? ==> Settle(sh, c).0 == sh
    ensures Bounded(Settle(sh, c).0) && Tame(sh, Settle(sh, c).0) && Settle(sh, c).0.pending == sh.pending
  {
  }

  lemma RequestCreates(sh: Shared)
    requires Bounded(sh)
    ensures RequestRemove(sh).0.coordinations == sh.coordinations ==> Creates(sh, RequestRemove(sh).0, sh.generation)
    ensures RequestRemove(sh).0.coordinations != sh.coordinations ==>
              sh.coordination.Some? && Creates(Closed(sh, sh.coordination.value), RequestRemove(sh).0, sh.generation)
  {
    EnsureCreates(sh, sh.generation);
    if sh.coordination.Some? {
      var closed := Closed(sh, sh.coordination.value);
      ReconcileCreates(closed, sh.coordination.value);
      EnsureCreates(Reconcile(closed, sh.coordination.value).0, sh.generation);
    }
    hide Reconcile, EnsurePending;
  }

  function Closed(sh: Shared, k: nat): Shared
    requires k < |sh.coordinations|
  {
    sh.(coordinations := sh.coordinations[k := sh.coordinations[k].(cleanupRequested := true)])
  }

  lemma TameRequest(sh: Shared)
    requires Bounded(sh)
    ensures Tame(sh, RequestRemove(sh).0)
  {
    RequestCreates(sh);
    if RequestRemove(sh).0.coordinations == sh.coordinations {
      CreatesIsTame(sh, RequestRemove(sh).0, sh.generation);
    } else {
      CreatesIsTame(Closed(sh, sh.coordination.value), RequestRemove(sh).0, sh.generation);
    }
    hide RequestRemove, Creates;
  }

  lemma StopLocalOnly(sh: Shared)
    requires Bounded(sh)
    ensures StopLocal(sh) == sh.(worker := StopLocal(sh).worker, stopping := StopLocal(sh).stopping,
                                 contexts := StopLocal(sh).contexts)
  {
  }

  lemma TameStop(sh: Shared, remove: bool)
    requires Bounded(sh)
    ensures Bounded(Stop(sh, remove).0) && Tame(sh, Stop(sh, remove).0)
  {
    hide RequestRemove, StopLocal;
    var sh1 := StopLocal(sh.(prepared := None));
    StopLocalOnly(sh.(prepared := None));
    if remove { TameRequest(sh1); }
  }

  lemma TameShutdown(sh: Shared, deregister: bool)
    requires Bounded(sh)
    ensures Bounded(Shutdown(sh, deregister).0) && Tame(sh, Shutdown(sh, deregister).0)
    ensures Shutdown(sh, deregister).0.pending == sh.pending
  {
  }

  lemma TameShutdownRequest(sh: Shared, g: nat)
    requires Bounded(sh)
    ensures Bounded(ShutdownRemove(sh, g).0) && Tame(sh, ShutdownRemove(sh, g).0)
  {
    TameRequest(sh);
    hide RequestRemove;
  }
}
