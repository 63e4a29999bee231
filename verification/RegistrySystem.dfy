/**
 * The Registry protocol as threads that interleave.
 *
 * A thread is the events it has yet to set and the action it performs next.  One step of a thread
 * is one event, one `state_lock` section, one acquisition of `network_lock` with the sequence it
 * numbers, or one return of an Admin RPC, which releases the lock and leaves the completion to a
 * later step.  `History` holds what the program does not store but properties of runs speak about;
 * no step depends on it.
 */
module RegistrySystem {
  import opened Options
  import opened RegistryState

  // ---------------------------------------------------------------- threads

  datatype Signal = SignalOperation(o: nat) | SignalCoordination(k: nat) | SignalGate(c: nat)

  /** What a caller of the Remove executor or of the scheduler does when it returns. */
  datatype Return =
    | End
    | BackToActor(o: nat)
    | ReadBack(o: nat)
    | AwaitPending(o: nat, g: nat)

  datatype Wait = SameActive | SamePending | Other

  /** An Admin RPC: about to be sent, sent with its sequence, answered but not yet applied. */
  datatype Rpc = ToSend | Sent(n: nat) | Answered(n: nat, ok: bool)

  /** Where a renewal thread is, from its activation gate to the end of `_finish_worker`. */
  datatype Phase =
    | Gate
    | EntryCheck
    | FirstCheck
    | AwaitOld
    | Loop
    | Acquire
    | Check
    | Calling(rpc: Rpc)
    | Interval
    | Last

  datatype Action =
    | Renewing(c: nat, phase: Phase)
    // `_execute_remove`, `_schedule_pending_remove` and the cleanup actor around them
    | Removing(o: nat, next: Return, rpc: Rpc)
    | ScheduleRemove(raising: bool, next: Return)
    | ClaimPending(o: nat)
    | EndActor(o: nat)
    // `register_once_result`
    | JoinWindow
    | Registering(window: Option<nat>, g: nat, rpc: Rpc)
    // `remove_once_result`
    | RemoveEntry
    | TerminalTurn(g: nat)
    | AwaitRegisters(k: nat, g: nat)
    | AwaitOperation(o: nat, g: nat, wait: Wait)
    | ReadResult(o: nat)
    | OneShotRemoving(rpc: Rpc)
    // `start`, and `init_app` between its preparation and its end
    | PrepareStart
    | OwnStart(c: nat)
    | AfterActivation(c: nat)
    // `stop` and `shutdown`
    | StopCall(remove: bool)
    | ShutdownCall(deregister: bool)
    | ShutdownRequest(g: nat)
    | Idle
    // a branch the program answers with an internal error
    | Broken

  datatype Thread = Thread(owed: seq<Signal>, act: Action)

  predicate Finished(th: Thread) {
    th.owed == [] && th.act.Idle?
  }

  function After(r: Return): Action {
    match r
    case End => Idle
    case BackToActor(o) => EndActor(o)
    case ReadBack(o) => ReadResult(o)
    case AwaitPending(o, g) => AwaitOperation(o, g, SamePending)
  }

  // ---------------------------------------------------------------- RPC log

  datatype Kind =
    | Renew(c: nat, generation: nat)
    | Register(k: Option<nat>, generation: nat)
    | RemoveOf(o: nat, generation: nat)
    | OneShotRemove

  predicate TakesAway(kind: Kind) {
    kind.RemoveOf? || kind.OneShotRemove?
  }

  datatype Status = InFlight | Returned(ok: bool) | Applied(ok: bool, accepted: bool, late: bool)

  /** The RPC with sequence `n` is entry `n - 1`; `thread` is the one that issued it. */
  datatype Entry = Entry(kind: Kind, thread: nat, status: Status)

  /** One accepted completion: its sequence, its source and its success. */
  datatype Acceptance = Acceptance(n: nat, source: Source, ok: bool)

  /** What a call of `register_once` or `remove_once` ends with: a result, or the exception of a cleanup
      thread that cannot start. */
  datatype Answer = Says(ok: bool) | Raises

  datatype History = History(
    holder: nat,                    // thread that claimed the Active Remove
    claimed: set<nat>,              // operations that have been Active
    sent: map<nat, nat>,            // operation -> sequence of its RPC
    operationDebtor: map<nat, nat>, // operation -> thread that took it out of its slot
    committed: set<nat>,            // contexts that became the Worker
    finished: set<nat>,             // contexts that passed `_finish_worker`
    starter: map<nat, nat>,         // context -> thread that prepared it
    waker: map<nat, nat>,           // context -> thread that took its prepared start
    members: map<nat, set<nat>>,    // coordination -> threads between join and commit
    debt: map<nat, nat>,            // coordination -> last register accepted after its cleanup request
    coordinationDebtor: map<nat, nat>,
    startFailed: map<nat, nat>,     // coordination -> sequence applied when its cleanup thread last failed to start
    origin: map<nat, nat>,          // lifecycle Remove -> coordination installed at its creation
    removedBy: nat,                 // sequence of the cached successful Remove
    topKey: nat,                    // lifecycle key of the latest renewal or Remove operation RPC
    removeSent: nat,                // latest Remove operation RPC of the current generation
    created: multiset<nat>,         // generations of the lifecycle Removes created
    reopened: multiset<nat>,        // generations whose responsibility was reopened
    accepted: seq<Acceptance>,
    answers: map<nat, Answer>)      // thread -> what its call has ended with

  datatype System = System(
    sh: Shared,
    network: Option<nat>,
    log: seq<Entry>,
    threads: seq<Thread>,
    history: History)

  const NO_HISTORY: History :=
    History(0, {}, map[], map[], {}, {}, map[], map[], map[], map[], map[], map[], map[],
            0, 0, 0, multiset{}, multiset{}, [], map[])

  const START: System := System(INITIAL, None, [], [], NO_HISTORY)

  /** Renewals and Remove operations ordered by generation, renewals before the Remove. */
  function Key(kind: Kind): Option<nat> {
    match kind
    case Renew(_, g) => Some(2 * g)
    case RemoveOf(_, g) => Some(2 * g + 1)
    case _ => None
  }

  // ---------------------------------------------------------------- references are in range

  predicate SignalBounded(sh: Shared, x: Signal) {
    match x
    case SignalOperation(o) => o < |sh.operations|
    case SignalCoordination(k) => k < |sh.coordinations|
    case SignalGate(c) => c < |sh.contexts|
  }

  predicate ReturnBounded(sh: Shared, r: Return) {
    match r
    case End => true
    case BackToActor(o) => o < |sh.operations|
    case ReadBack(o) => o < |sh.operations|
    case AwaitPending(o, _) => o < |sh.operations|
  }

  predicate WindowBounded(sh: Shared, k: Option<nat>) {
    k.Some? ==> k.value < |sh.coordinations|
  }

  predicate RpcBounded(log: seq<Entry>, r: Rpc) {
    r.ToSend? || 0 < r.n <= |log|
  }

  predicate ActionBounded(sh: Shared, log: seq<Entry>, a: Action) {
    match a
    case Renewing(c, p) => c < |sh.contexts| && (p.Calling? ==> RpcBounded(log, p.rpc))
                           && (p.AwaitOld? ==> sh.contexts[c].waitRemove.Some?)
    case Removing(o, r, p) => o < |sh.operations| && ReturnBounded(sh, r) && RpcBounded(log, p)
    case ScheduleRemove(_, r) => ReturnBounded(sh, r)
    case ClaimPending(o) => o < |sh.operations|
    case EndActor(o) => o < |sh.operations|
    case Registering(k, _, p) => WindowBounded(sh, k) && RpcBounded(log, p)
    case AwaitRegisters(k, _) => k < |sh.coordinations|
    case AwaitOperation(o, _, _) => o < |sh.operations|
    case ReadResult(o) => o < |sh.operations|
    case OneShotRemoving(p) => RpcBounded(log, p)
    case OwnStart(c) => c < |sh.contexts|
    case AfterActivation(c) => c < |sh.contexts|
    case _ => true
  }

  predicate ThreadBounded(sh: Shared, log: seq<Entry>, th: Thread) {
    && (forall i :: 0 <= i < |th.owed| ==> SignalBounded(sh, th.owed[i]))
    && ActionBounded(sh, log, th.act)
  }

  predicate WellFormed(s: System) {
    && Bounded(s.sh)
    && (forall c :: 0 <= c < |s.sh.contexts| && s.sh.contexts[c].waitRemove.Some?
          ==> s.sh.contexts[c].waitRemove.value < |s.sh.operations|)
    && forall u :: 0 <= u < |s.threads| ==> ThreadBounded(s.sh, s.log, s.threads[u])
  }

  // ---------------------------------------------------------------- when a thread can step

  /** Whether the next action of a thread that owes no event can be performed now. */
  predicate Ready(s: System, a: Action)
    requires WellFormed(s) && ActionBounded(s.sh, s.log, a)
  {
    match a
    case Renewing(c, p) =>
      && (p.Gate? ==> s.sh.contexts[c].gate)
      && (p.AwaitOld? ==> s.sh.operations[s.sh.contexts[c].waitRemove.value].done)
      && (p.Acquire? ==> s.network.None?)
    case Removing(_, _, p) => p.ToSend? ==> s.network.None?
    case Registering(_, _, p) => p.ToSend? ==> s.network.None?
    case OneShotRemoving(p) => p.ToSend? ==> s.network.None?
    case AwaitOperation(o, _, _) => s.sh.operations[o].done
    case AwaitRegisters(k, _) => s.sh.coordinations[k].done
    case Idle => false
    case Broken => false
    case _ => true
  }

  predicate Enabled(s: System, t: nat)
    requires WellFormed(s)
  {
    t < |s.threads| && (s.threads[t].owed != [] || Ready(s, s.threads[t].act))
  }

  // ---------------------------------------------------------------- history bookkeeping

  /** Note a lifecycle Remove that a section created as Pending. */
  function NoteCreated(h: History, before: Shared, after: Shared): History {
    if |after.operations| == |before.operations| + 1 && after.pending == Some(|before.operations|) then
      var h1 := h.(created := h.created + multiset{after.operations[|before.operations|].generation});
      if before.coordination.Some?
      then h1.(origin := h1.origin[|before.operations| := before.coordination.value]) else h1
    else
      h
  }

  function NoteAccepted(h: History, accepted: bool, n: nat, source: Source, ok: bool): History {
    if accepted then h.(accepted := h.accepted + [Acceptance(n, source, ok)]) else h
  }

  function NoteReopened(h: History, reopened: bool, g: nat): History {
    if reopened then h.(reopened := h.reopened + multiset{g}) else h
  }

  function OweOperation(h: History, o: Option<nat>, t: nat): History {
    if o.Some? then h.(operationDebtor := h.operationDebtor[o.value := t]) else h
  }

  function OweCoordination(h: History, k: Option<nat>, t: nat): History {
    if k.Some? then h.(coordinationDebtor := h.coordinationDebtor[k.value := t]) else h
  }

  function OweGate(h: History, c: Option<nat>, t: nat): History {
    if c.Some? then h.(waker := h.waker[c.value := t]) else h
  }

  function OperationSignals(o: Option<nat>): seq<Signal> {
    if o.Some? then [SignalOperation(o.value)] else []
  }

  function CoordinationSignals(k: Option<nat>): seq<Signal> {
    if k.Some? then [SignalCoordination(k.value)] else []
  }

  function GateSignals(c: Option<nat>): seq<Signal> {
    if c.Some? then [SignalGate(c.value)] else []
  }

  // ---------------------------------------------------------------- steps

  function Move(s: System, t: nat, owed: seq<Signal>, act: Action): System
    requires t < |s.threads|
  {
    s.(threads := s.threads[t := Thread(owed, act)])
  }

  /** Set the first event a thread owes. */
  function SendSignal(s: System, t: nat): System
    requires WellFormed(s) && t < |s.threads| && s.threads[t].owed != []
  {
    var th := s.threads[t];
    assert SignalBounded(s.sh, th.owed[0]);
    var sh1 :=
      match th.owed[0]
      case SignalOperation(o) => SetOperationDone(s.sh, o)
      case SignalCoordination(k) => SetCoordinationDone(s.sh, k)
      case SignalGate(c) => SetGate(s.sh, c);
    Move(s.(sh := sh1), t, th.owed[1..], th.act)
  }

  /** Take `network_lock` and number the RPC. */
  function Send(s: System, t: nat, kind: Kind, act: Action): System
    requires t < |s.threads|
  {
    Move(s.(network := Some(t), log := s.log + [Entry(kind, t, InFlight)]), t, [], act)
  }

  /** The Admin answers and `network_lock` is released; nothing is applied yet. */
  function Receive(s: System, t: nat, n: nat, ok: bool, act: Action): System
    requires t < |s.threads| && 0 < n <= |s.log|
  {
    Move(s.(network := None, log := s.log[n - 1 := s.log[n - 1].(status := Returned(ok))]), t, [], act)
  }

  function Settled(s: System, n: nat, ok: bool, accepted: bool, late: bool): System
    requires 0 < n <= |s.log|
  {
    s.(log := s.log[n - 1 := s.log[n - 1].(status := Applied(ok, accepted, late))])
  }

  function StepFinish(s: System, t: nat, c: nat): System
    requires Bounded(s.sh) && t < |s.threads| && c < |s.sh.contexts|
  {
    var (sh1, claimed) := Finish(s.sh, c);
    var h1 := s.history.(finished := s.history.finished + {c});
    if claimed.Some? then
      Move(s.(sh := sh1, history := h1.(holder := t, claimed := h1.claimed + {claimed.value})),
           t, [], Removing(claimed.value, End, ToSend))
    else
      Move(s.(sh := sh1, history := h1), t, [], ScheduleRemove(false, End))
  }

  function StepRenewApply(s: System, t: nat, c: nat, n: nat, ok: bool): System
    requires Bounded(s.sh) && t < |s.threads| && c < |s.sh.contexts| && 0 < n <= |s.log|
  {
    var (sh1, out) := CommitRenewal(s.sh, c, n, ok);
    var h1 := NoteReopened(NoteAccepted(s.history, out.accepted, n, FromWorker, ok),
                           out.reopened, s.sh.contexts[c].generation);
    Move(Settled(s, n, ok, out.accepted, false).(sh := sh1, history := h1),
         t, [], Renewing(c, if out.current then Interval else Last))
  }

  function StepRemoveSend(s: System, t: nat, o: nat, r: Return): System
    requires t < |s.threads| && o < |s.sh.operations|
  {
    var g := s.sh.operations[o].generation;
    var n := |s.log| + 1;
    var h := s.history;
    var h1 := h.(sent := h.sent[o := n], topKey := 2 * g + 1,
                 removeSent := if g == s.sh.generation then n else h.removeSent);
    Send(s.(history := h1), t, RemoveOf(o, g), Removing(o, r, Sent(n)))
  }

  function StepRemoveApply(s: System, t: nat, o: nat, n: nat, ok: bool, r: Return): System
    requires Bounded(s.sh) && t < |s.threads| && o < |s.sh.operations| && 0 < n <= |s.log|
  {
    var (sh1, out) := Complete(s.sh, o, n, ok);
    var h1 := NoteCreated(NoteAccepted(s.history, out.accepted, n, FromRemove, ok), s.sh, sh1);
    var h2 := OweOperation(OweOperation(h1, Some(o), t), out.cancelled, t);
    var h3 := if out.satisfied then h2.(removedBy := n) else h2;
    Move(Settled(s, n, ok, out.accepted, false).(sh := sh1, history := h3),
         t, [SignalOperation(o)] + OperationSignals(out.cancelled), ScheduleRemove(false, r))
  }

  /** The answer of `is_alive` for the actor bound to the Pending Remove. */
  predicate ActorAlive(s: System)
    requires Bounded(s.sh)
  {
    s.sh.pending.Some? &&
    var a := s.sh.operations[s.sh.pending.value].thread;
    a.Some? && a.value < |s.threads| && !Finished(s.threads[a.value])
  }

  function StepSchedule(s: System, t: nat, raising: bool, r: Return, started: bool): System
    requires Bounded(s.sh) && t < |s.threads|
  {
    var (sh1, out) := Schedule(s.sh, ActorAlive(s), |s.threads|, started);
    match out
    case NothingToStart =>
      Move(s.(sh := sh1), t, [], After(r))
    case Started(o) =>
      Move(s.(sh := sh1, threads := s.threads + [Thread([], ClaimPending(o))]), t, [], After(r))
    case StartFailed(o) =>
      var h1 := OweOperation(NoteCreated(s.history, s.sh, sh1), Some(o), t);
      var h2 := if s.sh.coordination.Some?
                then h1.(startFailed := h1.startFailed[s.sh.coordination.value := s.sh.lastApplied]) else h1;
      Move(s.(sh := sh1, history := h2), t, [SignalOperation(o)], if raising then Idle else After(r))
  }

  function StepClaim(s: System, t: nat, o: nat): System
    requires t < |s.threads|
  {
    var (sh1, claimed) := ActorClaim(s.sh, o);
    if claimed then
      Move(s.(sh := sh1, history := s.history.(holder := t, claimed := s.history.claimed + {o})),
           t, [], Removing(o, BackToActor(o), ToSend))
    else
      Move(s, t, [], EndActor(o))
  }

  function StepEndActor(s: System, t: nat, o: nat): System
    requires t < |s.threads| && o < |s.sh.operations|
  {
    Move(s.(sh := ActorEnd(s.sh, o, t)), t, [], ScheduleRemove(false, End))
  }

  function StepJoin(s: System, t: nat): System
    requires Bounded(s.sh) && t < |s.threads|
  {
    var (sh1, out) := Join(s.sh);
    var h := s.history;
    var h1 :=
      if out.coordination.None? then h
      else
        var k := out.coordination.value;
        h.(members := h.members[k := (if k in h.members then h.members[k] else {}) + {t}],
           debt := if k in h.debt then h.debt else h.debt[k := 0]);
    Move(s.(sh := sh1, history := OweCoordination(h1, out.detached, t)),
         t, CoordinationSignals(out.detached), Registering(out.coordination, out.generation, ToSend))
  }

  /** What a register completion in window `k` leaves in the history. */
  function LeaveHistory(h: History, before: Shared, after: Shared, t: nat, k: nat, n: nat, late: bool,
      signal: Option<nat>): History {
    var rest := if k in h.members then h.members[k] - {t} else {};
    var h1 := h.(members := h.members[k := rest], debt := if late then h.debt[k := n] else h.debt);
    OweCoordination(NoteCreated(h1, before, after), signal, t)
  }

  function StepRegisterApply(s: System, t: nat, k: Option<nat>, g: nat, n: nat, ok: bool): System
    requires Bounded(s.sh) && t < |s.threads| && WindowBounded(s.sh, k) && 0 < n <= |s.log|
  {
    var (sh1, out, left) := CommitRegister(s.sh, n, ok, g, k);
    var h1 := NoteReopened(NoteAccepted(s.history, out.accepted, n, FromRegister, ok), out.reopened, g);
    var h2 := if k.None? then h1 else LeaveHistory(h1, s.sh, sh1, t, k.value, n, out.late, left.signal);
    Move(Settled(s, n, ok, out.accepted, out.late).(sh := sh1, history := h2),
         t, CoordinationSignals(left.signal), if left.scheduled.Some? then ScheduleRemove(false, End) else Idle)
  }

  function StepTerminal(s: System, t: nat, g: nat): System
    requires Bounded(s.sh) && t < |s.threads|
  {
    var (sh1, decision) := Terminal(s.sh, g);
    match decision
    case OneShot => Move(s, t, [], OneShotRemoving(ToSend))
    case Cached(_) => Move(s, t, [], Idle)
    case Owned(o) =>
      Move(s.(sh := sh1, history := s.history.(holder := t, claimed := s.history.claimed + {o})),
           t, [], Removing(o, ReadBack(o), ToSend))
    case WaitRegisters(k) => Move(s, t, [], AwaitRegisters(k, g))
    case WaitSameActive(o) => Move(s, t, [], AwaitOperation(o, g, SameActive))
    case WaitSamePending(o) => Move(s, t, [], ScheduleRemove(true, AwaitPending(o, g)))
    case WaitOther(o) => Move(s, t, [], AwaitOperation(o, g, Other))
  }

  /** The wait of the terminal path has returned: what its observer does with the result. */
  function StepObserve(s: System, t: nat, o: nat, g: nat, wait: Wait): System
    requires t < |s.threads| && o < |s.sh.operations|
  {
    if wait.Other? then Move(s, t, [], TerminalTurn(g))
    else if s.sh.operations[o].result.Some? then Move(s, t, [], Idle)
    else if wait.SameActive? then Move(s, t, [], Broken)
    else Move(s, t, [], TerminalTurn(g))
  }

  /** How the owner of a prepared start goes on: `start` proceeds, a failed `init_app` withdraws its
      token before publication or settles it after. */
  datatype Way = Proceed | Withdraw | SettleIt

  function StepOwn(s: System, t: nat, c: nat, way: Way): System
    requires Bounded(s.sh) && t < |s.threads| && c < |s.sh.contexts|
  {
    match way
    case Proceed => StepActivate(s, t, c)
    case Withdraw => StepCancel(s, t, c)
    case SettleIt => StepSettle(s, t, c)
  }

  function StepPrepare(s: System, t: nat, started: bool): System
    requires Bounded(s.sh) && t < |s.threads|
  {
    var (sh1, prepared) := Prepare(s.sh, |s.threads|, started);
    if prepared.None? then
      Move(s, t, [], Idle)
    else
      var c := prepared.value;
      Move(s.(sh := sh1,
              history := s.history.(starter := s.history.starter[c := t]),
              threads := s.threads + [Thread([], Renewing(c, Gate))]),
           t, [], OwnStart(c))
  }

  function StepActivate(s: System, t: nat, c: nat): System
    requires Bounded(s.sh) && t < |s.threads| && c < |s.sh.contexts|
  {
    var (sh1, out) := Activate(s.sh, c);
    match out
    case NotOwner => Move(s, t, [], AfterActivation(c))
    case Activated(cancelled, detached) =>
      var h := s.history.(committed := s.history.committed + {c}, removeSent := 0);
      var h1 := OweGate(OweCoordination(OweOperation(h, cancelled, t), detached, t), Some(c), t);
      Move(s.(sh := sh1, history := h1),
           t, OperationSignals(cancelled) + CoordinationSignals(detached) + [SignalGate(c)], AfterActivation(c))
    case _ => Move(s, t, [], Broken)
  }

  function StepCancel(s: System, t: nat, c: nat): System
    requires Bounded(s.sh) && t < |s.threads| && c < |s.sh.contexts|
  {
    var (sh1, taken) := Cancel(s.sh, c);
    if taken then Move(s.(sh := sh1, history := OweGate(s.history, Some(c), t)), t, [SignalGate(c)], Idle)
    else Move(s, t, [], Idle)
  }

  function StepSettle(s: System, t: nat, c: nat): System
    requires Bounded(s.sh) && t < |s.threads| && c < |s.sh.contexts|
  {
    var (sh1, out) := Settle(s.sh, c);
    match out
    case CancelUncommitted =>
      Move(s.(sh := sh1, history := OweGate(s.history, Some(c), t)), t, [SignalGate(c)], Idle)
    case WakeCommitted => Move(s, t, [SignalGate(c)], Idle)
    case Untouched => Move(s, t, [], Idle)
  }

  function StepOneShotApply(s: System, t: nat, n: nat, ok: bool): System
    requires t < |s.threads| && 0 < n <= |s.log|
  {
    var (sh1, accepted) := CommitOneShotRemove(s.sh, n, ok);
    Move(Settled(s, n, ok, accepted, false).(
           sh := sh1, history := NoteAccepted(s.history, accepted, n, FromRemove, ok)),
         t, [], Idle)
  }

  function StepStop(s: System, t: nat, remove: bool): System
    requires Bounded(s.sh) && t < |s.threads|
  {
    var (sh1, operation) := Stop(s.sh, remove);
    var h1 := OweGate(NoteCreated(s.history, s.sh, sh1), s.sh.prepared, t);
    Move(s.(sh := sh1, history := h1),
         t, GateSignals(s.sh.prepared), if operation.Some? then ScheduleRemove(true, End) else Idle)
  }

  function StepShutdown(s: System, t: nat, deregister: bool): System
    requires Bounded(s.sh) && t < |s.threads|
  {
    var (sh1, validate) := Shutdown(s.sh, deregister);
    Move(s.(sh := sh1, history := OweGate(s.history, s.sh.prepared, t)),
         t, GateSignals(s.sh.prepared), if validate then ShutdownRequest(s.sh.generation) else Idle)
  }

  function StepShutdownRequest(s: System, t: nat, g: nat): System
    requires Bounded(s.sh) && t < |s.threads|
  {
    var (sh1, operation) := ShutdownRemove(s.sh, g);
    Move(s.(sh := sh1, history := NoteCreated(s.history, s.sh, sh1)),
         t, [], if operation.Some? then ScheduleRemove(true, End) else Idle)
  }

  /** The environment's part of a step: whether a thread starts, whether an RPC succeeds (or, for
      `shutdown`, whether the configuration is valid), and the way an owner goes on. */
  datatype Choice = Choice(started: bool, ok: bool, way: Way)

  /** One step of thread `t`. */
  function Next(s: System, t: nat, ch: Choice): System
    requires WellFormed(s) && Enabled(s, t)
  {
    if s.threads[t].owed != [] then SendSignal(s, t)
    else WithAnswer(Perform(s, t, s.threads[t].act, ch), t, AnswerOf(s, s.threads[t].act, ch))
  }

  /** What the caller is answered, if this step decides it. */
  function AnswerOf(s: System, a: Action, ch: Choice): Option<Answer>
    requires WellFormed(s) && ActionBounded(s.sh, s.log, a)
  {
    match a
    case Registering(_, _, Answered(_, ok)) => Some(Says(ok))
    case OneShotRemoving(Answered(_, ok)) => Some(Says(ok))
    case TerminalTurn(g) =>
      (match Terminal(s.sh, g).1
       case Cached(ok) => Some(Says(ok))
       case _ => None)
    case AwaitOperation(o, _, wait) => if wait.Other? then None else ResultAnswer(s.sh.operations[o].result)
    case ReadResult(o) => ResultAnswer(s.sh.operations[o].result)
    case ScheduleRemove(true, AwaitPending(_, _)) =>
      if Schedule(s.sh, ActorAlive(s), |s.threads|, ch.started).1.StartFailed? then Some(Raises) else None
    case _ => None
  }

  function ResultAnswer(result: Option<bool>): Option<Answer> {
    if result.Some? then Some(Says(result.value)) else None
  }

  function WithAnswer(s: System, t: nat, answer: Option<Answer>): System {
    if answer.None? then s
    else s.(history := s.history.(answers := s.history.answers[t := answer.value]))
  }

  function Perform(s: System, t: nat, a: Action, ch: Choice): System
    requires WellFormed(s) && t < |s.threads| && ActionBounded(s.sh, s.log, a)
  {
    match a
    case Renewing(c, p) => PerformRenewing(s, t, c, p, ch.ok)
    case Removing(o, r, p) =>
      (match p
       case ToSend => StepRemoveSend(s, t, o, r)
       case Sent(n) => Receive(s, t, n, ch.ok, Removing(o, r, Answered(n, ch.ok)))
       case Answered(n, ok) => StepRemoveApply(s, t, o, n, ok, r))
    case ScheduleRemove(raising, r) => StepSchedule(s, t, raising, r, ch.started)
    case ClaimPending(o) => StepClaim(s, t, o)
    case EndActor(o) => StepEndActor(s, t, o)
    case JoinWindow => StepJoin(s, t)
    case Registering(k, g, p) =>
      (match p
       case ToSend => Send(s, t, Register(k, g), Registering(k, g, Sent(|s.log| + 1)))
       case Sent(n) => Receive(s, t, n, ch.ok, Registering(k, g, Answered(n, ch.ok)))
       case Answered(n, ok) => StepRegisterApply(s, t, k, g, n, ok))
    case OneShotRemoving(p) =>
      (match p
       case ToSend => Send(s, t, OneShotRemove, OneShotRemoving(Sent(|s.log| + 1)))
       case Sent(n) => Receive(s, t, n, ch.ok, OneShotRemoving(Answered(n, ch.ok)))
       case Answered(n, ok) => StepOneShotApply(s, t, n, ok))
    case _ => PerformCall(s, t, a, ch)
  }

  function PerformRenewing(s: System, t: nat, c: nat, p: Phase, ok: bool): System
    requires WellFormed(s) && t < |s.threads| && ActionBounded(s.sh, s.log, Renewing(c, p))
  {
    match p
    case Gate => Move(s, t, [], Renewing(c, EntryCheck))
    case EntryCheck =>
      Move(s, t, [], if s.sh.worker == Some(c) || Stopping(s.sh, c) then Renewing(c, FirstCheck) else Idle)
    case FirstCheck =>
      Move(s, t, [], Renewing(c, if !Current(s.sh, c) then Last
                                 else if s.sh.contexts[c].waitRemove.Some? then AwaitOld else Loop))
    case AwaitOld => Move(s, t, [], Renewing(c, Loop))
    case Loop => Move(s, t, [], Renewing(c, if Current(s.sh, c) then Acquire else Last))
    case Acquire => Move(s.(network := Some(t)), t, [], Renewing(c, Check))
    case Check =>
      if Current(s.sh, c) then Move(s, t, [], Renewing(c, Calling(ToSend)))
      else Move(s.(network := None), t, [], Renewing(c, Last))
    case Calling(r) =>
      (match r
       case ToSend =>
         var g := s.sh.contexts[c].generation;
         Send(s.(history := s.history.(topKey := 2 * g)), t, Renew(c, g), Renewing(c, Calling(Sent(|s.log| + 1))))
       case Sent(n) => Receive(s, t, n, ok, Renewing(c, Calling(Answered(n, ok))))
       case Answered(n, ok) => StepRenewApply(s, t, c, n, ok))
    case Interval => Move(s, t, [], Renewing(c, if s.sh.contexts[c].stop then Last else Loop))
    case Last => StepFinish(s, t, c)
  }

  /** The actions of callers that are not an RPC. */
  function PerformCall(s: System, t: nat, a: Action, ch: Choice): System
    requires WellFormed(s) && t < |s.threads| && ActionBounded(s.sh, s.log, a)
  {
    match a
    case RemoveEntry =>
      Move(s, t, [], if s.sh.worker.None? then TerminalTurn(s.sh.generation) else OneShotRemoving(ToSend))
    case TerminalTurn(g) => StepTerminal(s, t, g)
    case AwaitRegisters(_, g) => Move(s, t, [], TerminalTurn(g))
    case AwaitOperation(o, g, wait) => StepObserve(s, t, o, g, wait)
    case ReadResult(o) => Move(s, t, [], if s.sh.operations[o].result.Some? then Idle else Broken)
    case PrepareStart => StepPrepare(s, t, ch.started)
    case OwnStart(c) => StepOwn(s, t, c, ch.way)
    case AfterActivation(c) => if ch.way.SettleIt? then StepSettle(s, t, c) else Move(s, t, [], Idle)
    case StopCall(remove) => StepStop(s, t, remove)
    case ShutdownCall(deregister) => StepShutdown(s, t, deregister)
    case ShutdownRequest(g) => if ch.ok then StepShutdownRequest(s, t, g) else Move(s, t, [], Idle)
    case _ => s
  }

  // ---------------------------------------------------------------- runs

  /** A public call, made by a thread of its own. */
  datatype Call = CallRegister | CallRemove | CallStart | CallStop(remove: bool) | CallShutdown(deregister: bool)

  function Entrance(call: Call): Action {
    match call
    case CallRegister => JoinWindow
    case CallRemove => RemoveEntry
    case CallStart => PrepareStart
    case CallStop(remove) => StopCall(remove)
    case CallShutdown(deregister) => ShutdownCall(deregister)
  }

  function Arrive(s: System, call: Call): System {
    s.(threads := s.threads + [Thread([], Entrance(call))])
  }

  datatype Event = Arrival(call: Call) | Turn(t: nat, choice: Choice)

  predicate Possible(s: System, e: Event) {
    e.Turn? ==> WellFormed(s) && Enabled(s, e.t)
  }

  function Happen(s: System, e: Event): System
    requires Possible(s, e)
  {
    match e
    case Arrival(call) => Arrive(s, call)
    case Turn(t, ch) => Next(s, t, ch)
  }

  /** The states of a run: it starts at `START` and every state follows from the one before. */
  predicate IsRun(states: seq<System>, events: seq<Event>) {
    && |states| == |events| + 1
    && states[0] == START
    && forall i :: 0 <= i < |events| ==> Possible(states[i], events[i]) && states[i + 1] == Happen(states[i], events[i])
  }
}
