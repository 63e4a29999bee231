/**
 * What holds in every state of every run of the Registry protocol, stated for each slot, thread,
 * context, operation, coordination and log entry.  `RegistryRuns.dfy` proves that every step keeps it;
 * `RegistryTheorems.dfy` reads the properties of the protocol off it.
 */
module RegistryInvariant {
  import opened Options
  import opened RegistryState
  import opened RegistrySystem

  // ---------------------------------------------------------------- slots

  /** What the slots of the shared state say about each other whenever no section is running. */
  ghost predicate Slots(sh: Shared) {
    && Bounded(sh)
    && (sh.worker.Some? ==>
          var row := sh.contexts[sh.worker.value];
          && row.generation == sh.generation
          && !row.stop
          && sh.generation !in sh.stopping
          && sh.pending.None?
          && sh.prepared.None?
          && sh.removed != Some(sh.generation)
          && (sh.coordination.Some? ==> !sh.coordinations[sh.coordination.value].cleanupRequested)
          && (sh.active.Some? ==>
                && sh.operations[sh.active.value].generation < sh.generation
                && row.waitRemove == sh.active))
    && (sh.prepared.Some? ==>
          var row := sh.contexts[sh.prepared.value];
          row.generation == sh.generation + 1 && row.owned && !row.gate && !row.stop)
    && (sh.pending.Some? ==>
          var row := sh.operations[sh.pending.value];
          && row.generation == sh.generation
          && !row.done
          && row.result.None?
          && sh.removed != Some(sh.generation)
          && sh.active != sh.pending)
    && (sh.active.Some? ==>
          var row := sh.operations[sh.active.value];
          && row.generation <= sh.generation
          && !row.done
          && row.result.None?
          && sh.removed != Some(sh.generation))
    && (forall g :: g in sh.stopping ==>
          && g <= sh.generation
          && sh.contexts[sh.stopping[g]].generation == g
          && sh.contexts[sh.stopping[g]].stop)
    && (sh.coordination.Some? ==>
          var row := sh.coordinations[sh.coordination.value];
          && row.generation == sh.generation
          && (row.inflight > 0 ||
              (row.cleanupRequested && sh.removeRequested == Some(sh.generation) && HasRemove(sh, sh.generation))))
    && (sh.removed.Some? ==> sh.removed.value <= sh.generation && sh.removedResult == Some(true))
    && (sh.removeRequested.Some? ==> sh.removeRequested.value <= sh.generation)
  }

  // ---------------------------------------------------------------- kinds of actions

  predicate Works(a: Action, c: nat) {
    a.Renewing? && a.c == c
  }

  predicate Removes(a: Action, o: nat) {
    a.Removing? && a.o == o
  }

  /** The actions of the cleanup actor bound to an operation. */
  predicate Acts(a: Action, o: nat) {
    || a == ClaimPending(o)
    || (a.Removing? && a.o == o && a.next == BackToActor(o))
    || a == ScheduleRemove(false, BackToActor(o))
    || a == EndActor(o)
  }

  predicate Registers(a: Action, k: nat) {
    a.Registering? && a.window == Some(k)
  }

  /** A thread that still has to run the scheduler, or to claim the Remove itself. */
  predicate OwesSchedule(a: Action) {
    a.ScheduleRemove? || a.ClaimPending? || a.EndActor? || a.Removing? || (a.Renewing? && a.phase.Last?)
  }

  predicate HoldsNetwork(a: Action) {
    || (a.Renewing? && (a.phase.Check? || (a.phase.Calling? && !a.phase.rpc.Answered?)))
    || (a.Removing? && a.rpc.Sent?)
    || (a.Registering? && a.rpc.Sent?)
    || (a.OneShotRemoving? && a.rpc.Sent?)
  }

  // ---------------------------------------------------------------- threads

  ghost predicate SignalInv(s: System, x: Signal) {
    match x
    case SignalOperation(o) => s.sh.pending != Some(o) && s.sh.active != Some(o)
    case SignalCoordination(k) => true
    case SignalGate(c) => s.sh.prepared != Some(c)
  }

  /** An operation that has been Active and is not any more. */
  ghost predicate Retired(s: System, o: nat) {
    o in s.history.claimed && s.sh.pending != Some(o) && s.sh.active != Some(o)
  }

  ghost predicate ReturnInv(s: System, u: nat, raising: bool, r: Return)
    requires ReturnBounded(s.sh, r)
  {
    match r
    case BackToActor(o) => s.sh.operations[o].thread == Some(u) && !raising
    case ReadBack(o) => Retired(s, o)
    case AwaitPending(_, g) => g <= s.sh.generation
    case End => true
  }

  ghost predicate RemoveInv(s: System, u: nat, o: nat, r: Return)
    requires o < |s.sh.operations|
  {
    && s.sh.active == Some(o)
    && s.history.holder == u
    && (r == End || r == ReadBack(o) || (r == BackToActor(o) && s.sh.operations[o].thread == Some(u)))
  }

  /** The thread of a context that has become the Worker and has not finished. */
  ghost predicate Lives(s: System, u: nat, c: nat)
    requires c < |s.sh.contexts|
  {
    s.sh.contexts[c].thread == u && c in s.history.committed && c !in s.history.finished
  }

  /** A Worker that no longer waits for an older Active Remove. */
  ghost predicate Renews(s: System, u: nat, c: nat)
    requires WellFormed(s) && c < |s.sh.contexts|
  {
    var w := s.sh.contexts[c].waitRemove;
    Lives(s, u, c) && (w.Some? ==> s.sh.operations[w.value].done)
  }

  ghost predicate RegisterInv(s: System, u: nat, k: Option<nat>, g: nat)
    requires WindowBounded(s.sh, k)
  {
    && g <= s.sh.generation
    && (k.Some? ==>
          && k.value in s.history.members
          && u in s.history.members[k.value]
          && s.sh.coordinations[k.value].generation == g)
  }

  /** The log entry of an RPC a thread has sent. */
  ghost predicate RpcInv(log: seq<Entry>, u: nat, r: Rpc, kind: Kind)
    requires RpcBounded(log, r)
  {
    match r
    case ToSend => true
    case Sent(n) => n == |log| && log[n - 1] == Entry(kind, u, InFlight)
    case Answered(n, ok) => log[n - 1] == Entry(kind, u, Returned(ok))
  }

  ghost predicate PhaseInv(s: System, u: nat, c: nat, p: Phase)
    requires WellFormed(s) && ActionBounded(s.sh, s.log, Renewing(c, p))
  {
    match p
    case Gate => s.sh.contexts[c].thread == u && c !in s.history.finished
    case EntryCheck => s.sh.contexts[c].thread == u && c !in s.history.finished && s.sh.prepared != Some(c)
    case FirstCheck => Lives(s, u, c)
    case AwaitOld => Lives(s, u, c)
    case Calling(r) =>
      && Renews(s, u, c)
      && RpcInv(s.log, u, r, Renew(c, s.sh.contexts[c].generation))
      && (r.ToSend? ==>
            && s.history.topKey <= 2 * s.sh.contexts[c].generation
            && (s.sh.active.Some? ==>
                  s.sh.contexts[c].generation <= s.sh.operations[s.sh.active.value].generation))
    case Last => Lives(s, u, c)
    case _ => Renews(s, u, c)
  }

  ghost predicate ActionInv(s: System, u: nat, a: Action)
    requires WellFormed(s) && ActionBounded(s.sh, s.log, a)
  {
    match a
    case Renewing(c, p) => PhaseInv(s, u, c, p)
    case Removing(o, r, p) =>
      && RemoveInv(s, u, o, r)
      && RpcInv(s.log, u, p, RemoveOf(o, s.sh.operations[o].generation))
      && (p.ToSend? ==> o !in s.history.sent)
      && (!p.ToSend? ==> o in s.history.sent && s.history.sent[o] == p.n)
    case ScheduleRemove(raising, r) => ReturnInv(s, u, raising, r)
    case ClaimPending(o) => s.sh.operations[o].thread == Some(u)
    case EndActor(o) => s.sh.operations[o].thread == Some(u)
    case Registering(k, g, p) => RegisterInv(s, u, k, g) && RpcInv(s.log, u, p, Register(k, g))
    case TerminalTurn(g) => g <= s.sh.generation
    case AwaitRegisters(_, g) => g <= s.sh.generation
    case AwaitOperation(o, g, wait) => g <= s.sh.generation && (wait.SameActive? ==> o in s.history.claimed)
    case ReadResult(o) => Retired(s, o)
    case OneShotRemoving(p) => s.sh.generation > 0 && RpcInv(s.log, u, p, OneShotRemove)
    case OwnStart(c) => c in s.history.starter && s.history.starter[c] == u
    case AfterActivation(c) => s.sh.prepared != Some(c)
    case ShutdownRequest(g) => g <= s.sh.generation && (g == s.sh.generation ==> s.sh.worker.None?)
    case Broken => false
    case _ => true
  }

  ghost predicate ThreadInv(s: System, u: nat)
    requires WellFormed(s) && u < |s.threads|
  {
    var th := s.threads[u];
    && ActionInv(s, u, th.act)
    && (forall x :: x in th.owed ==> SignalInv(s, x))
    && (HoldsNetwork(th.act) ==> s.network == Some(u) && th.owed == [])
    && (th.act.Removing? || th.act.Renewing? ==> th.owed == [])
  }

  // ---------------------------------------------------------------- contexts

  ghost predicate OwedBy(s: System, m: map<nat, nat>, id: nat, x: Signal) {
    id in m && m[id] < |s.threads| && x in s.threads[m[id]].owed
  }

  ghost predicate ContextInv(s: System, c: nat)
    requires Bounded(s.sh) && c < |s.sh.contexts|
  {
    var row := s.sh.contexts[c];
    var h := s.history;
    && 1 <= row.generation <= s.sh.generation + 1
    && row.thread < |s.threads|
    && c in h.starter && h.starter[c] < |s.threads|
    && (row.waitRemove.Some? ==> c in h.committed && row.waitRemove.value in h.claimed)
    && (c in h.finished ==> c in h.committed)
    && (c in h.committed ==> row.generation <= s.sh.generation)
    && (c in h.committed && c !in h.finished ==>
          Works(s.threads[row.thread].act, c) && (s.sh.worker == Some(c) || Stopping(s.sh, c)))
    && (s.sh.worker == Some(c) || Stopping(s.sh, c) ==> c in h.committed && c !in h.finished)
    && (s.sh.prepared == Some(c) ==> c !in h.committed && s.threads[h.starter[c]] == Thread([], OwnStart(c)))
    && (!row.gate ==> s.threads[row.thread].act == Renewing(c, Gate))
    && (!row.gate && s.sh.prepared != Some(c) ==> OwedBy(s, h.waker, c, SignalGate(c)))
  }

  // ---------------------------------------------------------------- operations

  ghost predicate OperationInv(s: System, o: nat)
    requires o < |s.sh.operations|
  {
    var row := s.sh.operations[o];
    var h := s.history;
    && row.generation <= s.sh.generation
    && (s.sh.pending == Some(o) ==> o !in h.claimed)
    && (s.sh.active == Some(o) ==>
          && o in h.claimed
          && h.holder < |s.threads|
          && Removes(s.threads[h.holder].act, o))
    && (o in h.claimed && s.sh.active != Some(o) ==> row.result.Some?)
    && (!row.done && s.sh.pending != Some(o) && s.sh.active != Some(o) ==>
          OwedBy(s, h.operationDebtor, o, SignalOperation(o)))
    && (o in h.sent ==>
          && o in h.claimed
          && 0 < h.sent[o] <= |s.log|
          && s.log[h.sent[o] - 1].kind == RemoveOf(o, row.generation)
          && (row.generation == s.sh.generation ==> h.sent[o] <= h.removeSent))
    && (row.thread.Some? ==> row.thread.value < |s.threads| && Acts(s.threads[row.thread.value].act, o))
    && (o in h.origin ==>
          && h.origin[o] < |s.sh.coordinations|
          && s.sh.coordinations[h.origin[o]].inflight == 0
          && s.sh.coordinations[h.origin[o]].generation == row.generation)
  }

  // ---------------------------------------------------------------- coordinations

  /** The cleanup a window owes is still on its way. */
  ghost predicate Outstanding(s: System, k: nat)
    requires Bounded(s.sh) && k < |s.sh.coordinations|
  {
    var g := s.sh.generation;
    || s.sh.pending.Some?
    || (s.sh.active.Some? && s.sh.operations[s.sh.active.value].generation == g
        && s.sh.active.value !in s.history.sent)
    || (s.sh.coordinations[k].inflight > 0 && s.sh.removeRequested != Some(g) && s.sh.removed != Some(g))
  }

  ghost predicate CoordinationInv(s: System, k: nat)
    requires Bounded(s.sh) && k < |s.sh.coordinations|
  {
    var row := s.sh.coordinations[k];
    var h := s.history;
    && k in h.members && k in h.debt
    && row.inflight == |h.members[k]|
    && (forall u :: u in h.members[k] ==> u < |s.threads| && Registers(s.threads[u].act, k))
    && row.generation <= s.sh.generation
    && (row.generation == s.sh.generation && row.inflight > 0 ==> s.sh.coordination == Some(k))
    && (!row.done ==> row.inflight > 0 || OwedBy(s, h.coordinationDebtor, k, SignalCoordination(k)))
    && h.debt[k] <= s.sh.lastApplied
    && (k in h.startFailed ==> h.startFailed[k] <= s.sh.lastApplied)
    && (h.debt[k] > 0 ==> row.cleanupRequested)
    && (row.generation == s.sh.generation && h.debt[k] > 0 ==>
          || h.removeSent > h.debt[k]
          || (k in h.startFailed && h.debt[k] <= h.startFailed[k])
          || (s.sh.coordination == Some(k) && Outstanding(s, k)))
    && (row.generation == s.sh.generation == 0 && h.debt[k] > 0 && !s.sh.registered ==>
          h.removeSent > h.debt[k])
  }

  // ---------------------------------------------------------------- RPC log

  ghost predicate EntryInv(s: System, i: nat)
    requires i < |s.log|
  {
    var e := s.log[i];
    var h := s.history;
    && (e.kind.RemoveOf? ==> e.kind.o in h.sent && h.sent[e.kind.o] == i + 1)
    && (e.kind.Renew? ==> e.kind.c in h.committed)
    && (e.kind.Register? && e.kind.k.Some? ==>
          e.kind.k.value < |s.sh.coordinations|
          && s.sh.coordinations[e.kind.k.value].generation == e.kind.generation)
    && (Key(e.kind).Some? ==> Key(e.kind).value <= h.topKey)
    && (e.status.Applied? && e.status.accepted ==> i + 1 <= s.sh.lastApplied)
    && (e.status.Applied? && e.status.late ==>
          && e.status.accepted && e.status.ok && e.kind.Register? && e.kind.k.Some?
          && e.kind.k.value in h.debt && i + 1 <= h.debt[e.kind.k.value])
    && (s.sh.removed == Some(s.sh.generation) && e.status.Applied? && e.status.accepted && e.status.ok
        && (e.kind.Renew? || (e.kind.Register? && e.kind.k.Some?)) && e.kind.generation == s.sh.generation
        ==> i + 1 < h.removedBy)
  }

  ghost predicate LogInv(s: System)
    requires Bounded(s.sh)
  {
    var h := s.history;
    && (forall i :: 0 <= i < |s.log| ==> EntryInv(s, i))
    && (forall i, j :: 0 <= i < j < |s.log| && Key(s.log[i].kind).Some? && Key(s.log[j].kind).Some? ==>
          Key(s.log[i].kind).value <= Key(s.log[j].kind).value)
    && h.topKey <= 2 * s.sh.generation + 1
    && (s.sh.worker.Some? ==> h.topKey <= 2 * s.sh.generation)
    && (s.sh.active.Some? ==> h.topKey <= 2 * s.sh.operations[s.sh.active.value].generation + 1)
    && (h.removeSent > 0 ==>
          && h.removeSent <= |s.log|
          && s.log[h.removeSent - 1].kind.RemoveOf?
          && s.log[h.removeSent - 1].kind.generation == s.sh.generation)
    && s.sh.lastApplied <= |s.log|
    && (s.sh.removed == Some(s.sh.generation) ==>
          0 < h.removedBy <= s.sh.lastApplied && CleanedBy(s.log[h.removedBy - 1], s.sh.generation))
  }

  /** An accepted successful Remove of a generation. */
  predicate CleanedBy(e: Entry, g: nat) {
    e.kind.RemoveOf? && e.kind.generation == g && e.status == Applied(true, true, false)
  }

  // ---------------------------------------------------------------- snapshot and counts

  /** The `registered` snapshot as a fold of the accepted completions, in the order accepted. */
  function Fold(accepted: seq<Acceptance>): bool {
    if accepted == [] then false
    else
      var last := accepted[|accepted| - 1];
      Record(Fold(accepted[..|accepted| - 1]), last.source, last.ok)
  }

  function SourceOf(kind: Kind): Source {
    match kind
    case Renew(_, _) => FromWorker
    case Register(_, _) => FromRegister
    case RemoveOf(_, _) => FromRemove
    case OneShotRemove => FromRemove
  }

  /** An entry of the log that was accepted, and as what. */
  predicate AcceptedAs(e: Entry, a: Acceptance) {
    && e.status.Applied? && e.status.accepted && e.status.ok == a.ok
    && SourceOf(e.kind) == a.source
  }

  ghost predicate SnapshotInv(s: System) {
    var acc := s.history.accepted;
    && s.sh.registered == Fold(acc)
    && s.sh.lastApplied == (if acc == [] then 0 else acc[|acc| - 1].n)
    && (forall i, j :: 0 <= i < j < |acc| ==> acc[i].n < acc[j].n)
    && (forall j :: 0 <= j < |acc| ==> 0 < acc[j].n <= |s.log|)
    && (forall i, j :: 0 <= j < |acc| && 0 <= i < |s.log| && acc[j].n == i + 1 ==> AcceptedAs(s.log[i], acc[j]))
    && (forall i :: 0 <= i < |s.log| && s.log[i].status.Applied? && s.log[i].status.accepted ==>
          exists j :: 0 <= j < |acc| && acc[j].n == i + 1)
  }

  ghost predicate CountInv(s: System) {
    forall g: nat ::
      s.history.created[g] <= s.history.reopened[g]
                              + (if g < s.sh.generation || s.sh.removeRequested == Some(g) then 1 else 0)
  }

  /** A Pending Remove that no Active Remove holds up is owed progress by some thread. */
  ghost predicate Carried(s: System) {
    s.sh.pending.Some? && s.sh.active.None? ==>
      || s.sh.generation in s.sh.stopping
      || exists u :: 0 <= u < |s.threads| && OwesSchedule(s.threads[u].act)
  }

  // ---------------------------------------------------------------- ranges of the history

  ghost predicate HistoryBounded(s: System) {
    var h := s.history;
    && (forall o :: o in h.claimed ==> o < |s.sh.operations|)
    && (forall o :: o in h.sent ==> o < |s.sh.operations|)
    && (forall o :: o in h.origin ==> o < |s.sh.operations|)
    && (forall c :: c in h.committed ==> c < |s.sh.contexts|)
    && (forall c :: c in h.finished ==> c < |s.sh.contexts|)
    && (forall c :: c in h.starter ==> c < |s.sh.contexts|)
    && (forall k :: k in h.members ==> k < |s.sh.coordinations|)
    && (forall k :: k in h.debt ==> k < |s.sh.coordinations|)
    && (forall k :: k in h.startFailed ==> k < |s.sh.coordinations|)
  }

  /** A window's first cleanup is the only lifecycle Remove created for it, and follows its registers. */
  ghost predicate OriginInv(s: System) {
    var h := s.history;
    && (forall o, p :: o in h.origin && p in h.origin && h.origin[o] == h.origin[p] ==> o == p)
    && (forall o, i :: (o in h.origin && o in h.sent && 0 <= i < |s.log|
                        && s.log[i].kind.Register? && s.log[i].kind.k == Some(h.origin[o])) ==> i + 1 < h.sent[o])
  }

  ghost predicate ThreadsInv(s: System)
    requires WellFormed(s)
  {
    && (forall u :: 0 <= u < |s.threads| ==> ThreadInv(s, u))
    && (s.network.Some? ==> s.network.value < |s.threads| && HoldsNetwork(s.threads[s.network.value].act))
  }

  ghost predicate TablesInv(s: System)
    requires Bounded(s.sh)
  {
    && (forall c :: 0 <= c < |s.sh.contexts| ==> ContextInv(s, c))
    && (forall o :: 0 <= o < |s.sh.operations| ==> OperationInv(s, o))
    && (forall k :: 0 <= k < |s.sh.coordinations| ==> CoordinationInv(s, k))
  }

  ghost predicate Inv(s: System) {
    && WellFormed(s)
    && Slots(s.sh)
    && HistoryBounded(s)
    && ThreadsInv(s)
    && TablesInv(s)
    && LogInv(s)
    && OriginInv(s)
    && SnapshotInv(s)
    && CountInv(s)
    && Carried(s)
  }

  // ---------------------------------------------------------------- one row at a time

  lemma ThreadAt(s: System, u: nat)
    requires Inv(s) && u < |s.threads|
    ensures ThreadBounded(s.sh, s.log, s.threads[u]) && ThreadInv(s, u)
  {
    hide ThreadInv, TablesInv, LogInv, OriginInv, SnapshotInv, CountInv, Carried, HistoryBounded, Slots;
  }

  lemma ContextAt(s: System, c: nat)
    requires Inv(s) && c < |s.sh.contexts|
    ensures ContextInv(s, c)
  {
    hide ContextInv, ThreadsInv, LogInv, OriginInv, SnapshotInv, CountInv, Carried, HistoryBounded, Slots;
  }

  lemma OperationAt(s: System, o: nat)
    requires Inv(s) && o < |s.sh.operations|
    ensures OperationInv(s, o)
  {
    hide OperationInv, ThreadsInv, LogInv, OriginInv, SnapshotInv, CountInv, Carried, HistoryBounded, Slots;
  }

  lemma CoordinationAt(s: System, k: nat)
    requires Inv(s) && k < |s.sh.coordinations|
    ensures CoordinationInv(s, k)
  {
    hide CoordinationInv, ThreadsInv, LogInv, OriginInv, SnapshotInv, CountInv, Carried, HistoryBounded, Slots;
  }
}
