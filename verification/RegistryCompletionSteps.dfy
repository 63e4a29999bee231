/** Applying an RPC completion: what every completion does to the log and the snapshot, and the
    completions of a renewal and of a one-shot Remove. */
module RegistryCompletionSteps {
  import opened Options
  import opened RegistryState
  import opened RegistrySystem
  import opened RegistryInvariant
  import opened RegistrySteps

  /** Entry `n` is applied; `accepted` says that its sequence is newer than any applied before. */
  ghost predicate Applies(s: System, s': System, n: nat, ok: bool, accepted: bool, late: bool) {
    && 0 < n <= |s.log|
    && s.log[n - 1].status == Returned(ok)
    && (accepted ==> n > s.sh.lastApplied)
    && s'.log == s.log[n - 1 := s.log[n - 1].(status := Applied(ok, accepted, late))]
    && s'.sh.lastApplied == (if accepted then n else s.sh.lastApplied)
    && s'.sh.registered == (if accepted then
                              Record(s.sh.registered, SourceOf(s.log[n - 1].kind), ok) else s.sh.registered)
    && s'.history.accepted == (if accepted then s.history.accepted + [Acceptance(n, SourceOf(s.log[n - 1].kind), ok)]
                               else s.history.accepted)
  }

  lemma FoldAppend(accepted: seq<Acceptance>, a: Acceptance)
    ensures Fold(accepted + [a]) == Record(Fold(accepted), a.source, a.ok)
  {
    assert (accepted + [a])[..|accepted|] == accepted;
  }

  lemma ApplySnapshot(s: System, s': System, n: nat, ok: bool, accepted: bool, late: bool)
    requires SnapshotInv(s) && Applies(s, s', n, ok, accepted, late)
    ensures SnapshotInv(s')
  {
    var acc, acc' := s.history.accepted, s'.history.accepted;
    if accepted {
      FoldAppend(acc, acc'[|acc|]);
      assert acc'[|acc|].n == n;
    }
    hide Fold;
    forall i | 0 <= i < |s'.log| && s'.log[i].status.Applied? && s'.log[i].status.accepted
      ensures exists j :: 0 <= j < |acc'| && acc'[j].n == i + 1
    {
      if i != n - 1 {
        var j :| 0 <= j < |acc| && acc[j].n == i + 1;
        assert acc'[j].n == i + 1;
      }
    }
  }

  /** What a completion may do to the rest of the state for the log to keep its meaning. */
  ghost predicate ApplyFrame(s: System, s': System, n: nat, ok: bool, accepted: bool, late: bool)
    requires 0 < n <= |s.log| && Bounded(s'.sh)
  {
    var h, h' := s.history, s'.history;
    var kind := s.log[n - 1].kind;
    && h'.sent == h.sent && h'.topKey == h.topKey && h'.removeSent == h.removeSent && h'.committed == h.committed
    && (forall k :: k in h.debt ==> k in h'.debt && h.debt[k] <= h'.debt[k])
    && WindowsGrow(s, s')
    && s'.sh.generation == s.sh.generation
    && s'.sh.worker == s.sh.worker
    && (s'.sh.active.Some? ==>
          s'.sh.active == s.sh.active && s.sh.active.value < |s.sh.operations|
          && s'.sh.operations[s'.sh.active.value].generation == s.sh.operations[s.sh.active.value].generation)
    && (late ==> accepted && ok && kind.Register? && kind.k.Some?
                  && kind.k.value in h'.debt && n <= h'.debt[kind.k.value])
    && (s'.sh.removed == Some(s'.sh.generation) ==>
          || (h'.removedBy == n && accepted && ok && !late && kind.RemoveOf? && kind.generation == s.sh.generation)
          || (&& s'.sh.removed == s.sh.removed && h'.removedBy == h.removedBy
              && (accepted && ok && (kind.Renew? || (kind.Register? && kind.k.Some?)) ==>
                    kind.generation != s.sh.generation)))
  }

  lemma ApplyEntries(s: System, s': System, n: nat, ok: bool, accepted: bool, late: bool)
    requires Bounded(s.sh) && Bounded(s'.sh) && LogInv(s) && Applies(s, s', n, ok, accepted, late)
    requires ApplyFrame(s, s', n, ok, accepted, late)
    ensures LogInv(s')
  {
    forall i | 0 <= i < |s'.log| ensures EntryInv(s', i) { assert EntryInv(s, i); }
  }

  lemma ApplyOrigin(s: System, s': System, n: nat, ok: bool, accepted: bool, late: bool)
    requires OriginInv(s) && Applies(s, s', n, ok, accepted, late)
    requires s'.history.sent == s.history.sent && s'.history.origin == s.history.origin
    ensures OriginInv(s')
  {
  }

  // ---------------------------------------------------------------- renewals and one-shot Removes

  /** A completion that touches nothing but the snapshot keeps every table. */
  ghost predicate SnapshotOnly(s: System, s': System, t: nat) {
    && Others(s, s', t)
    && |s'.threads| == |s.threads|
    && s'.threads[t].owed == []
    && !s.threads[t].act.OwnStart? && !s.threads[t].act.Removing?
    && KeepsRoles(s, t, s'.threads[t].act)
    && s'.network == s.network && s.network != Some(t) && !HoldsNetwork(s'.threads[t].act)
    && s'.sh == s.sh.(registered := s'.sh.registered, lastApplied := s'.sh.lastApplied)
    && s'.history == s.history.(accepted := s'.history.accepted)
    && s.sh.lastApplied <= s'.sh.lastApplied
    && |s'.log| == |s.log| && LogExtends(s, s')
    && (forall i :: 0 <= i < |s.log| && s.log[i].thread != t ==> s'.log[i] == s.log[i])
  }

  lemma SnapshotOnlyTables(s: System, s': System, t: nat)
    requires Bounded(s.sh) && TablesInv(s) && SnapshotOnly(s, s', t)
    requires s.sh.generation > 0 || (s.sh.registered ==> s'.sh.registered)
    ensures TablesInv(s')
  {
    hide ContextInv, OperationInv, CoordinationInv;
    ContextsKeep(s, s', t);
    OperationsKeep(s, s', t);
    CoordinationsKeep(s, s', t);
  }

  lemma SnapshotOnlyThreads(s: System, s': System, t: nat)
    requires WellFormed(s) && TablesInv(s) && ThreadsInv(s) && SnapshotOnly(s, s', t)
    requires WellFormed(s') && ActionInv(s', t, s'.threads[t].act)
    ensures ThreadsInv(s')
  {
    assert ThreadInv(s', t);
    hide ContextInv, OperationInv, CoordinationInv, ThreadInv, ActionInv;
    ThreadsKeep(s, s', t);
  }

  lemma SnapshotOnlyKeeps(s: System, s': System, t: nat, n: nat, ok: bool, accepted: bool)
    requires Inv(s) && SnapshotOnly(s, s', t) && Applies(s, s', n, ok, accepted, false)
    requires s.sh.generation > 0 || (s.sh.registered ==> s'.sh.registered)
    requires var kind := s.log[n - 1].kind;
      || !accepted
      || kind.OneShotRemove?
      || (kind.Renew? && s.sh.removed != Some(s.sh.generation))
      || (kind.Register? && kind.k.None?)
    requires ActionBounded(s.sh, s.log, s'.threads[t].act)
    requires WellFormed(s') ==> ActionInv(s', t, s'.threads[t].act)
    ensures Inv(s')
  {
    hide ActionInv, TablesInv, ThreadsInv, SnapshotInv, LogInv, OriginInv, Carried;
    SnapshotOnlyWellFormed(s, s', t);
    ApplySnapshot(s, s', n, ok, accepted, false);
    ApplyOrigin(s, s', n, ok, accepted, false);
    CarriedKeeps(s, s', t);
    ApplyEntries(s, s', n, ok, accepted, false);
    SnapshotOnlyThreads(s, s', t);
    SnapshotOnlyTables(s, s', t);
  }

  lemma SnapshotOnlyWellFormed(s: System, s': System, t: nat)
    requires WellFormed(s) && SnapshotOnly(s, s', t) && ActionBounded(s.sh, s.log, s'.threads[t].act)
    ensures WellFormed(s')
  {
    forall u | 0 <= u < |s'.threads| ensures ThreadBounded(s'.sh, s'.log, s'.threads[u]) {
      assert ThreadBounded(s.sh, s.log, s.threads[u]);
    }
  }

  lemma OneShotApplyKeeps(s: System, t: nat, n: nat, ok: bool)
    requires Inv(s) && t < |s.threads| && s.threads[t] == Thread([], OneShotRemoving(Answered(n, ok)))
    requires 0 < n <= |s.log|
    ensures Inv(StepOneShotApply(s, t, n, ok))
  {
    hide TablesInv, LogInv, OriginInv, SnapshotInv, CountInv, Carried, HistoryBounded, Slots;
    assert ThreadInv(s, t);
    var s' := StepOneShotApply(s, t, n, ok);
    SnapshotOnlyKeeps(s, s', t, n, ok, n > s.sh.lastApplied);
  }

  /** An accepted renewal only writes the snapshot: there is no cached cleanup while a Worker is current. */
  lemma RenewalOnlyRecords(sh: Shared, c: nat, n: nat, ok: bool)
    requires Slots(sh) && c < |sh.contexts|
    ensures
      var accepted := Current(sh, c) && n > sh.lastApplied;
      && CommitRenewal(sh, c, n, ok).1 == Renewal(accepted, false, Current(sh, c))
      && CommitRenewal(sh, c, n, ok).0 == (if accepted then sh.(registered := ok, lastApplied := n) else sh)
      && (accepted ==> sh.removed != Some(sh.generation) && sh.generation == sh.contexts[c].generation)
  {
  }

  lemma RenewApplyShape(s: System, t: nat, c: nat, n: nat, ok: bool)
    requires WellFormed(s) && Slots(s.sh) && ThreadsInv(s) && t < |s.threads|
    requires s.threads[t] == Thread([], Renewing(c, Calling(Answered(n, ok))))
    requires ActionBounded(s.sh, s.log, s.threads[t].act)
    ensures SnapshotOnly(s, StepRenewApply(s, t, c, n, ok), t)
    ensures Applies(s, StepRenewApply(s, t, c, n, ok), n, ok, Current(s.sh, c) && n > s.sh.lastApplied, false)
  {
    assert ThreadInv(s, t);
    RenewalOnlyRecords(s.sh, c, n, ok);
    hide Slots, CommitRenewal, ThreadsInv;
  }

  lemma RenewApplyAction(s: System, t: nat, c: nat, n: nat, ok: bool)
    requires WellFormed(s) && Slots(s.sh) && ThreadsInv(s) && t < |s.threads|
    requires s.threads[t] == Thread([], Renewing(c, Calling(Answered(n, ok))))
    requires ActionBounded(s.sh, s.log, s.threads[t].act)
    ensures
      var s' := StepRenewApply(s, t, c, n, ok);
      var next := s'.threads[t].act;
      ActionBounded(s.sh, s.log, next) && (WellFormed(s') ==> ActionInv(s', t, next))
  {
    assert ThreadInv(s, t);
    RenewalOnlyRecords(s.sh, c, n, ok);
    hide Slots, CommitRenewal, ThreadsInv;
  }

  /** The completion of a renewal; the Worker's success never reopens a cleanup responsibility. */
  lemma RenewApplyKeeps(s: System, t: nat, c: nat, n: nat, ok: bool)
    requires Inv(s) && t < |s.threads| && s.threads[t] == Thread([], Renewing(c, Calling(Answered(n, ok))))
    requires ActionBounded(s.sh, s.log, s.threads[t].act)
    ensures Inv(StepRenewApply(s, t, c, n, ok))
  {
    hide LogInv, OriginInv, SnapshotInv, CountInv, Carried, HistoryBounded;
    assert ContextInv(s, c);
    assert ThreadInv(s, t);
    RenewalOnlyRecords(s.sh, c, n, ok);
    RenewApplyShape(s, t, c, n, ok);
    RenewApplyAction(s, t, c, n, ok);
    hide TablesInv, ThreadsInv, Slots, CommitRenewal, StepRenewApply, SnapshotOnly, Applies, ActionInv, WellFormed;
    SnapshotOnlyKeeps(s, StepRenewApply(s, t, c, n, ok), t, n, ok, Current(s.sh, c) && n > s.sh.lastApplied);
  }
}
