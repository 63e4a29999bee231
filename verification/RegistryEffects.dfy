/**
 * What the steps of a start, a finishing Worker, the scheduler and a completion have to bring about, told
 * from the slots they find.  The invariant says what a step may not do; this is what it may not omit.
 */
module RegistryEffects {
  import opened Options
  import opened RegistryState
  import opened RegistrySystem
  import opened RegistryInvariant
  import opened RegistrySections
  import opened RegistryReopening

  // ---------------------------------------------------------------- starting

  /** `start` prepares a context behind its gate exactly if there is neither a Worker nor a token and its
      thread starts. */
  lemma PreparesStart(s: System, s': System, t: nat, ch: Choice)
    requires Slots(s.sh) && WellFormed(s) && Enabled(s, t) && s' == Next(s, t, ch)
    requires s.threads[t] == Thread([], PrepareStart)
    ensures
      var c, free := |s.sh.contexts|, s.sh.worker.None? && s.sh.prepared.None? && ch.started;
      && (free ==>
            && s'.sh == s.sh.(prepared := Some(c), contexts := s.sh.contexts + [
                                Context(s.sh.generation + 1, false, false, None, true, |s.threads|)])
            && s'.threads == s.threads[t := Thread([], OwnStart(c))] + [Thread([], Renewing(c, Gate))])
      && (!free ==> s'.sh == s.sh && s'.threads == s.threads[t := Thread([], Idle)])
  {
    hide WellFormed;
  }

  /** The owner of a token that proceeds makes it the Worker of the next generation and owes its gate. */
  lemma ActivatesStart(s: System, s': System, t: nat, c: nat, ch: Choice)
    requires Slots(s.sh) && WellFormed(s) && Enabled(s, t) && s' == Next(s, t, ch) && ch.way.Proceed?
    requires s.threads[t] == Thread([], OwnStart(c)) && s.sh.prepared == Some(c)
    ensures t < |s'.threads| && SignalGate(c) in s'.threads[t].owed && s'.threads[t].act == AfterActivation(c)
    ensures s'.sh.worker == Some(c) && s'.sh.generation == s.sh.generation + 1
    ensures s'.sh.prepared.None? && s'.sh.pending.None? && s'.sh.coordination.None?
    ensures s'.sh.active == s.sh.active && c < |s'.sh.contexts|
    ensures s.sh.active.Some? ==> s'.sh.contexts[c].waitRemove == s.sh.active
    ensures s.sh.pending.Some? ==> SignalOperation(s.sh.pending.value) in s'.threads[t].owed
    ensures s.sh.coordination.Some? ==> SignalCoordination(s.sh.coordination.value) in s'.threads[t].owed
  {
    ActivateEffect(s.sh, c);
    hide WellFormed, Slots;
  }

  /** A failed `init_app` takes its token out if it is still there, and owes its gate; once its start is
      committed, settling wakes the thread and withdrawing does nothing. */
  lemma WithdrawsStart(s: System, s': System, t: nat, c: nat, ch: Choice)
    requires WellFormed(s) && Enabled(s, t) && s' == Next(s, t, ch) && c < |s.sh.contexts|
    requires s.threads[t] == Thread([], OwnStart(c)) && ch.way.Withdraw?
    ensures t < |s'.threads| && s'.threads[t].act == Idle
    ensures s.sh.prepared == Some(c) ==>
              && s'.threads[t].owed == [SignalGate(c)] && s'.sh.prepared.None?
              && s'.sh.worker == s.sh.worker && s'.sh.generation == s.sh.generation
    ensures s.sh.prepared != Some(c) ==> s'.threads[t].owed == [] && s'.sh == s.sh
  {
    hide WellFormed;
  }

  lemma SettlesStart(s: System, s': System, t: nat, c: nat, ch: Choice)
    requires Slots(s.sh) && WellFormed(s) && Enabled(s, t) && s' == Next(s, t, ch) && c < |s.sh.contexts|
    requires s.threads[t] == Thread([], OwnStart(c)) || s.threads[t] == Thread([], AfterActivation(c))
    requires ch.way.SettleIt?
    ensures t < |s'.threads| && s'.threads[t].act == Idle
    ensures s.sh.prepared == Some(c) ==> s'.threads[t].owed == [SignalGate(c)] && s'.sh.prepared.None?
    ensures s.sh.prepared != Some(c) ==> s'.sh == s.sh
    ensures s.sh.prepared != Some(c) && s.sh.contexts[c].owned && (s.sh.worker == Some(c) || Stopping(s.sh, c)) ==>
              s'.threads[t].owed == [SignalGate(c)]
    ensures s'.sh.worker == s.sh.worker && s'.sh.generation == s.sh.generation
  {
    hide WellFormed;
  }

  // ---------------------------------------------------------------- finishing

  /** A finishing Worker leaves the slot and the stopping map, and takes over the Pending Remove of its
      generation if none is Active; otherwise it runs the scheduler. */
  lemma FinishesWorker(s: System, s': System, t: nat, c: nat, ch: Choice)
    requires WellFormed(s) && Enabled(s, t) && s' == Next(s, t, ch) && s.threads[t] == Thread([], Renewing(c, Last))
    requires c < |s.sh.contexts| && (s.sh.worker == Some(c) || Stopping(s.sh, c))
    ensures t < |s'.threads| && s'.threads[t].owed == []
    ensures c < |s'.sh.contexts| && s'.sh.worker != Some(c) && !Stopping(s'.sh, c)
    ensures s.sh.active.None? && s.sh.pending.Some?
            && s.sh.operations[s.sh.pending.value].generation == s.sh.contexts[c].generation ==>
              && s'.sh.active == s.sh.pending && s'.sh.pending.None?
              && s'.threads[t].act == Removing(s.sh.pending.value, End, ToSend)
    ensures !(s.sh.active.None? && s.sh.pending.Some?
              && s.sh.operations[s.sh.pending.value].generation == s.sh.contexts[c].generation) ==>
              && s'.sh.active == s.sh.active && s'.sh.pending == s.sh.pending
              && s'.threads[t].act == ScheduleRemove(false, End)
  {
    hide WellFormed;
  }

  // ---------------------------------------------------------------- the scheduler

  /** The scheduler has something to do: a Pending Remove without an Active one, a stopping Worker of its
      generation or an actor. */
  predicate Startable(sh: Shared)
    requires Bounded(sh)
  {
    && sh.pending.Some? && sh.active.None?
    && sh.operations[sh.pending.value].generation !in sh.stopping
    && sh.operations[sh.pending.value].thread.None?
  }

  lemma SchedulesActor(s: System, s': System, t: nat, raising: bool, r: Return, ch: Choice)
    requires Slots(s.sh) && WellFormed(s) && Enabled(s, t) && s' == Next(s, t, ch)
    requires s.threads[t] == Thread([], ScheduleRemove(raising, r)) && Startable(s.sh)
    ensures
      var o := s.sh.pending.value;
      && (ch.started ==>
            && s'.sh == s.sh.(operations := s.sh.operations[o := s.sh.operations[o].(thread := Some(|s.threads|))])
            && s'.threads == s.threads[t := Thread([], After(r))] + [Thread([], ClaimPending(o))])
      && (!ch.started ==>
            && o < |s'.sh.operations| && s'.sh.operations[o].result == Some(false) && s'.sh.active.None?
            && s'.threads == s.threads[t := Thread([SignalOperation(o)], if raising then Idle else After(r))])
  {
    hide WellFormed;
  }

  // ---------------------------------------------------------------- completions

  /** The Remove cleans up: a success of the current generation, newer than any completion applied, with no
      Worker. */
  predicate Satisfies(sh: Shared, o: nat, n: nat, ok: bool)
    requires o < |sh.operations|
  {
    ok && n > sh.lastApplied && sh.worker.None? && sh.operations[o].generation == sh.generation
  }

  /** A completed Remove stores its result and frees the Active slot; it is cached, and takes the Pending
      Remove with it, exactly if it cleans up; it decides the snapshot if it is newer than any before. */
  lemma CompletesRemove(s: System, s': System, t: nat, o: nat, n: nat, ok: bool, r: Return, ch: Choice)
    requires Slots(s.sh) && WellFormed(s) && Enabled(s, t) && s' == Next(s, t, ch) && s.sh.active == Some(o)
    requires s.threads[t] == Thread([], Removing(o, r, Answered(n, ok)))
    ensures
      var sh, sh', g := s.sh, s'.sh, s.sh.generation;
      && t < |s'.threads| && SignalOperation(o) in s'.threads[t].owed && s'.threads[t].act == ScheduleRemove(false, r)
      && sh'.active.None? && o < |sh'.operations| && sh'.operations[o].result == Some(ok)
      && (n > sh.lastApplied ==> sh'.lastApplied == n && sh'.registered == (sh.registered && !ok))
      && (n <= sh.lastApplied ==> sh'.lastApplied == sh.lastApplied && sh'.registered == sh.registered)
      && (Satisfies(sh, o, n, ok) ==>
            && sh'.removed == Some(g) && sh'.removedResult == Some(true) && sh'.removeRequested == Some(g)
            && sh'.pending.None?
            && (sh.pending.Some? ==> SignalOperation(sh.pending.value) in s'.threads[t].owed)
            && (Drained(sh) ==> sh'.coordination.None?))
      && (!Satisfies(sh, o, n, ok) ==>
            sh'.removed == sh.removed && sh'.removedResult == sh.removedResult && sh'.pending == sh.pending)
  {
    assert Bounded(s.sh);
    hide WellFormed;
    CompleteEffect(s.sh, o, n, ok);
    if Satisfies(s.sh, o, n, ok) && Drained(s.sh) { DrainedEnds(s.sh, o, n, ok); }
    hide Complete, Slots;
  }

  lemma DrainedEnds(sh: Shared, o: nat, n: nat, ok: bool)
    requires Slots(sh) && sh.active == Some(o) && Satisfies(sh, o, n, ok) && Drained(sh)
    ensures Complete(sh, o, n, ok).0.coordination.None?
  {
  }
}
