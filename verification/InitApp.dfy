/**
 * `init_app` as a transaction: it publishes a Runtime step by step, any step may raise, others may
 * act between any two steps, and one step, the Blueprint, cannot be undone.
 *
 * Objects are compared by identity in the program, so they are numbers here: `me` is this call's
 * Runtime, and also names its finalizer and its log manager; `blueprint` is this call's Blueprint.
 */
module InitApp {
  import opened Options
  import opened RegistryState
  import opened RegistryInvariant
  import opened RegistrySections

  /** The command object of this package. */
  const XXLJOB_CLI: nat := 0

  /** The steps that may raise; `Announcement` is the log line at the end. */
  datatype Step =
    | LogManager | Services | Token | Finalizer
    | Command | Extension | Record | Attachment | Blueprint | Activation | Announcement

  /** The order of the steps. */
  function Rank(step: Step): nat {
    match step
    case LogManager => 0
    case Services => 1
    case Token => 2
    case Finalizer => 3
    case Command => 4
    case Extension => 5
    case Record => 6
    case Attachment => 7
    case Blueprint => 8
    case Activation => 9
    case Announcement => 10
  }

  /** What a call meets: its configuration, whether its preflight is refused, the thread of its prepared
      start and whether it starts, whether Flask takes the Blueprint in, the step that raises, and
      whether an activation that raises has committed. */
  datatype World = World(
    enabled: bool,
    auto: bool,
    refused: bool,
    thread: nat,
    started: bool,
    accepts: bool,
    commits: bool,
    fault: Option<Step>)

  predicate MakesToken(w: World, sh: Shared) {
    w.enabled && w.auto && w.started && sh.worker.None? && sh.prepared.None?
  }

  /** The step of the private part that raises, if one does: one that is not performed does not. */
  function PrivateFailure(w: World, sh: Shared): Option<Step> {
    if w.fault in {Some(LogManager), Some(Services)} then w.fault
    else if w.enabled && w.auto
         && (w.fault == Some(Token) || (!w.started && sh.worker.None? && sh.prepared.None?)) then Some(Token)
    else if w.fault == Some(Finalizer) then w.fault
    else None
  }

  /** The step of the commit that raises, if one does. */
  function PublicFailure(w: World, token: bool): Option<Step> {
    if w.fault in {Some(LogManager), Some(Services), Some(Token), Some(Finalizer)} then None
    else if (w.fault == Some(Blueprint) && !w.enabled) || (w.fault == Some(Activation) && !token) then None
    else w.fault
  }

  function Failure(w: World, sh: Shared): Option<Step> {
    if PrivateFailure(w, sh).Some? then PrivateFailure(w, sh) else PublicFailure(w, MakesToken(w, sh))
  }

  /** The call has completed the step, or entered it. */
  predicate Past(failure: Option<Step>, step: Step) {
    failure.Some? ==> Rank(failure.value) > Rank(step)
  }

  predicate Enters(failure: Option<Step>, step: Step) {
    failure.Some? ==> Rank(failure.value) >= Rank(step)
  }

  /** Who wrote a slot last since the call began; a cleanup does not count. */
  datatype Write<T> = Nobody | Us | Theirs(value: T)

  /** The slots when the call began. */
  datatype Before = Before(extension: Option<nat>, command: Option<nat>, recorded: bool)

  /** The slots whose cleanup has run. */
  datatype Gone = Gone(extension: bool, command: bool, record: bool)

  const NOT_GONE: Gone := Gone(false, false, false)

  /** The cleanups of a failed call that raise themselves; each has a `try` of its own. */
  datatype Broken = Broken(token: bool, finalizer: bool, command: bool, extension: bool, record: bool, logs: bool)

  const NOTHING_BROKEN: Broken := Broken(false, false, false, false, false, false)

  /** The `extensions` slot is as it was, as this call wrote it or as others did; a cleanup empties it of
      what this call wrote, and keeps what others wrote. */
  predicate ExtensionTracked(now: Option<nat>, last: Write<Option<nat>>, me: nat, was: Option<nat>, gone: bool) {
    match last
    case Nobody => now == was != Some(me)
    case Us => now == if gone then None else Some(me)
    case Theirs(v) => now == v != Some(me)
  }

  /** The same for the command, where a cleanup cannot tell this package's own command, written by others,
      from what this call wrote. */
  predicate CommandTracked(now: Option<nat>, last: Write<Option<nat>>, was: Option<nat>, gone: bool) {
    match last
    case Nobody => now == was
    case Us => now == if gone then None else Some(XXLJOB_CLI)
    case Theirs(v) => now == v || (gone && v == Some(XXLJOB_CLI) && now.None?)
  }

  /** The same for the record, whose cleanup drops the application whoever added it. */
  predicate RecordTracked(now: bool, last: Write<bool>, was: bool, gone: bool) {
    match last
    case Nobody => now == was || (gone && !now)
    case Us => now == !gone
    case Theirs(v) => now == v || (gone && !now)
  }

  /** The steps of the commit follow one another. */
  lemma CommitOrder(failure: Option<Step>)
    requires Enters(failure, Command)
    ensures Past(failure, Command) <==> failure != Some(Command)
    ensures Past(failure, Extension) <==> Past(failure, Command) && failure != Some(Extension)
    ensures Enters(failure, Record) <==> Past(failure, Extension)
    ensures Past(failure, Record) <==> Enters(failure, Record) && failure != Some(Record)
    ensures Past(failure, Attachment) <==> Past(failure, Record) && failure != Some(Attachment)
    ensures Enters(failure, Blueprint) <==> Past(failure, Attachment)
    ensures Past(failure, Blueprint) <==> Enters(failure, Blueprint) && failure != Some(Blueprint)
    ensures Past(failure, Activation) <==> Past(failure, Blueprint) && failure != Some(Activation)
    ensures failure.None? <==> Past(failure, Activation) && failure != Some(Announcement)
  {
  }

  /** The Flask application, the record of initialised applications and the Registry of the Runtime. */
  class Host {
    var extension: Option<nat>    // the Runtime in `app.extensions`
    var command: Option<nat>      // the command under this package's name
    var recorded: bool            // whether the application is in the record
    var blueprints: set<nat>
    var armed: set<nat>           // live finalizers
    var openLogs: set<nat>        // open log managers
    var registry: Shared          // the Registry state of the Runtime

    ghost var lastExtension: Write<Option<nat>>
    ghost var lastCommand: Write<Option<nat>>
    ghost var lastRecord: Write<bool>

    constructor (recorded: bool)
      ensures extension.None? && command.None? && this.recorded == recorded
      ensures blueprints == {} && armed == {} && openLogs == {} && registry == INITIAL
      ensures Valid()
    {
      extension, command := None, None;
      this.recorded := recorded;
      blueprints, armed, openLogs := {}, {}, {};
      registry := INITIAL;
      lastExtension, lastCommand, lastRecord := Nobody, Nobody, Nobody;
    }

    ghost predicate Valid()
      reads this`registry
    {
      Bounded(registry) && Slots(registry)
    }

    ghost predicate Tracked(me: nat, was: Before, gone: Gone)
      reads this`extension, this`command, this`recorded,
            this`lastExtension, this`lastCommand, this`lastRecord
    {
      && ExtensionTracked(extension, lastExtension, me, was.extension, gone.extension)
      && CommandTracked(command, lastCommand, was.command, gone.command)
      && RecordTracked(recorded, lastRecord, was.recorded, gone.record)
    }

    /** What others may do between two steps: write any slot, remove Blueprints, stop the Registry or
        prepare a start of their own.  They never publish this call's objects; `quiet` keeps them out. */
    method Others(quiet: bool, me: nat, blueprint: nat, ghost was: Before, ghost gone: Gone)
      requires Valid() && Tracked(me, was, gone)
      modifies this`extension, this`command, this`blueprints, this`recorded, this`registry
      modifies this`lastExtension, this`lastCommand, this`lastRecord
      ensures Valid() && Tracked(me, was, gone) && Later(old(registry))
      ensures lastExtension == old(lastExtension) || lastExtension.Theirs?
      ensures lastCommand == old(lastCommand) || lastCommand.Theirs?
      ensures (lastRecord == old(lastRecord) && recorded == old(recorded)) || lastRecord.Theirs?
      ensures blueprint in blueprints ==> blueprint in old(blueprints)
      ensures quiet ==>
                && lastExtension == old(lastExtension) && lastCommand == old(lastCommand)
                && lastRecord == old(lastRecord)
                && command == old(command) && recorded == old(recorded)
                && blueprints == old(blueprints) && registry == old(registry)
    {
      hide ExtensionTracked, CommandTracked, RecordTracked, Slots, Bounded;
      if !quiet {
        OthersPublish(me, was, gone);
        var b: set<nat> :| blueprint in b ==> blueprint in blueprints;
        blueprints := b;
        OthersControl();
      }
    }

    method OthersPublish(me: nat, ghost was: Before, ghost gone: Gone)
      requires Tracked(me, was, gone)
      modifies this`extension, this`command, this`recorded, this`lastExtension, this`lastCommand, this`lastRecord
      ensures Tracked(me, was, gone)
      ensures lastExtension == old(lastExtension) || lastExtension.Theirs?
      ensures lastCommand == old(lastCommand) || lastCommand.Theirs?
      ensures (lastRecord == old(lastRecord) && recorded == old(recorded)) || lastRecord.Theirs?
    {
      var e: Option<nat> :| e != Some(me);
      var c: Option<nat>, r: bool :| true;
      if * { extension, lastExtension := e, Theirs(e); }
      if * { command, lastCommand := c, Theirs(c); }
      if * { recorded, lastRecord := r, Theirs(r); }
    }

    method OthersControl()
      requires Valid()
      modifies this`registry
      ensures Valid() && Later(old(registry))
    {
      hide Slots, Bounded, RegistryState.Prepare, Stop;
      if * {
        StopKeepsToken(registry);
        registry := Stop(registry, false).0;
      } else if * {
        PrepareKeepsWorker(registry, 0, true);
        registry := RegistryState.Prepare(registry, 0, true).0;
      }
    }

    // -------------------------------------------------------------- preparation

    /** The private part of the call: nothing is published yet. */
    method Prepare(w: World, me: nat)
      returns (failed: bool, logs: bool, token: Option<nat>, finalizer: bool)
      requires Valid()
      modifies this`armed, this`openLogs, this`registry
      ensures Valid()
      ensures (failed <==> PrivateFailure(w, old(registry)).Some?) && (!failed ==> logs)
      ensures logs == Past(PrivateFailure(w, old(registry)), LogManager) && finalizer == !failed
      ensures openLogs == old(openLogs) + (if logs then {me} else {})
      ensures armed == old(armed) + (if finalizer then {me} else {})
      ensures registry.worker == old(registry.worker) && registry.generation == old(registry.generation)
      ensures token == if Past(PrivateFailure(w, old(registry)), Token) && MakesToken(w, old(registry))
                       then Some(old(|registry.contexts|)) else None
      ensures token.Some? ==> registry.prepared == token && token.value < |registry.contexts|
      ensures token.None? ==> registry == old(registry)
    {
      hide Slots, Bounded, RegistryState.Prepare;
      failed, logs, token, finalizer := true, false, None, false;
      if w.fault == Some(LogManager) { return; }
      openLogs := openLogs + {me};
      logs := true;
      if w.fault == Some(Services) { return; }
      if w.enabled && w.auto {
        if w.fault == Some(Token) { return; }
        PrepareKeepsWorker(registry, w.thread, w.started);
        var (after, prepared) := RegistryState.Prepare(registry, w.thread, w.started);
        if prepared.None? && !w.started && registry.worker.None? && registry.prepared.None? { return; }
        registry, token := after, prepared;
      }
      if w.fault == Some(Finalizer) { return; }
      armed := armed + {me};
      finalizer := true;
      failed := false;
    }

    // -------------------------------------------------------------- commit

    /** The command is added unless it is there; another command of the name refuses the call. */
    method PublishCommand(quiet: bool, failure: Option<Step>, me: nat, blueprint: nat, ghost was: Before)
      returns (failed: bool, cliAdded: bool)
      requires Valid() && Tracked(me, was, NOT_GONE) && blueprint !in blueprints && lastCommand.Nobody?
      modifies this`extension, this`command, this`blueprints, this`recorded, this`registry
      modifies this`lastExtension, this`lastCommand, this`lastRecord
      ensures Valid() && Tracked(me, was, NOT_GONE) && Later(old(registry)) && blueprint !in blueprints
      ensures (lastCommand.Us? ==> cliAdded) && (cliAdded ==> !lastCommand.Nobody?)
      ensures !failed && lastCommand.Nobody? ==> was.command == Some(XXLJOB_CLI)
      ensures failure == Some(Command) ==> failed
      ensures failed && failure != Some(Command) ==>
                lastCommand.Theirs? || was.command !in {None, Some(XXLJOB_CLI)}
      ensures lastExtension == old(lastExtension) || lastExtension.Theirs?
      ensures lastRecord == old(lastRecord) || lastRecord.Theirs?
      ensures quiet ==> Kept(old(registry), old(blueprints)) && lastRecord == old(lastRecord)
                        && lastExtension == old(lastExtension)
      ensures quiet && was.command in {None, Some(XXLJOB_CLI)} ==>
                && failed == (failure == Some(Command)) && cliAdded == (was.command.None? && !failed)
                && lastCommand == (if cliAdded then Us else Nobody)
    {
      hide Slots, Bounded, ExtensionTracked, RecordTracked;
      cliAdded := false;
      Others(quiet, me, blueprint, was, NOT_GONE);
      failed := failure == Some(Command) || (command.Some? && command != Some(XXLJOB_CLI));
      if !failed && command.None? {
        cliAdded := true;
        command, lastCommand := Some(XXLJOB_CLI), Us;
      }
    }

    /** The Runtime replaces whatever the slot holds. */
    method PublishExtension(quiet: bool, failure: Option<Step>, me: nat, blueprint: nat, ghost was: Before)
      returns (failed: bool)
      requires Valid() && Tracked(me, was, NOT_GONE) && blueprint !in blueprints
      modifies this`extension, this`command, this`blueprints, this`recorded, this`registry
      modifies this`lastExtension, this`lastCommand, this`lastRecord
      ensures Valid() && Tracked(me, was, NOT_GONE) && Later(old(registry)) && blueprint !in blueprints
      ensures lastCommand == old(lastCommand) || lastCommand.Theirs?
      ensures lastRecord == old(lastRecord) || lastRecord.Theirs?
      ensures failed == (failure == Some(Extension)) && (!failed ==> lastExtension.Us?)
      ensures quiet ==> Kept(old(registry), old(blueprints)) && lastRecord == old(lastRecord)
                        && lastCommand == old(lastCommand)
                        && lastExtension == (if failed then old(lastExtension) else Us)
    {
      hide Slots, Bounded, CommandTracked, RecordTracked;
      Others(quiet, me, blueprint, was, NOT_GONE);
      failed := failure == Some(Extension);
      if !failed {
        extension, lastExtension := Some(me), Us;
      }
    }

    /** The application is recorded, which is noted before it happens, and the finalizer is attached. */
    method PublishRecord(quiet: bool, failure: Option<Step>, me: nat, blueprint: nat, ghost was: Before)
      returns (failed: bool)
      requires Valid() && Tracked(me, was, NOT_GONE) && blueprint !in blueprints && !lastExtension.Nobody?
      modifies this`extension, this`command, this`blueprints, this`recorded, this`registry
      modifies this`lastExtension, this`lastCommand, this`lastRecord
      ensures Valid() && Tracked(me, was, NOT_GONE) && Later(old(registry)) && blueprint !in blueprints
      ensures lastCommand == old(lastCommand) || lastCommand.Theirs?
      ensures !lastExtension.Nobody? && (!failed ==> !lastRecord.Nobody?)
      ensures failed == (failure in {Some(Record), Some(Attachment)})
      ensures quiet ==> Kept(old(registry), old(blueprints)) && lastCommand == old(lastCommand)
                        && lastExtension == old(lastExtension)
                        && lastRecord == (if failure == Some(Record) then old(lastRecord) else Us)
    {
      hide Slots, Bounded, CommandTracked, ExtensionTracked;
      Others(quiet, me, blueprint, was, NOT_GONE);
      failed := failure == Some(Record);
      if !failed {
        recorded, lastRecord := true, Us;
        Others(quiet, me, blueprint, was, NOT_GONE);
        failed := failure == Some(Attachment);
      }
    }

    ghost predicate Kept(sh: Shared, published: set<nat>)
      reads this`registry, this`blueprints
    {
      registry == sh && blueprints == published
    }

    /** The reversible part of the commit: the command, the Runtime and the record, in this order. */
    method PublishRuntime(quiet: bool, failure: Option<Step>, me: nat, blueprint: nat, ghost was: Before)
      returns (failed: bool, cliAdded: bool, recordAdded: bool)
      requires Valid() && Tracked(me, was, NOT_GONE) && blueprint !in blueprints
      requires lastExtension.Nobody? && lastCommand.Nobody? && lastRecord.Nobody?
      requires Enters(failure, Command)
      modifies this`extension, this`command, this`blueprints, this`recorded, this`registry
      modifies this`lastExtension, this`lastCommand, this`lastRecord
      ensures Valid() && Tracked(me, was, NOT_GONE) && Later(old(registry)) && blueprint !in blueprints
      ensures (lastCommand.Us? ==> cliAdded) && (cliAdded ==> !lastCommand.Nobody?)
      ensures lastRecord.Us? ==> recordAdded
      ensures !failed ==> AllWritten(was)
      ensures recordAdded ==> Enters(failure, Record)
      ensures !failed ==> recordAdded && Past(failure, Attachment)
      ensures Enters(failure, Record) && was.command in {None, Some(XXLJOB_CLI)} ==>
                recordAdded || lastCommand.Theirs?
      ensures quiet ==> Kept(old(registry), old(blueprints))
      ensures quiet && was.command in {None, Some(XXLJOB_CLI)} ==>
                && failed == !Past(failure, Attachment)
                && cliAdded == (was.command.None? && Past(failure, Command))
                && recordAdded == Enters(failure, Record)
                && Wrote(cliAdded, Past(failure, Extension), Past(failure, Record))
    {
      CommitOrder(failure);
      hide Slots, Bounded, ExtensionTracked, CommandTracked, RecordTracked, Past, Enters, Tracked;
      recordAdded := false;
      failed, cliAdded := PublishCommand(quiet, failure, me, blueprint, was);
      if !failed {
        failed := PublishExtension(quiet, failure, me, blueprint, was);
        if !failed {
          recordAdded := true;
          failed := PublishRecord(quiet, failure, me, blueprint, was);
        }
      }
    }

    /** The Registry state is a later one of the same generation, in which no token has come back. */
    ghost predicate Later(sh: Shared)
      reads this`registry
    {
      && registry.generation == sh.generation
      && |sh.contexts| <= |registry.contexts|
      && (registry.prepared.None? || registry.prepared == sh.prepared
          || registry.prepared.value >= |sh.contexts|)
    }

    /** Every slot has been written, or already held what this call would write. */
    ghost predicate AllWritten(was: Before)
      reads this`lastExtension, this`lastCommand, this`lastRecord
    {
      && !lastExtension.Nobody? && !lastRecord.Nobody?
      && (lastCommand.Nobody? ==> was.command == Some(XXLJOB_CLI))
    }

    /** What this call wrote, undisturbed. */
    ghost predicate Wrote(command: bool, extension: bool, record: bool)
      reads this`lastExtension, this`lastCommand, this`lastRecord
    {
      && lastCommand == (if command then Us else Nobody)
      && lastExtension == (if extension then Us else Nobody)
      && lastRecord == (if record then Us else Nobody)
    }

    /** Registering the Blueprint, which Flask may take in or not, and may raise after either. */
    method PublishBlueprint(quiet: bool, failure: Option<Step>, accepts: bool, me: nat, blueprint: nat,
                            ghost was: Before)
      returns (failed: bool, published: bool)
      requires Valid() && Tracked(me, was, NOT_GONE) && AllWritten(was) && blueprint !in blueprints
      modifies this`extension, this`command, this`blueprints, this`recorded, this`registry
      modifies this`lastExtension, this`lastCommand, this`lastRecord
      ensures Valid() && Tracked(me, was, NOT_GONE) && AllWritten(was) && Later(old(registry))
      ensures (lastCommand.Us? ==> old(lastCommand).Us?) && (lastRecord.Us? ==> old(lastRecord).Us?)
      ensures lastCommand.Nobody? ==> old(lastCommand).Nobody?
      ensures published ==> accepts
      ensures failed <==> failure == Some(Blueprint)
      ensures quiet ==>
                && blueprints == old(blueprints) + (if accepts then {blueprint} else {}) && published == accepts
                && registry == old(registry) && lastCommand == old(lastCommand)
                && lastExtension == old(lastExtension) && lastRecord == old(lastRecord)
    {
      hide Slots, Bounded, ExtensionTracked, CommandTracked, RecordTracked;
      if accepts { blueprints := blueprints + {blueprint}; }
      Others(quiet, me, blueprint, was, NOT_GONE);
      published := blueprint in blueprints;
      failed := failure == Some(Blueprint);
    }

    /** Activating the prepared start; `commits` says whether a failing activation had already committed. */
    method ActivateToken(failure: Option<Step>, token: Option<nat>, commits: bool)
      returns (failed: bool, activated: bool)
      requires Valid() && (token.Some? ==> token.value < |registry.contexts|)
      modifies this`registry
      ensures Valid() && |registry.contexts| == old(|registry.contexts|)
      ensures activated <==>
                token.Some? && old(registry.prepared) == token && (failure != Some(Activation) || commits)
      ensures registry.generation == old(registry.generation) + (if activated then 1 else 0)
      ensures activated ==> registry.prepared.None? && registry.worker == token
      ensures !activated ==> registry == old(registry)
      ensures failed <==> token.Some? && failure == Some(Activation)
    {
      hide Slots, Bounded, Activate;
      activated := false;
      failed := token.Some? && failure == Some(Activation);
      if token.Some? && (!failed || commits) {
        ActivateCommitsOwn(registry, token.value);
        var (after, out) := Activate(registry, token.value);
        registry, activated := after, out.Activated?;
      }
    }

    /** The end of the commit: activation and the log line. */
    method FinishCommit(quiet: bool, failure: Option<Step>, token: Option<nat>, commits: bool, me: nat, blueprint: nat,
                        ghost was: Before)
      returns (failed: bool, activated: bool)
      requires Valid() && Tracked(me, was, NOT_GONE) && AllWritten(was)
      requires token.Some? ==> token.value < |registry.contexts|
      modifies this`extension, this`command, this`blueprints, this`recorded, this`registry
      modifies this`lastExtension, this`lastCommand, this`lastRecord
      ensures Valid() && Tracked(me, was, NOT_GONE) && AllWritten(was)
              && |registry.contexts| >= old(|registry.contexts|)
              && registry.generation == old(registry.generation) + (if activated then 1 else 0)
      ensures failed <==> (token.Some? && failure == Some(Activation)) || failure == Some(Announcement)
      ensures activated ==> token.Some? && (failure != Some(Activation) || commits)
      ensures (lastCommand.Us? ==> old(lastCommand).Us?) && (lastRecord.Us? ==> old(lastRecord).Us?)
      ensures lastCommand.Nobody? ==> old(lastCommand).Nobody?
      ensures quiet ==>
                && activated == (token.Some? && old(registry.prepared) == token
                                 && (failure != Some(Activation) || commits))
                && blueprints == old(blueprints) && lastCommand == old(lastCommand)
                && lastExtension == old(lastExtension) && lastRecord == old(lastRecord)
      ensures quiet && !activated ==> registry == old(registry)
      ensures quiet && activated ==> registry.prepared.None? && registry.worker == token
    {
      hide Slots, Bounded, ExtensionTracked, CommandTracked, RecordTracked;
      Others(quiet, me, blueprint, was, NOT_GONE);
      failed, activated := ActivateToken(failure, token, commits);
      if !failed {
        Others(quiet, me, blueprint, was, NOT_GONE);
        failed := failure == Some(Announcement);
      }
    }

    /** The whole commit, up to its first step that raises. */
    method Commit(quiet: bool, w: World, me: nat, blueprint: nat, token: Option<nat>, ghost was: Before)
      returns (failed: bool, published: bool, cliAdded: bool, recordAdded: bool, activated: bool)
      requires Valid() && Tracked(me, was, NOT_GONE) && blueprint !in blueprints
      requires lastExtension.Nobody? && lastCommand.Nobody? && lastRecord.Nobody?
      requires token.Some? ==> token.value < |registry.contexts| && registry.prepared == token
      modifies this`extension, this`command, this`blueprints, this`recorded, this`registry
      modifies this`lastExtension, this`lastCommand, this`lastRecord
      ensures Valid() && Tracked(me, was, NOT_GONE) && |registry.contexts| >= old(|registry.contexts|)
              && registry.generation == old(registry.generation) + (if activated then 1 else 0)
      ensures (lastCommand.Us? ==> cliAdded) && (cliAdded ==> !lastCommand.Nobody?)
      ensures lastRecord.Us? ==> recordAdded
      ensures published || !failed ==> AllWritten(was)
      ensures published ==> w.enabled && w.accepts && recordAdded
      ensures activated ==> token.Some? && recordAdded && Activates(PublicFailure(w, token.Some?), w.commits)
                            && failed == (w.fault in {Some(Activation), Some(Announcement)})
      ensures recordAdded ==> Enters(PublicFailure(w, token.Some?), Record)
      ensures Enters(PublicFailure(w, token.Some?), Record) && was.command in {None, Some(XXLJOB_CLI)} ==>
                recordAdded || lastCommand.Theirs?
      ensures quiet && was.command in {None, Some(XXLJOB_CLI)} ==>
                var failure := PublicFailure(w, token.Some?);
                && failed == failure.Some?
                && published == (w.enabled && w.accepts && Enters(failure, Blueprint))
                && activated == (token.Some? && Activates(failure, w.commits))
                && cliAdded == (was.command.None? && Past(failure, Command))
                && recordAdded == Enters(failure, Record)
                && Wrote(cliAdded, Past(failure, Extension), Past(failure, Record))
                && blueprints == old(blueprints) + (if published then {blueprint} else {})
      ensures quiet && !activated ==> registry == old(registry)
      ensures quiet && activated ==> token.Some? && registry.prepared.None? && registry.worker == token
    {
      var failure := PublicFailure(w, token.Some?);
      PublicOrder(w, token.Some?);
      CommitOrder(failure);
      hide Slots, Bounded, ExtensionTracked, CommandTracked, RecordTracked, Past, Enters, PublicFailure, Tracked;
      published, activated := false, false;
      failed, cliAdded, recordAdded := PublishRuntime(quiet, failure, me, blueprint, was);
      if !failed {
        if w.enabled {
          failed, published := PublishBlueprint(quiet, failure, w.accepts, me, blueprint, was);
        }
        if !failed {
          failed, activated := FinishCommit(quiet, failure, token, w.commits, me, blueprint, was);
        }
      }
    }

    // -------------------------------------------------------------- rollback

    method RemoveCommand(ghost me: nat, ghost was: Before, ghost gone: Gone)
      requires Tracked(me, was, gone) && !lastCommand.Nobody?
      modifies this`command
      ensures command == if old(command) == Some(XXLJOB_CLI) then None else old(command)
      ensures Tracked(me, was, gone.(command := true))
    {
      if command == Some(XXLJOB_CLI) { command := None; }
    }

    method RemoveExtension(me: nat, ghost was: Before, ghost gone: Gone)
      requires Tracked(me, was, gone)
      modifies this`extension
      ensures extension == if old(extension) == Some(me) then None else old(extension)
      ensures Tracked(me, was, gone.(extension := true))
    {
      if extension == Some(me) { extension := None; }
    }

    method DiscardRecord(ghost me: nat, ghost was: Before, ghost gone: Gone)
      requires Tracked(me, was, gone)
      modifies this`recorded
      ensures !recorded
      ensures Tracked(me, was, gone.(record := true))
    {
      recorded := false;
    }

    /** The cleanups of what was published, with others acting between them. */
    method Unpublish(quiet: bool, me: nat, blueprint: nat, cliAdded: bool, recordAdded: bool, broken: Broken,
                     ghost was: Before)
      requires Valid() && Tracked(me, was, NOT_GONE) && (cliAdded ==> !lastCommand.Nobody?)
      modifies this`extension, this`command, this`blueprints, this`recorded, this`registry
      modifies this`lastExtension, this`lastCommand, this`lastRecord
      ensures Valid() && Later(old(registry))
      ensures Tracked(me, was, Gone(!broken.extension, cliAdded && !broken.command, recordAdded && !broken.record))
      ensures lastCommand == old(lastCommand) || lastCommand.Theirs?
      ensures lastRecord == old(lastRecord) || lastRecord.Theirs?
      ensures recordAdded && !broken.record ==> !recorded
      ensures quiet ==> Kept(old(registry), old(blueprints)) && lastCommand == old(lastCommand)
                        && lastExtension == old(lastExtension) && lastRecord == old(lastRecord)
    {
      hide Slots, Bounded, ExtensionTracked, CommandTracked, RecordTracked;
      ghost var gone := NOT_GONE;
      if cliAdded && !broken.command {
        RemoveCommand(me, was, gone);
        gone := gone.(command := true);
      }
      Others(quiet, me, blueprint, was, gone);
      if !broken.extension {
        RemoveExtension(me, was, gone);
        gone := gone.(extension := true);
      }
      Others(quiet, me, blueprint, was, gone);
      if recordAdded && !broken.record {
        DiscardRecord(me, was, gone);
        gone := gone.(record := true);
      }
    }

    method CancelToken(token: Option<nat>)
      requires Valid() && (token.Some? ==> token.value < |registry.contexts|)
      modifies this`registry
      ensures Valid() && Later(old(registry)) && |registry.contexts| == old(|registry.contexts|)
      ensures registry.generation == old(registry.generation) && registry.worker == old(registry.worker)
      ensures token.Some? ==> registry.prepared != token
      ensures registry.prepared ==
                if token.Some? && old(registry.prepared) == token then None else old(registry.prepared)
    {
      hide Slots, Bounded, Cancel;
      if token.Some? {
        CancelKeepsWorker(registry, token.value);
        registry := Cancel(registry, token.value).0;
      }
    }

    method SettleToken(token: Option<nat>)
      requires Valid() && (token.Some? ==> token.value < |registry.contexts|)
      modifies this`registry
      ensures Valid() && |registry.contexts| == old(|registry.contexts|)
      ensures registry.generation == old(registry.generation) && registry.worker == old(registry.worker)
      ensures registry.prepared ==
                if token.Some? && old(registry.prepared) == token then None else old(registry.prepared)
    {
      hide Slots, Bounded, Settle;
      if token.Some? {
        SettleKeepsWorker(registry, token.value);
        registry := Settle(registry, token.value).0;
      }
    }

    /** The first cleanups: the token and the finalizer. */
    method CloseRuntime(quiet: bool, me: nat, blueprint: nat, token: Option<nat>, finalizer: bool, broken: Broken,
                        ghost was: Before)
      requires Valid() && Tracked(me, was, NOT_GONE) && (token.Some? ==> token.value < |registry.contexts|)
      modifies this`extension, this`command, this`blueprints, this`recorded, this`registry, this`armed
      modifies this`lastExtension, this`lastCommand, this`lastRecord
      ensures Valid() && Tracked(me, was, NOT_GONE) && (token.Some? ==> token.value < |registry.contexts|)
      ensures armed == if finalizer && !broken.finalizer then old(armed) - {me} else old(armed)
      ensures token.Some? && !broken.token ==> registry.prepared != token
      ensures registry.generation == old(registry.generation)
      ensures lastCommand == old(lastCommand) || lastCommand.Theirs?
      ensures lastRecord == old(lastRecord) || lastRecord.Theirs?
      ensures quiet ==>
                && blueprints == old(blueprints) && lastCommand == old(lastCommand)
                && lastExtension == old(lastExtension) && lastRecord == old(lastRecord)
                && registry.worker == old(registry.worker)
                && (registry.prepared.None? || registry.prepared == old(registry.prepared))
    {
      hide Slots, Bounded, Tracked;
      if !broken.token { CancelToken(token); }
      Others(quiet, me, blueprint, was, NOT_GONE);
      if finalizer && !broken.finalizer { armed := armed - {me}; }
      Others(quiet, me, blueprint, was, NOT_GONE);
    }

    /** `_close_uncommitted_runtime_resources`: every cleanup runs, whichever of the others fail, and takes
        back only what still is this call's. */
    method Close(quiet: bool, me: nat, blueprint: nat, token: Option<nat>, finalizer: bool, cliAdded: bool,
                 recordAdded: bool, logs: bool, broken: Broken, ghost was: Before)
      requires Valid() && Tracked(me, was, NOT_GONE) && (cliAdded ==> !lastCommand.Nobody?)
      requires token.Some? ==> token.value < |registry.contexts|
      modifies this`extension, this`command, this`blueprints, this`recorded, this`registry, this`armed, this`openLogs
      modifies this`lastExtension, this`lastCommand, this`lastRecord
      ensures Valid()
      ensures Tracked(me, was, Gone(!broken.extension, cliAdded && !broken.command, recordAdded && !broken.record))
      ensures armed == if finalizer && !broken.finalizer then old(armed) - {me} else old(armed)
      ensures openLogs == if logs && !broken.logs then old(openLogs) - {me} else old(openLogs)
      ensures token.Some? && !broken.token ==> registry.prepared != token
      ensures recordAdded && !broken.record ==> !recorded || lastRecord.Theirs?
      ensures registry.generation == old(registry.generation)
      ensures lastCommand == old(lastCommand) || lastCommand.Theirs?
      ensures lastRecord == old(lastRecord) || lastRecord.Theirs?
      ensures quiet ==>
                && blueprints == old(blueprints) && lastCommand == old(lastCommand)
                && lastExtension == old(lastExtension) && lastRecord == old(lastRecord)
                && registry.worker == old(registry.worker)
                && (registry.prepared.None? || registry.prepared == old(registry.prepared))
    {
      hide Slots, Bounded, Tracked;
      CloseRuntime(quiet, me, blueprint, token, finalizer, broken, was);
      Unpublish(quiet, me, blueprint, cliAdded, recordAdded, broken, was);
      Others(quiet, me, blueprint, was,
             Gone(!broken.extension, cliAdded && !broken.command, recordAdded && !broken.record));
      if logs && !broken.logs { openLogs := openLogs - {me}; }
    }

    // -------------------------------------------------------------- the whole call

    /** What this call wrote is gone from every slot, and what others wrote since is there. */
    ghost predicate Withdrawn(me: nat, was: Before)
      reads this`extension, this`command, this`recorded,
            this`lastExtension, this`lastCommand, this`lastRecord
    {
      && extension == (match lastExtension case Nobody => was.extension case Us => None case Theirs(v) => v)
      && extension != Some(me)
      && (lastCommand.Nobody? ==> command == was.command)
      && (lastCommand.Us? ==> command.None?)
      && (lastCommand.Theirs? && lastCommand.value != Some(XXLJOB_CLI) ==> command == lastCommand.value)
      && (lastRecord.Us? ==> !recorded)
      && (lastRecord.Nobody? && recorded ==> was.recorded)
      && (lastRecord.Theirs? && recorded ==> lastRecord.value)
    }

    lemma GoneIsWithdrawn(me: nat, was: Before, gone: Gone)
      requires Tracked(me, was, gone) && gone.extension
      requires (lastCommand.Us? ==> gone.command) && (lastRecord.Us? ==> gone.record)
      ensures Withdrawn(me, was)
    {
    }

    /** Unless others write it last, the record is as it was, less what its cleanup drops. */
    lemma RecordLeft(me: nat, was: Before, gone: Gone)
      requires Tracked(me, was, gone) && (lastRecord.Us? ==> gone.record)
      requires gone.record ==> !recorded || lastRecord.Theirs?
      ensures !lastRecord.Theirs? ==> recorded == (was.recorded && !gone.record)
    {
    }

    /** Undisturbed, the slots are as this call found them, but for the record. */
    lemma QuietWithdrawn(me: nat, was: Before, gone: Gone)
      requires Tracked(me, was, gone) && gone.extension && !lastExtension.Theirs? && !lastCommand.Theirs?
      requires !lastRecord.Theirs? && (lastCommand.Us? ==> gone.command) && (lastRecord.Us? ==> gone.record)
      requires (lastExtension.Us? ==> was.extension.None?) && (lastCommand.Us? ==> was.command.None?)
      requires gone.record ==> !recorded
      ensures extension == was.extension && command == was.command && recorded == (was.recorded && !gone.record)
    {
    }

    lemma QuietKept(me: nat, was: Before)
      requires Tracked(me, was, NOT_GONE) && AllWritten(was)
      requires !lastExtension.Theirs? && !lastCommand.Theirs? && !lastRecord.Theirs?
      ensures extension == Some(me) && command == Some(XXLJOB_CLI) && recorded
    {
    }

    /** The call has raised: a token whose Blueprint is visible is settled, anything else is withdrawn. */
    method Fail(quiet: bool, published: bool, me: nat, blueprint: nat, token: Option<nat>, finalizer: bool,
                cliAdded: bool, recordAdded: bool, logs: bool, ghost was: Before)
      requires Valid() && Tracked(me, was, NOT_GONE) && (token.Some? ==> token.value < |registry.contexts|)
      requires (lastCommand.Us? ==> cliAdded) && (cliAdded ==> !lastCommand.Nobody?)
      requires lastRecord.Us? ==> recordAdded
      requires published ==> AllWritten(was)
      modifies this`extension, this`command, this`blueprints, this`recorded, this`registry, this`armed, this`openLogs
      modifies this`lastExtension, this`lastCommand, this`lastRecord
      ensures Valid() && (token.Some? ==> registry.prepared != token)
      ensures registry.generation == old(registry.generation)
      ensures lastCommand == old(lastCommand) || lastCommand.Theirs?
      ensures !published && !lastRecord.Theirs? ==> recorded == (was.recorded && !recordAdded)
      ensures published ==> armed == old(armed) && openLogs == old(openLogs)
                            && Tracked(me, was, NOT_GONE) && AllWritten(was)
      ensures !published ==>
                && Withdrawn(me, was)
                && armed == (if finalizer then old(armed) - {me} else old(armed))
                && openLogs == (if logs then old(openLogs) - {me} else old(openLogs))
      ensures quiet ==> blueprints == old(blueprints) && registry.worker == old(registry.worker)
                        && lastCommand == old(lastCommand) && lastExtension == old(lastExtension)
                        && lastRecord == old(lastRecord)
      ensures quiet && !old(lastExtension).Theirs? && !old(lastCommand).Theirs? && !old(lastRecord).Theirs?
              && was.extension.None? && (old(lastCommand).Us? ==> was.command.None?) ==>
                if published then extension == Some(me) && command == Some(XXLJOB_CLI) && recorded
                else extension == was.extension && command == was.command && recorded == (was.recorded && !recordAdded)
    {
      hide Slots, Bounded, Tracked, Withdrawn, AllWritten;
      if published {
        SettleToken(token);
        assert Tracked(me, was, NOT_GONE) && AllWritten(was);
        if !lastExtension.Theirs? && !lastCommand.Theirs? && !lastRecord.Theirs? { QuietKept(me, was); }
      } else {
        Close(quiet, me, blueprint, token, finalizer, cliAdded, recordAdded, logs, NOTHING_BROKEN, was);
        GoneIsWithdrawn(me, was, Gone(true, cliAdded, recordAdded));
        RecordLeft(me, was, Gone(true, cliAdded, recordAdded));
        if quiet && !lastExtension.Theirs? && !lastCommand.Theirs? && !lastRecord.Theirs?
           && was.extension.None? && (lastCommand.Us? ==> was.command.None?) {
          QuietWithdrawn(me, was, Gone(true, cliAdded, recordAdded));
        }
      }
    }

    /** Everything up to the first step that raises. */
    method Publish(quiet: bool, w: World, me: nat, blueprint: nat, ghost was: Before)
      returns (failed: bool, published: bool, activated: bool, token: Option<nat>, finalizer: bool, cliAdded: bool,
               recordAdded: bool, logs: bool)
      requires Valid() && Tracked(me, was, NOT_GONE) && blueprint !in blueprints
      requires lastExtension.Nobody? && lastCommand.Nobody? && lastRecord.Nobody?
      modifies this
      ensures Valid() && Tracked(me, was, NOT_GONE) && (token.Some? ==> token.value < |registry.contexts|)
      ensures openLogs == old(openLogs) + (if logs then {me} else {})
      ensures armed == old(armed) + (if finalizer then {me} else {})
      ensures (lastCommand.Us? ==> cliAdded) && (cliAdded ==> !lastCommand.Nobody?)
      ensures lastRecord.Us? ==> recordAdded
      ensures published || !failed ==> logs && finalizer && AllWritten(was)
      ensures registry.generation == old(registry.generation) + (if activated then 1 else 0)
      ensures published ==> w.enabled && w.accepts && recordAdded
      ensures activated ==> MakesToken(w, old(registry)) && Activates(Failure(w, old(registry)), w.commits)
                            && Starting(w, old(registry))
                            && recordAdded && failed == (w.fault in {Some(Activation), Some(Announcement)})
      ensures recordAdded ==> Enters(Failure(w, old(registry)), Record)
      ensures Enters(Failure(w, old(registry)), Record) && was.command in {None, Some(XXLJOB_CLI)} ==>
                recordAdded || lastCommand.Theirs?
      ensures quiet && was.command in {None, Some(XXLJOB_CLI)} ==>
                var failure := Failure(w, old(registry));
                && failed == failure.Some?
                && Decided(w, old(registry), true, failed, published, activated, recordAdded)
                && published == (w.enabled && w.accepts && Enters(failure, Blueprint))
                && activated == (MakesToken(w, old(registry)) && Activates(failure, w.commits))
                && recordAdded == Enters(failure, Record)
                && blueprints == old(blueprints) + (if published then {blueprint} else {})
                && !lastExtension.Theirs? && !lastCommand.Theirs? && !lastRecord.Theirs?
                && (lastCommand.Us? ==> was.command.None?)
      ensures quiet ==>
                registry.worker == if activated then Some(old(|registry.contexts|)) else old(registry.worker)
    {
      FailureOrder(w, registry);
      FailureMeans(w, registry);
      StartingMeans(w, registry);
      hide Slots, Bounded, Past, Enters, Activates, Failure, PrivateFailure, PublicFailure, Tracked, AllWritten;
      hide Decided, Starting;
      published, activated, cliAdded, recordAdded := false, false, false, false;
      failed, logs, token, finalizer := Prepare(w, me);
      if !failed {
        failed, published, cliAdded, recordAdded, activated := Commit(quiet, w, me, blueprint, token, was);
      }
    }

    /** Before anything is written the slots are as they were. */
    lemma Unwritten(me: nat, was: Before)
      requires lastExtension.Nobody? && lastCommand.Nobody? && lastRecord.Nobody?
      requires was == Before(extension, command, recorded) && extension != Some(me)
      ensures Tracked(me, was, NOT_GONE) && Withdrawn(me, was)
    {
    }

    /** `init_app`.  `published` says that its Blueprint was visible at the check that follows its
        registration, `recording` that it came to record the application; `kept`, that the call has left
        everything it publishes: it did not raise, or its Blueprint was visible when it did. */
    method InitApp(quiet: bool, w: World, me: nat, blueprint: nat)
      returns (raised: bool, published: bool, activated: bool, recording: bool, token: Option<nat>)
      requires Valid()
      requires me !in armed && me !in openLogs && blueprint !in blueprints && extension != Some(me)
      modifies this
      ensures Valid()
      // Whatever others do, this call's finalizer and log manager are live exactly if everything is kept,
      // no token is left behind, and each slot holds what was written last, less what is withdrawn.
      ensures armed == old(armed) + (if raised && !published then {} else {me})
      ensures openLogs == old(openLogs) + (if raised && !published then {} else {me})
      ensures raised && token.Some? ==> registry.prepared != token
      ensures raised && !published ==>
                Withdrawn(me, Before(old(extension), old(command), old(recorded)))
      ensures !raised || published ==>
                && Tracked(me, Before(old(extension), old(command), old(recorded)), NOT_GONE)
                && AllWritten(Before(old(extension), old(command), old(recorded)))
      // Whatever others do, the generation has moved exactly if the start was activated, and an activated
      // call raises at the log line or in an activation that has committed, and nowhere else.
      ensures registry.generation == old(registry.generation) + (if activated then 1 else 0)
      ensures activated ==>
                && recording && MakesToken(w, old(registry)) && Activates(Failure(w, old(registry)), w.commits)
                && Starting(w, old(registry))
                && (raised <==> w.fault in {Some(Activation), Some(Announcement)})
      ensures published ==> w.enabled && w.accepts && recording
      // Unless others write it, a rollback drops the record exactly if the call came to write it, and it
      // did if no step before raises and others left the command alone.
      ensures raised && !published && !lastRecord.Theirs? ==> recorded == (old(recorded) && !recording)
      ensures recording ==>
                && !w.refused && old(extension).None? && old(command) in {None, Some(XXLJOB_CLI)}
                && Enters(Failure(w, old(registry)), Record)
      ensures (&& !w.refused && old(extension).None? && old(command) in {None, Some(XXLJOB_CLI)}
               && Enters(Failure(w, old(registry)), Record)) ==> recording || lastCommand.Theirs?
      // Undisturbed, the circumstances decide all of it.
      ensures quiet ==>
                Decided(w, old(registry),
                        !w.refused && old(extension).None? && old(command) in {None, Some(XXLJOB_CLI)},
                        raised, published, activated, recording)
      ensures quiet ==>
                var admitted := !w.refused && old(extension).None? && old(command) in {None, Some(XXLJOB_CLI)};
                var failure := Failure(w, old(registry));
                var kept := !raised || published;
                && raised == !(admitted && failure.None?)
                && published == (admitted && w.enabled && w.accepts && Enters(failure, Blueprint))
                && activated == (admitted && MakesToken(w, old(registry)) && Activates(failure, w.commits))
                && extension == (if kept then Some(me) else old(extension))
                && command == (if kept then Some(XXLJOB_CLI) else old(command))
                && recording == (admitted && Enters(failure, Record))
                && recorded == (kept || (old(recorded) && !recording))
                && blueprints == old(blueprints) + (if published then {blueprint} else {})
                && registry.worker == if activated then Some(old(|registry.contexts|)) else old(registry.worker)
    {
      hide Slots, Bounded, Withdrawn, Past, Enters, Activates, Failure, MakesToken, Tracked, AllWritten;
      hide Decided, Starting;
      ghost var was := Before(extension, command, recorded);
      NotAdmitted(w, registry);
      lastExtension, lastCommand, lastRecord := Nobody, Nobody, Nobody;
      raised, published, activated, recording, token := true, false, false, false, None;
      Unwritten(me, was);
      if extension.Some? || w.refused || (command.Some? && command != Some(XXLJOB_CLI)) { return; }
      var failed, finalizer, cliAdded, logs;
      failed, published, activated, token, finalizer, cliAdded, recording, logs
        := Publish(quiet, w, me, blueprint, was);
      if failed {
        Fail(quiet, published, me, blueprint, token, finalizer, cliAdded, recording, logs, was);
      } else {
        raised := false;
        if quiet { QuietKept(me, was); }
      }
    }
  }

  /** The circumstances under which the start of a call is activated, with what the call finds in the slots. */
  predicate Starting(w: World, sh: Shared) {
    && w.enabled && w.auto && w.started && sh.worker.None? && sh.prepared.None?
    && (w.fault in {None, Some(Announcement)} || (w.fault == Some(Activation) && w.commits))
  }

  /** The circumstances under which a call raises before it publishes anything: in its private part, where
      the thread of its start may not start. */
  predicate Early(w: World, sh: Shared) {
    || w.fault in {Some(LogManager), Some(Services), Some(Finalizer)}
    || (w.enabled && w.auto && (w.fault == Some(Token) || (!w.started && sh.worker.None? && sh.prepared.None?)))
  }

  /** What the circumstances of an undisturbed call decide. */
  predicate Decided(w: World, sh: Shared, admitted: bool, raised: bool, published: bool, activated: bool,
                    recording: bool) {
    && (raised <==>
          || !admitted || Early(w, sh)
          || w.fault in {Some(Command), Some(Extension), Some(Record), Some(Attachment), Some(Announcement)}
          || (w.fault == Some(Blueprint) && w.enabled)
          || (w.fault == Some(Activation) && w.enabled && w.auto && w.started
              && sh.worker.None? && sh.prepared.None?))
    && (published <==>
          && admitted && !Early(w, sh) && w.enabled && w.accepts
          && w.fault !in {Some(Command), Some(Extension), Some(Record), Some(Attachment)})
    && (activated <==> admitted && Starting(w, sh))
    && (recording <==> admitted && !Early(w, sh) && w.fault !in {Some(Command), Some(Extension)})
  }

  lemma StartingMeans(w: World, sh: Shared)
    ensures Starting(w, sh) <==> MakesToken(w, sh) && Activates(Failure(w, sh), w.commits)
  {
  }

  lemma EarlyMeans(w: World, sh: Shared)
    ensures Enters(Failure(w, sh), Record) <==> !Early(w, sh) && w.fault !in {Some(Command), Some(Extension)}
    ensures w.enabled ==>
              (Enters(Failure(w, sh), Blueprint) <==>
                 !Early(w, sh) && w.fault !in {Some(Command), Some(Extension), Some(Record), Some(Attachment)})
  {
  }

  lemma NotAdmitted(w: World, sh: Shared)
    ensures Decided(w, sh, false, true, false, false, false)
  {
  }

  lemma FailureMeans(w: World, sh: Shared)
    ensures Decided(w, sh, true, Failure(w, sh).Some?, w.enabled && w.accepts && Enters(Failure(w, sh), Blueprint),
                    MakesToken(w, sh) && Activates(Failure(w, sh), w.commits), Enters(Failure(w, sh), Record))
  {
    StartingMeans(w, sh);
    EarlyMeans(w, sh);
    hide Activates, Starting, Enters;
    if w.fault.Some? {
      match w.fault.value
      case LogManager =>
      case Services =>
      case Token =>
      case Finalizer =>
      case Command =>
      case Extension =>
      case Record =>
      case Attachment =>
      case Blueprint =>
      case Activation =>
      case Announcement =>
    }
  }

  /** The Blueprint of an admitted, undisturbed call is visible when the call is over. */
  predicate Publishes(w: World, sh: Shared) {
    w.enabled && w.accepts && Enters(Failure(w, sh), Blueprint)
  }

  /** An admitted, undisturbed call that is rolled back leaves its Worker running exactly if Flask returned
      from the Blueprint without taking it in and the call raised after its activation had committed.  In
      a disturbed call others may also have removed the Blueprint before the check; what it then leaves
      is in the contract of `InitApp`, by what the check saw. */
  lemma WorkerSurvives(w: World, sh: Shared)
    ensures Failure(w, sh).Some? && !Publishes(w, sh) && MakesToken(w, sh) && Activates(Failure(w, sh), w.commits)
            <==> MakesToken(w, sh) && !w.accepts
                 && (w.fault == Some(Announcement) || (w.fault == Some(Activation) && w.commits))
  {
  }

  /** An admitted, undisturbed call that is rolled back drops an application that was in the record before
      exactly if it raised while recording it or later, with no Blueprint taken in.  A disturbed call
      drops it as well if others have removed the Blueprint before the check. */
  lemma RecordIsLost(w: World, sh: Shared)
    ensures Failure(w, sh).Some? && !Publishes(w, sh) && Enters(Failure(w, sh), Record)
            <==> PrivateFailure(w, sh).None?
                 && (w.fault in {Some(Record), Some(Attachment)}
                     || (!(w.enabled && w.accepts)
                         && (w.fault == Some(Announcement) || (w.fault == Some(Blueprint) && w.enabled)
                             || (w.fault == Some(Activation) && MakesToken(w, sh)))))
  {
  }

  /** An application that was in the record is no longer in it after a call that raises while it records
      the application, though everything else is as before. */
  method LostRecord() returns (raised: bool, before: bool, after: bool)
    ensures raised && before && !after
  {
    var host := new Host(true);
    before := host.recorded;
    var published, activated, recording, token;
    raised, published, activated, recording, token :=
      host.InitApp(true, World(true, true, false, 0, true, true, false, Some(Record)), 1, 1);
    after := host.recorded;
  }

  /** A call whose Blueprint Flask did not take in, and which raises after it has activated its start, is
      rolled back and leaves its Worker running. */
  method SurvivingWorker() returns (raised: bool, published: bool, extension: Option<nat>, worker: Option<nat>)
    ensures raised && !published && extension.None? && worker == Some(0)
  {
    var host := new Host(false);
    var activated, recording, token;
    raised, published, activated, recording, token :=
      host.InitApp(true, World(true, true, false, 0, true, false, false, Some(Announcement)), 1, 1);
    extension, worker := host.extension, host.registry.worker;
  }

  /** A private failure comes before the commit; without one the commit decides. */
  lemma FailureOrder(w: World, sh: Shared)
    ensures PrivateFailure(w, sh).Some? ==> !Enters(Failure(w, sh), Command) && !Enters(Failure(w, sh), Record)
                                            && !Enters(Failure(w, sh), Blueprint)
                                            && !Activates(Failure(w, sh), w.commits)
    ensures PrivateFailure(w, sh).None? ==>
              Failure(w, sh) == PublicFailure(w, MakesToken(w, sh)) && Past(PrivateFailure(w, sh), Token)
    ensures Failure(w, sh).None? ==> PrivateFailure(w, sh).None?
  {
  }

  /** Activation commits: it is entered, and completed or commits before it raises. */
  predicate Activates(failure: Option<Step>, commits: bool) {
    Past(failure, Activation) || (failure == Some(Activation) && commits)
  }

  lemma PublicOrder(w: World, token: bool)
    ensures Enters(PublicFailure(w, token), Command)
    ensures PublicFailure(w, token) == Some(Blueprint) ==> w.enabled
    ensures PublicFailure(w, token) == Some(Activation) ==> token
    ensures token ==> (PublicFailure(w, token) in {Some(Activation), Some(Announcement)}
                       <==> w.fault in {Some(Activation), Some(Announcement)})
  {
  }

  lemma PrepareKeepsWorker(sh: Shared, thread: nat, started: bool)
    requires Slots(sh)
    ensures
      var (sh', token) := RegistryState.Prepare(sh, thread, started);
      && Bounded(sh') && Slots(sh') && sh'.generation == sh.generation && sh'.worker == sh.worker
      && token == (if started && sh.worker.None? && sh.prepared.None? then Some(|sh.contexts|) else None)
      && (if token.Some? then sh'.prepared == token && |sh'.contexts| == |sh.contexts| + 1 else sh' == sh)
  {
    PrepareSlots(sh, thread, started);
  }

  lemma StopKeepsToken(sh: Shared)
    requires Slots(sh)
    ensures
      var sh' := Stop(sh, false).0;
      && Bounded(sh') && Slots(sh') && sh'.prepared.None? && |sh'.contexts| == |sh.contexts|
      && sh'.generation == sh.generation
  {
    StopLocalSlots(sh);
  }

  lemma ActivateCommitsOwn(sh: Shared, c: nat)
    requires Slots(sh) && c < |sh.contexts|
    ensures
      var (sh', out) := Activate(sh, c);
      && Bounded(sh') && Slots(sh') && |sh'.contexts| == |sh.contexts|
      && (if sh.prepared == Some(c)
          then out.Activated? && sh'.worker == Some(c) && sh'.prepared.None? && sh'.generation == sh.generation + 1
          else out.NotOwner? && sh' == sh)
  {
    if sh.prepared == Some(c) { ActivateEffect(sh, c); }
  }

  lemma CancelKeepsWorker(sh: Shared, c: nat)
    requires Slots(sh) && c < |sh.contexts|
    ensures var sh' := Cancel(sh, c).0;
      && Bounded(sh') && Slots(sh') && sh'.generation == sh.generation && sh'.worker == sh.worker
      && |sh'.contexts| == |sh.contexts| && sh'.prepared == (if sh.prepared == Some(c) then None else sh.prepared)
  {
    CancelSlots(sh, c);
  }

  lemma SettleKeepsWorker(sh: Shared, c: nat)
    requires Slots(sh) && c < |sh.contexts|
    ensures var sh' := Settle(sh, c).0;
      && Bounded(sh') && Slots(sh') && sh'.generation == sh.generation && sh'.worker == sh.worker
      && |sh'.contexts| == |sh.contexts| && sh'.prepared == (if sh.prepared == Some(c) then None else sh.prepared)
  {
    CancelSlots(sh, c);
  }
}
