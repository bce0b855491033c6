/** What each call is for, over every run, until the next call is accepted. */
module LifecycleIntent {
  import opened Wrappers
  import opened Lifecycle
  import opened LifecycleRuns
  import opened LifecyclePledge

  /** The record of the next state says that the pending operation is over. */
  ghost predicate Ends(states: seq<State>, j: nat, step: Step)
    requires j + 1 < |states|
  {
    && Pending(states[j].c.record) && PendingOp(states[j].c.record).step == step
    && states[j + 1].c.record.Some? && states[j + 1].c.record.value.op.None?
  }

  /** The call has performed all its writes. */
  ghost predicate Completed(states: seq<State>, events: seq<Event>, i: nat, j: nat)
    requires j < |states| == |events| + 1
  {
    Undisturbed(states, events, i, j) && states[j].todo.Done?
  }

  /** What the pledge says of one state, of the write performed in it, and of the end. */
  lemma PledgeHolds(keep: nat, atomic: bool, states: seq<State>, events: seq<Event>, i: nat, j: nat, call: Call)
    requires IsRun(keep, atomic, states, events) && Until(states, events, i, j, call)
    ensures var p := Pledge(call, states[i].c); var s := states[j];
      && Seen(p, s.c.record, s.c.release)
      && (s.todo.Do? ==> exists v :: Abstracts(v, s.c) && May(p, v, s.todo.write))
      && (Completed(states, events, i, j) ==> End(p, s.c.record, s.c.release))
  {
    hide Next, Seen, May, End, GoesOn;
    CallIsPursued(keep, atomic, states, events, i, j, call);
    var p := Pledge(call, states[i].c);
    var v :| Abstracts(v, states[j].c) && Leads(p, v, states[j].todo, Undisturbed(states, events, i, j));
    LeadsSeen(p, v, states[j].todo, Undisturbed(states, events, i, j));
  }

  /** Only a write of the service changes the record, unless an idle one is lost. */
  lemma RecordIsWritten(keep: nat, atomic: bool, s: State, e: Event, s': State)
    requires Next(keep, atomic, s, e, s') && Pending(s.c.record) && s'.c.record != s.c.record
    ensures e.Perform? && s.todo.Do? && s'.c == Apply(s.c, s.todo.write)
    ensures if s'.c.record.Some? then s.todo.write == Save(s'.c.record.value) else s.todo.write.RemoveRecord?
  {
    hide Plan;
  }

  // ---------------------------------------------------------------- restore

  /** From an accepted restore on, the pending operation is that restore and carries
      the backup and its Forge version; every seed Job is told to extract that backup;
      if a seed ends the operation, record and release name it; and if a snapshot
      ends it, the failure is on record. */
  lemma RestoreBringsItsBackup(
      keep: nat, atomic: bool, states: seq<State>, events: seq<Event>, i: nat, j: nat, backup: string, forge: string)
    requires IsRun(keep, atomic, states, events) && Until(states, events, i, j, CallRestore(backup, forge))
    ensures Pending(states[j].c.record) ==>
      var op := PendingOp(states[j].c.record);
      op.kind.Restore? && op.backup == backup && op.forge == Some(forge)
    ensures Completed(states, events, i, j) ==> Pending(states[j].c.record)
    ensures states[j].todo.Do? && states[j].todo.write.CreateJob? && states[j].todo.write.job.SeedJob? ==>
      states[j].todo.write.backup == backup
    ensures j < |events| && Ends(states, j, Seeding) ==>
      var spec := states[j + 1].c.record.value.spec;
      && spec.source == backup && spec.forge == forge && spec.settings == states[j].c.record.value.spec.settings
      && states[j + 1].c.release == Some(Release(1, backup, forge, spec.settings))
    ensures j < |events| && Ends(states, j, Snapshotting) ==>
      states[j + 1].c.record.value.spec.message == SnapshotFailed(Restore)
    ensures j < |events| ==> !Ends(states, j, Draining) && !Ends(states, j, Installing) && !Ends(states, j, TearingDown)
  {
    PledgeHolds(keep, atomic, states, events, i, j, CallRestore(backup, forge));
    if j < |events| {
      assert Next(keep, atomic, states[j], events[j], states[j + 1]);
      if Pending(states[j].c.record) && states[j + 1].c.record != states[j].c.record {
        RecordIsWritten(keep, atomic, states[j], events[j], states[j + 1]);
      }
    }
  }

  /** A start behind a failed seed repeats that seed, and ends as it would have. */
  lemma StartRepeatsTheSeed(
      keep: nat, atomic: bool, states: seq<State>, events: seq<Event>, i: nat, j: nat, op: Op)
    requires IsRun(keep, atomic, states, events) && Until(states, events, i, j, CallStart)
    requires states[i].c.record.Some? && states[i].c.record.value.op == Some(op) && op.error && op.step.Seeding?
    ensures Pending(states[j].c.record) ==>
      var now := PendingOp(states[j].c.record);
      now.step.Seeding? && now.backup == op.backup && now.forge == op.forge
    ensures Completed(states, events, i, j) ==> Pending(states[j].c.record)
    ensures states[j].todo.Do? && states[j].todo.write.CreateJob? && states[j].todo.write.job.SeedJob? ==>
      states[j].todo.write.backup == op.backup
    ensures j < |events| && Ends(states, j, Seeding) ==>
      var was, spec := states[j].c.record.value.spec, states[j + 1].c.record.value.spec;
      && spec.source == op.backup && spec.settings == was.settings
      && spec.forge == (if op.forge.Some? then op.forge.value else was.forge)
      && states[j + 1].c.release == Some(Release(1, spec.source, spec.forge, spec.settings))
  {
    PledgeHolds(keep, atomic, states, events, i, j, CallStart);
    if j < |events| {
      assert Next(keep, atomic, states[j], events[j], states[j + 1]);
      if Pending(states[j].c.record) && states[j + 1].c.record != states[j].c.record {
        RecordIsWritten(keep, atomic, states[j], events[j], states[j + 1]);
      }
    }
  }

  // -------------------------------------------------------------- new worlds

  /** From an accepted launch on, the record says what was asked for, its operation is
      the launch from that backup, every seed Job is told to extract it, and the
      operation is over only once the release says the same. */
  lemma LaunchEndsAsAsked(
      keep: nat, atomic: bool, states: seq<State>, events: seq<Event>, i: nat, j: nat,
      backup: string, forge: string, settings: string)
    requires IsRun(keep, atomic, states, events)
    requires Until(states, events, i, j, CallLaunch(backup, forge, settings))
    ensures states[j].c.record.Some? ==>
      var r := states[j].c.record.value;
      && r.spec == Spec(backup, forge, settings, Blank)
      && (r.op.Some? ==> r.op.value.kind.Launch? && r.op.value.step.Seeding? && r.op.value.backup == backup)
      && (r.op.None? ==> states[j].c.release == Some(Release(1, backup, forge, settings)))
    ensures states[j].c.release.Some? ==> states[j].c.release == Some(Release(1, backup, forge, settings))
    ensures Completed(states, events, i, j) ==> Pending(states[j].c.record)
    ensures states[j].todo.Do? && states[j].todo.write.CreateJob? ==> states[j].todo.write.backup == backup
  {
    PledgeHolds(keep, atomic, states, events, i, j, CallLaunch(backup, forge, settings));
  }

  /** A new world is generated with its settings, from no backup at all. */
  lemma CreateEndsAsAsked(
      keep: nat, atomic: bool, states: seq<State>, events: seq<Event>, i: nat, j: nat, settings: string)
    requires IsRun(keep, atomic, states, events) && Until(states, events, i, j, CallCreate(settings))
    ensures states[j].c.record.Some? ==>
      var r := states[j].c.record.value;
      && r.spec == Spec("", "", settings, Blank)
      && (r.op.Some? ==> r.op.value.kind.Create? && r.op.value.step.Installing?)
      && (r.op.None? ==> states[j].c.release == Some(Release(1, "", "", settings)))
    ensures Completed(states, events, i, j) ==> states[j].c.record.Some? && states[j].c.record.value.op.None?
    ensures states[j].todo.Do? ==> !states[j].todo.write.CreateJob?
  {
    PledgeHolds(keep, atomic, states, events, i, j, CallCreate(settings));
  }

  // -------------------------------------------------- snapshots and deletion

  /** Source, Forge version and settings are what they were; a record that has been
      lost may have been rebuilt from the release. */
  ghost predicate SaysTheSame(before: Cluster, c: Cluster) {
    c.record.Some? ==>
      && before.record.Some?
      && var spec, was := c.record.value.spec, before.record.value.spec;
         (spec.source == was.source && spec.forge == was.forge && spec.settings == was.settings)
         || Rebuilt(c.record.value, c.release)
  }

  /** A snapshot leaves record, release and volume alone: until the next call nothing
      is written but records, snapshot Jobs and prunes. */
  lemma SnapshotLeavesTheWorldAlone(
      keep: nat, atomic: bool, states: seq<State>, events: seq<Event>, i: nat, j: nat)
    requires IsRun(keep, atomic, states, events) && Until(states, events, i, j, CallSnapshot)
    ensures SaysTheSame(states[i].c, states[j].c) && states[j].c.release == states[i].c.release
    ensures states[i].c.volume.Bound? ==> states[j].c.volume.Bound?
    ensures Pending(states[j].c.record) ==>
      var op := PendingOp(states[j].c.record); op.kind.TakeSnapshot? && op.snap == Some(states[i].c.now)
    ensures Completed(states, events, i, j) ==> Pending(states[j].c.record)
    ensures states[j].todo.Do? ==>
      var w := states[j].todo.write; w.Save? || w.Prune? || (w.CreateJob? && w.job.SnapshotJob?)
  {
    PledgeHolds(keep, atomic, states, events, i, j, CallSnapshot);
    VolumeStays(keep, atomic, states, events, i, j);
    hide IsRun, Until, Completed;
  }

  lemma {:induction false} VolumeStays(
      keep: nat, atomic: bool, states: seq<State>, events: seq<Event>, i: nat, j: nat)
    requires IsRun(keep, atomic, states, events) && Until(states, events, i, j, CallSnapshot)
    ensures states[i].c.volume.Bound? ==> states[j].c.volume.Bound?
    decreases j
  {
    assert Next(keep, atomic, states[j - 1], events[j - 1], states[j]);
    if j == i + 1 {
      hide Plan;
    } else {
      assert Until(states, events, i, j - 1, CallSnapshot);
      VolumeStays(keep, atomic, states, events, i, j - 1);
      PledgeHolds(keep, atomic, states, events, i, j - 1, CallSnapshot);
      hide IsRun, Until, Next, Completed;
      VolumeIsKept(keep, atomic, states[j - 1], events[j - 1], states[j]);
    }
  }

  lemma VolumeIsKept(keep: nat, atomic: bool, s: State, e: Event, s': State)
    requires Next(keep, atomic, s, e, s') && (s.todo.Do? ==> !s.todo.write.DeleteVolume?)
    ensures s.c.volume.Bound? ==> s'.c.volume.Bound?
  {
    hide Plan;
    if !e.Perform? {
      hide Apply;
    } else if helmOk :| e == Perform(helmOk) && Performed(s, s', helmOk) {
      hide Next;
    }
  }

  /** A deletion never writes to the world: until the next call no server is installed
      and nothing is seeded.  When its record goes, release, Jobs, volume and secret
      have gone before, and a failed snapshot that ends it is on record. */
  lemma DeleteEndsTornDown(keep: nat, atomic: bool, states: seq<State>, events: seq<Event>, i: nat, j: nat)
    requires IsRun(keep, atomic, states, events) && Until(states, events, i, j, CallDelete)
    ensures SaysTheSame(states[i].c, states[j].c)
    ensures Pending(states[j].c.record) ==> PendingOp(states[j].c.record).kind.Delete?
    ensures Completed(states, events, i, j) ==> Pending(states[j].c.record)
    ensures states[j].todo.Do? ==>
      var w := states[j].todo.write;
      !w.Upgrade? && !w.CreateVolume? && !w.CreateSecret? && (w.CreateJob? ==> w.job.SnapshotJob?)
    ensures j < |events| && Pending(states[j].c.record) && states[j + 1].c.record.None? ==>
      var c := states[j + 1].c; c.release.None? && c.jobs == map[] && !c.volume.Bound? && !c.secret
    ensures j < |events| && Ends(states, j, Snapshotting) ==>
      states[j + 1].c.record.value.spec.message == SnapshotFailed(Delete)
  {
    PledgeHolds(keep, atomic, states, events, i, j, CallDelete);
    if j < |events| {
      assert Next(keep, atomic, states[j], events[j], states[j + 1]);
      if Pending(states[j].c.record) && states[j + 1].c.record != states[j].c.record {
        RecordIsWritten(keep, atomic, states[j], events[j], states[j + 1]);
      }
    }
  }

  // ----------------------------------------------------- start, stop, settings

  /** A start that repeats nothing installs the world as its record describes it. */
  lemma StartEndsRunning(keep: nat, atomic: bool, states: seq<State>, events: seq<Event>, i: nat, j: nat)
    requires IsRun(keep, atomic, states, events) && Until(states, events, i, j, CallStart)
    requires states[i].c.record.Some? && !FailedAt(states[i].c.record.value.op, Seeding)
    ensures SaysTheSame(states[i].c, states[j].c) && !Pending(states[j].c.record)
    ensures var spec := states[i].c.record.value.spec;
      var installed := Some(Release(1, spec.source, spec.forge, spec.settings));
      && (states[j].c.release == states[i].c.release || states[j].c.release == installed)
      && (Completed(states, events, i, j) ==>
            states[j].c.release == installed && states[j].c.record.Some? && states[j].c.record.value.op.None?)
  {
    PledgeHolds(keep, atomic, states, events, i, j, CallStart);
  }

  lemma StopEndsStopped(keep: nat, atomic: bool, states: seq<State>, events: seq<Event>, i: nat, j: nat)
    requires IsRun(keep, atomic, states, events) && Until(states, events, i, j, CallStop)
    ensures states[i].c.record.Some? && SaysTheSame(states[i].c, states[j].c) && !Pending(states[j].c.record)
    ensures var spec := states[i].c.record.value.spec;
      var stopped := Some(Release(0, spec.source, spec.forge, spec.settings));
      && (states[j].c.release == states[i].c.release || states[j].c.release == stopped)
      && (Completed(states, events, i, j) ==>
            states[j].c.release == stopped && states[j].c.record.Some? && states[j].c.record.value.op.None?)
  {
    PledgeHolds(keep, atomic, states, events, i, j, CallStop);
  }

  /** New settings end up in the record and in the release, if there is one, and
      change nothing else; those that come with a whitelist in the record only. */
  lemma SettingsEndInstalled(
      keep: nat, atomic: bool, states: seq<State>, events: seq<Event>, i: nat, j: nat, call: Call)
    requires IsRun(keep, atomic, states, events) && Until(states, events, i, j, call)
    requires call.CallUpdateSettings? || call.CallSetWhitelist?
    ensures Completed(states, events, i, j) ==>
      var before, after := states[i].c, states[j].c;
      && before.record.Some? && after.record.Some?
      && var was, spec := before.record.value.spec, after.record.value.spec;
         && spec.settings == call.settings && spec.source == was.source && spec.forge == was.forge
         && after.record.value.op == before.record.value.op
         && after.release ==
              if before.release.None? || call.CallSetWhitelist? then before.release
              else Some(Release(before.release.value.replicas, spec.source, spec.forge, call.settings))
  {
    PledgeHolds(keep, atomic, states, events, i, j, call);
  }

  // ------------------------------------------------------------- acceptance

  ghost predicate Idle(c: Cluster) {
    c.record.Some? && (c.record.value.op.Some? ==> c.record.value.op.value.error)
  }

  ghost predicate Broken(c: Cluster, step: Step) {
    c.record.Some? && c.record.value.op.Some? && c.record.value.op.value.step == step
  }

  /** Scaled to zero, with a server that is still there. */
  ghost predicate Leaving(c: Cluster) {
    c.release.Some? && c.release.value.replicas == 0 && exists p :: p in c.pods && !c.pods[p].finished
  }

  /** When a user call is accepted: a new world where nothing bears the name; all
      others where the world is known and, except for its whitelist, nothing is
      pending; starts and snapshots not while a stopped server is still there, unless
      there is nothing to wait for; a stop where there is something to stop. */
  lemma AcceptedIff(c: Cluster, call: Call, keep: nat)
    requires UserCall(call)
    ensures Plan(c, call, keep).Some? <==>
      match call
      case CallLaunch(_, _, _) => c.record.None? && c.release.None? && c.volume.Absent?
      case CallCreate(_) => c.record.None? && c.release.None? && c.volume.Absent?
      case CallSetWhitelist(_) => c.record.Some?
      case CallStart => Idle(c) && (Broken(c, Seeding) || !Leaving(c))
      case CallStop => Idle(c) && c.release.Some? && (c.release.value.replicas > 0 || c.record.value.op.Some?)
      case CallSnapshot => Idle(c) && !Leaving(c)
      case CallRestore(_, _) => Idle(c) && (Broken(c, Seeding) || Broken(c, Installing) || !Leaving(c))
      case CallDelete => Idle(c) && (Broken(c, Seeding) || !Leaving(c))
      case _ => Idle(c)
  {
  }
}
