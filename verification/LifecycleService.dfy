/** The service itself: one world's cluster state, changed write by write by the
    user calls and the reconciler.  Every method is shown to do exactly what the
    plan of its call says. */
module LifecycleService {
  import opened Wrappers
  import opened Lifecycle
  import opened LifecycleProgress

  class WorldService {
    const keep: nat
    var now: Stamp
    var record: Option<Record>
    var release: Option<Release>
    var jobs: map<JobName, JobState>
    var pods: map<nat, Pod>
    var volume: Volume
    var secret: bool
    var zips: set<Stamp>
    var told: map<JobName, string>

    constructor (keep: nat, c: Cluster)
      ensures View() == c && this.keep == keep
    {
      this.keep := keep;
      now, record, release, jobs := c.now, c.record, c.release, c.jobs;
      pods, volume, secret, zips, told := c.pods, c.volume, c.secret, c.zips, c.told;
    }

    function View(): Cluster
      reads this
    {
      Cluster(now, record, release, jobs, pods, volume, secret, zips, told)
    }

    // ------------------------------------------------------------- helpers

    method Load()
      modifies this
      ensures View() == Healed(old(View()))
    {
      if record.None? && release.Some? {
        var v := release.value;
        record := Some(Record(Spec(v.source, v.forge, v.settings, Blank), None));
      }
    }

    method StartJob(job: JobName, backup: string) returns (conflict: bool)
      modifies this`jobs, this`told
      ensures conflict == (job in old(jobs))
      ensures View() == Apply(old(View()), CreateJob(job, backup, None))
    {
      conflict := job in jobs;
      if !conflict {
        jobs, told := jobs[job := Active], told[job := backup];
      }
    }

    method Install(spec: Spec, replicas: nat, helmOk: bool)
      modifies this`release
      ensures View() == if helmOk then Apply(old(View()), Upgrade(replicas, spec, Done)) else old(View())
    {
      if helmOk {
        release := Some(Rendered(spec, replicas));
      }
    }

    method CreateVolumeAndSecret()
      modifies this`secret, this`volume
      ensures View() == Apply(Apply(old(View()), CreateSecret), CreateVolume)
    {
      secret := true;
      if volume.Absent? {
        volume := Bound;
      }
    }

    method Fail(r: Record)
      requires r.op.Some?
      modifies this`record
      ensures View() == Apply(old(View()), Save(Failing(r)))
    {
      record := Some(r.(op := Some(r.op.value.(error := true))));
    }

    /** The finished Job, or None; a missing Job is created again. */
    method AwaitedJob(op: Op) returns (status: Option<JobState>)
      requires op.job.Some?
      modifies this`jobs, this`told
      ensures status == JobStatus(old(View()), op)
      ensures View() == if status.None? then Exec(old(View()), AwaitJob(old(View()), op), true).c else old(View())
    {
      var j := op.job.value;
      if j !in jobs {
        if op.step.Snapshotting? && op.snap.Some? && op.snap.value in zips {
          return Some(Succeeded);
        }
        ExecFirst(View(), CreateJob(j, op.backup, None), Done, true);
        var _ := StartJob(j, op.backup);
        return None;
      }
      status := if jobs[j].Active? then None else Some(jobs[j]);
    }

    // ---------------------------------------------------------- reconciler

    /** One step of the pending operation; true if it got to the next one. */
    method Advance(helmOk: bool) returns (progress: bool)
      requires Running(View()) && WellFormed(View())
      modifies this
      ensures Outcome(View(), progress) == Advanced(keep, old(View()), helmOk)
    {
      hide Advanced;
      match record.value.op.value.step
      case Snapshotting => progress := AdvanceSnapshot(helmOk);
      case Draining => progress := AdvanceDrain(helmOk);
      case Seeding => progress := AdvanceSeed(helmOk);
      case Installing => progress := AdvanceInstall(helmOk);
      case TearingDown => progress := AdvanceTeardown(helmOk);
    }

    method AdvanceDrain(helmOk: bool) returns (progress: bool)
      requires Running(View()) && record.value.op.value.step.Draining?
      modifies this
      ensures Outcome(View(), progress) == Advanced(keep, old(View()), helmOk)
    {
      var r := record.value;
      ghost var c := View();
      ExecDrainWhenQuiet(keep, c, helmOk);
      if exists p :: p in pods && !pods[p].finished {
        return false;
      }
      var job := SeedJob(now);
      record := Some(r.(op := Some(r.op.value.(step := Seeding, job := Some(job)))));
      var conflict := StartJob(job, r.op.value.backup);
      if conflict {
        Fail(r);
      }
      progress := !conflict;
    }

    method AdvanceSeed(helmOk: bool) returns (progress: bool)
      requires Running(View()) && WellFormed(View()) && record.value.op.value.step.Seeding?
      modifies this
      ensures Outcome(View(), progress) == Advanced(keep, old(View()), helmOk)
    {
      var r := record.value;
      var op := r.op.value;
      ghost var c := View();
      ghost var todo := AdvanceTodo(c, r, keep);
      var status := AwaitedJob(op);
      if status.None? {
        ExecAwait(c, op, helmOk);
        return false;
      }
      if status.value.Failed? {
        ExecFirst(c, Save(Failing(r)), Done, helmOk);
        Fail(r);
        return false;
      }
      var spec := r.spec.(source := op.backup, message := Blank);
      if op.forge.Some? {
        spec := spec.(forge := op.forge.value);
      }
      Install(spec, 1, helmOk);
      if helmOk {
        ExecTwo(c, todo.write, todo.rest.write, helmOk);
        record := Some(Record(spec, None));
      } else {
        ExecFailedUpgrade(c, 1, spec, r.(spec := spec), todo.rest);
        Fail(r.(spec := spec));
      }
      progress := helmOk;
    }

    method AdvanceInstall(helmOk: bool) returns (progress: bool)
      requires Running(View()) && record.value.op.value.step.Installing?
      modifies this
      ensures Outcome(View(), progress) == Advanced(keep, old(View()), helmOk)
    {
      var r := record.value;
      ExecInstall(View(), r, helmOk);
      CreateVolumeAndSecret();
      Install(r.spec, 1, helmOk);
      if helmOk {
        record := Some(r.(op := None));
      } else {
        Fail(r);
      }
      progress := helmOk;
    }

    method AdvanceTeardown(helmOk: bool) returns (progress: bool)
      requires Running(View()) && record.value.op.value.step.TearingDown?
      modifies this
      ensures Outcome(View(), progress) == Advanced(keep, old(View()), helmOk)
    {
      var r := record.value;
      ExecTeardown(keep, View(), helmOk);
      if helmOk {
        release := None;
        jobs := map[];
        volume := if volume.Bound? then Terminating else volume;
        secret := false;
        record := None;
      } else {
        Fail(r);
      }
      progress := false;
    }

    method AdvanceSnapshot(helmOk: bool) returns (progress: bool)
      requires Running(View()) && WellFormed(View()) && record.value.op.value.step.Snapshotting?
      modifies this
      ensures Outcome(View(), progress) == Advanced(keep, old(View()), helmOk)
    {
      var r := record.value;
      var op := r.op.value;
      ghost var c := View();
      var status := AwaitedJob(op);
      if status.None? {
        ExecAwait(c, op, helmOk);
        return false;
      }
      if status.value.Failed? {
        ExecFirst(c, AdvanceTodo(c, r, keep).write, Done, helmOk);
        record := Some(Record(r.spec.(message := SnapshotFailed(op.kind)), None));
        return false;
      }
      SnapshotOutcome(keep, c, helmOk);
      zips := Newest(zips, keep);
      progress := GoOn(r, helmOk);
    }

    /** What follows a snapshot, by the kind of the operation. */
    method GoOn(r: Record, helmOk: bool) returns (progress: bool)
      requires record == Some(r) && r.op.Some? && !r.op.value.kind.Launch? && !r.op.value.kind.Create?
      modifies this`record, this`release
      ensures Outcome(View(), progress) == Exec(old(View()), AfterSnapshot(old(View()), r), helmOk)
    {
      var op := r.op.value;
      ghost var c := View();
      ExecAfterSnapshot(c, r, helmOk);
      if op.kind.LegacyStop? || (op.kind.Restore? && release.Some?) {
        ExecUpgradeGoes(c, r, helmOk);
        Install(r.spec, 0, helmOk);
        if !helmOk {
          Fail(r);
          return false;
        }
      }
      if op.kind.Restore? {
        record := Some(r.(op := Some(op.(step := Draining))));
      } else if op.kind.Delete? {
        record := Some(r.(op := Some(op.(step := TearingDown))));
      } else {
        record := Some(r.(op := None));
      }
      progress := true;
    }

    /** As many steps as the cluster allows, at most five. */
    method ReconcileWorld(helm: nat -> bool)
      requires WellFormed(View())
      modifies this
      ensures View() == Reconciled(keep, old(View()), helm, 0, MAX_STEPS)
      ensures WellFormed(View()) && (!Running(View()) || Waits(View()))
    {
      RankIsAtMostThree(Healed(View()));
      ReconcilerRunsToAStop(keep, View(), helm, 0, MAX_STEPS);
      for k := 0 to MAX_STEPS
        invariant WellFormed(View())
        invariant Reconciled(keep, View(), helm, k, MAX_STEPS - k) == Reconciled(keep, old(View()), helm, 0, MAX_STEPS)
      {
        Load();
        if record.None? || record.value.op.None? || record.value.op.value.error {
          return;
        }
        StepLowersRank(keep, View(), helm(k));
        var progress := Advance(helm(k));
        if !progress {
          return;
        }
      }
    }

    // ---------------------------------------------------------- user calls

    /** The outcome of a call: refused with nothing written beyond a healed
        record, or every write of its plan performed in order. */
    ghost predicate Answers(c: Cluster, call: Call, helmOk: bool, accepted: bool)
      reads this
    {
      var plan := Plan(Healed(c), call, keep);
      && accepted == plan.Some?
      && View() == if plan.Some? then Exec(Healed(c), plan.value, helmOk).c else Healed(c)
    }

    method LaunchWorld(backup: string, forge: string, settings: string) returns (accepted: bool)
      modifies this
      ensures Answers(old(View()), CallLaunch(backup, forge, settings), true, accepted)
    {
      Load();
      if record.Some? || !volume.Absent? {
        return false;
      }
      ghost var c := View();
      var job := SeedJob(now);
      var op := Op(Launch, Seeding, Some(job), None, backup, None, false);
      record := Some(Record(Spec(backup, forge, settings, Blank), Some(op)));
      ghost var c1 := View();
      CreateVolumeAndSecret();
      ghost var c2 := View();
      var _ := StartJob(job, backup);
      accepted := true;
      ghost var todo := Plan(c, CallLaunch(backup, forge, settings), keep).value;
      ExecFirst(c, todo.write, todo.rest, true);
      ExecFirst(c1, CreateSecret, todo.rest.rest, true);
      ExecFirst(Apply(c1, CreateSecret), CreateVolume, todo.rest.rest.rest, true);
      ExecCreateJob(c2, job, backup);
    }

    method CreateWorld(settings: string, helmOk: bool) returns (accepted: bool)
      modifies this
      ensures Answers(old(View()), CallCreate(settings), helmOk, accepted)
    {
      Load();
      if record.Some? || !volume.Absent? {
        return false;
      }
      ghost var c := View();
      var op := Op(Create, Installing, None, None, "", None, false);
      var r := Record(Spec("", "", settings, Blank), Some(op));
      record := Some(r);
      ExecFirst(c, Save(r), InstallTodo(r), helmOk);
      ExecInstall(View(), r, helmOk);
      CreateVolumeAndSecret();
      Install(r.spec, 1, helmOk);
      if helmOk {
        record := Some(r.(op := None));
      } else {
        Fail(r);
      }
      accepted := true;
    }

    method StartWorld(helmOk: bool) returns (accepted: bool)
      modifies this
      ensures Answers(old(View()), CallStart, helmOk, accepted)
    {
      Load();
      if record.None? || Busy(record.value.op) {
        return false;
      }
      ghost var c := View();
      var r := record.value;
      if r.op.Some? && r.op.value.step.Seeding? {
        var job := SeedJob(now);
        record := Some(r.(op := Some(r.op.value.(job := Some(job), error := false))));
        ExecFirst(c, Save(record.value), Write1(CreateJob(job, r.op.value.backup, Some(Done))), helmOk);
        ExecCreateJob(View(), job, r.op.value.backup);
        var _ := StartJob(job, r.op.value.backup);
        return true;
      }
      if release.Some? && ShuttingDown(View()) {
        return false;
      }
      var cleared := Record(r.spec.(message := Blank), None);
      ExecSaveUpgrade(c, cleared, 1, helmOk);
      record := Some(cleared);
      Install(cleared.spec, 1, helmOk);
      accepted := true;
    }

    method StopWorld(helmOk: bool) returns (accepted: bool)
      modifies this
      ensures Answers(old(View()), CallStop, helmOk, accepted)
    {
      Load();
      if record.None? || Busy(record.value.op) {
        return false;
      }
      if release.None? || (Replicas(View()) == 0 && record.value.op.None?) {
        return false;
      }
      var cleared := Record(record.value.spec.(message := Blank), None);
      ExecSaveUpgrade(View(), cleared, 0, helmOk);
      record := Some(cleared);
      Install(cleared.spec, 0, helmOk);
      accepted := true;
    }

    /** Records a snapshot operation and starts its Job, unless the old server
        is still shutting down. */
    method StartSnapshot(kind: Kind, backup: string, forge: Option<string>) returns (accepted: bool)
      requires record.Some?
      modifies this`record, this`jobs, this`told
      ensures var plan := BeginSnapshot(old(View()), old(record.value), kind, backup, forge);
        && accepted == plan.Some?
        && View() == if plan.Some? then Exec(old(View()), plan.value, true).c else old(View())
    {
      if release.Some? && ShuttingDown(View()) {
        return false;
      }
      ghost var c := View();
      var job := SnapshotJob(now);
      var op := Op(kind, Snapshotting, Some(job), Some(now), backup, forge, false);
      record := Some(Record(record.value.spec.(message := Blank), Some(op)));
      ExecTwo(c, Save(record.value), CreateJob(job, backup, None), true);
      var _ := StartJob(job, backup);
      accepted := true;
    }

    method TakeASnapshot() returns (accepted: bool)
      modifies this
      ensures Answers(old(View()), CallSnapshot, true, accepted)
    {
      Load();
      if record.None? || Busy(record.value.op) {
        return false;
      }
      accepted := StartSnapshot(TakeSnapshot, "", None);
    }

    method RestoreWorld(backup: string, forge: string) returns (accepted: bool)
      modifies this
      ensures Answers(old(View()), CallRestore(backup, forge), true, accepted)
    {
      Load();
      if record.None? || Busy(record.value.op) {
        return false;
      }
      var r := record.value;
      if r.op.Some? && (r.op.value.step.Seeding? || r.op.value.step.Installing?) {
        var r' := r.(op := Some(Op(Restore, Draining, None, None, backup, Some(forge), false)));
        ExecFirst(View(), Save(r'), Done, true);
        record := Some(r');
        return true;
      }
      accepted := StartSnapshot(Restore, backup, Some(forge));
    }

    /** The recorded deletion; the reconciler then takes it as far as it can. */
    method RecordDeletion() returns (accepted: bool)
      modifies this
      ensures Answers(old(View()), CallDelete, true, accepted)
    {
      Load();
      if record.None? || Busy(record.value.op) {
        return false;
      }
      var r := record.value;
      if release.None? || (r.op.Some? && r.op.value.step.Seeding?) {
        var r' := r.(op := Some(Op(Delete, TearingDown, None, None, "", None, false)));
        ExecFirst(View(), Save(r'), Done, true);
        record := Some(r');
        return true;
      }
      accepted := StartSnapshot(Delete, "", None);
    }

    method UpdateSettings(settings: string, helmOk: bool) returns (accepted: bool)
      modifies this
      ensures Answers(old(View()), CallUpdateSettings(settings), helmOk, accepted)
    {
      Load();
      if record.None? || Busy(record.value.op) {
        return false;
      }
      var r := record.value.(spec := record.value.spec.(settings := settings));
      if release.Some? {
        ExecSaveUpgrade(View(), r, Replicas(View()), helmOk);
        record := Some(r);
        Install(r.spec, Replicas(View()), helmOk);
      } else {
        ExecFirst(View(), Save(r), Done, helmOk);
        record := Some(r);
      }
      accepted := true;
    }
  }

  // ------------------------------------------------------------------ lemmas

  lemma ExecAwait(c: Cluster, op: Op, helmOk: bool)
    requires op.job.Some?
    ensures Exec(c, AwaitJob(c, op), helmOk) == Exec(c, AwaitJob(c, op), true)
    ensures Exec(c, AwaitJob(c, op), helmOk).ok
  {
    if op.job.value !in c.jobs {
      ExecFirst(c, CreateJob(op.job.value, op.backup, None), Done, helmOk);
      ExecFirst(c, CreateJob(op.job.value, op.backup, None), Done, true);
    }
  }

  lemma ExecCreateJob(c: Cluster, job: JobName, backup: string)
    ensures forall helmOk ::
      Exec(c, Write1(CreateJob(job, backup, Some(Done))), helmOk).c == Apply(c, CreateJob(job, backup, None))
  {
    forall helmOk: bool
      ensures Exec(c, Write1(CreateJob(job, backup, Some(Done))), helmOk).c == Apply(c, CreateJob(job, backup, None))
    {
      if job !in c.jobs {
        ExecFirst(c, CreateJob(job, backup, Some(Done)), Done, helmOk);
      }
    }
  }

  lemma ExecSaveUpgrade(c: Cluster, r: Record, replicas: nat, helmOk: bool)
    ensures Exec(c, Write2(Save(r), Upgrade(replicas, r.spec, Done)), helmOk).c ==
      var saved := Apply(c, Save(r));
      if helmOk then Apply(saved, Upgrade(replicas, r.spec, Done)) else saved
  {
    ExecFirst(c, Save(r), Write1(Upgrade(replicas, r.spec, Done)), helmOk);
    if helmOk {
      ExecFirst(Apply(c, Save(r)), Upgrade(replicas, r.spec, Done), Done, helmOk);
    }
  }

  lemma ExecDrainWhenQuiet(keep: nat, c: Cluster, helmOk: bool)
    requires Running(c) && c.record.value.op.value.step.Draining?
    ensures NoLivePod(c) ==>
      var r := c.record.value;
      var job := SeedJob(c.now);
      var seed := r.(op := Some(r.op.value.(step := Seeding, job := Some(job))));
      Exec(c, AdvanceTodo(c, r, keep), helmOk) ==
        if job in c.jobs then Outcome(c.(record := Some(Failing(r))), false)
        else Outcome(Launching(c, job, r.op.value.backup).(record := Some(seed)), true)
  {
    if NoLivePod(c) {
      ExecDrain(keep, c, helmOk);
    }
  }

  lemma ExecUpgradeGoes(c: Cluster, r: Record, helmOk: bool)
    requires r.op.Some? && AfterSnapshot(c, r).Do? && AfterSnapshot(c, r).write.Upgrade?
    ensures Exec(c, AfterSnapshot(c, r), helmOk).ok == helmOk
  {
    var todo := AfterSnapshot(c, r);
    if helmOk {
      ExecTwo(c, todo.write, todo.rest.write, helmOk);
    } else {
      ExecFailedUpgrade(c, 0, r.spec, r, todo.rest);
    }
  }
}
