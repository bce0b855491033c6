/** What a call settles to write is safe to perform: from a state in which the
    invariant holds, the plan of every call (those that start, stop, edit, snapshot,
    restore or delete a world, those that make a new one, and each step of the
    reconciler) leads through true states only, whatever Helm answers and wherever a
    crash cuts it short. */
module LifecycleBegins {
  import opened Wrappers
  import opened Lifecycle
  import opened LifecycleRuns
  import opened LifecycleInvariant
  import opened LifecycleSteps

  ghost function OpOf(s: State): Option<Op> {
    if s.c.record.Some? then s.c.record.value.op else None
  }

  lemma DestructiveIsIdle(c: Cluster, call: Call, keep: nat)
    requires Destructive(call) && Plan(c, call, keep).Some?
    ensures c.record.Some? && !Busy(c.record.value.op)
  {
  }

  /** Beginning a call only settles what is to be written. */
  lemma BeginKeepsCluster(keep: nat, s: State, call: Call, s': State)
    requires ClusterInv(s) && Begins(keep, s, call, s')
    ensures ClusterInv(s')
  {
    hide Plan;
  }

  lemma BeginKeepsOp(keep: nat, atomic: bool, s: State, call: Call, s': State)
    requires ClusterInv(s) && OpInv(keep, atomic, s) && Begins(keep, s, call, s')
    ensures OpInv(keep, atomic, s')
  {
    if Destructive(call) { DestructiveIsIdle(s.c, call, keep); }
    hide Plan;
  }

  // ----------------------------------------------------- saving and installing

  /** Where no operation is pending no seed Job is active. */
  lemma IdleHasNoSeed(keep: nat, atomic: bool, s: State)
    requires OpInv(keep, atomic, s) && !Busy(OpOf(s))
    ensures NoSeedActive(s.c)
  {
  }

  lemma ClearedIsTrue(keep: nat, atomic: bool, s: State, r: Record)
    requires OpInv(keep, atomic, s) && s.c.record.Some? && !Busy(OpOf(s)) && r.op.None?
    requires s.todo.Do? && s.todo.write == Save(r)
    ensures OpInv(keep, atomic, Saved(s))
  {
    IdleHasNoSeed(keep, atomic, s);
  }

  lemma SameOpIsTrue(keep: nat, atomic: bool, s: State, r: Record)
    requires OpInv(keep, atomic, s) && s.c.record.Some? && r.op == s.c.record.value.op
    requires s.todo.Do? && s.todo.write == Save(r) && !InstallUnrecorded(s)
    ensures OpInv(keep, atomic, Saved(s))
  {
  }

  lemma OneSaveIsSafe(keep: nat, atomic: bool, s: State, r: Record)
    requires s.todo == Write1(Save(r)) && OpInv(keep, atomic, Saved(s))
    ensures TodoInv(keep, atomic, s)
  {
    assert Saved(s).todo == Done;
    hide OpInv;
    assert TodoInv(keep, atomic, Saved(s));
    assert SaveInv(keep, atomic, s);
  }

  lemma SaveThenUpgradeIsSafe(keep: nat, atomic: bool, s: State, r: Record, n: nat)
    requires s.todo == Write2(Save(r), Upgrade(n, r.spec, Done)) && OpInv(keep, atomic, Saved(s))
    requires UpgradeInv(atomic, Saved(s), n, Done, Done)
    ensures TodoInv(keep, atomic, s)
  {
    hide OpInv, UpgradeInv;
    assert TodoInv(keep, atomic, Saved(s));
    assert SaveInv(keep, atomic, s);
  }

  lemma StartIsSafe(keep: nat, atomic: bool, s: State, r: Record, n: nat)
    requires OpInv(keep, atomic, s) && s.c.record.Some? && !Busy(OpOf(s)) && r.op.None? && n <= 1
    requires n == 1 ==> s.c.release.None? || !ShuttingDown(s.c)
    requires s.todo == Write2(Save(r), Upgrade(n, r.spec, Done))
    ensures TodoInv(keep, atomic, s)
  {
    IdleHasNoSeed(keep, atomic, s);
    ClearedIsTrue(keep, atomic, s, r);
    assert ReleaseInv(Saved(s));
    assert UpgradeInv(atomic, Saved(s), n, Done, Done);
    SaveThenUpgradeIsSafe(keep, atomic, s, r, n);
  }

  lemma EditIsSafe(keep: nat, atomic: bool, s: State, r: Record)
    requires ClusterInv(s) && OpInv(keep, atomic, s) && s.c.record.Some? && !Busy(OpOf(s)) && r.op == OpOf(s)
    requires s.c.release.Some? && s.todo == Write2(Save(r), Upgrade(Replicas(s.c), r.spec, Done))
    ensures TodoInv(keep, atomic, s)
  {
    IdleHasNoSeed(keep, atomic, s);
    SameOpIsTrue(keep, atomic, s, r);
    assert UpgradeInv(atomic, Saved(s), Replicas(s.c), Done, Done);
    SaveThenUpgradeIsSafe(keep, atomic, s, r, Replicas(s.c));
  }

  // -------------------------------------------------------- saving and a Job

  lemma SaveThenJobIsSafe(
      keep: nat, atomic: bool, s: State, r: Record, j: JobName, backup: string, onConflict: Option<Todo>)
    requires s.todo == Write2(Save(r), CreateJob(j, backup, onConflict)) && OpInv(keep, atomic, Saved(s))
    requires JobInv(Saved(s), j, onConflict, Done)
    ensures TodoInv(keep, atomic, s)
  {
    hide OpInv, JobInv;
    assert TodoInv(keep, atomic, Saved(s));
    assert SaveInv(keep, atomic, s);
  }

  /** A snapshot to be taken, for a plain snapshot, a restore or a deletion. */
  lemma ChainIsSafe(keep: nat, atomic: bool, s: State, r: Record, op: Op)
    requires ClusterInv(s) && OpInv(keep, atomic, s) && s.c.record.Some? && !Busy(OpOf(s)) && r.op == Some(op)
    requires s.todo == Write2(Save(r), CreateJob(SnapshotJob(s.c.now), op.backup, None))
    requires op.step.Snapshotting? && op.job == Some(SnapshotJob(s.c.now)) && op.snap == Some(s.c.now) && !op.error
    requires op.kind.TakeSnapshot? || op.kind.Restore? || op.kind.Delete?
    ensures TodoInv(keep, atomic, s)
  {
    IdleHasNoSeed(keep, atomic, s);
    ChainIsTrue(keep, atomic, s, r, op);
    SaveThenJobIsSafe(keep, atomic, s, r, SnapshotJob(s.c.now), op.backup, None);
  }

  lemma ChainIsTrue(keep: nat, atomic: bool, s: State, r: Record, op: Op)
    requires ClusterInv(s) && OpInv(keep, atomic, s) && s.c.record.Some? && !Busy(OpOf(s)) && r.op == Some(op)
    requires s.todo.Do? && s.todo.write == Save(r) && NoSeedActive(s.c)
    requires op.step.Snapshotting? && op.job == Some(SnapshotJob(s.c.now)) && op.snap == Some(s.c.now) && !op.error
    requires op.kind.TakeSnapshot? || op.kind.Restore? || op.kind.Delete?
    ensures OpInv(keep, atomic, Saved(s))
  {
    assert SnapInv(keep, Saved(s), op);
  }

  /** A seed Job of this second would be active, and so be the pending one. */
  lemma SeedNameIsFree(s: State)
    requires StampsInv(s) && NoSeedActive(s.c)
    ensures SeedJob(s.c.now) !in s.c.jobs
  {
    assert SeedJob(s.c.now) in s.c.jobs ==> SeedActive(s.c.jobs, SeedJob(s.c.now));
  }

  lemma SeedAgainIsSafe(keep: nat, atomic: bool, s: State, r: Record)
    requires ClusterInv(s) && OpInv(keep, atomic, s) && s.c.record.Some? && FailedAt(OpOf(s), Seeding)
    requires var op := OpOf(s).value; r.op == Some(op.(job := Some(SeedJob(s.c.now)), error := false))
    requires s.todo == Write2(Save(r), CreateJob(SeedJob(s.c.now), OpOf(s).value.backup, Some(Done)))
    ensures TodoInv(keep, atomic, s)
  {
    IdleHasNoSeed(keep, atomic, s);
    SeedNameIsFree(s);
    assert SeedingInv(atomic, Saved(s), r.op.value);
    assert OpInv(keep, atomic, Saved(s));
    SaveThenJobIsSafe(keep, atomic, s, r, SeedJob(s.c.now), OpOf(s).value.backup, Some(Done));
  }

  // -------------------------------------------------- giving up broken data

  lemma RestoreBrokenIsSafe(keep: nat, atomic: bool, s: State, r: Record, op: Op)
    requires OpInv(keep, atomic, s) && s.c.record.Some? && r.op == Some(op)
    requires FailedAt(OpOf(s), Seeding) || FailedAt(OpOf(s), Installing)
    requires s.todo == Write1(Save(r)) && op.step.Draining? && op.snap.None? && !op.error
    ensures TodoInv(keep, atomic, s)
  {
    IdleHasNoSeed(keep, atomic, s);
    assert OpInv(keep, atomic, Saved(s));
    OneSaveIsSafe(keep, atomic, s, r);
  }

  lemma DeleteBrokenIsSafe(keep: nat, atomic: bool, s: State, r: Record, op: Op)
    requires OpInv(keep, atomic, s) && s.c.record.Some? && r.op == Some(op) && !Busy(OpOf(s))
    requires s.c.release.None? || FailedAt(OpOf(s), Seeding)
    requires s.todo == Write1(Save(r)) && op.step.TearingDown? && op.snap.None? && !op.error
    ensures TodoInv(keep, atomic, s)
  {
    IdleHasNoSeed(keep, atomic, s);
    assert OpInv(keep, atomic, Saved(s));
    OneSaveIsSafe(keep, atomic, s, r);
  }

  // ------------------------------------------------------------- new worlds

  lemma NewIsTrue(keep: nat, atomic: bool, s: State, r: Record, op: Op)
    requires ClusterInv(s) && OpInv(keep, atomic, s) && s.c.record.None? && s.c.release.None? && s.c.volume.Absent?
    requires s.todo.Do? && s.todo.write == Save(r) && r.op == Some(op) && op.snap.None? && !op.error
    requires op.step.Installing? || (op.step.Seeding? && op.job == Some(SeedJob(s.c.now)))
    ensures OpInv(keep, atomic, Saved(s))
  {
    IdleHasNoSeed(keep, atomic, s);
  }

  lemma LaunchIsSafe(keep: nat, atomic: bool, s: State, r: Record, op: Op)
    requires ClusterInv(s) && OpInv(keep, atomic, s) && s.c.record.None? && s.c.release.None? && s.c.volume.Absent?
    requires r.op == Some(op) && op.snap.None? && !op.error && op.step.Seeding? && op.job == Some(SeedJob(s.c.now))
    requires s.todo ==
      Do(Save(r), Do(CreateSecret, Do(CreateVolume, Write1(CreateJob(SeedJob(s.c.now), op.backup, Some(Done))))))
    ensures TodoInv(keep, atomic, s)
  {
    IdleHasNoSeed(keep, atomic, s);
    SeedNameIsFree(s);
    NewIsTrue(keep, atomic, s, r, op);
    var h2 := Made(Skipped(Saved(s)));
    assert JobInv(h2, SeedJob(s.c.now), Some(Done), Done);
    assert !Saved(s).c.volume.Terminating?;
    NewTodoIsSafe(keep, atomic, s);
  }

  /** A record, the secret and the volume, and then what is safe on that volume. */
  lemma NewTodoIsSafe(keep: nat, atomic: bool, s: State)
    requires s.todo.Do? && s.todo.write.Save? && OpInv(keep, atomic, Saved(s)) && !s.c.volume.Terminating?
    requires s.todo.rest.Do? && s.todo.rest.write.CreateSecret?
    requires s.todo.rest.rest.Do? && s.todo.rest.rest.write.CreateVolume?
    requires var rest := s.todo.rest.rest.rest; rest.Do? && (rest.write.CreateJob? || rest.write.Upgrade?)
    requires TodoInv(keep, atomic, Made(Skipped(Saved(s))))
    ensures TodoInv(keep, atomic, s)
  {
    hide OpInv;
    var h, h1 := Saved(s), Skipped(Saved(s));
    assert TodoInv(keep, atomic, h1);
    assert TodoInv(keep, atomic, h);
    assert SaveInv(keep, atomic, s);
  }

  lemma CreateIsSafe(keep: nat, atomic: bool, s: State, r: Record, op: Op)
    requires ClusterInv(s) && OpInv(keep, atomic, s) && s.c.record.None? && s.c.release.None? && s.c.volume.Absent?
    requires r.op == Some(op) && op.snap.None? && !op.error && op.step.Installing?
    requires s.todo == Do(Save(r), InstallTodo(r))
    ensures TodoInv(keep, atomic, s)
  {
    IdleHasNoSeed(keep, atomic, s);
    NewIsTrue(keep, atomic, s, r, op);
    var h2 := Made(Skipped(Saved(s)));
    InstallIsSafe(keep, atomic, h2, r);
    NewTodoIsSafe(keep, atomic, s);
  }

  lemma InstallIsSafe(keep: nat, atomic: bool, h: State, r: Record)
    requires h.c.record == Some(r) && Busy(r.op) && r.op.value.step.Installing? && NoSeedActive(h.c)
    requires (h.c.release.None? && NoLivePod(h.c)) || (!atomic && Uncredited(h.c))
    requires h.todo == Do(Upgrade(1, r.spec, Write1(Save(Failing(r)))), Write1(Save(r.(op := None))))
    ensures TodoInv(keep, atomic, h)
  {
    assert StepUpgradeInv(atomic, h, 1, Write1(Save(Failing(r))), r.(op := None));
    assert UpgradeInv(atomic, h, 1, Write1(Save(Failing(r))), Write1(Save(r.(op := None))));
  }

  lemma HealIsSafe(keep: nat, atomic: bool, s: State, r: Record)
    requires ClusterInv(s) && OpInv(keep, atomic, s) && s.c.record.None? && s.c.release.Some? && r.op.None?
    requires s.todo == Write1(Save(r))
    ensures TodoInv(keep, atomic, s)
  {
    IdleHasNoSeed(keep, atomic, s);
    assert OpInv(keep, atomic, Saved(s));
    OneSaveIsSafe(keep, atomic, s, r);
  }

  // --------------------------------------------------------- the reconciler

  lemma JobMissingIsSafe(keep: nat, atomic: bool, s: State, op: Op)
    requires ClusterInv(s) && OpInv(keep, atomic, s) && OpOf(s) == Some(op) && !op.error && !Pending(atomic, s)
    requires (op.step.Seeding? || op.step.Snapshotting?) && op.job.Some?
    requires op.step.Seeding? ==> !Uncredited(s.c)
    requires s.todo == Write1(CreateJob(op.job.value, op.backup, None))
    ensures TodoInv(keep, atomic, s)
  {
    assert SnapInv(keep, s, op) && StepInv(atomic, s, op);
    assert JobInv(s, op.job.value, None, Done);
  }

  lemma SnapshotAbortIsSafe(keep: nat, atomic: bool, s: State, r: Record)
    requires OpInv(keep, atomic, s) && IsPending(s, Snapshotting, None) && r.op.None? && s.todo == Write1(Save(r))
    ensures TodoInv(keep, atomic, s)
  {
    assert NoSeedActive(s.c);
    assert OpInv(keep, atomic, Saved(s));
    OneSaveIsSafe(keep, atomic, s, r);
  }

  /** After a snapshot the next step is stored, at once or after scaling to zero. */
  lemma NextStepIsTrue(keep: nat, atomic: bool, s: State, r: Record, op: Op)
    requires ClusterInv(s) && OpInv(keep, atomic, s) && IsPending(s, Snapshotting, None) && OpOf(s) == Some(op)
    requires op.snap.value in s.taken && s.todo.Do? && s.todo.write == Save(r)
    requires r.op.None? || (op.kind.Restore? && s.c.release.None? && r.op == Some(op.(step := Draining)))
      || (op.kind.Delete? && r.op == Some(op.(step := TearingDown)))
    ensures OpInv(keep, atomic, Saved(s))
  {
    assert NoSeedActive(s.c);
    assert SnapshottingInv(s, op) && SnapInv(keep, s, op);
  }

  lemma ScaleDownIsSafe(keep: nat, atomic: bool, s: State, r: Record, op: Op, r': Record)
    requires OpInv(keep, atomic, s) && IsPending(s, Snapshotting, None) && s.c.record == Some(r) && r.op == Some(op)
    requires op.snap.value in s.taken && op.kind.Restore? && s.c.release.Some? && r'.op == Some(op.(step := Draining))
    requires s.todo == Write2(Upgrade(0, r.spec, Write1(Save(Failing(r)))), Save(r'))
    ensures TodoInv(keep, atomic, s)
  {
    assert NoSeedActive(s.c);
    assert SnapshottingInv(s, op);
    assert StepUpgradeInv(atomic, s, 0, Write1(Save(Failing(r))), r');
    assert UpgradeInv(atomic, s, 0, Write1(Save(Failing(r))), Write1(Save(r')));
  }

  lemma TakenIsKnown(s: State, op: Op)
    requires StampsInv(s) && op.job.Some? && op.job.value.SnapshotJob? && op.snap == Some(op.job.value.stamp)
    requires JobStatus(s.c, op) == Some(Succeeded)
    ensures op.snap.value in s.taken
  {
  }

  lemma AfterSnapshotIsSafe(keep: nat, atomic: bool, s: State, r: Record, op: Op)
    requires ClusterInv(s) && OpInv(keep, atomic, s) && IsPending(s, Snapshotting, None)
    requires s.c.record == Some(r) && r.op == Some(op) && op.snap.Some? && op.snap.value in s.taken
    requires s.todo == AfterSnapshot(s.c, r)
    ensures TodoInv(keep, atomic, s) && s.todo.Do?
    ensures s.todo.write.Upgrade? || (s.todo.write.Save? && s.todo.rest.Done?)
    ensures s.todo.write.Save? && s.todo.write.record.op.Some? ==> s.todo.write.record.op.value.snap == op.snap
  {
    assert SnapshottingInv(s, op);
    if op.kind.Restore? && s.c.release.Some? {
      ScaleDownIsSafe(keep, atomic, s, r, op, r.(op := Some(op.(step := Draining))));
    } else {
      assert s.todo.rest.Done?;
      NextStepIsTrue(keep, atomic, s, s.todo.write.record, op);
      OneSaveIsSafe(keep, atomic, s, s.todo.write.record);
    }
  }

  lemma SnapshottingIsSafe(keep: nat, atomic: bool, s: State, r: Record, op: Op)
    requires ClusterInv(s) && OpInv(keep, atomic, s) && IsPending(s, Snapshotting, None)
    requires s.c.record == Some(r) && r.op == Some(op) && s.todo == AdvanceTodo(s.c, r, keep)
    ensures TodoInv(keep, atomic, s)
  {
    assert SnapshottingInv(s, op);
    if s.todo.Do? && s.todo.write.Prune? {
      TakenIsKnown(s, op);
      var h := Skipped(s);
      OtherTodo(keep, atomic, s, h);
      SameCluster(s, h);
      AfterSnapshotIsSafe(keep, atomic, h, r, op);
      assert PruneInv(keep, s, keep, s.todo.rest);
    } else if s.todo.Do? && s.todo.write.Save? {
      SnapshotAbortIsSafe(keep, atomic, s, s.todo.write.record);
    } else if s.todo.Do? {
      JobMissingIsSafe(keep, atomic, s, op);
    }
  }

  lemma DrainingIsSafe(keep: nat, atomic: bool, s: State, r: Record, op: Op)
    requires ClusterInv(s) && OpInv(keep, atomic, s) && IsPending(s, Draining, None)
    requires s.c.record == Some(r) && r.op == Some(op) && s.todo == AdvanceTodo(s.c, r, keep)
    ensures TodoInv(keep, atomic, s)
  {
    if s.todo.Do? {
      assert NoSeedActive(s.c);
      SeedNameIsFree(s);
      var r' := s.todo.write.record;
      assert SeedingInv(atomic, Saved(s), r'.op.value);
      assert OpInv(keep, atomic, Saved(s));
      SaveThenJobIsSafe(keep, atomic, s, r', SeedJob(s.c.now), op.backup, s.todo.rest.write.onConflict);
    }
  }

  lemma SeedFailedIsSafe(keep: nat, atomic: bool, s: State, r: Record)
    requires OpInv(keep, atomic, s) && IsPending(s, Seeding, None) && s.c.record == Some(r)
    requires s.todo == Write1(Save(Failing(r))) && r.op.value.job.value in s.c.jobs && NoSeedActive(s.c)
    ensures TodoInv(keep, atomic, s)
  {
    if !atomic && Forgotten(Saved(s)) {
      assert SaveInv(keep, atomic, s);
    } else {
      assert OpInv(keep, atomic, Saved(s));
      OneSaveIsSafe(keep, atomic, s, Failing(r));
    }
  }

  lemma SeededIsSafe(keep: nat, atomic: bool, s: State, r: Record, r': Record)
    requires OpInv(keep, atomic, s) && IsPending(s, Seeding, None) && s.c.record == Some(r) && r'.op == r.op
    requires s.todo == Write2(Upgrade(1, r'.spec, Write1(Save(Failing(r')))), Save(r'.(op := None)))
    requires r.op.value.job.value in s.c.jobs && NoSeedActive(s.c)
    ensures TodoInv(keep, atomic, s)
  {
    assert SeedingInv(atomic, s, r.op.value);
    assert StepUpgradeInv(atomic, s, 1, Write1(Save(Failing(r'))), r'.(op := None));
    assert UpgradeInv(atomic, s, 1, Write1(Save(Failing(r'))), Write1(Save(r'.(op := None))));
  }

  /** A finished seed Job is not an active one, and no other is. */
  lemma FinishedHasNoSeed(keep: nat, atomic: bool, s: State, op: Op)
    requires OpInv(keep, atomic, s) && OpOf(s) == Some(op) && op.step.Seeding? && op.job.Some?
    requires op.job.value in s.c.jobs && !s.c.jobs[op.job.value].Active?
    ensures NoSeedActive(s.c)
  {
  }

  lemma SeedingIsSafe(keep: nat, atomic: bool, s: State, r: Record, op: Op)
    requires ClusterInv(s) && OpInv(keep, atomic, s) && IsPending(s, Seeding, None) && !InstallUnrecorded(s)
    requires s.c.record == Some(r) && r.op == Some(op) && s.todo == AdvanceTodo(s.c, r, keep)
    requires atomic || !Forgotten(s.(todo := Done))
    ensures TodoInv(keep, atomic, s)
  {
    assert SeedingInv(atomic, s, op);
    if s.todo.Do? && s.todo.write.CreateJob? {
      JobMissingIsSafe(keep, atomic, s, op);
    } else if s.todo.Do? {
      FinishedHasNoSeed(keep, atomic, s, op);
      hide OpInv, SeedingInv;
      if s.todo.write.Save? {
        SeedFailedIsSafe(keep, atomic, s, r);
      } else {
        SeededIsSafe(keep, atomic, s, r, r.(spec := s.todo.write.spec));
      }
    }
  }

  lemma InstallingIsSafe(keep: nat, atomic: bool, s: State, r: Record, op: Op)
    requires OpInv(keep, atomic, s) && IsPending(s, Installing, None) && !InstallUnrecorded(s)
    requires s.c.record == Some(r) && r.op == Some(op) && s.todo == InstallTodo(r)
    ensures TodoInv(keep, atomic, s)
  {
    var h := Skipped(s);
    var h2 := Made(h);
    assert NoSeedActive(s.c);
    InstallIsSafe(keep, atomic, h2, r);
    assert TodoInv(keep, atomic, h);
  }

  lemma TearingDownIsSafe(keep: nat, atomic: bool, s: State, r: Record, op: Op)
    requires IsPending(s, TearingDown, None) && s.c.record == Some(r) && r.op == Some(op)
    requires s.todo == AdvanceTodo(s.c, r, keep)
    ensures TodoInv(keep, atomic, s)
  {
  }

  lemma ReconcileIsSafe(keep: nat, atomic: bool, s: State, r: Record, op: Op)
    requires ClusterInv(s) && OpInv(keep, atomic, s) && s.c.record == Some(r) && r.op == Some(op) && !op.error
    requires s.todo == AdvanceTodo(s.c, r, keep) && (atomic || !Forgotten(s.(todo := Done)))
    ensures TodoInv(keep, atomic, s)
  {
    NotYetRecorded(s, r, keep);
    hide OpInv, TodoInv, AdvanceTodo;
    match op.step
    case Snapshotting => SnapshottingIsSafe(keep, atomic, s, r, op);
    case Draining => DrainingIsSafe(keep, atomic, s, r, op);
    case Seeding => SeedingIsSafe(keep, atomic, s, r, op);
    case Installing => InstallPlan(s.c, r, keep); InstallingIsSafe(keep, atomic, s, r, op);
    case TearingDown => TearingDownIsSafe(keep, atomic, s, r, op);
  }

  lemma InstallPlan(c: Cluster, r: Record, keep: nat)
    requires r.op.Some? && r.op.value.step.Installing?
    ensures AdvanceTodo(c, r, keep) == InstallTodo(r)
  {
  }

  /** No step begins by storing that it is over. */
  lemma NotYetRecorded(s: State, r: Record, keep: nat)
    requires s.c.record == Some(r) && Busy(r.op) && s.todo == AdvanceTodo(s.c, r, keep)
    ensures r.op.value.step.Seeding? || r.op.value.step.Installing? ==> !InstallUnrecorded(s)
  {
  }

  // ------------------------------------------------------------ all calls

  lemma NewCallIsSafe(keep: nat, atomic: bool, s: State, call: Call)
    requires ClusterInv(s) && OpInv(keep, atomic, s)
    requires (call.CallLaunch? || call.CallCreate? || call.CallHeal?) && Plan(s.c, call, keep) == Some(s.todo)
    ensures TodoInv(keep, atomic, s)
  {
    var r := s.todo.write.record;
    hide OpInv, ClusterInv, TodoInv;
    if call.CallLaunch? {
      LaunchIsSafe(keep, atomic, s, r, r.op.value);
    } else if call.CallCreate? {
      CreateIsSafe(keep, atomic, s, r, r.op.value);
    } else {
      HealIsSafe(keep, atomic, s, r);
    }
  }

  lemma StartCallIsSafe(keep: nat, atomic: bool, s: State, r: Record, call: Call)
    requires ClusterInv(s) && OpInv(keep, atomic, s) && s.c.record == Some(r)
    requires (call.CallStart? || call.CallStop?) && PlanExisting(s.c, r, call, keep) == Some(s.todo)
    ensures TodoInv(keep, atomic, s)
  {
    hide OpInv, ClusterInv, TodoInv;
    if call.CallStop? {
      StartIsSafe(keep, atomic, s, s.todo.write.record, 0);
    } else if FailedAt(r.op, Seeding) {
      SeedAgainIsSafe(keep, atomic, s, s.todo.write.record);
    } else {
      StartIsSafe(keep, atomic, s, s.todo.write.record, 1);
    }
  }

  lemma ChainCallIsSafe(keep: nat, atomic: bool, s: State, r: Record, call: Call)
    requires ClusterInv(s) && OpInv(keep, atomic, s) && s.c.record == Some(r)
    requires call.CallSnapshot? || call.CallRestore? || call.CallDelete?
    requires PlanExisting(s.c, r, call, keep) == Some(s.todo)
    ensures TodoInv(keep, atomic, s)
  {
    hide OpInv, ClusterInv, TodoInv;
    var r' := s.todo.write.record;
    if s.todo.rest.Do? {
      ChainIsSafe(keep, atomic, s, r', r'.op.value);
    } else if call.CallRestore? {
      RestoreBrokenIsSafe(keep, atomic, s, r', r'.op.value);
    } else {
      DeleteBrokenIsSafe(keep, atomic, s, r', r'.op.value);
    }
  }

  lemma EditCallIsSafe(keep: nat, atomic: bool, s: State, r: Record, call: Call)
    requires ClusterInv(s) && OpInv(keep, atomic, s) && s.c.record == Some(r)
    requires (call.CallUpdateSettings? || call.CallSetWhitelist?) && PlanExisting(s.c, r, call, keep) == Some(s.todo)
    ensures TodoInv(keep, atomic, s)
  {
    hide OpInv, ClusterInv, TodoInv;
    var r' := s.todo.write.record;
    if s.todo.rest.Do? {
      EditIsSafe(keep, atomic, s, r');
    } else {
      assert r'.op == r.op && !InstallUnrecorded(s);
      SameOpIsTrue(keep, atomic, s, r');
      OneSaveIsSafe(keep, atomic, s, r');
    }
  }

  lemma ExistingCallIsSafe(keep: nat, atomic: bool, s: State, r: Record, call: Call)
    requires ClusterInv(s) && OpInv(keep, atomic, s) && s.c.record == Some(r)
    requires !call.CallLaunch? && !call.CallCreate? && !call.CallHeal?
    requires PlanExisting(s.c, r, call, keep) == Some(s.todo) && (atomic || !Forgotten(s.(todo := Done)))
    ensures TodoInv(keep, atomic, s)
  {
    hide OpInv, ClusterInv, TodoInv, Forgotten;
    if call.CallReconcile? {
      ReconcileIsSafe(keep, atomic, s, r, r.op.value);
    } else {
      hide PlanExisting;
      match call
      case CallStart => StartCallIsSafe(keep, atomic, s, r, call);
      case CallStop => StartCallIsSafe(keep, atomic, s, r, call);
      case CallUpdateSettings(_) => EditCallIsSafe(keep, atomic, s, r, call);
      case CallSetWhitelist(_) => EditCallIsSafe(keep, atomic, s, r, call);
      case _ => ChainCallIsSafe(keep, atomic, s, r, call);
    }
  }

  lemma PlanIsExisting(c: Cluster, call: Call, keep: nat)
    requires !call.CallLaunch? && !call.CallCreate? && !call.CallHeal? && Plan(c, call, keep).Some?
    ensures c.record.Some? && Plan(c, call, keep) == PlanExisting(c, c.record.value, call, keep)
  {
    hide PlanExisting;
  }

  lemma BeginKeepsInv(keep: nat, atomic: bool, s: State, call: Call, s': State)
    requires GoodInv(keep, atomic, s) && !Forgotten(s) && Begins(keep, s, call, s')
    ensures GoodInv(keep, atomic, s')
  {
    assert s'.c == s.c && s.todo.Done? && Plan(s'.c, call, keep) == Some(s'.todo);
    assert !Forgotten(s'.(todo := Done));
    hide OpInv, ClusterInv, TodoInv, Plan, PlanExisting, Forgotten;
    BeginKeepsCluster(keep, s, call, s');
    BeginKeepsOp(keep, atomic, s, call, s');
    hide Begins;
    if call.CallLaunch? || call.CallCreate? || call.CallHeal? {
      NewCallIsSafe(keep, atomic, s', call);
    } else {
      PlanIsExisting(s'.c, call, keep);
      ExistingCallIsSafe(keep, atomic, s', s'.c.record.value, call);
    }
  }
}
