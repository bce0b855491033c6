/** One pass of the reconciler: it gets as far as the cluster lets it, and the next
    makes good a crash between any two of its writes. */
module LifecycleProgress {
  import opened Wrappers
  import opened Lifecycle
  import opened LifecycleRuns
  import opened LifecycleInvariant
  import opened LifecycleSteps
  import opened LifecycleSafety

  const MAX_STEPS := 5

  datatype Outcome = Outcome(c: Cluster, ok: bool)

  /** Performs every owed write; `ok` is false if one was refused. */
  function Exec(c: Cluster, todo: Todo, helmOk: bool): Outcome
    decreases todo
  {
    match todo
    case Done => Outcome(c, true)
    case Do(w, rest) =>
      if Refused(w, helmOk) || (w.CreateJob? && w.onConflict.Some? && w.job in c.jobs) then
        Outcome(Exec(if w.CreateJob? then Apply(c, w) else c, After(c, w, rest, helmOk), helmOk).c, false)
      else Exec(Apply(c, w), rest, helmOk)
  }

  /** Performs the first `n` writes only: a crash after the n-th. */
  function ExecPrefix(c: Cluster, todo: Todo, n: nat): Cluster
    decreases n
  {
    if n == 0 || todo.Done? then c
    else ExecPrefix(Apply(c, todo.write), todo.rest, n - 1)
  }

  /** Whether a completed step reports progress, so that another one follows. */
  predicate Advances(c: Cluster, op: Op) {
    match op.step
    case Snapshotting => op.job.Some? && JobStatus(c, op) == Some(Succeeded)
    case Draining => NoLivePod(c)
    case Seeding => op.job.Some? && JobStatus(c, op) == Some(Succeeded)
    case Installing => true
    case TearingDown => false
  }

  predicate Running(c: Cluster) {
    c.record.Some? && Busy(c.record.value.op)
  }

  /** Loading a world rebuilds a lost record from its release. */
  function Healed(c: Cluster): Cluster {
    if c.record.None? && c.release.Some? then
      var v := c.release.value;
      c.(record := Some(Record(Spec(v.source, v.forge, v.settings, Blank), None)))
    else c
  }

  function Advanced(keep: nat, c: Cluster, helmOk: bool): Outcome
    requires Running(c)
  {
    var r := c.record.value;
    var out := Exec(c, AdvanceTodo(c, r, keep), helmOk);
    out.(ok := out.ok && Advances(c, r.op.value))
  }

  /** The reconciler's bounded loop; `helm(k)` says whether the k-th step's Helm
      call succeeds. */
  function Reconciled(keep: nat, c: Cluster, helm: nat -> bool, k: nat, steps: nat): Cluster
    decreases steps
  {
    if steps == 0 then c
    else
      var h := Healed(c);
      if !Running(h) then h
      else
        var out := Advanced(keep, h, helm(k));
        if out.ok then Reconciled(keep, out.c, helm, k + 1, steps - 1) else out.c
  }

  // ---------------------------------------------------------------- progress

  predicate WellFormedOp(op: Op) {
    match op.step
    case Snapshotting =>
      op.job.Some? && op.job.value.SnapshotJob? && !op.kind.Launch? && !op.kind.Create?
    case Seeding => op.job.Some? && op.job.value.SeedJob?
    case _ => true
  }

  predicate WellFormed(c: Cluster) {
    Running(c) ==> WellFormedOp(c.record.value.op.value)
  }

  /** How many more steps an operation can take; at most three. */
  function Rank(c: Cluster): nat {
    if !Running(c) then 0
    else
      var op := c.record.value.op.value;
      match op.step
      case Snapshotting => if op.kind.Restore? then 3 else if op.kind.Delete? then 2 else 1
      case Draining => 2
      case _ => 1
  }

  /** The reconciler has nothing left to do for now: no operation, a failed one,
      or one that waits for a Job or for the server to shut down. */
  predicate Waits(c: Cluster) {
    && Running(c)
    && var op := c.record.value.op.value;
       match op.step
       case Snapshotting => op.job.Some? && op.job.value in c.jobs && c.jobs[op.job.value].Active?
       case Draining => !NoLivePod(c)
       case Seeding => op.job.Some? && op.job.value in c.jobs && c.jobs[op.job.value].Active?
       case _ => false
  }

  predicate Goes(c: Cluster, w: Write, helmOk: bool) {
    !Refused(w, helmOk) && !(w.CreateJob? && w.onConflict.Some? && w.job in c.jobs)
  }

  lemma ExecFirst(c: Cluster, w: Write, rest: Todo, helmOk: bool)
    requires Goes(c, w, helmOk)
    ensures Exec(c, Do(w, rest), helmOk) == Exec(Apply(c, w), rest, helmOk)
  {
  }

  lemma ExecTwo(c: Cluster, w: Write, w': Write, helmOk: bool)
    requires Goes(c, w, helmOk) && Goes(Apply(c, w), w', helmOk)
    ensures Exec(c, Write2(w, w'), helmOk) == Outcome(Apply(Apply(c, w), w'), true)
  {
    ExecFirst(c, w, Write1(w'), helmOk);
    ExecFirst(Apply(c, w), w', Done, helmOk);
  }

  /** A Helm call that fails leaves the operation marked as failed. */
  lemma ExecFailedUpgrade(c: Cluster, n: nat, spec: Spec, r: Record, rest: Todo)
    requires r.op.Some?
    ensures Exec(c, Do(Upgrade(n, spec, Write1(Save(Failing(r)))), rest), false)
         == Outcome(c.(record := Some(Failing(r))), false)
  {
    var fail := Write1(Save(Failing(r)));
    ExecFirst(c, Save(Failing(r)), Done, false);
    assert Exec(c, fail, false) == Outcome(c.(record := Some(Failing(r))), true);
  }

  /** The seed step's, the create step's and the teardown's whole effect. */
  lemma ExecInstall(c: Cluster, r: Record, helmOk: bool)
    requires r.op.Some?
    ensures var c2 := Apply(Apply(c, CreateSecret), CreateVolume);
      Exec(c, InstallTodo(r), helmOk) ==
        if helmOk then Outcome(c2.(release := Some(Rendered(r.spec, 1)), record := Some(r.(op := None))), true)
        else Outcome(c2.(record := Some(Failing(r))), false)
  {
    var todo := InstallTodo(r);
    var c1 := Apply(c, CreateSecret);
    var c2 := Apply(c1, CreateVolume);
    ExecFirst(c, CreateSecret, todo.rest, helmOk);
    ExecFirst(c1, CreateVolume, todo.rest.rest, helmOk);
    if helmOk {
      ExecTwo(c2, todo.rest.rest.write, Save(r.(op := None)), helmOk);
    } else {
      ExecFailedUpgrade(c2, 1, r.spec, r, todo.rest.rest.rest);
    }
  }

  function TornDown(c: Cluster): Cluster {
    c.(release := None, jobs := map[], volume := if c.volume.Bound? then Terminating else c.volume,
       secret := false, record := None)
  }

  lemma ExecTeardown(keep: nat, c: Cluster, helmOk: bool)
    requires Running(c) && c.record.value.op.value.step.TearingDown?
    ensures var r := c.record.value;
      Exec(c, AdvanceTodo(c, r, keep), helmOk) ==
        if helmOk then Outcome(TornDown(c), true)
        else Outcome(c.(record := Some(Failing(r))), false)
  {
    var r := c.record.value;
    var todo := AdvanceTodo(c, r, keep);
    if helmOk {
      var c1 := Apply(c, todo.write);
      var c2 := Apply(c1, DeleteJobs);
      var c3 := Apply(c2, DeleteVolume);
      ExecFirst(c, todo.write, todo.rest, helmOk);
      ExecFirst(c1, DeleteJobs, todo.rest.rest, helmOk);
      ExecFirst(c2, DeleteVolume, todo.rest.rest.rest, helmOk);
      ExecTwo(c3, DeleteSecret, RemoveRecord, helmOk);
    } else {
      ExecFirst(c, Save(Failing(r)), Done, false);
      assert Exec(c, todo.write.onFail, false) == Outcome(c.(record := Some(Failing(r))), true);
    }
  }

  lemma ExecAfterSnapshot(c: Cluster, r: Record, helmOk: bool)
    requires r.op.Some? && !r.op.value.kind.Launch? && !r.op.value.kind.Create?
    ensures var out := Exec(c, AfterSnapshot(c, r), helmOk);
      if out.ok then
        && out.c.record == Some(r.(op := match r.op.value.kind
             case Restore => Some(r.op.value.(step := Draining))
             case Delete => Some(r.op.value.(step := TearingDown))
             case _ => None))
        && out.c == c.(record := out.c.record, release := out.c.release)
        && out.c.release == (if r.op.value.kind.LegacyStop? || (r.op.value.kind.Restore? && c.release.Some?)
                             then Some(Rendered(r.spec, 0)) else c.release)
      else out.c == c.(record := Some(Failing(r)))
  {
    var todo := AfterSnapshot(c, r);
    if todo.write.Upgrade? && helmOk {
      ExecTwo(c, todo.write, todo.rest.write, helmOk);
    } else if todo.write.Upgrade? {
      ExecFailedUpgrade(c, 0, r.spec, r, todo.rest);
    } else {
      ExecFirst(c, todo.write, Done, helmOk);
    }
  }

  lemma ExecDrain(keep: nat, c: Cluster, helmOk: bool)
    requires Running(c) && c.record.value.op.value.step.Draining? && NoLivePod(c)
    ensures var r := c.record.value;
      var job := SeedJob(c.now);
      var seed := r.(op := Some(r.op.value.(step := Seeding, job := Some(job))));
      Exec(c, AdvanceTodo(c, r, keep), helmOk) ==
        if job in c.jobs then Outcome(c.(record := Some(Failing(r))), false)
        else Outcome(Launching(c, job, r.op.value.backup).(record := Some(seed)), true)
  {
    var r := c.record.value;
    var todo := AdvanceTodo(c, r, keep);
    var c1 := Apply(c, todo.write);
    ExecFirst(c, todo.write, todo.rest, helmOk);
    if SeedJob(c.now) in c.jobs {
      ExecFirst(c1, Save(Failing(r)), Done, helmOk);
      assert Exec(c1, Write1(Save(Failing(r))), helmOk).c == c.(record := Some(Failing(r)));
    } else {
      ExecFirst(c1, todo.rest.write, Done, helmOk);
    }
  }

  /** A step that completes leaves an operation of lower rank; a step that does
      not has ended, failed, or waits. */
  ghost predicate LowersRank(keep: nat, c: Cluster, helmOk: bool)
    requires Running(c) && WellFormed(c)
  {
    var out := Advanced(keep, c, helmOk);
    && WellFormed(out.c)
    && (out.c.record.Some? || out.c.release.None?)
    && if out.ok then Rank(out.c) < Rank(c) else !Running(out.c) || Waits(out.c)
  }

  /** Once the snapshot has succeeded, the step prunes and goes on from there. */
  lemma SnapshotOutcome(keep: nat, c: Cluster, helmOk: bool)
    requires Running(c) && WellFormed(c) && c.record.value.op.value.step.Snapshotting?
    requires JobStatus(c, c.record.value.op.value) == Some(Succeeded)
    ensures var c1 := Apply(c, Prune(keep));
      && AfterSnapshot(c1, c.record.value) == AfterSnapshot(c, c.record.value)
      && Advanced(keep, c, helmOk) == Exec(c1, AfterSnapshot(c1, c.record.value), helmOk)
  {
    var r := c.record.value;
    assert AfterSnapshot(Apply(c, Prune(keep)), r) == AfterSnapshot(c, r);
    hide AfterSnapshot;
    ExecFirst(c, Prune(keep), AfterSnapshot(c, r), helmOk);
  }

  lemma SnapshotStepLowersRank(keep: nat, c: Cluster, helmOk: bool)
    requires Running(c) && WellFormed(c) && c.record.value.op.value.step.Snapshotting?
    ensures LowersRank(keep, c, helmOk)
  {
    var r := c.record.value;
    if JobStatus(c, r.op.value) == Some(Succeeded) {
      var c1 := Apply(c, Prune(keep));
      assert c1.record == c.record && r.op.value.job.Some?;
      SnapshotOutcome(keep, c, helmOk);
      hide Advanced, AfterSnapshot, AdvanceTodo;
      ExecAfterSnapshot(c1, r, helmOk);
    } else {
      UnfinishedSnapshotLowersRank(keep, c, helmOk);
    }
  }

  lemma UnfinishedSnapshotLowersRank(keep: nat, c: Cluster, helmOk: bool)
    requires Running(c) && WellFormed(c) && c.record.value.op.value.step.Snapshotting?
    requires JobStatus(c, c.record.value.op.value) != Some(Succeeded)
    ensures LowersRank(keep, c, helmOk)
  {
    var todo := AdvanceTodo(c, c.record.value, keep);
    if todo.Do? {
      ExecFirst(c, todo.write, Done, helmOk);
    }
  }

  lemma SeedStepLowersRank(keep: nat, c: Cluster, helmOk: bool)
    requires Running(c) && WellFormed(c) && c.record.value.op.value.step.Seeding?
    ensures LowersRank(keep, c, helmOk)
  {
    var r := c.record.value;
    var todo := AdvanceTodo(c, r, keep);
    if todo.Do? && todo.write.Upgrade? && helmOk {
      ExecTwo(c, todo.write, todo.rest.write, helmOk);
    } else if todo.Do? && todo.write.Upgrade? {
      var r' := r.(spec := todo.write.spec);
      ExecFailedUpgrade(c, 1, r'.spec, r', todo.rest);
    } else if todo.Do? {
      ExecFirst(c, todo.write, Done, helmOk);
    }
  }

  lemma StepLowersRank(keep: nat, c: Cluster, helmOk: bool)
    requires Running(c) && WellFormed(c)
    ensures LowersRank(keep, c, helmOk)
  {
    match c.record.value.op.value.step
    case Snapshotting => SnapshotStepLowersRank(keep, c, helmOk);
    case Draining =>
      if NoLivePod(c) {
        ExecDrain(keep, c, helmOk);
      }
    case Seeding => SeedStepLowersRank(keep, c, helmOk);
    case Installing => ExecInstall(c, c.record.value, helmOk);
    case TearingDown => ExecTeardown(keep, c, helmOk);
  }

  /** The bound of five steps never stops the reconciler: it stops only where
      there is nothing to do before the cluster moves, and it stops there
      whatever Helm answers. */
  lemma {:induction false} ReconcilerRunsToAStop(keep: nat, c: Cluster, helm: nat -> bool, k: nat, steps: nat)
    requires WellFormed(c) && Rank(Healed(c)) < steps
    ensures var c' := Reconciled(keep, c, helm, k, steps);
      WellFormed(c') && (!Running(c') || Waits(c'))
    decreases steps
  {
    var h := Healed(c);
    if Running(h) {
      StepLowersRank(keep, h, helm(k));
      var out := Advanced(keep, h, helm(k));
      if out.ok {
        assert Rank(Healed(out.c)) <= Rank(out.c);
        ReconcilerRunsToAStop(keep, out.c, helm, k + 1, steps - 1);
      }
    }
  }

  lemma RankIsAtMostThree(c: Cluster)
    ensures Rank(c) <= 3 < MAX_STEPS
  {
  }

  // -------------------------------------------------------------- resumption

  /** What a resumed step relies on.  All of it holds in reachable states (see
      ReachableStateIsResumable) except that something must be kept. */
  predicate Resumable(keep: nat, c: Cluster) {
    && WellFormed(c) && c.record.Some?
    && (Running(c) ==> ResumableOp(keep, c, c.record.value.op.value))
  }

  predicate ResumableOp(keep: nat, c: Cluster, op: Op)
    requires WellFormedOp(op)
  {
    match op.step
    case Draining => SeedJob(c.now) !in c.jobs
    case Snapshotting =>
      && op.snap.Some? && (keep >= 1 || op.job.value in c.jobs)
      && forall t | t in c.zips :: t <= op.snap.value
    case _ => true
  }

  function AlwaysOk(): nat -> bool { k => true }

  function Settled(keep: nat, c: Cluster): Cluster {
    Reconciled(keep, c, AlwaysOk(), 0, MAX_STEPS)
  }

  /** More steps, or another numbering of them, change nothing. */
  lemma {:induction false} StepsDoNotMatter(keep: nat, c: Cluster, k: nat, m: nat, k': nat, m': nat)
    requires WellFormed(c) && Rank(Healed(c)) < m && Rank(Healed(c)) < m'
    ensures Reconciled(keep, c, AlwaysOk(), k, m) == Reconciled(keep, c, AlwaysOk(), k', m')
    decreases m
  {
    var h := Healed(c);
    if Running(h) {
      StepLowersRank(keep, h, true);
      var out := Advanced(keep, h, true);
      if out.ok {
        assert Rank(Healed(out.c)) <= Rank(out.c);
        StepsDoNotMatter(keep, out.c, k + 1, m - 1, k' + 1, m' - 1);
      }
    }
  }

  lemma StoppedIsSettled(keep: nat, c: Cluster)
    requires c.record.Some? || c.release.None?
    requires WellFormed(c) && (!Running(c) || Waits(c))
    ensures Settled(keep, c) == c
  {
    if Running(c) {
      assert AdvanceTodo(c, c.record.value, keep) == Done;
    }
  }

  lemma SettledAfterStep(keep: nat, c: Cluster)
    requires Running(c) && WellFormed(c)
    ensures Settled(keep, Advanced(keep, c, true).c) == Settled(keep, c)
  {
    StepLowersRank(keep, c, true);
    var out := Advanced(keep, c, true);
    if out.ok {
      assert Rank(Healed(out.c)) <= Rank(out.c) < Rank(c);
      StepsDoNotMatter(keep, out.c, 1, MAX_STEPS - 1, 0, MAX_STEPS);
    } else {
      if c.record.value.op.value.step.TearingDown? { ExecTeardown(keep, c, true); }
      if c.record.value.op.value.step.Installing? { ExecInstall(c, c.record.value, true); }
      StoppedIsSettled(keep, out.c);
    }
  }

  /** Crashing after any number of a step's writes and reconciling from what was
      stored ends where the uninterrupted pass ends. */
  lemma CrashedStepIsResumed(keep: nat, c: Cluster, n: nat)
    requires Running(c) && Resumable(keep, c)
    ensures var todo := AdvanceTodo(c, c.record.value, keep);
      Settled(keep, ExecPrefix(c, todo, n)) == Settled(keep, c)
  {
    var r := c.record.value;
    var todo := AdvanceTodo(c, r, keep);
    SettledAfterStep(keep, c);
    if todo.Do? && n > 0 {
      match r.op.value.step
      case Snapshotting => CrashedSnapshotIsResumed(keep, c, n);
      case Draining => CrashedDrainIsResumed(keep, c, n);
      case Seeding => CrashedSeedIsResumed(keep, c, n);
      case Installing => CrashedInstallIsResumed(keep, c, n);
      case TearingDown => CrashedTeardownIsResumed(keep, c, n);
    }
  }

  lemma CrashedSnapshotIsResumed(keep: nat, c: Cluster, n: nat)
    requires Running(c) && Resumable(keep, c) && c.record.value.op.value.step.Snapshotting?
    requires n > 0 && AdvanceTodo(c, c.record.value, keep).Do?
    ensures Settled(keep, ExecPrefix(c, AdvanceTodo(c, c.record.value, keep), n)) == Settled(keep, c)
  {
    var todo := AdvanceTodo(c, c.record.value, keep);
    var c1 := Apply(c, todo.write);
    assert ExecPrefix(c, todo, n) == ExecPrefix(c1, todo.rest, n - 1);
    if todo.write.Prune? {
      PruneChangesNoPlan(keep, c);
      PrunedOnceIsResumed(keep, c);
      if n > 1 {
        CrashedAfterPruneIsResumed(keep, c1, n - 1);
      }
    } else {
      ExecFirst(c, todo.write, Done, true);
      SettledAfterStep(keep, c);
    }
  }

  /** Pruning again changes nothing, and the step goes on as before. */
  lemma PruneChangesNoPlan(keep: nat, c: Cluster)
    requires Running(c) && Resumable(keep, c) && c.record.value.op.value.step.Snapshotting?
    requires var todo := AdvanceTodo(c, c.record.value, keep); todo.Do? && todo.write.Prune?
    ensures var c1 := Apply(c, Prune(keep));
      && Apply(c1, Prune(keep)) == c1 && c1.record == c.record && Running(c1) && WellFormed(c1)
      && JobStatus(c1, c.record.value.op.value) == Some(Succeeded)
      && AfterSnapshot(c1, c.record.value) == AfterSnapshot(c, c.record.value)
      && AdvanceTodo(c1, c.record.value, keep) == AdvanceTodo(c, c.record.value, keep)
  {
    NewestKeepsMaximum(c.zips, keep, c.record.value.op.value.snap.value);
  }

  lemma PrunedOnceIsResumed(keep: nat, c: Cluster)
    requires Running(c) && Resumable(keep, c) && c.record.value.op.value.step.Snapshotting?
    requires var todo := AdvanceTodo(c, c.record.value, keep); todo.Do? && todo.write.Prune?
    ensures Settled(keep, Apply(c, Prune(keep))) == Settled(keep, c)
  {
    var r := c.record.value;
    var c1, rest := Apply(c, Prune(keep)), AfterSnapshot(c, r);
    PruneChangesNoPlan(keep, c);
    SettledAfterStep(keep, c);
    SettledAfterStep(keep, c1);
    hide Apply, AfterSnapshot, Settled;
    ExecFirst(c, Prune(keep), rest, true);
    ExecFirst(c1, Prune(keep), rest, true);
  }

  lemma CrashedAfterPruneIsResumed(keep: nat, c: Cluster, n: nat)
    requires Running(c) && WellFormed(c) && c.record.value.op.value.step.Snapshotting? && n > 0
    requires Apply(c, Prune(keep)) == c && JobStatus(c, c.record.value.op.value) == Some(Succeeded)
    ensures Settled(keep, ExecPrefix(c, AfterSnapshot(c, c.record.value), n)) == Settled(keep, c)
  {
    var r := c.record.value;
    var after := AfterSnapshot(c, r);
    var c1 := Apply(c, after.write);
    SettledAfterStep(keep, c);
    SnapshotOutcome(keep, c, true);
    assert ExecPrefix(c, after, n) == ExecPrefix(c1, after.rest, n - 1);
    if after.write.Upgrade? {
      ScaledThenCrashed(keep, c, n);
    } else {
      assert after.rest.Done?;
      hide AfterSnapshot, Advanced, Settled;
      ExecFirst(c, after.write, Done, true);
    }
  }

  /** Scaling to zero once more changes nothing, so the step goes on as before. */
  lemma ScaledThenCrashed(keep: nat, c: Cluster, n: nat)
    requires Running(c) && WellFormed(c) && c.record.value.op.value.step.Snapshotting? && n > 0
    requires Apply(c, Prune(keep)) == c && JobStatus(c, c.record.value.op.value) == Some(Succeeded)
    requires AfterSnapshot(c, c.record.value).Do? && AfterSnapshot(c, c.record.value).write.Upgrade?
    ensures Settled(keep, ExecPrefix(c, AfterSnapshot(c, c.record.value), n)) == Settled(keep, c)
  {
    var r := c.record.value;
    var after := AfterSnapshot(c, r);
    var c1 := Apply(c, after.write);
    assert after.rest.Do? && after.rest.write.Save? && after.rest.rest.Done?;
    assert AfterSnapshot(c1, r) == after && Apply(c1, after.write) == c1;
    assert Apply(c1, Prune(keep)) == c1 && JobStatus(c1, r.op.value) == Some(Succeeded) && c1.record == c.record;
    assert ExecPrefix(c, after, n) == ExecPrefix(c1, after.rest, n - 1);
    if n > 1 { assert ExecPrefix(c1, after.rest, n - 1) == Apply(c1, after.rest.write); }
    hide AfterSnapshot, Advanced, Settled, JobStatus;
    SnapshotOutcome(keep, c, true);
    SnapshotOutcome(keep, c1, true);
    SettledAfterStep(keep, c);
    SettledAfterStep(keep, c1);
    ExecTwo(c, after.write, after.rest.write, true);
    ExecTwo(c1, after.write, after.rest.write, true);
  }

  lemma CrashedDrainIsResumed(keep: nat, c: Cluster, n: nat)
    requires Running(c) && Resumable(keep, c) && c.record.value.op.value.step.Draining?
    requires n > 0 && NoLivePod(c)
    ensures Settled(keep, ExecPrefix(c, AdvanceTodo(c, c.record.value, keep), n)) == Settled(keep, c)
  {
    var r := c.record.value;
    var todo := AdvanceTodo(c, r, keep);
    var c1 := Apply(c, todo.write);
    ExecDrain(keep, c, true);
    SettledAfterStep(keep, c);
    var c2 := Launching(c1, SeedJob(c.now), r.op.value.backup);
    StoppedIsSettled(keep, c2);
    if n == 1 {
      assert ExecPrefix(c, todo, 1) == c1;
      ExecFirst(c1, CreateJob(SeedJob(c.now), r.op.value.backup, None), Done, true);
    } else {
      assert ExecPrefix(c, todo, n) == ExecPrefix(c1, todo.rest, n - 1) == c2;
    }
  }

  lemma CrashedSeedIsResumed(keep: nat, c: Cluster, n: nat)
    requires Running(c) && Resumable(keep, c) && c.record.value.op.value.step.Seeding?
    requires n > 0 && AdvanceTodo(c, c.record.value, keep).Do?
    ensures Settled(keep, ExecPrefix(c, AdvanceTodo(c, c.record.value, keep), n)) == Settled(keep, c)
  {
    var todo := AdvanceTodo(c, c.record.value, keep);
    var c1 := Apply(c, todo.write);
    SettledAfterStep(keep, c);
    assert ExecPrefix(c, todo, n) == ExecPrefix(c1, todo.rest, n - 1);
    if todo.write.Upgrade? {
      ExecTwo(c, todo.write, todo.rest.write, true);
      ExecTwo(c1, todo.write, todo.rest.write, true);
      assert AdvanceTodo(c1, c.record.value, keep) == todo;
      if n > 1 {
        assert ExecPrefix(c1, todo.rest, n - 1) == Apply(c1, todo.rest.write);
      }
    } else {
      ExecFirst(c, todo.write, Done, true);
    }
  }

  /** However far an install has got, installing again comes to the same. */
  lemma InstallAgain(keep: nat, c: Cluster)
    requires Running(c) && c.record.value.op.value.step.Installing?
    ensures var r := c.record.value; var todo := AdvanceTodo(c, r, keep);
      var c1 := Apply(c, CreateSecret); var c2 := Apply(c1, CreateVolume); var c3 := Apply(c2, todo.rest.rest.write);
      && Exec(c1, todo, true) == Exec(c2, todo, true) == Exec(c3, todo, true) == Exec(c, todo, true)
      && Exec(c, todo, true).c == Apply(c3, Save(r.(op := None)))
  {
    var r := c.record.value;
    var todo := AdvanceTodo(c, r, keep);
    var c1 := Apply(c, CreateSecret);
    var c2 := Apply(c1, CreateVolume);
    ExecInstall(c, r, true);
    ExecInstall(c1, r, true);
    ExecInstall(c2, r, true);
    ExecInstall(Apply(c2, todo.rest.rest.write), r, true);
  }

  lemma CrashedInstallIsResumed(keep: nat, c: Cluster, n: nat)
    requires Running(c) && Resumable(keep, c) && c.record.value.op.value.step.Installing? && n > 0
    ensures Settled(keep, ExecPrefix(c, AdvanceTodo(c, c.record.value, keep), n)) == Settled(keep, c)
  {
    var r := c.record.value;
    var todo := AdvanceTodo(c, r, keep);
    var c1 := Apply(c, CreateSecret);
    var c2 := Apply(c1, CreateVolume);
    var c3 := Apply(c2, todo.rest.rest.write);
    SettledAfterStep(keep, c);
    InstallAgain(keep, c);
    PrefixStep(c, CreateSecret, todo.rest, n);
    if n > 1 { PrefixStep(c1, CreateVolume, todo.rest.rest, n - 1); }
    if n > 2 { PrefixStep(c2, todo.rest.rest.write, todo.rest.rest.rest, n - 2); }
    if n > 3 { PrefixStep(c3, Save(r.(op := None)), Done, n - 3); }
  }

  lemma PrefixStep(c: Cluster, w: Write, rest: Todo, n: nat)
    requires n > 0
    ensures ExecPrefix(c, Do(w, rest), n) == ExecPrefix(Apply(c, w), rest, n - 1)
  {
  }

  /** The states of a teardown, one after each write. */
  lemma TeardownStates(c: Cluster, onFail: Todo)
    ensures var c1 := Apply(c, Uninstall(onFail)); var c2 := Apply(c1, DeleteJobs);
      var c3 := Apply(c2, DeleteVolume); var c4 := Apply(c3, DeleteSecret);
      && TornDown(c1) == TornDown(c2) == TornDown(c3) == TornDown(c4) == TornDown(c) == Apply(c4, RemoveRecord)
      && c1.record == c2.record == c3.record == c4.record == c.record
  {
  }

  /** The first `n` writes of a teardown, and the rest that finishes it. */
  lemma TeardownPrefix(keep: nat, c: Cluster, n: nat)
    requires Running(c) && c.record.value.op.value.step.TearingDown?
    ensures var c' := ExecPrefix(c, AdvanceTodo(c, c.record.value, keep), n);
      && TornDown(c') == TornDown(c)
      && (if n <= 4 then c'.record == c.record else c' == TornDown(c))
  {
    var todo := AdvanceTodo(c, c.record.value, keep);
    TeardownStates(c, todo.write.onFail);
    var c1 := Apply(c, todo.write);
    var c2 := Apply(c1, DeleteJobs);
    var c3 := Apply(c2, DeleteVolume);
    var c4 := Apply(c3, DeleteSecret);
    hide Apply, TornDown, AdvanceTodo;
    if n > 0 { PrefixStep(c, todo.write, todo.rest, n); }
    if n > 1 { PrefixStep(c1, DeleteJobs, todo.rest.rest, n - 1); }
    if n > 2 { PrefixStep(c2, DeleteVolume, todo.rest.rest.rest, n - 2); }
    if n > 3 { PrefixStep(c3, DeleteSecret, Write1(RemoveRecord), n - 3); }
    if n > 4 { PrefixStep(c4, RemoveRecord, Done, n - 4); }
  }

  lemma CrashedTeardownIsResumed(keep: nat, c: Cluster, n: nat)
    requires Running(c) && Resumable(keep, c) && c.record.value.op.value.step.TearingDown? && n > 0
    ensures Settled(keep, ExecPrefix(c, AdvanceTodo(c, c.record.value, keep), n)) == Settled(keep, c)
  {
    var c' := ExecPrefix(c, AdvanceTodo(c, c.record.value, keep), n);
    TeardownPrefix(keep, c, n);
    SettledTeardown(keep, c);
    if n <= 4 {
      hide AdvanceTodo, Settled;
      SettledTeardown(keep, c');
    } else {
      StoppedIsSettled(keep, c');
    }
  }

  lemma SettledTeardown(keep: nat, c: Cluster)
    requires Running(c) && c.record.value.op.value.step.TearingDown?
    ensures Settled(keep, c) == TornDown(c)
  {
    ExecTeardown(keep, c, true);
    SettledAfterStep(keep, c);
    StoppedIsSettled(keep, TornDown(c));
  }

  /** Every state of every run is resumable, provided snapshots are kept and no
      server has been forgotten. */
  lemma ReachableStateIsResumable(keep: nat, atomic: bool, states: seq<State>, events: seq<Event>, i: nat)
    requires IsRun(keep, atomic, states, events) && i < |states| && keep >= 1
    requires atomic || NeverForgotten(states, i + 1)
    requires states[i].c.record.Some?
    ensures Resumable(keep, states[i].c)
  {
    ReachableInv(keep, atomic, states, events, i);
    AtomicIsGood(keep, atomic, states[i]);
    hide IsRun;
    GoodIsResumable(keep, atomic, states[i]);
  }

  lemma GoodIsResumable(keep: nat, atomic: bool, s: State)
    requires GoodInv(keep, atomic, s) && keep >= 1 && s.c.record.Some?
    ensures Resumable(keep, s.c)
  {
    if Running(s.c) {
      assert StepInv(atomic, s, s.c.record.value.op.value);
      assert SeedJob(s.c.now) in s.c.jobs ==> SeedActive(s.c.jobs, SeedJob(s.c.now));
    }
  }
}
