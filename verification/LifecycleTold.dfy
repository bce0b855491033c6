/** What Jobs are told and what the volume holds, along every run: the Job a seed waits
    for was told to extract its backup, what is owed keeps to that, a seed is declared
    over only when the volume holds that backup, and a snapshot step only left without
    a failure when its snapshot is there.  Plans, single writes and the cluster's own
    moves keep it.  What follows from it is in the next module. */
module LifecycleTold {
  import opened Wrappers
  import opened Lifecycle
  import opened LifecycleRuns
  import opened LifecycleInvariant
  import opened LifecycleSteps
  import opened LifecycleBegins
  import opened LifecycleSafety
  import opened LifecyclePledge
  import opened LifecycleIntent

  ghost predicate SeedingJob(op: Option<Op>, j: JobName) {
    Busy(op) && op.value.step.Seeding? && op.value.job == Some(j)
  }

  /** The Job a seed waits for was told to extract the seed's backup, and once it has
      succeeded that is what the volume holds. */
  ghost predicate SeedTold(s: State) {
    var op := OpOf(s);
    forall j | SeedingJob(op, j) && j in s.c.jobs ::
      && j in s.c.told && s.c.told[j] == op.value.backup
      && (j.SeedJob? && s.c.jobs[j].Succeeded? ==> s.holds == Some(op.value.backup))
  }

  /** The Job follows at once, or behind the secret and the volume; its name is new. */
  ghost predicate JobFollows(rest: Todo, j: JobName) {
    || (rest.Do? && rest.write.CreateJob? && rest.write.job == j && rest.write.onConflict.Some?)
    || (rest.Do? && rest.write.CreateSecret? && rest.rest.Do? && rest.rest.write.CreateVolume?
        && rest.rest.rest.Do? && rest.rest.rest.write.CreateJob?
        && rest.rest.rest.write.job == j && rest.rest.rest.write.onConflict.Some?)
  }

  /** What may come behind the secret or the volume, and behind a pending operation. */
  ghost predicate MayFollow(rest: Todo, op: Option<Op>) {
    rest.Do? ==>
      || rest.write.CreateSecret? || rest.write.CreateVolume? || rest.write.CreateJob?
      || (rest.write.Upgrade? && (Busy(op) ==> op.value.step.Installing?))
  }

  /** Along the owed writes: a Job is told what the operation says, and an operation
      that starts to seed is stored in front of its Job. */
  ghost predicate Tells(todo: Todo, op: Option<Op>)
    decreases todo
  {
    match todo
    case Done => true
    case Do(w, rest) =>
      match w
      case Save(r) =>
        && Tells(rest, r.op) && MayFollow(rest, r.op)
        && forall j :: SeedingJob(r.op, j) ==> r.op == op || JobFollows(rest, j)
      case CreateJob(j, backup, onConflict) =>
        && Busy(op) && op.value.job == Some(j) && backup == op.value.backup
        && rest.Done? && (onConflict.Some? ==> SavesFailure(onConflict.value))
      case Upgrade(_, _, onFail) => Tells(rest, op) && SavesFailure(onFail)
      case Uninstall(onFail) => Tells(rest, op) && SavesFailure(onFail)
      case CreateSecret => Tells(rest, op) && MayFollow(rest, op)
      case CreateVolume => Tells(rest, op) && MayFollow(rest, op)
      case _ => Tells(rest, op)
  }

  /** Nothing is left to do but to store that the operation has failed. */
  ghost predicate SavesFailure(todo: Todo) {
    todo.Do? ==> todo.rest.Done? && todo.write.Save? && todo.write.record.op.Some? && todo.write.record.op.value.error
  }

  ghost predicate Finishes(s: State, w: Write) {
    w.Save? && w.record.op.None?
  }

  /** A seed is only declared over when the volume holds its backup. */
  ghost predicate SeedDone(s: State) {
    var op := OpOf(s);
    Busy(op) && op.value.step.Seeding? && s.todo.Do? && (s.todo.write.Upgrade? || Finishes(s, s.todo.write)) ==>
      s.holds == Some(op.value.backup)
  }

  /** A snapshot step is only left without a failure when there is a snapshot. */
  ghost predicate SnapshotDone(s: State) {
    var op := OpOf(s);
    Busy(op) && op.value.step.Snapshotting? && s.todo.Do? && Leaves(op, s.todo.write) ==>
      op.value.snap.Some? && op.value.snap.value in s.taken
  }

  ghost predicate Leaves(op: Option<Op>, w: Write) {
    || w.Prune? || w.Upgrade?
    || (w.Save? && w.record.op != op
        && if w.record.op.Some? then !w.record.op.value.error else !w.record.spec.message.SnapshotFailed?)
  }

  ghost predicate ContentInv(s: State) {
    SeedTold(s) && Tells(s.todo, OpOf(s)) && SeedDone(s) && SnapshotDone(s)
  }

  // ------------------------------------------------------------------ plans

  lemma TellsSave(r: Record, op: Option<Op>)
    requires Busy(r.op) ==> !r.op.value.step.Seeding?
    ensures Tells(Write1(Save(r)), op)
  {
  }

  lemma TellsInstall(r: Record, op: Option<Op>)
    requires Busy(r.op) && Busy(op) && op.value.step.Installing?
    ensures Tells(InstallTodo(r), op)
  {
    var rest := InstallTodo(r).rest.rest;
    TellsSave(r.(op := None), op);
    assert Tells(rest, op) && MayFollow(rest, op);
    assert Tells(InstallTodo(r).rest, op);
  }

  lemma AdvanceTells(c: Cluster, r: Record, keep: nat)
    requires Busy(r.op)
    ensures Tells(AdvanceTodo(c, r, keep), r.op)
  {
    var todo := AdvanceTodo(c, r, keep);
    match r.op.value.step
    case Snapshotting =>
      if todo.Do? && todo.write.Prune? { AfterTells(c, r); }
    case Draining =>
      if todo.Do? { assert Tells(todo.rest, todo.write.record.op); }
    case Seeding =>
      if todo.Do? && todo.write.Upgrade? { TellsSave(todo.rest.write.record, r.op); }
    case Installing => TellsInstall(r, r.op);
    case TearingDown =>
      assert Tells(Write1(RemoveRecord), r.op);
      assert Tells(Do(DeleteVolume, Do(DeleteSecret, Write1(RemoveRecord))), r.op);
  }

  lemma AfterTells(c: Cluster, r: Record)
    requires Busy(r.op) && r.op.value.step.Snapshotting?
    ensures Tells(AfterSnapshot(c, r), r.op)
  {
    var todo := AfterSnapshot(c, r);
    if todo.Do? && todo.write.Upgrade? { TellsSave(todo.rest.write.record, r.op); }
  }

  lemma PlanTells(c: Cluster, call: Call, keep: nat)
    requires Plan(c, call, keep).Some?
    ensures Tells(Plan(c, call, keep).value, if c.record.Some? then c.record.value.op else None)
  {
    var todo := Plan(c, call, keep).value;
    if call.CallReconcile? {
      AdvanceTells(c, c.record.value, keep);
      hide AdvanceTodo;
    } else if call.CallLaunch? {
      assert Tells(todo.rest.rest.rest, todo.write.record.op);
      assert Tells(todo.rest.rest, todo.write.record.op);
    } else if call.CallCreate? {
      TellsInstall(todo.write.record, todo.write.record.op);
    } else {
      assert todo.rest.Do? ==> Tells(todo.rest, todo.write.record.op);
    }
  }

  // ------------------------------------------------------------------ steps

  lemma ReconcileContent(keep: nat, atomic: bool, s: State, r: Record, s': State)
    requires GoodInv(keep, atomic, s) && ContentInv(s) && s.c.record == Some(r) && Busy(r.op) && s.todo.Done?
    requires s' == s.(todo := AdvanceTodo(s.c, r, keep))
    ensures SeedDone(s') && SnapshotDone(s')
  {
    var op := r.op.value;
    assert StepInv(atomic, s, op);
    if op.step.Seeding? && op.job.Some? && op.job.value in s.c.jobs {
      assert SeedingJob(r.op, op.job.value);
    }
    if op.step.Snapshotting? && JobStatus(s.c, op) == Some(Succeeded) { TakenIsKnown(s, op); }
    hide SeedInv, ReleaseInv, SnapInv, TodoInv, AfterSnapshot, Tells;
  }

  lemma BeginContent(keep: nat, atomic: bool, s: State, call: Call, s': State)
    requires GoodInv(keep, atomic, s) && ContentInv(s) && Begins(keep, s, call, s')
    ensures ContentInv(s')
  {
    PlanTells(s.c, call, keep);
    assert SeedTold(s');
    if Busy(OpOf(s)) && call.CallReconcile? {
      ReconcileContent(keep, atomic, s, s.c.record.value, s'.(requestedAt := s.requestedAt));
      hide AdvanceTodo;
    }
    hide GoodInv, SeedTold, Tells;
  }

  /** No seed Job can end while the end of a seed is still to be stored. */
  lemma NothingSeeds(keep: nat, atomic: bool, s: State)
    requires GoodInv(keep, atomic, s) && Busy(OpOf(s)) && OpOf(s).value.step.Seeding? && s.todo.Do?
    requires s.todo.write.Upgrade? || Finishes(s, s.todo.write)
    ensures NoSeedActive(s.c)
  {
    if s.todo.write.Upgrade? {
      assert UpgradeInv(atomic, s, s.todo.write.replicas, s.todo.write.onFail, s.todo.rest);
    } else {
      assert SaveInv(keep, atomic, s) && SeedInv(Saved(s));
      assert forall j | SeedActive(s.c.jobs, j) :: SeedActive(Saved(s).c.jobs, j);
    }
  }

  lemma JobEndContent(keep: nat, atomic: bool, s: State, j: JobName, ok: bool, s': State)
    requires GoodInv(keep, atomic, s) && ContentInv(s) && JobEnded(s, j, ok, s')
    ensures ContentInv(s')
  {
    assert j.SeedJob? ==> SeedActive(s.c.jobs, j);
    if Busy(OpOf(s)) && OpOf(s).value.step.Seeding? && s.todo.Do?
       && (s.todo.write.Upgrade? || Finishes(s, s.todo.write)) {
      NothingSeeds(keep, atomic, s);
    }
    assert SeedInv(s);
    hide TodoInv, ClusterInv, ReleaseInv, SnapInv, StepInv, Tells;
  }

  lemma OtherMoveContent(keep: nat, atomic: bool, s: State, e: Event, s': State)
    requires Environment(e) && !e.JobEnds? && GoodInv(keep, atomic, s) && ContentInv(s) && Next(keep, atomic, s, e, s')
    ensures ContentInv(s')
  {
    assert ReleaseInv(s);
    hide TodoInv, ClusterInv, SeedInv, SnapInv, StepInv, Tells, PodStarted;
  }

  lemma SaveContent(keep: nat, atomic: bool, s: State, s': State)
    requires GoodInv(keep, atomic, s) && ContentInv(s) && s.todo.Do? && s.todo.write.Save? && Performed(s, s', true)
    requires atomic || !Forgotten(s')
    ensures ContentInv(s')
  {
    assert s' == Saved(s) && SaveInv(keep, atomic, s) && TodoInv(keep, atomic, s');
    var op := OpOf(s');
    forall j | SeedingJob(op, j) && op != OpOf(s)
      ensures j !in s.c.jobs
    {
      NewNameIsFree(keep, atomic, s', j);
    }
    hide ClusterInv, OpInv, TodoInv;
  }

  lemma NewNameIsFree(keep: nat, atomic: bool, s: State, j: JobName)
    requires TodoInv(keep, atomic, s) && JobFollows(s.todo, j)
    ensures j !in s.c.jobs
  {
    if s.todo.write.CreateSecret? {
      assert TodoInv(keep, atomic, Skipped(s)) && TodoInv(keep, atomic, Made(Skipped(s)));
      assert Made(Skipped(s)).c.jobs == s.c.jobs;
    }
  }

  lemma JobContent(s: State, s': State)
    requires ContentInv(s) && s.todo.Do? && s.todo.write.CreateJob? && Performed(s, s', true)
    ensures ContentInv(s')
  {
    assert OpOf(s') == OpOf(s);
  }

  lemma InstallContent(s: State, helmOk: bool, s': State)
    requires ContentInv(s) && s.todo.Do? && s.todo.write.Upgrade? && Performed(s, s', helmOk)
    ensures ContentInv(s')
  {
    assert OpOf(s') == OpOf(s);
  }

  lemma MakingContent(keep: nat, atomic: bool, s: State, helmOk: bool, s': State)
    requires GoodInv(keep, atomic, s) && ContentInv(s) && s.todo.Do? && Performed(s, s', helmOk)
    requires var w := s.todo.write; w.CreateSecret? || w.CreateVolume? || w.Prune?
    ensures ContentInv(s')
  {
    assert s.todo.write.Prune? ==> PruneInv(keep, s, s.todo.write.keep, s.todo.rest);
    assert OpOf(s') == OpOf(s);
    hide ClusterInv, OpInv, TodoInv;
  }

  lemma TeardownContent(keep: nat, atomic: bool, s: State, helmOk: bool, s': State)
    requires GoodInv(keep, atomic, s) && ContentInv(s) && s.todo.Do? && Performed(s, s', helmOk)
    requires s.todo.write.Uninstall? || TearsDown(s.todo.write)
    ensures ContentInv(s')
  {
    assert if s.todo.write.Uninstall? then UninstallInv(s, s.todo.write.onFail, s.todo.rest) else TeardownInv(s);
    hide ClusterInv, OpInv, TodoInv;
    assert OpOf(s') == OpOf(s) || OpOf(s').None?;
    assert OpOf(s).Some? && OpOf(s).value.step.TearingDown?;
    assert SeedTold(s');
    if s.todo.write.Uninstall? && !helmOk {
      var r := s'.todo.write.record;
      assert s'.todo == Write1(Save(r)) && !Busy(r.op);
      TellsSave(r, OpOf(s'));
    } else {
      TeardownTells(s'.todo, OpOf(s'));
    }
    hide UninstallInv, TeardownInv, Performed, SeedTold;
  }

  lemma TeardownTells(todo: Todo, op: Option<Op>)
    requires
      || todo == Do(DeleteJobs, Do(DeleteVolume, Do(DeleteSecret, Write1(RemoveRecord))))
      || todo == Do(DeleteVolume, Do(DeleteSecret, Write1(RemoveRecord)))
      || todo == Do(DeleteSecret, Write1(RemoveRecord)) || todo == Write1(RemoveRecord) || todo == Done
    ensures Tells(todo, op)
  {
    assert Tells(Write1(RemoveRecord), op);
    assert Tells(Do(DeleteSecret, Write1(RemoveRecord)), op);
    assert Tells(Do(DeleteVolume, Do(DeleteSecret, Write1(RemoveRecord))), op);
  }

  lemma PerformContent(keep: nat, atomic: bool, s: State, helmOk: bool, s': State)
    requires GoodInv(keep, atomic, s) && ContentInv(s) && s.todo.Do? && Performed(s, s', helmOk)
    requires atomic || !Forgotten(s')
    ensures ContentInv(s')
  {
    hide GoodInv, ContentInv, Forgotten;
    match s.todo.write
    case Save(_) => assert Performed(s, s', true); SaveContent(keep, atomic, s, s');
    case CreateJob(_, _, _) => assert Performed(s, s', true); JobContent(s, s');
    case Upgrade(_, _, _) => InstallContent(s, helmOk, s');
    case CreateSecret => MakingContent(keep, atomic, s, helmOk, s');
    case CreateVolume => MakingContent(keep, atomic, s, helmOk, s');
    case Prune(_) => MakingContent(keep, atomic, s, helmOk, s');
    case _ => TeardownContent(keep, atomic, s, helmOk, s');
  }

  lemma NextContent(keep: nat, atomic: bool, s: State, e: Event, s': State)
    requires GoodInv(keep, atomic, s) && ContentInv(s) && Next(keep, atomic, s, e, s') && (atomic || !Forgotten(s'))
    ensures ContentInv(s')
  {
    hide GoodInv, Forgotten, Begins, Performed, JobEnded;
    match e
    case Begin(call) => hide ContentInv; BeginContent(keep, atomic, s, call, s');
    case Perform(helmOk) => hide ContentInv; PerformContent(keep, atomic, s, helmOk, s');
    case JobEnds(j, ok) => hide ContentInv; JobEndContent(keep, atomic, s, j, ok, s');
    case Crash => assert OpOf(s') == OpOf(s);
    case LoseRecord => assert OpOf(s') == None;
    case _ => hide ContentInv; OtherMoveContent(keep, atomic, s, e, s');
  }

  lemma {:induction false} ReachableContent(keep: nat, atomic: bool, states: seq<State>, events: seq<Event>, i: nat)
    requires IsRun(keep, atomic, states, events) && i < |states| && (atomic || NeverForgotten(states, i + 1))
    ensures ContentInv(states[i])
  {
    if i > 0 {
      ReachableContent(keep, atomic, states, events, i - 1);
      ReachableInv(keep, atomic, states, events, i - 1);
      AtomicIsGood(keep, atomic, states[i - 1]);
      hide GoodInv, Inv, ContentInv;
      NextContent(keep, atomic, states[i - 1], events[i - 1], states[i]);
    }
  }
}
