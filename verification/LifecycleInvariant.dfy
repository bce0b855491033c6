/** What every step of a run keeps: what is true of the cluster (its stamps, its
    pods, the volume and the release), of the operation that the record names, and
    of each write that the current call still owes.  It is kept when the cluster
    moves by itself.  Where that is allowed an installed server may come to be
    forgotten, and from then on nothing is claimed. */
module LifecycleInvariant {
  import opened Wrappers
  import opened Lifecycle
  import opened LifecycleRuns

  // ---------------------------------------------------------------- the parts

  ghost predicate SeedActive(jobs: map<JobName, JobState>, j: JobName) {
    j.SeedJob? && j in jobs && jobs[j].Active?
  }

  ghost predicate NoSeedActive(c: Cluster) {
    forall j :: !SeedActive(c.jobs, j)
  }

  /** The operation carries a snapshot taken since the destructive request. */
  ghost predicate Evidence(s: State, op: Op) {
    op.snap.Some? && op.snap.value in s.taken && s.requestedAt <= op.snap.value
  }

  ghost predicate Quiet(c: Cluster) {
    NoLivePod(c) && Replicas(c) == 0
  }

  /** The server is installed, but the record still says it is to be. */
  ghost predicate Uncredited(c: Cluster) {
    && c.record.Some? && Busy(c.record.value.op) && Replicas(c) > 0
    && (c.record.value.op.value.step.Seeding? || c.record.value.op.value.step.Installing?)
  }

  /** No call is under way, the server is installed, and nothing is left that
      shows it to the service: the record names a seed whose Job is gone, or a seed
      or an install that failed. */
  ghost predicate Forgotten(s: State) {
    && s.todo.Done? && s.c.record.Some? && s.c.record.value.op.Some? && Replicas(s.c) > 0
    && var op := s.c.record.value.op.value;
       || (op.step.Seeding? && !op.error && op.job.Some? && op.job.value.SeedJob? && op.job.value !in s.c.jobs)
       || ((op.step.Seeding? || op.step.Installing?) && op.error)
  }

  /** Installed and not yet recorded: where `atomic`, only while the record is about
      to be written. */
  ghost predicate Pending(atomic: bool, s: State) {
    Uncredited(s.c) && (atomic ==> InstallUnrecorded(s))
  }

  // -------------------------------------------------------------- the cluster

  ghost predicate PodsInv(s: State) {
    var c := s.c;
    && (forall p, q | LivePod(c.pods, p) && LivePod(c.pods, q) :: p == q)
    && (forall p | LivePod(c.pods, p) :: c.pods[p].deleting ==> Replicas(c) == 0)
    && (c.volume.Absent? ==> NoLivePod(c) && !s.played)
  }

  ghost predicate RecordInv(s: State) {
    var c := s.c;
    && (c.release.Some? ==> c.record.Some? || s.lost) && Replicas(c) <= 1
    && (s.lost ==> c.record.None? && !c.volume.Terminating?)
    && (c.record.None? && !s.lost ==> c.jobs == map[] && !c.volume.Bound?)
  }

  ghost predicate StampsInv(s: State) {
    var c := s.c;
    && (forall j | j in c.jobs :: j.stamp <= c.now && (!c.jobs[j].Active? ==> j.stamp < c.now))
    && (forall j | j in c.jobs && j.SnapshotJob? && c.jobs[j].Succeeded? :: j.stamp in s.taken)
    && c.zips <= s.taken
    && (forall t | t in s.taken :: t < c.now)
    && s.requestedAt <= c.now
  }

  ghost predicate ClusterInv(s: State) {
    PodsInv(s) && RecordInv(s) && StampsInv(s)
  }

  // ------------------------------------------------- the pending operation

  /** An active seed Job is the one the operation names, and nothing else is on
      the volume. */
  ghost predicate SeedInv(s: State) {
    var op := if s.c.record.Some? then s.c.record.value.op else None;
    forall j | SeedActive(s.c.jobs, j) ::
      op.Some? && op.value.step.Seeding? && !op.value.error && op.value.job == Some(j) && Quiet(s.c) && !s.played
  }

  /** What has no release has no server; a volume only goes in a teardown. */
  ghost predicate ReleaseInv(s: State) {
    var c := s.c;
    var op := if c.record.Some? then c.record.value.op else None;
    && (c.record.Some? && c.release.None? && !(op.Some? && op.value.step.TearingDown?) ==> NoLivePod(c) && !s.played)
    && (c.record.Some? && c.volume.Terminating?
        ==> op.Some? && op.value.step.TearingDown? && !op.value.error && c.release.None?)
  }

  ghost predicate SnapInv(keep: nat, s: State, op: Op) {
    op.snap.Some? ==>
      && op.snap.value <= s.c.now
      && (forall t | t in s.taken :: t <= op.snap.value)
      && (keep >= 1 && op.snap.value in s.taken ==> op.snap.value in s.c.zips + s.discarded)
      && (forall j | j in s.c.jobs && j.SnapshotJob? :: j.stamp <= op.snap.value)
  }

  ghost predicate SnapshottingInv(s: State, op: Op) {
    && op.job.Some? && op.job.value.SnapshotJob? && op.snap == Some(op.job.value.stamp)
    && (!op.error && (op.kind.Restore? || op.kind.Delete?) ==> s.requestedAt <= op.snap.value)
    && (op.kind.TakeSnapshot? || op.kind.Restore? || op.kind.Delete?)
  }

  ghost predicate SeedingInv(atomic: bool, s: State, op: Op) {
    && op.job.Some? && op.job.value.SeedJob? && op.job.value.stamp <= s.c.now
    && (Pending(atomic, s) ||
        (Quiet(s.c) && (s.played ==> !op.error && op.job.value !in s.c.jobs && Evidence(s, op))))
  }

  ghost predicate StepInv(atomic: bool, s: State, op: Op) {
    && (op.error && !op.step.Seeding? && !op.step.Installing? ==> s.c.release.Some?)
    && match op.step
       case Snapshotting => SnapshottingInv(s, op)
       case Draining => !op.error && Replicas(s.c) == 0 && (s.played ==> Evidence(s, op))
       case Seeding => SeedingInv(atomic, s, op)
       case Installing => Pending(atomic, s) || s.c.release.None?
       case TearingDown => !op.error ==> Evidence(s, op) || (Replicas(s.c) == 0 && !s.played)
  }

  /** What the pending operation says about the cluster. */
  ghost predicate OpInv(keep: nat, atomic: bool, s: State) {
    && SeedInv(s) && ReleaseInv(s)
    && (s.c.record.Some? && s.c.record.value.op.Some? ==>
          SnapInv(keep, s, s.c.record.value.op.value) && StepInv(atomic, s, s.c.record.value.op.value))
  }

  // ------------------------------------------------------- the owed writes

  ghost predicate IsPending(s: State, step: Step, job: Option<JobName>) {
    && s.c.record.Some? && s.c.record.value.op.Some?
    && var op := s.c.record.value.op.value;
       op.step == step && !op.error && (job.Some? ==> op.job == job)
  }

  /** An install that ends a step: afterwards `r` is stored, or the step marked as
      failed. */
  ghost predicate StepUpgradeInv(atomic: bool, s: State, n: nat, onFail: Todo, r: Record)
    requires s.c.record.Some?
  {
    var op := s.c.record.value.op;
    && op.Some? && !op.value.error
    && onFail.Do? && onFail.rest.Done? && onFail.write.Save?
    && onFail.write.record.op == Some(op.value.(error := true))
    && match op.value.step
       case Snapshotting =>
         && n == 0 && s.c.release.Some?
         && (r.op.None? || (r.op == Some(op.value.(step := Draining)) && Evidence(s, op.value)))
       case Seeding => r.op.None? && n == 1 && ((Quiet(s.c) && !s.played) || (!atomic && Uncredited(s.c)))
       case Installing => r.op.None? && n == 1 && (s.c.release.None? || (!atomic && Uncredited(s.c)))
       case _ => false
  }

  ghost predicate UpgradeInv(atomic: bool, s: State, n: nat, onFail: Todo, rest: Todo) {
    && s.c.record.Some? && n <= 1
    && NoSeedActive(s.c)
    && (n == 1 ==> NoLivePod(s.c) || Replicas(s.c) > 0)
    && match rest
       case Done =>
         var op := s.c.record.value.op;
         onFail.Done? && (op.None? || (s.c.release.Some? && n == Replicas(s.c)))
       case Do(Save(r), Done) => StepUpgradeInv(atomic, s, n, onFail, r)
       case _ => false
  }

  ghost predicate JobInv(s: State, j: JobName, onConflict: Option<Todo>, rest: Todo) {
    && rest.Done? && (onConflict.Some? ==> j !in s.c.jobs) && j.stamp <= s.c.now
    && ((IsPending(s, Seeding, Some(j)) && Quiet(s.c)) || IsPending(s, Snapshotting, Some(j)))
  }

  ghost predicate PruneInv(keep: nat, s: State, k: nat, rest: Todo) {
    && k == keep && IsPending(s, Snapshotting, None)
    && rest.Do? && (rest.write.Upgrade? || (rest.write.Save? && rest.rest.Done?))
    && (rest.write.Save? && rest.write.record.op.Some?
        ==> rest.write.record.op.value.snap == s.c.record.value.op.value.snap)
  }

  ghost predicate UninstallInv(s: State, onFail: Todo, rest: Todo) {
    && IsPending(s, TearingDown, None)
    && onFail.Do? && onFail.rest.Done? && onFail.write.Save?
    && onFail.write.record.op == Some(s.c.record.value.op.value.(error := true))
    && rest == Do(DeleteJobs, Do(DeleteVolume, Do(DeleteSecret, Write1(RemoveRecord))))
  }

  /** The rest of a teardown, once the release is gone. */
  ghost predicate TeardownInv(s: State) {
    && IsPending(s, TearingDown, None) && s.c.release.None?
    && (s.todo == Do(DeleteJobs, Do(DeleteVolume, Do(DeleteSecret, Write1(RemoveRecord))))
        || (s.c.jobs == map[] &&
            (s.todo == Do(DeleteVolume, Do(DeleteSecret, Write1(RemoveRecord)))
             || (!s.c.volume.Bound? &&
                 (s.todo == Do(DeleteSecret, Write1(RemoveRecord)) || s.todo == Write1(RemoveRecord))))))
  }

  /** The state in which the first owed write, a Save, has been performed. */
  ghost function Saved(s: State): State
    requires s.todo.Do? && s.todo.write.Save?
  {
    s.(c := s.c.(record := Some(s.todo.write.record)), todo := s.todo.rest, lost := false)
  }

  ghost function Skipped(s: State): State
    requires s.todo.Do?
  {
    s.(todo := s.todo.rest)
  }

  ghost function Made(s: State): State
    requires s.todo.Do?
  {
    s.(c := s.c.(volume := Bound), todo := s.todo.rest)
  }

  /** The owed writes are safe to perform, whatever the cluster does meanwhile. */
  ghost predicate TodoInv(keep: nat, atomic: bool, s: State)
    decreases s.todo
  {
    match s.todo
    case Done => true
    case Do(w, rest) =>
      match w
      case Save(_) => SaveInv(keep, atomic, s)
      case CreateSecret => rest.Do? && rest.write.CreateVolume? && TodoInv(keep, atomic, Skipped(s))
      case CreateVolume =>
        && rest.Do? && (rest.write.CreateJob? || rest.write.Upgrade?)
        && s.c.record.Some? && !s.c.volume.Terminating?
        && TodoInv(keep, atomic, Made(s))
      case CreateJob(j, _, onConflict) => JobInv(s, j, onConflict, rest)
      case Upgrade(n, spec, onFail) => UpgradeInv(atomic, s, n, onFail, rest)
      case Prune(k) => PruneInv(keep, s, k, rest) && TodoInv(keep, atomic, Skipped(s))
      case Uninstall(onFail) => UninstallInv(s, onFail, rest)
      case _ => TeardownInv(s)
  }

  /** A record that is stored is true, or may be forgotten where that is allowed. */
  ghost predicate SaveInv(keep: nat, atomic: bool, s: State)
    requires s.todo.Do? && s.todo.write.Save?
    decreases s.todo, 0
  {
    (!atomic && Forgotten(Saved(s))) || (OpInv(keep, atomic, Saved(s)) && TodoInv(keep, atomic, Saved(s)))
  }

  ghost predicate Inv(keep: nat, atomic: bool, s: State) {
    ClusterInv(s) && ((!atomic && Forgotten(s)) || (OpInv(keep, atomic, s) && TodoInv(keep, atomic, s)))
  }

  /** The invariant where nothing is forgotten. */
  ghost predicate GoodInv(keep: nat, atomic: bool, s: State) {
    ClusterInv(s) && OpInv(keep, atomic, s) && TodoInv(keep, atomic, s)
  }

  // ------------------------------------------------ the cluster moves by itself

  ghost predicate Environment(e: Event) {
    !e.Begin? && !e.Perform? && !e.Crash? && !e.LoseRecord?
  }

  ghost predicate JobsMoved(c: Cluster, c': Cluster) {
    forall j | j in c'.jobs :: j in c.jobs && (c'.jobs[j].Active? ==> c.jobs[j].Active?)
  }

  ghost predicate PodsMoved(s: State, s': State) {
    (Quiet(s.c) ==> NoLivePod(s'.c)) && (s'.played ==> s.played || Replicas(s.c) > 0)
  }

  ghost predicate ZipsMoved(s: State, s': State) {
    && s.taken <= s'.taken && s.discarded <= s'.discarded
    && (forall t | t in s'.taken :: t in s.taken || (SnapshotJob(t) in s.c.jobs && t in s'.c.zips))
    && forall t | t in s.c.zips :: t in s'.c.zips || t in s'.discarded
  }

  /** What the rest of a run can rely on when the cluster moves. */
  ghost predicate MovedOn(s: State, s': State) {
    && s'.todo == s.todo && s'.requestedAt == s.requestedAt && s'.lost == s.lost
    && s'.c.record == s.c.record && s'.c.release == s.c.release && s.c.now <= s'.c.now
    && (s'.c.volume == s.c.volume || (s.c.volume.Terminating? && s'.c.volume.Absent?))
    && JobsMoved(s.c, s'.c) && PodsMoved(s, s') && ZipsMoved(s, s')
  }

  lemma TickMoves(s: State, s': State)
    requires s' == s.(c := s.c.(now := s.c.now + 1)) && ClusterInv(s)
    ensures ClusterInv(s') && MovedOn(s, s')
  {
  }

  lemma JobEndMoves(s: State, j: JobName, ok: bool, s': State)
    requires JobEnded(s, j, ok, s') && ClusterInv(s)
    ensures ClusterInv(s') && MovedOn(s, s')
  {
    assert s'.c.pods == s.c.pods;
    assert j.SnapshotJob? ==> j == SnapshotJob(j.stamp);
    hide PodsInv;
    assert PodsInv(s') by { SamePods(s, s'); }
  }

  lemma SamePods(s: State, s': State)
    requires PodsInv(s) && s'.c.pods == s.c.pods && s'.c.volume == s.c.volume && s'.c.release == s.c.release
    requires s'.played == s.played
    ensures PodsInv(s')
  {
  }

  lemma JobExpiryMoves(s: State, j: JobName, s': State)
    requires JobExpired(s, j, s') && ClusterInv(s)
    ensures ClusterInv(s') && MovedOn(s, s')
  {
    SamePods(s, s');
    hide PodsInv;
  }

  lemma PodStartMoves(s: State, p: nat, s': State)
    requires PodStarted(s, p, s') && ClusterInv(s)
    ensures ClusterInv(s') && MovedOn(s, s')
  {
    assert forall q | LivePod(s.c.pods, q) :: false;
    assert forall q | LivePod(s'.c.pods, q) :: q == p;
  }

  /** A pod that is told to go, ends or is gone leaves no new one. */
  ghost predicate FewerPods(s: State, s': State) {
    && s' == s.(c := s.c.(pods := s'.c.pods))
    && forall p | LivePod(s'.c.pods, p) :: LivePod(s.c.pods, p) && (s'.c.pods[p] == s.c.pods[p] || Replicas(s.c) == 0)
  }

  lemma FewerPodsMove(s: State, s': State)
    requires FewerPods(s, s') && ClusterInv(s)
    ensures ClusterInv(s') && MovedOn(s, s')
  {
    hide RecordInv, StampsInv;
    assert NoLivePod(s.c) ==> NoLivePod(s'.c) by {
      assert forall p | p in s'.c.pods && !s'.c.pods[p].finished :: LivePod(s'.c.pods, p);
    }
    assert RecordInv(s') by { OtherPods(s, s'); }
    assert StampsInv(s') by { OtherPods(s, s'); }
  }

  lemma OtherPods(s: State, s': State)
    requires s' == s.(c := s.c.(pods := s'.c.pods)) && RecordInv(s) && StampsInv(s)
    ensures RecordInv(s') && StampsInv(s')
  {
  }

  lemma VolumeMoves(s: State, s': State)
    requires VolumeWent(s, s') && ClusterInv(s)
    ensures ClusterInv(s') && MovedOn(s, s')
  {
  }

  lemma DiscardMoves(s: State, t: Stamp, s': State)
    requires Discarded(s, t, s') && ClusterInv(s)
    ensures ClusterInv(s') && MovedOn(s, s')
  {
    SamePods(s, s');
    hide PodsInv;
  }

  lemma EnvironmentMoves(keep: nat, atomic: bool, s: State, e: Event, s': State)
    requires Environment(e) && Next(keep, atomic, s, e, s') && ClusterInv(s)
    ensures ClusterInv(s') && MovedOn(s, s')
  {
    hide ClusterInv, MovedOn, JobEnded, JobExpired, PodStarted, VolumeWent, Discarded, FewerPods;
    match e
    case Tick => TickMoves(s, s');
    case JobEnds(j, ok) => JobEndMoves(s, j, ok, s');
    case JobExpires(j) => JobExpiryMoves(s, j, s');
    case PodStarts(p) => PodStartMoves(s, p, s');
    case PodTerminates(p) => PodEventIsFewer(s, p, s'); FewerPodsMove(s, s');
    case PodFinishes(p) => PodEventIsFewer(s, p, s'); FewerPodsMove(s, s');
    case PodGoes(p) => PodEventIsFewer(s, p, s'); FewerPodsMove(s, s');
    case VolumeGoes => VolumeMoves(s, s');
    case Discard(t) => DiscardMoves(s, t, s');
  }

  lemma PodEventIsFewer(s: State, p: nat, s': State)
    requires PodTerminated(s, p, s') || PodFinished(s, p, s') || PodWent(s, p, s')
    ensures FewerPods(s, s')
  {
  }

  lemma MovedKeepsSnap(keep: nat, s: State, s': State, op: Op)
    requires MovedOn(s, s') && SnapInv(keep, s, op)
    ensures SnapInv(keep, s', op)
  {
  }

  lemma MovedKeepsStep(atomic: bool, s: State, s': State, op: Op)
    requires MovedOn(s, s') && StepInv(atomic, s, op)
    ensures StepInv(atomic, s', op)
  {
  }

  lemma MovedKeepsSeed(s: State, s': State)
    requires MovedOn(s, s') && SeedInv(s)
    ensures SeedInv(s')
  {
    assert forall j | SeedActive(s'.c.jobs, j) :: SeedActive(s.c.jobs, j);
  }

  lemma MovedKeepsRelease(s: State, s': State)
    requires MovedOn(s, s') && ReleaseInv(s)
    ensures ReleaseInv(s')
  {
  }

  lemma MovedKeepsOp(keep: nat, atomic: bool, s: State, s': State)
    requires MovedOn(s, s') && OpInv(keep, atomic, s)
    ensures OpInv(keep, atomic, s')
  {
    MovedKeepsSeed(s, s');
    MovedKeepsRelease(s, s');
    if s.c.record.Some? && s.c.record.value.op.Some? {
      MovedKeepsSnap(keep, s, s', s.c.record.value.op.value);
      MovedKeepsStep(atomic, s, s', s.c.record.value.op.value);
    }
    hide SeedInv, ReleaseInv, SnapInv, StepInv, JobsMoved, PodsMoved, ZipsMoved;
  }

  lemma MovedKeepsUpgrade(atomic: bool, s: State, s': State, n: nat, onFail: Todo, rest: Todo)
    requires MovedOn(s, s') && UpgradeInv(atomic, s, n, onFail, rest)
    ensures UpgradeInv(atomic, s', n, onFail, rest)
  {
    assert forall j | SeedActive(s'.c.jobs, j) :: SeedActive(s.c.jobs, j);
    assert Quiet(s.c) ==> Quiet(s'.c);
  }

  lemma {:induction false} MovedKeepsTodo(keep: nat, atomic: bool, s: State, s': State)
    requires MovedOn(s, s') && TodoInv(keep, atomic, s)
    ensures TodoInv(keep, atomic, s')
    decreases s.todo, 1
  {
    if s.todo.Done? {
      MovedKeepsRest(keep, atomic, s, s');
    } else {
      hide TodoInv, MovedOn;
      var w := s.todo.write;
      if w.Save? {
        MovedKeepsSave(keep, atomic, s, s');
      } else if w.CreateSecret? || w.Prune? {
        MovedKeepsSkip(keep, atomic, s, s');
      } else if w.CreateVolume? {
        MovedKeepsVolume(keep, atomic, s, s');
      } else {
        MovedKeepsRest(keep, atomic, s, s');
      }
    }
  }

  lemma {:induction false} MovedKeepsSkip(keep: nat, atomic: bool, s: State, s': State)
    requires MovedOn(s, s') && TodoInv(keep, atomic, s) && s.todo.Do?
    requires s.todo.write.CreateSecret? || s.todo.write.Prune?
    ensures TodoInv(keep, atomic, s')
    decreases s.todo, 0
  {
    assert MovedOn(Skipped(s), Skipped(s'));
    hide MovedOn;
    assert s'.todo == s.todo && s'.c.record == s.c.record by { SameTodo(s, s'); }
    MovedKeepsTodo(keep, atomic, Skipped(s), Skipped(s'));
  }

  lemma SameTodo(s: State, s': State)
    requires MovedOn(s, s')
    ensures s'.todo == s.todo && s'.c.record == s.c.record
  {
  }

  lemma {:induction false} MovedKeepsVolume(keep: nat, atomic: bool, s: State, s': State)
    requires MovedOn(s, s') && TodoInv(keep, atomic, s) && s.todo.Do? && s.todo.write.CreateVolume?
    ensures TodoInv(keep, atomic, s')
    decreases s.todo, 0
  {
    assert MovedOn(Made(s), Made(s'));
    MovedKeepsTodo(keep, atomic, Made(s), Made(s'));
  }

  lemma MovedKeepsRest(keep: nat, atomic: bool, s: State, s': State)
    requires MovedOn(s, s') && TodoInv(keep, atomic, s)
    requires s.todo.Do? ==>
      var w := s.todo.write; !w.Save? && !w.CreateSecret? && !w.Prune? && !w.CreateVolume?
    ensures TodoInv(keep, atomic, s')
  {
    if s.todo.Do? && s.todo.write.Upgrade? {
      MovedKeepsUpgrade(atomic, s, s', s.todo.write.replicas, s.todo.write.onFail, s.todo.rest);
      hide UpgradeInv;
    }
  }

  lemma {:induction false} MovedKeepsSave(keep: nat, atomic: bool, s: State, s': State)
    requires MovedOn(s, s') && TodoInv(keep, atomic, s) && s.todo.Do? && s.todo.write.Save?
    ensures TodoInv(keep, atomic, s')
    decreases s.todo, 0
  {
    var h, h' := Saved(s), Saved(s');
    assert MovedOn(h, h');
    if !atomic && Forgotten(h) {
      assert Forgotten(h');
    } else {
      MovedKeepsOp(keep, atomic, h, h');
      MovedKeepsTodo(keep, atomic, h, h');
    }
    hide OpInv, Forgotten, MovedOn;
  }

  lemma EnvironmentKeepsInv(keep: nat, atomic: bool, s: State, e: Event, s': State)
    requires Environment(e) && GoodInv(keep, atomic, s) && Next(keep, atomic, s, e, s')
    ensures GoodInv(keep, atomic, s')
  {
    hide ClusterInv, OpInv, TodoInv, Next, Environment;
    EnvironmentMoves(keep, atomic, s, e, s');
    MovedKeepsOp(keep, atomic, s, s');
    MovedKeepsTodo(keep, atomic, s, s');
  }
}
