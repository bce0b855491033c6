/** Where the guarantees end, by inputs and exact conditions. */
module LifecycleLimits {
  import opened Wrappers
  import opened Lifecycle
  import opened LifecycleRuns
  import opened LifecycleInvariant
  import opened LifecycleSteps
  import opened LifecycleBegins
  import opened LifecycleSafety
  import opened LifecycleProgress
  import opened LifecycleCalls

  ghost predicate Reaches(keep: nat, atomic: bool, s: State) {
    exists states, events ::
      IsRun(keep, atomic, states, events) && states[|states| - 1] == s
  }

  lemma ReachesInit(keep: nat, atomic: bool, s: State)
    requires Init(s)
    ensures Reaches(keep, atomic, s)
  {
    assert IsRun(keep, atomic, [s], []);
  }

  lemma ReachesNext(keep: nat, atomic: bool, s: State, e: Event, s': State)
    requires Reaches(keep, atomic, s) && Next(keep, atomic, s, e, s')
    ensures Reaches(keep, atomic, s')
  {
    var states, events :| IsRun(keep, atomic, states, events) && states[|states| - 1] == s;
    var states', events' := states + [s'], events + [e];
    forall i | 0 <= i < |events'|
      ensures Next(keep, atomic, states'[i], events'[i], states'[i + 1])
    {
      if i < |events| {
        assert Next(keep, atomic, states[i], events[i], states[i + 1]);
      }
    }
    assert IsRun(keep, atomic, states', events');
  }

  /** The state in which the first owed write has been performed. */
  ghost function Wrote(s: State): State
    requires s.todo.Do?
  {
    var w := s.todo.write;
    var wipes := w.CreateJob? && w.job.SeedJob? && w.job !in s.c.jobs;
    s.(c := Apply(s.c, w), todo := After(s.c, w, s.todo.rest, true),
       played := s.played && !wipes, lost := s.lost && !w.Save?)
  }

  /** ... the first `n`, and all of them. */
  ghost function Begun(s: State, n: nat): State
    decreases n
  {
    if n == 0 || s.todo.Done? then s else Begun(Wrote(s), n - 1)
  }

  ghost function Drained(s: State): State
    decreases s.todo
  {
    if s.todo.Done? then s else Drained(Wrote(s))
  }

  lemma ReachesWrote(keep: nat, atomic: bool, s: State)
    requires Reaches(keep, atomic, s) && s.todo.Do?
    ensures Reaches(keep, atomic, Wrote(s))
  {
    ReachesNext(keep, atomic, s, Perform(true), Wrote(s));
  }

  lemma {:induction false} ReachesBegun(keep: nat, atomic: bool, s: State, n: nat)
    requires Reaches(keep, atomic, s)
    ensures Reaches(keep, atomic, Begun(s, n))
    decreases n
  {
    hide Reaches, Wrote;
    if n > 0 && s.todo.Do? {
      ReachesWrote(keep, atomic, s);
      ReachesBegun(keep, atomic, Wrote(s), n - 1);
    }
  }

  lemma {:induction false} ReachesDrained(keep: nat, atomic: bool, s: State)
    requires Reaches(keep, atomic, s)
    ensures Reaches(keep, atomic, Drained(s))
    decreases s.todo
  {
    if s.todo.Do? {
      ReachesWrote(keep, atomic, s);
      ReachesDrained(keep, atomic, Wrote(s));
    }
  }

  const SEED := SeedJob(0)

  ghost function Blueprint(op: Option<Op>): Record {
    Record(Spec("archive/a.zip", "", "", Blank), op)
  }

  ghost function SeedOp(error: bool): Op {
    Op(Launch, Seeding, Some(SEED), None, "archive/a.zip", None, error)
  }

  ghost function Launched(): State {
    State(Cluster(1, Some(Blueprint(Some(SeedOp(false)))), None, map[SEED := Succeeded], map[], Bound, true, {},
                  map[SEED := "archive/a.zip"]),
          Done, false, 0, {}, {}, false, Some("archive/a.zip"))
  }

  /** A launch whose seed Job has succeeded. */
  lemma ReachesLaunched(keep: nat, atomic: bool)
    ensures Reaches(keep, atomic, Launched())
  {
    var c0 := Cluster(0, None, None, map[], map[], Absent, false, {}, map[]);
    var s0 := State(c0, Done, false, 0, {}, {}, false, None);
    ReachesInit(keep, atomic, s0);
    var call := CallLaunch("archive/a.zip", "", "");
    var s1 := s0.(todo := Plan(c0, call, keep).value);
    ReachesNext(keep, atomic, s0, Begin(call), s1);
    ReachesDrained(keep, atomic, s1);
    var c2 := c0.(record := Some(Blueprint(Some(SeedOp(false)))), secret := true, volume := Bound,
                  jobs := map[SEED := Active], told := map[SEED := "archive/a.zip"]);
    var s2 := s0.(c := c2);
    assert Drained(s1) == s2 by {
      var a := s1.(c := Apply(c0, s1.todo.write), todo := s1.todo.rest);
      var b := a.(c := Apply(a.c, a.todo.write), todo := a.todo.rest);
      var d := b.(c := Apply(b.c, b.todo.write), todo := b.todo.rest);
      assert Drained(s1) == Drained(a) == Drained(b) == Drained(d);
    }
    var s3 := s2.(c := c2.(now := 1));
    ReachesNext(keep, atomic, s2, Tick, s3);
    ReachesNext(keep, atomic, s3, JobEnds(SEED, true), Launched());
  }

  /** The server is installed and running, the record still says seeding, and
      the dashboard has just crashed. */
  ghost function Unrecorded(jobs: map<JobName, JobState>): State {
    var s := Launched();
    s.(c := s.c.(release := Some(Release(1, "archive/a.zip", "", "")), jobs := jobs,
                 pods := map[0 := Pod(false, false)]),
       played := true)
  }

  lemma ReachesUnrecorded(keep: nat)
    ensures Reaches(keep, false, Unrecorded(Launched().c.jobs))
  {
    var s := Launched();
    ReachesLaunched(keep, false);
    var s1 := s.(todo := Plan(s.c, CallReconcile, keep).value);
    ReachesNext(keep, false, s, Begin(CallReconcile), s1);
    var s2 := s1.(c := s.c.(release := Some(Release(1, "archive/a.zip", "", ""))), todo := s1.todo.rest);
    ReachesNext(keep, false, s1, Perform(true), s2);
    var s3 := s2.(todo := Done);
    ReachesNext(keep, false, s2, Crash, s3);
    ReachesNext(keep, false, s3, PodStarts(0), Unrecorded(s.c.jobs));
  }

  /** The finished seed Job expires, and the reconciler seeds again underneath
      the running server. */
  lemma SeedsUnderRunningServer(keep: nat)
    ensures exists s :: Reaches(keep, false, s) && !OneWriter(s)
  {
    var s := Unrecorded(Launched().c.jobs);
    ReachesUnrecorded(keep);
    var s1 := Unrecorded(map[]);
    assert s.c.jobs - {SEED} == map[] && Replicas(s1.c) > 0;
    var s2 := s1.(todo := Plan(s1.c, CallReconcile, keep).value);
    assert Begins(keep, s1, CallReconcile, s2) && s2.todo == Write1(CreateJob(SEED, "archive/a.zip", None));
    hide Reaches, Begins, Plan;
    ReachesNext(keep, false, s, JobExpires(SEED), s1);
    ReachesNext(keep, false, s1, Begin(CallReconcile), s2);
    ReachesWrote(keep, false, s2);
    assert SeedActive(Wrote(s2).c.jobs, SEED) && Replicas(Wrote(s2).c) > 0;
  }

  ghost function FailedSeed(): State {
    var s := Unrecorded(Launched().c.jobs);
    var spec := Spec("archive/a.zip", "", "", Blank);
    s.(c := s.c.(record := Some(Record(spec, Some(SeedOp(true))))))
  }

  /** The repeated install fails, and the launch counts as a failed seed. */
  lemma ReachesFailedSeed(keep: nat)
    ensures Reaches(keep, false, FailedSeed())
  {
    var s := Unrecorded(Launched().c.jobs);
    ReachesUnrecorded(keep);
    var s1 := s.(todo := Plan(s.c, CallReconcile, keep).value);
    ReachesNext(keep, false, s, Begin(CallReconcile), s1);
    var s2 := s1.(todo := s1.todo.write.onFail);
    ReachesNext(keep, false, s1, Perform(false), s2);
    ReachesNext(keep, false, s2, Perform(true), FailedSeed());
  }

  ghost function TearingDownUnsaved(release: Option<Release>, jobs: map<JobName, JobState>, todo: Todo): State {
    var s := FailedSeed();
    var op := Op(Delete, TearingDown, None, None, "", None, false);
    s.(c := s.c.(record := Some(s.c.record.value.(op := Some(op))), release := release, jobs := jobs),
       todo := todo, requestedAt := 1)
  }

  lemma ReachesTearingDown(keep: nat)
    ensures var s := FailedSeed();
      Reaches(keep, false, TearingDownUnsaved(s.c.release, s.c.jobs, Done))
  {
    var s := FailedSeed();
    ReachesFailedSeed(keep);
    var s1 := s.(todo := Plan(s.c, CallDelete, keep).value, requestedAt := 1);
    ReachesNext(keep, false, s, Begin(CallDelete), s1);
    ReachesNext(keep, false, s1, Perform(true), TearingDownUnsaved(s.c.release, s.c.jobs, Done));
  }

  ghost predicate LosesPlayedWorld(keep: nat, s: State, e: Event, s': State) {
    Next(keep, false, s, e, s') && Destroys(s, s') && s.played && !SafelyStored(keep, s)
  }

  /** The delete removes the release and the Jobs ... */
  lemma ReachesTornDown(keep: nat)
    ensures var rest := Do(DeleteVolume, Do(DeleteSecret, Write1(RemoveRecord)));
      Reaches(keep, false, TearingDownUnsaved(None, map[], rest))
  {
    var f := FailedSeed();
    ReachesTearingDown(keep);
    var s := TearingDownUnsaved(f.c.release, f.c.jobs, Done);
    var todo := Plan(s.c, CallReconcile, keep).value;
    var rest := Do(DeleteVolume, Do(DeleteSecret, Write1(RemoveRecord)));
    assert todo.rest == Do(DeleteJobs, rest) && todo.write.Uninstall?;
    var s1 := TearingDownUnsaved(f.c.release, f.c.jobs, todo);
    assert Begins(keep, s, CallReconcile, s1);
    hide Reaches, Begins, Plan;
    ReachesNext(keep, false, s, Begin(CallReconcile), s1);
    ReachesWrote(keep, false, s1);
    ReachesWrote(keep, false, Wrote(s1));
    assert Wrote(Wrote(s1)) == TearingDownUnsaved(None, map[], rest);
  }

  /** ... and then skips the snapshot of a world that has been played. */
  lemma DeletesPlayedWorld(keep: nat)
    ensures exists s, e, s' :: Reaches(keep, false, s) && LosesPlayedWorld(keep, s, e, s')
  {
    var s := TearingDownUnsaved(None, map[], Do(DeleteVolume, Do(DeleteSecret, Write1(RemoveRecord))));
    ReachesTornDown(keep);
    hide Reaches;
    assert LosesPlayedWorld(keep, s, Perform(true), Wrote(s));
  }

  /** A volume is safe from a second writer exactly if no crash ever falls
      between a successful install and the record that notes it. */
  lemma OneWriterIffInstallsAreRecorded(keep: nat, atomic: bool)
    ensures (forall s :: Reaches(keep, atomic, s) ==> OneWriter(s)) <==> atomic
  {
    if atomic {
      forall s | Reaches(keep, true, s)
        ensures OneWriter(s)
      {
        var states, events :| IsRun(keep, true, states, events) && states[|states| - 1] == s;
        VolumeHasOneWriter(keep, true, states, events, |states| - 1);
      }
    } else {
      SeedsUnderRunningServer(keep);
    }
  }

  ghost predicate SafeFromLoss(keep: nat, atomic: bool) {
    forall s, e, s' | Reaches(keep, atomic, s) && Next(keep, atomic, s, e, s') && Destroys(s, s') && s.played ::
      SafelyStored(keep, s)
  }

  /** ... and so is a played world from being lost. */
  lemma PlayedWorldIsSafeIffInstallsAreRecorded(keep: nat, atomic: bool)
    ensures SafeFromLoss(keep, atomic) <==> atomic
  {
    if atomic {
      forall s, e, s' | Reaches(keep, true, s) && Next(keep, true, s, e, s') && Destroys(s, s') && s.played
        ensures SafelyStored(keep, s)
      {
        var states, events :| IsRun(keep, true, states, events) && states[|states| - 1] == s;
        var states', events' := states + [s'], events + [e];
        forall i | 0 <= i < |events'|
          ensures Next(keep, true, states'[i], events'[i], states'[i + 1])
        {
          if i < |events| {
            assert Next(keep, true, states[i], events[i], states[i + 1]);
          }
        }
        PlayedWorldIsNeverLost(keep, true, states', events', |events|);
      }
    } else {
      DeletesPlayedWorld(keep);
      var s, e, s' :| Reaches(keep, false, s) && LosesPlayedWorld(keep, s, e, s');
      assert Next(keep, false, s, e, s');
    }
  }

  // ---------------------------------------------------------- stranded launch

  /** A launch that crashed after its record but before its volume: the seed Job
      can never start, so it never ends. */
  ghost predicate Stranded(s: State, op: Op) {
    && s.c.record.Some? && s.c.record.value.op == Some(op)
    && op.step.Seeding? && !op.error && op.job.Some?
    && s.c.volume.Absent? && s.c.release.None?
    && (op.job.value in s.c.jobs ==> s.c.jobs[op.job.value].Active?)
    && match s.todo
       case Done => true
       case Do(Save(r), Done) => r.op == Some(op)
       case Do(CreateJob(j, _, None), Done) => op.job == Some(j)
       case _ => false
  }

  lemma StrandedForOneStep(keep: nat, s: State, op: Op, e: Event, s': State)
    requires Stranded(s, op) && Next(keep, false, s, e, s')
    ensures Stranded(s', op)
  {
    match e
    case Begin(call) => StrandedRefuses(keep, s, op, call, s');
    case Perform(helmOk) => StrandedWrites(s, op, helmOk, s');
    case _ => hide Plan, PlanExisting;
  }

  lemma StrandedRefuses(keep: nat, s: State, op: Op, call: Call, s': State)
    requires Stranded(s, op) && Begins(keep, s, call, s')
    ensures Stranded(s', op)
  {
  }

  lemma StrandedWrites(s: State, op: Op, helmOk: bool, s': State)
    requires Stranded(s, op) && s.todo.Do? && Performed(s, s', helmOk)
    ensures Stranded(s', op)
  {
  }

  /** Nothing the service or the cluster does ever moves such a world on, and no
      start, stop, restore or delete is ever accepted for it. */
  lemma {:induction false} StrandedLaunchNeverRecovers(
      keep: nat, states: seq<State>, events: seq<Event>, op: Op, i: nat, j: nat)
    requires IsRun(keep, false, states, events) && i <= j < |states| && Stranded(states[i], op)
    ensures states[j].c.record.Some? && states[j].c.record.value.op == Some(op)
    ensures Plan(states[j].c, CallStart, keep).None? && Plan(states[j].c, CallStop, keep).None?
    ensures Plan(states[j].c, CallDelete, keep).None?
    ensures forall b, f :: Plan(states[j].c, CallRestore(b, f), keep).None?
    ensures Stranded(states[j], op)
  {
    if i < j {
      StrandedLaunchNeverRecovers(keep, states, events, op, i, j - 1);
      StrandedForOneStep(keep, states[j - 1], op, events[j - 1], states[j]);
    }
  }

  /** The state in which a launch has crashed after its n-th write. */
  ghost function CrashedLaunch(keep: nat, s: State, call: Call, n: nat): State
    requires Plan(s.c, call, keep).Some?
  {
    Begun(s.(todo := Plan(s.c, call, keep).value), n).(todo := Done)
  }

  /** Wherever a launch can begin, it can crash after any of its writes; it is then
      stranded exactly if that was the first or the second, before its volume. */
  lemma CrashedLaunchIsStrandedIff(keep: nat, atomic: bool, s: State, call: Call, n: nat)
    requires Reaches(keep, atomic, s) && s.todo.Done? && call.CallLaunch? && Plan(s.c, call, keep).Some?
    requires n > 0 && (!atomic ==> Fresh(s.c))
    ensures var s' := CrashedLaunch(keep, s, call, n);
      && Reaches(keep, atomic, s')
      && OpOf(s').Some? && (Stranded(s', OpOf(s').value) <==> n <= 2)
  {
    if atomic {
      var states, events :| IsRun(keep, true, states, events) && states[|states| - 1] == s;
      ReachableInv(keep, true, states, events, |states| - 1);
      AtomicIsGood(keep, true, s);
      ReachableIsFresh(keep, true, s, call);
    }
    var s0 := s.(todo := Plan(s.c, call, keep).value);
    ReachesNext(keep, atomic, s, Begin(call), s0);
    ReachesBegun(keep, atomic, s0, n);
    LaunchBegun(keep, s, call, n);
    ReachesNext(keep, atomic, Begun(s0, n), Crash, Begun(s0, n).(todo := Done));
  }

  lemma LaunchBegun(keep: nat, s: State, call: Call, n: nat)
    requires call.CallLaunch? && Plan(s.c, call, keep).Some? && n > 0 && Fresh(s.c)
    ensures var b := Begun(s.(todo := Plan(s.c, call, keep).value), n);
      && !InstallUnrecorded(b) && OpOf(b).Some?
      && (Stranded(b.(todo := Done), OpOf(b).value) <==> n <= 2)
  {
    var s1 := Wrote(s.(todo := Plan(s.c, call, keep).value));
    assert Begun(s.(todo := Plan(s.c, call, keep).value), n) == Begun(s1, n - 1);
    if n > 1 {
      var s2 := Wrote(s1);
      assert Begun(s1, n - 1) == Begun(s2, n - 2);
      if n > 2 {
        var s3 := Wrote(s2);
        assert Begun(s2, n - 2) == Begun(s3, n - 3);
        if n > 3 {
          var s4 := Wrote(s3);
          assert Begun(s3, n - 3) == Begun(s4, n - 4) == s4;
        }
      }
    }
  }

  /** A first launch that crashes after its first write is stranded for good. */
  lemma LaunchCanBeStranded(keep: nat, atomic: bool, call: Call)
    requires call.CallLaunch?
    ensures exists s :: Reaches(keep, atomic, s) && s.todo.Done? && LaunchStrands(keep, atomic, s, call)
  {
    var s := State(Cluster(0, None, None, map[], map[], Absent, false, {}, map[]), Done, false, 0, {}, {}, false, None);
    ReachesInit(keep, atomic, s);
    CrashedLaunchIsStrandedIff(keep, atomic, s, call, 1);
    assert LaunchStrands(keep, atomic, s, call);
  }

  ghost predicate LaunchStrands(keep: nat, atomic: bool, s: State, call: Call) {
    && Plan(s.c, call, keep).Some?
    && var s' := CrashedLaunch(keep, s, call, 1);
       Reaches(keep, atomic, s') && OpOf(s').Some? && Stranded(s', OpOf(s').value)
  }

  // --------------------------------------------------------- keeping nothing

  /** A crash after any write of the snapshot's last step is made good. */
  ghost predicate KeepsItsPlace(keep: nat, c: Cluster)
    requires Running(c)
  {
    forall n :: Settled(keep, ExecPrefix(c, AdvanceTodo(c, c.record.value, keep), n)) == Settled(keep, c)
  }

  /** Once its snapshot has succeeded, an operation keeps its place over every crash
      if and only if something is kept or its finished Job is still there:
      otherwise the prune takes the only sign of it, and the resumed pass starts
      another snapshot instead of going on. */
  lemma SnapshotKeepsItsPlaceIff(keep: nat, c: Cluster)
    requires Running(c) && WellFormed(c)
    requires var op := c.record.value.op.value;
      && op.step.Snapshotting? && op.snap.Some? && JobStatus(c, op) == Some(Succeeded)
      && forall t | t in c.zips :: t <= op.snap.value
    ensures KeepsItsPlace(keep, c) <==> keep >= 1 || c.record.value.op.value.job.value in c.jobs
  {
    var op := c.record.value.op.value;
    if keep >= 1 || op.job.value in c.jobs {
      forall n
        ensures Settled(keep, ExecPrefix(c, AdvanceTodo(c, c.record.value, keep), n)) == Settled(keep, c)
      {
        CrashedStepIsResumed(keep, c, n);
      }
    } else {
      PruneLosesPlace(c);
    }
  }

  lemma PruneLosesPlace(c: Cluster)
    requires Running(c) && WellFormed(c)
    requires var op := c.record.value.op.value;
      op.step.Snapshotting? && op.snap.Some? && JobStatus(c, op) == Some(Succeeded) && op.job.value !in c.jobs
    ensures Settled(0, ExecPrefix(c, AdvanceTodo(c, c.record.value, 0), 1)) != Settled(0, c)
  {
    PrunedStartsAnother(c);
    FinishedSnapshotGoesOn(c);
    hide *;
  }

  /** With its file gone the snapshot is taken again. */
  lemma PrunedStartsAnother(c: Cluster)
    requires Running(c) && WellFormed(c)
    requires var op := c.record.value.op.value;
      op.step.Snapshotting? && op.snap.Some? && JobStatus(c, op) == Some(Succeeded) && op.job.value !in c.jobs
    ensures !PastSnapshot(Settled(0, ExecPrefix(c, AdvanceTodo(c, c.record.value, 0), 1)))
  {
    var todo := AdvanceTodo(c, c.record.value, 0);
    var c1 := Apply(c, Prune(0));
    assert ExecPrefix(c, todo, 1) == ExecPrefix(c1, todo.rest, 0) == c1;
    assert Newest(c.zips, 0) == {} && c1.zips == {};
    MissingJobIsCreated(0, c1);
    assert Settled(0, c1).record == c.record;
  }

  lemma FinishedSnapshotGoesOn(c: Cluster)
    requires Running(c) && WellFormed(c)
    requires var op := c.record.value.op.value;
      op.step.Snapshotting? && op.snap.Some? && JobStatus(c, op) == Some(Succeeded)
    ensures PastSnapshot(Settled(0, c))
  {
    var r := c.record.value;
    var todo := AdvanceTodo(c, r, 0);
    var c1 := Apply(c, Prune(0));
    ExecFirst(c, Prune(0), todo.rest, true);
    ExecAfterSnapshot(c1, r, true);
    assert AfterSnapshot(c1, r) == AfterSnapshot(c, r);
    StepLowersRank(0, c, true);
    PastSnapshotForGood(0, Advanced(0, c, true).c, 1, MAX_STEPS - 1);
  }

  predicate PastSnapshot(c: Cluster) { Running(c) ==> !c.record.value.op.value.step.Snapshotting? }

  lemma StepStaysPastSnapshot(keep: nat, c: Cluster)
    requires Running(c) && WellFormed(c) && PastSnapshot(c)
    ensures PastSnapshot(Advanced(keep, c, true).c)
  {
    var r := c.record.value;
    var todo := AdvanceTodo(c, r, keep);
    match r.op.value.step
    case Draining => if NoLivePod(c) { ExecDrain(keep, c, true); }
    case Seeding =>
      if todo.Do? && todo.write.Upgrade? {
        ExecTwo(c, todo.write, todo.rest.write, true);
      } else if todo.Do? {
        ExecFirst(c, todo.write, Done, true);
      }
    case Installing => ExecInstall(c, r, true);
    case TearingDown => ExecTeardown(keep, c, true);
  }

  /** The reconciler never goes back to the snapshot. */
  lemma {:induction false} PastSnapshotForGood(keep: nat, c: Cluster, k: nat, steps: nat)
    requires WellFormed(c) && PastSnapshot(c)
    ensures PastSnapshot(Reconciled(keep, c, AlwaysOk(), k, steps))
    decreases steps
  {
    var h := Healed(c);
    if steps > 0 && Running(h) {
      StepStaysPastSnapshot(keep, h);
      StepLowersRank(keep, h, true);
      PastSnapshotForGood(keep, Advanced(keep, h, true).c, k + 1, steps - 1);
    }
  }

  /** With a retention of zero every run that has taken a snapshot can come to
      that: the file is there, its Job has expired, and the prune is next. */
  lemma KeepingNothingIsNotResumable(atomic: bool)
    ensures exists s :: Reaches(0, atomic, s) && s.todo.Done? && Running(s.c) && !KeepsItsPlace(0, s.c)
  {
    var s := Expired();
    ReachesExpired(0, atomic);
    assert JobStatus(s.c, s.c.record.value.op.value) == Some(Succeeded);
    SnapshotKeepsItsPlaceIff(0, s.c);
  }

  ghost function SnapshotOp(): Op {
    Op(TakeSnapshot, Snapshotting, Some(SnapshotJob(1)), Some(1), "", None, false)
  }

  ghost function Expired(): State {
    var s := Playable();
    s.(c := s.c.(now := 2, record := Some(Blueprint(Some(SnapshotOp()))), zips := {1},
                 told := s.c.told[SnapshotJob(1) := ""]),
       taken := {1})
  }

  ghost function Playable(): State {
    var s := Launched();
    s.(c := s.c.(release := Some(Release(1, "archive/a.zip", "", "")), record := Some(Blueprint(None)), jobs := map[]))
  }

  lemma ReachesInstalled(keep: nat, atomic: bool)
    ensures Reaches(keep, atomic, Playable())
  {
    var s := Launched();
    ReachesLaunched(keep, atomic);
    var s1 := s.(todo := Plan(s.c, CallReconcile, keep).value);
    ReachesNext(keep, atomic, s, Begin(CallReconcile), s1);
    ReachesDrained(keep, atomic, s1);
    var release := Some(Release(1, "archive/a.zip", "", ""));
    var s2 := s.(c := s.c.(release := release, record := Some(Blueprint(None))));
    assert Drained(s1) == s2 by {
      var s3 := s1.(c := s.c.(release := release), todo := s1.todo.rest);
      assert Drained(s1) == Drained(s3) == Drained(s2);
    }
    assert s.c.jobs - {SEED} == map[];
    ReachesNext(keep, atomic, s2, JobExpires(SEED), Playable());
  }

  ghost function Snapping(now: Stamp, state: JobState, zips: set<Stamp>): State {
    var s := Playable();
    s.(c := s.c.(now := now, record := Some(Blueprint(Some(SnapshotOp()))),
                 jobs := map[SnapshotJob(1) := state], zips := zips,
                 told := s.c.told[SnapshotJob(1) := ""]),
       taken := zips)
  }

  /** A launched world is snapshotted ... */
  lemma ReachesSnapping(keep: nat, atomic: bool)
    ensures Reaches(keep, atomic, Snapping(1, Active, {}))
  {
    var s := Playable();
    ReachesInstalled(keep, atomic);
    var s1 := s.(todo := Plan(s.c, CallSnapshot, keep).value);
    ReachesNext(keep, atomic, s, Begin(CallSnapshot), s1);
    ReachesDrained(keep, atomic, s1);
    var r := Some(Blueprint(Some(SnapshotOp())));
    var s3 := s1.(c := s.c.(record := r), todo := s1.todo.rest);
    assert map[][SnapshotJob(1) := Active] == map[SnapshotJob(1) := Active];
    assert Drained(s1) == Drained(s3) == Drained(Snapping(1, Active, {}));
  }

  /** ... and the Job ends and expires. */
  lemma ReachesExpired(keep: nat, atomic: bool)
    ensures Reaches(keep, atomic, Expired())
  {
    var job := SnapshotJob(1);
    ReachesSnapping(keep, atomic);
    hide Reaches;
    ReachesNext(keep, atomic, Snapping(1, Active, {}), Tick, Snapping(2, Active, {}));
    assert map[job := Active][job := Succeeded] == map[job := Succeeded];
    ReachesNext(keep, atomic, Snapping(2, Active, {}), JobEnds(job, true), Snapping(2, Succeeded, {1}));
    assert map[job := Succeeded] - {job} == map[];
    ReachesNext(keep, atomic, Snapping(2, Succeeded, {1}), JobExpires(job), Expired());
  }
}
