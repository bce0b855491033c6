/** User calls that crash: after which of its writes a call is finished by the
    reconciler, and after which it is lost. */
module LifecycleCalls {
  import opened Wrappers
  import opened Lifecycle
  import opened LifecycleRuns
  import opened LifecycleInvariant
  import opened LifecycleSteps
  import opened LifecycleSafety
  import opened LifecycleProgress

  /** No Job or snapshot of this very second is there yet. */
  predicate Fresh(c: Cluster) { SeedJob(c.now) !in c.jobs && c.now !in c.zips }

  predicate Installed(c: Cluster, spec: Spec, replicas: nat) { c.release == Some(Rendered(spec, replicas)) }

  /** Whether a call that crashes after its n-th write is made good.  A launch
      needs its volume to be there; calls that only install must have installed,
      unless the release was like that already; all others have left an operation
      that is picked up, or are complete. */
  predicate ResumedAfter(c: Cluster, call: Call, n: nat)
    requires call.CallStart? || call.CallStop? || call.CallUpdateSettings? ==> c.record.Some?
  {
    match call
    case CallLaunch(_, _, _) => n >= 3
    case CallStart => n >= 2 || FailedAt(c.record.value.op, Seeding) || Installed(c, c.record.value.spec, 1)
    case CallStop => n >= 2 || Installed(c, c.record.value.spec, 0)
    case CallUpdateSettings(settings) =>
      n >= 2 || c.release.None? || Installed(c, c.record.value.spec.(settings := settings), Replicas(c))
    case _ => true
  }

  /** Crashing after `n` writes and reconciling ends where the whole call ends. */
  ghost predicate MadeGood(keep: nat, c: Cluster, todo: Todo, n: nat) {
    Settled(keep, ExecPrefix(c, todo, n)) == Settled(keep, Exec(c, todo, true).c)
  }

  lemma StoredAndStopped(keep: nat, c: Cluster)
    requires c.record.Some? && !Running(c)
    ensures Settled(keep, c) == c
  {
    StoppedIsSettled(keep, c);
  }

  /** A single write is done or not begun. */
  lemma OneWriteIsMadeGood(keep: nat, c: Cluster, w: Write, n: nat)
    requires n > 0 && Goes(c, w, true)
    ensures MadeGood(keep, c, Write1(w), n)
  {
    ExecFirst(c, w, Done, true);
    assert ExecPrefix(c, Write1(w), n) == ExecPrefix(Apply(c, w), Done, n - 1) == Apply(c, w);
  }

  /** Saving a record without a pending operation and then installing: lost if
      nothing has been installed, unless that changes nothing. */
  lemma SaveAndInstallIff(keep: nat, c: Cluster, r: Record, replicas: nat, n: nat)
    requires n > 0 && !Busy(r.op)
    ensures var todo := Write2(Save(r), Upgrade(replicas, r.spec, Done));
      MadeGood(keep, c, todo, n) <==> n >= 2 || Installed(c, r.spec, replicas)
  {
    var todo := Write2(Save(r), Upgrade(replicas, r.spec, Done));
    var c1 := Apply(c, Save(r));
    var c2 := Apply(c1, todo.rest.write);
    ExecTwo(c, todo.write, todo.rest.write, true);
    assert ExecPrefix(c, todo, n) == ExecPrefix(c1, todo.rest, n - 1);
    if n >= 2 {
      assert ExecPrefix(c1, todo.rest, n - 1) == ExecPrefix(c2, Done, n - 2) == c2;
    }
    StoredAndStopped(keep, c1);
    StoredAndStopped(keep, c2);
  }

  /** Saving an operation that waits for a Job and then creating that Job: the
      reconciler creates it otherwise. */
  lemma SaveAndCreateIsMadeGood(keep: nat, c: Cluster, r: Record, onConflict: Option<Todo>, n: nat)
    requires n > 0 && r.op.Some? && !r.op.value.error && r.op.value.job.Some?
    requires r.op.value.step.Snapshotting? || r.op.value.step.Seeding?
    requires WellFormedOp(r.op.value) && (onConflict.Some? ==> r.op.value.job.value !in c.jobs)
    requires r.op.value.step.Snapshotting? && r.op.value.snap.Some? ==> r.op.value.snap.value !in c.zips
    ensures MadeGood(keep, c, Write2(Save(r), CreateJob(r.op.value.job.value, r.op.value.backup, onConflict)), n)
  {
    var op := r.op.value;
    var todo := Write2(Save(r), CreateJob(op.job.value, op.backup, onConflict));
    var c1 := Apply(c, Save(r));
    var c2 := Apply(c1, todo.rest.write);
    ExecTwo(c, todo.write, todo.rest.write, true);
    assert ExecPrefix(c, todo, n) == ExecPrefix(c1, todo.rest, n - 1);
    if n >= 2 {
      assert ExecPrefix(c1, todo.rest, n - 1) == ExecPrefix(c2, Done, n - 2) == c2;
    } else if op.job.value in c.jobs {
      assert c1 == c2;
    } else {
      MissingJobIsCreated(keep, c1);
    }
  }

  /** A pass over an operation whose Job is missing creates it, and nothing else. */
  lemma MissingJobIsCreated(keep: nat, c: Cluster)
    requires Running(c) && WellFormed(c)
    requires var op := c.record.value.op.value;
      && (op.step.Snapshotting? || op.step.Seeding?) && op.job.Some? && op.job.value !in c.jobs
      && (op.step.Snapshotting? && op.snap.Some? ==> op.snap.value !in c.zips)
    ensures var op := c.record.value.op.value;
      var c' := Apply(c, CreateJob(op.job.value, op.backup, None));
      Settled(keep, c) == Settled(keep, c') == c'
  {
    var op := c.record.value.op.value;
    var c' := Apply(c, CreateJob(op.job.value, op.backup, None));
    assert JobStatus(c, op).None?;
    assert AdvanceTodo(c, c.record.value, keep) == Write1(CreateJob(op.job.value, op.backup, None));
    ExecFirst(c, CreateJob(op.job.value, op.backup, None), Done, true);
    SettledAfterStep(keep, c);
    StoppedIsSettled(keep, c');
  }

  lemma LaunchIsResumedIff(keep: nat, c: Cluster, call: Call, n: nat)
    requires call.CallLaunch? && Plan(c, call, keep).Some? && Fresh(c) && n > 0
    ensures MadeGood(keep, c, Plan(c, call, keep).value, n) <==> n >= 3
  {
    var todo := Plan(c, call, keep).value;
    var rest := todo.rest;
    var c1 := Apply(c, todo.write);
    var c2 := Apply(c1, CreateSecret);
    var c3 := Apply(c2, CreateVolume);
    var job := SeedJob(c.now);
    var c4 := Apply(c3, CreateJob(job, call.backup, Some(Done)));
    ExecFirst(c, todo.write, rest, true);
    ExecFirst(c1, CreateSecret, rest.rest, true);
    ExecFirst(c2, CreateVolume, rest.rest.rest, true);
    ExecFirst(c3, CreateJob(job, call.backup, Some(Done)), Done, true);
    assert Exec(c, todo, true).c == c4;
    StoppedIsSettled(keep, c4);
    assert ExecPrefix(c, todo, n) == ExecPrefix(c1, rest, n - 1);
    if n == 1 {
      MissingJobIsCreated(keep, c1);
    } else {
      assert ExecPrefix(c1, rest, n - 1) == ExecPrefix(c2, rest.rest, n - 2);
      if n == 2 {
        MissingJobIsCreated(keep, c2);
      } else {
        assert ExecPrefix(c2, rest.rest, n - 2) == ExecPrefix(c3, rest.rest.rest, n - 3);
        if n == 3 {
          MissingJobIsCreated(keep, c3);
        } else {
          assert ExecPrefix(c3, rest.rest.rest, n - 3) == ExecPrefix(c4, Done, n - 4) == c4;
        }
      }
    }
  }

  lemma CreateIsResumed(keep: nat, c: Cluster, call: Call, n: nat)
    requires call.CallCreate? && Plan(c, call, keep).Some? && n > 0
    ensures MadeGood(keep, c, Plan(c, call, keep).value, n)
  {
    var todo := Plan(c, call, keep).value;
    var c1 := Apply(c, todo.write);
    ExecFirst(c, todo.write, todo.rest, true);
    assert ExecPrefix(c, todo, n) == ExecPrefix(c1, todo.rest, n - 1);
    assert AdvanceTodo(c1, c1.record.value, keep) == todo.rest;
    CrashedStepIsResumed(keep, c1, n - 1);
    SettledAfterStep(keep, c1);
  }

  /** A user call that crashes after its n-th write is made good by the reconciler
      exactly in the cases named by ResumedAfter. */
  lemma CrashedCallIsResumedIff(keep: nat, c: Cluster, call: Call, n: nat)
    requires UserCall(call) && Plan(c, call, keep).Some? && Fresh(c) && n > 0
    ensures MadeGood(keep, c, Plan(c, call, keep).value, n) <==> ResumedAfter(c, call, n)
  {
    if call.CallLaunch? {
      LaunchIsResumedIff(keep, c, call, n);
    } else if call.CallCreate? {
      CreateIsResumed(keep, c, call, n);
    } else {
      StoredCallIsResumedIff(keep, c, call, n);
    }
  }

  lemma StoredCallIsResumedIff(keep: nat, c: Cluster, call: Call, n: nat)
    requires UserCall(call) && !call.CallLaunch? && !call.CallCreate?
    requires Plan(c, call, keep).Some? && Fresh(c) && n > 0
    ensures MadeGood(keep, c, Plan(c, call, keep).value, n) <==> ResumedAfter(c, call, n)
  {
    var r, todo := c.record.value, Plan(c, call, keep).value;
    hide MadeGood;
    if todo.rest.Done? {
      OneWriteIsMadeGood(keep, c, todo.write, n);
    } else if todo.rest.write.CreateJob? {
      SaveAndCreateIsMadeGood(keep, c, todo.write.record, todo.rest.write.onConflict, n);
    } else {
      SaveAndInstallIff(keep, c, todo.write.record, todo.rest.write.replicas, n);
    }
  }

  lemma ReachableIsFresh(keep: nat, atomic: bool, s: State, call: Call)
    requires GoodInv(keep, atomic, s) && UserCall(call) && !call.CallSetWhitelist? && Plan(s.c, call, keep).Some?
    ensures Fresh(s.c)
  {
    var job := SeedJob(s.c.now);
    assert job in s.c.jobs ==> SeedActive(s.c.jobs, job);
  }

  /** In every run: whichever call is accepted, and after whichever write it
      crashes. */
  lemma ReachableCallIsResumedIff(
      keep: nat, atomic: bool, states: seq<State>, events: seq<Event>, i: nat, call: Call, n: nat)
    requires IsRun(keep, atomic, states, events) && i < |states| && (atomic || NeverForgotten(states, i + 1))
    requires UserCall(call) && Plan(states[i].c, call, keep).Some? && n > 0
    ensures var c := states[i].c;
      MadeGood(keep, c, Plan(c, call, keep).value, n) <==> ResumedAfter(c, call, n)
  {
    var c := states[i].c;
    if call.CallSetWhitelist? {
      OneWriteIsMadeGood(keep, c, Plan(c, call, keep).value.write, n);
    } else {
      ReachableInv(keep, atomic, states, events, i);
      AtomicIsGood(keep, atomic, states[i]);
      ReachableIsFresh(keep, atomic, states[i], call);
      hide GoodInv, Inv, Plan;
      CrashedCallIsResumedIff(keep, c, call, n);
    }
  }
}
