/** What a forgotten server leads to: the condition under which the safety results
    hold cannot be dropped, on any run. */
module LifecycleForgotten {
  import opened Wrappers
  import opened Lifecycle
  import opened LifecycleRuns
  import opened LifecycleInvariant
  import opened LifecycleSafety

  ghost predicate Continues(
      keep: nat, states: seq<State>, events: seq<Event>, states': seq<State>, events': seq<Event>)
  {
    IsRun(keep, false, states', events') && states <= states' && events <= events'
  }

  /** The run can be continued to a state like this. */
  ghost predicate LeadsTo(keep: nat, states: seq<State>, events: seq<Event>, s: State) {
    exists states', events' :: Continues(keep, states, events, states', events') && states'[|states'| - 1] == s
  }

  lemma LeadsOn(keep: nat, states: seq<State>, events: seq<Event>, s: State, e: Event, s': State)
    requires LeadsTo(keep, states, events, s) && Next(keep, false, s, e, s')
    ensures LeadsTo(keep, states, events, s')
  {
    hide Next, Init;
    var states1, events1 :| Continues(keep, states, events, states1, events1) && states1[|states1| - 1] == s;
    var states2, events2 := states1 + [s'], events1 + [e];
    forall i | 0 <= i < |events2|
      ensures Next(keep, false, states2[i], events2[i], states2[i + 1])
    {
      if i < |events1| {
        assert Next(keep, false, states1[i], events1[i], states1[i + 1]);
      }
    }
    assert IsRun(keep, false, states2, events2) && states <= states2 && events <= events2;
    assert Continues(keep, states, events, states2, events2);
  }

  /** The next owed write is performed. */
  lemma LeadsToWrite(keep: nat, states: seq<State>, events: seq<Event>, s: State, s': State)
    requires LeadsTo(keep, states, events, s) && s.todo.Do? && Performed(s, s', true)
    ensures LeadsTo(keep, states, events, s')
  {
    hide Performed;
    LeadsOn(keep, states, events, s, Perform(true), s');
  }

  /** A seed Job is created while the server is installed. */
  lemma SeedUnderServer(keep: nat, states: seq<State>, events: seq<Event>, s: State, j: JobName)
    requires LeadsTo(keep, states, events, s) && Replicas(s.c) > 0 && s.todo.Do? && s.todo.write.CreateJob?
    requires s.todo.write.job == j && j.SeedJob? && j !in s.c.jobs
    ensures exists s' :: LeadsTo(keep, states, events, s') && !OneWriter(s')
  {
    var s' := s.(c := Launching(s.c, j, s.todo.write.backup), todo := s.todo.rest, played := false);
    hide LeadsTo;
    LeadsToWrite(keep, states, events, s, s');
    assert SeedActive(s'.c.jobs, j);
    assert !OneWriter(s');
  }

  lemma SaveThenSeedUnderServer(keep: nat, states: seq<State>, events: seq<Event>, s: State, j: JobName)
    requires LeadsTo(keep, states, events, s) && Replicas(s.c) > 0 && s.todo.Do? && s.todo.write.Save?
    requires s.todo.rest.Do? && s.todo.rest.write.CreateJob? && s.todo.rest.write.job == j
    requires j.SeedJob? && j !in s.c.jobs
    ensures exists s' :: LeadsTo(keep, states, events, s') && !OneWriter(s')
  {
    hide LeadsTo, OneWriter;
    LeadsToWrite(keep, states, events, s, Saved(s));
    SeedUnderServer(keep, states, events, Saved(s), j);
  }

  /** After a tick no Job bears the current second. */
  lemma LeadsToFreshSecond(keep: nat, states: seq<State>, events: seq<Event>, s: State)
    requires LeadsTo(keep, states, events, s) && StampsInv(s)
    ensures var s' := s.(c := s.c.(now := s.c.now + 1));
      LeadsTo(keep, states, events, s') && SeedJob(s'.c.now) !in s'.c.jobs
  {
    hide LeadsTo;
    LeadsOn(keep, states, events, s, Tick, s.(c := s.c.(now := s.c.now + 1)));
  }

  lemma MissingJobIsRepeated(keep: nat, states: seq<State>, events: seq<Event>, s: State, op: Op)
    requires LeadsTo(keep, states, events, s) && Forgotten(s)
    requires s.c.record.value.op == Some(op) && op.step.Seeding? && !op.error
    ensures exists s' :: LeadsTo(keep, states, events, s') && !OneWriter(s')
  {
    var s1 := s.(todo := Write1(CreateJob(op.job.value, op.backup, None)));
    assert Begins(keep, s, CallReconcile, s1);
    hide LeadsTo, OneWriter, Begins;
    LeadsOn(keep, states, events, s, Begin(CallReconcile), s1);
    SeedUnderServer(keep, states, events, s1, op.job.value);
  }

  lemma FailedSeedIsRepeated(keep: nat, states: seq<State>, events: seq<Event>, s: State)
    requires LeadsTo(keep, states, events, s) && s.todo.Done?
    requires s.c.record.Some? && FailedAt(s.c.record.value.op, Seeding)
    requires Replicas(s.c) > 0 && SeedJob(s.c.now) !in s.c.jobs
    ensures exists s' :: LeadsTo(keep, states, events, s') && !OneWriter(s')
  {
    var s1 := s.(todo := Plan(s.c, CallStart, keep).value);
    assert Begins(keep, s, CallStart, s1);
    assert s1.todo.write.Save? && s1.todo.rest.write.CreateJob? && s1.todo.rest.write.job == SeedJob(s.c.now);
    hide LeadsTo, OneWriter, Begins, Plan;
    LeadsOn(keep, states, events, s, Begin(CallStart), s1);
    SaveThenSeedUnderServer(keep, states, events, s1, SeedJob(s.c.now));
  }

  /** A drain that finds no live pod seeds, whatever the release says. */
  lemma DrainedIsSeeded(keep: nat, states: seq<State>, events: seq<Event>, s: State)
    requires LeadsTo(keep, states, events, s) && s.todo.Done? && IsPending(s, Draining, None)
    requires Replicas(s.c) > 0 && SeedJob(s.c.now) !in s.c.jobs && NoLivePod(s.c)
    ensures exists s' :: LeadsTo(keep, states, events, s') && !OneWriter(s')
  {
    var s1 := s.(todo := Plan(s.c, CallReconcile, keep).value);
    assert Begins(keep, s, CallReconcile, s1);
    assert s1.todo.write.Save? && s1.todo.rest.write.CreateJob? && s1.todo.rest.write.job == SeedJob(s.c.now);
    hide LeadsTo, OneWriter, Begins, Plan;
    LeadsOn(keep, states, events, s, Begin(CallReconcile), s1);
    SaveThenSeedUnderServer(keep, states, events, s1, SeedJob(s.c.now));
  }

  /** The one pod may have finished. */
  lemma LeadsToFinishedPod(keep: nat, states: seq<State>, events: seq<Event>, s: State)
    requires LeadsTo(keep, states, events, s) && PodsInv(s)
    ensures exists pods :: var s' := s.(c := s.c.(pods := pods));
      LeadsTo(keep, states, events, s') && NoLivePod(s'.c)
  {
    if NoLivePod(s.c) {
      assert s == s.(c := s.c.(pods := s.c.pods));
    } else {
      var p :| p in s.c.pods && !s.c.pods[p].finished;
      assert LivePod(s.c.pods, p);
      var s' := s.(c := s.c.(pods := s.c.pods[p := s.c.pods[p].(finished := true)]));
      assert PodFinished(s, p, s');
      assert forall q | q in s'.c.pods && !s'.c.pods[q].finished :: LivePod(s.c.pods, q);
      hide LeadsTo;
      LeadsOn(keep, states, events, s, PodFinishes(p), s');
    }
  }

  lemma FailedInstallIsRestored(keep: nat, states: seq<State>, events: seq<Event>, s: State)
    requires LeadsTo(keep, states, events, s) && s.todo.Done?
    requires s.c.record.Some? && FailedAt(s.c.record.value.op, Installing)
    requires Replicas(s.c) > 0 && SeedJob(s.c.now) !in s.c.jobs && PodsInv(s)
    ensures exists s' :: LeadsTo(keep, states, events, s') && !OneWriter(s')
  {
    var call := CallRestore("archive/a.zip", "");
    var s1 := s.(todo := Plan(s.c, call, keep).value, requestedAt := s.c.now);
    assert Begins(keep, s, call, s1);
    assert s1.todo.rest.Done? && IsPending(Saved(s1), Draining, None) && PodsInv(Saved(s1));
    hide LeadsTo, OneWriter, Begins, Plan, IsPending, PodsInv;
    LeadsOn(keep, states, events, s, Begin(call), s1);
    LeadsToWrite(keep, states, events, s1, Saved(s1));
    LeadsToFinishedPod(keep, states, events, Saved(s1));
    var pods :|
      var s2 := Saved(s1).(c := Saved(s1).c.(pods := pods)); LeadsTo(keep, states, events, s2) && NoLivePod(s2.c);
    var s2 := Saved(s1).(c := Saved(s1).c.(pods := pods));
    assert IsPending(s2, Draining, None) by { SamePending(Saved(s1), s2); }
    DrainedIsSeeded(keep, states, events, s2);
  }

  lemma SamePending(s: State, s': State)
    requires s'.c.record == s.c.record && IsPending(s, Draining, None)
    ensures IsPending(s', Draining, None)
  {
  }

  /** The first forgotten server of any run: the run can be continued until a seed
      Job writes to the volume of an installed server. */
  lemma ForgottenServerIsOverwritten(keep: nat, states: seq<State>, events: seq<Event>)
    requires IsRun(keep, false, states, events)
    requires NeverForgotten(states, |states| - 1) && Forgotten(states[|states| - 1])
    ensures exists s' :: LeadsTo(keep, states, events, s') && !OneWriter(s')
  {
    var s := states[|states| - 1];
    var op := s.c.record.value.op.value;
    ReachableInv(keep, false, states, events, |states| - 1);
    assert Continues(keep, states, events, states, events);
    assert LeadsTo(keep, states, events, s) && StampsInv(s) && PodsInv(s);
    if !op.error {
      MissingJobIsRepeated(keep, states, events, s, op);
    } else {
      var s1 := s.(c := s.c.(now := s.c.now + 1));
      assert PodsInv(s1);
      hide LeadsTo, OneWriter, IsRun, Inv;
      LeadsToFreshSecond(keep, states, events, s);
      if op.step.Seeding? {
        FailedSeedIsRepeated(keep, states, events, s1);
      } else {
        FailedInstallIsRestored(keep, states, events, s1);
      }
    }
  }

  /** A run has a second writer only behind a forgotten server. */
  lemma SecondWriterWasForgotten(keep: nat, states: seq<State>, events: seq<Event>, i: nat)
    requires IsRun(keep, false, states, events) && i < |states| && !OneWriter(states[i])
    ensures exists k :: 0 <= k <= i && Forgotten(states[k])
  {
    hide IsRun, OneWriter, Forgotten;
    if NeverForgotten(states, i + 1) { VolumeHasOneWriter(keep, false, states, events, i); }
  }
}
