/** Safety over whole runs, until an installed server is forgotten. */
module LifecycleSafety {
  import opened Wrappers
  import opened Lifecycle
  import opened LifecycleRuns
  import opened LifecycleInvariant
  import opened LifecycleSteps
  import opened LifecycleBegins

  lemma CrashKeepsInv(keep: nat, atomic: bool, s: State, s': State)
    requires GoodInv(keep, atomic, s) && Next(keep, atomic, s, Crash, s')
    ensures GoodInv(keep, atomic, s')
  {
    SameCluster(s, s');
    OtherTodo(keep, atomic, s, s');
    hide ClusterInv, OpInv;
  }

  lemma LossKeepsInv(keep: nat, atomic: bool, s: State, s': State)
    requires GoodInv(keep, atomic, s) && RecordLost(s, s')
    ensures GoodInv(keep, atomic, s')
  {
    IdleHasNoSeed(keep, atomic, s);
  }

  /** Every step keeps the invariant; from then on a server may be forgotten. */
  lemma NextKeepsInv(keep: nat, atomic: bool, s: State, e: Event, s': State)
    requires Inv(keep, atomic, s) && (atomic || !Forgotten(s)) && Next(keep, atomic, s, e, s')
    ensures Inv(keep, atomic, s')
  {
    AtomicIsGood(keep, atomic, s);
    GoodIsInv(keep, atomic, s');
    hide Inv, GoodInv, Forgotten, Begins, Performed, RecordLost;
    match e
    case Begin(call) => BeginKeepsInv(keep, atomic, s, call, s');
    case Perform(helmOk) => PerformKeepsInv(keep, atomic, s, helmOk, s');
    case Crash => CrashKeepsInv(keep, atomic, s, s');
    case LoseRecord => LossKeepsInv(keep, atomic, s, s');
    case _ => EnvironmentKeepsInv(keep, atomic, s, e, s');
  }

  /** Where `atomic`, the invariant leaves nothing to be forgotten. */
  lemma AtomicIsGood(keep: nat, atomic: bool, s: State)
    requires Inv(keep, atomic, s) && (atomic || !Forgotten(s))
    ensures GoodInv(keep, atomic, s) && !Forgotten(s)
  {
    hide TodoInv, ClusterInv;
  }

  ghost predicate NeverForgotten(states: seq<State>, n: nat)
    requires n <= |states|
  {
    forall k | 0 <= k < n :: !Forgotten(states[k])
  }

  lemma {:induction false} ReachableInv(keep: nat, atomic: bool, states: seq<State>, events: seq<Event>, i: nat)
    requires IsRun(keep, atomic, states, events) && i < |states| && (atomic || NeverForgotten(states, i))
    ensures Inv(keep, atomic, states[i])
  {
    if i > 0 {
      ReachableInv(keep, atomic, states, events, i - 1);
      NextKeepsInv(keep, atomic, states[i - 1], events[i - 1], states[i]);
    }
  }

  // ------------------------------------------------------------ main results

  /** Where no crash falls between an install and its record, no server is ever
      forgotten. */
  lemma AtomicRunForgetsNothing(keep: nat, states: seq<State>, events: seq<Event>, i: nat)
    requires IsRun(keep, true, states, events) && i < |states|
    ensures !Forgotten(states[i])
  {
    ReachableInv(keep, true, states, events, i);
    AtomicIsGood(keep, true, states[i]);
  }

  /** Nothing else uses the volume while a seed Job is writing to it, and two
      live server pods never share it. */
  ghost predicate OneWriter(s: State) {
    && (forall p, q | LivePod(s.c.pods, p) && LivePod(s.c.pods, q) :: p == q)
    && (forall j | SeedActive(s.c.jobs, j) ::
          && NoLivePod(s.c) && Replicas(s.c) == 0
          && (forall k | SeedActive(s.c.jobs, k) :: k == j)
          && s.c.record.Some? && s.c.record.value.op.Some?
          && var op := s.c.record.value.op.value;
             op.step.Seeding? && !op.error && op.job == Some(j))
  }

  /** A step that starts a seed Job or gives up the volume. */
  ghost predicate Destroys(s: State, s': State) {
    || (exists j :: SeedActive(s'.c.jobs, j) && !SeedActive(s.c.jobs, j))
    || (s.c.volume.Bound? && s'.c.volume.Terminating?)
  }

  /** A snapshot that succeeded, stamped no earlier than the latest restore or
      delete request; the file is still there unless somebody removed it. */
  ghost predicate SafelyStored(keep: nat, s: State) {
    exists t :: t in s.taken && s.requestedAt <= t && (keep >= 1 ==> t in s.c.zips || t in s.discarded)
  }

  lemma GoodHasOneWriter(keep: nat, atomic: bool, s: State)
    requires GoodInv(keep, atomic, s)
    ensures OneWriter(s)
  {
    hide TodoInv;
  }

  /** In every reachable state a volume has at most one writer. */
  lemma VolumeHasOneWriter(keep: nat, atomic: bool, states: seq<State>, events: seq<Event>, i: nat)
    requires IsRun(keep, atomic, states, events) && i < |states| && (atomic || NeverForgotten(states, i + 1))
    ensures OneWriter(states[i])
  {
    ReachableInv(keep, atomic, states, events, i);
    AtomicIsGood(keep, atomic, states[i]);
    GoodHasOneWriter(keep, atomic, states[i]);
  }

  /** In every run, wiping or deleting a volume that a server has run on comes
      after a snapshot of it. */
  lemma PlayedWorldIsNeverLost(keep: nat, atomic: bool, states: seq<State>, events: seq<Event>, i: nat)
    requires IsRun(keep, atomic, states, events) && i < |events| && (atomic || NeverForgotten(states, i + 1))
    requires Destroys(states[i], states[i + 1]) && states[i].played
    ensures SafelyStored(keep, states[i])
  {
    ReachableInv(keep, atomic, states, events, i);
    AtomicIsGood(keep, atomic, states[i]);
    hide Inv, GoodInv;
    DestructionIsCovered(keep, atomic, states[i], events[i], states[i + 1]);
  }

  /** Only the service destroys anything, by creating a seed Job or in a teardown. */
  lemma DestroyingWrite(keep: nat, atomic: bool, s: State, e: Event, s': State)
    requires ClusterInv(s) && Next(keep, atomic, s, e, s') && Destroys(s, s')
    ensures e.Perform? && s.todo.Do? && (s.todo.write.CreateJob? || s.todo.write.DeleteVolume?)
  {
    if Environment(e) {
      EnvironmentMoves(keep, atomic, s, e, s');
      hide Next;
    } else {
      hide Plan;
    }
  }

  lemma DestructionIsCovered(keep: nat, atomic: bool, s: State, e: Event, s': State)
    requires GoodInv(keep, atomic, s) && Next(keep, atomic, s, e, s') && Destroys(s, s') && s.played
    ensures SafelyStored(keep, s)
  {
    DestroyingWrite(keep, atomic, s, e, s');
    WriteIsCovered(keep, atomic, s, s');
  }

  lemma WriteIsCovered(keep: nat, atomic: bool, s: State, s': State)
    requires GoodInv(keep, atomic, s) && s.todo.Do? && (s.todo.write.CreateJob? || s.todo.write.DeleteVolume?)
    requires Performed(s, s', true) && Destroys(s, s') && s.played
    ensures SafelyStored(keep, s)
  {
    var op := s.c.record.value.op.value;
    assert StepInv(atomic, s, op) && SnapInv(keep, s, op);
    assert Evidence(s, op);
  }

  /** A world that has been deleted is never rebuilt from its release: the
      release always goes before the record, so the heal path finds nothing
      unless a record was lost that had not been deleted. */
  lemma DeletedWorldStaysDeleted(keep: nat, atomic: bool, states: seq<State>, events: seq<Event>, i: nat)
    requires IsRun(keep, atomic, states, events) && i < |states| && (atomic || NeverForgotten(states, i))
    ensures states[i].c.record.None? && !states[i].lost ==> states[i].c.release.None?
    ensures Plan(states[i].c, CallHeal, keep).Some? ==> states[i].lost
  {
    ReachableInv(keep, atomic, states, events, i);
    hide OpInv, TodoInv;
  }
}
