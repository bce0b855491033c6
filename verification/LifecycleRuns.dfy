/** Whole runs of one world: service calls cut into single writes, crashes, and
    a cluster that moves on its own in between. */
module LifecycleRuns {
  import opened Wrappers
  import opened Lifecycle

  /** A cluster, the writes the current call still owes, and history that only
      the statements below look at:
        played       a server has run on the volume since it was created or wiped
        requestedAt  when the latest restore or delete was asked for
        taken        stamps of every snapshot that ever succeeded
        discarded    snapshot files removed by hand
        holds        the backup that was last extracted onto the volume
        lost         the record was lost, not deleted, and has not been rebuilt */
  datatype State = State(
    c: Cluster, todo: Todo,
    played: bool, requestedAt: Stamp, taken: set<Stamp>, discarded: set<Stamp>, lost: bool, holds: Option<string>)

  ghost predicate Init(s: State) {
    && s.c.record.None? && s.c.release.None? && s.c.jobs == map[] && s.c.pods == map[]
    && s.c.volume.Absent? && s.c.zips == {} && s.todo.Done?
    && !s.played && s.taken == {} && s.requestedAt <= s.c.now && !s.lost && s.holds.None?
  }

  // ------------------------------------------------------------ transitions

  datatype Event =
    | Begin(call: Call)
    | Perform(helmOk: bool)
    | Crash
    | Tick
    | JobEnds(job: JobName, ok: bool)
    | JobExpires(job: JobName)
    | PodStarts(pod: nat)
    | PodTerminates(pod: nat)
    | PodFinishes(pod: nat)
    | PodGoes(pod: nat)
    | VolumeGoes
    | Discard(stamp: Stamp)
    | LoseRecord

  /** The server is installed but the record still names the operation: the
      moment between the last two writes of a seed or install step. */
  ghost predicate InstallUnrecorded(s: State) {
    && s.todo.Do? && s.todo.write.Save? && s.todo.write.record.op.None?
    && s.c.record.Some? && Busy(s.c.record.value.op)
    && (s.c.record.value.op.value.step.Seeding? || s.c.record.value.op.value.step.Installing?)
  }

  ghost predicate LivePod(pods: map<nat, Pod>, p: nat) {
    p in pods && !pods[p].finished
  }

  predicate UserCall(call: Call) { !call.CallReconcile? && !call.CallHeal? }

  ghost predicate Destructive(call: Call) {
    call.CallRestore? || call.CallDelete?
  }

  // --------------------------------------------------- the service's own steps

  ghost predicate Begins(keep: nat, s: State, call: Call, s': State) {
    && s.todo.Done? && Plan(s.c, call, keep).Some?
    && s' == s.(todo := Plan(s.c, call, keep).value,
                requestedAt := if Destructive(call) then s.c.now else s.requestedAt)
  }

  ghost predicate Wipes(s: State, w: Write) {
    w.CreateJob? && w.job.SeedJob? && w.job !in s.c.jobs
  }

  ghost predicate Performed(s: State, s': State, helmOk: bool)
    requires s.todo.Do?
  {
    var w := s.todo.write;
    s' == s.(
      c := if Refused(w, helmOk) then s.c else Apply(s.c, w),
      todo := After(s.c, w, s.todo.rest, helmOk),
      played := s.played && !Wipes(s, w),
      lost := s.lost && !w.Save?)
  }

  // ---------------------------------------------- the cluster moves on its own

  ghost predicate JobEnded(s: State, j: JobName, ok: bool, s': State) {
    && j in s.c.jobs && s.c.jobs[j].Active? && s.c.volume.Bound? && j.stamp < s.c.now
    && var saved := if ok && j.SnapshotJob? then {j.stamp} else {};
       s' == s.(c := s.c.(jobs := s.c.jobs[j := if ok then Succeeded else Failed], zips := s.c.zips + saved),
                taken := s.taken + saved,
                holds := if ok && j.SeedJob? && j in s.c.told then Some(s.c.told[j]) else s.holds)
  }

  ghost predicate JobExpired(s: State, j: JobName, s': State) {
    j in s.c.jobs && !s.c.jobs[j].Active? && s' == s.(c := s.c.(jobs := s.c.jobs - {j}))
  }

  ghost predicate PodStarted(s: State, p: nat, s': State) {
    && Replicas(s.c) > 0 && s.c.volume.Bound? && p !in s.c.pods
    && (forall q | LivePod(s.c.pods, q) :: s.c.pods[q].deleting)
    && s' == s.(c := s.c.(pods := s.c.pods[p := Pod(false, false)]), played := true)
  }

  ghost predicate PodTerminated(s: State, p: nat, s': State) {
    && Replicas(s.c) == 0 && p in s.c.pods
    && s' == s.(c := s.c.(pods := s.c.pods[p := s.c.pods[p].(deleting := true)]))
  }

  ghost predicate PodFinished(s: State, p: nat, s': State) {
    p in s.c.pods && s' == s.(c := s.c.(pods := s.c.pods[p := s.c.pods[p].(finished := true)]))
  }

  ghost predicate PodWent(s: State, p: nat, s': State) {
    p in s.c.pods && s' == s.(c := s.c.(pods := s.c.pods - {p}))
  }

  ghost predicate VolumeWent(s: State, s': State) {
    s.c.volume.Terminating? && NoLivePod(s.c) && s' == s.(c := s.c.(volume := Absent), played := false, holds := None)
  }

  ghost predicate Discarded(s: State, t: Stamp, s': State) {
    s' == s.(c := s.c.(zips := s.c.zips - {t}), discarded := s.discarded + {t})
  }

  ghost predicate RecordLost(s: State, s': State) {
    && s.todo.Done? && s.c.record.Some? && s.c.record.value.op.None?
    && s' == s.(c := s.c.(record := None), lost := true)
  }

  /** One step.  `atomic` rules out a crash while an install is unrecorded. */
  ghost predicate Next(keep: nat, atomic: bool, s: State, e: Event, s': State) {
    match e
    case Begin(call) => Begins(keep, s, call, s')
    case Perform(helmOk) =>
      && s.todo.Do? && Performed(s, s', helmOk)
      && (s.todo.write.Uninstall? && s.c.release.None? ==> helmOk)
    case Crash => !(atomic && InstallUnrecorded(s)) && s' == s.(todo := Done)
    case Tick => s' == s.(c := s.c.(now := s.c.now + 1))
    case JobEnds(j, ok) => JobEnded(s, j, ok, s')
    case JobExpires(j) => JobExpired(s, j, s')
    case PodStarts(p) => PodStarted(s, p, s')
    case PodTerminates(p) => PodTerminated(s, p, s')
    case PodFinishes(p) => PodFinished(s, p, s')
    case PodGoes(p) => PodWent(s, p, s')
    case VolumeGoes => VolumeWent(s, s')
    case Discard(t) => Discarded(s, t, s')
    case LoseRecord => RecordLost(s, s')
  }

  /** A run is a list of states joined by a list of events. */
  ghost predicate IsRun(keep: nat, atomic: bool, states: seq<State>, events: seq<Event>) {
    && |states| == |events| + 1
    && Init(states[0])
    && forall i | 0 <= i < |events| :: Next(keep, atomic, states[i], events[i], states[i + 1])
  }
}
