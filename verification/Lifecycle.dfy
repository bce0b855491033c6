/** One world's life: its record, its pending operation, and its traces in the
    cluster. */
module Lifecycle {
  import opened Wrappers

  type Stamp = nat  // a clock reading in whole seconds

  datatype Kind = Launch | Create | TakeSnapshot | Restore | Delete | LegacyStop

  datatype Step = Snapshotting | Draining | Seeding | Installing | TearingDown

  datatype JobName = SeedJob(stamp: Stamp) | SnapshotJob(stamp: Stamp)

  datatype JobState = Active | Succeeded | Failed

  /** The pending operation.  `snap` is the stamp of the snapshot file the
      operation writes (its "dest" and "local" paths), `job` the Job it waits for. */
  datatype Op = Op(
    kind: Kind, step: Step, job: Option<JobName>, snap: Option<Stamp>,
    backup: string, forge: Option<string>, error: bool)

  datatype Message = Blank | SnapshotFailed(kind: Kind)

  datatype Spec = Spec(source: string, forge: string, settings: string, message: Message)

  datatype Record = Record(spec: Spec, op: Option<Op>)

  datatype Release = Release(replicas: nat, source: string, forge: string, settings: string)

  datatype Pod = Pod(finished: bool, deleting: bool)

  datatype Volume = Absent | Bound | Terminating

  /** `told` is what the Jobs were told to extract, those that are gone included. */
  datatype Cluster = Cluster(
    now: Stamp,
    record: Option<Record>,
    release: Option<Release>,
    jobs: map<JobName, JobState>,
    pods: map<nat, Pod>,
    volume: Volume,
    secret: bool,
    zips: set<Stamp>,
    told: map<JobName, string>)

  // ---------------------------------------------------------------- reading

  predicate NoLivePod(c: Cluster) {
    forall p | p in c.pods :: c.pods[p].finished
  }

  function Replicas(c: Cluster): nat {
    if c.release.None? then 0 else c.release.value.replicas
  }

  predicate ShuttingDown(c: Cluster) {
    Replicas(c) == 0 && !NoLivePod(c)
  }

  predicate Busy(op: Option<Op>) {
    op.Some? && !op.value.error
  }

  predicate FailedAt(op: Option<Op>, step: Step) {
    op.Some? && op.value.error && op.value.step == step
  }

  // ---------------------------------------------------------------- writing

  /** One cluster write.  `onFail` is what the call still does if the write
      fails; a Job whose name is taken is passed over when `onConflict` is None; its
      backup is what a seed Job is to extract. */
  datatype Write =
    | Save(record: Record)
    | RemoveRecord
    | CreateSecret
    | DeleteSecret
    | CreateVolume
    | DeleteVolume
    | CreateJob(job: JobName, backup: string, onConflict: Option<Todo>)
    | DeleteJobs
    | Upgrade(replicas: nat, spec: Spec, onFail: Todo)
    | Uninstall(onFail: Todo)
    | Prune(keep: nat)

  /** A service call is planned in one go from what it reads under the lock, and
      then performs its cluster writes one at a time.  Between any two writes the
      cluster may move, and the dashboard may crash and forget the rest. */
  datatype Todo = Done | Do(write: Write, rest: Todo)

  /** The newest `keep` of a set of snapshot stamps. */
  function Newest(stamps: set<Stamp>, keep: nat): (r: set<Stamp>)
    ensures r <= stamps
    ensures |r| == if |stamps| < keep then |stamps| else keep
    ensures forall a, b | a in r && b in stamps - r :: b < a
  {
    if |stamps| <= keep then stamps
    else
      var oldest := Oldest(stamps);
      var r := Newest(stamps - {oldest}, keep);
      assert stamps - r == (stamps - {oldest} - r) + {oldest};
      r
  }

  predicate IsMinimum(m: Stamp, stamps: set<Stamp>) {
    m in stamps && forall s | s in stamps :: m <= s
  }

  function Oldest(stamps: set<Stamp>): (m: Stamp)
    requires stamps != {}
    ensures IsMinimum(m, stamps)
  {
    MinimumExists(stamps);
    var m :| IsMinimum(m, stamps);
    m
  }

  lemma {:induction false} MinimumExists(stamps: set<Stamp>)
    requires stamps != {}
    ensures exists m :: IsMinimum(m, stamps)
    decreases stamps
  {
    var x :| x in stamps;
    var others := stamps - {x};
    if others == {} {
      assert stamps == {x};
      assert IsMinimum(x, stamps);
    } else {
      MinimumExists(others);
      var m :| IsMinimum(m, others);
      assert forall s | s in stamps :: s == x || s in others;
      assert IsMinimum(if x < m then x else m, stamps);
    }
  }

  function Rendered(spec: Spec, replicas: nat): Release {
    Release(replicas, spec.source, spec.forge, spec.settings)
  }

  /** With a Job that has just been created. */
  function Launching(c: Cluster, j: JobName, backup: string): Cluster {
    c.(jobs := c.jobs[j := Active], told := c.told[j := backup])
  }

  /** The effect of a write that does not fail. */
  function Apply(c: Cluster, w: Write): Cluster {
    match w
    case Save(r) => c.(record := Some(r))
    case RemoveRecord => c.(record := None)
    case CreateSecret => c.(secret := true)
    case DeleteSecret => c.(secret := false)
    case CreateVolume => if c.volume.Absent? then c.(volume := Bound) else c
    case DeleteVolume => if c.volume.Bound? then c.(volume := Terminating) else c
    case CreateJob(j, backup, _) => if j in c.jobs then c else Launching(c, j, backup)
    case DeleteJobs => c.(jobs := map[])
    case Upgrade(n, spec, _) => c.(release := Some(Rendered(spec, n)))
    case Uninstall(_) => c.(release := None)
    case Prune(keep) => c.(zips := Newest(c.zips, keep))
  }

  /** What remains to be done after the first write, which Helm may refuse. */
  function After(c: Cluster, w: Write, rest: Todo, helmOk: bool): Todo {
    match w
    case CreateJob(j, _, Some(t)) => if j in c.jobs then t else rest
    case Upgrade(_, _, t) => if helmOk then rest else t
    case Uninstall(t) => if helmOk then rest else t
    case _ => rest
  }

  predicate Refused(w: Write, helmOk: bool) {
    (w.Upgrade? || w.Uninstall?) && !helmOk
  }

  // ---------------------------------------------------------------- planning

  datatype Call =
    | CallLaunch(backup: string, forge: string, settings: string)
    | CallCreate(settings: string)
    | CallStart
    | CallStop
    | CallSnapshot
    | CallRestore(backup: string, forge: string)
    | CallDelete
    | CallUpdateSettings(settings: string)
    | CallSetWhitelist(settings: string)
    | CallReconcile
    | CallHeal

  function Write1(w: Write): Todo { Do(w, Done) }

  function Write2(w: Write, w': Write): Todo { Do(w, Do(w', Done)) }

  function Failing(r: Record): Record
    requires r.op.Some?
  {
    r.(op := Some(r.op.value.(error := true)))
  }

  /** The volume and secret, then the server, then the cleared operation. */
  function InstallTodo(r: Record): Todo
    requires r.op.Some?
  {
    Do(CreateSecret, Do(CreateVolume,
      Do(Upgrade(1, r.spec, Write1(Save(Failing(r)))), Write1(Save(r.(op := None))))))
  }

  function BeginSnapshot(c: Cluster, r: Record, kind: Kind, backup: string, forge: Option<string>): Option<Todo> {
    if c.release.Some? && ShuttingDown(c) then None
    else
      var job := SnapshotJob(c.now);
      var op := Op(kind, Snapshotting, Some(job), Some(c.now), backup, forge, false);
      Some(Write2(Save(Record(r.spec.(message := Blank), Some(op))), CreateJob(job, backup, None)))
  }

  /** The writes of a user call, or None if it is refused before any write. */
  function Plan(c: Cluster, call: Call, keep: nat): Option<Todo> {
    match call
    case CallLaunch(backup, forge, settings) =>
      if c.record.Some? || c.release.Some? || !c.volume.Absent? then None
      else
        var job := SeedJob(c.now);
        var op := Op(Launch, Seeding, Some(job), None, backup, None, false);
        Some(Do(Save(Record(Spec(backup, forge, settings, Blank), Some(op))),
          Do(CreateSecret, Do(CreateVolume, Write1(CreateJob(job, backup, Some(Done)))))))
    case CallCreate(settings) =>
      if c.record.Some? || c.release.Some? || !c.volume.Absent? then None
      else
        var op := Op(Create, Installing, None, None, "", None, false);
        var r := Record(Spec("", "", settings, Blank), Some(op));
        Some(Do(Save(r), InstallTodo(r)))
    case CallHeal =>
      if c.record.None? && c.release.Some? then
        var v := c.release.value;
        Some(Write1(Save(Record(Spec(v.source, v.forge, v.settings, Blank), None))))
      else None
    case _ =>
      if c.record.None? then None else PlanExisting(c, c.record.value, call, keep)
  }

  function PlanExisting(c: Cluster, r: Record, call: Call, keep: nat): Option<Todo>
    requires !call.CallLaunch? && !call.CallCreate? && !call.CallHeal?
  {
    var cleared := Record(r.spec.(message := Blank), None);
    if call.CallSetWhitelist? then
      Some(Write1(Save(r.(spec := r.spec.(settings := call.settings)))))
    else if call.CallReconcile? then
      if Busy(r.op) then Some(AdvanceTodo(c, r, keep)) else None
    else if Busy(r.op) then None
    else match call
      case CallStart =>
        if FailedAt(r.op, Seeding) then
          var job := SeedJob(c.now);
          var op := r.op.value.(job := Some(job), error := false);
          Some(Write2(Save(r.(op := Some(op))), CreateJob(job, op.backup, Some(Done))))
        else if c.release.Some? && ShuttingDown(c) then None
        else Some(Write2(Save(cleared), Upgrade(1, cleared.spec, Done)))
      case CallStop =>
        if c.release.None? || (Replicas(c) == 0 && r.op.None?) then None
        else Some(Write2(Save(cleared), Upgrade(0, cleared.spec, Done)))
      case CallSnapshot =>
        BeginSnapshot(c, r, TakeSnapshot, "", None)
      case CallRestore(backup, forge) =>
        if FailedAt(r.op, Seeding) || FailedAt(r.op, Installing) then
          Some(Write1(Save(r.(op := Some(Op(Restore, Draining, None, None, backup, Some(forge), false))))))
        else BeginSnapshot(c, r, Restore, backup, Some(forge))
      case CallDelete =>
        if c.release.None? || FailedAt(r.op, Seeding) then
          Some(Write1(Save(r.(op := Some(Op(Delete, TearingDown, None, None, "", None, false))))))
        else BeginSnapshot(c, r, Delete, "", None)
      case CallUpdateSettings(settings) =>
        var r' := r.(spec := r.spec.(settings := settings));
        if c.release.None? then Some(Write1(Save(r')))
        else Some(Write2(Save(r'), Upgrade(Replicas(c), r'.spec, Done)))
  }

  /** A finished Job as the reconciler sees it: the operation's Job itself or,
      once that is gone, the snapshot file it left.  None while it runs. */
  function JobStatus(c: Cluster, op: Op): Option<JobState>
    requires op.job.Some?
  {
    var j := op.job.value;
    if j in c.jobs then
      if c.jobs[j].Active? then None else Some(c.jobs[j])
    else if op.step.Snapshotting? && op.snap.Some? && op.snap.value in c.zips then Some(Succeeded)
    else None
  }

  /** Re-creates a Job that is missing. */
  function AwaitJob(c: Cluster, op: Op): Todo
    requires op.job.Some?
  {
    if op.job.value in c.jobs then Done else Write1(CreateJob(op.job.value, op.backup, None))
  }

  /** The writes of one reconciler step. */
  function AdvanceTodo(c: Cluster, r: Record, keep: nat): Todo
    requires r.op.Some?
  {
    var op := r.op.value;
    match op.step
    case Snapshotting =>
      if op.job.None? then Done
      else if JobStatus(c, op).None? then AwaitJob(c, op)
      else if JobStatus(c, op).value.Failed? then
        Write1(Save(Record(r.spec.(message := SnapshotFailed(op.kind)), None)))
      else Do(Prune(keep), AfterSnapshot(c, r))
    case Draining =>
      if !NoLivePod(c) then Done
      else
        var job := SeedJob(c.now);
        Write2(Save(r.(op := Some(op.(step := Seeding, job := Some(job))))),
               CreateJob(job, op.backup, Some(Write1(Save(Failing(r))))))
    case Seeding =>
      if op.job.None? then Done
      else if JobStatus(c, op).None? then AwaitJob(c, op)
      else if JobStatus(c, op).value.Failed? then Write1(Save(Failing(r)))
      else
        var forge := if op.forge.Some? then op.forge.value else r.spec.forge;
        var r' := r.(spec := r.spec.(source := op.backup, forge := forge, message := Blank));
        Write2(Upgrade(1, r'.spec, Write1(Save(Failing(r')))), Save(r'.(op := None)))
    case Installing =>
      InstallTodo(r)
    case TearingDown =>
      Do(Uninstall(Write1(Save(Failing(r)))),
        Do(DeleteJobs, Do(DeleteVolume, Do(DeleteSecret, Write1(RemoveRecord)))))
  }

  function AfterSnapshot(c: Cluster, r: Record): Todo
    requires r.op.Some?
  {
    var op := r.op.value;
    var onFail := Write1(Save(Failing(r)));
    match op.kind
    case TakeSnapshot => Write1(Save(r.(op := None)))
    case LegacyStop => Write2(Upgrade(0, r.spec, onFail), Save(r.(op := None)))
    case Restore =>
      var drain := Save(r.(op := Some(op.(step := Draining))));
      if c.release.Some? then Write2(Upgrade(0, r.spec, onFail), drain) else Write1(drain)
    case Delete => Write1(Save(r.(op := Some(op.(step := TearingDown)))))
    case _ => Done
  }
}
