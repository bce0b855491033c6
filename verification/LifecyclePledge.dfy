/** What a call may cause until the next one, whatever happens in between: which
    records and releases can be seen, which writes are performed, and what the call
    has come to once all its writes are done.  Every plan stays within that, and so
    does every step of the reconciler from whatever the call has left behind; crashes,
    the cluster's own moves and a lost record that is healed change nothing of it.  The
    results that speak of the calls one by one are in the module that follows. */
module LifecyclePledge {
  import opened Wrappers
  import opened Lifecycle
  import opened LifecycleRuns

  /** An accepted call and the cluster it was accepted in. */
  datatype Pledge = Pledge(call: Call, before: Cluster)

  ghost predicate Pending(record: Option<Record>) {
    record.Some? && Busy(record.value.op)
  }

  ghost function PendingOp(record: Option<Record>): Op
    requires Pending(record)
  {
    record.value.op.value
  }

  // ------------------------------------------------------- what may be seen

  /** A record healed from the release. */
  ghost predicate Rebuilt(r: Record, release: Option<Release>) {
    && r.op.None? && release.Some?
    && r.spec == Spec(release.value.source, release.value.forge, release.value.settings, Blank)
  }

  ghost predicate SameSpec(a: Spec, b: Spec) {
    a.source == b.source && a.forge == b.forge && a.settings == b.settings
  }

  /** The record says what this one said, or has been lost or rebuilt. */
  ghost predicate SpecIs(spec: Spec, record: Option<Record>, release: Option<Release>) {
    record.Some? ==> SameSpec(record.value.spec, spec) || Rebuilt(record.value, release)
  }

  ghost predicate ReleaseIs(release: Option<Release>, replicas: nat, spec: Spec) {
    release == Some(Release(replicas, spec.source, spec.forge, spec.settings))
  }

  /** A step that waits for a Job waits for one of its own sort. */
  ghost predicate WaitsForItsJob(op: Op) {
    && (op.step.Snapshotting? ==> op.job.Some? && op.job.value.SnapshotJob?)
    && (op.step.Seeding? ==> op.job.Some? && op.job.value.SeedJob?)
  }

  /** A new world: its record says what was asked for, its operation is the one
      begun, and it is done when the release says the same. */
  ghost predicate SeenNew(
      spec: Spec, kind: Kind, step: Step, backup: string, record: Option<Record>, release: Option<Release>)
  {
    && (release.None? || ReleaseIs(release, 1, spec))
    && (record.Some? ==>
          && record.value.spec == spec
          && match record.value.op
             case None => ReleaseIs(release, 1, spec)
             case Some(op) =>
               op.kind == kind && op.step == step && op.backup == backup && op.forge.None? && WaitsForItsJob(op))
  }

  /** The operation under way brings this backup. */
  ghost predicate Brings(record: Option<Record>, backup: string, forge: Option<string>) {
    Pending(record) ==>
      var op := PendingOp(record);
      && op.backup == backup && op.forge == forge && WaitsForItsJob(op)
      && !op.step.Installing? && !op.step.TearingDown?
  }

  /** A start that repeats a failed seed. */
  ghost predicate RetriesSeed(p: Pledge) {
    p.call.CallStart? && p.before.record.Some? && FailedAt(p.before.record.value.op, Seeding)
  }

  ghost function FailedOp(p: Pledge): Op
    requires RetriesSeed(p)
  {
    p.before.record.value.op.value
  }

  /** What record and release can be until the next call. */
  ghost predicate Seen(p: Pledge, record: Option<Record>, release: Option<Release>) {
    match p.call
    case CallLaunch(backup, forge, settings) =>
      SeenNew(Spec(backup, forge, settings, Blank), Launch, Seeding, backup, record, release)
    case CallCreate(settings) =>
      SeenNew(Spec("", "", settings, Blank), Create, Installing, "", record, release)
    case CallSetWhitelist(_) => true
    case _ => p.before.record.Some? && SeenExisting(p, p.before.record.value, record, release)
  }

  ghost predicate SeenExisting(p: Pledge, r0: Record, record: Option<Record>, release: Option<Release>) {
    match p.call
    case CallRestore(backup, forge) =>
      Brings(record, backup, Some(forge)) && (Pending(record) ==> PendingOp(record).kind.Restore?)
    case CallStart =>
      if RetriesSeed(p) then
        && Brings(record, FailedOp(p).backup, FailedOp(p).forge)
        && (Pending(record) ==> PendingOp(record).step.Seeding?)
      else
        && !Pending(record) && SpecIs(r0.spec, record, release)
        && (release == p.before.release || ReleaseIs(release, 1, r0.spec))
    case CallStop =>
      && !Pending(record) && SpecIs(r0.spec, record, release)
      && (release == p.before.release || ReleaseIs(release, 0, r0.spec))
    case CallSnapshot =>
      && SpecIs(r0.spec, record, release) && release == p.before.release
      && (Pending(record) ==>
            var op := PendingOp(record);
            op.kind.TakeSnapshot? && op.step.Snapshotting? && WaitsForItsJob(op) && op.snap == Some(p.before.now))
    case CallDelete =>
      && SpecIs(r0.spec, record, release) && (release == p.before.release || release.None?)
      && (Pending(record) ==>
            var op := PendingOp(record);
            op.kind.Delete? && WaitsForItsJob(op) && (op.step.Snapshotting? || op.step.TearingDown?))
    case CallUpdateSettings(settings) =>
      var spec := r0.spec.(settings := settings);
      && !Pending(record) && (SpecIs(r0.spec, record, release) || SpecIs(spec, record, release))
      && (release == p.before.release
          || (p.before.release.Some? && ReleaseIs(release, p.before.release.value.replicas, spec)))
    case _ => true
  }

  // ------------------------------------------------------ what may be written

  /** Record and release, and what is known to be gone. */
  datatype View = View(
    record: Option<Record>, release: Option<Release>, noJobs: bool, noVolume: bool, noSecret: bool)

  ghost predicate Abstracts(v: View, c: Cluster) {
    && v.record == c.record && v.release == c.release
    && (v.noJobs ==> c.jobs == map[]) && (v.noVolume ==> !c.volume.Bound?) && (v.noSecret ==> !c.secret)
  }

  ghost function Written(v: View, w: Write): View {
    match w
    case Save(r) => v.(record := Some(r))
    case RemoveRecord => v.(record := None)
    case CreateSecret => v.(noSecret := false)
    case DeleteSecret => v.(noSecret := true)
    case CreateVolume => v.(noVolume := false)
    case DeleteVolume => v.(noVolume := true)
    case CreateJob(_, _, _) => v.(noJobs := false)
    case DeleteJobs => v.(noJobs := true)
    case Upgrade(n, spec, _) => v.(release := Some(Rendered(spec, n)))
    case Uninstall(_) => v.(release := None)
    case Prune(_) => v
  }

  /** The write stores that a seed is over. */
  ghost predicate EndsSeed(v: View, w: Write) {
    w.Save? && w.record.op.None? && Pending(v.record) && PendingOp(v.record).step.Seeding?
  }

  ghost predicate SpecWith(spec: Spec, was: Spec, backup: string, forge: Option<string>) {
    && spec.source == backup && spec.forge == (if forge.Some? then forge.value else was.forge)
    && spec.settings == was.settings
  }

  /** The server is stopped as it is, or installed with what has been seeded. */
  ghost predicate Installs(v: View, w: Write, backup: string, forge: Option<string>) {
    && w.Upgrade? && v.record.Some?
    && var was := v.record.value.spec;
       (w.replicas == 0 && SameSpec(w.spec, was)) || (w.replicas == 1 && SpecWith(w.spec, was, backup, forge))
  }

  /** A seed ends with its backup in record and release, and with that backup's Forge
      version unless the operation has none. */
  ghost predicate SeedEndsWith(v: View, w: Write, backup: string, forge: Option<string>) {
    EndsSeed(v, w) ==>
      var spec := w.record.spec;
      SpecWith(spec, v.record.value.spec, backup, forge) && ReleaseIs(v.release, 1, spec)
  }

  /** A step behind a snapshot that is not reached says so. */
  ghost predicate GivesUpLoudly(v: View, w: Write) {
    w.Save? && w.record.op.None? && Pending(v.record) && PendingOp(v.record).step.Snapshotting? ==>
      w.record.spec.message == SnapshotFailed(PendingOp(v.record).kind)
  }

  /** A drain never ends an operation. */
  ghost predicate DrainGoesOn(v: View, w: Write) {
    w.Save? && Pending(v.record) && PendingOp(v.record).step.Draining? ==> w.record.op.Some?
  }

  ghost predicate Seeds(w: Write, backup: string) {
    w.CreateJob? && w.job.SeedJob? && w.backup == backup
  }

  ghost predicate Snaps(w: Write) {
    w.CreateJob? && w.job.SnapshotJob?
  }

  /** The writes there may be until the next call. */
  ghost predicate May(p: Pledge, v: View, w: Write) {
    match p.call
    case CallLaunch(backup, forge, settings) =>
      w.CreateSecret? || w.CreateVolume? || Seeds(w, backup) || w.Save?
      || (w.Upgrade? && w.replicas == 1 && SameSpec(w.spec, Spec(backup, forge, settings, Blank)))
    case CallCreate(settings) =>
      w.CreateSecret? || w.CreateVolume? || w.Save?
      || (w.Upgrade? && w.replicas == 1 && SameSpec(w.spec, Spec("", "", settings, Blank)))
    case CallRestore(backup, forge) =>
      || Snaps(w) || Seeds(w, backup) || w.Prune? || Installs(v, w, backup, Some(forge))
      || (w.Save? && SeedEndsWith(v, w, backup, Some(forge)) && GivesUpLoudly(v, w) && DrainGoesOn(v, w))
    case CallStart =>
      if RetriesSeed(p) then
        var op := FailedOp(p);
        || Installs(v, w, op.backup, op.forge) || Seeds(w, op.backup)
        || (w.Save? && SeedEndsWith(v, w, op.backup, op.forge))
      else w.Save? || (w.Upgrade? && w.replicas == 1)
    case CallStop => w.Save? || (w.Upgrade? && w.replicas == 0)
    case CallSnapshot => w.Save? || Snaps(w) || w.Prune?
    case CallDelete =>
      || (w.Save? && GivesUpLoudly(v, w)) || Snaps(w) || w.Prune?
      || w.Uninstall? || w.DeleteJobs? || w.DeleteVolume? || w.DeleteSecret?
      || (w.RemoveRecord? && v.release.None? && v.noJobs && v.noVolume && v.noSecret)
    case CallUpdateSettings(_) => w.Save? || w.Upgrade?
    case _ => true
  }

  // ------------------------------------------------------- what a call ends in

  /** The call itself is over and nothing has gone wrong. */
  ghost predicate End(p: Pledge, record: Option<Record>, release: Option<Release>) {
    && record.Some?
    && var r := record.value;
       match p.call
       case CallLaunch(backup, forge, settings) => r.spec == Spec(backup, forge, settings, Blank) && Pending(record)
       case CallCreate(settings) => r.op.None? && ReleaseIs(release, 1, Spec("", "", settings, Blank))
       case _ => p.before.record.Some? && EndExisting(p, p.before.record.value, r, release)
  }

  ghost predicate EndExisting(p: Pledge, r0: Record, r: Record, release: Option<Release>) {
    match p.call
    case CallStart =>
      if RetriesSeed(p) then Busy(r.op) && r.spec == r0.spec
      else r.op.None? && SameSpec(r.spec, r0.spec) && ReleaseIs(release, 1, r0.spec)
    case CallStop => r.op.None? && SameSpec(r.spec, r0.spec) && ReleaseIs(release, 0, r0.spec)
    case CallUpdateSettings(settings) =>
      && r == r0.(spec := r0.spec.(settings := settings))
      && release.Some? == p.before.release.Some?
      && (release.Some? ==> ReleaseIs(release, p.before.release.value.replicas, r.spec))
    case CallSetWhitelist(settings) =>
      r == r0.(spec := r0.spec.(settings := settings)) && release == p.before.release
    case _ => Busy(r.op) && SameSpec(r.spec, r0.spec) && release == p.before.release
  }

  // ------------------------------------------------------------- along the writes

  /** However the owed writes go, what is seen and written stays within the bounds;
      with every write done, the call has come to its end. */
  ghost predicate Leads(p: Pledge, v: View, todo: Todo, ok: bool)
    decreases todo
  {
    && Seen(p, v.record, v.release)
    && match todo
       case Done => ok ==> End(p, v.record, v.release)
       case Do(w, rest) =>
         && May(p, v, w) && Leads(p, Written(v, w), rest, ok)
         && match w
            case CreateJob(_, _, Some(t)) => Leads(p, v, t, false)
            case Upgrade(_, _, t) => Leads(p, v, t, false)
            case Uninstall(t) => Leads(p, v, t, false)
            case _ => true
  }

  ghost function FirstView(c: Cluster): View { View(c.record, c.release, false, false, false) }

  lemma LeadsOneSave(p: Pledge, v: View, r: Record, ok: bool)
    requires Seen(p, v.record, v.release) && May(p, v, Save(r)) && Seen(p, Some(r), v.release)
    requires ok ==> End(p, Some(r), v.release)
    ensures Leads(p, v, Write1(Save(r)), ok)
  {
    hide Seen, May, End;
    assert Leads(p, Written(v, Save(r)), Done, ok);
  }

  lemma LeadsFirst(p: Pledge, v: View, w: Write, rest: Todo, ok: bool)
    requires Seen(p, v.record, v.release) && May(p, v, w) && Leads(p, Written(v, w), rest, ok)
    requires w.CreateJob? && w.onConflict.Some? ==> Leads(p, v, w.onConflict.value, false)
    requires w.Upgrade? || w.Uninstall? ==> Leads(p, v, w.onFail, false)
    ensures Leads(p, v, Do(w, rest), ok)
  {
    hide Seen, May, End, Written;
  }

  lemma LeadsDone(p: Pledge, v: View, ok: bool)
    requires Seen(p, v.record, v.release) && (ok ==> End(p, v.record, v.release))
    ensures Leads(p, v, Done, ok)
  {
    hide Seen, May, End;
  }

  // -------------------------------------------------------------- new worlds

  lemma LaunchLeads(p: Pledge, keep: nat)
    requires p.call.CallLaunch? && Plan(p.before, p.call, keep).Some?
    ensures Leads(p, FirstView(p.before), Plan(p.before, p.call, keep).value, true)
  {
    var todo := Plan(p.before, p.call, keep).value;
    var v := FirstView(p.before);
    var r, job := todo.write.record, todo.rest.rest.rest.write;
    assert todo == Do(Save(r), Do(CreateSecret, Do(CreateVolume, Do(job, Done)))) && job.onConflict == Some(Done);
    assert Seen(p, v.record, v.release) && Seen(p, Some(r), v.release) && End(p, Some(r), v.release);
    assert job.CreateJob? && Seeds(job, p.call.backup);
    hide Plan, Seen, End;
    SeedingLeads(p, v, r, job);
  }

  lemma SeedingLeads(p: Pledge, v: View, r: Record, job: Write)
    requires p.call.CallLaunch? && Seeds(job, p.call.backup) && job.onConflict == Some(Done)
    requires Seen(p, v.record, v.release) && Seen(p, Some(r), v.release) && End(p, Some(r), v.release)
    ensures Leads(p, v, Do(Save(r), Do(CreateSecret, Do(CreateVolume, Do(job, Done)))), true)
  {
    var v1 := Written(v, Save(r));
    var v2 := Written(v1, CreateSecret);
    var v3 := Written(v2, CreateVolume);
    var v4 := Written(v3, job);
    assert v2.record == v3.record == v4.record == Some(r) && v2.release == v3.release == v4.release == v.release;
    assert May(p, v, Save(r)) && May(p, v1, CreateSecret) && May(p, v2, CreateVolume) && May(p, v3, job);
    hide *;
    LeadsDone(p, v3, false);
    LeadsDone(p, v4, true);
    LeadsFirst(p, v3, job, Done, true);
    LeadsFirst(p, v2, CreateVolume, Do(job, Done), true);
    LeadsFirst(p, v1, CreateSecret, Do(CreateVolume, Do(job, Done)), true);
    LeadsFirst(p, v, Save(r), Do(CreateSecret, Do(CreateVolume, Do(job, Done))), true);
  }

  lemma InstallLeads(p: Pledge, v: View, r: Record, ok: bool)
    requires p.call.CallCreate? && Seen(p, v.record, v.release) && v.record == Some(r) && Busy(r.op)
    ensures Leads(p, v, InstallTodo(r), ok)
  {
    var stored, failed := r.(op := None), Failing(r);
    var upgrade := Upgrade(1, r.spec, Write1(Save(failed)));
    var v1 := Written(v, CreateSecret);
    var v2 := Written(v1, CreateVolume);
    var v3 := Written(v2, upgrade);
    assert InstallTodo(r) == Do(CreateSecret, Do(CreateVolume, Do(upgrade, Write1(Save(stored)))));
    assert v1.record == v2.record == v.record == v3.record && v1.release == v2.release == v.release;
    assert Seen(p, v3.record, v3.release) && Seen(p, Some(stored), v3.release) && Seen(p, Some(failed), v.release);
    assert May(p, v, CreateSecret) && May(p, v1, CreateVolume) && May(p, v2, upgrade);
    assert May(p, v3, Save(stored)) && May(p, v2, Save(failed)) && End(p, Some(stored), v3.release);
    hide *;
    LeadsOneSave(p, v3, stored, ok);
    LeadsOneSave(p, v2, failed, false);
    LeadsFirst(p, v2, upgrade, Write1(Save(stored)), ok);
    LeadsFirst(p, v1, CreateVolume, Do(upgrade, Write1(Save(stored))), ok);
    LeadsFirst(p, v, CreateSecret, Do(CreateVolume, Do(upgrade, Write1(Save(stored)))), ok);
  }

  lemma CreateLeads(p: Pledge, keep: nat)
    requires p.call.CallCreate? && Plan(p.before, p.call, keep).Some?
    ensures Leads(p, FirstView(p.before), Plan(p.before, p.call, keep).value, true)
  {
    var todo := Plan(p.before, p.call, keep).value;
    var v := FirstView(p.before);
    var v1 := Written(v, todo.write);
    assert SeenNew(Spec("", "", p.call.settings, Blank), Create, Installing, "", v1.record, None);
    InstallLeads(p, v1, todo.write.record, true);
    LeadsFirst(p, v, todo.write, todo.rest, true);
  }

  // ----------------------------------------------------------- existing worlds

  /** One write, or two of which Helm may refuse the second. */
  lemma LeadsTwo(p: Pledge, v: View, todo: Todo)
    requires todo.Do? && todo.write.Save? && Seen(p, v.record, v.release) && May(p, v, todo.write)
    requires var v1 := Written(v, todo.write);
      && Seen(p, v1.record, v1.release)
      && if todo.rest.Done? then End(p, v1.record, v1.release)
         else
           var w, v2 := todo.rest.write, Written(v1, todo.rest.write);
           && todo.rest.rest.Done? && May(p, v1, w) && Seen(p, v2.record, v2.release) && End(p, v2.record, v2.release)
           && (w.CreateJob? && w.onConflict.Some? ==> w.onConflict.value.Done?)
           && (w.Upgrade? || w.Uninstall? ==> w.onFail.Done?)
    ensures Leads(p, v, todo, true)
  {
    var v1 := Written(v, todo.write);
    hide *;
    if todo.rest.Done? {
      LeadsDone(p, v1, true);
    } else {
      LeadsDone(p, v1, false);
      LeadsDone(p, Written(v1, todo.rest.write), true);
      LeadsFirst(p, v1, todo.rest.write, Done, true);
    }
    LeadsFirst(p, v, todo.write, todo.rest, true);
  }

  lemma StartLeads(p: Pledge, keep: nat)
    requires (p.call.CallStart? || p.call.CallStop?) && p.before.record.Some?
    requires PlanExisting(p.before, p.before.record.value, p.call, keep).Some?
    ensures Leads(p, FirstView(p.before), PlanExisting(p.before, p.before.record.value, p.call, keep).value, true)
  {
    hide Leads;
    LeadsTwo(p, FirstView(p.before), PlanExisting(p.before, p.before.record.value, p.call, keep).value);
  }

  lemma EditLeads(p: Pledge, keep: nat)
    requires (p.call.CallUpdateSettings? || p.call.CallSetWhitelist?) && p.before.record.Some?
    requires PlanExisting(p.before, p.before.record.value, p.call, keep).Some?
    ensures Leads(p, FirstView(p.before), PlanExisting(p.before, p.before.record.value, p.call, keep).value, true)
  {
    hide Leads;
    LeadsTwo(p, FirstView(p.before), PlanExisting(p.before, p.before.record.value, p.call, keep).value);
  }

  lemma ChainLeads(p: Pledge, keep: nat)
    requires (p.call.CallSnapshot? || p.call.CallRestore? || p.call.CallDelete?) && p.before.record.Some?
    requires PlanExisting(p.before, p.before.record.value, p.call, keep).Some?
    ensures Leads(p, FirstView(p.before), PlanExisting(p.before, p.before.record.value, p.call, keep).value, true)
  {
    hide Leads;
    LeadsTwo(p, FirstView(p.before), PlanExisting(p.before, p.before.record.value, p.call, keep).value);
  }

  // ------------------------------------------------------------ the reconciler

  /** A step may only be taken where an operation of the pledge is pending. */
  ghost predicate Steps(p: Pledge, v: View, c: Cluster, r: Record, step: Step) {
    && UserCall(p.call) && !p.call.CallSetWhitelist? && Seen(p, v.record, v.release)
    && v.record == c.record == Some(r) && v.release == c.release && Busy(r.op) && r.op.value.step == step
  }

  lemma AwaitLeads(p: Pledge, v: View, c: Cluster, r: Record)
    requires Steps(p, v, c, r, Seeding) || Steps(p, v, c, r, Snapshotting)
    ensures r.op.value.job.Some? && Leads(p, v, AwaitJob(c, r.op.value), false)
  {
    var op := r.op.value;
    var w := CreateJob(op.job.value, op.backup, None);
    assert May(p, v, w);
    hide Seen, May, End;
    LeadsDone(p, v, false);
    LeadsDone(p, Written(v, w), false);
    LeadsFirst(p, v, w, Done, false);
  }

  lemma AbortLeads(p: Pledge, v: View, c: Cluster, r: Record)
    requires Steps(p, v, c, r, Snapshotting)
    ensures Leads(p, v, Write1(Save(Record(r.spec.(message := SnapshotFailed(r.op.value.kind)), None))), false)
  {
    var r' := Record(r.spec.(message := SnapshotFailed(r.op.value.kind)), None);
    assert Seen(p, Some(r'), v.release) && May(p, v, Save(r'));
    hide Seen, May, End;
    LeadsOneSave(p, v, r', false);
  }

  lemma AfterSnapshotLeads(p: Pledge, v: View, c: Cluster, r: Record)
    requires Steps(p, v, c, r, Snapshotting)
    ensures Leads(p, v, AfterSnapshot(c, r), false)
  {
    var todo := AfterSnapshot(c, r);
    if todo.write.Save? {
      assert Seen(p, Some(todo.write.record), v.release) && May(p, v, todo.write);
      hide Seen, May, End;
      LeadsOneSave(p, v, todo.write.record, false);
    } else {
      var r' := todo.rest.write.record;
      var v1 := Written(v, todo.write);
      assert Seen(p, v1.record, v1.release) && Seen(p, Some(r'), v1.release) && Seen(p, Some(Failing(r)), v.release);
      assert May(p, v, todo.write) && May(p, v1, Save(r')) && May(p, v, Save(Failing(r)));
      hide Seen, May, End;
      LeadsOneSave(p, v1, r', false);
      LeadsOneSave(p, v, Failing(r), false);
      LeadsFirst(p, v, todo.write, todo.rest, false);
    }
  }

  lemma PruneLeads(p: Pledge, v: View, c: Cluster, r: Record, keep: nat)
    requires Steps(p, v, c, r, Snapshotting)
    ensures Leads(p, v, Do(Prune(keep), AfterSnapshot(c, r)), false)
  {
    AfterSnapshotLeads(p, v, c, r);
    assert May(p, v, Prune(keep));
    hide Seen, May, End, AfterSnapshot, Leads;
    LeadsFirst(p, v, Prune(keep), AfterSnapshot(c, r), false);
  }

  lemma SnapshottingLeads(p: Pledge, v: View, c: Cluster, r: Record, keep: nat)
    requires Steps(p, v, c, r, Snapshotting)
    ensures Leads(p, v, AdvanceTodo(c, r, keep), false)
  {
    hide Leads, Seen, AfterSnapshot, AwaitJob;
    AwaitLeads(p, v, c, r);
    AbortLeads(p, v, c, r);
    PruneLeads(p, v, c, r, keep);
  }

  lemma DrainedLeads(p: Pledge, v: View, c: Cluster, r: Record, r': Record, w: Write)
    requires Steps(p, v, c, r, Draining)
    requires r' == r.(op := Some(r.op.value.(step := Seeding, job := Some(SeedJob(c.now)))))
    requires w == CreateJob(SeedJob(c.now), r.op.value.backup, Some(Write1(Save(Failing(r)))))
    ensures Leads(p, v, Write2(Save(r'), w), false)
  {
    var v1 := Written(v, Save(r'));
    assert Seen(p, Some(r'), v.release) && Seen(p, Some(Failing(r)), v.release);
    assert May(p, v, Save(r')) && May(p, v1, w) && May(p, v1, Save(Failing(r)));
    hide Seen, May, End;
    LeadsOneSave(p, v1, Failing(r), false);
    LeadsDone(p, Written(v1, w), false);
    LeadsFirst(p, v1, w, Done, false);
    LeadsFirst(p, v, Save(r'), Write1(w), false);
  }

  lemma DrainingLeads(p: Pledge, v: View, c: Cluster, r: Record, keep: nat)
    requires Steps(p, v, c, r, Draining)
    ensures Leads(p, v, AdvanceTodo(c, r, keep), false)
  {
    var todo := AdvanceTodo(c, r, keep);
    if todo.Done? {
      hide Seen;
      LeadsDone(p, v, false);
    } else {
      DrainedLeads(p, v, c, r, todo.write.record, todo.rest.write);
      hide Leads, Seen;
    }
  }

  lemma SeededLeads(p: Pledge, v: View, c: Cluster, r: Record, r': Record)
    requires Steps(p, v, c, r, Seeding)
    requires var op := r.op.value;
      && r'.op == r.op && SpecWith(r'.spec, r.spec, op.backup, op.forge) && r'.spec.message.Blank?
    ensures Leads(p, v, Write2(Upgrade(1, r'.spec, Write1(Save(Failing(r')))), Save(r'.(op := None))), false)
  {
    var w := Upgrade(1, r'.spec, Write1(Save(Failing(r'))));
    var v1 := Written(v, w);
    var stored := r'.(op := None);
    assert Seen(p, Some(r), v1.release) && Seen(p, Some(stored), v1.release) && Seen(p, Some(Failing(r')), v.release);
    assert May(p, v, w) && May(p, v1, Save(stored)) && May(p, v, Save(Failing(r')));
    hide Seen, May, End;
    LeadsOneSave(p, v1, stored, false);
    LeadsOneSave(p, v, Failing(r'), false);
    LeadsFirst(p, v, w, Write1(Save(stored)), false);
  }

  lemma FailingLeads(p: Pledge, v: View, c: Cluster, r: Record, step: Step)
    requires Steps(p, v, c, r, step)
    ensures Leads(p, v, Write1(Save(Failing(r))), false)
  {
    assert Seen(p, Some(Failing(r)), v.release) && May(p, v, Save(Failing(r)));
    hide Seen, May, End;
    LeadsOneSave(p, v, Failing(r), false);
  }

  lemma SeedingStepLeads(p: Pledge, v: View, c: Cluster, r: Record, keep: nat)
    requires Steps(p, v, c, r, Seeding)
    ensures Leads(p, v, AdvanceTodo(c, r, keep), false)
  {
    var op := r.op.value;
    AwaitLeads(p, v, c, r);
    var r' := r.(spec := r.spec.(source := op.backup, forge := if op.forge.Some? then op.forge.value else r.spec.forge,
                                 message := Blank));
    hide Seen, Leads;
    SeededLeads(p, v, c, r, r');
    FailingLeads(p, v, c, r, Seeding);
  }

  lemma ClearingLeads(p: Pledge, v: View)
    requires p.call.CallDelete? && v.release.None? && Seen(p, v.record, None) && Seen(p, None, None)
    ensures Leads(p, v, Do(DeleteJobs, Do(DeleteVolume, Do(DeleteSecret, Write1(RemoveRecord)))), false)
  {
    var v1 := Written(v, DeleteJobs);
    var v2 := Written(v1, DeleteVolume);
    var v3 := Written(v2, DeleteSecret);
    var v4 := Written(v3, RemoveRecord);
    assert v1.record == v2.record == v3.record == v.record && v4.record == None;
    assert May(p, v, DeleteJobs) && May(p, v1, DeleteVolume) && May(p, v2, DeleteSecret) && May(p, v3, RemoveRecord);
    hide Seen, May, End;
    LeadsDone(p, v4, false);
    LeadsFirst(p, v3, RemoveRecord, Done, false);
    LeadsFirst(p, v2, DeleteSecret, Write1(RemoveRecord), false);
    LeadsFirst(p, v1, DeleteVolume, Do(DeleteSecret, Write1(RemoveRecord)), false);
    LeadsFirst(p, v, DeleteJobs, Do(DeleteVolume, Do(DeleteSecret, Write1(RemoveRecord))), false);
  }

  lemma TeardownLeads(p: Pledge, v: View, c: Cluster, r: Record, keep: nat)
    requires Steps(p, v, c, r, TearingDown)
    ensures Leads(p, v, AdvanceTodo(c, r, keep), false)
  {
    var w := Uninstall(Write1(Save(Failing(r))));
    assert p.call.CallDelete? && Seen(p, v.record, None) && Seen(p, None, None) && May(p, v, w);
    FailingLeads(p, v, c, r, TearingDown);
    hide Seen, May, End, Leads;
    ClearingLeads(p, Written(v, w));
    LeadsFirst(p, v, w, Do(DeleteJobs, Do(DeleteVolume, Do(DeleteSecret, Write1(RemoveRecord)))), false);
  }

  lemma ReconcileLeads(p: Pledge, v: View, c: Cluster, r: Record, keep: nat)
    requires r.op.Some? && Steps(p, v, c, r, r.op.value.step)
    ensures Leads(p, v, AdvanceTodo(c, r, keep), false)
  {
    assert r.op.value.step.Installing? ==> p.call.CallCreate? && AdvanceTodo(c, r, keep) == InstallTodo(r);
    hide Leads, AdvanceTodo, InstallTodo;
    match r.op.value.step
    case Snapshotting => SnapshottingLeads(p, v, c, r, keep);
    case Draining => DrainingLeads(p, v, c, r, keep);
    case Seeding => SeedingStepLeads(p, v, c, r, keep);
    case Installing => InstallLeads(p, v, r, false);
    case TearingDown => TeardownLeads(p, v, c, r, keep);
  }

  /** A whitelist edit may come while an operation is pending, and says nothing of
      it. */
  lemma {:induction false} AnythingLeads(p: Pledge, v: View, todo: Todo)
    requires p.call.CallSetWhitelist?
    ensures Leads(p, v, todo, false)
    decreases todo
  {
    if todo.Do? {
      AnythingLeads(p, Written(v, todo.write), todo.rest);
      match todo.write
      case CreateJob(_, _, Some(t)) => AnythingLeads(p, v, t);
      case Upgrade(_, _, t) => AnythingLeads(p, v, t);
      case Uninstall(t) => AnythingLeads(p, v, t);
      case _ =>
    }
  }

  // ------------------------------------------------------------------- runs

  ghost predicate Pursued(p: Pledge, s: State, ok: bool) {
    exists v :: Abstracts(v, s.c) && Leads(p, v, s.todo, ok)
  }

  /** The call goes on undisturbed. */
  ghost predicate GoesOn(s: State, e: Event) {
    && !e.Begin? && !e.Crash?
    && (e.Perform? ==> e.helmOk && (s.todo.Do? && s.todo.write.CreateJob? ==> s.todo.write.job !in s.c.jobs))
  }

  lemma PlanLeads(p: Pledge, keep: nat)
    requires UserCall(p.call) && Plan(p.before, p.call, keep).Some?
    ensures Leads(p, FirstView(p.before), Plan(p.before, p.call, keep).value, true)
  {
    hide Leads, PlanExisting;
    match p.call
    case CallLaunch(_, _, _) => LaunchLeads(p, keep);
    case CallCreate(_) => CreateLeads(p, keep);
    case CallStart => StartLeads(p, keep);
    case CallStop => StartLeads(p, keep);
    case CallUpdateSettings(_) => EditLeads(p, keep);
    case CallSetWhitelist(_) => EditLeads(p, keep);
    case _ => ChainLeads(p, keep);
  }

  lemma ServiceLeads(p: Pledge, c: Cluster, call: Call, keep: nat)
    requires UserCall(p.call) && Seen(p, c.record, c.release) && !UserCall(call) && Plan(c, call, keep).Some?
    ensures Leads(p, FirstView(c), Plan(c, call, keep).value, false)
  {
    var v, todo := FirstView(c), Plan(c, call, keep).value;
    if p.call.CallSetWhitelist? {
      hide *;
      AnythingLeads(p, v, todo);
    } else if call.CallReconcile? {
      hide Leads, Seen, AdvanceTodo;
      ReconcileLeads(p, v, c, c.record.value, keep);
    } else {
      assert May(p, v, todo.write) && Seen(p, Some(todo.write.record), v.release);
      hide Seen, May, End, Leads;
      LeadsOneSave(p, v, todo.write.record, false);
    }
  }

  lemma LeadsSeen(p: Pledge, v: View, todo: Todo, ok: bool)
    requires Leads(p, v, todo, ok)
    ensures Seen(p, v.record, v.release)
    ensures todo.Do? ==> May(p, v, todo.write)
  {
  }

  lemma WrittenAbstracts(v: View, c: Cluster, w: Write)
    requires Abstracts(v, c)
    ensures Abstracts(Written(v, w), Apply(c, w))
  {
  }

  lemma PerformPursues(p: Pledge, s: State, helmOk: bool, s': State, ok: bool)
    requires Pursued(p, s, ok) && s.todo.Do? && Performed(s, s', helmOk)
    ensures Pursued(p, s', ok && GoesOn(s, Perform(helmOk)))
  {
    var v :| Abstracts(v, s.c) && Leads(p, v, s.todo, ok);
    var w := s.todo.write;
    WrittenAbstracts(v, s.c, w);
    hide Seen, May, End, Abstracts, Written, Rendered;
    if Refused(w, helmOk) || (w.CreateJob? && w.job in s.c.jobs && w.onConflict.Some?) {
      assert s'.c == s.c && Leads(p, v, s'.todo, false);
    } else {
      assert s'.c == Apply(s.c, w) && s'.todo == s.todo.rest;
      hide Apply;
      WeakerLeads(p, Written(v, w), s'.todo, ok && GoesOn(s, Perform(helmOk)), ok);
    }
  }

  lemma {:induction false} WeakerLeads(p: Pledge, v: View, todo: Todo, weak: bool, ok: bool)
    requires Leads(p, v, todo, ok) && (weak ==> ok)
    ensures Leads(p, v, todo, weak)
    decreases todo
  {
    if todo.Do? { WeakerLeads(p, Written(v, todo.write), todo.rest, weak, ok); }
    hide Seen, May, End;
  }

  lemma LossPursues(p: Pledge, s: State, s': State, ok: bool)
    requires UserCall(p.call) && Pursued(p, s, ok) && RecordLost(s, s')
    ensures Pursued(p, s', false)
  {
    var v :| Abstracts(v, s.c) && Leads(p, v, s.todo, ok);
    LeadsSeen(p, v, s.todo, ok);
    assert Seen(p, None, v.release) && Abstracts(v.(record := None), s'.c);
    hide Seen, May, End;
    LeadsDone(p, v.(record := None), false);
  }

  lemma CrashPursues(p: Pledge, s: State, s': State, ok: bool)
    requires Pursued(p, s, ok) && s' == s.(todo := Done)
    ensures Pursued(p, s', false)
  {
    var v :| Abstracts(v, s.c) && Leads(p, v, s.todo, ok);
    LeadsSeen(p, v, s.todo, ok);
    hide Seen, May, End;
    LeadsDone(p, v, false);
    assert Abstracts(v, s'.c);
  }

  lemma ServicePursues(p: Pledge, keep: nat, s: State, call: Call, s': State, ok: bool)
    requires UserCall(p.call) && !UserCall(call) && Pursued(p, s, ok) && Begins(keep, s, call, s')
    ensures Pursued(p, s', false)
  {
    var v :| Abstracts(v, s.c) && Leads(p, v, s.todo, ok);
    LeadsSeen(p, v, s.todo, ok);
    hide Seen, May, End, Plan, Leads;
    ServiceLeads(p, s.c, call, keep);
    assert Abstracts(FirstView(s.c), s'.c);
  }

  /** The cluster moves by itself: nothing the pledge speaks of changes. */
  lemma EnvironmentPursues(p: Pledge, keep: nat, atomic: bool, s: State, e: Event, s': State, ok: bool)
    requires Pursued(p, s, ok) && Next(keep, atomic, s, e, s')
    requires !e.Begin? && !e.Perform? && !e.Crash? && !e.LoseRecord?
    ensures Pursued(p, s', ok)
  {
    var v :| Abstracts(v, s.c) && Leads(p, v, s.todo, ok);
    hide Leads;
    assert Abstracts(v, s'.c) && s'.todo == s.todo;
  }

  lemma StepPursues(p: Pledge, keep: nat, atomic: bool, s: State, e: Event, s': State, ok: bool)
    requires UserCall(p.call) && Pursued(p, s, ok) && Next(keep, atomic, s, e, s')
    requires e.Begin? ==> !UserCall(e.call)
    ensures Pursued(p, s', ok && GoesOn(s, e) && !e.LoseRecord?)
  {
    hide Pursued, Begins, Performed, RecordLost;
    match e
    case Begin(call) => ServicePursues(p, keep, s, call, s', ok);
    case Perform(helmOk) => PerformPursues(p, s, helmOk, s', ok);
    case Crash => CrashPursues(p, s, s', ok);
    case LoseRecord => LossPursues(p, s, s', ok);
    case _ => EnvironmentPursues(p, keep, atomic, s, e, s', ok);
  }

  /** From the `i`-th event, which accepts this call, no other is accepted up to the
      `j`-th state. */
  ghost predicate Until(states: seq<State>, events: seq<Event>, i: nat, j: nat, call: Call) {
    && i < j < |states| == |events| + 1 && events[i] == Begin(call) && UserCall(call)
    && forall k | i < k < j :: events[k].Begin? ==> !UserCall(events[k].call)
  }

  /** ... and the call itself has gone on undisturbed. */
  ghost predicate Undisturbed(states: seq<State>, events: seq<Event>, i: nat, j: nat)
    requires j < |states| == |events| + 1
  {
    forall k | i < k < j :: GoesOn(states[k], events[k]) && !events[k].LoseRecord?
  }

  lemma {:induction false} CallIsPursued(
      keep: nat, atomic: bool, states: seq<State>, events: seq<Event>, i: nat, j: nat, call: Call)
    requires IsRun(keep, atomic, states, events) && Until(states, events, i, j, call)
    ensures Pursued(Pledge(call, states[i].c), states[j], Undisturbed(states, events, i, j))
    decreases j
  {
    var p := Pledge(call, states[i].c);
    if j == i + 1 {
      assert Next(keep, atomic, states[i], events[i], states[j]);
      PlanLeads(p, keep);
      hide Leads, Plan;
      assert Abstracts(FirstView(states[i].c), states[j].c);
    } else {
      CallIsPursued(keep, atomic, states, events, i, j - 1, call);
      assert Next(keep, atomic, states[j - 1], events[j - 1], states[j]);
      hide Pursued, Next, GoesOn;
      StepPursues(p, keep, atomic, states[j - 1], events[j - 1], states[j], Undisturbed(states, events, i, j - 1));
      assert Undisturbed(states, events, i, j) ==> Undisturbed(states, events, i, j - 1);
      if !Undisturbed(states, events, i, j) { PursuedAnyway(p, states[j]); }
    }
  }

  lemma PursuedAnyway(p: Pledge, s: State)
    ensures Pursued(p, s, true) ==> Pursued(p, s, false)
  {
    if Pursued(p, s, true) {
      var v :| Abstracts(v, s.c) && Leads(p, v, s.todo, true);
      WeakerLeads(p, v, s.todo, false, true);
    }
  }
}
