/** The service's own writes keep the invariant, one lemma for each write and part of
    it: the record that is stored, the Job that is created, the install that succeeds
    or is refused, the prune, the uninstall, the writes of a teardown, the secret and
    the volume.  The record lags behind the cluster only between an install and the
    write that notes it, and what is still owed says how it catches up. */
module LifecycleSteps {
  import opened Wrappers
  import opened Lifecycle
  import opened LifecycleRuns
  import opened LifecycleInvariant

  // ------------------------------------------------------------ single writes

  lemma SaveKeepsInv(keep: nat, atomic: bool, s: State, s': State)
    requires GoodInv(keep, atomic, s) && s.todo.Do? && s.todo.write.Save? && Performed(s, s', true)
    ensures Inv(keep, atomic, s')
  {
    assert s' == Saved(s) && SaveInv(keep, atomic, s);
    assert RecordInv(s') && PodsInv(s') && StampsInv(s');
    hide OpInv;
  }

  lemma JobKeepsCluster(s: State, s': State)
    requires ClusterInv(s) && s.todo.Do? && s.todo.write.CreateJob? && Performed(s, s', true)
    requires JobInv(s, s.todo.write.job, s.todo.write.onConflict, s.todo.rest)
    ensures ClusterInv(s') && s'.todo.Done?
  {
    assert forall k | k in s'.c.jobs :: k in s.c.jobs || k == s.todo.write.job;
  }

  lemma JobKeepsOp(keep: nat, atomic: bool, s: State, s': State)
    requires OpInv(keep, atomic, s) && s.todo.Do? && s.todo.write.CreateJob? && Performed(s, s', true)
    requires JobInv(s, s.todo.write.job, s.todo.write.onConflict, s.todo.rest)
    ensures OpInv(keep, atomic, s')
  {
    assert forall k | SeedActive(s'.c.jobs, k) :: SeedActive(s.c.jobs, k) || k == s.todo.write.job;
    assert forall k | k in s'.c.jobs :: k in s.c.jobs || k == s.todo.write.job;
  }

  lemma JobKeepsInv(keep: nat, atomic: bool, s: State, s': State)
    requires GoodInv(keep, atomic, s) && s.todo.Do? && s.todo.write.CreateJob? && Performed(s, s', true)
    ensures Inv(keep, atomic, s')
  {
    hide ClusterInv, OpInv, Performed;
    JobKeepsCluster(s, s');
    JobKeepsOp(keep, atomic, s, s');
  }

  lemma InstalledKeepsCluster(atomic: bool, s: State, s': State)
    requires ClusterInv(s) && s.todo.Do? && s.todo.write.Upgrade? && Performed(s, s', true)
    requires UpgradeInv(atomic, s, s.todo.write.replicas, s.todo.write.onFail, s.todo.rest)
    ensures ClusterInv(s')
  {
  }

  lemma InstalledKeepsOp(keep: nat, atomic: bool, s: State, s': State)
    requires OpInv(keep, atomic, s) && s.todo.Do? && s.todo.write.Upgrade? && Performed(s, s', true)
    requires UpgradeInv(atomic, s, s.todo.write.replicas, s.todo.write.onFail, s.todo.rest)
    ensures OpInv(keep, atomic, s')
  {
    assert forall k | SeedActive(s'.c.jobs, k) :: SeedActive(s.c.jobs, k);
  }

  lemma InstalledKeepsTodo(keep: nat, atomic: bool, s: State, s': State)
    requires OpInv(keep, atomic, s) && s.todo.Do? && s.todo.write.Upgrade? && Performed(s, s', true)
    requires UpgradeInv(atomic, s, s.todo.write.replicas, s.todo.write.onFail, s.todo.rest)
    ensures TodoInv(keep, atomic, s')
  {
    assert forall k | SeedActive(s'.c.jobs, k) :: SeedActive(s.c.jobs, k);
    if s'.todo.Do? {
      assert OpInv(keep, atomic, Saved(s'));
    }
  }

  /** Without a release there is nothing to be pending, so the operation may be read
      without regard to what is owed. */
  lemma OtherTodo(keep: nat, atomic: bool, s: State, s': State)
    requires s' == s.(todo := s'.todo) && OpInv(keep, atomic, s)
    requires atomic ==> !Pending(atomic, s)
    ensures OpInv(keep, atomic, s')
  {
  }

  lemma RefusedKeepsOp(keep: nat, atomic: bool, s: State, s': State)
    requires OpInv(keep, atomic, s) && s.todo.Do? && s.todo.write.Upgrade? && Performed(s, s', false)
    requires UpgradeInv(atomic, s, s.todo.write.replicas, s.todo.write.onFail, s.todo.rest)
    ensures OpInv(keep, atomic, s')
  {
    OtherTodo(keep, atomic, s, s');
  }

  lemma RefusedKeepsTodo(keep: nat, atomic: bool, s: State, s': State)
    requires OpInv(keep, atomic, s) && s.todo.Do? && s.todo.write.Upgrade? && Performed(s, s', false)
    requires UpgradeInv(atomic, s, s.todo.write.replicas, s.todo.write.onFail, s.todo.rest)
    ensures TodoInv(keep, atomic, s')
  {
    if s'.todo.Do? && (atomic || !Forgotten(Saved(s'))) {
      assert OpInv(keep, atomic, Saved(s'));
    }
  }

  lemma UpgradeKeepsInv(keep: nat, atomic: bool, s: State, helmOk: bool, s': State)
    requires GoodInv(keep, atomic, s) && s.todo.Do? && s.todo.write.Upgrade? && Performed(s, s', helmOk)
    ensures Inv(keep, atomic, s')
  {
    assert UpgradeInv(atomic, s, s.todo.write.replicas, s.todo.write.onFail, s.todo.rest);
    hide ClusterInv, OpInv, TodoInv, UpgradeInv;
    if helmOk {
      hide Performed;
      InstalledKeepsCluster(atomic, s, s');
      InstalledKeepsOp(keep, atomic, s, s');
      InstalledKeepsTodo(keep, atomic, s, s');
    } else {
      SameCluster(s, s');
      RefusedKeepsOp(keep, atomic, s, s');
      RefusedKeepsTodo(keep, atomic, s, s');
    }
  }

  lemma SameCluster(s: State, s': State)
    requires ClusterInv(s) && s' == s.(todo := s'.todo)
    ensures ClusterInv(s')
  {
  }

  // ----------------------------------------------------------------- pruning

  /** The newest stamp is never pruned as long as something is kept. */
  lemma NewestKeepsMaximum(stamps: set<Stamp>, keep: nat, t: Stamp)
    requires forall u | u in stamps :: u <= t
    ensures keep >= 1 && t in stamps ==> t in Newest(stamps, keep)
  {
    var r := Newest(stamps, keep);
    if keep >= 1 && t in stamps {
      assert r != {};
      var a :| a in r;
      assert t in r || t in stamps - r;
      assert t in stamps - r ==> t < a;
    }
  }

  ghost predicate PrunedTo(keep: nat, s: State, s': State) {
    s' == s.(c := s.c.(zips := Newest(s.c.zips, keep)))
  }

  /** Only what a snapshot stamp says can be hurt by a prune. */
  lemma PruneKeepsOp(keep: nat, atomic: bool, s: State, s': State)
    requires OpInv(keep, atomic, s) && PrunedTo(keep, s, s') && s.c.record.Some?
    requires var op := s.c.record.value.op;
      op.Some? && op.value.snap.Some? && keep >= 1 && op.value.snap.value in s.c.zips ==>
        op.value.snap.value in s'.c.zips
    ensures OpInv(keep, atomic, s')
  {
  }

  lemma PruneKeepsTodo(keep: nat, atomic: bool, s: State, s': State)
    requires StampsInv(s) && TodoInv(keep, atomic, s) && s.todo.Do? && PrunedTo(keep, s, s')
    requires s.todo.write.Upgrade? || (s.todo.write.Save? && s.todo.rest.Done?)
    requires s.todo.write.Save? && s.todo.write.record.op.Some? ==>
      var op := s.todo.write.record.op.value;
      op.snap.Some? && keep >= 1 && op.snap.value in s.c.zips ==> op.snap.value in s'.c.zips
    ensures TodoInv(keep, atomic, s')
  {
    hide OpInv;
    if s.todo.write.Save? {
      assert SaveInv(keep, atomic, s) && s'.todo == s.todo;
      if atomic || !Forgotten(Saved(s)) {
        PruneKeepsOp(keep, atomic, Saved(s), Saved(s'));
      } else {
        assert Forgotten(Saved(s'));
      }
      assert SaveInv(keep, atomic, s');
    } else if s.todo.write.Upgrade? {
      PruneKeepsUpgrade(atomic, s, s', keep);
      hide UpgradeInv;
    }
  }

  lemma PruneKeepsUpgrade(atomic: bool, s: State, s': State, keep: nat)
    requires s.todo.Do? && s.todo.write.Upgrade? && PrunedTo(keep, s, s')
    requires UpgradeInv(atomic, s, s.todo.write.replicas, s.todo.write.onFail, s.todo.rest)
    ensures UpgradeInv(atomic, s', s.todo.write.replicas, s.todo.write.onFail, s.todo.rest)
  {
  }

  lemma PruneKeepsCluster(keep: nat, s: State, s': State)
    requires ClusterInv(s) && s' == s.(c := s.c.(zips := Newest(s.c.zips, keep)), todo := s'.todo)
    ensures ClusterInv(s')
  {
  }

  lemma PerformedPruneKeepsInv(keep: nat, atomic: bool, s: State, s': State)
    requires GoodInv(keep, atomic, s) && s.todo.Do? && s.todo.write.Prune? && Performed(s, s', true)
    ensures Inv(keep, atomic, s')
  {
    var op, rest := s.c.record.value.op.value, s.todo.rest;
    var h := Skipped(s);
    assert PruneInv(keep, s, s.todo.write.keep, rest) && TodoInv(keep, atomic, h);
    assert SnapInv(keep, s, op) && PrunedTo(keep, h, s');
    if op.snap.Some? { NewestKeepsMaximum(s.c.zips, keep, op.snap.value); }
    assert !s.todo.write.Save? && ClusterInv(s) && StampsInv(h);
    hide OpInv, TodoInv;
    OtherTodo(keep, atomic, s, h);
    PruneKeepsCluster(keep, s, s');
    PruneKeepsOp(keep, atomic, h, s');
    PruneKeepsTodo(keep, atomic, h, s');
  }

  // ---------------------------------------------------------------- teardown

  lemma UninstallKeepsInv(keep: nat, atomic: bool, s: State, helmOk: bool, s': State)
    requires GoodInv(keep, atomic, s) && s.todo.Do? && s.todo.write.Uninstall? && Performed(s, s', helmOk)
    requires s.c.release.None? ==> helmOk
    ensures Inv(keep, atomic, s')
  {
    if helmOk {
      UninstalledKeepsInv(keep, atomic, s, s');
    } else {
      UninstallRefusedKeepsInv(keep, atomic, s, s');
    }
  }

  lemma UninstalledKeepsInv(keep: nat, atomic: bool, s: State, s': State)
    requires GoodInv(keep, atomic, s) && s.todo.Do? && s.todo.write.Uninstall? && Performed(s, s', true)
    ensures GoodInv(keep, atomic, s')
  {
    assert forall k | SeedActive(s'.c.jobs, k) :: SeedActive(s.c.jobs, k);
  }

  lemma UninstallRefusedKeepsInv(keep: nat, atomic: bool, s: State, s': State)
    requires GoodInv(keep, atomic, s) && s.todo.Do? && s.todo.write.Uninstall? && Performed(s, s', false)
    requires s.c.release.Some?
    ensures GoodInv(keep, atomic, s')
  {
    assert UninstallInv(s, s.todo.write.onFail, s.todo.rest);
    SameCluster(s, s');
    OtherTodo(keep, atomic, s, s');
    hide ClusterInv;
    assert OpInv(keep, atomic, Saved(s')) && Saved(s').todo.Done?;
    hide OpInv;
    assert TodoInv(keep, atomic, Saved(s'));
    assert SaveInv(keep, atomic, s');
  }

  ghost predicate TearsDown(w: Write) {
    w.DeleteJobs? || w.DeleteVolume? || w.DeleteSecret? || w.RemoveRecord?
  }

  lemma TeardownKeepsCluster(s: State, s': State)
    requires ClusterInv(s) && s.todo.Do? && TearsDown(s.todo.write) && TeardownInv(s) && Performed(s, s', true)
    ensures ClusterInv(s')
  {
  }

  lemma TeardownKeepsOp(keep: nat, atomic: bool, s: State, s': State)
    requires OpInv(keep, atomic, s) && s.todo.Do? && TearsDown(s.todo.write) && TeardownInv(s) && Performed(s, s', true)
    ensures OpInv(keep, atomic, s')
  {
    assert forall k | SeedActive(s'.c.jobs, k) :: SeedActive(s.c.jobs, k);
  }

  lemma TeardownKeepsTodo(keep: nat, atomic: bool, s: State, s': State)
    requires s.todo.Do? && TearsDown(s.todo.write) && TeardownInv(s) && Performed(s, s', true)
    ensures TodoInv(keep, atomic, s')
  {
    assert s'.todo.Do? ==> TeardownInv(s') && TearsDown(s'.todo.write);
  }

  lemma TeardownKeepsInv(keep: nat, atomic: bool, s: State, s': State)
    requires GoodInv(keep, atomic, s) && s.todo.Do? && TearsDown(s.todo.write) && Performed(s, s', true)
    ensures Inv(keep, atomic, s')
  {
    assert TeardownInv(s);
    hide ClusterInv, OpInv, TodoInv;
    TeardownKeepsCluster(s, s');
    TeardownKeepsOp(keep, atomic, s, s');
    TeardownKeepsTodo(keep, atomic, s, s');
  }

  // ------------------------------------------------------- secret and volume

  lemma SecretKeepsInv(keep: nat, atomic: bool, s: State, s': State)
    requires GoodInv(keep, atomic, s) && s.todo.Do? && s.todo.write.CreateSecret? && Performed(s, s', true)
    ensures Inv(keep, atomic, s')
  {
    var h := Skipped(s);
    assert s' == h.(c := h.c.(secret := true));
    assert TodoInv(keep, atomic, h);
    OtherTodo(keep, atomic, s, h);
    assert ClusterInv(h) by { SameCluster(s, h); }
    hide ClusterInv, OpInv, TodoInv;
    SecretMoves(h, s');
    MovedKeepsOp(keep, atomic, h, s');
    MovedKeepsTodo(keep, atomic, h, s');
  }

  /** A secret bears on nothing. */
  lemma SecretMoves(s: State, s': State)
    requires s' == s.(c := s.c.(secret := true)) && ClusterInv(s)
    ensures MovedOn(s, s') && ClusterInv(s')
  {
  }

  lemma VolumeKeepsInv(keep: nat, atomic: bool, s: State, s': State)
    requires GoodInv(keep, atomic, s) && s.todo.Do? && s.todo.write.CreateVolume? && Performed(s, s', true)
    ensures Inv(keep, atomic, s')
  {
    assert s' == Made(s) && TodoInv(keep, atomic, s');
    hide TodoInv;
    VolumeKeepsCluster(s, s');
    VolumeKeepsOp(keep, atomic, s, s');
  }

  lemma VolumeKeepsCluster(s: State, s': State)
    requires ClusterInv(s) && s.c.record.Some? && s' == s.(c := s.c.(volume := Bound), todo := s'.todo)
    ensures ClusterInv(s')
  {
  }

  lemma VolumeKeepsOp(keep: nat, atomic: bool, s: State, s': State)
    requires OpInv(keep, atomic, s) && !InstallUnrecorded(s) && s' == s.(c := s.c.(volume := Bound), todo := s'.todo)
    ensures OpInv(keep, atomic, s')
  {
  }

  lemma PerformKeepsInv(keep: nat, atomic: bool, s: State, helmOk: bool, s': State)
    requires GoodInv(keep, atomic, s) && s.todo.Do? && Performed(s, s', helmOk)
    requires s.todo.write.Uninstall? && s.c.release.None? ==> helmOk
    ensures Inv(keep, atomic, s')
  {
    hide GoodInv, Inv;
    var w := s.todo.write;
    if w.Upgrade? {
      UpgradeKeepsInv(keep, atomic, s, helmOk, s');
    } else if w.Uninstall? {
      UninstallKeepsInv(keep, atomic, s, helmOk, s');
      GoodIsInv(keep, atomic, s');
    } else {
      assert Performed(s, s', true);
      hide Performed;
      match w
      case Save(_) => SaveKeepsInv(keep, atomic, s, s');
      case CreateJob(_, _, _) => JobKeepsInv(keep, atomic, s, s');
      case Prune(_) => PerformedPruneKeepsInv(keep, atomic, s, s');
      case CreateSecret => SecretKeepsInv(keep, atomic, s, s');
      case CreateVolume => VolumeKeepsInv(keep, atomic, s, s');
      case _ => TeardownKeepsInv(keep, atomic, s, s');
    }
  }

  lemma GoodIsInv(keep: nat, atomic: bool, s: State)
    ensures GoodInv(keep, atomic, s) ==> Inv(keep, atomic, s)
    ensures Inv(keep, atomic, s) && (atomic || !Forgotten(s)) ==> GoodInv(keep, atomic, s)
  {
  }
}
