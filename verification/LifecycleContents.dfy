/** What is on the volume when a seed is over, and in the store when a snapshot is. */
module LifecycleContents {
  import opened Wrappers
  import opened Lifecycle
  import opened LifecycleRuns
  import opened LifecycleInvariant
  import opened LifecycleSteps
  import opened LifecycleBegins
  import opened LifecycleSafety
  import opened LifecyclePledge
  import opened LifecycleIntent
  import opened LifecycleTold

  /** Whenever an operation is over because its seed has succeeded, what was last
      extracted onto the volume is its backup. */
  lemma SeedEndsOnItsBackup(keep: nat, atomic: bool, states: seq<State>, events: seq<Event>, j: nat)
    requires IsRun(keep, atomic, states, events) && j < |events| && (atomic || NeverForgotten(states, j + 1))
    requires Ends(states, j, Seeding)
    ensures states[j + 1].holds == Some(PendingOp(states[j].c.record).backup)
  {
    ReachableContent(keep, atomic, states, events, j);
    RecordIsWritten(keep, atomic, states[j], events[j], states[j + 1]);
    assert SeedDone(states[j]) && Next(keep, atomic, states[j], events[j], states[j + 1]);
  }

  /** So a restore ends with its backup on the volume, in the record and in the release. */
  lemma RestoreEndsOnItsBackup(
      keep: nat, atomic: bool, states: seq<State>, events: seq<Event>, i: nat, j: nat, backup: string, forge: string)
    requires IsRun(keep, atomic, states, events) && Until(states, events, i, j, CallRestore(backup, forge))
    requires j < |events| && (atomic || NeverForgotten(states, j + 1)) && Ends(states, j, Seeding)
    ensures states[j + 1].holds == Some(backup)
    ensures states[j + 1].c.record.value.spec.source == backup
    ensures states[j + 1].c.release.Some? && states[j + 1].c.release.value.source == backup
  {
    hide IsRun, Until;
    SeedEndsOnItsBackup(keep, atomic, states, events, j);
    RestoreBringsItsBackup(keep, atomic, states, events, i, j, backup, forge);
  }

  /** And a launch with the backup it was launched from. */
  lemma LaunchEndsOnItsBackup(
      keep: nat, atomic: bool, states: seq<State>, events: seq<Event>, i: nat, j: nat,
      backup: string, forge: string, settings: string)
    requires IsRun(keep, atomic, states, events)
    requires Until(states, events, i, j, CallLaunch(backup, forge, settings))
    requires j < |events| && (atomic || NeverForgotten(states, j + 1)) && Ends(states, j, Seeding)
    ensures states[j + 1].holds == Some(backup)
  {
    hide IsRun, Until;
    SeedEndsOnItsBackup(keep, atomic, states, events, j);
    LaunchEndsAsAsked(keep, atomic, states, events, i, j, backup, forge, settings);
  }

  /** A snapshot step that is left without a failure on record has its snapshot. */
  lemma SnapshotEndsWithItsFile(keep: nat, atomic: bool, states: seq<State>, events: seq<Event>, j: nat)
    requires IsRun(keep, atomic, states, events) && j < |events| && (atomic || NeverForgotten(states, j + 1))
    requires Ends(states, j, Snapshotting) && !states[j + 1].c.record.value.spec.message.SnapshotFailed?
    ensures var op := PendingOp(states[j].c.record);
      op.snap.Some? && op.snap.value in states[j + 1].taken
  {
    ReachableContent(keep, atomic, states, events, j);
    RecordIsWritten(keep, atomic, states[j], events[j], states[j + 1]);
    assert SnapshotDone(states[j]) && Next(keep, atomic, states[j], events[j], states[j + 1]);
  }
}
