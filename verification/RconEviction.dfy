/** Every interleaving of the threads that share one slot: runs hold its lock,
    evictions and the idle sweep never wait for it. */
module RconEviction {
  import opened Wrappers

  type Time = nat

  /** Where a thread is.  `since` is when a run got the lock, `at` when an
      eviction was called. */
  datatype Thread =
    | Elsewhere
    | Waiting
    | Checking(since: Time)
    | Between(since: Time)
    | Dialling(since: Time, start: Time)
    | Sending(since: Time, conn: nat)
    | RunHalfDropped(since: Time)
    | Evicting(at: Time)
    | Marking(at: Time)
    | Holding(at: Time)
    | HalfDropped(at: Time)
    | Effective(at: Time)
    | Sweeping
    | SweepHalfDropped

  datatype Eviction = Eviction(called: Time, returned: Time)

  datatype State = State(
    clock: Time,
    holder: Option<nat>,
    client: Option<nat>,
    pending: bool,
    started: map<nat, Time>,  // when each connection was opened
    threads: map<nat, Thread>,
    evictions: set<Eviction>)

  datatype Event =
    | CallRun | Acquire | PassCheck | FailCheck | ProbeFails | ClearFlag
    | Dial | DialFails | DialSucceeds(conn: nat) | Send | Reply | SendFails | Leave
    | CallEvict | TryLock | Mark | DropClient | Return
    | CallSweep | SweepPasses | SweepDrops

  ghost predicate Init(s: State) {
    && s.clock == 0 && s.holder.None? && s.client.None? && !s.pending
    && s.started == map[] && s.threads == map[] && s.evictions == {}
  }

  ghost function At(s: State, t: nat): Thread {
    if t in s.threads then s.threads[t] else Elsewhere
  }

  // An eviction may set the pending flag without the lock, and a drop takes two
  // separate writes, first the connection and then the flag.

  /** The slot after thread `t` moved to `th`; every step takes time. */
  ghost function Moved(s: State, t: nat, th: Thread): State {
    s.(threads := s.threads[t := th], clock := s.clock + 1)
  }

  /** Getting the lock and checking what is in the slot. */
  ghost predicate EnterNext(s: State, t: nat, e: Event, s': State) {
    var th := At(s, t);
    match e
    case CallRun =>
      th.Elsewhere? && s' == Moved(s, t, Waiting)
    case Acquire =>
      th.Waiting? && s.holder.None? && s' == Moved(s, t, Checking(s.clock)).(holder := Some(t))
    case PassCheck =>
      th.Checking? && !s.pending && s' == Moved(s, t, Between(th.since))
    case FailCheck =>  // marked, or opened for another endpoint
      th.Checking? && (s.pending || s.client.Some?)
      && s' == Moved(s, t, RunHalfDropped(th.since)).(client := None)
    case _ => false
  }

  /** Probing a connection, dropping it and opening another. */
  ghost predicate DialNext(s: State, t: nat, e: Event, s': State) {
    var th := At(s, t);
    match e
    case ProbeFails =>
      th.Between? && s.client.Some?
      && s' == Moved(s, t, RunHalfDropped(th.since)).(client := None)
    case ClearFlag =>
      th.RunHalfDropped? && s' == Moved(s, t, Between(th.since)).(pending := false)
    case Dial =>
      th.Between? && s.client.None? && s' == Moved(s, t, Dialling(th.since, s.clock))
    case DialFails =>
      th.Dialling? && s' == Moved(s, t, Elsewhere).(holder := None)
    case DialSucceeds(c) =>
      th.Dialling? && c !in s.started
      && s' == Moved(s, t, Between(th.since)).(client := Some(c), started := s.started[c := th.start])
    case _ => false
  }

  /** Sending commands, and the end of a run. */
  ghost predicate SendNext(s: State, t: nat, e: Event, s': State) {
    var th := At(s, t);
    match e
    case Send =>
      th.Between? && s.client.Some? && s' == Moved(s, t, Sending(th.since, s.client.value))
    case Reply =>
      th.Sending? && s' == Moved(s, t, Between(th.since))
    case SendFails =>
      th.Sending? && s' == Moved(s, t, RunHalfDropped(th.since)).(client := None)
    case Leave =>
      th.Between? && s' == Moved(s, t, Elsewhere).(holder := None)
    case _ => false
  }

  ghost predicate RunNext(s: State, t: nat, e: Event, s': State) {
    EnterNext(s, t, e, s') || DialNext(s, t, e, s') || SendNext(s, t, e, s')
  }

  ghost predicate EvictNext(s: State, t: nat, e: Event, s': State) {
    var th := At(s, t);
    match e
    case CallEvict =>
      th.Elsewhere? && s' == Moved(s, t, Evicting(s.clock))
    case TryLock =>
      th.Evicting?
      && s' == if s.holder.None? then Moved(s, t, Holding(th.at)).(holder := Some(t)) else Moved(s, t, Marking(th.at))
    case Mark =>
      th.Marking? && s' == Moved(s, t, Effective(th.at)).(pending := true)
    case DropClient =>
      th.Holding? && s' == Moved(s, t, HalfDropped(th.at)).(client := None)
    case ClearFlag =>
      th.HalfDropped? && s' == Moved(s, t, Effective(th.at)).(pending := false)
    case Return =>
      th.Effective?
      && s' == Moved(s, t, Elsewhere).(
           evictions := s.evictions + {Eviction(th.at, s.clock)},
           holder := if s.holder == Some(t) then None else s.holder)
    case _ => false
  }

  ghost predicate SweepNext(s: State, t: nat, e: Event, s': State) {
    var th := At(s, t);
    match e
    case CallSweep =>
      th.Elsewhere? && s.holder.None? && s' == Moved(s, t, Sweeping).(holder := Some(t))
    case SweepPasses =>
      th.Sweeping? && s' == Moved(s, t, Elsewhere).(holder := None)
    case SweepDrops =>
      th.Sweeping? && s.client.Some? && s' == Moved(s, t, SweepHalfDropped).(client := None)
    case ClearFlag =>
      th.SweepHalfDropped? && s' == Moved(s, t, Elsewhere).(pending := false, holder := None)
    case _ => false
  }

  ghost predicate Next(s: State, t: nat, e: Event, s': State) {
    RunNext(s, t, e, s') || EvictNext(s, t, e, s') || SweepNext(s, t, e, s')
  }

  datatype Move = Move(thread: nat, event: Event)

  ghost predicate IsRun(states: seq<State>, moves: seq<Move>) {
    && |states| == |moves| + 1
    && Init(states[0])
    && forall i | 0 <= i < |moves| :: Next(states[i], moves[i].thread, moves[i].event, states[i + 1])
  }

  // -------------------------------------------------------------- invariant

  ghost predicate OnlyWithLock(th: Thread) {
    th.Checking? || th.Between? || th.Dialling? || th.Sending? || th.RunHalfDropped?
    || th.Holding? || th.HalfDropped? || th.Sweeping? || th.SweepHalfDropped?
  }

  ghost predicate LockInv(s: State) {
    && (forall t | t in s.threads && OnlyWithLock(s.threads[t]) :: s.holder == Some(t))
    && (s.holder.Some? ==> OnlyWithLock(At(s, s.holder.value)) || At(s, s.holder.value).Effective?)
  }

  /** No connection can be in the slot while a thread is half-way through a drop
      or is opening one. */
  ghost predicate EmptyInv(s: State) {
    && (forall t | t in s.threads && (s.threads[t].RunHalfDropped? || s.threads[t].HalfDropped?
          || s.threads[t].SweepHalfDropped? || s.threads[t].Dialling?) :: s.client.None?)
    && (forall t | t in s.threads && s.threads[t].Sending? :: s.client == Some(s.threads[t].conn))
    && (s.client.Some? ==> s.client.value in s.started)
  }

  /** A connection started at `start` is newer than every eviction that has
      taken effect, or is marked. */
  ghost predicate Covered(s: State, start: Time) {
    s.pending ||
    ((forall e | e in s.evictions :: e.called <= start) &&
     (forall t | t in s.threads && s.threads[t].Effective? :: s.threads[t].at <= start))
  }

  /** ... or at least newer than every eviction that returned by `since`. */
  ghost predicate NewerThan(s: State, start: Time, since: Time) {
    forall e | e in s.evictions && e.returned <= since :: e.called <= start
  }

  ghost predicate FenceInv(s: State) {
    && (s.client.Some? && s.client.value in s.started ==> Covered(s, s.started[s.client.value]))
    && (forall t | t in s.threads ::
          match s.threads[t]
          case Between(since) =>
            s.client.Some? && s.client.value in s.started ==> NewerThan(s, s.started[s.client.value], since)
          case Sending(since, c) => c in s.started && NewerThan(s, s.started[c], since)
          case Dialling(since, start) => Covered(s, start) && NewerThan(s, start, since)
          case _ => true)
  }

  ghost predicate ClockInv(s: State) {
    && (forall e | e in s.evictions :: e.called < s.clock && e.returned < s.clock)
    && (forall t | t in s.threads ::
          match s.threads[t]
          case Checking(since) => since < s.clock
          case Between(since) => since < s.clock
          case Sending(since, _) => since < s.clock
          case RunHalfDropped(since) => since < s.clock
          case Dialling(since, start) => since < s.clock && start < s.clock
          case Evicting(at) => at < s.clock
          case Marking(at) => at < s.clock
          case Holding(at) => at < s.clock
          case HalfDropped(at) => at < s.clock
          case Effective(at) => at < s.clock
          case _ => true)
  }

  ghost predicate Inv(s: State) {
    LockInv(s) && EmptyInv(s) && FenceInv(s) && ClockInv(s)
  }

  lemma EnterKeepsSlot(s: State, t: nat, e: Event, s': State)
    requires Inv(s) && EnterNext(s, t, e, s')
    ensures LockInv(s') && EmptyInv(s')
  {
    hide FenceInv, ClockInv;
  }

  lemma EnterKeepsClock(s: State, t: nat, e: Event, s': State)
    requires Inv(s) && EnterNext(s, t, e, s')
    ensures ClockInv(s')
  {
    hide EmptyInv, FenceInv;
  }

  lemma EnterKeepsFence(s: State, t: nat, e: Event, s': State)
    requires Inv(s) && EnterNext(s, t, e, s')
    ensures FenceInv(s')
  {
  }

  lemma DialKeepsSlot(s: State, t: nat, e: Event, s': State)
    requires Inv(s) && DialNext(s, t, e, s')
    ensures LockInv(s') && EmptyInv(s')
  {
    hide FenceInv, ClockInv;
  }

  lemma DialKeepsClock(s: State, t: nat, e: Event, s': State)
    requires Inv(s) && DialNext(s, t, e, s')
    ensures ClockInv(s')
  {
    hide EmptyInv, FenceInv;
  }

  lemma DialKeepsFence(s: State, t: nat, e: Event, s': State)
    requires Inv(s) && DialNext(s, t, e, s')
    ensures FenceInv(s')
  {
  }

  lemma SendKeepsRest(s: State, t: nat, e: Event, s': State)
    requires Inv(s) && SendNext(s, t, e, s')
    ensures LockInv(s') && EmptyInv(s') && ClockInv(s')
  {
    hide FenceInv;
  }

  lemma SendKeepsFence(s: State, t: nat, e: Event, s': State)
    requires Inv(s) && SendNext(s, t, e, s')
    ensures FenceInv(s')
  {
  }

  lemma SweepKeepsRest(s: State, t: nat, e: Event, s': State)
    requires Inv(s) && SweepNext(s, t, e, s')
    ensures LockInv(s') && EmptyInv(s') && ClockInv(s')
  {
    hide FenceInv;
  }

  lemma SweepKeepsFence(s: State, t: nat, e: Event, s': State)
    requires Inv(s) && SweepNext(s, t, e, s')
    ensures FenceInv(s')
  {
  }

  lemma EvictKeepsLock(s: State, t: nat, e: Event, s': State)
    requires Inv(s) && EvictNext(s, t, e, s')
    ensures LockInv(s')
  {
    hide EmptyInv, FenceInv, ClockInv;
  }

  lemma EvictKeepsEmpty(s: State, t: nat, e: Event, s': State)
    requires Inv(s) && EvictNext(s, t, e, s')
    ensures EmptyInv(s')
  {
    hide FenceInv, ClockInv;
  }

  lemma EvictKeepsFence(s: State, t: nat, e: Event, s': State)
    requires Inv(s) && EvictNext(s, t, e, s')
    ensures FenceInv(s')
  {
    if e.Return? {
      ReturnKeepsFence(s, t, s');
    } else if e.CallEvict? || e.TryLock? || e.Mark? {
      MarkKeepsFence(s, t, e, s');
    } else {
      DropKeepsFence(s, t, e, s');
    }
    hide Inv, EvictNext;
  }

  lemma ReturnKeepsFence(s: State, t: nat, s': State)
    requires Inv(s) && EvictNext(s, t, Return, s')
    ensures FenceInv(s')
  {
    hide EmptyInv, LockInv;
  }

  lemma MarkKeepsFence(s: State, t: nat, e: Event, s': State)
    requires Inv(s) && EvictNext(s, t, e, s') && (e.CallEvict? || e.TryLock? || e.Mark?)
    ensures FenceInv(s')
  {
    hide EmptyInv, LockInv;
  }

  lemma DropKeepsFence(s: State, t: nat, e: Event, s': State)
    requires Inv(s) && EvictNext(s, t, e, s') && (e.DropClient? || e.ClearFlag?)
    ensures FenceInv(s')
  {
    hide ClockInv;
  }

  lemma EvictKeepsClock(s: State, t: nat, e: Event, s': State)
    requires Inv(s) && EvictNext(s, t, e, s')
    ensures ClockInv(s')
  {
    hide EmptyInv, FenceInv;
  }

  lemma {:induction false} ReachableInv(states: seq<State>, moves: seq<Move>, i: nat)
    requires IsRun(states, moves) && i < |states|
    ensures Inv(states[i])
  {
    if i > 0 {
      ReachableInv(states, moves, i - 1);
      var s, t, e, s' := states[i - 1], moves[i - 1].thread, moves[i - 1].event, states[i];
      hide LockInv, EmptyInv, FenceInv, ClockInv, EnterNext, DialNext, SendNext, EvictNext, SweepNext;
      if EnterNext(s, t, e, s') {
        EnterKeepsSlot(s, t, e, s');
        EnterKeepsClock(s, t, e, s');
        EnterKeepsFence(s, t, e, s');
      } else if DialNext(s, t, e, s') {
        DialKeepsSlot(s, t, e, s');
        DialKeepsClock(s, t, e, s');
        DialKeepsFence(s, t, e, s');
      } else if SendNext(s, t, e, s') {
        SendKeepsRest(s, t, e, s');
        SendKeepsFence(s, t, e, s');
      } else if EvictNext(s, t, e, s') {
        EvictKeepsLock(s, t, e, s');
        EvictKeepsEmpty(s, t, e, s');
        EvictKeepsFence(s, t, e, s');
        EvictKeepsClock(s, t, e, s');
      } else {
        SweepKeepsRest(s, t, e, s');
        SweepKeepsFence(s, t, e, s');
      }
    }
  }

  // ----------------------------------------------------------- main results

  /** A run that got the lock after an eviction had returned never sends on a
      connection opened before that eviction was called. */
  lemma EvictedConnectionIsNeverReused(states: seq<State>, moves: seq<Move>, i: nat, t: nat)
    requires IsRun(states, moves) && i < |states|
    requires At(states[i], t).Sending?
    ensures var s, th := states[i], At(states[i], t);
      && th.conn in s.started
      && forall e | e in s.evictions && e.returned <= th.since :: e.called <= s.started[th.conn]
  {
    ReachableInv(states, moves, i);
  }

  /** Two commands are never in flight at once, least of all on one connection. */
  lemma CommandsNeverOverlap(states: seq<State>, moves: seq<Move>, i: nat, t: nat, u: nat)
    requires IsRun(states, moves) && i < |states|
    requires At(states[i], t).Sending? && At(states[i], u).Sending?
    ensures t == u
  {
    ReachableInv(states, moves, i);
  }

  /** An eviction never waits: whatever the other threads do, its next step is
      always possible. */
  lemma EvictionNeverBlocks(states: seq<State>, moves: seq<Move>, i: nat, t: nat)
    requires IsRun(states, moves) && i < |states|
    requires var th := At(states[i], t);
      th.Evicting? || th.Marking? || th.Holding? || th.HalfDropped? || th.Effective?
    ensures exists e, s' :: EvictNext(states[i], t, e, s')
  {
    var s, th := states[i], At(states[i], t);
    match th
    case Evicting(at) =>
      var s' := if s.holder.None? then Moved(s, t, Holding(at)).(holder := Some(t)) else Moved(s, t, Marking(at));
      assert EvictNext(s, t, TryLock, s');
    case Marking(at) =>
      assert EvictNext(s, t, Mark, Moved(s, t, Effective(at)).(pending := true));
    case Holding(at) =>
      assert EvictNext(s, t, DropClient, Moved(s, t, HalfDropped(at)).(client := None));
    case HalfDropped(at) =>
      assert EvictNext(s, t, ClearFlag, Moved(s, t, Effective(at)).(pending := false));
    case Effective(at) =>
      assert EvictNext(s, t, Return, Moved(s, t, Elsewhere).(
        evictions := s.evictions + {Eviction(at, s.clock)},
        holder := if s.holder == Some(t) then None else s.holder));
  }
}
