/** The retry rule of a batch, which must never run a command twice by accident. */
module RconPool {
  import opened Wrappers

  const MAX_COMMAND := 1446

  type Key = string
  type Target = string

  /** How one command on an open connection ends.  `ran` says whether the server
      got to execute it although the client never saw the reply. */
  datatype Outcome =
    | Replied(reply: string)
    | Unsent
    | RconFailure(ran: bool)
    | OtherFailure(ran: bool)

  /** What the world does to one attempt: the liveness probe of a reused
      connection, the result of a connect if one is needed, and the command. */
  datatype Fate = Fate(alive: bool, connects: bool, outcome: Outcome)

  datatype Executed = Executed(command: string, reply: Option<string>)

  datatype Result = Answers(answers: seq<string>) | TooLong | Raised

  // -------------------------------------------------------- the retry rule

  /** The state of one batch: the slot's connection, how many connections were
      ever dialled, what the server executed, the replies so far, and the
      attempts used. */
  datatype Batch = Batch(
    client: Option<nat>, dials: nat, log: seq<Executed>,
    out: seq<string>, attempts: nat, retried: bool, lastUsed: int)

  function LogOf(command: string, outcome: Outcome): seq<Executed> {
    match outcome
    case Replied(reply) => [Executed(command, Some(reply))]
    case Unsent => []
    case RconFailure(ran) => if ran then [Executed(command, None)] else []
    case OtherFailure(ran) => if ran then [Executed(command, None)] else []
  }

  predicate Reuses(b: Batch, fate: Fate) {
    b.client.Some? && fate.alive
  }

  predicate Retries(b: Batch, fate: Fate, retrySent: bool) {
    Reuses(b, fate) && !b.retried && (fate.outcome.Unsent? || (retrySent && fate.outcome.RconFailure?))
  }

  /** One attempt at the next command, and whether the batch goes on. */
  function Attempt(b: Batch, command: string, retrySent: bool, fate: Fate, now: int): (Batch, bool) {
    var b1 := b.(attempts := b.attempts + 1);
    if !Reuses(b, fate) && !fate.connects then (b1.(client := None), false)
    else
      var b2 := if Reuses(b, fate) then b1 else b1.(client := Some(b.dials), dials := b.dials + 1);
      var b3 := b2.(log := b2.log + LogOf(command, fate.outcome));
      if fate.outcome.Replied? then (b3.(out := b3.out + [fate.outcome.reply], lastUsed := now), true)
      else if Retries(b, fate, retrySent) then (b3.(client := None, retried := true), true)
      else (b3.(client := None), false)
  }

  /** The rest of a batch, and whether it ended with every reply. */
  function Finish(b: Batch, cmds: seq<string>, retrySent: bool, fates: nat -> Fate, clock: nat -> int): (Batch, bool)
    requires |b.out| <= |cmds|
    decreases |cmds| - |b.out|, if b.retried then 0 else 1
  {
    if |b.out| == |cmds| then (b, true)
    else
      var (b', more) := Attempt(b, cmds[|b.out|], retrySent, fates(b.attempts), clock(b.attempts));
      if more then Finish(b', cmds, retrySent, fates, clock) else (b', false)
  }

  function Commands(log: seq<Executed>): seq<string> {
    seq(|log|, i requires 0 <= i < |log| => log[i].command)
  }

  function Answered(cmds: seq<string>, replies: seq<string>): seq<Executed>
    requires |cmds| == |replies|
  {
    seq(|cmds|, i requires 0 <= i < |cmds| => Executed(cmds[i], Some(replies[i])))
  }

  /** So far every command ran once, in order, and `out` holds its reply. */
  ghost predicate InStep(b: Batch, cmds: seq<string>, base: seq<Executed>) {
    |b.out| <= |cmds| && b.log == base + Answered(cmds[..|b.out|], b.out)
  }

  /** The server executed `cmds[..n]` and nothing else. */
  ghost predicate RanOnce(b: Batch, cmds: seq<string>, base: seq<Executed>, n: nat) {
    n <= |cmds| && base <= b.log && Commands(b.log[|base|..]) == cmds[..n]
  }

  /** The server executed `cmds[..n]` and nothing else, except that it ran the
      d-th of them twice in a row. */
  ghost predicate RanOnceButFor(b: Batch, cmds: seq<string>, base: seq<Executed>, d: nat, n: nat) {
    0 < d <= n + 1 && d <= |cmds| && n <= |cmds| && base <= b.log
    && Commands(b.log[|base|..]) == cmds[..d] + cmds[d - 1..n]
  }

  lemma LogGrows(log: seq<Executed>, base: seq<Executed>, before: seq<Executed>, step: seq<Executed>)
    requires log == base + before
    ensures base <= log + step && (log + step)[|base|..] == before + step && log[|base|..] == before
    ensures log + step == base + (before + step)
    ensures Commands(before + step) == Commands(before) + Commands(step)
  {
  }

  lemma AnsweredGrows(cmds: seq<string>, out: seq<string>, reply: string)
    requires |out| < |cmds|
    ensures var n := |out|;
      && Answered(cmds[..n], out) + [Executed(cmds[n], Some(reply))] == Answered(cmds[..n + 1], out + [reply])
      && Commands(Answered(cmds[..n], out)) == cmds[..n]
      && cmds[..n] + [cmds[n]] == cmds[..n + 1]
  {
  }

  lemma AttemptKeepsStep(b: Batch, cmds: seq<string>, retrySent: bool, fate: Fate, now: int, base: seq<Executed>)
    requires InStep(b, cmds, base) && |b.out| < |cmds|
    ensures var (b', more) := Attempt(b, cmds[|b.out|], retrySent, fate, now);
      var n := |b.out|;
      if more then
        InStep(b', cmds, base)
        || (retrySent && b'.retried && b'.out == b.out && RanOnceButFor(b', cmds, base, n + 1, n))
      else b'.client.None? && b'.out == b.out && (RanOnce(b', cmds, base, n) || RanOnce(b', cmds, base, n + 1))
  {
    if fate.outcome.Replied? {
      ReplyKeepsStep(b, cmds, retrySent, fate, now, base);
    } else {
      FailureKeepsStep(b, cmds, retrySent, fate, now, base);
    }
    hide Attempt, InStep, RanOnce, RanOnceButFor;
  }

  lemma ReplyKeepsStep(b: Batch, cmds: seq<string>, retrySent: bool, fate: Fate, now: int, base: seq<Executed>)
    requires InStep(b, cmds, base) && |b.out| < |cmds| && fate.outcome.Replied?
    ensures var (b', more) := Attempt(b, cmds[|b.out|], retrySent, fate, now);
      if more then InStep(b', cmds, base) else b'.client.None? && b'.out == b.out && RanOnce(b', cmds, base, |b.out|)
  {
    var before := Answered(cmds[..|b.out|], b.out);
    AnsweredGrows(cmds, b.out, fate.outcome.reply);
    LogGrows(b.log, base, before, LogOf(cmds[|b.out|], fate.outcome));
    hide Answered, Commands;
  }

  lemma FailureKeepsStep(b: Batch, cmds: seq<string>, retrySent: bool, fate: Fate, now: int, base: seq<Executed>)
    requires InStep(b, cmds, base) && |b.out| < |cmds| && !fate.outcome.Replied?
    ensures var (b', more) := Attempt(b, cmds[|b.out|], retrySent, fate, now);
      var n := |b.out|;
      if more then
        InStep(b', cmds, base)
        || (retrySent && b'.retried && b'.out == b.out && RanOnceButFor(b', cmds, base, n + 1, n))
      else b'.client.None? && b'.out == b.out && (RanOnce(b', cmds, base, n) || RanOnce(b', cmds, base, n + 1))
  {
    var n := |b.out|;
    var before := Answered(cmds[..n], b.out);
    var step := LogOf(cmds[n], fate.outcome);
    AnsweredGrows(cmds, b.out, "");
    LogGrows(b.log, base, before, step);
    assert step == [] ==> b.log + step == b.log;
    assert step != [] ==> Commands(step) == [cmds[n]];
    assert cmds[..n] + [] == cmds[..n] && cmds[..n + 1] + cmds[n..n] == cmds[..n + 1];
    assert step == [] ==> Commands(step) == [];
    hide Answered, Commands, LogOf;
  }

  lemma AttemptKeepsRepeat(b: Batch, cmds: seq<string>, fate: Fate, now: int, base: seq<Executed>, d: nat)
    requires |b.out| < |cmds| && b.retried && RanOnceButFor(b, cmds, base, d, |b.out|)
    ensures var (b', more) := Attempt(b, cmds[|b.out|], true, fate, now);
      var n := |b.out|;
      if more then b'.retried && |b'.out| == n + 1 && RanOnceButFor(b', cmds, base, d, n + 1)
      else
        && b'.client.None? && b'.out == b.out
        && (RanOnceButFor(b', cmds, base, d, n) || RanOnceButFor(b', cmds, base, d, n + 1))
  {
    var n := |b.out|;
    var before := b.log[|base|..];
    var step := LogOf(cmds[n], fate.outcome);
    assert (b.log + step)[|base|..] == before + step;
    assert Commands(before + step) == Commands(before) + Commands(step);
    assert cmds[..d] + cmds[d - 1..n] + [cmds[n]] == cmds[..d] + cmds[d - 1..n + 1];
    assert b.log + [] == b.log;
  }

  /** Without permission to repeat a command that may have been sent, no command
      of a batch is ever executed twice.  On success each ran once, in order, and
      its own reply came back; on failure the executed commands are a prefix and
      the connection is gone. */
  lemma {:induction false} NoCommandRunsTwice(
      b: Batch, cmds: seq<string>, fates: nat -> Fate, clock: nat -> int, base: seq<Executed>)
    requires InStep(b, cmds, base)
    ensures var (b', ok) := Finish(b, cmds, false, fates, clock);
      && (ok ==> |b'.out| == |cmds| && b'.log == base + Answered(cmds, b'.out))
      && (!ok ==> |b'.out| < |cmds| && b'.client.None?)
      && (!ok ==> RanOnce(b', cmds, base, |b'.out|) || RanOnce(b', cmds, base, |b'.out| + 1))
    decreases |cmds| - |b.out|, if b.retried then 0 else 1
  {
    if |b.out| < |cmds| {
      AttemptKeepsStep(b, cmds, false, fates(b.attempts), clock(b.attempts), base);
      var (b', more) := Attempt(b, cmds[|b.out|], false, fates(b.attempts), clock(b.attempts));
      if more {
        NoCommandRunsTwice(b', cmds, fates, clock, base);
      }
    } else {
      assert cmds[..|b.out|] == cmds;
    }
  }

  ghost predicate RanAtMostTwice(b: Batch, cmds: seq<string>, base: seq<Executed>, n: nat) {
    RanOnce(b, cmds, base, n) || exists d :: RanOnceButFor(b, cmds, base, d, n)
  }

  /** How a batch may end in which at most one command ran twice. */
  ghost predicate EndsWithOneRepeat(b: Batch, ok: bool, cmds: seq<string>, base: seq<Executed>) {
    && (ok ==> |b.out| == |cmds|) && (!ok ==> b.client.None?)
    && (RanAtMostTwice(b, cmds, base, |b.out|) || (!ok && RanAtMostTwice(b, cmds, base, |b.out| + 1)))
  }

  /** Once the retry is spent, nothing else runs twice. */
  lemma {:induction false} NoSecondRepeat(
      b: Batch, cmds: seq<string>, fates: nat -> Fate, clock: nat -> int, base: seq<Executed>, d: nat)
    requires b.retried && |b.out| <= |cmds| && RanOnceButFor(b, cmds, base, d, |b.out|)
    ensures var (b', ok) := Finish(b, cmds, true, fates, clock); EndsWithOneRepeat(b', ok, cmds, base)
    decreases |cmds| - |b.out|
  {
    if |b.out| < |cmds| {
      var (b', more) := Attempt(b, cmds[|b.out|], true, fates(b.attempts), clock(b.attempts));
      AttemptKeepsRepeat(b, cmds, fates(b.attempts), clock(b.attempts), base, d);
      hide Attempt, RanOnce, RanOnceButFor;
      if more {
        hide EndsWithOneRepeat;
        NoSecondRepeat(b', cmds, fates, clock, base, d);
      }
    }
  }

  /** A repeat can only be the one retry: at most one command of the batch runs
      twice, even when the caller allows repeats. */
  lemma {:induction false} AtMostOneRepeat(
      b: Batch, cmds: seq<string>, fates: nat -> Fate, clock: nat -> int, base: seq<Executed>)
    requires InStep(b, cmds, base)
    ensures var (b', ok) := Finish(b, cmds, true, fates, clock); EndsWithOneRepeat(b', ok, cmds, base)
    decreases |cmds| - |b.out|, if b.retried then 0 else 1
  {
    if |b.out| == |cmds| {
      AllRanOnce(b, cmds, base);
    } else {
      var (b', more) := Attempt(b, cmds[|b.out|], true, fates(b.attempts), clock(b.attempts));
      AttemptGrows(b, cmds[|b.out|], true, fates(b.attempts), clock(b.attempts));
      AttemptKeepsStep(b, cmds, true, fates(b.attempts), clock(b.attempts), base);
      hide Attempt, RanOnce, RanOnceButFor;
      if more {
        hide EndsWithOneRepeat;
        if InStep(b', cmds, base) {
          AtMostOneRepeat(b', cmds, fates, clock, base);
        } else {
          NoSecondRepeat(b', cmds, fates, clock, base, |b.out| + 1);
        }
      }
    }
  }

  lemma AllRanOnce(b: Batch, cmds: seq<string>, base: seq<Executed>)
    requires InStep(b, cmds, base) && |b.out| == |cmds|
    ensures RanOnce(b, cmds, base, |cmds|)
  {
    assert Commands(b.log[|base|..]) == cmds[..|cmds|];
  }

  /** An attempt that goes on has a reply more or the retry less. */
  lemma AttemptGrows(b: Batch, command: string, retrySent: bool, fate: Fate, now: int)
    ensures var (b', more) := Attempt(b, command, retrySent, fate, now);
      && b'.attempts == b.attempts + 1
      && (more ==>
            ((|b'.out| == |b.out| + 1 && b'.retried == b.retried) || (b'.out == b.out && b'.retried && !b.retried)))
  {
  }

  /** At most one attempt more than there are commands. */
  lemma {:induction false} AttemptsAreBounded(
      b: Batch, cmds: seq<string>, retrySent: bool, fates: nat -> Fate, clock: nat -> int)
    requires |b.out| <= |cmds|
    ensures var (b', ok) := Finish(b, cmds, retrySent, fates, clock);
      b'.attempts - b.attempts <= |cmds| - |b.out| + (if b.retried then 0 else 1)
    decreases |cmds| - |b.out|, if b.retried then 0 else 1
  {
    if |b.out| < |cmds| {
      var (b', more) := Attempt(b, cmds[|b.out|], retrySent, fates(b.attempts), clock(b.attempts));
      if more {
        AttemptsAreBounded(b', cmds, retrySent, fates, clock);
      }
    }
  }

  /** The attempts from `from` up to `to` that found the connection dead or failed on it. */
  function Breaks(fates: nat -> Fate, from: nat, to: nat): nat
    decreases to - from
  {
    if from >= to then 0
    else (if fates(from).alive && fates(from).outcome.Replied? then 0 else 1) + Breaks(fates, from + 1, to)
  }

  /** A connection is used for every later command until it breaks: one is opened
      only where there was none or after a break. */
  lemma {:induction false} ConnectionIsKept(
      b: Batch, cmds: seq<string>, retrySent: bool, fates: nat -> Fate, clock: nat -> int)
    requires |b.out| <= |cmds|
    ensures var (b', ok) := Finish(b, cmds, retrySent, fates, clock);
      && b.attempts <= b'.attempts
      && b'.dials <= b.dials + (if b.client.None? then 1 else 0) + Breaks(fates, b.attempts, b'.attempts)
      && (b.client.Some? && Breaks(fates, b.attempts, b'.attempts) == 0 ==> b'.client == b.client)
    decreases |cmds| - |b.out|, if b.retried then 0 else 1
  {
    if |b.out| < |cmds| {
      var (b', more) := Attempt(b, cmds[|b.out|], retrySent, fates(b.attempts), clock(b.attempts));
      AttemptGrows(b, cmds[|b.out|], retrySent, fates(b.attempts), clock(b.attempts));
      AttemptDials(b, cmds[|b.out|], retrySent, fates(b.attempts), clock(b.attempts));
      hide Attempt;
      if more {
        ConnectionIsKept(b', cmds, retrySent, fates, clock);
      }
    }
  }

  lemma AttemptDials(b: Batch, command: string, retrySent: bool, fate: Fate, now: int)
    ensures var (b', more) := Attempt(b, command, retrySent, fate, now);
      var broke := if fate.alive && fate.outcome.Replied? then 0 else 1;
      && b'.dials <= b.dials + (if b.client.None? then 1 else 0) + broke
      && (more ==> b'.dials + (if b'.client.None? then 1 else 0) <= b.dials + (if b.client.None? then 1 else 0) + broke)
      && (broke == 0 && b.client.Some? ==> more && b'.client == b.client)
  {
  }

  lemma {:induction false} FlawlessBatchSucceeds(
      b: Batch, cmds: seq<string>, retrySent: bool, fates: nat -> Fate, clock: nat -> int)
    requires |b.out| <= |cmds|
    requires forall k | k >= b.attempts :: fates(k).connects && fates(k).outcome.Replied?
    ensures Finish(b, cmds, retrySent, fates, clock).1
    decreases |cmds| - |b.out|
  {
    if |b.out| < |cmds| {
      var (b', _) := Attempt(b, cmds[|b.out|], retrySent, fates(b.attempts), clock(b.attempts));
      FlawlessBatchSucceeds(b', cmds, retrySent, fates, clock);
    }
  }

  /** When exactly one attempt fails, the batch still succeeds exactly if that
      attempt was on a connection that was there before it and looked alive, and
      the failure proves the command did not run or the caller allows repeats. */
  lemma {:induction false} OneFailureIsSurvivedIff(
      b: Batch, cmds: seq<string>, retrySent: bool, fates: nat -> Fate, clock: nat -> int, f: nat)
    requires !b.retried && |b.out| <= |cmds| && b.attempts <= f < b.attempts + |cmds| - |b.out|
    requires forall k | k >= b.attempts && k != f :: fates(k).connects && fates(k).outcome.Replied?
    requires fates(f).connects && !fates(f).outcome.Replied?
    ensures Finish(b, cmds, retrySent, fates, clock).1 <==>
      fates(f).alive && (b.client.Some? || b.attempts < f)
      && (fates(f).outcome.Unsent? || (retrySent && fates(f).outcome.RconFailure?))
    decreases f - b.attempts
  {
    var (b', more) := Attempt(b, cmds[|b.out|], retrySent, fates(b.attempts), clock(b.attempts));
    if b.attempts < f {
      OneFailureIsSurvivedIff(b', cmds, retrySent, fates, clock, f);
    } else if more {
      FlawlessBatchSucceeds(b', cmds, retrySent, fates, clock);
    }
  }

  /** A batch that sends anything and succeeds leaves the time of its last attempt: the
      connection counts as used from then on. */
  lemma {:induction false} LastReplyIsNoted(
      b: Batch, cmds: seq<string>, retrySent: bool, fates: nat -> Fate, clock: nat -> int)
    requires |b.out| < |cmds|
    ensures var (b', ok) := Finish(b, cmds, retrySent, fates, clock);
      ok ==> b'.attempts > b.attempts && b'.lastUsed == clock(b'.attempts - 1) && b'.client.Some?
    decreases |cmds| - |b.out|, if b.retried then 0 else 1
  {
    var (b', more) := Attempt(b, cmds[|b.out|], retrySent, fates(b.attempts), clock(b.attempts));
    AttemptGrows(b, cmds[|b.out|], retrySent, fates(b.attempts), clock(b.attempts));
    if more && |b'.out| < |cmds| { LastReplyIsNoted(b', cmds, retrySent, fates, clock); }
  }
}
