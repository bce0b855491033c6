/** The pool as it is kept in memory: a dict of slots that is only ever added
    to, each slot updated in place under its own lock. */
module RconSlots {
  import opened Wrappers
  import opened RconPool

  /** One thing the server ran: on which connection it was sent, and the endpoint and
      password that connection was dialled with. */
  datatype Sent = Sent(conn: nat, dialledWith: Key)

  class Slot {
    var client: Option<nat>
    var key: Option<Key>
    var target: Option<Target>
    var lastUsed: int
    var evictPending: bool
    var held: bool  // the lock is held by some other thread's run
    ghost var executed: seq<Executed>  // what the world's server has run
    ghost var sent: seq<Sent>          // how each of that was sent
    ghost var dialledWith: Key         // set where the connection is dialled, and only there

    constructor ()
      ensures client.None? && key.None? && target.None? && lastUsed == 0 && !evictPending && !held
      ensures executed == [] && sent == []
    {
      client, key, target, lastUsed, evictPending, held := None, None, None, 0, false, false;
      executed, sent := [], [];
    }

    /** The slot's key is the one its connection was dialled with. */
    ghost predicate Honest()
      reads this`client, this`key, this`executed, this`sent, this`dialledWith
    {
      |sent| == |executed| && key == if client.Some? then Some(dialledWith) else None
    }

    /** What has been sent from then on went out on connections dialled with this key:
        the one there was, or new ones. */
    ghost predicate SentWith(from: nat, key: Key, had: Option<nat>, since: nat, until: nat)
      reads this`sent
    {
      forall k | from <= k < |sent| ::
        sent[k].dialledWith == key && (since <= sent[k].conn < until || had == Some(sent[k].conn))
    }

    /** What the server runs of a command that is sent on the connection. */
    method Send(command: string, outcome: Outcome)
      requires client.Some? && Honest()
      modifies this`executed, this`sent
      ensures executed == old(executed) + LogOf(command, outcome) && Honest() && old(sent) <= sent
      ensures forall k | |old(sent)| <= k < |sent| :: sent[k] == Sent(client.value, dialledWith)
    {
      ghost var used := Sent(client.value, dialledWith);
      executed := executed + LogOf(command, outcome);
      sent := sent + seq(|LogOf(command, outcome)|, _ => used);
    }

    method Drop()
      requires |sent| == |executed|
      modifies this`client, this`key, this`evictPending
      ensures client.None? && key.None? && !evictPending && Honest()
    {
      client, key := None, None;
      evictPending := false;
    }

    /** Drops the connection now or, while some run holds the lock, marks it. */
    method Evict()
      requires Honest()
      modifies this`client, this`key, this`evictPending
      ensures if held then evictPending && client == old(client) else client.None? && !evictPending
      ensures Honest() && (client.Some? ==> client == old(client))
    {
      if held {
        evictPending := true;
      } else {
        Drop();
      }
    }

    /** Remembers the server pod that was seen; another one means the old connection
        leads nowhere. */
    method Note(seen: Option<Target>)
      requires Honest()
      modifies this`client, this`key, this`evictPending, this`target
      ensures target == seen && Honest() && (client.Some? ==> client == old(client))
      ensures if seen.None? || (old(target).Some? && old(target) != seen) then client.None? || evictPending
              else client == old(client) && evictPending == old(evictPending)
    {
      if seen.None? || (target.Some? && target != seen) {
        Evict();
      }
      target := seen;
    }
  }

  class Pool {
    const idleTimeout: int
    const byteLength: string -> nat
    var slots: map<string, Slot>
    var names: seq<string>  // the dict's order
    var dials: nat          // connections opened so far

    ghost predicate Valid()
      reads this, slots.Values
    {
      && (forall i, j | 0 <= i < j < |names| :: names[i] != names[j])
      && (forall w :: w in names <==> w in slots)
      && (forall v, w | v in slots && w in slots && v != w :: slots[v] != slots[w])
      && (forall w | w in slots :: slots[w].Honest() && (slots[w].client.Some? ==> slots[w].client.value < dials))
    }

    constructor (idleTimeout: int, byteLength: string -> nat)
      ensures Valid() && slots == map[] && this.idleTimeout == idleTimeout && this.byteLength == byteLength
    {
      this.idleTimeout, this.byteLength := idleTimeout, byteLength;
      slots, names, dials := map[], [], 0;
    }

    /** The world's only slot; made on first use and never removed. */
    method SlotFor(world: string) returns (slot: Slot)
      requires Valid()
      modifies this`slots, this`names
      ensures Valid() && world in slots && slots[world] == slot
      ensures world in old(slots) ==> slots == old(slots)
      ensures world !in old(slots) ==>
        && slots == old(slots)[world := slot] && fresh(slot)
        && slot.client.None? && !slot.evictPending && !slot.held && slot.executed == [] && slot.sent == []
        && slot.lastUsed == 0
        && slot.target.None?
    {
      if world in slots {
        return slots[world];
      }
      slot := new Slot();
      slots := slots[world := slot];
      names := names + [world];
    }

    /** The connection a run starts with: none if it was marked for eviction or
        was opened for another endpoint. */
    static function Usable(client: Option<nat>, openedWith: Option<Key>, pending: bool, key: Key): Option<nat> {
      if pending || openedWith != Some(key) then None else client
    }

    /** The slot's connection is a new one, or the one it had, dialled as it was. */
    ghost predicate Kept(slot: Slot, had: Option<nat>, dialledWith: Key, since: nat)
      reads this`dials, slot
    {
      slot.client.Some? ==>
        || since <= slot.client.value < dials
        || (slot.client == had && slot.dialledWith == dialledWith)
    }

    /** One attempt at a command: probe or replace the connection, send, and on
        a failure drop it and decide whether to go on. */
    method TryOnce(
        slot: Slot, key: Key, command: string, retrySent: bool, retried: bool, fate: Fate, now: int, ghost b: Batch)
      returns (reply: Option<string>, more: bool)
      requires slot.key == (if slot.client.Some? then Some(key) else None) && !slot.evictPending
      requires b == Batch(slot.client, dials, slot.executed, b.out, b.attempts, retried, slot.lastUsed)
      requires slot.Honest()
      modifies this`dials
      modifies slot`client, slot`key, slot`evictPending, slot`lastUsed, slot`executed, slot`sent, slot`dialledWith
      ensures var (b', go) := Attempt(b, command, retrySent, fate, now);
        && more == go && (reply.Some? ==> more)
        && b' == Batch(slot.client, dials, slot.executed,
                       if reply.Some? then b.out + [reply.value] else b.out,
                       b.attempts + 1, retried || (more && reply.None?), slot.lastUsed)
      ensures !slot.evictPending && slot.key == if slot.client.Some? then Some(key) else None
      ensures slot.Honest() && old(dials) <= dials && Kept(slot, old(slot.client), old(slot.dialledWith), old(dials))
      ensures old(slot.sent) <= slot.sent && slot.SentWith(old(|slot.sent|), key, old(slot.client), old(dials), dials)
    {
      var reused := slot.client.Some?;
      if slot.client.Some? && !fate.alive {
        slot.Drop();
        reused := false;
      }
      if slot.client.None? {
        if !fate.connects {
          return None, false;
        }
        slot.client, slot.key := Some(dials), Some(key);
        slot.dialledWith := key;
        dials := dials + 1;
      }
      slot.Send(command, fate.outcome);
      if fate.outcome.Replied? {
        slot.lastUsed := now;
        return Some(fate.outcome.reply), true;
      }
      slot.Drop();
      var unsent := fate.outcome.Unsent?;
      var rconError := unsent || fate.outcome.RconFailure?;
      return None, reused && !retried && (unsent || (retrySent && rconError));
    }

    /** The batch loop, on one slot whose lock the caller holds. */
    method RunOn(slot: Slot, key: Key, cmds: seq<string>, retrySent: bool, fates: nat -> Fate, clock: nat -> int)
      returns (result: Result, attempts: nat)
      requires slot.key == (if slot.client.Some? then Some(key) else None) && !slot.evictPending && slot.Honest()
      requires slot.client.Some? ==> slot.client.value < dials
      modifies this`dials
      modifies slot`client, slot`key, slot`evictPending, slot`lastUsed, slot`executed, slot`sent, slot`dialledWith
      ensures var start := Batch(old(slot.client), old(dials), old(slot.executed), [], 0, false, old(slot.lastUsed));
        var (b, ok) := Finish(start, cmds, retrySent, fates, clock);
        && result == (if ok then Answers(b.out) else Raised)
        && b == Batch(slot.client, dials, slot.executed, b.out, attempts, b.retried, slot.lastUsed)
      ensures !slot.evictPending && slot.key == if slot.client.Some? then Some(key) else None
      ensures slot.Honest() && old(dials) <= dials && Kept(slot, old(slot.client), old(slot.dialledWith), old(dials))
      ensures old(slot.sent) <= slot.sent && slot.SentWith(old(|slot.sent|), key, old(slot.client), old(dials), dials)
    {
      attempts := 0;
      var out: seq<string> := [];
      var retried := false;
      var i := 0;
      ghost var start := Batch(slot.client, dials, slot.executed, [], 0, false, slot.lastUsed);
      ghost var b := start;
      while i < |cmds|
        invariant 0 <= i == |out| <= |cmds| && !slot.evictPending
        invariant slot.key == if slot.client.Some? then Some(key) else None
        invariant b == Batch(slot.client, dials, slot.executed, out, attempts, retried, slot.lastUsed)
        invariant Finish(b, cmds, retrySent, fates, clock) == Finish(start, cmds, retrySent, fates, clock)
        invariant slot.Honest() && old(dials) <= dials
        invariant Kept(slot, old(slot.client), old(slot.dialledWith), old(dials))
        invariant old(slot.sent) <= slot.sent
        invariant slot.SentWith(old(|slot.sent|), key, old(slot.client), old(dials), dials)
        decreases |cmds| - i, if retried then 0 else 1
      {
        var fate, now := fates(attempts), clock(attempts);
        var reply, more := TryOnce(slot, key, cmds[i], retrySent, retried, fate, now, b);
        attempts := attempts + 1;
        b := Attempt(b, cmds[i], retrySent, fate, now).0;
        if !more {
          return Raised, attempts;
        } else if reply.None? {
          retried := true;
        } else {
          out := out + [reply.value];
          i := i + 1;
        }
      }
      result := Answers(out);
    }

    /** The batch that began like this has ended as the slot now is. */
    ghost predicate EndsAs(
        slot: Slot, start: Batch, key: Key, cmds: seq<string>, retrySent: bool, fates: nat -> Fate, clock: nat -> int,
        result: Result, attempts: nat)
      requires |start.out| <= |cmds|
      reads this`dials, slot
    {
      var (b, ok) := Finish(start, cmds, retrySent, fates, clock);
      && result == (if ok then Answers(b.out) else Raised)
      && b == Batch(slot.client, dials, slot.executed, b.out, attempts, b.retried, slot.lastUsed)
      && !slot.evictPending && slot.key == (if b.client.Some? then Some(key) else None)
    }

    method TooLongAny(cmds: seq<string>) returns (r: bool)
      ensures r <==> exists c :: c in cmds && byteLength(c) > 1446
    {
      for c := 0 to |cmds|
        invariant forall k | 0 <= k < c :: byteLength(cmds[k]) <= MAX_COMMAND
      {
        if byteLength(cmds[c]) > MAX_COMMAND {
          return true;
        }
      }
      r := false;
    }

    /** Runs the commands on a slot whose lock is held, after dropping a connection that
        is no longer wanted. */
    method RunHeld(slot: Slot, key: Key, cmds: seq<string>, retrySent: bool, fates: nat -> Fate, clock: nat -> int)
      returns (result: Result, attempts: nat)
      requires slot.Honest() && (slot.client.Some? ==> slot.client.value < dials)
      modifies this`dials
      modifies slot`client, slot`key, slot`evictPending, slot`lastUsed, slot`executed, slot`sent, slot`dialledWith
      ensures !result.TooLong? && slot.Honest() && old(dials) <= dials
      ensures slot.client.Some? ==> slot.client.value < dials
      ensures var client := old(Usable(slot.client, slot.key, slot.evictPending, key));
        var start := Batch(client, old(dials), old(slot.executed), [], 0, false, old(slot.lastUsed));
        EndsAs(slot, start, key, cmds, retrySent, fates, clock, result, attempts)
      ensures Kept(slot, old(slot.client), old(slot.dialledWith), old(dials)) && old(slot.sent) <= slot.sent
      ensures var had := if old(slot.key) == Some(key) then old(slot.client) else None;
        slot.SentWith(old(|slot.sent|), key, had, old(dials), dials)
      ensures result.Answers? && cmds != [] ==>
        attempts > 0 && slot.lastUsed == clock(attempts - 1) && slot.client.Some?
    {
      if slot.evictPending || (slot.client.Some? && slot.key != Some(key)) {
        slot.Drop();
      }
      if cmds != [] {
        LastReplyIsNoted(
          Batch(slot.client, dials, slot.executed, [], 0, false, slot.lastUsed), cmds, retrySent, fates, clock);
      }
      result, attempts := RunOn(slot, key, cmds, retrySent, fates, clock);
    }

    /** The same on the slot of a world that has one. */
    method RunIn(world: string, key: Key, cmds: seq<string>, retrySent: bool, fates: nat -> Fate, clock: nat -> int)
      returns (result: Result, attempts: nat)
      requires Valid() && world in slots
      modifies this`dials, slots[world]
      ensures Valid() && !result.TooLong? && old(dials) <= dials
      ensures var s := slots[world];
        var client := old(Usable(s.client, s.key, s.evictPending, key));
        var start := Batch(client, old(dials), old(s.executed), [], 0, false, old(s.lastUsed));
        EndsAs(s, start, key, cmds, retrySent, fates, clock, result, attempts)
      ensures SentAndKept(slots[world], old(slots[world].client), old(slots[world].key), old(slots[world].dialledWith),
                          old(|slots[world].sent|), old(dials), key)
      ensures result.Answers? && cmds != [] ==>
        attempts > 0 && slots[world].lastUsed == clock(attempts - 1) && slots[world].client.Some?
    {
      var slot := slots[world];
      result, attempts := RunHeld(slot, key, cmds, retrySent, fates, clock);
      hide EndsAs;
      assert |slot.sent| > old(|slot.sent|) ==> slot.sent[old(|slot.sent|)].dialledWith == key;
      assert forall w | w in slots && w != world :: slots[w] != slot && slots[w].Honest();
    }

    /** Everything the slot has sent since then went out on connections dialled with
        `key`: the one it had, if that was dialled so, or new ones.  The one it has now is
        new or the one it had, dialled as it was. */
    ghost predicate SentAndKept(
        s: Slot, had: Option<nat>, hadKey: Option<Key>, dialledWith: Key, from: nat, since: nat, key: Key)
      reads this`dials, s
    {
      && s.SentWith(from, key, if hadKey == Some(key) then had else None, since, dials)
      && Kept(s, had, dialledWith, since) && |s.sent| == |s.executed|
      && (|s.executed| > from && hadKey != Some(key) ==> dials > since)
    }

    /** Runs the commands in order on the world's connection; the caller holds
        the slot's lock.  What happens to the slot and the server is the batch
        described by `Finish`, started from a connection that is still wanted; and
        whatever the server ran was sent on a connection dialled with this very key. */
    method Run(world: string, key: Key, cmds: seq<string>, retrySent: bool, fates: nat -> Fate, clock: nat -> int)
      returns (result: Result, attempts: nat)
      requires Valid() && (world in slots ==> !slots[world].held)
      modifies this, slots.Values
      ensures Valid()
      ensures forall w | w in old(slots) :: w in slots && slots[w] == old(slots[w])
      ensures forall w | w in old(slots) && w != world :: unchanged(old(slots[w]))
      ensures result.TooLong? <==> exists c :: c in cmds && byteLength(c) > 1446
      ensures result.TooLong? ==> unchanged(this) && forall w | w in slots :: unchanged(slots[w])
      ensures !result.TooLong? && world in old(slots) ==>
        var s := old(slots[world]);
        var client := old(Usable(s.client, s.key, s.evictPending, key));
        var start := Batch(client, old(dials), old(s.executed), [], 0, false, old(s.lastUsed));
        && EndsAs(s, start, key, cmds, retrySent, fates, clock, result, attempts)
        && SentAndKept(s, old(s.client), old(s.key), old(s.dialledWith), old(|s.executed|), old(dials), key)
      ensures !result.TooLong? && world !in old(slots) ==>
        && world in slots && fresh(slots[world])
        && var s, start := slots[world], Batch(None, old(dials), [], [], 0, false, 0);
           && EndsAs(s, start, key, cmds, retrySent, fates, clock, result, attempts)
           && s.SentWith(0, key, None, old(dials), dials)
      ensures result.Answers? && cmds != [] ==>
        && attempts > 0 && world in slots
        && slots[world].lastUsed == clock(attempts - 1) && slots[world].client.Some?
    {
      hide EndsAs;
      var tooLong := TooLongAny(cmds);
      if tooLong {
        return TooLong, 0;
      }
      var slot := SlotFor(world);
      result, attempts := RunIn(world, key, cmds, retrySent, fates, clock);
    }

    /** Closes the world's connection now or, if a command is in flight, marks
        it for the next run. */
    method Evict(world: string)
      requires Valid()
      modifies slots.Values
      ensures Valid()
      ensures forall w | w in slots && w != world :: unchanged(slots[w])
      ensures world in slots ==>
        var s := slots[world];
        && (if s.held then s.evictPending && s.client == old(s.client) else s.client.None? && !s.evictPending)
        && s.target == old(s.target) && s.held == old(s.held) && s.executed == old(s.executed)
    {
      if world !in slots {
        return;
      }
      slots[world].Evict();
    }

    /** Remembers which server pod was seen; another one means the old
        connection leads nowhere. */
    method NoteTarget(world: string, target: Option<Target>)
      requires Valid()
      modifies this, slots.Values
      ensures Valid() && world in slots && slots[world].target == target
      ensures forall w | w in old(slots) :: w in slots && slots[w] == old(slots[w])
      ensures forall w | w in old(slots) && w != world :: unchanged(old(slots[w]))
      ensures world in old(slots) ==>
        var s := old(slots[world]);
        if target.None? || (old(s.target).Some? && old(s.target) != target)
        then s.client.None? || s.evictPending
        else s.client == old(s.client) && s.evictPending == old(s.evictPending)
    {
      var slot := SlotFor(world);
      slot.Note(target);
    }

    ghost predicate Idle(s: Slot, now: int)
      reads s
    {
      !s.held && s.client.Some? && (s.evictPending || now - s.lastUsed >= idleTimeout)
    }

    /** Closes exactly the connections that are marked or have been unused for
        the idle timeout; a slot in use is passed over. */
    method SweepIdle(now: int) returns (closed: seq<string>)
      requires Valid()
      modifies slots.Values
      ensures Valid()
      ensures forall w :: w in closed <==> w in slots && old(Idle(slots[w], now))
      ensures forall w | w in slots ::
        if w in closed then slots[w].client.None? && !slots[w].evictPending else unchanged(slots[w])
    {
      closed := [];
      for i := 0 to |names|
        invariant Valid()
        invariant forall w :: w in closed <==> w in names[..i] && old(Idle(slots[w], now))
        invariant forall w | w in slots ::
          if w in closed then slots[w].client.None? && !slots[w].evictPending else unchanged(slots[w])
      {
        var world := names[i];
        var slot := slots[world];
        assert names[..i + 1] == names[..i] + [world] && world !in names[..i];
        if !slot.held && slot.client.Some? && (slot.evictPending || now - slot.lastUsed >= idleTimeout) {
          slot.Drop();
          closed := closed + [world];
        }
      }
    }
  }
}
