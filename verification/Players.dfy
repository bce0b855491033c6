/** Whitelist and admins of a world: live edits and starts.  The server's own lists
    do not distinguish upper from lower case. */
module Players {
  import opened Wrappers

  /** Lower case, stripping, and what counts as a letter or digit. */
  datatype Text = Text(lower: string -> string, trim: string -> string, alnum: char -> bool)

  /** What the record, and each installed release, says about players. */
  datatype Settings = Settings(whitelist: seq<string>, ops: seq<string>, open: bool)

  /** The server's whitelist.json and ops.json, in lower case, and whether the
      whitelist is enforced. */
  datatype Server = Server(whitelist: set<string>, enforced: bool, ops: set<string>)

  datatype Phase = NotInstalled | Stopped | Starting | Live

  /** `rendered` is what the last install passed on. */
  datatype State = State(record: Settings, rendered: Settings, phase: Phase, server: Server)

  datatype Answer = Accepted | BadPlayers | AccessWhileStarting | AdminsWhileStarting | LastAdmin

  function LowerSet(t: Text, names: seq<string>): set<string> { set p | p in names :: t.lower(p) }

  // ------------------------------------------------------------------- admins

  /** Stripped, not empty, and once each ignoring case, the first spelling kept. */
  function Dedupe(t: Text, names: seq<string>): seq<string> {
    if names == [] then []
    else
      var front, p := Dedupe(t, names[..|names| - 1]), t.trim(names[|names| - 1]);
      if p == "" || t.lower(p) in LowerSet(t, front) then front else front + [p]
  }

  method DedupePlayers(t: Text, names: seq<string>) returns (out: seq<string>)
    ensures out == Dedupe(t, names)
  {
    out := [];
    var keys: set<string> := {};
    for k := 0 to |names|
      invariant out == Dedupe(t, names[..k]) && keys == LowerSet(t, out)
    {
      assert names[..k + 1][..k] == names[..k];
      var p := t.trim(names[k]);
      if p != "" && t.lower(p) !in keys {
        out := out + [p];
        keys := keys + {t.lower(p)};
      }
    }
    assert names[..|names|] == names;
  }

  /** The players meant by a list of names. */
  function Meant(t: Text, names: seq<string>): set<string> {
    set p | p in names && t.trim(p) != "" :: t.lower(t.trim(p))
  }

  /** Removing duplicates loses nobody and leaves nobody twice. */
  lemma {:induction false} DedupeKeepsPlayers(t: Text, names: seq<string>)
    ensures LowerSet(t, Dedupe(t, names)) == Meant(t, names)
    ensures var r := Dedupe(t, names); forall i, j | 0 <= i < j < |r| :: t.lower(r[i]) != t.lower(r[j])
  {
    if names != [] {
      var front, last := names[..|names| - 1], names[|names| - 1];
      assert names == front + [last];
      DedupeKeepsPlayers(t, front);
      var r := Dedupe(t, front);
      assert forall i | 0 <= i < |r| :: r[i] in r && t.lower(r[i]) in LowerSet(t, r);
      assert Meant(t, names) == Meant(t, front) + (if t.trim(last) == "" then {} else {t.lower(t.trim(last))});
      assert LowerSet(t, r + [t.trim(last)]) == LowerSet(t, r) + {t.lower(t.trim(last))};
    }
  }

  /** The names that are, or are not, among the keys. */
  function Pick(t: Text, names: seq<string>, keys: set<string>, among: bool): (r: seq<string>)
    ensures forall p :: p in r <==> p in names && (t.lower(p) in keys <==> among)
  {
    if names == [] then []
    else
      assert names == names[..|names| - 1] + [names[|names| - 1]];
      var front, p := Pick(t, names[..|names| - 1], keys, among), names[|names| - 1];
      if (t.lower(p) in keys) == among then front + [p] else front
  }

  /** The admins an edit leaves: on a closed world, nobody it takes off the
      whitelist. */
  function NextOps(t: Text, whitelist: seq<string>, ops: seq<string>, players: seq<string>, open: bool): seq<string> {
    var wanted := Dedupe(t, ops);
    if open then wanted else Pick(t, wanted, LowerSet(t, whitelist) - LowerSet(t, players), false)
  }

  lemma NextOpsAre(t: Text, whitelist: seq<string>, ops: seq<string>, players: seq<string>, open: bool)
    ensures var gone := if open then {} else LowerSet(t, whitelist) - LowerSet(t, players);
      LowerSet(t, NextOps(t, whitelist, ops, players, open)) == Meant(t, ops) - gone
  {
    DedupeKeepsPlayers(t, ops);
  }

  /** Refuses to leave a stopped world without admins. */
  predicate ClearsLastAdmin(before: seq<string>, next: seq<string>) { before != [] && next == [] }

  predicate SamePlayers(t: Text, a: seq<string>, b: seq<string>) { LowerSet(t, a) == LowerSet(t, b) }

  predicate GoodName(t: Text, n: string) {
    n != "" && |n| <= 16 && forall c | c in n :: t.alnum(c) || c == '_'
  }

  /** Good names, and on a closed world every admin is whitelisted. */
  predicate ValidPlayers(t: Text, s: Settings) {
    && (forall n | n in s.whitelist + s.ops :: GoodName(t, n))
    && (!s.open ==> LowerSet(t, s.ops) <= LowerSet(t, s.whitelist))
  }

  // ------------------------------------------------------- the server's lists

  datatype Command =
    | Add(player: string)
    | Remove(player: string)
    | Enforce(on: bool)
    | Op(player: string)
    | Deop(player: string)

  function Execute(t: Text, s: Server, c: Command): Server {
    match c
    case Add(p) => s.(whitelist := s.whitelist + {t.lower(p)})
    case Remove(p) => s.(whitelist := s.whitelist - {t.lower(p)})
    case Enforce(on) => s.(enforced := on)
    case Op(p) => s.(ops := s.ops + {t.lower(p)})
    case Deop(p) => s.(ops := s.ops - {t.lower(p)})
  }

  function ExecuteAll(t: Text, s: Server, cmds: seq<Command>): Server {
    if cmds == [] then s else Execute(t, ExecuteAll(t, s, cmds[..|cmds| - 1]), cmds[|cmds| - 1])
  }

  /** A starting server makes its lists match those it is given; it leaves a list
      alone where it is given none. */
  function Boot(t: Text, given: Settings, s: Server): Server {
    Server(
      if given.whitelist != [] && !given.open then LowerSet(t, given.whitelist) else s.whitelist,
      !given.open,
      if given.ops != [] then LowerSet(t, given.ops) else s.ops)
  }

  // ----------------------------------------------------------------- the edit

  function Unique(t: Text, names: seq<string>): seq<string> {
    if names == [] then []
    else
      var front, p := Unique(t, names[..|names| - 1]), t.trim(names[|names| - 1]);
      if p == "" || p in front then front else front + [p]
  }

  ghost predicate Spelt(t: Text, names: seq<string>, p: string) {
    p != "" && exists n :: n in names && t.trim(n) == p
  }

  ghost predicate OnceEach(s: seq<string>) {
    forall i, j | 0 <= i < j < |s| :: s[i] != s[j]
  }

  /** Stripped, not empty, and once each in every spelling. */
  lemma {:induction false} UniqueKeepsSpellings(t: Text, names: seq<string>)
    ensures forall p :: p in Unique(t, names) <==> Spelt(t, names, p)
    ensures OnceEach(Unique(t, names))
  {
    if names == [] {
      assert Unique(t, names) == [];
    } else {
      var front, last := names[..|names| - 1], names[|names| - 1];
      assert names == front + [last];
      UniqueKeepsSpellings(t, front);
      var r := Unique(t, front);
      var whole, x := Unique(t, names), t.trim(last);
      assert whole == if x == "" || x in r then r else r + [x];
      AppendedOnce(r, x);
      forall p
        ensures p in Unique(t, names) <==> Spelt(t, names, p)
      {
        assert last in names && forall n :: n in names <==> n in front || n == last;
        assert Spelt(t, names, p) <==> Spelt(t, front, p) || (p != "" && x == p);
      }
    }
  }

  lemma AppendedOnce(r: seq<string>, x: string)
    requires OnceEach(r)
    ensures x !in r ==> OnceEach(r + [x])
  {
  }

  function Adds(players: seq<string>, known: seq<string>, all: bool): seq<Command> {
    if players == [] then []
    else
      var front, p := Adds(players[..|players| - 1], known, all), players[|players| - 1];
      if all || p !in known then front + [Add(p)] else front
  }

  function Removes(known: seq<string>, players: seq<string>): seq<Command> {
    if known == [] then []
    else
      var front, p := Removes(known[..|known| - 1], players), known[|known| - 1];
      if p !in players then front + [Remove(p)] else front
  }

  function Switch(was: bool, open: bool): seq<Command> { if was == open then [] else [Enforce(!open)] }

  function Opped(t: Text, names: seq<string>, was: set<string>): seq<Command> {
    if names == [] then []
    else
      var front, p := Opped(t, names[..|names| - 1], was), names[|names| - 1];
      if t.lower(p) in was then front else front + [Op(p)]
  }

  function Deopped(t: Text, names: seq<string>, now: set<string>): seq<Command> {
    if names == [] then []
    else
      var front, p := Deopped(t, names[..|names| - 1], now), names[|names| - 1];
      if t.lower(p) in now then front else front + [Deop(p)]
  }

  /** What a running server is told: case matters for the whitelist only. */
  function Commands(t: Text, before: Settings, next: Settings): seq<Command> {
    Adds(next.whitelist, before.whitelist, before.open && !next.open)
    + Removes(before.whitelist, next.whitelist)
    + Switch(before.open, next.open)
    + Opped(t, next.ops, LowerSet(t, before.ops))
    + Deopped(t, before.ops, LowerSet(t, next.ops))
  }

  /** The settings an edit asks for. */
  function Requested(t: Text, s: Settings, names: seq<string>, open: bool, ops: Option<seq<string>>): Settings {
    var players := Unique(t, names);
    Settings(players, NextOps(t, s.whitelist, if ops.None? then s.ops else ops.value, players, open), open)
  }

  function Judged(t: Text, w: State, next: Settings): Answer {
    if !ValidPlayers(t, next) then BadPlayers
    else if w.phase.Starting? && next.open != w.record.open then AccessWhileStarting
    else if w.phase.Starting? && !SamePlayers(t, w.record.ops, next.ops) then AdminsWhileStarting
    else if w.phase.Stopped? && ClearsLastAdmin(w.record.ops, next.ops) then LastAdmin
    else Accepted
  }

  function Edited(t: Text, w: State, next: Settings): State {
    if !Judged(t, w, next).Accepted? then w
    else w.(record := next,
            server := if w.phase.Live? then ExecuteAll(t, w.server, Commands(t, w.record, next)) else w.server)
  }

  class World {
    const text: Text
    var record: Settings
    var rendered: Settings
    var phase: Phase
    var server: Server

    constructor (text: Text, w: State)
      ensures this.text == text && Now() == w
    {
      this.text, record, rendered, phase, server := text, w.record, w.rendered, w.phase, w.server;
    }

    function Now(): State reads this { State(record, rendered, phase, server) }

    /** Changes who may join and who is admin; a running server is told at once. */
    method SetWhitelist(names: seq<string>, open: bool, ops: Option<seq<string>>) returns (a: Answer)
      modifies this`record, this`server
      ensures var next := Requested(text, old(record), names, open, ops);
        a == Judged(text, old(Now()), next) && Now() == Edited(text, old(Now()), next)
    {
      var players := DistinctNames(names);
      var requested := if ops.None? then record.ops else ops.value;
      var newOps := NextOps(text, record.whitelist, requested, players, open);
      var next := Settings(players, newOps, open);
      if !ValidPlayers(text, next) {
        return BadPlayers;
      }
      if phase.Starting? && open != record.open {
        return AccessWhileStarting;
      }
      if phase.Starting? && !SamePlayers(text, record.ops, newOps) {
        return AdminsWhileStarting;
      }
      if phase.Stopped? && ClearsLastAdmin(record.ops, newOps) {
        return LastAdmin;
      }
      if phase.Live? {
        var cmds := CommandsFor(record, next);
        server := ExecuteAll(text, server, cmds);
      }
      record := next;
      a := Accepted;
    }

    method DistinctNames(names: seq<string>) returns (players: seq<string>)
      ensures players == Unique(text, names)
    {
      players := [];
      for k := 0 to |names|
        invariant players == Unique(text, names[..k])
      {
        assert names[..k + 1][..k] == names[..k];
        var p := text.trim(names[k]);
        if p != "" && p !in players {
          players := players + [p];
        }
      }
      assert names[..|names|] == names;
    }

    method CommandsFor(before: Settings, next: Settings) returns (cmds: seq<Command>)
      ensures cmds == Commands(text, before, next)
    {
      var access := AccessCommands(before, next);
      var admins := AdminCommands(before.ops, next.ops);
      cmds := access + admins;
      CommandsInOrder(text, before, next);
    }

    method AccessCommands(before: Settings, next: Settings) returns (cmds: seq<Command>)
      ensures cmds == Adds(next.whitelist, before.whitelist, before.open && !next.open)
                      + Removes(before.whitelist, next.whitelist) + Switch(before.open, next.open)
    {
      cmds := [];
      var closing := before.open && !next.open;
      for k := 0 to |next.whitelist|
        invariant cmds == Adds(next.whitelist[..k], before.whitelist, closing)
      {
        assert next.whitelist[..k + 1][..k] == next.whitelist[..k];
        if closing || next.whitelist[k] !in before.whitelist {
          cmds := cmds + [Add(next.whitelist[k])];
        }
      }
      assert next.whitelist[..|next.whitelist|] == next.whitelist;
      ghost var done := cmds;
      for k := 0 to |before.whitelist|
        invariant cmds == done + Removes(before.whitelist[..k], next.whitelist)
      {
        assert before.whitelist[..k + 1][..k] == before.whitelist[..k];
        if before.whitelist[k] !in next.whitelist {
          cmds := cmds + [Remove(before.whitelist[k])];
        }
      }
      assert before.whitelist[..|before.whitelist|] == before.whitelist;
      if next.open != before.open {
        cmds := cmds + [Enforce(!next.open)];
      }
    }

    method AdminCommands(before: seq<string>, next: seq<string>) returns (cmds: seq<Command>)
      ensures cmds == Opped(text, next, LowerSet(text, before)) + Deopped(text, before, LowerSet(text, next))
    {
      var wasOp, isOp := LowerSet(text, before), LowerSet(text, next);
      cmds := [];
      for k := 0 to |next|
        invariant cmds == Opped(text, next[..k], wasOp)
      {
        assert next[..k + 1][..k] == next[..k];
        if text.lower(next[k]) !in wasOp {
          cmds := cmds + [Op(next[k])];
        }
      }
      assert next[..|next|] == next;
      ghost var done := cmds;
      for k := 0 to |before|
        invariant cmds == done + Deopped(text, before[..k], isOp)
      {
        assert before[..k + 1][..k] == before[..k];
        if text.lower(before[k]) !in isOp {
          cmds := cmds + [Deop(before[k])];
        }
      }
      assert before[..|before|] == before;
    }
  }

  lemma CommandsInOrder(t: Text, before: Settings, next: Settings)
    ensures Commands(t, before, next) ==
      (Adds(next.whitelist, before.whitelist, before.open && !next.open)
       + Removes(before.whitelist, next.whitelist) + Switch(before.open, next.open))
      + (Opped(t, next.ops, LowerSet(t, before.ops)) + Deopped(t, before.ops, LowerSet(t, next.ops)))
  {
    hide Adds, Removes, Switch, Opped, Deopped, LowerSet;
  }

  // --------------------------------------------- what the commands come to

  lemma {:induction false} ExecuteAppend(t: Text, s: Server, a: seq<Command>, b: seq<Command>)
    ensures ExecuteAll(t, s, a + b) == ExecuteAll(t, ExecuteAll(t, s, a), b)
  {
    if b == [] {
      assert a + b == a;
    } else {
      assert (a + b)[..|a + b| - 1] == a + b[..|b| - 1];
      ExecuteAppend(t, s, a, b[..|b| - 1]);
    }
  }

  function Added(t: Text, players: seq<string>, known: seq<string>, all: bool): set<string> {
    set p | p in players && (all || p !in known) :: t.lower(p)
  }

  function Removed(t: Text, known: seq<string>, players: seq<string>): set<string> {
    set p | p in known && p !in players :: t.lower(p)
  }

  lemma ExecuteOneMore(t: Text, s: Server, front: seq<Command>, c: Command)
    ensures ExecuteAll(t, s, front + [c]) == Execute(t, ExecuteAll(t, s, front), c)
  {
    assert (front + [c])[..|front|] == front;
  }

  lemma {:induction false} AddsDo(t: Text, s: Server, players: seq<string>, known: seq<string>, all: bool)
    ensures ExecuteAll(t, s, Adds(players, known, all)) == s.(whitelist := s.whitelist + Added(t, players, known, all))
  {
    if players == [] {
      assert Added(t, players, known, all) == {};
    } else {
      var front, p := players[..|players| - 1], players[|players| - 1];
      assert players == front + [p];
      var low := t.lower(p);
      assert Added(t, players, known, all) == Added(t, front, known, all) + (if all || p !in known then {low} else {});
      hide Added;
      AddsDo(t, s, front, known, all);
      ExecuteOneMore(t, s, Adds(front, known, all), Add(p));
      assert s.whitelist + (Added(t, front, known, all) + {low}) == s.whitelist + Added(t, front, known, all) + {low};
    }
  }

  lemma {:induction false} RemovesDo(t: Text, s: Server, known: seq<string>, players: seq<string>)
    ensures ExecuteAll(t, s, Removes(known, players)) == s.(whitelist := s.whitelist - Removed(t, known, players))
  {
    if known == [] {
      assert Removed(t, known, players) == {};
    } else {
      var front, p := known[..|known| - 1], known[|known| - 1];
      assert known == front + [p];
      var low := t.lower(p);
      assert Removed(t, known, players) == Removed(t, front, players) + (if p !in players then {low} else {});
      hide Removed;
      RemovesDo(t, s, front, players);
      ExecuteOneMore(t, s, Removes(front, players), Remove(p));
      assert s.whitelist - (Removed(t, front, players) + {low}) == s.whitelist - Removed(t, front, players) - {low};
    }
  }

  lemma {:induction false} OppedDo(t: Text, s: Server, names: seq<string>, was: set<string>)
    ensures ExecuteAll(t, s, Opped(t, names, was)) == s.(ops := s.ops + (LowerSet(t, names) - was))
  {
    if names != [] {
      var front, p := names[..|names| - 1], names[|names| - 1];
      assert names == front + [p];
      var low := t.lower(p);
      assert LowerSet(t, names) == LowerSet(t, front) + {low};
      hide LowerSet;
      OppedDo(t, s, front, was);
      ExecuteOneMore(t, s, Opped(t, front, was), Op(p));
      assert low !in was ==> s.ops + (LowerSet(t, names) - was) == s.ops + (LowerSet(t, front) - was) + {low};
    }
  }

  lemma {:induction false} DeoppedDo(t: Text, s: Server, names: seq<string>, now: set<string>)
    ensures ExecuteAll(t, s, Deopped(t, names, now)) == s.(ops := s.ops - (LowerSet(t, names) - now))
  {
    if names != [] {
      var front, p := names[..|names| - 1], names[|names| - 1];
      assert names == front + [p];
      DeoppedDo(t, s, front, now);
      var low := t.lower(p);
      assert LowerSet(t, names) == LowerSet(t, front) + {low};
      hide LowerSet;
      ExecuteOneMore(t, s, Deopped(t, front, now), Deop(p));
      assert low !in now ==> s.ops - (LowerSet(t, names) - now) == s.ops - (LowerSet(t, front) - now) - {low};
    }
  }

  /** The server after the commands of an edit, in terms of its lists before. */
  lemma CommandsDo(t: Text, s: Server, before: Settings, next: Settings)
    ensures ExecuteAll(t, s, Commands(t, before, next)) == Server(
      s.whitelist + Added(t, next.whitelist, before.whitelist, before.open && !next.open)
        - Removed(t, before.whitelist, next.whitelist),
      if before.open == next.open then s.enforced else !next.open,
      s.ops + (LowerSet(t, next.ops) - LowerSet(t, before.ops)) - (LowerSet(t, before.ops) - LowerSet(t, next.ops)))
  {
    hide Adds, Removes, Opped, Deopped, LowerSet, Added, Removed;
    var a := Adds(next.whitelist, before.whitelist, before.open && !next.open);
    var r := Removes(before.whitelist, next.whitelist);
    var w, o := Switch(before.open, next.open), Opped(t, next.ops, LowerSet(t, before.ops));
    var d := Deopped(t, before.ops, LowerSet(t, next.ops));
    ExecuteAppend(t, s, a + r + w + o, d);
    ExecuteAppend(t, s, a + r + w, o);
    ExecuteAppend(t, s, a + r, w);
    ExecuteAppend(t, s, a, r);
    AddsDo(t, s, next.whitelist, before.whitelist, before.open && !next.open);
    var s1 := ExecuteAll(t, s, a);
    RemovesDo(t, s1, before.whitelist, next.whitelist);
    var s2 := ExecuteAll(t, s1, r);
    SwitchDoes(t, s2, before.open, next.open);
    var s3 := ExecuteAll(t, s2, w);
    OppedDo(t, s3, next.ops, LowerSet(t, before.ops));
    DeoppedDo(t, ExecuteAll(t, s3, o), before.ops, LowerSet(t, next.ops));
  }

  /** Whenever the whitelist is in force while a world is being closed, it is already the
      one that is meant: nobody listed is kept out in between. */
  lemma ClosesLast(t: Text, s: Server, before: Settings, next: Settings, k: nat)
    requires !s.enforced && k <= |Commands(t, before, next)|
    ensures var now := ExecuteAll(t, s, Commands(t, before, next)[..k]);
      now.enforced ==> now.whitelist == ExecuteAll(t, s, Commands(t, before, next)).whitelist
  {
    var lists := Adds(next.whitelist, before.whitelist, before.open && !next.open)
      + Removes(before.whitelist, next.whitelist);
    var admins := Switch(before.open, next.open)
      + (Opped(t, next.ops, LowerSet(t, before.ops)) + Deopped(t, before.ops, LowerSet(t, next.ops)));
    var cmds := Commands(t, before, next);
    CommandsInOrder(t, before, next);
    AreLists(t, before, next);
    AreAdmins(t, before, next);
    hide Adds, Removes, Opped, Deopped, LowerSet, Commands, Switch;
    assert cmds == lists + admins;
    if k <= |lists| {
      assert cmds[..k] == lists[..k];
      ListsKeepSwitch(t, s, lists[..k]);
    } else {
      assert cmds[..k] == lists + admins[..k - |lists|];
      ExecuteAppend(t, s, lists, admins[..k - |lists|]);
      ExecuteAppend(t, s, lists, admins);
      AdminsKeepList(t, ExecuteAll(t, s, lists), admins[..k - |lists|]);
      AdminsKeepList(t, ExecuteAll(t, s, lists), admins);
    }
  }

  lemma {:induction false} ListsKeepSwitch(t: Text, s: Server, cmds: seq<Command>)
    requires forall c | c in cmds :: c.Add? || c.Remove?
    ensures ExecuteAll(t, s, cmds).enforced == s.enforced
  {
    if cmds != [] {
      assert cmds[|cmds| - 1] in cmds;
      ListsKeepSwitch(t, s, cmds[..|cmds| - 1]);
    }
  }

  lemma {:induction false} AdminsKeepList(t: Text, s: Server, cmds: seq<Command>)
    requires forall c | c in cmds :: !c.Add? && !c.Remove?
    ensures ExecuteAll(t, s, cmds).whitelist == s.whitelist
  {
    if cmds != [] {
      assert cmds[|cmds| - 1] in cmds;
      AdminsKeepList(t, s, cmds[..|cmds| - 1]);
    }
  }

  lemma {:induction false} AddsAre(players: seq<string>, known: seq<string>, all: bool)
    ensures forall c | c in Adds(players, known, all) :: c.Add?
  {
    if players != [] { AddsAre(players[..|players| - 1], known, all); }
  }

  lemma {:induction false} RemovesAre(known: seq<string>, players: seq<string>)
    ensures forall c | c in Removes(known, players) :: c.Remove?
  {
    if known != [] { RemovesAre(known[..|known| - 1], players); }
  }

  lemma {:induction false} OppedAre(t: Text, names: seq<string>, keys: set<string>)
    ensures forall c | c in Opped(t, names, keys) :: c.Op?
    ensures forall c | c in Deopped(t, names, keys) :: c.Deop?
  {
    if names != [] { OppedAre(t, names[..|names| - 1], keys); }
  }

  lemma AreLists(t: Text, before: Settings, next: Settings)
    ensures forall c | c in Adds(next.whitelist, before.whitelist, before.open && !next.open)
      + Removes(before.whitelist, next.whitelist) :: c.Add? || c.Remove?
  {
    AddsAre(next.whitelist, before.whitelist, before.open && !next.open);
    RemovesAre(before.whitelist, next.whitelist);
  }

  lemma AreAdmins(t: Text, before: Settings, next: Settings)
    ensures forall c | c in Switch(before.open, next.open)
      + (Opped(t, next.ops, LowerSet(t, before.ops)) + Deopped(t, before.ops, LowerSet(t, next.ops))) ::
      !c.Add? && !c.Remove?
  {
    OppedAre(t, next.ops, LowerSet(t, before.ops));
    OppedAre(t, before.ops, LowerSet(t, next.ops));
    hide Opped, Deopped, LowerSet;
  }

  lemma SwitchDoes(t: Text, s: Server, was: bool, open: bool)
    ensures ExecuteAll(t, s, Switch(was, open)) == s.(enforced := if was == open then s.enforced else !open)
  {
    if was != open { ExecuteOneMore(t, s, [], Enforce(!open)); assert [] + [Enforce(!open)] == [Enforce(!open)]; }
  }

  // --------------------------------------------------- admins over whole runs

  /** The server once it is next up, without anything else happening. */
  function Up(t: Text, w: State): Server {
    match w.phase
    case Live => w.server
    case Starting => Boot(t, w.rendered, w.server)
    case _ => Boot(t, w.record, w.server)
  }

  /** The server has, or is about to have, exactly the record's admins, and lets
      in whom the record says. */
  ghost predicate InSync(t: Text, w: State) {
    Up(t, w).ops == LowerSet(t, w.record.ops) && Up(t, w).enforced == !w.record.open
  }

  datatype Event =
    | Edit(names: seq<string>, open: bool, ops: Option<seq<string>>)
    | Start
    | Reinstall
    | Ready
    | Restart
    | Stop(booted: bool)
    | Restore(backup: Server)

  /** An edit; a start, or other settings, which install the server anew; a pod
      becoming ready; a pod replaced by another of the same install; a stop,
      perhaps before the lists were looked at; a restore, or a repeated launch,
      which replaces the lists by a backup's and installs the server. */
  ghost predicate Next(t: Text, w: State, e: Event, w': State) {
    match e
    case Edit(names, open, ops) =>
      w' == Edited(t, w, Requested(t, w.record, names, open, ops))
    case Start =>
      w' == w.(phase := Starting, rendered := w.record)
    case Reinstall =>
      && !w.phase.NotInstalled?
      && w' == w.(phase := if w.phase.Stopped? then Stopped else Starting, rendered := w.record)
    case Ready =>
      w.phase.Starting? && w' == w.(phase := Live, server := Boot(t, w.rendered, w.server))
    case Restart =>
      (w.phase.Starting? || w.phase.Live?) && w' == w.(phase := Starting)
    case Stop(booted) =>
      && !w.phase.NotInstalled?
      && w' == w.(
           phase := Stopped,
           server := if booted && w.phase.Starting? then Boot(t, w.rendered, w.server) else w.server)
    case Restore(backup) =>
      w' == w.(phase := Starting, rendered := w.record, server := backup)
  }

  lemma EmptyLowerSet(t: Text, names: seq<string>)
    ensures LowerSet(t, names) == {} <==> names == []
  {
    if names != [] { assert t.lower(names[0]) in LowerSet(t, names); }
  }

  /** An edit nothing guards: it clears the admins of a world that has not been
      installed yet, whose volume holds some. */
  ghost predicate ClearsUninstalled(t: Text, w: State, next: Settings) {
    w.phase.NotInstalled? && next.ops == [] && w.server.ops != {} && Judged(t, w, next).Accepted?
  }

  /** The last install passed on other admins than the server has now, or another
      access mode. */
  predicate Stale(t: Text, w: State) {
    || (w.rendered.ops != [] && LowerSet(t, w.rendered.ops) != LowerSet(t, w.record.ops))
    || w.rendered.open != w.record.open
  }

  /** The events after which the server does not come to what the record says. */
  ghost predicate Drifts(t: Text, w: State, e: Event) {
    match e
    case Edit(names, open, ops) => ClearsUninstalled(t, w, Requested(t, w.record, names, open, ops))
    case Restart => w.phase.Live? && Stale(t, w)
    case Restore(backup) => w.record.ops == [] && backup.ops != {}
    case _ => false
  }

  /** From a world in sync, an event keeps it so if and only if it is not one of
      those. */
  lemma StepKeepsSyncIff(t: Text, w: State, e: Event, w': State)
    requires InSync(t, w) && Next(t, w, e, w')
    ensures InSync(t, w') <==> !Drifts(t, w, e)
  {
    hide LowerSet, Requested, ValidPlayers, Commands;
    EmptyLowerSet(t, w.record.ops);
    EmptyLowerSet(t, w.rendered.ops);
    if e.Edit? {
      var next := Requested(t, w.record, e.names, e.open, e.ops);
      EmptyLowerSet(t, next.ops);
      CommandsDo(t, w.server, w.record, next);
    }
  }

  ghost predicate IsRun(t: Text, states: seq<State>, events: seq<Event>) {
    && |states| == |events| + 1
    && forall i | 0 <= i < |events| :: Next(t, states[i], events[i], states[i + 1])
  }

  ghost predicate NeverDrifts(t: Text, states: seq<State>, events: seq<Event>, n: nat)
    requires |states| == |events| + 1 && n <= |events|
  {
    forall i | 0 <= i < n :: !Drifts(t, states[i], events[i])
  }

  /** Over every run that starts in sync, the admins of the record are those the
      server has or will have when it is up, and likewise who may join, for as
      long as no event drifts. */
  lemma {:induction false} AdminsNeverDrift(t: Text, states: seq<State>, events: seq<Event>, n: nat)
    requires IsRun(t, states, events) && InSync(t, states[0]) && n < |states| && NeverDrifts(t, states, events, n)
    ensures InSync(t, states[n])
    ensures n < |events| ==> (InSync(t, states[n + 1]) <==> !Drifts(t, states[n], events[n]))
  {
    hide InSync, Next, Drifts;
    if n > 0 {
      AdminsNeverDrift(t, states, events, n - 1);
      StepKeepsSyncIff(t, states[n - 1], events[n - 1], states[n]);
    }
    if n < |events| {
      StepKeepsSyncIff(t, states[n], events[n], states[n + 1]);
    }
  }

  /** Names of one to sixteen letters, digits and underscores, and, where only listed
      players may join, every admin listed in some spelling. */
  ghost predicate Playable(t: Text, s: Settings) {
    && (forall n, c | (n in s.whitelist || n in s.ops) && c in n :: t.alnum(c) || c == '_')
    && (forall n | n in s.whitelist || n in s.ops :: 1 <= |n| <= 16)
    && (s.open || forall admin | admin in s.ops :: exists p :: p in s.whitelist && t.lower(p) == t.lower(admin))
  }

  lemma ValidIsPlayable(t: Text, s: Settings)
    ensures ValidPlayers(t, s) <==> Playable(t, s)
  {
    forall admin | admin in s.ops
      ensures t.lower(admin) in LowerSet(t, s.whitelist) <==>
        exists p :: p in s.whitelist && t.lower(p) == t.lower(admin)
    {
    }
    assert forall n :: n in s.whitelist + s.ops <==> n in s.whitelist || n in s.ops;
    assert LowerSet(t, s.ops) <= LowerSet(t, s.whitelist) <==>
      forall admin | admin in s.ops :: t.lower(admin) in LowerSet(t, s.whitelist) by {
      assert forall admin | admin in s.ops :: t.lower(admin) in LowerSet(t, s.ops);
    }
  }

  /** An edit is refused for its names exactly if what it asks for breaks these rules;
      so over every run from a record that keeps them, every record does: on a closed
      world no admin is ever locked out. */
  lemma {:induction false} RecordStaysPlayable(t: Text, states: seq<State>, events: seq<Event>, n: nat)
    requires IsRun(t, states, events) && Playable(t, states[0].record) && n < |states|
    ensures Playable(t, states[n].record)
    ensures n < |events| && events[n].Edit? ==>
      var next := Requested(t, states[n].record, events[n].names, events[n].open, events[n].ops);
      Judged(t, states[n], next).BadPlayers? <==> !Playable(t, next)
  {
    hide Playable, Requested, ValidPlayers, ExecuteAll, Boot;
    if n > 0 {
      RecordStaysPlayable(t, states, events, n - 1);
      var e := events[n - 1];
      if e.Edit? {
        ValidIsPlayable(t, Requested(t, states[n - 1].record, e.names, e.open, e.ops));
      }
      assert Next(t, states[n - 1], e, states[n - 1 + 1]);
    }
    if n < |events| && events[n].Edit? {
      ValidIsPlayable(t, Requested(t, states[n].record, events[n].names, events[n].open, events[n].ops));
    }
  }

  /** A world just launched from a backup with these player lists. */
  function Launched(settings: Settings, backup: Server): State {
    State(settings, settings, NotInstalled, backup)
  }

  /** Such a world starts in sync if it has admins or the backup has none. */
  lemma LaunchIsInSyncIff(t: Text, settings: Settings, backup: Server)
    ensures InSync(t, Launched(settings, backup)) <==> settings.ops != [] || backup.ops == {}
  {
    EmptyLowerSet(t, settings.ops);
  }

  /** A launch whose admins are then cleared drifts: the backup's admins stay. */
  lemma ClearedLaunchDrifts(t: Text, admin: string, backup: Server)
    requires backup.ops != {} && GoodName(t, admin)
    ensures var w := Launched(Settings([], [admin], true), backup);
      var e := Edit([], true, Some([]));
      var w' := Edited(t, w, Requested(t, w.record, [], true, Some([])));
      InSync(t, w) && Next(t, w, e, w') && Drifts(t, w, e) && Up(t, w').ops == backup.ops && w'.record.ops == []
  {
    LaunchIsInSyncIff(t, Settings([], [admin], true), backup);
    assert Requested(t, Settings([], [admin], true), [], true, Some([])) == Settings([], [], true);
  }

  /** After a live edit that changes admins which the install had passed on, a pod
      that is replaced brings the old ones back. */
  lemma RestartBringsAdminsBack(t: Text, w: State, next: Settings)
    requires w.phase.Live? && InSync(t, w) && w.rendered == w.record && w.record.ops != []
    requires Judged(t, w, next).Accepted? && !SamePlayers(t, w.record.ops, next.ops)
    ensures var w' := Edited(t, w, next);
      InSync(t, w') && Drifts(t, w', Restart) && Up(t, w'.(phase := Starting)).ops == LowerSet(t, w.record.ops)
  {
    hide ValidPlayers, Commands;
    CommandsDo(t, w.server, w.record, next);
  }

  /** Editing a running server, or a stopped one and then starting it, comes to
      the same admins. */
  lemma LiveEditMatchesRestart(t: Text, w: State, next: Settings)
    requires w.phase.Live? && w.server.ops == LowerSet(t, w.record.ops)
    requires Judged(t, w, next).Accepted? && Judged(t, w.(phase := Stopped), next).Accepted?
    ensures Up(t, Edited(t, w, next)).ops == Up(t, Edited(t, w.(phase := Stopped), next)).ops == LowerSet(t, next.ops)
  {
    hide ValidPlayers, Commands;
    CommandsDo(t, w.server, w.record, next);
    EmptyLowerSet(t, w.record.ops);
    EmptyLowerSet(t, next.ops);
  }

  /** An edit of a stopped world is refused exactly when starting it would not
      bring the new admins. */
  lemma StoppedRefusalIsExact(t: Text, w: State, next: Settings)
    requires w.phase.Stopped? && w.server.ops == LowerSet(t, w.record.ops) && ValidPlayers(t, next)
    ensures Judged(t, w, next).Accepted? <==> Boot(t, next, w.server).ops == LowerSet(t, next.ops)
  {
    EmptyLowerSet(t, w.record.ops);
    EmptyLowerSet(t, next.ops);
  }

  /** An edit of a starting world is refused exactly when the booting server would
      not have the new admins and access. */
  lemma StartingRefusalIsExact(t: Text, w: State, next: Settings)
    requires w.phase.Starting? && InSync(t, w) && ValidPlayers(t, next)
    ensures Judged(t, w, next).Accepted? <==>
      var up := Boot(t, w.rendered, w.server); up.ops == LowerSet(t, next.ops) && up.enforced == !next.open
  {
  }

  // -------------------------------------------------------------- whitelist

  /** A name taken off the list that differs only in case from one that stays. */
  ghost predicate Respells(t: Text, before: Settings, next: Settings) {
    exists p :: p in before.whitelist && p !in next.whitelist && t.lower(p) in LowerSet(t, next.whitelist)
  }

  /** An edit of a closed, running world reaches the new whitelist if and only if
      it does not respell a name. */
  lemma WhitelistFollowsIff(t: Text, s: Server, before: Settings, next: Settings)
    requires !before.open && s.whitelist == LowerSet(t, before.whitelist)
    ensures ExecuteAll(t, s, Commands(t, before, next)).whitelist == LowerSet(t, next.whitelist)
      <==> !Respells(t, before, next)
  {
    hide Commands;
    CommandsDo(t, s, before, next);
    var after := ExecuteAll(t, s, Commands(t, before, next)).whitelist;
    var added := Added(t, next.whitelist, before.whitelist, false);
    var removed := Removed(t, before.whitelist, next.whitelist);
    assert after == s.whitelist + added - removed;
    if Respells(t, before, next) {
      var p :| p in before.whitelist && p !in next.whitelist && t.lower(p) in LowerSet(t, next.whitelist);
      assert t.lower(p) in removed;
    } else {
      forall x | x in LowerSet(t, next.whitelist)
        ensures x in after
      {
        var p :| p in next.whitelist && t.lower(p) == x;
        assert p in before.whitelist || x in added;
      }
      forall x | x in after
        ensures x in LowerSet(t, next.whitelist)
      {
        if x in s.whitelist {
          var p :| p in before.whitelist && t.lower(p) == x;
          assert p in next.whitelist;
        }
      }
    }
  }

  lemma RespelledIsRemoved(t: Text, before: Settings, next: Settings)
    ensures Respells(t, before, next) <==>
      exists x :: x in Removed(t, before.whitelist, next.whitelist) && x in LowerSet(t, next.whitelist)
  {
    if Respells(t, before, next) {
      var p :| p in before.whitelist && p !in next.whitelist && t.lower(p) in LowerSet(t, next.whitelist);
      assert t.lower(p) in Removed(t, before.whitelist, next.whitelist);
    }
    if x :| x in Removed(t, before.whitelist, next.whitelist) && x in LowerSet(t, next.whitelist) {
      var p :| p in before.whitelist && p !in next.whitelist && t.lower(p) == x;
    }
  }

  /** Closing an open, running world, whatever its whitelist had become, lets in
      everybody listed if and only if no name is respelled, and nobody else if and
      only if in addition nobody is left that the edit does not name. */
  lemma ClosingAdmitsEveryoneIff(t: Text, s: Server, before: Settings, next: Settings)
    requires before.open && !next.open
    ensures var after := ExecuteAll(t, s, Commands(t, before, next)).whitelist;
      && (LowerSet(t, next.whitelist) <= after <==> !Respells(t, before, next))
      && (after == LowerSet(t, next.whitelist) <==>
            (!Respells(t, before, next)
             && s.whitelist - Removed(t, before.whitelist, next.whitelist) <= LowerSet(t, next.whitelist)))
  {
    hide Commands;
    CommandsDo(t, s, before, next);
    assert Added(t, next.whitelist, before.whitelist, true) == LowerSet(t, next.whitelist);
    RespelledIsRemoved(t, before, next);
    hide Respells, Removed, LowerSet, Added;
  }

  /** A change of spelling shuts the player out of the running server, although
      the record lists them. */
  lemma RespellingShutsOut(t: Text, a: string, b: string)
    requires a != b && t.lower(a) == t.lower(b)
    ensures var before, next := Settings([a], [], false), Settings([b], [], false);
      ExecuteAll(t, Server({t.lower(a)}, true, {}), Commands(t, before, next)).whitelist == {}
  {
    hide Commands;
    var before, next := Settings([a], [], false), Settings([b], [], false);
    CommandsDo(t, Server({t.lower(a)}, true, {}), before, next);
    assert Removed(t, [a], [b]) == {t.lower(a)};
  }

  // ---------------------------------------------- the whitelist over whole runs

  /** A closed world lets in, or will when it is up, exactly the listed players. */
  ghost predicate InForce(t: Text, w: State) {
    !w.record.open ==> Up(t, w).whitelist == LowerSet(t, w.record.whitelist)
  }

  /** An accepted edit that leaves the world closed and whose list does not come
      into force: it respells a name, or closes over others; it comes while the
      server is booting with the old list; or it is empty, which leaves the file of
      a stopped world alone. */
  ghost predicate MissesList(t: Text, w: State, next: Settings) {
    && Judged(t, w, next).Accepted? && !next.open
    && match w.phase
       case Live =>
         || Respells(t, w.record, next)
         || (w.record.open
             && !(w.server.whitelist - Removed(t, w.record.whitelist, next.whitelist) <= LowerSet(t, next.whitelist)))
       case Starting => !SamePlayers(t, w.record.whitelist, next.whitelist)
       case _ => next.whitelist == [] && w.server.whitelist != {}
  }

  /** The last install passed on another list than the record's. */
  predicate StaleList(t: Text, w: State) {
    !w.rendered.open && w.rendered.whitelist != [] && !SamePlayers(t, w.rendered.whitelist, w.record.whitelist)
  }

  /** The events after which the whitelist is late or lost. */
  ghost predicate LateOrLost(t: Text, w: State, e: Event) {
    match e
    case Edit(names, open, ops) => MissesList(t, w, Requested(t, w.record, names, open, ops))
    case Restart => !w.record.open && w.phase.Live? && StaleList(t, w)
    case Restore(backup) => !w.record.open && w.record.whitelist == [] && backup.whitelist != {}
    case _ => false
  }

  lemma EditKeepsListIff(t: Text, w: State, next: Settings)
    requires InForce(t, w)
    ensures InForce(t, Edited(t, w, next)) <==> !MissesList(t, w, next)
  {
    hide ValidPlayers, Commands, ClearsLastAdmin;
    EmptyLowerSet(t, next.whitelist);
    if Judged(t, w, next).Accepted? && w.phase.Live? && !next.open {
      if w.record.open {
        ClosingAdmitsEveryoneIff(t, w.server, w.record, next);
      } else {
        WhitelistFollowsIff(t, w.server, w.record, next);
      }
    }
    hide Respells, Removed, LowerSet;
  }

  /** From a world whose list is in force, an event keeps it so if and only if it is
      not one of those. */
  lemma StepKeepsListIff(t: Text, w: State, e: Event, w': State)
    requires InForce(t, w) && Next(t, w, e, w')
    ensures InForce(t, w') <==> !LateOrLost(t, w, e)
  {
    EmptyLowerSet(t, w.record.whitelist);
    EmptyLowerSet(t, w.rendered.whitelist);
    if e.Edit? {
      EditKeepsListIff(t, w, Requested(t, w.record, e.names, e.open, e.ops));
      hide InForce, MissesList, Edited;
    }
    hide Edited, MissesList, LowerSet, Requested;
  }

  ghost predicate NeverLate(t: Text, states: seq<State>, events: seq<Event>, n: nat)
    requires |states| == |events| + 1 && n <= |events|
  {
    forall i | 0 <= i < n :: !LateOrLost(t, states[i], events[i])
  }

  /** Over every run that starts with its list in force, the list stays in force
      until an event makes it late or loses it, and the first that does breaks it. */
  lemma {:induction false} WhitelistStaysInForce(t: Text, states: seq<State>, events: seq<Event>, n: nat)
    requires IsRun(t, states, events) && InForce(t, states[0]) && n < |states| && NeverLate(t, states, events, n)
    ensures InForce(t, states[n])
    ensures n < |events| ==> (InForce(t, states[n + 1]) <==> !LateOrLost(t, states[n], events[n]))
  {
    hide InForce, Next, LateOrLost;
    if n > 0 {
      WhitelistStaysInForce(t, states, events, n - 1);
      StepKeepsListIff(t, states[n - 1], events[n - 1], states[n]);
    }
    if n < |events| {
      StepKeepsListIff(t, states[n], events[n], states[n + 1]);
    }
  }

  /** Whatever has been missed, the next install makes good, except for a list that
      is empty where the server's is not. */
  lemma InstallMakesGoodIff(t: Text, w: State, e: Event, w': State)
    requires (e.Start? || e.Reinstall?) && Next(t, w, e, w')
    ensures InForce(t, w') <==> w.record.open || w.record.whitelist != [] || w.server.whitelist == {}
    ensures InSync(t, w') <==> w.record.ops != [] || w.server.ops == {}
  {
    EmptyLowerSet(t, w.record.whitelist);
    EmptyLowerSet(t, w.record.ops);
    hide LowerSet, Edited;
  }

  /** A new world that has just been started and lists nobody: adding a player is
      accepted and comes too late. */
  lemma FirstPlayerIsLate(t: Text, player: string)
    requires GoodName(t, player) && t.trim(player) == player
    ensures var none := Settings([], [], false);
      var w := State(none, none, Starting, Server({}, true, {}));
      var next := Requested(t, none, [player], false, None);
      && InForce(t, w) && InSync(t, w) && Judged(t, w, next).Accepted?
      && next.whitelist == [player] && !InForce(t, Edited(t, w, next))
  {
    var none := Settings([], [], false);
    var w := State(none, none, Starting, Server({}, true, {}));
    var next := Requested(t, none, [player], false, None);
    assert Unique(t, [player][..0]) == [];
    assert next == Settings([player], [], false);
    assert t.lower(player) in LowerSet(t, next.whitelist);
    EditKeepsListIff(t, w, next);
  }

  /** Taking the last player off the list of a stopped world is accepted, and the
      server still lets them in when it is started. */
  lemma LastPlayerStays(t: Text, player: string)
    ensures var before, none := Settings([player], [], false), Settings([], [], false);
      var w := State(before, before, Stopped, Server({t.lower(player)}, true, {}));
      && InForce(t, w) && Judged(t, w, none).Accepted?
      && Up(t, Edited(t, w, none)).whitelist == {t.lower(player)} && !InForce(t, Edited(t, w, none))
  {
    var before := Settings([player], [], false);
    var w := State(before, before, Stopped, Server({t.lower(player)}, true, {}));
    assert LowerSet(t, [player]) == {t.lower(player)};
    EditKeepsListIff(t, w, Settings([], [], false));
  }

  /** After a live edit of a list that the install had passed on, a pod that is
      replaced brings the old list back. */
  lemma RestartBringsListBack(t: Text, w: State, next: Settings)
    requires w.phase.Live? && InForce(t, w) && w.rendered == w.record && !w.record.open && w.record.whitelist != []
    requires Judged(t, w, next).Accepted? && !next.open && !MissesList(t, w, next)
    requires !SamePlayers(t, w.record.whitelist, next.whitelist)
    ensures var w' := Edited(t, w, next);
      InForce(t, w') && LateOrLost(t, w', Restart)
      && Up(t, w'.(phase := Starting)).whitelist == LowerSet(t, w.record.whitelist)
  {
    EditKeepsListIff(t, w, next);
    hide Respells, Removed, ValidPlayers, Commands;
  }
}
