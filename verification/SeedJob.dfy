/** Seeding a volume from a zip: where the world is in the zip, where each member
    goes, and what the volume holds afterwards. */
module SeedJob {
  import opened Collections
  import opened Wrappers
  import opened Naming

  type Content = seq<int>
  type Path = seq<string>

  datatype Member = Member(name: string, isDir: bool, isLink: bool, content: Content)

  const LEVEL := "level.dat"
  const WORLD := "world/"
  const MARKER := ".mcdash-seed.json"

  // ------------------------------------------------------------------ strings

  predicate Contains(s: string, t: string) {
    exists i :: 0 <= i <= |s| && t <= s[i..]
  }

  function Slashes(s: string): nat {
    if s == [] then 0 else (if s[0] == '/' then 1 else 0) + Slashes(s[1..])
  }

  /** The part in front of the first slash. */
  function Top(s: string): (r: string)
    ensures r <= s && '/' !in r
  {
    if s == [] || s[0] == '/' then [] else [s[0]] + Top(s[1..])
  }

  // --------------------------------------------------------- finding the world

  predicate IsJunk(n: string) { EndsWith(n, "/") || Contains(n, "__MACOSX/") }

  predicate InWorldDir(n: string) { n == WORLD + LEVEL || EndsWith(n, "/" + WORLD + LEVEL) }

  predicate IsLevel(n: string) { n == LEVEL || EndsWith(n, "/" + LEVEL) }

  function DirOf(n: string): string
    requires EndsWith(n, LEVEL)
  {
    n[..|n| - |LEVEL|]
  }

  /** Shallower, or as deep and not later in the alphabet. */
  predicate Before(a: string, b: string) {
    Slashes(a) < Slashes(b) || (Slashes(a) == Slashes(b) && StringLe(a, b))
  }

  function Least(dirs: seq<string>): (r: string)
    requires dirs != []
    ensures r in dirs
  {
    if |dirs| == 1 then dirs[0]
    else
      var rest := Least(dirs[..|dirs| - 1]);
      if Before(rest, dirs[|dirs| - 1]) then rest else dirs[|dirs| - 1]
  }

  /** The directories holding a level.dat, in the server's layout or another. */
  function WorldDirs(names: seq<string>, server: bool): seq<string> {
    if names == [] then []
    else
      var n := names[|names| - 1];
      var rest := WorldDirs(names[..|names| - 1], server);
      if IsWorldDir(n, server) then rest + [DirOf(n)] else rest
  }

  lemma {:induction false} WorldDirsAre(names: seq<string>, server: bool)
    ensures forall n | n in names && IsWorldDir(n, server) :: DirOf(n) in WorldDirs(names, server)
    ensures forall d | d in WorldDirs(names, server) :: exists n :: n in names && IsWorldDir(n, server) && d == DirOf(n)
  {
    hide IsWorldDir;
    if names != [] {
      var front, last := names[..|names| - 1], names[|names| - 1];
      assert names == front + [last];
      WorldDirsAre(front, server);
    }
  }

  predicate IsWorldDir(n: string, server: bool)
    ensures IsWorldDir(n, server) ==> EndsWith(n, LEVEL)
  {
    LevelSuffix(n);
    !IsJunk(n) && (if server then InWorldDir(n) else !InWorldDir(n) && IsLevel(n))
  }

  lemma LevelSuffix(n: string)
    ensures InWorldDir(n) || IsLevel(n) ==> EndsWith(n, LEVEL)
  {
    if EndsWith(n, "/" + WORLD + LEVEL) {
      assert n[|n| - |LEVEL|..] == n[|n| - |"/" + WORLD + LEVEL|..][|"/" + WORLD|..];
    } else if EndsWith(n, "/" + LEVEL) {
      assert n[|n| - |LEVEL|..] == n[|n| - |"/" + LEVEL|..][1..];
    }
  }

  predicate Slash(c: char) { c == '/' }

  /** What stands in front of the last slash, or nothing. */
  function Parent(s: string): string {
    if s == [] then [] else if s[|s| - 1] == '/' then s[..|s| - 1] else Parent(s[..|s| - 1])
  }

  /** The root of the data inside the zip, and the world's directory. */
  function Located(names: seq<string>): Option<(string, string)> {
    var server, other := WorldDirs(names, true), WorldDirs(names, false);
    if server != [] then
      var dir := Least(server);
      Some((if |dir| >= |WORLD| then dir[..|dir| - |WORLD|] else [], dir))
    else if other != [] then
      var dir := Least(other);
      var parent := Parent(RStrip(dir, Slash));
      Some((if parent != [] then parent + "/" else [], dir))
    else None
  }

  method FindWorld(names: seq<string>) returns (r: Option<(string, string)>)
    ensures r == Located(names)
  {
    var server: seq<string>, other: seq<string> := [], [];
    for k := 0 to |names|
      invariant server == WorldDirs(names[..k], true) && other == WorldDirs(names[..k], false)
    {
      var n := names[k];
      assert names[..k + 1][..k] == names[..k];
      LevelSuffix(n);
      if IsJunk(n) {
        continue;
      }
      if InWorldDir(n) {
        server := server + [DirOf(n)];
      } else if IsLevel(n) {
        other := other + [DirOf(n)];
      }
    }
    assert names[..|names|] == names;
    if server != [] {
      var dir := Least(server);
      return Some((if |dir| >= |WORLD| then dir[..|dir| - |WORLD|] else [], dir));
    }
    if other != [] {
      var dir := Least(other);
      var parent := Parent(RStrip(dir, Slash));
      return Some((if parent != [] then parent + "/" else [], dir));
    }
    r := None;
  }

  lemma {:induction false} SlashesAppend(a: string, b: string)
    ensures Slashes(a + b) == Slashes(a) + Slashes(b)
  {
    if a == [] {
      assert a + b == b;
    } else {
      assert (a + b)[1..] == a[1..] + b;
      SlashesAppend(a[1..], b);
    }
  }

  lemma {:induction false} LeastIsUniqueShallowest(dirs: seq<string>, d: string)
    requires d in dirs && forall e | e in dirs && e != d :: Slashes(d) < Slashes(e)
    ensures Least(dirs) == d
  {
    if |dirs| > 1 {
      var front, last := dirs[..|dirs| - 1], dirs[|dirs| - 1];
      assert last in dirs && forall e | e in front :: e in dirs;
      if d in front { LeastIsUniqueShallowest(front, d); }
      assert Least(front) in front;
    }
  }

  /** A world directory at the root of the zip is always the one that is found. */
  lemma RootWorldIsFound(names: seq<string>)
    requires WORLD + LEVEL in names
    ensures Located(names) == Some(([], WORLD))
  {
    var dirs := WorldDirs(names, true);
    NotJunk();
    assert IsWorldDir(WORLD + LEVEL, true) && DirOf(WORLD + LEVEL) == WORLD;
    WorldDirsAre(names, true);
    forall e | e in dirs && e != WORLD
      ensures Slashes(WORLD) < Slashes(e)
    {
      var n :| n in names && IsWorldDir(n, true) && e == DirOf(n);
      DeeperWorld(n);
    }
    LeastIsUniqueShallowest(dirs, WORLD);
  }

  /** The same names one or more directories deeper. */
  function Nested(p: string, names: seq<string>): (r: seq<string>)
    ensures |r| == |names| && forall k | 0 <= k < |r| :: r[k] == p + names[k]
  {
    seq(|names|, k requires 0 <= k < |names| => p + names[k])
  }

  /** The directory taken is the shallowest, and the first in the alphabet of
      those. */
  lemma {:induction false} LeastIsFirst(dirs: seq<string>, d: string)
    requires d in dirs
    ensures Before(Least(dirs), d)
  {
    var front, last := dirs[..|dirs| - 1], dirs[|dirs| - 1];
    StringLeTotal(d, d);
    if |dirs| > 1 {
      var rest := Least(front);
      StringLeTotal(rest, last);
      if d in front {
        LeastIsFirst(front, d);
        if StringLe(last, rest) && StringLe(rest, d) { StringLeTransitive(last, rest, d); }
      }
    }
  }

  lemma NestedIsNotJunk(p: string, n: string)
    requires EndsWith(p, "/") && !Contains(p, "__MACOSX/") && (n == LEVEL || n == WORLD + LEVEL)
    ensures !IsJunk(p + n)
  {
    var s, junk := p + n, "__MACOSX/";
    assert p[|p| - 1] == p[|p| - 1..][0] == '/';
    assert forall i | 0 <= i < |n| :: n[i] != '_';
    forall i | 0 <= i <= |s|
      ensures !(junk <= s[i..])
    {
      if i + |junk| <= |p| {
        assert !(junk <= p[i..]) && s[i..][..|junk|] == p[i..][..|junk|];
      } else if i < |p| && i + |junk| <= |s| {
        assert s[i..][|p| - 1 - i] == '/' && junk[|p| - 1 - i] != '/';
      } else if i < |s| {
        assert s[i..][0] == s[i] && (i >= |p| ==> s[i] == n[i - |p|]);
      }
    }
    assert s[|s| - 1] == n[|n| - 1] == 't' && s[|s| - 1..][0] == s[|s| - 1];
  }

  lemma WorldSuffix(s: string)
    requires InWorldDir(s)
    ensures EndsWith(s, WORLD + LEVEL)
    ensures |s| > |WORLD + LEVEL| ==> EndsWith(s, "/" + WORLD + LEVEL)
  {
    if s != WORLD + LEVEL {
      assert s[|s| - |WORLD + LEVEL|..] == s[|s| - |"/" + WORLD + LEVEL|..][1..];
    }
  }

  /** Where a name below `p` can be that holds a world in the server's layout. */
  lemma NestedLevel(p: string, n: string)
    requires EndsWith(p, "/") && InWorldDir(p + n)
    ensures n == LEVEL || n == WORLD + LEVEL || EndsWith(n, "/" + WORLD + LEVEL)
  {
    var s, tail := p + n, WORLD + LEVEL;
    WorldSuffix(s);
    if |n| < |tail| {
      ShortNestedLevel(p, n);
    } else {
      assert n[|n| - |tail|..] == s[|s| - |tail|..];
      if |n| > |tail| {
        assert n[|n| - |tail| - 1..] == s[|s| - |tail| - 1..];
      }
    }
  }

  lemma ShortNestedLevel(p: string, n: string)
    requires EndsWith(p, "/") && EndsWith(p + n, WORLD + LEVEL) && |n| < |WORLD + LEVEL|
    ensures n == LEVEL
  {
    var s, tail := p + n, WORLD + LEVEL;
    assert p[|p| - 1] == p[|p| - 1..][0] == '/';
    var k := |tail| - |n| - 1;
    assert s[|s| - |tail|..][k] == s[|p| - 1] == '/';
    assert k == 5;
    assert n == s[|p|..] == s[|s| - |tail|..][|WORLD|..];
  }

  /** A world directory that has been zipped with the directories around it is
      found there, unless those end in one that is itself taken for a world. */
  lemma NestedWorldIsFoundIff(p: string, names: seq<string>)
    requires EndsWith(p, "/") && !Contains(p, "__MACOSX/") && WORLD + LEVEL in names
    ensures Located(Nested(p, names)) == Some((p, p + WORLD)) <==> !(LEVEL in names && InWorldDir(p + LEVEL))
  {
    SlashesAppend(p, WORLD);
    NestedDirIsListed(p, names, WORLD + LEVEL);
    if LEVEL in names && InWorldDir(p + LEVEL) {
      NestedDirIsListed(p, names, LEVEL);
      hide WorldDirs, InWorldDir;
      LeastIsFirst(WorldDirs(Nested(p, names), true), p);
    } else {
      NestedWorldIsLeast(p, names);
      assert (p + WORLD)[..|p + WORLD| - |WORLD|] == p;
    }
  }

  lemma NestedWorldIsLeast(p: string, names: seq<string>)
    requires EndsWith(p, "/") && p + WORLD in WorldDirs(Nested(p, names), true)
    requires !(LEVEL in names && InWorldDir(p + LEVEL))
    ensures Least(WorldDirs(Nested(p, names), true)) == p + WORLD
  {
    var deeper := Nested(p, names);
    var dirs := WorldDirs(deeper, true);
    WorldDirsAre(deeper, true);
    assert p + (WORLD + LEVEL) == (p + WORLD) + LEVEL;
    forall e | e in dirs && e != p + WORLD
      ensures Slashes(p + WORLD) < Slashes(e)
    {
      var m :| m in deeper && IsWorldDir(m, true) && e == DirOf(m);
      var k :| 0 <= k < |deeper| && deeper[k] == m;
      assert names[k] in names;
      hide WorldDirs, Slashes;
      NestedDirIsDeeper(p, names[k]);
    }
    LeastIsUniqueShallowest(dirs, p + WORLD);
  }

  lemma NestedDirIsListed(p: string, names: seq<string>, n: string)
    requires EndsWith(p, "/") && !Contains(p, "__MACOSX/") && n in names && InWorldDir(p + n)
    requires n == LEVEL || n == WORLD + LEVEL
    ensures (if n == LEVEL then p else p + WORLD) in WorldDirs(Nested(p, names), true)
  {
    var deeper := Nested(p, names);
    var k :| 0 <= k < |names| && names[k] == n;
    assert deeper[k] == p + n;
    NestedIsNotJunk(p, n);
    WorldDirsAre(deeper, true);
    assert IsWorldDir(p + n, true);
    if n == LEVEL {
      assert DirOf(p + n) == p;
    } else {
      assert p + n == (p + WORLD) + LEVEL;
      assert DirOf(p + n) == p + WORLD;
    }
  }

  lemma NestedDirIsDeeper(p: string, n: string)
    requires EndsWith(p, "/") && IsWorldDir(p + n, true) && n != LEVEL && n != WORLD + LEVEL
    ensures Slashes(DirOf(p + n)) > Slashes(p + WORLD)
  {
    NestedLevel(p, n);
    DeeperWorld(n);
    assert n == DirOf(n) + LEVEL;
    assert DirOf(p + n) == p + DirOf(n);
    SlashesAppend(p, DirOf(n));
    SlashesAppend(p, WORLD);
  }

  lemma NotJunk()
    ensures !IsJunk(WORLD + LEVEL)
  {
    var n := WORLD + LEVEL;
    assert forall i | 0 <= i < |n| :: n[i] != '_';
    forall i | 0 <= i <= |n|
      ensures !("__MACOSX/" <= n[i..])
    {
      assert i < |n| ==> n[i..][0] == n[i];
    }
    assert n[|n| - 1] == 't' && n[|n| - 1..][0] == n[|n| - 1];
  }

  lemma DeeperWorld(n: string)
    requires EndsWith(n, "/" + WORLD + LEVEL)
    ensures EndsWith(n, LEVEL) && Slashes(DirOf(n)) > Slashes(WORLD)
  {
    LevelSuffix(n);
    var tail := "/" + WORLD + LEVEL;
    var front := n[..|n| - |tail|];
    assert n == front + tail;
    assert DirOf(n) == front + ("/" + WORLD);
    SlashesAppend(front, "/" + WORLD);
    SlashesAppend("/", WORLD);
  }

  // -------------------------------------------------------- mapping the members

  const EXCLUDED_TOP := {"libraries", "versions", "logs", ".cache", "?"}

  predicate IsInstallMarker(top: string) {
    || InstallPrefix(top, ".forge") || InstallPrefix(top, ".fabric")
    || InstallPrefix(top, ".neoforge") || InstallPrefix(top, ".install")
  }

  predicate InstallPrefix(top: string, tool: string) {
    tool <= top && |top| > |tool| && (top[|tool|] == '-' || top[|tool|] == '_' || top[|tool|] == '.')
  }

  /** Top-level entries that the server makes again. */
  predicate Excluded(top: string) {
    top in EXCLUDED_TOP || EndsWith(top, ".tmp") || top == MARKER || IsInstallMarker(top)
  }

  predicate IsPlayerList(rel: string) {
    || rel == "ops.json" || rel == "whitelist.json"
    || ("banned-" <= rel && EndsWith(rel, ".json") && |rel| >= |"banned-"| + |".json"| && '/' !in rel)
  }

  /** A list of players, or one whose name has a newline behind it. */
  predicate IsVanillaFile(rel: string) {
    IsPlayerList(rel) || (EndsWith(rel, "\n") && IsPlayerList(rel[..|rel| - 1]))
  }

  /** Where a member goes, relative to the volume, or None to leave it out. */
  function MapMember(name: string, prefix: string, worldDir: string, full: bool): Option<string> {
    if worldDir <= name then Some(WORLD + name[|worldDir|..])
    else if !(prefix <= name) then None
    else
      var rel := name[|prefix|..];
      if rel == [] then None
      else if worldDir != prefix + WORLD && Top(rel) == "world" then None
      else if !full then (if IsVanillaFile(rel) then Some(rel) else None)
      else if Excluded(Top(rel)) then None
      else Some(rel)
  }

  lemma {:induction false} TopAppend(front: string, rest: string)
    requires '/' !in front
    ensures Top(front + ("/" + rest)) == front
  {
    var s := front + ("/" + rest);
    if front != [] {
      assert s[1..] == front[1..] + ("/" + rest);
      TopAppend(front[1..], rest);
    }
  }

  lemma TopOfWorld(rest: string)
    ensures Top(WORLD + rest) == "world"
  {
    TopAppend("world", rest);
    assert WORLD + rest == "world" + ("/" + rest);
  }

  /** No two members of a zip are sent to the same place, in either mode. */
  lemma MembersNeverCollide(a: string, b: string, prefix: string, worldDir: string, full: bool)
    requires MapMember(a, prefix, worldDir, full).Some?
    requires MapMember(a, prefix, worldDir, full) == MapMember(b, prefix, worldDir, full)
    ensures a == b
  {
    if worldDir <= a && worldDir <= b {
      WorldRest(a[|worldDir|..], b[|worldDir|..]);
      assert a == worldDir + a[|worldDir|..] && b == worldDir + b[|worldDir|..];
    } else if worldDir <= a {
      OutsideStaysOut(b, prefix, worldDir, full, a[|worldDir|..]);
    } else if worldDir <= b {
      OutsideStaysOut(a, prefix, worldDir, full, b[|worldDir|..]);
    } else {
      assert a == prefix + a[|prefix|..] && b == prefix + b[|prefix|..];
    }
  }

  /** Members are mapped the same however deep the data lies in the zip. */
  lemma MapNested(p: string, n: string, prefix: string, worldDir: string, full: bool)
    ensures MapMember(p + n, p + prefix, p + worldDir, full) == MapMember(n, prefix, worldDir, full)
  {
    PrefixNested(p, worldDir, n);
    PrefixNested(p, prefix, n);
    assert p + prefix + WORLD == p + (prefix + WORLD);
    assert (p + worldDir)[|p|..] == worldDir && (p + (prefix + WORLD))[|p|..] == prefix + WORLD;
  }

  lemma PrefixNested(p: string, a: string, b: string)
    ensures p + a <= p + b <==> a <= b
    ensures a <= b ==> (p + b)[|p + a|..] == b[|a|..]
  {
    if p + a <= p + b {
      assert a == (p + a)[|p|..] == (p + b)[|p|..|p| + |a|] == b[..|a|];
    }
  }

  lemma WorldRest(a: string, b: string)
    requires WORLD + a == WORLD + b
    ensures a == b
  {
    assert (WORLD + a)[|WORLD|..] == a && (WORLD + b)[|WORLD|..] == b;
  }

  lemma OutsideStaysOut(b: string, prefix: string, worldDir: string, full: bool, rest: string)
    requires !(worldDir <= b) && MapMember(b, prefix, worldDir, full).Some?
    ensures MapMember(b, prefix, worldDir, full).value != WORLD + rest
  {
    TopOfWorld(rest);
    assert b == prefix + b[|prefix|..];
    assert prefix + (WORLD + rest) == (prefix + WORLD) + rest;
    assert prefix + WORLD <= (prefix + WORLD) + rest;
  }

  // ------------------------------------------------------------- the guard

  /** A full seed without the guard against a stray world directory. */
  function Unguarded(name: string, prefix: string, worldDir: string): Option<string> {
    if worldDir <= name then Some(WORLD + name[|worldDir|..])
    else if !(prefix <= name) || name == prefix || Excluded(Top(name[|prefix|..])) then None
    else Some(name[|prefix|..])
  }

  /** `b` lies outside the world, in a directory that looks like it, where `a` lies
      in the world. */
  ghost predicate Strays(a: string, b: string, prefix: string, worldDir: string, rest: string) {
    a == worldDir + rest && b == prefix + (WORLD + rest) && !(worldDir <= b)
  }

  /** Without the guard two members go to one place if and only if one of them
      strays; the guard leaves out that one. */
  lemma UnguardedCollidesIff(a: string, b: string, prefix: string, worldDir: string)
    requires a != b
    ensures Unguarded(a, prefix, worldDir).Some? && Unguarded(a, prefix, worldDir) == Unguarded(b, prefix, worldDir)
      <==> exists rest :: Strays(a, b, prefix, worldDir, rest) || Strays(b, a, prefix, worldDir, rest)
    ensures forall rest | Strays(a, b, prefix, worldDir, rest) ::
      MapMember(a, prefix, worldDir, true) == Some(WORLD + rest) && MapMember(b, prefix, worldDir, true).None?
  {
    hide Excluded, Top;
    WorldIsNotExcluded();
    forall rest, c, d | Strays(c, d, prefix, worldDir, rest)
      ensures Unguarded(c, prefix, worldDir) == Unguarded(d, prefix, worldDir) == Some(WORLD + rest)
      ensures MapMember(c, prefix, worldDir, true) == Some(WORLD + rest) && MapMember(d, prefix, worldDir, true).None?
    {
      StrayIsLeftOut(c, d, prefix, worldDir, rest);
    }
    if Unguarded(a, prefix, worldDir).Some? && Unguarded(a, prefix, worldDir) == Unguarded(b, prefix, worldDir) {
      if worldDir <= a && worldDir <= b {
        WorldRest(a[|worldDir|..], b[|worldDir|..]);
        SameRest(worldDir, a, b);
      } else if worldDir <= a {
        assert a == worldDir + a[|worldDir|..] && b == prefix + b[|prefix|..];
        assert Strays(a, b, prefix, worldDir, a[|worldDir|..]);
      } else if worldDir <= b {
        assert b == worldDir + b[|worldDir|..] && a == prefix + a[|prefix|..];
        assert Strays(b, a, prefix, worldDir, b[|worldDir|..]);
      } else {
        SameRest(prefix, a, b);
      }
    }
  }

  lemma SameRest(front: string, a: string, b: string)
    requires front <= a && front <= b && a[|front|..] == b[|front|..]
    ensures a == b
  {
    assert a == front + a[|front|..] && b == front + b[|front|..];
  }

  lemma StrayIsLeftOut(c: string, d: string, prefix: string, worldDir: string, rest: string)
    requires Strays(c, d, prefix, worldDir, rest)
    ensures Unguarded(c, prefix, worldDir) == Unguarded(d, prefix, worldDir) == Some(WORLD + rest)
    ensures MapMember(c, prefix, worldDir, true) == Some(WORLD + rest) && MapMember(d, prefix, worldDir, true).None?
  {
    hide Excluded;
    WorldIsNotExcluded();
    TopOfWorld(rest);
    assert c[|worldDir|..] == rest && d[|prefix|..] == WORLD + rest && prefix <= d;
    assert worldDir == prefix + WORLD ==> d == worldDir + rest;
  }

  lemma WorldIsNotExcluded()
    ensures !Excluded("world")
  {
    assert "world"[0] != '.';
    assert "world"[1..][0] == 'o';
  }

  /** And that happens: in this zip the world is found in s/m/, and a file of
      another program in s/world/ would replace one of the world. */
  lemma GuardIsNeeded()
    ensures var names := ["s/m/level.dat", "s/m/data.txt", "s/world/data.txt"];
      && Located(names) == Some(("s/", "s/m/"))
      && Unguarded(names[1], "s/", "s/m/") == Unguarded(names[2], "s/", "s/m/") == Some("world/data.txt")
      && MapMember(names[1], "s/", "s/m/", true) == Some("world/data.txt")
      && MapMember(names[2], "s/", "s/m/", true).None?
  {
    SaveIsLocated(["s/m/level.dat", "s/m/data.txt", "s/world/data.txt"]);
    DataStrays();
    hide *;
    StrayIsLeftOut("s/m/data.txt", "s/world/data.txt", "s/", "s/m/", "data.txt");
  }

  lemma DataStrays()
    ensures Strays("s/m/data.txt", "s/world/data.txt", "s/", "s/m/", "data.txt")
    ensures WORLD + "data.txt" == "world/data.txt"
  {
    assert "s/m/data.txt" == "s/m/" + "data.txt" && "s/world/data.txt" == "s/" + (WORLD + "data.txt");
    assert "s/world/data.txt"[2] == 'w' && "s/m/"[2] == 'm';
  }

  lemma SaveIsLocated(names: seq<string>)
    requires names == ["s/m/level.dat", "s/m/data.txt", "s/world/data.txt"]
    ensures Located(names) == Some(("s/", "s/m/"))
  {
    hide *;
    SaveIsWorldDir();
    DataIsNoWorld();
    ParentOfSave();
    OneSaveIsLocated(names, "s/m/", "s");
  }

  lemma DataIsNoWorld()
    ensures !IsWorldDir("s/m/data.txt", true) && !IsWorldDir("s/m/data.txt", false)
    ensures !IsWorldDir("s/world/data.txt", true) && !IsWorldDir("s/world/data.txt", false)
  {
    NoLevelHere("s/m/data.txt");
    NoLevelHere("s/world/data.txt");
  }

  /** A single world in another layout is taken with the directory around it. */
  lemma OneSaveIsLocated(names: seq<string>, dir: string, parent: string)
    requires |names| == 3 && IsWorldDir(names[0], false) && !IsWorldDir(names[0], true) && DirOf(names[0]) == dir
    requires forall k | 1 <= k < 3 :: !IsWorldDir(names[k], false) && !IsWorldDir(names[k], true)
    requires Parent(RStrip(dir, Slash)) == parent && parent != ""
    ensures Located(names) == Some((parent + "/", dir))
  {
    hide IsWorldDir, RStrip, Parent;
    OneWorldDir(names, true);
    OneWorldDir(names, false);
    hide WorldDirs;
    assert Least([dir]) == dir;
  }

  lemma SaveIsWorldDir()
    ensures IsWorldDir("s/m/level.dat", false) && !IsWorldDir("s/m/level.dat", true) && DirOf("s/m/level.dat") == "s/m/"
  {
    var n := "s/m/level.dat";
    assert n[|n| - |"/" + LEVEL|..] == "/" + LEVEL && n[..4] == "s/m/";
    assert n[0] == 's' && (WORLD + LEVEL)[0] == 'w';
    PlainIsNotJunk(n);
  }

  lemma ParentOfSave()
    ensures RStrip("s/m/", Slash) == "s/m" && Parent("s/m") == "s" && "s" + "/" == "s/"
  {
    assert "s/m/"[..3] == "s/m" && "s/m"[..2] == "s/" && "s/"[..1] == "s";
    assert "s/m/"[3] == '/' && "s/m"[2] == 'm' && "s/"[1] == '/';
    assert RStrip("s/m", Slash) == "s/m";
  }

  lemma PlainIsNotJunk(n: string)
    requires n != [] && n[|n| - 1] != '/' && '_' !in n
    ensures !IsJunk(n)
  {
    forall i | 0 <= i <= |n|
      ensures !("__MACOSX/" <= n[i..])
    {
      assert i < |n| ==> n[i..][0] == n[i] && n[i] in n;
    }
    assert n[|n| - 1..][0] == n[|n| - 1];
  }

  lemma LevelIsBehindSlash(n: string)
    requires InWorldDir(n) || EndsWith(n, "/" + LEVEL)
    ensures |n| >= 10 && n[|n| - 10] == '/'
  {
    if InWorldDir(n) {
      WorldSuffix(n);
      assert n[|n| - |WORLD + LEVEL|..][5] == '/';
    } else {
      assert n[|n| - 10..][0] == '/';
    }
  }

  lemma NoLevelHere(n: string)
    requires |n| >= 10 && n[|n| - 10] != '/'
    ensures !IsWorldDir(n, true) && !IsWorldDir(n, false)
  {
    hide InWorldDir, EndsWith;
    if InWorldDir(n) || EndsWith(n, "/" + LEVEL) { LevelIsBehindSlash(n); }
  }

  lemma OneWorldDir(names: seq<string>, server: bool)
    requires |names| == 3 && !IsWorldDir(names[1], server) && !IsWorldDir(names[2], server)
    ensures WorldDirs(names, server) == if IsWorldDir(names[0], server) then [DirOf(names[0])] else []
  {
    hide IsWorldDir;
    assert names[..2][..1] == names[..1] && names[..1][..0] == [];
    assert WorldDirs(names, server) == WorldDirs(names[..2], server) == WorldDirs(names[..1], server);
    assert WorldDirs(names[..1][..0], server) == [];
  }
}
