/** Which directory of a zip is taken for the world, from the names in it. */
module WorldSearch {
  import opened Collections
  import opened Wrappers
  import opened Naming
  import opened SeedJob

  /** The directory, with its slash, holds a level.dat that counts. */
  ghost predicate Holds(names: seq<string>, dir: string) {
    && dir + "level.dat" in names && (dir != "" ==> dir[|dir| - 1] == '/')
    && forall i | 0 <= i <= |dir| :: !("__MACOSX/" <= (dir + "level.dat")[i..])
  }

  /** The directory has the name that a server gives its world. */
  ghost predicate AsServer(dir: string) {
    dir == "world/" || (|dir| >= 7 && dir[|dir| - 7..] == "/world/")
  }

  ghost function Depth(dir: string): nat { multiset(dir)['/'] }

  ghost predicate Nearer(a: string, b: string) {
    Depth(a) < Depth(b) || (Depth(a) == Depth(b) && StringLe(a, b))
  }

  ghost predicate Names(prefix: string, dir: string, name: string, slashes: string) {
    && '/' !in name && (forall c | c in slashes :: c == '/')
    && if prefix == "" then dir == name + slashes || dir == "/" + name + slashes
       else |prefix| > 1 && prefix[|prefix| - 1] == '/' && dir == prefix + name + slashes
  }

  /** The directory around another, or nothing at the root. */
  ghost predicate Around(prefix: string, dir: string) {
    exists name: string, slashes: string :: Names(prefix, dir, name, slashes)
  }

  lemma {:induction false} DepthIs(s: string)
    ensures Slashes(s) == Depth(s)
  {
    if s != [] {
      DepthIs(s[1..]);
      assert s == [s[0]] + s[1..];
    }
  }

  lemma NearerIs(a: string, b: string)
    ensures Before(a, b) <==> Nearer(a, b)
  {
    DepthIs(a);
    DepthIs(b);
    hide Slashes;
  }

  lemma {:induction false} ParentIs(s: string)
    ensures if '/' in s then exists name: string :: '/' !in name && s == Parent(s) + "/" + name else Parent(s) == ""
  {
    if s != [] {
      var front, last := s[..|s| - 1], s[|s| - 1];
      assert s == front + [last];
      if last == '/' {
        assert '/' !in "" && s == front + "/" + "";
      } else {
        ParentIs(front);
        if '/' in front {
          var name: string :| '/' !in name && front == Parent(front) + "/" + name;
          assert '/' !in name + [last] && s == Parent(s) + "/" + (name + [last]);
        }
      }
    }
  }

  lemma SlashesBehind(dir: string)
    ensures var cut := RStrip(dir, Slash); cut <= dir && forall c | c in dir[|cut|..] :: c == '/'
  {
    var cut := RStrip(dir, Slash);
    assert forall i | |cut| <= i < |dir| :: Slash(dir[i]);
  }

  lemma AroundIs(dir: string)
    ensures var parent := Parent(RStrip(dir, Slash)); Around(if parent != [] then parent + "/" else [], dir)
  {
    var cut := RStrip(dir, Slash);
    var slashes, parent := dir[|cut|..], Parent(cut);
    ParentIs(cut);
    SlashesBehind(dir);
    hide RStrip, Parent;
    assert dir == cut + slashes;
    if '/' in cut {
      var name: string :| '/' !in name && cut == parent + "/" + name;
      if parent != [] {
        assert (parent + "/")[|parent|] == '/';
        assert Names(parent + "/", dir, name, slashes);
      } else {
        assert parent + "/" + name + slashes == "/" + name + slashes;
        assert Names([], dir, name, slashes);
      }
    } else {
      assert Names([], dir, cut, slashes);
    }
  }

  // ---------------------------------------------------- which names count

  lemma LevelName(n: string)
    requires EndsWith(n, LEVEL)
    ensures n == DirOf(n) + LEVEL
  {
  }

  lemma LevelIff(n: string)
    ensures IsLevel(n) <==> EndsWith(n, LEVEL) && (DirOf(n) != "" ==> DirOf(n)[|DirOf(n)| - 1] == '/')
  {
    LevelSuffix(n);
    if EndsWith(n, LEVEL) {
      LevelName(n);
      var d := DirOf(n);
      if d != "" {
        assert n[|n| - 10..] == [d[|d| - 1]] + LEVEL;
        assert ([d[|d| - 1]] + LEVEL)[0] == d[|d| - 1];
        assert "/" + LEVEL == ['/'] + LEVEL;
      }
    }
  }

  lemma EndOf(n: string, d: string, k: nat)
    requires n == d + LEVEL && k <= |d|
    ensures n[|n| - k - |LEVEL|..] == d[|d| - k..] + LEVEL
  {
  }

  lemma ServerIff(n: string)
    requires EndsWith(n, LEVEL)
    ensures InWorldDir(n) <==> AsServer(DirOf(n))
  {
    LevelName(n);
    var d := DirOf(n);
    assert "/" + WORLD + LEVEL == "/world/" + LEVEL;
    if |d| >= 7 {
      EndOf(n, d, 7);
      SameEnd(d[|d| - 7..], "/world/");
    } else {
      SameEnd(d, WORLD);
    }
  }

  lemma SameEnd(a: string, b: string)
    ensures a + LEVEL == b + LEVEL <==> a == b
  {
    assert (a + LEVEL)[..|a + LEVEL| - |LEVEL|] == a && (b + LEVEL)[..|b + LEVEL| - |LEVEL|] == b;
  }


  lemma JunkIff(n: string)
    requires EndsWith(n, LEVEL)
    ensures IsJunk(n) <==> exists i :: 0 <= i <= |DirOf(n)| && "__MACOSX/" <= n[i..]
  {
    LevelName(n);
    var d := DirOf(n);
    assert n[|n| - 1] == 't' && n[|n| - 1..] == ['t'];
    forall i | |d| < i <= |n|
      ensures !("__MACOSX/" <= n[i..])
    {
      assert |n[i..]| < 9;
    }
  }

  /** The names that count are those of the directories that hold a level.dat. */
  lemma CountsIff(names: seq<string>, dir: string)
    ensures var n := dir + LEVEL;
      && EndsWith(n, LEVEL) && DirOf(n) == dir
      && (n in names && IsWorldDir(n, true) <==> Holds(names, dir) && AsServer(dir))
      && (n in names && IsWorldDir(n, false) <==> Holds(names, dir) && !AsServer(dir))
  {
    var n := dir + LEVEL;
    assert n[|n| - |LEVEL|..] == LEVEL && n[..|n| - |LEVEL|] == dir;
    JunkIff(n);
    LevelIff(n);
    ServerIff(n);
    assert AsServer(dir) ==> dir[|dir| - 1] == '/' by {
      if |dir| >= 7 { assert dir[|dir| - 7..][6] == dir[|dir| - 1]; }
    }
    hide IsJunk, IsLevel, InWorldDir, AsServer, DirOf, EndsWith;
  }

  lemma DirsAre(names: seq<string>, server: bool, dir: string)
    ensures dir in WorldDirs(names, server) <==> Holds(names, dir) && (AsServer(dir) <==> server)
  {
    WorldDirsAre(names, server);
    CountsIff(names, dir);
    hide IsWorldDir, Holds, AsServer, WorldDirs;
    if dir in WorldDirs(names, server) {
      var n :| n in names && IsWorldDir(n, server) && dir == DirOf(n);
      LevelName(n);
    }
  }

  lemma LeastIsNearest(dirs: seq<string>, dir: string)
    requires dir in dirs
    ensures Least(dirs) in dirs && Nearer(Least(dirs), dir)
  {
    LeastIsFirst(dirs, dir);
    NearerIs(Least(dirs), dir);
  }

  /** A world is found exactly where there is a level.dat that counts.  It is one that a
      server wrote, if there is any, and of those the one with the fewest directories
      around it, then the first in the alphabet; the data begins where `world` does.
      Without one it is the nearest of all, and the data begins one directory above. */
  lemma LocatedIsNearest(names: seq<string>, dir: string)
    ensures Located(names).None? ==> !Holds(names, dir)
    ensures Located(names).Some? ==>
      var (prefix, found) := Located(names).value;
      && Holds(names, found)
      && (AsServer(found) ==> found == prefix + "world/")
      && (!AsServer(found) ==> Around(prefix, found))
      && (Holds(names, dir) ==>
            && (AsServer(dir) ==> AsServer(found))
            && ((AsServer(dir) <==> AsServer(found)) ==> Nearer(found, dir)))
  {
    var server, other := WorldDirs(names, true), WorldDirs(names, false);
    DirsAre(names, true, dir);
    DirsAre(names, false, dir);
    hide Holds, WorldDirs, Nearer, Around, Least;
    if server != [] {
      var found := Least(server);
      DirsAre(names, true, found);
      if dir in server { LeastIsNearest(server, dir); }
      assert |found| >= 6 && found == found[..|found| - 6] + WORLD by { ServerEnds(found); }
    } else if other != [] {
      var found := Least(other);
      DirsAre(names, false, found);
      if dir in other { LeastIsNearest(other, dir); }
      AroundIs(found);
    }
    hide AsServer;
  }

  lemma ServerEnds(dir: string)
    requires AsServer(dir)
    ensures |dir| >= 6 && dir == dir[..|dir| - 6] + WORLD
  {
    if |dir| >= 7 { assert dir[|dir| - 6..] == dir[|dir| - 7..][1..]; }
  }
}
