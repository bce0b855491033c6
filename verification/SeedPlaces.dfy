/** What a seed makes of one member of a zip, said of its name and its path: the names
    that are made again, the lists of players, plain member names, and the place of a
    member of the world and of one beside it; then what an untidy name can do.  Each is
    tied to the way the code maps and checks a name.  The results that speak of whole
    zips are in the module that follows. */
module SeedPlaces {
  import opened Collections
  import opened Wrappers
  import opened Naming
  import opened SeedJob
  import opened Snapshots

  /** The name begins with that of an installer and a separator. */
  ghost predicate InstallerMark(x: string, tool: string) {
    |x| > |tool| && x[..|tool|] == tool && (x[|tool|] == '-' || x[|tool|] == '_' || x[|tool|] == '.')
  }

  /** What the server, its installer or the seed itself makes again. */
  ghost predicate MadeAgain(x: string) {
    || x == "libraries" || x == "versions" || x == "logs" || x == ".cache" || x == "?"
    || (|x| >= 4 && x[|x| - 4..] == ".tmp")
    || x == ".mcdash-seed.json"
    || InstallerMark(x, ".forge") || InstallerMark(x, ".fabric")
    || InstallerMark(x, ".neoforge") || InstallerMark(x, ".install")
  }

  lemma ExcludedIff(x: string)
    ensures Excluded(x) <==> MadeAgain(x)
  {
  }

  ghost predicate IsListOfPlayers(x: string) {
    || x == "ops.json" || x == "whitelist.json"
    || (|x| >= 12 && x[..7] == "banned-" && x[|x| - 5..] == ".json")
  }

  /** A list of players, or one whose name has a newline behind it. */
  ghost predicate IsForPlayers(x: string) {
    IsListOfPlayers(x) || (x != "" && x[|x| - 1] == '\n' && IsListOfPlayers(x[..|x| - 1]))
  }

  lemma VanillaIff(x: string)
    requires '/' !in x
    ensures IsVanillaFile(x) <==> IsForPlayers(x)
  {
    assert EndsWith(x, "\n") <==> x != "" && x[|x| - 1] == '\n' by {
      if x != "" { assert x[|x| - 1..][0] == x[|x| - 1]; }
    }
    PlayerListIff(x);
    if x != "" {
      assert '/' !in x[..|x| - 1];
      PlayerListIff(x[..|x| - 1]);
    }
  }

  lemma PlayerListIff(x: string)
    requires '/' !in x
    ensures IsPlayerList(x) <==> IsListOfPlayers(x)
  {
  }

  lemma NoListHasSlash(x: string)
    requires IsVanillaFile(x)
    ensures '/' !in x
  {
    assert forall y | y == "ops.json" || y == "whitelist.json" :: '/' !in y;
    if !IsPlayerList(x) {
      assert x == x[..|x| - 1] + "\n";
      assert x[|x| - 1..] == "\n";
    }
  }

  // ----------------------------------------------------------- tidy zips

  ghost predicate LooksLikeDrive(x: string) {
    |x| >= 2 && x[1] == ':' && ('a' <= x[0] <= 'z' || 'A' <= x[0] <= 'Z')
  }

  /** Nothing, or plain names with single slashes between them, one behind perhaps. */
  ghost predicate Tidy(s: string) {
    s == "" || exists q: Path :: PlainNames(q) && (s == Join(q) || s == Join(q) + "/")
  }

  ghost predicate TidyMember(m: Member, prefix: string, worldDir: string) {
    && (worldDir <= m.name ==> Tidy(m.name[|worldDir|..]))
    && (prefix <= m.name ==> Tidy(m.name[|prefix|..]))
  }

  ghost predicate Regular(m: Member) {
    !m.isDir && !m.isLink && (m.name != "" ==> m.name[|m.name| - 1] != '/')
  }

  /** A regular member of the world directory, and its place below `world`. */
  ghost predicate FromWorld(m: Member, worldDir: string, p: Path) {
    Regular(m) && PlainNames(p) && |p| > 1 && p[0] == "world" && m.name == worldDir + Join(p[1..])
  }

  /** A regular member beside the world, and its place.  A directory called `world` that
      is not the world is left where it is. */
  ghost predicate FromRoot(m: Member, prefix: string, worldDir: string, p: Path) {
    && Regular(m) && PlainNames(p) && m.name == prefix + Join(p) && !(worldDir <= m.name)
    && !LooksLikeDrive(p[0]) && (p[0] == "world" ==> worldDir == prefix + "world/")
  }

  /** What a seed takes from beside the world. */
  ghost predicate Taken(p: Path, full: bool)
    requires p != []
  {
    if full then !MadeAgain(p[0]) else |p| == 1 && IsForPlayers(p[0])
  }

  lemma EndsInSlash(s: string)
    ensures EndsWith(s, "/") <==> s != "" && s[|s| - 1] == '/'
  {
    if s != "" { assert s[|s| - 1..][0] == s[|s| - 1]; }
  }

  lemma JoinInjective(p: Path, q: Path)
    requires PlainNames(p) && PlainNames(q) && Join(p) == Join(q)
    ensures p == q
  {
    NamesArePlain(p);
    NamesArePlain(q);
    PartsOfJoin(p);
    PartsOfJoin(q);
  }

  /** Where a tidy text leads: a path as a file's, with a slash behind as a
      directory's. */
  lemma TidyTarget(q: Path)
    requires PlainNames(q)
    ensures SafePath(Join(q)) == SafePath(Join(q) + "/") == if LooksLikeDrive(q[0]) then None else Some(q)
    ensures !EndsWith(Join(q), "/") && EndsWith(Join(q) + "/", "/") && Join(q) != ""
    ensures Join(q)[|Join(q)| - 1] != '/' && '\\' !in Join(q)
  {
    SafePathOfJoin(q);
    JoinChars(q);
    EndsInSlash(Join(q));
    EndsInSlash(Join(q) + "/");
  }

  lemma WorldPathIs(q: Path)
    requires PlainNames(q)
    ensures PlainNames(["world"] + q) && Join(["world"] + q) == WORLD + Join(q) && (["world"] + q)[1..] == q
  {
    JoinMore("world", q);
    hide Join;
    assert PlainName("world");
    assert "world" + ("/" + Join(q)) == WORLD + Join(q);
  }

  lemma TailIsPlain(p: Path)
    requires PlainNames(p) && |p| > 1
    ensures PlainNames(p[1..]) && p == [p[0]] + p[1..]
  {
  }

  lemma NameBehind(front: string, p: Path, q: Path)
    requires PlainNames(p) && PlainNames(q) && front + Join(p) == front + Join(q)
    ensures p == q
  {
    assert Join(p) == (front + Join(p))[|front|..] == (front + Join(q))[|front|..] == Join(q);
    JoinInjective(p, q);
  }

  lemma RegularName(m: Member, front: string, q: Path)
    requires PlainNames(q) && m.name == front + Join(q)
    ensures front <= m.name && m.name[|front|..] == Join(q) && (Regular(m) <==> !m.isDir && !m.isLink)
  {
    TidyTarget(q);
    assert m.name[|m.name| - 1] == Join(q)[|Join(q)| - 1];
  }

  lemma WorldFrom(m: Member, worldDir: string, q: Path, p: Path)
    requires PlainNames(q) && m.name == worldDir + Join(q)
    ensures FromWorld(m, worldDir, p) <==> p == ["world"] + q && !m.isDir && !m.isLink
  {
    RegularName(m, worldDir, q);
    WorldPathIs(q);
    hide Regular, Join, PlainNames;
    if FromWorld(m, worldDir, p) {
      TailIsPlain(p);
      NameBehind(worldDir, p[1..], q);
    }
  }

  lemma WorldFile(m: Member, prefix: string, worldDir: string, full: bool, q: Path, p: Path)
    requires PlainNames(q) && m.name == worldDir + Join(q)
    ensures Puts(m, prefix, worldDir, full, p) <==> FromWorld(m, worldDir, p)
  {
    var at := ["world"] + q;
    WorldFrom(m, worldDir, q, p);
    WorldPathIs(q);
    RegularName(m, worldDir, q);
    hide FromWorld, PlainNames, Join;
    PutAt(m, prefix, worldDir, full, at, p);
    NoDrive();
    assert at[0] == "world";
  }

  lemma NoDrive()
    ensures !LooksLikeDrive("world")
  {
  }

  lemma NoWorldFile(m: Member, prefix: string, worldDir: string, full: bool, p: Path, rest: string)
    requires m.name == worldDir + rest && Tidy(rest) && !exists q: Path :: PlainNames(q) && rest == Join(q)
    ensures !Puts(m, prefix, worldDir, full, p) && !FromWorld(m, worldDir, p)
  {
    var target := WORLD + rest;
    assert m.name[|worldDir|..] == rest;
    EndsInSlash(target);
    assert target[|target| - 1] == '/';
    BehindWorld(m, worldDir, p, rest);
    hide Join, SafePath, PlainNames, FromWorld;
  }

  lemma BehindWorld(m: Member, worldDir: string, p: Path, rest: string)
    requires m.name == worldDir + rest
    ensures FromWorld(m, worldDir, p) ==> exists q: Path :: PlainNames(q) && rest == Join(q)
  {
    if FromWorld(m, worldDir, p) {
      TailIsPlain(p);
      RegularName(m, worldDir, p[1..]);
      assert m.name[|worldDir|..] == rest;
    }
  }

  /** Behind the world's directory a tidy name is a file, a directory, or nothing. */
  lemma WorldPlaced(m: Member, prefix: string, worldDir: string, full: bool, p: Path)
    requires worldDir <= m.name && Tidy(m.name[|worldDir|..])
    ensures Puts(m, prefix, worldDir, full, p) <==> FromWorld(m, worldDir, p)
  {
    var rest := m.name[|worldDir|..];
    hide Join, PlainNames, Puts, FromWorld, Tidy;
    assert m.name == worldDir + rest;
    if q: Path :| PlainNames(q) && rest == Join(q) {
      WorldFile(m, prefix, worldDir, full, q, p);
    } else {
      NoWorldFile(m, prefix, worldDir, full, p, rest);
    }
  }

  lemma SingleIffNoSlash(q: Path)
    requires PlainNames(q)
    ensures '/' !in Join(q) <==> |q| == 1
    ensures |q| == 1 ==> Join(q) == q[0]
  {
    if |q| == 1 {
      SingleName(q);
    } else {
      JoinMore(q[0], q[1..]);
      assert q == [q[0]] + q[1..] && (q[0] + ("/" + Join(q[1..])))[|q[0]|] == '/';
    }
  }

  lemma TakenIff(q: Path)
    requires PlainNames(q)
    ensures IsVanillaFile(Join(q)) <==> Taken(q, false)
  {
    SingleIffNoSlash(q);
    hide Join, PlainNames;
    if '/' !in Join(q) {
      VanillaIff(Join(q));
    } else if IsVanillaFile(Join(q)) {
      NoListHasSlash(Join(q));
    }
  }

  lemma RootTarget(name: string, prefix: string, worldDir: string, full: bool, q: Path)
    requires PlainNames(q) && name == prefix + Join(q) && !(worldDir <= name)
    ensures MapMember(name, prefix, worldDir, full) ==
      if (q[0] == "world" ==> worldDir == prefix + WORLD) && Taken(q, full) then Some(Join(q)) else None
  {
    TidyTarget(q);
    TopOfJoin(q);
    TakenIff(q);
    ExcludedIff(q[0]);
    assert prefix <= name && name[|prefix|..] == Join(q);
    hide Join, SafePath, PlainNames, Excluded, MadeAgain, IsVanillaFile, Top;
  }

  /** A member with a plain target is put there, if at all. */
  lemma PutAt(m: Member, prefix: string, worldDir: string, full: bool, q: Path, p: Path)
    requires PlainNames(q) && MapMember(m.name, prefix, worldDir, full) == Some(Join(q))
    ensures Puts(m, prefix, worldDir, full, p) <==> !m.isDir && !m.isLink && !LooksLikeDrive(q[0]) && p == q
  {
    TidyTarget(q);
    hide PlainNames, LooksLikeDrive, MapMember, Join, SafePath, EndsWith;
  }

  lemma RootFrom(m: Member, prefix: string, worldDir: string, q: Path, p: Path)
    requires PlainNames(q) && m.name == prefix + Join(q) && !(worldDir <= m.name)
    ensures FromRoot(m, prefix, worldDir, p) <==>
      p == q && !m.isDir && !m.isLink && !LooksLikeDrive(q[0]) && (q[0] == "world" ==> worldDir == prefix + WORLD)
  {
    RegularName(m, prefix, q);
    hide LooksLikeDrive, Regular, Join;
    if PlainNames(p) && m.name == prefix + Join(p) {
      NameBehind(prefix, p, q);
    }
  }

  lemma RootFile(m: Member, prefix: string, worldDir: string, full: bool, q: Path, p: Path)
    requires PlainNames(q) && m.name == prefix + Join(q) && !(worldDir <= m.name)
    ensures Puts(m, prefix, worldDir, full, p) <==> FromRoot(m, prefix, worldDir, p) && Taken(p, full)
  {
    RootTarget(m.name, prefix, worldDir, full, q);
    RootFrom(m, prefix, worldDir, q, p);
    assert q != [];
    if MapMember(m.name, prefix, worldDir, full).Some? {
      PutAt(m, prefix, worldDir, full, q, p);
    }
    hide PlainNames, LooksLikeDrive, MapMember, Join, SafePath, EndsWith, FromRoot, Taken;
  }

  lemma NotBehindPrefix(m: Member, prefix: string, worldDir: string, full: bool, p: Path)
    requires !(worldDir <= m.name) && !(prefix <= m.name)
    ensures !Puts(m, prefix, worldDir, full, p) && !FromRoot(m, prefix, worldDir, p)
  {
    if FromRoot(m, prefix, worldDir, p) { RegularName(m, prefix, p); }
  }

  /** Beside the world a tidy name is a file, a directory, or nothing. */
  lemma RootPlaced(m: Member, prefix: string, worldDir: string, full: bool, p: Path)
    requires !(worldDir <= m.name) && (prefix <= m.name ==> Tidy(m.name[|prefix|..]))
    ensures Puts(m, prefix, worldDir, full, p) <==> FromRoot(m, prefix, worldDir, p) && Taken(p, full)
  {
    hide Join, Puts, Tidy, Taken;
    if prefix <= m.name {
      hide FromRoot;
      var rel := m.name[|prefix|..];
      assert m.name == prefix + rel;
      if q: Path :| PlainNames(q) && rel == Join(q) {
        RootFile(m, prefix, worldDir, full, q, p);
      } else {
        NoRootFile(m, prefix, worldDir, full, p, rel);
      }
    } else {
      NotBehindPrefix(m, prefix, worldDir, full, p);
    }
  }

  lemma NoRootFile(m: Member, prefix: string, worldDir: string, full: bool, p: Path, rel: string)
    requires m.name == prefix + rel && !(worldDir <= m.name) && Tidy(rel)
    requires !exists q: Path :: PlainNames(q) && rel == Join(q)
    ensures !Puts(m, prefix, worldDir, full, p) && !FromRoot(m, prefix, worldDir, p)
  {
    assert m.name[|prefix|..] == rel;
    EndsInSlash(rel);
    if rel != "" {
      var q :| PlainNames(q) && (rel == Join(q) || rel == Join(q) + "/");
      assert rel[|rel| - 1] == '/';
      if IsVanillaFile(rel) { NoListHasSlash(rel); }
    }
    if FromRoot(m, prefix, worldDir, p) { RegularName(m, prefix, p); }
    hide Join, SafePath, PlainNames, Excluded, IsVanillaFile, Top;
  }

  lemma WorldNamed(m: Member, worldDir: string, p: Path)
    ensures FromWorld(m, worldDir, p) ==> worldDir <= m.name
  {
  }

  ghost predicate TidyZip(zip: seq<Member>, prefix: string, worldDir: string) {
    forall m | m in zip :: TidyMember(m, prefix, worldDir)
  }

  lemma WorldStays()
    ensures !MadeAgain("world")
  {
    ExcludedIff("world");
    WorldIsNotExcluded();
  }

  lemma PlacedPath(m: Member, prefix: string, worldDir: string, p: Path)
    requires FromWorld(m, worldDir, p) || FromRoot(m, prefix, worldDir, p)
    ensures p != [] && (FromWorld(m, worldDir, p) ==> p[0] == "world")
  {
  }

  // -------------------------------------------------------- untidy names

  /** The text begins with a component "." or has a backslash in front of its first
      slash: what stands there is not the first name of its path. */
  ghost predicate StartsUntidily(rel: string) {
    || rel == "." || "./" <= rel
    || exists k :: 0 <= k < |rel| && rel[k] == '\\' && '/' !in rel[..k]
  }

  lemma {:induction false} FirstPart(s: string)
    ensures Parts(s)[0] == Top(s)
  {
    if s != "" && s[0] != '/' { FirstPart(s[1..]); }
  }

  lemma TopIsPiece(s: string)
    ensures var f := Top(s); f <= s && '/' !in f && (|f| < |s| ==> s[|f|] == '/')
    decreases s
  {
    if s != "" && s[0] != '/' { TopIsPiece(s[1..]); }
  }

  lemma SameTop(s: string, f: string)
    requires f <= s && '/' !in f && (|f| < |s| ==> s[|f|] == '/')
    ensures Top(s) == f
  {
    if |f| < |s| {
      TopAppend(f, s[|f| + 1..]);
      assert s == f + ("/" + s[|f| + 1..]);
    } else {
      WholeTop(f);
      assert s == f;
    }
  }

  /** Otherwise the first name of the path is the first piece of the text. */
  lemma FirstNameIsFirstPiece(rel: string)
    requires !StartsUntidily(rel) && SafePath(rel).Some?
    ensures SafePath(rel).value[0] == Top(rel)
  {
    var f, t := Top(rel), Forward(rel);
    TopIsPiece(rel);
    forall k | 0 <= k < |f|
      ensures rel[k] != '\\'
    {
      assert rel[..k] <= f;
    }
    assert f <= t && (|f| < |t| ==> t[|f|] == '/');
    SameTop(t, f);
    FirstPart(t);
    assert f == "." ==> rel == "." || "./" <= rel;
  }

  /** The first name of a path below `world` is `world`. */
  lemma WorldPathBegins(rest: string)
    requires SafePath(WORLD + rest).Some?
    ensures SafePath(WORLD + rest).value[0] == "world"
  {
    TopOfWorld(rest);
    var s := WORLD + rest;
    assert s[0] == 'w' && s[5] == '/';
    forall k | 0 <= k < |s| && s[k] == '\\'
      ensures '/' in s[..k]
    {
      assert k > 5 && s[..k][5] == '/';
    }
    FirstNameIsFirstPiece(s);
  }

  /** A member that ends up under a name that is made again, although its own text does
      not begin with one. */
  ghost predicate SlipsThrough(m: Member, prefix: string, worldDir: string, p: Path) {
    && Puts(m, prefix, worldDir, true, p) && p != [] && MadeAgain(p[0])
    && !(worldDir <= m.name) && prefix <= m.name && StartsUntidily(m.name[|prefix|..])
  }

  lemma DottedParts(s: string, p: Path)
    requires '\\' !in s && Parts(s) == p
    ensures Parts(Forward("./" + s)) == ["."] + p && Forward("./" + s)[0] != '/'
  {
    hide Parts;
    ForwardKeeps("./" + s);
    PartsAppend(".", s);
    assert "./" + s == "." + ("/" + s);
  }

  lemma DottedPath(p: Path)
    requires PlainNames(p) && !IsDrive(p[0])
    ensures SafePath("./" + Join(p)) == Some(p)
  {
    JoinChars(p);
    NamesArePlain(p);
    PartsOfJoin(p);
    ProperKeeps(p);
    hide Join, Parts, PlainNames, PlainName, Forward;
    DottedParts(Join(p), p);
    assert (["."] + p)[1..] == p;
  }

  lemma DottedTarget(s: string)
    ensures MapMember("./" + s, "", WORLD, true) == Some("./" + s)
  {
    var rel := "./" + s;
    assert rel == "." + ("/" + s) && rel[0] != WORLD[0];
    TopAppend(".", s);
    ExcludedIff(".");
    assert rel[|""|..] == rel && !MadeAgain(".");
    hide Top, Excluded, MadeAgain;
  }

  /** A member whose name begins with "./" goes where it says, whatever its first name. */
  lemma DottedIsKept(p: Path, content: Content)
    requires PlainNames(p) && !IsDrive(p[0])
    ensures Puts(Member("./" + Join(p), false, false, content), "", WORLD, true, p)
  {
    DottedPath(p);
    DottedTarget(Join(p));
    JoinChars(p);
    EndsInSlash("./" + Join(p));
    hide Join, PlainNames, SafePath, MapMember, EndsWith;
  }

  lemma LibrariesArePlain()
    ensures PlainNames(["libraries", "x.jar"]) && !IsDrive("libraries") && MadeAgain("libraries")
    ensures Join(["libraries", "x.jar"]) == "libraries/x.jar"
  {
    assert PlainName("libraries") && PlainName("x.jar");
    JoinMore("libraries", ["x.jar"]);
  }

  lemma SlipsIn(zip: seq<Member>, level: Member, m: Member, p: Path)
    requires level in zip && m in zip && level.name == "world/level.dat"
    requires PlainNames(p) && !IsDrive(p[0]) && m == Member("./" + Join(p), false, false, m.content)
    ensures Located(Names(zip)) == Some(("", "world/")) && p in Extracted(zip, "", "world/", true)
  {
    DottedIsKept(p, m.content);
    NamesHold(zip, level);
    hide *;
    RootWorldIsFound(Names(zip));
    ExtractedAre(zip, "", WORLD, true, p);
  }

  lemma NamesHold(zip: seq<Member>, m: Member)
    requires m in zip && m.name == "world/level.dat"
    ensures WORLD + LEVEL in Names(zip)
  {
    var k :| 0 <= k < |zip| && zip[k] == m;
    assert Names(zip)[k] == WORLD + LEVEL;
  }

  lemma MadeAgainSlips(m: Member, prefix: string, worldDir: string, p: Path)
    requires Puts(m, prefix, worldDir, true, p)
    ensures p != [] && (MadeAgain(p[0]) ==> SlipsThrough(m, prefix, worldDir, p))
  {
    WorldStays();
    if worldDir <= m.name {
      WorldPathBegins(m.name[|worldDir|..]);
    } else {
      var rel := m.name[|prefix|..];
      ExcludedIff(Top(rel));
      if !StartsUntidily(rel) { FirstNameIsFirstPiece(rel); }
    }
    hide Excluded, MadeAgain, SafePath, Top;
  }
}
