/** A snapshot zips a data directory; a full seed of an empty volume from that zip
    brings back exactly its regular files, except what the server makes again. */
module Snapshots {
  import opened Collections
  import opened Wrappers
  import opened Naming
  import opened SeedJob

  // -------------------------------------------------------------------- paths

  function Join(p: Path): string
    requires p != []
  {
    if |p| == 1 then p[0] else p[0] + ("/" + Join(p[1..]))
  }

  /** The pieces between slashes. */
  function Parts(s: string): (r: Path)
    ensures r != []
  {
    if s == [] then [[]]
    else if s[0] == '/' then [[]] + Parts(s[1..])
    else
      var rest := Parts(s[1..]);
      [[s[0]] + rest[0]] + rest[1..]
  }

  function Forward(s: string): (r: string)
    ensures |r| == |s| && forall i | 0 <= i < |s| :: r[i] == if s[i] == '\\' then '/' else s[i]
  {
    seq(|s|, i requires 0 <= i < |s| => if s[i] == '\\' then '/' else s[i])
  }

  /** Without empty and "." components. */
  function Proper(p: Path): (r: Path)
    ensures forall x | x in r :: x != "" && x != "."
  {
    if p == [] then []
    else if p[0] == "" || p[0] == "." then Proper(p[1..])
    else [p[0]] + Proper(p[1..])
  }

  predicate IsDrive(x: string) {
    |x| >= 2 && x[1] == ':' && ('a' <= x[0] <= 'z' || 'A' <= x[0] <= 'Z')
  }

  /** The components of a relative path, or None if it could lead out of the
      destination. */
  function SafePath(rel: string): (r: Option<Path>)
    ensures r.Some? ==> r.value != [] && forall x | x in r.value :: x != "" && x != "." && x != ".."
  {
    var s := Forward(rel);
    var parts := Proper(Parts(s));
    if (s != [] && s[0] == '/') || parts == [] || ".." in parts || IsDrive(parts[0]) then None
    else Some(parts)
  }

  /** A file name that needs no normalisation. */
  predicate PlainName(x: string) {
    x != "" && x != "." && x != ".." && '/' !in x && '\\' !in x
  }

  predicate PlainNames(p: Path) { p != [] && forall x | x in p :: PlainName(x) }

  lemma {:induction false} PartsAppend(x: string, s: string)
    requires '/' !in x
    ensures Parts(x) == [x] && Parts(x + ("/" + s)) == [x] + Parts(s)
  {
    var t := x + ("/" + s);
    if x == [] {
      assert t == "/" + s && t[1..] == s;
    } else {
      assert t[1..] == x[1..] + ("/" + s);
      PartsAppend(x[1..], s);
      assert [x[0]] + x[1..] == x;
    }
  }

  lemma JoinMore(x: string, rest: Path)
    requires rest != []
    ensures Join([x] + rest) == x + ("/" + Join(rest))
  {
    assert ([x] + rest)[1..] == rest;
  }

  lemma SlashBehind(x: string, s: string)
    ensures (x + ("/" + s)) + "/" == x + ("/" + (s + "/"))
  {
  }

  lemma PartsOfMore(x: string, rest: Path)
    requires rest != [] && '/' !in x
    requires Parts(Join(rest)) == rest && Parts(Join(rest) + "/") == rest + [""]
    ensures Parts(Join([x] + rest)) == [x] + rest && Parts(Join([x] + rest) + "/") == [x] + rest + [""]
  {
    hide *;
    JoinMore(x, rest);
    PartsAppend(x, Join(rest));
    SlashBehind(x, Join(rest));
    PartsAppend(x, Join(rest) + "/");
    assert [x] + (rest + [""]) == [x] + rest + [""];
  }

  lemma {:induction false} PartsOfJoin(p: Path)
    requires p != [] && forall x | x in p :: '/' !in x
    ensures Parts(Join(p)) == p && Parts(Join(p) + "/") == p + [""]
  {
    assert p[0] in p;
    if |p| == 1 {
      PartsAppend(p[0], "");
      assert p[0] + ("/" + "") == p[0] + "/";
      assert p == [p[0]];
    } else {
      assert forall x | x in p[1..] :: x in p;
      PartsOfJoin(p[1..]);
      PartsOfMore(p[0], p[1..]);
      assert p == [p[0]] + p[1..];
    }
  }

  lemma {:induction false} ProperKeeps(p: Path)
    requires forall x | x in p :: x != "" && x != "."
    ensures Proper(p) == p && Proper(p + [""]) == p
  {
    if p == [] {
      assert p + [""] == [""];
    } else {
      assert p[0] in p && forall x | x in p[1..] :: x in p;
      assert (p + [""])[1..] == p[1..] + [""];
      ProperKeeps(p[1..]);
    }
  }

  lemma {:induction false} JoinChars(p: Path)
    requires PlainNames(p)
    ensures Join(p) != [] && '\\' !in Join(p) && Join(p)[0] != '/'
    ensures Join(p)[|Join(p)| - 1] != '/'
  {
    assert p[0] in p && PlainName(p[0]) && |p[0]| > 0;
    assert p[0][0] in p[0] && p[0][|p[0]| - 1] in p[0];
    if |p| > 1 {
      assert forall x | x in p[1..] :: x in p;
      JoinChars(p[1..]);
      var rest := Join(p[1..]);
      assert Join(p)[|Join(p)| - 1] == rest[|rest| - 1];
      assert forall c | c in Join(p) :: c in p[0] || c == '/' || c in rest;
    }
  }

  lemma ForwardKeeps(s: string)
    requires '\\' !in s
    ensures Forward(s) == s
  {
    assert forall i | 0 <= i < |s| :: s[i] in s;
  }

  /** A plain path, joined and read back, is the same path, unless it looks like
      a drive; so is a directory's. */
  lemma SafePathOfJoin(p: Path)
    requires PlainNames(p)
    ensures SafePath(Join(p)) == (if IsDrive(p[0]) then None else Some(p))
    ensures SafePath(Join(p) + "/") == SafePath(Join(p))
  {
    hide PlainName, Parts, Proper, Join;
    assert forall x | x in p :: '/' !in x && x != "" && x != "." && x != ".." by { NamesArePlain(p); }
    JoinChars(p);
    PartsOfJoin(p);
    ProperKeeps(p);
    ForwardKeeps(Join(p));
    ForwardKeeps(Join(p) + "/");
  }

  lemma NamesArePlain(p: Path)
    requires PlainNames(p)
    ensures forall x | x in p :: '/' !in x && x != "" && x != "." && x != ".."
  {
  }

  lemma TopOfJoin(p: Path)
    requires PlainNames(p)
    ensures Top(Join(p)) == p[0] && Top(Join(p) + "/") == p[0]
  {
    assert p[0] in p;
    if |p| == 1 {
      TopAppend(p[0], "");
      assert p[0] + ("/" + "") == p[0] + "/";
      WholeTop(p[0]);
    } else {
      TopAppend(p[0], Join(p[1..]));
      TopAppend(p[0], Join(p[1..]) + "/");
      assert Join(p) + "/" == p[0] + ("/" + (Join(p[1..]) + "/"));
    }
  }

  lemma {:induction false} WholeTop(s: string)
    requires '/' !in s
    ensures Top(s) == s
  {
    if s != [] { WholeTop(s[1..]); }
  }

  // ------------------------------------------------------------ the seed's target

  /** Where a member is written, and whether it is a directory; None if it is
      left out. */
  function Placement(m: Member, prefix: string, worldDir: string, full: bool): Option<(Path, bool)> {
    var target := MapMember(m.name, prefix, worldDir, full);
    if target.None? then None
    else
      var path := SafePath(target.value);
      if path.None? || m.isLink then None else Some((path.value, m.isDir || EndsWith(target.value, "/")))
  }

  /** The files that extracting a zip leaves; a later member replaces an earlier. */
  function Extracted(zip: seq<Member>, prefix: string, worldDir: string, full: bool): map<Path, Content> {
    if zip == [] then map[]
    else
      var front, last := zip[..|zip| - 1], zip[|zip| - 1];
      var files := Extracted(front, prefix, worldDir, full);
      var at := Placement(last, prefix, worldDir, full);
      if at.Some? && !at.value.1 then files[at.value.0 := last.content] else files
  }

  const LEVEL_PATH: Path := ["world", "level.dat"]
  const MARKER_PATH: Path := [MARKER]

  function Names(zip: seq<Member>): seq<string> {
    seq(|zip|, k requires 0 <= k < |zip| => zip[k].name)
  }

  /** How many files extracting a zip writes. */
  function Written(zip: seq<Member>, prefix: string, worldDir: string, full: bool): nat {
    if zip == [] then 0
    else
      var at := Placement(zip[|zip| - 1], prefix, worldDir, full);
      Written(zip[..|zip| - 1], prefix, worldDir, full) + (if at.Some? && !at.value.1 then 1 else 0)
  }

  /** A member that is extracted as a file. */
  ghost predicate PutAsFile(m: Member, prefix: string, worldDir: string, full: bool) {
    exists p :: Puts(m, prefix, worldDir, full, p)
  }

  /** Their number is that of the members extracted as files. */
  lemma {:induction false} WrittenCounts(
      zip: seq<Member>, prefix: string, worldDir: string, full: bool, which: set<nat>)
    requires forall k: nat :: k in which <==> k < |zip| && PutAsFile(zip[k], prefix, worldDir, full)
    ensures Written(zip, prefix, worldDir, full) == |which|
  {
    hide Placement;
    if zip == [] {
      assert which == {};
    } else {
      var n := |zip| - 1;
      assert forall k: nat | k < n :: zip[..n][k] == zip[k];
      WrittenCounts(zip[..n], prefix, worldDir, full, which - {n});
      var at := Placement(zip[n], prefix, worldDir, full);
      if at.Some? && !at.value.1 {
        assert Puts(zip[n], prefix, worldDir, full, at.value.0) && n in which;
      } else {
        assert n !in which && which - {n} == which;
      }
    }
  }

  class Volume {
    var files: map<Path, Content>

    constructor ()
      ensures files == map[]
    {
      files := map[];
    }

    /** Wipes the volume and extracts a zip into it; the number of files
        written, or None if the zip holds no world. */
    method Seed(zip: seq<Member>, full: bool, mark: Content) returns (count: Option<nat>)
      modifies this
      ensures match Located(Names(zip))
        case None => count.None? && files == old(files)
        case Some((prefix, worldDir)) =>
          var extracted := Extracted(zip, prefix, worldDir, full);
          if LEVEL_PATH in extracted then
            && count == Some(Written(zip, prefix, worldDir, full))
            && files == extracted[MARKER_PATH := mark]
          else count.None? && files == extracted
    {
      hide MapMember, SafePath;
      var found := FindWorld(Names(zip));
      if found.None? {
        return None;
      }
      var (prefix, worldDir) := found.value;
      files := map[];
      var written := 0;
      for k := 0 to |zip|
        invariant files == Extracted(zip[..k], prefix, worldDir, full)
        invariant written == Written(zip[..k], prefix, worldDir, full)
      {
        assert zip[..k + 1][..k] == zip[..k];
        var target := MapMember(zip[k].name, prefix, worldDir, full);
        if target.None? {
          continue;
        }
        var path := SafePath(target.value);
        if path.None? {
          continue;
        }
        if zip[k].isLink {
          continue;
        }
        if zip[k].isDir || EndsWith(target.value, "/") {
          continue;
        }
        files := files[path.value := zip[k].content];
        written := written + 1;
      }
      assert zip[..|zip|] == zip;
      if LEVEL_PATH !in files {
        return None;
      }
      files := files[MARKER_PATH := mark];
      count := Some(written);
    }
  }

  // ------------------------------------------------------------- the directory

  /** A data directory's entries in name order: regular files, directories, and
      anything else, such as symbolic links. */
  datatype Entry = File(content: Content) | Special | Directory(items: Listing)

  datatype Listing = Empty | Item(name: string, entry: Entry, rest: Listing)

  /** The regular file at a path. */
  function Lookup(l: Listing, p: Path): Option<Content>
    decreases l
  {
    match l
    case Empty => None
    case Item(name, entry, rest) =>
      if p == [] then None
      else if name != p[0] then Lookup(rest, p)
      else match entry
        case File(content) => if |p| == 1 then Some(content) else None
        case Directory(items) => Lookup(items, p[1..])
        case Special => None
  }

  ghost predicate HasName(l: Listing, x: string) {
    l.Item? && (l.name == x || HasName(l.rest, x))
  }

  /** Plain names, no two alike in a directory. */
  ghost predicate ValidListing(l: Listing) {
    l.Item? ==>
      && PlainName(l.name) && !HasName(l.rest, l.name) && ValidListing(l.rest)
      && (l.entry.Directory? ==> ValidListing(l.entry.items))
  }

  function Size(l: Listing): nat {
    match l
    case Empty => 0
    case Item(_, entry, rest) => 1 + (if entry.Directory? then Size(entry.items) else 0) + Size(rest)
  }

  // ------------------------------------------------------------- the snapshot

  datatype Folder = Folder(path: Path, items: Listing)

  /** The top level leaves out what the server makes again. */
  predicate LeftOut(dir: Path, name: string) { dir == [] && Excluded(name) }

  function DirMember(dir: Path): Member
    requires dir != []
  {
    Member(Join(dir) + "/", true, false, [])
  }

  function FileMember(p: Path, content: Content): Member
    requires p != []
  {
    Member(Join(p), false, false, content)
  }

  /** The members for the regular files right in a directory. */
  function FilesIn(dir: Path, l: Listing): seq<Member> {
    match l
    case Empty => []
    case Item(name, entry, rest) =>
      var others := FilesIn(dir, rest);
      if entry.File? && !LeftOut(dir, name) then [FileMember(dir + [name], entry.content)] + others else others
  }

  /** The members for everything below the directories right in a directory. */
  function Below(dir: Path, l: Listing): seq<Member>
    decreases l, 0
  {
    match l
    case Empty => []
    case Item(name, entry, rest) =>
      var others := Below(dir, rest);
      if entry.Directory? && !LeftOut(dir, name) then Tree(dir + [name], entry.items) + others else others
  }

  /** The members for a directory: itself, its files, its directories. */
  function Tree(dir: Path, l: Listing): seq<Member>
    decreases l, 1
  {
    (if dir == [] then [] else [DirMember(dir)]) + FilesIn(dir, l) + Below(dir, l)
  }

  function Zip(root: Listing): seq<Member> { Tree([], root) }

  /** Writes the members for a directory and its files; the directories in it. */
  method ZipFolder(dir: Path, items: Listing) returns (members: seq<Member>, below: seq<Folder>, count: nat)
    ensures members + Below(dir, items) == Tree(dir, items)
    ensures below == FoldersIn(dir, items)
    ensures count == Files(members)
  {
    hide *;
    members, below, count := if dir == [] then [] else [DirMember(dir)], [], 0;
    ghost var own := members;
    FolderStarts(dir, items);
    var l := items;
    while l.Item?
      invariant own + FilesIn(dir, items) == members + FilesIn(dir, l)
      invariant FoldersIn(dir, items) == below + FoldersIn(dir, l)
      invariant count == Files(members)
      decreases l
    {
      FolderStep(dir, l, members, below);
      if l.entry.File? && !LeftOut(dir, l.name) {
        members, count := members + [FileMember(dir + [l.name], l.entry.content)], count + 1;
      }
      if l.entry.Directory? && !LeftOut(dir, l.name) {
        below := below + [Folder(dir + [l.name], l.entry.items)];
      }
      l := l.rest;
    }
    FolderEnds(dir, l);
    assert members + [] == members && below + [] == below;
  }

  lemma FolderStarts(dir: Path, l: Listing)
    ensures var own := if dir == [] then [] else [DirMember(dir)];
      own + FilesIn(dir, l) + Below(dir, l) == Tree(dir, l) && Files(own) == 0
    ensures [] + FoldersIn(dir, l) == FoldersIn(dir, l)
  {
  }

  lemma FolderStep(dir: Path, l: Listing, members: seq<Member>, below: seq<Folder>)
    requires l.Item?
    ensures if l.entry.File? && !LeftOut(dir, l.name) then
        var m := FileMember(dir + [l.name], l.entry.content);
        members + FilesIn(dir, l) == members + [m] + FilesIn(dir, l.rest) && Files(members + [m]) == Files(members) + 1
      else FilesIn(dir, l) == FilesIn(dir, l.rest)
    ensures if l.entry.Directory? && !LeftOut(dir, l.name) then
        below + FoldersIn(dir, l) == below + [Folder(dir + [l.name], l.entry.items)] + FoldersIn(dir, l.rest)
      else FoldersIn(dir, l) == FoldersIn(dir, l.rest)
  {
    hide Join, LeftOut;
    if l.entry.File? && !LeftOut(dir, l.name) {
      FilesAppend(members, [FileMember(dir + [l.name], l.entry.content)]);
    }
  }

  lemma FolderEnds(dir: Path, l: Listing)
    requires l.Empty?
    ensures FilesIn(dir, l) == [] && FoldersIn(dir, l) == []
  {
  }

  /** Zips a data directory; None if it holds no world. The folders still to be
      walked are kept in the order they will be. */
  method TakeSnapshot(root: Listing) returns (zip: Option<seq<Member>>, count: nat)
    ensures Lookup(root, LEVEL_PATH).None? ==> zip.None? && count == 0
    ensures Lookup(root, LEVEL_PATH).Some? ==> zip == Some(Zip(root)) && count == Files(Zip(root))
  {
    hide *;
    count := 0;
    if Lookup(root, LEVEL_PATH).None? {
      return None, 0;
    }
    var members: seq<Member> := [];
    var pending := [Folder([], root)];
    WalkStarts(root);
    while pending != []
      invariant Zip(root) == members + Remaining(pending)
      invariant count == Files(members)
      decreases TotalSize(pending)
    {
      var dir, items, rest := pending[0].path, pending[0].items, pending[1..];
      var written, below, n := ZipFolder(dir, items);
      WalkStep(members, pending, written, below);
      members, count, pending := members + written, count + n, below + rest;
    }
    WalkEnds();
    assert members + [] == members;
    zip := Some(members);
  }

  lemma WalkStarts(root: Listing)
    ensures Zip(root) == [] + Remaining([Folder([], root)]) && Files([]) == 0
  {
  }

  lemma WalkStep(members: seq<Member>, pending: seq<Folder>, written: seq<Member>, below: seq<Folder>)
    requires pending != [] && below == FoldersIn(pending[0].path, pending[0].items)
    requires written + Below(pending[0].path, pending[0].items) == Tree(pending[0].path, pending[0].items)
    ensures members + Remaining(pending) == members + written + Remaining(below + pending[1..])
    ensures Files(members + written) == Files(members) + Files(written)
    ensures TotalSize(below + pending[1..]) < TotalSize(pending)
  {
    hide Tree, Below, FoldersIn;
    var dir, items, rest := pending[0].path, pending[0].items, pending[1..];
    BelowIsRemaining(dir, items);
    RemainingAppend(below, rest);
    FolderSizes(dir, items);
    SizesAppend(below, rest);
    FilesAppend(members, written);
    assert members + (written + Remaining(below) + Remaining(rest))
           == members + written + (Remaining(below) + Remaining(rest));
  }

  lemma WalkEnds()
    ensures Remaining([]) == []
  {
  }

  /** How many members are files. */
  function Files(zip: seq<Member>): nat {
    if zip == [] then 0 else (if zip[0].isDir then 0 else 1) + Files(zip[1..])
  }

  lemma {:induction false} FilesAppend(a: seq<Member>, b: seq<Member>)
    ensures Files(a + b) == Files(a) + Files(b)
  {
    if a == [] {
      assert a + b == b;
    } else {
      assert (a + b)[1..] == a[1..] + b;
      FilesAppend(a[1..], b);
    }
  }

  ghost function FoldersIn(dir: Path, l: Listing): seq<Folder> {
    match l
    case Empty => []
    case Item(name, entry, rest) =>
      var others := FoldersIn(dir, rest);
      if entry.Directory? && !LeftOut(dir, name) then [Folder(dir + [name], entry.items)] + others else others
  }

  ghost function Remaining(pending: seq<Folder>): seq<Member> {
    if pending == [] then [] else Tree(pending[0].path, pending[0].items) + Remaining(pending[1..])
  }

  ghost function TotalSize(pending: seq<Folder>): nat {
    if pending == [] then 0 else 1 + Size(pending[0].items) + TotalSize(pending[1..])
  }

  lemma {:induction false} BelowIsRemaining(dir: Path, l: Listing)
    ensures Below(dir, l) == Remaining(FoldersIn(dir, l))
  {
    if l.Item? {
      BelowIsRemaining(dir, l.rest);
      if l.entry.Directory? && !LeftOut(dir, l.name) {
        assert FoldersIn(dir, l)[1..] == FoldersIn(dir, l.rest);
      }
    }
  }

  lemma {:induction false} FolderSizes(dir: Path, l: Listing)
    ensures TotalSize(FoldersIn(dir, l)) <= Size(l)
  {
    if l.Item? {
      FolderSizes(dir, l.rest);
      if l.entry.Directory? && !LeftOut(dir, l.name) {
        assert FoldersIn(dir, l)[1..] == FoldersIn(dir, l.rest);
      }
    }
  }

  lemma RemainingMore(f: Folder, rest: seq<Folder>)
    ensures Remaining([f] + rest) == Tree(f.path, f.items) + Remaining(rest)
  {
    assert ([f] + rest)[1..] == rest;
  }

  lemma {:induction false} RemainingAppend(a: seq<Folder>, b: seq<Folder>)
    ensures Remaining(a + b) == Remaining(a) + Remaining(b)
  {
    if a == [] {
      assert a + b == b;
    } else {
      hide *;
      var f, rest := a[0], a[1..];
      assert a == [f] + rest;
      RemainingAppend(rest, b);
      RemainingMore(f, rest);
      RemainingMore(f, rest + b);
      Reassociated([f], rest, b);
      Reassociated(Tree(f.path, f.items), Remaining(rest), Remaining(b));
    }
  }

  lemma {:induction false} SizesAppend(a: seq<Folder>, b: seq<Folder>)
    ensures TotalSize(a + b) == TotalSize(a) + TotalSize(b)
  {
    if a == [] {
      assert a + b == b;
    } else {
      assert (a + b)[1..] == a[1..] + b;
      SizesAppend(a[1..], b);
    }
  }

  // ------------------------------------------- what the members say of the tree

  ghost predicate IsFileAt(m: Member, dir: Path, l: Listing, q: Path) {
    q != [] && Lookup(l, q).Some? && !LeftOut(dir, q[0]) && m == FileMember(dir + q, Lookup(l, q).value)
  }

  ghost predicate SaysTrue(m: Member, dir: Path, l: Listing) {
    m.isDir || exists q :: IsFileAt(m, dir, l, q)
  }

  lemma {:induction false} LookupNames(l: Listing, p: Path)
    requires Lookup(l, p).Some? && ValidListing(l)
    ensures PlainNames(p) && HasName(l, p[0])
    decreases l
  {
    if l.name != p[0] {
      LookupNames(l.rest, p);
    } else if l.entry.Directory? {
      LookupNames(l.entry.items, p[1..]);
      assert p == [p[0]] + p[1..];
    }
  }

  /** What holds of a listing's rest holds of the listing. */
  lemma RestSaysTrue(m: Member, dir: Path, l: Listing)
    requires l.Item? && ValidListing(l) && SaysTrue(m, dir, l.rest)
    ensures SaysTrue(m, dir, l)
  {
    if !m.isDir {
      var q :| IsFileAt(m, dir, l.rest, q);
      LookupNames(l.rest, q);
      assert q[0] != l.name by {
        if q[0] == l.name { assert false; }
      }
      assert IsFileAt(m, dir, l, q);
    }
  }

  lemma {:induction false} FilesSayTrue(m: Member, dir: Path, l: Listing)
    requires m in FilesIn(dir, l) && ValidListing(l)
    ensures SaysTrue(m, dir, l)
    decreases l
  {
    if m in FilesIn(dir, l.rest) {
      FilesSayTrue(m, dir, l.rest);
      RestSaysTrue(m, dir, l);
    } else {
      assert IsFileAt(m, dir, l, [l.name]);
    }
  }

  lemma {:induction false} BelowSaysTrue(m: Member, dir: Path, l: Listing)
    requires m in Below(dir, l) && ValidListing(l)
    ensures SaysTrue(m, dir, l)
    decreases l, 0
  {
    if m in Below(dir, l.rest) {
      BelowSaysTrue(m, dir, l.rest);
      RestSaysTrue(m, dir, l);
    } else {
      TreeSaysTrue(m, dir + [l.name], l.entry.items);
      if !m.isDir {
        var q :| IsFileAt(m, dir + [l.name], l.entry.items, q);
        var p := [l.name] + q;
        assert p[1..] == q && dir + p == dir + [l.name] + q;
        assert IsFileAt(m, dir, l, p);
      }
    }
  }

  /** Every file in the zip is a file of the tree, with its content. */
  lemma {:induction false} TreeSaysTrue(m: Member, dir: Path, l: Listing)
    requires m in Tree(dir, l) && ValidListing(l)
    ensures SaysTrue(m, dir, l)
    decreases l, 1
  {
    if m in FilesIn(dir, l) {
      FilesSayTrue(m, dir, l);
    } else if m in Below(dir, l) {
      BelowSaysTrue(m, dir, l);
    }
  }

  /** Every file of the tree that is not left out is in the zip. */
  lemma {:induction false} TreeIsComplete(dir: Path, l: Listing, q: Path)
    requires q != [] && Lookup(l, q).Some? && !LeftOut(dir, q[0])
    ensures |q| == 1 ==> FileMember(dir + q, Lookup(l, q).value) in FilesIn(dir, l)
    ensures |q| > 1 ==> FileMember(dir + q, Lookup(l, q).value) in Below(dir, l)
    decreases l
  {
    if l.name != q[0] {
      TreeIsComplete(dir, l.rest, q);
    } else if |q| == 1 {
      assert q == [l.name];
    } else {
      TreeIsComplete(dir + [l.name], l.entry.items, q[1..]);
      assert dir + q == dir + [l.name] + q[1..];
    }
  }

  // --------------------------------------------------------------- round trip

  /** What a seed takes from a snapshot: everything that is not made again, or
      the world and the player lists only. */
  predicate Kept(p: Path, full: bool)
    requires p != []
  {
    && !Excluded(p[0])
    && (full || (|p| > 1 && p[0] == "world") || IsVanillaFile(Join(p)))
    && !IsDrive(p[0])
  }

  lemma WorldNameSplits(name: string)
    requires WORLD <= name
    ensures Top(name) == "world" && '/' in name
  {
    assert name == WORLD + name[|WORLD|..] && name[5] == '/';
    TopOfWorld(name[|WORLD|..]);
  }

  lemma WorldJoin(p: Path)
    requires |p| > 1 && p[0] == "world"
    ensures WORLD <= Join(p)
  {
    var rest := Join(p[1..]);
    assert Join(p) == "world" + ("/" + rest);
    hide Join;
    assert Join(p) == WORLD + rest;
  }

  lemma SingleName(p: Path)
    requires PlainNames(p) && |p| == 1
    ensures '/' !in Join(p)
  {
    assert p[0] in p;
  }

  lemma WorldPrefix(p: Path)
    requires PlainNames(p)
    ensures WORLD <= Join(p) <==> |p| > 1 && p[0] == "world"
  {
    TopOfJoin(p);
    hide *;
    if WORLD <= Join(p) {
      WorldNameSplits(Join(p));
      if |p| == 1 { SingleName(p); }
      NamesExist(p);
    } else if |p| > 1 && p[0] == "world" {
      WorldJoin(p);
    }
  }

  lemma NamesExist(p: Path)
    requires PlainNames(p)
    ensures p != []
  {
  }

  /** A member's name maps to itself, where the mode takes it. */
  lemma MappedToItself(p: Path, full: bool)
    requires PlainNames(p) && !Excluded(p[0])
    ensures var kept := full || (|p| > 1 && p[0] == "world") || IsVanillaFile(Join(p));
      MapMember(Join(p), [], WORLD, full) == if kept then Some(Join(p)) else None
  {
    WorldPrefix(p);
    TopOfJoin(p);
    JoinChars(p);
    hide PlainNames, Join, Excluded, IsVanillaFile;
    NameMapped(Join(p), full);
  }

  lemma NameMapped(name: string, full: bool)
    requires name != [] && !Excluded(Top(name))
    ensures var kept := full || WORLD <= name || IsVanillaFile(name);
      MapMember(name, [], WORLD, full) == if kept then Some(name) else None
  {
    hide Excluded, IsVanillaFile, Top;
    assert name[0..] == name && [] + WORLD == WORLD;
    if WORLD <= name { assert WORLD + name[|WORLD|..] == name; }
  }

  lemma PlacedWhereItWas(p: Path, content: Content, full: bool)
    requires PlainNames(p) && !Excluded(p[0])
    ensures Placement(FileMember(p, content), [], WORLD, full) == if Kept(p, full) then Some((p, false)) else None
  {
    var name := Join(p);
    JoinChars(p);
    assert name[|name| - 1..][0] == name[|name| - 1];
    MappedToItself(p, full);
    SafePathOfJoin(p);
    hide Join, Excluded, IsVanillaFile, MapMember, SafePath, IsDrive;
  }

  ghost predicate Puts(m: Member, prefix: string, worldDir: string, full: bool, p: Path) {
    Placement(m, prefix, worldDir, full) == Some((p, false))
  }

  lemma {:induction false} ExtractedAre(zip: seq<Member>, prefix: string, worldDir: string, full: bool, p: Path)
    ensures p in Extracted(zip, prefix, worldDir, full) <==> exists m :: m in zip && Puts(m, prefix, worldDir, full, p)
    ensures p in Extracted(zip, prefix, worldDir, full) ==>
      exists m ::
        m in zip && Puts(m, prefix, worldDir, full, p) && m.content == Extracted(zip, prefix, worldDir, full)[p]
  {
    hide Placement;
    if zip != [] {
      var front, last := zip[..|zip| - 1], zip[|zip| - 1];
      assert zip == front + [last];
      ExtractedAre(front, prefix, worldDir, full, p);
      assert last in zip && forall m | m in front :: m in zip;
      if Puts(last, prefix, worldDir, full, p) {
      } else {
        assert forall m | m in zip && Puts(m, prefix, worldDir, full, p) :: m in front;
      }
    }
  }

  /** A volume seeded from a snapshot holds exactly the regular files of the
      snapshotted directory that a seed takes, with their contents. */
  lemma SeedRestoresSnapshot(root: Listing, full: bool, p: Path)
    requires ValidListing(root) && Lookup(root, LEVEL_PATH).Some?
    ensures Located(Names(Zip(root))) == Some(([], WORLD))
    ensures var files := Extracted(Zip(root), [], WORLD, full);
      && LEVEL_PATH in files
      && (p in files <==> p != [] && Lookup(root, p).Some? && Kept(p, full))
      && (p in files ==> files[p] == Lookup(root, p).value)
  {
    SnapshotHoldsWorld(root);
    RestoredFile(root, full, p);
    RestoredFile(root, full, LEVEL_PATH);
    WorldIsNotExcluded();
    assert LEVEL_PATH[0] == "world" && |LEVEL_PATH| == 2;
  }

  lemma SnapshotNamesWorld(root: Listing)
    requires Lookup(root, LEVEL_PATH).Some?
    ensures WORLD + LEVEL in Names(Zip(root))
  {
    WorldIsNotExcluded();
    TreeIsComplete([], root, LEVEL_PATH);
    assert [] + LEVEL_PATH == LEVEL_PATH;
    var m := FileMember(LEVEL_PATH, Lookup(root, LEVEL_PATH).value);
    assert m in Zip(root);
    var k :| 0 <= k < |Zip(root)| && Zip(root)[k] == m;
    assert Names(Zip(root))[k] == m.name;
    assert LEVEL_PATH[1..] == ["level.dat"];
    assert m.name == "world" + ("/" + "level.dat") == WORLD + LEVEL;
  }

  lemma SnapshotHoldsWorld(root: Listing)
    requires Lookup(root, LEVEL_PATH).Some?
    ensures Located(Names(Zip(root))) == Some(([], WORLD))
  {
    SnapshotNamesWorld(root);
    RootWorldIsFound(Names(Zip(root)));
  }

  lemma RestoredFile(root: Listing, full: bool, p: Path)
    requires ValidListing(root)
    ensures var files := Extracted(Zip(root), [], WORLD, full);
      && (p in files <==> p != [] && Lookup(root, p).Some? && Kept(p, full))
      && (p in files ==> files[p] == Lookup(root, p).value)
  {
    hide Placement, Kept, Extracted;
    var zip := Zip(root);
    ExtractedAre(zip, [], WORLD, full, p);
    forall m | m in zip && Puts(m, [], WORLD, full, p)
      ensures p != [] && Lookup(root, p) == Some(m.content) && Kept(p, full)
    {
      MemberRestored(root, full, m, p);
    }
    if p != [] && Lookup(root, p).Some? && Kept(p, full) {
      var m := FileMember(p, Lookup(root, p).value);
      KeptIsNotExcluded(p, full);
      TreeIsComplete([], root, p);
      assert [] + p == p;
      LookupNames(root, p);
      PlacedWhereItWas(p, m.content, full);
      assert m in zip && Puts(m, [], WORLD, full, p);
    }
  }

  lemma KeptIsNotExcluded(p: Path, full: bool)
    requires p != [] && Kept(p, full)
    ensures !Excluded(p[0])
  {
  }

  lemma MemberRestored(root: Listing, full: bool, m: Member, p: Path)
    requires ValidListing(root) && m in Zip(root) && Puts(m, [], WORLD, full, p)
    ensures p != [] && Lookup(root, p) == Some(m.content) && Kept(p, full)
  {
    hide Kept, MapMember, SafePath, Excluded;
    TreeSaysTrue(m, [], root);
    var q :| IsFileAt(m, [], root, q);
    assert [] + q == q;
    LookupNames(root, q);
    PlacedWhereItWas(q, m.content, full);
  }

  /** The same members one or more directories deeper. */
  function NestedZip(p: string, zip: seq<Member>): (r: seq<Member>)
    ensures |r| == |zip| && forall k | 0 <= k < |r| :: r[k] == zip[k].(name := p + zip[k].name)
    ensures Names(r) == Nested(p, Names(zip))
  {
    var r := seq(|zip|, k requires 0 <= k < |zip| => zip[k].(name := p + zip[k].name));
    assert Names(r) == Nested(p, Names(zip));
    r
  }

  lemma {:induction false} ExtractedNested(p: string, zip: seq<Member>, prefix: string, worldDir: string, full: bool)
    ensures Extracted(NestedZip(p, zip), p + prefix, p + worldDir, full) == Extracted(zip, prefix, worldDir, full)
  {
    hide MapMember, SafePath, Names, Nested;
    if zip != [] {
      var front, last := zip[..|zip| - 1], zip[|zip| - 1];
      var deeper := NestedZip(p, zip);
      assert deeper[..|zip| - 1] == NestedZip(p, front);
      ExtractedNested(p, front, prefix, worldDir, full);
      MapNested(p, last.name, prefix, worldDir, full);
    }
  }

  /** A snapshot that has been zipped again with the directories around it seeds
      the same files, in either mode, unless those directories end in one that
      would be taken for the world itself. */
  lemma NestedSnapshotRestores(root: Listing, at: string, full: bool)
    requires ValidListing(root) && Lookup(root, LEVEL_PATH).Some?
    requires EndsWith(at, "/") && !Contains(at, "__MACOSX/")
    requires !(LEVEL in Names(Zip(root)) && InWorldDir(at + LEVEL))
    ensures var zip := NestedZip(at, Zip(root));
      match Located(Names(zip))
      case None => false
      case Some((prefix, worldDir)) =>
        Extracted(zip, prefix, worldDir, full) == Extracted(Zip(root), [], WORLD, full)
  {
    hide Extracted, Located, InWorldDir, Names;
    SnapshotNamesWorld(root);
    NestedWorldIsFoundIff(at, Names(Zip(root)));
    assert at + [] == at;
    ExtractedNested(at, Zip(root), [], WORLD, full);
  }
}
