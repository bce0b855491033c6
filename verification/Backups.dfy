/** The index of backup files: what was detected in a file is remembered under
    its id, size and modification time; old snapshots are pruned. */
module Backups {
  import opened Wrappers
  import opened Collections
  import opened BackupNames
  import opened Naming

  // ---------------------------------------------------------------- detection

  datatype ServerType = Vanilla | Forge

  datatype Detection = Detection(
    prefix: Option<string>, worldDir: Option<string>, server: ServerType,
    version: Option<string>, forge: Option<string>, properties: map<string, string>)

  datatype Json = Null | Text(text: string) | Object(fields: map<string, Json>)

  const NOTHING := Detection(None, None, Vanilla, None, None, map[])

  function Optional(s: Option<string>): Json { if s.None? then Null else Text(s.value) }

  function ServerName(s: ServerType): string { if s.Forge? then "FORGE" else "VANILLA" }

  function ToJson(d: Detection): (j: Json)
    ensures j.Object?
  {
    Object(map[
      "prefix" := Optional(d.prefix),
      "world_dir" := Optional(d.worldDir),
      "server_type" := Text(ServerName(d.server)),
      "mc_version" := Optional(d.version),
      "forge_version" := Optional(d.forge),
      "properties" := Object(map k | k in d.properties :: Text(d.properties[k]))])
  }

  function Get(fields: map<string, Json>, key: string, default: Json): Json {
    if key in fields then fields[key] else default
  }

  /** A field that is a text or absent. */
  function Read(fields: map<string, Json>, key: string): Option<Option<string>> {
    match Get(fields, key, Null)
    case Null => Some(None)
    case Text(t) => Some(Some(t))
    case Object(_) => None
  }

  function ReadServer(fields: map<string, Json>): Option<ServerType> {
    var s := Get(fields, "server_type", Text("VANILLA"));
    if s == Text("FORGE") then Some(Forge) else if s == Text("VANILLA") then Some(Vanilla) else None
  }

  function ReadProperties(fields: map<string, Json>): Option<map<string, string>> {
    match Get(fields, "properties", Null)
    case Null => Some(map[])
    case Text(t) => if t == "" then Some(map[]) else None
    case Object(m) =>
      if forall k | k in m :: m[k].Text? then Some(map k | k in m :: m[k].text) else None
  }

  /** None where reading raises an error. */
  function FromJson(j: Json): Option<Detection>
    requires j.Object?
  {
    var f := j.fields;
    var prefix, worldDir := Read(f, "prefix"), Read(f, "world_dir");
    var version, forge := Read(f, "mc_version"), Read(f, "forge_version");
    var server, properties := ReadServer(f), ReadProperties(f);
    if prefix.None? || worldDir.None? || version.None? || forge.None? || server.None? || properties.None? then None
    else Some(Detection(prefix.value, worldDir.value, server.value, version.value, forge.value, properties.value))
  }

  lemma PropertiesRoundTrip(f: map<string, Json>, properties: map<string, string>)
    requires "properties" in f && f["properties"] == Object(map k | k in properties :: Text(properties[k]))
    ensures ReadProperties(f) == Some(properties)
  {
    var m := f["properties"].fields;
    assert forall k | k in m :: m[k] == Text(properties[k]);
    assert (map k | k in m :: m[k].text) == properties;
  }

  lemma OptionalRoundTrip(f: map<string, Json>, key: string, value: Option<string>)
    requires key in f && f[key] == Optional(value)
    ensures Read(f, key) == Some(value)
  {
  }

  lemma ServerRoundTrip(f: map<string, Json>, server: ServerType)
    requires "server_type" in f && f["server_type"] == Text(ServerName(server))
    ensures ReadServer(f) == Some(server)
  {
    assert "FORGE"[0] != "VANILLA"[0];
  }

  lemma FieldsOf(d: Detection)
    ensures var f := ToJson(d).fields;
      && "prefix" in f && "world_dir" in f && "server_type" in f
      && "mc_version" in f && "forge_version" in f && "properties" in f
      && f["prefix"] == Optional(d.prefix) && f["world_dir"] == Optional(d.worldDir)
      && f["server_type"] == Text(ServerName(d.server)) && f["mc_version"] == Optional(d.version)
      && f["forge_version"] == Optional(d.forge)
      && f["properties"] == Object(map k | k in d.properties :: Text(d.properties[k]))
  {
    assert |"prefix"| == 6 && |"world_dir"| == 9 && |"server_type"| == 11 && |"mc_version"| == 10;
    assert |"forge_version"| == 13 && |"properties"| == 10 && "mc_version"[0] != "properties"[0];
  }

  lemma DetectionRoundTrip(d: Detection)
    ensures FromJson(ToJson(d)) == Some(d)
  {
    var f := ToJson(d).fields;
    FieldsOf(d);
    hide ToJson, Optional, ServerName, Read, ReadServer, ReadProperties;
    PropertiesRoundTrip(f, d.properties);
    OptionalRoundTrip(f, "prefix", d.prefix);
    OptionalRoundTrip(f, "world_dir", d.worldDir);
    OptionalRoundTrip(f, "mc_version", d.version);
    OptionalRoundTrip(f, "forge_version", d.forge);
    ServerRoundTrip(f, d.server);
  }

  // -------------------------------------------------------------------- files

  datatype Tier = Archive | Promoted | Snapshot

  /** A tier and the components of the path below its root. */
  datatype Id = Id(tier: Tier, path: seq<string>)

  type Content = seq<int>

  /** A zip file as it is found.  `present` is false if it is gone by the time it
      is looked at, `readable` is false if reading it fails. */
  datatype File = File(id: Id, size: nat, mtime: int, content: Content, present: bool, readable: bool)

  datatype Backup = Backup(id: Id, world: string, timestamp: Option<Moment>, size: nat, detection: Detection)

  /** What is given from outside: inspecting a zip, None for a corrupt one; the
      moment of a modification time; the world that the sidecar of a promoted file
      names, or nothing; the order backups are listed in. */
  datatype Env = Env(
    inspect: Content -> Option<Detection>,
    clock: int -> Option<Moment>,
    side: Id -> string,
    listing: (Backup, Backup) -> bool)

  function Inspected(env: Env, f: File): Detection {
    var d := env.inspect(f.content);
    if f.readable && d.Some? then d.value else NOTHING
  }

  function Made(env: Env, f: File, d: Detection): (b: Backup)
    requires f.id.path != []
    ensures b.id == f.id
  {
    var n := |f.id.path|;
    var parent := if n > 1 then f.id.path[n - 2] else "";
    var (world, timestamp) := ParseBackupName(parent, f.id.path[n - 1], env.clock(f.mtime));
    var named := if f.id.tier.Promoted? then env.side(f.id) else "";
    Backup(f.id, if named != "" then named else world, timestamp, f.size, d)
  }

  /** The ids of a tier's files; no two files share one. */
  ghost predicate ValidFiles(files: seq<File>) {
    && (forall f | f in files :: f.id.path != [] && (f.id.tier.Snapshot? ==> |f.id.path| == 2))
    && forall i, j | 0 <= i < j < |files| :: files[i].id != files[j].id
  }

  // -------------------------------------------------------------------- cache

  const DETECT_VERSION := 2

  /** What index.json holds for an id; it may hold anything. */
  datatype Entry = Malformed | Entry(size: nat, mtime: int, version: int, detection: Json)

  type Index = map<Id, Entry>

  predicate Current(e: Entry) {
    e.Entry? && e.version == DETECT_VERSION && e.detection.Object?
  }

  predicate Hit(index: Index, f: File) {
    f.id in index && Current(index[f.id]) && index[f.id].size == f.size && index[f.id].mtime == f.mtime
  }

  /** None where the remembered detection cannot be read. */
  function Detected(env: Env, index: Index, f: File): Option<Detection> {
    if Hit(index, f) then FromJson(index[f.id].detection) else Some(Inspected(env, f))
  }

  function Noted(env: Env, index: Index, f: File): Index {
    if Hit(index, f) then index
    else index[f.id := Entry(f.size, f.mtime, DETECT_VERSION, ToJson(Inspected(env, f)))]
  }

  datatype Scanned = Scanned(index: Index, found: seq<Backup>)

  /** One more file scanned; None where that raises an error. */
  function ScanOne(env: Env, s: Scanned, f: File): Option<Scanned>
    requires f.id.path != []
  {
    if !f.present then Some(s)
    else
      var d := Detected(env, s.index, f);
      if d.None? then None
      else
        var found := if d.value.worldDir.Some? then s.found + [Made(env, f, d.value)] else s.found;
        Some(Scanned(Noted(env, s.index, f), found))
  }

  /** A scan before sorting. */
  function Scan(env: Env, index: Index, files: seq<File>): Option<Scanned>
    requires ValidFiles(files)
  {
    if files == [] then Some(Scanned(index, []))
    else
      var before := Scan(env, index, files[..|files| - 1]);
      if before.None? then None else ScanOne(env, before.value, files[|files| - 1])
  }

  lemma ScanNext(env: Env, index: Index, files: seq<File>, k: nat)
    requires ValidFiles(files) && k < |files|
    ensures ValidFiles(files[..k]) && ValidFiles(files[..k + 1]) && files[k].id.path != []
    ensures var before := Scan(env, index, files[..k]);
      Scan(env, index, files[..k + 1]) == if before.None? then None else ScanOne(env, before.value, files[k])
  {
    hide ScanOne;
    assert files[..k + 1][..k] == files[..k];
    assert forall f | f in files[..k + 1] :: f in files;
    assert files[k] in files;
  }

  predicate Listed(files: seq<File>, id: Id) { exists k :: 0 <= k < |files| && files[k].id == id }

  function Swept(index: Index, files: seq<File>): Index {
    map id | id in index && Listed(files, id) :: index[id]
  }

  /** The index that is kept: a failure to save it is only logged. */
  function Kept(env: Env, index: Index, files: seq<File>, saves: bool): Index
    requires ValidFiles(files)
  {
    var s := Scan(env, index, files);
    if s.Some? && saves then Swept(s.value.index, files) else index
  }

  class BackupIndex {
    const env: Env
    var files: seq<File>
    var index: Index

    ghost predicate Valid() reads this { ValidFiles(files) }

    constructor (env: Env, files: seq<File>, index: Index)
      requires ValidFiles(files)
      ensures Valid() && this.env == env && this.files == files && this.index == index
    {
      this.env, this.files, this.index := env, files, index;
    }

    /** What is in one file. */
    method Look(f: File, saves: bool) returns (d: Option<Detection>)
      requires Valid() && f in files && f.present
      modifies this`index
      ensures d == Detected(env, old(index), f)
      ensures index == if d.Some? && saves then Noted(env, old(index), f) else old(index)
    {
      if Hit(index, f) {
        d := FromJson(index[f.id].detection);
        return;
      }
      d := Some(Inspected(env, f));
      if saves {
        index := index[f.id := Entry(f.size, f.mtime, DETECT_VERSION, ToJson(d.value))];
      }
    }

    /** All backups, in listing order; None where the scan raises an error. */
    method ScanFiles(saves: bool) returns (r: Option<seq<Backup>>)
      requires Valid()
      modifies this`index
      ensures match Scan(env, old(index), files)
        case None => r.None?
        case Some(s) => r == Some(Sort(s.found, env.listing))
      ensures index == Kept(env, old(index), files, saves)
    {
      hide Detected, Noted, Made, Inspected, Sort, Scan, Swept, Hit;
      var ix, dirty, found := index, false, [];
      assert files[..0] == [];
      ScanNothing(env, index);
      for k := 0 to |files|
        invariant ValidFiles(files[..k])
        invariant Scan(env, index, files[..k]) == Some(Scanned(ix, found))
        invariant index == old(index) && (!dirty ==> ix == index)
      {
        var f := files[k];
        ScanNext(env, index, files, k);
        if !f.present {
          continue;
        }
        var d := Detected(env, ix, f);
        if d.None? {
          ScanFailsEarly(env, index, files, k + 1);
          return None;
        }
        if !Hit(ix, f) {
          dirty := true;
        } else {
          HitIsKept(env, ix, f);
        }
        ix := Noted(env, ix, f);
        if d.value.worldDir.Some? {
          found := found + [Made(env, f, d.value)];
        }
      }
      assert files[..|files|] == files;
      var swept := Swept(ix, files);
      if swept.Keys != ix.Keys {
        dirty := true;
      } else {
        SweptNothing(ix, files);
      }
      if dirty && saves {
        index := swept;
      }
      r := Some(Sort(found, env.listing));
    }

    /** Removes a snapshot or promoted file; false if that is refused. */
    method Delete(id: Id) returns (ok: bool)
      requires Valid()
      modifies this`files
      ensures Valid()
      ensures ok <==> !id.tier.Archive? && OnDisk(old(files), id)
      ensures files == if ok then Without(old(files), [id]) else old(files)
    {
      WithoutKeepsValid(files, [id]);
      ok := !id.tier.Archive? && OnDisk(files, id);
      if ok {
        files := Without(files, [id]);
      }
    }

    /** Deletes all but the newest `keep` snapshots of a world; their ids. */
    method Prune(world: string, keep: nat, saves: bool) returns (r: Option<seq<Id>>)
      requires Valid()
      modifies this`files, this`index
      ensures Valid()
      ensures match Scan(env, old(index), old(files))
        case None => r.None? && files == old(files)
        case Some(s) =>
          var doomed := Ids(Doomed(Sort(s.found, env.listing), world, keep));
          r == Some(doomed) && files == Without(old(files), doomed)
      ensures index == Kept(env, old(index), old(files), saves)
    {
      hide Scan, Doomed, Without, Kept, Sort, OnDisk, ValidFiles;
      ghost var before, was := files, index;
      var listed := ScanFiles(saves);
      if listed.None? {
        return None;
      }
      var doomed := Ids(Doomed(listed.value, world, keep));
      DoomedAreOnDisk(env, was, before, world, keep);
      WithoutNothing(before);
      ghost var kept := index;
      for k := 0 to |doomed|
        invariant Valid() && files == Without(before, doomed[..k]) && index == kept
      {
        WithoutOneMore(before, doomed, k);
        var ok := Delete(doomed[k]);
        assert ok;
      }
      assert doomed[..|doomed|] == doomed;
      r := Some(doomed);
    }
  }

  // ------------------------------------------------------------------ pruning

  predicate OnDisk(files: seq<File>, id: Id) {
    exists k :: 0 <= k < |files| && files[k].id == id && files[k].present
  }

  function Without(files: seq<File>, ids: seq<Id>): (r: seq<File>)
    ensures forall f :: f in r <==> f in files && f.id !in ids
  {
    if files == [] then []
    else
      assert files == files[..|files| - 1] + [files[|files| - 1]];
      var front, f := Without(files[..|files| - 1], ids), files[|files| - 1];
      if f.id in ids then front else front + [f]
  }

  function Ids(backups: seq<Backup>): (r: seq<Id>)
    ensures |r| == |backups| && forall k | 0 <= k < |r| :: r[k] == backups[k].id
  {
    seq(|backups|, k requires 0 <= k < |backups| => backups[k].id)
  }

  function OfWorld(listed: seq<Backup>, world: string): (r: seq<Backup>)
    ensures forall b :: b in r <==> b in listed && IsOf(b, world)
  {
    if listed == [] then []
    else
      assert listed == listed[..|listed| - 1] + [listed[|listed| - 1]];
      var front, b := OfWorld(listed[..|listed| - 1], world), listed[|listed| - 1];
      if IsOf(b, world) then front + [b] else front
  }

  /** A snapshot in the world's own directory. */
  predicate IsOf(b: Backup, world: string) {
    b.id.tier.Snapshot? && b.id.path != [] && b.id.path[0] == world
  }

  predicate MomentLe(a: Moment, b: Moment) {
    a.year < b.year || (a.year == b.year &&
      (a.month < b.month || (a.month == b.month &&
        (a.day < b.day || (a.day == b.day &&
          (a.hour < b.hour || (a.hour == b.hour &&
            (a.minute < b.minute || (a.minute == b.minute && a.second <= b.second)))))))))
  }

  const BEGINNING := Moment(1, 1, 1, 0, 0, 0)

  function Age(b: Backup): Moment { if b.timestamp.Some? then b.timestamp.value else BEGINNING }

  predicate Older(a: Backup, b: Backup) { MomentLe(Age(a), Age(b)) }

  function Aged(listed: seq<Backup>, world: string): seq<Backup> { Sort(OfWorld(listed, world), Older) }

  function Excess(n: nat, keep: nat): nat { if n > keep then n - keep else 0 }

  function Doomed(listed: seq<Backup>, world: string, keep: nat): seq<Backup> {
    var snaps := Aged(listed, world);
    snaps[..Excess(|snaps|, keep)]
  }

  function Spared(listed: seq<Backup>, world: string, keep: nat): seq<Backup> {
    var snaps := Aged(listed, world);
    snaps[Excess(|snaps|, keep)..]
  }

  lemma OlderIsOrder()
    ensures IsOrder(Older)
  {
    assert forall a, b :: Older(a, b) || Older(b, a);
    assert forall a, b, c | Older(a, b) && Older(b, c) :: Older(a, c);
  }

  /** Pruning splits the world's snapshots in two; it spares as many as asked,
      or all, and no spared one is older than any that goes. */
  lemma PruneSparesNewest(listed: seq<Backup>, world: string, keep: nat)
    ensures multiset(Doomed(listed, world, keep)) + multiset(Spared(listed, world, keep))
            == multiset(OfWorld(listed, world))
    ensures |Spared(listed, world, keep)| == if |OfWorld(listed, world)| < keep then |OfWorld(listed, world)| else keep
    ensures forall d, s | d in Doomed(listed, world, keep) && s in Spared(listed, world, keep) :: Older(d, s)
  {
    hide MomentLe, OfWorld, Sort;
    var snaps, own := Aged(listed, world), OfWorld(listed, world);
    OlderIsOrder();
    SortIsOrdered(own, Older);
    SortKeepsElements(own, Older);
    hide IsOrder, Older, OrderedBy;
    CutIsOrdered(snaps, Excess(|snaps|, keep), Older);
  }

  /** A moment as the fourteen digits of a file name. */
  ghost function Digits(t: Moment): int {
    ((((t.year * 100 + t.month) * 100 + t.day) * 100 + t.hour) * 100 + t.minute) * 100 + t.second
  }

  lemma DigitsOrder(a: Moment, b: Moment)
    requires Exists(a) && Exists(b)
    ensures MomentLe(a, b) <==> Digits(a) <= Digits(b)
  {
    assert DaysIn(a.year, a.month) <= 31 && DaysIn(b.year, b.month) <= 31;
  }

  ghost predicate SnapshotOf(b: Backup, world: string) {
    b.id.tier == Snapshot && |b.id.path| >= 1 && b.id.path[0] == world
  }

  /** Whatever a prune dooms is a listed snapshot in the world's own directory; one of
      those that it spares has no earlier stamp, and one without a stamp counts as the
      oldest there can be. */
  lemma PruneStaysInItsWorld(listed: seq<Backup>, world: string, keep: nat, b: Backup)
    ensures b in listed && SnapshotOf(b, world) <==>
      b in Doomed(listed, world, keep) || b in Spared(listed, world, keep)
    ensures b in Doomed(listed, world, keep) && b.timestamp.Some? && Exists(b.timestamp.value) ==>
      forall s | s in Spared(listed, world, keep) && (s.timestamp.Some? ==> Exists(s.timestamp.value)) ::
        Digits(b.timestamp.value) <= if s.timestamp.Some? then Digits(s.timestamp.value) else 1_01_01_00_00_00
  {
    PruneSparesNewest(listed, world, keep);
    SplitHolds(Doomed(listed, world, keep), Spared(listed, world, keep), OfWorld(listed, world), b);
    assert b in OfWorld(listed, world) <==> b in listed && SnapshotOf(b, world);
    hide Doomed, Spared, OfWorld, MomentLe, Digits;
    if b in Doomed(listed, world, keep) && b.timestamp.Some? && Exists(b.timestamp.value) {
      forall s | s in Spared(listed, world, keep) && (s.timestamp.Some? ==> Exists(s.timestamp.value))
        ensures Digits(b.timestamp.value) <= if s.timestamp.Some? then Digits(s.timestamp.value) else 1_01_01_00_00_00
      {
        assert Older(b, s) && Digits(BEGINNING) == 1_01_01_00_00_00 && Exists(BEGINNING) by { BeginningIs(); }
        DigitsOrder(b.timestamp.value, Age(s));
      }
    }
  }

  lemma BeginningIs()
    ensures Exists(BEGINNING) && Digits(BEGINNING) == 1_01_01_00_00_00
  {
  }

  lemma SplitHolds<T>(a: seq<T>, b: seq<T>, all: seq<T>, x: T)
    requires multiset(a) + multiset(b) == multiset(all)
    ensures x in all <==> x in a || x in b
  {
    assert (x in a <==> multiset(a)[x] > 0) && (x in b <==> multiset(b)[x] > 0);
    assert x in all <==> multiset(all)[x] > 0;
  }

  lemma LastIsNew(files: seq<File>)
    requires ValidFiles(files) && files != []
    ensures var front, f := files[..|files| - 1], files[|files| - 1];
      && ValidFiles(front) && f in files && f.id.path != []
      && (forall g | g in front :: g in files && g.id != f.id)
      && forall g | g in files :: g in front || g == f
  {
    var front, f := files[..|files| - 1], files[|files| - 1];
    assert files == front + [f];
    forall g | g in front
      ensures g.id != f.id
    {
      var k :| 0 <= k < |front| && front[k] == g;
      assert files[k] == g;
    }
  }

  lemma AppendKeepsValid(files: seq<File>, f: File)
    requires ValidFiles(files) && ValidFiles([f]) && forall g | g in files :: g.id != f.id
    ensures ValidFiles(files + [f])
  {
    assert f in [f];
    assert forall i | 0 <= i < |files| :: files[i] in files;
  }

  lemma {:induction false} WithoutKeepsValid(files: seq<File>, ids: seq<Id>)
    requires ValidFiles(files)
    ensures ValidFiles(Without(files, ids))
  {
    if files != [] {
      var front, f := files[..|files| - 1], files[|files| - 1];
      LastIsNew(files);
      assert ValidFiles([f]);
      hide ValidFiles;
      WithoutKeepsValid(front, ids);
      if f.id !in ids { AppendKeepsValid(Without(front, ids), f); }
    }
  }

  lemma {:induction false} WithoutNothing(files: seq<File>)
    ensures Without(files, []) == files
  {
    if files != [] {
      WithoutNothing(files[..|files| - 1]);
      assert files == files[..|files| - 1] + [files[|files| - 1]];
    }
  }

  lemma {:induction false} WithoutBoth(files: seq<File>, a: seq<Id>, id: Id)
    ensures Without(Without(files, a), [id]) == Without(files, a + [id])
  {
    if files != [] {
      var front, f := files[..|files| - 1], files[|files| - 1];
      WithoutBoth(front, a, id);
      if f.id !in a {
        var left := Without(front, a);
        assert (left + [f])[..|left|] == left;
      }
    }
  }

  lemma WithoutOneMore(files: seq<File>, ids: seq<Id>, k: nat)
    requires k < |ids| && !ids[k].tier.Archive? && OnDisk(files, ids[k])
    requires forall i, j | 0 <= i < j < |ids| :: ids[i] != ids[j]
    ensures Without(Without(files, ids[..k]), [ids[k]]) == Without(files, ids[..k + 1])
    ensures OnDisk(Without(files, ids[..k]), ids[k])
  {
    assert ids[..k] + [ids[k]] == ids[..k + 1];
    assert ids[k] !in ids[..k];
    hide *;
    WithoutBoth(files, ids[..k], ids[k]);
    StaysOnDisk(files, ids[..k], ids[k]);
  }

  lemma StaysOnDisk(files: seq<File>, ids: seq<Id>, id: Id)
    requires OnDisk(files, id) && id !in ids
    ensures OnDisk(Without(files, ids), id)
  {
    var i :| 0 <= i < |files| && files[i].id == id && files[i].present;
    assert files[i] in Without(files, ids);
  }

  // ------------------------------------------------------- what a scan returns

  /** The backups a scan finds when nothing is remembered. */
  function Clean(env: Env, files: seq<File>): seq<Backup>
    requires ValidFiles(files)
  {
    if files == [] then []
    else
      var front, f := files[..|files| - 1], files[|files| - 1];
      var found := Clean(env, front);
      if f.present && Inspected(env, f).worldDir.Some? then found + [Made(env, f, Inspected(env, f))] else found
  }

  lemma ScanNothing(env: Env, index: Index)
    ensures Scan(env, index, []) == Some(Scanned(index, []))
  {
  }

  lemma SweptNothing(index: Index, files: seq<File>)
    requires Swept(index, files).Keys == index.Keys
    ensures Swept(index, files) == index
  {
  }

  lemma HitIsKept(env: Env, index: Index, f: File)
    requires Hit(index, f)
    ensures Noted(env, index, f) == index
  {
  }

  lemma {:induction false} ScanFailsEarly(env: Env, index: Index, files: seq<File>, k: nat)
    requires ValidFiles(files) && k <= |files| && ValidFiles(files[..k]) && Scan(env, index, files[..k]).None?
    ensures Scan(env, index, files).None?
    decreases |files|
  {
    if k == |files| {
      assert files[..k] == files;
    } else {
      var front := files[..|files| - 1];
      assert front[..k] == files[..k];
      assert forall f | f in front :: f in files;
      ScanFailsEarly(env, index, front, k);
    }
  }

  // ------------------------------------------------- each file is listed once

  ghost predicate Distinct(s: seq<Backup>) {
    forall i, j | 0 <= i < j < |s| :: s[i].id != s[j].id
  }

  /** What is found is on disk, and no file is found twice. */
  lemma {:induction false} FoundAreOnDisk(env: Env, index: Index, files: seq<File>)
    requires ValidFiles(files) && Scan(env, index, files).Some?
    ensures var found := Scan(env, index, files).value.found;
      Distinct(found) && forall b | b in found :: OnDisk(files, b.id)
  {
    hide Detected, Noted, Made, Inspected;
    if files != [] {
      var front, f := files[..|files| - 1], files[|files| - 1];
      assert forall g | g in front :: g in files;
      FoundAreOnDisk(env, index, front);
      forall id | OnDisk(front, id)
        ensures OnDisk(files, id) && id != f.id
      {
        var k :| 0 <= k < |front| && front[k].id == id && front[k].present;
        assert files[k] == front[k];
      }
      assert f.present ==> OnDisk(files, f.id);
      var found := Scan(env, index, front).value.found;
      assert forall k | 0 <= k < |found| :: found[k] in found;
    }
  }

  lemma {:induction false} DistinctCount(s: seq<Backup>, b: Backup)
    requires Distinct(s)
    ensures multiset(s)[b] <= 1
  {
    if s != [] {
      var front, last := s[..|s| - 1], s[|s| - 1];
      assert s == front + [last];
      DistinctCount(front, b);
      if b == last {
        assert forall k | 0 <= k < |front| :: front[k] == s[k];
        assert b !in front;
      }
    }
  }

  lemma PermutationKeepsDistinct(a: seq<Backup>, b: seq<Backup>)
    requires Distinct(a) && multiset(a) == multiset(b)
    ensures Distinct(b)
  {
    forall i, j | 0 <= i < j < |b|
      ensures b[i].id != b[j].id
    {
      assert b[i] in multiset(b) && b[j] in multiset(b);
      if b[i] == b[j] {
        TwiceCounted(b, i, j);
        DistinctCount(a, b[i]);
      } else {
        var k :| 0 <= k < |a| && a[k] == b[i];
        var m :| 0 <= m < |a| && a[m] == b[j];
      }
    }
  }

  lemma TwiceCounted(s: seq<Backup>, i: nat, j: nat)
    requires i < j < |s| && s[i] == s[j]
    ensures multiset(s)[s[i]] >= 2
  {
    assert s == s[..j] + s[j..];
    assert s[..j][i] == s[i] && s[j..][0] == s[i];
  }

  lemma {:induction false} OfWorldKeepsDistinct(listed: seq<Backup>, world: string)
    requires Distinct(listed)
    ensures Distinct(OfWorld(listed, world))
  {
    if listed != [] {
      var front, last := listed[..|listed| - 1], listed[|listed| - 1];
      OfWorldKeepsDistinct(front, world);
      var kept := OfWorld(front, world);
      forall k | 0 <= k < |kept|
        ensures kept[k].id != last.id
      {
        assert kept[k] in kept;
        var i :| 0 <= i < |front| && front[i] == kept[k];
        assert listed[i] == kept[k];
      }
    }
  }

  lemma AgedAre(listed: seq<Backup>, world: string)
    requires Distinct(listed)
    ensures Distinct(Aged(listed, world))
    ensures forall b :: b in Aged(listed, world) <==> b in listed && IsOf(b, world)
  {
    OfWorldKeepsDistinct(listed, world);
    SortKeepsElements(OfWorld(listed, world), Older);
    PermutationKeepsDistinct(OfWorld(listed, world), Aged(listed, world));
  }

  lemma DoomedAreOnDisk(env: Env, index: Index, files: seq<File>, world: string, keep: nat)
    requires ValidFiles(files) && Scan(env, index, files).Some?
    ensures var doomed := Ids(Doomed(Sort(Scan(env, index, files).value.found, env.listing), world, keep));
      && (forall i, j | 0 <= i < j < |doomed| :: doomed[i] != doomed[j])
      && forall i | 0 <= i < |doomed| :: doomed[i].tier.Snapshot? && OnDisk(files, doomed[i])
  {
    var found := Scan(env, index, files).value.found;
    var listed := Sort(found, env.listing);
    FoundAreOnDisk(env, index, files);
    SortKeepsElements(found, env.listing);
    PermutationKeepsDistinct(found, listed);
    AgedAre(listed, world);
    var aged, doomed := Aged(listed, world), Doomed(listed, world, keep);
    forall i | 0 <= i < |doomed|
      ensures doomed[i].id.tier.Snapshot? && OnDisk(files, doomed[i].id)
    {
      assert doomed[i] == aged[i] && aged[i] in aged;
    }
  }

  /** A prune removes from what a scan finds exactly the doomed snapshots. */
  lemma PruneTouchesNothingElse(env: Env, files: seq<File>, listed: seq<Backup>, world: string, keep: nat, b: Backup)
    requires ValidFiles(files) && multiset(listed) == multiset(Clean(env, files))
    ensures var files' := Without(files, Ids(Doomed(listed, world, keep)));
      ValidFiles(files') &&
      (b in Clean(env, files') <==> b in Clean(env, files) && b !in Doomed(listed, world, keep))
  {
    var doomed := Doomed(listed, world, keep);
    var files' := Without(files, Ids(doomed));
    WithoutKeepsValid(files, Ids(doomed));
    CleanAre(env, files, b);
    CleanAre(env, files', b);
    if b in Clean(env, files) && b.id in Ids(doomed) {
      DoomedById(env, files, listed, world, keep, b);
    }
    if b in doomed {
      var k :| 0 <= k < |doomed| && doomed[k] == b;
      assert Ids(doomed)[k] == b.id;
    }
    hide Doomed, Clean, Made, Inspected, ValidFiles;
  }

  /** A backup whose id is doomed is the doomed one. */
  lemma DoomedById(env: Env, files: seq<File>, listed: seq<Backup>, world: string, keep: nat, b: Backup)
    requires ValidFiles(files) && multiset(listed) == multiset(Clean(env, files))
    requires b in Clean(env, files) && b.id in Ids(Doomed(listed, world, keep))
    ensures b in Doomed(listed, world, keep)
  {
    var doomed := Doomed(listed, world, keep);
    var k :| 0 <= k < |doomed| && Ids(doomed)[k] == b.id;
    assert doomed[k] == Aged(listed, world)[k] && doomed[k] in Aged(listed, world);
    SortKeepsElements(OfWorld(listed, world), Older);
    assert doomed[k] in listed && doomed[k] in multiset(Clean(env, files));
    hide Aged, Doomed, Sort, OfWorld, Clean, Made, Inspected;
    CleanAre(env, files, doomed[k]);
    CleanAre(env, files, b);
    SameIdSameBackup(env, files, b, doomed[k]);
  }

  lemma SameIdSameBackup(env: Env, files: seq<File>, a: Backup, b: Backup)
    requires ValidFiles(files) && a.id == b.id
    requires (exists f :: f in files && Shows(env, f, a)) && exists f :: f in files && Shows(env, f, b)
    ensures a == b
  {
    hide Inspected;
    var f :| f in files && Shows(env, f, a);
    var g :| g in files && Shows(env, g, b);
    var i :| 0 <= i < |files| && files[i] == f;
    var j :| 0 <= j < |files| && files[j] == g;
  }

  ghost predicate Shows(env: Env, f: File, b: Backup)
    requires f.id.path != []
  {
    f.present && Inspected(env, f).worldDir.Some? && b == Made(env, f, Inspected(env, f))
  }

  lemma {:induction false} CleanAre(env: Env, files: seq<File>, b: Backup)
    requires ValidFiles(files)
    ensures b in Clean(env, files) <==> exists f :: f in files && Shows(env, f, b)
  {
    hide Made, Inspected;
    if files != [] {
      var front, last := files[..|files| - 1], files[|files| - 1];
      assert files == front + [last];
      CleanAre(env, front, b);
      assert last in files && forall f | f in front :: f in files;
    }
  }

  /** The n-th name tried for a copy of this snapshot in the promoted tier. */
  ghost predicate IsPromoted(env: Env, f: File, world: string, t: Moment, n: nat)
    requires Exists(t)
  {
    f.id == Id(Promoted, [PromotedName(t, world, n)]) && (env.side(f.id) == "" || env.side(f.id) == world)
  }

  lemma SnapshotIsMade(env: Env, f: File, d: Detection, world: string, t: Moment)
    requires Exists(t) && IsLabel(world) && f.id == Id(Snapshot, [world, Compact(t) + ".zip"])
    ensures Made(env, f, d) == Backup(f.id, world, Some(t), f.size, d)
  {
    SnapshotNameRoundTrip(t, world, env.clock(f.mtime));
    hide ParseBackupName, Compact, Exists, IsLabel;
  }

  lemma PromotedIsMade(env: Env, f: File, d: Detection, world: string, t: Moment, n: nat)
    requires Exists(t) && IsLabel(world) && IsPromoted(env, f, world, t, n)
    ensures Made(env, f, d) == Backup(f.id, world, Some(t), f.size, d)
  {
    PromotedNameRoundTrip(t, world, n, "", env.clock(f.mtime));
    hide ParseBackupName, PromotedName, Exists, IsLabel;
  }

  /** A snapshot is found under the world in whose directory it is and the second of its
      name, and promoting it changes neither, whatever counter the copy needs. */
  lemma PromotionKeepsWorldAndTime(env: Env, files: seq<File>, f: File, world: string, t: Moment, n: nat)
    requires ValidFiles(files) && f in files && f.present && Inspected(env, f).worldDir.Some?
    requires Exists(t) && IsLabel(world)
    requires f.id == Id(Snapshot, [world, Compact(t) + ".zip"]) || IsPromoted(env, f, world, t, n)
    ensures Backup(f.id, world, Some(t), f.size, Inspected(env, f)) in Clean(env, files)
  {
    var d := Inspected(env, f);
    if f.id.tier.Snapshot? {
      SnapshotIsMade(env, f, d, world, t);
    } else {
      PromotedIsMade(env, f, d, world, t, n);
    }
    hide Made, Clean, ValidFiles, IsPromoted, Exists, IsLabel, Compact;
    CleanAre(env, files, Backup(f.id, world, Some(t), f.size, d));
  }

  // ------------------------------------------------- the cache can be trusted

  /** Earlier uses of the index: a scan of the files of the time, or a look at
      one file; `saves` says whether the index could be saved. */
  datatype Visit = Scans(files: seq<File>, saves: bool) | Looks(file: File, saves: bool)

  ghost predicate ValidVisit(v: Visit) { v.Scans? ==> ValidFiles(v.files) }

  function FilesOf(v: Visit): seq<File> {
    match v
    case Scans(files, _) => files
    case Looks(f, _) => [f]
  }

  function Visited(env: Env, index: Index, v: Visit): Index
    requires ValidVisit(v)
  {
    match v
    case Scans(files, saves) => Kept(env, index, files, saves)
    case Looks(f, saves) => if saves && f.present && Detected(env, index, f).Some? then Noted(env, index, f) else index
  }

  ghost function After(env: Env, index: Index, visits: seq<Visit>): Index
    requires forall v | v in visits :: ValidVisit(v)
  {
    if visits == [] then index
    else
      assert visits[|visits| - 1] in visits;
      Visited(env, After(env, index, visits[..|visits| - 1]), visits[|visits| - 1])
  }

  /** Same size and time, same content; whether it can be read may change. */
  ghost predicate Agree(f: File, g: File) {
    f.id == g.id && f.size == g.size && f.mtime == g.mtime ==> f.content == g.content
  }

  ghost predicate Met(visits: seq<Visit>, f: File) {
    f.present && exists i :: 0 <= i < |visits| && f in FilesOf(visits[i])
  }

  ghost predicate Stable(visits: seq<Visit>) {
    forall f, g | Met(visits, f) && Met(visits, g) :: Agree(f, g)
  }

  /** Nor does it change whether a file can be read. */
  ghost predicate ReadsAlike(visits: seq<Visit>) {
    forall f, g | Met(visits, f) && Met(visits, g) && f.id == g.id && f.size == g.size && f.mtime == g.mtime ::
      f.readable == g.readable
  }

  /** The entry is what was found in `f`. */
  ghost predicate Records(env: Env, e: Entry, id: Id, f: File) {
    e.Entry? && f.id == id && e.size == f.size && e.mtime == f.mtime && e.detection == ToJson(Inspected(env, f))
  }

  ghost predicate Truthful(env: Env, index: Index, visits: seq<Visit>) {
    forall id | id in index && Current(index[id]) :: exists f :: Met(visits, f) && Records(env, index[id], id, f)
  }

  predicate HoldsWorld(env: Env, f: File) {
    var d := env.inspect(f.content);
    d.Some? && d.value.worldDir.Some?
  }

  /** If the file holds a world, the entry that answers for it stands for a failed
      read exactly if the file cannot be read now. */
  predicate UpToDate(env: Env, index: Index, f: File) {
    HoldsWorld(env, f) && Hit(index, f) ==> (f.readable <==> index[f.id].detection != ToJson(NOTHING))
  }

  function Entered(env: Env, f: File, d: Detection): seq<Backup>
    requires f.id.path != []
  {
    if d.worldDir.Some? then [Made(env, f, d)] else []
  }

  lemma JsonIsDistinct(a: Detection, b: Detection)
    ensures ToJson(a) == ToJson(b) ==> a == b
  {
    DetectionRoundTrip(a);
    DetectionRoundTrip(b);
  }

  /** What is remembered of a file shows the same backup as the file itself if and
      only if it is up to date. */
  lemma RecallIff(env: Env, index: Index, visits: seq<Visit>, f: File)
    requires Truthful(env, index, visits) && Stable(visits) && Met(visits, f) && f.id.path != []
    ensures Detected(env, index, f).Some? && Truthful(env, Noted(env, index, f), visits)
    ensures var remembered := Detected(env, index, f).value;
      Entered(env, f, remembered) == Entered(env, f, Inspected(env, f)) <==> UpToDate(env, index, f)
    ensures ReadsAlike(visits) ==> UpToDate(env, index, f)
  {
    hide ToJson, FromJson, Met;
    if Hit(index, f) {
      var g :| Met(visits, g) && Records(env, index[f.id], f.id, g);
      assert Agree(f, g);
      DetectionRoundTrip(Inspected(env, g));
      JsonIsDistinct(Inspected(env, g), NOTHING);
      DetectionIsEntered(env, f, Inspected(env, g));
    } else {
      var noted := Noted(env, index, f);
      assert Records(env, noted[f.id], f.id, f);
    }
  }

  lemma DetectionIsEntered(env: Env, f: File, d: Detection)
    requires f.id.path != []
    ensures d.worldDir.Some? ==> Entered(env, f, d)[0].detection == d
  {
  }

  /** A file does not bear on what is remembered of the others. */
  lemma {:induction false} ScanLeavesOthers(env: Env, index: Index, files: seq<File>, id: Id)
    requires ValidFiles(files) && Scan(env, index, files).Some? && forall f | f in files :: f.id != id
    ensures var ix := Scan(env, index, files).value.index;
      (id in ix <==> id in index) && (id in index ==> ix[id] == index[id])
  {
    hide Detected, Inspected, Made, ToJson, Hit;
    if files != [] {
      var front := files[..|files| - 1];
      assert forall f | f in front :: f in files;
      ScanLeavesOthers(env, index, front, id);
    }
  }

  /** What a scan finds among some files lies among those files. */
  lemma FoundElsewhere(env: Env, index: Index, files: seq<File>, id: Id)
    requires ValidFiles(files) && Scan(env, index, files).Some? && forall f | f in files :: f.id != id
    ensures forall b | b in Scan(env, index, files).value.found :: b.id != id
    ensures forall b | b in Clean(env, files) :: b.id != id
  {
    FoundAreOnDisk(env, index, files);
    forall b | b in Clean(env, files)
      ensures b.id != id
    {
      CleanAre(env, files, b);
    }
  }

  /** A last entry that is new on either side can be compared by itself. */
  lemma LastEntryCompared(a: seq<Backup>, x: seq<Backup>, b: seq<Backup>, y: seq<Backup>, id: Id)
    requires |x| <= 1 && |y| <= 1 && (forall e | e in x :: e.id == id) && forall e | e in y :: e.id == id
    requires (forall e | e in a :: e.id != id) && forall e | e in b :: e.id != id
    ensures a + x == b + y <==> a == b && x == y
  {
    LastId(a, x, id);
    LastId(b, y, id);
    if a + x == b + y {
      assert |x| == |y|;
      assert (a + x)[..|a|] == a && (b + y)[..|b|] == b;
      assert (a + x)[|a|..] == x && (b + y)[|b|..] == y;
    }
  }

  lemma LastId(a: seq<Backup>, x: seq<Backup>, id: Id)
    requires |x| <= 1 && (forall e | e in x :: e.id == id) && forall e | e in a :: e.id != id
    ensures a + x != [] ==> ((a + x)[|a + x| - 1].id == id <==> x != [])
  {
    if x != [] {
      assert (a + x)[|a + x| - 1] == x[0];
    } else if a != [] {
      assert (a + x)[|a + x| - 1] == a[|a| - 1];
    }
  }

  lemma CleanStep(env: Env, files: seq<File>)
    requires ValidFiles(files) && files != []
    ensures var front, f := files[..|files| - 1], files[|files| - 1];
      ValidFiles(front) && f.id.path != [] &&
      Clean(env, files) == Clean(env, front) + (if f.present then Entered(env, f, Inspected(env, f)) else [])
  {
    LastIsNew(files);
  }

  lemma ScanStep(env: Env, index: Index, files: seq<File>)
    requires ValidFiles(files) && files != [] && ValidFiles(files[..|files| - 1]) && files[|files| - 1].id.path != []
    requires Scan(env, index, files[..|files| - 1]).Some?
    ensures var before, f := Scan(env, index, files[..|files| - 1]).value, files[|files| - 1];
      Scan(env, index, files) ==
        if !f.present then Some(before)
        else
          var d := Detected(env, before.index, f);
          if d.None? then None else Some(Scanned(Noted(env, before.index, f), before.found + Entered(env, f, d.value)))
  {
    hide Detected, Noted, Made;
    var before := Scan(env, index, files[..|files| - 1]).value;
    assert before.found + [] == before.found;
  }

  /** A scan over a remembered index finds what one that remembers nothing finds
      if and only if every file's entry is up to date. */
  lemma {:induction false} ScanIff(env: Env, index: Index, visits: seq<Visit>, files: seq<File>)
    requires ValidFiles(files) && Truthful(env, index, visits) && Stable(visits)
    requires forall f | f in files && f.present :: Met(visits, f)
    ensures var s := Scan(env, index, files);
      && s.Some? && Truthful(env, s.value.index, visits)
      && (s.value.found == Clean(env, files) <==> forall f | f in files && f.present :: UpToDate(env, index, f))
    ensures ReadsAlike(visits) ==> forall f | f in files && f.present :: UpToDate(env, index, f)
  {
    hide Truthful, Stable, ReadsAlike, Met, Detected, Noted, Inspected, Entered;
    if files != [] {
      var front, f := files[..|files| - 1], files[|files| - 1];
      LastIsNew(files);
      ScanIff(env, index, visits, front);
      CleanStep(env, files);
      ScanStep(env, index, files);
      hide Scan, Clean;
      if f.present {
        var before := Scan(env, index, front).value;
        ScanLeavesOthers(env, index, front, f.id);
        SameEntry(env, before.index, index, f);
        RecallIff(env, before.index, visits, f);
        FoundElsewhere(env, index, front, f.id);
        EnteredOnce(env, f, Detected(env, before.index, f).value);
        EnteredOnce(env, f, Inspected(env, f));
        LastEntryCompared(before.found, Entered(env, f, Detected(env, before.index, f).value),
          Clean(env, front), Entered(env, f, Inspected(env, f)), f.id);
        hide UpToDate;
      } else {
        assert Clean(env, front) + [] == Clean(env, front);
      }
    }
  }

  lemma EnteredOnce(env: Env, f: File, d: Detection)
    requires f.id.path != []
    ensures |Entered(env, f, d)| <= 1 && forall b | b in Entered(env, f, d) :: b.id == f.id
  {
  }

  lemma SameEntry(env: Env, a: Index, b: Index, f: File)
    requires (f.id in a <==> f.id in b) && (f.id in b ==> a[f.id] == b[f.id])
    ensures UpToDate(env, a, f) == UpToDate(env, b, f)
  {
  }

  lemma {:induction false} ReachableIsTruthful(env: Env, start: Index, visits: seq<Visit>, all: seq<Visit>)
    requires forall v | v in visits :: ValidVisit(v)
    requires forall id | id in start :: !Current(start[id])
    requires visits <= all && Stable(all)
    ensures Truthful(env, After(env, start, visits), all)
  {
    if visits != [] {
      var n := |visits| - 1;
      var v := visits[n];
      assert v in visits && v == all[n];
      ReachableIsTruthful(env, start, visits[..n], all);
      var index := After(env, start, visits[..n]);
      VisitIsTruthful(env, index, v, all, n);
    }
  }

  lemma VisitIsTruthful(env: Env, index: Index, v: Visit, all: seq<Visit>, n: nat)
    requires n < |all| && v == all[n] && ValidVisit(v) && Stable(all) && Truthful(env, index, all)
    ensures Truthful(env, Visited(env, index, v), all)
  {
    hide Stable, Detected, Noted, Scan;
    assert forall f | f in FilesOf(v) && f.present :: Met(all, f);
    match v
    case Scans(files, saves) => ScanIff(env, index, all, files);
    case Looks(f, saves) =>
      if f.present {
        assert f in FilesOf(v);
        NotedIsTruthful(env, index, all, f);
      }
  }

  lemma NotedIsTruthful(env: Env, index: Index, visits: seq<Visit>, f: File)
    requires Truthful(env, index, visits) && Met(visits, f)
    ensures Truthful(env, Noted(env, index, f), visits)
  {
    hide ToJson, Met;
    if !Hit(index, f) {
      var noted := Noted(env, index, f);
      assert Records(env, noted[f.id], f.id, f);
    }
  }

  /** Whatever has been remembered, by whatever history of scans, looks and saves
      that failed: if the size and time of a file determine its content, a scan
      finds the same backups as one that remembers nothing if and only if every
      file's entry is up to date; it is if reads do not now fail and now succeed. */
  lemma CacheIsTransparentIff(env: Env, start: Index, visits: seq<Visit>, files: seq<File>, saves: bool)
    requires ValidFiles(files) && forall v | v in visits :: ValidVisit(v)
    requires forall id | id in start :: !Current(start[id])
    requires Stable(visits + [Scans(files, saves)])
    ensures var index := After(env, start, visits);
      var s, anew := Scan(env, index, files), Scan(env, map[], files);
      && s.Some? && anew.Some?
      && (s.value.found == anew.value.found <==> forall f | f in files && f.present :: UpToDate(env, index, f))
      && (ReadsAlike(visits + [Scans(files, saves)]) ==> s.value.found == anew.value.found)
  {
    var all := visits + [Scans(files, saves)];
    ReachableIsTruthful(env, start, visits, all);
    assert all[|visits|] == Scans(files, saves) && forall f | f in files :: f in FilesOf(all[|visits|]);
    hide Scan, Stable, After, ReadsAlike;
    ScanIff(env, After(env, start, visits), all, files);
    ScanIff(env, map[], all, files);
    assert forall f | f in files :: UpToDate(env, map[], f);
  }

  /** The smallest such history: one read of a file, then another.  A scan after
      the second finds what the file now shows if and only if both reads failed or
      both did not, or there is no world in it. */
  lemma SecondReadIsSeenIff(env: Env, f: File, before: bool)
    requires ValidFiles([f]) && f.present
    ensures FoundIn(env, Noted(env, map[], f.(readable := before)), f) == FoundIn(env, map[], f)
      <==> before == f.readable || !HoldsWorld(env, f)
  {
    hide ToJson, FromJson, Made;
    var d := Inspected(env, f.(readable := before));
    DetectionRoundTrip(d);
    ScanOfOne(env, map[], f);
    ScanOfOne(env, Noted(env, map[], f.(readable := before)), f);
  }

  /** What a scan finds where there is one file. */
  function FoundIn(env: Env, index: Index, f: File): Option<seq<Backup>>
    requires ValidFiles([f])
  {
    var s := Scan(env, index, [f]);
    if s.None? then None else Some(s.value.found)
  }

  lemma ScanOfOne(env: Env, index: Index, f: File)
    requires ValidFiles([f]) && f.present
    ensures var d := Detected(env, index, f);
      FoundIn(env, index, f) == if d.None? then None
        else Some(if d.value.worldDir.Some? then [Made(env, f, d.value)] else [])
  {
    hide Detected, Noted, Made;
    assert [f][..0] == [] && [f][0] == f;
    assert Scan(env, index, [f][..0]) == Some(Scanned(index, []));
    var d := Detected(env, index, f);
    if d.Some? { assert [] + [Made(env, f, d.value)] == [Made(env, f, d.value)]; }
  }

  /** A scan leaves an entry for every file that was there, and none for a file
      that is no longer listed. */
  lemma {:induction false} ScanNotesEveryFile(env: Env, index: Index, files: seq<File>)
    requires ValidFiles(files) && Scan(env, index, files).Some?
    ensures var ix := Scan(env, index, files).value.index;
      forall f | f in files && f.present :: Hit(ix, f)
  {
    if files != [] {
      var front, last := files[..|files| - 1], files[|files| - 1];
      LastIsNew(files);
      hide Detected, Noted, Made, ValidFiles, Hit;
      ScanNotesEveryFile(env, index, front);
      ScanStep(env, index, files);
      hide Scan;
      var ix := Scan(env, index, front).value.index;
      forall f | f in files && f.present
        ensures Hit(Scan(env, index, files).value.index, f)
      {
        NotedHits(env, ix, last, f);
      }
    }
  }

  /** A noted file hits, and so does any other that did. */
  lemma NotedHits(env: Env, index: Index, noted: File, f: File)
    ensures Hit(Noted(env, index, noted), noted)
    ensures f.id != noted.id && Hit(index, f) ==> Hit(Noted(env, index, noted), f)
  {
    hide Inspected;
  }

  /** The entry was made by this version of the inspection, for the file as it is. */
  ghost predicate IsUpToDate(e: Entry, f: File) {
    e.Entry? && e.version == 2 && e.size == f.size && e.mtime == f.mtime
  }

  /** Any other entry is passed over: the file is inspected again and remembered anew. */
  lemma OldEntryIsReplaced(env: Env, index: Index, f: File)
    ensures f.id in index && !IsUpToDate(index[f.id], f) ==> Detected(env, index, f) == Some(Inspected(env, f))
    ensures var noted := Noted(env, index, f); f.id in noted && IsUpToDate(noted[f.id], f)
  {
    hide Inspected, ToJson, FromJson;
  }

  lemma SavedIndexIsExact(env: Env, index: Index, files: seq<File>)
    requires ValidFiles(files) && Scan(env, index, files).Some?
    ensures var kept := Kept(env, index, files, true);
      && (forall f | f in files && f.present :: f.id in kept && IsUpToDate(kept[f.id], f))
      && forall id | id in kept :: Listed(files, id)
  {
    hide Scan;
    ScanNotesEveryFile(env, index, files);
    var ix, kept := Scan(env, index, files).value.index, Kept(env, index, files, true);
    assert kept == Swept(ix, files);
    forall f | f in files && f.present
      ensures f.id in kept && IsUpToDate(kept[f.id], f)
    {
      var k :| 0 <= k < |files| && files[k] == f;
      assert Hit(ix, f) && Listed(files, f.id);
      assert kept[f.id] == ix[f.id];
    }
  }
}
