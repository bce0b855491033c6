/** Which files a seed leaves, and which a snapshot takes, name by name. */
module SeedContents {
  import opened Collections
  import opened Wrappers
  import opened Naming
  import opened SeedJob
  import opened Snapshots
  import opened SeedPlaces

  /** The files that a seed leaves, besides its own marker: the regular members of the
      world, and of the rest, in full mode, those whose first name is not one that is
      made again, and in the other mode the lists of players alone. */
  lemma SeededFilesAre(zip: seq<Member>, prefix: string, worldDir: string, full: bool, p: Path)
    requires TidyZip(zip, prefix, worldDir)
    ensures p in Extracted(zip, prefix, worldDir, full) <==>
      exists m :: m in zip &&
        (FromWorld(m, worldDir, p) || (FromRoot(m, prefix, worldDir, p) && Taken(p, full)))
  {
    ExtractedAre(zip, prefix, worldDir, full, p);
    forall m | m in zip
      ensures Puts(m, prefix, worldDir, full, p) <==>
        FromWorld(m, worldDir, p) || (FromRoot(m, prefix, worldDir, p) && Taken(p, full))
    {
      assert TidyMember(m, prefix, worldDir);
      if worldDir <= m.name {
        WorldPlaced(m, prefix, worldDir, full, p);
      } else {
        RootPlaced(m, prefix, worldDir, full, p);
        WorldNamed(m, worldDir, p);
      }
    }
    hide Puts, FromWorld, FromRoot, Extracted, Taken;
  }

  /** So nothing that is made again survives a full seed of such a zip. */
  lemma FullSeedLeavesNothingMadeAgain(zip: seq<Member>, prefix: string, worldDir: string, p: Path)
    requires TidyZip(zip, prefix, worldDir) && p in Extracted(zip, prefix, worldDir, true)
    ensures p != [] && p[0] !in {"libraries", "versions", "logs", ".cache", "?", ".mcdash-seed.json"}
    ensures |p[0]| < 4 || p[0][|p[0]| - 4..] != ".tmp"
    ensures forall tool | tool in {".forge", ".fabric", ".neoforge", ".install"} && |p[0]| > |tool| && tool <= p[0] ::
      p[0][|tool|] != '-' && p[0][|tool|] != '_' && p[0][|tool|] != '.'
  {
    SeededFilesAre(zip, prefix, worldDir, true, p);
    WorldStays();
    hide Extracted, FromWorld, FromRoot, TidyZip;
    assert p != [] && !MadeAgain(p[0]) by {
      var m :| m in zip && (FromWorld(m, worldDir, p) || (FromRoot(m, prefix, worldDir, p) && Taken(p, true)));
      PlacedPath(m, prefix, worldDir, p);
    }
  }

  /** Without the server's own files: the world and the lists of players. */
  lemma VanillaSeedLeavesWorldAndLists(zip: seq<Member>, prefix: string, worldDir: string, p: Path)
    requires TidyZip(zip, prefix, worldDir) && p in Extracted(zip, prefix, worldDir, false)
    ensures (|p| > 1 && p[0] == "world") || (|p| == 1 && IsForPlayers(p[0]))
  {
    SeededFilesAre(zip, prefix, worldDir, false, p);
    hide Extracted, FromRoot, TidyZip, IsForPlayers;
  }

  /** A snapshot has a member for exactly the regular files whose first name is not one
      that is made again. */
  lemma SnapshotTakes(root: Listing, p: Path)
    requires ValidListing(root) && PlainNames(p)
    ensures (exists m :: m in Zip(root) && !m.isDir && m.name == Join(p)) <==>
      Lookup(root, p).Some? && !MadeAgain(p[0])
    ensures Lookup(root, p).Some? && !MadeAgain(p[0]) ==> FileMember(p, Lookup(root, p).value) in Zip(root)
  {
    ExcludedIff(p[0]);
    hide Excluded, MadeAgain, Join, PlainNames;
    if m :| m in Zip(root) && !m.isDir && m.name == Join(p) {
      TreeSaysTrue(m, [], root);
      var q :| IsFileAt(m, [], root, q);
      assert [] + q == q;
      LookupNames(root, q);
      JoinInjective(p, q);
    }
    if Lookup(root, p).Some? && !MadeAgain(p[0]) {
      NamesExist(p);
      TreeIsComplete([], root, p);
      assert [] + p == p;
    }
  }

  /** A full seed of any zip leaves nothing under a name that is made again exactly if no
      member slips through; and only names that begin untidily can. */
  lemma NothingMadeAgainIff(zip: seq<Member>, prefix: string, worldDir: string)
    ensures (forall p | p in Extracted(zip, prefix, worldDir, true) :: p != [] && !MadeAgain(p[0])) <==>
      forall m, p :: m in zip ==> !SlipsThrough(m, prefix, worldDir, p)
  {
    forall p
      ensures p in Extracted(zip, prefix, worldDir, true) <==>
        exists m :: m in zip && Puts(m, prefix, worldDir, true, p)
    {
      ExtractedAre(zip, prefix, worldDir, true, p);
    }
    forall m, p | Puts(m, prefix, worldDir, true, p)
      ensures p != [] && (MadeAgain(p[0]) ==> SlipsThrough(m, prefix, worldDir, p))
    {
      MadeAgainSlips(m, prefix, worldDir, p);
    }
    hide Extracted, Puts, MadeAgain;
  }

  /** And one can: from this zip a full seed brings the loader's files, without the rest
      of what the loader installs. */
  lemma DottedNameSlipsThrough(level: Content, jar: Content)
    ensures var zip := [
        Member("world/level.dat", false, false, level), Member("./libraries/x.jar", false, false, jar)];
      && Located(Names(zip)) == Some(("", "world/"))
      && ["libraries", "x.jar"] in Extracted(zip, "", "world/", true) && MadeAgain("libraries")
  {
    var p := ["libraries", "x.jar"];
    var zip := [Member("world/level.dat", false, false, level), Member("./libraries/x.jar", false, false, jar)];
    LibrariesArePlain();
    hide *;
    assert zip[1].name == "./" + Join(p);
    SlipsIn(zip, zip[0], zip[1], p);
  }
}
