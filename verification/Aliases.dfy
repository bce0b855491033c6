/** Commands that are completed like others. */
module Aliases {
  import opened Wrappers
  import opened CommandTree
  import opened Completion
  import opened Redirects
  import opened RedirectPaths

  /** Behind two commands that the same may follow, the further words reach the same
      places, and the same candidates and hints are offered. */
  lemma AlikeCommandsCompleteAlike(
      t: Tree, values: Id -> seq<string>, a: seq<string>, atA: seq<Id>, b: seq<string>, atB: seq<Id>,
      ws: seq<string>, partial: string)
    requires ValidTree(t) && Alike(t, a, atA, b, atB)
    ensures forall n, k | k > 0 :: ReachedBehind(t, a, ws, n, k) <==> ReachedBehind(t, b, ws, n, k)
    ensures forall r :: Offered(t, values, a + ws, partial, r) <==> Offered(t, values, b + ws, partial, r)
    ensures forall h :: Hinted(t, a + ws, h) <==> Hinted(t, b + ws, h)
  {
    AlikeBack(t, a, atA, b, atB);
    forall n: Id, k: nat | k > 0
      ensures ReachedBehind(t, a, ws, n, k) <==> ReachedBehind(t, b, ws, n, k)
    {
      BehindIff(t, a, atA, b, atB, ws, n, k);
    }
    hide ReachedBehind, Offered, Alike, Awaits;
    forall r
      ensures Offered(t, values, a + ws, partial, r) <==> Offered(t, values, b + ws, partial, r)
    {
      if Offered(t, values, a + ws, partial, r) { OfferedAlike(t, values, a, atA, b, atB, ws, partial, r); }
      if Offered(t, values, b + ws, partial, r) { OfferedAlike(t, values, b, atB, a, atA, ws, partial, r); }
    }
    forall c: Id
      ensures Awaits(t, a + ws, c) <==> Awaits(t, b + ws, c)
    {
      if Awaits(t, a + ws, c) { AwaitedAlike(t, a, atA, b, atB, ws, c); }
      if Awaits(t, b + ws, c) { AwaitedAlike(t, b, atB, a, atA, ws, c); }
    }
  }

  lemma SpelledIsFollowed(t: Tree, path: seq<string>, at: seq<Id>)
    requires Spells(t, path, at)
    ensures Follows(t, path, at)
  {
    forall k | 0 <= k < |path|
      ensures Leads(t, at[k], path[k], at[k + 1])
    {
      assert LeadsOn(t, at[k], path[k], at[k + 1]);
    }
  }

  /** A literal of the root that is redirected to a command is completed like that
      command, spelled out. */
  lemma AliasIsCompletedAsItsCommand(
      t: Tree, values: Id -> seq<string>, name: string, alias: Id, path: seq<string>, at: seq<Id>,
      ws: seq<string>, partial: string)
    requires ValidTree(t) && Spells(t, [name], [0, alias])
    requires alias < |t.nodes| && t.nodes[alias].redirect == Some(path)
    requires Spells(t, path, at) && at[|path|] < |t.nodes|
    requires t.nodes[at[|path|]].redirect.None? && !DeadEnd(t, at[|path|])
    ensures forall n, k | k > 0 :: ReachedBehind(t, [name], ws, n, k) <==> ReachedBehind(t, path, ws, n, k)
    ensures forall r :: Offered(t, values, [name] + ws, partial, r) <==> Offered(t, values, path + ws, partial, r)
    ensures forall h :: Hinted(t, [name] + ws, h) <==> Hinted(t, path + ws, h)
  {
    SpelledIsFollowed(t, path, at);
    SpellsEach(t, [name], [0, alias]);
    assert LeadsOn(t, 0, [name][0], [0, alias][0 + 1]);
    assert GoesOnAt(t, alias, at[|path|]) && GoesOnAt(t, at[|path|], at[|path|]);
    assert Alike(t, [name], [0, alias], path, at);
    hide *;
    AlikeCommandsCompleteAlike(t, values, [name], [0, alias], path, at, ws, partial);
  }

  /** Behind a literal without children that runs nothing, a whole new command begins. */
  lemma DeadEndBeginsAnew(
      t: Tree, values: Id -> seq<string>, path: seq<string>, at: seq<Id>, ws: seq<string>, partial: string)
    requires ValidTree(t) && Spells(t, path, at) && path != [] && t.nodes[0].redirect.None?
    requires at[|path|] < |t.nodes| && t.nodes[at[|path|]].redirect.None? && DeadEnd(t, at[|path|])
    ensures forall n, k | k > 0 :: ReachedBehind(t, path, ws, n, k) <==> ReachedBehind(t, [], ws, n, k)
    ensures forall r :: Offered(t, values, path + ws, partial, r) <==> Offered(t, values, ws, partial, r)
    ensures forall h :: Hinted(t, path + ws, h) <==> Hinted(t, ws, h)
  {
    assert Alike(t, path, at, [], [0]) by { assert GoesOnAt(t, at[|path|], 0) && GoesOnAt(t, 0, 0); }
    hide *;
    assert [] + ws == ws;
    AlikeCommandsCompleteAlike(t, values, path, at, [], [0], ws, partial);
  }

  /** A part of a redirect that no child bears is passed over. */
  lemma MissingPartIsPassedOver(
      t: Tree, front: seq<string>, part: string, back: seq<string>, at: seq<Id>, n: Id, n': Id)
    requires ValidTree(t) && n < |t.nodes| && n' < |t.nodes|
    requires t.nodes[n].redirect == Some(front + back) && t.nodes[n'].redirect == Some(front + [part] + back)
    requires Follows(t, front + back, at) && !HasChild(t, at[|front|], part)
    ensures SameWayOn(t, n, n') && Kids(t, n) == Kids(t, n')
  {
    var path, longer := front + back, front + [part] + back;
    var at' := at[..|front| + 1] + at[|front|..];
    forall k | 0 <= k < |longer|
      ensures Leads(t, at'[k], longer[k], at'[k + 1])
    {
      if k < |front| {
        assert Leads(t, at[k], path[k], at[k + 1]);
      } else if k > |front| {
        assert Leads(t, at[k - 1], path[k - 1], at[k - 1 + 1]);
      }
    }
    assert Follows(t, longer, at') && at'[|longer|] == at[|path|];
    assert GoesOnAt(t, n, at[|path|]) && GoesOnAt(t, n', at[|path|]);
    SameKids(t, n, n');
  }
}
