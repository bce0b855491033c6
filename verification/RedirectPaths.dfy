/** Paths behind a command that is spelled out word by word: there is one way to reach
    its end, every further step is the same as behind any other command that the same
    may follow, and no argument is stopped in before that.  So is what is offered and
    awaited there.  The statements about aliases are in the module that follows. */
module RedirectPaths {
  import opened Wrappers
  import opened CommandTree
  import opened Completion
  import opened Redirects

  ghost predicate LeadsOn(t: Tree, n: Id, name: string, c: Id) {
    IsChild(t, n, c) && t.nodes[n].redirect.None? && t.nodes[c].kind.Literal? && t.nodes[c].name == name
  }

  /** A command spelled out: literals below each other, named by the path; none but
      the last may be redirected. */
  ghost predicate Spells(t: Tree, path: seq<string>, at: seq<Id>) {
    && |at| == |path| + 1 && at[0] == 0 && 0 < |t.nodes|
    && forall k | 0 <= k < |path| :: LeadsOn(t, at[k], path[k], at[k + 1])
  }

  lemma SpellsEach(t: Tree, path: seq<string>, at: seq<Id>)
    requires Spells(t, path, at)
    ensures |at| == |path| + 1 && forall k | 0 <= k < |path| :: LeadsOn(t, at[k], path[k], at[k + 1])
  {
  }

  /** The same children may follow both. */
  ghost predicate SameWayOn(t: Tree, n: Id, n': Id) {
    exists m: Id :: GoesOnAt(t, n, m) && GoesOnAt(t, n', m)
  }

  lemma SameKids(t: Tree, n: Id, n': Id)
    requires ValidTree(t) && SameWayOn(t, n, n')
    ensures n < |t.nodes| && n' < |t.nodes| && Kids(t, n) == Kids(t, n')
  {
    var m: Id :| GoesOnAt(t, n, m) && GoesOnAt(t, n', m);
    KidsAre(t, n, m);
    KidsAre(t, n', m);
  }

  lemma StepsGoForward(t: Tree, words: seq<string>, q: Place, r: Place)
    requires ValidTree(t) && Step(t, words, q, r)
    ensures q.index < r.index
  {
  }

  /** Along a command that is spelled out the walk cannot leave it. */
  lemma SpelledStep(t: Tree, path: seq<string>, at: seq<Id>, ws: seq<string>, k: nat, q: Place)
    requires ValidTree(t) && Spells(t, path, at) && k < |path|
    ensures Step(t, path + ws, Place(at[k], k), q) <==> q == Place(at[k + 1], k + 1)
  {
    assert (path + ws)[k] == path[k] && LeadsOn(t, at[k], path[k], at[k + 1]);
    assert Matches(t, at[k], at[k + 1], path[k]);
    LiteralIs(t, at[k], path[k]);
  }

  lemma {:induction false} SpelledPath(t: Tree, path: seq<string>, at: seq<Id>, ws: seq<string>, k: nat)
    requires ValidTree(t) && Spells(t, path, at) && k <= |path|
    ensures Reachable(t, path + ws, Place(at[k], k))
  {
    hide Reachable, Step;
    if k == 0 {
      ReachRoot(t, path + ws);
    } else {
      SpelledPath(t, path, at, ws, k - 1);
      SpelledStep(t, path, at, ws, k - 1, Place(at[k], k));
      ReachStep(t, path + ws, Place(at[k - 1], k - 1), Place(at[k], k));
    }
  }

  lemma {:induction false} OnlySpelledPath(t: Tree, path: seq<string>, at: seq<Id>, ws: seq<string>, p: seq<Place>)
    requires ValidTree(t) && Spells(t, path, at) && IsPath(t, path + ws, p)
    ensures var q := p[|p| - 1]; q.index <= |path| ==> q.node == at[q.index]
    decreases |p|
  {
    if |p| > 1 && p[|p| - 1].index <= |path| {
      var front := p[..|p| - 1];
      assert IsPath(t, path + ws, front);
      OnlySpelledPath(t, path, at, ws, front);
      var q, r := p[|p| - 2], p[|p| - 1];
      assert Step(t, path + ws, p[|p| - 2], p[|p| - 2 + 1]) && front[|front| - 1] == q;
      StepsGoForward(t, path + ws, q, r);
      SpelledStep(t, path, at, ws, q.index, r);
    }
  }

  lemma SliceBehind(a: seq<string>, ws: seq<string>, i: nat, j: nat)
    requires i <= j <= |ws|
    ensures (a + ws)[|a| + i..|a| + j] == ws[i..j]
  {
  }

  /** A step among the further words does not depend on what stands before them. */
  lemma StepBehind(t: Tree, a: seq<string>, b: seq<string>, ws: seq<string>, n: Id, n': Id, i: nat, c: Id, j: nat)
    requires ValidTree(t) && n < |t.nodes| && n' < |t.nodes| && Kids(t, n) == Kids(t, n')
    ensures Step(t, a + ws, Place(n, |a| + i), Place(c, |a| + j))
      <==> Step(t, b + ws, Place(n', |b| + i), Place(c, |b| + j))
  {
    hide KidsOwner, ValidTree, AcceptsAll;
    if i < |ws| && c < |t.nodes| {
      var end := i + Width(t.nodes[c].parser);
      assert (a + ws)[|a| + i] == ws[i] == (b + ws)[|b| + i];
      if end <= |ws| {
        SliceBehind(a, ws, i, end);
        SliceBehind(b, ws, i, end);
      }
    }
  }

  /** A place as many words behind a command. */
  ghost predicate ReachedBehind(t: Tree, command: seq<string>, ws: seq<string>, n: Id, k: nat)
    requires ValidTree(t)
  {
    Reachable(t, command + ws, Place(n, |command| + k))
  }

  lemma FirstBehind(
      t: Tree, a: seq<string>, n: Id, b: seq<string>, atB: seq<Id>, ws: seq<string>, c: Id, k: nat)
    requires ValidTree(t) && Spells(t, b, atB) && SameWayOn(t, n, atB[|b|]) && k > 0
    requires Step(t, a + ws, Place(n, |a|), Place(c, |a| + k))
    ensures Reachable(t, b + ws, Place(c, |b| + k))
  {
    hide *;
    SpellsEach(t, b, atB);
    SameKids(t, n, atB[|b|]);
    SpelledPath(t, b, atB, ws, |b|);
    StepBehind(t, a, b, ws, n, atB[|b|], 0, c, k);
    ReachStep(t, b + ws, Place(atB[|b|], |b|), Place(c, |b| + k));
  }

  lemma NextBehind(t: Tree, a: seq<string>, b: seq<string>, ws: seq<string>, n: Id, i: nat, c: Id, j: nat)
    requires ValidTree(t) && Step(t, a + ws, Place(n, |a| + i), Place(c, |a| + j))
    requires Reachable(t, b + ws, Place(n, |b| + i))
    ensures Reachable(t, b + ws, Place(c, |b| + j))
  {
    hide Reachable, Kids;
    StepBehind(t, a, b, ws, n, n, i, c, j);
    ReachStep(t, b + ws, Place(n, |b| + i), Place(c, |b| + j));
  }

  lemma LastStep(t: Tree, words: seq<string>, p: seq<Place>)
    requires ValidTree(t) && IsPath(t, words, p) && p[|p| - 1].index > 0
    ensures |p| > 1 && IsPath(t, words, p[..|p| - 1]) && Step(t, words, p[|p| - 2], p[|p| - 1])
    ensures p[..|p| - 1][|p| - 2] == p[|p| - 2]
  {
    assert |p| > 1 ==> Step(t, words, p[|p| - 2], p[|p| - 2 + 1]);
  }

  /** Behind two commands after which the same may follow, the further words reach the
      same places. */
  lemma {:induction false} SameBehind(
      t: Tree, a: seq<string>, atA: seq<Id>, b: seq<string>, atB: seq<Id>, ws: seq<string>, p: seq<Place>, k: nat)
    requires ValidTree(t) && Spells(t, a, atA) && Spells(t, b, atB) && SameWayOn(t, atA[|a|], atB[|b|])
    requires IsPath(t, a + ws, p) && p[|p| - 1].index == |a| + k && k > 0
    ensures Reachable(t, b + ws, Place(p[|p| - 1].node, |b| + k))
    decreases |p|
  {
    hide *;
    SpellsEach(t, a, atA);
    LastStep(t, a + ws, p);
    var front, q, r := p[..|p| - 1], p[|p| - 2], p[|p| - 1];
    OnlySpelledPath(t, a, atA, ws, front);
    if q.index < |a| {
      SpelledStep(t, a, atA, ws, q.index, r);
    } else if q.index == |a| {
      FirstBehind(t, a, atA[|a|], b, atB, ws, r.node, k);
    } else {
      SameBehind(t, a, atA, b, atB, ws, front, q.index - |a|);
      NextBehind(t, a, b, ws, q.node, q.index - |a|, r.node, k);
    }
  }

  /** Places behind two such commands are the same, with the index shifted. */
  lemma BehindIff(
      t: Tree, a: seq<string>, atA: seq<Id>, b: seq<string>, atB: seq<Id>, ws: seq<string>, n: Id, k: nat)
    requires ValidTree(t) && Spells(t, a, atA) && Spells(t, b, atB) && SameWayOn(t, atA[|a|], atB[|b|]) && k > 0
    ensures ReachedBehind(t, a, ws, n, k) <==> ReachedBehind(t, b, ws, n, k)
  {
    if Reachable(t, a + ws, Place(n, |a| + k)) {
      var p :| IsPath(t, a + ws, p) && p[|p| - 1] == Place(n, |a| + k);
      SameBehind(t, a, atA, b, atB, ws, p, k);
    }
    if Reachable(t, b + ws, Place(n, |b| + k)) {
      var p :| IsPath(t, b + ws, p) && p[|p| - 1] == Place(n, |b| + k);
      SameBehind(t, b, atB, a, atA, ws, p, k);
    }
  }

  /** Among the further words, arguments end where they do behind the other command. */
  lemma StopBehind(t: Tree, a: seq<string>, b: seq<string>, ws: seq<string>, n: Id, n': Id, i: nat, c: Id)
    requires ValidTree(t) && n < |t.nodes| && n' < |t.nodes| && Kids(t, n) == Kids(t, n')
    ensures StopsInside(t, a + ws, Place(n, |a| + i), c) <==> StopsInside(t, b + ws, Place(n', |b| + i), c)
  {
    hide KidsOwner, ValidTree, AcceptsAll;
    if i < |ws| {
      assert (a + ws)[|a| + i] == ws[i] == (b + ws)[|b| + i];
      SliceBehind(a, ws, i, |ws|);
      SliceBehind(b, ws, i, |ws|);
      assert (a + ws)[|a| + i..] == (a + ws)[|a| + i..|a| + |ws|];
      assert (b + ws)[|b| + i..] == (b + ws)[|b| + i..|b| + |ws|];
    }
  }

  lemma NoStopWithin(t: Tree, path: seq<string>, at: seq<Id>, ws: seq<string>, k: nat, c: Id)
    requires ValidTree(t) && Spells(t, path, at) && k < |path|
    ensures !StopsInside(t, path + ws, Place(at[k], k), c)
  {
    assert (path + ws)[k] == path[k] && LeadsOn(t, at[k], path[k], at[k + 1]);
    assert Matches(t, at[k], at[k + 1], path[k]);
    LiteralIs(t, at[k], path[k]);
  }

  /** Two commands that the same may follow. */
  ghost predicate Alike(t: Tree, a: seq<string>, atA: seq<Id>, b: seq<string>, atB: seq<Id>) {
    Spells(t, a, atA) && Spells(t, b, atB) && SameWayOn(t, atA[|a|], atB[|b|])
  }

  lemma AlikeBack(t: Tree, a: seq<string>, atA: seq<Id>, b: seq<string>, atB: seq<Id>)
    requires Alike(t, a, atA, b, atB)
    ensures Alike(t, b, atB, a, atA)
  {
    var m: Id :| GoesOnAt(t, atA[|a|], m) && GoesOnAt(t, atB[|b|], m);
    assert GoesOnAt(t, atB[|b|], m) && GoesOnAt(t, atA[|a|], m);
  }

  /** A place behind one command has its like behind the other. */
  lemma LikePlace(
      t: Tree, a: seq<string>, atA: seq<Id>, b: seq<string>, atB: seq<Id>, ws: seq<string>, q: Place)
    returns (n: Id)
    requires ValidTree(t) && Alike(t, a, atA, b, atB) && Reachable(t, a + ws, q) && q.index >= |a|
    ensures q.node < |t.nodes| && n < |t.nodes| && Kids(t, n) == Kids(t, q.node)
    ensures Reachable(t, b + ws, Place(n, |b| + q.index - |a|))
  {
    var p :| IsPath(t, a + ws, p) && p[|p| - 1] == q;
    if q.index == |a| {
      OnlySpelledPath(t, a, atA, ws, p);
      SameKids(t, atA[|a|], atB[|b|]);
      SpelledPath(t, b, atB, ws, |b|);
      n := atB[|b|];
    } else {
      LastStep(t, a + ws, p);
      n := q.node;
      hide Reachable, IsPath;
      SameBehind(t, a, atA, b, atB, ws, p, q.index - |a|);
    }
  }

  lemma OfferedAlike(
      t: Tree, values: Id -> seq<string>, a: seq<string>, atA: seq<Id>, b: seq<string>, atB: seq<Id>,
      ws: seq<string>, partial: string, r: Ranked)
    requires ValidTree(t) && Alike(t, a, atA, b, atB) && Offered(t, values, a + ws, partial, r)
    ensures Offered(t, values, b + ws, partial, r)
  {
    hide Reachable, Alike;
    var n: Id :| Reachable(t, a + ws, Place(n, |a + ws|)) && FromNode(t, values, n, partial, r);
    var n' := EndAlike(t, a, atA, b, atB, ws, n);
    assert FromNode(t, values, n', partial, r);
  }

  lemma StopAlike(
      t: Tree, a: seq<string>, atA: seq<Id>, b: seq<string>, atB: seq<Id>, ws: seq<string>, q: Place, c: Id)
    returns (r: Place)
    requires ValidTree(t) && Alike(t, a, atA, b, atB) && Reachable(t, a + ws, q) && StopsInside(t, a + ws, q, c)
    ensures Reachable(t, b + ws, r) && StopsInside(t, b + ws, r, c)
  {
    StopIsBehind(t, a, atA, ws, q, c);
    hide *;
    var k := q.index - |a|;
    var n := LikePlace(t, a, atA, b, atB, ws, q);
    StopBehind(t, a, b, ws, q.node, n, k, c);
    r := Place(n, |b| + k);
    assert q == Place(q.node, |a| + k);
  }

  lemma EndAlike(
      t: Tree, a: seq<string>, atA: seq<Id>, b: seq<string>, atB: seq<Id>, ws: seq<string>, n: Id) returns (n': Id)
    requires ValidTree(t) && Alike(t, a, atA, b, atB) && Reachable(t, a + ws, Place(n, |a + ws|))
    ensures n < |t.nodes| && n' < |t.nodes| && Kids(t, n) == Kids(t, n')
    ensures Reachable(t, b + ws, Place(n', |b + ws|))
  {
    hide *;
    n' := LikePlace(t, a, atA, b, atB, ws, Place(n, |a + ws|));
    assert |b| + |a + ws| - |a| == |b + ws|;
  }

  lemma AwaitedAlike(
      t: Tree, a: seq<string>, atA: seq<Id>, b: seq<string>, atB: seq<Id>, ws: seq<string>, c: Id)
    requires ValidTree(t) && Alike(t, a, atA, b, atB) && Awaits(t, a + ws, c)
    ensures Awaits(t, b + ws, c)
  {
    hide Reachable, Alike, StopsInside;
    if q :| Reachable(t, a + ws, q) && StopsInside(t, a + ws, q, c) {
      var r := StopAlike(t, a, atA, b, atB, ws, q, c);
    } else {
      var n: Id :| Reachable(t, a + ws, Place(n, |a + ws|)) && TakesValue(t, n, c);
      var n' := EndAlike(t, a, atA, b, atB, ws, n);
      assert TakesValue(t, n', c);
    }
  }

  lemma StopIsBehind(t: Tree, a: seq<string>, atA: seq<Id>, ws: seq<string>, q: Place, c: Id)
    requires ValidTree(t) && Spells(t, a, atA) && Reachable(t, a + ws, q) && StopsInside(t, a + ws, q, c)
    ensures q.index >= |a|
  {
    if q.index < |a| {
      var p :| IsPath(t, a + ws, p) && p[|p| - 1] == q;
      OnlySpelledPath(t, a, atA, ws, p);
      NoStopWithin(t, a, atA, ws, q.index, c);
    }
  }
}
