/** What a redirect of the command tree stands for, without following it. */
module Redirects {
  import opened Wrappers
  import opened CommandTree
  import opened Completion

  // ---------------------------------------------------------- whose children

  ghost predicate IsChild(t: Tree, n: Id, c: Id) {
    n < |t.nodes| && c < |t.nodes| && c in t.nodes[n].children
  }

  ghost predicate HasChild(t: Tree, n: Id, name: string) {
    exists c: Id :: IsChild(t, n, c) && t.nodes[c].name == name
  }

  /** A name leads to the child that bears it; one that no child bears leads nowhere
      else. */
  ghost predicate Leads(t: Tree, n: Id, name: string, c: Id) {
    if HasChild(t, n, name) then IsChild(t, n, c) && t.nodes[c].name == name else c == n
  }

  ghost predicate FollowsFrom(t: Tree, path: seq<string>, from: Id, at: seq<Id>) {
    |at| == |path| + 1 && at[0] == from && forall k | 0 <= k < |path| :: Leads(t, at[k], path[k], at[k + 1])
  }

  /** From the root, each name of the path leads on. */
  ghost predicate Follows(t: Tree, path: seq<string>, at: seq<Id>) {
    FollowsFrom(t, path, 0, at)
  }

  ghost predicate DeadEnd(t: Tree, n: Id)
    requires n < |t.nodes|
  {
    t.nodes[n].kind.Literal? && t.nodes[n].children == [] && !t.nodes[n].executable
  }

  /** The children of `m` are what may follow `n`. */
  ghost predicate GoesOnAt(t: Tree, n: Id, m: Id) {
    && n < |t.nodes|
    && match t.nodes[n].redirect
       case Some(path) => exists at :: Follows(t, path, at) && at[|path|] == m
       case None => m == if DeadEnd(t, n) then 0 else n
  }

  lemma LeadsByGet(t: Tree, n: Id, name: string)
    requires ValidTree(t) && n < |t.nodes|
    ensures var next := Get(t, t.nodes[n].children, name);
      Leads(t, n, name, if next.Some? then next.value else n)
  {
    var next := Get(t, t.nodes[n].children, name);
    if next.Some? {
      assert IsChild(t, n, next.value);
    } else {
      assert !HasChild(t, n, name);
    }
  }

  lemma FollowsMore(t: Tree, name: string, path: seq<string>, from: Id, to: Id, at: seq<Id>)
    requires Leads(t, from, name, to) && FollowsFrom(t, path, to, at)
    ensures FollowsFrom(t, [name] + path, from, [from] + at) && ([from] + at)[|path| + 1] == at[|path|]
  {
    hide Leads;
    forall k | 0 <= k < |[name] + path|
      ensures Leads(t, ([from] + at)[k], ([name] + path)[k], ([from] + at)[k + 1])
    {
      if k > 0 { assert Leads(t, at[k - 1], path[k - 1], at[k - 1 + 1]); }
    }
  }

  lemma {:induction false} ResolvedFrom(t: Tree, path: seq<string>, from: Id) returns (at: seq<Id>)
    requires ValidTree(t) && from < |t.nodes|
    ensures FollowsFrom(t, path, from, at) && at[|path|] == Resolve(t, path, from)
    decreases path
  {
    if path == [] {
      at := [from];
    } else {
      var next := Get(t, t.nodes[from].children, path[0]);
      var to := if next.Some? then next.value else from;
      LeadsByGet(t, from, path[0]);
      hide Leads, Get, ValidTree, FollowsFrom;
      var rest := ResolvedFrom(t, path[1..], to);
      FollowsMore(t, path[0], path[1..], from, to, rest);
      at := [from] + rest;
      assert [path[0]] + path[1..] == path;
    }
  }

  /** Names are unique among children, so there is only one way to follow a path. */
  lemma {:induction false} OneWay(t: Tree, path: seq<string>, a: seq<Id>, b: seq<Id>, k: nat)
    requires ValidTree(t) && Follows(t, path, a) && Follows(t, path, b) && k <= |path|
    ensures a[k] == b[k]
  {
    if k > 0 {
      OneWay(t, path, a, b, k - 1);
      assert Leads(t, a[k - 1], path[k - 1], a[k - 1 + 1]) && Leads(t, b[k - 1], path[k - 1], b[k - 1 + 1]);
    }
  }

  /** What may follow a node are the children of exactly one. */
  lemma KidsAre(t: Tree, n: Id, m: Id)
    requires ValidTree(t) && n < |t.nodes|
    ensures GoesOnAt(t, n, m) <==> m == KidsOwner(t, n)
  {
    var node := t.nodes[n];
    if node.redirect.Some? {
      var path := node.redirect.value;
      var at := ResolvedFrom(t, path, 0);
      assert Follows(t, path, at);
      if GoesOnAt(t, n, m) {
        var b :| Follows(t, path, b) && b[|path|] == m;
        OneWay(t, path, at, b, |path|);
      }
    }
  }

  // --------------------------------------------------------------- one step

  /** The literal among the children of `m` that a word selects: the one it spells, or
      the one it spells in lower case if no child at all bears the word itself. */
  ghost predicate Matches(t: Tree, m: Id, c: Id, word: string) {
    && IsChild(t, m, c) && t.nodes[c].kind.Literal?
    && (t.nodes[c].name == word || (t.nodes[c].name == t.lower(word) && !HasChild(t, m, word)))
  }

  ghost predicate TakesWords(parser: string, n: int) {
    if parser == "minecraft:block_pos" || parser == "minecraft:vec3" then n == 3
    else if parser == "minecraft:vec2" || parser == "minecraft:rotation" || parser == "minecraft:column_pos"
    then n == 2
    else n == 1
  }

  ghost predicate TakesTheRest(node: Node) {
    node.greedy || node.parser == "minecraft:message"
  }

  ghost predicate Accepts(t: Tree, c: Id, words: seq<string>, i: nat, j: nat)
    requires c < |t.nodes| && j <= |words|
  {
    forall k | i <= k < j :: words[k] != "" && t.accepts(t.nodes[c].parser, words[k])
  }

  /** The words from `i` to `j` are read as child `c` of `m`: a literal that matches is
      the only way on; otherwise an argument takes as many words as it is wide. */
  ghost predicate Reads(t: Tree, words: seq<string>, m: Id, i: nat, c: Id, j: nat) {
    && i < |words| && IsChild(t, m, c)
    && if exists d: Id :: Matches(t, m, d, words[i]) then Matches(t, m, c, words[i]) && j == i + 1
       else
         && t.nodes[c].kind.Argument? && !TakesTheRest(t.nodes[c])
         && TakesWords(t.nodes[c].parser, j - i) && j <= |words| && Accepts(t, c, words, i, j)
  }

  /** The words from `i` on end in the middle of child `c` of `m`: it takes the rest of
      the line, or more words than there are. */
  ghost predicate EndsIn(t: Tree, words: seq<string>, m: Id, i: nat, c: Id) {
    && i < |words| && IsChild(t, m, c) && t.nodes[c].kind.Argument?
    && !(exists d: Id :: Matches(t, m, d, words[i]))
    && (TakesTheRest(t.nodes[c])
        || (Accepts(t, c, words, i, |words|) && exists n :: TakesWords(t.nodes[c].parser, n) && n > |words| - i))
  }

  lemma LiteralIs(t: Tree, m: Id, word: string)
    requires ValidTree(t) && m < |t.nodes|
    ensures var lit := LiteralFor(t, t.nodes[m].children, word);
      forall c: Id :: Matches(t, m, c, word) <==> lit == Some(c)
  {
    var kids := t.nodes[m].children;
    var exact := Get(t, kids, word);
    assert HasChild(t, m, word) <==> exact.Some? by {
      if exact.Some? { assert IsChild(t, m, exact.value); }
    }
    var low := Get(t, kids, t.lower(word));
    forall c: Id | Matches(t, m, c, word)
      ensures LiteralFor(t, kids, word) == Some(c)
    {
    }
  }

  lemma WidthIs(parser: string, n: int)
    ensures TakesWords(parser, n) <==> n == Width(parser)
  {
  }

  lemma AcceptsIs(t: Tree, c: Id, words: seq<string>, i: nat, j: nat)
    requires c < |t.nodes| && i <= j <= |words|
    ensures Accepts(t, c, words, i, j) <==> AcceptsAll(t, c, words[i..j])
  {
    if Accepts(t, c, words, i, j) {
      forall w | w in words[i..j]
        ensures w != "" && t.accepts(t.nodes[c].parser, w)
      {
        var k :| 0 <= k < j - i && words[i..j][k] == w;
        assert words[i + k] == w;
      }
    }
    if AcceptsAll(t, c, words[i..j]) {
      assert forall k | i <= k < j :: words[i..j][k - i] == words[k];
    }
  }

  /** Two places are one step apart exactly if the words between them are read as a
      child of the node at which the first goes on. */
  lemma StepIff(t: Tree, words: seq<string>, n: Id, i: nat, c: Id, j: nat)
    requires ValidTree(t)
    ensures Step(t, words, Place(n, i), Place(c, j)) <==>
      exists m: Id :: GoesOnAt(t, n, m) && Reads(t, words, m, i, c, j)
  {
    if n < |t.nodes| && i < |words| {
      var m := KidsOwner(t, n);
      KidsAre(t, n, m);
      LiteralIs(t, m, words[i]);
      if IsChild(t, m, c) {
        WidthIs(t.nodes[c].parser, j - i);
        var end := i + Width(t.nodes[c].parser);
        if end <= |words| { AcceptsIs(t, c, words, i, end); }
      }
      assert Step(t, words, Place(n, i), Place(c, j)) <==> Reads(t, words, m, i, c, j);
      forall m': Id | GoesOnAt(t, n, m')
        ensures m' == m
      {
        KidsAre(t, n, m');
      }
    } else {
      assert !Step(t, words, Place(n, i), Place(c, j));
    }
  }

  /** ... and they end inside an argument exactly if it is such a child. */
  lemma StopsInsideIff(t: Tree, words: seq<string>, n: Id, i: nat, c: Id)
    requires ValidTree(t)
    ensures StopsInside(t, words, Place(n, i), c) <==> exists m: Id :: GoesOnAt(t, n, m) && EndsIn(t, words, m, i, c)
  {
    if n < |t.nodes| && i < |words| {
      var m := KidsOwner(t, n);
      KidsAre(t, n, m);
      LiteralIs(t, m, words[i]);
      if IsChild(t, m, c) {
        var width := Width(t.nodes[c].parser);
        WidthIs(t.nodes[c].parser, width);
        AcceptsIs(t, c, words, i, |words|);
        assert words[i..|words|] == words[i..];
        forall w | TakesWords(t.nodes[c].parser, w)
          ensures w == width
        {
          WidthIs(t.nodes[c].parser, w);
        }
      }
      assert StopsInside(t, words, Place(n, i), c) <==> EndsIn(t, words, m, i, c);
      forall m': Id | GoesOnAt(t, n, m')
        ensures m' == m
      {
        KidsAre(t, n, m');
      }
    } else {
      assert !StopsInside(t, words, Place(n, i), c);
    }
  }
}
