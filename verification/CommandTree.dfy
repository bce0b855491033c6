/** Walking a Brigadier command tree over the words typed so far; redirects make it
    cyclic. */
module CommandTree {
  import opened Wrappers

  type Id = nat

  datatype Kind = Root | Literal | Argument | Other

  /** A node of the report.  Its children are keyed by name, in report order;
      `greedy` is the string type that swallows the rest of the line. */
  datatype Node = Node(
    name: string, kind: Kind, children: seq<Id>, executable: bool,
    parser: string, greedy: bool, redirect: Option<seq<string>>)

  /** The nodes, the root first, and what the walk does not look into: which
      single words a parser accepts, and how a word is lower-cased. */
  datatype Tree = Tree(nodes: seq<Node>, accepts: (string, string) -> bool, lower: string -> string)

  /** A node reached, and how many words have been read on the way. */
  datatype Place = Place(node: Id, index: nat)

  ghost predicate ValidTree(t: Tree) {
    && |t.nodes| > 0
    && (forall n, c | 0 <= n < |t.nodes| && c in t.nodes[n].children :: c < |t.nodes|)
    && (forall n, i, j | 0 <= n < |t.nodes| && 0 <= i < j < |t.nodes[n].children| ::
          t.nodes[n].children[i] != t.nodes[n].children[j])
    && (forall n, c, d | 0 <= n < |t.nodes| && c in t.nodes[n].children && d in t.nodes[n].children ::
          t.nodes[c].name == t.nodes[d].name ==> c == d)
  }

  function Width(parser: string): (w: nat)
    ensures w >= 1
  {
    match parser
    case "minecraft:block_pos" => 3
    case "minecraft:vec3" => 3
    case "minecraft:vec2" => 2
    case "minecraft:rotation" => 2
    case "minecraft:column_pos" => 2
    case _ => 1
  }

  predicate Greedy(n: Node) {
    n.parser == "minecraft:message" || n.greedy
  }

  /** The child stored under a name. */
  function Get(t: Tree, children: seq<Id>, name: string): (r: Option<Id>)
    requires forall c | c in children :: c < |t.nodes|
    ensures r.Some? ==> r.value in children && t.nodes[r.value].name == name
    ensures r.None? ==> forall c | c in children :: t.nodes[c].name != name
  {
    if children == [] then None
    else
      assert children[0] in children && forall c | c in children[1..] :: c in children;
      if t.nodes[children[0]].name == name then Some(children[0])
      else Get(t, children[1..], name)
  }

  /** Follows a redirect's path; a missing part stays where it is. */
  function Resolve(t: Tree, path: seq<string>, from: Id): (r: Id)
    requires ValidTree(t) && from < |t.nodes|
    ensures r < |t.nodes|
  {
    if path == [] then from
    else
      var next := Get(t, t.nodes[from].children, path[0]);
      Resolve(t, path[1..], if next.Some? then next.value else from)
  }

  /** The node whose children may follow `n`. */
  function KidsOwner(t: Tree, n: Id): (r: Id)
    requires ValidTree(t) && n < |t.nodes|
    ensures r < |t.nodes|
  {
    var node := t.nodes[n];
    if node.redirect.Some? then Resolve(t, node.redirect.value, 0)
    else if node.kind.Literal? && node.children == [] && !node.executable then 0
    else n
  }

  function Kids(t: Tree, n: Id): (r: seq<Id>)
    requires ValidTree(t) && n < |t.nodes|
    ensures forall c | c in r :: c < |t.nodes|
  {
    t.nodes[KidsOwner(t, n)].children
  }

  /** The literal a word selects, spelled exactly or in lower case; an argument
      that happens to bear the word's name hides a lower-case literal. */
  function LiteralFor(t: Tree, kids: seq<Id>, word: string): (r: Option<Id>)
    requires forall c | c in kids :: c < |t.nodes|
    ensures r.Some? ==> r.value in kids && t.nodes[r.value].kind.Literal?
  {
    var exact := Get(t, kids, word);
    var found := if exact.Some? then exact else Get(t, kids, t.lower(word));
    if found.Some? && t.nodes[found.value].kind.Literal? then found else None
  }

  predicate AcceptsAll(t: Tree, n: Id, words: seq<string>)
    requires n < |t.nodes|
  {
    forall w | w in words :: w != "" && t.accepts(t.nodes[n].parser, w)
  }

  // ------------------------------------------------- what the words can be read as

  /** The words from the i-th on begin with a whole value of argument `c`. */
  predicate ReadsAs(t: Tree, words: seq<string>, i: nat, c: Id)
    requires c < |t.nodes|
  {
    var end := i + Width(t.nodes[c].parser);
    t.nodes[c].kind.Argument? && !Greedy(t.nodes[c]) && end <= |words| && AcceptsAll(t, c, words[i..end])
  }

  /** The words from the i-th on are the beginning of a value of argument `c`. */
  predicate RunsInto(t: Tree, words: seq<string>, i: nat, c: Id)
    requires c < |t.nodes| && i < |words|
  {
    t.nodes[c].kind.Argument? &&
    (Greedy(t.nodes[c]) || (i + Width(t.nodes[c].parser) > |words| && AcceptsAll(t, c, words[i..])))
  }

  /** From `from`, the next words can be read as child `to.node`: a matching literal
      is the only way on; otherwise any argument that accepts its words. */
  ghost predicate Step(t: Tree, words: seq<string>, from: Place, to: Place)
    requires ValidTree(t)
  {
    && from.node < |t.nodes| && from.index < |words|
    && var kids := Kids(t, from.node);
       var lit := LiteralFor(t, kids, words[from.index]);
       if lit.Some? then to == Place(lit.value, from.index + 1)
       else
         && to.node in kids && ReadsAs(t, words, from.index, to.node)
         && to.index == from.index + Width(t.nodes[to.node].parser)
  }

  /** From `from`, the words end in the middle of argument `c`. */
  ghost predicate StopsInside(t: Tree, words: seq<string>, from: Place, c: Id)
    requires ValidTree(t)
  {
    && from.node < |t.nodes| && from.index < |words|
    && var kids := Kids(t, from.node);
       LiteralFor(t, kids, words[from.index]).None? && c in kids && RunsInto(t, words, from.index, c)
  }

  ghost predicate IsPath(t: Tree, words: seq<string>, p: seq<Place>)
    requires ValidTree(t)
  {
    |p| > 0 && p[0] == Place(0, 0) && forall k | 0 <= k < |p| - 1 :: Step(t, words, p[k], p[k + 1])
  }

  ghost predicate Reachable(t: Tree, words: seq<string>, q: Place)
    requires ValidTree(t)
  {
    exists p :: IsPath(t, words, p) && p[|p| - 1] == q
  }

  lemma ReachRoot(t: Tree, words: seq<string>)
    requires ValidTree(t)
    ensures Reachable(t, words, Place(0, 0))
  {
    assert IsPath(t, words, [Place(0, 0)]);
  }

  lemma ReachStep(t: Tree, words: seq<string>, q: Place, r: Place)
    requires ValidTree(t) && Reachable(t, words, q) && Step(t, words, q, r)
    ensures Reachable(t, words, r)
  {
    var p :| IsPath(t, words, p) && p[|p| - 1] == q;
    var p' := p + [r];
    forall k | 0 <= k < |p'| - 1
      ensures Step(t, words, p'[k], p'[k + 1])
    {
      assert k < |p| - 1 ==> Step(t, words, p[k], p[k + 1]);
    }
    assert IsPath(t, words, p') && p'[|p'| - 1] == r;
  }

  /** A set that holds the root and is closed under steps holds every place. */
  lemma {:induction false} ClosedHoldsReachable(t: Tree, words: seq<string>, s: set<Place>, p: seq<Place>)
    requires ValidTree(t) && IsPath(t, words, p)
    requires Place(0, 0) in s && forall q, r | q in s && Step(t, words, q, r) :: r in s
    ensures p[|p| - 1] in s
    decreases |p|
  {
    if |p| > 1 {
      var front := p[..|p| - 1];
      assert IsPath(t, words, front);
      ClosedHoldsReachable(t, words, s, front);
      assert Step(t, words, front[|front| - 1], p[|p| - 1]);
    }
  }

  // -------------------------------------------------------------------- walk

  ghost function AllPlaces(t: Tree, words: seq<string>): set<Place> {
    set n, i | 0 <= n < |t.nodes| && 0 <= i <= |words| :: Place(n, i)
  }

  ghost predicate NoDuplicates<T>(s: seq<T>) {
    forall i, j | 0 <= i < j < |s| :: s[i] != s[j]
  }

  /** What expanding one place adds: the places to visit next, and the arguments
      the words end in. */
  method Expand(t: Tree, words: seq<string>, n: Id, i: nat) returns (next: seq<Place>, inside: seq<Id>)
    requires ValidTree(t) && n < |t.nodes| && i < |words|
    ensures forall r :: r in next <==> Step(t, words, Place(n, i), r)
    ensures forall c :: c in inside <==> StopsInside(t, words, Place(n, i), c)
  {
    var kids := Kids(t, n);
    var lit := LiteralFor(t, kids, words[i]);
    if lit.Some? {
      return [Place(lit.value, i + 1)], [];
    }
    next, inside := ExpandArguments(t, words, i, kids);
  }

  /** The arguments beside each other that can take the next words. */
  method ExpandArguments(t: Tree, words: seq<string>, i: nat, kids: seq<Id>) returns (next: seq<Place>, inside: seq<Id>)
    requires i < |words| && forall c | c in kids :: c < |t.nodes|
    ensures forall r: Place :: r in next <==>
      r.node in kids && ReadsAs(t, words, i, r.node) && r.index == i + Width(t.nodes[r.node].parser)
    ensures forall c :: c in inside <==> c in kids && RunsInto(t, words, i, c)
  {
    next, inside := [], [];
    ghost var done: seq<Id> := [];
    for k := 0 to |kids|
      invariant done == kids[..k] && forall c | c in done :: c in kids
      invariant forall r: Place :: r in next <==>
        r.node in done && ReadsAs(t, words, i, r.node) && r.index == i + Width(t.nodes[r.node].parser)
      invariant forall c :: c in inside <==> c in done && RunsInto(t, words, i, c)
    {
      var child := kids[k];
      assert child in kids;
      done := done + [child];
      var end := i + Width(t.nodes[child].parser);
      if !t.nodes[child].kind.Argument? {
        assert !ReadsAs(t, words, i, child) && !RunsInto(t, words, i, child);
        continue;
      }
      if Greedy(t.nodes[child]) {
        assert !ReadsAs(t, words, i, child) && RunsInto(t, words, i, child);
        inside := inside + [child];
        continue;
      }
      var part := words[i..if end <= |words| then end else |words|];
      assert end > |words| ==> part == words[i..];
      if !AcceptsAll(t, child, part) {
        assert !ReadsAs(t, words, i, child) && !RunsInto(t, words, i, child);
        continue;
      }
      if end <= |words| {
        assert ReadsAs(t, words, i, child) && !RunsInto(t, words, i, child);
        next := next + [Place(child, end)];
      } else {
        assert !ReadsAs(t, words, i, child) && RunsInto(t, words, i, child);
        inside := inside + [child];
      }
    }
    assert kids[..|kids|] == kids;
  }

  ghost predicate InsideFrom(t: Tree, words: seq<string>, seen: set<Place>, c: Id)
    requires ValidTree(t)
  {
    exists q :: q in seen && StopsInside(t, words, q, c)
  }

  lemma InsideGrows(t: Tree, words: seq<string>, seen: set<Place>, q: Place)
    requires ValidTree(t)
    ensures forall c ::
      InsideFrom(t, words, seen + {q}, c) <==> InsideFrom(t, words, seen, c) || StopsInside(t, words, q, c)
  {
    forall c | InsideFrom(t, words, seen, c) || StopsInside(t, words, q, c)
      ensures InsideFrom(t, words, seen + {q}, c)
    {
      if StopsInside(t, words, q, c) {
        assert q in seen + {q};
      } else {
        var p :| p in seen && StopsInside(t, words, p, c);
        assert p in seen + {q};
      }
    }
  }

  /** Every step out of a place already seen leads to one seen or waiting. */
  ghost predicate Frontier(t: Tree, words: seq<string>, seen: set<Place>, stack: seq<Place>)
    requires ValidTree(t)
  {
    forall q, r | q in seen && Step(t, words, q, r) :: r in stack || r in seen
  }

  lemma FrontierMoves(
      t: Tree, words: seq<string>, seen: set<Place>, stack: seq<Place>, q: Place, rest: seq<Place>, next: seq<Place>)
    requires ValidTree(t) && Frontier(t, words, seen, stack) && stack == rest + [q]
    requires forall r | Step(t, words, q, r) :: r in next
    ensures Frontier(t, words, seen + {q}, rest + next)
  {
    forall p, r | p in seen + {q} && Step(t, words, p, r)
      ensures r in rest + next || r in seen + {q}
    {
      if p in seen {
        assert r in stack || r in seen;
      }
    }
  }

  /** Places that can be reached and lie within the tree and the words. */
  ghost predicate Visitable(t: Tree, words: seq<string>, q: Place)
    requires ValidTree(t)
  {
    Reachable(t, words, q) && q in AllPlaces(t, words)
  }

  /** What has been seen and what still waits. */
  ghost predicate Searched(t: Tree, words: seq<string>, seen: set<Place>, stack: seq<Place>)
    requires ValidTree(t)
  {
    && (forall q | q in stack :: Visitable(t, words, q))
    && (forall q | q in seen :: Visitable(t, words, q))
    && (Place(0, 0) in stack || Place(0, 0) in seen)
    && Frontier(t, words, seen, stack)
  }

  /** What the places seen have given. */
  ghost predicate Found(
      t: Tree, words: seq<string>, seen: set<Place>, ends: seq<Id>, inside: seq<Id>, visited: seq<Place>)
    requires ValidTree(t)
  {
    && (forall n :: n in ends <==> Place(n, |words|) in seen)
    && NoDuplicates(ends) && NoDuplicates(visited)
    && (forall q :: q in visited <==> q in seen)
    && forall c :: c in inside <==> InsideFrom(t, words, seen, c)
  }

  lemma SearchStarts(t: Tree, words: seq<string>)
    requires ValidTree(t)
    ensures Searched(t, words, {}, [Place(0, 0)]) && Found(t, words, {}, [], [], [])
  {
    ReachRoot(t, words);
    assert Place(0, 0) in AllPlaces(t, words);
  }

  lemma SkipKeepsSearch(t: Tree, words: seq<string>, seen: set<Place>, stack: seq<Place>, q: Place)
    requires ValidTree(t) && Searched(t, words, seen, stack + [q]) && q in seen
    ensures Searched(t, words, seen, stack)
  {
    hide Visitable, Step;
    assert forall r | r in stack :: r in stack + [q];
  }

  lemma ExpandKeepsSearch(t: Tree, words: seq<string>, seen: set<Place>, stack: seq<Place>, q: Place, next: seq<Place>)
    requires ValidTree(t) && Searched(t, words, seen, stack + [q])
    requires forall r :: r in next <==> Step(t, words, q, r)
    ensures Searched(t, words, seen + {q}, stack + next)
  {
    assert q in stack + [q] && Visitable(t, words, q) && forall r | r in stack :: r in stack + [q];
    forall r | r in next
      ensures Visitable(t, words, r)
    {
      ReachStep(t, words, q, r);
    }
    FrontierMoves(t, words, seen, stack + [q], q, stack, next);
    hide Visitable, Step, Frontier;
  }

  lemma NextIsFound(
      t: Tree, words: seq<string>, seen: set<Place>, ends: seq<Id>, inside: seq<Id>, visited: seq<Place>, q: Place,
      within: seq<Id>)
    requires ValidTree(t) && Found(t, words, seen, ends, inside, visited) && q !in seen
    requires forall c :: c in within <==> StopsInside(t, words, q, c)
    ensures var ends' := if q.index == |words| then ends + [q.node] else ends;
      Found(t, words, seen + {q}, ends', inside + within, visited + [q])
  {
    InsideGrows(t, words, seen, q);
    hide StopsInside, InsideFrom;
  }

  lemma SearchEnds(
      t: Tree, words: seq<string>, seen: set<Place>, ends: seq<Id>, inside: seq<Id>, visited: seq<Place>)
    requires ValidTree(t) && Searched(t, words, seen, []) && Found(t, words, seen, ends, inside, visited)
    ensures forall n :: n in ends <==> Reachable(t, words, Place(n, |words|))
    ensures NoDuplicates(ends) && forall n | n in ends :: n < |t.nodes|
    ensures forall c :: c in inside <==> exists q :: Reachable(t, words, q) && StopsInside(t, words, q, c)
    ensures NoDuplicates(visited) && forall q :: q in visited <==> Reachable(t, words, q)
  {
    SeenIsReachable(t, words, seen);
    hide Reachable, StopsInside, InsideFrom, Frontier;
    forall n | n in ends
      ensures n < |t.nodes|
    {
      assert Visitable(t, words, Place(n, |words|));
    }
  }

  /** The nodes reached by reading all the words, and the arguments the words
      end in.  `visited` lists every place in the order it was expanded. */
  method Walk(t: Tree, words: seq<string>) returns (ends: seq<Id>, inside: seq<Id>, ghost visited: seq<Place>)
    requires ValidTree(t)
    ensures forall n :: n in ends <==> Reachable(t, words, Place(n, |words|))
    ensures NoDuplicates(ends) && forall n | n in ends :: n < |t.nodes|
    ensures forall c :: c in inside <==> exists q :: Reachable(t, words, q) && StopsInside(t, words, q, c)
    ensures NoDuplicates(visited) && forall q :: q in visited <==> Reachable(t, words, q)
  {
    hide *;
    ends, inside, visited := [], [], [];
    var stack: seq<Place> := [Place(0, 0)];
    var seen: set<Place> := {};
    SearchStarts(t, words);
    while stack != []
      invariant Searched(t, words, seen, stack) && Found(t, words, seen, ends, inside, visited)
      decreases AllPlaces(t, words) - seen, |stack|
    {
      var q := stack[|stack| - 1];
      ghost var before := stack;
      stack := stack[..|stack| - 1];
      assert before == stack + [q];
      if q in seen {
        SkipKeepsSearch(t, words, seen, stack, q);
        continue;
      }
      LastIsVisitable(t, words, seen, stack, q);
      var Place(n, i) := q;
      ghost var seen0 := seen;
      seen := seen + {q};
      if i == |words| {
        NothingBehind(t, words, q);
        NextIsFound(t, words, seen0, ends, inside, visited, q, []);
        ExpandKeepsSearch(t, words, seen0, stack, q, []);
        assert stack + [] == stack && inside + [] == inside;
        ends, visited := ends + [n], visited + [q];
        continue;
      }
      var next, within := Expand(t, words, n, i);
      NextIsFound(t, words, seen0, ends, inside, visited, q, within);
      ExpandKeepsSearch(t, words, seen0, stack, q, next);
      stack := stack + next;
      inside, visited := inside + within, visited + [q];
    }
    SearchEnds(t, words, seen, ends, inside, visited);
  }

  lemma LastIsVisitable(t: Tree, words: seq<string>, seen: set<Place>, stack: seq<Place>, q: Place)
    requires ValidTree(t) && Searched(t, words, seen, stack + [q])
    ensures q in AllPlaces(t, words) && q.node < |t.nodes| && q.index <= |words|
  {
    assert q in stack + [q] && Visitable(t, words, q);
  }

  lemma NothingBehind(t: Tree, words: seq<string>, q: Place)
    requires ValidTree(t) && q.index == |words|
    ensures (forall r :: !Step(t, words, q, r)) && forall c :: !StopsInside(t, words, q, c)
  {
  }

  /** Once nothing waits any more, the places seen are the reachable ones. */
  lemma SeenIsReachable(t: Tree, words: seq<string>, seen: set<Place>)
    requires ValidTree(t) && Place(0, 0) in seen && Frontier(t, words, seen, [])
    requires forall q | q in seen :: Reachable(t, words, q)
    ensures forall q :: q in seen <==> Reachable(t, words, q)
    ensures forall c ::
      InsideFrom(t, words, seen, c) <==> exists q :: Reachable(t, words, q) && StopsInside(t, words, q, c)
  {
    forall q | Reachable(t, words, q)
      ensures q in seen
    {
      var p :| IsPath(t, words, p) && p[|p| - 1] == q;
      ClosedHoldsReachable(t, words, seen, p);
    }
  }
}
