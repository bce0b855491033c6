/** Suggestions for the word being typed, from the places the walk reaches. */
module Completion {
  import opened Collections
  import opened Wrappers
  import opened CommandTree
  import opened Lines

  const MAX_ITEMS := 50

  datatype SuggestionKind = LiteralText | ValueText | Hint

  datatype Suggestion = Suggestion(text: string, kind: SuggestionKind)

  /** A candidate with its sort key: how well it matches, literals before
      values, then its spelling. */
  datatype Ranked = Ranked(rank: int, group: int, key: string, item: Suggestion)

  // ------------------------------------------------------------ sorting

  predicate KeyLe(a: Ranked, b: Ranked) {
    a.rank < b.rank || (a.rank == b.rank && (a.group < b.group || (a.group == b.group && StringLe(a.key, b.key))))
  }

  lemma KeyLeTotal(a: Ranked, b: Ranked)
    ensures KeyLe(a, b) || KeyLe(b, a)
  {
    StringLeTotal(a.key, b.key);
  }

  lemma KeyLeTransitive(a: Ranked, b: Ranked, c: Ranked)
    requires KeyLe(a, b) && KeyLe(b, c)
    ensures KeyLe(a, c)
  {
    if StringLe(a.key, b.key) && StringLe(b.key, c.key) { StringLeTransitive(a.key, b.key, c.key); }
  }

  ghost predicate Ordered(s: seq<Ranked>) {
    OrderedBy(s, KeyLe)
  }

  lemma KeyLeIsOrder()
    ensures IsOrder(KeyLe)
  {
    forall a, b
      ensures KeyLe(a, b) || KeyLe(b, a)
    {
      KeyLeTotal(a, b);
    }
    forall a, b, c | KeyLe(a, b) && KeyLe(b, c)
      ensures KeyLe(a, c)
    {
      KeyLeTransitive(a, b, c);
    }
  }

  // ------------------------------------------------------------ candidates

  function Short(value: string): string {
    if "minecraft:" <= value then value[|"minecraft:"|..] else value
  }

  predicate Separator(c: char) { c == '_' || c == '.' || c == '/' }

  /** The word of `s` that starts at `k`. */
  function WordAt(s: string, k: nat): string
    requires k <= |s|
    decreases |s| - k
  {
    if k == |s| || Separator(s[k]) then [] else [s[k]] + WordAt(s, k + 1)
  }

  /** 0: the value starts with what was typed; 1: one of its later words does;
      -1: neither. */
  function Match(value: string, partial: string, lower: string -> string): int {
    if partial == [] then 0
    else
      var v, p := lower(value), Short(lower(partial));
      if p <= v then 0
      else if exists k :: 0 <= k < |v| && Separator(v[k]) && p <= WordAt(v, k + 1) then 1
      else -1
  }

  /** The typed text begins at `k`, and no part of it is a separator. */
  ghost predicate WordStarts(v: string, p: string, k: nat) {
    k + |p| <= |v| && v[k..k + |p|] == p && forall c | c in p :: c != '_' && c != '.' && c != '/'
  }

  lemma {:induction false} WordFits(v: string, k: nat)
    requires k <= |v|
    ensures k + |WordAt(v, k)| <= |v|
    decreases |v| - k
  {
    if k < |v| && !Separator(v[k]) { WordFits(v, k + 1); }
  }

  lemma PrefixMore(c: char, word: string, p: string)
    requires p != []
    ensures p <= [c] + word <==> p[0] == c && p[1..] <= word
  {
    if |p| <= |word| + 1 {
      assert ([c] + word)[..|p|] == [c] + word[..|p| - 1];
      assert p == [p[0]] + p[1..];
    }
  }

  lemma {:induction false} WordStartsIff(v: string, p: string, k: nat)
    requires k <= |v|
    ensures p <= WordAt(v, k) <==> WordStarts(v, p, k)
    decreases |p|
  {
    if p != [] && k + |p| <= |v| {
      WordStartsIff(v, p[1..], k + 1);
      StartsMore(v, p, k);
      if !Separator(v[k]) { PrefixMore(v[k], WordAt(v, k + 1), p); }
    } else {
      WordFits(v, k);
    }
  }

  lemma StartsMore(v: string, p: string, k: nat)
    requires p != [] && k + |p| <= |v|
    ensures WordStarts(v, p, k) <==> p[0] == v[k] && !Separator(v[k]) && WordStarts(v, p[1..], k + 1)
  {
    var rest := v[k + 1..k + |p|];
    SameFront(v[k], rest, p);
    assert v[k..k + |p|] == [v[k]] + rest && p[0] in p;
    assert v[k + 1..k + 1 + |p[1..]|] == rest;
    forall c
      ensures c in p <==> c == p[0] || c in p[1..]
    {
      assert p == [p[0]] + p[1..];
    }
  }

  lemma SameFront(c: char, rest: string, p: string)
    requires p != []
    ensures [c] + rest == p <==> c == p[0] && rest == p[1..]
  {
    assert ([c] + rest)[1..] == rest && p == [p[0]] + p[1..];
  }

  /** Whatever the case, and without "minecraft:" in what was typed: a value that starts
      with it is best, then one with a later word, behind '_', '.' or '/', that does. */
  lemma MatchIff(value: string, partial: string, lower: string -> string)
    ensures var v, low := lower(value), lower(partial);
      var p := if |low| >= 10 && low[..10] == "minecraft:" then low[10..] else low;
      && (Match(value, partial, lower) == 0 <==> partial == "" || (|p| <= |v| && v[..|p|] == p))
      && (Match(value, partial, lower) > 0 <==>
        !(partial == "" || (|p| <= |v| && v[..|p|] == p))
        && exists k :: 0 < k <= |v| && (v[k - 1] == '_' || v[k - 1] == '.' || v[k - 1] == '/') && WordStarts(v, p, k))
      && -1 <= Match(value, partial, lower) <= 1
  {
    var v, p := lower(value), Short(lower(partial));
    forall k | 0 <= k <= |v|
      ensures p <= WordAt(v, k) <==> WordStarts(v, p, k)
    {
      WordStartsIff(v, p, k);
    }
    if k :| 0 < k <= |v| && (v[k - 1] == '_' || v[k - 1] == '.' || v[k - 1] == '/') && WordStarts(v, p, k) {
      assert Separator(v[k - 1]) && p <= WordAt(v, k - 1 + 1);
    }
    hide WordAt, WordStarts;
  }

  /** The candidates a child contributes. */
  ghost predicate IsCandidate(t: Tree, values: Id -> seq<string>, c: Id, partial: string, r: Ranked)
    requires c < |t.nodes|
  {
    var node := t.nodes[c];
    if node.kind.Literal? then
      Match(node.name, partial, t.lower) >= 0
      && r == Ranked(Match(node.name, partial, t.lower), 0, node.name, Suggestion(node.name, LiteralText))
    else exists j :: 0 <= j < |values(c)| && IsValue(t, values(c)[j], partial, r)
  }

  ghost predicate IsValue(t: Tree, v: string, partial: string, r: Ranked) {
    var m := Match(v, partial, t.lower);
    m >= 0 && r == Ranked(m, 1, t.lower(v), Suggestion(v, ValueText))
  }

  ghost predicate Offered(t: Tree, values: Id -> seq<string>, done: seq<string>, partial: string, r: Ranked)
    requires ValidTree(t)
  {
    exists n: Id :: Reachable(t, done, Place(n, |done|)) && FromNode(t, values, n, partial, r)
  }

  ghost predicate FromNode(t: Tree, values: Id -> seq<string>, n: Id, partial: string, r: Ranked)
    requires ValidTree(t)
  {
    n < |t.nodes| && exists c :: c in Kids(t, n) && IsCandidate(t, values, c, partial, r)
  }

  function HintFor(t: Tree, c: Id): Suggestion
    requires c < |t.nodes|
  {
    Suggestion("<" + t.nodes[c].name + ">", Hint)
  }

  /** An argument that may follow `n`. */
  ghost predicate TakesValue(t: Tree, n: Id, c: Id)
    requires ValidTree(t)
  {
    n < |t.nodes| && c in Kids(t, n) && !t.nodes[c].kind.Literal?
  }

  /** The finished words end in the middle of argument `c`, or `c` may come next. */
  ghost predicate Awaits(t: Tree, done: seq<string>, c: Id)
    requires ValidTree(t)
  {
    || (exists q :: Reachable(t, done, q) && StopsInside(t, done, q, c))
    || (exists n: Id :: Reachable(t, done, Place(n, |done|)) && TakesValue(t, n, c))
  }

  lemma AwaitedIsNode(t: Tree, done: seq<string>, c: Id)
    requires ValidTree(t) && Awaits(t, done, c)
    ensures c < |t.nodes|
  {
  }

  ghost predicate Hinted(t: Tree, done: seq<string>, h: Suggestion)
    requires ValidTree(t)
  {
    exists c: Id :: c < |t.nodes| && Awaits(t, done, c) && h == Suggestion("<" + t.nodes[c].name + ">", Hint)
  }

  method ChildCandidates(t: Tree, values: Id -> seq<string>, c: Id, partial: string) returns (ranked: seq<Ranked>)
    requires c < |t.nodes|
    ensures forall r :: r in ranked <==> IsCandidate(t, values, c, partial, r)
  {
    hide Match;
    ranked := [];
    var node := t.nodes[c];
    if node.kind.Literal? {
      var m := Match(node.name, partial, t.lower);
      if m >= 0 {
        ranked := [Ranked(m, 0, node.name, Suggestion(node.name, LiteralText))];
      }
      return;
    }
    var vs := values(c);
    for k := 0 to |vs|
      invariant forall r :: r in ranked <==> exists j :: 0 <= j < k && IsValue(t, vs[j], partial, r)
    {
      var v := vs[k];
      var m := Match(v, partial, t.lower);
      var here := Ranked(m, 1, t.lower(v), Suggestion(v, ValueText));
      assert forall r :: IsValue(t, v, partial, r) <==> m >= 0 && r == here;
      if m >= 0 {
        ranked := ranked + [here];
      }
    }
  }

  method NodeCandidates(t: Tree, values: Id -> seq<string>, n: Id, partial: string)
    returns (ranked: seq<Ranked>, hints: seq<Suggestion>)
    requires ValidTree(t) && n < |t.nodes|
    ensures forall r :: r in ranked <==> FromNode(t, values, n, partial, r)
    ensures forall h :: h in hints <==> exists c :: TakesValue(t, n, c) && h == HintFor(t, c)
  {
    ranked, hints := [], [];
    var kids := Kids(t, n);
    for k := 0 to |kids|
      invariant forall r ::
        r in ranked <==> exists c :: c in kids[..k] && c in kids && IsCandidate(t, values, c, partial, r)
      invariant forall h :: h in hints <==> exists c :: c in kids[..k] && TakesValue(t, n, c) && h == HintFor(t, c)
    {
      var c := kids[k];
      assert c in kids && kids[..k + 1] == kids[..k] + [c];
      var more := ChildCandidates(t, values, c, partial);
      ranked := ranked + more;
      if !t.nodes[c].kind.Literal? {
        hints := hints + [HintFor(t, c)];
      }
    }
    assert kids[..|kids|] == kids;
  }

  ghost predicate Shown(shown: seq<Ranked>, text: string) {
    exists k :: 0 <= k < |shown| && shown[k].item.text == text
  }

  /** `r` itself or a candidate with the same text and no worse key is shown. */
  ghost predicate Covered(shown: seq<Ranked>, partial: string, r: Ranked, le: (Ranked, Ranked) -> bool) {
    r.item.text == partial ||
    exists k :: 0 <= k < |shown| && shown[k].item.text == r.item.text && (shown[k] == r || le(shown[k], r))
  }

  lemma CoveredAppend(shown: seq<Ranked>, s: Ranked, partial: string, r: Ranked, le: (Ranked, Ranked) -> bool)
    requires Covered(shown, partial, r, le) || r == s
    ensures Covered(shown + [s], partial, r, le)
  {
    var longer := shown + [s];
    if r == s {
      assert longer[|shown|] == s;
    } else if r.item.text != partial {
      var k :| 0 <= k < |shown| && shown[k].item.text == r.item.text && (shown[k] == r || le(shown[k], r));
      assert longer[k] == shown[k];
    }
  }

  /** Everything shown may stand in front of the candidates from `i` on. */
  ghost predicate Ahead(shown: seq<Ranked>, sorted: seq<Ranked>, i: nat, le: (Ranked, Ranked) -> bool) {
    && OrderedBy(shown, le)
    && forall k, j | 0 <= k < |shown| && i <= j < |sorted| :: le(shown[k], sorted[j])
  }

  lemma AheadAppend(shown: seq<Ranked>, sorted: seq<Ranked>, i: nat, le: (Ranked, Ranked) -> bool)
    requires OrderedBy(sorted, le) && i < |sorted| && Ahead(shown, sorted, i, le)
    ensures Ahead(shown, sorted, i + 1, le) && Ahead(shown + [sorted[i]], sorted, i + 1, le)
  {
  }

  lemma CoveredByShown(shown: seq<Ranked>, sorted: seq<Ranked>, i: nat, partial: string, le: (Ranked, Ranked) -> bool)
    requires i < |sorted| && Ahead(shown, sorted, i, le)
    requires sorted[i].item.text == partial || Shown(shown, sorted[i].item.text)
    ensures Covered(shown, partial, sorted[i], le)
  {
  }

  /** What is shown so far, with the texts seen. */
  ghost predicate ShownOnce(shown: seq<Ranked>, sorted: seq<Ranked>, partial: string, seen: set<string>) {
    && (forall k | 0 <= k < |shown| :: shown[k] in sorted && shown[k].item.text != partial)
    && (forall k, j | 0 <= k < j < |shown| :: shown[k].item.text != shown[j].item.text)
    && forall x :: x in seen <==> Shown(shown, x)
  }

  lemma ShownOnceAppend(shown: seq<Ranked>, sorted: seq<Ranked>, partial: string, seen: set<string>, s: Ranked)
    requires ShownOnce(shown, sorted, partial, seen)
    requires s in sorted && s.item.text !in seen && s.item.text != partial
    ensures ShownOnce(shown + [s], sorted, partial, seen + {s.item.text})
  {
    var longer := shown + [s];
    assert forall k | 0 <= k < |shown| :: longer[k] == shown[k] && Shown(shown, shown[k].item.text);
    ShownAppend(shown, s);
    assert forall x | Shown(longer, x) :: Shown(shown, x) || x == s.item.text;
  }

  /** The sorted candidates without repeats and without what is already typed. */
  method Distinct(sorted: seq<Ranked>, partial: string, ghost le: (Ranked, Ranked) -> bool) returns (shown: seq<Ranked>)
    requires OrderedBy(sorted, le)
    ensures OrderedBy(shown, le) && forall r | r in shown :: r in sorted && r.item.text != partial
    ensures forall i, j | 0 <= i < j < |shown| :: shown[i].item.text != shown[j].item.text
    ensures forall r | r in sorted :: Covered(shown, partial, r, le)
  {
    shown := [];
    var seen: set<string> := {};
    assert Ahead(shown, sorted, 0, le) && ShownOnce(shown, sorted, partial, seen);
    hide *;
    for i := 0 to |sorted|
      invariant Ahead(shown, sorted, i, le) && ShownOnce(shown, sorted, partial, seen)
      invariant forall j | 0 <= j < i :: Covered(shown, partial, sorted[j], le)
    {
      var s := sorted[i];
      AheadAppend(shown, sorted, i, le);
      if s.item.text !in seen && s.item.text != partial {
        forall j | 0 <= j <= i
          ensures Covered(shown + [s], partial, sorted[j], le)
        {
          CoveredAppend(shown, s, partial, sorted[j], le);
        }
        ShownOnceAppend(shown, sorted, partial, seen, s);
        seen := seen + {s.item.text};
        shown := shown + [s];
      } else {
        SeenIsShown(shown, sorted, partial, seen, s.item.text);
        CoveredByShown(shown, sorted, i, partial, le);
      }
    }
    AheadIsOrdered(shown, sorted, le);
    ShownOnceIs(shown, sorted, partial, seen);
  }

  lemma SeenIsShown(shown: seq<Ranked>, sorted: seq<Ranked>, partial: string, seen: set<string>, text: string)
    requires ShownOnce(shown, sorted, partial, seen)
    ensures text in seen <==> Shown(shown, text)
  {
  }

  lemma ShownOnceIs(shown: seq<Ranked>, sorted: seq<Ranked>, partial: string, seen: set<string>)
    requires ShownOnce(shown, sorted, partial, seen)
    ensures forall r | r in shown :: r in sorted && r.item.text != partial
    ensures forall i, j | 0 <= i < j < |shown| :: shown[i].item.text != shown[j].item.text
  {
  }

  lemma AheadIsOrdered(shown: seq<Ranked>, sorted: seq<Ranked>, le: (Ranked, Ranked) -> bool)
    requires Ahead(shown, sorted, |sorted|, le)
    ensures OrderedBy(shown, le)
  {
  }

  lemma ShownAppend(shown: seq<Ranked>, s: Ranked)
    ensures Shown(shown + [s], s.item.text) && forall x | Shown(shown, x) :: Shown(shown + [s], x)
  {
    assert (shown + [s])[|shown|] == s;
    forall x | Shown(shown, x)
      ensures Shown(shown + [s], x)
    {
      var k :| 0 <= k < |shown| && shown[k].item.text == x;
      assert (shown + [s])[k] == shown[k];
    }
  }

  // ------------------------------------------------------------ soundness

  /** Typing one more word does not change where the earlier ones lead. */
  lemma WalkIsStable(t: Tree, done: seq<string>, word: string, q: Place)
    requires ValidTree(t) && Reachable(t, done, q)
    ensures Reachable(t, done + [word], q)
  {
    var p: seq<Place> :| IsPath(t, done, p) && p[|p| - 1] == q;
    var longer := done + [word];
    forall k | 0 <= k < |p| - 1
      ensures Step(t, longer, p[k], p[k + 1])
    {
      StepIsStable(t, done, word, p[k], p[k + 1]);
    }
    assert IsPath(t, longer, p);
  }

  lemma StepIsStable(t: Tree, done: seq<string>, word: string, q: Place, r: Place)
    requires ValidTree(t) && Step(t, done, q, r)
    ensures Step(t, done + [word], q, r)
  {
    var longer := done + [word];
    assert longer[q.index] == done[q.index];
    if LiteralFor(t, Kids(t, q.node), done[q.index]).None? {
      assert longer[q.index..r.index] == done[q.index..r.index];
    }
  }

  lemma {:induction false} GetFinds(t: Tree, children: seq<Id>, c: Id)
    requires forall d | d in children :: d < |t.nodes|
    requires c in children && forall d | d in children && t.nodes[d].name == t.nodes[c].name :: d == c
    ensures Get(t, children, t.nodes[c].name) == Some(c)
  {
  }

  predicate IsLiteral(t: Tree, c: Id, name: string) {
    c < |t.nodes| && t.nodes[c].kind.Literal? && t.nodes[c].name == name
  }

  /** A literal that is offered is reached behind the finished words. */
  lemma OfferedWordIsReached(t: Tree, values: Id -> seq<string>, done: seq<string>, partial: string, r: Ranked)
    requires ValidTree(t) && Offered(t, values, done, partial, r) && r.item.kind.LiteralText?
    ensures exists c: Id :: IsLiteral(t, c, r.item.text) && Reachable(t, done + [r.item.text], Place(c, |done| + 1))
  {
    hide Match, Get, KidsOwner, ReadsAs, Reachable;
    var n: Id :| Reachable(t, done, Place(n, |done|)) && FromNode(t, values, n, partial, r);
    var c: Id :| c in Kids(t, n) && IsCandidate(t, values, c, partial, r);
    var words := done + [r.item.text];
    WalkIsStable(t, done, r.item.text, Place(n, |done|));
    GetFinds(t, Kids(t, n), c);
    assert words[|done|] == t.nodes[c].name;
    assert Step(t, words, Place(n, |done|), Place(c, |done| + 1));
    ReachStep(t, words, Place(n, |done|), Place(c, |done| + 1));
    assert IsLiteral(t, c, r.item.text);
  }

  lemma LiteralStep(t: Tree, words: seq<string>, q: Place, c: Id, i: nat)
    requires ValidTree(t) && Step(t, words, q, Place(c, i)) && c < |t.nodes| && t.nodes[c].kind.Literal?
    ensures i == q.index + 1 <= |words|
    ensures t.nodes[c].name == words[q.index] || t.nodes[c].name == t.lower(words[q.index])
  {
    hide KidsOwner;
  }

  /** A literal is only reached by its name, in lower case perhaps. */
  lemma ReachedLiteralIsWord(t: Tree, words: seq<string>, c: Id, name: string)
    requires ValidTree(t) && IsLiteral(t, c, name) && words != [] && Reachable(t, words, Place(c, |words|))
    ensures name == LastOf(words) || name == t.lower(LastOf(words))
  {
    var p: seq<Place> :| IsPath(t, words, p) && p[|p| - 1] == Place(c, |words|);
    hide Step;
    assert |p| > 1;
    assert Step(t, words, p[|p| - 2], p[|p| - 2 + 1]);
    LiteralStep(t, words, p[|p| - 2], c, |words|);
  }

  lemma NotOneWordIsNotReached(t: Tree, line: string, space: char -> bool, c: Id, text: string)
    requires ValidTree(t) && KeepsWords(t.lower) && IsLiteral(t, c, text) && !IsOneWord(Front(line, space), text, space)
    ensures var words := Words(Front(line, space) + text, space); !Reachable(t, words, Place(c, |words|))
  {
    var completed := Front(line, space) + text;
    var words := Words(completed, space);
    NotOneWordIsNotLast(line, text, space, t.lower);
    LastOfAppend(words, Typed(completed, space).0, Typed(completed, space).1);
    hide Words, Front, Typed, Reachable, ValidTree;
    if Reachable(t, words, Place(c, |words|)) { ReachedLiteralIsWord(t, words, c, text); }
  }

  /** Some literal of this name is reached by all the words of a line. */
  ghost predicate Reaches(t: Tree, line: string, space: char -> bool, name: string)
    requires ValidTree(t)
  {
    var words := Words(line, space);
    exists c: Id :: IsLiteral(t, c, name) && Reachable(t, words, Place(c, |words|))
  }

  /** A literal that is offered, put in place of the partial word, gives a line
      that is read back as such, and whose walk reaches that literal, if its text can
      be taken for one word there; and only if, where lower-casing keeps words. */
  lemma OfferedLiteralIsReached(t: Tree, values: Id -> seq<string>, line: string, space: char -> bool, r: Ranked)
    requires ValidTree(t) && r.item.kind.LiteralText?
    requires Offered(t, values, Typed(line, space).0, Typed(line, space).1, r)
    ensures var front := Front(line, space);
      var completed := front + r.item.text;
      && (Typed(completed, space) == (Typed(line, space).0, r.item.text) <==> IsOneWord(front, r.item.text, space))
      && (IsOneWord(front, r.item.text, space) ==> Reaches(t, completed, space, r.item.text))
      && (KeepsWords(t.lower) ==> (IsOneWord(front, r.item.text, space) <==> Reaches(t, completed, space, r.item.text)))
  {
    hide Typed, Front, Reachable, Offered, IsLiteral, IsOneWord, KeepsWords;
    WordIsReadBackIff(line, r.item.text, space);
    OfferedWordIsReached(t, values, Typed(line, space).0, Typed(line, space).1, r);
    if KeepsWords(t.lower) && !IsOneWord(Front(line, space), r.item.text, space) {
      forall c: Id | IsLiteral(t, c, r.item.text)
        ensures var words := Words(Front(line, space) + r.item.text, space); !Reachable(t, words, Place(c, |words|))
      {
        NotOneWordIsNotReached(t, line, space, c, r.item.text);
      }
    }
  }

  /** A literal that is not one word: offered on the empty line, its slash is
      stripped from the completed line, and the walk does not reach it. */
  lemma SlashedLiteralIsMissed(space: char -> bool)
    requires !space('/')
    ensures var t := SlashedTree(); var r := Ranked(0, 0, "/wand", Suggestion("/wand", LiteralText));
      && ValidTree(t) && Typed("", space) == ([], "") && Words("/wand", space) == ["wand"]
      && Offered(t, (c: Id) => [], [], "", r)
      && forall c: Id :: IsLiteral(t, c, "/wand") ==> !Reachable(t, ["wand"], Place(c, 1))
  {
    var t := SlashedTree();
    SlashedTreeIs();
    assert "/wand" == "/" + "wand" && [] + ["wand"] == ["wand"];
    SlashIsStripped("/wand", "wand", space);
    hide Typed, SlashedTree, Reachable, IsLiteral, Offered;
    SlashedTreeOffers(t);
    forall c: Id | IsLiteral(t, c, "/wand")
      ensures !Reachable(t, ["wand"], Place(c, 1))
    {
      SlashedTreeMisses(t, c);
    }
  }

  /** A root with one literal below it. */
  ghost predicate IsSlashed(t: Tree) {
    && |t.nodes| == 2 && t.nodes[0].kind.Root? && t.nodes[0].redirect.None?
    && t.nodes[0].children == [1] && t.nodes[1].children == []
    && t.nodes[1].kind.Literal? && t.nodes[1].name == "/wand" && t.lower("wand") == "wand"
  }

  lemma SlashedTreeIs()
    ensures IsSlashed(SlashedTree())
  {
  }

  lemma SlashedTreeOffers(t: Tree)
    requires IsSlashed(t)
    ensures ValidTree(t)
    ensures Offered(t, (c: Id) => [], [], "", Ranked(0, 0, "/wand", Suggestion("/wand", LiteralText)))
  {
    assert forall n, c | 0 <= n < |t.nodes| && c in t.nodes[n].children :: c == 1;
    assert ValidTree(t);
    hide ValidTree;
    var values := (c: Id) => [];
    var r := Ranked(0, 0, "/wand", Suggestion("/wand", LiteralText));
    ReachRoot(t, []);
    assert KidsOwner(t, 0) == 0 && 1 in Kids(t, 0);
    assert IsCandidate(t, values, 1, "", r);
    assert FromNode(t, values, 0, "", r);
  }

  lemma SlashedTreeMisses(t: Tree, c: Id)
    requires IsSlashed(t) && ValidTree(t) && IsLiteral(t, c, "/wand")
    ensures !Reachable(t, ["wand"], Place(c, 1))
  {
    assert "/wand"[0] != "wand"[0];
    if Reachable(t, ["wand"], Place(c, 1)) { ReachedLiteralIsWord(t, ["wand"], c, "/wand"); }
  }

  function SlashedTree(): Tree {
    Tree([Node("", Root, [1], false, "", false, None), Node("/wand", Literal, [], true, "", false, None)],
      (parser, word) => true, word => word)
  }

  // -------------------------------------------------------------- suggest

  /** All candidates for a partial word, unsorted, and the hints. */
  method Gather(t: Tree, values: Id -> seq<string>, done: seq<string>, partial: string)
    returns (ranked: seq<Ranked>, hints: seq<Suggestion>)
    requires ValidTree(t)
    ensures forall r :: r in ranked <==> Offered(t, values, done, partial, r)
    ensures forall h :: h in hints <==> Hinted(t, done, h)
  {
    hide FromNode, Reachable, StopsInside, TakesValue;
    var ends, inside, _ := Walk(t, done);
    ranked, hints := [], [];
    for k := 0 to |inside|
      invariant forall h ::
        h in hints <==> exists j :: 0 <= j < k && inside[j] < |t.nodes| && h == HintFor(t, inside[j])
    {
      assert inside[k] in inside;
      AwaitedIsNode(t, done, inside[k]);
      hints := hints + [HintFor(t, inside[k])];
    }
    ghost var within := hints;
    for k := 0 to |ends|
      invariant forall r :: r in ranked <==> exists j :: 0 <= j < k && FromNode(t, values, ends[j], partial, r)
      invariant forall h :: h in hints <==> h in within || exists j :: 0 <= j < k && NextHint(t, ends[j], h)
    {
      assert ends[k] in ends;
      var more, asides := NodeCandidates(t, values, ends[k], partial);
      NextHintsAre(t, ends[k]);
      ranked := ranked + more;
      hints := hints + asides;
    }
    forall r
      ensures r in ranked <==> Offered(t, values, done, partial, r)
    {
      if Offered(t, values, done, partial, r) {
        var n: Id :| Reachable(t, done, Place(n, |done|)) && FromNode(t, values, n, partial, r);
        assert n in ends;
        var j :| 0 <= j < |ends| && ends[j] == n;
        assert FromNode(t, values, ends[j], partial, r);
      }
      if r in ranked {
        var j :| 0 <= j < |ends| && FromNode(t, values, ends[j], partial, r);
        assert ends[j] in ends;
      }
    }
    forall h
      ensures h in hints <==> Hinted(t, done, h)
    {
      HintsAreAwaited(t, done, ends, inside, h);
    }
  }

  ghost predicate NextHint(t: Tree, n: Id, h: Suggestion)
    requires ValidTree(t)
  {
    exists c: Id :: c < |t.nodes| && TakesValue(t, n, c) && h == HintFor(t, c)
  }

  lemma NextHintsAre(t: Tree, n: Id)
    requires ValidTree(t)
    ensures forall h :: NextHint(t, n, h) <==> exists c :: TakesValue(t, n, c) && h == HintFor(t, c)
  {
  }

  /** The hints collected from both ends of the walk are those the words await. */
  lemma HintsAreAwaited(t: Tree, done: seq<string>, ends: seq<Id>, inside: seq<Id>, h: Suggestion)
    requires ValidTree(t)
    requires forall n :: n in ends <==> Reachable(t, done, Place(n, |done|))
    requires forall c :: c in inside <==> exists q :: Reachable(t, done, q) && StopsInside(t, done, q, c)
    ensures Hinted(t, done, h) <==>
      || (exists j :: 0 <= j < |inside| && inside[j] < |t.nodes| && h == HintFor(t, inside[j]))
      || (exists j :: 0 <= j < |ends| && NextHint(t, ends[j], h))
  {
    hide Reachable, StopsInside, TakesValue;
    if Hinted(t, done, h) {
      var c: Id :| c < |t.nodes| && Awaits(t, done, c) && h == HintFor(t, c);
      if c in inside {
        var j :| 0 <= j < |inside| && inside[j] == c;
      } else {
        var n: Id :| Reachable(t, done, Place(n, |done|)) && TakesValue(t, n, c);
        assert n in ends;
        var j :| 0 <= j < |ends| && ends[j] == n;
        assert NextHint(t, ends[j], h);
      }
    }
    if j :| 0 <= j < |inside| && inside[j] < |t.nodes| && h == HintFor(t, inside[j]) {
      assert inside[j] in inside && Awaits(t, done, inside[j]);
    } else if j :| 0 <= j < |ends| && NextHint(t, ends[j], h) {
      var c: Id :| c < |t.nodes| && TakesValue(t, ends[j], c) && h == HintFor(t, c);
      assert ends[j] in ends && Awaits(t, done, c);
    }
  }

  /** The offset of the word being completed and its candidates: at most fifty
      to insert, best first, then hints that are not meant to be inserted.
      `shown` gives the candidates behind the first items. */
  method Suggest(t: Tree, line: string, space: char -> bool, values: Id -> seq<string>)
    returns (start: nat, items: seq<Suggestion>, ghost shown: seq<Ranked>)
    requires ValidTree(t)
    ensures start <= |line| && line[start..] == Typed(line, space).1
    ensures |shown| <= 50 && |shown| <= |items| && Ordered(shown)
    ensures var (done, partial) := Typed(line, space);
      forall i, j | 0 <= i < j < |shown| :: NoWorse(items[i], items[j], partial, t.lower)
    ensures var (done, partial) := Typed(line, space);
      forall k | 0 <= k < |shown| :: items[k] == shown[k].item && Offered(t, values, done, partial, shown[k])
    ensures var (done, partial) := Typed(line, space);
      forall k | |shown| <= k < |items| ::
        Hinted(t, done, items[k]) && !OffersText(t, values, done, partial, items[k].text)
    ensures var (done, partial) := Typed(line, space);
      forall h | Hinted(t, done, h) :: HasText(items, h.text) || OffersText(t, values, done, partial, h.text)
    ensures forall i, j | 0 <= i < j < |items| :: items[i].text != items[j].text
    ensures var (done, partial) := Typed(line, space);
      forall r | Offered(t, values, done, partial, r) ::
        && ShownOrWorse(shown, partial, r)
        && (|shown| < 50 ==> r.item.text == partial || HasText(items, r.item.text))
  {
    hide *;
    var (done, partial) := Typed(line, space);
    EndsWithIs(line, partial);
    start := |line| - |partial|;
    var ranked, hints := Gather(t, values, done, partial);
    items, shown := Present(Sort(ranked, KeyLe), ranked, partial, hints);
    OfferedTexts(t, values, done, partial, ranked);
    ShownInOrder(t, values, done, partial, shown, items);
    if |shown| < 50 {
      forall r | Offered(t, values, done, partial, r)
        ensures r.item.text == partial || HasText(items, r.item.text)
      {
        AllShown(shown, items, partial, r);
      }
    }
  }

  /** `a` may stand in front of `b`: it matches better, or as well and it is a literal and
      `b` a value, or both are the same and in the order of their texts, values in
      lower case. */
  ghost predicate NoWorse(a: Suggestion, b: Suggestion, partial: string, lower: string -> string) {
    var m, n := Match(a.text, partial, lower), Match(b.text, partial, lower);
    m < n || (m == n &&
      if a.kind == b.kind then
        (if a.kind.LiteralText? then StringLe(a.text, b.text) else StringLe(lower(a.text), lower(b.text)))
      else a.kind.LiteralText?)
  }

  lemma OfferedKey(t: Tree, values: Id -> seq<string>, done: seq<string>, partial: string, r: Ranked)
    requires ValidTree(t) && Offered(t, values, done, partial, r)
    ensures r.rank == Match(r.item.text, partial, t.lower) && !r.item.kind.Hint?
    ensures if r.item.kind.LiteralText? then r.group == 0 && r.key == r.item.text
      else r.group == 1 && r.key == t.lower(r.item.text)
  {
    hide Match, Kids, Reachable;
  }

  /** Candidates in the order of their keys are in the order of what they show. */
  lemma ShownInOrder(
      t: Tree, values: Id -> seq<string>, done: seq<string>, partial: string,
      shown: seq<Ranked>, items: seq<Suggestion>)
    requires ValidTree(t) && Ordered(shown) && |shown| <= |items|
    requires forall k | 0 <= k < |shown| :: items[k] == shown[k].item && Offered(t, values, done, partial, shown[k])
    ensures forall i, j | 0 <= i < j < |shown| :: NoWorse(items[i], items[j], partial, t.lower)
    ensures forall k | 0 <= k < |shown| :: !items[k].kind.Hint?
  {
    forall k | 0 <= k < |shown|
      ensures !items[k].kind.Hint?
    {
      OfferedKey(t, values, done, partial, shown[k]);
    }
    forall i, j | 0 <= i < j < |shown|
      ensures NoWorse(items[i], items[j], partial, t.lower)
    {
      OfferedKey(t, values, done, partial, shown[i]);
      OfferedKey(t, values, done, partial, shown[j]);
      assert KeyLe(shown[i], shown[j]);
    }
    hide Offered, Match, StringLe;
  }

  /** Nothing is missing while there is room. */
  lemma AllShown(shown: seq<Ranked>, items: seq<Suggestion>, partial: string, r: Ranked)
    requires ShownOrWorse(shown, partial, r) && |shown| <= |items| && |shown| < 50
    requires forall k | 0 <= k < |shown| :: items[k] == shown[k].item
    ensures r.item.text == partial || HasText(items, r.item.text)
  {
  }

  /** A candidate has this text, and it is not what is typed already. */
  ghost predicate OffersText(t: Tree, values: Id -> seq<string>, done: seq<string>, partial: string, text: string)
    requires ValidTree(t)
  {
    text != partial && exists r :: Offered(t, values, done, partial, r) && r.item.text == text
  }

  ghost predicate TextAmong(ranked: seq<Ranked>, partial: string, text: string) {
    text != partial && exists r :: r in ranked && r.item.text == text
  }

  lemma OfferedTexts(t: Tree, values: Id -> seq<string>, done: seq<string>, partial: string, ranked: seq<Ranked>)
    requires ValidTree(t) && forall r :: r in ranked <==> Offered(t, values, done, partial, r)
    ensures forall text :: TextAmong(ranked, partial, text) <==> OffersText(t, values, done, partial, text)
  {
    hide Offered;
  }

  ghost predicate ShownOrWorse(shown: seq<Ranked>, partial: string, r: Ranked) {
    Covered(shown, partial, r, KeyLe) || (|shown| == MAX_ITEMS && forall k | 0 <= k < |shown| :: KeyLe(shown[k], r))
  }

  method Present(sorted: seq<Ranked>, ghost ranked: seq<Ranked>, partial: string, hints: seq<Suggestion>)
    returns (items: seq<Suggestion>, ghost shown: seq<Ranked>)
    requires sorted == Sort(ranked, KeyLe)
    ensures |shown| <= 50 && |shown| <= |items| && Ordered(shown)
    ensures forall k | 0 <= k < |shown| :: items[k] == shown[k].item && shown[k] in ranked
    ensures forall k | |shown| <= k < |items| :: items[k] in hints && !TextAmong(ranked, partial, items[k].text)
    ensures forall h | h in hints :: HasText(items, h.text) || TextAmong(ranked, partial, h.text)
    ensures forall i, j | 0 <= i < j < |items| :: items[i].text != items[j].text
    ensures forall r | r in ranked :: ShownOrWorse(shown, partial, r)
  {
    hide KeyLe, Sort, Covered;
    KeyLeIsOrder();
    SortIsOrdered(ranked, KeyLe);
    SortKeepsElements(ranked, KeyLe);
    var all := Distinct(sorted, partial, KeyLe);
    var top := if |all| <= MAX_ITEMS then all else all[..MAX_ITEMS];
    shown := top;
    items := AddHints(all, top, hints);
    AllTexts(all, ranked, partial);
    forall k | 0 <= k < |top|
      ensures top[k] in ranked
    {
      assert top[k] == all[k] && all[k] in all;
    }
    forall r | r in ranked
      ensures ShownOrWorse(top, partial, r)
    {
      CutKeepsBest(all, top, partial, r);
    }
  }

  lemma AllTexts(all: seq<Ranked>, ranked: seq<Ranked>, partial: string)
    requires forall r | r in all :: r in ranked && r.item.text != partial
    requires forall r | r in ranked :: Covered(all, partial, r, KeyLe)
    ensures forall text :: Shown(all, text) <==> TextAmong(ranked, partial, text)
  {
    hide KeyLe;
    forall text | Shown(all, text)
      ensures TextAmong(ranked, partial, text)
    {
      var k :| 0 <= k < |all| && all[k].item.text == text;
      assert all[k] in all;
    }
  }

  /** What the cut removes is no better than anything it keeps. */
  lemma CutKeepsBest(all: seq<Ranked>, top: seq<Ranked>, partial: string, r: Ranked)
    requires Ordered(all) && Covered(all, partial, r, KeyLe)
    requires top == if |all| <= MAX_ITEMS then all else all[..MAX_ITEMS]
    ensures ShownOrWorse(top, partial, r)
  {
    if r.item.text != partial {
      var m :| 0 <= m < |all| && all[m].item.text == r.item.text && (all[m] == r || KeyLe(all[m], r));
      if m < |top| {
        assert top[m] == all[m];
      } else {
        forall k | 0 <= k < |top|
          ensures KeyLe(top[k], r)
        {
          assert KeyLe(all[k], all[m]);
          if all[m] != r { KeyLeTransitive(all[k], all[m], r); }
        }
      }
    }
  }

  ghost predicate HasText(items: seq<Suggestion>, text: string) {
    exists k :: 0 <= k < |items| && items[k].text == text
  }

  lemma HasTextAppend(items: seq<Suggestion>, s: Suggestion)
    ensures forall x :: HasText(items + [s], x) <==> HasText(items, x) || x == s.text
  {
    forall x
      ensures HasText(items + [s], x) <==> HasText(items, x) || x == s.text
    {
      if HasText(items, x) {
        var k :| 0 <= k < |items| && items[k].text == x;
        assert (items + [s])[k].text == x;
      }
      assert (items + [s])[|items|] == s;
    }
  }

  /** The texts of the first `i` candidates have been seen. */
  ghost predicate SeenTexts(all: seq<Ranked>, i: nat, seen: set<string>)
    requires i <= |all|
  {
    (forall k | 0 <= k < i :: all[k].item.text in seen) && forall x | x in seen :: Shown(all, x)
  }

  ghost predicate Unlike(items: seq<Suggestion>) {
    forall a, b | 0 <= a < b < |items| :: items[a].text != items[b].text
  }

  /** Behind the candidates only hints, and of no candidate's text. */
  ghost predicate HintsBehind(items: seq<Suggestion>, all: seq<Ranked>, top: seq<Ranked>, hints: seq<Suggestion>) {
    && |items| >= |top| && (forall k | 0 <= k < |top| :: items[k] == top[k].item)
    && forall k | |top| <= k < |items| :: items[k] in hints && !Shown(all, items[k].text)
  }

  /** What counts as seen: what is listed, and every candidate's text. */
  ghost predicate SeenIs(items: seq<Suggestion>, all: seq<Ranked>, seen: set<string>) {
    forall x :: x in seen <==> HasText(items, x) || Shown(all, x)
  }

  lemma HintTaken(
      items: seq<Suggestion>, all: seq<Ranked>, top: seq<Ranked>, hints: seq<Suggestion>, seen: set<string>,
      h: Suggestion)
    requires HintsBehind(items, all, top, hints) && Unlike(items) && SeenIs(items, all, seen)
    requires h in hints && h.text !in seen
    ensures HintsBehind(items + [h], all, top, hints) && Unlike(items + [h])
    ensures SeenIs(items + [h], all, seen + {h.text})
  {
    HasTextAppend(items, h);
    assert forall k | 0 <= k < |items| :: HasText(items, items[k].text);
    hide Shown;
  }

  lemma CandidatesListed(
      all: seq<Ranked>, top: seq<Ranked>, items: seq<Suggestion>, hints: seq<Suggestion>, seen: set<string>)
    requires top <= all && forall i, j | 0 <= i < j < |all| :: all[i].item.text != all[j].item.text
    requires |items| == |top| && (forall k | 0 <= k < |items| :: items[k] == top[k].item) && SeenTexts(all, |all|, seen)
    ensures HintsBehind(items, all, top, hints) && Unlike(items) && SeenIs(items, all, seen)
  {
    assert forall k | 0 <= k < |items| :: items[k] == all[k].item;
  }

  /** The candidates that are left after the cut, then every hint whose text no
      candidate has, be it cut or not; a text once. */
  method AddHints(all: seq<Ranked>, top: seq<Ranked>, hints: seq<Suggestion>) returns (items: seq<Suggestion>)
    requires top <= all && forall i, j | 0 <= i < j < |all| :: all[i].item.text != all[j].item.text
    ensures |items| >= |top| && forall k | 0 <= k < |top| :: items[k] == top[k].item
    ensures forall k | |top| <= k < |items| :: items[k] in hints && !Shown(all, items[k].text)
    ensures forall i, j | 0 <= i < j < |items| :: items[i].text != items[j].text
    ensures forall h | h in hints :: HasText(items, h.text) || Shown(all, h.text)
  {
    items := [];
    var seen: set<string> := {};
    for i := 0 to |all|
      invariant |items| == (if i <= |top| then i else |top|) && forall k | 0 <= k < |items| :: items[k] == top[k].item
      invariant SeenTexts(all, i, seen)
    {
      seen := seen + {all[i].item.text};
      if i < |top| {
        items := items + [all[i].item];
      }
    }
    CandidatesListed(all, top, items, hints, seen);
    items := AddUnseen(all, top, hints, items, seen);
  }

  method AddUnseen(
      ghost all: seq<Ranked>, ghost top: seq<Ranked>, hints: seq<Suggestion>,
      listed: seq<Suggestion>, texts: set<string>)
    returns (items: seq<Suggestion>)
    requires HintsBehind(listed, all, top, hints) && Unlike(listed) && SeenIs(listed, all, texts)
    ensures HintsBehind(items, all, top, hints) && Unlike(items)
    ensures forall h | h in hints :: HasText(items, h.text) || Shown(all, h.text)
  {
    hide HintsBehind, Unlike, HasText, Shown;
    items := listed;
    var seen := texts;
    for i := 0 to |hints|
      invariant HintsBehind(items, all, top, hints) && Unlike(items) && SeenIs(items, all, seen)
      invariant forall j | 0 <= j < i :: hints[j].text in seen
    {
      if hints[i].text !in seen {
        HintTaken(items, all, top, hints, seen, hints[i]);
        seen := seen + {hints[i].text};
        items := items + [hints[i]];
      }
    }
  }
}
