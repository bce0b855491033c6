/** What several modules share: the order of strings, the ends of a string, a stable
    sort, and how the sizes of two sets compare. */
module Collections {

  /** The order of strings, character by character. */
  predicate StringLe(a: string, b: string) {
    a == [] || (b != [] && (a[0] < b[0] || (a[0] == b[0] && StringLe(a[1..], b[1..]))))
  }

  /** The first character in which two texts differ decides. */
  ghost predicate DiffersBelow(a: string, b: string, k: nat) {
    k < |a| && k < |b| && a[..k] == b[..k] && a[k] < b[k]
  }

  lemma {:induction false} StringLeIff(a: string, b: string)
    ensures StringLe(a, b) <==> a <= b || exists k: nat :: DiffersBelow(a, b, k)
  {
    if a != [] && b != [] && a[0] == b[0] {
      StringLeIff(a[1..], b[1..]);
      assert a == [a[0]] + a[1..] && b == [b[0]] + b[1..];
      forall k: nat
        ensures DiffersBelow(a[1..], b[1..], k) <==> DiffersBelow(a, b, k + 1)
      {
        DiffersOneLater(a, b, k);
      }
      assert !DiffersBelow(a, b, 0);
      hide DiffersBelow;
      assert forall k: nat | DiffersBelow(a, b, k) :: k > 0 && DiffersBelow(a[1..], b[1..], k - 1);
    } else if a != [] && b != [] {
      forall k: nat | DiffersBelow(a, b, k)
        ensures k == 0
      {
        SameStart(a, b, k);
      }
      assert a[0] < b[0] ==> DiffersBelow(a, b, 0);
    }
  }

  lemma SameStart(a: string, b: string, k: nat)
    requires a != [] && b != [] && DiffersBelow(a, b, k)
    ensures if k == 0 then a[0] < b[0] else a[0] == b[0]
  {
    if k > 0 { assert a[..k][0] == b[..k][0]; }
  }

  lemma DiffersOneLater(a: string, b: string, k: nat)
    requires a != [] && b != [] && a[0] == b[0]
    ensures DiffersBelow(a[1..], b[1..], k) <==> DiffersBelow(a, b, k + 1)
  {
    if k < |a| - 1 && k < |b| - 1 {
      assert a[..k + 1] == [a[0]] + a[1..][..k] && b[..k + 1] == [b[0]] + b[1..][..k];
      assert a[..k + 1][1..] == a[1..][..k] && b[..k + 1][1..] == b[1..][..k];
    }
  }

  lemma {:induction false} StringLeTotal(a: string, b: string)
    ensures StringLe(a, b) || StringLe(b, a)
  {
    if a != [] && b != [] && a[0] == b[0] { StringLeTotal(a[1..], b[1..]); }
  }

  lemma {:induction false} StringLeTransitive(a: string, b: string, c: string)
    requires StringLe(a, b) && StringLe(b, c)
    ensures StringLe(a, c)
  {
    if a != [] && a[0] == b[0] == c[0] { StringLeTransitive(a[1..], b[1..], c[1..]); }
  }

  lemma Reassociated<T>(a: seq<T>, b: seq<T>, c: seq<T>)
    ensures a + (b + c) == a + b + c
  {
  }

  predicate EndsWith(s: string, t: string) { |s| >= |t| && s[|s| - |t|..] == t }

  lemma EndsWithIs(s: string, t: string)
    requires EndsWith(s, t)
    ensures |t| <= |s| && s[|s| - |t|..] == t
  {
  }

  lemma EndsWithTransitive(a: string, b: string, c: string)
    requires EndsWith(a, b) && EndsWith(b, c)
    ensures EndsWith(a, c)
  {
    assert a[|a| - |c|..] == a[|a| - |b|..][|b| - |c|..];
  }

  ghost predicate IsOrder<T(!new)>(le: (T, T) -> bool) {
    && (forall a, b :: le(a, b) || le(b, a))
    && (forall a, b, c :: le(a, b) && le(b, c) ==> le(a, c))
  }

  ghost predicate OrderedBy<T>(s: seq<T>, le: (T, T) -> bool) {
    forall i, j | 0 <= i < j < |s| :: le(s[i], s[j])
  }

  /** Stable: an element goes behind its equals. */
  function Insert<T>(s: seq<T>, x: T, le: (T, T) -> bool): (r: seq<T>)
    ensures multiset(r) == multiset(s) + multiset{x}
  {
    if s == [] then [x]
    else if le(s[|s| - 1], x) then s + [x]
    else
      assert s == s[..|s| - 1] + [s[|s| - 1]];
      Insert(s[..|s| - 1], x, le) + [s[|s| - 1]]
  }

  function Sort<T>(s: seq<T>, le: (T, T) -> bool): (r: seq<T>)
    ensures multiset(r) == multiset(s)
  {
    if s == [] then []
    else
      assert s == s[..|s| - 1] + [s[|s| - 1]];
      Insert(Sort(s[..|s| - 1], le), s[|s| - 1], le)
  }

  lemma {:induction false} InsertKeepsOrder<T(!new)>(s: seq<T>, x: T, le: (T, T) -> bool)
    requires IsOrder(le) && OrderedBy(s, le)
    ensures OrderedBy(Insert(s, x, le), le)
  {
    if s != [] && !le(s[|s| - 1], x) {
      var front, last := s[..|s| - 1], s[|s| - 1];
      InsertKeepsOrder(front, x, le);
      var r := Insert(front, x, le);
      assert le(x, last);
      forall y | y in r
        ensures le(y, last)
      {
        assert y in multiset(r);
        assert y in front || y == x;
      }
      AppendKeepsOrder(r, last, le);
    } else if s != [] {
      forall y | y in s
        ensures le(y, x)
      {
        assert le(s[|s| - 1], x);
      }
      AppendKeepsOrder(s, x, le);
    }
  }

  lemma AppendKeepsOrder<T>(s: seq<T>, x: T, le: (T, T) -> bool)
    requires OrderedBy(s, le) && forall y | y in s :: le(y, x)
    ensures OrderedBy(s + [x], le)
  {
    assert forall i | 0 <= i < |s| :: s[i] in s;
  }

  lemma {:induction false} SortIsOrdered<T(!new)>(s: seq<T>, le: (T, T) -> bool)
    requires IsOrder(le)
    ensures OrderedBy(Sort(s, le), le)
  {
    if s != [] {
      SortIsOrdered(s[..|s| - 1], le);
      InsertKeepsOrder(Sort(s[..|s| - 1], le), s[|s| - 1], le);
    }
  }

  /** Cutting an ordered sequence splits its elements into smaller and greater. */
  lemma CutIsOrdered<T>(s: seq<T>, cut: nat, le: (T, T) -> bool)
    requires OrderedBy(s, le) && cut <= |s|
    ensures multiset(s[..cut]) + multiset(s[cut..]) == multiset(s)
    ensures forall a, b | a in s[..cut] && b in s[cut..] :: le(a, b)
  {
    assert s == s[..cut] + s[cut..];
    forall a, b | a in s[..cut] && b in s[cut..]
      ensures le(a, b)
    {
      var i :| 0 <= i < cut && s[i] == a;
      var j :| cut <= j < |s| && s[j] == b;
    }
  }

  lemma SortKeepsElements<T>(s: seq<T>, le: (T, T) -> bool)
    ensures |Sort(s, le)| == |s| && forall x :: x in Sort(s, le) <==> x in s
  {
    var r := Sort(s, le);
    assert |multiset(r)| == |multiset(s)|;
    assert forall x :: x in r <==> x in multiset(r);
  }

  lemma {:induction false} SubsetSize<T>(a: set<T>, b: set<T>)
    requires a <= b
    ensures |a| <= |b|
    decreases b
  {
    if a != {} {
      var x :| x in a;
      SubsetSize(a - {x}, b - {x});
    }
  }
}
