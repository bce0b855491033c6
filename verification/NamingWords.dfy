/** The letters and digits of a raw name and where they stand, the word they are spelled
    as, and that the passes of the code come to that word: lower case, runs of other
    characters as one dash, dashes collapsed, and what is stripped at both ends.  What
    is made of the word is in the module that follows. */
module NamingWords {
  import opened Naming

  ghost predicate Kept(c: char) { 'a' <= c <= 'z' || 'A' <= c <= 'Z' || '0' <= c <= '9' }

  /** Capitals as small letters. */
  ghost function Small(c: char): char {
    if 'A' <= c <= 'Z' then (c as int + 32) as char else c
  }

  /** The letters and digits of a text. */
  ghost function Letters(s: string): string {
    if s == [] then []
    else if Kept(s[0]) then [Small(s[0])] + Letters(s[1..])
    else Letters(s[1..])
  }

  /** Where letters and digits stand, from `i` on. */
  ghost function Places(s: string, i: nat): (at: seq<nat>)
    requires i <= |s|
    ensures forall j | 0 <= j < |at| :: at[j] < |s|
    decreases |s| - i
  {
    if i == |s| then []
    else if Kept(s[i]) then [i] + Places(s, i + 1)
    else Places(s, i + 1)
  }

  /** In ascending order, and all of them. */
  lemma {:induction false} PlacesAre(s: string, i: nat)
    requires i <= |s|
    ensures var at := Places(s, i);
      && (forall k :: k in at <==> i <= k < |s| && Kept(s[k]))
      && forall j | 0 <= j < |at| - 1 :: at[j] < at[j + 1]
    decreases |s| - i
  {
    if i < |s| {
      PlacesAre(s, i + 1);
      var rest := Places(s, i + 1);
      assert rest != [] ==> rest[0] in rest;
    }
  }

  /** The characters at the given places, with a dash between two that are not
      neighbours. */
  ghost function Spelled(s: string, at: seq<nat>): string
    requires forall j | 0 <= j < |at| :: at[j] < |s|
  {
    if at == [] then []
    else if |at| == 1 then [Small(s[at[0]])]
    else [Small(s[at[0]])] + (if at[1] == at[0] + 1 then [] else "-") + Spelled(s, at[1..])
  }

  /** The same, read from the front of the text. */
  ghost function Word(s: string): string {
    if s == [] then []
    else if !Kept(s[0]) then Word(s[1..])
    else if |s| > 1 && !Kept(s[1]) && Word(s[1..]) != [] then [Small(s[0])] + "-" + Word(s[1..])
    else [Small(s[0])] + Word(s[1..])
  }

  lemma WordFrom(s: string, i: nat)
    requires i < |s|
    ensures Word(s[i..]) ==
      if !Kept(s[i]) then Word(s[i + 1..])
      else if i + 1 < |s| && !Kept(s[i + 1]) && Word(s[i + 1..]) != [] then [Small(s[i])] + "-" + Word(s[i + 1..])
      else [Small(s[i])] + Word(s[i + 1..])
  {
    var t := s[i..];
    assert t[0] == s[i] && t[1..] == s[i + 1..] && (i + 1 < |s| ==> t[1] == s[i + 1]);
    hide Kept, Small;
  }

  lemma SpelledFrom(s: string, k: nat, rest: seq<nat>)
    requires k < |s| && forall j | 0 <= j < |rest| :: rest[j] < |s|
    ensures Spelled(s, [k] + rest) ==
      if rest == [] then [Small(s[k])]
      else [Small(s[k])] + (if rest[0] == k + 1 then [] else "-") + Spelled(s, rest)
  {
    assert ([k] + rest)[1..] == rest;
  }

  lemma NextPlace(s: string, i: nat)
    requires i <= |s|
    ensures var at := Places(s, i);
      && (at == [] <==> Spelled(s, at) == [])
      && (i < |s| && at != [] ==> (at[0] == i <==> Kept(s[i])))
  {
    PlacesAre(s, i);
    var at := Places(s, i);
    hide Kept, Small, Places;
    if at != [] {
      assert at[0] in at;
      if i < |s| && Kept(s[i]) {
        var j :| 0 <= j < |at| && at[j] == i;
        Ascends(at, j);
      }
    }
  }

  lemma {:induction false} Ascends(at: seq<nat>, j: nat)
    requires j < |at| && forall k | 0 <= k < |at| - 1 :: at[k] < at[k + 1]
    ensures at[0] <= at[j]
  {
    if j > 0 { Ascends(at, j - 1); }
  }

  lemma {:induction false} WordIsSpelled(s: string, i: nat)
    requires i <= |s|
    ensures Word(s[i..]) == Spelled(s, Places(s, i))
    decreases |s| - i
  {
    if i < |s| {
      var rest := Places(s, i + 1);
      WordIsSpelled(s, i + 1);
      assert Places(s, i) == if Kept(s[i]) then [i] + rest else rest;
      hide *;
      WordFrom(s, i);
      SpelledFrom(s, i, rest);
      NextPlace(s, i + 1);
    }
  }

  // ---------------------------------------------------- what the code does

  /** Each run of other characters as one dash. */
  ghost function Dashed(s: string): string {
    if s == [] then []
    else if Kept(s[0]) then [Small(s[0])] + Dashed(s[1..])
    else if |s| > 1 && !Kept(s[1]) then Dashed(s[1..])
    else ['-'] + Dashed(s[1..])
  }

  ghost function Plain(s: string): string { Underscored(Lower(s)) }

  lemma PlainOne(c: char)
    ensures var d := if LowerChar(c) == '_' then '-' else LowerChar(c);
      && (Kept(c) ==> d == Small(c) && IsNameChar(d) && d != '-')
      && (!Kept(c) && IsNameChar(d) ==> d == '-')
  {
  }

  lemma PlainRest(s: string)
    requires s != []
    ensures Plain(s) != [] && Plain(s)[1..] == Plain(s[1..])
    ensures Kept(s[0]) ==> Plain(s)[0] == Small(s[0]) && IsNameChar(Plain(s)[0]) && Plain(s)[0] != '-'
    ensures !Kept(s[0]) && IsNameChar(Plain(s)[0]) ==> Plain(s)[0] == '-'
  {
    PlainOne(s[0]);
  }

  lemma {:induction false} RunsStart(t: string)
    ensures (ReplaceRuns(t) == []) == (t == [])
    ensures t != [] ==> ReplaceRuns(t)[0] == if IsNameChar(t[0]) then t[0] else '-'
  {
    if t != [] { RunsStart(t[1..]); }
  }

  lemma CollapseMore(c: char, t: string)
    ensures Collapse([c] + t) == if c == '-' && t != [] && t[0] == '-' then Collapse(t) else [c] + Collapse(t)
  {
    assert ([c] + t)[1..] == t;
  }

  lemma {:induction false} CollapsedIsDashed(s: string)
    ensures Collapse(ReplaceRuns(Plain(s))) == Dashed(s)
  {
    if s != [] {
      var t, rest := Plain(s), Plain(s[1..]);
      PlainRest(s);
      if |s| > 1 { PlainRest(s[1..]); }
      RunsStart(rest);
      CollapsedIsDashed(s[1..]);
      CollapseMore(if IsNameChar(t[0]) then t[0] else '-', ReplaceRuns(rest));
      hide Collapse, Plain, Kept, IsNameChar, Small;
    }
  }

  lemma {:induction false} RStripMore(c: char, t: string)
    ensures RStrip([c] + t, Dash) == if RStrip(t, Dash) == [] && c == '-' then [] else [c] + RStrip(t, Dash)
  {
    var s := [c] + t;
    if t != [] {
      assert s[..|s| - 1] == [c] + t[..|t| - 1];
      RStripMore(c, t[..|t| - 1]);
    } else {
      assert s[..0] == [];
    }
  }

  lemma SmallIsNoDash(c: char)
    requires Kept(c)
    ensures Small(c) != '-'
  {
  }

  lemma {:induction false} DashedStarts(s: string)
    requires s != []
    ensures Dashed(s) != [] && (Dashed(s)[0] == '-' <==> !Kept(s[0]))
  {
    if Kept(s[0]) {
      SmallIsNoDash(s[0]);
    } else if |s| > 1 && !Kept(s[1]) {
      DashedStarts(s[1..]);
    }
  }

  lemma {:induction false} DashedEnds(s: string)
    ensures RStrip(Dashed(s), Dash) == if s != [] && !Kept(s[0]) && Word(s) != [] then "-" + Word(s) else Word(s)
  {
    hide RStrip;
    if s != [] {
      var c, rest := s[0], s[1..];
      DashedEnds(rest);
      if Kept(c) { SmallIsNoDash(c); }
      RStripMore(if Kept(c) then Small(c) else '-', Dashed(rest));
      assert |s| > 1 ==> rest[0] == s[1];
      hide Kept, Small;
    }
  }

  lemma FrontKept(t: string)
    requires t != [] ==> t[0] != '-'
    ensures Strip(t, Dash) == RStrip(t, Dash)
  {
  }

  lemma FrontDropped(t: string)
    requires t != [] ==> t[0] != '-'
    ensures Strip("-" + t, Dash) == RStrip(t, Dash)
    ensures RStrip("-" + t, Dash) == if RStrip(t, Dash) == [] then [] else "-" + RStrip(t, Dash)
  {
    hide RStrip;
    RStripMore('-', t);
    var s := "-" + t;
    assert s == ['-'] + t && s[0] == '-' && s[1..] == t;
    assert LStrip(t, Dash) == t;
    assert LStrip(s, Dash) == t;
  }

  lemma DashedSplits(s: string)
    requires s != [] && !Kept(s[0])
    ensures exists t :: Dashed(s) == "-" + t && (t != [] ==> t[0] != '-')
  {
    DashedStarts(s);
    CollapsedIsDashed(s);
    var r := Dashed(s);
    hide Dashed, Kept, Collapse, ReplaceRuns;
    assert r == "-" + r[1..] && (r[1..] != [] ==> r[1..][0] == r[1]);
  }

  lemma DashedTrims(s: string)
    ensures Strip(Dashed(s), Dash) == Word(s)
  {
    DashedEnds(s);
    if s == [] {
      FrontKept([]);
    } else if Kept(s[0]) {
      DashedStarts(s);
      hide *;
      FrontKept(Dashed(s));
    } else {
      DashedSplits(s);
      hide *;
      var t :| Dashed(s) == "-" + t && (t != [] ==> t[0] != '-');
      FrontDropped(t);
      var w := RStrip(t, Dash);
      assert ("-" + w)[1..] == w && ("-" + Word(s))[1..] == Word(s);
    }
  }

  // ------------------------------------------------------------ outer spaces

  lemma {:induction false} WordSkipsLast(s: string)
    requires s != [] && !Kept(s[|s| - 1])
    ensures Word(s) == Word(s[..|s| - 1])
  {
    if |s| > 1 {
      var t := s[..|s| - 1];
      assert s[1..][..|s| - 2] == t[1..];
      WordSkipsLast(s[1..]);
    }
  }

  lemma SpaceIsNotKept(c: char)
    ensures IsSpace(c) ==> !Kept(c)
  {
  }

  lemma {:induction false} WordSkipsBack(s: string)
    ensures Word(RStrip(s, IsSpace)) == Word(s)
  {
    if s != [] && IsSpace(s[|s| - 1]) {
      SpaceIsNotKept(s[|s| - 1]);
      hide IsSpace, Kept;
      WordSkipsLast(s);
      WordSkipsBack(s[..|s| - 1]);
    }
  }

  lemma {:induction false} WordSkipsFront(s: string)
    ensures Word(LStrip(s, IsSpace)) == Word(s)
  {
    if s != [] && IsSpace(s[0]) {
      SpaceIsNotKept(s[0]);
      hide IsSpace, Kept;
      WordSkipsFront(s[1..]);
    }
  }

  lemma CoreIsWord(raw: string)
    ensures Core(raw) == Word(raw)
  {
    var s := Strip(raw, IsSpace);
    assert Core(raw) == Strip(Collapse(ReplaceRuns(Plain(s))), Dash) && s == RStrip(LStrip(raw, IsSpace), IsSpace);
    hide *;
    WordSkipsFront(raw);
    WordSkipsBack(LStrip(raw, IsSpace));
    CollapsedIsDashed(s);
    DashedTrims(s);
  }
}
