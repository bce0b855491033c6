/** World names: made safe for use as DNS labels, and made unique. */
module Naming {
  import opened Collections

  const MAX_WORLD_NAME := 40

  // ---------------------------------------------------------------- characters

  predicate IsLower(c: char) { 'a' <= c <= 'z' }

  predicate IsDigit(c: char) { '0' <= c <= '9' }

  predicate IsSpace(c: char) { c == ' ' || '\t' <= c <= '\r' || '\U{1C}' <= c <= '\U{1F}' }

  /** What may stand in a label. */
  predicate IsNameChar(c: char) { IsLower(c) || IsDigit(c) || c == '-' }

  function LowerChar(c: char): char {
    if 'A' <= c <= 'Z' then c - 'A' + 'a' else c
  }

  function Lower(s: string): (r: string)
    ensures |r| == |s| && forall i | 0 <= i < |s| :: r[i] == LowerChar(s[i])
  {
    seq(|s|, i requires 0 <= i < |s| => LowerChar(s[i]))
  }

  /** Without leading and trailing characters for which `p` holds. */
  function LStrip(s: string, p: char -> bool): (r: string)
    ensures |r| <= |s| && r == s[|s| - |r|..] && (r != [] ==> !p(r[0]))
    ensures forall i | 0 <= i < |s| - |r| :: p(s[i])
  {
    if s != [] && p(s[0]) then LStrip(s[1..], p) else s
  }

  function RStrip(s: string, p: char -> bool): (r: string)
    ensures r <= s && (r != [] ==> !p(r[|r| - 1]))
    ensures forall i | |r| <= i < |s| :: p(s[i])
  {
    if s != [] && p(s[|s| - 1]) then RStrip(s[..|s| - 1], p) else s
  }

  function Strip(s: string, p: char -> bool): string {
    RStrip(LStrip(s, p), p)
  }

  predicate Dash(c: char) { c == '-' }

  // ------------------------------------------------------------------- labels

  /** A label by the grammar in section 2.3.1 of RFC 1035, in lower case. */
  ghost predicate IsLabel(s: string) {
    && s != [] && IsLower(s[0]) && s[|s| - 1] != '-'
    && forall c | c in s :: IsNameChar(c)
  }

  /** The pattern the service checks.  Its end anchor also matches in front of a
      final newline. */
  predicate MatchesLabel(s: string) {
    LabelBody(s) || (s != [] && s[|s| - 1] == '\n' && LabelBody(s[..|s| - 1]))
  }

  predicate LabelBody(s: string) {
    s != [] && IsLower(s[0]) && (|s| > 1 ==> s[|s| - 1] != '-') && forall c | c in s :: IsNameChar(c)
  }

  predicate IsValidWorldName(name: string) {
    |name| <= MAX_WORLD_NAME && MatchesLabel(name)
  }

  ghost predicate EndsInNewline(name: string) { name != [] && name[|name| - 1] == '\n' }

  /** A name is accepted if and only if it is at most 40 characters long and a
      label, or a label with a newline behind it; so what is accepted is a label
      exactly if it does not end in a newline. */
  lemma ValidNameIsLabelIff(name: string)
    ensures IsValidWorldName(name) <==>
      |name| <= MAX_WORLD_NAME && (IsLabel(name) || (EndsInNewline(name) && IsLabel(name[..|name| - 1])))
    ensures IsValidWorldName(name) ==> (IsLabel(name) <==> !EndsInNewline(name))
  {
    if name != [] { assert name[|name| - 1] in name; }
  }

  lemma NewlineSlipsThrough()
    ensures IsValidWorldName("creative\n") && !IsLabel("creative\n")
  {
    var s := "creative\n";
    assert s[|s| - 1] in s;
    assert s[..8] == "creative";
  }

  // ----------------------------------------------------------------- sanitize

  /** Each run of characters outside the alphabet becomes one dash. */
  function ReplaceRuns(s: string): (r: string)
    ensures forall c | c in r :: IsNameChar(c)
  {
    if s == [] then []
    else if IsNameChar(s[0]) then [s[0]] + ReplaceRuns(s[1..])
    else if |s| > 1 && !IsNameChar(s[1]) then ReplaceRuns(s[1..])
    else ['-'] + ReplaceRuns(s[1..])
  }

  /** Each run of dashes becomes one. */
  function Collapse(s: string): (r: string)
    ensures (forall c | c in s :: IsNameChar(c)) ==> forall c | c in r :: IsNameChar(c)
    ensures (r == []) == (s == []) && (s != [] ==> r[0] == s[0])
    ensures NoDoubleDash(r)
  {
    if |s| <= 1 then s
    else if s[0] == '-' && s[1] == '-' then Collapse(s[1..])
    else [s[0]] + Collapse(s[1..])
  }

  ghost predicate NoDoubleDash(s: string) {
    forall i | 0 <= i < |s| - 1 :: !(s[i] == '-' && s[i + 1] == '-')
  }

  function Underscored(s: string): (r: string)
    ensures |r| == |s| && forall i | 0 <= i < |s| :: r[i] == if s[i] == '_' then '-' else s[i]
  {
    seq(|s|, i requires 0 <= i < |s| => if s[i] == '_' then '-' else s[i])
  }

  /** The part of a raw name that can be kept. */
  function Core(raw: string): string {
    Strip(Collapse(ReplaceRuns(Underscored(Lower(Strip(raw, IsSpace))))), Dash)
  }

  function Sanitize(raw: string): string {
    var core := Core(raw);
    var named := if core == [] then "world" else core;
    var started := if IsLower(named[0]) then named else "w-" + named;
    RStrip(if |started| <= MAX_WORLD_NAME then started else started[..MAX_WORLD_NAME], Dash)
  }

  /** What `Sanitize` yields: short labels without two dashes in a row. */
  ghost predicate IsSlug(s: string) {
    IsLabel(s) && |s| <= MAX_WORLD_NAME && NoDoubleDash(s)
  }

  lemma PartOfRun(r: string, a: nat, b: nat)
    requires a <= b <= |r| && (forall c | c in r :: IsNameChar(c)) && NoDoubleDash(r)
    ensures (forall c | c in r[a..b] :: IsNameChar(c)) && NoDoubleDash(r[a..b])
  {
    hide IsNameChar;
    var s := r[a..b];
    assert forall i | 0 <= i < |s| :: s[i] == r[a + i] && r[a + i] in r;
  }

  lemma TrimmedRun(r: string)
    requires (forall c | c in r :: IsNameChar(c)) && NoDoubleDash(r)
    ensures var s := Strip(r, Dash);
      && (forall c | c in s :: IsNameChar(c)) && NoDoubleDash(s)
      && (s != [] ==> s[0] != '-' && s[|s| - 1] != '-')
  {
    hide IsNameChar, NoDoubleDash, LStrip, RStrip;
    var l := LStrip(r, Dash);
    var s := RStrip(l, Dash);
    var start := |r| - |l|;
    assert s == r[start..start + |s|];
    PartOfRun(r, start, start + |s|);
  }

  lemma CoreIsTrimmed(raw: string)
    ensures var s := Core(raw);
      && (forall c | c in s :: IsNameChar(c)) && NoDoubleDash(s)
      && (s != [] ==> s[0] != '-' && s[|s| - 1] != '-')
  {
    hide ReplaceRuns, Collapse, Strip, LStrip, RStrip, IsNameChar, NoDoubleDash;
    TrimmedRun(Collapse(ReplaceRuns(Underscored(Lower(Strip(raw, IsSpace))))));
  }

  /** Cutting a name that starts with a letter leaves a label. */
  lemma CutName(started: string)
    requires started != [] && IsLower(started[0]) && NoDoubleDash(started) && forall c | c in started :: IsNameChar(c)
    ensures IsSlug(RStrip(if |started| <= MAX_WORLD_NAME then started else started[..MAX_WORLD_NAME], Dash))
  {
    var cut := if |started| <= MAX_WORLD_NAME then started else started[..MAX_WORLD_NAME];
    var s := RStrip(cut, Dash);
    assert !Dash(cut[0]);
    PartOfRun(started, 0, |s|);
    hide IsNameChar, NoDoubleDash;
    assert s == started[0..|s|];
  }

  lemma SanitizeYieldsSlug(raw: string)
    ensures IsSlug(Sanitize(raw))
  {
    hide Core, RStrip, IsSlug;
    CoreIsTrimmed(raw);
    var core := Core(raw);
    var named := if core == [] then "world" else core;
    assert named[0] in named && forall c | c in named :: IsNameChar(c);
    CutName(if IsLower(named[0]) then named else "w-" + named);
  }

  lemma {:induction false} KeepsNameChars(s: string)
    requires forall c | c in s :: IsNameChar(c)
    ensures ReplaceRuns(s) == s && (NoDoubleDash(s) ==> Collapse(s) == s)
  {
    if s != [] {
      assert s[0] in s && forall c | c in s[1..] :: c in s;
      assert s == [s[0]] + s[1..];
      KeepsNameChars(s[1..]);
    }
  }

  lemma SanitizeIsIdempotent(raw: string)
    ensures Sanitize(Sanitize(raw)) == Sanitize(raw)
  {
    SanitizeYieldsSlug(raw);
    SlugIsKept(Sanitize(raw));
  }

  /** A slug is left as it is. */
  lemma SlugIsKept(s: string)
    requires IsSlug(s)
    ensures Sanitize(s) == s
  {
    hide ReplaceRuns, Collapse, Strip, RStrip, IsNameChar, NoDoubleDash, Lower, Underscored;
    NameCharsAreKept(s);
    StripKeeps(s, IsSpace);
    StripKeeps(s, Dash);
    KeepsNameChars(s);
    RStripKeeps(s, Dash);
  }

  lemma NameCharsAreKept(s: string)
    requires s != [] && forall c | c in s :: IsNameChar(c)
    ensures Lower(s) == s && Underscored(s) == s
    ensures !IsSpace(s[0]) && !IsSpace(s[|s| - 1])
  {
    assert forall i | 0 <= i < |s| :: s[i] in s;
  }

  lemma RStripKeeps(s: string, p: char -> bool)
    requires s != [] && !p(s[|s| - 1])
    ensures RStrip(s, p) == s
  {
  }

  lemma StripKeeps(s: string, p: char -> bool)
    requires s != [] && !p(s[0]) && !p(s[|s| - 1])
    ensures Strip(s, p) == s
  {
  }

  // ------------------------------------------------------------------ numbers

  function Digit(d: int): (c: char)
    requires 0 <= d < 10
    ensures IsDigit(c)
  {
    '0' + d as char
  }

  function DigitValue(c: char): int { c as int - '0' as int }

  function Decimal(n: nat): (s: string)
    ensures s != [] && forall c | c in s :: IsDigit(c)
  {
    if n < 10 then [Digit(n)] else Decimal(n / 10) + [Digit(n % 10)]
  }

  function Value(s: string): int {
    if s == [] then 0 else 10 * Value(s[..|s| - 1]) + DigitValue(s[|s| - 1])
  }

  lemma {:induction false} DecimalRoundTrip(n: nat)
    ensures Value(Decimal(n)) == n
  {
    if n >= 10 {
      DecimalRoundTrip(n / 10);
      var s := Decimal(n);
      assert s[..|s| - 1] == Decimal(n / 10);
    } else {
      assert Decimal(n)[..0] == [];
    }
  }

  function Pow10(k: nat): nat { if k == 0 then 1 else 10 * Pow10(k - 1) }

  lemma {:induction false} DecimalLength(n: nat, k: nat)
    requires k >= 1 && n < Pow10(k)
    ensures |Decimal(n)| <= k
  {
    if n >= 10 {
      DecimalLength(n / 10, k - 1);
    }
  }

  // -------------------------------------------------------------- unique names

  /** A prefix as Python slices it: a negative length counts from the end. */
  function Prefix(s: string, k: int): (r: string)
    ensures r <= s && (k >= 0 ==> |r| <= k) && (s != [] && k >= 1 ==> r != [])
  {
    if k >= |s| then s
    else if k >= 0 then s[..k]
    else if |s| + k >= 0 then s[..|s| + k]
    else []
  }

  function Candidate(base: string, n: nat): string {
    var suffix := "-" + Decimal(n);
    RStrip(Prefix(base, MAX_WORLD_NAME - |suffix|), Dash) + suffix
  }

  /** What stands behind the last dash. */
  function Tail(s: string): string {
    if s == [] || s[|s| - 1] == '-' then [] else Tail(s[..|s| - 1]) + [s[|s| - 1]]
  }

  lemma {:induction false} TailIsBehindDash(front: string, digits: string)
    requires forall c | c in digits :: c != '-'
    ensures Tail(front + "-" + digits) == digits
  {
    var s := front + "-" + digits;
    if digits != [] {
      var last := digits[|digits| - 1];
      assert last in digits && s[|s| - 1] == last;
      var rest := digits[..|digits| - 1];
      forall c | c in rest
        ensures c != '-'
      {
        assert c in digits;
      }
      assert s[..|s| - 1] == front + "-" + rest;
      TailIsBehindDash(front, rest);
    }
  }

  lemma CandidateTail(base: string, n: nat)
    ensures Tail(Candidate(base, n)) == Decimal(n)
  {
    hide RStrip, Prefix, Decimal, Tail;
    var suffix := "-" + Decimal(n);
    var front := RStrip(Prefix(base, MAX_WORLD_NAME - |suffix|), Dash);
    assert Candidate(base, n) == front + "-" + Decimal(n);
    TailIsBehindDash(front, Decimal(n));
  }

  /** Different counters never give the same candidate, whatever is cut off. */
  lemma CandidatesDiffer(base: string, m: nat, n: nat)
    ensures Candidate(base, m) == Candidate(base, n) ==> m == n
  {
    hide Candidate;
    CandidateTail(base, m);
    CandidateTail(base, n);
    DecimalRoundTrip(m);
    DecimalRoundTrip(n);
  }

  /** While the counter has at most 38 digits, a candidate is a label of at most
      40 characters. */
  lemma CandidateIsLabel(base: string, n: nat)
    requires IsLabel(base) && n < Pow10(38)
    ensures IsLabel(Candidate(base, n)) && |Candidate(base, n)| <= MAX_WORLD_NAME
  {
    hide Pow10, Decimal, RStrip, Prefix;
    DecimalLength(n, 38);
    var digits := Decimal(n);
    var suffix := "-" + digits;
    var cut := Prefix(base, MAX_WORLD_NAME - |suffix|);
    var kept := RStrip(cut, Dash);
    assert cut[0] == base[0] && !Dash(cut[0]);
    assert kept != [] && kept[0] == base[0];
    var s := kept + suffix;
    assert s[|s| - 1] == digits[|digits| - 1] && digits[|digits| - 1] in digits;
    forall c | c in s
      ensures IsNameChar(c)
    {
      assert c in kept ==> c in base;
      assert c in suffix ==> c == '-' || c in digits;
    }
  }

  ghost function CandidatesBelow(base: string, n: nat): set<string> {
    set m | 2 <= m < n :: Candidate(base, m)
  }

  lemma {:induction false} CandidatesBelowSize(base: string, n: nat)
    requires n >= 2
    ensures |CandidatesBelow(base, n)| == n - 2
  {
    if n > 2 {
      CandidatesBelowSize(base, n - 1);
      var last := Candidate(base, n - 1);
      if last in CandidatesBelow(base, n - 1) {
        var m :| 2 <= m < n - 1 && Candidate(base, m) == last;
        CandidatesDiffer(base, m, n - 1);
      }
      assert CandidatesBelow(base, n) == CandidatesBelow(base, n - 1) + {last};
    } else {
      assert CandidatesBelow(base, n) == {};
    }
  }

  lemma FoundIsLabel(base: string, n: nat, count: nat)
    requires IsLabel(base) && n <= count + 2
    ensures count < Pow10(37) ==> IsLabel(Candidate(base, n)) && |Candidate(base, n)| <= MAX_WORLD_NAME
  {
    hide IsLabel, Candidate;
    if count < Pow10(37) {
      assert Pow10(38) == 10 * Pow10(37);
      CandidateIsLabel(base, n);
    }
  }

  /** The base if it is free, else the first free numbered candidate, which is
      found within one candidate more than there are names taken. */
  method UniqueName(base: string, taken: set<string>) returns (name: string)
    ensures name !in taken
    ensures Sanitize(base) !in taken ==> name == Sanitize(base)
    ensures Sanitize(base) in taken ==>
      exists n :: 2 <= n <= |taken| + 2 && name == Candidate(Sanitize(base), n)
        && forall m | 2 <= m < n :: Candidate(Sanitize(base), m) in taken
    ensures |taken| < Pow10(37) ==> IsLabel(name) && |name| <= MAX_WORLD_NAME
  {
    hide Sanitize, Candidate, IsLabel, Pow10;
    var clean := Sanitize(base);
    SanitizeYieldsSlug(base);
    if clean !in taken {
      return clean;
    }
    var n := 2;
    while true
      invariant n >= 2 && CandidatesBelow(clean, n) <= taken
      decreases |taken| + 2 - n
    {
      CandidatesBelowSize(clean, n);
      SubsetSize(CandidatesBelow(clean, n), taken);
      var candidate := Candidate(clean, n);
      if candidate !in taken {
        FoundIsLabel(clean, n, |taken|);
        assert forall m | 2 <= m < n :: Candidate(clean, m) in CandidatesBelow(clean, n);
        return candidate;
      }
      assert CandidatesBelow(clean, n + 1) == CandidatesBelow(clean, n) + {candidate};
      n := n + 1;
    }
  }
}
