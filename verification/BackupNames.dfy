/** Names of snapshot and backup files: the world and the time they carry can be
    read back from them. */
module BackupNames {
  import opened Collections
  import opened Wrappers
  import opened Naming

  /** A point in time at the precision of a file name. */
  datatype Moment = Moment(year: int, month: int, day: int, hour: int, minute: int, second: int)

  predicate Leap(year: int) {
    year % 4 == 0 && (year % 100 != 0 || year % 400 == 0)
  }

  function DaysIn(year: int, month: int): nat {
    if month == 2 then (if Leap(year) then 29 else 28)
    else if month == 4 || month == 6 || month == 9 || month == 11 then 30
    else 31
  }

  predicate Exists(t: Moment) {
    && 1 <= t.year <= 9999 && 1 <= t.month <= 12 && 1 <= t.day <= DaysIn(t.year, t.month)
    && 0 <= t.hour < 24 && 0 <= t.minute < 60 && 0 <= t.second < 60
  }

  // ------------------------------------------------------------------ writing

  function Two(n: nat): (s: string)
    requires n < 100
    ensures |s| == 2 && IsDigit(s[0]) && IsDigit(s[1])
  {
    [Digit(n / 10), Digit(n % 10)]
  }

  function Four(n: nat): (s: string)
    requires n < 10000
    ensures |s| == 4 && forall i | 0 <= i < 4 :: IsDigit(s[i])
  {
    Two(n / 100) + Two(n % 100)
  }

  /** 20261011T120000Z */
  function Compact(t: Moment): string
    requires Exists(t)
  {
    Four(t.year) + Two(t.month) + Two(t.day) + "T" + Two(t.hour) + Two(t.minute) + Two(t.second) + "Z"
  }

  function DateText(y: string, mo: string, d: string): string { y + "-" + mo + "-" + d }

  function ClockText(h: string, mi: string, s: string): string { "_" + h + "_" + mi + "_" + s }

  /** 2026-10-11_12_00_00-world */
  function DatedStem(t: Moment, world: string): string
    requires Exists(t)
  {
    DateText(Four(t.year), Two(t.month), Two(t.day))
    + (ClockText(Two(t.hour), Two(t.minute), Two(t.second)) + ("-" + world))
  }

  function Counted(stem: string, n: nat): string {
    if n <= 1 then stem else stem + "(" + Decimal(n) + ")"
  }

  /** The n-th name tried for a promoted snapshot. */
  function PromotedName(t: Moment, world: string, n: nat): string
    requires Exists(t)
  {
    Counted(DatedStem(t, world), n) + ".zip"
  }

  // ------------------------------------------------------------------ reading

  predicate AllDigits(s: string) { forall c | c in s :: IsDigit(c) }

  /** Drops a final "(7)" and the white space before it, as often as there is one. */
  function DropGroups(s: string): (r: string)
    ensures r <= s
    decreases |s|
  {
    var k := GroupStart(s);
    if k.None? then s else DropGroups(RStrip(s[..k.value], IsSpace))
  }

  /** Where a final parenthesised number begins. */
  function GroupStart(s: string): (r: Option<nat>)
    ensures r.Some? ==> r.value < |s|
  {
    if s == [] || s[|s| - 1] != ')' then None else OpenParen(s, |s| - 1)
  }

  /** The opening parenthesis in front of the digits that end before `end`. */
  function OpenParen(s: string, end: nat): (r: Option<nat>)
    requires end < |s|
    ensures r.Some? ==> r.value < end
  {
    if end == 0 then None
    else if s[end - 1] == '(' then (if end == |s| - 1 then None else Some(end - 1))
    else if IsDigit(s[end - 1]) then OpenParen(s, end - 1)
    else None
  }

  function StripDuplicate(stem: string): string {
    Strip(DropGroups(stem), IsSpace)
  }

  function Stem(name: string): string {
    if |name| >= 4 && Lower(name[|name| - 4..]) == ".zip" then name[..|name| - 4] else name
  }

  function MomentOf(y: string, mo: string, d: string, h: string, mi: string, s: string): Option<Moment>
  {
    var year := if |y| == 2 then Value(y) + 2000 else Value(y);
    var t := Moment(year, Value(mo), Value(d), Value(h), Value(mi), Value(s));
    if Exists(t) then Some(t) else None
  }

  /** Eight digits, an optional T, six digits, an optional Z, in either case. */
  function ParseCompact(stem: string): Option<Moment> {
    var a := if |stem| > 8 && (stem[8] == 'T' || stem[8] == 't') then 9 else 8;
    var b := a + 6;
    if |stem| < b || !AllDigits(stem[..8]) || !AllDigits(stem[a..b]) then None
    else if |stem| == b || (|stem| == b + 1 && (stem[b] == 'Z' || stem[b] == 'z')) then
      MomentOf(stem[..4], stem[4..6], stem[6..8], stem[a..a + 2], stem[a + 2..a + 4], stem[a + 4..a + 6])
    else None
  }

  predicate NameSeparator(c: char) { c == '-' || c == '_' || c == '+' || c == '.' || IsSpace(c) }

  predicate TimeSeparator(c: char) { NameSeparator(c) || c == 'T' }

  predicate ClockSeparator(c: char) { c == '-' || c == '_' || c == '.' || c == ':' }

  /** The name behind one or more separators, which take as much as they can. */
  function NamePart(rest: string): Option<string> {
    if |rest| < 2 || !NameSeparator(rest[0]) then None
    else
      var name := LStrip(rest, NameSeparator);
      Some(if name == [] then rest[|rest| - 1..] else name)
  }

  /** A separator and hh mm ss. */
  predicate HasTime(rest: string) {
    && |rest| >= 9 && TimeSeparator(rest[0]) && ClockSeparator(rest[3]) && ClockSeparator(rest[6])
    && IsDigit(rest[1]) && IsDigit(rest[2]) && IsDigit(rest[4]) && IsDigit(rest[5])
    && IsDigit(rest[7]) && IsDigit(rest[8])
  }

  /** A date, an optional time, and a name behind it. */
  function ParseDated(stem: string): Option<(string, Moment)> {
    var y := if |stem| > 4 && AllDigits(stem[..4]) && stem[4] == '-' then 4 else 2;
    if |stem| < y + 6 || !AllDigits(stem[..y]) || stem[y] != '-' || stem[y + 3] != '-'
       || !AllDigits(stem[y + 1..y + 3]) || !AllDigits(stem[y + 4..y + 6]) then None
    else
      var rest := stem[y + 6..];
      if HasTime(rest) && (|rest| == 9 || NamePart(rest[9..]).Some?) then
        if |rest| == 9 then None
        else
          var t := MomentOf(stem[..y], stem[y + 1..y + 3], stem[y + 4..y + 6], rest[1..3], rest[4..6], rest[7..9]);
          if t.Some? then Some((NamePart(rest[9..]).value, t.value)) else None
      else if NamePart(rest).Some? then
        var t := MomentOf(stem[..y], stem[y + 1..y + 3], stem[y + 4..y + 6], "", "", "");
        if t.Some? then Some((NamePart(rest).value, t.value)) else None
      else None
  }

  /** World and time of a file, given the name of the directory it is in; the
      time falls back to the file's own. */
  function ParseBackupName(parent: string, name: string, mtime: Option<Moment>): (string, Option<Moment>) {
    var stem := StripDuplicate(Stem(name));
    var compact := ParseCompact(stem);
    var dated := ParseDated(stem);
    if compact.Some? then
      var world := StripDuplicate(parent);
      (if world == [] then stem else world, compact)
    else if dated.Some? then (StripDuplicate(dated.value.0), Some(dated.value.1))
    else (stem, mtime)
  }

  // -------------------------------------------------------------- round trips

  lemma TwoRoundTrip(n: nat)
    requires n < 100
    ensures Value(Two(n)) == n && AllDigits(Two(n))
  {
    var s := Two(n);
    assert s[..1] == [Digit(n / 10)] && s[..1][..0] == [];
    assert Value(s[..1]) == n / 10;
  }

  lemma FourRoundTrip(n: nat)
    requires n < 10000
    ensures Value(Four(n)) == n && AllDigits(Four(n))
  {
    var s := Four(n);
    var hi, lo := Two(n / 100), Two(n % 100);
    TwoRoundTrip(n / 100);
    assert s[..3] == hi + [lo[0]] && s[..3][..2] == hi;
    assert forall c | c in s :: c in hi || c in lo;
  }

  lemma MomentRoundTrip(t: Moment)
    requires Exists(t)
    ensures MomentOf(Four(t.year), Two(t.month), Two(t.day), Two(t.hour), Two(t.minute), Two(t.second)) == Some(t)
  {
    FourRoundTrip(t.year);
    TwoRoundTrip(t.month);
    TwoRoundTrip(t.day);
    TwoRoundTrip(t.hour);
    TwoRoundTrip(t.minute);
    TwoRoundTrip(t.second);
  }

  /** A snapshot's file name gives its stamp back. */
  lemma CompactRoundTrip(t: Moment)
    requires Exists(t)
    ensures ParseCompact(Compact(t)) == Some(t)
  {
    var s := Compact(t);
    MomentRoundTrip(t);
    FourRoundTrip(t.year);
    TwoRoundTrip(t.month);
    TwoRoundTrip(t.day);
    TwoRoundTrip(t.hour);
    TwoRoundTrip(t.minute);
    TwoRoundTrip(t.second);
    assert s[..4] == Four(t.year) && s[4..6] == Two(t.month) && s[6..8] == Two(t.day);
    assert s[..8] == Four(t.year) + Two(t.month) + Two(t.day);
    assert s[9..11] == Two(t.hour) && s[11..13] == Two(t.minute) && s[13..15] == Two(t.second);
    assert s[9..15] == Two(t.hour) + Two(t.minute) + Two(t.second);
  }

  lemma DateSlices(y: string, mo: string, d: string, rest: string)
    requires |y| == 4 && |mo| == |d| == 2
    ensures var s := DateText(y, mo, d) + rest;
      && |s| == 10 + |rest| && s[..4] == y && s[4] == '-' && s[5..7] == mo && s[7] == '-'
      && s[8..10] == d && s[10..] == rest
  {
  }

  lemma ClockSlices(h: string, mi: string, sec: string, rest: string)
    requires |h| == |mi| == |sec| == 2 && AllDigits(h) && AllDigits(mi) && AllDigits(sec)
    ensures var s := ClockText(h, mi, sec) + rest;
      |s| == 9 + |rest| && HasTime(s) && s[1..3] == h && s[4..6] == mi && s[7..9] == sec && s[9..] == rest
  {
    var s := ClockText(h, mi, sec) + rest;
    assert h[0] in h && h[1] in h && mi[0] in mi && mi[1] in mi && sec[0] in sec && sec[1] in sec;
    assert s[1] == h[0] && s[2] == h[1] && s[4] == mi[0] && s[5] == mi[1] && s[7] == sec[0] && s[8] == sec[1];
  }

  lemma NameBehindDash(world: string)
    requires world != [] && !NameSeparator(world[0])
    ensures NamePart("-" + world) == Some(world)
  {
    assert ("-" + world)[1..] == world;
  }

  lemma DatedRoundTrip(t: Moment, world: string)
    requires Exists(t) && world != [] && !NameSeparator(world[0])
    ensures ParseDated(DatedStem(t, world)) == Some((world, t))
  {
    MomentRoundTrip(t);
    FourRoundTrip(t.year);
    TwoRoundTrip(t.month);
    TwoRoundTrip(t.day);
    TwoRoundTrip(t.hour);
    TwoRoundTrip(t.minute);
    TwoRoundTrip(t.second);
    var rest := ClockText(Two(t.hour), Two(t.minute), Two(t.second)) + ("-" + world);
    DateSlices(Four(t.year), Two(t.month), Two(t.day), rest);
    ClockSlices(Two(t.hour), Two(t.minute), Two(t.second), "-" + world);
    NameBehindDash(world);
    hide MomentOf, Value, AllDigits, HasTime, NamePart, Two, Four, Exists, DateText, ClockText;
  }

  // ------------------------------------------------------------- promotion

  lemma {:induction false} OpenParenOfGroup(s: string, front: string, digits: string, end: nat)
    requires digits != [] && AllDigits(digits) && s == front + "(" + digits + ")"
    requires |front| + 1 <= end < |s|
    ensures OpenParen(s, end) == if |front| + 1 == |s| - 1 then None else Some(|front|)
  {
    if end > |front| + 1 {
      assert s[end - 1] == digits[end - 1 - (|front| + 1)] && s[end - 1] in digits;
      OpenParenOfGroup(s, front, digits, end - 1);
    } else {
      assert s[end - 1] == '(';
    }
  }

  /** A stem that ends in a letter or digit has no counter to drop. */
  lemma PlainStem(stem: string)
    requires stem != [] && !IsSpace(stem[0]) && !IsSpace(stem[|stem| - 1]) && stem[|stem| - 1] != ')'
    ensures StripDuplicate(stem) == stem
  {
    StripKeeps(stem, IsSpace);
  }

  /** Every counter at the end goes, with the white space in front of it. */
  lemma CounterIsDropped(stem: string, digits: string)
    requires digits != "" && AllDigits(digits)
    ensures DropGroups(stem + "(" + digits + ")") == DropGroups(RStrip(stem, IsSpace))
  {
    var s := stem + "(" + digits + ")";
    OpenParenOfGroup(s, stem, digits, |s| - 1);
    hide OpenParen, AllDigits;
    assert GroupStart(s) == Some(|stem|) && s[..|stem|] == stem;
  }

  lemma CountedStem(stem: string, digits: string)
    requires stem != [] && !IsSpace(stem[0]) && !IsSpace(stem[|stem| - 1]) && stem[|stem| - 1] != ')'
    requires digits != [] && AllDigits(digits)
    ensures StripDuplicate(stem + "(" + digits + ")") == stem
  {
    CounterIsDropped(stem, digits);
    RStripKeeps(stem, IsSpace);
    PlainStem(stem);
    PlainEnd(stem);
    hide *;
    StripIs(stem);
    StripIs(stem + "(" + digits + ")");
  }

  lemma PlainEnd(stem: string)
    requires stem != [] && stem[|stem| - 1] != ')'
    ensures DropGroups(stem) == stem
  {
  }

  lemma StripIs(stem: string)
    ensures StripDuplicate(stem) == Strip(DropGroups(stem), IsSpace)
  {
  }

  lemma StemOfZip(s: string)
    ensures Stem(s + ".zip") == s
  {
    var name := s + ".zip";
    assert name[|name| - 4..] == ".zip" && name[..|name| - 4] == s;
    assert Lower(".zip") == ".zip";
  }

  lemma DatedStemIsPlain(t: Moment, world: string)
    requires Exists(t) && IsLabel(world)
    ensures var stem := DatedStem(t, world);
      |stem| > 8 && !IsSpace(stem[0]) && !IsSpace(stem[|stem| - 1]) && stem[|stem| - 1] != ')'
    ensures ParseCompact(DatedStem(t, world)).None?
  {
    var stem := DatedStem(t, world);
    var rest := ClockText(Two(t.hour), Two(t.minute), Two(t.second)) + ("-" + world);
    DateSlices(Four(t.year), Two(t.month), Two(t.day), rest);
    assert stem[0] == stem[..4][0];
    assert world[|world| - 1] in world;
    assert stem[|stem| - 1] == rest[|rest| - 1] == world[|world| - 1];
    assert stem[..8][4] == '-' && stem[..8][4] in stem[..8];
  }

  /** The stem of a promoted file, counted or not, is the dated name. */
  lemma PromotedStem(t: Moment, world: string, n: nat)
    requires Exists(t) && IsLabel(world)
    ensures StripDuplicate(Stem(PromotedName(t, world, n))) == DatedStem(t, world)
  {
    DatedStemIsPlain(t, world);
    hide DatedStem, Decimal, StripDuplicate, Stem, Exists, IsSpace, IsLabel, ParseCompact;
    var stem := DatedStem(t, world);
    StemOfZip(Counted(stem, n));
    if n <= 1 {
      PlainStem(stem);
    } else {
      CountedStem(stem, Decimal(n));
    }
  }

  /** Reading a promoted file's name gives the world and the time it was made
      from, whatever counter it needed. */
  lemma PromotedNameRoundTrip(t: Moment, world: string, n: nat, parent: string, mtime: Option<Moment>)
    requires Exists(t) && IsLabel(world)
    ensures ParseBackupName(parent, PromotedName(t, world, n), mtime) == (world, Some(t))
  {
    hide *;
    DatedIsNotCompact(t, world);
    LabelIsPlain(world);
    PromotedStem(t, world, n);
    DatedRoundTrip(t, world);
    ReadFromDated(parent, PromotedName(t, world, n), mtime, DatedStem(t, world), world, t);
  }

  lemma ReadFromDated(parent: string, name: string, mtime: Option<Moment>, stem: string, world: string, t: Moment)
    requires StripDuplicate(Stem(name)) == stem && ParseCompact(stem).None? && ParseDated(stem) == Some((world, t))
    requires StripDuplicate(world) == world
    ensures ParseBackupName(parent, name, mtime) == (world, Some(t))
  {
    hide StripDuplicate, ParseDated, ParseCompact, Stem;
  }

  lemma DatedIsNotCompact(t: Moment, world: string)
    requires Exists(t) && IsLabel(world)
    ensures ParseCompact(DatedStem(t, world)).None?
  {
    DatedStemIsPlain(t, world);
  }

  lemma LabelIsPlain(world: string)
    requires IsLabel(world)
    ensures StripDuplicate(world) == world && world != [] && !NameSeparator(world[0])
  {
    assert world[|world| - 1] in world;
    hide StripDuplicate;
    PlainStem(world);
  }

  /** Reading a snapshot's path gives the world whose directory it is in and its
      stamp, so a promoted snapshot keeps both. */
  lemma SnapshotNameRoundTrip(t: Moment, world: string, mtime: Option<Moment>)
    requires Exists(t) && IsLabel(world)
    ensures ParseBackupName(world, Compact(t) + ".zip", mtime) == (world, Some(t))
  {
    var s := Compact(t);
    CompactRoundTrip(t);
    assert s[0] == Four(t.year)[0] && s[|s| - 1] == 'Z';
    assert world[|world| - 1] in world;
    hide Compact, ParseCompact, ParseDated, StripDuplicate, Stem;
    StemOfZip(s);
    PlainStem(s);
    PlainStem(world);
  }

  lemma DigitsAre()
    ensures Two(10) == "10" && Two(11) == "11" && Two(12) == "12" && Two(0) == "00"
    ensures Four(2026) == "2026"
  {
    assert Two(20) == "20" && Two(26) == "26";
  }

  /** What the two forms look like. */
  lemma NamesLookLikeThis()
    ensures var t := Moment(2026, 10, 11, 12, 0, 0);
      && Exists(t) && Compact(t) == "20261011T120000Z"
      && DatedStem(t, "noah") == "2026-10-11_12_00_00-noah"
  {
    DigitsAre();
    hide Two, Four;
    assert "2026" + "10" + "11" + "T" + "12" + "00" + "00" + "Z" == "20261011T120000Z";
    assert DateText("2026", "10", "11") == "2026-10-11" && ClockText("12", "00", "00") == "_12_00_00";
    hide DateText, ClockText;
    assert "2026-10-11" + ("_12_00_00" + ("-" + "noah")) == "2026-10-11_12_00_00-noah";
  }

  lemma NotDated(stem: string)
    requires |stem| < 2 || !IsDigit(stem[0]) || !IsDigit(stem[1])
    ensures ParseCompact(stem).None? && ParseDated(stem).None?
  {
    forall k | 2 <= k <= |stem|
      ensures !AllDigits(stem[..k])
    {
      assert stem[..k][0] == stem[0] && stem[..k][1] == stem[1];
    }
  }

  /** A name that does not begin with two digits carries no date: the world is the name
      itself, without the counter of a copy, and the time is the file's own. */
  lemma UndatedNameIsKept(stem: string, n: nat, parent: string, mtime: Option<Moment>)
    requires stem != [] && !IsSpace(stem[0]) && !IsSpace(stem[|stem| - 1]) && stem[|stem| - 1] != ')'
    requires |stem| < 2 || !IsDigit(stem[0]) || !IsDigit(stem[1])
    ensures ParseBackupName(parent, stem + ".zip", mtime) == (stem, mtime)
    ensures ParseBackupName(parent, stem + "(" + Decimal(n) + ")" + ".zip", mtime) == (stem, mtime)
  {
    NotDated(stem);
    hide Decimal, ParseCompact, ParseDated, Stem, StripDuplicate, IsSpace;
    StemOfZip(stem);
    PlainStem(stem);
    StemOfZip(stem + "(" + Decimal(n) + ")");
    CountedStem(stem, Decimal(n));
  }

  // -------------------------------------------------------- the forms in use

  /** A year with or without its century. */
  function YearText(year: nat, short: bool): (s: string)
    requires year < 10000 && (short ==> 2000 <= year < 2100)
    ensures |s| == if short then 2 else 4
  {
    if short then Two(year - 2000) else Four(year)
  }

  lemma YearRoundTrip(year: nat, short: bool)
    requires year < 10000 && (short ==> 2000 <= year < 2100)
    ensures var s := YearText(year, short); AllDigits(s) && (if |s| == 2 then Value(s) + 2000 else Value(s)) == year
  {
    if short { TwoRoundTrip(year - 2000); } else { FourRoundTrip(year); }
  }

  function DayText(t: Moment, short: bool): string
    requires Exists(t) && (short ==> 2000 <= t.year < 2100)
  {
    DateText(YearText(t.year, short), Two(t.month), Two(t.day))
  }

  /** What follows the day: a separator, and the time with two more in it. */
  function TimeText(t: Moment, sep: char, c1: char, c2: char): string
    requires Exists(t)
  {
    [sep] + Two(t.hour) + [c1] + Two(t.minute) + [c2] + Two(t.second)
  }

  /** Separators, and a name that begins with none of them. */
  ghost predicate Named(seps: string, name: string) {
    && seps != "" && (forall c | c in seps :: c in "-_+." || IsSpace(c))
    && name != "" && !(name[0] in "-_+." || IsSpace(name[0]))
  }

  lemma SeparatorIff(c: char)
    ensures NameSeparator(c) <==> c in "-_+." || IsSpace(c)
    ensures ClockSeparator(c) <==> c in "-_.:"
  {
    assert "-_+."[0] == '-' && "-_+."[1] == '_' && "-_+."[2] == '+' && "-_+."[3] == '.';
    assert "-_.:"[0] == '-' && "-_.:"[1] == '_' && "-_.:"[2] == '.' && "-_.:"[3] == ':';
  }

  lemma {:induction false} SeparatorsStripped(seps: string, name: string)
    requires (forall c | c in seps :: NameSeparator(c)) && name != "" && !NameSeparator(name[0])
    ensures LStrip(seps + name, NameSeparator) == name
  {
    if seps == "" {
      assert seps + name == name;
    } else {
      assert seps[0] in seps && (seps + name)[1..] == seps[1..] + name;
      SeparatorsStripped(seps[1..], name);
    }
  }

  lemma NamedIsRead(seps: string, name: string)
    requires Named(seps, name)
    ensures NamePart(seps + name) == Some(name)
  {
    forall c | c in seps
      ensures NameSeparator(c)
    {
      SeparatorIff(c);
    }
    SeparatorIff(name[0]);
    hide NameSeparator;
    SeparatorsStripped(seps, name);
    assert seps[0] in seps && (seps + name)[0] == seps[0];
  }

  lemma DayFront(y: string, mo: string, d: string, rest: string)
    requires (|y| == 2 || |y| == 4) && AllDigits(y) && |mo| == |d| == 2
    ensures var s := DateText(y, mo, d) + rest; var k := |y|;
      && |s| == k + 6 + |rest| && s[..k] == y && s[k] == '-' && s[k + 1..k + 3] == mo && s[k + 3] == '-'
      && s[k + 4..k + 6] == d && s[k + 6..] == rest
      && (AllDigits(s[..4]) && s[4] == '-' <==> k == 4)
  {
    var s := DateText(y, mo, d) + rest;
    assert s == y + ("-" + mo + "-" + d + rest);
    if |y| == 2 { assert s[..4][2] == '-' && s[..4][2] in s[..4]; }
  }

  /** With a date in front, what is read depends on what is behind it. */
  lemma DayIsRead(t: Moment, short: bool, rest: string)
    requires Exists(t) && (short ==> 2000 <= t.year < 2100) && rest != ""
    ensures var y, mo, d := YearText(t.year, short), Two(t.month), Two(t.day);
      ParseDated(DayText(t, short) + rest) ==
        if HasTime(rest) && (|rest| == 9 || NamePart(rest[9..]).Some?) then
          if |rest| == 9 then None
          else
            var at := MomentOf(y, mo, d, rest[1..3], rest[4..6], rest[7..9]);
            if at.Some? then Some((NamePart(rest[9..]).value, at.value)) else None
        else if NamePart(rest).Some? then
          var at := MomentOf(y, mo, d, "", "", "");
          if at.Some? then Some((NamePart(rest).value, at.value)) else None
        else None
  {
    var y, mo, d := YearText(t.year, short), Two(t.month), Two(t.day);
    YearRoundTrip(t.year, short);
    TwoRoundTrip(t.month);
    TwoRoundTrip(t.day);
    DayFront(y, mo, d, rest);
    hide YearText, Two, DateText, AllDigits, MomentOf, NamePart, HasTime, Value;
  }

  lemma MomentIsRead(t: Moment, short: bool, timed: bool)
    requires Exists(t) && (short ==> 2000 <= t.year < 2100)
    requires !timed ==> t.hour == t.minute == t.second == 0
    ensures var y, mo, d := YearText(t.year, short), Two(t.month), Two(t.day);
      && (timed ==> MomentOf(y, mo, d, Two(t.hour), Two(t.minute), Two(t.second)) == Some(t))
      && (!timed ==> MomentOf(y, mo, d, "", "", "") == Some(t))
  {
    YearRoundTrip(t.year, short);
    TwoRoundTrip(t.month);
    TwoRoundTrip(t.day);
    TwoRoundTrip(t.hour);
    TwoRoundTrip(t.minute);
    TwoRoundTrip(t.second);
    hide YearText, Two;
  }

  lemma TimeSlices(t: Moment, sep: char, c1: char, c2: char, rest: string)
    requires Exists(t) && (sep in "-_+.T" || IsSpace(sep)) && c1 in "-_.:" && c2 in "-_.:"
    ensures var s := TimeText(t, sep, c1, c2) + rest;
      && |s| == 9 + |rest| && HasTime(s) && s[9..] == rest
      && s[1..3] == Two(t.hour) && s[4..6] == Two(t.minute) && s[7..9] == Two(t.second)
  {
    var h, mi, sec := Two(t.hour), Two(t.minute), Two(t.second);
    SeparatorIff(sep);
    SeparatorIff(c1);
    SeparatorIff(c2);
    assert sep in "-_+.T" ==> sep in "-_+." || sep == 'T' by { assert "-_+.T" == "-_+." + "T"; }
    var s := TimeText(t, sep, c1, c2) + rest;
    hide Two, IsSpace, NameSeparator, ClockSeparator;
    assert s == [sep] + h + [c1] + mi + [c2] + sec + rest;
    assert s[0] == sep && s[1] == h[0] && s[2] == h[1] && s[3] == c1 && s[4] == mi[0] && s[5] == mi[1];
    assert s[6] == c2 && s[7] == sec[0] && s[8] == sec[1];
  }

  /** A day and a time, with whatever separators are in use, the century or not, and the
      world behind it. */
  lemma TimedFormIsRead(
      t: Moment, short: bool, sep: char, c1: char, c2: char, seps: string, name: string)
    requires Exists(t) && (short ==> 2000 <= t.year < 2100) && Named(seps, name)
    requires (sep in "-_+.T" || IsSpace(sep)) && c1 in "-_.:" && c2 in "-_.:"
    ensures ParseDated(DayText(t, short) + (TimeText(t, sep, c1, c2) + (seps + name))) == Some((name, t))
  {
    TimeSlices(t, sep, c1, c2, seps + name);
    NamedIsRead(seps, name);
    MomentIsRead(t, short, true);
    hide *;
    DayIsRead(t, short, TimeText(t, sep, c1, c2) + (seps + name));
  }

  /** A day alone stands for its midnight, unless the name could be taken for a time. */
  lemma DayFormIsRead(t: Moment, short: bool, seps: string, name: string)
    requires Exists(t) && (short ==> 2000 <= t.year < 2100) && Named(seps, name) && !HasTime(seps + name)
    requires t.hour == t.minute == t.second == 0
    ensures ParseDated(DayText(t, short) + (seps + name)) == Some((name, t))
  {
    NamedIsRead(seps, name);
    MomentIsRead(t, short, false);
    hide *;
    DayIsRead(t, short, seps + name);
  }

  /** The first free name, tried in order; found within one try more than there
      are files. */
  method FreePromotedName(t: Moment, world: string, existing: set<string>) returns (name: string, n: nat)
    requires Exists(t)
    ensures name == PromotedName(t, world, n) && name !in existing && 1 <= n <= |existing| + 1
    ensures forall m | 1 <= m < n :: PromotedName(t, world, m) in existing
  {
    n := 1;
    name := PromotedName(t, world, 1);
    while name in existing
      invariant n >= 1 && name == PromotedName(t, world, n)
      invariant NamesBelow(t, world, n) <= existing
      decreases |existing| + 1 - n
    {
      NamesBelowSize(t, world, n + 1);
      assert NamesBelow(t, world, n + 1) == NamesBelow(t, world, n) + {name};
      SubsetSize(NamesBelow(t, world, n + 1), existing);
      n := n + 1;
      name := PromotedName(t, world, n);
    }
    NamesBelowSize(t, world, n);
    SubsetSize(NamesBelow(t, world, n), existing);
    assert forall m | 1 <= m < n :: PromotedName(t, world, m) in NamesBelow(t, world, n);
  }

  ghost function NamesBelow(t: Moment, world: string, n: nat): set<string>
    requires Exists(t)
  {
    set m | 1 <= m < n :: PromotedName(t, world, m)
  }

  lemma NamesDiffer(t: Moment, world: string, m: nat, n: nat)
    requires Exists(t) && 1 <= m < n
    ensures PromotedName(t, world, m) != PromotedName(t, world, n)
  {
    hide DatedStem, Decimal, Stem;
    var stem := DatedStem(t, world);
    StemOfZip(Counted(stem, m));
    StemOfZip(Counted(stem, n));
    if Counted(stem, m) == Counted(stem, n) {
      var k := |stem| + 1;
      assert n > 1 && m > 1;
      assert Counted(stem, m)[k..|Counted(stem, m)| - 1] == Decimal(m);
      assert Counted(stem, n)[k..|Counted(stem, n)| - 1] == Decimal(n);
      DecimalRoundTrip(m);
      DecimalRoundTrip(n);
    }
  }

  lemma {:induction false} NamesBelowSize(t: Moment, world: string, n: nat)
    requires Exists(t) && n >= 1
    ensures |NamesBelow(t, world, n)| == n - 1
  {
    if n > 1 {
      NamesBelowSize(t, world, n - 1);
      var last := PromotedName(t, world, n - 1);
      forall m | 1 <= m < n - 1
        ensures PromotedName(t, world, m) != last
      {
        NamesDiffer(t, world, m, n - 1);
      }
      assert NamesBelow(t, world, n) == NamesBelow(t, world, n - 1) + {last};
    } else {
      assert NamesBelow(t, world, n) == {};
    }
  }
}
