/** Game and RCON ports: allotted once, mirrored into the Helm release, and
    rebuilt from there when a world's record is lost. */
module Ports {
  import opened Collections
  import opened Wrappers

  /** The two configured ranges; the configuration refuses ranges that overlap. */
  datatype Config = Config(portMin: int, portMax: int, rconMin: int, rconMax: int) {
    predicate Valid() {
      rconMin <= rconMax && !(rconMin <= portMax && portMin <= rconMax)
    }
  }

  /** A world's ports; 0 means none. */
  datatype Pair = Pair(game: int, rcon: int)

  /** The persisted records and the ports mirrored in the releases. */
  datatype Book = Book(records: map<string, Pair>, releases: map<string, Pair>)

  function Worlds(b: Book): set<string> {
    b.records.Keys + b.releases.Keys
  }

  /** A world's ports as the service sees them: a record without a game port is
      rebuilt from the release, and an RCON port only the release knows is
      adopted. */
  function PortsOf(b: Book, w: string): Pair
    requires w in Worlds(b)
  {
    if w !in b.releases then b.records[w]
    else if w !in b.records || b.records[w].game == 0 then b.releases[w]
    else if b.records[w].rcon == 0 then Pair(b.records[w].game, b.releases[w].rcon)
    else b.records[w]
  }

  function Seen(b: Book): (specs: map<string, Pair>)
    ensures specs.Keys == Worlds(b)
    ensures forall w | w in specs :: specs[w] == PortsOf(b, w)
  {
    map w | w in Worlds(b) :: PortsOf(b, w)
  }

  function Used(specs: map<string, Pair>): set<int> {
    (set w | w in specs :: specs[w].game) + (set w | w in specs :: specs[w].rcon)
  }

  // ------------------------------------------------------------- allocation

  predicate Between(lo: int, p: int, hi: int) { lo <= p <= hi }

  function Range(lo: int, hi: int): set<int> {
    set p | lo <= p <= hi && Between(lo, p, hi)
  }

  /** The lowest free port of a range, or none. */
  function Lowest(lo: int, hi: int, used: set<int>): (r: Option<int>)
    decreases hi - lo + 1
  {
    if lo > hi then None
    else if lo !in used then Some(lo)
    else Lowest(lo + 1, hi, used)
  }

  lemma {:induction false} LowestIsLowest(lo: int, hi: int, used: set<int>)
    ensures match Lowest(lo, hi, used)
      case None => Range(lo, hi) <= used
      case Some(p) => lo <= p <= hi && p !in used && forall q | lo <= q < p :: q in used
    decreases hi - lo + 1
  {
    if lo <= hi && lo in used { LowestIsLowest(lo + 1, hi, used); }
  }

  method Allocate(lo: int, hi: int, specs: map<string, Pair>) returns (r: Option<int>)
    ensures r == Lowest(lo, hi, Used(specs))
  {
    var used := Used(specs);
    var p := lo;
    while p <= hi
      invariant Lowest(p, hi, used) == Lowest(lo, hi, used)
      decreases hi - p + 1
    {
      if p !in used {
        return Some(p);
      }
      p := p + 1;
    }
    r := None;
  }

  lemma {:induction false} RangeSize(lo: int, hi: int)
    ensures |Range(lo, hi)| == if lo <= hi then hi - lo + 1 else 0
    decreases hi - lo + 1
  {
    if lo <= hi {
      RangeSize(lo + 1, hi);
      assert Range(lo, hi) == Range(lo + 1, hi) + {lo};
    } else {
      assert Range(lo, hi) == {};
    }
  }

  /** At most one value per world. */
  lemma {:induction false} ImageSize(specs: map<string, Pair>, f: Pair -> int, ws: set<string>)
    requires ws <= specs.Keys
    ensures |set w | w in ws :: f(specs[w])| <= |ws|
    decreases ws
  {
    var image := set w | w in ws :: f(specs[w]);
    if ws == {} {
      assert image == {};
    } else {
      var w :| w in ws;
      ImageSize(specs, f, ws - {w});
      var rest := set v | v in ws - {w} :: f(specs[v]);
      assert image == rest + {f(specs[w])};
    }
  }

  /** The only port of a pair that can lie in the range is `f` of it. */
  ghost predicate Holds(p: Pair, f: Pair -> int, lo: int, hi: int) {
    (Between(lo, p.game, hi) ==> p.game == f(p)) && (Between(lo, p.rcon, hi) ==> p.rcon == f(p))
  }

  /** Each world holds at most one port of a range: pigeonhole. */
  lemma RoomForOneMore(specs: map<string, Pair>, f: Pair -> int, lo: int, hi: int)
    requires forall w | w in specs :: Holds(specs[w], f, lo, hi)
    requires |specs.Keys| < hi - lo + 1
    ensures Lowest(lo, hi, Used(specs)).Some?
  {
    LowestIsLowest(lo, hi, Used(specs));
    if Range(lo, hi) <= Used(specs) {
      var image := set w | w in specs.Keys :: f(specs[w]);
      forall p | p in Range(lo, hi)
        ensures p in image
      {
        var w :| w in specs && (p == specs[w].game || p == specs[w].rcon);
        assert Holds(specs[w], f, lo, hi);
        assert f(specs[w]) in image;
      }
      SubsetSize(Range(lo, hi), image);
      RangeSize(lo, hi);
      ImageSize(specs, f, specs.Keys);
    }
  }

  // ------------------------------------------------------------------- steps

  /** A reservation may find a volume left over from an old world of that name. */
  datatype Event =
    | Reserve(world: string, leftover: bool)
    | Install(world: string, running: bool, helmOk: bool)
    | Uninstall(world: string)
    | RemoveRecord(world: string)
    | LoseRecord(world: string)
    | ForgetRconPort(world: string)

  /** The record that loading a world leaves behind: rebuilt if it was lost. */
  function Record(b: Book, w: string): Pair
    requires w in Worlds(b)
  {
    if w in b.releases && (w !in b.records || b.records[w].game == 0) then b.releases[w] else b.records[w]
  }

  function Healed(b: Book): (h: Book)
    ensures h.releases == b.releases && h.records.Keys == Worlds(b)
    ensures forall w | w in h.records :: h.records[w] == Record(b, w)
  {
    b.(records := map w | w in Worlds(b) :: Record(b, w))
  }

  /** The ports an install uses: a running server that has no RCON port gets
      one; None if the range is full. */
  function Ensured(cfg: Config, b: Book, w: string, running: bool): (r: Option<Pair>)
    requires w in Worlds(b)
  {
    var own := PortsOf(b, w);
    if !running || own.rcon != 0 then Some(own)
    else
      var p := Lowest(cfg.rconMin, cfg.rconMax, Used(Seen(b) - {w}));
      if p.Some? then Some(Pair(own.game, p.value)) else None
  }

  /** The effect of an event; None if the service refuses it or it cannot
      happen. */
  function After(cfg: Config, b: Book, e: Event): Option<Book> {
    var h := Healed(b);
    match e
    case Reserve(w, leftover) =>
      var game := Lowest(cfg.portMin, cfg.portMax, Used(Seen(b)));
      var rcon := Lowest(cfg.rconMin, cfg.rconMax, Used(Seen(b)));
      if w in Worlds(b) || leftover || game.None? || rcon.None? then None
      else Some(h.(records := h.records[w := Pair(game.value, rcon.value)]))
    case Install(w, running, helmOk) =>
      if w !in Worlds(b) then None
      else if Ensured(cfg, b, w, running).None? then Some(h)
      else
        var ports := Ensured(cfg, b, w, running).value;
        Some(Book(
          if ports.rcon != PortsOf(b, w).rcon then h.records[w := ports] else h.records,
          if helmOk then h.releases[w := ports] else h.releases))
    case Uninstall(w) => if w in b.records then Some(b.(releases := b.releases - {w})) else None
    case RemoveRecord(w) => if w !in b.releases then Some(b.(records := b.records - {w})) else None
    case LoseRecord(w) => Some(b.(records := b.records - {w}))
    case ForgetRconPort(w) =>
      if w in b.records then Some(b.(records := b.records[w := b.records[w].(rcon := 0)])) else None
  }

  // --------------------------------------------------------------- invariant

  ghost predicate InRange(cfg: Config, p: Pair) {
    && cfg.portMin <= p.game <= cfg.portMax && p.game != 0
    && (p.rcon != 0 ==> cfg.rconMin <= p.rcon <= cfg.rconMax)
  }

  ghost predicate Apart(p: Pair, q: Pair) {
    p.game != q.game && (p.rcon != 0 ==> p.rcon != q.rcon)
  }

  /** All ports in use are in their own range and pairwise distinct. */
  ghost predicate PortsApart(cfg: Config, b: Book) {
    && (forall w | w in Worlds(b) :: InRange(cfg, PortsOf(b, w)))
    && (forall v, w | v in Worlds(b) && w in Worlds(b) && v != w :: Apart(PortsOf(b, v), PortsOf(b, w)))
  }

  /** A release carries the world's game port, and its RCON port or none. */
  ghost predicate Mirrors(release: Pair, seen: Pair) {
    release.game == seen.game && (release.rcon == 0 || release.rcon == seen.rcon)
  }

  /** What one world's entries look like. */
  ghost predicate Entry(b: Book, w: string) {
    && (w in b.records ==> b.records[w].game != 0)
    && (w in b.releases ==> Mirrors(b.releases[w], PortsOf(b, w)))
  }

  ghost predicate Inv(cfg: Config, b: Book) {
    && cfg.Valid() && cfg.portMin >= 1 && cfg.rconMin >= 1
    && PortsApart(cfg, b) && forall w :: Entry(b, w)
  }

  /** `b'` shows the same worlds and ports as `b`, except for `w`. */
  ghost predicate OnlyAt(b: Book, w: string, b': Book) {
    forall v | v != w :: (v in Worlds(b) <==> v in Worlds(b')) && Entry(b', v)
      && (v in Worlds(b) ==> PortsOf(b', v) == PortsOf(b, v))
  }

  /** It is enough to look at the one world an event concerns. */
  lemma OneWorldChanged(cfg: Config, b: Book, w: string, b': Book)
    requires Inv(cfg, b) && OnlyAt(b, w, b') && Entry(b', w)
    requires w in Worlds(b') ==> InRange(cfg, PortsOf(b', w))
    requires w in Worlds(b') ==> forall v | v in Worlds(b) && v != w :: Apart(PortsOf(b', w), PortsOf(b, v))
    ensures Inv(cfg, b')
  {
    forall v, u | v in Worlds(b') && u in Worlds(b') && v != u
      ensures Apart(PortsOf(b', v), PortsOf(b', u))
    {
      assert v != w ==> v in Worlds(b);
      assert u != w ==> u in Worlds(b);
    }
  }

  lemma HealingShowsTheSame(cfg: Config, b: Book, v: string)
    requires Inv(cfg, b) && v in Worlds(b)
    ensures v in Worlds(Healed(b)) && PortsOf(Healed(b), v) == PortsOf(b, v) && Entry(Healed(b), v)
    ensures Healed(b).records[v].game == PortsOf(b, v).game && Healed(b).records[v].game != 0
  {
    assert InRange(cfg, PortsOf(b, v)) && Entry(b, v);
  }

  lemma UsedHolds(specs: map<string, Pair>, w: string)
    requires w in specs
    ensures specs[w].game in Used(specs) && specs[w].rcon in Used(specs)
  {
  }

  lemma ReserveChangesOne(cfg: Config, b: Book, w: string, leftover: bool, b': Book)
    requires Inv(cfg, b) && After(cfg, b, Reserve(w, leftover)) == Some(b')
    ensures OnlyAt(b, w, b') && Entry(b', w) && w !in Worlds(b) && w in Worlds(b')
    ensures var p := PortsOf(b', w);
      && Lowest(cfg.portMin, cfg.portMax, Used(Seen(b))) == Some(p.game)
      && Lowest(cfg.rconMin, cfg.rconMax, Used(Seen(b))) == Some(p.rcon)
  {
    hide Lowest, Used, InRange, Apart, Seen;
    LowestIsLowest(cfg.portMin, cfg.portMax, Used(Seen(b)));
    forall v | v != w { OthersUntouched(cfg, b, w, b', v); }
  }

  /** Healing the records and writing one of them leaves the others alone. */
  lemma OthersUntouched(cfg: Config, b: Book, w: string, b': Book, v: string)
    requires Inv(cfg, b) && v != w
    requires v in b'.records <==> v in Healed(b).records
    requires v in b'.releases <==> v in b.releases
    requires v in b'.records ==> b'.records[v] == Healed(b).records[v]
    requires v in b'.releases ==> b'.releases[v] == b.releases[v]
    ensures (v in Worlds(b) <==> v in Worlds(b')) && Entry(b', v)
    ensures v in Worlds(b) ==> PortsOf(b', v) == PortsOf(b, v)
  {
    hide Lowest, Used, InRange, Apart, Seen;
    if v in Worlds(b) {
      HealingShowsTheSame(cfg, b, v);
    }
  }

  lemma ReserveKeepsInv(cfg: Config, b: Book, w: string, leftover: bool, b': Book)
    requires Inv(cfg, b) && After(cfg, b, Reserve(w, leftover)) == Some(b')
    ensures Inv(cfg, b')
  {
    ReserveChangesOne(cfg, b, w, leftover, b');
    var specs := Seen(b);
    hide Lowest, Used, After, Healed, PortsOf, OnlyAt, Entry, Seen;
    LowestIsLowest(cfg.portMin, cfg.portMax, Used(specs));
    LowestIsLowest(cfg.rconMin, cfg.rconMax, Used(specs));
    forall v | v in Worlds(b)
      ensures Apart(PortsOf(b', w), PortsOf(b, v))
    {
      UsedHolds(specs, v);
    }
    OneWorldChanged(cfg, b, w, b');
  }

  lemma EnsuredIsFree(cfg: Config, b: Book, w: string, running: bool)
    requires Inv(cfg, b) && w in Worlds(b) && Ensured(cfg, b, w, running).Some?
    ensures var p := Ensured(cfg, b, w, running).value;
      && InRange(cfg, p) && p.game == PortsOf(b, w).game && (PortsOf(b, w).rcon != 0 ==> p.rcon == PortsOf(b, w).rcon)
      && forall v | v in Worlds(b) && v != w :: Apart(p, PortsOf(b, v))
  {
    hide Lowest, Used, Healed, PortsOf, Entry, Seen;
    var others := Seen(b) - {w};
    LowestIsLowest(cfg.rconMin, cfg.rconMax, Used(others));
    assert InRange(cfg, PortsOf(b, w));
    forall v | v in Worlds(b) && v != w
      ensures Apart(Ensured(cfg, b, w, running).value, PortsOf(b, v))
    {
      assert Apart(PortsOf(b, w), PortsOf(b, v));
      assert v in others && others[v] == PortsOf(b, v);
      UsedHolds(others, v);
    }
  }

  lemma InstallOwnWorld(cfg: Config, b: Book, w: string, running: bool, helmOk: bool, b': Book)
    requires Inv(cfg, b) && After(cfg, b, Install(w, running, helmOk)) == Some(b')
    ensures w in Worlds(b) && w in Worlds(b') && Entry(b', w)
    ensures var ports := Ensured(cfg, b, w, running);
      PortsOf(b', w) == if ports.Some? then ports.value else PortsOf(b, w)
  {
    hide Lowest, Used, InRange, Apart, Seen;
    HealingShowsTheSame(cfg, b, w);
  }

  lemma InstallChangesOne(cfg: Config, b: Book, w: string, running: bool, helmOk: bool, b': Book)
    requires Inv(cfg, b) && After(cfg, b, Install(w, running, helmOk)) == Some(b')
    ensures w in Worlds(b) && w in Worlds(b') && OnlyAt(b, w, b') && Entry(b', w)
    ensures var ports := Ensured(cfg, b, w, running);
      PortsOf(b', w) == if ports.Some? then ports.value else PortsOf(b, w)
  {
    InstallOwnWorld(cfg, b, w, running, helmOk, b');
    forall v | v != w
      ensures (v in Worlds(b) <==> v in Worlds(b')) && Entry(b', v)
      ensures v in Worlds(b) ==> PortsOf(b', v) == PortsOf(b, v)
    {
      InstallWritesOwn(cfg, b, w, running, helmOk, b', v);
      hide After;
      OthersUntouched(cfg, b, w, b', v);
    }
    hide After, Inv, Entry, PortsOf, Ensured;
  }

  lemma InstallWritesOwn(cfg: Config, b: Book, w: string, running: bool, helmOk: bool, b': Book, v: string)
    requires v != w && After(cfg, b, Install(w, running, helmOk)) == Some(b')
    ensures v in b'.records <==> v in Healed(b).records
    ensures v in b'.releases <==> v in b.releases
    ensures v in b'.records ==> b'.records[v] == Healed(b).records[v]
    ensures v in b'.releases ==> b'.releases[v] == b.releases[v]
  {
    hide Ensured, PortsOf, Seen, Used, Lowest;
    assert Healed(b).releases == b.releases;
    hide Healed;
  }

  lemma InstallKeepsInv(cfg: Config, b: Book, w: string, running: bool, helmOk: bool, b': Book)
    requires Inv(cfg, b) && After(cfg, b, Install(w, running, helmOk)) == Some(b')
    ensures Inv(cfg, b')
    ensures PortsOf(b', w).game == PortsOf(b, w).game
    ensures PortsOf(b, w).rcon != 0 ==> PortsOf(b', w).rcon == PortsOf(b, w).rcon
  {
    InstallChangesOne(cfg, b, w, running, helmOk, b');
    hide Lowest, Used, Seen, Healed, OnlyAt, Ensured, After, PortsOf, Entry;
    if Ensured(cfg, b, w, running).Some? {
      EnsuredIsFree(cfg, b, w, running);
    }
    OneWorldChanged(cfg, b, w, b');
  }

  /** The event takes an RCON port away: one of its two copies goes while the
      other does not carry it. */
  ghost predicate DropsRconPort(b: Book, e: Event, w: string) {
    match e
    case LoseRecord(v) => v == w && w in b.releases && b.releases[w].rcon == 0
    case ForgetRconPort(v) => v == w && (w in b.releases ==> b.releases[w].rcon == 0)
    case Uninstall(v) => v == w && w in b.records && b.records[w].rcon == 0
    case _ => false
  }

  lemma LossChangesOne(cfg: Config, b: Book, e: Event, b': Book)
    requires Inv(cfg, b) && After(cfg, b, e) == Some(b') && !e.Reserve? && !e.Install?
    ensures OnlyAt(b, e.world, b') && Entry(b', e.world)
    ensures e.world in Worlds(b') ==> e.world in Worlds(b)
    ensures e.world in Worlds(b') ==>
      var p, p' := PortsOf(b, e.world), PortsOf(b', e.world);
      p'.game == p.game && p'.rcon == if DropsRconPort(b, e, e.world) then 0 else p.rcon
  {
    assert Entry(b, e.world);
    LossOfOwn(cfg, b, e, b');
    forall v | v != e.world
      ensures (v in Worlds(b) <==> v in Worlds(b')) && Entry(b', v)
      ensures v in Worlds(b) ==> PortsOf(b', v) == PortsOf(b, v)
    {
      assert Entry(b, v);
      LossOfOthers(cfg, b, e, b', v);
    }
    hide After, Inv, Entry, PortsOf, DropsRconPort;
  }

  lemma LossOfOwn(cfg: Config, b: Book, e: Event, b': Book)
    requires Entry(b, e.world) && After(cfg, b, e) == Some(b') && !e.Reserve? && !e.Install?
    ensures Entry(b', e.world) && (e.world in Worlds(b') ==> e.world in Worlds(b))
    ensures e.world in Worlds(b') ==>
      var p, p' := PortsOf(b, e.world), PortsOf(b', e.world);
      p'.game == p.game && p'.rcon == if DropsRconPort(b, e, e.world) then 0 else p.rcon
  {
    hide Lowest, Used, Healed, Seen;
  }

  lemma LossOfOthers(cfg: Config, b: Book, e: Event, b': Book, v: string)
    requires Entry(b, v) && After(cfg, b, e) == Some(b') && !e.Reserve? && !e.Install? && v != e.world
    ensures (v in Worlds(b) <==> v in Worlds(b')) && Entry(b', v)
    ensures v in Worlds(b) ==> PortsOf(b', v) == PortsOf(b, v)
  {
    hide Lowest, Used, Healed, Seen;
  }

  lemma LossKeepsInv(cfg: Config, b: Book, e: Event, b': Book)
    requires Inv(cfg, b) && After(cfg, b, e) == Some(b') && !e.Reserve? && !e.Install?
    ensures Inv(cfg, b')
  {
    LossChangesOne(cfg, b, e, b');
    hide Lowest, Used, Seen, Healed, OnlyAt, After, PortsOf, Entry, DropsRconPort;
    if e.world in Worlds(b') {
      assert InRange(cfg, PortsOf(b, e.world));
      forall v | v in Worlds(b) && v != e.world
        ensures Apart(PortsOf(b', e.world), PortsOf(b, v))
      {
        assert Apart(PortsOf(b, e.world), PortsOf(b, v));
      }
    }
    OneWorldChanged(cfg, b, e.world, b');
  }

  lemma StepKeepsInv(cfg: Config, b: Book, e: Event, b': Book)
    requires Inv(cfg, b) && After(cfg, b, e) == Some(b')
    ensures Inv(cfg, b')
  {
    hide Inv, After;
    match e
    case Reserve(w, leftover) => ReserveKeepsInv(cfg, b, w, leftover, b');
    case Install(w, running, helmOk) => InstallKeepsInv(cfg, b, w, running, helmOk, b');
    case _ => LossKeepsInv(cfg, b, e, b');
  }

  // ------------------------------------------------------------ main results

  ghost predicate IsRun(cfg: Config, books: seq<Book>, events: seq<Event>) {
    && |books| == |events| + 1
    && cfg.Valid() && cfg.portMin >= 1 && cfg.rconMin >= 1
    && books[0] == Book(map[], map[])
    && forall i | 0 <= i < |events| :: After(cfg, books[i], events[i]) == Some(books[i + 1])
  }

  /** Over every run all ports are in their own range and pairwise distinct. */
  lemma {:induction false} PortsNeverClash(cfg: Config, books: seq<Book>, events: seq<Event>, i: nat)
    requires IsRun(cfg, books, events) && i < |books|
    ensures Inv(cfg, books[i]) && PortsApart(cfg, books[i])
  {
    if i > 0 {
      PortsNeverClash(cfg, books, events, i - 1);
      StepKeepsInv(cfg, books[i - 1], events[i - 1], books[i]);
    }
  }

  /** A new world is refused exactly if an old volume bears its name or a range is
      full, so there is room whenever there are fewer worlds than ports. */
  lemma AllocationSucceedsWhileThereIsRoom(
      cfg: Config, books: seq<Book>, events: seq<Event>, i: nat, w: string, leftover: bool)
    requires IsRun(cfg, books, events) && i < |books| && w !in Worlds(books[i])
    ensures After(cfg, books[i], Reserve(w, leftover)).None? <==>
      (leftover
       || Range(cfg.portMin, cfg.portMax) <= Used(Seen(books[i]))
       || Range(cfg.rconMin, cfg.rconMax) <= Used(Seen(books[i])))
    ensures |Worlds(books[i])| < cfg.portMax - cfg.portMin + 1 && |Worlds(books[i])| < cfg.rconMax - cfg.rconMin + 1
      ==> (After(cfg, books[i], Reserve(w, leftover)).Some? <==> !leftover)
  {
    PortsNeverClash(cfg, books, events, i);
    hide Lowest, Used, Seen, Healed, PortsOf, Entry, Apart;
    var specs := Seen(books[i]);
    FreeIffNotFull(cfg.portMin, cfg.portMax, Used(specs));
    FreeIffNotFull(cfg.rconMin, cfg.rconMax, Used(specs));
    if |specs.Keys| < cfg.portMax - cfg.portMin + 1 && |specs.Keys| < cfg.rconMax - cfg.rconMin + 1 {
      forall v | v in specs
        ensures Holds(specs[v], (p: Pair) => p.game, cfg.portMin, cfg.portMax)
        ensures Holds(specs[v], (p: Pair) => p.rcon, cfg.rconMin, cfg.rconMax)
      {
        assert InRange(cfg, PortsOf(books[i], v));
      }
      RoomForOneMore(specs, (p: Pair) => p.game, cfg.portMin, cfg.portMax);
      RoomForOneMore(specs, (p: Pair) => p.rcon, cfg.rconMin, cfg.rconMax);
    }
  }

  lemma FreeIffNotFull(lo: int, hi: int, used: set<int>)
    ensures Lowest(lo, hi, used).None? <==> Range(lo, hi) <= used
  {
    LowestIsLowest(lo, hi, used);
    if Lowest(lo, hi, used).Some? {
      assert Lowest(lo, hi, used).value in Range(lo, hi);
    }
  }

  /** A world's ports stay as they are for as long as the world is known: its
      game port always, its RCON port exactly if no event drops it. */
  lemma PortsAreStable(cfg: Config, books: seq<Book>, events: seq<Event>, i: nat, w: string)
    requires IsRun(cfg, books, events) && i < |events|
    requires w in Worlds(books[i]) && w in Worlds(books[i + 1])
    ensures PortsOf(books[i + 1], w).game == PortsOf(books[i], w).game
    ensures PortsOf(books[i], w).rcon != 0 ==>
      (PortsOf(books[i + 1], w).rcon == PortsOf(books[i], w).rcon <==> !DropsRconPort(books[i], events[i], w))
  {
    PortsNeverClash(cfg, books, events, i);
    var b, e, b' := books[i], events[i], books[i + 1];
    assert After(cfg, b, e) == Some(b');
    hide Lowest, Used, Seen, Healed, After, Ensured, Entry, PortsOf, Apart, Inv;
    match e
    case Reserve(v, leftover) => ReserveChangesOne(cfg, b, v, leftover, b');
    case Install(v, running, helmOk) =>
      InstallChangesOne(cfg, b, v, running, helmOk, b');
      InstallKeepsInv(cfg, b, v, running, helmOk, b');
    case _ => LossChangesOne(cfg, b, e, b');
  }

  ghost predicate ChangesHands(books: seq<Book>, i: nat, j: nat, v: string, w: string) {
    && i < j < |books| && v in Worlds(books[i]) && v in Worlds(books[j]) && w in Worlds(books[j]) && v != w
    && PortsOf(books[i], v).rcon == PortsOf(books[j], w).rcon != 0
  }

  ghost predicate Steps(cfg: Config, b: Book, e: Event, b': Book) { After(cfg, b, e) == Some(b') }

  /** A run with one more event. */
  lemma RunGoesOn(cfg: Config, books: seq<Book>, events: seq<Event>, e: Event, b': Book)
    requires IsRun(cfg, books, events) && Steps(cfg, books[|books| - 1], e, b')
    ensures IsRun(cfg, books + [b'], events + [e])
  {
    hide After;
    var books', events' := books + [b'], events + [e];
    forall i | 0 <= i < |events'|
      ensures After(cfg, books'[i], events'[i]) == Some(books'[i + 1])
    {
      if i < |events| { assert After(cfg, books[i], events[i]) == Some(books[i + 1]); }
    }
  }

  const CONFIG := Config(30565, 30584, 30600, 30619)
  const NO_RCON := map["a" := Pair(30565, 0)]
  const WITH_RCON := map["a" := Pair(30565, 30600)]

  /** A dropped port is free for the next world: a start assigns it, its install
      fails, the record is lost, and another world is launched. */
  lemma RconPortCanChangeHands()
    ensures exists cfg, books, events, i, j, v, w :: IsRun(cfg, books, events) && ChangesHands(books, i, j, v, w)
  {
    var b3, b4, b5 := Book(NO_RCON, NO_RCON), Book(WITH_RCON, NO_RCON), Book(map[], NO_RCON);
    var b6 := Book(NO_RCON["b" := Pair(30566, 30600)], NO_RCON);
    FirstHand();
    var books, events :| IsRun(CONFIG, books, events) && books[|books| - 1] == b3;
    StartAssigns();
    RecordIsLost();
    NextWorldGetsIt();
    HandsChanged(b4, b6);
    hide *;
    RunGoesOn(CONFIG, books, events, Install("a", true, false), b4);
    var books1, events1 := books + [b4], events + [Install("a", true, false)];
    RunGoesOn(CONFIG, books1, events1, LoseRecord("a"), b5);
    var books2, events2 := books1 + [b5], events1 + [LoseRecord("a")];
    RunGoesOn(CONFIG, books2, events2, Reserve("b", false), b6);
    ThreeMore(books, b4, b5, b6);
    ChangedInRun(books2 + [b6], |books|, |books| + 2, b4, b6);
  }

  lemma ThreeMore(books: seq<Book>, x: Book, y: Book, z: Book)
    ensures var r := books + [x] + [y] + [z];
      |r| == |books| + 3 && r[|books|] == x && r[|books| + 2] == z
  {
  }

  lemma HandsChanged(b4: Book, b6: Book)
    requires b4 == Book(WITH_RCON, NO_RCON) && b6 == Book(NO_RCON["b" := Pair(30566, 30600)], NO_RCON)
    ensures ChangesHands([b4, b6], 0, 1, "a", "b")
  {
  }

  lemma ChangedInRun(books: seq<Book>, i: nat, j: nat, b4: Book, b6: Book)
    requires i < j < |books| && books[i] == b4 && books[j] == b6 && ChangesHands([b4, b6], 0, 1, "a", "b")
    ensures ChangesHands(books, i, j, "a", "b")
  {
  }

  /** World a is launched, loses its RCON port and is installed without one. */
  lemma FirstHand()
    ensures exists books, events :: IsRun(CONFIG, books, events) && books[|books| - 1] == Book(NO_RCON, NO_RCON)
  {
    var b0, b1, b2, b3 := Book(map[], map[]), Book(WITH_RCON, map[]), Book(NO_RCON, map[]), Book(NO_RCON, NO_RCON);
    assert IsRun(CONFIG, [b0], []);
    FirstLaunch();
    PortForgotten();
    FirstInstall();
    hide *;
    RunGoesOn(CONFIG, [b0], [], Reserve("a", false), b1);
    var books1, events1 := [b0] + [b1], [] + [Reserve("a", false)];
    RunGoesOn(CONFIG, books1, events1, ForgetRconPort("a"), b2);
    var books2, events2 := books1 + [b2], events1 + [ForgetRconPort("a")];
    RunGoesOn(CONFIG, books2, events2, Install("a", false, true), b3);
    var books3 := books2 + [b3];
    assert books3[|books3| - 1] == b3;
  }

  lemma FirstLaunch()
    ensures Steps(CONFIG, Book(map[], map[]), Reserve("a", false), Book(WITH_RCON, map[]))
  {
    var b0 := Book(map[], map[]);
    assert Seen(b0) == map[] && Used(map[]) == {};
    assert Healed(b0).records == map[];
    assert map[]["a" := Pair(30565, 30600)] == WITH_RCON;
  }

  lemma PortForgotten()
    ensures Steps(CONFIG, Book(WITH_RCON, map[]), ForgetRconPort("a"), Book(NO_RCON, map[]))
  {
    assert WITH_RCON["a" := Pair(30565, 0)] == NO_RCON;
  }

  lemma FirstInstall()
    ensures Steps(CONFIG, Book(NO_RCON, map[]), Install("a", false, true), Book(NO_RCON, NO_RCON))
  {
    var b2 := Book(NO_RCON, map[]);
    assert Healed(b2).records == NO_RCON;
    assert b2.releases["a" := Pair(30565, 0)] == NO_RCON;
  }

  lemma StartAssigns()
    ensures Steps(CONFIG, Book(NO_RCON, NO_RCON), Install("a", true, false), Book(WITH_RCON, NO_RCON))
  {
    var b3 := Book(NO_RCON, NO_RCON);
    assert Seen(b3) - {"a"} == map[] && Used(map[]) == {};
    assert Healed(b3).records == NO_RCON;
    assert NO_RCON["a" := Pair(30565, 30600)] == WITH_RCON;
  }

  lemma RecordIsLost()
    ensures Steps(CONFIG, Book(WITH_RCON, NO_RCON), LoseRecord("a"), Book(map[], NO_RCON))
  {
    assert WITH_RCON - {"a"} == map[];
  }

  lemma NextWorldGetsIt()
    ensures Steps(CONFIG, Book(map[], NO_RCON), Reserve("b", false), Book(NO_RCON["b" := Pair(30566, 30600)], NO_RCON))
  {
    var b5 := Book(map[], NO_RCON);
    assert Healed(b5).records == NO_RCON;
    assert Used(Seen(b5)) == {30565, 0} by { UsedHolds(Seen(b5), "a"); }
    assert Lowest(30565, 30584, {30565, 0}) == Some(30566);
    assert Lowest(30600, 30619, {30565, 0}) == Some(30600);
  }
}
