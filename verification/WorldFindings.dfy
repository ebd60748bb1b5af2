/** Runs of a world in which what a reader would expect does not hold: a treasure is destroyed after a
    restore, two units share a cell, and leaving costs a player its revival. Each is shown from every
    world that bootstrap builds, or from every state of the kind concerned. */
module WorldFindings {
  import opened Basics
  import opened WorldModel
  import opened WorldPlacement
  import opened WorldLedger
  import opened WorldCheckpoint
  import opened WorldLife
  import Decimal

  /** A user's first profile, as if it had last been seen on cell c of map m. */
  function ProfileAt(u: string, m: string, c: Cell): Profile {
    Profile(u, "", m, "", c, INIT_HP, INIT_HP, INIT_ATTACK, MAX_POTIONS, 0, 0, 0, 0, true)
  }

  // ----- A bootstrapped world: its treasures and where they lie -----

  /** The treasures are numbered from 0, each lies on a walkable cell, and each is worth something. */
  ghost predicate Supplied(s: State) {
    && Ledgered(s) && |s.treasures| == s.nextTreasure
    && (forall k: nat | k < s.nextTreasure :: TreasureId(s.cfg.id, k) in s.treasures)
    && (forall id | id in s.treasures :: Walkable(s, s.treasures[id].at, "") && s.treasures[id].value >= 1)
  }

  lemma SameWalkable(s: State, t: State, c: Cell, u: string)
    requires t.terrain == s.terrain && t.players == s.players && t.npcs == s.npcs
    ensures Walkable(t, c, u) <==> Walkable(s, c, u)
  {
  }

  lemma DropSupplied(s: State, c: Cell, value: int, kind: string)
    requires Supplied(s) && Walkable(s, c, "") && value >= 1
    ensures Supplied(DropTreasure(s, c, value, kind))
  {
    hide TreasureId, Ledgered, Walkable, Wealth;
    var t := DropTreasure(s, c, value, kind);
    DropLedgered(s, c, value, kind);
    DropKeepsUnits(s, c, value, kind);
    assert InBounds(s.terrain, c) by { WalkableIsFree(s, c, ""); }
    FreshId(s);
    forall id | id in t.treasures ensures Walkable(t, t.treasures[id].at, "") && t.treasures[id].value >= 1 {
      assert id in s.treasures ==> t.treasures[id].at == s.treasures[id].at;
      SameWalkable(s, t, t.treasures[id].at, "");
    }
    DropCount(s, c, value, kind);
  }

  lemma FreshId(s: State)
    requires Ledgered(s)
    ensures TreasureId(s.cfg.id, s.nextTreasure) !in s.treasures
  {
  }

  lemma DropCount(s: State, c: Cell, value: int, kind: string)
    requires InBounds(s.terrain, c) && TreasureId(s.cfg.id, s.nextTreasure) !in s.treasures
    ensures |DropTreasure(s, c, value, kind).treasures| == |s.treasures| + if TreasureOn(s, c) then 0 else 1
  {
    hide TreasureId;
    var t := DropTreasure(s, c, value, kind);
    if TreasureOn(s, c) {
      assert t.treasures.Keys == s.treasures.Keys;
    } else {
      assert t.treasures.Keys == s.treasures.Keys + {TreasureId(s.cfg.id, s.nextTreasure)};
    }
    assert |t.treasures.Keys| == |t.treasures| && |s.treasures.Keys| == |s.treasures|;
  }

  lemma SupplyOne(s: State)
    requires Supplied(s)
    ensures var t := SpawnTreasure(s, "supply"); Supplied(t) && |t.treasures| <= |s.treasures| + 1
  {
    hide Ledgered, TreasureId, Walkable, DropTreasure, Supplied;
    if WalkableCells(s, "") != {} {
      var c := BestSpawn(s, "", false).value;
      var d := s.(drawn := s.drawn + 2);
      DrawnSupplied(s, d);
      SameWalkable(s, d, c, "");
      DropSupplied(d, c, 1 + s.cfg.stream(s.drawn + 1) % 4, "supply");
      WalkableIsFree(d, c, "");
      SuppliedFresh(d);
      DropCount(d, c, 1 + s.cfg.stream(s.drawn + 1) % 4, "supply");
    }
  }

  lemma SuppliedFresh(s: State)
    requires Supplied(s)
    ensures Ledgered(s) && TreasureId(s.cfg.id, s.nextTreasure) !in s.treasures
  {
  }

  lemma DrawnSupplied(s: State, d: State)
    requires Supplied(s) && d == s.(drawn := d.drawn)
    ensures Supplied(d)
  {
    hide TreasureId, Walkable;
    forall id | id in d.treasures ensures Walkable(d, d.treasures[id].at, "") {
      SameWalkable(s, d, d.treasures[id].at, "");
    }
  }

  lemma {:induction false} SupplyAll(s: State, n: nat)
    requires Supplied(s) && |s.treasures| <= MAX_TREASURES / 2
    ensures var t := BootTreasures(s, n); Supplied(t) && |t.treasures| <= MAX_TREASURES / 2
    decreases n
  {
    hide Supplied, SpawnTreasure;
    if n > 0 && |s.treasures| < MAX_TREASURES / 2 {
      SupplyOne(s);
      SupplyAll(SpawnTreasure(s, "supply"), n - 1);
    }
  }

  lemma {:induction false} BootNpcsNoTreasure(s: State, n: nat)
    requires s.treasures == map[] && s.nextTreasure == 0
    ensures BootNpcs(s, n).treasures == map[] && BootNpcs(s, n).nextTreasure == 0
    decreases n
  {
    hide NpcId;
    if n > 0 && |s.npcs| < MIN_NPCS {
      BootNpcsNoTreasure(SpawnNpc(s), n - 1);
    }
  }

  lemma BuiltSupplied(s: State, cfg: Config)
    requires Built(s, cfg)
    ensures Supplied(s) && |s.treasures| == MAX_TREASURES / 2
  {
    hide BootNpcs, BootTreasures;
    var n: nat, m: nat :| BuiltIn(s, cfg, n, m);
    BootNpcsNoTreasure(EmptyWorld(cfg), n);
    SupplyAll(BootNpcs(EmptyWorld(cfg), n), m);
  }

  // ----- The restored counter destroys a treasure -----

  /** Somebody comes in on the cell of the treasure and picks it up without taking a step. */
  function Fetch(u: string, m: string, c: Cell): seq<Op> {
    [OpAdd(ProfileAt(u, m, c)), OpMove(u, "", 0)]
  }

  lemma FetchTakes(s: State, u: string, id: string)
    requires u !in s.players && u != "" && "" !in s.players
    requires Ledgered(s) && id in s.treasures && Walkable(s, s.treasures[id].at, "")
    ensures Fetched(s, Run(s, Fetch(u, s.cfg.id, s.treasures[id].at)), u, id)
  {
    var c := s.treasures[id].at;
    var p := ProfileAt(u, s.cfg.id, c);
    hide TreasureId, SafeCellDrawn;
    EntersThere(s, p);
    var s1 := AddPlayer(s, p);
    var t := Move(s1, u, "", 0);
    assert TreasureOn(s1, c) && TreasureAt(s1, c) == id;
    RunTwo(s, OpAdd(p), OpMove(u, "", 0));
  }

  /** u has come in on the cell of treasure id and has picked it up. */
  ghost predicate Fetched(s: State, t: State, u: string, id: string) {
    && t.cfg == s.cfg && t.terrain == s.terrain && t.npcs == s.npcs && t.nextTreasure == s.nextTreasure
    && t.version > s.version && t.treasures == s.treasures - {id}
    && id in s.treasures && t.players.Keys == s.players.Keys + {u} && t.players[u].at == s.treasures[id].at
    && forall v | v in s.players && v != u :: t.players[v] == s.players[v]
  }

  lemma EntersThere(s: State, p: Profile)
    requires Walkable(s, p.at, "") && p.lastMap == s.cfg.id && p.alive && p.username !in s.players && "" !in s.players
    ensures Entrant(s, p).at == p.at && Entrant(s, p).alive
    ensures Walkable(AddPlayer(s, p), p.at, p.username)
  {
    hide BestSpawn, SafeCellDrawn;
    var s1 := AddPlayer(s, p);
    forall v | v in s1.players && v != p.username && s1.players[v].alive ensures s1.players[v].at != p.at {
      assert v in s.players && v != "" && s1.players[v] == s.players[v];
    }
  }

  lemma RunTwo(s: State, a: Op, b: Op)
    ensures Run(s, [a, b]) == Apply(Apply(s, a), b)
  {
    hide Apply;
    var t := Apply(s, a);
    assert [a, b][1..] == [b];
    assert Run(t, [b]) == Apply(t, b) by { assert [b][1..] == []; }
  }

  /** The other treasures can still be reached. */
  lemma FetchedLeaves(s: State, t: State, u: string, id: string, j: string)
    requires Fetched(s, t, u, id) && Ledgered(s) && j in s.treasures && j != id && u !in s.players
    requires Walkable(s, s.treasures[j].at, "")
    ensures Ledgered(t) && j in t.treasures && t.treasures[j] == s.treasures[j] && Walkable(t, t.treasures[j].at, "")
  {
    hide TreasureId;
  }

  lemma {:induction false} RunJoin(s: State, xs: seq<Op>, ys: seq<Op>)
    ensures Run(s, xs + ys) == Run(Run(s, xs), ys)
    decreases |xs|
  {
    hide Apply;
    if xs == [] {
      assert xs + ys == ys;
    } else {
      assert (xs + ys)[1..] == xs[1..] + ys;
      RunJoin(Apply(s, xs[0]), xs[1..], ys);
    }
  }

  /** Two users fetch the treasures 0 and 1. */
  ghost function TwoFetched(s: State): seq<Op>
    requires Supplied(s) && |s.treasures| == MAX_TREASURES / 2
  {
    var a, b := TreasureId(s.cfg.id, 0), TreasureId(s.cfg.id, 1);
    Fetch("ann", s.cfg.id, s.treasures[a].at) + Fetch("bob", s.cfg.id, s.treasures[b].at)
  }

  lemma TwoFetchedLeaves(s: State)
    requires Supplied(s) && |s.treasures| == MAX_TREASURES / 2 && s.players == map[]
    ensures var t := Run(s, TwoFetched(s));
      && t.cfg == s.cfg && t.terrain == s.terrain && t.version > s.version && t.nextTreasure == s.nextTreasure
      && t.treasures == s.treasures - {TreasureId(s.cfg.id, 0)} - {TreasureId(s.cfg.id, 1)}
  {
    var a, b := TreasureId(s.cfg.id, 0), TreasureId(s.cfg.id, 1);
    if a == b { TreasureIdInjective(s.cfg.id, 0, 1); }
    hide TreasureId, Run, Fetch, Ledgered, Walkable;
    TakeTwo(s, a, b);
  }

  lemma TakeTwo(s: State, a: string, b: string)
    requires Ledgered(s) && s.players == map[] && a in s.treasures && b in s.treasures && a != b
    requires Walkable(s, s.treasures[a].at, "") && Walkable(s, s.treasures[b].at, "")
    ensures var t := Run(s, Fetch("ann", s.cfg.id, s.treasures[a].at) + Fetch("bob", s.cfg.id, s.treasures[b].at));
      && t.cfg == s.cfg && t.terrain == s.terrain && t.version > s.version && t.nextTreasure == s.nextTreasure
      && t.treasures == s.treasures - {a} - {b}
  {
    hide TreasureId, Run, Fetch, Ledgered, Walkable, Fetched;
    var xs := Fetch("ann", s.cfg.id, s.treasures[a].at);
    var ys := Fetch("bob", s.cfg.id, s.treasures[b].at);
    FetchTakes(s, "ann", a);
    var t1 := Run(s, xs);
    FetchedLeaves(s, t1, "ann", a, b);
    FetchedNames(s, t1, "ann", a);
    FetchTakes(t1, "bob", b);
    RunJoin(s, xs, ys);
    FetchedTwice(s, t1, Run(t1, ys), a, b);
  }

  lemma FetchedNames(s: State, t: State, u: string, id: string)
    requires Fetched(s, t, u, id)
    ensures t.players.Keys == s.players.Keys + {u} && t.cfg == s.cfg
  {
  }

  lemma FetchedTwice(s: State, t1: State, t: State, a: string, b: string)
    requires Fetched(s, t1, "ann", a) && Fetched(t1, t, "bob", b)
    ensures t.cfg == s.cfg && t.terrain == s.terrain && t.version > s.version && t.nextTreasure == s.nextTreasure
    ensures t.treasures == s.treasures - {a} - {b}
  {
  }

  lemma TwoLess(s: State, t: State, a: string, b: string)
    requires a in s.treasures && b in s.treasures && a != b && t.treasures == s.treasures - {a} - {b}
    ensures |t.treasures| == |s.treasures| - 2
  {
    assert t.treasures.Keys == s.treasures.Keys - {a} - {b};
    assert |t.treasures.Keys| == |t.treasures| && |s.treasures.Keys| == |s.treasures|;
  }

  /** From every bootstrapped world two users reach a state whose checkpoint, once restored, makes the next
      drop on any cell without treasure destroy another treasure: the counter restarts at the number of
      treasures plus one, here 3, and treasure 3 still lies there. */
  lemma RestoredCounterCollides(s: State, w: State, cfg: Config, nodeId: string, now: int, c: Cell, value: int, kind: string)
    requires Built(s, cfg) && w.cfg == cfg
    ensures Supplied(s) && |s.treasures| == MAX_TREASURES / 2
    ensures var t := Run(s, TwoFetched(s));
      var r := Restore(w, Captured(t, nodeId, now));
      Ledgered(t) && Wealth(r) == Wealth(t)
      && (InBounds(r.terrain, c) && !TreasureOn(r, c) ==> Wealth(DropTreasure(r, c, value, kind)) < Wealth(r) + value)
  {
    hide Built, Captured, Restore, Wealth, TwoFetched, Run, Supplied, Ledgered, TreasureId;
    BuiltSupplied(s, cfg);
    BuiltShape(s, cfg);
    TwoFetchedLeaves(s);
    var t := Run(s, TwoFetched(s));
    RoundTrip(t, w, nodeId, now);
    NormaliseWealth(t, w.drawn);
    StillNumbered(s, t);
    var r := Normalise(t, w.drawn);
    if InBounds(r.terrain, c) && !TreasureOn(r, c) {
      DropAccount(r, c, value, kind);
      assert Overwritten(r, c) == t.treasures[TreasureId(t.cfg.id, 3)].value;
    }
  }

  lemma StillLedgered(s: State, t: State)
    requires Ledgered(s) && t.cfg == s.cfg && t.nextTreasure == s.nextTreasure
    requires forall id | id in t.treasures :: id in s.treasures && t.treasures[id] == s.treasures[id]
    ensures Ledgered(t)
  {
    hide TreasureId;
  }

  lemma StillNumbered(s: State, t: State)
    requires Supplied(s) && |s.treasures| == MAX_TREASURES / 2 && t.cfg == s.cfg && t.nextTreasure == s.nextTreasure
    requires t.treasures == s.treasures - {TreasureId(s.cfg.id, 0)} - {TreasureId(s.cfg.id, 1)}
    ensures Ledgered(t) && |t.treasures| == 2
    ensures TreasureId(t.cfg.id, 3) in t.treasures && t.treasures[TreasureId(t.cfg.id, 3)].value >= 1
  {
    hide Walkable, TreasureId, Ledgered;
    StillLedgered(s, t);
    if TreasureId(s.cfg.id, 3) == TreasureId(s.cfg.id, 0) { TreasureIdInjective(s.cfg.id, 3, 0); }
    if TreasureId(s.cfg.id, 3) == TreasureId(s.cfg.id, 1) { TreasureIdInjective(s.cfg.id, 3, 1); }
    if TreasureId(s.cfg.id, 1) == TreasureId(s.cfg.id, 0) { TreasureIdInjective(s.cfg.id, 1, 0); }
    TwoLess(s, t, TreasureId(s.cfg.id, 0), TreasureId(s.cfg.id, 1));
  }

  // ----- A full map -----

  ghost function LivePlayers(s: State): set<string> {
    set u | u in s.players && s.players[u].alive
  }

  ghost function LiveNpcs(s: State): set<string> {
    set id | id in s.npcs && s.npcs[id].alive
  }

  ghost predicate Injective(m: map<string, Cell>) {
    forall j, k | j in m && k in m && m[j] == m[k] :: j == k
  }

  lemma {:induction false} InjectiveSize(m: map<string, Cell>)
    requires Injective(m)
    ensures |set k | k in m :: m[k]| == |m|
    decreases |m|
  {
    var image := set k | k in m :: m[k];
    if m != map[] {
      var j :| j in m;
      var rest := m - {j};
      InjectiveSize(rest);
      var smaller := set k | k in rest :: rest[k];
      assert image == smaller + {m[j]} by {
        forall c | c in image ensures c in smaller + {m[j]} {
          var k :| k in m && m[k] == c;
          if k != j { assert k in rest && rest[k] == c; }
        }
      }
      assert m[j] !in smaller;
    }
  }

  lemma PlayersApart(s: State)
    requires Separated(s)
    ensures |LivePlayerCells(s)| == |LivePlayers(s)| && LivePlayerCells(s) <= OpenCells(s.terrain)
  {
    hide OpenRows;
    var ps := map u | u in LivePlayers(s) :: s.players[u].at;
    forall u, v | u in ps && v in ps && ps[u] == ps[v] ensures u == v {
      assert LiveAt(s, PlayerPiece(u), ps[u]) && LiveAt(s, PlayerPiece(v), ps[v]);
    }
    InjectiveSize(ps);
    assert ps.Keys == LivePlayers(s);
    var image := set u | u in ps :: ps[u];
    OpenRowsAre(s.terrain, |s.terrain|);
    forall c | c in LivePlayerCells(s) ensures c in image && c in OpenCells(s.terrain) {
      var u :| u in s.players && s.players[u].alive && s.players[u].at == c;
      assert u in ps && LiveAt(s, PlayerPiece(u), c);
    }
    assert image == LivePlayerCells(s);
  }

  lemma NpcsApart(s: State)
    requires Separated(s)
    ensures |LiveNpcCells(s)| == |LiveNpcs(s)| && LiveNpcCells(s) <= OpenCells(s.terrain)
  {
    hide OpenRows;
    var ns := map id | id in LiveNpcs(s) :: s.npcs[id].at;
    forall i, j | i in ns && j in ns && ns[i] == ns[j] ensures i == j {
      assert LiveAt(s, NpcPiece(i), ns[i]) && LiveAt(s, NpcPiece(j), ns[j]);
    }
    InjectiveSize(ns);
    assert ns.Keys == LiveNpcs(s);
    var image := set id | id in ns :: ns[id];
    OpenRowsAre(s.terrain, |s.terrain|);
    forall c | c in LiveNpcCells(s) ensures c in image && c in OpenCells(s.terrain) {
      var id :| id in s.npcs && s.npcs[id].alive && s.npcs[id].at == c;
      assert id in ns && LiveAt(s, NpcPiece(id), c);
    }
    assert image == LiveNpcCells(s);
  }

  lemma KindsApart(s: State)
    requires Separated(s)
    ensures LivePlayerCells(s) !! LiveNpcCells(s)
  {
    forall c | c in LivePlayerCells(s) && c in LiveNpcCells(s) ensures false {
      var u :| u in s.players && s.players[u].alive && s.players[u].at == c;
      var id :| id in s.npcs && s.npcs[id].alive && s.npcs[id].at == c;
      assert LiveAt(s, PlayerPiece(u), c) && LiveAt(s, NpcPiece(id), c);
    }
  }

  /** Units that stand apart are no more than the open cells. */
  lemma UnitsFit(s: State)
    requires Separated(s)
    ensures |LivePlayers(s)| + |LiveNpcs(s)| <= |OpenCells(s.terrain)|
  {
    hide Separated, LivePlayerCells, LiveNpcCells, OpenCells;
    PlayersApart(s);
    NpcsApart(s);
    KindsApart(s);
    SubsetSize(LivePlayerCells(s) + LiveNpcCells(s), OpenCells(s.terrain));
  }

  lemma NameGiven(n: nat)
    ensures Decimal.Print(n) != ""
  {
  }

  /** n users come in, all of whom would like the spawn point. */
  function Crowd(cfg: Config, n: nat): seq<Op> {
    if n == 0 then [] else Crowd(cfg, n - 1) + [OpAdd(ProfileAt(Decimal.Print(n), cfg.id, cfg.spawn))]
  }

  function CrowdNames(n: nat): set<string> {
    set k | 1 <= k <= n :: Decimal.Print(k)
  }

  lemma {:induction false} CrowdSize(n: nat)
    ensures |CrowdNames(n)| == n
  {
    hide Decimal.Print;
    if n == 0 {
      assert CrowdNames(0) == {};
    } else {
      CrowdSize(n - 1);
      assert CrowdNames(n) == CrowdNames(n - 1) + {Decimal.Print(n)};
      if Decimal.Print(n) in CrowdNames(n - 1) {
        var k :| 1 <= k <= n - 1 && Decimal.Print(k) == Decimal.Print(n);
        Decimal.PrintInjective(k, n);
      }
    }
  }

  ghost predicate Crowded(s: State, t: State, n: nat) {
    && t.cfg == s.cfg && t.terrain == s.terrain && t.npcs == s.npcs
    && t.players.Keys == CrowdNames(n) && LivePlayers(t) == CrowdNames(n)
  }

  lemma CrowdGrows(s: State, t: State, p: Profile, n: nat)
    requires Crowded(s, t, n) && p.username == Decimal.Print(n + 1) && p.alive
    ensures Crowded(s, AddPlayer(t, p), n + 1)
  {
    hide SafeCell, SafeCellDrawn, Decimal.Print;
    var r := AddPlayer(t, p);
    assert CrowdNames(n + 1) == CrowdNames(n) + {Decimal.Print(n + 1)};
    assert r.players.Keys == CrowdNames(n + 1);
    forall u | u in r.players ensures r.players[u].alive {
      assert u != p.username ==> u in LivePlayers(t);
    }
  }

  lemma {:induction false} CrowdIn(s: State, n: nat)
    requires s.players == map[] && Separated(s) && LiveNpcs(s) == s.npcs.Keys
    ensures var t := Run(s, Crowd(s.cfg, n));
      Crowded(s, t, n) && (Separated(t) <==> n + |s.npcs| <= |OpenCells(s.terrain)| || n == 0)
  {
    var ops := Crowd(s.cfg, n);
    hide Separated, OpenCells, Crowded, CrowdNames, Apply, ProfileAt;
    if n == 0 {
      NobodyIn(s);
    } else {
      var ops1 := Crowd(s.cfg, n - 1);
      var p := ProfileAt(Decimal.Print(n), s.cfg.id, s.cfg.spawn);
      CrowdIn(s, n - 1);
      var t1 := Run(s, ops1);
      RunJoin(s, ops1, [OpAdd(p)]);
      OneMoreIn(s, t1, p, n);
    }
  }

  lemma NobodyIn(s: State)
    requires s.players == map[]
    ensures Crowded(s, s, 0)
  {
    assert CrowdNames(0) == {};
    assert LivePlayers(s) == {};
  }

  lemma OneMoreIn(s: State, t: State, p: Profile, n: nat)
    requires n > 0 && Crowded(s, t, n - 1) && LiveNpcs(s) == s.npcs.Keys && p == ProfileAt(Decimal.Print(n), s.cfg.id, s.cfg.spawn)
    requires Separated(t) <==> n - 1 + |s.npcs| <= |OpenCells(s.terrain)| || n == 1
    ensures Run(t, [OpAdd(p)]) == AddPlayer(t, p)
    ensures Crowded(s, AddPlayer(t, p), n)
    ensures Separated(AddPlayer(t, p)) <==> n + |s.npcs| <= |OpenCells(s.terrain)|
  {
    hide Separated, OpenCells, CrowdNames, AddPlayer, Decimal.Print;
    var r := AddPlayer(t, p);
    assert [OpAdd(p)][1..] == [];
    CrowdGrows(s, t, p, n - 1);
    CrowdSize(n - 1);
    CrowdSize(n);
    assert |t.players.Keys| == |t.players|;
    assert LiveNpcs(r) == s.npcs.Keys;
    assert |s.npcs.Keys| == |s.npcs|;
    if Separated(r) { UnitsFit(r); }
    if n + |s.npcs| <= |OpenCells(s.terrain)| {
      NameGiven(n);
      AddKept(t, p);
    }
  }

  lemma {:induction false} BootNpcsAlive(s: State, n: nat)
    requires LiveNpcs(s) == s.npcs.Keys
    ensures LiveNpcs(BootNpcs(s, n)) == BootNpcs(s, n).npcs.Keys
    decreases n
  {
    hide NpcId;
    if n > 0 && |s.npcs| < MIN_NPCS {
      BootNpcsAlive(SpawnNpc(s), n - 1);
    }
  }

  /** Of n users who come into a bootstrapped world all find a cell of their own exactly if the map has n
      open cells besides the five of the NPCs. One more, and the spawn point is shared. */
  lemma FullMapShares(s: State, cfg: Config, n: nat)
    requires Built(s, cfg)
    ensures Separated(Run(s, Crowd(cfg, n))) <==> n + MIN_NPCS <= |OpenCells(cfg.layout)|
  {
    var k: nat, m: nat :| BuiltIn(s, cfg, k, m);
    hide Separated, OpenCells, Crowd, Run, BootNpcs, BootTreasures;
    BuiltShape(s, cfg);
    BuiltSeparation(s, cfg);
    BootNpcsAlive(EmptyWorld(cfg), k);
    BootTreasuresIdle(BootNpcs(EmptyWorld(cfg), k), m);
    assert LiveNpcs(s) == s.npcs.Keys;
    CrowdIn(s, n);
    if n == 0 {
      UnitsFit(s);
      assert |s.npcs.Keys| == |s.npcs|;
    }
  }

  // ----- Leaving costs a player its revival -----

  /** Whoever was knocked down comes back to life by staying, and never after leaving, whatever happens
      then and however often it comes back with what was saved. */
  lemma LeavingCostsRevival(s: State, u: string, ops: seq<Op>)
    requires u in s.players && !s.players[u].alive && s.players[u].respawnAt.Some? && s.players[u].hp >= 0
    requires forall i | 0 <= i < |ops| && ops[i].OpAdd? && ops[i].profile.username == u :: SavedDown(ops[i].profile)
    ensures forall now | now >= s.players[u].respawnAt.value :: Refresh(s, u, now).players[u].alive
    ensures var back := OpAdd(ProfileOf(s, u));
      u in Run(s, [OpRemove(u), back] + ops).players ==> Down(Run(s, [OpRemove(u), back] + ops).players[u])
  {
    var back := OpAdd(ProfileOf(s, u));
    var t := RemovePlayer(s, u);
    RunTwo(s, OpRemove(u), back);
    RunJoin(s, [OpRemove(u), back], ops);
    ComingBackDown(s, t, u, 0);
    var r := AddPlayer(t, ProfileOf(s, u));
    assert Down(r.players[u]) by {
      hide SafeCell, SafeCellDrawn;
    }
    DownForever(r, ops, u);
  }

  /** Two users come in on cells a and b, and the first strikes four times. */
  function Duel(u: string, v: string, m: string, a: Cell, b: Cell, now: int): seq<Op> {
    [OpAdd(ProfileAt(u, m, a)), OpAdd(ProfileAt(v, m, b))] + Blows(u, now, 4)
  }

  function Blows(u: string, now: int, n: nat): seq<Op> {
    if n == 0 then [] else [OpAttack(u, now)] + Blows(u, now, n - 1)
  }

  /** In world t the two stand on a and b, alive, v with so much health, and the NPCs are those of s. */
  ghost predicate Facing(s: State, t: State, u: string, v: string, a: Cell, b: Cell, hp: int) {
    && t.npcs == s.npcs && t.players.Keys == {u, v}
    && t.players[u].alive && t.players[u].at == a && t.players[u].attack == INIT_ATTACK
    && t.players[v].alive && t.players[v].at == b && t.players[v].hp == hp
  }

  lemma BothEnter(s: State, u: string, v: string, a: Cell, b: Cell)
    requires s.players == map[] && u != v && u != "" && v != "" && a != b
    requires Walkable(s, a, "") && Walkable(s, b, "")
    ensures Facing(s, AddPlayer(AddPlayer(s, ProfileAt(u, s.cfg.id, a)), ProfileAt(v, s.cfg.id, b)), u, v, a, b, INIT_HP)
  {
    hide SafeCellDrawn, BestSpawn;
    EntersThere(s, ProfileAt(u, s.cfg.id, a));
    var s1 := AddPlayer(s, ProfileAt(u, s.cfg.id, a));
    assert s1.players.Keys == {u} && s1.players[u].at == a;
    assert Walkable(s1, b, "");
    EntersThere(s1, ProfileAt(v, s.cfg.id, b));
  }

  lemma OnlyTarget(s: State, t: State, u: string, v: string, a: Cell, b: Cell, hp: int)
    requires Facing(s, t, u, v, a, b, hp) && u != v && Distance(a, b) <= ATTACK_RANGE && forall id :: !NpcInReach(s, a, id)
    ensures NpcTarget(t, a) == None && PlayerTarget(t, a, ATTACK_RANGE, Some(u)) == Some(v)
  {
    hide Weaker, Distance;
    forall id ensures !IsNpcTarget(t, a, id) {
      assert !NpcInReach(s, a, id);
    }
    assert PlayerInReach(t, a, ATTACK_RANGE, Some(u), v);
    forall w | PlayerInReach(t, a, ATTACK_RANGE, Some(u), w) ensures w == v {
      assert w in t.players.Keys;
    }
    assert IsPlayerTarget(t, a, ATTACK_RANGE, Some(u), v);
  }

  lemma OneBlow(s: State, t: State, u: string, v: string, a: Cell, b: Cell, hp: int, now: int)
    requires Facing(s, t, u, v, a, b, hp) && u != v && Distance(a, b) <= ATTACK_RANGE && forall id :: !NpcInReach(s, a, id)
    ensures var r := Attack(t, u, now);
      if hp > INIT_ATTACK then Facing(s, r, u, v, a, b, hp - INIT_ATTACK)
      else v in r.players && !r.players[v].alive && r.players[v].hp == 0 && r.players[v].respawnAt == Some(now + RESPAWN_DELAY)
  {
    OnlyTarget(s, t, u, v, a, b, hp);
    hide NpcTarget, PlayerTarget, HitNpc, SafeCell, SafeCellDrawn, NpcInReach, Distance;
  }

  lemma {:induction false} BlowsKnockDown(s: State, t: State, u: string, v: string, a: Cell, b: Cell, hp: int, now: int, n: nat)
    requires Facing(s, t, u, v, a, b, hp) && u != v && Distance(a, b) <= ATTACK_RANGE && forall id :: !NpcInReach(s, a, id)
    requires n > 0 && INIT_ATTACK * (n - 1) < hp <= INIT_ATTACK * n
    ensures var r := Run(t, Blows(u, now, n));
      v in r.players && !r.players[v].alive && r.players[v].hp == 0 && r.players[v].respawnAt == Some(now + RESPAWN_DELAY)
    decreases n
  {
    hide Facing, Attack, NpcInReach;
    OneBlow(s, t, u, v, a, b, hp, now);
    var ops := Blows(u, now, n);
    assert ops[0] == OpAttack(u, now) && ops[1..] == Blows(u, now, n - 1);
    if n > 1 {
      BlowsKnockDown(s, Attack(t, u, now), u, v, a, b, hp - INIT_ATTACK, now, n - 1);
    }
  }

  /** Runs lead there: in every bootstrapped world two users who come in with fresh profiles on walkable
      cells in reach of each other, with no NPC in reach of the first, need four strikes. */
  lemma DuelKnocksDown(s: State, cfg: Config, u: string, v: string, a: Cell, b: Cell, now: int)
    requires Built(s, cfg) && u != v && u != "" && v != "" && a != b && Distance(a, b) <= ATTACK_RANGE
    requires Walkable(s, a, "") && Walkable(s, b, "") && forall id :: !NpcInReach(s, a, id)
    ensures var t := Run(s, Duel(u, v, cfg.id, a, b, now));
      v in t.players && !t.players[v].alive && t.players[v].hp == 0 && t.players[v].respawnAt == Some(now + RESPAWN_DELAY)
  {
    hide Built, Blows, Walkable, NpcInReach, Facing, Run;
    BuiltShape(s, cfg);
    var p, q := OpAdd(ProfileAt(u, cfg.id, a)), OpAdd(ProfileAt(v, cfg.id, b));
    RunTwo(s, p, q);
    RunJoin(s, [p, q], Blows(u, now, 4));
    BothEnter(s, u, v, a, b);
    BlowsKnockDown(s, Run(s, [p, q]), u, v, a, b, INIT_HP, now, 4);
  }
}
