/** No two live units of a world stand on one cell, and none stands in a wall or outside the map. */
module WorldPlacement {
  import opened Basics
  import opened WorldModel

  datatype Piece = PlayerPiece(u: string) | NpcPiece(id: string)

  ghost predicate LiveAt(s: State, a: Piece, c: Cell) {
    match a
    case PlayerPiece(u) => u in s.players && s.players[u].alive && s.players[u].at == c
    case NpcPiece(id) => id in s.npcs && s.npcs[id].alive && s.npcs[id].at == c
  }

  /** Registration refuses the empty user name, which the walkability test uses for "nobody". */
  ghost predicate Separated(s: State) {
    && "" !in s.players
    && (forall a, c | LiveAt(s, a, c) :: Open(s.terrain, c))
    && (forall a, b, c | LiveAt(s, a, c) && LiveAt(s, b, c) :: a == b)
  }

  lemma WalkableIsFree(s: State, c: Cell, ignore: string)
    requires Walkable(s, c, ignore)
    ensures Open(s.terrain, c)
    ensures forall a | a != PlayerPiece(ignore) :: !LiveAt(s, a, c)
  {
    forall a | a != PlayerPiece(ignore) ensures !LiveAt(s, a, c) {
      match a
      case PlayerPiece(u) =>
      case NpcPiece(id) =>
    }
  }

  lemma Blocker(s: State, c: Cell, ignore: string) returns (a: Piece)
    requires Open(s.terrain, c) && !Walkable(s, c, ignore)
    ensures a != PlayerPiece(ignore) && LiveAt(s, a, c)
  {
    if PlayerOn(s, c, ignore) {
      var v :| v in s.players && v != ignore && s.players[v].alive && s.players[v].at == c;
      a := PlayerPiece(v);
    } else {
      var id :| id in s.npcs && s.npcs[id].alive && s.npcs[id].at == c;
      a := NpcPiece(id);
    }
  }

  /** Only the piece x changed place, and to a cell that is free. */
  lemma Relocated(s: State, t: State, x: Piece)
    requires Separated(s) && t.terrain == s.terrain && "" !in t.players
    requires forall a, c | a != x && LiveAt(t, a, c) :: LiveAt(s, a, c)
    requires forall c | LiveAt(t, x, c) :: LiveAt(s, x, c)
                                         || (Open(s.terrain, c) && forall a | a != x :: !LiveAt(s, a, c))
    ensures Separated(t)
  {
  }

  lemma FewerLive(s: State, t: State)
    requires Separated(s) && t.terrain == s.terrain && "" !in t.players
    requires forall a, c | LiveAt(t, a, c) :: LiveAt(s, a, c)
    ensures Separated(t)
  {
  }

  // ----- Room -----

  lemma {:induction false} ImageSize(m: map<string, Cell>)
    ensures |set k | k in m :: m[k]| <= |m|
    decreases |m|
  {
    var image := set k | k in m :: m[k];
    if m != map[] {
      var j :| j in m;
      var rest := m - {j};
      ImageSize(rest);
      var smaller := set k | k in rest :: rest[k];
      assert image <= smaller + {m[j]} by {
        forall c | c in image ensures c in smaller + {m[j]} {
          var k :| k in m && m[k] == c;
          if k != j { assert k in rest && rest[k] == c; }
        }
      }
      SubsetSize(image, smaller + {m[j]});
    }
  }

  /** A map with more open cells than units has a walkable cell, whoever is ignored. */
  lemma RoomToWalk(s: State, ignore: string)
    requires |OpenCells(s.terrain)| > |s.players| + |s.npcs|
    ensures WalkableCells(s, ignore) != {}
  {
    var ps := map u | u in s.players :: s.players[u].at;
    var ns := map id | id in s.npcs :: s.npcs[id].at;
    ImageSize(ps);
    ImageSize(ns);
    assert ps.Keys == s.players.Keys && ns.Keys == s.npcs.Keys;
    var taken := (set u | u in ps :: ps[u]) + (set id | id in ns :: ns[id]);
    if OpenCells(s.terrain) <= taken {
      SubsetSize(OpenCells(s.terrain), taken);
    }
    var c :| c in OpenCells(s.terrain) && c !in taken;
    hide OpenCells;
    forall u | u in s.players ensures s.players[u].at != c {
      assert ps[u] in taken;
    }
    forall id | id in s.npcs ensures s.npcs[id].at != c {
      assert ns[id] in taken;
    }
    NobodyThere(s, c, ignore);
  }

  lemma NobodyThere(s: State, c: Cell, ignore: string)
    requires c in OpenCells(s.terrain)
    requires (forall u | u in s.players :: s.players[u].at != c) && (forall id | id in s.npcs :: s.npcs[id].at != c)
    ensures c in WalkableCells(s, ignore)
  {
    OpenRowsAre(s.terrain, |s.terrain|);
    hide OpenRows;
  }

  // ----- Single operations: exactly when they keep the units apart -----

  lemma PlayerPlaced(s: State, t: State, u: string, p: Player)
    requires Separated(s) && u != "" && t.terrain == s.terrain && t.npcs == s.npcs && t.players == s.players[u := p]
    ensures Separated(t) <==> !p.alive || LiveAt(s, PlayerPiece(u), p.at) || Walkable(s, p.at, u)
  {
    var x := PlayerPiece(u);
    assert forall a, c | a != x :: LiveAt(t, a, c) <==> LiveAt(s, a, c);
    if !p.alive || LiveAt(s, x, p.at) {
      Relocated(s, t, x);
    } else if Walkable(s, p.at, u) {
      WalkableIsFree(s, p.at, u);
      Relocated(s, t, x);
    } else {
      assert LiveAt(t, x, p.at);
      if Open(s.terrain, p.at) {
        var a := Blocker(s, p.at, u);
        assert LiveAt(t, a, p.at);
      }
    }
  }

  /** The player comes in dead, or some cell is walkable, or the fallback spawn point is free but for the
      player's own former self. */
  ghost predicate Admits(s: State, p: Profile) {
    !Entrant(s, p).alive || WalkableCells(s, "") != {} || Walkable(s, s.cfg.spawn, p.username)
    || LiveAt(s, PlayerPiece(p.username), s.cfg.spawn)
  }

  /** The player is not due for revival, or some cell is walkable for it. */
  ghost predicate Revives(s: State, u: string, now: int) {
    !Due(s, u, now) || WalkableCells(s, u) != {}
  }

  /** Bringing a player in keeps the units apart exactly when the map admits it. */
  lemma AddSeparation(s: State, p: Profile)
    requires Separated(s) && p.username != ""
    ensures Separated(AddPlayer(s, p)) <==> Admits(s, p)
  {
    var e := Entrant(s, p);
    PlayerPlaced(s, AddPlayer(s, p), p.username, e);
    if WalkableCells(s, "") != {} {
      assert Walkable(s, e.at, "");
    } else {
      var want := if p.lastMap != s.cfg.id then s.cfg.spawn else p.at;
      WalkableListed(s, want, "");
    }
  }

  /** A revival keeps the units apart exactly when some cell is walkable for the player. */
  lemma RefreshSeparation(s: State, u: string, now: int)
    requires Separated(s)
    ensures Separated(Refresh(s, u, now)) <==> Revives(s, u, now)
  {
    if Due(s, u, now) {
      var t := Refresh(s, u, now);
      PlayerPlaced(s, t, u, t.players[u]);
      WalkableListed(s, t.players[u].at, u);
    }
  }

  lemma RemoveSeparation(s: State, u: string)
    requires Separated(s)
    ensures Separated(RemovePlayer(s, u))
  {
    FewerLive(s, RemovePlayer(s, u));
  }

  /** After the revival of the mover, a move never makes two units share a cell. */
  lemma MoveSeparation(s: State, u: string, dir: string, now: int)
    requires Separated(s) && Separated(Refresh(s, u, now))
    ensures Separated(Move(s, u, dir, now))
  {
    var r := Refresh(s, u, now);
    var t := Move(s, u, dir, now);
    if u in s.players && t != r {
      PlayerPlaced(r, t, u, t.players[u]);
    }
  }

  lemma SamePlayers(s: State, t: State)
    requires Separated(s) && t.terrain == s.terrain && t.npcs == s.npcs && t.players.Keys == s.players.Keys
    requires forall u | u in t.players && t.players[u].alive :: s.players[u].alive && t.players[u].at == s.players[u].at
    ensures Separated(t)
  {
    FewerLive(s, t);
  }

  lemma HealSeparation(s: State, u: string, now: int)
    requires Separated(s) && Separated(Refresh(s, u, now))
    ensures Separated(Heal(s, u, now))
  {
    SamePlayers(Refresh(s, u, now), Heal(s, u, now));
  }

  lemma BuySeparation(s: State, u: string, item: string, now: int)
    requires Separated(s) && Separated(Refresh(s, u, now))
    ensures Separated(Buy(s, u, item, now))
  {
    SamePlayers(Refresh(s, u, now), Buy(s, u, item, now));
  }

  lemma RewardSeparation(s: State, u: string, treasures: int, victories: int)
    requires Separated(s)
    ensures Separated(Reward(s, u, treasures, victories))
  {
    SamePlayers(s, Reward(s, u, treasures, victories));
  }

  lemma DropKeepsUnits(s: State, c: Cell, value: int, kind: string)
    ensures var t := DropTreasure(s, c, value, kind);
      t.terrain == s.terrain && t.players == s.players && t.npcs == s.npcs
  {
  }

  lemma HitNpcSeparation(s: State, u: string, id: string)
    requires Separated(s) && u in s.players && id in s.npcs
    ensures Separated(HitNpc(s, u, id))
    ensures var t := HitNpc(s, u, id);
      t.terrain == s.terrain && t.players.Keys == s.players.Keys && t.npcs.Keys <= s.npcs.Keys
  {
    hide DropTreasure;
    var p, n := s.players[u], s.npcs[id];
    var dead := s.(npcs := s.npcs - {id}, players := s.players[u := p.(kills := p.kills + 1)], drawn := s.drawn + 1);
    DropKeepsUnits(dead, n.at, 2 + Draw(s, 3), "loot");
    FewerLive(s, HitNpc(s, u, id));
  }

  lemma AttackSeparation(s: State, u: string, now: int)
    requires Separated(s) && Separated(Refresh(s, u, now))
    ensures Separated(Attack(s, u, now))
    ensures var t := Attack(s, u, now);
      t.terrain == s.terrain && t.players.Keys == s.players.Keys && t.npcs.Keys <= s.npcs.Keys
  {
    hide HitNpc, HitPlayer, Separated, Refresh, SafeCell, SafeCellDrawn;
    var r := Refresh(s, u, now);
    RefreshRest(s, u, now);
    if u in s.players && r.players[u].alive {
      match NpcTarget(r, r.players[u].at)
      case Some(id) => HitNpcSeparation(r, u, id);
      case None =>
        match PlayerTarget(r, r.players[u].at, ATTACK_RANGE, Some(u))
        case Some(v) => HitPlayerSeparation(r, u, v, now);
        case None =>
    }
  }

  lemma HitPlayerSeparation(s: State, u: string, v: string, now: int)
    requires Separated(s) && u in s.players && v in s.players && u != v && s.players[v].alive
    ensures var t := HitPlayer(s, u, v, now);
      Separated(t) && t.terrain == s.terrain && t.players.Keys == s.players.Keys && t.npcs == s.npcs
  {
    hide Separated;
    SamePlayers(s, HitPlayer(s, u, v, now));
  }

  lemma RefreshRest(s: State, u: string, now: int)
    ensures var r := Refresh(s, u, now); r.terrain == s.terrain && r.npcs == s.npcs
  {
    hide SafeCell, SafeCellDrawn;
  }

  /** Whenever a player of the order is due at its turn, some cell is walkable for it. */
  ghost predicate AllRevive(s: State, order: seq<string>, now: int)
    decreases |order|
  {
    order == [] || (Revives(s, order[0], now) && AllRevive(Refresh(s, order[0], now), order[1..], now))
  }

  lemma {:induction false} RefreshAllRest(s: State, order: seq<string>, now: int)
    ensures var r := RefreshAll(s, order, now); r.terrain == s.terrain && r.npcs == s.npcs
    decreases |order|
  {
    hide SafeCell, SafeCellDrawn;
    if order != [] {
      RefreshAllRest(Refresh(s, order[0], now), order[1..], now);
    }
  }

  /** A revival touches nobody alive, so it never takes apart units that share a cell. */
  lemma RefreshStaysMixed(s: State, u: string, now: int)
    requires !Separated(s)
    ensures !Separated(Refresh(s, u, now))
  {
    hide SafeCell, SafeCellDrawn, OpenRows;
    var t := Refresh(s, u, now);
    if "" !in s.players {
      assert forall a, c | LiveAt(s, a, c) :: LiveAt(t, a, c);
    }
  }

  lemma {:induction false} RefreshAllStaysMixed(s: State, order: seq<string>, now: int)
    requires !Separated(s)
    ensures !Separated(RefreshAll(s, order, now))
    decreases |order|
  {
    hide Separated, Refresh;
    if order != [] {
      RefreshStaysMixed(s, order[0], now);
      RefreshAllStaysMixed(Refresh(s, order[0], now), order[1..], now);
    }
  }

  /** Refreshing all players keeps the units apart exactly when each of them can be placed at its turn. */
  lemma {:induction false} RefreshAllSeparation(s: State, order: seq<string>, now: int)
    requires Separated(s)
    ensures Separated(RefreshAll(s, order, now)) <==> AllRevive(s, order, now)
    decreases |order|
  {
    hide Separated, Refresh, Revives;
    if order != [] {
      RefreshSeparation(s, order[0], now);
      if Revives(s, order[0], now) {
        RefreshAllSeparation(Refresh(s, order[0], now), order[1..], now);
      } else {
        RefreshAllStaysMixed(Refresh(s, order[0], now), order[1..], now);
      }
    }
  }

  lemma SpawnSeparation(s: State)
    requires Separated(s)
    ensures Separated(SpawnNpc(s))
  {
    var t := SpawnNpc(s);
    if t != s {
      var id := NpcId(s.cfg.id, s.nextNPC);
      WalkableIsFree(s, t.npcs[id].at, "");
      assert forall a :: !LiveAt(s, PlayerPiece(""), a);
      Relocated(s, t, NpcPiece(id));
    }
  }

  lemma {:induction false} RefillSeparation(s: State)
    requires Separated(s)
    ensures var r := RefillNpcs(s);
      Separated(r) && r.terrain == s.terrain && r.players == s.players && |r.npcs| <= Max(|s.npcs|, MIN_NPCS)
    decreases MIN_NPCS - |s.npcs|, |NpcIdsToCome(s)|
  {
    hide Separated, SpawnNpc, NpcIdsToCome, WalkableCells;
    if |s.npcs| < MIN_NPCS && WalkableCells(s, "") != {} {
      SpawnProgress(s);
      SpawnSeparation(s);
      SpawnRest(s);
      RefillSeparation(SpawnNpc(s));
    }
  }

  lemma SpawnRest(s: State)
    ensures var n := SpawnNpc(s); n.terrain == s.terrain && n.players == s.players && |n.npcs| <= |s.npcs| + 1
  {
    hide NpcId, BestSpawn;
    var n := SpawnNpc(s);
    assert n.npcs.Keys <= s.npcs.Keys + {NpcId(s.cfg.id, s.nextNPC)};
    SubsetSize(n.npcs.Keys, s.npcs.Keys + {NpcId(s.cfg.id, s.nextNPC)});
    assert |n.npcs.Keys| == |n.npcs| && |s.npcs.Keys| == |s.npcs|;
  }

  lemma {:induction false} WanderSeparation(s: State, id: string, turn: nat, tries: nat)
    requires Separated(s) && id in s.npcs
    ensures Separated(Wander(s, id, turn, tries))
    ensures var t := Wander(s, id, turn, tries);
      t.terrain == s.terrain && t.players == s.players && t.npcs.Keys == s.npcs.Keys
    decreases tries
  {
    if tries > 0 {
      var c := Heading(s.npcs[id].at, turn);
      if Walkable(s, c, "") {
        WalkableIsFree(s, c, "");
        assert !LiveAt(s, PlayerPiece(""), c);
        Relocated(s, Wander(s, id, turn, tries), NpcPiece(id));
      } else {
        WanderSeparation(s, id, turn + 1, tries - 1);
      }
    }
  }

  lemma NpcTurnSeparation(s: State, id: string, now: int)
    requires Separated(s)
    ensures Separated(NpcTurn(s, id, now))
    ensures var t := NpcTurn(s, id, now);
      t.terrain == s.terrain && t.players.Keys == s.players.Keys && t.npcs.Keys == s.npcs.Keys
  {
    if id in s.npcs && s.npcs[id].alive {
      match PlayerTarget(s, s.npcs[id].at, 1, None)
      case Some(v) => SamePlayers(s, Bite(s, id, v, now));
      case None =>
        var d := s.(drawn := s.drawn + 1);
        FewerLive(s, d);
        WanderSeparation(d, id, Draw(s, 4), 4);
    }
  }

  lemma {:induction false} NpcTurnsSeparation(s: State, ids: seq<string>, now: int)
    requires Separated(s)
    ensures Separated(NpcTurns(s, ids, now))
    ensures var t := NpcTurns(s, ids, now);
      t.terrain == s.terrain && t.players.Keys == s.players.Keys && t.npcs.Keys == s.npcs.Keys
    decreases |ids|
  {
    if ids != [] {
      NpcTurnSeparation(s, ids[0], now);
      NpcTurnsSeparation(NpcTurn(s, ids[0], now), ids[1..], now);
    }
  }

  lemma SpawnTreasureSeparation(s: State, kind: string)
    requires Separated(s)
    ensures var t := SpawnTreasure(s, kind);
      Separated(t) && t.terrain == s.terrain && t.players == s.players && t.npcs == s.npcs
  {
    assert "" !in s.players;
    hide DropTreasure, BestSpawn, Separated;
    if WalkableCells(s, "") != {} {
      DropKeepsUnits(s.(drawn := s.drawn + 2), BestSpawn(s, "", false).value, 1 + s.cfg.stream(s.drawn + 1) % 4, kind);
    }
    FewerLive(s, SpawnTreasure(s, kind));
  }

  lemma TreasureSeparation(s: State)
    requires Separated(s)
    ensures var t := MaybeTreasure(s);
      Separated(t) && t.terrain == s.terrain && t.players == s.players && t.npcs == s.npcs
  {
    hide SpawnTreasure;
    var d := s.(drawn := s.drawn + 1);
    FewerLive(s, d);
    SpawnTreasureSeparation(d, "chest");
  }

  /** A background step keeps the units apart as soon as its revivals do, on however crowded a map. */
  lemma BackgroundSeparation(s: State, order: seq<string>, now: int)
    requires Separated(RefreshAll(s, order, now))
    ensures var t := Background(s, order, now);
      Separated(t) && t.terrain == s.terrain && t.players.Keys == s.players.Keys
      && |t.npcs| <= Max(|s.npcs|, MIN_NPCS)
  {
    var a := RefreshAll(s, order, now);
    RefreshAllRest(s, order, now);
    RefillSeparation(a);
    TreasureSeparation(RefillNpcs(a));
    var ready := MaybeTreasure(RefillNpcs(a));
    NpcTurnsSeparation(ready, SortedNames(ready.npcs.Keys), now);
    var t := Background(s, order, now);
    assert |t.npcs| == |t.npcs.Keys| == |ready.npcs.Keys| == |ready.npcs|;
  }

  // ----- Whole runs -----

  ghost predicate NamesGiven(ops: seq<Op>) {
    forall i | 0 <= i < |ops| && ops[i].OpAdd? :: ops[i].profile.username != ""
  }

  /** Whenever the operation must place a player, there is a cell for it. */
  ghost predicate Placeable(s: State, op: Op) {
    match op
    case OpAdd(p) => Admits(s, p)
    case OpRemove(_) => true
    case OpProfile(u, now) => Revives(s, u, now)
    case OpMove(u, _, now) => Revives(s, u, now)
    case OpHeal(u, now) => Revives(s, u, now)
    case OpAttack(u, now) => Revives(s, u, now)
    case OpBuy(u, _, now) => Revives(s, u, now)
    case OpReward(_, _, _) => true
    case OpSnapshot(order, now) => AllRevive(s, order, now)
    case OpBackground(order, now) => AllRevive(s, order, now)
  }

  ghost predicate AllPlaceable(s: State, ops: seq<Op>)
    decreases |ops|
  {
    ops == [] || (Placeable(s, ops[0]) && AllPlaceable(Apply(s, ops[0]), ops[1..]))
  }

  predicate OnlyPlaces(op: Op) {
    op.OpAdd? || op.OpProfile? || op.OpSnapshot?
  }

  /** One operation: a cell for every player it must place is enough to keep the units apart, and for the
      operations that do nothing but place players it is also necessary. */
  lemma ApplySeparation(s: State, op: Op)
    requires Separated(s) && (op.OpAdd? ==> op.profile.username != "")
    ensures Placeable(s, op) ==> Separated(Apply(s, op))
    ensures OnlyPlaces(op) && Separated(Apply(s, op)) ==> Placeable(s, op)
  {
    hide AddPlayer, RemovePlayer, Refresh, Move, Heal, Attack, Buy, Reward, RefreshAll, Background;
    hide Separated, Admits, Revives, AllRevive;
    match op
    case OpAdd(p) => AddSeparation(s, p);
    case OpRemove(u) => RemoveSeparation(s, u);
    case OpProfile(u, now) => RefreshSeparation(s, u, now);
    case OpMove(u, dir, now) => CommandSeparation(s, op, u, now);
    case OpHeal(u, now) => CommandSeparation(s, op, u, now);
    case OpAttack(u, now) => CommandSeparation(s, op, u, now);
    case OpBuy(u, item, now) => CommandSeparation(s, op, u, now);
    case OpReward(u, t, v) => RewardSeparation(s, u, t, v);
    case OpSnapshot(order, now) => RefreshAllSeparation(s, order, now);
    case OpBackground(order, now) =>
      RefreshAllSeparation(s, order, now);
      if AllRevive(s, order, now) { BackgroundSeparation(s, order, now); }
  }

  lemma CommandSeparation(s: State, op: Op, u: string, now: int)
    requires Separated(s)
    requires match op
      case OpMove(v, _, t) => v == u && t == now
      case OpHeal(v, t) => v == u && t == now
      case OpAttack(v, t) => v == u && t == now
      case OpBuy(v, _, t) => v == u && t == now
      case _ => false
    ensures Revives(s, u, now) ==> Separated(Apply(s, op))
  {
    hide Move, Heal, Attack, Buy, Separated, Revives, Refresh;
    RefreshSeparation(s, u, now);
    if Revives(s, u, now) {
      match op
      case OpMove(_, dir, _) => MoveSeparation(s, u, dir, now);
      case OpHeal(_, _) => HealSeparation(s, u, now);
      case OpAttack(_, _) => AttackSeparation(s, u, now);
      case OpBuy(_, item, _) => BuySeparation(s, u, item, now);
    }
  }

  /** In every run in which each player to be placed finds a cell, the units stay apart. */
  lemma {:induction false} RunSeparation(s: State, ops: seq<Op>)
    requires Separated(s) && NamesGiven(ops) && AllPlaceable(s, ops)
    ensures Separated(Run(s, ops))
    decreases |ops|
  {
    hide Separated, Placeable, Apply;
    if ops != [] {
      ApplySeparation(s, ops[0]);
      NamesGivenRest(ops);
      RunSeparation(Apply(s, ops[0]), ops[1..]);
    }
  }

  lemma NamesGivenRest(ops: seq<Op>)
    requires NamesGiven(ops) && ops != []
    ensures NamesGiven(ops[1..])
  {
    forall i | 0 <= i < |ops[1..]| && ops[1..][i].OpAdd? ensures ops[1..][i].profile.username != "" {
      assert ops[1..][i] == ops[i + 1];
    }
  }

  // ----- Maps large enough -----

  /** t follows from s with the units apart; of players, only the arrivals are new. */
  ghost predicate Kept(s: State, t: State, arrivals: set<string>) {
    && Separated(t) && t.terrain == s.terrain
    && |t.npcs| <= Max(|s.npcs|, MIN_NPCS) && |t.players| <= |s.players| + |arrivals|
    && t.players.Keys <= s.players.Keys + arrivals
  }

  lemma SameNames(s: State, t: State)
    requires Separated(t) && t.terrain == s.terrain && t.players.Keys == s.players.Keys && t.npcs.Keys <= s.npcs.Keys
    ensures Kept(s, t, {})
  {
    assert |t.players.Keys| == |t.players| && |s.players.Keys| == |s.players|;
    SubsetSize(t.npcs.Keys, s.npcs.Keys);
    assert |t.npcs.Keys| == |t.npcs| && |s.npcs.Keys| == |s.npcs|;
  }

  lemma AddKept(s: State, p: Profile)
    requires Separated(s) && |OpenCells(s.terrain)| > |s.players| + |s.npcs| && p.username != ""
    ensures Admits(s, p) && Kept(s, AddPlayer(s, p), {p.username})
  {
    hide Separated, Entrant, SafeCellDrawn, OpenCells, WalkableCells;
    RoomToWalk(s, "");
    AddSeparation(s, p);
    AddedCount(s.players, p.username, Entrant(s, p));
  }

  lemma AddedCount(players: map<string, Player>, u: string, p: Player)
    ensures |players[u := p]| <= |players| + 1
  {
    assert players[u := p].Keys == players.Keys + {u};
    assert |players[u := p].Keys| == |players[u := p]| && |players.Keys| == |players|;
  }

  lemma RemoveKept(s: State, u: string)
    requires Separated(s)
    ensures Kept(s, RemovePlayer(s, u), {})
  {
    var t := RemovePlayer(s, u);
    RemoveSeparation(s, u);
    SubsetSize(t.players.Keys, s.players.Keys);
    assert |t.players.Keys| == |t.players| && |s.players.Keys| == |s.players|;
  }

  lemma RefreshKept(s: State, u: string, now: int)
    requires Separated(s) && |OpenCells(s.terrain)| > |s.players| + |s.npcs|
    ensures Revives(s, u, now) && Kept(s, Refresh(s, u, now), {})
  {
    RoomToWalk(s, u);
    RefreshSeparation(s, u, now);
    SameNames(s, Refresh(s, u, now));
  }

  lemma {:induction false} RefreshAllKept(s: State, order: seq<string>, now: int)
    requires Separated(s) && |OpenCells(s.terrain)| > |s.players| + |s.npcs|
    ensures AllRevive(s, order, now) && Kept(s, RefreshAll(s, order, now), {})
    decreases |order|
  {
    hide Separated, Refresh, OpenCells, Revives;
    if order == [] {
      SameNames(s, s);
    } else {
      var r := Refresh(s, order[0], now);
      RefreshKept(s, order[0], now);
      RefreshRest(s, order[0], now);
      assert |r.players.Keys| == |s.players.Keys|;
      RefreshAllKept(r, order[1..], now);
      RefreshAllRest(s, order, now);
      SameNames(s, RefreshAll(s, order, now));
    }
  }

  lemma MoveNames(s: State, u: string, dir: string, now: int)
    ensures var t := Move(s, u, dir, now); t.terrain == s.terrain && t.npcs == s.npcs && t.players.Keys == s.players.Keys
  {
    hide SafeCell, SafeCellDrawn, Walkable, Shifted;
  }

  lemma MoveKept(s: State, u: string, dir: string, now: int)
    requires Separated(s) && |OpenCells(s.terrain)| > |s.players| + |s.npcs|
    ensures Kept(s, Move(s, u, dir, now), {})
  {
    hide Separated, OpenCells, Move;
    RefreshKept(s, u, now);
    MoveSeparation(s, u, dir, now);
    MoveNames(s, u, dir, now);
    SameNames(s, Move(s, u, dir, now));
  }

  lemma HealKept(s: State, u: string, now: int)
    requires Separated(s) && |OpenCells(s.terrain)| > |s.players| + |s.npcs|
    ensures Kept(s, Heal(s, u, now), {})
  {
    hide Separated, OpenCells, SafeCell, SafeCellDrawn;
    RefreshKept(s, u, now);
    HealSeparation(s, u, now);
    SameNames(s, Heal(s, u, now));
  }

  lemma BuyKept(s: State, u: string, item: string, now: int)
    requires Separated(s) && |OpenCells(s.terrain)| > |s.players| + |s.npcs|
    ensures Kept(s, Buy(s, u, item, now), {})
  {
    hide Separated, OpenCells, SafeCell, SafeCellDrawn;
    RefreshKept(s, u, now);
    BuySeparation(s, u, item, now);
    SameNames(s, Buy(s, u, item, now));
  }

  lemma AttackKept(s: State, u: string, now: int)
    requires Separated(s) && |OpenCells(s.terrain)| > |s.players| + |s.npcs|
    ensures Kept(s, Attack(s, u, now), {})
  {
    RefreshKept(s, u, now);
    hide Attack;
    AttackSeparation(s, u, now);
    SameNames(s, Attack(s, u, now));
  }

  lemma RewardKept(s: State, u: string, treasures: int, victories: int)
    requires Separated(s)
    ensures Kept(s, Reward(s, u, treasures, victories), {})
  {
    RewardSeparation(s, u, treasures, victories);
    SameNames(s, Reward(s, u, treasures, victories));
  }

  lemma BackgroundKept(s: State, order: seq<string>, now: int)
    requires Separated(s) && |OpenCells(s.terrain)| > |s.players| + |s.npcs|
    ensures AllRevive(s, order, now) && Kept(s, Background(s, order, now), {})
  {
    hide Separated, AllRevive, Background, RefreshAll;
    RefreshAllKept(s, order, now);
    BackgroundSeparation(s, order, now);
    var t := Background(s, order, now);
    assert |t.players.Keys| == |t.players| && |s.players.Keys| == |s.players|;
  }

  ghost function Arrival(op: Op): set<string> {
    if op.OpAdd? then {op.profile.username} else {}
  }

  lemma ApplyKept(s: State, op: Op)
    requires Separated(s) && |OpenCells(s.terrain)| > |s.players| + |s.npcs|
    requires op.OpAdd? ==> op.profile.username != ""
    ensures Placeable(s, op) && Kept(s, Apply(s, op), Arrival(op))
  {
    hide AddPlayer, RemovePlayer, Refresh, Move, Heal, Attack, Buy, Reward, RefreshAll, Background;
    hide Separated, Kept, Admits, Revives, AllRevive, OpenCells;
    match op
    case OpAdd(p) => AddKept(s, p);
    case OpRemove(u) => RemoveKept(s, u);
    case OpProfile(u, now) => RefreshKept(s, u, now);
    case OpMove(u, dir, now) => RefreshKept(s, u, now); MoveKept(s, u, dir, now);
    case OpHeal(u, now) => RefreshKept(s, u, now); HealKept(s, u, now);
    case OpAttack(u, now) => RefreshKept(s, u, now); AttackKept(s, u, now);
    case OpBuy(u, item, now) => RefreshKept(s, u, now); BuyKept(s, u, item, now);
    case OpReward(u, t, v) => RewardKept(s, u, t, v);
    case OpSnapshot(order, now) => RefreshAllKept(s, order, now);
    case OpBackground(order, now) => BackgroundKept(s, order, now);
  }

  /** Everybody who comes in during the run, each counted once however often it comes. */
  ghost function Visitors(ops: seq<Op>): set<string> {
    if ops == [] then {} else Arrival(ops[0]) + Visitors(ops[1..])
  }

  /** A map with more open cells than different players it ever holds and NPCs always has a cell for the
      player to be placed; so its units stay apart. */
  lemma {:induction false} LargeMapPlaces(s: State, ops: seq<Op>)
    requires Separated(s) && NamesGiven(ops)
    requires |OpenCells(s.terrain)| > |s.players.Keys + Visitors(ops)| + Max(|s.npcs|, MIN_NPCS)
    ensures AllPlaceable(s, ops) && Separated(Run(s, ops))
    decreases |ops|
  {
    hide Separated, Placeable, Apply, OpenCells;
    if ops != [] {
      var t := Apply(s, ops[0]);
      SubsetSize(s.players.Keys, s.players.Keys + Visitors(ops));
      assert |s.players.Keys| == |s.players|;
      ApplyKept(s, ops[0]);
      NamesGivenRest(ops);
      SubsetSize(t.players.Keys + Visitors(ops[1..]), s.players.Keys + Visitors(ops));
      LargeMapPlaces(t, ops[1..]);
    }
  }

  lemma {:induction false} BootTreasuresSeparation(s: State, n: nat)
    requires Separated(s)
    ensures Separated(BootTreasures(s, n))
    decreases n
  {
    if n > 0 && |s.treasures| < MAX_TREASURES / 2 {
      SpawnTreasureSeparation(s, "supply");
      BootTreasuresSeparation(SpawnTreasure(s, "supply"), n - 1);
    }
  }

  lemma {:induction false} BootNpcsSeparation(s: State, n: nat)
    requires Separated(s)
    ensures Separated(BootNpcs(s, n))
    decreases n
  {
    if n > 0 && |s.npcs| < MIN_NPCS {
      SpawnSeparation(s);
      BootNpcsSeparation(SpawnNpc(s), n - 1);
    }
  }

  /** A new world starts with its units apart. */
  lemma BuiltSeparation(s: State, cfg: Config)
    requires Built(s, cfg)
    ensures Separated(s)
  {
    var n: nat, m: nat :| BuiltIn(s, cfg, n, m);
    BootNpcsSeparation(EmptyWorld(cfg), n);
    BootTreasuresSeparation(BootNpcs(EmptyWorld(cfg), n), m);
  }
}
