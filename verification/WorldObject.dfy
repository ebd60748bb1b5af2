/** The world of one map as the source runs it: an object whose methods scan the maps of units in
    whatever order they come and update the fields in place. Every method is proved against the
    function of WorldModel that says what it should do. */
module WorldObject {
  import opened Basics
  import opened WorldModel
  import opened WorldCheckpoint
  import opened WorldScans

  method LoadPlayers(views: seq<PlayerView>) returns (m: map<string, Player>)
    ensures m == PlayersFrom(views)
  {
    m := map[];
    for i := 0 to |views|
      invariant m == PlayersFrom(views[..i])
    {
      assert views[..i + 1][..i] == views[..i];
      m := m[views[i].username := PlayerFrom(views[i])];
    }
    assert views[..|views|] == views;
  }

  method LoadNPCs(views: seq<NpcView>) returns (m: map<string, NPC>)
    ensures m == NpcsFrom(views)
  {
    m := map[];
    for i := 0 to |views|
      invariant m == NpcsFrom(views[..i])
    {
      assert views[..i + 1][..i] == views[..i];
      m := m[views[i].id := views[i].npc];
    }
    assert views[..|views|] == views;
  }

  method LoadTreasures(views: seq<TreasureView>) returns (m: map<string, Treasure>)
    ensures m == TreasuresFrom(views)
  {
    m := map[];
    for i := 0 to |views|
      invariant m == TreasuresFrom(views[..i])
    {
      assert views[..i + 1][..i] == views[..i];
      m := m[views[i].id := views[i].treasure];
    }
    assert views[..|views|] == views;
  }

  method ListPlayers(players: map<string, Player>, names: seq<string>, now: int, views: map<string, PlayerView>)
    returns (list: seq<PlayerView>)
    requires views.Keys == players.Keys && forall u | u in names :: u in players
    requires forall u | u in views :: views[u] == ViewOf(u, players[u], now)
    ensures list == PlayerViews(players, names, now)
  {
    hide ViewOf;
    list := [];
    for i := 0 to |names|
      invariant list == PlayerViews(players, names[..i], now)
    {
      assert names[i] in names && names[..i + 1][..i] == names[..i];
      list := list + [views[names[i]]];
    }
    assert names[..|names|] == names;
  }

  method ListNPCs(npcs: map<string, NPC>, ids: seq<string>) returns (list: seq<NpcView>)
    requires forall id | id in ids :: id in npcs
    ensures list == NpcViews(npcs, ids)
  {
    list := [];
    for i := 0 to |ids|
      invariant list == NpcViews(npcs, ids[..i])
    {
      assert ids[i] in ids && ids[..i + 1][..i] == ids[..i];
      list := list + [NpcView(ids[i], npcs[ids[i]])];
    }
    assert ids[..|ids|] == ids;
  }

  method ListTreasures(treasures: map<string, Treasure>, ids: seq<string>) returns (list: seq<TreasureView>)
    requires forall id | id in ids :: id in treasures
    ensures list == TreasureViews(treasures, ids)
  {
    list := [];
    for i := 0 to |ids|
      invariant list == TreasureViews(treasures, ids[..i])
    {
      assert ids[i] in ids && ids[..i + 1][..i] == ids[..i];
      list := list + [TreasureView(ids[i], treasures[ids[i]])];
    }
    assert ids[..|ids|] == ids;
  }

  class World {
    const cfg: Config
    var terrain: Terrain
    var players: map<string, Player>
    var npcs: map<string, NPC>
    var treasures: map<string, Treasure>
    var version: int
    var nextNPC: nat
    var nextTreasure: nat
    var drawn: nat

    ghost function Value(): State
      reads this
    {
      State(cfg, terrain, players, npcs, treasures, version, nextNPC, nextTreasure, drawn)
    }

    /** No cell holds two treasures, so the scan for a treasure leaves no choice. */
    ghost predicate Valid()
      reads this
    {
      OnePerCell(treasures)
    }

    /** An empty map, before NewWorld fills it. */
    constructor (cfg: Config)
      ensures Value() == EmptyWorld(cfg) && Valid()
    {
      this.cfg, terrain := cfg, cfg.layout;
      players, npcs, treasures := map[], map[], map[];
      version, nextNPC, nextTreasure, drawn := 0, 0, 0, 0;
    }

    /** A world in a given state. */
    constructor From(s: State)
      ensures Value() == s
    {
      cfg, terrain, players, npcs, treasures := s.cfg, s.terrain, s.players, s.npcs, s.treasures;
      version, nextNPC, nextTreasure, drawn := s.version, s.nextNPC, s.nextTreasure, s.drawn;
    }

    method Intn(bound: nat) returns (r: nat)
      requires bound > 0
      modifies `drawn
      ensures r == Draw(old(Value()), bound) && drawn == old(drawn) + 1
    {
      r := cfg.stream(drawn) % bound;
      drawn := drawn + 1;
    }

    // ----- Scans -----

    method WalkableFor(c: Cell, ignore: string) returns (ok: bool)
      ensures ok <==> Walkable(Value(), c, ignore)
    {
      if c.y < 0 || c.y >= |terrain| || c.x < 0 || c.x >= |terrain[c.y]| {
        return false;
      }
      if terrain[c.y][c.x] == '#' {
        return false;
      }
      var names := players.Keys;
      while names != {}
        invariant names <= players.Keys
        invariant forall u | u in players && u !in names :: u == ignore || !players[u].alive || players[u].at != c
        decreases |names|
      {
        var u :| u in names;
        if u != ignore && players[u].alive && players[u].at == c {
          assert PlayerOn(Value(), c, ignore);
          return false;
        }
        names := names - {u};
      }
      var ids := npcs.Keys;
      while ids != {}
        invariant ids <= npcs.Keys
        invariant forall id | id in npcs && id !in ids :: !npcs[id].alive || npcs[id].at != c
        decreases |ids|
      {
        var id :| id in ids;
        if npcs[id].alive && npcs[id].at == c {
          assert NpcOn(Value(), c);
          return false;
        }
        ids := ids - {id};
      }
      return true;
    }

    method ClosestNpc(c: Cell) returns (best: int)
      ensures best == Nearest(c, LiveNpcCells(Value()))
    {
      ghost var s := Value();
      ghost var at := NpcCells(s);
      hide Visited, Nearest, Distance;
      best := MAP_WIDTH + MAP_HEIGHT;
      var todo := npcs.Keys;
      NothingVisited(at, todo);
      NearestUnique(c, {}, best);
      while todo != {}
        invariant todo <= npcs.Keys && best == Nearest(c, Visited(at, todo))
        decreases |todo|
      {
        var id :| id in todo;
        VisitedMore(at, todo, id);
        if npcs[id].alive {
          NearestMore(c, Visited(at, todo), npcs[id].at);
          best := Min(best, Distance(c, npcs[id].at));
        }
        todo := todo - {id};
      }
      AllVisited(s);
    }

    method ClosestLivePlayer(c: Cell) returns (best: int)
      ensures best == Nearest(c, LivePlayerCells(Value()))
    {
      ghost var s := Value();
      ghost var at := PlayerCells(s);
      hide Visited, Nearest, Distance;
      best := MAP_WIDTH + MAP_HEIGHT;
      var todo := players.Keys;
      NothingVisited(at, todo);
      NearestUnique(c, {}, best);
      while todo != {}
        invariant todo <= players.Keys && best == Nearest(c, Visited(at, todo))
        decreases |todo|
      {
        var u :| u in todo;
        VisitedMore(at, todo, u);
        if players[u].alive {
          NearestMore(c, Visited(at, todo), players[u].at);
          best := Min(best, Distance(c, players[u].at));
        }
        todo := todo - {u};
      }
      AllVisited(s);
    }

    method ClosestTreasure(c: Cell) returns (best: int)
      ensures best == Nearest(c, TreasureCells(Value()))
    {
      ghost var s := Value();
      ghost var at := TreasureSpots(s);
      hide Visited, Nearest, Distance;
      best := MAP_WIDTH + MAP_HEIGHT;
      var todo := treasures.Keys;
      NothingVisited(at, todo);
      NearestUnique(c, {}, best);
      while todo != {}
        invariant todo <= treasures.Keys && best == Nearest(c, Visited(at, todo))
        decreases |todo|
      {
        var id :| id in todo;
        VisitedMore(at, todo, id);
        NearestMore(c, Visited(at, todo), treasures[id].at);
        best := Min(best, Distance(c, treasures[id].at));
        todo := todo - {id};
      }
      AllVisited(s);
    }

    method ScoreCell(c: Cell, preferNPC: bool) returns (score: int)
      ensures score == SpawnScore(Value(), c, preferNPC)
    {
      var bestNPC := ClosestNpc(c);
      var bestPlayer := ClosestLivePlayer(c);
      var bestTreasure := ClosestTreasure(c);
      var width, height := |terrain[0]|, |terrain|;
      var edgeMargin := Min(Min(c.x, width - 1 - c.x), Min(c.y, height - 1 - c.y));
      var centerDist := Distance(c, Cell(width / 2, height / 2));
      score := bestNPC * 120 + bestPlayer * 20 + bestTreasure * 15 + edgeMargin * 30 - centerDist * 3;
      if preferNPC {
        score := score + Distance(c, cfg.spawn) * 2;
      }
    }

    /** The walkable cells with their scores, collected row by row. */
    method ListCandidates(ignore: string, preferNPC: bool) returns (ks: seq<Candidate>)
      ensures forall i, j | 0 <= i < j < |ks| :: ks[i] != ks[j]
      ensures forall i | 0 <= i < |ks| :: Scored(Value(), ignore, preferNPC, ks[i])
      ensures forall c | Walkable(Value(), c, ignore) :: Candidate(c, SpawnScore(Value(), c, preferNPC)) in ks
    {
      ghost var s := Value();
      ks := [];
      hide Collected, Walkable, SpawnScore;
      assert Collected(s, ignore, preferNPC, ks, 0, 0) by {
        NothingCollected(s, ignore, preferNPC);
      }
      for y := 0 to |terrain|
        invariant Collected(s, ignore, preferNPC, ks, y, 0)
      {
        for x := 0 to |terrain[y]|
          invariant Collected(s, ignore, preferNPC, ks, y, x)
        {
          CollectedCell(s, ignore, preferNPC, ks, y, x);
          var ok := WalkableFor(Cell(x, y), ignore);
          if ok {
            var score := ScoreCell(Cell(x, y), preferNPC);
            ks := ks + [Candidate(Cell(x, y), score)];
          }
        }
        CollectedRow(s, ignore, preferNPC, ks, y);
      }
      CollectedAll(s, ignore, preferNPC, ks);
    }

    method BestSpawnCell(ignore: string, preferNPC: bool) returns (c: Option<Cell>)
      modifies `drawn
      ensures c == BestSpawn(old(Value()), ignore, preferNPC)
      ensures drawn == old(drawn) + if c.Some? then 1 else 0
    {
      ghost var s := Value();
      hide Walkable, SpawnScore;
      var candidates := ListCandidates(ignore, preferNPC);
      assert Value() == s;
      var sorted := SortCandidates(candidates);
      assert forall i | 0 <= i < |sorted| :: sorted[i] in candidates;
      forall c | Walkable(s, c, ignore) ensures Candidate(c, SpawnScore(s, c, preferNPC)) in sorted {
        assert Candidate(c, SpawnScore(s, c, preferNPC)) in candidates;
      }
      CandidatesRanked(s, ignore, preferNPC, sorted);
      if |sorted| == 0 {
        return None;
      }
      var k := Intn(Min(SPAWN_CHOICES, |sorted|));
      assert CellsOf(sorted)[k] == sorted[k].at;
      c := Some(sorted[k].at);
    }

    method FindSafePosition(want: Cell, ignore: string) returns (c: Cell)
      modifies `drawn
      ensures c == SafeCell(old(Value()), want, ignore)
      ensures drawn == SafeCellDrawn(old(Value()), want, ignore)
    {
      var ok := WalkableFor(want, ignore);
      if ok {
        return want;
      }
      hide Walkable, WalkableCells;
      var spawn := BestSpawnCell(ignore, true);
      c := if spawn.Some? then spawn.value else cfg.spawn;
    }

    method WeakestNpc(c: Cell) returns (best: Option<string>)
      ensures best == NpcTarget(Value(), c)
    {
      ghost var s := Value();
      WeakerIsStrict();
      hide Weaker, StrLess;
      best := None;
      var ids := npcs.Keys;
      while ids != {}
        invariant ids <= npcs.Keys
        invariant best.None? ==> forall j | j !in ids :: !NpcInReach(s, c, j)
        invariant best.Some? ==> NpcInReach(s, c, best.value) && best.value !in ids
        invariant best.Some? ==> forall j | j !in ids && NpcInReach(s, c, j) && j != best.value ::
          Weaker(npcs[best.value].hp, best.value, npcs[j].hp, j)
        decreases |ids|
      {
        var id :| id in ids;
        ids := ids - {id};
        if npcs[id].alive && Distance(c, npcs[id].at) <= ATTACK_RANGE {
          if best.None? || Weaker(npcs[id].hp, id, npcs[best.value].hp, best.value) {
            best := Some(id);
          }
        }
      }
      NpcTargetDetermined(s, c);
      assert best.Some? ==> IsNpcTarget(s, c, best.value);
    }

    method WeakestPlayer(c: Cell, radius: int, self: Option<string>) returns (best: Option<string>)
      ensures best == PlayerTarget(Value(), c, radius, self)
    {
      ghost var s := Value();
      WeakerIsStrict();
      hide Weaker, StrLess;
      best := None;
      var names := players.Keys;
      while names != {}
        invariant names <= players.Keys
        invariant best.None? ==> forall j | j !in names :: !PlayerInReach(s, c, radius, self, j)
        invariant best.Some? ==> PlayerInReach(s, c, radius, self, best.value) && best.value !in names
        invariant best.Some? ==> forall j | j !in names && PlayerInReach(s, c, radius, self, j) && j != best.value ::
          Weaker(players[best.value].hp, best.value, players[j].hp, j)
        decreases |names|
      {
        var u :| u in names;
        names := names - {u};
        if self != Some(u) && players[u].alive && Distance(c, players[u].at) <= radius {
          if best.None? || Weaker(players[u].hp, u, players[best.value].hp, best.value) {
            best := Some(u);
          }
        }
      }
      PlayerTargetDetermined(s, c, radius, self);
      assert best.Some? ==> IsPlayerTarget(s, c, radius, self, best.value);
    }

    method FindTreasure(c: Cell) returns (found: Option<string>)
      requires Valid()
      ensures found.None? <==> !TreasureOn(Value(), c)
      ensures found.Some? ==> TreasureOn(Value(), c) && found.value == TreasureAt(Value(), c)
    {
      var ids := treasures.Keys;
      while ids != {}
        invariant ids <= treasures.Keys
        invariant forall id | id in treasures && id !in ids :: treasures[id].at != c
        decreases |ids|
      {
        var id :| id in ids;
        if treasures[id].at == c {
          assert TreasureOn(Value(), c);
          return Some(id);
        }
        ids := ids - {id};
      }
      return None;
    }

    // ----- Updates -----

    method RefreshPlayer(u: string, now: int)
      requires u in players
      modifies this
      ensures Value() == Refresh(old(Value()), u, now) && treasures == old(treasures)
    {
      hide SafeCell, SafeCellDrawn;
      var p := players[u];
      if p.alive || p.respawnAt.None? {
        return;
      }
      if now < p.respawnAt.value {
        return;
      }
      var c := FindSafePosition(cfg.spawn, u);
      players := players[u := p.(at := c, hp := p.maxHP, potions := Max(p.potions, MAX_POTIONS), alive := true,
                                 respawnAt := None)];
      version := version + 1;
    }

    method AddOrRestorePlayer(profile: Profile)
      modifies this
      ensures Value() == AddPlayer(old(Value()), profile) && treasures == old(treasures)
    {
      hide SafeCell, SafeCellDrawn;
      var want := profile.at;
      if profile.lastMap != cfg.id {
        want := cfg.spawn;
      }
      var c := FindSafePosition(want, "");
      var player := Player(c, ValueOr(profile.hp, INIT_HP), ValueOr(profile.maxHP, INIT_HP),
                           ValueOr(profile.attack, INIT_ATTACK), ValueOr(profile.potions, MAX_POTIONS),
                           profile.treasures, profile.kills, profile.deaths, profile.victories, profile.alive, None);
      if profile.hp == 0 && !profile.alive {
        player := player.(alive := false);
      }
      if player.hp <= 0 {
        player := player.(hp := player.maxHP, alive := true);
      }
      players := players[profile.username := player];
      version := version + 1;
    }

    method RemovePlayer(u: string) returns (profile: Option<Profile>)
      modifies this
      ensures Value() == WorldModel.RemovePlayer(old(Value()), u) && treasures == old(treasures)
      ensures profile == ProfileIn(old(Value()), u)
    {
      if u !in players {
        return None;
      }
      profile := Some(ProfileFrom(cfg.id, u, players[u]));
      players := players - {u};
      version := version + 1;
    }

    method ProfileOf(u: string, now: int) returns (profile: Option<Profile>)
      modifies this
      ensures Value() == Refresh(old(Value()), u, now) && treasures == old(treasures)
      ensures profile == ProfileIn(Value(), u)
    {
      if u !in players {
        return None;
      }
      RefreshPlayer(u, now);
      profile := Some(ProfileFrom(cfg.id, u, players[u]));
    }

    method MovePlayer(u: string, dir: string, now: int) returns (profile: Option<Profile>)
      requires Valid()
      modifies this
      ensures Value() == WorldModel.Move(old(Value()), u, dir, now) && Valid()
      ensures profile == ProfileIn(Value(), u)
    {
      hide Walkable, Refresh;
      if u !in players {
        return None;
      }
      RefreshPlayer(u, now);
      if players[u].alive {
        var c := Shifted(players[u].at, dir);
        var ok := WalkableFor(c, u);
        if ok {
          players := players[u := players[u].(at := c)];
          var found := FindTreasure(c);
          if found.Some? {
            players := players[u := players[u].(treasures := players[u].treasures + treasures[found.value].value)];
            treasures := treasures - {found.value};
          }
          version := version + 1;
        }
      }
      profile := Some(ProfileFrom(cfg.id, u, players[u]));
    }

    method HealPlayer(u: string, now: int) returns (profile: Option<Profile>)
      modifies this
      ensures Value() == Heal(old(Value()), u, now) && treasures == old(treasures)
      ensures profile == ProfileIn(Value(), u)
    {
      hide Refresh;
      if u !in players {
        return None;
      }
      RefreshPlayer(u, now);
      var p := players[u];
      if p.alive && p.potions > 0 {
        p := p.(potions := p.potions - 1, hp := p.hp + HEAL_AMOUNT);
        if p.hp > p.maxHP {
          p := p.(hp := p.maxHP);
        }
        players := players[u := p];
        version := version + 1;
      }
      profile := Some(ProfileFrom(cfg.id, u, players[u]));
    }

    method BuyItem(u: string, item: string, now: int) returns (profile: Option<Profile>)
      modifies this
      ensures Value() == Buy(old(Value()), u, item, now) && treasures == old(treasures)
      ensures profile == ProfileIn(Value(), u)
    {
      hide Refresh;
      if u !in players {
        return None;
      }
      RefreshPlayer(u, now);
      var p := players[u];
      if p.alive {
        if item == "potion" {
          if p.treasures >= POTION_PRICE && p.potions < POTION_CAP {
            players := players[u := p.(treasures := p.treasures - POTION_PRICE, potions := p.potions + 1)];
            version := version + 1;
          }
        } else if item == "weapon" {
          if p.treasures >= WEAPON_PRICE {
            players := players[u := p.(treasures := p.treasures - WEAPON_PRICE, attack := p.attack + WEAPON_BOOST)];
            version := version + 1;
          }
        }
      }
      profile := Some(ProfileFrom(cfg.id, u, players[u]));
    }

    method RewardPlayer(u: string, treasureDelta: int, victoryDelta: int) returns (profile: Option<Profile>)
      modifies this
      ensures Value() == WorldModel.Reward(old(Value()), u, treasureDelta, victoryDelta) && treasures == old(treasures)
      ensures profile == ProfileIn(Value(), u)
    {
      if u !in players {
        return None;
      }
      var p := players[u];
      players := players[u := p.(treasures := p.treasures + treasureDelta, victories := p.victories + victoryDelta)];
      version := version + 1;
      profile := Some(ProfileFrom(cfg.id, u, players[u]));
    }

    method DropTreasure(c: Cell, value: int, kind: string)
      requires Valid()
      modifies this
      ensures Value() == WorldModel.DropTreasure(old(Value()), c, value, kind) && Valid()
      ensures players == old(players) && npcs == old(npcs)
    {
      if c.x < 0 || c.y < 0 || c.y >= |terrain| || c.x >= |terrain[c.y]| {
        return;
      }
      var found := FindTreasure(c);
      if found.Some? {
        var t := treasures[found.value];
        treasures := treasures[found.value := t.(value := t.value + value)];
        version := version + 1;
        return;
      }
      treasures := treasures[TreasureId(cfg.id, nextTreasure) := Treasure(kind, c, value)];
      nextTreasure := nextTreasure + 1;
      version := version + 1;
    }

    method StrikeNpc(u: string, id: string)
      requires Valid() && u in players && id in npcs
      modifies this
      ensures Value() == HitNpc(old(Value()), u, id) && Valid() && u in players
    {
      hide WorldModel.DropTreasure;
      var n := npcs[id];
      n := n.(hp := n.hp - players[u].attack);
      npcs := npcs[id := n];
      if n.hp <= 0 {
        ghost var was := old(npcs);
        npcs := npcs - {id};
        assert npcs == was - {id};
        players := players[u := players[u].(kills := players[u].kills + 1)];
        var loot := Intn(3);
        DropTreasure(n.at, 2 + loot, "loot");
      }
      version := version + 1;
    }

    method StrikePlayer(u: string, v: string, now: int)
      requires u in players && v in players && u != v
      modifies this
      ensures Value() == HitPlayer(old(Value()), u, v, now) && treasures == old(treasures) && u in players
    {
      var q := players[v];
      players := players[v := q.(hp := q.hp - players[u].attack)];
      if players[v].hp <= 0 {
        players := players[u := players[u].(kills := players[u].kills + 1)];
        players := players[v := KnockDown(players[v], now)];
      }
      version := version + 1;
    }

    method Attack(u: string, now: int) returns (victim: Option<string>, profile: Option<Profile>)
      requires Valid()
      modifies this
      ensures Value() == WorldModel.Attack(old(Value()), u, now) && Valid()
      ensures victim == AttackVictim(old(Value()), u, now)
      ensures profile == ProfileIn(Value(), u)
    {
      hide Refresh, HitNpc, HitPlayer, NpcTarget, PlayerTarget;
      victim := None;
      if u !in players {
        return None, None;
      }
      RefreshPlayer(u, now);
      if players[u].alive {
        var id := WeakestNpc(players[u].at);
        if id.Some? {
          TargetsExist(Value(), players[u].at, u);
          StrikeNpc(u, id.value);
        } else {
          victim := WeakestPlayer(players[u].at, ATTACK_RANGE, Some(u));
          if victim.Some? {
            TargetsExist(Value(), players[u].at, u);
            StrikePlayer(u, victim.value, now);
          }
        }
      }
      profile := Some(ProfileFrom(cfg.id, u, players[u]));
    }

    // ----- The background step -----

    /** Refreshes every player; the order is the one in which the map happened to list them. */
    method RefreshEach(now: int) returns (ghost order: seq<string>)
      modifies this
      ensures Value() == RefreshAll(old(Value()), order, now) && treasures == old(treasures)
      ensures Listing(order, old(players).Keys) && NoneDue(Value(), now)
    {
      ghost var s := Value();
      hide Refresh, Due;
      order := [];
      var names := players.Keys;
      while names != {}
        invariant names <= s.players.Keys
        invariant Value() == RefreshAll(s, order, now) && treasures == old(treasures)
        invariant |order| + |names| == |s.players| && forall u :: u in order <==> u in s.players && u !in names
        decreases |names|
      {
        var u :| u in names;
        names := names - {u};
        RefreshAllAppend(s, order, u, now);
        RefreshPlayer(u, now);
        order := order + [u];
      }
      assert forall u :: u in Elements(order) <==> u in order;
      RefreshAllSettles(s, order, now) by {
        DueIsPresent(s, now);
      }
    }

    method SpawnNPC() returns (spawned: bool)
      modifies this
      ensures Value() == SpawnNpc(old(Value())) && treasures == old(treasures) && players == old(players)
      ensures spawned <==> WalkableCells(old(Value()), "") != {}
    {
      hide WalkableCells;
      var c := BestSpawnCell("", true);
      if c.None? {
        return false;
      }
      var id := NpcId(cfg.id, nextNPC);
      var more := Intn(30);
      npcs := npcs[id := NPC(nextNPC % 6, c.value, 70 + more, 90, NPC_DAMAGE, true)];
      nextNPC := nextNPC + 1;
      version := version + 1;
      return true;
    }

    method RefillNPCs()
      modifies this
      ensures Value() == RefillNpcs(old(Value())) && treasures == old(treasures) && players == old(players)
    {
      ghost var s := Value();
      hide SpawnNpc, WalkableCells, NpcIdsToCome;
      while |npcs| < MIN_NPCS
        invariant RefillNpcs(Value()) == RefillNpcs(s) && treasures == old(treasures) && players == old(players)
        decreases MIN_NPCS - |npcs|, |NpcIdsToCome(Value())|
      {
        ghost var before := Value();
        if WalkableCells(before, "") != {} {
          SpawnProgress(before);
        }
        var spawned := SpawnNPC();
        if !spawned {
          SpawnRefused(s, before);
          break;
        }
      }
    }

    method SpawnTreasure(kind: string)
      requires Valid()
      modifies this
      ensures Value() == WorldModel.SpawnTreasure(old(Value()), kind) && Valid()
      ensures players == old(players) && npcs == old(npcs)
    {
      hide BestSpawn, WorldModel.DropTreasure;
      var c := BestSpawnCell("", false);
      if c.Some? {
        var more := Intn(4);
        DropTreasure(c.value, 1 + more, kind);
      }
    }

    method MaybeTreasure()
      requires Valid()
      modifies this
      ensures Value() == WorldModel.MaybeTreasure(old(Value())) && Valid()
      ensures players == old(players) && npcs == old(npcs)
    {
      hide WorldModel.SpawnTreasure;
      if |treasures| < MAX_TREASURES {
        var chance := Intn(100);
        if chance < 45 {
          SpawnTreasure("chest");
        }
      }
    }

    /** The players are refreshed once more while the closest one is sought; nothing comes of it, as
        they have all been refreshed in this step. */
    method ClosestPlayer(c: Cell, radius: int, now: int) returns (best: Option<string>)
      requires NoneDue(Value(), now)
      modifies this
      ensures Value() == old(Value())
      ensures best == PlayerTarget(Value(), c, radius, None)
    {
      ghost var s := Value();
      var names := players.Keys;
      while names != {}
        invariant names <= players.Keys && Value() == s
        decreases |names|
      {
        var u :| u in names;
        RefreshPlayer(u, now);
        names := names - {u};
      }
      best := WeakestPlayer(c, radius, None);
    }

    method Stroll(id: string, base: nat)
      requires id in npcs
      modifies this
      ensures Value() == Wander(old(Value()), id, base, 4)
      ensures players == old(players) && treasures == old(treasures)
    {
      ghost var s := Value();
      hide Walkable;
      for step := 0 to 4
        invariant Value() == s && Wander(s, id, base, 4) == Wander(s, id, base + step, 4 - step)
      {
        var c := Heading(npcs[id].at, base + step);
        var ok := WalkableFor(c, "");
        if ok {
          npcs := npcs[id := npcs[id].(at := c)];
          version := version + 1;
          return;
        }
      }
    }

    method TakeTurn(id: string, now: int)
      requires NoneDue(Value(), now)
      modifies this
      ensures Value() == NpcTurn(old(Value()), id, now)
      ensures NoneDue(Value(), now) && treasures == old(treasures)
    {
      hide PlayerTarget, Wander;
      if id !in npcs || !npcs[id].alive {
        return;
      }
      var v := ClosestPlayer(npcs[id].at, 1, now);
      if v.Some? {
        BittenIsPresent(Value(), npcs[id].at);
        var q := players[v.value];
        q := q.(hp := q.hp - npcs[id].attack);
        if q.hp <= 0 {
          q := KnockDown(q, now);
        }
        players := players[v.value := q];
        version := version + 1;
        return;
      }
      var base := Intn(4);
      Stroll(id, base);
    }

    method BackgroundStep(now: int) returns (ghost order: seq<string>)
      requires Valid()
      modifies this
      ensures Value() == Background(old(Value()), order, now) && Valid()
      ensures Listing(order, old(players).Keys)
    {
      ghost var s := Value();
      hide RefreshAll, RefillNpcs, WorldModel.MaybeTreasure, NpcTurn;
      order := RefreshEach(now);
      RefillNPCs();
      MaybeTreasure();
      ghost var ready := Value();
      assert NoneDue(ready, now);
      var ids := SortNames(npcs.Keys);
      for i := 0 to |ids|
        invariant NpcTurns(Value(), ids[i..], now) == NpcTurns(ready, ids, now)
        invariant NoneDue(Value(), now) && Valid()
      {
        assert ids[i..][0] == ids[i] && ids[i..][1..] == ids[i + 1..];
        TakeTurn(ids[i], now);
      }
      assert ids[|ids|..] == [];
    }

    // ----- Checkpoints -----

    /** The views are taken one player at a time, each just after its refresh. */
    method ViewPlayers(now: int) returns (views: map<string, PlayerView>, ghost order: seq<string>)
      modifies this
      ensures Value() == RefreshAll(old(Value()), order, now) && treasures == old(treasures)
      ensures Listing(order, old(players).Keys)
      ensures views.Keys == players.Keys && forall u | u in views :: views[u] == ViewOf(u, players[u], now)
    {
      ghost var s := Value();
      hide Refresh, ViewOf, RefreshAll;
      order := [];
      RefreshNone(s, now);
      views := map[];
      var todo := players.Keys;
      while todo != {}
        invariant todo <= s.players.Keys && views.Keys == s.players.Keys - todo
        invariant Value() == RefreshAll(s, order, now) && treasures == old(treasures)
        invariant |order| + |todo| == |s.players| && forall u :: u in order <==> u in s.players && u !in todo
        invariant forall u | u in views :: views[u] == ViewOf(u, players[u], now)
        decreases |todo|
      {
        var u :| u in todo;
        todo := todo - {u};
        RefreshAllAppend(s, order, u, now);
        RefreshKeepsOthers(Value(), u, now);
        RefreshPlayer(u, now);
        views := views[u := ViewOf(u, players[u], now)];
        order := order + [u];
      }
      assert forall u :: u in Elements(order) <==> u in order;
    }

    method CaptureCheckpoint(nodeId: string, now: int) returns (cp: Checkpoint, ghost order: seq<string>)
      modifies this
      ensures Value() == RefreshAll(old(Value()), order, now) && treasures == old(treasures)
      ensures Listing(order, old(players).Keys)
      ensures cp == Captured(Value(), nodeId, now)
    {
      hide RefreshAll, ViewOf, Captured;
      var views;
      views, order := ViewPlayers(now);
      cp := ListViews(nodeId, now, views);
    }

    method ListViews(nodeId: string, now: int, views: map<string, PlayerView>) returns (cp: Checkpoint)
      requires views.Keys == players.Keys
      requires forall u | u in views :: views[u] == ViewOf(u, players[u], now)
      ensures cp == Captured(Value(), nodeId, now)
    {
      hide ViewOf, SortedNames, PlayerViews, NpcViews, TreasureViews;
      SortedNamesShape(players.Keys);
      SortedNamesShape(npcs.Keys);
      SortedNamesShape(treasures.Keys);
      var names := SortNames(players.Keys);
      var playerViews := ListPlayers(players, names, now, views);
      var npcIds := SortNames(npcs.Keys);
      var npcViews := ListNPCs(npcs, npcIds);
      var treasureIds := SortNames(treasures.Keys);
      var treasureViews := ListTreasures(treasures, treasureIds);
      cp := Checkpoint(cfg.id, nodeId, version, terrain, playerViews, npcViews, treasureViews);
    }

    method RestoreCheckpoint(cp: Checkpoint)
      modifies this
      ensures Value() == Restore(old(Value()), cp)
      ensures old(Valid()) && OnePerCell(TreasuresFrom(cp.treasures)) ==> Valid()
    {
      if cp.mapId != cfg.id || cp.version == 0 {
        return;
      }
      if |cp.terrain| > 0 {
        terrain := cp.terrain;
      }
      players := LoadPlayers(cp.players);
      npcs := LoadNPCs(cp.npcs);
      treasures := LoadTreasures(cp.treasures);
      version := cp.version;
      nextNPC := |npcs| + 1;
      nextTreasure := |treasures| + 1;
    }
  }
}
