/** What each operation does to the player who asks for it, to its target and to everything else, in
    cells, points and counts. */
module WorldEffects {
  import opened Basics
  import opened WorldModel
  import opened WorldScans

  /** Only player u and the version differ. */
  ghost predicate OnlyPlayer(s: State, t: State, u: string) {
    u in s.players && u in t.players && t == s.(players := s.players[u := t.players[u]], version := t.version)
  }

  /** The player is up once its own revival is settled. */
  ghost predicate Up(s: State, u: string, now: int) {
    u in s.players && Refresh(s, u, now).players[u].alive
  }

  // ----- Moving -----

  /** b is where a step in the direction leads from a: rows are counted downwards, and no other word moves. */
  predicate NextTo(a: Cell, dir: string, b: Cell) {
    || (dir == "up" && b.x == a.x && b.y == a.y - 1)
    || (dir == "down" && b.x == a.x && b.y == a.y + 1)
    || (dir == "left" && b.x == a.x - 1 && b.y == a.y)
    || (dir == "right" && b.x == a.x + 1 && b.y == a.y)
    || (dir !in {"up", "down", "left", "right"} && b == a)
  }

  /** A live player whose neighbour is walkable steps there and takes what lies there. */
  lemma MoveGoes(s: State, u: string, dir: string, now: int, c: Cell)
    requires Up(s, u, now) && NextTo(Refresh(s, u, now).players[u].at, dir, c) && Walkable(Refresh(s, u, now), c, u)
    ensures var r := Refresh(s, u, now);
      var d := Apply(s, OpMove(u, dir, now));
      && OnlyPlayer(r, d.(treasures := r.treasures), u) && d.version == r.version + 1
      && d.players[u] == r.players[u].(at := c, treasures := d.players[u].treasures)
      && (if exists id :: id in r.treasures && r.treasures[id].at == c
          then exists id :: id in r.treasures && r.treasures[id].at == c && d.treasures == r.treasures - {id}
                 && d.players[u].treasures == r.players[u].treasures + r.treasures[id].value
          else d.treasures == r.treasures && d.players[u].treasures == r.players[u].treasures)
  {
    hide Refresh, Walkable;
    var r := Refresh(s, u, now);
    assert Shifted(r.players[u].at, dir) == c;
    if TreasureOn(r, c) {
      var moved := r.(players := r.players[u := r.players[u].(at := c)]);
      assert TreasureOn(moved, c);
      var id := TreasureAt(moved, c);
      assert id in r.treasures && r.treasures[id].at == c;
    }
  }

  /** A player who is down, or whose neighbour is not walkable, stays. */
  lemma MoveStays(s: State, u: string, dir: string, now: int, c: Cell)
    requires u in s.players && NextTo(Refresh(s, u, now).players[u].at, dir, c)
    requires Refresh(s, u, now).players[u].alive ==> !Walkable(Refresh(s, u, now), c, u)
    ensures Apply(s, OpMove(u, dir, now)) == Refresh(s, u, now)
  {
    hide Refresh, Walkable;
    assert Shifted(Refresh(s, u, now).players[u].at, dir) == c;
  }

  // ----- Coming back to life -----

  /** A player whose time has come is up again at the spawn point, or on a spawn cell if that is taken,
      with full health and three potions or more; it keeps everything else. */
  lemma RevivalRestores(s: State, u: string, now: int)
    requires u in s.players && !s.players[u].alive && s.players[u].respawnAt.Some? && s.players[u].respawnAt.value <= now
    ensures var d := Apply(s, OpProfile(u, now));
      && OnlyPlayer(s, d.(drawn := s.drawn), u) && d.version == s.version + 1
      && d.players[u].alive && d.players[u].hp == d.players[u].maxHP == s.players[u].maxHP && d.players[u].respawnAt.None?
      && d.players[u].potions >= 3 && d.players[u].potions >= s.players[u].potions
      && (d.players[u].potions == 3 || d.players[u].potions == s.players[u].potions)
      && d.players[u].treasures == s.players[u].treasures && d.players[u].attack == s.players[u].attack
      && d.players[u].kills == s.players[u].kills && d.players[u].deaths == s.players[u].deaths
      && d.players[u].victories == s.players[u].victories
  {
    hide SafeCell, SafeCellDrawn;
  }

  lemma RevivalPlace(s: State, u: string, now: int)
    requires u in s.players && !s.players[u].alive && s.players[u].respawnAt.Some? && s.players[u].respawnAt.value <= now
    ensures var c := Apply(s, OpProfile(u, now)).players[u].at;
      && (Walkable(s, s.cfg.spawn, u) ==> c == s.cfg.spawn)
      && (forall c' | Walkable(s, c', u) :: Walkable(s, c, u))
      && ((forall c' :: !Walkable(s, c', u)) ==> c == s.cfg.spawn)
  {
    hide Walkable, SafeCellDrawn;
    forall c' | Walkable(s, c', u) ensures WalkableCells(s, u) != {} {
      WalkableListed(s, c', u);
    }
    SpawnRank(s, u, true);
  }

  /** Nobody else is changed by looking at a profile. */
  lemma NoRevival(s: State, u: string, now: int)
    requires u !in s.players || s.players[u].alive || s.players[u].respawnAt.None? || s.players[u].respawnAt.value > now
    ensures Apply(s, OpProfile(u, now)) == s
  {
  }

  // ----- Healing, buying, being paid -----

  /** A live player with a potion gains 30 points of health, up to the maximum, for one potion. */
  lemma HealGives(s: State, u: string, now: int)
    requires Up(s, u, now) && Refresh(s, u, now).players[u].potions > 0
    ensures var r := Refresh(s, u, now);
      var d := Apply(s, OpHeal(u, now));
      && OnlyPlayer(r, d, u) && d.version == r.version + 1
      && d.players[u] == r.players[u].(hp := d.players[u].hp, potions := r.players[u].potions - 1)
      && (r.players[u].hp + 30 <= r.players[u].maxHP ==> d.players[u].hp == r.players[u].hp + 30)
      && (r.players[u].hp + 30 > r.players[u].maxHP ==> d.players[u].hp == r.players[u].maxHP)
  {
    hide Refresh;
  }

  lemma HealRefused(s: State, u: string, now: int)
    requires u in s.players && (!Up(s, u, now) || Refresh(s, u, now).players[u].potions <= 0)
    ensures Apply(s, OpHeal(u, now)) == Refresh(s, u, now)
  {
    hide Refresh;
  }

  /** What the shop sells: a potion for 3 treasures to whoever has fewer than 8, 6 points of attack for 8. */
  predicate Affordable(p: Player, item: string) {
    (item == "potion" && p.treasures >= 3 && p.potions < 8) || (item == "weapon" && p.treasures >= 8)
  }

  lemma BuySells(s: State, u: string, item: string, now: int)
    requires Up(s, u, now) && Affordable(Refresh(s, u, now).players[u], item)
    ensures var r := Refresh(s, u, now);
      var d := Apply(s, OpBuy(u, item, now));
      && OnlyPlayer(r, d, u) && d.version == r.version + 1
      && (item == "potion" ==>
            d.players[u] == r.players[u].(treasures := r.players[u].treasures - 3, potions := r.players[u].potions + 1))
      && (item == "weapon" ==>
            d.players[u] == r.players[u].(treasures := r.players[u].treasures - 8, attack := r.players[u].attack + 6))
  {
    hide Refresh;
  }

  lemma BuyRefused(s: State, u: string, item: string, now: int)
    requires u in s.players && (!Up(s, u, now) || !Affordable(Refresh(s, u, now).players[u], item))
    ensures Apply(s, OpBuy(u, item, now)) == Refresh(s, u, now)
  {
    hide Refresh;
  }

  lemma RewardPays(s: State, u: string, treasures: int, victories: int)
    ensures var d := Apply(s, OpReward(u, treasures, victories));
      if u !in s.players then d == s
      else
        && OnlyPlayer(s, d, u) && d.version == s.version + 1
        && d.players[u] == s.players[u].(treasures := d.players[u].treasures, victories := d.players[u].victories)
        && d.players[u].treasures - s.players[u].treasures == treasures
        && d.players[u].victories - s.players[u].victories == victories
  {
  }

  // ----- Coming and going -----

  /** A newcomer brings its profile: health, potions and attack of 0 count as not saved, and health below
      0 as full health. */
  lemma EntrantBrings(s: State, p: Profile)
    ensures var d := Apply(s, OpAdd(p));
      && p.username in d.players
      && d == s.(players := s.players[p.username := d.players[p.username]], version := s.version + 1, drawn := d.drawn)
      && (var q := d.players[p.username];
          && q.maxHP == (if p.maxHP != 0 then p.maxHP else 120)
          && (if p.hp > 0 then q.hp == p.hp && q.alive == p.alive
              else if p.hp == 0 then q.hp == 120 && q.alive == p.alive
              else q.hp == q.maxHP && q.alive)
          && q.attack == (if p.attack != 0 then p.attack else 35) && q.potions == (if p.potions != 0 then p.potions else 3)
          && q.treasures == p.treasures && q.kills == p.kills && q.deaths == p.deaths && q.victories == p.victories
          && q.respawnAt.None?)
  {
    hide SafeCell, SafeCellDrawn;
  }

  /** It stands on its saved cell if that is on this map, else at the spawn point; on a spawn cell if that
      cell is not walkable. */
  lemma EntrantStands(s: State, p: Profile, want: Cell)
    requires want == if p.lastMap == s.cfg.id then p.at else s.cfg.spawn
    ensures var c := Apply(s, OpAdd(p)).players[p.username].at;
      && (Walkable(s, want, "") ==> c == want)
      && (forall c' | Walkable(s, c', "") :: Walkable(s, c, ""))
      && ((forall c' :: !Walkable(s, c', "")) ==> c == s.cfg.spawn)
  {
    hide Walkable, SafeCellDrawn;
    forall c' | Walkable(s, c', "") ensures WalkableCells(s, "") != {} {
      WalkableListed(s, c', "");
    }
    SpawnRank(s, "", true);
  }

  lemma RemovalTakes(s: State, u: string)
    ensures var d := Apply(s, OpRemove(u));
      if u !in s.players then d == s
      else u !in d.players && d == s.(players := s.players - {u}, version := s.version + 1)
  {
  }

  // ----- Fighting -----

  /** A live NPC at most two steps from the cell. */
  ghost predicate NpcNear(s: State, c: Cell, id: string) {
    id in s.npcs && s.npcs[id].alive && Abs(c.x - s.npcs[id].at.x) + Abs(c.y - s.npcs[id].at.y) <= 2
  }

  /** Another live player at most two steps from u. */
  ghost predicate RivalNear(s: State, u: string, v: string) {
    && u in s.players && v in s.players && v != u && s.players[v].alive
    && Abs(s.players[u].at.x - s.players[v].at.x) + Abs(s.players[u].at.y - s.players[v].at.y) <= 2
  }

  /** The NPC hit: none near has less health, and among those with as little its id comes first. */
  ghost predicate WeakestNear(s: State, c: Cell, id: string) {
    NpcNear(s, c, id)
    && forall j | NpcNear(s, c, j) && j != id ::
         s.npcs[id].hp < s.npcs[j].hp || (s.npcs[id].hp == s.npcs[j].hp && StrLess(id, j))
  }

  /** The player hit, likewise. */
  ghost predicate WeakestRival(s: State, u: string, v: string) {
    RivalNear(s, u, v)
    && forall j | RivalNear(s, u, j) && j != v ::
         s.players[v].hp < s.players[j].hp || (s.players[v].hp == s.players[j].hp && StrLess(v, j))
  }

  lemma NearIsTarget(s: State, c: Cell, id: string)
    ensures WeakestNear(s, c, id) <==> IsNpcTarget(s, c, id)
  {
    assert forall j :: NpcNear(s, c, j) <==> NpcInReach(s, c, j);
    hide NpcInReach, NpcNear;
  }

  lemma RivalIsTarget(s: State, u: string, v: string)
    requires u in s.players
    ensures WeakestRival(s, u, v) <==> IsPlayerTarget(s, s.players[u].at, ATTACK_RANGE, Some(u), v)
  {
    assert forall j :: RivalNear(s, u, j) <==> PlayerInReach(s, s.players[u].at, ATTACK_RANGE, Some(u), j);
    hide PlayerInReach, RivalNear;
  }

  lemma AttackHitsNpc(s: State, u: string, now: int, id: string)
    requires Up(s, u, now) && WeakestNear(Refresh(s, u, now), Refresh(s, u, now).players[u].at, id)
    ensures id in Refresh(s, u, now).npcs && Apply(s, OpAttack(u, now)) == HitNpc(Refresh(s, u, now), u, id)
  {
    var r := Refresh(s, u, now);
    NearIsTarget(r, r.players[u].at, id);
    NpcTargetDetermined(r, r.players[u].at);
    hide Refresh, HitNpc, IsNpcTarget, NpcTarget;
  }

  /** An NPC with more health than the blow loses exactly the attacker's attack, and nothing else happens. */
  lemma AttackWoundsNpc(s: State, u: string, now: int, id: string)
    requires Up(s, u, now) && WeakestNear(Refresh(s, u, now), Refresh(s, u, now).players[u].at, id)
    requires Refresh(s, u, now).npcs[id].hp > Refresh(s, u, now).players[u].attack
    ensures var r := Refresh(s, u, now);
      var d := Apply(s, OpAttack(u, now));
      && id in d.npcs && r.npcs[id].hp - d.npcs[id].hp == r.players[u].attack
      && d == r.(npcs := r.npcs[id := r.npcs[id].(hp := d.npcs[id].hp)], version := r.version + 1)
  {
    AttackHitsNpc(s, u, now, id);
    hide Refresh, Apply, WeakestNear;
  }

  /** Loot of 2 to 4 lies on the cell, joined to what lay there. */
  ghost predicate Looted(s: State, d: State, c: Cell) {
    exists id, k :: 2 <= k <= 4 && LootIs(s, d, c, id, k)
  }

  ghost predicate LootIs(s: State, d: State, c: Cell, id: string, k: int) {
    && id in d.treasures && d.treasures[id].at == c && d.treasures == s.treasures[id := d.treasures[id]]
    && if TreasureOn(s, c) then id in s.treasures && s.treasures[id].at == c && d.treasures[id].value == s.treasures[id].value + k
       else d.treasures[id].value == k
  }

  /** A weaker one is gone: one kill more for the attacker, loot on the cell, and the others as they were. */
  lemma AttackKillsNpc(s: State, u: string, now: int, id: string)
    requires Up(s, u, now) && WeakestNear(Refresh(s, u, now), Refresh(s, u, now).players[u].at, id)
    requires Refresh(s, u, now).npcs[id].hp <= Refresh(s, u, now).players[u].attack
    ensures var r := Refresh(s, u, now);
      var d := Apply(s, OpAttack(u, now));
      && d.npcs == r.npcs - {id}
      && d.players == r.players[u := r.players[u].(kills := r.players[u].kills + 1)]
      && (if InBounds(r.terrain, r.npcs[id].at) then Looted(r, d, r.npcs[id].at) else d.treasures == r.treasures)
  {
    AttackHitsNpc(s, u, now, id);
    var r := Refresh(s, u, now);
    hide Refresh, Apply, WeakestNear;
    KillLoots(r, u, id);
  }

  lemma KillLoots(s: State, u: string, id: string)
    requires u in s.players && id in s.npcs && s.npcs[id].hp <= s.players[u].attack
    ensures var d := HitNpc(s, u, id);
      && d.npcs == s.npcs - {id} && d.players == s.players[u := s.players[u].(kills := s.players[u].kills + 1)]
      && (if InBounds(s.terrain, s.npcs[id].at) then Looted(s, d, s.npcs[id].at) else d.treasures == s.treasures)
  {
    var p, n := s.players[u], s.npcs[id];
    var dead := s.(npcs := s.npcs - {id}, players := s.players[u := p.(kills := p.kills + 1)], drawn := s.drawn + 1);
    assert TreasureOn(dead, n.at) <==> TreasureOn(s, n.at);
    var d := HitNpc(s, u, id);
    if InBounds(s.terrain, n.at) {
      var k := 2 + Draw(s, 3);
      var tid := if TreasureOn(dead, n.at) then TreasureAt(dead, n.at) else TreasureId(s.cfg.id, s.nextTreasure);
      assert LootIs(s, d, n.at, tid, k);
    }
  }

  lemma AttackHitsRival(s: State, u: string, now: int, v: string)
    requires Up(s, u, now) && WeakestRival(Refresh(s, u, now), u, v)
    requires forall id :: !NpcNear(Refresh(s, u, now), Refresh(s, u, now).players[u].at, id)
    ensures v != u && v in Refresh(s, u, now).players
          && Apply(s, OpAttack(u, now)) == HitPlayer(Refresh(s, u, now), u, v, now)
  {
    var r := Refresh(s, u, now);
    NobodyNear(r, r.players[u].at);
    RivalIsTarget(r, u, v);
    PlayerTargetDetermined(r, r.players[u].at, ATTACK_RANGE, Some(u));
    hide Refresh, HitPlayer, IsPlayerTarget, NpcTarget, PlayerTarget, NpcNear;
  }

  lemma NobodyNear(s: State, c: Cell)
    requires forall id :: !NpcNear(s, c, id)
    ensures NpcTarget(s, c) == None
  {
    forall id ensures !IsNpcTarget(s, c, id) {
      NearIsTarget(s, c, id);
    }
    hide IsNpcTarget, NpcNear;
  }

  /** With no NPC near, a rival with more health than the blow loses exactly the attacker's attack. */
  lemma AttackWoundsRival(s: State, u: string, now: int, v: string)
    requires Up(s, u, now) && WeakestRival(Refresh(s, u, now), u, v)
    requires forall id :: !NpcNear(Refresh(s, u, now), Refresh(s, u, now).players[u].at, id)
    requires Refresh(s, u, now).players[v].hp > Refresh(s, u, now).players[u].attack
    ensures var r := Refresh(s, u, now);
      var d := Apply(s, OpAttack(u, now));
      && OnlyPlayer(r, d, v) && d.version == r.version + 1
      && d.players[v] == r.players[v].(hp := d.players[v].hp) && r.players[v].hp - d.players[v].hp == r.players[u].attack
  {
    AttackHitsRival(s, u, now, v);
    hide Refresh, Apply, WeakestRival, NpcNear;
  }

  /** A weaker one goes down for four seconds: one death for it, one kill for the attacker, and the others
      as they were. */
  lemma AttackFellsRival(s: State, u: string, now: int, v: string)
    requires Up(s, u, now) && WeakestRival(Refresh(s, u, now), u, v)
    requires forall id :: !NpcNear(Refresh(s, u, now), Refresh(s, u, now).players[u].at, id)
    requires Refresh(s, u, now).players[v].hp <= Refresh(s, u, now).players[u].attack
    ensures var r := Refresh(s, u, now);
      var d := Apply(s, OpAttack(u, now));
      && u in d.players && v in d.players && u != v
      && d == r.(players := r.players[u := d.players[u]][v := d.players[v]], version := r.version + 1)
      && d.players[u] == r.players[u].(kills := r.players[u].kills + 1)
      && d.players[v] == r.players[v].(hp := 0, alive := false, deaths := r.players[v].deaths + 1, respawnAt := Some(now + 4))
  {
    AttackHitsRival(s, u, now, v);
    hide Refresh, Apply, WeakestRival, NpcNear;
  }

  /** With nobody near, or from a player who is down, an attack does nothing. */
  lemma AttackMisses(s: State, u: string, now: int)
    requires u in s.players
    requires Up(s, u, now) ==>
      (forall id :: !NpcNear(Refresh(s, u, now), Refresh(s, u, now).players[u].at, id))
      && (forall v :: !RivalNear(Refresh(s, u, now), u, v))
    ensures Apply(s, OpAttack(u, now)) == Refresh(s, u, now)
  {
    var r := Refresh(s, u, now);
    if r.players[u].alive {
      NobodyNear(r, r.players[u].at);
      forall v ensures !IsPlayerTarget(r, r.players[u].at, ATTACK_RANGE, Some(u), v) {
        RivalIsTarget(r, u, v);
      }
      hide IsPlayerTarget, NpcNear, NpcTarget, RivalNear;
    }
    hide Refresh;
  }

  /** Somebody is hit as soon as somebody is near: each group near has one weakest member. */
  lemma SomeoneIsWeakest(s: State, u: string)
    requires u in s.players
    ensures (exists id :: NpcNear(s, s.players[u].at, id)) ==> exists id :: WeakestNear(s, s.players[u].at, id)
    ensures (exists v :: RivalNear(s, u, v)) ==> exists v :: WeakestRival(s, u, v)
  {
    var c := s.players[u].at;
    NpcTargetDetermined(s, c);
    PlayerTargetDetermined(s, c, ATTACK_RANGE, Some(u));
    if id :| NpcNear(s, c, id) {
      assert NpcInReach(s, c, id);
      NearIsTarget(s, c, NpcTarget(s, c).value);
    }
    if v :| RivalNear(s, u, v) {
      assert PlayerInReach(s, c, ATTACK_RANGE, Some(u), v);
      RivalIsTarget(s, u, PlayerTarget(s, c, ATTACK_RANGE, Some(u)).value);
    }
  }

  // ----- One NPC's turn -----

  /** A live player next to the cell or on it. */
  ghost predicate Bitable(s: State, c: Cell, v: string) {
    v in s.players && s.players[v].alive && Abs(c.x - s.players[v].at.x) + Abs(c.y - s.players[v].at.y) <= 1
  }

  ghost predicate WeakestBitable(s: State, c: Cell, v: string) {
    Bitable(s, c, v)
    && forall j | Bitable(s, c, j) && j != v ::
         s.players[v].hp < s.players[j].hp || (s.players[v].hp == s.players[j].hp && StrLess(v, j))
  }

  lemma BitableIsTarget(s: State, c: Cell, v: string)
    ensures WeakestBitable(s, c, v) <==> IsPlayerTarget(s, c, 1, None, v)
  {
    assert forall j :: Bitable(s, c, j) <==> PlayerInReach(s, c, 1, None, j);
    hide PlayerInReach, Bitable;
  }

  /** The NPC's bite takes its attack off the weakest player next to it, who goes down for four seconds
      if that is all it had. */
  lemma TurnBites(s: State, id: string, now: int, v: string)
    requires id in s.npcs && s.npcs[id].alive && WeakestBitable(s, s.npcs[id].at, v)
    ensures var d := NpcTurn(s, id, now);
      && OnlyPlayer(s, d, v) && d.version == s.version + 1
      && (if s.players[v].hp > s.npcs[id].attack
          then d.players[v] == s.players[v].(hp := d.players[v].hp) && s.players[v].hp - d.players[v].hp == s.npcs[id].attack
          else d.players[v] == s.players[v].(hp := 0, alive := false, deaths := s.players[v].deaths + 1, respawnAt := Some(now + 4)))
  {
    BitableIsTarget(s, s.npcs[id].at, v);
    PlayerTargetDetermined(s, s.npcs[id].at, 1, None);
    hide IsPlayerTarget, PlayerTarget, WeakestBitable;
  }

  predicate Beside(a: Cell, b: Cell) {
    Abs(a.x - b.x) + Abs(a.y - b.y) == 1
  }

  lemma {:induction false} WanderSteps(s: State, id: string, turn: nat, tries: nat)
    requires id in s.npcs && tries <= 4
    ensures var d := Wander(s, id, turn, tries);
      || (d == s && forall k: nat | turn <= k < turn + tries :: !Walkable(s, Heading(s.npcs[id].at, k), ""))
      || (exists c :: Beside(s.npcs[id].at, c) && Walkable(s, c, "")
            && d == s.(npcs := s.npcs[id := s.npcs[id].(at := c)], version := s.version + 1))
    decreases tries
  {
    hide Walkable;
    if tries > 0 {
      var c := Heading(s.npcs[id].at, turn);
      assert Beside(s.npcs[id].at, c);
      if !Walkable(s, c, "") {
        WanderSteps(s, id, turn + 1, tries - 1);
      }
    }
  }

  /** Four headings in a row point to all four neighbours. */
  lemma HeadingsCover(a: Cell, turn: nat, c: Cell)
    requires Beside(a, c)
    ensures exists k: nat :: turn <= k < turn + 4 && Heading(a, k) == c
  {
    var j: nat := if c == Cell(a.x, a.y - 1) then 0 else if c == Cell(a.x, a.y + 1) then 1
                  else if c == Cell(a.x - 1, a.y) then 2 else 3;
    var k: nat := turn + (j + 4 - turn % 4) % 4;
    assert k % 4 == j;
    assert Heading(a, k) == c;
  }

  /** With no player next to it, an NPC steps to a walkable neighbour, and stays only if it has none. */
  lemma TurnStrolls(s: State, id: string, now: int)
    requires id in s.npcs && s.npcs[id].alive && forall v :: !Bitable(s, s.npcs[id].at, v)
    ensures var d := NpcTurn(s, id, now);
      if exists c :: Beside(s.npcs[id].at, c) && Walkable(s, c, "")
      then exists c :: Beside(s.npcs[id].at, c) && Walkable(s, c, "")
             && d == s.(npcs := s.npcs[id := s.npcs[id].(at := c)], version := s.version + 1, drawn := s.drawn + 1)
      else d == s.(drawn := s.drawn + 1)
  {
    var a := s.npcs[id].at;
    forall v ensures !IsPlayerTarget(s, a, 1, None, v) {
      BitableIsTarget(s, a, v);
    }
    hide IsPlayerTarget, Bitable, Heading;
    var t := s.(drawn := s.drawn + 1);
    var turn := Draw(s, 4);
    assert NpcTurn(s, id, now) == Wander(t, id, turn, 4);
    WanderSteps(t, id, turn, 4);
    forall c ensures Walkable(t, c, "") <==> Walkable(s, c, "") {}
    hide Walkable, Wander;
    if c :| Beside(a, c) && Walkable(s, c, "") {
      HeadingsCover(a, turn, c);
    }
  }

  // ----- The background step -----

  /** What the turns of the listed NPCs take off player v: the attack of each one that finds v the weakest
      player next to it when its turn comes. */
  ghost function Suffered(s: State, ids: seq<string>, now: int, v: string): int
    decreases |ids|
  {
    if ids == [] then 0
    else
      (if ids[0] in s.npcs && s.npcs[ids[0]].alive && WeakestBitable(s, s.npcs[ids[0]].at, v) then s.npcs[ids[0]].attack else 0)
      + Suffered(NpcTurn(s, ids[0], now), ids[1..], now, v)
  }

  /** A turn leaves every player alone whom the NPC does not bite. */
  lemma TurnSpares(s: State, id: string, now: int, v: string)
    requires v in s.players && !(id in s.npcs && s.npcs[id].alive && WeakestBitable(s, s.npcs[id].at, v))
    ensures v in NpcTurn(s, id, now).players && NpcTurn(s, id, now).players[v] == s.players[v]
  {
    if id in s.npcs && s.npcs[id].alive {
      if w :| WeakestBitable(s, s.npcs[id].at, w) {
        hide WeakestBitable;
        TurnBites(s, id, now, w);
        hide NpcTurn;
      } else {
        if w :| Bitable(s, s.npcs[id].at, w) {
          BiteExists(s, s.npcs[id].at, w);
        }
        hide WeakestBitable;
        TurnStrolls(s, id, now);
        hide NpcTurn;
      }
    }
  }

  lemma BiteExists(s: State, c: Cell, w: string)
    requires Bitable(s, c, w)
    ensures exists v :: WeakestBitable(s, c, v)
  {
    PlayerTargetDetermined(s, c, 1, None);
    assert PlayerInReach(s, c, 1, None, w);
    BitableIsTarget(s, c, PlayerTarget(s, c, 1, None).value);
  }

  /** What becomes of player q who suffers so much. */
  ghost predicate Survives(q: Player, after: Player, suffered: int, now: int) {
    if after.alive then after == q.(hp := q.hp - suffered)
    else suffered >= q.hp && after == q.(hp := 0, alive := false, deaths := q.deaths + 1, respawnAt := Some(now + 4))
  }

  lemma {:induction false} DownStaysDown(s: State, ids: seq<string>, now: int, v: string)
    requires v in s.players && !s.players[v].alive
    ensures var d := NpcTurns(s, ids, now); v in d.players && d.players[v] == s.players[v] && Suffered(s, ids, now, v) == 0
    decreases |ids|
  {
    hide NpcTurn, WeakestBitable;
    if ids != [] {
      assert forall c :: !WeakestBitable(s, c, v) by {
        forall c ensures !WeakestBitable(s, c, v) { DownIsSafe(s, c, v); }
      }
      TurnSpares(s, ids[0], now, v);
      DownStaysDown(NpcTurn(s, ids[0], now), ids[1..], now, v);
    }
  }

  lemma DownIsSafe(s: State, c: Cell, v: string)
    requires v in s.players && !s.players[v].alive
    ensures !WeakestBitable(s, c, v)
  {
  }

  lemma {:induction false} TurnsHurt(s: State, ids: seq<string>, now: int, v: string)
    requires v in s.players && s.players[v].alive
    ensures var d := NpcTurns(s, ids, now);
      v in d.players && Survives(s.players[v], d.players[v], Suffered(s, ids, now, v), now)
    decreases |ids|
  {
    hide NpcTurn, WeakestBitable;
    if ids != [] {
      var id := ids[0];
      var t := NpcTurn(s, id, now);
      if id in s.npcs && s.npcs[id].alive && WeakestBitable(s, s.npcs[id].at, v) {
        TurnBites(s, id, now, v);
        if t.players[v].alive {
          TurnsHurt(t, ids[1..], now, v);
        } else {
          DownStaysDown(t, ids[1..], now, v);
        }
      } else {
        TurnSpares(s, id, now, v);
        TurnsHurt(t, ids[1..], now, v);
      }
    }
  }

  /** The world in which the NPCs take their turns: revivals are settled, and NPCs and treasure filled up. */
  ghost function Readied(s: State, order: seq<string>, now: int): State {
    MaybeTreasure(RefillNpcs(RefreshAll(s, order, now)))
  }

  /** A background step costs a live player exactly the attacks of the NPCs that bite it; whoever is down
      after the revivals stays as it is. */
  lemma BackgroundHurts(s: State, order: seq<string>, now: int, v: string)
    requires v in s.players
    ensures var r := RefreshAll(s, order, now);
      var ready := Readied(s, order, now);
      var d := Apply(s, OpBackground(order, now));
      && ready.players == r.players && v in d.players
      && if r.players[v].alive then Survives(r.players[v], d.players[v], Suffered(ready, SortedNames(ready.npcs.Keys), now, v), now)
         else d.players[v] == r.players[v]
  {
    hide RefreshAll, RefillNpcs, NpcTurns, Suffered, Survives, SortedNames;
    var r := RefreshAll(s, order, now);
    var ready := Readied(s, order, now);
    RefillFills(r);
    ChestKeepsPlayers(RefillNpcs(r));
    hide MaybeTreasure;
    if r.players[v].alive {
      TurnsHurt(ready, SortedNames(ready.npcs.Keys), now, v);
    } else {
      DownStaysDown(ready, SortedNames(ready.npcs.Keys), now, v);
    }
  }

  lemma ChestKeepsPlayers(s: State)
    ensures MaybeTreasure(s).players == s.players && MaybeTreasure(s).npcs == s.npcs
  {
    hide BestSpawn, TreasureOn;
  }

  /** A spawned NPC: full of life, on a cell that was free. */
  ghost predicate Newborn(n: NPC) {
    n.alive && 70 <= n.hp <= 99 && n.maxHP == 90 && n.attack == 18 && n.species < 6
  }

  lemma SpawnBrings(s: State)
    requires exists c :: Walkable(s, c, "")
    ensures var d := SpawnNpc(s);
      var id := NpcId(s.cfg.id, s.nextNPC);
      && id in d.npcs && Newborn(d.npcs[id]) && Walkable(s, d.npcs[id].at, "")
      && d == s.(npcs := s.npcs[id := d.npcs[id]], nextNPC := s.nextNPC + 1, version := s.version + 1, drawn := s.drawn + 2)
  {
    SpawnRank(s, "", true);
    hide BestSpawn, Walkable;
  }

  /** The refill leaves five NPCs or more, unless no cell is walkable any more; NPCs it does not leave as
      they were are newborn, and nobody else is touched. */
  lemma {:induction false} RefillFills(s: State)
    ensures var d := RefillNpcs(s);
      && (|d.npcs| >= 5 || forall c :: !Walkable(d, c, ""))
      && (|s.npcs| >= 5 ==> d == s)
      && (forall id | id in d.npcs :: Newborn(d.npcs[id]) || (id in s.npcs && d.npcs[id] == s.npcs[id]))
      && s.npcs.Keys <= d.npcs.Keys && d.players == s.players && d.treasures == s.treasures
    decreases MIN_NPCS - |s.npcs|, |NpcIdsToCome(s)|
  {
    hide Walkable, NpcIdsToCome, Newborn, BestSpawn, SpawnNpc;
    if |s.npcs| < MIN_NPCS {
      if WalkableCells(s, "") == {} {
        forall c ensures !Walkable(s, c, "") { WalkableListed(s, c, ""); }
      } else {
        var c :| c in WalkableCells(s, "");
        WalkableListed(s, c, "");
        SpawnProgress(s);
        SpawnBrings(s);
        RefillFills(SpawnNpc(s));
      }
    }
  }

  // ----- Where a spawn is preferred -----

  /** How far the cell is from the nearest wall of the map. */
  ghost function Margin(s: State, c: Cell): int {
    Min(Min(c.x, |s.terrain[0]| - 1 - c.x), Min(c.y, |s.terrain| - 1 - c.y))
  }

  ghost function FromMiddle(s: State, c: Cell): int {
    Distance(c, Cell(|s.terrain[0]| / 2, |s.terrain| / 2))
  }

  /** a is at least as good a place to appear as b: no nearer to NPCs, players, treasure, the edge of the map
      and, where that counts, the spawn point, and no farther from the middle. */
  ghost predicate Roomier(s: State, preferNPC: bool, a: Cell, b: Cell) {
    && Nearest(a, LiveNpcCells(s)) >= Nearest(b, LiveNpcCells(s))
    && Nearest(a, LivePlayerCells(s)) >= Nearest(b, LivePlayerCells(s))
    && Nearest(a, TreasureCells(s)) >= Nearest(b, TreasureCells(s))
    && Margin(s, a) >= Margin(s, b) && FromMiddle(s, a) <= FromMiddle(s, b)
    && (preferNPC ==> Distance(a, s.cfg.spawn) >= Distance(b, s.cfg.spawn))
  }

  /** A roomier cell is listed ahead, unless the other is as roomy in every respect. */
  lemma RoomierIsAhead(s: State, preferNPC: bool, a: Cell, b: Cell)
    requires Roomier(s, preferNPC, a, b) && !Roomier(s, preferNPC, b, a)
    ensures Ahead(s, preferNPC, a, b)
  {
    var n, p, m := Nearest(a, LiveNpcCells(s)), Nearest(a, LivePlayerCells(s)), Margin(s, a);
    var n', p', m' := Nearest(b, LiveNpcCells(s)), Nearest(b, LivePlayerCells(s)), Margin(s, b);
    ScoreIs(s, preferNPC, a);
    ScoreIs(s, preferNPC, b);
    hide Nearest, Distance, SpawnScore, Margin, FromMiddle, LiveNpcCells, LivePlayerCells, TreasureCells;
    Heavier(n, p, Nearest(a, TreasureCells(s)), m, FromMiddle(s, a), if preferNPC then Distance(a, s.cfg.spawn) else 0,
            n', p', Nearest(b, TreasureCells(s)), m', FromMiddle(s, b), if preferNPC then Distance(b, s.cfg.spawn) else 0);
  }

  function Weighed(npc: int, player: int, treasure: int, margin: int, middle: int, spawn: int): int {
    npc * 120 + player * 20 + treasure * 15 + margin * 30 - middle * 3 + spawn * 2
  }

  lemma ScoreIs(s: State, preferNPC: bool, c: Cell)
    ensures SpawnScore(s, c, preferNPC) ==
      Weighed(Nearest(c, LiveNpcCells(s)), Nearest(c, LivePlayerCells(s)), Nearest(c, TreasureCells(s)), Margin(s, c),
              FromMiddle(s, c), if preferNPC then Distance(c, s.cfg.spawn) else 0)
  {
    hide Nearest, LiveNpcCells, LivePlayerCells, TreasureCells;
  }

  lemma Heavier(n: int, p: int, t: int, m: int, d: int, w: int, n': int, p': int, t': int, m': int, d': int, w': int)
    requires n >= n' && p >= p' && t >= t' && m >= m' && d <= d' && w >= w'
    requires n > n' || p > p' || t > t' || m > m' || d < d' || w > w'
    ensures Weighed(n, p, t, m, d, w) > Weighed(n', p', t', m', d', w')
  {
  }
}
