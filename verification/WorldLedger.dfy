/** Treasure is neither lost nor made in a world except where the rules say so. */
module WorldLedger {
  import opened Basics
  import opened WorldModel

  ghost function GroundValues(s: State): map<string, int> {
    map id | id in s.treasures :: s.treasures[id].value
  }

  ghost function CarriedValues(s: State): map<string, int> {
    map u | u in s.players :: s.players[u].treasures
  }

  /** All treasure of a world: what lies on the ground and what its players carry. */
  ghost function Wealth(s: State): int {
    Total(GroundValues(s)) + Total(CarriedValues(s))
  }

  /** The next treasure ids are unused, and no two treasures lie on one cell. */
  ghost predicate Ledgered(s: State) {
    && (forall k: nat | k >= s.nextTreasure :: TreasureId(s.cfg.id, k) !in s.treasures)
    && (forall i, j | i in s.treasures && j in s.treasures && s.treasures[i].at == s.treasures[j].at :: i == j)
  }

  // ----- What an operation brings into the world and takes out of it -----

  datatype Flow = Flow(minted: int, brought: int, spent: int, takenOut: int, lost: int)

  function Net(f: Flow): int {
    f.minted + f.brought - f.spent - f.takenOut - f.lost
  }

  /** What a drop on cell c destroys: the treasure whose id it takes, if that is in use. */
  ghost function Overwritten(s: State, c: Cell): int {
    var id := TreasureId(s.cfg.id, s.nextTreasure);
    if InBounds(s.terrain, c) && !TreasureOn(s, c) && id in s.treasures then s.treasures[id].value else 0
  }

  /** The loot of an attack: only a slain NPC leaves some. */
  ghost function Loot(s: State, u: string, now: int): int {
    if u !in s.players then 0
    else
      var r := Refresh(s, u, now);
      var p := r.players[u];
      if !p.alive then 0
      else
        match NpcTarget(r, p.at)
        case None => 0
        case Some(id) =>
          if r.npcs[id].hp <= p.attack && InBounds(r.terrain, r.npcs[id].at) then 2 + Draw(r, 3) else 0
  }

  ghost function LootLost(s: State, u: string, now: int): int {
    if u !in s.players then 0
    else
      var r := Refresh(s, u, now);
      var p := r.players[u];
      if !p.alive then 0
      else
        match NpcTarget(r, p.at)
        case None => 0
        case Some(id) => if r.npcs[id].hp <= p.attack then Overwritten(r, r.npcs[id].at) else 0
  }

  /** The chest a background step may put down. */
  ghost function Chest(s: State): int {
    if |s.treasures| < MAX_TREASURES && Draw(s, 100) < 45 && WalkableCells(s, "") != {}
    then 1 + s.cfg.stream(s.drawn + 2) % 4
    else 0
  }

  ghost function ChestLost(s: State): int {
    if |s.treasures| < MAX_TREASURES && Draw(s, 100) < 45 then SupplyLost(s.(drawn := s.drawn + 1)) else 0
  }

  ghost function SupplyLost(s: State): int {
    if WalkableCells(s, "") != {} then Overwritten(s, BestSpawn(s, "", false).value) else 0
  }

  ghost function Paid(s: State, u: string, item: string, now: int): int {
    if u !in s.players then 0
    else
      var p := Refresh(s, u, now).players[u];
      if !p.alive || Purchase(p, item).None? then 0
      else if item == "potion" then POTION_PRICE else WEAPON_PRICE
  }

  ghost function Carried(s: State, u: string): int {
    if u in s.players then s.players[u].treasures else 0
  }

  ghost function FlowOf(s: State, op: Op): Flow {
    match op
    case OpAdd(p) => Flow(0, p.treasures, 0, Carried(s, p.username), 0)
    case OpRemove(u) => Flow(0, 0, 0, Carried(s, u), 0)
    case OpAttack(u, now) => Flow(Loot(s, u, now), 0, 0, 0, LootLost(s, u, now))
    case OpBuy(u, item, now) => Flow(0, 0, Paid(s, u, item, now), 0, 0)
    case OpReward(u, t, _) => Flow(if u in s.players then t else 0, 0, 0, 0, 0)
    case OpBackground(order, now) =>
      var ready := RefillNpcs(RefreshAll(s, order, now));
      Flow(Chest(ready), 0, 0, 0, ChestLost(ready))
    case _ => Flow(0, 0, 0, 0, 0)
  }

  // ----- Changes of one entry -----

  lemma PlayerChanged(s: State, t: State, u: string, p: Player)
    requires t.players == s.players[u := p] && t.treasures == s.treasures
    ensures Wealth(t) == Wealth(s) - Carried(s, u) + p.treasures
  {
    assert CarriedValues(t) == CarriedValues(s)[u := p.treasures];
    assert GroundValues(t) == GroundValues(s);
    TotalUpdate(CarriedValues(s), u, p.treasures);
  }

  lemma SameMoney(s: State, t: State)
    requires t.players.Keys == s.players.Keys && t.treasures == s.treasures
    requires forall u | u in s.players :: t.players[u].treasures == s.players[u].treasures
    ensures Wealth(t) == Wealth(s)
  {
    assert CarriedValues(t) == CarriedValues(s);
    assert GroundValues(t) == GroundValues(s);
  }

  /** A dropped treasure adds its value to the ground exactly when it joins a treasure lying there,
      or its id is unused, or the treasure it overwrites was worthless. */
  lemma DropBalance(s: State, c: Cell, value: int, kind: string)
    requires InBounds(s.terrain, c)
    ensures Wealth(DropTreasure(s, c, value, kind)) == Wealth(s) + value <==>
      TreasureOn(s, c) || TreasureId(s.cfg.id, s.nextTreasure) !in s.treasures
      || s.treasures[TreasureId(s.cfg.id, s.nextTreasure)].value == 0
  {
    var t := DropTreasure(s, c, value, kind);
    var id := if TreasureOn(s, c) then TreasureAt(s, c) else TreasureId(s.cfg.id, s.nextTreasure);
    assert GroundValues(t) == GroundValues(s)[id := t.treasures[id].value];
    assert CarriedValues(t) == CarriedValues(s);
    TotalUpdate(GroundValues(s), id, t.treasures[id].value);
  }

  /** Every drop adds its value and loses what it overwrites; while ids are fresh that is nothing. */
  lemma DropAccount(s: State, c: Cell, value: int, kind: string)
    ensures Wealth(DropTreasure(s, c, value, kind)) ==
      Wealth(s) + (if InBounds(s.terrain, c) then value else 0) - Overwritten(s, c)
  {
    if InBounds(s.terrain, c) {
      var t := DropTreasure(s, c, value, kind);
      var id := if TreasureOn(s, c) then TreasureAt(s, c) else TreasureId(s.cfg.id, s.nextTreasure);
      assert GroundValues(t) == GroundValues(s)[id := t.treasures[id].value];
      assert CarriedValues(t) == CarriedValues(s);
      TotalUpdate(GroundValues(s), id, t.treasures[id].value);
    }
  }

  lemma NothingOverwritten(s: State, c: Cell)
    requires Ledgered(s)
    ensures Overwritten(s, c) == 0
  {
  }

  lemma DropLedgered(s: State, c: Cell, value: int, kind: string)
    requires Ledgered(s)
    ensures Ledgered(DropTreasure(s, c, value, kind))
  {
    if InBounds(s.terrain, c) {
      var t := DropTreasure(s, c, value, kind);
      if !TreasureOn(s, c) {
        forall k: nat | k >= t.nextTreasure ensures TreasureId(t.cfg.id, k) !in t.treasures {
          if TreasureId(s.cfg.id, k) == TreasureId(s.cfg.id, s.nextTreasure) {
            TreasureIdInjective(s.cfg.id, k, s.nextTreasure);
          }
        }
      }
    }
  }

  ghost predicate SameTreasures(s: State, t: State) {
    t.treasures == s.treasures && t.nextTreasure == s.nextTreasure && t.cfg == s.cfg
  }

  // ----- The balance of each operation -----

  ghost predicate Balanced(s: State, t: State, net: int) {
    (Ledgered(s) ==> Ledgered(t)) && Wealth(t) == Wealth(s) + net
  }

  lemma Unmoved(s: State, t: State)
    requires SameTreasures(s, t) && Wealth(t) == Wealth(s)
    ensures Balanced(s, t, 0)
  {
  }

  lemma RefreshBalance(s: State, u: string, now: int)
    ensures var r := Refresh(s, u, now); SameTreasures(s, r) && Wealth(r) == Wealth(s)
    ensures forall v | v in s.players :: Refresh(s, u, now).players[v].treasures == s.players[v].treasures
  {
    SameMoney(s, Refresh(s, u, now));
  }

  lemma {:induction false} RefreshAllBalance(s: State, order: seq<string>, now: int)
    ensures var r := RefreshAll(s, order, now); SameTreasures(s, r) && Wealth(r) == Wealth(s)
    decreases |order|
  {
    if order != [] {
      RefreshBalance(s, order[0], now);
      RefreshAllBalance(Refresh(s, order[0], now), order[1..], now);
    }
  }

  lemma AddBalance(s: State, p: Profile)
    ensures Balanced(s, AddPlayer(s, p), p.treasures - Carried(s, p.username))
  {
    PlayerChanged(s, AddPlayer(s, p), p.username, Entrant(s, p));
  }

  lemma RemoveBalance(s: State, u: string)
    ensures Balanced(s, RemovePlayer(s, u), -Carried(s, u))
  {
    var t := RemovePlayer(s, u);
    assert CarriedValues(t) == CarriedValues(s) - {u};
    assert GroundValues(t) == GroundValues(s);
    TotalRemove(CarriedValues(s), u);
  }

  lemma PickUpBalance(s: State, u: string, c: Cell)
    requires u in s.players
    ensures Balanced(s, PickUp(s, u, c), 0)
  {
    var t := PickUp(s, u, c);
    if TreasureOn(s, c) {
      var id := TreasureAt(s, c);
      assert GroundValues(t) == GroundValues(s) - {id};
      assert CarriedValues(t) == CarriedValues(s)[u := s.players[u].treasures + s.treasures[id].value];
      TotalRemove(GroundValues(s), id);
      TotalUpdate(CarriedValues(s), u, s.players[u].treasures + s.treasures[id].value);
    }
  }

  lemma MoveBalance(s: State, u: string, dir: string, now: int)
    ensures Balanced(s, Move(s, u, dir, now), 0)
  {
    RefreshBalance(s, u, now);
    var r := Refresh(s, u, now);
    if u in s.players && r.players[u].alive && Walkable(r, Shifted(r.players[u].at, dir), u) {
      var c := Shifted(r.players[u].at, dir);
      var moved := r.(players := r.players[u := r.players[u].(at := c)]);
      SameMoney(r, moved);
      PickUpBalance(moved, u, c);
      SameMoney(PickUp(moved, u, c), Move(s, u, dir, now));
    }
  }

  lemma HealBalance(s: State, u: string, now: int)
    ensures Balanced(s, Heal(s, u, now), 0)
  {
    RefreshBalance(s, u, now);
    SameMoney(Refresh(s, u, now), Heal(s, u, now));
  }

  lemma BuyBalance(s: State, u: string, item: string, now: int)
    ensures Balanced(s, Buy(s, u, item, now), -Paid(s, u, item, now))
  {
    RefreshBalance(s, u, now);
    var r := Refresh(s, u, now);
    if u in s.players && r.players[u].alive && Purchase(r.players[u], item).Some? {
      PlayerChanged(r, Buy(s, u, item, now), u, Purchase(r.players[u], item).value);
    }
  }

  lemma RewardBalance(s: State, u: string, treasures: int, victories: int)
    ensures Balanced(s, Reward(s, u, treasures, victories), if u in s.players then treasures else 0)
  {
    if u in s.players {
      var t := Reward(s, u, treasures, victories);
      PlayerChanged(s, t, u, t.players[u]);
    }
  }

  lemma DropBalanced(s: State, c: Cell, value: int, kind: string)
    ensures Balanced(s, DropTreasure(s, c, value, kind), (if InBounds(s.terrain, c) then value else 0) - Overwritten(s, c))
  {
    hide Ledgered, Wealth, DropTreasure, Overwritten;
    DropAccount(s, c, value, kind);
    if Ledgered(s) { DropLedgered(s, c, value, kind); }
  }

  lemma SameOverwritten(s: State, t: State, c: Cell)
    requires SameTreasures(s, t) && t.terrain == s.terrain
    ensures Overwritten(t, c) == Overwritten(s, c)
  {
    hide TreasureId;
  }

  lemma HitNpcBalance(s: State, u: string, id: string)
    requires u in s.players && id in s.npcs
    ensures Balanced(s, HitNpc(s, u, id),
      if s.npcs[id].hp <= s.players[u].attack
      then (if InBounds(s.terrain, s.npcs[id].at) then 2 + Draw(s, 3) else 0) - Overwritten(s, s.npcs[id].at) else 0)
  {
    hide TreasureId, Ledgered, Wealth, DropTreasure, Overwritten;
    var p, n := s.players[u], s.npcs[id];
    var t := HitNpc(s, u, id);
    if n.hp - p.attack > 0 {
      SameMoney(s, t);
      Unmoved(s, t);
    } else {
      var dead := s.(npcs := s.npcs - {id}, players := s.players[u := p.(kills := p.kills + 1)], drawn := s.drawn + 1);
      SameMoney(s, dead);
      Unmoved(s, dead);
      DropBalanced(dead, n.at, 2 + Draw(s, 3), "loot");
      SameOverwritten(s, dead, n.at);
      SameMoney(DropTreasure(dead, n.at, 2 + Draw(s, 3), "loot"), t);
      Unmoved(DropTreasure(dead, n.at, 2 + Draw(s, 3), "loot"), t);
    }
  }

  lemma AttackBalance(s: State, u: string, now: int)
    ensures Balanced(s, Attack(s, u, now), Loot(s, u, now) - LootLost(s, u, now))
  {
    hide Refresh, HitNpc, Wealth, Weaker, Overwritten;
    RefreshBalance(s, u, now);
    var r := Refresh(s, u, now);
    if u in s.players && r.players[u].alive {
      match NpcTarget(r, r.players[u].at)
      case Some(id) => HitNpcBalance(r, u, id);
      case None =>
        match PlayerTarget(r, r.players[u].at, ATTACK_RANGE, Some(u))
        case Some(v) => SameMoney(r, HitPlayer(r, u, v, now));
        case None =>
    }
  }

  lemma {:induction false} RefillBalance(s: State)
    ensures var r := RefillNpcs(s); SameTreasures(s, r) && Wealth(r) == Wealth(s)
    decreases MIN_NPCS - |s.npcs|, |NpcIdsToCome(s)|
  {
    if |s.npcs| < MIN_NPCS && WalkableCells(s, "") != {} {
      SpawnProgress(s);
      SameMoney(s, SpawnNpc(s));
      RefillBalance(SpawnNpc(s));
    }
  }

  lemma WalkableIn(s: State, c: Cell)
    requires Walkable(s, c, "")
    ensures InBounds(s.terrain, c)
  {
  }

  lemma SpawnTreasureBalance(s: State, kind: string)
    ensures Balanced(s, SpawnTreasure(s, kind),
      (if WalkableCells(s, "") != {} then 1 + s.cfg.stream(s.drawn + 1) % 4 else 0) - SupplyLost(s))
  {
    hide TreasureId, Ledgered, DropTreasure, Overwritten, Wealth;
    if WalkableCells(s, "") != {} {
      var c := BestSpawn(s, "", false).value;
      var e := s.(drawn := s.drawn + 2);
      SameMoney(s, e);
      Unmoved(s, e);
      DropBalanced(e, c, 1 + s.cfg.stream(s.drawn + 1) % 4, kind);
      SameOverwritten(s, e, c);
      WalkableIn(s, c);
    }
  }

  lemma DrawKeepsCells(s: State)
    ensures WalkableCells(s.(drawn := s.drawn + 1), "") == WalkableCells(s, "")
  {
    var d := s.(drawn := s.drawn + 1);
    assert forall c :: Walkable(d, c, "") <==> Walkable(s, c, "");
  }

  lemma ChestBalance(s: State)
    ensures Balanced(s, MaybeTreasure(s), Chest(s) - ChestLost(s))
  {
    hide SpawnTreasure, Ledgered, SupplyLost, Wealth;
    if |s.treasures| < MAX_TREASURES {
      var d := s.(drawn := s.drawn + 1);
      SameMoney(s, d);
      Unmoved(s, d);
      DrawKeepsCells(s);
      SpawnTreasureBalance(d, "chest");
    }
  }

  lemma {:induction false} WanderMoney(s: State, id: string, turn: nat, tries: nat)
    requires id in s.npcs
    ensures var t := Wander(s, id, turn, tries); SameTreasures(s, t) && t.players == s.players
    decreases tries
  {
    if tries > 0 && !Walkable(s, Heading(s.npcs[id].at, turn), "") {
      WanderMoney(s, id, turn + 1, tries - 1);
    }
  }

  lemma NpcTurnBalance(s: State, id: string, now: int)
    ensures var t := NpcTurn(s, id, now); SameTreasures(s, t) && Wealth(t) == Wealth(s)
  {
    if id in s.npcs && s.npcs[id].alive {
      match PlayerTarget(s, s.npcs[id].at, 1, None)
      case Some(v) => SameMoney(s, Bite(s, id, v, now));
      case None =>
        WanderMoney(s.(drawn := s.drawn + 1), id, Draw(s, 4), 4);
        SameMoney(s, NpcTurn(s, id, now));
    }
  }

  lemma {:induction false} NpcTurnsBalance(s: State, ids: seq<string>, now: int)
    ensures var t := NpcTurns(s, ids, now); SameTreasures(s, t) && Wealth(t) == Wealth(s)
    decreases |ids|
  {
    if ids != [] {
      NpcTurnBalance(s, ids[0], now);
      NpcTurnsBalance(NpcTurn(s, ids[0], now), ids[1..], now);
    }
  }

  lemma BackgroundBalance(s: State, order: seq<string>, now: int)
    ensures var ready := RefillNpcs(RefreshAll(s, order, now));
      Balanced(s, Background(s, order, now), Chest(ready) - ChestLost(ready))
  {
    hide RefreshAll, RefillNpcs, MaybeTreasure, NpcTurns, Chest, ChestLost, Wealth, SortedNames;
    var a := RefreshAll(s, order, now);
    RefreshAllBalance(s, order, now);
    RefillBalance(a);
    var b := RefillNpcs(a);
    ChestBalance(b);
    var ready := MaybeTreasure(b);
    NpcTurnsBalance(ready, SortedNames(ready.npcs.Keys), now);
  }

  // ----- Every operation, every run -----

  lemma ApplyBalance(s: State, op: Op)
    ensures Balanced(s, Apply(s, op), Net(FlowOf(s, op)))
  {
    ApplyFlow(s, op);
    hide Ledgered, Wealth, SameTreasures, FlowOf, Net, Balanced, Carried, Loot, LootLost, Paid, Chest, ChestLost, RefillNpcs;
    hide AddPlayer, RemovePlayer, Refresh, Move, Heal, Attack, Buy, Reward, RefreshAll, Background;
    match op
    case OpAdd(p) => AddBalance(s, p);
    case OpRemove(u) => RemoveBalance(s, u);
    case OpProfile(u, now) =>
      RefreshBalance(s, u, now);
      Unmoved(s, Refresh(s, u, now));
    case OpMove(u, dir, now) => MoveBalance(s, u, dir, now);
    case OpHeal(u, now) => HealBalance(s, u, now);
    case OpAttack(u, now) => AttackBalance(s, u, now);
    case OpBuy(u, item, now) => BuyBalance(s, u, item, now);
    case OpReward(u, t, v) => RewardBalance(s, u, t, v);
    case OpSnapshot(order, now) =>
      RefreshAllBalance(s, order, now);
      Unmoved(s, RefreshAll(s, order, now));
    case OpBackground(order, now) => BackgroundBalance(s, order, now);
  }

  ghost function NetOf(s: State, op: Op): int {
    match op
    case OpAdd(p) => p.treasures - Carried(s, p.username)
    case OpRemove(u) => -Carried(s, u)
    case OpAttack(u, now) => Loot(s, u, now) - LootLost(s, u, now)
    case OpBuy(u, item, now) => -Paid(s, u, item, now)
    case OpReward(u, t, _) => if u in s.players then t else 0
    case OpBackground(order, now) =>
      var ready := RefillNpcs(RefreshAll(s, order, now));
      Chest(ready) - ChestLost(ready)
    case _ => 0
  }

  lemma ApplyFlow(s: State, op: Op)
    ensures Net(FlowOf(s, op)) == NetOf(s, op)
  {
    hide Carried, Loot, LootLost, Paid, Chest, ChestLost, RefillNpcs, RefreshAll;
    match op
    case OpAdd(_) =>
    case OpRemove(_) =>
    case OpAttack(_, _) =>
    case OpBuy(_, _, _) =>
    case OpReward(_, _, _) =>
    case OpBackground(_, _) =>
    case _ =>
  }

  ghost function NetOfRun(s: State, ops: seq<Op>): int
    decreases |ops|
  {
    if ops == [] then 0 else Net(FlowOf(s, ops[0])) + NetOfRun(Apply(s, ops[0]), ops[1..])
  }

  /** While ids are fresh no operation loses a treasure. */
  lemma NothingLost(s: State, op: Op)
    requires Ledgered(s)
    ensures FlowOf(s, op).lost == 0
  {
    hide Ledgered, Overwritten, Refresh, RefreshAll, RefillNpcs, Chest, Loot, Paid, BestSpawn;
    match op
    case OpAttack(u, now) =>
      RefreshBalance(s, u, now);
      hide Wealth;
      if u in s.players && Refresh(s, u, now).players[u].alive {
        var r := Refresh(s, u, now);
        SameLedger(s, r);
        if NpcTarget(r, r.players[u].at).Some? {
          NothingOverwritten(r, r.npcs[NpcTarget(r, r.players[u].at).value].at);
        }
      }
    case OpBackground(order, now) =>
      var a := RefreshAll(s, order, now);
      RefreshAllBalance(s, order, now);
      RefillBalance(a);
      hide Wealth;
      var b := RefillNpcs(a);
      var d := b.(drawn := b.drawn + 1);
      SameLedger(s, d);
      if WalkableCells(d, "") != {} {
        NothingOverwritten(d, BestSpawn(d, "", false).value);
      }
    case _ =>
  }

  lemma SameLedger(s: State, t: State)
    requires Ledgered(s) && SameTreasures(s, t)
    ensures Ledgered(t)
  {
  }

  ghost function LostInRun(s: State, ops: seq<Op>): int
    decreases |ops|
  {
    if ops == [] then 0 else FlowOf(s, ops[0]).lost + LostInRun(Apply(s, ops[0]), ops[1..])
  }

  /** Over every run from any state the wealth of the world changes by what was minted and brought in, less
      what was spent, taken out and destroyed; where ids are fresh and treasures lie on distinct cells,
      that stays so, and nothing is destroyed. */
  lemma {:induction false} RunBalance(s: State, ops: seq<Op>)
    ensures Balanced(s, Run(s, ops), NetOfRun(s, ops))
    ensures Ledgered(s) ==> LostInRun(s, ops) == 0
    decreases |ops|
  {
    hide Ledgered, Wealth, Apply, FlowOf;
    if ops != [] {
      if Ledgered(s) { NothingLost(s, ops[0]); }
      ApplyBalance(s, ops[0]);
      RunBalance(Apply(s, ops[0]), ops[1..]);
    }
  }

  lemma {:induction false} BootNpcsLedgered(s: State, n: nat)
    requires Ledgered(s)
    ensures Ledgered(BootNpcs(s, n))
    decreases n
  {
    if n > 0 && |s.npcs| < MIN_NPCS {
      BootNpcsLedgered(SpawnNpc(s), n - 1);
    }
  }

  lemma {:induction false} BootTreasuresLedgered(s: State, n: nat)
    requires Ledgered(s)
    ensures Ledgered(BootTreasures(s, n))
    decreases n
  {
    hide SpawnTreasure, Ledgered, SupplyLost;
    if n > 0 && |s.treasures| < MAX_TREASURES / 2 {
      SpawnTreasureBalance(s, "supply");
      BootTreasuresLedgered(SpawnTreasure(s, "supply"), n - 1);
    }
  }

  lemma BuiltLedgered(s: State, cfg: Config)
    requires Built(s, cfg)
    ensures Ledgered(s)
  {
    var n: nat, m: nat :| BuiltIn(s, cfg, n, m);
    BootNpcsLedgered(EmptyWorld(cfg), n);
    BootTreasuresLedgered(BootNpcs(EmptyWorld(cfg), n), m);
  }

  /** The player gets a weapon for its treasure. */
  ghost predicate BuysWeapon(s: State, op: Op, u: string) {
    op.OpBuy? && op.u == u && op.item == "weapon" && Paid(s, u, op.item, op.now) > 0
  }

  /** A player's attack grows by exactly WEAPON_BOOST when it buys a weapon and is otherwise kept. */
  lemma AttackStrength(s: State, op: Op, u: string)
    requires u in s.players && u in Apply(s, op).players && !(op.OpAdd? && op.profile.username == u)
    ensures Apply(s, op).players[u].attack == s.players[u].attack +
      if BuysWeapon(s, op, u) then WEAPON_BOOST else 0
  {
    hide RefreshAll, Background, Attack, WorldModel.Move, Heal, Buy, Refresh, Paid, SafeCell, SafeCellDrawn;
    match op
    case OpSnapshot(order, now) => RefreshAllStrength(s, order, now, u);
    case OpBackground(order, now) => BackgroundStrength(s, order, now, u);
    case OpAttack(a, now) => AttackKeepsStrength(s, a, now, u);
    case OpMove(a, dir, now) => MoveKeepsStrength(s, a, dir, now, u);
    case OpProfile(v, now) => RefreshStrength(s, v, now, u);
    case OpHeal(v, now) => HealStrength(s, v, now, u);
    case OpBuy(v, item, now) => BuyStrength(s, v, item, now, u);
    case _ =>
  }

  lemma RefreshStrength(s: State, v: string, now: int, u: string)
    requires u in s.players
    ensures Refresh(s, v, now).players[u].attack == s.players[u].attack
  {
    hide SafeCell, SafeCellDrawn;
  }

  lemma HealStrength(s: State, v: string, now: int, u: string)
    requires u in s.players
    ensures u in Heal(s, v, now).players && Heal(s, v, now).players[u].attack == s.players[u].attack
  {
    hide Refresh;
    RefreshStrength(s, v, now, u);
  }

  lemma BuyStrength(s: State, v: string, item: string, now: int, u: string)
    requires u in s.players
    ensures u in Buy(s, v, item, now).players
    ensures Buy(s, v, item, now).players[u].attack ==
      s.players[u].attack + if v == u && item == "weapon" && Paid(s, u, item, now) > 0 then WEAPON_BOOST else 0
  {
    hide Refresh;
    RefreshStrength(s, v, now, u);
  }

  lemma MoveKeepsStrength(s: State, a: string, dir: string, now: int, u: string)
    requires u in s.players
    ensures u in Move(s, a, dir, now).players
    ensures Move(s, a, dir, now).players[u].attack == s.players[u].attack
  {
    hide SafeCell, SafeCellDrawn, Walkable, TreasureOn;
  }

  lemma HitNpcKeepsStrength(s: State, a: string, id: string, u: string)
    requires a in s.players && id in s.npcs && u in s.players
    ensures u in HitNpc(s, a, id).players
    ensures HitNpc(s, a, id).players[u].attack == s.players[u].attack
  {
  }

  lemma AttackKeepsStrength(s: State, a: string, now: int, u: string)
    requires u in s.players
    ensures u in Attack(s, a, now).players
    ensures Attack(s, a, now).players[u].attack == s.players[u].attack
  {
    hide SafeCell, SafeCellDrawn, Weaker, HitNpc, Distance;
    var r := Refresh(s, a, now);
    if a in s.players && r.players[a].alive {
      match NpcTarget(r, r.players[a].at)
      case Some(id) => HitNpcKeepsStrength(r, a, id, u);
      case None =>
        match PlayerTarget(r, r.players[a].at, ATTACK_RANGE, Some(a))
        case Some(v) => assert HitPlayer(r, a, v, now).players[u].attack == r.players[u].attack;
        case None =>
    }
  }

  lemma {:induction false} RefreshAllStrength(s: State, order: seq<string>, now: int, u: string)
    requires u in s.players
    ensures RefreshAll(s, order, now).players[u].attack == s.players[u].attack
    decreases |order|
  {
    if order != [] {
      RefreshAllStrength(Refresh(s, order[0], now), order[1..], now, u);
    }
  }

  lemma {:induction false} RefillKeepsPlayers(s: State)
    ensures RefillNpcs(s).players == s.players
    decreases MIN_NPCS - |s.npcs|, |NpcIdsToCome(s)|
  {
    if |s.npcs| < MIN_NPCS && WalkableCells(s, "") != {} {
      SpawnProgress(s);
      RefillKeepsPlayers(SpawnNpc(s));
    }
  }

  lemma {:induction false} NpcTurnsStrength(s: State, ids: seq<string>, now: int, u: string)
    requires u in s.players
    ensures u in NpcTurns(s, ids, now).players
    ensures NpcTurns(s, ids, now).players[u].attack == s.players[u].attack
    decreases |ids|
  {
    if ids != [] {
      var id := ids[0];
      if id in s.npcs {
        WanderMoney(s.(drawn := s.drawn + 1), id, Draw(s, 4), 4);
      }
      NpcTurnsStrength(NpcTurn(s, id, now), ids[1..], now, u);
    }
  }

  lemma ChestKeepsPlayers(s: State)
    ensures MaybeTreasure(s).players == s.players
  {
  }

  lemma BackgroundStrength(s: State, order: seq<string>, now: int, u: string)
    requires u in s.players
    ensures u in Background(s, order, now).players
    ensures Background(s, order, now).players[u].attack == s.players[u].attack
  {
    hide NpcTurns, RefillNpcs, RefreshAll, MaybeTreasure;
    var a := RefreshAll(s, order, now);
    RefreshAllStrength(s, order, now, u);
    RefillKeepsPlayers(a);
    var ready := MaybeTreasure(RefillNpcs(a));
    ChestKeepsPlayers(RefillNpcs(a));
    NpcTurnsStrength(ready, SortedNames(ready.npcs.Keys), now, u);
  }

  ghost function WeaponsBought(s: State, ops: seq<Op>, u: string): nat
    decreases |ops|
  {
    if ops == [] then 0
    else (if BuysWeapon(s, ops[0], u) then 1 else 0) + WeaponsBought(Apply(s, ops[0]), ops[1..], u)
  }

  predicate ComesOrGoes(op: Op, u: string) {
    (op.OpAdd? && op.profile.username == u) || (op.OpRemove? && op.u == u)
  }

  lemma StaysIn(s: State, op: Op, u: string)
    requires u in s.players && !ComesOrGoes(op, u)
    ensures u in Apply(s, op).players
  {
    hide RefreshAll, Background, Attack, WorldModel.Move, Heal, Buy, Refresh, SafeCell, SafeCellDrawn;
    match op
    case OpBackground(order, now) => BackgroundStrength(s, order, now, u);
    case OpAttack(a, now) => AttackKeepsStrength(s, a, now, u);
    case OpMove(a, dir, now) => MoveKeepsStrength(s, a, dir, now, u);
    case OpHeal(v, now) => HealStrength(s, v, now, u);
    case OpBuy(v, item, now) => BuyStrength(s, v, item, now, u);
    case _ =>
  }

  /** Over every run in which a player neither leaves nor comes in anew, its attack is what it was and 6
      for each weapon it bought: no fight, death, revival or background step changes it. */
  lemma {:induction false} RunStrength(s: State, ops: seq<Op>, u: string)
    requires u in s.players && forall i | 0 <= i < |ops| :: !ComesOrGoes(ops[i], u)
    ensures u in Run(s, ops).players
    ensures Run(s, ops).players[u].attack == s.players[u].attack + WEAPON_BOOST * WeaponsBought(s, ops, u)
    decreases |ops|
  {
    hide Apply, BuysWeapon;
    if ops != [] {
      StaysIn(s, ops[0], u);
      AttackStrength(s, ops[0], u);
      RunStrength(Apply(s, ops[0]), ops[1..], u);
    }
  }
}
