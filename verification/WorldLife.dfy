/** How players and a world's bookkeeping evolve over operations and runs. */
module WorldLife {
  import opened Basics
  import opened WorldModel
  import opened WorldCheckpoint

  /** On the ground with no revival pending. */
  predicate Down(p: Player) {
    !p.alive && p.respawnAt.None?
  }

  /** Positive maximum and strength, nothing negative; who is alive has health and no revival pending. */
  predicate Robust(p: Player) {
    && p.maxHP > 0 && p.attack > 0 && p.potions >= 0 && p.hp >= 0
    && (p.alive ==> p.hp > 0 && p.respawnAt.None?)
  }

  /** What any operation other than bringing the player in keeps of a player. */
  predicate Evolves(p: Player, q: Player) {
    (Down(p) ==> Down(q)) && (Robust(p) ==> Robust(q)) && q.maxHP == p.maxHP
  }

  ghost predicate AllEvolve(s: State, t: State) {
    forall v | v in s.players && v in t.players :: Evolves(s.players[v], t.players[v])
  }

  /** The map stays, the version never goes back, and the named players are there. */
  ghost predicate Steady(s: State, t: State, names: set<string>) {
    t.cfg == s.cfg && t.terrain == s.terrain && t.version >= s.version && t.players.Keys == names && AllEvolve(s, t)
  }

  lemma SteadyChain(s: State, t: State, r: State)
    requires Steady(s, t, s.players.Keys) && Steady(t, r, s.players.Keys)
    ensures Steady(s, r, s.players.Keys)
  {
  }

  lemma RefreshSteady(s: State, u: string, now: int)
    ensures Steady(s, Refresh(s, u, now), s.players.Keys)
  {
    hide SafeCell, SafeCellDrawn;
  }

  lemma {:induction false} RefreshAllSteady(s: State, order: seq<string>, now: int)
    ensures Steady(s, RefreshAll(s, order, now), s.players.Keys)
    decreases |order|
  {
    hide Refresh, Evolves;
    if order == [] {
      Idle(s, s);
    } else {
      RefreshSteady(s, order[0], now);
      RefreshAllSteady(Refresh(s, order[0], now), order[1..], now);
      SteadyChain(s, Refresh(s, order[0], now), RefreshAll(s, order, now));
    }
  }

  lemma Idle(s: State, t: State)
    requires t.cfg == s.cfg && t.terrain == s.terrain && t.version >= s.version && t.players == s.players
    ensures Steady(s, t, s.players.Keys)
  {
  }

  lemma MoveSteady(s: State, u: string, dir: string, now: int)
    ensures Steady(s, Move(s, u, dir, now), s.players.Keys)
  {
    hide Refresh, Shifted, Walkable;
    RefreshSteady(s, u, now);
    if u in s.players {
      SteadyChain(s, Refresh(s, u, now), Move(s, u, dir, now));
    }
  }

  lemma HealSteady(s: State, u: string, now: int)
    ensures Steady(s, Heal(s, u, now), s.players.Keys)
  {
    hide Refresh;
    RefreshSteady(s, u, now);
    if u in s.players {
      SteadyChain(s, Refresh(s, u, now), Heal(s, u, now));
    }
  }

  lemma BuySteady(s: State, u: string, item: string, now: int)
    ensures Steady(s, Buy(s, u, item, now), s.players.Keys)
  {
    hide Refresh;
    RefreshSteady(s, u, now);
    if u in s.players {
      SteadyChain(s, Refresh(s, u, now), Buy(s, u, item, now));
    }
  }

  lemma DropIdle(s: State, c: Cell, value: int, kind: string)
    ensures Steady(s, DropTreasure(s, c, value, kind), s.players.Keys)
    ensures DropTreasure(s, c, value, kind).players == s.players
  {
    hide TreasureId;
  }

  lemma HitNpcSteady(s: State, u: string, id: string)
    requires u in s.players && id in s.npcs
    ensures Steady(s, HitNpc(s, u, id), s.players.Keys)
  {
    hide DropTreasure;
    var p, n := s.players[u], s.npcs[id];
    var dead := s.(npcs := s.npcs - {id}, players := s.players[u := p.(kills := p.kills + 1)], drawn := s.drawn + 1);
    DropIdle(dead, n.at, 2 + Draw(s, 3), "loot");
  }

  lemma HitPlayerSteady(s: State, u: string, v: string, now: int)
    requires u in s.players && v in s.players && u != v && s.players[v].alive
    ensures Steady(s, HitPlayer(s, u, v, now), s.players.Keys)
  {
  }

  lemma AttackSteady(s: State, u: string, now: int)
    ensures Steady(s, Attack(s, u, now), s.players.Keys)
  {
    hide Refresh, HitNpc, HitPlayer, Steady;
    RefreshSteady(s, u, now);
    Idle(s, s);
    var r := Refresh(s, u, now);
    if u in s.players && r.players[u].alive {
      match NpcTarget(r, r.players[u].at)
      case Some(id) =>
        HitNpcSteady(r, u, id);
        SteadyChain(s, r, HitNpc(r, u, id));
      case None =>
        match PlayerTarget(r, r.players[u].at, ATTACK_RANGE, Some(u))
        case Some(v) =>
          HitPlayerSteady(r, u, v, now);
          SteadyChain(s, r, HitPlayer(r, u, v, now));
        case None =>
    }
  }

  lemma {:induction false} RefillIdle(s: State)
    ensures var t := RefillNpcs(s);
      t.cfg == s.cfg && t.terrain == s.terrain && t.version >= s.version && t.players == s.players
    decreases MIN_NPCS - |s.npcs|, |NpcIdsToCome(s)|
  {
    hide NpcId;
    if |s.npcs| < MIN_NPCS && WalkableCells(s, "") != {} {
      SpawnProgress(s);
      RefillIdle(SpawnNpc(s));
    }
  }

  lemma SpawnTreasureIdle(s: State, kind: string)
    ensures Steady(s, SpawnTreasure(s, kind), s.players.Keys)
  {
    hide DropTreasure;
    if WalkableCells(s, "") != {} {
      var d := s.(drawn := s.drawn + 2);
      DropIdle(d, BestSpawn(s, "", false).value, 1 + s.cfg.stream(s.drawn + 1) % 4, kind);
    }
  }

  lemma ChestIdle(s: State)
    ensures Steady(s, MaybeTreasure(s), s.players.Keys)
  {
    hide SpawnTreasure;
    SpawnTreasureIdle(s.(drawn := s.drawn + 1), "chest");
  }

  lemma {:induction false} WanderIdle(s: State, id: string, turn: nat, tries: nat)
    requires id in s.npcs
    ensures Steady(s, Wander(s, id, turn, tries), s.players.Keys)
    decreases tries
  {
    if tries > 0 && !Walkable(s, Heading(s.npcs[id].at, turn), "") {
      WanderIdle(s, id, turn + 1, tries - 1);
    }
  }

  lemma NpcTurnSteady(s: State, id: string, now: int)
    ensures Steady(s, NpcTurn(s, id, now), s.players.Keys)
  {
    hide Wander;
    if id in s.npcs && s.npcs[id].alive {
      WanderIdle(s.(drawn := s.drawn + 1), id, Draw(s, 4), 4);
    }
  }

  lemma {:induction false} NpcTurnsSteady(s: State, ids: seq<string>, now: int)
    ensures Steady(s, NpcTurns(s, ids, now), s.players.Keys)
    decreases |ids|
  {
    hide NpcTurn, Evolves;
    if ids == [] {
      Idle(s, s);
    } else {
      NpcTurnSteady(s, ids[0], now);
      NpcTurnsSteady(NpcTurn(s, ids[0], now), ids[1..], now);
      SteadyChain(s, NpcTurn(s, ids[0], now), NpcTurns(s, ids, now));
    }
  }

  lemma BackgroundSteady(s: State, order: seq<string>, now: int)
    ensures Steady(s, Background(s, order, now), s.players.Keys)
  {
    hide RefreshAll, RefillNpcs, MaybeTreasure, NpcTurns, Evolves;
    var a := RefreshAll(s, order, now);
    RefreshAllSteady(s, order, now);
    RefillIdle(a);
    var b := RefillNpcs(a);
    Idle(a, b);
    SteadyChain(s, a, b);
    ChestIdle(b);
    var ready := MaybeTreasure(b);
    SteadyChain(s, b, ready);
    NpcTurnsSteady(ready, SortedNames(ready.npcs.Keys), now);
    SteadyChain(s, ready, Background(s, order, now));
  }

  ghost function NamesAfter(s: State, op: Op): set<string> {
    match op
    case OpAdd(p) => s.players.Keys + {p.username}
    case OpRemove(u) => s.players.Keys - {u}
    case _ => s.players.Keys
  }

  lemma ApplySteady(s: State, op: Op)
    requires !op.OpAdd?
    ensures Steady(s, Apply(s, op), NamesAfter(s, op))
  {
    hide Refresh, Move, Heal, Attack, Buy, RefreshAll, Background, Steady;
    match op
    case OpRemove(u) => RemoveSteady(s, u);
    case OpProfile(u, now) => RefreshSteady(s, u, now);
    case OpMove(u, dir, now) => MoveSteady(s, u, dir, now);
    case OpHeal(u, now) => HealSteady(s, u, now);
    case OpAttack(u, now) => AttackSteady(s, u, now);
    case OpBuy(u, item, now) => BuySteady(s, u, item, now);
    case OpReward(u, t, v) => RewardSteady(s, u, t, v);
    case OpSnapshot(order, now) => RefreshAllSteady(s, order, now);
    case OpBackground(order, now) => BackgroundSteady(s, order, now);
  }

  lemma RemoveSteady(s: State, u: string)
    ensures Steady(s, RemovePlayer(s, u), s.players.Keys - {u})
  {
  }

  lemma RewardSteady(s: State, u: string, treasures: int, victories: int)
    ensures Steady(s, Reward(s, u, treasures, victories), s.players.Keys)
  {
  }

  lemma AddSteady(s: State, p: Profile)
    ensures var t := AddPlayer(s, p);
      t.cfg == s.cfg && t.terrain == s.terrain && t.version == s.version + 1
      && t.players.Keys == s.players.Keys + {p.username}
      && forall v | v in s.players && v != p.username :: t.players[v] == s.players[v]
  {
  }

  // ----- Who is down stays down -----

  /** A profile saved of a player on the ground. */
  predicate SavedDown(p: Profile) {
    !p.alive && p.hp >= 0
  }

  /** No operation ever revives a player that is down with no revival pending: not time passing, not
      leaving, and not coming back with the profile saved when leaving. */
  lemma DownStep(s: State, op: Op, u: string)
    requires u in s.players ==> Down(s.players[u])
    requires op.OpAdd? && op.profile.username == u ==> SavedDown(op.profile)
    ensures u in Apply(s, op).players ==> Down(Apply(s, op).players[u])
  {
    hide Refresh, Move, Heal, Attack, Buy, RefreshAll, Background;
    if op.OpAdd? {
      AddSteady(s, op.profile);
    } else {
      ApplySteady(s, op);
    }
  }

  lemma {:induction false} DownForever(s: State, ops: seq<Op>, u: string)
    requires u in s.players ==> Down(s.players[u])
    requires forall i | 0 <= i < |ops| && ops[i].OpAdd? && ops[i].profile.username == u :: SavedDown(ops[i].profile)
    ensures u in Run(s, ops).players ==> Down(Run(s, ops).players[u])
    decreases |ops|
  {
    hide Apply;
    if ops != [] {
      DownStep(s, ops[0], u);
      DownForever(Apply(s, ops[0]), ops[1..], u);
    }
  }

  /** A live player is revived after being knocked down exactly while it neither leaves nor is restored:
      coming back from a profile or a checkpoint, a player on the ground is down for good. */
  lemma ComingBackDown(s: State, t: State, u: string, drawn: nat)
    requires u in s.players && s.players[u].hp >= 0
    ensures Down(Entrant(t, ProfileOf(s, u))) <==> !s.players[u].alive
    ensures Down(Normalise(s, drawn).players[u]) <==> !s.players[u].alive
    ensures forall now | Due(s, u, now) :: Refresh(s, u, now).players[u].alive
  {
  }

  // ----- A built world has a positive version -----

  lemma SpawnCount(s: State)
    ensures |SpawnNpc(s).npcs| <= |s.npcs| + 1
  {
    hide NpcId, BestSpawn;
    var t := SpawnNpc(s);
    assert t.npcs == s.npcs || t.npcs.Keys == s.npcs.Keys + {NpcId(s.cfg.id, s.nextNPC)};
    assert |t.npcs.Keys| == |t.npcs| && |s.npcs.Keys| == |s.npcs|;
  }

  lemma {:induction false} BootNpcsVersion(s: State, n: nat)
    requires s.version >= |s.npcs|
    ensures var t := BootNpcs(s, n);
      t.version >= |t.npcs| && |t.npcs| <= Max(|s.npcs|, MIN_NPCS)
      && t.cfg == s.cfg && t.terrain == s.terrain && t.players == s.players
    decreases n
  {
    hide NpcId;
    if n > 0 && |s.npcs| < MIN_NPCS {
      var t := SpawnNpc(s);
      if WalkableCells(s, "") != {} {
        SpawnCount(s);
      }
      hide SpawnNpc, WalkableCells;
      BootNpcsVersion(t, n - 1);
    }
  }

  lemma {:induction false} BootTreasuresIdle(s: State, n: nat)
    ensures var t := BootTreasures(s, n);
      t.version >= s.version && t.cfg == s.cfg && t.terrain == s.terrain && t.players == s.players && t.npcs == s.npcs
    decreases n
  {
    hide TreasureId;
    if n > 0 && |s.treasures| < MAX_TREASURES / 2 {
      BootTreasuresIdle(SpawnTreasure(s, "supply"), n - 1);
    }
  }

  lemma BuiltShape(s: State, cfg: Config)
    requires Built(s, cfg)
    ensures s.version >= MIN_NPCS && |s.npcs| == MIN_NPCS
    ensures s.cfg == cfg && s.terrain == cfg.layout && s.players == map[]
  {
    hide BootNpcs, BootTreasures;
    var n: nat, m: nat :| BuiltIn(s, cfg, n, m);
    BootNpcsVersion(EmptyWorld(cfg), n);
    BootTreasuresIdle(BootNpcs(EmptyWorld(cfg), n), m);
  }
}
