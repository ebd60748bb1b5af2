/** What a failover can start from, the stored checkpoints and the snapshots on the nodes: only the
    checkpoint loop, failures and recoveries change them, and each is kept under the name of its map. */
module ClusterCopies {
  import opened Basics
  import opened WorldModel
  import opened WorldCheckpoint
  import opened WorldLife
  import opened ClusterModel
  import opened ClusterRouting

  /** The cluster without its worlds, players' accounts, sessions and boss. */
  ghost function Backing(c: Cluster): Cluster {
    c.(store := c.store.(users := map[]), nodes := map n | n in c.nodes :: c.nodes[n].(maps := map[]),
       sessions := map[], boss := BossModel.NewBoss())
  }

  // ----- What clients do -----

  lemma SetWorldBacking(c: Cluster, n: string, m: string, s: State)
    requires n in c.nodes
    ensures Backing(SetWorld(c, n, m, s)) == Backing(c)
  {
  }

  lemma SavedBacking(c: Cluster, p: Profile)
    ensures Backing(Saved(c, p)) == Backing(c)
  {
  }

  lemma SeatBacking(c: Cluster, sessions: map<string, Session>)
    ensures Backing(c.(sessions := sessions)) == Backing(c)
  {
  }

  lemma PersistBacking(c: Cluster, u: string, now: int)
    ensures Backing(Persist(c, u, now)) == Backing(c)
  {
    hide Backing, Refresh, Saved, SetWorld;
    if Playing(c, u) {
      var ses := c.sessions[u];
      var s := Refresh(WorldOn(c, ses.nodeId, ses.mapId), u, now);
      SetWorldBacking(c, ses.nodeId, ses.mapId, s);
      SavedBacking(SetWorld(c, ses.nodeId, ses.mapId, s), Placed(s, u, ses));
    }
  }

  lemma LookBacking(c: Cluster, u: string, order: seq<string>, now: int)
    ensures Backing(Look(c, u, order, now)) == Backing(c)
  {
    hide Backing, RefreshAll, SetWorld;
    if u in c.sessions && Hosts(c, c.sessions[u].nodeId, c.sessions[u].mapId) {
      var ses := c.sessions[u];
      SetWorldBacking(c, ses.nodeId, ses.mapId, RefreshAll(WorldOn(c, ses.nodeId, ses.mapId), order, now));
    }
  }

  lemma FarewellBacking(c: Cluster, u: string, order: seq<string>, now: int)
    ensures Backing(Look(Persist(c, u, now), u, order, now)) == Backing(c)
  {
    hide Backing, Look, Persist;
    PersistBacking(c, u, now);
    LookBacking(Persist(c, u, now), u, order, now);
  }

  lemma EnterBacking(c: Cluster, u: string, m: string, n: string, profile: Profile)
    ensures Backing(Enter(c, u, m, n, profile)) == Backing(c)
  {
    hide Backing, AddPlayer, SetWorld;
    var c1 := c;
    if Hosts(c, n, m) {
      c1 := SetWorld(c, n, m, AddPlayer(WorldOn(c, n, m), profile));
      SetWorldBacking(c, n, m, AddPlayer(WorldOn(c, n, m), profile));
    }
    SeatBacking(c1, c1.sessions[u := Session(m, n)]);
  }

  lemma LoginBacking(c: Cluster, u: string, pw: string, order: seq<string>, now: int)
    ensures Backing(Login(c, u, pw, order, now)) == Backing(c)
  {
    hide Backing, Enter, Look, Persist;
    if Authentic(c.store, u, pw) && u !in c.sessions {
      var profile := c.store.users[u];
      var m := if profile.lastMap in c.configs then profile.lastMap else DEFAULT_MAP;
      var n := if m in c.owners then c.owners[m] else "";
      EnterBacking(c, u, m, n, profile);
      FarewellBacking(Enter(c, u, m, n, profile), u, order, now);
    }
  }

  lemma LogoutBacking(c: Cluster, u: string)
    ensures Backing(Logout(c, u)) == Backing(c)
  {
    hide Backing, RemovePlayer, SetWorld, Saved;
    if u in c.sessions {
      var ses := c.sessions[u];
      var c1 := c.(sessions := c.sessions - {u});
      SeatBacking(c, c.sessions - {u});
      if Playing(c, u) {
        var s := WorldOn(c, ses.nodeId, ses.mapId);
        SetWorldBacking(c1, ses.nodeId, ses.mapId, RemovePlayer(s, u));
        SavedBacking(SetWorld(c1, ses.nodeId, ses.mapId, RemovePlayer(s, u)), Placed(s, u, ses));
      }
    }
  }

  lemma SwitchBacking(c: Cluster, u: string, target: string, order: seq<string>, now: int)
    ensures Backing(SwitchMap(c, u, target, order, now)) == Backing(c)
  {
    hide Backing, Enter, Look, Persist, Refresh, RemovePlayer, SetWorld, Saved;
    if u in c.sessions && target in c.configs {
      var ses := c.sessions[u];
      var n := if target in c.owners then c.owners[target] else "";
      LookBacking(c, u, order, now);
      if n in c.nodes && Playing(c, u) {
        var s := Refresh(WorldOn(c, ses.nodeId, ses.mapId), u, now);
        SetWorldBacking(c, ses.nodeId, ses.mapId, s);
        LookBacking(SetWorld(c, ses.nodeId, ses.mapId, s), u, order, now);
        var c1 := SetWorld(c, ses.nodeId, ses.mapId, RemovePlayer(s, u));
        var profile := ProfileOf(s, u).(lastMap := target, lastNode := n, at := c.configs[target].spawn);
        SetWorldBacking(c, ses.nodeId, ses.mapId, RemovePlayer(s, u));
        EnterBacking(c1, u, target, n, profile);
        SavedBacking(Enter(c1, u, target, n, profile), profile);
        FarewellBacking(Saved(Enter(c1, u, target, n, profile), profile), u, order, now);
      }
    }
  }

  lemma VictimBacking(c: Cluster, ses: Session, victim: Option<string>, now: int)
    ensures Backing(SaveVictim(c, ses, victim, now)) == Backing(c)
  {
    hide Backing, Persist, Refresh, SetWorld, Saved;
    if victim.Some? && Hosts(c, ses.nodeId, ses.mapId) && victim.value in WorldOn(c, ses.nodeId, ses.mapId).players {
      var s := Refresh(WorldOn(c, ses.nodeId, ses.mapId), victim.value, now);
      var c1 := SetWorld(c, ses.nodeId, ses.mapId, s);
      SetWorldBacking(c, ses.nodeId, ses.mapId, s);
      SavedBacking(c1, Placed(s, victim.value, ses));
      PersistBacking(Saved(c1, Placed(s, victim.value, ses)), victim.value, now);
    }
  }

  lemma ActBacking(c: Cluster, u: string, cmd: Command, order: seq<string>, now: int)
    ensures Backing(Act(c, u, cmd, order, now)) == Backing(c)
  {
    hide Backing, Obey, AttackVictim, SaveVictim, Look, Persist, SetWorld, Saved;
    if Playing(c, u) {
      var ses := c.sessions[u];
      var before := WorldOn(c, ses.nodeId, ses.mapId);
      var after := Obey(before, u, cmd, now);
      var victim := if cmd.AttackCmd? then AttackVictim(before, u, now) else None;
      var c0 := SetWorld(c, ses.nodeId, ses.mapId, after);
      SetWorldBacking(c, ses.nodeId, ses.mapId, after);
      VictimBacking(c0, ses, victim, now);
      if u in after.players {
        var c1 := SaveVictim(c0, ses, victim, now);
        SavedBacking(c1, Placed(after, u, ses));
        FarewellBacking(Saved(c1, Placed(after, u, ses)), u, order, now);
      }
    }
  }

  lemma PayOneBacking(c: Cluster, u: string, r: BossModel.Reward)
    ensures Backing(PayOne(c, u, r)) == Backing(c)
  {
    hide Backing, WorldModel.Reward, SetWorld, Saved;
    if Playing(c, u) {
      var ses := c.sessions[u];
      var s := WorldModel.Reward(WorldOn(c, ses.nodeId, ses.mapId), u, r.treasure, r.victories);
      if u in s.players {
        SetWorldBacking(c, ses.nodeId, ses.mapId, s);
        SavedBacking(SetWorld(c, ses.nodeId, ses.mapId, s), Placed(s, u, ses));
      }
    }
  }

  lemma {:induction false} PayAllBacking(c: Cluster, payees: seq<string>, rewards: map<string, BossModel.Reward>)
    ensures Backing(PayAll(c, payees, rewards)) == Backing(c)
    decreases |payees|
  {
    hide Backing, PayOne;
    if payees != [] {
      if payees[0] !in rewards {
        PayAllBacking(c, payees[1..], rewards);
      } else {
        PayOneBacking(c, payees[0], rewards[payees[0]]);
        PayAllBacking(PayOne(c, payees[0], rewards[payees[0]]), payees[1..], rewards);
      }
    }
  }

  lemma BossBacking(c: Cluster, boss: BossModel.Boss)
    ensures Backing(c.(boss := boss)) == Backing(c)
  {
  }

  lemma StrikeBacking(c: Cluster, u: string, payees: seq<string>, order: seq<string>, now: int)
    ensures Backing(AttackBoss(c, u, payees, order, now)) == Backing(c)
  {
    hide Backing, Refresh, Look, Persist, PayAll, SetWorld, BossModel.Struck, BossModel.Rewards, BossModel.Damage;
    if Playing(c, u) {
      var ses := c.sessions[u];
      var s := Refresh(WorldOn(c, ses.nodeId, ses.mapId), u, now);
      var c1 := SetWorld(c, ses.nodeId, ses.mapId, s);
      SetWorldBacking(c, ses.nodeId, ses.mapId, s);
      var p := s.players[u];
      var damage := BossModel.Damage(p.attack, p.treasures);
      var c2 := c1.(boss := BossModel.Struck(c1.boss, u, damage, now));
      BossBacking(c1, BossModel.Struck(c1.boss, u, damage, now));
      var rewards := BossModel.Rewards(c1.boss, u, damage, c1.sessions.Keys);
      LookBacking(c1, u, order, now);
      PayAllBacking(c2, payees, rewards);
      FarewellBacking(PayAll(c2, payees, rewards), u, order, now);
    }
  }

  lemma RegisterBacking(c: Cluster, u: string, pw: string)
    ensures Backing(c.(store := RegisterUser(c.store, u, pw))) == Backing(c)
  {
  }

  lemma LiveBacking(c: Cluster, n: string, m: string, order: seq<string>, now: int)
    ensures Backing(Live(c, n, m, order, now)) == Backing(c)
  {
    hide Backing, Background, SetWorld;
    if Hosts(c, n, m) {
      SetWorldBacking(c, n, m, Background(WorldOn(c, n, m), order, now));
    }
  }

  predicate Plays(e: Event) {
    !e.Ticks? && !e.Beats? && !e.Fails? && !e.Recovers?
  }

  /** No client and no background step touches a copy, a placement or the health of a node. */
  lemma PlayBacking(c: Cluster, e: Event)
    requires Plays(e)
    ensures Backing(ClusterModel.Step(c, e)) == Backing(c)
  {
    hide Backing, Login, Logout, Act, SwitchMap, AttackBoss, Look, Persist, Live, RegisterUser;
    match e
    case Registers(u, pw) => RegisterBacking(c, u, pw);
    case LogsIn(u, pw, order, now) => LoginBacking(c, u, pw, order, now);
    case LogsOut(u) => LogoutBacking(c, u);
    case Acts(u, cmd, order, now) => ActBacking(c, u, cmd, order, now);
    case Switches(u, target, order, now) => SwitchBacking(c, u, target, order, now);
    case Strikes(u, payees, order, now) => StrikeBacking(c, u, payees, order, now);
    case Looks(u, order, now) => LookBacking(c, u, order, now);
    case Flushes(u, now) => PersistBacking(c, u, now);
    case BossReturns => BossBacking(c, BossModel.NewBoss());
    case Lives(n, m, order, now) => LiveBacking(c, n, m, order, now);
  }

  // ----- Copies are kept under their maps' names -----

  /** A checkpoint is stored under the name of its map, and no map is nameless. */
  ghost predicate Keyed(c: Cluster) {
    "" !in c.configs && forall m | m in c.store.checkpoints :: c.store.checkpoints[m].mapId == m
  }

  lemma SameKeyed(c: Cluster, d: Cluster)
    requires Keyed(c) && d.configs == c.configs && d.store.checkpoints == c.store.checkpoints
    ensures Keyed(d)
  {
  }

  lemma BackedKeyed(c: Cluster, d: Cluster)
    requires Keyed(c) && Backing(d) == Backing(c)
    ensures Keyed(d)
  {
    assert d.store.checkpoints == Backing(d).store.checkpoints == Backing(c).store.checkpoints == c.store.checkpoints;
    assert d.configs == Backing(d).configs == Backing(c).configs == c.configs;
  }

  lemma SyncKeyed(c: Cluster, n: string, m: string, order: seq<string>, now: int)
    requires Routing(c) && Keyed(c)
    ensures Keyed(Sync(c, n, m, order, now))
  {
    hide Routing, RefreshAll, PlayerViews, NpcViews, TreasureViews, SortedNames;
    if Hosts(c, n, m) {
      HostedName(c, n, m);
      RefreshAllSteady(WorldOn(c, n, m), order, now);
    }
  }

  /** The world a node hosts under a name is that of the map of this name. */
  lemma HostedName(c: Cluster, n: string, m: string)
    requires Routing(c) && Hosts(c, n, m)
    ensures m in c.configs && WorldOn(c, n, m).cfg == c.configs[m] && WorldOn(c, n, m).cfg.id == m
          && WorldOn(c, n, m).version > 0
  {
    hide Built, SessionsRouted, Recorded, Assigned, SingleWriter;
  }

  lemma {:induction false} SyncAllKeyed(c: Cluster, n: string, hosted: seq<string>, orders: string -> seq<string>, now: int)
    requires Routing(c) && Keyed(c)
    ensures Keyed(SyncAll(c, n, hosted, orders, now))
    decreases |hosted|
  {
    hide Routing, Keyed, Sync;
    if hosted != [] {
      SyncRouting(c, n, hosted[0], orders(hosted[0]), now);
      SyncKeyed(c, n, hosted[0], orders(hosted[0]), now);
      SyncAllKeyed(Sync(c, n, hosted[0], orders(hosted[0]), now), n, hosted[1..], orders, now);
    }
  }

  lemma {:induction false} FailOverStores(c: Cluster, n: string, ms: seq<string>)
    ensures FailOver(c, n, ms).store == c.store && FailOver(c, n, ms).configs == c.configs
    decreases |ms|
  {
    hide Supplied, Promoted, PickReplica, Reroute;
    if ms != [] {
      FailOverStores(FailOverMap(c, n, ms[0]), n, ms[1..]);
    }
  }

  lemma {:induction false} RecoverStores(c: Cluster, n: string, ms: seq<string>)
    ensures RecoverMaps(c, n, ms).store == c.store && RecoverMaps(c, n, ms).configs == c.configs
    decreases |ms|
  {
    if ms != [] {
      RecoverStores(RecoverMap(c, n, ms[0]), n, ms[1..]);
    }
  }

  lemma StepKeyed(c: Cluster, e: Event)
    requires Routing(c) && Keyed(c)
    ensures Keyed(ClusterModel.Step(c, e))
  {
    hide Routing, Keyed, Backing, FailOver, RecoverMaps, Sync, SyncAll, SortedNames;
    if Plays(e) {
      hide ClusterModel.Step;
      PlayBacking(c, e);
      BackedKeyed(c, ClusterModel.Step(c, e));
    } else {
      hide Login, Logout, Act, SwitchMap, AttackBoss, Look, Persist, Live;
      match e
      case Ticks(m, order, now) => if m in c.owners { SyncKeyed(c, c.owners[m], m, order, now); }
      case Beats(n, reached, ms) => BeatKeyed(c, n, reached, ms);
      case Fails(n, orders, ms, now) => FailNodeKeyed(c, n, orders, ms, now);
      case Recovers(n, ms) => RecoverKeyed(c, n, ms);
    }
  }

  lemma BeatKeyed(c: Cluster, n: string, reached: bool, ms: seq<string>)
    requires Keyed(c)
    ensures Keyed(Beat(c, n, reached, ms))
  {
    hide Keyed, FailOver;
    if n in c.nodes {
      var b := SetHealthy(c, n, reached);
      SameKeyed(c, b);
      FailOverStores(b, n, ms);
      SameKeyed(c, FailOver(b, n, ms));
    }
  }

  lemma FailNodeKeyed(c: Cluster, n: string, orders: string -> seq<string>, ms: seq<string>, now: int)
    requires Routing(c) && Keyed(c)
    ensures Keyed(FailNode(c, n, orders, ms, now))
  {
    hide Routing, Keyed, FailOver, SyncAll, SortedNames;
    if n in c.nodes {
      var hosted := SortedNames(c.nodes[n].maps.Keys);
      SyncAllKeyed(c, n, hosted, orders, now);
      var b := SetHealthy(SyncAll(c, n, hosted, orders, now), n, false);
      SameKeyed(SyncAll(c, n, hosted, orders, now), b);
      FailOverStores(b, n, ms);
      SameKeyed(b, FailOver(b, n, ms));
    }
  }

  lemma RecoverKeyed(c: Cluster, n: string, ms: seq<string>)
    requires Keyed(c)
    ensures Keyed(RecoverNode(c, n, ms))
  {
    hide Keyed, RecoverMaps;
    if n in c.nodes {
      RecoverStores(SetHealthy(c, n, true), n, ms);
      SameKeyed(c, RecoverNode(c, n, ms));
    }
  }

  /** In every run, with failures and recoveries, each stored checkpoint is that of the map it is stored under. */
  lemma {:induction false} RunKeyed(c: Cluster, es: seq<Event>)
    requires Routing(c) && Keyed(c)
    ensures Keyed(ClusterModel.Run(c, es)) && Routing(ClusterModel.Run(c, es))
    decreases |es|
  {
    hide ClusterModel.Step, Routing, Keyed;
    if es != [] {
      StepRouting(c, es[0]);
      StepKeyed(c, es[0]);
      RunKeyed(ClusterModel.Step(c, es[0]), es[1..]);
    }
  }
}
