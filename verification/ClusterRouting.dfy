/** One writer per map, and every session at its map's writer, in every run of the cluster: client
    commands, logins, planned and unplanned failures, recoveries and checkpoints in any order. */
module ClusterRouting {
  import opened Basics
  import opened WorldModel
  import opened WorldCheckpoint
  import opened WorldLife
  import opened ClusterModel

  ghost predicate Configured(c: Cluster) {
    && "" !in c.nodes && DEFAULT_MAP in c.configs
    && (forall m | m in c.configs :: c.configs[m].id == m && Built(c.newWorld(c.configs[m]), c.configs[m]))
  }

  /** Each map has a known owner, and a replica that is another known node or none. */
  ghost predicate Assigned(c: Cluster) {
    && c.owners.Keys == c.configs.Keys && c.replicas.Keys == c.configs.Keys
    && (forall m | m in c.owners :: c.owners[m] in c.nodes)
    && (forall m | m in c.replicas :: c.replicas[m] != c.owners[m] && (c.replicas[m] == "" || c.replicas[m] in c.nodes))
  }

  /** A node hosts a map exactly when it owns it. */
  ghost predicate SingleWriter(c: Cluster) {
    forall n, m :: Hosts(c, n, m) <==> m in c.owners && c.owners[m] == n
  }

  ghost predicate WorldFits(c: Cluster, m: string, s: State) {
    m in c.configs && s.cfg == c.configs[m] && s.version > 0
  }

  ghost predicate WorldsFit(c: Cluster) {
    forall n, m | Hosts(c, n, m) :: WorldFits(c, m, WorldOn(c, n, m))
  }

  ghost predicate SessionsRouted(c: Cluster) {
    forall u | u in c.sessions :: c.sessions[u].mapId in c.owners && c.sessions[u].nodeId == c.owners[c.sessions[u].mapId]
  }

  ghost predicate Recorded(c: Cluster) {
    && (forall u | u in c.store.users :: c.store.users[u].username == u)
    && (forall m | m in c.store.checkpoints :: c.store.checkpoints[m].version >= 0)
    && (forall n, m | n in c.nodes && m in c.nodes[n].snapshots :: c.nodes[n].snapshots[m].version >= 0)
  }

  ghost predicate Routing(c: Cluster) {
    Configured(c) && Assigned(c) && SingleWriter(c) && WorldsFit(c) && SessionsRouted(c) && Recorded(c)
  }

  // ----- Changes that leave the placement alone -----

  ghost predicate SamePlacement(c: Cluster, d: Cluster) {
    && d.nodes.Keys == c.nodes.Keys && d.owners == c.owners && d.replicas == c.replicas
    && d.configs == c.configs && d.newWorld == c.newWorld
  }

  lemma SetWorldRouting(c: Cluster, n: string, m: string, s: State)
    requires Routing(c) && Hosts(c, n, m) && WorldFits(c, m, s)
    ensures Routing(SetWorld(c, n, m, s)) && SamePlacement(c, SetWorld(c, n, m, s))
  {
    hide Built;
    var d := SetWorld(c, n, m, s);
    forall n', m' ensures Hosts(d, n', m') <==> Hosts(c, n', m') {}
    forall n', m' | Hosts(d, n', m') ensures WorldFits(d, m', WorldOn(d, n', m')) {
      if n' == n && m' == m {} else { assert WorldOn(d, n', m') == WorldOn(c, n', m'); }
    }
  }

  lemma SavedRouting(c: Cluster, p: Profile)
    requires Routing(c)
    ensures Routing(Saved(c, p)) && SamePlacement(c, Saved(c, p))
  {
    hide Built;
    assert forall n, m :: Hosts(Saved(c, p), n, m) <==> Hosts(c, n, m);
  }

  lemma SessionRouting(c: Cluster, sessions: map<string, Session>)
    requires Routing(c)
    requires forall u | u in sessions :: sessions[u].mapId in c.owners && sessions[u].nodeId == c.owners[sessions[u].mapId]
    ensures var d := c.(sessions := sessions); Routing(d) && SamePlacement(c, d)
  {
    hide Built;
    assert forall n, m :: Hosts(c.(sessions := sessions), n, m) <==> Hosts(c, n, m);
  }

  lemma BossRouting(c: Cluster, boss: BossModel.Boss)
    requires Routing(c)
    ensures Routing(c.(boss := boss)) && SamePlacement(c, c.(boss := boss))
  {
    hide Built;
    assert forall n, m :: Hosts(c.(boss := boss), n, m) <==> Hosts(c, n, m);
  }

  lemma StoreRouting(c: Cluster, store: Store)
    requires Routing(c)
    requires forall u | u in store.users :: store.users[u].username == u
    requires forall m | m in store.checkpoints :: store.checkpoints[m].version >= 0
    ensures Routing(c.(store := store)) && SamePlacement(c, c.(store := store))
  {
    hide Built;
    assert forall n, m :: Hosts(c.(store := store), n, m) <==> Hosts(c, n, m);
  }

  lemma NodeRouting(c: Cluster, n: string, node: Node)
    requires Routing(c) && n in c.nodes && node.maps == c.nodes[n].maps
    requires forall m | m in node.snapshots :: node.snapshots[m].version >= 0
    ensures var d := c.(nodes := c.nodes[n := node]); Routing(d) && SamePlacement(c, d)
  {
    hide Built;
    var d := c.(nodes := c.nodes[n := node]);
    assert forall n', m' :: Hosts(d, n', m') <==> Hosts(c, n', m');
    assert forall n', m' | Hosts(d, n', m') :: WorldOn(d, n', m') == WorldOn(c, n', m');
    hide Hosts, WorldOn, Configured;
    assert Configured(d) by { SameConfigured(c, d); }
  }

  lemma SameConfigured(c: Cluster, d: Cluster)
    requires Configured(c) && d.nodes.Keys == c.nodes.Keys && d.configs == c.configs && d.newWorld == c.newWorld
    ensures Configured(d)
  {
    hide Built;
    assert forall n :: n in d.nodes.Keys <==> n in c.nodes.Keys;
  }

  /** Under the invariant a session's node hosts its map. */
  lemma SessionHosted(c: Cluster, u: string)
    requires Routing(c) && u in c.sessions
    ensures Hosts(c, c.sessions[u].nodeId, c.sessions[u].mapId)
    ensures WorldFits(c, c.sessions[u].mapId, WorldOn(c, c.sessions[u].nodeId, c.sessions[u].mapId))
  {
  }

  // ----- Client operations -----

  lemma PersistRouting(c: Cluster, u: string, now: int)
    requires Routing(c)
    ensures Routing(Persist(c, u, now)) && SamePlacement(c, Persist(c, u, now))
  {
    hide Routing, Refresh;
    if Playing(c, u) {
      SessionHosted(c, u);
      var ses := c.sessions[u];
      var s := WorldOn(c, ses.nodeId, ses.mapId);
      RefreshSteady(s, u, now);
      var r := Refresh(s, u, now);
      SetWorldRouting(c, ses.nodeId, ses.mapId, r);
      SavedRouting(SetWorld(c, ses.nodeId, ses.mapId, r), Placed(r, u, ses));
    }
  }

  lemma LookRouting(c: Cluster, u: string, order: seq<string>, now: int)
    requires Routing(c)
    ensures Routing(Look(c, u, order, now)) && SamePlacement(c, Look(c, u, order, now))
  {
    hide Routing, RefreshAll;
    if u in c.sessions {
      SessionHosted(c, u);
      var ses := c.sessions[u];
      RefreshAllSteady(WorldOn(c, ses.nodeId, ses.mapId), order, now);
      SetWorldRouting(c, ses.nodeId, ses.mapId, RefreshAll(WorldOn(c, ses.nodeId, ses.mapId), order, now));
    }
  }

  lemma FarewellRouting(c: Cluster, u: string, order: seq<string>, now: int)
    requires Routing(c)
    ensures var d := Look(Persist(c, u, now), u, order, now); Routing(d) && SamePlacement(c, d)
  {
    hide Routing, Look, Persist;
    PersistRouting(c, u, now);
    LookRouting(Persist(c, u, now), u, order, now);
  }

  /** Every configured map is hosted by its owner. */
  lemma Placement(c: Cluster)
    requires Routing(c)
    ensures DEFAULT_MAP in c.configs && c.owners.Keys == c.configs.Keys && c.replicas.Keys == c.configs.Keys
    ensures forall m | m in c.configs :: c.owners[m] in c.nodes && Hosts(c, c.owners[m], m)
    ensures forall m | m in c.configs :: WorldFits(c, m, WorldOn(c, c.owners[m], m))
  {
    hide Built, SessionsRouted, Recorded;
    forall m | m in c.configs ensures Hosts(c, c.owners[m], m) {}
  }

  lemma EnterRouting(c: Cluster, u: string, m: string, profile: Profile)
    requires Routing(c) && m in c.configs
    ensures m in c.owners
    ensures var d := Enter(c, u, m, c.owners[m], profile); Routing(d) && SamePlacement(c, d)
  {
    hide AddPlayer, Routing;
    Placement(c);
    var n := c.owners[m];
    AddSteady(WorldOn(c, n, m), profile);
    var s := AddPlayer(WorldOn(c, n, m), profile);
    SetWorldRouting(c, n, m, s);
    SeatRouting(SetWorld(c, n, m, s), u, m);
  }

  lemma SeatRouting(c: Cluster, u: string, m: string)
    requires Routing(c) && m in c.owners
    ensures var d := c.(sessions := c.sessions[u := Session(m, c.owners[m])]); Routing(d) && SamePlacement(c, d)
  {
    hide Built;
    SessionRouting(c, c.sessions[u := Session(m, c.owners[m])]);
  }

  lemma LeaveRouting(c: Cluster, u: string)
    requires Routing(c)
    ensures var d := c.(sessions := c.sessions - {u}); Routing(d) && SamePlacement(c, d)
  {
    hide Built;
    SessionRouting(c, c.sessions - {u});
  }

  lemma LoginRouting(c: Cluster, u: string, pw: string, order: seq<string>, now: int)
    requires Routing(c)
    ensures Routing(Login(c, u, pw, order, now)) && SamePlacement(c, Login(c, u, pw, order, now))
  {
    hide Enter, Look, Persist, Routing;
    Placement(c);
    if Authentic(c.store, u, pw) && u !in c.sessions {
      var profile := c.store.users[u];
      var m := if profile.lastMap in c.configs then profile.lastMap else DEFAULT_MAP;
      EnterRouting(c, u, m, profile);
      FarewellRouting(Enter(c, u, m, c.owners[m], profile), u, order, now);
    }
  }

  lemma LogoutRouting(c: Cluster, u: string)
    requires Routing(c)
    ensures Routing(Logout(c, u)) && SamePlacement(c, Logout(c, u))
  {
    hide RemovePlayer, Routing;
    if u in c.sessions {
      var c1 := c.(sessions := c.sessions - {u});
      LeaveRouting(c, u);
      if Playing(c, u) {
        SessionHosted(c, u);
        var ses := c.sessions[u];
        var s := WorldOn(c, ses.nodeId, ses.mapId);
        RemoveSteady(s, u);
        SetWorldRouting(c1, ses.nodeId, ses.mapId, RemovePlayer(s, u));
        SavedRouting(SetWorld(c1, ses.nodeId, ses.mapId, RemovePlayer(s, u)), Placed(s, u, ses));
      }
    }
  }

  lemma SwitchRouting(c: Cluster, u: string, target: string, order: seq<string>, now: int)
    requires Routing(c)
    ensures Routing(SwitchMap(c, u, target, order, now)) && SamePlacement(c, SwitchMap(c, u, target, order, now))
  {
    hide Enter, RemovePlayer, Refresh, Look, Persist, Routing;
    Placement(c);
    if u in c.sessions && target in c.configs {
      var ses := c.sessions[u];
      var n := c.owners[target];
      SessionHosted(c, u);
      if ses.mapId == target {
        LookRouting(c, u, order, now);
      } else if Playing(c, u) {
        var w := WorldOn(c, ses.nodeId, ses.mapId);
        RefreshSteady(w, u, now);
        var s := Refresh(w, u, now);
        if !s.players[u].alive {
          SetWorldRouting(c, ses.nodeId, ses.mapId, s);
          LookRouting(SetWorld(c, ses.nodeId, ses.mapId, s), u, order, now);
        } else {
          RemoveSteady(s, u);
          SetWorldRouting(c, ses.nodeId, ses.mapId, RemovePlayer(s, u));
          var c1 := SetWorld(c, ses.nodeId, ses.mapId, RemovePlayer(s, u));
          var profile := ProfileOf(s, u).(lastMap := target, lastNode := n, at := c.configs[target].spawn);
          EnterRouting(c1, u, target, profile);
          SavedRouting(Enter(c1, u, target, n, profile), profile);
          FarewellRouting(Saved(Enter(c1, u, target, n, profile), profile), u, order, now);
        }
      }
    }
  }

  lemma ObeySteady(s: State, u: string, cmd: Command, now: int)
    ensures Steady(s, Obey(s, u, cmd, now), s.players.Keys)
  {
    hide Steady, WorldModel.Move, Heal, Buy, Attack;
    match cmd
    case MoveCmd(dir) => MoveSteady(s, u, dir, now);
    case HealCmd => HealSteady(s, u, now);
    case BuyCmd(item) => BuySteady(s, u, item, now);
    case AttackCmd => AttackSteady(s, u, now);
  }

  lemma SaveVictimRouting(c: Cluster, ses: Session, victim: Option<string>, now: int)
    requires Routing(c)
    ensures Routing(SaveVictim(c, ses, victim, now)) && SamePlacement(c, SaveVictim(c, ses, victim, now))
  {
    hide Persist, Refresh, Built;
    if victim.Some? && Hosts(c, ses.nodeId, ses.mapId) && victim.value in WorldOn(c, ses.nodeId, ses.mapId).players {
      var w := WorldOn(c, ses.nodeId, ses.mapId);
      RefreshSteady(w, victim.value, now);
      var s := Refresh(w, victim.value, now);
      SetWorldRouting(c, ses.nodeId, ses.mapId, s);
      var c1 := SetWorld(c, ses.nodeId, ses.mapId, s);
      SavedRouting(c1, Placed(s, victim.value, ses));
      PersistRouting(Saved(c1, Placed(s, victim.value, ses)), victim.value, now);
    }
  }

  lemma ActRouting(c: Cluster, u: string, cmd: Command, order: seq<string>, now: int)
    requires Routing(c)
    ensures Routing(Act(c, u, cmd, order, now)) && SamePlacement(c, Act(c, u, cmd, order, now))
  {
    hide Obey, AttackVictim, SaveVictim, Look, Persist, Routing;
    if Playing(c, u) {
      SessionHosted(c, u);
      var ses := c.sessions[u];
      var before := WorldOn(c, ses.nodeId, ses.mapId);
      var after := Obey(before, u, cmd, now);
      ObeySteady(before, u, cmd, now);
      SetWorldRouting(c, ses.nodeId, ses.mapId, after);
      var victim := if cmd.AttackCmd? then AttackVictim(before, u, now) else None;
      SaveVictimRouting(SetWorld(c, ses.nodeId, ses.mapId, after), ses, victim, now);
      var c1 := SaveVictim(SetWorld(c, ses.nodeId, ses.mapId, after), ses, victim, now);
      SavedRouting(c1, Placed(after, u, ses));
      FarewellRouting(Saved(c1, Placed(after, u, ses)), u, order, now);
    }
  }

  lemma PayOneRouting(c: Cluster, u: string, r: BossModel.Reward)
    requires Routing(c)
    ensures Routing(PayOne(c, u, r)) && SamePlacement(c, PayOne(c, u, r))
  {
    hide WorldModel.Reward, Routing;
    if Playing(c, u) {
      SessionHosted(c, u);
      var ses := c.sessions[u];
      var w := WorldOn(c, ses.nodeId, ses.mapId);
      RewardSteady(w, u, r.treasure, r.victories);
      var s := WorldModel.Reward(w, u, r.treasure, r.victories);
      SetWorldRouting(c, ses.nodeId, ses.mapId, s);
      SavedRouting(SetWorld(c, ses.nodeId, ses.mapId, s), Placed(s, u, ses));
    }
  }

  lemma {:induction false} PayAllRouting(c: Cluster, payees: seq<string>, rewards: map<string, BossModel.Reward>)
    requires Routing(c)
    ensures Routing(PayAll(c, payees, rewards)) && SamePlacement(c, PayAll(c, payees, rewards))
    decreases |payees|
  {
    hide PayOne, Routing;
    if payees != [] {
      if payees[0] !in rewards {
        PayAllRouting(c, payees[1..], rewards);
      } else {
        PayOneRouting(c, payees[0], rewards[payees[0]]);
        PayAllRouting(PayOne(c, payees[0], rewards[payees[0]]), payees[1..], rewards);
      }
    }
  }

  lemma StrikeRouting(c: Cluster, u: string, payees: seq<string>, order: seq<string>, now: int)
    requires Routing(c)
    ensures Routing(AttackBoss(c, u, payees, order, now)) && SamePlacement(c, AttackBoss(c, u, payees, order, now))
  {
    hide Refresh, Look, Persist, PayAll, Routing, BossModel.Struck, BossModel.Rewards, BossModel.Damage;
    if Playing(c, u) {
      SessionHosted(c, u);
      var ses := c.sessions[u];
      var w := WorldOn(c, ses.nodeId, ses.mapId);
      RefreshSteady(w, u, now);
      var s := Refresh(w, u, now);
      var p := s.players[u];
      SetWorldRouting(c, ses.nodeId, ses.mapId, s);
      var c1 := SetWorld(c, ses.nodeId, ses.mapId, s);
      if ses.mapId in c.configs {
        if Distance(p.at, c.configs[ses.mapId].boss) > BOSS_RANGE || !c.boss.alive {
          LookRouting(c1, u, order, now);
        } else {
          var damage := BossModel.Damage(p.attack, p.treasures);
          var c2 := c1.(boss := BossModel.Struck(c1.boss, u, damage, now));
          BossRouting(c1, BossModel.Struck(c1.boss, u, damage, now));
          PayAllRouting(c2, payees, BossModel.Rewards(c1.boss, u, damage, c1.sessions.Keys));
          FarewellRouting(PayAll(c2, payees, BossModel.Rewards(c1.boss, u, damage, c1.sessions.Keys)), u, order, now);
        }
      }
    }
  }

  lemma LiveRouting(c: Cluster, n: string, m: string, order: seq<string>, now: int)
    requires Routing(c)
    ensures Routing(Live(c, n, m, order, now)) && SamePlacement(c, Live(c, n, m, order, now))
  {
    hide Background, Built;
    if Hosts(c, n, m) && c.nodes[n].healthy {
      BackgroundSteady(WorldOn(c, n, m), order, now);
      SetWorldRouting(c, n, m, Background(WorldOn(c, n, m), order, now));
    }
  }

  // ----- Checkpoints, failures, recoveries -----

  lemma SyncRouting(c: Cluster, n: string, m: string, order: seq<string>, now: int)
    requires Routing(c)
    ensures Routing(Sync(c, n, m, order, now)) && SamePlacement(c, Sync(c, n, m, order, now))
  {
    hide RefreshAll, Built, PlayerViews, NpcViews, TreasureViews, SortedNames;
    if Hosts(c, n, m) {
      var w := WorldOn(c, n, m);
      RefreshAllSteady(w, order, now);
      var s := RefreshAll(w, order, now);
      var cp := Captured(s, n, now);
      SetWorldRouting(c, n, m, s);
      var c1 := SetWorld(c, n, m, s);
      StoreRouting(c1, c1.store.(checkpoints := c1.store.checkpoints[cp.mapId := cp]));
      var c2 := c1.(store := c1.store.(checkpoints := c1.store.checkpoints[cp.mapId := cp]));
      var r := c2.replicas[m];
      if r in c2.nodes {
        NodeRouting(c2, r, StoreReplica(c2.nodes[r], cp));
      }
    }
  }

  lemma {:induction false} SyncAllRouting(c: Cluster, n: string, hosted: seq<string>, orders: string -> seq<string>, now: int)
    requires Routing(c)
    ensures Routing(SyncAll(c, n, hosted, orders, now)) && SamePlacement(c, SyncAll(c, n, hosted, orders, now))
    decreases |hosted|
  {
    hide Sync, Routing;
    if hosted != [] {
      SyncRouting(c, n, hosted[0], orders(hosted[0]), now);
      SyncAllRouting(Sync(c, n, hosted[0], orders(hosted[0]), now), n, hosted[1..], orders, now);
    }
  }

  lemma PickReplicaIsOther(c: Cluster, owner: string)
    ensures var r := PickReplica(c, owner); r == "" || (r in c.nodes && r != owner && c.nodes[r].healthy)
    ensures PickReplica(c, owner) == "" && "" !in c.nodes ==> forall n | n in c.nodes && n != owner :: !c.nodes[n].healthy
  {
    StrLessStrictTotal();
    var fit := set n | n in c.nodes && n != owner && c.nodes[n].healthy;
    if fit != {} {
      LeastExists(fit, StrLess);
      assert PickReplica(c, owner) in fit;
    } else {
      forall n | n in c.nodes && n != owner ensures !c.nodes[n].healthy {
        assert n !in fit;
      }
    }
  }

  /** Map m has moved from node n to node r, where its world is now s; nothing else has changed place. */
  ghost predicate Moved(c: Cluster, d: Cluster, m: string, n: string, r: string, s: State) {
    && n in c.nodes && r in c.nodes && r != n && m in c.owners && c.owners[m] == n && m in c.replicas && c.replicas[m] == r
    && d.owners == c.owners[m := r]
    && d.replicas.Keys == c.replicas.Keys && (forall m' | m' in c.replicas && m' != m :: d.replicas[m'] == c.replicas[m'])
    && (d.replicas[m] == "" || (d.replicas[m] in c.nodes && d.replicas[m] != r))
    && d.nodes.Keys == c.nodes.Keys && d.configs == c.configs && d.newWorld == c.newWorld
    && d.store == c.store && d.boss == c.boss && d.sessions == Reroute(c.sessions, m, r)
    && d.nodes[n] == c.nodes[n].(maps := c.nodes[n].maps - {m})
    && d.nodes[r].maps == c.nodes[r].maps[m := s]
    && d.nodes[r].snapshots == Supplied(c, r, m).snapshots - {m}
    && (forall n' | n' in c.nodes && n' != r && n' != n :: d.nodes[n'] == c.nodes[n'])
    && (forall n' | n' in c.nodes :: d.nodes[n'].healthy == c.nodes[n'].healthy)
  }

  /** The turn of a map in a failover moves the map if its replica is a known node that has a snapshot
      of it or finds one in the store. */
  lemma FailOverMoves(c: Cluster, n: string, m: string)
    requires m in c.owners && c.owners[m] == n && n in c.nodes && m in c.configs
    requires m in c.replicas && c.replicas[m] in c.nodes && c.replicas[m] != n
    requires m in Supplied(c, c.replicas[m], m).snapshots
    ensures Moved(c, FailOverMap(c, n, m), m, n, c.replicas[m],
                  Restore(c.newWorld(c.configs[m]), Supplied(c, c.replicas[m], m).snapshots[m]))
  {
    hide Restore, PickReplica, Built, Reroute, Supplied;
    var r := c.replicas[m];
    var ready := Supplied(c, r, m);
    var c1 := c.(nodes := c.nodes[r := Promoted(ready, m, c.newWorld(c.configs[m]))], owners := c.owners[m := r]);
    PickReplicaIsOther(c1, r);
    SuppliedShape(c, r, m);
  }

  lemma SuppliedShape(c: Cluster, r: string, m: string)
    requires r in c.nodes
    ensures Supplied(c, r, m).maps == c.nodes[r].maps && Supplied(c, r, m).healthy == c.nodes[r].healthy
    ensures Recorded(c) ==> forall k | k in Supplied(c, r, m).snapshots :: Supplied(c, r, m).snapshots[k].version >= 0
  {
  }

  lemma MovedWriter(c: Cluster, d: Cluster, m: string, n: string, r: string, s: State)
    requires Moved(c, d, m, n, r, s) && SingleWriter(c)
    ensures SingleWriter(d)
    ensures forall n', m' | Hosts(d, n', m') && m' != m :: Hosts(c, n', m') && WorldOn(d, n', m') == WorldOn(c, n', m')
    ensures forall n', m' | Hosts(c, n', m') && m' != m :: Hosts(d, n', m')
    ensures Hosts(d, r, m) && WorldOn(d, r, m) == s
  {
    hide Reroute, Supplied;
    forall n', m' ensures Hosts(d, n', m') <==> m' in d.owners && d.owners[m'] == n' {
      assert Hosts(c, n', m') <==> m' in c.owners && c.owners[m'] == n';
      assert Hosts(d, n', m') <==> if m' == m then n' == r else Hosts(c, n', m');
    }
  }

  lemma MovedFits(c: Cluster, d: Cluster, m: string, n: string, r: string, s: State)
    requires Moved(c, d, m, n, r, s) && SingleWriter(c) && WorldsFit(c) && WorldFits(c, m, s)
    ensures WorldsFit(d)
  {
    MovedWriter(c, d, m, n, r, s);
    hide Moved, Hosts;
    forall n', m' | Hosts(d, n', m') ensures WorldFits(d, m', WorldOn(d, n', m')) {
      assert d.configs == c.configs by { MovedConfigs(c, d, m, n, r, s); }
      if m' == m { assert n' == r by { MovedOwner(c, d, m, n, r, s, n'); } }
    }
  }

  lemma MovedConfigs(c: Cluster, d: Cluster, m: string, n: string, r: string, s: State)
    requires Moved(c, d, m, n, r, s)
    ensures d.configs == c.configs && d.newWorld == c.newWorld && d.nodes.Keys == c.nodes.Keys
  {
  }

  lemma MovedOwner(c: Cluster, d: Cluster, m: string, n: string, r: string, s: State, n': string)
    requires Moved(c, d, m, n, r, s) && SingleWriter(c) && Hosts(d, n', m)
    ensures n' == r
  {
    MovedWriter(c, d, m, n, r, s);
  }

  lemma MovedAssigned(c: Cluster, d: Cluster, m: string, n: string, r: string, s: State)
    requires Moved(c, d, m, n, r, s) && Assigned(c) && "" !in c.nodes
    ensures Assigned(d)
  {
    hide Moved;
    MovedPlaces(c, d, m, n, r, s);
    assert d.owners.Keys == c.owners.Keys;
    forall k | k in d.owners ensures d.owners[k] in d.nodes {
      assert k in c.owners && (k != m ==> c.owners[k] in c.nodes.Keys);
    }
    forall k | k in d.replicas ensures d.replicas[k] != d.owners[k] && (d.replicas[k] == "" || d.replicas[k] in d.nodes) {
      assert k in c.replicas && k in c.owners;
      if k != m { StayedApart(c, d, k); }
    }
  }

  lemma StayedApart(c: Cluster, d: Cluster, k: string)
    requires Assigned(c) && k in c.replicas && k in c.owners && d.nodes.Keys == c.nodes.Keys
    requires k in d.replicas && k in d.owners && d.replicas[k] == c.replicas[k] && d.owners[k] == c.owners[k]
    ensures d.replicas[k] != d.owners[k] && (d.replicas[k] == "" || d.replicas[k] in d.nodes)
  {
  }

  /** What a move means for owners and replicas. */
  lemma MovedPlaces(c: Cluster, d: Cluster, m: string, n: string, r: string, s: State)
    requires Moved(c, d, m, n, r, s)
    ensures m in c.owners && m in c.replicas && r in c.nodes && d.nodes.Keys == c.nodes.Keys && d.configs == c.configs
    ensures d.owners == c.owners[m := r] && d.replicas.Keys == c.replicas.Keys
    ensures forall m' | m' in c.replicas && m' != m :: d.replicas[m'] == c.replicas[m']
    ensures d.replicas[m] == "" || (d.replicas[m] in c.nodes && d.replicas[m] != r)
  {
    hide Supplied, Reroute;
  }

  lemma MovedSessions(c: Cluster, d: Cluster, m: string, n: string, r: string, s: State)
    requires Moved(c, d, m, n, r, s) && SessionsRouted(c)
    ensures SessionsRouted(d)
  {
    hide Supplied, Hosts;
    forall u | u in d.sessions
      ensures d.sessions[u].mapId in d.owners && d.sessions[u].nodeId == d.owners[d.sessions[u].mapId]
    {
      assert u in c.sessions && d.sessions[u].mapId == c.sessions[u].mapId;
    }
  }

  lemma MovedRecords(c: Cluster, d: Cluster, m: string, n: string, r: string, s: State)
    requires Moved(c, d, m, n, r, s) && Recorded(c)
    ensures Recorded(d)
  {
    hide Supplied, Reroute;
    SuppliedShape(c, r, m);
  }

  lemma FailOverMapRouting(c: Cluster, n: string, m: string)
    requires Routing(c)
    ensures Routing(FailOverMap(c, n, m)) && FailOverMap(c, n, m).nodes.Keys == c.nodes.Keys
  {
    hide Built, Supplied, PickReplica, Restore, Moved, SingleWriter, WorldsFit, SessionsRouted, Reroute;
    if m in c.owners && c.owners[m] == n && c.replicas[m] in c.nodes {
      var r := c.replicas[m];
      SuppliedShape(c, r, m);
      if m !in Supplied(c, r, m).snapshots {
        NodeRouting(c, r, Supplied(c, r, m));
      } else {
        FailOverMoves(c, n, m);
        hide FailOverMap;
        var d := FailOverMap(c, n, m);
        var s := Restore(c.newWorld(c.configs[m]), Supplied(c, r, m).snapshots[m]);
        RestoredFits(c, m, Supplied(c, r, m).snapshots[m]);
        MovedWriter(c, d, m, n, r, s);
        MovedFits(c, d, m, n, r, s);
        MovedAssigned(c, d, m, n, r, s);
        MovedSessions(c, d, m, n, r, s);
        MovedRecords(c, d, m, n, r, s);
        MovedConfigs(c, d, m, n, r, s);
      }
    }
  }

  lemma RestoredFits(c: Cluster, m: string, cp: Checkpoint)
    requires Routing(c) && m in c.configs && cp.version >= 0
    ensures WorldFits(c, m, Restore(c.newWorld(c.configs[m]), cp))
  {
    hide Built, PlayersFrom, NpcsFrom, TreasuresFrom;
    BuiltShape(c.newWorld(c.configs[m]), c.configs[m]);
  }

  lemma {:induction false} FailOverRouting(c: Cluster, n: string, ms: seq<string>)
    requires Routing(c)
    ensures Routing(FailOver(c, n, ms)) && FailOver(c, n, ms).nodes.Keys == c.nodes.Keys
    decreases |ms|
  {
    hide FailOverMap, Routing;
    if ms != [] {
      FailOverMapRouting(c, n, ms[0]);
      FailOverRouting(FailOverMap(c, n, ms[0]), n, ms[1..]);
    }
  }

  lemma BeatRouting(c: Cluster, n: string, reached: bool, ms: seq<string>)
    requires Routing(c)
    ensures Routing(Beat(c, n, reached, ms))
  {
    hide FailOver, Built;
    if n in c.nodes {
      NodeRouting(c, n, c.nodes[n].(healthy := reached));
      FailOverRouting(SetHealthy(c, n, reached), n, ms);
    }
  }

  lemma FailNodeRouting(c: Cluster, n: string, orders: string -> seq<string>, ms: seq<string>, now: int)
    requires Routing(c)
    ensures Routing(FailNode(c, n, orders, ms, now))
  {
    hide FailOver, Built, SyncAll, SortedNames;
    if n in c.nodes {
      var hosted := SortedNames(c.nodes[n].maps.Keys);
      SyncAllRouting(c, n, hosted, orders, now);
      var c1 := SyncAll(c, n, hosted, orders, now);
      NodeRouting(c1, n, c1.nodes[n].(healthy := false));
      FailOverRouting(SetHealthy(c1, n, false), n, ms);
    }
  }

  lemma ReplicaRouting(c: Cluster, m: string, n: string)
    requires Routing(c) && m in c.owners && n in c.nodes && c.owners[m] != n
    ensures Routing(c.(replicas := c.replicas[m := n]))
  {
    hide Built;
    var d := c.(replicas := c.replicas[m := n]);
    assert forall n', m' :: Hosts(d, n', m') <==> Hosts(c, n', m');
  }

  lemma RecoverMapRouting(c: Cluster, n: string, m: string)
    requires Routing(c)
    ensures Routing(RecoverMap(c, n, m)) && RecoverMap(c, n, m).nodes.Keys == c.nodes.Keys
  {
    hide SingleWriter, WorldsFit, Configured, Assigned, SessionsRouted, StoreReplica;
    if n in c.nodes && m in c.owners && c.owners[m] != n {
      var node := StoreReplica(c.nodes[n], LoadCheckpoint(c.store, m));
      StoreReplicaShape(c.nodes[n], LoadCheckpoint(c.store, m));
      NodeRouting(c, n, node);
      ReplicaRouting(c.(nodes := c.nodes[n := node]), m, n);
    }
  }

  lemma StoreReplicaShape(node: Node, cp: Checkpoint)
    requires cp.version >= 0 && forall k | k in node.snapshots :: node.snapshots[k].version >= 0
    ensures StoreReplica(node, cp).maps == node.maps
    ensures forall k | k in StoreReplica(node, cp).snapshots :: StoreReplica(node, cp).snapshots[k].version >= 0
  {
  }

  lemma {:induction false} RecoverMapsRouting(c: Cluster, n: string, ms: seq<string>)
    requires Routing(c)
    ensures Routing(RecoverMaps(c, n, ms))
    decreases |ms|
  {
    hide RecoverMap, Routing;
    if ms != [] {
      RecoverMapRouting(c, n, ms[0]);
      RecoverMapsRouting(RecoverMap(c, n, ms[0]), n, ms[1..]);
    }
  }

  lemma RecoverNodeRouting(c: Cluster, n: string, ms: seq<string>)
    requires Routing(c)
    ensures Routing(RecoverNode(c, n, ms))
  {
    hide RecoverMaps, Built;
    if n in c.nodes {
      NodeRouting(c, n, c.nodes[n].(healthy := true));
      RecoverMapsRouting(SetHealthy(c, n, true), n, ms);
    }
  }

  // ----- Every step, every run -----

  lemma StepRouting(c: Cluster, e: Event)
    requires Routing(c)
    ensures Routing(ClusterModel.Step(c, e))
  {
    hide Routing, Login, Logout, Act, SwitchMap, AttackBoss, Look, Persist, Live, Tick, Beat, FailNode, RecoverNode;
    match e
    case Registers(u, pw) => RegisterRouting(c, u, pw);
    case LogsIn(u, pw, order, now) => LoginRouting(c, u, pw, order, now);
    case LogsOut(u) => LogoutRouting(c, u);
    case Acts(u, cmd, order, now) => ActRouting(c, u, cmd, order, now);
    case Switches(u, target, order, now) => SwitchRouting(c, u, target, order, now);
    case Strikes(u, payees, order, now) => StrikeRouting(c, u, payees, order, now);
    case Looks(u, order, now) => LookRouting(c, u, order, now);
    case Flushes(u, now) => PersistRouting(c, u, now);
    case BossReturns => BossRouting(c, BossModel.NewBoss());
    case Lives(n, m, order, now) => LiveRouting(c, n, m, order, now);
    case Ticks(m, order, now) => TickRouting(c, m, order, now);
    case Beats(n, reached, ms) => BeatRouting(c, n, reached, ms);
    case Fails(n, orders, ms, now) => FailNodeRouting(c, n, orders, ms, now);
    case Recovers(n, ms) => RecoverNodeRouting(c, n, ms);
  }

  lemma RegisterRouting(c: Cluster, u: string, pw: string)
    requires Routing(c)
    ensures Routing(c.(store := RegisterUser(c.store, u, pw)))
  {
    hide Built;
    StoreRouting(c, RegisterUser(c.store, u, pw));
  }

  lemma TickRouting(c: Cluster, m: string, order: seq<string>, now: int)
    requires Routing(c)
    ensures Routing(Tick(c, m, order, now))
  {
    hide Sync, Routing;
    if m in c.owners {
      SyncRouting(c, c.owners[m], m, order, now);
    }
  }

  lemma {:induction false} RunRouting(c: Cluster, es: seq<Event>)
    requires Routing(c)
    ensures Routing(ClusterModel.Run(c, es))
    decreases |es|
  {
    hide ClusterModel.Step, Routing;
    if es != [] {
      StepRouting(c, es[0]);
      RunRouting(ClusterModel.Step(c, es[0]), es[1..]);
    }
  }
}
