/** The password hash stored for an account survives everything the cluster does. */
module ClusterAccounts {
  import opened Basics
  import opened WorldModel
  import opened WorldCheckpoint
  import opened ClusterModel

  /** Nobody's account is lost and nobody's password hash has changed. */
  ghost predicate KeepsHashes(st: Store, st': Store) {
    && st'.hash == st.hash
    && forall u | u in st.users :: u in st'.users && st'.users[u].passwordHash == st.users[u].passwordHash
  }

  lemma SavedKeepsHashes(c: Cluster, p: Profile)
    requires p.passwordHash == ""
    ensures KeepsHashes(c.store, Saved(c, p).store) && Saved(c, p).boss == c.boss
  {
  }

  lemma PersistKeepsHashes(c: Cluster, u: string, now: int)
    ensures KeepsHashes(c.store, Persist(c, u, now).store) && Persist(c, u, now).boss == c.boss
  {
    hide Refresh;
  }

  lemma LookKeepsStore(c: Cluster, u: string, order: seq<string>, now: int)
    ensures Look(c, u, order, now).store == c.store && Look(c, u, order, now).boss == c.boss
  {
    hide RefreshAll;
  }

  lemma EnterKeepsStore(c: Cluster, u: string, m: string, n: string, profile: Profile)
    ensures Enter(c, u, m, n, profile).store == c.store && Enter(c, u, m, n, profile).boss == c.boss
  {
    hide AddPlayer;
  }

  lemma LoginKeepsHashes(c: Cluster, u: string, pw: string, order: seq<string>, now: int)
    ensures KeepsHashes(c.store, Login(c, u, pw, order, now).store) && Login(c, u, pw, order, now).boss == c.boss
  {
    hide Enter, Look, Persist;
    if Authentic(c.store, u, pw) && u !in c.sessions {
      var profile := c.store.users[u];
      var m := if profile.lastMap in c.configs then profile.lastMap else DEFAULT_MAP;
      var n := if m in c.owners then c.owners[m] else "";
      var c1 := Enter(c, u, m, n, profile);
      EnterKeepsStore(c, u, m, n, profile);
      PersistKeepsHashes(c1, u, now);
      LookKeepsStore(Persist(c1, u, now), u, order, now);
    }
  }

  lemma LogoutKeepsHashes(c: Cluster, u: string)
    ensures KeepsHashes(c.store, Logout(c, u).store) && Logout(c, u).boss == c.boss
  {
    hide RemovePlayer;
  }

  lemma SwitchKeepsHashes(c: Cluster, u: string, target: string, order: seq<string>, now: int)
    ensures KeepsHashes(c.store, SwitchMap(c, u, target, order, now).store) && SwitchMap(c, u, target, order, now).boss == c.boss
  {
    hide Enter, Look, Persist, Refresh, RemovePlayer;
    if u in c.sessions && target in c.configs {
      var ses := c.sessions[u];
      var n := if target in c.owners then c.owners[target] else "";
      LookKeepsStore(c, u, order, now);
      if n in c.nodes && Playing(c, u) {
        var s := Refresh(WorldOn(c, ses.nodeId, ses.mapId), u, now);
        LookKeepsStore(SetWorld(c, ses.nodeId, ses.mapId, s), u, order, now);
        var c1 := SetWorld(c, ses.nodeId, ses.mapId, RemovePlayer(s, u));
        var profile := ProfileOf(s, u).(lastMap := target, lastNode := n, at := c.configs[target].spawn);
        EnterKeepsStore(c1, u, target, n, profile);
        var c2 := Saved(Enter(c1, u, target, n, profile), profile);
        SavedKeepsHashes(Enter(c1, u, target, n, profile), profile);
        PersistKeepsHashes(c2, u, now);
        LookKeepsStore(Persist(c2, u, now), u, order, now);
      }
    }
  }

  lemma VictimKeepsHashes(c: Cluster, ses: Session, victim: Option<string>, now: int)
    ensures KeepsHashes(c.store, SaveVictim(c, ses, victim, now).store) && SaveVictim(c, ses, victim, now).boss == c.boss
  {
    hide Persist, Refresh;
    if victim.Some? && Hosts(c, ses.nodeId, ses.mapId) && victim.value in WorldOn(c, ses.nodeId, ses.mapId).players {
      var s := Refresh(WorldOn(c, ses.nodeId, ses.mapId), victim.value, now);
      var c1 := SetWorld(c, ses.nodeId, ses.mapId, s);
      SavedKeepsHashes(c1, Placed(s, victim.value, ses));
      PersistKeepsHashes(Saved(c1, Placed(s, victim.value, ses)), victim.value, now);
    }
  }

  lemma ActKeepsHashes(c: Cluster, u: string, cmd: Command, order: seq<string>, now: int)
    ensures KeepsHashes(c.store, Act(c, u, cmd, order, now).store) && Act(c, u, cmd, order, now).boss == c.boss
  {
    hide Obey, AttackVictim, SaveVictim, Look, Persist;
    if Playing(c, u) {
      var ses := c.sessions[u];
      var before := WorldOn(c, ses.nodeId, ses.mapId);
      var after := Obey(before, u, cmd, now);
      var victim := if cmd.AttackCmd? then AttackVictim(before, u, now) else None;
      var c0 := SetWorld(c, ses.nodeId, ses.mapId, after);
      VictimKeepsHashes(c0, ses, victim, now);
      if u in after.players {
        var c1 := SaveVictim(c0, ses, victim, now);
        SavedKeepsHashes(c1, Placed(after, u, ses));
        var c2 := Saved(c1, Placed(after, u, ses));
        PersistKeepsHashes(c2, u, now);
        LookKeepsStore(Persist(c2, u, now), u, order, now);
      }
    }
  }

  lemma {:induction false} PayAllKeepsHashes(c: Cluster, payees: seq<string>, rewards: map<string, BossModel.Reward>)
    ensures KeepsHashes(c.store, PayAll(c, payees, rewards).store) && PayAll(c, payees, rewards).boss == c.boss
    decreases |payees|
  {
    hide PayOne;
    if payees != [] {
      if payees[0] !in rewards {
        PayAllKeepsHashes(c, payees[1..], rewards);
      } else {
        PayOneKeepsHashes(c, payees[0], rewards[payees[0]]);
        PayAllKeepsHashes(PayOne(c, payees[0], rewards[payees[0]]), payees[1..], rewards);
      }
    }
  }

  lemma PayOneKeepsHashes(c: Cluster, u: string, r: BossModel.Reward)
    ensures KeepsHashes(c.store, PayOne(c, u, r).store) && PayOne(c, u, r).boss == c.boss
  {
    hide WorldModel.Reward;
  }

  /** The user stands near enough to a boss that is alive, once its own revival is settled. */
  ghost predicate Reaches(c: Cluster, u: string, now: int) {
    Playing(c, u) && c.sessions[u].mapId in c.configs && c.boss.alive
    && Distance(Striker(c, u, now).at, c.configs[c.sessions[u].mapId].boss) <= BOSS_RANGE
  }

  ghost function Striker(c: Cluster, u: string, now: int): Player
    requires Playing(c, u)
  {
    Refresh(WorldOn(c, c.sessions[u].nodeId, c.sessions[u].mapId), u, now).players[u]
  }

  ghost function Blow(c: Cluster, u: string, now: int): int
    requires Playing(c, u)
  {
    BossModel.Damage(Striker(c, u, now).attack, Striker(c, u, now).treasures)
  }

  lemma StrikeKeepsHashes(c: Cluster, u: string, payees: seq<string>, order: seq<string>, now: int)
    ensures KeepsHashes(c.store, AttackBoss(c, u, payees, order, now).store)
    ensures AttackBoss(c, u, payees, order, now).boss ==
      if Reaches(c, u, now) then BossModel.Struck(c.boss, u, Blow(c, u, now), now) else c.boss
  {
    hide Refresh, Look, Persist, PayAll, BossModel.Struck, BossModel.Rewards, BossModel.Damage;
    if Playing(c, u) {
      var ses := c.sessions[u];
      var s := Refresh(WorldOn(c, ses.nodeId, ses.mapId), u, now);
      var c1 := SetWorld(c, ses.nodeId, ses.mapId, s);
      var p := s.players[u];
      var damage := BossModel.Damage(p.attack, p.treasures);
      var c2 := c1.(boss := BossModel.Struck(c1.boss, u, damage, now));
      var rewards := BossModel.Rewards(c1.boss, u, damage, c1.sessions.Keys);
      LookKeepsStore(c1, u, order, now);
      PayAllKeepsHashes(c2, payees, rewards);
      var c3 := PayAll(c2, payees, rewards);
      PersistKeepsHashes(c3, u, now);
      LookKeepsStore(Persist(c3, u, now), u, order, now);
    }
  }

  lemma SyncKeepsUsers(c: Cluster, n: string, m: string, order: seq<string>, now: int)
    ensures KeepsHashes(c.store, Sync(c, n, m, order, now).store) && Sync(c, n, m, order, now).boss == c.boss
  {
    hide RefreshAll, Captured;
  }

  lemma {:induction false} SyncAllKeepsUsers(c: Cluster, n: string, hosted: seq<string>, orders: string -> seq<string>, now: int)
    ensures KeepsHashes(c.store, SyncAll(c, n, hosted, orders, now).store) && SyncAll(c, n, hosted, orders, now).boss == c.boss
    decreases |hosted|
  {
    hide Sync;
    if hosted != [] {
      SyncKeepsUsers(c, n, hosted[0], orders(hosted[0]), now);
      SyncAllKeepsUsers(Sync(c, n, hosted[0], orders(hosted[0]), now), n, hosted[1..], orders, now);
    }
  }

  lemma {:induction false} FailOverKeepsStore(c: Cluster, n: string, ms: seq<string>)
    ensures FailOver(c, n, ms).store == c.store && FailOver(c, n, ms).boss == c.boss
    decreases |ms|
  {
    hide Supplied, Promoted, PickReplica, Reroute;
    if ms != [] {
      FailOverKeepsStore(FailOverMap(c, n, ms[0]), n, ms[1..]);
    }
  }

  lemma {:induction false} RecoverMapsKeepStore(c: Cluster, n: string, ms: seq<string>)
    ensures RecoverMaps(c, n, ms).store == c.store && RecoverMaps(c, n, ms).boss == c.boss
    decreases |ms|
  {
    if ms != [] {
      RecoverMapsKeepStore(RecoverMap(c, n, ms[0]), n, ms[1..]);
    }
  }

  lemma FailNodeKeepsHashes(c: Cluster, n: string, orders: string -> seq<string>, ms: seq<string>, now: int)
    ensures KeepsHashes(c.store, FailNode(c, n, orders, ms, now).store) && FailNode(c, n, orders, ms, now).boss == c.boss
  {
    hide FailOver, SyncAll, SortedNames;
    if n in c.nodes {
      var hosted := SortedNames(c.nodes[n].maps.Keys);
      SyncAllKeepsUsers(c, n, hosted, orders, now);
      FailOverKeepsStore(SetHealthy(SyncAll(c, n, hosted, orders, now), n, false), n, ms);
    }
  }

  /** Every event, unplanned failures included, keeps the hash of every account. */
  lemma StepKeepsHashes(c: Cluster, e: Event)
    ensures KeepsHashes(c.store, ClusterModel.Step(c, e).store)
    ensures !e.Strikes? && !e.BossReturns? ==> ClusterModel.Step(c, e).boss == c.boss
  {
    hide Login, Logout, Act, SwitchMap, AttackBoss, Look, Persist, Background, Sync, FailOver, FailNode, RecoverMaps;
    match e
    case Registers(u, pw) =>
    case LogsIn(u, pw, order, now) => LoginKeepsHashes(c, u, pw, order, now);
    case LogsOut(u) => LogoutKeepsHashes(c, u);
    case Acts(u, cmd, order, now) => ActKeepsHashes(c, u, cmd, order, now);
    case Switches(u, target, order, now) => SwitchKeepsHashes(c, u, target, order, now);
    case Strikes(u, payees, order, now) => StrikeKeepsHashes(c, u, payees, order, now);
    case Looks(u, order, now) => LookKeepsStore(c, u, order, now);
    case Flushes(u, now) => PersistKeepsHashes(c, u, now);
    case BossReturns =>
    case Lives(n, m, order, now) =>
    case Ticks(m, order, now) => if m in c.owners { SyncKeepsUsers(c, c.owners[m], m, order, now); }
    case Beats(n, reached, ms) => if n in c.nodes { FailOverKeepsStore(SetHealthy(c, n, reached), n, ms); }
    case Fails(n, orders, ms, now) => FailNodeKeepsHashes(c, n, orders, ms, now);
    case Recovers(n, ms) => if n in c.nodes { RecoverMapsKeepStore(SetHealthy(c, n, true), n, ms); }
  }

  /** In every run each account keeps its hash: the passwords that open it now are those that open it for good. */
  lemma {:induction false} RunKeepsHashes(c: Cluster, es: seq<Event>)
    ensures KeepsHashes(c.store, ClusterModel.Run(c, es).store)
    ensures forall u, pw | u in c.store.users :: Authentic(ClusterModel.Run(c, es).store, u, pw) <==> Authentic(c.store, u, pw)
    decreases |es|
  {
    hide ClusterModel.Step;
    if es != [] {
      StepKeepsHashes(c, es[0]);
      RunKeepsHashes(ClusterModel.Step(c, es[0]), es[1..]);
    }
  }

  /** Whoever registers under a free name can authenticate with that password ever after. */
  lemma RegisteredForever(c: Cluster, u: string, pw: string, es: seq<Event>)
    requires u != "" && pw != "" && u !in c.store.users
    ensures Authentic(ClusterModel.Run(c, [Registers(u, pw)] + es).store, u, pw)
  {
    hide ClusterModel.Run;
    var all := [Registers(u, pw)] + es;
    var d := ClusterModel.Step(c, Registers(u, pw));
    assert all[0] == Registers(u, pw) && all[1..] == es;
    RunKeepsHashes(d, es);
    RunOnce(c, all);
  }

  lemma RunOnce(c: Cluster, es: seq<Event>)
    requires es != []
    ensures ClusterModel.Run(c, es) == ClusterModel.Run(ClusterModel.Step(c, es[0]), es[1..])
  {
    hide ClusterModel.Step;
  }
}
