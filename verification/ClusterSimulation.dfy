/** Placement is invisible: what the players see of a step of the cluster is a step of the
    placement-free model, whichever nodes hold the maps. */
module ClusterSimulation {
  import opened Basics
  import opened WorldModel
  import opened WorldCheckpoint
  import opened WorldLife
  import opened ClusterModel
  import opened ClusterRouting
  import opened PlainModel
  import Boss = BossModel

  ghost function SeenWorlds(c: Cluster): map<string, State> {
    map m | m in c.owners && Hosts(c, c.owners[m], m) :: WorldOn(c, c.owners[m], m)
  }

  ghost function SeenAt(sessions: map<string, Session>): map<string, string> {
    map u | u in sessions :: sessions[u].mapId
  }

  ghost function SeenUsers(st: Store): map<string, Profile> {
    map u | u in st.users :: st.users[u].(lastNode := "")
  }

  /** The cluster as its players see it. */
  ghost function Face(c: Cluster): Plain {
    Plain(SeenWorlds(c), SeenAt(c.sessions), SeenUsers(c.store), c.boss, c.configs, c.store.hash)
  }

  // ----- Single changes -----

  lemma SeeWorld(c: Cluster, n: string, m: string)
    requires Routing(c) && Hosts(c, n, m)
    ensures m in c.owners && c.owners[m] == n && m in Face(c).worlds && Face(c).worlds[m] == WorldOn(c, n, m)
  {
    hide Built, Recorded;
  }

  lemma SeeEveryMap(c: Cluster)
    requires Routing(c)
    ensures Face(c).worlds.Keys == c.configs.Keys
    ensures forall m | m in c.configs :: Hosts(c, c.owners[m], m) && Face(c).worlds[m] == WorldOn(c, c.owners[m], m)
  {
    hide Routing;
    Placement(c);
  }

  lemma SeePutWorlds(c: Cluster, n: string, m: string, s: State)
    requires m in c.owners && c.owners[m] == n && Hosts(c, n, m)
    ensures SeenWorlds(SetWorld(c, n, m, s)) == SeenWorlds(c)[m := s]
  {
    var d := SetWorld(c, n, m, s);
    forall m' | m' in c.owners && m' != m
      ensures Hosts(d, d.owners[m'], m') <==> Hosts(c, c.owners[m'], m')
      ensures Hosts(c, c.owners[m'], m') ==> WorldOn(d, d.owners[m'], m') == WorldOn(c, c.owners[m'], m')
    {
    }
  }

  lemma SeePut(c: Cluster, n: string, m: string, s: State)
    requires Routing(c) && Hosts(c, n, m)
    ensures Face(SetWorld(c, n, m, s)) == PutWorld(Face(c), m, s)
  {
    hide Routing, SeenWorlds;
    SeeWorld(c, n, m);
    SeePutWorlds(c, n, m, s);
  }

  lemma SeeKeep(c: Cluster, profile: Profile)
    ensures Face(Saved(c, profile)) == Keep(Face(c), profile)
  {
    var d := Saved(c, profile);
    assert SeenWorlds(d) == SeenWorlds(c) by {
      assert forall n, m :: Hosts(d, n, m) <==> Hosts(c, n, m);
    }
    assert SeenUsers(d.store) == Keep(Face(c), profile).users;
  }

  lemma KeepIgnoresNode(p: Plain, s: State, u: string, ses: Session)
    requires u in s.players
    ensures Keep(p, Placed(s, u, ses)) == Keep(p, Resident(s, u, ses.mapId))
  {
  }

  lemma SeeSeat(c: Cluster, sessions: map<string, Session>)
    ensures Face(c.(sessions := sessions)) == Face(c).(at := SeenAt(sessions))
  {
    var d := c.(sessions := sessions);
    assert forall n, m :: Hosts(d, n, m) <==> Hosts(c, n, m);
    assert SeenWorlds(d) == SeenWorlds(c);
  }

  lemma SeeBoss(c: Cluster, boss: Boss.Boss)
    ensures Face(c.(boss := boss)) == Face(c).(boss := boss)
  {
    var d := c.(boss := boss);
    assert forall n, m :: Hosts(d, n, m) <==> Hosts(c, n, m);
    assert SeenWorlds(d) == SeenWorlds(c);
  }

  lemma SeePlaying(c: Cluster, u: string)
    requires Routing(c)
    ensures Playing(c, u) <==> On(Face(c), u)
    ensures u in c.sessions ==>
      var ses := c.sessions[u];
      Hosts(c, ses.nodeId, ses.mapId) && u in Face(c).at && Face(c).at[u] == ses.mapId && ses.mapId in Face(c).worlds
      && Face(c).worlds[ses.mapId] == WorldOn(c, ses.nodeId, ses.mapId)
  {
    hide Routing, SeenWorlds;
    if u in c.sessions {
      SessionHosted(c, u);
      SeeWorld(c, c.sessions[u].nodeId, c.sessions[u].mapId);
    }
  }

  // ----- Client operations -----

  lemma SimPersist(c: Cluster, u: string, now: int)
    requires Routing(c)
    ensures Face(Persist(c, u, now)) == PersistP(Face(c), u, now)
  {
    hide Routing, Refresh, Face, Keep, PutWorld;
    SeePlaying(c, u);
    if Playing(c, u) {
      var ses := c.sessions[u];
      var s := Refresh(WorldOn(c, ses.nodeId, ses.mapId), u, now);
      SeePut(c, ses.nodeId, ses.mapId, s);
      SeeKeep(SetWorld(c, ses.nodeId, ses.mapId, s), Placed(s, u, ses));
      KeepIgnoresNode(PutWorld(Face(c), ses.mapId, s), s, u, ses);
    }
  }

  lemma SimLook(c: Cluster, u: string, order: seq<string>, now: int)
    requires Routing(c)
    ensures Face(Look(c, u, order, now)) == LookP(Face(c), u, order, now)
  {
    hide Routing, RefreshAll, Keep, PutWorld;
    SeePlaying(c, u);
    if u in c.sessions {
      var ses := c.sessions[u];
      SeePut(c, ses.nodeId, ses.mapId, RefreshAll(WorldOn(c, ses.nodeId, ses.mapId), order, now));
    }
  }

  lemma SimFarewell(c: Cluster, u: string, order: seq<string>, now: int)
    requires Routing(c)
    ensures Face(Look(Persist(c, u, now), u, order, now)) == LookP(PersistP(Face(c), u, now), u, order, now)
  {
    hide Routing, Look, Persist, LookP, PersistP, Face;
    PersistRouting(c, u, now);
    SimPersist(c, u, now);
    SimLook(Persist(c, u, now), u, order, now);
  }

  lemma AddPlayerIgnoresNode(s: State, p: Profile)
    ensures AddPlayer(s, p.(lastNode := "")) == AddPlayer(s, p)
  {
    hide SafeCell, SafeCellDrawn;
  }

  lemma SimEnter(c: Cluster, u: string, m: string, profile: Profile)
    requires Routing(c) && m in c.configs
    ensures m in c.owners && m in Face(c).worlds
    ensures Face(Enter(c, u, m, c.owners[m], profile)) == EnterP(Face(c), u, m, profile.(lastNode := ""))
  {
    hide AddPlayer, Routing, PutWorld, SeenWorlds;
    Placement(c);
    SeeEveryMap(c);
    var n := c.owners[m];
    AddPlayerIgnoresNode(WorldOn(c, n, m), profile);
    var s := AddPlayer(WorldOn(c, n, m), profile);
    SeePut(c, n, m, s);
    var c1 := SetWorld(c, n, m, s);
    var sessions := c1.sessions[u := Session(m, n)];
    SeeSeat(c1, sessions);
    SeatSeen(c.sessions, u, m, n);
  }

  lemma SeatSeen(sessions: map<string, Session>, u: string, m: string, n: string)
    ensures SeenAt(sessions[u := Session(m, n)]) == SeenAt(sessions)[u := m]
  {
  }

  lemma SeeAuthentic(c: Cluster, u: string, pw: string)
    ensures Authentic(c.store, u, pw) <==> AuthenticP(Face(c), u, pw)
  {
    hide SeenWorlds;
  }

  /** The map that a login leads to, and the profile it brings. */
  lemma SeeHome(c: Cluster, u: string)
    requires u in c.store.users
    ensures u in Face(c).users && Face(c).users[u] == c.store.users[u].(lastNode := "")
    ensures HomeMap(Face(c), u) == if c.store.users[u].lastMap in c.configs then c.store.users[u].lastMap else DEFAULT_MAP
  {
    hide SeenWorlds;
  }

  lemma SeeSeated(c: Cluster, u: string)
    ensures u in Face(c).at <==> u in c.sessions
  {
    hide SeenWorlds;
  }

  lemma SimLogin(c: Cluster, u: string, pw: string, order: seq<string>, now: int)
    requires Routing(c)
    ensures Face(Login(c, u, pw, order, now)) == LoginP(Face(c), u, pw, order, now)
  {
    SeeAuthentic(c, u, pw);
    SeeSeated(c, u);
    hide Enter, EnterP, Look, Persist, LookP, PersistP, Routing, Face, HomeMap, Authentic;
    Placement(c);
    if Authentic(c.store, u, pw) && u !in c.sessions {
      AuthenticUser(c, u, pw);
      SeeHome(c, u);
      SimSeated(c, u, HomeMap(Face(c), u), c.store.users[u], order, now);
    }
  }

  lemma AuthenticUser(c: Cluster, u: string, pw: string)
    requires Authentic(c.store, u, pw)
    ensures u in c.store.users
  {
  }

  lemma SimSeated(c: Cluster, u: string, m: string, profile: Profile, order: seq<string>, now: int)
    requires Routing(c) && m in c.configs
    ensures m in c.owners && m in Face(c).worlds
    ensures Face(Look(Persist(Enter(c, u, m, c.owners[m], profile), u, now), u, order, now)) ==
      LookP(PersistP(EnterP(Face(c), u, m, profile.(lastNode := "")), u, now), u, order, now)
  {
    hide Enter, EnterP, Look, Persist, LookP, PersistP, Routing, Face;
    EnterRouting(c, u, m, profile);
    SimEnter(c, u, m, profile);
    SimFarewell(Enter(c, u, m, c.owners[m], profile), u, order, now);
  }

  lemma SimLogout(c: Cluster, u: string)
    requires Routing(c)
    ensures Face(Logout(c, u)) == LogoutP(Face(c), u)
  {
    hide RemovePlayer, Routing, PutWorld, Keep, SeenWorlds;
    SeePlaying(c, u);
    if u in c.sessions {
      var ses := c.sessions[u];
      var c1 := c.(sessions := c.sessions - {u});
      LeaveRouting(c, u);
      SeeSeat(c, c.sessions - {u});
      assert SeenAt(c.sessions - {u}) == SeenAt(c.sessions) - {u};
      if Playing(c, u) {
        var s := WorldOn(c, ses.nodeId, ses.mapId);
        SeePut(c1, ses.nodeId, ses.mapId, RemovePlayer(s, u));
        var d := SetWorld(c1, ses.nodeId, ses.mapId, RemovePlayer(s, u));
        SeeKeep(d, Placed(s, u, ses));
        KeepIgnoresNode(Face(d), s, u, ses);
      }
    }
  }

  lemma SimSwitchAlive(c: Cluster, u: string, target: string, order: seq<string>, now: int)
    requires Routing(c) && Playing(c, u) && target in c.configs && c.sessions[u].mapId != target
    requires Refresh(WorldOn(c, c.sessions[u].nodeId, c.sessions[u].mapId), u, now).players[u].alive
    ensures Face(SwitchMap(c, u, target, order, now)) == SwitchP(Face(c), u, target, order, now)
  {
    hide Enter, EnterP, RemovePlayer, Refresh, Look, Persist, LookP, PersistP, Routing, PutWorld, Keep, SeenWorlds;
    SeePlaying(c, u);
    SeeEveryMap(c);
    Placement(c);
    SessionHosted(c, u);
    var ses := c.sessions[u];
    var n := c.owners[target];
    var w := WorldOn(c, ses.nodeId, ses.mapId);
    var s := Refresh(w, u, now);
    RefreshSteady(w, u, now);
    RemoveSteady(s, u);
    var c1 := SetWorld(c, ses.nodeId, ses.mapId, RemovePlayer(s, u));
    SetWorldRouting(c, ses.nodeId, ses.mapId, RemovePlayer(s, u));
    SeePut(c, ses.nodeId, ses.mapId, RemovePlayer(s, u));
    var profile := ProfileOf(s, u).(lastMap := target, lastNode := n, at := c.configs[target].spawn);
    SimArrival(c1, u, target, profile, order, now);
    assert profile.(lastNode := "") == ProfileOf(s, u).(lastMap := target, at := c.configs[target].spawn);
  }

  lemma SimArrival(c: Cluster, u: string, target: string, profile: Profile, order: seq<string>, now: int)
    requires Routing(c) && target in c.configs
    ensures target in c.owners && target in Face(c).worlds
    ensures var bare := profile.(lastNode := "");
      Face(Look(Persist(Saved(Enter(c, u, target, c.owners[target], profile), profile), u, now), u, order, now)) ==
      LookP(PersistP(Keep(EnterP(Face(c), u, target, bare), bare), u, now), u, order, now)
  {
    hide Enter, EnterP, Look, Persist, LookP, PersistP, Routing, Keep, Face, Saved;
    EnterRouting(c, u, target, profile);
    SimEnter(c, u, target, profile);
    var c2 := Enter(c, u, target, c.owners[target], profile);
    SavedRouting(c2, profile);
    SeeKeep(c2, profile);
    KeepBare(Face(c2), profile);
    SimFarewell(Saved(c2, profile), u, order, now);
  }

  lemma KeepBare(p: Plain, profile: Profile)
    ensures Keep(p, profile.(lastNode := "")) == Keep(p, profile)
  {
  }

  lemma SimSwitch(c: Cluster, u: string, target: string, order: seq<string>, now: int)
    requires Routing(c)
    ensures Face(SwitchMap(c, u, target, order, now)) == SwitchP(Face(c), u, target, order, now)
  {
    hide AddPlayer, RemovePlayer, Refresh, Look, Persist, LookP, PersistP, Routing, PutWorld, Keep, SeenWorlds;
    SeePlaying(c, u);
    SeeEveryMap(c);
    Placement(c);
    if u in c.sessions && target in c.configs {
      var ses := c.sessions[u];
      if ses.mapId == target {
        SimLook(c, u, order, now);
      } else if Playing(c, u) {
        SessionHosted(c, u);
        var w := WorldOn(c, ses.nodeId, ses.mapId);
        var s := Refresh(w, u, now);
        RefreshSteady(w, u, now);
        if s.players[u].alive {
          SimSwitchAlive(c, u, target, order, now);
        } else {
          SetWorldRouting(c, ses.nodeId, ses.mapId, s);
          SeePut(c, ses.nodeId, ses.mapId, s);
          SimLook(SetWorld(c, ses.nodeId, ses.mapId, s), u, order, now);
        }
      }
    }
  }

  lemma SimSaveVictim(c: Cluster, u: string, victim: Option<string>, now: int)
    requires Routing(c) && u in c.sessions
    ensures Face(SaveVictim(c, c.sessions[u], victim, now)) == KeepVictim(Face(c), c.sessions[u].mapId, victim, now)
  {
    hide Persist, PersistP, Refresh, Routing, PutWorld, Keep, SeenWorlds;
    SeePlaying(c, u);
    SessionHosted(c, u);
    var ses := c.sessions[u];
    var w := WorldOn(c, ses.nodeId, ses.mapId);
    if victim.Some? && victim.value in w.players {
      RefreshSteady(w, victim.value, now);
      var s := Refresh(w, victim.value, now);
      SetWorldRouting(c, ses.nodeId, ses.mapId, s);
      SeePut(c, ses.nodeId, ses.mapId, s);
      var c1 := SetWorld(c, ses.nodeId, ses.mapId, s);
      SavedRouting(c1, Placed(s, victim.value, ses));
      SeeKeep(c1, Placed(s, victim.value, ses));
      KeepIgnoresNode(Face(c1), s, victim.value, ses);
      SimPersist(Saved(c1, Placed(s, victim.value, ses)), victim.value, now);
    }
  }

  lemma SimAct(c: Cluster, u: string, cmd: Command, order: seq<string>, now: int)
    requires Routing(c)
    ensures Face(Act(c, u, cmd, order, now)) == ActP(Face(c), u, cmd, order, now)
  {
    hide Obey, AttackVictim, SaveVictim, KeepVictim, Look, Persist, LookP, PersistP, Routing, PutWorld, Keep, SeenWorlds;
    SeePlaying(c, u);
    if Playing(c, u) {
      SessionHosted(c, u);
      var ses := c.sessions[u];
      var before := WorldOn(c, ses.nodeId, ses.mapId);
      var after := Obey(before, u, cmd, now);
      ObeySteady(before, u, cmd, now);
      var c0 := SetWorld(c, ses.nodeId, ses.mapId, after);
      SetWorldRouting(c, ses.nodeId, ses.mapId, after);
      SeePut(c, ses.nodeId, ses.mapId, after);
      var victim := if cmd.AttackCmd? then AttackVictim(before, u, now) else None;
      SaveVictimRouting(c0, ses, victim, now);
      SimSaveVictim(c0, u, victim, now);
      var c1 := SaveVictim(c0, ses, victim, now);
      SavedRouting(c1, Placed(after, u, ses));
      SeeKeep(c1, Placed(after, u, ses));
      KeepIgnoresNode(Face(c1), after, u, ses);
      SimFarewell(Saved(c1, Placed(after, u, ses)), u, order, now);
    }
  }

  lemma SimPayOne(c: Cluster, u: string, r: Boss.Reward)
    requires Routing(c)
    ensures Face(PayOne(c, u, r)) == PayOneP(Face(c), u, r)
  {
    hide WorldModel.Reward, Routing, PutWorld, Keep, SeenWorlds;
    SeePlaying(c, u);
    if Playing(c, u) {
      SessionHosted(c, u);
      var ses := c.sessions[u];
      var w := WorldOn(c, ses.nodeId, ses.mapId);
      RewardSteady(w, u, r.treasure, r.victories);
      var s := WorldModel.Reward(w, u, r.treasure, r.victories);
      SeePut(c, ses.nodeId, ses.mapId, s);
      var c1 := SetWorld(c, ses.nodeId, ses.mapId, s);
      SeeKeep(c1, Placed(s, u, ses));
      KeepIgnoresNode(Face(c1), s, u, ses);
    }
  }

  lemma {:induction false} SimPayAll(c: Cluster, payees: seq<string>, rewards: map<string, Boss.Reward>)
    requires Routing(c)
    ensures Face(PayAll(c, payees, rewards)) == PayAllP(Face(c), payees, rewards)
    decreases |payees|
  {
    hide PayOne, PayOneP, Routing, Face;
    if payees != [] {
      if payees[0] !in rewards {
        SimPayAll(c, payees[1..], rewards);
      } else {
        PayOneRouting(c, payees[0], rewards[payees[0]]);
        SimPayOne(c, payees[0], rewards[payees[0]]);
        SimPayAll(PayOne(c, payees[0], rewards[payees[0]]), payees[1..], rewards);
      }
    }
  }

  lemma SimStrike(c: Cluster, u: string, payees: seq<string>, order: seq<string>, now: int)
    requires Routing(c)
    ensures Face(AttackBoss(c, u, payees, order, now)) == StrikeP(Face(c), u, payees, order, now)
  {
    hide Refresh, Look, Persist, LookP, PersistP, PayAll, PayAllP, Routing, PutWorld, Keep, SeenWorlds;
    hide Boss.Struck, Boss.Rewards, Boss.Damage;
    SeePlaying(c, u);
    if Playing(c, u) {
      SessionHosted(c, u);
      var ses := c.sessions[u];
      var w := WorldOn(c, ses.nodeId, ses.mapId);
      RefreshSteady(w, u, now);
      var s := Refresh(w, u, now);
      var p := s.players[u];
      SetWorldRouting(c, ses.nodeId, ses.mapId, s);
      SeePut(c, ses.nodeId, ses.mapId, s);
      var c1 := SetWorld(c, ses.nodeId, ses.mapId, s);
      if Distance(p.at, c.configs[ses.mapId].boss) > BOSS_RANGE || !c.boss.alive {
        SimLook(c1, u, order, now);
      } else {
        var damage := Boss.Damage(p.attack, p.treasures);
        var boss := Boss.Struck(c1.boss, u, damage, now);
        var c2 := c1.(boss := boss);
        BossRouting(c1, boss);
        SeeBoss(c1, boss);
        var rewards := Boss.Rewards(c1.boss, u, damage, c1.sessions.Keys);
        assert SeenAt(c1.sessions).Keys == c1.sessions.Keys;
        PayAllRouting(c2, payees, rewards);
        SimPayAll(c2, payees, rewards);
        SimFarewell(PayAll(c2, payees, rewards), u, order, now);
      }
    }
  }

  lemma SimRegister(c: Cluster, u: string, pw: string)
    ensures Face(c.(store := RegisterUser(c.store, u, pw))) == RegisterP(Face(c), u, pw)
  {
    var d := c.(store := RegisterUser(c.store, u, pw));
    assert SeenWorlds(d) == SeenWorlds(c) by {
      assert forall n, m :: Hosts(d, n, m) <==> Hosts(c, n, m);
    }
    assert SeenUsers(d.store) == RegisterP(Face(c), u, pw).users;
  }

  lemma SimLive(c: Cluster, n: string, m: string, order: seq<string>, now: int)
    requires Routing(c)
    ensures Face(Live(c, n, m, order, now)) ==
      if Hosts(c, n, m) && c.nodes[n].healthy then LiveP(Face(c), m, order, now) else Face(c)
  {
    hide Background, Routing, PutWorld, SeenWorlds;
    if Hosts(c, n, m) && c.nodes[n].healthy {
      SeeWorld(c, n, m);
      SeePut(c, n, m, Background(WorldOn(c, n, m), order, now));
    }
  }

  // ----- Checkpoints and recoveries -----

  /** Changes that touch no world, no session, no profile and no boss are not seen. */
  lemma Unseen(c: Cluster, d: Cluster)
    requires d.owners == c.owners && d.sessions == c.sessions && d.boss == c.boss && d.configs == c.configs
    requires d.store.users == c.store.users && d.store.hash == c.store.hash
    requires d.nodes.Keys == c.nodes.Keys && forall n | n in c.nodes :: d.nodes[n].maps == c.nodes[n].maps
    ensures Face(d) == Face(c)
  {
    assert forall n, m :: Hosts(d, n, m) <==> Hosts(c, n, m);
    assert SeenWorlds(d) == SeenWorlds(c);
  }

  lemma SimSync(c: Cluster, n: string, m: string, order: seq<string>, now: int)
    requires Routing(c) && Hosts(c, n, m)
    ensures Face(Sync(c, n, m, order, now)) == ShowP(Face(c), m, order, now)
  {
    hide RefreshAll, Routing, Captured, PutWorld, SeenWorlds;
    SeeWorld(c, n, m);
    var s := RefreshAll(WorldOn(c, n, m), order, now);
    SeePut(c, n, m, s);
    Unseen(SetWorld(c, n, m, s), Sync(c, n, m, order, now));
  }

  lemma SimTick(c: Cluster, m: string, order: seq<string>, now: int)
    requires Routing(c)
    ensures Face(Tick(c, m, order, now)) ==
      if m in c.owners && c.owners[m] in c.nodes && c.nodes[c.owners[m]].healthy then ShowP(Face(c), m, order, now)
      else Face(c)
  {
    hide Sync, Routing, Face;
    Placement(c);
    SeeEveryMap(c);
    if m in c.owners && c.nodes[c.owners[m]].healthy {
      SimSync(c, c.owners[m], m, order, now);
    }
  }

  lemma {:induction false} RecoverMapsUnseen(c: Cluster, n: string, ms: seq<string>)
    ensures Face(RecoverMaps(c, n, ms)) == Face(c)
    decreases |ms|
  {
    hide Face;
    if ms != [] {
      Unseen(c, RecoverMap(c, n, ms[0]));
      RecoverMapsUnseen(RecoverMap(c, n, ms[0]), n, ms[1..]);
    }
  }

  lemma SimRecover(c: Cluster, n: string, ms: seq<string>)
    ensures Face(RecoverNode(c, n, ms)) == Face(c)
  {
    hide Face, RecoverMaps;
    if n in c.nodes {
      Unseen(c, SetHealthy(c, n, true));
      RecoverMapsUnseen(SetHealthy(c, n, true), n, ms);
    }
  }

  /** A heartbeat that finds no newly failed node. */
  ghost predicate Uneventful(c: Cluster, n: string, reached: bool) {
    n in c.nodes && c.nodes[n].healthy ==> reached
  }

  lemma SimBeat(c: Cluster, n: string, reached: bool, ms: seq<string>)
    requires Uneventful(c, n, reached)
    ensures Face(Beat(c, n, reached, ms)) == Face(c)
  {
    if n in c.nodes {
      Unseen(c, SetHealthy(c, n, reached));
    }
  }
}
