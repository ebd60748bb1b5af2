/** The cluster from its start: the invariants hold in a new cluster, so they hold in all its runs; and a
    player who logs out and in again finds everything as it was. */
module ClusterResults {
  import opened Basics
  import opened WorldModel
  import opened WorldCheckpoint
  import opened WorldPlacement
  import opened WorldLife
  import opened ClusterModel
  import opened ClusterRouting
  import opened PlainModel
  import opened PlainProperties
  import opened PlainDown
  import opened PlainLedger
  import opened PlainPlacement
  import WorldLedger
  import opened ClusterSimulation
  import opened ClusterFailover

  // ----- A new cluster -----

  ghost predicate GoodConfigs(configs: map<string, Config>, newWorld: Config -> State) {
    && configs.Keys == {"green", "cave", "ruins"}
    && (forall m | m in configs :: configs[m].id == m && Built(newWorld(configs[m]), configs[m]))
  }

  ghost predicate GoodStore(st: Store) {
    && (forall u | u in st.users :: st.users[u].username == u)
    && (forall m | m in st.checkpoints :: st.checkpoints[m].version >= 0)
  }

  /** Routing while the maps are being placed: it covers the maps placed so far. */
  ghost predicate PlacedSoFar(c: Cluster, ms: set<string>) {
    && Configured(c) && SingleWriter(c) && WorldsFit(c) && Recorded(c) && c.sessions == map[]
    && c.owners.Keys == ms && c.replicas.Keys == ms
    && (forall m | m in ms :: c.owners[m] in c.nodes && c.replicas[m] in c.nodes && c.replicas[m] != c.owners[m])
  }

  /** Map m has been put on its owner with world s, and nothing else has changed but the replica's snapshots. */
  ghost predicate PutUp(c: Cluster, d: Cluster, m: string, owner: string, replica: string, s: State) {
    && owner in c.nodes && replica in c.nodes && owner != replica
    && d == c.(nodes := d.nodes, owners := c.owners[m := owner], replicas := c.replicas[m := replica])
    && d.nodes.Keys == c.nodes.Keys
    && d.nodes[owner].maps == c.nodes[owner].maps[m := s]
    && (forall n | n in c.nodes && n != owner :: d.nodes[n].maps == c.nodes[n].maps)
    && (forall n, k | n in c.nodes && k in d.nodes[n].snapshots :: d.nodes[n].snapshots[k].version >= 0)
  }

  lemma PlacePutsUp(c: Cluster, m: string, owner: string, replica: string)
    requires Recorded(c) && m in c.configs && owner in c.nodes && replica in c.nodes && owner != replica
    requires m !in c.nodes[owner].maps
    ensures PutUp(c, Place(c, m, owner, replica), m, owner, replica,
                  Restore(c.newWorld(c.configs[m]), LoadCheckpoint(c.store, m)))
  {
    hide Restore, LoadCheckpoint;
    PlaceSnapshots(c, m, owner, replica);
  }

  lemma PlaceSnapshots(c: Cluster, m: string, owner: string, replica: string)
    requires Recorded(c) && m in c.configs && owner in c.nodes && replica in c.nodes && owner != replica
    ensures forall n, k | n in c.nodes && k in Place(c, m, owner, replica).nodes[n].snapshots ::
      Place(c, m, owner, replica).nodes[n].snapshots[k].version >= 0
  {
    var cp := LoadCheckpoint(c.store, m);
    assert cp.version >= 0;
    hide Restore, LoadCheckpoint;
  }

  lemma NotYetUp(c: Cluster, ms: set<string>, m: string, n: string)
    requires PlacedSoFar(c, ms) && m !in ms && n in c.nodes
    ensures m !in c.nodes[n].maps && SingleWriter(c) && WorldsFit(c) && Recorded(c)
  {
    assert !Hosts(c, n, m);
  }

  lemma PutUpWriter(c: Cluster, d: Cluster, m: string, owner: string, replica: string, s: State)
    requires PutUp(c, d, m, owner, replica, s) && SingleWriter(c) && m !in c.owners
    ensures SingleWriter(d) && Hosts(d, owner, m) && WorldOn(d, owner, m) == s
    ensures forall n', m' | Hosts(d, n', m') && m' != m :: Hosts(c, n', m') && WorldOn(d, n', m') == WorldOn(c, n', m')
    ensures forall n', m' | Hosts(c, n', m') :: m' != m && Hosts(d, n', m')
  {
    forall n', m' ensures Hosts(d, n', m') <==> m' in d.owners && d.owners[m'] == n' {
      assert Hosts(c, n', m') <==> m' in c.owners && c.owners[m'] == n';
      assert Hosts(d, n', m') <==> Hosts(c, n', m') || (n' == owner && m' == m);
    }
  }

  lemma PutUpFits(c: Cluster, d: Cluster, m: string, owner: string, replica: string, s: State)
    requires PutUp(c, d, m, owner, replica, s) && SingleWriter(c) && m !in c.owners && WorldsFit(c) && WorldFits(c, m, s)
    ensures WorldsFit(d)
  {
    PutUpWriter(c, d, m, owner, replica, s);
    assert d.configs == c.configs;
    hide PutUp;
    forall n', m' | Hosts(d, n', m') ensures WorldFits(d, m', WorldOn(d, n', m')) {
      assert m' == m ==> n' == owner;
    }
  }

  lemma PlaceNext(c: Cluster, ms: set<string>, m: string, owner: string, replica: string)
    requires PlacedSoFar(c, ms) && m !in ms && m in c.configs
    requires owner in c.nodes && replica in c.nodes && owner != replica
    ensures var d := Place(c, m, owner, replica);
      PlacedSoFar(d, ms + {m}) && d.nodes.Keys == c.nodes.Keys && d.configs == c.configs && d.store == c.store
  {
    hide Built, Restore, Place, SingleWriter, WorldsFit;
    var cp := LoadCheckpoint(c.store, m);
    var s := Restore(c.newWorld(c.configs[m]), cp);
    PlacedFits(c, ms, m, cp);
    NotYetUp(c, ms, m, owner);
    PlacePutsUp(c, m, owner, replica);
    var d := Place(c, m, owner, replica);
    PutUpWriter(c, d, m, owner, replica, s);
    PutUpFits(c, d, m, owner, replica, s);
  }

  lemma PlacedFits(c: Cluster, ms: set<string>, m: string, cp: Checkpoint)
    requires PlacedSoFar(c, ms) && m in c.configs && cp.version >= 0
    ensures WorldFits(c, m, Restore(c.newWorld(c.configs[m]), cp))
  {
    hide Built, PlayersFrom, NpcsFrom, TreasuresFrom;
    BuiltShape(c.newWorld(c.configs[m]), c.configs[m]);
  }

  lemma BlankPlaced(st: Store, configs: map<string, Config>, newWorld: Config -> State)
    requires GoodConfigs(configs, newWorld) && GoodStore(st)
    ensures var c := Blank(st, configs, newWorld);
      PlacedSoFar(c, {}) && c.nodes.Keys == {"node-a", "node-b", "node-c"} && c.configs == configs
      && c.newWorld == newWorld && c.store == st && SeenWorlds(c) == map[]
  {
    hide Built;
  }

  /** Whatever the store holds, a new cluster is routed; hence so is every state it reaches. */
  lemma NewClusterRouting(st: Store, configs: map<string, Config>, newWorld: Config -> State)
    requires GoodConfigs(configs, newWorld) && GoodStore(st)
    ensures Routing(NewCluster(st, configs, newWorld))
  {
    hide Built, Place, Blank, PlacedSoFar, SeenWorlds;
    var c := Blank(st, configs, newWorld);
    BlankPlaced(st, configs, newWorld);
    PlaceNext(c, {}, "green", "node-a", "node-c");
    var c1 := Place(c, "green", "node-a", "node-c");
    PlaceNext(c1, {} + {"green"}, "cave", "node-b", "node-c");
    var c2 := Place(c1, "cave", "node-b", "node-c");
    PlaceNext(c2, {} + {"green"} + {"cave"}, "ruins", "node-a", "node-b");
    AllPlaced(Place(c2, "ruins", "node-a", "node-b"), {} + {"green"} + {"cave"} + {"ruins"});
  }

  lemma AllPlaced(c: Cluster, ms: set<string>)
    requires PlacedSoFar(c, ms) && c.configs.Keys == ms
    ensures Routing(c)
  {
    hide Built;
  }

  lemma AlwaysRouted(st: Store, configs: map<string, Config>, newWorld: Config -> State, es: seq<Event>)
    requires GoodConfigs(configs, newWorld) && GoodStore(st)
    ensures Routing(ClusterModel.Run(NewCluster(st, configs, newWorld), es))
  {
    hide Routing, NewCluster;
    NewClusterRouting(st, configs, newWorld);
    RunRouting(NewCluster(st, configs, newWorld), es);
  }

  // ----- A new cluster over an empty store, as its players see it -----

  lemma PutUpSeen(c: Cluster, d: Cluster, m: string, owner: string, replica: string, s: State)
    requires PutUp(c, d, m, owner, replica, s) && SingleWriter(c) && m !in c.owners
    ensures SeenWorlds(d) == SeenWorlds(c)[m := s]
  {
    PutUpWriter(c, d, m, owner, replica, s);
    assert d.owners == c.owners[m := owner];
    forall k | k in c.owners ensures Hosts(c, c.owners[k], k) {}
    hide PutUp, SingleWriter, SeenWorlds;
    SeenMoved(c, d, m, owner, s);
  }

  lemma PlaceFresh(c: Cluster, ms: set<string>, m: string, owner: string, replica: string)
    requires PlacedSoFar(c, ms) && m !in ms && m in c.configs && c.store.checkpoints == map[]
    requires owner in c.nodes && replica in c.nodes && owner != replica
    ensures var d := Place(c, m, owner, replica);
      SeenWorlds(d) == SeenWorlds(c)[m := c.newWorld(c.configs[m])] && d.newWorld == c.newWorld
  {
    hide Built, Place, SeenWorlds, SingleWriter, WorldsFit, Recorded, PlayersFrom, NpcsFrom, TreasuresFrom;
    NotYetUp(c, ms, m, owner);
    PlacePutsUp(c, m, owner, replica);
    PutUpSeen(c, Place(c, m, owner, replica), m, owner, replica, c.newWorld(c.configs[m]));
  }

  lemma NewClusterFace(st: Store, configs: map<string, Config>, newWorld: Config -> State)
    requires GoodConfigs(configs, newWorld) && GoodStore(st) && st.checkpoints == map[]
    ensures SeenWorlds(NewCluster(st, configs, newWorld)) == map m | m in configs :: newWorld(configs[m])
  {
    hide Built, Place, Blank, PlacedSoFar, SeenWorlds;
    var c := Blank(st, configs, newWorld);
    BlankPlaced(st, configs, newWorld);
    PlaceNext(c, {}, "green", "node-a", "node-c");
    PlaceFresh(c, {}, "green", "node-a", "node-c");
    var c1 := Place(c, "green", "node-a", "node-c");
    PlaceNext(c1, {} + {"green"}, "cave", "node-b", "node-c");
    PlaceFresh(c1, {} + {"green"}, "cave", "node-b", "node-c");
    var c2 := Place(c1, "cave", "node-b", "node-c");
    PlaceFresh(c2, {} + {"green"} + {"cave"}, "ruins", "node-a", "node-b");
  }

  lemma NewClusterGood(st: Store, configs: map<string, Config>, newWorld: Config -> State)
    requires GoodConfigs(configs, newWorld) && st.users == map[] && st.checkpoints == map[]
    ensures Good(Face(NewCluster(st, configs, newWorld)))
  {
    hide Built, Place, SeenWorlds, Calm, AllRobust;
    NewClusterFace(st, configs, newWorld);
    var c := NewCluster(st, configs, newWorld);
    NewClusterPlain(st, configs, newWorld);
    forall m | m in configs
      ensures AllRobust(newWorld(configs[m])) && newWorld(configs[m]).cfg == configs[m]
      ensures newWorld(configs[m]).players == map[] && Calm(newWorld(configs[m]), configs[m])
    {
      NewWorldGood(newWorld(configs[m]), configs[m]);
    }
  }

  lemma NewClusterPlain(st: Store, configs: map<string, Config>, newWorld: Config -> State)
    requires configs.Keys == {"green", "cave", "ruins"}
    ensures var c := NewCluster(st, configs, newWorld);
      c.sessions == map[] && c.store == st && c.configs == configs && c.newWorld == newWorld
  {
    hide Restore;
  }

  lemma NewWorldGood(s: State, cfg: Config)
    requires Built(s, cfg)
    ensures AllRobust(s) && s.cfg == cfg && s.players == map[] && Calm(s, cfg)
  {
    hide Built, Separated;
    BuiltShape(s, cfg);
    BuiltSeparation(s, cfg);
  }

  lemma ReachedGood(st: Store, configs: map<string, Config>, newWorld: Config -> State, es: seq<Event>)
    requires GoodConfigs(configs, newWorld) && st.users == map[] && st.checkpoints == map[]
    requires AllForeseen(NewCluster(st, configs, newWorld), es)
    ensures Good(Face(ClusterModel.Run(NewCluster(st, configs, newWorld), es)))
  {
    hide Routing, NewCluster, AllForeseen, Face, SeeingAll, Good;
    NewClusterRouting(st, configs, newWorld);
    NewClusterGood(st, configs, newWorld);
    var c := NewCluster(st, configs, newWorld);
    RunSimulation(c, es);
    RunGood(Face(c), SeeingAll(c, es));
  }

  /** c is what a run without unplanned failures makes of a new cluster over an empty store. */
  ghost predicate Reachable(c: Cluster) {
    exists st, configs, newWorld, es :: ReachedBy(c, st, configs, newWorld, es)
  }

  ghost predicate ReachedBy(c: Cluster, st: Store, configs: map<string, Config>, newWorld: Config -> State, es: seq<Event>) {
    && GoodConfigs(configs, newWorld) && st.users == map[] && st.checkpoints == map[]
    && AllForeseen(NewCluster(st, configs, newWorld), es)
    && c == ClusterModel.Run(NewCluster(st, configs, newWorld), es)
  }

  lemma ReachableGood(c: Cluster)
    requires Reachable(c)
    ensures Routing(c) && Good(Face(c))
  {
    hide Routing, Face, Good, ReachedBy;
    var st, configs, newWorld, es :| ReachedBy(c, st, configs, newWorld, es);
    ReachedByGood(c, st, configs, newWorld, es);
  }

  lemma ReachedByGood(c: Cluster, st: Store, configs: map<string, Config>, newWorld: Config -> State, es: seq<Event>)
    requires ReachedBy(c, st, configs, newWorld, es)
    ensures Routing(c) && Good(Face(c))
  {
    hide Routing, NewCluster, AllForeseen, Face, Good;
    AlwaysRouted(st, configs, newWorld, es);
    ReachedGood(st, configs, newWorld, es);
  }

  /** Over an empty store, in every run with planned failures only: a user with a session is a player of
      exactly one hosted world, that of the session's map; a user without one is in none; and on maps with
      more open cells than registered users and NPCs, no two live units ever share a cell. */
  lemma AlwaysGood(st: Store, configs: map<string, Config>, newWorld: Config -> State, es: seq<Event>)
    requires GoodConfigs(configs, newWorld) && st.users == map[] && st.checkpoints == map[]
    requires AllForeseen(NewCluster(st, configs, newWorld), es)
    ensures var p := Face(ClusterModel.Run(NewCluster(st, configs, newWorld), es));
      Located(p) && (Room(p) ==> Peace(p))
  {
    hide Routing, NewCluster, AllForeseen, Face, Located, SoundUsers, SoundWorlds, Room, Peace;
    ReachedGood(st, configs, newWorld, es);
  }

  // ----- Logging out and in again -----

  /** A live player put back where it stood is the player it was exactly if it had a potion left. */
  lemma ReentryPlayer(s: State, u: string, profile: Profile)
    requires Separated(s) && u in s.players && s.players[u].alive && Robust(s.players[u])
    requires s.players[u].respawnAt.None?
    requires profile == ProfileOf(s, u).(passwordHash := profile.passwordHash)
    ensures Entrant(RemovePlayer(s, u), profile) == s.players[u] <==> s.players[u].potions != 0
    ensures Entrant(RemovePlayer(s, u), profile) == s.players[u].(potions := ValueOr(s.players[u].potions, MAX_POTIONS))
    ensures AddPlayer(RemovePlayer(s, u), profile).drawn == s.drawn
  {
    hide BestSpawn;
    var r := RemovePlayer(s, u);
    var c := s.players[u].at;
    assert LiveAt(s, PlayerPiece(u), c);
    assert Walkable(r, c, "") by {
      StandingCellIsFree(s, u);
    }
  }

  lemma StandingCellIsFree(s: State, u: string)
    requires Separated(s) && u in s.players && s.players[u].alive
    ensures Walkable(RemovePlayer(s, u), s.players[u].at, "")
  {
    var r := RemovePlayer(s, u);
    var c := s.players[u].at;
    assert LiveAt(s, PlayerPiece(u), c);
    forall v | v in r.players && r.players[v].alive ensures r.players[v].at != c {
      assert v != u && LiveAt(s, PlayerPiece(v), s.players[v].at);
    }
    forall id | id in r.npcs && r.npcs[id].alive ensures r.npcs[id].at != c {
      assert LiveAt(s, NpcPiece(id), s.npcs[id].at);
    }
  }

  /** The world after the player left and came back: the same but for the version and, if the player had
      none, new potions. */
  ghost function Returned(s: State, u: string): State
    requires u in s.players
  {
    var p := s.players[u];
    s.(players := s.players[u := p.(potions := ValueOr(p.potions, MAX_POTIONS))], version := s.version + 2)
  }

  lemma ReentryWorld(s: State, u: string, profile: Profile)
    requires Separated(s) && u in s.players && s.players[u].alive && Robust(s.players[u])
    requires s.players[u].respawnAt.None?
    requires profile == ProfileOf(s, u).(passwordHash := profile.passwordHash)
    ensures AddPlayer(RemovePlayer(s, u), profile) == Returned(s, u)
  {
    hide Entrant, SafeCell, SafeCellDrawn;
    ReentryPlayer(s, u, profile);
    AddIsEntrant(RemovePlayer(s, u), profile);
    var t := AddPlayer(RemovePlayer(s, u), profile);
    assert t.players == Returned(s, u).players;
    AddKeepsRest(RemovePlayer(s, u), profile);
  }

  lemma AddKeepsRest(s: State, p: Profile)
    ensures var t := AddPlayer(s, p);
      t == s.(players := t.players, version := s.version + 1, drawn := t.drawn)
  {
    hide Entrant, SafeCell, SafeCellDrawn;
  }

  /** A player in good standing: seated, alive, sound, its unit standing apart. */
  ghost predicate Standing(p: Plain, u: string) {
    && On(p, u) && p.at[u] in p.configs && p.worlds[p.at[u]].cfg.id == p.at[u]
    && Separated(p.worlds[p.at[u]])
    && p.worlds[p.at[u]].players[u].alive && p.worlds[p.at[u]].players[u].respawnAt.None?
    && Robust(p.worlds[p.at[u]].players[u])
  }

  /** Logging out and straight in again leaves the player, its map and all other players and units as they
      were, apart from the revivals due when the map is shown; potions come back only to who had none. */
  lemma LogoutLogin(p: Plain, u: string, pw: string, order: seq<string>, now: int)
    requires Standing(p, u) && AuthenticP(p, u, pw)
    ensures var q := LoginP(LogoutP(p, u), u, pw, order, now);
      && q.at == p.at
      && q.worlds == p.worlds[p.at[u] := RefreshAll(Returned(p.worlds[p.at[u]], u), order, now)]
      && AuthenticP(q, u, pw)
  {
    hide RemovePlayer, AddPlayer, RefreshAll, Refresh, Separated, Robust;
    var m := p.at[u];
    var s := p.worlds[m];
    var p1 := LogoutP(p, u);
    assert p1.worlds == p.worlds[m := RemovePlayer(s, u)] && p1.at == p.at - {u};
    var profile := p1.users[u];
    assert profile == ProfileOf(s, u).(passwordHash := profile.passwordHash);
    assert HomeMap(p1, u) == m;
    ReentryWorld(s, u, profile);
    var p2 := EnterP(p1, u, m, profile);
    assert p2.at == p.at;
    assert p2.worlds == p.worlds[m := Returned(s, u)];
    NotDue(Returned(s, u), u, now);
    var p3 := PersistP(p2, u, now);
    assert p3.worlds == p2.worlds && p3.at == p2.at;
    assert p3.users[u].passwordHash == p.users[u].passwordHash;
  }

  lemma NotDue(s: State, u: string, now: int)
    requires u in s.players && s.players[u].alive
    ensures Refresh(s, u, now) == s
  {
  }

  /** The player's own record survives the refresh of the map, whoever else is revived. */
  lemma {:induction false} AliveUntouched(s: State, order: seq<string>, now: int, u: string)
    requires u in s.players && s.players[u].alive
    ensures RefreshAll(s, order, now).players[u] == s.players[u]
    decreases |order|
  {
    hide SafeCell, SafeCellDrawn;
    if order != [] {
      AliveUntouched(Refresh(s, order[0], now), order[1..], now, u);
    }
  }

  /** For the player itself, logging out and in is the identity exactly if it has a potion left. */
  lemma LogoutLoginIdentity(p: Plain, u: string, pw: string, order: seq<string>, now: int)
    requires Standing(p, u) && AuthenticP(p, u, pw)
    ensures var q := LoginP(LogoutP(p, u), u, pw, order, now);
      On(q, u) && q.at[u] == p.at[u]
      && (q.worlds[q.at[u]].players[u] == p.worlds[p.at[u]].players[u] <==> p.worlds[p.at[u]].players[u].potions != 0)
  {
    hide RefreshAll, Separated, Robust, LoginP, LogoutP;
    LogoutLogin(p, u, pw, order, now);
    var s := Returned(p.worlds[p.at[u]], u);
    AliveUntouched(s, order, now, u);
    RefreshAllSteady(s, order, now);
  }

  /** And a player on the ground comes back on the ground, with no revival ever to come. */
  lemma LogoutLoginDown(s: State, u: string, profile: Profile)
    requires u in s.players && !s.players[u].alive && s.players[u].hp >= 0
    requires profile == ProfileOf(s, u).(passwordHash := profile.passwordHash)
    ensures Down(Entrant(RemovePlayer(s, u), profile))
    ensures forall now :: !Due(AddPlayer(RemovePlayer(s, u), profile), u, now)
  {
    hide SafeCell, SafeCellDrawn;
  }

  // ----- The same for the cluster itself, in every state its runs reach -----

  ghost predicate AliveInSession(c: Cluster, u: string) {
    Playing(c, u) && WorldOn(c, c.sessions[u].nodeId, c.sessions[u].mapId).players[u].alive
  }

  /** The world a user's session points to. */
  ghost function SessionWorld(c: Cluster, u: string): State
    requires Playing(c, u)
  {
    WorldOn(c, c.sessions[u].nodeId, c.sessions[u].mapId)
  }

  /** The units of the user's map stand apart, be it that all maps have room. */
  ghost predicate Apart(c: Cluster, u: string)
    requires Playing(c, u)
  {
    Separated(SessionWorld(c, u)) || Room(Face(c))
  }

  lemma GoodStands(c: Cluster, u: string)
    requires Routing(c) && Good(Face(c)) && AliveInSession(c, u) && Apart(c, u)
    ensures Standing(Face(c), u) && Face(c).worlds[Face(c).at[u]] == SessionWorld(c, u)
  {
    hide OpenCells, SeenWorlds, Separated, Robust, SoundUsers, Built, SingleWriter, SessionsRouted, Recorded, Assigned;
    SeePlaying(c, u);
    var p := Face(c);
    assert p.configs == c.configs;
    var m := p.at[u];
    assert AllRobust(p.worlds[m]);
    if Room(p) { assert Calm(p.worlds[m], p.configs[m]); }
    RobustStands(p.worlds[m].players[u]);
  }

  lemma RobustStands(p: Player)
    requires Robust(p) && p.alive
    ensures p.respawnAt.None?
  {
  }

  /** In every reachable state a live user with a session stands as the theorems on logging out and in
      require, on a map whose units stand apart or while all maps have room. */
  lemma LiveUserStands(c: Cluster, u: string)
    requires Reachable(c) && AliveInSession(c, u) && Apart(c, u)
    ensures Standing(Face(c), u)
  {
    hide Reachable, Routing, Face, Good, Standing, AliveInSession, Apart;
    ReachableGood(c);
    GoodStands(c, u);
  }

  /** What the cluster is after a user left and came back: the same sessions, owners and replicas, every
      other world untouched, the user's own world as LogoutLogin says. */
  ghost predicate BackAgain(c: Cluster, d: Cluster, u: string, order: seq<string>, now: int)
    requires Playing(c, u)
  {
    && Routing(d) && SamePlacement(c, d) && d.sessions == c.sessions && Playing(d, u)
    && SessionWorld(d, u) == RefreshAll(Returned(SessionWorld(c, u), u), order, now)
    && (forall m | m in c.configs && m != c.sessions[u].mapId ::
          Hosts(c, c.owners[m], m) && Hosts(d, c.owners[m], m) && WorldOn(d, c.owners[m], m) == WorldOn(c, c.owners[m], m))
  }

  lemma ClusterLogoutLogin(c: Cluster, u: string, pw: string, order: seq<string>, now: int)
    requires Routing(c) && Playing(c, u) && Standing(Face(c), u) && Authentic(c.store, u, pw)
    ensures BackAgain(c, Login(Logout(c, u), u, pw, order, now), u, order, now)
  {
    hide Routing, Login, Logout, Face, Standing, LoginP, LogoutP, RefreshAll, Returned;
    var c1 := Logout(c, u);
    var d := Login(c1, u, pw, order, now);
    LogoutRouting(c, u);
    LoginRouting(c1, u, pw, order, now);
    SimLogout(c, u);
    SimLogin(c1, u, pw, order, now);
    SeeAuthentic(c, u, pw);
    SeePlaying(c, u);
    LogoutLogin(Face(c), u, pw, order, now);
    FacesBack(c, d, u, order, now);
  }

  lemma FacesBack(c: Cluster, d: Cluster, u: string, order: seq<string>, now: int)
    requires Routing(c) && Routing(d) && SamePlacement(c, d) && Playing(c, u) && On(Face(c), u)
    requires Face(d).at == Face(c).at
    requires var m := Face(c).at[u];
      Face(d).worlds == Face(c).worlds[m := RefreshAll(Returned(Face(c).worlds[m], u), order, now)]
    ensures BackAgain(c, d, u, order, now)
  {
    hide Routing, SeenWorlds, RefreshAll;
    SeePlaying(c, u);
    SameSeating(c, d);
    SeePlaying(d, u);
    Placement(c);
    Placement(d);
    SeeEveryMap(c);
    SeeEveryMap(d);
  }

  lemma SameSeating(c: Cluster, d: Cluster)
    requires Routing(c) && Routing(d) && d.owners == c.owners && SeenAt(d.sessions) == SeenAt(c.sessions)
    ensures d.sessions == c.sessions
  {
    hide Built, SingleWriter, WorldsFit, Recorded;
    assert d.sessions.Keys == SeenAt(d.sessions).Keys == SeenAt(c.sessions).Keys == c.sessions.Keys;
    forall u | u in c.sessions ensures d.sessions[u] == c.sessions[u] {
      assert SeenAt(d.sessions)[u] == SeenAt(c.sessions)[u];
    }
  }

  /** In every reachable state: a live user who logs out and straight in again is back on the same node and
      map, finds everybody as they were (but for revivals due on display), and is itself the same player
      exactly if it had a potion left. */
  lemma ReturnInEveryRun(c: Cluster, u: string, pw: string, order: seq<string>, now: int)
    requires Reachable(c) && AliveInSession(c, u) && Apart(c, u) && Authentic(c.store, u, pw)
    ensures var d := Login(Logout(c, u), u, pw, order, now);
      BackAgain(c, d, u, order, now)
      && (SessionWorld(d, u).players[u] == SessionWorld(c, u).players[u] <==> SessionWorld(c, u).players[u].potions != 0)
  {
    hide Reachable, Routing, Face, Apart, Standing, Login, Logout, RefreshAll;
    ReachableGood(c);
    LiveUserStands(c, u);
    ClusterLogoutLogin(c, u, pw, order, now);
    AliveUntouched(Returned(SessionWorld(c, u), u), order, now, u);
  }

  /** In every run without unplanned failures: a user whose player lies down with no revival pending, or was
      saved so, is never alive again, wherever it goes and however often it comes back. */
  lemma GroundedForever(c: Cluster, es: seq<Event>, u: string)
    requires Reachable(c) && AllForeseen(c, es) && Grounded(Face(c), u)
    ensures Grounded(Face(ClusterModel.Run(c, es)), u) && !AliveInSession(ClusterModel.Run(c, es), u)
  {
    hide Reachable, Routing, Face, Good, AllForeseen, SeeingAll, Grounded;
    ReachableGood(c);
    RunSimulation(c, es);
    RunGrounded(Face(c), SeeingAll(c, es), u);
    RunRouting(c, es);
    GroundedIsDown(ClusterModel.Run(c, es), u);
  }

  lemma GroundedIsDown(c: Cluster, u: string)
    requires Routing(c) && Grounded(Face(c), u)
    ensures !AliveInSession(c, u)
  {
    hide Routing, SeenWorlds;
    SeePlaying(c, u);
  }

  /** The log-out of a player who is not alive does that, though its revival may be pending. */
  lemma LogoutGroundsUser(c: Cluster, u: string)
    requires Reachable(c) && Playing(c, u)
    ensures Grounded(Face(Logout(c, u)), u) <==> !AliveInSession(c, u)
  {
    hide Reachable, Routing, Good, SeenWorlds, Logout, LogoutP, Grounded;
    ReachableGood(c);
    SeePlaying(c, u);
    SimLogout(c, u);
    LogoutGrounds(Face(c), u);
  }

  // ----- Treasure -----

  /** In every run without unplanned failures the treasure of all maps and of all saved profiles together
      changes by what commands, boss strikes and background steps make and destroy, and by nothing else. */
  lemma FortuneInEveryRun(c: Cluster, es: seq<Event>)
    requires Reachable(c) && AllForeseen(c, es)
    ensures Fortune(Face(ClusterModel.Run(c, es))) == Fortune(Face(c)) + GainAll(Face(c), SeeingAll(c, es))
  {
    hide Reachable, Routing, Face, Good, AllForeseen, SeeingAll, Fortune;
    ReachableGood(c);
    RunSimulation(c, es);
    RunFortune(Face(c), SeeingAll(c, es));
  }

  // ----- Units keep apart, counted placement by placement -----

  lemma NewClusterApart(st: Store, configs: map<string, Config>, newWorld: Config -> State)
    requires GoodConfigs(configs, newWorld) && st.users == map[] && st.checkpoints == map[]
    ensures AllApart(Face(NewCluster(st, configs, newWorld)))
  {
    hide Built, Place, SeenWorlds, Separated, NewCluster;
    NewClusterFace(st, configs, newWorld);
    forall m | m in configs ensures Separated(newWorld(configs[m])) {
      BuiltSeparation(newWorld(configs[m]), configs[m]);
    }
  }

  /** In every run without unplanned failures, on maps of any size: while each player to be placed finds a
      cell at that moment, no two live units share a cell. */
  lemma ApartInEveryRun(st: Store, configs: map<string, Config>, newWorld: Config -> State, es: seq<Event>)
    requires GoodConfigs(configs, newWorld) && st.users == map[] && st.checkpoints == map[]
    requires AllForeseen(NewCluster(st, configs, newWorld), es)
    requires AllFit(Face(NewCluster(st, configs, newWorld)), SeeingAll(NewCluster(st, configs, newWorld), es))
    ensures AllApart(Face(ClusterModel.Run(NewCluster(st, configs, newWorld), es)))
  {
    hide Routing, Good, NewCluster, AllForeseen, Face, SeeingAll, AllFit, AllApart;
    NewClusterRouting(st, configs, newWorld);
    NewClusterGood(st, configs, newWorld);
    NewClusterApart(st, configs, newWorld);
    var c := NewCluster(st, configs, newWorld);
    RunSimulation(c, es);
    RunApart(Face(c), SeeingAll(c, es));
  }

  // ----- What a planned failover does to the next drop -----

  /** After a planned failure a drop on a cell without treasure, in a map that moved, destroys the treasure
      whose number is one more than the number of treasures there, if there is one; otherwise nothing. */
  lemma FailoverThenDrop(c: Cluster, n: string, orders: string -> seq<string>, ms: seq<string>, now: int, m: string,
                         cell: Cell, value: int, kind: string)
    requires Routing(c) && n in c.nodes && m in Leaving(c, n, ms)
    ensures m in Face(c).worlds && m in Face(FailNode(c, n, orders, ms, now)).worlds
    ensures var w := Face(c).worlds[m];
      var r := Face(FailNode(c, n, orders, ms, now)).worlds[m];
      var id := TreasureId(w.cfg.id, |w.treasures| + 1);
      InBounds(r.terrain, cell) && !TreasureOn(r, cell) ==>
        WorldLedger.Wealth(DropTreasure(r, cell, value, kind))
        == WorldLedger.Wealth(w) + value - if id in w.treasures then w.treasures[id].value else 0
  {
    hide Routing, FailNode, Face, Owned, DropTreasure, TreasureId, TreasureOn, RefreshAll, WorldLedger.Wealth, Restart;
    LeavingSeen(c, n, ms, m);
    PlannedFailure(c, n, orders, ms, now);
    var w := Face(c).worlds[m];
    var drawn := Restart(c.configs, c.newWorld)(m);
    var a := RefreshAll(w, orders(m), now);
    var r := Normalise(a, drawn);
    assert Face(FailNode(c, n, orders, ms, now)).worlds[m] == r;
    WorldLedger.RefreshAllBalance(w, orders(m), now);
    NormaliseWealth(a, drawn);
    WorldLedger.DropAccount(r, cell, value, kind);
  }

  lemma LeavingSeen(c: Cluster, n: string, ms: seq<string>, m: string)
    requires Routing(c) && m in Leaving(c, n, ms)
    ensures m in Face(c).worlds && m in Owned(c, n)
  {
    hide Built, SingleWriter, SessionsRouted, Recorded, Assigned, SeenWorlds;
    SeeEveryMap(c);
    Placement(c);
  }
}
