/** The cluster of Lab 3 as a value, and each of its operations as a function of the old cluster.
    Every operation is one atomic step; the order in which a map is listed is an argument. */
module ClusterModel {
  import opened Basics
  import opened WorldModel
  import opened WorldCheckpoint
  import opened BossModel

  const DEFAULT_MAP := "green"
  const BOSS_RANGE := 4

  datatype Session = Session(mapId: string, nodeId: string)

  datatype Node = Node(healthy: bool, maps: map<string, State>, snapshots: map<string, Checkpoint>)

  // Checkpoint files that do not exist read as the empty checkpoint.
  datatype Store = Store(users: map<string, Profile>, checkpoints: map<string, Checkpoint>, hash: string -> string)

  // `newWorld` gives the world that NewWorld builds for a configuration.
  datatype Cluster = Cluster(store: Store, nodes: map<string, Node>, sessions: map<string, Session>,
                             owners: map<string, string>, replicas: map<string, string>,
                             configs: map<string, Config>, boss: Boss, newWorld: Config -> State)

  const NO_CHECKPOINT := Checkpoint("", "", 0, [], [], [], [])

  // ----- The store -----

  function NewProfile(u: string, hash: string): Profile {
    Profile(u, hash, DEFAULT_MAP, "", Cell(4, 4), INIT_HP, INIT_HP, INIT_ATTACK, MAX_POTIONS, 0, 0, 0, 0, true)
  }

  function RegisterUser(st: Store, u: string, pw: string): Store {
    if u == "" || pw == "" || u in st.users then st
    else st.(users := st.users[u := NewProfile(u, st.hash(pw))])
  }

  predicate Authentic(st: Store, u: string, pw: string) {
    u != "" && pw != "" && u in st.users && st.users[u].passwordHash == st.hash(pw)
  }

  /** A profile saved without a password hash keeps the stored one. */
  function SaveProfile(st: Store, p: Profile): Store {
    var kept := if p.username in st.users && p.passwordHash == "" then p.(passwordHash := st.users[p.username].passwordHash)
                else p;
    st.(users := st.users[p.username := kept])
  }

  function LoadCheckpoint(st: Store, m: string): Checkpoint {
    if m in st.checkpoints then st.checkpoints[m] else NO_CHECKPOINT
  }

  // ----- Worlds on nodes -----

  predicate Hosts(c: Cluster, n: string, m: string) {
    n in c.nodes && m in c.nodes[n].maps
  }

  function WorldOn(c: Cluster, n: string, m: string): State
    requires Hosts(c, n, m)
  {
    c.nodes[n].maps[m]
  }

  function SetWorld(c: Cluster, n: string, m: string, s: State): Cluster
    requires n in c.nodes
  {
    c.(nodes := c.nodes[n := c.nodes[n].(maps := c.nodes[n].maps[m := s])])
  }

  function StoreReplica(node: Node, cp: Checkpoint): Node {
    node.(snapshots := node.snapshots[cp.mapId := cp])
  }

  function Saved(c: Cluster, p: Profile): Cluster {
    c.(store := SaveProfile(c.store, p))
  }

  /** The user's profile as the node of its session shows it, to be saved under that map and node. */
  ghost function Placed(s: State, u: string, ses: Session): Profile
    requires u in s.players
  {
    ProfileOf(s, u).(lastMap := ses.mapId, lastNode := ses.nodeId)
  }

  ghost predicate Playing(c: Cluster, u: string) {
    u in c.sessions && Hosts(c, c.sessions[u].nodeId, c.sessions[u].mapId)
    && u in WorldOn(c, c.sessions[u].nodeId, c.sessions[u].mapId).players
  }

  ghost function Persist(c: Cluster, u: string, now: int): Cluster {
    if !Playing(c, u) then c
    else
      var ses := c.sessions[u];
      var s := Refresh(WorldOn(c, ses.nodeId, ses.mapId), u, now);
      Saved(SetWorld(c, ses.nodeId, ses.mapId, s), Placed(s, u, ses))
  }

  /** SnapshotFor: showing a map refreshes all its players. */
  ghost function Look(c: Cluster, u: string, order: seq<string>, now: int): Cluster {
    if u !in c.sessions || !Hosts(c, c.sessions[u].nodeId, c.sessions[u].mapId) then c
    else
      var ses := c.sessions[u];
      SetWorld(c, ses.nodeId, ses.mapId, RefreshAll(WorldOn(c, ses.nodeId, ses.mapId), order, now))
  }

  // ----- Sessions -----

  /** The player is brought into map m on node n, and its session now points there. */
  ghost function Enter(c: Cluster, u: string, m: string, n: string, profile: Profile): Cluster {
    var c1 := if Hosts(c, n, m) then SetWorld(c, n, m, AddPlayer(WorldOn(c, n, m), profile)) else c;
    c1.(sessions := c1.sessions[u := Session(m, n)])
  }

  ghost function Login(c: Cluster, u: string, pw: string, order: seq<string>, now: int): Cluster {
    if !Authentic(c.store, u, pw) || u in c.sessions then c
    else
      var profile := c.store.users[u];
      var m := if profile.lastMap in c.configs then profile.lastMap else DEFAULT_MAP;
      var n := if m in c.owners then c.owners[m] else "";
      if n !in c.nodes then c
      else
        Look(Persist(Enter(c, u, m, n, profile), u, now), u, order, now)
  }

  ghost function Logout(c: Cluster, u: string): Cluster {
    if u !in c.sessions then c
    else
      var ses := c.sessions[u];
      var c1 := c.(sessions := c.sessions - {u});
      if !Playing(c, u) then c1
      else
        var s := WorldOn(c, ses.nodeId, ses.mapId);
        Saved(SetWorld(c1, ses.nodeId, ses.mapId, RemovePlayer(s, u)), Placed(s, u, ses))
  }

  ghost function SwitchMap(c: Cluster, u: string, target: string, order: seq<string>, now: int): Cluster {
    if u !in c.sessions || target !in c.configs then c
    else
      var ses := c.sessions[u];
      var n := if target in c.owners then c.owners[target] else "";
      if ses.mapId == target then Look(c, u, order, now)
      else if n !in c.nodes || !Playing(c, u) then c
      else
        var s := Refresh(WorldOn(c, ses.nodeId, ses.mapId), u, now);
        if !s.players[u].alive then Look(SetWorld(c, ses.nodeId, ses.mapId, s), u, order, now)
        else
          var c1 := SetWorld(c, ses.nodeId, ses.mapId, RemovePlayer(s, u));
          var profile := ProfileOf(s, u).(lastMap := target, lastNode := n, at := c.configs[target].spawn);
          Look(Persist(Saved(Enter(c1, u, target, n, profile), profile), u, now), u, order, now)
  }

  // ----- Commands -----

  datatype Command = MoveCmd(dir: string) | HealCmd | BuyCmd(item: string) | AttackCmd

  ghost function Obey(s: State, u: string, cmd: Command, now: int): State {
    match cmd
    case MoveCmd(dir) => WorldModel.Move(s, u, dir, now)
    case HealCmd => Heal(s, u, now)
    case BuyCmd(item) => Buy(s, u, item, now)
    case AttackCmd => Attack(s, u, now)
  }

  /** After an attack on a player, the victim's profile is saved before the attacker's. */
  ghost function SaveVictim(c: Cluster, ses: Session, victim: Option<string>, now: int): Cluster {
    if victim.None? || !Hosts(c, ses.nodeId, ses.mapId) || victim.value !in WorldOn(c, ses.nodeId, ses.mapId).players then c
    else
      var s := Refresh(WorldOn(c, ses.nodeId, ses.mapId), victim.value, now);
      Persist(Saved(SetWorld(c, ses.nodeId, ses.mapId, s), Placed(s, victim.value, ses)), victim.value, now)
  }

  ghost function Act(c: Cluster, u: string, cmd: Command, order: seq<string>, now: int): Cluster {
    if !Playing(c, u) then c
    else
      var ses := c.sessions[u];
      var before := WorldOn(c, ses.nodeId, ses.mapId);
      var after := Obey(before, u, cmd, now);
      var victim := if cmd.AttackCmd? then AttackVictim(before, u, now) else None;
      var c1 := SaveVictim(SetWorld(c, ses.nodeId, ses.mapId, after), ses, victim, now);
      if u !in after.players then c1
      else Look(Persist(Saved(c1, Placed(after, u, ses)), u, now), u, order, now)
  }

  // ----- The shared boss -----

  /** Pays one contributor if it is online and still on its map. */
  ghost function PayOne(c: Cluster, u: string, r: BossModel.Reward): Cluster {
    if !Playing(c, u) then c
    else
      var ses := c.sessions[u];
      var s := WorldModel.Reward(WorldOn(c, ses.nodeId, ses.mapId), u, r.treasure, r.victories);
      if u !in s.players then c
      else Saved(SetWorld(c, ses.nodeId, ses.mapId, s), Placed(s, u, ses))
  }

  ghost function PayAll(c: Cluster, payees: seq<string>, rewards: map<string, BossModel.Reward>): Cluster
    decreases |payees|
  {
    if payees == [] then c
    else if payees[0] !in rewards then PayAll(c, payees[1..], rewards)
    else PayAll(PayOne(c, payees[0], rewards[payees[0]]), payees[1..], rewards)
  }

  ghost function AttackBoss(c: Cluster, u: string, payees: seq<string>, order: seq<string>, now: int): Cluster {
    if !Playing(c, u) then c
    else
      var ses := c.sessions[u];
      var s := Refresh(WorldOn(c, ses.nodeId, ses.mapId), u, now);
      var c1 := SetWorld(c, ses.nodeId, ses.mapId, s);
      var p := s.players[u];
      if ses.mapId !in c.configs then c1
      else if Distance(p.at, c.configs[ses.mapId].boss) > BOSS_RANGE || !c.boss.alive then Look(c1, u, order, now)
      else
        var damage := Damage(p.attack, p.treasures);
        var c2 := c1.(boss := Struck(c1.boss, u, damage, now));
        var c3 := PayAll(c2, payees, Rewards(c1.boss, u, damage, c1.sessions.Keys));
        Look(Persist(c3, u, now), u, order, now)
  }

  // ----- Checkpoints and failures -----

  /** Captures map m on node n, stores the checkpoint and hands it to the map's replica. */
  ghost function Sync(c: Cluster, n: string, m: string, order: seq<string>, now: int): (r: Cluster)
    ensures r.nodes.Keys == c.nodes.Keys
  {
    if !Hosts(c, n, m) then c
    else
      var s := RefreshAll(WorldOn(c, n, m), order, now);
      var cp := Captured(s, n, now);
      var c1 := SetWorld(c, n, m, s);
      var c2 := c1.(store := c1.store.(checkpoints := c1.store.checkpoints[cp.mapId := cp]));
      if m in c2.replicas && c2.replicas[m] in c2.nodes then
        c2.(nodes := c2.nodes[c2.replicas[m] := StoreReplica(c2.nodes[c2.replicas[m]], cp)])
      else c2
  }

  /** One map's turn in a tick of the checkpoint loop. */
  ghost function Tick(c: Cluster, m: string, order: seq<string>, now: int): Cluster {
    if m !in c.owners || c.owners[m] !in c.nodes || !c.nodes[c.owners[m]].healthy then c
    else Sync(c, c.owners[m], m, order, now)
  }

  /** The least healthy node other than the owner, or "" if there is none. */
  ghost function PickReplica(c: Cluster, owner: string): string {
    StrLessStrictTotal();
    var fit := set n | n in c.nodes && n != owner && c.nodes[n].healthy;
    if fit == {} then ""
    else
      LeastExists(fit, StrLess);
      var n :| Least(n, fit, StrLess);
      n
  }

  function Promoted(node: Node, m: string, built: State): Node
    requires m in node.snapshots
  {
    node.(maps := node.maps[m := Restore(built, node.snapshots[m])], snapshots := node.snapshots - {m})
  }

  /** The replica's node after it was given the stored checkpoint, if it had no snapshot of the map. */
  function Supplied(c: Cluster, r: string, m: string): Node
    requires r in c.nodes
  {
    if m in c.nodes[r].snapshots then c.nodes[r] else StoreReplica(c.nodes[r], LoadCheckpoint(c.store, m))
  }

  function Reroute(sessions: map<string, Session>, m: string, n: string): map<string, Session> {
    map u | u in sessions :: if sessions[u].mapId == m then sessions[u].(nodeId := n) else sessions[u]
  }

  /** One map's turn when node n has failed: its replica takes it over. */
  ghost function FailOverMap(c: Cluster, n: string, m: string): Cluster {
    if m !in c.owners || c.owners[m] != n || m !in c.configs then c
    else
      var r := if m in c.replicas then c.replicas[m] else "";
      if r !in c.nodes then c
      else
        var ready := Supplied(c, r, m);
        if m !in ready.snapshots then c.(nodes := c.nodes[r := ready])
        else
          var c1 := c.(nodes := c.nodes[r := Promoted(ready, m, c.newWorld(c.configs[m]))], owners := c.owners[m := r]);
          var c2 := c1.(replicas := c1.replicas[m := PickReplica(c1, r)], sessions := Reroute(c1.sessions, m, r));
          if n in c2.nodes then c2.(nodes := c2.nodes[n := c2.nodes[n].(maps := c2.nodes[n].maps - {m})]) else c2
  }

  ghost function FailOver(c: Cluster, n: string, ms: seq<string>): Cluster
    decreases |ms|
  {
    if ms == [] then c else FailOver(FailOverMap(c, n, ms[0]), n, ms[1..])
  }

  function SetHealthy(c: Cluster, n: string, healthy: bool): Cluster
    requires n in c.nodes
  {
    c.(nodes := c.nodes[n := c.nodes[n].(healthy := healthy)])
  }

  /** One node's turn in a tick of the heartbeat loop; `reached` is the outcome of the ping. */
  ghost function Beat(c: Cluster, n: string, reached: bool, ms: seq<string>): Cluster {
    if n !in c.nodes then c
    else if c.nodes[n].healthy && !reached then FailOver(SetHealthy(c, n, reached), n, ms)
    else SetHealthy(c, n, reached)
  }

  ghost function SyncAll(c: Cluster, n: string, hosted: seq<string>, orders: string -> seq<string>, now: int): (r: Cluster)
    ensures r.nodes.Keys == c.nodes.Keys
    decreases |hosted|
  {
    if hosted == [] then c else SyncAll(Sync(c, n, hosted[0], orders(hosted[0]), now), n, hosted[1..], orders, now)
  }

  /** The planned failure of a node: all its maps are captured, then its replicas take over. */
  ghost function FailNode(c: Cluster, n: string, orders: string -> seq<string>, ms: seq<string>, now: int): Cluster {
    if n !in c.nodes then c
    else
      var hosted := SortedNames(c.nodes[n].maps.Keys);
      FailOver(SetHealthy(SyncAll(c, n, hosted, orders, now), n, false), n, ms)
  }

  ghost function RecoverMap(c: Cluster, n: string, m: string): Cluster {
    if n !in c.nodes || m !in c.owners || c.owners[m] == n then c
    else c.(nodes := c.nodes[n := StoreReplica(c.nodes[n], LoadCheckpoint(c.store, m))], replicas := c.replicas[m := n])
  }

  ghost function RecoverMaps(c: Cluster, n: string, ms: seq<string>): Cluster
    decreases |ms|
  {
    if ms == [] then c else RecoverMaps(RecoverMap(c, n, ms[0]), n, ms[1..])
  }

  ghost function RecoverNode(c: Cluster, n: string, ms: seq<string>): Cluster {
    if n !in c.nodes then c else RecoverMaps(SetHealthy(c, n, true), n, ms)
  }

  /** One map's turn in a tick of the background loop, which only visits healthy nodes. */
  ghost function Live(c: Cluster, n: string, m: string, order: seq<string>, now: int): Cluster {
    if !Hosts(c, n, m) || !c.nodes[n].healthy then c
    else SetWorld(c, n, m, Background(WorldOn(c, n, m), order, now))
  }

  // ----- A new cluster -----

  /** The maps are placed one by one; each owner builds its world and loads the stored checkpoint,
      which the replica receives too. */
  ghost function Place(c: Cluster, m: string, owner: string, replica: string): (d: Cluster)
    requires owner in c.nodes && replica in c.nodes && m in c.configs
    ensures d.nodes.Keys == c.nodes.Keys && d.configs == c.configs && d.newWorld == c.newWorld && d.store == c.store
    ensures d.boss == c.boss
  {
    var cp := LoadCheckpoint(c.store, m);
    var s := if m in c.nodes[owner].maps then c.nodes[owner].maps[m] else c.newWorld(c.configs[m]);
    var c1 := SetWorld(c.(owners := c.owners[m := owner], replicas := c.replicas[m := replica]), owner, m, Restore(s, cp));
    c1.(nodes := c1.nodes[replica := StoreReplica(c1.nodes[replica], cp)])
  }

  /** Three nodes with nothing on them. */
  ghost function Blank(store: Store, configs: map<string, Config>, newWorld: Config -> State): Cluster {
    var empty := Node(true, map[], map[]);
    Cluster(store, map["node-a" := empty, "node-b" := empty, "node-c" := empty], map[], map[], map[],
            configs, NewBoss(), newWorld)
  }

  ghost function NewCluster(store: Store, configs: map<string, Config>, newWorld: Config -> State): Cluster
    requires configs.Keys == {"green", "cave", "ruins"}
  {
    var c := Blank(store, configs, newWorld);
    Place(Place(Place(c, "green", "node-a", "node-c"), "cave", "node-b", "node-c"), "ruins", "node-a", "node-b")
  }

  // ----- Runs -----

  datatype Event =
    | Registers(u: string, pw: string)
    | LogsIn(u: string, pw: string, order: seq<string>, now: int)
    | LogsOut(u: string)
    | Acts(u: string, cmd: Command, order: seq<string>, now: int)
    | Switches(u: string, target: string, order: seq<string>, now: int)
    | Strikes(u: string, payees: seq<string>, order: seq<string>, now: int)
    | Looks(u: string, order: seq<string>, now: int)
    | Flushes(u: string, now: int)
    | BossReturns
    | Lives(n: string, m: string, order: seq<string>, now: int)
    | Ticks(m: string, order: seq<string>, now: int)
    | Beats(n: string, reached: bool, ms: seq<string>)
    | Fails(n: string, orders: string -> seq<string>, ms: seq<string>, now: int)
    | Recovers(n: string, ms: seq<string>)

  ghost function Step(c: Cluster, e: Event): Cluster {
    match e
    case Registers(u, pw) => c.(store := RegisterUser(c.store, u, pw))
    case LogsIn(u, pw, order, now) => Login(c, u, pw, order, now)
    case LogsOut(u) => Logout(c, u)
    case Acts(u, cmd, order, now) => Act(c, u, cmd, order, now)
    case Switches(u, target, order, now) => SwitchMap(c, u, target, order, now)
    case Strikes(u, payees, order, now) => AttackBoss(c, u, payees, order, now)
    case Looks(u, order, now) => Look(c, u, order, now)
    case Flushes(u, now) => Persist(c, u, now)
    case BossReturns => c.(boss := NewBoss())
    case Lives(n, m, order, now) => Live(c, n, m, order, now)
    case Ticks(m, order, now) => Tick(c, m, order, now)
    case Beats(n, reached, ms) => Beat(c, n, reached, ms)
    case Fails(n, orders, ms, now) => FailNode(c, n, orders, ms, now)
    case Recovers(n, ms) => RecoverNode(c, n, ms)
  }

  ghost function Run(c: Cluster, es: seq<Event>): Cluster
    decreases |es|
  {
    if es == [] then c else Run(Step(c, es[0]), es[1..])
  }
}
