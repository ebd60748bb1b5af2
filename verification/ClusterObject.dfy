/** The cluster as the source runs it: a store, node services that own worlds, and routing tables
    that its operations update in place. Every operation is proved against the function of
    ClusterModel that says what it should do. */
module ClusterObject {
  import opened Basics
  import opened WorldModel
  import opened WorldCheckpoint
  import opened WorldLife
  import opened WorldScans
  import opened WorldObject
  import opened BossModel
  import opened ClusterModel
  import opened NodeObject

  // ----- Facts about values -----

  /** The order lists the players that the user is shown, if there is a world to show. */
  ghost predicate Shown(c: ClusterModel.Cluster, u: string, order: seq<string>) {
    u in c.sessions && Hosts(c, c.sessions[u].nodeId, c.sessions[u].mapId) ==>
      Listing(order, WorldOn(c, c.sessions[u].nodeId, c.sessions[u].mapId).players.Keys)
  }

  ghost function AnyOrder(c: ClusterModel.Cluster, u: string): (order: seq<string>)
    ensures Shown(c, u, order)
  {
    if u in c.sessions && Hosts(c, c.sessions[u].nodeId, c.sessions[u].mapId) then
      var names := WorldOn(c, c.sessions[u].nodeId, c.sessions[u].mapId).players.Keys;
      StrLessStrictTotal();
      SortedShape(names, StrLess);
      SortedNames(names)
    else []
  }

  /** Refreshing a player who is not there changes nothing. */
  lemma NobodyThere(c: ClusterModel.Cluster, n: string, m: string, u: string, now: int)
    requires Hosts(c, n, m) && u !in WorldOn(c, n, m).players
    ensures SetWorld(c, n, m, Refresh(WorldOn(c, n, m), u, now)) == c
  {
    var s := WorldOn(c, n, m);
    assert Refresh(s, u, now) == s;
    assert c.nodes[n].maps[m := s] == c.nodes[n].maps;
    assert c.nodes[n := c.nodes[n]] == c.nodes;
  }

  lemma NobodyToRemove(c: ClusterModel.Cluster, n: string, m: string, u: string)
    requires Hosts(c, n, m) && u !in WorldOn(c, n, m).players
    ensures SetWorld(c, n, m, WorldModel.RemovePlayer(WorldOn(c, n, m), u)) == c
  {
    var s := WorldOn(c, n, m);
    assert c.nodes[n].maps[m := s] == c.nodes[n].maps;
    assert c.nodes[n := c.nodes[n]] == c.nodes;
  }

  lemma SetTwice(c: ClusterModel.Cluster, n: string, m: string, s: State, t: State)
    requires n in c.nodes
    ensures SetWorld(SetWorld(c, n, m, s), n, m, t) == SetWorld(c, n, m, t)
    ensures Hosts(SetWorld(c, n, m, s), n, m) && WorldOn(SetWorld(c, n, m, s), n, m) == s
  {
    var d := SetWorld(c, n, m, s);
    assert d.nodes[n].maps[m := t] == c.nodes[n].maps[m := t];
    assert d.nodes[n := With(d.nodes[n], m, t)] == c.nodes[n := With(c.nodes[n], m, t)];
  }

  /** A command of a user who is not on the map of its session comes to nothing. */
  lemma ObeyAbsent(c: ClusterModel.Cluster, u: string, cmd: Command, now: int)
    requires u in c.sessions && Hosts(c, c.sessions[u].nodeId, c.sessions[u].mapId)
    ensures var ses := c.sessions[u]; var s := WorldOn(c, ses.nodeId, ses.mapId);
      if u !in s.players then Obey(s, u, cmd, now) == s && SetWorld(c, ses.nodeId, ses.mapId, s) == c
      else u in Obey(s, u, cmd, now).players
  {
    hide Refresh, HitNpc, HitPlayer, NpcTarget, PlayerTarget, Walkable, PickUp;
    var ses := c.sessions[u];
    var s := WorldOn(c, ses.nodeId, ses.mapId);
    assert c.nodes[ses.nodeId].maps[ses.mapId := s] == c.nodes[ses.nodeId].maps;
    assert c.nodes[ses.nodeId := c.nodes[ses.nodeId]] == c.nodes;
    if u in s.players {
      match cmd
      case MoveCmd(dir) => MoveSteady(s, u, dir, now);
      case HealCmd =>
      case BuyCmd(item) =>
      case AttackCmd => AttackSteady(s, u, now);
    }
  }

  lemma SameWorld(c: ClusterModel.Cluster, n: string, m: string)
    ensures Hosts(c, n, m) ==> SetWorld(c, n, m, WorldOn(c, n, m)) == c
  {
    if Hosts(c, n, m) {
      assert c.nodes[n].maps[m := WorldOn(c, n, m)] == c.nodes[n].maps;
      assert c.nodes[n := c.nodes[n]] == c.nodes;
    }
  }

  lemma {:induction false} PayAllAppend(c: ClusterModel.Cluster, payees: seq<string>, u: string,
                                        rewards: map<string, BossModel.Reward>)
    requires u in rewards
    ensures PayAll(c, payees + [u], rewards) == PayOne(PayAll(c, payees, rewards), u, rewards[u])
    decreases |payees|
  {
    hide PayOne;
    if payees == [] {
      assert PayAll(c, [u], rewards) == PayAll(PayOne(c, u, rewards[u]), [u][1..], rewards);
    } else {
      assert (payees + [u])[1..] == payees[1..] + [u];
      if payees[0] in rewards {
        PayAllAppend(PayOne(c, payees[0], rewards[payees[0]]), payees[1..], u, rewards);
      } else {
        PayAllAppend(c, payees[1..], u, rewards);
      }
    }
  }

  /** The users paid when u strikes the boss and the blow is the last. */
  ghost function Payees(c: ClusterModel.Cluster, u: string, now: int): set<string> {
    if !Playing(c, u) then {}
    else
      var p := Refresh(WorldOn(c, c.sessions[u].nodeId, c.sessions[u].mapId), u, now).players[u];
      Rewards(c.boss, u, Damage(p.attack, p.treasures), c.sessions.Keys).Keys
  }

  ghost function AnyPayees(c: ClusterModel.Cluster, u: string, now: int): (payees: seq<string>)
    ensures Listing(payees, Payees(c, u, now))
  {
    StrLessStrictTotal();
    SortedShape(Payees(c, u, now), StrLess);
    SortedNames(Payees(c, u, now))
  }

  ghost predicate Fit(c: ClusterModel.Cluster, owner: string, n: string) {
    n in c.nodes && n != owner && c.nodes[n].healthy
  }

  lemma FirstFit(c: ClusterModel.Cluster, owner: string, ids: seq<string>, i: nat)
    requires ids == SortedNames(c.nodes.Keys) && i < |ids| && Fit(c, owner, ids[i])
    requires forall j | 0 <= j < i :: !Fit(c, owner, ids[j])
    ensures PickReplica(c, owner) == ids[i]
  {
    PickIsLeast(c, owner);
    StrLessStrictTotal();
    SortedShape(c.nodes.Keys, StrLess);
    hide StrLess, SortedNames, Sorted, PickReplica;
    var fit := set n | n in c.nodes && n != owner && c.nodes[n].healthy;
    assert Fit(c, owner, ids[i]) && ids[i] in fit;
    var r := PickReplica(c, owner);
    assert r in fit;
    var j :| 0 <= j < |ids| && ids[j] == r;
    assert Fit(c, owner, ids[j]);
  }

  lemma NoneFit(c: ClusterModel.Cluster, owner: string, ids: seq<string>)
    requires ids == SortedNames(c.nodes.Keys) && forall j | 0 <= j < |ids| :: !Fit(c, owner, ids[j])
    ensures PickReplica(c, owner) == ""
  {
    PickIsLeast(c, owner);
    SortedNamesShape(c.nodes.Keys);
    hide StrLess, SortedNames, PickReplica;
    forall n | n in c.nodes ensures !Fit(c, owner, n) {
      var j :| 0 <= j < |ids| && ids[j] == n;
    }
    assert (set n | n in c.nodes && n != owner && c.nodes[n].healthy) == {};
  }

  method RerouteAll(sessions: map<string, Session>, m: string, r: string) returns (after: map<string, Session>)
    ensures after == Reroute(sessions, m, r)
  {
    after := sessions;
    var users := sessions.Keys;
    while users != {}
      invariant users <= sessions.Keys && after.Keys == sessions.Keys
      invariant forall u | u in sessions :: after[u] == if u in users then sessions[u] else Reroute(sessions, m, r)[u]
      decreases |users|
    {
      var u :| u in users;
      users := users - {u};
      if after[u].mapId == m {
        after := after[u := after[u].(nodeId := r)];
      }
    }
  }

  method FirstHealthy(nodes: map<string, NodeService>, ids: seq<string>, owner: string) returns (first: nat)
    requires forall i | 0 <= i < |ids| :: ids[i] in nodes
    ensures first <= |ids| && (first < |ids| ==> ids[first] != owner && nodes[ids[first]].healthy)
    ensures forall j | 0 <= j < first :: ids[j] == owner || !nodes[ids[j]].healthy
  {
    first := 0;
    while first < |ids| && (ids[first] == owner || !nodes[ids[first]].healthy)
      invariant first <= |ids|
      invariant forall j | 0 <= j < first :: ids[j] == owner || !nodes[ids[j]].healthy
    {
      first := first + 1;
    }
  }

  /** Node r after it was asked to take map m over. */
  function Readied(c: ClusterModel.Cluster, r: string, m: string, built: State): ClusterModel.Cluster
    requires r in c.nodes
  {
    var ready := Supplied(c, r, m);
    c.(nodes := c.nodes[r := if m in ready.snapshots then Promoted(ready, m, built) else ready])
  }

  lemma PutTwice(c: ClusterModel.Cluster, r: string, node: Node, other: Node)
    ensures c.nodes[r := node][r := other] == c.nodes[r := other]
  {
  }

  lemma FailOverSteps(c: ClusterModel.Cluster, n: string, m: string, r: string)
    requires m in c.owners && c.owners[m] == n && m in c.configs
    requires r == (if m in c.replicas then c.replicas[m] else "") && r in c.nodes
    ensures var p := Readied(c, r, m, c.newWorld(c.configs[m])); var h := Handed(p, m, r);
      FailOverMap(c, n, m) ==
        if m !in Supplied(c, r, m).snapshots then p
        else if n in c.nodes then h.(nodes := h.nodes[n := h.nodes[n].(maps := h.nodes[n].maps - {m})])
        else h
  {
    var p := Readied(c, r, m, c.newWorld(c.configs[m]));
    hide Promoted, PickReplica, Reroute;
    SamePick(p, p.(owners := p.owners[m := r]), r);
  }

  ghost function Handed(c: ClusterModel.Cluster, m: string, r: string): ClusterModel.Cluster {
    c.(owners := c.owners[m := r], replicas := c.replicas[m := PickReplica(c, r)], sessions := Reroute(c.sessions, m, r))
  }

  lemma SamePick(c: ClusterModel.Cluster, d: ClusterModel.Cluster, owner: string)
    requires c.nodes == d.nodes
    ensures PickReplica(c, owner) == PickReplica(d, owner)
  {
    PickIsLeast(c, owner);
    PickIsLeast(d, owner);
    StrLessStrictTotal();
  }

  lemma PickIsLeast(c: ClusterModel.Cluster, owner: string)
    ensures var fit := set n | n in c.nodes && n != owner && c.nodes[n].healthy;
      var r := PickReplica(c, owner);
      if fit == {} then r == "" else Least(r, fit, StrLess)
  {
    StrLessStrictTotal();
    hide StrLess;
  }

  lemma {:induction false} RunAppend(c: ClusterModel.Cluster, es: seq<ClusterModel.Event>, e: ClusterModel.Event)
    ensures ClusterModel.Run(c, es + [e]) == ClusterModel.Step(ClusterModel.Run(c, es), e)
    decreases |es|
  {
    hide ClusterModel.Step;
    if es == [] {
      assert ClusterModel.Run(c, [e]) == ClusterModel.Run(ClusterModel.Step(c, e), [e][1..]);
    } else {
      assert (es + [e])[1..] == es[1..] + [e];
      RunAppend(ClusterModel.Step(c, es[0]), es[1..], e);
    }
  }

  lemma StepTicks(c: ClusterModel.Cluster, m: string, order: seq<string>, now: int)
    ensures ClusterModel.Step(c, Ticks(m, order, now)) == Tick(c, m, order, now)
  {
  }

  ghost function AnyListing(names: set<string>): (order: seq<string>)
    ensures Listing(order, names)
  {
    StrLessStrictTotal();
    SortedShape(names, StrLess);
    SortedNames(names)
  }

  lemma {:induction false} FailOverAppend(c: ClusterModel.Cluster, n: string, ms: seq<string>, m: string)
    ensures FailOver(c, n, ms + [m]) == FailOverMap(FailOver(c, n, ms), n, m)
    decreases |ms|
  {
    hide FailOverMap;
    if ms == [] {
      assert FailOver(c, n, [m]) == FailOver(FailOverMap(c, n, m), n, [m][1..]);
    } else {
      assert (ms + [m])[1..] == ms[1..] + [m];
      FailOverAppend(FailOverMap(c, n, ms[0]), n, ms[1..], m);
    }
  }

  lemma {:induction false} RecoverAppend(c: ClusterModel.Cluster, n: string, ms: seq<string>, m: string)
    ensures RecoverMaps(c, n, ms + [m]) == RecoverMap(RecoverMaps(c, n, ms), n, m)
    decreases |ms|
  {
    hide RecoverMap;
    if ms == [] {
      assert RecoverMaps(c, n, [m]) == RecoverMaps(RecoverMap(c, n, m), n, [m][1..]);
    } else {
      assert (ms + [m])[1..] == ms[1..] + [m];
      RecoverAppend(RecoverMap(c, n, ms[0]), n, ms[1..], m);
    }
  }

  ghost function Lookup(orders: map<string, seq<string>>): string -> seq<string> {
    m => if m in orders then orders[m] else []
  }

  lemma {:induction false} SyncAllAppend(c: ClusterModel.Cluster, n: string, hosted: seq<string>, m: string,
                                         orders: string -> seq<string>, now: int)
    ensures SyncAll(c, n, hosted + [m], orders, now) == Sync(SyncAll(c, n, hosted, orders, now), n, m, orders(m), now)
    decreases |hosted|
  {
    hide Sync;
    if hosted == [] {
      assert SyncAll(c, n, [m], orders, now) == SyncAll(Sync(c, n, m, orders(m), now), n, [m][1..], orders, now);
    } else {
      assert (hosted + [m])[1..] == hosted[1..] + [m];
      SyncAllAppend(Sync(c, n, hosted[0], orders(hosted[0]), now), n, hosted[1..], m, orders, now);
    }
  }

  /** Only the orders of the maps that are captured matter. */
  lemma {:induction false} SyncAllSame(c: ClusterModel.Cluster, n: string, hosted: seq<string>,
                                       f: string -> seq<string>, g: string -> seq<string>, now: int)
    requires forall m | m in hosted :: f(m) == g(m)
    ensures SyncAll(c, n, hosted, f, now) == SyncAll(c, n, hosted, g, now)
    decreases |hosted|
  {
    hide Sync;
    if hosted != [] {
      SyncAllSame(Sync(c, n, hosted[0], f(hosted[0]), now), n, hosted[1..], f, g, now);
    }
  }

  lemma SyncOthers(c: ClusterModel.Cluster, n: string, k: string, order: seq<string>, now: int, m: string)
    requires m != k && n in c.nodes
    ensures var d := Sync(c, n, k, order, now);
      n in d.nodes && (Hosts(d, n, m) <==> Hosts(c, n, m)) && (Hosts(c, n, m) ==> WorldOn(d, n, m) == WorldOn(c, n, m))
  {
    hide RefreshAll, Captured, ClusterModel.StoreReplica;
    if Hosts(c, n, k) {
      var c1 := SetWorld(c, n, k, RefreshAll(WorldOn(c, n, k), order, now));
      assert Hosts(c1, n, m) <==> Hosts(c, n, m);
      StoredElsewhere(c1, n, m);
    }
  }

  lemma StoredElsewhere(c: ClusterModel.Cluster, n: string, m: string)
    requires n in c.nodes
    ensures forall r, cp | r in c.nodes ::
      (var d := c.nodes[r := ClusterModel.StoreReplica(c.nodes[r], cp)]; n in d && d[n].maps == c.nodes[n].maps)
  {
  }

  lemma SyncTables(c: ClusterModel.Cluster, n: string, k: string, order: seq<string>, now: int)
    requires n in c.nodes
    ensures Sync(c, n, k, order, now).owners == c.owners && n in Sync(c, n, k, order, now).nodes
  {
    hide RefreshAll, Captured, ClusterModel.StoreReplica;
  }

  /** Capturing other maps leaves map m alone. */
  lemma {:induction false} SyncAllOthers(c: ClusterModel.Cluster, n: string, hosted: seq<string>,
                                         orders: string -> seq<string>, now: int, m: string)
    requires m !in hosted && n in c.nodes
    ensures var d := SyncAll(c, n, hosted, orders, now);
      n in d.nodes && (Hosts(d, n, m) <==> Hosts(c, n, m)) && (Hosts(c, n, m) ==> WorldOn(d, n, m) == WorldOn(c, n, m))
    decreases |hosted|
  {
    hide Sync, Hosts, WorldOn;
    if hosted != [] {
      SyncOthers(c, n, hosted[0], orders(hosted[0]), now, m);
      SyncAllOthers(Sync(c, n, hosted[0], orders(hosted[0]), now), n, hosted[1..], orders, now, m);
    }
  }

  lemma {:induction false} SyncAllTables(c: ClusterModel.Cluster, n: string, hosted: seq<string>,
                                         orders: string -> seq<string>, now: int)
    requires n in c.nodes
    ensures SyncAll(c, n, hosted, orders, now).owners == c.owners
    decreases |hosted|
  {
    hide Sync;
    if hosted != [] {
      SyncTables(c, n, hosted[0], orders(hosted[0]), now);
      SyncAllTables(Sync(c, n, hosted[0], orders(hosted[0]), now), n, hosted[1..], orders, now);
    }
  }

  /** The orders list the players of the named maps that node n hosts. */
  ghost predicate Ordered(c: ClusterModel.Cluster, n: string, ms: seq<string>, orders: map<string, seq<string>>) {
    && n in c.nodes && orders.Keys == Elements(ms)
    && forall m | m in orders && m in c.nodes[n].maps :: Listing(orders[m], c.nodes[n].maps[m].players.Keys)
  }

  /** Cluster d is c after the first i maps of node n were captured, with these orders. */
  ghost predicate SyncedUpTo(c: ClusterModel.Cluster, n: string, hosted: seq<string>, i: nat,
                             orders: map<string, seq<string>>, now: int, d: ClusterModel.Cluster) {
    i <= |hosted| && d == SyncAll(c, n, hosted[..i], Lookup(orders), now) && Ordered(c, n, hosted[..i], orders)
  }

  lemma SyncNone(c: ClusterModel.Cluster, n: string, now: int)
    requires n in c.nodes
    ensures forall hosted :: SyncedUpTo(c, n, hosted, 0, map[], now, c)
  {
  }

  lemma SyncedWhole(c: ClusterModel.Cluster, n: string, hosted: seq<string>, orders: map<string, seq<string>>,
                    now: int, d: ClusterModel.Cluster)
    requires SyncedUpTo(c, n, hosted, |hosted|, orders, now, d)
    ensures d == SyncAll(c, n, hosted, Lookup(orders), now) && Ordered(c, n, hosted, orders)
  {
    assert hosted[..|hosted|] == hosted;
  }

  lemma SyncNext(c: ClusterModel.Cluster, n: string, hosted: seq<string>, i: nat,
                 orders: map<string, seq<string>>, order: seq<string>, now: int)
    requires i < |hosted| && Distinct(hosted) && Ordered(c, n, hosted[..i], orders)
    requires var d := SyncAll(c, n, hosted[..i], Lookup(orders), now);
      Hosts(d, n, hosted[i]) ==> Listing(order, WorldOn(d, n, hosted[i]).players.Keys)
    ensures SyncAll(c, n, hosted[..i + 1], Lookup(orders[hosted[i] := order]), now)
         == Sync(SyncAll(c, n, hosted[..i], Lookup(orders), now), n, hosted[i], order, now)
    ensures Ordered(c, n, hosted[..i + 1], orders[hosted[i] := order])
  {
    hide Sync, SyncAll, Listing;
    var m, wider := hosted[i], orders[hosted[i] := order];
    assert hosted[..i + 1] == hosted[..i] + [m];
    SyncAllOthers(c, n, hosted[..i], Lookup(orders), now, m);
    SyncAllSame(c, n, hosted[..i], Lookup(orders), Lookup(wider), now);
    SyncAllAppend(c, n, hosted[..i], m, Lookup(wider), now);
  }

  method ThreeNodes() returns (nodes: map<string, NodeService>)
    ensures nodes.Keys == {"node-a", "node-b", "node-c"} && fresh(nodes.Values)
    ensures forall n | n in nodes ::
      nodes[n].Valid() && nodes[n].id == n && nodes[n].maps == map[] && nodes[n].Value() == Node(true, map[], map[])
    ensures forall n, n' | n in nodes && n' in nodes && nodes[n] == nodes[n'] :: n == n'
  {
    nodes := map[];
    var names := ["node-a", "node-b", "node-c"];
    for i := 0 to |names|
      invariant nodes.Keys == Elements(names[..i]) && forall n | n in nodes :: fresh(nodes[n])
      invariant forall n | n in nodes ::
        nodes[n].Valid() && nodes[n].id == n && nodes[n].maps == map[] && nodes[n].Value() == Node(true, map[], map[])
    {
      var node := new NodeService(names[i]);
      nodes := nodes[names[i] := node];
      assert names[..i + 1] == names[..i] + [names[i]];
    }
    assert names[..|names|] == names;
  }

  /** Map m on node n. */
  datatype Spot = Spot(n: string, m: string)

  class Cluster {
    const store: UserStore
    const nodes: map<string, NodeService>
    const configs: map<string, Config>
    const boss: BossState
    const build: Config -> State
    var sessions: map<string, Session>
    var owners: map<string, string>
    var replicas: map<string, string>

    ghost function Worlds(): set<object>
      reads nodes.Values
    {
      set n, m | n in nodes && m in nodes[n].maps :: nodes[n].maps[m]
    }

    ghost function Footprint(): set<object>
      reads nodes.Values
    {
      {this, store, boss} + nodes.Values + Worlds()
    }

    ghost predicate Valid()
      reads nodes.Values, Footprint()
    {
      && store.Valid()
      && (forall n, n' | n in nodes && n' in nodes && nodes[n] == nodes[n'] :: n == n')
      && (forall n | n in nodes :: nodes[n].Valid() && nodes[n].id == n)
      && (forall n, m, n', m' | n in nodes && m in nodes[n].maps && n' in nodes && m' in nodes[n'].maps
                                && nodes[n].maps[m] == nodes[n'].maps[m'] :: n == n')
      && (forall m | m in configs :: OnePerCell(build(configs[m]).treasures))
    }

    ghost function NodeValues(): map<string, Node>
      reads nodes.Values, Worlds()
    {
      map n | n in nodes :: nodes[n].Value()
    }

    ghost function Value(): ClusterModel.Cluster
      reads nodes.Values, Footprint()
    {
      ClusterModel.Cluster(store.Value(), NodeValues(), sessions, owners, replicas, configs, boss.Value(), build)
    }

    constructor Init(store: UserStore, nodes: map<string, NodeService>, boss: BossState,
                     configs: map<string, Config>, build: Config -> State)
      ensures this.store == store && this.nodes == nodes && this.boss == boss
      ensures this.configs == configs && this.build == build
      ensures sessions == map[] && owners == map[] && replicas == map[]
    {
      this.store, this.nodes, this.boss, this.configs, this.build := store, nodes, boss, configs, build;
      sessions, owners, replicas := map[], map[], map[];
    }

    ghost predicate Bare(n: string)
      requires n in nodes
      reads nodes[n], nodes[n].maps.Values
    {
      nodes[n].Valid() && nodes[n].id == n && nodes[n].maps == map[] && nodes[n].Value() == Node(true, map[], map[])
    }

    lemma BareCluster()
      requires nodes.Keys == {"node-a", "node-b", "node-c"} && forall n | n in nodes :: Bare(n)
      requires sessions == map[] && owners == map[] && replicas == map[] && boss.Value() == NewBoss()
      requires store.Valid() && forall m | m in configs :: OnePerCell(build(configs[m]).treasures)
      ensures Valid() && Worlds() == {}
      ensures Value() == Blank(store.Value(), configs, build)
    {
      hide OnePerCell;
      assert forall n | n in nodes :: Bare(n) && nodes[n].maps == map[];
      assert Worlds() == {};
      assert NodeValues() == Blank(store.Value(), configs, build).nodes;
    }

    /** Only node n and the worlds on it were touched, besides the tables and the store. */
    twostate predicate OnlyNode(n: string)
      reads nodes.Values, Footprint()
    {
      && n in nodes
      && (forall k | k in nodes && k != n :: unchanged(nodes[k]))
      && (forall k, m | k in nodes && k != n && m in nodes[k].maps :: unchanged(nodes[k].maps[m]))
      && nodes[n].Grown()
    }

    twostate lemma NodeChanged(n: string)
      requires old(Valid()) && store.Valid() && OnlyNode(n) && nodes[n].Valid()
      ensures Valid() && fresh(Footprint() - old(Footprint()))
      ensures NodeValues() == old(NodeValues())[n := nodes[n].Value()]
    {
      hide NodeService.Valid, NodeService.Value, UserStore.Valid, OnePerCell;
      forall k | k in nodes && k != n ensures nodes[k].Valid() && nodes[k].Value() == old(nodes[k].Value()) {
        nodes[k].Kept();
      }
    }

    twostate lemma SameFootprint()
      requires forall k | k in nodes :: nodes[k].maps == old(nodes[k].maps)
      ensures Footprint() == old(Footprint())
    {
      assert Worlds() == old(Worlds());
    }

    /** Nothing but node n and the worlds on it was touched. */
    twostate lemma JustNode(n: string)
      requires old(Valid()) && OnlyNode(n) && nodes[n].Valid()
      requires unchanged(this) && unchanged(store) && unchanged(boss)
      ensures Valid() && fresh(Footprint() - old(Footprint()))
      ensures Value() == old(Value()).(nodes := old(Value()).nodes[n := nodes[n].Value()])
    {
      NodeChanged(n);
    }

    lemma NodeIn(n: string)
      ensures Valid() && n in nodes ==> nodes[n].Valid() && forall k | k in nodes && k != n :: nodes[k] != nodes[n]
      ensures Valid() ==> forall m | m in configs :: OnePerCell(build(configs[m]).treasures)
      ensures n in nodes ==> n in Value().nodes && Value().nodes[n] == nodes[n].Value()
    {
    }

    lemma WorldsApart(n: string)
      requires Valid() && n in nodes
      ensures forall k, j | k in nodes && k != n && j in nodes[k].maps :: nodes[k].maps[j] !in nodes[n].maps.Values
    {
    }

    lemma HostIn(n: string, m: string)
      ensures n in Value().nodes <==> n in nodes
      ensures Hosts(Value(), n, m) <==> n in nodes && m in nodes[n].maps
      ensures Hosts(Value(), n, m) ==> WorldOn(Value(), n, m) == nodes[n].maps[m].Value()
    {
    }

    /** Nothing but one world was touched. */
    twostate lemma WorldMoved(at: Spot)
      requires old(Valid()) && at.n in nodes && at.m in nodes[at.n].maps && nodes[at.n].maps[at.m].Valid()
      requires unchanged(this) && unchanged(store) && unchanged(boss) && forall k | k in nodes :: unchanged(nodes[k])
      requires forall k, j | k in nodes && j in nodes[k].maps && nodes[k].maps[j] != nodes[at.n].maps[at.m] ::
        unchanged(nodes[k].maps[j])
      ensures Valid() && Footprint() == old(Footprint())
      ensures Value() == SetWorld(old(Value()), at.n, at.m, nodes[at.n].maps[at.m].Value())
    {
      hide OnePerCell, Clean;
      nodes[at.n].WorldChanged(at.m);
      JustNode(at.n);
    }

    /** No node and no world was touched. */
    twostate lemma JustTables()
      requires old(Valid()) && store.Valid() && forall k | k in nodes :: unchanged(nodes[k])
      requires forall k, j | k in nodes && j in nodes[k].maps :: unchanged(nodes[k].maps[j])
      ensures Valid() && Footprint() == old(Footprint()) && NodeValues() == old(NodeValues())
    {
      hide NodeService.Valid, NodeService.Value, UserStore.Valid, OnePerCell;
      forall k | k in nodes ensures nodes[k].Valid() && nodes[k].Value() == old(nodes[k].Value()) {
        nodes[k].Kept();
      }
      SameFootprint();
    }

    method Save(profile: Profile)
      requires Valid()
      modifies Footprint()
      ensures Valid() && Footprint() == old(Footprint())
      ensures Value() == Saved(old(Value()), profile)
    {
      hide NodeValues;
      store.SaveProfile(profile);
      JustTables();
    }

    // ----- Requests passed on to a node: nothing happens if it does not host the map -----

    method AddPlayerOn(n: string, m: string, profile: Profile)
      requires Valid() && n in nodes
      modifies Footprint()
      ensures Valid() && Footprint() == old(Footprint())
      ensures !Hosts(old(Value()), n, m) ==> Value() == old(Value())
      ensures Hosts(old(Value()), n, m) ==>
        (var s := AddPlayer(WorldOn(old(Value()), n, m), profile);
         Value() == SetWorld(old(Value()), n, m, s))
    {
      HostIn(n, m);
      hide AddPlayer, Value, NodeValues, Hosts, WorldOn, SetWorld;
      if m in nodes[n].maps {
        nodes[n].maps[m].AddOrRestorePlayer(profile);
        WorldMoved(Spot(n, m));
      }
    }

    method RemovePlayerOn(n: string, m: string, u: string) returns (profile: Option<Profile>)
      requires Valid() && n in nodes
      modifies Footprint()
      ensures Valid() && Footprint() == old(Footprint())
      ensures !Hosts(old(Value()), n, m) ==> Value() == old(Value()) && profile.None?
      ensures Hosts(old(Value()), n, m) ==>
        (var s := WorldModel.RemovePlayer(WorldOn(old(Value()), n, m), u);
         Value() == SetWorld(old(Value()), n, m, s) && profile == ProfileIn(WorldOn(old(Value()), n, m), u))
    {
      HostIn(n, m);
      hide WorldModel.RemovePlayer, Value, NodeValues, Hosts, WorldOn, SetWorld, ProfileIn;
      profile := None;
      if m in nodes[n].maps {
        profile := nodes[n].maps[m].RemovePlayer(u);
        WorldMoved(Spot(n, m));
      }
    }

    method ProfileOn(n: string, m: string, u: string, now: int) returns (profile: Option<Profile>)
      requires Valid() && n in nodes
      modifies Footprint()
      ensures Valid() && Footprint() == old(Footprint())
      ensures !Hosts(old(Value()), n, m) ==> Value() == old(Value()) && profile.None?
      ensures Hosts(old(Value()), n, m) ==>
        (var s := Refresh(WorldOn(old(Value()), n, m), u, now);
         Value() == SetWorld(old(Value()), n, m, s) && profile == ProfileIn(s, u))
    {
      HostIn(n, m);
      hide Refresh, Value, NodeValues, Hosts, WorldOn, SetWorld, ProfileIn;
      profile := None;
      if m in nodes[n].maps {
        profile := nodes[n].maps[m].ProfileOf(u, now);
        WorldMoved(Spot(n, m));
      }
    }

    method RewardPlayerOn(n: string, m: string, u: string, treasures: int, victories: int) returns (profile: Option<Profile>)
      requires Valid() && n in nodes
      modifies Footprint()
      ensures Valid() && Footprint() == old(Footprint())
      ensures !Hosts(old(Value()), n, m) ==> Value() == old(Value()) && profile.None?
      ensures Hosts(old(Value()), n, m) ==>
        (var s := WorldModel.Reward(WorldOn(old(Value()), n, m), u, treasures, victories);
         Value() == SetWorld(old(Value()), n, m, s) && profile == ProfileIn(s, u))
    {
      HostIn(n, m);
      hide WorldModel.Reward, Value, NodeValues, Hosts, WorldOn, SetWorld, ProfileIn;
      profile := None;
      if m in nodes[n].maps {
        profile := nodes[n].maps[m].RewardPlayer(u, treasures, victories);
        WorldMoved(Spot(n, m));
      }
    }

    /** MovePlayer, Heal, BuyItem and Attack. */
    method CommandIn(w: World, u: string, cmd: Command, now: int) returns (victim: Option<string>, profile: Option<Profile>)
      requires w.Valid()
      modifies w
      ensures w.Valid() && w.Value() == Obey(old(w.Value()), u, cmd, now) && profile == ProfileIn(w.Value(), u)
      ensures victim == if cmd.AttackCmd? then AttackVictim(old(w.Value()), u, now) else None
    {
      hide WorldModel.Move, Heal, Buy, WorldModel.Attack, AttackVictim, ProfileIn, World.Value;
      victim := None;
      match cmd {
        case MoveCmd(dir) => profile := w.MovePlayer(u, dir, now);
        case HealCmd => profile := w.HealPlayer(u, now);
        case BuyCmd(item) => profile := w.BuyItem(u, item, now);
        case AttackCmd => victim, profile := w.Attack(u, now);
      }
    }

    method CommandOn(n: string, m: string, u: string, cmd: Command, now: int)
      returns (victim: Option<string>, profile: Option<Profile>)
      requires Valid() && n in nodes
      modifies Footprint()
      ensures Valid() && Footprint() == old(Footprint())
      ensures !Hosts(old(Value()), n, m) ==> Value() == old(Value()) && profile.None?
      ensures Hosts(old(Value()), n, m) ==>
        (var s := Obey(WorldOn(old(Value()), n, m), u, cmd, now);
         Value() == SetWorld(old(Value()), n, m, s) && profile == ProfileIn(s, u)
         && victim == if cmd.AttackCmd? then AttackVictim(WorldOn(old(Value()), n, m), u, now) else None)
    {
      HostIn(n, m);
      hide Obey, AttackVictim, Value, NodeValues, Hosts, WorldOn, SetWorld, ProfileIn;
      victim, profile := None, None;
      if m in nodes[n].maps {
        victim, profile := CommandIn(nodes[n].maps[m], u, cmd, now);
        WorldMoved(Spot(n, m));
      }
    }

    method CheckpointOn(n: string, m: string, now: int) returns (cp: Option<Checkpoint>, ghost order: seq<string>)
      requires Valid() && n in nodes
      modifies Footprint()
      ensures Valid() && Footprint() == old(Footprint())
      ensures !Hosts(old(Value()), n, m) ==> Value() == old(Value()) && cp.None?
      ensures Hosts(old(Value()), n, m) ==>
        (var s := RefreshAll(WorldOn(old(Value()), n, m), order, now);
         Value() == SetWorld(old(Value()), n, m, s) && cp == Some(Captured(s, n, now)) && Clean(cp.value)
         && Listing(order, s.players.Keys))
    {
      HostIn(n, m);
      hide RefreshAll, Captured, Clean, Value, NodeValues, Hosts, WorldOn, SetWorld;
      cp, order := None, [];
      if m in nodes[n].maps {
        var captured;
        captured, order := nodes[n].maps[m].CaptureCheckpoint(n, now);
        cp := Some(captured);
        WorldMoved(Spot(n, m));
        CapturedClean(nodes[n].maps[m].Value(), n, now);
      }
    }

    method BackgroundOn(n: string, m: string, now: int) returns (ghost order: seq<string>)
      requires Valid() && n in nodes && m in nodes[n].maps
      modifies Footprint()
      ensures Valid() && Footprint() == old(Footprint()) && Hosts(old(Value()), n, m)
      ensures Listing(order, WorldOn(old(Value()), n, m).players.Keys)
      ensures Value() == SetWorld(old(Value()), n, m, Background(WorldOn(old(Value()), n, m), order, now))
    {
      HostIn(n, m);
      hide Background, Value, NodeValues, Hosts, WorldOn, SetWorld;
      order := nodes[n].maps[m].BackgroundStep(now);
      WorldMoved(Spot(n, m));
    }

    // ----- Changes to a node itself -----

    method SetHealthOn(n: string, h: bool) returns (was: bool)
      requires Valid() && n in nodes
      modifies Footprint()
      ensures Valid() && Footprint() == old(Footprint()) && n in old(Value()).nodes
      ensures Value() == SetHealthy(old(Value()), n, h) && was == old(Value()).nodes[n].healthy
    {
      HostIn(n, "");
      NodeIn(n);
      hide Valid, Value, NodeValues;
      was := nodes[n].SetHealthy(h);
      JustNode(n);
      SameFootprint();
    }

    method StoreReplicaOn(n: string, cp: Checkpoint)
      requires Valid() && n in nodes && Clean(cp)
      modifies Footprint()
      ensures Valid() && Footprint() == old(Footprint()) && n in old(Value()).nodes
      ensures Value() == old(Value()).(nodes := old(Value()).nodes[n := StoreReplica(old(Value()).nodes[n], cp)])
    {
      HostIn(n, "");
      NodeIn(n);
      hide Valid, Value, NodeValues, Clean;
      nodes[n].StoreReplica(cp);
      JustNode(n);
      SameFootprint();
    }

    method RemoveHostedMapOn(n: string, m: string)
      requires Valid() && n in nodes
      modifies Footprint()
      ensures Valid() && Footprint() <= old(Footprint()) && n in old(Value()).nodes
      ensures Value() == old(Value()).(nodes := old(Value()).nodes[n :=
        old(Value()).nodes[n].(maps := old(Value()).nodes[n].maps - {m})])
    {
      HostIn(n, "");
      NodeIn(n);
      hide Valid, Value, NodeValues;
      nodes[n].RemoveHostedMap(m);
      JustNode(n);
      assert Worlds() <= old(Worlds());
    }

    method PromoteOn(n: string, m: string) returns (ok: bool)
      requires Valid() && n in nodes && m in configs
      modifies Footprint()
      ensures Valid() && fresh(Footprint() - old(Footprint())) && n in old(Value()).nodes
      ensures ok == (m in old(Value()).nodes[n].snapshots)
      ensures !ok ==> Value() == old(Value()) && Footprint() == old(Footprint())
      ensures ok ==> Value() == old(Value()).(nodes := old(Value()).nodes[n :=
        Promoted(old(Value()).nodes[n], m, build(configs[m]))])
    {
      HostIn(n, "");
      NodeIn(n);
      hide Valid, Value, NodeValues, Promoted;
      if m !in nodes[n].snapshots {
        return false;
      }
      nodes[n].Promote(m, configs[m], build);
      JustNode(n);
      return true;
    }

    // ----- Sessions -----

    method PersistSessionState(u: string, now: int)
      requires Valid()
      modifies Footprint()
      ensures Valid() && Footprint() == old(Footprint())
      ensures Value() == Persist(old(Value()), u, now)
    {
      hide Refresh, Valid, NodeValues, Footprint, Worlds;
      if u !in sessions {
        return;
      }
      var ses := sessions[u];
      HostIn(ses.nodeId, ses.mapId);
      if ses.nodeId !in nodes {
        return;
      }
      if Hosts(Value(), ses.nodeId, ses.mapId) && u !in WorldOn(Value(), ses.nodeId, ses.mapId).players {
        NobodyThere(Value(), ses.nodeId, ses.mapId, u, now);
      }
      var profile := ProfileOn(ses.nodeId, ses.mapId, u, now);
      if profile.Some? {
        Save(profile.value.(lastMap := ses.mapId, lastNode := ses.nodeId));
      }
    }

    /** Shows the user its map; the players on it are refreshed in the order the map lists them. */
    method SnapshotFor(u: string, now: int) returns (ghost order: seq<string>)
      requires Valid()
      modifies Footprint()
      ensures Valid() && Footprint() == old(Footprint())
      ensures Value() == Look(old(Value()), u, order, now) && Shown(Value(), u, order)
    {
      hide RefreshAll, Captured, Clean, Listing, Valid, NodeValues, Footprint, Worlds;
      order := [];
      if u !in sessions {
        return;
      }
      var ses := sessions[u];
      HostIn(ses.nodeId, ses.mapId);
      if ses.nodeId !in nodes {
        return;
      }
      var cp;
      cp, order := CheckpointOn(ses.nodeId, ses.mapId, now);
    }

    method Register(u: string, pw: string)
      requires Valid()
      modifies Footprint()
      ensures Valid() && Footprint() == old(Footprint())
      ensures Value() == ClusterModel.Step(old(Value()), Registers(u, pw))
    {
      hide NodeValues;
      store.Register(u, pw);
      JustTables();
    }

    method Authenticate(u: string, pw: string) returns (profile: Option<Profile>)
      requires Valid()
      ensures Valid() && Footprint() == old(Footprint()) && Value() == old(Value())
      ensures profile == if Authentic(Value().store, u, pw) then Some(Value().store.users[u]) else None
    {
      hide NodeValues;
      profile := store.Authenticate(u, pw);
      JustTables();
    }

    method Login(u: string, pw: string, now: int) returns (ghost order: seq<string>)
      requires Valid()
      modifies Footprint()
      ensures Valid() && Footprint() == old(Footprint())
      ensures Value() == ClusterModel.Login(old(Value()), u, pw, order, now) && Shown(Value(), u, order)
    {
      ghost var c := Value();
      order := AnyOrder(c, u);
      hide Shown, Enter, Persist, Look, Valid, NodeValues, Footprint, Worlds;
      var profile := Authenticate(u, pw);
      if profile.None? || u in sessions {
        return;
      }
      var m := if profile.value.lastMap in configs then profile.value.lastMap else DEFAULT_MAP;
      var n := if m in owners then owners[m] else "";
      HostIn(n, m);
      if n !in nodes {
        return;
      }
      Admit(u, m, n, profile.value);
      PersistSessionState(u, now);
      order := SnapshotFor(u, now);
    }

    /** The user's player enters map m on node n. */
    method Admit(u: string, m: string, n: string, profile: Profile)
      requires Valid() && n in nodes
      modifies Footprint()
      ensures Valid() && Footprint() == old(Footprint())
      ensures Value() == Enter(old(Value()), u, m, n, profile)
    {
      hide AddPlayer, Valid, NodeValues, Footprint, Worlds;
      AddPlayerOn(n, m, profile);
      Seat(u, m, n);
    }

    /** From now on the user's requests go to map m on node n. */
    method Seat(u: string, m: string, n: string)
      requires Valid()
      modifies Footprint()
      ensures Valid() && Footprint() == old(Footprint())
      ensures Value() == old(Value()).(sessions := old(Value()).sessions[u := Session(m, n)])
    {
      hide NodeValues;
      sessions := sessions[u := Session(m, n)];
      JustTables();
    }

    method Unseat(u: string)
      requires Valid()
      modifies Footprint()
      ensures Valid() && Footprint() == old(Footprint())
      ensures Value() == old(Value()).(sessions := old(Value()).sessions - {u})
    {
      hide NodeValues;
      sessions := sessions - {u};
      JustTables();
    }

    method Logout(u: string)
      requires Valid()
      modifies Footprint()
      ensures Valid() && Footprint() == old(Footprint())
      ensures Value() == ClusterModel.Logout(old(Value()), u)
    {
      hide Valid, NodeValues, Footprint, Worlds;
      if u !in sessions {
        return;
      }
      var ses := sessions[u];
      ghost var c := Value();
      Unseat(u);
      HostIn(ses.nodeId, ses.mapId);
      if ses.nodeId !in nodes {
        return;
      }
      if Hosts(c, ses.nodeId, ses.mapId) && u !in WorldOn(c, ses.nodeId, ses.mapId).players {
        NobodyToRemove(Value(), ses.nodeId, ses.mapId, u);
      }
      hide WorldModel.RemovePlayer;
      var profile := RemovePlayerOn(ses.nodeId, ses.mapId, u);
      if profile.Some? {
        Save(profile.value.(lastMap := ses.mapId, lastNode := ses.nodeId));
      }
    }

    // ----- Commands -----

    method SaveVictimState(ses: Session, victim: Option<string>, now: int)
      requires Valid()
      modifies Footprint()
      ensures Valid() && Footprint() == old(Footprint())
      ensures Value() == SaveVictim(old(Value()), ses, victim, now)
    {
      hide Refresh, Persist, Valid, NodeValues, Footprint, Worlds;
      if victim.None? {
        return;
      }
      HostIn(ses.nodeId, ses.mapId);
      if ses.nodeId !in nodes {
        return;
      }
      if Hosts(Value(), ses.nodeId, ses.mapId) && victim.value !in WorldOn(Value(), ses.nodeId, ses.mapId).players {
        NobodyThere(Value(), ses.nodeId, ses.mapId, victim.value, now);
      }
      var profile := ProfileOn(ses.nodeId, ses.mapId, victim.value, now);
      if profile.Some? {
        Save(profile.value.(lastMap := ses.mapId, lastNode := ses.nodeId));
        PersistSessionState(victim.value, now);
      }
    }

    /** Move, Attack, Heal and BuyItem. */
    method Act(u: string, cmd: Command, now: int) returns (ghost order: seq<string>)
      requires Valid()
      modifies Footprint()
      ensures Valid() && Footprint() == old(Footprint())
      ensures Value() == ClusterModel.Act(old(Value()), u, cmd, order, now) && Shown(Value(), u, order)
    {
      ghost var c := Value();
      hide Shown, Obey, AttackVictim, SaveVictim, Persist, Look, Valid, NodeValues, Footprint, Worlds;
      order := AnyOrder(c, u);
      if u !in sessions {
        return;
      }
      var ses := sessions[u];
      HostIn(ses.nodeId, ses.mapId);
      if ses.nodeId !in nodes {
        return;
      }
      if Hosts(c, ses.nodeId, ses.mapId) {
        ObeyAbsent(c, u, cmd, now);
      }
      var victim, profile := CommandOn(ses.nodeId, ses.mapId, u, cmd, now);
      if profile.None? {
        return;
      }
      SaveVictimState(ses, victim, now);
      Save(profile.value.(lastMap := ses.mapId, lastNode := ses.nodeId));
      PersistSessionState(u, now);
      order := SnapshotFor(u, now);
    }

    method SwitchMap(u: string, target: string, now: int) returns (ghost order: seq<string>)
      requires Valid()
      modifies Footprint()
      ensures Valid() && Footprint() == old(Footprint())
      ensures Value() == ClusterModel.SwitchMap(old(Value()), u, target, order, now) && Shown(Value(), u, order)
    {
      ghost var c := Value();
      hide Shown, Refresh, Enter, WorldModel.RemovePlayer, Persist, Look, Saved, Valid, NodeValues, Footprint, Worlds;
      order := AnyOrder(c, u);
      if u !in sessions || target !in configs {
        return;
      }
      var ses := sessions[u];
      if ses.mapId == target {
        order := SnapshotFor(u, now);
        return;
      }
      var n := if target in owners then owners[target] else "";
      HostIn(n, target);
      HostIn(ses.nodeId, ses.mapId);
      if n !in nodes || ses.nodeId !in nodes {
        return;
      }
      if Hosts(c, ses.nodeId, ses.mapId) && u !in WorldOn(c, ses.nodeId, ses.mapId).players {
        NobodyThere(c, ses.nodeId, ses.mapId, u, now);
      }
      var profile := ProfileOn(ses.nodeId, ses.mapId, u, now);
      if profile.None? {
        return;
      }
      if !profile.value.alive {
        order := SnapshotFor(u, now);
        return;
      }
      SetTwice(c, ses.nodeId, ses.mapId, Refresh(WorldOn(c, ses.nodeId, ses.mapId), u, now),
               WorldModel.RemovePlayer(Refresh(WorldOn(c, ses.nodeId, ses.mapId), u, now), u));
      order := Cross(u, ses, target, n, now);
    }

    /** The live player of session ses leaves its map for the target map on node n. */
    method Cross(u: string, ses: Session, target: string, n: string, now: int) returns (ghost order: seq<string>)
      requires Valid() && target in configs && n in nodes && ses.nodeId in nodes && Hosts(Value(), ses.nodeId, ses.mapId)
      requires u in WorldOn(Value(), ses.nodeId, ses.mapId).players
      modifies Footprint()
      ensures Valid() && Footprint() == old(Footprint())
      ensures Hosts(old(Value()), ses.nodeId, ses.mapId) && u in WorldOn(old(Value()), ses.nodeId, ses.mapId).players
      ensures var s := WorldOn(old(Value()), ses.nodeId, ses.mapId);
        var profile := ProfileOf(s, u).(lastMap := target, lastNode := n, at := configs[target].spawn);
        var c1 := SetWorld(old(Value()), ses.nodeId, ses.mapId, WorldModel.RemovePlayer(s, u));
        Value() == Look(Persist(Saved(Enter(c1, u, target, n, profile), profile), u, now), u, order, now)
        && Shown(Value(), u, order)
    {
      HostIn(n, target);
      HostIn(ses.nodeId, ses.mapId);
      hide Shown, Enter, WorldModel.RemovePlayer, Persist, Look, Saved, Valid, NodeValues, Footprint, Worlds;
      var profile := RemovePlayerOn(ses.nodeId, ses.mapId, u);
      var moved := profile.value.(lastMap := target, lastNode := n, at := configs[target].spawn);
      Admit(u, target, n, moved);
      Save(moved);
      PersistSessionState(u, now);
      order := SnapshotFor(u, now);
    }

    // ----- The shared boss -----

    method StrikeBoss(u: string, damage: int, now: int) returns (rewards: map<string, BossModel.Reward>)
      requires Valid()
      modifies Footprint()
      ensures Valid() && Footprint() == old(Footprint())
      ensures Value() == old(Value()).(boss := Struck(old(Value()).boss, u, damage, now))
      ensures rewards == Rewards(old(Value()).boss, u, damage, old(Value()).sessions.Keys)
    {
      hide NodeValues, Struck, Rewards;
      var needRespawn;
      rewards, needRespawn := boss.AttackSection(u, damage, now, sessions.Keys);
      JustTables();
    }

    method RespawnBoss()
      requires Valid()
      modifies Footprint()
      ensures Valid() && Footprint() == old(Footprint())
      ensures Value() == old(Value()).(boss := NewBoss())
    {
      hide NodeValues;
      boss.Respawn();
      JustTables();
    }

    method PayContributor(u: string, r: BossModel.Reward)
      requires Valid()
      modifies Footprint()
      ensures Valid() && Footprint() == old(Footprint())
      ensures Value() == PayOne(old(Value()), u, r)
    {
      hide Valid, NodeValues, Footprint, Worlds;
      if u !in sessions {
        return;
      }
      var ses := sessions[u];
      HostIn(ses.nodeId, ses.mapId);
      if ses.nodeId !in nodes {
        return;
      }
      SameWorld(Value(), ses.nodeId, ses.mapId);
      var profile := RewardPlayerOn(ses.nodeId, ses.mapId, u, r.treasure, r.victories);
      if profile.Some? {
        Save(profile.value.(lastMap := ses.mapId, lastNode := ses.nodeId));
      }
    }

    method PayRewards(rewards: map<string, BossModel.Reward>) returns (ghost payees: seq<string>)
      requires Valid()
      modifies Footprint()
      ensures Valid() && Footprint() == old(Footprint())
      ensures Value() == PayAll(old(Value()), payees, rewards) && Listing(payees, rewards.Keys)
    {
      hide PayOne, Valid, NodeValues, Footprint, Worlds;
      ghost var c := Value();
      payees := [];
      var todo := rewards.Keys;
      while todo != {}
        invariant todo <= rewards.Keys && Valid() && Footprint() == old(Footprint())
        invariant Value() == PayAll(c, payees, rewards)
        invariant |payees| + |todo| == |rewards| && forall u :: u in payees <==> u in rewards && u !in todo
        decreases |todo|
      {
        var u :| u in todo;
        todo := todo - {u};
        PayAllAppend(c, payees, u, rewards);
        PayContributor(u, rewards[u]);
        payees := payees + [u];
      }
      assert forall u :: u in Elements(payees) <==> u in payees;
    }

    method AttackBoss(u: string, now: int) returns (ghost payees: seq<string>, ghost order: seq<string>)
      requires Valid()
      modifies Footprint()
      ensures Valid() && Footprint() == old(Footprint())
      ensures Value() == ClusterModel.AttackBoss(old(Value()), u, payees, order, now)
      ensures Shown(Value(), u, order) && Listing(payees, Payees(old(Value()), u, now))
    {
      ghost var c := Value();
      hide Shown, Listing, Refresh, Struck, Rewards, PayAll, Persist, Look, Damage, Valid, NodeValues, Footprint, Worlds;
      payees, order := AnyPayees(c, u, now), AnyOrder(c, u);
      if u !in sessions {
        return;
      }
      var ses := sessions[u];
      HostIn(ses.nodeId, ses.mapId);
      if ses.nodeId !in nodes {
        return;
      }
      if Hosts(c, ses.nodeId, ses.mapId) && u !in WorldOn(c, ses.nodeId, ses.mapId).players {
        NobodyThere(c, ses.nodeId, ses.mapId, u, now);
      }
      var profile := ProfileOn(ses.nodeId, ses.mapId, u, now);
      order := AnyOrder(Value(), u);
      if profile.None? {
        return;
      }
      if ses.mapId !in configs {
        return;
      }
      if Distance(profile.value.at, configs[ses.mapId].boss) > BOSS_RANGE || !boss.alive {
        order := SnapshotFor(u, now);
        return;
      }
      var damage := Damage(profile.value.attack, profile.value.treasures);
      var rewards := StrikeBoss(u, damage, now);
      payees := PayRewards(rewards);
      PersistSessionState(u, now);
      order := SnapshotFor(u, now);
    }

    // ----- Checkpoints -----

    method LoadCheckpoint(m: string) returns (cp: Checkpoint)
      requires Valid()
      ensures Valid() && Footprint() == old(Footprint()) && Value() == old(Value())
      ensures cp == ClusterModel.LoadCheckpoint(Value().store, m) && Clean(cp)
    {
      hide NodeValues, Clean;
      cp := store.LoadCheckpoint(m);
      JustTables();
    }

    method SaveCheckpoint(cp: Checkpoint)
      requires Valid() && Clean(cp)
      modifies Footprint()
      ensures Valid() && Footprint() == old(Footprint())
      ensures Value() == old(Value()).(store := old(Value()).store.(checkpoints := old(Value()).store.checkpoints[cp.mapId := cp]))
    {
      hide NodeValues;
      store.SaveCheckpoint(cp);
      JustTables();
    }

    method SyncMap(n: string, m: string, now: int) returns (ghost order: seq<string>)
      requires Valid() && n in nodes
      modifies Footprint()
      ensures Valid() && Footprint() == old(Footprint())
      ensures Value() == Sync(old(Value()), n, m, order, now)
      ensures Hosts(old(Value()), n, m) ==> Listing(order, WorldOn(old(Value()), n, m).players.Keys)
    {
      hide Listing, RefreshAll, Captured, Clean, ClusterModel.StoreReplica, Valid, NodeValues, Footprint, Worlds;
      ghost var c := Value();
      HostIn(n, m);
      var cp;
      cp, order := CheckpointOn(n, m, now);
      if cp.None? {
        return;
      }
      SaveCheckpoint(cp.value);
      if m in replicas {
        HostIn(replicas[m], m);
        if replicas[m] in nodes {
          StoreReplicaOn(replicas[m], cp.value);
        }
      }
    }

    method TickMap(m: string, now: int) returns (ghost order: seq<string>)
      requires Valid()
      modifies Footprint()
      ensures Valid() && Footprint() == old(Footprint())
      ensures Value() == Tick(old(Value()), m, order, now)
      ensures m in old(owners) && Hosts(old(Value()), old(owners)[m], m) && old(Value()).nodes[old(owners)[m]].healthy ==>
        Listing(order, WorldOn(old(Value()), old(owners)[m], m).players.Keys)
    {
      hide Sync, Listing, Valid, NodeValues, Footprint, Worlds;
      order := [];
      if m !in owners {
        return;
      }
      HostIn(owners[m], m);
      NodeIn(owners[m]);
      if owners[m] !in nodes || !nodes[owners[m]].healthy {
        return;
      }
      order := SyncMap(owners[m], m, now);
    }

    /** One pass of the checkpoint loop, over the maps in whatever order they are listed. */
    method CheckpointTick(now: int) returns (ghost es: seq<ClusterModel.Event>)
      requires Valid()
      modifies Footprint()
      ensures Valid() && Footprint() == old(Footprint())
      ensures Value() == ClusterModel.Run(old(Value()), es)
      ensures |es| == |old(owners)| && forall m | m in old(owners) :: exists order :: Ticks(m, order, now) in es
    {
      hide Tick, ClusterModel.Step, Valid, NodeValues, Footprint, Worlds;
      ghost var c := Value();
      es := [];
      var todo := owners.Keys;
      while todo != {}
        invariant todo <= c.owners.Keys && Valid() && Footprint() == old(Footprint())
        invariant Value() == ClusterModel.Run(c, es) && |es| + |todo| == |c.owners|
        invariant forall m | m in c.owners && m !in todo :: exists order :: Ticks(m, order, now) in es
        decreases |todo|
      {
        var m :| m in todo;
        todo := todo - {m};
        ghost var order := TickMap(m, now);
        ghost var e := Ticks(m, order, now);
        RunAppend(c, es, e);
        StepTicks(ClusterModel.Run(c, es), m, order, now);
        assert forall x | x in es :: x in es + [e];
        assert e in es + [e];
        es := es + [e];
      }
    }

    // ----- Failures -----

    /** The node ids in order, and the place of the first healthy one that is not the owner. */
    method ScanReplicas(owner: string) returns (ids: seq<string>, first: nat)
      requires Valid()
      ensures Valid() && Footprint() == old(Footprint()) && Value() == old(Value())
      ensures ids == SortedNames(nodes.Keys) && first <= |ids|
      ensures forall j | 0 <= j < first :: !Fit(Value(), owner, ids[j])
      ensures first < |ids| ==> Fit(Value(), owner, ids[first])
    {
      hide SortedNames;
      SortedNamesShape(nodes.Keys);
      assert forall n | n in nodes :: Value().nodes[n].healthy == nodes[n].healthy;
      ids := SortNames(nodes.Keys);
      assert forall i | 0 <= i < |ids| :: ids[i] in ids;
      hide NodeValues;
      first := FirstHealthy(nodes, ids, owner);
      JustTables();
    }

    method PickReplica(owner: string) returns (r: string)
      requires Valid()
      ensures Valid() && Footprint() == old(Footprint()) && Value() == old(Value())
      ensures r == ClusterModel.PickReplica(Value(), owner)
    {
      ghost var c := Value();
      assert c.nodes.Keys == nodes.Keys;
      hide Valid, NodeValues, Footprint, Worlds, Fit, SortedNames, ClusterModel.PickReplica;
      var ids, first := ScanReplicas(owner);
      if first < |ids| {
        FirstFit(c, owner, ids, first);
        return ids[first];
      }
      NoneFit(c, owner, ids);
      return "";
    }

    /** The sessions on map m now go to node r. */
    method RerouteSessions(m: string, r: string)
      requires Valid()
      modifies Footprint()
      ensures Valid() && Footprint() == old(Footprint())
      ensures Value() == old(Value()).(sessions := Reroute(old(Value()).sessions, m, r))
    {
      hide NodeValues, Reroute;
      sessions := RerouteAll(sessions, m, r);
      JustTables();
    }

    method Assign(m: string, owner: string)
      requires Valid()
      modifies Footprint()
      ensures Valid() && Footprint() == old(Footprint())
      ensures Value() == old(Value()).(owners := old(Value()).owners[m := owner])
    {
      hide NodeValues;
      owners := owners[m := owner];
      JustTables();
    }

    method Mirror(m: string, replica: string)
      requires Valid()
      modifies Footprint()
      ensures Valid() && Footprint() == old(Footprint())
      ensures Value() == old(Value()).(replicas := old(Value()).replicas[m := replica])
    {
      hide NodeValues;
      replicas := replicas[m := replica];
      JustTables();
    }

    /** Map m now belongs to node r, with a new replica, and its sessions follow. */
    method HandOver(m: string, r: string)
      requires Valid()
      modifies Footprint()
      ensures Valid() && Footprint() == old(Footprint())
      ensures Value() == Handed(old(Value()), m, r)
    {
      ghost var c := Value();
      hide Valid, NodeValues, Footprint, Worlds, ClusterModel.PickReplica;
      Assign(m, r);
      SamePick(c, Value(), r);
      var pick := PickReplica(r);
      Mirror(m, pick);
      RerouteSessions(m, r);
    }

    /** Node r takes map m over from its snapshot, or else from the stored checkpoint. */
    method PromoteOrLoad(r: string, m: string) returns (ok: bool)
      requires Valid() && r in nodes && m in configs
      modifies Footprint()
      ensures Valid() && fresh(Footprint() - old(Footprint())) && r in old(Value()).nodes
      ensures ok == (m in Supplied(old(Value()), r, m).snapshots)
      ensures Value() == Readied(old(Value()), r, m, build(configs[m]))
    {
      hide Promoted, Clean, Valid, NodeValues;
      ghost var c := Value();
      HostIn(r, m);
      ok := PromoteOn(r, m);
      if ok {
        return;
      }
      var cp := LoadCheckpoint(m);
      StoreReplicaOn(r, cp);
      assert Footprint() == old(Footprint()) && Value().nodes == c.nodes[r := Supplied(c, r, m)];
      ok := PromoteOn(r, m);
      if ok {
        PutTwice(c, r, Supplied(c, r, m), Promoted(Supplied(c, r, m), m, build(configs[m])));
      }
    }

    method FailOverMap(n: string, m: string)
      requires Valid()
      modifies Footprint()
      ensures Valid() && fresh(Footprint() - old(Footprint()))
      ensures Value() == ClusterModel.FailOverMap(old(Value()), n, m)
    {
      hide Supplied, Readied, Handed, Valid, NodeValues, Footprint, Worlds;
      ghost var c := Value();
      if m !in owners || owners[m] != n || m !in configs {
        return;
      }
      var r := if m in replicas then replicas[m] else "";
      HostIn(r, m);
      HostIn(n, m);
      if r !in nodes {
        return;
      }
      FailOverSteps(c, n, m, r);
      hide ClusterModel.FailOverMap;
      var ok := PromoteOrLoad(r, m);
      if ok {
        HandOver(m, r);
        if n in nodes {
          RemoveHostedMapOn(n, m);
        }
      }
    }

    /** Every map of the failed node that can move does, in whatever order the owners are listed. */
    method HandleNodeFailure(n: string) returns (ghost ms: seq<string>)
      requires Valid()
      modifies Footprint()
      ensures Valid() && fresh(Footprint() - old(Footprint()))
      ensures Value() == FailOver(old(Value()), n, ms) && Listing(ms, old(owners).Keys)
    {
      hide ClusterModel.FailOverMap, Valid, NodeValues;
      ghost var c := Value();
      ms := [];
      var todo := owners.Keys;
      while todo != {}
        invariant todo <= c.owners.Keys && Valid() && fresh(Footprint() - old(Footprint()))
        invariant Value() == FailOver(c, n, ms)
        invariant |ms| + |todo| == |c.owners| && forall m :: m in ms <==> m in c.owners && m !in todo
        decreases |todo|
      {
        var m :| m in todo;
        todo := todo - {m};
        FailOverAppend(c, n, ms, m);
        FailOverMap(n, m);
        ms := ms + [m];
      }
      assert forall m :: m in Elements(ms) <==> m in ms;
    }

    /** One node's turn in the heartbeat loop; `reached` is the outcome of the ping. */
    method Heartbeat(n: string, reached: bool) returns (ghost ms: seq<string>)
      requires Valid()
      modifies Footprint()
      ensures Valid() && fresh(Footprint() - old(Footprint()))
      ensures Value() == Beat(old(Value()), n, reached, ms) && Listing(ms, old(owners).Keys)
    {
      hide FailOver, Listing, Valid, NodeValues;
      ms := AnyListing(owners.Keys);
      HostIn(n, "");
      if n !in nodes {
        return;
      }
      var was := SetHealthOn(n, reached);
      if was && !reached {
        ms := HandleNodeFailure(n);
      }
    }

    /** One more map is captured. */
    method SyncStep(n: string, hosted: seq<string>, i: nat, now: int,
                    ghost c: ClusterModel.Cluster, ghost orders: map<string, seq<string>>)
      returns (ghost wider: map<string, seq<string>>)
      requires Valid() && n in nodes && i < |hosted| && Distinct(hosted)
      requires SyncedUpTo(c, n, hosted, i, orders, now, Value())
      modifies Footprint()
      ensures Valid() && Footprint() == old(Footprint())
      ensures SyncedUpTo(c, n, hosted, i + 1, wider, now, Value())
    {
      hide Sync, SyncAll, Lookup, Ordered, Listing, Distinct, Hosts, WorldOn, Valid, Value, NodeValues, Footprint, Worlds;
      ghost var order := SyncMap(n, hosted[i], now);
      SyncNext(c, n, hosted, i, orders, order, now);
      wider := orders[hosted[i] := order];
    }

    /** Captures every map the node hosts, in the order of their ids. */
    method SyncHosted(n: string, now: int) returns (ghost orders: map<string, seq<string>>)
      requires Valid() && n in nodes
      modifies Footprint()
      ensures Valid() && Footprint() == old(Footprint()) && n in old(Value()).nodes
      ensures var names := SortedNames(old(Value()).nodes[n].maps.Keys);
        SyncedUpTo(old(Value()), n, names, |names|, orders, now, Value())
    {
      HostIn(n, "");
      ghost var c := Value();
      SortedNamesShape(c.nodes[n].maps.Keys);
      SyncNone(c, n, now);
      hide SyncedUpTo, SortedNames, Valid, Value, NodeValues, Footprint, Worlds;
      var hosted := HostedIds(n);
      orders := map[];
      for i := 0 to |hosted|
        invariant Valid() && Footprint() == old(Footprint())
        invariant SyncedUpTo(c, n, hosted, i, orders, now, Value())
      {
        orders := SyncStep(n, hosted, i, now, c, orders);
      }
    }

    method HostedIds(n: string) returns (ids: seq<string>)
      requires Valid() && n in nodes
      ensures Valid() && Footprint() == old(Footprint()) && Value() == old(Value())
      ensures n in Value().nodes && ids == SortedNames(Value().nodes[n].maps.Keys)
    {
      hide SortedNames;
      assert Value().nodes[n].maps.Keys == nodes[n].maps.Keys;
      ids := SortNames(nodes[n].maps.Keys);
      hide NodeValues;
      JustTables();
    }

    /** The planned failure of a node. */
    method FailNode(n: string, now: int) returns (ghost orders: map<string, seq<string>>, ghost ms: seq<string>)
      requires Valid()
      modifies Footprint()
      ensures Valid() && fresh(Footprint() - old(Footprint()))
      ensures Value() == ClusterModel.FailNode(old(Value()), n, Lookup(orders), ms, now)
      ensures Listing(ms, old(owners).Keys)
      ensures n in old(Value()).nodes ==>
        Ordered(old(Value()), n, SortedNames(old(Value()).nodes[n].maps.Keys), orders)
    {
      hide SyncAll, SyncedUpTo, FailOver, Ordered, Listing, SortedNames, Valid, NodeValues;
      ms, orders := AnyListing(owners.Keys), map[];
      HostIn(n, "");
      if n !in nodes {
        return;
      }
      orders := SyncHosted(n, now);
      SyncedWhole(old(Value()), n, SortedNames(old(Value()).nodes[n].maps.Keys), orders, now, Value());
      var was := SetHealthOn(n, false);
      SyncAllTables(old(Value()), n, SortedNames(old(Value()).nodes[n].maps.Keys), Lookup(orders), now);
      ms := HandleNodeFailure(n);
    }

    method RecoverNode(n: string) returns (ghost ms: seq<string>)
      requires Valid()
      modifies Footprint()
      ensures Valid() && Footprint() == old(Footprint())
      ensures Value() == ClusterModel.RecoverNode(old(Value()), n, ms) && Listing(ms, old(owners).Keys)
    {
      ms := AnyListing(owners.Keys);
      hide RecoverMap, Valid, NodeValues, Footprint, Worlds;
      HostIn(n, "");
      if n !in nodes {
        return;
      }
      var was := SetHealthOn(n, true);
      ghost var c := Value();
      ms := [];
      var todo := owners.Keys;
      while todo != {}
        invariant todo <= c.owners.Keys && Valid() && Footprint() == old(Footprint())
        invariant Value() == RecoverMaps(c, n, ms) && owners == c.owners
        invariant |ms| + |todo| == |c.owners| && forall m :: m in ms <==> m in c.owners && m !in todo
        decreases |todo|
      {
        var m :| m in todo;
        todo := todo - {m};
        RecoverAppend(c, n, ms, m);
        RecoverOne(n, m);
        ms := ms + [m];
      }
      assert forall m :: m in Elements(ms) <==> m in ms;
    }

    method RecoverOne(n: string, m: string)
      requires Valid() && n in nodes
      modifies Footprint()
      ensures Valid() && Footprint() == old(Footprint()) && owners == old(owners)
      ensures Value() == RecoverMap(old(Value()), n, m)
    {
      hide Clean, Valid, NodeValues, Footprint, Worlds;
      HostIn(n, "");
      if m !in owners || owners[m] == n {
        return;
      }
      var cp := LoadCheckpoint(m);
      StoreReplicaOn(n, cp);
      Mirror(m, n);
    }

    /** One map's turn in the background loop, which visits the healthy nodes. */
    method LiveMap(n: string, m: string, now: int) returns (ghost order: seq<string>)
      requires Valid()
      modifies Footprint()
      ensures Valid() && Footprint() == old(Footprint())
      ensures Value() == Live(old(Value()), n, m, order, now)
      ensures Hosts(old(Value()), n, m) && old(Value()).nodes[n].healthy ==>
        Listing(order, WorldOn(old(Value()), n, m).players.Keys)
    {
      hide Background, Listing, Valid, NodeValues, Footprint, Worlds;
      order := [];
      HostIn(n, m);
      NodeIn(n);
      if n in nodes && nodes[n].healthy && m in nodes[n].maps {
        order := BackgroundOn(n, m, now);
      }
    }

    // ----- Placing the maps of a new cluster -----

    /** Node n builds the world of map m and lets it load the checkpoint. */
    method HostMap(n: string, m: string, cp: Checkpoint)
      requires Valid() && n in nodes && m in configs && Clean(cp)
      modifies Footprint()
      ensures Valid() && fresh(Footprint() - old(Footprint())) && n in old(Value()).nodes
      ensures Value() == old(Value()).(nodes := old(Value()).nodes[n :=
        With(old(Value()).nodes[n], m, Restore(Installed(old(Value()).nodes[n].maps, m, build(configs[m]))[m], cp))])
    {
      NodeIn(n);
      WorldsApart(n);
      hide Valid, Value, NodeValues, Restore, Installed, With, Clean, OnePerCell;
      hide NodeService.Valid, NodeService.Value, NodeService.Grown;
      nodes[n].RestorePrimaryMap(m, configs[m], cp, build);
      JustNode(n);
    }

    method Place(m: string, owner: string, replica: string)
      requires Valid() && owner in nodes && replica in nodes && m in configs
      modifies Footprint()
      ensures Valid() && fresh(Footprint() - old(Footprint())) && owner in old(Value()).nodes && replica in old(Value()).nodes
      ensures Value() == ClusterModel.Place(old(Value()), m, owner, replica)
    {
      HostIn(owner, m);
      HostIn(replica, m);
      hide Restore, Clean, Valid, NodeValues;
      Assign(m, owner);
      Mirror(m, replica);
      var cp := LoadCheckpoint(m);
      HostMap(owner, m, cp);
      StoreReplicaOn(replica, cp);
    }

    method PlaceAll()
      requires Valid() && nodes.Keys == {"node-a", "node-b", "node-c"} && configs.Keys == {"green", "cave", "ruins"}
      requires Value() == Blank(store.Value(), configs, build)
      modifies Footprint()
      ensures Valid()
      ensures Value() == ClusterModel.NewCluster(old(store.Value()), configs, build)
    {
      hide ClusterModel.Place, Blank, Valid, NodeValues, OnePerCell;
      Place("green", "node-a", "node-c");
      Place("cave", "node-b", "node-c");
      Place("ruins", "node-a", "node-b");
    }
  }

  /** NewCluster: three nodes, and every map placed on an owner and a replica. */
  method NewCluster(store: UserStore, configs: map<string, Config>, build: Config -> State) returns (c: Cluster)
    requires store.Valid() && forall m | m in configs :: OnePerCell(build(configs[m]).treasures)
    requires configs.Keys == {"green", "cave", "ruins"}
    modifies store
    ensures fresh(c) && c.Valid() && c.store == store
    ensures c.Value() == ClusterModel.NewCluster(old(store.Value()), configs, build)
  {
    hide Cluster.Valid, Cluster.NodeValues, Cluster.Value, OnePerCell, ClusterModel.NewCluster, Blank;
    c := BlankCluster(store, configs, build);
    c.PlaceAll();
  }

  method BlankCluster(store: UserStore, configs: map<string, Config>, build: Config -> State) returns (c: Cluster)
    requires store.Valid() && forall m | m in configs :: OnePerCell(build(configs[m]).treasures)
    ensures fresh(c) && c.Valid() && c.store == store
    ensures fresh(c.boss) && fresh(c.nodes.Values) && c.Worlds() == {}
    ensures c.nodes.Keys == {"node-a", "node-b", "node-c"} && c.configs == configs && c.build == build
    ensures c.Value() == Blank(store.Value(), configs, build)
  {
    var nodes := ThreeNodes();
    var boss := new BossState();
    c := new Cluster.Init(store, nodes, boss, configs, build);
    hide OnePerCell;
    assert forall n | n in c.nodes :: c.Bare(n);
    c.BareCluster();
  }
}
