/** What an unplanned failure does: a heartbeat that finds its node gone hands every map of the node to the
    map's replica, in the state of the last checkpoint, and touches no other map. */
module ClusterTakeover {
  import opened Basics
  import opened WorldModel
  import opened WorldCheckpoint
  import opened WorldLife
  import opened ClusterModel
  import opened ClusterRouting
  import opened ClusterCopies
  import opened ClusterSimulation

  /** The replica of the map is a known node, and it or the store has a copy of the map. */
  ghost predicate Backed(c: Cluster, m: string) {
    && m in c.replicas && c.replicas[m] in c.nodes
    && (m in c.nodes[c.replicas[m]].snapshots || m in c.store.checkpoints)
  }

  /** The copy from which the replica would take the map over: its own before the stored one. */
  ghost function Copy(c: Cluster, m: string): Checkpoint
    requires Backed(c, m)
  {
    var snapshots := c.nodes[c.replicas[m]].snapshots;
    if m in snapshots then snapshots[m] else c.store.checkpoints[m]
  }

  /** Owner, host, world, replica and copy of the map are what they were. */
  ghost predicate Untouched(c: Cluster, d: Cluster, m: string) {
    && m in c.owners && m in d.owners && d.owners[m] == c.owners[m]
    && m in c.replicas && m in d.replicas && d.replicas[m] == c.replicas[m]
    && Hosts(c, c.owners[m], m) && Hosts(d, c.owners[m], m) && WorldOn(d, c.owners[m], m) == WorldOn(c, c.owners[m], m)
    && (Backed(d, m) <==> Backed(c, m)) && (Backed(c, m) ==> Copy(d, m) == Copy(c, m))
  }

  /** The replica of the map is the first healthy node by name that does not own it, or "" if there is none. */
  ghost predicate Seconded(c: Cluster, m: string) {
    && m in c.owners && m in c.replicas
    && (c.replicas[m] == "" || (c.replicas[m] in c.nodes && c.replicas[m] != c.owners[m] && c.nodes[c.replicas[m]].healthy))
    && forall k | k in c.nodes && k != c.owners[m] && k != c.replicas[m] && c.nodes[k].healthy ::
         c.replicas[m] != "" && StrLess(c.replicas[m], k)
  }

  /** The replica has taken the map over from node n, in the state of its copy, and has got a replica in turn. */
  ghost predicate TakenOver(c: Cluster, d: Cluster, n: string, m: string) {
    && Backed(c, m) && m in c.configs && m in d.owners && d.owners[m] == c.replicas[m] && c.replicas[m] != n
    && Hosts(d, c.replicas[m], m) && !Hosts(d, n, m) && Seconded(d, m)
    && WorldOn(d, c.replicas[m], m) == Restore(c.newWorld(c.configs[m]), Copy(c, m))
  }

  ghost predicate Goes(c: Cluster, n: string, m: string) {
    m in c.owners && c.owners[m] == n && Backed(c, m)
  }

  /** What a failover keeps besides the maps. */
  ghost predicate Frame(c: Cluster, d: Cluster) {
    && d.store == c.store && d.boss == c.boss && d.configs == c.configs && d.newWorld == c.newWorld
    && d.nodes.Keys == c.nodes.Keys && (forall n | n in c.nodes :: d.nodes[n].healthy == c.nodes[n].healthy)
    && SeenAt(d.sessions) == SeenAt(c.sessions)
  }

  lemma SuppliedCopy(c: Cluster, m: string)
    requires Keyed(c) && m in c.configs && m in c.replicas && c.replicas[m] in c.nodes
    ensures var s := Supplied(c, c.replicas[m], m).snapshots;
      && (m in s <==> Backed(c, m)) && (m in s ==> s[m] == Copy(c, m))
      && forall k | k != m && k != "" ::
           (k in s <==> k in c.nodes[c.replicas[m]].snapshots) && (k in s ==> s[k] == c.nodes[c.replicas[m]].snapshots[k])
  {
  }

  lemma Hosted(c: Cluster, m: string)
    requires Routing(c) && m in c.configs
    ensures m in c.owners && m in c.replicas && Hosts(c, c.owners[m], m) && c.replicas[m] != c.owners[m]
  {
    hide Built, WorldsFit, SessionsRouted, Recorded;
    Placement(c);
  }

  lemma SelfUntouched(c: Cluster, m: string)
    requires Routing(c) && m in c.configs
    ensures Untouched(c, c, m)
  {
    hide Routing;
    Hosted(c, m);
  }

  lemma UntouchedChain(c: Cluster, d: Cluster, e: Cluster, m: string)
    requires Untouched(c, d, m) && Untouched(d, e, m)
    ensures Untouched(c, e, m)
  {
    hide Hosts, WorldOn, Backed, Copy;
  }

  lemma TakenAfter(c: Cluster, d: Cluster, e: Cluster, n: string, m: string)
    requires Untouched(c, d, m) && TakenOver(d, e, n, m) && d.configs == c.configs && d.newWorld == c.newWorld
    ensures TakenOver(c, e, n, m)
  {
    hide Restore, Seconded, Hosts, WorldOn, Backed, Copy;
  }

  lemma SecondedStays(d: Cluster, e: Cluster, m: string)
    requires Seconded(d, m) && Untouched(d, e, m) && Frame(d, e)
    ensures Seconded(e, m)
  {
    hide SeenAt, Hosts, WorldOn, Backed, Copy;
  }

  lemma TakenBefore(c: Cluster, d: Cluster, e: Cluster, n: string, m: string)
    requires TakenOver(c, d, n, m) && Untouched(d, e, m) && Frame(d, e) && Routing(e)
    ensures TakenOver(c, e, n, m)
  {
    SecondedStays(d, e, m);
    hide Frame, Seconded, Restore, Built, WorldsFit, SessionsRouted, Recorded, Backed, Copy;
  }

  // ----- One map's turn -----

  /** Every node's snapshot of map k is what it was. */
  ghost predicate SameSnapshots(c: Cluster, d: Cluster, k: string) {
    && d.nodes.Keys == c.nodes.Keys
    && forall q | q in c.nodes :: (k in d.nodes[q].snapshots <==> k in c.nodes[q].snapshots)
         && (k in c.nodes[q].snapshots ==> d.nodes[q].snapshots[k] == c.nodes[q].snapshots[k])
  }

  lemma SameCopies(c: Cluster, d: Cluster, k: string)
    requires k in c.replicas && k in d.replicas && d.replicas[k] == c.replicas[k]
    requires SameSnapshots(c, d, k) && d.store.checkpoints == c.store.checkpoints
    ensures (Backed(d, k) <==> Backed(c, k)) && (Backed(c, k) ==> Copy(d, k) == Copy(c, k))
  {
  }

  /** Only the snapshots of one node changed, and there only under the empty name. */
  lemma NothingSupplied(c: Cluster, r: string, node: Node, m: string)
    requires Routing(c) && r in c.nodes && m in c.configs && m != "" && node.maps == c.nodes[r].maps
    requires (m in node.snapshots <==> m in c.nodes[r].snapshots)
    requires m in c.nodes[r].snapshots ==> node.snapshots[m] == c.nodes[r].snapshots[m]
    ensures Untouched(c, c.(nodes := c.nodes[r := node]), m)
  {
    hide Routing;
    Hosted(c, m);
    var d := c.(nodes := c.nodes[r := node]);
    SameCopies(c, d, m);
    hide Backed, Copy;
  }

  lemma MovedSnapshots(c: Cluster, d: Cluster, m: string, n: string, r: string, s: State, k: string)
    requires Moved(c, d, m, n, r, s) && k != m && k != "" && Keyed(c)
    ensures SameSnapshots(c, d, k)
  {
    hide Reroute, Restore;
  }

  lemma MovedStore(c: Cluster, d: Cluster, m: string, n: string, r: string, s: State)
    requires Moved(c, d, m, n, r, s)
    ensures d.store == c.store
  {
    hide Reroute, Supplied;
  }

  lemma MovedOthers(c: Cluster, d: Cluster, m: string, n: string, r: string, s: State, k: string)
    requires Routing(c) && Keyed(c) && Moved(c, d, m, n, r, s) && m in c.configs && k in c.configs && k != m
    ensures Untouched(c, d, k)
  {
    hide Routing, Moved, Backed, Copy, SameSnapshots;
    Hosted(c, k);
    WriterOf(c);
    MovedWriter(c, d, m, n, r, s);
    MovedPlaces(c, d, m, n, r, s);
    MovedStore(c, d, m, n, r, s);
    MovedSnapshots(c, d, m, n, r, s, k);
    SameCopies(c, d, k);
    hide SingleWriter;
    assert Hosts(d, c.owners[k], k);
  }

  lemma MovedFrame(c: Cluster, d: Cluster, m: string, n: string, r: string, s: State)
    requires Moved(c, d, m, n, r, s)
    ensures Frame(c, d)
  {
    assert SeenAt(Reroute(c.sessions, m, r)) == SeenAt(c.sessions);
    hide Supplied, Reroute, SeenAt;
  }

  lemma Turn(c: Cluster, n: string, m: string)
    requires Routing(c) && Keyed(c) && n in c.nodes
    ensures var d := FailOverMap(c, n, m);
      && Routing(d) && Frame(c, d) && (forall k | k in c.configs && k != m :: Untouched(c, d, k))
      && (m in c.configs ==> if Goes(c, n, m) then TakenOver(c, d, n, m) else Untouched(c, d, m))
  {
    hide Routing, Keyed, Restore, Supplied, Moved, FailOverMap, Untouched, TakenOver, Frame;
    FailOverMapRouting(c, n, m);
    if m in c.owners && c.owners[m] == n && m in c.configs {
      Hosted(c, m);
      if Backed(c, m) {
        TurnTakes(c, n, m);
      } else {
        TurnIdles(c, n, m);
      }
    } else {
      TurnSkips(c, n, m);
    }
  }

  lemma TurnSkips(c: Cluster, n: string, m: string)
    requires Routing(c) && !(m in c.owners && c.owners[m] == n && m in c.configs)
    ensures FailOverMap(c, n, m) == c && Frame(c, c) && forall k | k in c.configs :: Untouched(c, c, k)
  {
    hide Routing, Untouched;
    forall k | k in c.configs ensures Untouched(c, c, k) {
      SelfUntouched(c, k);
    }
  }

  /** The node that takes a map over picks a new replica among the nodes then healthy. */
  lemma TurnSeconds(c: Cluster, n: string, m: string)
    requires Goes(c, n, m) && m in c.configs && n in c.nodes && Keyed(c) && "" !in c.nodes && c.replicas[m] != n
    ensures Seconded(FailOverMap(c, n, m), m)
  {
    SuppliedCopy(c, m);
    SuppliedShape(c, c.replicas[m], m);
    hide Supplied, Restore, PickReplica, Reroute, Keyed;
    var r := c.replicas[m];
    var ready := Supplied(c, r, m);
    var c1 := c.(nodes := c.nodes[r := Promoted(ready, m, c.newWorld(c.configs[m]))], owners := c.owners[m := r]);
    PickReplicaIsOther(c1, r);
    PickReplicaFirst(c1, r);
    SameHealth(c, n, m, c1);
  }

  lemma SameHealth(c: Cluster, n: string, m: string, c1: Cluster)
    requires Goes(c, n, m) && m in c.configs && n in c.nodes && c.replicas[m] != n
          && m in Supplied(c, c.replicas[m], m).snapshots
    requires Supplied(c, c.replicas[m], m).healthy == c.nodes[c.replicas[m]].healthy
    requires c1 == c.(nodes := c.nodes[c.replicas[m] := Promoted(Supplied(c, c.replicas[m], m), m, c.newWorld(c.configs[m]))],
                      owners := c.owners[m := c.replicas[m]])
    ensures var d := FailOverMap(c, n, m);
      && d.nodes.Keys == c1.nodes.Keys && (forall k | k in d.nodes :: d.nodes[k].healthy == c1.nodes[k].healthy)
      && d.owners == c1.owners && m in d.replicas && d.replicas[m] == PickReplica(c1, c.replicas[m])
  {
    hide Supplied, Restore, PickReplica, Reroute;
  }

  lemma PickReplicaFirst(c: Cluster, owner: string)
    requires "" !in c.nodes
    ensures forall k | k in c.nodes && k != owner && k != PickReplica(c, owner) && c.nodes[k].healthy ::
      PickReplica(c, owner) != "" && StrLess(PickReplica(c, owner), k)
  {
    StrLessStrictTotal();
    var fit := set n | n in c.nodes && n != owner && c.nodes[n].healthy;
    if fit != {} {
      LeastExists(fit, StrLess);
    }
    forall k | k in c.nodes && k != owner && k != PickReplica(c, owner) && c.nodes[k].healthy
      ensures PickReplica(c, owner) != "" && StrLess(PickReplica(c, owner), k)
    {
      assert k in fit;
    }
  }

  lemma TurnTakes(c: Cluster, n: string, m: string)
    requires Routing(c) && Keyed(c) && n in c.nodes && m in c.configs && Goes(c, n, m) && c.replicas[m] != n
    ensures var d := FailOverMap(c, n, m);
      TakenOver(c, d, n, m) && Frame(c, d) && forall k | k in c.configs && k != m :: Untouched(c, d, k)
  {
    TurnSeconds(c, n, m) by {
      hide Built;
    }
    hide Routing, Restore, Supplied, FailOverMap, Untouched, Frame, Keyed, Seconded;
    var r := c.replicas[m];
    SuppliedCopy(c, m);
    FailOverMoves(c, n, m);
    var d, s := FailOverMap(c, n, m), Restore(c.newWorld(c.configs[m]), Copy(c, m));
    assert Moved(c, d, m, n, r, s);
    hide Moved;
    WriterOf(c);
    MovedWriter(c, d, m, n, r, s);
    MovedPlaces(c, d, m, n, r, s);
    MovedFrame(c, d, m, n, r, s);
    forall k | k in c.configs && k != m ensures Untouched(c, d, k) {
      MovedOthers(c, d, m, n, r, s, k);
    }
  }

  lemma WriterOf(c: Cluster)
    requires Routing(c)
    ensures SingleWriter(c)
  {
    hide SingleWriter, Built, WorldsFit, SessionsRouted, Recorded;
  }

  lemma TurnIdles(c: Cluster, n: string, m: string)
    requires Routing(c) && Keyed(c) && m in c.configs && m in c.owners && c.owners[m] == n && m in c.replicas
          && !Backed(c, m)
    ensures var d := FailOverMap(c, n, m); Frame(c, d) && forall k | k in c.configs :: Untouched(c, d, k)
  {
    hide Routing, Untouched;
    var r := c.replicas[m];
    if r in c.nodes {
      IdleTurn(c, n, m);
      var node := Supplied(c, r, m);
      SuppliedShape(c, r, m);
      SuppliedCopy(c, m);
      hide Supplied, FailOverMap;
      forall k | k in c.configs ensures Untouched(c, c.(nodes := c.nodes[r := node]), k) {
        assert k != "";
        NothingSupplied(c, r, node, k);
      }
    } else {
      forall k | k in c.configs ensures Untouched(c, c, k) {
        SelfUntouched(c, k);
      }
    }
  }

  lemma IdleTurn(c: Cluster, n: string, m: string)
    requires Keyed(c) && m in c.configs && m in c.owners && c.owners[m] == n && m in c.replicas && !Backed(c, m)
    requires c.replicas[m] in c.nodes
    ensures FailOverMap(c, n, m) == c.(nodes := c.nodes[c.replicas[m] := Supplied(c, c.replicas[m], m)])
  {
    SuppliedCopy(c, m);
    hide Supplied;
  }

  // ----- The whole failover -----

  lemma FrameChain(c: Cluster, d: Cluster, e: Cluster)
    requires Frame(c, d) && Frame(d, e)
    ensures Frame(c, e)
  {
    hide SeenAt;
  }

  /** Over the maps in any order: those of the failing node that have a copy move, all others stay. */
  lemma {:induction false} FailOverTakes(c: Cluster, n: string, ms: seq<string>)
    requires Routing(c) && Keyed(c) && n in c.nodes
    ensures var d := FailOver(c, n, ms);
      && Routing(d) && Frame(c, d)
      && forall m | m in c.configs :: if m in ms && Goes(c, n, m) then TakenOver(c, d, n, m) else Untouched(c, d, m)
    decreases |ms|
  {
    hide Routing, Keyed, FailOverMap, Untouched, TakenOver, Frame, Goes;
    if ms == [] {
      FrameSelf(c);
      forall m | m in c.configs ensures Untouched(c, c, m) {
        SelfUntouched(c, m);
      }
    } else {
      var d := FailOverMap(c, n, ms[0]);
      Turn(c, n, ms[0]);
      FrameParts(c, d);
      SameKeyed(c, d);
      FailOverTakes(d, n, ms[1..]);
      var e := FailOver(d, n, ms[1..]);
      FrameChain(c, d, e);
      assert ms == [ms[0]] + ms[1..];
      forall m | m in c.configs ensures if m in ms && Goes(c, n, m) then TakenOver(c, e, n, m) else Untouched(c, e, m) {
        OneMap(c, d, e, n, ms, m);
      }
    }
  }

  lemma FrameSelf(c: Cluster)
    ensures Frame(c, c)
  {
  }

  lemma FrameParts(c: Cluster, d: Cluster)
    requires Frame(c, d)
    ensures d.configs == c.configs && d.newWorld == c.newWorld && d.nodes.Keys == c.nodes.Keys
          && d.store == c.store && d.boss == c.boss
  {
    hide SeenAt;
  }

  lemma OneMap(c: Cluster, d: Cluster, e: Cluster, n: string, ms: seq<string>, m: string)
    requires ms != [] && m in c.configs && d.configs == c.configs && d.newWorld == c.newWorld && Frame(d, e) && Routing(e)
    requires if m == ms[0] && Goes(c, n, m) then TakenOver(c, d, n, m) else Untouched(c, d, m)
    requires if m in ms[1..] && Goes(d, n, m) then TakenOver(d, e, n, m) else Untouched(d, e, m)
    ensures if m in ms && Goes(c, n, m) then TakenOver(c, e, n, m) else Untouched(c, e, m)
  {
    hide Routing, Frame, Seconded, Hosts, WorldOn, Restore, Copy, Backed;
    assert ms == [ms[0]] + ms[1..];
    if m == ms[0] && Goes(c, n, m) {
      assert !Goes(d, n, m);
      TakenBefore(c, d, e, n, m);
    } else {
      assert Goes(d, n, m) <==> Goes(c, n, m);
      if m in ms[1..] && Goes(d, n, m) {
        TakenAfter(c, d, e, n, m);
      } else {
        UntouchedChain(c, d, e, m);
      }
    }
  }

  // ----- The heartbeat -----

  lemma HealthUntouched(c: Cluster, n: string, healthy: bool, m: string)
    requires Routing(c) && n in c.nodes && m in c.configs
    ensures Untouched(c, SetHealthy(c, n, healthy), m)
  {
    hide Routing;
    Hosted(c, m);
    SameCopies(c, SetHealthy(c, n, healthy), m);
    hide Backed, Copy;
  }

  lemma HealthRouting(c: Cluster, n: string, healthy: bool)
    requires Routing(c) && n in c.nodes
    ensures Routing(SetHealthy(c, n, healthy))
  {
    NodeRouting(c, n, c.nodes[n].(healthy := healthy)) by {
      hide Built;
    }
    hide Routing;
  }

  /** The session of every user points to the owner of its map, before and after. */
  ghost predicate Rerouted(c: Cluster, d: Cluster) {
    && d.sessions.Keys == c.sessions.Keys
    && forall u | u in c.sessions :: c.sessions[u].mapId in d.owners
         && d.sessions[u] == Session(c.sessions[u].mapId, d.owners[c.sessions[u].mapId])
  }

  lemma ReroutedAll(c: Cluster, d: Cluster)
    requires Routing(d) && SeenAt(d.sessions) == SeenAt(c.sessions)
    ensures Rerouted(c, d)
  {
    hide Built, SingleWriter, WorldsFit, Recorded;
    assert d.sessions.Keys == SeenAt(d.sessions).Keys == SeenAt(c.sessions).Keys == c.sessions.Keys;
    forall u | u in c.sessions
      ensures c.sessions[u].mapId in d.owners
            && d.sessions[u] == Session(c.sessions[u].mapId, d.owners[c.sessions[u].mapId])
    {
      assert SeenAt(d.sessions)[u] == SeenAt(c.sessions)[u];
    }
  }

  /** A heartbeat that finds a healthy node gone marks it and moves exactly its backed maps to their
      replicas, each in the state of its copy; sessions follow, and nothing else changes. */
  lemma HeartbeatTakesOver(c: Cluster, n: string, ms: seq<string>)
    requires Routing(c) && Keyed(c) && n in c.nodes && c.nodes[n].healthy && forall m | m in c.owners :: m in ms
    ensures var d := ClusterModel.Step(c, Beats(n, false, ms));
      && Routing(d) && Rerouted(c, d) && d.store == c.store && d.boss == c.boss
      && d.nodes.Keys == c.nodes.Keys && (forall k | k in c.nodes :: d.nodes[k].healthy == (c.nodes[k].healthy && k != n))
      && forall m | m in c.configs :: if Goes(c, n, m) then TakenOver(c, d, n, m) else Untouched(c, d, m)
  {
    hide *;
    BeatIs(c, n, ms);
    NodeGone(c, n, ms);
  }

  lemma BeatIs(c: Cluster, n: string, ms: seq<string>)
    requires n in c.nodes && c.nodes[n].healthy
    ensures ClusterModel.Step(c, Beats(n, false, ms)) == FailOver(SetHealthy(c, n, false), n, ms)
  {
    hide FailOver;
  }

  /** What becomes of a cluster whose node n is marked down before the failover over all maps. */
  lemma NodeGone(c: Cluster, n: string, ms: seq<string>)
    requires Routing(c) && Keyed(c) && n in c.nodes && forall m | m in c.owners :: m in ms
    ensures var d := FailOver(SetHealthy(c, n, false), n, ms);
      && Routing(d) && Rerouted(c, d) && d.store == c.store && d.boss == c.boss
      && d.nodes.Keys == c.nodes.Keys && (forall k | k in c.nodes :: d.nodes[k].healthy == (c.nodes[k].healthy && k != n))
      && forall m | m in c.configs :: if Goes(c, n, m) then TakenOver(c, d, n, m) else Untouched(c, d, m)
  {
    var b := SetHealthy(c, n, false);
    assert Keyed(b);
    hide Routing, Keyed, FailOver, Untouched, TakenOver, Goes;
    HealthRouting(c, n, false);
    FailOverTakes(b, n, ms);
    var d := FailOver(b, n, ms);
    hide SetHealthy, SeenAt;
    FrameOf(c, n, d);
    ReroutedAll(c, d);
    forall m | m in c.configs ensures if Goes(c, n, m) then TakenOver(c, d, n, m) else Untouched(c, d, m) {
      HealthUntouched(c, n, false, m);
      SameConfigs(c, n);
      AfterHealth(c, b, d, n, m);
      Hosted(c, m);
      assert m in ms;
    }
  }

  lemma SameConfigs(c: Cluster, n: string)
    requires n in c.nodes
    ensures SetHealthy(c, n, false).configs == c.configs && SetHealthy(c, n, false).newWorld == c.newWorld
  {
  }

  lemma FrameOf(c: Cluster, n: string, d: Cluster)
    requires n in c.nodes && Frame(SetHealthy(c, n, false), d)
    ensures d.store == c.store && d.boss == c.boss && SeenAt(d.sessions) == SeenAt(c.sessions)
    ensures d.nodes.Keys == c.nodes.Keys && forall k | k in c.nodes :: d.nodes[k].healthy == (c.nodes[k].healthy && k != n)
  {
    hide SeenAt;
  }

  lemma AfterHealth(c: Cluster, b: Cluster, d: Cluster, n: string, m: string)
    requires Untouched(c, b, m) && b.configs == c.configs && b.newWorld == c.newWorld
    ensures Goes(b, n, m) <==> Goes(c, n, m)
    ensures TakenOver(b, d, n, m) ==> TakenOver(c, d, n, m)
    ensures Untouched(b, d, m) ==> Untouched(c, d, m)
  {
    hide Seconded, Hosts, WorldOn, Restore, Backed, Copy;
  }

  /** A heartbeat that reaches its node, or finds one that was down already, only notes that. */
  lemma HeartbeatNotes(c: Cluster, n: string, reached: bool, ms: seq<string>)
    requires n in c.nodes && (reached || !c.nodes[n].healthy)
    ensures ClusterModel.Step(c, Beats(n, reached, ms)) == c.(nodes := c.nodes[n := c.nodes[n].(healthy := reached)])
  {
    hide FailOver;
  }

  /** The worlds as players see them after the loss of node n: its backed maps are set back to their copies. */
  ghost function SetBack(c: Cluster, n: string): map<string, State> {
    map m | m in c.configs && m in c.owners && Hosts(c, c.owners[m], m) ::
      if Goes(c, n, m) then Restore(c.newWorld(c.configs[m]), Copy(c, m)) else WorldOn(c, c.owners[m], m)
  }

  /** What players see of an unplanned failure: the backed maps of the lost node are set back to their copies,
      and everything else is as it was. */
  lemma HeartbeatSeen(c: Cluster, n: string, ms: seq<string>)
    requires Routing(c) && Keyed(c) && n in c.nodes && c.nodes[n].healthy && forall m | m in c.owners :: m in ms
    ensures Face(ClusterModel.Step(c, Beats(n, false, ms))) == Face(c).(worlds := SetBack(c, n))
  {
    hide *;
    var d := ClusterModel.Step(c, Beats(n, false, ms));
    HeartbeatTakesOver(c, n, ms);
    HeartbeatSetting(c, n, ms);
    SeeSetBack(c, d, n);
    SeatsFollow(c, d);
    FaceIs(c, d, SetBack(c, n));
  }

  lemma FaceIs(c: Cluster, d: Cluster, worlds: map<string, State>)
    requires SeenWorlds(d) == worlds && SeenAt(d.sessions) == SeenAt(c.sessions)
    requires d.store == c.store && d.boss == c.boss && d.configs == c.configs
    ensures Face(d) == Face(c).(worlds := worlds)
  {
    hide SeenWorlds, SeenAt, SeenUsers;
  }

  lemma HeartbeatSetting(c: Cluster, n: string, ms: seq<string>)
    requires n in c.nodes && c.nodes[n].healthy
    ensures ClusterModel.Step(c, Beats(n, false, ms)).configs == c.configs
  {
    BeatIs(c, n, ms);
    FailOverStores(SetHealthy(c, n, false), n, ms);
    hide FailOver, ClusterModel.Step;
  }

  lemma SeatsFollow(c: Cluster, d: Cluster)
    requires Rerouted(c, d)
    ensures SeenAt(d.sessions) == SeenAt(c.sessions)
  {
  }

  lemma SeeSetBack(c: Cluster, d: Cluster, n: string)
    requires Routing(c) && Routing(d) && d.configs == c.configs
    requires forall m | m in c.configs :: if Goes(c, n, m) then TakenOver(c, d, n, m) else Untouched(c, d, m)
    ensures SeenWorlds(d) == SetBack(c, n)
  {
    hide *;
    SeenKeys(d);
    SetBackKeys(c, n);
    SameKeys(c, d);
    forall m | m in c.configs
      ensures m in SeenWorlds(d) && m in SetBack(c, n) && SeenWorlds(d)[m] == SetBack(c, n)[m]
    {
      Hosted(c, m);
      Hosted(d, m);
      OneSetBack(c, d, n, m);
    }
    assert SeenWorlds(d).Keys == SetBack(c, n).Keys;
  }

  lemma SeenKeys(c: Cluster)
    requires Routing(c)
    ensures SeenWorlds(c).Keys == c.configs.Keys
  {
    hide Routing;
    Placement(c);
  }

  lemma SetBackKeys(c: Cluster, n: string)
    requires Routing(c)
    ensures SetBack(c, n).Keys == c.configs.Keys
  {
    hide Routing, Goes, Copy, Restore;
    Placement(c);
  }

  lemma SameKeys(c: Cluster, d: Cluster)
    requires d.configs == c.configs
    ensures d.configs.Keys == c.configs.Keys
  {
  }

  lemma OneSetBack(c: Cluster, d: Cluster, n: string, m: string)
    requires Routing(c) && m in c.configs && m in c.owners && Hosts(c, c.owners[m], m) && m in d.owners
          && Hosts(d, d.owners[m], m)
    requires if Goes(c, n, m) then TakenOver(c, d, n, m) else Untouched(c, d, m)
    ensures m in SeenWorlds(d) && m in SetBack(c, n) && SeenWorlds(d)[m] == SetBack(c, n)[m]
  {
    hide Routing, Restore, Seconded, Backed, Copy;
  }
}
