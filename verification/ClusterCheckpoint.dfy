/** What the checkpoint loop is for: a map whose owner is lost without warning comes back on its replica
    exactly as the last checkpoint found it, whatever was played since. */
module ClusterCheckpoint {
  import opened Basics
  import opened WorldModel
  import opened WorldCheckpoint
  import opened WorldLife
  import opened ClusterModel
  import opened ClusterRouting
  import opened ClusterCopies
  import opened ClusterTakeover
  import opened ClusterFailover
  import opened ClusterResults
  import opened ClusterEffects

  // ----- One tick -----

  ghost predicate SameButWorlds(c: Cluster, d: Cluster) {
    && d.nodes.Keys == c.nodes.Keys && d.owners == c.owners && d.replicas == c.replicas && d.sessions == c.sessions
    && d.configs == c.configs && d.newWorld == c.newWorld && d.boss == c.boss && d.store.users == c.store.users
    && (forall q | q in c.nodes :: d.nodes[q].healthy == c.nodes[q].healthy && d.nodes[q].maps.Keys == c.nodes[q].maps.Keys)
  }

  /** Map m shows the world s and its copies are cp: the stored one and, if the replica is a known node,
      the replica's. Every other world and copy is what it was. */
  ghost predicate CopiedTo(c: Cluster, d: Cluster, m: string, s: State, cp: Checkpoint) {
    && SameButWorlds(c, d) && m in c.owners && m in c.replicas && Hosts(d, c.owners[m], m) && WorldOn(d, c.owners[m], m) == s
    && (forall q, k | Hosts(c, q, k) && k != m :: Hosts(d, q, k) && WorldOn(d, q, k) == WorldOn(c, q, k))
    && d.store.checkpoints == c.store.checkpoints[m := cp]
    && (forall q | q in c.nodes :: d.nodes[q].snapshots ==
          if q == c.replicas[m] then c.nodes[q].snapshots[m := cp] else c.nodes[q].snapshots)
  }

  ghost function OwnedWorld(c: Cluster, m: string): State
    requires m in c.owners && Hosts(c, c.owners[m], m)
  {
    WorldOn(c, c.owners[m], m)
  }

  /** Map m gets world s at node o, and its copies become cp. */
  ghost function Copied(c: Cluster, o: string, m: string, s: State, cp: Checkpoint): Cluster
    requires o in c.nodes
  {
    var c1 := SetWorld(c, o, m, s);
    var c2 := c1.(store := c1.store.(checkpoints := c1.store.checkpoints[cp.mapId := cp]));
    if m in c2.replicas && c2.replicas[m] in c2.nodes then
      c2.(nodes := c2.nodes[c2.replicas[m] := StoreReplica(c2.nodes[c2.replicas[m]], cp)])
    else c2
  }

  lemma CopiedIs(c: Cluster, m: string, s: State, cp: Checkpoint)
    requires m in c.owners && m in c.replicas && Hosts(c, c.owners[m], m) && c.replicas[m] != c.owners[m] && cp.mapId == m
    ensures CopiedTo(c, Copied(c, c.owners[m], m, s, cp), m, s, cp)
  {
    CopiedFrame(c, c.owners[m], m, s, cp);
    CopiedWorlds(c, c.owners[m], m, s, cp);
    hide Copied, SameButWorlds, Hosts, WorldOn;
  }

  lemma CopiedFrame(c: Cluster, o: string, m: string, s: State, cp: Checkpoint)
    requires Hosts(c, o, m) && m in c.replicas && c.replicas[m] != o && cp.mapId == m
    ensures var d := Copied(c, o, m, s, cp);
      && SameButWorlds(c, d) && d.store.checkpoints == c.store.checkpoints[m := cp]
      && forall q | q in c.nodes :: d.nodes[q].snapshots ==
           if q == c.replicas[m] then c.nodes[q].snapshots[m := cp] else c.nodes[q].snapshots
  {
    hide Copied;
    var d := Copied(c, o, m, s, cp);
    CopiedRest(c, o, m, s, cp);
    forall q | q in c.nodes
      ensures d.nodes[q].healthy == c.nodes[q].healthy && d.nodes[q].maps.Keys == c.nodes[q].maps.Keys
      ensures d.nodes[q].snapshots == if q == c.replicas[m] then c.nodes[q].snapshots[m := cp] else c.nodes[q].snapshots
    {
      CopiedNode(c, o, m, s, cp, q);
    }
  }

  lemma CopiedRest(c: Cluster, o: string, m: string, s: State, cp: Checkpoint)
    requires Hosts(c, o, m) && cp.mapId == m
    ensures var d := Copied(c, o, m, s, cp);
      && d == c.(nodes := d.nodes, store := d.store) && d.nodes.Keys == c.nodes.Keys
      && d.store.users == c.store.users && d.store.checkpoints == c.store.checkpoints[m := cp]
  {
    hide StoreReplica;
  }

  lemma CopiedNode(c: Cluster, o: string, m: string, s: State, cp: Checkpoint, q: string)
    requires Hosts(c, o, m) && m in c.replicas && c.replicas[m] != o && cp.mapId == m && q in c.nodes
    ensures var d := Copied(c, o, m, s, cp);
      && q in d.nodes && d.nodes[q].healthy == c.nodes[q].healthy && d.nodes[q].maps.Keys == c.nodes[q].maps.Keys
      && d.nodes[q].snapshots == if q == c.replicas[m] then c.nodes[q].snapshots[m := cp] else c.nodes[q].snapshots
  {
  }

  lemma CopiedWorlds(c: Cluster, o: string, m: string, s: State, cp: Checkpoint)
    requires Hosts(c, o, m) && m in c.replicas && c.replicas[m] != o
    ensures var d := Copied(c, o, m, s, cp);
      && Hosts(d, o, m) && WorldOn(d, o, m) == s
      && forall q, k | Hosts(c, q, k) && k != m :: Hosts(d, q, k) && WorldOn(d, q, k) == WorldOn(c, q, k)
  {
  }

  lemma SyncIsCopied(c: Cluster, o: string, m: string, order: seq<string>, now: int)
    requires Hosts(c, o, m)
    ensures var s := RefreshAll(WorldOn(c, o, m), order, now); Sync(c, o, m, order, now) == Copied(c, o, m, s, Captured(s, o, now))
  {
    hide RefreshAll, Captured, SetWorld, StoreReplica;
  }

  lemma SyncCopies(c: Cluster, m: string, order: seq<string>, now: int)
    requires Routing(c) && m in c.configs && m in c.owners && Hosts(c, c.owners[m], m)
    ensures var o := c.owners[m];
      var s := RefreshAll(WorldOn(c, o, m), order, now);
      CopiedTo(c, Sync(c, o, m, order, now), m, s, Captured(s, o, now))
  {
    hide Routing, RefreshAll, Captured, Sync, Copied, CopiedTo;
    var o := c.owners[m];
    var s := RefreshAll(WorldOn(c, o, m), order, now);
    Hosted(c, m);
    CapturedKey(c, o, m, order, now);
    SyncIsCopied(c, o, m, order, now);
    CopiedIs(c, m, s, Captured(s, o, now));
  }

  /** A tick of the checkpoint loop at a healthy owner captures the map as it is shown to its players. */
  lemma TickCaptures(c: Cluster, m: string, order: seq<string>, now: int)
    requires Routing(c) && m in c.configs
    ensures m in c.owners && Hosts(c, c.owners[m], m)
    ensures var o := c.owners[m];
      var d := ClusterModel.Step(c, Ticks(m, order, now));
      var s := RefreshAll(OwnedWorld(c, m), order, now);
      if c.nodes[o].healthy then CopiedTo(c, d, m, s, Captured(s, o, now)) else d == c
  {
    hide Routing, CopiedTo, RefreshAll, Captured, Sync;
    Hosted(c, m);
    SyncCopies(c, m, order, now);
  }

  // ----- Between two ticks -----

  /** Nothing that copies map m, moves a map or takes a node down. */
  predicate Quiet(e: Event, m: string) {
    Plays(e) || (e.Ticks? && e.m != m) || (e.Beats? && e.reached)
  }

  /** Owner o of map m is up, and the only copy that counts is cp, on replica r. */
  ghost predicate Kept(c: Cluster, m: string, o: string, r: string, cp: Checkpoint) {
    && m in c.owners && c.owners[m] == o && o in c.nodes && c.nodes[o].healthy
    && m in c.replicas && c.replicas[m] == r && r in c.nodes && m in c.nodes[r].snapshots && c.nodes[r].snapshots[m] == cp
  }

  lemma BackingKept(c: Cluster, d: Cluster, m: string, o: string, r: string, cp: Checkpoint)
    requires Kept(c, m, o, r, cp) && Backing(d) == Backing(c)
    ensures Kept(d, m, o, r, cp) && d.configs == c.configs && d.newWorld == c.newWorld
  {
    assert d.nodes.Keys == Backing(d).nodes.Keys == Backing(c).nodes.Keys == c.nodes.Keys;
    assert d.owners == Backing(d).owners && c.owners == Backing(c).owners;
    assert d.replicas == Backing(d).replicas && c.replicas == Backing(c).replicas;
    assert d.configs == Backing(d).configs && c.configs == Backing(c).configs;
    assert d.newWorld == Backing(d).newWorld && c.newWorld == Backing(c).newWorld;
    forall q | q in c.nodes ensures d.nodes[q].healthy == c.nodes[q].healthy && d.nodes[q].snapshots == c.nodes[q].snapshots {
      assert Backing(d).nodes[q] == Backing(c).nodes[q];
    }
  }

  lemma CopiedKept(c: Cluster, d: Cluster, k: string, s: State, cp': Checkpoint, m: string, o: string, r: string, cp: Checkpoint)
    requires Kept(c, m, o, r, cp) && CopiedTo(c, d, k, s, cp') && k != m
    ensures Kept(d, m, o, r, cp) && d.configs == c.configs && d.newWorld == c.newWorld
  {
    hide Hosts, WorldOn;
  }

  lemma QuietKept(c: Cluster, e: Event, m: string, o: string, r: string, cp: Checkpoint)
    requires Routing(c) && Quiet(e, m) && Kept(c, m, o, r, cp)
    ensures var d := ClusterModel.Step(c, e); Kept(d, m, o, r, cp) && d.configs == c.configs && d.newWorld == c.newWorld
  {
    hide Routing, Backing, CopiedTo, RefreshAll, Captured;
    var d := ClusterModel.Step(c, e);
    if Plays(e) {
      hide ClusterModel.Step;
      PlayBacking(c, e);
      BackingKept(c, d, m, o, r, cp);
    } else if e.Ticks? {
      TickKept(c, e.m, e.order, e.now, m, o, r, cp);
    } else {
      hide FailOver;
    }
  }

  lemma TickKept(c: Cluster, k: string, order: seq<string>, now: int, m: string, o: string, r: string, cp: Checkpoint)
    requires Routing(c) && k != m && Kept(c, m, o, r, cp)
    ensures var d := ClusterModel.Step(c, Ticks(k, order, now));
      Kept(d, m, o, r, cp) && d.configs == c.configs && d.newWorld == c.newWorld
  {
    hide CopiedTo, RefreshAll, Captured, Sync, Kept, Built, SingleWriter, WorldsFit, SessionsRouted, Recorded, Assigned;
    assert c.owners.Keys == c.configs.Keys by { Placement(c); }
    hide Routing;
    if k in c.configs {
      TickCaptures(c, k, order, now);
      hide ClusterModel.Step;
      var s := RefreshAll(OwnedWorld(c, k), order, now);
      var d := ClusterModel.Step(c, Ticks(k, order, now));
      if c.nodes[c.owners[k]].healthy {
        CopiedKept(c, d, k, s, Captured(s, c.owners[k], now), m, o, r, cp);
      }
    }
  }

  ghost predicate AllQuiet(es: seq<Event>, m: string) {
    forall i | 0 <= i < |es| :: Quiet(es[i], m)
  }

  lemma {:induction false} QuietRunKept(c: Cluster, es: seq<Event>, m: string, o: string, r: string, cp: Checkpoint)
    requires Routing(c) && Keyed(c) && AllQuiet(es, m) && Kept(c, m, o, r, cp)
    ensures var d := ClusterModel.Run(c, es);
      Routing(d) && Keyed(d) && Kept(d, m, o, r, cp) && d.configs == c.configs && d.newWorld == c.newWorld
    decreases |es|
  {
    hide Routing, Keyed, Kept, Quiet, ClusterModel.Step;
    if es != [] {
      var d := ClusterModel.Step(c, es[0]);
      StepRouting(c, es[0]);
      StepKeyed(c, es[0]);
      QuietKept(c, es[0], m, o, r, cp);
      assert AllQuiet(es[1..], m);
      QuietRunKept(d, es[1..], m, o, r, cp);
    }
  }

  // ----- The loss -----

  /** A tick, any play, and then the loss of the owner. */
  ghost function Lost(c: Cluster, m: string, order: seq<string>, now: int, es: seq<Event>, ms: seq<string>): Cluster
    requires m in c.owners
  {
    ClusterModel.Step(ClusterModel.Run(ClusterModel.Step(c, Ticks(m, order, now)), es), Beats(c.owners[m], false, ms))
  }

  /** The checkpoint was taken of world w at the owner o; after its loss the map is that world on replica r. */
  lemma KeptTakenOver(c: Cluster, m: string, o: string, r: string, s: State, now: int, ms: seq<string>)
    requires Routing(c) && Keyed(c) && m in c.configs && Kept(c, m, o, r, Captured(s, o, now))
    requires s.cfg == c.configs[m] && s.version > 0 && forall k | k in c.owners :: k in ms
    ensures var d := ClusterModel.Step(c, Beats(o, false, ms));
      && m in d.owners && d.owners[m] == r && Hosts(d, r, m) && !Hosts(d, o, m)
      && WorldOn(d, r, m) == Normalise(s, c.newWorld(c.configs[m]).drawn) && d.store == c.store && Rerouted(c, d)
  {
    HeartbeatTakesOver(c, o, ms);
    KeptGoes(c, m, o, r, Captured(s, o, now));
    BuiltWorld(c, m);
    hide Captured, Routing, Keyed, Normalise, Restore, Seconded, Rerouted, ClusterModel.Step, Untouched, Goes;
    RoundTrip(s, c.newWorld(c.configs[m]), o, now);
  }

  lemma KeptGoes(c: Cluster, m: string, o: string, r: string, cp: Checkpoint)
    requires Kept(c, m, o, r, cp)
    ensures Goes(c, o, m) && Copy(c, m) == cp
  {
  }

  lemma BuiltWorld(c: Cluster, m: string)
    requires Routing(c) && m in c.configs
    ensures c.newWorld(c.configs[m]).cfg == c.configs[m]
  {
    hide Built;
    BuiltShape(c.newWorld(c.configs[m]), c.configs[m]);
  }

  lemma TickedKept(c: Cluster, m: string, s: State, cp: Checkpoint, d: Cluster)
    requires CopiedTo(c, d, m, s, cp) && c.replicas[m] in c.nodes && c.owners[m] in c.nodes && c.nodes[c.owners[m]].healthy
    ensures Kept(d, m, c.owners[m], c.replicas[m], cp) && d.configs == c.configs && d.newWorld == c.newWorld
    ensures d.owners.Keys == c.owners.Keys
  {
    hide Hosts, WorldOn;
  }

  /** The world as the tick shows it is a world of the map. */
  lemma ShownFits(c: Cluster, m: string, order: seq<string>, now: int)
    requires Routing(c) && m in c.configs && m in c.owners && Hosts(c, c.owners[m], m)
    ensures var s := RefreshAll(OwnedWorld(c, m), order, now); s.cfg == c.configs[m] && s.version > 0
  {
    HostedName(c, c.owners[m], m);
    RefreshAllSteady(OwnedWorld(c, m), order, now);
    hide Routing, RefreshAll;
  }

  /** An unplanned failure sets a map back to its last checkpoint, taken by a tick at the healthy owner for a
      replica that is a known node: the world is the one the tick showed, as a restore renews it, and no
      trace is left of what players and the background loop did to it between; the accounts stay as saved. */
  lemma LossReturnsToTick(c: Cluster, m: string, order: seq<string>, now: int, es: seq<Event>, ms: seq<string>)
    requires Routing(c) && Keyed(c) && m in c.configs && AllQuiet(es, m) && forall k | k in c.configs :: k in ms
    requires m in c.owners && Hosts(c, c.owners[m], m) && c.nodes[c.owners[m]].healthy
    requires m in c.replicas && c.replicas[m] in c.nodes
    ensures var d := Lost(c, m, order, now, es, ms);
      && m in d.owners && d.owners[m] == c.replicas[m] && Hosts(d, c.replicas[m], m) && !Hosts(d, c.owners[m], m)
      && WorldOn(d, c.replicas[m], m) ==
           Normalise(RefreshAll(OwnedWorld(c, m), order, now), c.newWorld(c.configs[m]).drawn)
      && d.store == ClusterModel.Run(ClusterModel.Step(c, Ticks(m, order, now)), es).store
      && Rerouted(ClusterModel.Run(ClusterModel.Step(c, Ticks(m, order, now)), es), d)
  {
    hide Routing, Keyed, Kept, CopiedTo, RefreshAll, Captured, Normalise, AllQuiet, ClusterModel.Step, ClusterModel.Run, Rerouted;
    var o, r := c.owners[m], c.replicas[m];
    var s := RefreshAll(OwnedWorld(c, m), order, now);
    var c1 := ClusterModel.Step(c, Ticks(m, order, now));
    TickCaptures(c, m, order, now);
    StepRouting(c, Ticks(m, order, now));
    StepKeyed(c, Ticks(m, order, now));
    TickedKept(c, m, s, Captured(s, o, now), c1);
    ShownFits(c, m, order, now);
    QuietRunKept(c1, es, m, o, r, Captured(s, o, now));
    var c2 := ClusterModel.Run(c1, es);
    AllListed(c2, ms);
    KeptTakenOver(c2, m, o, r, s, now, ms);
  }

  // ----- Who is left where -----

  lemma CommandsRefused(d: Cluster, u: string, cmd: Command, order: seq<string>, now: int)
    requires !Playing(d, u)
    ensures ClusterModel.Step(d, Acts(u, cmd, order, now)) == d
  {
    hide Obey, AttackVictim, SaveVictim, Look, Persist;
  }

  /** The players of a map after such a loss are those the tick found there: of the users whose sessions lead
      to the map these and no others can still play. */
  lemma LossSeats(c: Cluster, m: string, order: seq<string>, now: int, es: seq<Event>, ms: seq<string>, u: string)
    requires Routing(c) && Keyed(c) && m in c.configs && AllQuiet(es, m) && forall k | k in c.configs :: k in ms
    requires m in c.owners && Hosts(c, c.owners[m], m) && c.nodes[c.owners[m]].healthy
    requires m in c.replicas && c.replicas[m] in c.nodes
    requires var before := ClusterModel.Run(ClusterModel.Step(c, Ticks(m, order, now)), es);
      u in before.sessions && before.sessions[u].mapId == m
    ensures var d := Lost(c, m, order, now, es, ms);
      && u in d.sessions && d.sessions[u] == Session(m, c.replicas[m])
      && (Playing(d, u) <==> u in OwnedWorld(c, m).players)
      && (!Playing(d, u) ==> forall cmd, order', now' :: ClusterModel.Step(d, Acts(u, cmd, order', now')) == d)
  {
    hide *;
    LossReturnsToTick(c, m, order, now, es, ms);
    var d := Lost(c, m, order, now, es, ms);
    SeatsThere(c, m, order, now, ClusterModel.Run(ClusterModel.Step(c, Ticks(m, order, now)), es), d, u);
    if !Playing(d, u) {
      forall cmd, order', now' ensures ClusterModel.Step(d, Acts(u, cmd, order', now')) == d {
        CommandsRefused(d, u, cmd, order', now');
      }
    }
  }

  lemma SeatsThere(c: Cluster, m: string, order: seq<string>, now: int, before: Cluster, d: Cluster, u: string)
    requires m in c.configs && m in c.owners && Hosts(c, c.owners[m], m) && m in c.replicas && Rerouted(before, d)
    requires u in before.sessions && before.sessions[u].mapId == m && m in d.owners && d.owners[m] == c.replicas[m]
    requires Hosts(d, c.replicas[m], m)
    requires WorldOn(d, c.replicas[m], m) == Normalise(RefreshAll(OwnedWorld(c, m), order, now), c.newWorld(c.configs[m]).drawn)
    ensures u in d.sessions && d.sessions[u] == Session(m, c.replicas[m])
    ensures Playing(d, u) <==> u in OwnedWorld(c, m).players
  {
    RefreshAllSteady(OwnedWorld(c, m), order, now);
    hide RefreshAll, Hosts, WorldOn, OwnedWorld, AllEvolve;
  }

  lemma AllListed(c: Cluster, ms: seq<string>)
    requires Routing(c) && forall k | k in c.configs :: k in ms
    ensures forall k | k in c.owners :: k in ms
  {
    Placement(c);
    hide Routing;
  }

  // ----- A planned failure -----

  /** Map m is at its replica instead of node n, and has got a replica again. */
  ghost predicate HandedOver(c: Cluster, d: Cluster, n: string, m: string) {
    && m in c.replicas && m in d.owners && d.owners[m] == c.replicas[m] && Hosts(d, c.replicas[m], m) && !Hosts(d, n, m)
    && Seconded(d, m)
  }

  /** After a planned failure node n is down and hosts none of the maps that had a replica: each is at its
      replica and has got another one, a healthy node if there is any, which n no longer is. */
  lemma FailureHandsOver(c: Cluster, n: string, orders: string -> seq<string>, ms: seq<string>, now: int)
    requires Routing(c) && Keyed(c) && n in c.nodes && forall m | m in c.owners :: m in ms
    ensures var d := ClusterModel.Step(c, Fails(n, orders, ms, now));
      && Routing(d) && Rerouted(c, d) && d.nodes.Keys == c.nodes.Keys
      && (forall k | k in c.nodes :: d.nodes[k].healthy == (c.nodes[k].healthy && k != n))
      && forall m | m in Leaving(c, n, ms) :: HandedOver(c, d, n, m)
  {
    hide *;
    var hosted := HostedOn(c, n);
    var c1 := SyncAll(c, n, hosted, orders, now);
    SyncAllRouting(c, n, hosted, orders, now);
    SyncAllKeyed(c, n, hosted, orders, now);
    SyncAllSame(c, n, hosted, orders, now);
    SyncedShape(c, c1);
    NodeGone(c1, n, ms);
    FailureIs(c, n, orders, ms, now);
    var d := ClusterModel.Step(c, Fails(n, orders, ms, now));
    ReroutedSame(c, c1, d);
    forall m | m in Leaving(c, n, ms) ensures HandedOver(c, d, n, m) {
      LeavingGoes(c, n, orders, ms, now, m);
      TakenShape(c, c1, d, n, m);
    }
  }

  ghost function HostedOn(c: Cluster, n: string): seq<string>
    requires n in c.nodes
  {
    SortedNames(c.nodes[n].maps.Keys)
  }

  lemma FailureIs(c: Cluster, n: string, orders: string -> seq<string>, ms: seq<string>, now: int)
    requires n in c.nodes && n in SyncAll(c, n, HostedOn(c, n), orders, now).nodes
    ensures ClusterModel.Step(c, Fails(n, orders, ms, now))
      == FailOver(SetHealthy(SyncAll(c, n, HostedOn(c, n), orders, now), n, false), n, ms)
  {
    hide SyncAll, FailOver, SortedNames, SetHealthy;
  }

  /** Capturing leaves owners, replicas, sessions and health alone. */
  ghost predicate Synced(c: Cluster, d: Cluster) {
    && SamePlacement(c, d) && d.sessions == c.sessions && d.boss == c.boss
    && (forall q | q in c.nodes :: d.nodes[q].healthy == c.nodes[q].healthy)
  }

  lemma SyncedShape(c: Cluster, d: Cluster)
    requires Synced(c, d)
    ensures d.nodes.Keys == c.nodes.Keys && d.owners == c.owners && d.replicas == c.replicas && d.sessions == c.sessions
    ensures d.configs == c.configs && forall q | q in c.nodes :: d.nodes[q].healthy == c.nodes[q].healthy
  {
  }

  lemma ReroutedSame(c: Cluster, c1: Cluster, d: Cluster)
    requires Synced(c, c1) && Rerouted(c1, d)
    ensures Rerouted(c, d)
  {
  }

  lemma SyncSame(c: Cluster, n: string, m: string, order: seq<string>, now: int)
    ensures Synced(c, Sync(c, n, m, order, now))
  {
    hide RefreshAll, Captured;
  }

  lemma {:induction false} SyncAllSame(c: Cluster, n: string, hosted: seq<string>, orders: string -> seq<string>, now: int)
    ensures Synced(c, SyncAll(c, n, hosted, orders, now))
    decreases |hosted|
  {
    hide Sync;
    if hosted != [] {
      SyncSame(c, n, hosted[0], orders(hosted[0]), now);
      SyncAllSame(Sync(c, n, hosted[0], orders(hosted[0]), now), n, hosted[1..], orders, now);
    }
  }

  /** A captured map has a copy at its replica. */
  lemma LeavingGoes(c: Cluster, n: string, orders: string -> seq<string>, ms: seq<string>, now: int, m: string)
    requires Routing(c) && n in c.nodes && m in Leaving(c, n, ms)
    ensures m in c.configs && m in c.replicas && Goes(SyncAll(c, n, HostedOn(c, n), orders, now), n, m)
  {
    hide Routing, SyncAll, SortedNames, Ready;
    var hosted := HostedOn(c, n);
    HostedNames(c, n);
    SyncAllSame(c, n, hosted, orders, now);
    SyncAllReady(c, n, hosted, orders, now);
    assert m in Elements(hosted) && m in c.configs by {
      OwnedByHost(c, n, m);
      assert m in Owned(c, n);
    }
    var i :| 0 <= i < |hosted| && hosted[i] == m;
    ReadyGoes(SyncAll(c, n, hosted, orders, now), n, m, now);
  }

  lemma ReadyGoes(c: Cluster, n: string, m: string, now: int)
    requires Ready(c, n, m, now) && m in c.replicas && c.replicas[m] in c.nodes
    ensures Goes(c, n, m)
  {
    hide Captured;
  }

  lemma TakenShape(c: Cluster, c1: Cluster, d: Cluster, n: string, m: string)
    requires TakenOver(c1, d, n, m) && c1.replicas == c.replicas
    ensures HandedOver(c, d, n, m)
  {
    hide Hosts, Copy, Restore, Seconded;
  }

  // ----- A recovery -----

  /** Node n is the replica of map m unless it owns the map, and has its stored checkpoint. */
  ghost predicate Rejoined(c: Cluster, d: Cluster, n: string, m: string) {
    && m in c.owners && m in d.replicas && n in d.nodes
    && (c.owners[m] == n ==> m in c.replicas && d.replicas[m] == c.replicas[m])
    && (c.owners[m] != n ==> d.replicas[m] == n)
    && (c.owners[m] != n && m in c.store.checkpoints ==>
          m in d.nodes[n].snapshots && d.nodes[n].snapshots[m] == c.store.checkpoints[m])
  }

  /** Only replicas, and snapshots on node n, differ. */
  ghost predicate SameButReplicas(c: Cluster, d: Cluster, n: string) {
    && n in c.nodes && n in d.nodes
    && d == c.(nodes := c.nodes[n := c.nodes[n].(snapshots := d.nodes[n].snapshots)], replicas := d.replicas)
  }

  /** What a recovery's turns did to map m so far: it rejoined, or its turn is still to come. */
  ghost predicate Rejoining(c: Cluster, d: Cluster, n: string, m: string, seen: bool) {
    if seen then Rejoined(c, d, n, m)
    else
      && m in c.replicas && m in d.replicas && d.replicas[m] == c.replicas[m] && n in c.nodes && n in d.nodes
      && (m in d.nodes[n].snapshots <==> m in c.nodes[n].snapshots)
      && (m in c.nodes[n].snapshots ==> d.nodes[n].snapshots[m] == c.nodes[n].snapshots[m])
  }

  lemma RejoinTurn(c: Cluster, n: string, k: string, m: string)
    requires n in c.nodes && Keyed(c) && m in c.owners && m in c.replicas && m != ""
    ensures var d := RecoverMap(c, n, k); SameButReplicas(c, d, n) && Rejoining(c, d, n, m, k == m)
  {
  }

  lemma RejoinChain(c: Cluster, d: Cluster, e: Cluster, n: string, m: string, first: bool, later: bool)
    requires SameButReplicas(c, d, n) && SameButReplicas(d, e, n) && m in c.owners
    requires Rejoining(c, d, n, m, first) && Rejoining(d, e, n, m, later)
    ensures SameButReplicas(c, e, n) && Rejoining(c, e, n, m, first || later)
  {
  }

  lemma {:induction false} RecoverMapsRejoin(c: Cluster, n: string, ms: seq<string>, m: string)
    requires n in c.nodes && Keyed(c) && m in c.owners && m in c.replicas && m != ""
    ensures var d := RecoverMaps(c, n, ms); SameButReplicas(c, d, n) && Rejoining(c, d, n, m, m in ms)
    decreases |ms|
  {
    hide RecoverMap, Rejoining, Keyed;
    if ms == [] {
      RejoinNothing(c, n, m);
    } else {
      var d := RecoverMap(c, n, ms[0]);
      RejoinTurn(c, n, ms[0], m);
      RejoinShape(c, d, n, m, ms[0] == m);
      SameKeyed(c, d);
      RecoverMapsRejoin(d, n, ms[1..], m);
      assert ms == [ms[0]] + ms[1..];
      RejoinChain(c, d, RecoverMaps(d, n, ms[1..]), n, m, ms[0] == m, m in ms[1..]);
    }
  }

  lemma RejoinShape(c: Cluster, d: Cluster, n: string, m: string, seen: bool)
    requires Rejoining(c, d, n, m, seen)
    ensures m in d.replicas && n in d.nodes
  {
  }

  lemma RejoinNothing(c: Cluster, n: string, m: string)
    requires n in c.nodes && m in c.replicas
    ensures SameButReplicas(c, c, n) && Rejoining(c, c, n, m, false)
  {
  }

  /** A recovered node is healthy and the replica of every map it does not own, with the map's stored
      checkpoint; owners and worlds stay as they are. */
  lemma RecoveryRejoins(c: Cluster, n: string, ms: seq<string>)
    requires Routing(c) && Keyed(c) && n in c.nodes && forall m | m in c.owners :: m in ms
    ensures var d := ClusterModel.Step(c, Recovers(n, ms));
      && SameButReplicas(SetHealthy(c, n, true), d, n) && d.nodes[n].healthy
      && forall m | m in c.configs :: Rejoined(c, d, n, m)
  {
    hide *;
    var b := SetHealthy(c, n, true);
    HealthRouting(c, n, true);
    HealthShape(c, n);
    SameKeyed(c, b);
    RecoverIs(c, n, ms);
    var d := ClusterModel.Step(c, Recovers(n, ms));
    forall m | m in c.configs ensures SameButReplicas(b, d, n) && Rejoined(b, d, n, m) {
      Hosted(c, m);
      NoEmptyName(c, m);
      RecoverMapsRejoin(b, n, ms, m);
      RejoiningSeen(b, d, n, m);
    }
    HasDefault(c);
    assert SameButReplicas(b, d, n);
    RejoinedFrom(c, d, n);
  }

  lemma HealthShape(c: Cluster, n: string)
    requires n in c.nodes
    ensures var b := SetHealthy(c, n, true);
      && n in b.nodes && b.configs == c.configs && b.store == c.store && b.owners == c.owners && b.replicas == c.replicas
  {
  }

  lemma RecoverIs(c: Cluster, n: string, ms: seq<string>)
    requires n in c.nodes
    ensures ClusterModel.Step(c, Recovers(n, ms)) == RecoverMaps(SetHealthy(c, n, true), n, ms)
  {
    hide RecoverMaps;
  }

  lemma NoEmptyName(c: Cluster, m: string)
    requires Keyed(c) && m in c.configs
    ensures m != ""
  {
  }

  lemma HasDefault(c: Cluster)
    requires Routing(c)
    ensures DEFAULT_MAP in c.configs
  {
    hide Built;
  }

  lemma RejoiningSeen(c: Cluster, d: Cluster, n: string, m: string)
    requires Rejoining(c, d, n, m, true)
    ensures Rejoined(c, d, n, m)
  {
  }

  lemma RejoinedFrom(c: Cluster, d: Cluster, n: string)
    requires n in c.nodes && SameButReplicas(SetHealthy(c, n, true), d, n)
    requires forall m | m in c.configs :: Rejoined(SetHealthy(c, n, true), d, n, m)
    ensures d.nodes[n].healthy
    ensures forall m | m in c.configs :: Rejoined(c, d, n, m)
  {
  }

  // ----- A new cluster -----

  /** The node that owns map m in a new cluster, and its replica. */
  ghost predicate FirstPlaces(m: string, owner: string, replica: string) {
    || (m == "green" && owner == "node-a" && replica == "node-c")
    || (m == "cave" && owner == "node-b" && replica == "node-c")
    || (m == "ruins" && owner == "node-a" && replica == "node-b")
  }

  /** Map m is where a new cluster puts it, in the state of its stored checkpoint if there is one. */
  ghost predicate FirstPlaced(c: Cluster, m: string) {
    && m in c.configs && m in c.owners && m in c.replicas && FirstPlaces(m, c.owners[m], c.replicas[m])
    && Hosts(c, c.owners[m], m)
    && WorldOn(c, c.owners[m], m) == Restore(c.newWorld(c.configs[m]), LoadCheckpoint(c.store, m))
  }

  lemma NewClusterFrame(st: Store, configs: map<string, Config>, newWorld: Config -> State)
    requires configs.Keys == {"green", "cave", "ruins"}
    ensures var c := NewCluster(st, configs, newWorld);
      && c.store == st && c.sessions == map[] && c.nodes.Keys == {"node-a", "node-b", "node-c"}
      && c.configs == configs && c.newWorld == newWorld
      && c.owners == map["green" := "node-a", "cave" := "node-b", "ruins" := "node-a"]
      && c.replicas == map["green" := "node-c", "cave" := "node-c", "ruins" := "node-b"]
  {
    hide Restore, LoadCheckpoint;
  }

  lemma PlaceHosts(c: Cluster, m: string, owner: string, replica: string)
    requires owner in c.nodes && replica in c.nodes && owner != replica && m in c.configs && m !in c.nodes[owner].maps
    ensures var d := Place(c, m, owner, replica);
      && d.nodes[owner].maps == c.nodes[owner].maps[m := Restore(c.newWorld(c.configs[m]), LoadCheckpoint(c.store, m))]
      && (forall q | q in c.nodes && q != owner :: d.nodes[q].maps == c.nodes[q].maps)
      && forall q | q in c.nodes :: d.nodes[q].healthy == c.nodes[q].healthy
  {
    hide Restore, LoadCheckpoint;
  }

  lemma NewClusterHosts(st: Store, configs: map<string, Config>, newWorld: Config -> State)
    requires configs.Keys == {"green", "cave", "ruins"}
    ensures var c := NewCluster(st, configs, newWorld);
      && (forall q | q in c.nodes :: c.nodes[q].healthy)
      && (forall k | k == "green" || k == "ruins" :: k in c.nodes["node-a"].maps
            && c.nodes["node-a"].maps[k] == Restore(newWorld(configs[k]), LoadCheckpoint(st, k)))
      && "cave" in c.nodes["node-b"].maps
      && c.nodes["node-b"].maps["cave"] == Restore(newWorld(configs["cave"]), LoadCheckpoint(st, "cave"))
  {
    hide Restore, LoadCheckpoint, Place;
    var c := Blank(st, configs, newWorld);
    PlaceHosts(c, "green", "node-a", "node-c");
    var c1 := Place(c, "green", "node-a", "node-c");
    PlaceHosts(c1, "cave", "node-b", "node-c");
    var c2 := Place(c1, "cave", "node-b", "node-c");
    PlaceHosts(c2, "ruins", "node-a", "node-b");
  }

  /** A new cluster: three healthy nodes, no session, and every map at its first place. */
  lemma NewClusterPlaces(st: Store, configs: map<string, Config>, newWorld: Config -> State)
    requires configs.Keys == {"green", "cave", "ruins"}
    ensures var c := NewCluster(st, configs, newWorld);
      && c.store == st && c.sessions == map[] && c.nodes.Keys == {"node-a", "node-b", "node-c"}
      && (forall q | q in c.nodes :: c.nodes[q].healthy) && forall m | m in configs :: FirstPlaced(c, m)
  {
    hide Restore, LoadCheckpoint, NewCluster;
    NewClusterFrame(st, configs, newWorld);
    NewClusterHosts(st, configs, newWorld);
  }

  /** In every state a cluster over a keyed store reaches, both invariants the failover results ask for hold. */
  lemma AlwaysKeyed(st: Store, configs: map<string, Config>, newWorld: Config -> State, es: seq<Event>)
    requires GoodConfigs(configs, newWorld) && GoodStore(st) && forall m | m in st.checkpoints :: st.checkpoints[m].mapId == m
    ensures var c := ClusterModel.Run(NewCluster(st, configs, newWorld), es); Routing(c) && Keyed(c)
  {
    hide Routing, NewCluster, ClusterModel.Run;
    NewClusterRouting(st, configs, newWorld);
    NewClusterFrame(st, configs, newWorld);
    RunKeyed(NewCluster(st, configs, newWorld), es);
  }

  // ----- A newcomer is stranded -----

  /** A user who comes in between the tick and the loss keeps a session and has no player: all its commands
      come to nothing, and a new login is refused. */
  lemma NewcomerIsStranded(c: Cluster, m: string, order: seq<string>, now: int, ms: seq<string>, u: string, pw: string,
                           order': seq<string>, now': int)
    requires Routing(c) && Keyed(c) && m in c.configs && forall k | k in c.configs :: k in ms
    requires m in c.owners && Hosts(c, c.owners[m], m) && c.nodes[c.owners[m]].healthy
    requires m in c.replicas && c.replicas[m] in c.nodes
    requires u != "" && pw != "" && u !in c.sessions && u in c.store.users
          && c.store.users[u].passwordHash == c.store.hash(pw)
    requires Homeward(c, c.store.users[u], m) && u !in OwnedWorld(c, m).players
    ensures var d := Lost(c, m, order, now, [LogsIn(u, pw, order', now')], ms);
      && u in d.sessions && !Playing(d, u)
      && (forall cmd, order'', now'' :: ClusterModel.Step(d, Acts(u, cmd, order'', now'')) == d)
      && (forall pw', order'', now'' :: ClusterModel.Step(d, LogsIn(u, pw', order'', now'')) == d)
  {
    hide *;
    var c1 := ClusterModel.Step(c, Ticks(m, order, now));
    var e := LogsIn(u, pw, order', now');
    StepRouting(c, Ticks(m, order, now));
    TickAsks(c, m, order, now, u);
    LoginEnters(c1, u, pw, order', now', m);
    LoginSeats(c1, ClusterModel.Step(c1, e), u, m, order', now', pw);
    RunOne(c1, e);
    OneQuiet(e, m);
    LossSeats(c, m, order, now, [e], ms, u);
    var d := Lost(c, m, order, now, [e], ms);
    forall pw', order'', now'' ensures ClusterModel.Step(d, LogsIn(u, pw', order'', now'')) == d {
      LoginRefused(d, u, pw', order'', now'');
    }
  }

  lemma TickAsks(c: Cluster, m: string, order: seq<string>, now: int, u: string)
    requires Routing(c) && m in c.configs && u in c.store.users
    ensures var d := ClusterModel.Step(c, Ticks(m, order, now));
      && d.sessions == c.sessions && d.store.users == c.store.users && d.store.hash == c.store.hash && d.configs == c.configs
      && forall k | Homeward(c, c.store.users[u], k) :: Homeward(d, d.store.users[u], k)
  {
    hide Routing, RefreshAll, Captured;
  }

  lemma LoginSeats(c: Cluster, d: Cluster, u: string, m: string, order: seq<string>, now: int, pw: string)
    requires m in c.owners && Hosts(c, c.owners[m], m) && u in c.store.users
    requires Shown(c.(sessions := c.sessions[u := Session(m, c.owners[m])]), d, u,
                   Apply(WorldOn(c, c.owners[m], m), OpAdd(c.store.users[u])), order, now)
    ensures u in d.sessions && d.sessions[u].mapId == m
  {
    hide Refresh, RefreshAll, Apply, OnFile, Scene;
  }

  lemma RunOne(c: Cluster, e: Event)
    ensures ClusterModel.Run(c, [e]) == ClusterModel.Step(c, e)
  {
    hide ClusterModel.Step;
    assert ClusterModel.Run(ClusterModel.Step(c, e), []) == ClusterModel.Step(c, e);
    assert [e][1..] == [];
  }

  lemma OneQuiet(e: Event, m: string)
    requires Plays(e)
    ensures AllQuiet([e], m)
  {
  }
}
