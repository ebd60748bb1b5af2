/** A planned failure loses nothing, and with it every step of the cluster that is not an unplanned
    failure is a step of the placement-free model. */
module ClusterFailover {
  import opened Basics
  import opened WorldModel
  import opened WorldCheckpoint
  import opened WorldLife
  import opened ClusterModel
  import opened ClusterRouting
  import opened PlainModel
  import opened ClusterSimulation

  ghost function Owned(c: Cluster, n: string): set<string> {
    set m | m in c.owners && c.owners[m] == n
  }

  /** The maps that leave a failing node: those it owns whose replica is a known node. */
  ghost function Leaving(c: Cluster, n: string, ms: seq<string>): set<string> {
    set m | m in ms && m in c.owners && c.owners[m] == n && m in c.replicas && c.replicas[m] in c.nodes
  }

  /** Where the random stream of a map stands in a newly built world. */
  ghost function Restart(configs: map<string, Config>, newWorld: Config -> State): string -> nat {
    (m: string) => if m in configs then newWorld(configs[m]).drawn else 0
  }

  /** Map m of node n has been captured, and its replica, if known, holds the capture. */
  ghost predicate Ready(c: Cluster, n: string, m: string, now: int) {
    && Hosts(c, n, m) && m in c.owners && c.owners[m] == n && m in c.replicas && c.replicas[m] != n
    && (c.replicas[m] in c.nodes ==>
          m in c.nodes[c.replicas[m]].snapshots && c.nodes[c.replicas[m]].snapshots[m] == Captured(WorldOn(c, n, m), n, now))
  }

  // ----- Capturing all maps of the node -----

  lemma OwnedByHost(c: Cluster, n: string, m: string)
    requires Routing(c)
    ensures Hosts(c, n, m) <==> m in Owned(c, n)
    ensures Hosts(c, n, m) ==> m in c.replicas && c.replicas[m] != n && m in c.configs && WorldFits(c, m, WorldOn(c, n, m))
  {
    hide Built;
  }

  lemma SyncReady(c: Cluster, n: string, m: string, order: seq<string>, now: int)
    requires Routing(c) && Hosts(c, n, m)
    ensures Ready(Sync(c, n, m, order, now), n, m, now)
    ensures forall m' | m' != m && Ready(c, n, m', now) :: Ready(Sync(c, n, m, order, now), n, m', now)
  {
    hide Routing, RefreshAll, PlayerViews, NpcViews, TreasureViews, SortedNames, WorldFits;
    OwnedByHost(c, n, m);
    var w := WorldOn(c, n, m);
    RefreshAllSteady(w, order, now);
    var cp := Captured(RefreshAll(w, order, now), n, now);
    assert cp.mapId == m by { CapturedKey(c, n, m, order, now); }
    hide Captured;
    var d := Sync(c, n, m, order, now);
    forall m' | m' != m && Ready(c, n, m', now) ensures Ready(d, n, m', now) {
      assert Hosts(d, n, m') && WorldOn(d, n, m') == WorldOn(c, n, m');
    }
  }

  lemma CapturedKey(c: Cluster, n: string, m: string, order: seq<string>, now: int)
    requires Routing(c) && Hosts(c, n, m)
    ensures Captured(RefreshAll(WorldOn(c, n, m), order, now), n, now).mapId == m
  {
    hide Built, RefreshAll, PlayerViews, NpcViews, TreasureViews, SortedNames;
    RefreshAllSteady(WorldOn(c, n, m), order, now);
  }

  lemma {:induction false} SyncAllReady(c: Cluster, n: string, hosted: seq<string>, orders: string -> seq<string>, now: int)
    requires Routing(c) && forall i | 0 <= i < |hosted| :: Hosts(c, n, hosted[i])
    ensures var d := SyncAll(c, n, hosted, orders, now);
      && (forall i | 0 <= i < |hosted| :: Ready(d, n, hosted[i], now))
      && (forall m | Ready(c, n, m, now) :: Ready(d, n, m, now))
    decreases |hosted|
  {
    hide Sync, Routing, Ready;
    if hosted != [] {
      var m := hosted[0];
      var c1 := Sync(c, n, m, orders(m), now);
      SyncRouting(c, n, m, orders(m), now);
      SyncReady(c, n, m, orders(m), now);
      forall i | 0 <= i < |hosted[1..]| ensures Hosts(c1, n, hosted[1..][i]) {
        assert hosted[1..][i] == hosted[i + 1];
        OwnedByHost(c, n, hosted[i + 1]);
        OwnedByHost(c1, n, hosted[i + 1]);
      }
      SyncAllReady(c1, n, hosted[1..], orders, now);
      var d := SyncAll(c, n, hosted, orders, now);
      forall i | 0 <= i < |hosted| ensures Ready(d, n, hosted[i], now) {
        if i > 0 { assert hosted[i] == hosted[1..][i - 1]; }
      }
    }
  }

  ghost predicate NoRepeats(ms: seq<string>) {
    forall i, j | 0 <= i < j < |ms| :: ms[i] != ms[j]
  }

  lemma ShowThenShow(p: Plain, m: string, rest: set<string>, orders: string -> seq<string>, now: int, drawn: string -> nat)
    requires m in p.worlds && m !in rest
    ensures RenewP(ShowP(p, m, orders(m), now), rest, {}, orders, now, drawn) == RenewP(p, rest + {m}, {}, orders, now, drawn)
  {
    hide RefreshAll, Normalise;
  }

  lemma {:induction false} SimSyncAll(c: Cluster, n: string, hosted: seq<string>, orders: string -> seq<string>, now: int,
                                      drawn: string -> nat)
    requires Routing(c) && NoRepeats(hosted) && forall i | 0 <= i < |hosted| :: Hosts(c, n, hosted[i])
    ensures Face(SyncAll(c, n, hosted, orders, now)) == RenewP(Face(c), Elements(hosted), {}, orders, now, drawn)
    decreases |hosted|
  {
    hide Sync, Routing, Face, Hosts;
    if hosted == [] {
      ShowNothing(Face(c), orders, now, drawn);
      assert Elements(hosted) == {};
    } else {
      var m := hosted[0];
      var c1 := Sync(c, n, m, orders(m), now);
      SyncRouting(c, n, m, orders(m), now);
      SimSync(c, n, m, orders(m), now);
      forall i | 0 <= i < |hosted[1..]| ensures Hosts(c1, n, hosted[1..][i]) {
        assert hosted[1..][i] == hosted[i + 1];
        OwnedByHost(c, n, hosted[i + 1]);
        OwnedByHost(c1, n, hosted[i + 1]);
      }
      SimSyncAll(c1, n, hosted[1..], orders, now, drawn);
      SeeWorld(c, n, m);
      assert m !in Elements(hosted[1..]);
      ShowThenShow(Face(c), m, Elements(hosted[1..]), orders, now, drawn);
      assert Elements(hosted) == Elements(hosted[1..]) + {m} by {
        assert hosted == [m] + hosted[1..];
      }
    }
  }

  lemma ShowNothing(p: Plain, orders: string -> seq<string>, now: int, drawn: string -> nat)
    ensures RenewP(p, {}, {}, orders, now, drawn) == p
  {
    hide RefreshAll, Normalise;
  }

  // ----- Taking the maps over -----

  lemma MovedSeen(c: Cluster, d: Cluster, m: string, n: string, r: string, s: State)
    requires Moved(c, d, m, n, r, s) && SingleWriter(c)
    ensures Face(d) == PutWorld(Face(c), m, s)
  {
    hide SeenWorlds, SingleWriter, Supplied, Hosts;
    MovedWorlds(c, d, m, n, r, s);
    RerouteSeen(c.sessions, m, r);
  }

  lemma RerouteSeen(sessions: map<string, Session>, m: string, r: string)
    ensures SeenAt(Reroute(sessions, m, r)) == SeenAt(sessions)
  {
  }

  lemma MovedWorlds(c: Cluster, d: Cluster, m: string, n: string, r: string, s: State)
    requires Moved(c, d, m, n, r, s) && SingleWriter(c)
    ensures SeenWorlds(d) == SeenWorlds(c)[m := s]
  {
    MovedWriter(c, d, m, n, r, s);
    assert d.owners == c.owners[m := r];
    hide Moved, SingleWriter, SeenWorlds;
    SeenMoved(c, d, m, r, s);
  }

  lemma SeenMoved(c: Cluster, d: Cluster, m: string, r: string, s: State)
    requires d.owners == c.owners[m := r] && Hosts(d, r, m) && WorldOn(d, r, m) == s
    requires forall k | k in c.owners && k != m :: Hosts(d, d.owners[k], k) <==> Hosts(c, c.owners[k], k)
    requires forall k | k in c.owners && k != m && Hosts(c, c.owners[k], k) ::
      WorldOn(d, d.owners[k], k) == WorldOn(c, c.owners[k], k)
    ensures SeenWorlds(d) == SeenWorlds(c)[m := s]
  {
    hide Hosts, WorldOn;
  }

  lemma MovedReady(c: Cluster, d: Cluster, m: string, n: string, r: string, s: State, m': string, now: int)
    requires Moved(c, d, m, n, r, s) && m in c.nodes[r].snapshots && Ready(c, n, m', now) && m' != m
    ensures Ready(d, n, m', now)
  {
    hide Captured, Reroute;
  }

  /** The turn of a captured map: it comes up on its replica as it was captured, or stays if it has none. */
  lemma FailOverMapReady(c: Cluster, n: string, m: string, now: int)
    requires Routing(c) && Ready(c, n, m, now)
    ensures var d := FailOverMap(c, n, m);
      && (forall m' | m' != m && Ready(c, n, m', now) :: Ready(d, n, m', now))
      && d.configs == c.configs && d.newWorld == c.newWorld && d.nodes.Keys == c.nodes.Keys
      && Face(d) == (if c.replicas[m] in c.nodes
                    then PutWorld(Face(c), m, Normalise(WorldOn(c, n, m), c.newWorld(c.configs[m]).drawn)) else Face(c))
  {
    hide Routing, Normalise, Restore, Captured, Built, Face, Supplied, PickReplica, Reroute, Promoted;
    OwnedByHost(c, n, m);
    if c.replicas[m] in c.nodes {
      var r := c.replicas[m];
      SuppliedAsIs(c, r, m);
      FailOverMoves(c, n, m);
      var d := FailOverMap(c, n, m);
      var cp := c.nodes[r].snapshots[m];
      var built := c.newWorld(c.configs[m]);
      WriterAndBuilt(c, m);
      RoundTrip(WorldOn(c, n, m), built, n, now);
      MovedSeen(c, d, m, n, r, Restore(built, cp));
      forall m' | m' != m && Ready(c, n, m', now) ensures Ready(d, n, m', now) {
        MovedReady(c, d, m, n, r, Restore(built, cp), m', now);
      }
    }
  }

  lemma OthersStay(c: Cluster, n: string, m: string, now: int)
    requires Routing(c) && Ready(c, n, m, now)
    ensures var d := FailOverMap(c, n, m);
      forall m' | m' != m && m' in c.owners :: m' in d.owners && m' in d.replicas && m' in c.replicas
            && d.owners[m'] == c.owners[m'] && d.replicas[m'] == c.replicas[m']
  {
    hide Routing, Restore, Captured, Built, Supplied, PickReplica, Reroute, Promoted;
    OwnedByHost(c, n, m);
    Placement(c);
    if c.replicas[m] in c.nodes {
      SuppliedAsIs(c, c.replicas[m], m);
      FailOverMoves(c, n, m);
    }
  }

  lemma WriterAndBuilt(c: Cluster, m: string)
    requires Routing(c) && m in c.configs
    ensures SingleWriter(c) && c.newWorld(c.configs[m]).cfg == c.configs[m]
  {
    BuiltShape(c.newWorld(c.configs[m]), c.configs[m]);
  }

  lemma SuppliedAsIs(c: Cluster, r: string, m: string)
    requires r in c.nodes && m in c.nodes[r].snapshots
    ensures Supplied(c, r, m) == c.nodes[r]
  {
  }

  /** A map that has left, or was never there, has no turn. */
  lemma NoTurn(c: Cluster, n: string, m: string)
    requires m !in c.owners || c.owners[m] != n
    ensures FailOverMap(c, n, m) == c
  {
  }

  ghost predicate AllReady(c: Cluster, n: string, now: int) {
    forall m | m in Owned(c, n) :: Ready(c, n, m, now)
  }

  lemma RenewOne(p: Plain, m: string, rest: set<string>, drawn: string -> nat)
    requires m in p.worlds && m !in rest
    ensures RenewOnly(PutWorld(p, m, Normalise(p.worlds[m], drawn(m))), rest, drawn) == RenewOnly(p, rest + {m}, drawn)
  {
    hide Normalise;
  }

  ghost function RenewOnly(p: Plain, renewed: set<string>, drawn: string -> nat): Plain {
    p.(worlds := map m | m in p.worlds :: if m in renewed then Normalise(p.worlds[m], drawn(m)) else p.worlds[m])
  }

  lemma {:induction false} SimFailOver(c: Cluster, n: string, ms: seq<string>, now: int)
    requires Routing(c) && AllReady(c, n, now)
    ensures Face(FailOver(c, n, ms)) == RenewOnly(Face(c), Leaving(c, n, ms), Restart(c.configs, c.newWorld))
    decreases |ms|
  {
    hide Routing, Face, Ready, FailOverMap, Normalise;
    if ms == [] {
      assert RenewOnly(Face(c), {}, Restart(c.configs, c.newWorld)) == Face(c);
      assert Leaving(c, n, ms) == {};
    } else {
      var m := ms[0];
      var d := FailOverMap(c, n, m);
      FailOverMapRouting(c, n, m);
      assert ms == [m] + ms[1..];
      if m in Owned(c, n) {
        SimFailOverTurn(c, n, ms, now);
      } else {
        NoTurn(c, n, m);
        SimFailOver(c, n, ms[1..], now);
        assert Leaving(c, n, ms) == Leaving(c, n, ms[1..]);
      }
    }
  }

  lemma {:induction false} SimFailOverTurn(c: Cluster, n: string, ms: seq<string>, now: int)
    requires Routing(c) && AllReady(c, n, now) && ms != [] && ms[0] in Owned(c, n)
    ensures Face(FailOver(c, n, ms)) == RenewOnly(Face(c), Leaving(c, n, ms), Restart(c.configs, c.newWorld))
    decreases |ms|, 0
  {
    hide Routing, Face, Ready, FailOverMap, Normalise, RenewOnly;
    var m := ms[0];
    var d := FailOverMap(c, n, m);
    FailOverMapRouting(c, n, m);
    FailOverMapReady(c, n, m, now);
    OthersStay(c, n, m, now);
    OwnedByHost(c, n, m);
    SeeWorld(c, n, m);
    TurnKeepsReady(c, n, m, now);
    SimFailOver(d, n, ms[1..], now);
    LeavingAfterTurn(c, n, ms, now);
    var drawn := Restart(c.configs, c.newWorld);
    assert drawn(m) == c.newWorld(c.configs[m]).drawn;
    if c.replicas[m] in c.nodes {
      assert Leaving(c, n, ms) == Leaving(d, n, ms[1..]) + {m};
      RenewOne(Face(c), m, Leaving(d, n, ms[1..]), drawn);
    } else {
      assert Leaving(c, n, ms) == Leaving(d, n, ms[1..]);
    }
  }

  lemma StaysOrLeaves(c: Cluster, n: string, m: string)
    requires Routing(c) && m in Owned(c, n) && m in c.replicas && c.replicas[m] in c.nodes
    requires m in Supplied(c, c.replicas[m], m).snapshots
    ensures FailOverMap(c, n, m).owners == c.owners[m := c.replicas[m]] && c.replicas[m] != n
  {
    hide Built, Supplied, Restore, PickReplica, Reroute;
  }

  lemma TurnOwners(c: Cluster, n: string, m: string, now: int)
    requires Routing(c) && m in Owned(c, n) && Ready(c, n, m, now)
    ensures FailOverMap(c, n, m).owners == if c.replicas[m] in c.nodes then c.owners[m := c.replicas[m]] else c.owners
    ensures c.replicas[m] !in c.nodes ==> FailOverMap(c, n, m) == c
  {
    hide Built, Supplied, Restore, PickReplica, Reroute, Captured, Routing;
    OwnedByHost(c, n, m);
    if c.replicas[m] in c.nodes {
      SuppliedAsIs(c, c.replicas[m], m);
      StaysOrLeaves(c, n, m);
    }
  }

  lemma TurnKeepsReady(c: Cluster, n: string, m: string, now: int)
    requires Routing(c) && AllReady(c, n, now) && m in Owned(c, n)
    ensures AllReady(FailOverMap(c, n, m), n, now)
  {
    hide Routing, Face, Ready, FailOverMap;
    var d := FailOverMap(c, n, m);
    FailOverMapReady(c, n, m, now);
    OthersStay(c, n, m, now);
    TurnOwners(c, n, m, now);
    ReadyReplica(c, n, m, now);
    forall m' | m' in Owned(d, n) ensures Ready(d, n, m', now) {
      assert m' in Owned(c, n);
    }
  }

  lemma ReadyReplica(c: Cluster, n: string, m: string, now: int)
    requires Ready(c, n, m, now)
    ensures m in c.owners && c.owners[m] == n && m in c.replicas && c.replicas[m] != n
  {
  }

  lemma LeavingAfterTurn(c: Cluster, n: string, ms: seq<string>, now: int)
    requires Routing(c) && AllReady(c, n, now) && ms != [] && ms[0] in Owned(c, n)
    ensures ms[0] in c.replicas
    ensures var d := FailOverMap(c, n, ms[0]);
      && Leaving(c, n, ms) == Leaving(d, n, ms[1..]) + (if c.replicas[ms[0]] in c.nodes then {ms[0]} else {})
      && (c.replicas[ms[0]] in c.nodes ==> ms[0] !in Leaving(d, n, ms[1..]))
  {
    hide Routing, Face, Ready, FailOverMap;
    var m := ms[0];
    var d := FailOverMap(c, n, m);
    FailOverMapReady(c, n, m, now);
    OthersStay(c, n, m, now);
    TurnOwners(c, n, m, now);
    ReadyReplica(c, n, m, now);
    assert ms == [m] + ms[1..];
    assert forall m' | m' in c.owners && m' != m :: m' in Leaving(c, n, ms) <==> m' in Leaving(d, n, ms[1..]);
    assert d.owners.Keys == c.owners.Keys;
  }

  // ----- The planned failure -----

  lemma HostedNames(c: Cluster, n: string)
    requires Routing(c) && n in c.nodes
    ensures var hosted := SortedNames(c.nodes[n].maps.Keys);
      NoRepeats(hosted) && Elements(hosted) == Owned(c, n) && forall i | 0 <= i < |hosted| :: Hosts(c, n, hosted[i])
  {
    hide Routing, SortedNames;
    var hosted := SortedNames(c.nodes[n].maps.Keys);
    SortedNamesShape(c.nodes[n].maps.Keys);
    forall m ensures m in hosted <==> m in Owned(c, n) {
      OwnedByHost(c, n, m);
    }
  }

  lemma HealthReady(c: Cluster, n: string, m: string, now: int)
    requires n in c.nodes && Ready(c, n, m, now)
    ensures Ready(SetHealthy(c, n, false), n, m, now)
  {
    hide Captured;
  }

  /** After a planned failure of node n, every map it owned shows exactly the world just captured, moved to
      its replica and renewed if that is a known node, still in place if not; nothing else has changed. */
  lemma PlannedFailure(c: Cluster, n: string, orders: string -> seq<string>, ms: seq<string>, now: int)
    requires Routing(c) && n in c.nodes
    ensures Face(FailNode(c, n, orders, ms, now))
         == RenewP(Face(c), Owned(c, n), Leaving(c, n, ms), orders, now, Restart(c.configs, c.newWorld))
  {
    hide Routing, Face, SyncAll, FailOver, Ready, SortedNames, Restart;
    var hosted := SortedNames(c.nodes[n].maps.Keys);
    var drawn := Restart(c.configs, c.newWorld);
    HostedNames(c, n);
    var c1 := SyncAll(c, n, hosted, orders, now);
    SyncAllRouting(c, n, hosted, orders, now);
    SyncAllReady(c, n, hosted, orders, now);
    SimSyncAll(c, n, hosted, orders, now, drawn);
    var c2 := SetHealthy(c1, n, false);
    UnhealthyRouting(c1, n);
    Unseen(c1, c2);
    assert AllReady(c2, n, now) by {
      forall m | m in Owned(c2, n) ensures Ready(c2, n, m, now) {
        assert m in Elements(hosted);
        var i :| 0 <= i < |hosted| && hosted[i] == m;
        HealthReady(c1, n, m, now);
      }
    }
    SimFailOver(c2, n, ms, now);
    assert Leaving(c2, n, ms) == Leaving(c, n, ms);
    RenewInTwo(Face(c), Owned(c, n), Leaving(c, n, ms), orders, now, drawn);
  }

  lemma UnhealthyRouting(c: Cluster, n: string)
    requires Routing(c) && n in c.nodes
    ensures Routing(SetHealthy(c, n, false)) && SamePlacement(c, SetHealthy(c, n, false))
  {
    hide Built;
    NodeRouting(c, n, c.nodes[n].(healthy := false));
  }

  lemma RenewInTwo(p: Plain, shown: set<string>, renewed: set<string>, orders: string -> seq<string>, now: int,
                   drawn: string -> nat)
    requires renewed <= shown
    ensures RenewOnly(RenewP(p, shown, {}, orders, now, drawn), renewed, drawn) == RenewP(p, shown, renewed, orders, now, drawn)
  {
    hide Normalise, RefreshAll;
  }

  // ----- Every step but an unplanned failure -----

  /** No heartbeat discovers a failure that was not planned. */
  ghost predicate Foreseen(c: Cluster, e: Event) {
    e.Beats? ==> Uneventful(c, e.n, e.reached)
  }

  /** What the players see of an event. Nothing of a client's event depends on the placement. */
  ghost function Seeing(c: Cluster, e: Event): Seen {
    match e
    case Registers(u, pw) => SeenRegister(u, pw)
    case LogsIn(u, pw, order, now) => SeenLogin(u, pw, order, now)
    case LogsOut(u) => SeenLogout(u)
    case Acts(u, cmd, order, now) => SeenAct(u, cmd, order, now)
    case Switches(u, target, order, now) => SeenSwitch(u, target, order, now)
    case Strikes(u, payees, order, now) => SeenStrike(u, payees, order, now)
    case Looks(u, order, now) => SeenLook(u, order, now)
    case Flushes(u, now) => SeenFlush(u, now)
    case BossReturns => SeenBoss
    case Lives(n, m, order, now) => if Hosts(c, n, m) && c.nodes[n].healthy then SeenLive(m, order, now) else SeenNothing
    case Ticks(m, order, now) =>
      if m in c.owners && c.owners[m] in c.nodes && c.nodes[c.owners[m]].healthy then SeenShow(m, order, now) else SeenNothing
    case Beats(_, _, _) => SeenNothing
    case Fails(n, orders, ms, now) =>
      if n !in c.nodes then SeenNothing
      else SeenRenew(Owned(c, n), Leaving(c, n, ms), orders, now, Restart(c.configs, c.newWorld))
    case Recovers(_, _) => SeenNothing
  }

  predicate FromClient(e: Event) {
    e.Registers? || e.LogsIn? || e.LogsOut? || e.Acts? || e.Switches? || e.Strikes? || e.Looks?
  }

  lemma ClientSimulation(c: Cluster, e: Event)
    requires Routing(c) && FromClient(e)
    ensures Face(ClusterModel.Step(c, e)) == StepP(Face(c), Seeing(c, e))
  {
    hide Routing, Face, Login, Logout, Act, SwitchMap, AttackBoss, Look, RegisterUser;
    hide LoginP, LogoutP, ActP, SwitchP, StrikeP, LookP, RegisterP;
    match e
    case Registers(u, pw) => SimRegister(c, u, pw);
    case LogsIn(u, pw, order, now) => SimLogin(c, u, pw, order, now);
    case LogsOut(u) => SimLogout(c, u);
    case Acts(u, cmd, order, now) => SimAct(c, u, cmd, order, now);
    case Switches(u, target, order, now) => SimSwitch(c, u, target, order, now);
    case Strikes(u, payees, order, now) => SimStrike(c, u, payees, order, now);
    case Looks(u, order, now) => SimLook(c, u, order, now);
  }

  lemma SystemSimulation(c: Cluster, e: Event)
    requires Routing(c) && !FromClient(e) && Foreseen(c, e)
    ensures Face(ClusterModel.Step(c, e)) == StepP(Face(c), Seeing(c, e))
  {
    if e.Beats? || e.Fails? || e.Recovers? {
      hide Routing, Face, ClusterModel.Step, StepP, Seeing, Foreseen;
      NodeSimulation(c, e);
    } else {
      hide Routing, Face, ClusterModel.Step, StepP, Seeing, Foreseen;
      TickerSimulation(c, e);
    }
  }

  lemma TickerSimulation(c: Cluster, e: Event)
    requires Routing(c) && (e.Flushes? || e.BossReturns? || e.Lives? || e.Ticks?)
    ensures Face(ClusterModel.Step(c, e)) == StepP(Face(c), Seeing(c, e))
  {
    hide Routing, Face, Hosts;
    hide Login, Logout, Act, SwitchMap, AttackBoss, Look, RegisterUser, Persist, Live, Tick, Beat, FailNode, RecoverNode;
    hide LoginP, LogoutP, ActP, SwitchP, StrikeP, LookP, RegisterP, PersistP, LiveP, ShowP, RenewP;
    match e
    case Flushes(u, now) => SimPersist(c, u, now);
    case BossReturns => SeeBoss(c, BossModel.NewBoss());
    case Lives(n, m, order, now) => SimLive(c, n, m, order, now);
    case Ticks(m, order, now) => SimTick(c, m, order, now);
  }

  lemma NodeSimulation(c: Cluster, e: Event)
    requires Routing(c) && (e.Beats? || e.Fails? || e.Recovers?) && Foreseen(c, e)
    ensures Face(ClusterModel.Step(c, e)) == StepP(Face(c), Seeing(c, e))
  {
    hide Routing, Face, Uneventful, Hosts, Owned, Leaving, Restart;
    hide Login, Logout, Act, SwitchMap, AttackBoss, Look, RegisterUser, Persist, Live, Tick, Beat, FailNode, RecoverNode;
    hide LoginP, LogoutP, ActP, SwitchP, StrikeP, LookP, RegisterP, PersistP, LiveP, ShowP, RenewP;
    match e
    case Beats(n, reached, ms) => SimBeat(c, n, reached, ms);
    case Fails(n, orders, ms, now) => SimFails(c, n, orders, ms, now);
    case Recovers(n, ms) => SimRecover(c, n, ms);
  }

  /** Every step that is no unplanned failure, seen by the players, is the placement-free step. */
  lemma Simulation(c: Cluster, e: Event)
    requires Routing(c) && Foreseen(c, e)
    ensures Face(ClusterModel.Step(c, e)) == StepP(Face(c), Seeing(c, e))
    ensures FromClient(e) ==> forall d: Cluster :: Seeing(d, e) == Seeing(c, e)
  {
    if FromClient(e) {
      hide Routing, Face, ClusterModel.Step, StepP;
      ClientSimulation(c, e);
    } else {
      hide *;
      SystemSimulation(c, e);
    }
  }

  lemma SimFails(c: Cluster, n: string, orders: string -> seq<string>, ms: seq<string>, now: int)
    requires Routing(c)
    ensures Face(FailNode(c, n, orders, ms, now)) ==
      if n !in c.nodes then Face(c)
      else RenewP(Face(c), Owned(c, n), Leaving(c, n, ms), orders, now, Restart(c.configs, c.newWorld))
  {
    hide Routing, Face, RenewP;
    if n in c.nodes {
      PlannedFailure(c, n, orders, ms, now);
    }
  }

  ghost predicate AllForeseen(c: Cluster, es: seq<Event>)
    decreases |es|
  {
    es == [] || (Foreseen(c, es[0]) && AllForeseen(ClusterModel.Step(c, es[0]), es[1..]))
  }

  ghost function SeeingAll(c: Cluster, es: seq<Event>): seq<Seen>
    decreases |es|
  {
    if es == [] then [] else [Seeing(c, es[0])] + SeeingAll(ClusterModel.Step(c, es[0]), es[1..])
  }

  /** Whole runs: the cluster's run, seen through Face, is the placement-free run. */
  lemma {:induction false} RunSimulation(c: Cluster, es: seq<Event>)
    requires Routing(c) && AllForeseen(c, es)
    ensures Face(ClusterModel.Run(c, es)) == RunP(Face(c), SeeingAll(c, es))
    decreases |es|
  {
    hide Routing, Face, ClusterModel.Step, StepP, Seeing, Foreseen;
    if es != [] {
      StepRouting(c, es[0]);
      Simulation(c, es[0]);
      RunSimulation(ClusterModel.Step(c, es[0]), es[1..]);
    }
  }
}
