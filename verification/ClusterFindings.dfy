/** A run of the cluster after which logging out and in is not the identity: a player who has drunk all
    its potions is given three new ones. */
module ClusterFindings {
  import opened Basics
  import opened WorldModel
  import opened WorldPlacement
  import opened WorldLife
  import opened ClusterModel
  import opened ClusterRouting
  import opened ClusterAccounts
  import opened PlainModel
  import opened PlainProperties
  import opened ClusterSimulation
  import opened ClusterFailover
  import opened ClusterResults

  /** u plays, alive, with k potions. */
  ghost predicate Holds(p: Plain, u: string, k: int) {
    On(p, u) && p.worlds[p.at[u]].players[u].alive && p.worlds[p.at[u]].players[u].potions == k
  }

  lemma HealDrinks(s: State, u: string)
    requires u in s.players && s.players[u].alive && s.players[u].potions > 0
    ensures var t := Heal(s, u, 0);
      t.players.Keys == s.players.Keys && t.players[u].alive && t.players[u].potions == s.players[u].potions - 1
  {
  }

  lemma SettledStays(p: Plain, u: string, k: int)
    requires Holds(p, u, k)
    ensures Holds(LookP(PersistP(p, u, 0), u, [], 0), u, k)
  {
    NotDue(p.worlds[p.at[u]], u, 0);
    hide Refresh;
  }

  lemma ActDrinks(p: Plain, u: string, k: int)
    requires Holds(p, u, k) && k > 0
    ensures Holds(ActP(p, u, HealCmd, [], 0), u, k - 1)
  {
    hide Heal, PersistP, LookP;
    var m := p.at[u];
    HealDrinks(p.worlds[m], u);
    var after := Heal(p.worlds[m], u, 0);
    SettledStays(Keep(PutWorld(p, m, after), Resident(after, u, m)), u, k - 1);
  }

  lemma FirstLogin(p: Plain, u: string, pw: string)
    requires Located(p) && u != "" && pw != "" && u !in p.users && DEFAULT_MAP in p.worlds
    ensures Holds(LoginP(RegisterP(p, u, pw), u, pw, [], 0), u, MAX_POTIONS)
  {
    hide LoginP, Holds;
    ComesBack(RegisterP(p, u, pw), u, pw);
  }

  /** Registering, logging in and drinking three potions. */
  function ThreeDrinks(u: string, pw: string): seq<Event> {
    [Registers(u, pw), LogsIn(u, pw, [], 0), Acts(u, HealCmd, [], 0), Acts(u, HealCmd, [], 0), Acts(u, HealCmd, [], 0)]
  }

  function ThreeDrinksSeen(u: string, pw: string): seq<Seen> {
    [SeenRegister(u, pw), SeenLogin(u, pw, [], 0), SeenAct(u, HealCmd, [], 0), SeenAct(u, HealCmd, [], 0),
     SeenAct(u, HealCmd, [], 0)]
  }

  lemma {:induction false} ClientsForeseen(c: Cluster, es: seq<Event>)
    requires forall i | 0 <= i < |es| :: FromClient(es[i])
    ensures AllForeseen(c, es) && |SeeingAll(c, es)| == |es|
    ensures forall i | 0 <= i < |es| :: SeeingAll(c, es)[i] == Seeing(c, es[i])
    decreases |es|
  {
    hide ClusterModel.Step;
    if es != [] {
      var d := ClusterModel.Step(c, es[0]);
      ClientsForeseen(d, es[1..]);
      forall i | 0 <= i < |es| ensures SeeingAll(c, es)[i] == Seeing(c, es[i]) {
        if i > 0 {
          assert SeeingAll(c, es)[i] == SeeingAll(d, es[1..])[i - 1];
          assert Seeing(d, es[i]) == Seeing(c, es[i]);
        }
      }
    }
  }

  lemma ThreeDrinksPlain(p: Plain, u: string, pw: string)
    requires Located(p) && u != "" && pw != "" && u !in p.users && DEFAULT_MAP in p.worlds
    ensures Holds(RunP(p, ThreeDrinksSeen(u, pw)), u, 0)
  {
    hide LoginP, RegisterP, ActP, Located, Holds;
    FirstLogin(p, u, pw);
    var p2 := LoginP(RegisterP(p, u, pw), u, pw, [], 0);
    ActDrinks(p2, u, 3);
    var p3 := ActP(p2, u, HealCmd, [], 0);
    ActDrinks(p3, u, 2);
    var p4 := ActP(p3, u, HealCmd, [], 0);
    ActDrinks(p4, u, 1);
    FiveSteps(p, ThreeDrinksSeen(u, pw));
  }

  lemma FiveSteps(p: Plain, es: seq<Seen>)
    requires |es| == 5
    ensures RunP(p, es) == StepP(StepP(StepP(StepP(StepP(p, es[0]), es[1]), es[2]), es[3]), es[4])
  {
    hide StepP;
    var p1 := StepP(p, es[0]);
    var p2 := StepP(p1, es[1]);
    var p3 := StepP(p2, es[2]);
    var p4 := StepP(p3, es[3]);
    assert RunP(p, es) == RunP(p1, es[1..]);
    assert RunP(p1, es[1..]) == RunP(p2, es[2..]) by { assert es[1..][1..] == es[2..]; }
    assert RunP(p2, es[2..]) == RunP(p3, es[3..]) by { assert es[2..][1..] == es[3..]; }
    assert RunP(p3, es[3..]) == RunP(p4, es[4..]) by { assert es[3..][1..] == es[4..]; }
    assert RunP(p4, es[4..]) == StepP(p4, es[4]) by { assert es[4..][1..] == []; }
  }

  /** On any cluster over an empty store, this run of one user ends in a state in which the user plays,
      alive and without a potion, and logging out and in gives it three. */
  lemma PotionsComeBack(st: Store, configs: map<string, Config>, newWorld: Config -> State, u: string, pw: string)
    requires GoodConfigs(configs, newWorld) && st.users == map[] && st.checkpoints == map[] && u != "" && pw != ""
    ensures var c := ClusterModel.Run(NewCluster(st, configs, newWorld), ThreeDrinks(u, pw));
      Reachable(c) && AliveInSession(c, u) && Authentic(c.store, u, pw) && SessionWorld(c, u).players[u].potions == 0
      && var d := Login(Logout(c, u), u, pw, [], 0);
        Playing(d, u) && SessionWorld(d, u).players[u].potions == MAX_POTIONS
  {
    hide Routing, NewCluster, ClusterModel.Run, ThreeDrinks, Face, Reachable, Authentic, Holds, Login, Logout;
    var c0 := NewCluster(st, configs, newWorld);
    var c := ClusterModel.Run(c0, ThreeDrinks(u, pw));
    AfterThreeDrinks(st, configs, newWorld, u, pw);
    PotionsZeroHolds(c, u);
    GivenThree(c, u, pw);
  }

  lemma AfterThreeDrinks(st: Store, configs: map<string, Config>, newWorld: Config -> State, u: string, pw: string)
    requires GoodConfigs(configs, newWorld) && st.users == map[] && st.checkpoints == map[] && u != "" && pw != ""
    ensures var c := ClusterModel.Run(NewCluster(st, configs, newWorld), ThreeDrinks(u, pw));
      Reachable(c) && Routing(c) && Holds(Face(c), u, 0) && Authentic(c.store, u, pw)
  {
    hide Routing, Good, NewCluster, AllForeseen, Face, Holds, Authentic, ClusterModel.Run, ThreeDrinks;
    NewClusterRouting(st, configs, newWorld);
    NewClusterGood(st, configs, newWorld);
    NewClusterPlain(st, configs, newWorld);
    DrinksFrom(NewCluster(st, configs, newWorld), u, pw);
    var c := ClusterModel.Run(NewCluster(st, configs, newWorld), ThreeDrinks(u, pw));
    assert ReachedBy(c, st, configs, newWorld, ThreeDrinks(u, pw));
  }

  lemma DrinksFrom(c: Cluster, u: string, pw: string)
    requires Routing(c) && Good(Face(c)) && c.store.users == map[] && u != "" && pw != ""
    ensures var es := ThreeDrinks(u, pw); var d := ClusterModel.Run(c, es);
      AllForeseen(c, es) && Routing(d) && Holds(Face(d), u, 0) && Authentic(d.store, u, pw)
  {
    hide Routing, Good, AllForeseen, SeeingAll, Face, Holds, Authentic, ClusterModel.Run;
    var es := ThreeDrinks(u, pw);
    ClientsForeseen(c, es);
    RunSimulation(c, es);
    RunRouting(c, es);
    assert SeeingAll(c, es) == ThreeDrinksSeen(u, pw);
    Beginning(c, u);
    ThreeDrinksPlain(Face(c), u, pw);
    assert es == [Registers(u, pw)] + es[1..];
    RegisteredForever(c, u, pw, es[1..]);
  }

  lemma Beginning(c: Cluster, u: string)
    requires Good(Face(c)) && c.store.users == map[]
    ensures Located(Face(c)) && u !in Face(c).users && DEFAULT_MAP in Face(c).worlds
  {
    hide SoundUsers, SoundWorlds, Peace, Room, SeenWorlds;
  }

  lemma PotionsZeroHolds(c: Cluster, u: string)
    requires Routing(c) && Holds(Face(c), u, 0)
    ensures AliveInSession(c, u) && SessionWorld(c, u).players[u].potions == 0
  {
    hide Routing, SeenWorlds;
    SeePlaying(c, u);
  }

  lemma GivenThree(c: Cluster, u: string, pw: string)
    requires Reachable(c) && Holds(Face(c), u, 0) && Authentic(c.store, u, pw)
    ensures var d := Login(Logout(c, u), u, pw, [], 0);
      Playing(d, u) && SessionWorld(d, u).players[u].potions == MAX_POTIONS
  {
    hide Reachable, Routing, Good, Face, Holds, Login, Logout, LoginP, LogoutP, Authentic, AuthenticP;
    ReachableGood(c);
    var c1 := Logout(c, u);
    LogoutRouting(c, u);
    LoginRouting(c1, u, pw, [], 0);
    SimLogout(c, u);
    SimLogin(c1, u, pw, [], 0);
    SeeAuthentic(c, u, pw);
    BackWithThree(Face(c), u, pw);
    HoldsPlays(Login(c1, u, pw, [], 0), u, MAX_POTIONS);
  }

  lemma HoldsPlays(c: Cluster, u: string, k: int)
    requires Routing(c) && Holds(Face(c), u, k)
    ensures Playing(c, u) && SessionWorld(c, u).players[u].potions == k
  {
    hide Routing, SeenWorlds;
    SeePlaying(c, u);
  }

  /** Wherever it comes back, a player who left alive and without a potion has three. */
  lemma BackWithThree(p: Plain, u: string, pw: string)
    requires Good(p) && Holds(p, u, 0) && AuthenticP(p, u, pw)
    ensures Holds(LoginP(LogoutP(p, u), u, pw, [], 0), u, MAX_POTIONS)
  {
    hide LogoutP, LoginP, Holds, AuthenticP, Good;
    LeavesBehind(p, u, pw);
    ComesBack(LogoutP(p, u), u, pw);
  }

  /** What the logout of such a player saves. */
  lemma LeavesBehind(p: Plain, u: string, pw: string)
    requires Good(p) && Holds(p, u, 0) && AuthenticP(p, u, pw)
    ensures var q := LogoutP(p, u);
      && AuthenticP(q, u, pw) && u !in q.at && HomeMap(q, u) in q.worlds
      && q.users[u].username == u && q.users[u].alive && q.users[u].hp > 0 && q.users[u].potions == 0
  {
    hide RemovePlayer, OpenCells, Calm, Peace, Room, SoundUsers;
    assert Robust(p.worlds[p.at[u]].players[u]);
  }

  lemma ComesBack(q: Plain, u: string, pw: string)
    requires AuthenticP(q, u, pw) && u !in q.at && HomeMap(q, u) in q.worlds
    requires q.users[u].username == u && q.users[u].alive && q.users[u].hp > 0
    ensures Holds(LoginP(q, u, pw, [], 0), u, ValueOr(q.users[u].potions, MAX_POTIONS))
  {
    hide SafeCell, SafeCellDrawn, PersistP, LookP, HomeMap;
    var r := EnterP(q, u, HomeMap(q, u), q.users[u]);
    assert Holds(r, u, ValueOr(q.users[u].potions, MAX_POTIONS));
    SettledStays(r, u, ValueOr(q.users[u].potions, MAX_POTIONS));
  }
}
