/** The shared boss over the runs of the cluster: what the accounts of its arena say holds of the boss that
    the players of all maps fight, provided it returns only when a timer started by its death fires. */
module ClusterBoss {
  import opened Basics
  import opened WorldModel
  import opened ClusterModel
  import opened ClusterAccounts
  import Boss = BossModel

  /** What an event of the cluster is to the arena. */
  ghost function Fought(c: Cluster, a: Boss.Arena, e: Event): Boss.Arena {
    match e
    case Strikes(u, _, _, now) =>
      if Reaches(c, u, now) then Boss.Step(a, Boss.Strike(u, Blow(c, u, now), now, c.sessions.Keys)) else a
    case BossReturns => Boss.Step(a, Boss.TimerFires)
    case _ => a
  }

  ghost function FoughtAll(c: Cluster, a: Boss.Arena, es: seq<Event>): Boss.Arena
    decreases |es|
  {
    if es == [] then a else FoughtAll(ClusterModel.Step(c, es[0]), Fought(c, a, es[0]), es[1..])
  }

  /** The boss returns only while a timer is pending. */
  ghost predicate Timely(c: Cluster, a: Boss.Arena, es: seq<Event>)
    decreases |es|
  {
    es == [] || ((es[0].BossReturns? ==> a.timers > 0)
                 && Timely(ClusterModel.Step(c, es[0]), Fought(c, a, es[0]), es[1..]))
  }

  lemma StepFought(c: Cluster, a: Boss.Arena, e: Event)
    requires a.boss == c.boss && Boss.Sound(a) && (e.BossReturns? ==> a.timers > 0)
    ensures Fought(c, a, e).boss == ClusterModel.Step(c, e).boss && Boss.Sound(Fought(c, a, e))
  {
    hide Boss.Sound, Login, Logout, Act, SwitchMap, AttackBoss, Look, Persist, Live, Tick, Beat, FailNode, RecoverNode;
    hide Boss.Struck, Boss.Rewards, Boss.Victories, Striker, Reaches;
    StepKeepsHashes(c, e);
    match e
    case Strikes(u, payees, order, now) =>
      StrikeKeepsHashes(c, u, payees, order, now);
      if Reaches(c, u, now) { Reached(c, a, u, now); }
    case BossReturns => Boss.SoundStep(a, Boss.TimerFires);
    case _ =>
  }

  lemma Reached(c: Cluster, a: Boss.Arena, u: string, now: int)
    requires Reaches(c, u, now) && Boss.Sound(a)
    ensures Playing(c, u) && Boss.Sound(Boss.Step(a, Boss.Strike(u, Blow(c, u, now), now, c.sessions.Keys)))
  {
    hide Boss.Sound, Boss.Step, Refresh;
    Boss.SoundStep(a, Boss.Strike(u, Blow(c, u, now), now, c.sessions.Keys));
  }

  /** In every run from a cluster whose boss is new, in any interleaving of strikes from all maps, logins,
      switches and failures: the boss is dead exactly while one timer is pending, a living boss has lost
      exactly what its contributors dealt, no life takes more than eighty strikes, and each death hands out
      at most one victory. */
  lemma {:induction false} BossInEveryRun(c: Cluster, a: Boss.Arena, es: seq<Event>)
    requires a.boss == c.boss && Boss.Sound(a) && Timely(c, a, es)
    ensures var b := FoughtAll(c, a, es);
      && b.boss == ClusterModel.Run(c, es).boss && Boss.Sound(b)
      && b.timers <= 1 && (b.timers == 0 <==> b.boss.alive) && b.boss.version <= 81 && b.victories <= b.deaths
      && (b.boss.alive ==> b.boss.hp > 0 && b.boss.hp + Total(b.boss.contributors) == Boss.BOSS_HP)
    decreases |es|
  {
    hide ClusterModel.Step, Fought;
    if es != [] {
      StepFought(c, a, es[0]);
      BossInEveryRun(ClusterModel.Step(c, es[0]), Fought(c, a, es[0]), es[1..]);
    }
  }

  lemma NewBossIsSound(st: Store, configs: map<string, Config>, newWorld: Config -> State)
    requires configs.Keys == {"green", "cave", "ruins"}
    ensures var c := NewCluster(st, configs, newWorld);
      c.boss == Boss.NewBoss() && Boss.Sound(Boss.Arena(c.boss, 0, 0, 0, 0))
  {
    hide NewCluster, Boss.Sound, Boss.NewBoss;
    NewClusterBoss(st, configs, newWorld);
    Boss.SoundStart();
  }

  /** So the accounts hold in every timely run of a new cluster, whatever its store holds. */
  lemma NewClusterBossAccounts(st: Store, configs: map<string, Config>, newWorld: Config -> State, es: seq<Event>)
    requires configs.Keys == {"green", "cave", "ruins"}
    requires Timely(NewCluster(st, configs, newWorld), Boss.Arena(Boss.NewBoss(), 0, 0, 0, 0), es)
    ensures var c := NewCluster(st, configs, newWorld);
      var b := FoughtAll(c, Boss.Arena(Boss.NewBoss(), 0, 0, 0, 0), es);
      && b.boss == ClusterModel.Run(c, es).boss && Boss.Sound(b)
      && b.timers <= 1 && (b.timers == 0 <==> b.boss.alive) && b.boss.version <= 81 && b.victories <= b.deaths
      && (b.boss.alive ==> b.boss.hp > 0 && b.boss.hp + Total(b.boss.contributors) == Boss.BOSS_HP)
  {
    hide NewCluster, Boss.Sound, Boss.NewBoss, Timely, FoughtAll, ClusterModel.Run;
    NewBossIsSound(st, configs, newWorld);
    BossInEveryRun(NewCluster(st, configs, newWorld), Boss.Arena(Boss.NewBoss(), 0, 0, 0, 0), es);
  }

  lemma NewClusterBoss(st: Store, configs: map<string, Config>, newWorld: Config -> State)
    requires configs.Keys == {"green", "cave", "ruins"}
    ensures NewCluster(st, configs, newWorld).boss == Boss.NewBoss()
  {
    hide Place;
  }
}
