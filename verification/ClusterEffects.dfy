/** What a client's request does to its player, to its map and to what is on file about it. */
module ClusterEffects {
  import opened Basics
  import opened WorldModel
  import opened WorldCheckpoint
  import opened WorldLife
  import opened WorldEffects
  import opened ClusterModel
  import opened ClusterRouting
  import opened ClusterAccounts

  /** The world in which the user plays. */
  ghost function Scene(c: Cluster, u: string): State
    requires Playing(c, u)
  {
    WorldOn(c, c.sessions[u].nodeId, c.sessions[u].mapId)
  }

  /** The file shows the player as its world does, under the map and the node of the session. */
  ghost predicate OnFile(c: Cluster, u: string) {
    && Playing(c, u) && u in c.store.users
    && (var q, p := Scene(c, u).players[u], c.store.users[u];
        && p.username == u && p.lastMap == Scene(c, u).cfg.id && p.lastMap == c.sessions[u].mapId
        && p.lastNode == c.sessions[u].nodeId
        && p.at == q.at && p.hp == q.hp && p.maxHP == q.maxHP && p.attack == q.attack && p.potions == q.potions
        && p.treasures == q.treasures && p.kills == q.kills && p.deaths == q.deaths && p.victories == q.victories
        && p.alive == q.alive)
  }

  /** Everyone else's profile is what it was, and the password hash of u. */
  ghost predicate OnlyFiles(c: Cluster, d: Cluster, u: string) {
    && d.store.checkpoints == c.store.checkpoints && d.store.hash == c.store.hash
    && (forall v | v != u && v in c.store.users :: v in d.store.users && d.store.users[v] == c.store.users[v])
    && (u in c.store.users ==> u in d.store.users && d.store.users[u].passwordHash == c.store.users[u].passwordHash)
  }

  // ----- Showing and saving -----

  /** The player's revival is settled at this time. */
  ghost predicate Settled(s: State, u: string, now: int) {
    u in s.players && !Due(s, u, now)
  }

  lemma {:induction false} SettledStaysSo(s: State, order: seq<string>, now: int, u: string)
    requires Settled(s, u, now)
    ensures var d := RefreshAll(s, order, now); Settled(d, u, now) && d.players[u] == s.players[u]
    decreases |order|
  {
    hide SafeCell, SafeCellDrawn;
    if order != [] {
      SettledStaysSo(Refresh(s, order[0], now), order[1..], now, u);
    }
  }

  lemma RefreshSettles(s: State, u: string, now: int)
    requires u in s.players
    ensures Settled(Refresh(s, u, now), u, now)
  {
    hide SafeCell, SafeCellDrawn;
  }

  lemma PutScene(c: Cluster, u: string, s: State)
    requires Routing(c) && Playing(c, u) && u in s.players && Steady(Scene(c, u), s, Scene(c, u).players.Keys)
    ensures c.sessions[u].nodeId in c.nodes
    ensures var d := SetWorld(c, c.sessions[u].nodeId, c.sessions[u].mapId, s);
      Routing(d) && d.sessions == c.sessions && d.store == c.store && Playing(d, u) && Scene(d, u) == s
  {
    SteadyFits(c, u, s);
    ScenePut(c, u, s);
    hide Routing, SetWorld, Steady;
    SetWorldRouting(c, c.sessions[u].nodeId, c.sessions[u].mapId, s);
  }

  lemma SteadyFits(c: Cluster, u: string, s: State)
    requires Routing(c) && Playing(c, u) && Steady(Scene(c, u), s, Scene(c, u).players.Keys)
    ensures Hosts(c, c.sessions[u].nodeId, c.sessions[u].mapId) && WorldFits(c, c.sessions[u].mapId, s)
  {
    SessionHosted(c, u);
    hide Routing, AllEvolve;
  }

  lemma ScenePut(c: Cluster, u: string, s: State)
    requires Playing(c, u) && u in s.players
    ensures c.sessions[u].nodeId in c.nodes
    ensures var d := SetWorld(c, c.sessions[u].nodeId, c.sessions[u].mapId, s);
      d.sessions == c.sessions && d.store == c.store && Playing(d, u) && Scene(d, u) == s
  {
  }

  lemma SaveFiles(c: Cluster, p: Profile)
    requires p.passwordHash == ""
    ensures OnlyFiles(c, Saved(c, p), p.username)
  {
  }

  lemma SavedScene(c: Cluster, u: string)
    requires Routing(c) && Playing(c, u)
    ensures var d := Saved(c, Placed(Scene(c, u), u, c.sessions[u]));
      Routing(d) && d.sessions == c.sessions && Playing(d, u) && Scene(d, u) == Scene(c, u) && OnlyFiles(c, d, u) && OnFile(d, u)
  {
    SceneFits(c, u);
    hide Routing;
    var p := Placed(Scene(c, u), u, c.sessions[u]);
    SavedRouting(c, p);
    SaveFiles(c, p);
    SceneSaved(c, u);
    hide OnlyFiles, Saved, Scene, Playing, OnFile;
  }

  lemma SceneSaved(c: Cluster, u: string)
    requires Playing(c, u) && Scene(c, u).cfg.id == c.sessions[u].mapId
    ensures var d := Saved(c, Placed(Scene(c, u), u, c.sessions[u]));
      d.sessions == c.sessions && Playing(d, u) && Scene(d, u) == Scene(c, u) && OnFile(d, u)
  {
  }

  lemma PersistIs(c: Cluster, u: string, now: int, c1: Cluster)
    requires Playing(c, u)
    requires c1 == SetWorld(c, c.sessions[u].nodeId, c.sessions[u].mapId, Refresh(Scene(c, u), u, now))
    requires c1.sessions == c.sessions && Playing(c1, u) && Scene(c1, u) == Refresh(Scene(c, u), u, now)
    ensures Persist(c, u, now) == Saved(c1, Placed(Scene(c1, u), u, c1.sessions[u]))
  {
    hide Refresh, SetWorld, Saved, Placed;
  }

  /** Saving the session's player settles its revival and files it, and does nothing else. */
  lemma PersistFiles(c: Cluster, u: string, now: int)
    requires Routing(c) && Playing(c, u)
    ensures var d := Persist(c, u, now);
      && Routing(d) && d.sessions == c.sessions && OnFile(d, u) && OnlyFiles(c, d, u)
      && Scene(d, u) == Refresh(Scene(c, u), u, now) && Settled(Scene(d, u), u, now)
  {
    hide *;
    PlayingIn(c, u);
    var s := Refresh(Scene(c, u), u, now);
    RefreshSteady(Scene(c, u), u, now);
    RefreshSettles(Scene(c, u), u, now);
    SettledIn(s, u, now);
    PutScene(c, u, s);
    var c1 := SetWorld(c, c.sessions[u].nodeId, c.sessions[u].mapId, s);
    PersistIs(c, u, now, c1);
    SavedScene(c1, u);
    OnlyFilesFrom(c, c1, Persist(c, u, now), u);
  }

  lemma SettledIn(s: State, u: string, now: int)
    requires Settled(s, u, now)
    ensures u in s.players
  {
  }

  lemma SceneFits(c: Cluster, u: string)
    requires Routing(c) && Playing(c, u)
    ensures Scene(c, u).cfg.id == c.sessions[u].mapId
  {
    hide Built;
  }

  /** Showing the map settles everyone's revivals and leaves a settled player as it is. */
  lemma LookShows(c: Cluster, u: string, order: seq<string>, now: int)
    requires Routing(c) && OnFile(c, u) && Settled(Scene(c, u), u, now)
    ensures var d := Look(c, u, order, now);
      && Routing(d) && d.sessions == c.sessions && OnFile(d, u) && d.store == c.store
      && Scene(d, u) == RefreshAll(Scene(c, u), order, now) && Scene(d, u).players[u] == Scene(c, u).players[u]
  {
    OnFileIn(c, u);
    var s := RefreshAll(Scene(c, u), order, now);
    SettledStaysSo(Scene(c, u), order, now, u);
    RefreshAllSteady(Scene(c, u), order, now);
    SteadyKeys(Scene(c, u), s);
    hide Routing, RefreshAll, Settled, OnFile, Steady;
    LookIs(c, u, order, now);
    PutScene(c, u, s);
    hide Playing, Scene, SetWorld, Look;
    StillOnFile(c, Look(c, u, order, now), u, s);
  }

  lemma LookIs(c: Cluster, u: string, order: seq<string>, now: int)
    requires Playing(c, u)
    ensures c.sessions[u].nodeId in c.nodes
    ensures Look(c, u, order, now) == SetWorld(c, c.sessions[u].nodeId, c.sessions[u].mapId, RefreshAll(Scene(c, u), order, now))
  {
    hide RefreshAll, SetWorld;
  }

  /** A change of the world that keeps the player and the map keeps the player on file. */
  lemma StillOnFile(c: Cluster, d: Cluster, u: string, s: State)
    requires OnFile(c, u) && Playing(d, u) && d.sessions == c.sessions && d.store == c.store && Scene(d, u) == s
    requires u in s.players && s.players[u] == Scene(c, u).players[u] && s.cfg == Scene(c, u).cfg
    ensures OnFile(d, u)
  {
    hide Scene;
  }

  /** After a request the player is saved and its map shown. */
  ghost predicate Shown(c: Cluster, d: Cluster, u: string, s: State, order: seq<string>, now: int) {
    && u in s.players && d.sessions == c.sessions && OnFile(d, u)
    && Scene(d, u) == RefreshAll(Refresh(s, u, now), order, now)
    && Scene(d, u).players[u] == Refresh(s, u, now).players[u]
  }

  lemma FarewellShows(c: Cluster, u: string, order: seq<string>, now: int)
    requires Routing(c) && Playing(c, u)
    ensures var d := Look(Persist(c, u, now), u, order, now);
      Routing(d) && Shown(c, d, u, Scene(c, u), order, now) && OnlyFiles(c, d, u)
  {
    hide *;
    PersistFiles(c, u, now);
    PlayingIn(c, u);
    var p := Persist(c, u, now);
    OnFileIn(p, u);
    LookShows(p, u, order, now);
    ShownIs(c, p, Look(p, u, order, now), u, order, now);
  }

  lemma PlayingIn(c: Cluster, u: string)
    requires Playing(c, u)
    ensures u in c.sessions && u in Scene(c, u).players && c.sessions[u].nodeId in c.nodes
  {
  }

  lemma OnFileIn(c: Cluster, u: string)
    requires OnFile(c, u)
    ensures Playing(c, u) && u in c.sessions && u in Scene(c, u).players && u in c.store.users
  {
  }

  lemma ShownIs(c: Cluster, p: Cluster, d: Cluster, u: string, order: seq<string>, now: int)
    requires Playing(c, u) && OnFile(p, u) && OnFile(d, u) && u in Scene(p, u).players
    requires p.sessions == c.sessions && d.sessions == p.sessions && Scene(p, u) == Refresh(Scene(c, u), u, now)
    requires Scene(d, u) == RefreshAll(Scene(p, u), order, now) && Scene(d, u).players[u] == Scene(p, u).players[u]
    requires OnlyFiles(c, p, u) && d.store == p.store
    ensures Shown(c, d, u, Scene(c, u), order, now) && OnlyFiles(c, d, u)
  {
    hide Refresh, RefreshAll, Scene, OnFile;
  }

  // ----- The flush loop -----

  /** The flush saves the player of a session as its map shows it. */
  lemma FlushSaves(c: Cluster, u: string, now: int)
    requires Routing(c) && Playing(c, u)
    ensures var d := ClusterModel.Step(c, Flushes(u, now));
      OnFile(d, u) && OnlyFiles(c, d, u) && d.sessions == c.sessions && Scene(d, u) == Refresh(Scene(c, u), u, now)
  {
    hide *;
    PersistFiles(c, u, now);
    FlushIs(c, u, now);
    OnFileIn(ClusterModel.Step(c, Flushes(u, now)), u);
  }

  lemma FlushIs(c: Cluster, u: string, now: int)
    ensures ClusterModel.Step(c, Flushes(u, now)) == Persist(c, u, now)
  {
    hide Persist;
  }

  // ----- Commands -----

  ghost function OpOf(u: string, cmd: Command, now: int): Op {
    match cmd
    case MoveCmd(dir) => OpMove(u, dir, now)
    case HealCmd => OpHeal(u, now)
    case BuyCmd(item) => OpBuy(u, item, now)
    case AttackCmd => OpAttack(u, now)
  }

  lemma OpObeys(s: State, u: string, cmd: Command, now: int)
    ensures Apply(s, OpOf(u, cmd, now)) == Obey(s, u, cmd, now)
  {
    hide WorldModel.Move, Heal, Buy, Attack;
  }

  /** A command that hits no player takes effect on the map of the session, is saved and shown. */
  lemma ActTakesEffect(c: Cluster, u: string, cmd: Command, order: seq<string>, now: int)
    requires Routing(c) && Playing(c, u) && (cmd.AttackCmd? ==> AttackVictim(Scene(c, u), u, now).None?)
    ensures var d := ClusterModel.Step(c, Acts(u, cmd, order, now));
      Shown(c, d, u, Apply(Scene(c, u), OpOf(u, cmd, now)), order, now) && OnlyFiles(c, d, u)
  {
    hide Routing, Obey, AttackVictim, Apply, Look, Persist, SetWorld, Saved, Placed, Shown, OnlyFiles, Steady;
    var before := Scene(c, u);
    var after := Obey(before, u, cmd, now);
    OpObeys(before, u, cmd, now);
    ObeySteady(before, u, cmd, now);
    assert u in before.players && u in after.players by { SteadyKeys(before, after); }
    PutScene(c, u, after);
    var c1 := SetWorld(c, c.sessions[u].nodeId, c.sessions[u].mapId, after);
    SavedScene(c1, u);
    var c2 := Saved(c1, Placed(after, u, c.sessions[u]));
    FarewellShows(c2, u, order, now);
    ActIs(c, u, cmd, order, now, c1, after);
    hide ClusterModel.Step, Scene, Playing;
    var d := Look(Persist(c2, u, now), u, order, now);
    ShownFrom(c, c2, d, u, after, order, now);
    OnlyFilesChain(c1, c2, d, u);
    OnlyFilesFrom(c, c1, d, u);
  }

  lemma SteadyKeys(s: State, t: State)
    requires Steady(s, t, s.players.Keys)
    ensures t.players.Keys == s.players.Keys && t.cfg == s.cfg
  {
  }

  lemma ActIs(c: Cluster, u: string, cmd: Command, order: seq<string>, now: int, c1: Cluster, after: State)
    requires Playing(c, u) && (cmd.AttackCmd? ==> AttackVictim(Scene(c, u), u, now).None?)
    requires after == Obey(Scene(c, u), u, cmd, now) && u in after.players
    requires c1 == SetWorld(c, c.sessions[u].nodeId, c.sessions[u].mapId, after)
    ensures ClusterModel.Step(c, Acts(u, cmd, order, now))
      == Look(Persist(Saved(c1, Placed(after, u, c.sessions[u])), u, now), u, order, now)
  {
    hide Obey, AttackVictim, Look, Persist, SetWorld, Saved, Placed;
  }

  lemma ShownFrom(c: Cluster, c2: Cluster, d: Cluster, u: string, s: State, order: seq<string>, now: int)
    requires c2.sessions == c.sessions && Shown(c2, d, u, s, order, now)
    ensures Shown(c, d, u, s, order, now)
  {
    hide OnFile, Refresh, RefreshAll, Scene;
  }

  lemma OnlyFilesChain(c: Cluster, d: Cluster, e: Cluster, u: string)
    requires OnlyFiles(c, d, u) && OnlyFiles(d, e, u)
    ensures OnlyFiles(c, e, u)
  {
  }

  lemma OnlyFilesFrom(c: Cluster, c1: Cluster, d: Cluster, u: string)
    requires c1.store == c.store && OnlyFiles(c1, d, u)
    ensures OnlyFiles(c, d, u)
  {
  }

  // ----- An attack that hits a player -----

  /** Whoever was hit is alive, or down for four seconds: no revival is due. */
  lemma VictimSettled(s: State, u: string, now: int, v: string)
    requires AttackVictim(s, u, now) == Some(v)
    ensures v != u && Settled(Attack(s, u, now), v, now)
  {
    hide Refresh, NpcTarget;
  }

  /** The victim's share of the request: it is filed as the blow left it. */
  ghost function VictimFiled(c: Cluster, v: string, s: State, ses: Session, now: int): Cluster
    requires v in s.players
  {
    Persist(Saved(c, Placed(s, v, ses)), v, now)
  }

  lemma SaveVictimIs(c: Cluster, ses: Session, v: string, now: int)
    requires v in c.sessions && c.sessions[v] == ses && Playing(c, v) && Settled(Scene(c, v), v, now)
    ensures SaveVictim(c, ses, Some(v), now) == VictimFiled(c, v, Scene(c, v), ses, now)
  {
    var s := Scene(c, v);
    assert Refresh(s, v, now) == s;
    SameWorldSet(c, ses.nodeId, ses.mapId);
    hide Persist, Refresh;
  }

  lemma SameWorldSet(c: Cluster, n: string, m: string)
    requires Hosts(c, n, m)
    ensures SetWorld(c, n, m, WorldOn(c, n, m)) == c
  {
    var maps := c.nodes[n].maps;
    assert maps[m := maps[m]] == maps;
    assert c.nodes[n := c.nodes[n]] == c.nodes;
  }

  lemma VictimShows(c: Cluster, v: string, now: int)
    requires Routing(c) && Playing(c, v) && Settled(Scene(c, v), v, now)
    ensures v in c.sessions && v in Scene(c, v).players
    ensures var d := VictimFiled(c, v, Scene(c, v), c.sessions[v], now);
      Routing(d) && d.sessions == c.sessions && OnFile(d, v) && Scene(d, v) == Scene(c, v) && OnlyFiles(c, d, v)
  {
    hide *;
    PlayingIn(c, v);
    SavedScene(c, v);
    var c1 := Saved(c, Placed(Scene(c, v), v, c.sessions[v]));
    PersistFiles(c1, v, now);
    VictimIs(c, v, now, c1);
    NoneDueSame(Scene(c, v), v, now);
    OnlyFilesChain(c, c1, Persist(c1, v, now), v);
    OnFileIn(Persist(c1, v, now), v);
  }

  lemma VictimIs(c: Cluster, v: string, now: int, c1: Cluster)
    requires Playing(c, v) && c1 == Saved(c, Placed(Scene(c, v), v, c.sessions[v]))
    ensures VictimFiled(c, v, Scene(c, v), c.sessions[v], now) == Persist(c1, v, now)
  {
    hide Persist, Saved, Placed;
  }

  lemma NoneDueSame(s: State, u: string, now: int)
    requires Settled(s, u, now)
    ensures u in s.players && Refresh(s, u, now) == s
  {
  }

  /** Two users of one session place are in one scene. */
  ghost predicate Together(c: Cluster, u: string, v: string) {
    u != v && u in c.sessions && v in c.sessions && c.sessions[v] == c.sessions[u]
  }

  lemma TogetherPlay(c: Cluster, u: string, v: string)
    requires Together(c, u, v) && Playing(c, u) && v in Scene(c, u).players
    ensures Playing(c, v) && Scene(c, v) == Scene(c, u)
  {
  }

  lemma OtherStaysOnFile(c: Cluster, d: Cluster, u: string, v: string)
    requires Together(c, u, v) && OnFile(c, v) && OnlyFiles(c, d, u) && d.sessions == c.sessions && Playing(d, u)
    requires v in Scene(d, u).players && Scene(d, u).players[v] == Scene(c, v).players[v]
          && Scene(d, u).cfg == Scene(c, v).cfg
    ensures OnFile(d, v)
  {
    TogetherPlay(d, u, v);
    hide Scene;
  }

  lemma RefreshOther(s: State, u: string, v: string, order: seq<string>, now: int)
    requires u != v && Settled(s, v, now)
    ensures var d := RefreshAll(Refresh(s, u, now), order, now);
      v in d.players && v in s.players && d.players[v] == s.players[v] && d.cfg == s.cfg
  {
    SettledStaysSo(s, [u] + order, now, v);
    RefreshAllSteady(s, [u] + order, now);
    assert ([u] + order)[0] == u && ([u] + order)[1..] == order;
  }

  /** Nobody's profile but u's and v's has changed. */
  ghost predicate OnlyFilesBoth(c: Cluster, d: Cluster, u: string, v: string) {
    d.store.checkpoints == c.store.checkpoints
    && forall w | w != u && w != v && w in c.store.users :: w in d.store.users && d.store.users[w] == c.store.users[w]
  }

  lemma FilesBoth(c: Cluster, c1: Cluster, d: Cluster, u: string, v: string)
    requires OnlyFiles(c, c1, v) && OnlyFiles(c1, d, u)
    ensures OnlyFilesBoth(c, d, u, v)
  {
  }

  /** An attack on a player takes effect, is saved for both and shown. */
  lemma ActHitsPlayer(c: Cluster, u: string, order: seq<string>, now: int, v: string)
    requires Routing(c) && Playing(c, u) && AttackVictim(Scene(c, u), u, now) == Some(v) && v in c.sessions
          && c.sessions[v] == c.sessions[u]
    ensures var d := ClusterModel.Step(c, Acts(u, AttackCmd, order, now));
      && Shown(c, d, u, Apply(Scene(c, u), OpAttack(u, now)), order, now) && OnFile(d, v) && OnlyFilesBoth(c, d, u, v)
  {
    hide *;
    var s := Scene(c, u);
    var after := Attack(s, u, now);
    PlayingIn(c, u);
    VictimSettled(s, u, now, v);
    SettledIn(after, v, now);
    AttackSteady(s, u, now);
    SteadyKeys(s, after);
    AttackIs(s, u, now);
    PutScene(c, u, after);
    var c1 := SetWorld(c, c.sessions[u].nodeId, c.sessions[u].mapId, after);
    BecomeTogether(c1, u, v);
    TogetherPlay(c1, u, v);
    SaveVictimIs(c1, c.sessions[u], v, now);
    VictimShows(c1, v, now);
    var c2 := VictimFiled(c1, v, after, c1.sessions[v], now);
    OnFileIn(c2, v);
    BecomeTogether(c2, v, u);
    TogetherPlay(c2, v, u);
    SavedScene(c2, u);
    var c3 := Saved(c2, Placed(Scene(c2, u), u, c2.sessions[u]));
    FarewellShows(c3, u, order, now);
    var d := Look(Persist(c3, u, now), u, order, now);
    StrikeIs(c, u, order, now, v, c1, c2);
    ShownFrom(c, c3, d, u, after, order, now);
    OnlyFilesChain(c2, c3, d, u);
    FilesBoth(c1, c2, d, u, v);
    FilesBothFrom(c, c1, d, u, v);
    ShownIn(c3, d, u, after, order, now);
    RefreshOther(after, u, v, order, now);
    BecomeTogether(c2, u, v);
    OtherStaysOnFile(c2, d, u, v);
  }

  lemma AttackIs(s: State, u: string, now: int)
    ensures Apply(s, OpAttack(u, now)) == Attack(s, u, now)
  {
    hide Attack;
  }

  lemma BecomeTogether(c: Cluster, u: string, v: string)
    requires u != v && u in c.sessions && v in c.sessions && c.sessions[v] == c.sessions[u]
    ensures Together(c, u, v)
  {
  }

  lemma FilesBothFrom(c: Cluster, c1: Cluster, d: Cluster, u: string, v: string)
    requires c1.store == c.store && OnlyFilesBoth(c1, d, u, v)
    ensures OnlyFilesBoth(c, d, u, v)
  {
  }

  lemma ShownIn(c: Cluster, d: Cluster, u: string, s: State, order: seq<string>, now: int)
    requires Shown(c, d, u, s, order, now)
    ensures d.sessions == c.sessions && Playing(d, u) && Scene(d, u) == RefreshAll(Refresh(s, u, now), order, now)
  {
    hide Refresh, RefreshAll, Scene;
  }

  lemma StrikeIs(c: Cluster, u: string, order: seq<string>, now: int, v: string, c1: Cluster, c2: Cluster)
    requires Playing(c, u) && AttackVictim(Scene(c, u), u, now) == Some(v)
    requires c1 == SetWorld(c, c.sessions[u].nodeId, c.sessions[u].mapId, Attack(Scene(c, u), u, now))
    requires c2 == SaveVictim(c1, c.sessions[u], Some(v), now) && c2.sessions == c.sessions && Playing(c2, u)
    requires Scene(c2, u) == Attack(Scene(c, u), u, now)
    ensures ClusterModel.Step(c, Acts(u, AttackCmd, order, now))
      == Look(Persist(Saved(c2, Placed(Scene(c2, u), u, c2.sessions[u])), u, now), u, order, now)
  {
    hide Attack, AttackVictim, Look, Persist, SetWorld, Saved, Placed, SaveVictim;
  }

  // ----- The boss -----

  /** The striker, its revival settled, stands at most four steps from the boss of its map. */
  ghost predicate AtBoss(c: Cluster, u: string, now: int) {
    && Playing(c, u) && c.sessions[u].mapId in c.configs
    && (var a, b := Refresh(Scene(c, u), u, now).players[u].at, c.configs[c.sessions[u].mapId].boss;
        Abs(a.x - b.x) + Abs(a.y - b.y) <= 4)
  }

  /** A strike from there takes the striker's attack and half its treasure, and at least 20, off a living boss,
      or kills it; from anywhere else, and at a dead boss, it does nothing to it. */
  lemma BossSuffers(c: Cluster, u: string, payees: seq<string>, order: seq<string>, now: int)
    ensures var d := ClusterModel.Step(c, Strikes(u, payees, order, now));
      if AtBoss(c, u, now) && c.boss.alive then
        var q := Refresh(Scene(c, u), u, now).players[u];
        var damage := BossModel.Damage(q.attack, q.treasures);
        && d.boss.lastHit == u
        && (if c.boss.hp > damage then d.boss.alive && c.boss.hp - d.boss.hp == damage
            else !d.boss.alive && d.boss.hp == 0 && d.boss.respawnAt == now + 15)
      else d.boss == c.boss
  {
    StrikeKeepsHashes(c, u, payees, order, now);
    assert Reaches(c, u, now) == (AtBoss(c, u, now) && c.boss.alive);
    hide AttackBoss, Refresh, KeepsHashes, BossModel.Damage;
  }

  // ----- Passwords -----

  /** A password that does not open the account is refused, and so is a second session. */
  lemma LoginRefused(c: Cluster, u: string, pw: string, order: seq<string>, now: int)
    requires u !in c.store.users || c.store.users[u].passwordHash != c.store.hash(pw) || u in c.sessions || pw == "" || u == ""
    ensures ClusterModel.Step(c, LogsIn(u, pw, order, now)) == c
  {
    hide Enter, Look, Persist;
  }

  /** Whoever has registered under a free name is refused ever after with a password of another hash. */
  lemma WrongPasswordForever(c: Cluster, u: string, pw: string, es: seq<Event>, wrong: string, order: seq<string>, now: int)
    requires u != "" && pw != "" && u !in c.store.users && c.store.hash(wrong) != c.store.hash(pw)
    ensures var d := ClusterModel.Run(c, [Registers(u, pw)] + es); ClusterModel.Step(d, LogsIn(u, wrong, order, now)) == d
  {
    var r := ClusterModel.Step(c, Registers(u, pw));
    var all := [Registers(u, pw)] + es;
    assert r.store.users[u].passwordHash == c.store.hash(pw) && r.store.hash == c.store.hash;
    assert all[0] == Registers(u, pw) && all[1..] == es;
    RunOnce(c, all);
    hide ClusterModel.Run, ClusterModel.Step;
    RunKeepsHashes(r, es);
    LoginRefused(ClusterModel.Run(c, all), u, wrong, order, now);
  }

  // ----- Coming in -----

  /** The map a profile leads to: the last one if there is such a map, else the first. */
  ghost predicate Homeward(c: Cluster, p: Profile, m: string) {
    if p.lastMap in c.configs then m == p.lastMap else m == "green"
  }

  /** The right password opens a session at the owner of the user's last map, brings the player there as its
      profile says, saves it and shows the map. */
  lemma LoginEnters(c: Cluster, u: string, pw: string, order: seq<string>, now: int, m: string)
    requires Routing(c) && u != "" && pw != "" && u !in c.sessions && u in c.store.users
    requires c.store.users[u].passwordHash == c.store.hash(pw) && Homeward(c, c.store.users[u], m)
    ensures m in c.owners && Hosts(c, c.owners[m], m)
    ensures var d := ClusterModel.Step(c, LogsIn(u, pw, order, now));
      var s := Apply(WorldOn(c, c.owners[m], m), OpAdd(c.store.users[u]));
      && Shown(c.(sessions := c.sessions[u := Session(m, c.owners[m])]), d, u, s, order, now) && OnlyFiles(c, d, u)
  {
    Placement(c);
    NamedUser(c, u);
    LoginIs(c, u, pw, order, now, m);
    var n := c.owners[m];
    var profile := c.store.users[u];
    hide *;
    EnterRouting(c, u, m, profile);
    var e := Enter(c, u, m, n, profile);
    Entered(c, u, m, profile);
    FarewellShows(e, u, order, now);
    var d := Look(Persist(e, u, now), u, order, now);
    ShownFrom(c.(sessions := c.sessions[u := Session(m, n)]), e, d, u, Apply(WorldOn(c, n, m), OpAdd(profile)), order, now);
    OnlyFilesFrom(c, e, d, u);
  }

  lemma LoginIs(c: Cluster, u: string, pw: string, order: seq<string>, now: int, m: string)
    requires u != "" && pw != "" && u !in c.sessions && u in c.store.users && m in c.owners && c.owners[m] in c.nodes
    requires c.store.users[u].passwordHash == c.store.hash(pw) && Homeward(c, c.store.users[u], m)
    ensures ClusterModel.Step(c, LogsIn(u, pw, order, now))
      == Look(Persist(Enter(c, u, m, c.owners[m], c.store.users[u]), u, now), u, order, now)
  {
    hide Enter, Look, Persist;
  }

  lemma NamedUser(c: Cluster, u: string)
    requires Routing(c) && u in c.store.users
    ensures c.store.users[u].username == u
  {
    hide Built;
  }

  lemma Entered(c: Cluster, u: string, m: string, profile: Profile)
    requires profile.username == u && m in c.owners && Hosts(c, c.owners[m], m)
    ensures var e := Enter(c, u, m, c.owners[m], profile);
      && Playing(e, u) && e.sessions == c.sessions[u := Session(m, c.owners[m])] && e.store == c.store
      && Scene(e, u) == Apply(WorldOn(c, c.owners[m], m), OpAdd(profile))
  {
    hide Entrant, SafeCellDrawn;
  }

  /** A new account starts with 120 health, 35 attack, 3 potions and nothing else, on (4, 4) of the first map
      if it is walkable. */
  lemma FirstLoginFresh(c: Cluster, u: string, pw: string, order: seq<string>, now: int)
    requires Routing(c) && u != "" && pw != "" && u !in c.store.users && u !in c.sessions
    ensures "green" in c.owners && Hosts(c, c.owners["green"], "green")
    ensures var d := ClusterModel.Step(ClusterModel.Step(c, Registers(u, pw)), LogsIn(u, pw, order, now));
      && Playing(d, u) && d.sessions[u].mapId == "green"
      && (var q := Scene(d, u).players[u];
          && q == Player(q.at, 120, 120, 35, 3, 0, 0, 0, 0, true, None)
          && (Walkable(WorldOn(c, c.owners["green"], "green"), Cell(4, 4), "") ==> q.at == Cell(4, 4)))
  {
    var r := ClusterModel.Step(c, Registers(u, pw));
    Placement(c);
    assert r == c.(store := r.store) && r.store.users[u].lastMap == "green" && r.store.users[u].passwordHash == c.store.hash(pw);
    var p := r.store.users[u];
    assert p == NewProfile(u, c.store.hash(pw));
    var w := WorldOn(c, c.owners["green"], "green");
    GreenIs(c);
    StepRouting(c, Registers(u, pw));
    LoginEnters(r, u, pw, order, now, "green");
    var s := Apply(w, OpAdd(p));
    EntrantBrings(w, p);
    EntrantStands(w, p, Cell(4, 4));
    hide Routing, Apply, ClusterModel.Step, Walkable;
    var d := ClusterModel.Step(r, LogsIn(u, pw, order, now));
    AliveStays(s, u, now);
  }

  lemma AliveStays(s: State, u: string, now: int)
    requires u in s.players && s.players[u].alive
    ensures Refresh(s, u, now) == s
  {
  }

  lemma GreenIs(c: Cluster)
    requires Routing(c)
    ensures "green" in c.owners && Hosts(c, c.owners["green"], "green")
          && WorldOn(c, c.owners["green"], "green").cfg.id == "green"
  {
    hide Built;
  }

  // ----- Going -----

  /** The session is over, the player is off the map and filed as it stood. */
  ghost predicate HasLeft(c: Cluster, d: Cluster, u: string)
    requires Playing(c, u)
  {
    var ses := c.sessions[u];
    && d.sessions == c.sessions - {u} && Hosts(d, ses.nodeId, ses.mapId)
    && WorldOn(d, ses.nodeId, ses.mapId) == Apply(Scene(c, u), OpRemove(u))
    && u in d.store.users
    && d.store.users[u] == ProfileFrom(ses.mapId, u, Scene(c, u).players[u]).(
         lastNode := ses.nodeId, passwordHash := d.store.users[u].passwordHash)
  }

  lemma LogoutIs(c: Cluster, u: string)
    requires Playing(c, u)
    ensures var ses := c.sessions[u];
      ClusterModel.Step(c, LogsOut(u)) ==
        Saved(SetWorld(c.(sessions := c.sessions - {u}), ses.nodeId, ses.mapId, Apply(Scene(c, u), OpRemove(u))),
              Placed(Scene(c, u), u, ses))
  {
    hide RemovePlayer, Saved, SetWorld, Placed;
  }

  lemma LeftIs(c: Cluster, u: string, s: State)
    requires Playing(c, u) && Scene(c, u).cfg.id == c.sessions[u].mapId && s == Apply(Scene(c, u), OpRemove(u))
    ensures var ses := c.sessions[u];
      HasLeft(c, Saved(SetWorld(c.(sessions := c.sessions - {u}), ses.nodeId, ses.mapId, s), Placed(Scene(c, u), u, ses)), u)
  {
    hide Apply;
  }

  lemma LeftFiles(c: Cluster, u: string, s: State)
    requires Playing(c, u)
    ensures var ses := c.sessions[u];
      OnlyFiles(c, Saved(SetWorld(c.(sessions := c.sessions - {u}), ses.nodeId, ses.mapId, s), Placed(Scene(c, u), u, ses)), u)
  {
    var c1 := SetWorld(c.(sessions := c.sessions - {u}), c.sessions[u].nodeId, c.sessions[u].mapId, s);
    SaveFiles(c1, Placed(Scene(c, u), u, c.sessions[u]));
    hide OnlyFiles, Saved;
    OnlyFilesFrom(c, c1, Saved(c1, Placed(Scene(c, u), u, c.sessions[u])), u);
  }

  /** Leaving ends the session, takes the player off the map and files it as it stood. */
  lemma LogoutLeaves(c: Cluster, u: string)
    requires Routing(c) && Playing(c, u)
    ensures var d := ClusterModel.Step(c, LogsOut(u)); HasLeft(c, d, u) && OnlyFiles(c, d, u)
  {
    hide *;
    SceneFits(c, u);
    LogoutIs(c, u);
    LeftIs(c, u, Apply(Scene(c, u), OpRemove(u)));
    LeftFiles(c, u, Apply(Scene(c, u), OpRemove(u)));
  }

  // ----- Changing the map -----

  /** The profile with which a player goes to another map: as it is, to that map's spawn point. */
  ghost function Ticket(c: Cluster, u: string, target: string, now: int): Profile
    requires Playing(c, u) && target in c.configs && target in c.owners
  {
    ProfileFrom(target, u, Refresh(Scene(c, u), u, now).players[u]).(lastNode := c.owners[target], at := c.configs[target].spawn)
  }

  /** The cluster when the player has gone from its old map. */
  ghost function Departed(c: Cluster, u: string, now: int): Cluster
    requires Playing(c, u)
  {
    SetWorld(c, c.sessions[u].nodeId, c.sessions[u].mapId, Apply(Refresh(Scene(c, u), u, now), OpRemove(u)))
  }

  lemma DepartedIs(c: Cluster, u: string, now: int)
    requires Routing(c) && Playing(c, u)
    ensures var d := Departed(c, u, now);
      && Routing(d) && d.owners == c.owners && d.configs == c.configs && d.sessions == c.sessions && d.store == c.store
      && Hosts(d, c.sessions[u].nodeId, c.sessions[u].mapId)
      && WorldOn(d, c.sessions[u].nodeId, c.sessions[u].mapId) == Apply(Refresh(Scene(c, u), u, now), OpRemove(u))
      && forall m | m in c.owners && m != c.sessions[u].mapId && Hosts(c, c.owners[m], m) ::
           Hosts(d, c.owners[m], m) && WorldOn(d, c.owners[m], m) == WorldOn(c, c.owners[m], m)
  {
    hide Routing;
    DepartedFits(c, u, now);
    var w := Apply(Refresh(Scene(c, u), u, now), OpRemove(u));
    hide Apply, Refresh, SetWorld, WorldFits;
    SetWorldRouting(c, c.sessions[u].nodeId, c.sessions[u].mapId, w);
    OneWorldSet(c, c.sessions[u].nodeId, c.sessions[u].mapId, w);
  }

  lemma DepartedFits(c: Cluster, u: string, now: int)
    requires Routing(c) && Playing(c, u)
    ensures Hosts(c, c.sessions[u].nodeId, c.sessions[u].mapId)
    ensures WorldFits(c, c.sessions[u].mapId, Apply(Refresh(Scene(c, u), u, now), OpRemove(u)))
  {
    SessionHosted(c, u);
    RefreshSteady(Scene(c, u), u, now);
    hide Routing, Refresh, Evolves;
  }

  lemma OneWorldSet(c: Cluster, n: string, m: string, w: State)
    requires Hosts(c, n, m)
    ensures var d := SetWorld(c, n, m, w);
      && d.owners == c.owners && d.configs == c.configs && d.sessions == c.sessions && d.store == c.store
      && Hosts(d, n, m) && WorldOn(d, n, m) == w
      && forall k | k in c.owners && k != m && Hosts(c, c.owners[k], k) ::
           Hosts(d, c.owners[k], k) && WorldOn(d, c.owners[k], k) == WorldOn(c, c.owners[k], k)
  {
  }

  lemma SwitchIs(c: Cluster, u: string, target: string, order: seq<string>, now: int)
    requires Playing(c, u) && target in c.configs && target != c.sessions[u].mapId && target in c.owners
          && c.owners[target] in c.nodes
    requires Scene(c, u).cfg.id == c.sessions[u].mapId
    requires Refresh(Scene(c, u), u, now).players[u].alive
    ensures var p := Ticket(c, u, target, now);
      ClusterModel.Step(c, Switches(u, target, order, now)) ==
        Look(Persist(Saved(Enter(Departed(c, u, now), u, target, c.owners[target], p), p), u, now), u, order, now)
  {
    hide Refresh, RemovePlayer, Enter, Saved, Look, Persist, SetWorld;
  }

  lemma SavedSeat(c: Cluster, u: string, p: Profile)
    requires Routing(c) && Playing(c, u) && p.username == u && p.passwordHash == ""
    ensures var d := Saved(c, p);
      Routing(d) && d.sessions == c.sessions && Playing(d, u) && Scene(d, u) == Scene(c, u) && OnlyFiles(c, d, u)
  {
    hide Routing, Playing, Scene, Saved;
    SavedRouting(c, p);
    SaveFiles(c, p);
    SeatSaved(c, u, p);
  }

  lemma SeatSaved(c: Cluster, u: string, p: Profile)
    requires Playing(c, u)
    ensures Saved(c, p).sessions == c.sessions && Playing(Saved(c, p), u) && Scene(Saved(c, p), u) == Scene(c, u)
  {
  }

  /** What follows on the new map leaves the old one as the player left it. */
  lemma OldMapStays(c: Cluster, u: string, n: string, m: string, c1: Cluster, order: seq<string>, now: int, p: Profile,
                     target: string)
    requires Hosts(c, n, m) && m != target && target in c.owners
    requires c1 == Saved(Enter(c, u, target, c.owners[target], p), p)
    ensures var d := Look(Persist(c1, u, now), u, order, now); Hosts(d, n, m) && WorldOn(d, n, m) == WorldOn(c, n, m)
  {
    EnterLeaves(c, u, n, m, p, target);
    SaveLeaves(Enter(c, u, target, c.owners[target], p), p, n, m);
    hide Enter, Saved, Look, Persist, Hosts, WorldOn;
    PersistLeaves(c1, u, now, n, m, target);
    LookLeaves(Persist(c1, u, now), u, order, now, n, m, target);
  }

  lemma EnterLeaves(c: Cluster, u: string, n: string, m: string, p: Profile, target: string)
    requires Hosts(c, n, m) && m != target && target in c.owners
    ensures var d := Enter(c, u, target, c.owners[target], p);
      Hosts(d, n, m) && WorldOn(d, n, m) == WorldOn(c, n, m) && u in d.sessions && d.sessions[u].mapId == target
  {
    hide AddPlayer;
  }

  lemma SaveLeaves(c: Cluster, p: Profile, n: string, m: string)
    requires Hosts(c, n, m)
    ensures var d := Saved(c, p); Hosts(d, n, m) && WorldOn(d, n, m) == WorldOn(c, n, m) && d.sessions == c.sessions
  {
  }

  lemma PersistLeaves(c: Cluster, u: string, now: int, n: string, m: string, target: string)
    requires Hosts(c, n, m) && m != target && u in c.sessions && c.sessions[u].mapId == target
    ensures var d := Persist(c, u, now); Hosts(d, n, m) && WorldOn(d, n, m) == WorldOn(c, n, m) && d.sessions == c.sessions
  {
    hide Refresh;
  }

  lemma LookLeaves(c: Cluster, u: string, order: seq<string>, now: int, n: string, m: string, target: string)
    requires Hosts(c, n, m) && m != target && u in c.sessions && c.sessions[u].mapId == target
    ensures var d := Look(c, u, order, now); Hosts(d, n, m) && WorldOn(d, n, m) == WorldOn(c, n, m)
  {
    hide RefreshAll;
  }

  /** A live player who asks for another map is taken off its own and brought to the other at its spawn
      point, with all it has; its session leads to the owner of that map, and it is saved and shown there. */
  lemma SwitchMoves(c: Cluster, u: string, target: string, order: seq<string>, now: int)
    requires Routing(c) && Playing(c, u) && target in c.configs && target != c.sessions[u].mapId
    requires Refresh(Scene(c, u), u, now).players[u].alive
    ensures target in c.owners && Hosts(c, c.owners[target], target)
    ensures var d := ClusterModel.Step(c, Switches(u, target, order, now));
      var s := Apply(WorldOn(c, c.owners[target], target), OpAdd(Ticket(c, u, target, now)));
      && Shown(c.(sessions := c.sessions[u := Session(target, c.owners[target])]), d, u, s, order, now) && OnlyFiles(c, d, u)
      && Hosts(d, c.sessions[u].nodeId, c.sessions[u].mapId)
      && WorldOn(d, c.sessions[u].nodeId, c.sessions[u].mapId) == Apply(Refresh(Scene(c, u), u, now), OpRemove(u))
  {
    Placement(c);
    hide *;
    SwitchShows(c, u, target, order, now);
    SwitchLeaves(c, u, target, order, now);
  }

  lemma SwitchShows(c: Cluster, u: string, target: string, order: seq<string>, now: int)
    requires Routing(c) && Playing(c, u) && target in c.configs && target != c.sessions[u].mapId
    requires Refresh(Scene(c, u), u, now).players[u].alive && target in c.owners && Hosts(c, c.owners[target], target)
    ensures var d := ClusterModel.Step(c, Switches(u, target, order, now));
      var s := Apply(WorldOn(c, c.owners[target], target), OpAdd(Ticket(c, u, target, now)));
      Shown(c.(sessions := c.sessions[u := Session(target, c.owners[target])]), d, u, s, order, now) && OnlyFiles(c, d, u)
  {
    HostsNode(c, c.owners[target], target);
    SceneFits(c, u);
    DepartedIs(c, u, now);
    hide *;
    var n := c.owners[target];
    var p := Ticket(c, u, target, now);
    var c0 := Departed(c, u, now);
    TicketIs(c, u, target, now);
    SwitchIs(c, u, target, order, now);
    EnterRouting(c0, u, target, p);
    Entered(c0, u, target, p);
    var c1 := Enter(c0, u, target, n, p);
    SavedSeat(c1, u, p);
    var c2 := Saved(c1, p);
    FarewellShows(c2, u, order, now);
    var d := Look(Persist(c2, u, now), u, order, now);
    ShownFrom(c.(sessions := c.sessions[u := Session(target, n)]), c2, d, u, Apply(WorldOn(c, n, target), OpAdd(p)), order, now);
    OnlyFilesChain(c1, c2, d, u);
    OnlyFilesFrom(c, c1, d, u);
  }

  lemma HostsNode(c: Cluster, n: string, m: string)
    requires Hosts(c, n, m)
    ensures n in c.nodes
  {
  }

  lemma SwitchLeaves(c: Cluster, u: string, target: string, order: seq<string>, now: int)
    requires Routing(c) && Playing(c, u) && target in c.configs && target != c.sessions[u].mapId
    requires Refresh(Scene(c, u), u, now).players[u].alive && target in c.owners && Hosts(c, c.owners[target], target)
    ensures var d := ClusterModel.Step(c, Switches(u, target, order, now));
      && Hosts(d, c.sessions[u].nodeId, c.sessions[u].mapId)
      && WorldOn(d, c.sessions[u].nodeId, c.sessions[u].mapId) == Apply(Refresh(Scene(c, u), u, now), OpRemove(u))
  {
    HostsNode(c, c.owners[target], target);
    SceneFits(c, u);
    DepartedIs(c, u, now);
    hide *;
    var p := Ticket(c, u, target, now);
    var c0 := Departed(c, u, now);
    SwitchIs(c, u, target, order, now);
    var c1 := Saved(Enter(c0, u, target, c.owners[target], p), p);
    OldMapStays(c0, u, c.sessions[u].nodeId, c.sessions[u].mapId, c1, order, now, p, target);
  }

  lemma TicketIs(c: Cluster, u: string, target: string, now: int)
    requires Playing(c, u) && target in c.configs && target in c.owners
    ensures Ticket(c, u, target, now).username == u && Ticket(c, u, target, now).passwordHash == ""
  {
  }
}
