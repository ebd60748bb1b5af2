/** What holds of the placement-free model after every step: each player is in exactly one world, that of
    its session; players stay sound; and units keep apart while the maps have room. */
module PlainProperties {
  import opened Basics
  import opened WorldModel
  import opened WorldCheckpoint
  import opened WorldPlacement
  import opened WorldLife
  import opened ClusterModel
  import opened PlainModel
  import Boss = BossModel

  predicate SoundProfile(q: Profile) {
    q.maxHP > 0 && q.attack > 0 && q.potions >= 0
  }

  ghost predicate AllRobust(s: State) {
    forall u | u in s.players :: Robust(s.players[u])
  }

  /** A user with a session is a player of exactly one world, that of the session; a user without is in none. */
  ghost predicate Located(p: Plain) {
    && p.worlds.Keys == p.configs.Keys && DEFAULT_MAP in p.configs
    && (forall u | u in p.at :: p.at[u] in p.worlds && u in p.users)
    && (forall m, u | m in p.worlds :: u in p.worlds[m].players <==> u in p.at && p.at[u] == m)
  }

  ghost predicate SoundUsers(p: Plain) {
    forall u | u in p.users :: u != "" && p.users[u].username == u && SoundProfile(p.users[u])
  }

  ghost predicate SoundWorlds(p: Plain) {
    forall m | m in p.worlds :: m in p.configs && AllRobust(p.worlds[m]) && p.worlds[m].cfg == p.configs[m]
  }

  /** The map keeps its layout and its units stand apart. */
  ghost predicate Calm(s: State, cfg: Config) {
    Separated(s) && s.terrain == cfg.layout && |s.npcs| <= MIN_NPCS
  }

  /** Every map has more open cells than there are registered users and NPCs. */
  ghost predicate Room(p: Plain) {
    forall m | m in p.configs :: |OpenCells(p.configs[m].layout)| > |p.users| + MIN_NPCS
  }

  ghost predicate Peace(p: Plain) {
    forall m | m in p.worlds && m in p.configs :: Calm(p.worlds[m], p.configs[m])
  }

  ghost predicate Good(p: Plain) {
    Located(p) && SoundUsers(p) && SoundWorlds(p) && (Room(p) ==> Peace(p))
  }

  // ----- World operations that bring nobody in and take nobody out -----

  /** s follows from w by such an operation. */
  ghost predicate Held(w: State, s: State) {
    && Steady(w, s, w.players.Keys)
    && (Separated(w) && |OpenCells(w.terrain)| > |w.players| + |w.npcs| ==> Kept(w, s, {}))
  }

  lemma HeldChain(w: State, s: State, t: State)
    requires Held(w, s) && Held(s, t) && |w.npcs| <= MIN_NPCS && |OpenCells(w.terrain)| > |w.players| + MIN_NPCS
    ensures Steady(w, t, w.players.Keys) && (Separated(w) ==> Kept(w, t, {}))
  {
    hide Separated, Evolves, OpenCells;
    SteadyChain(w, s, t);
  }

  lemma RefreshHeld(s: State, u: string, now: int)
    ensures Held(s, Refresh(s, u, now))
  {
    hide Steady, Kept, Separated, Refresh;
    RefreshSteady(s, u, now);
    if Separated(s) && |OpenCells(s.terrain)| > |s.players| + |s.npcs| {
      RefreshKept(s, u, now);
    }
  }

  lemma RefreshAllHeld(s: State, order: seq<string>, now: int)
    ensures Held(s, RefreshAll(s, order, now))
  {
    hide Steady, Separated, RefreshAll;
    RefreshAllSteady(s, order, now);
    if Separated(s) && |OpenCells(s.terrain)| > |s.players| + |s.npcs| {
      RefreshAllKept(s, order, now);
    }
  }

  lemma ObeyHeld(s: State, u: string, cmd: Command, now: int)
    ensures Held(s, Obey(s, u, cmd, now))
  {
    hide Steady, Kept, Separated, WorldModel.Move, Heal, Buy, Attack, OpenCells;
    match cmd
    case MoveCmd(dir) =>
      MoveSteady(s, u, dir, now);
      if Separated(s) && |OpenCells(s.terrain)| > |s.players| + |s.npcs| { MoveKept(s, u, dir, now); }
    case HealCmd =>
      HealSteady(s, u, now);
      if Separated(s) && |OpenCells(s.terrain)| > |s.players| + |s.npcs| { HealKept(s, u, now); }
    case BuyCmd(item) =>
      BuySteady(s, u, item, now);
      if Separated(s) && |OpenCells(s.terrain)| > |s.players| + |s.npcs| { BuyKept(s, u, item, now); }
    case AttackCmd =>
      AttackSteady(s, u, now);
      if Separated(s) && |OpenCells(s.terrain)| > |s.players| + |s.npcs| { AttackKept(s, u, now); }
  }

  lemma RewardHeld(s: State, u: string, treasures: int, victories: int)
    ensures Held(s, WorldModel.Reward(s, u, treasures, victories))
  {
    hide Steady, Kept, Separated, WorldModel.Reward;
    RewardSteady(s, u, treasures, victories);
    if Separated(s) { RewardKept(s, u, treasures, victories); }
  }

  lemma BackgroundHeld(s: State, order: seq<string>, now: int)
    ensures Held(s, Background(s, order, now))
  {
    hide Steady, Kept, Separated, Background;
    BackgroundSteady(s, order, now);
    if Separated(s) && |OpenCells(s.terrain)| > |s.players| + |s.npcs| { BackgroundKept(s, order, now); }
  }

  lemma NormaliseHeld(s: State, drawn: nat)
    ensures Held(s, Normalise(s, drawn))
  {
    hide Separated;
    var t := Normalise(s, drawn);
    assert t.players.Keys == s.players.Keys;
    assert |t.players.Keys| == |t.players| && |s.players.Keys| == |s.players|;
    if Separated(s) { NormaliseSeparation(s, drawn); }
  }

  // ----- Steps of the model that change one world -----

  lemma PlayersAreUsers(p: Plain, m: string)
    requires Located(p) && m in p.worlds
    ensures |p.worlds[m].players| <= |p.users|
  {
    SubsetSize(p.worlds[m].players.Keys, p.users.Keys);
    assert |p.worlds[m].players.Keys| == |p.worlds[m].players| && |p.users.Keys| == |p.users|;
  }

  ghost predicate SameSeats(p: Plain, q: Plain) {
    q.at == p.at && q.configs == p.configs && q.hash == p.hash && q.worlds.Keys == p.worlds.Keys && q.users.Keys == p.users.Keys
  }

  lemma HeldRobust(w: State, s: State)
    requires Steady(w, s, w.players.Keys) && AllRobust(w)
    ensures AllRobust(s) && s.cfg == w.cfg && s.players.Keys == w.players.Keys
  {
    hide Evolves, Robust;
    forall u | u in s.players ensures Robust(s.players[u]) {
      assert Evolves(w.players[u], s.players[u]);
      EvolvesRobust(w.players[u], s.players[u]);
    }
  }

  lemma HeldCalm(w: State, s: State, cfg: Config, users: nat)
    requires Held(w, s) && Calm(w, cfg) && |w.players| <= users && |OpenCells(cfg.layout)| > users + MIN_NPCS
    ensures Calm(s, cfg)
  {
    hide Separated, OpenCells, Steady;
  }

  lemma PutLocated(p: Plain, m: string, s: State)
    requires Located(p) && m in p.worlds && s.players.Keys == p.worlds[m].players.Keys
    ensures Located(PutWorld(p, m, s))
  {
    var q := PutWorld(p, m, s);
    assert q.worlds.Keys == p.worlds.Keys;
    forall m', u | m' in q.worlds ensures u in q.worlds[m'].players <==> u in q.at && q.at[u] == m' {
      assert u in q.worlds[m'].players <==> u in p.worlds[m'].players;
    }
  }

  lemma PutSound(p: Plain, m: string, s: State)
    requires SoundWorlds(p) && m in p.worlds && AllRobust(s) && s.cfg == p.worlds[m].cfg
    ensures SoundWorlds(PutWorld(p, m, s))
  {
    hide AllRobust;
  }

  lemma RoomBefore(p: Plain, q: Plain)
    requires q.configs == p.configs && |p.users| <= |q.users| && Room(q)
    ensures Room(p)
  {
    hide OpenCells;
  }

  lemma RoomFor(p: Plain, m: string)
    requires Located(p) && Room(p) && m in p.worlds
    ensures m in p.configs && |p.worlds[m].players| <= |p.users| && |OpenCells(p.configs[m].layout)| > |p.users| + MIN_NPCS
  {
    hide OpenCells;
    PlayersAreUsers(p, m);
  }

  lemma PutPeace(p: Plain, m: string, s: State)
    requires Peace(p) && (m in p.configs ==> Calm(s, p.configs[m]))
    ensures Peace(PutWorld(p, m, s))
  {
    hide Calm;
  }

  lemma PutGood(p: Plain, m: string, s: State)
    requires Good(p) && m in p.worlds && Held(p.worlds[m], s)
    ensures Good(PutWorld(p, m, s)) && SameSeats(p, PutWorld(p, m, s))
  {
    hide OpenCells, Calm, AllRobust, Room, Located, Steady, Kept, Separated;
    var q := PutWorld(p, m, s);
    HeldRobust(p.worlds[m], s);
    PutLocated(p, m, s);
    PutSound(p, m, s);
    if Room(q) {
      RoomBefore(p, q);
      RoomFor(p, m);
      HeldCalm(p.worlds[m], s, p.configs[m], |p.users|);
      PutPeace(p, m, s);
    }
    SeatsAfterPut(p, m, s);
  }

  lemma SeatsAfterPut(p: Plain, m: string, s: State)
    requires m in p.worlds
    ensures SameSeats(p, PutWorld(p, m, s))
  {
  }

  lemma EvolvesRobust(p: Player, q: Player)
    requires Evolves(p, q) && Robust(p)
    ensures Robust(q)
  {
  }

  /** More users, or other profiles of the same users, and nothing else. */
  lemma UsersGood(p: Plain, q: Plain)
    requires Good(p) && q == p.(users := q.users) && q.users.Keys >= p.users.Keys && SoundUsers(q)
    ensures Good(q)
  {
    hide Peace, SoundWorlds;
    SubsetSize(p.users.Keys, q.users.Keys);
    assert |q.users.Keys| == |q.users| && |p.users.Keys| == |p.users|;
    MoreUsersLocated(p, q);
    SameWorlds(p, q);
    if Room(q) {
      RoomBefore(p, q);
    }
  }

  lemma MoreUsersLocated(p: Plain, q: Plain)
    requires Located(p) && q == p.(users := q.users) && q.users.Keys >= p.users.Keys
    ensures Located(q)
  {
    assert forall u | u in p.users :: u in q.users.Keys;
  }

  lemma SameWorlds(p: Plain, q: Plain)
    requires q.worlds == p.worlds && q.configs == p.configs
    ensures SoundWorlds(q) <==> SoundWorlds(p)
    ensures Peace(q) <==> Peace(p)
  {
    hide AllRobust, Calm;
  }

  lemma KeepGood(p: Plain, profile: Profile)
    requires Good(p) && profile.username in p.users && SoundProfile(profile)
    ensures Good(Keep(p, profile)) && SameSeats(p, Keep(p, profile))
  {
    hide Located, Peace, SoundWorlds, Room;
    UsersGood(p, Keep(p, profile));
  }

  /** The profile of a player of the model is sound and belongs to a user. */
  lemma ResidentSound(p: Plain, u: string, m: string)
    requires Good(p) && m in p.worlds && u in p.worlds[m].players
    ensures u in p.users && SoundProfile(Resident(p.worlds[m], u, m))
  {
    hide Calm;
    assert Robust(p.worlds[m].players[u]);
  }

  lemma PersistGood(p: Plain, u: string, now: int)
    requires Good(p)
    ensures Good(PersistP(p, u, now)) && SameSeats(p, PersistP(p, u, now))
  {
    hide Good, Keep, Refresh, Held;
    if On(p, u) {
      var m := p.at[u];
      var s := Refresh(p.worlds[m], u, now);
      RefreshHeld(p.worlds[m], u, now);
      PutGood(p, m, s);
      ResidentSound(PutWorld(p, m, s), u, m);
      KeepGood(PutWorld(p, m, s), Resident(s, u, m));
    }
  }

  lemma LookGood(p: Plain, u: string, order: seq<string>, now: int)
    requires Good(p)
    ensures Good(LookP(p, u, order, now)) && SameSeats(p, LookP(p, u, order, now))
  {
    hide Good, RefreshAll, Held;
    if u in p.at && p.at[u] in p.worlds {
      RefreshAllHeld(p.worlds[p.at[u]], order, now);
      PutGood(p, p.at[u], RefreshAll(p.worlds[p.at[u]], order, now));
    }
  }

  lemma FarewellGood(p: Plain, u: string, order: seq<string>, now: int)
    requires Good(p)
    ensures var q := LookP(PersistP(p, u, now), u, order, now); Good(q) && SameSeats(p, q)
  {
    hide Good, LookP, PersistP;
    PersistGood(p, u, now);
    LookGood(PersistP(p, u, now), u, order, now);
  }

  lemma KeepVictimGood(p: Plain, m: string, victim: Option<string>, now: int)
    requires Good(p)
    ensures Good(KeepVictim(p, m, victim, now)) && SameSeats(p, KeepVictim(p, m, victim, now))
  {
    hide Good, Refresh, PersistP, Keep, Held;
    if victim.Some? && m in p.worlds && victim.value in p.worlds[m].players {
      var v := victim.value;
      var s := Refresh(p.worlds[m], v, now);
      RefreshHeld(p.worlds[m], v, now);
      PutGood(p, m, s);
      ResidentSound(PutWorld(p, m, s), v, m);
      KeepGood(PutWorld(p, m, s), Resident(s, v, m));
      PersistGood(Keep(PutWorld(p, m, s), Resident(s, v, m)), v, now);
    }
  }

  lemma ActGood(p: Plain, u: string, cmd: Command, order: seq<string>, now: int)
    requires Good(p)
    ensures Good(ActP(p, u, cmd, order, now))
  {
    hide Good, Obey, AttackVictim, KeepVictim, LookP, PersistP, Keep, Held;
    if On(p, u) {
      var m := p.at[u];
      var before := p.worlds[m];
      var after := Obey(before, u, cmd, now);
      ObeyHeld(before, u, cmd, now);
      PutGood(p, m, after);
      var p0 := PutWorld(p, m, after);
      var victim := if cmd.AttackCmd? then AttackVictim(before, u, now) else None;
      KeepVictimGood(p0, m, victim, now);
      if u in after.players {
        ResidentSound(p0, u, m);
        KeepGood(KeepVictim(p0, m, victim, now), Resident(after, u, m));
        FarewellGood(Keep(KeepVictim(p0, m, victim, now), Resident(after, u, m)), u, order, now);
      }
    }
  }

  lemma PayOneGood(p: Plain, u: string, r: Boss.Reward)
    requires Good(p)
    ensures Good(PayOneP(p, u, r)) && SameSeats(p, PayOneP(p, u, r))
  {
    hide Good, WorldModel.Reward, Keep, Held;
    if On(p, u) {
      var m := p.at[u];
      var s := WorldModel.Reward(p.worlds[m], u, r.treasure, r.victories);
      RewardHeld(p.worlds[m], u, r.treasure, r.victories);
      PutGood(p, m, s);
      if u in s.players {
        ResidentSound(PutWorld(p, m, s), u, m);
        KeepGood(PutWorld(p, m, s), Resident(s, u, m));
      }
    }
  }

  lemma {:induction false} PayAllGood(p: Plain, payees: seq<string>, rewards: map<string, Boss.Reward>)
    requires Good(p)
    ensures Good(PayAllP(p, payees, rewards)) && SameSeats(p, PayAllP(p, payees, rewards))
    decreases |payees|
  {
    hide Good, PayOneP;
    if payees != [] {
      if payees[0] !in rewards {
        PayAllGood(p, payees[1..], rewards);
      } else {
        PayOneGood(p, payees[0], rewards[payees[0]]);
        PayAllGood(PayOneP(p, payees[0], rewards[payees[0]]), payees[1..], rewards);
      }
    }
  }

  lemma BossGood(p: Plain, boss: Boss.Boss)
    requires Good(p)
    ensures Good(p.(boss := boss)) && SameSeats(p, p.(boss := boss))
  {
    hide AllRobust, Calm, OpenCells, Peace, SoundWorlds;
    SameWorlds(p, p.(boss := boss));
  }

  lemma StrikeGood(p: Plain, u: string, payees: seq<string>, order: seq<string>, now: int)
    requires Good(p)
    ensures Good(StrikeP(p, u, payees, order, now))
  {
    hide Good, Refresh, LookP, PersistP, PayAllP, Boss.Struck, Boss.Rewards, Boss.Damage, Held;
    if On(p, u) {
      var m := p.at[u];
      var s := Refresh(p.worlds[m], u, now);
      RefreshHeld(p.worlds[m], u, now);
      PutGood(p, m, s);
      var p1 := PutWorld(p, m, s);
      var q := s.players[u];
      if m in p.configs {
        if Distance(q.at, p.configs[m].boss) > BOSS_RANGE || !p.boss.alive {
          LookGood(p1, u, order, now);
        } else {
          var damage := Boss.Damage(q.attack, q.treasures);
          var boss := Boss.Struck(p1.boss, u, damage, now);
          BossGood(p1, boss);
          var rewards := Boss.Rewards(p1.boss, u, damage, p1.at.Keys);
          PayAllGood(p1.(boss := boss), payees, rewards);
          FarewellGood(PayAllP(p1.(boss := boss), payees, rewards), u, order, now);
        }
      }
    }
  }

  lemma ShowGood(p: Plain, m: string, order: seq<string>, now: int)
    requires Good(p)
    ensures Good(ShowP(p, m, order, now))
  {
    hide Good, RefreshAll, Held;
    if m in p.worlds {
      RefreshAllHeld(p.worlds[m], order, now);
      PutGood(p, m, RefreshAll(p.worlds[m], order, now));
    }
  }

  lemma LiveGood(p: Plain, m: string, order: seq<string>, now: int)
    requires Good(p)
    ensures Good(LiveP(p, m, order, now))
  {
    hide Good, Background, Held;
    if m in p.worlds {
      BackgroundHeld(p.worlds[m], order, now);
      PutGood(p, m, Background(p.worlds[m], order, now));
    }
  }

  // ----- Comings and goings -----

  lemma EntrantRobust(s: State, profile: Profile)
    requires SoundProfile(profile)
    ensures Robust(Entrant(s, profile))
  {
    hide SafeCell;
  }

  lemma EnterLocated(p: Plain, u: string, m: string, profile: Profile)
    requires Located(p) && m in p.worlds && u in p.users && u !in p.at && profile.username == u
    ensures Located(EnterP(p, u, m, profile))
  {
    hide AddPlayer, Entrant;
    var q := EnterP(p, u, m, profile);
    AddIsEntrant(p.worlds[m], profile);
    assert q.worlds.Keys == p.worlds.Keys;
    forall m', v | m' in q.worlds ensures v in q.worlds[m'].players <==> v in q.at && q.at[v] == m' {
      assert v in p.worlds[m'].players <==> v in p.at && p.at[v] == m';
    }
  }

  lemma EnterSound(s: State, profile: Profile)
    requires AllRobust(s) && SoundProfile(profile)
    ensures AllRobust(AddPlayer(s, profile)) && AddPlayer(s, profile).cfg == s.cfg
  {
    hide AddPlayer, Entrant, Robust;
    AddSteady(s, profile);
    AddIsEntrant(s, profile);
    EntrantRobust(s, profile);
  }

  lemma EnterCalm(s: State, profile: Profile, cfg: Config, users: nat)
    requires Calm(s, cfg) && profile.username != "" && |s.players| <= users && |OpenCells(cfg.layout)| > users + MIN_NPCS
    ensures Calm(AddPlayer(s, profile), cfg)
  {
    hide Separated, OpenCells, AddPlayer;
    AddKept(s, profile);
  }

  lemma EnterGood(p: Plain, u: string, m: string, profile: Profile)
    requires Good(p) && m in p.worlds && u in p.users && u !in p.at && profile.username == u && SoundProfile(profile)
    ensures Good(EnterP(p, u, m, profile)) && EnterP(p, u, m, profile).users == p.users
  {
    hide OpenCells, Calm, AllRobust, Room, Located, AddPlayer;
    var w := p.worlds[m];
    var s := AddPlayer(w, profile);
    var q := EnterP(p, u, m, profile);
    EnterLocated(p, u, m, profile);
    EnterSound(w, profile);
    PutSound(p, m, s);
    if Room(q) {
      RoomBefore(p, q);
      RoomFor(p, m);
      EnterCalm(w, profile, p.configs[m], |p.users|);
      PutPeace(p, m, s);
    }
  }

  lemma AddIsEntrant(s: State, profile: Profile)
    ensures AddPlayer(s, profile).players == s.players[profile.username := Entrant(s, profile)]
  {
    hide SafeCell, SafeCellDrawn, Entrant;
  }

  lemma OnlyThere(p: Plain, u: string, m: string)
    requires Located(p) && u in p.at && m in p.worlds && m != p.at[u]
    ensures u !in p.worlds[m].players
  {
  }

  lemma LeaveLocated(p: Plain, q: Plain, u: string)
    requires Located(p) && q.configs == p.configs && q.users == p.users && q.worlds.Keys == p.worlds.Keys
    requires q.at == p.at - {u}
    requires forall m | m in p.worlds :: q.worlds[m].players.Keys == p.worlds[m].players.Keys - {u}
    ensures Located(q)
  {
    forall m, v | m in q.worlds ensures v in q.worlds[m].players <==> v in q.at && q.at[v] == m {
      assert v in q.worlds[m].players.Keys <==> v in p.worlds[m].players.Keys && v != u;
    }
  }

  lemma ExitLocated(p: Plain, u: string)
    requires Located(p) && On(p, u)
    ensures Located(PutWorld(p, p.at[u], RemovePlayer(p.worlds[p.at[u]], u)).(at := p.at - {u}))
  {
    hide RemovePlayer, Located;
    var m := p.at[u];
    var q := PutWorld(p, m, RemovePlayer(p.worlds[m], u)).(at := p.at - {u});
    RemovedPlayers(p.worlds[m], u);
    forall m' | m' in p.worlds ensures q.worlds[m'].players.Keys == p.worlds[m'].players.Keys - {u} {
      if m' != m { OnlyThere(p, u, m'); }
    }
    LeaveLocated(p, q, u);
  }

  lemma ExitSound(s: State, u: string)
    requires AllRobust(s) && u in s.players
    ensures AllRobust(RemovePlayer(s, u)) && RemovePlayer(s, u).cfg == s.cfg
  {
    hide Robust;
    RemovedPlayers(s, u);
  }

  lemma ExitCalm(s: State, u: string, cfg: Config)
    requires Calm(s, cfg)
    ensures Calm(RemovePlayer(s, u), cfg)
  {
    hide Separated, RemovePlayer;
    RemoveKept(s, u);
  }

  lemma ExitGood(p: Plain, u: string)
    requires Good(p) && On(p, u)
    ensures Good(PutWorld(p, p.at[u], RemovePlayer(p.worlds[p.at[u]], u)).(at := p.at - {u}))
  {
    hide OpenCells, Calm, AllRobust, Room, Located, RemovePlayer;
    var m := p.at[u];
    var w := p.worlds[m];
    var s := RemovePlayer(w, u);
    var q := PutWorld(p, m, s).(at := p.at - {u});
    ExitLocated(p, u);
    ExitSound(w, u);
    PutSound(p, m, s);
    if Room(q) {
      RoomBefore(p, q);
      RoomFor(p, m);
      ExitCalm(w, u, p.configs[m]);
      PutPeace(p, m, s);
    }
  }

  lemma RemovedPlayers(s: State, u: string)
    requires u in s.players
    ensures RemovePlayer(s, u).players == s.players - {u}
  {
  }

  lemma LogoutGood(p: Plain, u: string)
    requires Good(p)
    ensures Good(LogoutP(p, u))
  {
    hide RemovePlayer, SoundProfile, AllRobust, Calm, Room;
    if u in p.at {
      assert On(p, u);
      ExitGood(p, u);
      ResidentSound(p, u, p.at[u]);
      KeepGood(PutWorld(p, p.at[u], RemovePlayer(p.worlds[p.at[u]], u)).(at := p.at - {u}), Resident(p.worlds[p.at[u]], u, p.at[u]));
    }
  }

  lemma LoginGood(p: Plain, u: string, pw: string, order: seq<string>, now: int)
    requires Good(p)
    ensures Good(LoginP(p, u, pw, order, now))
  {
    hide EnterP, LookP, PersistP, AllRobust, Calm, Room;
    if AuthenticP(p, u, pw) && u !in p.at {
      EnterGood(p, u, HomeMap(p, u), p.users[u]);
      FarewellGood(EnterP(p, u, HomeMap(p, u), p.users[u]), u, order, now);
    }
  }

  lemma SwitchGood(p: Plain, u: string, target: string, order: seq<string>, now: int)
    requires Good(p)
    ensures Good(SwitchP(p, u, target, order, now))
  {
    hide Good, EnterP, LookP, PersistP, Keep, Refresh, RemovePlayer, Held;
    if u in p.at && target in p.configs {
      if p.at[u] == target {
        LookGood(p, u, order, now);
      } else if target in p.worlds && On(p, u) {
        var m := p.at[u];
        var s := Refresh(p.worlds[m], u, now);
        RefreshHeld(p.worlds[m], u, now);
        PutGood(p, m, s);
        var p0 := PutWorld(p, m, s);
        if !s.players[u].alive {
          LookGood(p0, u, order, now);
        } else {
          ResidentSound(p0, u, m);
          ExitGood(p0, u);
          var out := PutWorld(p0, m, RemovePlayer(s, u)).(at := p0.at - {u});
          var profile := ProfileOf(s, u).(lastMap := target, at := p.configs[target].spawn);
          EnterGood(out, u, target, profile);
          var p1 := PutWorld(p, m, RemovePlayer(s, u));
          SeatOnce(p, u, m, target, s, profile);
          assert EnterP(p1, u, target, profile) == EnterP(out, u, target, profile);
          KeepGood(EnterP(out, u, target, profile), profile);
          FarewellGood(Keep(EnterP(p1, u, target, profile), profile), u, order, now);
        }
      }
    }
  }

  /** Entering another map gives the player a new seat; leaving the old one first changes nothing more. */
  lemma SeatOnce(p: Plain, u: string, m: string, target: string, s: State, profile: Profile)
    requires m in p.worlds && target in p.worlds && m != target
    ensures var p1 := PutWorld(p, m, RemovePlayer(s, u));
      EnterP(p1, u, target, profile)
      == EnterP(PutWorld(PutWorld(p, m, s), m, RemovePlayer(s, u)).(at := p.at - {u}), u, target, profile)
  {
    hide AddPlayer, RemovePlayer;
    assert (p.at - {u})[u := target] == p.at[u := target];
    assert p.worlds[m := s][m := RemovePlayer(s, u)] == p.worlds[m := RemovePlayer(s, u)];
  }

  lemma RegisterGood(p: Plain, u: string, pw: string)
    requires Good(p)
    ensures Good(RegisterP(p, u, pw))
  {
    hide Located, Peace, SoundWorlds, Room;
    UsersGood(p, RegisterP(p, u, pw));
  }

  lemma RenewGood(p: Plain, shown: set<string>, renewed: set<string>, orders: string -> seq<string>, now: int, drawn: string -> nat)
    requires Good(p)
    ensures Good(RenewP(p, shown, renewed, orders, now, drawn))
  {
    hide Located, SoundWorlds, Room, Peace, Similar, RenewP;
    var q := RenewP(p, shown, renewed, orders, now, drawn);
    RenewSimilar(p, shown, renewed, orders, now, drawn);
    SimilarLocated(p, q);
    SimilarSound(p, q);
    if Room(q) {
      RoomBefore(p, q);
      SimilarPeace(p, q);
    }
  }

  lemma RenewSimilar(p: Plain, shown: set<string>, renewed: set<string>, orders: string -> seq<string>, now: int, drawn: string -> nat)
    ensures var q := RenewP(p, shown, renewed, orders, now, drawn);
      && q == p.(worlds := q.worlds) && q.worlds.Keys == p.worlds.Keys
      && forall m | m in p.worlds :: Similar(p.worlds[m], q.worlds[m])
  {
    hide RefreshAll, Normalise, Similar;
    var q := RenewP(p, shown, renewed, orders, now, drawn);
    forall m | m in p.worlds ensures Similar(p.worlds[m], q.worlds[m]) {
      RenewedSimilar(p.worlds[m], orders(m), now, drawn(m));
      SimilarSelf(p.worlds[m]);
    }
  }

  lemma SimilarLocated(p: Plain, q: Plain)
    requires Located(p) && q == p.(worlds := q.worlds) && q.worlds.Keys == p.worlds.Keys
    requires forall m | m in p.worlds :: Similar(p.worlds[m], q.worlds[m])
    ensures Located(q)
  {
    hide Kept, Separated, OpenCells, Steady, Located;
    forall m | m in q.worlds ensures q.worlds[m].players.Keys == p.worlds[m].players.Keys {
      assert Similar(p.worlds[m], q.worlds[m]);
      SteadyNames(p.worlds[m], q.worlds[m]);
    }
    SameNamesLocated(p, q);
  }

  lemma SameNamesLocated(p: Plain, q: Plain)
    requires Located(p) && q == p.(worlds := q.worlds) && q.worlds.Keys == p.worlds.Keys
    requires forall m | m in p.worlds :: q.worlds[m].players.Keys == p.worlds[m].players.Keys
    ensures Located(q)
  {
    forall m, u | m in q.worlds ensures u in q.worlds[m].players <==> u in q.at && q.at[u] == m {
      assert u in q.worlds[m].players <==> u in p.worlds[m].players;
    }
  }

  lemma SimilarSound(p: Plain, q: Plain)
    requires SoundWorlds(p) && q == p.(worlds := q.worlds) && q.worlds.Keys == p.worlds.Keys
    requires forall m | m in p.worlds :: Similar(p.worlds[m], q.worlds[m])
    ensures SoundWorlds(q)
  {
    hide AllRobust, Kept, Separated, OpenCells, Steady;
    forall m | m in q.worlds ensures m in q.configs && AllRobust(q.worlds[m]) && q.worlds[m].cfg == q.configs[m] {
      assert Similar(p.worlds[m], q.worlds[m]);
      HeldRobust(p.worlds[m], q.worlds[m]);
    }
  }

  lemma SimilarPeace(p: Plain, q: Plain)
    requires Located(p) && Peace(p) && Room(p) && q == p.(worlds := q.worlds) && q.worlds.Keys == p.worlds.Keys
    requires forall m | m in p.worlds :: Similar(p.worlds[m], q.worlds[m])
    ensures Peace(q)
  {
    hide Calm, Similar, Located, Room;
    forall m | m in q.worlds && m in q.configs ensures Calm(q.worlds[m], q.configs[m]) {
      RoomFor(p, m);
      SimilarCalm(p.worlds[m], q.worlds[m], p.configs[m], |p.users|);
    }
  }

  ghost predicate Similar(w: State, s: State) {
    && Steady(w, s, w.players.Keys)
    && (Separated(w) && |w.npcs| <= MIN_NPCS && |OpenCells(w.terrain)| > |w.players| + MIN_NPCS ==> Kept(w, s, {}))
  }

  lemma SimilarSelf(w: State)
    ensures Similar(w, w)
  {
    hide Separated, OpenCells;
  }

  lemma RenewedSimilar(w: State, order: seq<string>, now: int, drawn: nat)
    ensures Similar(w, RefreshAll(w, order, now)) && Similar(w, Normalise(RefreshAll(w, order, now), drawn))
  {
    hide RefreshAll, Normalise, Separated, OpenCells, Steady, Kept;
    var r := RefreshAll(w, order, now);
    RefreshAllHeld(w, order, now);
    NormaliseHeld(r, drawn);
    RefreshAllSteady(w, order, now);
    SteadyNames(w, r);
    SteadyChain(w, r, Normalise(r, drawn));
    if |w.npcs| <= MIN_NPCS && |OpenCells(w.terrain)| > |w.players| + MIN_NPCS {
      HeldChain(w, r, Normalise(r, drawn));
    }
  }

  lemma SteadyNames(w: State, s: State)
    requires Steady(w, s, w.players.Keys)
    ensures s.players.Keys == w.players.Keys
  {
  }

  lemma SimilarCalm(w: State, s: State, cfg: Config, users: nat)
    requires Similar(w, s) && Calm(w, cfg) && |w.players| <= users && |OpenCells(cfg.layout)| > users + MIN_NPCS
    ensures Calm(s, cfg)
  {
    hide Separated, OpenCells, Steady;
  }

  // ----- Every step -----

  lemma StepGood(p: Plain, e: Seen)
    requires Good(p)
    ensures Good(StepP(p, e))
  {
    hide Good, LoginP, LogoutP, ActP, SwitchP, StrikeP, LookP, PersistP, RegisterP, LiveP, ShowP, RenewP;
    match e
    case SeenRegister(u, pw) => RegisterGood(p, u, pw);
    case SeenLogin(u, pw, order, now) => LoginGood(p, u, pw, order, now);
    case SeenLogout(u) => LogoutGood(p, u);
    case SeenAct(u, cmd, order, now) => ActGood(p, u, cmd, order, now);
    case SeenSwitch(u, target, order, now) => SwitchGood(p, u, target, order, now);
    case SeenStrike(u, payees, order, now) => StrikeGood(p, u, payees, order, now);
    case SeenLook(u, order, now) => LookGood(p, u, order, now);
    case SeenFlush(u, now) => PersistGood(p, u, now);
    case SeenBoss => BossGood(p, Boss.NewBoss());
    case SeenLive(m, order, now) => LiveGood(p, m, order, now);
    case SeenShow(m, order, now) => ShowGood(p, m, order, now);
    case SeenRenew(shown, renewed, orders, now, drawn) => RenewGood(p, shown, renewed, orders, now, drawn);
    case SeenNothing =>
  }

  /** In every run of the model the invariant is kept. */
  lemma {:induction false} RunGood(p: Plain, es: seq<Seen>)
    requires Good(p)
    ensures Good(RunP(p, es))
    decreases |es|
  {
    hide Good, StepP;
    if es != [] {
      StepGood(p, es[0]);
      RunGood(StepP(p, es[0]), es[1..]);
    }
  }
}
