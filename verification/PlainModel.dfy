/** What the players of the cluster see: one world per map, the map each player is on, the saved
    profiles and the boss. There are no nodes here, no owners, no replicas and no checkpoints. */
module PlainModel {
  import opened Basics
  import opened WorldModel
  import opened WorldCheckpoint
  import Boss = BossModel
  import opened ClusterModel

  datatype Plain = Plain(worlds: map<string, State>, at: map<string, string>, users: map<string, Profile>,
                         boss: Boss.Boss, configs: map<string, Config>, hash: string -> string)

  ghost function PutWorld(p: Plain, m: string, s: State): Plain {
    p.(worlds := p.worlds[m := s])
  }

  ghost function Keep(p: Plain, profile: Profile): Plain {
    var bare := profile.(lastNode := "");
    var kept := if profile.username in p.users && profile.passwordHash == ""
                then bare.(passwordHash := p.users[profile.username].passwordHash) else bare;
    p.(users := p.users[profile.username := kept])
  }

  ghost predicate On(p: Plain, u: string) {
    u in p.at && p.at[u] in p.worlds && u in p.worlds[p.at[u]].players
  }

  ghost function Resident(s: State, u: string, m: string): Profile
    requires u in s.players
  {
    ProfileOf(s, u).(lastMap := m)
  }

  ghost function PersistP(p: Plain, u: string, now: int): Plain {
    if !On(p, u) then p
    else
      var m := p.at[u];
      var s := Refresh(p.worlds[m], u, now);
      Keep(PutWorld(p, m, s), Resident(s, u, m))
  }

  ghost function LookP(p: Plain, u: string, order: seq<string>, now: int): Plain {
    if u !in p.at || p.at[u] !in p.worlds then p
    else PutWorld(p, p.at[u], RefreshAll(p.worlds[p.at[u]], order, now))
  }

  ghost predicate AuthenticP(p: Plain, u: string, pw: string) {
    u != "" && pw != "" && u in p.users && p.users[u].passwordHash == p.hash(pw)
  }

  ghost function HomeMap(p: Plain, u: string): string
    requires u in p.users
  {
    if p.users[u].lastMap in p.configs then p.users[u].lastMap else DEFAULT_MAP
  }

  ghost function RegisterP(p: Plain, u: string, pw: string): Plain {
    if u == "" || pw == "" || u in p.users then p
    else p.(users := p.users[u := NewProfile(u, p.hash(pw))])
  }

  ghost function EnterP(p: Plain, u: string, m: string, profile: Profile): Plain
    requires m in p.worlds
  {
    PutWorld(p, m, AddPlayer(p.worlds[m], profile)).(at := p.at[u := m])
  }

  ghost function LoginP(p: Plain, u: string, pw: string, order: seq<string>, now: int): Plain {
    if !AuthenticP(p, u, pw) || u in p.at || HomeMap(p, u) !in p.worlds then p
    else
      var m := HomeMap(p, u);
      LookP(PersistP(EnterP(p, u, m, p.users[u]), u, now), u, order, now)
  }

  ghost function LogoutP(p: Plain, u: string): Plain {
    if u !in p.at then p
    else
      var m := p.at[u];
      var p1 := p.(at := p.at - {u});
      if !On(p, u) then p1
      else Keep(PutWorld(p1, m, RemovePlayer(p.worlds[m], u)), Resident(p.worlds[m], u, m))
  }

  ghost function SwitchP(p: Plain, u: string, target: string, order: seq<string>, now: int): Plain {
    if u !in p.at || target !in p.configs then p
    else if p.at[u] == target then LookP(p, u, order, now)
    else if target !in p.worlds || !On(p, u) then p
    else
      var m := p.at[u];
      var s := Refresh(p.worlds[m], u, now);
      if !s.players[u].alive then LookP(PutWorld(p, m, s), u, order, now)
      else
        var p1 := PutWorld(p, m, RemovePlayer(s, u));
        var profile := ProfileOf(s, u).(lastMap := target, at := p.configs[target].spawn);
        LookP(PersistP(Keep(EnterP(p1, u, target, profile), profile), u, now), u, order, now)
  }

  ghost function KeepVictim(p: Plain, m: string, victim: Option<string>, now: int): Plain {
    if victim.None? || m !in p.worlds || victim.value !in p.worlds[m].players then p
    else
      var s := Refresh(p.worlds[m], victim.value, now);
      PersistP(Keep(PutWorld(p, m, s), Resident(s, victim.value, m)), victim.value, now)
  }

  ghost function ActP(p: Plain, u: string, cmd: Command, order: seq<string>, now: int): Plain {
    if !On(p, u) then p
    else
      var m := p.at[u];
      var before := p.worlds[m];
      var after := Obey(before, u, cmd, now);
      var victim := if cmd.AttackCmd? then AttackVictim(before, u, now) else None;
      var p1 := KeepVictim(PutWorld(p, m, after), m, victim, now);
      if u !in after.players then p1
      else LookP(PersistP(Keep(p1, Resident(after, u, m)), u, now), u, order, now)
  }

  ghost function PayOneP(p: Plain, u: string, r: Boss.Reward): Plain {
    if !On(p, u) then p
    else
      var m := p.at[u];
      var s := WorldModel.Reward(p.worlds[m], u, r.treasure, r.victories);
      if u !in s.players then p else Keep(PutWorld(p, m, s), Resident(s, u, m))
  }

  ghost function PayAllP(p: Plain, payees: seq<string>, rewards: map<string, Boss.Reward>): Plain
    decreases |payees|
  {
    if payees == [] then p
    else if payees[0] !in rewards then PayAllP(p, payees[1..], rewards)
    else PayAllP(PayOneP(p, payees[0], rewards[payees[0]]), payees[1..], rewards)
  }

  ghost function StrikeP(p: Plain, u: string, payees: seq<string>, order: seq<string>, now: int): Plain {
    if !On(p, u) then p
    else
      var m := p.at[u];
      var s := Refresh(p.worlds[m], u, now);
      var p1 := PutWorld(p, m, s);
      var q := s.players[u];
      if m !in p.configs then p1
      else if Distance(q.at, p.configs[m].boss) > BOSS_RANGE || !p.boss.alive then LookP(p1, u, order, now)
      else
        var damage := Boss.Damage(q.attack, q.treasures);
        var p2 := p1.(boss := Boss.Struck(p1.boss, u, damage, now));
        LookP(PersistP(PayAllP(p2, payees, Boss.Rewards(p1.boss, u, damage, p1.at.Keys)), u, now), u, order, now)
  }

  ghost function ShowP(p: Plain, m: string, order: seq<string>, now: int): Plain {
    if m !in p.worlds then p else PutWorld(p, m, RefreshAll(p.worlds[m], order, now))
  }

  ghost function LiveP(p: Plain, m: string, order: seq<string>, now: int): Plain {
    if m !in p.worlds then p else PutWorld(p, m, Background(p.worlds[m], order, now))
  }

  /** Worlds are shown, and some of them taken down and put up again from what was shown. */
  ghost function RenewP(p: Plain, shown: set<string>, renewed: set<string>, orders: string -> seq<string>, now: int,
                        drawn: string -> nat): Plain {
    p.(worlds := map m | m in p.worlds ::
      if m !in shown then p.worlds[m]
      else if m !in renewed then RefreshAll(p.worlds[m], orders(m), now)
      else Normalise(RefreshAll(p.worlds[m], orders(m), now), drawn(m)))
  }

  datatype Seen =
    | SeenRegister(u: string, pw: string)
    | SeenLogin(u: string, pw: string, order: seq<string>, now: int)
    | SeenLogout(u: string)
    | SeenAct(u: string, cmd: Command, order: seq<string>, now: int)
    | SeenSwitch(u: string, target: string, order: seq<string>, now: int)
    | SeenStrike(u: string, payees: seq<string>, order: seq<string>, now: int)
    | SeenLook(u: string, order: seq<string>, now: int)
    | SeenFlush(u: string, now: int)
    | SeenBoss
    | SeenLive(m: string, order: seq<string>, now: int)
    | SeenShow(m: string, order: seq<string>, now: int)
    | SeenRenew(shown: set<string>, renewed: set<string>, orders: string -> seq<string>, now: int, drawn: string -> nat)
    | SeenNothing

  ghost function StepP(p: Plain, e: Seen): Plain {
    match e
    case SeenRegister(u, pw) => RegisterP(p, u, pw)
    case SeenLogin(u, pw, order, now) => LoginP(p, u, pw, order, now)
    case SeenLogout(u) => LogoutP(p, u)
    case SeenAct(u, cmd, order, now) => ActP(p, u, cmd, order, now)
    case SeenSwitch(u, target, order, now) => SwitchP(p, u, target, order, now)
    case SeenStrike(u, payees, order, now) => StrikeP(p, u, payees, order, now)
    case SeenLook(u, order, now) => LookP(p, u, order, now)
    case SeenFlush(u, now) => PersistP(p, u, now)
    case SeenBoss => p.(boss := Boss.NewBoss())
    case SeenLive(m, order, now) => LiveP(p, m, order, now)
    case SeenShow(m, order, now) => ShowP(p, m, order, now)
    case SeenRenew(shown, renewed, orders, now, drawn) => RenewP(p, shown, renewed, orders, now, drawn)
    case SeenNothing => p
  }

  ghost function RunP(p: Plain, es: seq<Seen>): Plain
    decreases |es|
  {
    if es == [] then p else RunP(StepP(p, es[0]), es[1..])
  }
}
