/** The treasure of all maps and of all saved profiles taken together: what of it every step of the system
    makes or destroys, and that coming, going, changing map, checkpoints and failovers do neither. */
module PlainLedger {
  import opened Basics
  import opened WorldModel
  import opened WorldPlacement
  import opened WorldLedger
  import opened WorldCheckpoint
  import opened WorldLife
  import opened ClusterModel
  import opened PlainModel
  import opened PlainProperties
  import opened PlainDown
  import Boss = BossModel

  ghost function Hosted(p: Plain): map<string, int> {
    map m | m in p.worlds :: Wealth(p.worlds[m])
  }

  /** What users who are not in any world have on file. */
  ghost function OnFile(p: Plain): map<string, int> {
    map u | u in p.users && u !in p.at :: p.users[u].treasures
  }

  ghost function Fortune(p: Plain): int {
    Total(Hosted(p)) + Total(OnFile(p))
  }

  // ----- What a step makes of it -----

  function OpOf(u: string, cmd: Command, now: int): Op {
    match cmd
    case MoveCmd(dir) => OpMove(u, dir, now)
    case HealCmd => OpHeal(u, now)
    case BuyCmd(item) => OpBuy(u, item, now)
    case AttackCmd => OpAttack(u, now)
  }

  ghost function PaidOut(p: Plain, payees: seq<string>, rewards: map<string, Boss.Reward>): int
    decreases |payees|
  {
    if payees == [] then 0
    else if payees[0] !in rewards then PaidOut(p, payees[1..], rewards)
    else (if On(p, payees[0]) then rewards[payees[0]].treasure else 0)
         + PaidOut(PayOneP(p, payees[0], rewards[payees[0]]), payees[1..], rewards)
  }

  /** The boss's treasure that a strike pays out. */
  ghost function Bounty(p: Plain, u: string, payees: seq<string>, now: int): int {
    if !On(p, u) || p.at[u] !in p.configs then 0
    else
      var m := p.at[u];
      var s := Refresh(p.worlds[m], u, now);
      var q := s.players[u];
      if Distance(q.at, p.configs[m].boss) > BOSS_RANGE || !p.boss.alive then 0
      else
        var damage := Boss.Damage(q.attack, q.treasures);
        var p2 := PutWorld(p, m, s).(boss := Boss.Struck(p.boss, u, damage, now));
        PaidOut(p2, payees, Boss.Rewards(p.boss, u, damage, p.at.Keys))
  }

  /** Commands, boss strikes and background steps make and destroy treasure; nothing else does. */
  ghost function Gain(p: Plain, e: Seen): int {
    match e
    case SeenAct(u, cmd, _, now) => if On(p, u) then Net(FlowOf(p.worlds[p.at[u]], OpOf(u, cmd, now))) else 0
    case SeenStrike(u, payees, _, now) => Bounty(p, u, payees, now)
    case SeenLive(m, order, now) => if m in p.worlds then Net(FlowOf(p.worlds[m], OpBackground(order, now))) else 0
    case _ => 0
  }

  // ----- Single changes -----

  lemma PutFortune(p: Plain, m: string, s: State)
    requires m in p.worlds
    ensures Fortune(PutWorld(p, m, s)) == Fortune(p) - Wealth(p.worlds[m]) + Wealth(s)
  {
    hide Wealth;
    var q := PutWorld(p, m, s);
    assert Hosted(q) == Hosted(p)[m := Wealth(s)];
    assert OnFile(q) == OnFile(p);
    TotalUpdate(Hosted(p), m, Wealth(s));
  }

  lemma PutSame(p: Plain, m: string, s: State)
    requires m in p.worlds && Wealth(s) == Wealth(p.worlds[m])
    ensures Fortune(PutWorld(p, m, s)) == Fortune(p)
  {
    PutFortune(p, m, s);
  }

  lemma KeepFortune(p: Plain, profile: Profile)
    requires profile.username in p.at
    ensures Fortune(Keep(p, profile)) == Fortune(p) && Keep(p, profile).at == p.at
  {
    hide Wealth;
    var q := Keep(p, profile);
    assert Hosted(q) == Hosted(p);
    assert OnFile(q) == OnFile(p);
  }

  lemma PersistFortune(p: Plain, u: string, now: int)
    ensures Fortune(PersistP(p, u, now)) == Fortune(p) && PersistP(p, u, now).at == p.at
  {
    hide Refresh, Keep, Fortune, Wealth;
    if On(p, u) {
      var m := p.at[u];
      var s := Refresh(p.worlds[m], u, now);
      RefreshBalance(p.worlds[m], u, now);
      PutSame(p, m, s);
      KeepFortune(PutWorld(p, m, s), Resident(s, u, m));
    }
  }

  lemma LookFortune(p: Plain, u: string, order: seq<string>, now: int)
    ensures Fortune(LookP(p, u, order, now)) == Fortune(p)
  {
    hide RefreshAll, Fortune, Wealth;
    if u in p.at && p.at[u] in p.worlds {
      RefreshAllBalance(p.worlds[p.at[u]], order, now);
      PutSame(p, p.at[u], RefreshAll(p.worlds[p.at[u]], order, now));
    }
  }

  lemma FarewellFortune(p: Plain, u: string, order: seq<string>, now: int)
    ensures Fortune(LookP(PersistP(p, u, now), u, order, now)) == Fortune(p)
  {
    hide Fortune, LookP, PersistP;
    PersistFortune(p, u, now);
    LookFortune(PersistP(p, u, now), u, order, now);
  }

  // ----- Commands -----

  lemma VictimFortune(p: Plain, m: string, victim: Option<string>, now: int)
    requires Located(p)
    ensures Fortune(KeepVictim(p, m, victim, now)) == Fortune(p)
  {
    hide Refresh, PersistP, Keep, Fortune, Wealth;
    if victim.Some? && m in p.worlds && victim.value in p.worlds[m].players {
      var v := victim.value;
      var s := Refresh(p.worlds[m], v, now);
      RefreshBalance(p.worlds[m], v, now);
      PutSame(p, m, s);
      KeepFortune(PutWorld(p, m, s), Resident(s, v, m));
      PersistFortune(Keep(PutWorld(p, m, s), Resident(s, v, m)), v, now);
    }
  }

  lemma ObeyIsOp(s: State, u: string, cmd: Command, now: int)
    ensures Obey(s, u, cmd, now) == Apply(s, OpOf(u, cmd, now))
    ensures Wealth(Obey(s, u, cmd, now)) == Wealth(s) + Net(FlowOf(s, OpOf(u, cmd, now)))
  {
    hide WorldModel.Move, Heal, Buy, Attack, Wealth, FlowOf, Net, Ledgered;
    ApplyBalance(s, OpOf(u, cmd, now));
  }

  lemma ActFortune(p: Plain, u: string, cmd: Command, order: seq<string>, now: int)
    requires Located(p)
    ensures Fortune(ActP(p, u, cmd, order, now)) == Fortune(p) + Gain(p, SeenAct(u, cmd, order, now))
  {
    hide Obey, AttackVictim, KeepVictim, LookP, PersistP, Keep, Fortune, Wealth, FlowOf, Net, Located;
    if On(p, u) {
      var m := p.at[u];
      var before := p.worlds[m];
      var after := Obey(before, u, cmd, now);
      ObeyIsOp(before, u, cmd, now);
      PutFortune(p, m, after);
      var p0 := PutWorld(p, m, after);
      ObeySteadily(before, u, cmd, now);
      SteadyNames(before, after);
      PutLocated(p, m, after);
      var victim := if cmd.AttackCmd? then AttackVictim(before, u, now) else None;
      VictimFortune(p0, m, victim, now);
      var p1 := KeepVictim(p0, m, victim, now);
      VictimSeats(p0, m, victim, now);
      KeepFortune(p1, Resident(after, u, m));
      FarewellFortune(Keep(p1, Resident(after, u, m)), u, order, now);
    }
  }

  lemma PayOneFortune(p: Plain, u: string, r: Boss.Reward)
    ensures Fortune(PayOneP(p, u, r)) == Fortune(p) + if On(p, u) then r.treasure else 0
  {
    hide WorldModel.Reward, Keep, Fortune, Wealth, Ledgered;
    if On(p, u) {
      var m := p.at[u];
      var s := WorldModel.Reward(p.worlds[m], u, r.treasure, r.victories);
      RewardBalance(p.worlds[m], u, r.treasure, r.victories);
      RewardSteady(p.worlds[m], u, r.treasure, r.victories);
      PutFortune(p, m, s);
      KeepFortune(PutWorld(p, m, s), Resident(s, u, m));
    }
  }

  lemma {:induction false} PayAllFortune(p: Plain, payees: seq<string>, rewards: map<string, Boss.Reward>)
    ensures Fortune(PayAllP(p, payees, rewards)) == Fortune(p) + PaidOut(p, payees, rewards)
    decreases |payees|
  {
    hide Fortune, PayOneP, On;
    if payees != [] {
      if payees[0] !in rewards {
        PayAllFortune(p, payees[1..], rewards);
      } else {
        PayOneFortune(p, payees[0], rewards[payees[0]]);
        PayAllFortune(PayOneP(p, payees[0], rewards[payees[0]]), payees[1..], rewards);
      }
    }
  }

  lemma BossFortune(p: Plain, boss: Boss.Boss)
    ensures Fortune(p.(boss := boss)) == Fortune(p)
  {
    assert Hosted(p.(boss := boss)) == Hosted(p);
    assert OnFile(p.(boss := boss)) == OnFile(p);
  }

  lemma StrikeFortune(p: Plain, u: string, payees: seq<string>, order: seq<string>, now: int)
    ensures Fortune(StrikeP(p, u, payees, order, now)) == Fortune(p) + Bounty(p, u, payees, now)
  {
    hide Refresh, LookP, PersistP, PayAllP, Boss.Struck, Boss.Rewards, Boss.Damage, Fortune, Wealth, PaidOut;
    if On(p, u) {
      var m := p.at[u];
      var s := Refresh(p.worlds[m], u, now);
      RefreshBalance(p.worlds[m], u, now);
      PutSame(p, m, s);
      var p1 := PutWorld(p, m, s);
      var q := s.players[u];
      if m in p.configs {
        if Distance(q.at, p.configs[m].boss) > BOSS_RANGE || !p.boss.alive {
          LookFortune(p1, u, order, now);
        } else {
          var damage := Boss.Damage(q.attack, q.treasures);
          var p2 := p1.(boss := Boss.Struck(p1.boss, u, damage, now));
          BossFortune(p1, p2.boss);
          var rewards := Boss.Rewards(p1.boss, u, damage, p1.at.Keys);
          PayAllFortune(p2, payees, rewards);
          FarewellFortune(PayAllP(p2, payees, rewards), u, order, now);
        }
      }
    }
  }

  // ----- The bounty in closed form -----

  ghost predicate AllOn(p: Plain) {
    forall v | v in p.at :: On(p, v)
  }

  /** The listed payees who have a reward. */
  ghost function Rewarded(payees: seq<string>, rewards: map<string, Boss.Reward>): set<string> {
    set v | v in payees && v in rewards
  }

  lemma PayOneAllOn(p: Plain, v: string, r: Boss.Reward)
    requires AllOn(p)
    ensures AllOn(PayOneP(p, v, r)) && PayOneP(p, v, r).at == p.at
  {
    hide WorldModel.Reward;
    if On(p, v) {
      RewardSteady(p.worlds[p.at[v]], v, r.treasure, r.victories);
    }
  }

  lemma {:induction false} PaidOutIs(p: Plain, payees: seq<string>, contributors: map<string, int>, u: string)
    requires AllOn(p) && Distinct(payees)
    ensures var rewards := Boss.Shares(contributors, u, p.at.Keys);
      var paid := Rewarded(payees, rewards);
      PaidOut(p, payees, rewards) == Boss.SHARE * |paid| + if u in paid then Boss.FINISHER_SHARE - Boss.SHARE else 0
    decreases |payees|
  {
    var rewards := Boss.Shares(contributors, u, p.at.Keys);
    if payees == [] {
      assert Rewarded(payees, rewards) == {};
    } else {
      var v, rest := payees[0], payees[1..];
      SharesPay(contributors, u, p.at.Keys, v);
      hide PayOneP, Boss.Shares, Boss.Share;
      RewardedNext(payees, rewards);
      DistinctRest(payees);
      if v in rewards {
        assert On(p, v);
        hide On, AllOn;
        PayOneAllOn(p, v, rewards[v]);
        PaidOutIs(PayOneP(p, v, rewards[v]), rest, contributors, u);
      } else {
        PaidOutIs(p, rest, contributors, u);
      }
    }
  }

  lemma SharesPay(contributors: map<string, int>, u: string, online: set<string>, v: string)
    ensures v in Boss.Shares(contributors, u, online) ==>
      v in online && Boss.Shares(contributors, u, online)[v].treasure == if v == u then Boss.FINISHER_SHARE else Boss.SHARE
  {
  }

  lemma DistinctRest(payees: seq<string>)
    requires Distinct(payees) && payees != []
    ensures Distinct(payees[1..])
  {
    forall i, j | 0 <= i < j < |payees[1..]| ensures payees[1..][i] != payees[1..][j] {
      assert payees[1..][i] == payees[i + 1] && payees[1..][j] == payees[j + 1];
    }
  }

  lemma RewardedNext(payees: seq<string>, rewards: map<string, Boss.Reward>)
    requires Distinct(payees) && payees != []
    ensures var v, rest := payees[0], payees[1..];
      v !in Rewarded(rest, rewards) && Rewarded(payees, rewards) == Rewarded(rest, rewards) + if v in rewards then {v} else {}
  {
    var v, rest := payees[0], payees[1..];
    assert payees == [v] + rest;
    forall i | 0 <= i < |rest| ensures rest[i] != v {
      assert rest[i] == payees[i + 1];
    }
  }

  lemma SeatedAreOn(p: Plain)
    requires Located(p)
    ensures AllOn(p)
  {
  }

  lemma ShownAllOn(p: Plain, m: string, s: State, q: Plain)
    requires AllOn(p) && m in p.worlds && s.players.Keys == p.worlds[m].players.Keys
    requires q == PutWorld(p, m, s).(boss := q.boss)
    ensures AllOn(q)
  {
  }

  /** What a strike within range of a living boss pays, if the contributors are listed once each: nothing
      unless it is fatal, and then three treasures per contributor online and three more for the finisher. */
  lemma BountyIs(p: Plain, u: string, payees: seq<string>, now: int)
    requires Located(p) && On(p, u) && p.boss.alive && Distinct(payees)
    requires var q := Refresh(p.worlds[p.at[u]], u, now).players[u];
      p.at[u] in p.configs && Distance(q.at, p.configs[p.at[u]].boss) <= BOSS_RANGE
    requires (forall v | v in p.boss.contributors :: v in payees) && u in payees
    ensures var q := Refresh(p.worlds[p.at[u]], u, now).players[u];
      var damage := Boss.Damage(q.attack, q.treasures);
      Bounty(p, u, payees, now) ==
        if p.boss.hp - damage > 0 then 0
        else Boss.SHARE * |(p.boss.contributors.Keys + {u}) * p.at.Keys| + Boss.FINISHER_SHARE - Boss.SHARE
  {
    hide Refresh, Located, Boss.Damage, PaidOut, Boss.Struck, Boss.Rewards;
    var m := p.at[u];
    var s := Refresh(p.worlds[m], u, now);
    var q := s.players[u];
    var damage := Boss.Damage(q.attack, q.treasures);
    var p2 := PutWorld(p, m, s).(boss := Boss.Struck(p.boss, u, damage, now));
    SeatedAreOn(p);
    ShownAllOn(p, m, s, p2);
    hide On, AllOn;
    PayoutIs(p2, payees, p.boss, u, damage);
  }

  lemma PayoutIs(p: Plain, payees: seq<string>, b: Boss.Boss, u: string, damage: int)
    requires AllOn(p) && b.alive && Distinct(payees) && (forall v | v in b.contributors :: v in payees) && u in payees
    ensures PaidOut(p, payees, Boss.Rewards(b, u, damage, p.at.Keys)) ==
      if b.hp - damage > 0 then 0
      else Boss.SHARE * |(b.contributors.Keys + {u}) * p.at.Keys| + if u in p.at then Boss.FINISHER_SHARE - Boss.SHARE else 0
  {
    hide AllOn, PaidOut, Rewarded, Boss.Shares, Boss.Credit;
    if b.hp - damage > 0 {
      NothingPaid(p, payees);
    } else {
      PaidOutIs(p, payees, Boss.Credit(b, u, damage), u);
      RewardedIs(payees, b, u, damage, p.at.Keys);
    }
  }

  lemma RewardedIs(payees: seq<string>, b: Boss.Boss, u: string, damage: int, online: set<string>)
    requires (forall v | v in b.contributors :: v in payees) && u in payees
    ensures Rewarded(payees, Boss.Shares(Boss.Credit(b, u, damage), u, online)) == (b.contributors.Keys + {u}) * online
  {
  }

  lemma {:induction false} NothingPaid(p: Plain, payees: seq<string>)
    ensures PaidOut(p, payees, map[]) == 0
    decreases |payees|
  {
    if payees != [] {
      NothingPaid(p, payees[1..]);
    }
  }

  // ----- Comings and goings -----

  lemma RegisterFortune(p: Plain, u: string, pw: string)
    requires Located(p)
    ensures Fortune(RegisterP(p, u, pw)) == Fortune(p)
  {
    hide Wealth;
    var q := RegisterP(p, u, pw);
    if q != p {
      assert Hosted(q) == Hosted(p);
      NewcomerOnFile(p, u, p.hash(pw));
      hide OnFile, Hosted;
      TotalUpdate(OnFile(p), u, 0);
    }
  }

  lemma NewcomerOnFile(p: Plain, u: string, hash: string)
    requires Located(p) && u !in p.users
    ensures OnFile(p.(users := p.users[u := NewProfile(u, hash)])) == OnFile(p)[u := 0] && u !in OnFile(p)
  {
  }

  lemma AddWealth(s: State, profile: Profile)
    requires profile.username !in s.players
    ensures Wealth(AddPlayer(s, profile)) == Wealth(s) + profile.treasures
  {
    hide AddPlayer, Wealth, Ledgered;
    AddBalance(s, profile);
  }

  lemma RemoveWealth(s: State, u: string)
    requires u in s.players
    ensures Wealth(RemovePlayer(s, u)) == Wealth(s) - s.players[u].treasures
  {
    hide RemovePlayer, Wealth, Ledgered;
    RemoveBalance(s, u);
  }

  lemma SeatFortune(p: Plain, at: map<string, string>)
    requires at.Keys == p.at.Keys
    ensures Fortune(p.(at := at)) == Fortune(p)
  {
    var q := p.(at := at);
    assert Hosted(q) == Hosted(p);
    assert forall u | u in p.users :: u in q.at.Keys <==> u in p.at.Keys;
    assert OnFile(q) == OnFile(p);
  }

  /** Taking a seat takes what the user has on file out of the sum. */
  lemma SitDown(p: Plain, u: string, m: string)
    requires u in p.users && u !in p.at
    ensures Fortune(p.(at := p.at[u := m])) == Fortune(p) - p.users[u].treasures
  {
    hide Wealth;
    var q := p.(at := p.at[u := m]);
    assert Hosted(q) == Hosted(p);
    assert OnFile(q) == OnFile(p) - {u};
    TotalRemove(OnFile(p), u);
  }

  lemma StandUp(p: Plain, u: string, profile: Profile)
    requires u in p.at && profile.username == u
    ensures Fortune(Keep(p.(at := p.at - {u}), profile)) == Fortune(p) + profile.treasures
  {
    hide Wealth;
    var q := Keep(p.(at := p.at - {u}), profile);
    assert Hosted(q) == Hosted(p);
    assert OnFile(q) == OnFile(p)[u := profile.treasures];
    TotalUpdate(OnFile(p), u, profile.treasures);
  }

  lemma LoginFortune(p: Plain, u: string, pw: string, order: seq<string>, now: int)
    requires Located(p) && SoundUsers(p)
    ensures Fortune(LoginP(p, u, pw, order, now)) == Fortune(p)
  {
    hide AddPlayer, LookP, PersistP, Fortune, Wealth;
    if AuthenticP(p, u, pw) && u !in p.at && HomeMap(p, u) in p.worlds {
      var m := HomeMap(p, u);
      var profile := p.users[u];
      var s := AddPlayer(p.worlds[m], profile);
      AddWealth(p.worlds[m], profile);
      PutFortune(p, m, s);
      SitDown(PutWorld(p, m, s), u, m);
      FarewellFortune(EnterP(p, u, m, profile), u, order, now);
    }
  }

  lemma LogoutFortune(p: Plain, u: string)
    requires Located(p)
    ensures Fortune(LogoutP(p, u)) == Fortune(p)
  {
    hide RemovePlayer, Keep, Fortune, Wealth;
    if u in p.at {
      assert On(p, u);
      var m := p.at[u];
      var s := RemovePlayer(p.worlds[m], u);
      RemoveWealth(p.worlds[m], u);
      PutFortune(p, m, s);
      StandUp(PutWorld(p, m, s), u, Resident(p.worlds[m], u, m));
    }
  }

  lemma CrossFortune(p: Plain, u: string, m: string, target: string, s: State, profile: Profile)
    requires m in p.worlds && target in p.worlds && m != target && u in p.at && u in s.players && profile.username == u
    requires u !in p.worlds[target].players && profile.treasures == s.players[u].treasures
    requires Wealth(s) == Wealth(p.worlds[m])
    ensures Fortune(EnterP(PutWorld(p, m, RemovePlayer(s, u)), u, target, profile)) == Fortune(p)
  {
    hide RemovePlayer, AddPlayer, Fortune, Wealth;
    RemoveWealth(s, u);
    var p1 := PutWorld(p, m, RemovePlayer(s, u));
    PutFortune(p, m, RemovePlayer(s, u));
    AddWealth(p1.worlds[target], profile);
    PutFortune(p1, target, AddPlayer(p1.worlds[target], profile));
    var p2 := PutWorld(p1, target, AddPlayer(p1.worlds[target], profile));
    SeatFortune(p2, p2.at[u := target]);
  }

  lemma SwitchFortune(p: Plain, u: string, target: string, order: seq<string>, now: int)
    requires Located(p)
    ensures Fortune(SwitchP(p, u, target, order, now)) == Fortune(p)
  {
    hide EnterP, LookP, PersistP, Keep, Refresh, RemovePlayer, Fortune, Wealth;
    LookFortune(p, u, order, now);
    if target in p.configs && target in p.worlds && On(p, u) && p.at[u] != target {
      var m := p.at[u];
      var s := Refresh(p.worlds[m], u, now);
      RefreshBalance(p.worlds[m], u, now);
      PutSame(p, m, s);
      LookFortune(PutWorld(p, m, s), u, order, now);
      if s.players[u].alive {
        var profile := ProfileOf(s, u).(lastMap := target, at := p.configs[target].spawn);
        CrossFortune(p, u, m, target, s, profile);
        var p2 := EnterP(PutWorld(p, m, RemovePlayer(s, u)), u, target, profile);
        EntersSeat(PutWorld(p, m, RemovePlayer(s, u)), u, target, profile);
        KeepFortune(p2, profile);
        FarewellFortune(Keep(p2, profile), u, order, now);
      }
    }
  }

  lemma EntersSeat(p: Plain, u: string, m: string, profile: Profile)
    requires m in p.worlds
    ensures u in EnterP(p, u, m, profile).at
  {
    hide AddPlayer;
  }

  // ----- The system -----

  lemma RenewFortune(p: Plain, shown: set<string>, renewed: set<string>, orders: string -> seq<string>, now: int,
                     drawn: string -> nat)
    ensures Fortune(RenewP(p, shown, renewed, orders, now, drawn)) == Fortune(p)
  {
    hide RefreshAll, Normalise, Wealth;
    var q := RenewP(p, shown, renewed, orders, now, drawn);
    forall m | m in p.worlds ensures Wealth(q.worlds[m]) == Wealth(p.worlds[m]) {
      RefreshAllBalance(p.worlds[m], orders(m), now);
      NormaliseWealth(RefreshAll(p.worlds[m], orders(m), now), drawn(m));
    }
    assert Hosted(q) == Hosted(p);
    assert OnFile(q) == OnFile(p);
  }

  lemma LiveFortune(p: Plain, m: string, order: seq<string>, now: int)
    ensures Fortune(LiveP(p, m, order, now)) == Fortune(p) + Gain(p, SeenLive(m, order, now))
  {
    hide Background, Fortune, Wealth, FlowOf, Net, Ledgered;
    if m in p.worlds {
      ApplyBalance(p.worlds[m], OpBackground(order, now));
      PutFortune(p, m, Background(p.worlds[m], order, now));
    }
  }

  lemma ShowFortune(p: Plain, m: string, order: seq<string>, now: int)
    ensures Fortune(ShowP(p, m, order, now)) == Fortune(p)
  {
    hide RefreshAll, Fortune, Wealth;
    if m in p.worlds {
      RefreshAllBalance(p.worlds[m], order, now);
      PutSame(p, m, RefreshAll(p.worlds[m], order, now));
    }
  }

  /** Every step changes the fortune by its gain, which is nothing for logins, logouts, changes of map,
      checkpoints, planned failovers and recoveries. */
  lemma StepFortune(p: Plain, e: Seen)
    requires Good(p)
    ensures Fortune(StepP(p, e)) == Fortune(p) + Gain(p, e)
  {
    hide Good, Located, SoundUsers, SoundWorlds, Fortune, FlowOf, Net, Bounty, On;
    hide RegisterP, LoginP, LogoutP, ActP, SwitchP, StrikeP, LookP, PersistP, LiveP, ShowP, RenewP;
    GoodParts(p);
    match e
    case SeenRegister(u, pw) => RegisterFortune(p, u, pw);
    case SeenLogin(u, pw, order, now) => LoginFortune(p, u, pw, order, now);
    case SeenLogout(u) => LogoutFortune(p, u);
    case SeenAct(u, cmd, order, now) => ActFortune(p, u, cmd, order, now);
    case SeenSwitch(u, target, order, now) => SwitchFortune(p, u, target, order, now);
    case SeenStrike(u, payees, order, now) => StrikeFortune(p, u, payees, order, now);
    case SeenLook(u, order, now) => LookFortune(p, u, order, now);
    case SeenFlush(u, now) => PersistFortune(p, u, now);
    case SeenBoss => BossFortune(p, Boss.NewBoss());
    case SeenLive(m, order, now) => LiveFortune(p, m, order, now);
    case SeenShow(m, order, now) => ShowFortune(p, m, order, now);
    case SeenRenew(shown, renewed, orders, now, drawn) => RenewFortune(p, shown, renewed, orders, now, drawn);
    case SeenNothing =>
  }

  ghost function GainAll(p: Plain, es: seq<Seen>): int
    decreases |es|
  {
    if es == [] then 0 else Gain(p, es[0]) + GainAll(StepP(p, es[0]), es[1..])
  }

  lemma {:induction false} RunFortune(p: Plain, es: seq<Seen>)
    requires Good(p)
    ensures Fortune(RunP(p, es)) == Fortune(p) + GainAll(p, es)
    decreases |es|
  {
    hide Good, StepP, Fortune, Gain;
    if es != [] {
      StepGood(p, es[0]);
      StepFortune(p, es[0]);
      RunFortune(StepP(p, es[0]), es[1..]);
    }
  }
}
