/** Units keep apart in every run of the placement-free model in which each player finds a cell at every
    moment it has to be placed, on however crowded the maps. */
module PlainPlacement {
  import opened Basics
  import opened WorldModel
  import opened WorldPlacement
  import opened WorldCheckpoint
  import opened ClusterModel
  import opened PlainModel
  import opened PlainProperties
  import opened PlainDown
  import opened PlainLedger
  import Boss = BossModel

  ghost predicate AllApart(p: Plain) {
    forall m | m in p.worlds :: Separated(p.worlds[m])
  }

  // ----- A cell for each player who has to be placed -----

  ghost predicate PersistFits(p: Plain, u: string, now: int) {
    On(p, u) ==> Revives(p.worlds[p.at[u]], u, now)
  }

  ghost predicate LookFits(p: Plain, u: string, order: seq<string>, now: int) {
    u in p.at && p.at[u] in p.worlds ==> AllRevive(p.worlds[p.at[u]], order, now)
  }

  ghost predicate FarewellFits(p: Plain, u: string, order: seq<string>, now: int) {
    PersistFits(p, u, now) && LookFits(PersistP(p, u, now), u, order, now)
  }

  ghost predicate VictimFits(p: Plain, m: string, victim: Option<string>, now: int) {
    victim.Some? && m in p.worlds && victim.value in p.worlds[m].players ==>
      var s := Refresh(p.worlds[m], victim.value, now);
      Revives(p.worlds[m], victim.value, now)
      && PersistFits(Keep(PutWorld(p, m, s), Resident(s, victim.value, m)), victim.value, now)
  }

  ghost predicate ActFits(p: Plain, u: string, cmd: Command, order: seq<string>, now: int) {
    On(p, u) ==>
      var m := p.at[u];
      var before := p.worlds[m];
      var after := Obey(before, u, cmd, now);
      var victim := if cmd.AttackCmd? then AttackVictim(before, u, now) else None;
      var p0 := PutWorld(p, m, after);
      && Placeable(before, OpOf(u, cmd, now)) && VictimFits(p0, m, victim, now)
      && (u in after.players ==> FarewellFits(Keep(KeepVictim(p0, m, victim, now), Resident(after, u, m)), u, order, now))
  }

  ghost predicate LoginFits(p: Plain, u: string, pw: string, order: seq<string>, now: int) {
    AuthenticP(p, u, pw) && u !in p.at && HomeMap(p, u) in p.worlds ==>
      var m := HomeMap(p, u);
      Admits(p.worlds[m], p.users[u]) && FarewellFits(EnterP(p, u, m, p.users[u]), u, order, now)
  }

  ghost predicate SwitchFits(p: Plain, u: string, target: string, order: seq<string>, now: int) {
    u in p.at && target in p.configs ==>
      if p.at[u] == target then LookFits(p, u, order, now)
      else if target !in p.worlds || !On(p, u) then true
      else
        var m := p.at[u];
        var s := Refresh(p.worlds[m], u, now);
        Revives(p.worlds[m], u, now)
        && if !s.players[u].alive then LookFits(PutWorld(p, m, s), u, order, now)
           else
             var profile := ProfileOf(s, u).(lastMap := target, at := p.configs[target].spawn);
             var p1 := PutWorld(p, m, RemovePlayer(s, u));
             Admits(p.worlds[target], profile) && FarewellFits(Keep(EnterP(p1, u, target, profile), profile), u, order, now)
  }

  ghost predicate StrikeFits(p: Plain, u: string, payees: seq<string>, order: seq<string>, now: int) {
    On(p, u) ==>
      var m := p.at[u];
      var s := Refresh(p.worlds[m], u, now);
      var p1 := PutWorld(p, m, s);
      var q := s.players[u];
      Revives(p.worlds[m], u, now)
      && (m in p.configs ==>
            if Distance(q.at, p.configs[m].boss) > BOSS_RANGE || !p.boss.alive then LookFits(p1, u, order, now)
            else
              var damage := Boss.Damage(q.attack, q.treasures);
              var p2 := p1.(boss := Boss.Struck(p1.boss, u, damage, now));
              FarewellFits(PayAllP(p2, payees, Boss.Rewards(p1.boss, u, damage, p1.at.Keys)), u, order, now))
  }

  ghost predicate MapFits(p: Plain, m: string, order: seq<string>, now: int) {
    m in p.worlds ==> AllRevive(p.worlds[m], order, now)
  }

  ghost predicate Fits(p: Plain, e: Seen) {
    match e
    case SeenLogin(u, pw, order, now) => LoginFits(p, u, pw, order, now)
    case SeenAct(u, cmd, order, now) => ActFits(p, u, cmd, order, now)
    case SeenSwitch(u, target, order, now) => SwitchFits(p, u, target, order, now)
    case SeenStrike(u, payees, order, now) => StrikeFits(p, u, payees, order, now)
    case SeenLook(u, order, now) => LookFits(p, u, order, now)
    case SeenFlush(u, now) => PersistFits(p, u, now)
    case SeenLive(m, order, now) => MapFits(p, m, order, now)
    case SeenShow(m, order, now) => MapFits(p, m, order, now)
    case SeenRenew(shown, _, orders, now, _) => forall m | m in shown :: MapFits(p, m, orders(m), now)
    case _ => true
  }

  ghost predicate AllFit(p: Plain, es: seq<Seen>)
    decreases |es|
  {
    es == [] || (Fits(p, es[0]) && AllFit(StepP(p, es[0]), es[1..]))
  }

  // ----- Each step keeps the units apart -----

  lemma PutApart(p: Plain, m: string, s: State)
    requires AllApart(p) && Separated(s)
    ensures AllApart(PutWorld(p, m, s))
  {
    hide Separated;
  }

  lemma PersistApart(p: Plain, u: string, now: int)
    requires AllApart(p) && PersistFits(p, u, now)
    ensures AllApart(PersistP(p, u, now))
  {
    hide Separated, Refresh, Revives;
    if On(p, u) {
      RefreshSeparation(p.worlds[p.at[u]], u, now);
    }
  }

  lemma LookApart(p: Plain, u: string, order: seq<string>, now: int)
    requires AllApart(p) && LookFits(p, u, order, now)
    ensures AllApart(LookP(p, u, order, now))
  {
    hide Separated, RefreshAll, AllRevive;
    if u in p.at && p.at[u] in p.worlds {
      RefreshAllSeparation(p.worlds[p.at[u]], order, now);
    }
  }

  lemma FarewellApart(p: Plain, u: string, order: seq<string>, now: int)
    requires AllApart(p) && FarewellFits(p, u, order, now)
    ensures AllApart(LookP(PersistP(p, u, now), u, order, now))
  {
    hide AllApart, PersistFits, LookFits, PersistP, LookP;
    PersistApart(p, u, now);
    LookApart(PersistP(p, u, now), u, order, now);
  }

  lemma KeepApart(p: Plain, profile: Profile)
    requires AllApart(p)
    ensures AllApart(Keep(p, profile))
  {
    hide Separated;
  }

  lemma VictimApart(p: Plain, m: string, victim: Option<string>, now: int)
    requires AllApart(p) && VictimFits(p, m, victim, now)
    ensures AllApart(KeepVictim(p, m, victim, now))
  {
    hide Separated, Refresh, Revives, PersistP, PersistFits, Keep;
    if victim.Some? && m in p.worlds && victim.value in p.worlds[m].players {
      var v := victim.value;
      var s := Refresh(p.worlds[m], v, now);
      RefreshSeparation(p.worlds[m], v, now);
      PutApart(p, m, s);
      KeepApart(PutWorld(p, m, s), Resident(s, v, m));
      PersistApart(Keep(PutWorld(p, m, s), Resident(s, v, m)), v, now);
    }
  }

  lemma ActApart(p: Plain, u: string, cmd: Command, order: seq<string>, now: int)
    requires AllApart(p) && ActFits(p, u, cmd, order, now)
    ensures AllApart(ActP(p, u, cmd, order, now))
  {
    hide Separated, Obey, AttackVictim, KeepVictim, VictimFits, FarewellFits, Placeable, LookP, PersistP, Keep;
    if On(p, u) {
      var m := p.at[u];
      var before := p.worlds[m];
      var after := Obey(before, u, cmd, now);
      ObeyIsOp(before, u, cmd, now);
      hide Apply;
      ApplySeparation(before, OpOf(u, cmd, now));
      PutApart(p, m, after);
      hide AllApart;
      var victim := if cmd.AttackCmd? then AttackVictim(before, u, now) else None;
      VictimApart(PutWorld(p, m, after), m, victim, now);
      if u in after.players {
        var p1 := KeepVictim(PutWorld(p, m, after), m, victim, now);
        KeepApart(p1, Resident(after, u, m));
        FarewellApart(Keep(p1, Resident(after, u, m)), u, order, now);
      }
    }
  }

  lemma PayOneApart(p: Plain, u: string, r: Boss.Reward)
    requires AllApart(p)
    ensures AllApart(PayOneP(p, u, r))
  {
    hide Separated, WorldModel.Reward;
    if On(p, u) {
      RewardSeparation(p.worlds[p.at[u]], u, r.treasure, r.victories);
    }
  }

  lemma {:induction false} PayAllApart(p: Plain, payees: seq<string>, rewards: map<string, Boss.Reward>)
    requires AllApart(p)
    ensures AllApart(PayAllP(p, payees, rewards))
    decreases |payees|
  {
    hide AllApart, PayOneP;
    if payees != [] {
      if payees[0] !in rewards {
        PayAllApart(p, payees[1..], rewards);
      } else {
        PayOneApart(p, payees[0], rewards[payees[0]]);
        PayAllApart(PayOneP(p, payees[0], rewards[payees[0]]), payees[1..], rewards);
      }
    }
  }

  lemma StrikeApart(p: Plain, u: string, payees: seq<string>, order: seq<string>, now: int)
    requires AllApart(p) && StrikeFits(p, u, payees, order, now)
    ensures AllApart(StrikeP(p, u, payees, order, now))
  {
    hide Separated, Refresh, Revives, LookP, PersistP, PayAllP, LookFits, FarewellFits, Boss.Struck, Boss.Rewards, Boss.Damage;
    if On(p, u) {
      var m := p.at[u];
      var s := Refresh(p.worlds[m], u, now);
      RefreshSeparation(p.worlds[m], u, now);
      PutApart(p, m, s);
      var p1 := PutWorld(p, m, s);
      var q := s.players[u];
      if m in p.configs {
        if Distance(q.at, p.configs[m].boss) > BOSS_RANGE || !p.boss.alive {
          LookApart(p1, u, order, now);
        } else {
          var damage := Boss.Damage(q.attack, q.treasures);
          var p2 := p1.(boss := Boss.Struck(p1.boss, u, damage, now));
          assert AllApart(p2);
          hide AllApart;
          var rewards := Boss.Rewards(p1.boss, u, damage, p1.at.Keys);
          PayAllApart(p2, payees, rewards);
          FarewellApart(PayAllP(p2, payees, rewards), u, order, now);
        }
      }
    }
  }

  lemma EnterApart(p: Plain, u: string, m: string, profile: Profile)
    requires AllApart(p) && m in p.worlds && Admits(p.worlds[m], profile) && profile.username != ""
    ensures AllApart(EnterP(p, u, m, profile))
  {
    hide Separated, Admits, AddPlayer;
    AddSeparation(p.worlds[m], profile);
  }

  lemma LoginApart(p: Plain, u: string, pw: string, order: seq<string>, now: int)
    requires AllApart(p) && SoundUsers(p) && LoginFits(p, u, pw, order, now)
    ensures AllApart(LoginP(p, u, pw, order, now))
  {
    hide AllApart, Admits, EnterP, LookP, PersistP, FarewellFits;
    if AuthenticP(p, u, pw) && u !in p.at && HomeMap(p, u) in p.worlds {
      EnterApart(p, u, HomeMap(p, u), p.users[u]);
      FarewellApart(EnterP(p, u, HomeMap(p, u), p.users[u]), u, order, now);
    }
  }

  lemma LogoutApart(p: Plain, u: string)
    requires AllApart(p)
    ensures AllApart(LogoutP(p, u))
  {
    hide Separated, RemovePlayer;
    if On(p, u) {
      RemoveSeparation(p.worlds[p.at[u]], u);
    }
  }

  lemma CrossApart(p: Plain, u: string, m: string, target: string, s: State, profile: Profile)
    requires AllApart(p) && Separated(s) && target in p.worlds && target != m
    requires Admits(p.worlds[target], profile) && profile.username != ""
    ensures AllApart(EnterP(PutWorld(p, m, RemovePlayer(s, u)), u, target, profile))
  {
    hide Separated, Admits, EnterP, RemovePlayer;
    RemoveSeparation(s, u);
    PutApart(p, m, RemovePlayer(s, u));
    EnterApart(PutWorld(p, m, RemovePlayer(s, u)), u, target, profile);
  }

  lemma SwitchApart(p: Plain, u: string, target: string, order: seq<string>, now: int)
    requires AllApart(p) && SwitchFits(p, u, target, order, now) && Located(p) && SoundUsers(p)
    ensures AllApart(SwitchP(p, u, target, order, now))
  {
    hide EnterP, LookP, PersistP, Keep, Refresh, RemovePlayer, Separated, Revives, Admits, LookFits, FarewellFits;
    if u in p.at && target in p.configs {
      if p.at[u] == target {
        LookApart(p, u, order, now);
      } else if target in p.worlds && On(p, u) {
        var m := p.at[u];
        var s := Refresh(p.worlds[m], u, now);
        RefreshSeparation(p.worlds[m], u, now);
        if !s.players[u].alive {
          PutApart(p, m, s);
          LookApart(PutWorld(p, m, s), u, order, now);
        } else {
          var profile := ProfileOf(s, u).(lastMap := target, at := p.configs[target].spawn);
          CrossApart(p, u, m, target, s, profile);
          var q := EnterP(PutWorld(p, m, RemovePlayer(s, u)), u, target, profile);
          hide AllApart;
          KeepApart(q, profile);
          FarewellApart(Keep(q, profile), u, order, now);
        }
      }
    }
  }

  lemma RenewApart(p: Plain, shown: set<string>, renewed: set<string>, orders: string -> seq<string>, now: int,
                   drawn: string -> nat)
    requires AllApart(p) && forall m | m in shown :: MapFits(p, m, orders(m), now)
    ensures AllApart(RenewP(p, shown, renewed, orders, now, drawn))
  {
    hide Separated, RefreshAll, Normalise, AllRevive;
    var q := RenewP(p, shown, renewed, orders, now, drawn);
    forall m | m in q.worlds ensures Separated(q.worlds[m]) {
      if m in shown {
        assert MapFits(p, m, orders(m), now);
        RefreshAllSeparation(p.worlds[m], orders(m), now);
        NormaliseSeparation(RefreshAll(p.worlds[m], orders(m), now), drawn(m));
      }
    }
  }

  lemma MapApart(p: Plain, m: string, order: seq<string>, now: int)
    requires AllApart(p) && MapFits(p, m, order, now)
    ensures AllApart(LiveP(p, m, order, now)) && AllApart(ShowP(p, m, order, now))
  {
    hide Separated, RefreshAll, Background, AllRevive;
    if m in p.worlds {
      RefreshAllSeparation(p.worlds[m], order, now);
      BackgroundSeparation(p.worlds[m], order, now);
    }
  }

  lemma SameWorldsApart(p: Plain, q: Plain)
    requires AllApart(p) && q.worlds == p.worlds
    ensures AllApart(q)
  {
    hide Separated;
  }

  lemma StepApart(p: Plain, e: Seen)
    requires Good(p) && AllApart(p) && Fits(p, e)
    ensures AllApart(StepP(p, e))
  {
    hide Good, Located, SoundUsers, SoundWorlds, AllApart;
    hide RegisterP, LoginP, LogoutP, ActP, SwitchP, StrikeP, LookP, PersistP, LiveP, ShowP, RenewP;
    hide LoginFits, ActFits, SwitchFits, StrikeFits, LookFits, PersistFits, MapFits;
    GoodParts(p);
    match e
    case SeenRegister(u, pw) => RegisterApart(p, u, pw);
    case SeenLogin(u, pw, order, now) => LoginApart(p, u, pw, order, now);
    case SeenLogout(u) => LogoutApart(p, u);
    case SeenAct(u, cmd, order, now) => ActApart(p, u, cmd, order, now);
    case SeenSwitch(u, target, order, now) => SwitchApart(p, u, target, order, now);
    case SeenStrike(u, payees, order, now) => StrikeApart(p, u, payees, order, now);
    case SeenLook(u, order, now) => LookApart(p, u, order, now);
    case SeenFlush(u, now) => PersistApart(p, u, now);
    case SeenBoss => SameWorldsApart(p, p.(boss := Boss.NewBoss()));
    case SeenLive(m, order, now) => MapApart(p, m, order, now);
    case SeenShow(m, order, now) => MapApart(p, m, order, now);
    case SeenRenew(shown, renewed, orders, now, drawn) => RenewApart(p, shown, renewed, orders, now, drawn);
    case SeenNothing =>
  }

  lemma RegisterApart(p: Plain, u: string, pw: string)
    requires AllApart(p)
    ensures AllApart(RegisterP(p, u, pw))
  {
    hide AllApart;
    SameWorldsApart(p, RegisterP(p, u, pw));
  }

  lemma {:induction false} RunApart(p: Plain, es: seq<Seen>)
    requires Good(p) && AllApart(p) && AllFit(p, es)
    ensures AllApart(RunP(p, es))
    decreases |es|
  {
    hide Good, AllApart, StepP, Fits;
    if es != [] {
      StepGood(p, es[0]);
      StepApart(p, es[0]);
      RunApart(StepP(p, es[0]), es[1..]);
    }
  }
}
