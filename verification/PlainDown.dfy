/** Who is down with no revival pending stays down, whatever players and the system do: staying, logging
    out, coming back from the saved profile, and failovers of the map included. */
module PlainDown {
  import opened Basics
  import opened WorldModel
  import opened WorldCheckpoint
  import opened WorldPlacement
  import opened WorldLife
  import opened ClusterModel
  import opened PlainModel
  import opened PlainProperties
  import Boss = BossModel

  /** A user whose player lies down for good, or was saved lying down when it left. */
  ghost predicate Grounded(p: Plain, u: string) {
    u in p.users && if u in p.at then On(p, u) && Down(p.worlds[p.at[u]].players[u]) else SavedDown(p.users[u])
  }

  // ----- Single changes -----

  lemma PutGrounded(p: Plain, m: string, s: State, u: string)
    requires Grounded(p, u) && m in p.worlds && Steady(p.worlds[m], s, p.worlds[m].players.Keys)
    ensures Grounded(PutWorld(p, m, s), u)
  {
    if u in p.worlds[m].players {
      assert Evolves(p.worlds[m].players[u], s.players[u]);
    }
  }

  /** What is saved while the user is in a world does not matter: leaving saves the profile anew. */
  lemma KeepGrounded(p: Plain, profile: Profile, u: string)
    requires Grounded(p, u) && (profile.username == u ==> u in p.at)
    ensures Grounded(Keep(p, profile), u)
  {
  }

  lemma PersistGrounded(p: Plain, v: string, now: int, u: string)
    requires Grounded(p, u)
    ensures Grounded(PersistP(p, v, now), u)
  {
    hide Refresh, Keep, Steady, Grounded;
    if On(p, v) {
      var m := p.at[v];
      var s := Refresh(p.worlds[m], v, now);
      RefreshSteady(p.worlds[m], v, now);
      PutGrounded(p, m, s, u);
      KeepGrounded(PutWorld(p, m, s), Resident(s, v, m), u);
    }
  }

  lemma LookGrounded(p: Plain, v: string, order: seq<string>, now: int, u: string)
    requires Grounded(p, u)
    ensures Grounded(LookP(p, v, order, now), u)
  {
    hide RefreshAll, Steady, Grounded;
    if v in p.at && p.at[v] in p.worlds {
      RefreshAllSteady(p.worlds[p.at[v]], order, now);
      PutGrounded(p, p.at[v], RefreshAll(p.worlds[p.at[v]], order, now), u);
    }
  }

  lemma FarewellGrounded(p: Plain, v: string, order: seq<string>, now: int, u: string)
    requires Grounded(p, u)
    ensures Grounded(LookP(PersistP(p, v, now), v, order, now), u)
  {
    hide Grounded, LookP, PersistP;
    PersistGrounded(p, v, now, u);
    LookGrounded(PersistP(p, v, now), v, order, now, u);
  }

  // ----- Commands -----

  lemma VictimGrounded(p: Plain, m: string, victim: Option<string>, now: int, u: string)
    requires Grounded(p, u) && Located(p)
    ensures Grounded(KeepVictim(p, m, victim, now), u)
  {
    hide Refresh, PersistP, Keep, Steady, Grounded;
    if victim.Some? && m in p.worlds && victim.value in p.worlds[m].players {
      var v := victim.value;
      var s := Refresh(p.worlds[m], v, now);
      RefreshSteady(p.worlds[m], v, now);
      PutGrounded(p, m, s, u);
      KeepGrounded(PutWorld(p, m, s), Resident(s, v, m), u);
      PersistGrounded(Keep(PutWorld(p, m, s), Resident(s, v, m)), v, now, u);
    }
  }

  lemma ObeySteadily(s: State, v: string, cmd: Command, now: int)
    ensures Steady(s, Obey(s, v, cmd, now), s.players.Keys)
  {
    ObeyHeld(s, v, cmd, now);
  }

  lemma ActGrounded(p: Plain, v: string, cmd: Command, order: seq<string>, now: int, u: string)
    requires Grounded(p, u) && Located(p)
    ensures Grounded(ActP(p, v, cmd, order, now), u)
  {
    hide Obey, AttackVictim, KeepVictim, LookP, PersistP, Keep, Steady, Grounded, Located;
    if On(p, v) {
      var m := p.at[v];
      var before := p.worlds[m];
      var after := Obey(before, v, cmd, now);
      ObeySteadily(before, v, cmd, now);
      PutGrounded(p, m, after, u);
      SteadyNames(before, after);
      PutLocated(p, m, after);
      var p0 := PutWorld(p, m, after);
      var victim := if cmd.AttackCmd? then AttackVictim(before, v, now) else None;
      VictimGrounded(p0, m, victim, now, u);
      var p1 := KeepVictim(p0, m, victim, now);
      VictimSeats(p0, m, victim, now);
      KeepGrounded(p1, Resident(after, v, m), u);
      FarewellGrounded(Keep(p1, Resident(after, v, m)), v, order, now, u);
    }
  }

  lemma VictimSeats(p: Plain, m: string, victim: Option<string>, now: int)
    ensures KeepVictim(p, m, victim, now).at == p.at
  {
    hide Refresh;
  }

  lemma PayOneGrounded(p: Plain, v: string, r: Boss.Reward, u: string)
    requires Grounded(p, u)
    ensures Grounded(PayOneP(p, v, r), u)
  {
    hide WorldModel.Reward, Keep, Steady, Grounded;
    if On(p, v) {
      var m := p.at[v];
      var s := WorldModel.Reward(p.worlds[m], v, r.treasure, r.victories);
      RewardSteady(p.worlds[m], v, r.treasure, r.victories);
      PutGrounded(p, m, s, u);
      if v in s.players {
        KeepGrounded(PutWorld(p, m, s), Resident(s, v, m), u);
      }
    }
  }

  lemma {:induction false} PayAllGrounded(p: Plain, payees: seq<string>, rewards: map<string, Boss.Reward>, u: string)
    requires Grounded(p, u)
    ensures Grounded(PayAllP(p, payees, rewards), u)
    decreases |payees|
  {
    hide Grounded, PayOneP;
    if payees != [] {
      if payees[0] !in rewards {
        PayAllGrounded(p, payees[1..], rewards, u);
      } else {
        PayOneGrounded(p, payees[0], rewards[payees[0]], u);
        PayAllGrounded(PayOneP(p, payees[0], rewards[payees[0]]), payees[1..], rewards, u);
      }
    }
  }

  lemma StrikeGrounded(p: Plain, v: string, payees: seq<string>, order: seq<string>, now: int, u: string)
    requires Grounded(p, u)
    ensures Grounded(StrikeP(p, v, payees, order, now), u)
  {
    hide Refresh, LookP, PersistP, PayAllP, Boss.Struck, Boss.Rewards, Boss.Damage, Steady, Grounded;
    if On(p, v) {
      var m := p.at[v];
      var s := Refresh(p.worlds[m], v, now);
      RefreshSteady(p.worlds[m], v, now);
      PutGrounded(p, m, s, u);
      var p1 := PutWorld(p, m, s);
      var q := s.players[v];
      LookGrounded(p1, v, order, now, u);
      var damage := Boss.Damage(q.attack, q.treasures);
      var p2 := p1.(boss := Boss.Struck(p1.boss, v, damage, now));
      BossGrounded(p1, p2.boss, u);
      var rewards := Boss.Rewards(p1.boss, v, damage, p1.at.Keys);
      PayAllGrounded(p2, payees, rewards, u);
      FarewellGrounded(PayAllP(p2, payees, rewards), v, order, now, u);
    }
  }

  lemma BossGrounded(p: Plain, boss: Boss.Boss, u: string)
    requires Grounded(p, u)
    ensures Grounded(p.(boss := boss), u)
  {
  }

  // ----- Comings and goings -----

  lemma EnterOther(p: Plain, v: string, m: string, profile: Profile, u: string)
    requires Grounded(p, u) && m in p.worlds && v != u && profile.username == v
    ensures Grounded(EnterP(p, v, m, profile), u)
  {
    hide AddPlayer;
    AddSteady(p.worlds[m], profile);
  }

  lemma EnterSelf(p: Plain, u: string, m: string)
    requires Grounded(p, u) && m in p.worlds && u !in p.at && p.users[u].username == u
    ensures Grounded(EnterP(p, u, m, p.users[u]), u)
  {
    hide SafeCell, SafeCellDrawn;
  }

  lemma LoginGrounded(p: Plain, v: string, pw: string, order: seq<string>, now: int, u: string)
    requires Grounded(p, u) && SoundUsers(p)
    ensures Grounded(LoginP(p, v, pw, order, now), u)
  {
    hide EnterP, LookP, PersistP, Grounded;
    if AuthenticP(p, v, pw) && v !in p.at && HomeMap(p, v) in p.worlds {
      var m := HomeMap(p, v);
      if v == u { EnterSelf(p, u, m); } else { EnterOther(p, v, m, p.users[v], u); }
      FarewellGrounded(EnterP(p, v, m, p.users[v]), v, order, now, u);
    }
  }

  lemma LeaveOther(p: Plain, v: string, m: string, u: string)
    requires Grounded(p, u) && m in p.worlds && v != u
    ensures Grounded(PutWorld(p, m, RemovePlayer(p.worlds[m], v)), u)
    ensures Grounded(PutWorld(p, m, RemovePlayer(p.worlds[m], v)).(at := p.at - {v}), u)
  {
  }

  lemma LogoutGrounded(p: Plain, v: string, u: string)
    requires Grounded(p, u) && Located(p) && SoundWorlds(p)
    ensures Grounded(LogoutP(p, v), u)
  {
    hide RemovePlayer;
    if On(p, v) {
      var m := p.at[v];
      if v == u {
        assert Robust(p.worlds[m].players[u]);
      } else {
        LeaveOther(p, v, m, u);
        KeepGrounded(PutWorld(p, m, RemovePlayer(p.worlds[m], v)).(at := p.at - {v}), Resident(p.worlds[m], v, m), u);
      }
    }
  }

  lemma SwitchOther(p: Plain, v: string, target: string, order: seq<string>, now: int, u: string)
    requires Grounded(p, u) && v != u
    ensures Grounded(SwitchP(p, v, target, order, now), u)
  {
    hide EnterP, LookP, PersistP, Keep, Refresh, RemovePlayer, Steady, Grounded;
    LookGrounded(p, v, order, now, u);
    if target in p.configs && target in p.worlds && On(p, v) && p.at[v] != target {
      var m := p.at[v];
      var s := Refresh(p.worlds[m], v, now);
      RefreshSteady(p.worlds[m], v, now);
      PutGrounded(p, m, s, u);
      LookGrounded(PutWorld(p, m, s), v, order, now, u);
      if s.players[v].alive {
        LeaveOther(PutWorld(p, m, s), v, m, u);
        var p1 := PutWorld(p, m, RemovePlayer(s, v));
        assert PutWorld(PutWorld(p, m, s), m, RemovePlayer(s, v)) == p1;
        var profile := ProfileOf(s, v).(lastMap := target, at := p.configs[target].spawn);
        EnterOther(p1, v, target, profile, u);
        KeepGrounded(EnterP(p1, v, target, profile), profile, u);
        FarewellGrounded(Keep(EnterP(p1, v, target, profile), profile), v, order, now, u);
      }
    }
  }

  lemma SwitchGrounded(p: Plain, v: string, target: string, order: seq<string>, now: int, u: string)
    requires Grounded(p, u)
    ensures Grounded(SwitchP(p, v, target, order, now), u)
  {
    hide LookP;
    if v != u {
      SwitchOther(p, v, target, order, now, u);
    } else {
      LookGrounded(p, u, order, now, u);
      if On(p, u) {
        var s := p.worlds[p.at[u]];
        assert Refresh(s, u, now) == s;
        assert PutWorld(p, p.at[u], s) == p;
      }
    }
  }

  // ----- The system -----

  lemma RenewGrounded(p: Plain, shown: set<string>, renewed: set<string>, orders: string -> seq<string>, now: int,
                      drawn: string -> nat, u: string)
    requires Grounded(p, u)
    ensures Grounded(RenewP(p, shown, renewed, orders, now, drawn), u)
  {
    hide RenewP, Kept, Separated, OpenCells;
    var q := RenewP(p, shown, renewed, orders, now, drawn);
    RenewSimilar(p, shown, renewed, orders, now, drawn);
    if u in p.at {
      var m := p.at[u];
      assert Similar(p.worlds[m], q.worlds[m]);
      assert Evolves(p.worlds[m].players[u], q.worlds[m].players[u]);
    }
  }

  lemma MapGrounded(p: Plain, m: string, order: seq<string>, now: int, u: string)
    requires Grounded(p, u)
    ensures Grounded(LiveP(p, m, order, now), u) && Grounded(ShowP(p, m, order, now), u)
  {
    hide Background, RefreshAll, Steady, Grounded;
    if m in p.worlds {
      BackgroundSteady(p.worlds[m], order, now);
      PutGrounded(p, m, Background(p.worlds[m], order, now), u);
      RefreshAllSteady(p.worlds[m], order, now);
      PutGrounded(p, m, RefreshAll(p.worlds[m], order, now), u);
    }
  }

  lemma StepGrounded(p: Plain, e: Seen, u: string)
    requires Good(p) && Grounded(p, u)
    ensures Grounded(StepP(p, e), u)
  {
    hide Good, Grounded, Located, SoundUsers, SoundWorlds;
    hide RegisterP, LoginP, LogoutP, ActP, SwitchP, StrikeP, LookP, PersistP, LiveP, ShowP, RenewP;
    GoodParts(p);
    match e
    case SeenRegister(v, pw) => RegisterGrounded(p, v, pw, u);
    case SeenLogin(v, pw, order, now) => LoginGrounded(p, v, pw, order, now, u);
    case SeenLogout(v) => LogoutGrounded(p, v, u);
    case SeenAct(v, cmd, order, now) => ActGrounded(p, v, cmd, order, now, u);
    case SeenSwitch(v, target, order, now) => SwitchGrounded(p, v, target, order, now, u);
    case SeenStrike(v, payees, order, now) => StrikeGrounded(p, v, payees, order, now, u);
    case SeenLook(v, order, now) => LookGrounded(p, v, order, now, u);
    case SeenFlush(v, now) => PersistGrounded(p, v, now, u);
    case SeenBoss => BossGrounded(p, Boss.NewBoss(), u);
    case SeenLive(m, order, now) => MapGrounded(p, m, order, now, u);
    case SeenShow(m, order, now) => MapGrounded(p, m, order, now, u);
    case SeenRenew(shown, renewed, orders, now, drawn) => RenewGrounded(p, shown, renewed, orders, now, drawn, u);
    case SeenNothing =>
  }

  lemma GoodParts(p: Plain)
    requires Good(p)
    ensures Located(p) && SoundUsers(p) && SoundWorlds(p)
  {
    hide Located, SoundUsers, SoundWorlds, Room, Peace;
  }

  lemma RegisterGrounded(p: Plain, v: string, pw: string, u: string)
    requires Grounded(p, u)
    ensures Grounded(RegisterP(p, v, pw), u)
  {
  }

  lemma {:induction false} RunGrounded(p: Plain, es: seq<Seen>, u: string)
    requires Good(p) && Grounded(p, u)
    ensures Grounded(RunP(p, es), u)
    decreases |es|
  {
    hide Good, Grounded, StepP;
    if es != [] {
      StepGood(p, es[0]);
      StepGrounded(p, es[0], u);
      RunGrounded(StepP(p, es[0]), es[1..], u);
    }
  }

  // ----- How a player comes to be down for good -----

  /** Logging out while knocked down, even with a revival pending, grounds the player. */
  lemma LogoutGrounds(p: Plain, u: string)
    requires Good(p) && On(p, u)
    ensures Grounded(LogoutP(p, u), u) <==> !p.worlds[p.at[u]].players[u].alive
  {
    hide RemovePlayer, Calm, Room;
    assert Robust(p.worlds[p.at[u]].players[u]);
  }

  /** So does the failover of its map. */
  lemma RenewalGrounds(p: Plain, shown: set<string>, renewed: set<string>, orders: string -> seq<string>, now: int,
                       drawn: string -> nat, u: string)
    requires On(p, u) && u in p.users && p.at[u] in shown && p.at[u] in renewed
    ensures Grounded(RenewP(p, shown, renewed, orders, now, drawn), u) <==>
      !RefreshAll(p.worlds[p.at[u]], orders(p.at[u]), now).players[u].alive
  {
    hide RefreshAll;
  }
}
