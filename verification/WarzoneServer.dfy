/** The warzone server as the source runs it: fixed tables of slots, fighters, weapons and connections
    that the critical sections update in place. Every method is proved against the function of
    WarzoneModel that says what it should do. */
module WarzoneServer {
  import opened Basics
  import opened WarzoneDatabase
  import opened WarzoneAccounts
  import opened WarzoneModel
  import opened DatabaseObject

  class Server {
    const db: Database
    const slotConn: array<int>
    const fighters: array<Fighter>
    const weapons: array<Weapon>
    const kills: array<int>
    const died: array<bool>
    const conns: array<Conn>
    var started: bool
    var over: bool
    var winner: int

    ghost predicate Valid()
      reads this, db, slotConn, conns
    {
      && slotConn.Length == fighters.Length == kills.Length == died.Length == SLOTS
      && weapons.Length == WEAPONS && conns.Length == CONNS && slotConn != kills
      && db.Valid()
      && (forall h | 0 <= h < SLOTS :: slotConn[h] < CONNS)
      && (forall c | 0 <= c < CONNS && NameOf(conns[c]) != "" :: PlainName(NameOf(conns[c])))
    }

    ghost function Value(): Room
      requires Valid()
      reads this, db, slotConn, fighters, weapons, kills, died, conns
    {
      Room(slotConn[..], fighters[..], weapons[..], started, over, winner, kills[..], died[..], conns[..],
           db.Users(), db.AllStats())
    }

    ghost function Tables(): set<object> {
      {this, db, slotConn, fighters, weapons, kills, died, conns}
    }

    constructor (db: Database)
      requires db.Valid()
      ensures Valid() && this.db == db && fresh(Tables() - {db})
      ensures Value() == NewRoom(db.Users(), db.AllStats())
    {
      this.db := db;
      slotConn := new int[SLOTS](_ => -1);
      fighters := new Fighter[SLOTS](_ => NOBODY);
      weapons := new Weapon[WEAPONS](_ => Weapon(0, 0, false));
      kills := new int[SLOTS](_ => 0);
      died := new bool[SLOTS](_ => false);
      conns := new Conn[CONNS](_ => Free);
      started, over, winner := false, false, -1;
    }

    // ----- Scans over the slots -----

    method ConnToGameSlot(cid: int) returns (g: int)
      requires Valid()
      ensures g == SlotOf(Value(), cid)
    {
      SlotFromMeans(slotConn[..], cid, 0);
      for i := 0 to SLOTS
        invariant forall h | 0 <= h < i :: slotConn[h] != cid
      {
        if slotConn[i] == cid {
          return i;
        }
      }
      return -1;
    }

    method GameOnline() returns (n: nat)
      requires Valid()
      ensures n == Online(Value())
    {
      ghost var r := Value();
      n := 0;
      for g := 0 to SLOTS
        invariant n == CountTo(h => Occupied(r, h), g)
      {
        if slotConn[g] >= 0 {
          n := n + 1;
        }
      }
      CountAll(h => Occupied(r, h));
    }

    method GameReady() returns (n: nat)
      requires Valid()
      ensures n == ReadyCount(Value())
    {
      ghost var r := Value();
      n := 0;
      for g := 0 to SLOTS
        invariant n == CountTo(h => Prepared(r, h), g)
      {
        if slotConn[g] >= 0 && fighters[g].ready {
          n := n + 1;
        }
      }
      CountAll(h => Prepared(r, h));
    }

    // ----- The start of a round -----

    method ListOnline() returns (online: seq<nat>)
      requires Valid()
      ensures Listed(Value(), online)
    {
      ghost var r := Value();
      online := [];
      for g := 0 to SLOTS
        invariant |online| == Rank(r, g)
        invariant forall k | 0 <= k < |online| :: online[k] < g && Occupied(r, online[k]) && Rank(r, online[k]) == k
        invariant forall h: nat | h < g && Occupied(r, h) :: h in online
      {
        if slotConn[g] >= 0 {
          online := online + [g];
        }
      }
      RankIsOnline(r);
    }

    /** The fighters that are online take their starting cells. */
    method PlaceStarters(online: seq<nat>)
      requires Valid() && Listed(Value(), online)
      modifies fighters, kills, died
      ensures Valid() && slotConn[..] == old(slotConn[..])
      ensures forall g | 0 <= g < SLOTS :: Placed(old(Value()), g, Value().fighters[g], Value().kills[g], Value().died[g])
    {
      ghost var r := Value();
      hide Valid, Value, Listed, Halfway, Placed, Start, Fresh;
      NobodyPlaced(r);
      assert Elements(online[..0]) == {};
      for rank := 0 to |online|
        invariant Valid() && Halfway(r, Value(), Elements(online[..rank]))
      {
        ListedAt(r, online, rank);
        var g := online[rank];
        var at := StartCell(|online|, rank);
        ghost var s := Value();
        PlaceStarter(g, at);
        HalfwayOn(r, s, Value(), Elements(online[..rank]), g);
        ElementsNext(online, rank);
      }
      assert online[..|online|] == online;
      AllPlaced(r, Value(), online);
    }

    method PlaceStarter(g: nat, at: (int, int))
      requires Valid() && g < SLOTS
      modifies fighters, kills, died
      ensures Valid()
      ensures Value() == old(Value()).(
        fighters := old(Value()).fighters[g := Fighter(at.0, at.1, MAX_HEALTH, true, true, false, false)],
        kills := old(Value()).kills[g := 0], died := old(Value()).died[g := false])
    {
      hide PlainName, Database.Valid, Database.Users, Database.AllStats;
      fighters[g] := Fighter(at.0, at.1, MAX_HEALTH, true, true, false, false);
      kills[g] := 0;
      died[g] := false;
    }

    method ClearEmpty()
      requires Valid()
      modifies fighters
      ensures Valid()
      ensures forall g | 0 <= g < SLOTS :: fighters[g] == Emptied(old(Value()), g)
    {
      ghost var r := Value();
      for g := 0 to SLOTS
        invariant Valid()
        invariant forall h | 0 <= h < SLOTS :: fighters[h] == if h < g then Emptied(r, h) else r.fighters[h]
      {
        if slotConn[g] < 0 {
          fighters[g] := fighters[g].(connected := false, alive := false);
        }
      }
    }

    method ClearWeapons()
      requires Valid()
      modifies weapons
      ensures Valid() && forall i | 0 <= i < WEAPONS :: weapons[i] == old(weapons[i]).(active := false)
    {
      for i := 0 to WEAPONS
        invariant Valid()
        invariant forall j | 0 <= j < i :: weapons[j] == old(weapons[j]).(active := false)
        invariant forall j | i <= j < WEAPONS :: weapons[j] == old(weapons[j])
      {
        weapons[i] := weapons[i].(active := false);
      }
    }

    method ResetGame()
      requires Valid()
      modifies Tables() - {db, slotConn, conns}
      ensures Valid() && Value() == Reset(old(Value()))
    {
      ghost var r := Value();
      hide Fresh, Rank, Listed, Placed, Emptied, Online, PlainName, Database.Valid, Database.Users, Database.AllStats;
      var online := ListOnline();
      PlaceStarters(online);
      ghost var s := Value();
      ClearEmpty();
      ClearWeapons();
      started, over, winner := true, false, -1;
      ResetBuilt(r, s, Value());
    }

    // ----- The end of a round -----

    method SaveStats(now: Stamp)
      requires Valid()
      modifies db
      ensures Valid() && Value() == old(Value()).(stats := Saved(old(Value()), SLOTS, now))
    {
      ghost var r := Value();
      hide Recorded, PlainName, Database.Valid, Database.Users, Database.AllStats, NameOf;
      for g := 0 to SLOTS
        invariant Valid() && Value() == r.(stats := Saved(r, g, now))
      {
        SaveSlot(g, now);
        SavedNext(r, g, now);
      }
    }

    /** The results of one slot, if a named connection sits there. */
    method SaveSlot(g: nat, now: Stamp)
      requires Valid() && g < SLOTS
      modifies db
      ensures Valid() && Value() == old(Value()).(stats := SavedSlot(old(Value()), g, now))
    {
      hide Recorded, PlainName, Database.Valid, Database.Users, Database.AllStats;
      var cid := slotConn[g];
      if cid >= 0 {
        var username := NameOf(conns[cid]);
        if username != "" {
          db.UpdateStats(username, winner == cid, kills[g], died[g], now);
        }
      }
    }

    method CheckGameOver(winnerHint: int, now: Stamp)
      requires Valid()
      modifies this, db
      ensures Valid() && Value() == CheckOver(old(Value()), winnerHint, now)
    {
      ghost var r := Value();
      hide Saved, Database.Valid, Database.Users, Database.AllStats, PlainName;
      var alive, last := 0, -1;
      for g := 0 to SLOTS
        invariant alive == CountTo(h => Live(r, h), g) && last == LastLive(r, g)
      {
        if slotConn[g] >= 0 && fighters[g].alive {
          alive := alive + 1;
          last := g;
        }
      }
      CountAll(h => Live(r, h));
      hide Live, LastLive;
      if alive <= 1 && last >= 0 {
        EndRound(slotConn[last], now);
      } else if alive <= 1 && last < 0 {
        EndRound(winnerHint, now);
      }
    }

    method EndRound(cid: int, now: Stamp)
      requires Valid()
      modifies this, db
      ensures Valid() && Value() == Finish(old(Value()), cid, now)
    {
      hide Saved, Database.Valid, Database.Users, Database.AllStats, PlainName;
      over := true;
      winner := cid;
      SaveStats(now);
    }

    method RemoveFromGame(cid: int, now: Stamp)
      requires Valid()
      modifies this, db, slotConn, fighters
      ensures Valid() && Value() == Remove(old(Value()), cid, now)
    {
      ghost var r := Value();
      hide CheckOver, Database.Valid, Database.Users, Database.AllStats, PlainName;
      SlotFromMeans(slotConn[..], cid, 0);
      var g := ConnToGameSlot(cid);
      if g < 0 {
        return;
      }
      fighters[g] := fighters[g].(connected := false, alive := false);
      slotConn[g] := -1;
      assert Value() == Vacated(r, g);
      if started && !over {
        CheckGameOver(-1, now);
      }
      var online := GameOnline();
      if online == 0 {
        started, over := false, false;
      }
    }

    // ----- Actions -----

    method CheckPickup(g: nat)
      requires Valid() && g < SLOTS
      modifies weapons, fighters
      ensures Valid() && Value() == PickUp(old(Value()), g)
    {
      ghost var r := Value();
      for i := 0 to WEAPONS
        invariant Value() == r
        invariant WeaponFrom(r.weapons, r.fighters[g].x, r.fighters[g].y, 0) == WeaponFrom(r.weapons, r.fighters[g].x, r.fighters[g].y, i)
      {
        if weapons[i].active && weapons[i].x == fighters[g].x && weapons[i].y == fighters[g].y {
          weapons[i] := weapons[i].(active := false);
          fighters[g] := fighters[g].(armed := true);
          assert Value() == PickUp(r, g);
          return;
        }
      }
    }

    method FindTarget(g: nat) returns (best: int, bestDist: int)
      requires Valid() && g < SLOTS
      ensures best < 0 <==> Target(Value(), g).None?
      ensures best >= 0 ==> Target(Value(), g) == Some(best) && best < SLOTS
      ensures best >= 0 ==> bestDist == Apart(fighters[g], fighters[best])
    {
      ghost var r := Value();
      hide Apart;
      best, bestDist := -1, -1;
      for h := 0 to SLOTS
        invariant best < 0 ==> best == -1 && forall k | 0 <= k < h && k != g :: !Live(r, k)
        invariant best >= 0 ==> best < h && best != g && Live(r, best) && bestDist == Apart(r.fighters[g], r.fighters[best])
        invariant best >= 0 ==> forall k | 0 <= k < h && k != g && k != best && Live(r, k) :: Closer(r, g, best, k)
      {
        if h != g && slotConn[h] >= 0 && fighters[h].alive {
          var d := Apart(fighters[g], fighters[h]);
          if best < 0 || d < bestDist {
            best, bestDist := h, d;
          }
        }
      }
      if best >= 0 {
        assert IsTarget(r, g, best);
        TargetUnique(r, g, best);
      }
    }

    method AttackFrom(g: nat, now: Stamp)
      requires Valid() && g < SLOTS
      modifies this, db, fighters, kills, died
      ensures Valid() && Value() == Attacked(old(Value()), g, now)
    {
      ghost var r := Value();
      hide CheckOver, Apart, Target, Database.Valid, Database.Users, Database.AllStats, PlainName;
      var t, dist := FindTarget(g);
      if t < 0 {
        return;
      }
      if dist > ATTACK_RANGE {
        return;
      }
      TargetIsOther(r, g, t);
      var dmg := ATTACK_DAMAGE;
      if fighters[g].armed {
        dmg := POWER_DAMAGE;
      }
      fighters[g] := fighters[g].(armed := false);
      fighters[t] := fighters[t].(health := fighters[t].health - dmg);
      assert Value() == Dealt(r, g, t);
      if fighters[t].health <= 0 {
        Fell(g, t);
        CheckGameOver(slotConn[g], now);
      }
    }

    /** The fighter in slot t was killed from slot g. */
    method Fell(g: nat, t: nat)
      requires Valid() && g < SLOTS && t < SLOTS
      modifies fighters, kills, died
      ensures Valid() && Value() == Killed(old(Value()), g, t)
    {
      fighters[t] := fighters[t].(health := 0, alive := false);
      kills[g] := kills[g] + 1;
      var tcid := slotConn[t];
      SlotFromMeans(slotConn[..], tcid, 0);
      if tcid >= 0 {
        var slot := ConnToGameSlot(tcid);
        if slot >= 0 {
          died[slot] := true;
        }
      }
    }

    method ApplyAction(cid: int, a: Action, now: Stamp)
      requires Valid()
      modifies this, db, fighters, weapons, kills, died
      ensures Valid() && Value() == Acted(old(Value()), cid, a, now)
    {
      ghost var r := Value();
      hide Attacked, PickUp, Moved, Database.Valid, Database.Users, Database.AllStats, PlainName;
      if !started || over {
        return;
      }
      SlotFromMeans(slotConn[..], cid, 0);
      var g := ConnToGameSlot(cid);
      if g < 0 {
        return;
      }
      if !fighters[g].alive || slotConn[g] < 0 {
        return;
      }
      if a.Strike? {
        AttackFrom(g, now);
        return;
      }
      Walk(g, a);
      CheckPickup(g);
    }

    method Walk(g: nat, a: Action)
      requires Valid() && g < SLOTS
      modifies fighters
      ensures Valid()
      ensures Value() == old(Value()).(fighters := old(Value()).fighters[g := Moved(old(Value()).fighters[g], a)])
    {
      ghost var r := Value();
      hide Database.Valid, Database.Users, Database.AllStats, PlainName;
      var me := fighters[g];
      match a {
        case Up =>
          if me.y > 0 {
            fighters[g] := me.(y := me.y - 1);
          }
        case Down =>
          if me.y < MAP_H - 1 {
            fighters[g] := me.(y := me.y + 1);
          }
        case Left =>
          if me.x > 0 {
            fighters[g] := me.(x := me.x - 1);
          }
        case Right =>
          if me.x < MAP_W - 1 {
            fighters[g] := me.(x := me.x + 1);
          }
        case _ =>
      }
      assert fighters[..] == r.fighters[g := Moved(me, a)];
    }

    // ----- Weapons -----

    method CellBusy(x: int, y: int) returns (busy: bool)
      requires Valid()
      ensures busy == Busy(Value(), x, y)
    {
      ghost var r := Value();
      for g := 0 to SLOTS
        invariant forall h | 0 <= h < g && Live(r, h) :: r.fighters[h].x != x || r.fighters[h].y != y
      {
        if slotConn[g] >= 0 && fighters[g].alive && fighters[g].x == x && fighters[g].y == y {
          assert Live(r, g);
          return true;
        }
      }
      for i := 0 to WEAPONS
        invariant forall j | 0 <= j < i && r.weapons[j].active :: r.weapons[j].x != x || r.weapons[j].y != y
      {
        if weapons[i].active && weapons[i].x == x && weapons[i].y == y {
          assert r.weapons[i].active;
          return true;
        }
      }
      return false;
    }

    /** The random cells to try are an argument. */
    method SpawnWeapon(tries: Draws)
      requires Valid()
      modifies weapons
      ensures Valid() && Value() == Spawned(old(Value()), tries)
    {
      ghost var r := Value();
      hide Busy;
      var slot := 0;
      while slot < WEAPONS && weapons[slot].active
        invariant slot <= WEAPONS && IdleFrom(r.weapons, 0) == IdleFrom(r.weapons, slot)
      {
        slot := slot + 1;
      }
      if slot == WEAPONS {
        return;
      }
      for i := 0 to SPAWN_TRIES
        invariant Value() == r && Spawned(r, tries) == Spawned(r, tries[i..])
      {
        assert tries[i..][0] == tries[i] && tries[i..][1..] == tries[i + 1..];
        var busy := CellBusy(tries[i].0, tries[i].1);
        if !busy {
          weapons[slot] := Weapon(tries[i].0, tries[i].1, true);
          return;
        }
      }
    }

    // ----- Connections -----

    method Accept()
      requires Valid()
      modifies conns
      ensures Valid() && Value() == Accepted(old(Value()))
    {
      ghost var r := Value();
      for i := 0 to CONNS
        invariant Value() == r && FreeFrom(r.conns, 0) == FreeFrom(r.conns, i)
      {
        if conns[i].Free? {
          conns[i] := Auth(0);
          return;
        }
      }
    }

    method CheckAccount(register: bool, name: string, pw: string, now: Stamp) returns (ok: bool)
      requires Valid()
      modifies db
      ensures Valid() && (ok ==> PlainName(name))
      ensures ok == if register then CanRegister(old(Value()).users, name, pw) else CanLogin(old(Value()).users, name, pw, db.hash)
      ensures Value() == if register then Registered(old(Value()), name, pw, now, db.hash) else old(Value())
    {
      NewNameIsPlain(Value(), name, pw, db.hash);
      hide PlainName, CanRegister, CanLogin, UsersOnFile, StatsOnFile, LoadUsers, LoadStats;
      if register {
        ok := db.RegisterUser(name, pw, now);
      } else {
        ok := db.Login(name, pw);
      }
    }

    method TryAuth(cid: nat, register: bool, name: string, pw: string, now: Stamp)
      requires Valid()
      modifies db, conns
      ensures Valid() && Value() == Tried(old(Value()), Tries(cid, register, name, pw, now), db.hash)
    {
      hide PlainName, CanRegister, CanLogin, Registered, Database.Valid, Database.Users, Database.AllStats;
      if cid >= CONNS || !conns[cid].Auth? {
        return;
      }
      var attempts := conns[cid].attempts + 1;
      var ok := CheckAccount(register, name, pw, now);
      if ok {
        conns[cid] := Lobby(name);
      } else if attempts >= MAX_ATTEMPTS {
        conns[cid] := Closing;
      } else {
        conns[cid] := Auth(attempts);
      }
    }

    method Join(cid: nat)
      requires Valid()
      modifies slotConn, fighters, conns
      ensures Valid() && Value() == Joined(old(Value()), cid)
    {
      ghost var r := Value();
      hide PlainName, Database.Valid, Database.Users, Database.AllStats;
      if cid >= CONNS || !conns[cid].Lobby? {
        return;
      }
      for g := 0 to SLOTS
        invariant Valid() && Value() == r && EmptyFrom(r.slotConn, 0) == EmptyFrom(r.slotConn, g)
      {
        if slotConn[g] < 0 {
          slotConn[g] := cid;
          conns[cid] := Playing(conns[cid].name);
          fighters[g] := NOBODY.(connected := true);
          return;
        }
      }
    }

    method Ready(cid: nat)
      requires Valid()
      modifies Tables() - {db, slotConn, conns}
      ensures Valid() && Value() == Readied(old(Value()), cid)
    {
      ghost var r := Value();
      hide Reset, Online, ReadyCount, PlainName, Database.Valid, Database.Users, Database.AllStats;
      if cid >= CONNS || !conns[cid].Playing? || started {
        return;
      }
      SlotFromMeans(slotConn[..], cid, 0);
      var g := ConnToGameSlot(cid);
      if g >= 0 {
        fighters[g] := fighters[g].(ready := true);
        assert Value() == r.(fighters := r.fighters[g := r.fighters[g].(ready := true)]);
        var rc := GameReady();
        var oc := GameOnline();
        if rc == oc && oc >= 2 {
          ResetGame();
        }
      }
    }

    method Drop(cid: nat, now: Stamp)
      requires Valid()
      modifies this, db, slotConn, fighters, conns
      ensures Valid() && Value() == Dropped(old(Value()), cid, now)
    {
      hide Remove, PlainName, Database.Valid, Database.Users, Database.AllStats;
      if cid >= CONNS || conns[cid].Free? || conns[cid].Closing? {
        return;
      }
      RemoveFromGame(cid, now);
      conns[cid] := Closing;
    }

    method Close(cid: nat)
      requires Valid()
      modifies conns
      ensures Valid() && Value() == Closed(old(Value()), cid)
    {
      hide PlainName, Database.Valid, Database.Users, Database.AllStats;
      if cid < CONNS && conns[cid].Closing? {
        conns[cid] := Free;
      }
    }

    method Act(cid: nat, a: Action, now: Stamp)
      requires Valid()
      modifies Tables()
      ensures Valid() && Value() == Step(old(Value()), Acts(cid, a, now), db.hash)
    {
      hide Acted, PlainName, Database.Valid, Database.Users, Database.AllStats;
      if cid < CONNS && conns[cid].Playing? {
        ApplyAction(cid, a, now);
      }
    }

    method Tick(tries: Draws)
      requires Valid()
      modifies Tables()
      ensures Valid() && Value() == Step(old(Value()), WeaponTick(tries), db.hash)
    {
      hide Spawned, PlainName, Database.Valid, Database.Users, Database.AllStats;
      if started && !over {
        SpawnWeapon(tries);
      }
    }

    /** Any step of the server. */
    method Serve(e: Event)
      requires Valid()
      modifies Tables()
      ensures Valid() && Value() == Step(old(Value()), e, db.hash)
    {
      hide Tried, Joined, Readied, Acted, Dropped, Closed, Spawned, Accepted, Valid, Value;
      match e {
        case Accepts => Accept();
        case Tries(cid, register, name, pw, now) => TryAuth(cid, register, name, pw, now);
        case Joins(cid) => Join(cid);
        case Readies(cid) => Ready(cid);
        case Acts(cid, a, now) => Act(cid, a, now);
        case Drops(cid, now) => Drop(cid, now);
        case Closes(cid) => Close(cid);
        case WeaponTick(tries) => Tick(tries);
      }
    }
  }

  lemma NewNameIsPlain(r: Room, name: string, pw: string, hash: (string, string) -> Hex)
    requires UsersOnFile(r.users)
    ensures CanRegister(r.users, name, pw) || CanLogin(r.users, name, pw, hash) ==> PlainName(name)
  {
    FindUserMeans(r.users, name);
  }

  ghost predicate Closer(r: Room, g: nat, t: nat, h: nat)
    requires g < SLOTS && t < SLOTS && h < SLOTS
  {
    Apart(r.fighters[g], r.fighters[t]) < Apart(r.fighters[g], r.fighters[h])
    || (Apart(r.fighters[g], r.fighters[t]) == Apart(r.fighters[g], r.fighters[h]) && t < h)
  }

  /** The closest opponent is unique, so the order of the scan does not matter. */
  lemma TargetUnique(r: Room, g: nat, t: nat)
    requires g < SLOTS && IsTarget(r, g, t)
    ensures Target(r, g) == Some(t)
  {
    hide Apart;
  }

  lemma TargetIsOther(r: Room, g: nat, t: nat)
    requires g < SLOTS && Target(r, g) == Some(t)
    ensures Live(r, t) && t != g
  {
  }

  /** The records after the results of slot g alone were added. */
  function SavedSlot(r: Room, g: nat, now: string): seq<Stats>
    requires g < SLOTS && Routed(r)
  {
    var cid := r.slotConn[g];
    if cid < 0 || NameOf(r.conns[cid]) == "" then r.stats
    else Recorded(r.stats, NameOf(r.conns[cid]), r.winner == cid, r.kills[g], r.died[g], now)
  }

  lemma SavedNext(r: Room, g: nat, now: string)
    requires g < SLOTS && Routed(r) && Routed(r.(stats := Saved(r, g, now)))
    ensures Saved(r, g + 1, now) == SavedSlot(r.(stats := Saved(r, g, now)), g, now)
  {
    hide Recorded, NameOf;
  }

  /** The occupied slots in order. */
  ghost predicate Listed(r: Room, online: seq<nat>) {
    && |online| == Online(r) <= SLOTS
    && (forall k | 0 <= k < |online| :: online[k] < SLOTS && Occupied(r, online[k]) && Rank(r, online[k]) == k)
    && (forall h: nat | h < SLOTS && Occupied(r, h) :: h in online)
  }

  ghost predicate Placed(r: Room, g: nat, f: Fighter, kills: int, died: bool)
    requires g < SLOTS
  {
    if Occupied(r, g) then f == Fresh(r, g) && kills == 0 && !died else Unplaced(r, g, f, kills, died)
  }

  ghost predicate Unplaced(r: Room, g: nat, f: Fighter, kills: int, died: bool)
    requires g < SLOTS
  {
    f == r.fighters[g] && kills == r.kills[g] && died == r.died[g]
  }

  /** The starters in the set have been placed, all others not. */
  ghost predicate Halfway(r: Room, s: Room, done: set<nat>) {
    forall g: nat | g < SLOTS ::
      if g in done then Placed(r, g, s.fighters[g], s.kills[g], s.died[g]) else Unplaced(r, g, s.fighters[g], s.kills[g], s.died[g])
  }

  lemma NobodyPlaced(r: Room)
    ensures Halfway(r, r, {})
  {
  }

  lemma HalfwayOn(r: Room, s: Room, t: Room, done: set<nat>, g: nat)
    requires Halfway(r, s, done) && g < SLOTS && Occupied(r, g)
    requires t == s.(fighters := s.fighters[g := Fresh(r, g)], kills := s.kills[g := 0], died := s.died[g := false])
    ensures Halfway(r, t, done + {g})
  {
    hide Fresh;
  }

  lemma ListedAt(r: Room, online: seq<nat>, k: nat)
    requires Listed(r, online) && k < |online|
    ensures |online| <= SLOTS && online[k] < SLOTS && Occupied(r, online[k])
    ensures var at := Start(|online|, k); Fresh(r, online[k]) == Fighter(at.0, at.1, MAX_HEALTH, true, true, false, false)
  {
    hide Start, Rank, Online;
  }

  lemma ElementsNext(xs: seq<nat>, k: nat)
    requires k < |xs|
    ensures Elements(xs[..k + 1]) == Elements(xs[..k]) + {xs[k]}
  {
    assert xs[..k + 1] == xs[..k] + [xs[k]];
  }

  lemma AllPlaced(r: Room, s: Room, online: seq<nat>)
    requires Listed(r, online) && Halfway(r, s, Elements(online))
    ensures forall g: nat | g < SLOTS :: Placed(r, g, s.fighters[g], s.kills[g], s.died[g])
  {
    hide Fresh, Rank, Online;
  }

  function Emptied(r: Room, g: nat): Fighter
    requires g < SLOTS
  {
    if r.slotConn[g] < 0 then r.fighters[g].(connected := false, alive := false) else r.fighters[g]
  }

  lemma ClearedIsFresh(r: Room, s: Room, g: nat)
    requires g < SLOTS && s.slotConn == r.slotConn && Placed(r, g, s.fighters[g], s.kills[g], s.died[g])
    ensures Emptied(s, g) == Fresh(r, g)
  {
  }

  /** Once the starters are placed (s) and the rest is cleared (t) the round is reset. */
  lemma ResetBuilt(r: Room, s: Room, t: Room)
    requires s.slotConn == r.slotConn && s.weapons == r.weapons
    requires forall g: nat | g < SLOTS :: Placed(r, g, s.fighters[g], s.kills[g], s.died[g])
    requires forall g: nat | g < SLOTS :: t.fighters[g] == Emptied(s, g)
    requires forall i | 0 <= i < WEAPONS :: t.weapons[i] == s.weapons[i].(active := false)
    requires t == r.(fighters := t.fighters, kills := s.kills, died := s.died, weapons := t.weapons,
                     started := true, over := false, winner := -1)
    ensures t == Reset(r)
  {
    hide Fresh, Emptied;
    forall g: nat | g < SLOTS ensures t.fighters[g] == Fresh(r, g) {
      ClearedIsFresh(r, s, g);
    }
    assert t.fighters == Reset(r).fighters;
    assert t.kills == Reset(r).kills;
    assert t.died == Reset(r).died;
    assert t.weapons == Reset(r).weapons;
  }

  /** The source's two tables give the starting cell of each rank. */
  method StartCell(online: nat, rank: nat) returns (at: (int, int))
    requires rank < online <= SLOTS
    ensures at == Start(online, rank)
  {
    var x0, x1, y0, y1 := 2, MAP_W - 3, 2, MAP_H - 3;
    var candidates := [(x0, y0), (x1, y0), (x0, y1), (x1, y1), ((x0 + x1) / 2, (y0 + y1) / 2)];
    var order := [[4, 0, 0, 0, 0], [0, 3, 0, 0, 0], [0, 3, 4, 0, 0], [0, 1, 2, 3, 0], [0, 1, 2, 3, 4]];
    at := candidates[order[online - 1][rank]];
  }

  lemma RankIsOnline(r: Room)
    ensures Rank(r, SLOTS) == Online(r) <= SLOTS
  {
    assert Rank(r, 1) == One(Occupied(r, 0));
    assert Rank(r, 2) == Rank(r, 1) + One(Occupied(r, 1));
    assert Rank(r, 3) == Rank(r, 2) + One(Occupied(r, 2));
    assert Rank(r, 4) == Rank(r, 3) + One(Occupied(r, 3));
    assert Rank(r, 5) == Rank(r, 4) + One(Occupied(r, 4));
  }

  ghost function CountTo(p: int -> bool, n: nat): nat {
    if n == 0 then 0 else CountTo(p, n - 1) + One(p(n - 1))
  }

  lemma CountAll(p: int -> bool)
    ensures CountTo(p, SLOTS) == One(p(0)) + One(p(1)) + One(p(2)) + One(p(3)) + One(p(4))
  {
    assert CountTo(p, 1) == One(p(0));
    assert CountTo(p, 2) == CountTo(p, 1) + One(p(1));
    assert CountTo(p, 3) == CountTo(p, 2) + One(p(2));
    assert CountTo(p, 4) == CountTo(p, 3) + One(p(3));
  }
}
