/** What an action does in the warzone, in cells and points of health, and how many strong strikes the
    weapons of a round allow. */
module WarzoneEffects {
  import opened Basics
  import opened WarzoneDatabase
  import opened WarzoneAccounts
  import opened WarzoneModel
  import opened WarzoneRounds

  /** The connection plays from slot g, in a round underway, and its fighter is alive. */
  ghost predicate Acting(r: Room, cid: nat, g: nat) {
    && Seated(r) && Manned(r) && Underway(r) && cid < CONNS && r.conns[cid].Playing?
    && g < SLOTS && r.slotConn[g] == cid && r.fighters[g].alive
  }

  ghost function Gap(r: Room, g: nat, t: nat): nat
    requires g < SLOTS && t < SLOTS
  {
    Abs(r.fighters[g].x - r.fighters[t].x) + Abs(r.fighters[g].y - r.fighters[t].y)
  }

  /** The opponent that a strike from slot g hits: at most three steps away, and no other live opponent is
      nearer, or as near in a lower slot. */
  ghost predicate InReach(r: Room, g: nat, t: nat)
    requires g < SLOTS
  {
    && t < SLOTS && Live(r, t) && t != g && Gap(r, g, t) <= 3
    && forall h: nat | h < SLOTS && Live(r, h) && h != g && h != t ::
         Gap(r, g, t) < Gap(r, g, h) || (Gap(r, g, t) == Gap(r, g, h) && t < h)
  }

  function Damage(armed: bool): int {
    if armed then 30 else 15
  }

  lemma ReachIsStruck(r: Room, g: nat, t: nat)
    requires g < SLOTS
    ensures InReach(r, g, t) <==> Struck(r, g) == Some(t)
  {
    assert forall h: nat | h < SLOTS :: Gap(r, g, h) == Apart(r.fighters[g], r.fighters[h]);
    if InReach(r, g, t) {
      assert IsTarget(r, g, t);
      OneTarget(r, g, t);
    }
  }

  lemma OneTarget(r: Room, g: nat, t: nat)
    requires g < SLOTS && IsTarget(r, g, t)
    ensures Target(r, g) == Some(t)
  {
    hide Apart;
  }

  /** Somebody is hit exactly when a live opponent is at most three steps away. */
  lemma StrikeFinds(r: Room, g: nat)
    requires g < SLOTS
    ensures (exists t: nat :: t < SLOTS && Live(r, t) && t != g && Gap(r, g, t) <= 3) <==> exists t: nat :: InReach(r, g, t)
  {
    if t0: nat :| t0 < SLOTS && Live(r, t0) && t0 != g && Gap(r, g, t0) <= 3 {
      var t := NearestOf(r, g, SLOTS, t0);
      assert InReach(r, g, t);
    }
  }

  lemma {:induction false} NearestOf(r: Room, g: nat, n: nat, t0: nat) returns (t: nat)
    requires g < SLOTS && n <= SLOTS && t0 < n && Live(r, t0) && t0 != g
    ensures t < n && Live(r, t) && t != g && Gap(r, g, t) <= Gap(r, g, t0)
    ensures forall h: nat | h < n && Live(r, h) && h != g && h != t ::
      Gap(r, g, t) < Gap(r, g, h) || (Gap(r, g, t) == Gap(r, g, h) && t < h)
    decreases n
  {
    hide Live, Gap;
    var last := n - 1;
    if others: nat :| others < last && Live(r, others) && others != g && (t0 == last || others == t0) {
      t := NearestOf(r, g, last, others);
      if Live(r, last) && last != g && Gap(r, g, last) < Gap(r, g, t) {
        t := last;
      }
    } else {
      t := t0;
    }
  }

  // ----- Strikes -----

  lemma ActingCan(r: Room, cid: nat, g: nat)
    requires Acting(r, cid, g)
    ensures Routed(r) && CanAct(r, cid) && SlotOf(r, cid) == g && Live(r, g)
  {
    SlotOfMeans(r, cid);
  }

  lemma ActingIs(r: Room, cid: nat, g: nat, a: Action, now: Stamp, hash: (string, string) -> Hex)
    requires Acting(r, cid, g)
    ensures Routed(r)
    ensures Step(r, Acts(cid, a, now), hash) == if a.Strike? then Attacked(r, g, now) else Walked(r, g, a)
  {
    ActingCan(r, cid, g);
    hide Seated, Manned, Attacked, PickUp, Moved, SlotOf;
  }

  /** A strike takes 30 points if the striker is armed and 15 if not, and spends the weapon; nothing else
      changes when the victim has more than that. */
  lemma StrikeWounds(r: Room, cid: nat, g: nat, t: nat, now: Stamp, hash: (string, string) -> Hex)
    requires Acting(r, cid, g) && InReach(r, g, t) && r.fighters[t].health > Damage(r.fighters[g].armed)
    ensures Routed(r)
    ensures var d := Step(r, Acts(cid, Strike, now), hash);
      && d == r.(fighters := d.fighters)
      && d.fighters[g] == r.fighters[g].(armed := false)
      && d.fighters[t] == r.fighters[t].(health := d.fighters[t].health)
      && r.fighters[t].health - d.fighters[t].health == Damage(r.fighters[g].armed)
      && forall h | 0 <= h < SLOTS && h != g && h != t :: d.fighters[h] == r.fighters[h]
  {
    ActingIs(r, cid, g, Strike, now, hash);
    ReachIsStruck(r, g, t);
    hide Step, Acting, InReach, Struck, CheckOver, Killed;
  }

  /** A strike that takes all the victim has: it dies and counts as dead, the striker has one kill more and
      no weapon, and if two were left the round is over and the striker has won. */
  lemma StrikeKills(r: Room, cid: nat, g: nat, t: nat, now: Stamp, hash: (string, string) -> Hex)
    requires Acting(r, cid, g) && InReach(r, g, t) && r.fighters[t].health <= Damage(r.fighters[g].armed)
    ensures Routed(r)
    ensures var d := Step(r, Acts(cid, Strike, now), hash);
      && d == r.(fighters := d.fighters, kills := r.kills[g := r.kills[g] + 1], died := r.died[t := true],
                 over := LiveCount(r) == 2, winner := d.winner, stats := d.stats)
      && d.fighters[g] == r.fighters[g].(armed := false)
      && d.fighters[t] == r.fighters[t].(health := 0, alive := false)
      && (forall h | 0 <= h < SLOTS && h != g && h != t :: d.fighters[h] == r.fighters[h])
      && (if LiveCount(r) == 2 then d.winner == cid else d.winner == r.winner && d.stats == r.stats)
  {
    hide *;
    ActingIs(r, cid, g, Strike, now, hash);
    ActingCan(r, cid, g);
    KillShape(r, cid, g, t);
    KillIs(r, cid, g, t, now);
    var k := Slain(r, g, t);
    KillCounts(r, k, g, t);
    LastStanding(k, g, cid, now);
    UnderwayIs(r, cid, g);
    KillSettles(r, k, CheckOver(k, cid, now), g, t, cid);
  }

  lemma UnderwayIs(r: Room, cid: nat, g: nat)
    requires Acting(r, cid, g)
    ensures r.started && !r.over && |r.fighters| == SLOTS && Strike.Strike?
  {
  }

  lemma KillSettles(r: Room, k: Room, d: Room, g: nat, t: nat, cid: nat)
    requires g < SLOTS && t < SLOTS && g != t && !r.over
    requires k == r.(fighters := k.fighters, kills := r.kills[g := r.kills[g] + 1], died := r.died[t := true])
    requires k.fighters == r.fighters[g := r.fighters[g].(armed := false)][t := r.fighters[t].(health := 0, alive := false)]
    requires LiveCount(k) == LiveCount(r) - 1 && LiveCount(r) >= 2
    requires d == k.(over := d.over, winner := d.winner, stats := d.stats)
    requires if LiveCount(k) <= 1 then d.over && d.winner == cid else d == k
    ensures d == r.(fighters := d.fighters, kills := r.kills[g := r.kills[g] + 1], died := r.died[t := true],
                    over := LiveCount(r) == 2, winner := d.winner, stats := d.stats)
    ensures d.fighters[g] == r.fighters[g].(armed := false)
    ensures d.fighters[t] == r.fighters[t].(health := 0, alive := false)
    ensures forall h | 0 <= h < SLOTS && h != g && h != t :: d.fighters[h] == r.fighters[h]
    ensures if LiveCount(r) == 2 then d.winner == cid else d.winner == r.winner && d.stats == r.stats
  {
    hide LiveCount;
  }

  lemma KillIs(r: Room, cid: nat, g: nat, t: nat, now: Stamp)
    requires Acting(r, cid, g) && InReach(r, g, t) && r.fighters[t].health <= Damage(r.fighters[g].armed)
    ensures Routed(r) && Routed(Slain(r, g, t)) && Attacked(r, g, now) == CheckOver(Slain(r, g, t), cid, now)
  {
    ActingCan(r, cid, g);
    ReachIsStruck(r, g, t);
    KillShape(r, cid, g, t);
    hide Struck, CheckOver, Manned, Seated, InReach, Killed, Dealt;
  }

  lemma KillCounts(r: Room, k: Room, g: nat, t: nat)
    requires g < SLOTS && t < SLOTS && g != t && Live(r, g) && Live(r, t) && k.slotConn == r.slotConn
    requires k.fighters == r.fighters[g := r.fighters[g].(armed := false)][t := r.fighters[t].(health := 0, alive := false)]
    ensures LiveCount(k) == LiveCount(r) - 1 && LiveCount(r) >= 2
  {
    assert forall h | 0 <= h < SLOTS && h != t :: Live(k, h) == Live(r, h);
    assert !Live(k, t);
    hide Live;
  }

  lemma KillShape(r: Room, cid: nat, g: nat, t: nat)
    requires Acting(r, cid, g) && InReach(r, g, t) && r.fighters[t].health <= Damage(r.fighters[g].armed)
    ensures g < SLOTS && t < SLOTS && g != t && Dealt(r, g, t).fighters[t].health <= 0
    ensures var k := Slain(r, g, t);
      && k == r.(fighters := k.fighters, kills := r.kills[g := r.kills[g] + 1], died := r.died[t := true])
      && k.fighters == r.fighters[g := r.fighters[g].(armed := false)][t := r.fighters[t].(health := 0, alive := false)]
      && Routed(k) && Live(k, g) && Live(r, g) && Live(r, t) && g != t && k.slotConn[g] == cid && k.slotConn == r.slotConn
  {
    SlotOfMeans(r, r.slotConn[t]);
    hide SlotOf, Gap, Healthy;
  }

  /** With one fighter left the round is over and its connection the winner; with more nothing happens. */
  lemma LastStanding(k: Room, g: nat, cid: nat, now: Stamp)
    requires Routed(k) && g < SLOTS && Live(k, g) && k.slotConn[g] == cid
    ensures var f := CheckOver(k, cid, now);
      && f == k.(over := f.over, winner := f.winner, stats := f.stats)
      && (if LiveCount(k) <= 1 then f.over && f.winner == cid else f == k)
  {
    CheckOverFrame(k, cid, now);
    if LiveCount(k) <= 1 {
      var last := LastLive(k, SLOTS);
      assert last == g by {
        assert last >= g;
        hide LastLive, CheckOver;
      }
      hide LastLive, LiveCount, Saved;
    }
    hide LastLive, LiveCount, Saved;
  }

  /** Without an opponent in reach a strike does nothing: the weapon is kept. */
  lemma StrikeMisses(r: Room, cid: nat, g: nat, now: Stamp, hash: (string, string) -> Hex)
    requires Acting(r, cid, g) && forall t: nat | t < SLOTS && Live(r, t) && t != g :: Gap(r, g, t) > 3
    ensures Routed(r) && Step(r, Acts(cid, Strike, now), hash) == r
  {
    ActingIs(r, cid, g, Strike, now, hash);
    assert Struck(r, g) == None by {
      if Struck(r, g).Some? {
        ReachIsStruck(r, g, Struck(r, g).value);
      }
    }
    hide Step, Acting, Struck;
  }

  /** Whoever is not in a round underway, or not alive in it, does nothing by acting. */
  lemma IdleAction(r: Room, cid: nat, a: Action, now: Stamp, hash: (string, string) -> Hex)
    requires Routed(r) && Seated(r) && forall g: nat :: !(g < SLOTS && r.slotConn[g] == cid && r.fighters[g].alive && Underway(r))
    ensures Step(r, Acts(cid, a, now), hash) == r
  {
    SlotOfMeans(r, cid);
    hide Seated, SlotOf, Attacked, PickUp;
  }

  // ----- Moves -----

  /** Where a move leads on the map of 36 by 12 cells: rows are counted downwards, and the edge stops it. */
  predicate Leads(a: Action, x: int, y: int, x': int, y': int) {
    match a
    case Up => x' == x && y' == if y == 0 then 0 else y - 1
    case Down => x' == x && y' == if y == 11 then 11 else y + 1
    case Left => y' == y && x' == if x == 0 then 0 else x - 1
    case Right => y' == y && x' == if x == 35 then 35 else x + 1
    case _ => x' == x && y' == y
  }

  ghost predicate WeaponAt(r: Room, i: nat, x: int, y: int) {
    i < WEAPONS && r.weapons[i].active && r.weapons[i].x == x && r.weapons[i].y == y
  }

  /** A move leads its fighter one cell on; a weapon that lies there is taken and arms it. */
  lemma MoveWalks(r: Room, cid: nat, g: nat, a: Action, now: Stamp, hash: (string, string) -> Hex, x: int, y: int)
    requires Acting(r, cid, g) && !a.Strike? && Leads(a, r.fighters[g].x, r.fighters[g].y, x, y)
    ensures Routed(r)
    ensures var d := Step(r, Acts(cid, a, now), hash);
      && d == r.(fighters := r.fighters[g := d.fighters[g]], weapons := d.weapons)
      && d.fighters[g] == r.fighters[g].(x := x, y := y, armed := d.fighters[g].armed)
      && (if exists i: nat :: WeaponAt(r, i, x, y)
          then d.fighters[g].armed
            && exists i: nat :: WeaponAt(r, i, x, y) && d.weapons == r.weapons[i := r.weapons[i].(active := false)]
          else d.fighters[g].armed == r.fighters[g].armed && d.weapons == r.weapons)
  {
    ActingIs(r, cid, g, a, now, hash);
    OnTheMap(r, cid, g);
    hide Step, Acting, Seated, Manned;
    var t := r.(fighters := r.fighters[g := Moved(r.fighters[g], a)]);
    assert t.fighters[g] == r.fighters[g].(x := x, y := y);
    hide Moved;
    var k := WeaponFrom(t.weapons, x, y, 0);
    if k >= 0 {
      assert WeaponAt(r, k, x, y);
    } else {
      assert forall i: nat :: !WeaponAt(r, i, x, y);
    }
    hide WeaponFrom;
  }

  lemma OnTheMap(r: Room, cid: nat, g: nat)
    requires Acting(r, cid, g)
    ensures 0 <= r.fighters[g].x < MAP_W && 0 <= r.fighters[g].y < MAP_H
  {
    hide Seated;
  }

  // ----- The lobby -----

  /** Login succeeds exactly when the first record of the name has the hash of the password. */
  ghost predicate Opens(users: seq<User>, name: string, pw: string, hash: (string, string) -> Hex) {
    exists i: nat :: i < |users| && users[i].name == name && users[i].hash == hash(name, pw)
      && forall j | 0 <= j < i :: users[j].name != name
  }

  lemma {:induction false} FirstRecord(users: seq<User>, name: string) returns (i: nat)
    ensures i <= |users| && (forall j | 0 <= j < i :: users[j].name != name)
    ensures if i < |users| then users[i].name == name && FindUser(users, name) == Some(users[i]) else FindUser(users, name) == None
  {
    if users == [] || users[0].name == name {
      i := 0;
    } else {
      var k := FirstRecord(users[1..], name);
      i := k + 1;
    }
  }

  lemma OpensIs(users: seq<User>, name: string, pw: string, hash: (string, string) -> Hex)
    ensures CanLogin(users, name, pw, hash) <==> Opens(users, name, pw, hash)
  {
    var i := FirstRecord(users, name);
    hide FindUser;
    if CanLogin(users, name, pw, hash) {
      assert i < |users|;
    }
  }

  /** A login attempt changes nothing but the phase of its connection: to the lobby if the password opens the
      account, and closed after the tenth failure. */
  lemma LoginAttempt(r: Room, cid: nat, name: string, pw: string, now: Stamp, hash: (string, string) -> Hex, failures: nat)
    requires Routed(r) && cid < CONNS && r.conns[cid] == Auth(failures)
    ensures var d := Step(r, Tries(cid, false, name, pw, now), hash);
      d == r.(conns := r.conns[cid :=
        if Opens(r.users, name, pw, hash) then Lobby(name)
        else if failures < 9 then Auth(failures + 1) else Closing])
  {
    OpensIs(r.users, name, pw, hash);
    hide Opens, CanLogin;
  }

  /** An accepted connection takes the first free entry of the table, with all attempts before it. */
  lemma AcceptOpens(r: Room, cid: nat, hash: (string, string) -> Hex)
    requires Routed(r) && cid < CONNS && r.conns[cid].Free? && forall c | 0 <= c < cid :: !r.conns[c].Free?
    ensures Step(r, Accepts, hash) == r.(conns := r.conns[cid := Auth(0)])
  {
    FreeIs(r.conns, 0, cid);
  }

  lemma {:induction false} FreeIs(conns: seq<Conn>, i: nat, cid: nat)
    requires i <= cid < |conns| && conns[cid].Free? && forall c | i <= c < cid :: !conns[c].Free?
    ensures FreeFrom(conns, i) == cid
    decreases cid - i
  {
    if i < cid {
      FreeIs(conns, i + 1, cid);
    }
  }

  /** The room after these login attempts of one connection. */
  ghost function Attempts(r: Room, cid: nat, pws: seq<(string, string)>, now: Stamp, hash: (string, string) -> Hex): Room
    requires Routed(r)
    decreases |pws|
  {
    if pws == [] then r
    else
      var d := Step(r, Tries(cid, false, pws[0].0, pws[0].1, now), hash);
      if Routed(d) then Attempts(d, cid, pws[1..], now, hash) else d
  }

  /** A new connection may fail nine times and try once more; the tenth failure closes it. */
  lemma {:induction false} TenFailures(r: Room, cid: nat, pws: seq<(string, string)>, now: Stamp, hash: (string, string) -> Hex, failed: nat)
    requires Routed(r) && cid < CONNS && r.conns[cid] == Auth(failed) && failed + |pws| <= 10 && failed < 10
    requires forall k | 0 <= k < |pws| :: !Opens(r.users, pws[k].0, pws[k].1, hash)
    ensures Attempts(r, cid, pws, now, hash)
      == r.(conns := r.conns[cid := if failed + |pws| == 10 then Closing else Auth(failed + |pws|)])
    decreases |pws|
  {
    hide Opens, Step;
    if pws == [] {
      assert r.conns == r.conns[cid := r.conns[cid]];
    } else {
      LoginAttempt(r, cid, pws[0].0, pws[0].1, now, hash, failed);
      var d := Step(r, Tries(cid, false, pws[0].0, pws[0].1, now), hash);
      assert Routed(d);
      if failed < 9 {
        assert forall k | 0 <= k < |pws| - 1 :: pws[1..][k] == pws[k + 1];
        TenFailures(d, cid, pws[1..], now, hash, failed + 1);
      } else {
        assert pws[1..] == [];
      }
    }
  }

  /** Everybody in the room is ready once the asker is, and there are two or more. */
  ghost predicate AllSet(r: Room, g: nat) {
    && (forall h | Occupied(r, h) && h != g :: r.fighters[h].ready)
    && exists h, k :: h != k && Occupied(r, h) && Occupied(r, k)
  }

  lemma ReadyMeans(r: Room)
    ensures ReadyCount(r) == Online(r) <==> forall h | Occupied(r, h) :: r.fighters[h].ready
    ensures Online(r) >= 2 <==> exists h, k :: h != k && Occupied(r, h) && Occupied(r, k)
  {
    OnlineTwo(r);
    hide Occupied;
    assert forall h | Occupied(r, h) :: 0 <= h < SLOTS by { OccupiedIn(r); }
    assert forall h :: Prepared(r, h) ==> Occupied(r, h);
    if forall h | Occupied(r, h) :: r.fighters[h].ready {
      assert forall h :: Prepared(r, h) <==> Occupied(r, h);
    } else {
      var h :| Occupied(r, h) && !r.fighters[h].ready;
      assert !Prepared(r, h);
      assert h == 0 || h == 1 || h == 2 || h == 3 || h == 4;
    }
  }

  lemma OccupiedIn(r: Room)
    ensures forall h | Occupied(r, h) :: 0 <= h < SLOTS
  {
  }

  lemma OnlineTwo(r: Room)
    ensures Online(r) >= 2 <==> exists h, k :: h != k && Occupied(r, h) && Occupied(r, k)
  {
    OccupiedIn(r);
    hide Occupied;
    if Online(r) >= 2 {
      var h := if Occupied(r, 0) then 0 else if Occupied(r, 1) then 1 else if Occupied(r, 2) then 2 else 3;
      var k := if Occupied(r, 4) then 4 else if Occupied(r, 3) then 3 else if Occupied(r, 2) then 2 else 1;
      assert h != k && Occupied(r, h) && Occupied(r, k);
    }
    if h, k :| h != k && Occupied(r, h) && Occupied(r, k) {
      assert 0 <= h < SLOTS && 0 <= k < SLOTS;
    }
  }

  lemma AllSetMeans(r: Room, g: nat)
    requires g < SLOTS && Occupied(r, g)
    ensures var s := Flagged(r, g); AllSet(r, g) <==> ReadyCount(s) == Online(s) && Online(s) >= 2
  {
    var s := Flagged(r, g);
    ReadyMeans(s);
    assert forall h :: Occupied(s, h) == Occupied(r, h);
    assert forall h | Occupied(r, h) && h != g :: s.fighters[h] == r.fighters[h];
    hide Online, ReadyCount;
  }

  lemma ReadyIs(r: Room, cid: nat, g: nat, hash: (string, string) -> Hex)
    requires Routed(r) && Seated(r) && !r.started && cid < CONNS && r.conns[cid].Playing? && g < SLOTS
          && r.slotConn[g] == cid
    ensures Occupied(r, g)
    ensures var s := Flagged(r, g);
      Step(r, Readies(cid), hash) == if ReadyCount(s) == Online(s) && Online(s) >= 2 then Reset(s) else s
  {
    SlotOfMeans(r, cid);
    hide Seated, SlotOf, ReadyCount, Online, Reset;
  }

  lemma FlaggedRest(r: Room, g: nat)
    requires g < SLOTS
    ensures var s := Flagged(r, g);
      && s.started == r.started && s.conns == r.conns && s.slotConn == r.slotConn
      && Reset(s).started && Reset(s).conns == r.conns && Reset(s).slotConn == r.slotConn
  {
    hide Fresh;
  }

  /** Asking for a round starts one exactly when the room is all set. */
  lemma ReadyStarts(r: Room, cid: nat, g: nat, hash: (string, string) -> Hex)
    requires Routed(r) && Seated(r) && !r.started && cid < CONNS && r.conns[cid].Playing? && g < SLOTS
          && r.slotConn[g] == cid
    ensures var d := Step(r, Readies(cid), hash);
      d.started == AllSet(r, g) && d.conns == r.conns && d.slotConn == r.slotConn && (!d.started ==> d == Flagged(r, g))
  {
    hide *;
    ReadyIs(r, cid, g, hash);
    AllSetMeans(r, g);
    FlaggedRest(r, g);
  }

  /** Where the fighters of a round of so many start, by their rank among the occupied slots. */
  function StartCells(n: nat): seq<(int, int)> {
    if n == 2 then [(2, 2), (33, 9)]
    else if n == 3 then [(2, 2), (33, 9), (17, 5)]
    else [(2, 2), (33, 2), (2, 9), (33, 9), (17, 5)]
  }

  /** How many slots before g are occupied. */
  function Before(r: Room, g: nat): nat
    requires g <= SLOTS
  {
    |set h: nat | h < g && Occupied(r, h)|
  }

  lemma {:induction false} RankIsBefore(r: Room, g: nat)
    requires g <= SLOTS
    ensures Rank(r, g) == Before(r, g)
  {
    if g > 0 {
      RankIsBefore(r, g - 1);
      var a, b := set h: nat | h < g - 1 && Occupied(r, h), set h: nat | h < g && Occupied(r, h);
      if Occupied(r, g - 1) {
        assert b == a + {g - 1};
      } else {
        assert b == a;
      }
    } else {
      assert (set h: nat | h < 0 && Occupied(r, h)) == {};
    }
  }

  lemma RankBelow(r: Room, g: nat)
    requires g < SLOTS && Occupied(r, g)
    ensures Rank(r, g) < Online(r) <= 5
  {
    OnlineIs(r);
    RanksGrow(r, g, SLOTS);
  }

  lemma StartIs(n: nat, k: nat)
    requires 2 <= n <= 5 && k < n
    ensures k < |StartCells(n)| && Start(n, k) == StartCells(n)[k]
  {
  }

  /** Slot h at the start of a round: its fighter is alive in full health on the starting cell of its rank,
      unarmed and not ready, without kills and death; an empty slot has nobody alive. */
  ghost predicate Begins(r: Room, d: Room, h: nat)
    requires h < SLOTS
  {
    if Occupied(r, h) then
      && Before(r, h) < |StartCells(Online(r))| && d.kills[h] == 0 && !d.died[h]
      && (var at := StartCells(Online(r))[Before(r, h)];
          d.fighters[h] == Fighter(at.0, at.1, 100, true, true, false, false))
    else !d.fighters[h].alive
  }

  lemma ResetBegins(r: Room, h: nat)
    requires h < SLOTS && Online(r) >= 2
    ensures Begins(r, Reset(r), h)
  {
    if Occupied(r, h) {
      RankIsBefore(r, h);
      RankBelow(r, h);
      StartIs(Online(r), Rank(r, h));
    }
    hide Rank, Online, Start, StartCells, Before;
    assert Reset(r).fighters[h] == Fresh(r, h);
  }

  /** A round begins like that in every slot, with no weapon lying and the files untouched. */
  lemma RoundBegins(r: Room, cid: nat, g: nat, hash: (string, string) -> Hex)
    requires Routed(r) && Seated(r) && !r.started && cid < CONNS && r.conns[cid].Playing? && g < SLOTS
          && r.slotConn[g] == cid
    requires AllSet(r, g)
    ensures var d := Step(r, Readies(cid), hash);
      && d.started && !d.over && d.winner == -1 && d.stats == r.stats && d.users == r.users
      && (forall i | 0 <= i < WEAPONS :: !d.weapons[i].active)
      && forall h: nat | h < SLOTS :: Begins(r, d, h)
  {
    hide *;
    ReadyBegins(r, cid, g, hash);
    var s := Flagged(r, g);
    ResetRest(s);
    SameSeats(r, g, 0);
    forall h: nat | h < SLOTS ensures Begins(r, Reset(s), h) {
      SameSeats(r, g, h);
      ResetBegins(s, h);
      BeginsSame(r, s, Reset(s), h);
    }
  }

  lemma ResetRest(r: Room)
    ensures var d := Reset(r);
      && d.started && !d.over && d.winner == -1 && d.stats == r.stats && d.users == r.users
      && forall i | 0 <= i < WEAPONS :: !d.weapons[i].active
  {
    hide Fresh;
  }

  lemma BeginsSame(r: Room, s: Room, d: Room, h: nat)
    requires h < SLOTS && Begins(s, d, h) && Occupied(s, h) == Occupied(r, h) && Online(s) == Online(r)
          && Before(s, h) == Before(r, h)
    ensures Begins(r, d, h)
  {
    hide Online, Before, StartCells;
  }

  lemma ReadyBegins(r: Room, cid: nat, g: nat, hash: (string, string) -> Hex)
    requires Routed(r) && Seated(r) && !r.started && cid < CONNS && r.conns[cid].Playing? && g < SLOTS
          && r.slotConn[g] == cid
    requires AllSet(r, g)
    ensures Step(r, Readies(cid), hash) == Reset(Flagged(r, g)) && Online(r) >= 2
  {
    hide *;
    ReadyIs(r, cid, g, hash);
    AllSetMeans(r, g);
    SameSeats(r, g, 0);
  }

  lemma SameSeats(r: Room, g: nat, h: nat)
    requires g < SLOTS && h < SLOTS
    ensures var s := Flagged(r, g);
      && Occupied(s, h) == Occupied(r, h) && Online(s) == Online(r) && Before(s, h) == Before(r, h)
      && s.stats == r.stats && s.users == r.users && s.slotConn == r.slotConn
  {
    var s := Flagged(r, g);
    assert forall k :: Occupied(s, k) == Occupied(r, k);
    assert (set k: nat | k < h && Occupied(s, k)) == (set k: nat | k < h && Occupied(r, k));
  }

  // ----- Weapons -----

  /** Somebody alive stands on the cell or a weapon lies there. */
  ghost predicate TakenCell(r: Room, x: int, y: int) {
    (exists g: nat :: g < SLOTS && Live(r, g) && r.fighters[g].x == x && r.fighters[g].y == y)
    || exists i: nat :: WeaponAt(r, i, x, y)
  }

  lemma TakenIsBusy(r: Room, x: int, y: int)
    ensures TakenCell(r, x, y) <==> Busy(r, x, y)
  {
    if i :| 0 <= i < WEAPONS && r.weapons[i].active && r.weapons[i].x == x && r.weapons[i].y == y {
      assert WeaponAt(r, i, x, y);
    }
  }

  /** A tick of the weapon ticker puts one weapon on the first of its cells that is free, if fewer than six
      lie there. */
  lemma {:induction false} SpawnPuts(r: Room, tries: seq<(int, int)>, k: nat)
    requires k <= |tries| && forall j | 0 <= j < k :: TakenCell(r, tries[j].0, tries[j].1)
    requires k < |tries| ==> !TakenCell(r, tries[k].0, tries[k].1)
    ensures var d := Spawned(r, tries);
      if k < |tries| && exists i :: 0 <= i < WEAPONS && !r.weapons[i].active
      then exists i :: 0 <= i < WEAPONS && !r.weapons[i].active
             && d == r.(weapons := r.weapons[i := Weapon(tries[k].0, tries[k].1, true)])
      else d == r
    decreases |tries|
  {
    IdleIs(r.weapons, 0);
    hide TakenCell, Busy, IdleFrom;
    if tries != [] {
      TakenIsBusy(r, tries[0].0, tries[0].1);
      if k > 0 {
        assert forall j | 0 <= j < k - 1 :: tries[1..][j] == tries[j + 1];
        SpawnPuts(r, tries[1..], k - 1);
      }
    }
  }

  lemma {:induction false} IdleIs(weapons: seq<Weapon>, i: nat)
    requires i <= |weapons|
    ensures var k := IdleFrom(weapons, i); if k < 0 then forall j | i <= j < |weapons| :: weapons[j].active else !weapons[k].active
    decreases |weapons| - i
  {
    if i < |weapons| && weapons[i].active {
      IdleIs(weapons, i + 1);
    }
  }

  // ----- Strong strikes -----

  predicate Armed(r: Room, g: int) {
    Live(r, g) && r.fighters[g].armed
  }

  function ArmedCount(r: Room): nat {
    One(Armed(r, 0)) + One(Armed(r, 1)) + One(Armed(r, 2)) + One(Armed(r, 3)) + One(Armed(r, 4))
  }

  function Lying(r: Room): nat {
    One(r.weapons[0].active) + One(r.weapons[1].active) + One(r.weapons[2].active)
    + One(r.weapons[3].active) + One(r.weapons[4].active) + One(r.weapons[5].active)
  }

  /** The event is a strike of 30 points. */
  ghost predicate Strong(r: Room, e: Event) {
    Lands(r, e) && r.fighters[SlotOf(r, e.cid)].armed
  }

  /** The event is a move onto a weapon. */
  ghost predicate Takes(r: Room, e: Event) {
    && e.Acts? && !e.action.Strike? && e.cid < CONNS && r.conns[e.cid].Playing? && CanAct(r, e.cid)
    && (var f := Moved(r.fighters[SlotOf(r, e.cid)], e.action); exists i: nat :: WeaponAt(r, i, f.x, f.y))
  }

  lemma FewerArmed(r: Room, s: Room)
    requires forall g | Armed(s, g) :: Armed(r, g)
    ensures ArmedCount(s) <= ArmedCount(r)
  {
    hide Armed;
  }

  lemma OneFewerArmed(r: Room, s: Room, g: nat)
    requires (forall h | Armed(s, h) :: Armed(r, h)) && g < SLOTS && Armed(r, g) && !Armed(s, g)
    ensures ArmedCount(s) < ArmedCount(r)
  {
    hide Armed;
  }

  lemma OneMoreArmed(r: Room, s: Room, g: nat)
    requires g < SLOTS && forall h | Armed(s, h) && h != g :: Armed(r, h)
    ensures ArmedCount(s) <= ArmedCount(r) + 1
  {
    hide Armed;
  }

  /** A strong strike costs an armed fighter; only taking a weapon brings one. */
  ghost predicate Paid(r: Room, s: Room, strong: bool, takes: bool) {
    One(strong) + ArmedCount(s) <= One(takes) + ArmedCount(r)
  }

  lemma DealtArmed(r: Room, g: nat, s: Room)
    requires g < SLOTS && |s.fighters| == SLOTS && s.slotConn == r.slotConn && !s.fighters[g].armed
    requires forall h | 0 <= h < SLOTS && h != g ::
      s.fighters[h].armed == r.fighters[h].armed && (s.fighters[h].alive ==> r.fighters[h].alive)
    requires Live(r, g)
    ensures Paid(r, s, r.fighters[g].armed, false)
  {
    assert forall h | Armed(s, h) :: Armed(r, h);
    if r.fighters[g].armed {
      OneFewerArmed(r, s, g);
    } else {
      FewerArmed(r, s);
    }
    hide ArmedCount;
  }

  lemma ActorMeans(m: Match, e: Event)
    requires Sound(m) && e.Acts? && e.cid < CONNS && m.room.conns[e.cid].Playing? && CanAct(m.room, e.cid)
    ensures var g := SlotOf(m.room, e.cid); 0 <= g < SLOTS && Acting(m.room, e.cid, g) && Live(m.room, g)
  {
    SlotOfMeans(m.room, e.cid);
    hide Filed, Scored, Armoured, SlotOf, LiveCount;
  }

  lemma LandArms(r: Room, cid: nat, g: nat, t: nat, now: Stamp, hash: (string, string) -> Hex)
    requires Acting(r, cid, g) && InReach(r, g, t)
    ensures Routed(r)
    ensures var d := Step(r, Acts(cid, Strike, now), hash); Paid(r, d, r.fighters[g].armed, false) && Lying(d) == Lying(r)
  {
    ActingCan(r, cid, g);
    assert t != g && t < SLOTS;
    hide Acting, InReach, Step, Paid;
    var d := Step(r, Acts(cid, Strike, now), hash);
    if r.fighters[t].health > Damage(r.fighters[g].armed) {
      StrikeWounds(r, cid, g, t, now, hash);
    } else {
      StrikeKills(r, cid, g, t, now, hash);
    }
    hide LiveCount;
    LyingSame(r, d);
    DealtArmed(r, g, d);
  }

  lemma StrongIs(r: Room, e: Event, g: nat)
    requires e.Acts? && e.action.Strike? && Acting(r, e.cid, g)
    ensures Strong(r, e) <==> Struck(r, g).Some? && r.fighters[g].armed
  {
    ActingCan(r, e.cid, g);
    hide Seated, Manned, SlotOf, Struck;
  }

  lemma StrikeArms(m: Match, e: Event, hash: (string, string) -> Hex)
    requires Sound(m) && Routed(m.room) && e.Acts? && e.action.Strike?
      && e.cid < CONNS && m.room.conns[e.cid].Playing? && CanAct(m.room, e.cid)
    ensures Paid(m.room, Step(m.room, e, hash), Strong(m.room, e), false)
    ensures Lying(Step(m.room, e, hash)) == Lying(m.room)
  {
    ActorMeans(m, e);
    var r, g: nat := m.room, SlotOf(m.room, e.cid);
    StrongIs(r, e, g);
    hide Sound, Acting, Struck, Strong, Step, SlotOf, ArmedCount, Lying;
    if t :| Struck(r, g) == Some(t) {
      ReachIsStruck(r, g, t);
      LandArms(r, e.cid, g, t, e.now, hash);
    } else {
      ActingIs(r, e.cid, g, Strike, e.now, hash);
    }
  }

  lemma LyingOneLess(r: Room, d: Room, j: nat)
    requires j < WEAPONS && r.weapons[j].active && d.weapons == r.weapons[j := r.weapons[j].(active := false)]
    ensures Lying(d) + 1 == Lying(r)
  {
    assert forall i | 0 <= i < WEAPONS && i != j :: d.weapons[i] == r.weapons[i];
  }

  lemma LyingSame(r: Room, d: Room)
    requires d.weapons == r.weapons
    ensures Lying(d) == Lying(r)
  {
  }

  lemma WalkLeads(m: Match, e: Event, hash: (string, string) -> Hex) returns (g: nat, x: int, y: int)
    requires Sound(m) && Routed(m.room) && e.Acts? && !e.action.Strike? && e.cid < CONNS
          && m.room.conns[e.cid].Playing? && CanAct(m.room, e.cid)
    ensures g < SLOTS && Acting(m.room, e.cid, g) && Leads(e.action, m.room.fighters[g].x, m.room.fighters[g].y, x, y)
    ensures Takes(m.room, e) <==> exists i: nat :: WeaponAt(m.room, i, x, y)
  {
    ActorMeans(m, e);
    g := SlotOf(m.room, e.cid);
    var f := Moved(m.room.fighters[g], e.action);
    x, y := f.x, f.y;
    hide Sound;
    OnTheMap(m.room, e.cid, g);
    hide Acting, SlotOf, WeaponAt;
  }

  lemma WalkArms(m: Match, e: Event, hash: (string, string) -> Hex)
    requires Sound(m) && Routed(m.room) && e.Acts? && !e.action.Strike? && e.cid < CONNS
          && m.room.conns[e.cid].Playing? && CanAct(m.room, e.cid)
    ensures var d := Step(m.room, e, hash);
      Paid(m.room, d, false, Takes(m.room, e)) && One(Takes(m.room, e)) + Lying(d) == Lying(m.room)
  {
    hide *;
    var r := m.room;
    var d := Step(r, e, hash);
    var g, x, y := WalkLeads(m, e, hash);
    MoveWalks(r, e.cid, g, e.action, e.now, hash, x, y);
    ActsShape(e);
    WalkPays(r, d, g, x, y, Takes(r, e));
  }

  lemma ActsShape(e: Event)
    requires e.Acts?
    ensures e == Acts(e.cid, e.action, e.now)
  {
  }

  lemma WalkPays(r: Room, d: Room, g: nat, x: int, y: int, takes: bool)
    requires g < SLOTS && takes == exists i: nat :: WeaponAt(r, i, x, y)
    requires d == r.(fighters := r.fighters[g := d.fighters[g]], weapons := d.weapons)
    requires d.fighters[g] == r.fighters[g].(x := x, y := y, armed := d.fighters[g].armed)
    requires if takes then exists i: nat :: WeaponAt(r, i, x, y) && d.weapons == r.weapons[i := r.weapons[i].(active := false)]
             else d.fighters[g].armed == r.fighters[g].armed && d.weapons == r.weapons
    ensures Paid(r, d, false, takes) && One(takes) + Lying(d) == Lying(r)
  {
    hide ArmedCount, Lying;
    if takes {
      OneMoreArmed(r, d, g);
      var j: nat :| WeaponAt(r, j, x, y) && d.weapons == r.weapons[j := r.weapons[j].(active := false)];
      LyingOneLess(r, d, j);
    } else {
      FewerArmed(r, d);
      LyingSame(r, d);
    }
  }

  lemma JoinArms(r: Room, cid: nat)
    ensures forall g | Armed(Joined(r, cid), g) :: Armed(r, g)
    ensures Joined(r, cid).weapons == r.weapons
  {
    hide EmptyFrom;
  }

  lemma ReadyArms(r: Room, cid: nat)
    ensures forall g | Armed(Readied(r, cid), g) :: Armed(r, g)
    ensures Lying(Readied(r, cid)) <= Lying(r)
    ensures !r.started && Readied(r, cid).started ==> ArmedCount(Readied(r, cid)) == 0 && Lying(Readied(r, cid)) == 0
  {
    hide Rank, Online, ReadyCount, SlotOf, Start;
    ReadiedIs(r, cid);
  }

  lemma DropArms(r: Room, cid: nat, now: string)
    requires Routed(r)
    ensures forall g | Armed(Dropped(r, cid, now), g) :: Armed(r, g)
    ensures Dropped(r, cid, now).weapons == r.weapons
  {
    var g := SlotOf(r, cid);
    if g >= 0 {
      SlotFromMeans(r.slotConn, cid, 0);
      if r.started && !r.over {
        CheckOverFrame(Vacated(r, g), -1, now);
      }
    }
    hide SlotOf, CheckOver, Online;
  }

  lemma SpawnLies(r: Room, tries: seq<(int, int)>)
    ensures Lying(Spawned(r, tries)) <= Lying(r) + 1 && Spawned(r, tries).fighters == r.fighters
          && Spawned(r, tries).slotConn == r.slotConn
  {
    SpawnedShape(r, tries);
    hide Spawned, Busy, IdleFrom;
  }

  /** A strong strike uses up an armed fighter, a taken weapon makes at most one, and taking it uses up one
      that lay there, which only the weapon ticker puts down; a round starts with neither. */
  ghost predicate Accounted(r: Room, e: Event, d: Room) {
    && One(Strong(r, e)) + ArmedCount(d) <= One(Takes(r, e)) + ArmedCount(r)
    && One(Takes(r, e)) + Lying(d) <= One(e.WeaponTick?) + Lying(r)
    && (!r.started && d.started ==> ArmedCount(d) == 0 && Lying(d) == 0)
  }

  lemma AccountedQuiet(r: Room, e: Event, d: Room)
    requires !e.Acts? && forall g | Armed(d, g) :: Armed(r, g)
    requires Lying(d) <= One(e.WeaponTick?) + Lying(r)
    requires !r.started && d.started ==> ArmedCount(d) == 0 && Lying(d) == 0
    ensures Accounted(r, e, d)
  {
    FewerArmed(r, d);
    hide ArmedCount, Lying, Armed;
  }

  lemma TableArms(r: Room, e: Event, hash: (string, string) -> Hex)
    requires Routed(r) && (e.Accepts? || e.Tries? || e.Closes? || e.Joins? || e.Drops?)
    ensures Accounted(r, e, Step(r, e, hash))
  {
    var d := Step(r, e, hash);
    if e.Joins? { JoinArms(r, e.cid); }
    if e.Drops? { DropArms(r, e.cid, e.now); DropStarts(r, e.cid, e.now); }
    hide Joined, Dropped, Registered, FreeFrom;
    LyingSame(r, d);
    assert forall g | Armed(d, g) :: Armed(r, g);
    hide Step, Lying, ArmedCount, Armed, Accounted;
    AccountedQuiet(r, e, d);
  }

  lemma DropStarts(r: Room, cid: nat, now: string)
    requires Routed(r)
    ensures Dropped(r, cid, now).started ==> r.started
  {
    var g := SlotOf(r, cid);
    if g >= 0 {
      SlotFromMeans(r.slotConn, cid, 0);
      if r.started && !r.over {
        CheckOverFrame(Vacated(r, g), -1, now);
      }
    }
    hide SlotOf, CheckOver, Online;
  }

  lemma TimeArms(r: Room, e: Event, hash: (string, string) -> Hex)
    requires Routed(r) && (e.Readies? || e.WeaponTick?)
    ensures Accounted(r, e, Step(r, e, hash))
  {
    var d := Step(r, e, hash);
    if e.Readies? { ReadyArms(r, e.cid); } else { SpawnLies(r, e.tries); }
    hide Readied, Spawned, Lying, ArmedCount, Accounted;
    assert forall g | Armed(d, g) :: Armed(r, g);
    hide Step;
    AccountedQuiet(r, e, d);
  }

  /** Every step is accounted for. */
  lemma StepArms(m: Match, e: Event, hash: (string, string) -> Hex)
    requires Sound(m) && Routed(m.room)
    ensures Accounted(m.room, e, Step(m.room, e, hash))
  {
    hide *;
    if e.Acts? {
      ActArms(m, e, hash);
    } else if e.Readies? || e.WeaponTick? {
      TimeArms(m.room, e, hash);
    } else {
      TableArms(m.room, e, hash);
    }
  }

  lemma ActArms(m: Match, e: Event, hash: (string, string) -> Hex)
    requires Sound(m) && Routed(m.room) && e.Acts?
    ensures Accounted(m.room, e, Step(m.room, e, hash))
  {
    var r := m.room;
    if e.cid < CONNS && r.conns[e.cid].Playing? && CanAct(r, e.cid) {
      ActStarts(r, e, hash);
      hide Sound, Step, ArmedCount, Lying;
      if e.action.Strike? {
        StrikeArms(m, e, hash);
        assert !Takes(r, e);
      } else {
        WalkArms(m, e, hash);
        assert !Strong(r, e);
      }
    } else {
      hide Sound, ArmedCount, Lying;
      assert Step(r, e, hash) == r && !Strong(r, e) && !Takes(r, e);
    }
  }

  lemma ActStarts(r: Room, e: Event, hash: (string, string) -> Hex)
    requires Routed(r) && e.Acts?
    ensures Step(r, e, hash).started == r.started
  {
    hide Struck, CheckOver, SlotOf, Moved, WeaponFrom, LastLive, LiveCount;
    if e.cid < CONNS && CanAct(r, e.cid) && Struck(r, SlotOf(r, e.cid)).Some? {
      var g: nat := SlotOf(r, e.cid);
      SlotFromMeans(r.slotConn, e.cid, 0);
      var k := Slain(r, g, Struck(r, g).value);
      assert k.slotConn == r.slotConn;
      CheckOverFrame(k, r.slotConn[g], e.now);
    }
  }

  ghost function StrongIn(m: Match, es: seq<Event>, hash: (string, string) -> Hex): nat
    requires Sound(m)
    decreases |es|
  {
    if es == [] then 0
    else
      SoundRouted(m);
      StepKept(m, es[0], hash);
      One(Strong(m.room, es[0])) + StrongIn(Advance(m, es[0], hash), es[1..], hash)
  }

  ghost function TakenIn(m: Match, es: seq<Event>, hash: (string, string) -> Hex): nat
    requires Sound(m)
    decreases |es|
  {
    if es == [] then 0
    else
      SoundRouted(m);
      StepKept(m, es[0], hash);
      One(Takes(m.room, es[0])) + TakenIn(Advance(m, es[0], hash), es[1..], hash)
  }

  function TicksIn(es: seq<Event>): nat {
    if es == [] then 0 else One(es[0].WeaponTick?) + TicksIn(es[1..])
  }

  /** Over any run the strong strikes number at most the fighters armed at its start and the weapons taken
      in it, and the weapons taken at most those lying at its start and the ticks of the weapon ticker. */
  lemma {:induction false} StrongStrikesArePaid(m: Match, es: seq<Event>, hash: (string, string) -> Hex)
    requires Sound(m)
    ensures var n := Play(m, es, hash);
      && StrongIn(m, es, hash) + ArmedCount(n.room) <= TakenIn(m, es, hash) + ArmedCount(m.room)
      && TakenIn(m, es, hash) + Lying(n.room) <= TicksIn(es) + Lying(m.room)
    decreases |es|
  {
    hide Sound, Step, Strong, Takes, ArmedCount, Lying;
    if es != [] {
      SoundRouted(m);
      StepKept(m, es[0], hash);
      StepArms(m, es[0], hash);
      var n := Advance(m, es[0], hash);
      assert n.room == Step(m.room, es[0], hash);
      hide Advance;
      StrongStrikesArePaid(n, es[1..], hash);
    }
  }

  /** From the start of a round on, the strong strikes number at most the weapons taken, and these at most
      the ticks of the weapon ticker: no weapon and no armed fighter is left of the round before. */
  lemma StrongStrikesOfRound(m: Match, e: Event, es: seq<Event>, hash: (string, string) -> Hex)
    requires Sound(m) && Routed(m.room) && !m.room.started && Step(m.room, e, hash).started
    ensures Sound(Advance(m, e, hash))
    ensures var n := Advance(m, e, hash); StrongIn(n, es, hash) <= TakenIn(n, es, hash) <= TicksIn(es)
  {
    StepKept(m, e, hash);
    StepArms(m, e, hash);
    var n := Advance(m, e, hash);
    assert n.room == Step(m.room, e, hash);
    hide Sound, Step, ArmedCount, Lying, Advance;
    StrongStrikesArePaid(n, es, hash);
  }
}
