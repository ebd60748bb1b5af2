/** A run of the warzone server that files a death for a player who never fought: it took the slot of one
    who had been killed and had left. */
module WarzoneInheritance {
  import opened Basics
  import opened WarzoneDatabase
  import opened WarzoneAccounts
  import opened WarzoneModel
  import opened WarzoneRounds

  /** Four different names that registration accepts and the files show. */
  ghost predicate FourNames(ns: seq<string>) {
    && |ns| == 4
    && (forall i | 0 <= i < 4 :: 0 < |ns[i]| <= 30 && Lacks(ns[i], '|') && Lacks(ns[i], '\n') && !Hidden(ns[i]))
    && (forall i, j | 0 <= i < j < 4 :: ns[i] != ns[j])
  }

  function Repeat(e: Event, n: nat): seq<Event> {
    if n == 0 then [] else [e] + Repeat(e, n - 1)
  }

  function SignUps(ns: seq<string>, now: Stamp, k: nat): seq<Event>
    requires k <= |ns|
    decreases |ns| - k
  {
    if k == |ns| then [] else [Tries(k, true, ns[k], "abcd", now)] + SignUps(ns, now, k + 1)
  }

  function Seating(): seq<Event> {
    [Joins(0), Joins(1), Joins(2), Readies(0), Readies(1), Readies(2)]
  }

  function Leaving(now: Stamp): seq<Event> {
    [Drops(2, now), Joins(3), Drops(1, now)]
  }

  /** Four users sign up and three of them start a round. The first walks up to the third and strikes it
      seven times. The third, dead, disconnects; the fourth takes its slot; the second disconnects. */
  function InheritanceRun(ns: seq<string>, now: Stamp): seq<Event>
    requires |ns| == 4
  {
    Repeat(Accepts, 4) + SignUps(ns, now, 0) + Seating() + Repeat(Acts(0, Right, now), 15) + Repeat(Acts(0, Strike, now), 7)
    + Leaving(now)
  }

  // ----- Playing lists of events -----

  lemma PlayFirst(m: Match, e: Event, es: seq<Event>, hash: (string, string) -> Hex)
    requires Sound(m)
    ensures Routed(m.room) && Sound(Advance(m, e, hash)) && Advance(m, e, hash).room == Step(m.room, e, hash)
    ensures Play(m, [e] + es, hash) == Play(Advance(m, e, hash), es, hash)
  {
    SoundRouted(m);
    StepKept(m, e, hash);
    hide Sound, Step;
    assert ([e] + es)[1..] == es;
  }

  lemma {:induction false} PlayJoin(m: Match, xs: seq<Event>, ys: seq<Event>, hash: (string, string) -> Hex)
    requires Sound(m)
    ensures Sound(Play(m, xs, hash)) && Play(m, xs + ys, hash) == Play(Play(m, xs, hash), ys, hash)
    decreases |xs|
  {
    hide Sound, Advance;
    if xs == [] {
      assert xs + ys == ys;
    } else {
      PlayFirst(m, xs[0], xs[1..] + ys, hash);
      PlayFirst(m, xs[0], xs[1..], hash);
      assert xs + ys == [xs[0]] + (xs[1..] + ys) && xs == [xs[0]] + xs[1..];
      PlayJoin(Advance(m, xs[0], hash), xs[1..], ys, hash);
    }
  }

  // ----- Signing up -----

  /** The first connections are in the given phases, and the others free. */
  ghost predicate Table(r: Room, cs: seq<Conn>) {
    && |cs| <= CONNS && (forall i | 0 <= i < |cs| :: r.conns[i] == cs[i] && !cs[i].Free?)
    && (forall i | |cs| <= i < CONNS :: r.conns[i].Free?)
  }

  ghost predicate Quiet(r: Room) {
    && !r.started && !r.over && Routed(r)
    && (forall i | 0 <= i < SLOTS :: r.kills[i] == 0 && !r.died[i])
    && (forall i | 0 <= i < WEAPONS :: !r.weapons[i].active)
  }

  function Roster(ns: seq<string>, now: string): seq<Stats> {
    if ns == [] then [] else Roster(ns[..|ns| - 1], now) + [NoGames(ns[|ns| - 1], now)]
  }

  ghost predicate Accounts(r: Room, ns: seq<string>, now: string) {
    && |r.users| == |ns| && (forall i | 0 <= i < |ns| :: r.users[i].name == ns[i])
    && r.stats == Roster(ns, now)
  }

  lemma {:induction false} FreeAt(conns: seq<Conn>, i: nat, k: nat)
    requires i <= k < |conns| && conns[k].Free? && forall j | i <= j < k :: !conns[j].Free?
    ensures FreeFrom(conns, i) == k
    decreases k - i
  {
    if i < k {
      FreeAt(conns, i + 1, k);
    }
  }

  lemma AcceptStep(r: Room, cs: seq<Conn>)
    requires Table(r, cs) && |cs| < CONNS
    ensures Table(Accepted(r), cs + [Auth(0)]) && Accepted(r) == r.(conns := Accepted(r).conns)
  {
    FreeAt(r.conns, 0, |cs|);
    hide FreeFrom;
  }

  lemma {:induction false} FourAccepted(m: Match, cs: seq<Conn>, n: nat, hash: (string, string) -> Hex)
    requires Sound(m) && Table(m.room, cs) && |cs| + n <= CONNS
    ensures var r := Play(m, Repeat(Accepts, n), hash);
      Sound(r) && r.room == m.room.(conns := r.room.conns) && Table(r.room, cs + seq(n, _ => Auth(0)))
    decreases n
  {
    hide Sound, Table, Advance, Accepted;
    if n == 0 {
      assert cs + seq(n, _ => Auth(0)) == cs;
    } else {
      PlayFirst(m, Accepts, Repeat(Accepts, n - 1), hash);
      AcceptStep(m.room, cs);
      FourAccepted(Advance(m, Accepts, hash), cs + [Auth(0)], n - 1, hash);
      assert cs + [Auth(0)] + seq(n - 1, _ => Auth(0)) == cs + seq(n, _ => Auth(0));
    }
  }

  lemma TryStep(r: Room, cs: seq<Conn>, k: nat, ns: seq<string>, now: Stamp, hash: (string, string) -> Hex)
    requires FourNames(ns) && k < 4 && Table(r, cs) && |cs| == 4 && cs[k] == Auth(0) && Accounts(r, ns[..k], now)
    ensures var s := Tried(r, Tries(k, true, ns[k], "abcd", now), hash);
      Table(s, cs[k := Lobby(ns[k])]) && Accounts(s, ns[..k + 1], now) && s == r.(conns := s.conns, users := s.users, stats := s.stats)
  {
    FindUserMeans(r.users, ns[k]);
    assert FindUser(r.users, ns[k]).None? by {
      forall u | u in r.users ensures u.name != ns[k] {
        var i :| 0 <= i < |r.users| && r.users[i] == u;
        assert u.name == ns[..k][i] == ns[i];
      }
    }
    hide FindUser, Hidden, Lacks;
    assert CanRegister(r.users, ns[k], "abcd");
    assert ns[..k + 1][..k] == ns[..k];
  }

  ghost function Signed(ns: seq<string>, k: nat): seq<Conn>
    requires |ns| == 4
  {
    seq(4, i requires 0 <= i < 4 => if i < k then Lobby(ns[i]) else Auth(0))
  }

  lemma {:induction false} AllSigned(m: Match, k: nat, ns: seq<string>, now: Stamp, hash: (string, string) -> Hex)
    requires Sound(m) && FourNames(ns) && k <= 4 && Table(m.room, Signed(ns, k)) && Accounts(m.room, ns[..k], now)
    ensures var n := Play(m, SignUps(ns, now, k), hash);
      && Sound(n) && Table(n.room, Signed(ns, 4)) && Accounts(n.room, ns, now)
      && n.room == m.room.(conns := n.room.conns, users := n.room.users, stats := n.room.stats)
    decreases 4 - k
  {
    hide Sound, Table, Advance, Tried, Accounts;
    if k == 4 {
      assert ns[..4] == ns;
    } else {
      var e := Tries(k, true, ns[k], "abcd", now);
      PlayFirst(m, e, SignUps(ns, now, k + 1), hash);
      TryStep(m.room, Signed(ns, k), k, ns, now, hash);
      assert Signed(ns, k)[k := Lobby(ns[k])] == Signed(ns, k + 1);
      AllSigned(Advance(m, e, hash), k + 1, ns, now, hash);
    }
  }

  // ----- Sitting down -----

  ghost predicate Seats(r: Room, n: nat) {
    forall g | 0 <= g < SLOTS :: r.slotConn[g] == if g < n then g else -1
  }

  ghost function Sitting(ns: seq<string>, n: nat): seq<Conn>
    requires |ns| == 4
  {
    seq(4, i requires 0 <= i < 4 => if i < n then WarzoneModel.Playing(ns[i]) else Lobby(ns[i]))
  }

  lemma {:induction false} EmptyAt(slotConn: seq<int>, g: nat, k: nat)
    requires g <= k < |slotConn| && slotConn[k] < 0 && forall h | g <= h < k :: slotConn[h] >= 0
    ensures EmptyFrom(slotConn, g) == k
    decreases k - g
  {
    if g < k {
      EmptyAt(slotConn, g + 1, k);
    }
  }

  lemma JoinStep(r: Room, n: nat, ns: seq<string>)
    requires |ns| == 4 && n < 3 && Table(r, Sitting(ns, n)) && Seats(r, n) && Quiet(r)
    ensures var s := Joined(r, n);
      && Table(s, Sitting(ns, n + 1)) && Seats(s, n + 1) && Quiet(s) && s.stats == r.stats
      && s.fighters == r.fighters[n := NOBODY.(connected := true)]
  {
    EmptyAt(r.slotConn, 0, n);
    hide EmptyFrom;
  }

  /** Three sit there, of whom the first n are ready. */
  ghost predicate Readying(r: Room, n: nat, ns: seq<string>)
    requires |ns| == 4
  {
    && Table(r, Sitting(ns, 3)) && Seats(r, 3) && Quiet(r)
    && forall g | 0 <= g < 3 :: r.fighters[g].ready == (g < n)
  }

  lemma SeatIs(r: Room, cid: nat)
    requires cid < SLOTS && forall g | 0 <= g <= cid :: r.slotConn[g] == g
    ensures SlotOf(r, cid) == cid
  {
    SlotFromMeans(r.slotConn, cid, 0);
    var s := SlotFrom(r.slotConn, cid, 0);
    assert r.slotConn[cid] == cid;
    assert 0 <= s <= cid;
    assert r.slotConn[s] == s;
  }

  lemma ReadyStep(r: Room, n: nat, ns: seq<string>)
    requires |ns| == 4 && n < 3 && Readying(r, n, ns)
    ensures var f := Flagged(r, n); Readied(r, n) == (if n < 2 then f else Reset(f)) && Readying(f, n + 1, ns) && f.stats == r.stats
  {
    SeatIs(r, n);
    hide Reset, SlotOf;
    var f := Flagged(r, n);
    assert Readying(f, n + 1, ns);
    assert Prepared(f, 0) && !Prepared(f, 3) && !Prepared(f, 4) && Prepared(f, 1) == (n >= 1) && Prepared(f, 2) == (n >= 2);
    assert Occupied(f, 0) && Occupied(f, 1) && Occupied(f, 2) && !Occupied(f, 3) && !Occupied(f, 4);
    assert r.conns[n] == Sitting(ns, 3)[n];
  }

  // ----- The round -----

  /** The round is on: the first fighter on column x of row 2, the second in its corner, the third in the
      middle with so much health; nobody has killed or died, and no weapon lies around. */
  ghost predicate Fighting(r: Room, x: int, health: int, ns: seq<string>)
    requires |ns| == 4
  {
    && r.started && !r.over && Table(r, Sitting(ns, 3)) && Seats(r, 3)
    && r.fighters[0] == Fighter(x, 2, MAX_HEALTH, true, true, false, false)
    && r.fighters[1] == Fighter(33, 9, MAX_HEALTH, true, true, false, false)
    && r.fighters[2] == Fighter(17, 5, health, true, true, false, false)
    && (forall g | 0 <= g < 3 :: r.kills[g] == 0 && !r.died[g])
    && (forall i | 0 <= i < WEAPONS :: !r.weapons[i].active)
  }

  lemma RoundBegins(r: Room, ns: seq<string>)
    requires |ns| == 4 && Readying(r, 3, ns)
    ensures Fighting(Reset(r), 2, MAX_HEALTH, ns) && Reset(r).stats == r.stats
  {
    assert Occupied(r, 0) && Occupied(r, 1) && Occupied(r, 2) && !Occupied(r, 3) && !Occupied(r, 4);
    assert Online(r) == 3;
    assert Rank(r, 1) == 1 && Rank(r, 2) == 2;
    assert Fresh(r, 0) == Fighter(2, 2, MAX_HEALTH, true, true, false, false);
    assert Fresh(r, 1) == Fighter(33, 9, MAX_HEALTH, true, true, false, false);
    assert Fresh(r, 2) == Fighter(17, 5, MAX_HEALTH, true, true, false, false);
    hide Fresh, Rank, Online;
  }

  lemma {:induction false} NoWeapon(weapons: seq<Weapon>, x: int, y: int, i: nat)
    requires i <= |weapons| && forall j | 0 <= j < |weapons| :: !weapons[j].active
    ensures WeaponFrom(weapons, x, y, i) == -1
  {
  }

  lemma WalkStep(r: Room, x: int, health: int, ns: seq<string>, now: string)
    requires |ns| == 4 && Fighting(r, x, health, ns) && 2 <= x < 35 && Routed(r)
    ensures var s := Acted(r, 0, Right, now); Fighting(s, x + 1, health, ns) && s.stats == r.stats
    ensures r.conns[0].Playing?
  {
    SeatIs(r, 0);
    assert Live(r, 0);
    assert r.conns[0] == Sitting(ns, 3)[0];
    var s := r.(fighters := r.fighters[0 := Moved(r.fighters[0], Right)]);
    NoWeapon(s.weapons, x + 1, 2, 0);
    hide WeaponFrom, SlotOf;
  }

  lemma {:induction false} Walks(m: Match, x: int, n: nat, ns: seq<string>, now: Stamp, hash: (string, string) -> Hex)
    requires Sound(m) && |ns| == 4 && Fighting(m.room, x, MAX_HEALTH, ns) && 2 <= x && x + n <= 35
    ensures var k := Play(m, Repeat(Acts(0, Right, now), n), hash);
      Sound(k) && Fighting(k.room, x + n, MAX_HEALTH, ns) && k.room.stats == m.room.stats
    decreases n
  {
    hide Sound, Fighting, Advance, Acted;
    if n > 0 {
      PlayFirst(m, Acts(0, Right, now), Repeat(Acts(0, Right, now), n - 1), hash);
      WalkStep(m.room, x, MAX_HEALTH, ns, now);
      Walks(Advance(m, Acts(0, Right, now), hash), x + 1, n - 1, ns, now, hash);
    }
  }

  lemma ThirdIsTarget(r: Room, health: int, ns: seq<string>)
    requires |ns| == 4 && Fighting(r, 17, health, ns)
    ensures Struck(r, 0) == Some(2)
  {
    assert Live(r, 0) && Live(r, 1) && Live(r, 2) && !Occupied(r, 3) && !Occupied(r, 4);
    assert Apart(r.fighters[0], r.fighters[2]) == 3 && Apart(r.fighters[0], r.fighters[1]) == 23;
    hide Apart;
    assert IsTarget(r, 0, 2);
    forall t: nat | IsTarget(r, 0, t) ensures t == 2 {
      assert Live(r, t);
    }
  }

  /** The third fighter is dead, the first has killed it; the first and the second are alive. */
  ghost predicate Felled(r: Room, cs: seq<Conn>, third: int) {
    && r.started && !r.over && Table(r, cs)
    && r.slotConn[0] == 0 && r.slotConn[1] == 1 && r.slotConn[2] == third && r.slotConn[3] == -1 && r.slotConn[4] == -1
    && r.fighters[0].alive && r.fighters[1].alive && !r.fighters[2].alive
    && r.kills[0] == 1 && !r.died[0] && r.kills[2] == 0 && r.died[2]
  }

  lemma StrikeStep(r: Room, health: int, ns: seq<string>, now: string)
    requires |ns| == 4 && Fighting(r, 17, health, ns) && health > 0 && Routed(r)
    ensures var s := Acted(r, 0, Strike, now);
      (if health > ATTACK_DAMAGE then Fighting(s, 17, health - ATTACK_DAMAGE, ns) else Felled(s, Sitting(ns, 3), 2)) && s.stats == r.stats
    ensures r.conns[0].Playing?
  {
    SeatIs(r, 0);
    assert Live(r, 0);
    assert r.conns[0] == Sitting(ns, 3)[0];
    ThirdIsTarget(r, health, ns);
    hide Struck, SlotOf;
    var d := Dealt(r, 0, 2);
    assert Acted(r, 0, Strike, now) == Attacked(r, 0, now);
    if health <= ATTACK_DAMAGE {
      ThirdDies(r, health, ns);
      TwoLeft(Killed(d, 0, 2));
      hide LiveCount, Killed;
    }
  }

  lemma ThirdDies(r: Room, health: int, ns: seq<string>)
    requires |ns| == 4 && Fighting(r, 17, health, ns)
    ensures var k := Killed(Dealt(r, 0, 2), 0, 2); Felled(k, Sitting(ns, 3), 2) && k.stats == r.stats && Routed(k)
  {
    SeatIs(Dealt(r, 0, 2), 2);
    hide SlotOf;
  }

  lemma TwoLeft(r: Room)
    requires r.slotConn[0] >= 0 && r.slotConn[1] >= 0 && r.fighters[0].alive && r.fighters[1].alive
    ensures LiveCount(r) >= 2
  {
    assert Live(r, 0) && Live(r, 1);
  }

  lemma {:induction false} Strikes(m: Match, health: int, n: nat, ns: seq<string>, now: Stamp, hash: (string, string) -> Hex)
    requires Sound(m) && |ns| == 4 && Fighting(m.room, 17, health, ns)
    requires n > 0 && ATTACK_DAMAGE * (n - 1) < health <= ATTACK_DAMAGE * n
    ensures var k := Play(m, Repeat(Acts(0, Strike, now), n), hash);
      Sound(k) && Felled(k.room, Sitting(ns, 3), 2) && k.room.stats == m.room.stats
    decreases n
  {
    hide Sound, Fighting, Felled, Advance, Acted;
    PlayFirst(m, Acts(0, Strike, now), Repeat(Acts(0, Strike, now), n - 1), hash);
    StrikeStep(m.room, health, ns, now);
    if n > 1 {
      Strikes(Advance(m, Acts(0, Strike, now), hash), health - ATTACK_DAMAGE, n - 1, ns, now, hash);
    }
  }

  // ----- The dead one leaves, another takes its slot, the round ends -----

  ghost function Closed2(ns: seq<string>, fourth: Conn): seq<Conn>
    requires |ns| == 4
  {
    [WarzoneModel.Playing(ns[0]), WarzoneModel.Playing(ns[1]), Closing, fourth]
  }

  lemma ThirdLeaves(r: Room, ns: seq<string>, now: string)
    requires |ns| == 4 && Felled(r, Sitting(ns, 3), 2) && Routed(r)
    ensures var s := Dropped(r, 2, now); Felled(s, Closed2(ns, Lobby(ns[3])), -1) && s.stats == r.stats
  {
    SlotFromMeans(r.slotConn, 2, 0);
    assert SlotOf(r, 2) == 2;
    hide SlotOf;
    var gone := Vacated(r, 2);
    TwoLeft(gone);
    assert Occupied(gone, 0);
    assert Online(gone) > 0;
    hide LiveCount, Online;
    assert r.conns[2] == Sitting(ns, 3)[2];
    assert Dropped(r, 2, now) == gone.(conns := r.conns[2 := Closing]);
  }

  lemma FourthJoins(r: Room, ns: seq<string>)
    requires |ns| == 4 && Felled(r, Closed2(ns, Lobby(ns[3])), -1)
    ensures var s := Joined(r, 3); Felled(s, Closed2(ns, WarzoneModel.Playing(ns[3])), 3) && s.stats == r.stats
  {
    EmptyAt(r.slotConn, 0, 2);
    hide EmptyFrom;
  }

  /** The records at the end: the winner's kill, and the death under the newcomer's name. */
  ghost function Outcome(ns: seq<string>, now: string): seq<Stats>
    requires |ns| == 4
  {
    [Stats(ns[0], 1, 0, 1, 0, 1, now), NoGames(ns[1], now), NoGames(ns[2], now), Stats(ns[3], 0, 1, 0, 1, 1, now)]
  }

  lemma SecondLeaves(r: Room, ns: seq<string>, now: string)
    requires FourNames(ns) && Felled(r, Closed2(ns, WarzoneModel.Playing(ns[3])), 3) && Routed(r) && r.stats == Roster(ns, now)
    ensures var s := Dropped(r, 1, now); s.over && s.winner == 0 && s.stats == Outcome(ns, now)
  {
    SeatIs(r, 1);
    hide SlotOf;
    var gone := Vacated(r, 1);
    assert Live(gone, 0) && !Live(gone, 1) && !Live(gone, 2) && !Live(gone, 3) && !Live(gone, 4);
    assert LiveCount(gone) == 1;
    LoneSurvivor(gone);
    hide LiveCount, LastLive, Saved;
    assert CheckOver(gone, -1, now) == Finish(gone, 0, now);
    var done := gone.(over := true, winner := 0);
    assert Occupied(done, 0);
    assert Online(Finish(gone, 0, now)) > 0;
    FiledSlots(done, ns, now);
  }

  lemma FiledSlots(r: Room, ns: seq<string>, now: string)
    requires FourNames(ns) && Routed(r) && r.stats == Roster(ns, now) && r.winner == 0
    requires Table(r, Closed2(ns, WarzoneModel.Playing(ns[3])))
    requires r.slotConn[0] == 0 && r.slotConn[1] == -1 && r.slotConn[2] == 3 && r.slotConn[3] == -1 && r.slotConn[4] == -1
    requires r.kills[0] == 1 && !r.died[0] && r.kills[2] == 0 && r.died[2]
    ensures Saved(r, SLOTS, now) == Outcome(ns, now)
  {
    assert r.conns[0] == WarzoneModel.Playing(ns[0]) && r.conns[3] == WarzoneModel.Playing(ns[3]);
    FourRecords(ns, now);
    hide Hidden, Updated, Roster;
    assert Saved(r, 0, now) == Roster(ns, now);
    assert Saved(r, 1, now) == Updated(Roster(ns, now), ns[0], true, 1, false, now);
    assert Saved(r, 2, now) == Saved(r, 1, now);
    assert Saved(r, 3, now) == Updated(Saved(r, 2, now), ns[3], false, 0, true, now);
    assert Saved(r, 4, now) == Saved(r, 3, now);
  }

  lemma FourRecords(ns: seq<string>, now: string)
    requires FourNames(ns)
    ensures Updated(Updated(Roster(ns, now), ns[0], true, 1, false, now), ns[3], false, 0, true, now) == Outcome(ns, now)
  {
    RosterIs(ns, now);
    hide Roster;
    var list := Roster(ns, now);
    var won := [Stats(ns[0], 1, 0, 1, 0, 1, now)] + list[1..];
    assert Updated(list, ns[0], true, 1, false, now) == won;
    assert won[1..] == [NoGames(ns[1], now), NoGames(ns[2], now), NoGames(ns[3], now)];
    var tail := [NoGames(ns[3], now)];
    assert Updated(tail, ns[3], false, 0, true, now) == [Stats(ns[3], 0, 1, 0, 1, 1, now)];
    assert won[1..][1..][1..] == tail;
    assert Updated(won[1..][1..], ns[3], false, 0, true, now) == [NoGames(ns[2], now)] + Updated(tail, ns[3], false, 0, true, now);
    assert Updated(won[1..], ns[3], false, 0, true, now) == [NoGames(ns[1], now)] + Updated(won[1..][1..], ns[3], false, 0, true, now);
  }

  lemma RosterIs(ns: seq<string>, now: string)
    requires |ns| == 4
    ensures Roster(ns, now) == [NoGames(ns[0], now), NoGames(ns[1], now), NoGames(ns[2], now), NoGames(ns[3], now)]
  {
    assert ns[..3][..2] == ns[..2] && ns[..2][..1] == ns[..1] && ns[..1][..0] == [];
    assert Roster(ns[..1], now) == [NoGames(ns[0], now)];
    assert Roster(ns[..2], now) == [NoGames(ns[0], now), NoGames(ns[1], now)];
    assert Roster(ns[..3], now) == [NoGames(ns[0], now), NoGames(ns[1], now), NoGames(ns[2], now)];
  }

  // ----- The whole run -----

  lemma SeatingPlayed(m: Match, ns: seq<string>, hash: (string, string) -> Hex)
    requires Sound(m) && |ns| == 4 && Table(m.room, Sitting(ns, 0)) && Seats(m.room, 0) && Quiet(m.room)
    requires forall g | 0 <= g < 3 :: !m.room.fighters[g].ready
    ensures var n := Play(m, Seating(), hash);
      Sound(n) && Fighting(n.room, 2, MAX_HEALTH, ns) && n.room.stats == m.room.stats
  {
    var joins, readies := [Joins(0), Joins(1), Joins(2)], [Readies(0), Readies(1), Readies(2)];
    hide Sound, Table, Seats, Quiet, Readying, Fighting, Play;
    assert Seating() == joins + readies;
    PlayJoin(m, joins, readies, hash);
    JoinsPlayed(m, ns, hash);
    ReadiesPlayed(Play(m, joins, hash), ns, hash);
  }

  lemma JoinsPlayed(m: Match, ns: seq<string>, hash: (string, string) -> Hex)
    requires Sound(m) && |ns| == 4 && Table(m.room, Sitting(ns, 0)) && Seats(m.room, 0) && Quiet(m.room)
    requires forall g | 0 <= g < 3 :: !m.room.fighters[g].ready
    ensures var n := Play(m, [Joins(0), Joins(1), Joins(2)], hash);
      Sound(n) && Readying(n.room, 0, ns) && n.room.stats == m.room.stats
  {
    hide Sound, Table, Seats, Quiet, Advance, Joined;
    PlayFirst(m, Joins(0), [Joins(1), Joins(2)], hash);
    JoinStep(m.room, 0, ns);
    var m1 := Advance(m, Joins(0), hash);
    PlayFirst(m1, Joins(1), [Joins(2)], hash);
    JoinStep(m1.room, 1, ns);
    var m2 := Advance(m1, Joins(1), hash);
    PlayFirst(m2, Joins(2), [], hash);
    JoinStep(m2.room, 2, ns);
    assert [Joins(0), Joins(1), Joins(2)] == [Joins(0)] + [Joins(1), Joins(2)];
    assert [Joins(1), Joins(2)] == [Joins(1)] + [Joins(2)] && [Joins(2)] == [Joins(2)] + [];
  }

  lemma ReadiesPlayed(m: Match, ns: seq<string>, hash: (string, string) -> Hex)
    requires Sound(m) && |ns| == 4 && Readying(m.room, 0, ns)
    ensures var n := Play(m, [Readies(0), Readies(1), Readies(2)], hash);
      Sound(n) && Fighting(n.room, 2, MAX_HEALTH, ns) && n.room.stats == m.room.stats
  {
    hide Sound, Readying, Fighting, Advance, Readied, Reset, Flagged;
    PlayFirst(m, Readies(0), [Readies(1), Readies(2)], hash);
    ReadyStep(m.room, 0, ns);
    var m1 := Advance(m, Readies(0), hash);
    PlayFirst(m1, Readies(1), [Readies(2)], hash);
    ReadyStep(m1.room, 1, ns);
    var m2 := Advance(m1, Readies(1), hash);
    PlayFirst(m2, Readies(2), [], hash);
    ReadyStep(m2.room, 2, ns);
    RoundBegins(Flagged(m2.room, 2), ns);
    assert [Readies(0), Readies(1), Readies(2)] == [Readies(0)] + [Readies(1), Readies(2)];
    assert [Readies(1), Readies(2)] == [Readies(1)] + [Readies(2)] && [Readies(2)] == [Readies(2)] + [];
  }

  lemma LeavingPlayed(m: Match, ns: seq<string>, now: Stamp, hash: (string, string) -> Hex)
    requires Sound(m) && FourNames(ns) && Felled(m.room, Sitting(ns, 3), 2) && m.room.stats == Roster(ns, now)
    ensures var n := Play(m, Leaving(now), hash);
      n.room.over && n.room.winner == 0 && n.room.stats == Outcome(ns, now)
  {
    hide Sound, Felled, Advance, Dropped, Joined, Roster, FourNames;
    FourOf(ns);
    var d2, j3, d1 := Drops(2, now), Joins(3), Drops(1, now);
    PlayFirst(m, d2, [j3, d1], hash);
    ThirdLeaves(m.room, ns, now);
    var m1 := Advance(m, d2, hash);
    PlayFirst(m1, j3, [d1], hash);
    FourthJoins(m1.room, ns);
    var m2 := Advance(m1, j3, hash);
    PlayFirst(m2, d1, [], hash);
    SecondLeaves(m2.room, ns, now);
    assert Leaving(now) == [d2] + [j3, d1] && [j3, d1] == [j3] + [d1] && [d1] == [d1] + [];
  }

  lemma FourOf(ns: seq<string>)
    requires FourNames(ns)
    ensures |ns| == 4
  {
  }

  lemma SignUpPlayed(ns: seq<string>, now: Stamp, hash: (string, string) -> Hex)
    requires FourNames(ns)
    ensures Sound(Opening([], []))
    ensures var n := Play(Opening([], []), Repeat(Accepts, 4) + SignUps(ns, now, 0), hash);
      && Sound(n) && Table(n.room, Sitting(ns, 0)) && Seats(n.room, 0) && Quiet(n.room) && n.room.stats == Roster(ns, now)
      && forall g | 0 <= g < 3 :: !n.room.fighters[g].ready
  {
    EmptyServer();
    hide Opening, Sound, Table, Quiet, Seats;
    SignUpsFrom(Opening([], []), ns, now, hash);
  }

  lemma EmptyServer()
    ensures var m := Opening([], []);
      && Sound(m) && Table(m.room, []) && Seats(m.room, 0) && Quiet(m.room) && m.room.users == [] && m.room.stats == []
      && forall g | 0 <= g < 3 :: !m.room.fighters[g].ready
  {
    SoundStart([], []);
    hide Sound;
  }

  lemma SignUpsFrom(m: Match, ns: seq<string>, now: Stamp, hash: (string, string) -> Hex)
    requires FourNames(ns) && Sound(m) && Table(m.room, []) && Seats(m.room, 0) && Quiet(m.room)
    requires m.room.users == [] && m.room.stats == [] && forall g | 0 <= g < 3 :: !m.room.fighters[g].ready
    ensures var n := Play(m, Repeat(Accepts, 4) + SignUps(ns, now, 0), hash);
      && Sound(n) && Table(n.room, Sitting(ns, 0)) && Seats(n.room, 0) && Quiet(n.room) && n.room.stats == Roster(ns, now)
      && forall g | 0 <= g < 3 :: !n.room.fighters[g].ready
  {
    hide Sound, Table, Play, FourNames, Repeat, SignUps;
    FourOf(ns);
    PlayJoin(m, Repeat(Accepts, 4), SignUps(ns, now, 0), hash);
    FourAccepted(m, [], 4, hash);
    assert [] + seq(4, _ => Auth(0)) == Signed(ns, 0);
    assert ns[..0] == [];
    AllSigned(Play(m, Repeat(Accepts, 4), hash), 0, ns, now, hash);
    assert Signed(ns, 4) == Sitting(ns, 0);
  }

  /** On a new server, for any four admissible names: the run ends a round that the first wins. The third,
      who was killed, has no death on file and not even the game; the fourth, who was in no fight, has the
      death. */
  lemma DeathInherited(ns: seq<string>, now: Stamp, hash: (string, string) -> Hex)
    requires FourNames(ns)
    ensures Sound(Opening([], []))
    ensures var n := Play(Opening([], []), InheritanceRun(ns, now), hash);
      && n.room.over && n.room.winner == 0 && n.room.stats == Outcome(ns, now)
      && n.room.stats[2] == NoGames(ns[2], now) && n.room.stats[3].deaths == 1 && n.room.stats[3].name == ns[3]
  {
    hide Sound, Table, Seats, Quiet, Fighting, Felled, Play, FourNames, Opening, Roster, Repeat, SignUps;
    FourOf(ns);
    var m := Opening([], []);
    var p1 := Repeat(Accepts, 4) + SignUps(ns, now, 0);
    var p3, p4 := Repeat(Acts(0, Right, now), 15), Repeat(Acts(0, Strike, now), 7);
    SignUpPlayed(ns, now, hash);
    var m1 := Play(m, p1, hash);
    SeatingPlayed(m1, ns, hash);
    PlayJoin(m, p1, Seating(), hash);
    var m2 := Play(m, p1 + Seating(), hash);
    Walks(m2, 2, 15, ns, now, hash);
    PlayJoin(m, p1 + Seating(), p3, hash);
    var m3 := Play(m, p1 + Seating() + p3, hash);
    Strikes(m3, MAX_HEALTH, 7, ns, now, hash);
    PlayJoin(m, p1 + Seating() + p3, p4, hash);
    var m4 := Play(m, p1 + Seating() + p3 + p4, hash);
    LeavingPlayed(m4, ns, now, hash);
    PlayJoin(m, p1 + Seating() + p3 + p4, Leaving(now), hash);
  }

  lemma SuchNamesExist()
    ensures FourNames(["aa", "bb", "cc", "dd"])
  {
  }
}
