/** What the rounds of the warzone add to the kills and deaths on file. The results of a round are filed
    slot by slot, for whoever sits there at its end: a player who left is not on record, and one who
    joined during the round is given what its predecessor did. */
module WarzoneTallies {
  import opened Basics
  import opened WarzoneDatabase
  import opened WarzoneAccounts
  import opened WarzoneModel
  import opened WarzoneRounds

  function TotalKills(list: seq<Stats>): int {
    if list == [] then 0 else list[0].kills + TotalKills(list[1..])
  }

  function TotalDeaths(list: seq<Stats>): int {
    if list == [] then 0 else list[0].deaths + TotalDeaths(list[1..])
  }

  /** One update adds its kills and, if it says so, a death. */
  lemma {:induction false} UpdateTallies(list: seq<Stats>, name: string, win: bool, kills: int, died: bool, now: string)
    ensures TotalKills(Updated(list, name, win, kills, died, now)) == TotalKills(list) + kills
    ensures TotalDeaths(Updated(list, name, win, kills, died, now)) == TotalDeaths(list) + One(died)
  {
    if list != [] && list[0].name != name {
      UpdateTallies(list[1..], name, win, kills, died, now);
    }
  }

  lemma {:induction false} AppendedTallies(list: seq<Stats>, s: Stats)
    ensures TotalKills(list + [s]) == TotalKills(list) + s.kills && TotalDeaths(list + [s]) == TotalDeaths(list) + s.deaths
  {
    if list == [] {
      assert list + [s] == [s];
    } else {
      assert (list + [s])[1..] == list[1..] + [s];
      AppendedTallies(list[1..], s);
    }
  }

  // ----- What is filed at the end of a round -----

  /** Somebody whose name the files show sits in the slot. */
  predicate Shown(r: Room, h: nat)
    requires h < SLOTS && Routed(r)
  {
    r.slotConn[h] >= 0 && NameOf(r.conns[r.slotConn[h]]) != "" && !Hidden(NameOf(r.conns[r.slotConn[h]]))
  }

  function SeatedKills(r: Room, g: nat): int
    requires g <= SLOTS && Routed(r)
  {
    if g == 0 then 0 else SeatedKills(r, g - 1) + if Shown(r, g - 1) then r.kills[g - 1] else 0
  }

  function SeatedDeaths(r: Room, g: nat): nat
    requires g <= SLOTS && Routed(r)
  {
    if g == 0 then 0 else SeatedDeaths(r, g - 1) + One(Shown(r, g - 1) && r.died[g - 1])
  }

  lemma {:induction false} SavedTallies(r: Room, g: nat, now: string)
    requires g <= SLOTS && Routed(r)
    ensures TotalKills(Saved(r, g, now)) == TotalKills(r.stats) + SeatedKills(r, g)
    ensures TotalDeaths(Saved(r, g, now)) == TotalDeaths(r.stats) + SeatedDeaths(r, g)
  {
    hide Hidden;
    if g > 0 {
      SavedTallies(r, g - 1, now);
      var before, cid := Saved(r, g - 1, now), r.slotConn[g - 1];
      if cid >= 0 {
        UpdateTallies(before, NameOf(r.conns[cid]), r.winner == cid, r.kills[g - 1], r.died[g - 1], now);
      }
    }
  }

  predicate Ends(r: Room, n: Room) {
    Underway(r) && !Underway(n)
  }

  /** The step ended the round and filed the results of room n. */
  ghost predicate Files(r: Room, n: Room, now: string) {
    Routed(n) && n.stats == Saved(n.(stats := r.stats), SLOTS, now)
  }

  lemma CheckOverFiles(s: Room, hint: int, now: string)
    requires Routed(s) && Underway(s)
    ensures var f := CheckOver(s, hint, now); if f.over then Files(s, f, now) else f == s
  {
    hide Saved, LastLive, LiveCount;
    var f := CheckOver(s, hint, now);
    if f.over {
      assert f.(stats := s.stats) == s.(over := true, winner := f.winner);
    }
  }

  lemma StrikeFiles(m: Match, e: Event, hash: (string, string) -> Hex)
    requires Sound(m) && Routed(m.room) && e.Acts?
    ensures var n := Step(m.room, e, hash);
      if Ends(m.room, n) then Files(m.room, n, e.now) else n.stats == m.room.stats
  {
    var r := m.room;
    if e.cid < CONNS && r.conns[e.cid].Playing? && CanAct(r, e.cid) && e.action.Strike? {
      SlotOfMeans(r, e.cid);
      hide Sound, SlotOf, Attacked, Files;
      AttackFiles(r, SlotOf(r, e.cid), e.now);
    } else {
      hide Sound, SlotOf, Files, WeaponFrom, Moved;
    }
  }

  lemma AttackFiles(r: Room, g: nat, now: string)
    requires Routed(r) && Underway(r) && g < SLOTS
    ensures var n := Attacked(r, g, now); if Ends(r, n) then Files(r, n, now) else n.stats == r.stats
  {
    hide SlotOf, CheckOver, Struck, Files, Killed;
    match Struck(r, g)
    case None =>
    case Some(t) =>
      var dealt := Dealt(r, g, t);
      if dealt.fighters[t].health <= 0 {
        KillKeepsRound(dealt, g, t);
        CheckOverFiles(Killed(dealt, g, t), r.slotConn[g], now);
        CheckOverFrame(Killed(dealt, g, t), r.slotConn[g], now);
        FilesFrom(Killed(dealt, g, t), r, CheckOver(Killed(dealt, g, t), r.slotConn[g], now), now);
      }
  }

  lemma FilesFrom(s: Room, r: Room, n: Room, now: string)
    requires s.stats == r.stats
    ensures Files(s, n, now) <==> Files(r, n, now)
  {
    hide Saved;
  }

  lemma KillKeepsRound(r: Room, g: nat, t: nat)
    requires g < SLOTS && t < SLOTS && Routed(r)
    ensures var k := Killed(r, g, t);
      Routed(k) && k.stats == r.stats && k.started == r.started && k.over == r.over
  {
    hide SlotOf;
  }

  lemma DropFiles(m: Match, cid: nat, now: Stamp)
    requires Sound(m) && Routed(m.room)
    ensures var n := Dropped(m.room, cid, now);
      if Ends(m.room, n) then Files(m.room, n, now) else n.stats == m.room.stats
  {
    var r := m.room;
    if cid < CONNS && !r.conns[cid].Free? && !r.conns[cid].Closing? && SlotOf(r, cid) >= 0 {
      var g := SlotOf(r, cid);
      SlotOfMeans(r, cid);
      LeftShape(r, g, cid);
      DropIs(r, cid, g, now);
      hide Sound, WarzoneRounds.Left, Dropped, CheckOver, SlotOf, Saved, Online;
      if Underway(r) {
        CheckOverFiles(WarzoneRounds.Left(r, g, cid), -1, now);
        CheckOverFrame(WarzoneRounds.Left(r, g, cid), -1, now);
      }
    }
  }

  lemma StepFiles(m: Match, e: Event, hash: (string, string) -> Hex)
    requires Sound(m) && Routed(m.room)
    ensures var n := Step(m.room, e, hash);
      if Ends(m.room, n) then (e.Acts? || e.Drops?) && Files(m.room, n, e.now)
      else n.stats == m.room.stats || (e.Tries? && n.stats == m.room.stats + [NoGames(e.name, e.now)])
  {
    if e.Acts? {
      StrikeFiles(m, e, hash);
    } else if e.Drops? {
      DropFiles(m, e.cid, e.now);
    } else {
      hide Sound, SlotOf, Hidden, Online, ReadyCount, Busy, CanRegister, CanLogin;
      if e.WeaponTick? {
        SpawnedShape(m.room, e.tries);
        hide Spawned;
      }
    }
  }

  // ----- Runs -----

  /** The kills and deaths that the ends of the rounds of a run put on file. */
  ghost function KillsFiled(m: Match, es: seq<Event>, hash: (string, string) -> Hex): int
    requires Sound(m)
    decreases |es|
  {
    hide Sound, Advance;
    if es == [] then 0
    else
      SoundRouted(m);
      StepKept(m, es[0], hash);
      var n := Advance(m, es[0], hash);
      SoundRouted(n);
      (if Ends(m.room, n.room) then SeatedKills(n.room, SLOTS) else 0) + KillsFiled(n, es[1..], hash)
  }

  ghost function DeathsFiled(m: Match, es: seq<Event>, hash: (string, string) -> Hex): nat
    requires Sound(m)
    decreases |es|
  {
    hide Sound, Advance;
    if es == [] then 0
    else
      SoundRouted(m);
      StepKept(m, es[0], hash);
      var n := Advance(m, es[0], hash);
      SoundRouted(n);
      (if Ends(m.room, n.room) then SeatedDeaths(n.room, SLOTS) else 0) + DeathsFiled(n, es[1..], hash)
  }

  lemma StepTallies(m: Match, e: Event, hash: (string, string) -> Hex)
    requires Sound(m) && Routed(m.room)
    ensures var n := Step(m.room, e, hash);
      && Routed(n)
      && TotalKills(n.stats) == TotalKills(m.room.stats) + (if Ends(m.room, n) then SeatedKills(n, SLOTS) else 0)
      && TotalDeaths(n.stats) == TotalDeaths(m.room.stats) + (if Ends(m.room, n) then SeatedDeaths(n, SLOTS) else 0)
  {
    StepFiles(m, e, hash);
    StepKept(m, e, hash);
    hide Sound, Step, Saved;
    SoundRouted(Advance(m, e, hash));
    var n := Step(m.room, e, hash);
    if Ends(m.room, n) {
      var done := n.(stats := m.room.stats);
      SavedTallies(done, SLOTS, e.now);
      SameSeated(done, n, SLOTS);
    } else if n.stats != m.room.stats {
      AppendedTallies(m.room.stats, NoGames(e.name, e.now));
    }
  }

  lemma {:induction false} SameSeated(r: Room, s: Room, g: nat)
    requires g <= SLOTS && Routed(r) && Routed(s) && s == r.(stats := s.stats)
    ensures SeatedKills(s, g) == SeatedKills(r, g) && SeatedDeaths(s, g) == SeatedDeaths(r, g)
    decreases g
  {
    if g > 0 {
      SameSeated(r, s, g - 1);
    }
  }

  /** Over any run the kills and deaths on file grow by exactly what the slots occupied at the end of each
      round held, for names that the files show. */
  lemma {:induction false} RunTallies(m: Match, es: seq<Event>, hash: (string, string) -> Hex)
    requires Sound(m)
    ensures var n := Play(m, es, hash);
      && TotalKills(n.room.stats) == TotalKills(m.room.stats) + KillsFiled(m, es, hash)
      && TotalDeaths(n.room.stats) == TotalDeaths(m.room.stats) + DeathsFiled(m, es, hash)
    decreases |es|
  {
    hide Sound, TotalKills, TotalDeaths, Ends, Step;
    if es != [] {
      SoundRouted(m);
      StepKept(m, es[0], hash);
      StepTallies(m, es[0], hash);
      RunTallies(Advance(m, es[0], hash), es[1..], hash);
    }
  }

  // ----- When the tallies are those of the fighters -----

  /** If exactly the starters sit there at the end and all of their names show, the round files all its
      kills, and as many deaths. */
  lemma WholeRound(m: Match)
    requires Sound(m) && Routed(m.room) && m.room.started
    requires forall h: nat | h < SLOTS :: h in m.starters <==> Shown(m.room, h)
    ensures SeatedKills(m.room, SLOTS) == KillsOf(m.room.kills, m.starters)
    ensures SeatedDeaths(m.room, SLOTS) == DiedOf(m.room.died, m.starters)
    ensures SeatedKills(m.room, SLOTS) == SeatedDeaths(m.room, SLOTS)
  {
    hide Sound, Seated, Manned, Phased, Armoured, Filed, Shown;
    FiveSeats(m.room, m.starters);
    EvenScore(m);
  }

  lemma EvenScore(m: Match)
    requires Sound(m) && m.room.started
    ensures KillsOf(m.room.kills, m.starters) == DiedOf(m.room.died, m.starters)
  {
    hide Seated, Manned, Phased, Armoured, Filed;
  }

  lemma FiveSeats(r: Room, starters: set<nat>)
    requires Routed(r) && forall h: nat | h < SLOTS :: h in starters <==> Shown(r, h)
    ensures SeatedKills(r, SLOTS) == KillsOf(r.kills, starters) && SeatedDeaths(r, SLOTS) == DiedOf(r.died, starters)
  {
    hide Shown;
    var f := (g: nat) requires g < SLOTS => (if g in starters then r.kills[g] else 0, One(g in starters && r.died[g]));
    forall g: nat | 0 < g <= SLOTS
      ensures SeatedKills(r, g) == SeatedKills(r, g - 1) + f(g - 1).0
      ensures SeatedDeaths(r, g) == SeatedDeaths(r, g - 1) + f(g - 1).1
    {
    }
    assert SeatedKills(r, 1) == f(0).0 && SeatedDeaths(r, 1) == f(0).1;
    assert SeatedKills(r, 2) == f(0).0 + f(1).0 && SeatedDeaths(r, 2) == f(0).1 + f(1).1;
    assert SeatedKills(r, 3) == f(0).0 + f(1).0 + f(2).0 && SeatedDeaths(r, 3) == f(0).1 + f(1).1 + f(2).1;
  }

  /** Changing one slot changes what would be filed by that slot's share alone. */
  lemma {:induction false} OneSlot(r: Room, s: Room, g: nat, k: nat)
    requires Routed(r) && Routed(s) && g < SLOTS && k <= SLOTS && s.kills == r.kills && s.died == r.died
    requires forall h: nat | h < SLOTS && h != g :: Shown(s, h) == Shown(r, h)
    ensures SeatedKills(s, k) - SeatedKills(r, k) == if g < k then (One(Shown(s, g)) - One(Shown(r, g))) * r.kills[g] else 0
    ensures SeatedDeaths(s, k) - SeatedDeaths(r, k) ==
      if g < k && r.died[g] then One(Shown(s, g)) - One(Shown(r, g)) else 0
    decreases k
  {
    hide Shown;
    if k > 0 {
      OneSlot(r, s, g, k - 1);
    }
  }

  /** Whoever takes a free slot takes over what the last one in it did: the kills and the death of its
      predecessor will be filed under its own name, and it takes over nothing exactly if there is nothing. */
  lemma JoinInherits(r: Room, cid: nat)
    requires Seated(r) && cid < CONNS && r.conns[cid].Lobby? && EmptyFrom(r.slotConn, 0) >= 0 && !Hidden(r.conns[cid].name)
    requires Routed(r) && Routed(Joined(r, cid))
    ensures var g := EmptyFrom(r.slotConn, 0); var n := Joined(r, cid);
      && n.slotConn[g] == cid
      && SeatedKills(n, SLOTS) == SeatedKills(r, SLOTS) + r.kills[g]
      && SeatedDeaths(n, SLOTS) == SeatedDeaths(r, SLOTS) + One(r.died[g])
      && (SeatedKills(n, SLOTS) == SeatedKills(r, SLOTS) && SeatedDeaths(n, SLOTS) == SeatedDeaths(r, SLOTS)
          <==> r.kills[g] == 0 && !r.died[g])
  {
    hide Hidden, Seated, Shown;
    var g := EmptyFrom(r.slotConn, 0);
    NewcomerShown(r, cid);
    OneSlot(r, Joined(r, cid), g, SLOTS);
  }

  lemma NewcomerShown(r: Room, cid: nat)
    requires Seated(r) && cid < CONNS && r.conns[cid].Lobby? && EmptyFrom(r.slotConn, 0) >= 0 && !Hidden(r.conns[cid].name)
    requires Routed(r) && Routed(Joined(r, cid))
    ensures var g := EmptyFrom(r.slotConn, 0); var n := Joined(r, cid);
      Shown(n, g) && !Shown(r, g) && forall h: nat | h < SLOTS && h != g :: Shown(n, h) == Shown(r, h)
  {
    hide Hidden;
    var g := EmptyFrom(r.slotConn, 0);
    var n := Joined(r, cid);
    assert PlainName(r.conns[cid].name);
    forall h: nat | h < SLOTS && h != g ensures Shown(n, h) == Shown(r, h) {
      OthersShown(r, n, cid, h);
    }
  }

  lemma OthersShown(r: Room, n: Room, cid: nat, h: nat)
    requires Seated(r) && cid < CONNS && r.conns[cid].Lobby? && h < SLOTS && Routed(r) && Routed(n)
    requires n.slotConn[h] == r.slotConn[h] && forall k | 0 <= k < CONNS && k != cid :: n.conns[k] == r.conns[k]
    ensures Shown(n, h) == Shown(r, h)
  {
    hide Hidden, PlainName;
    if r.slotConn[h] >= 0 {
      assert Occupied(r, h);
      assert r.slotConn[h] != cid;
    }
  }
}
