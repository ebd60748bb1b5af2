/** What every run of the warzone server keeps: who sits where, when a round may end and with whom,
    how many strikes it can take, and what reaches the statistics. */
module WarzoneRounds {
  import opened Basics
  import opened WarzoneDatabase
  import opened WarzoneAccounts
  import opened WarzoneModel

  // ----- The match: the room with a record of the current round and of the finished ones -----

  datatype Match = Match(room: Room, starters: set<nat>, hits: nat, finished: nat, credited: nat)

  predicate Underway(r: Room) {
    r.started && !r.over
  }

  ghost predicate Lands(r: Room, e: Event) {
    e.Acts? && e.cid < CONNS && r.conns[e.cid].Playing? && e.action.Strike? && CanAct(r, e.cid)
    && Struck(r, SlotOf(r, e.cid)).Some?
  }

  /** A finished round is credited when its winner's name is one the files show. */
  ghost predicate Credited(r: Room) {
    0 <= r.winner < CONNS && !Hidden(NameOf(r.conns[r.winner]))
  }

  ghost function Advance(m: Match, e: Event, hash: (string, string) -> Hex): Match
    requires Routed(m.room)
  {
    var next := Step(m.room, e, hash);
    var starts := !m.room.started && next.started;
    var ends := Underway(m.room) && !Underway(next);
    Match(next,
          if starts then set g: nat | g < SLOTS && Occupied(next, g) else m.starters,
          if starts then 0 else m.hits + One(Lands(m.room, e)),
          m.finished + One(ends),
          m.credited + One(ends && Credited(next)))
  }

  // ----- Seats -----

  ghost predicate Seated(r: Room) {
    && (forall g | 0 <= g < SLOTS :: -1 <= r.slotConn[g] < CONNS)
    && (forall g, h | Occupied(r, g) && Occupied(r, h) && r.slotConn[g] == r.slotConn[h] :: g == h)
    && (forall g | Occupied(r, g) :: r.conns[r.slotConn[g]].Playing?)
    && (forall c | 0 <= c < CONNS && r.conns[c].Playing? :: exists g :: Occupied(r, g) && r.slotConn[g] == c)
    && (forall c | 0 <= c < CONNS && (r.conns[c].Playing? || r.conns[c].Lobby?) :: PlainName(r.conns[c].name))
  }

  ghost predicate Healthy(f: Fighter) {
    0 < f.health <= MAX_HEALTH && 0 <= f.x < MAP_W && 0 <= f.y < MAP_H
  }

  /** Empty slots hold nobody alive, and whoever is alive is in health and on the map. */
  ghost predicate Manned(r: Room) {
    && (forall g | 0 <= g < SLOTS :: r.fighters[g].connected == Occupied(r, g))
    && (forall g | 0 <= g < SLOTS && r.fighters[g].alive :: Occupied(r, g) && Healthy(r.fighters[g]))
  }

  ghost predicate Phased(r: Room) {
    && (!r.started ==> !r.over && LiveCount(r) == 0)
    && (Underway(r) ==> LiveCount(r) >= 2)
    && (r.over ==> LiveCount(r) <= 1)
  }

  // ----- The round's accounts -----

  function Size(starters: set<nat>): nat {
    One(0 in starters) + One(1 in starters) + One(2 in starters) + One(3 in starters) + One(4 in starters)
  }

  function KillsOf(kills: seq<int>, starters: set<nat>): int
    requires |kills| == SLOTS
  {
    (if 0 in starters then kills[0] else 0) + (if 1 in starters then kills[1] else 0)
    + (if 2 in starters then kills[2] else 0) + (if 3 in starters then kills[3] else 0)
    + (if 4 in starters then kills[4] else 0)
  }

  function DiedOf(died: seq<bool>, starters: set<nat>): nat
    requires |died| == SLOTS
  {
    One(0 in starters && died[0]) + One(1 in starters && died[1]) + One(2 in starters && died[2])
    + One(3 in starters && died[3]) + One(4 in starters && died[4])
  }

  /** How many plain strikes the fighter in the slot can still take. */
  function Toughness(r: Room, g: nat): int
    requires g < SLOTS
  {
    if Live(r, g) then (r.fighters[g].health + ATTACK_DAMAGE - 1) / ATTACK_DAMAGE else 0
  }

  function AllToughness(r: Room): int {
    Toughness(r, 0) + Toughness(r, 1) + Toughness(r, 2) + Toughness(r, 3) + Toughness(r, 4)
  }

  ghost predicate Scored(m: Match) {
    m.room.started ==>
      && Size(m.starters) >= 2
      && (forall g | 0 <= g < SLOTS && Live(m.room, g) :: g in m.starters && !m.room.died[g])
      && KillsOf(m.room.kills, m.starters) == DiedOf(m.room.died, m.starters)
      && m.hits <= 7 * Size(m.starters) - 1
      && (Underway(m.room) ==> m.hits + AllToughness(m.room) <= 7 * Size(m.starters))
  }

  /** No two weapons lie on one cell, and nobody alive stands on one. */
  ghost predicate Armoured(r: Room) {
    && (forall i, j | 0 <= i < j < WEAPONS && r.weapons[i].active && r.weapons[j].active ::
          r.weapons[i].x != r.weapons[j].x || r.weapons[i].y != r.weapons[j].y)
    && (forall g, i | Live(r, g) && 0 <= i < WEAPONS && r.weapons[i].active ::
          r.weapons[i].x != r.fighters[g].x || r.weapons[i].y != r.fighters[g].y)
  }

  ghost predicate Filed(r: Room) {
    UsersOnFile(r.users) && StatsOnFile(r.stats) && Balanced(r.stats)
  }

  ghost predicate Sound(m: Match) {
    && Seated(m.room) && Manned(m.room) && Phased(m.room) && Scored(m) && Armoured(m.room) && Filed(m.room)
    && m.credited <= m.finished
  }

  function Opening(users: seq<User>, stats: seq<Stats>): Match {
    Match(NewRoom(users, stats), {}, 0, 0, 0)
  }

  lemma SoundStart(users: seq<User>, stats: seq<Stats>)
    requires UsersOnFile(users) && StatsOnFile(stats) && Balanced(stats)
    ensures Sound(Opening(users, stats))
  {
    hide UsersOnFile, StatsOnFile, Balanced;
  }

  lemma SoundRouted(m: Match)
    requires Sound(m)
    ensures Routed(m.room)
  {
  }

  lemma SlotOfMeans(r: Room, cid: int)
    requires Seated(r) && cid >= 0
    ensures SlotOf(r, cid) >= 0 <==> exists g :: Occupied(r, g) && r.slotConn[g] == cid
    ensures SlotOf(r, cid) >= 0 ==> Occupied(r, SlotOf(r, cid)) && r.slotConn[SlotOf(r, cid)] == cid
    ensures forall g | Occupied(r, g) && r.slotConn[g] == cid :: SlotOf(r, cid) == g
  {
    SlotFromMeans(r.slotConn, cid, 0);
  }

  // ----- Saving the results of a round -----

  lemma {:induction false} SavedKeeps(r: Room, g: nat, now: Stamp)
    requires Seated(r) && Filed(r) && g <= SLOTS
    requires Routed(r)
    ensures StatsOnFile(Saved(r, g, now)) && Balanced(Saved(r, g, now))
  {
    hide StorableStats, PlainName, Hidden;
    if g > 0 {
      SavedKeeps(r, g - 1, now);
      var before, cid := Saved(r, g - 1, now), r.slotConn[g - 1];
      if cid >= 0 && NameOf(r.conns[cid]) != "" {
        var name, win := NameOf(r.conns[cid]), r.winner == cid;
        assert Occupied(r, g - 1);
        UpdateThroughFile(before, name, win, r.kills[g - 1], r.died[g - 1], now);
        UpdateAccounts(before, name, win, r.kills[g - 1], r.died[g - 1], now);
      }
    }
  }

  /** Of the slots below g only the winner's adds a win, and only if its name is one the files show. */
  lemma {:induction false} SavedWins(r: Room, g: nat, now: Stamp, k: nat)
    requires Seated(r) && Filed(r) && g <= SLOTS && Occupied(r, k) && r.winner == r.slotConn[k]
    requires Routed(r)
    ensures TotalWins(Saved(r, g, now)) == TotalWins(r.stats) + One(k < g && Credited(r))
  {
    hide StorableStats, Hidden;
    if g > 0 {
      SavedWins(r, g - 1, now, k);
      SavedKeeps(r, g - 1, now);
      var before, cid := Saved(r, g - 1, now), r.slotConn[g - 1];
      if cid >= 0 {
        assert Occupied(r, g - 1);
        assert NameOf(r.conns[cid]) != "";
        assert r.winner == cid <==> g - 1 == k;
        UpdateAccounts(before, NameOf(r.conns[cid]), r.winner == cid, r.kills[g - 1], r.died[g - 1], now);
      }
    }
  }

  /** A room whose round just ended: one fighter is left, and the winner is its connection. */
  ghost predicate WonBy(r: Room, g: int) {
    r.started && r.over && Live(r, g) && r.winner == r.slotConn[g] && forall h | Live(r, h) :: h == g
  }

  lemma LoneSurvivor(r: Room)
    requires LiveCount(r) >= 1
    ensures LastLive(r, SLOTS) >= 0
    ensures LiveCount(r) == 1 ==> forall h | Live(r, h) :: h == LastLive(r, SLOTS)
  {
    var k := LastLive(r, SLOTS);
    hide LastLive;
    assert Live(r, 0) || Live(r, 1) || Live(r, 2) || Live(r, 3) || Live(r, 4);
    forall h | Live(r, h) && LiveCount(r) == 1 ensures h == k {
      assert h == 0 || h == 1 || h == 2 || h == 3 || h == 4;
    }
  }

  lemma FinishMeans(r: Room, k: nat, now: Stamp)
    requires Seated(r) && Filed(r) && Occupied(r, k)
    requires Routed(r)
    ensures var f := Finish(r, r.slotConn[k], now);
      f == r.(over := true, winner := r.slotConn[k], stats := f.stats) && Filed(f)
      && TotalWins(f.stats) == TotalWins(r.stats) + One(Credited(f))
  {
    var done := r.(over := true, winner := r.slotConn[k]);
    assert Seated(done) && Routed(done) && Occupied(done, k);
    SavedKeeps(done, SLOTS, now);
    SavedWins(done, SLOTS, now, k);
    hide Saved, StorableStats, Seated;
  }

  lemma CheckOverIs(r: Room, hint: int, now: string)
    requires LiveCount(r) >= 1 && Routed(r)
    ensures CheckOver(r, hint, now) ==
      if LiveCount(r) >= 2 then r else Finish(r, r.slotConn[LastLive(r, SLOTS)], now)
  {
    LoneSurvivor(r);
    hide Finish, LiveCount, LastLive;
  }

  lemma SurvivorWins(r: Room, f: Room, k: nat)
    requires r.started && Live(r, k) && forall h | Live(r, h) :: h == k
    requires f == r.(over := true, winner := r.slotConn[k], stats := f.stats)
    ensures WonBy(f, k)
  {
    assert forall h | Live(f, h) :: Live(r, h);
  }

  /** As somebody is alive the check never takes the branch in which everyone died. */
  lemma CheckOverMeans(r: Room, hint: int, now: Stamp)
    requires Seated(r) && Filed(r) && Underway(r) && LiveCount(r) >= 1
    requires Routed(r)
    ensures LiveCount(r) >= 2 ==> CheckOver(r, hint, now) == r
    ensures LiveCount(r) == 1 ==>
      (var f := CheckOver(r, hint, now);
       f == r.(over := true, winner := f.winner, stats := f.stats) && WonBy(f, LastLive(r, SLOTS)) && Filed(f)
       && TotalWins(f.stats) == TotalWins(r.stats) + One(Credited(f)))
  {
    hide Finish, Filed, Seated, Credited, WonBy, LiveCount, LastLive, TotalWins, CheckOver;
    CheckOverIs(r, hint, now);
    if LiveCount(r) == 1 {
      LoneSurvivor(r);
      var k := LastLive(r, SLOTS);
      FinishMeans(r, k, now);
      SurvivorWins(r, CheckOver(r, hint, now), k);
    }
  }

  // ----- Counting over the slots -----

  lemma SameLive(r: Room, s: Room)
    requires forall g | 0 <= g < SLOTS :: Live(s, g) == Live(r, g)
    ensures LiveCount(s) == LiveCount(r)
    ensures (forall g | 0 <= g < SLOTS && Live(r, g) :: s.fighters[g].health == r.fighters[g].health)
      ==> AllToughness(s) == AllToughness(r)
  {
    assert Live(s, 0) == Live(r, 0) && Live(s, 1) == Live(r, 1) && Live(s, 2) == Live(r, 2);
    assert Live(s, 3) == Live(r, 3) && Live(s, 4) == Live(r, 4);
  }

  lemma OneLess(r: Room, s: Room, t: nat)
    requires Live(r, t) && !Live(s, t) && forall g | 0 <= g < SLOTS && g != t :: Live(s, g) == Live(r, g)
    ensures LiveCount(s) == LiveCount(r) - 1
  {
    assert t < SLOTS;
    hide Live;
    assert t == 0 || t == 1 || t == 2 || t == 3 || t == 4;
    assert Live(s, 0) == Live(r, 0) || t == 0;
    assert Live(s, 1) == Live(r, 1) || t == 1;
    assert Live(s, 2) == Live(r, 2) || t == 2;
    assert Live(s, 3) == Live(r, 3) || t == 3;
    assert Live(s, 4) == Live(r, 4) || t == 4;
  }

  /** Slot t lost some toughness and the others kept theirs. */
  lemma ToughnessMoved(r: Room, s: Room, t: nat)
    requires t < SLOTS && forall g | 0 <= g < SLOTS && g != t :: Toughness(s, g) == Toughness(r, g)
    ensures AllToughness(s) == AllToughness(r) - Toughness(r, t) + Toughness(s, t)
  {
    hide Toughness;
    assert t == 0 || t == 1 || t == 2 || t == 3 || t == 4;
    assert Toughness(s, 0) == Toughness(r, 0) || t == 0;
    assert Toughness(s, 1) == Toughness(r, 1) || t == 1;
    assert Toughness(s, 2) == Toughness(r, 2) || t == 2;
    assert Toughness(s, 3) == Toughness(r, 3) || t == 3;
    assert Toughness(s, 4) == Toughness(r, 4) || t == 4;
  }

  lemma ToughnessAtLeast(r: Room)
    requires Manned(r)
    ensures AllToughness(r) >= LiveCount(r)
  {
    assert forall g | 0 <= g < SLOTS && Live(r, g) :: Toughness(r, g) >= 1;
    assert Live(r, 0) ==> Toughness(r, 0) >= 1;
    assert Live(r, 1) ==> Toughness(r, 1) >= 1;
    assert Live(r, 2) ==> Toughness(r, 2) >= 1;
    assert Live(r, 3) ==> Toughness(r, 3) >= 1;
    assert Live(r, 4) ==> Toughness(r, 4) >= 1;
  }

  /** Nothing that is counted has changed. */
  ghost predicate SameScore(r: Room, s: Room) {
    && (forall h | 0 <= h < SLOTS :: Live(s, h) == Live(r, h))
    && (forall h | 0 <= h < SLOTS && Live(r, h) :: s.fighters[h].health == r.fighters[h].health)
    && s.kills == r.kills && s.died == r.died && s.started == r.started && s.over == r.over
  }

  lemma SameScoreKept(m: Match, s: Room)
    requires Phased(m.room) && Scored(m) && SameScore(m.room, s)
    ensures Phased(s) && Scored(m.(room := s))
  {
    SameLive(m.room, s);
    hide LiveCount, AllToughness, KillsOf, DiedOf, Size;
    assert forall h | Live(s, h) :: 0 <= h < SLOTS && Live(m.room, h);
    hide Live;
  }

  /** Nothing that fights has moved either. */
  ghost predicate SameFight(r: Room, s: Room) {
    && SameScore(r, s) && s.weapons == r.weapons
    && (forall h | 0 <= h < SLOTS && Live(r, h) :: s.fighters[h].x == r.fighters[h].x && s.fighters[h].y == r.fighters[h].y)
  }

  lemma SameFightKept(m: Match, s: Room)
    requires Phased(m.room) && Scored(m) && Armoured(m.room) && SameFight(m.room, s)
    ensures Phased(s) && Scored(m.(room := s)) && Armoured(s)
  {
    SameScoreKept(m, s);
    hide Phased, Scored;
    assert forall h | Live(s, h) :: 0 <= h < SLOTS && Live(m.room, h);
    hide Live;
  }

  // ----- Steps -----

  /** What a step keeps: soundness, the balance of wins and credited rounds, and that a round that is
      over has a sole survivor who won it. */
  ghost predicate Kept(m: Match, n: Match) {
    && Sound(n)
    && TotalWins(n.room.stats) - n.credited == TotalWins(m.room.stats) - m.credited
    && (Underway(m.room) && !Underway(n.room) ==> exists g :: WonBy(n.room, g))
  }

  /** Steps that touch neither slots nor fighters nor weapons. */
  lemma QuietKept(m: Match, next: Room)
    requires Sound(m) && Seated(next) && Filed(next) && TotalWins(next.stats) == TotalWins(m.room.stats)
    requires next == m.room.(conns := next.conns, users := next.users, stats := next.stats)
    ensures Kept(m, m.(room := next))
  {
    hide Seated, Filed, TotalWins;
    SameLive(m.room, next);
  }

  /** A connection that is not playing changes its phase. */
  lemma SeatedPhase(r: Room, s: Room, cid: nat, c: Conn)
    requires Seated(r) && cid < CONNS && !r.conns[cid].Playing? && !c.Playing? && (c.Lobby? ==> PlainName(c.name))
    requires s.slotConn == r.slotConn && s.conns == r.conns[cid := c]
    ensures Seated(s)
  {
    hide PlainName;
    forall k | 0 <= k < CONNS && s.conns[k].Playing? ensures exists g :: Occupied(s, g) && s.slotConn[g] == k {
      var g :| Occupied(r, g) && r.slotConn[g] == k;
      assert Occupied(s, g);
    }
  }

  lemma QuietAdvance(m: Match, e: Event, hash: (string, string) -> Hex)
    requires Routed(m.room) && !e.Acts?
    requires var next := Step(m.room, e, hash); next.started == m.room.started && next.over == m.room.over
    ensures Advance(m, e, hash) == m.(room := Step(m.room, e, hash))
  {
    hide Step;
  }

  lemma FiledSame(r: Room, s: Room)
    ensures s.users == r.users && s.stats == r.stats ==> (Filed(r) <==> Filed(s)) && TotalWins(s.stats) == TotalWins(r.stats)
  {
  }

  lemma AcceptsKept(m: Match, hash: (string, string) -> Hex)
    requires Sound(m)
    requires Routed(m.room)
    ensures Kept(m, Advance(m, Accepts, hash))
  {
    hide Seated, Filed, Manned, Scored, Phased, Armoured, Kept, TotalWins;
    var next := Accepted(m.room);
    if next != m.room {
      SeatedPhase(m.room, next, FreeFrom(m.room.conns, 0), Auth(0));
    }
    FiledSame(m.room, next);
    QuietKept(m, next);
    QuietAdvance(m, Accepts, hash);
  }

  lemma ClosesKept(m: Match, cid: nat, hash: (string, string) -> Hex)
    requires Sound(m)
    requires Routed(m.room)
    ensures Kept(m, Advance(m, Closes(cid), hash))
  {
    hide Seated, Filed, Manned, Scored, Phased, Armoured, Kept, TotalWins;
    var next := Closed(m.room, cid);
    if next != m.room {
      SeatedPhase(m.room, next, cid, Free);
    }
    FiledSame(m.room, next);
    QuietKept(m, next);
    QuietAdvance(m, Closes(cid), hash);
  }

  lemma {:induction false} WinsOfAppended(list: seq<Stats>, s: Stats)
    ensures TotalWins(list + [s]) == TotalWins(list) + s.wins
  {
    if list == [] {
      assert list + [s] == [s];
    } else {
      assert (list + [s])[1..] == list[1..] + [s];
      WinsOfAppended(list[1..], s);
    }
  }

  lemma RegisteredFiled(r: Room, name: string, pw: string, now: Stamp, hash: (string, string) -> Hex)
    requires Filed(r)
    ensures var s := Registered(r, name, pw, now, hash); Filed(s) && TotalWins(s.stats) == TotalWins(r.stats)
    ensures CanRegister(r.users, name, pw) ==> PlainName(name)
  {
    WinsOfAppended(r.stats, NoGames(name, now));
    hide TotalWins;
    if CanRegister(r.users, name, pw) && !Hidden(name) {
      assert StorableUser(User(name, hash(name, pw), now)) && StorableStats(NoGames(name, now));
      hide StorableUser, StorableStats, CanRegister, PlainName;
      var s := Registered(r, name, pw, now, hash);
      assert forall u | u in s.users :: u in r.users || u == User(name, hash(name, pw), now);
      assert forall x | x in s.stats :: x in r.stats || x == NoGames(name, now);
    }
  }

  lemma LoginIsPlain(r: Room, name: string, pw: string, hash: (string, string) -> Hex)
    requires Filed(r) && CanLogin(r.users, name, pw, hash)
    ensures PlainName(name)
  {
    FindUserMeans(r.users, name);
  }

  lemma TriesKept(m: Match, e: Event, hash: (string, string) -> Hex)
    requires Sound(m) && e.Tries?
    requires Routed(m.room)
    ensures Kept(m, Advance(m, e, hash))
  {
    var r := m.room;
    hide Seated, Filed, Manned, Scored, Phased, Armoured, Kept, TotalWins, CanRegister, CanLogin, PlainName, Hidden;
    var next := Tried(r, e, hash);
    RegisteredFiled(r, e.name, e.pw, e.now, hash);
    if CanLogin(r.users, e.name, e.pw, hash) {
      LoginIsPlain(r, e.name, e.pw, hash);
    }
    if next != r {
      SeatedPhase(r, next, e.cid, next.conns[e.cid]);
    }
    FiledSame(if e.register then Registered(r, e.name, e.pw, e.now, hash) else r, next);
    FiledSame(r, next);
    QuietKept(m, next);
    QuietAdvance(m, e, hash);
  }

  lemma SeatedJoin(r: Room, s: Room, g: nat, cid: nat)
    requires Seated(r) && g < SLOTS && !Occupied(r, g) && cid < CONNS && r.conns[cid].Lobby?
    requires s.slotConn == r.slotConn[g := cid] && s.conns == r.conns[cid := Playing(r.conns[cid].name)]
    ensures Seated(s)
  {
    hide PlainName;
    assert forall h | 0 <= h < SLOTS && h != g :: Occupied(s, h) == Occupied(r, h) && s.slotConn[h] == r.slotConn[h];
    assert Occupied(s, g);
    forall k | 0 <= k < CONNS && s.conns[k].Playing? ensures exists h :: Occupied(s, h) && s.slotConn[h] == k {
      if k != cid {
        var h :| Occupied(r, h) && r.slotConn[h] == k;
        assert Occupied(s, h);
      }
    }
  }

  /** A newcomer who is not alive changes no count. */
  lemma NewcomerKept(m: Match, s: Room, g: nat)
    requires Manned(m.room) && Phased(m.room) && Scored(m) && Armoured(m.room) && g < SLOTS && !Occupied(m.room, g)
    requires s == m.room.(slotConn := s.slotConn, fighters := m.room.fighters[g := NOBODY.(connected := true)], conns := s.conns)
    requires s.slotConn == m.room.slotConn[g := s.slotConn[g]] && s.slotConn[g] >= 0
    ensures Manned(s) && Phased(s) && Scored(m.(room := s)) && Armoured(s)
  {
    var r := m.room;
    assert forall h | 0 <= h < SLOTS && h != g :: Occupied(s, h) == Occupied(r, h) && s.fighters[h] == r.fighters[h];
    assert !r.fighters[g].alive && !s.fighters[g].alive && s.fighters[g].connected && Occupied(s, g);
    assert SameFight(r, s);
    assert Manned(s) by {
      hide Healthy, SameFight;
    }
    hide Manned, SameFight;
    SameFightKept(m, s);
  }

  lemma JoinsKept(m: Match, cid: nat, hash: (string, string) -> Hex)
    requires Sound(m)
    requires Routed(m.room)
    ensures Kept(m, Advance(m, Joins(cid), hash))
  {
    var r := m.room;
    hide Seated, Filed, Manned, Scored, Phased, Armoured, TotalWins;
    var next := Joined(r, cid);
    if next != r {
      var g := EmptyFrom(r.slotConn, 0);
      SeatedJoin(r, next, g, cid);
      NewcomerKept(m, next, g);
    }
    FiledSame(r, next);
    QuietAdvance(m, Joins(cid), hash);
  }

  // ----- The start of a round -----

  lemma OnlineIs(r: Room)
    ensures Rank(r, SLOTS) == Online(r)
    ensures forall g | 0 <= g < SLOTS && Occupied(r, g) :: Rank(r, g) < Online(r)
  {
    assert Rank(r, 1) == One(Occupied(r, 0));
    assert Rank(r, 2) == Rank(r, 1) + One(Occupied(r, 1));
    assert Rank(r, 3) == Rank(r, 2) + One(Occupied(r, 2));
    assert Rank(r, 4) == Rank(r, 3) + One(Occupied(r, 3));
    assert Rank(r, 5) == Rank(r, 4) + One(Occupied(r, 4));
    hide Occupied, Rank;
    forall g | 0 <= g < SLOTS && Occupied(r, g) ensures Rank(r, g) < Online(r) {
      assert g == 0 || g == 1 || g == 2 || g == 3 || g == 4;
    }
  }

  lemma {:induction false} RanksGrow(r: Room, g: nat, h: nat)
    requires g < h <= SLOTS && Occupied(r, g)
    ensures Rank(r, g) < Rank(r, h)
    decreases h
  {
    if h > g + 1 {
      RanksGrow(r, g, h - 1);
    }
  }

  /** The starters of a round stand on different cells. */
  lemma StartsApart(r: Room, g: nat, h: nat)
    requires g < h < SLOTS && Occupied(r, g) && Occupied(r, h)
    ensures Fresh(r, g).x != Fresh(r, h).x || Fresh(r, g).y != Fresh(r, h).y
  {
    OnlineIs(r);
    RanksGrow(r, g, h);
    hide Rank, Online;
  }

  lemma ResetShape(r: Room)
    ensures forall g | 0 <= g < SLOTS :: Live(Reset(r), g) == Occupied(r, g)
    ensures LiveCount(Reset(r)) == Online(r)
    ensures Seated(r) ==> Seated(Reset(r))
    ensures (forall g | 0 <= g < SLOTS :: r.fighters[g].alive ==> Occupied(r, g)) ==> Manned(Reset(r))
  {
    var s := Reset(r);
    assert forall g | 0 <= g < SLOTS :: s.fighters[g] == Fresh(r, g) && Occupied(s, g) == Occupied(r, g);
    assert forall g | 0 <= g < SLOTS :: Live(s, g) == Occupied(r, g);
    LiveIsOnline(s, r);
    assert s.slotConn == r.slotConn && s.conns == r.conns;
    if Seated(r) {
      SeatedSame(r, s);
    }
    StartsHealthy(r);
    hide Reset, Online, Rank, Start, Seated, Healthy;
  }

  lemma StartsHealthy(r: Room)
    ensures forall g | 0 <= g < SLOTS && Occupied(r, g) :: Healthy(Fresh(r, g))
  {
    OnlineIs(r);
    hide Online, Rank;
  }

  lemma LiveIsOnline(s: Room, r: Room)
    requires forall g | 0 <= g < SLOTS :: Live(s, g) == Occupied(r, g)
    ensures LiveCount(s) == Online(r)
  {
    hide Live, Occupied;
    assert Live(s, 0) == Occupied(r, 0) && Live(s, 1) == Occupied(r, 1) && Live(s, 2) == Occupied(r, 2);
    assert Live(s, 3) == Occupied(r, 3) && Live(s, 4) == Occupied(r, 4);
  }

  ghost function OccupiedSlots(r: Room): set<nat> {
    set g: nat | g < SLOTS && Occupied(r, g)
  }

  /** A new round begins without kills, with seven strikes of health in every starter. */
  lemma ResetScored(r: Room, m: Match)
    requires Online(r) >= 2 && m.room == Reset(r) && m.starters == OccupiedSlots(m.room) && m.hits == 0
    ensures Scored(m) && Armoured(m.room)
  {
    var s := m.room;
    ResetShape(r);
    assert forall g | 0 <= g < SLOTS :: s.fighters[g] == Fresh(r, g) && Occupied(s, g) == Occupied(r, g);
    assert forall g | 0 <= g < SLOTS && Occupied(r, g) :: s.kills[g] == 0 && !s.died[g] && s.fighters[g].health == MAX_HEALTH;
    assert forall i | 0 <= i < WEAPONS :: !s.weapons[i].active;
    hide Reset, Fresh, Rank, LiveCount;
    assert forall g: nat | g < SLOTS :: g in m.starters <==> Occupied(r, g);
    assert forall g | 0 <= g < SLOTS :: Toughness(s, g) == 7 * One(Occupied(r, g));
    hide Toughness, Live;
    FullToughness(r, s, m.starters);
  }

  lemma FullToughness(r: Room, s: Room, starters: set<nat>)
    requires forall g: nat | g < SLOTS :: g in starters <==> Occupied(r, g)
    requires forall g | 0 <= g < SLOTS && Occupied(r, g) :: s.kills[g] == 0 && !s.died[g]
    requires forall g | 0 <= g < SLOTS :: Toughness(s, g) == 7 * One(Occupied(r, g))
    ensures Size(starters) == Online(r) && AllToughness(s) == 7 * Online(r)
    ensures KillsOf(s.kills, starters) == 0 && DiedOf(s.died, starters) == 0
  {
    hide Toughness, Occupied;
    assert (0 in starters) == Occupied(r, 0) && (1 in starters) == Occupied(r, 1) && (2 in starters) == Occupied(r, 2);
    assert (3 in starters) == Occupied(r, 3) && (4 in starters) == Occupied(r, 4);
    assert Toughness(s, 0) == 7 * One(Occupied(r, 0)) && Toughness(s, 1) == 7 * One(Occupied(r, 1));
    assert Toughness(s, 2) == 7 * One(Occupied(r, 2)) && Toughness(s, 3) == 7 * One(Occupied(r, 3));
    assert Toughness(s, 4) == 7 * One(Occupied(r, 4));
  }

  function Flagged(r: Room, g: nat): Room
    requires g < SLOTS
  {
    r.(fighters := r.fighters[g := r.fighters[g].(ready := true)])
  }

  lemma FlagFacts(r: Room, g: nat)
    requires g < SLOTS
    ensures SameFight(r, Flagged(r, g))
    ensures Manned(r) ==> Manned(Flagged(r, g))
  {
    var s := Flagged(r, g);
    assert forall h | 0 <= h < SLOTS && h != g :: s.fighters[h] == r.fighters[h];
    assert s.fighters[g].alive == r.fighters[g].alive && s.fighters[g].connected == r.fighters[g].connected;
    assert Healthy(r.fighters[g]) <==> Healthy(s.fighters[g]);
    hide Healthy;
  }

  /** Raising the ready flag changes nothing that is counted. */
  lemma FlagKept(m: Match, g: nat)
    requires Seated(m.room) && Manned(m.room) && Phased(m.room) && Scored(m) && Armoured(m.room) && g < SLOTS
    ensures var s := Flagged(m.room, g); Seated(s) && Manned(s) && Phased(s) && Scored(m.(room := s)) && Armoured(s)
  {
    hide Seated, Manned, SameFight;
    FlagFacts(m.room, g);
    SeatedSame(m.room, Flagged(m.room, g));
    SameFightKept(m, Flagged(m.room, g));
  }

  lemma SeatedSame(r: Room, s: Room)
    requires Seated(r) && s.slotConn == r.slotConn && s.conns == r.conns
    ensures Seated(s)
  {
    hide PlainName;
    assert forall h :: Occupied(s, h) == Occupied(r, h);
  }

  /** The last player to get ready starts the round. */
  lemma StartKept(m: Match, n: Match, s: Room)
    requires Seated(s) && Manned(s) && Filed(s) && Online(s) >= 2 && s.stats == m.room.stats && m.credited <= m.finished
    requires n.room == Reset(s) && n.starters == OccupiedSlots(n.room) && n.hits == 0
    requires n.finished == m.finished && n.credited == m.credited && !m.room.started
    ensures Kept(m, n)
  {
    ResetShape(s);
    ResetScored(s, n);
    FiledSame(s, n.room);
    hide Seated, Manned, Filed, Scored, Armoured, TotalWins, LiveCount, Online;
  }

  lemma ReadiesKept(m: Match, cid: nat, hash: (string, string) -> Hex)
    requires Sound(m)
    requires Routed(m.room)
    ensures Kept(m, Advance(m, Readies(cid), hash))
  {
    var r := m.room;
    var next := Readied(r, cid);
    var n := Advance(m, Readies(cid), hash);
    SlotFromMeans(r.slotConn, cid, 0);
    var g := SlotOf(r, cid);
    ReadiedIs(r, cid);
    hide Sound, Kept, Advance, Flagged, Online, Reset, SlotOf, Readied;
    if next == r {
      QuietAdvance(m, Readies(cid), hash);
      SameKept(m);
    } else if next == Flagged(r, g) {
      RaisedKept(m, g);
      QuietAdvance(m, Readies(cid), hash);
    } else {
      RaisedKept(m, g);
      BegunKept(m, cid, g, hash);
    }
  }

  lemma SameKept(m: Match)
    requires Sound(m)
    ensures Kept(m, m)
  {
    hide Sound, TotalWins;
  }

  lemma RaisedKept(m: Match, g: nat)
    requires Sound(m) && g < SLOTS
    ensures var f := Flagged(m.room, g); Kept(m, m.(room := f)) && f == m.room.(fighters := f.fighters)
  {
    hide Seated, Manned, Filed, Scored, Armoured, Phased, TotalWins;
    FlagKept(m, g);
    FiledSame(m.room, Flagged(m.room, g));
  }

  lemma RaisedParts(m: Match, g: nat)
    requires Sound(m) && g < SLOTS
    ensures var f := Flagged(m.room, g); Seated(f) && Manned(f) && Filed(f) && f.stats == m.room.stats
    ensures m.credited <= m.finished
  {
    hide Seated, Manned, Filed, Scored, Armoured, Phased, TotalWins;
    FlagKept(m, g);
    FiledSame(m.room, Flagged(m.room, g));
  }

  lemma BegunKept(m: Match, cid: nat, g: nat, hash: (string, string) -> Hex)
    requires Sound(m) && Routed(m.room) && g < SLOTS && !m.room.started && Online(Flagged(m.room, g)) >= 2
    requires Readied(m.room, cid) == Reset(Flagged(m.room, g))
    ensures Kept(m, Advance(m, Readies(cid), hash))
  {
    hide Sound, Seated, Manned, Filed, TotalWins, Online, Reset, Readied, Kept, Flagged;
    var f, n := Flagged(m.room, g), Advance(m, Readies(cid), hash);
    RaisedParts(m, g);
    ResetFlags(f);
    assert n.starters == OccupiedSlots(n.room);
    StartKept(m, n, f);
  }

  lemma ResetFlags(r: Room)
    ensures Reset(r).started && !Reset(r).over
  {
    hide Fresh;
  }

  /** Getting ready does nothing, or raises the flag, or starts the round with the flag raised. */
  lemma ReadiedIs(r: Room, cid: nat)
    ensures var g := SlotOf(r, cid); var s := Readied(r, cid);
      s == r || (0 <= g < SLOTS && !r.started && (s == Flagged(r, g) || (s == Reset(Flagged(r, g)) && Online(Flagged(r, g)) >= 2)))
  {
    SlotFromMeans(r.slotConn, cid, 0);
    hide Reset, Online, ReadyCount;
  }

  // ----- Weapons -----

  lemma {:induction false} SpawnedShape(r: Room, tries: seq<(int, int)>)
    ensures var s := Spawned(r, tries); var k := IdleFrom(r.weapons, 0);
      s == r || (k >= 0 && exists x, y :: !Busy(r, x, y) && s == r.(weapons := r.weapons[k := Weapon(x, y, true)]))
    decreases |tries|
  {
    hide Busy;
    if tries != [] {
      SpawnedShape(r, tries[1..]);
    }
  }

  lemma SpawnedArmoured(r: Room, tries: seq<(int, int)>)
    requires Armoured(r)
    ensures Armoured(Spawned(r, tries))
  {
    var s, k := Spawned(r, tries), IdleFrom(r.weapons, 0);
    SpawnedShape(r, tries);
    if s != r {
      var x, y :| !Busy(r, x, y) && s == r.(weapons := r.weapons[k := Weapon(x, y, true)]);
      assert forall i | 0 <= i < WEAPONS && r.weapons[i].active :: r.weapons[i].x != x || r.weapons[i].y != y;
      assert forall g | Live(r, g) :: r.fighters[g].x != x || r.fighters[g].y != y;
      assert forall g :: Live(s, g) == Live(r, g);
      hide Busy, Live;
    }
  }

  lemma UnitsSame(r: Room, s: Room)
    requires s == r.(weapons := s.weapons)
    ensures SameScore(r, s) && (Manned(r) ==> Manned(s))
  {
    hide Healthy;
  }

  lemma WeaponTickKept(m: Match, tries: Draws, hash: (string, string) -> Hex)
    requires Sound(m)
    requires Routed(m.room)
    ensures Kept(m, Advance(m, WeaponTick(tries), hash))
  {
    hide Spawned, Busy, Armoured, Seated, Manned, Filed, Scored, Phased, TotalWins, SameScore, Kept, Advance;
    var next := if Underway(m.room) then Spawned(m.room, tries) else m.room;
    SpawnedShape(m.room, tries);
    SpawnedArmoured(m.room, tries);
    assert next == m.room.(weapons := next.weapons);
    ArmedKept(m, next);
    QuietAdvance(m, WeaponTick(tries), hash);
  }

  lemma ArmedKept(m: Match, next: Room)
    requires Sound(m) && Armoured(next) && next == m.room.(weapons := next.weapons)
    ensures Kept(m, m.(room := next))
  {
    hide Armoured, Seated, Manned, Filed, Scored, Phased, TotalWins, SameScore;
    UnitsSame(m.room, next);
    SameScoreKept(m, next);
    SeatedSame(m.room, next);
    FiledSame(m.room, next);
  }

  // ----- Moves -----

  lemma MovedHealthy(f: Fighter, a: Action)
    requires Healthy(f)
    ensures Healthy(Moved(f, a)) && Moved(f, a) == f.(x := Moved(f, a).x, y := Moved(f, a).y)
  {
  }

  ghost function Walked(r: Room, g: nat, a: Action): Room
    requires g < SLOTS
  {
    PickUp(r.(fighters := r.fighters[g := Moved(r.fighters[g], a)]), g)
  }

  lemma WalkedShape(r: Room, g: nat, a: Action)
    requires Manned(r) && Live(r, g)
    ensures var s := Walked(r, g, a);
      Manned(s) && SameScore(r, s) && s == r.(fighters := s.fighters, weapons := s.weapons)
    ensures var s := Walked(r, g, a); forall h | 0 <= h < SLOTS && h != g :: s.fighters[h] == r.fighters[h]
  {
    MovedHealthy(r.fighters[g], a);
    hide Moved;
    var s := Walked(r, g, a);
    assert forall h | 0 <= h < SLOTS && h != g :: s.fighters[h] == r.fighters[h];
    assert Healthy(s.fighters[g]) && s.fighters[g].alive && s.fighters[g].connected;
    assert s.fighters[g].health == r.fighters[g].health && s.slotConn == r.slotConn;
    hide Walked, PickUp, Healthy;
  }

  /** Whoever steps on a weapon takes it, so nobody is left standing on one. */
  lemma WalkedArmoured(r: Room, g: nat, a: Action)
    requires Manned(r) && Live(r, g) && Armoured(r)
    ensures Armoured(Walked(r, g, a))
  {
    var t := r.(fighters := r.fighters[g := Moved(r.fighters[g], a)]);
    var k := WeaponFrom(t.weapons, t.fighters[g].x, t.fighters[g].y, 0);
    var s := Walked(r, g, a);
    hide Moved, WeaponFrom;
    assert forall h | 0 <= h < SLOTS && h != g :: s.fighters[h] == r.fighters[h];
    assert s.fighters[g].x == t.fighters[g].x && s.fighters[g].y == t.fighters[g].y;
    assert forall i | 0 <= i < WEAPONS && i != k :: s.weapons[i] == r.weapons[i];
    assert k >= 0 ==> !s.weapons[k].active;
    assert forall h | Live(s, h) && h != g :: Live(r, h);
    hide Walked, PickUp, Live;
  }

  lemma MoveKept(m: Match, n: Match, g: nat, a: Action)
    requires Sound(m) && Live(m.room, g) && n == m.(room := Walked(m.room, g, a))
    ensures Kept(m, n)
  {
    WalkedShape(m.room, g, a);
    WalkedArmoured(m.room, g, a);
    hide Walked, Armoured, Seated, Filed, Scored, Phased, Manned, SameScore, TotalWins;
    SameScoreKept(m, n.room);
    SeatedSame(m.room, n.room);
    FiledSame(m.room, n.room);
  }

  // ----- Strikes -----

  lemma DealtHurts(r: Room, g: nat, t: nat)
    requires g < SLOTS && Live(r, t) && g != t
    ensures Dealt(r, g, t).fighters[t].health > 0 ==> Hurt(r, Dealt(r, g, t), t)
  {
  }

  /** Only the health of slot t went down, by at least a plain strike, and it is not dead. */
  ghost predicate Hurt(r: Room, d: Room, t: nat) {
    && t < SLOTS && d == r.(fighters := d.fighters)
    && 0 < d.fighters[t].health <= r.fighters[t].health - ATTACK_DAMAGE
    && forall h | 0 <= h < SLOTS :: d.fighters[h] == r.fighters[h].(health := d.fighters[h].health, armed := d.fighters[h].armed)
                                    && (h != t ==> d.fighters[h].health == r.fighters[h].health)
  }

  lemma HurtToughness(r: Room, d: Room, t: nat)
    requires Manned(r) && Live(r, t) && Hurt(r, d, t)
    ensures (forall h :: Live(d, h) == Live(r, h)) && LiveCount(d) == LiveCount(r)
    ensures 0 <= AllToughness(d) <= AllToughness(r) - 1
  {
    assert forall h :: Live(d, h) == Live(r, h);
    SameLive(r, d);
    HurtManned(r, d, t);
    ToughnessAtLeast(d);
    assert forall h | 0 <= h < SLOTS && h != t :: Toughness(d, h) == Toughness(r, h);
    assert Toughness(d, t) <= Toughness(r, t) - 1;
    hide Hurt, Toughness, AllToughness, LiveCount, Manned;
    ToughnessMoved(r, d, t);
  }

  /** A strike that is not fatal costs its target at least one strike's worth of health. */
  lemma HurtKept(m: Match, n: Match, t: nat)
    requires Sound(m) && Underway(m.room) && Live(m.room, t) && Hurt(m.room, n.room, t)
    requires n == m.(room := n.room, hits := m.hits + 1)
    ensures Kept(m, n)
  {
    var r, d := m.room, n.room;
    HurtToughness(r, d, t);
    HurtManned(r, d, t);
    HurtArmoured(r, d, t);
    SeatedSame(r, d);
    FiledSame(r, d);
    ToughnessAtLeast(d);
    hide Hurt, Seated, Manned, Filed, TotalWins, LiveCount, AllToughness, Size, KillsOf, DiedOf, Armoured, Live;
    HurtScored(m, n);
  }

  lemma HurtManned(r: Room, d: Room, t: nat)
    requires Manned(r) && Hurt(r, d, t)
    ensures Manned(d)
  {
  }

  lemma HurtArmoured(r: Room, d: Room, t: nat)
    requires Armoured(r) && Hurt(r, d, t)
    ensures Armoured(d)
  {
    assert forall h | Live(d, h) :: Live(r, h) && d.fighters[h].x == r.fighters[h].x && d.fighters[h].y == r.fighters[h].y;
    assert d.weapons == r.weapons;
    hide Live, Hurt;
  }

  lemma HurtScored(m: Match, n: Match)
    requires Scored(m) && Underway(m.room) && Underway(n.room) && n.starters == m.starters && n.hits == m.hits + 1
    requires n.room.kills == m.room.kills && n.room.died == m.room.died
    requires forall h :: Live(n.room, h) == Live(m.room, h)
    requires AllToughness(n.room) <= AllToughness(m.room) - 1 && AllToughness(n.room) >= 1
    ensures Scored(n)
  {
    hide AllToughness, Size, KillsOf, DiedOf, Live;
  }

  // ----- Somebody dies or leaves -----

  /** The accounts of a round in which somebody may just have dropped out. */
  ghost predicate Tallied(m: Match) {
    && Size(m.starters) >= 2
    && (forall g | 0 <= g < SLOTS && Live(m.room, g) :: g in m.starters && !m.room.died[g])
    && KillsOf(m.room.kills, m.starters) == DiedOf(m.room.died, m.starters)
    && m.hits + AllToughness(m.room) <= 7 * Size(m.starters)
  }

  /** The match after the check for the end of the round. */
  ghost function Checked(m: Match, hint: int, now: string): Match
    requires Routed(m.room)
  {
    var f := CheckOver(m.room, hint, now);
    m.(room := f, finished := m.finished + One(f.over), credited := m.credited + One(f.over && Credited(f)))
  }

  lemma OverKept(m: Match, f: Room)
    requires Manned(m.room) && Armoured(m.room) && Tallied(m) && Underway(m.room) && LiveCount(m.room) == 1
    requires f == m.room.(over := true, winner := f.winner, stats := f.stats)
    ensures Manned(f) && Armoured(f) && Phased(f) && Scored(m.(room := f))
  {
    ToughnessAtLeast(m.room);
    assert forall h :: Live(f, h) == Live(m.room, h) && Occupied(f, h) == Occupied(m.room, h);
    LiveSame(m.room, f);
    hide Live, Occupied, Healthy, LiveCount, AllToughness, Size, KillsOf, DiedOf;
  }

  lemma LiveSame(r: Room, f: Room)
    requires f.fighters == r.fighters && f.slotConn == r.slotConn
    ensures LiveCount(f) == LiveCount(r)
  {
  }

  lemma CheckedKept(m: Match, hint: int, now: Stamp)
    requires Seated(m.room) && Manned(m.room) && Armoured(m.room) && Filed(m.room) && Tallied(m)
    requires Underway(m.room) && LiveCount(m.room) >= 1 && m.credited <= m.finished
    requires Routed(m.room)
    ensures var n := Checked(m, hint, now);
      Sound(n) && (n.room.over ==> WonBy(n.room, LastLive(n.room, SLOTS)))
      && TotalWins(n.room.stats) - n.credited == TotalWins(m.room.stats) - m.credited
      && n.room == m.room.(over := n.room.over, winner := n.room.winner, stats := n.room.stats)
  {
    var f := CheckOver(m.room, hint, now);
    hide CheckOver, Seated, Manned, Armoured, Filed, LiveCount, Credited, TotalWins, WonBy, Scored, Tallied, Phased;
    CheckOverMeans(m.room, hint, now);
    if LiveCount(m.room) >= 2 {
      StillScored(m);
    } else {
      OverKept(m, f);
      SeatedSame(m.room, f);
      LastLiveSame(m.room, f, SLOTS);
    }
  }

  lemma StillScored(m: Match)
    requires Manned(m.room) && Tallied(m) && Underway(m.room) && LiveCount(m.room) >= 2
    ensures Scored(m) && Phased(m.room)
  {
    ToughnessAtLeast(m.room);
    hide Manned, Live, LiveCount, AllToughness, Size, KillsOf, DiedOf;
  }

  lemma {:induction false} LastLiveSame(r: Room, f: Room, n: nat)
    requires n <= SLOTS && f.fighters == r.fighters && f.slotConn == r.slotConn
    ensures LastLive(f, n) == LastLive(r, n)
  {
    if n > 0 {
      LastLiveSame(r, f, n - 1);
    }
  }

  /** The room after the strike from slot g killed slot t, before the check. */
  ghost function Slain(r: Room, g: nat, t: nat): Room
    requires g < SLOTS && t < SLOTS && g != t
  {
    Killed(Dealt(r, g, t), g, t)
  }

  lemma SlainShape(r: Room, g: nat, t: nat)
    requires Seated(r) && Live(r, g) && Live(r, t) && g != t
    ensures var k := Slain(r, g, t);
      k == r.(fighters := k.fighters, kills := r.kills[g := r.kills[g] + 1], died := r.died[t := true])
      && !k.fighters[t].alive && k.fighters[t].connected == r.fighters[t].connected
    ensures var k := Slain(r, g, t);
      forall h | 0 <= h < SLOTS && h != t :: k.fighters[h] == r.fighters[h].(armed := k.fighters[h].armed)
  {
    SlotOfMeans(Dealt(r, g, t), r.slotConn[t]) by {
      SeatedSame(r, Dealt(r, g, t));
    }
    hide SlotOf;
  }

  lemma SlainUnits(r: Room, g: nat, t: nat)
    requires Seated(r) && Manned(r) && Live(r, g) && Live(r, t) && g != t
    ensures var s := Slain(r, g, t);
      (forall h :: Live(s, h) == (Live(r, h) && h != t)) && Manned(s)
      && (forall h | Live(s, h) :: s.fighters[h].x == r.fighters[h].x && s.fighters[h].y == r.fighters[h].y)
    ensures forall h | 0 <= h < SLOTS && h != t :: Toughness(Slain(r, g, t), h) == Toughness(r, h)
    ensures Toughness(Slain(r, g, t), t) == 0 && Toughness(r, t) >= 1
  {
    SlainShape(r, g, t);
    hide Slain, Seated;
  }

  lemma SlainToughness(r: Room, g: nat, t: nat)
    requires Seated(r) && Manned(r) && Live(r, g) && Live(r, t) && g != t
    ensures LiveCount(Slain(r, g, t)) == LiveCount(r) - 1
    ensures AllToughness(Slain(r, g, t)) <= AllToughness(r) - 1
  {
    SlainUnits(r, g, t);
    hide Slain, Seated, Manned, Toughness, AllToughness, LiveCount;
    OneLess(r, Slain(r, g, t), t);
    ToughnessMoved(r, Slain(r, g, t), t);
  }

  lemma SlainTallied(m: Match, k: Match, g: nat, t: nat)
    requires Seated(m.room) && Manned(m.room) && Scored(m) && Underway(m.room)
    requires Live(m.room, g) && Live(m.room, t) && g != t
    requires k == m.(room := Slain(m.room, g, t), hits := m.hits + 1)
    ensures Tallied(k)
  {
    var r := m.room;
    assert g < SLOTS && t < SLOTS;
    SlainShape(r, g, t);
    SlainUnits(r, g, t);
    SlainToughness(r, g, t);
    hide Slain, Seated, Manned, Live, Toughness, AllToughness, LiveCount;
    OneMoreKill(r.kills, m.starters, g);
    OneMoreDead(r.died, m.starters, t);
    hide KillsOf, DiedOf, Size;
  }

  lemma OneMoreKill(kills: seq<int>, starters: set<nat>, g: nat)
    requires |kills| == SLOTS && g < SLOTS && g in starters
    ensures KillsOf(kills[g := kills[g] + 1], starters) == KillsOf(kills, starters) + 1
  {
    assert g == 0 || g == 1 || g == 2 || g == 3 || g == 4;
  }

  lemma OneMoreDead(died: seq<bool>, starters: set<nat>, t: nat)
    requires |died| == SLOTS && t < SLOTS && t in starters && !died[t]
    ensures DiedOf(died[t := true], starters) == DiedOf(died, starters) + 1
  {
    assert t == 0 || t == 1 || t == 2 || t == 3 || t == 4;
  }

  lemma FewerArmoured(r: Room, s: Room)
    requires Armoured(r) && s.weapons == r.weapons
    requires forall h | Live(s, h) :: Live(r, h) && s.fighters[h].x == r.fighters[h].x && s.fighters[h].y == r.fighters[h].y
    ensures Armoured(s)
  {
    hide Live;
  }

  /** A match that is ready for the check: the round goes on and somebody is alive. */
  ghost predicate Checkable(m: Match) {
    && Seated(m.room) && Manned(m.room) && Armoured(m.room) && Filed(m.room) && Tallied(m)
    && Underway(m.room) && LiveCount(m.room) >= 1 && m.credited <= m.finished
  }

  lemma SlainReady(m: Match, g: nat, t: nat)
    requires Sound(m) && Underway(m.room) && Live(m.room, g) && Live(m.room, t) && g != t
    ensures var k := m.(room := Slain(m.room, g, t), hits := m.hits + 1);
      Checkable(k) && k.room.stats == m.room.stats
  {
    var k := m.(room := Slain(m.room, g, t), hits := m.hits + 1);
    assert g < SLOTS;
    SlainTallied(m, k, g, t);
    SlainShape(m.room, g, t);
    SlainUnits(m.room, g, t);
    SlainToughness(m.room, g, t);
    hide Slain, Live, Toughness, Seated, Manned, Armoured, Filed, Tallied, Scored, LiveCount, TotalWins;
    FewerArmoured(m.room, k.room);
    SeatedSame(m.room, k.room);
    FiledSame(m.room, k.room);
  }

  lemma CheckedIsKept(m: Match, k: Match, hint: int, now: Stamp)
    requires Checkable(k) && Underway(m.room) && k.room.stats == m.room.stats && k.credited == m.credited
    requires Routed(k.room)
    ensures Kept(m, Checked(k, hint, now))
  {
    hide Sound, Live, Seated, Manned, Armoured, Filed, Tallied, LiveCount, LastLive, TotalWins, WonBy, Checked;
    CheckedKept(k, hint, now);
  }

  /** A fatal strike, and the end of the round if it leaves one survivor. */
  lemma SlainKept(m: Match, g: nat, t: nat, now: Stamp)
    requires Sound(m) && Underway(m.room) && Live(m.room, g) && Live(m.room, t) && g != t
    requires Routed(m.room) && Routed(Slain(m.room, g, t))
    ensures var k := m.(room := Slain(m.room, g, t), hits := m.hits + 1);
      Kept(m, Checked(k, m.room.slotConn[g], now))
  {
    var k := m.(room := Slain(m.room, g, t), hits := m.hits + 1);
    SlainReady(m, g, t);
    var hint := m.room.slotConn[g];
    hide *;
    CheckedIsKept(m, k, hint, now);
  }

  lemma StepMoves(m: Match, e: Event, hash: (string, string) -> Hex, g: nat)
    requires e.Acts? && e.cid < CONNS && m.room.conns[e.cid].Playing? && CanAct(m.room, e.cid) && !e.action.Strike?
    requires Routed(m.room) && g == SlotOf(m.room, e.cid)
    ensures Advance(m, e, hash) == m.(room := Walked(m.room, g, e.action))
  {
    hide SlotOf, Moved, WeaponFrom, Credited;
  }

  lemma CheckOverFrame(r: Room, hint: int, now: string)
    requires Routed(r)
    ensures var f := CheckOver(r, hint, now); f == r.(over := f.over, winner := f.winner, stats := f.stats)
    ensures CheckOver(r, hint, now).over == (r.over || LiveCount(r) <= 1)
  {
    hide Saved, LastLive, LiveCount;
  }

  lemma StepStrikes(m: Match, e: Event, hash: (string, string) -> Hex, g: nat)
    requires e.Acts? && e.cid < CONNS && m.room.conns[e.cid].Playing? && CanAct(m.room, e.cid) && e.action.Strike?
    requires Routed(m.room) && g == SlotOf(m.room, e.cid)
    ensures match Struck(m.room, g)
      case None => Advance(m, e, hash) == m
      case Some(t) =>
        if Dealt(m.room, g, t).fighters[t].health > 0 then
          Advance(m, e, hash) == m.(room := Dealt(m.room, g, t), hits := m.hits + 1)
        else
          Routed(Slain(m.room, g, t))
          && Advance(m, e, hash) == Checked(m.(room := Slain(m.room, g, t), hits := m.hits + 1), m.room.slotConn[g], e.now)
  {
    var r := m.room;
    var s := Struck(r, g);
    hide SlotOf, Credited, Struck, CheckOver, LiveCount;
    if s.Some? && Dealt(r, g, s.value).fighters[s.value].health <= 0 {
      var k := Slain(r, g, s.value);
      assert k.slotConn == r.slotConn && k.started && !k.over;
      CheckOverFrame(k, r.slotConn[g], e.now);
      hide Slain, Killed, Dealt;
    }
  }

  lemma ActsKept(m: Match, e: Event, hash: (string, string) -> Hex)
    requires Sound(m) && e.Acts?
    requires Routed(m.room)
    ensures Kept(m, Advance(m, e, hash))
  {
    var r, n := m.room, Advance(m, e, hash);
    if e.cid >= CONNS || !r.conns[e.cid].Playing? || !CanAct(r, e.cid) {
      hide Sound, Credited, Filed;
      assert n == m;
      assert Kept(m, m) by {
        hide Sound;
      }
    } else {
      var g := SlotOf(r, e.cid);
      SlotOfMeans(r, e.cid);
      hide Sound, Credited, WonBy, TotalWins;
      if !e.action.Strike? {
        StepMoves(m, e, hash, g);
        MoveKept(m, n, g, e.action);
      } else {
        StepStrikes(m, e, hash, g);
        match Struck(r, g)
        case None =>
          assert n == m;
        case Some(t) =>
          if Dealt(r, g, t).fighters[t].health > 0 {
            DealtHurts(r, g, t);
            HurtKept(m, n, t);
          } else {
            SlainKept(m, g, t, e.now);
          }
      }
    }
  }

  // ----- Disconnects -----

  /** The room just after the connection left slot g, before the check. */
  ghost function Left(r: Room, g: nat, cid: nat): Room
    requires g < SLOTS && cid < CONNS
  {
    Vacated(r, g).(conns := r.conns[cid := Closing])
  }

  lemma {:induction false} SavedSame(r: Room, s: Room, g: nat, now: string)
    requires g <= SLOTS && Routed(r) && Routed(s)
    requires s == r.(conns := s.conns)
    requires forall h | 0 <= h < SLOTS && r.slotConn[h] >= 0 :: s.conns[r.slotConn[h]] == r.conns[r.slotConn[h]]
    ensures Saved(s, g, now) == Saved(r, g, now)
  {
    if g > 0 {
      SavedSame(r, s, g - 1, now);
    }
  }

  /** The check does not see the connection that has just left its slot. */
  lemma CheckOverSame(r: Room, s: Room, hint: int, now: string)
    requires Routed(r) && Routed(s) && s == r.(conns := s.conns)
    requires forall h | 0 <= h < SLOTS && r.slotConn[h] >= 0 :: s.conns[r.slotConn[h]] == r.conns[r.slotConn[h]]
    ensures CheckOver(s, hint, now) == CheckOver(r, hint, now).(conns := s.conns)
  {
    LastLiveSame(r, s, SLOTS);
    LiveSame(r, s);
    hide Saved, LastLive, LiveCount;
    forall w: int ensures Finish(s, w, now) == Finish(r, w, now).(conns := s.conns) {
      SavedSame(r.(over := true, winner := w), s.(over := true, winner := w), SLOTS, now);
    }
  }

  lemma LeftShape(r: Room, g: nat, cid: nat)
    requires Seated(r) && Manned(r) && Occupied(r, g) && r.slotConn[g] == cid
    ensures var s := Left(r, g, cid);
      Routed(s) && Seated(s) && Manned(s) && !Occupied(s, g) && s == r.(fighters := s.fighters, slotConn := s.slotConn, conns := s.conns)
    ensures var s := Left(r, g, cid);
      forall h | 0 <= h < SLOTS && h != g :: s.fighters[h] == r.fighters[h] && s.slotConn[h] == r.slotConn[h]
  {
    hide Seated, Manned;
    LeftSlots(r, g, cid);
    LeftSeated(r, g, cid);
    LeftManned(r, g, cid);
  }

  lemma LeftSlots(r: Room, g: nat, cid: nat)
    requires Seated(r) && Occupied(r, g) && r.slotConn[g] == cid
    ensures var s := Left(r, g, cid);
      && Routed(s) && !Occupied(s, g) && s == r.(fighters := s.fighters, slotConn := s.slotConn, conns := s.conns)
      && (forall h | 0 <= h < SLOTS && h != g :: s.fighters[h] == r.fighters[h] && s.slotConn[h] == r.slotConn[h])
      && s.slotConn[g] == -1 && s.fighters[g] == r.fighters[g].(connected := false, alive := false)
      && s.conns == r.conns[cid := Closing]
  {
    hide PlainName;
  }

  lemma LeftSeated(r: Room, g: nat, cid: nat)
    requires Seated(r) && Occupied(r, g) && r.slotConn[g] == cid
    ensures Seated(Left(r, g, cid))
  {
    var s := Left(r, g, cid);
    LeftSlots(r, g, cid);
    hide Left, PlainName;
    assert forall h | Occupied(s, h) :: Occupied(r, h) && h != g && s.slotConn[h] != cid;
    forall k | 0 <= k < CONNS && s.conns[k].Playing? ensures exists h :: Occupied(s, h) && s.slotConn[h] == k {
      var h :| Occupied(r, h) && r.slotConn[h] == k;
      assert Occupied(s, h);
    }
  }

  lemma LeftManned(r: Room, g: nat, cid: nat)
    requires Seated(r) && Manned(r) && Occupied(r, g) && r.slotConn[g] == cid
    ensures Manned(Left(r, g, cid))
  {
    hide Seated, Healthy;
    LeftSlots(r, g, cid);
    hide Left;
  }

  lemma LeftCounts(r: Room, s: Room, g: nat)
    requires Manned(r) && Manned(s) && g < SLOTS && !Occupied(s, g)
    requires forall h | 0 <= h < SLOTS && h != g :: s.fighters[h] == r.fighters[h] && s.slotConn[h] == r.slotConn[h]
    ensures forall h :: Live(s, h) == (Live(r, h) && h != g)
    ensures LiveCount(s) == LiveCount(r) - One(Live(r, g)) && AllToughness(s) <= AllToughness(r)
  {
    assert forall h :: Live(s, h) == (Live(r, h) && h != g);
    assert forall h | 0 <= h < SLOTS && h != g :: Toughness(s, h) == Toughness(r, h);
    assert Toughness(s, g) == 0 && Toughness(r, g) >= 0;
    hide Manned, Toughness, AllToughness, LiveCount;
    ToughnessMoved(r, s, g);
    if Live(r, g) {
      OneLess(r, s, g);
    } else {
      SameLive(r, s);
    }
  }

  lemma OnlineAtLeast(r: Room)
    ensures Online(r) >= LiveCount(r)
  {
  }

  /** What dropping comes to, with the connection's table entry changed first. */
  lemma DropIs(r: Room, cid: nat, g: nat, now: string)
    requires Seated(r) && Manned(r) && Phased(r) && Occupied(r, g) && r.slotConn[g] == cid && SlotOf(r, cid) == g
    requires Routed(r) && Routed(Left(r, g, cid))
    ensures var s := Left(r, g, cid);
      Dropped(r, cid, now) ==
        if Underway(r) then CheckOver(s, -1, now)
        else if Online(s) == 0 then s.(started := false, over := false) else s
  {
    hide Left, CheckOver, Seated, Manned, Phased, SlotOf, Online, Dropped, Vacated, LiveCount;
    LeftGone(r, g, cid);
    var gone, s := Vacated(r, g), Left(r, g, cid);
    OnlineSame(gone, s);
    DroppedIs(r, cid, g, now);
    if Underway(r) {
      CheckOverSame(gone, s, -1, now);
      CheckOverFrame(gone, -1, now);
      OnlineSame(gone, CheckOver(gone, -1, now));
      FightersStay(r, g, cid);
    }
  }

  /** Leaving during a round leaves somebody online. */
  lemma FightersStay(r: Room, g: nat, cid: nat)
    requires Seated(r) && Manned(r) && Phased(r) && Underway(r) && Occupied(r, g) && r.slotConn[g] == cid && cid < CONNS
    ensures Online(Left(r, g, cid)) >= 1
  {
    hide Left, Seated, Manned, LiveCount, AllToughness, Live, Online;
    LeftShape(r, g, cid);
    LeftCounts(r, Left(r, g, cid), g);
    OnlineAtLeast(Left(r, g, cid));
  }

  lemma LeftGone(r: Room, g: nat, cid: nat)
    requires Seated(r) && Occupied(r, g) && r.slotConn[g] == cid && Routed(Left(r, g, cid))
    ensures var gone, s := Vacated(r, g), Left(r, g, cid);
      && Routed(gone) && s == gone.(conns := s.conns) && gone.started == r.started && gone.over == r.over
      && forall h | 0 <= h < SLOTS && gone.slotConn[h] >= 0 :: s.conns[gone.slotConn[h]] == gone.conns[gone.slotConn[h]]
  {
    OnlySeat(r, g);
    hide Seated;
  }

  lemma DroppedIs(r: Room, cid: nat, g: nat, now: string)
    requires Seated(r) && Occupied(r, g) && r.slotConn[g] == cid && SlotOf(r, cid) == g && Routed(r)
    requires Routed(Vacated(r, g)) && Routed(Left(r, g, cid))
    ensures var gone, s := Vacated(r, g), Left(r, g, cid);
      var settled := if Underway(r) then CheckOver(gone, -1, now) else gone;
      Dropped(r, cid, now) ==
        (if Online(settled) == 0 then settled.(started := false, over := false) else settled).(conns := s.conns)
  {
    var settled := if Underway(r) then CheckOver(Vacated(r, g), -1, now) else Vacated(r, g);
    CheckOverFrame(Vacated(r, g), -1, now);
    assert r.conns[cid].Playing?;
    hide Seated, CheckOver, SlotOf, Online;
    assert settled.conns == r.conns;
  }

  lemma OnlySeat(r: Room, g: nat)
    requires Seated(r) && Occupied(r, g)
    ensures forall h | 0 <= h < SLOTS && h != g :: r.slotConn[h] != r.slotConn[g]
  {
    assert forall h | 0 <= h < SLOTS && r.slotConn[h] >= 0 :: Occupied(r, h);
  }

  lemma OnlineSame(r: Room, s: Room)
    requires s.slotConn == r.slotConn
    ensures Online(s) == Online(r)
  {
  }

  /** The match after the connection left its slot, before the check, is ready for it. */
  lemma LeftReady(m: Match, g: nat, cid: nat)
    requires Sound(m) && Underway(m.room) && Occupied(m.room, g) && m.room.slotConn[g] == cid
    ensures var k := m.(room := Left(m.room, g, cid)); Checkable(k) && k.room.stats == m.room.stats
  {
    var k := m.(room := Left(m.room, g, cid));
    LeftShape(m.room, g, cid);
    LeftCounts(m.room, k.room, g);
    FewerArmoured(m.room, k.room);
    FiledSame(m.room, k.room);
    hide Left, Seated, Manned, Armoured, Filed, Occupied, LiveCount, AllToughness, Size, KillsOf, DiedOf, Toughness;
    assert forall h | 0 <= h < SLOTS && Live(k.room, h) :: Live(m.room, h);
  }

  lemma LeftArmoured(r: Room, g: nat, cid: nat)
    requires Seated(r) && Manned(r) && Armoured(r) && Occupied(r, g) && r.slotConn[g] == cid
    ensures Armoured(Left(r, g, cid))
  {
    LeftShape(r, g, cid);
    hide Left, Seated, Manned;
    FewerArmoured(r, Left(r, g, cid));
  }

  /** The accounts of a round that is over, or of none, survive a departure. */
  lemma IdleScored(m: Match, t: Room)
    requires Scored(m) && !Underway(m.room) && !Underway(t) && (t.started ==> m.room.started)
    requires t.kills == m.room.kills && t.died == m.room.died
    requires forall h | 0 <= h < SLOTS && Live(t, h) :: Live(m.room, h)
    ensures Scored(m.(room := t))
  {
    hide Live, Size, KillsOf, DiedOf, AllToughness;
  }

  /** Leaving a room without a round underway; the last to leave makes way for a new round. */
  lemma IdleLeft(m: Match, g: nat, cid: nat, n: Match)
    requires Sound(m) && !Underway(m.room) && Occupied(m.room, g) && m.room.slotConn[g] == cid
    requires var s := Left(m.room, g, cid);
      n == m.(room := if Online(s) == 0 then s.(started := false, over := false) else s)
    ensures Kept(m, n)
  {
    var r, s := m.room, Left(m.room, g, cid);
    hide Left, Seated, Manned, Armoured, Filed, Scored, Phased, Occupied, Live, LiveCount, Online, TotalWins, AllToughness;
    LeftShape(r, g, cid);
    LeftCounts(r, s, g);
    LeftArmoured(r, g, cid);
    FiledSame(r, n.room);
    FlagsOnly(s, n.room);
    IdleScored(m, n.room);
    IdlePhased(r, s, n.room);
  }

  lemma IdlePhased(r: Room, s: Room, t: Room)
    requires Phased(r) && !Underway(r) && LiveCount(s) <= LiveCount(r) && LiveCount(t) == LiveCount(s)
    requires s.started == r.started && s.over == r.over
    requires t == if Online(s) == 0 then s.(started := false, over := false) else s
    ensures Phased(t)
  {
    OnlineAtLeast(s);
    hide LiveCount, Online;
  }

  lemma FlagsOnly(s: Room, t: Room)
    requires t == s.(started := t.started, over := t.over)
    ensures Seated(t) == Seated(s) && Manned(t) == Manned(s) && Armoured(t) == Armoured(s) && LiveCount(t) == LiveCount(s)
    ensures forall h :: Live(t, h) == Live(s, h)
  {
    hide PlainName, Healthy;
    assert forall h :: Occupied(t, h) == Occupied(s, h) && Live(t, h) == Live(s, h);
    LiveSame(s, t);
    hide LiveCount;
  }

  lemma DropOutside(m: Match, cid: nat, now: Stamp, hash: (string, string) -> Hex)
    requires Sound(m) && cid < CONNS && !m.room.conns[cid].Free? && !m.room.conns[cid].Closing? && SlotOf(m.room, cid) < 0
    requires Routed(m.room)
    ensures Kept(m, Advance(m, Drops(cid, now), hash))
  {
    var r := m.room;
    SlotOfMeans(r, cid);
    var next := r.(conns := r.conns[cid := Closing]);
    assert Dropped(r, cid, now) == next && !r.conns[cid].Playing?;
    hide Dropped;
    SeatedPhase(r, next, cid, Closing);
    FiledSame(r, next);
    hide Seated, Filed, Manned, Scored, Phased, Armoured, Kept, TotalWins;
    QuietKept(m, next);
    QuietAdvance(m, Drops(cid, now), hash);
  }

  lemma DropInside(m: Match, cid: nat, now: Stamp, hash: (string, string) -> Hex)
    requires Sound(m) && cid < CONNS && SlotOf(m.room, cid) >= 0
    requires Routed(m.room)
    ensures Kept(m, Advance(m, Drops(cid, now), hash))
  {
    var r, g := m.room, SlotOf(m.room, cid);
    SlotOfMeans(r, cid);
    LeftShape(r, g, cid);
    DropIs(r, cid, g, now);
    hide Left, Dropped, Online, Sound, Credited, CheckOver, SlotOf, Kept, Advance;
    if Underway(r) {
      LeftReady(m, g, cid);
      DropChecks(m, cid, g, now, hash);
      hide Checked, Checkable;
      CheckedIsKept(m, m.(room := Left(r, g, cid)), -1, now);
    } else {
      DropIdles(m, cid, now, hash);
      IdleLeft(m, g, cid, Advance(m, Drops(cid, now), hash));
    }
  }

  lemma DropIdles(m: Match, cid: nat, now: Stamp, hash: (string, string) -> Hex)
    requires Routed(m.room) && !Underway(m.room) && (Dropped(m.room, cid, now).started ==> m.room.started)
    ensures Advance(m, Drops(cid, now), hash) == m.(room := Dropped(m.room, cid, now))
  {
    hide Dropped, Credited;
  }

  lemma DropsKept(m: Match, cid: nat, now: Stamp, hash: (string, string) -> Hex)
    requires Sound(m)
    requires Routed(m.room)
    ensures Kept(m, Advance(m, Drops(cid, now), hash))
  {
    var r := m.room;
    hide Sound, SlotOf;
    if cid >= CONNS || r.conns[cid].Free? || r.conns[cid].Closing? {
      assert Advance(m, Drops(cid, now), hash) == m;
    } else {
      hide Advance, Kept;
      if SlotOf(r, cid) < 0 {
        DropOutside(m, cid, now, hash);
      } else {
        DropInside(m, cid, now, hash);
      }
    }
  }

  lemma DropChecks(m: Match, cid: nat, g: nat, now: Stamp, hash: (string, string) -> Hex)
    requires Routed(m.room) && g < SLOTS && cid < CONNS && Routed(Left(m.room, g, cid)) && Underway(m.room)
    requires Dropped(m.room, cid, now) == CheckOver(Left(m.room, g, cid), -1, now)
    ensures Advance(m, Drops(cid, now), hash) == Checked(m.(room := Left(m.room, g, cid)), -1, now)
  {
    CheckOverFrame(Left(m.room, g, cid), -1, now);
    hide Dropped, CheckOver, Credited, LiveCount;
  }

  // ----- Every run -----

  lemma StepKept(m: Match, e: Event, hash: (string, string) -> Hex)
    requires Sound(m)
    requires Routed(m.room)
    ensures Kept(m, Advance(m, e, hash))
  {
    hide Sound, Kept, Advance;
    match e
    case Accepts => AcceptsKept(m, hash);
    case Tries(_, _, _, _, _) => TriesKept(m, e, hash);
    case Joins(cid) => JoinsKept(m, cid, hash);
    case Readies(cid) => ReadiesKept(m, cid, hash);
    case Acts(_, _, _) => ActsKept(m, e, hash);
    case Drops(cid, now) => DropsKept(m, cid, now, hash);
    case Closes(cid) => ClosesKept(m, cid, hash);
    case WeaponTick(tries) => WeaponTickKept(m, tries, hash);
  }

  ghost function Play(m: Match, es: seq<Event>, hash: (string, string) -> Hex): Match
    requires Sound(m)
    decreases |es|
  {
    hide Sound, Advance;
    if es == [] then m
    else
      SoundRouted(m);
      StepKept(m, es[0], hash);
      Play(Advance(m, es[0], hash), es[1..], hash)
  }

  /** Over any run, in any interleaving, the wins on file grow by the number of finished rounds whose
      winner's name the files show. */
  lemma {:induction false} RunKept(m: Match, es: seq<Event>, hash: (string, string) -> Hex)
    requires Sound(m)
    ensures var n := Play(m, es, hash);
      Sound(n) && TotalWins(n.room.stats) - TotalWins(m.room.stats) == n.credited - m.credited
    decreases |es|
  {
    hide Sound, Advance, TotalWins;
    if es != [] {
      SoundRouted(m);
      StepKept(m, es[0], hash);
      RunKept(Advance(m, es[0], hash), es[1..], hash);
    }
  }

  /** What holds after every run of a server: a round that is underway has two fighters alive, no round
      of n starters takes more than 7n - 1 strikes, kills and deaths of the starters' slots agree, every
      record's games are its wins and losses, and the wins on file grew by the credited rounds. */
  lemma EveryRun(users: seq<User>, stats: seq<Stats>, es: seq<Event>, hash: (string, string) -> Hex)
    requires UsersOnFile(users) && StatsOnFile(stats) && Balanced(stats)
    ensures Sound(Opening(users, stats))
    ensures var m := Play(Opening(users, stats), es, hash);
      && (Underway(m.room) ==> LiveCount(m.room) >= 2)
      && (m.room.over ==> LiveCount(m.room) <= 1)
      && (m.room.started ==> m.hits <= 7 * Size(m.starters) - 1
                             && KillsOf(m.room.kills, m.starters) == DiedOf(m.room.died, m.starters))
      && Balanced(m.room.stats)
      && TotalWins(m.room.stats) == TotalWins(stats) + m.credited
      && m.credited <= m.finished
  {
    SoundStart(users, stats);
    RunKept(Opening(users, stats), es, hash);
    hide TotalWins, LiveCount, KillsOf, DiedOf, Size, Balanced, UsersOnFile, StatsOnFile, Seated, Manned, Armoured;
  }

  /** A round never ends without a survivor: the step that ends it leaves exactly one fighter alive,
      whose connection is the winner. */
  lemma RoundEndsWithSurvivor(m: Match, e: Event, hash: (string, string) -> Hex)
    requires Sound(m) && Underway(m.room)
    requires Routed(m.room)
    ensures var n := Advance(m, e, hash);
      Underway(n.room) || (n.finished == m.finished + 1 && exists g :: WonBy(n.room, g))
  {
    StepKept(m, e, hash);
    hide Sound, Step, WonBy, Credited;
  }

  // ----- Names the files do not show -----

  ghost predicate Visible(r: Room) {
    forall c | 0 <= c < CONNS && (r.conns[c].Lobby? || r.conns[c].Playing?) :: !Hidden(r.conns[c].name)
  }

  ghost predicate Presentable(e: Event) {
    e.Tries? && e.register ==> !Hidden(e.name)
  }

  lemma StepConns(r: Room, e: Event, hash: (string, string) -> Hex)
    requires Routed(r) && !e.Tries? && Visible(r)
    ensures Visible(Step(r, e, hash))
  {
    hide Hidden, Saved, LiveCount, LastLive, Online, SlotOf, Struck, Dealt;
    match e
    case Acts(cid, a, now) =>
      if cid < CONNS && r.conns[cid].Playing? {
        ActedConns(r, cid, a, now);
        hide Acted;
      }
    case WeaponTick(tries) =>
      SpawnedShape(r, tries);
      hide Spawned, Busy;
    case _ =>
  }

  lemma ActedConns(r: Room, cid: int, a: Action, now: string)
    requires Routed(r)
    ensures Acted(r, cid, a, now).conns == r.conns
  {
    hide Saved, LiveCount, LastLive, SlotOf, Target, Moved, WeaponFrom;
  }

  lemma TriedVisible(r: Room, e: Event, hash: (string, string) -> Hex)
    requires Filed(r) && Visible(r) && Presentable(e) && e.Tries?
    ensures Visible(Tried(r, e, hash))
  {
    FindUserMeans(r.users, e.name);
    hide Hidden, CanRegister, StorableUser, Balanced;
  }

  /** While nobody registers a name that begins with '#', every finished round is credited: the wins on
      file grow by exactly the number of finished rounds. */
  lemma {:induction false} VisibleRun(m: Match, es: seq<Event>, hash: (string, string) -> Hex)
    requires Sound(m) && Visible(m.room) && forall i | 0 <= i < |es| :: Presentable(es[i])
    ensures var n := Play(m, es, hash);
      n.finished - m.finished == n.credited - m.credited
      && TotalWins(n.room.stats) - TotalWins(m.room.stats) == n.finished - m.finished
    decreases |es|
  {
    RunKept(m, es, hash);
    hide TotalWins;
    if es != [] {
      SoundRouted(m);
      StepKept(m, es[0], hash);
      VisibleStep(m, es[0], hash);
      hide Sound, Advance, Visible;
      VisibleRun(Advance(m, es[0], hash), es[1..], hash);
    }
  }

  lemma VisibleStep(m: Match, e: Event, hash: (string, string) -> Hex)
    requires Sound(m) && Visible(m.room) && Presentable(e)
    requires Routed(m.room)
    ensures var n := Advance(m, e, hash);
      Visible(n.room) && n.finished - m.finished == n.credited - m.credited
  {
    var n := Advance(m, e, hash);
    StepKept(m, e, hash);
    if e.Tries? {
      TriedVisible(m.room, e, hash);
    } else {
      StepConns(m.room, e, hash);
    }
    hide Hidden, Step, TotalWins;
    if Underway(m.room) && !Underway(n.room) {
      var g :| WonBy(n.room, g);
      assert Occupied(n.room, g) && n.room.conns[n.room.slotConn[g]].Playing?;
      assert Credited(n.room);
    }
  }
}
