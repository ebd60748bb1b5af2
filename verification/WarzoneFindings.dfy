/** A name that begins with '#' is accepted, and what becomes of it: the account cannot be opened after a
    load, and a round that it wins adds no win to the files. */
module WarzoneFindings {
  import opened Basics
  import opened WarzoneDatabase
  import opened WarzoneAccounts
  import opened WarzoneModel
  import opened WarzoneRounds

  lemma HashName()
    ensures CanRegister([], "#ab", "abcd") && Hidden("#ab")
    ensures CanRegister([], "cd", "abcd") && !Hidden("cd")
  {
  }

  /** Registered on empty files, the user "#ab" is in neither file when they are read again. */
  lemma HashNameIsLost(now: Stamp, hash: (string, string) -> Hex)
    ensures CanRegister([], "#ab", "abcd")
    ensures var users := LoadUsers(UsersText([User("#ab", hash("#ab", "abcd"), now)]));
      users == [] && !CanLogin(users, "#ab", "abcd", hash)
    ensures LoadStats(StatsText([NoGames("#ab", now)])) == []
  {
    HashName();
    hide Hidden, UsersText, StatsText, LoadUsers, LoadStats, CanRegister;
    RegisterThroughFile([], [], "#ab", "abcd", now, hash);
    assert [] + [User("#ab", hash("#ab", "abcd"), now)] == [User("#ab", hash("#ab", "abcd"), now)];
    assert [] + [NoGames("#ab", now)] == [NoGames("#ab", now)];
  }

  /** Two users register, sit down and start a round, and the second one drops. */
  function HashRun(now: Stamp): seq<Event> {
    [Accepts, Accepts, Tries(0, true, "#ab", "abcd", now), Tries(1, true, "cd", "abcd", now), Joins(0), Joins(1),
     Readies(0), Readies(1), Drops(1, now)]
  }

  /** The first two connections are in the given phases, nobody else is there, and no round is on. */
  ghost predicate Meeting(r: Room, a: Conn, b: Conn) {
    && r.conns[0] == a && r.conns[1] == b && !r.started && !r.over && Routed(r)
    && (forall h | 2 <= h < CONNS :: r.conns[h].Free?) && (forall h | 2 <= h < SLOTS :: r.slotConn[h] == -1)
  }

  lemma BothAccepted(r: Room)
    requires Meeting(r, Free, Free)
    ensures Meeting(Accepted(r), Auth(0), Free)
    ensures Meeting(Accepted(Accepted(r)), Auth(0), Auth(0))
    ensures Accepted(Accepted(r)) == r.(conns := Accepted(Accepted(r)).conns)
  {
    assert FreeFrom(r.conns, 0) == 0;
    var s := Accepted(r);
    assert FreeFrom(s.conns, 0) == FreeFrom(s.conns, 1) == 1;
  }

  lemma FirstTries(r: Room, now: Stamp, hash: (string, string) -> Hex)
    requires Meeting(r, Auth(0), Auth(0)) && r.users == []
    ensures var s := Tried(r, Tries(0, true, "#ab", "abcd", now), hash);
      Meeting(s, Lobby("#ab"), Auth(0)) && s == r.(conns := s.conns)
  {
    HashName();
    hide CanRegister, Hidden;
  }

  lemma SecondTries(r: Room, now: Stamp, hash: (string, string) -> Hex)
    requires Meeting(r, Lobby("#ab"), Auth(0)) && r.users == []
    ensures var s := Tried(r, Tries(1, true, "cd", "abcd", now), hash);
      Meeting(s, Lobby("#ab"), Lobby("cd")) && s == r.(conns := s.conns, users := s.users, stats := s.stats)
  {
    HashName();
    hide CanRegister, Hidden;
  }

  lemma BothJoin(r: Room)
    requires Meeting(r, Lobby("#ab"), Lobby("cd")) && r.slotConn[0] == -1 && r.slotConn[1] == -1
    ensures var s := Joined(r, 0);
      Meeting(s, WarzoneModel.Playing("#ab"), Lobby("cd"))
      && s.slotConn[0] == 0 && s.slotConn[1] == -1 && !s.fighters[0].ready
    ensures var s := Joined(Joined(r, 0), 1);
      Meeting(s, WarzoneModel.Playing("#ab"), WarzoneModel.Playing("cd"))
      && s.slotConn[0] == 0 && s.slotConn[1] == 1 && !s.fighters[0].ready && !s.fighters[1].ready
  {
    assert EmptyFrom(r.slotConn, 0) == 0;
    var s := Joined(r, 0);
    assert EmptyFrom(s.slotConn, 0) == EmptyFrom(s.slotConn, 1) == 1;
  }

  ghost predicate Together(r: Room) {
    && Meeting(r.(started := false), WarzoneModel.Playing("#ab"), WarzoneModel.Playing("cd"))
    && r.slotConn[0] == 0 && r.slotConn[1] == 1
  }

  lemma FirstReady(r: Room)
    requires Together(r) && !r.started && !r.fighters[0].ready && !r.fighters[1].ready
    ensures var s := Readied(r, 0); Together(s) && !s.started && s.fighters[0].ready && !s.fighters[1].ready
  {
    assert SlotOf(r, 0) == 0;
  }

  lemma SecondReady(r: Room)
    requires Together(r) && !r.started && r.fighters[0].ready && !r.fighters[1].ready
    ensures var s := Readied(r, 1); Together(s) && s.started && s.fighters[0].alive && s.fighters[1].alive
  {
    assert SlotOf(r, 1) == SlotFrom(r.slotConn, 1, 1) == 1;
    var t := r.(fighters := r.fighters[1 := r.fighters[1].(ready := true)]);
    assert ReadyCount(t) == 2 == Online(t);
    hide Start;
    assert Readied(r, 1) == Reset(t);
  }

  lemma SecondDrops(r: Room, now: Stamp)
    requires Together(r) && r.started && r.fighters[0].alive && r.fighters[1].alive
    ensures var s := Dropped(r, 1, now); s.started && s.over && s.winner == 0 && s.conns[0] == WarzoneModel.Playing("#ab")
  {
    hide Saved;
    assert SlotOf(r, 1) == SlotFrom(r.slotConn, 1, 1) == 1;
    var gone := Vacated(r, 1);
    assert Live(gone, 0) && LiveCount(gone) == 1;
    LoneSurvivor(gone);
    assert CheckOver(gone, -1, now) == Finish(gone, 0, now);
    assert Online(Finish(gone, 0, now)) == 1;
  }

  /** A step of a match while no round is on before or after it. */
  lemma CalmStep(m: Match, e: Event, hash: (string, string) -> Hex)
    requires Routed(m.room) && !m.room.started && !e.Acts?
    ensures var n := Advance(m, e, hash); n.room == Step(m.room, e, hash) && n.finished == m.finished && n.credited == m.credited
  {
    hide Step;
  }

  lemma PlayOne(m: Match, es: seq<Event>, i: nat, hash: (string, string) -> Hex)
    requires Sound(m) && i < |es| && Routed(m.room)
    ensures Sound(Advance(m, es[i], hash))
    ensures Play(m, es[i..], hash) == Play(Advance(m, es[i], hash), es[i + 1..], hash)
  {
    StepKept(m, es[i], hash);
    hide Sound, Advance;
    assert es[i..][0] == es[i] && es[i..][1..] == es[i + 1..];
  }

  /** On a new server the run above ends with a finished round that nobody is credited for. */
  lemma HashWinner(now: Stamp, hash: (string, string) -> Hex)
    ensures Sound(Opening([], []))
    ensures var n := Play(Opening([], []), HashRun(now), hash);
      n.finished == 1 && n.credited == 0 && TotalWins(n.room.stats) == 0
  {
    SoundStart([], []);
    var es, m0 := HashRun(now), Opening([], []);
    RunKept(m0, es, hash);
    assert es[0..] == es;
    assert Meeting(m0.room, Free, Free);
    hide Sound, Play, Meeting;
    HashBegins(m0, es, now, hash);
  }

  lemma HashBegins(m0: Match, es: seq<Event>, now: Stamp, hash: (string, string) -> Hex)
    requires Sound(m0) && Meeting(m0.room, Free, Free) && m0.room.users == [] && es == HashRun(now)
    requires m0.room.slotConn[0] == -1 && m0.room.slotConn[1] == -1 && m0.finished == 0 && m0.credited == 0
    ensures var n := Play(m0, es[0..], hash); n.finished == 1 && n.credited == 0
  {
    hide Sound, Advance, Play, Accepted, Tried, Meeting;
    SoundRouted(m0);
    PlayOne(m0, es, 0, hash);
    var m1 := Advance(m0, es[0], hash);
    BothAccepted(m0.room);
    NotStarted(m0.room, Free, Free);
    CalmStep(m0, es[0], hash);
    NotStarted(m1.room, Auth(0), Free);
    SoundRouted(m1);
    PlayOne(m1, es, 1, hash);
    CalmStep(m1, es[1], hash);
    var m2 := Advance(m1, es[1], hash);
    SoundRouted(m2);
    HashTries(m2, es, now, hash);
  }

  lemma NotStarted(r: Room, a: Conn, b: Conn)
    requires Meeting(r, a, b)
    ensures !r.started && !r.over
  {
  }

  lemma HashTries(m2: Match, es: seq<Event>, now: Stamp, hash: (string, string) -> Hex)
    requires Sound(m2) && Meeting(m2.room, Auth(0), Auth(0)) && m2.room.users == [] && es == HashRun(now)
    requires m2.room.slotConn[0] == -1 && m2.room.slotConn[1] == -1 && m2.finished == 0 && m2.credited == 0
    ensures var n := Play(m2, es[2..], hash); n.finished == 1 && n.credited == 0
  {
    hide Sound, Advance, Play, Tried, Meeting;
    SoundRouted(m2);
    PlayOne(m2, es, 2, hash);
    FirstTries(m2.room, now, hash);
    NotStarted(m2.room, Auth(0), Auth(0));
    CalmStep(m2, es[2], hash);
    var m3 := Advance(m2, es[2], hash);
    SoundRouted(m3);
    PlayOne(m3, es, 3, hash);
    SecondTries(m3.room, now, hash);
    NotStarted(m3.room, Lobby("#ab"), Auth(0));
    CalmStep(m3, es[3], hash);
    var m4 := Advance(m3, es[3], hash);
    SoundRouted(m4);
    HashJoins(m4, es, now, hash);
  }

  lemma HashJoins(m4: Match, es: seq<Event>, now: Stamp, hash: (string, string) -> Hex)
    requires Sound(m4) && Meeting(m4.room, Lobby("#ab"), Lobby("cd")) && es == HashRun(now)
    requires m4.room.slotConn[0] == -1 && m4.room.slotConn[1] == -1 && m4.finished == 0 && m4.credited == 0
    ensures var n := Play(m4, es[4..], hash); n.finished == 1 && n.credited == 0
  {
    hide Sound, Advance, Play, Joined, Meeting;
    SoundRouted(m4);
    PlayOne(m4, es, 4, hash);
    BothJoin(m4.room);
    NotStarted(m4.room, Lobby("#ab"), Lobby("cd"));
    CalmStep(m4, es[4], hash);
    var m5 := Advance(m4, es[4], hash);
    SoundRouted(m5);
    PlayOne(m5, es, 5, hash);
    NotStarted(m5.room, WarzoneModel.Playing("#ab"), Lobby("cd"));
    CalmStep(m5, es[5], hash);
    var m6 := Advance(m5, es[5], hash);
    SoundRouted(m6);
    Seating(m6.room);
    HashFights(m6, es, now, hash);
  }

  lemma Seating(r: Room)
    requires Meeting(r, WarzoneModel.Playing("#ab"), WarzoneModel.Playing("cd")) && r.slotConn[0] == 0 && r.slotConn[1] == 1
    ensures Together(r) && !r.started
  {
  }

  lemma HashFights(m6: Match, es: seq<Event>, now: Stamp, hash: (string, string) -> Hex)
    requires Sound(m6) && Together(m6.room) && !m6.room.started && !m6.room.fighters[0].ready && !m6.room.fighters[1].ready
    requires m6.finished == 0 && m6.credited == 0 && es == HashRun(now)
    ensures var n := Play(m6, es[6..], hash); n.finished == 1 && n.credited == 0
  {
    hide Sound, Advance, Play, Readied, Dropped, Together;
    SoundRouted(m6);
    PlayOne(m6, es, 6, hash);
    FirstReady(m6.room);
    CalmStep(m6, es[6], hash);
    var m7 := Advance(m6, es[6], hash);
    SoundRouted(m7);
    PlayOne(m7, es, 7, hash);
    SecondReady(m7.room);
    CalmStep(m7, es[7], hash);
    var m8 := Advance(m7, es[7], hash);
    SoundRouted(m8);
    PlayOne(m8, es, 8, hash);
    SecondDrops(m8.room, now);
    LastStep(m8, now, hash);
    PlayNothing(Advance(m8, es[8], hash), es[9..], hash);
  }

  lemma LastStep(m: Match, now: Stamp, hash: (string, string) -> Hex)
    requires Routed(m.room) && Together(m.room) && m.room.started && m.finished == 0 && m.credited == 0
    requires var s := Dropped(m.room, 1, now); s.over && s.winner == 0 && s.conns[0] == WarzoneModel.Playing("#ab")
    ensures var n := Advance(m, Drops(1, now), hash); n.finished == 1 && n.credited == 0
  {
    HashName();
    hide Dropped, Hidden;
  }

  lemma PlayNothing(m: Match, es: seq<Event>, hash: (string, string) -> Hex)
    requires Sound(m) && es == []
    ensures Play(m, es, hash) == m
  {
    hide Sound;
  }
}
