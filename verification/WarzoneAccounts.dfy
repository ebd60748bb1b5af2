/** What the operations of the warzone database do to the records that a load sees. */
module WarzoneAccounts {
  import opened Basics
  import opened WarzoneDatabase

  // A time of day as it is printed, and a printed hash: no line breaks, no bars.
  type Stamp = s: string | Lacks(s, '\n') && Lacks(s, '\r') witness ""
  type Hex = s: string | Lacks(s, '|') && Lacks(s, '\n') witness ""

  // ----- Statistics -----

  function Bump(s: Stats, win: bool, kills: int, died: bool, now: string): Stats {
    s.(wins := s.wins + (if win then 1 else 0), losses := s.losses + (if win then 0 else 1), kills := s.kills + kills,
       deaths := s.deaths + (if died then 1 else 0), games := s.games + 1, lastPlayed := now)
  }

  function NoGames(name: string, now: string): Stats {
    Stats(name, 0, 0, 0, 0, 0, now)
  }

  /** The first record of the name is updated; a missing one is created. */
  function Updated(list: seq<Stats>, name: string, win: bool, kills: int, died: bool, now: string): seq<Stats> {
    if list == [] then [Bump(NoGames(name, now), win, kills, died, now)]
    else if list[0].name == name then [Bump(list[0], win, kills, died, now)] + list[1..]
    else [list[0]] + Updated(list[1..], name, win, kills, died, now)
  }

  /** What a later load sees of an update: nothing at all for a name that looks like a comment. */
  function Recorded(list: seq<Stats>, name: string, win: bool, kills: int, died: bool, now: string): seq<Stats> {
    if Hidden(name) then list else Updated(list, name, win, kills, died, now)
  }

  ghost predicate StatsOnFile(list: seq<Stats>) {
    forall s | s in list :: StorableStats(s) && !Hidden(s.name)
  }

  ghost predicate UsersOnFile(list: seq<User>) {
    forall u | u in list :: StorableUser(u) && !Hidden(u.name)
  }

  lemma {:induction false} UpdatedMembers(list: seq<Stats>, name: string, win: bool, kills: int, died: bool, now: Stamp)
    requires StatsOnFile(list) && PlainName(name)
    ensures var l := Updated(list, name, win, kills, died, now);
      (forall s | s in l :: StorableStats(s) && (Hidden(s.name) ==> s.name == name))
      && SeenStats(l) == Recorded(list, name, win, kills, died, now)
  {
    hide PlainName;
    if list == [] {
    } else {
      assert list[0] in list;
      if list[0].name == name {
        SeenStatsAll(list);
        assert SeenStats(list[1..]) == list[1..] by {
          SeenStatsAll(list[1..]);
        }
      } else {
        UpdatedMembers(list[1..], name, win, kills, died, now);
        var l := Updated(list, name, win, kills, died, now);
        assert l[1..] == Updated(list[1..], name, win, kills, died, now);
        assert list == [list[0]] + list[1..];
      }
    }
  }

  /** Updating the statistics through the file. */
  lemma UpdateThroughFile(list: seq<Stats>, name: string, win: bool, kills: int, died: bool, now: Stamp)
    requires StatsOnFile(list) && PlainName(name)
    ensures var text := StatsText(Updated(list, name, win, kills, died, now));
      LoadStats(text) == Recorded(list, name, win, kills, died, now) && StatsOnFile(LoadStats(text))
  {
    UpdatedMembers(list, name, win, kills, died, now);
    var l := Updated(list, name, win, kills, died, now);
    StatsRoundTrip(l);
    SeenStatsAll(l);
  }

  function TotalWins(list: seq<Stats>): int {
    if list == [] then 0 else list[0].wins + TotalWins(list[1..])
  }

  ghost predicate Balanced(list: seq<Stats>) {
    forall s | s in list :: s.wins + s.losses == s.games
  }

  /** One update adds one game to the accounts, and a win exactly when it says so. */
  lemma {:induction false} UpdateAccounts(list: seq<Stats>, name: string, win: bool, kills: int, died: bool, now: string)
    requires Balanced(list)
    ensures Balanced(Updated(list, name, win, kills, died, now))
    ensures TotalWins(Updated(list, name, win, kills, died, now)) == TotalWins(list) + if win then 1 else 0
  {
    if list != [] {
      assert list[0] in list;
      assert forall s | s in list[1..] :: s in list;
      if list[0].name != name {
        UpdateAccounts(list[1..], name, win, kills, died, now);
      }
    }
  }

  /** The first record of the name has one game more, the win or the loss, the kills and the death, and the
      time of the update; a name without a record gets one with just these. */
  lemma {:induction false} UpdateRecords(list: seq<Stats>, name: string, win: bool, kills: int, died: bool, now: string, i: nat)
    requires i <= |list| && forall j | 0 <= j < i :: list[j].name != name
    requires i < |list| ==> list[i].name == name
    ensures var l := Updated(list, name, win, kills, died, now);
      var was := if i < |list| then list[i] else NoGames(name, now);
      && |l| == (if i < |list| then |list| else |list| + 1) && l[i].name == name && l[i].lastPlayed == now
      && l[i].games - was.games == 1 && l[i].kills - was.kills == kills
      && l[i].wins - was.wins == (if win then 1 else 0) && l[i].losses - was.losses == (if win then 0 else 1)
      && l[i].deaths - was.deaths == (if died then 1 else 0)
      && (i == |list| ==> l[i].games == 1)
    decreases |list|
  {
    if i > 0 {
      UpdateRecords(list[1..], name, win, kills, died, now, i - 1);
    }
  }

  /** A record that is not the name's first keeps everything. */
  lemma {:induction false} UpdateElsewhere(list: seq<Stats>, name: string, win: bool, kills: int, died: bool,
                                           now: string, i: nat)
    requires i < |list|
    ensures i < |Updated(list, name, win, kills, died, now)|
    ensures Updated(list, name, win, kills, died, now)[i] ==
      if list[i].name == name && (forall j | 0 <= j < i :: list[j].name != name) then
        Bump(list[i], win, kills, died, now)
      else list[i]
  {
    if list[0].name != name && i > 0 {
      UpdateElsewhere(list[1..], name, win, kills, died, now, i - 1);
      assert (forall j | 0 <= j < i :: list[j].name != name)
        <==> (forall j | 0 <= j < i - 1 :: list[1..][j].name != name) by {
        assert forall j | 0 < j < i :: list[j] == list[1..][j - 1];
      }
    }
  }

  // ----- Registration and login -----

  function FindUser(list: seq<User>, name: string): Option<User> {
    if list == [] then None else if list[0].name == name then Some(list[0]) else FindUser(list[1..], name)
  }

  predicate CanRegister(users: seq<User>, name: string, pw: string) {
    0 < |name| <= 30 && |pw| >= 4 && Lacks(name, '|') && Lacks(name, '\n') && FindUser(users, name).None?
  }

  predicate CanLogin(users: seq<User>, name: string, pw: string, hash: (string, string) -> Hex) {
    FindUser(users, name).Some? && FindUser(users, name).value.hash == hash(name, pw)
  }

  lemma {:induction false} FindUserMeans(list: seq<User>, name: string)
    ensures FindUser(list, name).Some? <==> exists u :: u in list && u.name == name
    ensures FindUser(list, name).Some? ==> FindUser(list, name).value in list && FindUser(list, name).value.name == name
  {
    if list != [] {
      FindUserMeans(list[1..], name);
      assert list == [list[0]] + list[1..];
    }
  }

  lemma {:induction false} SeenUsersAppend(list: seq<User>, u: User)
    ensures SeenUsers(list + [u]) == SeenUsers(list) + if Hidden(u.name) then [] else [u]
  {
    if list != [] {
      SeenUsersAppend(list[1..], u);
      assert (list + [u])[1..] == list[1..] + [u];
    } else {
      assert list + [u] == [u];
    }
  }

  lemma {:induction false} SeenStatsAppend(list: seq<Stats>, s: Stats)
    ensures SeenStats(list + [s]) == SeenStats(list) + if Hidden(s.name) then [] else [s]
  {
    if list != [] {
      SeenStatsAppend(list[1..], s);
      assert (list + [s])[1..] == list[1..] + [s];
    } else {
      assert list + [s] == [s];
    }
  }

  lemma UserAdded(users: seq<User>, u: User)
    requires UsersOnFile(users) && StorableUser(u)
    ensures LoadUsers(UsersText(users + [u])) == users + if Hidden(u.name) then [] else [u]
    ensures UsersOnFile(LoadUsers(UsersText(users + [u])))
  {
    hide StorableUser, UsersText, LoadUsers, Hidden;
    UsersRoundTrip(users + [u]);
    SeenUsersAll(users);
    SeenUsersAppend(users, u);
  }

  lemma StatsAdded(stats: seq<Stats>, s: Stats)
    requires StatsOnFile(stats) && StorableStats(s)
    ensures LoadStats(StatsText(stats + [s])) == stats + if Hidden(s.name) then [] else [s]
    ensures StatsOnFile(LoadStats(StatsText(stats + [s])))
  {
    hide StorableStats, StatsText, LoadStats, Hidden;
    StatsRoundTrip(stats + [s]);
    SeenStatsAll(stats);
    SeenStatsAppend(stats, s);
  }

  /** A registration is visible to later loads, and lets the user log in, unless the name looks like
      a comment: then neither file shows it. */
  lemma RegisterThroughFile(users: seq<User>, stats: seq<Stats>, name: string, pw: string, now: Stamp,
                            hash: (string, string) -> Hex)
    requires UsersOnFile(users) && StatsOnFile(stats) && CanRegister(users, name, pw)
    ensures var later := LoadUsers(UsersText(users + [User(name, hash(name, pw), now)]));
      later == (users + if Hidden(name) then [] else [User(name, hash(name, pw), now)]) && UsersOnFile(later)
      && (CanLogin(later, name, pw, hash) <==> !Hidden(name))
    ensures var later := LoadStats(StatsText(stats + [NoGames(name, now)]));
      later == (stats + if Hidden(name) then [] else [NoGames(name, now)]) && StatsOnFile(later)
  {
    var u := User(name, hash(name, pw), now);
    assert StorableUser(u) && StorableStats(NoGames(name, now));
    hide StorableUser, StorableStats, UsersText, StatsText, LoadUsers, LoadStats, Hidden;
    UserAdded(users, u);
    StatsAdded(stats, NoGames(name, now));
    FindAppended(users, u);
    assert users + [] == users;
  }

  lemma {:induction false} FindAppended(list: seq<User>, u: User)
    requires FindUser(list, u.name).None?
    ensures FindUser(list + [u], u.name) == Some(u)
  {
    if list != [] {
      FindAppended(list[1..], u);
      assert (list + [u])[1..] == list[1..] + [u];
    } else {
      assert list + [u] == [u];
    }
  }
}
