/** The warzone database as an object: two texts that every operation loads, edits as a list and
    writes back whole. */
module DatabaseObject {
  import opened Basics
  import Decimal
  import opened WarzoneDatabase
  import opened WarzoneAccounts

  lemma {:induction false} UnlinesAppend(lines: seq<string>, line: string)
    ensures Unlines(lines + [line]) == Unlines(lines) + line + "\n"
  {
    if lines == [] {
      assert [line][1..] == [];
    } else {
      assert (lines + [line])[1..] == lines[1..] + [line];
      UnlinesAppend(lines[1..], line);
    }
  }

  lemma {:induction false} UpdatedAt(list: seq<Stats>, i: nat, name: string, win: bool, kills: int, died: bool, now: string)
    requires i <= |list| && forall j | 0 <= j < i :: list[j].name != name
    requires i < |list| ==> list[i].name == name
    ensures Updated(list, name, win, kills, died, now) ==
      if i < |list| then list[i := Bump(list[i], win, kills, died, now)]
      else list + [Bump(NoGames(name, now), win, kills, died, now)]
  {
    if i > 0 {
      UpdatedAt(list[1..], i - 1, name, win, kills, died, now);
    }
  }

  lemma {:induction false} FoundAt(list: seq<User>, i: nat, name: string)
    requires i <= |list| && forall j | 0 <= j < i :: list[j].name != name
    requires i < |list| ==> list[i].name == name
    ensures FindUser(list, name) == if i < |list| then Some(list[i]) else None
  {
    if i > 0 {
      FoundAt(list[1..], i - 1, name);
    }
  }

  class Database {
    var usersText: string
    var statsText: string
    const hash: (string, string) -> Hex

    /** The records that a load of the files finds. */
    ghost function Users(): seq<User>
      reads this
    {
      LoadUsers(usersText)
    }

    ghost function AllStats(): seq<Stats>
      reads this
    {
      LoadStats(statsText)
    }

    ghost predicate Valid()
      reads this
    {
      UsersOnFile(Users()) && StatsOnFile(AllStats())
    }

    /** Both files are missing. */
    constructor (hash: (string, string) -> Hex)
      ensures Valid() && Users() == [] && AllStats() == [] && this.hash == hash
    {
      usersText, statsText, this.hash := "", "", hash;
    }

    method LoadUsersLocked() returns (list: seq<User>)
      ensures list == Users()
    {
      hide ParseUser, Lines;
      list := [];
      var lines := Lines(usersText);
      for i := 0 to |lines|
        invariant list + ParseUsers(lines[i..]) == ParseUsers(lines)
      {
        assert lines[i..][0] == lines[i] && lines[i..][1..] == lines[i + 1..];
        var parsed := ParseUser(lines[i]);
        if parsed.Some? {
          list := list + [parsed.value];
        }
      }
    }

    method LoadStatsLocked() returns (list: seq<Stats>)
      ensures list == AllStats()
    {
      hide ParseStats, Lines;
      list := [];
      var lines := Lines(statsText);
      for i := 0 to |lines|
        invariant list + ParseAllStats(lines[i..]) == ParseAllStats(lines)
      {
        assert lines[i..][0] == lines[i] && lines[i..][1..] == lines[i + 1..];
        var parsed := ParseStats(lines[i]);
        if parsed.Some? {
          list := list + [parsed.value];
        }
      }
    }

    method SaveUsersLocked(list: seq<User>)
      modifies `usersText
      ensures usersText == UsersText(list)
    {
      hide Join, UserLine;
      var text := Join(UsersColumns()) + "\n";
      UnlinesAppend([], Join(UsersColumns()));
      assert [] + [Join(UsersColumns())] == [Join(UsersColumns())];
      for i := 0 to |list|
        invariant text == UsersText(list[..i])
      {
        UserLinesAppend(list[..i], list[i]);
        assert list[..i + 1] == list[..i] + [list[i]];
        text := text + UserLine(list[i]) + "\n";
      }
      assert list[..|list|] == list;
      usersText := text;
    }

    method SaveStatsLocked(list: seq<Stats>)
      modifies `statsText
      ensures statsText == StatsText(list)
    {
      hide Join, StatsLine;
      var text := Join(StatsColumns()) + "\n";
      UnlinesAppend([], Join(StatsColumns()));
      assert [] + [Join(StatsColumns())] == [Join(StatsColumns())];
      for i := 0 to |list|
        invariant text == StatsText(list[..i])
      {
        StatsLinesAppend(list[..i], list[i]);
        assert list[..i + 1] == list[..i] + [list[i]];
        text := text + StatsLine(list[i]) + "\n";
      }
      assert list[..|list|] == list;
      statsText := text;
    }

    method RegisterUser(name: string, pw: string, now: Stamp) returns (ok: bool)
      requires Valid()
      modifies this
      ensures Valid() && ok == CanRegister(old(Users()), name, pw)
      ensures Users() == old(Users()) + if ok && !Hidden(name) then [User(name, hash(name, pw), now)] else []
      ensures AllStats() == old(AllStats()) + if ok && !Hidden(name) then [NoGames(name, now)] else []
    {
      hide UsersText, StatsText, LoadUsers, LoadStats, StorableUser, StorableStats, Hidden, Lacks;
      if |name| == 0 || |name| > 30 {
        return false;
      }
      if |pw| < 4 {
        return false;
      }
      if !Lacks(name, '|') || !Lacks(name, '\n') {
        return false;
      }
      var users := LoadUsersLocked();
      for i := 0 to |users|
        invariant forall j | 0 <= j < i :: users[j].name != name
      {
        if users[i].name == name {
          FoundAt(users, i, name);
          return false;
        }
      }
      FoundAt(users, |users|, name);
      var stats := LoadStatsLocked();
      RegisterThroughFile(users, stats, name, pw, now, hash);
      SaveUsersLocked(users + [User(name, hash(name, pw), now)]);
      SaveStatsLocked(stats + [NoGames(name, now)]);
      return true;
    }

    method Login(name: string, pw: string) returns (ok: bool)
      ensures ok == CanLogin(Users(), name, pw, hash)
    {
      var users := LoadUsersLocked();
      for i := 0 to |users|
        invariant forall j | 0 <= j < i :: users[j].name != name
      {
        if users[i].name == name {
          FoundAt(users, i, name);
          return users[i].hash == hash(name, pw);
        }
      }
      FoundAt(users, |users|, name);
      return false;
    }

    method UpdateStats(name: string, win: bool, kills: int, died: bool, now: Stamp)
      requires Valid() && PlainName(name)
      modifies `statsText
      ensures Valid() && Users() == old(Users())
      ensures AllStats() == Recorded(old(AllStats()), name, win, kills, died, now)
    {
      hide LoadUsers, LoadStats, StatsText, Bump, PlainName;
      var stats := LoadStatsLocked();
      ghost var before := stats;
      var found := false;
      var i := 0;
      while i < |stats| && !found
        decreases |stats| - i, if found then 0 else 1
        invariant i <= |stats|
        invariant !found ==> stats == before && forall j | 0 <= j < i :: before[j].name != name
        invariant found ==> stats == Updated(before, name, win, kills, died, now)
      {
        if stats[i].name == name {
          UpdatedAt(before, i, name, win, kills, died, now);
          var counted := CountGame(stats[i], win, kills, died, now);
          stats := stats[i := counted];
          found := true;
        } else {
          i := i + 1;
        }
      }
      if !found {
        UpdatedAt(before, |before|, name, win, kills, died, now);
        var made := FirstGame(name, win, kills, died, now);
        stats := stats + [made];
      }
      UpdateThroughFile(before, name, win, kills, died, now);
      SaveStatsLocked(stats);
    }
  }

  /** One more game in a record. */
  method CountGame(record: Stats, win: bool, kills: int, died: bool, now: Stamp) returns (s: Stats)
    ensures s == Bump(record, win, kills, died, now)
  {
    s := record.(games := record.games + 1, kills := record.kills + kills);
    if died {
      s := s.(deaths := s.deaths + 1);
    }
    if win {
      s := s.(wins := s.wins + 1);
    } else {
      s := s.(losses := s.losses + 1);
    }
    s := s.(lastPlayed := now);
  }

  /** The record of a name that had none. */
  method FirstGame(name: string, win: bool, kills: int, died: bool, now: Stamp) returns (s: Stats)
    ensures s == Bump(NoGames(name, now), win, kills, died, now)
  {
    s := Stats(name, 0, 0, kills, 0, 1, now);
    if win {
      s := s.(wins := 1);
    } else {
      s := s.(losses := 1);
    }
    if died {
      s := s.(deaths := 1);
    }
  }

  lemma {:induction false} UserLinesAppend(list: seq<User>, u: User)
    ensures UsersText(list + [u]) == UsersText(list) + UserLine(u) + "\n"
  {
    hide Join, UserLine;
    UserLinesOf(list, u);
    var header := [Join(UsersColumns())];
    UnlinesAppend(header + UserLines(list), UserLine(u));
    assert header + UserLines(list + [u]) == header + UserLines(list) + [UserLine(u)];
  }

  lemma {:induction false} UserLinesOf(list: seq<User>, u: User)
    ensures UserLines(list + [u]) == UserLines(list) + [UserLine(u)]
  {
    hide UserLine;
    if list == [] {
      assert [u][1..] == [];
      assert list + [u] == [u];
    } else {
      assert (list + [u])[1..] == list[1..] + [u];
      UserLinesOf(list[1..], u);
    }
  }

  lemma {:induction false} StatsLinesAppend(list: seq<Stats>, s: Stats)
    ensures StatsText(list + [s]) == StatsText(list) + StatsLine(s) + "\n"
  {
    hide Join, StatsLine;
    StatsLinesOf(list, s);
    var header := [Join(StatsColumns())];
    UnlinesAppend(header + StatsLines(list), StatsLine(s));
    assert header + StatsLines(list + [s]) == header + StatsLines(list) + [StatsLine(s)];
  }

  lemma {:induction false} StatsLinesOf(list: seq<Stats>, s: Stats)
    ensures StatsLines(list + [s]) == StatsLines(list) + [StatsLine(s)]
  {
    hide StatsLine;
    if list == [] {
      assert [s][1..] == [];
      assert list + [s] == [s];
    } else {
      assert (list + [s])[1..] == list[1..] + [s];
      StatsLinesOf(list[1..], s);
    }
  }
}
