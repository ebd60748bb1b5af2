/** The text database of the warzone server: two files of lines with fields between bars, loaded and
    written whole on every operation. Loading what was saved gives the records back, except those
    whose names look like comments. */
module WarzoneDatabase {
  import opened Basics
  import Decimal

  datatype User = User(name: string, hash: string, createdAt: string)

  datatype Stats = Stats(name: string, wins: int, losses: int, kills: int, deaths: int, games: int,
                         lastPlayed: string)

  // ----- Lines and fields -----

  function IndexOf(s: string, c: char): (i: nat)
    ensures i <= |s| && (forall j | 0 <= j < i :: s[j] != c) && (i < |s| ==> s[i] == c)
  {
    if s == "" || s[0] == c then 0 else 1 + IndexOf(s[1..], c)
  }

  predicate Lacks(s: string, c: char) {
    forall i | 0 <= i < |s| :: s[i] != c
  }

  /** A line as the scanner hands it out: one carriage return at its end is dropped. */
  function Chomp(line: string): string {
    if line != "" && line[|line| - 1] == '\r' then line[..|line| - 1] else line
  }

  function Lines(text: string): seq<string>
    decreases |text|
  {
    if text == "" then []
    else
      var i := IndexOf(text, '\n');
      [Chomp(text[..i])] + if i == |text| then [] else Lines(text[i + 1..])
  }

  /** strings.SplitN with "|". */
  function SplitN(s: string, n: nat): (parts: seq<string>)
    requires n > 0
    ensures 0 < |parts| <= n
    decreases n
  {
    var i := IndexOf(s, '|');
    if n == 1 || i == |s| then [s] else [s[..i]] + SplitN(s[i + 1..], n - 1)
  }

  function Unlines(lines: seq<string>): string {
    if lines == [] then "" else lines[0] + "\n" + Unlines(lines[1..])
  }

  lemma IndexOfBar(a: string, c: char, rest: string)
    requires Lacks(a, c)
    ensures IndexOf(a + [c] + rest, c) == |a|
  {
    var s := a + [c] + rest;
    assert s[|a|] == c;
    assert forall j | 0 <= j < |a| :: s[j] == a[j];
  }

  lemma SplitFirst(a: string, rest: string, n: nat)
    requires Lacks(a, '|') && n > 1
    ensures SplitN(a + "|" + rest, n) == [a] + SplitN(rest, n - 1)
  {
    IndexOfBar(a, '|', rest);
    var s := a + "|" + rest;
    assert s[..|a|] == a && s[|a| + 1..] == rest;
  }

  /** The fields of a record with bars between them. */
  function Join(fields: seq<string>): string
    requires fields != []
  {
    if |fields| == 1 then fields[0] else fields[0] + "|" + Join(fields[1..])
  }

  lemma {:induction false} SplitOfJoin(fields: seq<string>)
    requires fields != [] && forall i | 0 <= i < |fields| - 1 :: Lacks(fields[i], '|')
    ensures SplitN(Join(fields), |fields|) == fields
  {
    if |fields| > 1 {
      SplitFirst(fields[0], Join(fields[1..]), |fields|);
      SplitOfJoin(fields[1..]);
    }
  }

  /** A record of one-line fields is one line, and nothing is cut off its end. */
  lemma {:induction false} JoinIsLine(fields: seq<string>)
    requires fields != [] && forall i | 0 <= i < |fields| :: Lacks(fields[i], '\n')
    requires Chomp(fields[|fields| - 1]) == fields[|fields| - 1]
    ensures Lacks(Join(fields), '\n') && Chomp(Join(fields)) == Join(fields)
    ensures fields[0] != "" ==> Join(fields) != "" && Join(fields)[0] == fields[0][0]
  {
    if |fields| > 1 {
      JoinIsLine(fields[1..]);
      var rest := Join(fields[1..]);
      var line := fields[0] + "|" + rest;
      assert rest != "" ==> line[|line| - 1] == rest[|rest| - 1];
    }
  }

  lemma {:induction false} LinesOfUnlines(lines: seq<string>)
    requires forall i | 0 <= i < |lines| :: Lacks(lines[i], '\n') && Chomp(lines[i]) == lines[i]
    ensures Lines(Unlines(lines)) == lines
  {
    if lines != [] {
      IndexOfBar(lines[0], '\n', Unlines(lines[1..]));
      var s := Unlines(lines);
      assert s[..|lines[0]|] == lines[0] && s[|lines[0]| + 1..] == Unlines(lines[1..]);
      LinesOfUnlines(lines[1..]);
    }
  }

  // ----- The users file -----

  function UsersColumns(): (columns: seq<string>)
    ensures columns != []
  {
    ["# username", "password_hash", "created_at"]
  }

  function StatsColumns(): (columns: seq<string>)
    ensures columns != []
  {
    ["# username", "wins", "losses", "kills", "deaths", "games", "last_played"]
  }

  predicate Comment(line: string) {
    line == "" || line[0] == '#'
  }

  function UserLine(u: User): string {
    Join([u.name, u.hash, u.createdAt])
  }

  function UserLines(list: seq<User>): seq<string> {
    if list == [] then [] else [UserLine(list[0])] + UserLines(list[1..])
  }

  function UsersText(list: seq<User>): string {
    Unlines([Join(UsersColumns())] + UserLines(list))
  }

  function ParseUser(line: string): Option<User> {
    if Comment(line) then None
    else
      var parts := SplitN(line, 3);
      if |parts| < 3 then None else Some(User(parts[0], parts[1], parts[2]))
  }

  function ParseUsers(lines: seq<string>): seq<User> {
    if lines == [] then []
    else (if ParseUser(lines[0]).Some? then [ParseUser(lines[0]).value] else []) + ParseUsers(lines[1..])
  }

  function LoadUsers(text: string): seq<User> {
    ParseUsers(Lines(text))
  }

  // ----- The statistics file -----

  function StatsFields(s: Stats): seq<string> {
    [s.name, Decimal.Print(s.wins), Decimal.Print(s.losses), Decimal.Print(s.kills), Decimal.Print(s.deaths),
     Decimal.Print(s.games), s.lastPlayed]
  }

  function StatsLine(s: Stats): string {
    Join(StatsFields(s))
  }

  function StatsLines(list: seq<Stats>): seq<string> {
    if list == [] then [] else [StatsLine(list[0])] + StatsLines(list[1..])
  }

  function StatsText(list: seq<Stats>): string {
    Unlines([Join(StatsColumns())] + StatsLines(list))
  }

  function ParseStats(line: string): Option<Stats> {
    if Comment(line) then None
    else
      var parts := SplitN(line, 7);
      if |parts| < 7 then None
      else Some(Stats(parts[0], Decimal.Atoi(parts[1]), Decimal.Atoi(parts[2]), Decimal.Atoi(parts[3]),
                      Decimal.Atoi(parts[4]), Decimal.Atoi(parts[5]), parts[6]))
  }

  function ParseAllStats(lines: seq<string>): seq<Stats> {
    if lines == [] then []
    else (if ParseStats(lines[0]).Some? then [ParseStats(lines[0]).value] else []) + ParseAllStats(lines[1..])
  }

  function LoadStats(text: string): seq<Stats> {
    ParseAllStats(Lines(text))
  }

  // ----- What survives a save and a load -----

  /** Names without bars and newlines, as registration demands. */
  predicate PlainName(name: string) {
    name != "" && Lacks(name, '|') && Lacks(name, '\n')
  }

  /** A name that makes its line look like a comment. */
  predicate Hidden(name: string) {
    name != "" && name[0] == '#'
  }

  predicate LastField(s: string) {
    Lacks(s, '\n') && Chomp(s) == s
  }

  predicate StorableUser(u: User) {
    PlainName(u.name) && Lacks(u.hash, '|') && Lacks(u.hash, '\n') && LastField(u.createdAt)
  }

  predicate StorableStats(s: Stats) {
    PlainName(s.name) && LastField(s.lastPlayed)
  }

  function SeenUsers(list: seq<User>): seq<User> {
    if list == [] then [] else (if Hidden(list[0].name) then [] else [list[0]]) + SeenUsers(list[1..])
  }

  function SeenStats(list: seq<Stats>): seq<Stats> {
    if list == [] then [] else (if Hidden(list[0].name) then [] else [list[0]]) + SeenStats(list[1..])
  }

  lemma UserLineReturns(u: User)
    requires StorableUser(u)
    ensures Lacks(UserLine(u), '\n') && Chomp(UserLine(u)) == UserLine(u)
    ensures ParseUser(UserLine(u)) == if Hidden(u.name) then None else Some(u)
  {
    var fields := [u.name, u.hash, u.createdAt];
    SplitOfJoin(fields);
    JoinIsLine(fields);
    hide Join, SplitN;
  }

  lemma {:induction false} UsersReturn(list: seq<User>)
    requires forall i | 0 <= i < |list| :: StorableUser(list[i])
    ensures ParseUsers(UserLines(list)) == SeenUsers(list)
    ensures |UserLines(list)| == |list|
    ensures forall i | 0 <= i < |list| :: UserLines(list)[i] == UserLine(list[i])
  {
    if list != [] {
      UserLineReturns(list[0]);
      UsersReturn(list[1..]);
      hide UserLine, StorableUser, ParseUser;
      assert UserLines(list)[1..] == UserLines(list[1..]);
    }
  }

  lemma UserLinesAreLines(list: seq<User>)
    requires forall i | 0 <= i < |list| :: StorableUser(list[i])
    ensures forall i | 0 <= i < |UserLines(list)| :: Lacks(UserLines(list)[i], '\n') && Chomp(UserLines(list)[i]) == UserLines(list)[i]
  {
    hide StorableUser, UserLine, Lacks, Chomp, ParseUser, Hidden;
    UsersReturn(list);
    forall i | 0 <= i < |UserLines(list)|
      ensures Lacks(UserLines(list)[i], '\n') && Chomp(UserLines(list)[i]) == UserLines(list)[i] {
      UserLineReturns(list[i]);
    }
  }

  lemma UsersTextIs(list: seq<User>)
    ensures LoadUsers(UsersText(list)) == ParseUsers(Lines(Unlines([Join(UsersColumns())] + UserLines(list))))
  {
  }

  /** Loading the saved users gives back, in order, those whose names do not begin with '#'. */
  lemma UsersRoundTrip(list: seq<User>)
    requires forall i | 0 <= i < |list| :: StorableUser(list[i])
    ensures LoadUsers(UsersText(list)) == SeenUsers(list)
    ensures LoadUsers(UsersText(list)) == list <==> forall i | 0 <= i < |list| :: !Hidden(list[i].name)
  {
    hide *;
    UsersReturn(list);
    UsersHeader();
    UserLinesAreLines(list);
    UsersTextIs(list);
    FileLines(Join(UsersColumns()), UserLines(list));
    SeenUsersAll(list);
  }

  lemma UsersHeader()
    ensures var header := Join(UsersColumns()); Lacks(header, '\n') && Chomp(header) == header && Comment(header)
  {
    JoinIsLine(UsersColumns());
    hide Join;
  }

  lemma StatsHeader()
    ensures var header := Join(StatsColumns()); Lacks(header, '\n') && Chomp(header) == header && Comment(header)
  {
    JoinIsLine(StatsColumns());
    hide Join;
  }

  /** The lines of a file are its header and the record lines, and the header is no record. */
  lemma FileLines(header: string, lines: seq<string>)
    requires Lacks(header, '\n') && Chomp(header) == header && Comment(header)
    requires forall i | 0 <= i < |lines| :: Lacks(lines[i], '\n') && Chomp(lines[i]) == lines[i]
    ensures Lines(Unlines([header] + lines)) == [header] + lines
    ensures ParseUsers([header] + lines) == ParseUsers(lines)
    ensures ParseAllStats([header] + lines) == ParseAllStats(lines)
  {
    var all := [header] + lines;
    assert all[0] == header && all[1..] == lines;
    assert Lines(Unlines(all)) == all by {
      hide Lines, Unlines, Lacks, Chomp, ParseUsers, ParseAllStats;
      LinesOfUnlines(all);
    }
    hide Lines, Unlines, Lacks, Chomp, SplitN;
  }

  lemma {:induction false} SeenUsersAll(list: seq<User>)
    ensures |SeenUsers(list)| <= |list|
    ensures SeenUsers(list) == list <==> forall i | 0 <= i < |list| :: !Hidden(list[i].name)
    ensures forall u | u in SeenUsers(list) :: u in list && !Hidden(u.name)
  {
    if list != [] {
      SeenUsersAll(list[1..]);
      assert list == [list[0]] + list[1..];
      if Hidden(list[0].name) {
        assert |SeenUsers(list)| < |list|;
      } else {
        assert SeenUsers(list)[1..] == SeenUsers(list[1..]);
        assert (forall i | 0 <= i < |list| :: !Hidden(list[i].name))
          <==> (forall i | 0 <= i < |list[1..]| :: !Hidden(list[1..][i].name)) by {
          forall i | 0 < i < |list| ensures list[i] == list[1..][i - 1] {
          }
        }
      }
    }
  }

  lemma StatsLineReturns(s: Stats)
    requires StorableStats(s)
    ensures Lacks(StatsLine(s), '\n') && Chomp(StatsLine(s)) == StatsLine(s)
    ensures ParseStats(StatsLine(s)) == if Hidden(s.name) then None else Some(s)
  {
    var fields := StatsFields(s);
    PrintedField(s.wins);
    PrintedField(s.losses);
    PrintedField(s.kills);
    PrintedField(s.deaths);
    PrintedField(s.games);
    hide Decimal.Print, Decimal.Atoi, Lacks;
    SplitOfJoin(fields);
    JoinIsLine(fields);
    hide Join, SplitN;
  }

  lemma PrintedField(n: int)
    ensures Lacks(Decimal.Print(n), '|') && Lacks(Decimal.Print(n), '\n') && Decimal.Atoi(Decimal.Print(n)) == n
  {
    Decimal.RoundTrip(n);
  }

  lemma {:induction false} StatsReturn(list: seq<Stats>)
    requires forall i | 0 <= i < |list| :: StorableStats(list[i])
    ensures ParseAllStats(StatsLines(list)) == SeenStats(list)
    ensures |StatsLines(list)| == |list|
    ensures forall i | 0 <= i < |list| :: StatsLines(list)[i] == StatsLine(list[i])
  {
    if list != [] {
      StatsLineReturns(list[0]);
      StatsReturn(list[1..]);
      hide StatsLine, StorableStats, ParseStats;
      assert StatsLines(list)[1..] == StatsLines(list[1..]);
    }
  }

  lemma StatsLinesAreLines(list: seq<Stats>)
    requires forall i | 0 <= i < |list| :: StorableStats(list[i])
    ensures forall i | 0 <= i < |StatsLines(list)| :: Lacks(StatsLines(list)[i], '\n') && Chomp(StatsLines(list)[i]) == StatsLines(list)[i]
  {
    hide StorableStats, StatsLine, Lacks, Chomp, ParseStats, Hidden;
    StatsReturn(list);
    forall i | 0 <= i < |StatsLines(list)|
      ensures Lacks(StatsLines(list)[i], '\n') && Chomp(StatsLines(list)[i]) == StatsLines(list)[i] {
      StatsLineReturns(list[i]);
    }
  }

  lemma StatsTextIs(list: seq<Stats>)
    ensures LoadStats(StatsText(list)) == ParseAllStats(Lines(Unlines([Join(StatsColumns())] + StatsLines(list))))
  {
  }

  /** Loading the saved statistics gives back, in order, those whose names do not begin with '#'. */
  lemma StatsRoundTrip(list: seq<Stats>)
    requires forall i | 0 <= i < |list| :: StorableStats(list[i])
    ensures LoadStats(StatsText(list)) == SeenStats(list)
    ensures LoadStats(StatsText(list)) == list <==> forall i | 0 <= i < |list| :: !Hidden(list[i].name)
  {
    hide *;
    StatsReturn(list);
    StatsHeader();
    StatsLinesAreLines(list);
    StatsTextIs(list);
    FileLines(Join(StatsColumns()), StatsLines(list));
    SeenStatsAll(list);
  }

  lemma {:induction false} SeenStatsAll(list: seq<Stats>)
    ensures |SeenStats(list)| <= |list|
    ensures SeenStats(list) == list <==> forall i | 0 <= i < |list| :: !Hidden(list[i].name)
    ensures forall s | s in SeenStats(list) :: s in list && !Hidden(s.name)
  {
    if list != [] {
      SeenStatsAll(list[1..]);
      assert list == [list[0]] + list[1..];
      if Hidden(list[0].name) {
        assert |SeenStats(list)| < |list|;
      } else {
        assert SeenStats(list)[1..] == SeenStats(list[1..]);
        assert (forall i | 0 <= i < |list| :: !Hidden(list[i].name))
          <==> (forall i | 0 <= i < |list[1..]| :: !Hidden(list[1..][i].name)) by {
          forall i | 0 < i < |list| ensures list[i] == list[1..][i - 1] {
          }
        }
      }
    }
  }
}
