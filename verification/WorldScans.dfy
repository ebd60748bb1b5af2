/** What the scans over a world's maps of units come to, whatever order they visit the units in:
    the weakest target, the ranked spawn cells, the players brought back to life. */
module WorldScans {
  import opened Basics
  import opened WorldModel
  import opened WorldCheckpoint

  // ----- Sorting -----

  method Insert<T(!new)>(xs: seq<T>, x: T, less: (T, T) -> bool) returns (r: seq<T>)
    requires StrictTotal(less) && Increasing(xs, less) && x !in xs
    ensures Increasing(r, less) && forall y :: y in r <==> y in xs || y == x
  {
    var i := 0;
    while i < |xs| && less(xs[i], x)
      invariant i <= |xs| && forall j | 0 <= j < i :: less(xs[j], x)
    {
      i := i + 1;
    }
    r := xs[..i] + [x] + xs[i..];
    Inserted(xs, x, less, i);
  }

  lemma Inserted<T(!new)>(xs: seq<T>, x: T, less: (T, T) -> bool, i: nat)
    requires StrictTotal(less) && Increasing(xs, less) && x !in xs && i <= |xs|
    requires (forall j | 0 <= j < i :: less(xs[j], x)) && (i < |xs| ==> !less(xs[i], x))
    ensures Increasing(xs[..i] + [x] + xs[i..], less)
    ensures forall y :: y in xs[..i] + [x] + xs[i..] <==> y in xs || y == x
  {
    var r := xs[..i] + [x] + xs[i..];
    assert i < |xs| ==> xs[i] != x && less(x, xs[i]);
    assert forall j | i <= j < |xs| :: less(x, xs[j]);
    hide StrictTotal;
    assert xs == xs[..i] + xs[i..];
    forall j, k | 0 <= j < k < |r| ensures less(r[j], r[k]) {
      assert r[j] == if j < i then xs[j] else if j == i then x else xs[j - 1];
      assert r[k] == if k < i then xs[k] else if k == i then x else xs[k - 1];
    }
  }

  datatype Candidate = Candidate(at: Cell, score: int)

  predicate Better(a: Candidate, b: Candidate) {
    a.score > b.score
    || (a.score == b.score && (a.at.y < b.at.y || (a.at.y == b.at.y && a.at.x < b.at.x)))
  }

  method SortCandidates(cs: seq<Candidate>) returns (r: seq<Candidate>)
    requires forall i, j | 0 <= i < j < |cs| :: cs[i] != cs[j]
    ensures Increasing(r, Better) && forall k :: k in r <==> k in cs
  {
    assert StrictTotal(Better);
    r := [];
    for n := 0 to |cs|
      invariant Increasing(r, Better) && forall k :: k in r <==> k in cs[..n]
    {
      assert cs[n] !in cs[..n];
      r := Insert(r, cs[n], Better);
      assert cs[..n + 1] == cs[..n] + [cs[n]];
    }
    assert cs[..|cs|] == cs;
  }

  method SortNames(names: set<string>) returns (r: seq<string>)
    ensures r == SortedNames(names)
  {
    StrLessStrictTotal();
    hide StrLess;
    r := [];
    var todo := names;
    while todo != {}
      invariant todo <= names
      invariant Increasing(r, StrLess) && forall name :: name in r <==> name in names - todo
      decreases |todo|
    {
      var name :| name in todo;
      r := Insert(r, name, StrLess);
      todo := todo - {name};
    }
    SortedUnique(r, names, StrLess);
  }

  ghost predicate Scored(s: State, ignore: string, preferNPC: bool, k: Candidate) {
    k.score == SpawnScore(s, k.at, preferNPC) && Walkable(s, k.at, ignore)
  }

  predicate Before(c: Cell, y: int, x: int) {
    c.y < y || (c.y == y && c.x < x)
  }

  /** The candidates found when the scan has reached column x of row y. */
  ghost predicate Collected(s: State, ignore: string, preferNPC: bool, ks: seq<Candidate>, y: int, x: int) {
    && (forall i, j | 0 <= i < j < |ks| :: ks[i] != ks[j])
    && (forall i | 0 <= i < |ks| :: Scored(s, ignore, preferNPC, ks[i]) && Before(ks[i].at, y, x))
    && (forall c | Walkable(s, c, ignore) && Before(c, y, x) :: Candidate(c, SpawnScore(s, c, preferNPC)) in ks)
  }

  lemma NothingCollected(s: State, ignore: string, preferNPC: bool)
    ensures Collected(s, ignore, preferNPC, [], 0, 0)
  {
    assert forall c | Walkable(s, c, ignore) :: InBounds(s.terrain, c);
    hide Walkable, SpawnScore;
  }

  lemma CollectedCell(s: State, ignore: string, preferNPC: bool, ks: seq<Candidate>, y: int, x: int)
    requires Collected(s, ignore, preferNPC, ks, y, x)
    ensures !Walkable(s, Cell(x, y), ignore) ==> Collected(s, ignore, preferNPC, ks, y, x + 1)
    ensures Walkable(s, Cell(x, y), ignore) ==>
      Collected(s, ignore, preferNPC, ks + [Candidate(Cell(x, y), SpawnScore(s, Cell(x, y), preferNPC))], y, x + 1)
  {
    hide Walkable, SpawnScore;
    var here := Cell(x, y);
    forall c | Before(c, y, x + 1) ensures c == here || Before(c, y, x) {
    }
    assert !Before(here, y, x);
  }

  lemma CollectedRow(s: State, ignore: string, preferNPC: bool, ks: seq<Candidate>, y: nat)
    requires y < |s.terrain| && Collected(s, ignore, preferNPC, ks, y, |s.terrain[y]|)
    ensures Collected(s, ignore, preferNPC, ks, y + 1, 0)
  {
    assert forall c | Walkable(s, c, ignore) :: InBounds(s.terrain, c);
    hide Walkable, SpawnScore;
  }

  lemma CollectedAll(s: State, ignore: string, preferNPC: bool, ks: seq<Candidate>)
    requires Collected(s, ignore, preferNPC, ks, |s.terrain|, 0)
    ensures forall i, j | 0 <= i < j < |ks| :: ks[i] != ks[j]
    ensures forall i | 0 <= i < |ks| :: Scored(s, ignore, preferNPC, ks[i])
    ensures forall c | Walkable(s, c, ignore) :: Candidate(c, SpawnScore(s, c, preferNPC)) in ks
  {
    assert forall c | Walkable(s, c, ignore) :: InBounds(s.terrain, c);
    hide Walkable, SpawnScore;
  }

  ghost function CellsOf(ks: seq<Candidate>): (cells: seq<Cell>)
    ensures |cells| == |ks| && forall i | 0 <= i < |ks| :: cells[i] == ks[i].at
  {
    seq(|ks|, i requires 0 <= i < |ks| => ks[i].at)
  }

  lemma CandidatesOrdered(s: State, ignore: string, preferNPC: bool, ks: seq<Candidate>)
    requires Increasing(ks, Better)
    requires forall i | 0 <= i < |ks| :: Scored(s, ignore, preferNPC, ks[i])
    ensures Increasing(CellsOf(ks), AheadOrder(s, preferNPC))
  {
    hide SpawnScore, Walkable;
    forall i, j | 0 <= i < j < |ks| ensures AheadOrder(s, preferNPC)(CellsOf(ks)[i], CellsOf(ks)[j]) {
      assert Better(ks[i], ks[j]);
      assert AheadOrder(s, preferNPC)(ks[i].at, ks[j].at) == Ahead(s, preferNPC, ks[i].at, ks[j].at);
    }
  }

  /** Sorting the scored walkable cells lists them in the order that spawning is defined by. */
  lemma CandidatesRanked(s: State, ignore: string, preferNPC: bool, ks: seq<Candidate>)
    requires Increasing(ks, Better)
    requires forall i | 0 <= i < |ks| :: Scored(s, ignore, preferNPC, ks[i])
    requires forall c | Walkable(s, c, ignore) :: Candidate(c, SpawnScore(s, c, preferNPC)) in ks
    ensures CellsOf(ks) == Sorted(WalkableCells(s, ignore), AheadOrder(s, preferNPC))
    ensures |ks| == |WalkableCells(s, ignore)|
  {
    var cells, order, walkable := CellsOf(ks), AheadOrder(s, preferNPC), WalkableCells(s, ignore);
    CandidatesOrdered(s, ignore, preferNPC, ks);
    hide SpawnScore, Walkable, WalkableCells, Increasing, AheadOrder;
    forall c ensures c in Elements(cells) <==> c in walkable {
      WalkableListed(s, c, ignore);
      if c in walkable {
        var i :| 0 <= i < |ks| && ks[i] == Candidate(c, SpawnScore(s, c, preferNPC));
        assert cells[i] == c;
      }
    }
    assert Elements(cells) == walkable;
    SortedUnique(cells, walkable, order);
    SortedShape(walkable, order);
  }

  // ----- What the scans find -----

  lemma NearestUnique(c: Cell, cells: set<Cell>, d: int)
    requires d <= MAP_WIDTH + MAP_HEIGHT && forall e | e in cells :: d <= Distance(c, e)
    requires d == MAP_WIDTH + MAP_HEIGHT || exists e :: e in cells && d == Distance(c, e)
    ensures d == Nearest(c, cells)
  {
  }

  lemma NearestMore(c: Cell, cells: set<Cell>, e: Cell)
    ensures Nearest(c, cells + {e}) == Min(Nearest(c, cells), Distance(c, e))
  {
    assert e in cells + {e};
    NearestUnique(c, cells + {e}, Min(Nearest(c, cells), Distance(c, e)));
  }

  /** The cells of the units that a scan has already visited. */
  ghost function Visited(at: map<string, Cell>, todo: set<string>): set<Cell> {
    set id | id in at && id !in todo :: at[id]
  }

  lemma VisitedMore(at: map<string, Cell>, todo: set<string>, id: string)
    requires id in todo
    ensures Visited(at, todo - {id}) == if id in at then Visited(at, todo) + {at[id]} else Visited(at, todo)
  {
    if id in at {
      assert at[id] in Visited(at, todo - {id});
    }
    forall c | c in Visited(at, todo) ensures c in Visited(at, todo - {id}) {
      var k :| k in at && k !in todo && at[k] == c;
    }
  }

  ghost function NpcCells(s: State): map<string, Cell> {
    map id | id in s.npcs && s.npcs[id].alive :: s.npcs[id].at
  }

  ghost function PlayerCells(s: State): map<string, Cell> {
    map u | u in s.players && s.players[u].alive :: s.players[u].at
  }

  ghost function TreasureSpots(s: State): map<string, Cell> {
    map id | id in s.treasures :: s.treasures[id].at
  }

  lemma NothingVisited(at: map<string, Cell>, todo: set<string>)
    requires at.Keys <= todo
    ensures Visited(at, todo) == {}
  {
  }

  lemma AllVisited(s: State)
    ensures Visited(NpcCells(s), {}) == LiveNpcCells(s)
    ensures Visited(PlayerCells(s), {}) == LivePlayerCells(s)
    ensures Visited(TreasureSpots(s), {}) == TreasureCells(s)
  {
    var a, b, c := NpcCells(s), PlayerCells(s), TreasureSpots(s);
    assert forall id :: id in a <==> id in s.npcs && s.npcs[id].alive;
    assert forall u :: u in b <==> u in s.players && s.players[u].alive;
    assert forall id :: id in c <==> id in s.treasures;
  }

  ghost function NpcHp(s: State, id: string): int {
    if id in s.npcs then s.npcs[id].hp else 0
  }

  ghost function PlayerHp(s: State, u: string): int {
    if u in s.players then s.players[u].hp else 0
  }

  lemma WeakerIsStrict()
    ensures forall h: int, i: string :: !Weaker(h, i, h, i)
    ensures forall h, i, h', i', h'', i'' | Weaker(h, i, h', i') && Weaker(h', i', h'', i'') :: Weaker(h, i, h'', i'')
    ensures forall h, i, h', i' | i != i' :: Weaker(h, i, h', i') || Weaker(h', i', h, i)
  {
    StrLessStrictTotal();
    hide StrLess;
  }

  /** There is exactly one weakest NPC in reach as soon as any is in reach. */
  lemma NpcTargetDetermined(s: State, c: Cell)
    ensures NpcTarget(s, c).Some? <==> exists id :: NpcInReach(s, c, id)
    ensures forall id :: IsNpcTarget(s, c, id) <==> NpcTarget(s, c) == Some(id)
  {
    WeakerIsStrict();
    hide Weaker, StrLess;
    var reach := set id | id in s.npcs && NpcInReach(s, c, id);
    if id0 :| NpcInReach(s, c, id0) {
      assert id0 in reach;
      var less := (i: string, j: string) => Weaker(NpcHp(s, i), i, NpcHp(s, j), j);
      assert StrictTotal(less);
      LeastExists(reach, less);
      var id :| Least(id, reach, less);
      forall j | NpcInReach(s, c, j) && j != id ensures Weaker(s.npcs[id].hp, id, s.npcs[j].hp, j) {
        assert less(id, j);
      }
      assert IsNpcTarget(s, c, id);
    }
  }

  /** Likewise for the weakest player. */
  lemma PlayerTargetDetermined(s: State, c: Cell, radius: int, self: Option<string>)
    ensures PlayerTarget(s, c, radius, self).Some? <==> exists v :: PlayerInReach(s, c, radius, self, v)
    ensures forall v :: IsPlayerTarget(s, c, radius, self, v) <==> PlayerTarget(s, c, radius, self) == Some(v)
  {
    WeakerIsStrict();
    hide Weaker, StrLess;
    var reach := set v | v in s.players && PlayerInReach(s, c, radius, self, v);
    if v0 :| PlayerInReach(s, c, radius, self, v0) {
      assert v0 in reach;
      var less := (i: string, j: string) => Weaker(PlayerHp(s, i), i, PlayerHp(s, j), j);
      assert StrictTotal(less);
      LeastExists(reach, less);
      var v :| Least(v, reach, less);
      forall j | PlayerInReach(s, c, radius, self, j) && j != v ensures Weaker(s.players[v].hp, v, s.players[j].hp, j) {
        assert less(v, j);
      }
      assert IsPlayerTarget(s, c, radius, self, v);
    }
  }

  lemma TargetsExist(s: State, c: Cell, u: string)
    ensures NpcTarget(s, c).Some? ==> NpcTarget(s, c).value in s.npcs
    ensures PlayerTarget(s, c, ATTACK_RANGE, Some(u)).Some? ==>
      PlayerTarget(s, c, ATTACK_RANGE, Some(u)).value in s.players && PlayerTarget(s, c, ATTACK_RANGE, Some(u)).value != u
  {
  }

  /** The cells walkable in s that spawning prefers to c. */
  ghost function CellsAhead(s: State, ignore: string, preferNPC: bool, c: Cell): set<Cell> {
    set d | d in WalkableCells(s, ignore) && Ahead(s, preferNPC, d, c)
  }

  /** A spawn cell is refused exactly when nothing is walkable; otherwise it is a walkable cell, and
      at most eleven walkable cells come before it. */
  lemma SpawnRank(s: State, ignore: string, preferNPC: bool)
    ensures BestSpawn(s, ignore, preferNPC).None? <==> forall c :: !Walkable(s, c, ignore)
    ensures BestSpawn(s, ignore, preferNPC).Some? ==>
      (var c := BestSpawn(s, ignore, preferNPC).value;
       Walkable(s, c, ignore) && |CellsAhead(s, ignore, preferNPC, c)| < SPAWN_CHOICES)
  {
    hide Walkable, Ahead;
    var cells := WalkableCells(s, ignore);
    forall c ensures c in cells <==> Walkable(s, c, ignore) {
      WalkableListed(s, c, ignore);
    }
    if cells != {} {
      var order := AheadOrder(s, preferNPC);
      var k := Draw(s, Min(SPAWN_CHOICES, |cells|));
      RankOfSorted(cells, order, k);
      var c := Sorted(cells, order)[k];
      assert BestSpawn(s, ignore, preferNPC) == Some(c);
      assert CellsAhead(s, ignore, preferNPC, c) == Preceding(cells, order, c);
    }
  }

  ghost predicate OnePerCell(treasures: map<string, Treasure>) {
    forall i, j | i in treasures && j in treasures && treasures[i].at == treasures[j].at :: i == j
  }

  // ----- Players that are due -----

  ghost predicate NoneDue(s: State, now: int) {
    forall u | u in s.players :: !Due(s, u, now)
  }

  lemma RefreshOthers(s: State, u: string, now: int)
    ensures !Due(Refresh(s, u, now), u, now)
    ensures forall v | v != u :: Due(Refresh(s, u, now), v, now) <==> Due(s, v, now)
  {
    hide SafeCell, SafeCellDrawn;
  }

  /** After the whole player map was refreshed nobody is due any more. */
  lemma {:induction false} RefreshAllSettles(s: State, order: seq<string>, now: int)
    requires forall u | Due(s, u, now) :: u in order
    ensures NoneDue(RefreshAll(s, order, now), now)
    decreases |order|
  {
    if order != [] {
      RefreshOthers(s, order[0], now);
      hide Refresh, Due;
      var r := Refresh(s, order[0], now);
      forall u | Due(r, u, now) ensures u in order[1..] {
        assert Due(s, u, now);
        assert u in order && u != order[0];
      }
      RefreshAllSettles(r, order[1..], now);
    }
  }

  lemma RefreshKeepsOthers(s: State, u: string, now: int)
    ensures forall v | v in s.players && v != u :: Refresh(s, u, now).players[v] == s.players[v]
  {
    hide SafeCell, SafeCellDrawn;
  }

  lemma DueIsPresent(s: State, now: int)
    ensures forall u | Due(s, u, now) :: u in s.players
  {
  }

  lemma BittenIsPresent(s: State, c: Cell)
    ensures PlayerTarget(s, c, 1, None).Some? ==> PlayerTarget(s, c, 1, None).value in s.players
  {
  }

  lemma SpawnRefused(s: State, t: State)
    requires RefillNpcs(t) == RefillNpcs(s) && WalkableCells(t, "") == {}
    ensures SpawnNpc(t) == t && RefillNpcs(s) == t
  {
  }

  lemma RefreshNone(s: State, now: int)
    ensures RefreshAll(s, [], now) == s
  {
  }

  lemma {:induction false} RefreshAllAppend(s: State, order: seq<string>, u: string, now: int)
    ensures RefreshAll(s, order + [u], now) == Refresh(RefreshAll(s, order, now), u, now)
    decreases |order|
  {
    hide Refresh;
    if order == [] {
      assert RefreshAll(s, [u], now) == RefreshAll(Refresh(s, u, now), [u][1..], now);
    } else {
      assert (order + [u])[1..] == order[1..] + [u];
      RefreshAllAppend(Refresh(s, order[0], now), order[1..], u, now);
    }
  }

  /** The order lists the names, each once. */
  ghost predicate Listing(order: seq<string>, names: set<string>) {
    Elements(order) == names && |order| == |names|
  }
}
