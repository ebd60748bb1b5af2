/** The breadth-first search that plans a player's way on a map: it finds a shortest sequence of
    directions to a goal cell around walls and living NPCs, or tells that there is none. */
module GridSearch {
  import opened Basics
  import opened WorldModel
  import opened WorldCheckpoint
  import opened WorldEffects

  const DIRS: seq<string> := ["up", "down", "left", "right"]

  // The map to search, the cells NPCs stand on, and the cells that will do as an end.
  datatype Task = Task(terrain: seq<string>, blocked: set<Cell>, goal: Cell -> bool)

  predicate OnMap(task: Task, c: Cell) {
    0 <= c.y < |task.terrain| && 0 <= c.x < |task.terrain[c.y]|
  }

  /** A cell the search may step on: a goal cell even if an NPC stands on it. */
  predicate Passable(task: Task, c: Cell) {
    OnMap(task, c) && task.terrain[c.y][c.x] != '#' && (c !in task.blocked || task.goal(c))
  }

  // ----- Walks -----

  function End(c: Cell, path: seq<string>): Cell {
    if path == [] then c else Shifted(End(c, path[..|path| - 1]), path[|path| - 1])
  }

  predicate Walk(task: Task, start: Cell, path: seq<string>) {
    path == []
    || (path[|path| - 1] in DIRS && Passable(task, End(start, path)) && Walk(task, start, path[..|path| - 1]))
  }

  predicate Reaches(task: Task, start: Cell, path: seq<string>) {
    Walk(task, start, path) && task.goal(End(start, path))
  }

  predicate OneStep(task: Task, a: Cell, dir: string, b: Cell) {
    && dir in {"up", "down", "left", "right"} && NextTo(a, dir, b)
    && 0 <= b.y < |task.terrain| && 0 <= b.x < |task.terrain[b.y]| && task.terrain[b.y][b.x] != '#'
    && (b in task.blocked ==> task.goal(b))
  }

  /** The path read as a list of cells: each is the neighbour of the one before in the direction of the
      path, all but the first are no walls and hold no NPC unless they are goals, and the last is a goal. */
  ghost predicate Route(task: Task, start: Cell, path: seq<string>, cells: seq<Cell>) {
    && |cells| == |path| + 1 && cells[0] == start && task.goal(cells[|path|])
    && forall i | 0 <= i < |path| :: OneStep(task, cells[i], path[i], cells[i + 1])
  }

  function Count(path: seq<string>, dir: string): nat {
    if path == [] then 0 else Count(path[..|path| - 1], dir) + if path[|path| - 1] == dir then 1 else 0
  }

  /** Where a path leads, counted from the path alone. */
  function Landing(start: Cell, path: seq<string>): Cell {
    Cell(start.x + Count(path, "right") - Count(path, "left"), start.y + Count(path, "down") - Count(path, "up"))
  }

  lemma {:induction false} EndCounts(start: Cell, path: seq<string>)
    ensures End(start, path) == Landing(start, path)
    decreases |path|
  {
    if path != [] {
      EndCounts(start, path[..|path| - 1]);
    }
  }

  lemma {:induction false} WalkSteps(task: Task, start: Cell, path: seq<string>, i: nat)
    requires Walk(task, start, path) && i < |path|
    ensures OneStep(task, End(start, path[..i]), path[i], End(start, path[..i + 1]))
  {
    WalkPrefix(task, start, path, i + 1);
    assert path[..i + 1][..i] == path[..i];
  }

  lemma {:induction false} RouteWalks(task: Task, start: Cell, path: seq<string>, cells: seq<Cell>, i: nat)
    requires Route(task, start, path, cells) && i <= |path|
    ensures cells[i] == End(start, path[..i]) && Walk(task, start, path[..i])
    decreases i
  {
    if i > 0 {
      RouteWalks(task, start, path, cells, i - 1);
      assert path[..i][..i - 1] == path[..i - 1];
      assert OneStep(task, cells[i - 1], path[i - 1], cells[i]);
    }
  }

  /** The paths the search looks for are the routes to a goal. */
  lemma ReachesIsRoute(task: Task, start: Cell, path: seq<string>)
    ensures Reaches(task, start, path) <==> exists cells :: Route(task, start, path, cells)
  {
    hide OneStep;
    if Reaches(task, start, path) {
      var cells := seq(|path| + 1, i requires 0 <= i <= |path| => End(start, path[..i]));
      forall i | 0 <= i < |path| ensures OneStep(task, cells[i], path[i], cells[i + 1]) {
        WalkSteps(task, start, path, i);
      }
      assert path[..|path|] == path && path[..0] == [];
      assert Route(task, start, path, cells);
    }
    if cells :| Route(task, start, path, cells) {
      RouteWalks(task, start, path, cells, |path|);
      assert path[..|path|] == path;
    }
  }

  // ----- What the search knows -----

  // The cells seen so far with their distance, how each was entered, and the cells still to expand.
  datatype Search = Search(depth: map<Cell, nat>, prev: map<Cell, Cell>, prevDir: map<Cell, string>, queue: seq<Cell>)

  /** Every seen cell but the start was entered from a seen one that is one step closer. */
  ghost predicate Traced(task: Task, start: Cell, s: Search) {
    && start in s.depth && s.depth[start] == 0
    && (forall c | c in s.depth && c != start ::
          c in s.prev && c in s.prevDir && s.prev[c] in s.depth && s.prevDir[c] in DIRS
          && c == Shifted(s.prev[c], s.prevDir[c]) && s.depth[c] == s.depth[s.prev[c]] + 1 && Passable(task, c))
  }

  ghost predicate NoGoalYet(task: Task, s: Search) {
    forall c | c in s.depth :: !task.goal(c)
  }

  /** The queue holds seen cells, closest first, and nothing seen is more than one step farther than d. */
  ghost predicate Ordered(s: Search, d: nat) {
    && (forall i | 0 <= i < |s.queue| :: s.queue[i] in s.depth && s.depth[s.queue[i]] >= d)
    && (forall i, j | 0 <= i <= j < |s.queue| :: s.depth[s.queue[i]] <= s.depth[s.queue[j]])
    && (forall c | c in s.depth :: s.depth[c] <= d + 1)
  }

  /** Every passable neighbour of the cell in these directions was seen. */
  ghost predicate Expanded(task: Task, s: Search, c: Cell, n: nat)
    requires c in s.depth && n <= |DIRS|
  {
    forall k | 0 <= k < n :: Passable(task, Shifted(c, DIRS[k])) ==>
      Shifted(c, DIRS[k]) in s.depth && s.depth[Shifted(c, DIRS[k])] <= s.depth[c] + 1
  }

  /** All cells seen and no longer waiting were expanded, with the exception of one. */
  ghost predicate Explored(task: Task, s: Search, except: set<Cell>) {
    forall c | c in s.depth && c !in s.queue && c !in except :: Expanded(task, s, c, |DIRS|)
  }

  /** A walk through expanded cells only stays among the seen cells, no farther than its length. */
  lemma {:induction false} WalkIsSeen(task: Task, start: Cell, s: Search, path: seq<string>)
    requires Traced(task, start, s) && Walk(task, start, path)
    requires forall i | 0 <= i < |path| && End(start, path[..i]) in s.depth :: Expanded(task, s, End(start, path[..i]), |DIRS|)
    ensures End(start, path) in s.depth && s.depth[End(start, path)] <= |path|
  {
    if path != [] {
      var n := |path| - 1;
      forall i | 0 <= i < n ensures path[..n][..i] == path[..i] {
      }
      WalkIsSeen(task, start, s, path[..n]);
      assert path[..n] == path[..|path| - 1];
      var k :| 0 <= k < |DIRS| && DIRS[k] == path[n];
      hide Shifted, Passable, Traced;
      assert Expanded(task, s, End(start, path[..n]), |DIRS|);
    }
  }

  lemma {:induction false} FirstPending(start: Cell, s: Search, pending: set<Cell>, path: seq<string>, n: nat) returns (j: nat)
    requires n <= |path| && exists i :: 0 <= i <= n && End(start, path[..i]) in pending
    ensures j <= n && End(start, path[..j]) in pending && forall i | 0 <= i < j :: End(start, path[..i]) !in pending
  {
    j := 0;
    while End(start, path[..j]) !in pending
      invariant j <= n && forall i | 0 <= i < j :: End(start, path[..i]) !in pending
      decreases n - j
    {
      j := j + 1;
    }
  }

  lemma {:induction false} WalkPrefix(task: Task, start: Cell, path: seq<string>, j: nat)
    requires Walk(task, start, path) && j <= |path|
    ensures Walk(task, start, path[..j])
    decreases |path| - j
  {
    if j < |path| {
      WalkPrefix(task, start, path, j + 1);
      assert path[..j + 1][..j] == path[..j];
    } else {
      assert path[..j] == path;
    }
  }

  /** While no goal was seen, a way to a goal must still pass a waiting cell, which bounds its length. */
  lemma GoalIsFar(task: Task, start: Cell, s: Search, except: set<Cell>, d: nat, path: seq<string>)
    requires Traced(task, start, s) && NoGoalYet(task, s) && Explored(task, s, except)
    requires forall c | c in s.depth && (c in s.queue || c in except) :: s.depth[c] >= d
    requires except <= s.depth.Keys
    requires Reaches(task, start, path)
    ensures |path| >= d + 1 && (s.queue != [] || except != {})
  {
    var pending := except + set c | c in s.queue;
    hide Shifted, Passable, Traced, Reaches;
    if forall i | 0 <= i < |path| :: End(start, path[..i]) !in pending {
      forall i | 0 <= i < |path| && End(start, path[..i]) in s.depth ensures Expanded(task, s, End(start, path[..i]), |DIRS|) {
        assert End(start, path[..i]) !in pending;
      }
      ReachesIs(task, start, path);
      WalkIsSeen(task, start, s, path);
      assert false;
    } else {
      var i :| 0 <= i < |path| && End(start, path[..i]) in pending;
      var j := FirstPending(start, s, pending, path, i);
      ReachesIs(task, start, path);
      WalkPrefix(task, start, path, j);
      forall k | 0 <= k < j && End(start, path[..j][..k]) in s.depth
        ensures Expanded(task, s, End(start, path[..j][..k]), |DIRS|) {
        assert path[..j][..k] == path[..k];
      }
      WalkIsSeen(task, start, s, path[..j]);
    }
  }

  lemma ReachesIs(task: Task, start: Cell, path: seq<string>)
    requires Reaches(task, start, path)
    ensures Walk(task, start, path) && task.goal(End(start, path))
  {
  }

  // ----- Reading the way back -----

  function Backwards(items: seq<string>): seq<string> {
    if items == [] then [] else [items[|items| - 1]] + Backwards(items[..|items| - 1])
  }

  lemma {:induction false} BackwardsAt(items: seq<string>, k: nat)
    requires k < |items|
    ensures |Backwards(items)| == |items| && Backwards(items)[k] == items[|items| - 1 - k]
  {
    if |items| > 1 {
      BackwardsAt(items[..|items| - 1], if k > 0 then k - 1 else 0);
    }
  }

  method ReverseStrings(items: array<string>)
    modifies items
    ensures items[..] == Backwards(old(items[..]))
  {
    var n := items.Length;
    var i, j := 0, n - 1;
    while i < j
      invariant 0 <= i <= n && j == n - 1 - i && i <= j + 2
      invariant forall k | 0 <= k < i :: items[k] == old(items[n - 1 - k]) && items[n - 1 - k] == old(items[k])
      invariant forall k | i <= k <= j :: items[k] == old(items[k])
    {
      items[i], items[j] := items[j], items[i];
      i, j := i + 1, j - 1;
    }
    ghost var was := old(items[..]);
    assert n == 0 ==> was == [];
    forall k | 0 <= k < n ensures |Backwards(was)| == n && items[..][k] == Backwards(was)[k] {
      BackwardsAt(was, k);
    }
  }

  /** The directions by which the search entered the cell, from the start on. */
  ghost function PathTo(task: Task, start: Cell, s: Search, c: Cell): seq<string>
    requires Traced(task, start, s) && c in s.depth
    decreases s.depth[c]
  {
    if c == start then [] else PathTo(task, start, s, s.prev[c]) + [s.prevDir[c]]
  }

  lemma {:induction false} PathToWalks(task: Task, start: Cell, s: Search, c: Cell)
    requires Traced(task, start, s) && c in s.depth
    ensures var path := PathTo(task, start, s, c);
      Walk(task, start, path) && End(start, path) == c && |path| == s.depth[c]
    ensures var path := PathTo(task, start, s, c);
      forall i | 0 <= i < |path| :: End(start, path[..i]) in s.depth && s.depth[End(start, path[..i])] == i
    decreases s.depth[c]
  {
    if c != start {
      PathToWalks(task, start, s, s.prev[c]);
      var path, before := PathTo(task, start, s, c), PathTo(task, start, s, s.prev[c]);
      assert path[..|path| - 1] == before;
      forall i | 0 <= i < |path| ensures End(start, path[..i]) in s.depth && s.depth[End(start, path[..i])] == i {
        if i < |before| {
          assert path[..i] == before[..i];
        }
      }
    }
  }

  method TraceBack(ghost task: Task, start: Cell, goal: Cell, prev: map<Cell, Cell>, prevDir: map<Cell, string>,
                   ghost s: Search) returns (path: seq<string>)
    requires Traced(task, start, s) && goal in s.depth && s.prev == prev && s.prevDir == prevDir
    ensures path == PathTo(task, start, s, goal)
  {
    hide Passable, Shifted;
    var items := [];
    var at := goal;
    while at != start
      invariant at in s.depth && PathTo(task, start, s, at) + Backwards(items) == PathTo(task, start, s, goal)
      decreases s.depth[at]
    {
      assert (items + [prevDir[at]])[..|items|] == items;
      items := items + [prevDir[at]];
      at := prev[at];
    }
    var turned := new string[|items|](i requires 0 <= i < |items| => items[i]);
    assert turned[..] == items;
    ReverseStrings(turned);
    path := turned[..];
  }

  // ----- The search -----

  function Seen(s: Search, cur: Cell, dir: string): Search
    requires cur in s.depth
  {
    var next := Shifted(cur, dir);
    Search(s.depth[next := s.depth[cur] + 1], s.prev[next := cur], s.prevDir[next := dir], s.queue + [next])
  }

  /** Entering a new cell keeps what the search knows. */
  lemma SeenTraced(task: Task, start: Cell, s: Search, cur: Cell, dir: string)
    requires Traced(task, start, s) && cur in s.depth && dir in DIRS
    requires Shifted(cur, dir) !in s.depth && Passable(task, Shifted(cur, dir))
    ensures Traced(task, start, Seen(s, cur, dir))
  {
    hide Passable, Shifted;
  }

  lemma SeenOrdered(s: Search, cur: Cell, dir: string)
    requires cur in s.depth && Shifted(cur, dir) !in s.depth && Ordered(s, s.depth[cur])
    ensures Ordered(Seen(s, cur, dir), s.depth[cur])
  {
    hide Shifted;
    var t := Seen(s, cur, dir);
    assert forall i | 0 <= i < |s.queue| :: t.queue[i] == s.queue[i] && t.depth[t.queue[i]] == s.depth[s.queue[i]];
  }

  lemma SeenExplored(task: Task, s: Search, cur: Cell, k: nat)
    requires cur in s.depth && k < |DIRS| && Shifted(cur, DIRS[k]) !in s.depth
    requires Explored(task, s, {cur}) && Expanded(task, s, cur, k)
    ensures Explored(task, Seen(s, cur, DIRS[k]), {cur}) && Expanded(task, Seen(s, cur, DIRS[k]), cur, k + 1)
  {
    var t := Seen(s, cur, DIRS[k]);
    hide Shifted, Passable;
    assert t.queue[|s.queue|] == Shifted(cur, DIRS[k]);
    assert forall c | c in s.queue :: c in t.queue;
    forall c | c in t.depth && c !in t.queue && c != cur ensures Expanded(task, t, c, |DIRS|) {
      assert c in s.depth && c !in s.queue;
      assert Expanded(task, s, c, |DIRS|);
    }
  }

  lemma SkippedExplored(task: Task, s: Search, cur: Cell, k: nat)
    requires cur in s.depth && k < |DIRS| && Expanded(task, s, cur, k) && Ordered(s, s.depth[cur])
    requires Passable(task, Shifted(cur, DIRS[k])) ==> Shifted(cur, DIRS[k]) in s.depth
    ensures Expanded(task, s, cur, k + 1)
  {
    hide Shifted, Passable;
  }

  function BlockedCells(npcs: seq<NpcView>): set<Cell> {
    set v | v in npcs && v.npc.alive :: v.npc.at
  }

  method Block(npcs: seq<NpcView>) returns (blocked: set<Cell>)
    ensures blocked == BlockedCells(npcs)
  {
    blocked := {};
    for i := 0 to |npcs|
      invariant blocked == BlockedCells(npcs[..i])
    {
      assert npcs[..i + 1] == npcs[..i] + [npcs[i]];
      if npcs[i].npc.alive {
        blocked := blocked + {npcs[i].npc.at};
      }
    }
    assert npcs[..|npcs|] == npcs;
  }

  lemma PassableIsOpen(task: Task, t: Terrain, c: Cell)
    requires task.terrain == t && Passable(task, c)
    ensures c in OpenCells(t)
  {
    OpenRowsAre(t, |t|);
  }

  /** The cells that the search may still see. */
  ghost function Unseen(t: Terrain, s: Search): set<Cell> {
    OpenCells(t) - s.depth.Keys
  }

  lemma UnseenShrinks(task: Task, t: Terrain, s: Search, cur: Cell, dir: string)
    requires task.terrain == t && cur in s.depth && Shifted(cur, dir) !in s.depth && Passable(task, Shifted(cur, dir))
    ensures |Unseen(t, Seen(s, cur, dir))| < |Unseen(t, s)|
  {
    PassableIsOpen(task, t, Shifted(cur, dir));
    hide Shifted, Passable, OpenCells;
    var a, b := Unseen(t, s), Unseen(t, Seen(s, cur, dir));
    assert b == a - {Shifted(cur, dir)};
  }

  /** The search between two cells. */
  ghost predicate Searching(task: Task, start: Cell, s: Search) {
    && Traced(task, start, s) && NoGoalYet(task, s) && Explored(task, s, {})
    && (s.queue != [] ==> s.queue[0] in s.depth && Ordered(s, s.depth[s.queue[0]]))
  }

  /** The search while it expands a cell, of which k directions are done. */
  ghost predicate Expanding(task: Task, start: Cell, s: Search, cur: Cell, k: nat) {
    && Traced(task, start, s) && NoGoalYet(task, s) && Explored(task, s, {cur})
    && cur in s.depth && Ordered(s, s.depth[cur]) && k <= |DIRS| && Expanded(task, s, cur, k)
  }

  lemma SearchStarts(task: Task, start: Cell)
    requires !task.goal(start)
    ensures Searching(task, start, Search(map[start := 0], map[], map[], [start]))
  {
  }

  lemma CellTaken(task: Task, start: Cell, s: Search)
    requires Searching(task, start, s) && s.queue != []
    ensures Expanding(task, start, s.(queue := s.queue[1..]), s.queue[0], 0)
  {
    Dequeued(task, s);
    hide Explored, Ordered, Expanded, Passable, Shifted;
  }

  lemma CellDone(task: Task, start: Cell, s: Search, cur: Cell)
    requires Expanding(task, start, s, cur, |DIRS|)
    ensures Searching(task, start, s)
  {
    NextFront(task, s, cur);
    hide Explored, Ordered, Expanded, Traced;
  }

  lemma DirectionDone(task: Task, start: Cell, s: Search, cur: Cell, k: nat)
    requires Expanding(task, start, s, cur, k) && k < |DIRS|
    ensures var next := Shifted(cur, DIRS[k]);
      if !Passable(task, next) || next in s.depth then Expanding(task, start, s, cur, k + 1)
      else Traced(task, start, Seen(s, cur, DIRS[k]))
           && (!task.goal(next) ==> Expanding(task, start, Seen(s, cur, DIRS[k]), cur, k + 1))
  {
    hide Shifted, Passable, Traced, Explored, Expanded, Ordered;
    var next := Shifted(cur, DIRS[k]);
    if !Passable(task, next) || next in s.depth {
      SkippedExplored(task, s, cur, k);
    } else {
      SeenTraced(task, start, s, cur, DIRS[k]);
      SeenOrdered(s, cur, DIRS[k]);
      SeenExplored(task, s, cur, k);
    }
  }

  lemma NowhereToGo(task: Task, start: Cell, s: Search)
    requires Searching(task, start, s) && s.queue == []
    ensures forall q :: !Reaches(task, start, q)
  {
    hide Reaches, Traced;
    forall q ensures !Reaches(task, start, q) {
      if Reaches(task, start, q) {
        GoalIsFar(task, start, s, {}, 0, q);
      }
    }
  }

  /** What the search must deliver, if it found anything. */
  ghost predicate Shortest(task: Task, start: Cell, path: seq<string>) {
    && Reaches(task, start, path)
    && (forall i | 0 <= i < |path| :: !task.goal(End(start, path[..i])))
    && (forall q | Reaches(task, start, q) :: |path| <= |q|)
  }

  /** Expands one cell in the four directions, unless a goal is entered. */
  method ExpandCell(task: Task, terrain: Terrain, start: Cell, cur: Cell, queue: seq<Cell>, visited: set<Cell>,
                    prev: map<Cell, Cell>, prevDir: map<Cell, string>, ghost s: Search)
    returns (found: bool, path: seq<string>, queue': seq<Cell>, visited': set<Cell>,
             prev': map<Cell, Cell>, prevDir': map<Cell, string>, ghost s': Search)
    requires task.terrain == terrain && Expanding(task, start, s, cur, 0)
    requires s == Search(s.depth, prev, prevDir, queue) && s.depth.Keys == visited
    ensures found ==> Shortest(task, start, path)
    ensures !found ==> Expanding(task, start, s', cur, |DIRS|)
    ensures !found ==> s' == Search(s'.depth, prev', prevDir', queue') && s'.depth.Keys == visited'
    ensures !found ==> s' == s || |Unseen(terrain, s')| < |Unseen(terrain, s)|
  {
    found, path, queue', visited', prev', prevDir', s' := false, [], queue, visited, prev, prevDir, s;
    hide Shifted, Shortest, Passable, Expanding, Unseen, Traced;
    for k := 0 to |DIRS|
      invariant s' == Search(s'.depth, prev', prevDir', queue') && s'.depth.Keys == visited'
      invariant Expanding(task, start, s', cur, k)
      invariant s' == s || |Unseen(terrain, s')| < |Unseen(terrain, s)|
    {
      var next := Shifted(cur, DIRS[k]);
      DirectionDone(task, start, s', cur, k);
      CurIsSeen(task, start, s', cur, k);
      if Passable(task, next) && next !in visited' {
        visited', prev', prevDir' := visited' + {next}, prev'[next := cur], prevDir'[next := DIRS[k]];
        if task.goal(next) {
          path := TraceBack(task, start, next, prev', prevDir', Seen(s', cur, DIRS[k]));
          GoalFound(task, start, s', cur, k);
          found := true;
          return;
        }
        UnseenShrinks(task, terrain, s', cur, DIRS[k]);
        queue' := queue' + [next];
        s' := Seen(s', cur, DIRS[k]);
      }
    }
  }

  method SearchFrom(terrain: Terrain, start: Cell, blocked: set<Cell>, goal: Cell -> bool)
    returns (path: seq<string>, ok: bool)
    requires !goal(start)
    ensures ok ==> Shortest(Task(terrain, blocked, goal), start, path)
    ensures !ok ==> forall q :: !Reaches(Task(terrain, blocked, goal), start, q)
  {
    var task := Task(terrain, blocked, goal);
    var queue, visited := [start], {start};
    var prev: map<Cell, Cell>, prevDir: map<Cell, string> := map[], map[];
    ghost var s := Search(map[start := 0], prev, prevDir, queue);
    SearchStarts(task, start);
    hide Shortest, Searching, Expanding, Unseen;
    while queue != []
      invariant s == Search(s.depth, prev, prevDir, queue) && s.depth.Keys == visited
      invariant Searching(task, start, s)
      decreases |Unseen(terrain, s)|, |queue|
    {
      var cur := queue[0];
      CellTaken(task, start, s);
      UnseenSame(terrain, s, s.(queue := queue[1..]));
      queue := queue[1..];
      s := s.(queue := queue);
      var found;
      found, path, queue, visited, prev, prevDir, s := ExpandCell(task, terrain, start, cur, queue, visited, prev, prevDir, s);
      if found {
        return path, true;
      }
      CellDone(task, start, s, cur);
    }
    NowhereToGo(task, start, s);
    return [], false;
  }

  lemma CurIsSeen(task: Task, start: Cell, s: Search, cur: Cell, k: nat)
    requires Expanding(task, start, s, cur, k)
    ensures cur in s.depth
  {
  }

  lemma UnseenSame(t: Terrain, r: Search, s: Search)
    requires r.depth == s.depth
    ensures Unseen(t, r) == Unseen(t, s)
  {
  }

  lemma GoalFound(task: Task, start: Cell, s: Search, cur: Cell, k: nat)
    requires Expanding(task, start, s, cur, k) && k < |DIRS|
    requires Shifted(cur, DIRS[k]) !in s.depth && Passable(task, Shifted(cur, DIRS[k])) && task.goal(Shifted(cur, DIRS[k]))
    requires Traced(task, start, Seen(s, cur, DIRS[k]))
    ensures Shortest(task, start, PathTo(task, start, Seen(s, cur, DIRS[k]), Shifted(cur, DIRS[k])))
  {
    hide Shifted, Passable, Traced, Explored, Expanded, Ordered, NoGoalYet, Reaches, PathTo, End;
    FoundIsShortest(task, start, s, cur, DIRS[k]);
  }

  lemma Dequeued(task: Task, s: Search)
    requires s.queue != [] && s.queue[0] in s.depth && Ordered(s, s.depth[s.queue[0]]) && Explored(task, s, {})
    ensures var t := s.(queue := s.queue[1..]); var cur := s.queue[0];
      Ordered(t, s.depth[cur]) && Explored(task, t, {cur}) && Expanded(task, t, cur, 0)
  {
    var t, cur := s.(queue := s.queue[1..]), s.queue[0];
    hide Shifted, Passable;
    forall c | c in t.depth && c !in t.queue && c != cur ensures Expanded(task, t, c, |DIRS|) {
      assert c !in s.queue by {
        assert forall i | 1 <= i < |s.queue| :: s.queue[i] == t.queue[i - 1];
      }
      assert Expanded(task, s, c, |DIRS|);
    }
  }

  lemma NextFront(task: Task, s: Search, cur: Cell)
    requires cur in s.depth && Ordered(s, s.depth[cur]) && Explored(task, s, {cur}) && Expanded(task, s, cur, |DIRS|)
    ensures Explored(task, s, {})
    ensures s.queue != [] ==> s.queue[0] in s.depth && Ordered(s, s.depth[s.queue[0]])
  {
    hide Expanded;
  }

  /** The first goal that the search enters is a closest one. */
  lemma FoundIsShortest(task: Task, start: Cell, s: Search, cur: Cell, dir: string)
    requires Traced(task, start, s) && NoGoalYet(task, s) && Explored(task, s, {cur}) && cur in s.depth
    requires Ordered(s, s.depth[cur]) && dir in DIRS
    requires Shifted(cur, dir) !in s.depth && Passable(task, Shifted(cur, dir)) && task.goal(Shifted(cur, dir))
    requires Traced(task, start, Seen(s, cur, dir))
    ensures var path := PathTo(task, start, Seen(s, cur, dir), Shifted(cur, dir));
      Reaches(task, start, path)
      && (forall i | 0 <= i < |path| :: !task.goal(End(start, path[..i])))
      && (forall q | Reaches(task, start, q) :: |path| <= |q|)
  {
    var t, next := Seen(s, cur, dir), Shifted(cur, dir);
    PathToWalks(task, start, t, next);
    hide Shifted, Passable, Traced, Walk, End, PathTo;
    forall q | Reaches(task, start, q) ensures s.depth[cur] + 1 <= |q| {
      GoalIsFar(task, start, s, {cur}, s.depth[cur], q);
    }
  }

  /** A path is found if and only if there is one (on a map with a first row that is not empty); it leads
      to a goal over cells that are no wall, over no other goal cell and over no NPC on the way, and no
      path is shorter. */
  method BuildPath(terrain: seq<string>, start: Cell, npcs: seq<NpcView>, goal: Cell -> bool)
    returns (path: seq<string>, ok: bool)
    ensures |terrain| == 0 || |terrain[0]| == 0 ==> !ok
    ensures |terrain| > 0 && |terrain[0]| > 0 ==>
      (ok <==> exists q :: Reaches(Task(terrain, BlockedCells(npcs), goal), start, q))
    ensures ok ==> Reaches(Task(terrain, BlockedCells(npcs), goal), start, path)
    ensures ok ==> goal(Landing(start, path)) && forall i | 0 <= i < |path| :: !goal(Landing(start, path[..i]))
    ensures ok ==> forall i | 0 <= i < |path| :: !goal(End(start, path[..i]))
    ensures ok ==> forall i | 0 < i < |path| :: End(start, path[..i]) !in BlockedCells(npcs)
    ensures ok ==> forall q | Reaches(Task(terrain, BlockedCells(npcs), goal), start, q) :: |path| <= |q|
  {
    forall p: seq<string> ensures End(start, p) == Landing(start, p) {
      EndCounts(start, p);
    }
    hide Landing;
    if |terrain| == 0 || |terrain[0]| == 0 {
      return [], false;
    }
    var blocked := Block(npcs);
    ghost var task := Task(terrain, blocked, goal);
    if goal(start) {
      assert Reaches(task, start, []);
      return [], true;
    }
    path, ok := SearchFrom(terrain, start, blocked, goal);
    hide Reaches, End;
    if ok {
      forall i | 0 < i < |path| ensures End(start, path[..i]) !in blocked {
        ReachesIs(task, start, path);
        WalkPrefix(task, start, path, i);
      }
    }
  }
}
