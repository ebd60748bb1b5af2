/** The game world of one map (Lab 3): its state as a value, and every operation on it as a
    function of the old state. Time is the parameter `now`, fixed for one operation; the
    pseudo-random stream of the map is `cfg.stream`, of which `drawn` numbers have been used. */
module WorldModel {
  import opened Basics
  import Decimal

  const MAP_WIDTH := 56
  const MAP_HEIGHT := 24
  const INIT_HP := 120
  const INIT_ATTACK := 35
  const ATTACK_RANGE := 2
  const NPC_DAMAGE := 18
  const HEAL_AMOUNT := 30
  const MAX_POTIONS := 3
  const POTION_CAP := 8
  const POTION_PRICE := 3
  const WEAPON_PRICE := 8
  const WEAPON_BOOST := 6
  const MIN_NPCS := 5
  const MAX_TREASURES := 8
  const RESPAWN_DELAY := 4
  const SPAWN_CHOICES := 12

  datatype Cell = Cell(x: int, y: int)

  // len(w.terrain[0]) is read without a check, so a terrain has at least one row.
  type Terrain = t: seq<string> | |t| > 0 witness [""]

  datatype Config = Config(id: string, layout: Terrain, spawn: Cell, boss: Cell, stream: nat -> nat)

  // Players, NPCs and treasures are held in maps under their user name or id.
  datatype Player = Player(at: Cell, hp: int, maxHP: int, attack: int, potions: int, treasures: int,
                           kills: int, deaths: int, victories: int, alive: bool, respawnAt: Option<int>)
  datatype NPC = NPC(species: nat, at: Cell, hp: int, maxHP: int, attack: int, alive: bool)
  datatype Treasure = Treasure(kind: string, at: Cell, value: int)

  datatype Profile = Profile(username: string, passwordHash: string, lastMap: string, lastNode: string,
                             at: Cell, hp: int, maxHP: int, attack: int, potions: int, treasures: int,
                             kills: int, deaths: int, victories: int, alive: bool)

  datatype State = State(cfg: Config, terrain: Terrain, players: map<string, Player>, npcs: map<string, NPC>,
                         treasures: map<string, Treasure>, version: int, nextNPC: nat, nextTreasure: nat,
                         drawn: nat)

  function NpcId(mapId: string, k: nat): string { mapId + "-npc-" + Decimal.Print(k) }

  function TreasureId(mapId: string, k: nat): string { mapId + "-t-" + Decimal.Print(k) }

  function ValueOr(v: int, fallback: int): int { if v == 0 then fallback else v }

  function Distance(a: Cell, b: Cell): nat { Abs(a.x - b.x) + Abs(a.y - b.y) }

  /** The number the map's stream gives at the current position, below `bound`. */
  function Draw(s: State, bound: nat): (r: nat)
    requires bound > 0
    ensures r < bound
  {
    s.cfg.stream(s.drawn) % bound
  }

  // ----- Cells -----

  predicate InBounds(t: Terrain, c: Cell) {
    0 <= c.y < |t| && 0 <= c.x < |t[c.y]|
  }

  predicate Open(t: Terrain, c: Cell) {
    InBounds(t, c) && t[c.y][c.x] != '#'
  }

  ghost function RowCells(t: Terrain, y: nat): set<Cell>
    requires y < |t|
  {
    set x {:trigger t[y][x]} | 0 <= x < |t[y]| && t[y][x] != '#' :: Cell(x, y)
  }

  /** The cells of the first n rows that are no wall. */
  ghost function OpenRows(t: Terrain, n: nat): set<Cell>
    requires n <= |t|
  {
    if n == 0 then {} else OpenRows(t, n - 1) + RowCells(t, n - 1)
  }

  ghost function OpenCells(t: Terrain): set<Cell> {
    OpenRows(t, |t|)
  }

  lemma {:induction false} OpenRowsAre(t: Terrain, n: nat)
    requires n <= |t|
    ensures forall c :: c in OpenRows(t, n) <==> Open(t, c) && c.y < n
  {
    if n > 0 {
      OpenRowsAre(t, n - 1);
      assert forall c | Open(t, c) && c.y == n - 1 :: t[n - 1][c.x] != '#' && c == Cell(c.x, n - 1);
    }
  }

  ghost predicate PlayerOn(s: State, c: Cell, ignore: string) {
    exists u :: u in s.players && u != ignore && s.players[u].alive && s.players[u].at == c
  }

  ghost predicate NpcOn(s: State, c: Cell) {
    exists id :: id in s.npcs && s.npcs[id].alive && s.npcs[id].at == c
  }

  ghost predicate Walkable(s: State, c: Cell, ignore: string) {
    Open(s.terrain, c) && !PlayerOn(s, c, ignore) && !NpcOn(s, c)
  }

  ghost function WalkableCells(s: State, ignore: string): set<Cell> {
    set c | c in OpenCells(s.terrain) && Walkable(s, c, ignore)
  }

  lemma WalkableListed(s: State, c: Cell, ignore: string)
    ensures c in WalkableCells(s, ignore) <==> Walkable(s, c, ignore)
  {
    OpenRowsAre(s.terrain, |s.terrain|);
  }

  // ----- Where units appear -----

  ghost function LiveNpcCells(s: State): set<Cell> {
    set id | id in s.npcs && s.npcs[id].alive :: s.npcs[id].at
  }

  ghost function LivePlayerCells(s: State): set<Cell> {
    set u | u in s.players && s.players[u].alive :: s.players[u].at
  }

  ghost function TreasureCells(s: State): set<Cell> {
    set id | id in s.treasures :: s.treasures[id].at
  }

  /** Distance from c to the closest of the cells, capped by the size of the map. */
  ghost function Nearest(c: Cell, cells: set<Cell>): (d: int)
    ensures d <= MAP_WIDTH + MAP_HEIGHT && forall e | e in cells :: d <= Distance(c, e)
    ensures d == MAP_WIDTH + MAP_HEIGHT || exists e :: e in cells && d == Distance(c, e)
  {
    if cells == {} then MAP_WIDTH + MAP_HEIGHT
    else
      var e :| e in cells;
      assert cells == (cells - {e}) + {e};
      Min(Distance(c, e), Nearest(c, cells - {e}))
  }

  ghost function SpawnScore(s: State, c: Cell, preferNPC: bool): int {
    var width := |s.terrain[0]|;
    var height := |s.terrain|;
    var edgeMargin := Min(Min(c.x, width - 1 - c.x), Min(c.y, height - 1 - c.y));
    Nearest(c, LiveNpcCells(s)) * 120 + Nearest(c, LivePlayerCells(s)) * 20
    + Nearest(c, TreasureCells(s)) * 15 + edgeMargin * 30 - Distance(c, Cell(width / 2, height / 2)) * 3
    + if preferNPC then Distance(c, s.cfg.spawn) * 2 else 0
  }

  /** The order in which spawn candidates are listed: best score first, then by row, then by column. */
  ghost predicate Ahead(s: State, preferNPC: bool, a: Cell, b: Cell) {
    var p, q := SpawnScore(s, a, preferNPC), SpawnScore(s, b, preferNPC);
    p > q || (p == q && (a.y < b.y || (a.y == b.y && a.x < b.x)))
  }

  lemma AheadIsStrict(s: State, preferNPC: bool)
    ensures forall a :: !Ahead(s, preferNPC, a, a)
    ensures forall a, b, c | Ahead(s, preferNPC, a, b) && Ahead(s, preferNPC, b, c) :: Ahead(s, preferNPC, a, c)
    ensures forall a, b | a != b :: Ahead(s, preferNPC, a, b) || Ahead(s, preferNPC, b, a)
  {
    hide SpawnScore;
  }

  ghost function AheadOrder(s: State, preferNPC: bool): (less: (Cell, Cell) -> bool)
    ensures StrictTotal(less)
  {
    AheadIsStrict(s, preferNPC);
    hide Ahead;
    (a: Cell, b: Cell) => Ahead(s, preferNPC, a, b)
  }

  /** One of the first twelve candidates, taken by one draw; none when no cell is walkable. */
  ghost function BestSpawn(s: State, ignore: string, preferNPC: bool): (c: Option<Cell>)
    ensures c.None? <==> WalkableCells(s, ignore) == {}
    ensures c.Some? ==> Walkable(s, c.value, ignore)
  {
    var cells := WalkableCells(s, ignore);
    if cells == {} then None
    else
      var order := AheadOrder(s, preferNPC);
      var k := Draw(s, Min(SPAWN_CHOICES, |cells|));
      RankOfSorted(cells, order, k);
      Some(Sorted(cells, order)[k])
  }

  /** A cell for a unit that would like `want`: itself if walkable, else a spawn cell, else the spawn point. */
  ghost function SafeCell(s: State, want: Cell, ignore: string): (c: Cell)
    ensures WalkableCells(s, ignore) != {} ==> Walkable(s, c, ignore)
  {
    WalkableListed(s, want, ignore);
    if Walkable(s, want, ignore) then want
    else
      match BestSpawn(s, ignore, true)
      case Some(c) => c
      case None => s.cfg.spawn
  }

  ghost function SafeCellDrawn(s: State, want: Cell, ignore: string): nat {
    if !Walkable(s, want, ignore) && WalkableCells(s, ignore) != {} then s.drawn + 1 else s.drawn
  }

  // ----- Players coming, going and coming back to life -----

  ghost predicate Due(s: State, u: string, now: int) {
    u in s.players && !s.players[u].alive && s.players[u].respawnAt.Some? && s.players[u].respawnAt.value <= now
  }

  ghost function Refresh(s: State, u: string, now: int): (r: State)
    ensures r.players.Keys == s.players.Keys
  {
    if !Due(s, u, now) then s
    else
      var p := s.players[u];
      var back := p.(at := SafeCell(s, s.cfg.spawn, u), hp := p.maxHP, potions := Max(p.potions, MAX_POTIONS),
                     alive := true, respawnAt := None);
      s.(players := s.players[u := back], version := s.version + 1, drawn := SafeCellDrawn(s, s.cfg.spawn, u))
  }

  /** Refreshing the players in the order in which a range over the player map happens to list them. */
  ghost function RefreshAll(s: State, order: seq<string>, now: int): (r: State)
    ensures r.players.Keys == s.players.Keys
    decreases |order|
  {
    if order == [] then s else RefreshAll(Refresh(s, order[0], now), order[1..], now)
  }

  ghost function Entrant(s: State, p: Profile): Player {
    var want := if p.lastMap != s.cfg.id then s.cfg.spawn else p.at;
    var hp := ValueOr(p.hp, INIT_HP);
    var maxHP := ValueOr(p.maxHP, INIT_HP);
    Player(SafeCell(s, want, ""), if hp <= 0 then maxHP else hp, maxHP, ValueOr(p.attack, INIT_ATTACK),
           ValueOr(p.potions, MAX_POTIONS), p.treasures, p.kills, p.deaths, p.victories, hp <= 0 || p.alive, None)
  }

  ghost function AddPlayer(s: State, p: Profile): State {
    var want := if p.lastMap != s.cfg.id then s.cfg.spawn else p.at;
    s.(players := s.players[p.username := Entrant(s, p)], version := s.version + 1,
       drawn := SafeCellDrawn(s, want, ""))
  }

  ghost function RemovePlayer(s: State, u: string): State {
    if u !in s.players then s else s.(players := s.players - {u}, version := s.version + 1)
  }

  function ProfileFrom(mapId: string, u: string, p: Player): Profile {
    Profile(u, "", mapId, "", p.at, p.hp, p.maxHP, p.attack, p.potions, p.treasures,
            p.kills, p.deaths, p.victories, p.alive)
  }

  ghost function ProfileOf(s: State, u: string): Profile
    requires u in s.players
  {
    ProfileFrom(s.cfg.id, u, s.players[u])
  }

  ghost function ProfileIn(s: State, u: string): Option<Profile> {
    if u in s.players then Some(ProfileOf(s, u)) else None
  }

  // ----- Commands of a player -----

  function Shifted(c: Cell, dir: string): Cell {
    if dir == "up" then Cell(c.x, c.y - 1)
    else if dir == "down" then Cell(c.x, c.y + 1)
    else if dir == "left" then Cell(c.x - 1, c.y)
    else if dir == "right" then Cell(c.x + 1, c.y)
    else c
  }

  ghost predicate TreasureOn(s: State, c: Cell) {
    exists id :: id in s.treasures && s.treasures[id].at == c
  }

  ghost function TreasureAt(s: State, c: Cell): (id: string)
    requires TreasureOn(s, c)
    ensures id in s.treasures && s.treasures[id].at == c
  {
    var id :| id in s.treasures && s.treasures[id].at == c;
    id
  }

  ghost function PickUp(s: State, u: string, c: Cell): State
    requires u in s.players
  {
    if !TreasureOn(s, c) then s
    else
      var id := TreasureAt(s, c);
      var p := s.players[u];
      s.(players := s.players[u := p.(treasures := p.treasures + s.treasures[id].value)],
         treasures := s.treasures - {id})
  }

  ghost function Move(s: State, u: string, dir: string, now: int): State {
    if u !in s.players then s
    else
      var r := Refresh(s, u, now);
      var p := r.players[u];
      var c := Shifted(p.at, dir);
      if !p.alive || !Walkable(r, c, u) then r
      else
        var moved := r.(players := r.players[u := p.(at := c)]);
        PickUp(moved, u, c).(version := r.version + 1)
  }

  ghost function Heal(s: State, u: string, now: int): State {
    if u !in s.players then s
    else
      var r := Refresh(s, u, now);
      var p := r.players[u];
      if !p.alive || p.potions <= 0 then r
      else
        var healed := p.(potions := p.potions - 1, hp := Min(p.hp + HEAL_AMOUNT, p.maxHP));
        r.(players := r.players[u := healed], version := r.version + 1)
  }

  /** What a live player becomes by buying, if the shop sells. */
  function Purchase(p: Player, item: string): Option<Player> {
    if item == "potion" && p.treasures >= POTION_PRICE && p.potions < POTION_CAP then
      Some(p.(treasures := p.treasures - POTION_PRICE, potions := p.potions + 1))
    else if item == "weapon" && p.treasures >= WEAPON_PRICE then
      Some(p.(treasures := p.treasures - WEAPON_PRICE, attack := p.attack + WEAPON_BOOST))
    else None
  }

  ghost function Buy(s: State, u: string, item: string, now: int): State {
    if u !in s.players then s
    else
      var r := Refresh(s, u, now);
      var p := r.players[u];
      if !p.alive then r
      else
        match Purchase(p, item)
        case None => r
        case Some(q) => r.(players := r.players[u := q], version := r.version + 1)
  }

  ghost function Reward(s: State, u: string, treasures: int, victories: int): State {
    if u !in s.players then s
    else
      var p := s.players[u];
      var paid := p.(treasures := p.treasures + treasures, victories := p.victories + victories);
      s.(players := s.players[u := paid], version := s.version + 1)
  }

  // ----- Fighting -----

  ghost predicate NpcInReach(s: State, c: Cell, id: string) {
    id in s.npcs && s.npcs[id].alive && Distance(c, s.npcs[id].at) <= ATTACK_RANGE
  }

  ghost predicate PlayerInReach(s: State, c: Cell, radius: int, self: Option<string>, v: string) {
    v in s.players && self != Some(v) && s.players[v].alive && Distance(c, s.players[v].at) <= radius
  }

  /** Less health first; between equals, the smaller name. */
  predicate Weaker(hp: int, id: string, hp': int, id': string) {
    hp < hp' || (hp == hp' && StrLess(id, id'))
  }

  /** The weakest NPC in reach of cell c. */
  ghost predicate IsNpcTarget(s: State, c: Cell, id: string) {
    NpcInReach(s, c, id)
    && forall j | NpcInReach(s, c, j) && j != id :: Weaker(s.npcs[id].hp, id, s.npcs[j].hp, j)
  }

  /** The weakest player within the radius of cell c, the attacker itself excepted. */
  ghost predicate IsPlayerTarget(s: State, c: Cell, radius: int, self: Option<string>, v: string) {
    PlayerInReach(s, c, radius, self, v)
    && forall j | PlayerInReach(s, c, radius, self, j) && j != v :: Weaker(s.players[v].hp, v, s.players[j].hp, j)
  }

  ghost function NpcTarget(s: State, c: Cell): Option<string> {
    if exists id :: IsNpcTarget(s, c, id) then
      var id :| IsNpcTarget(s, c, id);
      Some(id)
    else None
  }

  ghost function PlayerTarget(s: State, c: Cell, radius: int, self: Option<string>): Option<string> {
    if exists v :: IsPlayerTarget(s, c, radius, self, v) then
      var v :| IsPlayerTarget(s, c, radius, self, v);
      Some(v)
    else None
  }

  function KnockDown(p: Player, now: int): Player {
    p.(hp := 0, alive := false, deaths := p.deaths + 1, respawnAt := Some(now + RESPAWN_DELAY))
  }

  ghost function DropTreasure(s: State, c: Cell, value: int, kind: string): State {
    if !InBounds(s.terrain, c) then s
    else if TreasureOn(s, c) then
      var id := TreasureAt(s, c);
      var t := s.treasures[id];
      s.(treasures := s.treasures[id := t.(value := t.value + value)], version := s.version + 1)
    else
      s.(treasures := s.treasures[TreasureId(s.cfg.id, s.nextTreasure) := Treasure(kind, c, value)],
         nextTreasure := s.nextTreasure + 1, version := s.version + 1)
  }

  ghost function HitNpc(s: State, u: string, id: string): State
    requires u in s.players && id in s.npcs
  {
    var p, n := s.players[u], s.npcs[id];
    var hit := if n.hp - p.attack > 0 then s.(npcs := s.npcs[id := n.(hp := n.hp - p.attack)])
      else
        var dead := s.(npcs := s.npcs - {id}, players := s.players[u := p.(kills := p.kills + 1)],
                       drawn := s.drawn + 1);
        DropTreasure(dead, n.at, 2 + Draw(s, 3), "loot");
    hit.(version := hit.version + 1)
  }

  ghost function HitPlayer(s: State, u: string, v: string, now: int): State
    requires u in s.players && v in s.players && u != v
  {
    var p, q := s.players[u], s.players[v];
    var left := q.(hp := q.hp - p.attack);
    var after := if left.hp > 0 then s.players[v := left]
      else s.players[u := p.(kills := p.kills + 1)][v := KnockDown(left, now)];
    s.(players := after, version := s.version + 1)
  }

  /** NPCs in reach are hit before any player is considered. */
  ghost function Attack(s: State, u: string, now: int): State {
    if u !in s.players then s
    else
      var r := Refresh(s, u, now);
      var p := r.players[u];
      if !p.alive then r
      else
        match NpcTarget(r, p.at)
        case Some(id) => HitNpc(r, u, id)
        case None =>
          match PlayerTarget(r, p.at, ATTACK_RANGE, Some(u))
          case Some(v) => HitPlayer(r, u, v, now)
          case None => r
  }

  /** The player hit by an attack, if it was a player. */
  ghost function AttackVictim(s: State, u: string, now: int): Option<string> {
    if u !in s.players then None
    else
      var r := Refresh(s, u, now);
      var p := r.players[u];
      if !p.alive || NpcTarget(r, p.at).Some? then None
      else PlayerTarget(r, p.at, ATTACK_RANGE, Some(u))
  }

  // ----- The background step -----

  ghost function SpawnNpc(s: State): State {
    match BestSpawn(s, "", true)
    case None => s
    case Some(c) =>
      var npc := NPC(s.nextNPC % 6, c, 70 + s.cfg.stream(s.drawn + 1) % 30, 90, NPC_DAMAGE, true);
      s.(npcs := s.npcs[NpcId(s.cfg.id, s.nextNPC) := npc], nextNPC := s.nextNPC + 1,
         version := s.version + 1, drawn := s.drawn + 2)
  }

  ghost function SpawnTreasure(s: State, kind: string): State {
    match BestSpawn(s, "", false)
    case None => s
    case Some(c) =>
      DropTreasure(s.(drawn := s.drawn + 2), c, 1 + s.cfg.stream(s.drawn + 1) % 4, kind)
  }

  /** The ids in use that the NPC counter has yet to reach; a restored world can have some. */
  ghost function NpcIdsToCome(s: State): set<string> {
    set id | id in s.npcs && exists k: nat :: k >= s.nextNPC && id == NpcId(s.cfg.id, k)
  }

  lemma NpcIdInjective(mapId: string, j: nat, k: nat)
    requires NpcId(mapId, j) == NpcId(mapId, k)
    ensures j == k
  {
    var n := |mapId + "-npc-"|;
    assert NpcId(mapId, j)[n..] == Decimal.Print(j);
    assert NpcId(mapId, k)[n..] == Decimal.Print(k);
    Decimal.PrintInjective(j, k);
  }

  lemma TreasureIdInjective(mapId: string, j: nat, k: nat)
    requires TreasureId(mapId, j) == TreasureId(mapId, k)
    ensures j == k
  {
    var n := |mapId + "-t-"|;
    assert TreasureId(mapId, j)[n..] == Decimal.Print(j);
    assert TreasureId(mapId, k)[n..] == Decimal.Print(k);
    Decimal.PrintInjective(j, k);
  }

  /** Each spawned NPC either adds to the NPCs or overwrites one whose id was still to come. */
  lemma SpawnProgress(s: State)
    requires WalkableCells(s, "") != {}
    ensures var n := SpawnNpc(s);
      |n.npcs| > |s.npcs| || (|n.npcs| == |s.npcs| && |NpcIdsToCome(n)| < |NpcIdsToCome(s)|)
  {
    var n := SpawnNpc(s);
    var id := NpcId(s.cfg.id, s.nextNPC);
    assert n.npcs.Keys == s.npcs.Keys + {id};
    if id in s.npcs {
      assert n.npcs.Keys == s.npcs.Keys;
      assert |n.npcs| == |n.npcs.Keys| && |s.npcs| == |s.npcs.Keys|;
      assert id in NpcIdsToCome(s);
      forall j | j in NpcIdsToCome(n) ensures j in NpcIdsToCome(s) - {id} {
        var k: nat :| k >= n.nextNPC && j == NpcId(s.cfg.id, k);
        if j == id {
          NpcIdInjective(s.cfg.id, k, s.nextNPC);
        }
      }
      assert NpcIdsToCome(n) <= NpcIdsToCome(s) - {id};
      SubsetSize(NpcIdsToCome(n), NpcIdsToCome(s) - {id});
    } else {
      assert |n.npcs| == |n.npcs.Keys| == |s.npcs.Keys| + 1;
    }
  }

  ghost function RefillNpcs(s: State): State
    decreases MIN_NPCS - |s.npcs|, |NpcIdsToCome(s)|
  {
    if |s.npcs| >= MIN_NPCS || WalkableCells(s, "") == {} then s
    else
      SpawnProgress(s);
      RefillNpcs(SpawnNpc(s))
  }

  ghost function MaybeTreasure(s: State): State {
    if |s.treasures| >= MAX_TREASURES then s
    else
      var d := s.(drawn := s.drawn + 1);
      if Draw(s, 100) < 45 then SpawnTreasure(d, "chest") else d
  }

  function Heading(c: Cell, turn: nat): Cell {
    match turn % 4
    case 0 => Cell(c.x, c.y - 1)
    case 1 => Cell(c.x, c.y + 1)
    case 2 => Cell(c.x - 1, c.y)
    case _ => Cell(c.x + 1, c.y)
  }

  /** An NPC tries the four headings from `turn` on and takes the first walkable one. */
  ghost function Wander(s: State, id: string, turn: nat, tries: nat): State
    requires id in s.npcs
    decreases tries
  {
    if tries == 0 then s
    else
      var c := Heading(s.npcs[id].at, turn);
      if Walkable(s, c, "") then s.(npcs := s.npcs[id := s.npcs[id].(at := c)], version := s.version + 1)
      else Wander(s, id, turn + 1, tries - 1)
  }

  ghost function Bite(s: State, id: string, v: string, now: int): State
    requires id in s.npcs && v in s.players
  {
    var q := s.players[v].(hp := s.players[v].hp - s.npcs[id].attack);
    var after := if q.hp <= 0 then KnockDown(q, now) else q;
    s.(players := s.players[v := after], version := s.version + 1)
  }

  ghost function NpcTurn(s: State, id: string, now: int): State {
    if id !in s.npcs || !s.npcs[id].alive then s
    else
      match PlayerTarget(s, s.npcs[id].at, 1, None)
      case Some(v) => Bite(s, id, v, now)
      case None => Wander(s.(drawn := s.drawn + 1), id, Draw(s, 4), 4)
  }

  ghost function NpcTurns(s: State, ids: seq<string>, now: int): State
    decreases |ids|
  {
    if ids == [] then s else NpcTurns(NpcTurn(s, ids[0], now), ids[1..], now)
  }

  ghost function SortedNames(names: set<string>): seq<string> {
    StrLessStrictTotal();
    Sorted(names, StrLess)
  }

  ghost function Background(s: State, order: seq<string>, now: int): State {
    var ready := MaybeTreasure(RefillNpcs(RefreshAll(s, order, now)));
    NpcTurns(ready, SortedNames(ready.npcs.Keys), now)
  }

  // ----- A new world -----

  ghost function EmptyWorld(cfg: Config): State {
    State(cfg, cfg.layout, map[], map[], map[], 0, 0, 0, 0)
  }

  /** At most n turns of the loop that brings the NPCs to MIN_NPCS. */
  ghost function BootNpcs(s: State, n: nat): State
    decreases n
  {
    if n == 0 || |s.npcs| >= MIN_NPCS then s else BootNpcs(SpawnNpc(s), n - 1)
  }

  ghost function BootTreasures(s: State, n: nat): State
    decreases n
  {
    if n == 0 || |s.treasures| >= MAX_TREASURES / 2 then s else BootTreasures(SpawnTreasure(s, "supply"), n - 1)
  }

  /** A world as NewWorld returns it: its two filling loops ended after some number of turns. */
  ghost predicate Built(s: State, cfg: Config) {
    exists n: nat, m: nat :: BuiltIn(s, cfg, n, m)
  }

  ghost predicate BuiltIn(s: State, cfg: Config, n: nat, m: nat) {
    && s == BootTreasures(BootNpcs(EmptyWorld(cfg), n), m)
    && |s.npcs| >= MIN_NPCS && |s.treasures| >= MAX_TREASURES / 2
  }

  // ----- Runs -----

  datatype Op =
    | OpAdd(profile: Profile)
    | OpRemove(u: string)
    | OpProfile(u: string, now: int)
    | OpMove(u: string, dir: string, now: int)
    | OpHeal(u: string, now: int)
    | OpAttack(u: string, now: int)
    | OpBuy(u: string, item: string, now: int)
    | OpReward(u: string, treasures: int, victories: int)
    | OpSnapshot(order: seq<string>, now: int)
    | OpBackground(order: seq<string>, now: int)

  ghost function Apply(s: State, op: Op): State {
    match op
    case OpAdd(p) => AddPlayer(s, p)
    case OpRemove(u) => RemovePlayer(s, u)
    case OpProfile(u, now) => Refresh(s, u, now)
    case OpMove(u, dir, now) => Move(s, u, dir, now)
    case OpHeal(u, now) => Heal(s, u, now)
    case OpAttack(u, now) => Attack(s, u, now)
    case OpBuy(u, item, now) => Buy(s, u, item, now)
    case OpReward(u, t, v) => Reward(s, u, t, v)
    case OpSnapshot(order, now) => RefreshAll(s, order, now)
    case OpBackground(order, now) => Background(s, order, now)
  }

  ghost function Run(s: State, ops: seq<Op>): State
    decreases |ops|
  {
    if ops == [] then s else Run(Apply(s, ops[0]), ops[1..])
  }
}
