/** The warzone server as a value: five game slots, twenty connections, a round that starts when
    everybody is ready and ends with the last survivor. Each step is one critical section of the
    game lock; connections may come, act and drop in any order. */
module WarzoneModel {
  import opened Basics
  import opened WarzoneDatabase
  import opened WarzoneAccounts

  const SLOTS := 5
  const CONNS := 20
  const WEAPONS := 6
  const MAP_W := 36
  const MAP_H := 12
  const MAX_HEALTH := 100
  const ATTACK_DAMAGE := 15
  const POWER_DAMAGE := 30
  const ATTACK_RANGE := 3
  const MAX_ATTEMPTS := 10
  const SPAWN_TRIES := 50

  datatype Fighter = Fighter(x: int, y: int, health: int, alive: bool, connected: bool, ready: bool, armed: bool)
  datatype Weapon = Weapon(x: int, y: int, active: bool)

  // A connection moves through these phases; a closing one has left the game but not the table.
  datatype Conn = Free | Auth(attempts: nat) | Lobby(name: string) | Playing(name: string) | Closing

  datatype RoomData = Room(slotConn: seq<int>, fighters: seq<Fighter>, weapons: seq<Weapon>, started: bool,
                           over: bool, winner: int, kills: seq<int>, died: seq<bool>, conns: seq<Conn>,
                           users: seq<User>, stats: seq<Stats>)

  predicate Shaped(r: RoomData) {
    |r.slotConn| == |r.fighters| == |r.kills| == |r.died| == SLOTS && |r.weapons| == WEAPONS && |r.conns| == CONNS
  }

  const NOBODY := Fighter(0, 0, 0, false, false, false, false)

  /** A server that has just been started on these files. */
  function NewRoom(users: seq<User>, stats: seq<Stats>): (r: RoomData)
    ensures Shaped(r)
  {
    Room(seq(SLOTS, _ => -1), seq(SLOTS, _ => NOBODY), seq(WEAPONS, _ => Weapon(0, 0, false)), false, false, -1,
         seq(SLOTS, _ => 0), seq(SLOTS, _ => false), seq(CONNS, _ => Free), users, stats)
  }

  type Room = r: RoomData | Shaped(r) witness NewRoom([], [])

  function One(b: bool): nat {
    if b then 1 else 0
  }

  predicate Occupied(r: Room, g: int) {
    0 <= g < SLOTS && r.slotConn[g] >= 0
  }

  predicate Live(r: Room, g: int) {
    Occupied(r, g) && r.fighters[g].alive
  }

  predicate Prepared(r: Room, g: int) {
    Occupied(r, g) && r.fighters[g].ready
  }

  function LiveCount(r: Room): nat {
    One(Live(r, 0)) + One(Live(r, 1)) + One(Live(r, 2)) + One(Live(r, 3)) + One(Live(r, 4))
  }

  function Online(r: Room): nat {
    One(Occupied(r, 0)) + One(Occupied(r, 1)) + One(Occupied(r, 2)) + One(Occupied(r, 3)) + One(Occupied(r, 4))
  }

  function ReadyCount(r: Room): nat {
    One(Prepared(r, 0)) + One(Prepared(r, 1)) + One(Prepared(r, 2)) + One(Prepared(r, 3)) + One(Prepared(r, 4))
  }

  /** The first slot of the connection from g on, or -1. */
  function SlotFrom(slotConn: seq<int>, cid: int, g: nat): int
    requires g <= |slotConn|
    decreases |slotConn| - g
  {
    if g == |slotConn| then -1 else if slotConn[g] == cid then g else SlotFrom(slotConn, cid, g + 1)
  }

  function SlotOf(r: Room, cid: int): int {
    SlotFrom(r.slotConn, cid, 0)
  }

  // ----- The start of a round -----

  /** How many slots before g are occupied. */
  function Rank(r: Room, g: nat): nat
    requires g <= SLOTS
  {
    if g == 0 then 0 else Rank(r, g - 1) + One(Occupied(r, g - 1))
  }

  function Corner(k: nat): (int, int) {
    var x0, x1, y0, y1 := 2, MAP_W - 3, 2, MAP_H - 3;
    match k
    case 0 => (x0, y0)
    case 1 => (x1, y0)
    case 2 => (x0, y1)
    case 3 => (x1, y1)
    case _ => ((x0 + x1) / 2, (y0 + y1) / 2)
  }

  /** Where the fighter of a rank starts when so many are online. */
  function Start(online: nat, rank: nat): (int, int) {
    match (online, rank)
    case (1, 0) => Corner(4)
    case (2, 1) => Corner(3)
    case (3, 1) => Corner(3)
    case (3, 2) => Corner(4)
    case (_, k) => Corner(k)
  }

  function Fresh(r: Room, g: nat): Fighter
    requires g < SLOTS
  {
    if Occupied(r, g) then
      var at := Start(Online(r), Rank(r, g));
      Fighter(at.0, at.1, MAX_HEALTH, true, true, false, false)
    else r.fighters[g].(connected := false, alive := false)
  }

  function Reset(r: Room): Room {
    r.(fighters := seq(SLOTS, g requires 0 <= g < SLOTS => Fresh(r, g)),
       kills := seq(SLOTS, g requires 0 <= g < SLOTS => if Occupied(r, g) then 0 else r.kills[g]),
       died := seq(SLOTS, g requires 0 <= g < SLOTS => !Occupied(r, g) && r.died[g]),
       weapons := seq(WEAPONS, i requires 0 <= i < WEAPONS => r.weapons[i].(active := false)),
       started := true, over := false, winner := -1)
  }

  // ----- The end of a round -----

  function NameOf(c: Conn): string {
    if c.Lobby? || c.Playing? then c.name else ""
  }

  /** The results of the slots from g on go to the database. */
  function Saved(r: Room, g: nat, now: string): seq<Stats>
    requires g <= SLOTS && forall h | 0 <= h < SLOTS :: r.slotConn[h] < CONNS
  {
    if g == 0 then r.stats
    else
      var before, cid := Saved(r, g - 1, now), r.slotConn[g - 1];
      if cid < 0 || NameOf(r.conns[cid]) == "" then before
      else Recorded(before, NameOf(r.conns[cid]), r.winner == cid, r.kills[g - 1], r.died[g - 1], now)
  }

  /** The last live slot below n, or -1. */
  function LastLive(r: Room, n: nat): (k: int)
    requires n <= SLOTS
    ensures k == -1 || (0 <= k < n && Live(r, k))
    ensures forall h | k < h < n :: !Live(r, h)
  {
    if n == 0 then -1 else if Live(r, n - 1) then n - 1 else LastLive(r, n - 1)
  }

  predicate Routed(r: Room) {
    forall h | 0 <= h < SLOTS :: r.slotConn[h] < CONNS
  }

  function Finish(r: Room, winner: int, now: string): Room
    requires Routed(r)
  {
    var done := r.(over := true, winner := winner);
    done.(stats := Saved(done, SLOTS, now))
  }

  function CheckOver(r: Room, hint: int, now: string): Room
    requires Routed(r)
  {
    var last := LastLive(r, SLOTS);
    if LiveCount(r) <= 1 && last >= 0 then Finish(r, r.slotConn[last], now)
    else if LiveCount(r) <= 1 then Finish(r, hint, now)
    else r
  }

  function Vacated(r: Room, g: nat): Room
    requires g < SLOTS
  {
    r.(fighters := r.fighters[g := r.fighters[g].(connected := false, alive := false)],
       slotConn := r.slotConn[g := -1])
  }

  /** The connection leaves its slot. */
  function Remove(r: Room, cid: int, now: string): Room
    requires Routed(r)
  {
    var g := SlotOf(r, cid);
    if g < 0 then r
    else
      SlotFromMeans(r.slotConn, cid, 0);
      var gone := Vacated(r, g);
      var settled := if gone.started && !gone.over then CheckOver(gone, -1, now) else gone;
      if Online(settled) == 0 then settled.(started := false, over := false) else settled
  }

  lemma {:induction false} SlotFromMeans(slotConn: seq<int>, cid: int, g: nat)
    requires g <= |slotConn|
    ensures var s := SlotFrom(slotConn, cid, g);
      if s < 0 then s == -1 && forall h | g <= h < |slotConn| :: slotConn[h] != cid
      else g <= s < |slotConn| && slotConn[s] == cid && forall h | g <= h < s :: slotConn[h] != cid
    decreases |slotConn| - g
  {
    if g < |slotConn| && slotConn[g] != cid {
      SlotFromMeans(slotConn, cid, g + 1);
    }
  }

  // ----- Actions -----

  datatype Action = Up | Down | Left | Right | Strike | Other

  function Moved(f: Fighter, a: Action): Fighter {
    match a
    case Up => if f.y > 0 then f.(y := f.y - 1) else f
    case Down => if f.y < MAP_H - 1 then f.(y := f.y + 1) else f
    case Left => if f.x > 0 then f.(x := f.x - 1) else f
    case Right => if f.x < MAP_W - 1 then f.(x := f.x + 1) else f
    case _ => f
  }

  /** The first active weapon on the cell from i on, or -1. */
  function WeaponFrom(weapons: seq<Weapon>, x: int, y: int, i: nat): (k: int)
    requires i <= |weapons|
    ensures k == -1 || (i <= k < |weapons| && weapons[k].active && weapons[k].x == x && weapons[k].y == y)
    ensures k == -1 ==> forall j | i <= j < |weapons| && weapons[j].active :: weapons[j].x != x || weapons[j].y != y
    decreases |weapons| - i
  {
    if i == |weapons| then -1
    else if weapons[i].active && weapons[i].x == x && weapons[i].y == y then i
    else WeaponFrom(weapons, x, y, i + 1)
  }

  function PickUp(r: Room, g: nat): Room
    requires g < SLOTS
  {
    var i := WeaponFrom(r.weapons, r.fighters[g].x, r.fighters[g].y, 0);
    if i < 0 then r
    else r.(weapons := r.weapons[i := r.weapons[i].(active := false)],
            fighters := r.fighters[g := r.fighters[g].(armed := true)])
  }

  function Apart(a: Fighter, b: Fighter): nat {
    Abs(a.x - b.x) + Abs(a.y - b.y)
  }

  /** The closest live opponent; between equals, the lower slot. */
  ghost predicate IsTarget(r: Room, g: nat, t: int)
    requires g < SLOTS
  {
    && Live(r, t) && t != g
    && forall h | Live(r, h) && h != g && h != t ::
         Apart(r.fighters[g], r.fighters[t]) < Apart(r.fighters[g], r.fighters[h])
         || (Apart(r.fighters[g], r.fighters[t]) == Apart(r.fighters[g], r.fighters[h]) && t < h)
  }

  ghost function Target(r: Room, g: nat): (t: Option<nat>)
    requires g < SLOTS
    ensures t.Some? ==> IsTarget(r, g, t.value)
  {
    if exists t: nat :: IsTarget(r, g, t) then
      var t: nat :| IsTarget(r, g, t);
      Some(t)
    else None
  }

  /** The opponent a strike from slot g hits, if one is close enough. */
  ghost function Struck(r: Room, g: nat): (t: Option<nat>)
    requires g < SLOTS
    ensures t.Some? ==> Live(r, t.value) && t.value != g
  {
    match Target(r, g)
    case Some(t) => if Apart(r.fighters[g], r.fighters[t]) <= ATTACK_RANGE then Some(t) else None
    case None => None
  }

  function Power(f: Fighter): int {
    if f.armed then POWER_DAMAGE else ATTACK_DAMAGE
  }

  /** The strike is dealt: the weapon is spent and the target's health goes down. */
  function Dealt(r: Room, g: nat, t: nat): Room
    requires g < SLOTS && t < SLOTS && g != t
  {
    var me, hit := r.fighters[g], r.fighters[t];
    r.(fighters := r.fighters[g := me.(armed := false)][t := hit.(health := hit.health - Power(me))])
  }

  /** The target dies of a strike. */
  function Killed(r: Room, g: nat, t: nat): Room
    requires g < SLOTS && t < SLOTS
  {
    var slot := if r.slotConn[t] >= 0 then SlotOf(r, r.slotConn[t]) else -1;
    SlotFromMeans(r.slotConn, r.slotConn[t], 0);
    r.(fighters := r.fighters[t := r.fighters[t].(health := 0, alive := false)],
       kills := r.kills[g := r.kills[g] + 1],
       died := if slot >= 0 then r.died[slot := true] else r.died)
  }

  ghost function Attacked(r: Room, g: nat, now: string): Room
    requires g < SLOTS && Routed(r)
  {
    match Struck(r, g)
    case None => r
    case Some(t) =>
      var dealt := Dealt(r, g, t);
      if dealt.fighters[t].health > 0 then dealt else CheckOver(Killed(dealt, g, t), r.slotConn[g], now)
  }

  ghost predicate CanAct(r: Room, cid: int) {
    r.started && !r.over && SlotOf(r, cid) >= 0 && Live(r, SlotOf(r, cid))
  }

  ghost function Acted(r: Room, cid: int, a: Action, now: string): Room
    requires Routed(r)
  {
    if !CanAct(r, cid) then r
    else
      var g := SlotOf(r, cid);
      if a.Strike? then Attacked(r, g, now)
      else PickUp(r.(fighters := r.fighters[g := Moved(r.fighters[g], a)]), g)
  }

  // ----- Weapons appear -----

  /** The first inactive weapon place from i on, or -1. */
  function IdleFrom(weapons: seq<Weapon>, i: nat): (k: int)
    requires i <= |weapons|
    ensures k == -1 || (i <= k < |weapons| && !weapons[k].active)
    decreases |weapons| - i
  {
    if i == |weapons| then -1 else if !weapons[i].active then i else IdleFrom(weapons, i + 1)
  }

  ghost predicate Busy(r: Room, x: int, y: int) {
    (exists g :: Live(r, g) && r.fighters[g].x == x && r.fighters[g].y == y)
    || (exists i :: 0 <= i < WEAPONS && r.weapons[i].active && r.weapons[i].x == x && r.weapons[i].y == y)
  }

  // The random cells that one appearance may try: fifty, none on the border of the map.
  type Draws = t: seq<(int, int)>
    | |t| == SPAWN_TRIES && forall i | 0 <= i < |t| :: 2 <= t[i].0 < MAP_W - 2 && 2 <= t[i].1 < MAP_H - 2
    witness seq(SPAWN_TRIES, _ => (2, 2))

  /** The random cells are tried in turn; a weapon goes on the first that is not busy. */
  ghost function Spawned(r: Room, tries: seq<(int, int)>): Room
    decreases |tries|
  {
    var slot := IdleFrom(r.weapons, 0);
    if slot < 0 || tries == [] then r
    else if Busy(r, tries[0].0, tries[0].1) then Spawned(r, tries[1..])
    else r.(weapons := r.weapons[slot := Weapon(tries[0].0, tries[0].1, true)])
  }

  // ----- Steps -----

  datatype Event =
    | Accepts
    | Tries(cid: nat, register: bool, name: string, pw: string, now: Stamp)
    | Joins(cid: nat)
    | Readies(cid: nat)
    | Acts(cid: nat, action: Action, now: Stamp)
    | Drops(cid: nat, now: Stamp)
    | Closes(cid: nat)
    | WeaponTick(tries: Draws)

  function FreeFrom(conns: seq<Conn>, i: nat): (k: int)
    requires i <= |conns|
    ensures k == -1 || (i <= k < |conns| && conns[k].Free?)
    decreases |conns| - i
  {
    if i == |conns| then -1 else if conns[i].Free? then i else FreeFrom(conns, i + 1)
  }

  function Accepted(r: Room): Room {
    var cid := FreeFrom(r.conns, 0);
    if cid < 0 then r else r.(conns := r.conns[cid := Auth(0)])
  }

  function Registered(r: Room, name: string, pw: string, now: Stamp, hash: (string, string) -> Hex): Room {
    if !CanRegister(r.users, name, pw) || Hidden(name) then r
    else r.(users := r.users + [User(name, hash(name, pw), now)], stats := r.stats + [NoGames(name, now)])
  }

  function Tried(r: Room, e: Event, hash: (string, string) -> Hex): Room
    requires e.Tries?
  {
    if e.cid >= CONNS || !r.conns[e.cid].Auth? then r
    else
      var ok := if e.register then CanRegister(r.users, e.name, e.pw) else CanLogin(r.users, e.name, e.pw, hash);
      var asked := if e.register then Registered(r, e.name, e.pw, e.now, hash) else r;
      var attempts := r.conns[e.cid].attempts + 1;
      asked.(conns := r.conns[e.cid := if ok then Lobby(e.name)
                                       else if attempts >= MAX_ATTEMPTS then Closing else Auth(attempts)])
  }

  /** The first empty slot, or -1. */
  function EmptyFrom(slotConn: seq<int>, g: nat): (k: int)
    requires g <= |slotConn|
    ensures k == -1 || (g <= k < |slotConn| && slotConn[k] < 0)
    ensures k == -1 ==> forall h | g <= h < |slotConn| :: slotConn[h] >= 0
    decreases |slotConn| - g
  {
    if g == |slotConn| then -1 else if slotConn[g] < 0 then g else EmptyFrom(slotConn, g + 1)
  }

  function Joined(r: Room, cid: nat): Room {
    if cid >= CONNS || !r.conns[cid].Lobby? then r
    else
      var g := EmptyFrom(r.slotConn, 0);
      if g < 0 then r
      else r.(slotConn := r.slotConn[g := cid], conns := r.conns[cid := Playing(r.conns[cid].name)],
              fighters := r.fighters[g := NOBODY.(connected := true)])
  }

  function Readied(r: Room, cid: nat): Room {
    if cid >= CONNS || !r.conns[cid].Playing? || r.started then r
    else
      var g := SlotOf(r, cid);
      if g < 0 then r
      else
        SlotFromMeans(r.slotConn, cid, 0);
        var s := r.(fighters := r.fighters[g := r.fighters[g].(ready := true)]);
        if ReadyCount(s) == Online(s) && Online(s) >= 2 then Reset(s) else s
  }

  function Dropped(r: Room, cid: nat, now: string): Room
    requires Routed(r)
  {
    if cid >= CONNS || r.conns[cid].Free? || r.conns[cid].Closing? then r
    else
      var left := Remove(r, cid, now);
      left.(conns := left.conns[cid := Closing])
  }

  function Closed(r: Room, cid: nat): Room {
    if cid >= CONNS || !r.conns[cid].Closing? then r else r.(conns := r.conns[cid := Free])
  }

  ghost function Step(r: Room, e: Event, hash: (string, string) -> Hex): Room
    requires Routed(r)
  {
    match e
    case Accepts => Accepted(r)
    case Tries(_, _, _, _, _) => Tried(r, e, hash)
    case Joins(cid) => Joined(r, cid)
    case Readies(cid) => Readied(r, cid)
    case Acts(cid, a, now) => if cid < CONNS && r.conns[cid].Playing? then Acted(r, cid, a, now) else r
    case Drops(cid, now) => Dropped(r, cid, now)
    case Closes(cid) => Closed(r, cid)
    case WeaponTick(tries) => if r.started && !r.over then Spawned(r, tries) else r
  }
}
