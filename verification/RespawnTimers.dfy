/** The world of Lab 2, where every kill starts a goroutine that sleeps and then brings the victim back:
    kills, timers, departures and arrivals in any interleaving, each under the world's lock. */
module RespawnTimers {
  import opened Basics

  const MAP_WIDTH := 30
  const MAP_HEIGHT := 20
  const INIT_HP := 100
  const ATTACK_DAMAGE := 30
  const HEAL_AMOUNT := 40
  const MAX_POTIONS := 5
  const ATTACK_RANGE := 2

  datatype Player = Player(x: int, y: int, hp: int, maxHP: int, potions: int, alive: bool, kills: int)

  // `pending` holds one entry for each sleeping timer; the last four fields only keep count.
  datatype State = State(players: map<nat, Player>, nextID: nat, pending: multiset<nat>,
                         started: nat, fired: nat, killsGone: int)

  function NewWorld(): State {
    State(map[], 1, multiset{}, 0, 0, 0)
  }

  function Newcomer(x: int, y: int): Player {
    Player(x, y, INIT_HP, INIT_HP, MAX_POTIONS, true, 0)
  }

  function Add(s: State, x: int, y: int): State {
    s.(players := s.players[s.nextID := Newcomer(x, y)], nextID := s.nextID + 1)
  }

  function Remove(s: State, id: nat): State {
    if id !in s.players then s
    else s.(players := s.players - {id}, killsGone := s.killsGone + s.players[id].kills)
  }

  function Stepped(p: Player, dir: string): Player {
    if dir == "up" && p.y > 0 then p.(y := p.y - 1)
    else if dir == "down" && p.y < MAP_HEIGHT - 1 then p.(y := p.y + 1)
    else if dir == "left" && p.x > 0 then p.(x := p.x - 1)
    else if dir == "right" && p.x < MAP_WIDTH - 1 then p.(x := p.x + 1)
    else p
  }

  function Move(s: State, id: nat, dir: string): State {
    if id !in s.players || !s.players[id].alive then s
    else s.(players := s.players[id := Stepped(s.players[id], dir)])
  }

  function Heal(s: State, id: nat): State {
    if id !in s.players || !s.players[id].alive || s.players[id].potions <= 0 then s
    else
      var p := s.players[id];
      s.(players := s.players[id := p.(potions := p.potions - 1, hp := Min(p.hp + HEAL_AMOUNT, p.maxHP))])
  }

  predicate InReach(s: State, id: nat, t: nat) {
    id in s.players && t in s.players && t != id && s.players[t].alive
    && Abs(s.players[id].x - s.players[t].x) + Abs(s.players[id].y - s.players[t].y) <= ATTACK_RANGE
  }

  /** An opponent in reach with the least health; which one of several depends on the map's order. */
  ghost predicate IsTarget(s: State, id: nat, t: nat) {
    InReach(s, id, t) && forall v | InReach(s, id, v) :: s.players[t].hp <= s.players[v].hp
  }

  predicate CanAttack(s: State, id: nat) {
    id in s.players && s.players[id].alive
  }

  /** The blow; a fatal one starts a timer for its victim. */
  function Hit(s: State, id: nat, t: nat): State
    requires id in s.players && t in s.players && id != t
  {
    var p, q := s.players[id], s.players[t];
    if q.hp - ATTACK_DAMAGE > 0 then s.(players := s.players[t := q.(hp := q.hp - ATTACK_DAMAGE)])
    else s.(players := s.players[t := q.(hp := 0, alive := false)][id := p.(kills := p.kills + 1)],
            pending := s.pending + multiset{t}, started := s.started + 1)
  }

  /** What a timer does when it wakes: its player, if still here, gets a new place, health and potions. */
  function Fire(s: State, id: nat, x: int, y: int): State
    requires id in s.pending
  {
    var done := s.(pending := s.pending - multiset{id}, fired := s.fired + 1);
    if id !in s.players then done
    else done.(players := s.players[id := s.players[id].(x := x, y := y, hp := s.players[id].maxHP,
                                                         potions := MAX_POTIONS, alive := true)])
  }

  // ----- Runs -----

  datatype Event =
    | Adds(x: int, y: int)
    | Removes(id: nat)
    | Moves(id: nat, dir: string)
    | Heals(id: nat)
    | Attacks(id: nat, target: Option<nat>)
    | Fires(id: nat, x: int, y: int)

  predicate OnMap(x: int, y: int) {
    0 <= x < MAP_WIDTH && 0 <= y < MAP_HEIGHT
  }

  /** Random cells lie on the map, an attack finds a target if and only if one is in reach, and only
      pending timers wake. */
  ghost predicate Legal(s: State, e: Event) {
    match e
    case Adds(x, y) => OnMap(x, y)
    case Attacks(id, t) => CanAttack(s, id) ==> (if t.Some? then IsTarget(s, id, t.value) else forall v :: !InReach(s, id, v))
    case Fires(id, x, y) => id in s.pending && OnMap(x, y)
    case _ => true
  }

  ghost function Step(s: State, e: Event): State
    requires Legal(s, e)
  {
    match e
    case Adds(x, y) => Add(s, x, y)
    case Removes(id) => Remove(s, id)
    case Moves(id, dir) => Move(s, id, dir)
    case Heals(id) => Heal(s, id)
    case Attacks(id, t) => if CanAttack(s, id) && t.Some? then Hit(s, id, t.value) else s
    case Fires(id, x, y) => Fire(s, id, x, y)
  }

  // A run is a list of states and events, each step legal.
  ghost predicate Run(states: seq<State>, events: seq<Event>) {
    && |states| == |events| + 1
    && forall i | 0 <= i < |events| :: Legal(states[i], events[i]) && states[i + 1] == Step(states[i], events[i])
  }

  ghost predicate Fit(p: Player, timers: nat) {
    && p.maxHP == INIT_HP && 0 <= p.potions <= MAX_POTIONS && OnMap(p.x, p.y)
    && (p.alive ==> 0 < p.hp <= p.maxHP && timers == 0)
    && (!p.alive ==> p.hp == 0 && timers == 1)
  }

  ghost function Kills(players: map<nat, Player>): map<nat, int> {
    map id | id in players :: players[id].kills
  }

  /** A player who is here is dead if and only if exactly one timer is pending for it, and alive if and
      only if none is; every kill started one timer, which has fired or is pending. */
  ghost predicate Sound(s: State) {
    && (forall id | id in s.players :: id < s.nextID && Fit(s.players[id], s.pending[id]))
    && (forall id | id in s.pending :: id < s.nextID)
    && s.started == s.fired + |s.pending|
    && s.started == Total(Kills(s.players)) + s.killsGone
  }

  lemma NewWorldSound()
    ensures Sound(NewWorld())
  {
    assert Kills(map[]) == map[];
  }

  lemma KillsUpdate(players: map<nat, Player>, id: nat, p: Player)
    ensures Total(Kills(players[id := p])) == Total(Kills(players)) - (if id in players then players[id].kills else 0) + p.kills
  {
    TotalUpdate(Kills(players), id, p.kills);
    assert Kills(players[id := p]) == Kills(players)[id := p.kills];
  }

  lemma AddSound(s: State, x: int, y: int)
    requires Sound(s) && OnMap(x, y)
    ensures Sound(Add(s, x, y))
  {
    KillsUpdate(s.players, s.nextID, Newcomer(x, y));
    assert s.nextID !in s.pending;
    hide Total, Kills;
  }

  lemma RemoveSound(s: State, id: nat)
    requires Sound(s)
    ensures Sound(Remove(s, id))
  {
    if id in s.players {
      TotalRemove(Kills(s.players), id);
      assert Kills(s.players - {id}) == Kills(s.players) - {id};
    }
  }

  lemma MoveSound(s: State, id: nat, dir: string)
    requires Sound(s)
    ensures Sound(Move(s, id, dir))
  {
    if id in s.players {
      var p := Stepped(s.players[id], dir);
      assert Fit(s.players[id], s.pending[id]) && s.players[id].alive ==> Fit(p, s.pending[id]);
      KillsUpdate(s.players, id, p);
    }
    hide Total, Kills, Stepped;
  }

  lemma HealSound(s: State, id: nat)
    requires Sound(s)
    ensures Sound(Heal(s, id))
  {
    if Heal(s, id) != s {
      KillsUpdate(s.players, id, Heal(s, id).players[id]);
      hide Total, Kills;
    }
  }

  lemma HitSound(s: State, id: nat, t: nat)
    requires Sound(s) && CanAttack(s, id) && InReach(s, id, t)
    ensures Sound(Hit(s, id, t))
  {
    hide Total, Kills, Fit;
    HitFits(s, id, t);
    HitCounts(s, id, t);
  }

  /** The dead still have their one timer and the living none. */
  lemma HitFits(s: State, id: nat, t: nat)
    requires Sound(s) && CanAttack(s, id) && InReach(s, id, t)
    ensures var r := Hit(s, id, t);
      && (forall v | v in r.players :: v < r.nextID && Fit(r.players[v], r.pending[v]))
      && (forall v | v in r.pending :: v < r.nextID)
  {
    hide Total, Kills;
    var r := Hit(s, id, t);
    assert Fit(s.players[id], s.pending[id]) && Fit(s.players[t], s.pending[t]);
    assert forall v | v != t :: r.pending[v] == s.pending[v];
    forall v | v in r.players ensures v < r.nextID && Fit(r.players[v], r.pending[v]) {
      assert Fit(s.players[v], s.pending[v]);
    }
  }

  /** A kill adds one timer, one started timer and one to the killer's count. */
  lemma HitCounts(s: State, id: nat, t: nat)
    requires id in s.players && t in s.players && id != t
    ensures var r := Hit(s, id, t);
      && Total(Kills(r.players)) - Total(Kills(s.players)) == r.started - s.started
      && |r.pending| - |s.pending| == r.started - s.started && r.fired == s.fired && r.killsGone == s.killsGone
  {
    var r, q := Hit(s, id, t), s.players[t];
    if q.hp - ATTACK_DAMAGE > 0 {
      KillsUpdate(s.players, t, q.(hp := q.hp - ATTACK_DAMAGE));
    } else {
      KillsUpdate(s.players, t, q.(hp := 0, alive := false));
      KillsUpdate(s.players[t := q.(hp := 0, alive := false)], id, r.players[id]);
    }
    hide Total, Kills;
  }

  lemma FireSound(s: State, id: nat, x: int, y: int)
    requires Sound(s) && id in s.pending && OnMap(x, y)
    ensures Sound(Fire(s, id, x, y))
    ensures id in s.players ==> !s.players[id].alive && Fire(s, id, x, y).players[id].alive
    ensures id !in s.players ==> Fire(s, id, x, y).players == s.players
  {
    var r := Fire(s, id, x, y);
    assert forall v | v != id :: r.pending[v] == s.pending[v];
    if id in s.players {
      assert Fit(s.players[id], s.pending[id]);
      KillsUpdate(s.players, id, r.players[id]);
    }
    hide Total, Kills;
  }

  lemma StepSound(s: State, e: Event)
    requires Sound(s) && Legal(s, e)
    ensures Sound(Step(s, e))
  {
    match e
    case Adds(x, y) => AddSound(s, x, y);
    case Removes(id) => RemoveSound(s, id);
    case Moves(id, dir) => MoveSound(s, id, dir);
    case Heals(id) => HealSound(s, id);
    case Attacks(id, t) =>
      if CanAttack(s, id) && t.Some? {
        HitSound(s, id, t.value);
      }
    case Fires(id, x, y) => FireSound(s, id, x, y);
  }

  /** In every state of every run from the empty world the timers and the dead match. */
  lemma {:induction false} TimersMatchTheDead(states: seq<State>, events: seq<Event>, n: nat)
    requires Run(states, events) && states[0] == NewWorld() && n < |states|
    ensures Sound(states[n])
    ensures forall id | id in states[n].players ::
      (states[n].players[id].alive <==> states[n].pending[id] == 0) && (!states[n].players[id].alive <==> states[n].pending[id] == 1)
  {
    hide Step, Legal;
    if n == 0 {
      NewWorldSound();
    } else {
      TimersMatchTheDead(states, events, n - 1);
      StepSound(states[n - 1], events[n - 1]);
    }
  }

  /** A timer that wakes never touches anybody alive: it revives its dead player or does nothing. */
  lemma TimerRevivesOnly(states: seq<State>, events: seq<Event>, n: nat)
    requires Run(states, events) && states[0] == NewWorld() && n < |events| && events[n].Fires?
    ensures forall id | id in states[n].players && states[n].players[id].alive ::
      id in states[n + 1].players && states[n + 1].players[id] == states[n].players[id]
    ensures events[n].id !in states[n].players ==> states[n + 1].players == states[n].players
  {
    TimersMatchTheDead(states, events, n);
    FireSound(states[n], events[n].id, events[n].x, events[n].y);
    assert Legal(states[n], events[n]) && states[n + 1] == Step(states[n], events[n]);
  }

  lemma StepKeepsGone(s: State, e: Event, id: nat)
    requires Legal(s, e) && id < s.nextID && id !in s.players
    ensures id < Step(s, e).nextID && id !in Step(s, e).players
  {
  }

  /** Ids are not used again: who has left never comes back, so a leftover timer finds nobody. */
  lemma {:induction false} GoneForGood(states: seq<State>, events: seq<Event>, m: nat, n: nat, id: nat)
    requires Run(states, events) && m <= n < |states| && id < states[m].nextID && id !in states[m].players
    ensures id < states[n].nextID && id !in states[n].players
    decreases n
  {
    hide Step, Legal;
    if m < n {
      GoneForGood(states, events, m, n - 1, id);
      StepKeepsGone(states[n - 1], events[n - 1], id);
    }
  }

  // ----- What an event does to its player and its target -----

  /** A blow takes 30 points of health and nothing else, or kills: then the victim has none left and a
      timer of its own, and the attacker one kill more. */
  lemma BlowTakes(s: State, id: nat, t: nat)
    requires Legal(s, Attacks(id, Some(t))) && CanAttack(s, id)
    ensures var d := Step(s, Attacks(id, Some(t)));
      && id in s.players && t in s.players && id != t && d.players.Keys == s.players.Keys && d.nextID == s.nextID
      && (forall v | v in s.players && v != t && v != id :: d.players[v] == s.players[v])
      && d.players[id] == s.players[id].(kills := d.players[id].kills)
      && (if s.players[t].hp > 30 then
            && d.players[t] == s.players[t].(hp := d.players[t].hp) && s.players[t].hp - d.players[t].hp == 30
            && d.players[id] == s.players[id] && d.pending == s.pending
          else
            && d.players[t] == s.players[t].(hp := 0, alive := false)
            && d.players[id].kills == s.players[id].kills + 1
            && d.pending[t] == s.pending[t] + 1 && forall v | v != t :: d.pending[v] == s.pending[v])
  {
  }

  /** A potion gives 40 points of health, up to the maximum. */
  lemma PotionGives(s: State, id: nat)
    ensures var d := Step(s, Heals(id));
      if id in s.players && s.players[id].alive && s.players[id].potions > 0 then
        && d == s.(players := s.players[id := s.players[id].(hp := d.players[id].hp, potions := s.players[id].potions - 1)])
        && (s.players[id].hp + 40 <= s.players[id].maxHP ==> d.players[id].hp - s.players[id].hp == 40)
        && (s.players[id].hp + 40 > s.players[id].maxHP ==> d.players[id].hp == s.players[id].maxHP)
      else d == s
  {
  }

  /** A step leads one cell on, unless the edge of the map of 30 by 20 cells stops it. */
  lemma StepLeads(s: State, id: nat, dir: string, x: int, y: int)
    requires id in s.players && s.players[id].alive && OnMap(s.players[id].x, s.players[id].y)
    requires (dir == "up" && x == s.players[id].x && y == s.players[id].y - 1)
          || (dir == "down" && x == s.players[id].x && y == s.players[id].y + 1)
          || (dir == "left" && x == s.players[id].x - 1 && y == s.players[id].y)
          || (dir == "right" && x == s.players[id].x + 1 && y == s.players[id].y)
    ensures var d := Step(s, Moves(id, dir));
      d == if 0 <= x < 30 && 0 <= y < 20 then s.(players := s.players[id := s.players[id].(x := x, y := y)]) else s
  {
    assert s.players == s.players[id := s.players[id]];
  }

  /** A timer brings its player back with full health and five potions, where it was told to. */
  lemma TimerRestores(s: State, id: nat, x: int, y: int)
    requires Legal(s, Fires(id, x, y)) && id in s.players
    ensures var d := Step(s, Fires(id, x, y));
      && d.players[id].alive && d.players[id].hp == s.players[id].maxHP && d.players[id].potions == 5
      && d.players[id].x == x && d.players[id].y == y && d.players[id].kills == s.players[id].kills
      && d.players == s.players[id := d.players[id]] && d.pending == s.pending - multiset{id}
  {
  }

  // ----- The world as the source updates it -----

  class World {
    var players: map<nat, Player>
    var nextID: nat
    var pending: multiset<nat>
    ghost var started: nat
    ghost var fired: nat
    ghost var killsGone: int

    ghost function Value(): State
      reads this
    {
      State(players, nextID, pending, started, fired, killsGone)
    }

    constructor ()
      ensures Value() == NewWorld()
    {
      players, nextID, pending := map[], 1, multiset{};
      started, fired, killsGone := 0, 0, 0;
    }

    method AddPlayer(x: int, y: int) returns (id: nat)
      modifies this
      ensures id == old(nextID) && Value() == Add(old(Value()), x, y)
    {
      id := nextID;
      nextID := nextID + 1;
      players := players[id := Newcomer(x, y)];
    }

    method RemovePlayer(id: nat)
      modifies this
      ensures Value() == Remove(old(Value()), id)
    {
      if id in players {
        killsGone := killsGone + players[id].kills;
      }
      players := players - {id};
    }

    method MovePlayer(id: nat, dir: string)
      modifies this
      ensures Value() == Move(old(Value()), id, dir)
    {
      if id !in players || !players[id].alive {
        return;
      }
      var p := players[id];
      if dir == "up" {
        if p.y > 0 {
          p := p.(y := p.y - 1);
        }
      } else if dir == "down" {
        if p.y < MAP_HEIGHT - 1 {
          p := p.(y := p.y + 1);
        }
      } else if dir == "left" {
        if p.x > 0 {
          p := p.(x := p.x - 1);
        }
      } else if dir == "right" {
        if p.x < MAP_WIDTH - 1 {
          p := p.(x := p.x + 1);
        }
      }
      players := players[id := p];
    }

    method HealPlayer(id: nat)
      modifies this
      ensures Value() == Heal(old(Value()), id)
    {
      if id !in players || !players[id].alive {
        return;
      }
      var p := players[id];
      if p.potions <= 0 {
        return;
      }
      p := p.(potions := p.potions - 1, hp := p.hp + HEAL_AMOUNT);
      if p.hp > p.maxHP {
        p := p.(hp := p.maxHP);
      }
      players := players[id := p];
    }

    /** The scan keeps the first player of the least health, in whatever order the map lists them. */
    method FindTarget(id: nat) returns (target: Option<nat>)
      requires id in players
      ensures if target.Some? then IsTarget(Value(), id, target.value) else forall v :: !InReach(Value(), id, v)
    {
      ghost var s := Value();
      target := None;
      var ids := players.Keys;
      while ids != {}
        invariant ids <= players.Keys
        invariant target.None? ==> forall v | v !in ids :: !InReach(s, id, v)
        invariant target.Some? ==> InReach(s, id, target.value)
        invariant target.Some? ==> forall v | v !in ids && InReach(s, id, v) :: players[target.value].hp <= players[v].hp
        decreases |ids|
      {
        var v :| v in ids;
        ids := ids - {v};
        var p, q := players[id], players[v];
        if v != id && q.alive && Abs(p.x - q.x) + Abs(p.y - q.y) <= ATTACK_RANGE {
          if target.None? || q.hp < players[target.value].hp {
            target := Some(v);
          }
        }
      }
    }

    method AttackPlayer(id: nat) returns (ghost target: Option<nat>)
      modifies this
      ensures Legal(old(Value()), Attacks(id, target)) && Value() == Step(old(Value()), Attacks(id, target))
    {
      target := None;
      if id !in players || !players[id].alive {
        return;
      }
      var t := FindTarget(id);
      target := t;
      if t.None? {
        return;
      }
      var q := players[t.value];
      q := q.(hp := q.hp - ATTACK_DAMAGE);
      players := players[t.value := q];
      if q.hp <= 0 {
        players := players[t.value := q.(hp := 0, alive := false)];
        players := players[id := players[id].(kills := players[id].kills + 1)];
        pending := pending + multiset{t.value};
        started := started + 1;
      }
    }

    /** A sleeping timer wakes. */
    method Respawn(id: nat, x: int, y: int)
      requires id in pending
      modifies this
      ensures Value() == Fire(old(Value()), id, x, y)
    {
      pending := pending - multiset{id};
      fired := fired + 1;
      if id !in players {
        return;
      }
      var p := players[id];
      players := players[id := p.(x := x, y := y, hp := p.maxHP, potions := MAX_POTIONS, alive := true)];
    }
  }
}
