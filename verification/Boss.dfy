/** The one boss that the players of all maps fight (Lab 3), at the granularity of the cluster lock:
    each strike and each respawn is one critical section, in any order. */
module BossModel {
  import opened Basics

  const BOSS_HP := 1600
  const MIN_DAMAGE := 20
  const COOLDOWN := 15
  const SHARE := 3
  const FINISHER_SHARE := 6

  datatype Boss = Boss(hp: int, maxHP: int, alive: bool, lastHit: string, respawnAt: int, version: int,
                       contributors: map<string, int>)
  datatype Reward = Reward(treasure: int, victories: int)

  function NewBoss(): Boss {
    Boss(BOSS_HP, BOSS_HP, true, "", 0, 1, map[])
  }

  // Go's integer division rounds toward zero.
  function Half(t: int): int {
    if t >= 0 then t / 2 else -((-t) / 2)
  }

  function Damage(attack: int, treasures: int): (d: int)
    ensures d >= MIN_DAMAGE
  {
    Max(MIN_DAMAGE, attack + Half(treasures))
  }

  function Credit(b: Boss, u: string, damage: int): map<string, int> {
    b.contributors[u := (if u in b.contributors then b.contributors[u] else 0) + damage]
  }

  function Struck(b: Boss, u: string, damage: int, now: int): Boss {
    if !b.alive then b
    else if b.hp - damage <= 0 then b.(hp := 0, alive := false, lastHit := u, respawnAt := now + COOLDOWN,
                                       version := b.version + 1, contributors := map[])
    else b.(hp := b.hp - damage, lastHit := u, version := b.version + 1, contributors := Credit(b, u, damage))
  }

  predicate Fatal(b: Boss, damage: int) {
    b.alive && b.hp - damage <= 0
  }

  function Share(c: string, finisher: string): Reward {
    if c == finisher then Reward(FINISHER_SHARE, 1) else Reward(SHARE, 0)
  }

  function Shares(contributors: map<string, int>, u: string, online: set<string>): map<string, Reward> {
    map c | c in contributors && c in online :: Share(c, u)
  }

  /** What a strike pays out: nothing unless it is fatal, and then to every contributor still online. */
  function Rewards(b: Boss, u: string, damage: int, online: set<string>): map<string, Reward> {
    if !Fatal(b, damage) then map[]
    else Shares(Credit(b, u, damage), u, online)
  }

  ghost function Victories(rewards: map<string, Reward>): int {
    Total(map c | c in rewards :: rewards[c].victories)
  }

  /** A blow is worth the striker's attack and half its treasure, but never less than 20. */
  lemma DamageIs(attack: int, treasures: nat)
    ensures var d := Damage(attack, treasures);
      && d >= 20 && 2 * d >= 2 * attack + treasures - 1
      && (d == 20 || 2 * d == 2 * attack + treasures || 2 * d == 2 * attack + treasures - 1)
  {
  }

  /** A strike at a living boss takes its damage and credits it to the striker; if that is all the boss has,
      the boss is dead for 15 seconds, its contributors are paid off and the next life starts from nothing. */
  lemma StrikeTakes(b: Boss, u: string, damage: int, now: int)
    requires b.alive && damage > 0
    ensures var d := Struck(b, u, damage, now);
      && d.lastHit == u && d.version == b.version + 1 && d.maxHP == b.maxHP
      && (if b.hp > damage then
            && d.alive && b.hp - d.hp == damage && d.respawnAt == b.respawnAt
            && d.contributors.Keys == b.contributors.Keys + {u}
            && d.contributors[u] == damage + (if u in b.contributors then b.contributors[u] else 0)
            && forall c | c in b.contributors && c != u :: d.contributors[c] == b.contributors[c]
          else !d.alive && d.hp == 0 && d.respawnAt == now + 15 && d.contributors == map[])
  {
  }

  /** The finisher gets 6 treasures and the victory, everyone else who contributed and is online 3. */
  lemma FatalStrikePays(b: Boss, u: string, damage: int, online: set<string>)
    requires b.alive
    ensures var pay := Rewards(b, u, damage, online);
      if b.hp > damage then pay == map[]
      else
        && pay.Keys == (b.contributors.Keys + {u}) * online
        && forall c | c in pay :: pay[c] == if c == u then Reward(6, 1) else Reward(3, 0)
  {
  }

  // ----- The arena: the boss, the timers started and not yet fired, and a tally of the past -----

  datatype Arena = Arena(boss: Boss, timers: nat, deaths: nat, fired: nat, victories: int)

  datatype Event = Strike(u: string, damage: int, now: int, online: set<string>) | TimerFires

  ghost function Step(a: Arena, e: Event): Arena {
    match e
    case Strike(u, damage, now, online) =>
      var died := if Fatal(a.boss, damage) then 1 else 0;
      Arena(Struck(a.boss, u, damage, now), a.timers + died, a.deaths + died, a.fired,
            a.victories + Victories(Rewards(a.boss, u, damage, online)))
    case TimerFires =>
      if a.timers == 0 then a else a.(boss := NewBoss(), timers := a.timers - 1, fired := a.fired + 1)
  }

  ghost function Run(a: Arena, es: seq<Event>): Arena
    decreases |es|
  {
    if es == [] then a else Run(Step(a, es[0]), es[1..])
  }

  /** Every strike comes with the damage AttackBoss computes, which is never below the minimum. */
  ghost predicate Legal(e: Event) {
    e.Strike? ==> e.damage >= MIN_DAMAGE
  }

  ghost predicate Sound(a: Arena) {
    var b := a.boss;
    && b.maxHP == BOSS_HP && b.version >= 1
    && (b.alive ==> b.hp > 0 && b.hp + Total(b.contributors) == b.maxHP && a.timers == 0
                    && b.hp + MIN_DAMAGE * (b.version - 1) <= b.maxHP)
    && (!b.alive ==> b.hp == 0 && b.contributors == map[] && a.timers == 1
                     && MIN_DAMAGE * (b.version - 2) < b.maxHP)
    && (forall c | c in b.contributors :: b.contributors[c] >= MIN_DAMAGE)
    && a.deaths == a.fired + a.timers
    && 0 <= a.victories <= a.deaths
  }

  lemma {:induction false} NoVictories(m: map<string, int>)
    requires forall c | c in m :: m[c] == 0
    ensures Total(m) == 0
    decreases |m|
  {
    if m != map[] {
      var c :| c in m;
      TotalSplit(m, c);
      NoVictories(m - {c});
    }
  }

  /** A fatal strike hands out exactly one victory, to its author, provided the author is online. */
  lemma VictoryGoesToFinisher(b: Boss, u: string, damage: int, online: set<string>)
    ensures Victories(Rewards(b, u, damage, online)) == if Fatal(b, damage) && u in online then 1 else 0
    ensures Fatal(b, damage) ==> forall c | c in b.contributors && c in online ::
      c in Rewards(b, u, damage, online) && Rewards(b, u, damage, online)[c].treasure >= SHARE
  {
    var rewards := Rewards(b, u, damage, online);
    var m := map c | c in rewards :: rewards[c].victories;
    if u in m {
      TotalSplit(m, u);
      NoVictories(m - {u});
    } else {
      NoVictories(m);
    }
  }

  lemma SoundStart()
    ensures Sound(Arena(NewBoss(), 0, 0, 0, 0))
  {
  }

  lemma SoundStep(a: Arena, e: Event)
    requires Sound(a) && Legal(e)
    ensures Sound(Step(a, e))
  {
    match e
    case Strike(u, damage, now, online) =>
      var b := a.boss;
      VictoryGoesToFinisher(b, u, damage, online);
      TotalUpdate(b.contributors, u, Credit(b, u, damage)[u]);
    case TimerFires =>
  }

  /** Any interleaving of strikes and timers keeps the accounts: a living boss has lost exactly what its
      contributors dealt, a life takes at most eighty strikes, each death hands out at most one victory,
      and a respawn timer is pending exactly while the boss is dead. */
  lemma {:induction false} BossAccounts(a: Arena, es: seq<Event>)
    requires Sound(a) && forall i | 0 <= i < |es| :: Legal(es[i])
    ensures Sound(Run(a, es))
    ensures Run(a, es).boss.version <= 81 && Run(a, es).victories <= Run(a, es).deaths
    decreases |es|
  {
    if es != [] {
      SoundStep(a, es[0]);
      BossAccounts(Step(a, es[0]), es[1..]);
    }
  }

  /** A timer that fires finds a dead boss; it never replaces a living one. */
  lemma TimerFindsDeadBoss(a: Arena, es: seq<Event>)
    requires Sound(a) && forall i | 0 <= i < |es| :: Legal(es[i])
    ensures Run(a, es).timers > 0 <==> !Run(a, es).boss.alive
    ensures Run(a, es).timers <= 1
  {
    BossAccounts(a, es);
  }

  // ----- The boss as the cluster updates it in place -----

  class BossState {
    var hp: int
    var maxHP: int
    var alive: bool
    var lastHit: string
    var respawnAt: int
    var version: int
    var contributors: map<string, int>

    function Value(): Boss
      reads this
    {
      Boss(hp, maxHP, alive, lastHit, respawnAt, version, contributors)
    }

    constructor ()
      ensures Value() == NewBoss()
    {
      hp, maxHP, alive, lastHit, respawnAt, version, contributors := BOSS_HP, BOSS_HP, true, "", 0, 1, map[];
    }

    /** The contributors are listed in whatever order the map gives. */
    method PayContributors(u: string, online: set<string>) returns (rewards: map<string, Reward>)
      ensures rewards == Shares(contributors, u, online)
    {
      rewards := map[];
      var todo := contributors.Keys;
      while todo != {}
        invariant todo <= contributors.Keys
        invariant rewards == map c | c in contributors && c !in todo && c in online :: Share(c, u)
        decreases |todo|
      {
        var c :| c in todo;
        if c in online {
          var reward, victories := SHARE, 0;
          if c == u {
            reward := FINISHER_SHARE;
            victories := 1;
          }
          rewards := rewards[c := Reward(reward, victories)];
        }
        todo := todo - {c};
      }
    }

    /** The critical section of AttackBoss. */
    method AttackSection(u: string, damage: int, now: int, online: set<string>)
      returns (rewards: map<string, Reward>, needRespawn: bool)
      modifies this
      ensures Value() == Struck(old(Value()), u, damage, now)
      ensures rewards == Rewards(old(Value()), u, damage, online)
      ensures needRespawn <==> Fatal(old(Value()), damage)
    {
      rewards, needRespawn := map[], false;
      if !alive {
        return;
      }
      hp := hp - damage;
      lastHit := u;
      version := version + 1;
      contributors := contributors[u := (if u in contributors then contributors[u] else 0) + damage];
      if hp <= 0 {
        hp := 0;
        alive := false;
        respawnAt := now + COOLDOWN;
        rewards := PayContributors(u, online);
        contributors := map[];
        needRespawn := true;
      }
    }

    /** The critical section of the respawn timer: the boss is replaced by a new one. */
    method Respawn()
      modifies this
      ensures Value() == NewBoss()
    {
      hp, maxHP, alive, lastHit, respawnAt, version, contributors := BOSS_HP, BOSS_HP, true, "", 0, 1, map[];
    }
  }
}
