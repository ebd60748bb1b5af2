/** Checkpoints of a world: what a capture followed by a restore keeps, what it changes, and what
    becomes of players who were down at the time. */
module WorldCheckpoint {
  import opened Basics
  import opened WorldModel
  import opened WorldPlacement
  import opened WorldLedger

  datatype PlayerView = PlayerView(username: string, at: Cell, hp: int, maxHP: int, attack: int, potions: int,
                                   treasures: int, kills: int, deaths: int, victories: int, alive: bool,
                                   respawnIn: int)
  datatype NpcView = NpcView(id: string, npc: NPC)
  datatype TreasureView = TreasureView(id: string, treasure: Treasure)
  datatype Checkpoint = Checkpoint(mapId: string, nodeId: string, version: int, terrain: seq<string>,
                                   players: seq<PlayerView>, npcs: seq<NpcView>, treasures: seq<TreasureView>)

  // ----- Capture -----

  function RespawnIn(p: Player, now: int): int {
    if p.alive || p.respawnAt.None? then 0 else Max(1, p.respawnAt.value - now)
  }

  function ViewOf(u: string, p: Player, now: int): PlayerView {
    PlayerView(u, p.at, p.hp, p.maxHP, p.attack, p.potions, p.treasures, p.kills, p.deaths, p.victories, p.alive,
               RespawnIn(p, now))
  }

  ghost function PlayerViews(m: map<string, Player>, names: seq<string>, now: int): seq<PlayerView>
    requires forall u | u in names :: u in m
  {
    if names == [] then []
    else
      var n := |names| - 1;
      PlayerViews(m, names[..n], now) + [ViewOf(names[n], m[names[n]], now)]
  }

  ghost function NpcViews(m: map<string, NPC>, ids: seq<string>): seq<NpcView>
    requires forall id | id in ids :: id in m
  {
    if ids == [] then []
    else
      var n := |ids| - 1;
      NpcViews(m, ids[..n]) + [NpcView(ids[n], m[ids[n]])]
  }

  ghost function TreasureViews(m: map<string, Treasure>, ids: seq<string>): seq<TreasureView>
    requires forall id | id in ids :: id in m
  {
    if ids == [] then []
    else
      var n := |ids| - 1;
      TreasureViews(m, ids[..n]) + [TreasureView(ids[n], m[ids[n]])]
  }

  lemma SortedNamesShape(names: set<string>)
    ensures forall x :: x in SortedNames(names) <==> x in names
    ensures forall i, j | 0 <= i < j < |SortedNames(names)| :: SortedNames(names)[i] != SortedNames(names)[j]
  {
    StrLessStrictTotal();
    SortedShape(names, StrLess);
    assert forall x :: x in Elements(SortedNames(names)) <==> x in SortedNames(names);
  }

  /** The checkpoint of a world whose players have been refreshed. */
  ghost function Captured(s: State, nodeId: string, now: int): Checkpoint {
    SortedNamesShape(s.players.Keys);
    SortedNamesShape(s.npcs.Keys);
    SortedNamesShape(s.treasures.Keys);
    Checkpoint(s.cfg.id, nodeId, s.version, s.terrain,
               PlayerViews(s.players, SortedNames(s.players.Keys), now),
               NpcViews(s.npcs, SortedNames(s.npcs.Keys)),
               TreasureViews(s.treasures, SortedNames(s.treasures.Keys)))
  }

  // ----- Restore -----

  function PlayerFrom(v: PlayerView): Player {
    Player(v.at, v.hp, v.maxHP, v.attack, ValueOr(v.potions, MAX_POTIONS), v.treasures, v.kills, v.deaths,
           v.victories, v.alive, None)
  }

  function PlayersFrom(views: seq<PlayerView>): map<string, Player> {
    if views == [] then map[]
    else
      var n := |views| - 1;
      PlayersFrom(views[..n])[views[n].username := PlayerFrom(views[n])]
  }

  function NpcsFrom(views: seq<NpcView>): map<string, NPC> {
    if views == [] then map[]
    else
      var n := |views| - 1;
      NpcsFrom(views[..n])[views[n].id := views[n].npc]
  }

  function TreasuresFrom(views: seq<TreasureView>): map<string, Treasure> {
    if views == [] then map[]
    else
      var n := |views| - 1;
      TreasuresFrom(views[..n])[views[n].id := views[n].treasure]
  }

  function Restore(w: State, cp: Checkpoint): State {
    if cp.mapId != w.cfg.id || cp.version == 0 then w
    else
      var npcs := NpcsFrom(cp.npcs);
      var treasures := TreasuresFrom(cp.treasures);
      w.(terrain := if |cp.terrain| > 0 then cp.terrain else w.terrain, players := PlayersFrom(cp.players),
         npcs := npcs, treasures := treasures, version := cp.version,
         nextNPC := |npcs| + 1, nextTreasure := |treasures| + 1)
  }

  // ----- Round trip -----

  function Renewed(p: Player): Player {
    p.(potions := ValueOr(p.potions, MAX_POTIONS), respawnAt := None)
  }

  /** A world as it comes back from a checkpoint: players without potions get new ones, pending
      revivals are forgotten, and the id counters and the random stream start over. */
  ghost function Normalise(s: State, drawn: nat): State {
    s.(players := map u | u in s.players :: Renewed(s.players[u]),
       nextNPC := |s.npcs| + 1, nextTreasure := |s.treasures| + 1, drawn := drawn)
  }

  ghost predicate Distinct(names: seq<string>) {
    forall i, j | 0 <= i < j < |names| :: names[i] != names[j]
  }

  lemma {:induction false} PlayersReturn(m: map<string, Player>, names: seq<string>, now: int)
    requires Distinct(names) && forall u | u in names :: u in m
    ensures PlayersFrom(PlayerViews(m, names, now)) == map u | u in m && u in names :: Renewed(m[u])
    decreases |names|
  {
    if names != [] {
      var n := |names| - 1;
      var views := PlayerViews(m, names, now);
      PlayersReturn(m, names[..n], now);
      assert views[..|views| - 1] == PlayerViews(m, names[..n], now);
      assert names == names[..n] + [names[n]];
    }
  }

  lemma {:induction false} NpcsReturn(m: map<string, NPC>, ids: seq<string>)
    requires Distinct(ids) && forall id | id in ids :: id in m
    ensures NpcsFrom(NpcViews(m, ids)) == map id | id in m && id in ids :: m[id]
    decreases |ids|
  {
    if ids != [] {
      var n := |ids| - 1;
      var views := NpcViews(m, ids);
      NpcsReturn(m, ids[..n]);
      assert views[..|views| - 1] == NpcViews(m, ids[..n]);
      assert ids == ids[..n] + [ids[n]];
    }
  }

  lemma {:induction false} TreasuresReturn(m: map<string, Treasure>, ids: seq<string>)
    requires Distinct(ids) && forall id | id in ids :: id in m
    ensures TreasuresFrom(TreasureViews(m, ids)) == map id | id in m && id in ids :: m[id]
    decreases |ids|
  {
    if ids != [] {
      var n := |ids| - 1;
      var views := TreasureViews(m, ids);
      TreasuresReturn(m, ids[..n]);
      assert views[..|views| - 1] == TreasureViews(m, ids[..n]);
      assert ids == ids[..n] + [ids[n]];
    }
  }

  lemma UnitsReturn(s: State, now: int)
    ensures forall x :: x in SortedNames(s.players.Keys) ==> x in s.players
    ensures forall x :: x in SortedNames(s.npcs.Keys) ==> x in s.npcs
    ensures PlayersFrom(PlayerViews(s.players, SortedNames(s.players.Keys), now)) == map u | u in s.players :: Renewed(s.players[u])
    ensures NpcsFrom(NpcViews(s.npcs, SortedNames(s.npcs.Keys))) == s.npcs
  {
    hide SortedNames, PlayersFrom, PlayerViews, NpcsFrom, NpcViews;
    SortedNamesShape(s.players.Keys);
    SortedNamesShape(s.npcs.Keys);
    PlayersReturn(s.players, SortedNames(s.players.Keys), now);
    NpcsReturn(s.npcs, SortedNames(s.npcs.Keys));
  }

  lemma AllTreasuresReturn(s: State)
    ensures forall x :: x in SortedNames(s.treasures.Keys) ==> x in s.treasures
    ensures TreasuresFrom(TreasureViews(s.treasures, SortedNames(s.treasures.Keys))) == s.treasures
  {
    hide SortedNames, TreasuresFrom, TreasureViews;
    SortedNamesShape(s.treasures.Keys);
    TreasuresReturn(s.treasures, SortedNames(s.treasures.Keys));
  }

  /** Restoring what was captured gives the captured world back, up to exactly what Normalise lists. */
  lemma RoundTrip(s: State, w: State, nodeId: string, now: int)
    requires w.cfg == s.cfg && s.version != 0
    ensures Restore(w, Captured(s, nodeId, now)) == Normalise(s, w.drawn)
  {
    hide SortedNames, PlayersFrom, PlayerViews, NpcsFrom, NpcViews, TreasuresFrom, TreasureViews;
    UnitsReturn(s, now);
    AllTreasuresReturn(s);
  }

  lemma NormaliseSeparation(s: State, drawn: nat)
    requires Separated(s)
    ensures Separated(Normalise(s, drawn))
  {
    SamePlayers(s, Normalise(s, drawn));
  }

  lemma NormaliseWealth(s: State, drawn: nat)
    ensures Wealth(Normalise(s, drawn)) == Wealth(s)
  {
    SameMoney(s, Normalise(s, drawn));
  }
}
