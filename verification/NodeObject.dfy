/** The store and the node services of the cluster as objects: a node owns the worlds it hosts and
    the snapshots it keeps for other nodes. */
module NodeObject {
  import opened Basics
  import opened WorldModel
  import opened WorldCheckpoint
  import opened WorldScans
  import opened WorldObject
  import opened ClusterModel

  /** No cell of the checkpoint holds two treasures. */
  ghost predicate Clean(cp: Checkpoint) {
    OnePerCell(TreasuresFrom(cp.treasures))
  }

  lemma CapturedClean(s: State, nodeId: string, now: int)
    requires OnePerCell(s.treasures)
    ensures Clean(Captured(s, nodeId, now))
  {
    AllTreasuresReturn(s);
  }

  class UserStore {
    var users: map<string, Profile>
    var checkpoints: map<string, Checkpoint>
    const hash: string -> string

    ghost function Value(): Store
      reads this
    {
      Store(users, checkpoints, hash)
    }

    ghost predicate Valid()
      reads this
    {
      forall m | m in checkpoints :: Clean(checkpoints[m])
    }

    constructor (users: map<string, Profile>, checkpoints: map<string, Checkpoint>, hash: string -> string)
      requires forall m | m in checkpoints :: Clean(checkpoints[m])
      ensures Valid() && Value() == Store(users, checkpoints, hash)
    {
      this.users, this.checkpoints, this.hash := users, checkpoints, hash;
    }

    method Register(u: string, pw: string)
      requires Valid()
      modifies this
      ensures Valid() && Value() == RegisterUser(old(Value()), u, pw)
    {
      if u == "" || pw == "" {
        return;
      }
      if u in users {
        return;
      }
      users := users[u := NewProfile(u, hash(pw))];
    }

    method Authenticate(u: string, pw: string) returns (profile: Option<Profile>)
      ensures profile == if Authentic(Value(), u, pw) then Some(users[u]) else None
    {
      if u == "" || pw == "" || u !in users {
        return None;
      }
      if users[u].passwordHash != hash(pw) {
        return None;
      }
      return Some(users[u]);
    }

    method SaveProfile(profile: Profile)
      requires Valid()
      modifies this
      ensures Valid() && Value() == ClusterModel.SaveProfile(old(Value()), profile)
    {
      var kept := profile;
      if profile.username in users && profile.passwordHash == "" {
        kept := kept.(passwordHash := users[profile.username].passwordHash);
      }
      users := users[kept.username := kept];
    }

    method SaveCheckpoint(cp: Checkpoint)
      requires Valid() && Clean(cp)
      modifies this
      ensures Valid() && Value() == old(Value()).(checkpoints := old(Value()).checkpoints[cp.mapId := cp])
    {
      checkpoints := checkpoints[cp.mapId := cp];
    }

    /** A checkpoint that was never saved reads as the empty one. */
    method LoadCheckpoint(m: string) returns (cp: Checkpoint)
      requires Valid()
      ensures cp == ClusterModel.LoadCheckpoint(Value(), m) && Clean(cp)
    {
      cp := if m in checkpoints then checkpoints[m] else NO_CHECKPOINT;
    }
  }

  /** What NewWorld builds: `build` stands for its random choices. */
  method NewWorld(build: Config -> State, cfg: Config) returns (w: World)
    requires OnePerCell(build(cfg).treasures)
    ensures fresh(w) && w.Valid() && w.Value() == build(cfg)
  {
    w := new World.From(build(cfg));
  }

  class NodeService {
    const id: string
    var healthy: bool
    var maps: map<string, World>
    var snapshots: map<string, Checkpoint>

    ghost predicate Valid()
      reads this, maps.Values
    {
      && (forall m, m' | m in maps && m' in maps && maps[m] == maps[m'] :: m == m')
      && (forall m | m in maps :: maps[m].Valid())
      && (forall m | m in snapshots :: Clean(snapshots[m]))
    }

    ghost function Value(): Node
      reads this, maps.Values
    {
      Node(healthy, map m | m in maps :: maps[m].Value(), snapshots)
    }

    constructor (id: string)
      ensures Valid() && Value() == Node(true, map[], map[]) && this.id == id && maps == map[]
    {
      this.id, healthy, maps, snapshots := id, true, map[], map[];
    }

    /** Every world hosted now was hosted here before or is new. */
    twostate predicate Grown()
      reads this
    {
      forall m | m in maps :: (m in old(maps) && maps[m] == old(maps)[m]) || fresh(maps[m])
    }

    /** Nothing here was touched. */
    twostate lemma Kept()
      requires old(Valid()) && unchanged(this) && forall m | m in maps :: unchanged(maps[m])
      ensures Valid() && Value() == old(Value())
    {
      hide OnePerCell, Clean;
      assert Value().maps == old(Value()).maps;
    }

    /** Only the world of map m was touched. */
    twostate lemma WorldChanged(m: string)
      requires old(Valid()) && m in maps && unchanged(this) && maps[m].Valid()
      requires forall k | k in maps && k != m :: unchanged(maps[k])
      ensures Valid()
      ensures Value() == old(Value()).(maps := old(Value()).maps[m := maps[m].Value()])
    {
      hide OnePerCell, Clean, World.Value;
      assert Value().maps == old(Value()).maps[m := maps[m].Value()];
    }

    /** A new world came under map m. */
    twostate lemma WorldPlaced(m: string)
      requires old(Valid()) && m in maps && fresh(maps[m]) && maps[m].Valid()
      requires maps == old(maps)[m := maps[m]]
      requires forall k | k in old(maps) && k != m :: unchanged(old(maps)[k])
      requires forall k | k in snapshots :: Clean(snapshots[k])
      ensures Valid()
      ensures Value() == Node(healthy, old(Value()).maps[m := maps[m].Value()], snapshots)
    {
      hide OnePerCell, Clean, World.Value, World.Valid;
      StillApart(m);
      assert Value().maps == old(Value()).maps[m := maps[m].Value()];
      hide Value;
    }

    twostate lemma StillApart(m: string)
      requires old(Valid()) && m in maps && fresh(maps[m]) && maps == old(maps)[m := maps[m]]
      ensures forall k, k' | k in maps && k' in maps && maps[k] == maps[k'] :: k == k'
    {
      hide World.Valid, Clean;
      assert forall k | k in maps && k != m :: maps[k] == old(maps)[k] && !fresh(maps[k]);
    }

    method SetHealthy(h: bool) returns (was: bool)
      requires Valid()
      modifies `healthy
      ensures Valid() && Value() == old(Value()).(healthy := h) && was == old(healthy)
    {
      was := healthy;
      healthy := h;
      assert Value().maps == old(Value()).maps;
    }

    method StoreReplica(cp: Checkpoint)
      requires Valid() && Clean(cp)
      modifies `snapshots
      ensures Valid() && Value() == ClusterModel.StoreReplica(old(Value()), cp)
    {
      snapshots := snapshots[cp.mapId := cp];
      assert Value().maps == old(Value()).maps;
    }

    method RemoveHostedMap(m: string)
      requires Valid()
      modifies `maps
      ensures Valid() && maps == old(maps) - {m}
      ensures Value() == old(Value()).(maps := old(Value()).maps - {m})
    {
      maps := maps - {m};
      assert Value().maps == old(Value()).maps - {m};
    }

    method InstallPrimaryMap(m: string, cfg: Config, build: Config -> State)
      requires Valid() && OnePerCell(build(cfg).treasures)
      modifies `maps
      ensures Valid() && m in maps && old(maps.Keys) + {m} == maps.Keys
      ensures forall k | k in old(maps) :: maps[k] == old(maps[k])
      ensures m !in old(maps) ==> fresh(maps[m])
      ensures Value() == old(Value()).(maps := Installed(old(Value()).maps, m, build(cfg)))
    {
      if m in maps {
        assert Value().maps == Installed(old(Value()).maps, m, build(cfg));
        return;
      }
      var w := NewWorld(build, cfg);
      maps := maps[m := w];
      WorldPlaced(m);
    }

    method RestorePrimaryMap(m: string, cfg: Config, cp: Checkpoint, build: Config -> State)
      requires Valid() && OnePerCell(build(cfg).treasures) && Clean(cp)
      modifies `maps, maps.Values
      ensures Valid() && m in maps && old(maps.Keys) + {m} == maps.Keys
      ensures forall k | k in old(maps) :: maps[k] == old(maps[k])
      ensures (m !in old(maps) ==> fresh(maps[m])) && Grown()
      ensures Value() == With(old(Value()), m, Restore(Installed(old(Value()).maps, m, build(cfg))[m], cp))
    {
      hide Restore, OnePerCell, Installed, World.Value;
      InstallPrimaryMap(m, cfg, build);
      label Placed:
      maps[m].RestoreCheckpoint(cp);
      WorldChanged@Placed(m);
      InstalledOver(old(Value()).maps, m, build(cfg), maps[m].Value());
    }

    /** The snapshot of map m becomes a world of this node. */
    method Promote(m: string, cfg: Config, build: Config -> State)
      requires Valid() && OnePerCell(build(cfg).treasures) && m in snapshots
      modifies `maps, `snapshots
      ensures Valid() && m in maps && maps == old(maps)[m := maps[m]] && fresh(maps[m])
      ensures Value() == Promoted(old(Value()), m, build(cfg))
    {
      hide Restore, OnePerCell;
      var instance := NewWorld(build, cfg);
      instance.RestoreCheckpoint(snapshots[m]);
      maps := maps[m := instance];
      snapshots := snapshots - {m};
      WorldPlaced(m);
    }
  }

  function With(node: Node, m: string, s: State): Node {
    node.(maps := node.maps[m := s])
  }

  function Installed(maps: map<string, State>, m: string, built: State): (r: map<string, State>)
    ensures m in r
  {
    if m in maps then maps else maps[m := built]
  }

  lemma InstalledOver(maps: map<string, State>, m: string, built: State, s: State)
    ensures Installed(maps, m, built)[m := s] == maps[m := s]
  {
  }
}
