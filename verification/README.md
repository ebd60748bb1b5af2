# Battle world and war zone: a verified model

This project models three programs of the repository and proves what they keep.

* **The Lab 3 cluster** (`Lab/Lab3/complete`). A game world is cut into maps. Each map lives on one of three
  nodes and has a replica on another. Sessions route the users' commands to the owner of their map, checkpoints
  feed the replicas, and when a node fails its replicas take over. One boss is shared by all maps. Also its test
  client's path search (`Lab/Lab3/test/autotest.go`).
* **The warzone server** (`warzone_go`). Up to twenty connections compete for five slots of one room; a round
  starts when everybody is ready and ends with the last survivor; results go to a database of two text files.
* **The Lab 2 world** (`Lab/Lab2/complete/world`). Every kill starts a goroutine that revives the victim later.

Each program appears twice. A module of functions on values says what every operation does to the whole state
(`WorldModel`, `ClusterModel`, `BossModel`, `WarzoneModel`, `RespawnTimers`), and the theorems about all runs are
proved there. Classes with the loops and updates in place of the source (`WorldObject`, `NodeObject`,
`ClusterObject`, `WarzoneServer`, `DatabaseObject`, `RespawnTimers.World`, `BossModel.BossState`) are proved
against these functions, so that the theorems speak about them.

| files | what they hold |
|---|---|
| `Basics`, `Decimal` | sums over maps, sorted enumerations, string order, decimal notation |
| `WorldModel`, `WorldPlacement`, `WorldLedger`, `WorldLife`, `WorldCheckpoint` | one map: operations, no shared cells, treasure ledger, players who are down, checkpoints |
| `WorldEffects` | what each operation does to its player, its target and the rest, in cells and points |
| `WorldFindings` | runs of one map on which what one would expect fails |
| `WorldScans`, `WorldObject` | what scans in any order come to, and the map as an object |
| `Boss` | the shared boss |
| `ClusterModel`, `ClusterRouting`, `ClusterAccounts`, `ClusterBoss` | the cluster: routing, accounts and boss in every run, unplanned failures included |
| `PlainModel`, `ClusterSimulation`, `ClusterFailover` | the system without placement, simulation, planned failure |
| `ClusterCopies`, `ClusterTakeover`, `ClusterCheckpoint` | checkpoints and snapshots in every run, the unplanned failure, what it loses |
| `ClusterEffects` | what a client's request does to its player, its map and the files |
| `PlainProperties`, `PlainPlacement`, `PlainDown`, `PlainLedger`, `ClusterResults`, `ClusterFindings` | what holds in every run without unplanned failures: seats, room, who is down, treasure, logging out and in |
| `NodeObject`, `ClusterObject` | store, nodes and cluster as objects that own worlds |
| `WarzoneDatabase`, `WarzoneAccounts`, `DatabaseObject` | the text files, the records a load sees, the database object |
| `WarzoneModel`, `WarzoneEffects`, `WarzoneRounds`, `WarzoneTallies`, `WarzoneFindings`, `WarzoneInheritance`, `WarzoneServer` | the room, what an action does, what every run keeps, what is filed, names that get lost, the server object |
| `GridSearch` | the breadth-first path search |
| `RespawnTimers` | the Lab 2 world |

How the source's environment appears:

* Time is an argument `now`, the same throughout one operation. Random numbers come from an arbitrary stream per
  map (`Config.stream`) or are arguments. The order in which a Go map is listed is an argument of the functions;
  the methods loop over the keys in an arbitrary order and return it as a ghost value.
* Password hashing is an arbitrary function. What `NewWorld` builds for a configuration is an arbitrary function
  whose values went through the two filling loops (`WorldModel.Built`).
* Every exported cluster method and every ticker body is one atomic step. The source drops the cluster lock
  inside some of them (`Lab/Lab3/complete/cluster/cluster.go` lines 177-185 and 427-452), so interleavings inside
  those are not covered. The boss section and `handleNodeFailure` run under the lock, and the warzone steps are
  exactly the sections of its game lock.

What the proofs found about the code, with the inputs that show it:

* Logging out and in is the identity only for a player with potions: with none it gets three
  (`ClusterResults.ReturnInEveryRun`). `ClusterFindings.PotionsComeBack` is a run of one user, on any new cluster,
  that ends there. The same happens in a failover and on every change of map.
* A player on the ground who leaves, or whose map fails over, is never revived, however often it comes back
  (`ClusterResults.LogoutGroundsUser`, `PlainDown.RenewalGrounds`, `ClusterResults.GroundedForever`); one who stays
  is (`WorldFindings.LeavingCostsRevival`). Four strikes among two fresh users lead there in any bootstrapped world
  (`WorldFindings.DuelKnocksDown`).
* After a restore the id counters start at the number of units plus one, and the next drop can destroy a treasure:
  from every bootstrapped world two users who pick up two treasures get there
  (`WorldFindings.RestoredCounterCollides`; the exact condition of a drop is `WorldLedger.DropBalance`, and after a
  planned failover `ClusterResults.FailoverThenDrop`).
* When no cell is walkable, a player is put on the spawn point although a unit may stand there
  (`WorldPlacement.AddSeparation` and `RefreshSeparation` say exactly when). `WorldFindings.FullMapShares`: a
  bootstrapped map with k open cells takes k - 5 users, and the next one shares a cell.
* After an unplanned failure a map is back at its last checkpoint while sessions and accounts are not. Whoever
  entered it since has a session but no player there: every command is refused, and so is a new login
  (`ClusterCheckpoint.LossSeats` says who exactly, `NewcomerIsStranded` gives the run).
* Registration accepts names beginning with `#`, but the files then read them as comments: such a user cannot log
  in again and its results are lost (`WarzoneAccounts.RegisterThroughFile`, `UpdateThroughFile`, and the user `#ab`
  of `WarzoneFindings.HashNameIsLost` and `HashWinner`). The comment at the head of `database.go` promises a
  persistent store; the model follows the code.
* The kills and deaths of a round are filed for whoever sits in the slot at its end: who leaves early is not on
  record, and who joins during the round is given its predecessor's (`WarzoneTallies.JoinInherits`). In the run of
  `WarzoneInheritance.DeathInherited` a player who was in no fight gets the death of one who was killed and left.

## Model

| member | source | states |
|---|---|---|
| ClusterFailover.Simulation | Lab/Lab3/complete/cluster/cluster.go:160-462 | Placement is invisible: every step of the cluster that is no unplanned failure, seen as "map to world, user to map, boss, users", equals one step of a system without nodes, and for client steps that step does not depend on where anything is placed |
| ClusterFailover.RunSimulation | Lab/Lab3/complete/cluster/cluster.go:160-942 | The same for whole runs of logins, logouts, commands, map switches, boss strikes, checkpoints, background steps, planned failures and recoveries |
| ClusterFailover.ClientSimulation | Lab/Lab3/complete/cluster/cluster.go:226-462 | Each client step (move, heal, buy, attack, boss strike, switch, login, logout, look, flush) commutes with forgetting the placement |
| ClusterFailover.SystemSimulation | Lab/Lab3/complete/cluster/cluster.go:674-942 | Checkpoint ticks, background steps, heartbeats without a new failure, planned failures and recoveries commute with forgetting the placement |
| ClusterFailover.PlannedFailure | Lab/Lab3/complete/cluster/cluster.go:885-914 | A planned failure loses nothing: every map of the node ends up exactly as just captured, moved to its replica with the listed restore changes if the replica is known, in place otherwise, and nothing else changes |
| ClusterCheckpoint.FailureHandsOver | Lab/Lab3/complete/cluster/cluster.go:885-914 | After a planned failure the node is down and hosts none of its maps that had a known replica: each is at that replica, sessions included, and has as new replica the first healthy node by name other than the owner, so never the failed one, or none if there is none |
| ClusterTakeover.HeartbeatTakesOver | Lab/Lab3/complete/cluster/cluster.go:724-861 | The ping of a healthy node fails: the node is marked, and exactly the maps it owns whose replica is a known node with a copy (its own or the stored one) move there, in the state of that copy, off the node, with a new replica; every session leads to the owner of its map; every other map, the store and the boss are untouched |
| ClusterTakeover.HeartbeatSeen | Lab/Lab3/complete/cluster/cluster.go:724-861 | What players see of it: these maps are set back to their copies, and nothing else differs |
| ClusterTakeover.FailOverTakes | Lab/Lab3/complete/cluster/cluster.go:806-844 | The failover itself, over any list of maps with repetitions in any order: the listed maps of the node that have a copy move, all others keep owner, replica, world and copy |
| ClusterTakeover.HeartbeatNotes | Lab/Lab3/complete/cluster/cluster.go:728-732 | A ping that succeeds, or fails for a node that was down, only notes the health |
| ClusterCheckpoint.TickCaptures | Lab/Lab3/complete/cluster/cluster.go:761-775 | A tick at a healthy owner shows the map refreshed, stores exactly its capture under its name and hands the same to a known replica; no other world, snapshot or checkpoint changes; at an owner that is down it does nothing |
| ClusterCheckpoint.LossReturnsToTick | Lab/Lab3/complete/cluster/cluster.go:740-861 | Between a tick at a healthy owner with a known replica and the loss of that owner, let clients, the background, other maps' ticks and successful pings do anything: the map is then on the replica as the tick showed it, up to what a restore renews, with no trace of what happened since, while the accounts stay as last saved |
| ClusterCheckpoint.LossSeats | Lab/Lab3/complete/cluster/cluster.go:806-844 | Of the users whose sessions lead to that map exactly those can play on who were its players at the tick; every command of the others comes to nothing |
| ClusterCheckpoint.NewcomerIsStranded | Lab/Lab3/complete/cluster/cluster.go:160-201 | A user who logs in between the tick and the loss is left with a session and no player: its commands come to nothing and a new login is refused as a second one |
| ClusterCheckpoint.RecoveryRejoins | Lab/Lab3/complete/cluster/cluster.go:916-942 | A recovered node is healthy and the replica of every map it does not own, with the stored checkpoint as its snapshot; owners, worlds and all other nodes are untouched |
| ClusterCheckpoint.NewClusterPlaces | Lab/Lab3/complete/cluster/cluster.go:83-104 | A new cluster has three healthy nodes and no session; green is on node-a, cave on node-b, ruins on node-a with replicas node-c, node-c, node-b; each world is the stored checkpoint restored, or the built world if none is stored |
| ClusterCopies.PlayBacking | Lab/Lab3/complete/cluster/cluster.go:160-462 | No client request and no background step touches a stored checkpoint, a snapshot, an owner, a replica or the health of a node |
| ClusterCopies.RunKeyed | Lab/Lab3/complete/cluster/cluster.go:740-942 | In every run, failures and recoveries included, each stored checkpoint is that of the map it is stored under |
| ClusterCheckpoint.AlwaysKeyed | Lab/Lab3/complete/cluster/cluster.go:65-107 | So the states in which the rows above hold are all those a new cluster over such a store reaches |
| ClusterSimulation.SimRecover | Lab/Lab3/complete/cluster/cluster.go:916-942 | Recovering a node changes nothing a player sees |
| ClusterSimulation.SimTick | Lab/Lab3/complete/cluster/cluster.go:754-776 | A checkpoint tick changes nothing a player sees except the revivals that are due |
| ClusterRouting.StepRouting | Lab/Lab3/complete/cluster/cluster.go:86-104 | Single writer: every event, unplanned failures included, keeps that node n hosts map m iff it owns it, that a replica is another known node or none, that sessions point to the owner of their map, and that hosted worlds belong to their map |
| ClusterRouting.RunRouting | Lab/Lab3/complete/cluster/cluster.go:806-861 | The same in every run and interleaving |
| ClusterRouting.FailOverMoves | Lab/Lab3/complete/cluster/cluster.go:811-843 | When the replica is a known node with a snapshot (its own or the stored one), failover moves exactly that map: world, ownership, new replica and the sessions on it |
| ClusterRouting.PickReplicaIsOther | Lab/Lab3/complete/cluster/cluster.go:846-861 | The new replica is a healthy node other than the owner, and "" only if there is none |
| ClusterResults.NewClusterRouting | Lab/Lab3/complete/cluster/cluster.go:65-107 | A new cluster satisfies the routing invariant whatever profiles and checkpoints the store holds, as long as each profile is under its own name and no checkpoint version is negative |
| ClusterResults.AlwaysRouted | Lab/Lab3/complete/cluster/cluster.go:65-107 | So does every state that any run of a new cluster reaches |
| ClusterResults.AlwaysGood | Lab/Lab3/complete/cluster/cluster.go:160-224 | From an empty store, in every run with planned failures only: a user with a session is a player of exactly one hosted world, that of the session; a user without is in none; and live units never share a cell while each map has more open cells than users and NPCs |
| ClusterResults.ApartInEveryRun | Lab/Lab3/complete/cluster/cluster.go:160-462 | On maps of any size: in every run without unplanned failures from an empty store in which each player to be placed finds a cell at that moment, no two live units share a cell |
| PlainPlacement.StepApart | Lab/Lab3/complete/cluster/cluster.go:160-462 | Each step of the placement-free system keeps units apart when each placement in it, one after the other, finds a cell |
| PlainProperties.RunGood | Lab/Lab3/complete/cluster/cluster.go:408-462 | The same invariant over all runs of the placement-free system |
| ClusterResults.ReturnInEveryRun | Lab/Lab3/complete/cluster/cluster.go:160-224 | In every state that a run without unplanned failures reaches from an empty store: a live user, on a map whose units stand apart or while all maps have room, who logs out and straight in again is back on the same node and map with all other sessions, owners, replicas and worlds untouched; its own world is as it was up to revivals due on display; and it is itself the same player iff it had a potion left |
| ClusterResults.LiveUserStands | Lab/Lab3/complete/cluster/cluster.go:160-224 | Every such user of every such state satisfies what the next two rows assume: seated, alive with no revival pending, sound, its unit apart, its map in place |
| ClusterResults.ClusterLogoutLogin | Lab/Lab3/complete/cluster/cluster.go:160-224 | The same for the cluster's own Logout and Login in any routed state in which the user is in good standing |
| ClusterResults.LogoutLogin | Lab/Lab3/complete/cluster/cluster.go:160-224 | The same for the system without placement: the map, the player and everybody else as they were, up to revivals due on display and new potions for who had none; the password still opens the account |
| ClusterResults.LogoutLoginIdentity | Lab/Lab3/complete/world/world.go:119-168 | For the player it is the identity if and only if it has a potion left |
| ClusterResults.LogoutLoginDown | Lab/Lab3/complete/world/world.go:133-150 | A player on the ground comes back on the ground with no revival ever to come |
| ClusterResults.ReentryPlayer | Lab/Lab3/complete/world/world.go:127-146 | Re-entry gives back the same player iff its potions are not 0; otherwise it gets three |
| ClusterResults.StandingCellIsFree | Lab/Lab3/complete/world/world.go:764-773 | The cell a live player left is walkable when it comes back |
| ClusterAccounts.RunKeepsHashes | Lab/Lab3/complete/storage/store.go:112-122 | In every run, unplanned failures included, every account keeps its password hash through all saves: the passwords that open it are the same before and after |
| ClusterAccounts.StepKeepsHashes | Lab/Lab3/complete/storage/store.go:112-122 | The same for each event; and only strikes and the boss's return touch the boss |
| ClusterAccounts.RegisteredForever | Lab/Lab3/complete/storage/store.go:57-98 | Whoever registers under a free name can authenticate with that password after every run |
| ClusterEffects.WrongPasswordForever | Lab/Lab3/complete/storage/store.go:82-98 | After the registration and any run, a login with a password of another hash is refused and changes nothing |
| ClusterEffects.LoginRefused | Lab/Lab3/complete/cluster/cluster.go:160-171 | So is one with an unknown name, an empty password, or while the user has a session |
| ClusterEffects.LoginEnters | Lab/Lab3/complete/cluster/cluster.go:160-201 | The right password opens a session at the owner of the last map (the first map if that is unknown), brings the player in as its profile says, files it under map and node and shows the map |
| ClusterEffects.FirstLoginFresh | Lab/Lab3/complete/storage/store.go:57-80 | The first login of a new account: 120 health, 35 attack, 3 potions, nothing else, alive, on green at (4, 4) if that is walkable |
| ClusterEffects.ActTakesEffect | Lab/Lab3/complete/cluster/cluster.go:226-301 | A command that hits no player changes the world of the session by that operation and revivals due on display; the file then shows the player as the world does, and nobody else's file changes |
| ClusterEffects.ActHitsPlayer | Lab/Lab3/complete/cluster/cluster.go:243-267 | An attack on a player likewise, and the victim is filed as the blow left it |
| ClusterEffects.BossSuffers | Lab/Lab3/complete/cluster/cluster.go:303-384 | A strike from at most four steps away takes attack plus half the treasures, at least 20, off a living boss or kills it; from elsewhere, or at a dead boss, it changes nothing about it |
| ClusterEffects.FlushSaves | Lab/Lab3/complete/cluster/cluster.go:624-649 | A flush files the player as its world shows it, and nobody else |
| ClusterEffects.SwitchMoves | Lab/Lab3/complete/cluster/cluster.go:408-462 | A live player who asks for another map is gone from its own and enters the other at the spawn point with all it has; its session leads to the owner there, and it is filed there |
| ClusterEffects.LogoutLeaves | Lab/Lab3/complete/cluster/cluster.go:203-224 | A logout ends the session, takes the player off the map and files it as it stood, under map and node |
| ClusterResults.GroundedForever | Lab/Lab3/complete/world/world.go:119-154 | In every run without unplanned failures: a user whose player lies down with no revival pending, or whose profile was saved so when it left, is never alive again; derived from what is stored, not assumed of it |
| ClusterResults.LogoutGroundsUser | Lab/Lab3/complete/cluster/cluster.go:203-224 | A logout leads there iff the player is not alive, even with its revival pending |
| PlainDown.RenewalGrounds | Lab/Lab3/complete/world/world.go:519-534 | So does a failover of its map, iff the player is not alive when the map is captured |
| PlainDown.StepGrounded | Lab/Lab3/complete/cluster/cluster.go:160-462 | Each step of the placement-free system keeps such a user down, switching maps, logging in and renewed maps included |
| ClusterResults.FortuneInEveryRun | Lab/Lab3/complete/cluster/cluster.go:160-942 | Treasure over the whole cluster: in every run without unplanned failures the treasure of all maps and of all profiles of absent users changes by what commands, boss strikes and background steps make and destroy |
| PlainLedger.StepFortune | Lab/Lab3/complete/cluster/cluster.go:160-462 | Each step changes that sum by its gain, which is 0 for logins, logouts, changes of map, checkpoint ticks, planned failovers and recoveries |
| PlainLedger.BountyIs | Lab/Lab3/complete/cluster/cluster.go:340-406 | What a strike in range of a living boss pays when the contributors are listed once each: nothing unless it is fatal, else 3 treasures for each contributor online and 3 more for the finisher |
| ClusterBoss.NewClusterBossAccounts | Lab/Lab3/complete/cluster/cluster.go:303-406 | The boss's accounts in every run of a new cluster, unplanned failures included, in which it returns only when a timer started by its death fires: dead iff one timer is pending, a living boss has lost exactly what its contributors dealt, at most eighty strikes a life, at most one victory a death |
| ClusterBoss.BossInEveryRun | Lab/Lab3/complete/cluster/cluster.go:303-406 | The same from any cluster whose boss satisfies them |
| ClusterFindings.PotionsComeBack | Lab/Lab3/complete/cluster/cluster.go:160-224 | On every new cluster over an empty store a run of one user (register, log in, heal three times) reaches a state in which it has no potion, and logging out and in gives it three |
| WorldPlacement.RunSeparation | Lab/Lab3/complete/world/world.go:119-432 | In every run in which each player to be placed finds a cell at that moment, no two live units share a cell and all stand on open cells |
| WorldPlacement.ApplySeparation | Lab/Lab3/complete/world/world.go:119-432 | One operation keeps the units apart if there is a cell for each player it must place; for entering, showing a profile and showing the map also only if |
| WorldPlacement.RefreshAllSeparation | Lab/Lab3/complete/world/world.go:434-484 | Refreshing all players in any order keeps the units apart iff each one that is due finds a walkable cell at its turn |
| WorldPlacement.LargeMapPlaces | Lab/Lab3/complete/world/world.go:119-432 | A map with more open cells than different players it ever holds and NPCs always has that cell, however often players come back |
| WorldPlacement.AddSeparation | Lab/Lab3/complete/world/world.go:119-154 | Exactly when bringing a player in keeps the units apart, the fallback to the spawn point included |
| WorldPlacement.RefreshSeparation | Lab/Lab3/complete/world/world.go:854-868 | A revival keeps the units apart iff it is not due or some cell is walkable |
| WorldPlacement.MoveSeparation | Lab/Lab3/complete/world/world.go:182-223 | A move never makes two units share a cell |
| WorldPlacement.AttackSeparation | Lab/Lab3/complete/world/world.go:251-315 | Neither does an attack, drop and knock-down included |
| WorldPlacement.BackgroundSeparation | Lab/Lab3/complete/world/world.go:357-432 | A background step keeps the units apart as soon as its revivals do, on however crowded a map and in any order of the player map |
| WorldPlacement.RoomToWalk | Lab/Lab3/complete/world/world.go:726-744 | More open cells than units leave a walkable cell |
| WorldPlacement.BuiltSeparation | Lab/Lab3/complete/world/world.go:564-574 | A bootstrapped world has its units apart |
| WorldLedger.RunBalance | Lab/Lab3/complete/world/world.go:182-432 | Treasure ledger over every run from any state: wealth on the ground and in pockets changes by minted plus brought in minus spent minus taken out minus overwritten; where ids are fresh and treasures on distinct cells that stays so and nothing is overwritten |
| WorldLedger.ApplyBalance | Lab/Lab3/complete/world/world.go:182-432 | The same for one operation |
| WorldLedger.DropAccount | Lab/Lab3/complete/world/world.go:694-715 | Every drop adds its value and loses exactly the treasure whose id it takes |
| WorldLedger.NothingLost | Lab/Lab3/complete/world/world.go:694-715 | While ids are fresh no operation loses a treasure |
| WorldLedger.DropBalance | Lab/Lab3/complete/world/world.go:694-715 | A drop adds its value to the ground iff it joins a treasure, its id is unused, or what it overwrites was worthless |
| WorldLedger.BuiltLedgered | Lab/Lab3/complete/world/world.go:564-574 | A bootstrapped world satisfies the ledger invariant |
| WorldLedger.RunStrength | Lab/Lab3/complete/world/world.go:317-355 | Over every run in which a player neither leaves nor comes in anew, its attack is what it was plus 6 for each weapon it bought |
| WorldLedger.AttackStrength | Lab/Lab3/complete/world/world.go:343-351 | In one operation a player's attack grows by exactly 6 if it gets a weapon and is kept by everything else |
| WorldCheckpoint.RoundTrip | Lab/Lab3/complete/world/world.go:492-562 | Restoring a capture gives the captured world back up to exactly: potions 0 to 3, pending revivals, id counters, random stream |
| WorldCheckpoint.NormaliseSeparation | Lab/Lab3/complete/world/world.go:506-562 | Restored captures keep the units apart |
| WorldCheckpoint.NormaliseWealth | Lab/Lab3/complete/world/world.go:506-562 | Restored captures keep the wealth |
| WorldFindings.RestoredCounterCollides | Lab/Lab3/complete/world/world.go:560-561 | From every bootstrapped world a run of two users ends in a state with fresh ids whose restored checkpoint makes every drop on a cell without treasure lose another treasure |
| ClusterResults.FailoverThenDrop | Lab/Lab3/complete/cluster/cluster.go:885-914 | After a planned failure a drop on a free cell of a moved map destroys the treasure numbered one more than the treasures there, if there is one, and nothing otherwise |
| WorldFindings.FullMapShares | Lab/Lab3/complete/world/world.go:764-773 | Of n users coming into a bootstrapped world all stand apart iff n + 5 is at most the number of open cells |
| WorldFindings.LeavingCostsRevival | Lab/Lab3/complete/world/world.go:133-150 | A knocked-down player is revived when it stays, and never when it leaves and comes back |
| WorldFindings.DuelKnocksDown | Lab/Lab3/complete/world/world.go:289-314 | Runs lead there: in every bootstrapped world two users with fresh profiles on walkable cells in reach of each other, no NPC in reach of the first, and four strikes knock the second down with its revival pending |
| WorldLife.DownForever | Lab/Lab3/complete/world/world.go:133-150 | In one world, a player that is down with no revival pending stays down in every run if it re-enters only as saved; `ClusterResults.GroundedForever` derives that from the store |
| WorldLife.ComingBackDown | Lab/Lab3/complete/world/world.go:519-534 | Coming back from a profile or a checkpoint, a player is down for good iff it was down, while one that stays is revived at any time it is due |
| WorldLife.BuiltShape | Lab/Lab3/complete/world/world.go:564-574 | A bootstrapped world has version at least 5 (so its captures can be restored), five NPCs and no players |
| WorldModel.SpawnProgress | Lab/Lab3/complete/world/world.go:371-377 | Each turn of the refill loop adds an NPC or uses up an id still to come, so the loop ends |
| WorldScans.SpawnRank | Lab/Lab3/complete/world/world.go:775-808 | bestSpawnCell fails iff no cell is walkable; otherwise it gives a walkable cell with at most 11 walkable cells ahead of it, for every terrain, layout and draw |
| WorldScans.CandidatesRanked | Lab/Lab3/complete/world/world.go:793-807 | Sorting the scored candidates yields the defined ranking of all walkable cells |
| WorldScans.NpcTargetDetermined | Lab/Lab3/complete/world/world.go:264-272 | There is exactly one least (HP, id) NPC in reach as soon as any is in reach, so the map order does not matter |
| WorldScans.PlayerTargetDetermined | Lab/Lab3/complete/world/world.go:289-297 | Likewise for the player target |
| WorldScans.RefreshAllSettles | Lab/Lab3/complete/world/world.go:363-369 | After refreshing all players, in any order, nobody is due |
| WorldObject.World.WalkableFor | Lab/Lab3/complete/world/world.go:726-744 | Tells exactly whether the cell is open and free of live units other than the ignored player |
| WorldObject.World.ScoreCell | Lab/Lab3/complete/world/world.go:810-844 | Computes the spawn score from three nearest-unit scans in any order |
| WorldObject.World.ListCandidates | Lab/Lab3/complete/world/world.go:781-789 | Lists each walkable cell exactly once with its score |
| WorldObject.World.BestSpawnCell | Lab/Lab3/complete/world/world.go:775-808 | Picks the ranked cell that one draw selects |
| WorldObject.World.FindSafePosition | Lab/Lab3/complete/world/world.go:764-773 | The wanted cell, else a spawn cell, else the spawn point |
| WorldObject.World.RefreshPlayer | Lab/Lab3/complete/world/world.go:854-868 | Revives a due player and changes nothing else |
| WorldObject.World.AddOrRestorePlayer | Lab/Lab3/complete/world/world.go:119-154 | New state of the world after a player enters |
| WorldObject.World.RemovePlayer | Lab/Lab3/complete/world/world.go:156-168 | Removes exactly that player and returns its profile |
| WorldObject.World.ProfileOf | Lab/Lab3/complete/world/world.go:170-180 | Refreshes, then shows the profile |
| WorldObject.World.MovePlayer | Lab/Lab3/complete/world/world.go:182-223 | The whole new state is that of the operation of `WorldEffects.MoveGoes` and `MoveStays` |
| WorldObject.World.HealPlayer | Lab/Lab3/complete/world/world.go:225-249 | One potion for at most 30 points, capped at the maximum |
| WorldObject.World.Attack | Lab/Lab3/complete/world/world.go:251-315 | The whole new state, whatever order the maps are listed in, is that of the operation of `WorldEffects.AttackWoundsNpc` and its neighbours: NPCs before players, weakest first, loot, kills and knock-down |
| WorldObject.World.WeakestNpc | Lab/Lab3/complete/world/world.go:264-272 | The scan ends at the unique weakest NPC in reach |
| WorldObject.World.WeakestPlayer | Lab/Lab3/complete/world/world.go:289-297 | The scan ends at the unique weakest player in reach |
| WorldObject.World.BuyItem | Lab/Lab3/complete/world/world.go:317-355 | Shop: prices, cap and effects |
| WorldObject.World.RewardPlayer | Lab/Lab3/complete/world/world.go:596-609 | Adds treasures and victories |
| WorldObject.World.DropTreasure | Lab/Lab3/complete/world/world.go:694-715 | Joins a treasure on the cell or creates one; one per cell is kept |
| WorldObject.World.FindTreasure | Lab/Lab3/complete/world/world.go:717-724 | Finds the treasure on a cell if there is one |
| WorldObject.World.SpawnNPC | Lab/Lab3/complete/world/world.go:663-684 | A new NPC on a spawn cell, refused iff nothing is walkable |
| WorldObject.World.RefillNPCs | Lab/Lab3/complete/world/world.go:371-377 | The refill loop, which terminates |
| WorldObject.World.SpawnTreasure | Lab/Lab3/complete/world/world.go:686-692 | A treasure on a spawn cell |
| WorldObject.World.MaybeTreasure | Lab/Lab3/complete/world/world.go:378-382 | The chance of a chest |
| WorldObject.World.ClosestPlayer | Lab/Lab3/complete/world/world.go:649-661 | The weakest player within the radius; its refreshes change nothing in this step |
| WorldObject.World.Stroll | Lab/Lab3/complete/world/world.go:409-428 | The first walkable heading of four |
| WorldObject.World.TakeTurn | Lab/Lab3/complete/world/world.go:390-428 | One NPC bites or strolls |
| WorldObject.World.BackgroundStep | Lab/Lab3/complete/world/world.go:357-432 | The whole background step |
| WorldObject.World.CaptureCheckpoint | Lab/Lab3/complete/world/world.go:492-504 | Refreshes all players and captures them, NPCs and treasures in name order |
| WorldObject.World.RestoreCheckpoint | Lab/Lab3/complete/world/world.go:506-562 | Replaces the world by the checkpoint |
| WorldObject.LoadPlayers | Lab/Lab3/complete/world/world.go:517-535 | Rebuilds the player map from the views |
| WorldEffects.MoveGoes | Lab/Lab3/complete/world/world.go:182-223 | A live player whose neighbour up (y - 1), down (y + 1), left (x - 1) or right (x + 1) is walkable is then exactly there, with the value of the treasure there, which is gone; nothing else changes |
| WorldEffects.MoveStays | Lab/Lab3/complete/world/world.go:193-209 | A player who is down or whose neighbour is blocked stays, and nothing changes |
| WorldEffects.AttackWoundsNpc | Lab/Lab3/complete/world/world.go:264-287 | The NPC hit is the one with least health at most two steps away, the smaller id between equals; if its health exceeds the attack it loses exactly that, and nothing else changes but the version |
| WorldEffects.AttackKillsNpc | Lab/Lab3/complete/world/world.go:273-287 | Otherwise it is gone, the attacker has one kill more, loot worth 2 to 4 lies on its cell, joined to what lay there, and everybody else is as before |
| WorldEffects.AttackWoundsRival | Lab/Lab3/complete/world/world.go:289-314 | With no NPC that near, the weakest other player that near loses exactly the attack, if it has more |
| WorldEffects.AttackFellsRival | Lab/Lab3/complete/world/world.go:299-314 | Otherwise it is down with no health, one death more and its revival due after 4 seconds, and the attacker has one kill more |
| WorldEffects.AttackMisses | Lab/Lab3/complete/world/world.go:251-298 | With nobody that near, or from a player who is down, nothing changes |
| WorldEffects.SomeoneIsWeakest | Lab/Lab3/complete/world/world.go:264-297 | These cases are all there are: whenever an NPC or a player is that near, one of them is the weakest |
| WorldEffects.RevivalRestores | Lab/Lab3/complete/world/world.go:854-868 | A player whose time has come is up with full health and at least three potions, and keeps attack, treasures and counts |
| WorldEffects.RevivalPlace | Lab/Lab3/complete/world/world.go:764-773 | It stands on the spawn point if that is walkable, else on a walkable cell if there is one |
| WorldEffects.EntrantBrings | Lab/Lab3/complete/world/world.go:119-154 | A newcomer has what its profile says, with 120, 35 and 3 for health, attack and potions saved as 0, and full health for negative health |
| WorldEffects.EntrantStands | Lab/Lab3/complete/world/world.go:125-131 | It stands on its saved cell on its own map and at the spawn point of any other, if that is walkable, else on a walkable cell if there is one |
| WorldEffects.HealGives | Lab/Lab3/complete/world/world.go:225-249 | A live player with a potion gains 30 health up to the maximum and loses one potion; nothing else changes |
| WorldEffects.BuySells | Lab/Lab3/complete/world/world.go:317-355 | A potion costs 3 and is sold up to a stock of 8, a weapon costs 8 and adds 6 attack; nothing else changes |
| WorldEffects.BuyRefused | Lab/Lab3/complete/world/world.go:317-355 | Whoever is down or cannot pay, or has 8 potions, gets nothing and pays nothing |
| WorldEffects.TurnBites | Lab/Lab3/complete/world/world.go:390-408 | An NPC next to players takes its attack off the weakest, who goes down for 4 seconds if that is all it has; nobody else is touched |
| WorldEffects.TurnStrolls | Lab/Lab3/complete/world/world.go:409-428 | With no player next to it it moves to one of the walkable neighbours, and stays only if there is none |
| WorldEffects.BackgroundHurts | Lab/Lab3/complete/world/world.go:357-432 | A whole background step costs each live player exactly the attacks of the NPCs that find it the weakest next to them at their turns; who is down stays as it is |
| WorldEffects.RefillFills | Lab/Lab3/complete/world/world.go:371-377 | The refill leaves at least five NPCs unless no cell is walkable; NPCs that are new are alive with 70 to 99 health and attack 18; players and treasures are untouched |
| WorldEffects.SpawnBrings | Lab/Lab3/complete/world/world.go:663-684 | One spawned NPC, on a cell that was walkable |
| WorldEffects.RoomierIsAhead | Lab/Lab3/complete/world/world.go:810-844 | A cell no nearer to NPCs, players, treasure, the edge and the spawn point and no farther from the middle than another, and better in one of these, is ranked ahead of it |
| BossModel.BossAccounts | Lab/Lab3/complete/cluster/cluster.go:335-402 | Over every interleaving of strikes and timers: while alive HP > 0 and HP plus contributions is the maximum; dead means HP 0 and no contributors; version at most 81; at most one victory per death; a timer is pending iff the boss is dead |
| BossModel.TimerFindsDeadBoss | Lab/Lab3/complete/cluster/cluster.go:664-672 | A respawn timer never replaces a living boss, and there is at most one |
| BossModel.VictoryGoesToFinisher | Lab/Lab3/complete/cluster/cluster.go:356-378 | A fatal strike gives one victory, to its author, and every online contributor at least three treasures |
| BossModel.StrikeTakes | Lab/Lab3/complete/cluster/cluster.go:335-384 | A strike takes its damage off a living boss and credits it to the striker alone; a fatal one leaves it dead for 15 seconds with no contributors |
| BossModel.FatalStrikePays | Lab/Lab3/complete/cluster/cluster.go:356-378 | It pays exactly the contributors online, the striker included: 6 treasures and the victory to the striker, 3 treasures to everyone else |
| BossModel.DamageIs | Lab/Lab3/complete/cluster/cluster.go:321 | The damage is the attack plus half the treasures, rounded down, and at least 20 |
| BossModel.BossState.AttackSection | Lab/Lab3/complete/cluster/cluster.go:335-384 | The critical section: new boss, rewards, and whether a timer starts |
| BossModel.BossState.PayContributors | Lab/Lab3/complete/cluster/cluster.go:361-378 | Rewards exactly the contributors online, finisher 6 and a victory, others 3 |
| BossModel.BossState.Respawn | Lab/Lab3/complete/cluster/cluster.go:1258-1272 | A fresh boss |
| NodeObject.UserStore.Register | Lab/Lab3/complete/storage/store.go:57-80 | New accounts only for non-empty, unused names |
| NodeObject.UserStore.Authenticate | Lab/Lab3/complete/storage/store.go:82-98 | The profile iff the name is known and the hash matches |
| NodeObject.UserStore.SaveProfile | Lab/Lab3/complete/storage/store.go:112-122 | Saves a profile, keeping the stored hash if it brings none |
| NodeObject.UserStore.SaveCheckpoint | Lab/Lab3/complete/storage/store.go:140-146 | Stores the checkpoint under its map |
| NodeObject.UserStore.LoadCheckpoint | Lab/Lab3/complete/storage/store.go:148-171 | The stored checkpoint, the empty one if there is none |
| NodeObject.NodeService.StoreReplica | Lab/Lab3/complete/cluster/cluster.go:1194-1198 | Keeps the snapshot under its map, worlds untouched |
| NodeObject.NodeService.RemoveHostedMap | Lab/Lab3/complete/cluster/cluster.go:1031-1035 | Drops exactly that map |
| NodeObject.NodeService.InstallPrimaryMap | Lab/Lab3/complete/cluster/cluster.go:1037-1045 | Builds the world unless hosted already |
| NodeObject.NodeService.RestorePrimaryMap | Lab/Lab3/complete/cluster/cluster.go:1047-1057 | The hosted (or new) world loads the checkpoint |
| NodeObject.NodeService.Promote | Lab/Lab3/complete/cluster/cluster.go:1200-1213 | The snapshot becomes a new world and is used up |
| ClusterObject.Cluster.Register | Lab/Lab3/complete/cluster/cluster.go:122-130 | Registration reaches the store only |
| ClusterObject.Cluster.Login | Lab/Lab3/complete/cluster/cluster.go:160-201 | The whole new cluster after a login, from a wrong password to the last display |
| ClusterObject.Cluster.Logout | Lab/Lab3/complete/cluster/cluster.go:203-224 | Session gone, player removed, profile saved under map and node |
| ClusterObject.Cluster.Act | Lab/Lab3/complete/cluster/cluster.go:226-301 | Move, attack, heal and buy: routed to the node, victim and actor saved and persisted, map shown |
| ClusterObject.Cluster.AttackBoss | Lab/Lab3/complete/cluster/cluster.go:303-406 | Range check, strike, payment of every contributor once in any order, display |
| ClusterObject.Cluster.RespawnBoss | Lab/Lab3/complete/cluster/cluster.go:664-672 | The boss alone is replaced by a new one |
| ClusterObject.Cluster.SwitchMap | Lab/Lab3/complete/cluster/cluster.go:408-462 | Leaves one map and enters the other, on the same or another node |
| ClusterObject.Cluster.SnapshotFor | Lab/Lab3/complete/cluster/cluster.go:464-490 | Shows the map, which refreshes its players |
| ClusterObject.Cluster.PersistSessionState | Lab/Lab3/complete/cluster/cluster.go:624-649 | Refreshes and saves the user's profile |
| ClusterObject.Cluster.SyncMap | Lab/Lab3/complete/cluster/cluster.go:897-906 | Captures a map, stores the checkpoint and hands it to the replica |
| ClusterObject.Cluster.TickMap | Lab/Lab3/complete/cluster/cluster.go:761-775 | One map's turn in the checkpoint loop is the step of `ClusterCheckpoint.TickCaptures` |
| ClusterObject.Cluster.CheckpointTick | Lab/Lab3/complete/cluster/cluster.go:740-781 | One pass of the checkpoint loop is a run of one such step per map |
| ClusterObject.Cluster.PickReplica | Lab/Lab3/complete/cluster/cluster.go:846-861 | The least healthy node id other than the owner |
| ClusterObject.Cluster.FailOverMap | Lab/Lab3/complete/cluster/cluster.go:811-843 | One map's turn in a failover, with the stored checkpoint as second chance |
| ClusterObject.Cluster.HandleNodeFailure | Lab/Lab3/complete/cluster/cluster.go:806-844 | The whole failover, over the owners in any order |
| ClusterObject.Cluster.Heartbeat | Lab/Lab3/complete/cluster/cluster.go:724-733 | One node's turn in the heartbeat loop is the step of `ClusterTakeover.HeartbeatTakesOver` and `HeartbeatNotes` |
| ClusterObject.Cluster.FailNode | Lab/Lab3/complete/cluster/cluster.go:885-914 | The whole planned failure: every hosted map captured in order, then failover |
| ClusterObject.Cluster.RecoverNode | Lab/Lab3/complete/cluster/cluster.go:916-942 | Healthy again, and replica of every map it does not own |
| ClusterObject.Cluster.LiveMap | Lab/Lab3/complete/cluster/cluster.go:1170-1192 | One map's background step on a healthy node |
| ClusterObject.Cluster.Place | Lab/Lab3/complete/cluster/cluster.go:93-104 | One map placed on owner and replica |
| ClusterObject.NewCluster | Lab/Lab3/complete/cluster/cluster.go:65-107 | The new cluster object has the state NewCluster defines, all nodes with disjoint worlds |
| ClusterObject.RerouteAll | Lab/Lab3/complete/cluster/cluster.go:837-842 | Exactly the sessions on the map get the new node |
| ClusterObject.FirstHealthy | Lab/Lab3/complete/cluster/cluster.go:846-861 | The first healthy node in order that is not the owner |
| ClusterObject.Cluster.WorldMoved | Lab/Lab3/complete/cluster/cluster.go:1059-1192 | Framing: a request that touches one hosted world changes that world in the cluster and nothing else |
| WarzoneRounds.EveryRun | warzone_go/internal/server/game.go:187-325 | After every run, in any interleaving of connections: two live fighters while a round is underway, at most one when over; no round of n starters takes more than 7n-1 strikes; kills equal deaths over the starters' slots; every record has wins + losses = games; wins on file grew by the credited rounds |
| WarzoneRounds.StepKept | warzone_go/internal/server/conn.go:35-240 | Every critical section keeps the invariant: slots injective and held by named playing connections, empty slots never alive, the living in health and on the map, weapons on distinct cells with nobody alive on them, round accounts |
| WarzoneEffects.StrikeWounds | warzone_go/internal/server/game.go:219-246 | A strike hits the nearest live opponent at most 3 steps away, the lower slot between equals, and takes exactly 30 points from it if the striker is armed, 15 if not; the striker is then unarmed and nothing else changes |
| WarzoneEffects.StrikeKills | warzone_go/internal/server/game.go:256-279 | If that is all the victim has, it is dead and marked so, the striker has one kill more and no weapon, and the round is over with the striker as its winner iff two were left |
| WarzoneEffects.StrikeMisses | warzone_go/internal/server/game.go:232-240 | With no live opponent that near a strike changes nothing; the weapon is kept |
| WarzoneEffects.StrikeFinds | warzone_go/internal/server/game.go:219-231 | Somebody is hit iff a live opponent is that near |
| WarzoneEffects.StrongStrikesArePaid | warzone_go/internal/server/game.go:187-280 | Over every run, in any interleaving, the strikes of 30 points number at most the weapons taken plus the fighters armed at its start, and the weapons taken at most the ticks of the weapon ticker plus the weapons lying at its start |
| WarzoneEffects.StrongStrikesOfRound | warzone_go/internal/server/game.go:60-133 | From the start of a round on both extra terms are 0: nobody is armed and no weapon lies there |
| WarzoneEffects.StepArms | warzone_go/internal/server/game.go:173-185 | One step: a strong strike uses up an armed fighter, a taken weapon makes at most one and uses up a lying one, which only the ticker puts down |
| WarzoneEffects.MoveWalks | warzone_go/internal/server/game.go:200-217 | A move leads one cell up (y - 1), down, left or right, stopped by the edge of the 36 by 12 map; an active weapon there is taken and arms the fighter; nothing else changes |
| WarzoneEffects.IdleAction | warzone_go/internal/server/game.go:187-198 | An action of somebody not alive in a round underway changes nothing |
| WarzoneEffects.ReadyStarts | warzone_go/internal/server/conn.go:207-226 | Asking for a round starts it iff everybody seated is then ready and at least two are seated |
| WarzoneEffects.RoundBegins | warzone_go/internal/server/game.go:60-133 | It begins with everybody seated alive with 100 health, unarmed, not ready, without kills and death, on the starting cell of its rank among them (two: (2, 2) and (33, 9); three: (17, 5) as well; else the four corners, then the middle), with nobody else alive and no weapon lying; the files are untouched |
| WarzoneEffects.LoginAttempt | warzone_go/internal/server/conn.go:77-127 | A login attempt leads to the lobby iff the first record of the name has the hash of the password, and closes the connection at the tenth failure; nothing else changes |
| WarzoneEffects.TenFailures | warzone_go/internal/server/conn.go:77-127 | From a new connection on, nine failed logins in a row leave it open and the tenth closes it |
| WarzoneEffects.AcceptOpens | warzone_go/internal/server/server.go:85-100 | A new connection takes the first free entry of the table, without a failure yet |
| WarzoneEffects.SpawnPuts | warzone_go/internal/server/game.go:135-171 | A tick of the weapon ticker puts one weapon on the first drawn cell that neither a live fighter nor a weapon occupies, if fewer than six lie there |
| WarzoneRounds.RoundEndsWithSurvivor | warzone_go/internal/server/game.go:281-325 | A round ends only by leaving exactly one fighter alive, whose connection is the winner; no disconnect abandons it otherwise |
| WarzoneRounds.CheckOverMeans | warzone_go/internal/server/game.go:282-304 | With somebody alive the "everyone died" branch is not taken; the end writes the results once |
| WarzoneRounds.VisibleRun | warzone_go/internal/server/game.go:329-345 | While nobody registers a name beginning with "#", total wins on file grow by exactly the number of finished rounds |
| WarzoneRounds.RunKept | warzone_go/internal/server/game.go:329-345 | Without that condition they grow by the rounds whose winner's name the files show |
| WarzoneRounds.SavedWins | warzone_go/internal/server/game.go:329-345 | Of all results saved for a round only the winner's adds a win |
| WarzoneTallies.RunTallies | warzone_go/internal/server/game.go:329-345 | Over every run the kills and deaths on file grow by exactly what the slots occupied at the end of each round hold, for names that the files show |
| WarzoneTallies.StepFiles | warzone_go/internal/server/game.go:282-345 | A step changes the statistics only by a registration or by ending the round, and then files the room it leaves |
| WarzoneTallies.WholeRound | warzone_go/internal/server/game.go:260-345 | If exactly the starters sit there at the end and their names show, the round files all its kills and as many deaths |
| WarzoneTallies.JoinInherits | warzone_go/internal/server/conn.go:146-189 | Whoever takes a free slot takes over the kills and the death of its predecessor, to be filed under its name; it takes over nothing iff there are none |
| WarzoneInheritance.DeathInherited | warzone_go/internal/server/game.go:307-345 | A run from an empty server, for any four admissible names: three fight, the third is killed and leaves, the fourth takes its slot, the first wins. On file the third has neither game nor death, and the fourth, who was in no fight, has one death and one loss |
| WarzoneRounds.HurtToughness | warzone_go/internal/server/game.go:242-250 | A strike that is not fatal lowers the sum of ceil(health/15) by at least one and kills nobody |
| WarzoneRounds.SlainToughness | warzone_go/internal/server/game.go:260-272 | So does a fatal one, which leaves one fighter fewer |
| WarzoneRounds.StartsApart | warzone_go/internal/server/game.go:71-99 | The starters of a round stand on different cells |
| WarzoneRounds.ResetScored | warzone_go/internal/server/game.go:93-123 | A round begins with no kills, no deaths and seven strikes of health per starter |
| WarzoneServer.Server.ConnToGameSlot | warzone_go/internal/server/game.go:28-35 | The first slot of a connection |
| WarzoneServer.Server.GameOnline | warzone_go/internal/server/game.go:38-46 | Counts the occupied slots |
| WarzoneServer.Server.GameReady | warzone_go/internal/server/game.go:49-57 | Counts the ready ones |
| WarzoneServer.Server.ResetGame | warzone_go/internal/server/game.go:60-132 | Starts a round: starting cells by rank, health, flags, counters, weapons |
| WarzoneServer.Server.SpawnWeapon | warzone_go/internal/server/game.go:135-170 | A weapon in the first idle place on the first of at most fifty random cells that is not busy, none if all are |
| WarzoneServer.Server.CheckPickup | warzone_go/internal/server/game.go:173-184 | The first weapon on the fighter's cell is taken |
| WarzoneServer.Server.ApplyAction | warzone_go/internal/server/game.go:187-280 | An action has the whole effect of the step of `WarzoneEffects.MoveWalks`, `StrikeWounds` and `StrikeKills` |
| WarzoneServer.Server.FindTarget | warzone_go/internal/server/game.go:219-231 | The nearest live opponent, lowest slot first |
| WarzoneServer.Server.AttackFrom | warzone_go/internal/server/game.go:219-279 | A strike from the slot has the whole effect of `WarzoneEffects.StrikeWounds`, `StrikeKills` and `StrikeMisses` |
| WarzoneServer.Server.CheckGameOver | warzone_go/internal/server/game.go:282-304 | Ends the round when at most one is alive |
| WarzoneServer.Server.RemoveFromGame | warzone_go/internal/server/game.go:307-325 | Frees the slot, settles the round, clears the room when empty |
| WarzoneServer.Server.SaveStats | warzone_go/internal/server/game.go:329-345 | One update per occupied slot with a named connection, in slot order |
| WarzoneServer.Server.Accept | warzone_go/internal/server/server.go:85-100 | Takes the first free connection entry |
| WarzoneServer.Server.TryAuth | warzone_go/internal/server/conn.go:77-127 | One attempt of at most ten |
| WarzoneServer.Server.Join | warzone_go/internal/server/conn.go:146-189 | Takes the first empty slot, or stays in the lobby |
| WarzoneServer.Server.Ready | warzone_go/internal/server/conn.go:207-226 | Sets the flag and starts the round when all of at least two are ready |
| WarzoneServer.Server.Drop | warzone_go/internal/server/conn.go:35-44 | A disconnect in any phase |
| WarzoneServer.Server.Serve | warzone_go/internal/server/conn.go:16-256 | Any step of the server is the step of the model |
| WarzoneServer.StartCell | warzone_go/internal/server/game.go:71-95 | The two tables give the starting cell of each rank |
| WarzoneServer.TargetUnique | warzone_go/internal/server/game.go:219-231 | The nearest opponent is unique |
| WarzoneDatabase.StatsRoundTrip | warzone_go/internal/database/database.go:251-302 | Loading saved statistics gives back, in order, exactly the records whose names do not begin with "#": all of them iff there is no such name |
| WarzoneDatabase.UsersRoundTrip | warzone_go/internal/database/database.go:208-249 | The same for the users file |
| Decimal.RoundTrip | warzone_go/internal/database/database.go:269-273 | Reading back a printed number gives the number, negative ones included |
| WarzoneAccounts.UpdateThroughFile | warzone_go/internal/database/database.go:147-189 | An update through load and save is seen by later loads, unless the name begins with "#": then not at all |
| WarzoneAccounts.UpdateAccounts | warzone_go/internal/database/database.go:147-189 | One update adds one game, and a win exactly when it says so; wins + losses = games is kept |
| WarzoneAccounts.UpdateRecords | warzone_go/internal/database/database.go:147-189 | The first record of the name gets one game, the win or the loss, the kills, the death and the time; a name without a record gets one with just these |
| WarzoneAccounts.UpdateElsewhere | warzone_go/internal/database/database.go:153-169 | Only the first record of the name changes |
| WarzoneAccounts.RegisterThroughFile | warzone_go/internal/database/database.go:82-115 | After a registration the user can log in iff the name does not begin with "#" |
| WarzoneFindings.HashNameIsLost | warzone_go/internal/database/database.go:82-115 | The name "#ab" is accepted on empty files, and after a load neither file shows it and its password opens nothing |
| WarzoneFindings.HashWinner | warzone_go/internal/server/game.go:282-345 | A run of nine steps from an empty server finishes a round that "#ab" wins, and no win is on file |
| DatabaseObject.Database.RegisterUser | warzone_go/internal/database/database.go:82-115 | Succeeds exactly for names of 1 to 30 characters without bars and newlines that are not taken and passwords of at least 4; both files then show the new records |
| DatabaseObject.Database.Login | warzone_go/internal/database/database.go:118-131 | Succeeds iff the first record of the name has the hash |
| DatabaseObject.Database.UpdateStats | warzone_go/internal/database/database.go:147-189 | The records a later load sees are the updated ones; the users file is untouched |
| DatabaseObject.Database.LoadStatsLocked | warzone_go/internal/database/database.go:251-285 | The scanning loop finds exactly the parsed records |
| DatabaseObject.Database.SaveStatsLocked | warzone_go/internal/database/database.go:287-302 | The writing loop produces the defined text |
| GridSearch.BuildPath | Lab/Lab3/test/autotest.go:649-718 | Sound, complete and shortest: a path is returned iff one exists (on a map with a non-empty first row); the cell reached by counting its words is a goal; it leads over open cells with no NPC and no earlier goal on the way, and no path is shorter; the search ends |
| GridSearch.ReachesIsRoute | Lab/Lab3/test/autotest.go:661-674 | What the search looks for, without the step function it uses: a path reaches a goal iff it can be read as a list of cells, each one row up, one row down, one column left or one column right of the one before as the word says, all passable, the last a goal |
| GridSearch.EndCounts | Lab/Lab3/test/autotest.go:666-674 | Any path ends as many columns right as it has "right" more than "left", and as many rows down as it has "down" more than "up" |
| GridSearch.SearchFrom | Lab/Lab3/test/autotest.go:682-717 | The search loop itself |
| GridSearch.GoalIsFar | Lab/Lab3/test/autotest.go:687-716 | While no goal was entered, every way to a goal passes a waiting cell and is longer than the distance of the front of the queue |
| GridSearch.TraceBack | Lab/Lab3/test/autotest.go:707-711 | Reads the way back from the goal and turns it round |
| GridSearch.PathToWalks | Lab/Lab3/test/autotest.go:703-711 | That way is a walk from the start to the cell, as long as its distance |
| GridSearch.ReverseStrings | Lab/Lab3/test/autotest.go:720-724 | Reverses in place |
| GridSearch.BackwardsAt | Lab/Lab3/test/autotest.go:720-724 | Element k of the reversal is element n-1-k of the original |
| GridSearch.Block | Lab/Lab3/test/autotest.go:655-660 | Exactly the cells of living NPCs are blocked |
| RespawnTimers.TimersMatchTheDead | Lab/Lab2/complete/world/world.go:152-213 | In every reachable state of every interleaving a present player is dead iff exactly one timer is pending for it, alive iff none; every kill started one timer |
| RespawnTimers.TimerRevivesOnly | Lab/Lab2/complete/world/world.go:240-252 | A timer that wakes revives its dead player or does nothing; nobody alive is touched |
| RespawnTimers.GoneForGood | Lab/Lab2/complete/world/world.go:90-108 | Ids are not used again, so a leftover timer finds nobody |
| RespawnTimers.HitSound | Lab/Lab2/complete/world/world.go:180-211 | A blow keeps the invariant and starts a timer iff it kills |
| RespawnTimers.BlowTakes | Lab/Lab2/complete/world/world.go:176-211 | A blow takes 30 points and nothing else, or kills: no health left, one kill more, one timer of the victim more; nobody else is touched |
| RespawnTimers.PotionGives | Lab/Lab2/complete/world/world.go:217-236 | A potion gives 40 points up to the maximum; without one, or for the dead, nothing changes |
| RespawnTimers.StepLeads | Lab/Lab2/complete/world/world.go:113-146 | A step leads to the neighbour in its direction if that is on the map of 30 by 20, and nowhere otherwise |
| RespawnTimers.TimerRestores | Lab/Lab2/complete/world/world.go:240-252 | A timer brings its player back where it was told to, with full health and five potions |
| RespawnTimers.World.AttackPlayer | Lab/Lab2/complete/world/world.go:152-213 | Hits an opponent of least health in reach, whichever the map lists first, and starts a timer for the dead |
| RespawnTimers.World.FindTarget | Lab/Lab2/complete/world/world.go:162-174 | Finds an opponent of least health in reach iff there is one |
| RespawnTimers.World.HealPlayer | Lab/Lab2/complete/world/world.go:217-236 | One potion for at most 40 points |
| RespawnTimers.World.MovePlayer | Lab/Lab2/complete/world/world.go:113-146 | One step within the map |
| RespawnTimers.World.AddPlayer | Lab/Lab2/complete/world/world.go:90-99 | A newcomer under the next id |
| RespawnTimers.World.RemovePlayer | Lab/Lab2/complete/world/world.go:103-108 | Removes the player; its timers stay |
| RespawnTimers.World.Respawn | Lab/Lab2/complete/world/world.go:240-252 | A timer wakes |

## Left out

- ClusterFailover.Simulation: does not cover heartbeats that discover an unplanned failure, because the code then restores an older checkpoint and loses what came after it; `ClusterTakeover.HeartbeatSeen` says what players see of them
- ClusterObject.Cluster.CheckpointTick: does not say in which order the maps are visited, because a Go map has none; each map has its one tick
- ClusterObject.Cluster.Act: the lists of events shown to users, their texts and the session versions are not modelled, and neither is which error text a refused request returns
- ClusterBoss.BossInEveryRun: does not model how long a timer sleeps; the boss may return any time after its death
- PlainLedger.StepFortune: what the heartbeats that discover an unplanned failure lose with an older checkpoint is not in the account
- ClusterObject.NewCluster: places the maps in one fixed order, while the source ranges over a map; worlds built by the initial filling loops are given as a function, because these loops need not end for every random source
- ClusterObject.Cluster.RecoverNode: the listeners of nodes, their ports and the pings are not modelled; starting and stopping a node always succeeds
- WorldObject.World.RestoreCheckpoint: keeps one treasure per cell only if the checkpoint has it, because a checkpoint file may hold anything; stores and clusters are given with such checkpoints
- WorldObject.World: players, NPCs and treasures are values in the maps of the world instead of shared objects, so aliasing between two entries is not captured; update times (`LastUpdate`) are dropped
- NodeObject.UserStore: hot sessions, which are written and never read back, and the JSON files with their atomic renames are not modelled; saving always succeeds
- NodeObject.NodeService: its methods that only pass a request to a hosted world are folded into the cluster methods ending in `On`
- WarzoneServer.Server: packets, broadcasts, heartbeats and event texts are not modelled; one step covers a whole section of the game lock with the connection table updates in it
- WarzoneServer.Server.TryAuth: the leaderboard and the statistics request, which only read, are not modelled
- DatabaseObject.Database: file errors and the scanner's limit on the length of a line are not modelled; the hash of a password is an arbitrary text without bars
- GridSearch.BuildPath: the walking loop of the test client around the search is not modelled
- RespawnTimers.World: the network connections of players and the texts sent to them are not modelled
- The widths of Go's integers: all quantities are unbounded here; the warzone invariant keeps health within -29 to 100 and positions on the map, so its narrow fields do not overflow
- Client programs, terminal input, rendering and the C++ server, which repeats the Go one
- Lab 1 and the layouts of the three maps: terrain is a parameter
- `randomOpenCellLocked` and `respawnPlayer` in `world.go`, which nothing calls
