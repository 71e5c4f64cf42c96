# Survival shooter: client simulation and relay server, modelled in Dafny

This project models the core of a small browser multiplayer survival shooter
and its relay server. Each client runs its own simulation. The player moves
with the W/A/S/D keys and fires projectiles. Enemies spawn just outside the
canvas and chase the player. A projectile that touches an enemy kills it. An
enemy that touches the player costs 10 health. Waves are timed: wave n asks
for 10·n kills within 30 + 5·n seconds. Meeting the target starts wave n + 1;
missing it stops the wave and spawn timers for good. Every frame the client
sends its position and health to the server. The server keeps one record per
connection and, about 30 times a second, sends the full list of records to
every open client. Each client shows the list minus its own record.

Modules:

- `Protocol` (protocol.dfy): the `init`, `playerUpdate` and `gameState` messages, as values.
- `Geometry` (geometry.dfy): the 800×600 canvas and the strict bounding-box test `checkCollision`.
- `Entities` (entities.dfy): player, projectile and enemy, and the rules for one entity at a time. These are key movement, projectile advance and exit, the spawn position and the shot origin.
- `Waves` (waves.dfy): the parameters of a wave as functions of its number, the once-a-second tick, and what a run of ticks does.
- `Frame` (frame.dfy): the two removal loops of `update` as functions. Each is a `forEach` that `splice`s the array it walks (see below).
- `RemoteView` (remote_view.dfy): the filter the client applies to a `gameState` list.
- `Client` (game.dfy): class `Game`. It holds the client's globals (`wave`, `enemiesToKill`, `enemiesKilledThisWave`, `waveTimer`, the player, the projectile and enemy arrays, the remote view, the local id) and a `timersRunning` flag that stands for the two intervals. Its methods change these fields in place: `StartWave`, `Tick`, `SpawnTick`, `Fire`, `MovePlayer`, `MoveProjectiles` (with `ResolveHits` for its inner loop), `MoveEnemies`, `Update`, `OnMessage`. Each loop is proved against the spec function in `Frame` or `RemoteView`.
- `Server` (registry.dfy): class `Registry`, for the server's `Map` from connection to record. `order` holds the Map's insertion order and `records` holds the Map's entries. The methods are the connection handler, the `message` handler, the `close` handler and the broadcast callback.

How the removal loops behave. `Array.prototype.forEach` fixes its number of
visits when it starts. It visits index k only while k is below the array's
current length. So after `splice(i, 1)`, the element that slides into index i
is not visited in that pass. `splice` at an index past the end removes
nothing. The model keeps this behaviour and does not correct it. Four
lemmas show its effects on concrete inputs, and a fifth shows that health is
not clamped:

- one projectile over two enemies kills both, and its second `splice(pIndex, 1)` removes a different projectile that hit nothing (`OneShotRemovesTwoProjectiles`);
- an overlapping enemy that slides into a visited index survives the frame (`SlidInEnemyEscapes`);
- a projectile that slides in after an exit is neither moved nor tested (`SlidInProjectileNotMoved`);
- a second enemy on the player costs no health in that frame (`SlidInContactSkipped`);
- health is not clamped (`HealthGoesNegative`).

Behaviours of the code a reader might not expect, which the model keeps:

- The spawn delay is `1000 - 50·wave` with no floor. It is zero or negative from wave 20 on (`Waves.SpawnDelay`).
- A projectile is discarded as soon as any part of it crosses an edge of the canvas, not only once it has fully left (`Entities.PartlyOutsideIsDiscarded`).
- The code does not resolve every overlapping projectile–enemy pair in each frame (the lemmas above).
- The globals start with `waveTimer = 30`, but the top-level `startWave()` sets it to 35 before the first tick (`Client.Game.constructor`).

## Model

| member | source | states |
|---|---|---|
| `Geometry.CheckCollision` | public/game.js:156-163 | rectangles that only share an edge, on either axis and from either side, do not collide |
| `Geometry.CollisionIsCommonInterior` | public/game.js:156-163 | for rectangles of positive size the test holds exactly when some point lies strictly inside both; hence the test is symmetric |
| `Entities.Axis` | public/game.js:166-177 | one axis of key movement is 0 exactly when both or neither of its keys are held (opposite keys cancel), +1 or -1 when only one is |
| `Entities.OffScreen` | public/game.js:197-202 | a projectile is discarded exactly when its square of half-side `radius` is not within [0,800]×[0,600] |
| `Entities.PartlyOutsideIsDiscarded` | public/game.js:192-203 | a projectile whose move takes part of it across an edge is discarded while it still overlaps the canvas |
| `Entities.Advance` | public/game.js:193-194 | a projectile moves by its velocity once per frame (definition; used by `Frame.ProjectileScan` and `Frame.OffScreenNeverHits`) |
| `Entities.Seek` | public/game.js:228-233 | an enemy moves by the seek step given for it (definition; the step's trigonometry is a parameter, see "## Left out") |
| `Entities.Shot` | public/game.js:147-153 | a fired projectile has radius 5 and the given velocity, and is centred on the player's square |
| `Entities.SpawnedEnemy` | public/game.js:74-95 | a spawned enemy has size 30 and speed 2, does not overlap the canvas, and lies within two enemy sizes of it |
| `Waves.Started` | public/game.js:97-104 | the wave state `startWave` sets up for wave n (definition; its properties are `Waves.WaveLifetime` and `Client.Game.StartWave`) |
| `Waves.NextTick` | public/game.js:107-120 | one firing of the wave interval (definition; its properties are `Waves.Countdown`, `Waves.WaveOutcome`, `Waves.CancelledIsFinal`, and `Client.Game.Tick` is proved against it) |
| `Waves.Ticks` | public/game.js:106-120 | m firings of the wave interval in a row (definition; `Waves.Countdown`, `Waves.CancelledIsFinal` and `Waves.WaveLifetime` are about it) |
| `Waves.SpawnDelay` | public/game.js:104 | the spawn delay `1000 - 50·n` is non-positive exactly from wave 20 on, and below 1000 ms exactly from wave 1 on |
| `Waves.Countdown` | public/game.js:107-109 | while the timer has not run out, each tick takes exactly 1 off `waveTimer` and changes nothing else |
| `Waves.WaveOutcome` | public/game.js:107-120 | the tick that brings the timer to 0 cancels both timers and keeps the wave number when kills < target, and otherwise starts wave n + 1 with its derived parameters |
| `Waves.CancelledIsFinal` | public/game.js:110-113 | once the timers are cancelled, any number of ticks changes nothing |
| `Waves.WaveLifetime` | public/game.js:97-120 | a started wave n stays live for exactly 30 + 5n ticks; it is then lost when kills < 10n, and otherwise wave n + 1 begins |
| `Frame.Splice` | public/game.js:203 | `splice(i, 1)` shortens the array by one when i is an index of it and leaves its length alone when i is past the end |
| `Frame.SpliceContents` | public/game.js:203 | after `splice(i, 1)` every element before i is where it was and every later one has moved down one place |
| `Frame.SpliceShrinks` | public/game.js:220-221 | a splice never adds an element: the result's multiset is contained in the original's |
| `Frame.HitScan` | public/game.js:208-224 | the inner `enemies.forEach` with its splices, from any visit on (definition; `Frame.HitScanAccounts` and `Frame.MissChangesNothing` are about it, `Client.Game.ResolveHits` is proved against it) |
| `Frame.ProjectileScan` | public/game.js:192-225 | the outer `projectiles.forEach` from any visit on (definition; `Frame.ProjectileScanAccounts` and `Frame.OffScreenNeverHits` are about it) |
| `Frame.ProjectilePass` | public/game.js:192-225 | the whole projectile loop of a frame (definition; `Frame.ProjectilePassAccounts` and the concrete lemmas below are about it, `Client.Game.MoveProjectiles` is proved against it) |
| `Frame.HitScanAccounts` | public/game.js:208-224 | in the inner loop each hit removes exactly one enemy and adds exactly one kill; only existing enemies are removed; projectiles never multiply |
| `Frame.ProjectileScanAccounts` | public/game.js:192-225 | the same accounting for the outer projectile loop from any visit on |
| `Frame.ProjectilePassAccounts` | public/game.js:192-225 | over one frame, kills plus live enemies is preserved, the remaining enemies are a sub-multiset of the old ones, and no projectile is added |
| `Frame.OffScreenNeverHits` | public/game.js:196-205 | a projectile that leaves the canvas after its move is spliced out before any collision test, so it removes no enemy even when it overlaps one: when every projectile still to be visited either leaves or overlaps no enemy, the loop removes no enemy and counts no kill |
| `Frame.MissChangesNothing` | public/game.js:208-224 | an inner loop whose projectile overlaps no enemy leaves projectiles, enemies and kills as they were |
| `Frame.OneShotRemovesTwoProjectiles` | public/game.js:208-223 | a projectile over enemies 0 and 2 kills both, and its second splice removes the other projectile too |
| `Frame.SlidInEnemyEscapes` | public/game.js:208-224 | of two adjacent enemies under one projectile, only the first is removed; the second slides into the visited index and survives |
| `Frame.SlidInProjectileNotMoved` | public/game.js:192-205 | the projectile that slides into the index of a discarded one is neither moved nor tested in that frame |
| `Frame.ContactScan` | public/game.js:227-246 | the `enemies.forEach` that moves, tests and splices, from any visit on (definition; `Frame.ContactScanAccounts` is about it) |
| `Frame.ContactPass` | public/game.js:227-246 | the whole enemy loop of a frame (definition; `Frame.ContactPassAccounts`, `Frame.SlidInContactSkipped` and `Frame.HealthGoesNegative` are about it, `Client.Game.MoveEnemies` is proved against it) |
| `Frame.ContactScanAccounts` | public/game.js:227-246 | from any visit on, each removed enemy costs exactly 10 health with no clamp, and the timers end cancelled exactly when they were live and some contact brought health to 0 or below |
| `Frame.ContactPassAccounts` | public/game.js:227-246 | the same for the whole enemy loop of one frame |
| `Frame.NoContactCostsNothing` | public/game.js:227-246 | an enemy is removed only when it overlaps the player after its step: when none still to be visited does, the loop costs no health, leaves the timers as they were, removes no enemy, moves each visited enemy by its step and leaves the others untouched |
| `Frame.SlidInContactSkipped` | public/game.js:227-246 | with two enemies on the player, one contact costs 10 health and the second enemy is skipped that frame |
| `Frame.HealthGoesNegative` | public/game.js:236-244 | a contact at 5 health leaves -5 and cancels the timers |
| `RemoteView.Kept` | public/game.js:26 | a record stays in the view exactly when its id differs from the local id (definition; `RemoteView.Others` is stated in terms of it) |
| `RemoteView.Others` | public/game.js:22-29 | the view holds only records from the list whose id is not the local id, and every such record of the list |
| `RemoteView.OthersOfConcat` | public/game.js:24-29 | filtering commutes with concatenation, so the view keeps the server's order |
| `RemoteView.OthersBeforeInit` | public/game.js:9 | before `init` the local id is null and the view is the whole list, own record included |
| `Client.Game.constructor` | public/game.js:41-72 | the script's start: player at (400, 300) with 100 health and no id, no entities, no remote view, and wave 1 started (target 10, timer 35, delay 950, timers live) |
| `Client.Game.StartWave` | public/game.js:97-104 | after `startWave`: `enemiesToKill = 10·wave`, `enemiesKilledThisWave = 0`, `waveTimer = 30 + 5·wave`, no enemies, spawn delay `1000 - 50·wave`, both timers live; nothing else changes |
| `Client.Game.Tick` | public/game.js:107-120 | one firing of the wave interval moves the wave counters as `NextTick` does (whose lemmas are above); the enemies are cleared exactly when a new wave starts |
| `Client.Game.SpawnTick` | public/game.js:87-94 | while the timers are live each firing appends exactly one spawned enemy; once cancelled it does nothing |
| `Client.Game.Fire` | public/game.js:141-154 | a click appends exactly one projectile, fired from the player's centre |
| `Client.Game.MovePlayer` | public/game.js:166-177 | held keys move the player by exactly 5 per axis, opposite keys cancelling, with no diagonal normalisation; health and id unchanged |
| `Client.Game.MoveProjectiles` | public/game.js:192-225 | the in-place loop leaves what `ProjectilePass` describes; kills plus enemies is preserved and enemies are only removed |
| `Client.Game.ResolveHits` | public/game.js:208-224 | the inner loop for one projectile leaves exactly what `HitScan` describes, starting from the first enemy with the visit count fixed at the array's length when the loop starts |
| `Client.Game.MoveEnemies` | public/game.js:227-246 | the in-place loop leaves what `ContactPass` describes; health drops by exactly 10 per removed enemy; the timers are cancelled exactly when a contact brought health to 0 or below |
| `Client.Game.Update` | public/game.js:165-247 | one frame: the movement, a `playerUpdate` with the moved position and pre-contact health sent exactly when the channel is open, then the projectile loop, then the enemy loop |
| `Client.Game.OnMessage` | public/game.js:16-31 | `init` stores the id as the local and the player's id; `gameState` replaces the remote view by the list minus the local id's records, in order |
| `Client.OneEnemyContact` | public/game.js:227-246 | at wave 1 with 100 health and one enemy just left of the player, one enemy loop steps it onto the player and leaves 90 health, no enemy and the timers live |
| `Server.Without` | server.js:37 | deleting a connection from the ordered key list keeps every other key, keeps them distinct, and shortens the list by one when the key was there |
| `Server.WithoutIsSplice` | server.js:37 | deleting a key from a list without repetitions splices it out at its index, so the remaining keys keep their insertion order |
| `Server.DistinctCardinality` | server.js:43-46 | a key list without repetitions has as many entries as its set of keys, so the snapshot has one entry per record |
| `Server.OpenConnections` | server.js:48-52 | a connection is a recipient exactly when the client set holds it in the OPEN state |
| `Server.Deliveries` | server.js:49-51 | one delivery per recipient, in order, all carrying the same `gameState` |
| `Server.Registry.constructor` | server.js:11 | the registry starts empty |
| `Server.Registry.Connect` | server.js:13-20 | registering stores `{id, x: 0, y: 0, health: 100}` under the new connection, leaves every other record and the order of the rest unchanged, grows the size by one, and emits exactly one `init` with the stored id, to that connection only |
| `Server.Registry.Receive` | server.js:22-33 | a `playerUpdate` overwrites x, y and health of the sender's record only, keeping its id; from a connection without a record, or for another message type, the registry is unchanged |
| `Server.Registry.Close` | server.js:35-38 | closing removes exactly that connection's record, shrinking the size by one, and leaves the others untouched |
| `Server.Registry.Snapshot` | server.js:43-46 | one entry per registered connection, in insertion order, and every record appears in it |
| `Server.Registry.Broadcast` | server.js:42-53 | the snapshot has exactly one entry per record, in insertion order, each client's own record included; exactly the OPEN clients receive a `gameState`, all with the same list |
| `Server.ConnectTwoCloseFirst` | server.js:13-38 | after two connections and the first one's close, only the second one's record is left |
| `Server.TwoConnectOneLeaves` | server.js:42-53 | in that state, a broadcast sends one list holding only the second record, to the second client only |

## Left out

- Enemy seek step (public/game.js:228-233): `atan2`, `cos` and `sin` are floating point. `MoveEnemies` takes the displacement per enemy as a parameter `seek`.
- Projectile velocity (public/game.js:142-146): built from an angle with trigonometry. `Fire` takes the velocity as a parameter.
- Randomness: `spawnEnemy`'s edge choice and position along the edge (public/game.js:79-85), and the server's `Math.random` id (server.js:16), are parameters. The position is taken as a real in [0, edge length).
- Floating point in general: coordinates are reals, so rounding is not modelled. Health is an integer.
- Timers as time: the two intervals are the flag `timersRunning`, and their firings are explicit calls to `Tick` and `SpawnTick`. The spawn period is kept as a value. What a browser does with a zero or negative period is not modelled.
- Rendering and scheduling: `draw` and `gameLoop` (public/game.js:249-297).
- Input: the key and mouse-move listeners (public/game.js:123-139). The held keys are a parameter of `Update`. The click listener (public/game.js:141-154) is modelled by `Client.Game.Fire`; only its use of the mouse position and its trigonometry are left out.
- Transport: WebSocket setup and `onopen`/`onclose`/`onerror` (public/game.js:7, 12-14, 33-39), JSON encoding, `console.log`, and the exception `JSON.parse` throws on a malformed message. The per-frame send is the message `Update` returns when the channel is open.
- Malformed and ill-typed messages: messages arrive already decoded into typed values. So the model does not cover a `playerUpdate` without a `player` field (the TypeError at server.js:27 that ends the `message` listener), a `gameState` without a `players` field (the TypeError at public/game.js:25), or non-numeric `x`, `y` or `health`, which the server stores and relays unchecked (server.js:27-29).
- Server plumbing: Express static serving, `http.createServer` and `server.listen` (server.js:1-9, 55-57).
- The socket library's client set: it is an input to `Broadcast`, given as a list of connections with their ready state. Connections are opaque numbers.
- Server.OpenConnections: its contract says which connections receive the broadcast, not in what order; its body keeps the order of the client set, and `Deliveries` keeps that order.
