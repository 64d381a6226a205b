# crystal-server: chunk streaming, terrain columns, operator status and block rules

This project is a Dafny model of the core of crystal-server, a Minecraft
server built on the valence engine. It covers three parts.

- **Chunk streaming** (`src/world.rs`). The main thread keeps a *pending
  registry*. It maps a chunk position to `Some(priority)` while the chunk is
  queued, and to `None` once the position has been sent to a worker thread.
  - `update_client_views` queues the chunks that enter a client's view. A
    position requested twice keeps the smaller squared distance.
  - `send_recv_chunks` merges the chunks the workers finished into the
    layer. It then sends every queued position to the workers, closest
    first. A failed send re-queues the position at priority 0.
  - `remove_unviewed_chunks` drops the chunks nobody views. It is commented
    out of the system chain in src/main.rs:117, so the running server never
    evicts chunks and `Streaming.GameState.Tick` has no eviction step. The
    model still covers the system on its own.
  - Each worker generates a chunk one column at a time. A top-down pass
    picks stone, dirt, gravel, grass block, water or air. An upward pass then
    plants short and tall grass.
- **Operator status** (`src/components/core.rs`). `set_op_status` sets
  permission level 4 or 0 and keeps the `crystal.admin` command scope in
  step with it. `new_crystal_message` puts a red `[Crystal] ` tag in front of
  a chat message.
- **Block rules** (`src/components/building.rs`). `digging` clears a block
  and, in Survival, drops its item. `place_blocks` places the held item's
  block against the clicked face and, in Survival, uses one item.

The modules are as follows.

- `Terrain` (terrain.dfy): the column generator. It fills a 384-cell array
  in place with two passes. Each pass is proved against a cell-by-cell
  description of its result.
- `Registry` (registry.dfy): the registry, the layer's chunks and the two
  worker channels, as values.
  - One function per step of the streaming systems.
  - Lemmas for the registry's promises.
  - An invariant, `Consistent`, kept by every step. It says: no position is
    both pending and loaded; a position is in flight exactly when its entry
    is dispatched; no position is in flight twice. Under it, the two panics
    of `send_recv_chunks` cannot happen.
- `Streaming` (streaming.dfy): the `GameState` resource and the chunk layer
  as classes. Each system is a method proved against `Registry`.
- `Operator` (operator.dfy): `set_op_status` on a `Player` class, and a
  model of chat text that is precise enough to state what a client shows.
- `Building` (building.dfy): `digging` and `place_blocks` as event loops.
  They work over a layer of block states and the players' inventory arrays.
  Each is proved against a fold over the events.

The floating-point noise the generator samples is not modelled.
`Terrain.NoiseField` replaces it with the four decisions the generator takes
from the noise, at each point:

- whether the cell is solid;
- the gravel line;
- a soil depth of at least 1;
- the grass density, classified against 0.55 and 0.7.

The block and item tables of valence (block to item, item to block, default
state) are the fields of `Building.Catalogue`.

## Model

| member | source | states |
|---|---|---|
| Terrain.TerrainStep | src/world.rs:313-358 | Definition of one cell of the top-down scan: the new `in_terrain`/`surface_depth` state and the block written. Its promises are proved in RunStep, OpenCellResets and TerrainBlockCases. |
| Terrain.TerrainPass | src/world.rs:302-365 | Scans the column from the top down with the `in_terrain`/`surface_depth` automaton and writes each cell in place; the array ends equal to the terrain column. |
| Terrain.OpenCellResets | src/world.rs:349-352 | A non-solid cell resets the automaton (not in terrain, depth 0), so the next solid cell below starts a fresh surface. |
| Terrain.RunStep | src/world.rs:313-348 | Inside a run of solid cells whose top is t, the automaton's state and output at each cell are exactly those of the run description: remaining soil depth and material. |
| Terrain.RunTopExists | src/world.rs:313-348 | Every solid cell belongs to a run that has a top, so the run description covers every solid cell. |
| Terrain.TerrainBlockCases | src/world.rs:313-358 | A non-solid cell is water below height 55 and air otherwise. The top cell of a run is gravel below the gravel line, else dirt below 55, else a grass block. The next `surface_depth(top)` cells are gravel below the gravel line, else dirt. The rest of the run is stone. |
| Terrain.TerrainHasNoPlants | src/world.rs:313-358 | The terrain pass writes no grass, short or tall. |
| Terrain.Decorated | src/world.rs:368-393 | Definition of the decorated cell at each height: short or tall grass on air over a grass block, by grass density. Its promises are proved in DecoratedKeepsGrassBlocks, DecorationTouchesOnlyAirOverGrass and TallGrassPairs. |
| Terrain.DecorationPass | src/world.rs:367-393 | The upward pass over the column, in place. Each cell ends as the decoration rule gives it for the terrain column it started from. |
| Terrain.DecoratedKeepsGrassBlocks | src/world.rs:373 | Decoration neither removes nor creates grass blocks. |
| Terrain.DecorationTouchesOnlyAirOverGrass | src/world.rs:373-391 | A cell that decoration changes was air, lies on a grass block (or two above one, for a tall grass top), and becomes grass or a tall grass half. |
| Terrain.TallGrassPairs | src/world.rs:378-387 | After decoration of a terrain column, a tall-grass lower half sits directly under an upper half, and vice versa. |
| Terrain.ColumnAt | src/world.rs:302-393 | Definition of the generated column at a world position: the terrain column, then decorated. GenerateColumn proves the two in-place passes produce it. |
| Terrain.GenerateColumn | src/world.rs:292-393 | A fresh column of air, run through both passes, equals the generated column at that world position. |
| Terrain.ChunkAt | src/world.rs:297-300 | A chunk is 16 by 16 columns; column (x, z) is the one at world (16·pos.x + x, 16·pos.z + z). |
| Terrain.GenerateRow | src/world.rs:298-394 | The x loop for one z: its 16 columns are exactly the generated columns at world (16·pos.x + x, 16·pos.z + z). |
| Terrain.GenerateChunk | src/world.rs:297-395 | The z and x loops of `chunk_worker` produce exactly that chunk, which depends only on the noise and the position. |
| Registry.DistanceSquared | src/world.rs:205 | Definition of the priority: the squared distance between the view's centre chunk and the requested chunk. Used by RequestCases and RequestTwiceKeepsMin. |
| Registry.Request | src/world.rs:198-217 | Definition of `queue_pos` on the registry. Its promises are proved in RequestCases, RequestRefines, RequestTwiceKeepsMin and RequestAfterRemoval. |
| Registry.RequestAll | src/world.rs:221-224 | Definition of `queue_pos` applied to every position of a set. Its promises are proved in RequestAllStep and RequestAllRefines. |
| Registry.NewlyInView | src/world.rs:220-226 | Definition of the positions a client requests: its whole view when just added, `view.diff(old_view)` when its view changed, none otherwise. Proved in ClientRequests. |
| Registry.UpdateViews | src/world.rs:183-228 | Definition of `update_client_views` on the registry, client by client. Its promises are proved in UpdateViewsRefines, UpdateViewsNewKeysQueued and UpdateViewsConsistent. |
| Registry.RequestCases | src/world.rs:198-217 | A request for a loaded position changes nothing. A request for an absent, unloaded position inserts `Some(d²)`. A request for a position queued at p leaves `Some(min(p, d²))`. A request for a dispatched position changes nothing. No other key changes. |
| Registry.RequestRefines | src/world.rs:203-215 | A request never raises a priority, never re-queues a dispatched entry and never drops a key. |
| Registry.RequestTwiceKeepsMin | src/world.rs:203-215 | Two viewers requesting the same absent position leave one entry holding the smaller of their two distances. |
| Registry.RequestAfterRemoval | src/world.rs:212-215 | Once a position's entry is removed, requesting it again queues it afresh at the viewer's distance. |
| Registry.RequestAllStep | src/world.rs:220-226 | Requesting the positions of a set one at a time, in any order, gives the same registry as requesting them all at once. |
| Registry.RequestAllRefines | src/world.rs:220-226 | Requesting a set refines the registry, and adds exactly the set's unloaded positions. |
| Registry.ClientRequests | src/world.rs:220-226 | A newly added client requests its whole view. A client whose view changed requests only `view.diff(old_view)`. A client whose view did not change requests nothing. |
| Registry.UpdateViewsRefines | src/world.rs:183-228 | A whole pass never raises a priority and leaves dispatched entries dispatched. The registry gains exactly the requested positions that are not loaded. |
| Registry.UpdateViewsNewKeysQueued | src/world.rs:212-215 | Every key the pass adds is queued, never dispatched. |
| Registry.ChunksWith | src/world.rs:243 | Definition of `insert_chunk`: the grid goes in at its position, an existing chunk keeping its viewer count. See MergeOneCases and Streaming.ChunkLayer.InsertChunk. |
| Registry.MergeOne | src/world.rs:239-256 | Definition of merging one result: insert when dispatched, panic when queued or absent. Proved in MergeOneCases. |
| Registry.MergeAll | src/world.rs:237-257 | Definition of merging every received result in order, stopping at the first panic. Proved in MergeAllConsistent. |
| Registry.MergeOneCases | src/world.rs:238-256 | A result for a dispatched position removes that entry and puts the chunk in the layer. The chunk keeps the viewer count of a chunk already there, or starts with none. No other registry entry and no other chunk changes. A result for a queued position, or for a position the registry does not hold, panics. |
| Registry.TakeAll | src/world.rs:264-270 | Definition of the registry after `priority.take()` on every entry: every key kept, every entry dispatched. See Streaming.GameState.TakeQueued and DispatchConsistent. |
| Registry.QueuedAmongStep | src/world.rs:264-270 | Visiting one more key of the registry adds its queued (priority, position) pair, if it has one, to the collected pairs. |
| Registry.DispatchOrderFacts | src/world.rs:264-273 | An order that is a permutation of the queued pairs gives each entry its own priority. It holds every queued position exactly once and nothing else. |
| Registry.SendAll | src/world.rs:276-284 | Definition of the send loop over a dispatch order: append to the worker channel, or re-queue at priority 0 on failure. Proved in SendAllConnected, SendAllDisconnected and DispatchOutcome. |
| Registry.SendAllConnected | src/world.rs:276-284 | With the workers listening, the send loop appends the positions to the worker channel in order and changes no entry. |
| Registry.SendAllDisconnected | src/world.rs:276-284 | With the workers gone, every send fails. Each position comes back at priority 0, so it is re-queued rather than lost, and the channel is untouched. |
| Registry.DispatchOutcome | src/world.rs:264-284 | After draining and sending, every formerly queued position is on the worker channel, closest first, and every entry is dispatched. If the channel is disconnected, every formerly queued entry is `Some(0)` and every dispatched one stays `None`. |
| Registry.Viewed | src/world.rs:179 | Eviction keeps exactly the chunks whose viewer count is positive, with their contents unchanged. |
| Registry.UpdateViewsConsistent | src/world.rs:183-228 | `update_client_views` keeps the streaming invariant. |
| Registry.MergeAllConsistent | src/world.rs:237-257 | Under the invariant, merging every received chunk never panics. It removes exactly the results' positions from the registry. Each result's grid is put at its position with no viewers yet, and the chunks already loaded stay as they were. The invariant holds afterwards, with the result channel empty. |
| Registry.DispatchConsistent | src/world.rs:264-284 | Draining and sending keeps the invariant: sent positions become in flight, or go back to the queue when the send fails. |
| Registry.WorkerStepConsistent | src/world.rs:290-292 | A worker taking the oldest request and returning its chunk keeps the invariant. |
| Registry.EvictionConsistent | src/world.rs:174-180 | Evicting unviewed chunks keeps the invariant. |
| Streaming.ChunkLayer.InsertChunk | src/world.rs:242 | The grid is stored at the position, which becomes loaded; a chunk already there keeps its viewer count. |
| Streaming.RemoveUnviewedChunks | src/world.rs:174-180 | Without a layer, nothing happens. Otherwise the layer keeps exactly its chunks with a positive viewer count, unchanged. |
| Streaming.InsertByPriority | src/world.rs:273 | Inserting into a list sorted by priority keeps it sorted and adds exactly the one entry. |
| Streaming.SortByPriority | src/world.rs:273 | The sorted list is a permutation of `to_send`, in non-decreasing priority. |
| Streaming.GameState.constructor | src/world.rs:71-98 | Starts with an empty registry and empty channels, which is consistent with a fresh layer. The worker channel is connected when there is at least one worker. |
| Streaming.GameState.QueuePos | src/world.rs:198-217 | `queue_pos` updates the registry in place, as one request. |
| Streaming.GameState.QueueAll | src/world.rs:220-226 | Queueing every position of a set, in an unspecified order, updates the registry as requesting the whole set. |
| Streaming.GameState.UpdateClientViews | src/world.rs:183-228 | Without a layer, nothing happens. Otherwise the registry becomes the result of the whole pass over the clients, and the invariant is kept. |
| Streaming.GameState.ReceiveChunks | src/world.rs:236-257 | Empties the result channel and merges the results in order. It reports the first unexpected result where the source panics. |
| Streaming.GameState.TakeQueued | src/world.rs:263-270 | Every entry ends dispatched. The collected pairs are, as a multiset, exactly the formerly queued (priority, position) pairs. |
| Streaming.GameState.SendInOrder | src/world.rs:276-284 | Each position goes on the worker channel. A failed send puts the entry back at priority 0. |
| Streaming.GameState.Dispatch | src/world.rs:263-284 | The taken entries are sent in an order that is sorted by priority and is a permutation of the queued entries. The registry and worker channel end as the send loop over that order makes them. From a consistent state with no result waiting, the state stays consistent. |
| Streaming.GameState.SendRecvChunks | src/world.rs:231-285 | Merges every finished chunk (or reports the panic), then drains the queue and sends it in a valid dispatch order. From a consistent state it never panics and stays consistent. Without a layer it does nothing. |
| Streaming.GameState.WorkerStep | src/world.rs:290-405 | A worker takes the oldest request, generates that chunk and puts it on the result channel; with no request it waits. The invariant is kept. |
| Streaming.GameState.Tick | src/main.rs:112-119 | From a consistent state, the chained `update_client_views` and `send_recv_chunks` never panic, and the state stays consistent. The registry first takes the views' requests. The finished chunks are then merged into the layer. Every queued position is then sent closest first, or re-queued at priority 0 when no worker listens. |
| Operator.NewLevel | src/components/core.rs:9 | The new level is always 0 or 4. `Some(b)` gives 4 exactly when b is true. `None` gives 4 exactly when the current level is not 4. |
| Operator.ScopesAfter | src/components/core.rs:11 | `crystal.admin` is held exactly when the new level is 4. No other scope is touched. |
| Operator.SetIsIdempotent | src/components/core.rs:9-11 | Granting or revoking twice leaves the same level and scopes as doing it once. |
| Operator.ToggleTwice | src/components/core.rs:9 | Toggling twice restores level 0 or 4. From any other level, the first toggle grants and the second revokes. |
| Operator.ScopeMatchesLevel | src/components/core.rs:9-11 | Whatever the request, `crystal.admin` is held afterwards exactly at level 4. |
| Operator.NewCrystalMessage | src/components/core.rs:16-18 | Definition of `new_crystal_message`: a red `[Crystal] ` tag, an empty gold text, then the message. What it shows is proved in CrystalMessageShows. |
| Operator.OperatorGreeting | src/components/core.rs:13 | Definition of the greeting: the crystal message around the green "Made <name> a server operator". What it shows is proved in GreetingShows. |
| Operator.RenderAppend | src/components/core.rs:17 | `a + b` shows a, then b in a's colour unless b sets its own. |
| Operator.CrystalMessageShows | src/components/core.rs:16-18 | A crystal message shows the red `[Crystal] ` tag followed by the message. The message is red unless it sets its own colour. |
| Operator.GreetingShows | src/components/core.rs:13 | The new-operator greeting shows the red tag followed by "Made <name> a server operator" in green. |
| Operator.Player.SetOpStatus | src/components/core.rs:8-14 | Sets the new level and grants or revokes the admin scope to match it. It appends the greeting to the player's chat only when the new level is 4. |
| Building.SetAxis | src/components/building.rs:85-92 | Setting the axis changes only the axis, and only of a state that has one. |
| Building.WithBlock | src/components/building.rs:93 | `set_block` changes only the given loaded position. An unloaded position is ignored, and no position is added. |
| Building.BlockLayer.SetBlock | src/components/building.rs:26 | The layer's blocks become the result of setting that one position. |
| Building.BreaksBlock | src/components/building.rs:21-22 | Definition of the break condition: Creative on starting to dig, Survival on finishing. Used by DigClearsExactlyWhenBreaking. |
| Building.DigOne | src/components/building.rs:14-42 | Definition of one digging event. Its promises are proved in DigClearsExactlyWhenBreaking and DigDropsOnlyInSurvival. |
| Building.DigAll | src/components/building.rs:13-43 | Definition of every digging event in order, stopping at the first panic. Proved in DigAllOnlyClears; HandleDigging is proved equal to it. |
| Building.DigClearsExactlyWhenBreaking | src/components/building.rs:14-26 | A dig event sets its block to air exactly when the client is known and is in Creative on Start or in Survival on Stop. Every other event changes nothing. Breaking an unloaded position panics. |
| Building.DigDropsOnlyInSurvival | src/components/building.rs:27-41 | An item is spawned exactly when a Survival digger that has an entity layer finishes digging a loaded block. It is one of the broken block's item, at the block. A digger without an entity layer gets the failure message instead, in either mode. |
| Building.DigAllOnlyClears | src/components/building.rs:3-44 | Digging never adds or removes a loaded position, and every position it changes ends as air. |
| Building.HandleDigging | src/components/building.rs:3-44 | The event loop leaves the layer, the spawned items and the failure messages as the fold over the events gives them, or reports the panic position. |
| Building.Neighbour | src/components/building.rs:84 | Definition of `get_in_direction`: the adjacent position across a face. Proved in NeighbourOpposite and AxisFollowsFace. |
| Building.AxisOf | src/components/building.rs:87-91 | Definition of the face-to-axis match: Down/Up give Y, North/South give Z, West/East give X. Proved in AxisFollowsFace; used by PlacementEffect. |
| Building.NeighbourOpposite | src/components/building.rs:84 | The target is adjacent to the clicked block: a different position, from which the opposite face leads back. |
| Building.AxisFollowsFace | src/components/building.rs:84-92 | The placed block's axis is the coordinate in which the target differs from the clicked block: Y for Up/Down, Z for North/South, X for West/East. |
| Building.IsEmpty | src/components/building.rs:64 | Definition of `ItemStack::is_empty`: an air item or a count of at most 0. Used by PlacementSkips. |
| Building.Used | src/components/building.rs:74-83 | In Survival, a stack of more than one item loses exactly one, and a stack of one becomes EMPTY. In other modes the stack is unchanged. |
| Building.Placed | src/components/building.rs:54-92 | Definition of the block an event places, or none for a skipped event. Its promises are proved in PlacementSkips and PlacementEffect. |
| Building.PlaceOne | src/components/building.rs:57-93 | A placement keeps every inventory's size, so each held slot stays within its inventory. |
| Building.PlaceAll | src/components/building.rs:53-94 | Every placement event in order; the inventories keep their clients and held slots. Proved in SurvivalUsesStack; PlaceBlocks is proved equal to it. |
| Building.PlacementSkips | src/components/building.rs:54-72 | Placement is skipped exactly when the client is unknown, uses the off hand, holds an empty stack, or holds an item with no block kind. A skipped event changes neither the world nor any inventory. |
| Building.PlacementEffect | src/components/building.rs:74-93 | A placement puts the item's default state, turned to the face's axis, on the neighbour across the clicked face. It changes only the placing client's held slot. Outside Survival it changes no inventory. |
| Building.SurvivalUsesStack | src/components/building.rs:51-83 | In Survival, k main-hand placement events by one client, whose held slot starts with a stack of n >= k block items, leave n - k items in that slot. When k == n, the slot is left empty. |
| Building.PlaceBlock | src/components/building.rs:50-93 | One event, on the layer and the placing client's inventory array, is exactly the placement rule. |
| Building.PlaceBlocks | src/components/building.rs:46-95 | The event loop leaves the layer and all inventories as the fold of the placement rule over the events gives them. |

## Left out

- Noise numerics are replaced by `Terrain.NoiseField`. These are `noise01`, `fbm`, `lerp`, `lerpstep`, the hilliness band in `has_terrain_at` and the float-to-int rounding of the gravel line and soil depth (src/world.rs:315-324, 417-464). They are floating-point calls into an external noise library. Only "soil depth is at least 1" is kept.
- Threads, the two channels and the blocking `recv` are not modelled as concurrency. The channels are sequences; a worker's iteration is `GameState.WorkerStep`, run whenever the environment chooses. One iteration takes the oldest position and returns its chunk in one step, so worker iterations are serialised and results arrive in the order the positions were sent. Out-of-order completion by parallel workers is not modelled; the consistency proofs for merging hold for results in any order. The channel to the workers is unbounded, so a send fails only when no worker holds it; the `connected` flag stands for that.
- A worker's failed send of its result (src/world.rs:405-410) is not modelled. The main thread holds the receiver for as long as it runs.
- The day-based seed from the system clock (src/world.rs:62-67) is not modelled. It only selects the noise, which is a parameter.
- `init_clients_world`, the console, the commands, chat relay and the app wiring in src/main.rs are not part of this model. The one exception is the tick chain `update_client_views` → `send_recv_chunks`, modelled by `Streaming.GameState.Tick`.
- All `info!`/`println!` logging is not modelled.
- Integer widths are not modelled. Chunk and block coordinates are `i32` and priorities, which are squared chunk distances, are `u64`; the model uses unbounded integers. Inside the world border none of these values comes near its type's range, so no overflow is reachable there. The stack count is kept as a signed byte (`Building.Count`).
- valence's view shape is not modelled. A view is its centre and the set of chunk positions it covers, and `view.diff(old_view)` is set difference.
- The maintenance of chunk viewer counts is valence's own work and is not modelled. Viewer counts are data that eviction reads.
- The order in which a `HashMap` is iterated is not modelled. The drain and request loops pick keys in an unspecified order, and every result is proved for all such orders.
- Streaming.SortByPriority: the unstable sort is modelled by its contract (sorted and a permutation), computed here by insertion. The relative order of equal priorities is not fixed.
- Streaming.GameState.SendRecvChunks: after a panic, the state is not specified beyond the emptied result channel, because the process aborts there.
- Building.HandleDigging: after a panic, the state is not specified, for the same reason.
- `layers.single_mut()` in `digging` and `place_blocks` panics when there is not exactly one layer. `setup_world` spawns exactly one, so the model takes the layer as given.
- The dropped item entity's +0.5 position offset and its upward velocity (src/components/building.rs:31-36) are floating point and are not modelled. The drop records its entity layer, its stack and the block position.
- The text of the spawn-failure message (which embeds the query error) is not modelled. The model records which client was told.
- Chat text styling beyond colour (bold and the like) is not modelled. A text is its content, an optional colour and its children; `+` appends a child.
- Building.Used: the `set_slot_amount`/`set_slot` calls are modelled by their effect on the held slot. valence's change tracking of inventory slots is not modelled.
