/**
 * The block-interaction systems of src/components/building.rs: `digging`
 * clears a block when the player's game mode and digging state say so and
 * drops its item in Survival; `place_blocks` puts the held item's block
 * against the clicked face and, in Survival, uses one item of the stack.
 * The chunk layer is seen here as the map from loaded block positions to
 * block states; a player's inventory is its array of slots.
 */
module Building {
  import opened Wrappers

  datatype BlockPos = BlockPos(x: int, y: int, z: int)

  datatype Direction = Down | Up | North | South | West | East

  datatype Axis = X | Y | Z

  datatype GameMode = Survival | Creative | Adventure | Spectator

  datatype DiggingState = Start | Abort | Stop

  datatype Hand = Main | Off

  /** Block and item kinds, by their registry id; id 0 is air for both. */
  datatype BlockKind = BlockKind(id: nat)
  datatype ItemKind = ItemKind(id: nat)

  const AIR_KIND: BlockKind := BlockKind(0)
  const AIR_ITEM: ItemKind := ItemKind(0)

  /** A block state: its kind and, for the kinds that have one, its `axis` property. */
  datatype BlockState = BlockState(kind: BlockKind, axis: Option<Axis>)

  const AIR: BlockState := BlockState(AIR_KIND, None)

  /** An item stack; the count is a signed byte. */
  type Count = c: int | -128 <= c < 128

  datatype ItemStack = ItemStack(item: ItemKind, count: Count)

  const EMPTY: ItemStack := ItemStack(AIR_ITEM, 0)

  /** `ItemStack::is_empty`: an air item or no items. */
  predicate IsEmpty(s: ItemStack)
  {
    s.item == AIR_ITEM || s.count <= 0
  }

  /** The generated block and item tables the two systems consult. */
  datatype Catalogue = Catalogue(
    itemOf: BlockKind -> ItemKind,           // BlockKind::to_item_kind
    blockOf: ItemKind -> Option<BlockKind>,  // BlockKind::from_item_kind
    defaultState: BlockKind -> BlockState)   // BlockKind::to_state

  /** `BlockState::set(PropName::Axis, a)`: sets the axis of a state that has one, leaves any other state alone. */
  function SetAxis(s: BlockState, a: Axis): (r: BlockState)
    ensures r.kind == s.kind
    ensures s.axis.Some? ==> r.axis == Some(a)
    ensures s.axis.None? ==> r == s
  {
    if s.axis.Some? then s.(axis := Some(a)) else s
  }

  type Blocks = map<BlockPos, BlockState>

  /** `ChunkLayer::set_block`: changes a loaded position, ignores an unloaded one. */
  function WithBlock(blocks: Blocks, pos: BlockPos, s: BlockState): (r: Blocks)
    ensures r.Keys == blocks.Keys
    ensures pos in blocks ==> r[pos] == s
    ensures forall q :: q in blocks && q != pos ==> r[q] == blocks[q]
  {
    if pos in blocks then blocks[pos := s] else blocks
  }

  /** The part of valence's `ChunkLayer` these systems use. */
  class BlockLayer {
    var blocks: Blocks

    constructor (blocks: Blocks)
      ensures this.blocks == blocks
    {
      this.blocks := blocks;
    }

    method SetBlock(pos: BlockPos, s: BlockState)
      modifies this
      ensures blocks == WithBlock(old(blocks), pos, s)
    {
      if pos in blocks {
        blocks := blocks[pos := s];
      }
    }
  }

  type ClientId = nat

  // ---------------------------------------------------------------------
  // Digging
  // ---------------------------------------------------------------------

  datatype DiggingEvent = DiggingEvent(client: ClientId, position: BlockPos, state: DiggingState)

  /** The condition on which `digging` breaks a block: Creative on starting to dig, Survival on finishing. */
  predicate BreaksBlock(mode: GameMode, state: DiggingState)
  {
    (mode == Creative && state == Start) || (mode == Survival && state == Stop)
  }

  /** An item entity spawned on the digger's entity layer (its position offset and velocity are not modelled). */
  datatype Drop = Drop(entityLayer: nat, stack: ItemStack, at: BlockPos)

  /** What digging has produced so far: the blocks, the spawned items and the clients told that a spawn failed. */
  datatype Dug = Dug(blocks: Blocks, drops: seq<Drop>, notices: seq<ClientId>)

  datatype DigResult = Digging(dug: Dug) | DigPanicked(at: BlockPos)

  /**
   * One digging event. `modes` holds the game mode of every known client,
   * `entityLayers` the entity layer of the clients that have one.
   */
  function DigOne(cat: Catalogue, d: Dug, modes: map<ClientId, GameMode>, entityLayers: map<ClientId, nat>,
                  e: DiggingEvent): DigResult
  {
    if e.client !in modes then Digging(d)
    else
      var mode := modes[e.client];
      if !BreaksBlock(mode, e.state) then Digging(d)
      else if e.position !in d.blocks then DigPanicked(e.position)
      else
        var kind := d.blocks[e.position].kind;
        var blocks := WithBlock(d.blocks, e.position, AIR);
        if e.client in entityLayers && mode == Survival then
          Digging(d.(blocks := blocks,
                     drops := d.drops + [Drop(entityLayers[e.client], ItemStack(cat.itemOf(kind), 1), e.position)]))
        else if e.client !in entityLayers then
          Digging(d.(blocks := blocks, notices := d.notices + [e.client]))
        else
          Digging(d.(blocks := blocks))
  }

  /** Every digging event in order, stopping at the first panic. */
  function DigAll(cat: Catalogue, d: Dug, modes: map<ClientId, GameMode>, entityLayers: map<ClientId, nat>,
                  events: seq<DiggingEvent>): DigResult
    decreases |events|
  {
    if events == [] then Digging(d)
    else match DigOne(cat, d, modes, entityLayers, events[0])
      case Digging(d') => DigAll(cat, d', modes, entityLayers, events[1..])
      case DigPanicked(p) => DigPanicked(p)
  }

  /**
   * A digging event clears its block, and changes nothing else in the world,
   * exactly when the digger is known and breaks the block; otherwise it
   * changes nothing at all. Breaking an unloaded position panics.
   */
  lemma DigClearsExactlyWhenBreaking(cat: Catalogue, d: Dug, modes: map<ClientId, GameMode>,
                                     entityLayers: map<ClientId, nat>, e: DiggingEvent)
    ensures !(e.client in modes && BreaksBlock(modes[e.client], e.state)) ==>
              DigOne(cat, d, modes, entityLayers, e) == Digging(d)
    ensures e.client in modes && BreaksBlock(modes[e.client], e.state) && e.position !in d.blocks ==>
              DigOne(cat, d, modes, entityLayers, e) == DigPanicked(e.position)
    ensures e.client in modes && BreaksBlock(modes[e.client], e.state) && e.position in d.blocks ==>
              && DigOne(cat, d, modes, entityLayers, e).Digging?
              && DigOne(cat, d, modes, entityLayers, e).dug.blocks == d.blocks[e.position := AIR]
  {
  }

  /**
   * A dig spawns an item exactly when a Survival digger with an entity layer
   * breaks a loaded block; the item is one of the broken block's item, at the
   * block. A digger without an entity layer is told instead, in either mode.
   */
  lemma DigDropsOnlyInSurvival(cat: Catalogue, d: Dug, modes: map<ClientId, GameMode>,
                               entityLayers: map<ClientId, nat>, e: DiggingEvent)
    requires DigOne(cat, d, modes, entityLayers, e).Digging?
    ensures var d' := DigOne(cat, d, modes, entityLayers, e).dug;
            && (d'.drops != d.drops ==>
                  && e.client in modes && modes[e.client] == Survival && e.client in entityLayers
                  && d'.drops == d.drops + [Drop(entityLayers[e.client],
                                                 ItemStack(cat.itemOf(d.blocks[e.position].kind), 1), e.position)])
            && (d'.notices != d.notices ==> e.client !in entityLayers && d'.notices == d.notices + [e.client])
            && (e.client in modes && BreaksBlock(modes[e.client], e.state) && e.client !in entityLayers ==>
                  d'.notices == d.notices + [e.client])
            && (e.client in modes && modes[e.client] == Survival && e.state == Stop && e.client in entityLayers ==>
                  d'.drops == d.drops + [Drop(entityLayers[e.client],
                                              ItemStack(cat.itemOf(d.blocks[e.position].kind), 1), e.position)])
  {
  }

  /** Digging never adds or removes a loaded position; the positions it changes hold air afterwards. */
  lemma {:induction false} DigAllOnlyClears(cat: Catalogue, d: Dug, modes: map<ClientId, GameMode>,
                                            entityLayers: map<ClientId, nat>, events: seq<DiggingEvent>)
    requires DigAll(cat, d, modes, entityLayers, events).Digging?
    ensures var d' := DigAll(cat, d, modes, entityLayers, events).dug;
            && d'.blocks.Keys == d.blocks.Keys
            && forall q :: q in d.blocks && d'.blocks[q] != d.blocks[q] ==> d'.blocks[q] == AIR
    decreases |events|
  {
    if events != [] {
      var next := DigOne(cat, d, modes, entityLayers, events[0]).dug;
      DigAllOnlyClears(cat, next, modes, entityLayers, events[1..]);
    }
  }

  /**
   * `digging`: handles every event in order. Returns the items spawned and
   * the clients told that a spawn failed; `fault` is the position of a
   * broken block that is not loaded, where the source panics.
   */
  method HandleDigging(layer: BlockLayer, cat: Catalogue, modes: map<ClientId, GameMode>,
                       entityLayers: map<ClientId, nat>, events: seq<DiggingEvent>)
    returns (fault: Option<BlockPos>, drops: seq<Drop>, notices: seq<ClientId>)
    modifies layer
    ensures var r := DigAll(cat, Dug(old(layer.blocks), [], []), modes, entityLayers, events);
            && (r.DigPanicked? ==> fault == Some(r.at))
            && (r.Digging? ==> fault == None && layer.blocks == r.dug.blocks
                               && drops == r.dug.drops && notices == r.dug.notices)
  {
    fault := None;
    drops := [];
    notices := [];
    ghost var start := Dug(layer.blocks, [], []);
    for i := 0 to |events|
      invariant DigAll(cat, start, modes, entityLayers, events)
                == DigAll(cat, Dug(layer.blocks, drops, notices), modes, entityLayers, events[i..])
    {
      var e := events[i];
      assert events[i..][0] == e && events[i..][1..] == events[i + 1..];
      if e.client in modes {
        var mode := modes[e.client];
        if BreaksBlock(mode, e.state) {
          if e.position !in layer.blocks {
            fault := Some(e.position);
            return;
          }
          var kind := layer.blocks[e.position].kind;
          layer.SetBlock(e.position, AIR);
          if e.client in entityLayers && mode == Survival {
            drops := drops + [Drop(entityLayers[e.client], ItemStack(cat.itemOf(kind), 1), e.position)];
          } else if e.client !in entityLayers {
            notices := notices + [e.client];
          }
        }
      }
    }
    assert events[|events|..] == [];
  }

  // ---------------------------------------------------------------------
  // Placing
  // ---------------------------------------------------------------------

  datatype InteractEvent = InteractEvent(client: ClientId, hand: Hand, position: BlockPos, face: Direction)

  /** `BlockPos::get_in_direction`: the adjacent position across a face. */
  function Neighbour(p: BlockPos, face: Direction): BlockPos
  {
    match face
    case Down => p.(y := p.y - 1)
    case Up => p.(y := p.y + 1)
    case North => p.(z := p.z - 1)
    case South => p.(z := p.z + 1)
    case West => p.(x := p.x - 1)
    case East => p.(x := p.x + 1)
  }

  function Opposite(face: Direction): Direction
  {
    match face
    case Down => Up
    case Up => Down
    case North => South
    case South => North
    case West => East
    case East => West
  }

  /** The axis of a block placed against a face. */
  function AxisOf(face: Direction): Axis
  {
    match face
    case Down | Up => Y
    case North | South => Z
    case West | East => X
  }

  /** Stepping across a face and back across the opposite face returns to the start. */
  lemma NeighbourOpposite(p: BlockPos, face: Direction)
    ensures Neighbour(Neighbour(p, face), Opposite(face)) == p
    ensures Neighbour(p, face) != p
  {
  }

  /** The placed block's axis is the one coordinate in which its position differs from the clicked block's. */
  lemma AxisFollowsFace(p: BlockPos, face: Direction)
    ensures AxisOf(face) == X <==> Neighbour(p, face).x != p.x
    ensures AxisOf(face) == Y <==> Neighbour(p, face).y != p.y
    ensures AxisOf(face) == Z <==> Neighbour(p, face).z != p.z
  {
  }

  /** A client that can place: its inventory slots, game mode and held hotbar slot. */
  datatype Placer = Placer(inventory: array<ItemStack>, mode: GameMode, held: nat)

  /** Every client owns its inventory, and its held slot lies in it. */
  predicate Separate(players: map<ClientId, Placer>)
  {
    && (forall a :: a in players ==> players[a].held < players[a].inventory.Length)
    && (forall a, b :: a in players && b in players && a != b ==> players[a].inventory != players[b].inventory)
  }

  function Inventories(players: map<ClientId, Placer>): set<array<ItemStack>>
  {
    set a | a in players :: players[a].inventory
  }

  /** The contents of every client's inventory. */
  ghost function Slots(players: map<ClientId, Placer>): map<ClientId, seq<ItemStack>>
    reads Inventories(players)
  {
    map a | a in players :: players[a].inventory[..]
  }

  /** The held stack after a placement: one item fewer in Survival, the last one leaving the slot empty. */
  function Used(stack: ItemStack, mode: GameMode): (r: ItemStack)
    requires !IsEmpty(stack)
    ensures mode != Survival ==> r == stack
    ensures mode == Survival && stack.count > 1 ==> r.item == stack.item && r.count == stack.count - 1
    ensures mode == Survival && stack.count == 1 ==> r == EMPTY && IsEmpty(r)
  {
    if mode != Survival then stack
    else if stack.count > 1 then stack.(count := stack.count - 1)
    else EMPTY
  }

  /** The blocks and the inventories' contents. */
  datatype World = World(blocks: Blocks, slots: map<ClientId, seq<ItemStack>>)

  /** The inventory contents fit the clients: every known client has slots and its held slot lies in them. */
  predicate Fits(players: map<ClientId, Placer>, slots: map<ClientId, seq<ItemStack>>)
  {
    forall a :: a in players ==> a in slots && players[a].held < |slots[a]|
  }

  /** The block an event places, if it places one: `None` for every skipped event. */
  function Placed(cat: Catalogue, w: World, players: map<ClientId, Placer>, e: InteractEvent): Option<BlockState>
    requires Fits(players, w.slots)
  {
    if e.client !in players || e.hand != Main then None
    else
      var stack := w.slots[e.client][players[e.client].held];
      if IsEmpty(stack) then None
      else match cat.blockOf(stack.item)
        case None => None
        case Some(kind) => Some(SetAxis(cat.defaultState(kind), AxisOf(e.face)))
  }

  /** One placement event. */
  function PlaceOne(cat: Catalogue, w: World, players: map<ClientId, Placer>, e: InteractEvent): (r: World)
    requires Fits(players, w.slots)
    ensures r.slots.Keys == w.slots.Keys
    ensures forall a :: a in w.slots ==> |r.slots[a]| == |w.slots[a]|
    ensures Fits(players, r.slots)
  {
    match Placed(cat, w, players, e)
    case None => w
    case Some(s) =>
      var p := players[e.client];
      var inv := w.slots[e.client];
      World(WithBlock(w.blocks, Neighbour(e.position, e.face), s),
            w.slots[e.client := inv[p.held := Used(inv[p.held], p.mode)]])
  }

  /** Every placement event in order. */
  function PlaceAll(cat: Catalogue, w: World, players: map<ClientId, Placer>, events: seq<InteractEvent>): (r: World)
    requires Fits(players, w.slots)
    ensures r.slots.Keys == w.slots.Keys
    ensures Fits(players, r.slots)
    decreases |events|
  {
    if events == [] then w else PlaceAll(cat, PlaceOne(cat, w, players, events[0]), players, events[1..])
  }

  /**
   * A placement is skipped, changing neither the world nor any inventory,
   * when the client is unknown, uses the off hand, holds nothing, or holds
   * an item that is not a block.
   */
  lemma PlacementSkips(cat: Catalogue, w: World, players: map<ClientId, Placer>, e: InteractEvent)
    requires Fits(players, w.slots)
    ensures Placed(cat, w, players, e).None? <==>
              || e.client !in players
              || e.hand != Main
              || IsEmpty(w.slots[e.client][players[e.client].held])
              || cat.blockOf(w.slots[e.client][players[e.client].held].item).None?
    ensures Placed(cat, w, players, e).None? ==> PlaceOne(cat, w, players, e) == w
  {
  }

  /**
   * A placement that happens puts the item's block, turned to the face's
   * axis, on the neighbour of the clicked block across the clicked face;
   * it changes only the held slot of the placing client, and that slot only
   * in Survival.
   */
  lemma PlacementEffect(cat: Catalogue, w: World, players: map<ClientId, Placer>, e: InteractEvent)
    requires Fits(players, w.slots)
    requires Placed(cat, w, players, e).Some?
    ensures var r := PlaceOne(cat, w, players, e);
            var p := players[e.client];
            var stack := w.slots[e.client][p.held];
            && cat.blockOf(stack.item).Some?
            && r.blocks == WithBlock(w.blocks, Neighbour(e.position, e.face),
                                    SetAxis(cat.defaultState(cat.blockOf(stack.item).value), AxisOf(e.face)))
            && (forall a :: a in w.slots && a != e.client ==> r.slots[a] == w.slots[a])
            && (forall i :: 0 <= i < |w.slots[e.client]| && i != p.held ==> r.slots[e.client][i] == w.slots[e.client][i])
            && r.slots[e.client][p.held] == Used(stack, p.mode)
            && (p.mode != Survival ==> r.slots == w.slots)
  {
    var p := players[e.client];
    var inv := w.slots[e.client];
    if p.mode != Survival {
      assert inv[p.held := inv[p.held]] == inv;
      assert w.slots[e.client := inv] == w.slots;
    }
  }

  /**
   * In Survival, a run of k main-hand placements by one client from a held
   * stack of n >= k blocks uses them one by one: the held slot ends with
   * n - k of them, or empty when k == n.
   */
  lemma {:induction false} SurvivalUsesStack(cat: Catalogue, w: World, players: map<ClientId, Placer>,
                                             c: ClientId, events: seq<InteractEvent>)
    requires Fits(players, w.slots)
    requires c in players && players[c].mode == Survival
    requires forall i :: 0 <= i < |events| ==> events[i].client == c && events[i].hand == Main
    requires var stack := w.slots[c][players[c].held];
             !IsEmpty(stack) && cat.blockOf(stack.item).Some? && |events| <= stack.count
    ensures var stack := w.slots[c][players[c].held];
            var after := PlaceAll(cat, w, players, events).slots[c][players[c].held];
            && (|events| < stack.count ==> after == stack.(count := stack.count - |events|))
            && (|events| == stack.count ==> after == EMPTY)
    decreases |events|
  {
    if events != [] {
      var stack := w.slots[c][players[c].held];
      var next := PlaceOne(cat, w, players, events[0]);
      PlacementEffect(cat, w, players, events[0]);
      assert next.slots[c][players[c].held] == Used(stack, Survival);
      if stack.count > 1 {
        SurvivalUsesStack(cat, next, players, c, events[1..]);
      } else {
        assert events[1..] == [];
      }
    }
  }

  /** One placement event, on the layer and the placing client's inventory. */
  method PlaceBlock(layer: BlockLayer, cat: Catalogue, players: map<ClientId, Placer>, e: InteractEvent)
    requires Separate(players)
    modifies layer, Inventories(players)
    ensures Fits(players, Slots(players))
    ensures World(layer.blocks, Slots(players))
            == PlaceOne(cat, World(old(layer.blocks), old(Slots(players))), players, e)
  {
    ghost var w := World(layer.blocks, Slots(players));
    if e.client !in players || e.hand != Main {
      return;
    }
    var p := players[e.client];
    var stack := p.inventory[p.held];
    if IsEmpty(stack) {
      return;
    }
    match cat.blockOf(stack.item)
    case None =>
      return;
    case Some(kind) =>
      if p.mode == Survival {
        if stack.count > 1 {
          p.inventory[p.held] := stack.(count := stack.count - 1);
        } else {
          p.inventory[p.held] := EMPTY;
        }
      }
      var target := Neighbour(e.position, e.face);
      var state := SetAxis(cat.defaultState(kind), AxisOf(e.face));
      layer.SetBlock(target, state);
      assert p.inventory[..] == w.slots[e.client][p.held := Used(stack, p.mode)];
      assert Slots(players) == w.slots[e.client := p.inventory[..]];
  }

  /** `place_blocks`: handles every placement event in order. */
  method PlaceBlocks(layer: BlockLayer, cat: Catalogue, players: map<ClientId, Placer>, events: seq<InteractEvent>)
    requires Separate(players)
    modifies layer, Inventories(players)
    ensures Fits(players, Slots(players))
    ensures World(layer.blocks, Slots(players))
            == PlaceAll(cat, World(old(layer.blocks), old(Slots(players))), players, events)
  {
    ghost var start := World(layer.blocks, Slots(players));
    for i := 0 to |events|
      invariant Fits(players, Slots(players))
      invariant PlaceAll(cat, start, players, events)
                == PlaceAll(cat, World(layer.blocks, Slots(players)), players, events[i..])
    {
      assert events[i..][0] == events[i] && events[i..][1..] == events[i + 1..];
      PlaceBlock(layer, cat, players, events[i]);
    }
    assert events[|events|..] == [];
  }
}
