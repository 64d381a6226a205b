/**
 * The chunk-streaming systems of src/world.rs as imperative code: the
 * `GameState` resource (registry plus the two worker channels), the chunk
 * layer, and the systems `update_client_views`, `send_recv_chunks`,
 * `remove_unviewed_chunks` and one iteration of a `chunk_worker`. Each
 * method is proved against the value-level description in module Registry,
 * and keeps the invariant `Registry.Consistent`.
 */
module Streaming {
  import opened Wrappers
  import opened Terrain
  import opened Registry

  /** The chunks of the world's layer (the part of valence's `ChunkLayer` the systems use). */
  class ChunkLayer {
    var chunks: Chunks

    /** The layer `setup_world` spawns: no chunk loaded. */
    constructor ()
      ensures chunks == map[]
    {
      chunks := map[];
    }

    /** `insert_chunk`: puts the grid at `pos`, keeping the viewer count of a chunk already there. */
    method InsertChunk(pos: ChunkPos, grid: Grid)
      modifies this
      ensures chunks == ChunksWith(old(chunks), pos, grid)
      ensures chunks.Keys == old(chunks).Keys + {pos} && chunks[pos].grid == grid
    {
      var viewers := if pos in chunks then chunks[pos].viewers else 0;
      chunks := chunks[pos := LoadedChunk(grid, viewers)];
    }
  }

  /**
   * `remove_unviewed_chunks`: drops every chunk nobody views; without a layer
   * it does nothing.
   */
  method RemoveUnviewedChunks(layer: ChunkLayer?)
    modifies layer
    ensures layer != null ==> layer.chunks == Viewed(old(layer.chunks))
    ensures layer != null ==>
              forall k :: k in layer.chunks <==> k in old(layer.chunks) && old(layer.chunks)[k].viewers > 0
  {
    if layer != null {
      layer.chunks := Viewed(layer.chunks);
    }
  }

  /** Inserting one entry into a list sorted by priority keeps it sorted and adds exactly that entry. */
  function InsertByPriority(e: (Priority, ChunkPos), s: seq<(Priority, ChunkPos)>): (r: seq<(Priority, ChunkPos)>)
    requires SortedByPriority(s)
    ensures SortedByPriority(r)
    ensures multiset(r) == multiset(s) + multiset{e}
    decreases |s|
  {
    if s == [] || e.0 <= s[0].0 then
      InsertAtFront(e, s);
      [e] + s
    else
      var tail := InsertByPriority(e, s[1..]);
      InsertBehindHead(e, s, tail);
      [s[0]] + tail
  }

  /** An entry no later than the head of a sorted list may go in front. */
  lemma InsertAtFront(e: (Priority, ChunkPos), s: seq<(Priority, ChunkPos)>)
    requires SortedByPriority(s) && (s == [] || e.0 <= s[0].0)
    ensures SortedByPriority([e] + s)
    ensures multiset([e] + s) == multiset(s) + multiset{e}
  {
    var r := [e] + s;
    forall i, j | 0 <= i < j < |r| ensures r[i].0 <= r[j].0 {
      if i > 0 {
        assert r[i] == s[i - 1] && r[j] == s[j - 1];
      } else {
        assert r[j] == s[j - 1];
        assert s[0].0 <= s[j - 1].0;
      }
    }
  }

  /** An entry later than the head of a sorted list goes into its tail. */
  lemma InsertBehindHead(e: (Priority, ChunkPos), s: seq<(Priority, ChunkPos)>, tail: seq<(Priority, ChunkPos)>)
    requires SortedByPriority(s) && s != [] && s[0].0 < e.0
    requires SortedByPriority(tail) && multiset(tail) == multiset(s[1..]) + multiset{e}
    ensures SortedByPriority([s[0]] + tail)
    ensures multiset([s[0]] + tail) == multiset(s) + multiset{e}
  {
    assert s == [s[0]] + s[1..];
    forall j | 0 <= j < |tail| ensures s[0].0 <= tail[j].0 {
      assert tail[j] in multiset(tail);
      if tail[j] != e {
        assert tail[j] in multiset(s[1..]);
        var k :| 0 <= k < |s[1..]| && s[1..][k] == tail[j];
        assert s[k + 1] == tail[j];
      }
    }
    var r := [s[0]] + tail;
    forall i, j | 0 <= i < j < |r| ensures r[i].0 <= r[j].0 {
      assert r[j] == tail[j - 1];
      if i > 0 {
        assert r[i] == tail[i - 1];
      }
    }
  }

  /** `to_send.sort_unstable_by_key(priority)`: a permutation in non-decreasing priority. */
  method SortByPriority(entries: seq<(Priority, ChunkPos)>) returns (sorted: seq<(Priority, ChunkPos)>)
    ensures SortedByPriority(sorted)
    ensures multiset(sorted) == multiset(entries)
  {
    sorted := [];
    for i := 0 to |entries|
      invariant SortedByPriority(sorted)
      invariant multiset(sorted) == multiset(entries[..i])
    {
      sorted := InsertByPriority(entries[i], sorted);
      assert entries[..i + 1] == entries[..i] + [entries[i]];
    }
    assert entries[..|entries|] == entries;
  }

  /**
   * The `GameState` resource together with the worker side of its channels:
   * `inbound` holds the positions sent to the workers and not yet taken,
   * `outbound` the finished chunks not yet received, and `connected` says
   * whether any worker still holds the receiving end of `inbound`.
   */
  class GameState {
    var pending: Pending
    var inbound: seq<ChunkPos>
    var outbound: seq<Received>
    var connected: bool
    /** The noise every worker samples (built once from the day's seed). */
    const noise: NoiseField

    ghost predicate Valid(layer: ChunkLayer)
      reads this, layer
    {
      Consistent(pending, layer.chunks, inbound, outbound)
    }

    /**
     * `setup_world`: an empty registry and empty channels. The worker side of
     * `inbound` stays connected as long as `workers` (eight in the source)
     * threads share it.
     */
    constructor (noise: NoiseField, workers: nat)
      ensures pending == map[] && inbound == [] && outbound == []
      ensures connected <==> workers > 0
      ensures this.noise == noise
      ensures forall layer: ChunkLayer :: layer.chunks == map[] ==> Consistent(pending, layer.chunks, inbound, outbound)
    {
      pending := map[];
      inbound := [];
      outbound := [];
      connected := workers > 0;
      this.noise := noise;
    }

    /** The `queue_pos` closure of `update_client_views`. */
    method QueuePos(layer: ChunkLayer, center: ChunkPos, pos: ChunkPos)
      modifies this`pending
      ensures pending == Request(old(pending), layer.chunks.Keys, center, pos)
    {
      if pos !in layer.chunks {
        var dist := DistanceSquared(center, pos);
        if pos in pending {
          if pending[pos].Some? {
            var priority := pending[pos].value;
            pending := pending[pos := Some(if priority <= dist then priority else dist)];
          }
        } else {
          pending := pending[pos := Some(dist)];
        }
      }
    }

    /** `queue_pos` applied to each position of a set, in an unspecified order. */
    method QueueAll(layer: ChunkLayer, center: ChunkPos, positions: set<ChunkPos>)
      modifies this`pending
      ensures pending == RequestAll(old(pending), layer.chunks.Keys, center, positions)
    {
      ghost var start := pending;
      var rest := positions;
      assert RequestAll(start, layer.chunks.Keys, center, {}) == start;
      while rest != {}
        invariant rest <= positions
        invariant pending == RequestAll(start, layer.chunks.Keys, center, positions - rest)
        decreases |rest|
      {
        var pos :| pos in rest;
        RequestAllStep(start, layer.chunks.Keys, center, positions - rest, pos);
        QueuePos(layer, center, pos);
        assert positions - rest + {pos} == positions - (rest - {pos});
        rest := rest - {pos};
      }
    }

    /**
     * `update_client_views`: every client requests its whole view when it was
     * just added, or the part of its view that is new when its view changed.
     * Without a layer nothing happens.
     */
    method UpdateClientViews(layer: ChunkLayer?, clients: seq<ClientView>)
      modifies this`pending
      ensures layer == null ==> pending == old(pending)
      ensures layer != null ==> pending == UpdateViews(old(pending), layer.chunks.Keys, clients)
      ensures layer != null && old(Valid(layer)) ==> Valid(layer)
    {
      if layer == null {
        return;
      }
      for i := 0 to |clients|
        invariant UpdateViews(old(pending), layer.chunks.Keys, clients)
                  == UpdateViews(pending, layer.chunks.Keys, clients[i..])
      {
        var client := clients[i];
        assert clients[i..][0] == client && clients[i..][1..] == clients[i + 1..];
        if client.added {
          QueueAll(layer, client.view.pos, client.view.chunks);
        } else if client.oldView != client.view {
          QueueAll(layer, client.view.pos, client.view.chunks - client.oldView.chunks);
        } else {
          assert RequestAll(pending, layer.chunks.Keys, client.view.pos, {}) == pending;
        }
      }
      assert clients[|clients|..] == [];
      if old(Valid(layer)) {
        UpdateViewsConsistent(old(pending), layer.chunks, inbound, outbound, clients);
      }
    }

    /**
     * The receiving half of `send_recv_chunks`: every finished chunk on the
     * channel is merged into the layer, in order, until one the registry does
     * not expect makes it panic.
     */
    method ReceiveChunks(layer: ChunkLayer) returns (fault: Option<Fault>)
      modifies this`pending, this`outbound, layer
      ensures var merged := MergeAll(Store(old(pending), old(layer.chunks)), old(outbound));
              && outbound == []
              && (merged.Panicked? ==> fault == Some(merged.fault))
              && (merged.Merged? ==> fault == None && pending == merged.store.pending && layer.chunks == merged.store.chunks)
      ensures old(Valid(layer)) ==> fault == None && Valid(layer)
    {
      if Valid(layer) {
        MergeAllConsistent(Store(pending, layer.chunks), inbound, outbound);
      }
      fault := None;
      var received := outbound;
      outbound := [];
      ghost var start := Store(pending, layer.chunks);
      var i := 0;
      while i < |received| && fault.None?
        invariant 0 <= i <= |received|
        invariant fault.None? ==> MergeAll(start, received) == MergeAll(Store(pending, layer.chunks), received[i..])
        invariant fault.Some? ==> MergeAll(start, received) == Panicked(fault.value)
        invariant outbound == []
        decreases |received| - i
      {
        var r := received[i];
        assert received[i..][0] == r && received[i..][1..] == received[i + 1..];
        if r.pos in pending {
          var entry := pending[r.pos];
          pending := pending - {r.pos};
          if entry.None? {
            layer.InsertChunk(r.pos, r.grid);
          } else {
            pending := pending[r.pos := entry];
            fault := Some(StillQueued(r.pos));
          }
        } else {
          fault := Some(NotPending(r.pos));
        }
        i := i + 1;
      }
      if fault.None? {
        assert received[|received|..] == [];
      }
    }

    /**
     * The collecting loop of `send_recv_chunks`: takes every queued priority,
     * leaving each entry dispatched, and returns the taken (priority, position)
     * pairs, one per queued entry.
     */
    method TakeQueued() returns (toSend: seq<(Priority, ChunkPos)>)
      modifies this`pending
      ensures pending == TakeAll(old(pending))
      ensures multiset(toSend) == multiset(QueuedEntries(old(pending)))
    {
      ghost var start := pending;
      toSend := [];
      var keys := pending.Keys;
      assert pending == TakenExcept(start, keys);
      while keys != {}
        invariant keys <= start.Keys
        invariant pending == TakenExcept(start, keys)
        invariant multiset(toSend) == multiset(QueuedAmong(start, start.Keys - keys))
        decreases |keys|
      {
        var pos :| pos in keys;
        QueuedAmongStep(start, start.Keys - keys, pos);
        TakeOne(start, keys, pos);
        var entry := pending[pos];
        pending := pending[pos := None];
        if entry.Some? {
          toSend := toSend + [(entry.value, pos)];
        }
        keys := keys - {pos};
      }
      assert TakenExcept(start, {}) == TakeAll(start);
    }

    /**
     * The sending loop of `send_recv_chunks`: each position goes on the worker
     * channel; when the channel is disconnected the send fails and the entry,
     * if present, is put back at priority 0.
     */
    method SendInOrder(order: seq<(Priority, ChunkPos)>)
      modifies this`pending, this`inbound
      ensures (pending, inbound) == SendAll(old(pending), old(inbound), connected, order)
    {
      for j := 0 to |order|
        invariant SendAll(old(pending), old(inbound), connected, order) == SendAll(pending, inbound, connected, order[j..])
      {
        assert order[j..][0] == order[j] && order[j..][1..] == order[j + 1..];
        var pos := order[j].1;
        if connected {
          inbound := inbound + [pos];
        } else if pos in pending {
          pending := pending[pos := Some(0)];
        }
      }
      assert order[|order|..] == [];
    }

    /**
     * The second half of `send_recv_chunks`: takes every queued entry, sorts
     * the taken entries by priority and sends them in that order. From a
     * consistent state with no result waiting, the state stays consistent.
     */
    method Dispatch(ghost layer: ChunkLayer) returns (order: seq<(Priority, ChunkPos)>)
      modifies this`pending, this`inbound
      ensures IsDispatchOrder(old(pending), order)
      ensures (pending, inbound) == SendAll(TakeAll(old(pending)), old(inbound), connected, order)
      ensures old(Valid(layer)) && outbound == [] ==> Valid(layer)
    {
      ghost var queued := pending;
      ghost var inbound0 := inbound;
      var toSend := TakeQueued();
      order := SortByPriority(toSend);
      SendInOrder(order);
      if outbound == [] && Consistent(queued, layer.chunks, inbound0, outbound) {
        DispatchConsistent(queued, layer.chunks, inbound0, connected, order);
      }
    }

    /**
     * `send_recv_chunks`: merges every finished chunk into the layer (panicking
     * on a result the registry does not expect), then takes every queued entry
     * and sends its position to the workers, closest first; a failed send puts
     * the entry back at priority 0. `order` is the order of the sends. Without
     * a layer nothing happens. From a consistent state it never panics and the
     * state stays consistent.
     */
    method SendRecvChunks(layer: ChunkLayer?) returns (fault: Option<Fault>, order: seq<(Priority, ChunkPos)>)
      modifies this`pending, this`inbound, this`outbound, layer
      ensures layer == null ==>
                && fault == None && order == []
                && pending == old(pending) && inbound == old(inbound) && outbound == old(outbound)
      ensures layer != null ==>
                var merged := MergeAll(Store(old(pending), old(layer.chunks)), old(outbound));
                && outbound == []
                && (merged.Panicked? ==> fault == Some(merged.fault))
                && (merged.Merged? ==>
                      && fault == None
                      && layer.chunks == merged.store.chunks
                      && IsDispatchOrder(merged.store.pending, order)
                      && (pending, inbound) == SendAll(TakeAll(merged.store.pending), old(inbound), connected, order))
      ensures layer != null && old(Valid(layer)) ==> fault == None && Valid(layer)
    {
      order := [];
      if layer == null {
        fault := None;
        return;
      }
      fault := ReceiveChunks(layer);
      if fault.None? {
        order := Dispatch(layer);
      }
    }

    /**
     * One iteration of a `chunk_worker`: take the oldest position sent, generate
     * its chunk and send it back. With nothing sent the worker waits, which
     * changes nothing. `layer` only names the layer the invariant is about.
     */
    method WorkerStep(ghost layer: ChunkLayer) returns (served: Option<ChunkPos>)
      modifies this`inbound, this`outbound
      ensures old(inbound) == [] ==> served == None && inbound == old(inbound) && outbound == old(outbound)
      ensures old(inbound) != [] ==>
                && served == Some(old(inbound)[0])
                && inbound == old(inbound)[1..]
                && outbound == old(outbound) + [Received(old(inbound)[0], ChunkAt(noise, old(inbound)[0]))]
      ensures old(Valid(layer)) ==> Valid(layer)
    {
      if inbound == [] {
        return None;
      }
      var pos := inbound[0];
      inbound := inbound[1..];
      var grid := GenerateChunk(noise, pos);
      outbound := outbound + [Received(pos, grid)];
      served := Some(pos);
      if old(Valid(layer)) {
        WorkerStepConsistent(pending, layer.chunks, old(inbound), old(outbound), grid);
      }
    }

    /**
     * The chained world systems of one tick (`update_client_views` then
     * `send_recv_chunks`): from a consistent state they never panic. The
     * registry takes the views' requests, every finished chunk is merged, and
     * then every queued position is sent closest first; the state stays
     * consistent.
     */
    method Tick(layer: ChunkLayer, clients: seq<ClientView>)
      returns (fault: Option<Fault>, order: seq<(Priority, ChunkPos)>)
      requires Valid(layer)
      modifies this`pending, this`inbound, this`outbound, layer
      ensures fault == None
      ensures var viewed := UpdateViews(old(pending), old(layer.chunks).Keys, clients);
              var merged := MergeAll(Store(viewed, old(layer.chunks)), old(outbound));
              && merged.Merged?
              && layer.chunks == merged.store.chunks
              && IsDispatchOrder(merged.store.pending, order)
              && (pending, inbound) == SendAll(TakeAll(merged.store.pending), old(inbound), connected, order)
      ensures outbound == []
      ensures Valid(layer)
    {
      UpdateClientViews(layer, clients);
      fault, order := SendRecvChunks(layer);
      MergeAllConsistent(Store(UpdateViews(old(pending), old(layer.chunks).Keys, clients), old(layer.chunks)),
                         old(inbound), old(outbound));
    }
  }
}
