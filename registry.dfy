/**
 * The chunk-streaming state of src/world.rs, as values: the pending registry
 * (`GameState.pending`), the loaded chunks of the layer, and the two worker
 * channels. Each function here is what one step of `update_client_views`,
 * `send_recv_chunks`, `chunk_worker` or `remove_unviewed_chunks` does to that
 * state; the lemmas state the registry's promises and the invariant that ties
 * the registry to the channels and to the layer.
 */
module Registry {
  import opened Wrappers
  import opened Terrain

  /** `Priority`: squared distance to the viewer, smaller is more urgent. */
  type Priority = nat

  /**
   * `pending`: `Some(p)` is queued with priority p, `None` has been handed to a
   * worker and awaits its result.
   */
  type Pending = map<ChunkPos, Option<Priority>>

  /** A chunk of the layer with the number of clients currently viewing it. */
  datatype LoadedChunk = LoadedChunk(grid: Grid, viewers: nat)

  type Chunks = map<ChunkPos, LoadedChunk>

  function Square(d: int): nat
  {
    if d < 0 then (-d) * (-d) else d * d
  }

  /** `ChunkPos::distance_squared`. */
  function DistanceSquared(a: ChunkPos, b: ChunkPos): nat
  {
    Square(a.x - b.x) + Square(a.z - b.z)
  }

  function Min(a: nat, b: nat): nat
  {
    if a <= b then a else b
  }

  // ---------------------------------------------------------------------
  // Requests (`queue_pos` inside `update_client_views`)
  // ---------------------------------------------------------------------

  /** The entry `queue_pos` leaves for a position that is not loaded. */
  function RequestedEntry(pending: Pending, center: ChunkPos, pos: ChunkPos): Option<Priority>
  {
    var d := DistanceSquared(center, pos);
    if pos !in pending then Some(d)
    else match pending[pos]
      case Some(p) => Some(Min(p, d))
      case None => None
  }

  /** `queue_pos(pos)` for a viewer centred on `center`, with `loaded` the layer's chunks. */
  function Request(pending: Pending, loaded: set<ChunkPos>, center: ChunkPos, pos: ChunkPos): Pending
  {
    if pos in loaded then pending
    else pending[pos := RequestedEntry(pending, center, pos)]
  }

  /** `queue_pos` applied to every position of `s` (the order does not matter). */
  function RequestAll(pending: Pending, loaded: set<ChunkPos>, center: ChunkPos, s: set<ChunkPos>): Pending
  {
    map k | k in pending.Keys + (s - loaded) ::
      if k in s && k !in loaded then RequestedEntry(pending, center, k) else pending[k]
  }

  /**
   * `after` is what some requests may have made of `before`: no key is lost,
   * a dispatched entry stays dispatched, and a queued entry stays queued with a
   * priority that is no larger.
   */
  ghost predicate Refines(before: Pending, after: Pending)
  {
    && before.Keys <= after.Keys
    && (forall k :: k in before && before[k].None? ==> after[k].None?)
    && (forall k :: k in before && before[k].Some? ==>
          after[k].Some? && after[k].value <= before[k].value)
  }

  /**
   * What one request does: nothing for a loaded position; a fresh `Some(d)`
   * for an absent one; `Some(min(p, d))` for one queued at p; nothing for a
   * dispatched one. No other key changes.
   */
  lemma RequestCases(pending: Pending, loaded: set<ChunkPos>, center: ChunkPos, pos: ChunkPos)
    ensures pos in loaded ==> Request(pending, loaded, center, pos) == pending
    ensures pos !in loaded && pos !in pending ==>
              Request(pending, loaded, center, pos) == pending[pos := Some(DistanceSquared(center, pos))]
    ensures pos !in loaded && pos in pending && pending[pos].Some? ==>
              Request(pending, loaded, center, pos)
                == pending[pos := Some(Min(pending[pos].value, DistanceSquared(center, pos)))]
    ensures pos in pending && pending[pos].None? ==> Request(pending, loaded, center, pos) == pending
  {
    if pos in pending && pending[pos].None? && pos !in loaded {
      assert pending[pos := None] == pending;
    }
  }

  /** A request never raises a priority, never re-queues a dispatched entry, never drops a key. */
  lemma RequestRefines(pending: Pending, loaded: set<ChunkPos>, center: ChunkPos, pos: ChunkPos)
    ensures Refines(pending, Request(pending, loaded, center, pos))
  {
  }

  /** Requests by two viewers for the same absent position leave one entry with the smaller distance. */
  lemma RequestTwiceKeepsMin(pending: Pending, loaded: set<ChunkPos>, c1: ChunkPos, c2: ChunkPos, pos: ChunkPos)
    requires pos !in loaded && pos !in pending
    ensures Request(Request(pending, loaded, c1, pos), loaded, c2, pos)
            == pending[pos := Some(Min(DistanceSquared(c1, pos), DistanceSquared(c2, pos)))]
  {
  }

  /** After its entry is removed, a position is requested exactly as if for the first time. */
  lemma RequestAfterRemoval(pending: Pending, loaded: set<ChunkPos>, center: ChunkPos, pos: ChunkPos)
    requires pos !in loaded
    ensures Request(pending - {pos}, loaded, center, pos)
            == (pending - {pos})[pos := Some(DistanceSquared(center, pos))]
  {
  }

  /** Requesting one more position of the set extends `RequestAll` by that position. */
  lemma {:induction false} RequestAllStep(pending: Pending, loaded: set<ChunkPos>, center: ChunkPos,
                                          done: set<ChunkPos>, pos: ChunkPos)
    requires pos !in done
    ensures Request(RequestAll(pending, loaded, center, done), loaded, center, pos)
            == RequestAll(pending, loaded, center, done + {pos})
  {
    var before := RequestAll(pending, loaded, center, done);
    var lhs := Request(before, loaded, center, pos);
    var rhs := RequestAll(pending, loaded, center, done + {pos});
    if pos !in loaded {
      assert RequestedEntry(before, center, pos) == RequestedEntry(pending, center, pos) by {
        assert pos in before <==> pos in pending;
        if pos in pending {
          assert before[pos] == pending[pos];
        }
      }
    }
    assert lhs.Keys == rhs.Keys;
    assert forall k :: k in lhs ==> lhs[k] == rhs[k];
  }

  /** Requesting a set of positions refines the registry and adds exactly the unloaded ones. */
  lemma RequestAllRefines(pending: Pending, loaded: set<ChunkPos>, center: ChunkPos, s: set<ChunkPos>)
    ensures Refines(pending, RequestAll(pending, loaded, center, s))
    ensures RequestAll(pending, loaded, center, s).Keys == pending.Keys + (s - loaded)
  {
  }

  // ---------------------------------------------------------------------
  // Views (`update_client_views`)
  // ---------------------------------------------------------------------

  /** A client's view: its centre and the chunks within its view distance. */
  datatype View = View(pos: ChunkPos, chunks: set<ChunkPos>)

  /** What `update_client_views` reads for one client. */
  datatype ClientView = ClientView(added: bool, view: View, oldView: View)

  /**
   * The positions a client requests this tick: its whole view when it was just
   * added, otherwise `view.diff(old_view)` when the view changed, else nothing.
   */
  function NewlyInView(c: ClientView): set<ChunkPos>
  {
    if c.added then c.view.chunks
    else if c.oldView != c.view then c.view.chunks - c.oldView.chunks
    else {}
  }

  /** `update_client_views`: every client, in turn, requests what entered its view. */
  function UpdateViews(pending: Pending, loaded: set<ChunkPos>, clients: seq<ClientView>): Pending
    decreases |clients|
  {
    if clients == [] then pending
    else
      var c := clients[0];
      UpdateViews(RequestAll(pending, loaded, c.view.pos, NewlyInView(c)), loaded, clients[1..])
  }

  /** Everything the clients request this tick. */
  function AllNewlyInView(clients: seq<ClientView>): set<ChunkPos>
    decreases |clients|
  {
    if clients == [] then {} else NewlyInView(clients[0]) + AllNewlyInView(clients[1..])
  }

  /**
   * A newly added client requests its whole view; a client whose view has not
   * changed requests nothing and leaves the registry as it was.
   */
  lemma ClientRequests(pending: Pending, loaded: set<ChunkPos>, c: ClientView)
    ensures c.added ==>
              forall k :: k in c.view.chunks && k !in loaded ==>
                k in RequestAll(pending, loaded, c.view.pos, NewlyInView(c))
    ensures !c.added && c.oldView == c.view ==>
              RequestAll(pending, loaded, c.view.pos, NewlyInView(c)) == pending
    ensures !c.added && c.oldView != c.view ==> NewlyInView(c) == c.view.chunks - c.oldView.chunks
  {
    if !c.added && c.oldView == c.view {
      assert RequestAll(pending, loaded, c.view.pos, {}) == pending;
    }
  }

  lemma RefinesTransitive(a: Pending, b: Pending, c: Pending)
    requires Refines(a, b) && Refines(b, c)
    ensures Refines(a, c)
  {
  }

  /**
   * A whole `update_client_views` pass: priorities never increase, dispatched
   * entries are untouched, and the registry gains exactly the requested
   * positions that are not loaded.
   */
  lemma {:induction false} UpdateViewsRefines(pending: Pending, loaded: set<ChunkPos>, clients: seq<ClientView>)
    ensures Refines(pending, UpdateViews(pending, loaded, clients))
    ensures UpdateViews(pending, loaded, clients).Keys == pending.Keys + (AllNewlyInView(clients) - loaded)
    decreases |clients|
  {
    if clients != [] {
      var c := clients[0];
      var next := RequestAll(pending, loaded, c.view.pos, NewlyInView(c));
      RequestAllRefines(pending, loaded, c.view.pos, NewlyInView(c));
      UpdateViewsRefines(next, loaded, clients[1..]);
      RefinesTransitive(pending, next, UpdateViews(next, loaded, clients[1..]));
    }
  }

  // ---------------------------------------------------------------------
  // Receiving finished chunks (first half of `send_recv_chunks`)
  // ---------------------------------------------------------------------

  /** A finished chunk on the channel from the workers. */
  datatype Received = Received(pos: ChunkPos, grid: Grid)

  /** The two conditions on which `send_recv_chunks` panics. */
  datatype Fault =
    | StillQueued(pos: ChunkPos)   // a result for a position still holding a priority
    | NotPending(pos: ChunkPos)    // a result for a position the registry does not hold

  /** The registry together with the layer's chunks. */
  datatype Store = Store(pending: Pending, chunks: Chunks)

  datatype MergeResult = Merged(store: Store) | Panicked(fault: Fault)

  /**
   * `insert_chunk`: the grid replaces any chunk at that position, which keeps
   * its viewer count; a new chunk starts with none.
   */
  function ChunksWith(chunks: Chunks, pos: ChunkPos, grid: Grid): Chunks
  {
    chunks[pos := LoadedChunk(grid, if pos in chunks then chunks[pos].viewers else 0)]
  }

  /** Merging one received chunk. */
  function MergeOne(s: Store, r: Received): MergeResult
  {
    if r.pos !in s.pending then Panicked(NotPending(r.pos))
    else if s.pending[r.pos].Some? then Panicked(StillQueued(r.pos))
    else Merged(Store(s.pending - {r.pos}, ChunksWith(s.chunks, r.pos, r.grid)))
  }

  /** Merging every received chunk in order, stopping at the first panic. */
  function MergeAll(s: Store, rs: seq<Received>): MergeResult
    decreases |rs|
  {
    if rs == [] then Merged(s)
    else match MergeOne(s, rs[0])
      case Merged(s') => MergeAll(s', rs[1..])
      case Panicked(f) => Panicked(f)
  }

  /**
   * A result for a dispatched position removes its registry entry and puts the
   * chunk in the layer, keeping the viewer count of a chunk already there;
   * no other entry and no other chunk changes. A result for a queued or an
   * absent position panics.
   */
  lemma MergeOneCases(s: Store, r: Received)
    ensures r.pos in s.pending && s.pending[r.pos].None? ==>
              var s' := MergeOne(s, r).store;
              && MergeOne(s, r).Merged?
              && s'.pending.Keys == s.pending.Keys - {r.pos}
              && (forall k :: k in s'.pending ==> s'.pending[k] == s.pending[k])
              && s'.chunks.Keys == s.chunks.Keys + {r.pos}
              && s'.chunks[r.pos].grid == r.grid
              && (r.pos in s.chunks ==> s'.chunks[r.pos].viewers == s.chunks[r.pos].viewers)
              && (r.pos !in s.chunks ==> s'.chunks[r.pos].viewers == 0)
              && (forall k :: k in s.chunks && k != r.pos ==> s'.chunks[k] == s.chunks[k])
    ensures r.pos !in s.pending ==> MergeOne(s, r) == Panicked(NotPending(r.pos))
    ensures r.pos in s.pending && s.pending[r.pos].Some? ==> MergeOne(s, r) == Panicked(StillQueued(r.pos))
  {
  }

  // ---------------------------------------------------------------------
  // Dispatching (second half of `send_recv_chunks`)
  // ---------------------------------------------------------------------

  /** The queued entries, as the (priority, position) pairs `to_send` collects. */
  function QueuedAmong(pending: Pending, keys: set<ChunkPos>): set<(Priority, ChunkPos)>
  {
    set k | k in keys && k in pending && pending[k].Some? :: (pending[k].value, k)
  }

  function QueuedEntries(pending: Pending): set<(Priority, ChunkPos)>
  {
    QueuedAmong(pending, pending.Keys)
  }

  /** Looking at one more key adds its queued entry, if any, to the collected ones. */
  lemma QueuedAmongStep(pending: Pending, done: set<ChunkPos>, pos: ChunkPos)
    requires pos !in done && pos in pending
    ensures multiset(QueuedAmong(pending, done + {pos}))
            == multiset(QueuedAmong(pending, done))
               + if pending[pos].Some? then multiset{(pending[pos].value, pos)} else multiset{}
  {
    var before := QueuedAmong(pending, done);
    var after := QueuedAmong(pending, done + {pos});
    if pending[pos].Some? {
      var e := (pending[pos].value, pos);
      assert after == before + {e};
      assert e !in before;
    } else {
      assert after == before;
    }
  }

  /** Every entry after `priority.take()` on all of them: all dispatched. */
  function TakeAll(pending: Pending): (r: Pending)
  {
    map k | k in pending :: None
  }

  /** The registry while draining: the keys of `keys` still hold their entry, every other key is dispatched. */
  function TakenExcept(pending: Pending, keys: set<ChunkPos>): Pending
  {
    map k | k in pending :: if k in keys then pending[k] else None
  }

  /** Taking the priority of one more key. */
  lemma TakeOne(pending: Pending, keys: set<ChunkPos>, pos: ChunkPos)
    requires pos in keys && keys <= pending.Keys
    ensures TakenExcept(pending, keys)[pos] == pending[pos]
    ensures TakenExcept(pending, keys)[pos := None] == TakenExcept(pending, keys - {pos})
    ensures (pending.Keys - keys) + {pos} == pending.Keys - (keys - {pos})
  {
    var lhs := TakenExcept(pending, keys)[pos := None];
    var rhs := TakenExcept(pending, keys - {pos});
    assert lhs.Keys == rhs.Keys;
  }

  predicate SortedByPriority(order: seq<(Priority, ChunkPos)>)
  {
    forall i, j :: 0 <= i < j < |order| ==> order[i].0 <= order[j].0
  }

  /** A valid dispatch order: each queued entry exactly once, in non-decreasing priority. */
  ghost predicate IsDispatchOrder(pending: Pending, order: seq<(Priority, ChunkPos)>)
  {
    SortedByPriority(order) && multiset(order) == multiset(QueuedEntries(pending))
  }

  function Positions(order: seq<(Priority, ChunkPos)>): (ps: seq<ChunkPos>)
    ensures |ps| == |order|
    ensures forall i :: 0 <= i < |order| ==> ps[i] == order[i].1
  {
    if order == [] then [] else [order[0].1] + Positions(order[1..])
  }

  predicate NoDuplicates<T(==)>(s: seq<T>)
  {
    forall i, j :: 0 <= i < j < |s| ==> s[i] != s[j]
  }

  /**
   * The send loop: with the worker channel connected every position is
   * appended to it; once the workers are gone `try_send` fails and the entry
   * is put back as `Some(0)`.
   */
  function SendAll(pending: Pending, inbound: seq<ChunkPos>, connected: bool,
                   order: seq<(Priority, ChunkPos)>): (Pending, seq<ChunkPos>)
    decreases |order|
  {
    if order == [] then (pending, inbound)
    else
      var pos := order[0].1;
      if connected then SendAll(pending, inbound + [pos], connected, order[1..])
      else SendAll(if pos in pending then pending[pos := Some(0)] else pending, inbound, connected, order[1..])
  }

  /** The registry after the positions `ps` were put back at priority 0. */
  function Requeued(pending: Pending, ps: seq<ChunkPos>): Pending
  {
    map k | k in pending :: if k in ps then Some(0) else pending[k]
  }

  /** With the workers connected, the send loop appends the positions in order and changes no entry. */
  lemma {:induction false} SendAllConnected(pending: Pending, inbound: seq<ChunkPos>,
                                            order: seq<(Priority, ChunkPos)>)
    ensures SendAll(pending, inbound, true, order) == (pending, inbound + Positions(order))
    decreases |order|
  {
    if order != [] {
      var pos := order[0].1;
      var rest := order[1..];
      assert Positions(order) == [pos] + Positions(rest);
      SendAllConnected(pending, inbound + [pos], rest);
      assert inbound + [pos] + Positions(rest) == inbound + Positions(order);
    } else {
      assert inbound + Positions(order) == inbound;
    }
  }

  /** With the workers gone, every send fails and puts its position back at priority 0. */
  lemma {:induction false} SendAllDisconnected(pending: Pending, inbound: seq<ChunkPos>,
                                               order: seq<(Priority, ChunkPos)>)
    ensures SendAll(pending, inbound, false, order) == (Requeued(pending, Positions(order)), inbound)
    decreases |order|
  {
    if order != [] {
      var pos := order[0].1;
      var rest := order[1..];
      assert Positions(order) == [pos] + Positions(rest);
      var next := if pos in pending then pending[pos := Some(0)] else pending;
      assert SendAll(pending, inbound, false, order) == SendAll(next, inbound, false, rest);
      SendAllDisconnected(next, inbound, rest);
      var lhs := Requeued(next, Positions(rest));
      var rhs := Requeued(pending, Positions(order));
      assert lhs.Keys == rhs.Keys;
      forall k | k in lhs ensures lhs[k] == rhs[k] {
        assert k in Positions(order) <==> k == pos || k in Positions(rest);
      }
      assert lhs == rhs;
    } else {
      assert Requeued(pending, Positions(order)) == pending;
    }
  }

  /** An element at two indices of a sequence occurs at least twice in its multiset. */
  lemma TwiceInSeq<T>(s: seq<T>, i: int, j: int)
    requires 0 <= i < j < |s| && s[i] == s[j]
    ensures multiset(s)[s[i]] >= 2
  {
    assert s == s[..j] + [s[j]] + s[j + 1..];
    assert s[..j][i] == s[i];
    assert s[i] in multiset(s[..j]);
  }

  /**
   * What a dispatch order holds: each entry carries its position's queued
   * priority, no position occurs twice, and every queued position occurs.
   */
  lemma {:induction false} DispatchOrderFacts(pending: Pending, order: seq<(Priority, ChunkPos)>)
    requires multiset(order) == multiset(QueuedEntries(pending))
    ensures forall i :: 0 <= i < |order| ==>
              order[i].1 in pending && pending[order[i].1] == Some(order[i].0)
    ensures NoDuplicates(Positions(order))
    ensures forall k :: k in pending && pending[k].Some? <==> k in Positions(order)
  {
    forall i | 0 <= i < |order|
      ensures order[i].1 in pending && pending[order[i].1] == Some(order[i].0)
    {
      assert order[i] in multiset(order);
      assert order[i] in QueuedEntries(pending);
    }
    forall i, j | 0 <= i < j < |order|
      ensures Positions(order)[i] != Positions(order)[j]
    {
      if order[i].1 == order[j].1 {
        assert order[i] == order[j];
        assert multiset(QueuedEntries(pending))[order[i]] <= 1;
        TwiceInSeq(order, i, j);
        assert false;
      }
    }
    forall k | k in pending && pending[k].Some?
      ensures k in Positions(order)
    {
      var e := (pending[k].value, k);
      assert e in QueuedEntries(pending);
      assert e in multiset(order);
      var i :| 0 <= i < |order| && order[i] == e;
      assert Positions(order)[i] == k;
    }
  }

  /**
   * Draining then sending: with the channel connected every queued entry is
   * dispatched and sent, closest first; otherwise every queued entry comes
   * back queued at priority 0. Dispatched entries stay dispatched.
   */
  lemma DispatchOutcome(pending: Pending, inbound: seq<ChunkPos>, connected: bool,
                        order: seq<(Priority, ChunkPos)>)
    requires IsDispatchOrder(pending, order)
    ensures connected ==> SendAll(TakeAll(pending), inbound, connected, order)
                            == (TakeAll(pending), inbound + Positions(order))
    ensures !connected ==> SendAll(TakeAll(pending), inbound, connected, order).1 == inbound
    ensures !connected ==>
              var after := SendAll(TakeAll(pending), inbound, connected, order).0;
              after.Keys == pending.Keys
              && forall k :: k in pending ==> after[k] == if pending[k].Some? then Some(0) else None
  {
    if connected {
      SendAllConnected(TakeAll(pending), inbound, order);
    } else {
      SendAllDisconnected(TakeAll(pending), inbound, order);
    }
    DispatchOrderFacts(pending, order);
  }

  // ---------------------------------------------------------------------
  // Workers (`chunk_worker`) and eviction (`remove_unviewed_chunks`)
  // ---------------------------------------------------------------------

  /** `retain_chunks(|_, chunk| chunk.viewer_count() > 0)`. */
  function Viewed(chunks: Chunks): (r: Chunks)
    ensures forall k :: k in r <==> k in chunks && chunks[k].viewers > 0
    ensures forall k :: k in r ==> r[k] == chunks[k]
  {
    map k | k in chunks && chunks[k].viewers > 0 :: chunks[k]
  }

  // ---------------------------------------------------------------------
  // The streaming invariant
  // ---------------------------------------------------------------------

  function ResultPositions(outbound: seq<Received>): (ps: seq<ChunkPos>)
    ensures |ps| == |outbound|
    ensures forall i :: 0 <= i < |outbound| ==> ps[i] == outbound[i].pos
  {
    if outbound == [] then [] else [outbound[0].pos] + ResultPositions(outbound[1..])
  }

  /** The positions some worker is, or has been, generating and whose result is not merged yet. */
  function InFlight(inbound: seq<ChunkPos>, outbound: seq<Received>): seq<ChunkPos>
  {
    inbound + ResultPositions(outbound)
  }

  /**
   * No position is both pending and loaded; at most one generation job per
   * position is in flight; and a position is in flight exactly when its entry
   * is dispatched.
   */
  ghost predicate Consistent(pending: Pending, chunks: Chunks, inbound: seq<ChunkPos>, outbound: seq<Received>)
  {
    && pending.Keys !! chunks.Keys
    && NoDuplicates(InFlight(inbound, outbound))
    && (forall k :: k in InFlight(inbound, outbound) <==> k in pending && pending[k].None?)
  }

  /** `update_client_views` keeps the invariant. */
  lemma {:induction false} UpdateViewsConsistent(pending: Pending, chunks: Chunks, inbound: seq<ChunkPos>,
                                                 outbound: seq<Received>, clients: seq<ClientView>)
    requires Consistent(pending, chunks, inbound, outbound)
    ensures Consistent(UpdateViews(pending, chunks.Keys, clients), chunks, inbound, outbound)
  {
    var after := UpdateViews(pending, chunks.Keys, clients);
    UpdateViewsRefines(pending, chunks.Keys, clients);
    forall k | k in after && after[k].None?
      ensures k in pending
    {
      if k !in pending {
        UpdateViewsNewKeysQueued(pending, chunks.Keys, clients, k);
      }
    }
  }

  /** A key a pass of `update_client_views` adds is queued, never dispatched. */
  lemma {:induction false} UpdateViewsNewKeysQueued(pending: Pending, loaded: set<ChunkPos>,
                                                    clients: seq<ClientView>, k: ChunkPos)
    requires k !in pending && k in UpdateViews(pending, loaded, clients)
    ensures UpdateViews(pending, loaded, clients)[k].Some?
    decreases |clients|
  {
    if clients != [] {
      var c := clients[0];
      var next := RequestAll(pending, loaded, c.view.pos, NewlyInView(c));
      if k in next {
        assert next[k].Some?;
        UpdateViewsRefines(next, loaded, clients[1..]);
      } else {
        UpdateViewsNewKeysQueued(next, loaded, clients[1..], k);
      }
    }
  }

  /** The positions of a batch of results. */
  function ResultSet(outbound: seq<Received>): (ps: set<ChunkPos>)
    ensures forall r :: r in outbound ==> r.pos in ps
    decreases |outbound|
  {
    if outbound == [] then {} else {outbound[0].pos} + ResultSet(outbound[1..])
  }

  /** Dropping one element of a sequence without duplicates. */
  lemma DropOne<T>(a: seq<T>, x: T, b: seq<T>)
    requires NoDuplicates(a + [x] + b)
    ensures NoDuplicates(a + b)
    ensures forall k :: k in a + b <==> k in a + [x] + b && k != x
  {
    var s := a + [x] + b;
    var t := a + b;
    forall i, j | 0 <= i < j < |t| ensures t[i] != t[j] {
      var i' := if i < |a| then i else i + 1;
      var j' := if j < |a| then j else j + 1;
      assert t[i] == s[i'] && t[j] == s[j'];
    }
    forall k | k in t ensures k != x {
      var i :| 0 <= i < |t| && t[i] == k;
      var i' := if i < |a| then i else i + 1;
      assert s[i'] == k && s[|a|] == x;
    }
    forall k | k in s && k != x ensures k in t {
      var i :| 0 <= i < |s| && s[i] == k;
      var i' := if i < |a| then i else i - 1;
      assert t[i'] == k;
    }
  }

  /**
   * Under the invariant, merging every result on the channel never panics: it
   * removes the results' positions from the registry, puts each result's
   * chunk, with no viewers yet, at its position, leaves the chunks already
   * loaded as they were, and leaves the invariant holding with the channel
   * empty.
   */
  lemma {:induction false} MergeAllConsistent(s: Store, inbound: seq<ChunkPos>, outbound: seq<Received>)
    requires Consistent(s.pending, s.chunks, inbound, outbound)
    ensures MergeAll(s, outbound).Merged?
    ensures var s' := MergeAll(s, outbound).store;
            && Consistent(s'.pending, s'.chunks, inbound, [])
            && s'.pending == s.pending - ResultSet(outbound)
            && s'.chunks.Keys == s.chunks.Keys + ResultSet(outbound)
            && (forall k :: k in s.chunks ==> s'.chunks[k] == s.chunks[k])
            && (forall r :: r in outbound ==> s'.chunks[r.pos] == LoadedChunk(r.grid, 0))
    decreases |outbound|
  {
    if outbound != [] {
      var r := outbound[0];
      var rest := outbound[1..];
      assert ResultPositions(outbound) == [r.pos] + ResultPositions(rest);
      assert InFlight(inbound, outbound) == inbound + [r.pos] + ResultPositions(rest);
      DropOne(inbound, r.pos, ResultPositions(rest));
      assert r.pos in InFlight(inbound, outbound);
      var next := MergeOne(s, r).store;
      assert r.pos !in s.chunks;
      assert next.chunks == s.chunks[r.pos := LoadedChunk(r.grid, 0)];
      MergeAllConsistent(next, inbound, rest);
      assert next.pending - ResultSet(rest) == s.pending - ResultSet(outbound);
      var s' := MergeAll(s, outbound).store;
      forall x | x in outbound
        ensures s'.chunks[x.pos] == LoadedChunk(x.grid, 0)
      {
        if x != r {
          assert x in rest;
        }
      }
    }
  }

  /**
   * Draining and sending keeps the invariant: the sent positions join the
   * in-flight ones, or, with the workers gone, return to the queue.
   */
  lemma DispatchConsistent(pending: Pending, chunks: Chunks, inbound: seq<ChunkPos>, connected: bool,
                           order: seq<(Priority, ChunkPos)>)
    requires Consistent(pending, chunks, inbound, [])
    requires IsDispatchOrder(pending, order)
    ensures var (after, inbound') := SendAll(TakeAll(pending), inbound, connected, order);
            Consistent(after, chunks, inbound', [])
  {
    DispatchOutcome(pending, inbound, connected, order);
    DispatchOrderFacts(pending, order);
    assert InFlight(inbound, []) == inbound;
    if connected {
      var ps := Positions(order);
      var inbound' := inbound + ps;
      assert InFlight(inbound', []) == inbound';
      forall i, j | 0 <= i < j < |inbound'| ensures inbound'[i] != inbound'[j] {
        if j >= |inbound| && i < |inbound| {
          assert inbound'[j] == ps[j - |inbound|];
          assert inbound[i] in InFlight(inbound, []);
        } else if i >= |inbound| {
          assert inbound'[i] == ps[i - |inbound|] && inbound'[j] == ps[j - |inbound|];
        } else {
          assert inbound'[i] == inbound[i] && inbound'[j] == inbound[j];
        }
      }
      forall k | k in pending ensures k in inbound' {
        if pending[k].None? {
          assert k in InFlight(inbound, []);
        } else {
          var i :| 0 <= i < |ps| && ps[i] == k;
          assert inbound'[|inbound| + i] == k;
        }
      }
    }
  }

  /** Moving the first element of a sequence to its end keeps its elements and their distinctness. */
  lemma RotateFirst<T>(a: seq<T>, b: seq<T>)
    requires a != [] && NoDuplicates(a + b)
    ensures NoDuplicates(a[1..] + b + [a[0]])
    ensures forall k :: k in a[1..] + b + [a[0]] <==> k in a + b
  {
    var s := a + b;
    var t := a[1..] + b + [a[0]];
    assert t == s[1..] + [s[0]];
    forall i, j | 0 <= i < j < |t| ensures t[i] != t[j] {
      if j == |t| - 1 {
        assert t[i] == s[i + 1] && t[j] == s[0];
      } else {
        assert t[i] == s[i + 1] && t[j] == s[j + 1];
      }
    }
    assert s == [s[0]] + s[1..];
  }

  /** A worker taking the first request and pushing its result keeps the invariant. */
  lemma WorkerStepConsistent(pending: Pending, chunks: Chunks, inbound: seq<ChunkPos>,
                             outbound: seq<Received>, grid: Grid)
    requires Consistent(pending, chunks, inbound, outbound) && inbound != []
    ensures Consistent(pending, chunks, inbound[1..], outbound + [Received(inbound[0], grid)])
  {
    var rs := ResultPositions(outbound);
    assert ResultPositions(outbound + [Received(inbound[0], grid)]) == rs + [inbound[0]];
    RotateFirst(inbound, rs);
    assert InFlight(inbound[1..], outbound + [Received(inbound[0], grid)]) == inbound[1..] + rs + [inbound[0]];
  }

  /** Evicting unviewed chunks keeps the invariant. */
  lemma EvictionConsistent(pending: Pending, chunks: Chunks, inbound: seq<ChunkPos>, outbound: seq<Received>)
    requires Consistent(pending, chunks, inbound, outbound)
    ensures Consistent(pending, Viewed(chunks), inbound, outbound)
  {
  }
}
