/** The loops of the pumps over the write queue, each against its one-piece description. */
module PumpLoops {
  import opened Commands
  import opened Engine
  import opened EngineInvariants
  import opened EngineSteps
  import opened QueueAlgebra
  import opened WireOrder
  import opened Wrappers

  function Satisfying(q: seq<Cell>, pred: Cell -> bool): set<nat> {
    set c | c in q && pred(c) :: c.id
  }

  /** The loop that erases while iterating: what stays and what goes, both in order. */
  method Partition(queue: seq<Cell>, pred: Cell -> bool) returns (kept: seq<Cell>, taken: seq<Cell>)
    requires Sorted(queue)
    ensures kept == Without(queue, Satisfying(queue, pred)) && taken == Only(queue, Satisfying(queue, pred))
  {
    ghost var ids := Satisfying(queue, pred);
    kept, taken := [], [];
    for i := 0 to |queue|
      invariant kept == Without(queue[..i], ids) && taken == Only(queue[..i], ids)
    {
      var c := queue[i];
      TakeBy(queue, pred, ids, c);
      WithoutAppend(queue[..i], c, ids);
      assert queue[..i + 1] == queue[..i] + [c];
      if pred(c) {
        taken := taken + [c];
      } else {
        kept := kept + [c];
      }
    }
    assert queue[..|queue|] == queue;
  }

  /** Splices one cell out of the queue, if it is there. */
  method Extract(queue: seq<Cell>, id: nat) returns (rest: seq<Cell>, cell: Option<Cell>)
    requires Sorted(queue)
    ensures rest == Without(queue, {id}) && cell == Lookup(queue, id)
    ensures Only(queue, {id}) == if cell.Some? then [cell.value] else []
  {
    var i := 0;
    while i < |queue| && queue[i].id != id
      invariant 0 <= i <= |queue| && forall k | 0 <= k < i :: queue[k].id != id
    {
      i := i + 1;
    }
    if i < |queue| {
      rest, cell := queue[..i] + queue[i + 1..], Some(queue[i]);
      WithoutAt(queue, i);
      LookupFinds(queue, queue[i]);
    } else {
      rest, cell := queue, None;
      NoneTaken(queue, {id});
    }
  }

  /** The earliest queued cell that wants a data line. */
  method FindOwner(queue: seq<Cell>, kind: Kind) returns (owner: Option<nat>)
    ensures owner == Owner(queue, kind)
  {
    var i := 0;
    assert queue[0..] == queue;
    while i < |queue|
      invariant 0 <= i <= |queue| && Owner(queue, kind) == Owner(queue[i..], kind)
    {
      if queue[i].command.Wants(kind) {
        return Some(queue[i].id);
      }
      assert queue[i..][1..] == queue[i + 1..];
      i := i + 1;
    }
    owner := None;
  }

  // ---- Staging -------------------------------------------------------------

  /** The batch so far, the cells staged so far, and the route, after `i` cells of the queue. */
  ghost predicate StagedUpTo(queue: seq<Cell>, i: nat, now: seq<Cell>, batch: seq<Chunk>) {
    && i <= |queue| == |now|
    && (forall k | 0 <= k < i :: now[k] == if queue[k].id in BatchIds(batch) then queue[k].Stage() else queue[k])
    && (forall k | i <= k < |queue| :: now[k] == queue[k] && queue[k].id !in BatchIds(batch))
  }

  lemma StagedNothing(queue: seq<Cell>)
    ensures StagedUpTo(queue, 0, queue, [])
  {
    assert BatchIds([]) == {};
  }

  lemma StagedPass(queue: seq<Cell>, i: nat, now: seq<Cell>, batch: seq<Chunk>)
    requires StagedUpTo(queue, i, now, batch) && i < |queue|
    ensures StagedUpTo(queue, i + 1, now, batch)
  {
  }

  lemma StagedOne(queue: seq<Cell>, i: nat, now: seq<Cell>, batch: seq<Chunk>)
    requires Sorted(queue) && StagedUpTo(queue, i, now, batch) && i < |queue|
    ensures StagedUpTo(queue, i + 1, now[i := queue[i].Stage()], batch + [NextChunk(queue[i])])
  {
    BatchIdsOf(batch, [NextChunk(queue[i])]);
    assert BatchIds([NextChunk(queue[i])]) == {queue[i].id} by { assert [NextChunk(queue[i])][0] in [NextChunk(queue[i])]; }
  }

  lemma StagedAll(queue: seq<Cell>, i: nat, now: seq<Cell>, batch: seq<Chunk>)
    requires StagedUpTo(queue, i, now, batch)
    ensures now == StageAll(queue, BatchIds(batch))
  {
  }

  lemma DrainFrom(queue: seq<Cell>, i: nat)
    requires i < |queue|
    ensures Drain(queue[i..]) == (if queue[i].NextSegment() == "" then [] else [NextChunk(queue[i])])
                                 + (if IsWall(queue[i]) then [] else Drain(queue[i + 1..]))
  {
    assert queue[i..][1..] == queue[i + 1..] && queue[i..][0] == queue[i];
  }

  lemma WaiterAppend(queue: seq<Cell>, batch: seq<Chunk>, c: Cell)
    requires Sorted(queue) && c in queue
    ensures Waiter(queue, batch + [NextChunk(c)]) == if c.AwaitsContinuation() then Some(c.id) else Waiter(queue, batch)
  {
    var more := batch + [NextChunk(c)];
    assert more[..|more| - 1] == batch;
    LookupFinds(queue, c);
  }

  lemma BytesAppend(batch: seq<Chunk>, ch: Chunk)
    ensures Bytes(batch + [ch]) == Bytes(batch) + ch.bytes
  {
    assert (batch + [ch])[..|batch|] == batch;
  }

  /** The state of the drain after `i` cells; `walled` tells whether a wall was met. */
  ghost predicate DrainedTo(queue: seq<Cell>, i: nat, walled: bool, now: seq<Cell>, staging: string, staged: seq<nat>,
                            waiter: Option<nat>, batch: seq<Chunk>)
  {
    && StagedUpTo(queue, i, now, batch)
    && batch + (if walled then [] else Drain(queue[i..])) == Drain(queue)
    && staging == Bytes(batch) && staged == Owners(batch) && waiter == Waiter(queue, batch)
    && (staging == "" <==> batch == [])
  }

  lemma DrainStarts(queue: seq<Cell>)
    ensures DrainedTo(queue, 0, false, queue, "", [], None, [])
  {
    StagedNothing(queue);
    assert queue[0..] == queue;
  }

  lemma DrainPasses(queue: seq<Cell>, i: nat, now: seq<Cell>, staging: string, staged: seq<nat>, waiter: Option<nat>, batch: seq<Chunk>)
    requires DrainedTo(queue, i, false, now, staging, staged, waiter, batch) && i < |queue| && queue[i].NextSegment() == ""
    ensures DrainedTo(queue, i + 1, queue[i].AwaitsContinuation(), now, staging, staged, waiter, batch)
  {
    hide StagedUpTo, Waiter, Cell.NextSegment, Cell.AwaitsContinuation;
    DrainFrom(queue, i);
    StagedPass(queue, i, now, batch);
    assert [] + Drain(queue[i + 1..]) == Drain(queue[i + 1..]);
  }

  lemma DrainStages(queue: seq<Cell>, i: nat, now: seq<Cell>, staging: string, staged: seq<nat>, waiter: Option<nat>, batch: seq<Chunk>)
    requires Sorted(queue) && DrainedTo(queue, i, false, now, staging, staged, waiter, batch)
    requires i < |queue| && queue[i].NextSegment() != ""
    ensures i < |now|
    ensures var c := queue[i];
            DrainedTo(queue, i + 1, IsWall(c), now[i := c.Stage()], staging + c.NextSegment(), staged + [c.id],
                      if c.AwaitsContinuation() then Some(c.id) else waiter, batch + [NextChunk(c)])
  {
    hide StagedUpTo, Waiter, Sorted, NextChunk, IsWall, Cell.NextSegment, Cell.AwaitsContinuation, Bytes, Drain, Owners, BatchIds;
    var c := queue[i];
    StagedOne(queue, i, now, batch);
    WallOf(c);
    assert c in queue;
    WaiterAppend(queue, batch, c);
    BytesAppend(batch, NextChunk(c));
    OwnersAppend(batch, NextChunk(c));
    DrainFrom(queue, i);
    assert |now| == |queue| by { StagedLength(queue, i, now, batch); }
    Regroup(batch, NextChunk(c), if IsWall(c) then [] else Drain(queue[i + 1..]));
  }

  lemma StagedLength(queue: seq<Cell>, i: nat, now: seq<Cell>, batch: seq<Chunk>)
    requires StagedUpTo(queue, i, now, batch)
    ensures |now| == |queue|
  {
  }

  lemma OwnersAppend(batch: seq<Chunk>, ch: Chunk)
    ensures Owners(batch + [ch]) == Owners(batch) + [ch.id]
  {
  }

  lemma Regroup<T>(a: seq<T>, x: T, b: seq<T>)
    ensures (a + [x]) + b == a + ([x] + b)
  {
  }

  lemma DrainEnds(queue: seq<Cell>, i: nat, walled: bool, now: seq<Cell>, staging: string, staged: seq<nat>,
                  waiter: Option<nat>, batch: seq<Chunk>)
    requires DrainedTo(queue, i, walled, now, staging, staged, waiter, batch) && (walled || i == |queue|)
    ensures batch == Drain(queue) && now == StageAll(queue, BatchIds(batch))
    ensures staging == Bytes(batch) && staged == Owners(batch) && waiter == Waiter(queue, batch)
    ensures staging == "" <==> batch == []
  {
    StagedAll(queue, i, now, batch);
    assert !walled ==> queue[i..] == [];
    hide StagedUpTo, Waiter, Bytes;
  }

  /** The drain of `kick`: one segment per cell into the staging buffer, up to the first wall. */
  method StageBatch(queue: seq<Cell>)
    returns (now: seq<Cell>, staging: string, staged: seq<nat>, waiter: Option<nat>)
    requires Sorted(queue)
    ensures now == StageAll(queue, BatchIds(Drain(queue))) && staging == Bytes(Drain(queue))
    ensures staged == Owners(Drain(queue)) && waiter == Waiter(queue, Drain(queue))
    ensures staging == "" <==> Drain(queue) == []
  {
    hide Sorted, DrainedTo, Cell.IsWritten, IsWall, NextChunk, Cell.NextSegment, Cell.AwaitsContinuation;
    now, staging, staged, waiter := queue, "", [], None;
    ghost var batch := [];
    var i, walled := 0, false;
    DrainStarts(queue);
    while i < |queue| && !walled
      invariant i <= |queue| && DrainedTo(queue, i, walled, now, staging, staged, waiter, batch)
    {
      var c := queue[i];
      WallOf(c);
      if c.IsWritten() {
        DrainPasses(queue, i, now, staging, staged, waiter, batch);
      } else {
        var segment := c.NextSegment();
        if segment == "" {
          DrainPasses(queue, i, now, staging, staged, waiter, batch);
          walled := c.AwaitsContinuation();
        } else {
          DrainStages(queue, i, now, staging, staged, waiter, batch);
          staging := staging + segment;
          now := now[i := c.Stage()];
          staged := staged + [c.id];
          batch := batch + [NextChunk(c)];
          if c.AwaitsContinuation() {
            waiter := Some(c.id);
          }
          walled := c.AwaitsContinuation() || c.command.BlocksPipeline();
        }
      }
      i := i + 1;
    }
    DrainEnds(queue, i, walled, now, staging, staged, waiter, batch);
  }

  lemma WallOf(c: Cell)
    ensures IsWall(c) <==> c.AwaitsContinuation() || (c.NextSegment() != "" && c.command.BlocksPipeline())
    ensures c.IsWritten() ==> c.NextSegment() == "" && !c.AwaitsContinuation()
    ensures NextChunk(c).bytes == c.NextSegment() && NextChunk(c).id == c.id
  {
  }

  /** The cells a batch came from, in order. */
  function Owners(batch: seq<Chunk>): (ids: seq<nat>)
    ensures |ids| == |batch| && forall i | 0 <= i < |batch| :: ids[i] == batch[i].id
  {
    seq(|batch|, i requires 0 <= i < |batch| => batch[i].id)
  }

  // ---- Flushing ---------------------------------------------------------------

  /** The state of the completion loop after the first `k` chunks of the batch. */
  ghost predicate FlushedTo(queue: seq<Cell>, batch: seq<Chunk>, k: nat, target: Option<nat>,
                            now: seq<Cell>, retired: seq<Cell>, route: Option<nat>)
  {
    k <= |batch| &&
    var ids := BatchIds(batch[..k]);
    && now == Flushed(queue, ids) && retired == Retired(queue, ids)
    && route == Rerouted(FlushAll(queue, ids), batch[..k], target)
  }

  ghost predicate Ascending(batch: seq<Chunk>) {
    forall i, j | 0 <= i < j < |batch| :: batch[i].id < batch[j].id
  }

  lemma FlushStarts(queue: seq<Cell>, batch: seq<Chunk>, target: Option<nat>)
    ensures FlushedTo(queue, batch, 0, target, queue, [], target)
  {
    assert batch[..0] == [] && BatchIds(batch[..0]) == {};
    assert FlushAll(queue, {}) == queue;
    NoneTaken(queue, {});
    assert FinishedIds(queue, {}) == {};
  }

  lemma PrefixGrows(batch: seq<Chunk>, k: nat)
    requires Ascending(batch) && k < |batch|
    ensures batch[..k + 1] == batch[..k] + [batch[k]] && batch[..k + 1][..k] == batch[..k]
    ensures BatchIds(batch[..k + 1]) == BatchIds(batch[..k]) + {batch[k].id}
    ensures forall id | id in BatchIds(batch[..k]) :: id < batch[k].id
  {
    assert batch[..k + 1] == batch[..k] + [batch[k]];
    BatchIdsOf(batch[..k], [batch[k]]);
    assert BatchIds([batch[k]]) == {batch[k].id} by { assert [batch[k]][0] in [batch[k]]; }
  }

  lemma WaiterOneMore(queue: seq<Cell>, prefix: seq<Chunk>, ch: Chunk)
    ensures Waiter(queue, prefix + [ch]) ==
              match Lookup(queue, ch.id)
              case Some(c) => if c.AwaitsContinuation() then Some(c.id) else Waiter(queue, prefix)
              case None => Waiter(queue, prefix)
  {
    var more := prefix + [ch];
    assert more[..|more| - 1] == prefix;
  }

  /** The cell of the chunk has left the queue: it is skipped. */
  lemma FlushSkips(queue: seq<Cell>, batch: seq<Chunk>, k: nat, target: Option<nat>,
                   now: seq<Cell>, retired: seq<Cell>, route: Option<nat>)
    requires Sorted(queue) && Ascending(batch) && FlushedTo(queue, batch, k, target, now, retired, route) && k < |batch|
    requires Lookup(now, batch[k].id) == None
    ensures FlushedTo(queue, batch, k + 1, target, now, retired, route)
  {
    var ids, id := BatchIds(batch[..k]), batch[k].id;
    hide Sorted, BatchIds, Waiter, FlushAll, FinishedIds, Only, Without, Ids, Ascending;
    PrefixGrows(batch, k);
    AbsentBefore(queue, ids, id);
    FlushAbsent(queue, ids, id);
    LookupAbsent(queue, ids, id);
    WaiterOneMore(FlushAll(queue, ids), batch[..k], batch[k]);
  }

  lemma AbsentBefore(queue: seq<Cell>, ids: set<nat>, id: nat)
    requires Sorted(queue) && id !in ids && Lookup(Flushed(queue, ids), id) == None
    ensures id !in Ids(queue)
  {
    if id in Ids(queue) {
      var c :| c in queue && c.id == id;
      FlushedHas(queue, ids, c);
    }
  }

  lemma LookupAbsent(queue: seq<Cell>, ids: set<nat>, id: nat)
    requires id !in Ids(queue)
    ensures Lookup(FlushAll(queue, ids), id) == None
  {
    FlushReshapes(queue, ids);
    SameIds(queue, FlushAll(queue, ids));
  }

  /** The cell of the chunk is flushed, may restore its route, and retires if it was detached and is done. */
  lemma FlushTakes(queue: seq<Cell>, batch: seq<Chunk>, k: nat, target: Option<nat>,
                   now: seq<Cell>, retired: seq<Cell>, route: Option<nat>, c: Cell)
    requires Sorted(queue) && Ascending(batch) && FlushedTo(queue, batch, k, target, now, retired, route) && k < |batch|
    requires Lookup(now, batch[k].id) == Some(c)
    ensures c in queue && Sorted(Replace(now, c.Flush()))
    ensures var x := c.Flush();
            var gone := c.detached && x.IsWritten();
            FlushedTo(queue, batch, k + 1, target,
                      if gone then Without(Replace(now, x), {c.id}) else Replace(now, x),
                      if gone then retired + [x] else retired,
                      if x.AwaitsContinuation() then Some(c.id) else route)
  {
    var ids, id := BatchIds(batch[..k]), batch[k].id;
    hide Sorted, BatchIds, Waiter, FlushAll, FinishedIds, Only, Without, Ids, Ascending, Flushed, Retired, Replace,
         Cell.Flush, Cell.IsWritten, Cell.AwaitsContinuation, Lookup;
    PrefixGrows(batch, k);
    StillThere(queue, ids, id, c);
    FlushTurn(queue, ids, c);
    FlushedHas(queue, ids, c);
    FlushKeepsId(c);
    ReplaceSorted(now, c.Flush());
    FlushOneMore(queue, ids, c);
    LookupFlushed(queue, ids, c);
    WaiterOneMore(FlushAll(queue, ids + {c.id}), batch[..k], batch[k]);
    EarlierWaiters(queue, ids, batch[..k], c);
  }

  lemma StillThere(queue: seq<Cell>, ids: set<nat>, id: nat, c: Cell)
    requires Sorted(queue) && id !in ids && Lookup(Flushed(queue, ids), id) == Some(c)
    ensures c in queue && c.id == id
  {
    assert c in FlushAll(queue, ids);
    var d := FlushedMember(queue, ids, c);
    FlushKeepsId(d);
  }

  lemma ReplaceSorted(q: seq<Cell>, x: Cell)
    requires Sorted(q)
    ensures Sorted(Replace(q, x))
  {
  }

  lemma LookupFlushed(queue: seq<Cell>, ids: set<nat>, c: Cell)
    requires Sorted(queue) && c in queue
    ensures Lookup(FlushAll(queue, ids + {c.id}), c.id) == Some(c.Flush())
  {
    FlushReshapes(queue, ids + {c.id});
    SameIds(queue, FlushAll(queue, ids + {c.id}));
    FlushedImage(queue, ids + {c.id}, c);
    FlushKeepsId(c);
    LookupFinds(FlushAll(queue, ids + {c.id}), c.Flush());
  }

  /** Flushing one more cell changes nothing about the cells before it. */
  lemma EarlierWaiters(queue: seq<Cell>, ids: set<nat>, prefix: seq<Chunk>, c: Cell)
    requires Sorted(queue) && c in queue && c.id !in ids && BatchIds(prefix) == ids
    ensures Waiter(FlushAll(queue, ids + {c.id}), prefix) == Waiter(FlushAll(queue, ids), prefix)
  {
    FlushOneMore(queue, ids, c);
    FlushKeepsId(c);
    hide Cell.Flush, FlushAll, Sorted;
    var r := FlushAll(queue, ids);
    forall ch | ch in prefix ensures Lookup(Replace(r, c.Flush()), ch.id) == Lookup(r, ch.id) {
      assert ch.id in BatchIds(prefix);
      LookupReplaced(r, c.Flush(), ch.id);
    }
    WaiterSame(Replace(r, c.Flush()), r, prefix);
  }

  /** The completion loop of `on_write_done` while the engine is open. */
  method FlushBatch(queue: seq<Cell>, staged: seq<nat>, ghost batch: seq<Chunk>, target: Option<nat>)
    returns (now: seq<Cell>, retired: seq<Cell>, route: Option<nat>)
    requires Sorted(queue) && Ascending(batch) && staged == Owners(batch)
    ensures now == Flushed(queue, BatchIds(batch)) && retired == Retired(queue, BatchIds(batch))
    ensures route == Rerouted(FlushAll(queue, BatchIds(batch)), batch, target)
  {
    hide FlushedTo, Sorted, Ascending, Flushed, Retired, Cell.Flush, Cell.IsWritten, Cell.AwaitsContinuation, FlushAll;
    now, retired, route := queue, [], target;
    FlushStarts(queue, batch, target);
    for k := 0 to |staged|
      invariant Sorted(now) && FlushedTo(queue, batch, k, target, now, retired, route)
    {
      var found := Lookup(now, staged[k]);
      if found.Some? {
        var c := found.value;
        var x := c.Flush();
        FlushTakes(queue, batch, k, target, now, retired, route, c);
        now := Replace(now, x);
        if x.AwaitsContinuation() {
          route := Some(c.id);
        }
        if x.detached && x.IsWritten() {
          FlushKeepsDetached(c);
          FlushKeepsId(c);
          var rest, cell := Extract(now, x.id);
          WithoutKeepsOrder(now, {x.id});
          now := rest;
          retired := retired + [x];
        } else {
          FlushKeepsDetached(c);
        }
      } else {
        FlushSkips(queue, batch, k, target, now, retired, route);
      }
    }
    FlushEnds(queue, batch, target, now, retired, route);
  }

  lemma FlushEnds(queue: seq<Cell>, batch: seq<Chunk>, target: Option<nat>, now: seq<Cell>, retired: seq<Cell>, route: Option<nat>)
    requires FlushedTo(queue, batch, |batch|, target, now, retired, route)
    ensures now == Flushed(queue, BatchIds(batch)) && retired == Retired(queue, BatchIds(batch))
    ensures route == Rerouted(FlushAll(queue, BatchIds(batch)), batch, target)
  {
    assert batch[..|batch|] == batch;
  }

  lemma DrainIsAscending(queue: seq<Cell>)
    requires Sorted(queue)
    ensures Ascending(Drain(queue))
  {
    DrainAscends(queue);
  }

  lemma {:induction false} BytesConcat(a: seq<Chunk>, b: seq<Chunk>)
    ensures Bytes(a + b) == Bytes(a) + Bytes(b)
  {
    if b == [] {
      assert a + b == a;
    } else {
      var init, last := b[..|b| - 1], b[|b| - 1];
      assert b == init + [last] && a + b == (a + init) + [last];
      BytesConcat(a, init);
      BytesAppend(a + init, last);
      BytesAppend(init, last);
    }
  }

  // ---- Taking the cells of a write out -------------------------------------------

  lemma ExtractTurn(queue: seq<Cell>, ids: set<nat>, id: nat)
    requires Sorted(queue) && forall x | x in ids :: x < id
    ensures Without(Without(queue, ids), {id}) == Without(queue, ids + {id})
    ensures var found := Lookup(Without(queue, ids), id);
            Only(queue, ids + {id}) == Only(queue, ids) + (if found.Some? then [found.value] else [])
  {
    WithoutTwice(queue, ids, {id});
    WithoutKeepsOrder(queue, ids);
    var found := Lookup(Without(queue, ids), id);
    if found.Some? {
      OnlyLast(queue, ids, found.value);
    } else {
      forall c | c in queue ensures c.id != id {
        if c.id == id { LookupFinds(Without(queue, ids), c); }
      }
      OnlySame(queue, ids, id);
    }
  }

  lemma {:induction false} OnlySame(queue: seq<Cell>, ids: set<nat>, id: nat)
    requires forall c | c in queue :: c.id != id
    ensures Only(queue, ids + {id}) == Only(queue, ids)
  {
    if queue != [] {
      assert queue[0] in queue;
      OnlySame(queue[1..], ids, id);
    }
  }

  /** The loop that lifts the staged cells out, skipping those a tagged reply took. */
  method ExtractBatch(queue: seq<Cell>, staged: seq<nat>, ghost batch: seq<Chunk>)
    returns (now: seq<Cell>, retired: seq<Cell>)
    requires Sorted(queue) && Ascending(batch) && staged == Owners(batch)
    ensures now == Without(queue, BatchIds(batch)) && retired == Only(queue, BatchIds(batch))
  {
    hide Sorted, Ascending, BatchIds, Without, Only, Lookup;
    now, retired := queue, [];
    assert batch[..0] == [] && BatchIds([]) == {} by { NothingBatched(); }
    NoneTaken(queue, {});
    for k := 0 to |staged|
      invariant Sorted(now) && now == Without(queue, BatchIds(batch[..k])) && retired == Only(queue, BatchIds(batch[..k]))
    {
      PrefixGrows(batch, k);
      ExtractTurn(queue, BatchIds(batch[..k]), staged[k]);
      WithoutKeepsOrder(now, {staged[k]});
      var rest, cell := Extract(now, staged[k]);
      now := rest;
      if cell.Some? {
        retired := retired + [cell.value];
      }
    }
    assert batch[..|staged|] == batch;
  }

  lemma NothingBatched()
    ensures BatchIds([]) == {}
  {
  }
}
