/**
 Completions may be reaped in either order: the continuation request that answers a
 line can be handled before the completion of the write that carried the line.
 */
module Reordering {
  import opened Commands
  import opened Engine
  import opened EngineInvariants
  import opened EngineSteps
  import opened QueueAlgebra
  import opened Wrappers

  lemma FlushContinueCommute(c: Cell)
    requires c.command.Segmented?
    ensures c.Flush().Continue() == c.Continue().Flush() && c.Flush().id == c.id == c.Continue().id
  {
  }

  lemma FlushReplaced(q: seq<Cell>, c: Cell, ids: set<nat>)
    requires Sorted(q) && c in q && c.command.Segmented? && c.id in ids
    ensures FlushAll(Replace(q, c.Continue()), ids) == Replace(FlushAll(q, ids), c.Flush().Continue())
  {
    FlushContinueCommute(c);
    hide Cell.Flush, Cell.Continue;
    var l, r := FlushAll(Replace(q, c.Continue()), ids), Replace(FlushAll(q, ids), c.Flush().Continue());
    forall i | 0 <= i < |q| ensures l[i] == r[i] {
      if q[i].id == c.id { SameId(q, q[i], c); }
      FlushKeepsId(q[i]);
    }
  }

  lemma SameSpoiled(q: seq<Cell>, c: Cell, batch: seq<Chunk>)
    requires Sorted(q) && c in q && c.command.Segmented?
    ensures SpoiledIds(Replace(q, c.Continue()), batch) == SpoiledIds(q, batch)
  {
    ContinuedSegmented(c);
    hide Cell.Continue;
    ReplaceMembers(q, c, c.Continue());
    assert forall d | d in q && d.command.IdleCommand? :: d in Replace(q, c.Continue());
  }

  lemma ContinuedSegmented(c: Cell)
    requires c.command.Segmented?
    ensures c.Continue().id == c.id && c.Continue().command.Segmented? && c.Continue().staged == c.staged
  {
  }

  /** The cell itself is finished in neither order: its next piece is still to be sent. */
  lemma AnsweredIsUnfinished(c: Cell)
    requires c.Valid() && c.staged && LineOut(c) && c.command.Segmented?
    ensures !c.Flush().IsWritten() && !c.Flush().Continue().IsWritten()
  {
    var next := c.command.emitted + 1;
    assert c.command.segs[next] in c.command.segs;
  }

  lemma SameFinished(q: seq<Cell>, c: Cell, ids: set<nat>)
    requires Sorted(q) && c in q && c.command.Segmented? && c.id in ids && c.Valid() && c.staged && LineOut(c)
    ensures FinishedIds(Replace(FlushAll(q, ids), c.Flush().Continue()), ids) == FinishedIds(FlushAll(q, ids), ids)
    ensures c.id !in FinishedIds(FlushAll(q, ids), ids)
  {
    AnsweredIsUnfinished(c);
    FlushContinueCommute(c);
    FlushReshapes(q, ids);
    var r := FlushAll(q, ids);
    SameIds(q, r);
    FlushedImage(q, ids, c);
    hide Cell.Flush, Cell.Continue, Cell.IsWritten, LineOut, Cell.Valid, FlushAll, Reshaped, Sorted, Ids;
    ReplaceMembers(r, c.Flush(), c.Flush().Continue());
    forall d | d in r && d.id == c.id ensures d == c.Flush() { SameId(r, d, c.Flush()); }
    var a, b := FinishedIds(Replace(r, c.Flush().Continue()), ids), FinishedIds(r, ids);
    forall id | id in b ensures id in a {
      var d :| d in r && d.id in ids && d.detached && d.IsWritten() && d.id == id;
      assert d != c.Flush();
    }
  }

  /** Nobody but the answered cell can wait in the flushed batch. */
  lemma WaiterIs(r: seq<Cell>, batch: seq<Chunk>, x: Cell)
    requires Sorted(r) && x in r && x.id in BatchIds(batch)
    requires forall d | d in r && d.id in BatchIds(batch) && d != x :: !d.AwaitsContinuation()
    ensures Waiter(r, batch) == if x.AwaitsContinuation() then Some(x.id) else None
  {
    WaiterWaits(r, batch);
    hide Sorted, BatchIds, Waiter, Cell.AwaitsContinuation;
    var w := Waiter(r, batch);
    if w.Some? {
      var d :| d in r && d.id == w.value && d.AwaitsContinuation();
    }
  }

  /** In the flushed queue only the cell whose line was out can wait for a continuation. */
  lemma OthersDoNotWait(q: seq<Cell>, target: Option<nat>, batch: seq<Chunk>, n: nat, c: Cell)
    requires Sorted(q) && Routed(q, target) && Staging(q, batch, n) && c in q && c.staged && LineOut(c)
    ensures var r := FlushAll(q, BatchIds(batch));
            && c.Flush() in r
            && forall d | d in r && d.id in BatchIds(batch) && d != c.Flush() :: !d.AwaitsContinuation()
  {
    var ids := BatchIds(batch);
    var r := FlushAll(q, ids);
    CellsAreValid(q, batch, n, c);
    FlushMoves(c, ids);
    FlushedImage(q, ids, c);
    forall d | d in r && d.id in ids && d.AwaitsContinuation() ensures d == c.Flush() {
      var d' := FlushedMember(q, ids, d);
      FlushMoves(d', ids);
      OneWaits(q, c, d');
    }
  }

  lemma FlushedOrder(q: seq<Cell>, ids: set<nat>)
    requires Sorted(q)
    ensures Sorted(FlushAll(q, ids))
  {
    FlushReshapes(q, ids);
    SameIds(q, FlushAll(q, ids));
  }

  /** The flushed queue and the answered cell, whichever came first. */
  lemma SameQueue(q: seq<Cell>, target: Option<nat>, batch: seq<Chunk>, n: nat, c: Cell)
    requires Sorted(q) && Routed(q, target) && Staging(q, batch, n) && c in q && c.staged && LineOut(c) && c.command.Segmented?
    ensures var ids := BatchIds(batch);
            var r := FlushAll(q, ids);
            var gone := FinishedIds(r, ids);
            var x := c.Flush().Continue();
            var r' := FlushAll(Replace(q, c.Continue()), ids);
            && FinishedIds(r', ids) == gone
            && Without(r', gone) == Replace(Without(r, gone), x) && Only(r', gone) == Only(r, gone)
            && Lookup(Without(r, gone), c.id) == Some(c.Flush())
            && Waiter(r, batch) == Some(c.id)
            && Waiter(r', batch) == (if c.Continue().AwaitsContinuation() then Some(c.id) else None)
  {
    var ids := BatchIds(batch);
    var r := FlushAll(q, ids);
    var gone := FinishedIds(r, ids);
    var x := c.Flush().Continue();
    CellsAreValid(q, batch, n, c);
    CellMoves(c);
    assert c.id in ids;
    FlushContinueCommute(c);
    OthersDoNotWait(q, target, batch, n, c);
    AwaitingAnswered(c);
    hide Cell.Flush, Cell.Continue, LineOut, Cell.Valid, BatchIds, Sorted, Routed, Staging, Cell.AwaitsContinuation, Cell.IsWritten;
    FlushReplaced(q, c, ids);
    SameFinished(q, c, ids);
    TakeReplaced(r, x, gone);
    FlushedOrder(q, ids);
    WithoutKeepsOrder(r, gone);
    LookupFinds(Without(r, gone), c.Flush());
    WaiterIs(r, batch, c.Flush());
    ReplaceMembers(r, c.Flush(), x);
    SameIds(r, Replace(r, x));
    WaiterIs(Replace(r, x), batch, x);
  }

  lemma AwaitingAnswered(c: Cell)
    requires c.command.Segmented? && c.Valid() && c.staged && LineOut(c)
    ensures c.Flush().AwaitsContinuation()
    ensures c.Flush().Continue().AwaitsContinuation() <==> c.Continue().AwaitsContinuation()
  {
  }

  predicate BothPending(s: Core) {
    s.phase == Open && s.write.WriteArmed? && s.read == Dispatching
  }

  /** The write completion is handled before the continuation request. */
  function FlushFirst(s: Core): Core
    requires BothPending(s)
  {
    ContinuationRequest(WriteDone(s, true, false))
  }

  lemma FatalKeepsWrite(s: Core)
    requires s.read == Dispatching
    ensures Fatal(s).write == s.write
  {
    hide Only, Without, Endings, UnstagedIds;
  }

  lemma AnswerKeepsWrite(s: Core)
    requires s.read == Dispatching
    ensures ContinuationRequest(s).write == s.write
  {
    hide Replace, Lookup, Cell.Continue, Fatal;
    FatalKeepsWrite(s);
    if s.target == None {
      assert ContinuationRequest(s) == Fatal(s);
    } else if Lookup(s.queue, s.target.value) == None {
    } else {
    }
  }

  /** The continuation request is handled while the write is still in flight. */
  function ReplyFirst(s: Core): Core
    requires BothPending(s)
  {
    AnswerKeepsWrite(s);
    WriteDone(ContinuationRequest(s), true, false)
  }

  /**
   For a literal or SASL command the two orders of handling agree on the queue, the
   registry and every call made. They differ in the route alone, and only when the
   command has another wall ahead: the late completion then restores its route early.
   */
  lemma EitherOrderAgrees(es: seq<Event>, c: Cell)
    requires Possible(es) && BothPending(After(es))
    requires c in After(es).queue && c.staged && LineOut(c) && c.command.Segmented?
    ensures var s := After(es);
            && FlushFirst(s) == ReplyFirst(s).(target := None)
            && ReplyFirst(s).target == (if c.Continue().AwaitsContinuation() then Some(c.id) else None)
  {
    RunsKeep(es);
    var s := After(es);
    hide After, Inv, Sorted, Conserved, Staging, Coherent, Routed, LineOut, Cell.Continue, Cell.Flush, BatchIds, Waiter,
         SpoiledIds, FinishedIds, FlushAll, Replace, Lookup, Only, Without, Endings, Cell.AwaitsContinuation;
    Parts(s);
    OutIsTarget(s, c);
    SameQueue(s.queue, s.target, s.write.batch, |s.commands|, c);
    SameSpoiled(s.queue, c, s.write.batch);
    FlushContinueCommute(c);
  }

  lemma OutIsTarget(s: Core, c: Cell)
    requires Sorted(s.queue) && Routed(s.queue, s.target) && c in s.queue && LineOut(c)
    ensures s.target == Some(c.id) && Lookup(s.queue, c.id) == Some(c)
  {
    LookupFinds(s.queue, c);
  }
}
