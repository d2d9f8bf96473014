/**
 The order of bytes on the wire: when the pump stops behind every command of which a
 piece is left, what is handed to `async_write` is one block per command, in submission
 order, each a prefix of that command's rendering.
 */
module WireOrder {
  import opened Commands
  import opened Engine
  import opened EngineFrames
  import opened EngineInvariants
  import opened EngineSteps
  import opened Wrappers

  // ---- Disciplined runs --------------------------------------------------

  /** The server answers a synchronizing line only once that line was handed to the write. */
  ghost predicate Solicited(s: Core) {
    exists c :: c in s.queue && LineOut(c) && (s.write.Latched? ==> c.id !in BatchIds(s.write.batch))
  }

  /** Only commands that keep the order are submitted and only solicited continuations arrive. */
  ghost predicate Disciplined(es: seq<Event>)
    requires Possible(es)
  {
    es == [] ||
    var init, e := es[..|es| - 1], es[|es| - 1];
    && Disciplined(init)
    && (e.DoEnqueue? ==> KeepsOrder(e.command))
    && (e.DoContinuation? ==> Solicited(After(init)))
  }

  // ---- Blocks ------------------------------------------------------------

  /** Segments of the cell that were staged so far. */
  function Sent(c: Cell): nat {
    match c.command
    case Segmented(_, emitted, _, _, _) => emitted + (if c.staged then 1 else 0)
    case IdleCommand(_, _, _, _) => 0
  }

  /** `b` continues `a`'s block or opens the block of a later command. */
  ghost predicate Follows(a: Chunk, b: Chunk) {
    (b.id == a.id && b.index == a.index + 1) || (b.id > a.id && b.index == 0)
  }

  ghost predicate Chain(out: seq<Chunk>) {
    && (out != [] ==> out[0].index == 0)
    && (forall i | 0 < i < |out| :: Follows(out[i - 1], out[i]))
  }

  /** The chunk is a piece of the command it belongs to. */
  ghost predicate Genuine(commands: seq<Command>, ch: Chunk) {
    && ch.id < |commands| && commands[ch.id].Segmented?
    && ch.index < |commands[ch.id].segs| && ch.bytes == commands[ch.id].segs[ch.index]
  }

  /** Nothing is owed after this chunk: its command is fully staged or a tagged reply took it. */
  ghost predicate Ended(commands: seq<Command>, replied: set<nat>, ch: Chunk) {
    Genuine(commands, ch) && (ch.index + 1 == |commands[ch.id].segs| || ch.id in replied)
  }

  /** A block that another block follows is complete, or its command was answered. */
  ghost predicate Unbroken(commands: seq<Command>, replied: set<nat>, out: seq<Chunk>) {
    forall i | 0 < i < |out| && out[i - 1].id != out[i].id :: Ended(commands, replied, out[i - 1])
  }

  ghost predicate Blocks(commands: seq<Command>, replied: set<nat>, out: seq<Chunk>) {
    Chain(out) && Unbroken(commands, replied, out) && forall ch | ch in out :: Genuine(commands, ch)
  }

  /** A queued cell: its pieces are those it was submitted with, and no more is released than the pump may pass. */
  ghost predicate Stepwise(commands: seq<Command>, c: Cell) {
    && c.Valid() && c.command.Segmented? && c.id < |commands|
    && commands[c.id].Segmented? && c.command.segs == commands[c.id].segs
    && (c.AwaitsContinuation() || c.command.blocking || c.command.unlocked <= Sent(c) + 1)
    && (!c.hasWritten ==> c.command.emitted == 0)
  }

  /** What the last chunk says about a queued cell. */
  ghost predicate Aligned(c: Cell, out: seq<Chunk>) {
    if out == [] then Sent(c) == 0
    else
      var last := out[|out| - 1];
      if c.id < last.id then c.command.Segmented? && Sent(c) == |c.command.segs|
      else if c.id == last.id then Sent(c) == last.index + 1
      else Sent(c) == 0
  }

  /** The last block is finished, or its command is still queued. */
  ghost predicate Owned(commands: seq<Command>, replied: set<nat>, out: seq<Chunk>, q: seq<Cell>) {
    out == [] || out[|out| - 1].id in Ids(q) || Ended(commands, replied, out[|out| - 1])
  }

  ghost predicate InStep(commands: seq<Command>, replied: set<nat>, out: seq<Chunk>, q: seq<Cell>) {
    && (forall c | c in q :: Stepwise(commands, c) && Aligned(c, out))
    && Owned(commands, replied, out, q)
  }

  // ---- One more chunk ----------------------------------------------------

  lemma AppendBlock(commands: seq<Command>, replied: set<nat>, out: seq<Chunk>, ch: Chunk)
    requires Blocks(commands, replied, out) && Genuine(commands, ch)
    requires if out == [] then ch.index == 0 else Follows(out[|out| - 1], ch)
    requires out != [] && out[|out| - 1].id != ch.id ==> Ended(commands, replied, out[|out| - 1])
    ensures Blocks(commands, replied, out + [ch])
  {
    var r := out + [ch];
    hide Ended, Genuine, Follows;
    forall i | 0 < i < |r| ensures Follows(r[i - 1], r[i]) && (r[i - 1].id != r[i].id ==> Ended(commands, replied, r[i - 1])) {
    }
  }

  function Restaged(c: Cell, ids: set<nat>): Cell {
    if c.id in ids then c.Stage() else c
  }

  /** The chunks once the head of the queue has been passed. */
  function PastHead(out: seq<Chunk>, c: Cell): seq<Chunk> {
    if c.NextSegment() == "" then out else out + [NextChunk(c)]
  }

  function HeadStaged(c: Cell): Cell {
    if c.NextSegment() == "" then c else c.Stage()
  }

  lemma HeadBlocks(commands: seq<Command>, replied: set<nat>, out: seq<Chunk>, q: seq<Cell>)
    requires Sorted(q) && q != [] && !q[0].staged
    requires Blocks(commands, replied, out) && InStep(commands, replied, out, q)
    ensures Blocks(commands, replied, PastHead(out, q[0]))
  {
    var c := q[0];
    assert c in q;
    if c.NextSegment() != "" {
      assert Genuine(commands, NextChunk(c));
      if out != [] && out[|out| - 1].id != c.id {
        assert out[|out| - 1].id !in Ids(q);
      }
      hide Ended, Genuine, Sorted, Ids, Unbroken, Chain;
      AppendBlock(commands, replied, out, NextChunk(c));
    }
  }

  /** The head itself: in step, and finished unless it is a wall. */
  lemma HeadCell(commands: seq<Command>, out: seq<Chunk>, c: Cell)
    requires !c.staged && Stepwise(commands, c) && Aligned(c, out)
    ensures Stepwise(commands, HeadStaged(c)) && Aligned(HeadStaged(c), PastHead(out, c))
    ensures !IsWall(c) ==> Sent(HeadStaged(c)) == |c.command.segs|
    ensures c.NextSegment() != "" && out != [] ==> out[|out| - 1].id <= c.id
  {
    if c.command.emitted < c.command.unlocked {
      assert c.command.segs[c.command.emitted] in c.command.segs;
    }
  }

  lemma LaterCell(commands: seq<Command>, out: seq<Chunk>, c: Cell, d: Cell)
    requires !c.staged && Stepwise(commands, c) && Aligned(c, out) && Aligned(d, out) && c.id < d.id
    ensures Aligned(d, PastHead(out, c))
  {
    HeadCell(commands, out, c);
  }

  /** Once a finished head is passed, the last block is finished or belongs to a cell still ahead. */
  lemma HeadOwned(commands: seq<Command>, replied: set<nat>, out: seq<Chunk>, q: seq<Cell>)
    requires q != [] && !q[0].staged && !IsWall(q[0])
    requires (forall ch | ch in out :: Genuine(commands, ch)) && Stepwise(commands, q[0]) && Aligned(q[0], out)
    requires Owned(commands, replied, out, q) && Ids(q) == {q[0].id} + Ids(q[1..])
    ensures Owned(commands, replied, PastHead(out, q[0]), q[1..])
  {
    var c := q[0];
    HeadCell(commands, out, c);
    if c.NextSegment() != "" {
      assert Genuine(commands, NextChunk(c));
    } else if out != [] {
      assert out[|out| - 1] in out;
    }
  }

  /** Which cells of the queue a drain stages: the head ... */
  lemma HeadRestaged(q: seq<Cell>)
    requires Sorted(q) && q != []
    ensures Restaged(q[0], BatchIds(Drain(q))) == HeadStaged(q[0])
  {
    TailIsLater(q);
    DrainHead(q);
    DrainChunks(q[1..]);
    assert q[0].id !in Ids(q[1..]);
    hide Sorted, IsWall, Drain, BatchIds;
  }

  /** ... and the rest. */
  lemma RestRestaged(q: seq<Cell>, d: Cell)
    requires Sorted(q) && q != [] && d in q[1..]
    ensures Restaged(d, BatchIds(Drain(q))) == if IsWall(q[0]) then d else Restaged(d, BatchIds(Drain(q[1..])))
  {
    TailIsLater(q);
    DrainHead(q);
    hide Sorted, IsWall, Drain, BatchIds;
  }

  /** Everything the induction needs about the cells behind the head. */
  lemma RestInStep(commands: seq<Command>, replied: set<nat>, out: seq<Chunk>, q: seq<Cell>)
    requires Sorted(q) && q != [] && !q[0].staged
    requires Blocks(commands, replied, out) && InStep(commands, replied, out, q)
    ensures forall d | d in q[1..] :: Stepwise(commands, d) && Aligned(d, PastHead(out, q[0]))
    ensures !IsWall(q[0]) ==> InStep(commands, replied, PastHead(out, q[0]), q[1..])
  {
    var c := q[0];
    assert c in q;
    TailIsLater(q);
    hide Sorted, Ids, IsWall, Stepwise, Aligned, Owned, Genuine, Chain, Unbroken;
    forall d | d in q[1..] ensures Stepwise(commands, d) && Aligned(d, PastHead(out, c)) {
      assert d in q;
      LaterCell(commands, out, c, d);
    }
    if !IsWall(c) {
      HeadOwned(commands, replied, out, q);
    }
  }

  lemma DrainIsPastHead(out: seq<Chunk>, q: seq<Cell>)
    requires q != []
    ensures out + Drain(q) == PastHead(out, q[0]) + (if IsWall(q[0]) then [] else Drain(q[1..]))
  {
    hide IsWall;
  }

  /** Draining the rest `q` of a queue behind the chunks `out`. */
  lemma {:induction false} DrainInStep(commands: seq<Command>, replied: set<nat>, out: seq<Chunk>, q: seq<Cell>)
    requires Sorted(q) && (forall c | c in q :: !c.staged)
    requires Blocks(commands, replied, out) && InStep(commands, replied, out, q)
    ensures Blocks(commands, replied, out + Drain(q))
    ensures forall c | c in q :: Stepwise(commands, Restaged(c, BatchIds(Drain(q))))
                              && Aligned(Restaged(c, BatchIds(Drain(q))), out + Drain(q))
    decreases |q|
  {
    if q == [] {
      assert out + Drain(q) == out;
    } else {
      var c, rest := q[0], q[1..];
      assert c in q;
      hide Blocks, Stepwise, Aligned, Owned, Sorted, BatchIds, Restaged, IsWall, HeadStaged, PastHead, Sent;
      DrainIsPastHead(out, q);
      HeadBlocks(commands, replied, out, q);
      HeadCell(commands, out, c);
      RestInStep(commands, replied, out, q);
      HeadRestaged(q);
      TailIsLater(q);
      var out1 := PastHead(out, c);
      if IsWall(c) {
        assert out1 + [] == out1;
      } else {
        DrainInStep(commands, replied, out1, rest);
        assert HeadStaged(c).id == c.id && HeadStaged(c).command == c.command by { StagingIsAFlag(c); }
        PassedCell(commands, HeadStaged(c), out1, rest);
      }
      forall d | d in q
        ensures Stepwise(commands, Restaged(d, BatchIds(Drain(q)))) && Aligned(Restaged(d, BatchIds(Drain(q))), out + Drain(q))
      {
        if d != c {
          assert d in rest;
          RestRestaged(q, d);
        }
      }
    }
  }

  lemma StagingIsAFlag(c: Cell)
    ensures HeadStaged(c).id == c.id && HeadStaged(c).command == c.command
  {
  }

  /** A finished cell stays in step when later cells are staged. */
  lemma PassedCell(commands: seq<Command>, c: Cell, out: seq<Chunk>, rest: seq<Cell>)
    requires Stepwise(commands, c) && Aligned(c, out) && Sent(c) == |c.command.segs|
    requires Sorted(rest) && forall d | d in rest :: c.id < d.id
    ensures Aligned(c, out + Drain(rest))
  {
    DrainChunks(rest);
    var batch := Drain(rest);
    if batch == [] {
      assert out + batch == out;
    } else {
      var last := batch[|batch| - 1];
      assert last.id in BatchIds(batch);
      assert (out + batch)[|out + batch| - 1] == last;
    }
  }

  // ---- Every step keeps the order ------------------------------------------

  /** Everything staged so far: what the write was handed, and the batch about to be. */
  function Out(s: Core): seq<Chunk> {
    s.wire + (if s.write.Latched? then s.write.batch else [])
  }

  ghost predicate WireInv(s: Core) {
    && Blocks(s.commands, s.replied, Out(s))
    && (s.phase == Open ==> InStep(s.commands, s.replied, Out(s), s.queue))
  }

  /** More commands and more replies never spoil blocks, and neither does stopping earlier. */
  lemma BlocksWeaken(commands: seq<Command>, replied: set<nat>, out: seq<Chunk>,
                     more: seq<Command>, answered: set<nat>, n: nat)
    requires Blocks(commands, replied, out) && commands <= more && replied <= answered && n <= |out|
    ensures Blocks(more, answered, out[..n])
  {
    assert forall ch | ch in out[..n] :: ch in out;
    assert forall ch | Genuine(commands, ch) :: Genuine(more, ch);
    assert forall ch | Ended(commands, replied, ch) :: Ended(more, answered, ch);
    hide Genuine, Ended, Follows;
  }

  /** `t` is `s` after teardown: nothing more is handed to the transport and no command is forgotten. */
  ghost predicate Down(s: Core, t: Core) {
    && t.phase != Open && t.commands == s.commands && s.replied <= t.replied
    && t.answered == s.answered && t.spoiled == s.spoiled
    && (Out(t) == Out(s) || Out(t) == s.wire)
  }

  /** Once the engine is no longer open, only the blocks already staged matter. */
  lemma DownKeepsWire(s: Core, t: Core)
    requires WireInv(s) && Down(s, t)
    ensures WireInv(t)
  {
    hide Blocks, InStep;
    BlocksWeaken(s.commands, s.replied, Out(s), t.commands, t.replied, |Out(t)|);
    assert Out(s)[..|Out(t)|] == Out(t);
  }

  lemma FinishIsDown(s: Core, u: Core)
    requires Down(s, u) && Out(u) == Out(s)
    ensures Down(s, MaybeFinishClose(u)) && Out(MaybeFinishClose(u)) == Out(s)
  {
  }

  lemma LossIsDown(s: Core)
    ensures Down(s, ConnectionLost(s)) && Out(ConnectionLost(s)) == Out(s)
    ensures ConnectionLost(s).replied == s.replied
  {
    hide UnstagedIds, Only, Without, Endings, MaybeFinishClose;
    if s.phase != Closed {
      FinishIsDown(s, Take(s, UnstagedIds(s.queue), Failed).(
        phase := Draining, registry := map[], target := None, lost := true));
      LossKeepsReplies(s);
    }
  }

  lemma LossKeepsReplies(s: Core)
    ensures ConnectionLost(s).replied == s.replied
  {
    hide UnstagedIds, Only, Without, Endings;
  }

  lemma FatalIsDown(s: Core)
    ensures s.read == Dispatching ==> Down(s, Fatal(s)) && Out(Fatal(s)) == Out(s) && Fatal(s).replied == s.replied
    ensures Down(s, LoseConnection(s))
  {
    hide ConnectionLost;
    LossIsDown(s);
    LossIsDown(s.(read := Quiet));
  }

  lemma FailureIsDown(s: Core)
    requires s.write == Failing
    ensures Down(s, FailConnection(s))
  {
    hide ConnectionLost;
    LossIsDown(s.(write := Idle));
  }

  lemma CloseIsDown(s: Core)
    ensures s.phase == Open ==> Down(s, Close(s))
    ensures s.phase != Closed ==> Down(s, Abandon(s))
  {
    hide UnstagedIds, UnwrittenIds, Only, Without, Endings, MaybeFinishClose;
    var taken := UnwrittenIds(s.queue);
    FinishIsDown(s, Take(s, taken, Failed).(
      phase := Draining, target := None,
      registry := s.registry - (set c | c in Only(s.queue, taken) :: c.Tag())));
    FinishIsDown(s, Take(s, UnstagedIds(s.queue), Dropped).(
      phase := Draining, abandoned := true, target := None, registry := map[]));
  }

  /** Taking cells that owe nothing more. */
  lemma RemoveInStep(commands: seq<Command>, replied: set<nat>, answered: set<nat>, out: seq<Chunk>, q: seq<Cell>, ids: set<nat>)
    requires Blocks(commands, replied, out) && InStep(commands, replied, out, q) && replied <= answered
    requires forall c | c in q && c.id in ids ::
               c.id in answered || Sent(c) == 0 || (c.command.Segmented? && Sent(c) == |c.command.segs|)
    ensures InStep(commands, answered, out, Without(q, ids))
  {
    if out != [] {
      var last := out[|out| - 1];
      assert last in out;
      if last.id in Ids(q) {
        var c :| c in q && c.id == last.id;
        assert Stepwise(commands, c) && Aligned(c, out);
        if c.id !in ids { assert c in Without(q, ids); }
      }
    }
    hide Stepwise, Aligned, Genuine, Chain, Unbroken;
  }

  lemma EnqueueWire(s: Core, serial: nat, command: Command, stopSeen: bool)
    requires WireInv(s) && KeepsOrder(command) && command.Rendered()
    ensures WireInv(Enqueue(s, serial, command, stopSeen))
  {
    hide Blocks, InStep, RenderTag, KeepsOrder, Command.Rendered;
    var t := Enqueue(s, serial, command, stopSeen);
    BlocksWeaken(s.commands, s.replied, Out(s), t.commands, t.replied, |Out(s)|);
    assert Out(s)[..|Out(s)|] == Out(s);
    if s.phase == Open {
      InStepGrows(s.commands, s.replied, Out(s), s.queue, command);
      if !stopSeen {
        var cell := Cell(|s.commands|, serial, command, false, false, false, false);
        NewCell(command, cell.id, serial);
        assert t.commands[..|s.commands|] == s.commands;
        InStepAppends(t.commands, s.replied, Out(s), s.queue, cell, |s.commands|);
      }
    }
  }

  lemma InStepGrows(commands: seq<Command>, replied: set<nat>, out: seq<Chunk>, q: seq<Cell>, command: Command)
    requires InStep(commands, replied, out, q)
    ensures InStep(commands + [command], replied, out, q)
  {
    forall c | c in q ensures Stepwise(commands + [command], c) && Aligned(c, out) {
      assert Stepwise(commands, c);
    }
  }

  lemma InStepAppends(commands: seq<Command>, replied: set<nat>, out: seq<Chunk>, q: seq<Cell>, cell: Cell, n: nat)
    requires n < |commands| && InStep(commands, replied, out, q) && Blocks(commands[..n], replied, out)
    requires cell.id == n && cell.command == commands[n] && KeepsOrder(cell.command)
    requires cell.Valid() && !cell.staged && !cell.hasWritten
    ensures InStep(commands, replied, out, q + [cell])
  {
    var r := q + [cell];
    assert forall c | c in r :: c in q || c == cell;
    assert forall c | c in q :: c in r;
    assert Ids(q) <= Ids(r);
    if out != [] {
      assert out[|out| - 1] in out;
    }
    assert Stepwise(commands, cell) && Aligned(cell, out);
  }

  lemma DrainedOwned(commands: seq<Command>, replied: set<nat>, out: seq<Chunk>, q: seq<Cell>)
    requires Sorted(q) && Drain(q) != []
    ensures Owned(commands, replied, out + Drain(q), StageAll(q, BatchIds(Drain(q))))
  {
    var batch := Drain(q);
    DrainChunks(q);
    SameIds(q, StageAll(q, BatchIds(batch)));
    var last := batch[|batch| - 1];
    assert last.id in BatchIds(batch);
    assert (out + batch)[|out + batch| - 1] == last;
  }

  lemma NoneStaged(q: seq<Cell>, n: nat)
    requires Staging(q, [], n)
    ensures forall c | c in q :: !c.staged
  {
    assert BatchIds([]) == {};
  }

  lemma KickInStep(commands: seq<Command>, replied: set<nat>, out: seq<Chunk>, q: seq<Cell>)
    requires Sorted(q) && Drain(q) != [] && forall c | c in q :: !c.staged
    requires Blocks(commands, replied, out) && InStep(commands, replied, out, q)
    ensures Blocks(commands, replied, out + Drain(q))
    ensures InStep(commands, replied, out + Drain(q), StageAll(q, BatchIds(Drain(q))))
  {
    var batch := Drain(q);
    DrainInStep(commands, replied, out, q);
    DrainedOwned(commands, replied, out, q);
    hide Sorted, Blocks, Stepwise, Aligned, Owned, Drain, BatchIds;
    forall x | x in StageAll(q, BatchIds(batch))
      ensures Stepwise(commands, x) && Aligned(x, out + batch)
    {
      var c := StagedMember(q, BatchIds(batch), x);
      assert x == Restaged(c, BatchIds(batch));
    }
  }

  lemma KickWire(s: Core)
    requires Inv(s) && WireInv(s)
    ensures WireInv(Kick(s))
  {
    hide Sorted, Ids, Conserved, Serials, Staging, DropsAreAbandoned, Coherent, Routed, TornDown, Blocks, InStep, Drain, BatchIds, Waiter;
    if s.phase == Open && s.write == Idle && Drain(s.queue) != [] {
      assert Out(s) == s.wire && Out(Kick(s)) == s.wire + Drain(s.queue);
      ConservedIds(s.queue, s.log, |s.commands|);
      NoneStaged(s.queue, |s.commands|);
      KickInStep(s.commands, s.replied, s.wire, s.queue);
    }
  }

  /** Flushing moves a staged segment from one count to the other. */
  lemma FlushStepwise(commands: seq<Command>, c: Cell, out: seq<Chunk>)
    requires Stepwise(commands, c) && Aligned(c, out) && c.staged
    ensures Stepwise(commands, c.Flush()) && Aligned(c.Flush(), out)
  {
    CellMoves(c);
  }

  lemma WrittenIsSent(commands: seq<Command>, c: Cell)
    requires Stepwise(commands, c)
    ensures c.IsWritten() ==> Sent(c) == |c.command.segs|
    ensures c.Unsent() ==> Sent(c) == 0
  {
    if c.command.emitted < c.command.unlocked {
      assert c.command.segs[c.command.emitted] in c.command.segs;
    }
  }

  lemma SettleWire(s: Core)
    requires Inv(s) && WireInv(s) && s.phase == Open && s.write.WriteArmed?
    ensures WireInv(Settle(s))
  {
    var q, batch := s.queue, Batch(s.write);
    var ids := BatchIds(batch);
    var r := FlushAll(q, ids);
    var gone := FinishedIds(r, ids);
    assert forall c | c in q :: c.staged <==> c.id in ids;
    SameIds(q, r);
    ConservedIds(q, s.log, |s.commands|);
    FinishedCells(r, ids);
    hide BatchIds, Inv, Sorted, Blocks, Stepwise, Aligned, Cell.Flush;
    forall x | x in r ensures Stepwise(s.commands, x) && Aligned(x, Out(s)) {
      var c := FlushedMember(q, ids, x);
      if c.staged { FlushStepwise(s.commands, c, Out(s)); }
    }
    forall c | c in r && c.id in gone ensures c.command.Segmented? && Sent(c) == |c.command.segs| {
      FinishedIsWritten(r, ids, c);
      WrittenIsSent(s.commands, c);
      assert Stepwise(s.commands, c);
      StepwiseSegmented(s.commands, c);
    }
    RemoveInStep(s.commands, s.replied, s.replied, Out(s), r, gone);
  }

  lemma StepwiseSegmented(commands: seq<Command>, c: Cell)
    requires Stepwise(commands, c)
    ensures c.command.Segmented?
  {
  }

  lemma FinishedIsWritten(q: seq<Cell>, ids: set<nat>, c: Cell)
    requires Sorted(q) && c in q && c.id in FinishedIds(q, ids)
    ensures c.IsWritten()
  {
    var d :| d in q && d.id == c.id && d.detached && d.IsWritten();
    SameId(q, c, d);
  }

  /** A cell replaced by another state of itself that has sent as much. */
  lemma ReplaceInStep(commands: seq<Command>, replied: set<nat>, out: seq<Chunk>, q: seq<Cell>, c: Cell, d: Cell)
    requires Sorted(q) && c in q && d.id == c.id
    requires InStep(commands, replied, out, q) && Stepwise(commands, d) && Aligned(d, out)
    ensures InStep(commands, replied, out, Replace(q, d))
  {
    ReplaceMembers(q, c, d);
    SameIds(q, Replace(q, d));
    hide Stepwise, Aligned;
  }

  lemma WireCell(s: Core, c: Cell)
    requires WireInv(s) && s.phase == Open && c in s.queue
    ensures Stepwise(s.commands, c) && Aligned(c, Out(s)) && c.command.Segmented?
    ensures c.IsWritten() ==> Sent(c) == |c.command.segs|
    ensures c.Unsent() ==> Sent(c) == 0
  {
    hide Blocks, Aligned;
    WrittenIsSent(s.commands, c);
  }

  lemma OnlyThisCell(q: seq<Cell>, c: Cell)
    requires Sorted(q) && c in q
    ensures forall x | x in q && x.id in {c.id} :: x == c
  {
    forall x | x in q && x.id in {c.id} ensures x == c { SameId(q, x, c); }
  }

  lemma DetachWire(s: Core, tag: string, c: Cell)
    requires WireInv(s) && s.phase == Open && Sorted(s.queue) && c in s.queue
    ensures WireInv(Detach(s, tag, c))
  {
    WireCell(s, c);
    hide Sorted, WireInv, InStep, Stepwise, Aligned, Cell.IsWritten, Cell.Unsent, Sent;
    if c.Unsent() || c.IsWritten() {
      OnlyThisCell(s.queue, c);
      WithdrawnInStep(s, c);
      SameOut(s, Detach(s, tag, c), Without(s.queue, {c.id}));
    } else {
      DetachedInStep(s, c);
      SameOut(s, Detach(s, tag, c), Replace(s.queue, c.(detached := true)));
    }
  }

  lemma WithdrawnInStep(s: Core, c: Cell)
    requires WireInv(s) && s.phase == Open && (forall x | x in s.queue && x.id in {c.id} :: x == c)
    requires c.command.Segmented? && (Sent(c) == 0 || Sent(c) == |c.command.segs|)
    ensures InStep(s.commands, s.replied, Out(s), Without(s.queue, {c.id}))
  {
    hide Blocks, InStep, Sent;
    RemoveInStep(s.commands, s.replied, s.replied, Out(s), s.queue, {c.id});
  }

  lemma DetachedInStep(s: Core, c: Cell)
    requires WireInv(s) && s.phase == Open && Sorted(s.queue) && c in s.queue
    ensures InStep(s.commands, s.replied, Out(s), Replace(s.queue, c.(detached := true)))
  {
    WireCell(s, c);
    DetachInStep(s.commands, c, Out(s));
    hide Blocks, InStep, Sent, Sorted, Stepwise, Aligned;
    assert InStep(s.commands, s.replied, Out(s), s.queue);
    ReplaceInStep(s.commands, s.replied, Out(s), s.queue, c, c.(detached := true));
  }

  lemma CancelWire(s: Core, tag: string)
    requires Inv(s) && WireInv(s)
    ensures WireInv(Cancel(s, tag))
  {
    hide Sorted, Ids, Conserved, Serials, Staging, DropsAreAbandoned, Coherent, Routed, TornDown, Detach, WireInv;
    ConservedIds(s.queue, s.log, |s.commands|);
    if s.phase == Open && tag in s.registry {
      var c := RegisteredCell(s.queue, s.registry, tag);
      DetachWire(s, tag, c);
    }
  }

  lemma DetachInStep(commands: seq<Command>, c: Cell, out: seq<Chunk>)
    requires Stepwise(commands, c) && Aligned(c, out)
    ensures Stepwise(commands, c.(detached := true)) && Aligned(c.(detached := true), out)
  {
  }

  lemma RepliedWire(s: Core, t: Core, id: nat)
    requires WireInv(s) && s.phase == Open == t.phase
    requires t.queue == Without(s.queue, {id}) && t.replied == s.replied + {id} && t.commands == s.commands && Out(t) == Out(s)
    ensures WireInv(t)
  {
    BlocksWeaken(s.commands, s.replied, Out(s), s.commands, t.replied, |Out(s)|);
    assert Out(s)[..|Out(s)|] == Out(s);
    hide Blocks, InStep;
    RemoveInStep(s.commands, s.replied, t.replied, Out(s), s.queue, {id});
  }

  lemma DownThrough(s: Core, u: Core, t: Core)
    requires Down(u, t) && Out(u) == Out(s) && u.wire == s.wire && u.commands == s.commands && u.replied == s.replied
    requires u.answered == s.answered && u.spoiled == s.spoiled
    ensures Down(s, t)
  {
    hide Out;
  }

  lemma TaggedIsDown(s: Core, tag: string)
    requires s.read == Dispatching && s.phase != Open && tag in s.registry
    ensures Down(s, TaggedReply(s, tag))
  {
    hide Fatal, Ids, Only, Without, Endings;
    var id := s.registry[tag];
    var u := s.(registry := s.registry - {tag}, target := if s.target == Some(id) then None else s.target);
    assert Out(u) == Out(s);
    if id !in Ids(s.queue) {
      FatalIsDown(u);
      hide Down;
      DownThrough(s, u, Fatal(u));
    }
  }

  lemma TaggedWire(s: Core, tag: string)
    requires Inv(s) && WireInv(s) && s.read == Dispatching
    ensures WireInv(TaggedReply(s, tag))
  {
    hide Sorted, Ids, Conserved, Serials, Staging, DropsAreAbandoned, Coherent, Routed, TornDown, WireInv, RenderTag, Fatal;
    if tag in s.registry {
      if s.phase == Open {
        ConservedIds(s.queue, s.log, |s.commands|);
        var c := RegisteredCell(s.queue, s.registry, tag);
        Queued(s.queue, c);
        RepliedWire(s, TaggedReply(s, tag), c.id);
      } else {
        TaggedIsDown(s, tag);
        DownKeepsWire(s, TaggedReply(s, tag));
      }
    }
  }

  lemma AnswerWire(s: Core, c: Cell)
    requires WireInv(s) && s.phase == Open && Sorted(s.queue) && c in s.queue && LineOut(c) && c.Valid()
    ensures InStep(s.commands, s.replied, Out(s), Replace(s.queue, c.Continue()))
  {
    WireCell(s, c);
    AnswerInStep(s.commands, c, Out(s));
    ContinueIdentity(c);
    hide Sorted, Blocks, InStep, Stepwise, Aligned, LineOut, Cell.Valid, Cell.Continue;
    ReplaceInStep(s.commands, s.replied, Out(s), s.queue, c, c.Continue());
  }

  /** A solicited continuation goes to the cell whose line is out. */
  lemma SolicitedTarget(s: Core) returns (c: Cell)
    requires Sorted(s.queue) && Routed(s.queue, s.target) && Solicited(s)
    ensures c in s.queue && LineOut(c) && s.target == Some(c.id) && Lookup(s.queue, c.id) == Some(c)
  {
    c :| c in s.queue && LineOut(c) && (s.write.Latched? ==> c.id !in BatchIds(s.write.batch));
    LookupFinds(s.queue, c);
  }

  lemma ContinuationWire(s: Core)
    requires Inv(s) && WireInv(s) && s.read == Dispatching && Solicited(s)
    ensures WireInv(ContinuationRequest(s))
  {
    hide Sorted, Ids, Conserved, Serials, Staging, DropsAreAbandoned, Coherent, Routed, WireInv, Solicited, LineOut, Cell.Valid, Fatal;
    if s.phase != Open {
      FatalIsDown(s);
      DownKeepsWire(s, ContinuationRequest(s));
    } else {
      ConservedIds(s.queue, s.log, |s.commands|);
      var c := SolicitedTarget(s);
      CellsAreValid(s.queue, Batch(s.write), |s.commands|, c);
      AnswerWire(s, c);
      SameOut(s, ContinuationRequest(s), Replace(s.queue, c.Continue()));
    }
  }

  lemma SameOut(s: Core, t: Core, q: seq<Cell>)
    requires WireInv(s) && s.phase == Open == t.phase && t.queue == q && InStep(s.commands, s.replied, Out(s), q)
    requires Out(t) == Out(s) && t.commands == s.commands && t.replied == s.replied
    ensures WireInv(t)
  {
    hide Blocks, InStep;
  }

  lemma ContinueIdentity(c: Cell)
    ensures c.Continue().id == c.id
  {
  }

  /** An answered line releases exactly the next piece. */
  lemma AnswerInStep(commands: seq<Command>, c: Cell, out: seq<Chunk>)
    requires Stepwise(commands, c) && Aligned(c, out) && LineOut(c)
    ensures Stepwise(commands, c.Continue()) && Aligned(c.Continue(), out)
  {
    CellMoves(c);
  }

  lemma SameOutAndQueue(s: Core, t: Core)
    requires WireInv(s) && (t.phase == Open ==> s.phase == Open) && t.queue == s.queue
    requires Out(t) == Out(s) && t.commands == s.commands && t.replied == s.replied
    ensures WireInv(t)
  {
    hide Blocks, InStep;
  }

  lemma LightStepsKeepWire(s: Core, e: Event)
    requires WireInv(s) && Enabled(s, e) && IsLight(e)
    ensures WireInv(Step(s, e))
  {
    LightSteps(s, e);
    hide WireInv, Step, Enabled;
    SameOutAndQueue(s, Step(s, e));
  }

  lemma ArmWriteWire(s: Core)
    requires WireInv(s) && s.write.Latched? && (s.abandoned ==> s.phase != Open)
    ensures WireInv(ArmWrite(s))
  {
    hide WireInv, BatchIds, Only, Without;
    if s.phase == Open {
      SameOutAndQueue(s, ArmWrite(s));
    } else {
      DownKeepsWire(s, ArmWrite(s));
    }
  }

  lemma RetireIsDown(s: Core, ending: Ending)
    requires s.phase != Open && s.write != Idle
    ensures Down(s, Retire(s, ending))
  {
    hide BatchIds, Only, Without, Endings;
  }

  lemma WriteFailedIsDown(s: Core)
    requires s.write.WriteArmed?
    ensures Down(s, WriteDone(s, false, false))
  {
    hide BatchIds, Only, Without, Endings, ConnectionLost;
    if s.phase == Open {
      var u := s.(write := Idle, queue := Without(s.queue, BatchIds(Batch(s.write))));
      LossIsDown(u);
      assert Down(s, ConnectionLost(u));
    }
  }

  lemma WriteDoneDown(s: Core, ok: bool, quiet: bool)
    requires Enabled(s, DoWriteDone(ok, quiet)) && (quiet || !ok || s.phase != Open) && (quiet ==> s.phase != Open)
    ensures Down(s, WriteDone(s, ok, quiet))
  {
    hide Retire, Down, Settle, ConnectionLost;
    if quiet {
      RetireIsDown(s, Dropped);
    } else if ok {
      RetireIsDown(s, Failed);
    } else {
      WriteFailedIsDown(s);
    }
  }

  lemma WriteDoneWire(s: Core, ok: bool, quiet: bool)
    requires Inv(s) && WireInv(s) && Enabled(s, DoWriteDone(ok, quiet))
    ensures WireInv(WriteDone(s, ok, quiet))
  {
    if ok && !quiet && s.phase == Open {
      SettleWire(s);
    } else {
      QuietIsNotOpen(s);
      hide Inv, WireInv, WriteDone;
      WriteDoneDown(s, ok, quiet);
      DownKeepsWire(s, WriteDone(s, ok, quiet));
    }
  }

  lemma QuietIsNotOpen(s: Core)
    requires Inv(s)
    ensures s.abandoned ==> s.phase != Open
  {
  }

  lemma CloseWire(s: Core)
    requires WireInv(s)
    ensures WireInv(Close(s)) && WireInv(Abandon(s))
  {
    hide WireInv, Down;
    CloseIsDown(s);
    if s.phase == Open { DownKeepsWire(s, Close(s)); }
    if s.phase != Closed { DownKeepsWire(s, Abandon(s)); }
  }

  lemma FatalWire(s: Core)
    requires WireInv(s)
    ensures s.read == Dispatching ==> WireInv(Fatal(s))
    ensures WireInv(LoseConnection(s)) && (s.write == Failing ==> WireInv(FailConnection(s)))
  {
    hide WireInv, Down, Fatal, LoseConnection, FailConnection;
    FatalIsDown(s);
    if s.read == Dispatching { DownKeepsWire(s, Fatal(s)); }
    DownKeepsWire(s, LoseConnection(s));
    if s.write == Failing { FailureIsDown(s); DownKeepsWire(s, FailConnection(s)); }
  }

  lemma StepKeepsWire(s: Core, e: Event)
    requires Inv(s) && WireInv(s) && Enabled(s, e)
    requires (e.DoEnqueue? ==> KeepsOrder(e.command)) && (e.DoContinuation? ==> Solicited(s))
    ensures WireInv(Step(s, e))
  {
    hide Inv, WireInv, Solicited, Close, Abandon, LoseConnection, FailConnection, Fatal;
    match e
    case DoEnqueue(serial, command, stopSeen) => EnqueueWire(s, serial, command, stopSeen);
    case DoCancel(tag) => CancelWire(s, tag);
    case DoKick => KickWire(s);
    case DoTagged(reply) => TaggedWire(s, reply);
    case DoContinuation => ContinuationWire(s);
    case DoWriteDone(ok, quiet) => WriteDoneWire(s, ok, quiet);
    case DoArmWrite => QuietIsNotOpen(s); ArmWriteWire(s);
    case DoClose => CloseWire(s);
    case DoAbandon => CloseWire(s);
    case DoLoseConnection => FatalWire(s);
    case DoFailConnection => FatalWire(s);
    case DoMalformed => FatalWire(s);
    case _ => LightStepsKeepWire(s, e);
  }

  lemma {:induction false} RunsKeepWire(es: seq<Event>)
    requires Possible(es) && Disciplined(es)
    ensures WireInv(After(es))
  {
    hide Inv, WireInv, Step, Solicited, KeepsOrder;
    if es == [] {
      assert WireInv(Start()) by { StartIsInStep(); }
    } else {
      var init := es[..|es| - 1];
      RunsKeepWire(init);
      RunsKeep(init);
      StepKeepsWire(After(init), es[|es| - 1]);
    }
  }

  lemma StartIsInStep()
    ensures WireInv(Start())
  {
  }

  // ---- The wire as bytes ---------------------------------------------------

  function Bytes(out: seq<Chunk>): string {
    if out == [] then "" else Bytes(out[..|out| - 1]) + out[|out| - 1].bytes
  }

  /** How many segments of command `id` are among the chunks. */
  function Count(out: seq<Chunk>, id: nat): nat {
    if out == [] then 0 else
      Count(out[..|out| - 1], id) + (if out[|out| - 1].id == id then 1 else 0)
  }

  /** What was sent of command `id`: a run of its first segments. */
  function Block(commands: seq<Command>, out: seq<Chunk>, id: nat): string
    requires id < |commands|
  {
    var n, pieces := Count(out, id), commands[id].Pieces();
    if n <= |pieces| then Join(pieces[..n]) else ""
  }

  /** The blocks of the first `n` commands, in submission order. */
  function Sequenced(commands: seq<Command>, out: seq<Chunk>, n: nat): string
    requires n <= |commands|
  {
    if n == 0 then "" else Sequenced(commands, out, n - 1) + Block(commands, out, n - 1)
  }

  lemma {:induction false} ChainCounts(out: seq<Chunk>, id: nat)
    requires Chain(out) && out != []
    ensures id == out[|out| - 1].id ==> Count(out, id) == out[|out| - 1].index + 1
    ensures id > out[|out| - 1].id ==> Count(out, id) == 0
  {
    var init, last := out[..|out| - 1], out[|out| - 1];
    if init != [] {
      assert forall i | 0 < i < |init| :: Follows(out[i - 1], out[i]);
      assert Follows(out[|out| - 2], last);
      ChainCounts(init, id);
    }
  }

  lemma {:induction false} SequencedIgnores(commands: seq<Command>, out: seq<Chunk>, n: nat)
    requires out != [] && n <= |commands| && n <= out[|out| - 1].id
    ensures Sequenced(commands, out, n) == Sequenced(commands, out[..|out| - 1], n)
  {
    if n > 0 {
      SequencedIgnores(commands, out, n - 1);
    }
  }

  /** Nothing was sent of command `m` or any later one. */
  ghost predicate Silent(out: seq<Chunk>, m: nat) {
    forall id: nat | m <= id :: Count(out, id) == 0
  }

  lemma {:induction false} SequencedStops(commands: seq<Command>, out: seq<Chunk>, m: nat, n: nat)
    requires m <= n <= |commands| && Silent(out, m)
    ensures Sequenced(commands, out, n) == Sequenced(commands, out, m)
  {
    if m < n {
      SequencedStops(commands, out, m, n - 1);
      assert Count(out, n - 1) == 0;
      assert Block(commands, out, n - 1) == "";
    }
  }

  /** The last chunk extends its own block and no other. */
  lemma LastBlock(commands: seq<Command>, out: seq<Chunk>)
    requires Chain(out) && out != [] && Genuine(commands, out[|out| - 1])
    ensures var last := out[|out| - 1];
            && Block(commands, out, last.id) == Block(commands, out[..|out| - 1], last.id) + last.bytes
            && Silent(out, last.id + 1) && Silent(out[..|out| - 1], last.id + 1)
  {
    var last := out[|out| - 1];
    var segs := commands[last.id].segs;
    ChainCounts(out, last.id);
    forall j: nat | last.id < j ensures Count(out, j) == 0 {
      ChainCounts(out, j);
    }
    var init := out[..|out| - 1];
    forall j: nat | last.id < j ensures Count(init, j) == 0 {
      assert Count(out, j) == 0;
    }
    assert segs[..last.index + 1][..last.index] == segs[..last.index];
  }

  lemma SequencedGrows(commands: seq<Command>, out: seq<Chunk>, last: Chunk, init: seq<Chunk>)
    requires out != [] && last == out[|out| - 1] && init == out[..|out| - 1] && last.id < |commands|
    requires Block(commands, out, last.id) == Block(commands, init, last.id) + last.bytes
    requires Silent(out, last.id + 1) && Silent(init, last.id + 1)
    ensures Sequenced(commands, out, |commands|) == Sequenced(commands, init, |commands|) + last.bytes
  {
    hide Silent, Block, Count, Sequenced;
    var all := |commands|;
    SequencedIgnores(commands, out, last.id);
    SequencedStops(commands, out, last.id + 1, all);
    SequencedStops(commands, init, last.id + 1, all);
    var before, block := Sequenced(commands, init, last.id), Block(commands, init, last.id);
    SequencedMore(commands, init, last.id);
    SequencedMore(commands, out, last.id);
    Assoc(before, block, last.bytes);
  }

  lemma SequencedMore(commands: seq<Command>, out: seq<Chunk>, n: nat)
    requires n < |commands|
    ensures Sequenced(commands, out, n + 1) == Sequenced(commands, out, n) + Block(commands, out, n)
  {
    hide Block;
  }

  /** The bytes of a chain of genuine chunks are the blocks of the commands in submission order. */
  lemma {:induction false} ChainIsSequenced(commands: seq<Command>, out: seq<Chunk>)
    requires Chain(out) && forall ch | ch in out :: Genuine(commands, ch)
    ensures Bytes(out) == Sequenced(commands, out, |commands|)
  {
    var all := |commands|;
    if out == [] {
      SequencedStops(commands, out, 0, all);
    } else {
      var init, last := out[..|out| - 1], out[|out| - 1];
      assert last in out && Genuine(commands, last);
      assert forall ch | ch in init :: ch in out;
      ChainIsSequenced(commands, init);
      LastBlock(commands, out);
      SequencedGrows(commands, out, last, init);
    }
  }

  /** A command partly on the wire is the last one there, or the server has answered it. */
  lemma {:induction false} PartialBlocks(commands: seq<Command>, replied: set<nat>, out: seq<Chunk>, id: nat)
    requires Blocks(commands, replied, out) && id < |commands| && Count(out, id) > 0
    ensures Count(out, id) <= |commands[id].Pieces()|
    ensures Count(out, id) < |commands[id].Pieces()| ==> id in replied || id == out[|out| - 1].id
  {
    var init, last := out[..|out| - 1], out[|out| - 1];
    assert last in out;
    ChainCounts(out, id);
    if id != last.id {
      BlocksWeaken(commands, replied, out, commands, replied, |init|);
      PartialBlocks(commands, replied, init, id);
      var before := init[|init| - 1];
      if id == before.id {
        assert out[|out| - 2] == before;
        ChainCounts(init, id);
      }
    }
  }

  /**
   The bytes handed to the transport are the commands' renderings in submission order, each
   cut to its first pieces and none split; only the last block, or a block whose command got
   a tagged reply, may be partial.
   */
  ghost predicate InOrder(s: Core) {
    && Chain(s.wire)
    && Bytes(s.wire) == Sequenced(s.commands, s.wire, |s.commands|)
    && forall id: nat | id < |s.commands| && Count(s.wire, id) > 0 ::
         && Count(s.wire, id) <= |s.commands[id].Pieces()|
         && (Count(s.wire, id) < |s.commands[id].Pieces()| ==> id in s.replied || id == s.wire[|s.wire| - 1].id)
  }

  /** Over every disciplined run, with any cancels and any teardown, the wire is in order. */
  lemma WireIsInOrder(es: seq<Event>)
    requires Possible(es) && Disciplined(es)
    ensures InOrder(After(es))
  {
    var s := After(es);
    RunsKeepWire(es);
    assert Out(s)[..|s.wire|] == s.wire;
    hide InStep, After;
    BlocksWeaken(s.commands, s.replied, Out(s), s.commands, s.replied, |s.wire|);
    ChainIsSequenced(s.commands, s.wire);
    assert Chain(s.wire);
    hide Blocks, Chain;
    forall id: nat | id < |s.commands| && Count(s.wire, id) > 0
      ensures Count(s.wire, id) <= |s.commands[id].Pieces()|
      ensures Count(s.wire, id) < |s.commands[id].Pieces()| ==> id in s.replied || id == s.wire[|s.wire| - 1].id
    {
      PartialBlocks(s.commands, s.replied, s.wire, id);
    }
  }
}
