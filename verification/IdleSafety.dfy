/**
 IDLE under cancellation: at most one DONE is sent, only after the continuation
 request, and no cancellation withdraws an IDLE from the queue.
 */
module IdleSafety {
  import opened Commands
  import opened Engine
  import opened EngineFrames
  import opened EngineInvariants
  import opened EngineSteps
  import opened Wrappers
  import opened WireOrder

  /** A DONE for cell `id` is among the chunks. */
  ghost predicate DoneIn(out: seq<Chunk>, id: nat) {
    exists ch :: ch in out && ch.id == id && ch.index == 1
  }

  /** The first line of cell `id` is among the chunks. */
  ghost predicate LineIn(batch: seq<Chunk>, id: nat) {
    exists ch :: ch in batch && ch.id == id && ch.index == 0
  }

  predicate IsIdle(commands: seq<Command>, id: nat) {
    id < |commands| && commands[id].IdleCommand?
  }

  /** Every DONE follows its IDLE's line. */
  ghost predicate Led(commands: seq<Command>, out: seq<Chunk>) {
    forall j | 0 <= j < |out| && out[j].index == 1 && IsIdle(commands, out[j].id) :: LineIn(out[..j], out[j].id)
  }

  /** An IDLE is asked to end at most once, after its one line. */
  ghost predicate OneDone(commands: seq<Command>, out: seq<Chunk>) {
    && Led(commands, out)
    && forall i, j | 0 <= i < j < |out| && out[i].id == out[j].id && IsIdle(commands, out[i].id) ::
         out[i].index == 0 && out[j].index == 1
  }

  /** What an IDLE may send: its line, or DONE once the server's continuation request has come. */
  ghost predicate IdleChunk(commands: seq<Command>, ch: Chunk, answered: set<nat>) {
    IsIdle(commands, ch.id) ==>
      || (ch.index == 0 && ch.bytes == commands[ch.id].segment)
      || (ch.index == 1 && ch.bytes == DONE_LINE && ch.id in answered)
  }

  ghost predicate DoneIsAnswered(commands: seq<Command>, out: seq<Chunk>, answered: set<nat>) {
    forall ch | ch in out :: ch.id < |commands| && IdleChunk(commands, ch, answered)
  }

  /** Where a queued IDLE stands. */
  ghost predicate IdleCell(c: Cell, out: seq<Chunk>, batch: seq<Chunk>, answered: set<nat>, spoiled: set<nat>) {
    c.command.IdleCommand? ==>
      var phase := c.command.phase;
      && (c.staged ==> (LineIn(batch, c.id) <==> !DoneIn(out, c.id)))
      && (c.staged || c.hasWritten <==> LineIn(out, c.id))
      && (phase == IdleSent ==> !DoneIn(out, c.id) && (c.staged || (c.command.pending <==> !c.hasWritten)))
      && (phase != IdleSent ==> c.id in answered && (c.staged || c.hasWritten))
      && (phase == Idling ==> !DoneIn(out, c.id) && (c.staged || !c.command.pending))
      && (phase == DonePending ==> c.staged || !DoneIn(out, c.id))
      && (phase == DoneSent ==> !c.staged)
      && (phase == DoneSent ==> (DoneIn(out, c.id) <==> c.id !in spoiled))
      && (phase != DoneSent ==> c.id !in spoiled)
  }

  /** The cell is an IDLE exactly when it was submitted as one, and still holds its line until DONE replaces it. */
  ghost predicate Kin(commands: seq<Command>, c: Cell) {
    && (c.command.IdleCommand? <==> IsIdle(commands, c.id))
    && (c.command.IdleCommand? && c.command.phase != DonePending && c.command.pending ==>
          c.command.segment == commands[c.id].segment)
  }

  ghost predicate IdleCells(commands: seq<Command>, q: seq<Cell>, out: seq<Chunk>, batch: seq<Chunk>,
                            answered: set<nat>, spoiled: set<nat>)
  {
    forall c | c in q ::
      Kin(commands, c) && IdleCell(c, out, batch, answered, spoiled)
  }

  ghost predicate IdleInv(s: Core) {
    && OneDone(s.commands, Out(s))
    && DoneIsAnswered(s.commands, Out(s), s.answered)
    && (forall id | id in s.spoiled :: id < |s.commands|)
    && (s.phase == Open ==> IdleCells(s.commands, s.queue, Out(s), Batch(s.write), s.answered, s.spoiled))
  }

  // ---- The drain ---------------------------------------------------------

  lemma DoneInAppend(out: seq<Chunk>, batch: seq<Chunk>, id: nat)
    ensures DoneIn(out + batch, id) <==> DoneIn(out, id) || DoneIn(batch, id)
  {
    if DoneIn(out, id) { var ch :| ch in out && ch.id == id && ch.index == 1; assert ch in out + batch; }
    if DoneIn(batch, id) { var ch :| ch in batch && ch.id == id && ch.index == 1; assert ch in out + batch; }
  }

  /** What a drain says about one cell. */
  lemma DrainedCell(q: seq<Cell>, c: Cell)
    requires Sorted(q) && c in q
    ensures c.id !in BatchIds(Drain(q)) ==> !DoneIn(Drain(q), c.id) && !LineIn(Drain(q), c.id)
    ensures c.id in BatchIds(Drain(q)) ==>
              && c.NextSegment() != ""
              && (DoneIn(Drain(q), c.id) <==> NextIndex(c) == 1)
              && (LineIn(Drain(q), c.id) <==> NextIndex(c) == 0)
  {
    DrainChunks(q);
    hide Sorted, Drain, NextIndex;
    if c.id in BatchIds(Drain(q)) {
      var ch :| ch in Drain(q) && ch.id == c.id;
      assert ch == NextChunk(c);
    }
  }

  lemma KickIdleCell(q: seq<Cell>, c: Cell, out: seq<Chunk>, answered: set<nat>, spoiled: set<nat>)
    requires Sorted(q) && c in q && !c.staged && c.Valid() && IdleCell(c, out, [], answered, spoiled)
    ensures IdleCell(Restaged(c, BatchIds(Drain(q))), out + Drain(q), Drain(q), answered, spoiled)
  {
    DrainedCell(q, c);
    DoneInAppend(out, Drain(q), c.id);
    hide Sorted, Drain, BatchIds, DoneIn, LineIn;
  }

  /** What an unstaged IDLE stages next was not sent before: its line first, DONE last. */
  lemma NextIdleChunk(commands: seq<Command>, c: Cell, out: seq<Chunk>, answered: set<nat>, spoiled: set<nat>)
    requires !c.staged && c.Valid() && c.NextSegment() != "" && Kin(commands, c) && IdleCell(c, out, [], answered, spoiled)
    ensures IdleChunk(commands, NextChunk(c), answered)
    ensures c.command.IdleCommand? ==> !DoneIn(out, c.id) && (NextIndex(c) == 0 <==> !LineIn(out, c.id))
  {
    hide DoneIn, LineIn;
  }

  lemma DrainedIdleChunk(commands: seq<Command>, q: seq<Cell>, ch: Chunk, out: seq<Chunk>, answered: set<nat>, spoiled: set<nat>)
    requires Sorted(q) && (forall c | c in q :: !c.staged && c.Valid() && c.id < |commands|)
    requires IdleCells(commands, q, out, [], answered, spoiled) && ch in Drain(q)
    ensures ch.id < |commands| && IdleChunk(commands, ch, answered)
    ensures IsIdle(commands, ch.id) ==> !DoneIn(out, ch.id) && (ch.index == 0 <==> !LineIn(out, ch.id))
  {
    DrainChunks(q);
    assert ch.id in BatchIds(Drain(q));
    var c :| c in q && c.id == ch.id;
    hide Sorted, Drain, BatchIds, IdleCell, IdleChunk, DoneIn, LineIn;
    NextIdleChunk(commands, c, out, answered, spoiled);
  }

  lemma SentBefore(commands: seq<Command>, out: seq<Chunk>, answered: set<nat>, ch: Chunk)
    requires DoneIsAnswered(commands, out, answered) && ch in out && IsIdle(commands, ch.id)
    ensures LineIn(out, ch.id) || DoneIn(out, ch.id)
    ensures ch.index == 1 ==> DoneIn(out, ch.id)
    ensures ch.index == 0 || ch.index == 1
  {
    assert IdleChunk(commands, ch, answered);
  }

  /** Only a pending DONE is staged as one, and nothing is staged twice. */
  lemma KickOneDone(commands: seq<Command>, q: seq<Cell>, out: seq<Chunk>, answered: set<nat>, spoiled: set<nat>)
    requires Sorted(q) && (forall c | c in q :: !c.staged && c.Valid() && c.id < |commands|)
    requires OneDone(commands, out) && DoneIsAnswered(commands, out, answered)
    requires IdleCells(commands, q, out, [], answered, spoiled)
    ensures OneDone(commands, out + Drain(q)) && DoneIsAnswered(commands, out + Drain(q), answered)
  {
    var batch := Drain(q);
    DrainAscends(q);
    hide Sorted, Drain, BatchIds, IdleCells, IsIdle, IdleChunk, DoneIn, LineIn, Led;
    forall ch | ch in batch
      ensures ch.id < |commands| && IdleChunk(commands, ch, answered)
      ensures IsIdle(commands, ch.id) ==> !DoneIn(out, ch.id) && (ch.index == 0 <==> !LineIn(out, ch.id))
      ensures IsIdle(commands, ch.id) ==> ch.index == 0 || ch.index == 1
    {
      DrainedIdleChunk(commands, q, ch, out, answered, spoiled);
      TwoIndices(commands, ch, answered);
    }
    var r := out + batch;
    forall i, j | 0 <= i < j < |r| && r[i].id == r[j].id && IsIdle(commands, r[i].id)
      ensures r[i].index == 0 && r[j].index == 1
    {
      if i < |out| <= j {
        assert r[j] in batch;
        SentBefore(commands, out, answered, r[i]);
      }
    }
    LedGrows(commands, out, batch);
  }

  lemma LedGrows(commands: seq<Command>, out: seq<Chunk>, batch: seq<Chunk>)
    requires Led(commands, out)
    requires forall ch | ch in batch && IsIdle(commands, ch.id) && ch.index == 1 :: LineIn(out, ch.id)
    ensures Led(commands, out + batch)
  {
    var r := out + batch;
    hide IsIdle;
    forall j | 0 <= j < |r| && r[j].index == 1 && IsIdle(commands, r[j].id) ensures LineIn(r[..j], r[j].id) {
      if j < |out| {
        assert r[..j] == out[..j];
      } else {
        assert r[j] in batch && r[..j] == out + batch[..j - |out|];
        var ch :| ch in out && ch.id == r[j].id && ch.index == 0;
        assert ch in r[..j];
      }
    }
  }

  lemma TwoIndices(commands: seq<Command>, ch: Chunk, answered: set<nat>)
    requires IdleChunk(commands, ch, answered)
    ensures IsIdle(commands, ch.id) ==> ch.index == 0 || ch.index == 1
  {
  }

  lemma KickIdle(s: Core)
    requires Inv(s) && IdleInv(s)
    ensures IdleInv(Kick(s))
  {
    hide Sorted, Ids, Conserved, Serials, DropsAreAbandoned, Coherent, Routed, TornDown, Drain, BatchIds, Waiter,
         IdleCells, OneDone, DoneIsAnswered, Cell.Valid;
    if s.phase == Open && s.write == Idle && Drain(s.queue) != [] {
      var q, batch := s.queue, Drain(s.queue);
      assert Out(s) == s.wire && Out(Kick(s)) == s.wire + batch;
      ConservedIds(q, s.log, |s.commands|);
      NoneStaged(q, |s.commands|);
      assert forall c | c in q :: c.Valid();
      KickOneDone(s.commands, q, s.wire, s.answered, s.spoiled);
      KickIdleCells(s.commands, q, s.wire, s.answered, s.spoiled);
    }
  }

  lemma KickIdleCells(commands: seq<Command>, q: seq<Cell>, out: seq<Chunk>, answered: set<nat>, spoiled: set<nat>)
    requires Sorted(q) && (forall c | c in q :: !c.staged && c.Valid())
    requires IdleCells(commands, q, out, [], answered, spoiled)
    ensures IdleCells(commands, StageAll(q, BatchIds(Drain(q))), out + Drain(q), Drain(q), answered, spoiled)
  {
    hide Sorted, Drain, BatchIds, IdleCell, IsIdle, Cell.Valid;
    forall x | x in StageAll(q, BatchIds(Drain(q)))
      ensures Kin(commands, x)
              && IdleCell(x, out + Drain(q), Drain(q), answered, spoiled)
    {
      var c := StagedMember(q, BatchIds(Drain(q)), x);
      KickIdleCell(q, c, out, answered, spoiled);
    }
  }

  // ---- The other steps -----------------------------------------------------

  lemma OneDoneOfPrefix(commands: seq<Command>, out: seq<Chunk>, answered: set<nat>, more: set<nat>, n: nat)
    requires OneDone(commands, out) && DoneIsAnswered(commands, out, answered) && answered <= more && n <= |out|
    ensures OneDone(commands, out[..n]) && DoneIsAnswered(commands, out[..n], more)
  {
    assert forall ch | ch in out[..n] :: ch in out;
    assert forall j | 0 <= j < n :: out[..n][..j] == out[..j];
  }

  /** After teardown only what was sent so far matters. */
  lemma DownKeepsIdle(s: Core, t: Core)
    requires IdleInv(s) && Down(s, t)
    ensures IdleInv(t)
  {
    hide OneDone, DoneIsAnswered, IdleCells;
    OneDoneOfPrefix(s.commands, Out(s), s.answered, s.answered, |Out(t)|);
    assert Out(s)[..|Out(t)|] == Out(t);
  }

  /** Steps that leave the chunks, the commands and the queue alone. */
  lemma SameKeepsIdle(s: Core, t: Core)
    requires IdleInv(s) && (t.phase == Open ==> s.phase == Open) && t.queue == s.queue && t.commands == s.commands
    requires Out(t) == Out(s) && Batch(t.write) == Batch(s.write) && t.answered == s.answered && t.spoiled == s.spoiled
    ensures IdleInv(t)
  {
    hide OneDone, DoneIsAnswered, IdleCells;
  }

  lemma ChunksOfOthers(out: seq<Chunk>, n: nat)
    requires forall ch | ch in out :: ch.id < n
    ensures !DoneIn(out, n) && !LineIn(out, n)
  {
  }

  lemma EnqueueIdleCells(commands: seq<Command>, q: seq<Cell>, out: seq<Chunk>, batch: seq<Chunk>,
                         answered: set<nat>, spoiled: set<nat>, cell: Cell)
    requires IdleCells(commands, q, out, batch, answered, spoiled) && forall c | c in q :: c.id < |commands|
    requires cell.id == |commands| && cell.command.Rendered() && !cell.staged && !cell.hasWritten
    requires cell.id !in spoiled && !DoneIn(out, cell.id) && !LineIn(out, cell.id)
    ensures IdleCells(commands + [cell.command], q, out, batch, answered, spoiled)
    ensures IdleCells(commands + [cell.command], q + [cell], out, batch, answered, spoiled)
  {
    var more := commands + [cell.command];
    assert forall c | c in q + [cell] :: c in q || c == cell;
    forall c | c in q ensures Kin(more, c) {
      assert Kin(commands, c);
    }
    assert Kin(more, cell) && IdleCell(cell, out, batch, answered, spoiled);
    hide Kin, IdleCell, DoneIn, LineIn;
  }

  lemma EnqueueOut(commands: seq<Command>, out: seq<Chunk>, answered: set<nat>, command: Command)
    requires OneDone(commands, out) && DoneIsAnswered(commands, out, answered)
    ensures OneDone(commands + [command], out) && DoneIsAnswered(commands + [command], out, answered)
    ensures !DoneIn(out, |commands|) && !LineIn(out, |commands|)
  {
    ChunksOfOthers(out, |commands|);
    assert forall ch | ch in out :: IsIdle(commands + [command], ch.id) <==> IsIdle(commands, ch.id);
    assert forall i | 0 <= i < |out| :: out[i] in out;
  }

  lemma EnqueueIdle(s: Core, serial: nat, command: Command, stopSeen: bool)
    requires Inv(s) && IdleInv(s) && command.Rendered()
    ensures IdleInv(Enqueue(s, serial, command, stopSeen))
  {
    ConservedIds(s.queue, s.log, |s.commands|);
    var cell := Cell(|s.commands|, serial, command, false, false, false, false);
    EnqueueOut(s.commands, Out(s), s.answered, command);
    hide Inv, OneDone, DoneIsAnswered, IdleCells, RenderTag, Command.Rendered, DoneIn, LineIn;
    if s.phase == Open {
      EnqueueIdleCells(s.commands, s.queue, Out(s), Batch(s.write), s.answered, s.spoiled, cell);
    }
  }

  lemma FewerIdleCells(commands: seq<Command>, q: seq<Cell>, ids: set<nat>, out: seq<Chunk>, batch: seq<Chunk>,
                       answered: set<nat>, spoiled: set<nat>)
    requires IdleCells(commands, q, out, batch, answered, spoiled)
    ensures IdleCells(commands, Without(q, ids), out, batch, answered, spoiled)
  {
    hide IdleCell, IsIdle;
  }

  lemma ReplacedIdleCells(commands: seq<Command>, q: seq<Cell>, c: Cell, d: Cell, out: seq<Chunk>, batch: seq<Chunk>,
                          answered: set<nat>, more: set<nat>, spoiled: set<nat>)
    requires Sorted(q) && c in q && d.id == c.id && answered <= more
    requires IdleCells(commands, q, out, batch, answered, spoiled)
    requires (Kin(commands, c) ==> Kin(commands, d)) && IdleCell(d, out, batch, more, spoiled)
    ensures IdleCells(commands, Replace(q, d), out, batch, more, spoiled)
  {
    ReplaceMembers(q, c, d);
    forall x | x in q ensures IdleCell(x, out, batch, more, spoiled) || x == c {
      assert IdleCell(x, out, batch, answered, spoiled);
    }
    hide Kin, IdleCell, Sorted;
  }

  /** An IDLE is never withdrawn, and asking it to end queues a DONE only while it idles. */
  lemma AskedIdleCell(c: Cell, out: seq<Chunk>, batch: seq<Chunk>, answered: set<nat>, spoiled: set<nat>)
    requires c.Valid() && c.command.IdleCommand? && IdleCell(c, out, batch, answered, spoiled)
    ensures !c.Unsent()
    ensures IdleCell(c.(command := c.command.DoneAsked(), stopped := true), out, batch, answered, spoiled)
  {
    hide DoneIn, LineIn;
  }

  /** Cancelling an IDLE leaves it in the queue and calls nobody. */
  lemma AskIdle(s: Core, tag: string, c: Cell)
    requires IdleInv(s) && s.phase == Open && Sorted(s.queue) && c in s.queue && c.Valid() && c.command.IdleCommand?
    ensures IdleInv(Detach(s, tag, c))
    ensures Ids(Detach(s, tag, c).queue) == Ids(s.queue) && Detach(s, tag, c).log == s.log
  {
    hide Sorted, OneDone, DoneIsAnswered, IdleCell, Cell.Unsent, Cell.Valid, Kin, Command.DoneAsked, Ids;
    AskedIdleCell(c, Out(s), Batch(s.write), s.answered, s.spoiled);
    var d := c.(command := c.command.DoneAsked(), stopped := true);
    DoneAskedIsKin(s.commands, c);
    ReplacedIdleCells(s.commands, s.queue, c, d, Out(s), Batch(s.write), s.answered, s.answered, s.spoiled);
    SameIds(s.queue, Replace(s.queue, d));
  }

  lemma DetachOther(s: Core, tag: string, c: Cell)
    requires IdleInv(s) && s.phase == Open && Sorted(s.queue) && c in s.queue && !c.command.IdleCommand?
    ensures IdleInv(Detach(s, tag, c))
  {
    hide Sorted, OneDone, DoneIsAnswered, IdleCell, IdleCells, Cell.Unsent, Cell.IsWritten, IsIdle;
    if c.Unsent() || c.IsWritten() {
      FewerIdleCells(s.commands, s.queue, {c.id}, Out(s), Batch(s.write), s.answered, s.spoiled);
    } else {
      var d := c.(detached := true);
      NotIdle(d, Out(s), Batch(s.write), s.answered, s.spoiled);
      ReplacedIdleCells(s.commands, s.queue, c, d, Out(s), Batch(s.write), s.answered, s.answered, s.spoiled);
    }
  }

  lemma DetachIdle(s: Core, tag: string, c: Cell)
    requires Inv(s) && IdleInv(s) && s.phase == Open && Sorted(s.queue) && c in s.queue
    ensures IdleInv(Detach(s, tag, c))
    ensures c.command.IdleCommand? ==> Ids(Detach(s, tag, c).queue) == Ids(s.queue) && Detach(s, tag, c).log == s.log
  {
    CellsAreValid(s.queue, Batch(s.write), |s.commands|, c);
    hide Inv, IdleInv, Sorted, Detach, Ids, Cell.Valid;
    if c.command.IdleCommand? { AskIdle(s, tag, c); } else { DetachOther(s, tag, c); }
  }

  lemma DoneAskedIsKin(commands: seq<Command>, c: Cell)
    requires c.command.IdleCommand?
    ensures Kin(commands, c) ==> Kin(commands, c.(command := c.command.DoneAsked(), stopped := true))
  {
  }

  lemma NotIdle(c: Cell, out: seq<Chunk>, batch: seq<Chunk>, answered: set<nat>, spoiled: set<nat>)
    requires !c.command.IdleCommand?
    ensures IdleCell(c, out, batch, answered, spoiled)
  {
  }

  lemma CancelIdle(s: Core, tag: string)
    requires Inv(s) && IdleInv(s)
    ensures IdleInv(Cancel(s, tag))
  {
    ConservedIds(s.queue, s.log, |s.commands|);
    if s.phase == Open && tag in s.registry {
      hide IdleInv, Detach, Sorted, Ids, Conserved, Serials, Staging, DropsAreAbandoned, Coherent, Routed, TornDown;
      var c := RegisteredCell(s.queue, s.registry, tag);
      DetachIdle(s, tag, c);
    }
  }

  /** The flush that follows a write: a DONE is sent, or overtaken by the flush of its own first line. */
  lemma FlushedIdleCell(q: seq<Cell>, c: Cell, out: seq<Chunk>, batch: seq<Chunk>, answered: set<nat>, spoiled: set<nat>)
    requires Sorted(q) && c in q && c.Valid() && (c.staged <==> c.id in BatchIds(batch))
    requires IdleCell(c, out, batch, answered, spoiled)
    ensures IdleCell(if c.id in BatchIds(batch) then c.Flush() else c, out, [], answered, spoiled + SpoiledIds(q, batch))
  {
    if c.command.IdleCommand? {
      SpoiledHere(q, c, batch);
      assert LineIn(batch, c.id) ==> c.id in BatchIds(batch);
      hide DoneIn, LineIn, SpoiledIds, BatchIds, Sorted;
    }
  }

  lemma SpoiledHere(q: seq<Cell>, c: Cell, batch: seq<Chunk>)
    requires Sorted(q) && c in q && c.command.IdleCommand?
    ensures c.id in SpoiledIds(q, batch) <==> c.command.phase == DonePending && LineIn(batch, c.id)
  {
    if c.id in SpoiledIds(q, batch) {
      var d :| d in q && d.command.IdleCommand? && d.command.phase == DonePending && d.id == c.id
               && exists ch :: ch in batch && ch.id == d.id && ch.index == 0;
      SameId(q, c, d);
    }
  }

  lemma FlushedIdleCells(commands: seq<Command>, q: seq<Cell>, out: seq<Chunk>, batch: seq<Chunk>,
                         answered: set<nat>, spoiled: set<nat>)
    requires Sorted(q) && forall c | c in q :: c.Valid() && (c.staged <==> c.id in BatchIds(batch))
    requires IdleCells(commands, q, out, batch, answered, spoiled)
    ensures IdleCells(commands, FlushAll(q, BatchIds(batch)), out, [], answered, spoiled + SpoiledIds(q, batch))
  {
    hide Sorted, BatchIds, IdleCell, IsIdle, Cell.Valid, SpoiledIds;
    forall x | x in FlushAll(q, BatchIds(batch))
      ensures Kin(commands, x)
              && IdleCell(x, out, [], answered, spoiled + SpoiledIds(q, batch))
    {
      var c := FlushedMember(q, BatchIds(batch), x);
      FlushedIdleCell(q, c, out, batch, answered, spoiled);
    }
  }

  lemma SpoiledAreQueued(q: seq<Cell>, batch: seq<Chunk>, n: nat)
    requires forall c | c in q :: c.id < n
    ensures forall id | id in SpoiledIds(q, batch) :: id < n
  {
  }

  lemma StagedCells(q: seq<Cell>, batch: seq<Chunk>, n: nat)
    requires Staging(q, batch, n)
    ensures forall c | c in q :: c.Valid() && (c.staged <==> c.id in BatchIds(batch))
  {
  }

  lemma SettleIdle(s: Core)
    requires Inv(s) && IdleInv(s) && s.phase == Open && s.write.WriteArmed?
    ensures IdleInv(Settle(s))
  {
    hide Sorted, Ids, Conserved, Serials, Staging, DropsAreAbandoned, Coherent, Routed, TornDown, OneDone, DoneIsAnswered,
         IdleCells, BatchIds, FinishedIds, SpoiledIds, Waiter, Cell.Valid;
    var q, batch := s.queue, Batch(s.write);
    var ids := BatchIds(batch);
    ConservedIds(q, s.log, |s.commands|);
    SpoiledAreQueued(q, batch, |s.commands|);
    StagedCells(q, batch, |s.commands|);
    FlushedIdleCells(s.commands, q, Out(s), batch, s.answered, s.spoiled);
    FewerIdleCells(s.commands, FlushAll(q, ids), FinishedIds(FlushAll(q, ids), ids),
                   Out(s), [], s.answered, s.spoiled + SpoiledIds(q, batch));
  }

  lemma WriteDoneIdle(s: Core, ok: bool, quiet: bool)
    requires Inv(s) && IdleInv(s) && Enabled(s, DoWriteDone(ok, quiet))
    ensures IdleInv(WriteDone(s, ok, quiet))
  {
    if ok && !quiet && s.phase == Open {
      SettleIdle(s);
    } else {
      QuietIsNotOpen(s);
      hide Inv, IdleInv, WriteDone, Down;
      WriteDoneDown(s, ok, quiet);
      DownKeepsIdle(s, WriteDone(s, ok, quiet));
    }
  }

  lemma TaggedIdle(s: Core, tag: string)
    requires Inv(s) && IdleInv(s) && s.read == Dispatching
    ensures IdleInv(TaggedReply(s, tag))
  {
    hide Sorted, Ids, Conserved, Serials, Staging, DropsAreAbandoned, Coherent, Routed, TornDown, OneDone, DoneIsAnswered,
         IdleCells, RenderTag, Fatal, Down;
    if tag in s.registry {
      if s.phase == Open {
        ConservedIds(s.queue, s.log, |s.commands|);
        var c := RegisteredCell(s.queue, s.registry, tag);
        Queued(s.queue, c);
        FewerIdleCells(s.commands, s.queue, {c.id}, Out(s), Batch(s.write), s.answered, s.spoiled);
      } else {
        TaggedIsDown(s, tag);
        DownKeepsIdle(s, TaggedReply(s, tag));
      }
    }
  }

  lemma ContinuedIdleCell(commands: seq<Command>, c: Cell, out: seq<Chunk>, batch: seq<Chunk>, answered: set<nat>, spoiled: set<nat>)
    requires c.Valid() && !Fresh(c) && c.AwaitsContinuation() && IdleCell(c, out, batch, answered, spoiled)
    ensures IdleCell(c.Continue(), out, batch, answered + {c.id}, spoiled)
    ensures Kin(commands, c) ==> Kin(commands, c.Continue())
  {
    hide DoneIn, LineIn;
  }

  lemma ContinuationIdle(s: Core)
    requires Inv(s) && IdleInv(s) && s.read == Dispatching
    ensures IdleInv(ContinuationRequest(s))
  {
    if s.phase != Open {
      hide IdleInv, Fatal, Down;
      FatalIsDown(s);
      DownKeepsIdle(s, Fatal(s));
    } else if s.target == None {
      hide IdleInv, Fatal, Down;
      FatalIsDown(s);
      DownKeepsIdle(s, Fatal(s));
    } else {
      ContinuationReaches(s);
    }
  }

  lemma ContinuationReaches(s: Core)
    requires Inv(s) && IdleInv(s) && s.read == Dispatching && s.phase == Open && s.target.Some?
    ensures IdleInv(ContinuationRequest(s))
  {
    hide Sorted, Ids, Conserved, Serials, Staging, DropsAreAbandoned, Coherent, Routed, TornDown, OneDone, DoneIsAnswered,
         IdleCell, Kin, Fresh, Cell.Valid;
    ConservedIds(s.queue, s.log, |s.commands|);
    var c := TargetCell(s.queue, s.target);
    CellsAreValid(s.queue, Batch(s.write), |s.commands|, c);
    ContinuedIdleCell(s.commands, c, Out(s), Batch(s.write), s.answered, s.spoiled);
    ContinueIdentity(c);
    hide Cell.Continue, Cell.AwaitsContinuation;
    var more := s.answered + {c.id};
    ReplacedIdleCells(s.commands, s.queue, c, c.Continue(), Out(s), Batch(s.write), s.answered, more, s.spoiled);
    OneDoneOfPrefix(s.commands, Out(s), s.answered, more, |Out(s)|);
    assert Out(s)[..|Out(s)|] == Out(s);
  }

  lemma ArmWriteIdle(s: Core)
    requires IdleInv(s) && s.write.Latched? && (s.abandoned ==> s.phase != Open)
    ensures IdleInv(ArmWrite(s))
  {
    hide IdleInv, BatchIds, Only, Without;
    if s.phase == Open {
      SameKeepsIdle(s, ArmWrite(s));
    } else {
      DownKeepsIdle(s, ArmWrite(s));
    }
  }

  lemma TeardownIdle(s: Core)
    requires IdleInv(s)
    ensures IdleInv(Close(s)) && IdleInv(Abandon(s))
    ensures s.read == Dispatching ==> IdleInv(Fatal(s))
    ensures IdleInv(LoseConnection(s)) && (s.write == Failing ==> IdleInv(FailConnection(s)))
  {
    hide IdleInv, Down, Fatal, LoseConnection, FailConnection;
    CloseIsDown(s);
    if s.phase == Open { DownKeepsIdle(s, Close(s)); }
    if s.phase != Closed { DownKeepsIdle(s, Abandon(s)); }
    FatalIsDown(s);
    if s.read == Dispatching { DownKeepsIdle(s, Fatal(s)); }
    DownKeepsIdle(s, LoseConnection(s));
    if s.write == Failing { FailureIsDown(s); DownKeepsIdle(s, FailConnection(s)); }
  }

  lemma LightStepsKeepIdle(s: Core, e: Event)
    requires IdleInv(s) && Enabled(s, e) && IsLight(e)
    ensures IdleInv(Step(s, e))
  {
    LightSteps(s, e);
    hide IdleInv, Step, Enabled;
    SameKeepsIdle(s, Step(s, e));
  }

  lemma StepKeepsIdle(s: Core, e: Event)
    requires Inv(s) && IdleInv(s) && Enabled(s, e)
    ensures IdleInv(Step(s, e))
  {
    hide Inv, IdleInv, Close, Abandon, LoseConnection, FailConnection, Fatal;
    match e
    case DoEnqueue(serial, command, stopSeen) => EnqueueIdle(s, serial, command, stopSeen);
    case DoCancel(tag) => CancelIdle(s, tag);
    case DoKick => KickIdle(s);
    case DoTagged(reply) => TaggedIdle(s, reply);
    case DoContinuation => ContinuationIdle(s);
    case DoWriteDone(ok, quiet) => WriteDoneIdle(s, ok, quiet);
    case DoArmWrite => QuietIsNotOpen(s); ArmWriteIdle(s);
    case DoClose => TeardownIdle(s);
    case DoAbandon => TeardownIdle(s);
    case DoLoseConnection => TeardownIdle(s);
    case DoFailConnection => TeardownIdle(s);
    case DoMalformed => TeardownIdle(s);
    case _ => LightStepsKeepIdle(s, e);
  }

  lemma StartIsIdleFree()
    ensures IdleInv(Start())
  {
  }

  lemma {:induction false} RunsKeepIdle(es: seq<Event>)
    requires Possible(es)
    ensures IdleInv(After(es))
  {
    hide Inv, IdleInv, Step;
    if es == [] {
      StartIsIdleFree();
    } else {
      var init := es[..|es| - 1];
      RunsKeepIdle(init);
      RunsKeep(init);
      StepKeepsIdle(After(init), es[|es| - 1]);
    }
  }
}
