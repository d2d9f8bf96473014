/**
 When the bytes of every run keep to the order of submission: exactly when each command stops
 the pump while a piece of it is left.
 */
module WireBreaks {
  import opened Commands
  import opened Engine
  import opened EngineInvariants
  import opened EngineRuns
  import opened EngineSteps
  import opened WireOrder
  import opened Wrappers

  // ---- Two cells ----------------------------------------------------------------------

  lemma DrainPair(c: Cell, d: Cell)
    ensures Drain([c, d]) == (if c.NextSegment() == "" then [] else [NextChunk(c)]) + (if IsWall(c) then [] else Drain([d]))
    ensures Drain([d]) == if d.NextSegment() == "" then [] else [NextChunk(d)]
  {
    assert [c, d][1..] == [d] && [d][1..] == [] && Drain([]) == [];
  }

  lemma StagedPair(c: Cell, d: Cell, ids: set<nat>)
    ensures FlushAll(StageAll([c, d], ids), ids) ==
            [if c.id in ids then c.Stage().Flush() else c, if d.id in ids then d.Stage().Flush() else d]
  {
  }

  lemma BatchOf(a: seq<Chunk>)
    ensures forall ch | ch in a :: ch.id in BatchIds(a)
    ensures forall id | id in BatchIds(a) :: exists ch :: ch in a && ch.id == id
  {
  }

  /** A freshly rendered command has a first piece to send. */
  lemma FirstPiece(id: nat, serial: nat, c: Command)
    requires c.Rendered()
    ensures FreshCell(id, serial, c).NextSegment() != "" && NextChunk(FreshCell(id, serial, c)).id == id
    ensures NextChunk(FreshCell(id, serial, c)).index == 0
  {
    if c.Segmented? { assert c.segs[0] in c.segs; }
  }

  // ---- Nothing stops the pump behind the first piece -----------------------------------

  /** Several pieces, all released from the start, and nothing that blocks. */
  predicate Unwalled(c: Command) {
    c.Segmented? && c.unlocked == |c.segs| >= 2 && !c.blocking
  }

  lemma SecondPiece(c: Command)
    requires c.Rendered() && Unwalled(c)
    ensures var f := FreshCell(0, 1, c);
            && !IsWall(f) && !IsWall(f.Stage().Flush())
            && f.Stage().Flush().NextSegment() != "" && NextChunk(f.Stage().Flush()) == Chunk(0, 1, c.segs[1])
  {
    assert c.segs[1] in c.segs;
  }

  lemma FirstOfTwo(c: Command, d: Command)
    requires c.Rendered() && d.Rendered() && Unwalled(c)
    ensures var q := TwoQueued(c, d).queue;
            && Drain(q) == [NextChunk(q[0]), NextChunk(q[1])]
            && Written(q) == [q[0].Stage().Flush(), q[1].Stage().Flush()]
  {
    hide RenderTag;
    var q := TwoQueued(c, d).queue;
    SecondPiece(c);
    FirstPiece(0, 1, c);
    FirstPiece(1, 2, d);
    hide IsWall, NextChunk, Cell.NextSegment, Cell.Stage, Cell.Flush, Command.Rendered, Drain, StageAll, FlushAll;
    DrainPair(q[0], q[1]);
    var batch := [NextChunk(q[0]), NextChunk(q[1])];
    assert batch[0] in batch && batch[1] in batch;
    BatchOf(batch);
    StagedPair(q[0], q[1], BatchIds(batch));
  }

  ghost predicate Interrupted(wire: seq<Chunk>) {
    |wire| >= 3 && wire[0].id == 0 && wire[1].id == 1 && wire[2].id == 0
  }

  lemma InterruptedIsNoChain(wire: seq<Chunk>)
    requires Interrupted(wire)
    ensures !Chain(wire)
  {
    assert !Follows(wire[2 - 1], wire[2]);
  }

  /**
   Pieces that are all released from the start, as with LITERAL+, are split by any later
   command: the pump stages one piece of each operation in a batch.
   */
  lemma PlusIsSplit(c: Command, d: Command) returns (es: seq<Event>)
    requires c.Rendered() && d.Rendered() && Unwalled(c)
    ensures Possible(es) && After(es).phase == Open && After(es).commands == [c, d]
    ensures Interrupted(After(es).wire) && After(es).wire[2] == Chunk(0, 1, c.segs[1])
    ensures es == [DoAllocateTag, DoEnqueue(1, c, false), DoAllocateTag, DoEnqueue(2, d, false)]
                  + WriteEvents() + [DoKick, DoArmWrite]
  {
    hide RenderTag, After, Possible, Drain, Written, Command.Rendered, Rerouted;
    var subs := SubmitTwo(c, d);
    var q := TwoQueued(c, d).queue;
    FirstOfTwo(c, d);
    FirstPiece(0, 1, c);
    FirstPiece(1, 2, d);
    WriteOne(subs);
    var once := subs + WriteEvents();
    SecondPiece(c);
    hide IsWall, NextChunk, Cell.NextSegment, Cell.Stage, Cell.Flush;
    DrainPair(q[0].Stage().Flush(), q[1].Stage().Flush());
    HandOver(once);
    es := once + [DoKick, DoArmWrite];
  }

  // ---- IDLE ------------------------------------------------------------------------------

  /** IDLE as it is rendered when nobody asked it to end yet. */
  function FreshIdle(line: string): Command {
    IdleCommand(IdleSent, line, true, false)
  }

  function FirstIdle(command: Command, stopped: bool): Cell {
    Cell(0, 1, command, false, true, false, stopped)
  }

  /** The line goes out alone. */
  lemma LineOfTwo(line: string, d: Command)
    requires line != ""
    ensures var q := TwoQueued(FreshIdle(line), d).queue;
            && Drain(q) == [Chunk(0, 0, line)]
            && Written(q) == [FirstIdle(IdleCommand(IdleSent, line, false, false), false), FreshCell(1, 2, d)]
            && Waiter(q, Drain(q)) == Some(0) && Rerouted(Written(q), Drain(q), Some(0)) == Some(0)
  {
    hide RenderTag;
    var q := TwoQueued(FreshIdle(line), d).queue;
    DrainPair(q[0], q[1]);
    var batch := [Chunk(0, 0, line)];
    assert batch[0] in batch;
    BatchOf(batch);
    StagedPair(q[0], q[1], BatchIds(batch));
    assert batch[..0] == [];
    assert Lookup(q, 0) == Some(q[0]);
  }

  /** Once idling it is no wall, and the next command passes. */
  lemma OtherPasses(line: string, d: Command)
    requires d.Rendered()
    ensures var q := [FirstIdle(IdleCommand(Idling, line, false, false), false), FreshCell(1, 2, d)];
            && Drain(q) == [NextChunk(q[1])] && NextChunk(q[1]).id == 1
            && Written(q) == [q[0], q[1].Stage().Flush()]
  {
    var q := [FirstIdle(IdleCommand(Idling, line, false, false), false), FreshCell(1, 2, d)];
    assert q[0].NextSegment() == "" && !IsWall(q[0]);
    FirstPiece(1, 2, d);
    hide IsWall, NextChunk, Cell.NextSegment, Cell.Stage, Cell.Flush, Command.Rendered, Drain, StageAll, FlushAll;
    DrainPair(q[0], q[1]);
    var batch := [NextChunk(q[1])];
    assert batch[0] in batch;
    BatchOf(batch);
    StagedPair(q[0], q[1], BatchIds(batch));
  }

  lemma DoneIsNext(d: Cell)
    ensures var c := FirstIdle(IdleCommand(DonePending, DONE_LINE, true, true), true);
            Drain([c, d]) == [Chunk(0, 1, DONE_LINE)] + Drain([d])
  {
    DrainPair(FirstIdle(IdleCommand(DonePending, DONE_LINE, true, true), true), d);
  }

  /** The server accepts: the idle cell is resumed. */
  lemma Accepted(s: Core, line: string, d: Cell)
    requires s.read == Dispatching && s.target == Some(0) && d.id == 1
    requires s.queue == [FirstIdle(IdleCommand(IdleSent, line, false, false), false), d]
    ensures ContinuationRequest(s) ==
            s.(target := None, answered := s.answered + {0}, queue := [FirstIdle(IdleCommand(Idling, line, false, false), false), d])
  {
    var c := s.queue[0];
    assert Lookup(s.queue, 0) == Some(c);
    assert Replace(s.queue, c.Continue()) == [c.Continue(), d];
  }

  /** Cancelling asks it to end. */
  lemma AskedToEnd(s: Core, line: string, d: Cell)
    requires s.phase == Open && RenderTag(1) in s.registry && s.registry[RenderTag(1)] == 0 && d.id == 1
    requires s.queue == [FirstIdle(IdleCommand(Idling, line, false, false), false), d]
    ensures Cancel(s, RenderTag(1)) == s.(queue := [FirstIdle(IdleCommand(DonePending, DONE_LINE, true, true), true), d])
  {
    hide RenderTag;
    var c := s.queue[0];
    assert Lookup(s.queue, 0) == Some(c);
    var asked := c.(command := c.command.DoneAsked(), stopped := true);
    assert Replace(s.queue, asked) == [asked, d];
  }

  /** Up to the point where the IDLE is idling and the other command still waits. */
  lemma IdlingInFront(line: string, d: Command) returns (es: seq<Event>)
    requires line != "" && d.Rendered()
    ensures Possible(es) && Around(es, FreshIdle(line), d)
    ensures var s := After(es);
            && Ready(s) && s.wire == [Chunk(0, 0, line)] && s.commands == [FreshIdle(line), d]
            && s.registry == map[RenderTag(1) := 0, RenderTag(2) := 1]
            && s.queue == [FirstIdle(IdleCommand(Idling, line, false, false), false), FreshCell(1, 2, d)]
  {
    hide RenderTag, After, Drain, Written, Command.Rendered, Waiter, Around, Possible;
    var c := FreshIdle(line);
    RenderedIdle(line);
    var subs := SubmitTwo(c, d);
    SubmissionsAround(c, d, subs);
    LineOfTwo(line, d);
    WriteOne(subs);
    var sent := subs + WriteEvents();
    WritesAround(subs, c, d);
    assert After(sent).target == Some(0);
    Extend(sent, DoReadDone);
    var read := sent + [DoReadDone];
    MoreAround(sent, DoReadDone, c, d);
    Accepted(After(read), line, FreshCell(1, 2, d));
    assert Solicited(After(read)) by { LineWaits(After(read), line, FreshCell(1, 2, d)); }
    Extend(read, DoContinuation);
    MoreAround(read, DoContinuation, c, d);
    es := read + [DoContinuation];
  }

  lemma RenderedIdle(line: string)
    requires line != ""
    ensures FreshIdle(line).Rendered()
  {
  }

  lemma LineWaits(s: Core, line: string, d: Cell)
    requires s.write == Idle && s.queue == [FirstIdle(IdleCommand(IdleSent, line, false, false), false), d]
    ensures Solicited(s)
  {
    assert s.queue[0] in s.queue && LineOut(s.queue[0]);
  }

  /**
   While an IDLE is idling, a later command passes it, and the DONE of the IDLE follows that
   command.
   */
  lemma IdleIsSplit(line: string, d: Command) returns (es: seq<Event>)
    requires line != "" && d.Rendered()
    ensures Possible(es) && Around(es, FreshIdle(line), d)
    ensures After(es).phase == Open && After(es).commands == [FreshIdle(line), d]
    ensures Interrupted(After(es).wire) && After(es).wire[2] == Chunk(0, 1, DONE_LINE)
  {
    TagsDiffer();
    hide RenderTag, After, Drain, Written, Command.Rendered, Around, Possible, NextChunk, Cell.Stage, Cell.Flush;
    var c := FreshIdle(line);
    var front := IdlingInFront(line, d);
    OtherPasses(line, d);
    WriteOne(front);
    WritesAround(front, c, d);
    var passed := front + WriteEvents();
    var other := FreshCell(1, 2, d).Stage().Flush();
    assert other.id == 1 by { FlushedId(FreshCell(1, 2, d)); }
    AskedToEnd(After(passed), line, other);
    Extend(passed, DoCancel(RenderTag(1)));
    MoreAround(passed, DoCancel(RenderTag(1)), c, d);
    var asked := passed + [DoCancel(RenderTag(1))];
    assert Ready(After(asked));
    DoneIsNext(other);
    HandOver(asked);
    HandOversAround(asked, c, d);
    es := asked + [DoKick, DoArmWrite];
  }

  // ---- An IDLE that is asked to end before it is submitted ---------------------------------

  function AskedIdle(phase: IdlePhase, segment: string, pending: bool): Command {
    IdleCommand(phase, segment, pending, true)
  }

  function InFlight(command: Command): Cell {
    Cell(0, 1, command, true, false, false, false)
  }

  lemma LineOfAsked(line: string, d: Command)
    requires line != ""
    ensures var q := TwoQueued(AskedIdle(IdleSent, line, true), d).queue;
            && Drain(q) == [Chunk(0, 0, line)] && Rerouted(q, Drain(q), None) == Some(0)
            && StageAll(q, BatchIds(Drain(q))) == [InFlight(AskedIdle(IdleSent, line, true)), FreshCell(1, 2, d)]
  {
    hide RenderTag;
    var q := TwoQueued(AskedIdle(IdleSent, line, true), d).queue;
    DrainPair(q[0], q[1]);
    var batch := [Chunk(0, 0, line)];
    assert batch[0] in batch;
    BatchOf(batch);
    assert Lookup(q, 0) == Some(q[0]);
    assert q[1..] == [q[1]] && q[1..][1..] == [];
  }

  /** The continuation request overtakes the completion of the write, and queues DONE in a staged cell. */
  lemma AskedAccepted(s: Core, line: string, d: Cell)
    requires s.read == Dispatching && s.target == Some(0) && d.id == 1
    requires s.queue == [InFlight(AskedIdle(IdleSent, line, true)), d]
    ensures ContinuationRequest(s) ==
            s.(target := None, answered := s.answered + {0}, queue := [InFlight(AskedIdle(DonePending, DONE_LINE, true)), d])
  {
    var c := s.queue[0];
    assert Lookup(s.queue, 0) == Some(c);
    assert Replace(s.queue, c.Continue()) == [c.Continue(), d];
  }

  /** The completion then takes the queued DONE for the line, and the next command passes. */
  lemma DoneIsSkipped(d: Command)
    requires d.Rendered()
    ensures var q := FlushAll([InFlight(AskedIdle(DonePending, DONE_LINE, true)), FreshCell(1, 2, d)], {0});
            Drain(q) == [NextChunk(FreshCell(1, 2, d))] && NextChunk(FreshCell(1, 2, d)).id == 1
  {
    var c := InFlight(AskedIdle(DonePending, DONE_LINE, true));
    var e := FreshCell(1, 2, d);
    FirstPiece(1, 2, d);
    var q := FlushAll([c, e], {0});
    assert [c, e][1..] == [e] && [e][1..] == [];
    assert q == [c.Flush(), e];
    DrainPair(c.Flush(), e);
    hide IsWall, NextChunk, Cell.Flush, Command.Rendered, Drain, FlushAll;
  }

  /** Up to the point where the request is handled while the line is still being written. */
  lemma AskedInFlight(line: string, d: Command) returns (es: seq<Event>)
    requires line != "" && d.Rendered()
    ensures Possible(es) && Around(es, AskedIdle(IdleSent, line, true), d)
    ensures var s := After(es);
            && s.phase == Open && !s.abandoned && s.write == WriteArmed([Chunk(0, 0, line)])
            && s.wire == [Chunk(0, 0, line)] && s.commands == [AskedIdle(IdleSent, line, true), d] && s.replied == {}
            && s.queue == [InFlight(AskedIdle(DonePending, DONE_LINE, true)), FreshCell(1, 2, d)]
  {
    hide RenderTag, After, Drain, Rerouted, StageAll, BatchIds, Command.Rendered, Around, Possible;
    var c := AskedIdle(IdleSent, line, true);
    RenderedAsked(line);
    var subs := SubmitTwo(c, d);
    SubmissionsAround(c, d, subs);
    LineOfAsked(line, d);
    StageReady(subs);
    HandOversAround(subs, c, d);
    var sent := subs + [DoKick, DoArmWrite];
    Extend(sent, DoReadDone);
    var read := sent + [DoReadDone];
    MoreAround(sent, DoReadDone, c, d);
    AskedAccepted(After(read), line, FreshCell(1, 2, d));
    assert Solicited(After(read)) by { LineIsArmed(After(read), line, FreshCell(1, 2, d)); }
    Extend(read, DoContinuation);
    MoreAround(read, DoContinuation, c, d);
    es := read + [DoContinuation];
  }

  lemma RenderedAsked(line: string)
    requires line != ""
    ensures AskedIdle(IdleSent, line, true).Rendered()
  {
  }

  lemma LineIsArmed(s: Core, line: string, d: Cell)
    requires s.write.WriteArmed? && s.queue == [InFlight(AskedIdle(IdleSent, line, true)), d]
    ensures Solicited(s)
  {
    assert s.queue[0] in s.queue && LineOut(s.queue[0]);
  }

  lemma OneChunkIds(ch: Chunk)
    ensures BatchIds([ch]) == {ch.id}
  {
    assert [ch][0] in [ch];
    BatchOf([ch]);
  }

  /**
   An IDLE asked to end before its line is out loses its DONE when the server is faster than
   the completion of the write, and the next command follows a half-sent IDLE.
   */
  lemma AskedIdleIsCut(line: string, d: Command) returns (es: seq<Event>)
    requires line != "" && d.Rendered()
    ensures Possible(es) && Around(es, AskedIdle(IdleSent, line, true), d)
    ensures After(es).phase == Open && After(es).commands == [AskedIdle(IdleSent, line, true), d]
    ensures CutShort(After(es))
  {
    hide RenderTag, After, Drain, FlushAll, BatchIds, Rerouted, WriteDone, Command.Rendered, Around, Possible, NextChunk;
    var c := AskedIdle(IdleSent, line, true);
    var flying := AskedInFlight(line, d);
    var s := After(flying);
    NobodyDetached(s.queue, {0});
    OneChunkIds(Chunk(0, 0, line));
    SettleReady(s);
    Extend(flying, DoWriteDone(true, false));
    MoreAround(flying, DoWriteDone(true, false), c, d);
    var settled := flying + [DoWriteDone(true, false)];
    DoneIsSkipped(d);
    HandOver(settled);
    HandOversAround(settled, c, d);
    es := settled + [DoKick, DoArmWrite];
  }

  /** One piece of two, then another command. */
  ghost predicate CutShort(s: Core) {
    && |s.wire| == 2 && s.wire[0].id == 0 && s.wire[1].id == 1 && s.replied == {}
    && |s.commands| == 2 && |s.commands[0].Pieces()| == 2
  }

  lemma CutIsNotInOrder(s: Core)
    requires CutShort(s)
    ensures !InOrder(s)
  {
    assert s.wire[..1][..0] == [];
    assert Count(s.wire, 0) == Count(s.wire[..1], 0) == 1;
  }

  lemma FlushedId(c: Cell)
    ensures c.Stage().Flush().id == c.id && c.Stage().Flush().detached == c.detached
  {
  }

  // ---- Runs around a command ---------------------------------------------------------------

  /** Apart from `c` and `d` only commands that keep the order are submitted, and only solicited continuations arrive. */
  ghost predicate Around(es: seq<Event>, c: Command, d: Command)
    requires Possible(es)
  {
    es == [] ||
    var init, e := es[..|es| - 1], es[|es| - 1];
    && Around(init, c, d)
    && (e.DoEnqueue? ==> KeepsOrder(e.command) || e.command == c || e.command == d)
    && (e.DoContinuation? ==> Solicited(After(init)))
  }

  lemma MoreAround(es: seq<Event>, e: Event, c: Command, d: Command)
    requires Possible(es) && Enabled(After(es), e) && Around(es, c, d)
    requires e.DoEnqueue? ==> KeepsOrder(e.command) || e.command == c || e.command == d
    requires e.DoContinuation? ==> Solicited(After(es))
    ensures Possible(es + [e]) && Around(es + [e], c, d)
  {
    Extend(es, e);
    assert (es + [e])[..|es|] == es;
    hide Solicited, KeepsOrder, After, Possible;
  }

  /** Neither a submission nor a continuation: the run stays around. */
  lemma {:induction false} PlainAround(es: seq<Event>, more: seq<Event>, c: Command, d: Command)
    requires Possible(es) && Possible(es + more) && Around(es, c, d)
    requires forall e | e in more :: !e.DoContinuation? && (e.DoEnqueue? ==> e.command == c || e.command == d)
    ensures Around(es + more, c, d)
  {
    hide Solicited, KeepsOrder, After;
    if more == [] {
      assert es + more == es;
    } else {
      var init := more[..|more| - 1];
      assert (es + more)[..|es + more| - 1] == es + init;
      PlainAround(es, init, c, d);
    }
  }

  lemma NothingAround(c: Command, d: Command)
    ensures Possible([]) && Around([], c, d)
  {
  }

  lemma SubmissionsAround(c: Command, d: Command, subs: seq<Event>)
    requires Possible(subs) && subs == [DoAllocateTag, DoEnqueue(1, c, false), DoAllocateTag, DoEnqueue(2, d, false)]
    ensures Around(subs, c, d)
  {
    NothingAround(c, d);
    assert [] + subs == subs;
    PlainAround([], subs, c, d);
  }

  lemma WritesAround(es: seq<Event>, c: Command, d: Command)
    requires Possible(es) && Possible(es + WriteEvents()) && Around(es, c, d)
    ensures Around(es + WriteEvents(), c, d)
  {
    PlainAround(es, WriteEvents(), c, d);
  }

  lemma HandOversAround(es: seq<Event>, c: Command, d: Command)
    requires Possible(es) && Possible(es + [DoKick, DoArmWrite]) && Around(es, c, d)
    ensures Around(es + [DoKick, DoArmWrite], c, d)
  {
    PlainAround(es, [DoKick, DoArmWrite], c, d);
  }

  lemma {:induction false} AroundIsDisciplined(es: seq<Event>, c: Command)
    requires Possible(es) && Around(es, c, c) && KeepsOrder(c)
    ensures Disciplined(es)
  {
    hide KeepsOrder, Solicited, After;
    if es != [] {
      AroundIsDisciplined(es[..|es| - 1], c);
    }
  }

  lemma {:induction false} AroundOne(es: seq<Event>, c: Command, d: Command)
    requires Possible(es) && Around(es, c, d) && KeepsOrder(d)
    ensures Around(es, c, c)
  {
    hide KeepsOrder, Solicited, After;
    if es != [] {
      AroundOne(es[..|es| - 1], c, d);
    }
  }

  // ---- Exactly when ----------------------------------------------------------------------------

  /** Every run in which all other commands keep the order is in order. */
  ghost predicate AlwaysInOrder(c: Command) {
    forall es: seq<Event> | Possible(es) :: Around(es, c, c) ==> InOrder(After(es))
  }

  function Single(): Command {
    Segmented(["b"], 0, 1, false, {})
  }

  lemma SingleKeeps()
    ensures Single().Rendered() && KeepsOrder(Single())
  {
  }

  /**
   A command is in order on the wire in every run if and only if it keeps the order: it is
   segmented, and while a piece of it is left it waits for the server or blocks the pipeline.
   */
  lemma InOrderExactly(c: Command)
    requires c.Rendered()
    ensures AlwaysInOrder(c) <==> KeepsOrder(c)
  {
    if KeepsOrder(c) {
      forall es: seq<Event> | Possible(es) && Around(es, c, c) ensures InOrder(After(es)) {
        AroundIsDisciplined(es, c);
        WireIsInOrder(es);
      }
      hide InOrder, After, Possible, Around;
    } else {
      var es := Counterexample(c);
      hide Possible, After, Around, InOrder;
    }
  }

  lemma Counterexample(c: Command) returns (es: seq<Event>)
    requires c.Rendered() && !KeepsOrder(c)
    ensures Possible(es) && Around(es, c, c) && !InOrder(After(es))
  {
    var d := Single();
    SingleKeeps();
    if c.Segmented? {
      SplitIsUnwalled(c);
      es := PlusIsSplit(c, d);
      SplitAround(c, d, es);
    } else if c.doneRequested {
      assert c == AskedIdle(IdleSent, c.segment, true);
      es := AskedIdleIsCut(c.segment, d);
      CutIsNotInOrder(After(es));
    } else {
      assert c == FreshIdle(c.segment);
      es := IdleIsSplit(c.segment, d);
    }
    hide Possible, After, Around, Command.Rendered, KeepsOrder, InOrder, CutShort;
    AroundOne(es, c, d);
    if Interrupted(After(es).wire) {
      NotInOrder(After(es));
    }
  }

  lemma NotInOrder(s: Core)
    requires Interrupted(s.wire)
    ensures !InOrder(s)
  {
    InterruptedIsNoChain(s.wire);
  }

  lemma SplitIsUnwalled(c: Command)
    requires c.Rendered() && c.Segmented? && !KeepsOrder(c)
    ensures Unwalled(c)
  {
  }

  lemma SplitAround(c: Command, d: Command, es: seq<Event>)
    requires Possible(es)
    requires es == [DoAllocateTag, DoEnqueue(1, c, false), DoAllocateTag, DoEnqueue(2, d, false)]
                   + WriteEvents() + [DoKick, DoArmWrite]
    ensures Around(es, c, d)
  {
    NothingAround(c, d);
    assert [] + es == es;
    PlainAround([], es, c, d);
  }
}
