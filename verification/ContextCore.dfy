/**
 The shared state of a connection (context_core) with the sections of its write and
 read pump, each proved to be the step of the transition system it stands for.
 */
module ContextCores {
  import opened Commands
  import opened Engine
  import opened EngineInvariants
  import opened EngineSteps
  import opened EngineTheorems
  import opened PumpLoops
  import opened QueueAlgebra
  import opened WireOrder
  import opened Wrappers

  /** Teardown, statement by statement. */
  lemma LossInSteps(s: Core)
    ensures s.phase != Closed ==>
              var u := s.(phase := Draining, registry := map[], target := None);
              var v := u.(lost := true);
              Engine.ConnectionLost(s) == Engine.MaybeFinishClose(Take(v, UnstagedIds(v.queue), Failed))
    ensures s.phase != Closed ==>
              var u := s.(phase := Draining, registry := map[], target := None);
              var v := u.(abandoned := true);
              Engine.Abandon(s) == Engine.MaybeFinishClose(Take(v, UnstagedIds(v.queue), Dropped))
  {
    hide Without, Only, Endings, UnstagedIds, Engine.MaybeFinishClose;
  }

  /** The buffer and the staged list are those of the batch in flight; what was sent is what was handed over. */
  ghost predicate Buffered(writeInFlight: bool, staging: string, staged: seq<nat>, batch: seq<Chunk>,
                           sent: string, wire: seq<Chunk>)
  {
    && (writeInFlight ==> staging == Bytes(batch) && staged == Owners(batch) && Ascending(batch))
    && sent == Bytes(wire)
  }

  function Tags(q: seq<Cell>): set<string> {
    set c | c in q :: c.Tag()
  }

  lemma CloseInSteps(s: Core)
    ensures s.phase == Open ==>
              var ids := UnwrittenIds(s.queue);
              var u := s.(phase := Draining, target := None);
              var v := u.(queue := Without(s.queue, ids));
              var w := v.(registry := v.registry - Tags(Only(s.queue, ids)));
              var x := w.(log := w.log + Endings(Only(s.queue, ids), Failed));
              Engine.Close(s) == Engine.MaybeFinishClose(x)
  {
    hide Without, Only, Endings, UnwrittenIds, Engine.MaybeFinishClose, RenderTag;
  }

  /**
   Cells are named by identity, as the code names them by address: `registry`, `target`
   and `staged` hold identities of cells that `queue` owns.
   */
  class ContextCore {
    var phase: Phase
    var abandoned: bool
    var suspended: bool
    var bye: bool
    var counter: nat
    var queue: seq<Cell>
    var registry: map<string, nat>
    var target: Option<nat>
    /** The bytes of the write in progress and the cells they came from, in order. */
    var staging: string
    var staged: seq<nat>
    var writeInFlight: bool
    /** How far the write has come: handed to the transport, or failed and not yet on to `connection_lost`. */
    var armed: bool
    var failing: bool
    var kickPosted: bool
    /** `read_running_`, together with how far the read completion has come. */
    var read: ReadState
    /** Effects: terminal calls into user code, bytes handed to the transport, data lines given to commands. */
    var log: seq<Terminal>
    var sent: string
    var absorbed: seq<Absorbed>

    // History, as in the transition system.
    ghost var batch: seq<Chunk>
    ghost var minted: set<nat>
    ghost var commands: seq<Command>
    ghost var wire: seq<Chunk>
    ghost var replied: set<nat>
    ghost var answered: set<nat>
    ghost var spoiled: set<nat>
    ghost var lost: bool

    ghost function Write(): WriteState
      reads this
    {
      if writeInFlight then (if armed then WriteArmed(batch) else Latched(batch)) else if failing then Failing else Idle
    }

    ghost function View(): Core
      reads this
    {
      Core(phase, abandoned, suspended, bye, counter, minted, queue, registry, target, Write(), kickPosted, read,
           commands, log, wire, absorbed, replied, answered, spoiled, lost)
    }

    /** A reachable kind of state, whose staging buffer holds the bytes of the write in progress. */
    ghost predicate Valid()
      reads this
    {
      Inv(View()) && Buffered(writeInFlight, staging, staged, batch, sent, wire)
    }

    constructor ()
      ensures Valid() && View() == Start()
    {
      phase, abandoned, suspended, bye, counter := Open, false, false, false, 1;
      queue, registry, target, staging, staged := [], map[], None, "", [];
      writeInFlight, armed, failing, kickPosted, read := false, false, false, false, ReadArmed;
      batch, minted, commands, log, wire, absorbed, sent := [], {}, [], [], [], [], "";
      replied, answered, spoiled, lost := {}, {}, {}, false;
      new;
      StartHolds();
    }

    // ---- Teardown -----------------------------------------------------------

    method MaybeFinishClose()
      modifies this`phase
      ensures View() == Engine.MaybeFinishClose(old(View()))
    {
      if phase == Draining && NotReading(read) && !writeInFlight {
        phase := Closed;
      }
    }

    /** Splices every queued cell satisfying `pred` out of the queue. */
    method TakeCells(pred: Cell -> bool) returns (taken: seq<Cell>)
      requires Sorted(queue)
      modifies this`queue
      ensures taken == Only(old(queue), Satisfying(old(queue), pred))
      ensures View() == old(View()).(queue := Without(old(queue), Satisfying(old(queue), pred)))
    {
      queue, taken := Partition(queue, pred);
    }

    /** The terminal calls, outside the lock. */
    method Tell(cells: seq<Cell>, ending: Ending)
      modifies this`log
      ensures View() == old(View()).(log := old(log) + Endings(cells, ending))
    {
      for i := 0 to |cells|
        invariant log == old(log) + Endings(cells[..i], ending)
      {
        log := log + [Terminal(cells[i].id, ending)];
        assert Endings(cells[..i + 1], ending) == Endings(cells[..i], ending) + [Terminal(cells[i].id, ending)];
      }
      assert cells[..|cells|] == cells;
    }

    /** What every fatal teardown does first: stop submissions and drop the routes. */
    method Unroute()
      modifies this`phase, this`registry, this`target
      ensures View() == old(View()).(phase := Draining, registry := map[], target := None)
    {
      phase := Draining;
      registry := map[];
      target := None;
    }

    method NoteLoss()
      modifies this`lost
      ensures View() == old(View()).(lost := true)
    {
      lost := true;
    }

    /** Takes every cell the write in progress does not hold, and makes its terminal call. */
    method TakeUnstaged(ending: Ending)
      requires Sorted(queue)
      modifies this`queue, this`log
      ensures View() == Take(old(View()), UnstagedIds(old(queue)), ending)
    {
      var unstaged := (c: Cell) => !c.staged;
      assert Satisfying(queue, unstaged) == UnstagedIds(queue);
      assert old(View()).queue == queue && old(View()).log == log;
      hide View, Satisfying, UnstagedIds, Without, Only, Endings, Sorted;
      var taken := TakeCells(unstaged);
      Tell(taken, ending);
    }

    /** `connection_lost`. */
    method ConnectionLost()
      requires Sorted(queue)
      modifies this`phase, this`queue, this`registry, this`target, this`lost, this`log
      ensures View() == Engine.ConnectionLost(old(View()))
    {
      hide Sorted, Take, UnstagedIds, Engine.MaybeFinishClose;
      if phase == Closed {
        return;
      }
      LossInSteps(View());
      hide View, Engine.ConnectionLost;
      Unroute();
      NoteLoss();
      TakeUnstaged(Failed);
      MaybeFinishClose();
    }

    /** Forgets the tags of taken cells. */
    method Deregister(cells: seq<Cell>)
      modifies this`registry
      ensures View() == old(View()).(registry := old(registry) - Tags(cells))
    {
      hide RenderTag;
      for i := 0 to |cells|
        invariant registry == old(registry) - Tags(cells[..i])
      {
        registry := registry - {cells[i].Tag()};
        assert cells[..i + 1] == cells[..i] + [cells[i]];
        assert Tags(cells[..i + 1]) == Tags(cells[..i]) + {cells[i].Tag()};
      }
      assert cells[..|cells|] == cells;
    }

    /** Stops submissions and the continuation route; the registry is kept for written commands. */
    method StopSubmissions()
      modifies this`phase, this`target
      ensures View() == old(View()).(phase := Draining, target := None)
    {
      phase := Draining;
      target := None;
    }

    method CloseOpen()
      requires Sorted(queue) && phase == Open
      modifies this`phase, this`target, this`queue, this`registry, this`log
      ensures View() == Engine.Close(old(View()))
    {
      CloseInSteps(View());
      var unwritten := (c: Cell) => !c.IsWritten() && !c.staged;
      assert Satisfying(queue, unwritten) == UnwrittenIds(queue);
      ghost var s := View();
      assert s.queue == queue && s.registry == registry && s.log == log;
      hide View, Satisfying, UnwrittenIds, Without, Only, Endings, Engine.MaybeFinishClose, Engine.Close, Tags, Sorted;
      StopSubmissions();
      var taken := TakeCells(unwritten);
      Deregister(taken);
      Tell(taken, Failed);
      MaybeFinishClose();
    }

    /** `close`. */
    method Close()
      requires Valid()
      modifies this
      ensures Valid() && View() == Engine.Close(old(View()))
    {
      hide Inv, Sorted, Conserved, Staging, Coherent, Routed, Buffered;
      CloseKeeps(View());
      Parts(View());
      if phase == Open {
        CloseOpen();
      }
    }

    method NoteAbandonment()
      modifies this`abandoned
      ensures View() == old(View()).(abandoned := true)
    {
      abandoned := true;
    }

    method AbandonLive()
      requires Sorted(queue) && phase != Closed
      modifies this`phase, this`target, this`abandoned, this`queue, this`registry, this`log
      ensures View() == Engine.Abandon(old(View()))
    {
      LossInSteps(View());
      assert View().queue == queue;
      hide View, Engine.Abandon, Sorted, Take, UnstagedIds, Engine.MaybeFinishClose;
      Unroute();
      NoteAbandonment();
      TakeUnstaged(Dropped);
      MaybeFinishClose();
    }

    /** `abandon`: handlers are dropped, not invoked. */
    method Abandon()
      requires Valid()
      modifies this
      ensures Valid() && View() == Engine.Abandon(old(View()))
    {
      hide Inv, Sorted, Conserved, Staging, Coherent, Routed, Buffered;
      AbandonKeeps(View());
      Parts(View());
      if phase != Closed {
        AbandonLive();
      }
    }

    // ---- Submission and cancellation ------------------------------------------

    method AllocateTag() returns (tag: string)
      requires Valid()
      modifies this`counter, this`minted
      ensures Valid() && View() == Engine.AllocateTag(old(View())) && tag == RenderTag(old(counter))
    {
      hide Inv, Buffered, RenderTag;
      AllocateTagKeeps(View());
      tag := RenderTag(counter);
      minted := minted + {counter};
      counter := counter + 1;
    }

    method NoteSubmission(serial: nat, command: Command)
      modifies this`minted, this`commands
      ensures View() == old(View()).(minted := old(minted) - {serial}, commands := old(commands) + [command])
    {
      minted, commands := minted - {serial}, commands + [command];
    }

    /** Queue first, registry second. */
    method Push(cell: Cell)
      modifies this`queue, this`registry
      ensures View() == old(View()).(queue := old(queue) + [cell], registry := Emplace(old(registry), cell.Tag(), cell.id))
    {
      hide RenderTag;
      queue := queue + [cell];
      if cell.Tag() !in registry {
        registry := registry[cell.Tag() := cell.id];
      }
    }

    /** Takes the cell just queued out again: its stop request came before it was registered. */
    method Unpush(cell: Cell)
      requires Sorted(queue) && queue != [] && queue[|queue| - 1] == cell
      modifies this`queue, this`registry
      ensures View() == old(View()).(queue := old(queue)[..|old(queue)| - 1], registry := old(registry) - {cell.Tag()})
    {
      hide RenderTag, Sorted, Without, Lookup, Only;
      PopLast(queue);
      var rest, _ := Extract(queue, cell.id);
      queue := rest;
      registry := registry - {cell.Tag()};
    }

    method Call(id: nat, ending: Ending)
      modifies this`log
      ensures View() == old(View()).(log := old(log) + [Terminal(id, ending)])
    {
      log := log + [Terminal(id, ending)];
    }

    method EnqueueOpen(cell: Cell, stopSeen: bool)
      requires phase == Open && Sorted(queue + [cell]) && cell.id == |commands|
      requires cell == Cell(cell.id, cell.serial, cell.command, false, false, false, false)
      modifies this`minted, this`commands, this`queue, this`registry, this`log
      ensures View() == Engine.Enqueue(old(View()), cell.serial, cell.command, stopSeen)
    {
      EnqueueInSteps(View(), cell, stopSeen);
      ghost var s := View();
      assert s.queue == queue && s.registry == registry && s.log == log && s.minted == minted && s.commands == commands;
      hide View, Engine.Enqueue, Sorted, RenderTag, Emplace;
      NoteSubmission(cell.serial, cell.command);
      Push(cell);
      if stopSeen {
        Unpush(cell);
        Call(cell.id, Stopped);
      }
    }

    method EnqueueLate(cell: Cell, stopSeen: bool)
      requires phase != Open && cell.id == |commands|
      requires cell == Cell(cell.id, cell.serial, cell.command, false, false, false, false)
      modifies this`minted, this`commands, this`log
      ensures View() == Engine.Enqueue(old(View()), cell.serial, cell.command, stopSeen)
    {
      EnqueueInSteps(View(), cell, stopSeen);
      ghost var s := View();
      assert s.log == log && s.minted == minted && s.commands == commands;
      hide View, Engine.Enqueue, RenderTag, Emplace;
      NoteSubmission(cell.serial, cell.command);
      Call(cell.id, Failed);
    }

    /** `enqueue_operation`; the kick it may post is a step of its own. */
    method EnqueueOperation(id: nat, serial: nat, command: Command, stopSeen: bool)
      requires Valid() && id == |commands| && serial in minted && command.Rendered()
      modifies this
      ensures Valid() && View() == Engine.Enqueue(old(View()), serial, command, stopSeen)
    {
      hide Inv, Sorted, Conserved, Staging, Coherent, Routed, Buffered, Command.Rendered, Engine.Enqueue;
      EnqueueKeeps(View(), serial, command, stopSeen);
      Parts(View());
      var cell := Cell(id, serial, command, false, false, false, false);
      if phase == Open {
        SortedPush(queue, cell);
        EnqueueOpen(cell, stopSeen);
      } else {
        EnqueueLate(cell, stopSeen);
      }
    }

    /** `extract_from_queue_locked`. */
    method Splice(id: nat) returns (cell: Option<Cell>)
      requires Sorted(queue)
      modifies this`queue
      ensures View() == old(View()).(queue := Without(old(queue), {id})) && cell == Lookup(old(queue), id) && Sorted(queue)
    {
      hide Sorted, Without, Lookup, Only;
      WithoutKeepsOrder(queue, {id});
      var rest;
      rest, cell := Extract(queue, id);
      queue := rest;
    }

    method Forget(tag: string)
      modifies this`registry
      ensures View() == old(View()).(registry := old(registry) - {tag})
    {
      registry := registry - {tag};
    }

    /** Splices a cell out of queue and registry and completes it as stopped. */
    method Withdraw(tag: string, c: Cell)
      requires Sorted(queue) && c in queue
      modifies this`queue, this`registry, this`log
      ensures View() == Take(old(View()), {c.id}, Stopped).(registry := old(registry) - {tag})
    {
      TakeOneInSteps(View(), tag, c);
      assert View().queue == queue && View().registry == registry && View().log == log;
      hide View, Sorted, Without, Lookup, Only, Endings, Take;
      var _ := Splice(c.id);
      Forget(tag);
      Call(c.id, Stopped);
    }

    /** Lets the cell of `d` be `d`. */
    method Update(d: Cell)
      modifies this`queue
      ensures View() == old(View()).(queue := Replace(old(queue), d))
    {
      queue := Replace(queue, d);
    }

    /** `detach_locked`: `kick` asks for the DONE of an IDLE to be flushed. */
    method DetachLocked(tag: string, c: Cell) returns (kick: bool)
      requires Sorted(queue) && c in queue
      modifies this`queue, this`registry, this`log
      ensures View() == Engine.Detach(old(View()), tag, c)
      ensures kick <==> c.command.IdleCommand? && !c.Unsent()
    {
      kick := false;
      DetachInSteps(View(), tag, c);
      assert View().queue == queue && View().registry == registry;
      hide View, Sorted, Engine.Detach, Take, Cell.Unsent, Cell.IsWritten, Command.DoneAsked, Replace;
      if c.Unsent() {
        Withdraw(tag, c);
      } else if c.command.IdleCommand? {
        Update(c.(command := c.command.DoneAsked(), stopped := true));
        kick := true;
      } else if c.IsWritten() {
        Withdraw(tag, c);
      } else {
        Update(c.(detached := true));
        Forget(tag);
      }
    }

    /** `cancel`. */
    method Cancel(tag: string) returns (kick: bool)
      requires Valid()
      modifies this
      ensures Valid() && View() == Engine.Cancel(old(View()), tag)
    {
      hide Inv, Sorted, Conserved, Staging, Coherent, Routed, Buffered, Detach;
      CancelKeeps(View(), tag);
      Parts(View());
      kick := false;
      if phase == Open && tag in registry {
        ghost var c := RegisteredCell(queue, registry, tag);
        var found := Lookup(queue, registry[tag]);
        kick := DetachLocked(tag, found.value);
      }
    }

    // ---- Write pump -------------------------------------------------------------

    method PostKick()
      requires Valid()
      modifies this`kickPosted
      ensures Valid() && View() == Engine.PostKick(old(View()))
    {
      hide Inv, Buffered;
      FlagsKeep(View(), DoPostKick);
      OpenIsNotFailing(View());
      if !(phase != Open || writeInFlight || kickPosted || queue == []) {
        kickPosted := true;
      }
    }

    method KickFired()
      requires Valid()
      modifies this`kickPosted
      ensures Valid() && View() == Step(old(View()), DoKickFired)
    {
      hide Inv, Buffered;
      FlagsKeep(View(), DoKickFired);
      kickPosted := false;
    }

    /** The queue after a pass over it, and the continuation route it leaves. */
    method Hold(now: seq<Cell>, route: Option<nat>)
      modifies this`queue, this`target
      ensures View() == old(View()).(queue := now, target := route)
    {
      queue := now;
      target := route;
    }

    /** Fills the staging buffer; no write is in flight, so nobody reads it. */
    method Fill(bytes: string, ids: seq<nat>, ghost b: seq<Chunk>)
      requires !writeInFlight
      modifies this`staging, this`staged, this`batch
      ensures View() == old(View()) && staging == bytes && staged == ids && batch == b
    {
      staging := bytes;
      staged := ids;
      batch := b;
    }

    /** Latches the write: from here on the staging buffer must not be touched. */
    method Latch()
      requires !writeInFlight
      modifies this`armed, this`writeInFlight
      ensures View() == old(View()).(write := Latched(batch)) && writeInFlight
    {
      armed, writeInFlight := false, true;
    }

    /** The batch is staged: hold the queue as it now is and latch the write. */
    method Stage(now: seq<Cell>, route: Option<nat>, bytes: string, ids: seq<nat>, ghost b: seq<Chunk>)
      requires !writeInFlight
      modifies this`queue, this`staging, this`staged, this`writeInFlight, this`armed, this`target, this`batch
      ensures View() == old(View()).(queue := now, target := route, write := Latched(b))
      ensures writeInFlight && staging == bytes && staged == ids && batch == b
    {
      hide View;
      Hold(now, route);
      Fill(bytes, ids, b);
      Latch();
    }

    method KickOpen()
      requires phase == Open && !writeInFlight && !failing && Sorted(queue)
      modifies this`queue, this`staging, this`staged, this`writeInFlight, this`armed, this`target, this`batch
      ensures View() == Engine.Kick(old(View()))
      ensures writeInFlight ==> staging == Bytes(batch) && staged == Owners(batch) && Ascending(batch)
    {
      KickInSteps(View());
      DrainIsAscending(queue);
      assert View().queue == queue && View().target == target;
      hide View, Engine.Kick, Sorted, Bytes, Owners, Ascending, Drain, StageAll, Waiter, BatchIds;
      ghost var b := Drain(queue);
      var now, bytes, ids, waiter := StageBatch(queue);
      if bytes == "" {
        return;
      }
      Stage(now, if waiter.Some? then waiter else target, bytes, ids, b);
    }

    /** `kick`: drains the queue into the staging buffer and latches the write. */
    method Kick()
      requires Valid()
      modifies this
      ensures Valid() && View() == Engine.Kick(old(View()))
    {
      hide Inv, Sorted, Conserved, Staging, Coherent, Routed, Bytes, Owners, Ascending, Drain, StageAll, Waiter, BatchIds;
      KickKeeps(View());
      Parts(View());
      OpenIsNotFailing(View());
      if phase != Open || writeInFlight {
        return;
      }
      KickOpen();
    }

    /** Gives the staging buffer to `async_write`. */
    method Send()
      requires writeInFlight && !armed && staging == Bytes(batch) && sent == Bytes(wire)
      modifies this`armed, this`sent, this`wire
      ensures View() == old(View()).(write := WriteArmed(batch), wire := old(wire) + batch)
      ensures sent == Bytes(wire) && sent == old(sent) + staging
    {
      BytesConcat(wire, batch);
      armed := true;
      sent := sent + staging;
      wire := wire + batch;
    }

    /** Lifts the cells of the write out of the queue; the write is over. */
    method LiftStaged() returns (retired: seq<Cell>)
      requires Sorted(queue) && writeInFlight && staged == Owners(batch) && Ascending(batch)
      modifies this`queue, this`writeInFlight, this`failing
      ensures View() == old(View()).(write := Idle, queue := Without(old(queue), BatchIds(batch)))
      ensures retired == Only(old(queue), BatchIds(batch)) && !writeInFlight
    {
      hide Sorted, Ascending, BatchIds, Without, Only;
      var now;
      now, retired := ExtractBatch(queue, staged, batch);
      queue := now;
      writeInFlight, failing := false, false;
    }

    /** The write is over and so is the engine: its cells go. */
    method RetireStaged(ending: Ending)
      requires Sorted(queue) && writeInFlight && staged == Owners(batch) && Ascending(batch)
      modifies this`queue, this`writeInFlight, this`failing, this`log, this`phase
      ensures View() == Engine.Retire(old(View()), ending) && !writeInFlight
    {
      RetireInSteps(View(), ending);
      assert View().queue == queue && Batch(View().write) == batch && View().log == log;
      hide View, Sorted, Ascending, BatchIds, Without, Only, Endings, Owners, Engine.Retire, Engine.MaybeFinishClose;
      var retired := LiftStaged();
      Tell(retired, ending);
      MaybeFinishClose();
    }

    /** `arm`: the latched batch goes to the transport unless teardown won the race. */
    method Arm()
      requires Valid() && writeInFlight && !armed
      modifies this
      ensures Valid() && View() == Engine.ArmWrite(old(View()))
    {
      hide Inv, Sorted, Conserved, Staging, Coherent, Routed, Bytes, Owners, Ascending, BatchIds, Engine.Retire;
      ArmWriteKeeps(View());
      Parts(View());
      if phase != Open || abandoned {
        RetireStaged(if abandoned then Dropped else Failed);
      } else {
        Send();
      }
    }

    /** The write failed: its cells are lifted out first, and fail after everyone else. */
    method FailWrite()
      requires Sorted(queue) && writeInFlight && armed && staged == Owners(batch) && Ascending(batch) && phase == Open
      modifies this`queue, this`writeInFlight, this`failing, this`log, this`phase, this`registry, this`target, this`lost
      ensures View() == Engine.WriteDone(old(View()), false, false) && !writeInFlight
    {
      FailInSteps(View());
      assert View().queue == queue && Batch(View().write) == batch;
      hide View, Sorted, Ascending, BatchIds, Without, Only, Endings, Owners, Engine.WriteDone, Engine.MaybeFinishClose,
           Engine.ConnectionLost;
      WithoutKeepsOrder(queue, BatchIds(batch));
      var retired := LiftStaged();
      assert View().queue == queue;
      ConnectionLost();
      Tell(retired, Failed);
      MaybeFinishClose();
    }

    method StartFailing()
      requires !writeInFlight
      modifies this`failing
      ensures View() == old(View()).(write := Failing)
    {
      failing := true;
    }

    /** The same while draining; the mutex is free before `connection_lost` takes it. */
    method FailDraining()
      requires Sorted(queue) && writeInFlight && armed && staged == Owners(batch) && Ascending(batch) && phase != Open
      modifies this`queue, this`writeInFlight, this`failing, this`log
      ensures View() == Engine.WriteDone(old(View()), false, false) && !writeInFlight
    {
      FailingInSteps(View());
      assert View().queue == queue && Batch(View().write) == batch && View().log == log;
      hide View, Sorted, Ascending, BatchIds, Without, Only, Endings, Owners, Engine.WriteDone;
      var retired := LiftStaged();
      Tell(retired, Failed);
      StartFailing();
    }

    method StopFailing()
      requires !writeInFlight
      modifies this`failing
      ensures View() == old(View()).(write := Idle)
    {
      failing := false;
    }

    /** A write that failed while draining goes on with `connection_lost`, which finds the engine as others left it. */
    method FailConnection()
      requires Valid() && !writeInFlight && failing
      modifies this
      ensures Valid() && View() == Engine.FailConnection(old(View()))
    {
      hide Inv, Buffered, Sorted, Conserved, Staging, Coherent, Routed, Engine.ConnectionLost;
      FailConnectionKeeps(View());
      Parts(View());
      StopFailing();
      ConnectionLost();
    }

    method Unlatch()
      modifies this`writeInFlight, this`failing
      ensures View() == old(View()).(write := Idle) && !writeInFlight
    {
      writeInFlight, failing := false, false;
    }

    method NoteSpoils(ghost ids: set<nat>)
      modifies this`spoiled
      ensures View() == old(View()).(spoiled := old(spoiled) + ids)
    {
      spoiled := spoiled + ids;
    }

    /** Flush notifications, the route, and the retirement of finished detached cells. */
    method Settle()
      requires Sorted(queue) && writeInFlight && staged == Owners(batch) && Ascending(batch)
      modifies this`queue, this`writeInFlight, this`failing, this`log, this`target, this`spoiled
      ensures View() == Engine.Settle(old(View())) && !writeInFlight
    {
      SettleInSteps(View());
      assert View().queue == queue && Batch(View().write) == batch && View().target == target && View().spoiled == spoiled
        && View().log == log;
      hide View, Sorted, Ascending, BatchIds, Endings, Owners, Engine.Settle, FlushAll, SpoiledIds, Waiter, Flushed, Retired, Rerouted;
      Unlatch();
      ghost var spoils := SpoiledIds(queue, batch);
      var now, retired, route := FlushBatch(queue, staged, batch, target);
      Hold(now, route);
      NoteSpoils(spoils);
      Tell(retired, Stopped);
    }

    /** `on_write_done`; `quiet` is what it read from the abandoned flag. The kick it chains is a step of its own. */
    method OnWriteDone(ok: bool, quiet: bool)
      requires Valid() && writeInFlight && armed && (quiet ==> abandoned)
      modifies this
      ensures Valid() && View() == Engine.WriteDone(old(View()), ok, quiet)
    {
      hide Inv, Sorted, Conserved, Staging, Coherent, Routed, Bytes, Owners, Ascending, BatchIds, Engine.Retire,
           Engine.Settle, Engine.ConnectionLost, Endings, Without, Only;
      WriteDoneKeeps(View(), ok, quiet);
      Parts(View());
      if !ok && !quiet {
        if phase == Open {
          FailWrite();
        } else {
          FailDraining();
        }
      } else if quiet {
        RetireStaged(Dropped);
      } else if phase == Open {
        Settle();
      } else {
        RetireStaged(Failed);
      }
    }

    // ---- Read pump ----------------------------------------------------------------

    method QuietRead()
      modifies this`read
      ensures View() == old(View()).(read := Quiet)
    {
      read := Quiet;
    }

    method StopReading()
      modifies this`read, this`phase
      ensures View() == Engine.ReadStop(old(View()))
    {
      hide View, Engine.MaybeFinishClose;
      QuietRead();
      MaybeFinishClose();
    }

    method SetRead(state: ReadState)
      modifies this`read
      ensures View() == old(View()).(read := state)
    {
      read := state;
    }

    /** The read completion: dispatch, or only bookkeeping once the engine is closed or abandoned. */
    method OnReadCompletion()
      requires Valid() && read == ReadArmed
      modifies this
      ensures Valid() && View() == Engine.ReadDone(old(View()))
    {
      hide Inv, Buffered, Engine.ReadStop;
      ReadFlagsKeep(View(), DoReadDone);
      if abandoned || phase == Closed {
        StopReading();
      } else {
        SetRead(Dispatching);
      }
    }

    /** EOF or a transport error stops the pump. */
    method OnReadError()
      requires Valid() && read == Dispatching
      modifies this
      ensures Valid() && View() == Engine.ReadFailed(old(View()))
    {
      hide Inv, Buffered;
      ReadFlagsKeep(View(), DoReadFailed);
      read := Losing;
    }

    /** The failed read goes on with `connection_lost`, which finds the engine as others left it. */
    method LoseConnection()
      requires Valid() && read == Losing
      modifies this
      ensures Valid() && View() == Engine.LoseConnection(old(View()))
    {
      hide Inv, Buffered, Sorted, Conserved, Staging, Coherent, Routed, Engine.ConnectionLost;
      LoseConnectionKeeps(View());
      Parts(View());
      QuietRead();
      ConnectionLost();
    }

    /** A protocol violation. */
    method OnMalformed()
      requires Valid() && read == Dispatching
      modifies this
      ensures Valid() && View() == Engine.Fatal(old(View()))
    {
      hide Inv, Buffered, Sorted, Conserved, Staging, Coherent, Routed, Engine.ConnectionLost, Engine.ReadStop;
      FatalKeeps(View());
      Parts(View());
      ConnectionLost();
      StopReading();
    }

    /** After the last complete response of a read. */
    method DecideRearm()
      requires Valid() && read == Dispatching
      modifies this
      ensures Valid() && View() == Engine.DecideRearm(old(View()))
    {
      hide Inv, Buffered, Engine.ReadStop;
      ReadFlagsKeep(View(), DoDecideRearm);
      if phase == Open && !suspended {
        SetRead(Rearming);
      } else {
        StopReading();
      }
    }

    /** The read pump's `arm`. */
    method ArmRead()
      requires Valid() && read == Rearming
      modifies this
      ensures Valid() && View() == Engine.ArmRead(old(View()))
    {
      hide Inv, Buffered, Engine.ReadStop;
      ReadFlagsKeep(View(), DoArmRead);
      if phase != Open || abandoned || suspended {
        StopReading();
      } else {
        SetRead(ReadArmed);
      }
    }

    // ---- Dispatch -------------------------------------------------------------------

    /** Clears the route if it leads to the answered cell. */
    method Unregister(tag: string, id: nat)
      modifies this`registry, this`target
      ensures View() == old(View()).(registry := old(registry) - {tag},
                                     target := if old(target) == Some(id) then None else old(target))
    {
      registry := registry - {tag};
      if target == Some(id) {
        target := None;
      }
    }

    method NoteReply(ghost id: nat)
      modifies this`replied
      ensures View() == old(View()).(replied := old(replied) + {id})
    {
      replied := replied + {id};
    }

    /** `on_tagged`, on the cell that was taken. */
    method Complete(id: nat)
      modifies this`log, this`replied
      ensures View() == old(View()).(log := old(log) + [Terminal(id, Tagged)], replied := old(replied) + {id})
    {
      Call(id, Tagged);
      NoteReply(id);
    }

    method Fatal()
      requires Sorted(queue) && read == Dispatching
      modifies this`phase, this`queue, this`registry, this`target, this`lost, this`log, this`read
      ensures View() == Engine.Fatal(old(View()))
    {
      hide Sorted, Engine.ConnectionLost, Engine.ReadStop;
      ConnectionLost();
      StopReading();
    }

    method TakeTagged(reply: string)
      requires Sorted(queue) && reply in registry && read == Dispatching
      modifies this`phase, this`queue, this`registry, this`target, this`lost, this`log, this`read, this`replied
      ensures View() == Engine.TaggedReply(old(View()), reply)
    {
      hide Sorted, Lookup, Without, Only, Endings, Engine.Fatal, Engine.TaggedReply, Ids, Take;
      ghost var s := View();
      assert s.queue == queue && s.registry == registry && s.target == target && s.log == log && s.replied == replied
        && s.read == read;
      hide View;
      TaggedInSteps(s, reply);
      var id := registry[reply];
      Unregister(reply, id);
      var cell := Splice(id);
      Conclude(id, cell);
    }

    /** A registered tag without a cell is an internal violation, fatal to the connection. */
    method Conclude(id: nat, cell: Option<Cell>)
      requires Sorted(queue) && read == Dispatching
      modifies this`phase, this`queue, this`registry, this`target, this`lost, this`log, this`read, this`replied
      ensures View() == if cell.None? then Engine.Fatal(old(View()))
                        else old(View()).(log := old(log) + [Terminal(id, Tagged)], replied := old(replied) + {id})
    {
      hide Engine.Fatal, Sorted;
      if cell.Some? {
        Complete(id);
      } else {
        Fatal();
      }
    }

    /** A tagged reply takes its cell; one whose tag is not registered is dropped. */
    method OnTagged(reply: string)
      requires Valid() && read == Dispatching
      modifies this
      ensures Valid() && View() == Engine.TaggedReply(old(View()), reply)
    {
      hide Inv, Buffered, Sorted, Conserved, Staging, Coherent, Routed;
      TaggedKeeps(View(), reply);
      Parts(View());
      if reply in registry {
        TakeTagged(reply);
      }
    }

    method DropRoute()
      modifies this`target
      ensures View() == old(View()).(target := None)
    {
      target := None;
    }

    method NoteAnswer(ghost id: nat)
      modifies this`answered
      ensures View() == old(View()).(answered := old(answered) + {id})
    {
      answered := answered + {id};
    }

    method Answer()
      requires Sorted(queue) && read == Dispatching
      modifies this`phase, this`queue, this`registry, this`target, this`lost, this`log, this`read, this`answered
      ensures View() == Engine.ContinuationRequest(old(View()))
    {
      hide Sorted, Lookup, Replace, Cell.Continue, Engine.Fatal, Engine.ContinuationRequest;
      ghost var s := View();
      assert s.queue == queue && s.target == target && s.answered == answered && s.read == read;
      hide View;
      ContinuationInSteps(s);
      if target == None {
        Fatal();
        return;
      }
      var id := target.value;
      DropRoute();
      var found := Lookup(queue, id);
      if found.Some? {
        Update(found.value.Continue());
        NoteAnswer(id);
      }
    }

    /** A continuation request goes to the one cell that waits for it; without one it is a protocol violation. */
    method OnContinuation()
      requires Valid() && read == Dispatching
      modifies this
      ensures Valid() && View() == Engine.ContinuationRequest(old(View()))
    {
      hide Inv, Buffered, Sorted, Conserved, Staging, Coherent, Routed, Engine.ContinuationRequest;
      ContinuationKeeps(View());
      Parts(View());
      Answer();
    }

    method NoteBye()
      modifies this`bye
      ensures View() == old(View()).(bye := true)
    {
      bye := true;
    }

    method Absorb(id: nat, kind: Kind, line: string)
      modifies this`absorbed
      ensures View() == old(View()).(absorbed := old(absorbed) + [Absorbed(id, kind, line)])
    {
      absorbed := absorbed + [Absorbed(id, kind, line)];
    }

    /** Command-scoped data goes to the earliest cell that wants it. */
    method OnUntagged(kind: Kind, line: string)
      requires Valid() && read == Dispatching
      modifies this
      ensures Valid() && View() == Engine.UntaggedReply(old(View()), kind, line)
    {
      hide Inv, Buffered, Owner, CommandScoped;
      FlagsKeep(View(), DoUntagged(kind, line));
      assert View().queue == queue && View().absorbed == absorbed;
      assert Step(View(), DoUntagged(kind, line)) == Engine.UntaggedReply(View(), kind, line);
      hide View, Step;
      if kind == Bye {
        NoteBye();
      }
      if CommandScoped(kind) {
        var owner := FindOwner(queue, kind);
        if owner.Some? {
          Absorb(owner.value, kind, line);
        }
      }
    }
  }

  lemma TaggedInSteps(s: Core, reply: string)
    requires Sorted(s.queue) && reply in s.registry && s.read == Dispatching
    ensures var id := s.registry[reply];
            var u := s.(registry := s.registry - {reply}, target := if s.target == Some(id) then None else s.target);
            var v := u.(queue := Without(u.queue, {id}));
            Engine.TaggedReply(s, reply) ==
              if Lookup(s.queue, id).Some? then v.(log := v.log + [Terminal(id, Tagged)], replied := v.replied + {id})
              else Engine.Fatal(v)
  {
    var id := s.registry[reply];
    var found := Lookup(s.queue, id);
    if found.Some? {
      OnlyOne(s.queue, found.value);
      EndingOfOne(found.value, Tagged);
      Queued(s.queue, found.value);
      hide Sorted, Without, Only, Endings, Engine.Fatal, Ids;
    } else {
      assert forall c | c in s.queue :: c.id in Ids(s.queue);
      hide Sorted, Endings, Engine.Fatal, Ids;
      NoneTaken(s.queue, {id});
    }
  }

  lemma ContinuationInSteps(s: Core)
    requires s.read == Dispatching
    ensures s.target == None ==> Engine.ContinuationRequest(s) == Engine.Fatal(s)
    ensures s.target.Some? ==>
              var u := s.(target := None);
              Engine.ContinuationRequest(s) ==
                match Lookup(s.queue, s.target.value)
                case None => u
                case Some(c) =>
                  var v := u.(queue := Replace(u.queue, c.Continue()));
                  v.(answered := v.answered + {s.target.value})
  {
    hide Lookup, Replace, Cell.Continue, Engine.Fatal;
  }

  lemma KickInSteps(s: Core)
    requires s.phase == Open && s.write == Idle
    ensures var b, w := Drain(s.queue), Waiter(s.queue, Drain(s.queue));
            Engine.Kick(s) ==
              if b == [] then s
              else
                s.(queue := StageAll(s.queue, BatchIds(b)), target := if w.Some? then w else s.target, write := Latched(b))
  {
    hide Drain, Waiter, StageAll, BatchIds;
  }

  lemma SettleInSteps(s: Core)
    ensures var batch := Batch(s.write);
            var ids := BatchIds(batch);
            var u := s.(write := Idle);
            var v := u.(queue := Flushed(s.queue, ids), target := Rerouted(FlushAll(s.queue, ids), batch, s.target));
            var w := v.(spoiled := v.spoiled + SpoiledIds(s.queue, batch));
            Engine.Settle(s) == w.(log := w.log + Endings(Retired(s.queue, ids), Stopped))
  {
    hide Without, Only, Endings, BatchIds, SpoiledIds, Waiter, FlushAll, FinishedIds;
  }

  lemma FailingInSteps(s: Core)
    requires s.write.WriteArmed? && s.phase != Open
    ensures var ids := BatchIds(Batch(s.write));
            var u := s.(write := Idle, queue := Without(s.queue, ids));
            var v := u.(log := u.log + Endings(Only(s.queue, ids), Failed));
            Engine.WriteDone(s, false, false) == v.(write := Failing)
  {
    hide Without, Only, Endings, BatchIds;
  }

  /** While open no write is failing. */
  lemma OpenIsNotFailing(s: Core)
    requires Inv(s)
    ensures s.phase == Open ==> s.write != Failing
  {
  }

  lemma FailInSteps(s: Core)
    requires s.write.WriteArmed? && s.phase == Open
    ensures var ids := BatchIds(Batch(s.write));
            var u := s.(write := Idle, queue := Without(s.queue, ids));
            var v := Engine.ConnectionLost(u);
            var w := v.(log := v.log + Endings(Only(s.queue, ids), Failed));
            Engine.WriteDone(s, false, false) == w && Engine.MaybeFinishClose(w) == w
  {
    hide Without, Only, Endings, BatchIds, UnstagedIds;
  }

  lemma RetireInSteps(s: Core, ending: Ending)
    ensures var ids := BatchIds(Batch(s.write));
            var u := s.(write := Idle, queue := Without(s.queue, ids));
            var v := u.(log := u.log + Endings(Only(s.queue, ids), ending));
            Engine.Retire(s, ending) == Engine.MaybeFinishClose(v)
  {
    hide Without, Only, Endings, BatchIds, Engine.MaybeFinishClose;
  }

  lemma TakeOneInSteps(s: Core, tag: string, c: Cell)
    requires Sorted(s.queue) && c in s.queue
    ensures var u := s.(queue := Without(s.queue, {c.id}));
            var v := u.(registry := u.registry - {tag});
            Take(s, {c.id}, Stopped).(registry := s.registry - {tag}) == v.(log := v.log + [Terminal(c.id, Stopped)])
  {
    OnlyOne(s.queue, c);
    EndingOfOne(c, Stopped);
    hide Without, Only, Endings, Sorted;
  }

  lemma DetachInSteps(s: Core, tag: string, c: Cell)
    ensures Engine.Detach(s, tag, c) ==
              if c.Unsent() || (!c.command.IdleCommand? && c.IsWritten()) then
                Take(s, {c.id}, Stopped).(registry := s.registry - {tag})
              else if c.command.IdleCommand? then
                s.(queue := Replace(s.queue, c.(command := c.command.DoneAsked(), stopped := true)))
              else
                var u := s.(queue := Replace(s.queue, c.(detached := true)));
                u.(registry := u.registry - {tag})
  {
    hide Take, Cell.Unsent, Cell.IsWritten, Command.DoneAsked, Replace;
  }

  lemma PopLast(q: seq<Cell>)
    requires Sorted(q) && q != []
    ensures Without(q, {q[|q| - 1].id}) == q[..|q| - 1]
  {
    hide Sorted, Without, Only;
    WithoutAt(q, |q| - 1);
  }

  lemma SortedPush(q: seq<Cell>, cell: Cell)
    requires Sorted(q) && forall c | c in q :: c.id < cell.id
    ensures Sorted(q + [cell])
  {
  }

  lemma EnqueueInSteps(s: Core, cell: Cell, stopSeen: bool)
    requires cell == Cell(|s.commands|, cell.serial, cell.command, false, false, false, false)
    ensures var u := s.(minted := s.minted - {cell.serial}, commands := s.commands + [cell.command]);
            var v := u.(queue := u.queue + [cell], registry := Emplace(u.registry, cell.Tag(), cell.id));
            var w := v.(queue := v.queue[..|v.queue| - 1], registry := v.registry - {cell.Tag()});
            Engine.Enqueue(s, cell.serial, cell.command, stopSeen) ==
              if s.phase != Open then u.(log := u.log + [Terminal(cell.id, Failed)])
              else if stopSeen then w.(log := w.log + [Terminal(cell.id, Stopped)])
              else v
  {
    hide RenderTag;
    assert (s.queue + [cell])[..|s.queue|] == s.queue;
    assert Emplace(s.registry, cell.Tag(), cell.id) - {cell.Tag()} == s.registry - {cell.Tag()};
  }
}
