/** How the engine winds down: fatal teardown, safe close, and the cells an orderly close can strand. */
module Teardown {
  import opened Commands
  import opened Engine
  import opened EngineFrames
  import opened EngineInvariants
  import opened EngineRuns
  import opened EngineSteps
  import opened EngineTheorems
  import opened Wrappers

  // ---- Fatal teardown ------------------------------------------------------

  /**
   From `connection_lost` on nothing is registered or routed, every cell that is left
   belongs to the write still in flight, and without a write none is left.
   */
  lemma LossEmptiesTheEngine(es: seq<Event>)
    requires Possible(es) && After(es).lost
    ensures var s := After(es);
            && s.phase != Open && s.registry == map[] && s.target == None
            && (forall c | c in s.queue :: c.staged && c.id in BatchIds(Batch(s.write)))
            && (NotWriting(s.write) ==> s.queue == [])
  {
    RunsKeep(es);
    var s := After(es);
    hide After, Conserved, Serials, DropsAreAbandoned, Coherent, Routed;
    HeadIsQueued(s.queue);
  }

  lemma RefusedAtOnce(s: Core, serial: nat, command: Command, stopSeen: bool)
    requires s.phase != Open
    ensures var t := Enqueue(s, serial, command, stopSeen);
            t.queue == s.queue && t.registry == s.registry && t.log == s.log + [Terminal(|s.commands|, Failed)]
  {
    hide RenderTag;
  }

  /**
   A submission that arrives once the engine has left `Open` is refused: its handler hears
   of it at once, and in no later state is it queued.
   */
  lemma {:induction false} LateSubmissionsFail(es: seq<Event>, n: nat)
    requires Possible(es) && n < |es| && Possible(es[..n]) && es[n].DoEnqueue? && After(es[..n]).phase != Open
    ensures var s := After(es);
            var id := |After(es[..n]).commands|;
            Terminal(id, Failed) in s.log && id !in Ids(s.queue)
    decreases |es|
  {
    var init, e := es[..|es| - 1], es[|es| - 1];
    var id := |After(es[..n]).commands|;
    RunsKeep(es);
    hide Ids, LogIds, Sorted, LoggedOnce, Serials, Staging, Coherent, Routed, TornDown, DropsAreAbandoned, Enqueue;
    if n == |init| {
      assert init == es[..n];
      RefusedAtOnce(After(init), e.serial, e.command, e.stopSeen);
      LastLogged(After(init).log, Terminal(id, Failed));
    } else {
      assert init[..n] == es[..n] && init[n] == es[n];
      LateSubmissionsFail(init, n);
      CallsAreFinal(After(init), e);
      StaysLogged(After(init).log, After(es).log, Terminal(id, Failed));
    }
    LoggedId(After(es).log, Terminal(id, Failed));
  }

  lemma LastLogged(log: seq<Terminal>, t: Terminal)
    ensures t in log + [t]
  {
    assert (log + [t])[|log|] == t;
  }

  lemma StaysLogged(a: seq<Terminal>, b: seq<Terminal>, t: Terminal)
    requires a <= b && t in a
    ensures t in b
  {
    var i :| 0 <= i < |a| && a[i] == t;
    assert b[i] == t;
  }

  lemma LoggedId(log: seq<Terminal>, t: Terminal)
    requires t in log
    ensures t.id in LogIds(log)
  {
  }

  /** The completion of the last write, good or bad, leaves the torn-down engine without cells. */
  lemma LastWriteEmptiesTheEngine(es: seq<Event>, ok: bool, quiet: bool)
    requires Possible(es) && After(es).lost && Enabled(After(es), DoWriteDone(ok, quiet))
    ensures WriteDone(After(es), ok, quiet).queue == []
  {
    RunsKeep(es);
    var s := After(es);
    LossEmptiesTheEngine(es);
    if !ok && !quiet {
      hide After, Inv, WriteDone, BatchIds;
      WriteFailedKeeps(s);
      HeadIsQueued(WriteDone(s, ok, quiet).queue);
    } else {
      hide After, Inv, BatchIds, MaybeFinishClose;
      HeadIsQueued(WriteDone(s, ok, quiet).queue);
    }
  }

  // ---- Safe close ------------------------------------------------------------

  function Rank(phase: Phase): nat {
    match phase
    case Open => 0
    case Draining => 1
    case Closed => 2
  }

  /**
   The descriptor is only ever closed with both pumps quiet. A draining engine waits for one
   of them, or for a failed read or write on its way to `connection_lost`, which then closes it
   and leaves no cell.
   */
  lemma ClosedMeansQuiet(es: seq<Event>)
    requires Possible(es)
    ensures var s := After(es);
            && (s.phase == Closed ==> NotReading(s.read) && NotWriting(s.write))
            && (s.phase == Draining && NotReading(s.read) && NotWriting(s.write) ==>
                  && (s.read == Losing || s.write == Failing)
                  && (s.read == Losing ==> LoseConnection(s).phase == Closed && LoseConnection(s).queue == [])
                  && (s.write == Failing ==> FailConnection(s).phase == Closed && FailConnection(s).queue == []))
  {
    RunsKeep(es);
    var s := After(es);
    if s.phase == Draining && NotReading(s.read) && NotWriting(s.write) {
      LoseConnectionKeeps(s);
      LossCloses(s);
      NothingLeft(LoseConnection(s));
      if s.write == Failing { FailConnectionKeeps(s); }
    }
    hide After, Books, Coherent, Routed, LoseConnection, FailConnection;
  }

  lemma LossCloses(s: Core)
    requires s.phase == Draining && NotReading(s.read) && NotWriting(s.write)
    ensures LoseConnection(s).phase == Closed && LoseConnection(s).write == s.write
    ensures FailConnection(s).phase == Closed
  {
    hide Only, Without, Endings, UnstagedIds;
  }

  lemma NothingLeft(s: Core)
    requires Inv(s) && (s.lost || s.abandoned) && NotWriting(s.write)
    ensures s.queue == []
  {
    HeadIsQueued(s.queue);
    hide Conserved, Serials, DropsAreAbandoned, Coherent, Routed;
  }

  /** The phase moves forward only, and outside `Open` no operation is armed that was not armed before. */
  ghost predicate WindsDown(s: Core, t: Core) {
    && Rank(s.phase) <= Rank(t.phase)
    && (s.lost ==> t.lost) && (s.abandoned ==> t.abandoned)
    && (s.phase != Open ==>
          && (t.read == ReadArmed ==> s.read == ReadArmed)
          && (t.write.WriteArmed? ==> t.write == s.write)
          && t.wire == s.wire)
  }

  lemma FinishWinds(s: Core, u: Core)
    requires WindsDown(s, u)
    ensures WindsDown(s, MaybeFinishClose(u))
  {
  }

  lemma LossWinds(s: Core)
    ensures WindsDown(s, ConnectionLost(s))
  {
    hide UnstagedIds, Only, Without, Endings, MaybeFinishClose;
    if s.phase != Closed {
      FinishWinds(s, Take(s, UnstagedIds(s.queue), Failed).(
        phase := Draining, registry := map[], target := None, lost := true));
    }
  }

  lemma CloseWinds(s: Core)
    ensures WindsDown(s, Close(s)) && WindsDown(s, Abandon(s))
  {
    hide UnstagedIds, UnwrittenIds, Only, Without, Endings, MaybeFinishClose;
    var taken := UnwrittenIds(s.queue);
    if s.phase == Open {
      FinishWinds(s, Take(s, taken, Failed).(
        phase := Draining, target := None,
        registry := s.registry - (set c | c in Only(s.queue, taken) :: c.Tag())));
    }
    if s.phase != Closed {
      FinishWinds(s, Take(s, UnstagedIds(s.queue), Dropped).(
        phase := Draining, abandoned := true, target := None, registry := map[]));
    }
  }

  lemma WindsThrough(s: Core, u: Core, t: Core)
    requires WindsDown(s, u) && WindsDown(u, t)
    ensures WindsDown(s, t)
  {
  }

  lemma FatalWinds(s: Core)
    ensures s.read == Dispatching ==> WindsDown(s, Fatal(s))
    ensures WindsDown(s, LoseConnection(s))
  {
    LossWinds(s);
    LossWinds(s.(read := Quiet));
    hide ConnectionLost, MaybeFinishClose;
    var u := ConnectionLost(s).(read := Quiet);
    assert WindsDown(s, u);
    FinishWinds(s, u);
    WindsThrough(s, s.(read := Quiet), LoseConnection(s));
  }

  lemma FailureWinds(s: Core)
    requires s.write == Failing
    ensures WindsDown(s, FailConnection(s))
  {
    var u := s.(write := Idle);
    LossWinds(u);
    hide ConnectionLost;
    WindsThrough(s, u, ConnectionLost(u));
  }

  lemma CancelWinds(s: Core, tag: string)
    ensures WindsDown(s, Cancel(s, tag))
  {
    hide Only, Without, Endings, Cell.Unsent, Cell.IsWritten, Replace, Command.DoneAsked, RenderTag, Lookup;
  }

  lemma KickWinds(s: Core)
    ensures WindsDown(s, Kick(s))
  {
    hide BatchIds, Waiter, Drain, StageAll;
  }

  lemma ArmWinds(s: Core)
    requires s.write.Latched?
    ensures WindsDown(s, ArmWrite(s))
  {
    hide BatchIds, Only, Without, Endings;
  }

  lemma RetireWinds(s: Core, ending: Ending)
    ensures WindsDown(s, Retire(s, ending))
  {
    hide BatchIds, Only, Without, Endings;
  }

  lemma WriteWinds(s: Core, ok: bool, quiet: bool)
    requires Enabled(s, DoWriteDone(ok, quiet))
    ensures WindsDown(s, WriteDone(s, ok, quiet))
  {
    if quiet { RetireWinds(s, Dropped); }
    else if ok && s.phase == Open { SettleWinds(s); }
    else if ok { RetireWinds(s, Failed); }
    else if s.phase == Open { WriteLostWinds(s); }
    else { WriteFailingWinds(s); }
    hide Retire, Settle, WriteLost, WindsDown;
  }

  lemma WriteFailingWinds(s: Core)
    ensures WindsDown(s, Take(s, BatchIds(Batch(s.write)), Failed).(write := Failing))
  {
    hide BatchIds, Only, Without, Endings;
  }

  lemma WriteLostWinds(s: Core)
    ensures WindsDown(s, WriteLost(s))
  {
    hide ConnectionLost, BatchIds, Only, Without, Endings;
    var u := s.(write := Idle, queue := Without(s.queue, BatchIds(Batch(s.write))));
    LossWinds(u);
    WindsThrough(s, u, ConnectionLost(u));
  }

  lemma SettleWinds(s: Core)
    ensures WindsDown(s, Settle(s))
  {
    hide Only, Without, Endings, BatchIds, Waiter, FlushAll, FinishedIds, SpoiledIds;
  }

  lemma TaggedWinds(s: Core, tag: string)
    requires s.read == Dispatching
    ensures WindsDown(s, TaggedReply(s, tag))
  {
    hide Only, Without, Endings, Fatal, Ids, RenderTag;
    if tag in s.registry {
      var id := s.registry[tag];
      var u := s.(registry := s.registry - {tag}, target := if s.target == Some(id) then None else s.target);
      FatalWinds(u);
      if id !in Ids(s.queue) {
        WindsThrough(s, u, Fatal(u));
        assert TaggedReply(s, tag) == Fatal(u);
      }
    }
  }

  lemma ContinuationWinds(s: Core)
    requires s.read == Dispatching
    ensures WindsDown(s, ContinuationRequest(s))
  {
    hide Fatal, Lookup, Replace, Cell.Continue;
    FatalWinds(s);
    if s.target == None {
    } else if Lookup(s.queue, s.target.value) == None {
    } else {
    }
  }

  lemma OtherWinds(s: Core, e: Event)
    requires Enabled(s, e)
    requires IsLight(e)
    ensures WindsDown(s, Step(s, e))
  {
    LightSteps(s, e);
    hide Step, Enabled;
  }

  lemma EnqueueWinds(s: Core, serial: nat, command: Command, stopSeen: bool)
    ensures WindsDown(s, Enqueue(s, serial, command, stopSeen))
  {
    EnqueueLeaves(s, serial, command, stopSeen);
    hide Enqueue;
  }

  /** No step re-opens the engine or, once it left `Open`, arms a read or a write or hands over bytes. */
  lemma StepsWindDown(s: Core, e: Event)
    requires Enabled(s, e)
    ensures WindsDown(s, Step(s, e))
  {
    hide WindsDown, Close, Abandon, Fatal, LoseConnection, FailConnection, Cancel, Kick, WriteDone, ArmWrite, TaggedReply, ContinuationRequest,
         Enqueue, AllocateTag, PostKick, UntaggedReply, ReadDone, DecideRearm, ArmRead;
    match e
    case DoClose => CloseWinds(s);
    case DoAbandon => CloseWinds(s);
    case DoLoseConnection => FatalWinds(s);
    case DoFailConnection => FailureWinds(s);
    case DoMalformed => FatalWinds(s);
    case DoCancel(tag) => CancelWinds(s, tag);
    case DoKick => KickWinds(s);
    case DoArmWrite => ArmWinds(s);
    case DoWriteDone(ok, quiet) => WriteWinds(s, ok, quiet);
    case DoTagged(reply) => TaggedWinds(s, reply);
    case DoContinuation => ContinuationWinds(s);
    case DoEnqueue(serial, command, stopSeen) => EnqueueWinds(s, serial, command, stopSeen);
    case _ => OtherWinds(s, e);
  }

  // ---- Stranded cells --------------------------------------------------------

  /** A closed engine never changes its queue again. */
  lemma ClosedIsFinal(es: seq<Event>, e: Event)
    requires Possible(es) && After(es).phase == Closed && Enabled(After(es), e)
    ensures Step(After(es), e).phase == Closed && Step(After(es), e).queue == After(es).queue
  {
    ClosedMeansQuiet(es);
    var s := After(es);
    hide After, RenderTag, Emplace, Drain, UnstagedIds, UnwrittenIds;
  }

  /** A command of one line, written and unanswered. */
  function OneWritten(line: string): Core {
    var command := Segmented([line], 1, 1, false, {});
    Start().(counter := 2, queue := [Cell(0, 1, command, false, true, false, false)], registry := map[RenderTag(1) := 0],
             wire := [Chunk(0, 0, line)], commands := [command.(emitted := 0)])
  }

  lemma OneLineArmed(line: string) returns (es: seq<Event>)
    requires line != ""
    ensures Possible(es)
    ensures After(es) == OneWritten(line).(write := WriteArmed([Chunk(0, 0, line)]),
              queue := [Cell(0, 1, Segmented([line], 0, 1, false, {}), true, false, false, false)])
  {
    hide RenderTag, After, Possible, Drain, StageAll, BatchIds, Waiter;
    var command := Segmented([line], 0, 1, false, {});
    es := SubmitOne(command);
    KickOneLine(FreshCell(0, 1, command));
    StageReady(es);
    es := es + [DoKick, DoArmWrite];
  }

  lemma KickOneLine(c: Cell)
    requires c.command.Segmented? && |c.command.segs| == 1 && c.command.unlocked == 1 && c.command.emitted == 0
    requires c.NextSegment() != ""
    ensures Drain([c]) == [NextChunk(c)]
    ensures StageAll([c], BatchIds(Drain([c]))) == [c.Stage()]
    ensures Waiter([c], Drain([c])) == None
  {
    var batch := [NextChunk(c)];
    assert Drain([c]) == batch + [];
    assert batch[0] in batch && c.id in BatchIds(batch);
    assert Lookup([c], c.id) == Some(c);
    assert batch[..0] == [];
  }

  lemma OneLineWritten(line: string) returns (es: seq<Event>)
    requires line != ""
    ensures Possible(es) && After(es) == OneWritten(line)
  {
    hide RenderTag, After, Possible;
    es := OneLineArmed(line);
    Extend(es, DoWriteDone(true, false));
    es := es + [DoWriteDone(true, false)];
    var c := Cell(0, 1, Segmented([line], 0, 1, false, {}), true, false, false, false);
    FlushOneLine(c, [Chunk(0, 0, line)]);
  }

  lemma {:induction false} FlushOneLine(c: Cell, batch: seq<Chunk>)
    requires c.staged && c.command.Segmented? && c.command.unlocked == 1 == |c.command.segs| && !c.detached
    requires |batch| == 1 && batch[0].id == c.id
    ensures var q := FlushAll([c], BatchIds(batch));
            && q == [c.Flush()] && FinishedIds(q, BatchIds(batch)) == {} && Without(q, {}) == q && Only(q, {}) == []
            && Waiter(q, batch) == None && SpoiledIds([c], batch) == {}
  {
    assert batch[0] in batch;
    var q := FlushAll([c], BatchIds(batch));
    assert q == [c.Flush()];
    assert q[1..] == [] && batch[..0] == [];
    assert Lookup(q, c.id) == Some(c.Flush());
  }

  lemma WrittenStays(c: Cell)
    requires c.IsWritten()
    ensures UnwrittenIds([c]) == {} && Without([c], {}) == [c] && Only([c], {}) == [] && Endings([], Failed) == []
  {
    assert Without([c], {}) == [c] + Without([c][1..], {}) && Only([c], {}) == Only([c][1..], {});
    assert [c][1..] == [];
  }

  /** An orderly close whose last read carries data: the command is neither answered nor failed. */
  lemma CloseCanStrand(line: string) returns (es: seq<Event>)
    requires line != ""
    ensures Possible(es)
    ensures var s := After(es); s.phase == Closed && Ids(s.queue) == {0} && s.log == [] && |s.commands| == 1
  {
    hide RenderTag, After, Possible, UnwrittenIds, Without, Only, Endings;
    es := OneLineWritten(line);
    var c := OneWritten(line).queue[0];
    WrittenStays(c);
    Extend(es, DoClose);
    es := es + [DoClose];
    var s := OneWritten(line);
    assert After(es) == s.(phase := Draining);
    Extend(es, DoReadDone);
    es := es + [DoReadDone];
    Extend(es, DoDecideRearm);
    es := es + [DoDecideRearm];
    assert c in After(es).queue;
  }
}
