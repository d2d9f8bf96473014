/** What every run promises about IDLE, and the one way its DONE can get lost. */
module IdleTheorems {
  import opened Commands
  import opened Engine
  import opened EngineFrames
  import opened EngineInvariants
  import opened EngineRuns
  import opened EngineSteps
  import opened IdleSafety
  import opened WireOrder
  import opened Wrappers

  /** The chunks of cell `id`, in order. */
  function Of(out: seq<Chunk>, id: nat): seq<Chunk> {
    if out == [] then [] else
      Of(out[..|out| - 1], id) + (if out[|out| - 1].id == id then [out[|out| - 1]] else [])
  }

  lemma {:induction false} OfMembers(out: seq<Chunk>, id: nat)
    ensures forall ch :: ch in Of(out, id) <==> ch in out && ch.id == id
  {
    if out != [] {
      OfMembers(out[..|out| - 1], id);
      assert out == out[..|out| - 1] + [out[|out| - 1]];
    }
  }

  lemma {:induction false} LineThenDone(commands: seq<Command>, out: seq<Chunk>, answered: set<nat>, id: nat)
    requires OneDone(commands, out) && DoneIsAnswered(commands, out, answered) && IsIdle(commands, id)
    ensures var line, done := Chunk(id, 0, commands[id].segment), Chunk(id, 1, DONE_LINE);
            || Of(out, id) == [] || Of(out, id) == [line]
            || (Of(out, id) == [line, done] && id in answered)
  {
    if out != [] {
      var init, last := out[..|out| - 1], out[|out| - 1];
      OneDoneOfPrefix(commands, out, answered, answered, |init|);
      LineThenDone(commands, init, answered, id);
      OfMembers(init, id);
      if last.id == id {
        assert last in out && IdleChunk(commands, last, answered);
        forall i | 0 <= i < |init| && init[i].id == id ensures init[i].index == 0 && last.index == 1 {
          assert out[i] == init[i];
        }
        if last.index == 1 {
          assert LineIn(out[..|out| - 1], id);
        }
      }
    }
  }

  /**
   Over every run, however often it is cancelled, an IDLE puts on the wire nothing,
   its line, or its line and one DONE; DONE only after the continuation request.
   */
  lemma IdleOnTheWire(es: seq<Event>, id: nat)
    requires Possible(es) && IsIdle(After(es).commands, id)
    ensures var s := After(es);
            var line, done := Chunk(id, 0, s.commands[id].segment), Chunk(id, 1, DONE_LINE);
            || Of(s.wire, id) == [] || Of(s.wire, id) == [line]
            || (Of(s.wire, id) == [line, done] && id in s.answered)
  {
    RunsKeepIdle(es);
    var s := After(es);
    hide After, DoneIsAnswered, OneDone, IdleCells;
    OneDoneOfPrefix(s.commands, Out(s), s.answered, s.answered, |s.wire|);
    assert Out(s)[..|s.wire|] == s.wire;
    LineThenDone(s.commands, s.wire, s.answered, id);
  }

  /** No cancellation, first or repeated, takes an IDLE out of the queue or completes it. */
  lemma CancelNeverExtractsIdle(es: seq<Event>, tag: string)
    requires Possible(es)
    ensures var s := After(es); var t := Cancel(s, tag);
            s.phase == Open && tag in s.registry && IsIdle(s.commands, s.registry[tag]) ==>
              Ids(t.queue) == Ids(s.queue) && t.log == s.log && tag in t.registry
  {
    RunsKeep(es);
    RunsKeepIdle(es);
    var s := After(es);
    hide After, Sorted, Ids, Conserved, Serials, Staging, DropsAreAbandoned, Coherent, Routed, TornDown, IdleInv;
    if s.phase == Open && tag in s.registry && IsIdle(s.commands, s.registry[tag]) {
      ConservedIds(s.queue, s.log, |s.commands|);
      var c := RegisteredCell(s.queue, s.registry, tag);
      IdleKin(s, c);
      DetachIdle(s, tag, c);
      AskKeepsRegistry(s, tag, c);
    }
  }

  lemma IdleKin(s: Core, c: Cell)
    requires IdleInv(s) && s.phase == Open && c in s.queue
    ensures Kin(s.commands, c) && IdleCell(c, Out(s), Batch(s.write), s.answered, s.spoiled)
  {
  }

  lemma AskKeepsRegistry(s: Core, tag: string, c: Cell)
    requires IdleInv(s) && s.phase == Open && c in s.queue && c.Valid() && c.command.IdleCommand?
    ensures Detach(s, tag, c).registry == s.registry
  {
    IdleKin(s, c);
    AskedIdleCell(c, Out(s), Batch(s.write), s.answered, s.spoiled);
  }

  // ---- When DONE is lost ---------------------------------------------------

  /**
   In the run `es` the flush of IDLE `id`'s first line found its DONE already queued:
   both the continuation request and a cancellation had been handled before it.
   */
  ghost predicate Overtaken(es: seq<Event>, id: nat)
    requires Possible(es)
  {
    es != [] &&
    var init, e := es[..|es| - 1], es[|es| - 1];
    var s := After(init);
    || Overtaken(init, id)
    || (e == DoWriteDone(true, false) && s.phase == Open && id in SpoiledIds(s.queue, Batch(s.write)))
  }

  lemma SpoiledByStep(s: Core, e: Event)
    requires Inv(s) && Enabled(s, e)
    ensures Step(s, e).spoiled ==
            if e == DoWriteDone(true, false) && s.phase == Open then s.spoiled + SpoiledIds(s.queue, Batch(s.write))
            else s.spoiled
  {
    hide Inv, SpoiledIds, BatchIds, Close, Abandon, Fatal, LoseConnection, FailConnection, RenderTag, StageAll, Waiter, Drain, Owner,
         CommandScoped, Cancel, WriteDone, ArmWrite, TaggedReply, ContinuationRequest;
    match e
    case DoClose => SpoiledByTeardown(s);
    case DoAbandon => SpoiledByTeardown(s);
    case DoLoseConnection => SpoiledByTeardown(s);
    case DoFailConnection => SpoiledByFailure(s);
    case DoMalformed => SpoiledByTeardown(s);
    case DoCancel(tag) => SpoiledByCancel(s, tag);
    case DoWriteDone(ok, quiet) => SpoiledByWrite(s, ok, quiet);
    case DoArmWrite => SpoiledByArm(s);
    case DoTagged(reply) => SpoiledByTag(s, reply);
    case DoContinuation => SpoiledByContinuation(s);
    case _ =>
  }

  lemma SpoiledByTeardown(s: Core)
    ensures Close(s).spoiled == s.spoiled && Abandon(s).spoiled == s.spoiled
    ensures s.read == Dispatching ==> Fatal(s).spoiled == s.spoiled
    ensures LoseConnection(s).spoiled == s.spoiled
  {
    hide Out, ConnectionLost;
    CloseIsDown(s);
    FatalIsDown(s);
    hide Fatal, LoseConnection, Only, Without, Endings, UnstagedIds, UnwrittenIds;
  }

  lemma SpoiledByFailure(s: Core)
    requires s.write == Failing
    ensures FailConnection(s).spoiled == s.spoiled
  {
    hide Out, FailConnection;
    FailureIsDown(s);
  }

  lemma SpoiledByCancel(s: Core, tag: string)
    ensures Cancel(s, tag).spoiled == s.spoiled
  {
    hide Only, Without, Endings, Cell.Unsent, Cell.IsWritten, Replace, Command.DoneAsked;
  }

  lemma SpoiledByArm(s: Core)
    requires s.write.Latched?
    ensures ArmWrite(s).spoiled == s.spoiled
  {
    RetireSpoils(s, Dropped);
    RetireSpoils(s, Failed);
    hide Retire;
  }

  lemma RetireSpoils(s: Core, ending: Ending)
    ensures Retire(s, ending).spoiled == s.spoiled
  {
    hide Only, Without, Endings, BatchIds;
  }

  lemma SpoiledByContinuation(s: Core)
    requires s.read == Dispatching
    ensures ContinuationRequest(s).spoiled == s.spoiled
  {
    hide Replace, Fatal, Lookup, Cell.Continue;
    if s.target == None {
      SpoiledByTeardown(s);
    } else if Lookup(s.queue, s.target.value) == None {
    } else {
    }
  }

  lemma SpoiledByTag(s: Core, tag: string)
    requires s.read == Dispatching
    ensures TaggedReply(s, tag).spoiled == s.spoiled
  {
    hide Only, Without, Endings, Fatal, Ids;
    if tag in s.registry {
      var id := s.registry[tag];
      var u := s.(registry := s.registry - {tag}, target := if s.target == Some(id) then None else s.target);
      if id !in Ids(s.queue) {
        SpoiledByTeardown(u);
        assert TaggedReply(s, tag) == Fatal(u);
      }
    }
  }

  lemma SpoiledByWrite(s: Core, ok: bool, quiet: bool)
    requires Inv(s) && Enabled(s, DoWriteDone(ok, quiet))
    ensures WriteDone(s, ok, quiet).spoiled ==
            if ok && !quiet && s.phase == Open then s.spoiled + SpoiledIds(s.queue, Batch(s.write)) else s.spoiled
  {
    if ok && !quiet && s.phase == Open {
      hide Inv, SpoiledIds, BatchIds, Only, Without, Endings, Waiter, FinishedIds;
    } else {
      QuietIsNotOpen(s);
      hide Inv, WriteDone, Out;
      WriteDoneDown(s, ok, quiet);
    }
  }

  lemma {:induction false} SpoiledIsOvertaken(es: seq<Event>, id: nat)
    requires Possible(es)
    ensures id in After(es).spoiled <==> Overtaken(es, id)
  {
    if es != [] {
      var init := es[..|es| - 1];
      SpoiledIsOvertaken(init, id);
      RunsKeep(init);
      hide Inv, Step, SpoiledIds;
      SpoiledByStep(After(init), es[|es| - 1]);
    }
  }

  /** An IDLE that believes its DONE was sent has sent it, unless its own first flush overtook it. */
  lemma DoneIsLostOnlyWhenOvertaken(es: seq<Event>, c: Cell)
    requires Possible(es)
    requires var s := After(es); s.phase == Open && c in s.queue && c.command.IdleCommand? && c.command.phase == DoneSent
    ensures DoneIn(Out(After(es)), c.id) <==> !Overtaken(es, c.id)
  {
    RunsKeepIdle(es);
    SpoiledIsOvertaken(es, c.id);
    var s := After(es);
    hide After, Overtaken, DoneIn;
    IdleKin(s, c);
  }

  // ---- A queued DONE is not forgotten ---------------------------------------

  /** IDLE `id` has its DONE queued and nothing of it staged. */
  ghost predicate Owes(s: Core, id: nat) {
    s.phase == Open && exists c :: c in s.queue && c.id == id && OwesDone(c)
  }

  predicate OwesDone(c: Cell) {
    c.command.IdleCommand? && c.command.phase == DonePending && !c.staged
  }

  /** DONE was handed on, or the tagged reply or teardown made it pointless. */
  ghost predicate Discharged(s: Core, id: nat) {
    s.phase != Open || id in s.replied || DoneIn(Out(s), id)
  }

  /** The phase only moves away from `Open`, and what was handed on stays so. */
  ghost predicate Grows(s: Core, t: Core) {
    s.replied <= t.replied && (t.phase == Open ==> s.phase == Open && Out(s) <= Out(t))
  }

  lemma SameGrows(s: Core, t: Core)
    requires s.replied <= t.replied && (t.phase == Open ==> s.phase == Open && Out(t) == Out(s))
    ensures Grows(s, t)
  {
    hide Out;
  }

  lemma TeardownGrows(s: Core)
    ensures Grows(s, Close(s)) && Grows(s, Abandon(s))
    ensures s.read == Dispatching ==> Grows(s, Fatal(s))
    ensures Grows(s, LoseConnection(s))
  {
    hide Out;
    CloseIsDown(s);
    FatalIsDown(s);
    hide Fatal, LoseConnection, Only, Without, Endings, UnstagedIds, UnwrittenIds, MaybeFinishClose;
  }

  lemma FailureGrows(s: Core)
    requires s.write == Failing
    ensures Grows(s, FailConnection(s))
  {
    hide Out, FailConnection;
    FailureIsDown(s);
  }

  lemma CancelGrows(s: Core, tag: string)
    ensures Grows(s, Cancel(s, tag))
  {
    CancelLeaves(s, tag);
    hide Cancel, Grows;
    SameGrows(s, Cancel(s, tag));
  }

  lemma KickGrows(s: Core)
    requires Inv(s)
    ensures Grows(s, Kick(s))
  {
    hide Inv, BatchIds, Waiter, Drain, StageAll;
  }

  lemma ArmGrows(s: Core)
    requires Inv(s) && s.write.Latched?
    ensures Grows(s, ArmWrite(s))
  {
    QuietIsNotOpen(s);
    hide Inv, Only, Without, Endings, BatchIds, Grows;
    SameGrows(s, ArmWrite(s));
  }

  lemma WriteGrows(s: Core, ok: bool, quiet: bool)
    requires Inv(s) && Enabled(s, DoWriteDone(ok, quiet))
    ensures Grows(s, WriteDone(s, ok, quiet))
  {
    QuietIsNotOpen(s);
    hide Inv, Grows, WriteDone, Out;
    if ok && !quiet && s.phase == Open {
      SettleGrows(s);
    } else {
      WriteDoneDown(s, ok, quiet);
    }
    SameGrows(s, WriteDone(s, ok, quiet));
  }

  lemma SettleGrows(s: Core)
    requires s.write.WriteArmed? && s.phase == Open
    ensures var t := WriteDone(s, true, false); Out(t) == Out(s) && t.replied == s.replied
  {
    hide Only, Without, Endings, BatchIds, Waiter, FlushAll, FinishedIds, SpoiledIds;
  }

  lemma TaggedGrows(s: Core, tag: string)
    requires s.read == Dispatching
    ensures Grows(s, TaggedReply(s, tag))
  {
    hide Only, Without, Endings, Fatal, Ids, RenderTag, Grows;
    if tag in s.registry {
      var id := s.registry[tag];
      var u := s.(registry := s.registry - {tag}, target := if s.target == Some(id) then None else s.target);
      FatalIsDown(u);
      assert Out(u) == Out(s) && u.replied == s.replied;
      if id !in Ids(s.queue) {
        assert TaggedReply(s, tag) == Fatal(u);
        hide Out;
      }
    }
    SameGrows(s, TaggedReply(s, tag));
  }

  lemma ContinuationGrows(s: Core)
    requires s.read == Dispatching
    ensures Grows(s, ContinuationRequest(s))
  {
    hide Fatal, Lookup, Replace, Cell.Continue, Grows;
    if s.target == None {
      TeardownGrows(s);
    } else {
      SameGrows(s, ContinuationRequest(s));
    }
  }

  /** Every step that only moves flags, the queue's tail or the absorbed lines. */
  lemma OtherGrows(s: Core, e: Event)
    requires Enabled(s, e) && IsLight(e)
    ensures Grows(s, Step(s, e))
  {
    LightSteps(s, e);
    hide Step, Enabled, Grows;
    SameGrows(s, Step(s, e));
  }

  lemma EnqueueGrows(s: Core, serial: nat, command: Command, stopSeen: bool)
    ensures Grows(s, Enqueue(s, serial, command, stopSeen))
  {
    EnqueueLeaves(s, serial, command, stopSeen);
    hide Enqueue, Grows;
    SameGrows(s, Enqueue(s, serial, command, stopSeen));
  }

  lemma StepGrows(s: Core, e: Event)
    requires Inv(s) && Enabled(s, e)
    ensures Grows(s, Step(s, e))
  {
    hide Inv, Grows, Close, Abandon, Fatal, LoseConnection, FailConnection, Cancel, Kick, WriteDone, ArmWrite, TaggedReply, ContinuationRequest,
         Enqueue, AllocateTag, PostKick, UntaggedReply, ReadDone, DecideRearm, ArmRead;
    match e
    case DoEnqueue(serial, command, stopSeen) => EnqueueGrows(s, serial, command, stopSeen);
    case DoClose => TeardownGrows(s);
    case DoAbandon => TeardownGrows(s);
    case DoLoseConnection => TeardownGrows(s);
    case DoFailConnection => FailureGrows(s);
    case DoMalformed => TeardownGrows(s);
    case DoCancel(tag) => CancelGrows(s, tag);
    case DoKick => KickGrows(s);
    case DoArmWrite => ArmGrows(s);
    case DoWriteDone(ok, quiet) => WriteGrows(s, ok, quiet);
    case DoTagged(reply) => TaggedGrows(s, reply);
    case DoContinuation => ContinuationGrows(s);
    case _ => OtherGrows(s, e);
  }

  lemma DischargedStays(s: Core, t: Core, id: nat)
    requires Grows(s, t) && Discharged(s, id)
    ensures Discharged(t, id)
  {
    hide Out;
    if t.phase == Open && DoneIn(Out(s), id) {
      var ch :| ch in Out(s) && ch.id == id && ch.index == 1;
      assert ch in Out(t);
    }
  }

  lemma OwingCell(s: Core, id: nat) returns (c: Cell)
    requires Owes(s, id)
    ensures s.phase == Open && c in s.queue && c.id == id && OwesDone(c)
  {
    c :| c in s.queue && c.id == id && OwesDone(c);
  }

  lemma CancelOwes(s: Core, tag: string, id: nat)
    requires Inv(s) && IdleInv(s) && Owes(s, id)
    ensures Owes(Cancel(s, tag), id)
  {
    ConservedIds(s.queue, s.log, |s.commands|);
    if tag in s.registry {
      var c := OwingCell(s, id);
      IdleKin(s, c);
      hide Sorted, Ids, Conserved, Serials, Staging, DropsAreAbandoned, Coherent, Routed, TornDown, IdleInv, IdleCell, Owes, RenderTag;
      var d := RegisteredCell(s.queue, s.registry, tag);
      if d.id == id {
        SameId(s.queue, c, d);
        CellsAreValid(s.queue, Batch(s.write), |s.commands|, c);
        AskAgain(s, tag, c);
      } else {
        DetachAnother(s, tag, c, d);
      }
    }
  }

  lemma AskAgain(s: Core, tag: string, c: Cell)
    requires IdleInv(s) && s.phase == Open && Sorted(s.queue) && c in s.queue && c.Valid() && OwesDone(c)
    ensures Owes(Detach(s, tag, c), c.id)
  {
    IdleKin(s, c);
    AskedIdleCell(c, Out(s), Batch(s.write), s.answered, s.spoiled);
    var d := c.(command := c.command.DoneAsked(), stopped := true);
    ReplaceMembers(s.queue, c, d);
    hide IdleInv, IdleCell, Sorted;
    assert d in Detach(s, tag, c).queue && OwesDone(d);
  }

  lemma DetachAnother(s: Core, tag: string, c: Cell, d: Cell)
    requires s.phase == Open && Sorted(s.queue) && c in s.queue && d in s.queue && c.id != d.id && OwesDone(c)
    ensures Owes(Detach(s, tag, d), c.id)
  {
    hide Sorted, Cell.Unsent, Cell.IsWritten, OwesDone, Owes, Command.DoneAsked, Replace;
    var asked := d.(detached := true);
    if d.command.IdleCommand? { asked := d.(command := d.command.DoneAsked(), stopped := true); }
    ReplaceMembers(s.queue, d, asked);
    StillOwes(Detach(s, tag, d), c);
  }

  lemma KickOwes(s: Core, id: nat)
    requires Inv(s) && Owes(s, id)
    ensures Owes(Kick(s), id) || Discharged(Kick(s), id)
  {
    var c := OwingCell(s, id);
    hide Sorted, Ids, Conserved, Serials, Staging, DropsAreAbandoned, Coherent, Routed, TornDown, Drain, BatchIds, Waiter, Owes;
    if s.write == Idle && Drain(s.queue) != [] {
      ConservedIds(s.queue, s.log, |s.commands|);
      DrainedCell(s.queue, c);
      var ids := BatchIds(Drain(s.queue));
      StagedImage(s.queue, ids, c);
      if id in ids {
        DoneInAppend(s.wire, Drain(s.queue), id);
      } else {
        StillOwes(Kick(s), c);
      }
    } else {
      assert Kick(s) == s;
    }
  }

  lemma StillOwes(s: Core, c: Cell)
    requires s.phase == Open && c in s.queue && OwesDone(c)
    ensures Owes(s, c.id)
  {
  }

  lemma SettleOwes(s: Core, id: nat)
    requires Inv(s) && Owes(s, id) && s.write.WriteArmed?
    ensures Owes(Settle(s), id)
  {
    var c := OwingCell(s, id);
    hide Sorted, Ids, Conserved, Serials, DropsAreAbandoned, Coherent, Routed, TornDown, BatchIds, Waiter, Owes, SpoiledIds;
    var ids := BatchIds(Batch(s.write));
    assert c.id !in ids;
    FlushedImage(s.queue, ids, c);
    assert id !in FinishedIds(FlushAll(s.queue, ids), ids);
    StillOwes(Settle(s), c);
  }

  /** What a tagged reply to a registered cell does. */
  lemma TaggedTakes(s: Core, tag: string, d: Cell)
    requires s.read == Dispatching && tag in s.registry && d in s.queue && d.id == s.registry[tag]
    ensures var t := TaggedReply(s, tag);
            t.phase == s.phase && t.replied == s.replied + {d.id} && t.queue == Without(s.queue, {d.id})
  {
    Queued(s.queue, d);
    hide Ids, Endings, Only, Without, Fatal;
  }

  lemma TaggedOwes(s: Core, tag: string, id: nat)
    requires Inv(s) && Owes(s, id) && s.read == Dispatching
    ensures Owes(TaggedReply(s, tag), id) || Discharged(TaggedReply(s, tag), id)
  {
    hide Inv, Sorted, Conserved, Staging, Coherent, Routed, Owes, DoneIn, Out, OwesDone, TaggedReply, Ids, Lookup, RenderTag;
    var c := OwingCell(s, id);
    Parts(s);
    if tag in s.registry {
      var d := RegisteredCell(s.queue, s.registry, tag);
      TaggedTakes(s, tag, d);
      if d.id != id {
        StillOwes(TaggedReply(s, tag), c);
      }
    } else {
      SameReply(s, tag);
    }
  }

  lemma SameReply(s: Core, tag: string)
    requires s.read == Dispatching && tag !in s.registry
    ensures TaggedReply(s, tag) == s
  {
  }

  lemma ContinuationOwes(s: Core, id: nat)
    requires Inv(s) && Owes(s, id) && s.read == Dispatching
    ensures Owes(ContinuationRequest(s), id) || Discharged(ContinuationRequest(s), id)
  {
    hide Inv, Sorted, Ids, Conserved, Staging, Coherent, Routed, Owes, DoneIn, Fresh, Fatal;
    var c := OwingCell(s, id);
    Parts(s);
    if s.target == None {
      hide Out;
      FatalIsDown(s);
    } else {
      var w := TargetCell(s.queue, s.target);
      if w.id == c.id { SameId(s.queue, w, c); }
      ContinueIdentity(w);
      ReplaceMembers(s.queue, w, w.Continue());
      StillOwes(ContinuationRequest(s), c);
    }
  }

  lemma StepOwes(s: Core, e: Event, id: nat)
    requires Inv(s) && IdleInv(s) && Enabled(s, e) && Owes(s, id)
    ensures Owes(Step(s, e), id) || Discharged(Step(s, e), id)
  {
    QuietIsNotOpen(s);
    var c := OwingCell(s, id);
    hide Inv, IdleInv, Owes, RenderTag, Owner, CommandScoped, Cancel, Kick, TaggedReply, ContinuationRequest, Settle,
         ConnectionLost, DoneIn, Out, Endings, Only, Without;
    match e
    case DoCancel(tag) => CancelOwes(s, tag, id);
    case DoKick => KickOwes(s, id);
    case DoTagged(reply) => TaggedOwes(s, reply, id);
    case DoContinuation => ContinuationOwes(s, id);
    case DoWriteDone(ok, quiet) =>
      if ok { SettleOwes(s, id); } else { WriteDoneDown(s, ok, quiet); }
    case DoClose => CloseIsDown(s);
    case DoAbandon => CloseIsDown(s);
    case DoLoseConnection => FatalIsDown(s);
    case DoFailConnection => FailureIsDown(s);
    case DoMalformed => FatalIsDown(s);
    case _ => if Step(s, e).phase == Open { StillOwes(Step(s, e), c); }
  }

  /** Once DONE is queued it stays queued until it is handed on, the reply arrives or the engine leaves `Open`. */
  lemma {:induction false} QueuedDoneIsNotForgotten(es: seq<Event>, n: nat, id: nat)
    requires Possible(es) && n <= |es| && Possible(es[..n]) && Owes(After(es[..n]), id)
    ensures Owes(After(es), id) || Discharged(After(es), id)
  {
    if n == |es| {
      assert es[..n] == es;
    } else {
      var init, e := es[..|es| - 1], es[|es| - 1];
      assert init[..n] == es[..n];
      QueuedDoneIsNotForgotten(init, n, id);
      RunsKeep(init);
      RunsKeepIdle(init);
      hide Inv, IdleInv, Step, Owes, Discharged, Grows;
      StepGrows(After(init), e);
      if Discharged(After(init), id) {
        DischargedStays(After(init), After(es), id);
      } else {
        StepOwes(After(init), e, id);
      }
    }
  }

  // ---- A run that loses DONE --------------------------------------------------

  /** A lone IDLE whose line is being written. */
  function LineArmed(line: string): Core {
    var c := Cell(0, 1, IdleCommand(IdleSent, line, true, false), true, false, false, false);
    var batch := [Chunk(0, 0, line)];
    Start().(counter := 2, queue := [c], registry := map[RenderTag(1) := 0], target := Some(0),
             write := WriteArmed(batch), wire := batch, commands := [IdleCommand(IdleSent, line, true, false)])
  }

  lemma OneIdleSubmitted(line: string) returns (es: seq<Event>)
    requires line != ""
    ensures Possible(es) && After(es) == LineArmed(line)
  {
    hide RenderTag, After, Possible, Drain, StageAll, BatchIds, Waiter;
    var idle := IdleCommand(IdleSent, line, true, false);
    es := SubmitOne(idle);
    KickOne(FreshCell(0, 1, idle));
    StageReady(es);
    es := es + [DoKick, DoArmWrite];
  }

  lemma KickOne(c: Cell)
    requires c.command.IdleCommand? && c.command.phase == IdleSent && c.NextSegment() != ""
    ensures Drain([c]) == [Chunk(c.id, 0, c.command.segment)]
    ensures StageAll([c], BatchIds(Drain([c]))) == [c.Stage()]
    ensures Waiter([c], Drain([c])) == Some(c.id)
  {
    var batch := [Chunk(c.id, 0, c.command.segment)];
    assert IsWall(c);
    assert Drain([c]) == batch + [];
    assert batch[0] in batch && c.id in BatchIds(batch);
    assert Lookup([c], c.id) == Some(c);
  }

  /** The same IDLE once the continuation request has been handled, with its command at `command`. */
  function Answered(line: string, command: Command, stopped: bool): Core {
    LineArmed(line).(
      read := Dispatching, target := None, answered := {0},
      queue := [Cell(0, 1, command, true, false, false, stopped)])
  }

  lemma OneIdleAnswered(line: string) returns (es: seq<Event>)
    requires line != ""
    ensures Possible(es) && After(es) == Answered(line, IdleCommand(Idling, line, true, false), false)
  {
    hide RenderTag, After, Possible;
    es := OneIdleSubmitted(line);
    Extend(es, DoReadDone);
    es := es + [DoReadDone];
    Extend(es, DoContinuation);
    es := es + [DoContinuation];
    var c := LineArmed(line).queue[0];
    assert Lookup([c], 0) == Some(c);
    assert Replace([c], c.Continue()) == [c.Continue()];
  }

  lemma OneIdleCancelled(line: string) returns (es: seq<Event>)
    requires line != ""
    ensures Possible(es) && After(es) == Answered(line, IdleCommand(DonePending, DONE_LINE, true, true), true)
  {
    hide RenderTag, After, Possible;
    es := OneIdleAnswered(line);
    Extend(es, DoCancel(RenderTag(1)));
    es := es + [DoCancel(RenderTag(1))];
    var idling := Cell(0, 1, IdleCommand(Idling, line, true, false), true, false, false, false);
    var asked := idling.(command := IdleCommand(DonePending, DONE_LINE, true, true), stopped := true);
    assert Lookup([idling], 0) == Some(idling);
    assert Replace([idling], asked) == [asked];
  }

  /** The continuation request and a cancellation are handled before the completion of the write: DONE is never sent. */
  lemma DoneCanBeLost(line: string) returns (es: seq<Event>)
    requires line != ""
    ensures Possible(es)
    ensures var s := After(es);
            && s.phase == Open && s.write == Idle && |s.queue| == 1 && s.queue[0].stopped
            && s.queue[0].command == IdleCommand(DoneSent, DONE_LINE, false, true)
            && s.wire == [Chunk(0, 0, line)] && Drain(s.queue) == []
  {
    hide RenderTag, After, Possible;
    es := OneIdleCancelled(line);
    Extend(es, DoWriteDone(true, false));
    es := es + [DoWriteDone(true, false)];
    FlushOne(Cell(0, 1, IdleCommand(DonePending, DONE_LINE, true, true), true, false, false, true), [Chunk(0, 0, line)]);
  }

  lemma FlushOne(c: Cell, batch: seq<Chunk>)
    requires c.staged && c.command.IdleCommand? && !c.detached && c.id in BatchIds(batch)
    ensures var q := FlushAll([c], BatchIds(batch));
            q == [c.Flush()] && Without(q, FinishedIds(q, BatchIds(batch))) == q && Drain(q) == []
  {
    var q := FlushAll([c], BatchIds(batch));
    assert q == [c.Flush()];
    assert FinishedIds(q, BatchIds(batch)) == {};
    assert q[1..] == [];
  }
}
