/** Cancelling a command before any of it was sent. */
module Cancellation {
  import opened Commands
  import opened Engine
  import opened EngineFrames
  import opened EngineInvariants
  import opened EngineSteps
  import opened EngineTheorems
  import opened WireOrder
  import opened Wrappers

  // ---- What one cancellation does -------------------------------------------

  /**
   A cell of which nothing was staged is withdrawn, with its one call made, exactly
   when it does not wait for a continuation. A waiting one stays: an IDLE remembers
   that it has to end, any other command is detached and will still be sent.
   */
  lemma CancelBeforeSending(es: seq<Event>, c: Cell)
    requires Possible(es) && After(es).phase == Open
    requires c in After(es).queue && !c.detached && Fresh(c)
    ensures var s := After(es);
            var t := Cancel(s, c.Tag());
            && t.wire == s.wire && t.write == s.write
            && (c.id !in Ids(t.queue) <==> !c.AwaitsContinuation())
            && (if !c.AwaitsContinuation() then
                  t.log == s.log + [Terminal(c.id, Stopped)] && t.registry == s.registry - {c.Tag()}
                else
                  t.log == s.log
                  && exists d :: d in t.queue && d.id == c.id && Fresh(d)
                       && (if c.command.IdleCommand? then
                             d.stopped && d.command.IdleCommand? && d.command.doneRequested && d.Tag() in t.registry
                           else d == c.(detached := true) && d.Tag() !in t.registry))
  {
    RunsKeep(es);
    var s := After(es);
    hide After, Inv, Sorted, Conserved, Staging, Coherent, Routed, Ids, Fresh, RenderTag, Detach;
    Parts(s);
    FreshUnsent(c);
    RegisteredTag(s.queue, s.registry, c);
    LookupFinds(s.queue, c);
    if !c.AwaitsContinuation() {
      WithdrawFresh(s, c);
    } else if c.command.IdleCommand? {
      AskFresh(s, c);
    } else {
      DetachFresh(s, c);
    }
  }

  lemma RegisteredTag(q: seq<Cell>, registry: map<string, nat>, c: Cell)
    requires Coherent(q, registry) && c in q && !c.detached
    ensures c.Tag() in registry && registry[c.Tag()] == c.id
  {
  }

  lemma FreshUnsent(c: Cell)
    requires Fresh(c)
    ensures c.Unsent() <==> !c.AwaitsContinuation()
    ensures !c.IsWritten()
  {
    if c.command.Segmented? {
      assert c.command.segs[0] in c.command.segs;
    }
  }

  lemma WithdrawFresh(s: Core, c: Cell)
    requires Sorted(s.queue) && c in s.queue && c.Unsent()
    ensures var t := Detach(s, c.Tag(), c);
            && t.wire == s.wire && t.write == s.write && c.id !in Ids(t.queue)
            && t.log == s.log + [Terminal(c.id, Stopped)] && t.registry == s.registry - {c.Tag()}
  {
    OnlyOne(s.queue, c);
    EndingOfOne(c, Stopped);
    hide Sorted, Cell.Unsent, RenderTag, Endings, Only;
  }

  lemma AskFresh(s: Core, c: Cell)
    requires Sorted(s.queue) && c in s.queue && Fresh(c) && c.command.IdleCommand? && !c.Unsent() && c.Tag() in s.registry
    ensures var t := Detach(s, c.Tag(), c);
            && t.wire == s.wire && t.write == s.write && t.log == s.log && c.id in Ids(t.queue)
            && exists d :: d in t.queue && d.id == c.id && Fresh(d) && d.stopped && d.command.IdleCommand?
                 && d.command.doneRequested && d.Tag() in t.registry
  {
    var d := c.(command := c.command.DoneAsked(), stopped := true);
    ReplaceMembers(s.queue, c, d);
    hide Sorted, Cell.Unsent, RenderTag;
  }

  lemma DetachFresh(s: Core, c: Cell)
    requires Sorted(s.queue) && c in s.queue && Fresh(c) && c.command.Segmented? && !c.Unsent() && !c.IsWritten()
    ensures var t := Detach(s, c.Tag(), c);
            && t.wire == s.wire && t.write == s.write && t.log == s.log && c.id in Ids(t.queue)
            && c.(detached := true) in t.queue && Fresh(c.(detached := true)) && c.Tag() !in t.registry
  {
    ReplaceMembers(s.queue, c, c.(detached := true));
    hide Sorted, Cell.Unsent, RenderTag;
  }

  // ---- A withdrawn command is never sent --------------------------------------

  predicate Touched(c: Cell) {
    c.staged || c.hasWritten
  }

  /** Every cell of `r` is new or a cell of `q` that has not become less sent. */
  ghost predicate Descends(q: seq<Cell>, r: seq<Cell>, n: nat) {
    forall d | d in r :: d.id == n || exists c :: c in q && c.id == d.id && (Touched(c) ==> Touched(d))
  }

  /** Cells come from submissions, chunks from the drain of queued cells. */
  ghost predicate Succeeds(s: Core, t: Core) {
    && Descends(s.queue, t.queue, |s.commands|) && |s.commands| <= |t.commands|
    && forall ch | ch in Out(t) :: ch in Out(s) || ch.id in Ids(s.queue)
  }

  lemma SameDescends(q: seq<Cell>, n: nat)
    ensures Descends(q, q, n)
  {
  }

  lemma FewerDescends(q: seq<Cell>, ids: set<nat>, n: nat)
    ensures Descends(q, Without(q, ids), n)
  {
  }

  lemma DescendsTwice(q: seq<Cell>, r: seq<Cell>, u: seq<Cell>, n: nat)
    requires Descends(q, r, n) && Descends(r, u, n)
    ensures Descends(q, u, n)
  {
    forall d | d in u && d.id != n ensures exists c :: c in q && c.id == d.id && (Touched(c) ==> Touched(d)) {
      var b :| b in r && b.id == d.id && (Touched(b) ==> Touched(d));
      var c :| c in q && c.id == b.id && (Touched(c) ==> Touched(b));
    }
  }

  lemma ReplacedDescends(q: seq<Cell>, c: Cell, d: Cell, n: nat)
    requires c in q && d.id == c.id && (Touched(c) ==> Touched(d))
    ensures Descends(q, Replace(q, d), n)
  {
    var r := Replace(q, d);
    forall x | x in r ensures exists y :: y in q && y.id == x.id && (Touched(y) ==> Touched(x)) {
      var i :| 0 <= i < |r| && r[i] == x;
      if q[i].id != d.id { assert q[i] in q; }
    }
  }

  lemma MovedDescends(q: seq<Cell>, ids: set<nat>, n: nat)
    ensures Descends(q, StageAll(q, ids), n) && Descends(q, FlushAll(q, ids), n)
  {
    forall x | x in StageAll(q, ids) ensures exists c :: c in q && c.id == x.id && (Touched(c) ==> Touched(x)) {
      var c := StagedMember(q, ids, x);
    }
    forall x | x in FlushAll(q, ids) ensures exists c :: c in q && c.id == x.id && (Touched(c) ==> Touched(x)) {
      var c := FlushedMember(q, ids, x);
    }
  }

  lemma AppendedDescends(q: seq<Cell>, cell: Cell)
    ensures Descends(q, q + [cell], cell.id)
  {
  }

  /** Steps that hand over nothing new. */
  lemma NothingNew(s: Core, t: Core)
    requires Descends(s.queue, t.queue, |s.commands|) && |s.commands| <= |t.commands|
    requires t.wire == s.wire && (t.write == s.write || !t.write.Latched?)
    ensures Succeeds(s, t)
  {
    hide Descends;
    assert forall ch | ch in s.wire :: ch in Out(s);
  }

  lemma FinishSucceeds(s: Core, u: Core)
    requires Succeeds(s, u)
    ensures Succeeds(s, MaybeFinishClose(u))
  {
    hide Descends;
  }

  /** Taking cells and leaving the chunks alone. */
  lemma TakeSucceeds(s: Core, ids: set<nat>, t: Core)
    requires t.queue == Without(s.queue, ids) && t.commands == s.commands
    requires t.wire == s.wire && (t.write == s.write || !t.write.Latched?)
    ensures Succeeds(s, t) && Succeeds(s, MaybeFinishClose(t))
  {
    FewerDescends(s.queue, ids, |s.commands|);
    hide Succeeds, Descends, MaybeFinishClose;
    NothingNew(s, t);
    FinishSucceeds(s, t);
  }

  lemma NothingAtAll(s: Core)
    ensures Succeeds(s, s)
  {
    SameDescends(s.queue, |s.commands|);
    hide Succeeds, Descends;
    NothingNew(s, s);
  }

  lemma LossSucceeds(s: Core)
    ensures Succeeds(s, ConnectionLost(s))
  {
    hide Succeeds, UnstagedIds, Only, Without, Endings, MaybeFinishClose;
    NothingAtAll(s);
    TakeSucceeds(s, UnstagedIds(s.queue), Take(s, UnstagedIds(s.queue), Failed).(
      phase := Draining, registry := map[], target := None, lost := true));
  }

  lemma SucceedsThrough(s: Core, t: Core, u: Core)
    requires Succeeds(s, t) && u.queue == t.queue && |t.commands| <= |u.commands| && Out(u) == Out(t)
    ensures Succeeds(s, u)
  {
    hide Descends;
  }

  lemma FatalSucceeds(s: Core)
    ensures s.read == Dispatching ==> Succeeds(s, Fatal(s))
    ensures Succeeds(s, LoseConnection(s))
  {
    hide Succeeds, ConnectionLost;
    LossSucceeds(s);
    if s.read == Dispatching { SucceedsThrough(s, ConnectionLost(s), Fatal(s)); }
    var quiet := s.(read := Quiet);
    LossSucceeds(quiet);
    ReadIsNoQueue(s, quiet, ConnectionLost(quiet));
  }

  lemma FailureSucceeds(s: Core)
    requires s.write == Failing
    ensures Succeeds(s, FailConnection(s))
  {
    hide Succeeds, ConnectionLost;
    var idle := s.(write := Idle);
    LossSucceeds(idle);
    ReadIsNoQueue(s, idle, ConnectionLost(idle));
  }

  lemma ReadIsNoQueue(s: Core, u: Core, t: Core)
    requires Succeeds(u, t) && u.queue == s.queue && Out(u) == Out(s) && |s.commands| == |u.commands|
    ensures Succeeds(s, t)
  {
    hide Descends, Out;
  }

  lemma CloseSucceeds(s: Core)
    ensures Succeeds(s, Close(s)) && Succeeds(s, Abandon(s))
  {
    hide Succeeds, UnstagedIds, UnwrittenIds, Only, Without, Endings, MaybeFinishClose;
    NothingAtAll(s);
    var taken := UnwrittenIds(s.queue);
    TakeSucceeds(s, taken, Take(s, taken, Failed).(
      phase := Draining, target := None, registry := s.registry - (set c | c in Only(s.queue, taken) :: c.Tag())));
    TakeSucceeds(s, UnstagedIds(s.queue), Take(s, UnstagedIds(s.queue), Dropped).(
      phase := Draining, abandoned := true, target := None, registry := map[]));
  }

  lemma EnqueueSucceeds(s: Core, serial: nat, command: Command, stopSeen: bool)
    ensures Succeeds(s, Enqueue(s, serial, command, stopSeen))
  {
    var cell := Cell(|s.commands|, serial, command, false, false, false, false);
    AppendedDescends(s.queue, cell);
    SameDescends(s.queue, |s.commands|);
    hide Descends, Succeeds, RenderTag, Emplace;
    NothingNew(s, Enqueue(s, serial, command, stopSeen));
  }

  lemma DetachSucceeds(s: Core, tag: string, c: Cell)
    requires c in s.queue
    ensures Succeeds(s, Detach(s, tag, c))
  {
    hide Succeeds, Cell.Unsent, Cell.IsWritten, Only, Without, Endings, Replace, Command.DoneAsked, MaybeFinishClose;
    if c.Unsent() || (!c.command.IdleCommand? && c.IsWritten()) {
      TakeSucceeds(s, {c.id}, Take(s, {c.id}, Stopped).(registry := s.registry - {tag}));
    } else if c.command.IdleCommand? {
      ReplaceSucceeds(s, c, c.(command := c.command.DoneAsked(), stopped := true), s.registry);
    } else {
      ReplaceSucceeds(s, c, c.(detached := true), s.registry - {tag});
    }
  }

  lemma ReplaceSucceeds(s: Core, c: Cell, d: Cell, registry: map<string, nat>)
    requires c in s.queue && d.id == c.id && d.staged == c.staged && d.hasWritten == c.hasWritten
    ensures Succeeds(s, s.(queue := Replace(s.queue, d), registry := registry))
    ensures Succeeds(s, s.(queue := Replace(s.queue, d)))
  {
    TouchedAsBefore(c, d);
    ReplacedDescends(s.queue, c, d, |s.commands|);
    hide Succeeds, Descends, Replace, Touched;
    NothingNew(s, s.(queue := Replace(s.queue, d), registry := registry));
    NothingNew(s, s.(queue := Replace(s.queue, d)));
  }

  lemma TouchedAsBefore(c: Cell, d: Cell)
    requires d.staged == c.staged && d.hasWritten == c.hasWritten
    ensures Touched(c) ==> Touched(d)
  {
  }

  lemma CancelSucceeds(s: Core, tag: string)
    ensures Succeeds(s, Cancel(s, tag))
  {
    SameDescends(s.queue, |s.commands|);
    NothingNew(s, s);
    hide Succeeds, Detach, Lookup;
    if s.phase == Open && tag in s.registry && Lookup(s.queue, s.registry[tag]).Some? {
      LookupIsQueued(s.queue, s.registry[tag]);
      DetachSucceeds(s, tag, Lookup(s.queue, s.registry[tag]).value);
    }
  }

  lemma LookupIsQueued(q: seq<Cell>, id: nat)
    ensures Lookup(q, id).Some? ==> Lookup(q, id).value in q && Lookup(q, id).value.id == id
  {
  }

  lemma KickSucceeds(s: Core)
    requires Inv(s)
    ensures Succeeds(s, Kick(s))
  {
    Parts(s);
    hide Inv, Sorted, Conserved, Staging, Coherent, Routed, Drain, Waiter, StageAll, Ids, Descends;
    SameDescends(s.queue, |s.commands|);
    if s.phase == Open && s.write == Idle && Drain(s.queue) != [] {
      MovedDescends(s.queue, BatchIds(Drain(s.queue)), |s.commands|);
      DrainChunks(s.queue);
      forall ch | ch in Drain(s.queue) ensures ch.id in Ids(s.queue) {
        assert ch.id in BatchIds(Drain(s.queue));
      }
    }
  }

  lemma ArmSucceeds(s: Core)
    requires Inv(s) && s.write.Latched?
    ensures Succeeds(s, ArmWrite(s))
  {
    QuietIsNotOpen(s);
    hide Inv, Descends, BatchIds, Only, Without, Endings;
    SameDescends(s.queue, |s.commands|);
    if s.phase != Open {
      hide Succeeds;
      FewerDescends(s.queue, BatchIds(s.write.batch), |s.commands|);
      NothingNew(s, ArmWrite(s));
    }
  }

  lemma RetireSucceeds(s: Core, ending: Ending)
    requires s.write.WriteArmed?
    ensures Succeeds(s, Retire(s, ending))
  {
    hide Succeeds, BatchIds, Only, Without, Endings, MaybeFinishClose;
    TakeSucceeds(s, BatchIds(s.write.batch), Take(s, BatchIds(s.write.batch), ending).(write := Idle));
  }

  lemma SettleSucceeds(s: Core)
    requires s.write.WriteArmed?
    ensures Succeeds(s, Settle(s))
  {
    hide Succeeds, Descends, BatchIds, Only, Without, Endings, FlushAll, FinishedIds, Waiter, SpoiledIds;
    var ids := BatchIds(s.write.batch);
    var r := FlushAll(s.queue, ids);
    MovedDescends(s.queue, ids, |s.commands|);
    FewerDescends(r, FinishedIds(r, ids), |s.commands|);
    DescendsTwice(s.queue, r, Without(r, FinishedIds(r, ids)), |s.commands|);
    NothingNew(s, Settle(s));
  }

  lemma WriteFailedSucceeds(s: Core)
    requires s.write.WriteArmed?
    ensures Succeeds(s, WriteDone(s, false, false))
  {
    hide Succeeds, Descends, BatchIds, Only, Without, Endings, ConnectionLost;
    var rest := Without(s.queue, BatchIds(s.write.batch));
    var u := s.(write := Idle, queue := rest);
    FewerDescends(s.queue, BatchIds(s.write.batch), |s.commands|);
    LossQueue(u);
    DescendsTwice(s.queue, rest, ConnectionLost(u).queue, |s.commands|);
    NothingNew(s, WriteDone(s, false, false));
  }

  lemma FinishSame(s: Core)
    ensures var t := MaybeFinishClose(s);
            t.queue == s.queue && t.commands == s.commands && t.wire == s.wire && t.write == s.write
  {
  }

  lemma LossQueue(s: Core)
    ensures var t := ConnectionLost(s);
            Descends(s.queue, t.queue, |s.commands|) && t.commands == s.commands && t.wire == s.wire && t.write == s.write
  {
    FewerDescends(s.queue, UnstagedIds(s.queue), |s.commands|);
    SameDescends(s.queue, |s.commands|);
    hide Descends, UnstagedIds, Only, Without, Endings, MaybeFinishClose;
    FinishSame(Take(s, UnstagedIds(s.queue), Failed).(
      phase := Draining, registry := map[], target := None, lost := true));
  }

  lemma WriteSucceeds(s: Core, ok: bool, quiet: bool)
    requires Enabled(s, DoWriteDone(ok, quiet))
    ensures Succeeds(s, WriteDone(s, ok, quiet))
  {
    if quiet { RetireSucceeds(s, Dropped); }
    else if ok && s.phase == Open { SettleSucceeds(s); }
    else if ok { RetireSucceeds(s, Failed); }
    else { WriteFailedSucceeds(s); }
    hide Retire, Settle, ConnectionLost, Succeeds;
  }

  lemma TaggedSucceeds(s: Core, tag: string)
    requires s.read == Dispatching
    ensures Succeeds(s, TaggedReply(s, tag))
  {
    hide Only, Without, Endings, Fatal, Ids, RenderTag, Succeeds, Descends;
    SameDescends(s.queue, |s.commands|);
    if tag in s.registry {
      var id := s.registry[tag];
      var u := s.(registry := s.registry - {tag}, target := if s.target == Some(id) then None else s.target);
      if id !in Ids(s.queue) {
        FatalSucceeds(u);
        ReadIsNoQueue(s, u, Fatal(u));
        assert TaggedReply(s, tag) == Fatal(u);
      } else {
        FewerDescends(s.queue, {id}, |s.commands|);
        NothingNew(s, TaggedReply(s, tag));
      }
    } else {
      NothingNew(s, s);
    }
  }

  lemma ContinuationSucceeds(s: Core)
    requires s.read == Dispatching
    ensures Succeeds(s, ContinuationRequest(s))
  {
    hide Fatal, Lookup, Replace, Succeeds, Descends;
    if s.target == None {
      FatalSucceeds(s);
    } else {
      LookupIsQueued(s.queue, s.target.value);
      SameDescends(s.queue, |s.commands|);
      if Lookup(s.queue, s.target.value).Some? {
        var c := Lookup(s.queue, s.target.value).value;
        ReplacedDescends(s.queue, c, c.Continue(), |s.commands|);
        hide Cell.Continue;
      }
      NothingNew(s, ContinuationRequest(s));
    }
  }

  lemma OtherSucceeds(s: Core, e: Event)
    requires Enabled(s, e) && IsLight(e)
    ensures Succeeds(s, Step(s, e))
  {
    LightSteps(s, e);
    hide Succeeds, Descends, Step, Enabled;
    SameDescends(s.queue, |s.commands|);
    NothingNew(s, Step(s, e));
  }

  lemma StepSucceeds(s: Core, e: Event)
    requires Inv(s) && Enabled(s, e)
    ensures Succeeds(s, Step(s, e))
  {
    hide Inv, Succeeds, Close, Abandon, Fatal, LoseConnection, FailConnection, Cancel, Kick, WriteDone, ArmWrite, TaggedReply, ContinuationRequest,
         Enqueue, AllocateTag, PostKick, UntaggedReply, ReadDone, DecideRearm, ArmRead;
    match e
    case DoEnqueue(serial, command, stopSeen) => EnqueueSucceeds(s, serial, command, stopSeen);
    case DoClose => CloseSucceeds(s);
    case DoAbandon => CloseSucceeds(s);
    case DoLoseConnection => FatalSucceeds(s);
    case DoFailConnection => FailureSucceeds(s);
    case DoMalformed => FatalSucceeds(s);
    case DoCancel(tag) => CancelSucceeds(s, tag);
    case DoKick => KickSucceeds(s);
    case DoArmWrite => ArmSucceeds(s);
    case DoWriteDone(ok, quiet) => WriteSucceeds(s, ok, quiet);
    case DoTagged(reply) => TaggedSucceeds(s, reply);
    case DoContinuation => ContinuationSucceeds(s);
    case _ => OtherSucceeds(s, e);
  }

  // ---- Over whole runs ----------------------------------------------------------

  /** Nothing of cell `id` was handed on. */
  ghost predicate Unheard(out: seq<Chunk>, id: nat) {
    forall ch | ch in out :: ch.id != id
  }

  /** Only cells that were staged or written have chunks. */
  ghost predicate Marked(s: Core) {
    && (forall ch | ch in Out(s) :: ch.id < |s.commands|)
    && (forall c | c in s.queue :: Touched(c) || Unheard(Out(s), c.id))
  }

  lemma KickMarks(s: Core)
    requires Inv(s) && Marked(s)
    ensures Marked(Kick(s))
  {
    Parts(s);
    hide Inv, Sorted, Conserved, Staging, Coherent, Routed, Drain, Waiter;
    var q, batch := s.queue, Drain(s.queue);
    if s.phase == Open && s.write == Idle && batch != [] {
      DrainChunks(q);
      forall ch | ch in batch ensures ch.id in BatchIds(batch) && ch.id < |s.commands| {
      }
      forall d | d in StageAll(q, BatchIds(batch)) ensures Touched(d) || Unheard(s.wire + batch, d.id) {
        var c := StagedMember(q, BatchIds(batch), d);
      }
    } else {
      assert Kick(s) == s;
    }
  }

  lemma SuccessorMarks(s: Core, t: Core)
    requires Inv(s) && Marked(s) && Succeeds(s, t) && forall ch | ch in Out(t) :: ch in Out(s)
    ensures Marked(t)
  {
    hide Inv, Out;
    forall d | d in t.queue ensures Touched(d) || Unheard(Out(t), d.id) {
      if d.id != |s.commands| {
        var c :| c in s.queue && c.id == d.id && (Touched(c) ==> Touched(d));
      }
    }
  }

  /** Every step but a kick hands over nothing that was not staged before. */
  lemma OnlyKicksStage(s: Core, e: Event)
    requires Inv(s) && Enabled(s, e) && !e.DoKick?
    ensures forall ch | ch in Out(Step(s, e)) :: ch in Out(s)
  {
    StepOut(s, e);
    hide Step;
    assert forall ch | ch in s.wire :: ch in Out(s);
  }

  /** What was staged is unchanged, or dropped again by a write that was never armed. */
  lemma StepOut(s: Core, e: Event)
    requires Inv(s) && Enabled(s, e) && !e.DoKick?
    ensures Out(Step(s, e)) == Out(s) || Out(Step(s, e)) == s.wire
  {
    hide Inv, Out, Close, Abandon, Fatal, LoseConnection, FailConnection, Cancel, WriteDone, TaggedReply, ContinuationRequest, ArmWrite,
         Enqueue, AllocateTag, PostKick, UntaggedReply, ReadDone, DecideRearm, ArmRead;
    match e
    case DoClose => if s.phase == Open { CloseIsDown(s); } else { CloseStays(s); }
    case DoAbandon => if s.phase != Closed { CloseIsDown(s); } else { CloseStays(s); }
    case DoLoseConnection => FatalIsDown(s);
    case DoFailConnection => FailureIsDown(s);
    case DoMalformed => FatalIsDown(s);
    case DoCancel(tag) => CancelOut(s, tag);
    case DoWriteDone(ok, quiet) => WriteOut(s, ok, quiet);
    case DoArmWrite => ArmOut(s);
    case DoTagged(reply) => TaggedOut(s, reply);
    case DoContinuation => ContinuationOut(s);
    case DoEnqueue(serial, command, stopSeen) => EnqueueOut(s, serial, command, stopSeen);
    case _ => OtherOut(s, e);
  }

  lemma WriteOut(s: Core, ok: bool, quiet: bool)
    requires Inv(s) && Enabled(s, DoWriteDone(ok, quiet))
    ensures var t := WriteDone(s, ok, quiet); Out(t) == Out(s) || Out(t) == s.wire
  {
    QuietIsNotOpen(s);
    hide Inv, Out, WriteDone;
    if quiet || !ok || s.phase != Open { WriteDoneDown(s, ok, quiet); } else { SettleOut(s); }
  }

  lemma ArmOut(s: Core)
    requires Inv(s) && s.write.Latched?
    ensures Out(ArmWrite(s)) == Out(s) || Out(ArmWrite(s)) == s.wire
  {
    QuietIsNotOpen(s);
    hide Inv, Only, Without, Endings, BatchIds;
  }

  lemma OtherOut(s: Core, e: Event)
    requires Enabled(s, e)
    requires IsLight(e)
    ensures Out(Step(s, e)) == Out(s)
  {
    LightSteps(s, e);
    hide Out, Step, Enabled;
    OutSame(s, Step(s, e));
  }

  lemma EnqueueOut(s: Core, serial: nat, command: Command, stopSeen: bool)
    ensures Out(Enqueue(s, serial, command, stopSeen)) == Out(s)
  {
    EnqueueLeaves(s, serial, command, stopSeen);
    hide Out, Enqueue;
    OutSame(s, Enqueue(s, serial, command, stopSeen));
  }

  lemma CloseStays(s: Core)
    ensures s.phase != Open ==> Close(s) == s
    ensures s.phase == Closed ==> Abandon(s) == s
  {
  }

  lemma CancelOut(s: Core, tag: string)
    ensures Out(Cancel(s, tag)) == Out(s)
  {
    CancelLeaves(s, tag);
    hide Cancel, Out;
    OutSame(s, Cancel(s, tag));
  }

  lemma SettleOut(s: Core)
    requires s.write.WriteArmed? && s.phase == Open
    ensures Out(WriteDone(s, true, false)) == s.wire
  {
    hide Only, Without, Endings, BatchIds, Waiter, FlushAll, FinishedIds, SpoiledIds;
  }

  lemma OutSame(s: Core, t: Core)
    requires t.wire == s.wire && t.write == s.write
    ensures Out(t) == Out(s)
  {
  }

  lemma TaggedOut(s: Core, tag: string)
    requires s.read == Dispatching
    ensures Out(TaggedReply(s, tag)) == Out(s)
  {
    hide Only, Without, Endings, Fatal, Ids, RenderTag, Out;
    if tag in s.registry {
      var id := s.registry[tag];
      var u := s.(registry := s.registry - {tag}, target := if s.target == Some(id) then None else s.target);
      OutSame(s, u);
      if id !in Ids(s.queue) {
        FatalIsDown(u);
        assert TaggedReply(s, tag) == Fatal(u);
      } else {
        OutSame(s, TaggedReply(s, tag));
      }
    }
  }

  lemma ContinuationOut(s: Core)
    requires s.read == Dispatching
    ensures Out(ContinuationRequest(s)) == Out(s)
  {
    hide Fatal, Lookup, Replace, Cell.Continue;
    FatalIsDown(s);
    if s.target == None {
    } else if Lookup(s.queue, s.target.value) == None {
    } else {
    }
  }

  lemma {:induction false} RunsKeepMarks(es: seq<Event>)
    requires Possible(es)
    ensures Marked(After(es))
  {
    if es != [] {
      var init, e := es[..|es| - 1], es[|es| - 1];
      hide Inv, Step, Marked, Succeeds, Kick;
      RunsKeepMarks(init);
      RunsKeep(init);
      if e.DoKick? {
        KickMarks(After(init));
        KickIsAStep(After(init));
      } else {
        StepSucceeds(After(init), e);
        OnlyKicksStage(After(init), e);
        SuccessorMarks(After(init), After(es));
      }
    }
  }

  lemma KickIsAStep(s: Core)
    ensures Step(s, DoKick) == Kick(s)
  {
  }

  /** Cell `id` left the queue and nothing of it was handed on. */
  ghost predicate Silenced(s: Core, id: nat) {
    id < |s.commands| && id !in Ids(s.queue) && Unheard(Out(s), id)
  }

  lemma SilenceLasts(s: Core, t: Core, id: nat)
    requires Silenced(s, id) && Succeeds(s, t)
    ensures Silenced(t, id)
  {
    hide Out;
    if id in Ids(t.queue) {
      var d :| d in t.queue && d.id == id;
      var c :| c in s.queue && c.id == d.id;
    }
  }

  lemma {:induction false} RunsKeepSilence(es: seq<Event>, n: nat, id: nat)
    requires Possible(es) && n <= |es| && Possible(es[..n]) && Silenced(After(es[..n]), id)
    ensures Silenced(After(es), id)
  {
    if n == |es| {
      assert es[..n] == es;
    } else {
      var init := es[..|es| - 1];
      assert init[..n] == es[..n];
      hide Inv, Step, Silenced, Succeeds;
      RunsKeepSilence(init, n, id);
      RunsKeep(init);
      StepSucceeds(After(init), es[|es| - 1]);
      SilenceLasts(After(init), After(es), id);
    }
  }

  lemma CancelSilences(es: seq<Event>, c: Cell)
    requires Possible(es)
    requires var s := After(es);
             s.phase == Open && c in s.queue && !c.detached && Fresh(c) && !c.AwaitsContinuation()
    ensures Silenced(Cancel(After(es), c.Tag()), c.id)
  {
    CancelBeforeSending(es, c);
    RunsKeep(es);
    RunsKeepMarks(es);
    var s := After(es);
    hide After, Possible, Cancel, RenderTag, Fresh, Inv, Sorted, Conserved, Staging, Coherent, Routed, Ids, Out;
    Parts(s);
    FreshIsUntouched(c);
    CancelOut(s, c.Tag());
    CancelSucceeds(s, c.Tag());
  }

  /**
   A command that never waits for a continuation and is cancelled before any of it was
   staged puts nothing on the wire, whatever happens before and after.
   */
  lemma CancelledBeforeSendingIsSilent(es: seq<Event>, n: nat, c: Cell)
    requires Possible(es) && n < |es| && Possible(es[..n]) && Possible(es[..n + 1])
    requires var s := After(es[..n]);
             s.phase == Open && c in s.queue && !c.detached && Fresh(c) && !c.AwaitsContinuation()
    requires es[n] == DoCancel(c.Tag())
    ensures Unheard(After(es).wire, c.id)
  {
    var before, upTo := es[..n], es[..n + 1];
    hide Step, RenderTag, Fresh, Unheard;
    assert upTo == before + [DoCancel(c.Tag())];
    assert Enabled(After(before), DoCancel(c.Tag()));
    Extend(before, DoCancel(c.Tag()));
    CancelSilences(before, c);
    CancelIsAStep(After(before), c.Tag());
    hide After, Possible, Silenced;
    RunsKeepSilence(es, n + 1, c.id);
    SilentWire(After(es), c.id);
  }

  lemma CancelIsAStep(s: Core, tag: string)
    ensures Step(s, DoCancel(tag)) == Cancel(s, tag)
  {
  }

  lemma SilentWire(s: Core, id: nat)
    requires Silenced(s, id)
    ensures Unheard(s.wire, id)
  {
    assert forall ch | ch in s.wire :: ch in Out(s);
  }

  lemma FreshIsUntouched(c: Cell)
    requires Fresh(c)
    ensures !Touched(c)
  {
  }

  /** A detached literal command at the head of the queue is the first thing the next write carries. */
  lemma DetachedLiteralIsStillSent(es: seq<Event>, c: Cell)
    requires Possible(es) && After(es).phase == Open && After(es).write == Idle
    requires After(es).queue != [] && After(es).queue[0] == c
    requires !c.detached && Fresh(c) && c.command.Segmented? && c.AwaitsContinuation()
    ensures var t := Kick(Cancel(After(es), c.Tag()));
            t.write.Latched? && t.write.batch != [] && t.write.batch[0] == Chunk(c.id, 0, c.command.segs[0])
  {
    RunsKeep(es);
    var s := After(es);
    hide After, RenderTag, Inv, Conserved, Staging, Coherent, Routed, Cancel, Kick, Fresh, Sorted;
    Parts(s);
    assert c in s.queue;
    RegisteredTag(s.queue, s.registry, c);
    CancelHead(s, c);
    KickHead(Cancel(s, c.Tag()), c.(detached := true));
  }

  lemma CancelHead(s: Core, c: Cell)
    requires Sorted(s.queue) && s.phase == Open && s.queue != [] && s.queue[0] == c && Fresh(c) && c.command.Segmented?
    requires c.AwaitsContinuation() && c.Tag() in s.registry && s.registry[c.Tag()] == c.id
    ensures var t := Cancel(s, c.Tag());
            t.phase == Open && t.write == s.write && t.queue != [] && t.queue[0] == c.(detached := true)
  {
    assert c in s.queue;
    LookupFinds(s.queue, c);
    FreshUnsent(c);
    var d := c.(detached := true);
    assert Replace(s.queue, d)[0] == d;
    hide Sorted, RenderTag, Cell.Unsent, Cell.IsWritten, Replace, Lookup;
  }

  lemma KickHead(s: Core, d: Cell)
    requires s.phase == Open && s.write == Idle && s.queue != [] && s.queue[0] == d && Fresh(d) && d.command.Segmented?
    ensures var t := Kick(s);
            t.write.Latched? && t.write.batch != [] && t.write.batch[0] == Chunk(d.id, 0, d.command.segs[0])
  {
    assert d.command.segs[0] in d.command.segs;
    assert NextChunk(d) == Chunk(d.id, 0, d.command.segs[0]);
    assert Drain(s.queue)[0] == NextChunk(d);
    hide Drain, Waiter, StageAll, BatchIds;
  }
}
