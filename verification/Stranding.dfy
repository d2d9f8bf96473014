/**
 Which commands an orderly close leaves without an answer: those written when it came, never
 answered since, on an engine that was closed before any `connection_lost` or abandonment.
 */
module Stranding {
  import opened Commands
  import opened Engine
  import opened EngineFrames
  import opened EngineInvariants
  import opened EngineSteps
  import opened EngineTheorems
  import opened Teardown
  import opened WireOrder
  import opened Wrappers

  // ---- Who is left behind ------------------------------------------------------

  /** The commands that have sent everything and are not being written. */
  function WrittenIds(q: seq<Cell>): set<nat> {
    set c | c in q && c.IsWritten() :: c.id
  }

  /** Cells that a tagged reply took have had their call. */
  ghost predicate RepliesLogged(s: Core) {
    s.replied <= LogIds(s.log)
  }

  lemma LogIdsGrow(a: seq<Terminal>, b: seq<Terminal>)
    requires a <= b
    ensures LogIds(a) <= LogIds(b)
  {
    forall t | t in a ensures t in b {
      StaysLogged(a, b, t);
    }
  }

  lemma LossReplies(s: Core)
    ensures ConnectionLost(s).replied == s.replied
  {
    LossKeepsReplies(s);
  }

  lemma TeardownReplies(s: Core)
    ensures Close(s).replied == s.replied && Abandon(s).replied == s.replied && LoseConnection(s).replied == s.replied
    ensures s.read == Dispatching ==> Fatal(s).replied == s.replied
  {
    LossReplies(s);
    LossReplies(s.(read := Quiet));
    hide Only, Without, Endings, UnstagedIds, UnwrittenIds, ConnectionLost;
  }

  lemma RetireReplies(s: Core, ending: Ending)
    ensures Retire(s, ending).replied == s.replied
  {
    hide Only, Without, Endings, BatchIds;
  }

  lemma WriteReplies(s: Core, ok: bool, quiet: bool)
    requires Enabled(s, DoWriteDone(ok, quiet))
    ensures WriteDone(s, ok, quiet).replied == s.replied
  {
    RetireReplies(s, Dropped);
    RetireReplies(s, Failed);
    if s.phase == Open { LossReplies(s.(write := Idle, queue := Without(s.queue, BatchIds(Batch(s.write))))); }
    hide Retire, ConnectionLost, Only, Without, Endings, BatchIds, FlushAll, FinishedIds, SpoiledIds, Waiter;
  }

  lemma FailureReplies(s: Core)
    ensures FailConnection(s).replied == s.replied
  {
    LossReplies(s.(write := Idle));
    hide ConnectionLost;
  }

  lemma ContinuationReplies(s: Core)
    requires s.read == Dispatching
    ensures ContinuationRequest(s).replied == s.replied
  {
    if s.target == None {
      TeardownReplies(s);
      hide Fatal;
    } else {
      hide Fatal, Lookup, Replace, Cell.Continue;
      var r := Lookup(s.queue, s.target.value);
      if r.None? {
        assert ContinuationRequest(s) == s.(target := None);
      }
    }
  }

  lemma KickReplies(s: Core)
    ensures Kick(s).replied == s.replied
  {
    hide Drain, StageAll, BatchIds, Waiter;
  }

  /** Only a tagged reply adds to the record. */
  lemma RepliesStay(s: Core, e: Event)
    requires Enabled(s, e) && !e.DoTagged?
    ensures Step(s, e).replied == s.replied
  {
    hide Close, Abandon, Fatal, LoseConnection, FailConnection, Cancel, Kick, WriteDone, ArmWrite, ContinuationRequest, Enqueue, Retire,
         AllocateTag, PostKick, UntaggedReply, ReadDone, ReadFailed, DecideRearm, ArmRead;
    match e
    case DoClose => TeardownReplies(s);
    case DoAbandon => TeardownReplies(s);
    case DoLoseConnection => TeardownReplies(s);
    case DoFailConnection => FailureReplies(s);
    case DoMalformed => TeardownReplies(s);
    case DoCancel(tag) => CancelLeaves(s, tag);
    case DoKick => KickReplies(s);
    case DoArmWrite => ArmReplies(s);
    case DoWriteDone(ok, quiet) => WriteReplies(s, ok, quiet);
    case DoContinuation => ContinuationReplies(s);
    case DoEnqueue(serial, command, stopSeen) => EnqueueLeaves(s, serial, command, stopSeen);
    case _ => LightSteps(s, e);
  }

  lemma ArmReplies(s: Core)
    requires s.write.Latched?
    ensures ArmWrite(s).replied == s.replied
  {
    RetireReplies(s, Dropped);
    RetireReplies(s, Failed);
    hide Retire;
  }

  // ---- Replies are calls -----------------------------------------------------------

  /** A tagged reply takes its cell and calls it, changes nothing, or is fatal. */
  lemma TaggedCases(s: Core, reply: string)
    requires s.read == Dispatching && s.phase != Closed
    ensures var t := TaggedReply(s, reply);
            if reply in s.registry && s.registry[reply] in Ids(s.queue) then
              var id := s.registry[reply];
              && t.phase == s.phase && t.lost == s.lost && t.abandoned == s.abandoned && t.replied == s.replied + {id}
              && t.queue == Without(s.queue, {id}) && t.log == s.log + Endings(Only(s.queue, {id}), Tagged)
            else t.replied == s.replied && (t == s || t.lost)
  {
    hide Without, Only, Endings, Fatal, Ids;
    if reply in s.registry {
      var id := s.registry[reply];
      var u := s.(registry := s.registry - {reply}, target := if s.target == Some(id) then None else s.target);
      if id in Ids(s.queue) {
        assert TaggedReply(s, reply) == Take(u, {id}, Tagged).(replied := s.replied + {id});
      } else {
        assert TaggedReply(s, reply) == Fatal(u);
        TeardownReplies(u);
        FatalIsLoss(u);
      }
    }
  }

  lemma FatalIsLoss(s: Core)
    requires s.read == Dispatching && s.phase != Closed
    ensures Fatal(s).lost
  {
    hide Take, UnstagedIds;
  }

  lemma TakenIsLogged(q: seq<Cell>, log: seq<Terminal>, id: nat)
    requires id in Ids(q)
    ensures id in LogIds(log + Endings(Only(q, {id}), Tagged)) && LogIds(log) <= LogIds(log + Endings(Only(q, {id}), Tagged))
  {
    var taken := Only(q, {id});
    EndingsIds(taken, Tagged);
    assert id in Ids(taken);
    forall t | t in Endings(taken, Tagged) ensures t in log + Endings(taken, Tagged) {
    }
  }

  lemma {:induction false} RepliesAreLogged(es: seq<Event>)
    requires Possible(es)
    ensures RepliesLogged(After(es))
  {
    if es != [] {
      var init, e := es[..|es| - 1], es[|es| - 1];
      RepliesAreLogged(init);
      RunsKeep(init);
      CallsAreFinal(After(init), e);
      ReplyLogged(After(init), e);
    }
  }

  lemma ReplyLogged(s: Core, e: Event)
    requires Inv(s) && Enabled(s, e) && RepliesLogged(s) && LogGrows(s, Step(s, e))
    ensures RepliesLogged(Step(s, e))
  {
    hide Books, Coherent, Routed, LogIds, Only, Endings, Ids;
    LogIdsGrow(s.log, Step(s, e).log);
    if e.DoTagged? {
      TaggedCases(s, e.reply);
      if e.reply in s.registry && s.registry[e.reply] in Ids(s.queue) {
        TakenIsLogged(s.queue, s.log, s.registry[e.reply]);
      }
    } else {
      RepliesStay(s, e);
    }
    hide Step;
  }

  // ---- While the engine drains -----------------------------------------------------------

  /** The cells not being written are those of `written` that were not answered. */
  ghost predicate Kept(s: Core, written: set<nat>) {
    UnstagedIds(s.queue) == written - s.replied
  }

  lemma CloseKept(s: Core)
    requires Inv(s) && s.phase == Open && RepliesLogged(s)
    ensures Kept(Close(s), WrittenIds(s.queue)) && Close(s).phase != Open
  {
    TeardownReplies(s);
    CloseQueue(s);
    var q := s.queue;
    assert UnstagedIds(Without(q, UnwrittenIds(q))) == WrittenIds(q) by { UnwrittenGone(q); }
    assert WrittenIds(q) !! s.replied by {
      hide Serials, Staging, DropsAreAbandoned, Coherent, Routed, TornDown, Sorted, LoggedOnce;
      assert WrittenIds(q) <= Ids(q);
    }
    hide Inv, Close, Without, UnwrittenIds, WrittenIds, UnstagedIds;
  }

  lemma CloseQueue(s: Core)
    requires s.phase == Open
    ensures Close(s).queue == Without(s.queue, UnwrittenIds(s.queue)) && Close(s).phase != Open
  {
    hide Without, Only, Endings, UnwrittenIds;
  }

  lemma UnwrittenGone(q: seq<Cell>)
    requires Sorted(q)
    ensures UnstagedIds(Without(q, UnwrittenIds(q))) == WrittenIds(q)
  {
    var r := Without(q, UnwrittenIds(q));
    forall c | c in q && c.IsWritten() ensures c in r {
      if c.id in UnwrittenIds(q) {
        var d :| d in q && d.id == c.id && !d.IsWritten() && !d.staged;
        SameId(q, c, d);
      }
    }
    forall c | c in r && !c.staged ensures c.IsWritten() {
      assert c.id !in UnwrittenIds(q);
    }
  }

  /** The end of a write takes staged cells only. */
  lemma RetireKept(s: Core, ending: Ending, written: set<nat>)
    requires Staging(s.queue, Batch(s.write), |s.commands|) && Kept(s, written)
    ensures Kept(Retire(s, ending), written)
  {
    RetireReplies(s, ending);
    RetireQueue(s, ending);
    BatchIsStaged(s.queue, Batch(s.write), |s.commands|);
    hide Retire, UnstagedIds, Staging, BatchIds, Without;
  }

  lemma BatchIsStaged(q: seq<Cell>, batch: seq<Chunk>, n: nat)
    requires Staging(q, batch, n)
    ensures UnstagedIds(Without(q, BatchIds(batch))) == UnstagedIds(q)
  {
    forall c | c in q && !c.staged ensures c in Without(q, BatchIds(batch)) {
    }
  }

  /** So does a write error while draining. */
  lemma WriteFailingKept(s: Core, written: set<nat>)
    requires Staging(s.queue, Batch(s.write), |s.commands|) && Kept(s, written) && s.phase != Open && s.write.WriteArmed?
    ensures Kept(WriteDone(s, false, false), written)
  {
    BatchIsStaged(s.queue, Batch(s.write), |s.commands|);
    hide UnstagedIds, Staging, BatchIds, Without, Only, Endings;
  }

  lemma RetireQueue(s: Core, ending: Ending)
    ensures Retire(s, ending).queue == Without(s.queue, BatchIds(Batch(s.write)))
  {
    hide Without, Only, Endings, BatchIds;
  }

  lemma AnsweredKept(q: seq<Cell>, replied: set<nat>, written: set<nat>, id: nat)
    requires Sorted(q) && id in Ids(q) && id !in replied && UnstagedIds(q) == written - replied
    ensures UnstagedIds(Without(q, {id})) == written - (replied + {id})
  {
    var c :| c in q && c.id == id;
    forall d | d in q && d.id == id ensures d == c {
      SameId(q, c, d);
    }
    if c.staged {
      assert id !in UnstagedIds(q);
    }
    hide Sorted;
    forall x | x in UnstagedIds(Without(q, {id})) ensures x in UnstagedIds(q) && x != id {
    }
    forall x | x in UnstagedIds(q) && x != id ensures x in UnstagedIds(Without(q, {id})) {
      var d :| d in q && !d.staged && d.id == x;
      assert d in Without(q, {id});
    }
  }

  lemma TaggedKept(s: Core, reply: string, written: set<nat>)
    requires Inv(s) && RepliesLogged(s) && s.read == Dispatching && Kept(s, written)
    ensures var t := TaggedReply(s, reply); !t.lost ==> Kept(t, written)
  {
    Parts(s);
    NotReplied(s);
    assert s.phase != Closed by { hide Books, Coherent, Routed; }
    hide Inv, RepliesLogged, Sorted, Conserved, Staging, Coherent, Routed, Ids, Without, Only, Endings, UnstagedIds;
    TaggedCases(s, reply);
    if reply in s.registry && s.registry[reply] in Ids(s.queue) {
      AnsweredKept(s.queue, s.replied, written, s.registry[reply]);
    }
    hide TaggedReply;
  }

  lemma NotReplied(s: Core)
    requires Inv(s) && RepliesLogged(s)
    ensures Ids(s.queue) !! s.replied
  {
    hide Serials, Staging, DropsAreAbandoned, Coherent, Routed, TornDown, Sorted, LoggedOnce, Ids, LogIds;
  }

  lemma LossIsRecorded(s: Core)
    requires s.phase != Closed
    ensures ConnectionLost(s).lost
  {
    hide Take, UnstagedIds;
  }

  lemma AbandonIsRecorded(s: Core)
    requires s.phase != Closed
    ensures Abandon(s).abandoned
  {
    hide Take, UnstagedIds;
  }

  /** Nothing but a tagged reply touches a written cell, unless the connection is lost or abandoned. */
  lemma StepKept(s: Core, e: Event, written: set<nat>)
    requires Inv(s) && RepliesLogged(s) && Enabled(s, e) && s.phase != Open && !s.abandoned && Kept(s, written)
    ensures var t := Step(s, e); !t.lost && !t.abandoned ==> Kept(t, written)
  {
    Parts(s);
    TornParts(s);
    hide Inv, RepliesLogged, Kept, Close, Abandon, Fatal, LoseConnection, FailConnection, ConnectionLost, Retire, TaggedReply, Enqueue, AllocateTag,
         PostKick, UntaggedReply, ReadDone, ReadFailed, DecideRearm, ArmRead, Sorted, Conserved, Staging, Coherent, Routed;
    match e
    case DoEnqueue(serial, command, stopSeen) => EnqueueLeaves(s, serial, command, stopSeen); RefusedAtOnce(s, serial, command, stopSeen);
      SameKept(s, Step(s, e), written);
    case DoTagged(reply) => TaggedKept(s, reply, written);
    case DoContinuation => FatalIsLoss(s);
    case DoMalformed => FatalIsLoss(s);
    case DoArmWrite => RetireKept(s, if s.abandoned then Dropped else Failed, written);
    case DoWriteDone(ok, quiet) =>
      if ok { RetireKept(s, Failed, written); } else { WriteFailingKept(s, written); hide WriteDone; }
    case DoLoseConnection => LoseKept(s, written);
    case DoFailConnection => FailKept(s, written);
    case DoAbandon => if s.phase != Closed { AbandonIsRecorded(s); } else { ClosedStays(s); }
    case DoClose => ClosedStays(s);
    case DoCancel(_) =>
    case DoKick =>
    case _ => LightSteps(s, e); SameKept(s, Step(s, e), written);
  }

  lemma ClosedStays(s: Core)
    ensures s.phase != Open ==> Close(s) == s
    ensures s.phase == Closed ==> Abandon(s) == s
  {
  }

  lemma WriteLoses(s: Core)
    requires s.write.WriteArmed? && s.phase == Open
    ensures WriteDone(s, false, false).lost
  {
    LossIsRecorded(s.(write := Idle, queue := Without(s.queue, BatchIds(Batch(s.write)))));
    hide ConnectionLost, Without, Only, Endings, BatchIds;
  }

  lemma LoseKept(s: Core, written: set<nat>)
    requires Kept(s, written)
    ensures !LoseConnection(s).lost ==> Kept(LoseConnection(s), written)
  {
    if s.phase != Closed { LossIsRecorded(s.(read := Quiet)); }
    SameKept(s, s.(read := Quiet), written);
    hide Take, Kept, UnstagedIds, MaybeFinishClose;
  }

  lemma FailKept(s: Core, written: set<nat>)
    requires Kept(s, written)
    ensures !FailConnection(s).lost ==> Kept(FailConnection(s), written)
  {
    if s.phase != Closed { LossIsRecorded(s.(write := Idle)); }
    SameKept(s, s.(write := Idle), written);
    hide Take, Kept, UnstagedIds, MaybeFinishClose;
  }

  lemma SameKept(s: Core, t: Core, written: set<nat>)
    requires Kept(s, written) && t.queue == s.queue && t.replied == s.replied
    ensures Kept(t, written)
  {
  }

  lemma TornParts(s: Core)
    requires Inv(s)
    ensures s.phase != Open ==> s.target == None
    ensures s.phase == Closed ==> NotReading(s.read) && NotWriting(s.write)
    ensures s.write == Failing ==> s.phase != Open
  {
    hide Books, Coherent, Routed;
  }

  // ---- Whole runs ---------------------------------------------------------------------------

  /** The run closes the open engine with its event `n`. */
  ghost predicate ClosesAt(es: seq<Event>, n: nat)
    requires Possible(es)
  {
    n < |es| && es[n] == DoClose && Possible(es[..n]) && After(es[..n]).phase == Open
  }

  ghost predicate Drained(s: Core, written: set<nat>) {
    s.phase != Open && (!s.lost && !s.abandoned ==> Kept(s, written))
  }

  lemma CloseDrained(s: Core)
    requires Inv(s) && s.phase == Open && RepliesLogged(s)
    ensures Drained(Step(s, DoClose), WrittenIds(s.queue))
  {
    hide Inv, RepliesLogged, Kept, WrittenIds, Close;
    CloseKept(s);
  }

  lemma StepDrained(s: Core, e: Event, written: set<nat>)
    requires Inv(s) && RepliesLogged(s) && Enabled(s, e) && Drained(s, written)
    ensures Drained(Step(s, e), written)
  {
    hide Inv, RepliesLogged, Kept, Step, Enabled;
    StepsWindDown(s, e);
    if !s.lost && !s.abandoned { StepKept(s, e, written); }
  }

  lemma {:induction false} DrainKeeps(es: seq<Event>, n: nat)
    requires Possible(es) && ClosesAt(es, n)
    ensures Drained(After(es), WrittenIds(After(es[..n]).queue))
    decreases |es|
  {
    hide Inv, RepliesLogged, Drained, WrittenIds, Step, Enabled;
    var init, e := es[..|es| - 1], es[|es| - 1];
    RunsKeep(init);
    RepliesAreLogged(init);
    if n == |init| {
      assert es[..n] == init;
      CloseDrained(After(init));
    } else {
      assert init[..n] == es[..n] && init[n] == es[n];
      DrainKeeps(init, n);
      StepDrained(After(init), e, WrittenIds(After(es[..n]).queue));
    }
  }

  /** The engine leaves `Open` by a close, by a loss or by abandonment. */
  lemma LeavesOpen(s: Core, e: Event)
    requires Inv(s) && Enabled(s, e) && s.phase == Open && Step(s, e).phase != Open
    ensures e == DoClose || Step(s, e).lost || Step(s, e).abandoned
  {
    hide Inv, Close, Abandon, Fatal, LoseConnection, FailConnection, ConnectionLost, Retire, TaggedReply, Enqueue, AllocateTag, Kick,
         Cancel, Settle,
         PostKick, UntaggedReply, ReadDone, ReadFailed, DecideRearm, ArmRead;
    match e
    case DoClose =>
    case DoAbandon => AbandonIsRecorded(s);
    case DoLoseConnection => LossIsRecorded(s.(read := Quiet)); LoseIsLoss(s);
    case DoFailConnection => LossIsRecorded(s.(write := Idle)); LoseIsLoss(s);
    case DoMalformed => FatalIsLoss(s);
    case DoContinuation => FatalIsLoss(s); hide Lookup, Replace;
    case DoTagged(reply) => TaggedCases(s, reply);
    case DoWriteDone(ok, quiet) => OpenWrite(s, ok, quiet);
    case DoArmWrite => OpenArm(s);
    case DoCancel(tag) => CancelLeaves(s, tag);
    case DoKick => KickIsOpen(s);
    case DoEnqueue(serial, command, stopSeen) => EnqueueLeaves(s, serial, command, stopSeen);
    case _ => LightSteps(s, e);
  }

  lemma LoseIsLoss(s: Core)
    ensures LoseConnection(s) == ConnectionLost(s.(read := Quiet)) && FailConnection(s) == ConnectionLost(s.(write := Idle))
  {
    hide ConnectionLost;
  }

  lemma KickIsOpen(s: Core)
    ensures Kick(s).phase == s.phase
  {
    hide Drain, StageAll, BatchIds, Waiter;
  }

  lemma OpenArm(s: Core)
    requires Inv(s) && s.phase == Open && s.write.Latched?
    ensures ArmWrite(s).phase == Open
  {
    QuietIsNotOpen(s);
    hide Inv, Retire;
  }

  lemma OpenWrite(s: Core, ok: bool, quiet: bool)
    requires Inv(s) && s.phase == Open && Enabled(s, DoWriteDone(ok, quiet))
    ensures WriteDone(s, ok, quiet).phase == Open || WriteDone(s, ok, quiet).lost
  {
    QuietIsNotOpen(s);
    hide Inv;
    if ok {
      hide FlushAll, FinishedIds, SpoiledIds, Waiter, BatchIds, Without, Only, Endings;
    } else {
      WriteLoses(s);
      hide WriteDone;
    }
  }

  lemma {:induction false} SomeCloseCame(es: seq<Event>) returns (n: nat)
    requires Possible(es) && After(es).phase != Open && !After(es).lost && !After(es).abandoned
    ensures ClosesAt(es, n)
  {
    n := 0;
    if es != [] {
      var init, e := es[..|es| - 1], es[|es| - 1];
      var s := After(init);
      RunsKeep(init);
      hide Inv, Step;
      if s.phase == Open {
        LeavesOpen(s, e);
        n := |init|;
        assert es[..n] == init;
      } else {
        StepsWindDown(s, e);
        n := SomeCloseCame(init);
        assert init[..n] == es[..n] && init[n] == es[n];
      }
    }
  }

  /** A closed engine holds no staged cell, so its cells are those kept. */
  lemma ClosedHoldsUnstaged(s: Core)
    requires Inv(s) && s.phase == Closed
    ensures UnstagedIds(s.queue) == Ids(s.queue)
  {
    Parts(s);
    TornParts(s);
    hide Inv, Sorted, Conserved, Coherent, Routed;
    assert BatchIds([]) == {};
  }

  /**
   What `close()` leaves behind once the descriptor is closed: nothing if `connection_lost` or
   `abandon` came first, and otherwise exactly the commands that were written at the close and
   not answered since. None of those ever had its call.
   */
  lemma ClosedHoldsTheUnanswered(es: seq<Event>, n: nat)
    requires Possible(es) && ClosesAt(es, n) && After(es).phase == Closed
    ensures var s := After(es);
            && (if s.lost || s.abandoned then s.queue == []
                else Ids(s.queue) == WrittenIds(After(es[..n]).queue) - s.replied)
            && Ids(s.queue) !! LogIds(s.log)
  {
    var s := After(es);
    RunsKeep(es);
    DrainKeeps(es, n);
    TornParts(s);
    ClosedHoldsUnstaged(s);
    if s.lost || s.abandoned { NothingLeft(s); }
    hide After, Ids, UnstagedIds, WrittenIds, LogIds, Coherent, Routed, TornDown, Serials, Staging, Sorted, LoggedOnce;
  }

  /** An orderly close left a command unanswered. */
  ghost predicate LeftUnanswered(es: seq<Event>, n: nat)
    requires Possible(es)
  {
    ClosesAt(es, n) && !(WrittenIds(After(es[..n]).queue) <= After(es).replied)
  }

  lemma LeftIfAny(es: seq<Event>, n: nat)
    requires Possible(es) && ClosesAt(es, n) && After(es).phase == Closed && !After(es).lost && !After(es).abandoned
    ensures After(es).queue != [] <==> LeftUnanswered(es, n)
  {
    ClosedHoldsTheUnanswered(es, n);
    EmptyIds(After(es).queue);
    hide Ids, WrittenIds, After, Possible;
    Remainder(WrittenIds(After(es[..n]).queue), After(es).replied);
  }

  lemma Remainder(a: set<nat>, b: set<nat>)
    ensures a - b == {} <==> a <= b
  {
    forall x | x in a && a - b == {} ensures x in b {
      assert x !in a - b;
    }
  }

  /** A closed engine still holds a command if and only if an orderly close, not overtaken by a loss, left one unanswered. */
  lemma StrandedExactly(es: seq<Event>)
    requires Possible(es) && After(es).phase == Closed
    ensures After(es).queue != [] <==>
            !After(es).lost && !After(es).abandoned && exists n: nat :: LeftUnanswered(es, n)
  {
    var s := After(es);
    RunsKeep(es);
    TornParts(s);
    if s.lost || s.abandoned {
      NothingLeft(s);
    } else {
      var n := SomeCloseCame(es);
      LeftIfAny(es, n);
      forall m: nat | LeftUnanswered(es, m) ensures s.queue != [] {
        LeftIfAny(es, m);
      }
    }
    hide Inv, After, Possible, WrittenIds, ClosesAt;
  }

  lemma EmptyIds(q: seq<Cell>)
    ensures Ids(q) == {} <==> q == []
  {
    if q != [] { assert q[0] in q && q[0].id in Ids(q); }
  }

  // ---- Runs that strand -------------------------------------------------------------------------

  /**
   EOF during an orderly close, with a write in flight: when that write completes between the two
   sections of the failed read, it closes the engine, `connection_lost` finds it closed, and every
   command that was not part of the write stays queued.
   */
  lemma EndOfFileComesTooLate(es: seq<Event>) returns (ends: seq<Event>)
    requires Possible(es)
    requires var s := After(es); s.phase == Draining && s.read == Dispatching && s.write.WriteArmed?
    ensures Possible(es + ends) && ends == [DoReadFailed, DoWriteDone(true, false), DoLoseConnection]
    ensures var s, t := After(es), After(es + ends);
            && t.phase == Closed && t.queue == Without(s.queue, BatchIds(Batch(s.write)))
            && t.log == s.log + Endings(Only(s.queue, BatchIds(Batch(s.write))), Failed)
  {
    var s := After(es);
    var one, two := es + [DoReadFailed], es + [DoReadFailed] + [DoWriteDone(true, false)];
    ends := [DoReadFailed, DoWriteDone(true, false), DoLoseConnection];
    assert es + ends == two + [DoLoseConnection];
    hide After, Possible, BatchIds, Without, Only, Endings, WriteDone, LoseConnection;
    EndsThenCloses(s);
    Extend(es, DoReadFailed);
    Extend(one, DoWriteDone(true, false));
    Extend(two, DoLoseConnection);
  }

  lemma EndsThenCloses(s: Core)
    requires s.phase == Draining && s.read == Dispatching && s.write.WriteArmed?
    ensures var t := WriteDone(s.(read := Losing), true, false);
            && t.read == Losing && t.phase == Closed
            && LoseConnection(t).queue == Without(s.queue, BatchIds(Batch(s.write))) && LoseConnection(t).phase == Closed
            && LoseConnection(t).log == s.log + Endings(Only(s.queue, BatchIds(Batch(s.write))), Failed)
  {
    hide BatchIds, Without, Only, Endings;
  }

  /** The mirror image: a write error, and a read that ends with data between its two sections. */
  lemma WriteErrorComesTooLate(es: seq<Event>) returns (ends: seq<Event>)
    requires Possible(es)
    requires var s := After(es); s.phase == Draining && s.read == Dispatching && s.write.WriteArmed?
    ensures Possible(es + ends) && ends == [DoWriteDone(false, false), DoDecideRearm, DoFailConnection]
    ensures var s, t := After(es), After(es + ends);
            && t.phase == Closed && t.queue == Without(s.queue, BatchIds(Batch(s.write)))
            && t.log == s.log + Endings(Only(s.queue, BatchIds(Batch(s.write))), Failed)
  {
    var s := After(es);
    var one, two := es + [DoWriteDone(false, false)], es + [DoWriteDone(false, false)] + [DoDecideRearm];
    ends := [DoWriteDone(false, false), DoDecideRearm, DoFailConnection];
    assert es + ends == two + [DoFailConnection];
    hide After, Possible, BatchIds, Without, Only, Endings, WriteDone, DecideRearm, FailConnection;
    FailsThenCloses(s);
    Extend(es, DoWriteDone(false, false));
    Extend(one, DoDecideRearm);
    Extend(two, DoFailConnection);
  }

  lemma FailsThenCloses(s: Core)
    requires s.phase == Draining && s.read == Dispatching && s.write.WriteArmed?
    ensures var u := WriteDone(s, false, false);
            && u.read == Dispatching && u.phase == Draining
            && var t := DecideRearm(u);
               && t.write == Failing && t.phase == Closed
               && FailConnection(t).queue == Without(s.queue, BatchIds(Batch(s.write))) && FailConnection(t).phase == Closed
               && FailConnection(t).log == s.log + Endings(Only(s.queue, BatchIds(Batch(s.write))), Failed)
  {
    hide BatchIds, Without, Only, Endings;
  }

  /** The same race with `close()` itself: EOF has stopped the read pump, and the close finds both pumps quiet. */
  lemma EndOfFileCanStrand(line: string) returns (es: seq<Event>)
    requires line != ""
    ensures Possible(es)
    ensures var s := After(es);
            && s.phase == Closed && Ids(s.queue) == {0} && s.log == [] && |s.commands| == 1 && !s.lost
            && |es| > 3 && es[|es| - 3..] == [DoReadFailed, DoClose, DoLoseConnection]
  {
    hide RenderTag, After, Possible, Close, LoseConnection, OneWritten, Ids;
    var written := OneLineWritten(line);
    OneLeft(line);
    Extend(written, DoReadDone);
    var read := written + [DoReadDone];
    Extend(read, DoReadFailed);
    var failed := read + [DoReadFailed];
    Extend(failed, DoClose);
    var closed := failed + [DoClose];
    Extend(closed, DoLoseConnection);
    es := closed + [DoLoseConnection];
  }

  lemma OneLeft(line: string)
    requires line != ""
    ensures OneWritten(line).read == ReadArmed && !OneWritten(line).abandoned && OneWritten(line).phase == Open
    ensures var s := Close(OneWritten(line).(read := Dispatching).(read := Losing));
            && s.read == Losing
            && var t := LoseConnection(s);
               t.phase == Closed && Ids(t.queue) == {0} && t.log == [] && |t.commands| == 1 && !t.lost
  {
    hide RenderTag, UnwrittenIds, Without, Only, Endings;
    var s := OneWritten(line);
    WrittenStays(s.queue[0]);
    assert s.queue[0] in s.queue;
    assert Close(s.(read := Losing)) == s.(read := Losing, phase := Closed);
  }
}
