/**
 Attribution of data lines: with a server that answers pipelined commands in order,
 each command absorbs exactly the lines sent for it. The server is described by the
 events alone, without looking at the engine.
 */
module Attribution {
  import opened Commands
  import opened Engine
  import opened EngineFrames
  import opened EngineInvariants
  import opened EngineSteps
  import opened EngineTheorems
  import opened QueueAlgebra
  import opened Teardown
  import opened Wrappers

  // ---- The server's side ---------------------------------------------------

  datatype Submission = Submission(serial: nat, command: Command)

  /** The commands in the order they were submitted. */
  function Submitted(es: seq<Event>): seq<Submission> {
    if es == [] then [] else
      var before := Submitted(es[..|es| - 1]);
      match es[|es| - 1]
      case DoEnqueue(serial, command, _) => before + [Submission(serial, command)]
      case _ => before
  }

  /** How many commands the server has completed. */
  function Served(es: seq<Event>): nat {
    if es == [] then 0 else Served(es[..|es| - 1]) + (if es[|es| - 1].DoTagged? then 1 else 0)
  }

  /** The data lines of commands, each with the command the server was executing when it sent it. */
  function DataSent(es: seq<Event>): seq<Absorbed> {
    if es == [] then [] else
      var before := DataSent(es[..|es| - 1]);
      match es[|es| - 1]
      case DoUntagged(kind, line) =>
        if CommandScoped(kind) then before + [Absorbed(Served(es[..|es| - 1]), kind, line)] else before
      case _ => before
  }

  /** The server's next event is about the oldest command it has not completed. */
  predicate InTurn(subs: seq<Submission>, served: nat, e: Event) {
    match e
    case DoUntagged(kind, _) => CommandScoped(kind) ==> served < |subs| && subs[served].command.Wants(kind)
    case DoTagged(reply) => served < |subs| && reply == RenderTag(subs[served].serial)
    case DoCancel(_) => false
    case DoEnqueue(_, _, stopSeen) => !stopSeen
    case _ => true
  }

  /** No cancellation, and a server that answers in order: the data lines of a command, then its tagged reply. */
  predicate Orderly(es: seq<Event>) {
    es == [] ||
    (Orderly(es[..|es| - 1]) && InTurn(Submitted(es[..|es| - 1]), Served(es[..|es| - 1]), es[|es| - 1]))
  }

  // ---- The queue mirrors it --------------------------------------------------

  /** The queued cell stands for the submission. */
  ghost predicate StandsFor(c: Cell, id: nat, sub: Submission) {
    && c.id == id && c.serial == sub.serial && !c.detached
    && forall kind :: c.command.Wants(kind) <==> sub.command.Wants(kind)
  }

  /** The queue holds the submissions from `served` on. */
  ghost predicate Mirrors(q: seq<Cell>, subs: seq<Submission>, served: nat) {
    && served + |q| == |subs|
    && forall i | 0 <= i < |q| :: StandsFor(q[i], served + i, subs[served + i])
  }

  ghost function Completed(n: nat): seq<Terminal> {
    seq(n, i requires 0 <= i < n => Terminal(i, Tagged))
  }

  ghost predicate Attributed(s: Core, subs: seq<Submission>, served: nat, data: seq<Absorbed>) {
    && Mirrors(s.queue, subs, served) && |s.commands| == |subs|
    && s.log == Completed(served) && s.absorbed == data
  }

  lemma CommandMoves(c: Cell, id: nat, sub: Submission)
    requires StandsFor(c, id, sub)
    ensures StandsFor(c.Stage(), id, sub) && StandsFor(c.Flush(), id, sub) && StandsFor(c.Continue(), id, sub)
  {
  }

  lemma StagedMirrors(q: seq<Cell>, ids: set<nat>, subs: seq<Submission>, served: nat)
    requires Mirrors(q, subs, served)
    ensures Mirrors(StageAll(q, ids), subs, served) && Mirrors(FlushAll(q, ids), subs, served)
  {
    hide StandsFor;
    forall i | 0 <= i < |q|
      ensures StandsFor(StageAll(q, ids)[i], served + i, subs[served + i])
      ensures StandsFor(FlushAll(q, ids)[i], served + i, subs[served + i])
    {
      CommandMoves(q[i], served + i, subs[served + i]);
    }
  }

  lemma ContinuedMirrors(q: seq<Cell>, c: Cell, subs: seq<Submission>, served: nat)
    requires Mirrors(q, subs, served) && c in q && Sorted(q)
    ensures Mirrors(Replace(q, c.Continue()), subs, served)
  {
    ContinuedId(c);
    hide StandsFor, Cell.Continue, Sorted;
    forall i | 0 <= i < |q| ensures StandsFor(Replace(q, c.Continue())[i], served + i, subs[served + i]) {
      if q[i].id == c.id { SameId(q, q[i], c); }
      CommandMoves(q[i], served + i, subs[served + i]);
    }
  }

  lemma ContinuedId(c: Cell)
    ensures c.Continue().id == c.id
  {
  }

  lemma AppendMirrors(q: seq<Cell>, cell: Cell, subs: seq<Submission>, served: nat, sub: Submission)
    requires Mirrors(q, subs, served) && StandsFor(cell, |subs|, sub)
    ensures Mirrors(q + [cell], subs + [sub], served)
  {
    hide StandsFor;
  }

  lemma HeadTaken(q: seq<Cell>)
    requires Sorted(q) && q != []
    ensures Without(q, {q[0].id}) == q[1..] && Only(q, {q[0].id}) == [q[0]]
  {
    TailIsLater(q);
    NoneTaken(q[1..], {q[0].id});
  }

  /** Nobody is detached, so a flush finishes nobody. */
  lemma NoneFinished(q: seq<Cell>, ids: set<nat>, subs: seq<Submission>, served: nat)
    requires Mirrors(q, subs, served)
    ensures FinishedIds(q, ids) == {}
  {
    forall c | c in q ensures !c.detached {
      var i :| 0 <= i < |q| && q[i] == c;
      assert StandsFor(q[i], served + i, subs[served + i]);
    }
  }

  // ---- Steps -------------------------------------------------------------------

  lemma EnqueueAttributed(s: Core, serial: nat, command: Command, subs: seq<Submission>, served: nat, data: seq<Absorbed>)
    requires s.phase == Open && Attributed(s, subs, served, data)
    ensures Attributed(Enqueue(s, serial, command, false), subs + [Submission(serial, command)], served, data)
  {
    hide Mirrors, Emplace, RenderTag, Completed;
    AppendMirrors(s.queue, Cell(|s.commands|, serial, command, false, false, false, false), subs, served,
                  Submission(serial, command));
  }

  lemma SettleAttributed(s: Core, subs: seq<Submission>, served: nat, data: seq<Absorbed>)
    requires Attributed(s, subs, served, data)
    ensures Attributed(Settle(s), subs, served, data)
  {
    var ids := BatchIds(Batch(s.write));
    var r := FlushAll(s.queue, ids);
    hide BatchIds, Mirrors, FinishedIds, SpoiledIds, Waiter, FlushAll, Completed, Only, Without;
    StagedMirrors(s.queue, ids, subs, served);
    NoneFinished(r, ids, subs, served);
    NoneTaken(r, {});
    assert Endings([], Stopped) == [];
  }

  lemma KickAttributed(s: Core, subs: seq<Submission>, served: nat, data: seq<Absorbed>)
    requires Attributed(s, subs, served, data)
    ensures Attributed(Kick(s), subs, served, data)
  {
    StagedMirrors(s.queue, BatchIds(Drain(s.queue)), subs, served);
    hide BatchIds, Mirrors, Waiter, Drain, StageAll, Completed;
  }

  lemma TailMirrors(q: seq<Cell>, subs: seq<Submission>, served: nat)
    requires Mirrors(q, subs, served) && q != []
    ensures Mirrors(q[1..], subs, served + 1) && StandsFor(q[0], served, subs[served])
  {
    hide StandsFor;
    forall i | 0 <= i < |q| - 1 ensures StandsFor(q[1..][i], served + 1 + i, subs[served + 1 + i]) {
      assert StandsFor(q[i + 1], served + (i + 1), subs[served + (i + 1)]);
    }
  }

  /** A tagged reply to the head of the queue takes the head. */
  lemma TakeHead(s: Core, reply: string)
    requires s.read == Dispatching && s.queue != [] && Sorted(s.queue)
    requires reply in s.registry && s.registry[reply] == s.queue[0].id
    ensures var t := TaggedReply(s, reply);
            && t.queue == s.queue[1..] && t.log == s.log + [Terminal(s.queue[0].id, Tagged)]
            && t.commands == s.commands && t.absorbed == s.absorbed
  {
    assert s.queue[0] in s.queue;
    Queued(s.queue, s.queue[0]);
    HeadTaken(s.queue);
    EndingOfOne(s.queue[0], Tagged);
    hide Sorted, Ids, Only, Without, Endings, Fatal;
  }

  lemma StandsForTag(c: Cell, id: nat, sub: Submission)
    requires StandsFor(c, id, sub)
    ensures c.id == id && !c.detached && c.Tag() == RenderTag(sub.serial)
  {
  }

  lemma TaggedAttributed(s: Core, reply: string, subs: seq<Submission>, served: nat, data: seq<Absorbed>)
    requires Inv(s) && s.phase == Open && s.read == Dispatching && Attributed(s, subs, served, data)
    requires InTurn(subs, served, DoTagged(reply))
    ensures Attributed(TaggedReply(s, reply), subs, served + 1, data)
  {
    hide Inv, Sorted, Conserved, Staging, Coherent, Routed, RenderTag, StandsFor, TaggedReply;
    Parts(s);
    TailMirrors(s.queue, subs, served);
    StandsForTag(s.queue[0], served, subs[served]);
    assert s.queue[0] in s.queue;
    AttachedTag(s.queue, s.registry, s.queue[0]);
    TakeHead(s, reply);
    hide Mirrors;
    assert Completed(served) + [Terminal(served, Tagged)] == Completed(served + 1);
  }

  lemma AttachedTag(q: seq<Cell>, registry: map<string, nat>, c: Cell)
    requires Coherent(q, registry) && c in q && !c.detached
    ensures c.Tag() in registry && registry[c.Tag()] == c.id
  {
  }

  lemma ContinuationAttributed(s: Core, subs: seq<Submission>, served: nat, data: seq<Absorbed>)
    requires Inv(s) && s.phase == Open && s.read == Dispatching && s.target.Some? && Attributed(s, subs, served, data)
    ensures Attributed(ContinuationRequest(s), subs, served, data)
  {
    Parts(s);
    hide Inv, Sorted, Conserved, Staging, Coherent, Routed, Mirrors, Fresh, Fatal, Completed, Cell.Continue, Replace;
    var c := TargetCell(s.queue, s.target);
    ContinuedMirrors(s.queue, c, subs, served);
  }

  /** The oldest unanswered command wants the line, so it is the line's owner. */
  lemma UntaggedAttributed(s: Core, kind: Kind, line: string, subs: seq<Submission>, served: nat, data: seq<Absorbed>)
    requires s.read == Dispatching && Attributed(s, subs, served, data)
    requires InTurn(subs, served, DoUntagged(kind, line))
    ensures Attributed(UntaggedReply(s, kind, line), subs, served,
                       if CommandScoped(kind) then data + [Absorbed(served, kind, line)] else data)
  {
    if CommandScoped(kind) {
      assert StandsFor(s.queue[0], served, subs[served]);
      assert Owner(s.queue, kind) == Some(served);
    }
    hide CommandScoped, Owner, Mirrors, Completed;
  }

  lemma FatalIsNotOpen(s: Core)
    ensures s.read == Dispatching ==> Fatal(s).phase != Open
    ensures LoseConnection(s).phase != Open && FailConnection(s).phase != Open
  {
    LossIsNotOpen(s);
    LossIsNotOpen(s.(read := Quiet));
    LossIsNotOpen(s.(write := Idle));
    hide ConnectionLost;
  }

  lemma LossIsNotOpen(s: Core)
    ensures ConnectionLost(s).phase != Open
  {
    hide Take, UnstagedIds;
  }

  lemma TeardownIsNotOpen(s: Core)
    ensures Close(s).phase != Open && Abandon(s).phase != Open
  {
    hide Only, Without, Endings, UnstagedIds, UnwrittenIds;
  }

  /** Steps that touch neither the queue nor the records. */
  lemma OthersAttributed(s: Core, e: Event, subs: seq<Submission>, served: nat, data: seq<Absorbed>)
    requires Enabled(s, e) && Attributed(s, subs, served, data)
    requires IsLight(e) && !e.DoUntagged?
    ensures Attributed(Step(s, e), subs, served, data)
  {
    LightSteps(s, e);
    hide Step, Enabled, Mirrors, Completed;
  }

  lemma ArmAttributed(s: Core, subs: seq<Submission>, served: nat, data: seq<Absorbed>)
    requires Inv(s) && s.phase == Open && s.write.Latched? && Attributed(s, subs, served, data)
    ensures Attributed(ArmWrite(s), subs, served, data)
  {
    hide Books, Coherent, Routed, Mirrors, Completed, AllSent, AllStaged;
  }

  lemma WriteAttributed(s: Core, ok: bool, quiet: bool, subs: seq<Submission>, served: nat, data: seq<Absorbed>)
    requires Inv(s) && s.phase == Open && Enabled(s, DoWriteDone(ok, quiet)) && Attributed(s, subs, served, data)
    ensures WriteDone(s, ok, quiet).phase == Open ==> Attributed(WriteDone(s, ok, quiet), subs, served, data)
  {
    assert !quiet by { hide Books, Coherent, Routed, AllSent, AllStaged; }
    if ok {
      hide Inv, Attributed, Settle;
      SettleAttributed(s, subs, served, data);
    } else {
      WriteFailedIsNotOpen(s);
    }
  }

  lemma WriteFailedIsNotOpen(s: Core)
    requires s.write.WriteArmed?
    ensures WriteDone(s, false, false).phase != Open
  {
    hide Only, Without, Endings, UnstagedIds, BatchIds;
  }

  /** What the server's books say after one more event. */
  function Sub(subs: seq<Submission>, e: Event): seq<Submission> {
    if e.DoEnqueue? then subs + [Submission(e.serial, e.command)] else subs
  }

  function Data(data: seq<Absorbed>, served: nat, e: Event): seq<Absorbed> {
    if e.DoUntagged? && CommandScoped(e.kind) then data + [Absorbed(served, e.kind, e.line)] else data
  }

  lemma StepAttributed(s: Core, e: Event, subs: seq<Submission>, served: nat, data: seq<Absorbed>)
    requires Inv(s) && s.phase == Open && Enabled(s, e) && Step(s, e).phase == Open
    requires Attributed(s, subs, served, data) && InTurn(subs, served, e)
    ensures Attributed(Step(s, e), Sub(subs, e), if e.DoTagged? then served + 1 else served, Data(data, served, e))
  {
    hide Inv, Attributed, Close, Abandon, Fatal, LoseConnection, FailConnection, Cancel, Kick, WriteDone, ArmWrite, TaggedReply,
         Enqueue, AllocateTag, PostKick, UntaggedReply, ReadDone, DecideRearm, ArmRead, CommandScoped, Lookup, Replace;
    match e
    case DoEnqueue(serial, command, stopSeen) => EnqueueAttributed(s, serial, command, subs, served, data);
    case DoKick => KickAttributed(s, subs, served, data);
    case DoArmWrite => ArmAttributed(s, subs, served, data);
    case DoWriteDone(ok, quiet) => WriteAttributed(s, ok, quiet, subs, served, data);
    case DoTagged(reply) => TaggedAttributed(s, reply, subs, served, data);
    case DoContinuation => FatalIsNotOpen(s); ContinuationAttributed(s, subs, served, data);
    case DoUntagged(kind, line) => UntaggedAttributed(s, kind, line, subs, served, data);
    case DoClose => TeardownIsNotOpen(s);
    case DoAbandon => TeardownIsNotOpen(s);
    case DoLoseConnection => FatalIsNotOpen(s);
    case DoFailConnection => FatalIsNotOpen(s);
    case DoMalformed => FatalIsNotOpen(s);
    case DoCancel(_) =>
    case _ => OthersAttributed(s, e, subs, served, data);
  }

  // ---- Runs ----------------------------------------------------------------------

  lemma {:induction false} RunsAttribute(es: seq<Event>)
    requires Possible(es) && Orderly(es) && After(es).phase == Open
    ensures Attributed(After(es), Submitted(es), Served(es), DataSent(es))
  {
    if es == [] {
      assert Completed(0) == [];
    } else {
      var init, e := es[..|es| - 1], es[|es| - 1];
      hide Inv, Step, Attributed, InTurn, CommandScoped;
      StepsWindDown(After(init), e);
      RunsAttribute(init);
      RunsKeep(init);
      StepAttributed(After(init), e, Submitted(init), Served(init), DataSent(init));
    }
  }

  lemma StandsForIt(c: Cell, id: nat, sub: Submission)
    requires StandsFor(c, id, sub)
    ensures c.id == id
  {
  }

  /**
   While the connection lives, every data line was absorbed by the command the server
   was executing, in arrival order; the commands completed so far are the first ones
   submitted, each once and by its own tagged reply, and the rest are queued in order.
   */
  lemma CommandsGetTheirOwnLines(es: seq<Event>)
    requires Possible(es) && Orderly(es) && After(es).phase == Open
    ensures var s := After(es);
            && s.absorbed == DataSent(es)
            && s.log == Completed(Served(es))
            && Served(es) + |s.queue| == |Submitted(es)|
            && forall i | 0 <= i < |s.queue| :: s.queue[i].id == Served(es) + i
  {
    hide After, Completed, Orderly, Possible, StandsFor, Served, Submitted, DataSent;
    RunsAttribute(es);
    var s := After(es);
    forall i | 0 <= i < |s.queue| ensures s.queue[i].id == Served(es) + i {
      StandsForIt(s.queue[i], Served(es) + i, Submitted(es)[Served(es) + i]);
    }
  }
}
