/** What the engine promises over every run. */
module EngineTheorems {
  import opened Commands
  import opened Engine
  import opened EngineFrames
  import opened EngineInvariants
  import opened EngineSteps
  import opened WireOrder
  import opened Wrappers

  // ---- Conservation ------------------------------------------------------

  /**
   Every submitted cell is either still queued or has had its one terminal call;
   a call is skipped only on an abandoned engine.
   */
  lemma ExactlyOnce(es: seq<Event>, id: nat)
    requires Possible(es) && id < |After(es).commands|
    ensures var s := After(es);
            && (id in Ids(s.queue) <==> !exists i :: 0 <= i < |s.log| && s.log[i].id == id)
            && (forall i, j | 0 <= i < |s.log| && 0 <= j < |s.log| && s.log[i].id == id == s.log[j].id :: i == j)
            && (forall i | 0 <= i < |s.log| && s.log[i].ending == Dropped :: s.abandoned)
            && (forall i, j | 0 <= i < |s.queue| && 0 <= j < |s.queue| && s.queue[i].id == id == s.queue[j].id :: i == j)
  {
    RunsKeep(es);
    var s := After(es);
    hide After, Serials, Staging, Coherent, Routed, TornDown, Ids;
    if id in LogIds(s.log) {
      var t :| t in s.log && t.id == id;
    } else {
      forall i | 0 <= i < |s.log| ensures s.log[i].id != id { assert s.log[i] in s.log; }
    }
  }

  /** Calls once made stay made: the log only grows, whatever happens. */
  ghost predicate LogGrows(s: Core, t: Core) {
    s.log <= t.log && s.commands <= t.commands
  }

  lemma TakeGrows(s: Core, ids: set<nat>, ending: Ending)
    ensures LogGrows(s, Take(s, ids, ending))
  {
    hide Only, Without, Endings;
  }

  lemma LogThrough(s: Core, t: Core, u: Core)
    requires LogGrows(s, t) && u.log == t.log && u.commands == t.commands
    ensures LogGrows(s, u)
  {
  }

  lemma LossLog(s: Core)
    ensures LogGrows(s, ConnectionLost(s))
  {
    TakeGrows(s, UnstagedIds(s.queue), Failed);
    hide Take, UnstagedIds;
    if s.phase != Closed {
      hide LogGrows;
      LogThrough(s, Take(s, UnstagedIds(s.queue), Failed), ConnectionLost(s));
    }
  }

  lemma CloseLog(s: Core)
    ensures LogGrows(s, Close(s)) && LogGrows(s, Abandon(s))
  {
    TakeGrows(s, UnwrittenIds(s.queue), Failed);
    TakeGrows(s, UnstagedIds(s.queue), Dropped);
    hide Take, UnstagedIds, UnwrittenIds;
    if s.phase == Open { LogThrough(s, Take(s, UnwrittenIds(s.queue), Failed), Close(s)); }
    if s.phase != Closed { LogThrough(s, Take(s, UnstagedIds(s.queue), Dropped), Abandon(s)); }
  }

  lemma FatalLog(s: Core)
    ensures s.read == Dispatching ==> LogGrows(s, Fatal(s))
    ensures LogGrows(s, LoseConnection(s)) && LogGrows(s, FailConnection(s))
  {
    LossLog(s);
    LossLog(s.(read := Quiet));
    LossLog(s.(write := Idle));
    hide ConnectionLost;
    if s.read == Dispatching { LogThrough(s, ConnectionLost(s), Fatal(s)); }
  }

  lemma EnqueueLog(s: Core, serial: nat, command: Command, stopSeen: bool)
    ensures LogGrows(s, Enqueue(s, serial, command, stopSeen))
  {
    hide RenderTag, Emplace;
  }

  lemma CancelLog(s: Core, tag: string)
    ensures LogGrows(s, Cancel(s, tag))
  {
    hide Take, Cell.Unsent, Cell.IsWritten, Replace, Command.DoneAsked, Lookup;
    if s.phase == Open && tag in s.registry && Lookup(s.queue, s.registry[tag]).Some? {
      var c := Lookup(s.queue, s.registry[tag]).value;
      TakeGrows(s, {c.id}, Stopped);
    }
  }

  lemma RetireLog(s: Core, ending: Ending)
    ensures LogGrows(s, Retire(s, ending))
  {
    hide Take, BatchIds;
    TakeGrows(s, BatchIds(Batch(s.write)), ending);
  }

  lemma SettleLog(s: Core)
    ensures LogGrows(s, Settle(s))
  {
    hide Take, BatchIds, FlushAll, Waiter, SpoiledIds, FinishedIds;
    var ids := BatchIds(Batch(s.write));
    var flushed := FlushAll(s.queue, ids);
    TakeGrows(s.(queue := flushed), FinishedIds(flushed, ids), Stopped);
  }

  lemma WriteFailedLog(s: Core)
    requires s.write.WriteArmed?
    ensures LogGrows(s, WriteDone(s, false, false))
  {
    hide ConnectionLost, BatchIds, Only, Without, Endings;
    var u := s.(write := Idle, queue := Without(s.queue, BatchIds(Batch(s.write))));
    LossLog(u);
  }

  lemma WriteLog(s: Core, ok: bool, quiet: bool)
    requires Enabled(s, DoWriteDone(ok, quiet))
    ensures LogGrows(s, WriteDone(s, ok, quiet))
  {
    hide LogGrows, ConnectionLost, BatchIds, Only, Without, Endings, Retire, Settle;
    if quiet { RetireLog(s, Dropped); }
    else if ok && s.phase == Open { SettleLog(s); }
    else if ok { RetireLog(s, Failed); }
    else { WriteFailedLog(s); }
  }

  lemma TaggedLog(s: Core, tag: string)
    requires s.read == Dispatching
    ensures LogGrows(s, TaggedReply(s, tag))
  {
    hide Take, Fatal, Ids, RenderTag;
    if tag in s.registry {
      var id := s.registry[tag];
      var u := s.(registry := s.registry - {tag}, target := if s.target == Some(id) then None else s.target);
      FatalLog(u);
      TakeGrows(u, {id}, Tagged);
    }
  }

  /** No step takes back a terminal call. */
  lemma CallsAreFinal(s: Core, e: Event)
    requires Enabled(s, e)
    ensures LogGrows(s, Step(s, e))
  {
    hide Close, Abandon, Fatal, LoseConnection, FailConnection, Cancel, WriteDone, TaggedReply, Enqueue, Retire, MaybeFinishClose, Drain, Waiter,
         StageAll, BatchIds, Owner, CommandScoped, Lookup, Replace, Cell.Continue, RenderTag;
    match e
    case DoEnqueue(serial, command, stopSeen) => EnqueueLog(s, serial, command, stopSeen);
    case DoCancel(tag) => CancelLog(s, tag);
    case DoClose => CloseLog(s);
    case DoAbandon => CloseLog(s);
    case DoArmWrite => RetireLog(s, if s.abandoned then Dropped else Failed);
    case DoWriteDone(ok, quiet) => WriteLog(s, ok, quiet);
    case DoLoseConnection => FatalLog(s);
    case DoFailConnection => FatalLog(s);
    case DoMalformed => FatalLog(s);
    case DoTagged(reply) => TaggedLog(s, reply);
    case DoContinuation => FatalLog(s);
    case _ => LogStays(s, e);
  }

  lemma LogStays(s: Core, e: Event)
    requires Enabled(s, e) && (IsLight(e) || e.DoKick?)
    ensures Step(s, e).log == s.log && Step(s, e).commands == s.commands
  {
    if e.DoKick? {
      hide Drain, Waiter, StageAll, BatchIds;
    } else {
      LightSteps(s, e);
      hide Step, Enabled;
    }
  }

  // ---- Routing of tagged replies -------------------------------------------

  /**
   While the engine is open the registry is a one-to-one map from tags to the attached
   queued cells stamped with them, and the cells it does not name are the detached ones.
   */
  lemma RegistryIsARoute(es: seq<Event>)
    requires Possible(es) && After(es).phase == Open
    ensures var s := After(es);
            && (forall tag | tag in s.registry ::
                  exists c :: c in s.queue && c.Tag() == tag && c.id == s.registry[tag] && !c.detached)
            && (forall c | c in s.queue :: c.detached <==> c.Tag() !in s.registry)
            && (forall c, d | c in s.queue && d in s.queue && c.Tag() == d.Tag() :: c == d)
            && (forall t, u | t in s.registry && u in s.registry && s.registry[t] == s.registry[u] :: t == u)
  {
    RunsKeep(es);
    var s := After(es);
    hide After, RenderTag, Conserved, Staging, DropsAreAbandoned, Routed, TornDown, Sorted;
    Parts(s);
    forall c, d | c in s.queue && d in s.queue && c.Tag() == d.Tag() ensures c == d {
      TagsAreInjective(c.serial, d.serial);
    }
    forall tag | tag in s.registry
      ensures exists c :: c in s.queue && c.Tag() == tag && c.id == s.registry[tag] && !c.detached
    {
      var c := RegisteredCell(s.queue, s.registry, tag);
    }
    forall t, u | t in s.registry && u in s.registry && s.registry[t] == s.registry[u] ensures t == u {
      var c := RegisteredCell(s.queue, s.registry, t);
      var d := RegisteredCell(s.queue, s.registry, u);
      SameId(s.queue, c, d);
    }
  }

  /**
   A tagged reply completes the attached cell stamped with its tag and touches no other;
   a reply whose cell was detached, or that nobody asked for, is dropped.
   */
  lemma TaggedReplyCompletesItsCell(es: seq<Event>, reply: string)
    requires Possible(es) && After(es).phase == Open && After(es).read == Dispatching
    ensures var s := After(es);
            var t := TaggedReply(s, reply);
            if exists c :: c in s.queue && !c.detached && c.Tag() == reply then
              exists c :: c in s.queue && !c.detached && c.Tag() == reply
                && t.log == s.log + [Terminal(c.id, Tagged)]
                && (forall d :: d in t.queue <==> d in s.queue && d != c)
                && t.registry == s.registry - {reply}
            else t == s
  {
    RunsKeep(es);
    RegistryIsARoute(es);
    var s := After(es);
    hide After, RenderTag;
    if reply in s.registry {
      hide Inv, Sorted, Conserved, Staging, Coherent, Routed, Ids, Fatal, Only, Without;
      Parts(s);
      var c := RegisteredCell(s.queue, s.registry, reply);
      Queued(s.queue, c);
      WithoutOne(s.queue, c);
      OnlyOne(s.queue, c);
      hide Endings;
      EndingOfOne(c, Tagged);
    }
  }

  lemma EndingOfOne(c: Cell, ending: Ending)
    ensures Endings([c], ending) == [Terminal(c.id, ending)]
  {
  }

  lemma NoneOf(q: seq<Cell>, ids: set<nat>)
    requires forall c | c in q :: c.id !in ids
    ensures Only(q, ids) == []
  {
    HeadIsQueued(Only(q, ids));
  }

  lemma {:induction false} OnlyOne(q: seq<Cell>, c: Cell)
    requires Sorted(q) && c in q
    ensures Only(q, {c.id}) == [c]
  {
    TailIsLater(q);
    if q[0] == c {
      NoneOf(q[1..], {c.id});
    } else {
      OnlyOne(q[1..], c);
    }
  }

  // ---- Routing of continuation requests ------------------------------------

  /**
   In every reachable open state at most one queued cell has an unanswered continuation
   line staged or on the wire; that cell is the route, and a continuation request is
   delivered to it and to nobody else.
   */
  lemma ContinuationReachesItsCell(es: seq<Event>, c: Cell)
    requires Possible(es) && After(es).phase == Open
    requires c in After(es).queue && LineOut(c)
    ensures var s := After(es);
            && s.target == Some(c.id)
            && (forall d | d in s.queue && LineOut(d) :: d == c)
            && (s.read == Dispatching ==>
                  var t := ContinuationRequest(s);
                  && t.target == None && t.registry == s.registry && t.log == s.log && t.write == s.write
                  && (forall d :: d in t.queue <==> d == c.Continue() || (d in s.queue && d != c)))
  {
    RunsKeep(es);
    var s := After(es);
    hide After, Inv, Sorted, Conserved, Staging, Coherent, Fresh, LineOut, Cell.Continue;
    Parts(s);
    forall d | d in s.queue && LineOut(d) ensures d == c {
      SameId(s.queue, c, d);
    }
    LookupFinds(s.queue, c);
    ContinueIdentity(c);
    ReplaceMembers(s.queue, c, c.Continue());
  }

  /** The route never leads to a cell that does not wait, so no continuation is wasted on a second challenge. */
  lemma RouteOnlyNamesWaiters(es: seq<Event>)
    requires Possible(es) && After(es).phase == Open && After(es).target.Some?
    ensures var s := After(es);
            exists c :: c in s.queue && c.id == s.target.value && c.AwaitsContinuation()
                     && (c.staged || c.hasWritten || !c.command.Rendered())
  {
    RunsKeep(es);
    var s := After(es);
    hide After, Inv, Sorted, Conserved, Staging, Coherent, Routed, Command.Rendered;
    Parts(s);
    var w := TargetCell(s.queue, s.target);
  }
}
