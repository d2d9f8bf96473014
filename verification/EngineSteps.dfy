/** Every step of the engine keeps its invariant, so every run does. */
module EngineSteps {
  import opened Commands
  import opened Engine
  import opened EngineInvariants
  import opened Wrappers

  lemma CellMoves(c: Cell)
    requires c.Valid()
    ensures c.staged ==> c.Flush().Valid() && (c.Flush().AwaitsContinuation() <==> c.AwaitsContinuation())
    ensures c.staged && LineOut(c.Flush()) ==> LineOut(c)
    ensures c.NextSegment() != "" ==> c.Stage().Valid() && !LineOut(c)
    ensures c.Continue().Valid() && !LineOut(c.Continue())
    ensures c.Continue().AwaitsContinuation() ==> c.AwaitsContinuation()
    ensures Fresh(c) ==> !LineOut(c)
    ensures LineOut(c) ==> c.AwaitsContinuation() && c.NextSegment() == ""
  {
  }

  // ---- Winding down ------------------------------------------------------

  /** A state on its way down, before anyone asked whether the close can finish. */
  ghost predicate Winding(s: Core) {
    && Books(s)
    && s.phase != Open && s.target == None
    && (s.abandoned || s.lost ==> s.registry == map[] && AllStaged(s.queue))
    && AllSent(s.queue)
    && (s.phase == Closed ==> NotReading(s.read) && NotWriting(s.write))
  }

  lemma FinishKeeps(s: Core)
    requires Winding(s)
    ensures Inv(MaybeFinishClose(s))
  {
    hide Conserved, Serials, Staging, DropsAreAbandoned, AllStaged, AllSent;
  }

  lemma TakeSent(q: seq<Cell>, ids: set<nat>)
    requires AllSent(q)
    ensures AllSent(Without(q, ids)) && (AllStaged(q) ==> AllStaged(Without(q, ids)))
  {
  }

  lemma CloseKeeps(s: Core)
    requires Inv(s)
    ensures Inv(Close(s))
  {
    if s.phase == Open {
      var taken := UnwrittenIds(s.queue);
      var t := Take(s, taken, Failed);
      assert AllSent(t.queue);
      hide Conserved, Serials, Staging, DropsAreAbandoned, Coherent, Routed, AllSent, AllStaged, UnwrittenIds;
      TakeKeeps(s, taken, Failed);
      FinishKeeps(t.(phase := Draining, target := None,
                     registry := s.registry - (set c | c in Only(s.queue, taken) :: c.Tag())));
    }
  }

  lemma OnlyStagedLeft(q: seq<Cell>)
    ensures AllStaged(Without(q, UnstagedIds(q))) && AllSent(Without(q, UnstagedIds(q)))
  {
  }

  lemma AbandonKeeps(s: Core)
    requires Inv(s)
    ensures Inv(Abandon(s))
  {
    if s.phase != Closed {
      var a := s.(abandoned := true);
      var ids := UnstagedIds(s.queue);
      OnlyStagedLeft(s.queue);
      hide Conserved, Serials, Staging, Coherent, Routed, AllSent, AllStaged, UnstagedIds;
      assert Books(a);
      TakeKeeps(a, ids, Dropped);
      FinishKeeps(Take(a, ids, Dropped).(phase := Draining, target := None, registry := map[]));
    }
  }

  /** `connection_lost` needs less than the invariant: the pumps may just have stopped. */
  lemma ConnectionLostKeeps(s: Core)
    requires Books(s) && s.phase != Closed
    ensures Inv(ConnectionLost(s)) && ConnectionLost(s).lost
  {
    var ids := UnstagedIds(s.queue);
    OnlyStagedLeft(s.queue);
    hide Conserved, Serials, Staging, DropsAreAbandoned, Coherent, Routed, AllSent, AllStaged, UnstagedIds;
    TakeKeeps(s, ids, Failed);
    FinishKeeps(Take(s, ids, Failed).(phase := Draining, registry := map[], target := None, lost := true));
  }

  lemma ReadStopKeeps(s: Core)
    requires Inv(s)
    ensures Inv(ReadStop(s))
  {
    hide Conserved, Serials, Staging, DropsAreAbandoned, Coherent, Routed, AllSent, AllStaged;
    if s.phase != Open {
      FinishKeeps(s.(read := Quiet));
    }
  }

  lemma FatalKeeps(s: Core)
    requires Inv(s) && s.read == Dispatching
    ensures Inv(Fatal(s)) && Fatal(s).lost
  {
    hide Books, Coherent, Routed, AllSent, AllStaged;
    ConnectionLostKeeps(s);
    ReadStopKeeps(ConnectionLost(s));
  }

  lemma UnbatchedKeeps(s: Core)
    requires Books(s)
    ensures var ids := BatchIds(Batch(s.write));
            && Staging(Without(s.queue, ids), [], |s.commands|)
            && forall c | c in Without(s.queue, ids) :: !c.staged
  {
    assert BatchIds([]) == {};
  }

  lemma RetireKeeps(s: Core, ending: Ending)
    requires Inv(s) && s.phase != Open && s.write != Idle && (ending == Dropped ==> s.abandoned)
    ensures Inv(Retire(s, ending))
  {
    var ids := BatchIds(Batch(s.write));
    UnbatchedKeeps(s);
    TakeSent(s.queue, ids);
    hide Conserved, Serials, Staging, DropsAreAbandoned, AllSent, AllStaged, BatchIds;
    TakeKeeps(s, ids, ending);
    FinishKeeps(Take(s, ids, ending).(write := Idle));
  }

  /** The engine once a failed write let go of its cells. */
  function LetGo(s: Core): Core {
    Take(s, BatchIds(Batch(s.write)), Failed).(write := Idle)
  }

  lemma LetGoKeeps(s: Core)
    requires Books(s) && s.phase != Closed
    ensures Books(LetGo(s)) && ConnectionLost(LetGo(s)).queue == []
  {
    UnbatchedKeeps(s);
    HeadIsQueued(ConnectionLost(LetGo(s)).queue);
    hide Conserved, Serials, Staging, DropsAreAbandoned;
    TakeKeeps(s, BatchIds(Batch(s.write)), Failed);
  }

  lemma LogOrderIsFree(s: Core, a: seq<Terminal>, b: seq<Terminal>, c: seq<Terminal>)
    requires Inv(s) && s.log == a + b + c
    ensures Inv(s.(log := a + c + b))
  {
    SwapLog(a, b, c);
    hide LogIds, LoggedOnce, Serials, Staging, Coherent, Routed, AllSent, AllStaged, Sorted, Ids;
    assert Conserved(s.queue, a + c + b, |s.commands|);
  }

  /** The terminal calls of a failed write: the rest of the queue first, its own cells last. */
  lemma WriteFailedIsLoss(s: Core)
    requires s.write.WriteArmed? && s.phase == Open
    ensures var ids := BatchIds(Batch(s.write));
            var mine := Endings(Only(s.queue, ids), Failed);
            var rest := Without(s.queue, ids);
            var others := Endings(Only(rest, UnstagedIds(rest)), Failed);
            && ConnectionLost(LetGo(s)).log == s.log + mine + others
            && WriteDone(s, false, false) == ConnectionLost(LetGo(s)).(log := s.log + others + mine)
  {
    hide BatchIds, UnstagedIds;
  }

  /** A write error while open takes every cell out: those of the write and, through `connection_lost`, the rest. */
  lemma WriteLostKeeps(s: Core)
    requires Inv(s) && s.write.WriteArmed? && s.phase == Open
    ensures Inv(WriteDone(s, false, false)) && WriteDone(s, false, false).queue == []
  {
    assert Books(s) && s.phase != Closed;
    hide Books, TornDown, Inv, WriteDone, ConnectionLost, LetGo, BatchIds, UnstagedIds;
    LetGoKeeps(s);
    WriteFailedIsLoss(s);
    ConnectionLostKeeps(LetGo(s));
    var ids := BatchIds(Batch(s.write));
    var rest := Without(s.queue, ids);
    LogOrderIsFree(ConnectionLost(LetGo(s)), s.log,
                   Endings(Only(s.queue, ids), Failed), Endings(Only(rest, UnstagedIds(rest)), Failed));
  }

  /** While draining it takes the cells of the write, and the rest is left to the loss that follows. */
  lemma WriteFailingKeeps(s: Core)
    requires Inv(s) && s.write.WriteArmed? && s.phase != Open
    ensures Inv(WriteDone(s, false, false)) && WriteDone(s, false, false).write == Failing
  {
    var ids := BatchIds(Batch(s.write));
    UnbatchedKeeps(s);
    TakeSent(s.queue, ids);
    hide Conserved, Serials, Staging, DropsAreAbandoned, AllSent, AllStaged, BatchIds;
    TakeKeeps(s, ids, Failed);
  }

  lemma FailConnectionKeeps(s: Core)
    requires Inv(s) && s.write == Failing
    ensures Inv(FailConnection(s)) && (s.phase != Closed ==> FailConnection(s).lost && FailConnection(s).queue == [])
  {
    BooksOfFailing(s);
    if s.phase != Closed {
      ConnectionLostKeeps(s.(write := Idle));
      NothingBatched(FailConnection(s));
      hide ConnectionLost;
    }
    hide Books, Coherent, Routed, AllSent, AllStaged;
  }

  lemma BooksOfFailing(s: Core)
    requires Books(s) && s.write == Failing
    ensures Books(s.(write := Idle)) && ConnectionLost(s.(write := Idle)).write == Idle
  {
    hide Conserved, Staging, Serials, DropsAreAbandoned, Without, Only, Endings, UnstagedIds;
  }

  /** Once the connection is lost, only the cells of a write in flight are left. */
  lemma NothingBatched(s: Core)
    requires Inv(s) && s.lost && NotWriting(s.write)
    ensures s.queue == []
  {
    HeadIsQueued(s.queue);
    assert BatchIds([]) == {};
  }

  /** The two endings of a failed write; behind both, no cell of the write is left. */
  lemma WriteFailedKeeps(s: Core)
    requires Inv(s) && s.write.WriteArmed?
    ensures var t := WriteDone(s, false, false);
            && Inv(t) && t.queue == (if s.phase == Open then [] else Without(s.queue, BatchIds(Batch(s.write))))
            && NotWriting(t.write) && (t.write == Failing <==> s.phase != Open)
            && (t.write == Failing && t.phase != Closed ==> Inv(FailConnection(t)) && FailConnection(t).queue == [])
  {
    if s.phase == Open {
      WriteLostKeeps(s);
      LossStopsWriting(s);
    } else {
      WriteFailingKeeps(s);
      FailConnectionKeeps(WriteDone(s, false, false));
    }
    hide Inv, FailConnection, ConnectionLost;
  }

  lemma LossStopsWriting(s: Core)
    ensures WriteLost(s).write == Idle
  {
    hide Without, Only, Endings, UnstagedIds, BatchIds;
  }

  // ---- Submission --------------------------------------------------------

  /** A minted tag is not registered, and no queued cell carries it. */
  lemma TagsAreApart(q: seq<Cell>, registry: map<string, nat>, serial: nat)
    requires Coherent(q, registry) && forall c | c in q :: c.serial != serial
    ensures RenderTag(serial) !in registry
    ensures forall c | c in q :: c.Tag() != RenderTag(serial)
  {
    forall c | c in q ensures c.Tag() != RenderTag(serial) {
      if c.Tag() == RenderTag(serial) {
        TagsAreInjective(c.serial, serial);
      }
    }
  }

  lemma EnqueueCoherent(q: seq<Cell>, registry: map<string, nat>, cell: Cell)
    requires Coherent(q, registry) && !cell.detached
    requires forall c | c in q :: c.serial != cell.serial
    ensures Coherent(q + [cell], Emplace(registry, cell.Tag(), cell.id))
    ensures Coherent(q, registry - {cell.Tag()})
  {
    var r := q + [cell];
    assert forall c | c in r :: c in q || c == cell;
    assert forall c | c in q :: c in r;
    assert cell in r;
    TagsAreApart(q, registry, cell.serial);
    hide RenderTag;
    assert registry - {cell.Tag()} == registry;
  }

  lemma EnqueueRouted(q: seq<Cell>, target: Option<nat>, cell: Cell)
    requires Routed(q, target) && Fresh(cell) && cell.Valid() && forall c | c in q :: c.id < cell.id
    ensures Routed(q + [cell], target)
  {
    var r := q + [cell];
    assert forall c | c in r :: c in q || c == cell;
    assert forall c | c in q :: c in r;
    CellMoves(cell);
    hide Fresh, LineOut;
  }

  lemma SerialsDiffer(q: seq<Cell>, counter: nat, minted: set<nat>, serial: nat)
    requires Serials(q, counter, minted) && serial in minted
    ensures forall c | c in q :: c.serial != serial
  {
  }

  lemma NewCell(command: Command, id: nat, serial: nat)
    requires command.Rendered()
    ensures var cell := Cell(id, serial, command, false, false, false, false); Fresh(cell) && cell.Valid()
  {
  }

  lemma EnqueueKeeps(s: Core, serial: nat, command: Command, stopSeen: bool)
    requires Inv(s) && Enabled(s, DoEnqueue(serial, command, stopSeen))
    ensures Inv(Enqueue(s, serial, command, stopSeen))
  {
    hide Conserved, Serials, Staging, DropsAreAbandoned, Coherent, Routed, AllSent, AllStaged, Fresh, Command.Rendered, Cell.Valid, Ids, Sorted;
    var cell := Cell(|s.commands|, serial, command, false, false, false, false);
    NewCell(command, cell.id, serial);
    EnqueueBooks(s, cell);
    if s.phase == Open {
      ConservedIds(s.queue, s.log, |s.commands|);
      SerialsDiffer(s.queue, s.counter, s.minted, serial);
      EnqueueCoherent(s.queue, s.registry, cell);
      EnqueueRouted(s.queue, s.target, cell);
    }
  }

  lemma EnqueueBooks(s: Core, cell: Cell)
    requires Books(s) && cell.id == |s.commands| && cell.serial in s.minted && cell.Valid() && !cell.staged
    ensures Conserved(s.queue + [cell], s.log, |s.commands| + 1)
    ensures forall ending | ending != Dropped ::
              && Conserved(s.queue, s.log + [Terminal(cell.id, ending)], |s.commands| + 1)
              && DropsAreAbandoned(s.log + [Terminal(cell.id, ending)], s.abandoned)
    ensures Staging(s.queue + [cell], Batch(s.write), |s.commands| + 1)
    ensures Staging(s.queue, Batch(s.write), |s.commands| + 1)
    ensures Serials(s.queue + [cell], s.counter, s.minted - {cell.serial})
    ensures Serials(s.queue, s.counter, s.minted - {cell.serial})
  {
    assert forall c | c in s.queue + [cell] :: c in s.queue || c == cell;
    QueueConserves(s.queue, s.log, cell);
    forall ending | ending != Dropped
      ensures Conserved(s.queue, s.log + [Terminal(cell.id, ending)], |s.commands| + 1)
    {
      RejectConserves(s.queue, s.log, Terminal(cell.id, ending));
    }
    hide Conserved, Cell.Valid;
  }

  // ---- Replies and cancellation ------------------------------------------

  /** A registered tag leads to its own attached cell. */
  lemma RegisteredCell(q: seq<Cell>, registry: map<string, nat>, tag: string) returns (c: Cell)
    requires Sorted(q) && Coherent(q, registry) && tag in registry
    ensures c in q && c.Tag() == tag && c.id == registry[tag] && !c.detached
    ensures Lookup(q, registry[tag]) == Some(c)
  {
    c :| c in q && c.Tag() == tag && c.id == registry[tag];
    LookupFinds(q, c);
  }

  lemma OthersHaveOtherTags(q: seq<Cell>, counter: nat, minted: set<nat>, c: Cell)
    requires Serials(q, counter, minted) && c in q
    ensures forall x | x in q && x != c :: x.Tag() != c.Tag()
  {
    forall x | x in q && x != c ensures x.Tag() != c.Tag() {
      if x.Tag() == c.Tag() { TagsAreInjective(x.serial, c.serial); }
    }
  }

  function Cleared(target: Option<nat>, id: nat): Option<nat> {
    if target == Some(id) then None else target
  }

  lemma WithoutOne(q: seq<Cell>, c: Cell)
    requires Sorted(q) && c in q
    ensures forall x :: x in Without(q, {c.id}) <==> x in q && x != c
  {
    forall x | x in q && x.id == c.id ensures x == c { SameId(q, x, c); }
  }

  lemma WithdrawCoherent(q: seq<Cell>, registry: map<string, nat>, c: Cell)
    requires Sorted(q) && Coherent(q, registry) && c in q && !c.detached
    requires forall x | x in q && x != c :: x.Tag() != c.Tag()
    ensures Coherent(Without(q, {c.id}), registry - {c.Tag()})
  {
    hide RenderTag, Sorted, Without;
    var r, after := Without(q, {c.id}), registry - {c.Tag()};
    WithoutOne(q, c);
    forall tag | tag in after ensures exists x :: x in r && x.Tag() == tag && x.id == after[tag] {
      var y :| y in q && y.Tag() == tag && y.id == registry[tag];
      assert y in r;
    }
    forall x | x in r
      ensures if x.detached then x.Tag() !in after else x.Tag() in after && after[x.Tag()] == x.id
    {
      assert x in q && x.Tag() != c.Tag();
    }
  }

  lemma WithdrawRouted(q: seq<Cell>, target: Option<nat>, c: Cell)
    requires Sorted(q) && Routed(q, target) && c in q
    ensures Routed(Without(q, {c.id}), Cleared(target, c.id))
  {
    WithoutOne(q, c);
    hide Fresh, LineOut;
    forall x | x in q && x != c && LineOut(x) ensures Cleared(target, c.id) == Some(x.id) {
      if x.id == c.id { SameId(q, x, c); }
    }
  }

  function Withdraw(s: Core, c: Cell, ending: Ending): Core {
    Take(s, {c.id}, ending).(registry := s.registry - {c.Tag()}, target := Cleared(s.target, c.id))
  }

  lemma WithdrawKeeps(s: Core, c: Cell, ending: Ending)
    requires Inv(s) && s.phase == Open && c in s.queue && ending != Dropped && !c.detached
    ensures Inv(Withdraw(s, c, ending))
  {
    hide Conserved, Serials, Staging, DropsAreAbandoned, Coherent, Routed, AllSent, AllStaged, Sorted, Ids;
    ConservedIds(s.queue, s.log, |s.commands|);
    OthersHaveOtherTags(s.queue, s.counter, s.minted, c);
    WithdrawCoherent(s.queue, s.registry, c);
    WithdrawRouted(s.queue, s.target, c);
    TakeKeeps(s, {c.id}, ending);
  }

  lemma ReplaceMembers(q: seq<Cell>, c: Cell, d: Cell)
    requires Sorted(q) && c in q && d.id == c.id
    ensures forall x :: x in Replace(q, d) <==> x == d || (x in q && x != c)
  {
    var r := Replace(q, d);
    forall x | x in r ensures x == d || (x in q && x != c) {
      var i :| 0 <= i < |r| && r[i] == x;
      assert q[i] in q;
    }
    forall x | x == d || (x in q && x != c) ensures x in r {
      var y := if x == d then c else x;
      var i :| 0 <= i < |q| && q[i] == y;
      if x != d && x.id == c.id { SameId(q, x, c); }
      assert r[i] in r;
    }
  }

  /** A cell replaced by another state of itself. */
  lemma ReplaceBooks(s: Core, c: Cell, d: Cell)
    requires Books(s) && c in s.queue
    requires d.id == c.id && d.serial == c.serial && d.staged == c.staged && d.Valid()
    ensures Books(s.(queue := Replace(s.queue, d)))
  {
    var q, r := s.queue, Replace(s.queue, d);
    ReplaceMembers(q, c, d);
    SameIds(q, r);
    assert Staging(r, Batch(s.write), |s.commands|);
    assert Serials(r, s.counter, s.minted);
    hide Staging, Serials, Sorted, LogIds, LoggedOnce, Ids;
    assert Conserved(r, s.log, |s.commands|);
  }

  lemma ReplaceRouted(q: seq<Cell>, target: Option<nat>, c: Cell, d: Cell)
    requires Sorted(q) && Routed(q, target) && c in q && d.id == c.id
    requires (LineOut(d) <==> LineOut(c)) && (d.AwaitsContinuation() <==> c.AwaitsContinuation()) && (Fresh(d) <==> Fresh(c))
    ensures Routed(Replace(q, d), target)
  {
    hide Fresh, LineOut;
    ReplaceMembers(q, c, d);
    if target.Some? {
      var w :| w in q && w.id == target.value && w.AwaitsContinuation() && !Fresh(w);
      assert (if w == c then d else w) in Replace(q, d);
    }
  }

  lemma ReplaceCoherent(q: seq<Cell>, registry: map<string, nat>, c: Cell, d: Cell)
    requires Sorted(q) && Coherent(q, registry) && c in q
    requires d.id == c.id && d.serial == c.serial && (c.detached ==> d.detached)
    requires forall x | x in q && x != c :: x.Tag() != c.Tag()
    ensures Coherent(Replace(q, d), if d.detached then registry - {c.Tag()} else registry)
  {
    hide RenderTag;
    ReplaceMembers(q, c, d);
    var r, after := Replace(q, d), if d.detached then registry - {c.Tag()} else registry;
    assert d in r && d.Tag() == c.Tag();
    forall tag | tag in after ensures exists x :: x in r && x.Tag() == tag && x.id == after[tag] {
      var y :| y in q && y.Tag() == tag && y.id == registry[tag];
      assert (if y == c then d else y) in r;
    }
  }

  lemma ReplaceKeeps(s: Core, c: Cell, d: Cell)
    requires Inv(s) && s.phase == Open && c in s.queue && (c.detached ==> d.detached)
    requires d.id == c.id && d.serial == c.serial && d.staged == c.staged && d.Valid()
    requires (LineOut(d) <==> LineOut(c)) && (d.AwaitsContinuation() <==> c.AwaitsContinuation()) && (Fresh(d) <==> Fresh(c))
    ensures Inv(s.(queue := Replace(s.queue, d),
                   registry := if d.detached then s.registry - {c.Tag()} else s.registry))
  {
    hide Sorted, Ids, Conserved, Serials, Staging, DropsAreAbandoned, Coherent, Routed, AllSent, AllStaged, Fresh, LineOut, Cell.Valid;
    ConservedIds(s.queue, s.log, |s.commands|);
    OthersHaveOtherTags(s.queue, s.counter, s.minted, c);
    ReplaceRouted(s.queue, s.target, c, d);
    ReplaceCoherent(s.queue, s.registry, c, d);
    ReplaceBooks(s, c, d);
  }

  lemma NotTheTarget(q: seq<Cell>, target: Option<nat>, c: Cell)
    requires Sorted(q) && Routed(q, target) && c in q && !c.AwaitsContinuation()
    ensures target != Some(c.id)
  {
    if target == Some(c.id) {
      var w :| w in q && w.id == c.id && w.AwaitsContinuation();
      SameId(q, w, c);
    }
  }

  lemma DetachKeeps(s: Core, tag: string, c: Cell)
    requires Inv(s) && s.phase == Open && c in s.queue && c.Tag() == tag && !c.detached
    ensures Inv(Detach(s, tag, c))
  {
    if c.Unsent() || (!c.command.IdleCommand? && c.IsWritten()) {
      NotTheTarget(s.queue, s.target, c);
      WithdrawKeeps(s, c, Stopped);
    } else if c.command.IdleCommand? {
      ReplaceKeeps(s, c, c.(command := c.command.DoneAsked(), stopped := true));
    } else {
      ReplaceKeeps(s, c, c.(detached := true));
    }
  }

  lemma CancelKeeps(s: Core, tag: string)
    requires Inv(s)
    ensures Inv(Cancel(s, tag))
  {
    hide Sorted, Ids, Conserved, Serials, Staging, DropsAreAbandoned, Coherent, Routed, TornDown, Detach;
    ConservedIds(s.queue, s.log, |s.commands|);
    if s.phase == Open && tag in s.registry {
      var c := RegisteredCell(s.queue, s.registry, tag);
      DetachKeeps(s, tag, c);
    }
  }

  lemma Queued(q: seq<Cell>, c: Cell)
    requires c in q
    ensures c.id in Ids(q)
  {
  }

  lemma TaggedKeepsOpen(s: Core, tag: string)
    requires Inv(s) && s.read == Dispatching && s.phase == Open && tag in s.registry
    ensures Inv(TaggedReply(s, tag))
  {
    hide Sorted, Ids, Conserved, Serials, Staging, DropsAreAbandoned, Coherent, Routed, AllSent, AllStaged, RenderTag;
    ConservedIds(s.queue, s.log, |s.commands|);
    var c := RegisteredCell(s.queue, s.registry, tag);
    Queued(s.queue, c);
    WithdrawKeeps(s, c, Tagged);
  }

  lemma TaggedKeeps(s: Core, tag: string)
    requires Inv(s) && s.read == Dispatching
    ensures Inv(TaggedReply(s, tag))
  {
    hide Sorted, Ids, Conserved, Serials, Staging, DropsAreAbandoned, Coherent, Routed, AllSent, AllStaged;
    if tag in s.registry {
      if s.phase == Open {
        TaggedKeepsOpen(s, tag);
      } else {
        var id := s.registry[tag];
        var t := s.(registry := s.registry - {tag});
        TakeSent(s.queue, {id});
        if id !in Ids(s.queue) {
          FatalKeeps(t);
        } else {
          TakeKeeps(t, {id}, Tagged);
        }
      }
    }
  }

  // ---- Continuations ------------------------------------------------------

  lemma TargetCell(q: seq<Cell>, target: Option<nat>) returns (w: Cell)
    requires Sorted(q) && Routed(q, target) && target.Some?
    ensures w in q && w.id == target.value && w.AwaitsContinuation() && !Fresh(w)
    ensures Lookup(q, w.id) == Some(w)
  {
    w :| w in q && w.id == target.value && w.AwaitsContinuation() && !Fresh(w);
    LookupFinds(q, w);
  }

  lemma AnswerRouted(q: seq<Cell>, w: Cell)
    requires Sorted(q) && Routed(q, Some(w.id)) && w in q && w.AwaitsContinuation() && !Fresh(w) && w.Valid()
    ensures Routed(Replace(q, w.Continue()), None)
  {
    CellMoves(w);
    var d := w.Continue();
    ReplaceMembers(q, w, d);
    var r := Replace(q, d);
    forall x | x in q && x.id == w.id ensures x == w { SameId(q, x, w); }
    hide Fresh, LineOut;
    assert Walled(r) by {
      forall a, b | a in r && b in r && a.AwaitsContinuation() && a.id < b.id ensures Fresh(b) {
        var a' := if a == d then w else a;
        assert a' in q && a'.AwaitsContinuation();
        assert b != d;
      }
    }
  }

  lemma AnswerCoherent(q: seq<Cell>, registry: map<string, nat>, w: Cell)
    requires Sorted(q) && Coherent(q, registry) && w in q
    ensures Coherent(Replace(q, w.Continue()), registry)
  {
    forall i | 0 <= i < |q| && q[i].id == w.id ensures q[i] == w { SameId(q, q[i], w); }
    ReshapeCoherent(q, Replace(q, w.Continue()), registry);
  }

  lemma CellsAreValid(q: seq<Cell>, batch: seq<Chunk>, n: nat, c: Cell)
    requires Staging(q, batch, n) && c in q
    ensures c.Valid()
  {
  }

  lemma ContinuationKeeps(s: Core)
    requires Inv(s) && s.read == Dispatching
    ensures Inv(ContinuationRequest(s))
  {
    hide Conserved, Serials, Staging, DropsAreAbandoned, Coherent, Routed, AllSent, AllStaged, Fresh, Sorted, Ids, Cell.Valid, LineOut;
    if s.target == None {
      FatalKeeps(s);
    } else {
      ConservedIds(s.queue, s.log, |s.commands|);
      var w := TargetCell(s.queue, s.target);
      CellsAreValid(s.queue, Batch(s.write), |s.commands|, w);
      CellMoves(w);
      AnswerRouted(s.queue, w);
      AnswerCoherent(s.queue, s.registry, w);
      ReplaceBooks(s, w, w.Continue());
    }
  }

  // ---- The drain ----------------------------------------------------------

  lemma BatchIdsOf(a: seq<Chunk>, b: seq<Chunk>)
    ensures BatchIds(a + b) == BatchIds(a) + BatchIds(b)
  {
    forall id | id in BatchIds(a) + BatchIds(b) ensures id in BatchIds(a + b) {
      var ch :| (ch in a || ch in b) && ch.id == id;
      assert ch in a + b;
    }
  }

  /** The batch of a queue, one cell at a time. */
  lemma DrainHead(q: seq<Cell>)
    requires q != []
    ensures BatchIds(Drain(q)) == (if q[0].NextSegment() == "" then {} else {q[0].id})
                                  + (if IsWall(q[0]) then {} else BatchIds(Drain(q[1..])))
  {
    BatchIdsOf(if q[0].NextSegment() == "" then [] else [NextChunk(q[0])],
               if IsWall(q[0]) then [] else Drain(q[1..]));
  }

  lemma {:induction false} DrainIds(q: seq<Cell>)
    ensures BatchIds(Drain(q)) <= Ids(q)
  {
    if q != [] {
      DrainHead(q);
      DrainIds(q[1..]);
      IdsOfTail(q);
      hide Drain, Ids, BatchIds;
    }
  }

  lemma IdsOfTail(q: seq<Cell>)
    requires q != []
    ensures q[0].id in Ids(q) && Ids(q[1..]) <= Ids(q)
  {
  }

  lemma {:induction false} DrainedChunk(q: seq<Cell>, c: Cell, ch: Chunk)
    requires Sorted(q) && c in q && ch in Drain(q) && ch.id == c.id
    ensures ch == NextChunk(c) && c.NextSegment() != ""
    decreases |q|
  {
    TailIsLater(q);
    DrainIds(q[1..]);
    var own := if q[0].NextSegment() == "" then [] else [NextChunk(q[0])];
    var rest := if IsWall(q[0]) then [] else Drain(q[1..]);
    assert Drain(q) == own + rest;
    hide Drain, IsWall, NextIndex, Cell.NextSegment, Sorted;
    assert ch in rest ==> ch.id in BatchIds(rest) && ch.id in Ids(q[1..]);
    assert c == q[0] || c in q[1..];
    if c != q[0] {
      assert c.id in Ids(q[1..]);
      DrainedChunk(q[1..], c, ch);
    }
  }

  /** A batch holds the next chunk of each of its cells, and no others. */
  lemma DrainChunks(q: seq<Cell>)
    requires Sorted(q)
    ensures BatchIds(Drain(q)) <= Ids(q)
    ensures forall c | c in q && c.id in BatchIds(Drain(q)) :: c.NextSegment() != ""
    ensures forall c, ch | c in q && ch in Drain(q) && ch.id == c.id :: ch == NextChunk(c)
  {
    hide Drain, NextChunk, Cell.NextSegment, Sorted;
    DrainIds(q);
    forall c, ch | c in q && ch in Drain(q) && ch.id == c.id ensures ch == NextChunk(c) && c.NextSegment() != "" {
      DrainedChunk(q, c, ch);
    }
  }

  /** A batch takes one segment from each of its cells, in queue order. */
  lemma {:induction false} DrainAscends(q: seq<Cell>)
    requires Sorted(q)
    ensures forall i, j | 0 <= i < j < |Drain(q)| :: Drain(q)[i].id < Drain(q)[j].id
  {
    if q != [] {
      TailIsLater(q);
      DrainAscends(q[1..]);
      DrainChunks(q[1..]);
      var own := if q[0].NextSegment() == "" then [] else [NextChunk(q[0])];
      var rest := if IsWall(q[0]) then [] else Drain(q[1..]);
      assert Drain(q) == own + rest;
      forall j | 0 <= j < |rest| ensures q[0].id < rest[j].id {
        assert rest[j].id in BatchIds(rest);
        assert rest[j].id in Ids(q[1..]);
      }
    }
  }

  /** Nothing is staged behind a waiting cell. */
  lemma {:induction false} DrainStopsAtWalls(q: seq<Cell>, a: Cell)
    requires Sorted(q) && a in q && a.AwaitsContinuation()
    ensures forall id | id in BatchIds(Drain(q)) :: id <= a.id
  {
    TailIsLater(q);
    DrainHead(q);
    if a == q[0] || IsWall(q[0]) {
      assert q[0].id <= a.id;
    } else {
      DrainStopsAtWalls(q[1..], a);
    }
  }

  /** The waiter is a queued cell of the batch that waits, and there is one if any cell of the batch waits. */
  lemma {:induction false} WaiterWaits(q: seq<Cell>, batch: seq<Chunk>)
    requires Sorted(q)
    ensures var w := Waiter(q, batch);
            w.Some? ==> w.value in BatchIds(batch) && exists c :: c in q && c.id == w.value && c.AwaitsContinuation()
    ensures forall c | c in q && c.id in BatchIds(batch) && c.AwaitsContinuation() :: Waiter(q, batch).Some?
  {
    if batch != [] {
      var last := batch[|batch| - 1];
      WaiterWaits(q, batch[..|batch| - 1]);
      assert batch == batch[..|batch| - 1] + [last];
      BatchIdsOf(batch[..|batch| - 1], [last]);
      forall c | c in q && c.id == last.id ensures Lookup(q, last.id) == Some(c) {
        LookupFinds(q, c);
      }
    }
  }

  lemma StagedMember(q: seq<Cell>, ids: set<nat>, x: Cell) returns (c: Cell)
    requires x in StageAll(q, ids)
    ensures c in q && x == if c.id in ids then c.Stage() else c
  {
    var r := StageAll(q, ids);
    var i :| 0 <= i < |r| && r[i] == x;
    c := q[i];
  }

  lemma StagedImage(q: seq<Cell>, ids: set<nat>, c: Cell)
    requires c in q
    ensures (if c.id in ids then c.Stage() else c) in StageAll(q, ids)
  {
    var i :| 0 <= i < |q| && q[i] == c;
    assert StageAll(q, ids)[i] in StageAll(q, ids);
  }

  lemma KickStaging(q: seq<Cell>, n: nat)
    requires Sorted(q) && Staging(q, [], n) && forall id | id in Ids(q) :: id < n
    ensures Staging(StageAll(q, BatchIds(Drain(q))), Drain(q), n)
  {
    var batch := Drain(q);
    DrainChunks(q);
    forall x | x in StageAll(q, BatchIds(batch))
      ensures x.Valid() && (x.staged <==> x.id in BatchIds(batch))
    {
      var c := StagedMember(q, BatchIds(batch), x);
      CellMoves(c);
      assert c.id !in BatchIds([]);
    }
    forall ch | ch in batch ensures ch.id < n {
      assert ch.id in BatchIds(batch);
    }
  }

  /** The route after a drain. */
  function Rerouted(q: seq<Cell>, batch: seq<Chunk>, target: Option<nat>): Option<nat> {
    var w := Waiter(q, batch);
    if w.Some? then w else target
  }

  lemma KickWalled(q: seq<Cell>)
    requires Sorted(q) && Walled(q)
    ensures Walled(StageAll(q, BatchIds(Drain(q))))
  {
    var ids := BatchIds(Drain(q));
    var r := StageAll(q, ids);
    forall a, b | a in r && b in r && a.AwaitsContinuation() && a.id < b.id ensures Fresh(b) {
      var a' := StagedMember(q, ids, a);
      var b' := StagedMember(q, ids, b);
      DrainStopsAtWalls(q, a');
    }
  }

  lemma LineHasItsRoute(q: seq<Cell>, target: Option<nat>, n: nat, c: Cell)
    requires Sorted(q) && Routed(q, target) && Staging(q, [], n) && c in q
    requires LineOut(if c.id in BatchIds(Drain(q)) then c.Stage() else c)
    ensures Rerouted(q, Drain(q), target) == Some(c.id)
  {
    CellsAreValid(q, [], n, c);
    DrainedLine(c, BatchIds(Drain(q)));
    DrainChunks(q);
    WaiterWaits(q, Drain(q));
    var w := Waiter(q, Drain(q));
    hide LineOut, Fresh, Waiter, Drain, BatchIds, Cell.AwaitsContinuation, Cell.NextSegment, Ids, Sorted;
    if w.Some? {
      var v :| v in q && v.id == w.value && v.AwaitsContinuation();
      DrainStopsAtWalls(q, v);
      DrainStopsAtWalls(q, c);
      if v.id < c.id {
        assert false;
      }
    }
  }

  /** A line that is out after a drain belongs to a waiting cell: a staged one, or one that had started before. */
  lemma DrainedLine(c: Cell, ids: set<nat>)
    requires c.Valid() && LineOut(if c.id in ids then c.Stage() else c)
    ensures c.AwaitsContinuation() && (c.id !in ids ==> LineOut(c) && !Fresh(c))
    ensures LineOut(c) ==> c.NextSegment() == ""
  {
  }

  lemma RerouteWaits(q: seq<Cell>, target: Option<nat>)
    requires Sorted(q) && Routed(q, target) && Rerouted(q, Drain(q), target).Some?
    ensures var t := Rerouted(q, Drain(q), target);
            exists c :: c in StageAll(q, BatchIds(Drain(q))) && c.id == t.value && c.AwaitsContinuation() && !Fresh(c)
  {
    var ids := BatchIds(Drain(q));
    WaiterWaits(q, Drain(q));
    var w := Waiter(q, Drain(q));
    if w.Some? {
      var c :| c in q && c.id == w.value && c.AwaitsContinuation();
      StagedImage(q, ids, c);
    } else {
      var c := TargetCell(q, target);
      StagedImage(q, ids, c);
    }
  }

  /** Staging keeps the walls, and a freshly staged line becomes the target. */
  lemma KickRouted(q: seq<Cell>, target: Option<nat>, n: nat)
    requires Sorted(q) && Routed(q, target) && Staging(q, [], n)
    ensures Routed(StageAll(q, BatchIds(Drain(q))), Rerouted(q, Drain(q), target))
  {
    var ids := BatchIds(Drain(q));
    KickWalled(q);
    var t := Rerouted(q, Drain(q), target);
    if t.Some? { RerouteWaits(q, target); }
    hide Fresh, LineOut, Walled, BatchIds;
    forall x | x in StageAll(q, ids) && LineOut(x) ensures t == Some(x.id) {
      var c := StagedMember(q, ids, x);
      LineHasItsRoute(q, target, n, c);
    }
  }

  lemma StageReshapes(q: seq<Cell>, ids: set<nat>)
    ensures Reshaped(q, StageAll(q, ids))
  {
  }

  lemma KickKeeps(s: Core)
    requires Inv(s)
    ensures Inv(Kick(s))
  {
    hide Conserved, Serials, Staging, DropsAreAbandoned, Coherent, Routed, AllSent, AllStaged, Reshaped, BatchIds, Waiter, Sorted, Ids;
    if s.phase == Open && s.write == Idle && Drain(s.queue) != [] {
      var q, batch := s.queue, Drain(s.queue);
      var r := StageAll(q, BatchIds(batch));
      StageReshapes(q, BatchIds(batch));
      ConservedIds(q, s.log, |s.commands|);
      KickStaging(q, |s.commands|);
      KickRouted(q, s.target, |s.commands|);
      ReshapeConserves(q, r, s.log, |s.commands|);
      ReshapeSerials(q, r, s.counter, s.minted);
      ReshapeCoherent(q, r, s.registry);
    }
  }

  lemma ArmWriteKeeps(s: Core)
    requires Inv(s) && s.write.Latched?
    ensures Inv(ArmWrite(s))
  {
    if s.phase == Open && !s.abandoned {
      hide Conserved, Serials, Staging, DropsAreAbandoned, Coherent, Routed, AllSent, AllStaged;
    } else {
      RetireKeeps(s, if s.abandoned then Dropped else Failed);
    }
  }

  // ---- Write completion ----------------------------------------------------

  lemma FlushedMember(q: seq<Cell>, ids: set<nat>, x: Cell) returns (c: Cell)
    requires x in FlushAll(q, ids)
    ensures c in q && x == if c.id in ids then c.Flush() else c
  {
    var r := FlushAll(q, ids);
    var i :| 0 <= i < |r| && r[i] == x;
    c := q[i];
  }

  lemma FlushedImage(q: seq<Cell>, ids: set<nat>, c: Cell)
    requires c in q
    ensures (if c.id in ids then c.Flush() else c) in FlushAll(q, ids)
  {
    var i :| 0 <= i < |q| && q[i] == c;
    assert FlushAll(q, ids)[i] in FlushAll(q, ids);
  }

  lemma FlushReshapes(q: seq<Cell>, ids: set<nat>)
    ensures Reshaped(q, FlushAll(q, ids))
  {
  }

  lemma FlushStaging(q: seq<Cell>, batch: seq<Chunk>, n: nat)
    requires Staging(q, batch, n)
    ensures Staging(FlushAll(q, BatchIds(batch)), [], n)
  {
    forall x | x in FlushAll(q, BatchIds(batch)) ensures x.Valid() && (x.staged <==> x.id in BatchIds([])) {
      var c := FlushedMember(q, BatchIds(batch), x);
      CellMoves(c);
      assert c.id !in BatchIds([]);
    }
  }

  /** Two waiting cells that have both started are the same cell. */
  lemma OneWaits(q: seq<Cell>, a: Cell, b: Cell)
    requires Sorted(q) && Walled(q) && a in q && b in q && a.AwaitsContinuation() && b.AwaitsContinuation()
    requires !Fresh(a) && !Fresh(b)
    ensures a == b
  {
    hide Fresh;
    if a.id == b.id { SameId(q, a, b); }
  }

  /** What flushing a cell of the batch does to its place on the route. */
  lemma FlushMoves(c: Cell, ids: set<nat>)
    requires c.Valid() && (c.staged <==> c.id in ids)
    ensures var x := if c.id in ids then c.Flush() else c;
            && x.id == c.id
            && (x.AwaitsContinuation() <==> c.AwaitsContinuation())
            && (LineOut(x) ==> LineOut(c))
            && (Fresh(c) <==> Fresh(x))
            && (c.id in ids ==> !Fresh(c))
            && (LineOut(c) ==> !Fresh(c) && c.AwaitsContinuation())
  {
    CellMoves(c);
  }

  lemma FlushRouted(q: seq<Cell>, target: Option<nat>, batch: seq<Chunk>, n: nat)
    requires Sorted(q) && Routed(q, target) && Staging(q, batch, n)
    ensures var r := FlushAll(q, BatchIds(batch)); Routed(r, Rerouted(r, batch, target))
  {
    var ids := BatchIds(batch);
    var r := FlushAll(q, ids);
    var t := Rerouted(r, batch, target);
    SameIds(q, r);
    WaiterWaits(r, batch);
    forall c | c in q
      ensures c.Valid() && (c.staged <==> c.id in ids)
    {
    }
    hide Fresh, LineOut, BatchIds, Waiter, Cell.Valid, Cell.Flush, Cell.AwaitsContinuation;
    forall a, b | a in r && b in r && a.AwaitsContinuation() && a.id < b.id ensures Fresh(b) {
      var a' := FlushedMember(q, ids, a);
      var b' := FlushedMember(q, ids, b);
      FlushMoves(a', ids);
      FlushMoves(b', ids);
    }
    forall x | x in r && LineOut(x) ensures t == Some(x.id) {
      var c := FlushedMember(q, ids, x);
      FlushMoves(c, ids);
      var w := Waiter(r, batch);
      if w.Some? {
        var v :| v in r && v.id == w.value && v.AwaitsContinuation();
        var v' := FlushedMember(q, ids, v);
        FlushMoves(v', ids);
        OneWaits(q, c, v');
      }
    }
    if t.Some? {
      if Waiter(r, batch).Some? {
        var v :| v in r && v.id == t.value && v.AwaitsContinuation();
        var v' := FlushedMember(q, ids, v);
        FlushMoves(v', ids);
      } else {
        var c := TargetCell(q, target);
        FlushMoves(c, ids);
        FlushedImage(q, ids, c);
      }
    }
  }

  /** Cells that do not wait can leave without touching the route. */
  lemma RemoveRouted(q: seq<Cell>, target: Option<nat>, ids: set<nat>)
    requires Routed(q, target) && forall c | c in q && c.id in ids :: !c.AwaitsContinuation()
    ensures Routed(Without(q, ids), target)
  {
    hide Fresh, LineOut;
  }

  /** Detached cells can leave without touching the registry. */
  lemma RemoveCoherent(q: seq<Cell>, registry: map<string, nat>, ids: set<nat>)
    requires Coherent(q, registry) && forall c | c in q && c.id in ids :: c.detached
    ensures Coherent(Without(q, ids), registry)
  {
    hide RenderTag;
    forall tag | tag in registry ensures exists x :: x in Without(q, ids) && x.Tag() == tag && x.id == registry[tag] {
      var y :| y in q && y.Tag() == tag && y.id == registry[tag];
      assert y in Without(q, ids);
    }
  }

  lemma FinishedCells(q: seq<Cell>, ids: set<nat>)
    requires Sorted(q)
    ensures forall c | c in q && c.id in FinishedIds(q, ids) :: c.detached && !c.AwaitsContinuation()
  {
    forall c | c in q && c.id in FinishedIds(q, ids) ensures c.detached && !c.AwaitsContinuation() {
      var d :| d in q && d.id == c.id && d.detached && d.IsWritten();
      SameId(q, c, d);
    }
  }

  lemma SettleKeeps(s: Core)
    requires Inv(s) && s.phase == Open
    ensures Inv(Settle(s))
  {
    hide Conserved, Serials, Staging, DropsAreAbandoned, Coherent, Routed, AllSent, AllStaged, Reshaped, BatchIds, Waiter,
         Sorted, Ids, FinishedIds, SpoiledIds;
    var q, batch, n := s.queue, Batch(s.write), |s.commands|;
    var ids := BatchIds(batch);
    var r := FlushAll(q, ids);
    var gone := FinishedIds(r, ids);
    ConservedIds(q, s.log, n);
    FlushReshapes(q, ids);
    FlushStaging(q, batch, n);
    FlushRouted(q, s.target, batch, n);
    ReshapeConserves(q, r, s.log, n);
    ReshapeSerials(q, r, s.counter, s.minted);
    ReshapeCoherent(q, r, s.registry);
    ConservedIds(r, s.log, n);
    FinishedCells(r, ids);
    RemoveRouted(r, Rerouted(r, batch, s.target), gone);
    RemoveCoherent(r, s.registry, gone);
    TakeKeeps(s.(queue := r, write := Idle), gone, Stopped);
  }

  lemma WriteDoneKeeps(s: Core, ok: bool, quiet: bool)
    requires Inv(s) && Enabled(s, DoWriteDone(ok, quiet))
    ensures Inv(WriteDone(s, ok, quiet))
  {
    hide Books, Coherent, Routed, AllSent, AllStaged;
    if quiet {
      RetireKeeps(s, Dropped);
    } else if !ok {
      WriteFailedKeeps(s);
    } else if s.phase == Open {
      SettleKeeps(s);
    } else {
      RetireKeeps(s, Failed);
    }
  }

  // ---- Runs ----------------------------------------------------------------

  lemma AllocateTagKeeps(s: Core)
    requires Inv(s)
    ensures Inv(AllocateTag(s))
  {
    hide Conserved, Staging, DropsAreAbandoned, Coherent, Routed, AllSent, AllStaged;
  }

  /** Steps that only move flags of the pumps. */
  lemma FlagsKeep(s: Core, e: Event)
    requires Inv(s) && Enabled(s, e)
    requires e.DoSuspend? || e.DoPostKick? || e.DoKickFired? || e.DoUntagged?
    ensures Inv(Step(s, e))
  {
    hide Inv, UntaggedReply, PostKick, Close, Abandon, Fatal, LoseConnection, FailConnection, Cancel, Kick, WriteDone, ArmWrite,
         TaggedReply, ContinuationRequest, Enqueue, AllocateTag, ReadDone, ReadFailed, DecideRearm, ArmRead, Command.Rendered;
    match e
    case DoUntagged(kind, line) => UntaggedKeeps(s, kind, line);
    case DoPostKick => PostKickKeeps(s);
    case DoSuspend => OnlyFlags(s, s.(suspended := true));
    case DoKickFired => OnlyFlags(s, s.(kickPosted := false));
    case _ =>
  }

  lemma UntaggedKeeps(s: Core, kind: Kind, line: string)
    requires Inv(s) && s.read == Dispatching
    ensures Inv(UntaggedReply(s, kind, line))
  {
    hide Inv, Owner, CommandScoped;
    OnlyFlags(s, UntaggedReply(s, kind, line));
  }

  lemma PostKickKeeps(s: Core)
    requires Inv(s)
    ensures Inv(PostKick(s))
  {
    hide Inv;
    OnlyFlags(s, PostKick(s));
  }

  lemma OnlyFlags(s: Core, t: Core)
    requires Inv(s)
    requires t == s.(suspended := t.suspended, bye := t.bye, kickPosted := t.kickPosted, absorbed := t.absorbed)
    ensures Inv(t)
  {
    hide Conserved, Staging, Serials, DropsAreAbandoned, Coherent, Routed, AllSent, AllStaged;
  }

  lemma ReadFlagsKeep(s: Core, e: Event)
    requires Inv(s) && Enabled(s, e) && (e.DoReadDone? || e.DoDecideRearm? || e.DoArmRead? || e.DoReadFailed?)
    ensures Inv(Step(s, e))
  {
    ReadStopKeeps(s);
    hide Books, Coherent, Routed, AllSent, AllStaged, ReadStop;
    if Step(s, e) != ReadStop(s) {
      assert Books(Step(s, e)) by { BooksIgnoreReads(s, Step(s, e).read); }
    }
  }

  lemma BooksIgnoreReads(s: Core, read: ReadState)
    requires Books(s)
    ensures Books(s.(read := read))
  {
    hide Conserved, Staging, Serials, DropsAreAbandoned;
  }

  lemma LoseConnectionKeeps(s: Core)
    requires Inv(s)
    ensures Inv(LoseConnection(s)) && (s.phase != Closed ==> LoseConnection(s).lost)
  {
    BooksIgnoreReads(s, Quiet);
    if s.phase != Closed {
      ConnectionLostKeeps(s.(read := Quiet));
      hide ConnectionLost;
    }
    hide Books, Coherent, Routed, AllSent, AllStaged;
  }

  lemma StepKeeps(s: Core, e: Event)
    requires Inv(s) && Enabled(s, e)
    ensures Inv(Step(s, e))
  {
    hide Inv;
    match e
    case DoAllocateTag => AllocateTagKeeps(s);
    case DoEnqueue(serial, command, stopSeen) => EnqueueKeeps(s, serial, command, stopSeen);
    case DoCancel(tag) => CancelKeeps(s, tag);
    case DoClose => CloseKeeps(s);
    case DoAbandon => AbandonKeeps(s);
    case DoKick => KickKeeps(s);
    case DoArmWrite => ArmWriteKeeps(s);
    case DoWriteDone(ok, quiet) => WriteDoneKeeps(s, ok, quiet);
    case DoFailConnection => FailConnectionKeeps(s);
    case DoLoseConnection => LoseConnectionKeeps(s);
    case DoMalformed => FatalKeeps(s);
    case DoTagged(reply) => TaggedKeeps(s, reply);
    case DoContinuation => ContinuationKeeps(s);
    case DoReadDone => ReadFlagsKeep(s, e);
    case DoDecideRearm => ReadFlagsKeep(s, e);
    case DoArmRead => ReadFlagsKeep(s, e);
    case DoReadFailed => ReadFlagsKeep(s, e);
    case _ => FlagsKeep(s, e);
  }

  lemma StartHolds()
    ensures Inv(Start())
  {
  }

  /** Every state of every run satisfies the invariant. */
  lemma {:induction false} RunsKeep(es: seq<Event>)
    requires Possible(es)
    ensures Inv(After(es))
  {
    hide Inv, Step;
    if es == [] {
      StartHolds();
    } else {
      RunsKeep(es[..|es| - 1]);
      StepKeeps(After(es[..|es| - 1]), es[|es| - 1]);
    }
  }

  /** One more event. */
  lemma Extend(es: seq<Event>, e: Event)
    requires Possible(es) && Enabled(After(es), e)
    ensures Possible(es + [e]) && After(es + [e]) == Step(After(es), e)
  {
    assert (es + [e])[..|es|] == es;
  }
}
