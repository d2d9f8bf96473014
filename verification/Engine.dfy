/**
 The connection engine as a transition system: one `Event` per section that the
 context mutex protects, together with the `maybe_finish_close` that trails it.
 */
module Engine {
  import opened Commands
  import opened Decimal
  import opened Wrappers

  // ---- Cells ------------------------------------------------------------

  /** A queued operation. `id` is its identity; `serial` is the counter value its tag was made from. */
  datatype Cell = Cell(
    id: nat, serial: nat, command: Command,
    staged: bool, hasWritten: bool, detached: bool, stopped: bool)
  {
    function Tag(): string {
      RenderTag(serial)
    }

    function NextSegment(): string {
      if staged then "" else command.NextSegment()
    }

    predicate AwaitsContinuation() {
      command.AwaitsContinuation()
    }

    predicate IsWritten() {
      !staged && !command.AwaitsContinuation() && command.NextSegment() == ""
    }

    function Stage(): Cell {
      this.(staged := true)
    }

    function Flush(): Cell {
      this.(staged := false, hasWritten := true, command := command.Flushed())
    }

    function Continue(): Cell {
      this.(command := command.Continued())
    }

    /** The queued cell may be withdrawn on cancellation without the server ever noticing. */
    predicate Unsent() {
      !hasWritten && !IsWritten() && !staged && !AwaitsContinuation()
    }

    predicate Valid() {
      && command.Valid()
      && (staged ==> match command
                     case Segmented(_, emitted, unlocked, _, _) => emitted < unlocked
                     case IdleCommand(_, _, pending, _) => pending)
    }
  }

  /** The tag made from counter value `n`: `a` and at least four digits. */
  function RenderTag(n: nat): string {
    "a" + Pad(Digits(n))
  }

  function Pad(digits: string): string
    decreases 4 - |digits|
  {
    if |digits| < 4 then Pad("0" + digits) else digits
  }

  /** Different counter values never share a tag. */
  lemma TagsAreInjective(m: nat, n: nat)
    requires RenderTag(m) == RenderTag(n)
    ensures m == n
  {
    TagDenotes(m);
    TagDenotes(n);
  }

  lemma TagDenotes(n: nat)
    ensures AllDigits(RenderTag(n)[1..]) && Value(RenderTag(n)[1..]) == n
  {
    PadKeepsValue(Digits(n));
    ValueOfDigits(n);
    assert RenderTag(n)[1..] == Pad(Digits(n));
  }

  lemma {:induction false} PadKeepsValue(digits: string)
    requires AllDigits(digits)
    ensures AllDigits(Pad(digits)) && Value(Pad(digits)) == Value(digits)
    decreases 4 - |digits|
  {
    if |digits| < 4 {
      LeadingZero(digits);
      PadKeepsValue("0" + digits);
    }
  }

  // ---- Queues -----------------------------------------------------------

  function Ids(q: seq<Cell>): set<nat> {
    set c | c in q :: c.id
  }

  /** The cells of `q` whose identity is in `ids`, in queue order. */
  function Only(q: seq<Cell>, ids: set<nat>): (r: seq<Cell>)
    ensures forall c :: c in r <==> c in q && c.id in ids
  {
    if q == [] then [] else
      var rest := Only(q[1..], ids);
      assert q == [q[0]] + q[1..];
      if q[0].id in ids then [q[0]] + rest else rest
  }

  /** The cells of `q` whose identity is not in `ids`, in queue order. */
  function Without(q: seq<Cell>, ids: set<nat>): (r: seq<Cell>)
    ensures forall c :: c in r <==> c in q && c.id !in ids
  {
    if q == [] then [] else
      var rest := Without(q[1..], ids);
      assert q == [q[0]] + q[1..];
      if q[0].id in ids then rest else [q[0]] + rest
  }

  /** Replaces the cells that carry `c`'s identity by `c`. */
  function Replace(q: seq<Cell>, c: Cell): (r: seq<Cell>)
    ensures |r| == |q|
    ensures forall i | 0 <= i < |q| :: r[i] == if q[i].id == c.id then c else q[i]
  {
    seq(|q|, i requires 0 <= i < |q| => if q[i].id == c.id then c else q[i])
  }

  function Lookup(q: seq<Cell>, id: nat): (r: Option<Cell>)
    ensures r.Some? ==> r.value in q && r.value.id == id
    ensures r.None? ==> id !in Ids(q)
  {
    if q == [] then None
    else if q[0].id == id then Some(q[0])
    else
      assert q == [q[0]] + q[1..];
      Lookup(q[1..], id)
  }

  function UnstagedIds(q: seq<Cell>): set<nat> {
    set c | c in q && !c.staged :: c.id
  }

  function UnwrittenIds(q: seq<Cell>): set<nat> {
    set c | c in q && !c.IsWritten() && !c.staged :: c.id
  }

  // ---- State ------------------------------------------------------------

  datatype Phase = Open | Draining | Closed

  /** One staged segment of one command; `index` counts the segments of that command. */
  datatype Chunk = Chunk(id: nat, index: nat, bytes: string)

  /**
   `Latched` covers the gap between filling the staging buffer and arming the write; `Failing` is
   a write that has failed while draining and has still to run `connection_lost`.
   */
  datatype WriteState = Idle | Latched(batch: seq<Chunk>) | WriteArmed(batch: seq<Chunk>) | Failing

  /** `Losing`: a failed read has stopped the pump and has still to run `connection_lost`. */
  datatype ReadState = Quiet | ReadArmed | Dispatching | Rearming | Losing

  /** The read pump does not run any more. */
  predicate NotReading(read: ReadState) {
    read == Quiet || read == Losing
  }

  /** No write is in flight. */
  predicate NotWriting(write: WriteState) {
    write == Idle || write == Failing
  }

  /** The one terminal call a cell receives from whoever took it out of the queue. */
  datatype Ending = Tagged | Failed | Stopped | Dropped
  datatype Terminal = Terminal(id: nat, ending: Ending)

  /**
   The engine. The fields after `read` are history: how many cells were ever
   submitted and with which command, the terminal calls made, the chunks handed to
   `async_write`, the data lines absorbed, the cells a tagged reply took, those a continuation reached,
   IDLEs whose DONE was overtaken by their own flush, and whether
   `connection_lost` ran.
   */
  datatype Core = Core(
    phase: Phase, abandoned: bool, suspended: bool, bye: bool,
    counter: nat, minted: set<nat>,
    queue: seq<Cell>, registry: map<string, nat>, target: Option<nat>,
    write: WriteState, kickPosted: bool, read: ReadState,
    commands: seq<Command>, log: seq<Terminal>, wire: seq<Chunk>, absorbed: seq<Absorbed>,
    replied: set<nat>, answered: set<nat>, spoiled: set<nat>, lost: bool)

  function Batch(w: WriteState): seq<Chunk> {
    match w
    case Idle => []
    case Failing => []
    case Latched(batch) => batch
    case WriteArmed(batch) => batch
  }

  function BatchIds(batch: seq<Chunk>): set<nat> {
    set ch | ch in batch :: ch.id
  }

  /** Terminal calls for a run of cells, in queue order. */
  function Endings(q: seq<Cell>, ending: Ending): (r: seq<Terminal>)
    ensures |r| == |q| && forall i | 0 <= i < |q| :: r[i] == Terminal(q[i].id, ending)
  {
    seq(|q|, i requires 0 <= i < |q| => Terminal(q[i].id, ending))
  }

  /** A data line absorbed by the command of cell `id`. */
  datatype Absorbed = Absorbed(id: nat, kind: Kind, line: string)

  /** A fresh engine with its permanent read armed. */
  function Start(): Core {
    Core(Open, false, false, false, 1, {}, [], map[], None, Idle, false, ReadArmed,
         [], [], [], [], {}, {}, {}, false)
  }

  // ---- Teardown ---------------------------------------------------------

  /** Whoever takes cells out of the queue makes their terminal calls. */
  function Take(s: Core, ids: set<nat>, ending: Ending): Core {
    s.(queue := Without(s.queue, ids), log := s.log + Endings(Only(s.queue, ids), ending))
  }

  function MaybeFinishClose(s: Core): Core {
    if s.phase == Draining && NotReading(s.read) && NotWriting(s.write) then s.(phase := Closed) else s
  }

  function ConnectionLost(s: Core): Core {
    if s.phase == Closed then s else
      MaybeFinishClose(Take(s, UnstagedIds(s.queue), Failed).(
        phase := Draining, registry := map[], target := None, lost := true))
  }

  function Close(s: Core): Core {
    if s.phase != Open then s else
      var taken := UnwrittenIds(s.queue);
      MaybeFinishClose(Take(s, taken, Failed).(
        phase := Draining, target := None,
        registry := s.registry - (set c | c in Only(s.queue, taken) :: c.Tag())))
  }

  function Abandon(s: Core): Core {
    if s.phase == Closed then s else
      MaybeFinishClose(Take(s, UnstagedIds(s.queue), Dropped).(
        phase := Draining, abandoned := true, target := None, registry := map[]))
  }

  // ---- Submission and cancellation --------------------------------------

  function AllocateTag(s: Core): Core {
    s.(counter := s.counter + 1, minted := s.minted + {s.counter})
  }

  /** Queues a rendered command under the tag minted from `serial`. */
  function Enqueue(s: Core, serial: nat, command: Command, stopSeen: bool): Core {
    var id := |s.commands|;
    var s := s.(minted := s.minted - {serial}, commands := s.commands + [command]);
    if s.phase != Open then s.(log := s.log + [Terminal(id, Failed)])
    else
      var cell := Cell(id, serial, command, false, false, false, false);
      if stopSeen then s.(registry := s.registry - {cell.Tag()}, log := s.log + [Terminal(id, Stopped)])
      else s.(queue := s.queue + [cell], registry := Emplace(s.registry, cell.Tag(), id))
  }

  /** Insertion that never overwrites. */
  function Emplace(registry: map<string, nat>, tag: string, id: nat): map<string, nat> {
    if tag in registry then registry else registry[tag := id]
  }

  function Cancel(s: Core, tag: string): Core {
    if s.phase != Open || tag !in s.registry then s else
      match Lookup(s.queue, s.registry[tag])
      case None => s
      case Some(c) => Detach(s, tag, c)
  }

  function Detach(s: Core, tag: string, c: Cell): Core {
    if c.Unsent() || (!c.command.IdleCommand? && c.IsWritten()) then
      Take(s, {c.id}, Stopped).(registry := s.registry - {tag})
    else if c.command.IdleCommand? then
      s.(queue := Replace(s.queue, c.(command := c.command.DoneAsked(), stopped := true)))
    else
      s.(queue := Replace(s.queue, c.(detached := true)), registry := s.registry - {tag})
  }

  // ---- Write pump -------------------------------------------------------

  function PostKick(s: Core): Core {
    if s.phase != Open || s.write != Idle || s.kickPosted || s.queue == [] then s
    else s.(kickPosted := true)
  }

  /** Which piece of its command a cell would stage next. */
  function NextIndex(c: Cell): nat {
    match c.command
    case Segmented(_, emitted, _, _, _) => emitted
    case IdleCommand(phase, _, _, _) => if phase == DonePending then 1 else 0
  }

  /** Nothing behind such a cell is staged in the same batch. */
  predicate IsWall(c: Cell) {
    c.AwaitsContinuation() || (c.NextSegment() != "" && c.command.BlocksPipeline())
  }

  function NextChunk(c: Cell): Chunk {
    Chunk(c.id, NextIndex(c), c.NextSegment())
  }

  /** One pass over the queue: at most one segment per cell, stopping behind a wall. */
  function Drain(q: seq<Cell>): seq<Chunk> {
    if q == [] then [] else
      (if q[0].NextSegment() == "" then [] else [NextChunk(q[0])])
      + (if IsWall(q[0]) then [] else Drain(q[1..]))
  }

  function StageAll(q: seq<Cell>, ids: set<nat>): (r: seq<Cell>)
    ensures |r| == |q|
    ensures forall i | 0 <= i < |q| :: r[i] == if q[i].id in ids then q[i].Stage() else q[i]
  {
    seq(|q|, i requires 0 <= i < |q| => if q[i].id in ids then q[i].Stage() else q[i])
  }

  /** The last cell of the batch that waits for a continuation. */
  function Waiter(q: seq<Cell>, batch: seq<Chunk>): Option<nat> {
    if batch == [] then None else
      var last := batch[|batch| - 1];
      match Lookup(q, last.id)
      case Some(c) => if c.AwaitsContinuation() then Some(c.id) else Waiter(q, batch[..|batch| - 1])
      case None => Waiter(q, batch[..|batch| - 1])
  }

  function Kick(s: Core): Core {
    if s.phase != Open || s.write != Idle then s else
      var batch := Drain(s.queue);
      var waiter := Waiter(s.queue, batch);
      if batch == [] then s
      else s.(queue := StageAll(s.queue, BatchIds(batch)), write := Latched(batch),
              target := if waiter.Some? then waiter else s.target)
  }

  /** Hands the latched batch to the transport, or unwinds when teardown won the race. */
  function ArmWrite(s: Core): Core
    requires s.write.Latched?
  {
    if s.phase == Open && !s.abandoned then
      s.(write := WriteArmed(s.write.batch), wire := s.wire + s.write.batch)
    else
      Retire(s, if s.abandoned then Dropped else Failed)
  }

  /** Takes the cells of the finished write out of the queue. */
  function Retire(s: Core, ending: Ending): Core {
    var ids := BatchIds(Batch(s.write));
    MaybeFinishClose(Take(s, ids, ending).(write := Idle))
  }

  /** Flushes every cell of the batch that is still queued. */
  function FlushAll(q: seq<Cell>, ids: set<nat>): (r: seq<Cell>)
    ensures |r| == |q|
    ensures forall i | 0 <= i < |q| :: r[i] == if q[i].id in ids then q[i].Flush() else q[i]
  {
    seq(|q|, i requires 0 <= i < |q| => if q[i].id in ids then q[i].Flush() else q[i])
  }

  /** Flushed cells of the batch that were cancelled earlier and have now sent everything. */
  function FinishedIds(q: seq<Cell>, ids: set<nat>): set<nat> {
    set c | c in q && c.id in ids && c.detached && c.IsWritten() :: c.id
  }

  /** IDLEs of the batch whose DONE was queued while their first line was still being written. */
  function SpoiledIds(q: seq<Cell>, batch: seq<Chunk>): set<nat> {
    set c | c in q && c.command.IdleCommand? && c.command.phase == DonePending
         && (exists ch :: ch in batch && ch.id == c.id && ch.index == 0) :: c.id
  }

  /** Write completion while open: flush, restore the route, retire finished detached cells. */
  function Settle(s: Core): Core {
    var batch := Batch(s.write);
    var ids := BatchIds(batch);
    var flushed := FlushAll(s.queue, ids);
    var gone := FinishedIds(flushed, ids);
    var waiter := Waiter(flushed, batch);
    Take(s.(queue := flushed), gone, Stopped).(
      write := Idle, target := if waiter.Some? then waiter else s.target,
      spoiled := s.spoiled + SpoiledIds(s.queue, batch))
  }

  /** `quiet` is what the completion read from the abandoned flag, possibly before it was set. */
  function WriteDone(s: Core, ok: bool, quiet: bool): Core
    requires s.write.WriteArmed? && (quiet ==> s.abandoned)
  {
    if quiet then Retire(s, Dropped)
    else if ok && s.phase == Open then Settle(s)
    else if ok then Retire(s, Failed)
    else if s.phase == Open then WriteLost(s)
    else Take(s, BatchIds(Batch(s.write)), Failed).(write := Failing)
  }

  /** A write error while open: the connection is lost, and the cells of the write fail last. */
  function WriteLost(s: Core): Core {
    var ids := BatchIds(Batch(s.write));
    var t := ConnectionLost(s.(write := Idle, queue := Without(s.queue, ids)));
    t.(log := t.log + Endings(Only(s.queue, ids), Failed))
  }

  /** What a write that failed while draining does next, unless the engine was closed in between. */
  function FailConnection(s: Core): Core {
    ConnectionLost(s.(write := Idle))
  }

  // ---- Read pump --------------------------------------------------------

  function ReadStop(s: Core): Core {
    MaybeFinishClose(s.(read := Quiet))
  }

  function ReadDone(s: Core): Core
    requires s.read == ReadArmed
  {
    if s.abandoned || s.phase == Closed then ReadStop(s) else s.(read := Dispatching)
  }

  /** EOF or a transport error: the pump has stopped, and the mutex is free before `connection_lost` takes it. */
  function ReadFailed(s: Core): Core
    requires s.read == Dispatching
  {
    s.(read := Losing)
  }

  /** What the failed read does next, unless the engine was closed in between. */
  function LoseConnection(s: Core): Core {
    ConnectionLost(s.(read := Quiet))
  }

  /** A protocol violation found while dispatching. */
  function Fatal(s: Core): Core
    requires s.read == Dispatching
  {
    ReadStop(ConnectionLost(s))
  }

  function TaggedReply(s: Core, tag: string): Core
    requires s.read == Dispatching
  {
    if tag !in s.registry then s else
      var id := s.registry[tag];
      var t := s.(registry := s.registry - {tag}, target := if s.target == Some(id) then None else s.target);
      if id !in Ids(s.queue) then Fatal(t)
      else Take(t, {id}, Tagged).(replied := s.replied + {id})
  }

  function ContinuationRequest(s: Core): Core
    requires s.read == Dispatching
  {
    match s.target
    case None => Fatal(s)
    case Some(id) =>
      match Lookup(s.queue, id)
      case None => s.(target := None)
      case Some(c) =>
        s.(target := None, queue := Replace(s.queue, c.Continue()), answered := s.answered + {id})
  }

  /** The earliest queued cell that wants `kind`. */
  function Owner(q: seq<Cell>, kind: Kind): Option<nat> {
    if q == [] then None
    else if q[0].command.Wants(kind) then Some(q[0].id)
    else Owner(q[1..], kind)
  }

  /** Command-scoped data goes to its owner; anything else is broadcast and changes nothing here. */
  function UntaggedReply(s: Core, kind: Kind, line: string): Core
    requires s.read == Dispatching
  {
    var s := if kind == Bye then s.(bye := true) else s;
    var owner := Owner(s.queue, kind);
    if CommandScoped(kind) && owner.Some? then s.(absorbed := s.absorbed + [Absorbed(owner.value, kind, line)]) else s
  }

  function DecideRearm(s: Core): Core
    requires s.read == Dispatching
  {
    if s.phase == Open && !s.suspended then s.(read := Rearming) else ReadStop(s)
  }

  function ArmRead(s: Core): Core
    requires s.read == Rearming
  {
    if s.phase != Open || s.abandoned || s.suspended then ReadStop(s) else s.(read := ReadArmed)
  }

  // ---- Runs -------------------------------------------------------------

  datatype Event =
    | DoAllocateTag
    | DoEnqueue(serial: nat, command: Command, stopSeen: bool)
    | DoCancel(tag: string)
    | DoClose | DoAbandon | DoSuspend
    | DoPostKick | DoKickFired | DoKick | DoArmWrite | DoWriteDone(ok: bool, quiet: bool) | DoFailConnection
    | DoReadDone | DoReadFailed | DoLoseConnection | DoMalformed
    | DoTagged(reply: string) | DoContinuation | DoUntagged(kind: Kind, line: string)
    | DoDecideRearm | DoArmRead

  /** Whether `e` can happen in `s`. */
  predicate Enabled(s: Core, e: Event) {
    match e
    case DoEnqueue(serial, command, _) => serial in s.minted && command.Rendered()
    case DoArmWrite => s.write.Latched?
    case DoWriteDone(_, quiet) => s.write.WriteArmed? && (quiet ==> s.abandoned)
    case DoFailConnection => s.write == Failing
    case DoReadDone => s.read == ReadArmed
    case DoReadFailed => s.read == Dispatching
    case DoLoseConnection => s.read == Losing
    case DoMalformed => s.read == Dispatching
    case DoTagged(_) => s.read == Dispatching
    case DoContinuation => s.read == Dispatching
    case DoUntagged(_, _) => s.read == Dispatching
    case DoDecideRearm => s.read == Dispatching
    case DoArmRead => s.read == Rearming
    case _ => true
  }

  function Step(s: Core, e: Event): Core
    requires Enabled(s, e)
  {
    match e
    case DoAllocateTag => AllocateTag(s)
    case DoEnqueue(serial, command, stopSeen) => Enqueue(s, serial, command, stopSeen)
    case DoCancel(tag) => Cancel(s, tag)
    case DoClose => Close(s)
    case DoAbandon => Abandon(s)
    case DoSuspend => s.(suspended := true)
    case DoPostKick => PostKick(s)
    case DoKickFired => s.(kickPosted := false)
    case DoKick => Kick(s)
    case DoArmWrite => ArmWrite(s)
    case DoWriteDone(ok, quiet) => WriteDone(s, ok, quiet)
    case DoFailConnection => FailConnection(s)
    case DoReadDone => ReadDone(s)
    case DoReadFailed => ReadFailed(s)
    case DoLoseConnection => LoseConnection(s)
    case DoMalformed => Fatal(s)
    case DoTagged(reply) => TaggedReply(s, reply)
    case DoContinuation => ContinuationRequest(s)
    case DoUntagged(kind, line) => UntaggedReply(s, kind, line)
    case DoDecideRearm => DecideRearm(s)
    case DoArmRead => ArmRead(s)
  }

  /** Every event of the run can happen where it stands. */
  predicate Possible(es: seq<Event>)
    decreases |es|, 0
  {
    es == [] || (Possible(es[..|es| - 1]) && Enabled(After(es[..|es| - 1]), es[|es| - 1]))
  }

  /** The engine after a run from the start. */
  function After(es: seq<Event>): Core
    requires Possible(es)
    decreases |es|, 1
  {
    if es == [] then Start() else Step(After(es[..|es| - 1]), es[|es| - 1])
  }
}
