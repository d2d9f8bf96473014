/** Pieces of concrete runs: submissions, and one whole write. */
module EngineRuns {
  import opened Commands
  import opened Engine
  import opened EngineSteps
  import opened QueueAlgebra
  import opened Wrappers

  lemma NothingYet()
    ensures Possible([]) && After([]) == Start()
  {
  }

  function FreshCell(id: nat, serial: nat, c: Command): Cell {
    Cell(id, serial, c, false, false, false, false)
  }

  /** A fresh engine with one command queued. */
  function OneQueued(c: Command): Core {
    Start().(counter := 2, commands := [c], queue := [FreshCell(0, 1, c)], registry := map[RenderTag(1) := 0])
  }

  lemma SubmitOne(c: Command) returns (es: seq<Event>)
    requires c.Rendered()
    ensures Possible(es) && After(es) == OneQueued(c)
    ensures es == [DoAllocateTag, DoEnqueue(1, c, false)]
  {
    hide RenderTag, After, Possible, Command.Rendered;
    NothingYet();
    es := [];
    Extend(es, DoAllocateTag);
    es := es + [DoAllocateTag];
    assert After(es) == Start().(counter := 2, minted := {1});
    Extend(es, DoEnqueue(1, c, false));
    es := es + [DoEnqueue(1, c, false)];
  }

  /** ... and with another one behind it. */
  function TwoQueued(c: Command, d: Command): Core {
    Start().(counter := 3, commands := [c, d], queue := [FreshCell(0, 1, c), FreshCell(1, 2, d)],
             registry := map[RenderTag(1) := 0, RenderTag(2) := 1])
  }

  lemma TagsDiffer()
    ensures RenderTag(1) != RenderTag(2)
  {
    if RenderTag(1) == RenderTag(2) { TagsAreInjective(1, 2); }
  }

  lemma SubmitTwo(c: Command, d: Command) returns (es: seq<Event>)
    requires c.Rendered() && d.Rendered()
    ensures Possible(es) && After(es) == TwoQueued(c, d)
    ensures es == [DoAllocateTag, DoEnqueue(1, c, false), DoAllocateTag, DoEnqueue(2, d, false)]
  {
    TagsDiffer();
    hide RenderTag, After, Possible, Command.Rendered;
    es := SubmitOne(c);
    Extend(es, DoAllocateTag);
    es := es + [DoAllocateTag];
    assert After(es) == OneQueued(c).(counter := 3, minted := {2});
    Extend(es, DoEnqueue(2, d, false));
    es := es + [DoEnqueue(2, d, false)];
  }

  // ---- One write -------------------------------------------------------------------

  predicate Ready(s: Core) {
    s.phase == Open && !s.abandoned && s.write == Idle && forall c | c in s.queue :: !c.detached
  }

  /** The queue once its batch was written. */
  function Written(q: seq<Cell>): seq<Cell> {
    var ids := BatchIds(Drain(q));
    FlushAll(StageAll(q, ids), ids)
  }

  /** What a write leaves alone, and what it does to the rest. */
  ghost predicate WroteBatch(s: Core, t: Core) {
    && Ready(t) && t.queue == Written(s.queue) && t.wire == s.wire + Drain(s.queue)
    && t.commands == s.commands && t.registry == s.registry && t.read == s.read
    && t.target == Rerouted(t.queue, Drain(s.queue), Rerouted(s.queue, Drain(s.queue), s.target))
  }

  lemma KickReady(s: Core)
    requires Ready(s) && Drain(s.queue) != []
    ensures var batch := Drain(s.queue);
            Kick(s) == s.(queue := StageAll(s.queue, BatchIds(batch)), write := Latched(batch),
                          target := Rerouted(s.queue, batch, s.target))
  {
    hide Drain, StageAll, BatchIds, Waiter;
  }

  lemma NobodyDetached(q: seq<Cell>, ids: set<nat>)
    requires forall c | c in q :: !c.detached
    ensures forall c | c in StageAll(q, ids) :: !c.detached
    ensures forall c | c in FlushAll(q, ids) :: !c.detached
    ensures FinishedIds(q, ids) == {}
  {
  }

  lemma SettleReady(s: Core)
    requires s.phase == Open && !s.abandoned && s.write.WriteArmed? && forall c | c in s.queue :: !c.detached
    ensures var batch := Batch(s.write);
            var t := WriteDone(s, true, false);
            && t.phase == Open && !t.abandoned && t.write == Idle && t.queue == FlushAll(s.queue, BatchIds(batch))
            && t.wire == s.wire && t.commands == s.commands && t.registry == s.registry && t.read == s.read
            && t.replied == s.replied && t.target == Rerouted(t.queue, batch, s.target)
  {
    var ids := BatchIds(Batch(s.write));
    NobodyDetached(s.queue, ids);
    NobodyDetached(FlushAll(s.queue, ids), ids);
    NoneTaken(FlushAll(s.queue, ids), {});
    hide FlushAll, FinishedIds, SpoiledIds, BatchIds, Without, Only, Endings, Waiter;
  }

  function WriteEvents(): seq<Event> {
    [DoKick, DoArmWrite, DoWriteDone(true, false)]
  }

  lemma StageReady(es: seq<Event>)
    requires Possible(es) && Ready(After(es)) && Drain(After(es).queue) != []
    ensures var fs := es + [DoKick, DoArmWrite];
            var s := After(es);
            var batch := Drain(s.queue);
            && Possible(fs)
            && After(fs) == s.(queue := StageAll(s.queue, BatchIds(batch)), write := WriteArmed(batch),
                               target := Rerouted(s.queue, batch, s.target), wire := s.wire + batch)
  {
    var s := After(es);
    KickReady(s);
    hide After, Possible, Drain, StageAll, BatchIds, Waiter, Rerouted, Kick;
    var es1 := es + [DoKick];
    Extend(es, DoKick);
    Extend(es1, DoArmWrite);
    assert es1 + [DoArmWrite] == es + [DoKick, DoArmWrite];
  }

  /** The pump fills a batch, hands it over and sees it complete. */
  lemma WriteOne(es: seq<Event>)
    requires Possible(es) && Ready(After(es)) && Drain(After(es).queue) != []
    ensures Possible(es + WriteEvents()) && WroteBatch(After(es), After(es + WriteEvents()))
  {
    var s := After(es);
    var ids := BatchIds(Drain(s.queue));
    StageReady(es);
    NobodyDetached(s.queue, ids);
    var staged := es + [DoKick, DoArmWrite];
    var t := After(staged);
    SettleReady(t);
    NobodyDetached(t.queue, ids);
    hide After, Possible, Drain, StageAll, FlushAll, BatchIds, Rerouted, WriteDone;
    Extend(staged, DoWriteDone(true, false));
    assert staged + [DoWriteDone(true, false)] == es + WriteEvents();
  }

  /** As far as `async_write`, without its completion. */
  lemma HandOver(es: seq<Event>)
    requires Possible(es) && Ready(After(es)) && Drain(After(es).queue) != []
    ensures var fs := es + [DoKick, DoArmWrite];
            Possible(fs) && After(fs).phase == Open && After(fs).wire == After(es).wire + Drain(After(es).queue)
            && After(fs).commands == After(es).commands && After(fs).replied == After(es).replied
  {
    StageReady(es);
  }
}
