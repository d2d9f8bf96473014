/** What the smaller steps of the engine leave alone. */
module EngineFrames {
  import opened Commands
  import opened Engine
  import opened Wrappers

  /** Steps that move neither cells nor bytes. */
  predicate IsLight(e: Event) {
    e.DoAllocateTag? || e.DoSuspend? || e.DoPostKick? || e.DoKickFired? || e.DoUntagged?
    || e.DoReadDone? || e.DoReadFailed? || e.DoDecideRearm? || e.DoArmRead?
  }

  /** Only tags, flags, the read state and absorbed data may differ; a draining engine may have closed. */
  ghost predicate LightFrame(s: Core, t: Core) {
    && t == s.(phase := t.phase, suspended := t.suspended, bye := t.bye, counter := t.counter, minted := t.minted,
               kickPosted := t.kickPosted, read := t.read, absorbed := t.absorbed)
    && (t.phase == s.phase || (s.phase == Draining && t.phase == Closed))
    && (t.read == ReadArmed ==> s.read == ReadArmed || s.phase == Open)
  }

  lemma FlagsFrame(s: Core)
    ensures LightFrame(s, AllocateTag(s)) && LightFrame(s, PostKick(s))
    ensures LightFrame(s, s.(suspended := true)) && LightFrame(s, s.(kickPosted := false))
    ensures AllocateTag(s).absorbed == s.absorbed && PostKick(s).absorbed == s.absorbed
  {
  }

  lemma UntaggedFrame(s: Core, kind: Kind, line: string)
    requires s.read == Dispatching
    ensures LightFrame(s, UntaggedReply(s, kind, line))
  {
    hide Owner, CommandScoped;
  }

  lemma ReadStopFrame(s: Core)
    ensures LightFrame(s, ReadStop(s)) && ReadStop(s).read == Quiet && ReadStop(s).absorbed == s.absorbed
  {
  }

  lemma ReadFrame(s: Core)
    ensures s.read == ReadArmed ==> LightFrame(s, ReadDone(s)) && ReadDone(s).absorbed == s.absorbed
    ensures s.read == Dispatching ==> LightFrame(s, DecideRearm(s)) && DecideRearm(s).absorbed == s.absorbed
    ensures s.read == Dispatching ==> LightFrame(s, ReadFailed(s)) && ReadFailed(s).absorbed == s.absorbed
    ensures s.read == Rearming ==> LightFrame(s, ArmRead(s)) && ArmRead(s).absorbed == s.absorbed
  {
    ReadStopFrame(s);
    hide ReadStop;
  }

  lemma LightSteps(s: Core, e: Event)
    requires Enabled(s, e) && IsLight(e)
    ensures LightFrame(s, Step(s, e)) && (!e.DoUntagged? ==> Step(s, e).absorbed == s.absorbed)
  {
    FlagsFrame(s);
    ReadFrame(s);
    if e.DoUntagged? { UntaggedFrame(s, e.kind, e.line); }
    hide LightFrame, AllocateTag, PostKick, UntaggedReply, ReadDone, DecideRearm, ArmRead, Close, Abandon, Fatal, ReadFailed, LoseConnection, FailConnection,
         Cancel, Kick, WriteDone, ArmWrite, TaggedReply, ContinuationRequest, Enqueue;
  }

  /** Cancelling touches the queue, the registry and the log. */
  ghost predicate CancelFrame(s: Core, t: Core) {
    t == s.(queue := t.queue, registry := t.registry, log := t.log)
  }

  lemma DetachFrame(s: Core, tag: string, c: Cell)
    ensures CancelFrame(s, Detach(s, tag, c))
  {
    hide Only, Without, Endings, Replace, RenderTag;
    if c.Unsent() || (!c.command.IdleCommand? && c.IsWritten()) {
      assert Detach(s, tag, c) == Take(s, {c.id}, Stopped).(registry := s.registry - {tag});
    } else if c.command.IdleCommand? {
      hide Take;
    } else {
      hide Take;
    }
  }

  lemma CancelLeaves(s: Core, tag: string)
    ensures CancelFrame(s, Cancel(s, tag))
  {
    if s.phase == Open && tag in s.registry {
      var r := Lookup(s.queue, s.registry[tag]);
      if r.Some? { DetachFrame(s, tag, r.value); }
    }
    hide Detach, Lookup;
  }

  lemma EnqueueLeaves(s: Core, serial: nat, command: Command, stopSeen: bool)
    ensures var t := Enqueue(s, serial, command, stopSeen);
            t == s.(minted := t.minted, commands := t.commands, queue := t.queue, registry := t.registry, log := t.log)
  {
    hide RenderTag, Emplace;
  }
}
