/**
 The write side of a command, as values: what the engine sees of LOGIN, APPEND,
 AUTHENTICATE, the single-line commands and IDLE.
 */
module Commands {

  /** Kinds of untagged responses (imap/response.h). */
  datatype Kind =
    | StatusOk | StatusNo | StatusBad | Preauth | Bye
    | Capability | Flags | List | Lsub | Status | Search
    | Exists | Recent | Expunge | Fetch | Unknown

  /** Data kinds that belong to one command rather than to the connection. */
  predicate CommandScoped(kind: Kind) {
    kind in {Fetch, List, Lsub, Status, Search, Capability, Flags}
  }

  datatype IdlePhase = Initial | IdleSent | Idling | DonePending | DoneSent | Finished

  const DONE_LINE := "DONE\r\n"

  /**
   `Segmented` is a command whose bytes are fixed when it is rendered, cut at
   continuation walls: `segs` are the pieces, `emitted` counts those flushed and
   `unlocked` those the server has released. `IdleCommand` has no fixed text.
   */
  datatype Command =
    | Segmented(segs: seq<string>, emitted: nat, unlocked: nat, blocking: bool, wants: set<Kind>)
    | IdleCommand(phase: IdlePhase, segment: string, pending: bool, doneRequested: bool)
  {
    /** The chunk that may be staged now; empty when there is none. */
    function NextSegment(): string {
      match this
      case Segmented(segs, emitted, unlocked, _, _) =>
        if emitted >= unlocked || emitted >= |segs| then "" else segs[emitted]
      case IdleCommand(_, segment, pending, _) =>
        if pending then segment else ""
    }

    predicate AwaitsContinuation() {
      match this
      case Segmented(segs, _, unlocked, _, _) => unlocked < |segs|
      case IdleCommand(phase, _, _, _) => phase == IdleSent
    }

    predicate BlocksPipeline() {
      Segmented? && blocking
    }

    predicate Wants(kind: Kind) {
      Segmented? && kind in wants
    }

    /** The staged chunk has reached the wire. */
    function Flushed(): Command {
      match this
      case Segmented(segs, emitted, _, _, _) =>
        if emitted < |segs| then this.(emitted := emitted + 1) else this
      case IdleCommand(phase, _, _, _) =>
        this.(pending := false, phase := if phase == DonePending then DoneSent else phase)
    }

    function QueueDone(): Command
      requires IdleCommand?
    {
      this.(segment := DONE_LINE, pending := true, phase := DonePending)
    }

    /** A continuation request has arrived for this command. */
    function Continued(): Command {
      match this
      case Segmented(segs, _, unlocked, _, _) =>
        if unlocked < |segs| then this.(unlocked := unlocked + 1) else this
      case IdleCommand(phase, _, _, doneRequested) =>
        if phase != IdleSent then this
        else if doneRequested then this.(phase := Idling).QueueDone()
        else this.(phase := Idling)
    }

    /** Asks an IDLE to end; other commands have no such request. */
    function DoneAsked(): Command
      requires IdleCommand?
    {
      var c := this.(doneRequested := true);
      if phase == Idling then c.QueueDone() else c
    }

    /** Counters in range, every piece carries bytes. */
    predicate Valid() {
      match this
      case Segmented(segs, emitted, unlocked, _, _) =>
        emitted <= unlocked <= |segs| && 1 <= unlocked && forall s | s in segs :: s != ""
      case IdleCommand(phase, segment, pending, doneRequested) =>
        && phase !in {Initial, Finished}
        && (pending ==> segment != "")
        && (phase == DonePending ==> pending && segment == DONE_LINE && doneRequested)
        && (phase == DoneSent ==> !pending && doneRequested)
        && (phase == Idling ==> !doneRequested)
    }

    /** What a command, as it was rendered, has to send in order. */
    function Pieces(): seq<string> {
      match this
      case Segmented(segs, _, _, _, _) => segs
      case IdleCommand(_, segment, _, _) => [segment, DONE_LINE]
    }

    /** Just rendered: nothing flushed, nothing answered. */
    predicate Rendered() {
      Valid() && match this
                 case Segmented(_, emitted, _, _, _) => emitted == 0
                 case IdleCommand(phase, _, pending, _) => phase == IdleSent && pending
    }
  }

  /**
   A segmented command behind which the pump stops while a piece is left: it waits for an
   answer, it blocks the pipeline, or it has a single piece.
   */
  predicate KeepsOrder(c: Command) {
    c.Segmented? && c.emitted == 0 && (c.AwaitsContinuation() || c.blocking || |c.segs| == 1)
  }
}
