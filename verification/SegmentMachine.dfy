/** How the pump and the server drive a segmented command, in any order of flushes and continuations. */
module SegmentMachine {
  import opened Commands
  import opened Wrappers

  /** The pump writes the next piece if there is one, or the server answers a wall. */
  datatype Drive = WritePiece | Answer

  datatype Driven = Driven(command: Command, offered: string)

  function Apply(d: Driven, e: Drive): Driven {
    match e
    case Answer => d.(command := d.command.Continued())
    case WritePiece =>
      var piece := d.command.NextSegment();
      if piece == "" then d else Driven(d.command.Flushed(), d.offered + piece)
  }

  function Drives(c: Command, es: seq<Drive>): Driven {
    if es == [] then Driven(c, "") else Apply(Drives(c, es[..|es| - 1]), es[|es| - 1])
  }

  function Answers(es: seq<Drive>): nat {
    if es == [] then 0 else Answers(es[..|es| - 1]) + (if es[|es| - 1].Answer? then 1 else 0)
  }

  function Min(a: nat, b: nat): nat {
    if a < b then a else b
  }

  /** A flush and an answer may be handled in either order. */
  lemma FlushAndAnswerCommute(c: Command)
    requires c.Segmented?
    ensures c.Flushed().Continued() == c.Continued().Flushed()
  {
  }

  lemma JoinGrows(segs: seq<string>, n: nat)
    requires n < |segs|
    ensures Join(segs[..n + 1]) == Join(segs[..n]) + segs[n]
  {
    assert segs[..n + 1][..n] == segs[..n];
  }

  /**
   However flushes and answers interleave, the bytes offered so far are the first pieces,
   each once and in order, and never more pieces than were released: those released at
   first and one more for each answer.
   */
  lemma {:induction false} EachByteOnceInOrder(c: Command, es: seq<Drive>)
    requires c.Segmented? && c.Rendered()
    ensures var d := Drives(c, es);
            && d.command.Segmented? && d.command.segs == c.segs && d.command.Valid()
            && d.offered == Join(c.segs[..d.command.emitted])
            && d.command.emitted <= d.command.unlocked == Min(c.unlocked + Answers(es), |c.segs|)
  {
    if es == [] {
      assert c.segs[..0] == [];
    } else {
      var init := es[..|es| - 1];
      EachByteOnceInOrder(c, init);
      var d := Drives(c, init);
      if es[|es| - 1].WritePiece? && d.command.NextSegment() != "" {
        JoinGrows(c.segs, d.command.emitted);
      }
    }
  }

  /** Once every wall was answered and every piece written, the whole rendering was offered. */
  lemma AllIsOffered(c: Command, es: seq<Drive>)
    requires c.Segmented? && c.Rendered() && Drives(c, es).command.Segmented?
    requires Drives(c, es).command.NextSegment() == "" && !Drives(c, es).command.AwaitsContinuation()
    ensures Drives(c, es).offered == Join(c.segs)
  {
    EachByteOnceInOrder(c, es);
    var d := Drives(c, es).command;
    NothingPending(d);
    assert c.segs[..|c.segs|] == c.segs;
  }

  lemma NothingPending(c: Command)
    requires c.Segmented? && c.Valid()
    ensures c.NextSegment() == "" && !c.AwaitsContinuation() <==> c.emitted == |c.segs|
  {
    if c.emitted < |c.segs| {
      assert c.segs[c.emitted] in c.segs;
    }
  }
}
