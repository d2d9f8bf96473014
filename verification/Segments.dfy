/**
 Rendering of the segmented commands: one wire buffer, cut where a literal or a SASL
 challenge makes the sender wait.
 */
module Segments {
  import opened Base64
  import opened Commands
  import opened Decimal
  import opened FlagSets
  import opened Framing
  import T = Tokens
  import opened Wrappers

  // ---- Pieces ---------------------------------------------------------------------

  /** The pieces of a buffer whose cuts are `seg`, the last one still open from `begin` on. */
  function Pieces(wire: string, seg: seq<(nat, nat)>): seq<string>
    requires forall c | c in seg :: c.0 <= c.1 <= |wire|
  {
    if seg == [] then [] else Pieces(wire, seg[..|seg| - 1]) + [wire[seg[|seg| - 1].0..seg[|seg| - 1].1]]
  }

  /** Joins the last piece of `a` with the first of `b`. */
  function Weld(a: seq<string>, b: seq<string>): seq<string>
    requires a != [] && b != []
  {
    a[..|a| - 1] + [a[|a| - 1] + b[0]] + b[1..]
  }

  lemma {:induction false} JoinConcat(a: seq<string>, b: seq<string>)
    ensures Join(a + b) == Join(a) + Join(b)
  {
    if b == [] {
      assert a + b == a;
    } else {
      var init := b[..|b| - 1];
      assert (a + b)[..|a + b| - 1] == a + init;
      JoinConcat(a, init);
    }
  }

  lemma JoinOne(s: string)
    ensures Join([s]) == s
  {
    assert [s][..0] == [];
  }

  lemma SplitLast(a: seq<string>)
    requires a != []
    ensures a == a[..|a| - 1] + [a[|a| - 1]]
  {
  }

  lemma SplitFirst(a: seq<string>)
    requires a != []
    ensures a == [a[0]] + a[1..]
  {
  }

  /** Welding changes the cuts, not the text. */
  lemma WeldJoins(a: seq<string>, b: seq<string>)
    requires a != [] && b != []
    ensures Join(Weld(a, b)) == Join(a) + Join(b)
  {
    hide Join;
    var x, y, m, n := a[..|a| - 1], b[1..], a[|a| - 1], b[0];
    SplitLast(a);
    SplitFirst(b);
    JoinConcat(x + [m + n], y);
    JoinConcat(x, [m + n]);
    JoinConcat(x, [m]);
    JoinConcat([n], y);
    JoinOne(m + n);
    JoinOne(m);
    JoinOne(n);
    Assoc(Join(x), m, n);
    Assoc(Join(x) + m, n, Join(y));
  }

  // ---- Arguments ---------------------------------------------------------------------

  predicate AtomSafe(v: string) {
    v != "" && forall i | 0 <= i < |v| :: T.IsAtomChar(v[i])
  }

  /** The line that announces a literal. */
  function LiteralLine(n: nat, plus: bool): string {
    Marker(Digits(n), plus) + "\r\n"
  }

  /** An argument on the command line: an atom when it can be one, a quoted string otherwise. */
  function InlineArg(v: string): string {
    if AtomSafe(v) then v else T.PrintQuoted(v)
  }

  /** An astring argument of LOGIN; line breaks make it a literal behind a wall. */
  function ArgPieces(v: string, plus: bool): seq<string> {
    if T.OneLine(v) then [InlineArg(v)] else [LiteralLine(|v|, plus), v]
  }

  function LoginPieces(tag: string, user: string, password: string, plus: bool): seq<string> {
    Weld(Weld(Weld(Weld([tag + " LOGIN "], ArgPieces(user, plus)), [" "]), ArgPieces(password, plus)), ["\r\n"])
  }

  /** The command line of APPEND up to the announcement of its literal. */
  function AppendLine(tag: string, mailbox: string, flags: FlagSet, dateTime: string): string {
    tag + " APPEND " + InlineArg(mailbox)
    + (if flags.Any() then " (" + Spaced(flags.Names()) + ")" else "")
    + (if dateTime == "" then "" else " " + T.PrintQuoted(dateTime))
    + " "
  }

  /** The command line of APPEND, then the message. */
  function AppendPieces(tag: string, mailbox: string, flags: FlagSet, dateTime: string, message: string, plus: bool): seq<string> {
    [AppendLine(tag, mailbox, flags, dateTime) + LiteralLine(|message|, plus), message + "\r\n"]
  }

  /** With an initial response there is one line; without, the answer waits for the challenge. */
  function AuthenticatePieces(tag: string, mechanism: string, response: string, ir: bool): seq<string>
    requires Octets(response)
  {
    var line := tag + " AUTHENTICATE " + mechanism;
    if ir then [line + " " + (if response == "" then "=" else Encode(response)) + "\r\n"]
    else [line + "\r\n", (if response == "" then "*" else Encode(response)) + "\r\n"]
  }

  // ---- The buffer ------------------------------------------------------------------------

  const MAX_SEGMENTS: nat := 4

  /** The cuts lie one behind the other from the start of the buffer to `end`. */
  ghost predicate Tiled(wire: string, seg: seq<(nat, nat)>, end: nat) {
    && end <= |wire| && |seg| <= MAX_SEGMENTS
    && (forall c | c in seg :: c.0 <= c.1 <= |wire|)
    && (forall i | 0 < i < |seg| :: seg[i].0 == seg[i - 1].1)
    && (if seg == [] then end == 0 else seg[0].0 == 0 && seg[|seg| - 1].1 == end)
  }

  /** What was rendered so far, the piece from `begin` on still open. */
  ghost function Open(wire: string, seg: seq<(nat, nat)>, begin: nat): seq<string>
    requires Tiled(wire, seg, begin)
  {
    Pieces(wire, seg) + [wire[begin..]]
  }

  class SegmentedCommand {
    var wire: string
    var seg: seq<(nat, nat)>
    var walls: nat
    var emitted: nat
    var unlocked: nat
    var blocking: bool

    constructor (blocking: bool)
      ensures wire == "" && seg == [] && walls == emitted == unlocked == 0 && this.blocking == blocking
    {
      wire, seg, walls, emitted, unlocked, this.blocking := "", [], 0, 0, 0, blocking;
    }

    /** Cuts tile the whole buffer and no more pieces are emitted than released. */
    ghost predicate Valid()
      reads this
    {
      Tiled(wire, seg, |wire|) && emitted <= unlocked <= |seg|
    }

    /** The command as the engine sees it. */
    ghost function View(): Command
      requires Valid()
      reads this
    {
      Segmented(Pieces(wire, seg), emitted, unlocked, blocking, {})
    }

    method Append(s: string, ghost begin: nat)
      requires Tiled(wire, seg, begin)
      modifies this`wire
      ensures wire == old(wire) + s && Tiled(wire, seg, begin) && Open(wire, seg, begin) == Weld(old(Open(wire, seg, begin)), [s])
    {
      hide Weld;
      PiecesGrow(wire, seg, s);
      assert (wire + s)[begin..] == wire[begin..] + s;
      wire := wire + s;
      WeldOne(Pieces(wire, seg), old(wire)[begin..], s);
    }

    method CloseSegment(begin: nat) returns (next: nat)
      requires Tiled(wire, seg, begin) && |seg| < MAX_SEGMENTS
      modifies this`seg
      ensures next == |wire| && |seg| == old(|seg|) + 1 && Tiled(wire, seg, next)
      ensures Pieces(wire, seg) == old(Open(wire, seg, begin))
    {
      ghost var cuts := seg;
      if |seg| < MAX_SEGMENTS {
        seg := seg + [(begin, |wire|)];
      }
      assert seg[..|seg| - 1] == cuts && wire[begin..|wire|] == wire[begin..];
      next := |wire|;
    }

    // ---- Rendering -------------------------------------------------------------------

    /** Starts a rendering with the tag. */
    method Assign(s: string)
      modifies this`wire, this`seg, this`walls
      ensures wire == s && seg == [] && walls == 0 && Tiled(wire, seg, 0) && Open(wire, seg, 0) == [s]
    {
      wire, seg, walls := s, [], 0;
    }

    /** Appends one astring argument, splitting the buffer at a literal. */
    method AppendArg(v: string, begin: nat, plus: bool) returns (next: nat)
      requires Tiled(wire, seg, begin) && |seg| < MAX_SEGMENTS
      modifies this`wire, this`seg, this`walls
      ensures Tiled(wire, seg, next) && Open(wire, seg, next) == Weld(old(Open(wire, seg, begin)), ArgPieces(v, plus))
      ensures |seg| - old(|seg|) == walls - old(walls) == |ArgPieces(v, plus)| - 1 <= 1
    {
      hide Weld, T.PrintQuoted, Tiled, Open, LiteralLine;
      next := begin;
      AtomIsOneLine(v);
      if IsAtomSafe(v) {
        Append(v, begin);
        return;
      }
      if !HasBreak(v) {
        var quoted := Quote(v);
        Append(quoted, begin);
        return;
      }
      next := AppendLiteral(v, begin, plus);
    }

    method AppendLiteral(v: string, begin: nat, plus: bool) returns (next: nat)
      requires Tiled(wire, seg, begin) && |seg| < MAX_SEGMENTS
      modifies this`wire, this`seg, this`walls
      ensures Tiled(wire, seg, next) && Open(wire, seg, next) == Weld(old(Open(wire, seg, begin)), [LiteralLine(|v|, plus), v])
      ensures |seg| == old(|seg|) + 1 && walls == old(walls) + 1
    {
      hide Weld, Tiled, LiteralLine;
      ghost var before := Open(wire, seg, begin);
      Append(LiteralLine(|v|, plus), begin);
      WeldTwo(before, LiteralLine(|v|, plus), v);
      next := CloseSegment(begin);
      walls := walls + 1;
      ghost var closed := Pieces(wire, seg);
      assert wire[next..] == "";
      Append(v, next);
      WeldOne(closed, "", v);
      assert "" + v == v;
    }

    method RenderLogin(tag: string, user: string, password: string, plus: bool)
      modifies this`wire, this`seg, this`walls, this`emitted, this`unlocked
      ensures Valid() && Pieces(wire, seg) == LoginPieces(tag, user, password, plus)
      ensures emitted == 0 && unlocked == if plus then |seg| else 1
    {
      hide Weld, Tiled, Open, ArgPieces, Pieces;
      Assign(tag);
      Append(" LOGIN ", 0);
      WeldOne([], tag, " LOGIN ");
      assert [] + [tag] == [tag] && [] + [tag + " LOGIN "] == [tag + " LOGIN "];
      ArgCounts(user, plus);
      ArgCounts(password, plus);
      var begin := AppendArg(user, 0, plus);
      Append(" ", begin);
      begin := AppendArg(password, begin, plus);
      Append("\r\n", begin);
      var end := CloseSegment(begin);
      emitted := 0;
      unlocked := if walls == 0 || plus then |seg| else 1;
    }

    /** The command line of APPEND, whose mailbox is never sent as a literal. */
    method RenderAppendLine(tag: string, mailbox: string, flags: FlagSet, dateTime: string)
      modifies this`wire
      ensures wire == AppendLine(tag, mailbox, flags, dateTime)
    {
      hide T.PrintQuoted, Spaced, InlineArg;
      var arg := AppendedArg(mailbox);
      wire := tag + " APPEND " + arg;
      ghost var list, date := "", "";
      if flags.Any() {
        var names := AppendedFlags(flags);
        list := names;
        wire := wire + names;
      } else {
        assert wire + list == wire;
      }
      ghost var listed := wire;
      if dateTime != "" {
        var quoted := Quote(dateTime);
        date := " " + quoted;
        wire := wire + (" " + quoted);
      } else {
        assert wire + date == wire;
      }
      assert wire == listed + date;
      wire := wire + " ";
    }

    /** Records the buffer as the first piece. */
    method SetFirst()
      modifies this`seg
      ensures Tiled(wire, seg, |wire|) && |seg| == 1 && Pieces(wire, seg) == [wire]
    {
      seg := [(0, |wire|)];
      OnePiece(wire);
    }

    /** Appends a piece of its own. */
    method SetSecond(s: string)
      requires seg == [(0, |wire|)]
      modifies this`wire, this`seg
      ensures Tiled(wire, seg, |wire|) && |seg| == 2 && Pieces(wire, seg) == [old(wire), s]
    {
      TwoPieces(wire, s);
      var begin := |wire|;
      wire := wire + s;
      seg := seg + [(begin, |wire|)];
    }

    /** Both pieces of APPEND. */
    method RenderAppend(tag: string, mailbox: string, flags: FlagSet, dateTime: string, message: string, plus: bool)
      modifies this`wire, this`seg, this`emitted, this`unlocked
      ensures Valid() && Pieces(wire, seg) == AppendPieces(tag, mailbox, flags, dateTime, message, plus)
      ensures emitted == 0 && unlocked == if plus then 2 else 1
    {
      hide AppendLine, LiteralLine, Pieces;
      RenderAppendLine(tag, mailbox, flags, dateTime);
      wire := wire + LiteralLine(|message|, plus);
      seg := [(0, |wire|)];
      SetSecond(message + "\r\n");
      emitted := 0;
      unlocked := if plus then 2 else 1;
    }

    /** With an initial response one line, otherwise a line and the answer to its challenge. */
    method RenderAuthenticate(tag: string, mechanism: string, response: string, ir: bool)
      requires Octets(response)
      modifies this`wire, this`seg, this`unlocked
      ensures Tiled(wire, seg, |wire|) && Pieces(wire, seg) == AuthenticatePieces(tag, mechanism, response, ir)
      ensures unlocked == 1
    {
      hide Encode, Pieces;
      unlocked := 1;
      wire := tag + " AUTHENTICATE " + mechanism;
      if ir {
        wire := wire + " ";
        if response == "" {
          wire := wire + "=";
        } else {
          wire := AppendBase64(wire, response);
        }
        wire := wire + "\r\n";
        SetFirst();
        return;
      }
      wire := wire + "\r\n";
      seg := [(0, |wire|)];
      var answer := "";
      if response == "" {
        answer := "*";
      } else {
        answer := AppendBase64("", response);
        assert "" + Encode(response) == Encode(response);
      }
      SetSecond(answer + "\r\n");
    }

    // ---- The counters ----------------------------------------------------------------

    method NextSegment() returns (piece: string)
      requires Valid()
      ensures piece == View().NextSegment()
    {
      PieceAt(wire, seg);
      if emitted >= unlocked || emitted >= |seg| {
        return "";
      }
      piece := wire[seg[emitted].0..seg[emitted].1];
    }

    method AwaitsContinuation() returns (yes: bool)
      requires Valid()
      ensures yes == View().AwaitsContinuation()
    {
      PieceAt(wire, seg);
      yes := unlocked < |seg|;
    }

    /** The pump flushes only what it could stage. */
    method OnSegmentFlushed()
      requires Valid() && emitted < unlocked
      modifies this`emitted
      ensures Valid() && View() == old(View()).Flushed()
    {
      PieceAt(wire, seg);
      if emitted < |seg| {
        emitted := emitted + 1;
      }
    }

    method OnContinuation()
      requires Valid()
      modifies this`unlocked
      ensures Valid() && View() == old(View()).Continued()
    {
      PieceAt(wire, seg);
      if unlocked < |seg| {
        unlocked := unlocked + 1;
      }
    }
  }

  lemma {:induction false} PiecesGrow(wire: string, seg: seq<(nat, nat)>, s: string)
    requires forall c | c in seg :: c.0 <= c.1 <= |wire|
    ensures (forall c | c in seg :: c.0 <= c.1 <= |wire + s|) && Pieces(wire + s, seg) == Pieces(wire, seg)
    decreases |seg|
  {
    if seg != [] {
      PiecesGrow(wire, seg[..|seg| - 1], s);
      var c := seg[|seg| - 1];
      assert (wire + s)[c.0..c.1] == wire[c.0..c.1];
    }
  }

  lemma WeldOne(a: seq<string>, last: string, s: string)
    ensures Weld(a + [last], [s]) == a + [last + s]
  {
    assert (a + [last])[..|a|] == a;
  }

  lemma {:induction false} PieceAt(wire: string, seg: seq<(nat, nat)>)
    requires forall c | c in seg :: c.0 <= c.1 <= |wire|
    ensures |Pieces(wire, seg)| == |seg|
    ensures forall i | 0 <= i < |seg| :: Pieces(wire, seg)[i] == wire[seg[i].0..seg[i].1]
    decreases |seg|
  {
    if seg != [] {
      PieceAt(wire, seg[..|seg| - 1]);
    }
  }

  // ---- Loops of the renderers -----------------------------------------------------------

  lemma OnePiece(wire: string)
    ensures Pieces(wire, [(0, |wire|)]) == [wire]
  {
    var seg := [(0, |wire|)];
    assert seg[..0] == [] && wire[0..|wire|] == wire;
  }

  lemma TwoPieces(a: string, b: string)
    ensures Pieces(a + b, [(0, |a|), (|a|, |a + b|)]) == [a, b]
  {
    var wire, seg := a + b, [(0, |a|), (|a|, |a + b|)];
    PieceAt(wire, seg);
    assert wire[seg[0].0..seg[0].1] == a && wire[seg[1].0..seg[1].1] == b;
  }

  lemma AtomIsOneLine(v: string)
    ensures AtomSafe(v) ==> T.OneLine(v)
  {
  }

  /** `append_arg` of APPEND. */
  method AppendedArg(v: string) returns (s: string)
    ensures s == InlineArg(v)
  {
    if IsAtomSafe(v) {
      return v;
    }
    s := Quote(v);
  }

  /** One more flag name of the list, behind a space unless it is the first. */
  method Emit(s: string, on: bool, name: string, first: bool, ghost names: seq<string>) returns (t: string, still: bool)
    requires s == " (" + Spaced(names) && (first <==> names == [])
    ensures t == " (" + Spaced(names + When(on, name)) && (still <==> names + When(on, name) == [])
  {
    hide Spaced;
    if !on {
      assert names + [] == names;
      return s, first;
    }
    SpacedMore(names, name);
    t := s;
    if !first {
      t := t + " ";
      Assoc(" (", Spaced(names), " ");
    } else {
      SpacedNothing();
    }
    t := t + name;
    still := false;
    Assoc(" (", Spaced(names) + " ", name);
  }

  lemma SpacedMore(names: seq<string>, name: string)
    ensures Spaced(names + [name]) == if names == [] then name else Spaced(names) + " " + name
  {
    assert (names + [name])[..|names|] == names;
  }

  /** `append_flags`. */
  method AppendedFlags(flags: FlagSet) returns (s: string)
    ensures s == " (" + Spaced(flags.Names()) + ")"
  {
    hide Spaced, When;
    SpacedNothing();
    s := " (";
    var first := true;
    s, first := Emit(s, flags.answered, "\\Answered", first, []);
    ghost var names := [] + When(flags.answered, "\\Answered");
    assert names == When(flags.answered, "\\Answered");
    s, first := Emit(s, flags.deleted, "\\Deleted", first, names);
    names := names + When(flags.deleted, "\\Deleted");
    s, first := Emit(s, flags.draft, "\\Draft", first, names);
    names := names + When(flags.draft, "\\Draft");
    s, first := Emit(s, flags.flagged, "\\Flagged", first, names);
    names := names + When(flags.flagged, "\\Flagged");
    s, first := Emit(s, flags.recent, "\\Recent", first, names);
    names := names + When(flags.recent, "\\Recent");
    s, first := Emit(s, flags.seen, "\\Seen", first, names);
    s := s + ")";
  }

  lemma SpacedNothing()
    ensures Spaced([]) == "" && " (" + "" == " ("
  {
  }

  lemma WeldTwo(a: seq<string>, m: string, v: string)
    requires a != []
    ensures Weld(a, [m, v]) == Weld(a, [m]) + [v]
  {
  }

  lemma ArgCounts(v: string, plus: bool)
    ensures 1 <= |ArgPieces(v, plus)| <= 2
  {
  }

  /** `atom_safe`. */
  predicate IsAtomSafe(v: string)
    ensures IsAtomSafe(v) == AtomSafe(v)
  {
    v != "" && forall i | 0 <= i < |v| ::
      ' ' <= v[i] < 0x7f as char && v[i] !in {'(', ')', '{', ' ', '%', '*', '"', '\\', ']'}
  }

  predicate HasBreak(v: string)
    ensures HasBreak(v) == !T.OneLine(v)
  {
    exists i | 0 <= i < |v| :: v[i] == '\r' || v[i] == '\n'
  }

  lemma EscapeStep(v: string, i: nat)
    requires i < |v|
    ensures T.Escape(v[i..]) == (if T.IsQuotedSpecial(v[i]) then ['\\', v[i]] else [v[i]]) + T.Escape(v[i + 1..])
  {
    assert v[i..][1..] == v[i + 1..];
  }

  /** `append_quoted`. */
  method Quote(v: string) returns (s: string)
    ensures s == T.PrintQuoted(v)
  {
    hide T.Escape;
    s := "\"";
    assert v[0..] == v;
    for i := 0 to |v|
      invariant s + T.Escape(v[i..]) == "\"" + T.Escape(v)
    {
      EscapeStep(v, i);
      var rest := v[i + 1..];
      if T.IsQuotedSpecial(v[i]) {
        Assoc(s, ['\\', v[i]], T.Escape(rest));
        Assoc(s, ['\\'], [v[i]]);
        assert ['\\'] + [v[i]] == ['\\', v[i]];
        s := s + ['\\'] + [v[i]];
      } else {
        Assoc(s, [v[i]], T.Escape(rest));
        s := s + [v[i]];
      }
    }
    EscapeNothing();
    assert v[|v|..] == "" && s + "" == s;
    s := s + "\"";
  }

  lemma EscapeNothing()
    ensures T.Escape("") == ""
  {
  }
}
