/**
 What the rendered commands mean to a receiver: LOGIN is one frame that reads back to its
 arguments, APPEND is one frame that carries its message, and every piece that ends in a
 literal marker announces exactly the octets the next piece starts with.
 */
module Renderings {
  import opened Commands
  import opened Decimal
  import opened FlagSets
  import opened Framing
  import opened Segments
  import opened Tokens
  import opened WholeFrames
  import opened Wrappers
  import Base64
  import E = EndToEnd
  import Engine
  import M = SegmentMachine

  // ---- Text and pieces ---------------------------------------------------------------

  function Arg(v: string, plus: bool): string {
    if OneLine(v) then InlineArg(v) else LiteralLine(|v|, plus) + v
  }

  /** A LOGIN command, without its final CRLF. */
  function LoginText(tag: string, user: string, password: string, plus: bool): string {
    tag + " LOGIN " + (Arg(user, plus) + (" " + Arg(password, plus)))
  }

  lemma ArgJoins(v: string, plus: bool)
    ensures ArgPieces(v, plus) != [] && Join(ArgPieces(v, plus)) == Arg(v, plus)
  {
    hide Join, InlineArg, LiteralLine;
    if OneLine(v) {
      JoinOne(InlineArg(v));
    } else {
      var m := LiteralLine(|v|, plus);
      assert [m, v] == [m] + [v];
      JoinConcat([m], [v]);
      JoinOne(m);
      JoinOne(v);
    }
  }

  lemma WeldedText(a: seq<string>, b: seq<string>, x: string, y: string)
    requires a != [] && b != [] && Join(a) == x && Join(b) == y
    ensures Weld(a, b) != [] && Join(Weld(a, b)) == x + y
  {
    WeldJoins(a, b);
  }

  /** The pieces of LOGIN tile the command. */
  lemma LoginTiles(tag: string, user: string, password: string, plus: bool)
    ensures Join(LoginPieces(tag, user, password, plus)) == LoginText(tag, user, password, plus) + "\r\n"
  {
    hide Join, Weld, Arg, ArgPieces;
    var start, u, p := tag + " LOGIN ", Arg(user, plus), Arg(password, plus);
    JoinOne(start);
    JoinOne(" ");
    JoinOne("\r\n");
    ArgJoins(user, plus);
    ArgJoins(password, plus);
    var one := Weld([start], ArgPieces(user, plus));
    WeldedText([start], ArgPieces(user, plus), start, u);
    WeldedText(one, [" "], start + u, " ");
    WeldedText(Weld(one, [" "]), ArgPieces(password, plus), start + u + " ", p);
    WeldedText(Weld(Weld(one, [" "]), ArgPieces(password, plus)), ["\r\n"], start + u + " " + p, "\r\n");
    Assoc(start, u, " ");
    Assoc(start, u + " ", p);
    Assoc(u, " ", p);
  }

  predicate EndsWith(s: string, t: string) {
    |t| <= |s| && s[|s| - |t|..] == t
  }

  /** `a` announces the literal `v`, and `b` starts with it. */
  predicate Announced(a: string, b: string, v: string, plus: bool) {
    EndsWith(a, LiteralLine(|v|, plus)) && v <= b
  }

  ghost predicate Cut(a: string, b: string, vs: set<string>, plus: bool) {
    exists v :: v in vs && Announced(a, b, v, plus)
  }

  /** Pieces that carry bytes, cut only where one of `vs` goes out as a literal. */
  ghost predicate Walled(pieces: seq<string>, vs: set<string>, plus: bool) {
    && (forall s | s in pieces :: s != "")
    && forall i | 0 < i < |pieces| :: Cut(pieces[i - 1], pieces[i], vs, plus)
  }

  lemma WiderCut(x: string, a: string, b: string, y: string, vs: set<string>, plus: bool)
    requires Cut(a, b, vs, plus)
    ensures Cut(x + a, b, vs, plus) && Cut(a, b + y, vs, plus)
  {
    hide LiteralLine;
    var v :| v in vs && Announced(a, b, v, plus);
    assert Announced(x + a, b, v, plus) && Announced(a, b + y, v, plus);
  }

  lemma WeldAt(a: seq<string>, b: seq<string>, i: nat)
    requires a != [] && b != [] && i < |a| + |b| - 1
    ensures |Weld(a, b)| == |a| + |b| - 1
    ensures Weld(a, b)[i] ==
            if i < |a| - 1 then a[i]
            else if i == |a| - 1 then a[i] + b[0]
            else b[i + 1 - |a|]
  {
  }

  lemma WeldWalled(a: seq<string>, b: seq<string>, vs: set<string>, plus: bool)
    requires a != [] && b != [] && Walled(a, vs, plus) && Walled(b, vs, plus)
    ensures Weld(a, b) != [] && Walled(Weld(a, b), vs, plus)
  {
    hide Weld, Cut;
    var w := Weld(a, b);
    WeldAt(a, b, 0);
    forall i | 0 < i < |w| ensures Cut(w[i - 1], w[i], vs, plus) {
      WeldAt(a, b, i - 1);
      WeldAt(a, b, i);
      if i == |a| - 1 {
        WiderCut("", a[i - 1], a[i], b[0], vs, plus);
      } else if i == |a| {
        WiderCut(a[i - 1], b[0], b[1], "", vs, plus);
      }
    }
    forall i | 0 <= i < |w| ensures w[i] != "" {
      WeldAt(a, b, i);
      if i < |a| { assert a[i] in a; } else { assert b[i + 1 - |a|] in b; }
    }
  }

  lemma ArgWalled(v: string, vs: set<string>, plus: bool)
    requires v in vs
    ensures ArgPieces(v, plus) != [] && Walled(ArgPieces(v, plus), vs, plus)
  {
    if OneLine(v) {
      hide Cut;
      OneWalled(InlineArg(v), vs, plus);
    } else {
      LineHasBytes(|v|, plus);
      hide LiteralLine;
      TwoWalled("", v, "", vs, plus);
      assert "" + LiteralLine(|v|, plus) == LiteralLine(|v|, plus) && v + "" == v;
    }
  }

  lemma LineHasBytes(n: nat, plus: bool)
    ensures LiteralLine(n, plus) != ""
  {
  }

  lemma OneWalled(s: string, vs: set<string>, plus: bool)
    requires s != ""
    ensures Walled([s], vs, plus)
  {
  }

  lemma TwoWalled(head: string, v: string, tail: string, vs: set<string>, plus: bool)
    requires v in vs && v + tail != ""
    ensures Walled([head + LiteralLine(|v|, plus), v + tail], vs, plus)
  {
    LineHasBytes(|v|, plus);
    hide LiteralLine;
    var m := LiteralLine(|v|, plus);
    assert EndsWith(head + m, m) && v <= v + tail;
    assert Announced(head + m, v + tail, v, plus);
    assert Cut(head + m, v + tail, vs, plus);
    hide Cut;
  }

  /**
   A freshly rendered LOGIN: every piece carries bytes, and each cut stands behind the
   announcement of an argument, in front of exactly its octets.
   */
  lemma LoginIsWalled(tag: string, user: string, password: string, plus: bool)
    requires tag != ""
    ensures LoginPieces(tag, user, password, plus) != []
    ensures Walled(LoginPieces(tag, user, password, plus), {user, password}, plus)
  {
    hide Walled, Weld, ArgPieces;
    var vs := {user, password};
    ArgWalled(user, vs, plus);
    ArgWalled(password, vs, plus);
    OneWalled(tag + " LOGIN ", vs, plus);
    OneWalled(" ", vs, plus);
    OneWalled("\r\n", vs, plus);
    var one := Weld([tag + " LOGIN "], ArgPieces(user, plus));
    WeldWalled([tag + " LOGIN "], ArgPieces(user, plus), vs, plus);
    WeldWalled(one, [" "], vs, plus);
    WeldWalled(Weld(one, [" "]), ArgPieces(password, plus), vs, plus);
    WeldWalled(Weld(Weld(one, [" "]), ArgPieces(password, plus)), ["\r\n"], vs, plus);
  }

  /** The same of APPEND, whose only literal is the message. */
  lemma AppendIsWalled(tag: string, mailbox: string, flags: FlagSet, dateTime: string, message: string, plus: bool)
    ensures Walled(AppendPieces(tag, mailbox, flags, dateTime, message, plus), {message}, plus)
  {
    TwoWalled(AppendLine(tag, mailbox, flags, dateTime), message, "\r\n", {message}, plus);
    hide Walled;
  }

  // ---- On the wire -------------------------------------------------------------------

  function LoginCommand(tag: string, user: string, password: string, plus: bool): Command {
    var pieces := LoginPieces(tag, user, password, plus);
    Segmented(pieces, 0, if plus then |pieces| else 1, false, {})
  }

  /**
   However flushes and continuations interleave, what a LOGIN has offered is a prefix of
   its text, and without LITERAL+ it holds no piece past the first unanswered wall.
   */
  lemma LoginIsOfferedInOrder(tag: string, user: string, password: string, plus: bool, es: seq<M.Drive>)
    requires tag != ""
    ensures var c := LoginCommand(tag, user, password, plus);
            var d := M.Drives(c, es);
            && c.Rendered() && d.command.Segmented? && d.command.emitted <= |c.segs|
            && d.offered == Join(c.segs[..d.command.emitted])
            && d.offered <= LoginText(tag, user, password, plus) + "\r\n"
            && (!plus ==> d.command.emitted <= 1 + M.Answers(es))
  {
    var c := LoginCommand(tag, user, password, plus);
    LoginIsWalled(tag, user, password, plus);
    LoginTiles(tag, user, password, plus);
    hide LoginPieces, LoginText;
    WalledIsRendered(c, {user, password}, plus);
    hide Walled;
    OfferedIsPrefix(c, es);
  }

  lemma WalledIsRendered(c: Command, vs: set<string>, plus: bool)
    requires c.Segmented? && c.segs != [] && Walled(c.segs, vs, plus)
    requires c.emitted == 0 && (c.unlocked == 1 || c.unlocked == |c.segs|)
    ensures c.Rendered()
  {
    hide Cut;
  }

  lemma OfferedIsPrefix(c: Command, es: seq<M.Drive>)
    requires c.Segmented? && c.Rendered()
    ensures var d := M.Drives(c, es);
            && d.command.Segmented? && d.command.emitted <= |c.segs| && d.offered == Join(c.segs[..d.command.emitted])
            && d.offered <= Join(c.segs) && d.command.emitted <= c.unlocked + M.Answers(es)
  {
    hide Join, M.Drives, M.Answers, Command.Rendered;
    M.EachByteOnceInOrder(c, es);
    var k := M.Drives(c, es).command.emitted;
    assert c.segs == c.segs[..k] + c.segs[k..];
    JoinConcat(c.segs[..k], c.segs[k..]);
  }

  function AppendCommand(tag: string, mailbox: string, flags: FlagSet, dateTime: string, message: string, plus: bool): Command {
    Segmented(AppendPieces(tag, mailbox, flags, dateTime, message, plus), 0, if plus then 2 else 1, false, {})
  }

  /** The same of APPEND: without LITERAL+ no octet of the message is offered before the server answered. */
  lemma AppendIsOfferedInOrder(tag: string, mailbox: string, flags: FlagSet, dateTime: string, message: string, plus: bool,
                               es: seq<M.Drive>)
    ensures var c := AppendCommand(tag, mailbox, flags, dateTime, message, plus);
            var d := M.Drives(c, es);
            && c.Rendered() && d.command.Segmented? && d.command.emitted <= |c.segs|
            && d.offered == Join(c.segs[..d.command.emitted])
            && d.offered <= AppendText(tag, mailbox, flags, dateTime, message, plus) + "\r\n"
            && (!plus ==> d.command.emitted <= 1 + M.Answers(es))
  {
    var c := AppendCommand(tag, mailbox, flags, dateTime, message, plus);
    AppendIsWalled(tag, mailbox, flags, dateTime, message, plus);
    AppendTiles(tag, mailbox, flags, dateTime, message, plus);
    assert |c.segs| == 2;
    hide AppendPieces, AppendText;
    WalledIsRendered(c, {message}, plus);
    hide Walled;
    OfferedIsPrefix(c, es);
  }

  function AuthenticateCommand(tag: string, mechanism: string, response: string, ir: bool): Command
    requires Base64.Octets(response)
  {
    Segmented(AuthenticatePieces(tag, mechanism, response, ir), 0, 1, true, {})
  }

  /** And of AUTHENTICATE: the answer to the challenge is offered only behind the challenge. */
  lemma AuthenticateIsOfferedInOrder(tag: string, mechanism: string, response: string, ir: bool, es: seq<M.Drive>)
    requires Base64.Octets(response)
    ensures var c := AuthenticateCommand(tag, mechanism, response, ir);
            var d := M.Drives(c, es);
            && c.Rendered() && d.command.Segmented? && d.command.emitted <= |c.segs|
            && d.offered == Join(c.segs[..d.command.emitted]) && d.offered <= Join(c.segs)
            && d.command.emitted <= 1 + M.Answers(es)
  {
    hide Base64.Encode;
    OfferedIsPrefix(AuthenticateCommand(tag, mechanism, response, ir), es);
  }

  /** Which rendered commands stop the pump behind every piece; the others may be split on the wire. */
  lemma WhichKeepTheOrder(tag: string, a: string, b: string, flags: FlagSet, dateTime: string, plus: bool, ir: bool)
    ensures KeepsOrder(LoginCommand(tag, a, b, plus)) <==> !plus || (OneLine(a) && OneLine(b))
    ensures KeepsOrder(AppendCommand(tag, a, flags, dateTime, b, plus)) <==> !plus
    ensures Base64.Octets(b) ==> KeepsOrder(AuthenticateCommand(tag, a, b, ir))
  {
    LoginLength(tag, a, b, plus);
    hide LoginPieces, Base64.Encode, OneLine;
  }

  lemma LoginLength(tag: string, user: string, password: string, plus: bool)
    ensures |LoginPieces(tag, user, password, plus)| == 1 + (if OneLine(user) then 0 else 1) + (if OneLine(password) then 0 else 1)
  {
    hide InlineArg, LiteralLine, OneLine;
    var u, p := ArgPieces(user, plus), ArgPieces(password, plus);
    WeldAt([tag + " LOGIN "], u, 0);
    var one := Weld([tag + " LOGIN "], u);
    WeldAt(one, [" "], 0);
    WeldAt(Weld(one, [" "]), p, 0);
    WeldAt(Weld(Weld(one, [" "]), p), ["\r\n"], 0);
    hide ArgPieces, Weld;
  }

  // ---- Framing ------------------------------------------------------------------------

  /** Neither an atom nor a quoted string can end a line like a literal marker. */
  lemma InlineEndsLine(head: string, v: string)
    requires OneLine(head) && head != "" && head[|head| - 1] == ' ' && OneLine(v)
    ensures OneLine(head + InlineArg(v)) && Trailer(head + InlineArg(v)) == None
  {
    var line := head + InlineArg(v);
    if AtomSafe(v) {
      AtomEndsLine(head, v);
    } else {
      EscapedIsOneLine(v);
      assert line[|line| - 1] == '"';
    }
  }

  lemma AtomEndsLine(head: string, v: string)
    requires head != "" && head[|head| - 1] == ' ' && AtomSafe(v)
    ensures Trailer(head + v) == None
  {
    hide Value;
    var line := head + v;
    if |line| >= 3 && line[|line| - 1] == '}' {
      var s := Unclosed(line);
      var i := DigitsFrom(s);
      assert forall k | 0 <= k < |s| :: s[k] == line[k];
      assert |s| >= |head|;
      if i < |s| {
        assert !IsDigit(s[|head| - 1]) && i >= |head|;
        assert s[i - 1] == if i == |head| then ' ' else v[i - 1 - |head|];
      }
    }
  }

  lemma LiteralArgFrames(head: string, v: string, plus: bool, tail: string)
    requires NoCrlf(head) && MarkerStart(head) && Fits(v) && Framed(tail)
    ensures Framed(head + (LiteralLine(|v|, plus) + (v + tail)))
  {
    hide Marker, Digits, MarkerStart, Framed, NoCrlf;
    LiteralFrames(head, v, plus, tail);
  }

  lemma LastLiteralFrames(head: string, v: string, plus: bool)
    requires NoCrlf(head) && MarkerStart(head) && Fits(v)
    ensures Framed(head + (LiteralLine(|v|, plus) + v))
  {
    hide Marker, Digits, MarkerStart, Framed, NoCrlf;
    NothingFrames();
    LiteralArgFrames(head, v, plus, "");
    assert v + "" == v;
  }

  /** A line that ends in an argument is a frame, whether the argument stays on it or not. */
  lemma LastArgFrames(head: string, v: string, plus: bool)
    requires OneLine(head) && head != "" && head[|head| - 1] == ' ' && Fits(v)
    ensures Framed(head + Arg(v, plus))
  {
    if OneLine(v) {
      InlineEndsLine(head, v);
      OneLineHasNoCrlf(head + InlineArg(v));
      LineFrames(head + InlineArg(v));
    } else {
      OneLineHasNoCrlf(head);
      LastLiteralFrames(head, v, plus);
    }
  }

  lemma ArgsFrame(head: string, u: string, v: string, plus: bool)
    requires OneLine(head) && head != "" && head[|head| - 1] == ' ' && Fits(u) && Fits(v)
    ensures Framed(head + (Arg(u, plus) + (" " + Arg(v, plus))))
  {
    hide InlineArg, LiteralLine, Framed, Trailer;
    var tail := " " + Arg(v, plus);
    if OneLine(u) {
      InlineEndsLine(head, u);
      var line := head + InlineArg(u) + " ";
      assert line[|line| - 1] == ' ' && OneLine(line);
      LastArgFrames(line, v, plus);
      hide Arg, OneLine;
      Assoc(head, InlineArg(u), tail);
      Assoc(head + InlineArg(u), " ", Arg(v, plus));
    } else {
      LastArgFrames(" ", v, plus);
      OneLineHasNoCrlf(head);
      LiteralArgFrames(head, u, plus, tail);
      Assoc(LiteralLine(|u|, plus), u, tail);
    }
  }

  // ---- Reading back --------------------------------------------------------------------

  function ReadAtom(t: string): Parse<string> {
    var k := AtomLength(t);
    if k == 0 then Fail else Got(t[..k], t[k..])
  }

  function Expect(t: string, c: char): Parse<char> {
    match Consume(t, c)
    case None => Fail
    case Some(r) => Got(c, r)
  }

  datatype LoginLine = LoginLine(tag: string, user: string, password: string)

  function ReadArguments(tag: string, t: string): Parse<LoginLine> {
    var (user, t1) :- ReadAstring(t);
    var (_, t2) :- Expect(t1, ' ');
    var (password, t3) :- ReadAstring(t2);
    Got(LoginLine(tag, user.text, password.text), t3)
  }

  /** How a receiver takes a LOGIN frame apart. */
  function ReadLogin(t: string): Parse<LoginLine> {
    var (tag, t1) :- ReadAtom(t);
    var (_, t2) :- Expect(t1, ' ');
    var (name, t3) :- ReadAtom(t2);
    if name != "LOGIN" then Fail
    else
      var (_, t4) :- Expect(t3, ' ');
      ReadArguments(tag, t4)
  }

  /** An atom that reads as the start of a literal in the obsolete spelling. */
  predicate TildeAtom(v: string) {
    AtomSafe(v) && v[0] == '~'
  }

  lemma AtomReadsBack(v: string, rest: string)
    requires AtomSafe(v) && (rest == "" || rest[0] == ' ')
    ensures ReadAstring(v + rest) == if v[0] == '~' then Fail else Got(Token(v, false), rest)
  {
    var t := v + rest;
    if v[0] == '~' {
      assert t[1..] == v[1..] + rest;
      assert t[1..] == "" || t[1..][0] != '{';
    } else {
      E.AtomThen(v, rest);
    }
  }

  /** A literal with the plus sign of LITERAL+ reads like one without. */
  lemma LiteralReadsBack(v: string, plus: bool, rest: string)
    requires Fits(v)
    ensures ReadAstring(LiteralLine(|v|, plus) + v + rest) == Got(Token(v, false), rest)
  {
    hide Value, DigitsLength, BracedLiteral, LiteralTail, LiteralLine;
    var d := Digits(|v|);
    var close := (if plus then "+" else "") + ("}\r\n" + (v + rest));
    LiteralOpens(v, plus, rest);
    DigitsLengthIs(d, close);
    ValueOfDigits(|v|);
    hide Digits;
    BracedReads(d + close, |d|);
    PlusTailReads(v, plus, rest);
  }

  lemma PlusTailReads(v: string, plus: bool, rest: string)
    ensures LiteralTail(|v|, (if plus then "+" else "") + ("}\r\n" + (v + rest))) == Got(v, rest)
  {
    var t := "}\r\n" + (v + rest);
    TailReads(v, rest);
    CloseBrace(v, rest);
    assert "" + t == t && ("+" + t)[1..] == t;
  }

  lemma LiteralOpens(v: string, plus: bool, rest: string)
    ensures LiteralLine(|v|, plus) + v + rest == "{" + (Digits(|v|) + ((if plus then "+" else "") + ("}\r\n" + (v + rest))))
  {
    var d, p, e := Digits(|v|), (if plus then "+" else ""), "}\r\n";
    hide Digits;
    LineParts(d, plus);
    Assoc("{" + d + p + e, v, rest);
    Assoc("{" + d + p, e, v + rest);
    Assoc("{" + d, p, e + (v + rest));
    Assoc("{", d, p + (e + (v + rest)));
    hide LiteralLine;
  }

  lemma LineParts(d: string, plus: bool)
    ensures Marker(d, plus) + "\r\n" == "{" + d + (if plus then "+" else "") + "}\r\n"
  {
  }

  /** Every argument reads back, an atom that starts with a tilde alone excepted. */
  lemma ArgReadsBack(v: string, plus: bool, rest: string)
    requires Fits(v) && (rest == "" || rest[0] == ' ')
    ensures var p := ReadAstring(Arg(v, plus) + rest);
            if TildeAtom(v) then p == Fail else p.Got? && p.value.text == v && p.rest == rest
  {
    if AtomSafe(v) {
      AtomIsOneLine(v);
      AtomReadsBack(v, rest);
    } else if OneLine(v) {
      AstringRoundTrip(v, rest);
      hide ReadAstring;
    } else {
      LiteralReadsBack(v, plus, rest);
    }
  }

  lemma HeadIsLine(n: nat)
    ensures var head := Engine.RenderTag(n) + " LOGIN ";
            OneLine(head) && head[|head| - 1] == ' '
  {
    E.TagIsAtom(n);
    hide Engine.RenderTag;
  }

  lemma LoginHead(n: nat, t: string)
    ensures ReadLogin(Engine.RenderTag(n) + " LOGIN " + t) == ReadArguments(Engine.RenderTag(n), t)
  {
    hide Engine.RenderTag, ReadArguments, AtomLength, E.AllAtom;
    var tag := Engine.RenderTag(n);
    E.TagIsAtom(n);
    E.SpaceThen(t);
    LoginIsAtom();
    E.AtomThen("LOGIN", " " + t);
    var u := "LOGIN" + (" " + t);
    E.SpaceThen(u);
    E.AtomThen(tag, " " + u);
    assert tag + " LOGIN " + t == tag + (" " + u);
    hide Consume;
  }

  lemma LoginIsAtom()
    ensures E.AllAtom("LOGIN")
  {
  }

  lemma ArgumentsReadBack(tag: string, user: string, password: string, plus: bool)
    requires Fits(user) && Fits(password)
    ensures ReadArguments(tag, Arg(user, plus) + (" " + Arg(password, plus))) ==
            if TildeAtom(user) || TildeAtom(password) then Fail else Got(LoginLine(tag, user, password), "")
  {
    var last := Arg(password, plus);
    ArgReadsBack(user, plus, " " + last);
    ArgReadsBack(password, plus, "");
    assert last + "" == last;
    E.SpaceThen(last);
    hide Arg, ReadAstring, TildeAtom;
  }

  /**
   LOGIN, for every user name and password, with or without LITERAL+: the rendered command
   is one frame, and the frame reads back to the tag and both arguments unless one of them
   is an atom that starts with a tilde.
   */
  lemma LoginRoundTrip(n: nat, user: string, password: string, plus: bool, more: string)
    requires Fits(user) && Fits(password)
    ensures var tag := Engine.RenderTag(n);
            var text := LoginText(tag, user, password, plus);
            && Frames(Join(LoginPieces(tag, user, password, plus)) + more) == [text] + Frames(more)
            && (ReadLogin(text) == Got(LoginLine(tag, user, password), "") <==> !TildeAtom(user) && !TildeAtom(password))
  {
    var tag := Engine.RenderTag(n);
    var head, rest := tag + " LOGIN ", Arg(user, plus) + (" " + Arg(password, plus));
    LoginHead(n, rest);
    HeadIsLine(n);
    hide ReadLogin, Engine.RenderTag;
    ArgumentsReadBack(tag, user, password, plus);
    LoginTiles(tag, user, password, plus);
    ArgsFrame(head, user, password, plus);
    FramedIsFrame(LoginText(tag, user, password, plus), more);
    hide Frames, Framed, OneLine, LoginPieces, Join, Arg, ReadArguments, TildeAtom;
  }
  // ---- APPEND and AUTHENTICATE -----------------------------------------------------------

  /** An APPEND command, without its final CRLF. */
  function AppendText(tag: string, mailbox: string, flags: FlagSet, dateTime: string, message: string, plus: bool): string {
    AppendLine(tag, mailbox, flags, dateTime) + (LiteralLine(|message|, plus) + message)
  }

  lemma AppendTiles(tag: string, mailbox: string, flags: FlagSet, dateTime: string, message: string, plus: bool)
    ensures Join(AppendPieces(tag, mailbox, flags, dateTime, message, plus))
            == AppendText(tag, mailbox, flags, dateTime, message, plus) + "\r\n"
  {
    hide AppendLine, LiteralLine, Join;
    var a, m := AppendLine(tag, mailbox, flags, dateTime), LiteralLine(|message|, plus);
    assert [a + m, message + "\r\n"] == [a + m] + [message + "\r\n"];
    JoinConcat([a + m], [message + "\r\n"]);
    JoinOne(a + m);
    JoinOne(message + "\r\n");
    Assoc(a, m, message + "\r\n");
    Assoc(a, m + message, "\r\n");
    Assoc(m, message, "\r\n");
  }

  lemma {:induction false} SpacedIsLine(words: seq<string>)
    requires forall w | w in words :: OneLine(w)
    ensures OneLine(Spaced(words))
  {
    if |words| > 1 {
      SpacedIsLine(words[..|words| - 1]);
      assert words[|words| - 1] in words;
    }
  }

  lemma {:induction false} EscapeConcat(a: string, b: string)
    ensures Escape(a + b) == Escape(a) + Escape(b)
  {
    if a == "" {
      assert a + b == b;
    } else {
      assert (a + b)[1..] == a[1..] + b;
      EscapeConcat(a[1..], b);
    }
  }

  lemma EscapeCrlf(w: string)
    ensures Escape("\r\n" + w) == "\r\n" + Escape(w)
  {
    var t := "\r\n" + w;
    assert t[1..] == "\n" + w && t[1..][1..] == w;
    assert Escape(t[1..]) == "\n" + Escape(w);
  }

  lemma EscapedStart(v: string)
    ensures Escape(v) == "" <==> v == ""
    ensures v != "" ==> (Escape(v)[0] == '\n' <==> v[0] == '\n')
  {
  }

  lemma {:induction false} EscapedHasNoCrlf(v: string)
    requires NoCrlf(v)
    ensures NoCrlf(Escape(v))
  {
    if v != "" {
      var c, rest := v[..1], v[1..];
      assert v == c + rest;
      NoCrlfConcat(c, rest);
      EscapedHasNoCrlf(rest);
      EscapedStart(rest);
      var e := if IsQuotedSpecial(v[0]) then ['\\', v[0]] else [v[0]];
      NoCrlfConcat(e, Escape(rest));
    }
  }

  /** Where the first line end of a text is. */
  lemma SplitAtCrlf(v: string) returns (u: string, w: string)
    requires !NoCrlf(v)
    ensures FindCrlf(v) < |v| && u == v[..FindCrlf(v)] && NoCrlf(u) && v == u + ("\r\n" + w)
  {
    var i := FindCrlf(v);
    var k :| 0 <= k < |v| && CrlfAt(v, k);
    assert i <= k;
    u, w := v[..i], v[i + 2..];
    assert CrlfAt(v, i);
    forall k | 0 <= k < |u| ensures !CrlfAt(u, k) { assert !CrlfAt(v, k); }
  }

  /** An argument on the line, whose line ends are sent as they are. */
  lemma InlineBreaks(v: string)
    ensures NoCrlf(InlineArg(v)) <==> NoCrlf(v)
    ensures NoCrlf(PrintQuoted(v)) <==> NoCrlf(v)
    ensures !NoCrlf(v) ==> InlineArg(v) == PrintQuoted(v)
  {
    AtomIsOneLine(v);
    if OneLine(v) { OneLineHasNoCrlf(v); }
    hide OneLine, AtomSafe;
    assert OneLine("\"") by { QuoteIsLine(); }
    OneLineHasNoCrlf("\"");
    NoCrlfConcat("\"", Escape(v));
    NoCrlfConcat("\"" + Escape(v), "\"");
    if NoCrlf(v) {
      EscapedHasNoCrlf(v);
    } else {
      var u, w := SplitAtCrlf(v);
      EscapeConcat(u, "\r\n" + w);
      EscapeCrlf(w);
      hide Escape, FindCrlf;
      assert CrlfAt(Escape(v), |Escape(u)|);
    }
    hide Escape;
  }

  lemma QuoteIsLine()
    ensures OneLine("\"")
  {
  }

  /** What stands behind the mailbox on the line. */
  function AppendRest(flags: FlagSet, dateTime: string): string {
    (if flags.Any() then " (" + Spaced(flags.Names()) + ")" else "")
    + (if dateTime == "" then "" else " " + PrintQuoted(dateTime))
  }

  lemma AppendLineIs(tag: string, mailbox: string, flags: FlagSet, dateTime: string)
    ensures AppendLine(tag, mailbox, flags, dateTime) == tag + " APPEND " + (InlineArg(mailbox) + (AppendRest(flags, dateTime) + " "))
  {
    hide InlineArg, Spaced, PrintQuoted;
    var head, arg := tag + " APPEND ", InlineArg(mailbox);
    var list := if flags.Any() then " (" + Spaced(flags.Names()) + ")" else "";
    var date := if dateTime == "" then "" else " " + PrintQuoted(dateTime);
    Assoc(head + arg, list, date);
    Assoc(head + arg, list + date, " ");
    Assoc(head, arg, list + date + " ");
  }

  lemma NamesAreLines(flags: FlagSet)
    ensures forall w | w in flags.Names() :: OneLine(w)
  {
    FlagsAreLines();
    hide OneLine;
  }

  lemma FlagsAreLines()
    ensures OneLine("\\Answered") && OneLine("\\Deleted") && OneLine("\\Draft")
    ensures OneLine("\\Flagged") && OneLine("\\Recent") && OneLine("\\Seen")
  {
  }

  lemma FixedPartsAreLines()
    ensures OneLine(" (") && OneLine(")") && OneLine(" ") && OneLine(" APPEND ") && OneLine("")
  {
  }

  /** Neither a space nor a letter completes a line end. */
  lemma RestBreaks(flags: FlagSet, dateTime: string)
    ensures NoCrlf(AppendRest(flags, dateTime)) <==> NoCrlf(dateTime)
    ensures var r := AppendRest(flags, dateTime); r == "" || r[0] == ' '
  {
    InlineBreaks(dateTime);
    NamesAreLines(flags);
    SpacedIsLine(flags.Names());
    FixedPartsAreLines();
    hide PrintQuoted, Spaced, FlagSet.Names, InlineArg, OneLine;
    var names := Spaced(flags.Names());
    var list := if flags.Any() then " (" + names + ")" else "";
    var date := if dateTime == "" then "" else " " + PrintQuoted(dateTime);
    OneLineConcat(" (", names);
    OneLineConcat(" (" + names, ")");
    OneLineHasNoCrlf(list);
    OneLineHasNoCrlf(" ");
    NoCrlfConcat(" ", PrintQuoted(dateTime));
    assert PrintQuoted(dateTime)[0] == '"' by { QuoteOpens(dateTime); }
    NoCrlfConcat(list, date);
  }

  lemma QuoteOpens(v: string)
    ensures PrintQuoted(v) != "" && PrintQuoted(v)[0] == '"'
  {
    hide Escape;
  }

  /** The command line stays one line exactly when mailbox and date do. */
  lemma AppendLineBreaks(tag: string, mailbox: string, flags: FlagSet, dateTime: string)
    requires OneLine(tag)
    ensures NoCrlf(AppendLine(tag, mailbox, flags, dateTime)) <==> NoCrlf(mailbox) && NoCrlf(dateTime)
    ensures MarkerStart(AppendLine(tag, mailbox, flags, dateTime))
  {
    AppendLineIs(tag, mailbox, flags, dateTime);
    RestBreaks(flags, dateTime);
    InlineBreaks(mailbox);
    InlineStarts(mailbox);
    FixedPartsAreLines();
    hide AppendLine, AppendRest, InlineArg, PrintQuoted, OneLine;
    var head, arg, r := tag + " APPEND ", InlineArg(mailbox), AppendRest(flags, dateTime);
    OneLineConcat(tag, " APPEND ");
    OneLineHasNoCrlf(head);
    OneLineHasNoCrlf(" ");
    NoCrlfConcat(r, " ");
    NoCrlfConcat(arg, r + " ");
    NoCrlfConcat(head, arg + (r + " "));
    hide NoCrlf;
    assert (r + " ")[|r|] == ' ' && (r + " ")[0] == ' ';
  }

  lemma InlineStarts(v: string)
    ensures InlineArg(v) != "" && InlineArg(v)[0] != '\n'
  {
    hide Escape;
  }

  /** APPEND is one frame whatever octets the message holds, when no line ends in its mailbox and date. */
  lemma AppendFrames(tag: string, mailbox: string, flags: FlagSet, dateTime: string, message: string, plus: bool, more: string)
    requires OneLine(tag) && NoCrlf(mailbox) && NoCrlf(dateTime) && Fits(message)
    ensures Frames(Join(AppendPieces(tag, mailbox, flags, dateTime, message, plus)) + more)
            == [AppendText(tag, mailbox, flags, dateTime, message, plus)] + Frames(more)
  {
    hide AppendLine, AppendPieces, OneLine, MarkerStart, Join, Framed, Frames, NoCrlf, LiteralLine;
    AppendTiles(tag, mailbox, flags, dateTime, message, plus);
    AppendLineBreaks(tag, mailbox, flags, dateTime);
    LastLiteralFrames(AppendLine(tag, mailbox, flags, dateTime), message, plus);
    FramedIsFrame(AppendText(tag, mailbox, flags, dateTime, message, plus), more);
  }

  /**
   A mailbox with a line end in it, which is sent as it is: the first frame that a receiver sees
   ends in the middle of the mailbox, with everything before that line end, unless that much of
   the command happens to end like the announcement of a literal.
   */
  lemma BrokenMailboxFrames(tag: string, mailbox: string, flags: FlagSet, dateTime: string, message: string, plus: bool, more: string)
    requires OneLine(tag) && !NoCrlf(mailbox)
    ensures FindCrlf(mailbox) < |mailbox|
    ensures var line := tag + " APPEND " + ("\"" + Escape(mailbox[..FindCrlf(mailbox)]));
            var sent := Join(AppendPieces(tag, mailbox, flags, dateTime, message, plus)) + more;
            && line + "\r\n" <= sent
            && (FrameEnd(sent) == Some(|line|) <==> Trailer(line) == None)
  {
    var u, w := SplitAtCrlf(mailbox);
    EscapeConcat(u, "\r\n" + w);
    EscapeCrlf(w);
    InlineBreaks(mailbox);
    AppendLineIs(tag, mailbox, flags, dateTime);
    AppendTiles(tag, mailbox, flags, dateTime, message, plus);
    LineUpTo(tag, u);
    hide Escape, AppendLine, AppendRest, AppendPieces, Join, LiteralLine, NoCrlf, OneLine, InlineArg, FrameEnd, Trailer, FindCrlf;
    var line := tag + " APPEND " + ("\"" + Escape(u));
    var sent := Join(AppendPieces(tag, mailbox, flags, dateTime, message, plus)) + more;
    var rest := BehindBreak(tag + " APPEND ", Escape(u), Escape(w), AppendRest(flags, dateTime) + " ",
                            LiteralLine(|message|, plus) + message, more, sent);
    FirstLineEnds(line, rest);
  }

  lemma LineUpTo(tag: string, u: string)
    requires OneLine(tag) && NoCrlf(u)
    ensures NoCrlf(tag + " APPEND " + ("\"" + Escape(u)))
  {
    EscapedHasNoCrlf(u);
    FixedPartsAreLines();
    QuoteIsLine();
    hide Escape, OneLine;
    OneLineConcat(tag, " APPEND ");
    OneLineHasNoCrlf(tag + " APPEND ");
    OneLineHasNoCrlf("\"");
    NoCrlfConcat("\"", Escape(u));
    NoCrlfConcat(tag + " APPEND ", "\"" + Escape(u));
  }

  lemma BehindBreak(head: string, u: string, w: string, r: string, literal: string, more: string, sent: string) returns (rest: string)
    requires sent == head + (("\"" + (u + ("\r\n" + w)) + "\"") + r) + literal + "\r\n" + more
    ensures sent == head + ("\"" + u) + ("\r\n" + rest)
  {
    var line := head + ("\"" + u);
    rest := sent[|line| + 2..];
    assert sent[..|line|] == line;
    assert sent[|line|] == '\r' && sent[|line| + 1] == '\n';
  }

  lemma {:induction false} BrokenQuoteFails(v: string, rest: string)
    requires !OneLine(v)
    ensures QuotedBody(Escape(v) + rest) == Fail
  {
    var t := Escape(v) + rest;
    var tail := Escape(v[1..]) + rest;
    if !IsLineBreak(v[0]) {
      BrokenQuoteFails(v[1..], rest);
      if IsQuotedSpecial(v[0]) {
        assert t == ['\\', v[0]] + tail && t[2..] == tail;
      } else {
        assert t == [v[0]] + tail && t[1..] == tail;
      }
    }
  }

  /** The mailbox of APPEND reads back just when it has no line break and does not read as a literal. */
  lemma AppendMailboxReadsBack(mailbox: string, rest: string)
    requires Fits(mailbox) && (rest == "" || rest[0] == ' ')
    ensures var p := ReadAstring(InlineArg(mailbox) + rest);
            (p.Got? && p.value.text == mailbox && p.rest == rest) <==> OneLine(mailbox) && !TildeAtom(mailbox)
  {
    if OneLine(mailbox) {
      ArgReadsBack(mailbox, false, rest);
      hide ReadAstring, InlineArg, TildeAtom;
    } else {
      AtomIsOneLine(mailbox);
      BrokenQuoteFails(mailbox, "\"" + rest);
      PrintQuotedIs(mailbox, rest);
      var t := InlineArg(mailbox) + rest;
      hide Escape, QuotedBody;
      assert t[1..] == Escape(mailbox) + ("\"" + rest);
    }
  }

  /** For one: the server sees two lines instead of one command. */
  lemma BrokenMailboxSplits(more: string)
    ensures var sent := Join(AppendPieces("a0001", "x\r\ny", FlagSet(false, false, false, false, false, false), "", "", false)) + more;
            FrameEnd(sent) == Some(15) && sent[..15] == "a0001 APPEND \"x"
  {
    var mailbox := "x\r\ny";
    FirstBreak(mailbox);
    PlainLine();
    hide AppendPieces, Join, FrameEnd, Trailer, Escape, NoCrlf, FindCrlf;
    BrokenMailboxFrames("a0001", mailbox, FlagSet(false, false, false, false, false, false), "", "", false, more);
  }

  lemma FirstBreak(mailbox: string)
    requires mailbox == "x\r\ny"
    ensures !NoCrlf(mailbox) && FindCrlf(mailbox) == 1 && mailbox[..1] == "x"
  {
    assert CrlfAt(mailbox, 1) && !CrlfAt(mailbox, 0);
    FindCrlfIs(mailbox, 1);
  }

  lemma PlainLine()
    ensures OneLine("a0001") && Escape("x") == "x"
    ensures var line := "a0001 APPEND " + ("\"" + "x"); line == "a0001 APPEND \"x" && |line| == 15 && Trailer(line) == None
    ensures "a0001" + " APPEND " == "a0001 APPEND "
  {
    assert "x"[1..] == "";
  }

  /** The answer to the challenge decodes to the response; an empty response cancels. */
  lemma AuthenticateAnswers(tag: string, mechanism: string, response: string)
    requires Base64.Octets(response)
    ensures var pieces := AuthenticatePieces(tag, mechanism, response, false);
            |pieces| == 2 && |pieces[1]| >= 2 && var answer := pieces[1][..|pieces[1]| - 2];
            if response == "" then answer == "*" else answer != "" && Base64.Decode(answer) == Some(response)
  {
    Base64.RoundTrip(response);
    hide Base64.Encode, Base64.Decode;
    assert (Base64.Encode(response) + "\r\n")[..|Base64.Encode(response)|] == Base64.Encode(response);
  }
}
