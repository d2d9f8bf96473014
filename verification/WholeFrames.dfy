/** When a text that was put together from lines and literals is one frame, and where the frame ends otherwise. */
module WholeFrames {
  import opened Decimal
  import opened Framing
  import opened Tokens
  import opened Wrappers

  /** No line ends inside `t`; a lone CR or LF does not end one. */
  predicate NoCrlf(t: string) {
    forall i | 0 <= i < |t| :: !CrlfAt(t, i)
  }

  lemma NoCrlfConcat(a: string, b: string)
    ensures NoCrlf(a + b) <==> NoCrlf(a) && NoCrlf(b) && !(a != "" && b != "" && a[|a| - 1] == '\r' && b[0] == '\n')
  {
    var t := a + b;
    forall i | 0 <= i < |t|
      ensures CrlfAt(t, i) <==> if i < |a| - 1 then CrlfAt(a, i)
                                else if i < |a| then b != "" && a[i] == '\r' && b[0] == '\n'
                                else CrlfAt(b, i - |a|)
    {
    }
    if NoCrlf(t) {
      forall i | 0 <= i < |a| ensures !CrlfAt(a, i) { assert !CrlfAt(t, i); }
      forall i | 0 <= i < |b| ensures !CrlfAt(b, i) { assert !CrlfAt(t, |a| + i); }
      if a != "" { assert !CrlfAt(t, |a| - 1); }
    }
  }

  lemma OneLineHasNoCrlf(t: string)
    requires OneLine(t)
    ensures NoCrlf(t)
  {
  }

  /** A line end goes on from a line that ends in no CR, or in front of a text that does not start with LF. */
  lemma LineGrows(a: string, b: string)
    requires NoCrlf(a) && OneLine(b)
    ensures NoCrlf(a + b)
  {
    NoCrlfConcat(a, b);
    OneLineHasNoCrlf(b);
  }

  lemma FirstCrlf(line: string, rest: string)
    requires NoCrlf(line)
    ensures FindCrlf(line + ("\r\n" + rest)) == |line|
  {
    var t := line + ("\r\n" + rest);
    forall k | 0 <= k < |line| ensures !CrlfAt(t, k) {
      assert t[k] == line[k] && !CrlfAt(line, k);
      if k + 1 < |line| { assert t[k + 1] == line[k + 1]; }
    }
    assert CrlfAt(t, |line|);
    FindCrlfIs(t, |line|);
  }

  // ---- One line --------------------------------------------------------------------

  /** The first frame ends with the first line just when that line announces no literal. */
  lemma FirstLineEnds(line: string, rest: string)
    requires NoCrlf(line)
    ensures FrameEnd(line + ("\r\n" + rest)) == Some(|line|) <==> Trailer(line) == None
  {
    FirstCrlf(line, rest);
    var t := line + ("\r\n" + rest);
    assert t[..|line|] == line;
    hide FindCrlf, Trailer;
  }

  /** What ends `k` octets further on. */
  function Shifted(k: nat, r: Option<nat>): Option<nat> {
    match r
    case None => None
    case Some(e) => Some(k + e)
  }

  /** A literal is passed whole, whatever it holds, when its marker stands where one may. */
  lemma LiteralPassed(head: string, v: string, plus: bool, rest: string)
    requires NoCrlf(head) && MarkerStart(head) && Fits(v)
    ensures var m := Marker(Digits(|v|), plus);
            FrameEnd(head + (m + ("\r\n" + (v + rest)))) == Shifted(|head| + |m| + 2 + |v|, FrameEnd(rest))
  {
    hide Marker, Digits, Trailer, Value, FindCrlf, MarkerStart, NoCrlf;
    var m := Marker(Digits(|v|), plus);
    var line := head + m;
    ValueOfDigits(|v|);
    MarkerIsTrailer(head, Digits(|v|), plus);
    MarkerIsLine(|v|, plus);
    LineGrows(head, m);
    ContinuedLine(line, v, rest);
    Assoc(head, m, "\r\n" + (v + rest));
  }

  lemma ContinuedLine(line: string, v: string, rest: string)
    requires NoCrlf(line) && Trailer(line) == Some(|v|)
    ensures FrameEnd(line + ("\r\n" + (v + rest))) == Shifted(|line| + 2 + |v|, FrameEnd(rest))
  {
    hide Trailer, NoCrlf, FindCrlf, FrameEnd;
    var t, next := line + ("\r\n" + (v + rest)), |line| + 2 + |v|;
    FirstCrlf(line, v + rest);
    assert t[..|line|] == line;
    FrameGoesOn(t, next);
    assert t[next..] == rest;
  }

  lemma FrameGoesOn(t: string, next: nat)
    requires FirstLine(t) == Some(Continued(next))
    ensures FrameEnd(t) == Shifted(next, FrameEnd(t[next..]))
  {
    hide FirstLine;
  }

  lemma MarkerIsLine(n: nat, plus: bool)
    ensures OneLine(Marker(Digits(n), plus))
  {
    var d := Digits(n);
    hide Digits;
    forall i | 0 <= i < |d| ensures !IsLineBreak(d[i]) {
      assert IsDigit(d[i]);
    }
  }

  /** A marker anywhere else, such as right behind a parenthesis, is plain text: the frame ends there. */
  lemma LiteralNotPassed(head: string, n: nat, plus: bool, rest: string)
    requires NoCrlf(head) && !MarkerStart(head)
    ensures var m := Marker(Digits(n), plus);
            FrameEnd(head + (m + ("\r\n" + rest))) == Some(|head| + |m|)
  {
    hide Marker, Digits, Trailer, FrameEnd, NoCrlf, MarkerStart;
    var m := Marker(Digits(n), plus);
    PlainMarker(head, Digits(n), plus);
    MarkerIsLine(n, plus);
    LineGrows(head, m);
    FirstLineEnds(head + m, rest);
    Assoc(head, m, "\r\n" + rest);
  }

  lemma PlainMarker(head: string, digits: string, plus: bool)
    requires !MarkerStart(head) && digits != "" && AllDigits(digits)
    ensures Trailer(head + Marker(digits, plus)) == None
  {
    UnclosedMarker(head, digits, plus);
    hide Unclosed, Marker, DigitsFrom, Value;
    var s := head + "{" + digits;
    DigitsFromIs(s, |head| + 1);
    assert s[|head| + 1..] == digits && s[..|head|] == head;
  }

  // ---- One frame ----------------------------------------------------------------------

  /** With its CRLF, `t` is one complete frame. */
  predicate Framed(t: string) {
    FrameEnd(t + "\r\n") == Some(|t|)
  }

  lemma FramedIsFrame(t: string, more: string)
    requires Framed(t)
    ensures Frames(t + "\r\n" + more) == [t] + Frames(more) && Leftover(t + "\r\n" + more) == Leftover(more)
  {
    FrameEndExtends(t + "\r\n", more);
    hide FrameEnd;
    var all := t + "\r\n" + more;
    assert all[..|t|] == t && all[|t| + 2..] == more;
  }

  lemma LineFrames(line: string)
    requires NoCrlf(line) && Trailer(line) == None
    ensures Framed(line)
  {
    FirstLineEnds(line, "");
    assert "\r\n" + "" == "\r\n";
    hide FrameEnd, Trailer, NoCrlf;
  }

  lemma NothingFrames()
    ensures Framed("")
  {
    LineFrames("");
  }

  lemma LiteralFrames(head: string, v: string, plus: bool, tail: string)
    requires NoCrlf(head) && MarkerStart(head) && Fits(v) && Framed(tail)
    ensures Framed(head + (Marker(Digits(|v|), plus) + "\r\n" + (v + tail)))
  {
    hide Marker, Digits, FrameEnd, MarkerStart, NoCrlf, Framed;
    var m := Marker(Digits(|v|), plus);
    LiteralPassed(head, v, plus, tail + "\r\n");
    var u := head + (m + ("\r\n" + (v + (tail + "\r\n"))));
    var t := LiteralRegroups(head, m, v, tail, u);
    EndsThere(t, u, tail, |head| + |m| + 2 + |v|);
  }

  lemma EndsThere(t: string, u: string, tail: string, k: nat)
    requires t + "\r\n" == u && |t| == k + |tail| && FrameEnd(u) == Shifted(k, FrameEnd(tail + "\r\n")) && Framed(tail)
    ensures Framed(t)
  {
    hide FrameEnd;
  }

  lemma LiteralRegroups(head: string, m: string, v: string, tail: string, u: string) returns (t: string)
    requires u == head + (m + ("\r\n" + (v + (tail + "\r\n"))))
    ensures t == head + (m + "\r\n" + (v + tail)) && t + "\r\n" == u && |t| == |head| + |m| + 2 + |v| + |tail|
  {
    t := head + (m + "\r\n" + (v + tail));
    Assoc(m, "\r\n", v + tail);
    Assoc(head, m + ("\r\n" + (v + tail)), "\r\n");
    Assoc(m, "\r\n" + (v + tail), "\r\n");
    Assoc("\r\n", v + tail, "\r\n");
    Assoc(v, tail, "\r\n");
  }
}
