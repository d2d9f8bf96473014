/**
 The resumable lexer: it frames responses out of a buffer that grows by arbitrary
 reads, and agrees with the one-shot framer.
 */
module ResponseLexers {
  import opened Decimal
  import opened Framing
  import opened Wrappers

  const MAX_UINT64: nat := TWO_TO_THE_64 - 1

  lemma ValueAppend(s: string, c: char)
    requires AllDigits(s) && IsDigit(c)
    ensures AllDigits(s + [c]) && Value(s + [c]) == Value(s) * 10 + DigitValue(c)
  {
    assert (s + [c])[..|s|] == s;
  }

  /** The 64-bit accumulation: `None` exactly when the number does not fit. */
  method ParseUint64(digits: string) returns (r: Option<nat>)
    requires AllDigits(digits)
    ensures r == if Value(digits) < TWO_TO_THE_64 then Some(Value(digits)) else None
  {
    var value := 0;
    assert digits[..0] == "";
    for i := 0 to |digits|
      invariant AllDigits(digits[..i]) && value == Value(digits[..i]) < TWO_TO_THE_64
    {
      var d := DigitValue(digits[i]);
      assert digits[..i + 1] == digits[..i] + [digits[i]];
      ValueAppend(digits[..i], digits[i]);
      if value > (MAX_UINT64 - d) / 10 {
        ValueMonotonic(digits, i + 1);
        return None;
      }
      value := value * 10 + d;
    }
    assert digits[..|digits|] == digits;
    r := Some(value);
  }

  /** `literal_trailer`. */
  method LiteralTrailer(line: string) returns (r: Option<nat>)
    ensures r == Trailer(line)
  {
    hide Value;
    if |line| < 3 || line[|line| - 1] != '}' {
      return None;
    }
    var end := |line| - 1;
    if line[end - 1] == '+' {
      end := end - 1;
    }
    ghost var s := Unclosed(line);
    assert s == line[..end];
    var digitEnd := end;
    while end > 0 && IsDigit(line[end - 1])
      invariant end <= digitEnd && forall k | end <= k < digitEnd :: IsDigit(line[k])
    {
      end := end - 1;
    }
    DigitsFromIs(s, end);
    if end == digitEnd || end == 0 || line[end - 1] != '{' {
      return None;
    }
    assert s[..end - 1] == line[..end - 1] && s[end..] == line[end..digitEnd];
    if end > 1 && line[end - 2] != ' ' && line[end - 2] != '~' {
      return None;
    }
    r := ParseUint64(line[end..digitEnd]);
  }

  // ---- Where a line starts ----------------------------------------------------------

  function Shifted(p: nat, r: Option<nat>): Option<nat> {
    match r case None => None case Some(k) => Some(p + k)
  }

  /** The first response of `t` goes on at `p`, whatever bytes follow. */
  ghost predicate GoesOn(t: string, p: nat) {
    p <= |t| && forall more: string :: FrameEnd(t + more) == Shifted(p, FrameEnd((t + more)[p..]))
  }

  lemma GoesOnFromStart(t: string)
    ensures GoesOn(t, 0)
  {
    forall more: string ensures FrameEnd(t + more) == Shifted(0, FrameEnd((t + more)[0..])) {
      assert (t + more)[0..] == t + more;
    }
  }

  lemma GoesOnExtends(t: string, more: string, p: nat)
    requires GoesOn(t, p)
    ensures GoesOn(t + more, p)
  {
    hide FrameEnd, Shifted;
    forall x: string ensures FrameEnd(t + more + x) == Shifted(p, FrameEnd((t + more + x)[p..])) {
      Assoc(t, more, x);
    }
  }

  lemma FrameEndNext(u: string, next: nat)
    requires FirstLine(u) == Some(Continued(next))
    ensures next <= |u| && FrameEnd(u) == Shifted(next, FrameEnd(u[next..]))
  {
    hide FirstLine, CrlfAt;
    var rest := FrameEnd(u[next..]);
    if rest.Some? {
      assert FrameEnd(u) == Some(next + rest.value);
    } else {
      assert FrameEnd(u) == None;
    }
  }

  lemma Tails<T>(t: seq<T>, p: nat, n: nat)
    requires p + n <= |t|
    ensures t[p..][n..] == t[p + n..]
  {
  }

  lemma ShiftTwice(p: nat, n: nat, r: Option<nat>)
    ensures Shifted(p, Shifted(n, r)) == Shifted(p + n, r)
  {
  }

  lemma GoesOnNextAt(t: string, p: nat, next: nat, x: string)
    requires p <= |t| && FrameEnd(t + x) == Shifted(p, FrameEnd((t + x)[p..])) && FirstLine(t[p..]) == Some(Continued(next))
    ensures p + next <= |t| && FrameEnd(t + x) == Shifted(p + next, FrameEnd((t + x)[p + next..]))
  {
    hide FirstLine, FrameEnd, Shifted;
    Slice(t, x, p);
    FirstLineExtends(t[p..], x);
    FrameEndNext(t[p..], next);
    FrameEndNext((t + x)[p..], next);
    Tails(t + x, p, next);
    ShiftTwice(p, next, FrameEnd((t + x)[p + next..]));
  }

  lemma GoesOnNext(t: string, p: nat, next: nat)
    requires GoesOn(t, p) && FirstLine(t[p..]) == Some(Continued(next))
    ensures GoesOn(t, p + next)
  {
    hide FirstLine, FrameEnd, Shifted;
    GoesOnNextAt(t, p, next, "");
    forall x: string ensures FrameEnd(t + x) == Shifted(p + next, FrameEnd((t + x)[p + next..])) {
      GoesOnNextAt(t, p, next, x);
    }
  }

  lemma GoesOnHere(t: string, p: nat)
    requires GoesOn(t, p)
    ensures FrameEnd(t) == Shifted(p, FrameEnd(t[p..]))
  {
    assert t + "" == t;
  }

  datatype ScanMode = LineMode | LiteralMode

  class ResponseLexer {
    var mode: ScanMode
    var scanPos: nat
    var lineStart: nat
    var literalRemaining: nat
    var responseEnd: nat

    /** The cursor stands where framing the buffer from its start would stand. */
    ghost predicate Synced(buffer: string)
      reads this
    {
      && lineStart <= scanPos <= |buffer| && GoesOn(buffer, lineStart) && literalRemaining < TWO_TO_THE_64
      && (mode.LineMode? ==> literalRemaining == 0 && forall k | lineStart <= k < scanPos :: !CrlfAt(buffer, k))
      && (mode.LiteralMode? ==>
            && lineStart + 2 <= scanPos && FindCrlf(buffer[lineStart..]) == scanPos - 2 - lineStart < |buffer| - lineStart
            && Trailer(buffer[lineStart..scanPos - 2]) == Some(literalRemaining))
    }

    /** Ready for the next response. */
    ghost predicate Ready(buffer: string)
      reads this
    {
      Synced(buffer) && responseEnd == 0 && (mode.LineMode? ==> scanPos == lineStart || scanPos < |buffer|)
    }

    constructor ()
      ensures Ready("")
    {
      mode, scanPos, lineStart, literalRemaining, responseEnd := LineMode, 0, 0, 0, 0;
      new;
      GoesOnFromStart("");
    }

    /** More committed bytes leave the cursor in place. */
    lemma MoreBytes(buffer: string, more: string)
      requires Ready(buffer)
      ensures Ready(buffer + more)
    {
      hide FindCrlf, Trailer, GoesOn;
      GoesOnExtends(buffer, more, lineStart);
      if mode.LineMode? {
        NoCrlfExtends(buffer, more, lineStart, scanPos);
      } else {
        Slice(buffer, more, lineStart);
        FindCrlfExtends(buffer[lineStart..], more);
        Slice(buffer, more, scanPos - 2);
      }
    }

    /** Literal mode: the octets have arrived, so a new line starts behind them. */
    method FinishLiteral(buffer: string)
      requires Synced(buffer) && mode.LiteralMode? && |buffer| - scanPos >= literalRemaining
      modifies this`mode, this`scanPos, this`lineStart, this`literalRemaining
      ensures Synced(buffer) && mode.LineMode? && scanPos >= old(scanPos)
    {
      hide GoesOn, FindCrlf, Trailer;
      LiteralLine(buffer, lineStart, scanPos, literalRemaining);
      GoesOnNext(buffer, lineStart, scanPos - lineStart + literalRemaining);
      scanPos := scanPos + literalRemaining;
      literalRemaining := 0;
      mode := LineMode;
      lineStart := scanPos;
    }

    /** Line mode: where the next CRLF starts; the size of the buffer when there is none. */
    method ScanLine(buffer: string) returns (eol: nat)
      requires Synced(buffer) && mode.LineMode?
      ensures scanPos <= eol <= |buffer| && FindCrlf(buffer[lineStart..]) == eol - lineStart
    {
      hide GoesOn, Trailer, FindCrlf;
      eol := |buffer|;
      var i := scanPos;
      while i + 1 < |buffer|
        invariant scanPos <= i <= |buffer| && forall k | lineStart <= k < i :: !CrlfAt(buffer, k)
      {
        if buffer[i] == '\r' && buffer[i + 1] == '\n' {
          FoundCrlf(buffer, lineStart, i);
          return i;
        }
        i := i + 1;
      }
      NoLineEnd(buffer, lineStart);
    }

    /** A response, or a wait for more bytes. */
    method NextCompleteResponse(buffer: string) returns (r: Option<string>)
      requires Ready(buffer)
      modifies this
      ensures match FrameEnd(buffer)
              case None => r == None && Ready(buffer)
              case Some(e) => r == Some(buffer[..e]) && responseEnd == e + 2
    {
      hide GoesOn, FindCrlf, Trailer, FrameEnd;
      while true
        invariant Synced(buffer) && responseEnd == 0
        decreases |buffer| - scanPos, if mode.LiteralMode? then 1 else 0
      {
        if mode.LiteralMode? {
          if |buffer| - scanPos < literalRemaining {
            WaitForLiteral(buffer, lineStart, scanPos, literalRemaining);
            return None;
          }
          FinishLiteral(buffer);
        } else {
          var eol := ScanLine(buffer);
          if eol == |buffer| {
            WaitForLine(buffer, lineStart);
            scanPos := if |buffer| > lineStart then |buffer| - 1 else lineStart;
            StillNoCrlf(buffer, lineStart, scanPos);
            return None;
          }
          var size := LiteralTrailer(buffer[lineStart..eol]);
          EolIsIn(buffer, lineStart, eol);
          if size.Some? {
            TrailerFits(buffer[lineStart..eol]);
            literalRemaining := size.value;
            scanPos := eol + 2;
            mode := LiteralMode;
          } else {
            LastLine(buffer, lineStart, eol);
            responseEnd := eol + 2;
            return Some(buffer[..eol]);
          }
        }
      }
      r := None;
    }

    /** Drops the response just returned. */
    method ConsumeResponse(buffer: string) returns (rest: string)
      requires 0 < responseEnd <= |buffer|
      modifies this
      ensures rest == buffer[old(responseEnd)..] && Ready(rest)
    {
      rest := buffer[responseEnd..];
      Reset();
      GoesOnFromStart(rest);
    }

    method Reset()
      modifies this
      ensures mode == LineMode && scanPos == lineStart == literalRemaining == responseEnd == 0
    {
      mode, scanPos, lineStart, literalRemaining, responseEnd := LineMode, 0, 0, 0, 0;
    }
  }

  lemma LiteralLine(t: string, start: nat, scan: nat, n: nat)
    requires start + 2 <= scan <= |t| && FindCrlf(t[start..]) == scan - 2 - start && Trailer(t[start..scan - 2]) == Some(n)
    requires |t| - scan >= n
    ensures FirstLine(t[start..]) == Some(Continued(scan - start + n))
  {
    hide FindCrlf, Trailer;
    assert t[start..][..scan - 2 - start] == t[start..scan - 2];
  }

  lemma FoundCrlf(t: string, start: nat, i: nat)
    requires start <= i && CrlfAt(t, i) && forall k | start <= k < i :: !CrlfAt(t, k)
    ensures FindCrlf(t[start..]) == i - start
  {
    var u := t[start..];
    assert CrlfAt(u, i - start);
    forall k | 0 <= k < i - start ensures !CrlfAt(u, k) {
      assert !CrlfAt(t, start + k);
    }
    FindCrlfIs(u, i - start);
  }

  lemma NoLineEnd(t: string, start: nat)
    requires start <= |t| && forall k | start <= k < |t| - 1 :: !CrlfAt(t, k)
    ensures FindCrlf(t[start..]) == |t| - start
  {
    var u := t[start..];
    forall k | 0 <= k < |u| ensures !CrlfAt(u, k) {
      assert start + k < |t| - 1 ==> !CrlfAt(t, start + k);
    }
    FindCrlfIs(u, |u|);
  }

  lemma StillNoCrlf(t: string, start: nat, to: nat)
    requires start <= |t| && FindCrlf(t[start..]) == |t| - start && to <= |t|
    ensures forall k | start <= k < to :: !CrlfAt(t, k)
  {
    var u := t[start..];
    forall k | start <= k < to ensures !CrlfAt(t, k) {
      assert !CrlfAt(u, k - start);
    }
  }

  lemma WaitForLiteral(t: string, start: nat, scan: nat, n: nat)
    requires GoesOn(t, start) && start + 2 <= scan <= |t|
    requires FindCrlf(t[start..]) == scan - 2 - start && Trailer(t[start..scan - 2]) == Some(n)
    requires |t| - scan < n
    ensures FrameEnd(t) == None
  {
    hide FindCrlf, Trailer, GoesOn, FrameEnd;
    GoesOnHere(t, start);
    ShortLiteral(t, start, scan, n);
    NoFirstLine(t[start..]);
  }

  lemma ShortLiteral(t: string, start: nat, scan: nat, n: nat)
    requires start + 2 <= scan <= |t| && FindCrlf(t[start..]) == scan - 2 - start && Trailer(t[start..scan - 2]) == Some(n)
    requires |t| - scan < n
    ensures FirstLine(t[start..]) == None
  {
    hide FindCrlf, Trailer;
    assert t[start..][..scan - 2 - start] == t[start..scan - 2];
  }

  lemma NoFirstLine(t: string)
    requires FirstLine(t) == None
    ensures FrameEnd(t) == None
  {
    hide FirstLine;
  }

  lemma WaitForLine(t: string, start: nat)
    requires GoesOn(t, start) && FindCrlf(t[start..]) == |t| - start
    ensures FrameEnd(t) == None
  {
    GoesOnHere(t, start);
    hide FindCrlf, Trailer, GoesOn;
  }

  lemma LastLine(t: string, start: nat, eol: nat)
    requires GoesOn(t, start) && start <= eol < |t| && FindCrlf(t[start..]) == eol - start && Trailer(t[start..eol]) == None
    ensures FrameEnd(t) == Some(eol)
  {
    hide FindCrlf, Trailer, GoesOn, FrameEnd;
    GoesOnHere(t, start);
    assert t[start..][..eol - start] == t[start..eol];
    LastLineOf(t[start..], eol - start);
  }

  lemma LastLineOf(u: string, e: nat)
    requires FindCrlf(u) == e < |u| && Trailer(u[..e]) == None
    ensures FrameEnd(u) == Some(e)
  {
    hide FindCrlf, Trailer;
  }

  lemma EolIsIn(t: string, start: nat, eol: nat)
    requires start <= eol < |t| && FindCrlf(t[start..]) == eol - start
    ensures eol + 2 <= |t|
  {
    assert CrlfAt(t[start..], eol - start);
  }

  lemma TrailerFits(line: string)
    ensures Trailer(line).Some? ==> Trailer(line).value < TWO_TO_THE_64
  {
  }

  lemma NoCrlfExtends(buffer: string, more: string, from: nat, to: nat)
    requires (from == to || to < |buffer|) && forall k | from <= k < to :: !CrlfAt(buffer, k)
    ensures forall k | from <= k < to :: !CrlfAt(buffer + more, k)
  {
    forall k | from <= k < to ensures !CrlfAt(buffer + more, k) {
      assert !CrlfAt(buffer, k);
    }
  }

  // ---- The read loop -------------------------------------------------------------------

  /** One read: commit the bytes, then extract and consume responses until more bytes are needed. */
  method OnRead(lexer: ResponseLexer, buffer: string, chunk: string) returns (rest: string, responses: seq<string>)
    requires lexer.Ready(buffer)
    modifies lexer
    ensures lexer.Ready(rest) && rest == Leftover(buffer + chunk) && responses == Frames(buffer + chunk)
  {
    hide FrameEnd;
    lexer.MoreBytes(buffer, chunk);
    rest, responses := buffer + chunk, [];
    ghost var all := rest;
    while true
      invariant lexer.Ready(rest)
      invariant responses + Frames(rest) == Frames(all) && Leftover(rest) == Leftover(all)
      decreases |rest|
    {
      var next := lexer.NextCompleteResponse(rest);
      if next.None? {
        assert responses + [] == responses;
        return;
      }
      FrameInside(rest);
      Assoc(responses, [next.value], Frames(rest[FrameEnd(rest).value + 2..]));
      responses := responses + [next.value];
      rest := lexer.ConsumeResponse(rest);
    }
  }

  lemma FrameInside(t: string)
    ensures FrameEnd(t).Some? ==> FrameEnd(t).value + 2 <= |t|
  {
    if FrameEnd(t).Some? {
      assert CrlfAt(t, FrameEnd(t).value);
    }
  }

  /** However the stream is cut into reads, the responses are those of the whole stream. */
  method ReadStream(chunks: seq<string>) returns (responses: seq<string>, rest: string)
    ensures responses == Frames(Join(chunks)) && rest == Leftover(Join(chunks))
  {
    hide FrameEnd;
    var lexer := new ResponseLexer();
    responses, rest := [], "";
    assert chunks[..0] == [];
    NothingFramed();
    for i := 0 to |chunks|
      invariant lexer.Ready(rest) && fresh(lexer)
      invariant responses == Frames(Join(chunks[..i])) && rest == Leftover(Join(chunks[..i]))
    {
      assert chunks[..i + 1][..i] == chunks[..i];
      FramesContinue(Join(chunks[..i]), chunks[i]);
      var more;
      rest, more := OnRead(lexer, rest, chunks[i]);
      responses := responses + more;
    }
    assert chunks[..|chunks|] == chunks;
  }

  lemma NothingFramed()
    ensures Frames("") == [] && Leftover("") == ""
  {
    assert FirstLine("") == None;
  }
}
