/**
 Framing of server responses (section 4.3 of RFC 3501), on a complete byte string:
 lines end with CRLF; a line that ends with a literal marker is continued by the
 announced octets, taken verbatim, and by another line.
 */
module Framing {
  import opened Decimal
  import opened Wrappers

  // ---- Literal markers ---------------------------------------------------------

  /** Where the run of digits at the end of `s` starts. */
  function DigitsFrom(s: string): (i: nat)
    ensures i <= |s| && (forall k | i <= k < |s| :: IsDigit(s[k])) && (0 < i ==> !IsDigit(s[i - 1]))
  {
    if s == "" || !IsDigit(s[|s| - 1]) then |s| else DigitsFrom(s[..|s| - 1])
  }

  /** Before the marker: nothing, a space, or the tilde of the obsolete spelling. */
  predicate MarkerStart(head: string) {
    head == "" || head[|head| - 1] == ' ' || head[|head| - 1] == '~'
  }

  /** The digits and what precedes them, without the closing brace and a plus sign. */
  function Unclosed(line: string): string
    requires line != ""
  {
    var s := line[..|line| - 1];
    if s != "" && s[|s| - 1] == '+' then s[..|s| - 1] else s
  }

  /** The literal announced at the end of `line`. */
  function Trailer(line: string): Option<nat> {
    if |line| < 3 || line[|line| - 1] != '}' then None
    else
      var s := Unclosed(line);
      var i := DigitsFrom(s);
      if i == |s| || i == 0 || s[i - 1] != '{' || !MarkerStart(s[..i - 1]) then None
      else if Value(s[i..]) < TWO_TO_THE_64 then Some(Value(s[i..]))
      else None
  }

  function Marker(digits: string, plus: bool): string {
    "{" + digits + (if plus then "+}" else "}")
  }

  lemma DigitsFromIs(s: string, i: nat)
    requires i <= |s| && (forall k | i <= k < |s| :: IsDigit(s[k])) && (0 < i ==> !IsDigit(s[i - 1]))
    ensures DigitsFrom(s) == i
  {
  }

  lemma UnclosedMarker(head: string, digits: string, plus: bool)
    requires digits != "" && AllDigits(digits)
    ensures var line := head + Marker(digits, plus);
            |line| >= 3 && line[|line| - 1] == '}' && Unclosed(line) == head + "{" + digits
  {
    var line, s := head + Marker(digits, plus), head + "{" + digits;
    assert s[|s| - 1] == digits[|digits| - 1];
    if plus {
      assert line[..|line| - 1] == s + "+";
    } else {
      assert line[..|line| - 1] == s;
    }
  }

  /** A printed marker is recognised, whatever comes before it on the line. */
  lemma MarkerIsTrailer(head: string, digits: string, plus: bool)
    requires MarkerStart(head) && digits != "" && AllDigits(digits)
    ensures Trailer(head + Marker(digits, plus)) == if Value(digits) < TWO_TO_THE_64 then Some(Value(digits)) else None
  {
    UnclosedMarker(head, digits, plus);
    hide Unclosed, Marker, DigitsFrom, Value;
    var s := head + "{" + digits;
    DigitsFromIs(s, |head| + 1);
    assert s[|head| + 1..] == digits && s[..|head|] == head;
  }

  lemma Reclosed(line: string)
    requires |line| >= 3 && line[|line| - 1] == '}'
    ensures line == Unclosed(line) + "}" || line == Unclosed(line) + "+}"
  {
    var s := line[..|line| - 1];
    assert line == s + "}";
    if s[|s| - 1] == '+' { assert s == s[..|s| - 1] + "+"; }
  }

  lemma Opened(s: string, i: nat)
    requires 0 < i <= |s| && s[i - 1] == '{'
    ensures s == s[..i - 1] + "{" + s[i..]
  {
  }

  /** ... and nothing else is. */
  lemma TrailerIsMarker(line: string) returns (head: string, digits: string, plus: bool)
    requires Trailer(line).Some?
    ensures MarkerStart(head) && digits != "" && AllDigits(digits) && Value(digits) == Trailer(line).value < TWO_TO_THE_64
    ensures line == head + Marker(digits, plus)
  {
    Reclosed(line);
    hide Unclosed, Value, DigitsFrom;
    var s := Unclosed(line);
    var i := DigitsFrom(s);
    Opened(s, i);
    head, digits, plus := s[..i - 1], s[i..], line == s + "+}";
    Reassoc(head, digits, plus);
  }

  lemma Reassoc(head: string, digits: string, plus: bool)
    ensures head + Marker(digits, plus) == (head + "{" + digits) + (if plus then "+}" else "}")
  {
  }

  // ---- Frames ------------------------------------------------------------------

  predicate CrlfAt(t: string, i: int) {
    0 <= i < |t| - 1 && t[i] == '\r' && t[i + 1] == '\n'
  }

  /** Where the first CRLF starts; the length of `t` when there is none. */
  function FindCrlf(t: string): (i: nat)
    ensures i <= |t| && (i < |t| ==> CrlfAt(t, i)) && forall k | 0 <= k < i :: !CrlfAt(t, k)
  {
    if t == "" then 0
    else if CrlfAt(t, 0) then 0
    else
      var i := 1 + FindCrlf(t[1..]);
      assert forall k | 0 < k :: CrlfAt(t, k) <==> CrlfAt(t[1..], k - 1);
      i
  }

  /** How far the first line of `t` goes, literal included; `None` while bytes are missing. */
  datatype Line = Last(eol: nat) | Continued(next: nat)

  function FirstLine(t: string): (r: Option<Line>)
    ensures r.Some? && r.value.Last? ==> CrlfAt(t, r.value.eol)
    ensures r.Some? && r.value.Continued? ==> 2 <= r.value.next <= |t|
  {
    var e := FindCrlf(t);
    if e == |t| then None
    else
      match Trailer(t[..e])
      case None => Some(Last(e))
      case Some(n) => if |t| - (e + 2) < n then None else Some(Continued(e + 2 + n))
  }

  /** Where the CRLF that ends the first response stands. */
  function FrameEnd(t: string): (r: Option<nat>)
    ensures r.Some? ==> CrlfAt(t, r.value)
    decreases |t|
  {
    match FirstLine(t)
    case None => None
    case Some(Last(e)) => Some(e)
    case Some(Continued(next)) =>
      match FrameEnd(t[next..])
      case None => None
      case Some(k) => Some(next + k)
  }

  /** The complete responses at the front of `t`, without their final CRLF. */
  function Frames(t: string): seq<string>
    decreases |t|
  {
    match FrameEnd(t)
    case None => []
    case Some(e) => [t[..e]] + Frames(t[e + 2..])
  }

  /** What is left of `t` behind its complete responses. */
  function Leftover(t: string): string
    decreases |t|
  {
    match FrameEnd(t)
    case None => t
    case Some(e) => Leftover(t[e + 2..])
  }

  // ---- More bytes ---------------------------------------------------------------

  lemma FindCrlfIs(t: string, i: nat)
    requires i <= |t| && (i < |t| ==> CrlfAt(t, i)) && forall k | 0 <= k < i :: !CrlfAt(t, k)
    ensures FindCrlf(t) == i
  {
  }

  lemma FindCrlfExtends(t: string, more: string)
    requires FindCrlf(t) < |t|
    ensures FindCrlf(t + more) == FindCrlf(t)
  {
    var e := FindCrlf(t);
    assert forall k | 0 <= k <= e :: CrlfAt(t + more, k) <==> CrlfAt(t, k);
    FindCrlfIs(t + more, e);
  }

  lemma Slice(t: string, more: string, i: nat)
    requires i <= |t|
    ensures (t + more)[..i] == t[..i] && (t + more)[i..] == t[i..] + more
  {
  }

  lemma FirstLineExtends(t: string, more: string)
    requires FirstLine(t).Some?
    ensures FirstLine(t + more) == FirstLine(t)
  {
    FindCrlfExtends(t, more);
    Slice(t, more, FindCrlf(t));
    hide FindCrlf, Trailer;
  }

  /** A complete response stays what it is when more bytes arrive. */
  lemma {:induction false} FrameEndExtends(t: string, more: string)
    requires FrameEnd(t).Some?
    ensures FrameEnd(t + more) == FrameEnd(t)
    decreases |t|
  {
    hide FirstLine;
    FirstLineExtends(t, more);
    if FirstLine(t).value.Continued? {
      var next := FirstLine(t).value.next;
      Slice(t, more, next);
      FrameEndExtends(t[next..], more);
    }
  }

  /** Framing can stop and go on with what was left. */
  lemma {:induction false} FramesContinue(t: string, more: string)
    ensures Frames(t + more) == Frames(t) + Frames(Leftover(t) + more)
    ensures Leftover(t + more) == Leftover(Leftover(t) + more)
    decreases |t|
  {
    hide FrameEnd;
    match FrameEnd(t)
    case None =>
    case Some(e) =>
      FrameEndExtends(t, more);
      Slice(t, more, e);
      Slice(t, more, e + 2);
      FramesContinue(t[e + 2..], more);
      Assoc([t[..e]], Frames(t[e + 2..]), Frames(Leftover(t) + more));
  }
}
