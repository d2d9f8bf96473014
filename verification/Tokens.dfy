/** Tokens of server responses (section 9 of RFC 3501), read off the front of a text. */
module Tokens {
  import opened Decimal
  import opened Wrappers

  // ---- Characters (detail/astring.h); a char stands for an octet --------------------

  predicate IsChar(c: char) {
    1 <= c as int <= 0x7f
  }

  predicate IsCtl(c: char) {
    c as int <= 0x1f || c as int == 0x7f
  }

  predicate IsQuotedSpecial(c: char) {
    c == '"' || c == '\\'
  }

  predicate IsAtomSpecial(c: char) {
    c == '(' || c == ')' || c == '{' || c == ' ' || IsCtl(c) || c == '%' || c == '*' || IsQuotedSpecial(c) || c == ']'
  }

  predicate IsAtomChar(c: char) {
    IsChar(c) && !IsAtomSpecial(c)
  }

  predicate IsLineBreak(c: char) {
    c == '\r' || c == '\n'
  }

  function ToUpper(c: char): char {
    if 'a' <= c <= 'z' then (c as int - 32) as char else c
  }

  /** Case-insensitive equality of ASCII keywords. */
  predicate IEquals(a: string, b: string) {
    |a| == |b| && forall i | 0 <= i < |a| :: ToUpper(a[i]) == ToUpper(b[i])
  }

  // ---- Reading -------------------------------------------------------------------------

  /**
   A failed read, a read that used a view into an overwritten buffer, or a value and the
   text behind it.
   */
  datatype Parse<+T> = Fail | Dangling | Got(value: T, rest: string)
  {
    predicate IsFailure() {
      !Got?
    }

    function PropagateFailure<U>(): Parse<U>
      requires IsFailure()
    {
      if Fail? then Fail else Dangling
    }

    function Extract(): (T, string)
      requires !IsFailure()
    {
      (value, rest)
    }
  }

  /** A string as it was read; `scratch` tells that it had to be unescaped into the scratch buffer. */
  datatype Token = Token(text: string, scratch: bool)

  function Peek(t: string): char {
    if t == "" then '\0' else t[0]
  }

  function Consume(t: string, c: char): Option<string> {
    if t != "" && t[0] == c then Some(t[1..]) else None
  }

  function SkipSpaces(t: string): (r: string)
    ensures |r| <= |t| && (r == "" || r[0] != ' ')
  {
    if t != "" && t[0] == ' ' then SkipSpaces(t[1..]) else t
  }

  /** The longest run of atom characters at the front. */
  function AtomLength(t: string): (k: nat)
    ensures k <= |t| && (forall i | 0 <= i < k :: IsAtomChar(t[i])) && (k < |t| ==> !IsAtomChar(t[k]))
  {
    if t == "" || !IsAtomChar(t[0]) then 0 else 1 + AtomLength(t[1..])
  }

  /** How far the first character of `stops` is. */
  function StopLength(t: string, stops: string): (k: nat)
    ensures k <= |t| && (forall i | 0 <= i < k :: t[i] !in stops) && (k < |t| ==> t[k] in stops)
  {
    if t == "" || t[0] in stops then 0 else 1 + StopLength(t[1..], stops)
  }

  function DigitsLength(t: string): (k: nat)
    ensures k <= |t| && (forall i | 0 <= i < k :: IsDigit(t[i])) && (k < |t| ==> !IsDigit(t[k]))
  {
    if t == "" || !IsDigit(t[0]) then 0 else 1 + DigitsLength(t[1..])
  }

  function ReadNumber(t: string): Parse<nat> {
    var k := DigitsLength(t);
    if k == 0 || Value(t[..k]) >= TWO_TO_THE_64 then Fail else Got(Value(t[..k]), t[k..])
  }

  /** A quoted string from behind its opening quote. */
  function QuotedBody(t: string): (p: Parse<Token>)
    ensures p.Got? ==> |p.rest| < |t|
  {
    if t == "" then Fail
    else if t[0] == '"' then Got(Token("", false), t[1..])
    else if t[0] == '\\' then
      if |t| < 2 || !IsQuotedSpecial(t[1]) then Fail
      else
        var (v, rest) :- QuotedBody(t[2..]);
        Got(Token([t[1]] + v.text, true), rest)
    else if IsLineBreak(t[0]) then Fail
    else
      var (v, rest) :- QuotedBody(t[1..]);
      Got(Token([t[0]] + v.text, v.scratch), rest)
  }

  function ReadQuoted(t: string): (p: Parse<Token>)
    ensures p.Got? ==> |p.rest| < |t|
  {
    if t != "" && t[0] == '"' then QuotedBody(t[1..]) else Fail
  }

  /** A literal of `n` octets from behind its count on. */
  function LiteralTail(n: nat, close: string): (p: Parse<string>)
    ensures p.Got? ==> |p.rest| < |close|
  {
    var t := if close != "" && close[0] == '+' then close[1..] else close;
    if |t| < 3 || t[0] != '}' || t[1] != '\r' || t[2] != '\n' || |t| - 3 < n then Fail
    else Got(t[3..3 + n], t[3 + n..])
  }

  /** A literal from its opening brace on. */
  function BracedLiteral(t: string): (p: Parse<string>)
    ensures p.Got? ==> |p.rest| < |t|
  {
    if t == "" || t[0] != '{' then Fail
    else
      var k := DigitsLength(t[1..]);
      if k == 0 || Value(t[1..][..k]) >= TWO_TO_THE_64 then Fail
      else LiteralTail(Value(t[1..][..k]), t[1 + k..])
  }

  function ReadLiteral(t: string): (p: Parse<string>)
    ensures p.Got? ==> |p.rest| < |t|
  {
    if t != "" && t[0] == '~' then BracedLiteral(t[1..]) else BracedLiteral(t)
  }

  function ReadString(t: string): (p: Parse<Token>)
    ensures p.Got? ==> |p.rest| < |t|
  {
    if Peek(t) == '"' then ReadQuoted(t)
    else if Peek(t) == '{' || Peek(t) == '~' then
      var (v, rest) :- ReadLiteral(t);
      Got(Token(v, false), rest)
    else Fail
  }

  function ReadAstring(t: string): (p: Parse<Token>)
    ensures p.Got? ==> |p.rest| < |t|
  {
    if Peek(t) in {'"', '{', '~'} then ReadString(t)
    else
      var k := AtomLength(t);
      if k == 0 then Fail else Got(Token(t[..k], false), t[k..])
  }

  /** `NIL`, not followed by more of an atom. */
  predicate StartsWithNil(t: string) {
    |t| >= 3 && IEquals(t[..3], "NIL") && (|t| == 3 || !IsAtomChar(t[3]))
  }

  function ReadNstring(t: string): (p: Parse<Option<string>>)
    ensures p.Got? ==> |p.rest| < |t|
  {
    if StartsWithNil(t) then Got(None, t[3..])
    else
      var (v, rest) :- ReadString(t);
      Got(Some(v.text), rest)
  }

  /** An nstring into a member that is empty: `NIL` leaves it so. */
  function ReadNstr(t: string): (p: Parse<string>)
    ensures p.Got? ==> |p.rest| < |t|
  {
    var (v, rest) :- ReadNstring(t);
    Got(if v.Some? then v.value else "", rest)
  }

  // ---- Printing ------------------------------------------------------------------------

  /** Every length the code can hold. */
  predicate Fits(v: string) {
    |v| < TWO_TO_THE_64
  }

  predicate OneLine(v: string) {
    forall i | 0 <= i < |v| :: !IsLineBreak(v[i])
  }

  lemma OneLineConcat(a: string, b: string)
    ensures OneLine(a + b) <==> OneLine(a) && OneLine(b)
  {
    assert forall i | 0 <= i < |a| :: (a + b)[i] == a[i];
    assert forall i | 0 <= i < |b| :: b[i] == (a + b)[|a| + i];
  }

  function Escape(v: string): string {
    if v == "" then "" else (if IsQuotedSpecial(v[0]) then ['\\', v[0]] else [v[0]]) + Escape(v[1..])
  }

  lemma EscapedIsOneLine(v: string)
    requires OneLine(v)
    ensures OneLine(Escape(v))
  {
    if v != "" { EscapedIsOneLine(v[1..]); }
  }

  function PrintQuoted(v: string): string {
    "\"" + Escape(v) + "\""
  }

  function PrintLiteral(v: string): string {
    "{" + Digits(|v|) + "}\r\n" + v
  }

  /** Quoted when it can be, a literal otherwise. */
  function PrintString(v: string): string {
    if OneLine(v) then PrintQuoted(v) else PrintLiteral(v)
  }

  function PrintNstr(v: string): string {
    if v == "" then "NIL" else PrintString(v)
  }

  predicate HasSpecial(v: string) {
    exists i :: 0 <= i < |v| && IsQuotedSpecial(v[i])
  }

  /** Whether reading the printed string needs the scratch buffer. */
  predicate Scratched(v: string) {
    OneLine(v) && HasSpecial(v)
  }

  // ---- Round trips -----------------------------------------------------------------------

  lemma {:induction false} QuotedRoundTrip(v: string, rest: string)
    requires OneLine(v)
    ensures QuotedBody(Escape(v) + ("\"" + rest)) == Got(Token(v, HasSpecial(v)), rest)
  {
    var t := Escape(v) + ("\"" + rest);
    if v == "" {
      assert t[1..] == rest;
    } else {
      QuotedRoundTrip(v[1..], rest);
      var tail := Escape(v[1..]) + ("\"" + rest);
      if IsQuotedSpecial(v[0]) {
        assert t == ['\\', v[0]] + tail;
        assert t[2..] == tail;
      } else {
        assert t == [v[0]] + tail;
        assert t[1..] == tail;
      }
      assert v == [v[0]] + v[1..];
      SpecialHead(v);
    }
  }

  lemma SpecialHead(v: string)
    requires v != ""
    ensures HasSpecial(v) <==> IsQuotedSpecial(v[0]) || HasSpecial(v[1..])
  {
    if HasSpecial(v) && !IsQuotedSpecial(v[0]) {
      var i :| 0 <= i < |v| && IsQuotedSpecial(v[i]);
      assert v[1..][i - 1] == v[i];
    }
    if HasSpecial(v[1..]) {
      var i :| 0 <= i < |v[1..]| && IsQuotedSpecial(v[1..][i]);
      assert v[i + 1] == v[1..][i];
    }
  }

  lemma AtomLengthFirst(t: string, k: nat)
    requires k <= |t| && (forall i | 0 <= i < k :: IsAtomChar(t[i])) && (k < |t| ==> !IsAtomChar(t[k]))
    ensures AtomLength(t) == k
  {
  }

  lemma StopLengthIs(t: string, stops: string, k: nat)
    requires k <= |t| && (forall i | 0 <= i < k :: t[i] !in stops) && (k < |t| ==> t[k] in stops)
    ensures StopLength(t, stops) == k
  {
  }

  lemma DigitsLengthFirst(t: string, k: nat)
    requires k <= |t| && (forall i | 0 <= i < k :: IsDigit(t[i])) && (k < |t| ==> !IsDigit(t[k]))
    ensures DigitsLength(t) == k
  {
  }

  lemma DigitsLengthIs(d: string, rest: string)
    requires AllDigits(d) && (rest == "" || !IsDigit(rest[0]))
    ensures DigitsLength(d + rest) == |d| && (d + rest)[..|d|] == d && (d + rest)[|d|..] == rest
  {
    var t := d + rest;
    assert forall i | 0 <= i < |d| :: t[i] == d[i];
    DigitsLengthFirst(t, |d|);
  }

  /** A number ends where its digits end. */
  lemma NumberRoundTrip(n: nat, rest: string)
    requires n < TWO_TO_THE_64 && (rest == "" || !IsDigit(rest[0]))
    ensures ReadNumber(Digits(n) + rest) == Got(n, rest)
  {
    DigitsLengthIs(Digits(n), rest);
    ValueOfDigits(n);
  }

  lemma CloseBrace(v: string, rest: string)
    ensures var t := "}\r\n" + (v + rest);
            && |t| >= 3 + |v| && t[0] == '}' && t[1] == '\r' && t[2] == '\n'
            && t[3..3 + |v|] == v && t[3 + |v|..] == rest
  {
  }

  /** A literal holds any octets: its extent is what the count says. */
  lemma LiteralRoundTrip(v: string, rest: string)
    requires Fits(v)
    ensures BracedLiteral("{" + (Digits(|v|) + ("}\r\n" + (v + rest)))) == Got(v, rest)
  {
    var d, tail := Digits(|v|), "}\r\n" + (v + rest);
    hide Value, DigitsLength, BracedLiteral, LiteralTail;
    DigitsLengthIs(d, tail);
    ValueOfDigits(|v|);
    hide Digits;
    BracedReads(d + tail, |d|);
    TailReads(v, rest);
  }

  lemma TailReads(v: string, rest: string)
    ensures LiteralTail(|v|, "}\r\n" + (v + rest)) == Got(v, rest)
  {
    CloseBrace(v, rest);
  }

  lemma BracedReads(t: string, k: nat)
    requires k == DigitsLength(t)
    ensures BracedLiteral("{" + t) ==
            if k == 0 || Value(t[..k]) >= TWO_TO_THE_64 then Fail else LiteralTail(Value(t[..k]), t[k..])
  {
    hide Value, DigitsLength, LiteralTail;
    assert ("{" + t)[1..] == t && ("{" + t)[1 + k..] == t[k..];
  }

  lemma PrintLiteralIs(v: string, rest: string)
    ensures PrintLiteral(v) + rest == "{" + (Digits(|v|) + ("}\r\n" + (v + rest)))
  {
    hide Digits;
    var d := Digits(|v|);
    Assoc("{" + d + "}\r\n", v, rest);
    Assoc("{" + d, "}\r\n", v + rest);
    Assoc("{", d, "}\r\n" + (v + rest));
  }

  lemma PrintQuotedIs(v: string, rest: string)
    ensures PrintQuoted(v) + rest == "\"" + (Escape(v) + ("\"" + rest))
  {
  }

  /** A printed string is read back, whatever follows it. */
  lemma StringRoundTrip(v: string, rest: string)
    requires Fits(v)
    ensures ReadString(PrintString(v) + rest) == Got(Token(v, Scratched(v)), rest)
    ensures Peek(PrintString(v) + rest) in {'"', '{'} && PrintString(v) != ""
  {
    if OneLine(v) {
      PrintQuotedIs(v, rest);
      QuotedRoundTrip(v, rest);
      var t := PrintString(v) + rest;
      assert t[1..] == Escape(v) + ("\"" + rest);
      hide QuotedBody, Escape, HasSpecial;
    } else {
      PrintLiteralIs(v, rest);
      LiteralRoundTrip(v, rest);
      hide BracedLiteral, Digits;
    }
  }

  lemma AstringRoundTrip(v: string, rest: string)
    requires Fits(v)
    ensures ReadAstring(PrintString(v) + rest) == Got(Token(v, Scratched(v)), rest)
  {
    StringRoundTrip(v, rest);
    hide ReadString, PrintString, Scratched;
  }

  lemma NilRoundTrip(rest: string)
    requires rest == "" || !IsAtomChar(rest[0])
    ensures StartsWithNil("NIL" + rest) && ("NIL" + rest)[3..] == rest
  {
    assert ("NIL" + rest)[..3] == "NIL";
  }

  lemma StringIsNotNil(v: string, rest: string)
    requires Fits(v)
    ensures !StartsWithNil(PrintString(v) + rest)
  {
    StringRoundTrip(v, rest);
    hide PrintString;
    var t := PrintString(v) + rest;
    assert |t| >= 3 ==> t[..3][0] == t[0] && ToUpper(t[0]) != "NIL"[0];
  }

  /** The empty string travels as `NIL`. */
  lemma NstrRoundTrip(v: string, rest: string)
    requires Fits(v) && (rest == "" || !IsAtomChar(rest[0]))
    ensures ReadNstr(PrintNstr(v) + rest) == Got(v, rest)
    ensures PrintNstr(v) != "" && (PrintNstr(v) + rest)[0] != ' '
  {
    if v == "" {
      NilRoundTrip(rest);
    } else {
      StringIsNotNil(v, rest);
      StringRoundTrip(v, rest);
      hide ReadString, PrintString, StartsWithNil;
    }
  }
}
