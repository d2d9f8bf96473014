/**
 The parse cursor: it reads tokens in place and returns views. A view of unescaped text
 lies in the cursor's scratch buffer and dies when the buffer is written again.
 */
module ParseCursors {
  import opened Decimal
  import opened ResponseLexers
  import opened Tokens
  import opened Wrappers

  /** A view into the text, or into the scratch buffer as it was filled by one read. */
  datatype View = Window(from: nat, to: nat) | Scratch(generation: nat)

  // ---- Unescaping -------------------------------------------------------------------

  /** Every backslash is followed by the character it escapes. */
  predicate Complete(body: string) {
    body == "" || (if body[0] == '\\' then |body| >= 2 && Complete(body[2..]) else Complete(body[1..]))
  }

  function Unescape(body: string): string {
    if body == "" then ""
    else if body[0] == '\\' && |body| >= 2 then [body[1]] + Unescape(body[2..])
    else [body[0]] + Unescape(body[1..])
  }

  lemma {:induction false} UnescapeAppend(body: string, more: string)
    requires Complete(body)
    ensures Unescape(body + more) == Unescape(body) + Unescape(more)
    ensures Complete(more) ==> Complete(body + more)
  {
    hide Unescape, Complete;
    UnescapeNothing();
    if body == "" {
      assert body + more == more && "" + Unescape(more) == Unescape(more);
    } else {
      EscapeIsWhole(body);
      var n := if body[0] == '\\' then 2 else 1;
      UnescapeStep(body, n);
      UnescapeStep(body + more, n);
      assert (body + more)[n..] == body[n..] + more;
      UnescapeAppend(body[n..], more);
      Assoc([body[n - 1]], Unescape(body[n..]), Unescape(more));
    }
  }

  lemma EscapeIsWhole(body: string)
    requires Complete(body) && body != ""
    ensures body[0] == '\\' ==> |body| >= 2
  {
  }

  lemma UnescapeNothing()
    ensures Unescape("") == ""
  {
  }

  lemma UnescapeStep(body: string, n: nat)
    requires body != "" && n == (if body[0] == '\\' then 2 else 1) && n <= |body|
    ensures Unescape(body) == [body[n - 1]] + Unescape(body[n..]) && (Complete(body) <==> Complete(body[n..]))
  {
  }

  lemma {:induction false} UnescapePlain(body: string)
    requires '\\' !in body
    ensures Unescape(body) == body
  {
    if body != "" {
      assert body[0] in body;
      UnescapePlain(body[1..]);
      assert body == [body[0]] + body[1..];
    }
  }

  /** A quoted body of which `prefix` was read already. */
  function ReadAfter(prefix: string, escaped: bool, p: Parse<Token>): Parse<Token> {
    if p.Got? then Got(Token(prefix + p.value.text, escaped || p.value.scratch), p.rest) else p
  }

  lemma BehindPlain(prefix: string, escaped: bool, t: string)
    requires t != "" && t[0] != '"' && t[0] != '\\' && !IsLineBreak(t[0])
    ensures ReadAfter(prefix, escaped, QuotedBody(t)) == ReadAfter(prefix + [t[0]], escaped, QuotedBody(t[1..]))
  {
    var p := QuotedBody(t[1..]);
    if p.Got? {
      assert prefix + ([t[0]] + p.value.text) == prefix + [t[0]] + p.value.text;
    }
  }

  lemma BehindEscaped(prefix: string, escaped: bool, t: string)
    requires |t| >= 2 && t[0] == '\\' && IsQuotedSpecial(t[1])
    ensures ReadAfter(prefix, escaped, QuotedBody(t)) == ReadAfter(prefix + [t[1]], true, QuotedBody(t[2..]))
  {
    var p := QuotedBody(t[2..]);
    if p.Got? {
      assert prefix + ([t[1]] + p.value.text) == prefix + [t[1]] + p.value.text;
    }
  }

  /** `ascii_iequals`. */
  method AsciiIEquals(a: string, b: string) returns (same: bool)
    ensures same <==> IEquals(a, b)
  {
    if |a| != |b| {
      return false;
    }
    for i := 0 to |a|
      invariant forall k | 0 <= k < i :: ToUpper(a[k]) == ToUpper(b[k])
    {
      if ToUpper(a[i]) != ToUpper(b[i]) {
        return false;
      }
    }
    same := true;
  }

  class ParseCursor {
    const text: string
    var pos: nat
    var scratch: string
    /** How often the scratch buffer was filled. */
    var generation: nat

    constructor (text: string)
      ensures this.text == text && Valid() && Rest() == text && generation == 0
    {
      this.text, pos, scratch, generation := text, 0, "", 0;
    }

    predicate Valid()
      reads this
    {
      pos <= |text|
    }

    function Rest(): string
      requires Valid()
      reads this
    {
      text[pos..]
    }

    predicate Live(v: View)
      reads this
    {
      match v
      case Window(from, to) => from <= to <= |text|
      case Scratch(g) => g == generation
    }

    function Text(v: View): string
      requires Live(v)
      reads this
    {
      match v
      case Window(from, to) => text[from..to]
      case Scratch(_) => scratch
    }

    /** The view is what was read: its text, in the scratch buffer when it had to be unescaped. */
    ghost predicate Shows(v: View, token: Token)
      reads this
    {
      Live(v) && Text(v) == token.text && (v.Scratch? <==> token.scratch)
    }

    method TryConsume(expected: char) returns (ok: bool)
      requires Valid()
      modifies this`pos
      ensures Valid() && ok == Consume(old(Rest()), expected).Some?
      ensures Rest() == if ok then Consume(old(Rest()), expected).value else old(Rest())
    {
      ok := pos < |text| && text[pos] == expected;
      if ok {
        pos := pos + 1;
      }
    }

    function PeekChar(): char
      requires Valid()
      reads this
    {
      if pos < |text| then text[pos] else '\0'
    }

    /** Consumes a keyword, in any case, if the rest starts with it. */
    method TryConsumeCi(word: string) returns (ok: bool)
      requires Valid()
      modifies this`pos
      ensures Valid() && ok == (|old(Rest())| >= |word| && IEquals(old(Rest())[..|word|], word))
      ensures Rest() == if ok then old(Rest())[|word|..] else old(Rest())
    {
      if |text| - pos < |word| {
        return false;
      }
      ok := AsciiIEquals(text[pos..pos + |word|], word);
      assert Rest()[..|word|] == text[pos..pos + |word|];
      if ok {
        pos := pos + |word|;
      }
    }

    method SkipSpaces()
      requires Valid()
      modifies this`pos
      ensures Valid() && Rest() == Tokens.SkipSpaces(old(Rest()))
    {
      while pos < |text| && text[pos] == ' '
        invariant Valid() && Tokens.SkipSpaces(Rest()) == Tokens.SkipSpaces(old(Rest()))
      {
        assert text[pos..][1..] == text[pos + 1..];
        pos := pos + 1;
      }
    }

    /** Up to the first of the characters in `stops`; may be empty. */
    method ReadUntilAny(stops: string) returns (v: View)
      requires Valid()
      modifies this`pos
      ensures Valid() && v.Window? && Live(v)
      ensures var k := StopLength(old(Rest()), stops);
              Text(v) == old(Rest())[..k] && Rest() == old(Rest())[k..]
    {
      var start := pos;
      while pos < |text| && text[pos] !in stops
        invariant start <= pos <= |text| && forall i | start <= i < pos :: text[i] !in stops
      {
        pos := pos + 1;
      }
      ghost var t := text[start..];
      assert forall i | 0 <= i < pos - start :: t[i] == text[start + i];
      StopLengthIs(t, stops, pos - start);
      assert t[..pos - start] == text[start..pos] && t[pos - start..] == text[pos..];
      v := Window(start, pos);
    }

    /** One atom; may be empty. */
    method ReadAtom() returns (v: View)
      requires Valid()
      modifies this`pos
      ensures Valid() && v.Window? && Live(v)
      ensures var k := AtomLength(old(Rest())); Text(v) == old(Rest())[..k] && Rest() == old(Rest())[k..]
    {
      var start := pos;
      while pos < |text| && IsAtomChar(text[pos])
        invariant start <= pos <= |text| && forall i | start <= i < pos :: IsAtomChar(text[i])
      {
        pos := pos + 1;
      }
      ghost var t := text[start..];
      assert forall i | 0 <= i < pos - start :: t[i] == text[start + i];
      AtomLengthFirst(t, pos - start);
      assert t[..pos - start] == text[start..pos] && t[pos - start..] == text[pos..];
      v := Window(start, pos);
    }

    /** The run of digits ahead. */
    method SkipDigits(from: nat) returns (to: nat)
      requires from <= |text|
      ensures from <= to <= |text| && DigitsLength(text[from..]) == to - from && AllDigits(text[from..to])
      ensures text[from..][..to - from] == text[from..to] && text[from..][to - from..] == text[to..]
    {
      to := from;
      while to < |text| && IsDigit(text[to])
        invariant from <= to <= |text| && forall i | from <= i < to :: IsDigit(text[i])
      {
        to := to + 1;
      }
      ghost var t := text[from..];
      assert forall i | 0 <= i < to - from :: t[i] == text[from + i];
      DigitsLengthFirst(t, to - from);
    }

    method ReadNumber() returns (n: Option<nat>)
      requires Valid()
      modifies this`pos
      ensures Valid()
      ensures match Tokens.ReadNumber(old(Rest()))
              case Got(v, rest) => n == Some(v) && Rest() == rest
              case _ => n == None
    {
      hide Value;
      var end := SkipDigits(pos);
      var start := pos;
      pos := end;
      if end == start {
        return None;
      }
      n := ParseUint64(text[start..end]);
    }

    /** Scans a quoted string from behind its opening quote to its closing quote. */
    method ScanQuoted() returns (ok: bool, escaped: bool, ghost value: string)
      requires Valid()
      modifies this`pos
      ensures Valid() && old(pos) <= pos
      ensures ok <==> QuotedBody(old(Rest())).Got?
      ensures !ok ==> QuotedBody(old(Rest())) == Fail
      ensures ok ==> && pos < |text| && QuotedBody(old(Rest())) == Got(Token(value, escaped), text[pos + 1..])
                     && Complete(text[old(pos)..pos]) && Unescape(text[old(pos)..pos]) == value
                     && (!escaped ==> '\\' !in text[old(pos)..pos])
    {
      hide Scanned, Complete, Unescape, QuotedBody, ReadAfter;
      var start := pos;
      ghost var all := QuotedBody(text[start..]);
      escaped, value := false, "";
      ok := false;
      ScanStarts(text, start);
      while pos < |text| && text[pos] != '"'
        invariant start <= pos <= |text| && Scanned(text, start, pos, value, escaped, all)
      {
        var c := text[pos];
        ScanStops(text, start, pos, value, escaped, all);
        if c == '\\' {
          if pos + 1 >= |text| || !IsQuotedSpecial(text[pos + 1]) {
            pos := pos + 1;
            return;
          }
          ScanEscaped(text, start, pos, value, escaped, all);
          value := value + [text[pos + 1]];
          escaped := true;
          pos := pos + 2;
        } else if c == '\r' || c == '\n' {
          return;
        } else {
          ScanPlain(text, start, pos, value, escaped, all);
          value := value + [c];
          pos := pos + 1;
        }
      }
      ScanEnds(text, start, pos, value, escaped, all);
      ok := pos < |text|;
    }

    /** Writes the unescaped body into the scratch buffer, whose earlier content is gone. */
    method FillScratch(body: string)
      requires Complete(body)
      modifies this`scratch, this`generation
      ensures scratch == Unescape(body) && generation == old(generation) + 1
    {
      scratch, generation := "", generation + 1;
      var i := 0;
      assert body[0..] == body && "" + Unescape(body) == Unescape(body);
      while i < |body|
        invariant 0 <= i <= |body| && Complete(body[i..]) && scratch + Unescape(body[i..]) == Unescape(body)
        invariant generation == old(generation) + 1
      {
        Ahead(body, i);
        if body[i] == '\\' {
          i := i + 1;
        }
        ghost var rest := Unescape(body[i + 1..]);
        assert scratch + ([body[i]] + rest) == scratch + [body[i]] + rest;
        scratch := scratch + [body[i]];
        i := i + 1;
      }
      assert scratch + "" == scratch;
    }

    /** A quoted string; a view into the text unless something had to be unescaped. */
    method ReadQuoted() returns (v: Option<View>)
      requires Valid()
      modifies this`pos, this`scratch, this`generation
      ensures Valid() && generation >= old(generation) && (generation == old(generation) ==> scratch == old(scratch))
      ensures match Tokens.ReadQuoted(old(Rest()))
              case Got(token, rest) => v.Some? && Shows(v.value, token) && Rest() == rest
                                       && generation == old(generation) + (if token.scratch then 1 else 0)
              case _ => v == None
    {
      hide Complete, Unescape, QuotedBody;
      var quote := TryConsume('"');
      if !quote {
        return None;
      }
      var start := pos;
      var ok, escaped, value := ScanQuoted();
      if !ok {
        return None;
      }
      var end := pos;
      pos := pos + 1;
      if !escaped {
        UnescapePlain(text[start..end]);
        return Some(Window(start, end));
      }
      FillScratch(text[start..end]);
      v := Some(Scratch(generation));
    }

    /** A literal of `n` octets from behind its count at `p` on. */
    method ReadLiteralTail(n: nat, p: nat) returns (v: Option<View>)
      requires Valid() && p <= |text|
      modifies this`pos
      ensures Valid()
      ensures match LiteralTail(n, text[p..])
              case Got(octets, rest) => v.Some? && Shows(v.value, Token(octets, false)) && Rest() == rest
              case _ => v == None
    {
      var q := p;
      if q < |text| && text[q] == '+' {
        Ahead(text, q);
        q := q + 1;
      }
      ghost var t := text[q..];
      if q >= |text| || text[q] != '}' {
        return None;
      }
      q := q + 1;
      if q + 1 >= |text| || text[q] != '\r' || text[q + 1] != '\n' {
        return None;
      }
      q := q + 2;
      if |text| - q < n {
        return None;
      }
      assert t[3..3 + n] == text[q..q + n] && t[3 + n..] == text[q + n..];
      pos := q + n;
      v := Some(Window(q, q + n));
    }

    /** A literal from its opening brace at `p` on. */
    method ReadBraced(p: nat) returns (v: Option<View>)
      requires Valid() && p <= |text|
      modifies this`pos
      ensures Valid()
      ensures match BracedLiteral(text[p..])
              case Got(octets, rest) => v.Some? && Shows(v.value, Token(octets, false)) && Rest() == rest
              case _ => v == None
    {
      hide Value, LiteralTail;
      if p >= |text| || text[p] != '{' {
        return None;
      }
      Ahead(text, p);
      var end := SkipDigits(p + 1);
      BraceIs(text, p, end);
      if end == p + 1 {
        return None;
      }
      var count := ParseUint64(text[p + 1..end]);
      if count == None {
        return None;
      }
      v := ReadLiteralTail(count.value, end);
    }

    method ReadLiteral() returns (v: Option<View>)
      requires Valid()
      modifies this`pos
      ensures Valid()
      ensures match Tokens.ReadLiteral(old(Rest()))
              case Got(octets, rest) => v.Some? && Shows(v.value, Token(octets, false)) && Rest() == rest
              case _ => v == None
    {
      hide BracedLiteral;
      var p := pos;
      if p < |text| && text[p] == '~' {
        assert text[p..][1..] == text[p + 1..];
        p := p + 1;
      }
      v := ReadBraced(p);
    }

    method ReadString() returns (v: Option<View>)
      requires Valid()
      modifies this`pos, this`scratch, this`generation
      ensures Valid() && generation >= old(generation) && (generation == old(generation) ==> scratch == old(scratch))
      ensures match Tokens.ReadString(old(Rest()))
              case Got(token, rest) => v.Some? && Shows(v.value, token) && Rest() == rest
                                       && generation == old(generation) + (if token.scratch then 1 else 0)
              case _ => v == None
    {
      hide Tokens.ReadQuoted, Tokens.ReadLiteral;
      var c := PeekChar();
      if c == '"' {
        v := ReadQuoted();
      } else if c == '{' || c == '~' {
        v := ReadLiteral();
      } else {
        v := None;
      }
    }

    method ReadAstring() returns (v: Option<View>)
      requires Valid()
      modifies this`pos, this`scratch, this`generation
      ensures Valid() && generation >= old(generation) && (generation == old(generation) ==> scratch == old(scratch))
      ensures match Tokens.ReadAstring(old(Rest()))
              case Got(token, rest) => v.Some? && Shows(v.value, token) && Rest() == rest
                                       && generation == old(generation) + (if token.scratch then 1 else 0)
              case _ => v == None
    {
      hide Tokens.ReadString, AtomLength;
      var c := PeekChar();
      if c == '"' || c == '{' || c == '~' {
        v := ReadString();
      } else {
        ghost var k := AtomLength(Rest());
        var atom := ReadAtom();
        v := if Text(atom) == "" then None else Some(atom);
      }
    }

    /** Whether the rest starts with `NIL` and no longer atom. */
    method AtNil() returns (yes: bool)
      requires Valid()
      ensures yes <==> StartsWithNil(Rest())
    {
      if |text| - pos < 3 {
        return false;
      }
      yes := AsciiIEquals(text[pos..pos + 3], "NIL");
      assert Rest()[..3] == text[pos..pos + 3];
      yes := yes && (|text| - pos == 3 || !IsAtomChar(text[pos + 3]));
    }

    /** `NIL` or a string. */
    method ReadNstring() returns (v: Option<Option<View>>)
      requires Valid()
      modifies this`pos, this`scratch, this`generation
      ensures Valid()
      ensures match Tokens.ReadNstring(old(Rest()))
              case Got(None, rest) => v == Some(None) && Rest() == rest
              case Got(Some(value), rest) => v.Some? && v.value.Some? && Live(v.value.value)
                                             && Text(v.value.value) == value && Rest() == rest
              case _ => v == None
    {
      hide Tokens.ReadString, StartsWithNil;
      var nil := AtNil();
      if nil {
        NilIsLong(Rest());
        assert text[pos..][3..] == text[pos + 3..];
        pos := pos + 3;
        return Some(None);
      }
      var s := ReadString();
      v := if s == None then None else Some(Some(s.value));
    }
  }

  lemma NilIsLong(t: string)
    requires StartsWithNil(t)
    ensures |t| >= 3
  {
  }

  lemma BehindNothing(p: Parse<Token>)
    ensures ReadAfter("", false, p) == p
  {
    if p.Got? {
      assert "" + p.value.text == p.value.text;
    }
  }

  lemma Ahead(t: string, i: nat)
    requires i < |t|
    ensures t[i..] != "" && t[i..][0] == t[i] && t[i..][1..] == t[i + 1..]
    ensures i + 1 < |t| ==> t[i..][1] == t[i + 1] && t[i..][2..] == t[i + 2..]
  {
  }

  lemma AppendOne(t: string, start: nat, i: nat)
    requires start <= i < |t| && Complete(t[start..i]) && t[i] != '\\'
    ensures Complete(t[start..i + 1]) && Unescape(t[start..i + 1]) == Unescape(t[start..i]) + [t[i]]
    ensures '\\' !in t[start..i] ==> '\\' !in t[start..i + 1]
  {
    UnescapeAppend(t[start..i], [t[i]]);
    assert t[start..i + 1] == t[start..i] + [t[i]];
    UnescapePlain([t[i]]);
    assert [t[i]][1..] == "" && Complete("");
    assert Complete([t[i]]);
  }

  lemma AppendTwo(t: string, start: nat, i: nat)
    requires start <= i < |t| - 1 && Complete(t[start..i]) && t[i] == '\\'
    ensures Complete(t[start..i + 2]) && Unescape(t[start..i + 2]) == Unescape(t[start..i]) + [t[i + 1]]
  {
    var two := [t[i], t[i + 1]];
    UnescapeAppend(t[start..i], two);
    assert t[start..i + 2] == t[start..i] + two;
    assert two[2..] == "" && Complete("");
    assert Complete(two);
    assert Unescape(two) == [t[i + 1]] + "";
  }

  lemma BraceIs(t: string, p: nat, end: nat)
    requires p + 1 <= end <= |t|
    ensures t[p..][1 + (end - p - 1)..] == t[end..]
  {
  }

  lemma NothingEscaped()
    ensures Complete("") && Unescape("") == ""
  {
  }

  /** From `start` the scan has read `value`, escaped or not, and the whole string is what is still ahead behind it. */
  ghost predicate Scanned(t: string, start: nat, i: nat, value: string, escaped: bool, all: Parse<Token>) {
    && start <= i <= |t| && all == ReadAfter(value, escaped, QuotedBody(t[i..]))
    && Complete(t[start..i]) && Unescape(t[start..i]) == value
    && (!escaped ==> '\\' !in t[start..i])
  }

  lemma ScanStarts(t: string, start: nat)
    requires start <= |t|
    ensures Scanned(t, start, start, "", false, QuotedBody(t[start..]))
  {
    hide QuotedBody, ReadAfter;
    BehindNothing(QuotedBody(t[start..]));
    NothingEscaped();
    assert t[start..start] == "";
  }

  lemma ScanPlain(t: string, start: nat, i: nat, value: string, escaped: bool, all: Parse<Token>)
    requires Scanned(t, start, i, value, escaped, all) && i < |t|
    requires t[i] != '"' && t[i] != '\\' && !IsLineBreak(t[i])
    ensures Scanned(t, start, i + 1, value + [t[i]], escaped, all)
  {
    hide QuotedBody, ReadAfter, Complete, Unescape;
    Ahead(t, i);
    BehindPlain(value, escaped, t[i..]);
    AppendOne(t, start, i);
  }

  lemma ScanEscaped(t: string, start: nat, i: nat, value: string, escaped: bool, all: Parse<Token>)
    requires Scanned(t, start, i, value, escaped, all) && i + 1 < |t| && t[i] == '\\' && IsQuotedSpecial(t[i + 1])
    ensures Scanned(t, start, i + 2, value + [t[i + 1]], true, all)
  {
    hide QuotedBody, ReadAfter, Complete, Unescape;
    Ahead(t, i);
    BehindEscaped(value, escaped, t[i..]);
    AppendTwo(t, start, i);
  }

  lemma ScanStops(t: string, start: nat, i: nat, value: string, escaped: bool, all: Parse<Token>)
    requires Scanned(t, start, i, value, escaped, all) && i < |t|
    ensures t[i] == '\\' && (i + 1 >= |t| || !IsQuotedSpecial(t[i + 1])) ==> all == Fail
    ensures IsLineBreak(t[i]) ==> all == Fail
  {
    hide QuotedBody, ReadAfter, Complete, Unescape;
    Ahead(t, i);
    QuotedBad(value, escaped, t[i..]);
  }

  lemma ScanEnds(t: string, start: nat, i: nat, value: string, escaped: bool, all: Parse<Token>)
    requires Scanned(t, start, i, value, escaped, all) && (i == |t| || t[i] == '"')
    ensures all == if i == |t| then Fail else Got(Token(value, escaped), t[i + 1..])
    ensures Complete(t[start..i]) && Unescape(t[start..i]) == value && (!escaped ==> '\\' !in t[start..i])
  {
    hide QuotedBody, ReadAfter, Complete, Unescape;
    if i < |t| { Ahead(t, i); }
    QuotedEnds(value, escaped, t[i..]);
  }

  /** Where the scan gives up: a bad escape or a line break. */
  lemma QuotedBad(value: string, escaped: bool, t: string)
    requires t != ""
    ensures t[0] == '\\' && (|t| < 2 || !IsQuotedSpecial(t[1])) ==> ReadAfter(value, escaped, QuotedBody(t)) == Fail
    ensures IsLineBreak(t[0]) ==> ReadAfter(value, escaped, QuotedBody(t)) == Fail
  {
  }

  /** Where the scan ends: the closing quote, or the end of the text. */
  lemma QuotedEnds(value: string, escaped: bool, t: string)
    requires t == "" || t[0] == '"'
    ensures ReadAfter(value, escaped, QuotedBody(t)) == if t == "" then Fail else Got(Token(value, escaped), t[1..])
  {
    assert value + "" == value;
  }
}
