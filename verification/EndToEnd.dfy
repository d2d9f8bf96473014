/**
 From bytes to values: framing, classification and attribute walking together. A literal
 may hold anything, line breaks and lines that look like replies included.
 */
module EndToEnd {
  import C = Commands
  import opened Decimal
  import Engine
  import opened FetchGrammar
  import opened FetchFrames
  import opened FetchWalk
  import opened Framing
  import opened ResponseParsers
  import opened Tokens
  import opened WholeFrames
  import opened Wrappers

  // ---- Tagged replies -------------------------------------------------------------

  function StatusWord(status: Status): string {
    match status
    case Ok => "OK"
    case No => "NO"
    case Bad => "BAD"
    case Preauth => "PREAUTH"
    case Bye => "BYE"
  }

  predicate AllAtom(s: string) {
    forall i | 0 <= i < |s| :: IsAtomChar(s[i])
  }

  lemma {:induction false} PadIsDigits(d: string)
    requires AllDigits(d)
    ensures AllDigits(Engine.Pad(d))
    decreases 4 - |d|
  {
    if |d| < 4 {
      LeadingZero(d);
      PadIsDigits("0" + d);
    }
  }

  lemma TagIsAtom(n: nat)
    ensures AllAtom(Engine.RenderTag(n)) && Engine.RenderTag(n) != "" && Engine.RenderTag(n)[0] == 'a'
  {
    PadIsDigits(Digits(n));
    var d := Engine.Pad(Digits(n));
    forall i | 0 <= i < |Engine.RenderTag(n)| ensures IsAtomChar(Engine.RenderTag(n)[i]) {
      if i > 0 { assert Engine.RenderTag(n)[i] == d[i - 1] && IsDigit(d[i - 1]); }
    }
  }

  lemma AtomThen(word: string, rest: string)
    requires AllAtom(word) && (rest == "" || !IsAtomChar(rest[0]))
    ensures AtomLength(word + rest) == |word| && (word + rest)[..|word|] == word && (word + rest)[|word|..] == rest
  {
    var t := word + rest;
    assert forall i | 0 <= i < |word| :: t[i] == word[i];
    AtomLengthFirst(t, |word|);
  }

  lemma SpaceThen(t: string)
    ensures Consume(" " + t, ' ') == Some(t)
  {
    assert (" " + t)[1..] == t;
  }

  lemma StatusWords(status: Status)
    ensures AllAtom(StatusWord(status)) && ClassifyStatus(StatusWord(status)) == Some(status)
  {
    assert ToUpper("NO"[0]) != ToUpper("OK"[0]);
    assert ToUpper("BYE"[1]) != ToUpper("BAD"[1]);
  }

  /** A response code that is opened and never closed. */
  predicate CodeUnclosed(text: string) {
    text != "" && text[0] == '[' && ']' !in text
  }

  lemma BracketIsClosed(t: string)
    ensures ReadBracket(t) == None <==> ']' !in t
  {
    var k := StopLength(t, "]");
    assert forall i | 0 <= i < k :: t[i] != ']';
    if k < |t| {
      assert t[k..][0] == t[k] && t[k] in t;
    } else {
      assert t[k..] == "";
    }
    hide StopLength;
  }

  lemma TextIsRead(text: string)
    ensures ReadRespText(" " + text) == None <==> CodeUnclosed(text)
    ensures text == "" || text[0] != '[' ==> ReadRespText(" " + text) == Some(RespText(None, text))
  {
    hide ReadBracket;
    SpaceThen(text);
    if text != "" && text[0] == '[' {
      BracketIsClosed(text[1..]);
      assert text == ['['] + text[1..];
    }
  }

  /** A code and the words behind it are told apart. */
  lemma CodeIsRead(code: string, words: string)
    requires ']' !in code
    ensures ReadRespText(" " + ("[" + (code + ("] " + words)))) == Some(RespText(Some(code), words))
    ensures !CodeUnclosed("[" + (code + ("] " + words)))
  {
    hide StopLength;
    var v := code + ("] " + words);
    assert forall i | 0 <= i < |v| :: v[i] == if i < |code| then code[i] else ("] " + words)[i - |code|];
    StopLengthIs(v, "]", |code|);
    SpaceThen("[" + v);
    assert ("[" + v)[1..] == v && v[..|code|] == code && v[|code|..] == "] " + words;
    assert ("] " + words)[1..] == " " + words;
    SpaceThen(words);
    assert v[|code|] == ']' && ("[" + v)[1 + |code|] == v[|code|];
  }

  /** What the server's reply to the command with counter value `n` looks like. */
  function Reply(n: nat, status: Status, text: string): string {
    Engine.RenderTag(n) + (" " + (StatusWord(status) + (" " + text)))
  }

  /**
   A reply is classified as such, with exactly its tag and with what its text says, unless the
   text opens a response code and never closes it: that one is malformed.
   */
  lemma TaggedReplyParses(n: nat, status: Status, text: string)
    requires status != Preauth && status != Bye
    ensures Classify(Reply(n, status, text)) == None <==> CodeUnclosed(text)
    ensures Classify(Reply(n, status, text)) ==
            match ReadRespText(" " + text)
            case None => None
            case Some(said) => Some(Tagged(Engine.RenderTag(n), status, said))
  {
    var tag, word := Engine.RenderTag(n), StatusWord(status);
    TagIsAtom(n);
    StatusWords(status);
    TextIsRead(text);
    hide Engine.RenderTag, StatusWord, ClassifyStatus, AtomLength, AllAtom, ReadRespText, CodeUnclosed;
    AtomThen(word, " " + text);
    AtomThen(tag, " " + (word + (" " + text)));
    SpaceThen(word + (" " + text));
  }

  /** The tag of a parsed reply names one command only. */
  lemma ReplyNamesOneCommand(m: nat, n: nat, status: Status, text: string)
    requires status != Preauth && status != Bye && !CodeUnclosed(text)
    ensures var r := Classify(Reply(m, status, text));
            r.Some? && r.value.Tagged? && (r.value.tag == Engine.RenderTag(n) <==> m == n)
  {
    TaggedReplyParses(m, status, text);
    if Engine.RenderTag(m) == Engine.RenderTag(n) {
      Engine.TagsAreInjective(m, n);
    }
    hide Engine.RenderTag, Reply, Classify, ReadRespText;
  }

  // ---- FETCH data -------------------------------------------------------------------------

  /** The response, without its final CRLF. */
  function FetchResponse(n: nat, payload: string): string {
    "* " + (Digits(n) + (" " + ("FETCH" + (" " + payload))))
  }

  /** The response is classified as FETCH data of message `n`, with everything behind the word as payload. */
  lemma FetchClassified(n: nat, payload: string)
    requires n < TWO_TO_THE_64
    ensures Classify(FetchResponse(n, payload)) == Some(Untagged(C.Fetch, n, None, NO_TEXT, payload))
  {
    hide Digits, AtomLength, ReadNumber;
    var v := "FETCH" + (" " + payload);
    var u := Digits(n) + (" " + v);
    NumberRoundTrip(n, " " + v);
    SpaceThen(v);
    AtomThen("FETCH", " " + payload);
    SpaceThen(payload);
    NumberStarts(n, " " + v);
    assert ("* " + u)[1..] == " " + u;
    SpaceThen(u);
  }

  lemma NumberStarts(n: nat, t: string)
    ensures Digits(n) + t != "" && IsDigit((Digits(n) + t)[0])
  {
    assert (Digits(n) + t)[0] == Digits(n)[0];
  }

  function FetchStart(n: nat): string {
    "* " + Digits(n) + " FETCH "
  }

  lemma StartIsLine(n: nat)
    ensures NoCrlf(FetchStart(n))
  {
    var d, t := Digits(n), FetchStart(n);
    hide Digits;
    forall i | 0 <= i < |t| ensures !IsLineBreak(t[i]) {
      if 2 <= i < 2 + |d| { assert t[i] == d[i - 2] && IsDigit(d[i - 2]); }
    }
    assert OneLine(t);
    OneLineHasNoCrlf(t);
  }

  lemma StartThenPayload(n: nat, payload: string)
    ensures FetchResponse(n, payload) == FetchStart(n) + payload
  {
    hide Digits;
    Assoc(" ", "FETCH", " " + payload);
    assert " " + "FETCH" == " FETCH";
    Assoc(" FETCH", " ", payload);
    assert " FETCH" + " " == " FETCH ";
    Assoc("* " + Digits(n), " FETCH ", payload);
    Assoc("* ", Digits(n), " FETCH " + payload);
  }

  /**
   A FETCH response in front of any further bytes, with any octets in its literals: it is one
   frame if and only if no literal stands directly behind an opening parenthesis; otherwise the
   first frame is shorter.
   */
  lemma FetchFramesExactly(n: nat, list: seq<Attribute>, more: string)
    requires LineAttributes(list)
    ensures var t := FetchResponse(n, PrintAttributes(list));
            var frames := Frames(t + "\r\n" + more);
            && frames != [] && |frames[0]| <= |t|
            && (frames[0] == t <==> AllApart(list))
            && (AllApart(list) ==> frames == [t] + Frames(more))
  {
    hide Framing.FrameEnd, PrintAttributes, LineAttributes, AllApart, NoCrlf, FetchStart, FetchResponse, Framed;
    StartIsLine(n);
    StartThenPayload(n, PrintAttributes(list));
    var t := FetchResponse(n, PrintAttributes(list));
    ListFramesExactly(FetchStart(n), list, more);
    ListFramesExactly(FetchStart(n), list, "");
    FirstFrame(t, more);
  }

  lemma FirstFrame(t: string, more: string)
    requires FrameEnd(t + "\r\n" + more).Some? && FrameEnd(t + "\r\n" + more).value <= |t|
    requires FrameEnd(t + "\r\n" + "").Some?
    requires FrameEnd(t + "\r\n" + "").value == |t| <==> FrameEnd(t + "\r\n" + more).value == |t|
    ensures var frames := Frames(t + "\r\n" + more);
            var end := FrameEnd(t + "\r\n" + more).value;
            frames != [] && |frames[0]| == end && (frames[0] == t <==> end == |t|) && (end == |t| ==> frames == [t] + Frames(more))
  {
    hide Framing.FrameEnd;
    var all := t + "\r\n" + more;
    assert t + "\r\n" + "" == t + "\r\n";
    assert all[..|t|] == t;
    if FrameEnd(all).value == |t| {
      FramedIsFrame(t, more);
    }
  }

  /**
   A message of any octets among any other attributes of a FETCH response. When no literal
   stands directly behind a parenthesis the response is one frame, classified as the data of
   its message; and the value of `BODY[]` is exactly the octets, if and only if all other
   values can be skipped.
   */
  lemma LiteralsAreOpaque(n: nat, before: seq<Attribute>, data: string, after: seq<Attribute>, more: string)
    requires n < TWO_TO_THE_64 && Fits(data)
    requires OtherAttributes(before) && OtherAttributes(after)
    requires LineAttributes(before + after) && AllApart(before + after)
    ensures var t := FetchResponse(n, PrintAttributes(WithBody(before, data, after)));
            && Frames(t + "\r\n" + more) == [t] + Frames(more)
            && Classify(t).Some? && Classify(t).value.Untagged? && Classify(t).value.kind == C.Fetch && Classify(t).value.number == n
            && BodySection(Classify(t).value.payload, "BODY[]")
               == if AllSkippable(before) && AllSkippable(after) then Some(Some(data)) else None
  {
    var list := WithBody(before, data, after);
    BodyOnLine(before, data, after);
    FetchFramesExactly(n, list, more);
    FetchClassified(n, PrintAttributes(list));
    SectionIsTheLiteral(before, data, after);
    hide Classify, BodySection, PrintAttributes, Frames, FetchResponse, WithBody, OtherAttributes, AllSkippable;
  }

  lemma BodyOnLine(before: seq<Attribute>, data: string, after: seq<Attribute>)
    requires Fits(data) && LineAttributes(before + after) && AllApart(before + after)
    ensures LineAttributes(WithBody(before, data, after)) && AllApart(WithBody(before, data, after))
  {
    var body := Attribute("BODY[]", Literal(data));
    BodyIsSection(data);
    assert NoCrlf(body.key);
    hide WireAttribute, NoCrlf;
    assert forall a :: a in WithBody(before, data, after) <==> a in before + after || a == body;
  }
}
