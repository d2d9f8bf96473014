/** Classification of one framed response (response_parser). */
module ResponseParsers {
  import C = Commands
  import opened Decimal
  import opened ParseCursors
  import opened Tokens
  import opened Wrappers

  datatype Status = Ok | No | Bad | Preauth | Bye

  /** The bracketed code is kept as text; what it means is not part of the classification. */
  datatype RespText = RespText(code: Option<string>, text: string)

  datatype Response =
    | Continuation(text: string)
    | Tagged(tag: string, status: Status, respText: RespText)
    | Untagged(kind: C.Kind, number: nat, condition: Option<Status>, respText: RespText, payload: string)

  function ClassifyStatus(word: string): Option<Status> {
    if IEquals(word, "OK") then Some(Ok)
    else if IEquals(word, "NO") then Some(No)
    else if IEquals(word, "BAD") then Some(Bad)
    else if IEquals(word, "PREAUTH") then Some(Preauth)
    else if IEquals(word, "BYE") then Some(Bye)
    else None
  }

  function KindFor(status: Status): C.Kind {
    match status
    case Ok => C.StatusOk
    case No => C.StatusNo
    case Bad => C.StatusBad
    case Preauth => C.Preauth
    case Bye => C.Bye
  }

  /** Data kinds that a keyword announces. */
  function KeywordKind(word: string): Option<C.Kind> {
    if IEquals(word, "CAPABILITY") then Some(C.Capability)
    else if IEquals(word, "FLAGS") then Some(C.Flags)
    else if IEquals(word, "LIST") then Some(C.List)
    else if IEquals(word, "LSUB") then Some(C.Lsub)
    else if IEquals(word, "STATUS") then Some(C.Status)
    else if IEquals(word, "SEARCH") then Some(C.Search)
    else None
  }

  /** The code in brackets, from behind the opening one, and the text behind it. */
  function ReadBracket(t: string): Option<RespText> {
    var k := StopLength(t, "]");
    match Consume(t[k..], ']')
    case None => None
    case Some(u) => Some(RespText(Some(t[..k]), Payload(u)))
  }

  /** `None` only for a code bracket that is never closed. */
  function ReadRespText(t: string): Option<RespText> {
    match Consume(t, ' ')
    case None => Some(RespText(None, ""))
    case Some(u) =>
      match Consume(u, '[')
      case None => Some(RespText(None, u))
      case Some(v) => ReadBracket(v)
  }

  /** A status word that a tagged reply may carry, and its text. */
  function ReadCompletion(tag: string, t: string): Option<Response> {
    var w := AtomLength(t);
    match ClassifyStatus(t[..w])
    case None => None
    case Some(status) =>
      if status == Preauth || status == Bye then None
      else
        match ReadRespText(t[w..])
        case None => None
        case Some(text) => Some(Tagged(tag, status, text))
  }

  function ParseTagged(t: string): Option<Response> {
    var k := AtomLength(t);
    if k == 0 then None
    else
      match Consume(t[k..], ' ')
      case None => None
      case Some(u) => ReadCompletion(t[..k], u)
  }

  const NO_TEXT := RespText(None, "")

  /** The text behind a space, if there is one. */
  function Payload(t: string): string {
    match Consume(t, ' ') case Some(u) => u case None => ""
  }

  function ParseNumbered(data: string): Option<Response> {
    match ReadNumber(data)
    case Got(n, r) =>
      (match Consume(r, ' ')
       case None => None
       case Some(u) =>
         var w := AtomLength(u);
         var word := u[..w];
         if IEquals(word, "EXISTS") then Some(Untagged(C.Exists, n, None, NO_TEXT, ""))
         else if IEquals(word, "RECENT") then Some(Untagged(C.Recent, n, None, NO_TEXT, ""))
         else if IEquals(word, "EXPUNGE") then Some(Untagged(C.Expunge, n, None, NO_TEXT, ""))
         else if IEquals(word, "FETCH") then Some(Untagged(C.Fetch, n, None, NO_TEXT, Payload(u[w..])))
         else Some(Untagged(C.Unknown, n, None, NO_TEXT, data)))
    case _ => None
  }

  function ParseWorded(data: string): Option<Response> {
    var w := AtomLength(data);
    var word := data[..w];
    if w == 0 then None
    else
      match ClassifyStatus(word)
      case Some(status) =>
        (match ReadRespText(data[w..])
         case None => None
         case Some(text) => Some(Untagged(KindFor(status), 0, Some(status), text, "")))
      case None =>
        match KeywordKind(word)
        case Some(kind) => Some(Untagged(kind, 0, None, NO_TEXT, Payload(data[w..])))
        case None => Some(Untagged(C.Unknown, 0, None, NO_TEXT, data))
  }

  function ParseUntagged(t: string): Option<Response>
    requires t != ""
  {
    match Consume(t[1..], ' ')
    case None => None
    case Some(data) => if IsDigit(Peek(data)) then ParseNumbered(data) else ParseWorded(data)
  }

  /** Every response is a continuation request, untagged, tagged, or malformed. */
  function Classify(t: string): Option<Response> {
    if t == "" then None
    else if t[0] == '+' then
      Some(Continuation(match Consume(t[1..], ' ') case Some(u) => u case None => t[1..]))
    else if t[0] == '*' then ParseUntagged(t)
    else ParseTagged(t)
  }

  // ---- The parser over a cursor --------------------------------------------------------

  method BracketAt(cur: ParseCursor) returns (r: Option<RespText>)
    requires cur.Valid()
    modifies cur`pos
    ensures cur.Valid() && r == ReadBracket(old(cur.Rest()))
  {
    hide StopLength, Payload;
    var view := cur.ReadUntilAny("]");
    var inner := cur.Text(view);
    var close := cur.TryConsume(']');
    if !close {
      return None;
    }
    var text := PayloadAt(cur);
    r := Some(RespText(Some(inner), text));
  }

  /** `parse_resp_text`. */
  method RespTextAt(cur: ParseCursor) returns (r: Option<RespText>)
    requires cur.Valid()
    modifies cur`pos
    ensures cur.Valid() && r == ReadRespText(old(cur.Rest()))
  {
    hide ReadBracket;
    var space := cur.TryConsume(' ');
    if !space {
      return Some(RespText(None, ""));
    }
    var bracket := cur.TryConsume('[');
    if !bracket {
      return Some(RespText(None, cur.Rest()));
    }
    r := BracketAt(cur);
  }

  /** One atom, as text. */
  method Word(cur: ParseCursor) returns (w: string)
    requires cur.Valid()
    modifies cur`pos
    ensures cur.Valid()
    ensures var k := AtomLength(old(cur.Rest())); w == old(cur.Rest())[..k] && cur.Rest() == old(cur.Rest())[k..]
  {
    hide AtomLength;
    var v := cur.ReadAtom();
    w := cur.Text(v);
  }

  method CompletionAt(cur: ParseCursor, tag: string) returns (r: Option<Response>)
    requires cur.Valid()
    modifies cur`pos
    ensures cur.Valid() && r == ReadCompletion(tag, old(cur.Rest()))
  {
    hide AtomLength, ClassifyStatus, ReadRespText;
    var word := Word(cur);
    var status := ClassifyStatus(word);
    if status == None || status.value == Preauth || status.value == Bye {
      return None;
    }
    var text := RespTextAt(cur);
    r := if text == None then None else Some(Tagged(tag, status.value, text.value));
  }

  /** `parse_tagged`. */
  method ParseTaggedResponse(response: string) returns (r: Option<Response>)
    ensures r == ParseTagged(response)
  {
    hide AtomLength, ReadCompletion;
    var cur := new ParseCursor(response);
    ghost var k := AtomLength(response);
    var tag := Word(cur);
    if tag == "" {
      return None;
    }
    var space := cur.TryConsume(' ');
    if !space {
      return None;
    }
    r := CompletionAt(cur, tag);
  }

  method PayloadAt(cur: ParseCursor) returns (p: string)
    requires cur.Valid()
    modifies cur`pos
    ensures cur.Valid() && p == Payload(old(cur.Rest()))
  {
    var space := cur.TryConsume(' ');
    p := if space then cur.Rest() else "";
  }

  method ParseNumberedData(cur: ParseCursor) returns (r: Option<Response>)
    requires cur.Valid()
    modifies cur`pos
    ensures r == ParseNumbered(old(cur.Rest()))
  {
    hide AtomLength, ReadNumber, Payload;
    var data := cur.Rest();
    var n := cur.ReadNumber();
    if n == None {
      return None;
    }
    var space := cur.TryConsume(' ');
    if !space {
      return None;
    }
    var word := Word(cur);
    if IEquals(word, "EXISTS") {
      r := Some(Untagged(C.Exists, n.value, None, NO_TEXT, ""));
    } else if IEquals(word, "RECENT") {
      r := Some(Untagged(C.Recent, n.value, None, NO_TEXT, ""));
    } else if IEquals(word, "EXPUNGE") {
      r := Some(Untagged(C.Expunge, n.value, None, NO_TEXT, ""));
    } else if IEquals(word, "FETCH") {
      var payload := PayloadAt(cur);
      r := Some(Untagged(C.Fetch, n.value, None, NO_TEXT, payload));
    } else {
      r := Some(Untagged(C.Unknown, n.value, None, NO_TEXT, data));
    }
  }

  method ParseWordedData(cur: ParseCursor) returns (r: Option<Response>)
    requires cur.Valid()
    modifies cur`pos
    ensures r == ParseWorded(old(cur.Rest()))
  {
    hide AtomLength, ClassifyStatus, KeywordKind, ReadRespText, Payload;
    var data := cur.Rest();
    var word := Word(cur);
    if word == "" {
      return None;
    }
    var status := ClassifyStatus(word);
    if status.Some? {
      var text := RespTextAt(cur);
      return if text == None then None else Some(Untagged(KindFor(status.value), 0, status, text.value, ""));
    }
    var kind := KeywordKind(word);
    if kind == None {
      return Some(Untagged(C.Unknown, 0, None, NO_TEXT, data));
    }
    var payload := PayloadAt(cur);
    r := Some(Untagged(kind.value, 0, None, NO_TEXT, payload));
  }

  /** `parse_untagged`. */
  method ParseUntaggedResponse(response: string) returns (r: Option<Response>)
    requires response != "" && response[0] == '*'
    ensures r == ParseUntagged(response)
  {
    hide ParseNumbered, ParseWorded;
    var cur := new ParseCursor(response);
    var _ := cur.TryConsume('*');
    var space := cur.TryConsume(' ');
    if !space {
      return None;
    }
    if IsDigit(cur.PeekChar()) {
      r := ParseNumberedData(cur);
    } else {
      r := ParseWordedData(cur);
    }
  }

  /** `parse`. */
  method ParseResponse(response: string) returns (r: Option<Response>)
    ensures r == Classify(response)
  {
    hide ParseUntagged, ParseTagged;
    if response == "" {
      return None;
    }
    if response[0] == '+' {
      var rest := response[1..];
      if rest != "" && rest[0] == ' ' {
        rest := rest[1..];
      }
      r := Some(Continuation(rest));
    } else if response[0] == '*' {
      r := ParseUntaggedResponse(response);
    } else {
      r := ParseTaggedResponse(response);
    }
  }
}
