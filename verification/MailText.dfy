/**
 RFC 5322 messages: how a mail is rendered for APPEND, how a fetched message is taken
 apart again, and the loops of both.
 */
module MailTexts {
  import opened FetchGrammar
  import opened Texts
  import opened Tokens
  import opened Wrappers

  datatype MailHeader = MailHeader(subject: string, from: seq<Address>, to: seq<Address>, cc: seq<Address>, bcc: seq<Address>,
                                   date: string, messageId: string, inReplyTo: string)

  datatype Mail = Mail(header: MailHeader, contentType: string, data: string)

  const NO_HEADER := MailHeader("", [], [], [], [], "", "", "")

  // ---- Rendering -------------------------------------------------------------------

  function Email(a: Address): string {
    a.mailboxName + if a.hostName == "" then "" else "@" + a.hostName
  }

  function Mention(a: Address): string {
    if a.displayName == "" then Email(a) else "\"" + a.displayName + "\" <" + Email(a) + ">"
  }

  function Mentions(list: seq<Address>): string {
    if list == [] then ""
    else if |list| == 1 then Mention(list[0])
    else Mentions(list[..|list| - 1]) + ", " + Mention(list[|list| - 1])
  }

  /** A header field; the printer drops those without a value. */
  datatype Field = Field(name: string, value: string)

  function FieldLine(f: Field): string {
    f.name + ": " + f.value + "\r\n"
  }

  function Present(name: string, value: string): seq<Field> {
    if value == "" then [] else [Field(name, value)]
  }

  function PresentList(name: string, list: seq<Address>): seq<Field> {
    if list == [] then [] else [Field(name, Mentions(list))]
  }

  function FieldLines(fields: seq<Field>): string {
    if fields == [] then "" else FieldLines(fields[..|fields| - 1]) + FieldLine(fields[|fields| - 1])
  }

  /** The fields of a mail, in the order of the printer. */
  function FieldsOf(m: Mail): seq<Field> {
    var h := m.header;
    Present("Subject", h.subject)
    + PresentList("From", h.from) + PresentList("To", h.to) + PresentList("Cc", h.cc) + PresentList("Bcc", h.bcc)
    + Present("Date", h.date) + Present("Message-ID", h.messageId) + Present("In-Reply-To", h.inReplyTo)
    + Present("Content-Type", m.contentType)
  }

  function MailText(m: Mail): string {
    FieldLines(FieldsOf(m)) + "\r\n" + m.data
  }

  method AppendEmail(out: string, a: Address) returns (r: string)
    ensures r == out + Email(a)
  {
    var result := a.mailboxName;
    if a.hostName != "" {
      result := result + "@";
      result := result + a.hostName;
      Assoc(a.mailboxName, "@", a.hostName);
    } else {
      assert result + "" == result;
    }
    r := out + result;
  }

  method PutField(out: string, name: string, value: string, ghost fields: seq<Field>) returns (r: string)
    requires out == FieldLines(fields)
    ensures r == FieldLines(fields + Present(name, value))
  {
    if value == "" {
      assert fields + [] == fields;
      return out;
    }
    var f := Field(name, value);
    assert (fields + [f])[..|fields|] == fields;
    r := out + FieldLine(f);
  }

  method PutAddresses(out: string, name: string, list: seq<Address>, ghost fields: seq<Field>) returns (r: string)
    requires out == FieldLines(fields)
    ensures r == FieldLines(fields + PresentList(name, list))
  {
    hide Mention, FieldLines;
    if list == [] {
      assert fields + [] == fields;
      return out;
    }
    var head := out + (name + ": ");
    r := head;
    var first := true;
    for i := 0 to |list|
      invariant first <==> i == 0
      invariant r == head + Mentions(list[..i])
    {
      MentionsGrow(list, i);
      ghost var before := Mentions(list[..i]);
      if !first {
        r := r + ", ";
        Assoc(head, before, ", ");
        before := before + ", ";
      } else {
        assert before == "" && head + "" == head;
      }
      first := false;
      var text := MentionOf(list[i]);
      r := r + text;
      Assoc(head, before, text);
    }
    assert list[..|list|] == list;
    r := r + "\r\n";
    OneMore(fields, Field(name, Mentions(list)));
    Assoc(out, name + ": ", Mentions(list));
    Assoc(out, name + ": " + Mentions(list), "\r\n");
    hide Mentions;
  }

  lemma MentionsGrow(list: seq<Address>, i: nat)
    requires i < |list|
    ensures Mentions(list[..i + 1]) == (if i == 0 then "" else Mentions(list[..i]) + ", ") + Mention(list[i])
    ensures Mentions(list[..0]) == ""
  {
    var now := list[..i + 1];
    assert now[..i] == list[..i] && now[i] == list[i];
  }

  lemma OneMore(fields: seq<Field>, f: Field)
    ensures FieldLines(fields + [f]) == FieldLines(fields) + FieldLine(f)
  {
    assert (fields + [f])[..|fields|] == fields;
  }

  method MentionOf(a: Address) returns (r: string)
    ensures r == Mention(a)
  {
    if a.displayName == "" {
      r := AppendEmail("", a);
      assert "" + Email(a) == Email(a);
      return;
    }
    r := "\"";
    r := r + a.displayName;
    r := r + "\" <";
    r := AppendEmail(r, a);
    r := r + ">";
  }

  /** `render_mail`. */
  method RenderMail(m: Mail) returns (out: string)
    ensures out == MailText(m)
  {
    hide FieldLines, Present, PresentList;
    var h := m.header;
    NoLines();
    assert [] + Present("Subject", h.subject) == Present("Subject", h.subject);
    out := PutField("", "Subject", h.subject, []);
    ghost var fs := Present("Subject", h.subject);
    out := PutAddresses(out, "From", h.from, fs);
    fs := fs + PresentList("From", h.from);
    out := PutAddresses(out, "To", h.to, fs);
    fs := fs + PresentList("To", h.to);
    out := PutAddresses(out, "Cc", h.cc, fs);
    fs := fs + PresentList("Cc", h.cc);
    out := PutAddresses(out, "Bcc", h.bcc, fs);
    fs := fs + PresentList("Bcc", h.bcc);
    out := PutField(out, "Date", h.date, fs);
    fs := fs + Present("Date", h.date);
    out := PutField(out, "Message-ID", h.messageId, fs);
    fs := fs + Present("Message-ID", h.messageId);
    out := PutField(out, "In-Reply-To", h.inReplyTo, fs);
    fs := fs + Present("In-Reply-To", h.inReplyTo);
    out := PutField(out, "Content-Type", m.contentType, fs);
    out := out + "\r\n";
    out := out + m.data;
  }

  lemma NoLines()
    ensures FieldLines([]) == ""
  {
  }

  // ---- Searching ---------------------------------------------------------------------

  predicate At(t: string, pattern: string, i: int) {
    0 <= i <= |t| && pattern <= t[i..]
  }

  /** Where `pattern` first occurs in `t`. */
  function Find(t: string, pattern: string): (r: Option<nat>)
    requires pattern != ""
    ensures r.Some? ==> At(t, pattern, r.value) && forall k | 0 <= k < r.value :: !At(t, pattern, k)
    ensures r.None? ==> forall k :: !At(t, pattern, k)
  {
    if t == "" then None
    else if pattern <= t then Some(0)
    else
      assert t[0..] == t && forall k | 1 <= k <= |t| :: t[k..] == t[1..][k - 1..];
      assert forall k | k != 0 :: At(t, pattern, k) <==> At(t[1..], pattern, k - 1);
      match Find(t[1..], pattern)
      case None => None
      case Some(i) => Some(i + 1)
  }

  /** Behind the last `c`; zero when there is none. */
  function Behind(t: string, c: char): (i: nat)
    ensures i <= |t| && (i > 0 ==> t[i - 1] == c) && forall k | i <= k < |t| :: t[k] != c
  {
    if t == "" then 0 else if t[|t| - 1] == c then |t| else Behind(t[..|t| - 1], c)
  }

  predicate IsWhite(c: char) {
    IsBlank(c) || c == '\r' || c == '\n'
  }

  function DropBlanks(t: string): (r: string)
    ensures r == "" || !IsBlank(r[0])
    ensures t == "" || !IsBlank(t[0]) ==> r == t
  {
    if t != "" && IsBlank(t[0]) then DropBlanks(t[1..]) else t
  }

  function CutBlanks(t: string): (r: string)
    ensures t == "" || !IsBlank(t[|t| - 1]) ==> r == t
  {
    if t != "" && IsBlank(t[|t| - 1]) then CutBlanks(t[..|t| - 1]) else t
  }

  function DropWhite(t: string): (r: string)
    ensures t == "" || !IsWhite(t[0]) ==> r == t
  {
    if t != "" && IsWhite(t[0]) then DropWhite(t[1..]) else t
  }

  function CutWhite(t: string): (r: string)
    ensures t == "" || !IsWhite(t[|t| - 1]) ==> r == t
  {
    if t != "" && IsWhite(t[|t| - 1]) then CutWhite(t[..|t| - 1]) else t
  }

  function Trim(t: string): string {
    CutWhite(DropWhite(t))
  }

  method Trimmed(v: string) returns (t: string)
    ensures t == Trim(v)
  {
    t := v;
    while t != "" && IsWhite(t[0])
      invariant DropWhite(t) == DropWhite(v)
      decreases |t|
    {
      t := t[1..];
    }
    ghost var u := t;
    while t != "" && IsWhite(t[|t| - 1])
      invariant CutWhite(t) == CutWhite(u)
      decreases |t|
    {
      t := t[..|t| - 1];
    }
  }

  // ---- Addresses ----------------------------------------------------------------------

  /** How far the next comma outside quotes and angle brackets is. */
  function ItemLength(t: string, inQuote: bool, angles: nat): (k: nat)
    ensures k <= |t|
  {
    if t == "" then 0
    else
      var q := if t[0] == '"' then !inQuote else inQuote;
      var a := if !q && t[0] == '<' then angles + 1 else if !q && t[0] == '>' && angles > 0 then angles - 1 else angles;
      if !q && a == 0 && t[0] == ',' then 0 else 1 + ItemLength(t[1..], q, a)
  }

  function Unquoted(display: string): string {
    if |display| >= 2 && display[0] == '"' && display[|display| - 1] == '"' then display[1..|display| - 1] else display
  }

  /** `mailbox@host`, cut at the last at-sign. */
  function SpecAddress(display: string, spec: string): Address {
    var s := Trim(spec);
    var at := Behind(s, '@');
    if at > 0 then Address(display, "", s[..at - 1], s[at..]) else Address(display, "", s, "")
  }

  function ParseAddress(item: string): Address {
    var open, close := First(item, '<'), Behind(item, '>');
    if open < |item| && close > open + 1 then SpecAddress(Unquoted(Trim(item[..open])), item[open + 1..close - 1])
    else SpecAddress("", item)
  }

  function ParseAddresses(t: string): seq<Address>
    decreases |t|
  {
    var e := ItemLength(t, false, 0);
    var item := Trim(t[..e]);
    (if item == "" then [] else [ParseAddress(item)]) + if e == |t| then [] else ParseAddresses(t[e + 1..])
  }

  method ItemEnd(t: string) returns (end: nat)
    ensures end == ItemLength(t, false, 0)
  {
    end := 0;
    var inQuote, angles := false, 0;
    assert t[0..] == t;
    while end < |t|
      invariant 0 <= end <= |t| && angles >= 0
      invariant ItemLength(t, false, 0) == end + ItemLength(t[end..], inQuote, angles)
    {
      var c := t[end];
      assert t[end..][1..] == t[end + 1..];
      if c == '"' {
        inQuote := !inQuote;
      }
      if !inQuote && c == '<' {
        angles := angles + 1;
      }
      if !inQuote && c == '>' && angles > 0 {
        angles := angles - 1;
      }
      if !inQuote && angles == 0 && c == ',' {
        return;
      }
      end := end + 1;
    }
  }

  method SpecOf(display: string, text: string) returns (a: Address)
    ensures a == SpecAddress(display, text)
  {
    var spec := Trimmed(text);
    var at := Behind(spec, '@');
    if at > 0 {
      a := Address(display, "", spec[..at - 1], spec[at..]);
    } else {
      a := Address(display, "", spec, "");
    }
  }

  method AddressOf(item: string) returns (a: Address)
    ensures a == ParseAddress(item)
  {
    hide SpecAddress, Trim, First, Behind;
    var open, close := First(item, '<'), Behind(item, '>');
    if open < |item| && close > open + 1 {
      var display := Trimmed(item[..open]);
      a := SpecOf(Unquoted(display), item[open + 1..close - 1]);
    } else {
      a := SpecOf("", item);
    }
  }

  lemma AddressesStep(t: string, e: nat)
    requires e == ItemLength(t, false, 0)
    ensures ParseAddresses(t) ==
            (if Trim(t[..e]) == "" then [] else [ParseAddress(Trim(t[..e]))])
            + if e == |t| then [] else ParseAddresses(t[e + 1..])
  {
  }

  /** `parse_rfc5322_addresses`: appends the addresses of `text` to `list`. */
  method AppendAddresses(text: string, list: seq<Address>) returns (out: seq<Address>)
    ensures out == list + ParseAddresses(text)
  {
    hide ParseAddresses, ParseAddress, Trim, ItemLength;
    out := list;
    var pos := 0;
    assert text[0..] == text;
    while pos <= |text|
      invariant 0 <= pos <= |text| + 1
      invariant list + ParseAddresses(text) == out + if pos <= |text| then ParseAddresses(text[pos..]) else []
    {
      var rest := text[pos..];
      var e := ItemEnd(rest);
      AddressesStep(rest, e);
      var item := Trimmed(rest[..e]);
      ghost var before := out;
      if item != "" {
        var a := AddressOf(item);
        out := out + [a];
      } else {
        assert out + [] == out;
      }
      ghost var more := if e == |rest| then [] else ParseAddresses(rest[e + 1..]);
      Assoc(before, if item == "" then [] else [ParseAddress(item)], more);
      if e == |rest| {
        pos := |text| + 1;
      } else {
        assert rest[e + 1..] == text[pos + e + 1..];
        pos := pos + e + 1;
      }
    }
  }

  // ---- Headers -------------------------------------------------------------------------

  /** The field being read: its name, empty for none, and its unfolded value. */
  datatype Pending = Pending(name: string, value: string)

  const NOTHING_PENDING := Pending("", "")

  function AssignField(h: MailHeader, name: string, raw: string): MailHeader {
    var value := CutBlanks(raw);
    if IEquals(name, "Subject") then h.(subject := value)
    else if IEquals(name, "Date") then h.(date := value)
    else if IEquals(name, "Message-ID") then h.(messageId := value)
    else if IEquals(name, "In-Reply-To") then h.(inReplyTo := value)
    else if IEquals(name, "From") then h.(from := h.from + ParseAddresses(value))
    else if IEquals(name, "To") then h.(to := h.to + ParseAddresses(value))
    else if IEquals(name, "Cc") then h.(cc := h.cc + ParseAddresses(value))
    else if IEquals(name, "Bcc") then h.(bcc := h.bcc + ParseAddresses(value))
    else h
  }

  function Flush(h: MailHeader, p: Pending): MailHeader {
    if p.name == "" then h else AssignField(h, p.name, p.value)
  }

  function NoReturn(line: string): string {
    if line != "" && line[|line| - 1] == '\r' then line[..|line| - 1] else line
  }

  /** The first line of a block, without its line break, and what follows it. */
  function LineOf(block: string): string {
    NoReturn(block[..First(block, '\n')])
  }

  function AfterLine(block: string): (rest: string)
    ensures block != "" ==> |rest| < |block|
  {
    var e := First(block, '\n');
    if e == |block| then "" else block[e + 1..]
  }

  /** The value behind the colon; one of blanks only is kept as it is. */
  function Received(raw: string): string {
    if DropBlanks(raw) == "" then raw else DropBlanks(raw)
  }

  /** What one line does to the field being read; `true` when that field was complete. */
  function OnLine(p: Pending, line: string): (Pending, bool) {
    if line == "" then (NOTHING_PENDING, true)
    else if IsBlank(line[0]) then (p.(value := p.value + " " + DropBlanks(line)), false)
    else
      var colon := First(line, ':');
      if colon == |line| then (NOTHING_PENDING, true)
      else (Pending(line[..colon], Received(line[colon + 1..])), true)
  }

  function ParseBlock(block: string, p: Pending, h: MailHeader): MailHeader
    decreases |block|
  {
    if block == "" then Flush(h, p)
    else
      var (next, done) := OnLine(p, LineOf(block));
      ParseBlock(AfterLine(block), next, if done then Flush(h, p) else h)
  }

  method Assign(h: MailHeader, name: string, raw: string) returns (r: MailHeader)
    ensures r == AssignField(h, name, raw)
  {
    hide ParseAddresses, IEquals;
    var value := raw;
    while value != "" && IsBlank(value[|value| - 1])
      invariant CutBlanks(value) == CutBlanks(raw)
      decreases |value|
    {
      value := value[..|value| - 1];
    }
    r := h;
    if IEquals(name, "Subject") {
      r := r.(subject := value);
    } else if IEquals(name, "Date") {
      r := r.(date := value);
    } else if IEquals(name, "Message-ID") {
      r := r.(messageId := value);
    } else if IEquals(name, "In-Reply-To") {
      r := r.(inReplyTo := value);
    } else if IEquals(name, "From") {
      var list := AppendAddresses(value, h.from);
      r := r.(from := list);
    } else if IEquals(name, "To") {
      var list := AppendAddresses(value, h.to);
      r := r.(to := list);
    } else if IEquals(name, "Cc") {
      var list := AppendAddresses(value, h.cc);
      r := r.(cc := list);
    } else if IEquals(name, "Bcc") {
      var list := AppendAddresses(value, h.bcc);
      r := r.(bcc := list);
    }
  }

  method FlushField(h: MailHeader, name: string, value: string) returns (r: MailHeader)
    ensures r == Flush(h, Pending(name, value))
  {
    r := h;
    if name != "" {
      r := Assign(h, name, value);
    }
  }

  lemma BlockStep(block: string, p: Pending, h: MailHeader)
    requires block != ""
    ensures var (next, done) := OnLine(p, LineOf(block));
            ParseBlock(block, p, h) == ParseBlock(AfterLine(block), next, if done then Flush(h, p) else h)
  {
  }

  lemma BlockEnds(p: Pending, h: MailHeader)
    ensures ParseBlock("", p, h) == Flush(h, p)
  {
  }

  method TakeLine(block: string) returns (line: string, rest: string)
    requires block != ""
    ensures line == LineOf(block) && rest == AfterLine(block) && |rest| < |block|
  {
    var eol := First(block, '\n');
    line := block[..eol];
    rest := if eol == |block| then "" else block[eol + 1..];
    if line != "" && line[|line| - 1] == '\r' {
      line := line[..|line| - 1];
    }
  }

  /** `parse_mail_header_block`. */
  method ParseHeaderBlock(text: string) returns (h: MailHeader)
    ensures h == ParseBlock(text, NOTHING_PENDING, NO_HEADER)
  {
    hide Flush, ParseBlock, LineOf, AfterLine, First, DropBlanks, Received;
    var block, name, value := text, "", "";
    h := NO_HEADER;
    while block != ""
      invariant ParseBlock(block, Pending(name, value), h) == ParseBlock(text, NOTHING_PENDING, NO_HEADER)
      decreases |block|
    {
      BlockStep(block, Pending(name, value), h);
      var line;
      line, block := TakeLine(block);
      if line == "" {
        h := FlushField(h, name, value);
        name, value := "", "";
        continue;
      }
      if IsBlank(line[0]) {
        value := value + " ";
        value := value + DropBlanks(line);
        continue;
      }
      h := FlushField(h, name, value);
      name, value := "", "";
      var colon := First(line, ':');
      if colon == |line| {
        continue;
      }
      name := line[..colon];
      value := Received(line[colon + 1..]);
    }
    BlockEnds(Pending(name, value), h);
    h := FlushField(h, name, value);
  }

  // ---- Fetched messages -------------------------------------------------------------------

  /** Header block and body, split at the first empty line. */
  function SplitMessage(text: string): (string, string) {
    match Find(text, "\r\n\r\n")
    case Some(i) => (text[..i], text[i + 4..])
    case None =>
      match Find(text, "\n\n")
      case Some(i) => (text[..i], text[i + 2..])
      case None => (text, "")
  }

  /** The mail a fetched message is assembled into. */
  function ParseMail(text: string): Mail {
    var (block, body) := SplitMessage(text);
    Mail(ParseBlock(block, NOTHING_PENDING, NO_HEADER), "", body)
  }
}
