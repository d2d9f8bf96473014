/**
 The structured values of FETCH responses (section 7.4.2 of RFC 3501): how they are
 read off a text, how they are printed, and that the one undoes the other.
 */
module FetchGrammar {
  import opened Decimal
  import opened Tokens
  import opened Wrappers

  // ---- Arbitrary values --------------------------------------------------------

  /** Skips one value of any kind. */
  function SkipValue(t: string): (r: Option<string>)
    ensures r.Some? ==> |r.value| < |t|
    decreases |t|, 0
  {
    if Peek(t) == '(' then SkipItems(t[1..])
    else if Peek(t) == '"' then Rest(ReadQuoted(t))
    else if Peek(t) == '{' || Peek(t) == '~' then Rest(ReadLiteral(t))
    else if AtomLength(t) == 0 then None
    else Some(t[AtomLength(t)..])
  }

  function Rest<T>(p: Parse<T>): Option<string> {
    if p.Got? then Some(p.rest) else None
  }

  function SkipItems(t: string): (r: Option<string>)
    ensures r.Some? ==> |r.value| < |t|
    decreases |t|, 1
  {
    var s := SkipSpaces(t);
    if s == "" then None
    else if s[0] == ')' then Some(s[1..])
    else
      match SkipValue(s)
      case None => None
      case Some(r) => SkipItems(r)
  }

  /** Extension data up to the closing parenthesis. */
  function SkipTail(t: string): (r: Option<string>)
    ensures r.Some? ==> |r.value| <= |t|
    decreases |t|
  {
    if t == "" || t[0] == ')' then Some(t)
    else
      match SkipValue(t)
      case None => None
      case Some(r) => SkipTail(SkipSpaces(r))
  }

  /** What a server may put on the wire as a value; a system flag is an atom behind a backslash. */
  datatype Sexp = Atom(text: string) | Str(text: string) | Literal(text: string) | List(items: seq<Sexp>)

  predicate WireSexp(x: Sexp) {
    match x
    case Atom(text) => text != "" && (IsAtomChar(text[0]) || text[0] == '\\') && forall i | 0 < i < |text| :: IsAtomChar(text[i])
    case Str(text) => Fits(text)
    case Literal(text) => Fits(text)
    case List(items) => forall y | y in items :: WireSexp(y)
  }

  /** No system flag, and no atom that the reader takes for the obsolete spelling of a literal. */
  predicate Skippable(x: Sexp) {
    match x
    case Atom(text) => text != "" ==> text[0] !in "\\~"
    case List(items) => forall y | y in items :: Skippable(y)
    case _ => true
  }

  predicate GoodSexp(x: Sexp) {
    WireSexp(x) && Skippable(x)
  }

  function PrintSexp(x: Sexp): string {
    match x
    case Atom(text) => text
    case Str(text) => PrintString(text)
    case Literal(text) => PrintLiteral(text)
    case List(items) => "(" + (if items == [] then ")" else PrintSexp(items[0]) + PrintItems(items[1..]))
  }

  /** More values of a list, a space before each, and the closing parenthesis. */
  function PrintItems(items: seq<Sexp>): string {
    if items == [] then ")" else " " + PrintSexp(items[0]) + PrintItems(items[1..])
  }

  /** A value never continues behind `t`. */
  predicate Bounded(t: string) {
    t == "" || !IsAtomChar(t[0])
  }

  lemma SkipOneSpace(t: string)
    requires t != "" && t[0] != ' '
    ensures SkipSpaces(" " + t) == t && SkipSpaces(t) == t
  {
    assert (" " + t)[1..] == t;
  }

  /** A value ends in front of `t`. */
  predicate Ends(t: string) {
    t != "" && t[0] in " )"
  }

  lemma AtomSkipped(text: string, rest: string)
    requires WireSexp(Atom(text)) && Ends(rest)
    ensures SkipValue(text + rest) == if Skippable(Atom(text)) then Some(rest) else None
    ensures (text + rest)[0] !in " )"
  {
    var t := text + rest;
    assert forall i | 0 <= i < |text| :: t[i] == text[i];
    if text[0] == '~' {
      assert t[1..] != "" && t[1..][0] != '{';
    } else if text[0] != '\\' {
      AtomLengthFirst(t, |text|);
      assert t[|text|..] == rest;
    }
  }

  lemma StringSkipped(v: string, rest: string)
    requires Fits(v)
    ensures SkipValue(PrintString(v) + rest) == Some(rest)
    ensures var t := PrintString(v) + rest; t != "" && t[0] !in " )"
  {
    StringRoundTrip(v, rest);
    hide ReadQuoted, ReadLiteral, PrintString, AtomLength;
  }

  lemma LiteralSkipped(v: string, rest: string)
    requires Fits(v)
    ensures SkipValue(PrintLiteral(v) + rest) == Some(rest)
    ensures var t := PrintLiteral(v) + rest; t != "" && t[0] !in " )"
  {
    PrintLiteralIs(v, rest);
    LiteralRoundTrip(v, rest);
    hide BracedLiteral, Digits, PrintLiteral;
  }

  /** Of what a server prints, exactly the values without system flags and tilde atoms are skipped. */
  lemma {:induction false} SexpSkipped(x: Sexp, rest: string)
    requires WireSexp(x) && Ends(rest)
    ensures SkipValue(PrintSexp(x) + rest) == if Skippable(x) then Some(rest) else None
    ensures var t := PrintSexp(x) + rest; t != "" && t[0] !in " )"
    decreases x, 1
  {
    match x
    case Atom(text) => AtomSkipped(text, rest);
    case Str(text) => StringSkipped(text, rest);
    case Literal(text) => LiteralSkipped(text, rest);
    case List(items) =>
      ItemsSkipped(items, rest);
      ListOpens(items, rest);
  }

  /** Spaces in front of the first value do not matter. */
  lemma ListOpens(items: seq<Sexp>, rest: string)
    ensures SkipValue(PrintSexp(List(items)) + rest) == SkipItems(PrintItems(items) + rest)
    ensures PrintSexp(List(items)) + rest != "" && (PrintSexp(List(items)) + rest)[0] == '('
  {
    var t := PrintSexp(List(items)) + rest;
    if items == [] {
      assert t[1..] == PrintItems(items) + rest;
    } else {
      var u := PrintSexp(items[0]) + (PrintItems(items[1..]) + rest);
      ItemsFirst(items, rest);
      assert t[1..] == u;
      hide PrintSexp, PrintItems, SkipValue;
      assert (" " + u)[1..] == u;
    }
  }

  lemma ItemsFirst(items: seq<Sexp>, rest: string)
    requires items != []
    ensures PrintItems(items) + rest == " " + (PrintSexp(items[0]) + (PrintItems(items[1..]) + rest))
    ensures Ends(PrintItems(items[1..]) + rest)
  {
    hide PrintSexp;
    Assoc(" " + PrintSexp(items[0]), PrintItems(items[1..]), rest);
    Assoc(" ", PrintSexp(items[0]), PrintItems(items[1..]) + rest);
    if |items| > 1 { assert PrintItems(items[1..])[0] == ' '; }
  }

  lemma {:induction false} ItemsSkipped(items: seq<Sexp>, rest: string)
    requires forall y | y in items :: WireSexp(y)
    ensures SkipItems(PrintItems(items) + rest) == if forall y | y in items :: Skippable(y) then Some(rest) else None
    decreases items, 0
  {
    if items == [] {
      assert (")" + rest)[1..] == rest;
    } else {
      var tail := PrintItems(items[1..]) + rest;
      ItemsFirst(items, rest);
      assert items[0] in items;
      SexpSkipped(items[0], tail);
      ItemsSkipped(items[1..], rest);
      hide PrintSexp, PrintItems, SkipValue, Skippable;
      SkipOneSpace(PrintSexp(items[0]) + tail);
      assert forall y :: y in items <==> y == items[0] || y in items[1..];
    }
  }

  /** The same values in front of the closing parenthesis of something else. */
  lemma {:induction false} TailSkipped(items: seq<Sexp>, rest: string)
    requires forall y | y in items :: WireSexp(y)
    ensures SkipTail(SkipSpaces(PrintItems(items) + rest))
            == if forall y | y in items :: Skippable(y) then Some(")" + rest) else None
    decreases |items|
  {
    if items == [] {
      SkipOneSpace(")" + rest);
    } else {
      var tail := PrintItems(items[1..]) + rest;
      ItemsFirst(items, rest);
      assert items[0] in items;
      SexpSkipped(items[0], tail);
      TailSkipped(items[1..], rest);
      hide PrintSexp, PrintItems, SkipValue, Skippable;
      SkipOneSpace(PrintSexp(items[0]) + tail);
      assert forall y :: y in items <==> y == items[0] || y in items[1..];
    }
  }

  // ---- ENVELOPE --------------------------------------------------------------------

  datatype Address = Address(displayName: string, adl: string, mailboxName: string, hostName: string)

  /** The four members of an address and its closing parenthesis. */
  function ReadAddress(t: string): (p: Parse<Address>)
    ensures p.Got? ==> |p.rest| < |t|
  {
    var (displayName, t1) :- ReadNstr(t);
    var (adl, t2) :- ReadNstr(SkipSpaces(t1));
    var (mailboxName, t3) :- ReadNstr(SkipSpaces(t2));
    var (hostName, t4) :- ReadNstr(SkipSpaces(t3));
    if t4 != "" && t4[0] == ')' then Got(Address(displayName, adl, mailboxName, hostName), t4[1..]) else Fail
  }

  function ReadAddressItems(t: string): (p: Parse<seq<Address>>)
    ensures p.Got? ==> |p.rest| < |t|
    decreases |t|
  {
    var s := SkipSpaces(t);
    if s == "" then Fail
    else if s[0] == ')' then Got([], s[1..])
    else if s[0] != '(' then Fail
    else
      var (address, r) :- ReadAddress(s[1..]);
      var (more, rest) :- ReadAddressItems(r);
      Got([address] + more, rest)
  }

  function ReadAddresses(t: string): (p: Parse<seq<Address>>)
    ensures p.Got? ==> |p.rest| < |t|
  {
    if StartsWithNil(t) then Got([], t[3..])
    else if t == "" || t[0] != '(' then Fail
    else ReadAddressItems(t[1..])
  }

  datatype Envelope = Envelope(
    date: string, subject: string,
    from: seq<Address>, sender: seq<Address>, replyTo: seq<Address>,
    to: seq<Address>, cc: seq<Address>, bcc: seq<Address>,
    inReplyTo: string, messageId: string)

  datatype Lists = Lists(
    from: seq<Address>, sender: seq<Address>, replyTo: seq<Address>,
    to: seq<Address>, cc: seq<Address>, bcc: seq<Address>)

  /** The six address lists, a space behind each but the last. */
  function ReadLists(t: string): (p: Parse<Lists>)
    ensures p.Got? ==> |p.rest| < |t|
  {
    var (from, t1) :- ReadAddresses(t);
    var (sender, t2) :- ReadAddresses(SkipSpaces(t1));
    var (replyTo, t3) :- ReadAddresses(SkipSpaces(t2));
    var (to, t4) :- ReadAddresses(SkipSpaces(t3));
    var (cc, t5) :- ReadAddresses(SkipSpaces(t4));
    var (bcc, t6) :- ReadAddresses(SkipSpaces(t5));
    Got(Lists(from, sender, replyTo, to, cc, bcc), t6)
  }

  /** The members behind the address lists. */
  function ReadEnvelopeEnd(date: string, subject: string, l: Lists, t: string): (p: Parse<Envelope>)
    ensures p.Got? ==> |p.rest| < |t|
  {
    var (inReplyTo, t1) :- ReadNstr(t);
    var (messageId, t2) :- ReadNstr(SkipSpaces(t1));
    if t2 != "" && t2[0] == ')' then
      Got(Envelope(date, subject, l.from, l.sender, l.replyTo, l.to, l.cc, l.bcc, inReplyTo, messageId), t2[1..])
    else Fail
  }

  function ReadEnvelope(t: string): (p: Parse<Envelope>)
    ensures p.Got? ==> |p.rest| < |t|
  {
    if t == "" || t[0] != '(' then Fail
    else
      var (date, t1) :- ReadNstr(t[1..]);
      var (subject, t2) :- ReadNstr(SkipSpaces(t1));
      var (l, t3) :- ReadLists(SkipSpaces(t2));
      ReadEnvelopeEnd(date, subject, l, SkipSpaces(t3))
  }

  predicate GoodAddress(a: Address) {
    Fits(a.displayName) && Fits(a.adl) && Fits(a.mailboxName) && Fits(a.hostName)
  }

  predicate GoodAddresses(list: seq<Address>) {
    forall a | a in list :: GoodAddress(a)
  }

  predicate GoodEnvelope(e: Envelope) {
    && Fits(e.date) && Fits(e.subject) && Fits(e.inReplyTo) && Fits(e.messageId)
    && GoodAddresses(e.from) && GoodAddresses(e.sender) && GoodAddresses(e.replyTo)
    && GoodAddresses(e.to) && GoodAddresses(e.cc) && GoodAddresses(e.bcc)
  }

  /** The printers take the text that follows, so that no closing text has to be moved about. */
  function PrintAddressThen(a: Address, rest: string): string {
    "(" + (PrintNstr(a.displayName) + (" " + (PrintNstr(a.adl) + (" " + (PrintNstr(a.mailboxName) +
      (" " + (PrintNstr(a.hostName) + (")" + rest))))))))
  }

  function PrintAddressItemsThen(list: seq<Address>, rest: string): string {
    if list == [] then ")" + rest else PrintAddressThen(list[0], PrintAddressItemsThen(list[1..], rest))
  }

  /** An empty list travels as `NIL`. */
  function PrintAddressesThen(list: seq<Address>, rest: string): string {
    if list == [] then "NIL" + rest else "(" + PrintAddressItemsThen(list, rest)
  }

  function PrintEnvelopeThen(e: Envelope, rest: string): string {
    "(" + (PrintNstr(e.date) + (" " + (PrintNstr(e.subject) +
      (" " + PrintAddressesThen(e.from, " " + PrintAddressesThen(e.sender, " " + PrintAddressesThen(e.replyTo,
       " " + PrintAddressesThen(e.to, " " + PrintAddressesThen(e.cc, " " + PrintAddressesThen(e.bcc,
       " " + (PrintNstr(e.inReplyTo) + (" " + (PrintNstr(e.messageId) + (")" + rest))))))))))))))
  }

  lemma Tail(c: string, t: string)
    requires |c| == 1
    ensures (c + t)[1..] == t && (c + t)[0] == c[0]
  {
  }

  /** One member and the space behind it. */
  lemma NstrThenSpace(v: string, t: string)
    requires Fits(v) && t != "" && t[0] != ' '
    ensures ReadNstr(PrintNstr(v) + (" " + t)) == Got(v, " " + t) && SkipSpaces(" " + t) == t
  {
    NstrRoundTrip(v, " " + t);
    SkipOneSpace(t);
  }

  lemma NstrStarts(v: string, t: string)
    requires Fits(v)
    ensures PrintNstr(v) + t != "" && (PrintNstr(v) + t)[0] != ' '
  {
    if v == "" {
    } else {
      StringRoundTrip(v, t);
      hide PrintString;
    }
  }

  lemma AddressRoundTrip(a: Address, rest: string)
    requires GoodAddress(a)
    ensures var t := PrintAddressThen(a, rest); t != "" && t[0] == '(' && ReadAddress(t[1..]) == Got(a, rest)
  {
    hide PrintNstr, ReadNstr, SkipSpaces, Fits;
    var u4 := PrintNstr(a.hostName) + (")" + rest);
    var u3 := PrintNstr(a.mailboxName) + (" " + u4);
    var u2 := PrintNstr(a.adl) + (" " + u3);
    NstrStarts(a.hostName, ")" + rest);
    NstrStarts(a.mailboxName, " " + u4);
    NstrStarts(a.adl, " " + u3);
    NstrThenSpace(a.displayName, u2);
    NstrThenSpace(a.adl, u3);
    NstrThenSpace(a.mailboxName, u4);
    NstrRoundTrip(a.hostName, ")" + rest);
    Tail("(", PrintNstr(a.displayName) + (" " + u2));
    Tail(")", rest);
  }

  lemma {:induction false} AddressItemsRoundTrip(list: seq<Address>, rest: string)
    requires GoodAddresses(list)
    ensures ReadAddressItems(PrintAddressItemsThen(list, rest)) == Got(list, rest)
    decreases |list|
  {
    if list == [] {
      Tail(")", rest);
      SkipOneSpace(")" + rest);
    } else {
      var more := PrintAddressItemsThen(list[1..], rest);
      assert list[0] in list;
      AddressItemsRoundTrip(list[1..], rest);
      AddressRoundTrip(list[0], more);
      hide PrintAddressThen, ReadAddress;
      AlreadyThere(PrintAddressThen(list[0], more));
      assert list == [list[0]] + list[1..];
    }
  }

  lemma AlreadyThere(t: string)
    requires t == "" || t[0] != ' '
    ensures SkipSpaces(t) == t
  {
  }

  lemma AddressesRoundTrip(list: seq<Address>, rest: string)
    requires GoodAddresses(list) && Bounded(rest)
    ensures ReadAddresses(PrintAddressesThen(list, rest)) == Got(list, rest)
    ensures var t := PrintAddressesThen(list, rest); t != "" && t[0] != ' '
  {
    if list == [] {
      NilRoundTrip(rest);
    } else {
      hide PrintAddressItemsThen, ReadAddressItems, StartsWithNil;
      AddressItemsRoundTrip(list, rest);
      Tail("(", PrintAddressItemsThen(list, rest));
      ListIsNotNil(PrintAddressesThen(list, rest));
    }
  }

  lemma ListIsNotNil(t: string)
    requires t != "" && t[0] == '('
    ensures !StartsWithNil(t)
  {
    assert |t| >= 3 ==> t[..3][0] == t[0] && ToUpper(t[0]) != "NIL"[0];
  }

  /** One list and the space behind it. */
  lemma AddressesThenSpace(list: seq<Address>, t: string)
    requires GoodAddresses(list) && t != "" && t[0] != ' '
    ensures ReadAddresses(PrintAddressesThen(list, " " + t)) == Got(list, " " + t) && SkipSpaces(" " + t) == t
    ensures var u := PrintAddressesThen(list, " " + t); u != "" && u[0] != ' '
  {
    AddressesRoundTrip(list, " " + t);
    SkipOneSpace(t);
  }

  lemma EnvelopeReads(e: Envelope, rest: string)
    requires GoodEnvelope(e)
    ensures ReadEnvelope(PrintEnvelopeThen(e, rest)) == Got(e, rest)
  {
    hide PrintNstr, ReadNstr, SkipSpaces, Fits, GoodAddresses, PrintAddressesThen, ReadAddresses;
    var u10 := PrintNstr(e.messageId) + (")" + rest);
    var u9 := PrintNstr(e.inReplyTo) + (" " + u10);
    var u8 := PrintAddressesThen(e.bcc, " " + u9);
    var u7 := PrintAddressesThen(e.cc, " " + u8);
    var u6 := PrintAddressesThen(e.to, " " + u7);
    var u5 := PrintAddressesThen(e.replyTo, " " + u6);
    var u4 := PrintAddressesThen(e.sender, " " + u5);
    var u3 := PrintAddressesThen(e.from, " " + u4);
    var u2 := PrintNstr(e.subject) + (" " + u3);
    NstrStarts(e.messageId, ")" + rest);
    NstrRoundTrip(e.messageId, ")" + rest);
    NstrStarts(e.inReplyTo, " " + u10);
    NstrThenSpace(e.inReplyTo, u10);
    AddressesThenSpace(e.bcc, u9);
    AddressesThenSpace(e.cc, u8);
    AddressesThenSpace(e.to, u7);
    AddressesThenSpace(e.replyTo, u6);
    AddressesThenSpace(e.sender, u5);
    AddressesThenSpace(e.from, u4);
    NstrThenSpace(e.subject, u3);
    NstrStarts(e.subject, " " + u3);
    NstrThenSpace(e.date, u2);
    Tail("(", PrintNstr(e.date) + (" " + u2));
    Tail(")", rest);
  }

  // ---- Printed forms do not depend on what follows ------------------------------------

  lemma Joined(p: string, t: string, x: string, y: string)
    requires t == x + y
    ensures p + t == (p + x) + y
  {
  }

  /** A member, the space behind it and the rest. */
  lemma NstrJoined(v: string, t: string, x: string, y: string)
    requires t == x + y
    ensures PrintNstr(v) + (" " + t) == (PrintNstr(v) + (" " + x)) + y
  {
    hide PrintNstr;
    Joined(" ", t, x, y);
    Joined(PrintNstr(v), " " + t, " " + x, y);
  }

  lemma AddressJoined(a: Address, x: string, y: string)
    ensures PrintAddressThen(a, x + y) == PrintAddressThen(a, x) + y
  {
    hide PrintNstr;
    var c4, c4' := PrintNstr(a.hostName) + (")" + (x + y)), PrintNstr(a.hostName) + (")" + x);
    Joined(")", x + y, x, y);
    Joined(PrintNstr(a.hostName), ")" + (x + y), ")" + x, y);
    NstrJoined(a.mailboxName, c4, c4', y);
    var c3, c3' := PrintNstr(a.mailboxName) + (" " + c4), PrintNstr(a.mailboxName) + (" " + c4');
    NstrJoined(a.adl, c3, c3', y);
    var c2, c2' := PrintNstr(a.adl) + (" " + c3), PrintNstr(a.adl) + (" " + c3');
    NstrJoined(a.displayName, c2, c2', y);
    Joined("(", PrintNstr(a.displayName) + (" " + c2), PrintNstr(a.displayName) + (" " + c2'), y);
  }

  lemma {:induction false} AddressItemsJoined(list: seq<Address>, x: string, y: string)
    ensures PrintAddressItemsThen(list, x + y) == PrintAddressItemsThen(list, x) + y
    decreases |list|
  {
    hide PrintAddressThen;
    if list == [] {
      Joined(")", x + y, x, y);
    } else {
      AddressItemsJoined(list[1..], x, y);
      AddressJoined(list[0], PrintAddressItemsThen(list[1..], x), y);
    }
  }

  lemma AddressesJoined(list: seq<Address>, t: string, x: string, y: string)
    requires t == x + y
    ensures " " + PrintAddressesThen(list, t) == (" " + PrintAddressesThen(list, x)) + y
  {
    hide PrintAddressItemsThen;
    if list == [] {
      Joined("NIL", t, x, y);
    } else {
      AddressItemsJoined(list, x, y);
      Joined("(", PrintAddressItemsThen(list, t), PrintAddressItemsThen(list, x), y);
    }
    Joined(" ", PrintAddressesThen(list, t), PrintAddressesThen(list, x), y);
  }

  /** The printed envelope, followed by anything. */
  lemma EnvelopeJoined(e: Envelope, y: string)
    ensures PrintEnvelopeThen(e, y) == PrintEnvelopeThen(e, "") + y
  {
    hide PrintNstr, PrintAddressesThen;
    assert "" + y == y && ")" + "" == ")";
    var u10, v10 := PrintNstr(e.messageId) + (")" + y), PrintNstr(e.messageId) + (")" + "");
    Joined(PrintNstr(e.messageId), ")" + y, ")", y);
    NstrJoined(e.inReplyTo, u10, v10, y);
    var u9, v9 := " " + (PrintNstr(e.inReplyTo) + (" " + u10)), " " + (PrintNstr(e.inReplyTo) + (" " + v10));
    Joined(" ", PrintNstr(e.inReplyTo) + (" " + u10), PrintNstr(e.inReplyTo) + (" " + v10), y);
    AddressesJoined(e.bcc, u9, v9, y);
    var u8, v8 := " " + PrintAddressesThen(e.bcc, u9), " " + PrintAddressesThen(e.bcc, v9);
    AddressesJoined(e.cc, u8, v8, y);
    var u7, v7 := " " + PrintAddressesThen(e.cc, u8), " " + PrintAddressesThen(e.cc, v8);
    AddressesJoined(e.to, u7, v7, y);
    var u6, v6 := " " + PrintAddressesThen(e.to, u7), " " + PrintAddressesThen(e.to, v7);
    AddressesJoined(e.replyTo, u6, v6, y);
    var u5, v5 := " " + PrintAddressesThen(e.replyTo, u6), " " + PrintAddressesThen(e.replyTo, v6);
    AddressesJoined(e.sender, u5, v5, y);
    var u4, v4 := " " + PrintAddressesThen(e.sender, u5), " " + PrintAddressesThen(e.sender, v5);
    AddressesJoined(e.from, u4, v4, y);
    var u3, v3 := " " + PrintAddressesThen(e.from, u4), " " + PrintAddressesThen(e.from, v4);
    Joined(PrintNstr(e.subject), u3, v3, y);
    var u2, v2 := PrintNstr(e.subject) + u3, PrintNstr(e.subject) + v3;
    NstrJoined(e.date, u2, v2, y);
    Joined("(", PrintNstr(e.date) + (" " + u2), PrintNstr(e.date) + (" " + v2), y);
  }

  function PrintEnvelope(e: Envelope): string {
    PrintEnvelopeThen(e, "")
  }

  /** Every envelope is read back from its printed form, whatever follows, and reading stops exactly behind it. */
  lemma EnvelopeRoundTrip(e: Envelope, rest: string)
    requires GoodEnvelope(e)
    ensures ReadEnvelope(PrintEnvelope(e) + rest) == Got(e, rest)
  {
    hide PrintEnvelopeThen, ReadEnvelope, GoodEnvelope;
    EnvelopeJoined(e, rest);
    EnvelopeReads(e, rest);
  }
}
