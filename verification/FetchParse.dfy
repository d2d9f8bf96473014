/** The deep readers of FETCH data, driven by the parse cursor. */
module FetchParse {
  import opened BodyGrammar
  import FetchGrammar
  import opened ParseCursors
  import opened Tokens
  import opened Wrappers

  /** `Stale`: a view was read after its buffer had been overwritten, so what was read is anything. */
  datatype Outcome<+T> = Failed | Stale | Done(value: T)

  /** The reader did what the grammar says. */
  ghost predicate Matches<T>(r: Outcome<T>, p: Parse<T>, rest: string) {
    match p
    case Fail => r == Failed
    case Dangling => r == Stale
    case Got(v, after) => r == Done(v) && rest == after
  }

  /** `consume_nil`. */
  method ConsumeNil(cur: ParseCursor) returns (ok: bool)
    requires cur.Valid()
    modifies cur`pos
    ensures cur.Valid() && ok == StartsWithNil(old(cur.Rest()))
    ensures cur.Rest() == if ok then old(cur.Rest())[3..] else old(cur.Rest())
  {
    hide StartsWithNil;
    ok := cur.AtNil();
    if ok {
      NilIsLong(cur.Rest());
      NilPrefix(cur.Rest());
      ok := cur.TryConsumeCi("NIL");
    }
  }

  lemma NilPrefix(t: string)
    requires StartsWithNil(t)
    ensures IEquals(t[..3], "NIL")
  {
  }

  /** `read_nstr`: `NIL` leaves the member empty. */
  method ReadNstrInto(cur: ParseCursor) returns (r: Outcome<string>)
    requires cur.Valid()
    modifies cur`pos, cur`scratch, cur`generation
    ensures cur.Valid() && Matches(r, ReadNstr(old(cur.Rest())), cur.Rest())
  {
    hide ReadNstring;
    NstringNeverDangles(cur.Rest());
    var v := cur.ReadNstring();
    if v == None {
      return Failed;
    }
    r := Done(if v.value == None then "" else cur.Text(v.value.value));
  }

  lemma {:induction false} BodyNeverDangles(t: string)
    ensures QuotedBody(t) != Dangling
  {
    if t != "" {
      BodyNeverDangles(t[1..]);
      if |t| >= 2 { BodyNeverDangles(t[2..]); }
    }
  }

  lemma NstringNeverDangles(t: string)
    ensures ReadNstring(t) != Dangling && ReadString(t) != Dangling && ReadAstring(t) != Dangling
  {
    if t != "" { BodyNeverDangles(t[1..]); }
    hide QuotedBody, StartsWithNil, AtomLength;
  }

  /** `skip_value`. */
  method SkipValue(cur: ParseCursor) returns (ok: bool)
    requires cur.Valid()
    modifies cur`pos, cur`scratch, cur`generation
    ensures cur.Valid()
    ensures match FetchGrammar.SkipValue(old(cur.Rest()))
            case None => !ok
            case Some(rest) => ok && cur.Rest() == rest
    decreases |cur.Rest()|, 0
  {
    hide Tokens.ReadQuoted, Tokens.ReadLiteral, AtomLength, FetchGrammar.SkipItems;
    var c := cur.PeekChar();
    if c == '(' {
      var _ := cur.TryConsume('(');
      ok := SkipList(cur);
    } else if c == '"' {
      var v := cur.ReadQuoted();
      ok := v.Some?;
    } else if c == '{' || c == '~' {
      var v := cur.ReadLiteral();
      ok := v.Some?;
    } else if cur.pos >= |cur.text| {
      assert cur.Rest() == "";
      NoAtom();
      ok := false;
    } else {
      ghost var k := AtomLength(cur.Rest());
      var atom := cur.ReadAtom();
      ok := cur.Text(atom) != "";
    }
  }

  lemma NoAtom()
    ensures AtomLength("") == 0
  {
  }

  /** The loop over the values of a list, up to its closing parenthesis. */
  method SkipList(cur: ParseCursor) returns (ok: bool)
    requires cur.Valid()
    modifies cur`pos, cur`scratch, cur`generation
    ensures cur.Valid()
    ensures match FetchGrammar.SkipItems(old(cur.Rest()))
            case None => !ok
            case Some(rest) => ok && cur.Rest() == rest
    decreases |cur.Rest()|, 1
  {
    hide FetchGrammar.SkipValue, Tokens.SkipSpaces;
    while true
      invariant cur.Valid() && FetchGrammar.SkipItems(cur.Rest()) == FetchGrammar.SkipItems(old(cur.Rest()))
      invariant |cur.Rest()| <= |old(cur.Rest())|
      decreases |cur.Rest()|
    {
      cur.SkipSpaces();
      ghost var s := cur.Rest();
      var close := cur.TryConsume(')');
      if close {
        return true;
      }
      if cur.pos >= |cur.text| {
        return false;
      }
      ok := SkipValue(cur);
      if !ok {
        return;
      }
    }
  }

  // ---- ENVELOPE ------------------------------------------------------------------

  /** The four members of one address, from behind its opening parenthesis. */
  method ParseAddress(cur: ParseCursor) returns (r: Outcome<FetchGrammar.Address>)
    requires cur.Valid()
    modifies cur`pos, cur`scratch, cur`generation
    ensures cur.Valid() && Matches(r, FetchGrammar.ReadAddress(old(cur.Rest())), cur.Rest())
  {
    hide ReadNstr, Tokens.SkipSpaces;
    var displayName := ReadNstrInto(cur);
    if !displayName.Done? { return Propagate(displayName); }
    cur.SkipSpaces();
    var adl := ReadNstrInto(cur);
    if !adl.Done? { return Propagate(adl); }
    cur.SkipSpaces();
    var mailboxName := ReadNstrInto(cur);
    if !mailboxName.Done? { return Propagate(mailboxName); }
    cur.SkipSpaces();
    var hostName := ReadNstrInto(cur);
    if !hostName.Done? { return Propagate(hostName); }
    var close := cur.TryConsume(')');
    if !close { return Failed; }
    r := Done(FetchGrammar.Address(displayName.value, adl.value, mailboxName.value, hostName.value));
  }

  function Propagate<T, U>(r: Outcome<T>): Outcome<U>
    requires !r.Done?
  {
    if r.Failed? then Failed else Stale
  }

  function After<T>(head: seq<T>, p: Parse<seq<T>>): Parse<seq<T>> {
    if p.Got? then Got(head + p.value, p.rest) else p
  }

  lemma AfterNothing<T>(p: Parse<seq<T>>)
    ensures After([], p) == p
  {
    if p.Got? {
      assert [] + p.value == p.value;
    }
  }

  lemma AfterOne<T>(head: seq<T>, x: T, p: Parse<seq<T>>)
    ensures After(head, After([x], p)) == After(head + [x], p)
  {
    if p.Got? {
      assert head + ([x] + p.value) == head + [x] + p.value;
    }
  }

  lemma AfterEnd<T>(head: seq<T>, rest: string)
    ensures After(head, Got([], rest)) == Got(head, rest)
  {
    assert head + [] == head;
  }

  /** `parse_address_list`: `NIL` is the empty list. */
  method ParseAddressList(cur: ParseCursor) returns (r: Outcome<seq<FetchGrammar.Address>>)
    requires cur.Valid()
    modifies cur`pos, cur`scratch, cur`generation
    ensures cur.Valid() && Matches(r, FetchGrammar.ReadAddresses(old(cur.Rest())), cur.Rest())
  {
    hide StartsWithNil, FetchGrammar.ReadAddress, FetchGrammar.ReadAddressItems;
    var nil := ConsumeNil(cur);
    if nil {
      return Done([]);
    }
    var list := cur.TryConsume('(');
    if !list {
      return Failed;
    }
    r := ParseAddressItems(cur);
  }

  lemma NextAddress(s: string)
    requires s != "" && s[0] == '(' && Tokens.SkipSpaces(s) == s
    ensures var p := FetchGrammar.ReadAddress(s[1..]);
            FetchGrammar.ReadAddressItems(s) ==
              if p.Got? then After([p.value], FetchGrammar.ReadAddressItems(p.rest)) else p.PropagateFailure()
  {
    hide FetchGrammar.ReadAddress;
  }

  lemma AddressItemsSpaces(t: string)
    ensures FetchGrammar.ReadAddressItems(t) == FetchGrammar.ReadAddressItems(Tokens.SkipSpaces(t))
    ensures Tokens.SkipSpaces(Tokens.SkipSpaces(t)) == Tokens.SkipSpaces(t)
    ensures Tokens.SkipSpaces(t) == "" ==> FetchGrammar.ReadAddressItems(t) == Fail
    ensures var s := Tokens.SkipSpaces(t);
            s != "" && s[0] != '(' ==> FetchGrammar.ReadAddressItems(t) == if s[0] == ')' then Got([], s[1..]) else Fail
  {
    FetchGrammar.AlreadyThere(Tokens.SkipSpaces(t));
    hide FetchGrammar.ReadAddress;
  }

  method ParseAddressItems(cur: ParseCursor) returns (r: Outcome<seq<FetchGrammar.Address>>)
    requires cur.Valid()
    modifies cur`pos, cur`scratch, cur`generation
    ensures cur.Valid() && Matches(r, FetchGrammar.ReadAddressItems(old(cur.Rest())), cur.Rest())
  {
    hide FetchGrammar.ReadAddress, FetchGrammar.ReadAddressItems, Tokens.SkipSpaces;
    var out := [];
    ghost var all := FetchGrammar.ReadAddressItems(cur.Rest());
    AfterNothing(all);
    while true
      invariant cur.Valid() && all == After(out, FetchGrammar.ReadAddressItems(cur.Rest()))
      decreases |cur.Rest()|
    {
      AddressItemsSpaces(cur.Rest());
      cur.SkipSpaces();
      ghost var s := cur.Rest();
      var close := cur.TryConsume(')');
      if close {
        AfterEnd(out, cur.Rest());
        return Done(out);
      }
      if cur.pos >= |cur.text| {
        return Failed;
      }
      var open := cur.TryConsume('(');
      if !open {
        return Failed;
      }
      NextAddress(s);
      var address := ParseAddress(cur);
      if !address.Done? {
        return Propagate(address);
      }
      AfterOne(out, address.value, FetchGrammar.ReadAddressItems(cur.Rest()));
      out := out + [address.value];
    }
  }

  method ParseLists(cur: ParseCursor) returns (r: Outcome<FetchGrammar.Lists>)
    requires cur.Valid()
    modifies cur`pos, cur`scratch, cur`generation
    ensures cur.Valid() && Matches(r, FetchGrammar.ReadLists(old(cur.Rest())), cur.Rest())
  {
    hide Tokens.SkipSpaces, FetchGrammar.ReadAddresses;
    var from := ParseAddressList(cur);
    if !from.Done? { return Propagate(from); }
    cur.SkipSpaces();
    var sender := ParseAddressList(cur);
    if !sender.Done? { return Propagate(sender); }
    cur.SkipSpaces();
    var replyTo := ParseAddressList(cur);
    if !replyTo.Done? { return Propagate(replyTo); }
    cur.SkipSpaces();
    var to := ParseAddressList(cur);
    if !to.Done? { return Propagate(to); }
    cur.SkipSpaces();
    var cc := ParseAddressList(cur);
    if !cc.Done? { return Propagate(cc); }
    cur.SkipSpaces();
    var bcc := ParseAddressList(cur);
    if !bcc.Done? { return Propagate(bcc); }
    r := Done(FetchGrammar.Lists(from.value, sender.value, replyTo.value, to.value, cc.value, bcc.value));
  }

  /** `parse_envelope`. */
  method ParseEnvelope(cur: ParseCursor) returns (r: Outcome<FetchGrammar.Envelope>)
    requires cur.Valid()
    modifies cur`pos, cur`scratch, cur`generation
    ensures cur.Valid() && Matches(r, FetchGrammar.ReadEnvelope(old(cur.Rest())), cur.Rest())
  {
    hide ReadNstr, Tokens.SkipSpaces, FetchGrammar.ReadLists, FetchGrammar.ReadEnvelopeEnd;
    var open := cur.TryConsume('(');
    if !open { return Failed; }
    var date := ReadNstrInto(cur);
    if !date.Done? { return Propagate(date); }
    cur.SkipSpaces();
    var subject := ReadNstrInto(cur);
    if !subject.Done? { return Propagate(subject); }
    cur.SkipSpaces();
    var lists := ParseLists(cur);
    if !lists.Done? { return Propagate(lists); }
    cur.SkipSpaces();
    r := ParseEnvelopeEnd(cur, date.value, subject.value, lists.value);
  }

  method ParseEnvelopeEnd(cur: ParseCursor, date: string, subject: string, l: FetchGrammar.Lists)
    returns (r: Outcome<FetchGrammar.Envelope>)
    requires cur.Valid()
    modifies cur`pos, cur`scratch, cur`generation
    ensures cur.Valid() && Matches(r, FetchGrammar.ReadEnvelopeEnd(date, subject, l, old(cur.Rest())), cur.Rest())
  {
    hide ReadNstr, Tokens.SkipSpaces;
    var inReplyTo := ReadNstrInto(cur);
    if !inReplyTo.Done? { return Propagate(inReplyTo); }
    cur.SkipSpaces();
    var messageId := ReadNstrInto(cur);
    if !messageId.Done? { return Propagate(messageId); }
    var close := cur.TryConsume(')');
    if !close { return Failed; }
    r := Done(FetchGrammar.Envelope(date, subject, l.from, l.sender, l.replyTo, l.to, l.cc, l.bcc,
                                    inReplyTo.value, messageId.value));
  }

  // ---- BODYSTRUCTURE -----------------------------------------------------------------

  lemma NextParam(s: string)
    requires s != "" && s[0] != ')' && Tokens.SkipSpaces(s) == s
    ensures var p := ReadPair(s);
            ReadParamItems(s) == if p.Got? then After([p.value], ReadParamItems(p.rest)) else p.PropagateFailure()
  {
    hide ReadPair;
  }

  lemma ParamItemsSpaces(t: string)
    ensures ReadParamItems(t) == ReadParamItems(Tokens.SkipSpaces(t))
    ensures Tokens.SkipSpaces(Tokens.SkipSpaces(t)) == Tokens.SkipSpaces(t)
    ensures Tokens.SkipSpaces(t) == "" ==> ReadParamItems(t) == Fail
    ensures var s := Tokens.SkipSpaces(t); s != "" && s[0] == ')' ==> ReadParamItems(t) == Got([], s[1..])
  {
    FetchGrammar.AlreadyThere(Tokens.SkipSpaces(t));
    hide ReadPair;
  }

  /** One pair. Both are views; the name is copied only after the value was read, when its view may be dead. */
  method ParsePair(cur: ParseCursor) returns (r: Outcome<Param>)
    requires cur.Valid()
    modifies cur`pos, cur`scratch, cur`generation
    ensures cur.Valid() && Matches(r, ReadPair(old(cur.Rest())), cur.Rest())
  {
    hide ReadAstring, Tokens.SkipSpaces;
    NstringNeverDangles(cur.Rest());
    var name := cur.ReadAstring();
    if name == None {
      return Failed;
    }
    cur.SkipSpaces();
    NstringNeverDangles(cur.Rest());
    var value := cur.ReadAstring();
    if value == None {
      return Failed;
    }
    if !cur.Live(name.value) {
      return Stale;
    }
    r := Done(Param(cur.Text(name.value), cur.Text(value.value)));
  }

  method ParseParamItems(cur: ParseCursor) returns (r: Outcome<seq<Param>>)
    requires cur.Valid()
    modifies cur`pos, cur`scratch, cur`generation
    ensures cur.Valid() && Matches(r, ReadParamItems(old(cur.Rest())), cur.Rest())
  {
    hide ReadPair, ReadParamItems, Tokens.SkipSpaces;
    var out := [];
    ghost var all := ReadParamItems(cur.Rest());
    AfterNothing(all);
    while true
      invariant cur.Valid() && all == After(out, ReadParamItems(cur.Rest()))
      decreases |cur.Rest()|
    {
      ParamItemsSpaces(cur.Rest());
      cur.SkipSpaces();
      ghost var s := cur.Rest();
      var close := cur.TryConsume(')');
      if close {
        AfterEnd(out, cur.Rest());
        return Done(out);
      }
      if cur.pos >= |cur.text| {
        return Failed;
      }
      NextParam(s);
      var pair := ParsePair(cur);
      if !pair.Done? {
        return Propagate(pair);
      }
      AfterOne(out, pair.value, ReadParamItems(cur.Rest()));
      out := out + [pair.value];
    }
  }

  /** `parse_body_params`. */
  method ParseBodyParams(cur: ParseCursor) returns (r: Outcome<seq<Param>>)
    requires cur.Valid()
    modifies cur`pos, cur`scratch, cur`generation
    ensures cur.Valid() && Matches(r, ReadParams(old(cur.Rest())), cur.Rest())
  {
    hide StartsWithNil, ReadParamItems;
    var nil := ConsumeNil(cur);
    if nil {
      return Done([]);
    }
    var list := cur.TryConsume('(');
    if !list {
      return Failed;
    }
    r := ParseParamItems(cur);
  }

  lemma NextExtension(t: string)
    requires t != "" && t[0] != ')'
    ensures FetchGrammar.SkipTail(t) ==
              match FetchGrammar.SkipValue(t)
              case None => None
              case Some(r) => FetchGrammar.SkipTail(Tokens.SkipSpaces(r))
  {
    hide FetchGrammar.SkipValue;
  }

  lemma NoExtension(t: string)
    requires t == "" || t[0] == ')'
    ensures FetchGrammar.SkipTail(t) == Some(t)
  {
  }

  /** The extension tail and the closing parenthesis. */
  method ParseEnd(cur: ParseCursor) returns (ok: bool)
    requires cur.Valid()
    modifies cur`pos, cur`scratch, cur`generation
    ensures cur.Valid()
    ensures match ReadEnd(old(cur.Rest()))
            case Got(_, rest) => ok && cur.Rest() == rest
            case _ => !ok
    ensures ReadEnd(old(cur.Rest())) != Dangling
  {
    hide FetchGrammar.SkipTail, FetchGrammar.SkipValue, Tokens.SkipSpaces;
    cur.SkipSpaces();
    ghost var all := FetchGrammar.SkipTail(cur.Rest());
    while cur.pos < |cur.text| && cur.PeekChar() != ')'
      invariant cur.Valid() && FetchGrammar.SkipTail(cur.Rest()) == all
      decreases |cur.Rest()|
    {
      NextExtension(cur.Rest());
      ok := SkipValue(cur);
      if !ok {
        return;
      }
      cur.SkipSpaces();
    }
    NoExtension(cur.Rest());
    ok := cur.TryConsume(')');
  }

  /** A string as it is assigned to a member at once, while its view is alive. */
  method ReadText(cur: ParseCursor) returns (r: Outcome<string>)
    requires cur.Valid()
    modifies cur`pos, cur`scratch, cur`generation
    ensures cur.Valid()
    ensures match ReadAstring(old(cur.Rest()))
            case Got(token, rest) => r == Done(token.text) && cur.Rest() == rest
            case p => r == Failed && p == Fail
  {
    hide ReadAstring;
    NstringNeverDangles(cur.Rest());
    var v := cur.ReadAstring();
    if v == None {
      return Failed;
    }
    r := Done(cur.Text(v.value));
  }

  lemma NumberNeverDangles(t: string)
    ensures Tokens.ReadNumber(t) != Dangling
  {
  }

  method ParseFields(cur: ParseCursor) returns (r: Outcome<Fields>)
    requires cur.Valid()
    modifies cur`pos, cur`scratch, cur`generation
    ensures cur.Valid() && Matches(r, ReadFields(old(cur.Rest())), cur.Rest())
  {
    hide ReadAstring, ReadNstr, Tokens.SkipSpaces, Tokens.ReadNumber, ReadEnd;
    var id := ReadNstrInto(cur);
    if !id.Done? { return Propagate(id); }
    cur.SkipSpaces();
    var description := ReadNstrInto(cur);
    if !description.Done? { return Propagate(description); }
    cur.SkipSpaces();
    var encoding := ReadText(cur);
    if !encoding.Done? { return Failed; }
    cur.SkipSpaces();
    NumberNeverDangles(cur.Rest());
    var octets := cur.ReadNumber();
    if octets == None { return Failed; }
    var close := ParseEnd(cur);
    if !close { return Failed; }
    r := Done(Fields(id.value, description.value, encoding.value, octets.value));
  }

  /** A basic part, from its media type on. */
  method ParseBasic(cur: ParseCursor) returns (r: Outcome<Body>)
    requires cur.Valid()
    modifies cur`pos, cur`scratch, cur`generation
    ensures cur.Valid() && Matches(r, ReadBasic(old(cur.Rest())), cur.Rest())
  {
    hide ReadAstring, Tokens.SkipSpaces, ReadParams, ReadFields;
    var mediaType := ReadText(cur);
    if !mediaType.Done? { return Failed; }
    cur.SkipSpaces();
    var subtype := ReadText(cur);
    if !subtype.Done? { return Failed; }
    cur.SkipSpaces();
    var parameters := ParseBodyParams(cur);
    if !parameters.Done? { return Propagate(parameters); }
    cur.SkipSpaces();
    var fields := ParseFields(cur);
    if !fields.Done? { return Propagate(fields); }
    var f := fields.value;
    r := Done(Basic(mediaType.value, subtype.value, parameters.value, f.id, f.description, f.encoding, f.octets));
  }

  /** `parse_body_structure`. */
  method ParseBodyStructure(cur: ParseCursor, depth: nat) returns (r: Outcome<Body>)
    requires cur.Valid()
    modifies cur`pos, cur`scratch, cur`generation
    ensures cur.Valid() && Matches(r, ReadBody(old(cur.Rest()), depth), cur.Rest())
    decreases |cur.Rest()|, 0
  {
    hide ReadAstring, Tokens.SkipSpaces, ReadBasic, ReadParts, ReadEnd;
    if depth > MAX_DEPTH {
      return Failed;
    }
    var open := cur.TryConsume('(');
    if !open {
      return Failed;
    }
    cur.SkipSpaces();
    if cur.PeekChar() != '(' {
      r := ParseBasic(cur);
      return;
    }
    var parts := ParseParts(cur, depth);
    if !parts.Done? { return Propagate(parts); }
    var subtype := ReadText(cur);
    if !subtype.Done? { return Failed; }
    var close := ParseEnd(cur);
    if !close { return Failed; }
    r := Done(Multipart(parts.value, subtype.value));
  }

  lemma NextPart(s: string, depth: nat)
    requires Peek(s) == '('
    ensures var p := ReadBody(s, depth + 1);
            ReadParts(s, depth) ==
              if p.Got? then After([p.value], ReadParts(Tokens.SkipSpaces(p.rest), depth)) else p.PropagateFailure()
  {
    hide ReadBody, Tokens.SkipSpaces;
  }

  lemma LastPart(s: string, depth: nat)
    requires Peek(s) != '('
    ensures ReadParts(s, depth) == Got([], s)
  {
    hide ReadBody;
  }

  /** The child parts of a multipart, as long as an opening parenthesis follows. */
  method ParseParts(cur: ParseCursor, depth: nat) returns (r: Outcome<seq<Body>>)
    requires cur.Valid()
    modifies cur`pos, cur`scratch, cur`generation
    ensures cur.Valid() && Matches(r, ReadParts(old(cur.Rest()), depth), cur.Rest())
    decreases |cur.Rest()|, 1
  {
    hide ReadBody, ReadParts, Tokens.SkipSpaces;
    var out := [];
    ghost var all := ReadParts(cur.Rest(), depth);
    AfterNothing(all);
    while cur.PeekChar() == '('
      invariant cur.Valid() && all == After(out, ReadParts(cur.Rest(), depth)) && |cur.Rest()| <= |old(cur.Rest())|
      decreases |cur.Rest()|
    {
      NextPart(cur.Rest(), depth);
      var part := ParseBodyStructure(cur, depth + 1);
      if !part.Done? {
        return Propagate(part);
      }
      cur.SkipSpaces();
      AfterOne(out, part.value, ReadParts(cur.Rest(), depth));
      out := out + [part.value];
    }
    LastPart(cur.Rest(), depth);
    AfterEnd(out, cur.Rest());
    r := Done(out);
  }
}
