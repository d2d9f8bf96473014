/** All attributes of a FETCH response (section 7.4.2 of RFC 3501): how a list is read, and what it reads to. */
module FetchAttributes {
  import opened BodyGrammar
  import opened Decimal
  import opened FetchGrammar
  import opened FetchParse
  import opened FetchWalk
  import opened FlagSets
  import opened ParseCursors
  import opened Tokens
  import opened Wrappers

  datatype BodySection = BodySection(specifier: string, data: string)

  datatype Attributes = Attributes(flags: FlagSet, internalDate: string, size: nat, envelope: Option<Envelope>,
                                   bodyStructure: Option<Body>, sections: seq<BodySection>, uid: nat)

  const NO_ATTRIBUTES := Attributes(NO_FLAGS, "", 0, None, None, [], 0)

  const TWO_TO_THE_32: nat := 0x1_0000_0000

  // ---- Reading -----------------------------------------------------------------------

  /** A section name with something between its brackets. */
  predicate NamesSection(key: string) {
    |key| > 6 && IEquals(key[..5], "BODY[") && key[|key| - 1] == ']'
  }

  /** Values other than flags, message numbers and sections. */
  function ReadOther(key: string, v: string, seen: Attributes): (p: Parse<Attributes>)
    ensures p.Got? ==> |p.rest| <= |v|
  {
    if IEquals(key, "INTERNALDATE") then
      var (date, rest) :- ReadAstring(v);
      Got(seen.(internalDate := date.text), rest)
    else if IEquals(key, "RFC822.SIZE") then
      var (size, rest) :- ReadNumber(v);
      Got(seen.(size := size), rest)
    else if IEquals(key, "ENVELOPE") then
      var (envelope, rest) :- ReadEnvelope(v);
      Got(seen.(envelope := Some(envelope)), rest)
    else if IEquals(key, "BODYSTRUCTURE") then
      var (body, rest) :- ReadBody(v, 0);
      Got(seen.(bodyStructure := Some(body)), rest)
    else
      match FetchGrammar.SkipValue(v)
      case None => Fail
      case Some(rest) => Got(seen, rest)
  }

  /** One value, as its name says; values of other names are read over. */
  function ReadAttribute(key: string, v: string, seen: Attributes): (p: Parse<Attributes>)
    ensures p.Got? ==> |p.rest| <= |v|
  {
    if NamesSection(key) then
      var (data, rest) :- ReadNstring(v);
      Got(seen.(sections := seen.sections + [BodySection(key[5..|key| - 1], if data.Some? then data.value else "")]), rest)
    else if IEquals(key, "FLAGS") then
      var (flags, rest) :- ReadFlags(v, seen.flags);
      Got(seen.(flags := flags), rest)
    else if IEquals(key, "UID") then
      var (uid, rest) :- ReadNumber(v);
      Got(seen.(uid := uid % TWO_TO_THE_32), rest)
    else ReadOther(key, v, seen)
  }

  /** The attributes from `t` on, added to those seen so far. */
  function WalkAttributes(t: string, seen: Attributes): Outcome<Attributes>
    decreases |t|
  {
    var s := SkipSpaces(t);
    if s == "" then Failed
    else if s[0] == ')' then Done(seen)
    else
      var k := KeyLength(s, 0);
      if k == 0 then Failed
      else
        match ReadAttribute(s[..k], SkipSpaces(s[k..]), seen)
        case Fail => Failed
        case Dangling => Stale
        case Got(now, rest) => WalkAttributes(rest, now)
  }

  function ReadAttributes(list: string): Outcome<Attributes> {
    if list == "" || list[0] != '(' then Failed else WalkAttributes(list[1..], NO_ATTRIBUTES)
  }

  // ---- The loops -----------------------------------------------------------------------

  method NamedFlag(out: FlagSet, name: string) returns (f: FlagSet)
    ensures f == SetFlag(out, name)
  {
    hide IEquals;
    f := out;
    var seen := AsciiIEquals(name, "\\Seen");
    var answered := AsciiIEquals(name, "\\Answered");
    var flagged := AsciiIEquals(name, "\\Flagged");
    var deleted := AsciiIEquals(name, "\\Deleted");
    var draft := AsciiIEquals(name, "\\Draft");
    var recent := AsciiIEquals(name, "\\Recent");
    if seen {
      f := f.(seen := true);
    } else if answered {
      f := f.(answered := true);
    } else if flagged {
      f := f.(flagged := true);
    } else if deleted {
      f := f.(deleted := true);
    } else if draft {
      f := f.(draft := true);
    } else if recent {
      f := f.(recent := true);
    }
  }

  lemma FlagStep(t: string, f: FlagSet)
    ensures var s := SkipSpaces(t);
            && (s == "" ==> ReadFlagItems(t, f) == Fail)
            && (s != "" && s[0] == ')' ==> ReadFlagItems(t, f) == Got(f, s[1..]))
            && (s != "" && s[0] != ')' ==>
                  var k := StopLength(s, FLAG_STOPS);
                  ReadFlagItems(t, f) == if k == 0 then Fail else ReadFlagItems(s[k..], SetFlag(f, s[..k])))
  {
    hide SetFlag, StopLength;
  }

  /** `parse_flag_list`. */
  method ParseFlagList(cur: ParseCursor, out: FlagSet) returns (r: Outcome<FlagSet>)
    requires cur.Valid()
    modifies cur`pos
    ensures cur.Valid() && Matches(r, ReadFlags(old(cur.Rest()), out), cur.Rest())
  {
    hide ReadFlagItems, SetFlag, Tokens.SkipSpaces, StopLength;
    var open := cur.TryConsume('(');
    if !open {
      return Failed;
    }
    var flags := out;
    ghost var all := ReadFlagItems(cur.Rest(), out);
    while true
      invariant cur.Valid() && all == ReadFlagItems(cur.Rest(), flags) && all != Dangling
      decreases |cur.Rest()|
    {
      FlagStep(cur.Rest(), flags);
      SpacesShrink(cur.Rest());
      cur.SkipSpaces();
      var close := cur.TryConsume(')');
      if close {
        return Done(flags);
      }
      if cur.pos == |cur.text| {
        return Failed;
      }
      var name := cur.ReadUntilAny(FLAG_STOPS);
      if cur.Text(name) == "" {
        return Failed;
      }
      flags := NamedFlag(flags, cur.Text(name));
    }
  }

  lemma SpacesShrink(t: string)
    ensures |SkipSpaces(t)| <= |t|
  {
  }

  method KeyNamesSection(key: string) returns (yes: bool)
    ensures yes == NamesSection(key)
  {
    if |key| <= 6 || key[|key| - 1] != ']' {
      return false;
    }
    yes := AsciiIEquals(key[..5], "BODY[");
  }

  /** The sink of `parse_fetch_attributes`: one value on a fresh cursor. */
  method AttributeValue(cur: ParseCursor, key: string, seen: Attributes) returns (r: Outcome<Attributes>)
    requires cur.Valid()
    modifies cur`pos, cur`scratch, cur`generation
    ensures cur.Valid() && Matches(r, ReadAttribute(key, old(cur.Rest()), seen), cur.Rest())
  {
    hide ReadNstring, ReadFlags, Tokens.ReadNumber, ReadOther, IEquals;
    NstringNeverDangles(cur.Rest());
    var section := KeyNamesSection(key);
    if section {
      var v := cur.ReadNstring();
      if v == None {
        return Failed;
      }
      var data := if v.value == None then "" else cur.Text(v.value.value);
      return Done(seen.(sections := seen.sections + [BodySection(key[5..|key| - 1], data)]));
    }
    var named := AsciiIEquals(key, "FLAGS");
    if named {
      var flags := ParseFlagList(cur, seen.flags);
      if !flags.Done? { return Propagate(flags); }
      return Done(seen.(flags := flags.value));
    }
    named := AsciiIEquals(key, "UID");
    if named {
      NumberNeverDangles(cur.Rest());
      var uid := cur.ReadNumber();
      if uid == None { return Failed; }
      return Done(seen.(uid := uid.value % TWO_TO_THE_32));
    }
    r := OtherValue(cur, key, seen);
  }

  method OtherValue(cur: ParseCursor, key: string, seen: Attributes) returns (r: Outcome<Attributes>)
    requires cur.Valid()
    modifies cur`pos, cur`scratch, cur`generation
    ensures cur.Valid() && Matches(r, ReadOther(key, old(cur.Rest()), seen), cur.Rest())
  {
    hide Tokens.ReadNumber, ReadAstring, ReadEnvelope, ReadBody, FetchGrammar.SkipValue, IEquals;
    NstringNeverDangles(cur.Rest());
    var named := AsciiIEquals(key, "INTERNALDATE");
    if named {
      var date := cur.ReadAstring();
      if date == None { return Failed; }
      return Done(seen.(internalDate := cur.Text(date.value)));
    }
    named := AsciiIEquals(key, "RFC822.SIZE");
    if named {
      NumberNeverDangles(cur.Rest());
      var size := cur.ReadNumber();
      if size == None { return Failed; }
      return Done(seen.(size := size.value));
    }
    named := AsciiIEquals(key, "ENVELOPE");
    if named {
      var envelope := ParseEnvelope(cur);
      if !envelope.Done? { return Propagate(envelope); }
      return Done(seen.(envelope := Some(envelope.value)));
    }
    named := AsciiIEquals(key, "BODYSTRUCTURE");
    if named {
      var body := ParseBodyStructure(cur, 0);
      if !body.Done? { return Propagate(body); }
      return Done(seen.(bodyStructure := Some(body.value)));
    }
    var skipped := FetchParse.SkipValue(cur);
    r := if skipped then Done(seen) else Failed;
  }

  lemma WalkAt(t: string, seen: Attributes)
    ensures var s := SkipSpaces(t);
            && (s == "" ==> WalkAttributes(t, seen) == Failed)
            && (s != "" && s[0] == ')' ==> WalkAttributes(t, seen) == Done(seen))
            && (s != "" && s[0] != ')' ==>
                  var k := KeyLength(s, 0);
                  WalkAttributes(t, seen) == if k == 0 then Failed else WalkOn(ReadAttribute(s[..k], SkipSpaces(s[k..]), seen)))
  {
    hide KeyLength, ReadAttribute;
  }

  lemma WalkStops(t: string, seen: Attributes)
    ensures var s := SkipSpaces(t);
            && (s == "" ==> WalkAttributes(t, seen) == Failed)
            && (s != "" && s[0] == ')' ==> WalkAttributes(t, seen) == Done(seen))
  {
    WalkAt(t, seen);
    hide WalkAttributes, KeyLength, ReadAttribute;
  }

  lemma WalkKey(t: string, seen: Attributes, s: string, k: nat)
    requires s == SkipSpaces(t) && s != "" && s[0] != ')' && k == KeyLength(s, 0)
    ensures WalkAttributes(t, seen) == if k == 0 then Failed else WalkOn(ReadAttribute(s[..k], SkipSpaces(s[k..]), seen))
  {
    WalkAt(t, seen);
    hide WalkAttributes, KeyLength, ReadAttribute, SkipSpaces, WalkOn;
  }

  function WalkOn(p: Parse<Attributes>): Outcome<Attributes> {
    match p
    case Fail => Failed
    case Dangling => Stale
    case Got(now, rest) => WalkAttributes(rest, now)
  }

  lemma AttributeShrinks(key: string, v: string, seen: Attributes)
    ensures var p := ReadAttribute(key, v, seen); p.Got? ==> |p.rest| <= |v|
  {
  }

  /** `parse_fetch_attributes`. */
  method ParseFetchAttributes(list: string) returns (r: Outcome<Attributes>)
    ensures r == ReadAttributes(list)
  {
    hide WalkAttributes, KeyLength, ReadAttribute, SkipSpaces;
    if list == "" || list[0] != '(' {
      return Failed;
    }
    var rest, out := list[1..], NO_ATTRIBUTES;
    ghost var all := WalkAttributes(rest, out);
    while true
      invariant all == WalkAttributes(rest, out)
      decreases |rest|
    {
      WalkStops(rest, out);
      SpacesShrink(rest);
      var s := DropSpaces(rest);
      if s == "" {
        return Failed;
      }
      if s[0] == ')' {
        return Done(out);
      }
      var end := KeyEnd(s);
      WalkKey(rest, out, s, end);
      if end == 0 {
        return Failed;
      }
      var v := DropSpaces(s[end..]);
      SpacesShrink(s[end..]);
      AttributeShrinks(s[..end], v, out);
      var cur := new ParseCursor(v);
      var value := AttributeValue(cur, s[..end], out);
      if !value.Done? {
        return Propagate(value);
      }
      out := value.value;
      rest := cur.Rest();
    }
  }

  // ---- Round trip -------------------------------------------------------------------------

  /** What a server may put in a list; the structure carries extension data, and any other attribute a value of any kind. */
  datatype Item =
    | FlagsItem(flags: FlagSet)
    | UidItem(number: nat)
    | DateItem(date: string)
    | SizeItem(number: nat)
    | EnvelopeItem(envelope: Envelope)
    | StructureItem(node: Node)
    | SectionItem(specifier: string, data: string)
    | OtherItem(key: string, value: Sexp)

  function Key(i: Item): string {
    match i
    case FlagsItem(_) => "FLAGS"
    case UidItem(_) => "UID"
    case DateItem(_) => "INTERNALDATE"
    case SizeItem(_) => "RFC822.SIZE"
    case EnvelopeItem(_) => "ENVELOPE"
    case StructureItem(_) => "BODYSTRUCTURE"
    case SectionItem(specifier, _) => "BODY[" + specifier + "]"
    case OtherItem(key, _) => key
  }

  function Value(i: Item): string {
    match i
    case FlagsItem(flags) => PrintFlags(flags)
    case UidItem(n) => Digits(n)
    case DateItem(date) => PrintString(date)
    case SizeItem(n) => Digits(n)
    case EnvelopeItem(e) => PrintEnvelope(e)
    case StructureItem(n) => PrintNode(n)
    case SectionItem(_, data) => PrintString(data)
    case OtherItem(_, value) => PrintSexp(value)
  }

  predicate KnownKey(key: string) {
    NamesSection(key) || IEquals(key, "FLAGS") || IEquals(key, "UID") || IEquals(key, "INTERNALDATE")
    || IEquals(key, "RFC822.SIZE") || IEquals(key, "ENVELOPE") || IEquals(key, "BODYSTRUCTURE")
  }

  /** Lengths and numbers the code can hold, names that stop where they should. A bare `BODY[]` is an other attribute. */
  predicate GoodItem(i: Item) {
    match i
    case FlagsItem(_) => true
    case UidItem(n) => n < TWO_TO_THE_64
    case DateItem(date) => Fits(date)
    case SizeItem(n) => n < TWO_TO_THE_64
    case EnvelopeItem(e) => GoodEnvelope(e)
    case StructureItem(n) => GoodNode(n)
    case SectionItem(specifier, data) => specifier != "" && '[' !in specifier && ']' !in specifier && Fits(data)
    case OtherItem(key, value) => WholeKey(key) && !KnownKey(key) && WireSexp(value)
  }

  predicate Readable(i: Item) {
    match i
    case StructureItem(n) => Clean(n) && Shallow(n, MAX_DEPTH)
    case OtherItem(_, value) => Skippable(value)
    case _ => true
  }

  function Apply(seen: Attributes, i: Item): Attributes {
    match i
    case FlagsItem(flags) => seen.(flags := seen.flags.Union(flags))
    case UidItem(n) => seen.(uid := n % TWO_TO_THE_32)
    case DateItem(date) => seen.(internalDate := date)
    case SizeItem(n) => seen.(size := n)
    case EnvelopeItem(e) => seen.(envelope := Some(e))
    case StructureItem(n) => seen.(bodyStructure := Some(Parsed(n)))
    case SectionItem(specifier, data) => seen.(sections := seen.sections + [BodySection(specifier, data)])
    case OtherItem(_, _) => seen
  }

  function ApplyAll(seen: Attributes, items: seq<Item>): Attributes
    decreases |items|
  {
    if items == [] then seen else ApplyAll(Apply(seen, items[0]), items[1..])
  }

  /** The items, each behind a space, and the end of the list. */
  function ItemsThen(items: seq<Item>): string {
    if items == [] then ")" else " " + (Key(items[0]) + (" " + (Value(items[0]) + ItemsThen(items[1..]))))
  }

  function PrintList(items: seq<Item>): string {
    "(" + ItemsThen(items)[if items == [] then 0 else 1..]
  }

  lemma NumberThen(n: nat, rest: string)
    requires n < TWO_TO_THE_64 && Ends(rest)
    ensures Tokens.ReadNumber(Digits(n) + rest) == Got(n, rest)
  {
    NumberRoundTrip(n, rest);
  }

  lemma FirstKeys(v: string, seen: Attributes)
    ensures ReadAttribute("FLAGS", v, seen) ==
            var (flags, rest) :- ReadFlags(v, seen.flags);
            Got(seen.(flags := flags), rest)
    ensures ReadAttribute("UID", v, seen) ==
            var (uid, rest) :- ReadNumber(v);
            Got(seen.(uid := uid % TWO_TO_THE_32), rest)
  {
    hide ReadFlags, Tokens.ReadNumber, ReadOther;
  }

  /** The names are told apart by their lengths. */
  lemma OtherKeys(v: string, seen: Attributes)
    ensures ReadAttribute("INTERNALDATE", v, seen) == ReadOther("INTERNALDATE", v, seen)
    ensures ReadAttribute("RFC822.SIZE", v, seen) == ReadOther("RFC822.SIZE", v, seen)
    ensures ReadAttribute("ENVELOPE", v, seen) == ReadOther("ENVELOPE", v, seen)
    ensures ReadAttribute("BODYSTRUCTURE", v, seen) == ReadOther("BODYSTRUCTURE", v, seen)
  {
    hide ReadFlags, Tokens.ReadNumber, ReadOther;
  }

  lemma DateAndSize(v: string, seen: Attributes)
    ensures ReadOther("INTERNALDATE", v, seen) ==
            var (date, rest) :- ReadAstring(v);
            Got(seen.(internalDate := date.text), rest)
    ensures ReadOther("RFC822.SIZE", v, seen) ==
            var (size, rest) :- ReadNumber(v);
            Got(seen.(size := size), rest)
  {
    hide Tokens.ReadNumber, ReadAstring, ReadEnvelope, ReadBody, FetchGrammar.SkipValue;
  }

  lemma EnvelopeAndStructure(v: string, seen: Attributes)
    ensures ReadOther("ENVELOPE", v, seen) ==
            var (envelope, rest) :- ReadEnvelope(v);
            Got(seen.(envelope := Some(envelope)), rest)
    ensures ReadOther("BODYSTRUCTURE", v, seen) ==
            var (body, rest) :- ReadBody(v, 0);
            Got(seen.(bodyStructure := Some(body)), rest)
  {
    hide Tokens.ReadNumber, ReadAstring, ReadEnvelope, ReadBody, FetchGrammar.SkipValue;
  }

  lemma UnknownKey(key: string, v: string, seen: Attributes)
    requires !KnownKey(key)
    ensures ReadAttribute(key, v, seen) ==
            match FetchGrammar.SkipValue(v)
            case None => Fail
            case Some(rest) => Got(seen, rest)
  {
    hide IEquals, NamesSection, FetchGrammar.SkipValue;
  }

  lemma SectionKey(specifier: string)
    requires specifier != ""
    ensures var key := "BODY[" + specifier + "]"; NamesSection(key) && key[5..|key| - 1] == specifier
  {
    var key := "BODY[" + specifier + "]";
    assert key[..5] == "BODY[";
  }

  lemma FlagsReads(flags: FlagSet, rest: string, seen: Attributes)
    ensures ReadAttribute("FLAGS", PrintFlags(flags) + rest, seen) == Got(seen.(flags := seen.flags.Union(flags)), rest)
  {
    hide ReadAttribute, PrintFlags, ReadFlags;
    FirstKeys(PrintFlags(flags) + rest, seen);
    FlagsRoundTrip(flags, rest, seen.flags);
  }

  lemma NumberReads(n: nat, rest: string, seen: Attributes)
    requires n < TWO_TO_THE_64 && Ends(rest)
    ensures ReadAttribute("UID", Digits(n) + rest, seen) == Got(seen.(uid := n % TWO_TO_THE_32), rest)
    ensures ReadAttribute("RFC822.SIZE", Digits(n) + rest, seen) == Got(seen.(size := n), rest)
  {
    hide ReadAttribute, ReadOther, Digits, Tokens.ReadNumber;
    var t := Digits(n) + rest;
    FirstKeys(t, seen);
    OtherKeys(t, seen);
    DateAndSize(t, seen);
    NumberThen(n, rest);
  }

  lemma DateReads(date: string, rest: string, seen: Attributes)
    requires Fits(date)
    ensures ReadAttribute("INTERNALDATE", PrintString(date) + rest, seen) == Got(seen.(internalDate := date), rest)
  {
    hide ReadAttribute, ReadOther, PrintString, ReadAstring, Scratched;
    var t := PrintString(date) + rest;
    OtherKeys(t, seen);
    DateAndSize(t, seen);
    AstringRoundTrip(date, rest);
  }

  lemma EnvelopeReads(e: Envelope, rest: string, seen: Attributes)
    requires GoodEnvelope(e)
    ensures ReadAttribute("ENVELOPE", PrintEnvelope(e) + rest, seen) == Got(seen.(envelope := Some(e)), rest)
  {
    hide ReadAttribute, ReadOther, PrintEnvelope, ReadEnvelope, GoodEnvelope;
    var t := PrintEnvelope(e) + rest;
    OtherKeys(t, seen);
    EnvelopeAndStructure(t, seen);
    EnvelopeRoundTrip(e, rest);
  }

  lemma StructureReads(n: Node, rest: string, seen: Attributes)
    requires GoodNode(n)
    ensures var p := ReadAttribute("BODYSTRUCTURE", PrintNode(n) + rest, seen);
            if Clean(n) && Shallow(n, MAX_DEPTH) then p == Got(seen.(bodyStructure := Some(Parsed(n))), rest) else !p.Got?
  {
    hide ReadAttribute, ReadOther, PrintNode, ReadBody, GoodNode, Clean, Shallow, Parsed;
    var t := PrintNode(n) + rest;
    OtherKeys(t, seen);
    EnvelopeAndStructure(t, seen);
    BodyStructureRoundTrip(n, rest);
  }

  lemma SectionReads(specifier: string, data: string, rest: string, seen: Attributes)
    requires specifier != "" && Fits(data)
    ensures ReadAttribute("BODY[" + specifier + "]", PrintString(data) + rest, seen)
            == Got(seen.(sections := seen.sections + [BodySection(specifier, data)]), rest)
  {
    hide NamesSection, IEquals, ReadNstring, PrintString, ReadOther;
    SectionKey(specifier);
    NstringRoundTrip(data, rest);
  }

  lemma OtherReads(key: string, value: Sexp, rest: string, seen: Attributes)
    requires !KnownKey(key) && WireSexp(value) && Ends(rest)
    ensures ReadAttribute(key, PrintSexp(value) + rest, seen) == if Skippable(value) then Got(seen, rest) else Fail
  {
    hide ReadAttribute, KnownKey, WireSexp, Skippable, PrintSexp, FetchGrammar.SkipValue;
    UnknownKey(key, PrintSexp(value) + rest, seen);
    SexpSkipped(value, rest);
  }

  /** One value is read to what the item says, unless it is a structure beyond the reader. */
  lemma ItemReads(i: Item, rest: string, seen: Attributes)
    requires GoodItem(i) && Ends(rest)
    ensures var p := ReadAttribute(Key(i), Value(i) + rest, seen);
            if Readable(i) then p == Got(Apply(seen, i), rest) else !p.Got?
  {
    hide ReadAttribute, PrintFlags, Digits, PrintString, PrintEnvelope, PrintNode, PrintSexp, KnownKey,
         GoodEnvelope, GoodNode, WireSexp, Skippable, Clean, Shallow, Parsed, WholeKey, FlagSet.Union;
    match i
    case FlagsItem(flags) => FlagsReads(flags, rest, seen);
    case UidItem(n) => NumberReads(n, rest, seen);
    case DateItem(date) => DateReads(date, rest, seen);
    case SizeItem(n) => NumberReads(n, rest, seen);
    case EnvelopeItem(e) => EnvelopeReads(e, rest, seen);
    case StructureItem(n) => StructureReads(n, rest, seen);
    case SectionItem(specifier, data) => SectionReads(specifier, data, rest, seen);
    case OtherItem(key, value) => OtherReads(key, value, rest, seen);
  }

  lemma {:induction false} InBrackets(s: string, rest: string)
    requires '[' !in s && ']' !in s
    ensures KeyLength(s + rest, 1) == |s| + KeyLength(rest, 1)
    decreases |s|
  {
    if s == "" {
      assert s + rest == rest;
    } else {
      assert (s + rest)[1..] == s[1..] + rest;
      InBrackets(s[1..], rest);
    }
  }

  lemma BracketSteps(s: string, rest: string)
    ensures KeyLength("[" + s, 0) == 1 + KeyLength(s, 1)
    ensures KeyLength("]" + rest, 1) == 1 + KeyLength(rest, 0)
    ensures KeyLength(" " + rest, 0) == 0
  {
    assert ("[" + s)[1..] == s && ("]" + rest)[1..] == rest;
  }

  lemma SectionKeyEnds(specifier: string, rest: string)
    requires '[' !in specifier && ']' !in specifier
    ensures var key := "BODY[" + specifier + "]"; KeyLength(key + (" " + rest), 0) == |key|
  {
    hide KeyLength;
    var close := "]" + (" " + rest);
    SimpleKeyLength("BODY", "[" + (specifier + close));
    BracketSteps(specifier + close, " " + rest);
    InBrackets(specifier, close);
    BracketSteps("", rest);
    assert "BODY[" + specifier + "]" + (" " + rest) == "BODY" + ("[" + (specifier + close));
  }

  lemma SimpleKeyEnds(key: string, rest: string)
    requires Unbracketed(key)
    ensures KeyLength(key + (" " + rest), 0) == |key|
  {
    SimpleKeyLength(key, " " + rest);
    BracketSteps("", rest);
    hide KeyLength;
  }

  lemma KnownKeysAreSimple()
    ensures Unbracketed("FLAGS") && Unbracketed("UID") && Unbracketed("INTERNALDATE")
    ensures Unbracketed("RFC822.SIZE") && Unbracketed("ENVELOPE") && Unbracketed("BODYSTRUCTURE")
  {
  }

  lemma KeyEnds(i: Item, rest: string)
    requires GoodItem(i)
    ensures Key(i) != "" && Key(i)[0] !in " )" && KeyLength(Key(i) + (" " + rest), 0) == |Key(i)|
  {
    hide KeyLength, KnownKey, WireSexp, GoodEnvelope, GoodNode;
    match i
    case SectionItem(specifier, _) =>
      SectionKeyEnds(specifier, rest);
    case OtherItem(key, _) =>
      KeyTaken(key, rest);
    case _ =>
      KnownKeysAreSimple();
      hide Unbracketed;
      SimpleKeyEnds(Key(i), rest);
  }

  lemma ValueStarts(i: Item, rest: string)
    requires GoodItem(i) && Ends(rest)
    ensures Value(i) != "" && Value(i)[0] != ' '
  {
  }

  /** One item of a list is taken off whole. */
  lemma ItemStep(i: Item, rest: string, seen: Attributes)
    requires GoodItem(i) && Ends(rest)
    ensures var t := Key(i) + (" " + (Value(i) + rest));
            if Readable(i) then WalkAttributes(t, seen) == WalkAttributes(rest, Apply(seen, i)) else !WalkAttributes(t, seen).Done?
    ensures var t := Key(i) + (" " + (Value(i) + rest)); WalkAttributes(" " + t, seen) == WalkAttributes(t, seen)
  {
    KeyEnds(i, Value(i) + rest);
    ValueStarts(i, rest);
    ItemReads(i, rest, seen);
    hide Key, Value, GoodItem, Readable, Apply, ReadAttribute, KeyLength, WalkAttributes;
    var key, v := Key(i), Value(i) + rest;
    var t := key + (" " + v);
    AlreadyThere(t);
    SkipOneSpace(v);
    assert t[..|key|] == key && t[|key|..] == " " + v;
    WalkAt(t, seen);
    SkipOneSpace(t);
    WalkAt(" " + t, seen);
  }

  lemma {:induction false} ItemsRead(items: seq<Item>, seen: Attributes)
    requires forall i | i in items :: GoodItem(i)
    ensures Ends(ItemsThen(items))
    ensures var r := WalkAttributes(ItemsThen(items), seen);
            if forall i | i in items :: Readable(i) then r == Done(ApplyAll(seen, items)) else !r.Done?
    decreases |items|
  {
    hide WalkAttributes, GoodItem, Readable, Apply, Key, Value;
    if items == [] {
      AlreadyThere(")");
      WalkAt(")", seen);
    } else {
      ItemsRead(items[1..], Apply(seen, items[0]));
      ItemStep(items[0], ItemsThen(items[1..]), seen);
    }
  }

  /**
   A FETCH attribute list of any length and order reads to exactly its attributes, later ones
   replacing earlier ones, flags and sections adding up, if and only if every body structure in
   it is one the reader can hold.
   */
  lemma AttributesRoundTrip(items: seq<Item>)
    requires forall i | i in items :: GoodItem(i)
    ensures var r := ReadAttributes(PrintList(items));
            if forall i | i in items :: Readable(i) then r == Done(ApplyAll(NO_ATTRIBUTES, items)) else !r.Done?
  {
    ItemsRead(items, NO_ATTRIBUTES);
    hide WalkAttributes, GoodItem, Readable, Apply, Key, Value;
    var t := ItemsThen(items);
    if items == [] {
      assert PrintList(items)[1..] == t;
    } else {
      ItemsRead(items[1..], Apply(NO_ATTRIBUTES, items[0]));
      ItemStep(items[0], ItemsThen(items[1..]), NO_ATTRIBUTES);
      assert PrintList(items)[1..] == t[1..];
    }
  }

  lemma BareKey()
    ensures !KnownKey("BODY[]") && WholeKey("BODY[]")
  {
    BodyKey();
    hide KeyLength;
  }

  lemma OneItem(i: Item)
    ensures PrintList([i]) == "(" + (Key(i) + (" " + (Value(i) + ")"))) && ApplyAll(NO_ATTRIBUTES, [i]) == Apply(NO_ATTRIBUTES, i)
  {
    hide Key, Value, Apply;
    assert [i][1..] == [];
    assert ItemsThen([]) == ")" && ApplyAll(Apply(NO_ATTRIBUTES, i), []) == Apply(NO_ATTRIBUTES, i);
    var t := Key(i) + (" " + (Value(i) + ")"));
    assert (" " + t)[1..] == t;
  }

  /** The section without a name, which the readers of whole messages look for, is read over here. */
  lemma BareBodyIsDropped(data: string)
    requires Fits(data)
    ensures ReadAttributes("(BODY[] " + (PrintString(data) + ")")) == Done(NO_ATTRIBUTES)
  {
    var i := OtherItem("BODY[]", Str(data));
    BareKey();
    hide KnownKey, WholeKey, ReadAttributes, PrintString;
    AttributesRoundTrip([i]);
    OneItem(i);
    assert "(" + ("BODY[]" + (" " + (PrintString(data) + ")"))) == "(BODY[] " + (PrintString(data) + ")");
  }
}
