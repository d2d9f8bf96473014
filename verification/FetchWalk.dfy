/** Attribute lists of FETCH responses, and the section reader that looks for one of them. */
module FetchWalk {
  import opened Decimal
  import opened FetchGrammar
  import opened FetchParse
  import opened ParseCursors
  import opened Tokens
  import opened Wrappers

  // ---- Reading ---------------------------------------------------------------------

  /** How far an attribute name goes: to a space or parenthesis outside brackets. */
  function KeyLength(t: string, brackets: nat): (k: nat)
    ensures k <= |t|
  {
    if t == "" then 0
    else
      var depth := if t[0] == '[' then brackets + 1 else if t[0] == ']' && brackets > 0 then brackets - 1 else brackets;
      if (t[0] == ' ' || t[0] == ')') && depth == 0 then 0 else 1 + KeyLength(t[1..], depth)
  }

  /** Whether `key` starts with `prefix`, in any case. */
  predicate HasPrefix(key: string, prefix: string) {
    |key| >= |prefix| && IEquals(key[..|prefix|], prefix)
  }

  /** What the walk knows so far: whether a section was seen, and the last value it held. */
  datatype Section = Section(found: bool, value: Option<string>)

  /** The attributes from `t` on; `None` when the list is malformed. */
  function WalkSection(t: string, prefix: string, seen: Section): Option<Section>
    decreases |t|
  {
    var s := SkipSpaces(t);
    if s == "" then None
    else if s[0] == ')' then Some(seen)
    else
      var k := KeyLength(s, 0);
      if k == 0 then None
      else
        var v := SkipSpaces(s[k..]);
        if HasPrefix(s[..k], prefix) then
          match ReadNstring(v)
          case Got(x, rest) => WalkSection(rest, prefix, Section(true, if x.Some? then x else seen.value))
          case _ => None
        else
          match FetchGrammar.SkipValue(v)
          case None => None
          case Some(rest) => WalkSection(rest, prefix, seen)
  }

  /** `parse_body_section_attribute`: absent, malformed, or the section's value. */
  function BodySection(list: string, prefix: string): Option<Option<string>> {
    if list == "" || list[0] != '(' then None
    else
      match WalkSection(list[1..], prefix, Section(false, None))
      case None => None
      case Some(s) => if s.found then Some(s.value) else None
  }

  // ---- The loops ---------------------------------------------------------------------

  method KeyEnd(t: string) returns (end: nat)
    ensures end == KeyLength(t, 0)
  {
    end := 0;
    var brackets := 0;
    assert t[0..] == t;
    while end < |t|
      invariant 0 <= end <= |t| && KeyLength(t, 0) == end + KeyLength(t[end..], brackets)
    {
      var c := t[end];
      assert t[end..][1..] == t[end + 1..];
      if c == '[' {
        brackets := brackets + 1;
      }
      if c == ']' && brackets > 0 {
        brackets := brackets - 1;
      }
      if (c == ' ' || c == ')') && brackets == 0 {
        return;
      }
      end := end + 1;
    }
  }

  method DropSpaces(t: string) returns (r: string)
    ensures r == SkipSpaces(t)
  {
    r := t;
    while r != "" && r[0] == ' '
      invariant SkipSpaces(r) == SkipSpaces(t)
      decreases |r|
    {
      r := r[1..];
    }
  }

  lemma WalkStep(t: string, prefix: string, seen: Section, k: nat)
    requires var s := SkipSpaces(t); s != "" && s[0] != ')' && k == KeyLength(s, 0) > 0
    ensures var s := SkipSpaces(t);
            var v := SkipSpaces(s[k..]);
            WalkSection(t, prefix, seen) ==
              if HasPrefix(s[..k], prefix) then
                match ReadNstring(v)
                case Got(x, rest) => WalkSection(rest, prefix, Section(true, if x.Some? then x else seen.value))
                case _ => None
              else
                match FetchGrammar.SkipValue(v)
                case None => None
                case Some(rest) => WalkSection(rest, prefix, seen)
  {
    hide ReadNstring, FetchGrammar.SkipValue, HasPrefix, KeyLength;
  }

  lemma WalkStops(t: string, prefix: string, seen: Section)
    ensures var s := SkipSpaces(t);
            && (s == "" ==> WalkSection(t, prefix, seen) == None)
            && (s != "" && s[0] == ')' ==> WalkSection(t, prefix, seen) == Some(seen))
            && (s != "" && s[0] != ')' && KeyLength(s, 0) == 0 ==> WalkSection(t, prefix, seen) == None)
  {
    hide ReadNstring, FetchGrammar.SkipValue, HasPrefix, KeyLength;
  }

  method KeyHasPrefix(key: string, prefix: string) returns (yes: bool)
    ensures yes == HasPrefix(key, prefix)
  {
    if |key| < |prefix| {
      return false;
    }
    yes := AsciiIEquals(key[..|prefix|], prefix);
  }

  /** One value of the section, on a fresh cursor. */
  method SectionValue(v: string) returns (ok: bool, value: Option<string>, rest: string)
    ensures match ReadNstring(v)
            case Got(x, after) => ok && value == x && rest == after
            case _ => !ok
  {
    hide ReadNstring;
    var cur := new ParseCursor(v);
    NstringNeverDangles(v);
    var r := cur.ReadNstring();
    if r == None {
      return false, None, "";
    }
    value := if r.value == None then None else Some(cur.Text(r.value.value));
    ok, rest := true, cur.Rest();
  }

  method SkippedValue(v: string) returns (ok: bool, rest: string)
    ensures match FetchGrammar.SkipValue(v)
            case None => !ok
            case Some(after) => ok && rest == after
  {
    hide FetchGrammar.SkipValue;
    var cur := new ParseCursor(v);
    ok := FetchParse.SkipValue(cur);
    rest := cur.Rest();
  }

  /** `walk_fetch_attributes` with the section sink. */
  method ParseBodySectionAttribute(list: string, prefix: string) returns (r: Option<Option<string>>)
    ensures r == BodySection(list, prefix)
  {
    hide WalkSection, KeyLength, HasPrefix, ReadNstring, FetchGrammar.SkipValue, SkipSpaces;
    if list == "" || list[0] != '(' {
      return None;
    }
    var rest, found, out := list[1..], false, None;
    ghost var all := WalkSection(rest, prefix, Section(false, None));
    while true
      invariant all == WalkSection(rest, prefix, Section(found, out))
      decreases |rest|
    {
      WalkStops(rest, prefix, Section(found, out));
      var s := DropSpaces(rest);
      if s == "" {
        return None;
      }
      if s[0] == ')' {
        return if found then Some(out) else None;
      }
      var end := KeyEnd(s);
      if end == 0 {
        return None;
      }
      WalkStep(rest, prefix, Section(found, out), end);
      var v := DropSpaces(s[end..]);
      var matched := KeyHasPrefix(s[..end], prefix);
      var ok;
      if matched {
        var value;
        ok, value, rest := SectionValue(v);
        found := true;
        out := if value.Some? then value else out;
      } else {
        ok, rest := SkippedValue(v);
      }
      if !ok {
        return None;
      }
    }
  }

  // ---- Lists as a server prints them ---------------------------------------------------

  /** An attribute name without brackets, spaces or parentheses. */
  predicate Unbracketed(key: string) {
    forall i | 0 <= i < |key| :: key[i] !in {' ', '(', ')', '[', ']'}
  }

  lemma {:induction false} SimpleKeyLength(key: string, rest: string)
    requires Unbracketed(key)
    ensures KeyLength(key + rest, 0) == |key| + KeyLength(rest, 0)
    decreases |key|
  {
    if key == "" {
      assert key + rest == rest;
    } else {
      assert (key + rest)[1..] == key[1..] + rest;
      SimpleKeyLength(key[1..], rest);
    }
  }

  /** An attribute name that the walk takes whole: no space or closing parenthesis outside its brackets, all closed. */
  predicate WholeKey(key: string) {
    key != "" && KeyLength(key + " ", 0) == |key|
  }

  lemma {:induction false} KeyStops(key: string, rest: string, depth: nat)
    requires KeyLength(key + " ", depth) == |key|
    ensures KeyLength(key + (" " + rest), depth) == |key|
    decreases |key|
  {
    var t := key + (" " + rest);
    if key == "" {
      assert key + " " == " " && t == " " + rest;
    } else {
      assert (key + " ")[1..] == key[1..] + " " && t[1..] == key[1..] + (" " + rest);
      KeyStops(key[1..], rest, if key[0] == '[' then depth + 1 else if key[0] == ']' && depth > 0 then depth - 1 else depth);
    }
  }

  lemma KeyTaken(key: string, rest: string)
    requires WholeKey(key)
    ensures var t := key + (" " + rest);
            KeyLength(t, 0) == |key| > 0 && t[..|key|] == key && t[|key|..] == " " + rest && t[0] !in " )"
  {
    KeyStops(key, rest, 0);
    assert (key + " ")[0] == key[0];
  }

  datatype Attribute = Attribute(key: string, value: Sexp)

  predicate WireAttribute(a: Attribute) {
    WholeKey(a.key) && WireSexp(a.value)
  }

  /** The attributes behind others, a space before each, and the end of the list. */
  function MoreAttributes(list: seq<Attribute>): string {
    if list == [] then ")"
    else " " + (list[0].key + (" " + (PrintSexp(list[0].value) + MoreAttributes(list[1..]))))
  }

  function PrintAttributes(list: seq<Attribute>): string {
    if list == [] then "()"
    else "(" + (list[0].key + (" " + (PrintSexp(list[0].value) + MoreAttributes(list[1..]))))
  }

  /** The name asks for the section. */
  predicate IsSection(a: Attribute, prefix: string) {
    HasPrefix(a.key, prefix)
  }

  predicate IsNstring(x: Sexp) {
    x.Str? || x.Literal? || (x.Atom? && IEquals(x.text, "NIL"))
  }

  /** A section must be a string or NIL, any other attribute a value that can be skipped. */
  predicate Accepted(a: Attribute, prefix: string) {
    if IsSection(a, prefix) then IsNstring(a.value) else Skippable(a.value)
  }

  predicate AllAccepted(list: seq<Attribute>, prefix: string) {
    forall a | a in list :: Accepted(a, prefix)
  }

  /** What is known behind the attribute: NIL does not replace an earlier value. */
  function NowSeen(a: Attribute, prefix: string, seen: Section): Section {
    if !IsSection(a, prefix) then seen
    else Section(true, if a.value.Str? || a.value.Literal? then Some(a.value.text) else seen.value)
  }

  function Seen(list: seq<Attribute>, prefix: string, seen: Section): Section
    decreases |list|
  {
    if list == [] then seen else Seen(list[1..], prefix, NowSeen(list[0], prefix, seen))
  }

  // ---- What the walk makes of them -------------------------------------------------------

  lemma NstringRoundTrip(v: string, rest: string)
    requires Fits(v)
    ensures ReadNstring(PrintString(v) + rest) == Got(Some(v), rest)
  {
    StringIsNotNil(v, rest);
    StringRoundTrip(v, rest);
    hide ReadString, PrintString, StartsWithNil;
  }

  lemma LiteralNstring(v: string, rest: string)
    requires Fits(v)
    ensures ReadNstring(PrintLiteral(v) + rest) == Got(Some(v), rest)
  {
    PrintLiteralIs(v, rest);
    LiteralRoundTrip(v, rest);
    hide Digits, BracedLiteral, PrintLiteral;
    var t := PrintLiteral(v) + rest;
    assert |t| >= 3 ==> t[..3][0] == t[0] && ToUpper(t[0]) != "NIL"[0];
  }

  lemma AtomNstring(text: string, rest: string)
    requires WireSexp(Atom(text)) && Ends(rest)
    ensures ReadNstring(text + rest) == if IEquals(text, "NIL") then Got(None, rest) else Fail
  {
    var t := text + rest;
    assert forall i | 0 <= i < |text| :: t[i] == text[i];
    if |text| == 3 {
      assert t[..3] == text && t[3..] == rest && t[3] == rest[0];
    } else if |text| > 3 {
      assert IsAtomChar(t[3]);
    } else if |t| >= 3 {
      assert t[..3][|text|] == rest[0] && ToUpper(rest[0]) != ToUpper("NIL"[|text|]);
    }
    if text[0] == '~' {
      assert t[1..] != "" && t[1..][0] != '{';
    }
  }

  lemma ListNstring(items: seq<Sexp>, rest: string)
    ensures !ReadNstring(PrintSexp(List(items)) + rest).Got?
  {
    ListOpens(items, rest);
    hide PrintSexp;
    var t := PrintSexp(List(items)) + rest;
    assert |t| >= 3 ==> t[..3][0] == t[0] && ToUpper(t[0]) != "NIL"[0];
  }

  /** Strings and NIL are read as the section's value, nothing else is. */
  lemma SectionRead(x: Sexp, rest: string)
    requires WireSexp(x) && Ends(rest)
    ensures var p := ReadNstring(PrintSexp(x) + rest);
            if IsNstring(x) then p == Got(if x.Atom? then None else Some(x.text), rest) else !p.Got?
  {
    hide ReadNstring, PrintString, PrintLiteral, IEquals;
    match x
    case Atom(text) => AtomNstring(text, rest);
    case Str(text) => NstringRoundTrip(text, rest);
    case Literal(text) => LiteralNstring(text, rest);
    case List(items) => ListNstring(items, rest);
  }

  lemma AttributeWalked(a: Attribute, rest: string, prefix: string, seen: Section)
    requires WireAttribute(a) && Ends(rest)
    ensures var t := a.key + (" " + (PrintSexp(a.value) + rest));
            && WalkSection(t, prefix, seen) == (if Accepted(a, prefix) then WalkSection(rest, prefix, NowSeen(a, prefix, seen)) else None)
            && WalkSection(" " + t, prefix, seen) == WalkSection(t, prefix, seen)
  {
    hide PrintSexp, FetchGrammar.SkipValue, ReadNstring, KeyLength, HasPrefix, WalkSection, WireSexp, Skippable, IEquals, WholeKey;
    var u := PrintSexp(a.value) + rest;
    var t := a.key + (" " + u);
    KeyTaken(a.key, u);
    SexpSkipped(a.value, rest);
    SectionRead(a.value, rest);
    AlreadyThere(t);
    SkipOneSpace(u);
    WalkStep(t, prefix, seen, |a.key|);
    WalkSpace(t, prefix, seen);
  }

  lemma WalkSpace(t: string, prefix: string, seen: Section)
    ensures WalkSection(" " + t, prefix, seen) == WalkSection(t, prefix, seen)
  {
    assert (" " + t)[1..] == t;
    hide ReadNstring, FetchGrammar.SkipValue, HasPrefix, KeyLength;
  }

  lemma {:induction false} AttributesWalked(list: seq<Attribute>, prefix: string, seen: Section)
    requires forall a | a in list :: WireAttribute(a)
    ensures WalkSection(MoreAttributes(list), prefix, seen)
            == if AllAccepted(list, prefix) then Some(Seen(list, prefix, seen)) else None
    ensures Ends(MoreAttributes(list))
    decreases |list|
  {
    hide WalkSection, WireAttribute, Accepted, NowSeen, PrintSexp;
    if list == [] {
      AlreadyThere(")");
      WalkStops(")", prefix, seen);
    } else {
      AttributesWalked(list[1..], prefix, NowSeen(list[0], prefix, seen));
      AttributeWalked(list[0], MoreAttributes(list[1..]), prefix, seen);
      assert forall a :: a in list <==> a == list[0] || a in list[1..];
    }
  }

  /**
   Any list a server may print: the walk succeeds if and only if every section is a string or
   NIL and every other value can be skipped, and then it holds the last section that is not NIL.
   */
  lemma SectionExactly(list: seq<Attribute>, prefix: string)
    requires forall a | a in list :: WireAttribute(a)
    ensures var seen := Seen(list, prefix, Section(false, None));
            BodySection(PrintAttributes(list), prefix)
            == if AllAccepted(list, prefix) && seen.found then Some(seen.value) else None
  {
    hide WalkSection, WireAttribute, Accepted, NowSeen, PrintSexp;
    AttributesWalked(list, prefix, Section(false, None));
    if list == [] {
      assert "()"[1..] == ")";
    } else {
      var t := list[0].key + (" " + (PrintSexp(list[0].value) + MoreAttributes(list[1..])));
      WalkSpace(t, prefix, Section(false, None));
      Tail("(", t);
    }
  }

  lemma {:induction false} OthersChangeNothing(before: seq<Attribute>, rest: seq<Attribute>, prefix: string, seen: Section)
    requires forall a | a in before :: !IsSection(a, prefix)
    ensures Seen(before + rest, prefix, seen) == Seen(rest, prefix, seen)
    decreases |before|
  {
    hide IsSection;
    if before == [] {
      assert before + rest == rest;
    } else {
      assert (before + rest)[1..] == before[1..] + rest && before[0] in before;
      OthersChangeNothing(before[1..], rest, prefix, seen);
    }
  }

  /** A whole message, as a literal, among other attributes. */
  function WithBody(before: seq<Attribute>, data: string, after: seq<Attribute>): seq<Attribute> {
    before + ([Attribute("BODY[]", Literal(data))] + after)
  }

  predicate OtherAttributes(list: seq<Attribute>) {
    forall a | a in list :: WireAttribute(a) && !IsSection(a, "BODY[]")
  }

  /** The values of the other attributes can all be skipped. */
  predicate AllSkippable(list: seq<Attribute>) {
    forall a | a in list :: Skippable(a.value)
  }

  lemma BodyKey()
    ensures WholeKey("BODY[]")
  {
    assert "BODY" + "[] " == "BODY[] " == "BODY[]" + " ";
    SimpleKeyLength("BODY", "[] ");
    assert "[] "[1..] == "] " && "] "[1..] == " ";
    assert KeyLength(" ", 0) == 0 && KeyLength("] ", 1) == 1;
  }

  lemma BodyIsSection(data: string)
    requires Fits(data)
    ensures var a := Attribute("BODY[]", Literal(data));
            WireAttribute(a) && IsSection(a, "BODY[]") && Accepted(a, "BODY[]")
            && forall seen :: NowSeen(a, "BODY[]", seen) == Section(true, Some(data))
  {
    BodyKey();
    hide KeyLength;
    assert "BODY[]"[..6] == "BODY[]";
  }

  /**
   The message among any other attributes, in front of it and behind it: the section is exactly
   the literal's octets if and only if every other value can be skipped.
   */
  lemma SectionIsTheLiteral(before: seq<Attribute>, data: string, after: seq<Attribute>)
    requires OtherAttributes(before) && OtherAttributes(after) && Fits(data)
    ensures BodySection(PrintAttributes(WithBody(before, data, after)), "BODY[]")
            == if AllSkippable(before) && AllSkippable(after) then Some(Some(data)) else None
  {
    hide WireAttribute, IsSection, NowSeen, BodySection, PrintAttributes, IsNstring, Skippable;
    var body := Attribute("BODY[]", Literal(data));
    var list := WithBody(before, data, after);
    BodyIsSection(data);
    assert forall a :: a in list <==> a in before || a == body || a in after;
    SectionExactly(list, "BODY[]");
    var none := Section(false, None);
    OthersChangeNothing(before, [body] + after, "BODY[]", none);
    assert ([body] + after)[1..] == after;
    OthersChangeNothing(after, [], "BODY[]", Section(true, Some(data)));
    assert after + [] == after;
  }

  /** A flag in front of the section hides it, whatever follows. */
  lemma FlagsHideTheSection(rest: string)
    ensures BodySection("(FLAGS (\\Seen) " + rest, "BODY[]") == None
  {
    var a := Attribute("FLAGS", List([Atom("\\Seen")]));
    FlagsAttribute(a);
    hide PrintSexp, WalkSection, WireAttribute, Accepted, NowSeen;
    var t := a.key + (" " + (PrintSexp(a.value) + (" " + rest)));
    AttributeWalked(a, " " + rest, "BODY[]", Section(false, None));
    FlagsText(rest);
    Tail("(", t);
  }

  lemma FlagsText(rest: string)
    ensures "(FLAGS (\\Seen) " + rest == "(" + ("FLAGS" + (" " + ("(\\Seen)" + (" " + rest))))
  {
    Assoc("(\\Seen)", " ", rest);
    Assoc(" ", "(\\Seen) ", rest);
    Assoc("FLAGS", " (\\Seen) ", rest);
    Assoc("(", "FLAGS (\\Seen) ", rest);
  }

  lemma FlagsAttribute(a: Attribute)
    requires a == Attribute("FLAGS", List([Atom("\\Seen")]))
    ensures WireAttribute(a) && !Accepted(a, "BODY[]") && PrintSexp(a.value) == "(\\Seen)"
  {
    SimpleKeyLength("FLAGS", " ");
    assert a.value.items[0] in a.value.items && a.value.items[1..] == [];
  }
}
