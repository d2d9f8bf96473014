/** BODYSTRUCTURE (section 7.4.2 of RFC 3501): reading, printing, and when they agree. */
module BodyGrammar {
  import opened Decimal
  import opened FetchGrammar
  import opened Tokens
  import opened Wrappers

  /** How deep a structure may nest before it is refused. */
  const MAX_DEPTH: nat := 32

  datatype Param = Param(name: string, value: string)

  datatype Body =
    | Basic(mediaType: string, subtype: string, parameters: seq<Param>, id: string, description: string,
            encoding: string, octets: nat)
    | Multipart(parts: seq<Body>, subtype: string)

  // ---- Reading -----------------------------------------------------------------

  /**
   A name and its value. The name is a view that is copied only after the value was read:
   when both had to be unescaped, the name's buffer has been overwritten by then.
   */
  function ReadPair(t: string): (p: Parse<Param>)
    ensures p.Got? ==> |p.rest| < |t|
  {
    var (name, t1) :- ReadAstring(t);
    var (value, rest) :- ReadAstring(SkipSpaces(t1));
    if name.scratch && value.scratch then Dangling else Got(Param(name.text, value.text), rest)
  }

  function ReadParamItems(t: string): (p: Parse<seq<Param>>)
    ensures p.Got? ==> |p.rest| < |t|
    decreases |t|
  {
    var s := SkipSpaces(t);
    if s == "" then Fail
    else if s[0] == ')' then Got([], s[1..])
    else
      var (pair, t1) :- ReadPair(s);
      var (more, rest) :- ReadParamItems(t1);
      Got([pair] + more, rest)
  }

  function ReadParams(t: string): (p: Parse<seq<Param>>)
    ensures p.Got? ==> |p.rest| < |t|
  {
    if StartsWithNil(t) then Got([], t[3..])
    else if t == "" || t[0] != '(' then Fail
    else ReadParamItems(t[1..])
  }

  /** Extension data and the closing parenthesis. */
  function ReadEnd(t: string): (p: Parse<()>)
    ensures p.Got? ==> |p.rest| <= |t|
  {
    match SkipTail(SkipSpaces(t))
    case None => Fail
    case Some(r) => if r != "" && r[0] == ')' then Got((), r[1..]) else Fail
  }

  /** The fields of a basic part behind its parameters. */
  datatype Fields = Fields(id: string, description: string, encoding: string, octets: nat)

  function ReadFields(t: string): (p: Parse<Fields>)
    ensures p.Got? ==> |p.rest| < |t|
  {
    var (id, t1) :- ReadNstr(t);
    var (description, t2) :- ReadNstr(SkipSpaces(t1));
    var (encoding, t3) :- ReadAstring(SkipSpaces(t2));
    var (octets, t4) :- ReadNumber(SkipSpaces(t3));
    var (_, rest) :- ReadEnd(t4);
    Got(Fields(id, description, encoding.text, octets), rest)
  }

  function ReadBasic(t: string): (p: Parse<Body>)
    ensures p.Got? ==> |p.rest| < |t|
  {
    var (mediaType, t1) :- ReadAstring(t);
    var (subtype, t2) :- ReadAstring(SkipSpaces(t1));
    var (parameters, t3) :- ReadParams(SkipSpaces(t2));
    var (f, rest) :- ReadFields(SkipSpaces(t3));
    Got(Basic(mediaType.text, subtype.text, parameters, f.id, f.description, f.encoding, f.octets), rest)
  }

  function ReadBody(t: string, depth: nat): (p: Parse<Body>)
    ensures p.Got? ==> |p.rest| < |t|
    decreases |t|, 0
  {
    if depth > MAX_DEPTH || t == "" || t[0] != '(' then Fail
    else
      var s := SkipSpaces(t[1..]);
      if Peek(s) == '(' then
        var (parts, t1) :- ReadParts(s, depth);
        var (subtype, t2) :- ReadAstring(t1);
        var (_, rest) :- ReadEnd(t2);
        Got(Multipart(parts, subtype.text), rest)
      else
        ReadBasic(s)
  }

  /** Child parts, as long as an opening parenthesis follows. */
  function ReadParts(s: string, depth: nat): (p: Parse<seq<Body>>)
    ensures p.Got? ==> |p.rest| <= |s|
    decreases |s|, 1
  {
    if Peek(s) != '(' then Got([], s)
    else
      var (part, t1) :- ReadBody(s, depth + 1);
      var (more, rest) :- ReadParts(SkipSpaces(t1), depth);
      Got([part] + more, rest)
  }

  // ---- Printing -------------------------------------------------------------------

  /** A structure as a server sends it, with the extension data that the reader drops. */
  datatype Node =
    | Leaf(mediaType: string, subtype: string, parameters: seq<Param>, id: string, description: string,
           encoding: string, octets: nat, extensions: seq<Sexp>)
    | Mixed(parts: seq<Node>, subtype: string, extensions: seq<Sexp>)

  function Parsed(n: Node): Body {
    match n
    case Leaf(mediaType, subtype, parameters, id, description, encoding, octets, _) =>
      Basic(mediaType, subtype, parameters, id, description, encoding, octets)
    case Mixed(parts, subtype, _) => Multipart(ParsedAll(parts), subtype)
  }

  function ParsedAll(parts: seq<Node>): seq<Body> {
    if parts == [] then [] else [Parsed(parts[0])] + ParsedAll(parts[1..])
  }

  /** Lengths and counts that the code can hold; a multipart has parts. */
  predicate GoodNode(n: Node) {
    && Fits(n.subtype) && (forall x | x in n.extensions :: GoodSexp(x))
    && match n
       case Leaf(mediaType, _, parameters, id, description, encoding, octets, _) =>
         && Fits(mediaType) && Fits(id) && Fits(description) && Fits(encoding) && octets < TWO_TO_THE_64
         && forall p | p in parameters :: Fits(p.name) && Fits(p.value)
       case Mixed(parts, _, _) => parts != [] && forall p | p in parts :: GoodNode(p)
  }

  /** No parameter needs unescaping in both its name and its value. */
  predicate Clean(n: Node) {
    match n
    case Leaf(_, _, parameters, _, _, _, _, _) => CleanParams(parameters)
    case Mixed(parts, _, _) => forall p | p in parts :: Clean(p)
  }

  predicate CleanParams(parameters: seq<Param>) {
    forall p | p in parameters :: !(Scratched(p.name) && Scratched(p.value))
  }

  /** The structure fits below `levels` further levels. */
  predicate Shallow(n: Node, levels: int) {
    levels >= 0 && (n.Mixed? ==> forall p | p in n.parts :: Shallow(p, levels - 1))
  }

  function PrintParamItemsThen(parameters: seq<Param>, rest: string): string {
    if parameters == [] then ")" + rest
    else " " + (PrintString(parameters[0].name) + (" " + (PrintString(parameters[0].value) + PrintParamItemsThen(parameters[1..], rest))))
  }

  function PrintParamsThen(parameters: seq<Param>, rest: string): string {
    if parameters == [] then "NIL" + rest
    else
      var p, more := parameters[0], PrintParamItemsThen(parameters[1..], rest);
      "(" + (PrintString(p.name) + (" " + (PrintString(p.value) + more)))
  }

  function PrintNodeThen(n: Node, rest: string): string {
    match n
    case Leaf(mediaType, subtype, parameters, id, description, encoding, octets, extensions) =>
      "(" + (PrintString(mediaType) + (" " + (PrintString(subtype) + (" " + PrintParamsThen(parameters,
        " " + (PrintNstr(id) + (" " + (PrintNstr(description) + (" " + (PrintString(encoding) + (" " + (Digits(octets) +
          (PrintItems(extensions) + rest)))))))))))))
    case Mixed(parts, subtype, extensions) =>
      "(" + PrintNodesThen(parts, " " + (PrintString(subtype) + (PrintItems(extensions) + rest)))
  }

  function PrintNodesThen(parts: seq<Node>, rest: string): string {
    if parts == [] then rest else PrintNodeThen(parts[0], PrintNodesThen(parts[1..], rest))
  }

  // ---- Round trip --------------------------------------------------------------------

  lemma StringThenSpace(v: string, t: string)
    requires Fits(v) && t != "" && t[0] != ' '
    ensures ReadAstring(PrintString(v) + (" " + t)) == Got(Token(v, Scratched(v)), " " + t) && SkipSpaces(" " + t) == t
  {
    AstringRoundTrip(v, " " + t);
    SkipOneSpace(t);
  }

  lemma StringStarts(v: string, t: string)
    requires Fits(v)
    ensures PrintString(v) + t != "" && (PrintString(v) + t)[0] in {'"', '{'}
  {
    StringRoundTrip(v, t);
    hide PrintString, Scratched, ReadString;
  }

  lemma PairRead(p: Param, rest: string)
    requires Fits(p.name) && Fits(p.value)
    ensures var t := PrintString(p.name) + (" " + (PrintString(p.value) + rest));
            && t != "" && t[0] != ' ' && t[0] != ')'
            && ReadPair(t) == if Scratched(p.name) && Scratched(p.value) then Dangling else Got(p, rest)
  {
    hide PrintString, Scratched, ReadAstring;
    var u := PrintString(p.value) + rest;
    StringStarts(p.value, rest);
    StringStarts(p.name, " " + u);
    StringThenSpace(p.name, u);
    AstringRoundTrip(p.value, rest);
  }

  lemma {:induction false} ParamItemsRead(parameters: seq<Param>, rest: string)
    requires forall p | p in parameters :: Fits(p.name) && Fits(p.value)
    ensures ReadParamItems(PrintParamItemsThen(parameters, rest))
            == if CleanParams(parameters) then Got(parameters, rest) else Dangling
    decreases |parameters|
  {
    if parameters == [] {
      Tail(")", rest);
      SkipOneSpace(")" + rest);
    } else {
      hide PrintString, Scratched, ReadPair, PrintParamItemsThen;
      var p, more := parameters[0], PrintParamItemsThen(parameters[1..], rest);
      assert p in parameters;
      ParamItemsRead(parameters[1..], rest);
      FirstParam(parameters, rest);
      PairRead(p, more);
      SkipOneSpace(PrintString(p.name) + (" " + (PrintString(p.value) + more)));
      CleanFirst(parameters);
      assert parameters == [p] + parameters[1..];
    }
  }

  lemma FirstParam(parameters: seq<Param>, rest: string)
    requires parameters != []
    ensures PrintParamItemsThen(parameters, rest) ==
              " " + (PrintString(parameters[0].name) + (" " + (PrintString(parameters[0].value) + PrintParamItemsThen(parameters[1..], rest))))
  {
  }

  lemma CleanFirst(parameters: seq<Param>)
    requires parameters != []
    ensures CleanParams(parameters) <==> CleanParams(parameters[1..]) && !(Scratched(parameters[0].name) && Scratched(parameters[0].value))
  {
    hide Scratched;
    assert parameters == [parameters[0]] + parameters[1..];
  }

  lemma ParamsRead(parameters: seq<Param>, rest: string)
    requires (forall p | p in parameters :: Fits(p.name) && Fits(p.value)) && Bounded(rest)
    ensures ReadParams(PrintParamsThen(parameters, rest)) == if CleanParams(parameters) then Got(parameters, rest) else Dangling
    ensures var t := PrintParamsThen(parameters, rest); t != "" && t[0] != ' '
  {
    if parameters == [] {
      NilRoundTrip(rest);
    } else {
      hide PrintParamItemsThen, ReadParamItems, StartsWithNil, CleanParams, PrintString;
      var p := parameters[0];
      var t := PrintString(p.name) + (" " + (PrintString(p.value) + PrintParamItemsThen(parameters[1..], rest)));
      ParamItemsRead(parameters, rest);
      FirstParam(parameters, rest);
      SpaceBeforeItems(t);
      Tail("(", t);
      ListIsNotNil(PrintParamsThen(parameters, rest));
    }
  }

  lemma SpaceBeforeItems(t: string)
    ensures ReadParamItems(" " + t) == ReadParamItems(t)
  {
    assert (" " + t)[1..] == t;
    hide ReadPair;
  }

  lemma ParamsThenSpace(parameters: seq<Param>, t: string)
    requires (forall p | p in parameters :: Fits(p.name) && Fits(p.value)) && t != "" && t[0] != ' '
    ensures ReadParams(PrintParamsThen(parameters, " " + t))
            == if CleanParams(parameters) then Got(parameters, " " + t) else Dangling
    ensures SkipSpaces(" " + t) == t
    ensures var u := PrintParamsThen(parameters, " " + t); u != "" && u[0] != ' '
  {
    ParamsRead(parameters, " " + t);
    SkipOneSpace(t);
  }

  lemma EndRead(extensions: seq<Sexp>, rest: string)
    requires forall x | x in extensions :: GoodSexp(x)
    ensures ReadEnd(PrintItems(extensions) + rest) == Got((), rest)
    ensures var t := PrintItems(extensions) + rest; t != "" && (t[0] == ' ' || t[0] == ')')
  {
    TailSkipped(extensions, rest);
    Tail(")", rest);
    ItemsStart(extensions);
    hide PrintItems, SkipTail;
  }

  lemma ItemsStart(extensions: seq<Sexp>)
    ensures PrintItems(extensions) != "" && (PrintItems(extensions)[0] == ' ' || PrintItems(extensions)[0] == ')')
  {
    hide PrintSexp;
  }

  lemma DigitsStart(n: nat, t: string)
    ensures Digits(n) + t != "" && (Digits(n) + t)[0] != ' '
  {
  }

  lemma LeafReads(n: Node, rest: string)
    requires GoodNode(n) && n.Leaf?
    ensures var t := PrintNodeThen(n, rest);
            && t != "" && t[0] == '(' && t[1..] != "" && t[1..][0] != ' ' && t[1..][0] != '('
            && ReadBasic(t[1..]) == if CleanParams(n.parameters) then Got(Parsed(n), rest) else Dangling
  {
    hide PrintNstr, PrintString, ReadNstr, ReadAstring, SkipSpaces, Fits, PrintParamsThen, ReadParams, CleanParams, Digits,
         ReadNumber, ReadEnd, PrintItems, Scratched, GoodSexp;
    var u8 := PrintItems(n.extensions) + rest;
    var u7 := Digits(n.octets) + u8;
    var u6 := PrintString(n.encoding) + (" " + u7);
    var u5 := PrintNstr(n.description) + (" " + u6);
    var u4 := PrintNstr(n.id) + (" " + u5);
    var u3 := PrintParamsThen(n.parameters, " " + u4);
    var u2 := PrintString(n.subtype) + (" " + u3);
    EndRead(n.extensions, rest);
    DigitsStart(n.octets, u8);
    NumberRoundTrip(n.octets, u8);
    StringStarts(n.encoding, " " + u7);
    StringThenSpace(n.encoding, u7);
    NstrStarts(n.description, " " + u6);
    NstrThenSpace(n.description, u6);
    NstrStarts(n.id, " " + u5);
    NstrThenSpace(n.id, u5);
    ParamsThenSpace(n.parameters, u4);
    StringStarts(n.subtype, " " + u3);
    StringThenSpace(n.subtype, u3);
    StringStarts(n.mediaType, " " + u2);
    StringThenSpace(n.mediaType, u2);
    Tail("(", PrintString(n.mediaType) + (" " + u2));
  }

  /** Whether the reader can take the node at this depth. */
  predicate Readable(n: Node, depth: nat) {
    Clean(n) && Shallow(n, MAX_DEPTH - depth)
  }

  predicate AllReadable(parts: seq<Node>, depth: nat) {
    forall p | p in parts :: Readable(p, depth)
  }

  lemma ReadableParts(n: Node, depth: nat)
    requires n.Mixed? && depth <= MAX_DEPTH
    ensures Readable(n, depth) <==> AllReadable(n.parts, depth + 1)
  {
  }

  lemma ReadableFirst(parts: seq<Node>, depth: nat)
    requires parts != []
    ensures AllReadable(parts, depth) <==> Readable(parts[0], depth) && AllReadable(parts[1..], depth)
  {
    hide Readable;
    assert parts == [parts[0]] + parts[1..];
  }

  lemma NodeStarts(n: Node, rest: string)
    ensures PrintNodeThen(n, rest) != "" && PrintNodeThen(n, rest)[0] == '('
  {
    hide PrintString, PrintNstr, PrintItems, Digits, PrintParamsThen, PrintNodesThen;
  }

  /** What follows the parts of a multipart. */
  function AfterParts(n: Node, rest: string): string
    requires n.Mixed?
  {
    PrintString(n.subtype) + (PrintItems(n.extensions) + rest)
  }

  lemma AfterPartsRead(n: Node, rest: string)
    requires n.Mixed? && GoodNode(n)
    ensures var w := AfterParts(n, rest);
            && w != "" && w[0] != ' ' && w[0] != '('
            && ReadAstring(w) == Got(Token(n.subtype, Scratched(n.subtype)), PrintItems(n.extensions) + rest)
            && ReadEnd(PrintItems(n.extensions) + rest) == Got((), rest)
  {
    var u := PrintItems(n.extensions) + rest;
    EndRead(n.extensions, rest);
    StringStarts(n.subtype, u);
    AstringRoundTrip(n.subtype, u);
    hide PrintItems, PrintString, ReadAstring, ReadEnd, Scratched;
  }

  lemma MixedPrinted(n: Node, rest: string)
    requires n.Mixed?
    ensures PrintNodeThen(n, rest) == "(" + PrintNodesThen(n.parts, " " + AfterParts(n, rest))
  {
    hide PrintString, PrintItems, PrintNodesThen;
  }

  lemma PartsStart(parts: seq<Node>, rest: string)
    requires parts != []
    ensures var t := PrintNodesThen(parts, rest); t != "" && t[0] == '(' && SkipSpaces(t) == t
  {
    NodeStarts(parts[0], PrintNodesThen(parts[1..], rest));
    hide PrintNodeThen;
  }

  lemma NoMoreParts(w: string, depth: nat)
    requires w != "" && w[0] != ' ' && w[0] != '('
    ensures SkipSpaces(" " + w) == w && ReadParts(w, depth) == Got([], w)
  {
    SkipOneSpace(w);
  }

  lemma {:induction false} PartsRead(parts: seq<Node>, w: string, depth: nat)
    requires (forall p | p in parts :: GoodNode(p)) && w != "" && w[0] != ' ' && w[0] != '('
    ensures var p := ReadParts(SkipSpaces(PrintNodesThen(parts, " " + w)), depth);
            if AllReadable(parts, depth + 1) then p == Got(ParsedAll(parts), w) else !p.Got?
    decreases parts, 0
  {
    if parts == [] {
      NoMoreParts(w, depth);
    } else {
      var more := PrintNodesThen(parts[1..], " " + w);
      assert parts[0] in parts;
      NodeReads(parts[0], more, depth + 1);
      PartsRead(parts[1..], w, depth);
      hide PrintNodeThen, ReadBody, Readable, SkipSpaces;
      PartsStart(parts, " " + w);
      ReadableFirst(parts, depth + 1);
      ReadPartsFirst(PrintNodesThen(parts, " " + w), depth);
    }
  }

  lemma ReadPartsFirst(s: string, depth: nat)
    requires Peek(s) == '('
    ensures ReadBody(s, depth + 1).Got? ==>
              var b := ReadBody(s, depth + 1);
              var p := ReadParts(SkipSpaces(b.rest), depth);
              ReadParts(s, depth) == if p.Got? then Got([b.value] + p.value, p.rest) else p
    ensures !ReadBody(s, depth + 1).Got? ==> !ReadParts(s, depth).Got?
  {
  }

  lemma ReadMixed(t: string, depth: nat)
    requires depth <= MAX_DEPTH && |t| >= 2 && t[0] == '(' && t[1] == '('
    ensures ReadBody(t, depth).Got? ==> ReadParts(t[1..], depth).Got?
    ensures ReadParts(t[1..], depth).Got? ==>
              var p := ReadParts(t[1..], depth);
              ReadAstring(p.rest).Got? ==>
                var a := ReadAstring(p.rest);
                ReadEnd(a.rest).Got? ==> ReadBody(t, depth) == Got(Multipart(p.value, a.value.text), ReadEnd(a.rest).rest)
  {
    AlreadyThere(t[1..]);
    hide ReadParts, ReadAstring, ReadEnd, ReadBasic;
  }

  lemma ReadLeaf(t: string, depth: nat)
    requires depth <= MAX_DEPTH && |t| >= 2 && t[0] == '(' && t[1] != '(' && t[1] != ' '
    ensures ReadBody(t, depth) == ReadBasic(t[1..])
  {
    AlreadyThere(t[1..]);
    hide ReadParts, ReadAstring, ReadEnd, ReadBasic;
  }

  lemma TooDeep(n: Node, t: string, depth: nat)
    requires depth > MAX_DEPTH
    ensures ReadBody(t, depth) == Fail && !Readable(n, depth)
  {
  }

  lemma LeafReadable(n: Node, depth: nat)
    requires n.Leaf? && depth <= MAX_DEPTH
    ensures Readable(n, depth) <==> CleanParams(n.parameters)
  {
  }

  /** A printed node at any depth: read back, or refused for its depth or its parameters. */
  lemma {:induction false} NodeReads(n: Node, rest: string, depth: nat)
    requires GoodNode(n)
    ensures var p := ReadBody(PrintNodeThen(n, rest), depth);
            if Readable(n, depth) then p == Got(Parsed(n), rest) else !p.Got?
    decreases n, 1
  {
    var t := PrintNodeThen(n, rest);
    if depth > MAX_DEPTH {
      TooDeep(n, t, depth);
    } else if n.Leaf? {
      LeafReads(n, rest);
      hide PrintNodeThen, ReadBody, ReadBasic, Readable, CleanParams;
      LeafReadable(n, depth);
      ReadLeaf(t, depth);
    } else {
      var w := AfterParts(n, rest);
      AfterPartsRead(n, rest);
      PartsRead(n.parts, w, depth);
      hide PrintNodeThen, PrintNodesThen, ReadBody, ReadParts, ReadAstring, ReadEnd, Readable, AllReadable, SkipSpaces, AfterParts;
      MixedPrinted(n, rest);
      PartsStart(n.parts, " " + w);
      ReadableParts(n, depth);
      Tail("(", PrintNodesThen(n.parts, " " + w));
      ReadMixed(t, depth);
    }
  }

  // ---- Printed forms do not depend on what follows ----------------------------------------

  lemma StringJoined(v: string, t: string, x: string, y: string)
    requires t == x + y
    ensures " " + (PrintString(v) + t) == (" " + (PrintString(v) + x)) + y
  {
    hide PrintString;
    Joined(PrintString(v), t, x, y);
    Joined(" ", PrintString(v) + t, PrintString(v) + x, y);
  }

  lemma {:induction false} ParamItemsJoined(parameters: seq<Param>, x: string, y: string)
    ensures PrintParamItemsThen(parameters, x + y) == PrintParamItemsThen(parameters, x) + y
    decreases |parameters|
  {
    hide PrintString;
    if parameters == [] {
      Joined(")", x + y, x, y);
    } else {
      var p := parameters[0];
      ParamItemsJoined(parameters[1..], x, y);
      var t, t' := PrintParamItemsThen(parameters[1..], x + y), PrintParamItemsThen(parameters[1..], x);
      StringJoined(p.value, t, t', y);
      StringJoined(p.name, " " + (PrintString(p.value) + t), " " + (PrintString(p.value) + t'), y);
    }
  }

  lemma ParamsJoined(parameters: seq<Param>, t: string, x: string, y: string)
    requires t == x + y
    ensures " " + PrintParamsThen(parameters, t) == (" " + PrintParamsThen(parameters, x)) + y
  {
    hide PrintParamItemsThen, PrintString;
    if parameters == [] {
      Joined("NIL", t, x, y);
    } else {
      var p, more, more' := parameters[0], PrintParamItemsThen(parameters[1..], t), PrintParamItemsThen(parameters[1..], x);
      ParamItemsJoined(parameters[1..], x, y);
      StringJoined(p.value, more, more', y);
      var u, u' := " " + (PrintString(p.value) + more), " " + (PrintString(p.value) + more');
      Joined(PrintString(p.name), u, u', y);
      Joined("(", PrintString(p.name) + u, PrintString(p.name) + u', y);
    }
    Joined(" ", PrintParamsThen(parameters, t), PrintParamsThen(parameters, x), y);
  }

  lemma SpacedNstrJoined(v: string, t: string, x: string, y: string)
    requires t == x + y
    ensures " " + (PrintNstr(v) + t) == (" " + (PrintNstr(v) + x)) + y
  {
    hide PrintNstr;
    Joined(PrintNstr(v), t, x, y);
    Joined(" ", PrintNstr(v) + t, PrintNstr(v) + x, y);
  }

  lemma LeafJoined(n: Node, x: string, y: string)
    requires n.Leaf?
    ensures PrintNodeThen(n, x + y) == PrintNodeThen(n, x) + y
  {
    hide PrintNstr, PrintString, PrintParamsThen, Digits, PrintItems;
    Joined(PrintItems(n.extensions), x + y, x, y);
    var d := Digits(n.octets);
    Joined(d, PrintItems(n.extensions) + (x + y), PrintItems(n.extensions) + x, y);
    var u7, v7 := " " + (d + (PrintItems(n.extensions) + (x + y))), " " + (d + (PrintItems(n.extensions) + x));
    Joined(" ", d + (PrintItems(n.extensions) + (x + y)), d + (PrintItems(n.extensions) + x), y);
    StringJoined(n.encoding, u7, v7, y);
    var u6, v6 := " " + (PrintString(n.encoding) + u7), " " + (PrintString(n.encoding) + v7);
    SpacedNstrJoined(n.description, u6, v6, y);
    var u5, v5 := " " + (PrintNstr(n.description) + u6), " " + (PrintNstr(n.description) + v6);
    SpacedNstrJoined(n.id, u5, v5, y);
    var u4, v4 := " " + (PrintNstr(n.id) + u5), " " + (PrintNstr(n.id) + v5);
    ParamsJoined(n.parameters, u4, v4, y);
    var u3, v3 := " " + PrintParamsThen(n.parameters, u4), " " + PrintParamsThen(n.parameters, v4);
    StringJoined(n.subtype, u3, v3, y);
    var u2, v2 := " " + (PrintString(n.subtype) + u3), " " + (PrintString(n.subtype) + v3);
    Joined(PrintString(n.mediaType), u2, v2, y);
    Joined("(", PrintString(n.mediaType) + u2, PrintString(n.mediaType) + v2, y);
  }

  lemma {:induction false} NodeJoined(n: Node, x: string, y: string)
    ensures PrintNodeThen(n, x + y) == PrintNodeThen(n, x) + y
    decreases n, 1
  {
    if n.Leaf? {
      LeafJoined(n, x, y);
    } else {
      MixedPrinted(n, x + y);
      MixedPrinted(n, x);
      hide PrintNodeThen, PrintNodesThen, PrintString, PrintItems;
      var u, v := " " + AfterParts(n, x + y), " " + AfterParts(n, x);
      Joined(PrintItems(n.extensions), x + y, x, y);
      StringJoined(n.subtype, PrintItems(n.extensions) + (x + y), PrintItems(n.extensions) + x, y);
      NodesJoined(n.parts, v, y);
      Joined("(", PrintNodesThen(n.parts, u), PrintNodesThen(n.parts, v), y);
    }
  }

  lemma {:induction false} NodesJoined(parts: seq<Node>, x: string, y: string)
    ensures PrintNodesThen(parts, x + y) == PrintNodesThen(parts, x) + y
    decreases parts, 0
  {
    hide PrintNodeThen;
    if parts != [] {
      NodesJoined(parts[1..], x, y);
      NodeJoined(parts[0], PrintNodesThen(parts[1..], x), y);
    }
  }

  function PrintNode(n: Node): string {
    PrintNodeThen(n, "")
  }

  /**
   A structure printed with any extension data is read back, stopping exactly behind it,
   if and only if it nests at most 32 levels deep and no parameter needs unescaping in
   both its name and its value.
   */
  lemma BodyStructureRoundTrip(n: Node, rest: string)
    requires GoodNode(n)
    ensures ReadBody(PrintNode(n) + rest, 0) == Got(Parsed(n), rest) <==> Clean(n) && Shallow(n, MAX_DEPTH)
    ensures ReadBody(PrintNode(n) + rest, 0).Got? ==> ReadBody(PrintNode(n) + rest, 0) == Got(Parsed(n), rest)
  {
    hide PrintNodeThen, ReadBody, GoodNode, Clean, Shallow;
    NodeJoined(n, "", rest);
    assert "" + rest == rest;
    NodeReads(n, rest, 0);
  }

  /** A concrete structure that is not read back: `("a\"" "b\"")` as a parameter. */
  lemma EscapedPairDangles(rest: string)
    ensures var n := Leaf("text", "plain", [Param("a\"", "b\"")], "", "", "7bit", 0, []);
            GoodNode(n) && !ReadBody(PrintNode(n) + rest, 0).Got?
  {
    var p := Param("a\"", "b\"");
    var n := Leaf("text", "plain", [p], "", "", "7bit", 0, []);
    assert IsQuotedSpecial(p.name[1]) && IsQuotedSpecial(p.value[1]);
    assert HasSpecial(p.name) && HasSpecial(p.value);
    assert p in n.parameters && !Clean(n);
    hide PrintNode, ReadBody, Scratched;
    BodyStructureRoundTrip(n, rest);
  }
}
