/** Encoded words in header text (sections 2, 4 and 6.2 of RFC 2047). */
module EncodedWords {
  import opened Base64
  import opened Texts
  import opened Wrappers

  // ---- Searching ---------------------------------------------------------------

  predicate PairAt(t: string, i: int) {
    0 <= i < |t| - 1 && t[i] == '?' && t[i + 1] == '='
  }

  /** Where `?=` first stands in `t`; the length of `t` when it does not. */
  function FindEnd(t: string): (i: nat)
    ensures i <= |t| && (i < |t| ==> PairAt(t, i)) && forall k | 0 <= k < i :: !PairAt(t, k)
  {
    if t == "" then 0
    else if PairAt(t, 0) then 0
    else
      var i := 1 + FindEnd(t[1..]);
      assert forall k | 0 < k :: PairAt(t, k) <==> PairAt(t[1..], k - 1);
      i
  }

  // ---- One word ----------------------------------------------------------------

  function HexValue(c: char): int {
    if '0' <= c <= '9' then c as int - '0' as int
    else if 'a' <= c <= 'f' then c as int - 'a' as int + 10
    else if 'A' <= c <= 'F' then c as int - 'A' as int + 10
    else -1
  }

  /** The Q encoding, as the decoder reads it. */
  function QDecode(data: string): Option<string> {
    if data == "" then Some("")
    else if data[0] == '_' then Prefixed(' ', QDecode(data[1..]))
    else if data[0] == '=' then
      if |data| < 3 || HexValue(data[1]) < 0 || HexValue(data[2]) < 0 then None
      else Prefixed(Octet(HexValue(data[1]) * 16 + HexValue(data[2])), QDecode(data[3..]))
    else Prefixed(data[0], QDecode(data[1..]))
  }

  function Prefixed(c: char, rest: Option<string>): Option<string> {
    match rest case None => None case Some(r) => Some([c] + r)
  }

  function BDecode(data: string): Option<string> {
    if |data| % 4 != 0 then None else Decode(data)
  }

  predicate Unblank(t: string) {
    forall i | 0 <= i < |t| :: !IsBlank(t[i])
  }

  datatype Word = Word(payload: string, size: nat)

  function Payload(letter: char, data: string): Option<string> {
    if letter in {'b', 'B'} then BDecode(data) else QDecode(data)
  }

  /** An encoded word from its encoding letter on. */
  function DecodeBody(t: string): (w: Option<Word>)
    ensures w.Some? ==> 4 <= w.value.size <= |t|
  {
    if |t| < 2 || t[1] != '?' || t[0] !in {'b', 'B', 'q', 'Q'} then None
    else
      var m := FindEnd(t[2..]);
      if m == |t| - 2 then None
      else
        match Payload(t[0], t[2..][..m])
        case None => None
        case Some(payload) => Some(Word(payload, m + 4))
  }

  /** The payload of the encoded word at the front of `t`, and how much of `t` it takes. */
  function DecodeWord(t: string): (w: Option<Word>)
    ensures w.Some? ==> 6 <= w.value.size <= |t| && t[0] == '=' && t[1] == '?'
  {
    if |t| < 2 || t[0] != '=' || t[1] != '?' then None
    else
      var k := First(t[2..], '?');
      if k == |t| - 2 || k == 0 || !Unblank(t[2..][..k]) then None
      else
        match DecodeBody(t[k + 3..])
        case None => None
        case Some(w) => Some(Word(w.payload, k + 3 + w.size))
  }

  // ---- Running text ----------------------------------------------------------------

  predicate IsSpace(c: char) {
    c == ' ' || c == '\t' || c == '\r' || c == '\n'
  }

  /** How much linear white space stands at the front. */
  function Blanks(t: string): (i: nat)
    ensures i <= |t| && (i < |t| ==> !IsSpace(t[i])) && forall k | 0 <= k < i :: IsSpace(t[k])
  {
    if t == "" || !IsSpace(t[0]) then 0 else 1 + Blanks(t[1..])
  }

  function DecodeText(t: string): string
    decreases |t|, 0
  {
    if t == "" then ""
    else
      match DecodeWord(t)
      case None => [t[0]] + DecodeText(t[1..])
      case Some(w) => w.payload + AfterWord(t[w.size..])
  }

  /** White space between two encoded words is dropped. */
  function AfterWord(t: string): string
    decreases |t|, 1
  {
    var j := Blanks(t);
    if j == 0 then DecodeText(t)
    else
      match DecodeWord(t[j..])
      case None => DecodeText(t)
      case Some(w) => w.payload + AfterWord(t[j + w.size..])
  }

  // ---- Printed words ------------------------------------------------------------------

  function HexDigit(d: nat): char
    requires d < 16
  {
    if d < 10 then ('0' as int + d) as char else ('A' as int + d - 10) as char
  }

  /** Octets that the Q encoding may leave as they are. */
  predicate Literal(c: char) {
    33 <= c as int <= 126 && c != '=' && c != '?' && c != '_'
  }

  function QChar(c: char): string
    requires IsOctet(c)
  {
    if c == ' ' then "_" else if Literal(c) then [c]
    else ['=', HexDigit(c as int / 16), HexDigit(c as int % 16)]
  }

  function QEncode(s: string): string
    requires Octets(s)
  {
    if s == "" then "" else QChar(s[0]) + QEncode(s[1..])
  }

  datatype Encoding = B | Q

  /** A character set name a word may carry. */
  predicate Charset(name: string) {
    name != "" && Unblank(name) && '?' !in name
  }

  function PrintWord(charset: string, encoding: Encoding, payload: string): string
    requires Octets(payload)
  {
    "=?" + charset + (if encoding == B then "?B?" + Encode(payload) else "?Q?" + QEncode(payload)) + "?="
  }

  lemma QCharRoundTrip(c: char, rest: string)
    requires IsOctet(c)
    ensures QDecode(QChar(c) + rest) == Prefixed(c, QDecode(rest))
    ensures '?' !in QChar(c)
  {
    var t := QChar(c) + rest;
    assert t[|QChar(c)|..] == rest;
    if c == ' ' {
    } else if Literal(c) {
    } else {
      HexRoundTrip(c as int / 16);
      HexRoundTrip(c as int % 16);
      assert c == Octet(c as int / 16 * 16 + c as int % 16);
    }
  }

  lemma HexRoundTrip(d: nat)
    requires d < 16
    ensures HexValue(HexDigit(d)) == d && HexDigit(d) != '?'
  {
  }

  lemma {:induction false} QRoundTrip(s: string)
    requires Octets(s)
    ensures QDecode(QEncode(s)) == Some(s) && '?' !in QEncode(s)
  {
    if s != "" {
      QRoundTrip(s[1..]);
      QCharRoundTrip(s[0], QEncode(s[1..]));
      assert s == [s[0]] + s[1..];
      hide QChar;
    }
  }

  lemma FindEndIs(data: string, rest: string)
    requires '?' !in data
    ensures FindEnd(data + "?=" + rest) == |data|
  {
    var t := data + "?=" + rest;
    assert PairAt(t, |data|);
    assert forall k | 0 <= k < |data| :: t[k] == data[k] && data[k] in data;
  }

  lemma CharsetFound(charset: string, tail: string)
    requires Charset(charset)
    ensures First(charset + ("?" + tail), '?') == |charset|
  {
    var t := charset + ("?" + tail);
    assert forall k | 0 <= k < |charset| :: t[k] == charset[k] && charset[k] in charset;
    FirstIs(t, '?', |charset|);
  }

  lemma BodyReads(letter: char, data: string, rest: string)
    requires letter in {'b', 'B', 'q', 'Q'} && '?' !in data
    ensures DecodeBody([letter] + ("?" + (data + "?=" + rest)))
            == match Payload(letter, data) case None => None case Some(p) => Some(Word(p, |data| + 4))
  {
    var body := data + "?=" + rest;
    var t := [letter] + ("?" + body);
    assert t[2..] == body && body[..|data|] == data;
    FindEndIs(data, rest);
    hide FindEnd, Payload;
  }

  lemma HeadReads(charset: string, tail: string)
    requires Charset(charset)
    ensures DecodeWord("=?" + (charset + ("?" + tail)))
            == match DecodeBody(tail) case None => None case Some(w) => Some(Word(w.payload, |charset| + 3 + w.size))
  {
    var t := "=?" + (charset + ("?" + tail));
    CharsetFound(charset, tail);
    assert t[2..] == charset + ("?" + tail) && t[2..][..|charset|] == charset;
    assert t[|charset| + 3..] == tail;
    hide First, DecodeBody;
  }

  lemma Regroup(charset: string, letter: char, data: string, rest: string)
    ensures ("=?" + charset + ("?" + [letter] + "?" + data) + "?=") + rest
            == "=?" + (charset + ("?" + ([letter] + ("?" + (data + "?=" + rest)))))
  {
  }

  lemma PrintedWord(charset: string, encoding: Encoding, payload: string)
    requires Octets(payload)
    ensures var data := if encoding == B then Encode(payload) else QEncode(payload);
            var letter := if encoding == B then 'B' else 'Q';
            PrintWord(charset, encoding, payload) == "=?" + charset + ("?" + [letter] + "?" + data) + "?="
  {
    hide Encode, QEncode;
  }

  lemma DataRoundTrip(encoding: Encoding, payload: string)
    requires Octets(payload)
    ensures var data := if encoding == B then Encode(payload) else QEncode(payload);
            '?' !in data && Payload(if encoding == B then 'B' else 'Q', data) == Some(payload)
  {
    RoundTrip(payload);
    NoQuestionMark(payload);
    QRoundTrip(payload);
    hide Encode, QEncode, Decode, QDecode;
  }

  /** A printed word is read back whatever follows it. */
  lemma WordRoundTrip(charset: string, encoding: Encoding, payload: string, rest: string)
    requires Charset(charset) && Octets(payload)
    ensures var w := PrintWord(charset, encoding, payload);
            DecodeWord(w + rest) == Some(Word(payload, |w|)) && |w| >= 2 && w[0] == '=' && w[1] == '?'
  {
    hide Encode, QEncode, Decode, QDecode, DecodeWord, DecodeBody, Payload, PrintWord;
    var data := if encoding == B then Encode(payload) else QEncode(payload);
    var letter := if encoding == B then 'B' else 'Q';
    DataRoundTrip(encoding, payload);
    PrintedWord(charset, encoding, payload);
    BodyReads(letter, data, rest);
    HeadReads(charset, [letter] + ("?" + (data + "?=" + rest)));
    Regroup(charset, letter, data, rest);
  }

  // ---- A run of words in plain text ------------------------------------------------------

  /** Nothing in `t` looks like the start of an encoded word. */
  predicate Plain(t: string) {
    forall i | 0 <= i < |t| - 1 :: !(t[i] == '=' && t[i + 1] == '?')
  }

  predicate Space(t: string) {
    t != "" && forall i | 0 <= i < |t| :: IsSpace(t[i])
  }

  datatype Item = Item(charset: string, encoding: Encoding, payload: string, gap: string)

  predicate GoodItem(x: Item) {
    Charset(x.charset) && Octets(x.payload) && Space(x.gap)
  }

  predicate Good(items: seq<Item>) {
    forall x | x in items :: GoodItem(x)
  }

  function PrintItem(x: Item): string
    requires GoodItem(x)
  {
    PrintWord(x.charset, x.encoding, x.payload)
  }

  /** The words, each but the first preceded by its white space. */
  function PrintRun(items: seq<Item>): string
    requires Good(items)
  {
    if items == [] then "" else items[0].gap + PrintItem(items[0]) + PrintRun(items[1..])
  }

  function Payloads(items: seq<Item>): string {
    if items == [] then "" else items[0].payload + Payloads(items[1..])
  }

  lemma {:induction false} PlainIsUnchanged(t: string)
    requires Plain(t)
    ensures DecodeText(t) == t && AfterWord(t) == t
    decreases |t|
  {
    var j := Blanks(t);
    assert j + 1 < |t| ==> !(t[j] == '=' && t[j + 1] == '?');
    assert DecodeWord(t[j..]) == None;
    if t != "" {
      assert DecodeWord(t) == None;
      PlainIsUnchanged(t[1..]);
      assert t == [t[0]] + t[1..];
    }
  }

  lemma PlainChar(t: string)
    requires |t| >= 2 && !(t[0] == '=' && t[1] == '?')
    ensures DecodeText(t) == [t[0]] + DecodeText(t[1..])
  {
    hide AfterWord, First, DecodeBody;
  }

  lemma PlainTail(t: string)
    requires Plain(t) && t != ""
    ensures Plain(t[1..])
  {
  }

  /** Plain text before an encoded word passes through. */
  lemma {:induction false} PlainPrefix(before: string, t: string)
    requires Plain(before) && |t| >= 2 && t[0] == '=' && t[1] == '?'
    ensures DecodeText(before + t) == before + DecodeText(t)
    decreases |before|
  {
    if before == "" {
      assert before + t == t;
    } else {
      var all := before + t;
      assert !(all[0] == '=' && all[1] == '?') by {
        if |before| == 1 { assert all[1] == '='; } else { assert all[1] == before[1]; }
      }
      PlainChar(all);
      PlainTail(before);
      hide DecodeText, Plain;
      assert all[1..] == before[1..] + t;
      PlainPrefix(before[1..], t);
      Assoc([before[0]], before[1..], DecodeText(t));
      assert before == [before[0]] + before[1..];
    }
  }

  lemma BlanksIs(gap: string, t: string)
    requires Space(gap) && t != "" && t[0] == '='
    ensures Blanks(gap + t) == |gap| && (gap + t)[|gap|..] == t
  {
    var all := gap + t;
    var j := Blanks(all);
    assert forall k | 0 <= k < |gap| :: all[k] == gap[k];
    assert all[|gap|] == '=';
  }

  /** A gap between two words. */
  lemma GapDropped(gap: string, t: string)
    requires Space(gap) && DecodeWord(t).Some?
    ensures var w := DecodeWord(t).value; AfterWord(gap + t) == w.payload + AfterWord(t[w.size..])
  {
    hide DecodeWord, Blanks, DecodeText, AfterWord;
    BlanksIs(gap, t);
    WordFirst(t);
    var w := DecodeWord(t).value;
    var all := gap + t;
    BehindGap(gap, t, w.size);
    AfterWordIs(all);
  }

  lemma BehindGap(gap: string, t: string, n: nat)
    requires n <= |t|
    ensures (gap + t)[|gap| + n..] == t[n..]
  {
  }

  lemma AfterWordIs(t: string)
    ensures var j := Blanks(t);
            AfterWord(t) == if j == 0 || DecodeWord(t[j..]).None? then DecodeText(t)
                            else DecodeWord(t[j..]).value.payload + AfterWord(t[j + DecodeWord(t[j..]).value.size..])
  {
    hide DecodeWord, Blanks, DecodeText;
  }

  lemma WordFirst(t: string)
    requires DecodeWord(t).Some?
    ensures var w := DecodeWord(t).value; DecodeText(t) == w.payload + AfterWord(t[w.size..])
  {
    hide AfterWord;
  }

  /** What follows a word: more words and their gaps, then plain text. */
  lemma {:induction false} RunDecodes(items: seq<Item>, after: string)
    requires Good(items) && Plain(after)
    ensures AfterWord(PrintRun(items) + after) == Payloads(items) + after
    decreases |items|
  {
    if items == [] {
      PlainIsUnchanged(after);
      assert PrintRun(items) + after == after;
    } else {
      var x, tail := items[0], PrintRun(items[1..]) + after;
      assert x in items;
      var w := PrintItem(x);
      WordRoundTrip(x.charset, x.encoding, x.payload, tail);
      RunDecodes(items[1..], after);
      hide DecodeWord, PrintItem, AfterWord;
      PrintItemIs(x);
      GapDropped(x.gap, w + tail);
      Drop(w, tail);
      Assoc(x.gap, w, tail);
      Assoc(x.gap + w, PrintRun(items[1..]), after);
      Assoc(x.payload, Payloads(items[1..]), after);
    }
  }

  lemma PrintItemIs(x: Item)
    requires GoodItem(x)
    ensures PrintItem(x) == PrintWord(x.charset, x.encoding, x.payload)
  {
  }

  lemma Drop(a: string, b: string)
    ensures (a + b)[|a|..] == b
  {
  }

  /**
   Plain text, a run of B and Q words separated by any linear white space, plain text:
   the payloads come out joined and the surroundings unchanged.
   */
  lemma RunOfWordsDecodes(before: string, first: Item, items: seq<Item>, after: string)
    requires Plain(before) && GoodItem(first) && Good(items) && Plain(after)
    ensures DecodeText(before + PrintItem(first) + PrintRun(items) + after)
            == before + first.payload + Payloads(items) + after
  {
    hide DecodeWord, PrintWord, AfterWord, PrintRun, Payloads, DecodeText, Plain;
    var w, tail := PrintItem(first), PrintRun(items) + after;
    WordRoundTrip(first.charset, first.encoding, first.payload, tail);
    PlainPrefix(before, w + tail);
    WordFirst(w + tail);
    Drop(w, tail);
    RunDecodes(items, after);
    Assoc(before, w, tail);
    Assoc(before + w, PrintRun(items), after);
    Assoc(first.payload, Payloads(items), after);
    Assoc(before, first.payload + Payloads(items), after);
    Assoc(before, first.payload, Payloads(items));
  }

  // ---- The decoder's loops -------------------------------------------------------------

  lemma FindFirst(t: string, c: char, i: nat)
    requires i <= |t| && (i < |t| ==> t[i] == c) && forall k | 0 <= k < i :: t[k] != c
    ensures First(t, c) == i
  {
  }

  method FindFrom(text: string, c: char, from: nat) returns (i: nat)
    requires from <= |text|
    ensures from <= i <= |text| && First(text[from..], c) == i - from
  {
    i := from;
    while i < |text| && text[i] != c
      invariant from <= i <= |text| && forall k | from <= k < i :: text[k] != c
    {
      i := i + 1;
    }
    ghost var t := text[from..];
    assert forall k | 0 <= k < i - from :: t[k] == text[from + k];
    FindFirst(t, c, i - from);
  }

  lemma FindEndFirst(t: string, i: nat)
    requires i <= |t| && (i < |t| ==> PairAt(t, i)) && forall k | 0 <= k < i :: !PairAt(t, k)
    ensures FindEnd(t) == i
  {
  }

  method FindEndFrom(text: string, from: nat) returns (i: nat)
    requires from <= |text|
    ensures from <= i <= |text| && FindEnd(text[from..]) == i - from
  {
    i := from;
    while i < |text| && !(i + 1 < |text| && text[i] == '?' && text[i + 1] == '=')
      invariant from <= i <= |text| && forall k | from <= k < i :: !PairAt(text, k)
    {
      i := i + 1;
    }
    ghost var t := text[from..];
    assert forall k :: PairAt(t, k) <==> 0 <= k && PairAt(text, from + k);
    FindEndFirst(t, i - from);
  }

  lemma DecodeRest(data: string, k: nat)
    requires k + 4 <= |data|
    ensures Decode(data[k..]) ==
              match DecodeGroup(data[k..k + 4], k + 4 == |data|)
              case None => None
              case Some(head) => match Decode(data[k + 4..]) case None => None case Some(tail) => Some(head + tail)
  {
    hide DecodeGroup, Decode;
    DecodeCons(data[k..k + 4], data[k + 4..]);
    assert data[k..] == data[k..k + 4] + data[k + 4..];
  }

  function Then(head: string, rest: Option<string>): Option<string> {
    match rest case None => None case Some(r) => Some(head + r)
  }

  lemma ThenPrefixed(head: string, c: char, rest: Option<string>)
    ensures Then(head, Prefixed(c, rest)) == Then(head + [c], rest)
  {
    if rest.Some? {
      assert head + ([c] + rest.value) == head + [c] + rest.value;
    }
  }

  lemma ThenNothing(rest: Option<string>)
    ensures Then("", rest) == rest
  {
    if rest.Some? {
      assert "" + rest.value == rest.value;
    }
  }

  lemma ThenDone(head: string)
    ensures Then(head, Some("")) == Some(head)
  {
    assert head + "" == head;
  }

  lemma ThenDecoded(head: string, group: string, rest: Option<string>)
    ensures Then(head, match rest case None => None case Some(r) => Some(group + r)) == Then(head + group, rest)
  {
    if rest.Some? {
      Assoc(head, group, rest.value);
    }
  }

  /** The B branch: four symbols at a time into a scratch buffer. */
  method DecodeB(data: string) returns (r: Option<string>)
    ensures r == BDecode(data)
  {
    hide Decode, DecodeGroup;
    if |data| % 4 != 0 {
      return None;
    }
    var scratch, k := "", 0;
    assert data[0..] == data;
    ThenNothing(Decode(data));
    DecodeNothing();
    while k < |data|
      invariant 0 <= k <= |data| && k % 4 == 0
      invariant Decode(data) == Then(scratch, Decode(data[k..]))
    {
      DecodeRest(data, k);
      var group := DecodeGroup(data[k..k + 4], k + 4 == |data|);
      if group.None? {
        return None;
      }
      ThenDecoded(scratch, group.value, Decode(data[k + 4..]));
      scratch := scratch + group.value;
      k := k + 4;
    }
    assert data[k..] == "";
    ThenDone(scratch);
    r := Some(scratch);
  }

  /** The Q branch: one octet at a time. */
  method DecodeQ(data: string) returns (r: Option<string>)
    ensures r == QDecode(data)
  {
    hide HexValue;
    var scratch, k := "", 0;
    assert data[0..] == data;
    ThenNothing(QDecode(data));
    while k < |data|
      invariant 0 <= k <= |data| && QDecode(data) == Then(scratch, QDecode(data[k..]))
    {
      var c := data[k];
      QRest(data, k);
      if c == '_' {
        ThenPrefixed(scratch, ' ', QDecode(data[k + 1..]));
        scratch := scratch + [' '];
        k := k + 1;
      } else if c == '=' {
        if k + 2 >= |data| {
          return None;
        }
        var hi, lo := HexValue(data[k + 1]), HexValue(data[k + 2]);
        if hi < 0 || lo < 0 {
          return None;
        }
        HexRange(data[k + 1]);
        HexRange(data[k + 2]);
        ThenPrefixed(scratch, Octet(hi * 16 + lo), QDecode(data[k + 3..]));
        scratch := scratch + [Octet(hi * 16 + lo)];
        k := k + 3;
      } else {
        ThenPrefixed(scratch, c, QDecode(data[k + 1..]));
        scratch := scratch + [c];
        k := k + 1;
      }
    }
    ThenDone(scratch);
    r := Some(scratch);
  }

  lemma HexRange(c: char)
    ensures -1 <= HexValue(c) < 16
  {
  }

  lemma QRest(data: string, k: nat)
    requires k < |data|
    ensures var t := data[k..];
            && t != "" && t[0] == data[k] && t[1..] == data[k + 1..]
            && (k + 2 < |data| ==> t[1] == data[k + 1] && t[2] == data[k + 2] && t[3..] == data[k + 3..])
  {
  }

  /** Any blank in the character set disqualifies the word. */
  method HasBlank(text: string, from: nat, to: nat) returns (found: bool)
    requires from <= to <= |text|
    ensures found <==> !Unblank(text[from..to])
  {
    var t := text[from..to];
    for i := 0 to |t|
      invariant forall k | 0 <= k < i :: !IsBlank(t[k])
    {
      if IsBlank(t[i]) {
        return true;
      }
    }
    found := false;
  }

  /** `decode_one_encoded_word`: `pos` itself when there is no word there, and `out` untouched. */
  method DecodeOneEncodedWord(text: string, pos: nat, out: string) returns (end: nat, now: string)
    requires pos <= |text|
    ensures match DecodeWord(text[pos..])
            case None => end == pos && now == out
            case Some(w) => end == pos + w.size && now == out + w.payload
  {
    hide First, FindEnd, Unblank, BDecode, QDecode;
    ghost var t := text[pos..];
    end, now := pos, out;
    if pos + 1 >= |text| || text[pos] != '=' || text[pos + 1] != '?' {
      return;
    }
    assert t[2..] == text[pos + 2..];
    var charsetEnd := FindFrom(text, '?', pos + 2);
    if charsetEnd == |text| || charsetEnd == pos + 2 {
      return;
    }
    var blank := HasBlank(text, pos + 2, charsetEnd);
    assert t[2..][..charsetEnd - pos - 2] == text[pos + 2..charsetEnd];
    if blank {
      return;
    }
    ghost var body := t[charsetEnd - pos + 1..];
    assert body == text[charsetEnd + 1..];
    if charsetEnd + 2 >= |text| || text[charsetEnd + 2] != '?' {
      return;
    }
    var letter := text[charsetEnd + 1];
    if letter !in {'b', 'B', 'q', 'Q'} {
      return;
    }
    var dataBegin := charsetEnd + 3;
    assert body[2..] == text[dataBegin..];
    var dataEnd := FindEndFrom(text, dataBegin);
    if dataEnd == |text| {
      return;
    }
    var data := text[dataBegin..dataEnd];
    assert body[2..][..dataEnd - dataBegin] == data;
    var decoded;
    if letter in {'b', 'B'} {
      decoded := DecodeB(data);
    } else {
      decoded := DecodeQ(data);
    }
    if decoded.Some? {
      end, now := dataEnd + 2, out + decoded.value;
    }
  }

  lemma OneChar(text: string, i: nat)
    requires i < |text| && DecodeWord(text[i..]) == None
    ensures DecodeText(text[i..]) == [text[i]] + DecodeText(text[i + 1..])
  {
    hide DecodeWord, AfterWord;
    assert text[i..][1..] == text[i + 1..];
  }

  lemma OneWord(text: string, i: nat)
    requires i <= |text| && DecodeWord(text[i..]).Some?
    ensures var w := DecodeWord(text[i..]).value;
            i + w.size <= |text| && DecodeText(text[i..]) == w.payload + AfterWord(text[i + w.size..])
  {
    var w := DecodeWord(text[i..]).value;
    WordFirst(text[i..]);
    assert text[i..][w.size..] == text[i + w.size..];
    hide DecodeWord, AfterWord;
  }

  lemma NoWordAhead(text: string, i: nat, j: nat)
    requires i <= j <= |text| && Blanks(text[i..]) == j - i && (j == i || DecodeWord(text[j..]) == None)
    ensures AfterWord(text[i..]) == DecodeText(text[i..])
  {
    hide DecodeWord, Blanks, DecodeText, AfterWord;
    Tails(text, i, j);
    AfterWordIs(text[i..]);
  }

  lemma WordAhead(text: string, i: nat, j: nat)
    requires i < j <= |text| && Blanks(text[i..]) == j - i && DecodeWord(text[j..]).Some?
    ensures var w := DecodeWord(text[j..]).value;
            j + w.size <= |text| && AfterWord(text[i..]) == w.payload + AfterWord(text[j + w.size..])
  {
    hide DecodeWord, Blanks, DecodeText, AfterWord;
    var w := DecodeWord(text[j..]).value;
    WordSizes(text[j..]);
    Tails(text, i, j);
    Tails(text, i, j + w.size);
    AfterWordIs(text[i..]);
  }

  lemma Tails(text: string, i: nat, j: nat)
    requires i <= j <= |text|
    ensures text[i..][j - i..] == text[j..]
  {
  }

  /** The words that follow a word, without the white space between them. */
  method DecodeAdjacent(text: string, i: nat, out: string) returns (end: nat, now: string)
    requires i <= |text|
    ensures i <= end <= |text| && out + AfterWord(text[i..]) == now + DecodeText(text[end..])
  {
    hide DecodeWord, Blanks, DecodeText, AfterWord;
    end, now := i, out;
    while true
      invariant i <= end <= |text| && out + AfterWord(text[i..]) == now + AfterWord(text[end..])
      decreases |text| - end
    {
      var j := SkipSpace(text, end);
      WordSizes(text[j..]);
      if j == end || j + 1 >= |text| || text[j] != '=' || text[j + 1] != '?' {
        NoWordAhead(text, end, j);
        return;
      }
      var wordEnd, scratch := DecodeOneEncodedWord(text, j, "");
      if wordEnd == j {
        NoWordAhead(text, end, j);
        return;
      }
      WordAhead(text, end, j);
      assert scratch == DecodeWord(text[j..]).value.payload;
      Assoc(now, scratch, AfterWord(text[wordEnd..]));
      now := now + scratch;
      end := wordEnd;
    }
  }

  /** `decode_encoded_words`. */
  method DecodeEncodedWords(text: string) returns (out: string)
    ensures out == DecodeText(text)
  {
    hide DecodeWord, Blanks, AfterWord;
    out := "";
    var i := 0;
    assert text[0..] == text;
    Joined(DecodeText(text));
    while i < |text|
      invariant 0 <= i <= |text| && DecodeText(text) == out + DecodeText(text[i..])
    {
      var next, now := DecodeOneEncodedWord(text, i, out);
      WordSizes(text[i..]);
      if next == i {
        OneChar(text, i);
        Assoc(out, [text[i]], DecodeText(text[i + 1..]));
        out := out + [text[i]];
        i := i + 1;
      } else {
        OneWord(text, i);
        Assoc(out, DecodeWord(text[i..]).value.payload, AfterWord(text[next..]));
        i, out := DecodeAdjacent(text, next, now);
      }
    }
  }

  lemma Joined(t: string)
    ensures "" + t == t
  {
  }

  lemma WordSizes(t: string)
    ensures var w := DecodeWord(t); w.Some? ==> 6 <= w.value.size <= |t| && t[0] == '=' && t[1] == '?'
  {
  }

  lemma BlanksFirst(t: string, i: nat)
    requires i <= |t| && (i < |t| ==> !IsSpace(t[i])) && forall k | 0 <= k < i :: IsSpace(t[k])
    ensures Blanks(t) == i
  {
  }

  method SkipSpace(text: string, i: nat) returns (j: nat)
    requires i <= |text|
    ensures i <= j <= |text| && Blanks(text[i..]) == j - i
  {
    j := i;
    while j < |text| && IsSpace(text[j])
      invariant i <= j <= |text| && forall k | i <= k < j :: IsSpace(text[k])
    {
      j := j + 1;
    }
    ghost var t := text[i..];
    assert forall k | 0 <= k < j - i :: t[k] == text[i + k];
    BlanksFirst(t, j - i);
  }
}
