/** Base64 (section 4 of RFC 4648), as two encoders and the decoder of encoded words compute it. */
module Base64 {
  import opened Wrappers

  /** Characters stand for octets. */
  predicate IsOctet(c: char) {
    c as int < 256
  }

  predicate Octets(s: string) {
    forall i | 0 <= i < |s| :: IsOctet(s[i])
  }

  /** The standard alphabet: upper case, lower case, digits, `+` and `/`. */
  function Symbol(d: nat): char
    requires d < 64
  {
    if d < 26 then ('A' as int + d) as char
    else if d < 52 then ('a' as int + d - 26) as char
    else if d < 62 then ('0' as int + d - 52) as char
    else if d == 62 then '+'
    else '/'
  }

  /** `mime_base64_value`: the digit of a symbol, -2 for padding, -1 for anything else. */
  function SymbolValue(c: char): int {
    if 'A' <= c <= 'Z' then c as int - 'A' as int
    else if 'a' <= c <= 'z' then c as int - 'a' as int + 26
    else if '0' <= c <= '9' then c as int - '0' as int + 52
    else if c == '+' then 62
    else if c == '/' then 63
    else if c == '=' then -2
    else -1
  }

  lemma SymbolIsItsValue(d: nat)
    requires d < 64
    ensures SymbolValue(Symbol(d)) == d && Symbol(d) != '?' && Symbol(d) != '='
  {
  }

  // ---- Groups ----------------------------------------------------------------

  function Symbols(n: nat): (t: string)
    requires n < 0x100_0000
    ensures |t| == 4
  {
    [Symbol(n / 0x4_0000), Symbol(n / 0x1000 % 64), Symbol(n / 64 % 64), Symbol(n % 64)]
  }

  /** Four symbols for three octets, padded when there are fewer. */
  function EncodeGroup(s: string): string
    requires 1 <= |s| <= 3 && Octets(s)
  {
    if |s| == 1 then Symbols(s[0] as int * 0x1_0000)[..2] + "=="
    else if |s| == 2 then Symbols(s[0] as int * 0x1_0000 + s[1] as int * 0x100)[..3] + "="
    else Symbols(s[0] as int * 0x1_0000 + s[1] as int * 0x100 + s[2] as int)
  }

  function Encode(s: string): string
    requires Octets(s)
  {
    if s == "" then ""
    else if |s| <= 3 then EncodeGroup(s)
    else EncodeGroup(s[..3]) + Encode(s[3..])
  }

  function Octet(n: int): char
    requires 0 <= n < 256
  {
    n as char
  }

  /** One group of four symbols, in the decoder's order of tests. */
  function DecodeGroup(t: string, lastGroup: bool): Option<string>
    requires |t| == 4
  {
    var v0, v1, v2, v3 := SymbolValue(t[0]), SymbolValue(t[1]), SymbolValue(t[2]), SymbolValue(t[3]);
    if v0 == -1 || v1 == -1 || v2 == -1 || v3 == -1 then None
    else if v0 < 0 || v1 < 0 then None
    else if !lastGroup && (v2 < 0 || v3 < 0) then None
    else if v2 == -2 && v3 != -2 then None
    else if v2 < 0 then Some([Octet(v0 * 4 + v1 / 16)])
    else if v3 < 0 then Some([Octet(v0 * 4 + v1 / 16), Octet(v1 % 16 * 16 + v2 / 4)])
    else Some([Octet(v0 * 4 + v1 / 16), Octet(v1 % 16 * 16 + v2 / 4), Octet(v2 % 4 * 64 + v3)])
  }

  function Decode(t: string): Option<string> {
    if t == "" then Some("")
    else if |t| < 4 then None
    else
      match DecodeGroup(t[..4], |t| == 4)
      case None => None
      case Some(head) =>
        match Decode(t[4..])
        case None => None
        case Some(tail) => Some(head + tail)
  }

  /** The four digits of three octets, written in halves of the octets. */
  lemma GroupDigits(a: nat, b: nat, c: nat)
    requires a < 256 && b < 256 && c < 256
    ensures var n := a * 0x1_0000 + b * 0x100 + c;
            && n / 0x4_0000 == a / 4
            && n / 0x1000 % 64 == a % 4 * 16 + b / 16
            && n / 64 % 64 == b % 16 * 4 + c / 64
            && n % 64 == c % 64
  {
    var n := a * 0x1_0000 + b * 0x100 + c;
    var d0, d1, d2, d3 := a / 4, a % 4 * 16 + b / 16, b % 16 * 4 + c / 64, c % 64;
    assert n == d0 * 0x4_0000 + d1 * 0x1000 + d2 * 64 + d3;
    Places(d0, d1, d2, d3);
  }

  lemma Places(d0: nat, d1: nat, d2: nat, d3: nat)
    requires d0 < 64 && d1 < 64 && d2 < 64 && d3 < 64
    ensures var n := d0 * 0x4_0000 + d1 * 0x1000 + d2 * 64 + d3;
            n / 0x4_0000 == d0 && n / 0x1000 % 64 == d1 && n / 64 % 64 == d2 && n % 64 == d3
  {
    var n := d0 * 0x4_0000 + d1 * 0x1000 + d2 * 64 + d3;
    assert n / 64 == d0 * 0x1000 + d1 * 64 + d2;
    assert n / 0x1000 == d0 * 64 + d1;
  }

  /** The decoder puts the halves together again. */
  lemma Halves(a: nat, b: nat, c: nat)
    requires a < 256 && b < 256 && c < 256
    ensures a / 4 * 4 + (a % 4 * 16 + b / 16) / 16 == a
    ensures (a % 4 * 16 + b / 16) % 16 * 16 + (b % 16 * 4 + c / 64) / 4 == b
    ensures (b % 16 * 4 + c / 64) % 4 * 64 + c % 64 == c
  {
    Half(a % 4, b / 16);
    assert (b % 16 * 4 + c / 64) / 4 == b % 16 && (b % 16 * 4 + c / 64) % 4 == c / 64;
  }

  lemma Half(h: nat, l: nat)
    requires l < 16
    ensures (h * 16 + l) / 16 == h && (h * 16 + l) % 16 == l
  {
  }

  /** What the decoder makes of full digits, one pad, and two pads. */
  lemma DecodeDigits(d0: nat, d1: nat, d2: nat, d3: nat)
    requires d0 < 64 && d1 < 64 && d2 < 64 && d3 < 64
    ensures forall last :: DecodeGroup([Symbol(d0), Symbol(d1), Symbol(d2), Symbol(d3)], last)
              == Some([Octet(d0 * 4 + d1 / 16), Octet(d1 % 16 * 16 + d2 / 4), Octet(d2 % 4 * 64 + d3)])
    ensures DecodeGroup([Symbol(d0), Symbol(d1), Symbol(d2), '='], true)
              == Some([Octet(d0 * 4 + d1 / 16), Octet(d1 % 16 * 16 + d2 / 4)])
    ensures DecodeGroup([Symbol(d0), Symbol(d1), '=', '='], true) == Some([Octet(d0 * 4 + d1 / 16)])
  {
    SymbolIsItsValue(d0);
    SymbolIsItsValue(d1);
    SymbolIsItsValue(d2);
    SymbolIsItsValue(d3);
    hide Symbol;
    assert SymbolValue('=') == -2;
    hide SymbolValue;
  }

  lemma EncodeDigits(s: string, a: nat, b: nat, c: nat)
    requires 1 <= |s| <= 3 && Octets(s)
    requires a == s[0] as int && b == (if |s| > 1 then s[1] as int else 0) && c == if |s| > 2 then s[2] as int else 0
    ensures var d0, d1, d2, d3 := a / 4, a % 4 * 16 + b / 16, b % 16 * 4 + c / 64, c % 64;
            EncodeGroup(s) == if |s| == 1 then [Symbol(d0), Symbol(d1), '=', '=']
                              else if |s| == 2 then [Symbol(d0), Symbol(d1), Symbol(d2), '=']
                              else [Symbol(d0), Symbol(d1), Symbol(d2), Symbol(d3)]
  {
    GroupDigits(a, b, c);
    hide Symbol;
  }

  /** Decoding a group gives back its octets. */
  lemma GroupRoundTrip(s: string, lastGroup: bool)
    requires 1 <= |s| <= 3 && Octets(s) && (|s| < 3 ==> lastGroup)
    ensures |EncodeGroup(s)| == 4 && DecodeGroup(EncodeGroup(s), lastGroup) == Some(s)
  {
    hide Symbol, EncodeGroup, DecodeGroup;
    var a, b, c := s[0] as int, if |s| > 1 then s[1] as int else 0, if |s| > 2 then s[2] as int else 0;
    EncodeDigits(s, a, b, c);
    Halves(a, b, c);
    DecodeDigits(a / 4, a % 4 * 16 + b / 16, b % 16 * 4 + c / 64, c % 64);
    SameOctets(s, a, b, c);
  }

  lemma SameOctets(s: string, a: nat, b: nat, c: nat)
    requires 1 <= |s| <= 3 && Octets(s)
    requires a == s[0] as int && b == (if |s| > 1 then s[1] as int else 0) && c == if |s| > 2 then s[2] as int else 0
    ensures s == if |s| == 1 then [Octet(a)] else if |s| == 2 then [Octet(a), Octet(b)] else [Octet(a), Octet(b), Octet(c)]
  {
  }

  lemma DecodeCons(group: string, rest: string)
    requires |group| == 4
    ensures Decode(group + rest) ==
              match DecodeGroup(group, rest == "")
              case None => None
              case Some(head) => match Decode(rest) case None => None case Some(tail) => Some(head + tail)
  {
    var t := group + rest;
    assert t[..4] == group && t[4..] == rest;
    hide DecodeGroup;
  }

  /** The decoder inverts the encoder on every octet string. */
  lemma {:induction false} RoundTrip(s: string)
    requires Octets(s)
    ensures |Encode(s)| % 4 == 0 && Decode(Encode(s)) == Some(s)
    ensures s != "" ==> Encode(s) != ""
    decreases |s|
  {
    hide EncodeGroup, DecodeGroup, Decode;
    if s == "" {
      DecodeNothing();
    } else if |s| <= 3 {
      GroupRoundTrip(s, true);
      DecodeNothing();
      DecodeCons(EncodeGroup(s), "");
      assert EncodeGroup(s) + "" == EncodeGroup(s) && s + "" == s;
    } else {
      GroupRoundTrip(s[..3], false);
      RoundTrip(s[3..]);
      DecodeCons(EncodeGroup(s[..3]), Encode(s[3..]));
      assert s == s[..3] + s[3..];
    }
  }

  lemma DecodeNothing()
    ensures Decode("") == Some("")
  {
  }

  /** Encoded text never holds a question mark. */
  lemma {:induction false} NoQuestionMark(s: string)
    requires Octets(s)
    ensures '?' !in Encode(s)
    decreases |s|
  {
    hide EncodeGroup;
    if s == "" {
    } else if |s| <= 3 {
      GroupSymbols(s);
    } else {
      GroupSymbols(s[..3]);
      NoQuestionMark(s[3..]);
    }
  }

  lemma SymbolsAskNothing(n: nat)
    requires n < 0x100_0000
    ensures '?' !in Symbols(n)
  {
    SymbolIsItsValue(n / 0x4_0000);
    SymbolIsItsValue(n / 0x1000 % 64);
    SymbolIsItsValue(n / 64 % 64);
    SymbolIsItsValue(n % 64);
    hide Symbol, SymbolValue;
  }

  lemma GroupSymbols(s: string)
    requires 1 <= |s| <= 3 && Octets(s)
    ensures '?' !in EncodeGroup(s)
  {
    var n := s[0] as int * 0x1_0000 + (if |s| > 1 then s[1] as int * 0x100 else 0) + (if |s| > 2 then s[2] as int else 0);
    SymbolsAskNothing(n);
    hide Symbols;
  }

  // ---- The encoders ------------------------------------------------------------

  lemma EncodeStep(s: string, i: nat)
    requires Octets(s) && i + 3 <= |s|
    ensures Encode(s[i..]) == EncodeGroup(s[i..i + 3]) + Encode(s[i + 3..])
  {
    var t := s[i..];
    assert t[..3] == s[i..i + 3] && t[3..] == s[i + 3..];
    hide EncodeGroup;
    if |t| == 3 {
      assert t == t[..3] && t[3..] == "";
    }
  }

  lemma EncodeEnd(s: string, i: nat)
    requires Octets(s) && i <= |s| < i + 3
    ensures Encode(s[i..]) == if i == |s| then "" else EncodeGroup(s[i..])
  {
    hide EncodeGroup;
  }

  lemma FullGroup(s: string, i: nat)
    requires Octets(s) && i + 3 <= |s|
    ensures EncodeGroup(s[i..i + 3]) == Symbols(s[i] as int * 0x1_0000 + s[i + 1] as int * 0x100 + s[i + 2] as int)
  {
    hide Symbols;
  }

  lemma ShortGroup(s: string, i: nat)
    requires Octets(s) && i < |s| < i + 3
    ensures EncodeGroup(s[i..]) ==
              if |s| == i + 1 then Symbols(s[i] as int * 0x1_0000)[..2] + "=="
              else Symbols(s[i] as int * 0x1_0000 + s[i + 1] as int * 0x100)[..3] + "="
  {
    hide Symbol;
  }

  /** The encoder that appends to the rendered command. */
  method AppendBase64(wire: string, input: string) returns (out: string)
    requires Octets(input)
    ensures out == wire + Encode(input)
  {
    hide Encode, EncodeGroup, Symbols;
    out := wire;
    var i := 0;
    assert input[0..] == input;
    while i + 3 <= |input|
      invariant 0 <= i <= |input|
      invariant out + Encode(input[i..]) == wire + Encode(input)
    {
      EncodeStep(input, i);
      FullGroup(input, i);
      var n := input[i] as int * 0x1_0000 + input[i + 1] as int * 0x100 + input[i + 2] as int;
      assert out + (Symbols(n) + Encode(input[i + 3..])) == (out + Symbols(n)) + Encode(input[i + 3..]);
      out := out + Symbols(n);
      i := i + 3;
    }
    EncodeEnd(input, i);
    if |input| - i == 1 {
      ShortGroup(input, i);
      out := out + (Symbols(input[i] as int * 0x1_0000)[..2] + "==");
    } else if |input| - i == 2 {
      ShortGroup(input, i);
      out := out + (Symbols(input[i] as int * 0x1_0000 + input[i + 1] as int * 0x100)[..3] + "=");
    } else {
      assert out + "" == out;
    }
  }

  /** The encoder of the XOAUTH2 initial response: a fresh buffer, filled symbol by symbol. */
  method Base64Encode(input: string) returns (out: string)
    requires Octets(input)
    ensures out == Encode(input)
  {
    hide Encode, EncodeGroup, Symbols;
    out := "";
    var i := 0;
    assert input[0..] == input && "" + Encode(input) == Encode(input);
    while i + 3 <= |input|
      invariant 0 <= i <= |input|
      invariant out + Encode(input[i..]) == Encode(input)
    {
      EncodeStep(input, i);
      FullGroup(input, i);
      var chunk := input[i] as int * 0x1_0000 + input[i + 1] as int * 0x100 + input[i + 2] as int;
      var group := SymbolByOne(chunk);
      assert out + (Symbols(chunk) + Encode(input[i + 3..])) == (out + Symbols(chunk)) + Encode(input[i + 3..]);
      out := out + group;
      i := i + 3;
    }
    EncodeEnd(input, i);
    var rest := |input| - i;
    if rest == 1 {
      ShortGroup(input, i);
      var group := SymbolByOne(input[i] as int * 0x1_0000);
      out := out + (group[..2] + "==");
    } else if rest == 2 {
      ShortGroup(input, i);
      var group := SymbolByOne(input[i] as int * 0x1_0000 + input[i + 1] as int * 0x100);
      out := out + (group[..3] + "=");
    } else {
      assert out + "" == out;
    }
  }

  /** Four symbols pushed one at a time, most significant first. */
  method SymbolByOne(chunk: nat) returns (group: string)
    requires chunk < 0x100_0000
    ensures group == Symbols(chunk)
  {
    group := [Symbol(chunk / 0x4_0000 % 64)];
    group := group + [Symbol(chunk / 0x1000 % 64)];
    group := group + [Symbol(chunk / 64 % 64)];
    group := group + [Symbol(chunk % 64)];
  }
}
