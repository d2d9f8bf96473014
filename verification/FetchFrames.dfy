/**
 Where the frame of a FETCH response ends: the response is one frame whatever its literals
 hold, provided that none stands directly behind an opening parenthesis.
 */
module FetchFrames {
  import opened Decimal
  import opened FetchGrammar
  import opened FetchWalk
  import opened Framing
  import opened Tokens
  import opened WholeFrames
  import opened Wrappers

  /** The value is printed as a literal. */
  predicate IsLiteral(x: Sexp) {
    x.Literal? || (x.Str? && !OneLine(x.text))
  }

  /** No list inside the value opens with a literal. */
  predicate Apart(x: Sexp) {
    x.List? ==> (x.items != [] ==> !IsLiteral(x.items[0])) && forall y | y in x.items :: Apart(y)
  }

  // ---- One piece behind a line -----------------------------------------------------------

  /**
   Behind the open line `line`, framing passes the piece `t` in front of `rest`: either it is
   `off` octets further on, with the open line `last`, or the frame ended inside of `t`.
   */
  ghost predicate Leads(line: string, t: string, rest: string, passed: bool, off: nat, last: string) {
    var end := FrameEnd(line + (t + rest));
    if passed then NoCrlf(last) && off + |last| == |line| + |t| && end == Shifted(off, FrameEnd(last + rest))
    else end.Some? && end.value < |line| + |t|
  }

  lemma LeadsOn(line: string, t: string, u: string, rest: string, passed: bool, off: nat, last: string,
                passed': bool, off': nat, last': string)
    requires Leads(line, t, u + rest, passed, off, last) && (passed ==> Leads(last, u, rest, passed', off', last'))
    ensures Leads(line, t + u, rest, passed && passed', off + off', last')
  {
    hide FrameEnd, NoCrlf;
    Assoc(t, u, rest);
  }

  /** Text without a line end makes the line longer. */
  lemma PlainLeads(line: string, t: string, rest: string)
    requires NoCrlf(line + t)
    ensures Leads(line, t, rest, true, 0, line + t)
  {
    hide FrameEnd, NoCrlf;
    Assoc(line, t, rest);
  }

  lemma LiteralLeads(line: string, v: string, rest: string)
    requires NoCrlf(line) && Fits(v)
    ensures Leads(line, PrintLiteral(v), rest, MarkerStart(line), |line| + |PrintLiteral(v)|, "")
  {
    hide FrameEnd, PrintLiteral, MarkerStart, Marker, Digits;
    LiteralIsMarked(v, rest);
    if MarkerStart(line) {
      LiteralPassed(line, v, false, rest);
      assert "" + rest == rest;
    } else {
      LiteralNotPassed(line, |v|, false, v + rest);
    }
  }

  lemma LiteralIsMarked(v: string, rest: string)
    ensures var m := Marker(Digits(|v|), false);
            PrintLiteral(v) + rest == m + ("\r\n" + (v + rest)) && |PrintLiteral(v)| == |m| + 2 + |v|
  {
    hide Digits;
    var d := Digits(|v|);
    PrintLiteralIs(v, rest);
    Assoc("}", "\r\n", v + rest);
    assert "}" + "\r\n" == "}\r\n";
    Assoc("{" + d, "}", "\r\n" + (v + rest));
    Assoc("{", d, "}" + ("\r\n" + (v + rest)));
  }

  // ---- Values ------------------------------------------------------------------------------

  lemma AtomIsLine(text: string)
    requires WireSexp(Atom(text))
    ensures OneLine(text)
  {
    forall i | 0 <= i < |text| ensures !IsLineBreak(text[i]) {
      if i > 0 { assert IsAtomChar(text[i]); }
    }
  }

  lemma QuotedIsLine(v: string)
    requires OneLine(v)
    ensures OneLine(PrintQuoted(v))
  {
    EscapedIsOneLine(v);
  }

  /** A value is passed unless it is a literal in the wrong place or a list inside it opens with one. */
  lemma {:induction false} SexpLeads(line: string, x: Sexp, rest: string) returns (off: nat, last: string)
    requires NoCrlf(line) && WireSexp(x)
    ensures Leads(line, PrintSexp(x), rest, Apart(x) && (IsLiteral(x) ==> MarkerStart(line)), off, last)
    decreases x, 1
  {
    hide Leads, NoCrlf, MarkerStart, PrintLiteral, PrintQuoted, OneLine, PrintItems;
    if IsLiteral(x) {
      LiteralLeads(line, x.text, rest);
      off, last := |line| + |PrintSexp(x)|, "";
    } else if x.List? {
      off, last := ListLeads(line, x.items, rest);
    } else {
      if x.Atom? { AtomIsLine(x.text); } else { QuotedIsLine(x.text); }
      LineGrows(line, PrintSexp(x));
      PlainLeads(line, PrintSexp(x), rest);
      off, last := 0, line + PrintSexp(x);
    }
  }

  lemma {:induction false} ListLeads(line: string, items: seq<Sexp>, rest: string) returns (off: nat, last: string)
    requires NoCrlf(line) && forall y | y in items :: WireSexp(y)
    ensures Leads(line, PrintSexp(List(items)), rest, Apart(List(items)), off, last)
    decreases items, 1
  {
    hide Leads, NoCrlf, PrintItems, WireSexp, IsLiteral;
    if items == [] {
      assert "(" + ")" == "()" && OneLine("()") && Apart(List(items));
      LineGrows(line, "()");
      PlainLeads(line, "()", rest);
      off, last := 0, line + "()";
    } else {
      assert OneLine("(");
      LineGrows(line, "(");
      var open, first, more := line + "(", PrintSexp(items[0]), PrintItems(items[1..]);
      assert items[0] in items;
      PlainLeads(line, "(", (first + more) + rest);
      var off1, last1 := SexpLeads(open, items[0], more + rest);
      var passed := Apart(items[0]) && !IsLiteral(items[0]);
      assert !MarkerStart(open);
      var off2, last2 := 0, "";
      if passed {
        Passed(open, first, more + rest, off1, last1);
        off2, last2 := ItemsLead(last1, items[1..], rest);
      }
      ApartFirst(items);
      var all := forall y | y in items[1..] :: Apart(y);
      LeadsOn(open, first, more, rest, passed, off1, last1, all, off2, last2);
      LeadsOn(line, "(", first + more, rest, true, 0, open, passed && all, off1 + off2, last2);
      assert PrintSexp(List(items)) == "(" + (first + more);
      off, last := off1 + off2, last2;
    }
  }

  lemma Passed(line: string, t: string, rest: string, off: nat, last: string)
    requires Leads(line, t, rest, true, off, last)
    ensures NoCrlf(last)
  {
  }

  lemma ApartFirst(items: seq<Sexp>)
    requires items != []
    ensures (forall y | y in items :: Apart(y)) <==> Apart(items[0]) && forall y | y in items[1..] :: Apart(y)
    ensures Apart(List(items)) <==> !IsLiteral(items[0]) && Apart(items[0]) && forall y | y in items[1..] :: Apart(y)
  {
    hide IsLiteral;
    assert forall y :: y in items <==> y == items[0] || y in items[1..];
  }

  lemma {:induction false} ItemsLead(line: string, items: seq<Sexp>, rest: string) returns (off: nat, last: string)
    requires NoCrlf(line) && forall y | y in items :: WireSexp(y)
    ensures Leads(line, PrintItems(items), rest, forall y | y in items :: Apart(y), off, last)
    decreases items, 0
  {
    hide Leads, NoCrlf, WireSexp, IsLiteral, PrintSexp, Apart;
    if items == [] {
      assert OneLine(")");
      LineGrows(line, ")");
      PlainLeads(line, ")", rest);
      off, last := 0, line + ")";
    } else {
      assert OneLine(" ");
      LineGrows(line, " ");
      var open, first, more := line + " ", PrintSexp(items[0]), PrintItems(items[1..]);
      assert items[0] in items;
      PlainLeads(line, " ", (first + more) + rest);
      var off1, last1 := SexpLeads(open, items[0], more + rest);
      assert MarkerStart(open);
      var off2, last2 := 0, "";
      if Apart(items[0]) {
        Passed(open, first, more + rest, off1, last1);
        off2, last2 := ItemsLead(last1, items[1..], rest);
      }
      ApartFirst(items);
      var all := forall y | y in items[1..] :: Apart(y);
      LeadsOn(open, first, more, rest, Apart(items[0]), off1, last1, all, off2, last2);
      LeadsOn(line, " ", first + more, rest, true, 0, open, Apart(items[0]) && all, off1 + off2, last2);
      Assoc(" ", first, more);
      off, last := off1 + off2, last2;
    }
  }

  // ---- Attributes ----------------------------------------------------------------------------

  predicate AllApart(list: seq<Attribute>) {
    forall a | a in list :: Apart(a.value)
  }

  /** Attributes whose names stay on the line. */
  predicate LineAttributes(list: seq<Attribute>) {
    forall a | a in list :: WireAttribute(a) && NoCrlf(a.key)
  }

  lemma KeyGrows(line: string, before: string, key: string)
    requires NoCrlf(line) && NoCrlf(key) && before in {" ", "("}
    ensures NoCrlf(line + (before + (key + " "))) && MarkerStart(line + (before + (key + " ")))
  {
    var t := before + (key + " ");
    assert OneLine(before) && OneLine(" ");
    OneLineHasNoCrlf(before);
    LineGrows(key, " ");
    NoCrlfConcat(before, key + " ");
    NoCrlfConcat(line, t);
    hide NoCrlf;
    assert t[|t| - 1] == ' ';
    assert (line + t)[|line + t| - 1] == t[|t| - 1];
  }

  /** One attribute behind `before`, a space or the opening parenthesis, and the attributes behind it. */
  lemma {:induction false} AttributesLead(line: string, before: string, list: seq<Attribute>, rest: string) returns (off: nat, last: string)
    requires NoCrlf(line) && before in {" ", "("} && list != [] && LineAttributes(list)
    ensures var t := before + (list[0].key + (" " + (PrintSexp(list[0].value) + MoreAttributes(list[1..]))));
            Leads(line, t, rest, AllApart(list), off, last)
    ensures AllApart(list) ==> last != "" && last[|last| - 1] == ')'
    decreases |list|, 0
  {
    hide Leads, NoCrlf, PrintSexp, Apart, MarkerStart, WireSexp, WholeKey;
    var a, more := list[0], MoreAttributes(list[1..]);
    var head, value := before + (a.key + " "), PrintSexp(a.value);
    assert a in list;
    KeyGrows(line, before, a.key);
    PlainLeads(line, head, (value + more) + rest);
    var open := line + head;
    var off1, last1 := SexpLeads(open, a.value, more + rest);
    var off2, last2 := 0, "";
    if Apart(a.value) {
      Passed(open, value, more + rest, off1, last1);
      off2, last2 := MoreLead(last1, list[1..], rest);
    }
    assert forall b :: b in list <==> b == a || b in list[1..];
    LeadsOn(open, value, more, rest, Apart(a.value), off1, last1, AllApart(list[1..]), off2, last2);
    LeadsOn(line, head, value + more, rest, true, 0, open, Apart(a.value) && AllApart(list[1..]), off1 + off2, last2);
    Assoc(a.key, " ", value + more);
    Assoc(before, a.key + " ", value + more);
    off, last := off1 + off2, last2;
  }

  lemma {:induction false} MoreLead(line: string, list: seq<Attribute>, rest: string) returns (off: nat, last: string)
    requires NoCrlf(line) && LineAttributes(list)
    ensures Leads(line, MoreAttributes(list), rest, AllApart(list), off, last)
    ensures AllApart(list) ==> last != "" && last[|last| - 1] == ')'
    decreases |list|, 1
  {
    hide Leads, NoCrlf, PrintSexp, Apart, WireSexp, WholeKey;
    if list == [] {
      assert OneLine(")");
      LineGrows(line, ")");
      PlainLeads(line, ")", rest);
      off, last := 0, line + ")";
    } else {
      off, last := AttributesLead(line, " ", list, rest);
    }
  }

  lemma ListLead(line: string, list: seq<Attribute>, rest: string) returns (off: nat, last: string)
    requires NoCrlf(line) && LineAttributes(list)
    ensures Leads(line, PrintAttributes(list), rest, AllApart(list), off, last)
    ensures AllApart(list) ==> last != "" && last[|last| - 1] == ')'
  {
    hide Leads, NoCrlf, PrintSexp, Apart, WireSexp, WholeKey;
    if list == [] {
      assert OneLine("()");
      LineGrows(line, "()");
      PlainLeads(line, "()", rest);
      off, last := 0, line + "()";
      assert last[|last| - 1] == "()"[1];
    } else {
      off, last := AttributesLead(line, "(", list, rest);
    }
  }

  lemma ParenthesisEndsLine(last: string, rest: string)
    requires NoCrlf(last) && last != "" && last[|last| - 1] == ')'
    ensures FrameEnd(last + ("\r\n" + rest)) == Some(|last|)
  {
    assert Trailer(last) == None;
    FirstLineEnds(last, rest);
    hide Trailer, FrameEnd, NoCrlf;
  }

  /**
   A list behind the start of its line, in front of a line end and any further bytes: the frame
   ends with the list if and only if no list among the values opens with a literal.
   */
  lemma ListFramesExactly(line: string, list: seq<Attribute>, more: string)
    requires NoCrlf(line) && LineAttributes(list)
    ensures var t := line + PrintAttributes(list);
            var end := FrameEnd(t + "\r\n" + more);
            end.Some? && (end.value == |t| <==> AllApart(list)) && end.value <= |t|
  {
    hide FrameEnd, NoCrlf, PrintAttributes, LineAttributes, AllApart;
    var p := PrintAttributes(list);
    var off, last := ListLead(line, list, "\r\n" + more);
    Assoc(line + p, "\r\n", more);
    Assoc(line, p, "\r\n" + more);
    if AllApart(list) {
      ParenthesisEndsLine(last, more);
    }
  }
}
