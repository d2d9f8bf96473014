/** Rendering a mail and taking the text apart again gives the mail back. */
module MailRoundTrips {
  import opened FetchGrammar
  import opened MailTexts
  import opened Texts
  import opened Tokens
  import opened Wrappers

  // ---- Clean mails -----------------------------------------------------------------

  /** No blank at either end. */
  predicate Tight(v: string) {
    v == "" || (!IsBlank(v[0]) && !IsBlank(v[|v| - 1]))
  }

  predicate CleanText(v: string) {
    OneLine(v) && Tight(v)
  }

  predicate Lacks(v: string, cs: set<char>) {
    forall i | 0 <= i < |v| :: v[i] !in cs
  }

  /** Addresses whose printed form has one reading: no delimiter where it would be taken for one. */
  predicate CleanAddress(a: Address) {
    && a.adl == "" && (a.displayName != "" || Email(a) != "")
    && OneLine(a.displayName) && Lacks(a.displayName, {'"', '<'})
    && CleanText(Email(a)) && Lacks(Email(a), {'"', ',', '<', '>'})
    && '@' !in a.hostName && (a.hostName == "" ==> '@' !in a.mailboxName)
  }

  predicate CleanList(list: seq<Address>) {
    forall a | a in list :: CleanAddress(a)
  }

  predicate CleanMail(m: Mail) {
    var h := m.header;
    && CleanText(h.subject) && CleanText(h.date) && CleanText(h.messageId) && CleanText(h.inReplyTo)
    && CleanList(h.from) && CleanList(h.to) && CleanList(h.cc) && CleanList(h.bcc)
    && OneLine(m.contentType)
  }

  // ---- One address -------------------------------------------------------------------

  lemma BehindIs(t: string, c: char, i: nat)
    requires i <= |t| && (i > 0 ==> t[i - 1] == c) && forall k | i <= k < |t| :: t[k] != c
    ensures Behind(t, c) == i
  {
  }

  lemma FirstIs(t: string, c: char, i: nat)
    requires i <= |t| && (i < |t| ==> t[i] == c) && forall k | 0 <= k < i :: t[k] != c
    ensures First(t, c) == i
  {
  }

  lemma TightTrims(v: string)
    requires CleanText(v)
    ensures Trim(v) == v
  {
  }

  /** An e-mail address is cut where it was put together. */
  lemma SpecReadsBack(a: Address, display: string)
    requires CleanAddress(a)
    ensures SpecAddress(display, Email(a)) == a.(displayName := display)
  {
    var e := Email(a);
    TightTrims(e);
    if a.hostName == "" {
      BehindIs(e, '@', 0);
    } else {
      assert e == a.mailboxName + ("@" + a.hostName);
      BehindIs(e, '@', |a.mailboxName| + 1);
      assert e[..|a.mailboxName|] == a.mailboxName && e[|a.mailboxName| + 1..] == a.hostName;
    }
  }

  lemma QuotedTrims(display: string)
    ensures Trim("\"" + display + "\" ") == "\"" + display + "\"" && Unquoted("\"" + display + "\"") == display
  {
    var q := "\"" + display + "\"";
    assert DropWhite(q + " ") == q + " ";
    assert (q + " ")[..|q|] == q;
    assert q[1..|q| - 1] == display;
  }

  lemma NamedReadsBack(a: Address)
    requires CleanAddress(a) && a.displayName != ""
    ensures ParseAddress(Mention(a)) == a
  {
    hide Email, Trim, SpecAddress, Unquoted;
    var d, e := a.displayName, Email(a);
    var item, q := Mention(a), "\"" + d + "\" ";
    assert item == q + ("<" + e + ">");
    FirstIs(item, '<', |q|);
    BehindIs(item, '>', |item|);
    assert item[..|q|] == q && item[|q| + 1..|item| - 1] == e;
    QuotedTrims(d);
    SpecReadsBack(a, d);
  }

  lemma AddressReadsBack(a: Address)
    requires CleanAddress(a)
    ensures Mention(a) != "" && ParseAddress(Mention(a)) == a && Trim(Mention(a)) == Mention(a) && Tight(Mention(a))
  {
    if a.displayName == "" {
      TightTrims(Email(a));
      FirstIs(Email(a), '<', |Email(a)|);
      SpecReadsBack(a, "");
      hide Email, Trim, SpecAddress;
    } else {
      NamedReadsBack(a);
      MentionEnds(a);
      hide Mention, ParseAddress;
      assert DropWhite(Mention(a)) == Mention(a);
    }
  }

  lemma MentionEnds(a: Address)
    requires a.displayName != ""
    ensures var t := Mention(a); t != "" && t[0] == '"' && t[|t| - 1] == '>'
  {
  }

  // ---- Address lists ---------------------------------------------------------------------

  /** A stretch without quotes, and outside quotes without delimiters, is passed over. */
  lemma {:induction false} ScanPast(p: string, rest: string, inQuote: bool, angles: nat)
    requires '"' !in p && (inQuote || Lacks(p, {',', '<', '>'}))
    ensures ItemLength(p + rest, inQuote, angles) == |p| + ItemLength(rest, inQuote, angles)
  {
    if p == "" {
      assert p + rest == rest;
    } else {
      assert (p + rest)[1..] == p[1..] + rest;
      ScanPast(p[1..], rest, inQuote, angles);
    }
  }

  lemma ScanOne(c: char, rest: string, inQuote: bool, angles: nat)
    ensures ItemLength([c] + rest, inQuote, angles) ==
            var q := if c == '"' then !inQuote else inQuote;
            var a := if !q && c == '<' then angles + 1 else if !q && c == '>' && angles > 0 then angles - 1 else angles;
            if !q && a == 0 && c == ',' then 0 else 1 + ItemLength(rest, q, a)
  {
    assert ([c] + rest)[1..] == rest;
  }

  lemma NoQuoteIn(v: string, cs: set<char>)
    requires Lacks(v, cs) && '"' in cs
    ensures '"' !in v
  {
  }

  lemma NamedSplits(a: Address, rest: string)
    requires a.displayName != ""
    ensures Mention(a) + rest == ['"'] + (a.displayName + (['"'] + ([' '] + (['<'] + (Email(a) + (['>'] + rest))))))
    ensures |Mention(a)| == |a.displayName| + |Email(a)| + 5
  {
    hide Email;
    var d, e := a.displayName, Email(a);
    var m := "\"" + d + "\" <" + e;
    Assoc(m, ">", rest);
    Assoc("\"" + d + "\" <", e, ">" + rest);
    Assoc("\"" + d, "\" <", e + (">" + rest));
    Assoc("\"", d, "\" <" + (e + (">" + rest)));
    assert "\" <" == ['"'] + ([' '] + ['<']);
    var t := e + (">" + rest);
    Assoc(['"'], [' '] + ['<'], t);
    Assoc([' '], ['<'], t);
    assert [">"[0]] == ">" == ['>'];
  }

  lemma ScanAngle(e: string, rest: string)
    requires Lacks(e, {'"', ',', '<', '>'})
    ensures ItemLength(['<'] + (e + (['>'] + rest)), false, 0) == |e| + 2 + ItemLength(rest, false, 0)
  {
    hide ItemLength;
    NoQuoteIn(e, {'"', ',', '<', '>'});
    LacksLess(e);
    var close := ['>'] + rest;
    ScanOne('>', rest, false, 1);
    AngledPast(e, close);
    ScanOne('<', e + close, false, 0);
  }

  lemma AngledPast(e: string, rest: string)
    requires '"' !in e && Lacks(e, {',', '<', '>'})
    ensures ItemLength(e + rest, false, 1) == |e| + ItemLength(rest, false, 1)
  {
    ScanPast(e, rest, false, 1);
  }

  lemma ScanNamed(d: string, e: string, rest: string)
    requires '"' !in d && Lacks(e, {'"', ',', '<', '>'})
    ensures ItemLength(['"'] + (d + (['"'] + ([' '] + (['<'] + (e + (['>'] + rest)))))), false, 0)
            == |d| + |e| + 5 + ItemLength(rest, false, 0)
  {
    hide ItemLength;
    ScanAngle(e, rest);
    hide Lacks;
    var mail := ['<'] + (e + (['>'] + rest));
    var quote := ['"'] + ([' '] + mail);
    ScanOne(' ', mail, false, 0);
    ScanOne('"', [' '] + mail, true, 0);
    QuotedPast(d, quote);
    ScanOne('"', d + quote, false, 0);
  }

  lemma QuotedPast(d: string, rest: string)
    requires '"' !in d
    ensures ItemLength(d + rest, true, 0) == |d| + ItemLength(rest, true, 0)
  {
    ScanPast(d, rest, true, 0);
  }

  lemma LacksLess(e: string)
    requires Lacks(e, {'"', ',', '<', '>'})
    ensures Lacks(e, {',', '<', '>'})
  {
  }

  lemma ScanMention(a: Address, rest: string)
    requires CleanAddress(a)
    ensures ItemLength(Mention(a) + rest, false, 0) == |Mention(a)| + ItemLength(rest, false, 0)
  {
    var d, e := a.displayName, Email(a);
    if d == "" {
      NoQuoteIn(e, {'"', ',', '<', '>'});
      ScanPast(e, rest, false, 0);
    } else {
      NoQuoteIn(d, {'"', '<'});
      ScanNamed(d, e, rest);
      NamedSplits(a, rest);
    }
    hide Mention, Email, ItemLength;
  }

  lemma {:induction false} MentionsFront(list: seq<Address>)
    requires |list| >= 2
    ensures Mentions(list) == Mention(list[0]) + (", " + Mentions(list[1..]))
  {
    hide Mention;
    var n := |list|;
    var init := list[..n - 1];
    if n == 2 {
      Assoc(Mention(list[0]), ", ", Mention(list[1]));
    } else {
      MentionsFront(init);
      assert init[1..] == list[1..][..n - 2] && list[1..][n - 2] == list[n - 1];
      var more, last := Mentions(init[1..]), Mention(list[n - 1]);
      Assoc(Mention(list[0]), ", " + more, ", ");
      Assoc(", ", more, ", ");
      Assoc(Mention(list[0]), ", " + (more + ", "), last);
      Assoc(", ", more + ", ", last);
    }
  }

  /** An item and what follows its comma, with or without the space in front. */
  lemma ItemReadsBack(pad: string, a: Address, rest: string)
    requires CleanAddress(a) && (pad == "" || pad == " ") && (rest == "" || rest[0] == ',')
    ensures ParseAddresses(pad + (Mention(a) + rest)) == [a] + if rest == "" then [] else ParseAddresses(rest[1..])
  {
    hide ParseAddresses, Mention, ParseAddress, Trim, ItemLength, CleanAddress, Tight;
    var m := Mention(a);
    var t := pad + (m + rest);
    AddressReadsBack(a);
    ScanMention(a, rest);
    PadIsPassed(pad, m + rest);
    RestIsNoItem(rest);
    Assoc(pad, m, rest);
    var e := |pad + m|;
    assert t[..e] == pad + m;
    if rest != "" { assert t[e + 1..] == rest[1..]; }
    PadTrims(pad, m);
    AddressesStep(t, e);
  }

  lemma PadIsPassed(pad: string, t: string)
    requires pad == "" || pad == " "
    ensures ItemLength(pad + t, false, 0) == |pad| + ItemLength(t, false, 0)
  {
    ScanPast(pad, t, false, 0);
  }

  lemma RestIsNoItem(rest: string)
    requires rest == "" || rest[0] == ','
    ensures ItemLength(rest, false, 0) == 0
  {
  }

  lemma PadTrims(pad: string, v: string)
    requires (pad == "" || pad == " ") && v != "" && Tight(v) && Trim(v) == v
    ensures Trim(pad + v) == v
  {
    if pad == "" {
      assert pad + v == v;
    } else {
      assert (pad + v)[1..] == v;
    }
  }

  lemma {:induction false} ListReadsBack(pad: string, list: seq<Address>)
    requires CleanList(list) && list != [] && (pad == "" || pad == " ")
    ensures ParseAddresses(pad + Mentions(list)) == list
    decreases |list|
  {
    hide ParseAddresses, Mention, CleanAddress;
    if |list| == 1 {
      ItemReadsBack(pad, list[0], "");
      assert Mention(list[0]) + "" == Mentions(list);
    } else {
      MentionsFront(list);
      hide Mentions;
      var more := Mentions(list[1..]);
      ItemReadsBack(pad, list[0], ", " + more);
      assert (", " + more)[1..] == " " + more;
      ListReadsBack(" ", list[1..]);
    }
  }

  // ---- Fields ---------------------------------------------------------------------------

  predicate CleanField(f: Field) {
    && f.name != "" && OneLine(f.name) && ':' !in f.name && !IsBlank(f.name[0])
    && OneLine(f.value)
  }

  predicate CleanFields(fields: seq<Field>) {
    forall f | f in fields :: CleanField(f)
  }

  function Line(f: Field): string {
    f.name + ": " + f.value
  }

  /** The field as the reader holds it until its end is seen. */
  function Held(f: Field): Pending {
    Pending(f.name, Received(" " + f.value))
  }

  lemma LineIsHeld(f: Field, p: Pending)
    requires CleanField(f)
    ensures OnLine(p, Line(f)) == (Held(f), true)
  {
    hide Received;
    var line := Line(f);
    assert line == f.name + (":" + (" " + f.value));
    FirstIs(line, ':', |f.name|);
    assert line[..|f.name|] == f.name && line[|f.name| + 1..] == " " + f.value;
  }

  lemma LineIsOneLine(f: Field)
    requires CleanField(f)
    ensures OneLine(Line(f)) && Line(f) != ""
  {
  }

  lemma FirstLineOf(line: string, rest: string)
    requires OneLine(line)
    ensures LineOf(line + ("\r\n" + rest)) == line && AfterLine(line + ("\r\n" + rest)) == rest
  {
    var block := line + ("\r\n" + rest);
    FirstIs(block, '\n', |line| + 1);
    assert block[..|line| + 1] == line + "\r" && (line + "\r")[..|line|] == line;
    assert block[|line| + 2..] == rest;
    hide First, OneLine;
  }

  /** A field line in front of a block is taken off whole. */
  lemma FieldStep(f: Field, rest: string, p: Pending, h: MailHeader)
    requires CleanField(f)
    ensures ParseBlock(FieldLine(f) + rest, p, h) == ParseBlock(rest, Held(f), Flush(h, p))
  {
    var line := Line(f);
    LineIsOneLine(f);
    LineIsHeld(f, p);
    LineIs(f);
    Assoc(line, "\r\n", rest);
    FirstLineOf(line, rest);
    BlockStep(line + ("\r\n" + rest), p, h);
    hide Line, FieldLine, Held, OnLine, Flush, CleanField, ParseBlock, LineOf, AfterLine, OneLine;
  }

  lemma LineIs(f: Field)
    ensures FieldLine(f) == Line(f) + "\r\n"
  {
  }

  /** The last line of a block has no line break. */
  lemma LastField(f: Field, p: Pending, h: MailHeader)
    requires CleanField(f)
    ensures ParseBlock(Line(f), p, h) == Flush(Flush(h, p), Held(f))
  {
    var line := Line(f);
    LineIsOneLine(f);
    LineIsHeld(f, p);
    hide Line, Held, OnLine, Flush, CleanField, ParseBlock;
    FirstIs(line, '\n', |line|);
    assert line[..|line|] == line;
    BlockStep(line, p, h);
    BlockEnds(Held(f), Flush(h, p));
  }

  /** The header the fields fill, one after the other. */
  function Collected(fields: seq<Field>): MailHeader {
    if fields == [] then NO_HEADER else Flush(Collected(fields[..|fields| - 1]), Held(fields[|fields| - 1]))
  }

  /** Behind complete field lines the last field is held and the others are assigned. */
  lemma {:induction false} FieldsStep(fields: seq<Field>, rest: string)
    requires CleanFields(fields)
    ensures ParseBlock(FieldLines(fields) + rest, NOTHING_PENDING, NO_HEADER) ==
            if fields == [] then ParseBlock(rest, NOTHING_PENDING, NO_HEADER)
            else ParseBlock(rest, Held(fields[|fields| - 1]), Collected(fields[..|fields| - 1]))
    decreases |fields|
  {
    hide ParseBlock, Held, FieldLine, CleanField, Flush;
    if fields == [] {
      assert "" + rest == rest;
    } else {
      var n := |fields|;
      var init, f := fields[..n - 1], fields[n - 1];
      Assoc(FieldLines(init), FieldLine(f), rest);
      FieldsStep(init, FieldLine(f) + rest);
      if init == [] {
        NothingFlushes();
        FieldStep(f, rest, NOTHING_PENDING, NO_HEADER);
      } else {
        FieldStep(f, rest, Held(init[n - 2]), Collected(init[..n - 2]));
      }
    }
  }

  lemma NothingFlushes()
    ensures Flush(NO_HEADER, NOTHING_PENDING) == NO_HEADER
  {
  }

  /** A block of fields, the last line break cut off, fills the header field by field. */
  lemma BlockIsCollected(fields: seq<Field>)
    requires CleanFields(fields) && fields != []
    ensures |FieldLines(fields)| >= 2
    ensures ParseBlock(FieldLines(fields)[..|FieldLines(fields)| - 2], NOTHING_PENDING, NO_HEADER) == Collected(fields)
  {
    hide ParseBlock, Held, CleanField, Flush;
    var n := |fields|;
    var init, f := fields[..n - 1], fields[n - 1];
    LineIs(f);
    hide FieldLine, Line;
    Assoc(FieldLines(init), Line(f), "\r\n");
    assert FieldLines(fields)[..|FieldLines(fields)| - 2] == FieldLines(init) + Line(f);
    FieldsStep(init, Line(f));
    if init == [] {
      NothingFlushes();
      LastField(f, NOTHING_PENDING, NO_HEADER);
    } else {
      LastField(f, Held(init[n - 2]), Collected(init[..n - 2]));
    }
  }

  // ---- Folded fields ----------------------------------------------------------------------

  /** A continuation line: blanks, then more of the value. */
  datatype Fold = Fold(pad: string, text: string)

  predicate GoodFold(f: Fold) {
    f.pad != "" && (forall i | 0 <= i < |f.pad| :: IsBlank(f.pad[i])) && OneLine(f.text) && (f.text == "" || !IsBlank(f.text[0]))
  }

  function FoldLines(folds: seq<Fold>): string {
    if folds == [] then "" else folds[0].pad + folds[0].text + ("\r\n" + FoldLines(folds[1..]))
  }

  function Unfolded(folds: seq<Fold>): string {
    if folds == [] then "" else " " + folds[0].text + Unfolded(folds[1..])
  }

  lemma {:induction false} PadDrops(pad: string, text: string)
    requires (forall i | 0 <= i < |pad| :: IsBlank(pad[i])) && (text == "" || !IsBlank(text[0]))
    ensures DropBlanks(pad + text) == text
  {
    if pad == "" {
      assert pad + text == text;
    } else {
      assert (pad + text)[1..] == pad[1..] + text;
      PadDrops(pad[1..], text);
    }
  }

  lemma FoldStep(f: Fold, rest: string, p: Pending, h: MailHeader)
    requires GoodFold(f)
    ensures ParseBlock(f.pad + f.text + ("\r\n" + rest), p, h) == ParseBlock(rest, p.(value := p.value + " " + f.text), h)
  {
    var line := f.pad + f.text;
    assert line[0] == f.pad[0];
    PadDrops(f.pad, f.text);
    OneLineConcat(f.pad, f.text);
    assert OneLine(f.pad);
    FirstLineOf(line, rest);
    BlockStep(line + ("\r\n" + rest), p, h);
    hide ParseBlock, LineOf, AfterLine, DropBlanks, Flush;
  }

  /** However a value was folded, it is read as its parts joined by single spaces. */
  lemma {:induction false} FoldedFieldReads(folds: seq<Fold>, rest: string, p: Pending, h: MailHeader)
    requires forall f | f in folds :: GoodFold(f)
    ensures ParseBlock(FoldLines(folds) + rest, p, h) == ParseBlock(rest, p.(value := p.value + Unfolded(folds)), h)
    decreases |folds|
  {
    hide ParseBlock, GoodFold;
    if folds == [] {
      assert "" + rest == rest && p.value + "" == p.value;
    } else {
      var f, more := folds[0], FoldLines(folds[1..]);
      Assoc(f.pad + f.text, "\r\n" + more, rest);
      Assoc("\r\n", more, rest);
      FoldStep(f, more + rest, p, h);
      FoldedFieldReads(folds[1..], rest, p.(value := p.value + " " + f.text), h);
      Assoc(p.value, " ", f.text);
      Assoc(p.value, " " + f.text, Unfolded(folds[1..]));
    }
  }

  // ---- The header ---------------------------------------------------------------------------

  lemma CollectedMore(fields: seq<Field>, f: Field)
    ensures Collected(fields + [f]) == Flush(Collected(fields), Held(f))
  {
    assert (fields + [f])[..|fields|] == fields;
  }

  lemma HeldText(name: string, value: string)
    requires CleanText(value) && value != ""
    ensures Held(Field(name, value)) == Pending(name, value) && CutBlanks(value) == value
  {
    assert (" " + value)[1..] == value;
    assert DropBlanks(" " + value) == value;
  }

  lemma CollectedText(fields: seq<Field>, name: string, value: string)
    requires CleanText(value) && name != ""
    ensures Collected(fields + Present(name, value)) == if value == "" then Collected(fields) else AssignField(Collected(fields), name, value)
    ensures value != "" ==> CutBlanks(value) == value
  {
    hide AssignField, Held, CleanText;
    if value == "" {
      assert fields + [] == fields;
    } else {
      CollectedMore(fields, Field(name, value));
      HeldText(name, value);
    }
    hide Collected;
  }

  lemma MentionsAreClean(list: seq<Address>)
    requires CleanList(list) && list != []
    ensures CleanText(Mentions(list)) && Mentions(list) != ""
  {
    var n := |list|;
    MentionIsClean(list[n - 1]);
    hide Mention, CleanAddress, Tight;
    if n > 1 {
      var init, last := list[..n - 1], Mention(list[n - 1]);
      MentionsAreClean(init);
      MarksAreLines();
      OneLineConcat(Mentions(init), ", ");
      OneLineConcat(Mentions(init) + ", ", last);
      TightConcat(Mentions(init), ", ", last);
      hide OneLine;
    }
  }

  lemma MentionIsClean(a: Address)
    requires CleanAddress(a)
    ensures CleanText(Mention(a)) && Mention(a) != ""
  {
    AddressReadsBack(a);
    var d, e := a.displayName, Email(a);
    hide ParseAddress, Trim, Email, Tight;
    OneLineConcat("\"", d);
    OneLineConcat("\"" + d, "\" <");
    OneLineConcat("\"" + d + "\" <", e);
    OneLineConcat("\"" + d + "\" <" + e, ">");
    MarksAreLines();
    hide OneLine;
  }

  lemma MarksAreLines()
    ensures OneLine("\"") && OneLine("\" <") && OneLine(">") && OneLine(", ")
  {
  }

  lemma TightConcat(a: string, b: string, c: string)
    requires Tight(a) && Tight(c) && a != "" && c != ""
    ensures Tight(a + b + c)
  {
  }

  lemma CollectedList(fields: seq<Field>, name: string, list: seq<Address>)
    requires CleanList(list) && name != ""
    ensures Collected(fields + PresentList(name, list)) ==
            if list == [] then Collected(fields) else AssignField(Collected(fields), name, Mentions(list))
    ensures list != [] ==> CutBlanks(Mentions(list)) == Mentions(list) && ParseAddresses(Mentions(list)) == list
  {
    hide AssignField, Mentions, CleanAddress, CleanText, ParseAddresses;
    if list == [] {
      assert fields + [] == fields;
    } else {
      MentionsAreClean(list);
      CollectedText(fields, name, Mentions(list));
      ListReadsBack("", list);
      assert "" + Mentions(list) == Mentions(list);
    }
    hide Collected;
  }

  lemma AssignTexts(h: MailHeader, v: string)
    ensures AssignField(h, "Subject", v) == h.(subject := CutBlanks(v))
    ensures AssignField(h, "Date", v) == h.(date := CutBlanks(v))
    ensures AssignField(h, "Message-ID", v) == h.(messageId := CutBlanks(v))
    ensures AssignField(h, "In-Reply-To", v) == h.(inReplyTo := CutBlanks(v))
    ensures AssignField(h, "Content-Type", v) == h
  {
    hide CutBlanks, ParseAddresses;
  }

  lemma AssignLists(h: MailHeader, v: string)
    ensures AssignField(h, "From", v) == h.(from := h.from + ParseAddresses(CutBlanks(v)))
    ensures AssignField(h, "To", v) == h.(to := h.to + ParseAddresses(CutBlanks(v)))
    ensures AssignField(h, "Cc", v) == h.(cc := h.cc + ParseAddresses(CutBlanks(v)))
    ensures AssignField(h, "Bcc", v) == h.(bcc := h.bcc + ParseAddresses(CutBlanks(v)))
  {
    hide CutBlanks, ParseAddresses;
    assert ToUpper("From"[0]) != ToUpper("Date"[0]);
    assert ToUpper("Cc"[0]) != ToUpper("To"[0]);
  }
  /** A text field that was not assigned yet takes its value. */
  lemma TextStep(fields: seq<Field>, name: string, value: string, h: MailHeader, g: MailHeader)
    requires CleanText(value) && name != "" && Collected(fields) == h
    requires value != "" ==> AssignField(h, name, value) == g
    requires value == "" ==> g == h
    ensures Collected(fields + Present(name, value)) == g
  {
    CollectedText(fields, name, value);
    hide Collected, AssignField, CleanText;
  }

  lemma TextsAssigned(h: MailHeader, v: string)
    requires CleanText(v) && v != ""
    ensures AssignField(h, "Subject", v) == h.(subject := v)
    ensures AssignField(h, "Date", v) == h.(date := v)
    ensures AssignField(h, "Message-ID", v) == h.(messageId := v)
    ensures AssignField(h, "In-Reply-To", v) == h.(inReplyTo := v)
  {
    HeldText("Subject", v);
    AssignTexts(h, v);
    hide AssignField, CutBlanks;
  }

  lemma ListStep(fields: seq<Field>, name: string, list: seq<Address>, h: MailHeader, g: MailHeader)
    requires CleanList(list) && name != "" && Collected(fields) == h
    requires list != [] ==> AssignField(h, name, Mentions(list)) == g
    requires list == [] ==> g == h
    ensures Collected(fields + PresentList(name, list)) == g
  {
    CollectedList(fields, name, list);
    hide Collected, AssignField, CleanList;
  }

  lemma ListsAssigned(h: MailHeader, list: seq<Address>)
    requires CleanList(list) && list != []
    ensures h.from == [] ==> AssignField(h, "From", Mentions(list)) == h.(from := list)
    ensures h.to == [] ==> AssignField(h, "To", Mentions(list)) == h.(to := list)
    ensures h.cc == [] ==> AssignField(h, "Cc", Mentions(list)) == h.(cc := list)
    ensures h.bcc == [] ==> AssignField(h, "Bcc", Mentions(list)) == h.(bcc := list)
  {
    CollectedList([], "From", list);
    AssignLists(h, Mentions(list));
    hide AssignField, CutBlanks, ParseAddresses, Mentions, CleanList;
  }

  /** The Content-Type field is read over. */
  lemma ContentTypeIsDropped(fields: seq<Field>, value: string)
    ensures Collected(fields + Present("Content-Type", value)) == Collected(fields)
  {
    if value == "" {
      assert fields + [] == fields;
    } else {
      CollectedMore(fields, Field("Content-Type", value));
      AssignTexts(Collected(fields), Held(Field("Content-Type", value)).value);
      hide AssignField, Collected;
    }
  }

  /** The address fields of `h` and its subject, as the first five fields give them. */
  lemma FrontIsCollected(h: MailHeader)
    requires CleanText(h.subject) && CleanList(h.from) && CleanList(h.to) && CleanList(h.cc) && CleanList(h.bcc)
    ensures Collected(Present("Subject", h.subject) + PresentList("From", h.from) + PresentList("To", h.to)
                      + PresentList("Cc", h.cc) + PresentList("Bcc", h.bcc))
            == MailHeader(h.subject, h.from, h.to, h.cc, h.bcc, "", "", "")
  {
    hide AssignField, CleanText, CleanList, Present, PresentList, Collected, Mentions;
    var h0 := NO_HEADER;
    var h1 := h0.(subject := h.subject);
    var h2 := h1.(from := h.from);
    var h3 := h2.(to := h.to);
    var h4 := h3.(cc := h.cc);
    if h.subject != "" { TextsAssigned(h0, h.subject); }
    NothingCollected();
    TextStep([], "Subject", h.subject, h0, h1);
    assert [] + Present("Subject", h.subject) == Present("Subject", h.subject);
    var fs := Present("Subject", h.subject);
    if h.from != [] { ListsAssigned(h1, h.from); }
    ListStep(fs, "From", h.from, h1, h2);
    fs := fs + PresentList("From", h.from);
    if h.to != [] { ListsAssigned(h2, h.to); }
    ListStep(fs, "To", h.to, h2, h3);
    fs := fs + PresentList("To", h.to);
    if h.cc != [] { ListsAssigned(h3, h.cc); }
    ListStep(fs, "Cc", h.cc, h3, h4);
    fs := fs + PresentList("Cc", h.cc);
    if h.bcc != [] { ListsAssigned(h4, h.bcc); }
    ListStep(fs, "Bcc", h.bcc, h4, h4.(bcc := h.bcc));
  }

  lemma NothingCollected()
    ensures Collected([]) == NO_HEADER
  {
  }

  /** The fields of a clean mail fill the header it had. */
  lemma HeaderIsCollected(m: Mail)
    requires CleanMail(m)
    ensures Collected(FieldsOf(m)) == m.header
  {
    hide AssignField, CleanText, CleanList, Present, PresentList, Collected, Mentions;
    var h := m.header;
    FrontIsCollected(h);
    var fs := Present("Subject", h.subject) + PresentList("From", h.from) + PresentList("To", h.to)
              + PresentList("Cc", h.cc) + PresentList("Bcc", h.bcc);
    var h5 := MailHeader(h.subject, h.from, h.to, h.cc, h.bcc, "", "", "");
    var h6 := h5.(date := h.date);
    var h7 := h6.(messageId := h.messageId);
    if h.date != "" { TextsAssigned(h5, h.date); }
    TextStep(fs, "Date", h.date, h5, h6);
    fs := fs + Present("Date", h.date);
    if h.messageId != "" { TextsAssigned(h6, h.messageId); }
    TextStep(fs, "Message-ID", h.messageId, h6, h7);
    fs := fs + Present("Message-ID", h.messageId);
    if h.inReplyTo != "" { TextsAssigned(h7, h.inReplyTo); }
    TextStep(fs, "In-Reply-To", h.inReplyTo, h7, h);
    fs := fs + Present("In-Reply-To", h.inReplyTo);
    ContentTypeIsDropped(fs, m.contentType);
  }

  // ---- The split -----------------------------------------------------------------------------

  const BLANK := "\r\n\r\n"

  lemma FindIs(t: string, pattern: string, i: nat)
    requires pattern != "" && At(t, pattern, i) && forall k | 0 <= k < i :: !At(t, pattern, k)
    ensures Find(t, pattern) == Some(i)
  {
    hide At;
  }

  lemma NotBlankAt(t: string, k: nat)
    requires k + 2 < |t| && (t[k] != '\r' || t[k + 2] != '\r')
    ensures !At(t, BLANK, k)
  {
    assert t[k..][0] == t[k] && t[k..][2] == t[k + 2] && BLANK[0] == '\r' && BLANK[2] == '\r';
  }

  /** Field lines are not empty, so no empty line starts before their end. */
  lemma {:induction false} NoBlankLine(fields: seq<Field>, rest: string, k: nat)
    requires CleanFields(fields) && k + 2 < |FieldLines(fields)|
    ensures !At(FieldLines(fields) + rest, BLANK, k)
    decreases |fields|
  {
    var n := |fields|;
    var init, f := fields[..n - 1], fields[n - 1];
    var line, t := Line(f), FieldLines(fields) + rest;
    LineIs(f);
    LineIsOneLine(f);
    EndsInBreak(init);
    hide FieldLine, Line, CleanField, At;
    var a := FieldLines(init);
    assert t == a + (line + ("\r\n" + rest));
    if k + 2 < |a| {
      NoBlankLine(init, line + ("\r\n" + rest), k);
    } else {
      assert k + 2 == |a| ==> t[k + 2] == line[0];
      assert k + 1 == |a| ==> t[k] == a[|a| - 1];
      assert k >= |a| ==> t[k] == line[k - |a|];
      NotBlankAt(t, k);
    }
  }

  lemma EndsInBreak(fields: seq<Field>)
    ensures fields != [] ==> var t := FieldLines(fields); |t| >= 2 && t[|t| - 1] == '\n'
  {
  }

  lemma SplitIsAtFields(fields: seq<Field>, data: string)
    requires CleanFields(fields) && fields != []
    ensures |FieldLines(fields)| >= 2
    ensures SplitMessage(FieldLines(fields) + "\r\n" + data) == (FieldLines(fields)[..|FieldLines(fields)| - 2], data)
  {
    var n := |FieldLines(fields)| - 2;
    LinesEnd(fields);
    hide At, Find, FieldLines;
    var head := FieldLines(fields)[..n];
    var t := FieldLines(fields) + "\r\n" + data;
    Assoc(FieldLines(fields), "\r\n", data);
    BlankHere(head, data);
    assert t == head + (BLANK + data);
    forall k | 0 <= k < n ensures !At(t, BLANK, k) {
      NoBlankLine(fields, "\r\n" + data, k);
    }
    FindIs(t, BLANK, n);
    assert t[..n] == head && t[n + 4..] == data;
  }

  lemma LinesEnd(fields: seq<Field>)
    requires fields != []
    ensures |FieldLines(fields)| >= 2 && FieldLines(fields) == FieldLines(fields)[..|FieldLines(fields)| - 2] + "\r\n"
  {
    var f := fields[|fields| - 1];
    LineIs(f);
    hide Line;
    var t := FieldLines(fields);
    assert t[|t| - 2..] == "\r\n";
  }

  lemma BlankHere(head: string, data: string)
    ensures At(head + (BLANK + data), BLANK, |head|)
  {
    assert (head + (BLANK + data))[|head|..] == BLANK + data;
  }

  // ---- The mail ---------------------------------------------------------------------------------

  lemma FieldsAreClean(m: Mail)
    requires CleanMail(m)
    ensures CleanFields(FieldsOf(m))
  {
    var h := m.header;
    PresentIsClean("Subject", h.subject);
    ListIsClean("From", h.from);
    ListIsClean("To", h.to);
    ListIsClean("Cc", h.cc);
    ListIsClean("Bcc", h.bcc);
    PresentIsClean("Date", h.date);
    PresentIsClean("Message-ID", h.messageId);
    PresentIsClean("In-Reply-To", h.inReplyTo);
    PresentIsClean("Content-Type", m.contentType);
    NamesAreClean();
    hide CleanField, CleanList, Mentions, OneLine, Present, PresentList, CleanName;
  }

  predicate CleanName(name: string) {
    name != "" && OneLine(name) && ':' !in name && !IsBlank(name[0])
  }

  lemma NamesAreClean()
    ensures CleanName("Subject") && CleanName("From") && CleanName("To") && CleanName("Cc") && CleanName("Bcc")
    ensures CleanName("Date") && CleanName("Message-ID") && CleanName("In-Reply-To") && CleanName("Content-Type")
  {
  }

  lemma PresentIsClean(name: string, value: string)
    ensures OneLine(value) && CleanName(name) ==> CleanFields(Present(name, value))
  {
  }

  lemma ListIsClean(name: string, list: seq<Address>)
    ensures CleanList(list) && CleanName(name) ==> CleanFields(PresentList(name, list))
  {
    if CleanList(list) && list != [] { MentionsAreClean(list); }
    hide Mentions, CleanList;
  }

  /** Without any field the text starts with its empty line, and the split goes for the body. */
  lemma HeadlessBody(data: string)
    ensures SplitMessage("\r\n" + data).1 == data <==> data == ""
    ensures data == "" ==> SplitMessage("\r\n" + data).0 == "\r\n"
  {
    var t := "\r\n" + data;
    assert t[0..][0] == '\r' && "\n\n"[0] == '\n';
    if data == "" {
      assert t == "\r\n";
      ShortText();
    }
    hide At;
  }

  lemma ShortText()
    ensures Find("\r\n", BLANK) == None && Find("\r\n", "\n\n") == None
  {
    var t := "\r\n";
    assert t[1..] == "\n" && "\n"[1..] == "" && t[0] != "\n\n"[0];
  }

  lemma HeadlessHeader()
    ensures ParseBlock("\r\n", NOTHING_PENDING, NO_HEADER) == NO_HEADER
  {
    var none: string := "";
    FirstLineOf(none, none);
    assert none + ("\r\n" + none) == "\r\n";
    BlockStep("\r\n", NOTHING_PENDING, NO_HEADER);
    NothingFlushes();
    BlockEnds(NOTHING_PENDING, NO_HEADER);
    hide ParseBlock, LineOf, AfterLine, Flush;
  }

  /**
   A mail whose fields and addresses are clean, with any octets as body, comes back from its
   printed form with the same header and body (the content type is not read back), just
   when some field was printed or the body is empty.
   */
  lemma MailRoundTrip(m: Mail)
    requires CleanMail(m)
    ensures ParseMail(MailText(m)) == m.(contentType := "") <==> FieldsOf(m) != [] || m.data == ""
  {
    hide ParseBlock, SplitMessage;
    var fields := FieldsOf(m);
    FieldsAreClean(m);
    HeaderIsCollected(m);
    hide FieldsOf, CleanMail, CleanFields;
    if fields != [] {
      SplitIsAtFields(fields, m.data);
      BlockIsCollected(fields);
      hide FieldLines, Collected;
    } else {
      NoLines();
      NothingCollected();
      HeadlessBody(m.data);
      HeadlessHeader();
      assert "" + "\r\n" + m.data == "\r\n" + m.data;
    }
  }
}
