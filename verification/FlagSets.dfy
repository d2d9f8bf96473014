/** Message flags, how APPEND prints them and how FETCH data lists them. */
module FlagSets {
  import opened Tokens
  import opened Wrappers

  datatype FlagSet = FlagSet(answered: bool, deleted: bool, draft: bool, flagged: bool, recent: bool, seen: bool)
  {
    predicate Any() {
      answered || deleted || draft || flagged || recent || seen
    }

    /** The flags that are set, in the order of the wire. */
    function Names(): seq<string> {
      When(answered, "\\Answered") + When(deleted, "\\Deleted") + When(draft, "\\Draft")
      + When(flagged, "\\Flagged") + When(recent, "\\Recent") + When(seen, "\\Seen")
    }

    function Union(f: FlagSet): FlagSet {
      FlagSet(answered || f.answered, deleted || f.deleted, draft || f.draft, flagged || f.flagged, recent || f.recent, seen || f.seen)
    }
  }

  const NO_FLAGS := FlagSet(false, false, false, false, false, false)

  function When(on: bool, name: string): seq<string> {
    if on then [name] else []
  }

  function Spaced(words: seq<string>): string {
    if words == [] then ""
    else if |words| == 1 then words[0]
    else Spaced(words[..|words| - 1]) + " " + words[|words| - 1]
  }

  function PrintFlags(f: FlagSet): string {
    "(" + Spaced(f.Names()) + ")"
  }

  // ---- Reading -----------------------------------------------------------------------

  const FLAG_STOPS := " ()"

  /** Sets the flag called `name`; other names are dropped. */
  function SetFlag(f: FlagSet, name: string): FlagSet {
    if IEquals(name, "\\Seen") then f.(seen := true)
    else if IEquals(name, "\\Answered") then f.(answered := true)
    else if IEquals(name, "\\Flagged") then f.(flagged := true)
    else if IEquals(name, "\\Deleted") then f.(deleted := true)
    else if IEquals(name, "\\Draft") then f.(draft := true)
    else if IEquals(name, "\\Recent") then f.(recent := true)
    else f
  }

  function ReadFlagItems(t: string, f: FlagSet): (p: Parse<FlagSet>)
    ensures p != Dangling && (p.Got? ==> |p.rest| < |t|)
    decreases |t|
  {
    var s := SkipSpaces(t);
    if s == "" then Fail
    else if s[0] == ')' then Got(f, s[1..])
    else
      var k := StopLength(s, FLAG_STOPS);
      if k == 0 then Fail else ReadFlagItems(s[k..], SetFlag(f, s[..k]))
  }

  /** `parse_flag_list`: the flags of the list are added to `f`. */
  function ReadFlags(t: string, f: FlagSet): (p: Parse<FlagSet>)
    ensures p != Dangling && (p.Got? ==> |p.rest| < |t|)
  {
    if t == "" || t[0] != '(' then Fail else ReadFlagItems(t[1..], f)
  }

  // ---- Round trip ---------------------------------------------------------------------

  predicate FlagName(name: string) {
    name != "" && forall i | 0 <= i < |name| :: name[i] !in FLAG_STOPS
  }

  function SetAll(f: FlagSet, names: seq<string>): FlagSet
    decreases |names|
  {
    if names == [] then f else SetAll(SetFlag(f, names[0]), names[1..])
  }

  /** The names, each behind a space, and the closing parenthesis. */
  function NamesThen(names: seq<string>, rest: string): string {
    if names == [] then ")" + rest else " " + (names[0] + NamesThen(names[1..], rest))
  }

  lemma {:induction false} NamesRead(names: seq<string>, rest: string, f: FlagSet)
    requires forall n | n in names :: FlagName(n)
    ensures ReadFlagItems(NamesThen(names, rest), f) == Got(SetAll(f, names), rest)
    decreases |names|
  {
    hide SetFlag;
    var t := NamesThen(names, rest);
    if names == [] {
      assert t[1..] == rest;
    } else {
      var name, more := names[0], NamesThen(names[1..], rest);
      NameEnds(name, names[1..], rest);
      assert t[1..] == name + more;
      NamesRead(names[1..], rest, SetFlag(f, name));
      hide NamesThen;
      assert SkipSpaces(t) == name + more;
    }
  }

  lemma NameEnds(name: string, names: seq<string>, rest: string)
    requires FlagName(name)
    ensures var t := name + NamesThen(names, rest);
            && StopLength(t, FLAG_STOPS) == |name| && t[..|name|] == name && t[|name|..] == NamesThen(names, rest)
            && SkipSpaces(t) == t && t[0] != ')'
  {
    var more := NamesThen(names, rest);
    assert more != "" && more[0] in FLAG_STOPS;
    var t := name + more;
    assert t[0] == name[0];
    StopLengthIs(t, FLAG_STOPS, |name|);
  }

  lemma {:induction false} SpacedFront(names: seq<string>, rest: string)
    requires names != []
    ensures " " + (Spaced(names) + (")" + rest)) == NamesThen(names, rest)
  {
    if |names| == 1 {
      assert NamesThen(names[1..], rest) == ")" + rest;
    } else {
      SpacedHead(names);
      SpacedFront(names[1..], rest);
      Assoc(names[0], " " + Spaced(names[1..]), ")" + rest);
      Assoc(" ", Spaced(names[1..]), ")" + rest);
    }
  }

  lemma {:induction false} SpacedHead(names: seq<string>)
    requires |names| >= 2
    ensures Spaced(names) == names[0] + (" " + Spaced(names[1..]))
  {
    var n := |names|;
    var init, last := names[..n - 1], names[n - 1];
    if n == 2 {
      Assoc(names[0], " ", last);
    } else {
      SpacedHead(init);
      assert init[1..] == names[1..][..n - 2] && names[1..][n - 2] == last;
      var more := Spaced(init[1..]);
      Assoc(names[0], " " + more, " ");
      Assoc(" ", more, " ");
      Assoc(names[0], " " + (more + " "), last);
      Assoc(" ", more + " ", last);
    }
  }

  lemma SetAllConcat(f: FlagSet, a: seq<string>, b: seq<string>)
    ensures SetAll(f, a + b) == SetAll(SetAll(f, a), b)
    decreases |a|
  {
    hide SetFlag;
    if a == [] {
      assert a + b == b;
    } else {
      assert (a + b)[1..] == a[1..] + b;
      SetAllConcat(SetFlag(f, a[0]), a[1..], b);
    }
  }

  lemma SetMore(f: FlagSet, names: seq<string>, on: bool, name: string)
    ensures SetAll(f, names + When(on, name)) == if on then SetFlag(SetAll(f, names), name) else SetAll(f, names)
  {
    hide SetFlag;
    SetAllConcat(f, names, When(on, name));
    var g := SetAll(f, names);
    if on {
      assert [name][1..] == [];
      assert SetAll(g, [name]) == SetAll(SetFlag(g, name), []);
    }
  }

  lemma FirstNames(f: FlagSet, on: bool)
    ensures (if on then SetFlag(f, "\\Answered") else f) == f.(answered := f.answered || on)
    ensures (if on then SetFlag(f, "\\Deleted") else f) == f.(deleted := f.deleted || on)
    ensures (if on then SetFlag(f, "\\Draft") else f) == f.(draft := f.draft || on)
  {
    assert ToUpper("\\Deleted"[1]) != ToUpper("\\Flagged"[1]);
  }

  lemma LastNames(f: FlagSet, on: bool)
    ensures (if on then SetFlag(f, "\\Flagged") else f) == f.(flagged := f.flagged || on)
    ensures (if on then SetFlag(f, "\\Recent") else f) == f.(recent := f.recent || on)
    ensures (if on then SetFlag(f, "\\Seen") else f) == f.(seen := f.seen || on)
  {
  }

  lemma FirstHalfSet(f: FlagSet, g: FlagSet)
    ensures SetAll(f, When(g.answered, "\\Answered") + When(g.deleted, "\\Deleted") + When(g.draft, "\\Draft"))
            == f.(answered := f.answered || g.answered, deleted := f.deleted || g.deleted, draft := f.draft || g.draft)
  {
    NothingSet(f);
    hide SetAll, SetFlag, When;
    var names := When(g.answered, "\\Answered");
    assert [] + names == names;
    SetMore(f, [], g.answered, "\\Answered");
    FirstNames(f, g.answered);
    SetMore(f, names, g.deleted, "\\Deleted");
    FirstNames(SetAll(f, names), g.deleted);
    names := names + When(g.deleted, "\\Deleted");
    SetMore(f, names, g.draft, "\\Draft");
    FirstNames(SetAll(f, names), g.draft);
  }

  lemma AllNamesSet(f: FlagSet, g: FlagSet)
    ensures SetAll(f, g.Names()) == f.Union(g)
  {
    FirstHalfSet(f, g);
    hide SetAll, SetFlag, When;
    var names := When(g.answered, "\\Answered") + When(g.deleted, "\\Deleted") + When(g.draft, "\\Draft");
    SetMore(f, names, g.flagged, "\\Flagged");
    LastNames(SetAll(f, names), g.flagged);
    names := names + When(g.flagged, "\\Flagged");
    SetMore(f, names, g.recent, "\\Recent");
    LastNames(SetAll(f, names), g.recent);
    names := names + When(g.recent, "\\Recent");
    SetMore(f, names, g.seen, "\\Seen");
    LastNames(SetAll(f, names), g.seen);
  }

  lemma WireNamesAreNames(f: FlagSet)
    ensures forall n | n in f.Names() :: FlagName(n)
  {
    NamesHaveNoStops();
    hide FlagName;
  }

  lemma NamesHaveNoStops()
    ensures FlagName("\\Answered") && FlagName("\\Deleted") && FlagName("\\Draft")
    ensures FlagName("\\Flagged") && FlagName("\\Recent") && FlagName("\\Seen")
  {
  }

  lemma NothingSet(f: FlagSet)
    ensures SetAll(f, []) == f && Spaced([]) == "" && f.Union(NO_FLAGS) == f
  {
  }

  /** A printed flag list adds exactly its flags, and reading stops behind it. */
  lemma FlagsRoundTrip(g: FlagSet, rest: string, f: FlagSet)
    ensures ReadFlags(PrintFlags(g) + rest, f) == Got(f.Union(g), rest)
  {
    var names := g.Names();
    WireNamesAreNames(g);
    AllNamesSet(f, g);
    hide Spaced, SetAll, SetFlag, FlagName;
    var inner := Spaced(names) + (")" + rest);
    Assoc("(" + Spaced(names), ")", rest);
    Assoc("(", Spaced(names), ")" + rest);
    var t := PrintFlags(g) + rest;
    assert t == "(" + inner && t[1..] == inner;
    NamesRead(names, rest, f);
    if names == [] {
      NothingSet(f);
      assert inner == ")" + rest;
    } else {
      SpacedFront(names, rest);
      SpaceReads(inner, f);
    }
  }

  lemma SpaceReads(t: string, f: FlagSet)
    ensures ReadFlagItems(" " + t, f) == ReadFlagItems(t, f)
  {
    assert (" " + t)[1..] == t;
    hide SetFlag;
  }
}
