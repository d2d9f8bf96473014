/** What every reachable state of the engine satisfies. */
module EngineInvariants {
  import opened Commands
  import opened Engine
  import opened Wrappers

  // ---- The invariant ----------------------------------------------------

  ghost predicate Sorted(q: seq<Cell>) {
    forall i, j | 0 <= i < j < |q| :: q[i].id < q[j].id
  }

  ghost function LogIds(log: seq<Terminal>): set<nat> {
    set t | t in log :: t.id
  }

  ghost predicate LoggedOnce(log: seq<Terminal>) {
    forall i, j | 0 <= i < j < |log| :: log[i].id != log[j].id
  }

  /** Each of the `n` submitted cells is either queued or has had exactly one terminal call. */
  ghost predicate Conserved(q: seq<Cell>, log: seq<Terminal>, n: nat) {
    && Sorted(q)
    && LoggedOnce(log)
    && Ids(q) !! LogIds(log)
    && (forall id: nat :: id < n <==> id in Ids(q) || id in LogIds(log))
  }

  /** A cell is dropped without a call to its handler only on an abandoned engine. */
  ghost predicate DropsAreAbandoned(log: seq<Terminal>, abandoned: bool) {
    forall t | t in log :: t.ending == Dropped ==> abandoned
  }

  /** The staged flag marks exactly the cells of the write in progress. */
  ghost predicate Staging(q: seq<Cell>, batch: seq<Chunk>, n: nat) {
    && (forall c | c in q :: c.Valid() && (c.staged <==> c.id in BatchIds(batch)))
    && (forall ch | ch in batch :: ch.id < n)
  }

  ghost predicate Serials(q: seq<Cell>, counter: nat, minted: set<nat>) {
    && (forall n | n in minted :: n < counter)
    && (forall c | c in q :: c.serial < counter && c.serial !in minted)
    && (forall c, d | c in q && d in q :: c.serial == d.serial ==> c == d)
  }

  /** The registry maps the tags of exactly the attached queued cells to those cells. */
  ghost predicate Coherent(q: seq<Cell>, registry: map<string, nat>) {
    && (forall c | c in q :: if c.detached then c.Tag() !in registry
                             else c.Tag() in registry && registry[c.Tag()] == c.id)
    && (forall tag | tag in registry :: exists c :: c in q && c.Tag() == tag && c.id == registry[tag])
  }

  /** Nothing of the cell has been staged, flushed or answered. */
  ghost predicate Fresh(c: Cell) {
    !c.staged && !c.hasWritten && c.command.Rendered()
  }

  /** The cell's synchronizing line is staged or on the wire and no continuation has answered it. */
  ghost predicate LineOut(c: Cell) {
    match c.command
    case Segmented(segs, emitted, unlocked, _, _) =>
      unlocked < |segs| && emitted + (if c.staged then 1 else 0) == unlocked
    case IdleCommand(phase, _, pending, _) =>
      phase == IdleSent && (c.staged || !pending)
  }

  /** Behind a cell that waits for a continuation nothing has started. */
  ghost predicate Walled(q: seq<Cell>) {
    forall a, b | a in q && b in q && a.AwaitsContinuation() && a.id < b.id :: Fresh(b)
  }

  /** The continuation route leads to the one cell whose line is out; it only ever names a waiting cell. */
  ghost predicate Routed(q: seq<Cell>, target: Option<nat>) {
    && Walled(q)
    && (forall c | c in q && LineOut(c) :: target == Some(c.id))
    && (target.Some? ==> exists c :: c in q && c.id == target.value && c.AwaitsContinuation() && !Fresh(c))
  }

  ghost predicate AllStaged(q: seq<Cell>) {
    forall c | c in q :: c.staged
  }

  ghost predicate AllSent(q: seq<Cell>) {
    forall c | c in q :: c.staged || c.IsWritten()
  }

  /** Once the engine leaves `Open` nothing but the write in progress and unanswered commands is left. */
  ghost predicate TornDown(s: Core) {
    && (s.abandoned || s.lost ==> s.phase != Open && s.registry == map[] && AllStaged(s.queue))
    && (s.phase != Open ==> s.target == None && AllSent(s.queue))
    && (s.phase == Closed ==> NotReading(s.read) && NotWriting(s.write)) && (s.write == Failing ==> s.phase != Open)
    && (s.phase == Draining && NotReading(s.read) && NotWriting(s.write) ==> s.read == Losing || s.write == Failing)
  }

  ghost predicate Books(s: Core) {
    && Conserved(s.queue, s.log, |s.commands|)
    && DropsAreAbandoned(s.log, s.abandoned)
    && Staging(s.queue, Batch(s.write), |s.commands|)
    && Serials(s.queue, s.counter, s.minted)
  }

  ghost predicate Inv(s: Core) {
    && Books(s)
    && (s.phase == Open ==> Coherent(s.queue, s.registry) && Routed(s.queue, s.target))
    && TornDown(s)
  }

  // ---- Order and membership ---------------------------------------------

  lemma TailIsLater(q: seq<Cell>)
    requires Sorted(q) && q != []
    ensures Sorted(q[1..]) && forall c | c in q[1..] :: q[0].id < c.id
    ensures Ids(q) == {q[0].id} + Ids(q[1..])
  {
    forall c | c in q[1..] ensures q[0].id < c.id {
      var i :| 0 <= i < |q[1..]| && q[1..][i] == c;
      assert q[i + 1] == c;
    }
    assert q == [q[0]] + q[1..];
  }

  lemma {:induction false} WithoutKeepsOrder(q: seq<Cell>, ids: set<nat>)
    requires Sorted(q)
    ensures Sorted(Without(q, ids)) && Sorted(Only(q, ids))
  {
    if q != [] {
      TailIsLater(q);
      WithoutKeepsOrder(q[1..], ids);
      PrependKeepsOrder(q[0], Without(q[1..], ids));
      PrependKeepsOrder(q[0], Only(q[1..], ids));
    }
  }

  lemma PrependKeepsOrder(c: Cell, q: seq<Cell>)
    requires Sorted(q) && forall d | d in q :: c.id < d.id
    ensures Sorted([c] + q)
  {
  }

  lemma SameId(q: seq<Cell>, c: Cell, d: Cell)
    requires Sorted(q) && c in q && d in q && c.id == d.id
    ensures c == d
  {
    var i :| 0 <= i < |q| && q[i] == c;
    var j :| 0 <= j < |q| && q[j] == d;
    assert i == j;
  }

  lemma LookupFinds(q: seq<Cell>, c: Cell)
    requires Sorted(q) && c in q
    ensures Lookup(q, c.id) == Some(c)
  {
    SameId(q, c, Lookup(q, c.id).value);
  }

  lemma HeadIsQueued(q: seq<Cell>)
    ensures q == [] || q[0] in q
  {
  }

  // ---- Conservation -----------------------------------------------------

  lemma EndingsIds(q: seq<Cell>, ending: Ending)
    ensures LogIds(Endings(q, ending)) == Ids(q)
    ensures Sorted(q) ==> LoggedOnce(Endings(q, ending))
  {
    forall id | id in Ids(q) ensures id in LogIds(Endings(q, ending)) {
      var c :| c in q && c.id == id;
      var i :| 0 <= i < |q| && q[i] == c;
      assert Endings(q, ending)[i] in Endings(q, ending);
    }
  }

  lemma AppendLog(a: seq<Terminal>, b: seq<Terminal>)
    requires LoggedOnce(a) && LoggedOnce(b) && LogIds(a) !! LogIds(b)
    ensures LoggedOnce(a + b) && LogIds(a + b) == LogIds(a) + LogIds(b)
  {
    forall i, j | 0 <= i < j < |a + b| ensures (a + b)[i].id != (a + b)[j].id {
      if i < |a| <= j {
        assert a[i] in a && b[j - |a|] in b;
        assert a[i].id in LogIds(a) && b[j - |a|].id in LogIds(b);
      }
    }
  }

  lemma SplitIds(q: seq<Cell>, ids: set<nat>)
    ensures Ids(Only(q, ids)) + Ids(Without(q, ids)) == Ids(q)
    ensures Ids(Only(q, ids)) !! Ids(Without(q, ids))
  {
    forall id | id in Ids(q) ensures id in Ids(Only(q, ids)) || id in Ids(Without(q, ids)) {
      var c :| c in q && c.id == id;
      assert c in (if c.id in ids then Only(q, ids) else Without(q, ids));
    }
  }

  lemma ConservedIds(q: seq<Cell>, log: seq<Terminal>, n: nat)
    requires Conserved(q, log, n)
    ensures Sorted(q) && forall c | c in q :: c.id < n
    ensures forall id | id in Ids(q) :: id < n
  {
    forall c | c in q ensures c.id < n {
      assert c.id in Ids(q);
    }
  }

  /** Taking cells and making their terminal calls loses none and repeats none. */
  lemma TakeConserves(q: seq<Cell>, log: seq<Terminal>, n: nat, ids: set<nat>, ending: Ending)
    requires Conserved(q, log, n)
    ensures Conserved(Without(q, ids), log + Endings(Only(q, ids), ending), n)
  {
    var taken := Only(q, ids);
    WithoutKeepsOrder(q, ids);
    EndingsIds(taken, ending);
    SplitIds(q, ids);
    hide Sorted, Ids, LogIds, LoggedOnce;
    AppendLog(log, Endings(taken, ending));
  }

  lemma TakeDrops(log: seq<Terminal>, abandoned: bool, q: seq<Cell>, ending: Ending)
    requires DropsAreAbandoned(log, abandoned) && (ending == Dropped ==> abandoned)
    ensures DropsAreAbandoned(log + Endings(q, ending), abandoned)
  {
  }

  /** A subset of the queue keeps what is said cell by cell. */
  lemma TakeKeeps(s: Core, ids: set<nat>, ending: Ending)
    requires Books(s) && (ending == Dropped ==> s.abandoned)
    ensures Books(Take(s, ids, ending))
  {
    TakeConserves(s.queue, s.log, |s.commands|, ids, ending);
    TakeDrops(s.log, s.abandoned, Only(s.queue, ids), ending);
    hide Conserved, DropsAreAbandoned;
  }

  lemma SwapLog(a: seq<Terminal>, b: seq<Terminal>, c: seq<Terminal>)
    requires LoggedOnce(a + b + c)
    ensures LoggedOnce(a + c + b) && LogIds(a + c + b) == LogIds(a + b + c)
    ensures forall t :: t in a + c + b <==> t in a + b + c
  {
    var x, y := a + b + c, a + c + b;
    var at := (i: int) => if i < |a| then i else if i < |a| + |c| then i + |b| else i - |c|;
    assert forall i | 0 <= i < |y| :: 0 <= at(i) < |x| && y[i] == x[at(i)];
  }

  /** One more cell was submitted: it is queued, or it has had its terminal call. */
  lemma QueueConserves(q: seq<Cell>, log: seq<Terminal>, cell: Cell)
    requires Conserved(q, log, cell.id)
    ensures Conserved(q + [cell], log, cell.id + 1)
  {
    var r := q + [cell];
    assert forall c | c in r :: c in q || c == cell;
    assert forall c | c in q :: c in r && c.id in Ids(q);
    assert cell in r;
    assert Ids(r) == Ids(q) + {cell.id};
    assert Sorted(r);
    hide Sorted, Ids, LogIds, LoggedOnce;
    assert cell.id !in LogIds(log);
  }

  lemma RejectConserves(q: seq<Cell>, log: seq<Terminal>, t: Terminal)
    requires Conserved(q, log, t.id)
    ensures Conserved(q, log + [t], t.id + 1)
  {
    assert LogIds([t]) == {t.id} by { assert [t][0] in [t]; }
    assert t.id !in LogIds(log) && t.id !in Ids(q);
    AppendLog(log, [t]);
    hide Sorted, Ids, LogIds, LoggedOnce;
  }

  lemma SameIds(p: seq<Cell>, q: seq<Cell>)
    requires |q| == |p| && forall i | 0 <= i < |q| :: q[i].id == p[i].id
    ensures Ids(q) == Ids(p) && (Sorted(p) ==> Sorted(q))
  {
    forall id | id in Ids(q) ensures id in Ids(p) {
      var c :| c in q && c.id == id;
      var i :| 0 <= i < |q| && q[i] == c;
      assert p[i] in p;
    }
    forall id | id in Ids(p) ensures id in Ids(q) {
      var c :| c in p && c.id == id;
      var i :| 0 <= i < |p| && p[i] == c;
      assert q[i] in q;
    }
  }

  /** The parts of the invariant that speak about the queue. */
  lemma Parts(s: Core)
    requires Inv(s)
    ensures Sorted(s.queue) && Staging(s.queue, Batch(s.write), |s.commands|)
    ensures Conserved(s.queue, s.log, |s.commands|) && forall c | c in s.queue :: c.id < |s.commands|
    ensures s.phase == Open ==> Coherent(s.queue, s.registry) && Routed(s.queue, s.target)
  {
    hide Sorted, Conserved, Staging, Serials, DropsAreAbandoned, Coherent, Routed, TornDown;
    ConservedIds(s.queue, s.log, |s.commands|);
  }

  // ---- Updating cells in place ------------------------------------------

  /** The same cells in the same places, with the same registrations. */
  ghost predicate Reshaped(q: seq<Cell>, r: seq<Cell>) {
    |r| == |q| && forall i | 0 <= i < |q| ::
      r[i].id == q[i].id && r[i].serial == q[i].serial && r[i].detached == q[i].detached
  }

  lemma ReshapedMember(q: seq<Cell>, r: seq<Cell>, x: Cell) returns (y: Cell)
    requires Reshaped(q, r) && x in r
    ensures y in q && y.id == x.id && y.serial == x.serial && y.detached == x.detached
  {
    var i :| 0 <= i < |r| && r[i] == x;
    y := q[i];
  }

  lemma ReshapeSerials(q: seq<Cell>, r: seq<Cell>, counter: nat, minted: set<nat>)
    requires Sorted(q) && Reshaped(q, r) && Serials(q, counter, minted)
    ensures Serials(r, counter, minted)
  {
    SameIds(q, r);
    forall x | x in r ensures x.serial < counter && x.serial !in minted {
      var y := ReshapedMember(q, r, x);
    }
    forall x, y | x in r && y in r && x.serial == y.serial ensures x == y {
      var x' := ReshapedMember(q, r, x);
      var y' := ReshapedMember(q, r, y);
      SameId(r, x, y);
    }
  }

  lemma ReshapeCoherent(q: seq<Cell>, r: seq<Cell>, registry: map<string, nat>)
    requires Reshaped(q, r) && Coherent(q, registry)
    ensures Coherent(r, registry)
  {
    hide RenderTag;
    forall x | x in r
      ensures if x.detached then x.Tag() !in registry else x.Tag() in registry && registry[x.Tag()] == x.id
    {
      var y := ReshapedMember(q, r, x);
    }
    forall tag | tag in registry ensures exists x :: x in r && x.Tag() == tag && x.id == registry[tag] {
      var y :| y in q && y.Tag() == tag && y.id == registry[tag];
      var i :| 0 <= i < |q| && q[i] == y;
      assert r[i] in r && r[i].Tag() == tag;
    }
  }

  lemma ReshapeConserves(q: seq<Cell>, r: seq<Cell>, log: seq<Terminal>, n: nat)
    requires Reshaped(q, r) && Conserved(q, log, n)
    ensures Conserved(r, log, n)
  {
    SameIds(q, r);
    hide Ids, LogIds, LoggedOnce, Sorted;
  }
}
