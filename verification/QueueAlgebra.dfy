/** How loops over the queue compute what the transition system states in one piece. */
module QueueAlgebra {
  import opened Commands
  import opened Engine
  import opened EngineInvariants
  import opened EngineSteps
  import opened Wrappers

  lemma {:induction false} WithoutAppend(q: seq<Cell>, c: Cell, ids: set<nat>)
    ensures Without(q + [c], ids) == Without(q, ids) + (if c.id in ids then [] else [c])
    ensures Only(q + [c], ids) == Only(q, ids) + (if c.id in ids then [c] else [])
  {
    hide Only, Without;
    var r := q + [c];
    TakeHead(r, ids);
    NothingTaken(ids);
    if q == [] {
      assert r[1..] == [];
    } else {
      assert r[1..] == q[1..] + [c];
      TakeHead(q, ids);
      WithoutAppend(q[1..], c, ids);
      Assoc(if q[0].id in ids then [] else [q[0]], Without(q[1..], ids), if c.id in ids then [] else [c]);
      Assoc(if q[0].id in ids then [q[0]] else [], Only(q[1..], ids), if c.id in ids then [c] else []);
    }
  }

  lemma TakeHead(q: seq<Cell>, ids: set<nat>)
    requires q != []
    ensures Without(q, ids) == (if q[0].id in ids then [] else [q[0]]) + Without(q[1..], ids)
    ensures Only(q, ids) == (if q[0].id in ids then [q[0]] else []) + Only(q[1..], ids)
  {
  }

  lemma {:induction false} NoneTaken(q: seq<Cell>, ids: set<nat>)
    requires forall c | c in q :: c.id !in ids
    ensures Without(q, ids) == q && Only(q, ids) == []
  {
    if q != [] {
      assert q[0] in q;
      NoneTaken(q[1..], ids);
    }
  }

  lemma NothingTaken(ids: set<nat>)
    ensures Without([], ids) == [] && Only([], ids) == []
  {
  }

  lemma {:induction false} WithoutConcat(a: seq<Cell>, b: seq<Cell>, ids: set<nat>)
    ensures Without(a + b, ids) == Without(a, ids) + Without(b, ids)
    ensures Only(a + b, ids) == Only(a, ids) + Only(b, ids)
  {
    hide Without, Only;
    if b == [] {
      NothingTaken(ids);
      assert a + b == a;
    } else {
      var init, last := b[..|b| - 1], b[|b| - 1];
      assert b == init + [last] && a + b == (a + init) + [last];
      WithoutConcat(a, init, ids);
      WithoutAppend(a + init, last, ids);
      WithoutAppend(init, last, ids);
    }
  }

  lemma OthersDiffer(q: seq<Cell>, i: nat)
    requires Sorted(q) && i < |q|
    ensures forall c | c in q[..i] || c in q[i + 1..] :: c.id != q[i].id
  {
  }

  lemma Split<T>(q: seq<T>, i: nat)
    requires i < |q|
    ensures q == (q[..i] + [q[i]]) + q[i + 1..]
  {
  }

  /** Taking one cell splices it out of its place. */
  lemma WithoutAt(q: seq<Cell>, i: nat)
    requires Sorted(q) && i < |q|
    ensures Without(q, {q[i].id}) == q[..i] + q[i + 1..] && Only(q, {q[i].id}) == [q[i]]
  {
    hide Sorted, Without, Only;
    var ids, a, c, b := {q[i].id}, q[..i], q[i], q[i + 1..];
    OthersDiffer(q, i);
    Split(q, i);
    NoneTaken(a, ids);
    NoneTaken(b, ids);
    WithoutAppend(a, c, ids);
    WithoutConcat(a + [c], b, ids);
  }

  /** Taking by predicate is taking by identity. */
  lemma TakeBy(q: seq<Cell>, pred: Cell -> bool, ids: set<nat>, c: Cell)
    requires Sorted(q) && c in q && ids == set x | x in q && pred(x) :: x.id
    ensures c.id in ids <==> pred(c)
  {
    if c.id in ids {
      var x :| x in q && pred(x) && x.id == c.id;
      SameId(q, x, c);
    }
  }

  lemma {:induction false} WithoutTwice(q: seq<Cell>, a: set<nat>, b: set<nat>)
    ensures Without(Without(q, a), b) == Without(q, a + b)
  {
    if q != [] {
      WithoutTwice(q[1..], a, b);
    }
  }

  /** The last cell to go joins the others at the end. */
  lemma {:induction false} OnlyLast(q: seq<Cell>, ids: set<nat>, x: Cell)
    requires Sorted(q) && x in q && forall id | id in ids :: id < x.id
    ensures Only(q, ids + {x.id}) == Only(q, ids) + [x]
  {
    TailIsLater(q);
    if q[0] == x {
      forall c | c in q[1..] ensures c.id !in ids + {x.id} { assert x.id < c.id; }
      NoneTaken(q[1..], ids + {x.id});
      NoneTaken(q[1..], ids);
    } else {
      OnlyLast(q[1..], ids, x);
    }
  }

  /** Replacing one cell and taking others commute. */
  lemma {:induction false} TakeReplaced(q: seq<Cell>, x: Cell, ids: set<nat>)
    requires x.id !in ids
    ensures Without(Replace(q, x), ids) == Replace(Without(q, ids), x)
    ensures Only(Replace(q, x), ids) == Only(q, ids)
  {
    var r := Replace(q, x);
    if q != [] {
      assert r[1..] == Replace(q[1..], x);
      TakeReplaced(q[1..], x, ids);
      var rest := Without(q[1..], ids);
      assert Replace([q[0]] + rest, x) == [r[0]] + Replace(rest, x);
    }
  }

  // ---- Flushing one cell of a batch at a time ---------------------------------

  /** The queue once the cells of `ids` were flushed and the finished ones among them taken. */
  function Flushed(q: seq<Cell>, ids: set<nat>): seq<Cell> {
    Without(FlushAll(q, ids), FinishedIds(FlushAll(q, ids), ids))
  }

  function Retired(q: seq<Cell>, ids: set<nat>): seq<Cell> {
    Only(FlushAll(q, ids), FinishedIds(FlushAll(q, ids), ids))
  }

  lemma FlushOneMore(q: seq<Cell>, ids: set<nat>, c: Cell)
    requires Sorted(q) && c in q && c.id !in ids
    ensures FlushAll(q, ids + {c.id}) == Replace(FlushAll(q, ids), c.Flush())
  {
    var l, r := FlushAll(q, ids + {c.id}), Replace(FlushAll(q, ids), c.Flush());
    forall i | 0 <= i < |q| ensures l[i] == r[i] {
      if q[i].id == c.id { SameId(q, q[i], c); }
      FlushKeepsId(q[i]);
      FlushKeepsId(c);
    }
    hide Cell.Flush;
  }

  lemma FlushKeepsId(c: Cell)
    ensures c.Flush().id == c.id
  {
  }

  lemma FlushAbsent(q: seq<Cell>, ids: set<nat>, id: nat)
    requires id !in Ids(q)
    ensures FlushAll(q, ids + {id}) == FlushAll(q, ids)
    ensures FinishedIds(FlushAll(q, ids), ids + {id}) == FinishedIds(FlushAll(q, ids), ids)
  {
    assert forall i | 0 <= i < |q| :: q[i] in q && q[i].id in Ids(q);
    FlushReshapes(q, ids);
    SameIds(q, FlushAll(q, ids));
    assert forall c | c in FlushAll(q, ids) :: c.id in Ids(FlushAll(q, ids));
  }

  /** Which cells are finished once `c` was flushed as well. */
  lemma FinishedOneMore(q: seq<Cell>, ids: set<nat>, c: Cell)
    requires Sorted(q) && c in q && c.id !in ids
    ensures FinishedIds(FlushAll(q, ids + {c.id}), ids + {c.id})
            == FinishedIds(FlushAll(q, ids), ids) + (if c.detached && c.Flush().IsWritten() then {c.id} else {})
  {
    FlushOneMore(q, ids, c);
    FlushKeepsId(c);
    FlushReshapes(q, ids);
    var r, x := FlushAll(q, ids), c.Flush();
    SameIds(q, r);
    FlushedImage(q, ids, c);
    hide FlushAll, Cell.IsWritten, Sorted, Reshaped;
    ReplaceMembers(r, c, x);
    FlushKeepsDetached(c);
    hide Cell.Flush;
    forall d | d in r && d.id in ids ensures d in Replace(r, x) {
      assert d != c;
    }
  }

  lemma FlushKeepsDetached(c: Cell)
    ensures c.Flush().detached == c.detached
  {
  }

  /** One turn of the flush loop: the cell is flushed, and stays or retires. */
  lemma FlushTurn(q: seq<Cell>, ids: set<nat>, c: Cell)
    requires Sorted(q) && c in q && forall id | id in ids :: id < c.id
    ensures var q' := Replace(Flushed(q, ids), c.Flush());
            if c.detached && c.Flush().IsWritten() then
              Flushed(q, ids + {c.id}) == Without(q', {c.id}) && Retired(q, ids + {c.id}) == Retired(q, ids) + [c.Flush()]
            else
              Flushed(q, ids + {c.id}) == q' && Retired(q, ids + {c.id}) == Retired(q, ids)
  {
    hide FlushAll, Cell.Flush, Cell.IsWritten, FinishedIds, Sorted, Reshaped, Replace, Only, Without, Ids;
    var r, x := FlushAll(q, ids), c.Flush();
    var gone := FinishedIds(r, ids);
    FlushOneMore(q, ids, c);
    FinishedOneMore(q, ids, c);
    FlushKeepsId(c);
    FinishedAmong(r, ids);
    FlushedImage(q, ids, c);
    FlushReshapes(q, ids);
    assert Sorted(r) by { SameOrder(q, r); }
    TakeReplaced(r, x, gone);
    assert gone + {} == gone;
    if c.detached && x.IsWritten() {
      WithoutTwice(Replace(r, x), gone, {c.id});
      LastRetired(r, c, x, gone);
    }
  }

  lemma SameOrder(q: seq<Cell>, r: seq<Cell>)
    requires Reshaped(q, r) && Sorted(q)
    ensures Sorted(r)
  {
  }

  lemma FinishedAmong(q: seq<Cell>, ids: set<nat>)
    ensures FinishedIds(q, ids) <= ids
  {
  }

  lemma LastRetired(r: seq<Cell>, c: Cell, x: Cell, gone: set<nat>)
    requires Sorted(r) && c in r && x.id == c.id && forall id | id in gone :: id < c.id
    ensures Only(Replace(r, x), gone + {c.id}) == Only(Replace(r, x), gone) + [x]
  {
    ReplaceMembers(r, c, x);
    SameIds(r, Replace(r, x));
    hide Replace, Sorted;
    OnlyLast(Replace(r, x), gone, x);
  }

  lemma FlushedHas(q: seq<Cell>, ids: set<nat>, c: Cell)
    requires Sorted(q) && c in q && c.id !in ids
    ensures c in Flushed(q, ids) && Sorted(Flushed(q, ids))
  {
    FlushedImage(q, ids, c);
    FlushReshapes(q, ids);
    SameIds(q, FlushAll(q, ids));
    WithoutKeepsOrder(FlushAll(q, ids), FinishedIds(FlushAll(q, ids), ids));
  }

  /** The finished batch at the end of the loop. */
  lemma {:induction false} WaiterSame(q: seq<Cell>, r: seq<Cell>, batch: seq<Chunk>)
    requires forall ch | ch in batch :: Lookup(q, ch.id) == Lookup(r, ch.id)
    ensures Waiter(q, batch) == Waiter(r, batch)
  {
    if batch != [] {
      var last := batch[|batch| - 1];
      assert last in batch;
      WaiterSame(q, r, batch[..|batch| - 1]);
    }
  }

  lemma {:induction false} LookupReplaced(q: seq<Cell>, x: Cell, id: nat)
    requires id != x.id
    ensures Lookup(Replace(q, x), id) == Lookup(q, id)
  {
    if q != [] {
      assert Replace(q, x)[1..] == Replace(q[1..], x);
      LookupReplaced(q[1..], x, id);
    }
  }
}
