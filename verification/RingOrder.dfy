/** Reading the chunks in logical order recovers the newest part of the history. */
module RingOrder {
  import opened Bytes
  import opened Schema
  import opened Ring
  import opened RingInv
  import opened RingSteps
  import opened RingRuns
  import opened RingReads

  predicate Before(t: Tab, a: nat, b: nat)
    requires a < |t.heads| && b < |t.heads|
  {
    t.heads[a].gen < t.heads[b].gen || (t.heads[a].gen == t.heads[b].gen && a < b)
  }

  predicate Live(t: Tab, i: nat)
    requires i < |t.heads|
  {
    t.heads[i].gen != 0 && t.heads[i].rows != 0
  }

  /** What collecting the non-empty chunks and sorting them by generation and index has to give. */
  ghost predicate Logical(t: Tab, order: seq<nat>)
  {
    && (forall x :: 0 <= x < |order| ==> order[x] < |t.heads| && Live(t, order[x]))
    && (forall x, y :: 0 <= x < y < |order| ==> Before(t, order[x], order[y]))
    && (forall i :: 0 <= i < |t.heads| && Live(t, i) ==> i in order)
  }

  // ----- chunks_logical

  predicate Indices(t: Tab, order: seq<nat>)
  {
    forall x :: 0 <= x < |order| ==> order[x] < |t.heads|
  }

  ghost predicate Sorted(t: Tab, order: seq<nat>)
    requires Indices(t, order)
  {
    forall x, y :: 0 <= x < y < |order| ==> Before(t, order[x], order[y])
  }

  /** Insert one chunk into a sorted order. */
  function Insert(t: Tab, order: seq<nat>, i: nat): (r: seq<nat>)
    requires i < |t.heads| && Indices(t, order)
    ensures Indices(t, r) && forall j :: j in r <==> j in order || j == i
  {
    if order == [] then [i]
    else if Before(t, i, order[0]) then [i] + order
    else
      var rest := Insert(t, order[1..], i);
      assert forall j :: j in order <==> j == order[0] || j in order[1..];
      [order[0]] + rest
  }

  lemma {:induction false} InsertSorted(t: Tab, order: seq<nat>, i: nat)
    requires i < |t.heads| && Indices(t, order) && Sorted(t, order) && i !in order
    ensures Sorted(t, Insert(t, order, i))
    decreases |order|
  {
    if order != [] && !Before(t, i, order[0]) {
      InsertSorted(t, order[1..], i);
      var rest := Insert(t, order[1..], i);
      forall y | 0 <= y < |rest|
        ensures Before(t, order[0], rest[y])
      {
        assert rest[y] in order[1..] || rest[y] == i;
      }
    }
  }

  /** The non-empty chunks below index n, in (generation, index) order. */
  function Collect(t: Tab, n: nat): (r: seq<nat>)
    requires n <= |t.heads|
    ensures Indices(t, r) && forall j: nat :: j in r <==> j < n && Live(t, j)
  {
    if n == 0 then []
    else if Live(t, n - 1) then Insert(t, Collect(t, n - 1), n - 1)
    else Collect(t, n - 1)
  }

  lemma {:induction false} CollectSorted(t: Tab, n: nat)
    requires n <= |t.heads|
    ensures Sorted(t, Collect(t, n))
    decreases n
  {
    if n > 0 {
      CollectSorted(t, n - 1);
      if Live(t, n - 1) {
        InsertSorted(t, Collect(t, n - 1), n - 1);
      }
    }
  }

  function ChunksLogical(t: Tab): seq<nat>
  {
    Collect(t, |t.heads|)
  }

  lemma ChunksLogicalMeets(t: Tab)
    ensures Logical(t, ChunksLogical(t))
  {
    CollectSorted(t, |t.heads|);
  }

  // ----- the order is determined

  ghost predicate LogicalFrom(t: Tab, order: seq<nat>, done: set<nat>)
  {
    && (forall x :: 0 <= x < |order| ==> order[x] < |t.heads| && Live(t, order[x]) && order[x] !in done)
    && (forall x, y :: 0 <= x < y < |order| ==> Before(t, order[x], order[y]))
    && (forall i :: 0 <= i < |t.heads| && Live(t, i) && i !in done ==> i in order)
  }

  lemma {:induction false} OrderUniqueFrom(t: Tab, a: seq<nat>, b: seq<nat>, done: set<nat>)
    requires LogicalFrom(t, a, done) && LogicalFrom(t, b, done)
    ensures a == b
    decreases |a|
  {
    if a == [] {
      SomeMember(b);
      assert forall i :: i in b ==> i in a;
    } else {
      SameFirst(t, a, b, done);
      TailFrom(t, a, done);
      TailFrom(t, b, done);
      OrderUniqueFrom(t, a[1..], b[1..], done + {a[0]});
      assert a == [a[0]] + a[1..] && b == [b[0]] + b[1..];
    }
  }

  lemma SomeMember(b: seq<nat>)
    ensures b == [] || exists i :: i in b
  {
    if b != [] {
      assert b[0] in b;
    }
  }

  lemma FirstIsLeast(t: Tab, a: seq<nat>, done: set<nat>, i: nat)
    requires LogicalFrom(t, a, done) && i in a
    ensures i == a[0] || Before(t, a[0], i)
  {
    var x :| 0 <= x < |a| && a[x] == i;
    if x > 0 {
      assert Before(t, a[0], a[x]);
    }
  }

  lemma SameFirst(t: Tab, a: seq<nat>, b: seq<nat>, done: set<nat>)
    requires LogicalFrom(t, a, done) && LogicalFrom(t, b, done) && a != []
    ensures b != [] && b[0] == a[0]
  {
    assert a[0] in b;
    FirstIsLeast(t, b, done, a[0]);
    assert b[0] in a;
    FirstIsLeast(t, a, done, b[0]);
  }

  lemma TailFrom(t: Tab, a: seq<nat>, done: set<nat>)
    requires LogicalFrom(t, a, done) && a != []
    ensures LogicalFrom(t, a[1..], done + {a[0]})
  {
    assert forall i :: i in a && i != a[0] ==> i in a[1..];
    forall x | 0 <= x < |a| - 1
      ensures a[1..][x] != a[0]
    {
      assert Before(t, a[0], a[x + 1]);
    }
  }

  /** Two sequences that meet the specification are the same. */
  lemma OrderUnique(t: Tab, a: seq<nat>, b: seq<nat>)
    requires Logical(t, a) && Logical(t, b)
    ensures a == b
  {
    OrderUniqueFrom(t, a, b, {});
  }

  // ----- the order is the ring order

  /** Non-empty chunks from a up to b, by index. */
  function Stretch(t: Tab, a: nat, b: nat): (r: seq<nat>)
    requires a <= b <= |t.heads|
    ensures forall x :: 0 <= x < |r| ==> a <= r[x] < b && Live(t, r[x])
    ensures forall x, y :: 0 <= x < y < |r| ==> r[x] < r[y]
    ensures forall i :: a <= i < b && Live(t, i) ==> i in r
    decreases b - a
  {
    if a == b then [] else (if Live(t, a) then [a] else []) + Stretch(t, a + 1, b)
  }

  function RingOrder(t: Tab): seq<nat>
    requires t.wc < |t.heads|
  {
    Stretch(t, t.wc + 1, |t.heads|) + Stretch(t, 0, t.wc + 1)
  }

  lemma RingOrderSorted(t: Tab, x: nat, y: nat)
    requires Ring.Sized(t) && RingShape(t) && x < y < |RingOrder(t)|
    ensures RingOrder(t)[x] < |t.heads| && RingOrder(t)[y] < |t.heads| && Before(t, RingOrder(t)[x], RingOrder(t)[y])
  {
    hide StartOf, Stretch;
    var back, front := Stretch(t, t.wc + 1, |t.heads|), Stretch(t, 0, t.wc + 1);
    if y < |back| {
      assert RingOrder(t)[x] == back[x] && RingOrder(t)[y] == back[y];
    } else if x < |back| {
      assert RingOrder(t)[x] == back[x] && RingOrder(t)[y] == front[y - |back|];
    } else {
      assert RingOrder(t)[x] == front[x - |back|] && RingOrder(t)[y] == front[y - |back|];
    }
  }

  lemma RingOrderComplete(t: Tab)
    requires t.wc < |t.heads|
    ensures forall x :: 0 <= x < |RingOrder(t)| ==> RingOrder(t)[x] < |t.heads| && Live(t, RingOrder(t)[x])
    ensures forall i :: 0 <= i < |t.heads| && Live(t, i) ==> i in RingOrder(t)
  {
    hide Stretch, Live;
  }

  lemma RingOrderLogical(t: Tab)
    requires Ring.Sized(t) && RingShape(t)
    ensures Logical(t, RingOrder(t))
  {
    hide RingOrder, Before, Live, RingShape;
    RingOrderComplete(t);
    forall x, y | 0 <= x < y < |RingOrder(t)|
      ensures Before(t, RingOrder(t)[x], RingOrder(t)[y])
    {
      RingOrderSorted(t, x, y);
    }
  }

  ghost function RowsIn(rows: seq<seq<Row>>, order: seq<nat>): seq<Row>
    requires forall x :: 0 <= x < |order| ==> order[x] < |rows|
  {
    if order == [] then [] else rows[order[0]] + RowsIn(rows, order[1..])
  }

  lemma {:induction false} RowsInAppend(rows: seq<seq<Row>>, a: seq<nat>, b: seq<nat>)
    requires forall x :: 0 <= x < |a| ==> a[x] < |rows|
    requires forall x :: 0 <= x < |b| ==> b[x] < |rows|
    ensures RowsIn(rows, a + b) == RowsIn(rows, a) + RowsIn(rows, b)
    decreases |a|
  {
    if a == [] {
      assert a + b == b;
    } else {
      assert (a + b)[1..] == a[1..] + b;
      RowsInAppend(rows, a[1..], b);
    }
  }

  lemma StretchStep(t: Tab, rows: seq<seq<Row>>, a: nat, b: nat)
    requires a < b <= |t.heads| == |rows| && (Live(t, a) <==> rows[a] != [])
    ensures RowsIn(rows, Stretch(t, a, b)) == rows[a] + RowsIn(rows, Stretch(t, a + 1, b))
  {
    hide Live;
    var rest := Stretch(t, a + 1, b);
    if Live(t, a) {
      assert Stretch(t, a, b) == [a] + rest;
      assert ([a] + rest)[1..] == rest;
    } else {
      assert Stretch(t, a, b) == [] + rest;
      assert [] + rest == rest;
    }
  }

  lemma FlatStep(rows: seq<seq<Row>>, a: nat, b: nat)
    requires a < b <= |rows|
    ensures Flat(rows[a..b]) == rows[a] + Flat(rows[a + 1..b])
  {
    assert rows[a..b][1..] == rows[a + 1..b];
  }

  /** Skipping empty chunks skips no row. */
  lemma {:induction false} StretchRows(t: Tab, rows: seq<seq<Row>>, a: nat, b: nat)
    requires a <= b <= |t.heads| == |rows|
    requires forall i :: 0 <= i < |rows| ==> (Live(t, i) <==> rows[i] != [])
    ensures RowsIn(rows, Stretch(t, a, b)) == Flat(rows[a..b])
    decreases b - a
  {
    hide Live;
    if a < b {
      hide Stretch, Flat, RowsIn;
      StretchRows(t, rows, a + 1, b);
      StretchStep(t, rows, a, b);
      FlatStep(rows, a, b);
    } else {
      assert rows[a..b] == [] && Stretch(t, a, b) == [];
    }
  }

  lemma LiveHasRows(t: Tab, i: nat, rows: seq<Row>)
    requires Ring.Sized(t) && i < |t.heads| && ChunkOk(t, i, rows)
    ensures Live(t, i) <==> rows != []
  {
    hide StartOf, RangeExact;
    if t.heads[i].gen == 0 {
      FreshWalk(t, i);
    }
  }

  /** The rows still held, from oldest to newest. */
  ghost function Held(t: Tab, g: Log): seq<Row>
    requires t.wc < |g.rows|
  {
    Flat(g.rows[t.wc + 1..]) + Flat(g.rows[..t.wc + 1])
  }

  lemma RingOrderRows(t: Tab, rows: seq<seq<Row>>)
    requires t.wc < |t.heads| == |rows|
    requires forall i :: 0 <= i < |rows| ==> (Live(t, i) <==> rows[i] != [])
    ensures RowsIn(rows, RingOrder(t)) == Flat(rows[t.wc + 1..]) + Flat(rows[..t.wc + 1])
  {
    hide Flat, RowsIn, Stretch, Live;
    RowsInAppend(rows, Stretch(t, t.wc + 1, |t.heads|), Stretch(t, 0, t.wc + 1));
    StretchRows(t, rows, t.wc + 1, |t.heads|);
    StretchRows(t, rows, 0, t.wc + 1);
    assert rows[t.wc + 1..|t.heads|] == rows[t.wc + 1..];
    assert rows[0..t.wc + 1] == rows[..t.wc + 1];
  }

  lemma OrderIsRing(t: Tab)
    requires Ring.Sized(t) && RingShape(t)
    ensures ChunksLogical(t) == RingOrder(t)
  {
    hide RingShape, Logical, ChunksLogical, RingOrder;
    ChunksLogicalMeets(t);
    RingOrderLogical(t);
    OrderUnique(t, ChunksLogical(t), RingOrder(t));
  }

  lemma LogicalRows(t: Tab, g: Log)
    requires TableOk(t, g)
    ensures Indices(t, ChunksLogical(t)) && |g.rows| == |t.heads|
    ensures RowsIn(g.rows, ChunksLogical(t)) == Held(t, g)
    ensures g.all == g.lost + Held(t, g)
  {
    hide StartOf, ChunkOk, Flat, RowsIn, RingOrder, RingShape, MemoOk, Live;
    forall i | 0 <= i < |g.rows|
      ensures Live(t, i) <==> g.rows[i] != []
    {
      LiveHasRows(t, i, g.rows[i]);
    }
    OrderIsRing(t);
    RingOrderRows(t, g.rows);
    Regroup(g.lost, Flat(g.rows[t.wc + 1..]), Flat(g.rows[..t.wc + 1]), []);
  }

  // ----- reading the whole table

  /** Read chunk after chunk in the given order. */
  function ReadChunks(t: Tab, order: seq<nat>): Option<seq<Row>>
    requires Ring.Sized(t) && Indices(t, order)
  {
    if order == [] then Some([])
    else
      match ReadAt(t, order[0], t.heads[order[0]].used)
      case None => None
      case Some(rows) =>
        match ReadChunks(t, order[1..])
        case None => None
        case Some(rest) => Some(rows + rest)
  }

  lemma {:induction false} ChunksRead(t: Tab, rows: seq<seq<Row>>, order: seq<nat>)
    requires Ring.Sized(t) && Indices(t, order) && |rows| == |t.heads|
    requires forall i :: 0 <= i < |rows| ==> ReadAt(t, i, t.heads[i].used) == Some(rows[i])
    ensures ReadChunks(t, order) == Some(RowsIn(rows, order))
    decreases |order|
  {
    hide ReadAt, StartOf;
    if order != [] {
      ChunksRead(t, rows, order[1..]);
    }
  }

  /**
   Ring refinement. After any run, with any number of wraps, reading the chunks in logical order
   gives the rows reported as written, in order, without an oldest part of them: those overwritten,
   whose number the table counts modulo 2^32.
   */
  lemma RingRefinement(ts: seq<Tab>, ops: seq<Op>, k: nat)
    requires IsRun(ts, ops) && k < |ts| && Small(ts[k].cfg)
    ensures var t := ts[k];
            && Ring.Sized(t) && Indices(t, ChunksLogical(t))
            && exists lost: seq<Row>, held: seq<Row> ::
                 && AllReported(ts, ops, k) == lost + held
                 && ReadChunks(t, ChunksLogical(t)) == Some(held)
                 && t.overwritten == |lost| % TWO_32
  {
    hide Do, Legal, Initial, ReadAt, LogAt, ChunksLogical, RingShape, MemoOk, ChunkOk, StartOf, Flat;
    hide AllReported, ReadChunks, RowsIn;
    var t, g := ts[k], LogAt(ts, ops, k);
    assert TableOk(t, g);
    LogicalRows(t, g);
    HistoryIsReported(ts, ops, k);
    forall i | 0 <= i < |t.heads|
      ensures ReadAt(t, i, t.heads[i].used) == Some(g.rows[i])
    {
      DedupInvisible(ts, ops, k, i);
    }
    ChunksRead(t, g.rows, ChunksLogical(t));
    var lost, held := g.lost, Held(t, g);
    assert AllReported(ts, ops, k) == lost + held;
    assert ReadChunks(t, ChunksLogical(t)) == Some(held);
  }

  // ----- conservation

  function CountRows(heads: seq<Head>): nat
  {
    if heads == [] then 0 else heads[0].rows + CountRows(heads[1..])
  }

  lemma {:induction false} CountHeld(heads: seq<Head>, rows: seq<seq<Row>>)
    requires |heads| == |rows| && forall i :: 0 <= i < |heads| ==> heads[i].rows == |rows[i]|
    ensures CountRows(heads) == |Flat(rows)|
    decreases |heads|
  {
    if heads != [] {
      CountHeld(heads[1..], rows[1..]);
    }
  }

  /** Rows overwritten plus rows held are the rows ever written, in every resting state. */
  lemma Conservation(ts: seq<Tab>, ops: seq<Op>, k: nat)
    requires IsRun(ts, ops) && k < |ts|
    ensures var lost := |AllReported(ts, ops, k)| - CountRows(ts[k].heads);
            lost >= 0 && ts[k].overwritten == lost % TWO_32
    ensures Ring.Sized(ts[k]) && RingShape(ts[k])
  {
    hide Do, Legal, Initial, LogAt, RingShape, MemoOk, ChunkOk, StartOf, Flat, AllReported;
    var t, g := ts[k], LogAt(ts, ops, k);
    assert TableOk(t, g);
    HistoryIsReported(ts, ops, k);
    forall i | 0 <= i < |t.heads|
      ensures t.heads[i].rows == |g.rows[i]|
    {
      HeldRows(t, i, g.rows[i]);
    }
    CountHeld(t.heads, g.rows);
    FlatAppend(g.rows[..t.wc + 1], g.rows[t.wc + 1..]);
    assert g.rows[..t.wc + 1] + g.rows[t.wc + 1..] == g.rows;
  }
}
