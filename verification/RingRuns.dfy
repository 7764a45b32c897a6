/** Whole runs of a table: every operation keeps the invariant, and what the outcomes mean for the rows. */
module RingRuns {
  import opened Bytes
  import opened Chunks
  import opened Schema
  import opened RowCodec
  import opened Dedup
  import opened Ring
  import opened RingInv
  import opened RingSteps
  import opened Stream

  /**
   What a writer can do. `pinned` is the answer of the lease scan; `Scribble` is any partial write of
   a row that is not yet published; the last three (re)attach a writer.
   */
  datatype Op =
    | AppendRow(row: Row)
    | PushRow(row: Row, pinned: bool)
    | AdvanceChunk(pinned: bool)
    | StreamRow(row: Row)
    | StreamDropped(puts: Row)
    | Scribble(bytes: seq<Byte>)
    | AttachPlain
    | AttachDedup
    | SetMinLen(len: nat)

  /** The streaming writer checks neither the schema nor that there is a cell at all. */
  ghost predicate Legal(t: Tab, op: Op)
    requires Ring.Sized(t)
  {
    match op
    case StreamRow(row) => Matches(row, t.cfg.types) && row != []
    case Scribble(b) => OnlyFree(t, b)
    case _ => true
  }

  function AppendChecked(t: Tab, row: Row): (Tab, bool)
    requires Ring.Sized(t)
  {
    if Matches(row, t.cfg.types) then TryAppend(t, row) else (t, false)
  }

  ghost function Do(t: Tab, op: Op): Tab
    requires Ring.Sized(t) && Legal(t, op)
  {
    match op
    case AppendRow(row) => AppendChecked(t, row).0
    case PushRow(row, pinned) => TryPush(t, row, pinned).0
    case AdvanceChunk(pinned) => Ring.Advance(t, pinned).0
    case StreamRow(row) =>
      RoomForLength(t, row);
      Finish(t, Puts(t, row)).0
    case StreamDropped(puts) => Abandon(t, Puts(t, puts))
    case Scribble(b) => t.(bytes := b)
    case AttachPlain => t.(memo := None)
    case AttachDedup => t.(dedup := true, memo := Some(Memo(map[], [], 0)))
    case SetMinLen(len) => if t.memo.Some? then t.(memo := Some(t.memo.value.(minLen := len))) else t
  }

  /** Whether appending this row in place succeeds. */
  predicate Accepts(t: Tab, row: Row)
    requires Ring.Sized(t)
  {
    (t.memo.Some? ==> |row| <= MAX_DEDUP_COLS) && Appendable(t, row)
  }

  /** The history after an operation. */
  ghost function Logs(t: Tab, g: Log, op: Op): Log
    requires Ring.Sized(t) && |g.rows| == |t.heads|
  {
    match op
    case AppendRow(row) => if Matches(row, t.cfg.types) && Accepts(t, row) then Logged(t, g, row) else g
    case PushRow(row, pinned) =>
      if !Matches(row, t.cfg.types) then g
      else if Accepts(t, row) then Logged(t, g, row)
      else if pinned then g
      else
        AdvanceSized(t, false);
        var t' := Ring.Advance(t, false).0;
        if Accepts(t', row) then Logged(t', Dropped(t, g), row) else Dropped(t, g)
    case AdvanceChunk(pinned) => if pinned then g else Dropped(t, g)
    case StreamRow(row) => if Appendable(t, row) then Logged(t, g, row) else g
    case _ => g
  }

  // ----- every operation keeps the invariant

  lemma FreeBytesKeepChunk(t: Tab, t': Tab, i: nat, rows: seq<Row>)
    requires Ring.Sized(t) && OnlyFree(t, t'.bytes) && i < |t.heads| && ChunkOk(t, i, rows)
    requires t'.cfg == t.cfg && t'.heads == t.heads && t'.wc == t.wc && (t.dedup ==> t'.dedup)
    ensures Ring.Sized(t') && ChunkOk(t', i, rows)
  {
    hide StartOf, ChunkOk;
    ChunkInside(t, i);
    ChunkInside(t, t.wc);
    var from, to := StartOf(t.cfg, i), EndOf(t, i);
    if i < t.wc {
      ChunksApart(t.cfg, i, t.wc);
    } else if t.wc < i {
      ChunksApart(t.cfg, t.wc, i);
    }
    assert t.bytes[from..to] == t'.bytes[from..to];
    ChunkKept(t, t', i, rows);
  }

  lemma FreeBytesKeepMemo(t: Tab, t': Tab)
    requires Ring.Sized(t) && OnlyFree(t, t'.bytes) && MemoOk(t) && t' == t.(bytes := t'.bytes)
    ensures Ring.Sized(t') && MemoOk(t')
  {
    hide StartOf, ResolveRef;
    ChunkInside(t, t.wc);
    var from, to := StartOf(t.cfg, t.wc) + CHUNK_HEADER, EndOf(t, t.wc);
    assert t.bytes[from..to] == t'.bytes[from..to];
    if t.memo.Some? {
      forall key | key in t.memo.value.seen
        ensures ResolveRef(HereEnv(t'), t.memo.value.seen[key]).Some?
      {
        RefStable(HereEnv(t), HereEnv(t'), t.memo.value.seen[key]);
      }
    }
  }

  /** Writes to the free part of the write chunk change nothing that is committed. */
  lemma FreeBytesKeep(t: Tab, g: Log, b: seq<Byte>)
    requires TableOk(t, g) && OnlyFree(t, b)
    ensures TableOk(t.(bytes := b), g)
  {
    hide StartOf, ChunkOk, Flat, OnlyFree, MemoOk;
    var t' := t.(bytes := b);
    FreeBytesKeepMemo(t, t');
    forall i | 0 <= i < |t.heads|
      ensures ChunkOk(t', i, g.rows[i])
    {
      FreeBytesKeepChunk(t, t', i, g.rows[i]);
    }
  }

  lemma AttachKeeps(t: Tab, t': Tab, g: Log)
    requires TableOk(t, g) && t' == t.(dedup := t'.dedup, memo := t'.memo) && (t.dedup ==> t'.dedup) && MemoOk(t')
    ensures TableOk(t', g)
  {
    hide StartOf, ChunkOk, Flat, MemoOk;
    forall i | 0 <= i < |t.heads|
      ensures ChunkOk(t', i, g.rows[i])
    {
      ChunkInside(t, i);
      ChunkKept(t, t', i, g.rows[i]);
    }
  }

  lemma PushKeeps(t: Tab, g: Log, row: Row, pinned: bool)
    requires TableOk(t, g)
    ensures TableOk(TryPush(t, row, pinned).0, Logs(t, g, PushRow(row, pinned)))
  {
    hide TableOk, Append, Ring.Advance, Appendable, Logged, Dropped;
    Shape(t, g);
    if Matches(row, t.cfg.types) {
      if Accepts(t, row) {
        AppendKeeps(t, g, row);
      } else {
        AdvanceKeeps(t, g, pinned);
        if !pinned {
          AdvanceSized(t, false);
          var t', g' := Ring.Advance(t, false).0, Dropped(t, g);
          AdvanceKeepsCfg(t);
          Shape(t', g');
          if Accepts(t', row) {
            AppendKeeps(t', g', row);
          }
        }
      }
    }
  }

  lemma Shape(t: Tab, g: Log)
    requires TableOk(t, g)
    ensures Ring.Sized(t) && |g.rows| == |t.heads| && t.wc < |g.rows| && MemoOk(t)
  {
  }

  lemma AdvanceKeepsCfg(t: Tab)
    requires Ring.Sized(t)
    ensures Ring.Advance(t, false).0.cfg == t.cfg && |Ring.Advance(t, false).0.heads| == |t.heads|
  {
  }

  /** The invariant is kept by every operation. */
  lemma StepKeeps(t: Tab, g: Log, op: Op)
    requires TableOk(t, g) && Legal(t, op)
    ensures TableOk(Do(t, op), Logs(t, g, op))
  {
    hide TableOk, Append, Appendable, OnlyFree, Puts, Logged, Dropped, Ring.Advance, TryPush, Abandon, Finish;
    Shape(t, g);
    match op
    case AppendRow(row) =>
      if Matches(row, t.cfg.types) && Accepts(t, row) {
        AppendKeeps(t, g, row);
      }
    case PushRow(row, pinned) => PushKeeps(t, g, row, pinned);
    case AdvanceChunk(pinned) => AdvanceKeeps(t, g, pinned);
    case StreamRow(row) =>
      StreamingEqualsBatch(t, row);
      if Appendable(t, row) {
        AppendKeeps(t, g, row);
      } else {
        FreeBytesKeep(t, g, Puts(t, row).bytes);
      }
    case StreamDropped(puts) =>
      DroppedRow(t, puts);
      FreeBytesKeep(t, g, Puts(t, puts).bytes);
    case Scribble(b) => FreeBytesKeep(t, g, b);
    case AttachPlain => AttachKeeps(t, t.(memo := None), g);
    case AttachDedup => AttachKeeps(t, t.(dedup := true, memo := Some(Memo(map[], [], 0))), g);
    case SetMinLen(len) =>
      if t.memo.Some? {
        MinLenKeeps(t, len);
        AttachKeeps(t, t.(memo := Some(t.memo.value.(minLen := len))), g);
      }
  }

  lemma MinLenKeeps(t: Tab, len: nat)
    requires Ring.Sized(t) && MemoOk(t) && t.memo.Some?
    ensures MemoOk(t.(memo := Some(t.memo.value.(minLen := len))))
  {
    var t' := t.(memo := Some(t.memo.value.(minLen := len)));
    assert HereEnv(t') == HereEnv(t);
  }

  // ----- runs

  function InitialHead(i: nat): Head
  {
    Head(if i == 0 then Writing else Empty, if i == 0 then 1 else 0, 0, 0, TS_MIN_INIT, TS_MAX_INIT)
  }

  /** A table as `init_buf` leaves it, whatever the buffer held before. */
  ghost predicate Initial(t: Tab)
  {
    && Ring.Sized(t) && t.wc == 0 && t.recycled == t.overwritten == t.blocked == 0
    && !t.dedup && t.memo == None
    && forall i :: 0 <= i < |t.heads| ==> t.heads[i] == InitialHead(i)
  }

  function EmptyLog(n: nat): (g: Log)
    ensures |g.rows| == n && g.lost == g.all == [] && forall i :: 0 <= i < n ==> g.rows[i] == []
  {
    Log(seq(n, _ => []), [], [])
  }

  lemma {:induction false} FlatNothing(rows: seq<seq<Row>>)
    requires forall i :: 0 <= i < |rows| ==> rows[i] == []
    ensures Flat(rows) == []
    decreases |rows|
  {
    if rows != [] {
      FlatNothing(rows[1..]);
    }
  }

  lemma InitialOk(t: Tab)
    requires Initial(t)
    ensures TableOk(t, EmptyLog(|t.heads|))
  {
    hide StartOf, Flat;
    var g := EmptyLog(|t.heads|);
    FlatNothing(g.rows[1..]);
    FlatNothing(g.rows[..1]);
    forall i | 0 <= i < |t.heads|
      ensures ChunkOk(t, i, g.rows[i])
    {
      FreshWalk(t, i);
      assert t.heads[i] == InitialHead(i);
    }
  }

  /** Successive states of a table from its initialisation on. */
  ghost predicate IsRun(ts: seq<Tab>, ops: seq<Op>)
  {
    && |ts| == |ops| + 1 && Initial(ts[0])
    && forall k :: 0 <= k < |ops| ==> Ring.Sized(ts[k]) && Legal(ts[k], ops[k]) && ts[k + 1] == Do(ts[k], ops[k])
  }

  /** The history of a run; every state of the run satisfies the invariant with it. */
  ghost function LogAt(ts: seq<Tab>, ops: seq<Op>, k: nat): (g: Log)
    requires IsRun(ts, ops) && k < |ts|
    ensures TableOk(ts[k], g)
    decreases k
  {
    hide TableOk, Initial, Legal, Do, Logs;
    if k == 0 then
      InitialOk(ts[0]);
      EmptyLog(|ts[0].heads|)
    else
      var g := LogAt(ts, ops, k - 1);
      Shape(ts[k - 1], g);
      StepKeeps(ts[k - 1], g, ops[k - 1]);
      Logs(ts[k - 1], g, ops[k - 1])
  }

  // ----- which rows the callers were told are written

  /** The row an operation reports as written, from its answer alone. */
  ghost function Reported(t: Tab, op: Op): seq<Row>
    requires Ring.Sized(t) && Legal(t, op)
  {
    match op
    case AppendRow(row) => if AppendChecked(t, row).1 then [row] else []
    case PushRow(row, pinned) => if TryPush(t, row, pinned).1 == Ring.Written then [row] else []
    case StreamRow(row) =>
      RoomForLength(t, row);
      if Finish(t, Puts(t, row)).1 then [row] else []
    case _ => []
  }

  ghost function AllReported(ts: seq<Tab>, ops: seq<Op>, k: nat): seq<Row>
    requires IsRun(ts, ops) && k < |ts|
    decreases k
  {
    if k == 0 then [] else AllReported(ts, ops, k - 1) + Reported(ts[k - 1], ops[k - 1])
  }

  lemma LogsReported(t: Tab, g: Log, op: Op)
    requires TableOk(t, g) && Legal(t, op)
    ensures Logs(t, g, op).all == g.all + Reported(t, op)
  {
    hide TableOk, Append, Appendable, Puts, Ring.Advance, Finish, MemoOk;
    Shape(t, g);
    if op.StreamRow? {
      RoomForLength(t, op.row);
      StreamingEqualsBatch(t, op.row);
    } else if op.PushRow? {
      AdvanceKeepsCfg(t);
    }
  }

  /** The history lists exactly the rows reported as written, in the order of the reports. */
  lemma {:induction false} HistoryIsReported(ts: seq<Tab>, ops: seq<Op>, k: nat)
    requires IsRun(ts, ops) && k < |ts|
    ensures LogAt(ts, ops, k).all == AllReported(ts, ops, k)
    decreases k
  {
    hide TableOk, Initial, Legal, Do, Logs, Reported;
    if k > 0 {
      HistoryIsReported(ts, ops, k - 1);
      LogsReported(ts[k - 1], LogAt(ts, ops, k - 1), ops[k - 1]);
    }
  }

  // ----- runs exist

  /** Operations a caller may issue in any state: streamed rows match the schema and have a cell. */
  predicate Issuable(op: Op, types: seq<DType>)
  {
    match op
    case StreamRow(row) => Matches(row, types) && row != []
    case Scribble(_) => false
    case _ => true
  }

  /** Every script of issuable operations is a run of every initial table. */
  lemma {:induction false} ScriptRuns(t: Tab, ops: seq<Op>) returns (ts: seq<Tab>)
    requires Initial(t) && forall k :: 0 <= k < |ops| ==> Issuable(ops[k], t.cfg.types)
    ensures IsRun(ts, ops) && ts[0] == t && ts[|ops|].cfg == t.cfg
    decreases |ops|
  {
    hide Initial, Do, Legal, TableOk, Issuable;
    if ops == [] {
      ts := [t];
    } else {
      var init, last := ops[..|ops| - 1], ops[|ops| - 1];
      var before := ScriptRuns(t, init);
      var g := LogAt(before, init, |init|);
      var here := before[|init|];
      Shape(here, g);
      IssuableLegal(here, last);
      StepKeepsSize(here, g, last);
      ts := before + [Do(here, last)];
      assert init + [last] == ops;
      forall k | 0 <= k < |ops|
        ensures Ring.Sized(ts[k]) && Legal(ts[k], ops[k]) && ts[k + 1] == Do(ts[k], ops[k])
      {
        if k < |init| {
          assert ts[k] == before[k] && ts[k + 1] == before[k + 1] && ops[k] == init[k];
        }
      }
    }
  }

  lemma IssuableLegal(t: Tab, op: Op)
    requires Ring.Sized(t) && Issuable(op, t.cfg.types)
    ensures Legal(t, op)
  {
  }

  lemma AppendSize(t: Tab, row: Row)
    requires Ring.Sized(t) && Appendable(t, row)
    ensures Append(t, row).cfg == t.cfg && |Append(t, row).bytes| == |t.bytes|
  {
    hide StartOf, RowBytes, CellsOf;
  }

  lemma StepKeepsSize(t: Tab, g: Log, op: Op)
    requires TableOk(t, g) && Legal(t, op)
    ensures Do(t, op).cfg == t.cfg && |Do(t, op).bytes| == |t.bytes|
  {
    hide TableOk, Append, RowBytes, CellsOf, StartOf, Puts, Publish;
    Shape(t, g);
    match op
    case AppendRow(row) =>
      if AppendChecked(t, row).1 {
        AppendSize(t, row);
      }
    case PushRow(row, pinned) =>
      AdvanceSized(t, pinned);
      var t' := Ring.Advance(t, pinned).0;
      if TryAppend(t, row).1 {
        AppendSize(t, row);
      } else if TryAppend(t', row).1 {
        AppendSize(t', row);
      }
    case StreamRow(row) =>
      StreamingEqualsBatch(t, row);
      if Appendable(t, row) {
        AppendSize(t, row);
      }
    case _ =>
  }

  lemma {:induction false} RunKeepsSize(ts: seq<Tab>, ops: seq<Op>, k: nat)
    requires IsRun(ts, ops) && k < |ts|
    ensures ts[k].cfg == ts[0].cfg && |ts[k].bytes| == |ts[0].bytes|
    decreases k
  {
    hide TableOk, Do, Legal, Initial;
    if k > 0 {
      RunKeepsSize(ts, ops, k - 1);
      StepKeepsSize(ts[k - 1], LogAt(ts, ops, k - 1), ops[k - 1]);
    }
  }

  /** Every remembered offset of every reachable state names a value inside the committed bytes of the write chunk. */
  lemma RememberedIsCommitted(ts: seq<Tab>, ops: seq<Op>, k: nat, key: nat)
    requires IsRun(ts, ops) && k < |ts| && ts[k].memo.Some? && key in ts[k].memo.value.seen
    ensures Ring.Sized(ts[k])
    ensures var t, off := ts[k], ts[k].memo.value.seen[key];
            var at := StartOf(t.cfg, t.wc) + off;
            && CHUNK_HEADER <= off && at + 4 <= EndOf(t, t.wc) <= |t.bytes|
            && at + 4 + Read32(t.bytes[at..at + 4]) <= EndOf(t, t.wc)
  {
    hide TableOk, Do, Legal, Initial, StartOf, Read32;
    var t := ts[k];
    Shape(t, LogAt(ts, ops, k));
    ChunkInside(t, t.wc);
    assert ResolveRef(HereEnv(t), t.memo.value.seen[key]).Some?;
  }
}
