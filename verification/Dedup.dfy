/** Per-chunk memory of inline values, with the begin/stage/commit/rollback transaction of a streamed row. */
module Dedup {
  import opened Bytes
  import opened Schema
  import opened RowCodec

  /** The hash is arbitrary; nothing below depends on it. */
  type Hash = (nat, seq<Byte>) -> nat

  type Entry = (nat, nat)

  datatype Memo = Memo(seen: map<nat, nat>, pending: seq<Entry>, minLen: nat)

  /** A length prefix and then exactly these bytes lie at an offset of the buffer. */
  predicate LiesAt(buf: seq<Byte>, at: nat, data: seq<Byte>)
  {
    at + 4 + |data| <= |buf| && Read32(buf[at..at + 4]) == |data| && buf[at + 4..at + 4 + |data|] == data
  }

  /** The offset of a remembered value that is byte for byte the given one. */
  function Lookup(h: Hash, m: Memo, col: nat, data: seq<Byte>, buf: seq<Byte>, start: nat): (r: Option<nat>)
    ensures r.Some? <==> |data| >= m.minLen && h(col, data) in m.seen && LiesAt(buf, start + m.seen[h(col, data)], data)
    ensures r.Some? ==> r.value == m.seen[h(col, data)]
  {
    var key := h(col, data);
    if |data| < m.minLen || key !in m.seen then None
    else
      var at := start + m.seen[key];
      if at + 4 > |buf| then None
      else
        var end := at + 4 + Read32(buf[at..at + 4]);
        if end <= |buf| && buf[at + 4..end] == data then Some(m.seen[key]) else None
  }

  function CellFor(h: Hash, m: Memo, col: nat, v: Value, buf: seq<Byte>, start: nat): (c: Stored)
    ensures c.v == v
  {
    if IsVar(TypeOf(v)) then
      match Lookup(h, m, col, Payload(v), buf, start)
      case Some(off) => Ref(v, off)
      case None => Inline(v)
    else Inline(v)
  }

  function CellsFor(h: Hash, m: Memo, row: Row, buf: seq<Byte>, start: nat): (cells: seq<Stored>)
    ensures |cells| == |row|
    ensures forall k :: 0 <= k < |row| ==> cells[k] == CellFor(h, m, k, row[k], buf, start)
  {
    seq(|row|, k requires 0 <= k < |row| => CellFor(h, m, k, row[k], buf, start))
  }

  /** What one stored cell at a chunk offset adds to the memory. */
  function CellEntry(h: Hash, minLen: nat, col: nat, c: Stored, off: nat): seq<Entry>
  {
    if c.Inline? && IsVar(TypeOf(c.v)) && |Payload(c.v)| >= minLen then [(h(col, Payload(c.v)), off)] else []
  }

  /** What the cells of a row add, in column order; the first of them is column `col` at offset `off`. */
  function Entries(h: Hash, minLen: nat, cells: seq<Stored>, col: nat, off: nat): seq<Entry>
  {
    if cells == [] then []
    else CellEntry(h, minLen, col, cells[0], off) + Entries(h, minLen, cells[1..], col + 1, off + |CellBytes(cells[0])|)
  }

  function Remember(seen: map<nat, nat>, entries: seq<Entry>): map<nat, nat>
    decreases |entries|
  {
    if entries == [] then seen else Remember(seen[entries[0].0 := entries[0].1], entries[1..])
  }

  lemma {:induction false} RememberAppend(seen: map<nat, nat>, a: seq<Entry>, b: seq<Entry>)
    ensures Remember(seen, a + b) == Remember(Remember(seen, a), b)
    decreases |a|
  {
    if a == [] {
      assert a + b == b;
    } else {
      assert (a + b)[1..] == a[1..] + b;
      RememberAppend(seen[a[0].0 := a[0].1], a[1..], b);
    }
  }

  /** Every offset in the result was there before or is one of the entries. */
  lemma {:induction false} RememberFrom(seen: map<nat, nat>, entries: seq<Entry>, key: nat)
    requires key in Remember(seen, entries)
    ensures (key in seen && seen[key] == Remember(seen, entries)[key]) || (key, Remember(seen, entries)[key]) in entries
    decreases |entries|
  {
    if entries != [] {
      var (k0, o0) := entries[0];
      RememberFrom(seen[k0 := o0], entries[1..], key);
      var off := Remember(seen, entries)[key];
      if key == k0 && o0 == off {
        assert entries[0] == (key, off);
      }
    }
  }

  lemma {:induction false} RememberHas(seen: map<nat, nat>, entries: seq<Entry>, key: nat)
    requires key in seen
    ensures key in Remember(seen, entries)
    decreases |entries|
  {
    if entries != [] {
      RememberHas(seen[entries[0].0 := entries[0].1], entries[1..], key);
    }
  }

  /** The key of an entry leads to an entry afterwards, whatever was there before. */
  lemma {:induction false} RememberNew(seen: map<nat, nat>, entries: seq<Entry>, i: nat)
    requires i < |entries|
    ensures var key := entries[i].0;
            key in Remember(seen, entries) && (key, Remember(seen, entries)[key]) in entries
    decreases |entries|
  {
    var more := seen[entries[0].0 := entries[0].1];
    if i > 0 {
      RememberNew(more, entries[1..], i - 1);
    } else {
      RememberHas(more, entries[1..], entries[0].0);
      RememberFrom(more, entries[1..], entries[0].0);
      assert entries[0] in entries;
    }
  }

  class DedupState {
    const hash: Hash
    var seen: map<nat, nat>
    var pending: seq<Entry>
    var minLen: nat

    ghost function Model(): Memo
      reads this
    {
      Memo(seen, pending, minLen)
    }

    constructor (hash: Hash)
      ensures this.hash == hash && Model() == Memo(map[], [], 0)
    {
      this.hash := hash;
      seen := map[];
      pending := [];
      minLen := 0;
    }

    method SetMinLen(len: nat)
      modifies this
      ensures Model() == old(Model()).(minLen := len)
    {
      minLen := len;
    }

    method Clear()
      modifies this
      ensures Model() == Memo(map[], [], old(minLen))
    {
      seen := map[];
      pending := [];
    }

    method Find(col: nat, data: seq<Byte>, buf: array<Byte>, start: nat) returns (r: Option<nat>)
      ensures r.Some? <==> |data| >= minLen && hash(col, data) in seen
                           && LiesAt(buf[..], start + seen[hash(col, data)], data)
      ensures r.Some? ==> r.value == seen[hash(col, data)]
      ensures r == Lookup(hash, Model(), col, data, buf[..], start)
    {
      var key := hash(col, data);
      if |data| < minLen || key !in seen {
        return None;
      }
      var at := start + seen[key];
      if at + 4 > buf.Length {
        return None;
      }
      var end := at + 4 + Read32(buf[at..at + 4]);
      if end <= buf.Length && buf[at + 4..end] == data {
        return Some(seen[key]);
      }
      return None;
    }

    method Insert(col: nat, data: seq<Byte>, off: nat)
      modifies this
      ensures Model() == old(Model()).(
                seen := if |data| >= old(minLen) then old(seen)[hash(col, data) := off] else old(seen))
    {
      if |data| >= minLen {
        seen := seen[hash(col, data) := off];
      }
    }

    method BeginRow()
      modifies this
      ensures Model() == old(Model()).(pending := [])
    {
      pending := [];
    }

    method StageInsert(col: nat, data: seq<Byte>, off: nat)
      modifies this
      ensures Model() == old(Model()).(
                pending := old(pending) + if |data| >= old(minLen) then [(hash(col, data), off)] else [])
    {
      if |data| >= minLen {
        pending := pending + [(hash(col, data), off)];
      }
    }

    method CommitRow()
      modifies this
      ensures Model() == Memo(Remember(old(seen), old(pending)), [], old(minLen))
    {
      var k := 0;
      while k < |pending|
        invariant 0 <= k <= |pending| && pending == old(pending) && minLen == old(minLen)
        invariant seen == Remember(old(seen), pending[..k])
      {
        seen := seen[pending[k].0 := pending[k].1];
        RememberAppend(old(seen), pending[..k], [pending[k]]);
        assert pending[..k + 1] == pending[..k] + [pending[k]];
        k := k + 1;
      }
      assert pending[..k] == old(pending);
      pending := [];
    }

    method RollbackRow()
      modifies this
      ensures Model() == old(Model()).(pending := [])
    {
      pending := [];
    }
  }
}
