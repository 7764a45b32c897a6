/** The cached reader: a bounded map with first-in first-out eviction and a one-entry fast path. */
module Cache {
  import opened Bytes
  import opened Chunks
  import opened Schema
  import opened RowCodec
  import opened Cursors

  /** Buffer offset of a referenced value and the generation of its chunk. */
  type Key = (nat, nat)

  datatype Range = Range(from: nat, to: nat)

  /** `limit` is the length of the buffer the reader was made for. */
  datatype State = State(limit: nat, cap: nat, entries: map<Key, Range>, order: seq<Key>, writePos: nat,
                         lastKey: Key, last: Option<Range>)

  /** The number of entries asked for, kept between 4 and 256. */
  function Clamp(n: nat): (r: nat)
    ensures 4 <= n <= 256 ==> r == n
    ensures n < 4 ==> r == 4
    ensures n > 256 ==> r == 256
  {
    if n < 4 then 4 else if n > 256 then 256 else n
  }

  predicate Inside(r: Range, limit: nat)
  {
    r.from <= r.to <= limit
  }

  ghost predicate NoDup(order: seq<Key>)
  {
    forall x, y :: 0 <= x < y < |order| ==> order[x] != order[y]
  }

  /**
   The keys of the map are exactly the entries of the queue, each once, there are at most `cap`, and
   every range can be sliced out of the buffer.
   */
  ghost predicate Wf(c: State)
  {
    && 4 <= c.cap <= 256 && |c.order| <= c.cap && c.writePos < c.cap && (|c.order| < c.cap ==> c.writePos == 0)
    && NoDup(c.order) && (forall k :: k in c.entries <==> k in c.order)
    && (forall k :: k in c.entries ==> Inside(c.entries[k], c.limit))
    && (match c.last
        case None => c.lastKey == (0, 0)
        case Some(r) => c.lastKey in c.entries && c.entries[c.lastKey] == r)
  }

  function Found(buf: seq<Byte>, off: nat): Range
    requires off + 4 <= |buf|
  {
    Range(off + 4, off + 4 + Read32(buf[off..off + 4]))
  }

  /** `resolve_slow`. */
  function ResolveSlow(c: State, buf: seq<Byte>, key: Key): (State, Option<Range>)
    requires Wf(c) && |buf| == c.limit && key.0 + 4 <= |buf|
  {
    var range := Found(buf, key.0);
    if range.to > |buf| then (c, None)
    else if |c.order| < c.cap then
      (c.(entries := c.entries[key := range], order := c.order + [key], lastKey := key, last := Some(range)),
       Some(range))
    else
      (c.(entries := (c.entries - {c.order[c.writePos]})[key := range], order := c.order[c.writePos := key],
          writePos := (c.writePos + 1) % c.cap, lastKey := key, last := Some(range)), Some(range))
  }

  /** `resolve_range`: the fast path, the map, then the buffer. */
  function ResolveRange(c: State, buf: seq<Byte>, key: Key): (State, Option<Range>)
    requires Wf(c) && |buf| == c.limit && key.0 + 4 <= |buf|
  {
    if key == c.lastKey then (c, c.last)
    else if key in c.entries then (c.(lastKey := key, last := Some(c.entries[key])), Some(c.entries[key]))
    else ResolveSlow(c, buf, key)
  }

  /** The queue from oldest to newest. */
  ghost function Queue(c: State): seq<Key>
    requires Wf(c)
  {
    Unrolled(c.order, c.writePos, c.cap)
  }

  lemma {:induction false} KeysCounted(entries: map<Key, Range>, order: seq<Key>)
    requires NoDup(order) && forall k :: k in entries <==> k in order
    ensures |entries| == |order|
    decreases |order|
  {
    if order == [] {
      assert entries == map[];
    } else {
      var last := order[|order| - 1];
      var rest := order[..|order| - 1];
      assert forall k :: k in order <==> k in rest || k == last;
      assert last !in rest;
      KeysCounted(entries - {last}, rest);
      assert entries == (entries - {last})[last := entries[last]];
    }
  }

  lemma PushedKeys(c: State, key: Key)
    requires Wf(c) && key !in c.entries && |c.order| < c.cap
    ensures NoDup(c.order + [key]) && forall k :: k in c.order + [key] <==> k in c.order || k == key
  {
  }

  lemma ReplacedKeys(c: State, key: Key)
    requires Wf(c) && key !in c.entries && |c.order| == c.cap
    ensures var order := c.order[c.writePos := key];
            NoDup(order) && forall k :: k in order <==> (k in c.order && k != c.order[c.writePos]) || k == key
  {
    var order, old' := c.order[c.writePos := key], c.order[c.writePos];
    forall k | k in c.order && k != old'
      ensures k in order
    {
      var x :| 0 <= x < |c.order| && c.order[x] == k;
      assert order[x] == k;
    }
    forall k | k in order && k != key
      ensures k in c.order && k != old'
    {
      var x :| 0 <= x < |order| && order[x] == k;
      assert c.order[x] == k;
    }
    assert order[c.writePos] == key;
  }

  lemma PushKeeps(c: State, key: Key, range: Range)
    requires Wf(c) && key !in c.entries && |c.order| < c.cap && Inside(range, c.limit)
    ensures Wf(c.(entries := c.entries[key := range], order := c.order + [key], lastKey := key, last := Some(range)))
  {
    PushedKeys(c, key);
    hide NoDup;
  }

  lemma ReplaceKeeps(c: State, key: Key, range: Range)
    requires Wf(c) && key !in c.entries && |c.order| == c.cap && Inside(range, c.limit)
    ensures Wf(c.(entries := (c.entries - {c.order[c.writePos]})[key := range], order := c.order[c.writePos := key],
                  writePos := (c.writePos + 1) % c.cap, lastKey := key, last := Some(range)))
  {
    ReplacedKeys(c, key);
    hide NoDup;
  }

  lemma SlowKeeps(c: State, buf: seq<Byte>, key: Key)
    requires Wf(c) && |buf| == c.limit && key.0 + 4 <= |buf| && key !in c.entries
    ensures Wf(ResolveSlow(c, buf, key).0) && ResolveSlow(c, buf, key).0.limit == c.limit
    ensures ResolveSlow(c, buf, key).0.cap == c.cap
    ensures ResolveSlow(c, buf, key).1.Some? ==> Inside(ResolveSlow(c, buf, key).1.value, c.limit)
  {
    hide Read32;
    var range := Found(buf, key.0);
    if range.to <= |buf| {
      if |c.order| < c.cap {
        PushKeeps(c, key, range);
      } else {
        ReplaceKeeps(c, key, range);
      }
    }
  }

  /** Looking a value up keeps the shape of the cache, also when an old entry has to go. */
  lemma ResolveKeeps(c: State, buf: seq<Byte>, key: Key)
    requires Wf(c) && |buf| == c.limit && key.0 + 4 <= |buf|
    ensures Wf(ResolveRange(c, buf, key).0)
    ensures ResolveRange(c, buf, key).0.limit == c.limit && |ResolveRange(c, buf, key).0.entries| <= c.cap
    ensures ResolveRange(c, buf, key).1.Some? ==> Inside(ResolveRange(c, buf, key).1.value, c.limit)
  {
    hide NoDup, ResolveSlow;
    var c' := ResolveRange(c, buf, key).0;
    if key != c.lastKey && key !in c.entries {
      SlowKeeps(c, buf, key);
    }
    KeysCounted(c'.entries, c'.order);
  }

  /** A cached key is answered from the cache, which stays; the sentinel of a new cache is no key. */
  lemma HitKeeps(c: State, buf: seq<Byte>, key: Key)
    requires Wf(c) && |buf| == c.limit && key.0 + 4 <= |buf| && key in c.entries && key != (0, 0)
    ensures var (c', r) := ResolveRange(c, buf, key);
            && r == Some(c.entries[key])
            && c'.entries == c.entries && c'.order == c.order && c'.writePos == c.writePos
  {
  }

  /** Eviction is first-in first-out: a new key goes to the end and, in a full cache, the oldest leaves. */
  lemma EvictsOldest(c: State, buf: seq<Byte>, key: Key)
    requires Wf(c) && |buf| == c.limit && key.0 + 4 <= |buf| && key != c.lastKey && key !in c.entries
    requires Found(buf, key.0).to <= |buf|
    ensures Wf(ResolveRange(c, buf, key).0)
    ensures Queue(ResolveRange(c, buf, key).0) == (if |c.order| < c.cap then Queue(c) else Queue(c)[1..]) + [key]
  {
    hide NoDup, Found, Unrolled;
    ResolveKeeps(c, buf, key);
    if |c.order| < c.cap {
      PushMoves(c.order, c.cap, key);
    } else {
      ReplaceMoves(c.order, c.writePos, c.cap, key);
    }
  }

  lemma RotateInside(order: seq<Key>, w: nat, key: Key)
    requires w + 1 < |order|
    ensures var order' := order[w := key];
            order'[w + 1..] + order'[..w + 1] == (order[w..] + order[..w])[1..] + [key]
  {
    var order' := order[w := key];
    assert order'[..w + 1] == order[..w] + [key];
    assert (order[w..] + order[..w])[1..] == order[w + 1..] + order[..w];
    assert order'[w + 1..] == order[w + 1..];
  }

  lemma RotateLast(order: seq<Key>, w: nat, key: Key)
    requires w + 1 == |order|
    ensures var order' := order[w := key];
            order'[0..] + order'[..0] == (order[w..] + order[..w])[1..] + [key]
  {
    var order' := order[w := key];
    assert order' == order[..w] + [key];
    assert (order[w..] + order[..w])[1..] == order[..w];
  }

  /** The queue as stored in a ring of `cap` places. */
  ghost function Unrolled(order: seq<Key>, w: nat, cap: nat): seq<Key>
    requires w <= |order|
  {
    if |order| < cap then order else order[w..] + order[..w]
  }

  lemma PushMoves(order: seq<Key>, cap: nat, key: Key)
    requires |order| < cap
    ensures Unrolled(order + [key], 0, cap) == Unrolled(order, 0, cap) + [key]
  {
    var order' := order + [key];
    assert order'[0..] + order'[..0] == order';
  }

  lemma ReplaceMoves(order: seq<Key>, w: nat, cap: nat, key: Key)
    requires |order| == cap && w < cap
    ensures (w + 1) % cap <= cap
    ensures Unrolled(order[w := key], (w + 1) % cap, cap) == Unrolled(order, w, cap)[1..] + [key]
  {
    if w + 1 == cap {
      assert (w + 1) % cap == 0;
      RotateLast(order, w, key);
    } else {
      assert (w + 1) % cap == w + 1;
      RotateInside(order, w, key);
    }
  }

  class CachedReader {
    var entries: map<Key, Range>
    var order: seq<Key>
    var writePos: nat
    var lastKey: Key
    var last: Option<Range>
    const limit: nat
    const cap: nat

    ghost function Model(): State
      reads this
    {
      State(limit, cap, entries, order, writePos, lastKey, last)
    }

    constructor (limit: nat, maxEntries: nat)
      ensures Model() == State(limit, Clamp(maxEntries), map[], [], 0, (0, 0), None) && Wf(Model())
    {
      this.limit := limit;
      cap := Clamp(maxEntries);
      entries, order, writePos := map[], [], 0;
      lastKey, last := (0, 0), None;
    }

    /** `resolve_slow`: read the length from the buffer and remember the range. */
    method Slow(buf: seq<Byte>, key: Key) returns (r: Option<Range>)
      requires Wf(Model()) && |buf| == limit && key.0 + 4 <= |buf|
      modifies this
      ensures (Model(), r) == ResolveSlow(old(Model()), buf, key)
    {
      hide NoDup, Read32;
      var from := key.0 + 4;
      var to := from + Read32(buf[key.0..from]);
      if to > |buf| {
        return None;
      }
      lastKey := key;
      last := Some(Range(from, to));
      if |order| < cap {
        order := order + [key];
      } else {
        entries := entries - {order[writePos]};
        order := order[writePos := key];
        writePos := (writePos + 1) % cap;
      }
      entries := entries[key := Range(from, to)];
      return last;
    }

    /** `resolve_range`. */
    method Resolve(buf: seq<Byte>, key: Key) returns (r: Option<Range>)
      requires Wf(Model()) && |buf| == limit && key.0 + 4 <= |buf|
      modifies this
      ensures (Model(), r) == ResolveRange(old(Model()), buf, key)
      ensures Wf(Model())
    {
      hide Wf, ResolveSlow;
      ResolveKeeps(Model(), buf, key);
      if key == lastKey {
        return last;
      }
      if key in entries {
        lastKey := key;
        last := Some(entries[key]);
        return last;
      }
      r := Slow(buf, key);
    }
  }

  // ----- the cached cursor

  /** What the unchecked reads of the cached cursor need: a chunk inside the buffer the reader was made for. */
  predicate InReach(c: State, e: Env)
  {
    |e.buf| == c.limit && e.start + e.size <= |e.buf|
  }

  /** A value through the cache; nothing where the reference is out of the chunk. */
  function CachedRef(c: State, e: Env, gen: nat, delta: nat): (State, Option<seq<Byte>>)
    requires Wf(c) && InReach(c, e)
  {
    var off := e.start + delta;
    if off < e.start + CHUNK_HEADER || off + 4 > e.start + e.size then (c, None)
    else if Found(e.buf, off).to > e.start + e.size || Found(e.buf, off).to > |e.buf| then (c, None)
    else
      ResolveKeeps(c, e.buf, (off, gen));
      var (c', range) := ResolveRange(c, e.buf, (off, gen));
      (c', Some(if range.Some? then e.buf[range.value.from..range.value.to] else []))
  }

  /** The reference a cell of a variable-length column holds, if any. */
  function RefAt(data: seq<Byte>, pos: nat): (r: Option<nat>)
  {
    match TryReadI32(data, pos)
    case None => None
    case Some(raw) => if -TWO_31 < raw < 0 then Some(-raw) else None
  }

  /** One read of `CachedCursor`. */
  function CachedCell(c: State, e: Env, gen: nat, pos: nat, dt: DType): (State, Read)
    requires Wf(c) && InReach(c, e)
  {
    if IsVar(dt) && RefAt(e.data, pos).Some? then
      var (c', b) := CachedRef(c, e, gen, RefAt(e.data, pos).value);
      (c', if b.Some? then Cell(VarValue(dt, b.value), pos + 4) else Stale)
    else (c, CursorCell(e, pos, dt))
  }

  predicate InChunk(e: Env, gen: nat, key: Key)
  {
    key.1 == gen && e.start + CHUNK_HEADER <= key.0 && key.0 + 4 <= e.start + e.size && key.0 + 4 <= |e.buf|
  }

  /** Every cached entry of this chunk generation describes the bytes of the buffer. */
  ghost predicate Trusted(c: State, e: Env, gen: nat)
  {
    forall key :: key in c.entries && InChunk(e, gen, key) ==> c.entries[key] == Found(e.buf, key.0)
  }

  lemma ResolveTrue(c: State, buf: seq<Byte>, key: Key)
    requires Wf(c) && |buf| == c.limit && 0 < key.0 && key.0 + 4 <= |buf| && Found(buf, key.0).to <= |buf|
    requires key in c.entries ==> c.entries[key] == Found(buf, key.0)
    ensures ResolveRange(c, buf, key).1 == Some(Found(buf, key.0))
  {
    hide Found, NoDup;
  }

  lemma ResolveAdds(c: State, buf: seq<Byte>, key: Key, k: Key)
    requires Wf(c) && |buf| == c.limit && key.0 + 4 <= |buf| && k in ResolveRange(c, buf, key).0.entries
    ensures var c' := ResolveRange(c, buf, key).0;
            (k in c.entries && c'.entries[k] == c.entries[k]) || (k == key && c'.entries[k] == Found(buf, key.0))
  {
    hide Found, NoDup;
  }

  /** A cached read keeps the cache in shape, whatever the bytes. */
  lemma CachedCellKeeps(c: State, e: Env, gen: nat, pos: nat, dt: DType)
    requires Wf(c) && InReach(c, e)
    ensures Wf(CachedCell(c, e, gen, pos, dt).0) && InReach(CachedCell(c, e, gen, pos, dt).0, e)
    ensures var r := CachedCell(c, e, gen, pos, dt).1; r.Cell? ==> TypeOf(r.v) == dt
  {
    hide Read32, Wf, ResolveRange, CursorCell, RefAt;
    if IsVar(dt) && RefAt(e.data, pos).Some? {
      var off := e.start + RefAt(e.data, pos).value;
      if e.start + CHUNK_HEADER <= off && off + 4 <= e.start + e.size {
        ResolveKeeps(c, e.buf, (off, gen));
      }
    }
  }

  /** A cached read answers what a plain read answers, and leaves only true entries behind. */
  lemma CachedRefIsPlain(c: State, e: Env, gen: nat, delta: nat)
    requires Wf(c) && InReach(c, e) && Trusted(c, e, gen)
    ensures var (c', b) := CachedRef(c, e, gen, delta); Trusted(c', e, gen) && b == ResolveRef(e, delta)
  {
    hide Read32, Wf, ResolveRange;
    var off := e.start + delta;
    if CHUNK_HEADER <= delta && off + 4 <= e.start + e.size
       && Found(e.buf, off).to <= e.start + e.size && Found(e.buf, off).to <= |e.buf| {
      var key := (off, gen);
      assert InChunk(e, gen, key);
      ResolveTrue(c, e.buf, key);
      var c' := ResolveRange(c, e.buf, key).0;
      forall k | k in c'.entries && InChunk(e, gen, k)
        ensures c'.entries[k] == Found(e.buf, k.0)
      {
        ResolveAdds(c, e.buf, key, k);
      }
    }
  }

  lemma CachedCellIsPlain(c: State, e: Env, gen: nat, pos: nat, dt: DType)
    requires Wf(c) && InReach(c, e) && Trusted(c, e, gen)
    ensures var (c', r) := CachedCell(c, e, gen, pos, dt);
            Wf(c') && Trusted(c', e, gen) && r == CursorCell(e, pos, dt)
  {
    CachedCellKeeps(c, e, gen, pos, dt);
    hide Read32, CachedRef, ResolveRef, Wf, Trusted, DecodeFixed;
    if IsVar(dt) && RefAt(e.data, pos).Some? {
      CachedRefIsPlain(c, e, gen, RefAt(e.data, pos).value);
    }
  }

  /** A read adds no entry but the one for the reference it followed. */
  lemma CachedCellAdds(c: State, e: Env, gen: nat, pos: nat, dt: DType, key: Key)
    requires Wf(c) && InReach(c, e) && key in CachedCell(c, e, gen, pos, dt).0.entries
    ensures var c' := CachedCell(c, e, gen, pos, dt).0;
            || (key in c.entries && c.entries[key] == c'.entries[key])
            || (RefAt(e.data, pos).Some? && IsVar(dt) && key == (e.start + RefAt(e.data, pos).value, gen)
                && key.0 + 4 <= |e.buf| && c'.entries[key] == Found(e.buf, key.0))
  {
    hide Read32, DecodeFixed, ResolveRef;
  }

  class CachedCursor {
    const e: Env
    const gen: nat
    const reader: CachedReader
    var pos: nat
    var stale: bool

    constructor (e: Env, gen: nat, reader: CachedReader)
      ensures this.e == e && this.gen == gen && this.reader == reader && pos == 0 && !stale
    {
      this.e, this.gen, this.reader := e, gen, reader;
      pos, stale := 0, false;
    }

    method ReadFixed(n: nat) returns (b: Option<seq<Byte>>)
      modifies this
      ensures b.Some? <==> !old(stale) && old(pos) + n <= |e.data|
      ensures b.Some? ==> !stale && pos == old(pos) + n && b.value == e.data[old(pos)..pos]
      ensures b.None? ==> stale
    {
      if stale || pos + n > |e.data| {
        stale := true;
        return None;
      }
      b := Some(e.data[pos..pos + n]);
      pos := pos + n;
    }

    /** `read_lp_cached` for a reference: the length is read and the value sliced without a further check. */
    method FollowRef(delta: nat) returns (b: Option<seq<Byte>>)
      requires Wf(reader.Model()) && InReach(reader.Model(), e)
      modifies reader
      ensures Wf(reader.Model()) && InReach(reader.Model(), e)
      ensures (reader.Model(), b) == CachedRef(old(reader.Model()), e, gen, delta)
    {
      hide Read32, Wf, ResolveRange;
      var off := e.start + delta;
      var chunkEnd := e.start + e.size;
      if off < e.start + CHUNK_HEADER || off + 4 > chunkEnd {
        return None;
      }
      var end := off + 4 + Read32(e.buf[off..off + 4]);
      if end > chunkEnd || end > |e.buf| {
        return None;
      }
      ResolveKeeps(reader.Model(), e.buf, (off, gen));
      var r := reader.Resolve(e.buf, (off, gen));
      b := Some(if r.Some? then e.buf[r.value.from..r.value.to] else []);
    }

    /** `next_*`: the cell of a cached read, which is the plain one while the entries in use are true. */
    method Next(dt: DType) returns (v: Value)
      requires Wf(reader.Model()) && InReach(reader.Model(), e)
      modifies this, reader
      ensures Wf(reader.Model()) && InReach(reader.Model(), e)
      ensures var (c', r) := CachedCell(old(reader.Model()), e, gen, old(pos), dt);
              && reader.Model() == (if old(stale) then old(reader.Model()) else c')
              && (if !old(stale) && r.Cell? then v == r.v && pos == r.next && !stale else v == Blank(dt) && stale)
              && (Trusted(old(reader.Model()), e, gen) ==>
                    Trusted(reader.Model(), e, gen) && r == CursorCell(e, old(pos), dt))
    {
      hide Read32, DecodeFixed, CachedRef, ResolveRef, Wf, Trusted, InReach;
      ghost var c := reader.Model();
      CachedCellKeeps(c, e, gen, pos, dt);
      if Trusted(c, e, gen) {
        CachedCellIsPlain(c, e, gen, pos, dt);
      }
      if !IsVar(dt) {
        var b := ReadFixed(FixedSize(dt));
        v := if b.Some? then DecodeFixed(dt, b.value) else Blank(dt);
        return;
      }
      var head := ReadFixed(4);
      if head.None? {
        return Blank(dt);
      }
      var raw := Signed32(Read32(head.value));
      if raw < 0 {
        var b: Option<seq<Byte>> := None;
        if raw != -TWO_31 {
          b := FollowRef(-raw);
        }
        if b.None? {
          stale := true;
          return Blank(dt);
        }
        return VarValue(dt, b.value);
      }
      if pos + raw > |e.data| {
        stale := true;
        return Blank(dt);
      }
      v := VarValue(dt, e.data[pos..pos + raw]);
      pos := pos + raw;
    }
  }
}
