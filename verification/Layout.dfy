/** Offsets of a table buffer: header, column descriptors, lease slots and chunks. */
module Layout {
  import opened Bytes
  import opened Chunks
  import opened Schema

  const HEADER_SIZE: nat := 128
  const DESC_SIZE: nat := 64
  const LEASE_SIZE: nat := 16
  const LEASE_SLOTS: nat := 16
  const CHUNK_ALIGN: nat := 8
  const MAX_NAME: nat := 54

  /** `usize` arithmetic that reports overflow. */
  function Checked(n: nat): Option<nat>
  {
    if n < TWO_64 then Some(n) else None
  }

  /** Clearing the low six bits. */
  function Mask64(n: nat): (r: nat)
    ensures r % 64 == 0 && r <= n < r + 64
  {
    n - n % 64
  }

  function CheckedLeaseOffset(numCols: nat): (r: Option<nat>)
    ensures r.Some? <==> DESC_SIZE * numCols + HEADER_SIZE + 63 < TWO_64
    ensures r.Some? ==> r.value % 64 == 0 && HEADER_SIZE + DESC_SIZE * numCols <= r.value
  {
    match Checked(DESC_SIZE * numCols)
    case None => None
    case Some(cols) =>
      match Checked(HEADER_SIZE + cols)
      case None => None
      case Some(bytes) =>
        match Checked(bytes + 63)
        case None => None
        case Some(n) => Some(Mask64(n))
  }

  function CheckedDataOffset(numCols: nat, numChunks: nat): (r: Option<nat>)
    ensures r.Some? ==> CheckedLeaseOffset(numCols).Some? && r.value % 64 == 0
    ensures r.Some? ==> CheckedLeaseOffset(numCols).value + LEASE_SIZE * LEASE_SLOTS * numChunks <= r.value
  {
    match CheckedLeaseOffset(numCols)
    case None => None
    case Some(lease) =>
      match Checked(LEASE_SIZE * LEASE_SLOTS * numChunks)
      case None => None
      case Some(slots) =>
        match Checked(slots + lease)
        case None => None
        case Some(bytes) =>
          match Checked(bytes + 63)
          case None => None
          case Some(n) => Some(Mask64(n))
  }

  datatype Col = Col(name: seq<Byte>, dtype: DType)

  datatype Plan = Plan(numCols: nat, numChunks: nat, chunkSize: nat, leaseOffset: nat, dataOffset: nat)

  /** The checks of `init_buf`, in their order; `aligned` tells whether the buffer starts at a multiple of 8. */
  function InitPlan(aligned: bool, len: nat, numCols: nat, chunkSize: U32, numChunks: U32): Option<Plan>
  {
    if !aligned || numChunks == 0 || chunkSize % CHUNK_ALIGN != 0 || numCols >= TWO_32 then None
    else
      match CheckedDataOffset(numCols, numChunks)
      case None => None
      case Some(dataOffset) =>
        if dataOffset >= TWO_32 then None
        else if dataOffset + chunkSize * numChunks >= TWO_64 || len < dataOffset + chunkSize * numChunks then None
        else if chunkSize < CHUNK_HEADER + 8 then None
        else Some(Plan(numCols, numChunks, chunkSize, CheckedLeaseOffset(numCols).value, dataOffset))
  }

  /** m is the least multiple of 64 from n on. */
  predicate LeastMultiple(m: nat, n: nat)
  {
    m % 64 == 0 && n <= m < n + 64
  }

  lemma LeastUnique(m: nat, m': nat, n: nat)
    requires LeastMultiple(m, n) && LeastMultiple(m', n)
    ensures m == m'
  {
  }

  lemma MaskIsLeast(n: nat)
    ensures LeastMultiple(Mask64(n + 63), n)
  {
  }

  /** Descriptors first, then the leases. */
  lemma LeaseOffsetExactly(numCols: nat, lease: nat)
    requires 128 + 64 * numCols + 63 < 0x1_0000_0000_0000_0000
    ensures CheckedLeaseOffset(numCols) == Some(lease) <==> LeastMultiple(lease, 128 + 64 * numCols)
  {
    var n := 128 + 64 * numCols;
    MaskIsLeast(n);
    assert CheckedLeaseOffset(numCols) == Some(Mask64(n + 63));
    if LeastMultiple(lease, n) {
      LeastUnique(lease, Mask64(n + 63), n);
    }
  }

  /** Then 256 bytes of leases for each chunk, then the chunks. */
  lemma DataOffsetExactly(numCols: nat, numChunks: nat, lease: nat, data: nat)
    requires LeastMultiple(lease, 128 + 64 * numCols) && lease + 256 * numChunks + 63 < 0x1_0000_0000_0000_0000
    ensures CheckedDataOffset(numCols, numChunks) == Some(data) <==> LeastMultiple(data, lease + 256 * numChunks)
  {
    var n := lease + 256 * numChunks;
    LeaseOffsetExactly(numCols, lease);
    MaskIsLeast(n);
    assert CheckedDataOffset(numCols, numChunks) == Some(Mask64(n + 63));
    if LeastMultiple(data, n) {
      LeastUnique(data, Mask64(n + 63), n);
    }
  }

  /** Where the offsets fit 32 bits, no sum on the way to them overflows. */
  lemma SmallOffsets(numCols: nat, numChunks: nat, lease: nat, data: nat)
    requires LeastMultiple(lease, 128 + 64 * numCols) && LeastMultiple(data, lease + 256 * numChunks)
    requires data < 0x1_0000_0000
    ensures 128 + 64 * numCols + 63 < 0x1_0000_0000_0000_0000 && lease + 256 * numChunks + 63 < 0x1_0000_0000_0000_0000
  {
  }

  /** The plan `init_buf` makes of a layout: both offsets are the least multiples of 64 that leave room. */
  predicate Lays(p: Plan, numCols: nat, chunkSize: nat, numChunks: nat)
  {
    && p.numCols == numCols && p.numChunks == numChunks && p.chunkSize == chunkSize
    && LeastMultiple(p.leaseOffset, 128 + 64 * numCols)
    && LeastMultiple(p.dataOffset, p.leaseOffset + 256 * numChunks)
  }

  lemma OffsetsExist(numCols: nat, numChunks: nat) returns (lease: nat, data: nat)
    ensures LeastMultiple(lease, 128 + 64 * numCols) && LeastMultiple(data, lease + 256 * numChunks)
  {
    MaskIsLeast(128 + 64 * numCols);
    lease := Mask64(128 + 64 * numCols + 63);
    MaskIsLeast(lease + 256 * numChunks);
    data := Mask64(lease + 256 * numChunks + 63);
  }

  lemma CheckedOffsets(numCols: nat, numChunks: nat, lease: nat, data: nat)
    requires LeastMultiple(lease, 128 + 64 * numCols) && LeastMultiple(data, lease + 256 * numChunks)
    ensures data < 0x1_0000_0000 ==>
              CheckedLeaseOffset(numCols) == Some(lease) && CheckedDataOffset(numCols, numChunks) == Some(data)
    ensures CheckedDataOffset(numCols, numChunks).Some? ==> CheckedDataOffset(numCols, numChunks) == Some(data)
  {
    if CheckedDataOffset(numCols, numChunks).Some? {
      CheckedRoom(numCols, numChunks, lease);
    }
    if data < 0x1_0000_0000 {
      SmallOffsets(numCols, numChunks, lease, data);
    }
    if data < 0x1_0000_0000 || CheckedDataOffset(numCols, numChunks).Some? {
      hide CheckedDataOffset, CheckedLeaseOffset;
      LeaseOffsetExactly(numCols, lease);
      DataOffsetExactly(numCols, numChunks, lease, data);
    }
  }

  lemma CheckedRoom(numCols: nat, numChunks: nat, lease: nat)
    requires LeastMultiple(lease, 128 + 64 * numCols) && CheckedDataOffset(numCols, numChunks).Some?
    ensures 128 + 64 * numCols + 63 < 0x1_0000_0000_0000_0000 && lease + 256 * numChunks + 63 < 0x1_0000_0000_0000_0000
  {
    assert CheckedLeaseOffset(numCols).Some?;
    LeaseOffsetExactly(numCols, lease);
  }

  /**
   Exactly which layouts `init_buf` accepts: an aligned buffer, at least one chunk, chunks of at least 48
   bytes and a multiple of 8, fewer than 2^32 columns, a data offset below 2^32, and room for all chunks.
   */
  lemma InitExactly(aligned: bool, len: nat, numCols: nat, chunkSize: U32, numChunks: U32, p: Plan)
    requires Lays(p, numCols, chunkSize, numChunks)
    ensures InitPlan(aligned, len, numCols, chunkSize, numChunks).Some?
            <==> && aligned && numChunks > 0 && chunkSize % 8 == 0 && chunkSize >= 48 && numCols < 0x1_0000_0000
                 && p.dataOffset < 0x1_0000_0000
                 && p.dataOffset + chunkSize * numChunks < 0x1_0000_0000_0000_0000
                 && p.dataOffset + chunkSize * numChunks <= len
    ensures InitPlan(aligned, len, numCols, chunkSize, numChunks).Some? ==>
              InitPlan(aligned, len, numCols, chunkSize, numChunks) == Some(p)
  {
    hide CheckedDataOffset, CheckedLeaseOffset, LeastMultiple;
    CheckedOffsets(numCols, numChunks, p.leaseOffset, p.dataOffset);
  }

  /** Every layout has one such plan. */
  lemma PlanExists(numCols: nat, chunkSize: nat, numChunks: nat) returns (p: Plan)
    ensures Lays(p, numCols, chunkSize, numChunks)
  {
    var lease, data := OffsetsExist(numCols, numChunks);
    p := Plan(numCols, numChunks, chunkSize, lease, data);
  }

  /** One column, four chunks of 256 bytes in a buffer of 4096: leases from 192 on, chunks from 1216 on. */
  lemma LayoutExample()
    ensures InitPlan(true, 4096, 1, 256, 4) == Some(Plan(1, 4, 256, 192, 1216))
    ensures From(Plan(1, 4, 256, 192, 1216), ColRegion(0)) == 128
    ensures From(Plan(1, 4, 256, 192, 1216), LeaseRegion(1, 2)) == 480
    ensures From(Plan(1, 4, 256, 192, 1216), ChunkRegion(3)) == 1984
  {
    InitExactly(true, 4096, 1, 256, 4, Plan(1, 4, 256, 192, 1216));
  }

  // ----- regions

  datatype Region = HeaderRegion | ColRegion(col: nat) | LeaseRegion(chunk: nat, slot: nat) | ChunkRegion(index: nat)

  predicate LegalRegion(p: Plan, r: Region)
  {
    match r
    case HeaderRegion => true
    case ColRegion(c) => c < p.numCols
    case LeaseRegion(c, s) => c < p.numChunks && s < LEASE_SLOTS
    case ChunkRegion(i) => i < p.numChunks
  }

  /** Where the accessors `header`, `col_desc`, `reader_lease` and `chunk_start_off` look. */
  function From(p: Plan, r: Region): nat
  {
    match r
    case HeaderRegion => 0
    case ColRegion(c) => HEADER_SIZE + c * DESC_SIZE
    case LeaseRegion(c, s) => p.leaseOffset + (c * LEASE_SLOTS + s) * LEASE_SIZE
    case ChunkRegion(i) => p.dataOffset + i * p.chunkSize
  }

  function To(p: Plan, r: Region): nat
  {
    From(p, r) + match r
                 case HeaderRegion => HEADER_SIZE
                 case ColRegion(_) => DESC_SIZE
                 case LeaseRegion(_, _) => LEASE_SIZE
                 case ChunkRegion(_) => p.chunkSize
  }

  /** The part of the buffer a kind of region lives in. */
  function ZoneFrom(p: Plan, r: Region): nat
  {
    match r
    case HeaderRegion => 0
    case ColRegion(_) => HEADER_SIZE
    case LeaseRegion(_, _) => p.leaseOffset
    case ChunkRegion(_) => p.dataOffset
  }

  function ZoneTo(p: Plan, r: Region): nat
  {
    match r
    case HeaderRegion => HEADER_SIZE
    case ColRegion(_) => p.leaseOffset
    case LeaseRegion(_, _) => p.dataOffset
    case ChunkRegion(_) => p.dataOffset + p.chunkSize * p.numChunks
  }

  lemma PlanFacts(aligned: bool, len: nat, numCols: nat, chunkSize: U32, numChunks: U32)
    requires InitPlan(aligned, len, numCols, chunkSize, numChunks).Some?
    ensures var p := InitPlan(aligned, len, numCols, chunkSize, numChunks).value;
            && p.numCols == numCols && p.numChunks == numChunks > 0 && p.chunkSize == chunkSize
            && HEADER_SIZE + p.numCols * DESC_SIZE <= p.leaseOffset && p.leaseOffset % 64 == 0
            && p.leaseOffset + p.numChunks * LEASE_SLOTS * LEASE_SIZE <= p.dataOffset && p.dataOffset % 64 == 0
            && p.dataOffset + p.chunkSize * p.numChunks <= len && p.dataOffset < TWO_32
            && p.chunkSize % 8 == 0 && CHUNK_HEADER + 8 <= p.chunkSize < TWO_32
  {
  }

  lemma InZone(p: Plan, r: Region)
    requires LegalRegion(p, r) && HEADER_SIZE + p.numCols * DESC_SIZE <= p.leaseOffset
    requires p.leaseOffset + p.numChunks * LEASE_SLOTS * LEASE_SIZE <= p.dataOffset
    ensures ZoneFrom(p, r) <= From(p, r) && To(p, r) <= ZoneTo(p, r)
  {
    match r
    case HeaderRegion =>
    case ColRegion(c) => ProductGrows(c, p.numCols, DESC_SIZE);
    case LeaseRegion(c, s) => ProductGrows(c, p.numChunks, LEASE_SLOTS);
    case ChunkRegion(i) =>
      ProductGrows(i, p.numChunks, p.chunkSize);
      assert p.chunkSize * p.numChunks == p.numChunks * p.chunkSize;
  }

  lemma SameKindApart(p: Plan, a: Region, b: Region)
    requires a != b && LegalRegion(p, a) && LegalRegion(p, b)
    requires ZoneFrom(p, a) == ZoneFrom(p, b) && SameKind(a, b)
    ensures To(p, a) <= From(p, b) || To(p, b) <= From(p, a)
  {
    if a.ChunkRegion? {
      if a.index < b.index {
        ProductGrows(a.index, b.index, p.chunkSize);
      } else {
        ProductGrows(b.index, a.index, p.chunkSize);
      }
    }
  }

  /** Whenever `init_buf` accepts a layout, any two regions are disjoint, inside the buffer and aligned. */
  lemma LayoutDisjoint(aligned: bool, len: nat, numCols: nat, chunkSize: U32, numChunks: U32, a: Region, b: Region)
    requires InitPlan(aligned, len, numCols, chunkSize, numChunks).Some?
    requires var p := InitPlan(aligned, len, numCols, chunkSize, numChunks).value;
             LegalRegion(p, a) && LegalRegion(p, b)
    ensures var p := InitPlan(aligned, len, numCols, chunkSize, numChunks).value;
            && To(p, a) <= len
            && From(p, a) % 8 == 0
            && (a != b ==> To(p, a) <= From(p, b) || To(p, b) <= From(p, a))
  {
    hide InitPlan, From, To;
    var p := InitPlan(aligned, len, numCols, chunkSize, numChunks).value;
    PlanFacts(aligned, len, numCols, chunkSize, numChunks);
    InZone(p, a);
    InZone(p, b);
    ZonesOrdered(p, a, b, len);
    SixtyFour(p.leaseOffset);
    SixtyFour(p.dataOffset);
    Aligned(p, a);
    if a != b && ZoneFrom(p, a) == ZoneFrom(p, b) && SameKind(a, b) {
      SameKindApart(p, a, b);
    }
  }

  predicate SameKind(a: Region, b: Region)
  {
    (a.HeaderRegion? <==> b.HeaderRegion?) && (a.ColRegion? <==> b.ColRegion?) && (a.LeaseRegion? <==> b.LeaseRegion?)
  }

  lemma ZonesOrdered(p: Plan, a: Region, b: Region, len: nat)
    requires HEADER_SIZE <= p.leaseOffset <= p.dataOffset && p.dataOffset + p.chunkSize * p.numChunks <= len
    ensures ZoneTo(p, a) <= len
    ensures SameKind(a, b) ==> ZoneFrom(p, a) == ZoneFrom(p, b)
    ensures !SameKind(a, b) ==> ZoneTo(p, a) <= ZoneFrom(p, b) || ZoneTo(p, b) <= ZoneFrom(p, a)
  {
    assert p.chunkSize * p.numChunks >= 0;
  }

  lemma {:induction false} EightTimes(i: nat, size: nat)
    requires size % 8 == 0
    ensures (i * size) % 8 == 0
    decreases i
  {
    if i > 0 {
      EightTimes(i - 1, size);
      assert i * size == (i - 1) * size + size;
    }
  }

  lemma EightMore(base: nat, i: nat, size: nat)
    requires base % 8 == 0 && size % 8 == 0
    ensures (base + i * size) % 8 == 0
  {
    EightTimes(i, size);
    EightAdds(base, i * size);
  }

  lemma EightAdds(a: nat, b: nat)
    requires a % 8 == 0 && b % 8 == 0
    ensures (a + b) % 8 == 0
  {
  }

  lemma SixtyFour(n: nat)
    requires n % 64 == 0
    ensures n % 8 == 0
  {
    assert n == 8 * (8 * (n / 64));
  }

  lemma Aligned(p: Plan, r: Region)
    requires p.leaseOffset % 8 == 0 && p.dataOffset % 8 == 0 && p.chunkSize % 8 == 0
    ensures From(p, r) % 8 == 0
  {
    match r
    case HeaderRegion =>
    case ColRegion(c) => EightMore(HEADER_SIZE, c, DESC_SIZE);
    case LeaseRegion(c, s) => EightMore(p.leaseOffset, c * LEASE_SLOTS + s, LEASE_SIZE);
    case ChunkRegion(i) => EightMore(p.dataOffset, i, p.chunkSize);
  }

  // ----- the timestamp column

  const TIMESTAMP: seq<Byte> := [116, 105, 109, 101, 115, 116, 97, 109, 112]
  const TS: seq<Byte> := [116, 115]

  predicate IsTsCol(c: Col)
  {
    c.dtype == DI64 && (c.name == TIMESTAMP || c.name == TS)
  }

  function Ascii(name: string): seq<int>
  {
    seq(|name|, k requires 0 <= k < |name| => name[k] as int)
  }

  /** Only an I64 column spelled like this is taken for the timestamp. */
  lemma TsNames(c: Col)
    ensures IsTsCol(c) <==> c.dtype == DI64 && (c.name == Ascii("timestamp") || c.name == Ascii("ts"))
  {
    assert TIMESTAMP == Ascii("timestamp");
    assert TS == Ascii("ts");
  }

  /** Index of the first I64 column with a timestamp name. */
  function FirstTs(cols: seq<Col>): (r: Option<nat>)
    ensures r.Some? ==> r.value < |cols| && IsTsCol(cols[r.value]) && forall i :: 0 <= i < r.value ==> !IsTsCol(cols[i])
    ensures r.None? ==> forall i :: 0 <= i < |cols| ==> !IsTsCol(cols[i])
  {
    if cols == [] then None
    else if IsTsCol(cols[0]) then Some(0)
    else
      match FirstTs(cols[1..])
      case None => None
      case Some(i) => Some(i + 1)
  }

  /** `Header::ts_col`: index plus one, cut to 16 bits. */
  function TsColOf(cols: seq<Col>): nat
  {
    match FirstTs(cols)
    case None => 0
    case Some(i) => (i + 1) % 0x1_0000
  }

  /** The recorded column is the one found exactly when its index leaves room in 16 bits. */
  lemma TsColExact(cols: seq<Col>)
    requires FirstTs(cols).Some?
    ensures TsColOf(cols) == FirstTs(cols).value + 1 <==> FirstTs(cols).value < 0xFFFF
    ensures FirstTs(cols).value < 0xFFFF ==> cols[TsColOf(cols) - 1].dtype == DI64
  {
  }
}
