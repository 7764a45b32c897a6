/** What the validator accepts, read off the numbers and bytes of the buffer. */
module ValidateExact {
  import opened Bytes
  import opened Chunks
  import opened Schema
  import opened RowCodec
  import opened RowCheck
  import L = Layout
  import opened Validate

  // ----- the columns of one record

  /**
   Column c of the record starts with a negative length prefix, pointing `back` bytes from the start
   of the chunk, and the table has no dedup or that is outside the committed bytes.
   */
  predicate BadPrefix(data: seq<Byte>, types: seq<DType>, dedup: bool, used: nat, c: nat)
    requires c < |types|
  {
    && IsVar(types[c]) && ColOffset(data, types, c).Some?
    && var off := ColOffset(data, types, c).value;
       && off + 4 <= |data|
       && var u := Read32(data[off..off + 4]);
          && u >= 0x8000_0000
          && var back := 0x1_0000_0000 - u;
             !dedup || back < 40 || back >= 40 + used || back == 0x8000_0000
  }

  lemma {:induction false} OffsetsGrow(data: seq<Byte>, types: seq<DType>, k: nat, c: nat)
    requires k <= c <= |types| && ColOffset(data, types, k).Some? && ColOffset(data, types, c).Some?
    ensures ColOffset(data, types, k).value <= ColOffset(data, types, c).value
    decreases c
  {
    hide Read32;
    if k < c {
      OffsetsGrow(data, types, k, c - 1);
    }
  }

  /** Behind an unreadable prefix no column has a prefix. */
  lemma NoneBehind(data: seq<Byte>, types: seq<DType>, dedup: bool, used: nat, k: nat, c: nat)
    requires k <= c < |types| && ColOffset(data, types, k).Some? && ColOffset(data, types, k).value + 4 > |data|
    ensures !BadPrefix(data, types, dedup, used, c)
  {
    hide Read32, ColOffset;
    if ColOffset(data, types, c).Some? {
      OffsetsGrow(data, types, k, c);
    }
  }

  lemma {:induction false} ColsPassFrom(data: seq<Byte>, types: seq<DType>, dedup: bool, used: nat, k: nat)
    requires k <= |types| && ColOffset(data, types, k).Some?
    ensures ColsPass(data, ColOffset(data, types, k).value, types[k..], dedup, used)
            <==> forall c :: k <= c < |types| ==> !BadPrefix(data, types, dedup, used, c)
    decreases |types| - k
  {
    hide Read32, BadPrefix;
    if k < |types| {
      var off, rest := ColOffset(data, types, k).value, types[k..];
      assert rest[0] == types[k] && rest[1..] == types[k + 1..];
      if off + 4 > |data| {
        forall c | k <= c < |types|
          ensures !BadPrefix(data, types, dedup, used, c)
        {
          NoneBehind(data, types, dedup, used, k, c);
        }
        NothingToCheck(data, off, rest, dedup, used);
      } else {
        ColsPassFrom(data, types, dedup, used, k + 1);
        OneColumn(data, types, dedup, used, k);
      }
    }
  }

  lemma {:induction false} NothingToCheck(data: seq<Byte>, off: nat, types: seq<DType>, dedup: bool, used: nat)
    requires off + 4 > |data|
    ensures ColsPass(data, off, types, dedup, used)
    decreases |types|
  {
    if types != [] {
      NothingToCheck(data, off, types[1..], dedup, used);
      NothingToCheck(data, off + FixedSize(types[0]), types[1..], dedup, used);
    }
  }

  lemma OneColumn(data: seq<Byte>, types: seq<DType>, dedup: bool, used: nat, k: nat)
    requires k < |types| && ColOffset(data, types, k).Some? && ColOffset(data, types, k).value + 4 <= |data|
    ensures ColOffset(data, types, k + 1).Some?
    ensures ColsPass(data, ColOffset(data, types, k).value, types[k..], dedup, used)
            <==> && !BadPrefix(data, types, dedup, used, k)
                 && ColsPass(data, ColOffset(data, types, k + 1).value, types[k + 1..], dedup, used)
  {
    hide Read32;
    assert types[k..][0] == types[k] && types[k..][1..] == types[k + 1..];
  }

  /** A record passes exactly if none of its columns has a bad prefix. */
  lemma ColsPassExactly(data: seq<Byte>, types: seq<DType>, dedup: bool, used: nat)
    ensures ColsPass(data, 0, types, dedup, used)
            <==> forall c :: 0 <= c < |types| ==> !BadPrefix(data, types, dedup, used, c)
  {
    hide BadPrefix, ColsPass;
    ColsPassFrom(data, types, dedup, used, 0);
    assert types[0..] == types;
  }

  // ----- the records of a chunk

  /** Records start at these offsets, each right behind the one before. */
  predicate Chain(buf: seq<Byte>, starts: seq<nat>, end: nat)
  {
    && starts != [] && end <= |buf|
    && (forall k :: 0 <= k < |starts| ==> starts[k] <= end)
    && forall k :: 0 <= k < |starts| - 1 ==> Behind(buf, starts[k], starts[k + 1], end)
  }

  /** The record at `pos` ends at `next`. */
  predicate Behind(buf: seq<Byte>, pos: nat, next: nat, end: nat)
  {
    pos + 4 <= end <= |buf| && next == pos + 4 + Read32(buf[pos..pos + 4])
  }

  /** No whole record starts at `pos`. */
  predicate Stuck(buf: seq<Byte>, pos: nat, end: nat)
    requires end <= |buf|
  {
    pos + 4 <= end ==> pos + 4 + Read32(buf[pos..pos + 4]) > end
  }

  /** The records from `base` on, up to the first place where none starts. */
  lemma {:induction false} LongestChain(buf: seq<Byte>, base: nat, end: nat) returns (starts: seq<nat>)
    requires base <= end <= |buf|
    ensures Chain(buf, starts, end) && starts[0] == base && Stuck(buf, starts[|starts| - 1], end)
    decreases end - base
  {
    hide Read32;
    if Stuck(buf, base, end) {
      starts := [base];
    } else {
      var next := base + 4 + Read32(buf[base..base + 4]);
      var rest := LongestChain(buf, next, end);
      starts := [base] + rest;
      forall k | 0 <= k < |starts| - 1
        ensures Behind(buf, starts[k], starts[k + 1], end)
      {
        if k > 0 {
          assert starts[k] == rest[k - 1] && starts[k + 1] == rest[k];
        }
      }
    }
  }

  /** No column of the record between these offsets has a bad prefix. */
  predicate RecordGood(buf: seq<Byte>, from: nat, to: nat, types: seq<DType>, dedup: bool, used: nat)
  {
    && from + 4 <= to <= |buf|
    && var data := buf[from + 4..to];
       forall c :: 0 <= c < |types| ==> !BadPrefix(data, types, dedup, used, c)
  }

  predicate RecordsGood(buf: seq<Byte>, starts: seq<nat>, types: seq<DType>, dedup: bool, used: nat)
  {
    forall k :: 0 <= k < |starts| - 1 ==> RecordGood(buf, starts[k], starts[k + 1], types, dedup, used)
  }

  /** The row walk of a chunk passes exactly if its records leave fewer than four bytes and have no bad prefix. */
  lemma {:induction false} RowsPassExactly(buf: seq<Byte>, starts: seq<nat>, end: nat, types: seq<DType>, dedup: bool,
                                           used: nat)
    requires Chain(buf, starts, end) && Stuck(buf, starts[|starts| - 1], end)
    ensures RowsPass(buf, starts[0], end, types, dedup, used)
            <==> end - starts[|starts| - 1] < 4 && RecordsGood(buf, starts, types, dedup, used)
    decreases |starts|
  {
    hide Read32, BadPrefix, ColsPass, RowsPass;
    RowsStuck(buf, starts[0], end, types, dedup, used);
    if |starts| > 1 {
      var rest := starts[1..];
      assert Behind(buf, starts[0], starts[1], end);
      RestChain(buf, starts, end);
      RowsPassExactly(buf, rest, end, types, dedup, used);
      RowsStep(buf, starts[0], starts[1], end, types, dedup, used);
      ColsPassExactly(buf[starts[0] + 4..starts[1]], types, dedup, used);
      FirstAndRest(buf, starts, types, dedup, used);
    }
  }

  lemma RestChain(buf: seq<Byte>, starts: seq<nat>, end: nat)
    requires Chain(buf, starts, end) && |starts| > 1
    ensures Chain(buf, starts[1..], end) && starts[1..][|starts| - 2] == starts[|starts| - 1]
  {
    hide Behind;
    forall k | 0 <= k < |starts[1..]| - 1
      ensures Behind(buf, starts[1..][k], starts[1..][k + 1], end)
    {
      assert Behind(buf, starts[k + 1], starts[k + 2], end);
    }
  }

  lemma FirstAndRest(buf: seq<Byte>, starts: seq<nat>, types: seq<DType>, dedup: bool, used: nat)
    requires |starts| > 1
    ensures RecordsGood(buf, starts, types, dedup, used)
            <==> RecordGood(buf, starts[0], starts[1], types, dedup, used)
                 && RecordsGood(buf, starts[1..], types, dedup, used)
  {
    hide RecordGood;
    var rest := starts[1..];
    if RecordsGood(buf, starts, types, dedup, used) {
      forall k | 0 <= k < |rest| - 1
        ensures RecordGood(buf, rest[k], rest[k + 1], types, dedup, used)
      {
        assert RecordGood(buf, starts[k + 1], starts[k + 2], types, dedup, used);
      }
    }
    if RecordGood(buf, starts[0], starts[1], types, dedup, used) && RecordsGood(buf, rest, types, dedup, used) {
      forall k | 0 <= k < |starts| - 1
        ensures RecordGood(buf, starts[k], starts[k + 1], types, dedup, used)
      {
        if k > 0 {
          assert RecordGood(buf, rest[k - 1], rest[k], types, dedup, used);
        }
      }
    }
  }

  // ----- the whole buffer

  /** The header reads as one of this format, with both offsets where they belong. */
  predicate HeaderReads(img: Image, lease: nat, data: nat)
  {
    && img.aligned && img.magic == 0x4D45_4D54 && img.version == 5 && img.headerSize >= 128
    && img.byteOrder == 0x0201 && img.flags <= 1
    && img.numChunks > 0 && img.chunkSize >= 48 && img.chunkSize % 8 == 0
    && img.leaseSlots == 16 && img.leaseOffset == lease && img.dataOffset == data < 0x1_0000_0000
    && data + img.chunkSize * img.numChunks < 0x1_0000_0000_0000_0000
    && data + img.chunkSize * img.numChunks <= |img.bytes|
  }

  /** A chunk reads well: its header, and where it could be pinned the records below the captured extent. */
  ghost predicate ChunkReads(img: Image, i: nat, pin: Pin, types: seq<DType>)
  {
    && img.chunks(i).state <= 2 && img.chunks(i).used + 40 <= img.chunkSize && pin != Exhausted
    && (pin.Snapshot? ==> RecordsRead(img, img.dataOffset + i * img.chunkSize + 40, pin.used, types))
  }

  ghost predicate RecordsRead(img: Image, base: nat, used: nat, types: seq<DType>)
  {
    exists starts :: RecordsFrom(img, starts, base, used) && RecordsGood(img.bytes, starts, types, img.flags == 1, used)
  }

  /** All whole records of an extent, with fewer than four bytes left. */
  ghost predicate RecordsFrom(img: Image, starts: seq<nat>, base: nat, used: nat)
  {
    Chain(img.bytes, starts, base + used) && starts[0] == base && base + used - starts[|starts| - 1] < 4
  }

  lemma HeaderExactly(img: Image, lease: nat, data: nat)
    requires L.LeastMultiple(lease, 128 + 64 * img.numCols) && L.LeastMultiple(data, lease + 256 * img.numChunks)
    ensures HeaderOk(img) <==> HeaderReads(img, lease, data)
  {
    hide L.CheckedDataOffset, L.CheckedLeaseOffset;
    L.CheckedOffsets(img.numCols, img.numChunks, lease, data);
    if HeaderReads(img, lease, data) {
      assert img.chunkSize * img.numChunks >= 0;
    }
  }

  /** The offset of the chunks lies behind header, descriptors and leases. */
  lemma ChunkExactly(img: Image, i: nat, pin: Pin)
    requires HeaderOk(img) && ColsOk(img) && i < img.numChunks
    requires pin.Snapshot? ==> CHUNK_HEADER + pin.used <= img.chunkSize
    ensures ChunkPasses(img, i, pin) <==> ChunkReads(img, i, pin, TypesOf(img))
  {
    hide RowsPass, ColsOk, RecordsRead, HeaderOk;
    ChunkRoom(img);
    if pin.Snapshot? {
      ChunkFits(img, i);
      RecordsExactly(img, ChunkAt(img, i) + CHUNK_HEADER, pin.used, TypesOf(img));
    }
  }

  lemma RecordsExactly(img: Image, base: nat, used: nat, types: seq<DType>)
    requires base + used <= |img.bytes|
    ensures RowsPass(img.bytes, base, base + used, types, img.flags == 1, used) <==> RecordsRead(img, base, used, types)
  {
    hide RowsPass, RecordsGood, Read32;
    var end, dedup := base + used, img.flags == 1;
    if RowsPass(img.bytes, base, end, types, dedup, used) {
      var starts := LongestChain(img.bytes, base, end);
      RowsPassExactly(img.bytes, starts, end, types, dedup, used);
      assert RecordsFrom(img, starts, base, used);
    }
    if RecordsRead(img, base, used, types) {
      var starts :| RecordsFrom(img, starts, base, used) && RecordsGood(img.bytes, starts, types, dedup, used);
      RowsPassExactly(img.bytes, starts, end, types, dedup, used);
    }
  }

  predicate ColsRead(img: Image)
  {
    && (forall i :: 0 <= i < img.numCols ==> Described(img.cols(i)))
    && (img.tsCol == 0 || (img.tsCol <= img.numCols && img.cols(img.tsCol - 1).dtype == 3))
  }

  predicate Described(d: Desc)
  {
    d.nameLen <= 54 && 1 <= d.dtype <= 9
  }

  /** The nine column types by their codes, and the bytes a cell of each takes; text and bytes have a prefix. */
  lemma Codes(code: nat)
    requires 1 <= code <= 9
    ensures FromCode(code) == Some([DU8, DI32, DI64, DF32, DF64, DU64, DU32, DStr, DBytes][code - 1])
    ensures FixedSize(FromCode(code).value) == [1, 4, 8, 4, 8, 8, 4, 0, 0][code - 1]
    ensures IsVar(FromCode(code).value) <==> code >= 8
  {
  }

  /**
   What `validate_buf` accepts, in numbers and bytes: magic, version and sizes of the format, both offsets
   the least multiples of 64 that leave room, known column types, an I64 timestamp column or none, and in
   every chunk a run of whole records whose references stay inside its committed bytes.
   */
  lemma AcceptedExactly(img: Image, pins: nat -> Pin, lease: nat, data: nat)
    requires PinsFit(img, pins)
    requires L.LeastMultiple(lease, 128 + 64 * img.numCols) && L.LeastMultiple(data, lease + 256 * img.numChunks)
    ensures Accepted(img, pins) <==>
              && HeaderReads(img, lease, data) && ColsRead(img)
              && forall i :: 0 <= i < img.numChunks ==> ChunkReads(img, i, pins(i), TypesOf(img))
  {
    hide HeaderOk, HeaderReads, ChunkPasses, ChunkReads;
    HeaderExactly(img, lease, data);
    if HeaderOk(img) && ColsOk(img) {
      forall i | 0 <= i < img.numChunks
        ensures ChunkPasses(img, i, pins(i)) <==> ChunkReads(img, i, pins(i), TypesOf(img))
      {
        ChunkExactly(img, i, pins(i));
      }
    }
  }

  /** A record of a pinned chunk with a bad prefix makes the validator reject the buffer. */
  lemma BadRecordRejected(img: Image, pins: nat -> Pin, i: nat, starts: seq<nat>, k: nat, c: nat)
    requires PinsFit(img, pins) && HeaderOk(img) && ColsOk(img) && i < img.numChunks && pins(i).Snapshot?
    requires var base := img.dataOffset + i * img.chunkSize + 40;
             && Chain(img.bytes, starts, base + pins(i).used) && starts[0] == base && k < |starts| - 1
    requires starts[k] + 4 <= starts[k + 1] <= |img.bytes| && c < |TypesOf(img)|
    requires BadPrefix(img.bytes[starts[k] + 4..starts[k + 1]], TypesOf(img), img.flags == 1, pins(i).used, c)
    ensures !Accepted(img, pins)
  {
    hide HeaderOk, ColsOk, BadPrefix;
    ChunkFits(img, i);
    var base, used := img.dataOffset + i * img.chunkSize + 40, pins(i).used;
    if RowsPass(img.bytes, base, base + used, TypesOf(img), img.flags == 1, used) {
      RecordPasses(img.bytes, starts, base + used, TypesOf(img), img.flags == 1, used, k);
      ColsPassExactly(img.bytes[starts[k] + 4..starts[k + 1]], TypesOf(img), img.flags == 1, used);
    }
  }

  lemma {:induction false} RecordPasses(buf: seq<Byte>, starts: seq<nat>, end: nat, types: seq<DType>, dedup: bool,
                                        used: nat, k: nat)
    requires Chain(buf, starts, end) && k < |starts| - 1 && RowsPass(buf, starts[0], end, types, dedup, used)
    ensures starts[k] + 4 <= starts[k + 1] <= |buf|
    ensures ColsPass(buf[starts[k] + 4..starts[k + 1]], 0, types, dedup, used)
    decreases k
  {
    hide Read32, ColsPass, RowsPass;
    assert Behind(buf, starts[0], starts[1], end);
    RowsStep(buf, starts[0], starts[1], end, types, dedup, used);
    if k > 0 {
      RestChain(buf, starts, end);
      RecordPasses(buf, starts[1..], end, types, dedup, used, k - 1);
    }
  }
}
