/** Column types, cell values and their byte encoding. */
module Schema {
  import opened Bytes

  type U8 = x: int | 0 <= x < 256
  type U32 = x: int | 0 <= x < TWO_32
  type I32 = x: int | -TWO_31 <= x < TWO_31
  type U64 = x: int | 0 <= x < TWO_64
  type I64 = x: int | -TWO_63 <= x < TWO_63

  datatype Option<+T> = None | Some(value: T)

  datatype DType = DU8 | DI32 | DI64 | DF32 | DF64 | DU64 | DU32 | DStr | DBytes

  /** Cells as the writer receives them; floats are kept as their bit patterns. */
  datatype Value =
    | U8V(u8: U8)
    | U32V(u32: U32)
    | I32V(i32: I32)
    | I64V(i64: I64)
    | F32V(f32: U32)
    | F64V(f64: U64)
    | U64V(u64: U64)
    | StrV(text: seq<Byte>)
    | BytesV(blob: seq<Byte>)

  type Row = seq<Value>

  function TypeOf(v: Value): DType
  {
    match v
    case U8V(_) => DU8
    case U32V(_) => DU32
    case I32V(_) => DI32
    case I64V(_) => DI64
    case F32V(_) => DF32
    case F64V(_) => DF64
    case U64V(_) => DU64
    case StrV(_) => DStr
    case BytesV(_) => DBytes
  }

  /** Byte size of a fixed-size type, or 0 for the two variable-length types. */
  function FixedSize(dt: DType): nat
  {
    match dt
    case DU8 => 1
    case DI32 => 4
    case DF32 => 4
    case DU32 => 4
    case DI64 => 8
    case DF64 => 8
    case DU64 => 8
    case DStr => 0
    case DBytes => 0
  }

  predicate IsVar(dt: DType)
  {
    dt.DStr? || dt.DBytes?
  }

  function Code(dt: DType): nat
  {
    match dt
    case DU8 => 1
    case DI32 => 2
    case DI64 => 3
    case DF32 => 4
    case DF64 => 5
    case DU64 => 6
    case DU32 => 7
    case DStr => 8
    case DBytes => 9
  }

  function FromCode(code: nat): (r: Option<DType>)
    ensures r.Some? <==> 1 <= code <= 9
    ensures r.Some? ==> Code(r.value) == code
  {
    match code
    case 1 => Some(DU8)
    case 2 => Some(DI32)
    case 3 => Some(DI64)
    case 4 => Some(DF32)
    case 5 => Some(DF64)
    case 6 => Some(DU64)
    case 7 => Some(DU32)
    case 8 => Some(DStr)
    case 9 => Some(DBytes)
    case _ => None
  }

  predicate Matches(row: Row, types: seq<DType>)
  {
    |row| == |types| && forall k :: 0 <= k < |row| ==> TypeOf(row[k]) == types[k]
  }

  // ----- signed integers

  function Unsigned(v: int, modulus: int): nat
    requires modulus > 0 && -modulus <= v < modulus
  {
    if v < 0 then v + modulus else v
  }

  function Signed32(u: U32): I32
  {
    if u < TWO_31 then u else u - TWO_32
  }

  function Signed64(u: U64): I64
  {
    if u < TWO_63 then u else u - TWO_64
  }

  // ----- encoding

  function Payload(v: Value): seq<Byte>
    requires IsVar(TypeOf(v))
  {
    if v.StrV? then v.text else v.blob
  }

  function EncodedSize(v: Value): nat
  {
    if IsVar(TypeOf(v)) then 4 + |Payload(v)| else FixedSize(TypeOf(v))
  }

  /** Length-prefixed bytes; the prefix keeps the low 32 bits of the length. */
  function LengthPrefixed(data: seq<Byte>): (s: seq<Byte>)
    ensures |s| == 4 + |data|
  {
    Le4(|data| % TWO_32) + data
  }

  function Encode(v: Value): (s: seq<Byte>)
    ensures |s| == EncodedSize(v)
  {
    match v
    case U8V(x) => [x]
    case U32V(x) => Le4(x)
    case I32V(x) => Le4(Unsigned(x, TWO_32))
    case I64V(x) => Le8(Unsigned(x, TWO_64))
    case F32V(x) => Le4(x)
    case F64V(x) => Le8(x)
    case U64V(x) => Le8(x)
    case StrV(s) => LengthPrefixed(s)
    case BytesV(b) => LengthPrefixed(b)
  }

  /** The value of a fixed-size cell, from its bytes. */
  function DecodeFixed(dt: DType, s: seq<Byte>): (v: Value)
    requires !IsVar(dt) && |s| == FixedSize(dt)
    ensures TypeOf(v) == dt
  {
    match dt
    case DU8 => U8V(s[0])
    case DU32 => U32V(Read32(s))
    case DI32 => I32V(Signed32(Read32(s)))
    case DI64 => I64V(Signed64(Read64(s)))
    case DF32 => F32V(Read32(s))
    case DF64 => F64V(Read64(s))
    case DU64 => U64V(Read64(s))
  }

  lemma FixedRoundTrip(v: Value)
    requires !IsVar(TypeOf(v))
    ensures DecodeFixed(TypeOf(v), Encode(v)) == v
  {
    match v
    case U8V(_) =>
    case U32V(x) => Read32Back(x);
    case I32V(x) => Read32Back(Unsigned(x, TWO_32));
    case I64V(x) => Read64Back(Unsigned(x, TWO_64));
    case F32V(x) => Read32Back(x);
    case F64V(x) => Read64Back(x);
    case U64V(x) => Read64Back(x);
  }

  /** Bytes of the right number are the encoding of what they decode to, so no two decode alike. */
  lemma FixedBytesBack(dt: DType, s: seq<Byte>)
    requires !IsVar(dt) && |s| == FixedSize(dt)
    ensures Encode(DecodeFixed(dt, s)) == s
  {
    hide Read32, Le4, Read64, Le8;
    if |s| == 4 {
      Le4Back(s);
    } else if |s| == 8 {
      Le8Back(s);
    }
  }

  /** Negative numbers are stored as their two's complement. */
  lemma TwosComplement(x: I32, y: I64)
    ensures Encode(I32V(x)) == Le4(if x < 0 then x + 0x1_0000_0000 else x)
    ensures Encode(I64V(y)) == Le8(if y < 0 then y + 0x1_0000_0000_0000_0000 else y)
  {
  }

  // ----- writing into a buffer

  method CopyInto(out: array<Byte>, at: nat, b: seq<Byte>)
    requires at + |b| <= out.Length
    modifies out
    ensures out[..] == Splice(old(out[..]), at, b)
  {
    ghost var was := out[..];
    var k := 0;
    while k < |b|
      invariant 0 <= k <= |b|
      invariant out[..] == Splice(was, at, b[..k])
    {
      out[at + k] := b[k];
      k := k + 1;
      assert out[..] == Splice(was, at, b[..k]);
    }
    assert b[..k] == b;
  }

  /** `Value::encode`: write the cell at an offset and return the number of bytes. */
  method EncodeInto(v: Value, out: array<Byte>, at: nat) returns (n: nat)
    requires at + EncodedSize(v) <= out.Length
    modifies out
    ensures n == EncodedSize(v)
    ensures out[..] == Splice(old(out[..]), at, Encode(v))
  {
    match v {
      case U8V(x) =>
        out[at] := x;
        n := 1;
        assert out[..] == Splice(old(out[..]), at, [x]);
      case U32V(x) => CopyInto(out, at, Le4(x)); n := 4;
      case I32V(x) => CopyInto(out, at, Le4(Unsigned(x, TWO_32))); n := 4;
      case I64V(x) => CopyInto(out, at, Le8(Unsigned(x, TWO_64))); n := 8;
      case F32V(x) => CopyInto(out, at, Le4(x)); n := 4;
      case F64V(x) => CopyInto(out, at, Le8(x)); n := 8;
      case U64V(x) => CopyInto(out, at, Le8(x)); n := 8;
      case StrV(s) => n := EncodeVar(s, out, at);
      case BytesV(b) => n := EncodeVar(b, out, at);
    }
  }

  method EncodeVar(data: seq<Byte>, out: array<Byte>, at: nat) returns (n: nat)
    requires at + 4 + |data| <= out.Length
    modifies out
    ensures n == 4 + |data|
    ensures out[..] == Splice(old(out[..]), at, LengthPrefixed(data))
  {
    CopyInto(out, at, Le4(|data| % TWO_32));
    CopyInto(out, at + 4, data);
    SpliceTwice(old(out[..]), at, Le4(|data| % TWO_32), data);
    n := 4 + |data|;
  }

  /** Two adjacent writes are one. */
  lemma SpliceTwice(s: seq<Byte>, at: nat, a: seq<Byte>, b: seq<Byte>)
    requires at + |a| + |b| <= |s|
    ensures Splice(Splice(s, at, a), at + |a|, b) == Splice(s, at, a + b)
  {
  }
}
