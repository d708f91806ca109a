/**
 * The CBOR typed-array tag handler of the rosbridge client: the little-endian
 * typed-array tags of RFC 8746, section 2.1 (integer element types), and the
 * 64-bit integer tags 71 and 79 that are decoded word by word.
 *
 * Bytes are exact; element values are exact integers (the JavaScript numbers
 * of the original lose precision above 2^53, which is why it warns).
 */
module CborTypedArrayTags {
  import opened Wrappers
  import opened JsValues

  const UPPER32: nat := 0x1_0000_0000

  /** A `Uint8Array`: a window of `byteLength` bytes at `byteOffset` into `buffer`. */
  datatype ByteView = ByteView(buffer: seq<byte>, byteOffset: nat, byteLength: nat) {
    predicate Valid() {
      byteOffset + byteLength <= |buffer|
    }

    /** `bytes.buffer.slice(byteOffset, byteOffset + byteLength)`. */
    function Bytes(): (bs: seq<byte>)
      requires Valid()
      ensures |bs| == byteLength
      ensures forall i :: 0 <= i < byteLength ==> bs[i] == buffer[byteOffset + i]
    {
      buffer[byteOffset..byteOffset + byteLength]
    }
  }

  /** 256 to the power `n`: the value of `n` zero bytes followed by a one, little-endian. */
  function Pow256(n: nat): (p: nat)
    ensures p > 0
    ensures p == LE(seq(n, _ => 0 as byte) + [1])
  {
    if n == 0 then 1
    else
      assert (seq(n, _ => 0 as byte) + [1])[1..] == seq(n - 1, _ => 0 as byte) + [1];
      256 * Pow256(n - 1)
  }

  /** The unsigned little-endian value of `bs`. */
  function LE(bs: seq<byte>): nat {
    if bs == [] then 0 else bs[0] as nat + 256 * LE(bs[1..])
  }

  /** The two's-complement little-endian value of a non-empty `bs`. */
  function Signed(bs: seq<byte>): int
    requires |bs| > 0
  {
    LE(bs) - (if bs[|bs| - 1] >= 128 then Pow256(|bs|) else 0)
  }

  lemma {:induction false} LEBound(bs: seq<byte>)
    ensures LE(bs) < Pow256(|bs|)
  {
    if bs != [] {
      LEBound(bs[1..]);
    }
  }

  lemma {:induction false} LETopByte(bs: seq<byte>)
    requires |bs| > 0
    ensures bs[|bs| - 1] >= 128 <==> LE(bs) >= Pow256(|bs|) / 2
  {
    if |bs| == 1 {
      assert LE(bs) == bs[0] as nat;
    } else {
      LEBound(bs[1..]);
      assert bs[1..][|bs| - 2] == bs[|bs| - 1];
      LETopByte(bs[1..]);
      assert Pow256(|bs|) / 2 == 256 * (Pow256(|bs| - 1) / 2) by {
        assert Pow256(|bs| - 1) == 256 * Pow256(|bs| - 2);
      }
    }
  }

  /** A two's-complement value of `n` bytes lies in [-256^n/2, 256^n/2). */
  lemma SignedRange(bs: seq<byte>)
    requires |bs| > 0
    ensures -(Pow256(|bs|) / 2) <= Signed(bs) < Pow256(|bs|) / 2
  {
    LEBound(bs);
    LETopByte(bs);
  }

  lemma {:induction false} Pow256Add(m: nat, n: nat)
    ensures Pow256(m + n) == Pow256(m) * Pow256(n)
  {
    if m > 0 {
      Pow256Add(m - 1, n);
      assert Pow256(m + n) == 256 * Pow256(m - 1 + n);
      assert Pow256(m) == 256 * Pow256(m - 1);
    }
  }

  /** A little-endian value splits into its low bytes plus its high bytes scaled. */
  lemma {:induction false} LEAppend(a: seq<byte>, b: seq<byte>)
    ensures LE(a + b) == LE(a) + Pow256(|a|) * LE(b)
  {
    if a != [] {
      assert (a + b)[1..] == a[1..] + b;
      LEAppend(a[1..], b);
      assert (a + b)[0] == a[0];
      ScaleStep(a[0] as int, LE(a[1..]), Pow256(|a| - 1), LE(b), LE(a + b), LE(a), Pow256(|a|));
    } else {
      assert a + b == b;
    }
  }

  lemma {:induction false} SignedAppend(a: seq<byte>, b: seq<byte>)
    requires |b| > 0
    ensures Signed(a + b) == LE(a) + Pow256(|a|) * Signed(b)
  {
    LEAppend(a, b);
    Pow256Add(|a|, |b|);
    assert (a + b)[|a + b| - 1] == b[|b| - 1];
    SignStep(LE(a + b), LE(a), Pow256(|a|), LE(b), Pow256(|a + b|), Pow256(|b|), b[|b| - 1] >= 128,
             Signed(a + b), Signed(b));
  }

  lemma SignStep(lab: int, la: int, pa: int, lb: int, pab: int, pb: int, top: bool, sab: int, sb: int)
    requires lab == la + pa * lb && pab == pa * pb
    requires sab == lab - (if top then pab else 0) && sb == lb - (if top then pb else 0)
    ensures sab == la + pa * sb
  {
    if top {
      assert pa * sb == pa * lb - pa * pb;
    }
  }

  lemma ScaleStep(a0: int, x: int, y: int, z: int, lab: int, la: int, pa: int)
    requires lab == a0 + 256 * (x + y * z)
    requires la == a0 + 256 * x
    requires pa == 256 * y
    ensures lab == la + pa * z
  {
  }

  /** Encodes `x` as `n` little-endian bytes. */
  function EncodeLE(x: nat, n: nat): (bs: seq<byte>)
    ensures |bs| == n
  {
    if n == 0 then [] else [(x % 256) as byte] + EncodeLE(x / 256, n - 1)
  }

  lemma {:induction false} DecodeEncodeLE(x: nat, n: nat)
    requires x < Pow256(n)
    ensures LE(EncodeLE(x, n)) == x
  {
    if n > 0 {
      DecodeEncodeLE(x / 256, n - 1);
      assert EncodeLE(x, n)[1..] == EncodeLE(x / 256, n - 1);
    }
  }

  lemma {:induction false} EncodeDecodeLE(bs: seq<byte>)
    ensures EncodeLE(LE(bs), |bs|) == bs
  {
    if bs != [] {
      EncodeDecodeLE(bs[1..]);
      assert LE(bs) % 256 == bs[0] as nat && LE(bs) / 256 == LE(bs[1..]);
    }
  }

  /** The element types of `nativeArrayTypes`. */
  datatype ArrayType =
    | Uint8Array | Uint16Array | Uint32Array | Int8Array | Int16Array | Int32Array
    | Float32Array | Float64Array
  {
    function BytesPerElement(): nat {
      match this
      case Uint8Array => 1
      case Uint16Array => 2
      case Uint32Array => 4
      case Int8Array => 1
      case Int16Array => 2
      case Int32Array => 4
      case Float32Array => 4
      case Float64Array => 8
    }

    predicate IsSigned() {
      Int8Array? || Int16Array? || Int32Array?
    }

    predicate IsFloat() {
      Float32Array? || Float64Array?
    }
  }

  /** The table of tags decoded as native typed arrays. */
  function NativeArrayType(tag: int): Option<ArrayType> {
    if tag == 64 then Some(Uint8Array)
    else if tag == 69 then Some(Uint16Array)
    else if tag == 70 then Some(Uint32Array)
    else if tag == 72 then Some(Int8Array)
    else if tag == 77 then Some(Int16Array)
    else if tag == 78 then Some(Int32Array)
    else if tag == 85 then Some(Float32Array)
    else if tag == 86 then Some(Float64Array)
    else None
  }

  /** The value the tag handler returns. */
  datatype Decoded =
    | Integers(arrayType: ArrayType, values: seq<int>)
    | FloatBits(arrayType: ArrayType, bytes: seq<byte>)
    | Int64s(signed: bool, values: seq<int>)
    | Unchanged(data: ByteView)

  /** The `i`-th element of an integer typed array over `bs`. */
  function Element(bs: seq<byte>, t: ArrayType, i: nat): int
    requires !t.IsFloat()
    requires (i + 1) * t.BytesPerElement() <= |bs|
  {
    var w := t.BytesPerElement();
    var word := bs[i * w..(i + 1) * w];
    if t.IsSigned() then Signed(word) else LE(word)
  }

  /**
   * `new ArrayType(buffer)`: a RangeError unless the byte length is a multiple
   * of the element size; the integer elements, or for a float type the bytes
   * whose IEEE 754 reading is not modelled.
   */
  function NativeArray(bs: seq<byte>, t: ArrayType): (r: Result<Decoded>)
    ensures r.Ok? <==> |bs| % t.BytesPerElement() == 0
    ensures r.Ok? && !t.IsFloat() ==>
              && r.value.Integers? && r.value.arrayType == t
              && |r.value.values| * t.BytesPerElement() == |bs|
              && forall i :: 0 <= i < |r.value.values| ==> r.value.values[i] == Element(bs, t, i)
  {
    var w := t.BytesPerElement();
    if |bs| % w != 0 then Err("RangeError: byte length should be a multiple of " + if w == 2 then "2" else if w == 4 then "4" else "8")
    else if t.IsFloat() then Ok(FloatBits(t, bs))
    else Ok(Integers(t, seq(|bs| / w, i requires 0 <= i < |bs| / w => Element(bs, t, i))))
  }

  /** An element of the signed or unsigned 64-bit arrays: low word plus 2^32 times the high word. */
  function Int64Element(bs: seq<byte>, signed: bool, i: nat): int
    requires 8 * i + 8 <= |bs|
  {
    var lo := LE(bs[8 * i..8 * i + 4]);
    var hi := if signed then Signed(bs[8 * i + 4..8 * i + 8]) else LE(bs[8 * i + 4..8 * i + 8]);
    lo + UPPER32 * hi
  }

  /** The word decomposition agrees with the 8-byte little-endian value (two's complement when signed). */
  lemma Int64ElementValue(bs: seq<byte>, signed: bool, i: nat)
    requires 8 * i + 8 <= |bs|
    ensures !signed ==> Int64Element(bs, signed, i) == LE(bs[8 * i..8 * i + 8])
    ensures signed ==> Int64Element(bs, signed, i) == Signed(bs[8 * i..8 * i + 8])
  {
    var lo, hi := bs[8 * i..8 * i + 4], bs[8 * i + 4..8 * i + 8];
    assert lo + hi == bs[8 * i..8 * i + 8];
    assert Pow256(4) == UPPER32;
    if signed {
      SignedAppend(lo, hi);
    } else {
      LEAppend(lo, hi);
    }
  }

  /**
   * The loop of decodeUint64LE / decodeInt64LE over a buffer whose length is a
   * multiple of 8: one element per 8 bytes, the unsigned or two's-complement
   * 64-bit little-endian value of those bytes.
   */
  method Int64Words(bs: seq<byte>, signed: bool) returns (arr: seq<int>)
    requires |bs| % 8 == 0
    ensures |arr| == |bs| / 8
    ensures forall i :: 0 <= i < |arr| && !signed ==> arr[i] == LE(bs[8 * i..8 * i + 8])
    ensures forall i :: 0 <= i < |arr| && signed ==> arr[i] == Signed(bs[8 * i..8 * i + 8])
  {
    var arrLen := |bs| / 8;
    arr := [];
    var i := 0;
    while i < arrLen
      invariant 0 <= i <= arrLen
      invariant |arr| == i
      invariant forall j :: 0 <= j < i && !signed ==> arr[j] == LE(bs[8 * j..8 * j + 8])
      invariant forall j :: 0 <= j < i && signed ==> arr[j] == Signed(bs[8 * j..8 * j + 8])
    {
      var lo := LE(bs[8 * i..8 * i + 4]);
      var hi := if signed then Signed(bs[8 * i + 4..8 * i + 8]) else LE(bs[8 * i + 4..8 * i + 8]);
      Int64ElementValue(bs, signed, i);
      arr := arr + [lo + UPPER32 * hi];
      i := i + 1;
    }
  }

  /** The module-level `warnedPrecision` flag and the warnings printed so far. */
  class PrecisionWarning {
    var warned: bool
    var warnings: nat

    /** At most one warning, and one exactly when the flag is set. */
    predicate Valid()
      reads this
    {
      warnings == if warned then 1 else 0
    }

    constructor ()
      ensures Valid() && !warned
    {
      warned := false;
      warnings := 0;
    }

    /** warnPrecision: prints the warning the first time only. */
    method Warn()
      modifies this
      ensures warned
      ensures warnings == if old(warned) then old(warnings) else old(warnings) + 1
      ensures old(Valid()) ==> Valid() && warnings <= 1
    {
      if !warned {
        warned := true;
        warnings := warnings + 1;
      }
    }
  }

  /**
   * decodeUint64LE (signed = false) and decodeInt64LE (signed = true): warns,
   * then fails unless the byte length is a multiple of 8 (the 32-bit views
   * refuse lengths not divisible by 4, `new Array` refuses a fractional length).
   */
  method DecodeInt64LE(data: ByteView, signed: bool, w: PrecisionWarning) returns (r: Result<Decoded>)
    requires data.Valid()
    modifies w
    ensures w.warned && (old(w.Valid()) ==> w.Valid())
    ensures r == Int64Array(data.Bytes(), signed)
  {
    w.Warn();
    var bs := data.Bytes();
    if |bs| % 8 != 0 {
      r := Err("RangeError: invalid array length");
    } else {
      var arr := Int64Words(bs, signed);
      Int64ArrayValues(bs, signed);
      assert arr == Int64Array(bs, signed).value.values;
      r := Ok(Int64s(signed, arr));
    }
  }

  /** The result of the 64-bit decoders, element by element. */
  function Int64Array(bs: seq<byte>, signed: bool): Result<Decoded> {
    if |bs| % 8 != 0 then Err("RangeError: invalid array length")
    else Ok(Int64s(signed, seq(|bs| / 8, i requires 0 <= i < |bs| / 8 => Int64Element(bs, signed, i))))
  }

  lemma Int64ArrayValues(bs: seq<byte>, signed: bool)
    requires |bs| % 8 == 0
    ensures Int64Array(bs, signed).Ok?
    ensures var vs := Int64Array(bs, signed).value.values;
            && |vs| == |bs| / 8
            && (forall i :: 0 <= i < |vs| && !signed ==> vs[i] == LE(bs[8 * i..8 * i + 8]))
            && (forall i :: 0 <= i < |vs| && signed ==> vs[i] == Signed(bs[8 * i..8 * i + 8]))
  {
    forall i | 0 <= i < |bs| / 8 {
      Int64ElementValue(bs, signed, i);
    }
  }

  /** What cborTypedArrayTagger returns for `tag`, apart from the warning. */
  function TypedArrayTag(data: ByteView, tag: int): (r: Result<Decoded>)
    requires data.Valid()
    ensures NativeArrayType(tag).Some? ==> r == NativeArray(data.Bytes(), NativeArrayType(tag).value)
    ensures tag == 71 ==> r == Int64Array(data.Bytes(), false)
    ensures tag == 79 ==> r == Int64Array(data.Bytes(), true)
    ensures NativeArrayType(tag).None? && tag != 71 && tag != 79 ==> r == Ok(Unchanged(data))
  {
    match NativeArrayType(tag)
    case Some(t) => NativeArray(data.Bytes(), t)
    case None =>
      if tag == 71 then Int64Array(data.Bytes(), false)
      else if tag == 79 then Int64Array(data.Bytes(), true)
      else Ok(Unchanged(data))
  }

  /**
   * Tags 71 and 79 decode the 64-bit little-endian arrays, unsigned and
   * signed: a multiple of 8 bytes gives one value per 8 bytes, anything else
   * fails.
   */
  lemma TypedArrayTagInt64(data: ByteView, tag: int)
    requires data.Valid() && (tag == 71 || tag == 79)
    ensures var r := TypedArrayTag(data, tag);
            var bs := data.Bytes();
            && (r.Ok? <==> |bs| % 8 == 0)
            && (r.Ok? ==>
                  && r.value.Int64s? && r.value.signed == (tag == 79) && |r.value.values| == |bs| / 8
                  && (forall i :: 0 <= i < |bs| / 8 && tag == 71 ==> r.value.values[i] == LE(bs[8 * i..8 * i + 8]))
                  && (forall i :: 0 <= i < |bs| / 8 && tag == 79 ==> r.value.values[i] == Signed(bs[8 * i..8 * i + 8])))
  {
    if |data.Bytes()| % 8 == 0 {
      Int64ArrayValues(data.Bytes(), tag == 79);
    }
  }

  /** cborTypedArrayTagger: the 64-bit tags go through the warning decoders. */
  method CborTypedArrayTagger(data: ByteView, tag: int, w: PrecisionWarning) returns (r: Result<Decoded>)
    requires data.Valid()
    modifies w
    ensures r == TypedArrayTag(data, tag)
    ensures w.warned == (old(w.warned) || (NativeArrayType(tag).None? && (tag == 71 || tag == 79)))
    ensures NativeArrayType(tag).Some? || (tag != 71 && tag != 79) ==> unchanged(w)
    ensures old(w.Valid()) ==> w.Valid()
  {
    var t := NativeArrayType(tag);
    if t.Some? {
      r := NativeArray(data.Bytes(), t.value);
    } else if tag == 71 {
      r := DecodeInt64LE(data, false, w);
    } else if tag == 79 {
      r := DecodeInt64LE(data, true, w);
    } else {
      r := Ok(Unchanged(data));
    }
  }

  /** Each tag reinterprets the element bytes with the width and signedness of its table entry. */
  lemma NativeTagTypes()
    ensures NativeArrayType(64) == Some(Uint8Array) && NativeArrayType(69) == Some(Uint16Array)
    ensures NativeArrayType(70) == Some(Uint32Array) && NativeArrayType(72) == Some(Int8Array)
    ensures NativeArrayType(77) == Some(Int16Array) && NativeArrayType(78) == Some(Int32Array)
    ensures forall tag :: NativeArrayType(tag).Some? ==> tag in {64, 69, 70, 72, 77, 78, 85, 86}
  {
  }

  /** The decoded value depends only on the viewed bytes, not on the rest of the buffer. */
  lemma TagIsLocal(d1: ByteView, d2: ByteView, tag: int)
    requires d1.Valid() && d2.Valid()
    requires d1.Bytes() == d2.Bytes()
    requires NativeArrayType(tag).Some? || tag == 71 || tag == 79
    ensures TypedArrayTag(d1, tag) == TypedArrayTag(d2, tag)
  {
  }

  /** Every element of a tag-71 array is an unsigned 64-bit value; of a tag-79 array a signed one. */
  lemma Int64ArrayRange(bs: seq<byte>, signed: bool)
    requires |bs| % 8 == 0
    ensures var vs := Int64Array(bs, signed).value.values;
            forall i :: 0 <= i < |vs| ==>
              if signed then -0x8000_0000_0000_0000 <= vs[i] < 0x8000_0000_0000_0000
              else 0 <= vs[i] < 0x1_0000_0000_0000_0000
  {
    Int64ArrayValues(bs, signed);
    assert Pow256(8) == 0x1_0000_0000_0000_0000;
    var vs := Int64Array(bs, signed).value.values;
    forall i | 0 <= i < |vs|
      ensures if signed then -0x8000_0000_0000_0000 <= vs[i] < 0x8000_0000_0000_0000
              else 0 <= vs[i] < 0x1_0000_0000_0000_0000
    {
      if signed {
        SignedRange(bs[8 * i..8 * i + 8]);
      } else {
        LEBound(bs[8 * i..8 * i + 8]);
      }
    }
  }

  /** The little-endian bytes of unsigned 64-bit values, 8 bytes per value. */
  function EncodeUint64LE(xs: seq<nat>): (bs: seq<byte>)
    ensures |bs| == 8 * |xs|
  {
    if xs == [] then [] else EncodeLE(xs[0], 8) + EncodeUint64LE(xs[1..])
  }

  /** Tag 71 decodes the little-endian encoding of any unsigned 64-bit values back to them. */
  lemma {:induction false} Uint64RoundTrip(xs: seq<nat>)
    requires forall i :: 0 <= i < |xs| ==> xs[i] < 0x1_0000_0000_0000_0000
    ensures Int64Array(EncodeUint64LE(xs), false) == Ok(Int64s(false, xs))
  {
    var bs := EncodeUint64LE(xs);
    Int64ArrayValues(bs, false);
    var vs := Int64Array(bs, false).value.values;
    forall i | 0 <= i < |xs| ensures vs[i] == xs[i] {
      EncodeUint64At(xs, i);
      assert Pow256(8) == 0x1_0000_0000_0000_0000;
      DecodeEncodeLE(xs[i], 8);
    }
    assert vs == xs;
  }

  lemma {:induction false} EncodeUint64At(xs: seq<nat>, i: nat)
    requires i < |xs|
    ensures EncodeUint64LE(xs)[8 * i..8 * i + 8] == EncodeLE(xs[i], 8)
  {
    if i > 0 {
      EncodeUint64At(xs[1..], i - 1);
      assert EncodeUint64LE(xs)[8 * i..8 * i + 8] == EncodeUint64LE(xs[1..])[8 * (i - 1)..8 * (i - 1) + 8];
    }
  }

  /** Two byte strings of 8n bytes agreeing on every 8-byte chunk are equal. */
  lemma {:induction false} ChunksEqual(a: seq<byte>, b: seq<byte>, n: nat)
    requires |a| == |b| == 8 * n
    requires forall i :: 0 <= i < n ==> a[8 * i..8 * i + 8] == b[8 * i..8 * i + 8]
    ensures a == b
  {
    if n > 0 {
      forall i | 0 <= i < n - 1 ensures a[8..][8 * i..8 * i + 8] == b[8..][8 * i..8 * i + 8] {
        assert a[8..][8 * i..8 * i + 8] == a[8 * (i + 1)..8 * (i + 1) + 8];
        assert b[8..][8 * i..8 * i + 8] == b[8 * (i + 1)..8 * (i + 1) + 8];
      }
      ChunksEqual(a[8..], b[8..], n - 1);
      assert a[8 * 0..8 * 0 + 8] == b[8 * 0..8 * 0 + 8];
      assert a == a[..8] + a[8..] && b == b[..8] + b[8..];
    }
  }

  /** Re-encoding the values tag 71 decoded gives back the bytes. */
  lemma Uint64Reencode(bs: seq<byte>, xs: seq<nat>)
    requires Int64Array(bs, false) == Ok(Int64s(false, xs))
    ensures EncodeUint64LE(xs) == bs
  {
    Int64ArrayValues(bs, false);
    var enc := EncodeUint64LE(xs);
    forall i | 0 <= i < |xs| ensures enc[8 * i..8 * i + 8] == bs[8 * i..8 * i + 8] {
      EncodeUint64At(xs, i);
      EncodeDecodeLE(bs[8 * i..8 * i + 8]);
    }
    ChunksEqual(enc, bs, |xs|);
  }
}
