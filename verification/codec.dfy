/** The two helpers of pypulsepal/utils.py: the volts-to-DAC-code map and the
    fixed-width unsigned message encoder.

    numpy packs arrays in the host's native byte order; the model fixes that
    order to little-endian. */
module Codec {

  /** One byte on the serial link. */
  type byte = x: int | 0 <= x < 256

  /** The numpy dtypes the package encodes with. */
  datatype Dtype = UInt8 | UInt16 | UInt32

  /** Bytes per element of a dtype. */
  function Width(d: Dtype): (w: nat)
    ensures 1 <= w <= 4
  {
    match d
    case UInt8 => 1
    case UInt16 => 2
    case UInt32 => 4
  }

  /** 256 to the power `w`: the number of values `w` bytes can hold. */
  function Pow256(w: nat): (p: nat)
    ensures 1 <= p
  {
    if w == 0 then 1 else 256 * Pow256(w - 1)
  }

  /** np.ceil over the reals. */
  function Ceil(x: real): (r: int)
    ensures x <= r as real < x + 1.0
  {
    -((-x).Floor)
  }

  // ---------------------------------------------------------------------
  // volts_to_bytes

  /** The point of [0, dacBitMax] that `volt` maps to on the line through
      (-10 V, 0) and (+10 V, dacBitMax). */
  function VoltLevel(volt: real, dacBitMax: int): real
  {
    ((volt + 10.0) / 20.0) * (dacBitMax as real)
  }

  /** volts_to_bytes: the least integer code at or above the voltage's level. */
  function VoltsToBytes(volt: real, dacBitMax: int): (code: int)
    ensures VoltLevel(volt, dacBitMax) <= code as real
    ensures forall k: int {:trigger k as real} ::
              VoltLevel(volt, dacBitMax) <= k as real ==> code <= k
  {
    Ceil(VoltLevel(volt, dacBitMax))
  }

  lemma VoltsToBytesSamples()
    ensures VoltsToBytes(0.0, 255) == 128
    ensures VoltsToBytes(-10.0, 255) == 0
    ensures VoltsToBytes(10.0, 65535) == 65535
    ensures VoltsToBytes(5.0, 255) == 192
  {
    assert VoltLevel(0.0, 255) == 127.5;
    assert VoltLevel(5.0, 255) == 191.25;
  }

  /** Inside the documented input range the code lands in [0, dacBitMax]. */
  lemma VoltsToBytesInRange(volt: real, dacBitMax: int)
    requires -10.0 <= volt <= 10.0 && 0 <= dacBitMax
    ensures 0 <= VoltsToBytes(volt, dacBitMax) <= dacBitMax
  {
    var t := (volt + 10.0) / 20.0;
    var m := dacBitMax as real;
    assert 0.0 <= t <= 1.0;
    assert 0.0 <= t * m <= m by {
      assert t * m <= 1.0 * m by { assert (1.0 - t) * m >= 0.0; }
    }
  }

  /** A higher voltage never gets a lower code. */
  lemma VoltsToBytesMonotone(v1: real, v2: real, dacBitMax: int)
    requires v1 <= v2 && 0 <= dacBitMax
    ensures VoltsToBytes(v1, dacBitMax) <= VoltsToBytes(v2, dacBitMax)
  {
    var m := dacBitMax as real;
    assert VoltLevel(v1, dacBitMax) <= VoltLevel(v2, dacBitMax) by {
      assert ((v2 + 10.0) / 20.0 - (v1 + 10.0) / 20.0) * m >= 0.0;
    }
  }

  // ---------------------------------------------------------------------
  // Fixed-width little-endian unsigned integers

  /** The `w` little-endian bytes of `n`. */
  function EncodeUnsigned(n: nat, w: nat): (bs: seq<byte>)
    requires n < Pow256(w)
    ensures |bs| == w
  {
    if w == 0 then [] else [n % 256] + EncodeUnsigned(n / 256, w - 1)
  }

  /** The unsigned number whose little-endian bytes are `bs`. */
  function DecodeUnsigned(bs: seq<byte>): (n: nat)
    ensures n < Pow256(|bs|)
  {
    if bs == [] then 0 else bs[0] + 256 * DecodeUnsigned(bs[1..])
  }

  lemma {:induction false} DecodeEncode(n: nat, w: nat)
    requires n < Pow256(w)
    ensures DecodeUnsigned(EncodeUnsigned(n, w)) == n
  {
    if w > 0 {
      var bs := EncodeUnsigned(n, w);
      assert bs[1..] == EncodeUnsigned(n / 256, w - 1);
      DecodeEncode(n / 256, w - 1);
    }
  }

  lemma {:induction false} EncodeDecode(bs: seq<byte>)
    ensures EncodeUnsigned(DecodeUnsigned(bs), |bs|) == bs
  {
    if bs != [] {
      var n := DecodeUnsigned(bs);
      assert n % 256 == bs[0] && n / 256 == DecodeUnsigned(bs[1..]);
      EncodeDecode(bs[1..]);
    }
  }

  // ---------------------------------------------------------------------
  // encode_message

  /** Conversion of a number to an integer, truncating toward zero. */
  function Trunc(x: real): int
  {
    if x >= 0.0 then x.Floor else -((-x).Floor)
  }

  /** The integer a `w`-byte unsigned array element holds after numpy
      stores `v` in it: truncated toward zero, then reduced modulo 256^w.
      Inside the range it is just the integer part of `v`. */
  function Cast(v: real, w: nat): (n: nat)
    ensures n < Pow256(w)
    ensures 0.0 <= v < Pow256(w) as real ==> n == v.Floor
  {
    ModOfSmall(Trunc(v), Pow256(w));
    Trunc(v) % Pow256(w)
  }

  lemma ModOfSmall(x: int, m: int)
    requires 0 < m
    ensures 0 <= x < m ==> x % m == x
  {
  }

  /** One element of an array of dtype `d`, as np.ndarray.tobytes gives it. */
  function EncodeElement(v: real, d: Dtype): (bs: seq<byte>)
    ensures |bs| == Width(d)
  {
    EncodeUnsigned(Cast(v, Width(d)), Width(d))
  }

  lemma DecodeElement(v: real, d: Dtype)
    requires 0.0 <= v < Pow256(Width(d)) as real
    ensures DecodeUnsigned(EncodeElement(v, d)) == v.Floor
  {
    DecodeEncode(Cast(v, Width(d)), Width(d));
  }

  /** One argument of encode_message: a scalar or a list of scalars. */
  datatype Part = Scalar(value: real) | Array(values: seq<real>)

  function PartElements(p: Part): seq<real>
  {
    match p
    case Scalar(v) => [v]
    case Array(vs) => vs
  }

  /** The scalars of all parts, in order. */
  function Elements(parts: seq<Part>): (vs: seq<real>)
  {
    if parts == [] then [] else PartElements(parts[0]) + Elements(parts[1..])
  }

  /** The elements of one array, encoded one after the other. */
  function EncodeAll(vs: seq<real>, d: Dtype): (bs: seq<byte>)
    ensures |bs| == |vs| * Width(d)
  {
    if vs == [] then [] else EncodeElement(vs[0], d) + EncodeAll(vs[1..], d)
  }

  /** encode_message: each part converted to an array of dtype `d` and
      turned into bytes; the byte strings joined in order. */
  function EncodeMessage(parts: seq<Part>, d: Dtype): (bs: seq<byte>)
  {
    if parts == [] then [] else EncodeAll(PartElements(parts[0]), d) + EncodeMessage(parts[1..], d)
  }

  /** A message of one part is that part's elements, encoded. */
  lemma EncodeSinglePart(p: Part, d: Dtype)
    ensures EncodeMessage([p], d) == EncodeAll(PartElements(p), d)
  {
    assert EncodeMessage([p], d) == EncodeAll(PartElements(p), d) + EncodeMessage([], d);
  }

  lemma {:induction false} EncodeAllAppend(a: seq<real>, b: seq<real>, d: Dtype)
    ensures EncodeAll(a + b, d) == EncodeAll(a, d) + EncodeAll(b, d)
  {
    if a == [] {
      assert a + b == b;
    } else {
      assert (a + b)[0] == a[0] && (a + b)[1..] == a[1..] + b;
      EncodeAllAppend(a[1..], b, d);
    }
  }

  /** encode_message is the encoding of the flattened element list: the
      parts' elements in order, each at the dtype's width. */
  lemma {:induction false} EncodeMessageFlattens(parts: seq<Part>, d: Dtype)
    ensures EncodeMessage(parts, d) == EncodeAll(Elements(parts), d)
    ensures |EncodeMessage(parts, d)| == |Elements(parts)| * Width(d)
  {
    if parts != [] {
      EncodeMessageFlattens(parts[1..], d);
      EncodeAllAppend(PartElements(parts[0]), Elements(parts[1..]), d);
    }
  }

  /** The `i`-th element occupies bytes [i*w, i*w + w) of the encoding. */
  lemma EncodeAllAt(vs: seq<real>, d: Dtype, i: nat)
    requires i < |vs|
    ensures 0 <= i * Width(d) && i * Width(d) + Width(d) <= |EncodeAll(vs, d)|
    ensures EncodeAll(vs, d)[i * Width(d)..i * Width(d) + Width(d)] == EncodeElement(vs[i], d)
  {
    var e := EncodeElement(vs[i], d);
    SplitAround(vs, i);
    EncodeAllAppend(vs[..i], [vs[i]] + vs[i + 1..], d);
    EncodeAllAppend([vs[i]], vs[i + 1..], d);
    assert EncodeAll([vs[i]], d) == e + EncodeAll([], d);
    MiddleSlice(EncodeAll(vs[..i], d), e, EncodeAll(vs[i + 1..], d));
  }

  lemma SplitAround<T>(s: seq<T>, i: nat)
    requires i < |s|
    ensures s == s[..i] + ([s[i]] + s[i + 1..])
  {
  }

  lemma MiddleSlice<T>(a: seq<T>, b: seq<T>, c: seq<T>)
    ensures (a + (b + c))[|a|..|a| + |b|] == b
  {
  }

  lemma MulSucc(i: int, w: int)
    ensures (i + 1) * w == i * w + w
  {
  }

  /** Every in-range element decodes back from its slot of the message. */
  lemma EncodeMessageRoundTrip(parts: seq<Part>, d: Dtype, i: nat)
    requires i < |Elements(parts)|
    requires 0.0 <= Elements(parts)[i] < Pow256(Width(d)) as real
    ensures i * Width(d) + Width(d) <= |EncodeMessage(parts, d)|
    ensures DecodeUnsigned(EncodeMessage(parts, d)[i * Width(d)..i * Width(d) + Width(d)])
            == Elements(parts)[i].Floor
  {
    EncodeMessageFlattens(parts, d);
    EncodeAllAt(Elements(parts), d, i);
    DecodeElement(Elements(parts)[i], d);
  }
}
