/**
 * Bytes, fixed-width little-endian integers and ASCII text, as the codec
 * uses them: numpy's `np.uintN(v).tobytes()`, `int.to_bytes(w, 'little')`,
 * `int.from_bytes(b, 'little')`, `str.encode("ASCII")` and
 * `bytes.decode("ASCII")`.
 */
module Bytes {
  import opened Wrappers

  type byte = b: int | 0 <= b < 256

  /** The 4-byte IEEE-754 single-precision encoding of a coordinate. */
  type F32 = s: seq<byte> | |s| == 4 witness [0, 0, 0, 0]

  /** A SHA-1 digest (FIPS 180-4): 20 bytes. */
  type Digest = s: seq<byte> | |s| == 20
    witness [0, 0, 0, 0, 0, 0, 0, 0, 0, 0, 0, 0, 0, 0, 0, 0, 0, 0, 0, 0]

  /** 256^w, one past the largest unsigned integer of w bytes. */
  function Pow256(w: nat): (r: nat)
    ensures r >= 1
    ensures w > 0 ==> r >= 256 && r % 256 == 0
  {
    if w == 0 then 1 else 256 * Pow256(w - 1)
  }

  lemma {:induction false} Pow256Monotone(a: nat, b: nat)
    requires a <= b
    ensures Pow256(a) <= Pow256(b)
  {
    if a < b { Pow256Monotone(a, b - 1); }
  }

  /** 2^64, one past the largest `np.uint64`. */
  const U64Limit: nat := 0x1_0000_0000_0000_0000

  lemma U64LimitIsPow()
    ensures Pow256(8) == U64Limit
  {
  }

  /** `np.uint64(n).tobytes()` for an n in range. */
  function U64(n: nat): (r: seq<byte>)
    requires n < U64Limit
    ensures |r| == 8
  {
    U64LimitIsPow();
    Le(n, 8)
  }

  /** The w-byte little-endian representation of n. */
  function Le(n: nat, w: nat): (r: seq<byte>)
    requires n < Pow256(w)
    ensures |r| == w
  {
    if w == 0 then [] else [n % 256] + Le(n / 256, w - 1)
  }

  /** `int.from_bytes(bs, 'little')`; the empty string gives 0. */
  function FromLe(bs: seq<byte>): (r: nat)
    ensures r < Pow256(|bs|)
  {
    if |bs| == 0 then 0
    else
      var rest := FromLe(bs[1..]);
      assert bs[0] + 256 * rest <= 255 + 256 * (Pow256(|bs| - 1) - 1);
      bs[0] + 256 * rest
  }

  lemma {:induction false} FromLeLe(n: nat, w: nat)
    requires n < Pow256(w)
    ensures FromLe(Le(n, w)) == n
  {
    if w > 0 {
      FromLeLe(n / 256, w - 1);
      assert Le(n, w)[1..] == Le(n / 256, w - 1);
    }
  }

  lemma DivModByte(b: byte, q: nat)
    ensures (b + 256 * q) % 256 == b && (b + 256 * q) / 256 == q
  {
  }

  lemma {:induction false} LeFromLe(bs: seq<byte>)
    ensures Le(FromLe(bs), |bs|) == bs
  {
    if |bs| > 0 {
      var n, rest := FromLe(bs), FromLe(bs[1..]);
      assert n == bs[0] + 256 * rest;
      DivModByte(bs[0], rest);
      LeFromLe(bs[1..]);
      assert Le(n, |bs|) == [bs[0]] + Le(rest, |bs| - 1);
      assert bs == [bs[0]] + bs[1..];
    }
  }

  /**
   * Conversion of a Python int to a w-byte unsigned field. numpy's
   * `np.uint16/32/64(v)` and `int.to_bytes(w, 'little')` raise
   * OverflowError outside [0, 256^w); that is `None` here.
   */
  function Unsigned(n: int, w: nat): (r: Option<seq<byte>>)
    ensures r.Some? <==> 0 <= n < Pow256(w)
    ensures r.Some? ==> |r.value| == w && FromLe(r.value) == n
  {
    if 0 <= n < Pow256(w) then
      FromLeLe(n, w);
      Some(Le(n, w))
    else None
  }

  predicate IsAscii(s: string) {
    forall i :: 0 <= i < |s| ==> s[i] as int < 128
  }

  /** `s.encode("ASCII")`; `None` stands for UnicodeEncodeError. */
  function AsciiEncode(s: string): (r: Option<seq<byte>>)
    ensures r.Some? <==> IsAscii(s)
    ensures r.Some? ==> |r.value| == |s| && forall i :: 0 <= i < |s| ==> r.value[i] == s[i] as int
  {
    if IsAscii(s) then Some(seq(|s|, i requires 0 <= i < |s| && IsAscii(s) => s[i] as int as byte))
    else None
  }

  /** `b.decode("ASCII")`; `None` stands for UnicodeDecodeError. */
  function AsciiDecode(b: seq<byte>): (r: Option<string>)
    ensures r.Some? ==> |r.value| == |b|
  {
    if b == [] then Some([])
    else if b[0] >= 128 then None
    else match AsciiDecode(b[1..])
      case None => None
      case Some(t) => Some([b[0] as char] + t)
  }

  /** Decoding succeeds exactly on bytes below 128, and maps each byte to the character with that code. */
  lemma {:induction false} AsciiDecodeSpec(b: seq<byte>)
    ensures AsciiDecode(b).Some? <==> forall i :: 0 <= i < |b| ==> b[i] < 128
    ensures AsciiDecode(b).Some? ==> forall i :: 0 <= i < |b| ==> AsciiDecode(b).value[i] as int == b[i]
  {
    if b != [] {
      AsciiDecodeSpec(b[1..]);
      assert forall i :: 1 <= i < |b| ==> b[i] == b[1..][i - 1];
    }
  }

  /** Encoding, then decoding, gives back the text. */
  lemma AsciiRoundTrip(s: string)
    requires IsAscii(s)
    ensures AsciiEncode(s).Some? && AsciiDecode(AsciiEncode(s).value) == Some(s)
  {
    var e := AsciiEncode(s).value;
    AsciiDecodeSpec(e);
    var d := AsciiDecode(e);
    assert d.Some?;
    forall i | 0 <= i < |s|
      ensures d.value[i] == s[i]
    {
      assert d.value[i] as int == e[i] == s[i] as int;
    }
    assert d.value == s;
  }

  /** The byte strings of `parts`, one after another. */
  function Concat(parts: seq<seq<byte>>): (r: seq<byte>)
  {
    if parts == [] then [] else parts[0] + Concat(parts[1..])
  }
}
