/**
 * The in-memory byte stream the parser reads from (`io.BytesIO`):
 * `read(n)` returns at most n bytes, fewer at the end of the buffer and
 * none past it, and advances the position by what it returned; `seek(p)`
 * moves to any non-negative position, also past the end.
 */
module Stream {
  import opened Bytes

  function Min(a: int, b: int): int { if a <= b then a else b }

  /** What `read(n)` returns from position `pos`. */
  function Take(data: seq<byte>, pos: nat, n: nat): (r: seq<byte>)
    ensures |r| <= n
    ensures pos + n <= |data| ==> r == data[pos..pos + n]
    ensures pos >= |data| ==> r == []
    ensures pos < |data| ==> |r| == Min(n, |data| - pos)
  {
    if pos >= |data| then [] else data[pos..Min(pos + n, |data|)]
  }

  /** One `read(n)` from position `pos`: the bytes and the new position. */
  function Next(data: seq<byte>, pos: nat, n: nat): (r: (seq<byte>, nat))
    ensures r.0 == Take(data, pos, n) && r.1 == pos + |r.0|
  {
    var b := Take(data, pos, n);
    (b, pos + |b|)
  }

  /** Reading a section back from the position where it was placed. */
  lemma TakeSection(front: seq<byte>, x: seq<byte>, back: seq<byte>)
    ensures Take(front + x + back, |front|, |x|) == x
  {
    assert (front + x + back)[|front|..|front| + |x|] == x;
  }

  class Cursor {
    const data: seq<byte>
    var pos: nat

    constructor (data: seq<byte>)
      ensures this.data == data && pos == 0
    {
      this.data := data;
      pos := 0;
    }

    method Read(n: nat) returns (r: seq<byte>)
      modifies this`pos
      ensures (r, pos) == Next(data, old(pos), n)
    {
      r := Take(data, pos, n);
      pos := pos + |r|;
    }

    method Seek(p: nat)
      modifies this`pos
      ensures pos == p
    {
      pos := p;
    }
  }
}
