/**
 * `read_all`: every chunk of an iterable of byte strings is written into an
 * in-memory stream (`io.BytesIO`), which is then rewound and read out whole.
 */
module ReadAll {
  import opened Json

  /** The chunks one after another, in iteration order. */
  function Concat(chunks: seq<seq<byte>>): seq<byte>
  {
    if |chunks| == 0 then [] else Concat(chunks[..|chunks| - 1]) + chunks[|chunks| - 1]
  }

  function TotalLength(chunks: seq<seq<byte>>): nat
  {
    if |chunks| == 0 then 0 else TotalLength(chunks[..|chunks| - 1]) + |chunks[|chunks| - 1]|
  }

  function Zeros(n: nat): (z: seq<byte>)
    ensures |z| == n
  {
    if n == 0 then [] else Zeros(n - 1) + [0]
  }

  /**
   * The contents after writing `chunk` at position `pos`: bytes already there
   * are overwritten, a gap past the end is filled with zero bytes, and
   * whatever lay beyond the written range is kept.
   */
  function Overwrite(data: seq<byte>, pos: nat, chunk: seq<byte>): (r: seq<byte>)
    ensures |r| == if pos + |chunk| <= |data| then |data| else pos + |chunk|
    ensures r[pos..pos + |chunk|] == chunk
  {
    var before := if pos <= |data| then data[..pos] else data + Zeros(pos - |data|);
    var after := if pos + |chunk| < |data| then data[pos + |chunk|..] else [];
    assert (before + chunk + after)[pos..pos + |chunk|] == chunk;
    before + chunk + after
  }

  /** Writing at the end of the contents appends. */
  lemma OverwriteAtEnd(data: seq<byte>, chunk: seq<byte>)
    ensures Overwrite(data, |data|, chunk) == data + chunk
  {
    assert data[..|data|] == data;
  }

  /** `io.BytesIO`: a growable byte buffer with a stream position. */
  class ByteBuffer {
    var data: seq<byte>
    var pos: nat

    constructor()
      ensures data == [] && pos == 0
    {
      data := [];
      pos := 0;
    }

    /** `write`: the chunk is written at the position, which then moves past it. */
    method Write(chunk: seq<byte>)
      modifies this
      ensures data == Overwrite(old(data), old(pos), chunk)
      ensures pos == old(pos) + |chunk|
    {
      data := Overwrite(data, pos, chunk);
      pos := pos + |chunk|;
    }

    /** `seek(p)`: only the position changes. */
    method Seek(p: nat)
      modifies this
      ensures pos == p && data == old(data)
    {
      pos := p;
    }

    /** `read()`: everything from the position to the end; the position moves to the end. */
    method Read() returns (r: seq<byte>)
      modifies this
      ensures r == if old(pos) <= |data| then data[old(pos)..] else []
      ensures data == old(data)
      ensures pos == if old(pos) <= |data| then |data| else old(pos)
    {
      if pos <= |data| {
        r := data[pos..];
        pos := |data|;
      } else {
        r := [];
      }
    }
  }

  /** `read_all`: the result is the chunks concatenated in iteration order. */
  method ReadAllChunks(chunks: seq<seq<byte>>) returns (r: seq<byte>)
    ensures r == Concat(chunks)
    ensures |r| == TotalLength(chunks)
    ensures chunks == [] ==> r == []
  {
    var buffer := new ByteBuffer();
    var i := 0;
    while i < |chunks|
      invariant 0 <= i <= |chunks|
      invariant buffer.data == Concat(chunks[..i]) && buffer.pos == |buffer.data|
    {
      OverwriteAtEnd(buffer.data, chunks[i]);
      buffer.Write(chunks[i]);
      assert chunks[..i + 1][..i] == chunks[..i];
      i := i + 1;
    }
    assert chunks[..i] == chunks;
    buffer.Seek(0);
    r := buffer.Read();
    ConcatLength(chunks);
  }

  // ---- properties of the concatenation ----

  /** The result is as long as all chunks together. */
  lemma {:induction false} ConcatLength(chunks: seq<seq<byte>>)
    ensures |Concat(chunks)| == TotalLength(chunks)
  {
    if |chunks| > 0 {
      ConcatLength(chunks[..|chunks| - 1]);
    }
  }

  /** Concatenation distributes over joining the chunk sequences. */
  lemma {:induction false} ConcatAppend(a: seq<seq<byte>>, b: seq<seq<byte>>)
    ensures Concat(a + b) == Concat(a) + Concat(b)
    decreases |b|
  {
    if |b| == 0 {
      assert a + b == a;
    } else {
      var b' := b[..|b| - 1];
      assert (a + b)[..|a + b| - 1] == a + b';
      ConcatAppend(a, b');
    }
  }

  /** The chunks that are not empty, in order. */
  function NonEmpty(chunks: seq<seq<byte>>): (r: seq<seq<byte>>)
    ensures |r| <= |chunks|
    ensures forall i :: 0 <= i < |r| ==> |r[i]| > 0
  {
    if |chunks| == 0 then []
    else if |chunks[|chunks| - 1]| == 0 then NonEmpty(chunks[..|chunks| - 1])
    else NonEmpty(chunks[..|chunks| - 1]) + [chunks[|chunks| - 1]]
  }

  /** Empty chunks contribute nothing. */
  lemma {:induction false} EmptyChunksContributeNothing(chunks: seq<seq<byte>>)
    ensures Concat(NonEmpty(chunks)) == Concat(chunks)
  {
    if |chunks| > 0 {
      var init := chunks[..|chunks| - 1];
      var last := chunks[|chunks| - 1];
      EmptyChunksContributeNothing(init);
      if |last| > 0 {
        ConcatAppend(NonEmpty(init), [last]);
        assert Concat([last]) == last by {
          assert [last][..0] == [];
        }
      } else {
        assert Concat(chunks) == Concat(init) + last;
        assert Concat(init) + last == Concat(init);
      }
    }
  }
}
