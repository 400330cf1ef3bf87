/**
 * Recorded data. A chunk is the byte content of one `dataavailable` event; the
 * finished recording is a Blob whose content is the chunks joined in order and
 * whose type is the element's mime type.
 */
module Blobs {
  import opened Wrappers

  newtype byte = x: int | 0 <= x < 256

  /** The bytes of one Blob handed over by a `dataavailable` event. */
  type Chunk = seq<byte>

  /** A Blob: its bytes and its `type`. */
  datatype Blob = Blob(content: seq<byte>, mimeType: string)

  /** The summed size of a list of chunks. */
  function TotalSize(chunks: seq<Chunk>): nat {
    if chunks == [] then 0 else |chunks[0]| + TotalSize(chunks[1..])
  }

  /** The chunks joined in order; its length is their summed size. */
  function Concat(chunks: seq<Chunk>): (r: seq<byte>)
    ensures |r| == TotalSize(chunks)
  {
    if chunks == [] then [] else chunks[0] + Concat(chunks[1..])
  }

  /**
   * `new Blob(parts, {type: mimeType})`: the parts joined in order, typed with
   * the mime type, or with the empty type when the mime type is undefined.
   */
  function NewBlob(parts: seq<Chunk>, mimeType: Option<string>): (b: Blob)
    ensures |b.content| == TotalSize(parts)
    ensures mimeType.Some? ==> b.mimeType == mimeType.value
    ensures mimeType.None? ==> b.mimeType == ""
  {
    Blob(Concat(parts), mimeType.UnwrapOr(""))
  }

  /** Joining distributes over appending lists of chunks. */
  lemma {:induction false} ConcatAppend(a: seq<Chunk>, b: seq<Chunk>)
    ensures Concat(a + b) == Concat(a) + Concat(b)
  {
    if a == [] {
      assert a + b == b;
    } else {
      assert (a + b)[0] == a[0];
      assert (a + b)[1..] == a[1..] + b;
      ConcatAppend(a[1..], b);
    }
  }

  /**
   * Order is preserved: chunk `i` sits in the joined content right after the
   * bytes of the chunks before it.
   */
  lemma ConcatSlice(chunks: seq<Chunk>, i: nat)
    requires i < |chunks|
    ensures TotalSize(chunks[..i]) + |chunks[i]| <= |Concat(chunks)|
    ensures Concat(chunks)[TotalSize(chunks[..i])..TotalSize(chunks[..i]) + |chunks[i]|] == chunks[i]
  {
    assert chunks == chunks[..i] + ([chunks[i]] + chunks[i + 1..]);
    ConcatAppend(chunks[..i], [chunks[i]] + chunks[i + 1..]);
    ConcatAppend([chunks[i]], chunks[i + 1..]);
    assert Concat([chunks[i]]) == chunks[i] + Concat([]);
  }

  /** A recording made of no chunks is empty; one made of three is their concatenation. */
  lemma ConcatSmall(a: Chunk, b: Chunk, c: Chunk)
    ensures Concat([]) == []
    ensures Concat([a, b, c]) == a + b + c
  {
    assert [a, b, c][1..] == [b, c];
    assert [b, c][1..] == [c];
    assert [c][1..] == [];
    assert Concat([c]) == c + Concat([]);
    assert Concat([b, c]) == b + Concat([c]);
    assert Concat([a, b, c]) == a + Concat([b, c]);
  }
}
