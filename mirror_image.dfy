/** The byte payload of a mirror image: the worker streams it in chunks and
    the supervisor writes them one after the other into one buffer. */
module MirrorImage {
  import opened Records

  /** The chunks written back to back. */
  function Concat(chunks: seq<seq<byte>>): (r: seq<byte>)
  {
    if chunks == [] then [] else chunks[0] + Concat(chunks[1..])
  }

  /** Writing two streams one after the other gives the two payloads one
      after the other. */
  lemma {:induction false} ConcatAppend(a: seq<seq<byte>>, b: seq<seq<byte>>)
    ensures Concat(a + b) == Concat(a) + Concat(b)
  {
    if a == [] {
      assert a + b == b;
    } else {
      assert (a + b)[0] == a[0];
      assert (a + b)[1..] == a[1..] + b;
      ConcatAppend(a[1..], b);
    }
  }

  /** Chunk `k` sits in the payload right after the chunks before it, and
      nothing is lost or reordered. */
  lemma ChunkInPlace(chunks: seq<seq<byte>>, k: nat)
    requires k < |chunks|
    ensures |Concat(chunks[..k])| + |chunks[k]| <= |Concat(chunks)|
    ensures Concat(chunks)[|Concat(chunks[..k])|..|Concat(chunks[..k])| + |chunks[k]|] == chunks[k]
  {
    assert chunks == chunks[..k] + ([chunks[k]] + chunks[k + 1..]);
    ConcatAppend(chunks[..k], [chunks[k]] + chunks[k + 1..]);
    assert Concat([chunks[k]] + chunks[k + 1..]) == chunks[k] + Concat(chunks[k + 1..]) by {
      assert ([chunks[k]] + chunks[k + 1..])[1..] == chunks[k + 1..];
    }
  }
}
