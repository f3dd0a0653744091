/**
 * The recorder's chunk buffer: `ondataavailable` keeps only the chunks whose
 * size is positive, and `onstop` wraps what was kept into one Blob, whose
 * bytes are the chunks' bytes in order.
 */
module AudioChunks {

  type Chunk = seq<bv8>

  /** The chunks with a positive size, in arrival order. */
  function NonEmpty(delivered: seq<Chunk>): (kept: seq<Chunk>)
    ensures |kept| <= |delivered|
    ensures forall c :: c in kept ==> |c| > 0 && c in delivered
  {
    if delivered == [] then []
    else (if |delivered[0]| > 0 then [delivered[0]] else []) + NonEmpty(delivered[1..])
  }

  /** The bytes of `new Blob(chunks)`. */
  function Flatten(chunks: seq<Chunk>): seq<bv8> {
    if chunks == [] then [] else chunks[0] + Flatten(chunks[1..])
  }

  /** Filtering a stream one more chunk at a time is filtering it at once. */
  lemma {:induction false} NonEmptyAppend(delivered: seq<Chunk>, c: Chunk)
    ensures NonEmpty(delivered + [c]) == NonEmpty(delivered) + (if |c| > 0 then [c] else [])
  {
    if delivered != [] {
      assert (delivered + [c])[1..] == delivered[1..] + [c];
      NonEmptyAppend(delivered[1..], c);
    }
  }

  /** Dropping the empty chunks loses no audio: the Blob holds every byte delivered. */
  lemma {:induction false} FlattenNonEmpty(delivered: seq<Chunk>)
    ensures Flatten(NonEmpty(delivered)) == Flatten(delivered)
  {
    if delivered != [] {
      FlattenNonEmpty(delivered[1..]);
      FlattenAppend(if |delivered[0]| > 0 then [delivered[0]] else [], NonEmpty(delivered[1..]));
    }
  }

  lemma {:induction false} FlattenAppend(a: seq<Chunk>, b: seq<Chunk>)
    ensures Flatten(a + b) == Flatten(a) + Flatten(b)
  {
    if a == [] {
      assert a + b == b;
    } else {
      assert (a + b)[1..] == a[1..] + b;
      FlattenAppend(a[1..], b);
    }
  }
}
