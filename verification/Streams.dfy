/** Response bodies that arrive in chunks, any of which may fail. */
module Streams {
  import opened Results
  import opened Hex

  /** One item of a response stream: a chunk, or a transport failure. */
  type StreamItem = Option<seq<byte>>

  /** The bytes of the chunks before the first failure. */
  ghost function Body(chunks: seq<StreamItem>): seq<byte> {
    if chunks == [] || chunks[|chunks| - 1].None? then [] else Body(chunks[..|chunks| - 1]) + chunks[|chunks| - 1].value
  }

  ghost predicate NoFailure(chunks: seq<StreamItem>) {
    forall i :: 0 <= i < |chunks| ==> chunks[i].Some?
  }

  lemma {:induction false} BodyGrows(chunks: seq<StreamItem>, n: nat)
    requires n <= |chunks| && NoFailure(chunks)
    ensures |Body(chunks[..n])| <= |Body(chunks)|
  {
    if n < |chunks| {
      var shorter := chunks[..|chunks| - 1];
      assert shorter[..n] == chunks[..n];
      BodyGrows(shorter, n);
    } else {
      assert chunks[..n] == chunks;
    }
  }

  /** The chunks arrive whole up to a failure at `n`, and fit the bound until then. */
  ghost predicate FailsAt(chunks: seq<StreamItem>, n: nat, bound: nat) {
    n < |chunks| && chunks[n].None? && NoFailure(chunks[..n]) && |Body(chunks[..n])| <= bound
  }

  /** Once the body outgrows the bound, neither a later failure nor the rest can mend it. */
  lemma OverflowIsFinal(chunks: seq<StreamItem>, i: nat, bound: nat)
    requires i < |chunks| && NoFailure(chunks[..i + 1]) && |Body(chunks[..i + 1])| > bound
    ensures NoFailure(chunks) ==> |Body(chunks)| > bound
    ensures forall n: nat :: !FailsAt(chunks, n, bound)
  {
    if NoFailure(chunks) {
      BodyGrows(chunks, i + 1);
    }
    forall n: nat | n < |chunks| && NoFailure(chunks[..n]) ensures !FailsAt(chunks, n, bound) {
      if n > i {
        assert chunks[..n][..i + 1] == chunks[..i + 1];
        BodyGrows(chunks[..n], i + 1);
      } else {
        assert chunks[..i + 1][n].Some?;
      }
    }
  }

  /** The body is the chunks end to end, up to the first failure. */
  lemma {:induction false} BodyConcatenates(chunks: seq<StreamItem>, item: StreamItem, more: seq<StreamItem>)
    ensures Body([]) == []
    ensures item.Some? ==> Body(chunks + [item]) == Body(chunks) + item.value
    ensures NoFailure(more) ==> Body(chunks + more) == Body(chunks) + Body(more)
  {
    assert (chunks + [item])[..|chunks|] == chunks;
    if more == [] {
      assert chunks + more == chunks;
    } else if NoFailure(more) {
      var n := |more| - 1;
      BodyConcatenates(chunks, item, more[..n]);
      assert (chunks + more)[..|chunks| + n] == chunks + more[..n];
    }
  }
}
