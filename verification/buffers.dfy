/** `mergeBuffers(buffers, totalLength)`: a zero-filled array of the declared
    length into which each buffer is copied at increasing offsets.  Copying a
    buffer past the end (`Float32Array.prototype.set` with an offset that does
    not leave room) raises a RangeError; that outcome is `None`. */
module Buffers {
  import opened Base

  function Zeros(n: nat): (z: seq<real>)
    ensures |z| == n
    ensures forall i :: 0 <= i < n ==> z[i] == 0.0
  {
    seq(n, _ => 0.0)
  }

  /** Reference definition of the merged array. */
  function Merge(bs: seq<seq<real>>, total: nat): (r: Option<seq<real>>)
    ensures r.Some? <==> TotalLength(bs) <= total
    ensures r.Some? ==> |r.value| == total
    ensures r.Some? ==> r.value[..TotalLength(bs)] == Concat(bs)
    ensures r.Some? ==> forall i :: TotalLength(bs) <= i < total ==> r.value[i] == 0.0
  {
    if TotalLength(bs) <= total then Some(Concat(bs) + Zeros(total - TotalLength(bs))) else None
  }

  /** When the declared length is the sum of the buffer lengths, as the stream
      controller keeps it, merging is exactly concatenation. */
  lemma MergeExact(bs: seq<seq<real>>)
    ensures Merge(bs, TotalLength(bs)) == Some(Concat(bs))
  {
    assert Concat(bs) + Zeros(0) == Concat(bs);
  }

  /** The copy loop of the source, one buffer at a time. */
  method MergeBuffers(bs: seq<seq<real>>, total: nat) returns (r: Option<seq<real>>)
    ensures r.Some? <==> TotalLength(bs) <= total
    ensures r.Some? ==> |r.value| == total
    ensures r.Some? ==> r.value[..TotalLength(bs)] == Concat(bs)
    ensures r.Some? ==> forall i :: TotalLength(bs) <= i < total ==> r.value[i] == 0.0
  {
    var result := Zeros(total);
    var offset := 0;
    var k := 0;
    while k < |bs|
      invariant 0 <= k <= |bs|
      invariant offset == TotalLength(bs[..k]) <= total
      invariant |result| == total
      invariant result[..offset] == Concat(bs[..k])
      invariant forall i :: offset <= i < total ==> result[i] == 0.0
    {
      var b := bs[k];
      assert bs[..k + 1][..k] == bs[..k];
      if offset + |b| > total {
        TotalLengthPrefix(bs, k + 1);
        return None;
      }
      result := result[..offset] + b + result[offset + |b|..];
      offset := offset + |b|;
      k := k + 1;
    }
    assert bs[..k] == bs;
    r := Some(result);
  }
}
