/** Shared vocabulary: optional values, results with an error side, bytes,
    and the two sequence folds (total length, concatenation) that the audio
    pipeline is stated in. */
module Base {

  /** A value that may be missing (JavaScript `undefined`/`null`, Python `None`). */
  datatype Option<+T> = None | Some(value: T) {
    function GetOr(default: T): T {
      match this
      case Some(v) => v
      case None => default
    }
  }

  /** Either a value or the error that was raised instead of producing it. */
  datatype Result<+T, +E> = Ok(value: T) | Err(error: E)

  /** One octet of an `ArrayBuffer` or of a Python `bytes` object. */
  type byte = x: int | 0 <= x < 256

  /** Sum of the lengths of a list of arrays. */
  function TotalLength<T>(bs: seq<seq<T>>): nat
  {
    if |bs| == 0 then 0 else TotalLength(bs[..|bs| - 1]) + |bs[|bs| - 1]|
  }

  /** In-order concatenation of a list of arrays. */
  function Concat<T>(bs: seq<seq<T>>): (r: seq<T>)
    ensures |r| == TotalLength(bs)
  {
    if |bs| == 0 then [] else Concat(bs[..|bs| - 1]) + bs[|bs| - 1]
  }

  /** Concatenation distributes over appending lists of arrays. */
  lemma {:induction false} ConcatAppend<T>(a: seq<seq<T>>, b: seq<seq<T>>)
    ensures Concat(a + b) == Concat(a) + Concat(b)
    ensures TotalLength(a + b) == TotalLength(a) + TotalLength(b)
    decreases |b|
  {
    if |b| == 0 {
      assert a + b == a;
    } else {
      var b' := b[..|b| - 1];
      assert (a + b)[..|a + b| - 1] == a + b';
      ConcatAppend(a, b');
    }
  }

  /** The total length of a prefix of the list never exceeds the whole total. */
  lemma {:induction false} TotalLengthPrefix<T>(bs: seq<seq<T>>, k: nat)
    requires k <= |bs|
    ensures TotalLength(bs[..k]) <= TotalLength(bs)
    decreases |bs| - k
  {
    if k < |bs| {
      TotalLengthPrefix(bs, k + 1);
      assert bs[..k + 1][..k] == bs[..k];
    } else {
      assert bs[..k] == bs;
    }
  }
}
