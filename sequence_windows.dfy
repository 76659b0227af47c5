/** create_sequences, shared by both training scripts: every window of
    `length` consecutive rows paired with the row that follows it, the
    training input and target of the next-step predictor. */
module SequenceWindows {

  /** The number of (window, target) pairs: `range(len(data) - length)`. */
  function PairCount(n: nat, length: nat): (c: nat)
    ensures c + length == n || (c == 0 && n <= length)
  {
    if n > length then n - length else 0
  }

  /** xs and ys are the sequences create_sequences builds from data: pair i
      is the window starting at row i and the row right after it. */
  ghost predicate Sequenced<T>(data: seq<T>, length: nat, xs: seq<seq<T>>, ys: seq<T>)
  {
    && |xs| == PairCount(|data|, length)
    && |ys| == |xs|
    && (forall i :: 0 <= i < |xs| ==> i + length < |data| && xs[i] == data[i..i + length])
    && (forall i :: 0 <= i < |ys| ==> i + length < |data| && ys[i] == data[i + length])
  }

  method CreateSequences<T>(data: seq<T>, length: nat) returns (xs: seq<seq<T>>, ys: seq<T>)
    ensures Sequenced(data, length, xs, ys)
    ensures forall i :: 0 <= i < |xs| ==> |xs[i]| == length
  {
    xs, ys := [], [];
    var i := 0;
    while i < PairCount(|data|, length)
      invariant i <= PairCount(|data|, length)
      invariant |xs| == i && |ys| == i
      invariant forall k :: 0 <= k < i ==> k + length < |data| && xs[k] == data[k..k + length]
      invariant forall k :: 0 <= k < i ==> ys[k] == data[k + length]
    {
      xs := xs + [data[i..i + length]];
      ys := ys + [data[i + length]];
      i := i + 1;
    }
  }

  /** The pairs are determined by the data: two results of create_sequences on
      the same rows are equal. */
  lemma {:induction false} SequencedUnique<T>(data: seq<T>, length: nat,
                                              xs: seq<seq<T>>, ys: seq<T>, xs': seq<seq<T>>, ys': seq<T>)
    requires Sequenced(data, length, xs, ys) && Sequenced(data, length, xs', ys')
    ensures xs == xs' && ys == ys'
  {
    assert forall i :: 0 <= i < |xs| ==> xs[i] == xs'[i];
    assert forall i :: 0 <= i < |ys| ==> ys[i] == ys'[i];
  }

  /** Consecutive windows overlap in all but one row, so each target is the
      last row of the next window. */
  lemma TargetIsNextWindowEnd<T>(data: seq<T>, length: nat, xs: seq<seq<T>>, ys: seq<T>, i: nat)
    requires Sequenced(data, length, xs, ys)
    requires length > 0 && i + 1 < |ys|
    ensures |xs[i + 1]| == length && ys[i] == xs[i + 1][length - 1]
    ensures xs[i + 1][..length - 1] == xs[i][1..]
  {
    assert xs[i + 1] == data[i + 1..i + 1 + length];
    assert xs[i] == data[i..i + length];
  }

  /** The targets are the data without its first `length` rows. */
  lemma {:induction false} TargetsAreSuffix<T>(data: seq<T>, length: nat, xs: seq<seq<T>>, ys: seq<T>)
    requires Sequenced(data, length, xs, ys)
    ensures length <= |data| ==> ys == data[length..]
    ensures length >= |data| ==> xs == [] && ys == []
  {
    if length <= |data| {
      var suffix := data[length..];
      assert |ys| == |suffix|;
      assert forall k :: 0 <= k < |ys| ==> ys[k] == suffix[k];
    }
  }
}
