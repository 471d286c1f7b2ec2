/** The held-out evaluation of `__test` and `evaluate`: a character error rate averaged over samples,
    a loss averaged over batches, and the divisions by zero in between. */
module Evaluation {
  import opened Failures

  /** One utterance: `cer(out_string, label)`, the opaque edit distance the metric returns, and `len(label)`. */
  datatype Sample = Sample(distance: real, labelLength: nat)

  /** One test batch: the batch's mean CTC loss, an opaque number, and its utterances. */
  datatype TestBatch = TestBatch(loss: real, samples: seq<Sample>)

  /** One progress line of `__test`: batch id, that batch's loss, and the CER of every sample so far. */
  datatype Progress = Progress(batchId: nat, loss: real, cer: real)

  function Sum(xs: seq<real>): real
  {
    if xs == [] then 0.0 else Sum(xs[..|xs| - 1]) + xs[|xs| - 1]
  }

  /** `sum(xs) / len(xs)`. */
  function Mean(xs: seq<real>): real
    requires xs != []
  {
    Sum(xs) / (|xs| as real)
  }

  /** No label is empty, so every `cer / float(len(label))` is defined. */
  ghost predicate LabelsPositive(batches: seq<seq<Sample>>)
  {
    forall k, m :: 0 <= k < |batches| && 0 <= m < |batches[k]| ==> batches[k][m].labelLength > 0
  }

  /** The ratios `cer / len(label)` of one batch, in order. */
  function BatchRatios(samples: seq<Sample>): (r: seq<real>)
    requires forall m :: 0 <= m < |samples| ==> samples[m].labelLength > 0
    ensures |r| == |samples|
    ensures forall m :: 0 <= m < |samples| ==> r[m] == samples[m].distance / (samples[m].labelLength as real)
  {
    if samples == [] then []
    else
      var s := samples[|samples| - 1];
      BatchRatios(samples[..|samples| - 1]) + [s.distance / (s.labelLength as real)]
  }

  /** No batch holds a sample. */
  ghost predicate AllEmpty(batches: seq<seq<Sample>>)
  {
    forall k :: 0 <= k < |batches| ==> batches[k] == []
  }

  /** The list `c`: one ratio per sample, across all batches, in order. It is empty exactly when every
      batch is, and non-empty as soon as the first batch is. */
  function AllRatios(batches: seq<seq<Sample>>): (r: seq<real>)
    requires LabelsPositive(batches)
    ensures r == [] <==> AllEmpty(batches)
    ensures batches != [] && batches[0] != [] ==> r != []
  {
    if batches == [] then []
    else
      var n := |batches|;
      var init, last := batches[..n - 1], batches[n - 1];
      SplitLast(batches);
      AllRatios(init) + BatchRatios(last)
  }

  /** What the prefix without the last batch inherits, and what it says about all of them. */
  lemma SplitLast(batches: seq<seq<Sample>>)
    requires batches != [] && LabelsPositive(batches)
    ensures var init, last := batches[..|batches| - 1], batches[|batches| - 1];
      && LabelsPositive(init)
      && (forall m :: 0 <= m < |last| ==> last[m].labelLength > 0)
      && (AllEmpty(batches) <==> AllEmpty(init) && last == [])
      && (init != [] ==> init[0] == batches[0])
  {
    var n := |batches|;
    var init := batches[..n - 1];
    assert forall k :: 0 <= k < n - 1 ==> init[k] == batches[k];
  }

  /** The utterances of each test batch. */
  function Samples(batches: seq<TestBatch>): (r: seq<seq<Sample>>)
    ensures |r| == |batches| && forall k :: 0 <= k < |batches| ==> r[k] == batches[k].samples
  {
    seq(|batches|, k requires 0 <= k < |batches| => batches[k].samples)
  }

  /** The list `l`: one loss per batch. */
  function Losses(batches: seq<TestBatch>): (r: seq<real>)
    ensures |r| == |batches| && forall k :: 0 <= k < |batches| ==> r[k] == batches[k].loss
  {
    seq(|batches|, k requires 0 <= k < |batches| => batches[k].loss)
  }

  /** `__test` returns instead of dividing by zero: there is a batch, the first batch holds a sample
      (its progress line divides by the samples seen so far), and no label is empty. */
  ghost predicate Usable(batches: seq<TestBatch>)
  {
    batches != [] && batches[0].samples != [] && LabelsPositive(Samples(batches))
  }

  /** No label in the batches `0..m-1` is empty. */
  ghost predicate LabelsPositiveUpTo(batches: seq<TestBatch>, m: nat)
    requires m <= |batches|
  {
    forall i, j :: 0 <= i < m && 0 <= j < |batches[i].samples| ==> batches[i].samples[j].labelLength > 0
  }

  lemma PrefixLabels(batches: seq<TestBatch>, m: nat)
    requires m <= |batches| && LabelsPositiveUpTo(batches, m)
    ensures LabelsPositive(Samples(batches[..m]))
  {
    var s: seq<seq<Sample>> := Samples(batches[..m]);
    forall k: nat, j: nat | k < |s| && j < |s[k]| ensures s[k][j].labelLength > 0 {
      assert s[k] == batches[k].samples;
    }
  }

  /** The CER over the samples of batches `0..m-1`: what the progress line of batch `m - 1` prints. */
  function RunningCer(batches: seq<TestBatch>, m: nat): real
    requires 0 < m <= |batches| && batches[0].samples != [] && LabelsPositiveUpTo(batches, m)
  {
    PrefixLabels(batches, m);
    Mean(AllRatios(Samples(batches[..m])))
  }

  /** The progress lines of the batch ids `0..j-1`: one at every id divisible by 100, with that batch's
      loss and the CER of every sample up to it. */
  function ProgressLog(batches: seq<TestBatch>, j: nat): (r: seq<Progress>)
    requires j <= |batches| && (j > 0 ==> batches[0].samples != []) && LabelsPositiveUpTo(batches, j)
    ensures |r| == (j + 99) / 100
    ensures forall k :: 0 <= k < |r| ==> r[k].batchId == 100 * k < j && r[k].loss == batches[100 * k].loss
    ensures forall k :: 0 <= k < |r| ==> r[k].cer == RunningCer(batches, 100 * k + 1)
  {
    if j == 0 then []
    else
      CeilStep(j - 1);
      ProgressLog(batches, j - 1)
      + (if (j - 1) % 100 == 0 then [Progress(j - 1, batches[j - 1].loss, RunningCer(batches, j))] else [])
  }

  lemma CeilStep(m: nat)
    ensures (m + 100) / 100 == (m + 99) / 100 + (if m % 100 == 0 then 1 else 0)
    ensures m % 100 == 0 ==> 100 * ((m + 99) / 100) == m
  {
  }

  /** `__test`: the CER over all samples, the mean of the batch losses and the progress lines, or the
      division by zero of an empty label, an empty first batch or an empty loader. */
  method Test(batches: seq<TestBatch>) returns (r: Result<(real, real)>, progress: seq<Progress>)
    ensures r.Err? <==> !Usable(batches)
    ensures r.Err? ==> r.error == DivisionByZero
    ensures r.Ok? ==> r.value == (Mean(AllRatios(Samples(batches))), Mean(Losses(batches)))
    ensures r.Ok? ==> progress == ProgressLog(batches, |batches|)
  {
    var c: seq<real> := [];
    var l: seq<real> := [];
    progress := [];
    var i := 0;
    while i < |batches|
      invariant 0 <= i <= |batches|
      invariant LabelsPositive(Samples(batches[..i])) && LabelsPositiveUpTo(batches, i)
      invariant i > 0 ==> batches[0].samples != []
      invariant c == AllRatios(Samples(batches[..i])) && l == Losses(batches[..i])
      invariant progress == ProgressLog(batches, i)
    {
      l := l + [batches[i].loss];
      var next := AppendRatios(c, batches[i].samples);
      if next.None? {
        EmptyLabelUnusable(batches, i);
        return Err(DivisionByZero), progress;
      }
      PrefixStep(batches, i);
      c := next.value;
      if i % 100 == 0 && c == [] {
        assert i == 0 && batches[0].samples == [];
        return Err(DivisionByZero), progress;
      }
      var line := if i % 100 == 0 then [Progress(i, batches[i].loss, Mean(c))] else [];
      assert progress + line == ProgressLog(batches, i + 1);
      progress := progress + line;
      i := i + 1;
    }
    assert batches[..i] == batches;
    if c == [] {
      return Err(DivisionByZero), progress;
    }
    r := Ok((Mean(c), Mean(l)));
  }

  /** The inner loop of `__test` and `evaluate` over one batch: append each sample's ratio to `c`, or
      stop at the first empty label. */
  method AppendRatios(c: seq<real>, samples: seq<Sample>) returns (r: Option<seq<real>>)
    ensures r.Some? <==> forall m :: 0 <= m < |samples| ==> samples[m].labelLength > 0
    ensures r.Some? ==> r.value == c + BatchRatios(samples)
  {
    var out := c;
    var j := 0;
    while j < |samples|
      invariant 0 <= j <= |samples|
      invariant forall m :: 0 <= m < j ==> samples[m].labelLength > 0
      invariant out == c + BatchRatios(samples[..j])
    {
      var s := samples[j];
      if s.labelLength == 0 {
        return None;
      }
      assert samples[..j + 1][..j] == samples[..j];
      out := out + [s.distance / (s.labelLength as real)];
      j := j + 1;
    }
    assert samples[..j] == samples;
    return Some(out);
  }

  /** A batch with an empty label makes the whole test set unusable. */
  lemma EmptyLabelUnusable(batches: seq<TestBatch>, i: nat)
    requires i < |batches|
    requires !(forall m :: 0 <= m < |batches[i].samples| ==> batches[i].samples[m].labelLength > 0)
    ensures !Usable(batches)
  {
    var m :| 0 <= m < |batches[i].samples| && batches[i].samples[m].labelLength == 0;
    assert Samples(batches)[i][m].labelLength == 0;
  }

  /** Extending the batches seen by one: their samples, ratios, losses and progress lines grow by
      that batch's. */
  lemma PrefixStep(batches: seq<TestBatch>, i: nat)
    requires i < |batches| && LabelsPositive(Samples(batches[..i]))
    requires forall m :: 0 <= m < |batches[i].samples| ==> batches[i].samples[m].labelLength > 0
    requires i > 0 ==> batches[0].samples != []
    requires LabelsPositiveUpTo(batches, i)
    ensures LabelsPositive(Samples(batches[..i + 1])) && LabelsPositiveUpTo(batches, i + 1)
    ensures AllRatios(Samples(batches[..i + 1])) == AllRatios(Samples(batches[..i])) + BatchRatios(batches[i].samples)
    ensures Losses(batches[..i + 1]) == Losses(batches[..i]) + [batches[i].loss]
    ensures batches[..i + 1] != [] && batches[..i + 1][0] == batches[0]
  {
    var s, s' := Samples(batches[..i]), Samples(batches[..i + 1]);
    assert s' == s + [batches[i].samples];
    assert s'[..i] == s;
    assert batches[..i + 1][..i] == batches[..i];
    forall k, j | 0 <= k < i + 1 && 0 <= j < |batches[k].samples| ensures batches[k].samples[j].labelLength > 0 {
      if k < i {
        assert LabelsPositiveUpTo(batches, i);
      }
    }
  }

  // ---- Properties of the aggregates ----

  lemma {:induction false} SumConcat(a: seq<real>, b: seq<real>)
    ensures Sum(a + b) == Sum(a) + Sum(b)
    decreases |b|
  {
    if b != [] {
      assert (a + b)[..|a + b| - 1] == a + b[..|b| - 1];
      SumConcat(a, b[..|b| - 1]);
    } else {
      assert a + b == a;
    }
  }

  /** A sum of non-negative values is non-negative, and zero exactly when every value is. */
  lemma {:induction false} SumZeroIff(xs: seq<real>)
    requires AllNonNegative(xs)
    ensures Sum(xs) >= 0.0
    ensures Sum(xs) == 0.0 <==> AllZero(xs)
    decreases |xs|
  {
    if xs != [] {
      var init := xs[..|xs| - 1];
      assert forall i :: 0 <= i < |init| ==> init[i] == xs[i];
      SumZeroIff(init);
    }
  }

  ghost predicate AllZero(xs: seq<real>)
  {
    forall i :: 0 <= i < |xs| ==> xs[i] == 0.0
  }

  ghost predicate AllNonNegative(xs: seq<real>)
  {
    forall i :: 0 <= i < |xs| ==> xs[i] >= 0.0
  }

  /** Every hypothesis of `batches` matches its label: each edit distance is zero. */
  ghost predicate Perfect(batches: seq<seq<Sample>>)
  {
    forall k, m :: 0 <= k < |batches| && 0 <= m < |batches[k]| ==> batches[k][m].distance == 0.0
  }

  /** The metric's distances are non-negative. */
  ghost predicate DistancesNonNegative(batches: seq<seq<Sample>>)
  {
    forall k, m :: 0 <= k < |batches| && 0 <= m < |batches[k]| ==> batches[k][m].distance >= 0.0
  }

  lemma ConcatAll(a: seq<real>, b: seq<real>)
    ensures AllZero(a + b) <==> AllZero(a) && AllZero(b)
    ensures AllNonNegative(a + b) <==> AllNonNegative(a) && AllNonNegative(b)
  {
    assert forall i :: 0 <= i < |a| ==> (a + b)[i] == a[i];
    assert forall m :: 0 <= m < |b| ==> (a + b)[|a| + m] == b[m];
  }

  lemma BatchRatiosZeroIff(samples: seq<Sample>)
    requires forall m :: 0 <= m < |samples| ==> samples[m].labelLength > 0
    requires forall m :: 0 <= m < |samples| ==> samples[m].distance >= 0.0
    ensures AllNonNegative(BatchRatios(samples))
    ensures AllZero(BatchRatios(samples)) <==> forall m :: 0 <= m < |samples| ==> samples[m].distance == 0.0
  {
    var b := BatchRatios(samples);
    forall m | 0 <= m < |samples|
      ensures b[m] >= 0.0 && (b[m] == 0.0 <==> samples[m].distance == 0.0)
    {
      Quotient(samples[m].distance, samples[m].labelLength as real);
    }
  }

  /** Each ratio is non-negative, and all are zero exactly when every distance is. */
  lemma {:induction false} RatiosZeroIff(batches: seq<seq<Sample>>)
    requires LabelsPositive(batches) && DistancesNonNegative(batches)
    ensures AllNonNegative(AllRatios(batches))
    ensures AllZero(AllRatios(batches)) <==> Perfect(batches)
    decreases |batches|
  {
    if batches != [] {
      var n := |batches|;
      var init, last := batches[..n - 1], batches[n - 1];
      SplitLast(batches);
      PerfectSplit(batches);
      RatiosZeroIff(init);
      BatchRatiosZeroIff(last);
      ConcatAll(AllRatios(init), BatchRatios(last));
    }
  }

  /** `Perfect` and `DistancesNonNegative` split into the prefix without the last batch and that batch. */
  lemma PerfectSplit(batches: seq<seq<Sample>>)
    requires batches != []
    ensures var init, last := batches[..|batches| - 1], batches[|batches| - 1];
      && (Perfect(batches) <==> Perfect(init) && forall m :: 0 <= m < |last| ==> last[m].distance == 0.0)
      && (DistancesNonNegative(batches) ==> DistancesNonNegative(init) && forall m :: 0 <= m < |last| ==> last[m].distance >= 0.0)
  {
    var n := |batches|;
    assert forall k :: 0 <= k < n - 1 ==> batches[..n - 1][k] == batches[k];
  }

  /** The CER of a test set with non-negative distances is non-negative, and it is zero exactly when
      every hypothesis matches its label. */
  lemma CerZeroIffPerfect(batches: seq<seq<Sample>>)
    requires batches != [] && batches[0] != []
    requires LabelsPositive(batches) && DistancesNonNegative(batches)
    ensures Mean(AllRatios(batches)) >= 0.0
    ensures Mean(AllRatios(batches)) == 0.0 <==> Perfect(batches)
  {
    var c := AllRatios(batches);
    RatiosZeroIff(batches);
    SumZeroIff(c);
    Quotient(Sum(c), |c| as real);
  }

  lemma Quotient(x: real, y: real)
    requires x >= 0.0 && y > 0.0
    ensures x / y >= 0.0 && (x / y == 0.0 <==> x == 0.0)
  {
    assert x / y * y == x;
  }

  lemma QuotientSum(x: real, y: real, z: real)
    requires z > 0.0
    ensures x / z + y / z == (x + y) / z
  {
  }

  /** All the values of some lists, in order. */
  function Flatten(xss: seq<seq<real>>): (r: seq<real>)
  {
    if xss == [] then [] else Flatten(xss[..|xss| - 1]) + xss[|xss| - 1]
  }

  /** The mean of each of some non-empty lists. */
  function Means(xss: seq<seq<real>>): (r: seq<real>)
    requires forall k :: 0 <= k < |xss| ==> xss[k] != []
    ensures |r| == |xss|
  {
    if xss == [] then [] else Means(xss[..|xss| - 1]) + [Mean(xss[|xss| - 1])]
  }

  lemma {:induction false} MeansAt(xss: seq<seq<real>>)
    requires forall k :: 0 <= k < |xss| ==> xss[k] != []
    ensures forall k :: 0 <= k < |xss| ==> Means(xss)[k] == Mean(xss[k])
    decreases |xss|
  {
    if xss != [] {
      var init := xss[..|xss| - 1];
      assert forall k :: 0 <= k < |init| ==> init[k] == xss[k];
      MeansAt(init);
    }
  }

  lemma {:induction false} FlattenLength(xss: seq<seq<real>>, size: nat)
    requires forall k :: 0 <= k < |xss| ==> |xss[k]| == size
    ensures |Flatten(xss)| == |xss| * size
    decreases |xss|
  {
    if xss != [] {
      var init := xss[..|xss| - 1];
      assert forall k :: 0 <= k < |init| ==> init[k] == xss[k];
      FlattenLength(init, size);
      MulStep(|xss|, size);
    }
  }

  lemma MulStep(n: int, size: int)
    ensures (n - 1) * size + size == n * size
  {
  }

  lemma {:induction false} EqualSizesSums(xss: seq<seq<real>>, size: nat)
    requires size > 0 && forall k :: 0 <= k < |xss| ==> |xss[k]| == size
    ensures Sum(Means(xss)) == Sum(Flatten(xss)) / (size as real)
    decreases |xss|
  {
    if xss != [] {
      var init, last := xss[..|xss| - 1], xss[|xss| - 1];
      assert forall k :: 0 <= k < |init| ==> init[k] == xss[k];
      EqualSizesSums(init, size);
      SumConcat(Flatten(init), last);
      SumConcat(Means(init), [Mean(last)]);
      assert Sum([Mean(last)]) == Mean(last) by { assert [Mean(last)][..0] == []; }
      QuotientSum(Sum(Flatten(init)), Sum(last), size as real);
    }
  }

  lemma DivDiv(s: real, n: nat, size: nat)
    requires n > 0 && size > 0
    ensures s / ((n * size) as real) == (s / (size as real)) / (n as real)
  {
    assert (n * size) as real == (n as real) * (size as real);
  }

  /** With batches of one size, the mean of the batch means (how `__test` averages the loss) equals the
      mean over all values (how it averages the CER). */
  lemma EqualSizesSameWeighting(xss: seq<seq<real>>, size: nat)
    requires xss != [] && size > 0 && forall k :: 0 <= k < |xss| ==> |xss[k]| == size
    ensures Flatten(xss) != [] && Mean(Flatten(xss)) == Mean(Means(xss))
  {
    FlattenLength(xss, size);
    EqualSizesSums(xss, size);
    DivDiv(Sum(Flatten(xss)), |xss|, size);
  }

  /** With unequal batch sizes the two averages differ: one wrong sample alone in a batch weighs as much
      as three right ones in another under the batch average. */
  lemma UnequalSizesDiffer()
    ensures var xss := [[1.0], [0.0, 0.0, 0.0]];
      Mean(Flatten(xss)) == 0.25 && Mean(Means(xss)) == 0.5
  {
    var xss := [[1.0], [0.0, 0.0, 0.0]];
    assert xss[..1] == [[1.0]] && [[1.0]][..0] == [];
    assert Flatten(xss) == [1.0, 0.0, 0.0, 0.0];
    assert Sum([1.0, 0.0, 0.0, 0.0]) == 1.0 by {
      assert [1.0, 0.0, 0.0, 0.0][..3] == [1.0, 0.0, 0.0];
      assert [1.0, 0.0, 0.0][..2] == [1.0, 0.0];
      assert [1.0, 0.0][..1] == [1.0];
      assert [1.0][..0] == [];
    }
    assert Mean([1.0]) == 1.0 by { assert [1.0][..0] == []; }
    assert Mean([0.0, 0.0, 0.0]) == 0.0 by {
      assert [0.0, 0.0, 0.0][..2] == [0.0, 0.0];
      assert [0.0, 0.0][..1] == [0.0];
      assert [0.0][..0] == [];
    }
    assert Means(xss) == [1.0, 0.0];
    assert Sum([1.0, 0.0]) == 1.0 by {
      assert [1.0, 0.0][..1] == [1.0];
      assert [1.0][..0] == [];
    }
  }

  /** `__test`'s loss is the mean of the batch losses; when each batch's loss is the mean of its
      per-sample losses (the CTC loss averaged over the batch) and every batch has the same size, it is
      the mean loss over all samples. */
  lemma TestLossIsSampleMean(batches: seq<TestBatch>, perSample: seq<seq<real>>, size: nat)
    requires batches != [] && size > 0 && |perSample| == |batches|
    requires forall k :: 0 <= k < |batches| ==> |perSample[k]| == size && batches[k].loss == Mean(perSample[k])
    ensures Flatten(perSample) != [] && Mean(Losses(batches)) == Mean(Flatten(perSample))
  {
    MeansAt(perSample);
    assert Losses(batches) == Means(perSample);
    EqualSizesSameWeighting(perSample, size);
  }
}
