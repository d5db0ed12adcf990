/**
 * The epoch loops of training and evaluation: per epoch the seven metric sums,
 * the sample count and the loss sum start at zero, every batch adds its values,
 * and the epoch ends by dividing the metric sums by the number of samples and
 * the loss sum by the number of batches. Training steps the optimizer once per
 * batch; evaluation never does. Training alternates one training pass and one
 * evaluation pass per epoch.
 */
module Training {
  import opened Results
  import opened Grids

  /** The seven metrics: accuracy, sensitivity, specificity, precision, F1, Jaccard and Dice. */
  datatype Scores = Scores(acc: real, se: real, sp: real, pc: real, f1: real, js: real, dc: real)

  const NoScores := Scores(0.0, 0.0, 0.0, 0.0, 0.0, 0.0, 0.0)

  function Plus(a: Scores, b: Scores): Scores
  {
    Scores(a.acc + b.acc, a.se + b.se, a.sp + b.sp, a.pc + b.pc, a.f1 + b.f1, a.js + b.js, a.dc + b.dc)
  }

  function Times(a: Scores, n: real): Scores
  {
    Scores(a.acc * n, a.se * n, a.sp * n, a.pc * n, a.f1 * n, a.js * n, a.dc * n)
  }

  /** All seven metrics are at least 0, as the evaluation functions' ratios are. */
  predicate NonNegative(s: Scores)
  {
    0.0 <= s.acc && 0.0 <= s.se && 0.0 <= s.sp && 0.0 <= s.pc && 0.0 <= s.f1 && 0.0 <= s.js && 0.0 <= s.dc
  }

  /** The running sums after adding xs[0], xs[1], ... in order. */
  function Total(xs: seq<Scores>): Scores
    decreases |xs|
  {
    if xs == [] then NoScores else Plus(Total(xs[..|xs| - 1]), xs[|xs| - 1])
  }

  /** The running loss sum after adding xs[0], xs[1], ... in order. */
  function Sum(xs: seq<real>): real
    decreases |xs|
  {
    if xs == [] then 0.0 else Sum(xs[..|xs| - 1]) + xs[|xs| - 1]
  }

  /** Sums of non-negative metrics are non-negative. */
  lemma {:induction false} TotalNonNegative(xs: seq<Scores>)
    requires forall i :: 0 <= i < |xs| ==> NonNegative(xs[i])
    ensures NonNegative(Total(xs))
    decreases |xs|
  {
    if xs != [] {
      TotalNonNegative(xs[..|xs| - 1]);
    }
  }

  /** A sum of non-negative losses is non-negative. */
  lemma {:induction false} SumNonNegative(xs: seq<real>)
    requires forall i :: 0 <= i < |xs| ==> 0.0 <= xs[i]
    ensures 0.0 <= Sum(xs)
    decreases |xs|
  {
    if xs != [] {
      SumNonNegative(xs[..|xs| - 1]);
    }
  }

  lemma TotalAppend(xs: seq<Scores>, x: Scores)
    ensures Total(xs + [x]) == Plus(Total(xs), x)
  {
    assert (xs + [x])[..|xs|] == xs;
  }

  lemma SumAppend(xs: seq<real>, x: real)
    ensures Sum(xs + [x]) == Sum(xs) + x
  {
    assert (xs + [x])[..|xs|] == xs;
  }

  /** Python raises ZeroDivisionError when an epoch has seen no sample. */
  datatype EpochError = NoSamples

  /** The end of an epoch: every metric sum divided by the number of samples. */
  function Average(sums: Scores, length: nat): (r: Result<Scores, EpochError>)
    ensures r.Success? <==> length > 0
  {
    if length == 0 then Failure(NoSamples)
    else
      var n := length as real;
      Success(Scores(sums.acc / n, sums.se / n, sums.sp / n, sums.pc / n, sums.f1 / n, sums.js / n, sums.dc / n))
  }

  /** A batch as the loader yields it: images.size(0) is its number of samples. */
  datatype Batch = Batch(images: seq<Grid<real>>, labels: seq<Grid<int>>)

  function Size(b: Batch): nat { |b.images| }

  /** The number of samples in the first k batches: `length` after k iterations. */
  function SamplesSeen(loader: seq<Batch>, k: nat): nat
    requires k <= |loader|
  {
    if k == 0 then 0 else SamplesSeen(loader, k - 1) + Size(loader[k - 1])
  }

  /** The number of samples in an epoch. */
  function SampleCount(loader: seq<Batch>): nat
  {
    SamplesSeen(loader, |loader|)
  }

  /** No sample has been seen after k batches exactly when each of them was empty. */
  lemma {:induction false} NoSamplesSeen(loader: seq<Batch>, k: nat)
    requires k <= |loader|
    ensures SamplesSeen(loader, k) == 0 <==> forall j :: 0 <= j < k ==> loader[j].images == []
    decreases k
  {
    if k > 0 {
      NoSamplesSeen(loader, k - 1);
    }
  }

  /**
   * The numeric collaborators, not interpreted: the network (its raw scores
   * depend on the parameters, named by the number of optimizer steps applied so
   * far, and on whether it is in training mode), the loss (binary cross entropy
   * with logits of the flattened scores against the flattened labels), and the
   * seven evaluation functions applied to the sigmoid of the scores.
   */
  datatype Collaborators = Collaborators(
    forward: (nat, bool, seq<Grid<real>>) -> seq<Grid<real>>,
    loss: (seq<Grid<real>>, seq<Grid<int>>) -> real,
    metrics: (seq<Grid<real>>, seq<Grid<int>>) -> Scores)

  /** What the training process does to the network and the optimizer, in order. */
  datatype Event = TrainMode | EvalMode | ZeroGrad | Forward | Loss | Backward | Step | Accumulate

  const TrainBatchEvents: seq<Event> := [ZeroGrad, Forward, Loss, Backward, Step, Accumulate]

  const TestBatchEvents: seq<Event> := [Forward, Accumulate]

  function Repeat(block: seq<Event>, n: nat): seq<Event>
  {
    if n == 0 then [] else Repeat(block, n - 1) + block
  }

  lemma {:induction false} RepeatMembers(block: seq<Event>, n: nat, e: Event)
    ensures e in Repeat(block, n) <==> n > 0 && e in block
  {
    if n > 1 {
      RepeatMembers(block, n - 1, e);
    }
  }

  lemma {:induction false} RepeatLength(block: seq<Event>, n: nat)
    ensures |Repeat(block, n)| == n * |block|
  {
    if n > 0 {
      RepeatLength(block, n - 1);
      assert n * |block| == (n - 1) * |block| + |block|;
    }
  }

  /** Doing one more block after n repetitions gives n + 1 repetitions. */
  lemma RepeatStep(trace0: seq<Event>, before: seq<Event>, after: seq<Event>, block: seq<Event>, n: nat)
    requires before == trace0 + Repeat(block, n)
    requires after == before + block
    ensures after == trace0 + Repeat(block, n + 1)
  {
  }

  /** Block q of a repetition is the block itself. */
  lemma {:induction false} RepeatIndex(block: seq<Event>, n: nat, q: nat, k: nat)
    requires q < n && k < |block|
    ensures q * |block| + k < |Repeat(block, n)|
    ensures Repeat(block, n)[q * |block| + k] == block[k]
  {
    RepeatLength(block, n - 1);
    RepeatLength(block, n);
    if q < n - 1 {
      RepeatIndex(block, n - 1, q, k);
      assert q * |block| + k < (n - 1) * |block| by {
        assert q * |block| + k < q * |block| + |block| == (q + 1) * |block| <= (n - 1) * |block|;
      }
    } else {
      assert q * |block| == |Repeat(block, n - 1)|;
    }
  }

  /**
   * An evaluation pass never clears gradients, back-propagates or steps the
   * optimizer, whatever the number of batches.
   */
  lemma TestNeverSteps(n: nat)
    ensures ZeroGrad !in Repeat(TestBatchEvents, n)
    ensures Backward !in Repeat(TestBatchEvents, n)
    ensures Step !in Repeat(TestBatchEvents, n)
  {
    RepeatMembers(TestBatchEvents, n, ZeroGrad);
    RepeatMembers(TestBatchEvents, n, Backward);
    RepeatMembers(TestBatchEvents, n, Step);
  }

  /**
   * In a training epoch every optimizer step comes right after the gradients
   * were cleared, the network run, the loss computed and back-propagated, and
   * right before the metrics of that batch are accumulated.
   */
  lemma TrainStepOrder(n: nat, i: nat)
    requires i < |Repeat(TrainBatchEvents, n)| && Repeat(TrainBatchEvents, n)[i] == Step
    ensures 4 <= i < |Repeat(TrainBatchEvents, n)| - 1
    ensures Repeat(TrainBatchEvents, n)[i - 4 .. i + 2] == TrainBatchEvents
  {
    var events := Repeat(TrainBatchEvents, n);
    RepeatLength(TrainBatchEvents, n);
    var q, k := BatchPosition(n, i);
    var start := q * 6;
    forall j | 0 <= j < 6
      ensures events[start + j] == TrainBatchEvents[j]
    {
      RepeatIndex(TrainBatchEvents, n, q, j);
    }
    OnlyFifthSteps(k);
    assert events[i - 4 .. i + 2] == TrainBatchEvents by {
      forall j | 0 <= j < 6
        ensures events[i - 4 .. i + 2][j] == TrainBatchEvents[j]
      {
        assert events[i - 4 .. i + 2][j] == events[start + j];
      }
    }
  }

  /** Event i of n training batches is event k of batch q. */
  lemma BatchPosition(n: nat, i: nat) returns (q: nat, k: nat)
    requires i < n * |TrainBatchEvents|
    ensures q < n && k < 6 && i == q * 6 + k
  {
    q, k := i / 6, i % 6;
  }

  /** Within a training batch only the fifth event steps the optimizer. */
  lemma OnlyFifthSteps(k: nat)
    requires k < 6 && TrainBatchEvents[k] == Step
    ensures k == 4
  {
  }

  /**
   * The metrics of the first k training batches: batch j is scored on the
   * network's output in training mode with the parameters after steps0 + j
   * optimizer steps, one step per earlier batch.
   */
  function TrainScores(c: Collaborators, steps0: nat, loader: seq<Batch>, k: nat): (s: seq<Scores>)
    requires k <= |loader|
    ensures |s| == k
  {
    if k == 0 then []
    else
      var j := k - 1;
      TrainScores(c, steps0, loader, j) + [c.metrics(c.forward(steps0 + j, true, loader[j].images), loader[j].labels)]
  }

  /** The losses of the first k training batches, from the same forward passes as their metrics. */
  function TrainLosses(c: Collaborators, steps0: nat, loader: seq<Batch>, k: nat): (s: seq<real>)
    requires k <= |loader|
    ensures |s| == k
  {
    if k == 0 then []
    else
      var j := k - 1;
      TrainLosses(c, steps0, loader, j) + [c.loss(c.forward(steps0 + j, true, loader[j].images), loader[j].labels)]
  }

  /** The metrics of the first k evaluation batches: the parameters do not change during evaluation. */
  function TestScores(c: Collaborators, steps: nat, loader: seq<Batch>, k: nat): (s: seq<Scores>)
    requires k <= |loader|
    ensures |s| == k
  {
    if k == 0 then []
    else
      var j := k - 1;
      TestScores(c, steps, loader, j) + [c.metrics(c.forward(steps, false, loader[j].images), loader[j].labels)]
  }

  /**
   * Training batch j is scored on the network's output in training mode with
   * the parameters after steps0 + j steps, and its loss comes from that output.
   */
  lemma {:induction false} TrainScoresIndex(c: Collaborators, steps0: nat, loader: seq<Batch>, k: nat, j: nat)
    requires j < k <= |loader|
    ensures TrainScores(c, steps0, loader, k)[j] == c.metrics(c.forward(steps0 + j, true, loader[j].images), loader[j].labels)
    ensures TrainLosses(c, steps0, loader, k)[j] == c.loss(c.forward(steps0 + j, true, loader[j].images), loader[j].labels)
    decreases k
  {
    if j < k - 1 {
      TrainScoresIndex(c, steps0, loader, k - 1, j);
    }
  }

  /** Every evaluation batch is scored on the output in evaluation mode with the same parameters. */
  lemma {:induction false} TestScoresIndex(c: Collaborators, steps: nat, loader: seq<Batch>, k: nat, j: nat)
    requires j < k <= |loader|
    ensures TestScores(c, steps, loader, k)[j] == c.metrics(c.forward(steps, false, loader[j].images), loader[j].labels)
    decreases k
  {
    if j < k - 1 {
      TestScoresIndex(c, steps, loader, k - 1, j);
    }
  }

  datatype TrainReport = TrainReport(scores: Scores, loss: real)

  /** The evaluation returns the averaged accuracy and unetScore; the rest is logged. */
  datatype TestReport = TestReport(scores: Scores, unetScore: real)

  /** The report of a training epoch that starts with the parameters after steps0 steps. */
  function TrainEpochReport(c: Collaborators, steps0: nat, loader: seq<Batch>): (r: Result<TrainReport, EpochError>)
    ensures r.Success? <==> SampleCount(loader) > 0
  {
    match Average(Total(TrainScores(c, steps0, loader, |loader|)), SampleCount(loader))
    case Failure(e) => Failure(e)
    case Success(avg) => Success(TrainReport(avg, Sum(TrainLosses(c, steps0, loader, |loader|)) / |loader| as real))
  }

  /** The report of an evaluation pass with the parameters after `steps` steps. */
  function TestEpochReport(c: Collaborators, steps: nat, loader: seq<Batch>): (r: Result<TestReport, EpochError>)
    ensures r.Success? <==> SampleCount(loader) > 0
  {
    match Average(Total(TestScores(c, steps, loader, |loader|)), SampleCount(loader))
    case Failure(e) => Failure(e)
    case Success(avg) => Success(TestReport(avg, avg.js + avg.dc))
  }

  /** Multiplying an average back by the number of samples gives the sums again. */
  lemma AverageScalesBack(sums: Scores, length: nat)
    requires length > 0
    ensures Times(Average(sums, length).value, length as real) == sums
  {
    var n := length as real;
    var a := Average(sums, length).value;
    assert a.acc * n == sums.acc && a.se * n == sums.se && a.sp * n == sums.sp;
    assert a.pc * n == sums.pc && a.f1 * n == sums.f1 && a.js * n == sums.js && a.dc * n == sums.dc;
  }

  /** A training epoch reports, for every metric, the sum of its per-batch values divided by the number of samples. */
  lemma TrainEpochReportMeans(c: Collaborators, steps0: nat, loader: seq<Batch>)
    requires SampleCount(loader) > 0
    ensures Times(TrainEpochReport(c, steps0, loader).value.scores, SampleCount(loader) as real)
            == Total(TrainScores(c, steps0, loader, |loader|))
  {
    AverageScalesBack(Total(TrainScores(c, steps0, loader, |loader|)), SampleCount(loader));
  }

  /**
   * A training epoch that sees a sample has at least one batch, and reports the
   * sum of the per-batch losses divided by the number of batches (not by the
   * number of samples, as the metrics are).
   */
  lemma TrainEpochLoss(c: Collaborators, steps0: nat, loader: seq<Batch>)
    requires SampleCount(loader) > 0
    ensures |loader| > 0
    ensures TrainEpochReport(c, steps0, loader).value.loss == Sum(TrainLosses(c, steps0, loader, |loader|)) / |loader| as real
  {
  }

  /**
   * An evaluation pass reports every metric as its per-batch sum over the number
   * of samples, and unetScore is the averaged Jaccard plus the averaged Dice.
   */
  lemma TestEpochReportMeans(c: Collaborators, steps: nat, loader: seq<Batch>)
    requires SampleCount(loader) > 0
    ensures Times(TestEpochReport(c, steps, loader).value.scores, SampleCount(loader) as real)
            == Total(TestScores(c, steps, loader, |loader|))
    ensures TestEpochReport(c, steps, loader).value.unetScore
            == TestEpochReport(c, steps, loader).value.scores.js + TestEpochReport(c, steps, loader).value.scores.dc
  {
    AverageScalesBack(Total(TestScores(c, steps, loader, |loader|)), SampleCount(loader));
  }

  /** Batch k's metric values are m per sample: m times the batch's number of samples. */
  predicate EverySampleScores(xs: seq<Scores>, loader: seq<Batch>, m: Scores)
  {
    |xs| == |loader| && forall k :: 0 <= k < |xs| ==> xs[k] == Times(m, Size(loader[k]) as real)
  }

  lemma PlusTimes(m: Scores, a: real, b: real)
    ensures Plus(Times(m, a), Times(m, b)) == Times(m, a + b)
  {
    assert m.acc * a + m.acc * b == m.acc * (a + b);
    assert m.se * a + m.se * b == m.se * (a + b);
    assert m.sp * a + m.sp * b == m.sp * (a + b);
    assert m.pc * a + m.pc * b == m.pc * (a + b);
    assert m.f1 * a + m.f1 * b == m.f1 * (a + b);
    assert m.js * a + m.js * b == m.js * (a + b);
    assert m.dc * a + m.dc * b == m.dc * (a + b);
  }

  /**
   * When every sample of an epoch scores m, so that each batch contributes m
   * times its number of samples, the running sums are m times the sample count.
   */
  lemma {:induction false} TotalOfUniform(xs: seq<Scores>, loader: seq<Batch>, m: Scores, k: nat)
    requires EverySampleScores(xs, loader, m) && k <= |xs|
    ensures Total(xs[..k]) == Times(m, SamplesSeen(loader, k) as real)
    decreases k
  {
    if k == 0 {
      assert xs[..k] == [];
      assert Times(m, 0.0) == NoScores;
    } else {
      TotalOfUniform(xs, loader, m, k - 1);
      assert xs[..k][..k - 1] == xs[..k - 1];
      assert Total(xs[..k]) == Plus(Total(xs[..k - 1]), xs[k - 1]);
      PlusTimes(m, SamplesSeen(loader, k - 1) as real, Size(loader[k - 1]) as real);
    }
  }

  lemma Cancel(x: real, n: real)
    requires n != 0.0
    ensures x * n / n == x
  {
  }

  /** Averaging m times n over n samples gives m back. */
  lemma AverageOfUniform(m: Scores, length: nat)
    requires length > 0
    ensures Average(Times(m, length as real), length) == Success(m)
  {
    var n := length as real;
    var sums := Times(m, n);
    assert Average(sums, length)
        == Success(Scores(sums.acc / n, sums.se / n, sums.sp / n, sums.pc / n, sums.f1 / n, sums.js / n, sums.dc / n));
    Cancel(m.acc, n); Cancel(m.se, n); Cancel(m.sp, n); Cancel(m.pc, n);
    Cancel(m.f1, n); Cancel(m.js, n); Cancel(m.dc, n);
    assert sums.acc / n == m.acc && sums.se / n == m.se && sums.sp / n == m.sp && sums.pc / n == m.pc;
    assert sums.f1 / n == m.f1 && sums.js / n == m.js && sums.dc / n == m.dc;
  }

  /** The average of an epoch in which every sample scores m is m. */
  lemma UniformAverage(xs: seq<Scores>, loader: seq<Batch>, m: Scores)
    requires EverySampleScores(xs, loader, m) && SampleCount(loader) > 0
    ensures Average(Total(xs), SampleCount(loader)) == Success(m)
  {
    TotalOfUniform(xs, loader, m, |xs|);
    assert xs[..|xs|] == xs;
    AverageOfUniform(m, SampleCount(loader));
  }

  /**
   * An evaluation pass in which every sample scores m (the per-batch metrics
   * are per-sample sums) reports m itself, and unetScore is m's Jaccard plus
   * its Dice: a perfect segmentation, for which both are 1, gives 2.
   */
  lemma TestEpochUniform(c: Collaborators, steps: nat, loader: seq<Batch>, m: Scores)
    requires SampleCount(loader) > 0
    requires EverySampleScores(TestScores(c, steps, loader, |loader|), loader, m)
    ensures TestEpochReport(c, steps, loader) == Success(TestReport(m, m.js + m.dc))
  {
    UniformAverage(TestScores(c, steps, loader, |loader|), loader, m);
  }

  /** A training epoch in which every sample scores m reports m as its averaged metrics. */
  lemma TrainEpochUniform(c: Collaborators, steps0: nat, loader: seq<Batch>, m: Scores)
    requires SampleCount(loader) > 0
    requires EverySampleScores(TrainScores(c, steps0, loader, |loader|), loader, m)
    ensures TrainEpochReport(c, steps0, loader).Success?
    ensures TrainEpochReport(c, steps0, loader).value.scores == m
  {
    UniformAverage(TrainScores(c, steps0, loader, |loader|), loader, m);
  }

  /** The samples' scores in batch order. */
  function Flatten(groups: seq<seq<Scores>>): seq<Scores>
    decreases |groups|
  {
    if groups == [] then [] else Flatten(groups[..|groups| - 1]) + groups[|groups| - 1]
  }

  lemma PlusAssociates(a: Scores, b: Scores, c: Scores)
    ensures Plus(Plus(a, b), c) == Plus(a, Plus(b, c))
  {
  }

  lemma {:induction false} TotalConcat(xs: seq<Scores>, ys: seq<Scores>)
    ensures Total(xs + ys) == Plus(Total(xs), Total(ys))
    decreases |ys|
  {
    if ys == [] {
      assert xs + ys == xs;
      assert Plus(Total(xs), NoScores) == Total(xs);
    } else {
      var n := |ys| - 1;
      var init, last := ys[..n], ys[n];
      assert ys == init + [last];
      assert xs + ys == (xs + init) + [last];
      TotalAppend(xs + init, last);
      TotalAppend(init, last);
      TotalConcat(xs, init);
      PlusAssociates(Total(xs), Total(init), last);
    }
  }

  /**
   * Batch k's metric values are the sums of groups[k], the scores of its own
   * samples, one per sample.
   */
  predicate PerSampleScores(xs: seq<Scores>, loader: seq<Batch>, groups: seq<seq<Scores>>)
  {
    && |xs| == |loader| == |groups|
    && forall k :: 0 <= k < |xs| ==> xs[k] == Total(groups[k]) && |groups[k]| == Size(loader[k])
  }

  /** Summing per-batch sums gives the sum over all samples, and the sample count is their number. */
  lemma {:induction false} EpochSums(xs: seq<Scores>, loader: seq<Batch>, groups: seq<seq<Scores>>, k: nat)
    requires PerSampleScores(xs, loader, groups) && k <= |xs|
    ensures Total(xs[..k]) == Total(Flatten(groups[..k]))
    ensures SamplesSeen(loader, k) == |Flatten(groups[..k])|
    decreases k
  {
    if k == 0 {
      assert xs[..k] == [] && groups[..k] == [];
    } else {
      EpochSums(xs, loader, groups, k - 1);
      assert xs[..k][..k - 1] == xs[..k - 1];
      assert groups[..k][..k - 1] == groups[..k - 1];
      assert Flatten(groups[..k]) == Flatten(groups[..k - 1]) + groups[k - 1];
      TotalConcat(Flatten(groups[..k - 1]), groups[k - 1]);
    }
  }

  /**
   * An evaluation pass reports the same whichever way the same samples are
   * split into batches: a batch of ten or two batches of five give one report.
   */
  lemma TestEpochPartition(c: Collaborators, steps: nat, loader1: seq<Batch>, groups1: seq<seq<Scores>>,
                           loader2: seq<Batch>, groups2: seq<seq<Scores>>)
    requires PerSampleScores(TestScores(c, steps, loader1, |loader1|), loader1, groups1)
    requires PerSampleScores(TestScores(c, steps, loader2, |loader2|), loader2, groups2)
    requires Flatten(groups1) == Flatten(groups2)
    ensures TestEpochReport(c, steps, loader1) == TestEpochReport(c, steps, loader2)
  {
    var xs1, xs2 := TestScores(c, steps, loader1, |loader1|), TestScores(c, steps, loader2, |loader2|);
    EpochSums(xs1, loader1, groups1, |loader1|);
    EpochSums(xs2, loader2, groups2, |loader2|);
    assert xs1[..|loader1|] == xs1 && groups1[..|loader1|] == groups1;
    assert xs2[..|loader2|] == xs2 && groups2[..|loader2|] == groups2;
  }

  datatype EpochLog = EpochLog(train: TrainReport, test: TestReport)

  /** Python's range(numEpochs) runs no iteration for a negative count. */
  function EpochCount(numEpochs: int): (n: nat)
    ensures numEpochs <= 0 ==> n == 0
    ensures 0 <= numEpochs ==> n == numEpochs
  {
    if numEpochs < 0 then 0 else numEpochs
  }

  /** The optimizer steps taken by the first e training epochs. */
  function StepsBefore(trainLoader: nat -> seq<Batch>, e: nat): nat
  {
    if e == 0 then 0 else StepsBefore(trainLoader, e - 1) + |trainLoader(e - 1)|
  }

  /** The first e epochs take no optimizer step exactly when none of them has a batch. */
  lemma {:induction false} NoStepsBefore(trainLoader: nat -> seq<Batch>, e: nat)
    ensures StepsBefore(trainLoader, e) == 0 <==> forall j :: 0 <= j < e ==> trainLoader(j) == []
    decreases e
  {
    if e > 0 {
      NoStepsBefore(trainLoader, e - 1);
    }
  }

  function EpochEvents(trainBatches: nat, testBatches: nat): seq<Event>
  {
    [TrainMode] + Repeat(TrainBatchEvents, trainBatches) + [EvalMode] + Repeat(TestBatchEvents, testBatches)
  }

  function RunEvents(trainLoader: nat -> seq<Batch>, testBatches: nat, e: nat): seq<Event>
  {
    if e == 0 then [] else RunEvents(trainLoader, testBatches, e - 1) + EpochEvents(|trainLoader(e - 1)|, testBatches)
  }

  /** How often x happens in events. */
  function Count(events: seq<Event>, x: Event): nat
    decreases |events|
  {
    if events == [] then 0
    else Count(events[..|events| - 1], x) + (if events[|events| - 1] == x then 1 else 0)
  }

  lemma CountAppend(events: seq<Event>, e: Event, x: Event)
    ensures Count(events + [e], x) == Count(events, x) + (if e == x then 1 else 0)
  {
    assert (events + [e])[..|events|] == events;
  }

  lemma {:induction false} CountConcat(a: seq<Event>, b: seq<Event>, x: Event)
    ensures Count(a + b, x) == Count(a, x) + Count(b, x)
    decreases |b|
  {
    if b == [] {
      assert a + b == a;
    } else {
      var n := |b| - 1;
      var init, last := b[..n], b[n];
      assert b == init + [last];
      assert a + b == (a + init) + [last];
      CountAppend(a + init, last, x);
      CountAppend(init, last, x);
      CountConcat(a, init, x);
    }
  }

  lemma {:induction false} CountRepeat(block: seq<Event>, n: nat, x: Event)
    ensures Count(Repeat(block, n), x) == n * Count(block, x)
  {
    if n > 0 {
      CountRepeat(block, n - 1, x);
      CountConcat(Repeat(block, n - 1), block, x);
      assert n * Count(block, x) == (n - 1) * Count(block, x) + Count(block, x);
    }
  }

  lemma SingleCount(x: Event, y: Event)
    ensures Count([x], y) == if x == y then 1 else 0
  {
    assert [x][..0] == [];
  }

  /** A training batch steps the optimizer once; neither batch kind switches modes; evaluation never steps. */
  lemma {:induction false} CountAbsent(events: seq<Event>, x: Event)
    requires x !in events
    ensures Count(events, x) == 0
    decreases |events|
  {
    if events != [] {
      var n := |events| - 1;
      assert x !in events[..n];
      CountAbsent(events[..n], x);
    }
  }

  lemma BatchCounts(x: Event)
    requires x == TrainMode || x == EvalMode || x == Step
    ensures Count(TrainBatchEvents, x) == if x == Step then 1 else 0
    ensures Count(TestBatchEvents, x) == 0
  {
    if x == Step {
      var before := [ZeroGrad, Forward, Loss, Backward];
      assert TrainBatchEvents == before + [Step] + [Accumulate];
      CountAppend(before + [Step], Accumulate, x);
      CountAppend(before, Step, x);
      CountAbsent(before, x);
    } else {
      CountAbsent(TrainBatchEvents, x);
    }
    CountAbsent(TestBatchEvents, x);
  }

  /** One epoch switches to training mode once, to evaluation mode once, and steps once per training batch. */
  lemma EpochEventCount(trainBatches: nat, testBatches: nat, x: Event)
    requires x == TrainMode || x == EvalMode || x == Step
    ensures Count(EpochEvents(trainBatches, testBatches), x) == if x == Step then trainBatches else 1
  {
    var train := [TrainMode] + Repeat(TrainBatchEvents, trainBatches);
    var test := [EvalMode] + Repeat(TestBatchEvents, testBatches);
    assert EpochEvents(trainBatches, testBatches) == train + test;
    CountConcat(train, test, x);
    CountConcat([TrainMode], Repeat(TrainBatchEvents, trainBatches), x);
    CountConcat([EvalMode], Repeat(TestBatchEvents, testBatches), x);
    CountRepeat(TrainBatchEvents, trainBatches, x);
    CountRepeat(TestBatchEvents, testBatches, x);
    BatchCounts(x);
    SingleCount(TrainMode, x);
    SingleCount(EvalMode, x);
    assert testBatches * Count(TestBatchEvents, x) == 0;
    assert trainBatches * Count(TrainBatchEvents, x) == if x == Step then trainBatches else 0;
  }

  /**
   * The first e epochs of a run switch to training mode e times and to
   * evaluation mode e times (one evaluation pass per epoch), and step the
   * optimizer once per training batch of those epochs.
   */
  lemma {:induction false} RunEventsCounts(trainLoader: nat -> seq<Batch>, testBatches: nat, e: nat)
    ensures Count(RunEvents(trainLoader, testBatches, e), TrainMode) == e
    ensures Count(RunEvents(trainLoader, testBatches, e), EvalMode) == e
    ensures Count(RunEvents(trainLoader, testBatches, e), Step) == StepsBefore(trainLoader, e)
  {
    if e > 0 {
      RunEventsCounts(trainLoader, testBatches, e - 1);
      var before := RunEvents(trainLoader, testBatches, e - 1);
      var n := |trainLoader(e - 1)|;
      var epoch := EpochEvents(n, testBatches);
      assert RunEvents(trainLoader, testBatches, e) == before + epoch;
      CountConcat(before, epoch, TrainMode);
      CountConcat(before, epoch, EvalMode);
      CountConcat(before, epoch, Step);
      EpochEventCount(n, testBatches, TrainMode);
      EpochEventCount(n, testBatches, EvalMode);
      EpochEventCount(n, testBatches, Step);
    }
  }

  lemma RunEventsStep(trace0: seq<Event>, traceBefore: seq<Event>, traceAfter: seq<Event>,
                      trainLoader: nat -> seq<Batch>, testBatches: nat, e: nat)
    requires traceBefore == trace0 + RunEvents(trainLoader, testBatches, e)
    requires traceAfter == traceBefore + EpochEvents(|trainLoader(e)|, testBatches)
    ensures traceAfter == trace0 + RunEvents(trainLoader, testBatches, e + 1)
  {
    assert RunEvents(trainLoader, testBatches, e + 1)
        == RunEvents(trainLoader, testBatches, e) + EpochEvents(|trainLoader(e)|, testBatches);
  }

  /**
   * The reports of one iteration of the epoch loop whose training pass starts
   * after `steps` optimizer steps: the evaluation pass runs with the parameters
   * left by the training pass, one step per training batch later.
   */
  function EpochReport(c: Collaborators, steps: nat, trainBatches: seq<Batch>, testLoader: seq<Batch>)
    : (r: Result<EpochLog, EpochError>)
    ensures r.Success? <==> SampleCount(trainBatches) > 0 && SampleCount(testLoader) > 0
  {
    match TrainEpochReport(c, steps, trainBatches)
    case Failure(e) => Failure(e)
    case Success(train) =>
      match TestEpochReport(c, steps + |trainBatches|, testLoader)
      case Failure(e) => Failure(e)
      case Success(test) => Success(EpochLog(train, test))
  }

  /** One iteration of the epoch loop, given the optimizer steps taken before it and its training batches. */
  type EpochFn = (nat, seq<Batch>) -> Result<EpochLog, EpochError>

  /** The iteration of the epoch loop of a run with collaborators c and evaluation batches testLoader. */
  function EpochOf(c: Collaborators, testLoader: seq<Batch>): EpochFn
  {
    (steps: nat, trainBatches: seq<Batch>) => EpochReport(c, steps, trainBatches, testLoader)
  }

  /**
   * The outcome of the first n iterations of the epoch loop of a run that
   * starts after steps0 optimizer steps: the logs of the epochs in order, or
   * the error of the first epoch that fails, which ends the run.
   */
  function Run(epoch: EpochFn, steps0: nat, trainLoader: nat -> seq<Batch>, n: nat): (r: Result<seq<EpochLog>, EpochError>)
    ensures r.Success? ==> |r.value| == n
  {
    if n == 0 then Success([])
    else
      match Run(epoch, steps0, trainLoader, n - 1)
      case Failure(e) => Failure(e)
      case Success(logs) =>
        match epoch(steps0 + StepsBefore(trainLoader, n - 1), trainLoader(n - 1))
        case Failure(e) => Failure(e)
        case Success(log) => Success(logs + [log])
  }

  /**
   * An epoch logs the training report of its batches and then the evaluation
   * report with the parameters left by its training pass.
   */
  lemma EpochReportParts(c: Collaborators, steps: nat, trainBatches: seq<Batch>, testLoader: seq<Batch>, log: EpochLog)
    ensures EpochOf(c, testLoader)(steps, trainBatches) == Success(log)
        <==> Success(log.train) == TrainEpochReport(c, steps, trainBatches)
             && Success(log.test) == TestEpochReport(c, steps + |trainBatches|, testLoader)
  {
  }

  /** An epoch succeeds exactly when its training batches and the evaluation set each hold a sample. */
  lemma EpochReportSucceeds(c: Collaborators, steps: nat, trainBatches: seq<Batch>, testLoader: seq<Batch>)
    ensures EpochOf(c, testLoader)(steps, trainBatches).Success?
        <==> SampleCount(trainBatches) > 0 && SampleCount(testLoader) > 0
  {
  }

  /** A run whose first n epochs went through logs them and continues with epoch n. */
  lemma RunStep(epoch: EpochFn, steps0: nat, trainLoader: nat -> seq<Batch>, n: nat,
                logs: seq<EpochLog>, steps: nat, report: Result<EpochLog, EpochError>)
    requires Run(epoch, steps0, trainLoader, n) == Success(logs)
    requires steps == steps0 + StepsBefore(trainLoader, n)
    requires report == epoch(steps, trainLoader(n))
    ensures Run(epoch, steps0, trainLoader, n + 1)
         == if report.Success? then Success(logs + [report.value]) else Failure(report.error)
  {
  }

  /** Once an epoch has failed, no later epoch runs. */
  lemma {:induction false} RunStops(epoch: EpochFn, steps0: nat, trainLoader: nat -> seq<Batch>,
                                    n: nat, m: nat, e: EpochError)
    requires n <= m
    requires Run(epoch, steps0, trainLoader, n) == Failure(e)
    ensures Run(epoch, steps0, trainLoader, m) == Failure(e)
    decreases m
  {
    if n < m {
      RunStops(epoch, steps0, trainLoader, n, m - 1, e);
    }
  }

  /**
   * A run that goes through its first n epochs logs exactly n epochs, and its
   * log e is the report of e's training batches, run from the parameters after
   * the optimizer steps of the epochs before e.
   */
  lemma {:induction false} RunLogs(epoch: EpochFn, steps0: nat, trainLoader: nat -> seq<Batch>,
                                   n: nat, logs: seq<EpochLog>, e: nat)
    requires Run(epoch, steps0, trainLoader, n) == Success(logs)
    ensures |logs| == n
    ensures e < n ==> Success(logs[e]) == epoch(steps0 + StepsBefore(trainLoader, e), trainLoader(e))
    decreases n
  {
    if n > 0 {
      var before := Run(epoch, steps0, trainLoader, n - 1);
      var report := epoch(steps0 + StepsBefore(trainLoader, n - 1), trainLoader(n - 1));
      assert before.Success? && report.Success?;
      assert logs == before.value + [report.value];
      RunLogs(epoch, steps0, trainLoader, n - 1, before.value, e);
      if e < n - 1 {
        assert logs[e] == before.value[e];
      }
    }
  }

  /** Each of the first n training epochs sees at least one sample. */
  ghost predicate TrainingSampled(trainLoader: nat -> seq<Batch>, n: nat)
  {
    n == 0 || (TrainingSampled(trainLoader, n - 1) && SampleCount(trainLoader(n - 1)) > 0)
  }

  /** Every training epoch and (when there is an epoch at all) the evaluation set see at least one sample. */
  ghost predicate RunSucceeds(trainLoader: nat -> seq<Batch>, testLoader: seq<Batch>, numEpochs: int)
  {
    && TrainingSampled(trainLoader, EpochCount(numEpochs))
    && (numEpochs > 0 ==> SampleCount(testLoader) > 0)
  }

  lemma {:induction false} TrainingSampledAll(trainLoader: nat -> seq<Batch>, n: nat)
    ensures TrainingSampled(trainLoader, n) <==> forall e :: 0 <= e < n ==> SampleCount(trainLoader(e)) > 0
  {
    if n > 0 {
      TrainingSampledAll(trainLoader, n - 1);
    }
  }

  /** The first n epochs go through exactly when each of them and the evaluation set hold a sample. */
  lemma {:induction false} RunGoesThrough(c: Collaborators, steps0: nat, trainLoader: nat -> seq<Batch>,
                                          testLoader: seq<Batch>, n: nat)
    ensures Run(EpochOf(c, testLoader), steps0, trainLoader, n).Success?
        <==> TrainingSampled(trainLoader, n) && (n > 0 ==> SampleCount(testLoader) > 0)
  {
    if n > 0 {
      RunGoesThrough(c, steps0, trainLoader, testLoader, n - 1);
      EpochReportSucceeds(c, steps0 + StepsBefore(trainLoader, n - 1), trainLoader(n - 1), testLoader);
    }
  }

  /** A run of numEpochs epochs succeeds exactly when no training epoch and not the evaluation set is empty. */
  lemma RunSucceedsExactly(c: Collaborators, steps0: nat, trainLoader: nat -> seq<Batch>, testLoader: seq<Batch>,
                           numEpochs: int)
    ensures Run(EpochOf(c, testLoader), steps0, trainLoader, EpochCount(numEpochs)).Success?
        <==> RunSucceeds(trainLoader, testLoader, numEpochs)
  {
    RunGoesThrough(c, steps0, trainLoader, testLoader, EpochCount(numEpochs));
  }

  /**
   * The training process: the network's parameters (named by the number of
   * optimizer steps applied), its training/evaluation mode, and the trace of
   * what was done to them.
   */
  class Session {
    var steps: nat
    var training: bool
    var trace: seq<Event>

    constructor ()
      ensures steps == 0 && training && trace == []
    {
      steps := 0;
      training := true;
      trace := [];
    }

    /**
     * One training batch: clear the gradients, run the network, compute the
     * loss, back-propagate, step the optimizer, and only then score the output
     * of the forward pass, which ran with the parameters from before the step.
     */
    method TrainBatch(c: Collaborators, batch: Batch) returns (scores: Scores, loss: real)
      requires training
      modifies this
      ensures training && steps == old(steps) + 1
      ensures trace == old(trace) + TrainBatchEvents
      ensures scores == c.metrics(c.forward(old(steps), true, batch.images), batch.labels)
      ensures loss == c.loss(c.forward(old(steps), true, batch.images), batch.labels)
    {
      trace := trace + [ZeroGrad];
      var segRes := c.forward(steps, training, batch.images);
      trace := trace + [Forward];
      loss := c.loss(segRes, batch.labels);
      trace := trace + [Loss];
      trace := trace + [Backward];
      steps := steps + 1;
      trace := trace + [Step];
      scores := c.metrics(segRes, batch.labels);
      trace := trace + [Accumulate];
    }

    /** One training epoch over the batches the loader yields in it. */
    method TrainEpoch(c: Collaborators, loader: seq<Batch>) returns (r: Result<TrainReport, EpochError>)
      modifies this
      ensures training && steps == old(steps) + |loader|
      ensures trace == old(trace) + [TrainMode] + Repeat(TrainBatchEvents, |loader|)
      ensures r == TrainEpochReport(c, old(steps), loader)
    {
      var sums := NoScores;
      var length := 0;
      var epochLoss := 0.0;

      training := true;
      trace := trace + [TrainMode];
      ghost var steps0, trace0 := steps, trace;
      for k := 0 to |loader|
        invariant training && steps == steps0 + k
        invariant trace == trace0 + Repeat(TrainBatchEvents, k)
        invariant sums == Total(TrainScores(c, steps0, loader, k))
        invariant length == SamplesSeen(loader, k)
        invariant epochLoss == Sum(TrainLosses(c, steps0, loader, k))
      {
        ghost var traceBefore := trace;
        var batch := loader[k];
        var scores, loss := TrainBatch(c, batch);
        epochLoss := epochLoss + loss;
        sums := Plus(sums, scores);
        length := length + Size(batch);

        RepeatStep(trace0, traceBefore, trace, TrainBatchEvents, k);
        TotalAppend(TrainScores(c, steps0, loader, k), scores);
        SumAppend(TrainLosses(c, steps0, loader, k), loss);
      }

      var averaged := Average(sums, length);
      if averaged.Failure? {
        return Failure(averaged.error);
      }
      epochLoss := epochLoss / |loader| as real;
      r := Success(TrainReport(averaged.value, epochLoss));
    }

    /** One evaluation pass: no gradient step, the network in evaluation mode. */
    method Test(c: Collaborators, loader: seq<Batch>) returns (r: Result<TestReport, EpochError>)
      modifies this
      ensures !training && steps == old(steps)
      ensures trace == old(trace) + [EvalMode] + Repeat(TestBatchEvents, |loader|)
      ensures r == TestEpochReport(c, steps, loader)
    {
      var sums := NoScores;
      var length := 0;

      training := false;
      trace := trace + [EvalMode];
      ghost var trace0 := trace;
      for k := 0 to |loader|
        invariant !training && steps == old(steps)
        invariant trace == trace0 + Repeat(TestBatchEvents, k)
        invariant sums == Total(TestScores(c, steps, loader, k))
        invariant length == SamplesSeen(loader, k)
      {
        ghost var traceBefore := trace;
        var batch := loader[k];
        var segRes := c.forward(steps, training, batch.images);
        trace := trace + [Forward];
        var scores := c.metrics(segRes, batch.labels);
        sums := Plus(sums, scores);
        length := length + Size(batch);
        trace := trace + [Accumulate];

        assert trace == traceBefore + TestBatchEvents;
        RepeatStep(trace0, traceBefore, trace, TestBatchEvents, k);
        TotalAppend(TestScores(c, steps, loader, k), scores);
      }

      var averaged := Average(sums, length);
      if averaged.Failure? {
        return Failure(averaged.error);
      }
      var unetScore := averaged.value.js + averaged.value.dc;
      r := Success(TestReport(averaged.value, unetScore));
    }

    /** One iteration of the epoch loop: a training epoch, then one evaluation pass. */
    method Epoch(c: Collaborators, trainBatches: seq<Batch>, testLoader: seq<Batch>) returns (r: Result<EpochLog, EpochError>)
      modifies this
      ensures r == EpochOf(c, testLoader)(old(steps), trainBatches)
      ensures r.Success? ==> steps == old(steps) + |trainBatches|
      ensures r.Success? ==> trace == old(trace) + EpochEvents(|trainBatches|, |testLoader|)
      ensures r.Success? ==> !training
    {
      var trainReport := TrainEpoch(c, trainBatches);
      if trainReport.Failure? {
        return Failure(trainReport.error);
      }
      var testReport := Test(c, testLoader);
      if testReport.Failure? {
        return Failure(testReport.error);
      }
      r := Success(EpochLog(trainReport.value, testReport.value));
    }

    /**
     * The whole run: numEpochs times a training epoch followed by exactly one
     * evaluation pass. trainLoader(e) is what the (shuffling) training loader
     * yields in epoch e; the evaluation loader yields the same batches every time.
     */
    method Train(c: Collaborators, trainLoader: nat -> seq<Batch>, testLoader: seq<Batch>, numEpochs: int)
      returns (r: Result<seq<EpochLog>, EpochError>)
      modifies this
      ensures r == Run(EpochOf(c, testLoader), old(steps), trainLoader, EpochCount(numEpochs))
      ensures r.Success? ==> steps == old(steps) + StepsBefore(trainLoader, EpochCount(numEpochs))
      ensures r.Success? ==> trace == old(trace) + [TrainMode] + RunEvents(trainLoader, |testLoader|, EpochCount(numEpochs))
      ensures r.Success? ==> (training <==> EpochCount(numEpochs) == 0)
    {
      training := true;
      trace := trace + [TrainMode];
      ghost var steps0, trace0 := steps, trace;
      var logs: seq<EpochLog> := [];
      for epoch := 0 to EpochCount(numEpochs)
        invariant steps == steps0 + StepsBefore(trainLoader, epoch)
        invariant trace == trace0 + RunEvents(trainLoader, |testLoader|, epoch)
        invariant Run(EpochOf(c, testLoader), steps0, trainLoader, epoch) == Success(logs)
        invariant training <==> epoch < 1
      {
        ghost var traceBefore, stepsBefore := trace, steps;
        var log := Epoch(c, trainLoader(epoch), testLoader);
        RunStep(EpochOf(c, testLoader), steps0, trainLoader, epoch, logs, stepsBefore, log);
        if log.Failure? {
          RunStops(EpochOf(c, testLoader), steps0, trainLoader, epoch + 1, EpochCount(numEpochs), log.error);
          return Failure(log.error);
        }
        RunEventsStep(trace0, traceBefore, trace, trainLoader, |testLoader|, epoch);
        logs := logs + [log.value];
      }
      return Success(logs);
    }
  }

}
