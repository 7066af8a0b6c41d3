/** The arithmetic of the training loop: the batch count of Model.run_epoch and the
    per-epoch learning-rate decay of Model.train. */
module Training {

  /** `(len(train) + batch_size - 1) // batch_size`, the ceiling of n / batchSize:
      enough batches to hold every sentence, and one batch fewer would not be. Both
      operands are non-negative, so Python's floor division and Dafny's agree. A zero
      batch size raises ZeroDivisionError in the source and is excluded here. */
  function NBatches(n: nat, batchSize: nat): (k: nat)
    requires batchSize > 0
    ensures k * batchSize >= n
    ensures n > 0 ==> (k - 1) * batchSize < n
    ensures n == 0 ==> k == 0
  {
    (n + batchSize - 1) / batchSize
  }

  /** No smaller count covers the set: NBatches is the least k with k * batchSize >= n. */
  lemma {:induction false} NBatchesIsLeast(n: nat, batchSize: nat, k: nat)
    requires batchSize > 0
    requires k * batchSize >= n
    ensures NBatches(n, batchSize) <= k
  {
    var q := NBatches(n, batchSize);
    if q > k && n > 0 {
      assert q - 1 >= k;
      MulMonotone(k, q - 1, batchSize);
    }
  }

  lemma MulMonotone(a: nat, b: nat, c: nat)
    requires a <= b
    ensures a * c <= b * c
  {
  }

  function Pow(x: real, k: nat): real
  {
    if k == 0 then 1.0 else x * Pow(x, k - 1)
  }

  /** The learning rate after k decays from lr0. */
  function LrAfter(lr0: real, decay: real, k: nat): real
  {
    lr0 * Pow(decay, k)
  }

  /** `range(nepochs)` runs no epoch for a negative count. */
  function EpochCount(nepochs: int): nat
  {
    if nepochs > 0 then nepochs else 0
  }

  lemma {:induction false} PowAdd(x: real, a: nat, b: nat)
    ensures Pow(x, a + b) == Pow(x, a) * Pow(x, b)
  {
    if a > 0 {
      PowAdd(x, a - 1, b);
      assert Pow(x, a + b) == x * Pow(x, a - 1 + b);
    }
  }

  /** Decaying in two stages is decaying once by the total count: training resumed from
      the rate reached after a epochs continues the same schedule. */
  lemma {:induction false} LrAfterComposes(lr0: real, decay: real, a: nat, b: nat)
    ensures LrAfter(LrAfter(lr0, decay, a), decay, b) == LrAfter(lr0, decay, a + b)
  {
    PowAdd(decay, a, b);
  }

  lemma {:induction false} PowInUnit(x: real, k: nat)
    requires 0.0 < x <= 1.0
    ensures 0.0 < Pow(x, k) <= 1.0
  {
    if k > 0 {
      PowInUnit(x, k - 1);
      var y := Pow(x, k - 1);
      assert x * y <= 1.0 * y;
    }
  }

  /** With a positive rate and a decay factor in (0, 1], the rate stays positive and
      never grows from one epoch to the next. */
  lemma {:induction false} LrDecays(lr0: real, decay: real, k: nat)
    requires lr0 > 0.0 && 0.0 < decay <= 1.0
    ensures 0.0 < LrAfter(lr0, decay, k + 1) <= LrAfter(lr0, decay, k)
  {
    PowStepBelow(decay, k);
    ScalePositive(lr0, Pow(decay, k), Pow(decay, k + 1));
  }

  lemma {:induction false} PowStepBelow(x: real, k: nat)
    requires 0.0 < x <= 1.0
    ensures 0.0 < Pow(x, k + 1) <= Pow(x, k)
  {
    PowInUnit(x, k);
    var y := Pow(x, k);
    ScaleBelow(x, y);
    assert Pow(x, k + 1) == x * Pow(x, k);
  }

  lemma ScaleBelow(d: real, y: real)
    requires 0.0 < d <= 1.0 && y > 0.0
    ensures 0.0 < d * y <= y
  {
  }

  lemma ScalePositive(a: real, y: real, z: real)
    requires a > 0.0 && 0.0 < z <= y
    ensures 0.0 < a * z <= a * y
  {
  }

  /** The part of the configuration that training updates. */
  class Config {
    var lr: real
    const lrDecay: real
    const nepochs: int

    constructor (lr: real, lrDecay: real, nepochs: int)
      ensures this.lr == lr && this.lrDecay == lrDecay
      ensures this.nepochs == nepochs
    {
      this.lr := lr;
      this.lrDecay := lrDecay;
      this.nepochs := nepochs;
    }

    /** `self.config.lr *= self.config.lr_decay`. */
    method DecayLearningRate()
      modifies this
      ensures lr == old(lr) * lrDecay
    {
      lr := lr * lrDecay;
    }
  }

  /** The epoch loop of Model.train. Each epoch runs at the current config.lr, which is
      then multiplied by the decay factor. `epochRates` records the rate each epoch read;
      after the loop the rate is lr0 * decay^nepochs. */
  method Train(config: Config) returns (ghost epochRates: seq<real>)
    modifies config
    ensures |epochRates| == EpochCount(config.nepochs)
    ensures forall e :: 0 <= e < |epochRates| ==> epochRates[e] == LrAfter(old(config.lr), config.lrDecay, e)
    ensures config.lr == LrAfter(old(config.lr), config.lrDecay, EpochCount(config.nepochs))
  {
    ghost var lr0 := config.lr;
    epochRates := [];
    var epoch := 0;
    while epoch < config.nepochs
      invariant 0 <= epoch
      invariant epoch <= EpochCount(config.nepochs)
      invariant |epochRates| == epoch
      invariant forall e :: 0 <= e < epoch ==> epochRates[e] == LrAfter(lr0, config.lrDecay, e)
      invariant config.lr == LrAfter(lr0, config.lrDecay, epoch)
    {
      epochRates := epochRates + [config.lr];
      config.DecayLearningRate();
      assert Pow(config.lrDecay, epoch + 1) == config.lrDecay * Pow(config.lrDecay, epoch);
      epoch := epoch + 1;
    }
  }
}
