/**
 * The learning-rate decision of the training builder: the warmup schedule or
 * a constant, and the step number the schedule is evaluated at. The rate's
 * floating-point value is not modelled; which argument of the schedule's
 * `min` is the smaller one is, through the squares of the two arguments.
 */
module Schedule {
  import opened Config

  /** The constant rate used without warmup (`1e-4`). */
  const ConstantRate: real := 0.0001

  datatype LearningRate =
    | Warmup(hiddenUnits: int, warmupSteps: int, stepNum: int)
    | Constant(rate: real)

  /**
   * `lr` at a given global step: the warmup schedule exactly when
   * `warmup_steps > 0`, evaluated at `global_step + 1`, which is never zero.
   */
  function SelectLearningRate(a: Args, globalStep: nat): (lr: LearningRate)
    ensures lr.Warmup? <==> a.warmupSteps > 0
    ensures lr.Warmup? ==> lr.stepNum == globalStep + 1 && lr.stepNum >= 1
    ensures lr.Warmup? ==> lr.hiddenUnits == a.hiddenUnits && lr.warmupSteps == a.warmupSteps
    ensures lr.Constant? ==> lr.rate == ConstantRate
  {
    if a.warmupSteps > 0 then Warmup(a.hiddenUnits, a.warmupSteps, globalStep + 1)
    else Constant(ConstantRate)
  }

  /** Square of `rsqrt(step)`, the decaying argument of the `min`. */
  function DecayTermSquared(step: nat): real
    requires step >= 1
  {
    1.0 / step as real
  }

  /** Square of `step * warmup ** -1.5`, the rising argument of the `min`. */
  function RisingTermSquared(step: nat, warmup: nat): real
    requires warmup >= 1
  {
    (step * step) as real / (warmup * warmup * warmup) as real
  }

  datatype Phase = Rising | Decaying

  /** Which argument of the `min` the schedule follows at a step. */
  function WarmupPhase(step: nat, warmup: nat): (p: Phase)
    requires step >= 1 && warmup >= 1
    ensures p == Decaying <==> DecayTermSquared(step) <= RisingTermSquared(step, warmup)
  {
    DecayingIffPastWarmup(step, warmup);
    if step < warmup then Rising else Decaying
  }

  /** Cubing keeps the order of naturals. */
  lemma CubeMonotone(x: nat, y: nat)
    ensures x <= y <==> x * x * x <= y * y * y
  {
  }

  /**
   * The decaying argument is the smaller one exactly from step `warmup`
   * onwards: below it the rate rises linearly, from it on it decays.
   */
  lemma DecayingIffPastWarmup(step: nat, warmup: nat)
    requires step >= 1 && warmup >= 1
    ensures DecayTermSquared(step) <= RisingTermSquared(step, warmup) <==> warmup <= step
  {
    var s := step as real;
    var w3 := (warmup * warmup * warmup) as real;
    var s3 := (step * step * step) as real;
    assert w3 > 0.0;
    assert RisingTermSquared(step, warmup) == (s * s) / w3;
    assert DecayTermSquared(step) == 1.0 / s;
    calc <==> {
      1.0 / s <= (s * s) / w3;
      { DivCompare(1.0, s, s * s, w3); }
      w3 <= s * s * s;
      { assert s * s * s == s3; }
      warmup * warmup * warmup <= step * step * step;
      { CubeMonotone(warmup, step); }
      warmup <= step;
    }
  }

  /** Cross-multiplication of fractions with positive denominators. */
  lemma DivCompare(a: real, b: real, c: real, d: real)
    requires b > 0.0 && d > 0.0
    ensures a / b <= c / d <==> a * d <= c * b
  {
  }

  /** At the end of warmup the two arguments of the `min` are equal. */
  lemma TermsMeetAtWarmup(warmup: nat)
    requires warmup >= 1
    ensures DecayTermSquared(warmup) == RisingTermSquared(warmup, warmup)
  {
  }

  /**
   * The rate `_model_fn_train` selects decays, rather than rises, exactly once
   * the global step has reached `warmup_steps - 1`, that is from the step
   * number `global_step + 1 == warmup_steps` on.
   */
  lemma SelectedScheduleDecaysPastWarmup(a: Args, globalStep: nat)
    requires a.warmupSteps > 0
    ensures SelectLearningRate(a, globalStep).Warmup?
    ensures WarmupPhase(SelectLearningRate(a, globalStep).stepNum, SelectLearningRate(a, globalStep).warmupSteps) == Decaying
        <==> globalStep + 1 >= a.warmupSteps
  {
    DecayingIffPastWarmup(globalStep + 1, a.warmupSteps);
  }
}
