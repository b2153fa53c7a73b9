/** The warmup learning-rate callbacks of
    lightning_ir/lightning_utils/schedulers.py: the two `lr_lambda` curves
    over exact rationals, and `LambdaWarmupScheduler`, which records base
    values at the start of training and rescales them before every batch.
    A module's attributes are a map keyed by their dotted paths. */
module Schedulers {
  import opened Common

  /** `LinearSchedulerWithWarmup` or `ConstantSchedulerWithWarmup`. */
  datatype Curve = Linear | Constant

  function MaxInt(a: int, b: int): (r: int)
    ensures r >= a && r >= b && (r == a || r == b)
  {
    if a >= b then a else b
  }

  /** `max(0.0, x)`. */
  function MaxZero(x: real): (r: real)
    ensures r >= 0.0 && r >= x && (r == 0.0 || r == x)
  {
    if x < 0.0 then 0.0 else x
  }

  /** A quotient by a positive denominator is non-negative for a
      non-negative numerator and at most 1 (below 1) for a numerator at most
      (below) the denominator. */
  lemma QuotientBounds(a: real, b: real)
    requires b > 0.0
    ensures 0.0 <= a ==> 0.0 <= a / b
    ensures a <= b ==> a / b <= 1.0
    ensures a < b ==> a / b < 1.0
    ensures a < 0.0 ==> a / b < 0.0
  {
    assert (a / b) * b == a;
  }

  /** Scaling a non-negative value by a factor in [0, 1] keeps it between 0
      and itself; scaling a positive value by a negative factor gives a
      negative value. */
  lemma ScaleBounds(a: real, f: real)
    ensures 0.0 <= f <= 1.0 && a >= 0.0 ==> 0.0 <= a * f <= a
    ensures a > 0.0 && f < 0.0 ==> a * f < 0.0
  {
    if 0.0 <= f <= 1.0 && a >= 0.0 {
      assert a * (1.0 - f) >= 0.0;
    }
  }

  /** The curve once the delay is over, at the shifted step
      `s = current_step - num_delay_steps - 1`. */
  function AfterDelay(curve: Curve, warmup: int, training: int, s: int): real
  {
    if s < warmup then (s as real) / (MaxInt(1, warmup) as real)
    else match curve
      case Linear => MaxZero(((training - s) as real) / (MaxInt(1, training - warmup) as real))
      case Constant => 1.0
  }

  /** For a non-negative shifted step the curve lies in [0, 1]. */
  lemma AfterDelayUnit(curve: Curve, warmup: int, training: int, s: int)
    requires s >= 0
    ensures 0.0 <= AfterDelay(curve, warmup, training, s) <= 1.0
  {
    if s < warmup {
      QuotientBounds(s as real, MaxInt(1, warmup) as real);
    } else if curve.Linear? {
      QuotientBounds((training - s) as real, MaxInt(1, training - warmup) as real);
    }
  }

  /** `lr_lambda` as the source writes it: zero while
      `current_step < num_delay_steps`, then the warmup ramp and the curve. */
  function LrLambdaAsWritten(curve: Curve, delay: int, warmup: int, training: int, step: int): real
  {
    if step < delay then 0.0 else AfterDelay(curve, warmup, training, step - (delay + 1))
  }

  /** `lr_lambda` with the delay check covering `current_step ==
      num_delay_steps` as well, the one step at which the shifted step is
      -1: the factor is then always in [0, 1]. */
  function LrLambda(curve: Curve, delay: int, warmup: int, training: int, step: int): (r: real)
    ensures 0.0 <= r <= 1.0
  {
    if step <= delay then 0.0
    else
      AfterDelayUnit(curve, warmup, training, step - (delay + 1));
      AfterDelay(curve, warmup, training, step - (delay + 1))
  }

  /** At `current_step == num_delay_steps` the factor as written is
      `-1 / max(1, num_warmup_steps)`, a negative learning rate. */
  lemma AsWrittenNegativeAtDelay(curve: Curve, delay: int, warmup: int, training: int)
    requires warmup >= 0
    ensures LrLambdaAsWritten(curve, delay, warmup, training, delay) == -1.0 / (MaxInt(1, warmup) as real)
    ensures LrLambdaAsWritten(curve, delay, warmup, training, delay) < 0.0
  {
    QuotientBounds(-1.0, MaxInt(1, warmup) as real);
  }

  /** The corrected curve differs from the written one only at
      `current_step == num_delay_steps`. */
  lemma CorrectedAgrees(curve: Curve, delay: int, warmup: int, training: int, step: int)
    ensures step != delay ==> LrLambda(curve, delay, warmup, training, step) == LrLambdaAsWritten(curve, delay, warmup, training, step)
    ensures step == delay ==> LrLambda(curve, delay, warmup, training, step) == 0.0
  {
  }

  /** Both curves are 0 before the delay is over. */
  lemma ZeroDuringDelay(curve: Curve, delay: int, warmup: int, training: int, step: int)
    requires step < delay
    ensures LrLambdaAsWritten(curve, delay, warmup, training, step) == 0.0
    ensures LrLambda(curve, delay, warmup, training, step) == 0.0
  {
  }

  /** During warmup both curves are the ramp `s / max(1, num_warmup_steps)`,
      which lies in [0, 1). */
  lemma WarmupRamp(curve: Curve, delay: int, warmup: int, training: int, step: int)
    requires step > delay && step - (delay + 1) < warmup
    ensures var s := step - (delay + 1);
      && LrLambdaAsWritten(curve, delay, warmup, training, step) == (s as real) / (MaxInt(1, warmup) as real)
      && 0.0 <= LrLambdaAsWritten(curve, delay, warmup, training, step) < 1.0
  {
    var s := step - (delay + 1);
    QuotientBounds(s as real, MaxInt(1, warmup) as real);
  }

  /** After warmup the constant curve is exactly 1. */
  lemma ConstantAfterWarmup(delay: int, warmup: int, training: int, step: int)
    requires step > delay && step - (delay + 1) >= warmup
    ensures LrLambdaAsWritten(Constant, delay, warmup, training, step) == 1.0
  {
  }

  /** After warmup the linear curve decays as
      `max(0, (T - s) / max(1, T - W))`, stays in [0, 1] and is 0 from
      `s >= T` on. */
  lemma LinearAfterWarmup(delay: int, warmup: int, training: int, step: int)
    requires step > delay && step - (delay + 1) >= warmup
    ensures var s := step - (delay + 1);
      && LrLambdaAsWritten(Linear, delay, warmup, training, step)
         == MaxZero(((training - s) as real) / (MaxInt(1, training - warmup) as real))
      && 0.0 <= LrLambdaAsWritten(Linear, delay, warmup, training, step) <= 1.0
      && (s >= training ==> LrLambdaAsWritten(Linear, delay, warmup, training, step) == 0.0)
  {
    var s := step - (delay + 1);
    QuotientBounds((training - s) as real, MaxInt(1, training - warmup) as real);
  }

  /** Recording the base values of `keys` from `attrs`, one after the
      other: the first key without an attribute raises `AttributeError`,
      with the keys before it already recorded. */
  function RecordBases(values: map<string, real>, keys: seq<string>, attrs: map<string, real>): (map<string, real>, Result<()>)
    decreases |keys|
  {
    if |keys| == 0 then (values, Ok(()))
    else if keys[0] !in attrs then (values, Err(AttributeError(keys[0])))
    else RecordBases(values[keys[0] := attrs[keys[0]]], keys[1..], attrs)
  }

  /** Recording succeeds iff every key has an attribute; it then stores
      each key's attribute value and keeps every other stored value. */
  lemma {:induction false} RecordBasesAll(values: map<string, real>, keys: seq<string>, attrs: map<string, real>)
    ensures RecordBases(values, keys, attrs).1.Ok? <==> forall k :: k in keys ==> k in attrs
    ensures RecordBases(values, keys, attrs).1.Err? ==>
      exists k :: k in keys && k !in attrs && RecordBases(values, keys, attrs).1.error == AttributeError(k)
    ensures RecordBases(values, keys, attrs).1.Ok? ==>
      && (RecordBases(values, keys, attrs).0.Keys == values.Keys + (set k | k in keys))
      && (forall k :: k in keys ==> RecordBases(values, keys, attrs).0[k] == attrs[k])
      && (forall k :: k in values && k !in keys ==> RecordBases(values, keys, attrs).0[k] == values[k])
    decreases |keys|
  {
    if |keys| > 0 && keys[0] in attrs {
      var next := values[keys[0] := attrs[keys[0]]];
      RecordBasesAll(next, keys[1..], attrs);
      assert forall k :: k in keys <==> k == keys[0] || k in keys[1..];
    }
  }

  /** A `LambdaWarmupScheduler` with its curve. */
  class WarmupScheduler {
    const curve: Curve
    const keys: seq<string>
    const numWarmupSteps: int
    const numDelaySteps: int
    var numTrainingSteps: int
    var values: map<string, real>

    constructor (curve: Curve, keys: seq<string>, numWarmupSteps: int, numDelaySteps: int, numTrainingSteps: int)
      ensures this.curve == curve && this.keys == keys
      ensures this.numWarmupSteps == numWarmupSteps && this.numDelaySteps == numDelaySteps
      ensures this.numTrainingSteps == numTrainingSteps && values == map[]
    {
      this.curve := curve;
      this.keys := keys;
      this.numWarmupSteps := numWarmupSteps;
      this.numDelaySteps := numDelaySteps;
      this.numTrainingSteps := numTrainingSteps;
      values := map[];
    }

    /** `lr_lambda(current_step)` with this scheduler's settings, as
        written: in [0, 1] at every step but `num_delay_steps`, where it is
        `-1 / max(1, num_warmup_steps)`. */
    function Lr(step: int): (r: real)
      reads this
      ensures step != numDelaySteps ==> 0.0 <= r <= 1.0
      ensures step == numDelaySteps && numWarmupSteps >= 0 ==>
        r == -1.0 / (MaxInt(1, numWarmupSteps) as real) && r < 0.0
    {
      CorrectedAgrees(curve, numDelaySteps, numWarmupSteps, numTrainingSteps, step);
      if numWarmupSteps >= 0 then
        AsWrittenNegativeAtDelay(curve, numDelaySteps, numWarmupSteps, numTrainingSteps);
        LrLambdaAsWritten(curve, numDelaySteps, numWarmupSteps, numTrainingSteps, step)
      else LrLambdaAsWritten(curve, numDelaySteps, numWarmupSteps, numTrainingSteps, step)
    }

    /** `step`: the recorded base value of `key` scaled by the curve; a key
        without a base value raises `KeyError`. Away from `num_delay_steps`
        a non-negative base value is never scheduled below zero or above
        itself; at `num_delay_steps` a positive one is scheduled below zero. */
    function Step(key: string, currentStep: int): (r: Result<real>)
      reads this
      ensures r.Ok? <==> key in values
      ensures r.Err? ==> r.error == KeyError(key)
      ensures r.Ok? && values[key] >= 0.0 && currentStep != numDelaySteps ==> 0.0 <= r.value <= values[key]
      ensures r.Ok? && values[key] > 0.0 && currentStep == numDelaySteps && numWarmupSteps >= 0 ==> r.value < 0.0
    {
      if key in values then
        var base, factor := values[key], Lr(currentStep);
        ScaleBounds(base, factor);
        Ok(base * factor)
      else Err(KeyError(key))
    }

    /** `on_train_start`: take the estimated number of steps when none was
        given (-1), then record the base value of every key. */
    method OnTrainStart(estimatedSteppingBatches: int, attrs: map<string, real>) returns (r: Result<()>)
      modifies this
      ensures numTrainingSteps == if old(numTrainingSteps) == -1 then estimatedSteppingBatches else old(numTrainingSteps)
      ensures (values, r) == RecordBases(old(values), keys, attrs)
    {
      if numTrainingSteps == -1 {
        numTrainingSteps := estimatedSteppingBatches;
      }
      var i := 0;
      while i < |keys|
        invariant 0 <= i <= |keys|
        invariant numTrainingSteps == if old(numTrainingSteps) == -1 then estimatedSteppingBatches else old(numTrainingSteps)
        invariant RecordBases(old(values), keys, attrs) == RecordBases(values, keys[i..], attrs)
      {
        var key := keys[i];
        assert keys[i..][1..] == keys[i + 1..];
        if key !in attrs {
          r := Err(AttributeError(key));
          return;
        }
        values := values[key := attrs[key]];
        i := i + 1;
      }
      r := Ok(());
    }

    /** Setting every key of `attrs`, in order, to its scheduled value at
        `step`; the first key without a base value stops it with
        `KeyError`. */
    function Scheduled(attrs: map<string, real>, ks: seq<string>, step: int): (map<string, real>, Result<()>)
      reads this
      decreases |ks|
    {
      if |ks| == 0 then (attrs, Ok(()))
      else match Step(ks[0], step)
        case Err(e) => (attrs, Err(e))
        case Ok(v) => Scheduled(attrs[ks[0] := v], ks[1..], step)
    }

    /** Scheduling succeeds iff every key has a base value; it then sets each
        key to its base value times the curve and leaves the other
        attributes alone. */
    lemma {:induction false} ScheduledSets(attrs: map<string, real>, ks: seq<string>, step: int)
      ensures Scheduled(attrs, ks, step).1.Ok? <==> forall k :: k in ks ==> k in values
      ensures Scheduled(attrs, ks, step).1.Ok? ==>
        && (Scheduled(attrs, ks, step).0.Keys == attrs.Keys + (set k | k in ks))
        && (forall k :: k in ks ==> k in values && Scheduled(attrs, ks, step).0[k] == Step(k, step).value)
        && (forall k :: k in attrs && k !in ks ==> Scheduled(attrs, ks, step).0[k] == attrs[k])
      decreases |ks|
    {
      if |ks| > 0 {
        if ks[0] in values {
          var next := attrs[ks[0] := Step(ks[0], step).value];
          assert Scheduled(attrs, ks, step) == Scheduled(next, ks[1..], step);
          ScheduledSets(next, ks[1..], step);
          assert forall k :: k in ks <==> k == ks[0] || k in ks[1..];
        } else {
          assert ks[0] in ks;
        }
      }
    }

    /** `on_train_batch_start`: every key of the module is set to
        `step(key, global_step + 1)`; the recorded base values are left as
        they are. */
    method OnTrainBatchStart(globalStep: int, attrs: map<string, real>) returns (updated: map<string, real>, r: Result<()>)
      ensures (updated, r) == Scheduled(attrs, keys, globalStep + 1)
    {
      var step := globalStep + 1;
      updated := attrs;
      var i := 0;
      while i < |keys|
        invariant 0 <= i <= |keys|
        invariant Scheduled(attrs, keys, step) == Scheduled(updated, keys[i..], step)
      {
        var key := keys[i];
        assert keys[i..][1..] == keys[i + 1..];
        var value := Step(key, step);
        if value.Err? {
          r := Err(value.error);
          return;
        }
        updated := updated[key := value.value];
        i := i + 1;
      }
      r := Ok(());
    }

    /** The batch before the delay ends (`global_step + 1 ==
        num_delay_steps`) sets every key with a positive base value to a
        negative value. */
    lemma NegativeAtDelayBatch(attrs: map<string, real>, key: string)
      requires forall k :: k in keys ==> k in values
      requires key in keys && values[key] > 0.0 && numWarmupSteps >= 0
      ensures Scheduled(attrs, keys, numDelaySteps).1.Ok?
      ensures var updated := Scheduled(attrs, keys, numDelaySteps).0; key in updated && updated[key] < 0.0
    {
      ScheduledSets(attrs, keys, numDelaySteps);
    }
  }
}
