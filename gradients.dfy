/** Keyframe tables of the overhaul's Gradient<T>: ordered (position, value)
    pairs. Evaluating a table is the job of Gradient<T>.GetValue, which is not
    part of this model; wherever the model needs an evaluator it takes one as
    a parameter, and the two predicates below name the documented behaviour
    of a piecewise-linear evaluator so that results can be stated assuming it. */
module Gradients {

  datatype Keyframe<T> = Keyframe(position: real, value: T)

  /** A real-valued evaluator `GetValue(table, position)`. */
  type RealEvaluator = (seq<Keyframe<real>>, real) -> real

  /** Every pair of keys is in strictly increasing position order. */
  ghost predicate StrictlyIncreasing<T>(t: seq<Keyframe<T>>)
  {
    forall i, j :: 0 <= i < j < |t| ==> t[i].position < t[j].position
  }

  /** Neighbouring keys are in strictly increasing position order. */
  ghost predicate AdjacentIncreasing<T>(t: seq<Keyframe<T>>)
  {
    forall i :: 0 <= i < |t| - 1 ==> t[i].position < t[i + 1].position
  }

  /** Every value of the table lies in [lo, hi]. */
  ghost predicate ValuesWithin(t: seq<Keyframe<real>>, lo: real, hi: real)
  {
    forall k :: 0 <= k < |t| ==> lo <= t[k].value <= hi
  }

  lemma {:induction false} AdjacentIncreasingIsIncreasing<T>(t: seq<Keyframe<T>>)
    requires AdjacentIncreasing(t)
    ensures StrictlyIncreasing(t)
  {
    if |t| > 1 {
      var rest := t[1..];
      assert AdjacentIncreasing(rest) by {
        forall i | 0 <= i < |rest| - 1 ensures rest[i].position < rest[i + 1].position {
          assert rest[i] == t[i + 1] && rest[i + 1] == t[i + 2];
        }
      }
      AdjacentIncreasingIsIncreasing(rest);
      forall i, j | 0 <= i < j < |t| ensures t[i].position < t[j].position {
        if i > 0 {
          assert t[i] == rest[i - 1] && t[j] == rest[j - 1];
        } else if j > 1 {
          assert t[1] == rest[0] && t[j] == rest[j - 1];
        }
      }
    }
  }

  /** On a table with strictly increasing keys, the evaluator returns the first
      value at or before the first key and the last value at or after the last key. */
  ghost predicate HoldsEnds(eval: RealEvaluator)
  {
    forall t: seq<Keyframe<real>>, p: real {:trigger eval(t, p)} ::
      |t| > 0 && StrictlyIncreasing(t) ==>
        (p <= t[0].position ==> eval(t, p) == t[0].value) &&
        (p >= t[|t| - 1].position ==> eval(t, p) == t[|t| - 1].value)
  }

  /** The evaluator never leaves an interval that holds every value of the table. */
  ghost predicate StaysWithinValues(eval: RealEvaluator)
  {
    forall t: seq<Keyframe<real>>, p: real, lo: real, hi: real {:trigger ValuesWithin(t, lo, hi), eval(t, p)} ::
      |t| > 0 && ValuesWithin(t, lo, hi) ==> lo <= eval(t, p) <= hi
  }

  /** The simplest evaluator with both properties: the first value up to the
      first key, the last value after it. */
  function EndsEvaluator(t: seq<Keyframe<real>>, p: real): real
  {
    if |t| == 0 then 0.0
    else if p <= t[0].position then t[0].value
    else t[|t| - 1].value
  }

  /** Both evaluator hypotheses can be met, so results stated under them are not vacuous. */
  lemma EvaluatorHypothesesSatisfiable()
    ensures HoldsEnds(EndsEvaluator)
    ensures StaysWithinValues(EndsEvaluator)
  {
    forall t: seq<Keyframe<real>>, p: real | |t| > 0 && StrictlyIncreasing(t)
      ensures (p <= t[0].position ==> EndsEvaluator(t, p) == t[0].value) &&
              (p >= t[|t| - 1].position ==> EndsEvaluator(t, p) == t[|t| - 1].value)
    {
      if |t| > 1 && p <= t[0].position {
        assert t[0].position < t[|t| - 1].position;
      }
    }
    forall t: seq<Keyframe<real>>, p: real, lo: real, hi: real | |t| > 0 && ValuesWithin(t, lo, hi)
      ensures lo <= EndsEvaluator(t, p) <= hi
    {
      assert lo <= t[0].value <= hi && lo <= t[|t| - 1].value <= hi;
    }
  }
}
