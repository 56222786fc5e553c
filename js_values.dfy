/** JavaScript value semantics that the statistics pass relies on: optional
    properties, truthiness of numbers, and `++` applied to a property that may
    be missing. */
module JsValues {

  /** A property of a parsed JSON object that may be absent. */
  datatype Option<+T> = None | Some(value: T)

  /** Truthiness of an optional number in a condition such as
      `if (step.result.duration)`: absent and 0 are falsy, every other
      integer (negative ones too) is truthy. */
  predicate Truthy(d: Option<int>)
  {
    d.Some? && d.value != 0
  }

  /** The value of a counter property that a program increments with `++`.
      A property that was never initialised is `undefined`; `undefined++`
      yields `NaN`, and `NaN++` stays `NaN`. */
  datatype Counter = Undefined | NaN | Num(n: nat) {

    /** The value after one `++`. */
    function Incremented(): (r: Counter)
      ensures r.Num? <==> this.Num?
      ensures this.Num? ==> r.n == n + 1
      ensures !this.Num? ==> r == NaN
    {
      match this
      case Num(k) => Num(k + 1)
      case _ => NaN
    }

    /** The value after `k` consecutive `++`. */
    function Plus(k: nat): Counter
    {
      if k == 0 then this else Plus(k - 1).Incremented()
    }
  }

  /** Closed form of `k` increments: a number grows by `k`, `NaN` stays `NaN`,
      and `undefined` becomes `NaN` as soon as it is incremented once. */
  lemma {:induction false} PlusClosedForm(c: Counter, k: nat)
    ensures c.Num? ==> c.Plus(k) == Num(c.n + k)
    ensures c.NaN? ==> c.Plus(k) == NaN
    ensures c.Undefined? ==> c.Plus(k) == if k == 0 then Undefined else NaN
  {
    if k > 0 {
      PlusClosedForm(c, k - 1);
    }
  }

  /** Incrementing `j` times and then `k` times is incrementing `j + k` times. */
  lemma {:induction false} PlusPlus(c: Counter, j: nat, k: nat)
    ensures c.Plus(j).Plus(k) == c.Plus(j + k)
  {
    PlusClosedForm(c, j);
    PlusClosedForm(c.Plus(j), k);
    PlusClosedForm(c, j + k);
  }
}
