/**
 * Discount strategies and the left fold that applies a list of them to a
 * running total.
 */
module Discounts {
  import opened Wrappers

  /**
   * The closed set of concrete discount strategies; there is no value of the
   * abstract strategy itself. Both variants ignore the cart's items, so the
   * model does not pass them.
   */
  datatype Discount =
    | PercentageDiscount(percentage: real)
    | FixedAmountDiscount(fixedAmount: real)
  {
    /**
     * The total after this discount. A percentage discount takes that share
     * of the total off, unclamped; a fixed-amount discount takes its amount
     * off but never goes below zero.
     */
    function ApplyDiscount(totalPrice: real): (r: real)
      ensures PercentageDiscount? ==> totalPrice - r == totalPrice * percentage / 100.0
      ensures FixedAmountDiscount? ==> r >= 0.0 && r >= totalPrice - fixedAmount
      ensures FixedAmountDiscount? ==> r == 0.0 || r == totalPrice - fixedAmount
    {
      match this
      case PercentageDiscount(p) => totalPrice * (1.0 - p / 100.0)
      case FixedAmountDiscount(a) => if totalPrice - a > 0.0 then totalPrice - a else 0.0
    }

    /**
     * The parameter range the strategies are meant for (a percentage in
     * [0, 100], a non-negative amount). Nothing enforces it.
     */
    predicate Expected()
    {
      match this
      case PercentageDiscount(p) => 0.0 <= p <= 100.0
      case FixedAmountDiscount(a) => 0.0 <= a
    }
  }

  /** Applies the discounts in list order, each to the result of the one before. */
  function Fold(total: real, ds: seq<Discount>): real
    decreases |ds|
  {
    if ds == [] then total else Fold(ds[0].ApplyDiscount(total), ds[1..])
  }

  /** The discount phase of a total: None and the empty list both leave it as it is. */
  function ApplyAll(total: real, discounts: Option<seq<Discount>>): (r: real)
    ensures discounts == None || discounts == Some([]) ==> r == total
  {
    match discounts
    case None => total
    case Some(ds) => Fold(total, ds)
  }

  /** Appending a discount applies it last, to the total the others left. */
  lemma {:induction false} FoldSnoc(total: real, ds: seq<Discount>, d: Discount)
    ensures Fold(total, ds + [d]) == d.ApplyDiscount(Fold(total, ds))
    decreases |ds|
  {
    if ds == [] {
      assert ds + [d] == [d];
    } else {
      assert (ds + [d])[1..] == ds[1..] + [d];
      FoldSnoc(ds[0].ApplyDiscount(total), ds[1..], d);
    }
  }

  /** The result of discount i is the input of discount i + 1. */
  lemma {:induction false} FoldStep(total: real, ds: seq<Discount>, i: nat)
    requires i < |ds|
    ensures Fold(total, ds[..i + 1]) == ds[i].ApplyDiscount(Fold(total, ds[..i]))
  {
    assert ds[..i + 1] == ds[..i] + [ds[i]];
    FoldSnoc(total, ds[..i], ds[i]);
  }

  /** Folding a concatenation folds the second list over the first one's result. */
  lemma {:induction false} FoldConcat(total: real, xs: seq<Discount>, ys: seq<Discount>)
    ensures Fold(total, xs + ys) == Fold(Fold(total, xs), ys)
    decreases |xs|
  {
    if xs != [] {
      assert (xs + ys)[1..] == xs[1..] + ys;
      FoldConcat(xs[0].ApplyDiscount(total), xs[1..], ys);
    } else {
      assert xs + ys == ys;
    }
  }

  /** With every strategy in its expected range, a non-negative total stays in [0, total]. */
  lemma {:induction false} FoldWithinTotal(total: real, ds: seq<Discount>)
    requires total >= 0.0
    requires forall i :: 0 <= i < |ds| ==> ds[i].Expected()
    ensures 0.0 <= Fold(total, ds) <= total
    decreases |ds|
  {
    if ds != [] {
      var next := ds[0].ApplyDiscount(total);
      assert ds[0].Expected();
      if ds[0].PercentageDiscount? {
        assert total * ds[0].percentage / 100.0 <= total;
      }
      assert 0.0 <= next <= total;
      FoldWithinTotal(next, ds[1..]);
    }
  }

  /** A list that ends with a fixed-amount discount never yields a negative total. */
  lemma FixedLastNeverNegative(total: real, ds: seq<Discount>)
    requires ds != [] && ds[|ds| - 1].FixedAmountDiscount?
    ensures Fold(total, ds) >= 0.0
  {
    var n := |ds| - 1;
    FoldStep(total, ds, n);
    assert ds[..n + 1] == ds;
  }

  /** The single-discount figures: 10% of 100 leaves 90; 15 off 100 leaves 85. */
  lemma SingleDiscountExamples()
    ensures PercentageDiscount(10.0).ApplyDiscount(100.0) == 90.0
    ensures FixedAmountDiscount(15.0).ApplyDiscount(100.0) == 85.0
  {
  }

  /**
   * The edges of the two strategies: a fixed amount larger than the total
   * stops at 0, while a percentage above 100 is not clamped and goes negative.
   */
  lemma DiscountEdgeExamples()
    ensures FixedAmountDiscount(50.0).ApplyDiscount(10.0) == 0.0
    ensures PercentageDiscount(150.0).ApplyDiscount(100.0) == -50.0
  {
  }

  /** The fold is order-sensitive: 20% then 30 off gives 50, the reverse order 56. */
  lemma OrderMatters()
    ensures Fold(100.0, [PercentageDiscount(20.0), FixedAmountDiscount(30.0)]) == 50.0
    ensures Fold(100.0, [FixedAmountDiscount(30.0), PercentageDiscount(20.0)]) == 56.0
  {
  }
}
