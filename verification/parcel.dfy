/**
 * Size-tier postage pricing for a single parcel.
 *
 * A parcel is priced by its largest dimension alone: the three dimensions
 * (centimetres) are reduced to their maximum, and that maximum is placed in
 * one of four tiers by strict `<` comparisons against the thresholds 10, 50
 * and 100. The tiers cost 3, 8, 15 and 25 New Zealand dollars. There is no
 * input validation: zero or negative dimensions are priced like any other.
 *
 * Dimensions are modelled as `real`: the pricing does no arithmetic on them,
 * only a maximum and comparisons, so exact reals are a faithful stand-in.
 */
module Parcel {

  /** The thresholds at which the price steps up, in increasing order. */
  const Thresholds: seq<real> := [10.0, 50.0, 100.0]

  /** The price of each tier; tier k is reached by passing k thresholds. */
  const Prices: seq<int> := [3, 8, 15, 25]

  /** True of the four prices a parcel can cost, and of nothing else. */
  predicate IsPrice(c: int) {
    c == 3 || c == 8 || c == 15 || c == 25
  }

  /**
   * The largest element of a non-empty sequence, found the way a
   * left-to-right scan finds it: keep the first element, and replace the
   * running maximum whenever a later element is strictly greater.
   */
  function MaxOf(xs: seq<real>): (m: real)
    requires |xs| > 0
    ensures m in xs
    ensures forall i :: 0 <= i < |xs| ==> xs[i] <= m
  {
    if |xs| == 1 then xs[0]
    else
      var prefix := MaxOf(xs[..|xs| - 1]);
      var last := xs[|xs| - 1];
      if last > prefix then last else prefix
  }

  /** The largest of a parcel's width, length and height. */
  function MaxDimension(width: real, length: real, height: real): (m: real)
    ensures width <= m && length <= m && height <= m
    ensures m == width || m == length || m == height
  {
    var dims := [width, length, height];
    assert dims[0] == width && dims[1] == length && dims[2] == height;
    MaxOf(dims)
  }

  /**
   * The price of a parcel whose largest dimension is `d`: a chain of strict
   * comparisons, so a value equal to a threshold belongs to the tier above.
   */
  function CostForDimension(d: real): (c: int)
    ensures IsPrice(c)
    ensures c == Prices[ThresholdsReached(Thresholds, d)]
  {
    ThresholdsCounted(d);
    if d < 10.0 then 3
    else if d < 50.0 then 8
    else if d < 100.0 then 15
    else 25
  }

  /** The cost of sending a parcel of the given dimensions. */
  function ParcelCost(width: real, length: real, height: real): (c: int)
    ensures IsPrice(c)
    ensures c == 3 <==> width < 10.0 && length < 10.0 && height < 10.0
    ensures c == 8 <==>
      && width < 50.0 && length < 50.0 && height < 50.0
      && (width >= 10.0 || length >= 10.0 || height >= 10.0)
    ensures c == 15 <==>
      && width < 100.0 && length < 100.0 && height < 100.0
      && (width >= 50.0 || length >= 50.0 || height >= 50.0)
    ensures c == 25 <==> width >= 100.0 || length >= 100.0 || height >= 100.0
  {
    CostForDimension(MaxDimension(width, length, height))
  }

  /**
   * Reference pricing: the number of thresholds a dimension has reached
   * (is at least), counted over any list of thresholds.
   */
  function ThresholdsReached(ts: seq<real>, d: real): (k: nat)
    ensures k <= |ts|
  {
    if |ts| == 0 then 0
    else (if ts[0] <= d then 1 else 0) + ThresholdsReached(ts[1..], d)
  }

  /** How many of the fixed thresholds a dimension has reached, tier by tier. */
  lemma ThresholdsCounted(d: real)
    ensures d < 10.0 ==> ThresholdsReached(Thresholds, d) == 0
    ensures 10.0 <= d < 50.0 ==> ThresholdsReached(Thresholds, d) == 1
    ensures 50.0 <= d < 100.0 ==> ThresholdsReached(Thresholds, d) == 2
    ensures 100.0 <= d ==> ThresholdsReached(Thresholds, d) == 3
  {
    var rest := [50.0, 100.0];
    assert Thresholds[1..] == rest;
    assert rest[1..] == [100.0];
    assert [100.0][1..] == [];
    assert ThresholdsReached([100.0], d) == if 100.0 <= d then 1 else 0;
    assert ThresholdsReached(rest, d) == (if 50.0 <= d then 1 else 0) + ThresholdsReached([100.0], d);
    assert ThresholdsReached(Thresholds, d) == (if 10.0 <= d then 1 else 0) + ThresholdsReached(rest, d);
  }

  /** Reaching more of the thresholds never follows from a smaller dimension. */
  lemma {:induction false} ThresholdsReachedMonotone(ts: seq<real>, d: real, e: real)
    requires d <= e
    ensures ThresholdsReached(ts, d) <= ThresholdsReached(ts, e)
    decreases |ts|
  {
    if |ts| > 0 {
      ThresholdsReachedMonotone(ts[1..], d, e);
    }
  }

  /** Sending a parcel costs more in every higher tier. */
  lemma PricesIncrease(i: int, j: int)
    requires 0 <= i <= j < |Prices|
    ensures Prices[i] <= Prices[j]
  {
  }

  /** Pricing a single dimension never gets cheaper as the dimension grows. */
  lemma CostForDimensionMonotone(d: real, e: real)
    requires d <= e
    ensures CostForDimension(d) <= CostForDimension(e)
  {
    ThresholdsReachedMonotone(Thresholds, d, e);
    PricesIncrease(ThresholdsReached(Thresholds, d), ThresholdsReached(Thresholds, e));
  }

  /** The cost depends on the dimensions only through their maximum. */
  lemma ParcelCostIsCostOfMax(width: real, length: real, height: real)
    ensures ParcelCost(width, length, height)
         == Prices[ThresholdsReached(Thresholds, MaxDimension(width, length, height))]
  {
  }

  /** The maximum of a sequence does not depend on the order of its elements. */
  lemma MaxOfPermutation(xs: seq<real>, ys: seq<real>)
    requires |xs| > 0
    requires multiset(xs) == multiset(ys)
    ensures |ys| > 0
    ensures MaxOf(xs) == MaxOf(ys)
  {
    assert |ys| == |multiset(ys)| == |multiset(xs)| == |xs|;
    var mx, my := MaxOf(xs), MaxOf(ys);
    assert mx in multiset(ys);
    assert my in multiset(xs);
    var i :| 0 <= i < |ys| && ys[i] == mx;
    var j :| 0 <= j < |xs| && xs[j] == my;
  }

  /** Any reordering of width, length and height gives the same cost. */
  lemma ParcelCostPermutation(dims: seq<real>, perm: seq<real>)
    requires |dims| == 3
    requires multiset(dims) == multiset(perm)
    ensures |perm| == 3
    ensures ParcelCost(dims[0], dims[1], dims[2]) == ParcelCost(perm[0], perm[1], perm[2])
  {
    MaxOfPermutation(dims, perm);
    assert dims == [dims[0], dims[1], dims[2]];
    assert perm == [perm[0], perm[1], perm[2]];
  }

  /** Growing any dimension, or all of them, never lowers the cost. */
  lemma ParcelCostMonotone(w: real, l: real, h: real, w': real, l': real, h': real)
    requires w <= w' && l <= l' && h <= h'
    ensures ParcelCost(w, l, h) <= ParcelCost(w', l', h')
  {
    CostForDimensionMonotone(MaxDimension(w, l, h), MaxDimension(w', l', h'));
  }

  /**
   * A largest dimension exactly at a threshold is priced in the tier above,
   * and just below it in the tier below.
   */
  lemma ThresholdsBelongToTierAbove(k: nat, d: real)
    requires k < |Thresholds|
    ensures CostForDimension(Thresholds[k]) == Prices[k + 1]
    ensures d < Thresholds[k] && (k == 0 || Thresholds[k - 1] <= d) ==>
      CostForDimension(d) == Prices[k]
  {
  }

  /** No dimension is rejected: a parcel with no positive dimension is in the cheapest tier. */
  lemma NonPositiveDimensionsAreCheapest(width: real, length: real, height: real)
    requires width <= 0.0 && length <= 0.0 && height <= 0.0
    ensures ParcelCost(width, length, height) == Prices[0]
  {
  }

  /** There is no upper bound on the dimensions: everything from 100 up costs the top price. */
  lemma NoLargestTier(width: real, length: real, height: real)
    requires MaxDimension(width, length, height) >= Thresholds[|Thresholds| - 1]
    ensures ParcelCost(width, length, height) == Prices[|Prices| - 1]
  {
  }
}
