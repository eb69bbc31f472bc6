# Parcel postage pricing, modelled in Dafny

This project models the postage calculator of the FirstAML parcel exercise.
Its only logic is `parcel_cost`: given a parcel's width, length and height in
centimetres, it takes the largest of the three and prices the parcel by size
tier. A largest dimension below 10 costs 3 NZD, from 10 and below 50 costs 8,
from 50 and below 100 costs 15, and 100 or more costs 25. The comparisons are
strict, so a dimension exactly on a threshold is priced in the tier above.
Nothing is validated: zero and negative dimensions are priced like any others.

- `parcel.dfy` (module `Parcel`): the maximum of the dimensions (`MaxOf`,
  `MaxDimension`), the tier chain (`CostForDimension`), the whole price
  (`ParcelCost`), and an independent reference pricing that counts how many
  of the thresholds 10, 50, 100 the largest dimension has reached and looks
  the price up in the table 3, 8, 15, 25 (`ThresholdsReached`, `Prices`).
  Lemmas state the tier ranges, the boundary behaviour, invariance under
  reordering the dimensions, monotonicity, and the absence of validation.
- `tests.dfy` (module `ParcelExamples`): the four concrete prices the
  repository's test script asserts, proved against the model.

Dimensions are `real`. The function does no arithmetic on them, only a
maximum and comparisons, so exact reals describe it faithfully. The cost is
an `int`, as in the source.

## Model

| member | source | states |
|---|---|---|
| Parcel.MaxOf | parcel.py:18 | the maximum of a non-empty tuple is one of its elements and no element exceeds it |
| Parcel.MaxDimension | parcel.py:18 | the largest dimension is one of width, length, height and is at least each of them |
| Parcel.CostForDimension | parcel.py:20-27 | the price for a largest dimension is one of 3, 8, 15, 25 and equals the reference price: the table entry indexed by the number of thresholds 10, 50, 100 the dimension has reached |
| Parcel.ParcelCost | parcel.py:8-27 | the cost is always one of 3, 8, 15, 25; it is 3 exactly when every dimension is below 10, 8 exactly when all are below 50 and one is at least 10, 15 exactly when all are below 100 and one is at least 50, 25 exactly when some dimension is 100 or more |
| Parcel.ThresholdsReachedMonotone | parcel.py:20-27 | a larger dimension has reached at least as many thresholds, for any list of thresholds |
| Parcel.CostForDimensionMonotone | parcel.py:20-27 | the tier price never decreases as the largest dimension grows |
| Parcel.ParcelCostIsCostOfMax | parcel.py:18-27 | the cost is the reference table price of the largest dimension, so it depends on the dimensions only through their maximum |
| Parcel.MaxOfPermutation | parcel.py:18 | two sequences with the same elements (as a multiset) have the same maximum |
| Parcel.ParcelCostPermutation | parcel.py:18 | any reordering of width, length and height gives the same cost |
| Parcel.ParcelCostMonotone | parcel.py:18-27 | increasing any dimension, or several, never lowers the cost |
| Parcel.ThresholdsBelongToTierAbove | parcel.py:20-27 | a largest dimension exactly at 10, 50 or 100 is priced in the next tier up, and one between the previous threshold and the next is priced in the lower tier |
| Parcel.NonPositiveDimensionsAreCheapest | parcel.py:18-21 | zero or negative dimensions are not rejected; they cost the lowest price, 3 |
| Parcel.NoLargestTier | parcel.py:24-27 | every largest dimension of 100 or more, without upper bound, costs the top price, 25 |
| ParcelExamples.ScriptedCosts | tests.py:10-13 | the parcels 4×7×9.5, 10×7×9.5, 40×56×9.5 and 40×56×100 cost 3, 8, 15 and 25 |

## Left out

- IEEE floating point: NaN and infinities are not modelled. With a NaN argument Python's `max` depends on argument order and every comparison is false; the model uses exact reals instead.
- Python's mixing of `int` and `float` arguments (the test script passes both): both are modelled as `real`, which compares them the same way.
- The `print("Tests completed.")` call and the top-level execution of the test script: output with no logic.
- The `__all__` list in parcel.py: module export plumbing.
- Weight surcharges, a flat heavy-parcel rate, batch billing with a speedy-delivery surcharge, size labels and input validation are described for later versions of this exercise but have no code in parcel.py; they are not modelled, and the model, like the code, accepts every dimension.
