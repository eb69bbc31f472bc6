/** The concrete parcels whose prices the repository's test script asserts. */
module ParcelExamples {
  import opened Parcel

  /** One parcel in each of the four tiers, the second exactly on the 10 cm threshold. */
  lemma ScriptedCosts()
    ensures ParcelCost(4.0, 7.0, 9.5) == 3
    ensures ParcelCost(10.0, 7.0, 9.5) == 8
    ensures ParcelCost(40.0, 56.0, 9.5) == 15
    ensures ParcelCost(40.0, 56.0, 100.0) == 25
  {
  }
}
