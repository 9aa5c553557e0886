/** Counting elements of sets. */
module Sets {

  lemma SubsetCount<T>(a: set<T>, b: set<T>)
    requires a <= b
    ensures |a| <= |b|
  {
    assert |b - a| == |b| - |a|;
  }

  lemma MutualSubsets<T>(a: set<T>, b: set<T>)
    requires a <= b && b <= a
    ensures a == b
  {
  }
}
