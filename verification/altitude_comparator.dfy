/**
 * The comparator that orders (element, altitude) pairs by their altitude
 * component alone, as `Integer.compare` does on the two altitudes.
 */
module AltitudeComparator {

  /** A pair whose right component is an altitude. */
  datatype Pair<T> = Pair(left: T, right: int)

  /** -1, 0 or 1 as the left pair's altitude is below, equal to or above the right one's. */
  function Compare<T>(o1: Pair<T>, o2: Pair<T>): (r: int)
    ensures r == -1 || r == 0 || r == 1
    ensures r == -1 <==> o1.right < o2.right
    ensures r == 0 <==> o1.right == o2.right
    ensures r == 1 <==> o1.right > o2.right
  {
    var a1 := o1.right;
    var a2 := o2.right;
    if a1 < a2 then -1 else if a1 == a2 then 0 else 1
  }

  /** Swapping the arguments negates the answer. */
  lemma Antisymmetric<T>(a: Pair<T>, b: Pair<T>)
    ensures Compare(a, b) == -Compare(b, a)
  {
  }

  /** "At most" is transitive, so the comparator is a total preorder. */
  lemma Transitive<T>(a: Pair<T>, b: Pair<T>, c: Pair<T>)
    requires Compare(a, b) <= 0 && Compare(b, c) <= 0
    ensures Compare(a, c) <= 0
  {
  }

  /** Every pair and every two pairs are comparable, and each pair is equal to itself. */
  lemma TotalAndReflexive<T>(a: Pair<T>, b: Pair<T>)
    ensures Compare(a, a) == 0
    ensures Compare(a, b) <= 0 || Compare(b, a) <= 0
  {
  }

  /** Only the altitudes matter: replacing the left components changes nothing. */
  lemma IgnoresLeft<T>(a: Pair<T>, b: Pair<T>, x: T, y: T)
    ensures Compare(a, b) == Compare(Pair(x, a.right), Pair(y, b.right))
  {
  }
}
