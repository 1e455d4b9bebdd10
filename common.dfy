/** Shared vocabulary: optional values, the outcome of a backend call, and the
    order-preserving filter that the pages use to pick users by role. */
module Common {

  datatype Option<+T> = None | Some(value: T)

  /** The outcome of one awaited backend call (fetch or axios): either it returned
      a value, or it threw an error carrying a message (possibly empty). */
  datatype Call<+T> = Returned(value: T) | Threw(message: string)

  /** `Array.prototype.filter`: the elements satisfying `p`, in their original order. */
  function Filter<T>(s: seq<T>, p: T -> bool): (r: seq<T>)
    ensures |r| <= |s|
    ensures forall i :: 0 <= i < |r| ==> r[i] in s && p(r[i])
    ensures forall i :: 0 <= i < |s| && p(s[i]) ==> s[i] in r
  {
    if s == [] then []
    else if p(s[0]) then [s[0]] + Filter(s[1..], p)
    else Filter(s[1..], p)
  }

  /** Filtering distributes over concatenation, which is what "the filter keeps the
      input order" means for a list built piece by piece. */
  lemma {:induction false} FilterConcat<T>(a: seq<T>, b: seq<T>, p: T -> bool)
    ensures Filter(a + b, p) == Filter(a, p) + Filter(b, p)
  {
    if a == [] {
      assert a + b == b;
    } else {
      assert (a + b)[1..] == a[1..] + b;
      FilterConcat(a[1..], b, p);
    }
  }

  /** Two filters whose predicates never hold together pick disjoint lists, and
      together they pick no more elements than the input has. */
  lemma {:induction false} FilterDisjointLengths<T>(s: seq<T>, p: T -> bool, q: T -> bool)
    requires forall x :: !(p(x) && q(x))
    ensures |Filter(s, p)| + |Filter(s, q)| <= |s|
    ensures forall x :: !(x in Filter(s, p) && x in Filter(s, q))
  {
    if s != [] {
      FilterDisjointLengths(s[1..], p, q);
    }
  }
}
