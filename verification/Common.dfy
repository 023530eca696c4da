/** Shared wrapper types and arithmetic. */
module Common {

  datatype Option<+T> = None | Some(value: T)

  function Min(a: int, b: int): (m: int) {
    if a <= b then a else b
  }

  function Max(a: int, b: int): (m: int) {
    if a >= b then a else b
  }

  lemma {:induction false} IntervalSize(lo: int, hi: int, s: set<int>)
    requires lo <= hi
    requires forall t :: t in s <==> lo <= t < hi
    ensures |s| == hi - lo
    decreases hi - lo
  {
    if lo == hi {
      assert forall t :: t !in s;
    } else {
      assert lo in s;
      assert s == (s - {lo}) + {lo};
      IntervalSize(lo + 1, hi, s - {lo});
    }
  }

  lemma {:induction false} SubsetSize<T>(a: set<T>, b: set<T>)
    requires a <= b
    ensures |a| <= |b|
  {
    if k :| k in a {
      SubsetSize(a - {k}, b - {k});
      assert |a - {k}| == |a| - 1 && |b - {k}| == |b| - 1;
    } else {
      assert a == {};
    }
  }
}
