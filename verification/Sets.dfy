/** Sizes of finite sets. */
module Sets {

  lemma {:induction false} NoLarger<T>(a: set<T>, b: set<T>)
    requires a <= b
    ensures |a| <= |b|
  {
    if a != {} {
      var x :| x in a;
      NoLarger(a - {x}, b - {x});
    }
  }
}
