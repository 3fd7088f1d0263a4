/** A value or nothing, and sizes of sets. */
module Wrappers {

  datatype Option<T> = None | Some(value: T)

  /** A set within another is no larger. */
  lemma {:induction false} NoLarger<T>(a: set<T>, b: set<T>)
    requires a <= b
    ensures |a| <= |b|
  {
    if a != {} {
      var x :| x in a;
      NoLarger(a - {x}, b - {x});
    }
  }
}
