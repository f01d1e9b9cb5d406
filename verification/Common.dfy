/** Shared by every module of the model. */
module Common {
  datatype Option<+T> = None | Some(value: T)

  function SetOf<T>(s: seq<T>): set<T> { set x | x in s }

  lemma {:induction false} SubsetIsNoLarger<T>(a: set<T>, b: set<T>)
    requires a <= b
    ensures |a| <= |b|
  {
    if a != {} {
      var x :| x in a;
      SubsetIsNoLarger(a - {x}, b - {x});
    }
  }

  lemma FewerLeft<T>(all: set<T>, a: set<T>, b: set<T>)
    requires a < b && b <= all
    ensures |all - b| < |all - a|
  {
    assert b - a != {};
    var x :| x in b - a;
    SubsetIsNoLarger(all - b, all - a - {x});
  }
}
