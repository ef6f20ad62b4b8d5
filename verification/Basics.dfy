/** What several modules share. */
module Basics {

  datatype Option<T> = None | Some(value: T)

  /** The table of the values `f` has below `n`. */
  function Tabulate<V>(n: nat, f: nat -> Option<V>): (r: map<nat, V>)
    ensures forall i: nat :: i in r <==> i < n && f(i).Some?
    ensures forall i :: i in r ==> r[i] == f(i).value
  {
    if n == 0 then map[]
    else
      var r := Tabulate(n - 1, f);
      if f(n - 1).Some? then r[n - 1 := f(n - 1).value] else r
  }

  lemma SubsetSize<T>(a: set<T>, b: set<T>)
    requires a <= b
    ensures |a| <= |b| && (|a| == |b| ==> a == b)
  {
    assert b == a + (b - a);
  }
}
