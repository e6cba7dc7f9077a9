/** What names a node, and the counting fact two of the bounds rest on. */
module Nodes {

  datatype Uid = Uid(volume: nat, link: nat)

  lemma {:induction false} SubsetSmaller<T>(a: set<T>, b: set<T>)
    requires a <= b
    ensures |a| <= |b|
  {
    if a != {} {
      var x :| x in a;
      SubsetSmaller(a - {x}, b - {x});
    }
  }
}
