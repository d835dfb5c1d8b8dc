/** Sizes of finite sets under inclusion and injection. */
module Counting {

  lemma {:induction false} SubsetSize<T>(a: set<T>, b: set<T>)
    requires a <= b
    ensures |a| <= |b|
  {
    if a != {} {
      var x :| x in a;
      SubsetSize(a - {x}, b - {x});
    }
  }

  lemma {:induction false} InjectionSize<A, B>(f: map<A, B>, a: set<A>, b: set<B>)
    requires a <= f.Keys && forall x <- a :: f[x] in b
    requires forall x, y :: x in a && y in a && f[x] == f[y] ==> x == y
    ensures |a| <= |b|
  {
    if a != {} {
      var x :| x in a;
      InjectionSize(f, a - {x}, b - {f[x]});
    }
  }
}
