/** Sizes of finite sets under one-to-one maps. */
module Sets {
  lemma {:induction false} InjectionFits<A, B>(a: set<A>, f: map<A, B>, b: set<B>)
    requires a <= f.Keys
    requires forall x :: x in a ==> f[x] in b
    requires forall x, y :: x in a && y in a && f[x] == f[y] ==> x == y
    ensures |a| <= |b|
  {
    if a != {} {
      var x :| x in a;
      InjectionFits(a - {x}, f, b - {f[x]});
    }
  }

  function Below(n: nat): (s: set<nat>)
    ensures forall i: nat :: i in s <==> i < n
    ensures |s| == n
  {
    if n == 0 then {} else Below(n - 1) + {n - 1}
  }

  // The next key a range over a Go map yields: any of those left.
  method AnyOf<T>(todo: set<T>) returns (x: T)
    requires todo != {}
    ensures x in todo
  {
    x :| x in todo;
  }
}
