/** What sort.Ints and sort.Strings give: the elements in increasing order. */
module Sorting {
  ghost predicate TotalOrder<T(!new)>(le: (T, T) -> bool) {
    && (forall x, y :: le(x, y) || le(y, x))
    && (forall x, y :: le(x, y) && le(y, x) ==> x == y)
    && (forall x, y, z :: le(x, y) && le(y, z) ==> le(x, z))
  }

  // Increasing, so without duplicates.
  ghost predicate Increasing<T(!new)>(s: seq<T>, le: (T, T) -> bool) {
    forall i, j :: 0 <= i < j < |s| ==> le(s[i], s[j]) && s[i] != s[j]
  }

  function Elements<T>(s: seq<T>): set<T> { set x | x in s }

  // `s` lists `elements` in increasing order.
  ghost predicate Lists<T(!new)>(s: seq<T>, elements: set<T>, le: (T, T) -> bool) {
    Increasing(s, le) && Elements(s) == elements
  }

  function Insert<T(==)>(x: T, s: seq<T>, le: (T, T) -> bool): seq<T> {
    if s == [] || le(x, s[0]) then [x] + s else [s[0]] + Insert(x, s[1..], le)
  }

  function Sort<T(==)>(s: seq<T>, le: (T, T) -> bool): seq<T> {
    if s == [] then [] else Insert(s[|s| - 1], Sort(s[..|s| - 1], le), le)
  }

  lemma FrontElement<T>(x: T, s: seq<T>)
    ensures Elements([x] + s) == {x} + Elements(s)
  {
  }

  lemma {:induction false} InsertElements<T>(x: T, s: seq<T>, le: (T, T) -> bool)
    ensures Elements(Insert(x, s, le)) == Elements(s) + {x}
  {
    if s == [] || le(x, s[0]) {
      FrontElement(x, s);
    } else {
      InsertElements(x, s[1..], le);
      assert s == [s[0]] + s[1..];
      FrontElement(s[0], s[1..]);
      FrontElement(s[0], Insert(x, s[1..], le));
    }
  }

  lemma {:induction false} InsertKeepsOrder<T(!new)>(x: T, s: seq<T>, le: (T, T) -> bool)
    requires TotalOrder(le) && Increasing(s, le) && x !in s
    ensures Increasing(Insert(x, s, le), le)
  {
    if s != [] && !le(x, s[0]) {
      var rest := s[1..];
      InsertKeepsOrder(x, rest, le);
      InsertElements(x, rest, le);
      var out := Insert(x, rest, le);
      forall k | 0 <= k < |out| ensures le(s[0], out[k]) && s[0] != out[k] {
        assert out[k] in Elements(out);
      }
    }
  }

  // `s` holds every element of `elements` once, in any order.
  ghost predicate Collects<T(!new)>(s: seq<T>, elements: set<T>) {
    if s == [] then elements == {} else
    var x := s[|s| - 1];
    x in elements && Collects(s[..|s| - 1], elements - {x})
  }

  lemma Collect<T(!new)>(s: seq<T>, x: T, elements: set<T>)
    requires Collects(s, elements) && x !in elements
    ensures Collects(s + [x], elements + {x})
  {
    assert (s + [x])[..|s|] == s && elements + {x} - {x} == elements;
  }

  lemma {:induction false} SortLists<T(!new)>(s: seq<T>, elements: set<T>, le: (T, T) -> bool)
    requires TotalOrder(le) && Collects(s, elements)
    ensures Lists(Sort(s, le), elements, le)
  {
    if s != [] {
      var rest, x := s[..|s| - 1], s[|s| - 1];
      SortLists(rest, elements - {x}, le);
      assert x !in Elements(Sort(rest, le));
      InsertKeepsOrder(x, Sort(rest, le), le);
      InsertElements(x, Sort(rest, le), le);
    }
  }

  /** There is only one such list. */
  lemma {:induction false} ListsUnique<T(!new)>(a: seq<T>, b: seq<T>, elements: set<T>, le: (T, T) -> bool)
    requires TotalOrder(le) && Lists(a, elements, le) && Lists(b, elements, le)
    ensures a == b
  {
    if a == [] {
      assert forall k :: 0 <= k < |b| ==> b[k] in Elements(b);
    } else {
      assert a[0] in Elements(a);
      assert b != [];
      assert b[0] in Elements(b);
      assert a[0] == b[0];
      forall x ensures x in a[1..] <==> x in a && x != a[0] {
        assert a == [a[0]] + a[1..];
      }
      forall x ensures x in b[1..] <==> x in b && x != b[0] {
        assert b == [b[0]] + b[1..];
      }
      ListsUnique(a[1..], b[1..], elements - {a[0]}, le);
    }
  }

  predicate LeInt(x: int, y: int) { x <= y }

  // The byte-wise order of Go strings.
  predicate LeString(a: string, b: string) {
    a == [] || (b != [] && (a[0] < b[0] || (a[0] == b[0] && LeString(a[1..], b[1..]))))
  }

  lemma {:induction false} StringsAntisymmetric(a: string, b: string)
    requires LeString(a, b) && LeString(b, a)
    ensures a == b
  {
    if a != [] {
      StringsAntisymmetric(a[1..], b[1..]);
      assert a == [a[0]] + a[1..] && b == [b[0]] + b[1..];
    }
  }

  lemma {:induction false} StringsTransitive(a: string, b: string, c: string)
    requires LeString(a, b) && LeString(b, c)
    ensures LeString(a, c)
  {
    if a != [] && a[0] == b[0] == c[0] {
      StringsTransitive(a[1..], b[1..], c[1..]);
    }
  }

  lemma {:induction false} StringsComparable(a: string, b: string)
    ensures LeString(a, b) || LeString(b, a)
  {
    if a != [] && b != [] && a[0] == b[0] {
      StringsComparable(a[1..], b[1..]);
    }
  }

  lemma StringOrder()
    ensures TotalOrder(LeString)
  {
    forall x, y ensures LeString(x, y) || LeString(y, x) {
      StringsComparable(x, y);
    }
    forall x, y | LeString(x, y) && LeString(y, x) ensures x == y {
      StringsAntisymmetric(x, y);
    }
    forall x, y, z | LeString(x, y) && LeString(y, z) ensures LeString(x, z) {
      StringsTransitive(x, y, z);
    }
  }
}
