/** Array.prototype.sort as the frontend uses it: a stable sort driven by a
    comparator `(a, b) => key(a) - key(b)` or `a.name.localeCompare(b.name)`.
    The comparator is modelled as a "not after" relation `le`; an element
    is inserted before the first element it is not after, so equal elements
    keep their input order. */
module Sorting {
  import opened Collections

  /** `le` is total and transitive on the elements of s. */
  ghost predicate TotalOn<T>(s: seq<T>, le: (T, T) -> bool)
  {
    (forall a, b | a in s && b in s :: le(a, b) || le(b, a))
    && (forall a, b, c | a in s && b in s && c in s :: le(a, b) && le(b, c) ==> le(a, c))
  }

  lemma TotalOnSub<T>(s: seq<T>, t: seq<T>, le: (T, T) -> bool)
    requires TotalOn(s, le)
    requires forall a :: a in multiset(t) ==> a in multiset(s)
    ensures TotalOn(t, le)
  {
    forall a | a in t ensures a in s {
      assert a in multiset(t);
    }
  }

  ghost predicate SortedBy<T>(s: seq<T>, le: (T, T) -> bool)
  {
    forall i, j :: 0 <= i < j < |s| ==> le(s[i], s[j])
  }

  function Insert<T>(x: T, s: seq<T>, le: (T, T) -> bool): (r: seq<T>)
    ensures multiset(r) == multiset(s) + multiset{x}
    ensures |r| == |s| + 1
  {
    if s == [] || le(x, s[0]) then [x] + s
    else
      assert s == [s[0]] + s[1..];
      [s[0]] + Insert(x, s[1..], le)
  }

  /** The stable sort of `s` under `le`. */
  function Sort<T>(s: seq<T>, le: (T, T) -> bool): (r: seq<T>)
    ensures multiset(r) == multiset(s)
    ensures |r| == |s|
  {
    if s == [] then []
    else
      assert s == [s[0]] + s[1..];
      Insert(s[0], Sort(s[1..], le), le)
  }

  lemma TotalAt<T>(s: seq<T>, le: (T, T) -> bool, a: T, b: T)
    requires TotalOn(s, le) && a in s && b in s
    ensures le(a, b) || le(b, a)
  {
  }

  lemma TransAt<T>(s: seq<T>, le: (T, T) -> bool, a: T, b: T, c: T)
    requires TotalOn(s, le) && a in s && b in s && c in s
    requires le(a, b) && le(b, c)
    ensures le(a, c)
  {
  }

  /** Putting x in front of a sorted list it is not after keeps it sorted. */
  lemma InsertFront<T>(x: T, s: seq<T>, le: (T, T) -> bool)
    requires TotalOn([x] + s, le)
    requires SortedBy(s, le)
    requires s == [] || le(x, s[0])
    ensures SortedBy([x] + s, le)
  {
    var r := [x] + s;
    forall i, j | 0 <= i < j < |r| ensures le(r[i], r[j]) {
      if i == 0 && j > 1 {
        assert r[j] == s[j - 1] && le(s[0], s[j - 1]);
        TransAt(r, le, x, s[0], s[j - 1]);
      } else if i > 0 {
        assert r[i] == s[i - 1] && r[j] == s[j - 1];
      }
    }
  }

  /** A head that every element of a sorted tail follows keeps the list
      sorted. */
  lemma ConsSorted<T>(h: T, tail: seq<T>, le: (T, T) -> bool)
    requires SortedBy(tail, le)
    requires forall y | y in multiset(tail) :: le(h, y)
    ensures SortedBy([h] + tail, le)
  {
    var r := [h] + tail;
    forall i, j | 0 <= i < j < |r| ensures le(r[i], r[j]) {
      if i == 0 {
        assert r[j] == tail[j - 1];
        assert r[j] in multiset(tail);
      } else {
        assert r[i] == tail[i - 1] && r[j] == tail[j - 1];
      }
    }
  }

  lemma {:induction false} InsertSorted<T>(x: T, s: seq<T>, le: (T, T) -> bool)
    requires TotalOn([x] + s, le)
    requires SortedBy(s, le)
    ensures SortedBy(Insert(x, s, le), le)
  {
    if s == [] || le(x, s[0]) {
      InsertFront(x, s, le);
    } else {
      var tail := Insert(x, s[1..], le);
      TotalOnSub([x] + s, [x] + s[1..], le);
      InsertSorted(x, s[1..], le);
      TotalAt([x] + s, le, x, s[0]);
      forall y | y in multiset(tail) ensures le(s[0], y) {
        assert y in multiset(s[1..]) + multiset{x};
        if y in multiset(s[1..]) {
          var k :| 0 <= k < |s[1..]| && s[1..][k] == y;
          assert s[1 + k] == y;
        }
      }
      ConsSorted(s[0], tail, le);
    }
  }

  /** Every sort the frontend performs yields an ordered permutation of its
      input. */
  lemma {:induction false} SortSorted<T>(s: seq<T>, le: (T, T) -> bool)
    requires TotalOn(s, le)
    ensures SortedBy(Sort(s, le), le)
    ensures multiset(Sort(s, le)) == multiset(s)
  {
    if s != [] {
      assert s == [s[0]] + s[1..];
      TotalOnSub(s, s[1..], le);
      SortSorted(s[1..], le);
      TotalOnSub(s, [s[0]] + Sort(s[1..], le), le);
      InsertSorted(s[0], Sort(s[1..], le), le);
    }
  }

  /** A sort keeps exactly the elements of its input. */
  lemma SortMembers<T>(s: seq<T>, le: (T, T) -> bool)
    ensures forall x :: x in Sort(s, le) <==> x in s
  {
    forall x ensures x in Sort(s, le) <==> x in s {
      assert x in Sort(s, le) <==> x in multiset(Sort(s, le));
      assert x in s <==> x in multiset(s);
    }
  }

  /** Inserting x never moves it past an element of its own class `p`
      that it is not after. */
  lemma {:induction false} InsertStable<T>(x: T, s: seq<T>, le: (T, T) -> bool, p: T -> bool)
    requires p(x) ==> forall b | b in s && p(b) :: le(x, b)
    ensures Filter(Insert(x, s, le), p) == Filter([x] + s, p)
  {
    if s != [] && !le(x, s[0]) {
      assert s == [s[0]] + s[1..];
      InsertStable(x, s[1..], le, p);
      FilterAppend([s[0]], Insert(x, s[1..], le), p);
      FilterAppend([x], s[1..], p);
      FilterAppend([x], s, p);
      FilterAppend([s[0]], s[1..], p);
    }
  }

  /** Stability: when the elements of a class `p` are all "not after" each
      other, the sort keeps them in their input order. */
  lemma {:induction false} SortStable<T>(s: seq<T>, le: (T, T) -> bool, p: T -> bool)
    requires forall a, b | a in s && b in s && p(a) && p(b) :: le(a, b)
    ensures Filter(Sort(s, le), p) == Filter(s, p)
  {
    if s != [] {
      assert s == [s[0]] + s[1..];
      SortStable(s[1..], le, p);
      SortMembers(s[1..], le);
      InsertStable(s[0], Sort(s[1..], le), le, p);
      FilterAppend([s[0]], Sort(s[1..], le), p);
      FilterAppend([s[0]], s[1..], p);
    }
  }

  // ---------------------------------------------------------------------
  // The two orders the frontend sorts by.

  /** Ascending by an integer key, as `(a, b) => key(a) - key(b)`. */
  function ByKey<T>(key: T -> int): (T, T) -> bool
  {
    (a: T, b: T) => key(a) <= key(b)
  }

  lemma ByKeyTotal<T>(s: seq<T>, key: T -> int)
    ensures TotalOn(s, ByKey(key))
  {
  }

  /** The elements whose key is v. */
  function WithKey<T>(key: T -> int, v: int): T -> bool
  {
    (x: T) => key(x) == v
  }

  /** Elements with equal keys keep their input order. */
  lemma SortByKeyStable<T>(s: seq<T>, key: T -> int, v: int)
    ensures Filter(Sort(s, ByKey(key)), WithKey(key, v)) == Filter(s, WithKey(key, v))
  {
    SortStable(s, ByKey(key), WithKey(key, v));
  }

  /** Code-unit lexicographic order, the model of String.prototype.localeCompare. */
  predicate TextLe(a: string, b: string)
  {
    a == [] || (b != [] && (a[0] < b[0] || (a[0] == b[0] && TextLe(a[1..], b[1..]))))
  }

  lemma {:induction false} TextLeTotal(a: string, b: string)
    ensures TextLe(a, b) || TextLe(b, a)
  {
    if a != [] && b != [] && a[0] == b[0] {
      TextLeTotal(a[1..], b[1..]);
    }
  }

  lemma {:induction false} TextLeTransitive(a: string, b: string, c: string)
    requires TextLe(a, b) && TextLe(b, c)
    ensures TextLe(a, c)
  {
    if a != [] && a[0] == b[0] && b[0] == c[0] {
      TextLeTransitive(a[1..], b[1..], c[1..]);
    }
  }

  function ByText<T>(key: T -> string): (T, T) -> bool
  {
    (a: T, b: T) => TextLe(key(a), key(b))
  }

  lemma ByTextTotal<T>(s: seq<T>, key: T -> string)
    ensures TotalOn(s, ByText(key))
  {
    forall a, b | a in s && b in s ensures ByText(key)(a, b) || ByText(key)(b, a) {
      TextLeTotal(key(a), key(b));
    }
    forall a, b, c | a in s && b in s && c in s && ByText(key)(a, b) && ByText(key)(b, c) ensures ByText(key)(a, c) {
      TextLeTransitive(key(a), key(b), key(c));
    }
  }
}
