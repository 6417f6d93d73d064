/** Sequence operations the handlers perform on stored lists and on React
    state: `find`/`findOne` (the first match), `filter`, `splice` of one
    element, `some`, `slice`, and a `Map` keyed by an id that keeps its
    first-insertion order. */
module Collections {
  import opened Common

  /** Index of the first element satisfying `p` (Array.prototype.findIndex,
      Mongoose findOne over a collection kept in insertion order). */
  function FirstIndex<T>(s: seq<T>, p: T -> bool): (r: Option<nat>)
    ensures r.Some? ==> r.value < |s| && p(s[r.value]) && forall j :: 0 <= j < r.value ==> !p(s[j])
    ensures r.None? <==> forall j :: 0 <= j < |s| ==> !p(s[j])
  {
    if s == [] then None
    else if p(s[0]) then Some(0)
    else
      match FirstIndex(s[1..], p)
      case None => None
      case Some(k) => Some(k + 1)
  }

  /** Array.prototype.filter: the elements satisfying `p`, in order. */
  function Filter<T>(s: seq<T>, p: T -> bool): (r: seq<T>)
    ensures |r| <= |s|
    ensures forall i :: 0 <= i < |r| ==> r[i] in s && p(r[i])
    ensures forall i :: 0 <= i < |s| && p(s[i]) ==> s[i] in r
  {
    if s == [] then []
    else if p(s[0]) then [s[0]] + Filter(s[1..], p)
    else Filter(s[1..], p)
  }

  lemma {:induction false} FilterAppend<T>(s: seq<T>, t: seq<T>, p: T -> bool)
    ensures Filter(s + t, p) == Filter(s, p) + Filter(t, p)
  {
    if s == [] {
      assert s + t == t;
    } else {
      assert (s + t)[1..] == s[1..] + t;
      FilterAppend(s[1..], t, p);
    }
  }

  /** Filtering with a predicate every element meets changes nothing. */
  lemma {:induction false} FilterAll<T>(s: seq<T>, p: T -> bool)
    requires forall i :: 0 <= i < |s| ==> p(s[i])
    ensures Filter(s, p) == s
  {
    if s != [] {
      FilterAll(s[1..], p);
    }
  }

  /** An element survives a filter exactly when it is in the list and
      passes. */
  lemma FilterMember<T>(s: seq<T>, p: T -> bool, x: T)
    ensures x in Filter(s, p) <==> x in s && p(x)
  {
    var r := Filter(s, p);
    if x in r {
      var i :| 0 <= i < |r| && r[i] == x;
    }
    if x in s && p(x) {
      var i :| 0 <= i < |s| && s[i] == x;
    }
  }

  lemma FilterMembers<T>(s: seq<T>, p: T -> bool)
    ensures forall x :: x in Filter(s, p) <==> x in s && p(x)
  {
    forall x ensures x in Filter(s, p) <==> x in s && p(x) {
      FilterMember(s, p, x);
    }
  }

  /** Filtering keeps the relative order: the result is a subsequence. */
  predicate IsSubsequence<T(==)>(r: seq<T>, s: seq<T>)
  {
    r == [] || (s != [] && ((r[0] == s[0] && IsSubsequence(r[1..], s[1..])) || IsSubsequence(r, s[1..])))
  }

  lemma {:induction false} FilterSubsequence<T>(s: seq<T>, p: T -> bool)
    ensures IsSubsequence(Filter(s, p), s)
  {
    if s != [] {
      FilterSubsequence(s[1..], p);
      if p(s[0]) {
        assert Filter(s, p)[1..] == Filter(s[1..], p);
      }
    }
  }

  /** A prefix of a subsequence is a subsequence. */
  lemma {:induction false} SubsequencePrefix<T>(r: seq<T>, s: seq<T>, k: nat)
    requires IsSubsequence(r, s) && k <= |r|
    ensures IsSubsequence(r[..k], s)
    decreases |s|
  {
    if k > 0 {
      if r[0] == s[0] && IsSubsequence(r[1..], s[1..]) {
        SubsequencePrefix(r[1..], s[1..], k - 1);
        assert r[..k][1..] == r[1..][..k - 1];
      } else {
        SubsequencePrefix(r, s[1..], k);
      }
    }
  }

  /** No two elements share a key. */
  predicate DistinctBy<T, K(==)>(s: seq<T>, key: T -> K)
  {
    forall i, j :: 0 <= i < j < |s| ==> key(s[i]) != key(s[j])
  }

  lemma {:induction false} SubsequenceMembers<T>(r: seq<T>, s: seq<T>)
    requires IsSubsequence(r, s)
    ensures forall j :: 0 <= j < |r| ==> r[j] in s
    decreases |s|
  {
    if r != [] {
      if r[0] == s[0] && IsSubsequence(r[1..], s[1..]) {
        SubsequenceMembers(r[1..], s[1..]);
        forall j | 0 < j < |r| ensures r[j] in s {
          assert r[j] == r[1..][j - 1];
        }
      } else {
        SubsequenceMembers(r, s[1..]);
      }
    }
  }

  /** A subsequence of a sequence without repeated keys has none either. */
  lemma {:induction false} SubsequenceDistinct<T, K>(r: seq<T>, s: seq<T>, key: T -> K)
    requires IsSubsequence(r, s)
    requires DistinctBy(s, key)
    ensures DistinctBy(r, key)
    decreases |s|
  {
    if r != [] {
      if r[0] == s[0] && IsSubsequence(r[1..], s[1..]) {
        SubsequenceDistinct(r[1..], s[1..], key);
        SubsequenceMembers(r[1..], s[1..]);
        forall j | 0 < j < |r| ensures key(r[0]) != key(r[j]) {
          assert r[j] == r[1..][j - 1];
          var m :| 0 <= m < |s[1..]| && s[1..][m] == r[j];
          assert s[m + 1] == r[j];
        }
        forall i, j | 0 <= i < j < |r| ensures key(r[i]) != key(r[j]) {
          if i > 0 {
            assert r[i] == r[1..][i - 1] && r[j] == r[1..][j - 1];
          }
        }
      } else {
        SubsequenceDistinct(r, s[1..], key);
      }
    }
  }

  /** One splice(k, 1): the element at k is gone, the rest keep their order. */
  function RemoveAt<T>(s: seq<T>, k: nat): (r: seq<T>)
    requires k < |s|
    ensures |r| == |s| - 1
    ensures forall j :: 0 <= j < k ==> r[j] == s[j]
    ensures forall j :: k <= j < |r| ==> r[j] == s[j + 1]
  {
    s[..k] + s[k + 1..]
  }

  /** The like toggle: `xs.includes(x) ? xs.filter(y => y !== x) : [...xs, x]`
      (the backend pushes in place, the frontend spreads; both are this). */
  function Toggle<T(==)>(xs: seq<T>, x: T): (r: seq<T>)
    ensures x in r <==> x !in xs
    ensures forall i :: 0 <= i < |xs| && xs[i] != x ==> xs[i] in r
    ensures forall i :: 0 <= i < |r| && r[i] != x ==> r[i] in xs
    ensures x in xs ==> r == Filter(xs, y => y != x)
    ensures x !in xs ==> r == xs + [x]
  {
    if x in xs then Filter(xs, y => y != x) else xs + [x]
  }

  predicate NoDuplicates<T(==)>(xs: seq<T>)
  {
    forall i, j :: 0 <= i < j < |xs| ==> xs[i] != xs[j]
  }

  /** Toggling twice restores membership; on a list without duplicates and
      without x the list itself comes back. */
  lemma ToggleTwice<T>(xs: seq<T>, x: T)
    ensures forall y :: y in Toggle(Toggle(xs, x), x) <==> y in xs
    ensures x !in xs ==> Toggle(Toggle(xs, x), x) == xs
  {
    if x !in xs {
      FilterAll(xs, y => y != x);
      assert Filter(xs + [x], y => y != x) == Filter(xs, y => y != x) + Filter([x], y => y != x) by {
        FilterAppend(xs, [x], y => y != x);
      }
    }
  }

  /** On a list without duplicates, two toggles give back the same set and
      the same length. */
  lemma {:induction false} ToggleTwiceNoDuplicates<T>(xs: seq<T>, x: T)
    requires NoDuplicates(xs)
    ensures |Toggle(Toggle(xs, x), x)| == |xs|
    ensures NoDuplicates(Toggle(Toggle(xs, x), x))
  {
    if x !in xs {
      ToggleTwice(xs, x);
    } else {
      var f := Filter(xs, y => y != x);
      FilterSubsequence(xs, y => y != x);
      SubsequenceDistinct(f, xs, y => y);
      FilterRemovesOne(xs, x);
      forall i | 0 <= i < |f| ensures f[i] != x { }
      assert Toggle(f, x) == f + [x];
    }
  }

  /** Filtering out an element that occurs once shortens the list by one. */
  lemma {:induction false} FilterRemovesOne<T>(xs: seq<T>, x: T)
    requires NoDuplicates(xs) && x in xs
    ensures |Filter(xs, y => y != x)| == |xs| - 1
  {
    if xs[0] == x {
      FilterAll(xs[1..], y => y != x);
    } else {
      assert NoDuplicates(xs[1..]);
      FilterRemovesOne(xs[1..], x);
    }
  }

  /** Array.prototype.some. */
  predicate Any<T>(s: seq<T>, p: T -> bool)
  {
    exists i | 0 <= i < |s| :: p(s[i])
  }

  /** The first n elements (slice(0, n)), the whole sequence when shorter. */
  function Take<T>(s: seq<T>, n: int): (r: seq<T>)
    ensures |r| == if n <= 0 then 0 else if n < |s| then n else |s|
    ensures r == s[..|r|]
  {
    if n <= 0 then [] else if n < |s| then s[..n] else s
  }

  /** `map.set(key(x), x)` on a JS Map held as its entries in insertion
      order: an existing key keeps its position and takes the new value, a
      new key goes at the end. */
  function MapSet<T(==), K(==)>(entries: seq<T>, key: T -> K, x: T): seq<T>
  {
    match FirstIndex(entries, e => key(e) == key(x))
    case Some(j) => entries[j := x]
    case None => entries + [x]
  }

  /** The keys of `s`, seen left to right. */
  function Keys<T, K>(s: seq<T>, key: T -> K): (r: seq<K>)
    ensures |r| == |s|
    ensures forall i :: 0 <= i < |s| ==> r[i] == key(s[i])
  {
    seq(|s|, i requires 0 <= i < |s| => key(s[i]))
  }

  /** `[...new Map(s.map(x => [key(x), x])).values()]`. */
  function MapValues<T(==), K(==)>(s: seq<T>, key: T -> K): seq<T>
    decreases |s|
  {
    if s == [] then [] else MapSet(MapValues(s[..|s| - 1], key), key, s[|s| - 1])
  }

  /** x is the last element of s with its key. */
  predicate LastOfKey<T(==), K(==)>(s: seq<T>, key: T -> K, x: T)
  {
    exists i | 0 <= i < |s| :: s[i] == x && forall i' | i < i' < |s| :: key(s[i']) != key(x)
  }

  lemma MapSetKeys<T, K>(r0: seq<T>, key: T -> K, x: T, ks: seq<K>)
    requires Keys(r0, key) == Distinct(ks)
    ensures Keys(MapSet(r0, key, x), key) == Distinct(ks + [key(x)])
  {
    DistinctSnoc(ks, key(x));
    match FirstIndex(r0, e => key(e) == key(x))
    case Some(j) =>
      assert Keys(r0, key)[j] == key(x);
      assert Keys(r0[j := x], key) == Keys(r0, key);
    case None =>
      assert key(x) !in Keys(r0, key);
      assert Keys(r0 + [x], key) == Keys(r0, key) + [key(x)];
  }

  lemma MapSetLast<T, K>(r0: seq<T>, key: T -> K, x: T, init: seq<T>)
    requires Keys(r0, key) == Distinct(Keys(init, key))
    requires forall m :: 0 <= m < |r0| ==> LastOfKey(init, key, r0[m])
    ensures forall m :: 0 <= m < |MapSet(r0, key, x)| ==> LastOfKey(init + [x], key, MapSet(r0, key, x)[m])
  {
    var s := init + [x];
    var r := MapSet(r0, key, x);
    DistinctSpec(Keys(init, key));
    forall m | 0 <= m < |r| ensures LastOfKey(s, key, r[m]) {
      if r[m] == x {
        assert s[|s| - 1] == x;
      } else {
        assert m < |r0| && r[m] == r0[m] && key(r0[m]) != key(x) by {
          match FirstIndex(r0, e => key(e) == key(x))
          case Some(j) =>
            assert m != j;
            assert Keys(r0, key)[m] != Keys(r0, key)[j];
          case None =>
        }
        var i :| 0 <= i < |init| && init[i] == r0[m] && forall i' | i < i' < |init| :: key(init[i']) != key(r0[m]);
        assert s[i] == r[m];
      }
    }
  }

  /** The keys of the values, in order, are the distinct keys of s in order
      of first occurrence, and each value is the last one set for its key. */
  lemma {:induction false} MapValuesSpec<T, K>(s: seq<T>, key: T -> K)
    ensures Keys(MapValues(s, key), key) == Distinct(Keys(s, key))
    ensures forall j :: 0 <= j < |MapValues(s, key)| ==> LastOfKey(s, key, MapValues(s, key)[j])
    decreases |s|
  {
    if s != [] {
      var init, x := s[..|s| - 1], s[|s| - 1];
      MapValuesSpec(init, key);
      assert s == init + [x];
      assert Keys(s, key) == Keys(init, key) + [key(x)];
      MapSetKeys(MapValues(init, key), key, x, Keys(init, key));
      MapSetLast(MapValues(init, key), key, x, init);
    }
  }

  /** The distinct elements of s, in order of first occurrence. */
  function Distinct<K(==)>(s: seq<K>): (r: seq<K>)
    decreases |s|
  {
    if s == [] then []
    else
      var d := Distinct(s[..|s| - 1]);
      if s[|s| - 1] in d then d else d + [s[|s| - 1]]
  }

  lemma DistinctSnoc<K>(s: seq<K>, k: K)
    ensures Distinct(s + [k]) == if k in Distinct(s) then Distinct(s) else Distinct(s) + [k]
  {
    assert (s + [k])[..|s|] == s;
  }

  /** Distinct has no repeats and keeps exactly the elements of s. */
  lemma {:induction false} DistinctSpec<K>(s: seq<K>)
    ensures forall i, j :: 0 <= i < j < |Distinct(s)| ==> Distinct(s)[i] != Distinct(s)[j]
    ensures forall k :: k in Distinct(s) <==> k in s
    decreases |s|
  {
    if s != [] {
      DistinctSpec(s[..|s| - 1]);
      assert s == s[..|s| - 1] + [s[|s| - 1]];
    }
  }
}
