/** Generic helpers for the array idioms the storefront uses everywhere:
    JavaScript's `filter`, `map`, `find`/`findIndex` and a numeric `reduce`. */
module Collections {

  datatype Option<T> = None | Some(value: T) {
    function GetOr(default: T): T {
      match this
      case Some(v) => v
      case None => default
    }
  }

  /** The outcome of an operation that can be refused. */
  datatype Result<T, E> = Ok(value: T) | Err(error: E)

  /** `s.filter(f)`: the elements of `s` satisfying `f`, in their original order
      (`FilterAppend`, `FilterMultiplicity`). */
  function Filter<T>(s: seq<T>, f: T -> bool): (r: seq<T>)
    ensures |r| <= |s|
    ensures forall i :: 0 <= i < |r| ==> r[i] in s && f(r[i])
    ensures forall i :: 0 <= i < |s| && f(s[i]) ==> s[i] in r
  {
    if s == [] then []
    else if f(s[0]) then [s[0]] + Filter(s[1..], f)
    else Filter(s[1..], f)
  }

  /** `s.map(f)`. */
  function MapSeq<T, U>(s: seq<T>, f: T -> U): (r: seq<U>)
    ensures |r| == |s|
    ensures forall i :: 0 <= i < |s| ==> r[i] == f(s[i])
  {
    if s == [] then [] else [f(s[0])] + MapSeq(s[1..], f)
  }

  /** `s.findIndex(f)`, with `None` for JavaScript's -1. */
  function IndexWhere<T>(s: seq<T>, f: T -> bool): (r: Option<nat>)
    ensures r.None? <==> forall i :: 0 <= i < |s| ==> !f(s[i])
    ensures r.Some? ==> r.value < |s| && f(s[r.value])
    ensures r.Some? ==> forall j :: 0 <= j < r.value ==> !f(s[j])
  {
    if s == [] then None
    else if f(s[0]) then Some(0)
    else match IndexWhere(s[1..], f)
      case None => None
      case Some(k) => Some(k + 1)
  }

  /** `s.find(f)`: the first element satisfying `f`. */
  function Find<T>(s: seq<T>, f: T -> bool): (r: Option<T>)
    ensures r.None? <==> forall i :: 0 <= i < |s| ==> !f(s[i])
    ensures r.Some? ==> exists k :: 0 <= k < |s| && s[k] == r.value && f(s[k])
                                    && forall j :: 0 <= j < k ==> !f(s[j])
  {
    match IndexWhere(s, f)
    case None => None
    case Some(k) => Some(s[k])
  }

  /** `Object.assign`/spread on one field: a carried value replaces the old one, an
      absent one keeps it. */
  predicate Takes<T(==)>(carried: Option<T>, before: T, after: T) {
    if carried.Some? then after == carried.value else after == before
  }

  /** The number of elements satisfying `f`. */
  function Count<T>(s: seq<T>, f: T -> bool): nat
  {
    if s == [] then 0 else (if f(s[0]) then 1 else 0) + Count(s[1..], f)
  }

  /** The sum of `g` over the elements satisfying `f`. */
  function SumWhere<T>(s: seq<T>, f: T -> bool, g: T -> int): int
  {
    if s == [] then 0 else (if f(s[0]) then g(s[0]) else 0) + SumWhere(s[1..], f, g)
  }

  /** A filter keeps as many elements as satisfy it. */
  lemma {:induction false} FilterCount<T>(s: seq<T>, f: T -> bool)
    ensures |Filter(s, f)| == Count(s, f)
  {
    if s != [] {
      FilterCount(s[1..], f);
    }
  }

  /** Summing over a filtered list is summing over the elements that pass. */
  lemma {:induction false} FilterSum<T>(s: seq<T>, f: T -> bool, g: T -> int)
    ensures Sum(Filter(s, f), g) == SumWhere(s, f, g)
  {
    if s != [] {
      FilterSum(s[1..], f, g);
      if f(s[0]) {
        assert Filter(s, f) == [s[0]] + Filter(s[1..], f);
      }
    }
  }

  /** Counting `g` over a list filtered by `f` counts the elements passing both. */
  lemma {:induction false} CountFiltered<T>(s: seq<T>, f: T -> bool, g: T -> bool, both: T -> bool)
    requires forall x :: both(x) == (f(x) && g(x))
    ensures Count(Filter(s, f), g) == Count(s, both)
  {
    if s != [] {
      CountFiltered(s[1..], f, g, both);
      if f(s[0]) {
        var r := Filter(s, f);
        assert r == [s[0]] + Filter(s[1..], f);
        assert r[1..] == Filter(s[1..], f);
      }
    }
  }

  /** `s.reduce((sum, x) => sum + f(x), 0)`. */
  function Sum<T>(s: seq<T>, f: T -> int): int
  {
    if s == [] then 0 else f(s[0]) + Sum(s[1..], f)
  }

  /** `s.filter(y => y !== x)`. */
  function RemoveAll<T(==)>(s: seq<T>, x: T): (r: seq<T>)
    ensures x !in r
    ensures forall i :: 0 <= i < |r| ==> r[i] in s
    ensures forall i :: 0 <= i < |s| && s[i] != x ==> s[i] in r
    ensures x !in s ==> r == s
  {
    if s == [] then []
    else if s[0] == x then RemoveAll(s[1..], x)
    else [s[0]] + RemoveAll(s[1..], x)
  }

  /** Removal distributes over concatenation. */
  lemma {:induction false} RemoveAllAppend<T>(a: seq<T>, b: seq<T>, x: T)
    ensures RemoveAll(a + b, x) == RemoveAll(a, x) + RemoveAll(b, x)
  {
    if a == [] {
      assert a + b == b;
    } else {
      assert (a + b)[0] == a[0];
      assert (a + b)[1..] == a[1..] + b;
      RemoveAllAppend(a[1..], b, x);
    }
  }

  /** Removal never introduces a repeated element. */
  lemma {:induction false} RemoveAllNoDuplicates<T>(s: seq<T>, x: T)
    requires NoDuplicates(s)
    ensures NoDuplicates(RemoveAll(s, x))
  {
    if s != [] {
      var t := s[1..];
      assert NoDuplicates(t) by {
        forall i, j | 0 <= i < j < |t| ensures t[i] != t[j] {
          assert t[i] == s[i + 1] && t[j] == s[j + 1];
        }
      }
      RemoveAllNoDuplicates(t, x);
      if s[0] != x {
        var u := RemoveAll(t, x);
        assert s[0] !in t by {
          forall k | 0 <= k < |t| ensures t[k] != s[0] {
            assert t[k] == s[k + 1];
          }
        }
        var r := [s[0]] + u;
        forall i, j | 0 <= i < j < |r| ensures r[i] != r[j] {
          assert r[j] == u[j - 1];
          if i > 0 {
            assert r[i] == u[i - 1];
          }
        }
      }
    }
  }

  predicate NoDuplicates<T(==)>(s: seq<T>)
  {
    forall i, j :: 0 <= i < j < |s| ==> s[i] != s[j]
  }

  /** Filtering distributes over concatenation, so it keeps the survivors in order. */
  lemma {:induction false} FilterAppend<T>(a: seq<T>, b: seq<T>, f: T -> bool)
    ensures Filter(a + b, f) == Filter(a, f) + Filter(b, f)
  {
    if a == [] {
      assert a + b == b;
    } else {
      assert (a + b)[0] == a[0];
      assert (a + b)[1..] == a[1..] + b;
      FilterAppend(a[1..], b, f);
    }
  }

  /** A filter that every element passes changes nothing. */
  lemma {:induction false} FilterAllKept<T>(s: seq<T>, f: T -> bool)
    requires forall i :: 0 <= i < |s| ==> f(s[i])
    ensures Filter(s, f) == s
  {
    if s != [] {
      FilterAllKept(s[1..], f);
    }
  }

  /** Each value keeps its multiplicity if it passes the filter and disappears otherwise. */
  lemma {:induction false} FilterMultiplicity<T>(s: seq<T>, f: T -> bool, x: T)
    ensures multiset(Filter(s, f))[x] == if f(x) then multiset(s)[x] else 0
  {
    if s != [] {
      FilterMultiplicity(s[1..], f, x);
      assert s == [s[0]] + s[1..];
      assert multiset(s) == multiset([s[0]]) + multiset(s[1..]);
      if f(s[0]) {
        assert multiset(Filter(s, f)) == multiset([s[0]]) + multiset(Filter(s[1..], f));
      }
    }
  }

  /** No two elements of `s` share a key. */
  predicate DistinctKeys<T, K(==)>(s: seq<T>, key: T -> K)
  {
    forall i, j :: 0 <= i < j < |s| ==> key(s[i]) != key(s[j])
  }

  /** Filtering keeps keys distinct (it only drops elements, never repeats one). */
  lemma {:induction false} FilterDistinctKeys<T, K>(s: seq<T>, f: T -> bool, key: T -> K)
    requires DistinctKeys(s, key)
    ensures DistinctKeys(Filter(s, f), key)
  {
    if s != [] {
      var t := s[1..];
      assert DistinctKeys(t, key) by {
        forall i, j | 0 <= i < j < |t| ensures key(t[i]) != key(t[j]) {
          assert t[i] == s[i + 1] && t[j] == s[j + 1];
        }
      }
      FilterDistinctKeys(t, f, key);
      if f(s[0]) {
        var u := Filter(t, f);
        var r := [s[0]] + u;
        assert forall y :: y in t ==> key(y) != key(s[0]) by {
          forall y | y in t ensures key(y) != key(s[0]) {
            var k :| 0 <= k < |t| && t[k] == y;
            assert s[k + 1] == y;
          }
        }
        forall i, j | 0 <= i < j < |r| ensures key(r[i]) != key(r[j]) {
          assert r[j] == u[j - 1] && r[j] in t;
          if i > 0 {
            assert r[i] == u[i - 1];
          }
        }
      }
    }
  }

  /** Sums distribute over concatenation. */
  lemma {:induction false} SumAppend<T>(a: seq<T>, b: seq<T>, f: T -> int)
    ensures Sum(a + b, f) == Sum(a, f) + Sum(b, f)
  {
    if a == [] {
      assert a + b == b;
    } else {
      assert (a + b)[0] == a[0];
      assert (a + b)[1..] == a[1..] + b;
      SumAppend(a[1..], b, f);
    }
  }

  /** A sum of terms that are each at least `lo` is at least `lo` times the length. */
  lemma {:induction false} SumLowerBound<T>(s: seq<T>, f: T -> int, lo: int)
    requires forall i :: 0 <= i < |s| ==> f(s[i]) >= lo
    ensures Sum(s, f) >= lo * |s|
  {
    if s != [] {
      SumLowerBound(s[1..], f, lo);
    }
  }

  /** A sum of terms that are each at most `hi` is at most `hi` times the length. */
  lemma {:induction false} SumUpperBound<T>(s: seq<T>, f: T -> int, hi: int)
    requires forall i :: 0 <= i < |s| ==> f(s[i]) <= hi
    ensures Sum(s, f) <= hi * |s|
  {
    if s != [] {
      SumUpperBound(s[1..], f, hi);
    }
  }

  /** Sums of pointwise-equal terms are equal. */
  lemma {:induction false} SumCongruent<T, U>(s: seq<T>, f: T -> int, t: seq<U>, g: U -> int)
    requires |s| == |t|
    requires forall i :: 0 <= i < |s| ==> f(s[i]) == g(t[i])
    ensures Sum(s, f) == Sum(t, g)
  {
    if s != [] {
      SumCongruent(s[1..], f, t[1..], g);
    }
  }
}
