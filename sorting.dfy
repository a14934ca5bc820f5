/**
 * The stable descending sort the engine obtains from Array.prototype.sort
 * with a comparator that puts larger keys first. It is modelled as an
 * insertion sort that puts an element before every later element of equal
 * key, which is what stability means for a descending order.
 */
module Sorting {

  /** No two elements of `s` have the same projection. */
  predicate DistinctBy<T, U(==)>(s: seq<T>, proj: T -> U) {
    forall i, j :: 0 <= i < j < |s| ==> proj(s[i]) != proj(s[j])
  }

  predicate SortedDesc<T>(s: seq<T>, key: T -> int) {
    forall i, j :: 0 <= i < j < |s| ==> key(s[i]) >= key(s[j])
  }

  /** The elements of `s` whose key is `k`, in their order in `s`. */
  function WithKey<T>(s: seq<T>, key: T -> int, k: int): (r: seq<T>)
    ensures |r| <= |s|
    ensures forall i :: 0 <= i < |r| ==> key(r[i]) == k
  {
    if s == [] then []
    else if key(s[0]) == k then [s[0]] + WithKey(s[1..], key, k)
    else WithKey(s[1..], key, k)
  }

  /** Places `x` in front of the first element whose key is not larger. */
  function Insert<T>(x: T, s: seq<T>, key: T -> int): (r: seq<T>)
    ensures |r| == |s| + 1
    ensures multiset(r) == multiset(s) + multiset{x}
  {
    if s == [] || key(x) >= key(s[0]) then [x] + s
    else
      assert s == [s[0]] + s[1..];
      [s[0]] + Insert(x, s[1..], key)
  }

  lemma {:induction false} InsertSorted<T>(x: T, s: seq<T>, key: T -> int)
    requires SortedDesc(s, key)
    ensures SortedDesc(Insert(x, s, key), key)
  {
    if s != [] && key(x) < key(s[0]) {
      var rest := Insert(x, s[1..], key);
      InsertSorted(x, s[1..], key);
      forall i | 0 <= i < |rest| ensures key(s[0]) >= key(rest[i]) {
        assert rest[i] in multiset(rest);
        assert rest[i] == x || rest[i] in s[1..];
      }
    }
  }

  /** The stable sort by `key`, largest key first. */
  function SortDesc<T>(s: seq<T>, key: T -> int): (r: seq<T>)
    ensures |r| == |s|
    ensures multiset(r) == multiset(s)
    ensures SortedDesc(r, key)
  {
    if s == [] then []
    else
      assert s == [s[0]] + s[1..];
      var rest := SortDesc(s[1..], key);
      InsertSorted(s[0], rest, key);
      Insert(s[0], rest, key)
  }

  lemma {:induction false} InsertWithKey<T>(x: T, s: seq<T>, key: T -> int, k: int)
    ensures WithKey(Insert(x, s, key), key, k)
         == if key(x) == k then [x] + WithKey(s, key, k) else WithKey(s, key, k)
  {
    if s == [] || key(x) >= key(s[0]) {
      assert ([x] + s)[1..] == s;
    } else {
      InsertWithKey(x, s[1..], key, k);
      assert ([s[0]] + Insert(x, s[1..], key))[1..] == Insert(x, s[1..], key);
    }
  }

  /** Stability: for every key, the elements with that key keep their relative order. */
  lemma {:induction false} SortDescStable<T>(s: seq<T>, key: T -> int, k: int)
    ensures WithKey(SortDesc(s, key), key, k) == WithKey(s, key, k)
  {
    if s != [] {
      SortDescStable(s[1..], key, k);
      InsertWithKey(s[0], SortDesc(s[1..], key), key, k);
    }
  }

  /** Sorting keeps apart the elements that a projection keeps apart. */
  lemma {:induction false} SortDescKeepsDistinct<T, U>(s: seq<T>, key: T -> int, proj: T -> U)
    requires DistinctBy(s, proj)
    ensures DistinctBy(SortDesc(s, key), proj)
  {
    if s != [] {
      assert DistinctBy(s[1..], proj) by {
        forall i, j | 0 <= i < j < |s[1..]| ensures proj(s[1..][i]) != proj(s[1..][j]) {
          assert s[1..][i] == s[i + 1] && s[1..][j] == s[j + 1];
        }
      }
      SortDescKeepsDistinct(s[1..], key, proj);
      var sorted := SortDesc(s[1..], key);
      forall y | y in sorted ensures proj(y) != proj(s[0]) {
        assert y in multiset(sorted);
        assert y in s[1..];
      }
      InsertKeepsDistinct(s[0], sorted, key, proj);
    }
  }

  lemma {:induction false} InsertKeepsDistinct<T, U>(x: T, s: seq<T>, key: T -> int, proj: T -> U)
    requires DistinctBy(s, proj)
    requires forall y :: y in s ==> proj(y) != proj(x)
    ensures DistinctBy(Insert(x, s, key), proj)
  {
    if s == [] || key(x) >= key(s[0]) {
      ConsKeepsDistinct(x, s, proj);
    } else {
      assert DistinctBy(s[1..], proj) by {
        forall i, j | 0 <= i < j < |s[1..]| ensures proj(s[1..][i]) != proj(s[1..][j]) {
          assert s[1..][i] == s[i + 1] && s[1..][j] == s[j + 1];
        }
      }
      InsertKeepsDistinct(x, s[1..], key, proj);
      var rest := Insert(x, s[1..], key);
      forall y | y in rest ensures proj(y) != proj(s[0]) {
        assert y in multiset(rest);
        assert y == x || y in s[1..];
      }
      ConsKeepsDistinct(s[0], rest, proj);
    }
  }

  /** Putting an element whose projection is new in front of a distinct list keeps it distinct. */
  lemma ConsKeepsDistinct<T, U>(h: T, t: seq<T>, proj: T -> U)
    requires DistinctBy(t, proj)
    requires forall y :: y in t ==> proj(y) != proj(h)
    ensures DistinctBy([h] + t, proj)
  {
    var r := [h] + t;
    forall i, j | 0 <= i < j < |r| ensures proj(r[i]) != proj(r[j]) {
      if i == 0 {
        assert r[j] == t[j - 1];
        assert r[j] in t;
      } else {
        assert r[i] == t[i - 1] && r[j] == t[j - 1];
      }
    }
  }
}
