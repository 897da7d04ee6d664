/** String order, stable sorting and filtering on sequences: the value-level
    counterparts of `Array.prototype.sort` and `Array.prototype.filter` used
    by the generator. */
module Ordering {

  /** Lexicographic order on strings, character by character; a proper
      prefix comes first. */
  predicate StrLe(a: string, b: string)
  {
    if a == [] then true
    else if b == [] then false
    else if a[0] != b[0] then a[0] < b[0]
    else StrLe(a[1..], b[1..])
  }

  lemma {:induction false} StrLeTotal(a: string, b: string)
    ensures StrLe(a, b) || StrLe(b, a)
  {
    if a != [] && b != [] && a[0] == b[0] {
      StrLeTotal(a[1..], b[1..]);
    }
  }

  lemma {:induction false} StrLeTransitive(a: string, b: string, c: string)
    requires StrLe(a, b) && StrLe(b, c)
    ensures StrLe(a, c)
  {
    if a != [] && b != [] && c != [] && a[0] == b[0] && b[0] == c[0] {
      StrLeTransitive(a[1..], b[1..], c[1..]);
    }
  }

  lemma {:induction false} StrLeAntisymmetric(a: string, b: string)
    requires StrLe(a, b) && StrLe(b, a)
    ensures a == b
  {
    if a != [] && b != [] {
      StrLeAntisymmetric(a[1..], b[1..]);
      assert a == [a[0]] + a[1..];
      assert b == [b[0]] + b[1..];
    }
  }

  /** Every earlier element's key is at most every later element's key. */
  ghost predicate SortedBy<T>(s: seq<T>, key: T -> string)
  {
    forall i, j :: 0 <= i < j < |s| ==> StrLe(key(s[i]), key(s[j]))
  }

  /** Places `x` before the first element whose key is not smaller. */
  function Insert<T>(x: T, s: seq<T>, key: T -> string): (r: seq<T>)
    requires SortedBy(s, key)
    ensures multiset(r) == multiset(s) + multiset{x}
    ensures SortedBy(r, key)
  {
    if s == [] then [x]
    else if StrLe(key(x), key(s[0])) then
      PrependSorted(x, s, key);
      [x] + s
    else
      var rest := Insert(x, s[1..], key);
      StrLeTotal(key(x), key(s[0]));
      assert StrLe(key(s[0]), key(rest[0])) by {
        assert rest[0] in multiset(s[1..]) + multiset{x};
        if rest[0] != x {
          assert rest[0] in s[1..];
        }
      }
      PrependSorted(s[0], rest, key);
      assert s == [s[0]] + s[1..];
      [s[0]] + rest
  }

  lemma PrependSorted<T>(x: T, s: seq<T>, key: T -> string)
    requires SortedBy(s, key)
    requires s != [] ==> StrLe(key(x), key(s[0]))
    ensures SortedBy([x] + s, key)
  {
    var r := [x] + s;
    forall i, j | 0 <= i < j < |r| ensures StrLe(key(r[i]), key(r[j])) {
      if i == 0 && j > 1 {
        StrLeTransitive(key(x), key(s[0]), key(s[j - 1]));
      }
    }
  }

  /** A stable insertion sort: the model of sorting a list by a string key. */
  function SortBy<T>(s: seq<T>, key: T -> string): (r: seq<T>)
    ensures multiset(r) == multiset(s)
    ensures |r| == |s|
    ensures SortedBy(r, key)
  {
    if s == [] then []
    else
      var rest := SortBy(s[1..], key);
      assert s == [s[0]] + s[1..];
      var r := Insert(s[0], rest, key);
      assert |r| == |multiset(r)|;
      r
  }

  /** The elements of `s` satisfying `p`, in order. */
  function Filter<T>(s: seq<T>, p: T -> bool): (r: seq<T>)
    ensures |r| <= |s|
  {
    if s == [] then [] else (if p(s[0]) then [s[0]] else []) + Filter(s[1..], p)
  }

  /** Every element kept by `Filter` comes from `s` and satisfies `p`. */
  lemma {:induction false} FilterMember<T>(s: seq<T>, p: T -> bool, x: T)
    requires x in Filter(s, p)
    ensures x in s && p(x)
  {
    if s != [] && !(p(s[0]) && x == s[0]) {
      FilterMember(s[1..], p, x);
    }
  }

  /** Filtering a sorted sequence leaves it sorted. */
  lemma {:induction false} FilterSorted<T>(s: seq<T>, p: T -> bool, key: T -> string)
    requires SortedBy(s, key)
    ensures SortedBy(Filter(s, p), key)
  {
    if s != [] {
      FilterSorted(s[1..], p, key);
      var rest := Filter(s[1..], p);
      if p(s[0]) {
        if rest != [] {
          FilterMember(s[1..], p, rest[0]);
        }
        PrependSorted(s[0], rest, key);
      }
    }
  }
}
