/**
 * Result ordering of the database's `findMany({ orderBy })`: an insertion
 * sort over a total preorder. Rows that tie on the sort key may come back in
 * any order, so nothing below depends on how ties are broken.
 */
module Ordering {

  /** `le` is total and transitive: a sort key compared with `<=`. */
  ghost predicate TotalPreorder<T(!new)>(le: (T, T) -> bool)
  {
    && (forall a, b :: le(a, b) || le(b, a))
    && (forall a, b, c :: le(a, b) && le(b, c) ==> le(a, c))
  }

  ghost predicate Sorted<T>(s: seq<T>, le: (T, T) -> bool)
  {
    forall i, j :: 0 <= i < j < |s| ==> le(s[i], s[j])
  }

  /** Inserts `x` before the first element it does not come after. */
  function Insert<T>(x: T, s: seq<T>, le: (T, T) -> bool): (r: seq<T>)
    ensures multiset(r) == multiset(s) + multiset{x}
  {
    if s == [] then [x]
    else if le(x, s[0]) then [x] + s
    else
      assert s == [s[0]] + s[1..];
      [s[0]] + Insert(x, s[1..], le)
  }

  lemma {:induction false} InsertSorted<T(!new)>(x: T, s: seq<T>, le: (T, T) -> bool)
    requires TotalPreorder(le)
    requires Sorted(s, le)
    ensures Sorted(Insert(x, s, le), le)
  {
    if s != [] && !le(x, s[0]) {
      var rest := Insert(x, s[1..], le);
      InsertSorted(x, s[1..], le);
      assert le(s[0], x);
      forall k | 0 <= k < |rest| ensures le(s[0], rest[k]) {
        assert rest[k] in multiset(rest);
        assert rest[k] == x || rest[k] in multiset(s[1..]);
        if rest[k] != x {
          var j :| 0 <= j < |s[1..]| && s[1..][j] == rest[k];
          assert s[1 + j] == rest[k];
        }
      }
      var r := [s[0]] + rest;
      forall i, j | 0 <= i < j < |r| ensures le(r[i], r[j]) {
        if i > 0 {
          assert r[i] == rest[i - 1] && r[j] == rest[j - 1];
        } else {
          assert r[j] == rest[j - 1];
        }
      }
    }
  }

  /** The rows of `s` in the order `le`. */
  function Sort<T(!new)>(s: seq<T>, le: (T, T) -> bool): (r: seq<T>)
    requires TotalPreorder(le)
    ensures multiset(r) == multiset(s)
    ensures |r| == |s|
    ensures Sorted(r, le)
  {
    if s == [] then []
    else
      assert s == [s[0]] + s[1..];
      var rest := Sort(s[1..], le);
      InsertSorted(s[0], rest, le);
      Insert(s[0], rest, le)
  }

  /**
   * `take: n` after `orderBy`: the first `n` rows of a sorted permutation of
   * `s` are sorted, and no row left out comes before a row returned.
   */
  lemma {:induction false} TakeOfSorted<T>(p: seq<T>, s: seq<T>, n: nat, le: (T, T) -> bool)
    requires Sorted(p, le) && multiset(p) == multiset(s)
    requires n <= |p|
    ensures Sorted(p[..n], le)
    ensures multiset(p[..n]) <= multiset(s)
    ensures forall x, y :: x in p[..n] && y in multiset(s) - multiset(p[..n]) ==> le(x, y)
  {
    assert p == p[..n] + p[n..];
    assert multiset(s) - multiset(p[..n]) == multiset(p[n..]);
    forall x, y | x in p[..n] && y in multiset(s) - multiset(p[..n]) ensures le(x, y) {
      var i :| 0 <= i < n && p[i] == x;
      assert y in p[n..];
      var j :| 0 <= j < |p[n..]| && p[n..][j] == y;
      assert p[n + j] == y;
    }
  }

  /** Lexicographic order on strings by code point, as `orderBy: { name: 'asc' }`. */
  predicate LexLe(a: string, b: string)
  {
    if a == [] then true
    else if b == [] then false
    else if a[0] != b[0] then a[0] < b[0]
    else LexLe(a[1..], b[1..])
  }

  lemma {:induction false} LexTotal(a: string, b: string)
    ensures LexLe(a, b) || LexLe(b, a)
  {
    if a != [] && b != [] && a[0] == b[0] {
      LexTotal(a[1..], b[1..]);
    }
  }

  lemma {:induction false} LexTransitive(a: string, b: string, c: string)
    requires LexLe(a, b) && LexLe(b, c)
    ensures LexLe(a, c)
  {
    if a != [] && b != [] && c != [] && a[0] == b[0] && b[0] == c[0] {
      LexTransitive(a[1..], b[1..], c[1..]);
    }
  }

  lemma {:induction false} LexAntisymmetric(a: string, b: string)
    requires LexLe(a, b) && LexLe(b, a)
    ensures a == b
  {
    if a != [] && b != [] {
      LexAntisymmetric(a[1..], b[1..]);
      assert a == [a[0]] + a[1..] && b == [b[0]] + b[1..];
    }
  }
}
