/** The shapes of database query results the handlers rely on: rows kept in
    order by a filter, and a `limit`. */
module Query {

  /** `xs` is `ys` with some elements left out, order kept. */
  predicate Subsequence<T(==)>(xs: seq<T>, ys: seq<T>)
    decreases |ys|
  {
    if ys == [] then xs == []
    else (xs != [] && xs[0] == ys[0] && Subsequence(xs[1..], ys[1..])) || Subsequence(xs, ys[1..])
  }

  lemma {:induction false} EmptySubsequence<T>(ys: seq<T>)
    ensures Subsequence([], ys)
  {
    if ys != [] {
      EmptySubsequence(ys[1..]);
    }
  }

  lemma {:induction false} SubsequenceMembers<T>(xs: seq<T>, ys: seq<T>)
    requires Subsequence(xs, ys)
    ensures forall x :: x in xs ==> x in ys
    decreases |ys|
  {
    if ys != [] {
      if xs != [] && xs[0] == ys[0] && Subsequence(xs[1..], ys[1..]) {
        SubsequenceMembers(xs[1..], ys[1..]);
        forall x | x in xs ensures x in ys {
          if x != xs[0] { assert x in xs[1..]; }
        }
      } else {
        SubsequenceMembers(xs, ys[1..]);
      }
    }
  }

  lemma {:induction false} SubsequenceTransitive<T>(xs: seq<T>, ys: seq<T>, zs: seq<T>)
    requires Subsequence(xs, ys) && Subsequence(ys, zs)
    ensures Subsequence(xs, zs)
    decreases |zs|
  {
    if zs != [] {
      if ys != [] && ys[0] == zs[0] && Subsequence(ys[1..], zs[1..]) {
        if xs != [] && xs[0] == ys[0] && Subsequence(xs[1..], ys[1..]) {
          SubsequenceTransitive(xs[1..], ys[1..], zs[1..]);
        } else {
          SubsequenceTransitive(xs, ys[1..], zs[1..]);
        }
      } else {
        SubsequenceTransitive(xs, ys, zs[1..]);
      }
    }
  }

  /** `rows.filter(keep)`. */
  function Filter<T(==)>(rows: seq<T>, keep: T -> bool): (r: seq<T>)
    ensures |r| <= |rows|
    ensures forall i :: 0 <= i < |r| ==> keep(r[i])
    ensures forall x | x in r :: x in rows
    ensures forall i | 0 <= i < |rows| :: keep(rows[i]) ==> rows[i] in r
  {
    if rows == [] then []
    else if keep(rows[0]) then [rows[0]] + Filter(rows[1..], keep)
    else Filter(rows[1..], keep)
  }

  lemma {:induction false} FilterIsSubsequence<T>(rows: seq<T>, keep: T -> bool)
    ensures Subsequence(Filter(rows, keep), rows)
  {
    if rows != [] {
      FilterIsSubsequence(rows[1..], keep);
      if keep(rows[0]) {
        assert ([rows[0]] + Filter(rows[1..], keep))[1..] == Filter(rows[1..], keep);
      }
    }
  }

  /** A filter every row passes keeps the rows as they are. */
  lemma {:induction false} FilterKeepsAll<T>(rows: seq<T>, keep: T -> bool)
    requires forall i :: 0 <= i < |rows| ==> keep(rows[i])
    ensures Filter(rows, keep) == rows
  {
    if rows != [] {
      assert keep(rows[0]);
      FilterKeepsAll(rows[1..], keep);
      assert [rows[0]] + rows[1..] == rows;
    }
  }

  /** `.limit(n)`: the first `n` rows. */
  function Limit<T>(rows: seq<T>, n: nat): (r: seq<T>)
    ensures |r| == if |rows| < n then |rows| else n
    ensures r == rows[..|r|]
  {
    if |rows| <= n then rows else rows[..n]
  }

  lemma {:induction false} PrefixIsSubsequence<T>(rows: seq<T>, k: nat)
    requires k <= |rows|
    ensures Subsequence(rows[..k], rows)
    decreases |rows|
  {
    if k == 0 {
      EmptySubsequence(rows);
    } else {
      PrefixIsSubsequence(rows[1..], k - 1);
      assert rows[..k][1..] == rows[1..][..k - 1];
    }
  }

  lemma LimitIsSubsequence<T>(rows: seq<T>, n: nat)
    ensures Subsequence(Limit(rows, n), rows)
  {
    PrefixIsSubsequence(rows, |Limit(rows, n)|);
  }

  /** Subsequences keep any order the original list is in. */
  lemma {:induction false} SubsequenceKeepsOrder<T>(xs: seq<T>, ys: seq<T>, before: (T, T) -> bool)
    requires Subsequence(xs, ys)
    requires forall i, j :: 0 <= i < j < |ys| ==> before(ys[i], ys[j])
    ensures forall i, j :: 0 <= i < j < |xs| ==> before(xs[i], xs[j])
    decreases |ys|
  {
    if ys != [] {
      if xs != [] && xs[0] == ys[0] && Subsequence(xs[1..], ys[1..]) {
        SubsequenceKeepsOrder(xs[1..], ys[1..], before);
        SubsequenceMembers(xs[1..], ys[1..]);
        forall i, j | 0 <= i < j < |xs| ensures before(xs[i], xs[j]) {
          assert xs[j] == xs[1..][j - 1];
          if i == 0 {
            assert xs[j] in ys[1..];
            var k :| 0 <= k < |ys[1..]| && ys[1..][k] == xs[j];
            assert ys[k + 1] == xs[j];
          } else {
            assert xs[i] == xs[1..][i - 1];
          }
        }
      } else {
        SubsequenceKeepsOrder(xs, ys[1..], before);
      }
    }
  }

  lemma {:induction false} SelfSubsequence<T>(xs: seq<T>)
    ensures Subsequence(xs, xs)
  {
    if xs != [] {
      SelfSubsequence(xs[1..]);
    }
  }

  lemma {:induction false} SuffixIsSubsequence<T>(rows: seq<T>, k: nat)
    requires k <= |rows|
    ensures Subsequence(rows[k..], rows)
  {
    if k > 0 {
      SuffixIsSubsequence(rows[1..], k - 1);
      assert rows[1..][k - 1..] == rows[k..];
    } else {
      SelfSubsequence(rows);
    }
  }
}
