/** Sequence building blocks shared by the ledger and the report: the
    `Array.prototype.filter` and the `reduce((a, b) => a + b, 0)` the
    program applies to its lists. */
module Common {

  datatype Option<T> = None | Some(value: T)

  /** `s.filter(p)`: the elements of `s` satisfying `p`, in their order. */
  function Filter<T>(s: seq<T>, p: T -> bool): (r: seq<T>)
    ensures |r| <= |s|
    ensures forall i :: 0 <= i < |r| ==> r[i] in s && p(r[i])
    ensures forall i :: 0 <= i < |s| && p(s[i]) ==> s[i] in r
  {
    if s == [] then [] else (if p(s[0]) then [s[0]] else []) + Filter(s[1..], p)
  }

  /** Filtering distributes over concatenation: the kept elements keep their
      relative order. */
  lemma {:induction false} FilterConcat<T>(a: seq<T>, b: seq<T>, p: T -> bool)
    ensures Filter(a + b, p) == Filter(a, p) + Filter(b, p)
  {
    if a == [] {
      assert a + b == b;
    } else {
      assert (a + b)[1..] == a[1..] + b;
      FilterConcat(a[1..], b, p);
    }
  }

  /** Filtering twice by the same predicate is filtering once. */
  lemma {:induction false} FilterIdempotent<T>(s: seq<T>, p: T -> bool)
    ensures Filter(Filter(s, p), p) == Filter(s, p)
  {
    if s != [] {
      FilterIdempotent(s[1..], p);
      var head := if p(s[0]) then [s[0]] else [];
      FilterConcat(head, Filter(s[1..], p), p);
      if p(s[0]) {
        assert head[1..] == [];
      }
    }
  }

  /** A predicate that holds everywhere keeps the whole sequence. */
  lemma {:induction false} FilterKeepsAll<T>(s: seq<T>, p: T -> bool)
    ensures (forall i :: 0 <= i < |s| ==> p(s[i])) ==> Filter(s, p) == s
  {
    if s != [] && forall i :: 0 <= i < |s| ==> p(s[i]) {
      assert forall i :: 0 <= i < |s[1..]| ==> p(s[1..][i]) by {
        forall i | 0 <= i < |s[1..]| ensures p(s[1..][i]) {
          assert s[1..][i] == s[i + 1];
        }
      }
      FilterKeepsAll(s[1..], p);
      assert [s[0]] + s[1..] == s;
    }
  }

  /** Filtering keeps every occurrence of an accepted element and none of a
      rejected one. */
  lemma {:induction false} FilterCount<T>(s: seq<T>, p: T -> bool, x: T)
    ensures multiset(Filter(s, p))[x] == if p(x) then multiset(s)[x] else 0
  {
    if s != [] {
      FilterCount(s[1..], p, x);
      assert s == [s[0]] + s[1..];
    }
  }

  /** Filtering a permutation gives a permutation of the filtered sequence. */
  lemma FilterPermutation<T>(a: seq<T>, b: seq<T>, p: T -> bool)
    requires multiset(a) == multiset(b)
    ensures multiset(Filter(a, p)) == multiset(Filter(b, p))
  {
    forall x: T
      ensures multiset(Filter(a, p))[x] == multiset(Filter(b, p))[x]
    {
      FilterCount(a, p, x);
      FilterCount(b, p, x);
    }
  }

  /** `sumArray`: the left fold `((0 + s[0]) + s[1]) + ...`. */
  function Sum(s: seq<real>): real
  {
    if s == [] then 0.0 else Sum(s[..|s| - 1]) + s[|s| - 1]
  }

  /** The sum of pointwise differences is the difference of the sums. */
  lemma {:induction false} SumOfDifferences(a: seq<real>, b: seq<real>, d: seq<real>)
    requires |a| == |b| == |d|
    requires forall i :: 0 <= i < |d| ==> d[i] == a[i] - b[i]
    ensures Sum(d) == Sum(a) - Sum(b)
  {
    if d != [] {
      var n := |d| - 1;
      SumOfDifferences(a[..n], b[..n], d[..n]);
    }
  }

  /** Column `i` of a matrix given as a sequence of rows. */
  function ColumnOf(m: seq<seq<real>>, i: nat): (col: seq<real>)
    requires forall c :: 0 <= c < |m| ==> i < |m[c]|
    ensures |col| == |m| && forall c :: 0 <= c < |m| ==> col[c] == m[c][i]
  {
    seq(|m|, c requires 0 <= c < |m| => m[c][i])
  }

  /** The sum of each row of a matrix. */
  function RowSums(m: seq<seq<real>>): (sums: seq<real>)
    ensures |sums| == |m| && forall c :: 0 <= c < |m| ==> sums[c] == Sum(m[c])
  {
    seq(|m|, c requires 0 <= c < |m| => Sum(m[c]))
  }

  /** The first `k` columns of a matrix. */
  function FrontColumns(m: seq<seq<real>>, k: nat): (f: seq<seq<real>>)
    requires forall c :: 0 <= c < |m| ==> k <= |m[c]|
    ensures |f| == |m| && forall c :: 0 <= c < |m| ==> f[c] == m[c][..k]
  {
    seq(|m|, c requires 0 <= c < |m| => m[c][..k])
  }

  /** Summing a matrix by columns or by rows gives the same total. */
  lemma {:induction false} SumOfColumnSums(m: seq<seq<real>>, cols: seq<real>, n: nat)
    requires forall c :: 0 <= c < |m| ==> |m[c]| == n
    requires |cols| == n
    requires forall i :: 0 <= i < n ==> cols[i] == Sum(ColumnOf(m, i))
    ensures Sum(cols) == Sum(RowSums(m))
    decreases n
  {
    if n == 0 {
      ZeroSum(RowSums(m));
    } else {
      var k := n - 1;
      var front := FrontColumns(m, k);
      assert Sum(cols[..k]) == Sum(RowSums(front)) by {
        ColumnsOfFront(m, k);
        SumOfColumnSums(front, cols[..k], k);
      }
      RowSumsSplit(m, k);
      assert Sum(cols) == Sum(cols[..k]) + cols[k];
    }
  }

  /** The columns of the first `k` columns are the matrix's own. */
  lemma ColumnsOfFront(m: seq<seq<real>>, k: nat)
    requires forall c :: 0 <= c < |m| ==> |m[c]| == k + 1
    ensures forall i :: 0 <= i < k ==> ColumnOf(FrontColumns(m, k), i) == ColumnOf(m, i)
  {
    forall i | 0 <= i < k ensures ColumnOf(FrontColumns(m, k), i) == ColumnOf(m, i) {
      assert forall c :: 0 <= c < |m| ==> ColumnOf(FrontColumns(m, k), i)[c] == ColumnOf(m, i)[c];
    }
  }

  /** Splitting off the last column splits the sum of the row sums. */
  lemma RowSumsSplit(m: seq<seq<real>>, k: nat)
    requires forall c :: 0 <= c < |m| ==> |m[c]| == k + 1
    ensures Sum(RowSums(m)) == Sum(RowSums(FrontColumns(m, k))) + Sum(ColumnOf(m, k))
  {
    var front := FrontColumns(m, k);
    var last := ColumnOf(m, k);
    forall c | 0 <= c < |m| ensures RowSums(m)[c] == RowSums(front)[c] + last[c] {
      assert m[c][..k] == m[c][..|m[c]| - 1];
    }
    SumOfSums(RowSums(front), last, RowSums(m));
  }

  /** The sum of pointwise sums is the sum of the sums. */
  lemma {:induction false} SumOfSums(a: seq<real>, b: seq<real>, s: seq<real>)
    requires |a| == |b| == |s|
    requires forall i :: 0 <= i < |s| ==> s[i] == a[i] + b[i]
    ensures Sum(s) == Sum(a) + Sum(b)
  {
    if s != [] {
      var n := |s| - 1;
      SumOfSums(a[..n], b[..n], s[..n]);
    }
  }

  lemma {:induction false} ZeroSum(s: seq<real>)
    requires forall i :: 0 <= i < |s| ==> s[i] == 0.0
    ensures Sum(s) == 0.0
  {
    if s != [] {
      ZeroSum(s[..|s| - 1]);
    }
  }
}
