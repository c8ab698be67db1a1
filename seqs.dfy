/** Sequence helpers shared by the scoring engine: the sums computed with
    `reduce((a, b) => a + b, 0)`, `filter`, `slice(0, n)` and the stable,
    comparator-driven `sort` of the JavaScript runtime. */
module Seqs {

  /** `xs.reduce((a, b) => a + b, 0)`, folded left to right. */
  function Sum(xs: seq<real>): real
  {
    if xs == [] then 0.0 else Sum(xs[..|xs| - 1]) + xs[|xs| - 1]
  }

  lemma SumAppend(xs: seq<real>, x: real)
    ensures Sum(xs + [x]) == Sum(xs) + x
  {
    assert (xs + [x])[..|xs|] == xs;
  }

  /** If every term is at most twice the matching weight in magnitude, the
      sum is at most twice the weight sum in magnitude. */
  lemma {:induction false} SumWithinTwiceWeights(xs: seq<real>, ws: seq<real>)
    requires |xs| == |ws|
    requires forall i :: 0 <= i < |xs| ==> -2.0 * ws[i] <= xs[i] <= 2.0 * ws[i]
    ensures -2.0 * Sum(ws) <= Sum(xs) <= 2.0 * Sum(ws)
  {
    if xs != [] {
      var n := |xs| - 1;
      assert forall i :: 0 <= i < n ==> xs[..n][i] == xs[i] && ws[..n][i] == ws[i];
      SumWithinTwiceWeights(xs[..n], ws[..n]);
      assert -2.0 * ws[n] <= xs[n] <= 2.0 * ws[n];
    }
  }

  /** Terms between `lo` and `hi` sum to between `lo` and `hi` times their
      number. */
  lemma {:induction false} SumBetween(xs: seq<real>, lo: real, hi: real)
    requires forall i | 0 <= i < |xs| :: lo <= xs[i] <= hi
    ensures lo * (|xs| as real) <= Sum(xs) <= hi * (|xs| as real)
  {
    if xs != [] {
      var n := |xs| - 1;
      SumBetween(xs[..n], lo, hi);
      assert xs[n] == xs[n];
      var m := n as real;
      assert lo * (m + 1.0) == lo * m + lo && hi * (m + 1.0) == hi * m + hi;
    }
  }

  /** A value within a positive bound, divided by the bound, lies in
      [-1, 1]. */
  lemma DivisionBounded(s: real, d: real)
    requires d > 0.0 && -d <= s <= d
    ensures -1.0 <= s / d <= 1.0
  {
  }

  lemma MulNonNegative(a: real, b: real)
    requires a >= 0.0 && b >= 0.0
    ensures a * b >= 0.0
  {
  }

  /** A sum of positive terms of a non-empty sequence is positive. */
  lemma {:induction false} SumPositive(ws: seq<real>)
    requires |ws| > 0
    requires forall i :: 0 <= i < |ws| ==> ws[i] > 0.0
    ensures Sum(ws) > 0.0
  {
    var n := |ws| - 1;
    if n > 0 {
      SumPositive(ws[..n]);
    }
  }

  /** `xs.filter(p)`. */
  function Filter<T>(xs: seq<T>, p: T -> bool): (r: seq<T>)
    ensures |r| <= |xs|
    ensures forall x | x in r :: x in xs && p(x)
    ensures forall x | x in xs && p(x) :: x in r
  {
    if xs == [] then []
    else
      var init := Filter(xs[..|xs| - 1], p);
      var last := xs[|xs| - 1];
      assert xs == xs[..|xs| - 1] + [last];
      if p(last) then init + [last] else init
  }

  /** Filtering commutes with concatenation: the kept elements stay
      in input order. */
  lemma {:induction false} FilterConcat<T>(xs: seq<T>, ys: seq<T>, p: T -> bool)
    ensures Filter(xs + ys, p) == Filter(xs, p) + Filter(ys, p)
  {
    if ys == [] {
      assert xs + ys == xs;
    } else {
      var n := |ys| - 1;
      assert (xs + ys)[..|xs + ys| - 1] == xs + ys[..n];
      FilterConcat(xs, ys[..n], p);
    }
  }

  /** Nothing passes a filter that no element satisfies. */
  lemma {:induction false} FilterNone<T>(xs: seq<T>, p: T -> bool)
    requires forall x | x in xs :: !p(x)
    ensures Filter(xs, p) == []
  {
    if xs != [] {
      var n := |xs| - 1;
      assert forall x | x in xs[..n] :: x in xs;
      FilterNone(xs[..n], p);
      assert xs[n] in xs;
    }
  }

  /** Everything passes a filter that every element satisfies. */
  lemma {:induction false} FilterAll<T>(xs: seq<T>, p: T -> bool)
    requires forall x | x in xs :: p(x)
    ensures Filter(xs, p) == xs
  {
    if xs != [] {
      var n := |xs| - 1;
      assert forall x | x in xs[..n] :: x in xs;
      FilterAll(xs[..n], p);
      assert xs[n] in xs;
      assert xs == xs[..n] + [xs[n]];
    }
  }

  /** Filtering keeps every kept element with its full multiplicity and
      drops every other element. */
  lemma {:induction false} FilterMultiset<T>(xs: seq<T>, p: T -> bool, x: T)
    ensures multiset(Filter(xs, p))[x] == if p(x) then multiset(xs)[x] else 0
  {
    if xs != [] {
      var n := |xs| - 1;
      FilterMultiset(xs[..n], p, x);
      assert xs == xs[..n] + [xs[n]];
    }
  }

  /** A sequence is its part before `i`, its element at `i` and its part
      after `i`. */
  lemma SplitAt<T>(xs: seq<T>, i: nat)
    requires i < |xs|
    ensures xs == xs[..i] + [xs[i]] + xs[i + 1..]
    ensures multiset(xs) == multiset(xs[..i] + xs[i + 1..]) + multiset{xs[i]}
  {
    assert xs == xs[..i] + [xs[i]] + xs[i + 1..];
  }

  /** `xs.slice(0, n)`. */
  function Take<T>(xs: seq<T>, n: nat): (r: seq<T>)
    ensures |r| == if n < |xs| then n else |xs|
    ensures forall i :: 0 <= i < |r| ==> r[i] == xs[i]
  {
    if n < |xs| then xs[..n] else xs
  }

  /** Non-increasing order of `key`. */
  ghost predicate SortedDesc<T>(xs: seq<T>, key: T -> real)
  {
    forall i, j :: 0 <= i < j < |xs| ==> key(xs[i]) >= key(xs[j])
  }

  /** Inserts `x` before the first element whose key is not larger, so
      that `x` keeps its place ahead of equal elements that followed it. */
  function Insert<T>(x: T, xs: seq<T>, key: T -> real): (r: seq<T>)
    ensures multiset(r) == multiset(xs) + multiset{x}
    ensures |r| == |xs| + 1
  {
    if xs == [] then [x]
    else if key(x) >= key(xs[0]) then [x] + xs
    else
      assert xs == [xs[0]] + xs[1..];
      [xs[0]] + Insert(x, xs[1..], key)
  }

  /** Inserting adds `x` and nothing else. */
  lemma {:induction false} InsertElems<T>(x: T, xs: seq<T>, key: T -> real)
    ensures forall y | y in Insert(x, xs, key) :: y == x || y in xs
  {
    if xs != [] && key(x) < key(xs[0]) {
      InsertElems(x, xs[1..], key);
      assert forall y | y in xs[1..] :: y in xs;
    }
  }

  lemma {:induction false} InsertSorted<T>(x: T, xs: seq<T>, key: T -> real)
    requires SortedDesc(xs, key)
    ensures SortedDesc(Insert(x, xs, key), key)
  {
    var r := Insert(x, xs, key);
    if xs == [] {
    } else if key(x) >= key(xs[0]) {
      forall i, j | 0 <= i < j < |r| ensures key(r[i]) >= key(r[j]) {
        if i == 0 {
          assert key(xs[0]) >= key(xs[j - 1]);
        } else {
          assert r[i] == xs[i - 1] && r[j] == xs[j - 1];
        }
      }
    } else {
      var rest := Insert(x, xs[1..], key);
      InsertSorted(x, xs[1..], key);
      InsertElems(x, xs[1..], key);
      assert r == [xs[0]] + rest;
      forall y | y in xs[1..] ensures key(xs[0]) >= key(y) {
        var m :| 0 <= m < |xs[1..]| && xs[1..][m] == y;
        assert xs[m + 1] == y;
      }
      forall k | 0 <= k < |rest| ensures key(xs[0]) >= key(rest[k]) {
        assert rest[k] in rest;
      }
      forall i, j | 0 <= i < j < |r| ensures key(r[i]) >= key(r[j]) {
        if i == 0 {
          assert r[j] == rest[j - 1];
        } else {
          assert r[i] == rest[i - 1] && r[j] == rest[j - 1];
        }
      }
    }
  }

  /** The runtime's `sort((a, b) => key(b) - key(a))`: a stable sort into
      non-increasing order of `key`. */
  function SortDesc<T>(xs: seq<T>, key: T -> real): (r: seq<T>)
    ensures multiset(r) == multiset(xs)
    ensures |r| == |xs|
    ensures SortedDesc(r, key)
  {
    if xs == [] then []
    else
      assert xs == [xs[0]] + xs[1..];
      var rest := SortDesc(xs[1..], key);
      InsertSorted(xs[0], rest, key);
      Insert(xs[0], rest, key)
  }

  /** Lexicographic order on strings, standing in for `localeCompare`. */
  predicate LexLe(a: string, b: string)
  {
    if a == [] then true
    else if b == [] then false
    else if a[0] != b[0] then a[0] < b[0]
    else LexLe(a[1..], b[1..])
  }

  lemma {:induction false} LexLeTotal(a: string, b: string)
    ensures LexLe(a, b) || LexLe(b, a)
  {
    if a != [] && b != [] && a[0] == b[0] {
      LexLeTotal(a[1..], b[1..]);
    }
  }

  lemma {:induction false} LexLeAntisymmetric(a: string, b: string)
    requires LexLe(a, b) && LexLe(b, a)
    ensures a == b
  {
    if a != [] && b != [] {
      LexLeAntisymmetric(a[1..], b[1..]);
      assert a == [a[0]] + a[1..] && b == [b[0]] + b[1..];
    }
  }

  lemma {:induction false} LexLeTransitive(a: string, b: string, c: string)
    requires LexLe(a, b) && LexLe(b, c)
    ensures LexLe(a, c)
  {
    if a != [] && b != [] && c != [] && a[0] == b[0] && b[0] == c[0] {
      LexLeTransitive(a[1..], b[1..], c[1..]);
    }
  }

  ghost predicate SortedLex<T>(xs: seq<T>, id: T -> string)
  {
    forall i, j :: 0 <= i < j < |xs| ==> LexLe(id(xs[i]), id(xs[j]))
  }

  function InsertLex<T>(x: T, xs: seq<T>, id: T -> string): (r: seq<T>)
    ensures multiset(r) == multiset(xs) + multiset{x}
    ensures |r| == |xs| + 1
  {
    if xs == [] then [x]
    else if LexLe(id(x), id(xs[0])) then [x] + xs
    else
      assert xs == [xs[0]] + xs[1..];
      [xs[0]] + InsertLex(x, xs[1..], id)
  }

  /** Inserting adds `x` and nothing else. */
  lemma {:induction false} InsertLexElems<T>(x: T, xs: seq<T>, id: T -> string)
    ensures forall y | y in InsertLex(x, xs, id) :: y == x || y in xs
  {
    if xs != [] && !LexLe(id(x), id(xs[0])) {
      InsertLexElems(x, xs[1..], id);
      assert forall y | y in xs[1..] :: y in xs;
    }
  }

  lemma {:induction false} InsertLexSorted<T>(x: T, xs: seq<T>, id: T -> string)
    requires SortedLex(xs, id)
    ensures SortedLex(InsertLex(x, xs, id), id)
  {
    var r := InsertLex(x, xs, id);
    if xs == [] {
    } else if LexLe(id(x), id(xs[0])) {
      forall i, j | 0 <= i < j < |r| ensures LexLe(id(r[i]), id(r[j])) {
        if i == 0 {
          if j > 1 { LexLeTransitive(id(x), id(xs[0]), id(xs[j - 1])); }
        } else {
          assert r[i] == xs[i - 1] && r[j] == xs[j - 1];
        }
      }
    } else {
      LexLeTotal(id(x), id(xs[0]));
      var rest := InsertLex(x, xs[1..], id);
      InsertLexSorted(x, xs[1..], id);
      InsertLexElems(x, xs[1..], id);
      assert r == [xs[0]] + rest;
      forall y | y in xs[1..] ensures LexLe(id(xs[0]), id(y)) {
        var m :| 0 <= m < |xs[1..]| && xs[1..][m] == y;
        assert xs[m + 1] == y;
      }
      forall k | 0 <= k < |rest| ensures LexLe(id(xs[0]), id(rest[k])) {
        assert rest[k] in rest;
      }
      forall i, j | 0 <= i < j < |r| ensures LexLe(id(r[i]), id(r[j])) {
        if i == 0 {
          assert r[j] == rest[j - 1];
        } else {
          assert r[i] == rest[i - 1] && r[j] == rest[j - 1];
        }
      }
    }
  }

  /** The runtime's `sort((a, b) => id(a).localeCompare(id(b)))`, with
      `localeCompare` read as lexicographic order. */
  function SortLex<T>(xs: seq<T>, id: T -> string): (r: seq<T>)
    ensures multiset(r) == multiset(xs)
    ensures |r| == |xs|
    ensures SortedLex(r, id)
  {
    if xs == [] then []
    else
      assert xs == [xs[0]] + xs[1..];
      var rest := SortLex(xs[1..], id);
      InsertLexSorted(xs[0], rest, id);
      InsertLex(xs[0], rest, id)
  }

  /** No two elements share a key. */
  ghost predicate DistinctBy<T>(xs: seq<T>, id: T -> string)
  {
    forall i, j | 0 <= i < j < |xs| :: id(xs[i]) != id(xs[j])
  }

  lemma {:induction false} InsertLexDistinct<T>(x: T, xs: seq<T>, id: T -> string)
    requires DistinctBy(xs, id) && forall y | y in xs :: id(y) != id(x)
    ensures DistinctBy(InsertLex(x, xs, id), id)
  {
    var r := InsertLex(x, xs, id);
    if xs != [] && !LexLe(id(x), id(xs[0])) {
      var rest := InsertLex(x, xs[1..], id);
      assert forall y | y in xs[1..] :: y in xs;
      InsertLexDistinct(x, xs[1..], id);
      InsertLexElems(x, xs[1..], id);
      assert xs[0] in xs;
      forall y | y in xs[1..] ensures id(xs[0]) != id(y) {
        var m :| 0 <= m < |xs[1..]| && xs[1..][m] == y;
        assert xs[m + 1] == y;
      }
      forall k | 0 <= k < |rest| ensures id(rest[k]) != id(xs[0]) {
        assert rest[k] in rest;
      }
      forall i, j | 0 <= i < j < |r| ensures id(r[i]) != id(r[j]) {
        if i == 0 {
          assert r[j] == rest[j - 1];
        } else {
          assert r[i] == rest[i - 1] && r[j] == rest[j - 1];
        }
      }
    } else if xs != [] {
      forall i, j | 0 <= i < j < |r| ensures id(r[i]) != id(r[j]) {
        if i == 0 {
          assert xs[j - 1] in xs;
        } else {
          assert r[i] == xs[i - 1] && r[j] == xs[j - 1];
        }
      }
    }
  }

  /** Sorting keeps the keys distinct. */
  lemma {:induction false} SortLexDistinct<T>(xs: seq<T>, id: T -> string)
    requires DistinctBy(xs, id)
    ensures DistinctBy(SortLex(xs, id), id)
  {
    if xs != [] {
      var rest := SortLex(xs[1..], id);
      assert DistinctBy(xs[1..], id) by {
        forall i, j | 0 <= i < j < |xs[1..]| ensures id(xs[1..][i]) != id(xs[1..][j]) {
          assert xs[1..][i] == xs[i + 1] && xs[1..][j] == xs[j + 1];
        }
      }
      SortLexDistinct(xs[1..], id);
      forall y | y in rest ensures id(y) != id(xs[0]) {
        assert y in multiset(xs[1..]);
        var m :| 0 <= m < |xs[1..]| && xs[1..][m] == y;
        assert xs[m + 1] == y;
      }
      InsertLexDistinct(xs[0], rest, id);
    }
  }

  lemma {:induction false} InsertDistinct<T>(x: T, xs: seq<T>, key: T -> real, id: T -> string)
    requires DistinctBy(xs, id) && forall y | y in xs :: id(y) != id(x)
    ensures DistinctBy(Insert(x, xs, key), id)
  {
    var r := Insert(x, xs, key);
    if xs != [] && key(x) < key(xs[0]) {
      var rest := Insert(x, xs[1..], key);
      assert forall y | y in xs[1..] :: y in xs;
      InsertDistinct(x, xs[1..], key, id);
      InsertElems(x, xs[1..], key);
      assert xs[0] in xs;
      forall y | y in xs[1..] ensures id(xs[0]) != id(y) {
        var m :| 0 <= m < |xs[1..]| && xs[1..][m] == y;
        assert xs[m + 1] == y;
      }
      forall k | 0 <= k < |rest| ensures id(rest[k]) != id(xs[0]) {
        assert rest[k] in rest;
      }
      forall i, j | 0 <= i < j < |r| ensures id(r[i]) != id(r[j]) {
        if i == 0 {
          assert r[j] == rest[j - 1];
        } else {
          assert r[i] == rest[i - 1] && r[j] == rest[j - 1];
        }
      }
    } else if xs != [] {
      forall i, j | 0 <= i < j < |r| ensures id(r[i]) != id(r[j]) {
        if i == 0 {
          assert xs[j - 1] in xs;
        } else {
          assert r[i] == xs[i - 1] && r[j] == xs[j - 1];
        }
      }
    }
  }

  lemma {:induction false} SortDescDistinct<T>(xs: seq<T>, key: T -> real, id: T -> string)
    requires DistinctBy(xs, id)
    ensures DistinctBy(SortDesc(xs, key), id)
  {
    if xs != [] {
      var rest := SortDesc(xs[1..], key);
      assert DistinctBy(xs[1..], id) by {
        forall i, j | 0 <= i < j < |xs[1..]| ensures id(xs[1..][i]) != id(xs[1..][j]) {
          assert xs[1..][i] == xs[i + 1] && xs[1..][j] == xs[j + 1];
        }
      }
      SortDescDistinct(xs[1..], key, id);
      forall y | y in rest ensures id(y) != id(xs[0]) {
        assert y in multiset(xs[1..]);
        var m :| 0 <= m < |xs[1..]| && xs[1..][m] == y;
        assert xs[m + 1] == y;
      }
      InsertDistinct(xs[0], rest, key, id);
    }
  }
}
