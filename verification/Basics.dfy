/** Small pieces every other module uses: optional values, sums over finite maps, and
    the sorted enumeration of a finite set under a strict total order. */
module Basics {

  datatype Option<+T> = None | Some(value: T)

  predicate IsDigit(c: char) {
    '0' <= c <= '9'
  }

  function Max(a: int, b: int): (m: int)
    ensures m >= a && m >= b && (m == a || m == b)
  {
    if a > b then a else b
  }

  function Min(a: int, b: int): (m: int)
    ensures m <= a && m <= b && (m == a || m == b)
  {
    if a < b then a else b
  }

  function Abs(a: int): (r: int)
    ensures r >= 0 && (r == a || r == -a)
  {
    if a < 0 then -a else a
  }

  // ----- Sums over the values of a map -----

  ghost function Total<K(!new)>(m: map<K, int>): int
    decreases |m|
  {
    if m == map[] then 0
    else
      var k :| k in m;
      m[k] + Total(m - {k})
  }

  lemma {:induction false} TotalSplit<K(!new)>(m: map<K, int>, k: K)
    requires k in m
    ensures Total(m) == m[k] + Total(m - {k})
    decreases |m|
  {
    var j :| j in m && Total(m) == m[j] + Total(m - {j});
    if j != k {
      TotalSplit(m - {j}, k);
      assert m - {j} - {k} == m - {k} - {j};
      TotalSplit(m - {k}, j);
    }
  }

  lemma TotalUpdate<K(!new)>(m: map<K, int>, k: K, v: int)
    ensures Total(m[k := v]) == Total(m) - (if k in m then m[k] else 0) + v
  {
    var n := m[k := v];
    TotalSplit(n, k);
    assert n - {k} == m - {k};
    if k in m {
      TotalSplit(m, k);
    } else {
      assert m - {k} == m;
    }
  }

  lemma TotalRemove<K(!new)>(m: map<K, int>, k: K)
    ensures Total(m - {k}) == Total(m) - (if k in m then m[k] else 0)
  {
    if k in m {
      TotalSplit(m, k);
    } else {
      assert m - {k} == m;
    }
  }

  // ----- Strict total orders and sorted enumerations -----

  ghost predicate StrictTotal<T(!new)>(less: (T, T) -> bool) {
    && (forall a :: !less(a, a))
    && (forall a, b, c :: less(a, b) && less(b, c) ==> less(a, c))
    && (forall a, b :: a != b ==> less(a, b) || less(b, a))
  }

  ghost predicate Least<T(!new)>(x: T, s: set<T>, less: (T, T) -> bool) {
    x in s && forall y | y in s && y != x :: less(x, y)
  }

  lemma {:induction false} LeastExists<T(!new)>(s: set<T>, less: (T, T) -> bool)
    requires StrictTotal(less) && s != {}
    ensures exists x :: Least(x, s, less)
    decreases |s|
  {
    var a :| a in s;
    var rest := s - {a};
    assert s == rest + {a};
    if rest == {} {
      assert Least(a, s, less);
    } else {
      LeastExists(rest, less);
      var b :| Least(b, rest, less);
      var x := if less(a, b) then a else b;
      assert Least(x, s, less);
    }
  }

  ghost predicate Increasing<T(!new)>(xs: seq<T>, less: (T, T) -> bool) {
    forall i, j | 0 <= i < j < |xs| :: less(xs[i], xs[j])
  }

  ghost function Elements<T>(xs: seq<T>): set<T> {
    set x | x in xs
  }

  ghost function Sorted<T(!new)>(s: set<T>, less: (T, T) -> bool): seq<T>
    requires StrictTotal(less)
    decreases |s|
  {
    if s == {} then []
    else
      LeastExists(s, less);
      var x :| Least(x, s, less);
      [x] + Sorted(s - {x}, less)
  }

  lemma {:induction false} SortedShape<T(!new)>(s: set<T>, less: (T, T) -> bool)
    requires StrictTotal(less)
    ensures Elements(Sorted(s, less)) == s
    ensures |Sorted(s, less)| == |s|
    ensures Increasing(Sorted(s, less), less)
    decreases |s|
  {
    if s != {} {
      var xs := Sorted(s, less);
      LeastExists(s, less);
      assert xs[0] in s && xs == [xs[0]] + Sorted(s - {xs[0]}, less);
      SortedShape(s - {xs[0]}, less);
      assert s == Elements(xs[1..]) + {xs[0]};
      forall x | x in s ensures x in xs {
        assert x == xs[0] || x in Sorted(s - {xs[0]}, less);
      }
      forall i, j | 0 <= i < j < |xs| ensures less(xs[i], xs[j]) {
        if i == 0 {
          assert xs[j] == xs[1..][j - 1];
          assert xs[j] in Elements(xs[1..]);
        } else {
          assert less(xs[1..][i - 1], xs[1..][j - 1]);
        }
      }
    }
  }

  lemma FirstIsLeast<T(!new)>(xs: seq<T>, less: (T, T) -> bool, y: T)
    requires Increasing(xs, less) && y in xs
    ensures y == xs[0] || less(xs[0], y)
  {
    var i :| 0 <= i < |xs| && xs[i] == y;
  }

  /** An increasing list is determined by its elements: sorting leaves no choice. */
  lemma {:induction false} SortedUnique<T(!new)>(xs: seq<T>, s: set<T>, less: (T, T) -> bool)
    requires StrictTotal(less)
    requires Increasing(xs, less) && Elements(xs) == s
    ensures xs == Sorted(s, less)
    decreases |xs|
  {
    if xs == [] {
      assert s == {};
    } else {
      assert xs[0] in s;
      SortedShape(s, less);
      var ys := Sorted(s, less);
      assert ys[0] in s && xs[0] in ys;
      FirstIsLeast(xs, less, ys[0]);
      FirstIsLeast(ys, less, xs[0]);
      var t := s - {xs[0]};
      assert Elements(xs[1..]) == t by {
        forall y | y in t ensures y in xs[1..] {
          var i :| 0 <= i < |xs| && xs[i] == y;
          assert xs[1..][i - 1] == y;
        }
      }
      SortedUnique(xs[1..], t, less);
      assert ys == [ys[0]] + Sorted(s - {ys[0]}, less);
    }
  }

  ghost function Preceding<T(!new)>(s: set<T>, less: (T, T) -> bool, x: T): set<T> {
    set y | y in s && less(y, x)
  }

  /** The element at place k of a sorted enumeration has exactly k elements before it. */
  lemma RankOfSorted<T(!new)>(s: set<T>, less: (T, T) -> bool, k: nat)
    requires StrictTotal(less) && k < |s|
    ensures |Sorted(s, less)| == |s|
    ensures Sorted(s, less)[k] in s
    ensures |Preceding(s, less, Sorted(s, less)[k])| == k
  {
    SortedShape(s, less);
    var xs := Sorted(s, less);
    var before := Preceding(s, less, xs[k]);
    assert xs[k] in Elements(xs);
    assert before == Elements(xs[..k]) by {
      forall y | y in before ensures y in xs[..k] {
        assert y in Elements(xs);
        var i :| 0 <= i < |xs| && xs[i] == y;
        assert i < k;
        assert xs[..k][i] == y;
      }
      forall y | y in xs[..k] ensures y in before {
        assert y in Elements(xs);
      }
    }
    DistinctCount(xs[..k]);
  }

  lemma {:induction false} DistinctCount<T(!new)>(xs: seq<T>)
    requires forall i, j | 0 <= i < j < |xs| :: xs[i] != xs[j]
    ensures |Elements(xs)| == |xs|
  {
    if xs == [] {
    } else {
      var n := |xs| - 1;
      DistinctCount(xs[..n]);
      assert Elements(xs) == Elements(xs[..n]) + {xs[n]};
      assert xs[n] !in xs[..n];
    }
  }

  lemma {:induction false} SubsetSize<T>(a: set<T>, b: set<T>)
    requires a <= b
    ensures |a| <= |b|
    decreases |a|
  {
    if a != {} {
      var x :| x in a;
      SubsetSize(a - {x}, b - {x});
    }
  }

  // ----- The order of strings used by the source's < and sort.Strings -----

  predicate StrLess(a: string, b: string) {
    b != "" && (a == "" || a[0] < b[0] || (a[0] == b[0] && StrLess(a[1..], b[1..])))
  }

  lemma {:induction false} StrLessTrans(a: string, b: string, c: string)
    requires StrLess(a, b) && StrLess(b, c)
    ensures StrLess(a, c)
  {
    if a != "" && a[0] == b[0] == c[0] {
      StrLessTrans(a[1..], b[1..], c[1..]);
    }
  }

  lemma {:induction false} StrLessConnected(a: string, b: string)
    requires a != b
    ensures StrLess(a, b) || StrLess(b, a)
  {
    if a != "" && b != "" && a[0] == b[0] {
      assert a == [a[0]] + a[1..] && b == [b[0]] + b[1..];
      StrLessConnected(a[1..], b[1..]);
    }
  }

  lemma {:induction false} StrLessIrreflexive(a: string)
    ensures !StrLess(a, a)
  {
    if a != "" {
      StrLessIrreflexive(a[1..]);
    }
  }

  lemma StrLessStrictTotal()
    ensures StrictTotal(StrLess)
  {
    forall a: string ensures !StrLess(a, a) {
      StrLessIrreflexive(a);
    }
    forall a: string, b: string, c: string | StrLess(a, b) && StrLess(b, c) ensures StrLess(a, c) {
      StrLessTrans(a, b, c);
    }
    forall a: string, b: string | a != b ensures StrLess(a, b) || StrLess(b, a) {
      StrLessConnected(a, b);
    }
  }
}
