/**
 * Directory listings in the order `filecmp.dircmp` produces them: it sorts
 * each `os.listdir` result with `list.sort()`, and Python orders `str`
 * values lexicographically by code point.
 */
module Names {

  /** `a <= b` on Python strings: code-point lexicographic order. */
  predicate Below(a: string, b: string)
  {
    a == [] || (b != [] && (a[0] < b[0] || (a[0] == b[0] && Below(a[1..], b[1..]))))
  }

  lemma {:induction false} BelowTotal(a: string, b: string)
    ensures Below(a, b) || Below(b, a)
  {
    if a != [] && b != [] && a[0] == b[0] {
      BelowTotal(a[1..], b[1..]);
    }
  }

  lemma {:induction false} BelowAntisymmetric(a: string, b: string)
    requires Below(a, b) && Below(b, a)
    ensures a == b
  {
    if a != [] && b != [] {
      BelowAntisymmetric(a[1..], b[1..]);
      assert a == [a[0]] + a[1..] && b == [b[0]] + b[1..];
    }
  }

  lemma {:induction false} BelowTransitive(a: string, b: string, c: string)
    requires Below(a, b) && Below(b, c)
    ensures Below(a, c)
  {
    if a != [] && b != [] && c != [] && a[0] == b[0] == c[0] {
      BelowTransitive(a[1..], b[1..], c[1..]);
    }
  }

  lemma AntisymmetricAll()
    ensures forall a: string, b: string :: Below(a, b) && Below(b, a) ==> a == b
  {
    forall a: string, b: string | Below(a, b) && Below(b, a) ensures a == b {
      BelowAntisymmetric(a, b);
    }
  }

  predicate IsLeast(m: string, s: set<string>)
  {
    m in s && forall y | y in s :: Below(m, y)
  }

  lemma {:induction false} LeastExists(s: set<string>)
    requires s != {}
    ensures exists m :: IsLeast(m, s)
    decreases |s|
  {
    var x :| x in s;
    if s == {x} {
      assert IsLeast(x, s) by { BelowTotal(x, x); }
    } else {
      LeastExists(s - {x});
      var m :| IsLeast(m, s - {x});
      BelowTotal(m, x);
      if Below(m, x) {
        assert IsLeast(m, s);
      } else {
        forall y | y in s ensures Below(x, y) {
          if y != x { BelowTransitive(x, m, y); } else { BelowTotal(x, x); }
        }
        assert IsLeast(x, s);
      }
    }
  }

  /** The first name of a non-empty listing. */
  function Least(s: set<string>): (m: string)
    requires s != {}
    ensures m in s && forall y | y in s :: Below(m, y)
  {
    LeastExists(s);
    AntisymmetricAll();
    var m :| IsLeast(m, s);
    m
  }

  /** Strictly increasing, so also free of duplicates. */
  ghost predicate Increasing(r: seq<string>)
  {
    forall i, j | 0 <= i < j < |r| :: Below(r[i], r[j]) && r[i] != r[j]
  }

  /** The sorted listing of a set of names (`sorted(names)` in Python); see `SortedIncreasing`. */
  function Sorted(s: set<string>): (r: seq<string>)
    ensures forall x :: x in r <==> x in s
    decreases |s|
  {
    if s == {} then []
    else
      var m := Least(s);
      [m] + Sorted(s - {m})
  }

  /** The listing is in strictly increasing order. */
  lemma {:induction false} SortedIncreasing(s: set<string>)
    ensures Increasing(Sorted(s))
    decreases |s|
  {
    if s != {} {
      var m := Least(s);
      var rest := Sorted(s - {m});
      SortedIncreasing(s - {m});
      assert Sorted(s) == [m] + rest;
      forall i, j | 0 <= i < j < |[m] + rest|
        ensures Below(([m] + rest)[i], ([m] + rest)[j]) && ([m] + rest)[i] != ([m] + rest)[j]
      {
        if i == 0 { assert rest[j - 1] in s - {m}; }
      }
    }
  }
}
