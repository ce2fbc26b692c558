/** Names and their deterministic ordering.

    Node, resource and alias names are strings. The graph sorts them wherever an
    order becomes visible, so this module gives Python's lexicographic string order
    and proves that sorting a set of names has exactly one answer.
 */
module Names {

  /** Lexicographic "not after" on strings, by code point. */
  predicate Leq(a: string, b: string) {
    a == [] || (b != [] && (a[0] < b[0] || (a[0] == b[0] && Leq(a[1..], b[1..]))))
  }

  lemma {:induction false} LeqReflexive(a: string)
    ensures Leq(a, a)
  {
    if a != [] {
      LeqReflexive(a[1..]);
    }
  }

  lemma {:induction false} LeqTotal(a: string, b: string)
    ensures Leq(a, b) || Leq(b, a)
  {
    if a != [] && b != [] && a[0] == b[0] {
      LeqTotal(a[1..], b[1..]);
    }
  }

  lemma {:induction false} LeqAntisymmetric(a: string, b: string)
    requires Leq(a, b) && Leq(b, a)
    ensures a == b
  {
    if a != [] {
      LeqAntisymmetric(a[1..], b[1..]);
      assert a == [a[0]] + a[1..] && b == [b[0]] + b[1..];
    }
  }

  lemma {:induction false} LeqTransitive(a: string, b: string, c: string)
    requires Leq(a, b) && Leq(b, c)
    ensures Leq(a, c)
  {
    if a != [] && a[0] == b[0] == c[0] {
      LeqTransitive(a[1..], b[1..], c[1..]);
    }
  }

  predicate IsLeast(least: string, names: set<string>) {
    least in names && forall n | n in names :: Leq(least, n)
  }

  lemma {:induction false} LeastExists(names: set<string>)
    requires names != {}
    ensures exists least :: IsLeast(least, names)
    ensures forall m, n | IsLeast(m, names) && IsLeast(n, names) :: m == n
  {
    forall m, n | IsLeast(m, names) && IsLeast(n, names) ensures m == n {
      LeqAntisymmetric(m, n);
    }
    var n :| n in names;
    var rest := names - {n};
    LeqReflexive(n);
    if rest == {} {
      assert names == {n};
      assert IsLeast(n, names);
    } else {
      LeastExists(rest);
      var m :| IsLeast(m, rest);
      LeqTotal(n, m);
      if Leq(n, m) {
        forall k | k in names ensures Leq(n, k) {
          if k != n {
            LeqTransitive(n, m, k);
          }
        }
        assert IsLeast(n, names);
      } else {
        assert IsLeast(m, names);
      }
    }
  }

  /** Strictly increasing: sorted and without repeats. */
  ghost predicate Ascending(s: seq<string>) {
    forall i, j | 0 <= i < j < |s| :: Leq(s[i], s[j]) && s[i] != s[j]
  }

  function Elems<T(!new, ==)>(s: seq<T>): (r: set<T>)
    ensures forall x :: x in r <==> x in s
  {
    set x | x in s
  }

  /** Python's `sorted` on a set of names. */
  function Sorted(names: set<string>): (r: seq<string>)
    ensures Ascending(r)
    ensures Elems(r) == names
  {
    if names == {} then []
    else
      LeastExists(names);
      var least :| IsLeast(least, names);
      [least] + Sorted(names - {least})
  }

  method SortNames(names: set<string>) returns (r: seq<string>)
    ensures Ascending(r) && Elems(r) == names
  {
    r := Sorted(names);
  }

  /** Sorting has one answer, so every order the graph exposes is determined by its sets. */
  lemma {:induction false} AscendingUnique(s: seq<string>, t: seq<string>)
    requires Ascending(s) && Ascending(t) && Elems(s) == Elems(t)
    ensures s == t
  {
    if s != [] {
      assert s[0] in Elems(s);
    }
    if t != [] {
      assert t[0] in Elems(t);
    }
    if s != [] && t != [] {
      assert s[0] in Elems(t) && t[0] in Elems(s);
      LeqReflexive(s[0]);
      LeqReflexive(t[0]);
      assert Leq(s[0], t[0]) && Leq(t[0], s[0]);
      LeqAntisymmetric(s[0], t[0]);
      assert Elems(s[1..]) == Elems(s) - {s[0]};
      assert Elems(t[1..]) == Elems(t) - {t[0]};
      AscendingUnique(s[1..], t[1..]);
      assert s == [s[0]] + s[1..] && t == [t[0]] + t[1..];
    }
  }
}
