/**
 * Python's `sorted` on a list of strings: code-point lexicographic order,
 * and the result is a permutation of the input. Dates of the form
 * `YYYY-MM-DD` sort chronologically under this order.
 */
module Sorting {

  /** `a <= b` on Python strings: compares code points, a prefix comes first. */
  predicate LexLe(a: string, b: string)
    decreases |a|
  {
    a == [] || (b != [] && (a[0] < b[0] || (a[0] == b[0] && LexLe(a[1..], b[1..]))))
  }

  lemma {:induction false} LexLeTotal(a: string, b: string)
    ensures LexLe(a, b) || LexLe(b, a)
    decreases |a|
  {
    if a != [] && b != [] && a[0] == b[0] {
      LexLeTotal(a[1..], b[1..]);
    }
  }

  lemma {:induction false} LexLeAntisymmetric(a: string, b: string)
    requires LexLe(a, b) && LexLe(b, a)
    ensures a == b
    decreases |a|
  {
    if a != [] {
      LexLeAntisymmetric(a[1..], b[1..]);
      assert a == [a[0]] + a[1..] && b == [b[0]] + b[1..];
    }
  }

  lemma {:induction false} LexLeTransitive(a: string, b: string, c: string)
    requires LexLe(a, b) && LexLe(b, c)
    ensures LexLe(a, c)
    decreases |a|
  {
    if a != [] && a[0] == b[0] && b[0] == c[0] {
      LexLeTransitive(a[1..], b[1..], c[1..]);
    }
  }

  predicate Sorted(s: seq<string>) {
    forall i, j | 0 <= i < j < |s| :: LexLe(s[i], s[j])
  }

  /** No value occurs twice. */
  predicate Distinct(s: seq<string>) {
    forall x | x in s :: multiset(s)[x] == 1
  }

  function Elements(s: seq<string>): set<string> {
    set x | x in s
  }

  /** Inserts `x` into the sorted `s` in front of the first element not below it. */
  function Insert(x: string, s: seq<string>): (r: seq<string>)
    requires Sorted(s)
    ensures Sorted(r)
    ensures multiset(r) == multiset(s) + multiset{x}
  {
    if s == [] then [x]
    else if LexLe(x, s[0]) then
      assert Sorted([x] + s) by {
        forall j | 0 <= j < |s| ensures LexLe(x, s[j]) {
          if j > 0 { LexLeTransitive(x, s[0], s[j]); }
        }
      }
      [x] + s
    else
      var t := Insert(x, s[1..]);
      assert multiset(s) == multiset{s[0]} + multiset(s[1..]) by {
        assert s == [s[0]] + s[1..];
      }
      assert Sorted([s[0]] + t) by {
        LexLeTotal(x, s[0]);
        forall j | 0 <= j < |t| ensures LexLe(s[0], t[j]) {
          assert t[j] in multiset(t);
          if t[j] != x {
            assert t[j] in s[1..];
          }
        }
      }
      [s[0]] + t
  }

  /** `sorted(s)`: the elements of `s`, each as often as in `s`, in ascending order. */
  function Sort(s: seq<string>): (r: seq<string>)
    ensures Sorted(r)
    ensures multiset(r) == multiset(s)
  {
    if s == [] then []
    else
      assert s == [s[0]] + s[1..];
      Insert(s[0], Sort(s[1..]))
  }

  /** Sorting keeps a list free of duplicates and keeps its elements. */
  lemma SortKeepsElements(s: seq<string>)
    ensures Distinct(s) ==> Distinct(Sort(s))
    ensures Elements(Sort(s)) == Elements(s)
  {
    var r := Sort(s);
    forall x ensures x in r <==> x in s {
      assert x in r <==> x in multiset(r);
    }
  }

  /** A sorted list without duplicates is strictly ascending. */
  lemma {:induction false} StrictlyAscending(s: seq<string>, i: int, j: int)
    requires Sorted(s) && Distinct(s)
    requires 0 <= i < j < |s|
    ensures LexLe(s[i], s[j]) && s[i] != s[j]
  {
    // s[i] occurs before position j and s[j] from j on; as s[i] occurs once, they differ
    assert s == s[..j] + s[j..];
    var before, after := multiset(s[..j]), multiset(s[j..]);
    assert multiset(s) == before + after;
    assert s[i] in before by { assert s[..j][i] == s[i]; }
    assert s[j] in after by { assert s[j..][0] == s[j]; }
    assert multiset(s)[s[i]] == 1;
  }

  /** Appending a value not yet present keeps a list free of duplicates. */
  lemma AppendFresh(s: seq<string>, x: string)
    requires Distinct(s) && x !in s
    ensures Distinct(s + [x])
    ensures Elements(s + [x]) == Elements(s) + {x}
  {
    assert multiset(s + [x]) == multiset(s) + multiset{x};
    assert multiset(s)[x] == 0;
  }
}
