/**
 * Swift's `String` `<`, taken as the lexicographic order of the strings'
 * code points, and the sorted, duplicate-free lists that
 * `Array(Set(xs)).sorted()` builds with it.
 */
module StringOrder {

  /** `a < b` on strings: a proper prefix is smaller, otherwise the first differing character decides. */
  predicate StrLt(a: string, b: string)
    ensures a <= b ==> (StrLt(a, b) <==> |a| < |b|)
    ensures b <= a ==> !StrLt(a, b)
  {
    if |a| == 0 then |b| > 0
    else if |b| == 0 then false
    else if a[0] != b[0] then a[0] < b[0]
    else
      assert a <= b ==> a[1..] <= b[1..];
      assert b <= a ==> b[1..] <= a[1..];
      StrLt(a[1..], b[1..])
  }

  lemma {:induction false} StrLtIrreflexive(a: string)
    ensures !StrLt(a, a)
  {
    if |a| > 0 {
      StrLtIrreflexive(a[1..]);
    }
  }

  lemma {:induction false} StrLtTransitive(a: string, b: string, c: string)
    requires StrLt(a, b) && StrLt(b, c)
    ensures StrLt(a, c)
  {
    if |a| > 0 && a[0] == b[0] && b[0] == c[0] {
      StrLtTransitive(a[1..], b[1..], c[1..]);
    }
  }

  lemma {:induction false} StrLtTotal(a: string, b: string)
    requires a != b
    ensures StrLt(a, b) || StrLt(b, a)
  {
    if |a| > 0 && |b| > 0 && a[0] == b[0] {
      assert a == [a[0]] + a[1..] && b == [b[0]] + b[1..];
      StrLtTotal(a[1..], b[1..]);
    }
  }

  lemma StrLtAsymmetric(a: string, b: string)
    requires StrLt(a, b)
    ensures !StrLt(b, a)
  {
    if StrLt(b, a) {
      StrLtTransitive(a, b, a);
      StrLtIrreflexive(a);
    }
  }

  /** `<=` on strings, the negation of `>`, chains as well. */
  lemma StrLeTransitive(a: string, b: string, c: string)
    requires !StrLt(b, a) && !StrLt(c, b)
    ensures !StrLt(c, a)
  {
    if StrLt(c, a) {
      if c == b {
      } else {
        StrLtTotal(c, b);
        StrLtTransitive(b, c, a);
      }
    }
  }

  /** Every element is smaller than every later one: sorted, and so without duplicates. */
  ghost predicate StrictlyAscending(s: seq<string>)
  {
    forall i, j :: 0 <= i < j < |s| ==> StrLt(s[i], s[j])
  }

  /** Puts `x` into a strictly ascending list unless it is already there. */
  function InsertDistinct(x: string, s: seq<string>): (r: seq<string>)
    requires StrictlyAscending(s)
    ensures StrictlyAscending(r)
    ensures forall y :: y in r <==> y == x || y in s
  {
    if s == [] then [x]
    else if x == s[0] then s
    else if StrLt(x, s[0]) then
      BelowHeadAscending(x, s);
      [x] + s
    else
      StrLtTotal(x, s[0]);
      var rest := InsertDistinct(x, s[1..]);
      AboveHeadAscending(s, rest, x);
      [s[0]] + rest
  }

  lemma BelowHeadAscending(x: string, s: seq<string>)
    requires StrictlyAscending(s) && s != [] && StrLt(x, s[0])
    ensures StrictlyAscending([x] + s)
  {
    forall j | 0 < j < |s| ensures StrLt(x, s[j]) {
      StrLtTransitive(x, s[0], s[j]);
    }
  }

  lemma AboveHeadAscending(s: seq<string>, rest: seq<string>, x: string)
    requires StrictlyAscending(s) && s != [] && StrLt(s[0], x)
    requires StrictlyAscending(rest)
    requires forall y :: y in rest ==> y == x || y in s[1..]
    ensures StrictlyAscending([s[0]] + rest)
  {
    forall j | 0 <= j < |rest| ensures StrLt(s[0], rest[j]) {
      assert rest[j] in rest;
    }
  }

  /** `Array(Set(xs)).sorted()`: the elements of `xs`, each once, in ascending order. */
  function SortedDistinct(xs: seq<string>): (r: seq<string>)
    ensures StrictlyAscending(r)
    ensures forall y :: y in r <==> y in xs
  {
    if xs == [] then [] else InsertDistinct(xs[0], SortedDistinct(xs[1..]))
  }

  /**
   * Only one strictly ascending list holds a given set of strings, so the
   * result of sorting does not depend on the order the set was enumerated in.
   */
  lemma {:induction false} AscendingUnique(a: seq<string>, b: seq<string>)
    requires StrictlyAscending(a) && StrictlyAscending(b)
    requires forall y :: y in a <==> y in b
    ensures a == b
  {
    if a == [] {
      HeadIsMember(b);
    } else {
      assert a[0] in b;
      assert b[0] in a;
      assert a[0] == b[0] by {
        var k :| 0 <= k < |b| && b[k] == a[0];
        var m :| 0 <= m < |a| && a[m] == b[0];
        if k > 0 && m > 0 {
          StrLtAsymmetric(b[0], b[k]);
        }
      }
      forall y ensures y in a[1..] <==> y in b[1..] {
        if y in a[1..] {
          var k :| 1 <= k < |a| && a[k] == y;
          StrLtIrreflexive(a[0]);
          assert y in b && y != b[0];
          assert y in b[1..];
        }
        if y in b[1..] {
          var k :| 1 <= k < |b| && b[k] == y;
          StrLtIrreflexive(b[0]);
          assert y in a && y != a[0];
          assert y in a[1..];
        }
      }
      AscendingUnique(a[1..], b[1..]);
      assert a == [a[0]] + a[1..] && b == [b[0]] + b[1..];
    }
  }

  lemma HeadIsMember(s: seq<string>)
    ensures s != [] ==> s[0] in s
  {
  }

  /** Sorting any duplicate-free arrangement of the elements of `xs` gives `SortedDistinct(xs)`. */
  lemma SortedDistinctIsTheSortedSet(xs: seq<string>, sorted: seq<string>)
    requires StrictlyAscending(sorted)
    requires forall y :: y in sorted <==> y in xs
    ensures sorted == SortedDistinct(xs)
  {
    AscendingUnique(sorted, SortedDistinct(xs));
  }
}
