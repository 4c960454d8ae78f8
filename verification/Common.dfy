/** Small shared definitions: an optional value, the byte order sort.Strings uses, and decimal text. */
module Common {

  datatype Option<+T> = None | Some(value: T)

  const MAX_INT64: int := 0x7FFF_FFFF_FFFF_FFFF
  const MIN_INT64: int := -0x8000_0000_0000_0000

  /** Go's int on a 64-bit host. */
  type Int64 = n: int | MIN_INT64 <= n <= MAX_INT64

  /** n + 1 as the machine computes it: the largest value wraps to the smallest. */
  function Increment(n: Int64): Int64 {
    if n == MAX_INT64 then MIN_INT64 else n + 1
  }

  // ---------- sizes of sets ----------

  lemma {:induction false} SubsetLeq<T>(a: set<T>, b: set<T>)
    requires a <= b
    ensures |a| <= |b|
    decreases a
  {
    if a != {} {
      var x :| x in a;
      SubsetLeq(a - {x}, b - {x});
    }
  }

  lemma SubsetLess<T>(a: set<T>, b: set<T>)
    requires a < b
    ensures |a| < |b|
  {
    var x :| x in b && x !in a;
    SubsetLeq(a, b - {x});
  }

  lemma SubsetEqual<T>(a: set<T>, b: set<T>)
    requires a <= b && |a| == |b|
    ensures a == b
  {
    if a != b { SubsetLess(a, b); }
  }
}

/** Lexicographic string order and the ordered listing of a set of strings. */
module Order {

  predicate Leq(a: string, b: string) {
    if a == "" then true
    else if b == "" then false
    else a[0] < b[0] || (a[0] == b[0] && Leq(a[1..], b[1..]))
  }

  lemma {:induction false} LeqTotal(a: string, b: string)
    ensures Leq(a, b) || Leq(b, a)
    decreases |a|
  {
    if a != "" && b != "" { LeqTotal(a[1..], b[1..]); }
  }

  lemma {:induction false} LeqAntisymmetric(a: string, b: string)
    requires Leq(a, b) && Leq(b, a)
    ensures a == b
    decreases |a|
  {
    if a != "" && b != "" {
      LeqAntisymmetric(a[1..], b[1..]);
      assert a == [a[0]] + a[1..] && b == [b[0]] + b[1..];
    }
  }

  lemma {:induction false} LeqTransitive(a: string, b: string, c: string)
    requires Leq(a, b) && Leq(b, c)
    ensures Leq(a, c)
    decreases |a|
  {
    if a != "" && a[0] == b[0] == c[0] { LeqTransitive(a[1..], b[1..], c[1..]); }
  }

  /** The two agree before position k, and there a has the smaller character. */
  predicate FirstDiffer(a: string, b: string, k: int) {
    0 <= k < |a| && k < |b| && a[..k] == b[..k] && a[k] < b[k]
  }

  /** One text comes before another if the other continues it, or has the greater character where they first differ. */
  lemma {:induction false} LeqIsLexicographic(a: string, b: string)
    ensures Leq(a, b) <==> a <= b || exists k :: FirstDiffer(a, b, k)
    decreases |a|
  {
    if a != "" && b != "" {
      LeqIsLexicographic(a[1..], b[1..]);
      assert a == [a[0]] + a[1..] && b == [b[0]] + b[1..];
      if a[0] == b[0] {
        if k :| FirstDiffer(a, b, k) {
          assert a[1..][..k - 1] == a[..k][1..] && b[1..][..k - 1] == b[..k][1..];
          assert FirstDiffer(a[1..], b[1..], k - 1);
        }
        if k :| FirstDiffer(a[1..], b[1..], k) {
          assert a[..k + 1] == [a[0]] + a[1..][..k] && b[..k + 1] == [b[0]] + b[1..][..k];
          assert FirstDiffer(a, b, k + 1);
        }
      } else if a[0] < b[0] {
        assert FirstDiffer(a, b, 0);
      }
    }
  }

  predicate IsLeast(m: string, s: set<string>) {
    m in s && forall x :: x in s ==> Leq(m, x)
  }

  lemma {:induction false} LeastExists(s: set<string>)
    requires s != {}
    ensures exists m :: IsLeast(m, s)
    decreases |s|
  {
    var x :| x in s;
    LeqTotal(x, x);
    if s == {x} {
      assert IsLeast(x, s);
    } else {
      var rest := s - {x};
      assert s == {x} + rest;
      LeastExists(rest);
      var m :| IsLeast(m, rest);
      LeqTotal(x, m);
      if Leq(m, x) {
        assert IsLeast(m, s);
      } else {
        forall y | y in s ensures Leq(x, y) {
          if y != x { LeqTransitive(x, m, y); }
        }
        assert IsLeast(x, s);
      }
    }
  }

  lemma LeastUnique(s: set<string>)
    ensures forall m, n :: IsLeast(m, s) && IsLeast(n, s) ==> m == n
  {
    forall m, n | IsLeast(m, s) && IsLeast(n, s) ensures m == n {
      LeqAntisymmetric(m, n);
    }
  }

  predicate Sorted(r: seq<string>) {
    forall i, j :: 0 <= i < j < |r| ==> Leq(r[i], r[j])
  }

  predicate Distinct<T(==)>(r: seq<T>) {
    forall i, j :: 0 <= i < j < |r| ==> r[i] != r[j]
  }

  lemma LeastFirst(s: set<string>, m: string, rest: seq<string>)
    requires IsLeast(m, s) && Sorted(rest) && Distinct(rest) && |rest| == |s - {m}| && forall x :: x in rest <==> x in s - {m}
    ensures |[m] + rest| == |s| && Sorted([m] + rest) && Distinct([m] + rest) && forall x :: x in [m] + rest <==> x in s
  {
    hide Leq;
    assert forall i :: 0 <= i < |rest| ==> rest[i] in rest;
    assert s == (s - {m}) + {m};
  }

  /** The elements of s in increasing order, each once. */
  function Ordered(s: set<string>): (r: seq<string>)
    ensures |r| == |s|
    ensures forall x :: x in r <==> x in s
    ensures Sorted(r) && Distinct(r)
    decreases |s|
  {
    if s == {} then []
    else
      LeastExists(s);
      LeastUnique(s);
      var m :| IsLeast(m, s);
      var rest := Ordered(s - {m});
      LeastFirst(s, m, rest);
      [m] + rest
  }
}

/** Sorting a list of strings that may repeat. */
module Sorting {
  import opened Order

  function Insert(x: string, r: seq<string>): (t: seq<string>)
    requires Sorted(r)
    ensures Sorted(t) && multiset(t) == multiset(r) + multiset{x}
  {
    if r == [] then LeqTotal(x, x); [x]
    else if Leq(x, r[0]) then
      assert forall i :: 0 <= i < |r| ==> Leq(x, r[i]) by {
        forall i | 0 <= i < |r| ensures Leq(x, r[i]) { if i > 0 { LeqTransitive(x, r[0], r[i]); } }
      }
      [x] + r
    else
      var rest := Insert(x, r[1..]);
      assert r == [r[0]] + r[1..];
      assert forall i :: 0 <= i < |rest| ==> Leq(r[0], rest[i]) by {
        LeqTotal(x, r[0]);
        forall i | 0 <= i < |rest| ensures Leq(r[0], rest[i]) {
          assert rest[i] in multiset(rest);
          assert rest[i] == x || rest[i] in multiset(r[1..]);
        }
      }
      [r[0]] + rest
  }

  function Sort(s: seq<string>): (t: seq<string>)
    ensures Sorted(t) && multiset(t) == multiset(s) && |t| == |s|
  {
    if s == [] then []
    else
      assert s == [s[0]] + s[1..];
      var t := Insert(s[0], Sort(s[1..]));
      assert |multiset(t)| == |multiset(s)|;
      t
  }

  lemma SortSameElements(s: seq<string>)
    ensures forall x :: x in Sort(s) <==> x in s
  {
    forall x ensures x in Sort(s) <==> x in s {
      assert x in multiset(Sort(s)) <==> x in multiset(s);
    }
  }
}

/** Decimal digits of a natural number, and reading them back. */
module Decimal {
  import opened Common

  predicate IsDigit(c: char) { '0' <= c <= '9' }

  function Digit(d: nat): (c: char)
    requires d < 10
    ensures IsDigit(c) && c as int - '0' as int == d
  {
    (d + '0' as int) as char
  }

  function Digits(n: nat): (s: string)
    ensures |s| >= 1 && forall i :: 0 <= i < |s| ==> IsDigit(s[i])
    ensures Value(s) == n
  {
    if n < 10 then [Digit(n)]
    else
      var front := Digits(n / 10);
      var s := front + [Digit(n % 10)];
      assert s[..|s| - 1] == front;
      s
  }

  function Value(s: string): (n: nat)
    requires forall i :: 0 <= i < |s| ==> IsDigit(s[i])
  {
    if s == "" then 0
    else
      assert IsDigit(s[|s| - 1]);
      10 * Value(s[..|s| - 1]) + (s[|s| - 1] as int - '0' as int)
  }

  function Pow10(k: nat): int { if k == 0 then 1 else 10 * Pow10(k - 1) }

  lemma {:induction false} DigitsLength(n: nat, k: nat)
    requires 1 <= k && n < Pow10(k)
    ensures |Digits(n)| <= k
    decreases k
  {
    if n >= 10 { DigitsLength(n / 10, k - 1); }
  }

  lemma Int64Digits()
    ensures MAX_INT64 < Pow10(19)
  {
    assert Pow10(4) == 10_000;
    assert Pow10(8) == 100_000_000;
    assert Pow10(12) == 1_000_000_000_000;
    assert Pow10(16) == 10_000_000_000_000_000;
  }
}
