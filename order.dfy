/** Python's ordering of `str` values, and `list.sort(reverse=True)` on a list of them. */
module Order {

  /** `a <= b` on Python strings: lexicographic by code point, a prefix first. */
  predicate Le(a: string, b: string) {
    if a == [] then true
    else if b == [] then false
    else if a[0] != b[0] then a[0] < b[0]
    else Le(a[1..], b[1..])
  }

  lemma {:induction false} LeReflexive(a: string)
    ensures Le(a, a)
  {
    if a != [] { LeReflexive(a[1..]); }
  }

  lemma {:induction false} LeTotal(a: string, b: string)
    ensures Le(a, b) || Le(b, a)
  {
    if a != [] && b != [] && a[0] == b[0] { LeTotal(a[1..], b[1..]); }
  }

  lemma {:induction false} LeAntisymmetric(a: string, b: string)
    requires Le(a, b) && Le(b, a)
    ensures a == b
  {
    if a != [] && b != [] {
      LeAntisymmetric(a[1..], b[1..]);
      assert a == [a[0]] + a[1..] && b == [b[0]] + b[1..];
    }
  }

  lemma {:induction false} LeTransitive(a: string, b: string, c: string)
    requires Le(a, b) && Le(b, c)
    ensures Le(a, c)
  {
    if a != [] && b != [] && c != [] && a[0] == b[0] == c[0] {
      LeTransitive(a[1..], b[1..], c[1..]);
    }
  }

  /** Non-increasing order, as `sort(reverse=True)` leaves a list. */
  predicate SortedDesc(s: seq<string>) {
    forall i, j :: 0 <= i < j < |s| ==> Le(s[j], s[i])
  }

  /** Puts `x` into a list before the first element not above it. */
  function InsertDesc(x: string, s: seq<string>): (r: seq<string>)
    ensures multiset(r) == multiset(s) + multiset{x}
  {
    if s == [] then [x]
    else if Le(s[0], x) then [x] + s
    else
      assert s == [s[0]] + s[1..];
      [s[0]] + InsertDesc(x, s[1..])
  }

  lemma {:induction false} InsertDescSorted(x: string, s: seq<string>)
    requires SortedDesc(s)
    ensures SortedDesc(InsertDesc(x, s))
  {
    if s == [] {
    } else if Le(s[0], x) {
      forall j | 0 <= j < |s| ensures Le(s[j], x) {
        if j > 0 { LeTransitive(s[j], s[0], x); }
      }
    } else {
      var t := InsertDesc(x, s[1..]);
      InsertDescSorted(x, s[1..]);
      LeTotal(s[0], x);
      forall j | 0 <= j < |t| ensures Le(t[j], s[0]) {
        assert t[j] in multiset(t);
        if t[j] != x {
          assert t[j] in multiset(s[1..]);
          var k :| 0 <= k < |s[1..]| && s[1..][k] == t[j];
          assert s[k + 1] == t[j];
        }
      }
      var r := [s[0]] + t;
      forall i, j | 0 <= i < j < |r| ensures Le(r[j], r[i]) {
        if i > 0 { assert r[i] == t[i - 1] && r[j] == t[j - 1]; }
        else { assert r[j] == t[j - 1]; }
      }
    }
  }

  /** The list `list.sort(reverse=True)` leaves. */
  function SortDesc(s: seq<string>): (r: seq<string>)
    ensures SortedDesc(r)
    ensures multiset(r) == multiset(s)
  {
    if s == [] then []
    else
      assert s == [s[0]] + s[1..];
      InsertDescSorted(s[0], SortDesc(s[1..]));
      InsertDesc(s[0], SortDesc(s[1..]))
  }

  /** The first element of a non-increasing list is at or above all of them. */
  lemma HeadIsGreatest(a: seq<string>, x: string)
    requires SortedDesc(a) && x in a
    ensures Le(x, a[0])
  {
    var i :| 0 <= i < |a| && a[i] == x;
    if i == 0 { LeReflexive(x); }
  }

  lemma TailSorted(a: seq<string>)
    requires SortedDesc(a) && a != []
    ensures SortedDesc(a[1..])
  {
    forall i, j | 0 <= i < j < |a| - 1 ensures Le(a[1..][j], a[1..][i]) {
      assert a[1..][j] == a[j + 1] && a[1..][i] == a[i + 1];
    }
  }

  lemma TailMultiset(a: seq<string>, b: seq<string>)
    requires a != [] && b != [] && a[0] == b[0]
    requires multiset(a) == multiset(b)
    ensures multiset(a[1..]) == multiset(b[1..])
  {
    assert a == [a[0]] + a[1..] && b == [b[0]] + b[1..];
    var m := multiset{a[0]};
    assert multiset(a) == m + multiset(a[1..]);
    assert multiset(b) == m + multiset(b[1..]);
    forall x ensures multiset(a[1..])[x] == multiset(b[1..])[x] {
      assert multiset(a)[x] == m[x] + multiset(a[1..])[x];
      assert multiset(b)[x] == m[x] + multiset(b[1..])[x];
    }
  }

  /** A non-increasing list is fixed by its elements: so any correct sort gives `SortDesc`. */
  lemma {:induction false} SortedDescUnique(a: seq<string>, b: seq<string>)
    requires SortedDesc(a) && SortedDesc(b)
    requires multiset(a) == multiset(b)
    ensures a == b
  {
    if a != [] && b != [] {
      assert a[0] in multiset(b) && b[0] in multiset(a);
      HeadIsGreatest(b, a[0]);
      HeadIsGreatest(a, b[0]);
      LeAntisymmetric(a[0], b[0]);
      TailMultiset(a, b);
      TailSorted(a);
      TailSorted(b);
      SortedDescUnique(a[1..], b[1..]);
      assert a == [a[0]] + a[1..] && b == [b[0]] + b[1..];
    } else {
      assert |a| == |multiset(a)| == |multiset(b)| == |b|;
    }
  }
}
