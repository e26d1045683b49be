/** Names in byte order, and sorting by name: in place, and unique when names are distinct. */
module NameOrder {

  /** Go's string order. */
  predicate NameLess(a: string, b: string) {
    b != [] && (a == [] || a[0] < b[0] || (a[0] == b[0] && NameLess(a[1..], b[1..])))
  }

  /** Byte order: a is a proper beginning of b, or smaller where they first differ. */
  lemma {:induction false} NameLessExactly(a: string, b: string)
    ensures NameLess(a, b) <==>
              (a <= b && |a| < |b|) || exists i :: 0 <= i < |a| && i < |b| && a[..i] == b[..i] && a[i] < b[i]
  {
    if a != [] && b != [] && a[0] == b[0] {
      var s, t := a[1..], b[1..];
      NameLessExactly(s, t);
      assert a == [a[0]] + s && b == [b[0]] + t;
      if i :| 0 <= i < |s| && i < |t| && s[..i] == t[..i] && s[i] < t[i] {
        assert a[..i + 1] == [a[0]] + s[..i] && b[..i + 1] == [b[0]] + t[..i];
        assert a[i + 1] < b[i + 1];
      }
      if i :| 0 <= i < |a| && i < |b| && a[..i] == b[..i] && a[i] < b[i] {
        assert s[..i - 1] == a[..i][1..] && t[..i - 1] == b[..i][1..];
        assert s[i - 1] < t[i - 1];
      }
    } else if a != [] && b != [] && a[0] < b[0] {
      assert a[..0] == b[..0];
    }
  }

  lemma {:induction false} OneOfThree(a: string, b: string)
    ensures NameLess(a, b) || a == b || NameLess(b, a)
    ensures !(NameLess(a, b) && (a == b || NameLess(b, a)))
  {
    if a != [] && b != [] {
      OneOfThree(a[1..], b[1..]);
      if a[0] == b[0] && a[1..] == b[1..] {
        assert a == [a[0]] + a[1..] == b;
      }
    }
  }

  lemma {:induction false} LessTransitive(a: string, b: string, c: string)
    requires NameLess(a, b) && NameLess(b, c)
    ensures NameLess(a, c)
  {
    if a != [] && a[0] == b[0] == c[0] {
      LessTransitive(a[1..], b[1..], c[1..]);
    }
  }

  ghost predicate Sorted<T>(xs: seq<T>, name: T -> string) {
    forall i, j :: 0 <= i < j < |xs| ==> !NameLess(name(xs[j]), name(xs[i]))
  }

  ghost predicate Distinct<T>(xs: seq<T>, name: T -> string) {
    forall i, j :: 0 <= i < j < |xs| ==> name(xs[i]) != name(xs[j])
  }

  lemma SwapPermutes<T>(xs: seq<T>, i: nat, j: nat)
    requires i < j < |xs|
    ensures multiset(xs[i := xs[j]][j := xs[i]]) == multiset(xs)
  {
  }

  /** Is the prefix sorted but for the element at j, which is below all after it? */
  ghost predicate Sinking<T>(xs: seq<T>, name: T -> string, j: nat, n: nat)
    requires j < n <= |xs|
  {
    && (forall p, q :: 0 <= p < q < n && p != j && q != j ==> !NameLess(name(xs[q]), name(xs[p])))
    && (forall q :: j < q < n ==> !NameLess(name(xs[q]), name(xs[j])))
  }

  lemma SinkStart<T>(xs: seq<T>, name: T -> string, n: nat)
    requires n < |xs| && Sorted(xs[..n], name)
    ensures Sinking(xs, name, n, n + 1)
  {
    assert forall p :: 0 <= p < n ==> xs[p] == xs[..n][p];
  }

  lemma SinkOne<T>(xs: seq<T>, name: T -> string, j: nat, n: nat)
    requires 0 < j < n <= |xs| && Sinking(xs, name, j, n) && NameLess(name(xs[j]), name(xs[j - 1]))
    ensures Sinking(xs[j - 1 := xs[j]][j := xs[j - 1]], name, j - 1, n)
  {
    var ys := xs[j - 1 := xs[j]][j := xs[j - 1]];
    forall q | j - 1 < q < n
      ensures !NameLess(name(ys[q]), name(ys[j - 1]))
    {
      OneOfThree(name(xs[j]), name(xs[j - 1]));
    }
  }

  lemma SunkIsSorted<T>(xs: seq<T>, name: T -> string, j: nat, n: nat)
    requires j < n <= |xs| && Sinking(xs, name, j, n)
    requires j == 0 || !NameLess(name(xs[j]), name(xs[j - 1]))
    ensures Sorted(xs[..n], name)
  {
    forall p | 0 <= p < j
      ensures !NameLess(name(xs[j]), name(xs[p]))
    {
      if p < j - 1 {
        NotLessTransitive(name(xs[p]), name(xs[j - 1]), name(xs[j]));
      }
    }
  }

  lemma {:induction false} NotLessTransitive(a: string, b: string, c: string)
    requires !NameLess(b, a) && !NameLess(c, b)
    ensures !NameLess(c, a)
  {
    OneOfThree(a, b);
    OneOfThree(b, c);
    if NameLess(c, a) && NameLess(a, b) {
      LessTransitive(c, a, b);
    }
  }

  /** A correct sort; which of the correct results it gives, nothing below depends on. */
  method SortByName<T>(a: array<T>, name: T -> string)
    modifies a
    ensures Sorted(a[..], name) && multiset(a[..]) == multiset(old(a[..]))
  {
    for n := 0 to a.Length
      invariant Sorted(a[..n], name) && multiset(a[..]) == multiset(old(a[..]))
    {
      Sink(a, name, n);
    }
    assert a[..a.Length] == a[..];
  }

  method SwapDown<T>(a: array<T>, j: nat)
    requires 0 < j < a.Length
    modifies a
    ensures a[..] == old(a[..])[j - 1 := old(a[j])][j := old(a[j - 1])]
    ensures multiset(a[..]) == multiset(old(a[..]))
  {
    SwapPermutes(a[..], j - 1, j);
    ghost var xs := a[..];
    a[j - 1], a[j] := a[j], a[j - 1];
    assert a[..] == xs[j - 1 := xs[j]][j := xs[j - 1]];
  }

  method Sink<T>(a: array<T>, name: T -> string, n: nat)
    requires n < a.Length && Sorted(a[..n], name)
    modifies a
    ensures Sorted(a[..n + 1], name) && multiset(a[..]) == multiset(old(a[..]))
  {
    var j := n;
    assert a[..][..n] == a[..n];
    SinkStart(a[..], name, n);
    while j > 0 && NameLess(name(a[j]), name(a[j - 1]))
      invariant 0 <= j <= n && Sinking(a[..], name, j, n + 1)
      invariant multiset(a[..]) == multiset(old(a[..]))
    {
      SinkOne(a[..], name, j, n + 1);
      SwapDown(a, j);
      j := j - 1;
    }
    SunkIsSorted(a[..], name, j, n + 1);
    assert a[..][..n + 1] == a[..n + 1];
  }

  // ---------------------------------------------------------------- uniqueness

  /** Elements of one name are equal. */
  ghost predicate Agreeing<T>(xs: seq<T>, name: T -> string) {
    forall i, j :: 0 <= i < |xs| && 0 <= j < |xs| && name(xs[i]) == name(xs[j]) ==> xs[i] == xs[j]
  }

  lemma DistinctAgree<T>(xs: seq<T>, name: T -> string)
    requires Distinct(xs, name)
    ensures Agreeing(xs, name)
  {
    forall i, j | 0 <= i < |xs| && 0 <= j < |xs| && name(xs[i]) == name(xs[j])
      ensures i == j
    {
    }
  }

  /** What a correct sort may make of a list. */
  ghost predicate Arranges<T>(xs: seq<T>, r: seq<T>, name: T -> string) {
    Sorted(r, name) && multiset(r) == multiset(xs)
  }

  /** Two sorted arrangements of the same things, equal when of one name, are the same. */
  lemma {:induction false} SortedUnique<T>(xs: seq<T>, ys: seq<T>, name: T -> string)
    requires Sorted(xs, name) && Sorted(ys, name) && multiset(xs) == multiset(ys) && Agreeing(xs, name)
    ensures xs == ys
    decreases |xs|
  {
    assert |xs| == |multiset(xs)| == |multiset(ys)| == |ys|;
    if xs != [] {
      HeadsAgree(xs, ys, name);
      TailCounts(xs);
      TailCounts(ys);
      SortedUnique(xs[1..], ys[1..], name);
      assert xs == [xs[0]] + xs[1..] && ys == [ys[0]] + ys[1..];
    }
  }

  lemma TailCounts<T>(xs: seq<T>)
    requires xs != []
    ensures multiset(xs[1..]) == multiset(xs) - multiset{xs[0]}
  {
    assert xs == [xs[0]] + xs[1..];
  }

  lemma HeadsAgree<T>(xs: seq<T>, ys: seq<T>, name: T -> string)
    requires Sorted(xs, name) && Sorted(ys, name) && multiset(xs) == multiset(ys) && Agreeing(xs, name)
    requires xs != [] && ys != []
    ensures xs[0] == ys[0]
  {
    assert xs[0] in multiset(ys) && ys[0] in multiset(xs);
    var i :| 0 <= i < |xs| && xs[i] == ys[0];
    var j :| 0 <= j < |ys| && ys[j] == xs[0];
    OneOfThree(name(xs[0]), name(ys[0]));
  }

  lemma {:induction false} Inserted<T>(r: seq<T>, x: T, name: T -> string) returns (r': seq<T>)
    requires Sorted(r, name)
    ensures Sorted(r', name) && multiset(r') == multiset(r) + multiset{x}
    decreases |r|
  {
    if r == [] {
      r' := [x];
    } else if !NameLess(name(r[0]), name(x)) {
      r' := [x] + r;
      forall j | 0 < j < |r'|
        ensures !NameLess(name(r'[j]), name(x))
      {
        if j > 1 {
          NotLessTransitive(name(x), name(r[0]), name(r[j - 1]));
        }
      }
    } else {
      var t := Inserted(r[1..], x, name);
      r' := [r[0]] + t;
      assert r == [r[0]] + r[1..];
      forall j | 0 < j < |r'|
        ensures !NameLess(name(r'[j]), name(r[0]))
      {
        assert r'[j] in multiset(t);
        OneOfThree(name(r[0]), name(x));
      }
    }
  }

  lemma {:induction false} SomeArrangement<T>(xs: seq<T>, name: T -> string) returns (r: seq<T>)
    ensures Arranges(xs, r, name)
    decreases |xs|
  {
    if xs == [] {
      r := [];
    } else {
      var t := SomeArrangement(xs[1..], name);
      r := Inserted(t, xs[0], name);
      assert xs == [xs[0]] + xs[1..];
    }
  }

  /** Swapping two elements of one name leaves a sorted list sorted. */
  lemma SwapArranges<T>(xs: seq<T>, r: seq<T>, i: nat, j: nat, name: T -> string)
    requires Arranges(xs, r, name) && i < j < |r| && name(r[i]) == name(r[j])
    ensures Arranges(xs, r[i := r[j]][j := r[i]], name)
  {
    SwapPermutes(r, i, j);
    var r' := r[i := r[j]][j := r[i]];
    assert forall k :: 0 <= k < |r| ==> name(r'[k]) == name(r[k]);
  }

  lemma OneArrangement<T>(xs: seq<T>, r: seq<T>, r': seq<T>, name: T -> string)
    requires Agreeing(xs, name) && Arranges(xs, r, name) && Arranges(xs, r', name)
    ensures r == r'
  {
    AgreeingPermutes(xs, r, name);
    SortedUnique(r, r', name);
  }

  /** Two different elements of one name give two different sorted arrangements. */
  lemma TwoArrangements<T>(xs: seq<T>, name: T -> string) returns (r: seq<T>, r': seq<T>)
    requires !Agreeing(xs, name)
    ensures Arranges(xs, r, name) && Arranges(xs, r', name) && r != r'
  {
    r := SomeArrangement(xs, name);
    var i, j := Clash(xs, r, name);
    SwapArranges(xs, r, i, j, name);
    r' := r[i := r[j]][j := r[i]];
    assert r'[i] != r[i];
  }

  lemma AgreeingPermutes<T>(xs: seq<T>, ys: seq<T>, name: T -> string)
    requires multiset(xs) == multiset(ys) && Agreeing(xs, name)
    ensures Agreeing(ys, name)
  {
    forall i, j | 0 <= i < |ys| && 0 <= j < |ys| && name(ys[i]) == name(ys[j])
      ensures ys[i] == ys[j]
    {
      assert ys[i] in multiset(xs) && ys[j] in multiset(xs);
      var p :| 0 <= p < |xs| && xs[p] == ys[i];
      var q :| 0 <= q < |xs| && xs[q] == ys[j];
    }
  }

  lemma Clash<T>(xs: seq<T>, r: seq<T>, name: T -> string) returns (i: nat, j: nat)
    requires multiset(xs) == multiset(r) && !Agreeing(xs, name)
    ensures i < j < |r| && name(r[i]) == name(r[j]) && r[i] != r[j]
  {
    var p, q :| 0 <= p < |xs| && 0 <= q < |xs| && name(xs[p]) == name(xs[q]) && xs[p] != xs[q];
    assert xs[p] in multiset(r) && xs[q] in multiset(r);
    i :| 0 <= i < |r| && r[i] == xs[p];
    j :| 0 <= j < |r| && r[j] == xs[q];
    if j < i {
      i, j := j, i;
    }
  }

  lemma {:induction false} TwoPlaces<T>(xs: seq<T>, x: T)
    requires multiset(xs)[x] >= 2
    ensures exists i, j :: 0 <= i < j < |xs| && xs[i] == x && xs[j] == x
    decreases |xs|
  {
    assert xs == xs[..|xs| - 1] + [xs[|xs| - 1]];
    if xs[|xs| - 1] == x {
      assert x in multiset(xs[..|xs| - 1]);
      var i :| 0 <= i < |xs| - 1 && xs[i] == x;
      assert xs[|xs| - 1] == x;
    } else {
      TwoPlaces(xs[..|xs| - 1], x);
    }
  }

  lemma TwiceThere<T>(xs: seq<T>, i: nat, j: nat)
    requires i < j < |xs| && xs[i] == xs[j]
    ensures multiset(xs)[xs[i]] >= 2
  {
    assert xs == xs[..j] + [xs[j]] + xs[j + 1..];
    assert xs[i] in xs[..j];
  }

  /** Whether names are distinct does not depend on the order. */
  lemma DistinctPermutes<T>(xs: seq<T>, ys: seq<T>, name: T -> string)
    requires multiset(xs) == multiset(ys) && Distinct(xs, name)
    ensures Distinct(ys, name)
  {
    forall i, j | 0 <= i < j < |ys|
      ensures name(ys[i]) != name(ys[j])
    {
      if ys[i] == ys[j] {
        TwiceThere(ys, i, j);
        TwoPlaces(xs, ys[i]);
      } else {
        assert ys[i] in multiset(xs) && ys[j] in multiset(xs);
        var p :| 0 <= p < |xs| && xs[p] == ys[i];
        var q :| 0 <= q < |xs| && xs[q] == ys[j];
      }
    }
  }
}
