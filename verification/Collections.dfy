/** Sorting and walking Go maps. The result of `sort.Strings`, `sort.Ints` or `sort.Slice` on ranks is
    the one sorted arrangement of the input, so it does not depend on the order a map was walked in. */
module Collections {

  ghost predicate NoDuplicates<T>(s: seq<T>) {
    forall i, j :: 0 <= i < j < |s| ==> s[i] != s[j]
  }

  lemma TailMultiset<T>(a: seq<T>)
    requires a != []
    ensures multiset(a) == multiset{a[0]} + multiset(a[1..])
  {
    assert a == [a[0]] + a[1..];
  }

  lemma MultisetMembers<T>(a: seq<T>, b: seq<T>)
    requires multiset(a) == multiset(b)
    ensures |a| == |b|
    ensures forall x :: x in a <==> x in b
  {
    assert |multiset(a)| == |a| && |multiset(b)| == |b|;
    forall x ensures x in a <==> x in b {
      assert x in multiset(a) <==> x in multiset(b);
    }
  }

  // ---- integers

  ghost predicate AtMostAll(x: int, s: seq<int>) {
    forall y :: y in s ==> x <= y
  }

  ghost predicate SortedInts(s: seq<int>) {
    s == [] || (AtMostAll(s[0], s[1..]) && SortedInts(s[1..]))
  }

  function InsertInt(x: int, s: seq<int>): seq<int> {
    if s == [] || x <= s[0] then [x] + s else [s[0]] + InsertInt(x, s[1..])
  }

  function SortInts(s: seq<int>): seq<int> {
    if s == [] then [] else InsertInt(s[0], SortInts(s[1..]))
  }

  lemma {:induction false} InsertIntKeeps(x: int, s: seq<int>)
    ensures multiset(InsertInt(x, s)) == multiset(s) + multiset{x}
  {
    if s != [] && x > s[0] {
      InsertIntKeeps(x, s[1..]);
      TailMultiset(s);
      assert multiset([s[0]] + InsertInt(x, s[1..])) == multiset{s[0]} + multiset(InsertInt(x, s[1..]));
    }
  }

  lemma {:induction false} InsertIntSorts(x: int, s: seq<int>)
    requires SortedInts(s)
    ensures forall y :: y in InsertInt(x, s) <==> y == x || y in s
    ensures SortedInts(InsertInt(x, s))
  {
    if s == [] {
    } else if x <= s[0] {
      assert AtMostAll(x, s) by { assert forall y :: y in s ==> y == s[0] || y in s[1..]; }
      assert ([x] + s)[1..] == s;
    } else {
      var rest := InsertInt(x, s[1..]);
      InsertIntSorts(x, s[1..]);
      assert s == [s[0]] + s[1..];
      assert ([s[0]] + rest)[1..] == rest;
    }
  }

  /** Sorting gives a sorted arrangement of the same integers. */
  lemma {:induction false} SortIntsSorts(s: seq<int>)
    ensures multiset(SortInts(s)) == multiset(s)
    ensures SortedInts(SortInts(s))
    ensures |SortInts(s)| == |s| && forall y :: y in SortInts(s) <==> y in s
  {
    if s != [] {
      TailMultiset(s);
      SortIntsSorts(s[1..]);
      InsertIntKeeps(s[0], SortInts(s[1..]));
      InsertIntSorts(s[0], SortInts(s[1..]));
      MultisetMembers(SortInts(s), s);
    }
  }

  lemma FirstIntsAgree(a: seq<int>, b: seq<int>)
    requires SortedInts(a) && SortedInts(b) && a != [] && b != []
    requires a[0] in b && b[0] in a
    ensures a[0] == b[0]
  {
    assert a == [a[0]] + a[1..] && b == [b[0]] + b[1..];
  }

  /** Two sorted arrangements of the same integers are the same sequence. */
  lemma {:induction false} SortedIntsUnique(a: seq<int>, b: seq<int>)
    requires SortedInts(a) && SortedInts(b) && multiset(a) == multiset(b)
    ensures a == b
  {
    MultisetMembers(a, b);
    if a != [] {
      assert a[0] in b && b[0] in a;
      FirstIntsAgree(a, b);
      TailMultiset(a);
      TailMultiset(b);
      assert multiset(a[1..]) == multiset(a) - multiset{a[0]};
      assert multiset(b[1..]) == multiset(b) - multiset{b[0]};
      SortedIntsUnique(a[1..], b[1..]);
      assert a == [a[0]] + a[1..] && b == [b[0]] + b[1..];
    }
  }

  lemma {:induction false} SortedIntsAppend(s: seq<int>, x: int)
    requires SortedInts(s) && forall y :: y in s ==> y <= x
    ensures SortedInts(s + [x])
  {
    if s == [] {
      assert (s + [x])[1..] == [];
    } else {
      var rest := s[1..];
      assert s == [s[0]] + rest;
      assert s[0] in s && forall y :: y in rest ==> y in s;
      SortedIntsAppend(rest, x);
      assert (s + [x])[1..] == s[1..] + [x];
    }
  }

  lemma {:induction false} SortedIntsAt(s: seq<int>, i: nat, j: nat)
    requires SortedInts(s) && i < j < |s|
    ensures s[i] <= s[j]
  {
    if i == 0 { assert s[j] in s[1..]; } else { SortedIntsAt(s[1..], i - 1, j - 1); }
  }

  // ---- strings

  /** Go compares strings byte by byte; on UTF-8 that is the order of the code points. */
  predicate LeString(a: string, b: string) {
    a == "" || (b != "" && (a[0] < b[0] || (a[0] == b[0] && LeString(a[1..], b[1..]))))
  }

  lemma {:induction false} LeStringAntisymmetric(a: string, b: string)
    requires LeString(a, b) && LeString(b, a)
    ensures a == b
  {
    if a != "" && b != "" {
      LeStringAntisymmetric(a[1..], b[1..]);
      assert a == [a[0]] + a[1..] && b == [b[0]] + b[1..];
    }
  }

  lemma {:induction false} LeStringTransitive(a: string, b: string, c: string)
    requires LeString(a, b) && LeString(b, c)
    ensures LeString(a, c)
  {
    if a != "" && a[0] == b[0] && b[0] == c[0] {
      LeStringTransitive(a[1..], b[1..], c[1..]);
    }
  }

  lemma {:induction false} LeStringConnected(a: string, b: string)
    ensures LeString(a, b) || LeString(b, a)
  {
    if a != "" && b != "" && a[0] == b[0] {
      LeStringConnected(a[1..], b[1..]);
    }
  }

  ghost predicate BelowAll(x: string, s: seq<string>) {
    forall y :: y in s ==> LeString(x, y)
  }

  ghost predicate SortedStrings(s: seq<string>) {
    s == [] || (BelowAll(s[0], s[1..]) && SortedStrings(s[1..]))
  }

  lemma BelowHead(x: string, s: seq<string>)
    requires SortedStrings(s) && s != [] && LeString(x, s[0])
    ensures BelowAll(x, s)
  {
    forall y | y in s ensures LeString(x, y) {
      if y != s[0] {
        assert y in s[1..];
        LeStringTransitive(x, s[0], y);
      }
    }
  }

  function InsertString(x: string, s: seq<string>): seq<string> {
    if s == [] || LeString(x, s[0]) then [x] + s else [s[0]] + InsertString(x, s[1..])
  }

  function SortStrings(s: seq<string>): seq<string> {
    if s == [] then [] else InsertString(s[0], SortStrings(s[1..]))
  }

  lemma {:induction false} InsertStringKeeps(x: string, s: seq<string>)
    ensures multiset(InsertString(x, s)) == multiset(s) + multiset{x}
  {
    if s != [] && !LeString(x, s[0]) {
      InsertStringKeeps(x, s[1..]);
      TailMultiset(s);
      assert multiset([s[0]] + InsertString(x, s[1..])) == multiset{s[0]} + multiset(InsertString(x, s[1..]));
    }
  }

  lemma {:induction false} InsertStringSorts(x: string, s: seq<string>)
    requires SortedStrings(s)
    ensures forall y :: y in InsertString(x, s) <==> y == x || y in s
    ensures SortedStrings(InsertString(x, s))
  {
    if s == [] {
    } else if LeString(x, s[0]) {
      BelowHead(x, s);
      assert ([x] + s)[1..] == s;
    } else {
      LeStringConnected(x, s[0]);
      var rest := InsertString(x, s[1..]);
      InsertStringSorts(x, s[1..]);
      assert s == [s[0]] + s[1..];
      assert ([s[0]] + rest)[1..] == rest;
    }
  }

  /** Sorting gives a sorted arrangement of the same strings. */
  lemma {:induction false} SortStringsSorts(s: seq<string>)
    ensures multiset(SortStrings(s)) == multiset(s)
    ensures SortedStrings(SortStrings(s))
    ensures |SortStrings(s)| == |s| && forall y :: y in SortStrings(s) <==> y in s
  {
    if s != [] {
      TailMultiset(s);
      SortStringsSorts(s[1..]);
      InsertStringKeeps(s[0], SortStrings(s[1..]));
      InsertStringSorts(s[0], SortStrings(s[1..]));
      MultisetMembers(SortStrings(s), s);
    }
  }

  lemma FirstsAgree(a: seq<string>, b: seq<string>)
    requires SortedStrings(a) && SortedStrings(b) && a != [] && b != []
    requires a[0] in b && b[0] in a
    ensures a[0] == b[0]
  {
    if a[0] != b[0] {
      assert a[0] in b[1..] && b[0] in a[1..];
      LeStringAntisymmetric(a[0], b[0]);
    }
  }

  /** Two sorted arrangements of the same strings are the same sequence. */
  lemma {:induction false} SortedStringsUnique(a: seq<string>, b: seq<string>)
    requires SortedStrings(a) && SortedStrings(b) && multiset(a) == multiset(b)
    ensures a == b
  {
    MultisetMembers(a, b);
    if a != [] {
      assert a[0] in b && b[0] in a;
      FirstsAgree(a, b);
      TailMultiset(a);
      TailMultiset(b);
      assert multiset(a[1..]) == multiset(a) - multiset{a[0]};
      assert multiset(b[1..]) == multiset(b) - multiset{b[0]};
      SortedStringsUnique(a[1..], b[1..]);
      assert a == [a[0]] + a[1..] && b == [b[0]] + b[1..];
    }
  }

  /** Sorting something already sorted changes nothing. */
  lemma SortStringsFixed(s: seq<string>)
    requires SortedStrings(s)
    ensures SortStrings(s) == s
  {
    SortStringsSorts(s);
    SortedStringsUnique(SortStrings(s), s);
  }

  // ---- walking a Go map

  lemma {:induction false} NoDuplicatesMultiset<T>(s: seq<T>)
    requires NoDuplicates(s)
    ensures forall x :: multiset(s)[x] == if x in s then 1 else 0
  {
    if s != [] {
      var init := s[..|s| - 1];
      var last := s[|s| - 1];
      assert s == init + [last];
      NoDuplicatesMultiset(init);
      assert last !in init;
    }
  }

  lemma SameElementsMultiset<T>(a: seq<T>, b: seq<T>)
    requires NoDuplicates(a) && NoDuplicates(b)
    requires forall x :: x in a <==> x in b
    ensures multiset(a) == multiset(b)
  {
    NoDuplicatesMultiset(a);
    NoDuplicatesMultiset(b);
  }

  /** Two walks over the same set of strings sort to the same list. */
  lemma SortIgnoresWalkOrder(a: seq<string>, b: seq<string>)
    requires NoDuplicates(a) && NoDuplicates(b)
    requires forall x :: x in a <==> x in b
    ensures SortStrings(a) == SortStrings(b)
  {
    SameElementsMultiset(a, b);
    SortStringsSorts(a);
    SortStringsSorts(b);
    SortedStringsUnique(SortStrings(a), SortStrings(b));
  }

  /** The keys of a Go map in some order. */
  method Walk<T(==)>(keys: set<T>) returns (out: seq<T>)
    ensures NoDuplicates(out)
    ensures forall x :: x in out <==> x in keys
  {
    out := [];
    var left := keys;
    while left != {}
      invariant left <= keys
      invariant NoDuplicates(out)
      invariant forall x :: x in out <==> x in keys && x !in left
      decreases |left|
    {
      var x :| x in left;
      assert x !in out;
      left := left - {x};
      out := out + [x];
    }
  }
}
