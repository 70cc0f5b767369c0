/** Drive layouts as text (internal/hostprep/bdevlayout.go): printed as a flag, parsed back, and compared. */
module BdevLayout {
  import opened Collections
  import opened Text

  datatype Layout = Layout(kind: string, devices: seq<string>)

  // ---- the flag form

  function Part(i: int, l: Layout): string { IntText(i) + "=" + l.kind + ":" + Join(l.devices, ',') }

  function At(m: map<int, Layout>, i: int): Layout { if i in m then m[i] else Layout("", []) }

  function PartsOf(m: map<int, Layout>, idx: seq<int>): seq<string> {
    if idx == [] then [] else PartsOf(m, idx[..|idx| - 1]) + [Part(idx[|idx| - 1], At(m, idx[|idx| - 1]))]
  }

  /** The keys of m in order. */
  ghost predicate InOrder(m: map<int, Layout>, idx: seq<int>) {
    SortedInts(idx) && NoDuplicates(idx) && forall i :: i in idx <==> i in m
  }

  /** text is m printed, ordered by engine index. */
  ghost predicate Prints(m: map<int, Layout>, text: string) {
    exists idx :: InOrder(m, idx) && text == Join(PartsOf(m, idx), ';')
  }

  method OrderKeys(m: map<int, Layout>) returns (idx: seq<int>)
    ensures InOrder(m, idx)
  {
    idx := Walk(m.Keys);
    NoDuplicatesMultiset(idx);
    ghost var was := idx;
    SortIntsSorts(idx);
    idx := SortInts(idx);
    hide SortInts;
    OnceEach(idx, was);
  }

  lemma CountedTwice(a: seq<int>, i: nat, j: nat)
    requires i < j < |a| && a[i] == a[j]
    ensures multiset(a)[a[i]] >= 2
  {
    assert a == a[..j] + a[j..];
    assert a[i] in a[..j] && a[j] in a[j..];
  }

  lemma OnceEach(a: seq<int>, b: seq<int>)
    requires multiset(a) == multiset(b) && NoDuplicates(b)
    ensures NoDuplicates(a)
  {
    NoDuplicatesMultiset(b);
    forall i, j | 0 <= i < j < |a| ensures a[i] != a[j] {
      if a[i] == a[j] { CountedTwice(a, i, j); }
    }
  }

  method PrintParts(m: map<int, Layout>, idx: seq<int>) returns (parts: seq<string>)
    ensures parts == PartsOf(m, idx)
  {
    parts := [];
    for k := 0 to |idx|
      invariant parts == PartsOf(m, idx[..k])
    {
      hide Part, At;
      assert idx[..k + 1][..k] == idx[..k];
      parts := parts + [Part(idx[k], At(m, idx[k]))];
    }
    assert idx[..|idx|] == idx;
  }

  /** `FormatBdevLayouts` */
  method FormatLayouts(m: map<int, Layout>) returns (text: string)
    ensures Prints(m, text)
  {
    hide PartsOf, InOrder, Join;
    var idx := OrderKeys(m);
    var parts := PrintParts(m, idx);
    text := Join(parts, ';');
  }

  /** There is one way to print a map. */
  lemma PrintsOneText(m: map<int, Layout>, a: string, b: string)
    requires Prints(m, a) && Prints(m, b)
    ensures a == b
  {
    hide PartsOf, Join, SortedInts;
    var x :| InOrder(m, x) && a == Join(PartsOf(m, x), ';');
    var y :| InOrder(m, y) && b == Join(PartsOf(m, y), ';');
    assert forall i :: (i in x <==> i in m) && (i in y <==> i in m);
    SameElementsMultiset(x, y);
    SortedIntsUnique(x, y);
  }

  function ParsePart(part: string): Option<(int, Layout)> {
    var (idx, rest, ok1) := Cut(part, '=');
    var (kind, devs, ok2) := Cut(rest, ':');
    if !ok1 || !ok2 || Atoi(idx).None? || devs == "" then None
    else Some((Atoi(idx).value, Layout(kind, SortStrings(Split(devs, ',')))))
  }

  function ParseParts(parts: seq<string>): Option<map<int, Layout>> {
    if parts == [] then Some(map[])
    else
      var last := parts[|parts| - 1];
      match ParseParts(parts[..|parts| - 1])
      case None => None
      case Some(m) =>
        if last == "" then Some(m)
        else
          match ParsePart(last)
          case None => None
          case Some((i, l)) => Some(m[i := l])
  }

  function ParseText(s: string): Option<map<int, Layout>> { ParseParts(Split(s, ';')) }

  lemma {:induction false} ParseFailsEarly(parts: seq<string>, k: nat)
    requires k <= |parts| && ParseParts(parts[..k]).None?
    ensures ParseParts(parts).None?
  {
    if k == |parts| {
      assert parts[..k] == parts;
    } else {
      var init := parts[..|parts| - 1];
      assert init[..k] == parts[..k];
      ParseFailsEarly(init, k);
    }
  }

  /** `ParseBdevLayouts` */
  method ParseLayouts(s: string) returns (out: Option<map<int, Layout>>)
    ensures out == ParseText(s)
  {
    var m: map<int, Layout> := map[];
    var parts := Split(s, ';');
    for k := 0 to |parts|
      invariant ParseParts(parts[..k]) == Some(m)
    {
      var part := parts[k];
      assert parts[..k + 1][..k] == parts[..k];
      if part == "" { continue; }
      var (idx, rest, ok1) := Cut(part, '=');
      var (kind, devs, ok2) := Cut(rest, ':');
      var i := Atoi(idx);
      if !ok1 || !ok2 || i.None? || devs == "" {
        ParseFailsEarly(parts, k + 1);
        return None;
      }
      var l := Layout(kind, SortStrings(Split(devs, ',')));
      m := m[i.value := l];
    }
    assert parts[..|parts|] == parts;
    out := Some(m);
  }

  // ---- the round trip

  ghost predicate Plain(l: Layout) {
    && ':' !in l.kind && ';' !in l.kind
    && l.devices != [] && l.devices != [""] && SortedStrings(l.devices)
    && forall d :: d in l.devices ==> ',' !in d && ';' !in d
  }

  lemma AtoiIntText(i: int)
    requires -MAX_INT64 - 1 <= i <= MAX_INT64
    ensures Atoi(IntText(i)) == Some(i)
    ensures forall c :: c in IntText(i) ==> IsDigit(c) || c == '-'
  {
    if i >= 0 {
      AtoiNatText(i);
      DigitsAreNotSpecial(NatText(i));
    } else {
      NatTextValue(-i);
      DigitsAreNotSpecial(NatText(-i));
      assert IntText(i)[1..] == NatText(-i);
    }
  }

  lemma JoinNotEmpty(parts: seq<string>)
    requires parts != [] && parts != [""]
    ensures Join(parts, ',') != ""
  {
    if |parts| == 1 { assert parts == [parts[0]]; }
  }

  lemma PartCuts(i: int, l: Layout)
    requires Plain(l) && -MAX_INT64 - 1 <= i <= MAX_INT64
    ensures var devs := Join(l.devices, ',');
      var rest := l.kind + ":" + devs;
      Cut(Part(i, l), '=') == (IntText(i), rest, true) && Cut(rest, ':') == (l.kind, devs, true)
  {
    var devs := Join(l.devices, ',');
    var rest := l.kind + ":" + devs;
    AtoiIntText(i);
    hide Join, IntText, Atoi, Cut;
    assert Part(i, l) == IntText(i) + ['='] + rest;
    CutAtFirst(IntText(i), '=', rest);
    assert rest == l.kind + [':'] + devs;
    CutAtFirst(l.kind, ':', devs);
  }

  lemma PartDevices(l: Layout)
    requires Plain(l)
    ensures SortStrings(Split(Join(l.devices, ','), ',')) == l.devices && Join(l.devices, ',') != ""
  {
    SplitJoin(l.devices, ',');
    SortStringsFixed(l.devices);
    JoinNotEmpty(l.devices);
    hide *;
  }

  lemma PartHasNoSemicolon(i: int, l: Layout)
    requires Plain(l) && -MAX_INT64 - 1 <= i <= MAX_INT64
    ensures ';' !in Part(i, l) && Part(i, l) != ""
  {
    AtoiIntText(i);
    JoinHasNo(l.devices, ',', ';');
    hide Join, IntText, Atoi;
  }

  lemma PartRoundTrip(i: int, l: Layout)
    requires Plain(l) && -MAX_INT64 - 1 <= i <= MAX_INT64
    ensures ParsePart(Part(i, l)) == Some((i, l)) && ';' !in Part(i, l) && Part(i, l) != ""
  {
    PartCuts(i, l);
    PartDevices(l);
    AtoiIntText(i);
    PartHasNoSemicolon(i, l);
    hide Cut, Part, Split, SortStrings, Atoi, IntText, Join, Plain;
  }

  ghost predicate PlainMap(m: map<int, Layout>) {
    forall i :: i in m ==> Plain(m[i]) && -MAX_INT64 - 1 <= i <= MAX_INT64
  }

  function Restrict(m: map<int, Layout>, idx: seq<int>): map<int, Layout> { map i | i in idx :: At(m, i) }

  lemma {:induction false} PartsRoundTrip(m: map<int, Layout>, idx: seq<int>)
    requires PlainMap(m) && forall i :: i in idx ==> i in m
    ensures ParseParts(PartsOf(m, idx)) == Some(Restrict(m, idx))
  {
    if idx == [] {
      RestrictExt(m, idx, map[]);
    } else {
      var init := idx[..|idx| - 1];
      var last := idx[|idx| - 1];
      assert idx == init + [last];
      PartsRoundTrip(m, init);
      assert last in idx;
      PartRoundTrip(last, m[last]);
      PartsGrow(m, idx, Restrict(m, init));
      hide ParseParts, PartsOf, ParsePart, Part, Plain;
      RestrictExt(m, idx, Restrict(m, init)[last := m[last]]);
    }
  }

  lemma PartsGrow(m: map<int, Layout>, idx: seq<int>, before: map<int, Layout>)
    requires idx != [] && idx[|idx| - 1] in m
    requires var last := idx[|idx| - 1];
      && ParseParts(PartsOf(m, idx[..|idx| - 1])) == Some(before)
      && ParsePart(Part(last, m[last])) == Some((last, m[last])) && Part(last, m[last]) != ""
    ensures ParseParts(PartsOf(m, idx)) == Some(before[idx[|idx| - 1] := m[idx[|idx| - 1]]])
  {
    var parts := PartsOf(m, idx);
    assert parts[..|parts| - 1] == PartsOf(m, idx[..|idx| - 1]);
    hide ParsePart, Part;
  }

  lemma RestrictExt(m: map<int, Layout>, idx: seq<int>, t: map<int, Layout>)
    requires forall i :: i in t <==> i in idx
    requires forall i :: i in t ==> t[i] == At(m, i)
    ensures t == Restrict(m, idx)
  {
    var r := Restrict(m, idx);
    assert forall i :: i in t <==> i in r;
    assert forall i :: i in r ==> r[i] == t[i];
  }

  lemma {:induction false} PartsHaveNoSemicolon(m: map<int, Layout>, idx: seq<int>)
    requires PlainMap(m) && forall i :: i in idx ==> i in m
    ensures |PartsOf(m, idx)| == |idx| && forall p :: p in PartsOf(m, idx) ==> ';' !in p
  {
    if idx != [] {
      var last := idx[|idx| - 1];
      assert idx == idx[..|idx| - 1] + [last];
      PartsHaveNoSemicolon(m, idx[..|idx| - 1]);
      assert last in idx;
      PartHasNoSemicolon(last, m[last]);
      hide Part, Plain;
    }
  }

  /** Parsing what was printed gives the map back, for every map of sorted, separator-free layouts. */
  lemma LayoutsRoundTrip(m: map<int, Layout>, text: string)
    requires PlainMap(m) && Prints(m, text)
    ensures ParseText(text) == Some(m)
  {
    var idx :| InOrder(m, idx) && text == Join(PartsOf(m, idx), ';');
    var parts := PartsOf(m, idx);
    hide ParseParts, Part, Plain, SortedInts;
    PartsRoundTrip(m, idx);
    RestrictExt(m, idx, m);
    PartsHaveNoSemicolon(m, idx);
    hide PartsOf;
    if idx == [] { EmptyText(); } else { SplitJoin(parts, ';'); }
  }

  lemma EmptyText()
    ensures ParseText("") == Some(map[])
  {
    var parts := Split("", ';');
    assert parts == [""] && parts[..0] == [];
    assert ParseParts(parts[..0]) == Some(map[]);
  }

  // ---- comparing

  /** `String`, which `equal` compares. */
  function LayoutText(l: Layout): string { l.kind + " " + Join(l.devices, ',') }

  lemma LayoutTextCuts(l: Layout)
    requires ' ' !in l.kind
    ensures Cut(LayoutText(l), ' ') == (l.kind, Join(l.devices, ','), true)
  {
    assert LayoutText(l) == l.kind + [' '] + Join(l.devices, ',');
    CutAtFirst(l.kind, ' ', Join(l.devices, ','));
  }

  /** For any stored layout, also one with commas in a device: its text is that of a comma-free layout if and
      only if the kinds agree and its devices, taken apart at commas, are the other's. */
  lemma SameTextExactly(have: Layout, want: Layout)
    requires ' ' !in have.kind && ' ' !in want.kind
    requires want.devices != [] && forall d :: d in want.devices ==> ',' !in d
    ensures LayoutText(have) == LayoutText(want) <==>
      have.kind == want.kind && Split(Join(have.devices, ','), ',') == want.devices
  {
    LayoutTextCuts(have);
    LayoutTextCuts(want);
    SplitJoin(want.devices, ',');
    JoinSplit(Join(have.devices, ','), ',');
    hide Cut, Split, Join;
  }

  /** Comparing texts is comparing kinds and device multisets, for sorted layouts without commas in a
      device. */
  lemma SameTextIsSameDrives(have: Layout, want: Layout)
    requires ' ' !in have.kind && ' ' !in want.kind && have.devices != [] && want.devices != []
    requires forall d :: d in have.devices || d in want.devices ==> ',' !in d
    requires SortedStrings(have.devices) && SortedStrings(want.devices)
    ensures LayoutText(have) == LayoutText(want) <==>
      have.kind == want.kind && multiset(have.devices) == multiset(want.devices)
  {
    SameTextExactly(have, want);
    SplitJoin(have.devices, ',');
    if multiset(have.devices) == multiset(want.devices) { SortedStringsUnique(have.devices, want.devices); }
    hide LayoutText, Split, Join, SortedStrings;
  }

  /** A stored device with a comma in it passes for two devices. */
  lemma CommaHidesChange()
    ensures LayoutText(Layout("aio", ["a,b"])) == LayoutText(Layout("aio", ["a", "b"]))
  {
    var two := ["a", "b"];
    assert two[1..] == ["b"];
    assert Join(two, ',') == "a" + [','] + Join(two[1..], ',');
    assert "a" + [','] + "b" == "a,b";
  }
}
