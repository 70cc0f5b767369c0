/** Which nodes run the management service (internal/controller/daossystem_controller.go, steps 2 and 3, and
    internal/discovery/node.go): nodes that share a drive are out, and the role sticks to who has it. */
module Replicas {
  import opened Collections

  /** What is known of a node: its control address and the serials of its drives, one per device. */
  datatype Fact = Fact(name: string, addr: string, serials: seq<string>)

  // ---- shared drives

  /** The nodes a serial was seen on, once per sighting. */
  function SightingsOn(name: string, serials: seq<string>, dsn: string): seq<string> {
    if serials == [] then []
    else SightingsOn(name, serials[..|serials| - 1], dsn) + if serials[|serials| - 1] == dsn && dsn != "" then [name]
        else []
  }

  function Sightings(facts: seq<Fact>, dsn: string): seq<string> {
    if facts == [] then []
    else
      var f := facts[|facts| - 1];
      Sightings(facts[..|facts| - 1], dsn) + SightingsOn(f.name, f.serials, dsn)
  }

  function Lookup(m: map<string, seq<string>>, key: string): seq<string> { if key in m then m[key] else [] }

  /** The inner loop: the serials of one node. */
  method AddSightings(seen: map<string, seq<string>>, f: Fact) returns (out: map<string, seq<string>>)
    ensures forall dsn :: Lookup(out, dsn) == Lookup(seen, dsn) + SightingsOn(f.name, f.serials, dsn)
  {
    out := seen;
    for j := 0 to |f.serials|
      invariant forall dsn :: Lookup(out, dsn) == Lookup(seen, dsn) + SightingsOn(f.name, f.serials[..j], dsn)
    {
      hide *;
      var dsn := f.serials[j];
      ghost var before := out;
      if dsn != "" { out := out[dsn := Lookup(out, dsn) + [f.name]]; }
      forall d { OneMoreLookup(seen, before, out, f, j, d); }
    }
    assert f.serials[..|f.serials|] == f.serials;
  }

  lemma OneMoreLookup(seen: map<string, seq<string>>, before: map<string, seq<string>>, out: map<string, seq<string>>,
      f: Fact, j: nat, d: string)
    requires j < |f.serials| && Lookup(before, d) == Lookup(seen, d) + SightingsOn(f.name, f.serials[..j], d)
    requires out == if f.serials[j] == "" then before
      else before[f.serials[j] := Lookup(before, f.serials[j]) + [f.name]]
    ensures Lookup(out, d) == Lookup(seen, d) + SightingsOn(f.name, f.serials[..j + 1], d)
  {
    assert f.serials[..j + 1][..j] == f.serials[..j];
    var sofar := SightingsOn(f.name, f.serials[..j], d);
    assert Lookup(seen, d) + (sofar + [f.name]) == Lookup(seen, d) + sofar + [f.name];
    assert sofar + [] == sofar;
  }

  method CollectSightings(facts: seq<Fact>) returns (seen: map<string, seq<string>>)
    ensures forall dsn :: Lookup(seen, dsn) == Sightings(facts, dsn)
  {
    seen := map[];
    for k := 0 to |facts|
      invariant forall dsn :: Lookup(seen, dsn) == Sightings(facts[..k], dsn)
    {
      assert facts[..k + 1][..k] == facts[..k];
      hide Lookup, SightingsOn;
      seen := AddSightings(seen, facts[k]);
    }
    assert facts[..|facts|] == facts;
  }

  /** `DriveConflicts`: the serials seen more than once, with their nodes in order. */
  method DriveConflicts(facts: seq<Fact>) returns (out: map<string, seq<string>>)
    ensures forall dsn :: dsn in out <==> |Sightings(facts, dsn)| > 1
    ensures forall dsn :: dsn in out ==> out[dsn] == SortStrings(Sightings(facts, dsn))
  {
    var seen := CollectSightings(facts);
    var keys := Walk(seen.Keys);
    hide Sightings, SortStrings;
    out := map[];
    for k := 0 to |keys|
      invariant forall dsn :: dsn in out <==> dsn in keys[..k] && |Lookup(seen, dsn)| > 1
      invariant forall dsn :: dsn in out ==> out[dsn] == SortStrings(Lookup(seen, dsn))
    {
      var dsn := keys[k];
      assert keys[..k + 1] == keys[..k] + [dsn];
      if |seen[dsn]| > 1 { out := out[dsn := SortStrings(seen[dsn])]; }
    }
    assert keys[..|keys|] == keys;
  }

  predicate Conflicted(facts: seq<Fact>, name: string, dsn: string) {
    |Sightings(facts, dsn)| > 1 && name in Sightings(facts, dsn)
  }

  /** A node is excluded when a serial of it was seen more than once. */
  ghost predicate Excluded(facts: seq<Fact>, name: string) { exists dsn :: Conflicted(facts, name, dsn) }

  lemma {:induction false} SightedOn(name: string, serials: seq<string>, dsn: string)
    ensures dsn in serials && dsn != "" ==> name in SightingsOn(name, serials, dsn)
    ensures dsn !in serials || dsn == "" ==> SightingsOn(name, serials, dsn) == []
    ensures forall n :: n in SightingsOn(name, serials, dsn) ==> n == name
  {
    if serials != [] { SightedOn(name, serials[..|serials| - 1], dsn); }
  }

  lemma {:induction false} SightingsSplit(a: seq<Fact>, b: seq<Fact>, dsn: string)
    ensures Sightings(a + b, dsn) == Sightings(a, dsn) + Sightings(b, dsn)
  {
    if b == [] {
      assert a + b == a;
    } else {
      var n := |b| - 1;
      assert (a + b)[..|a + b| - 1] == a + b[..n];
      SightingsSplit(a, b[..n], dsn);
      hide SightingsOn;
      var last := SightingsOn(b[n].name, b[n].serials, dsn);
      assert Sightings(a, dsn) + (Sightings(b[..n], dsn) + last) == Sightings(a, dsn) + Sightings(b[..n], dsn) + last;
    }
  }

  lemma SightingsOfOne(f: Fact, dsn: string)
    ensures Sightings([f], dsn) == SightingsOn(f.name, f.serials, dsn)
  {
    assert [f][..0] == [];
    assert Sightings([f][..0], dsn) == [];
  }

  /** Any fact that has the serial is among its sightings. */
  lemma SightedAt(facts: seq<Fact>, i: nat, dsn: string)
    requires i < |facts| && dsn in facts[i].serials && dsn != ""
    ensures facts[i].name in Sightings(facts, dsn)
  {
    var f := facts[i];
    assert facts == facts[..i] + ([f] + facts[i + 1..]);
    SightingsSplit(facts[..i], [f] + facts[i + 1..], dsn);
    SightingsSplit([f], facts[i + 1..], dsn);
    SightingsOfOne(f, dsn);
    SightedOn(f.name, f.serials, dsn);
  }

  /** Two different nodes that are not excluded share no drive serial. */
  lemma EligibleNodesShareNoDrive(facts: seq<Fact>, i: nat, j: nat, dsn: string)
    requires i < j < |facts| && !Excluded(facts, facts[i].name)
    ensures dsn == "" || dsn !in facts[i].serials || dsn !in facts[j].serials
  {
    if dsn != "" && dsn in facts[i].serials && dsn in facts[j].serials {
      var front, back := facts[..i + 1], facts[i + 1..];
      assert facts == front + back;
      SightingsSplit(front, back, dsn);
      SightedAt(front, i, dsn);
      SightedAt(back, j - i - 1, dsn);
      assert Conflicted(facts, facts[i].name, dsn);
    }
  }

  /** The node lists one serial for two of its devices. */
  ghost predicate ListsTwice(f: Fact, dsn: string) {
    exists a, b :: 0 <= a < b < |f.serials| && f.serials[a] == dsn && f.serials[b] == dsn
  }

  lemma {:induction false} CountOn(name: string, serials: seq<string>, dsn: string)
    ensures |SightingsOn(name, serials, dsn)| == if dsn == "" then 0 else multiset(serials)[dsn]
  {
    if serials != [] {
      var init, last := serials[..|serials| - 1], serials[|serials| - 1];
      assert serials == init + [last];
      CountOn(name, init, dsn);
    }
  }

  lemma {:induction false} TwoPlaces(s: seq<string>, x: string) returns (a: nat, b: nat)
    requires multiset(s)[x] >= 2
    ensures a < b < |s| && s[a] == x && s[b] == x
  {
    var init, last := s[..|s| - 1], s[|s| - 1];
    assert s == init + [last];
    if last == x {
      assert x in multiset(init);
      b := |s| - 1;
      a :| 0 <= a < |init| && init[a] == x;
    } else {
      a, b := TwoPlaces(init, x);
    }
  }

  lemma TwiceInMultiset(s: seq<string>, x: string)
    ensures multiset(s)[x] >= 2 <==> exists a, b :: 0 <= a < b < |s| && s[a] == x && s[b] == x
  {
    if multiset(s)[x] >= 2 {
      var a, b := TwoPlaces(s, x);
    } else if a, b :| 0 <= a < b < |s| && s[a] == x && s[b] == x {
      assert s == s[..b] + s[b..];
      assert s[a] in s[..b] && s[b] in s[b..];
    }
  }

  lemma {:induction false} SightedSomewhere(facts: seq<Fact>, dsn: string, n: string)
    ensures n in Sightings(facts, dsn) <==>
      exists i :: 0 <= i < |facts| && facts[i].name == n && dsn in facts[i].serials && dsn != ""
  {
    if facts != [] {
      var init, f := facts[..|facts| - 1], facts[|facts| - 1];
      SightedSomewhere(init, dsn, n);
      SightedOn(f.name, f.serials, dsn);
      assert forall i :: 0 <= i < |init| ==> init[i] == facts[i];
    }
  }

  lemma SightingsAround(facts: seq<Fact>, i: nat, dsn: string)
    requires i < |facts| && dsn != ""
    ensures |Sightings(facts, dsn)| ==
      |Sightings(facts[..i], dsn)| + multiset(facts[i].serials)[dsn] + |Sightings(facts[i + 1..], dsn)|
  {
    var f := facts[i];
    assert facts == facts[..i] + ([f] + facts[i + 1..]);
    SightingsSplit(facts[..i], [f] + facts[i + 1..], dsn);
    SightingsSplit([f], facts[i + 1..], dsn);
    SightingsOfOne(f, dsn);
    CountOn(f.name, f.serials, dsn);
    hide Sightings, SightingsOn;
  }

  lemma SightedElsewhere(facts: seq<Fact>, i: nat, dsn: string)
    requires i < |facts| && dsn != ""
    ensures Sightings(facts[..i], dsn) != [] || Sightings(facts[i + 1..], dsn) != [] <==>
      exists j :: 0 <= j < |facts| && j != i && dsn in facts[j].serials
  {
    var front, back := facts[..i], facts[i + 1..];
    NoneSighted(front, dsn);
    NoneSighted(back, dsn);
    hide Sightings;
    if j :| 0 <= j < |facts| && j != i && dsn in facts[j].serials {
      if j < i { assert front[j] == facts[j]; } else { assert back[j - i - 1] == facts[j]; }
    } else {
      assert forall k :: 0 <= k < |front| ==> front[k] == facts[k];
      assert forall k :: 0 <= k < |back| ==> back[k] == facts[i + 1 + k];
    }
  }

  /** The sightings of a serial are more than one exactly if one of its facts lists it twice, or two facts
      have it. */
  lemma SeenAgain(facts: seq<Fact>, i: nat, dsn: string)
    requires i < |facts| && dsn in facts[i].serials && dsn != ""
    ensures |Sightings(facts, dsn)| > 1 <==> IsShared(facts, i, dsn)
  {
    SightingsAround(facts, i, dsn);
    SightedElsewhere(facts, i, dsn);
    TwiceInMultiset(facts[i].serials, dsn);
    assert multiset(facts[i].serials)[dsn] >= 1;
    hide Sightings;
  }

  lemma NoneSighted(facts: seq<Fact>, dsn: string)
    requires dsn != ""
    ensures Sightings(facts, dsn) == [] <==> !exists k :: 0 <= k < |facts| && dsn in facts[k].serials
  {
    if Sightings(facts, dsn) != [] {
      var n := Sightings(facts, dsn)[0];
      assert n in Sightings(facts, dsn);
      SightedSomewhere(facts, dsn, n);
    }
    if k :| 0 <= k < |facts| && dsn in facts[k].serials { SightedSomewhere(facts, dsn, facts[k].name); }
  }

  /** Which nodes are out, exactly: those with a drive that another entry lists as well, or that the node
      itself lists twice. */
  lemma ExcludedExactly(facts: seq<Fact>, n: string)
    ensures Excluded(facts, n) <==>
      exists i, dsn ::
        0 <= i < |facts| && facts[i].name == n && dsn in facts[i].serials && dsn != "" && IsShared(facts, i, dsn)
  {
    hide Sightings;
    if Excluded(facts, n) {
      var dsn :| Conflicted(facts, n, dsn);
      SightedSomewhere(facts, dsn, n);
      var i :| 0 <= i < |facts| && facts[i].name == n && dsn in facts[i].serials && dsn != "";
      SeenAgain(facts, i, dsn);
    }
    if i, dsn :| 0 <= i < |facts| && facts[i].name == n && dsn in facts[i].serials && dsn != ""
                 && IsShared(facts, i, dsn) {
      SeenAgain(facts, i, dsn);
      SightedSomewhere(facts, dsn, n);
      assert Conflicted(facts, n, dsn);
    }
  }

  /** Entry i has the serial twice, or another entry has it too. */
  ghost predicate IsShared(facts: seq<Fact>, i: nat, dsn: string)
    requires i < |facts|
  {
    ListsTwice(facts[i], dsn) || exists j :: 0 <= j < |facts| && j != i && dsn in facts[j].serials
  }

  /** A node that lists one serial for two of its own devices excludes itself, although no other node has
      the drive. */
  lemma TwiceOnOneNodeExcludes(name: string, addr: string, dsn: string)
    requires dsn != ""
    ensures Excluded([Fact(name, addr, [dsn, dsn])], name)
  {
    var f := Fact(name, addr, [dsn, dsn]);
    SightingsOfOne(f, dsn);
    assert [dsn, dsn][..1] == [dsn] && [dsn][..0] == [];
    assert SightingsOn(name, [], dsn) == [];
    assert SightingsOn(name, [dsn], dsn) == [name];
    assert SightingsOn(name, [dsn, dsn], dsn) == [name, name];
    assert Conflicted([f], name, dsn);
  }

  // ---- choosing replicas

  /** The earlier replicas that keep the role: still eligible, each once, no more than wanted. */
  function Keep(previous: seq<string>, eligible: set<string>, want: nat): (r: seq<string>)
    ensures |r| <= want
  {
    if previous == [] then []
    else
      var kept := Keep(previous[..|previous| - 1], eligible, want);
      var n := previous[|previous| - 1];
      if n in eligible && n !in kept && |kept| < want then kept + [n] else kept
  }

  /** Free places go to further nodes, in the order they are listed. */
  function Fill(kept: seq<string>, names: seq<string>, eligible: set<string>, want: nat): (r: seq<string>)
    requires |kept| <= want
    ensures |r| <= want && kept <= r
  {
    if names == [] then kept
    else
      var filled := Fill(kept, names[..|names| - 1], eligible, want);
      var n := names[|names| - 1];
      if n in eligible && n !in filled && |filled| < want then filled + [n] else filled
  }

  function NamesOf(facts: seq<Fact>): (r: seq<string>)
    ensures |r| == |facts| && forall i :: 0 <= i < |facts| ==> r[i] == facts[i].name
  {
    if facts == [] then [] else NamesOf(facts[..|facts| - 1]) + [facts[|facts| - 1].name]
  }

  ghost function EligibleNames(facts: seq<Fact>): set<string> {
    set f | f in facts && !Excluded(facts, f.name) :: f.name
  }

  ghost function Select(previous: seq<string>, facts: seq<Fact>, want: nat): seq<string> {
    var eligible := EligibleNames(facts);
    Fill(Keep(previous, eligible, want), NamesOf(facts), eligible, want)
  }

  method FindConflicted(facts: seq<Fact>) returns (conflicted: set<string>)
    ensures forall n :: n in conflicted <==> Excluded(facts, n)
  {
    var conflicts := DriveConflicts(facts);
    var keys := Walk(conflicts.Keys);
    hide Sightings;
    conflicted := {};
    for k := 0 to |keys|
      invariant forall n :: n in conflicted <==> exists j :: 0 <= j < k && n in Sightings(facts, keys[j])
    {
      var dsn := keys[k];
      SortStringsSorts(Sightings(facts, dsn));
      MultisetMembers(conflicts[dsn], Sightings(facts, dsn));
      hide SortStrings;
      conflicted := conflicted + set n | n in conflicts[dsn];
    }
    forall n ensures n in conflicted <==> Excluded(facts, n) {
      if Excluded(facts, n) {
        var dsn :| Conflicted(facts, n, dsn);
        assert dsn in keys;
        var j :| 0 <= j < |keys| && keys[j] == dsn;
      }
      if n in conflicted {
        var j :| 0 <= j < |keys| && n in Sightings(facts, keys[j]);
        assert keys[j] in keys;
        assert Conflicted(facts, n, keys[j]);
      }
    }
  }

  /** The nodes that are not conflicted. */
  method FindEligible(facts: seq<Fact>) returns (addrOf: set<string>)
    ensures addrOf == EligibleNames(facts)
  {
    var conflicted := FindConflicted(facts);
    hide Excluded;
    addrOf := {};
    for k := 0 to |facts|
      invariant forall n :: n in addrOf <==> n !in conflicted && exists f :: f in facts[..k] && f.name == n
    {
      var f := facts[k];
      assert facts[..k + 1] == facts[..k] + [f];
      assert f in facts[..k + 1];
      if f.name !in conflicted { addrOf := addrOf + {f.name}; }
    }
    assert facts[..|facts|] == facts;
  }

  /** Steps 2 and 3 of `Reconcile`. */
  method SelectReplicas(previous: seq<string>, facts: seq<Fact>, want: nat) returns (names: seq<string>)
    ensures names == Select(previous, facts, want)
  {
    var addrOf := FindEligible(facts);
    hide EligibleNames;
    names := [];
    for k := 0 to |previous|
      invariant names == Keep(previous[..k], addrOf, want)
    {
      assert previous[..k + 1][..k] == previous[..k];
      var n := previous[k];
      if n in addrOf && n !in names && |names| < want { names := names + [n]; }
    }
    assert previous[..|previous|] == previous;
    ghost var all := NamesOf(facts);
    ghost var kept := names;
    for k := 0 to |facts|
      invariant |names| <= want && names == Fill(kept, all[..k], addrOf, want)
    {
      hide Keep, NamesOf;
      assert all[..k + 1][..k] == all[..k];
      var n := facts[k].name;
      if n in names || |names| >= want { continue; }
      if n in addrOf { names := names + [n]; }
    }
    assert all[..|facts|] == all;
  }

  // ---- what the choice promises

  lemma {:induction false} KeepGood(previous: seq<string>, eligible: set<string>, want: nat)
    ensures NoDuplicates(Keep(previous, eligible, want))
    ensures forall n :: n in Keep(previous, eligible, want) ==> n in eligible && n in previous
  {
    if previous != [] {
      KeepGood(previous[..|previous| - 1], eligible, want);
      assert previous == previous[..|previous| - 1] + [previous[|previous| - 1]];
    }
  }

  lemma {:induction false} FillGood(kept: seq<string>, names: seq<string>, eligible: set<string>, want: nat)
    requires |kept| <= want && NoDuplicates(kept) && forall n :: n in kept ==> n in eligible
    ensures NoDuplicates(Fill(kept, names, eligible, want))
    ensures forall n :: n in Fill(kept, names, eligible, want) ==> n in eligible
    ensures |Fill(kept, names, eligible, want)| < want ==>
      forall n :: n in names && n in eligible ==> n in Fill(kept, names, eligible, want)
  {
    if names != [] {
      FillGood(kept, names[..|names| - 1], eligible, want);
      assert names == names[..|names| - 1] + [names[|names| - 1]];
    }
  }

  /** The chosen nodes are distinct and eligible, never more than wanted, with the earlier replicas that
      still are eligible in front, in their order; and fewer than wanted only when every eligible node was
      chosen. */
  lemma ChoiceIsSound(previous: seq<string>, facts: seq<Fact>, want: nat)
    ensures var chosen := Select(previous, facts, want);
      && NoDuplicates(chosen) && |chosen| <= want
      && (forall n :: n in chosen ==> n in EligibleNames(facts))
      && Keep(previous, EligibleNames(facts), want) <= chosen
      && (|chosen| < want ==> forall n :: n in EligibleNames(facts) ==> n in chosen)
  {
    var eligible := EligibleNames(facts);
    var names := NamesOf(facts);
    KeepGood(previous, eligible, want);
    FillGood(Keep(previous, eligible, want), names, eligible, want);
    hide Keep, Fill, Excluded;
    forall n | n in eligible ensures n in names {
      var f :| f in facts && f.name == n;
      var i :| 0 <= i < |facts| && facts[i] == f;
      assert names[i] == n;
    }
  }

  /** Two chosen nodes share no drive. */
  lemma ChosenShareNoDrive(previous: seq<string>, facts: seq<Fact>, want: nat, i: nat, j: nat, dsn: string)
    requires i < j < |facts| && facts[i].name in Select(previous, facts, want)
    ensures dsn == "" || dsn !in facts[i].serials || dsn !in facts[j].serials
  {
    ChoiceIsSound(previous, facts, want);
    hide Select;
    assert facts[i].name in EligibleNames(facts);
    EligibleNodesShareNoDrive(facts, i, j, dsn);
  }

  lemma {:induction false} KeepAll(previous: seq<string>, eligible: set<string>, want: nat)
    requires NoDuplicates(previous) && |previous| <= want && forall n :: n in previous ==> n in eligible
    ensures Keep(previous, eligible, want) == previous
  {
    if previous != [] {
      var init := previous[..|previous| - 1];
      assert previous == init + [previous[|previous| - 1]];
      KeepAll(init, eligible, want);
    }
  }

  lemma {:induction false} FillFull(kept: seq<string>, names: seq<string>, eligible: set<string>, want: nat)
    requires |kept| == want
    ensures Fill(kept, names, eligible, want) == kept
  {
    if names != [] { FillFull(kept, names[..|names| - 1], eligible, want); }
  }

  /** A full list whose nodes are all still eligible is chosen again unchanged. */
  lemma FullChoiceSticks(previous: seq<string>, facts: seq<Fact>, want: nat)
    requires NoDuplicates(previous) && |previous| == want && forall n :: n in previous ==> n in EligibleNames(facts)
    ensures Select(previous, facts, want) == previous
  {
    KeepAll(previous, EligibleNames(facts), want);
    FillFull(previous, NamesOf(facts), EligibleNames(facts), want);
  }

  // ---- the order of the choice

  /** a is listed before b is. */
  ghost predicate Earlier(list: seq<string>, a: string, b: string) {
    exists k :: 0 <= k < |list| && list[k] == a && b !in list[..k + 1]
  }

  lemma EarlierGrows(list: seq<string>, a: string, b: string)
    requires list != [] && Earlier(list[..|list| - 1], a, b)
    ensures Earlier(list, a, b)
  {
    var init := list[..|list| - 1];
    var k :| 0 <= k < |init| && init[k] == a && b !in init[..k + 1];
    assert list[..k + 1] == init[..k + 1];
  }

  lemma EarlierThanLast(list: seq<string>, a: string, b: string)
    requires list != [] && a in list[..|list| - 1] && b !in list[..|list| - 1]
    ensures Earlier(list, a, b)
  {
    var init := list[..|list| - 1];
    var k :| 0 <= k < |init| && init[k] == a;
    assert list[k] == a;
    assert forall x :: x in list[..k + 1] ==> x in init;
  }

  /** taken are the first eligible names of the list, other than those barred, as many as there is room for. */
  ghost predicate FirstOf(list: seq<string>, eligible: set<string>, barred: seq<string>, taken: seq<string>,
      room: int) {
    && |taken| <= room
    && (forall n :: n in taken ==> n in list && n in eligible && n !in barred)
    && (forall a, b :: 0 <= a < b < |taken| ==> Earlier(list, taken[a], taken[b]))
    && (forall n :: n in list && n in eligible && n !in barred && n !in taken ==>
          |taken| == room && forall k :: 0 <= k < |taken| ==> Earlier(list, taken[k], n))
  }

  /** One name more in the list: it is taken if it may be and there is room. */
  lemma FirstOfGrows(list: seq<string>, eligible: set<string>, barred: seq<string>, taken: seq<string>, room: int)
    requires list != [] && FirstOf(list[..|list| - 1], eligible, barred, taken, room)
    ensures var n := list[|list| - 1];
      FirstOf(list, eligible, barred,
              if n in eligible && n !in barred && n !in taken && |taken| < room then taken + [n] else taken, room)
  {
    var init, n := list[..|list| - 1], list[|list| - 1];
    assert list == init + [n];
    hide Earlier;
    forall a, b | Earlier(init, a, b) ensures Earlier(list, a, b) { EarlierGrows(list, a, b); }
    if n !in init { forall a | a in init ensures Earlier(list, a, n) { EarlierThanLast(list, a, n); } }
  }

  lemma {:induction false} KeepIsFirst(previous: seq<string>, eligible: set<string>, want: nat)
    ensures FirstOf(previous, eligible, [], Keep(previous, eligible, want), want)
  {
    if previous != [] {
      KeepIsFirst(previous[..|previous| - 1], eligible, want);
      FirstOfGrows(previous, eligible, [], Keep(previous[..|previous| - 1], eligible, want), want);
      hide FirstOf;
    }
  }

  lemma {:induction false} FillIsFirst(kept: seq<string>, names: seq<string>, eligible: set<string>, want: nat)
    requires |kept| <= want
    ensures FirstOf(names, eligible, kept, Fill(kept, names, eligible, want)[|kept|..], want - |kept|)
  {
    hide FirstOf, Earlier;
    if names == [] {
      assert Fill(kept, names, eligible, want)[|kept|..] == [];
      FirstOfNone(eligible, kept, want - |kept|);
    } else {
      var init, n := names[..|names| - 1], names[|names| - 1];
      var filled := Fill(kept, init, eligible, want);
      FillIsFirst(kept, init, eligible, want);
      FirstOfGrows(names, eligible, kept, filled[|kept|..], want - |kept|);
      AfterKept(kept, filled, n);
      assert Fill(kept, names, eligible, want) ==
             if n in eligible && n !in filled && |filled| < want then filled + [n] else filled;
      hide Fill;
    }
  }

  lemma FirstOfNone(eligible: set<string>, barred: seq<string>, room: nat)
    ensures FirstOf([], eligible, barred, [], room)
  {
    hide Earlier;
  }

  lemma AfterKept(kept: seq<string>, filled: seq<string>, n: string)
    requires kept <= filled
    ensures n in filled <==> n in kept || n in filled[|kept|..]
    ensures (filled + [n])[|kept|..] == filled[|kept|..] + [n]
  {
    assert filled == kept + filled[|kept|..];
  }

  /** The choice, exactly: first the earlier replicas that are still eligible, in their order, as many as wanted;
      then further eligible nodes, in the order they are listed, as many as there is room for. */
  lemma ChoiceExactly(previous: seq<string>, facts: seq<Fact>, want: nat) returns (kept: seq<string>)
    ensures var chosen := Select(previous, facts, want);
      && kept <= chosen
      && FirstOf(previous, EligibleNames(facts), [], kept, want)
      && FirstOf(NamesOf(facts), EligibleNames(facts), kept, chosen[|kept|..], want - |kept|)
  {
    kept := Keep(previous, EligibleNames(facts), want);
    KeepIsFirst(previous, EligibleNames(facts), want);
    FillIsFirst(kept, NamesOf(facts), EligibleNames(facts), want);
    hide FirstOf, EligibleNames, Keep;
  }

  // ---- adding nodes

  /** longer is facts with one node more, none of whose serials, empty ones aside, is listed twice. */
  ghost predicate AddsNode(facts: seq<Fact>, longer: seq<Fact>, at: nat) {
    && at < |longer| && facts == longer[..at] + longer[at + 1..]
    && forall dsn :: dsn in longer[at].serials && dsn != "" ==> |Sightings(longer, dsn)| <= 1
  }

  lemma AddingKeepsEligible(facts: seq<Fact>, longer: seq<Fact>, at: nat, n: string)
    requires AddsNode(facts, longer, at) && n in EligibleNames(facts) && n != longer[at].name
    ensures n in EligibleNames(longer)
  {
    var f :| f in facts && !Excluded(facts, f.name) && f.name == n;
    var added := longer[at];
    assert longer == longer[..at] + ([added] + longer[at + 1..]);
    assert f in longer;
    forall dsn ensures !Conflicted(longer, n, dsn) {
      SightingsSplit(longer[..at], [added] + longer[at + 1..], dsn);
      SightingsSplit([added], longer[at + 1..], dsn);
      SightingsSplit(longer[..at], longer[at + 1..], dsn);
      SightingsOfOne(added, dsn);
      SightedOn(added.name, added.serials, dsn);
      assert !Conflicted(facts, n, dsn);
    }
  }

  /** One pass of `Reconcile`: with fewer nodes than replicas wanted it returns before it chooses, and the
      list is not among the fields it carries over. */
  ghost function NextReplicas(previous: seq<string>, facts: seq<Fact>, want: nat): seq<string> {
    if |facts| < want then [] else Select(previous, facts, want)
  }

  ghost function AfterPasses(previous: seq<string>, passes: seq<seq<Fact>>, want: nat): seq<string> {
    if passes == [] then previous
    else NextReplicas(AfterPasses(previous, passes[..|passes| - 1], want), passes[|passes| - 1], want)
  }

  /** longer has the same nodes as facts, or one new one without a shared drive. */
  ghost predicate Grows(facts: seq<Fact>, longer: seq<Fact>) {
    facts == longer || exists at: nat :: AddsNode(facts, longer, at) && longer[at].name !in EligibleNames(facts)
  }

  /** Each pass sees the nodes of the one before, plus at most one new node without a shared drive. */
  ghost predicate OnlyAdditions(passes: seq<seq<Fact>>) {
    forall k :: 0 <= k < |passes| - 1 ==> Grows(passes[k], passes[k + 1])
  }

  lemma EligibleCarries(facts: seq<Fact>, longer: seq<Fact>, chosen: seq<string>)
    requires (forall n :: n in chosen ==> n in EligibleNames(facts)) && Grows(facts, longer)
    ensures forall n :: n in chosen ==> n in EligibleNames(longer)
    ensures |facts| <= |longer|
  {
    if facts != longer {
      var at: nat :| AddsNode(facts, longer, at) && longer[at].name !in EligibleNames(facts);
      forall n | n in chosen ensures n in EligibleNames(longer) {
        assert n in EligibleNames(facts);
        AddingKeepsEligible(facts, longer, at, n);
      }
    }
  }

  lemma AdditionKeepsChoice(chosen: seq<string>, facts: seq<Fact>, longer: seq<Fact>, want: nat)
    requires Grows(facts, longer) && |facts| >= want && NoDuplicates(chosen) && |chosen| == want
    requires forall n :: n in chosen ==> n in EligibleNames(facts)
    ensures |longer| >= want && NextReplicas(chosen, longer, want) == chosen
    ensures forall n :: n in chosen ==> n in EligibleNames(longer)
  {
    hide EligibleNames, Grows, Select;
    EligibleCarries(facts, longer, chosen);
    FullChoiceSticks(chosen, longer, want);
  }

  /** Across any run of conflict-free additions, once the list is full it never changes. */
  lemma {:induction false} AdditionsNeverMoveReplicas(previous: seq<string>, passes: seq<seq<Fact>>, want: nat, k: nat)
    requires OnlyAdditions(passes) && k < |passes| && |NextReplicas(previous, passes[0], want)| == want
    ensures AfterPasses(previous, passes[..k + 1], want) == NextReplicas(previous, passes[0], want)
    ensures |passes[k]| >= want && forall n :: n in NextReplicas(previous, passes[0], want) ==>
      n in EligibleNames(passes[k])
  {
    var first := NextReplicas(previous, passes[0], want);
    assert passes[..k + 1][..k] == passes[..k];
    ChoiceIsSound(previous, passes[0], want);
    if k == 0 {
      hide Select, EligibleNames;
      assert passes[..0] == [] && passes[..1] == [passes[0]];
    } else {
      hide Select, EligibleNames, Grows;
      AdditionsNeverMoveReplicas(previous, passes, want, k - 1);
      assert Grows(passes[k - 1], passes[k - 1 + 1]);
      hide NextReplicas;
      AdditionKeepsChoice(first, passes[k - 1], passes[k], want);
    }
  }

  /** A full list is carried over by a pass exactly if the pass gets to choose and every listed node is still
      eligible. */
  lemma FullListKeptExactly(previous: seq<string>, facts: seq<Fact>, want: nat)
    requires want > 0 && NoDuplicates(previous) && |previous| == want
    ensures NextReplicas(previous, facts, want) == previous <==> Keeps(previous, facts, want)
  {
    ChoiceIsSound(previous, facts, want);
    if Keeps(previous, facts, want) { FullChoiceSticks(previous, facts, want); }
    hide Select, EligibleNames;
  }

  ghost predicate Keeps(chosen: seq<string>, facts: seq<Fact>, want: nat) {
    |facts| >= want && forall n :: n in chosen ==> n in EligibleNames(facts)
  }

  /** Over every run of passes, with any nodes coming and going: a full list is the list after each of them
      exactly if no pass had too few nodes and no pass found a listed node gone or excluded. */
  lemma {:induction false} ReplicasNeverMoveExactly(chosen: seq<string>, passes: seq<seq<Fact>>, want: nat)
    requires want > 0 && NoDuplicates(chosen) && |chosen| == want
    ensures (forall k :: 0 <= k <= |passes| ==> AfterPasses(chosen, passes[..k], want) == chosen) <==>
            (forall k :: 0 <= k < |passes| ==> Keeps(chosen, passes[k], want))
  {
    hide NextReplicas, Keeps;
    if passes == [] {
      assert passes[..0] == [];
    } else {
      var n := |passes| - 1;
      var init, last := passes[..n], passes[n];
      ReplicasNeverMoveExactly(chosen, init, want);
      FullListKeptExactly(chosen, last, want);
      assert forall k :: 0 <= k <= n ==> init[..k] == passes[..k];
      assert passes[..n + 1] == passes && passes[..n + 1][..n] == init;
      AfterLast(chosen, passes, want);
    }
  }

  lemma AfterLast(chosen: seq<string>, passes: seq<seq<Fact>>, want: nat)
    requires passes != []
    ensures AfterPasses(chosen, passes, want) ==
      NextReplicas(AfterPasses(chosen, passes[..|passes| - 1], want), passes[|passes| - 1], want)
  {}

  lemma {:induction false} NoSerialsNoConflict(facts: seq<Fact>)
    requires forall f :: f in facts ==> f.serials == []
    ensures forall dsn :: Sightings(facts, dsn) == []
  {
    if facts != [] {
      assert facts == facts[..|facts| - 1] + [facts[|facts| - 1]];
      NoSerialsNoConflict(facts[..|facts| - 1]);
    }
  }

  lemma SelectOne(previous: seq<string>, b: Fact)
    requires previous == [] && b.serials == []
    ensures Select(previous, [b], 1) == [b.name] && b.name in EligibleNames([b])
  {
    NoSerialsNoConflict([b]);
    var eligible := EligibleNames([b]);
    assert b in [b];
    var names := NamesOf([b]);
    assert names == [b.name] && names[..0] == [];
    assert Fill([], names[..0], eligible, 1) == [];
  }

  lemma SelectFirst(a: Fact, b: Fact)
    requires a.serials == [] && b.serials == [] && a.name != b.name
    ensures Select([], [a, b], 1) == [a.name] && b.name in EligibleNames([a, b])
  {
    NoSerialsNoConflict([a, b]);
    var eligible := EligibleNames([a, b]);
    assert a in [a, b] && b in [a, b];
    var names := NamesOf([a, b]);
    assert names == [a.name, b.name] && names[..1] == [a.name] && [a.name][..0] == [];
    assert Fill([], [a.name][..0], eligible, 1) == [];
    assert Fill([], [a.name], eligible, 1) == [a.name];
  }

  /** A pass with too few nodes forgets the list: afterwards a node that sorts earlier takes the role from
      the one that had it, although that one is there again. */
  lemma EarlyReturnForgetsReplicas() returns (passes: seq<seq<Fact>>)
    ensures |passes| == 3 && |passes[1]| < 1
    ensures AfterPasses([], passes[..1], 1) == ["b"] && AfterPasses([], passes, 1) == ["a"]
    ensures "b" in EligibleNames(passes[2])
  {
    var a, b := Fact("a", "10.0.0.1", []), Fact("b", "10.0.0.2", []);
    passes := [[b], [], [a, b]];
    assert "a"[0] != "b"[0];
    assert passes[..1][..0] == [] && passes[..3][..2] == passes[..2] && passes[..2][..1] == passes[..1]
        && passes[..3] == passes;
    NoSerialsNoConflict([b]);
    NoSerialsNoConflict([a, b]);
    SelectOne([], b);
    SelectFirst(a, b);
  }
}
