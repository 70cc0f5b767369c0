/** What a stored config describes and what an engine wants, said on the calls and the tiers alone. */
module BdevExact {
  import opened Collections
  import opened Text
  import opened BdevLayout
  import opened BdevCheck

  // ---- the flag

  /** A number, an equals sign, a kind, a colon and some devices. */
  ghost predicate IsPart(part: string, idx: string, kind: string, devs: string) {
    && part == idx + "=" + (kind + ":" + devs) && '=' !in idx && ':' !in kind
    && devs != "" && Atoi(idx).Some?
  }

  lemma PartCutsAt(part: string, idx: string, kind: string, devs: string)
    requires IsPart(part, idx, kind, devs)
    ensures ParsePart(part) == Some((Atoi(idx).value, Layout(kind, SortStrings(Split(devs, ',')))))
  {
    hide Cut, Atoi, Split, SortStrings;
    CutAtFirst(idx, '=', kind + ":" + devs);
    CutAtFirst(kind, ':', devs);
  }

  lemma CutParts(s: string, sep: char)
    ensures var (a, b, found) := Cut(s, sep); found ==> s == a + [sep] + b && sep !in a
  {}

  /** A part of the flag is read exactly if it has that form; the devices are what the commas separate, in order. */
  lemma PartReadsExactly(part: string)
    ensures ParsePart(part).Some? <==> exists idx, kind, devs :: IsPart(part, idx, kind, devs)
    ensures forall idx, kind, devs :: IsPart(part, idx, kind, devs) ==>
      ParsePart(part) == Some((Atoi(idx).value, Layout(kind, SortStrings(Split(devs, ',')))))
  {
    if ParsePart(part).Some? {
      CutParts(part, '=');
      var (idx, rest, ok) := Cut(part, '=');
      CutParts(rest, ':');
      var (kind, devs, found) := Cut(rest, ':');
      hide Cut, Atoi, Split, SortStrings;
      assert IsPart(part, idx, kind, devs);
    }
    hide *;
    forall idx, kind, devs | IsPart(part, idx, kind, devs)
      ensures ParsePart(part) == Some((Atoi(idx).value, Layout(kind, SortStrings(Split(devs, ',')))))
    {
      PartCutsAt(part, idx, kind, devs);
    }
  }

  // ---- the stored file

  ghost predicate Mentions(name: string, t: string) { exists a: string, b: string :: name == a + t + b }

  lemma MentionsMeans(name: string, t: string)
    ensures Contains(name, t) <==> Mentions(name, t)
  {
    if Contains(name, t) {
      var k :| 0 <= k <= |name| && HasAt(name, t, k);
      assert name == name[..k] + t + name[k + |t|..];
    }
    if Mentions(name, t) {
      var a: string, b: string :| name == a + t + b;
      assert HasAt(name, t, |a|);
    }
  }

  predicate AttachesFile(m: Call, d: string) { m.name == "bdev_aio_create" && m.filename == d }

  predicate AttachesDrive(m: Call, d: string) { m.name == "bdev_nvme_attach_controller" && m.traddr == d }

  /** The calls that attach the file d, and those that attach the drive d. */
  ghost function FilePlaces(ms: seq<Call>, d: string): set<int> { set k | 0 <= k < |ms| && AttachesFile(ms[k], d) }

  ghost function DrivePlaces(ms: seq<Call>, d: string): set<int> { set k | 0 <= k < |ms| && AttachesDrive(ms[k], d) }

  lemma LastFile(ms: seq<Call>, d: string)
    requires ms != []
    ensures var n := |ms| - 1;
      |FilePlaces(ms, d)| == |FilePlaces(ms[..n], d)| + if AttachesFile(ms[n], d) then 1 else 0
  {
    hide AttachesFile;
    var n := |ms| - 1;
    var before := FilePlaces(ms[..n], d);
    assert FilePlaces(ms, d) == before + if AttachesFile(ms[n], d) then {n} else {};
    assert n !in before;
  }

  lemma LastDrive(ms: seq<Call>, d: string)
    requires ms != []
    ensures var n := |ms| - 1;
      |DrivePlaces(ms, d)| == |DrivePlaces(ms[..n], d)| + if AttachesDrive(ms[n], d) then 1 else 0
  {
    hide AttachesDrive;
    var n := |ms| - 1;
    var before := DrivePlaces(ms[..n], d);
    assert DrivePlaces(ms, d) == before + if AttachesDrive(ms[n], d) then {n} else {};
    assert n !in before;
  }

  lemma LastDevice(ms: seq<Call>, d: string)
    requires ms != []
    ensures var n := |ms| - 1;
      multiset(DevicesIn(ms))[d] == multiset(DevicesIn(ms[..n]))[d] +
        (if AttachesFile(ms[n], d) then 1 else 0) + if AttachesDrive(ms[n], d) then 1 else 0
  {
    NotBoth(ms[|ms| - 1]);
  }

  lemma {:induction false} DevicesCount(ms: seq<Call>, d: string)
    ensures multiset(DevicesIn(ms))[d] == |FilePlaces(ms, d)| + |DrivePlaces(ms, d)|
  {
    if ms == [] {
      assert FilePlaces(ms, d) == {} && DrivePlaces(ms, d) == {};
    } else {
      hide *;
      DevicesCount(ms[..|ms| - 1], d);
      LastFile(ms, d);
      LastDrive(ms, d);
      LastDevice(ms, d);
    }
  }

  /** The calls name one kind of drive, and none mentions VMD. */
  ghost predicate AllFiles(ms: seq<Call>) {
    && (exists m :: m in ms && m.name == "bdev_aio_create")
    && (forall m :: m in ms ==> m.name != "bdev_nvme_attach_controller" && !Mentions(m.name, "vmd"))
  }

  ghost predicate AllDrives(ms: seq<Call>) {
    && (exists m :: m in ms && m.name == "bdev_nvme_attach_controller")
    && (forall m :: m in ms ==> m.name != "bdev_aio_create" && !Mentions(m.name, "vmd"))
  }

  /** A config describes a layout exactly if it attaches files and no drives, or drives and no files, and nothing
      behind VMD; and then it describes each of them as often as it attaches it, in order. */
  lemma DescribesExactly(ms: seq<Call>)
    ensures Describes(ms).Some? <==> AllFiles(ms) || AllDrives(ms)
    ensures Describes(ms).Some? ==>
      var l := Describes(ms).value;
      && l.kind == (if AllFiles(ms) then "aio" else "nvme") && SortedStrings(l.devices)
      && forall d :: multiset(l.devices)[d] == if AllFiles(ms) then |FilePlaces(ms, d)| else |DrivePlaces(ms, d)|
  {
    hide *;
    DescribesOne(ms);
    if Describes(ms).Some? {
      DescribedIsSorted(ms);
      var l := Describes(ms).value;
      forall d
        ensures multiset(l.devices)[d] == if AllFiles(ms) then |FilePlaces(ms, d)| else |DrivePlaces(ms, d)|
      {
        DevicesCount(ms, d);
        NoPlaces(ms, d);
      }
    }
  }

  lemma DescribesOne(ms: seq<Call>)
    ensures Describes(ms).Some? <==> AllFiles(ms) || AllDrives(ms)
    ensures Describes(ms).Some? ==> Describes(ms).value.kind == if AllFiles(ms) then "aio" else "nvme"
  {
    forall m: Call { MentionsMeans(m.name, "vmd"); }
    hide Contains, Mentions, SortStrings, DevicesIn;
  }

  lemma NoPlaces(ms: seq<Call>, d: string)
    ensures AllFiles(ms) ==> |DrivePlaces(ms, d)| == 0
    ensures AllDrives(ms) ==> |FilePlaces(ms, d)| == 0
  {
    hide Mentions;
    if AllFiles(ms) { assert DrivePlaces(ms, d) == {}; }
    if AllDrives(ms) { assert FilePlaces(ms, d) == {}; }
  }

  // ---- what an engine wants

  ghost function Own(e: Engine): seq<Tier> { if e.tiers == [] then [Tier(e.bdevClass, e.bdevs)] else e.tiers }

  ghost function TierPlaces(tiers: seq<Tier>, d: string): set<(int, int)> {
    set k, j | 0 <= k < |tiers| && 0 <= j < |tiers[k].bdevs| && tiers[k].bdevs[j] == d :: (k, j)
  }

  ghost function PlacesIn(k: int, s: seq<string>, d: string): set<(int, int)> {
    set j | 0 <= j < |s| && s[j] == d :: (k, j)
  }

  lemma {:induction false} PlacesCount(k: int, s: seq<string>, d: string)
    ensures |PlacesIn(k, s, d)| == multiset(s)[d]
  {
    if s == [] {
      assert PlacesIn(k, s, d) == {};
    } else {
      var n := |s| - 1;
      PlacesCount(k, s[..n], d);
      var before := PlacesIn(k, s[..n], d);
      assert PlacesIn(k, s, d) == before + if s[n] == d then {(k, n)} else {};
      assert (k, n) !in before;
      assert s == s[..n] + [s[n]];
    }
  }

  lemma LastTierPlaces(tiers: seq<Tier>, d: string)
    requires tiers != []
    ensures var n := |tiers| - 1;
      |TierPlaces(tiers, d)| == |TierPlaces(tiers[..n], d)| + |PlacesIn(n, tiers[n].bdevs, d)|
  {
    var n := |tiers| - 1;
    var before, last := TierPlaces(tiers[..n], d), PlacesIn(n, tiers[n].bdevs, d);
    assert TierPlaces(tiers, d) == before + last by {
      forall p | p in TierPlaces(tiers, d) ensures p in before + last {
        if p.0 < n { assert tiers[..n][p.0] == tiers[p.0]; }
      }
      forall p | p in before ensures p in TierPlaces(tiers, d) { assert tiers[..n][p.0] == tiers[p.0]; }
    }
    assert before !! last;
  }

  lemma {:induction false} BdevsCount(tiers: seq<Tier>, d: string)
    ensures multiset(BdevsOf(tiers))[d] == |TierPlaces(tiers, d)|
  {
    if tiers == [] {
      assert TierPlaces(tiers, d) == {};
    } else {
      var n := |tiers| - 1;
      BdevsCount(tiers[..n], d);
      LastTierPlaces(tiers, d);
      PlacesCount(n, tiers[n].bdevs, d);
      hide TierPlaces, PlacesIn;
    }
  }

  lemma {:induction false} SomeBdev(tiers: seq<Tier>)
    ensures BdevsOf(tiers) != [] <==> exists t :: t in tiers && t.bdevs != []
  {
    if tiers != [] {
      var init, last := tiers[..|tiers| - 1], tiers[|tiers| - 1];
      SomeBdev(init);
      assert tiers == init + [last];
      assert forall t :: t in tiers <==> t in init || t == last;
    }
  }

  ghost predicate TiersAre(tiers: seq<Tier>, classes: set<string>) {
    (forall t :: t in tiers ==> t.bdevClass in classes) && exists t :: t in tiers && t.bdevs != []
  }

  lemma KindMeans(tiers: seq<Tier>)
    requires tiers != []
    ensures OneKind(tiers, "nvme") <==> forall t :: t in tiers ==> t.bdevClass in {"nvme"}
    ensures OneKind(tiers, "aio") <==> forall t :: t in tiers ==> t.bdevClass in {"kdev", "file"}
  {
    forall c: string
      ensures (KindOf(c) == "nvme" <==> c in {"nvme"}) && (KindOf(c) == "aio" <==> c in {"kdev", "file"})
    {
      assert "nvme"[0] == 'n' && "aio"[0] == 'a' && "kdev"[0] == 'k' && "file"[0] == 'f';
    }
    hide KindOf;
  }

  /** An engine wants a layout exactly if it has a device and its tiers are all NVMe, or all kernel devices or
      files; and then it wants each device as often as its tiers list it, in order. */
  lemma WantedExactly(e: Engine)
    ensures Wanted(e).Some? <==> TiersAre(Own(e), {"nvme"}) || TiersAre(Own(e), {"kdev", "file"})
    ensures Wanted(e).Some? ==>
      var l := Wanted(e).value;
      && l.kind == (if TiersAre(Own(e), {"nvme"}) then "nvme" else "aio") && SortedStrings(l.devices)
      && forall d :: multiset(l.devices)[d] == |TierPlaces(Own(e), d)|
  {
    hide *;
    WantedOne(e);
    if Wanted(e).Some? { WantedDevices(e); }
  }

  lemma WantedOne(e: Engine)
    ensures Wanted(e).Some? <==> TiersAre(Own(e), {"nvme"}) || TiersAre(Own(e), {"kdev", "file"})
    ensures Wanted(e).Some? ==> Wanted(e).value.kind == if TiersAre(Own(e), {"nvme"}) then "nvme" else "aio"
  {
    var tiers := Own(e);
    KindMeans(tiers);
    SomeBdev(tiers);
    KindCases(tiers[0].bdevClass);
    assert tiers[0] in tiers;
    assert "nvme"[0] != "aio"[0];
    hide KindOf, BdevsOf, SortStrings;
  }

  lemma WantedDevices(e: Engine)
    requires Wanted(e).Some?
    ensures SortedStrings(Wanted(e).value.devices)
    ensures forall d :: multiset(Wanted(e).value.devices)[d] == |TierPlaces(Own(e), d)|
  {
    var tiers := Own(e);
    SortStringsSorts(BdevsOf(tiers));
    forall d { BdevsCount(tiers, d); }
    hide KindOf, BdevsOf, SortStrings, TierPlaces, SortedStrings, OneKind;
  }

  lemma KindCases(c: string)
    ensures KindOf(c) == "" || KindOf(c) == "nvme" || KindOf(c) == "aio"
    ensures KindOf(c) == "nvme" ==> c !in {"kdev", "file"}
  {
    assert "nvme"[0] == 'n' && "aio"[0] == 'a' && "kdev"[0] == 'k' && "file"[0] == 'f';
  }

  /** Of several engines with one index, the last that wants anything decides. */
  lemma {:induction false} LastEngineDecides(engines: seq<Engine>, i: int)
    ensures var all := WantedAll(engines);
      && (i in all <==> exists k :: 0 <= k < |engines| && engines[k].index == i && Wanted(engines[k]).Some?)
      && (i in all ==>
            exists k :: 0 <= k < |engines| && engines[k].index == i && Wanted(engines[k]) == Some(all[i]) &&
                        forall j :: k < j < |engines| && engines[j].index == i ==> Wanted(engines[j]).None?)
  {
    hide Wanted;
    if engines != [] {
      var n := |engines| - 1;
      var init := engines[..n];
      LastEngineDecides(init, i);
      assert forall k :: 0 <= k < n ==> engines[k] == init[k];
      if engines[n].index == i && Wanted(engines[n]).Some? {
        assert engines[n].index == i && Wanted(engines[n]) == Some(WantedAll(engines)[i]);
      } else if i in WantedAll(init) {
        var k :| 0 <= k < n && init[k].index == i && Wanted(init[k]) == Some(WantedAll(init)[i]) &&
                 forall j :: k < j < n && init[j].index == i ==> Wanted(init[j]).None?;
        assert engines[k].index == i && Wanted(engines[k]) == Some(WantedAll(engines)[i]);
      }
    }
  }
}
