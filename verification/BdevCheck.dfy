/** The other half of the layout check (internal/hostprep/bdevlayout.go, and `engineBdevLayouts` of
    internal/controller/daossystem_server.go): what the stored file describes, what the engines want, and
    the comparison all the way from the spec. */
module BdevCheck {
  import opened Collections
  import opened Text
  import opened BdevLayout

  // ---- the stored file

  datatype Call = Call(name: string, filename: string, traddr: string)

  predicate HasAt(s: string, t: string, k: nat) { k + |t| <= |s| && s[k..k + |t|] == t }

  predicate Contains(s: string, t: string) { exists k :: 0 <= k <= |s| && HasAt(s, t, k) }

  predicate IsVmd(m: Call) { Contains(m.name, "vmd") }

  predicate IsAio(m: Call) { m.name == "bdev_aio_create" }

  predicate IsNvme(m: Call) { m.name == "bdev_nvme_attach_controller" }

  function DevicesIn(ms: seq<Call>): seq<string> {
    if ms == [] then []
    else
      var m := ms[|ms| - 1];
      DevicesIn(ms[..|ms| - 1]) + if IsAio(m) then [m.filename] else if IsNvme(m) then [m.traddr] else []
  }

  function Flat(conf: seq<seq<Call>>): seq<Call> {
    if conf == [] then [] else Flat(conf[..|conf| - 1]) + conf[|conf| - 1]
  }

  /** What a stored config describes: devices of one kind and no VMD, else nothing. */
  ghost function Describes(ms: seq<Call>): Option<Layout> {
    var aio := exists m :: m in ms && IsAio(m);
    var nvme := exists m :: m in ms && IsNvme(m);
    if (exists m :: m in ms && IsVmd(m)) || aio == nvme then None
    else Some(Layout(if aio then "aio" else "nvme", SortStrings(DevicesIn(ms))))
  }

  /** One subsystem of `ReadBdevLayout`; vmd ends the reading. */
  method ReadMethods(ms: seq<Call>, aio: bool, nvme: bool, devices: seq<string>)
    returns (vmd: bool, aio': bool, nvme': bool, devices': seq<string>)
    ensures vmd <==> exists m :: m in ms && IsVmd(m)
    ensures !vmd ==>
      (aio' <==> aio || exists m :: m in ms && IsAio(m)) && (nvme' <==> nvme || exists m :: m in ms && IsNvme(m))
    ensures !vmd ==> devices' == devices + DevicesIn(ms)
  {
    vmd, aio', nvme', devices' := false, aio, nvme, devices;
    for k := 0 to |ms|
      invariant !vmd && forall j :: 0 <= j < k ==> !IsVmd(ms[j])
      invariant aio' <==> aio || exists j :: 0 <= j < k && IsAio(ms[j])
      invariant nvme' <==> nvme || exists j :: 0 <= j < k && IsNvme(ms[j])
      invariant devices' == devices + DevicesIn(ms[..k])
    {
      hide IsVmd, IsAio, IsNvme;
      var m := ms[k];
      assert ms[..k + 1][..k] == ms[..k];
      if IsVmd(m) {
        assert m in ms;
        return true, aio', nvme', devices';
      }
      NotBoth(m);
      if IsAio(m) {
        aio', devices' := true, devices' + [m.filename];
      } else if IsNvme(m) {
        nvme', devices' := true, devices' + [m.traddr];
      }
    }
    assert ms[..|ms|] == ms;
    hide DevicesIn, IsVmd, IsAio, IsNvme;
  }

  lemma NotBoth(m: Call)
    ensures !(IsAio(m) && IsNvme(m))
  {
    assert "bdev_aio_create"[5] != "bdev_nvme_attach_controller"[5];
  }

  lemma {:induction false} DevicesSplit(a: seq<Call>, b: seq<Call>)
    ensures DevicesIn(a + b) == DevicesIn(a) + DevicesIn(b)
  {
    if b == [] {
      assert a + b == a;
    } else {
      assert (a + b)[..|a + b| - 1] == a + b[..|b| - 1];
      DevicesSplit(a, b[..|b| - 1]);
    }
  }

  /** `ReadBdevLayout`; conf is None for a file that is no JSON. */
  method ReadLayout(conf: Option<seq<seq<Call>>>) returns (l: Option<Layout>)
    ensures l == if conf.Some? then Describes(Flat(conf.value)) else None
  {
    if conf.None? { return None; }
    var aio, nvme, devices: seq<string> := false, false, [];
    for k := 0 to |conf.value|
      invariant !exists m :: m in Flat(conf.value[..k]) && IsVmd(m)
      invariant aio <==> exists m :: m in Flat(conf.value[..k]) && IsAio(m)
      invariant nvme <==> exists m :: m in Flat(conf.value[..k]) && IsNvme(m)
      invariant devices == DevicesIn(Flat(conf.value[..k]))
    {
      FlatGrows(conf.value, k);
      hide IsVmd, IsAio, IsNvme, Flat, DevicesIn;
      var vmd;
      vmd, aio, nvme, devices := ReadMethods(conf.value[k], aio, nvme, devices);
      if vmd {
        VmdSpoils(conf.value, k);
        return None;
      }
    }
    assert conf.value[..|conf.value|] == conf.value;
    hide IsVmd, IsAio, IsNvme, Flat, DevicesIn, SortStrings;
    if aio == nvme { return None; }
    l := Some(Layout(if aio then "aio" else "nvme", SortStrings(devices)));
  }

  lemma FlatGrows(conf: seq<seq<Call>>, k: nat)
    requires k < |conf|
    ensures Flat(conf[..k + 1]) == Flat(conf[..k]) + conf[k]
    ensures DevicesIn(Flat(conf[..k + 1])) == DevicesIn(Flat(conf[..k])) + DevicesIn(conf[k])
    ensures forall m :: m in Flat(conf[..k + 1]) <==> m in Flat(conf[..k]) || m in conf[k]
  {
    assert conf[..k + 1][..k] == conf[..k];
    DevicesSplit(Flat(conf[..k]), conf[k]);
    hide DevicesIn;
  }

  lemma {:induction false} FlatHas(conf: seq<seq<Call>>, k: nat, m: Call)
    requires k < |conf| && m in conf[k]
    ensures m in Flat(conf)
  {
    if k < |conf| - 1 { FlatHas(conf[..|conf| - 1], k, m); }
  }

  lemma VmdSpoils(conf: seq<seq<Call>>, k: nat)
    requires k < |conf| && exists m :: m in conf[k] && IsVmd(m)
    ensures Describes(Flat(conf)).None?
  {
    hide IsVmd, Flat, DevicesIn, SortStrings;
    var m :| m in conf[k] && IsVmd(m);
    FlatHas(conf, k, m);
  }

  /** What the stored file of an engine is. */
  datatype File = Missing | Unreadable | Conf(conf: Option<seq<seq<Call>>>)

  ghost predicate Changed(f: File, want: Layout) {
    f.Conf? && f.conf.Some? && Describes(Flat(f.conf.value)).Some?
    && LayoutText(Describes(Flat(f.conf.value)).value) != LayoutText(want)
  }

  function FileOf(files: map<int, File>, i: int): File { if i in files then files[i] else Missing }

  /** `CheckBdevLayouts`: the engines whose layout changed, in order, or None when a file cannot be read. */
  method CheckLayouts(want: map<int, Layout>, files: map<int, File>) returns (bad: Option<seq<int>>)
    ensures bad.None? <==> exists i :: i in want && FileOf(files, i).Unreadable?
    ensures bad.Some? ==> forall i :: i in bad.value <==> i in want && Changed(FileOf(files, i), want[i])
    ensures bad.Some? ==> NoDuplicates(bad.value) && SortedInts(bad.value)
  {
    var idx := OrderKeys(want);
    assert SortedInts([]);
    hide SortedInts;
    var out: seq<int> := [];
    for k := 0 to |idx|
      invariant forall j :: 0 <= j < k ==> !FileOf(files, idx[j]).Unreadable?
      invariant forall i :: i in out <==> exists j :: 0 <= j < k && idx[j] == i && Changed(FileOf(files, i), want[i])
      invariant NoDuplicates(out) && SortedInts(out)
    {
      hide Changed, FileOf, Describes, Flat, LayoutText;
      var i := idx[k];
      assert i in idx;
      var f := FileOf(files, i);
      if f.Missing? {
        MissingPasses(f, want[i]);
        continue;
      }
      if f.Unreadable? { return None; }
      var have := ReadLayout(f.conf);
      ChangedMeans(f, want[i]);
      if have.None? || LayoutText(have.value) == LayoutText(want[i]) { continue; }
      assert i !in out;
      forall y | y in out ensures y <= i {
        var j :| 0 <= j < k && idx[j] == y;
        SortedIntsAt(idx, j, k);
      }
      SortedIntsAppend(out, i);
      out := out + [i];
    }
    bad := Some(out);
  }

  lemma MissingPasses(f: File, want: Layout)
    requires f.Missing?
    ensures !Changed(f, want)
  {}

  lemma ChangedMeans(f: File, want: Layout)
    requires f.Conf?
    ensures var have := if f.conf.Some? then Describes(Flat(f.conf.value)) else None;
      Changed(f, want) <==> have.Some? && LayoutText(have.value) != LayoutText(want)
  {}

  // ---- what the engines want

  datatype Tier = Tier(bdevClass: string, bdevs: seq<string>)

  /** An engine as it is rendered; without tiers it has one, of its own class and devices. */
  datatype Engine = Engine(index: int, bdevClass: string, bdevs: seq<string>, tiers: seq<Tier>)

  function TiersOf(e: Engine): seq<Tier> { if e.tiers == [] then [Tier(e.bdevClass, e.bdevs)] else e.tiers }

  function KindOf(bdevClass: string): string {
    if bdevClass == "nvme" then "nvme" else if bdevClass == "kdev" || bdevClass == "file" then "aio" else ""
  }

  function BdevsOf(tiers: seq<Tier>): seq<string> {
    if tiers == [] then [] else BdevsOf(tiers[..|tiers| - 1]) + tiers[|tiers| - 1].bdevs
  }

  /** All tiers are of the one kind. */
  predicate OneKind(tiers: seq<Tier>, kind: string) { forall t :: t in tiers ==> KindOf(t.bdevClass) == kind }

  /** What the engine's stored config must describe; None for mixed or unknown kinds and for no device. */
  function Wanted(e: Engine): Option<Layout> {
    var tiers := TiersOf(e);
    var kind := KindOf(tiers[0].bdevClass);
    if kind == "" || !OneKind(tiers, kind) || BdevsOf(tiers) == [] then None
    else Some(Layout(kind, SortStrings(BdevsOf(tiers))))
  }

  /** The inner loop of `engineBdevLayouts`. */
  method WantedOf(e: Engine) returns (l: Option<Layout>)
    ensures l == Wanted(e)
  {
    var tiers := TiersOf(e);
    var kind, devices: seq<string> := "", [];
    for k := 0 to |tiers|
      invariant k == 0 ==> kind == ""
      invariant k > 0 ==> kind == KindOf(tiers[0].bdevClass) && kind != ""
      invariant forall j :: 0 <= j < k ==> KindOf(tiers[j].bdevClass) == kind
      invariant devices == BdevsOf(tiers[..k])
    {
      hide KindOf, BdevsOf, OneKind, TiersOf;
      var t := tiers[k];
      OneMoreTier(tiers, k);
      var kk := KindOf(t.bdevClass);
      if kk == "" || (kind != "" && kind != kk) {
        MixedIsNone(e, k);
        return None;
      }
      kind, devices := kk, devices + t.bdevs;
    }
    assert tiers[..|tiers|] == tiers;
    hide KindOf, BdevsOf, SortStrings;
    if devices == [] { return None; }
    l := Some(Layout(kind, SortStrings(devices)));
  }

  lemma OneMoreTier(tiers: seq<Tier>, k: nat)
    requires k < |tiers|
    ensures BdevsOf(tiers[..k + 1]) == BdevsOf(tiers[..k]) + tiers[k].bdevs
  {
    assert tiers[..k + 1][..k] == tiers[..k];
  }

  lemma MixedIsNone(e: Engine, k: nat)
    requires k < |TiersOf(e)|
    requires var kind := KindOf(TiersOf(e)[k].bdevClass); kind == "" || kind != KindOf(TiersOf(e)[0].bdevClass)
    ensures Wanted(e).None?
  {
    hide KindOf, BdevsOf, SortStrings, TiersOf;
    var t := TiersOf(e)[k];
    assert t in TiersOf(e);
  }

  /** The last engine of an index decides. */
  function WantedAll(engines: seq<Engine>): map<int, Layout> {
    if engines == [] then map[]
    else
      var e := engines[|engines| - 1];
      var before := WantedAll(engines[..|engines| - 1]);
      if Wanted(e).Some? then before[e.index := Wanted(e).value] else before
  }

  /** `engineBdevLayouts` */
  method EngineLayouts(engines: seq<Engine>) returns (out: map<int, Layout>)
    ensures out == WantedAll(engines)
  {
    out := map[];
    for k := 0 to |engines|
      invariant out == WantedAll(engines[..k])
    {
      hide Wanted;
      var l := WantedOf(engines[k]);
      assert engines[..k + 1][..k] == engines[..k];
      if l.Some? { out := out[engines[k].index := l.value]; }
    }
    assert engines[..|engines|] == engines;
  }

  // ---- the whole way

  /** Devices without separators, as PCI addresses and paths are. */
  ghost predicate PlainDevices(devices: seq<string>) {
    devices != [""] && forall d :: d in devices ==> ',' !in d && ';' !in d
  }

  lemma WantedIsPlain(e: Engine)
    requires Wanted(e).Some? && PlainDevices(BdevsOf(TiersOf(e)))
    ensures Plain(Wanted(e).value) && ' ' !in Wanted(e).value.kind
  {
    var devices := BdevsOf(TiersOf(e));
    SortStringsSorts(devices);
    hide BdevsOf, OneKind, SortStrings;
    var l := Wanted(e).value;
    if |devices| == 1 {
      assert devices == [devices[0]];
      assert devices[0] in l.devices;
    }
  }

  lemma {:induction false} WantedAllIsPlain(engines: seq<Engine>)
    requires forall e :: e in engines ==> PlainDevices(BdevsOf(TiersOf(e))) && -MAX_INT64 - 1 <= e.index <= MAX_INT64
    ensures PlainMap(WantedAll(engines)) && forall i :: i in WantedAll(engines) ==> ' ' !in WantedAll(engines)[i].kind
  {
    if engines != [] {
      var e := engines[|engines| - 1];
      assert engines == engines[..|engines| - 1] + [e];
      assert e in engines;
      WantedAllIsPlain(engines[..|engines| - 1]);
      if Wanted(e).Some? { WantedIsPlain(e); }
      hide Wanted, Plain, BdevsOf, TiersOf;
    }
  }

  lemma DescribedIsSorted(ms: seq<Call>)
    requires Describes(ms).Some?
    ensures var l := Describes(ms).value;
      && SortedStrings(l.devices) && multiset(l.devices) == multiset(DevicesIn(ms)) && l.devices != [] && ' ' !in l.kind
      && (forall d :: d in l.devices <==> d in DevicesIn(ms))
  {
    SortStringsSorts(DevicesIn(ms));
    hide SortStrings, IsVmd, SortedStrings;
    var m :| m in ms && (IsAio(m) || IsNvme(m));
    DeviceOf(ms, m);
  }

  lemma {:induction false} DeviceOf(ms: seq<Call>, m: Call)
    requires m in ms && (IsAio(m) || IsNvme(m))
    ensures DevicesIn(ms) != []
  {
    if ms[|ms| - 1] != m {
      assert ms == ms[..|ms| - 1] + [ms[|ms| - 1]];
      DeviceOf(ms[..|ms| - 1], m);
    }
  }

  /** From the spec to the node and back: an engine is reported exactly when its stored config can be read
      and describes drives of another kind or another multiset of devices than its tiers have. */
  lemma ReportedExactlyWhenChanged(engines: seq<Engine>, text: string, i: int, f: File)
    requires forall e :: e in engines ==> PlainDevices(BdevsOf(TiersOf(e))) && -MAX_INT64 - 1 <= e.index <= MAX_INT64
    requires Prints(WantedAll(engines), text) && i in WantedAll(engines)
    requires f.Conf? && f.conf.Some? && forall d :: d in DevicesIn(Flat(f.conf.value)) ==> ',' !in d
    ensures ParseText(text).Some? && i in ParseText(text).value
    ensures var want := WantedAll(engines)[i];
      var have := Describes(Flat(f.conf.value));
      Changed(f, ParseText(text).value[i]) <==>
        have.Some? && (have.value.kind != want.kind
                       || multiset(DevicesIn(Flat(f.conf.value))) != multiset(want.devices))
  {
    var all := WantedAll(engines);
    WantedAllIsPlain(engines);
    LayoutsRoundTrip(all, text);
    var ms := Flat(f.conf.value);
    var want := all[i];
    hide WantedAll, ParseText, Prints, Flat, Describes, DevicesIn, LayoutText, SortedStrings, BdevsOf, TiersOf;
    if Describes(ms).Some? {
      DescribedIsSorted(ms);
      SameTextIsSameDrives(Describes(ms).value, want);
    }
  }
}
