/** Rank sets as text: what `rankList` prints and `parseRankSet` reads
    (internal/controller/daossystem_enginerestart.go, internal/controller/daossystem_rankop.go). */
module RankSet {
  import opened Text

  const RANK_LIMIT: int := 0x8000_0000

  /** Go's conversion of a 64-bit int to int32. */
  function ToInt32(i: int): int {
    if -RANK_LIMIT <= i < RANK_LIMIT then i
    else (i + RANK_LIMIT) % (2 * RANK_LIMIT) - RANK_LIMIT
  }

  /** The int32 values of a..b; empty when b is below a. */
  function Interval(a: int, b: int): set<int> { set i | a <= i <= b :: ToInt32(i) }

  function Elements(rs: seq<int>): set<int> { set r | r in rs }

  function NumberTexts(rs: seq<int>): (ts: seq<string>)
    ensures |ts| == |rs|
    ensures forall i :: 0 <= i < |rs| ==> ts[i] == IntText(rs[i])
  {
    if rs == [] then [] else [IntText(rs[0])] + NumberTexts(rs[1..])
  }

  function RankListText(rs: seq<int>): string { Join(NumberTexts(rs), ',') }

  /** `rankList`: the ranks in the order given, separated by commas. */
  method RankList(rs: seq<int>) returns (text: string)
    ensures text == RankListText(rs)
  {
    var parts: seq<string> := [];
    for i := 0 to |rs|
      invariant |parts| == i
      invariant forall k :: 0 <= k < i ==> parts[k] == IntText(rs[k])
    {
      parts := parts + [IntText(rs[i])];
    }
    assert parts == NumberTexts(rs);
    text := Join(parts, ',');
  }

  /** The bounds one comma-separated item stands for; None when its first number does not read. A
      second number that does not read leaves the single rank. */
  function ItemBounds(part: string): (b: Option<(int, int)>) {
    var (lo, hi, found) := Cut(part, '-');
    match Atoi(TrimSpace(lo))
    case None => None
    case Some(a) =>
      if found && Atoi(TrimSpace(hi)).Some? then Some((a, Atoi(TrimSpace(hi)).value)) else Some((a, a))
  }

  function ItemRanks(part: string): set<int> {
    match ItemBounds(part)
    case None => {}
    case Some((a, b)) => Interval(a, b)
  }

  function UnionOf(sets: seq<set<int>>): set<int> {
    if sets == [] then {} else UnionOf(sets[..|sets| - 1]) + sets[|sets| - 1]
  }

  function ItemSets(parts: seq<string>): (r: seq<set<int>>)
    ensures |r| == |parts|
    ensures forall i :: 0 <= i < |parts| ==> r[i] == ItemRanks(parts[i])
  {
    seq(|parts|, i requires 0 <= i < |parts| => ItemRanks(parts[i]))
  }

  /** The set of ranks a text names, whatever the text. */
  function RankSetOf(text: string): set<int> { UnionOf(ItemSets(Split(text, ','))) }

  /** The inner loop of `parseRankSet`. */
  method AddInterval(before: set<int>, a: int, b: int) returns (out: set<int>)
    ensures out == before + Interval(a, b)
  {
    out := before;
    if a > b { return; }
    var i := a;
    while i <= b
      invariant a <= i <= b + 1
      invariant out == before + Interval(a, i - 1)
    {
      assert Interval(a, i) == Interval(a, i - 1) + {ToInt32(i)} by {
        forall x | x in Interval(a, i) ensures x in Interval(a, i - 1) + {ToInt32(i)} {
          var j :| a <= j <= i && x == ToInt32(j);
          if j != i { assert a <= j <= i - 1; }
        }
      }
      out := out + {ToInt32(i)};
      i := i + 1;
    }
  }

  /** `parseRankSet`. */
  method ParseRankSet(text: string) returns (out: set<int>)
    ensures out == RankSetOf(text)
  {
    out := {};
    var parts := Split(text, ',');
    ghost var sets := ItemSets(parts);
    for k := 0 to |parts|
      invariant out == UnionOf(sets[..k])
    {
      assert sets[..k + 1][..k] == sets[..k];
      var (lo, hi, found) := Cut(parts[k], '-');
      var first := Atoi(TrimSpace(lo));
      if first.None? { continue; }
      var a := first.value;
      var b := a;
      if found {
        var second := Atoi(TrimSpace(hi));
        if second.Some? { b := second.value; }
      }
      out := AddInterval(out, a, b);
    }
    assert sets[..|parts|] == sets;
  }

  // ---- what any text means

  /** The conversion to int32 keeps a number up to multiples of 2 to the 32. */
  lemma Int32Exactly(i: int)
    ensures -0x8000_0000 <= ToInt32(i) < 0x8000_0000
    ensures (i - ToInt32(i)) % 0x1_0000_0000 == 0
  {}

  /** An item without a readable first number names nothing, and one without a readable second number after a dash
      names its first; otherwise it names what lies between the two, as int32. */
  lemma ItemReadsExactly(lo: string, hi: string, r: int)
    requires '-' !in lo
    ensures var a, b := Atoi(TrimSpace(lo)), Atoi(TrimSpace(hi));
      && (r in ItemRanks(lo) <==> a.Some? && r == ToInt32(a.value))
      && (r in ItemRanks(lo + "-" + hi) <==>
            a.Some? && if b.None? then r == ToInt32(a.value)
                       else exists i :: a.value <= i <= b.value && r == ToInt32(i))
  {
    CutAtFirst(lo, '-', hi);
    hide Cut, Atoi, TrimSpace, ToInt32;
    var a := Atoi(TrimSpace(lo));
    if a.Some? {
      forall x ensures x in Interval(a.value, a.value) <==> x == ToInt32(a.value) {
        if x == ToInt32(a.value) { assert a.value <= a.value <= a.value; }
      }
    }
  }

  // ---- what printed sets mean

  /** A rank set the way a human writes one: single ranks and ranges. */
  datatype Item = One(rank: nat) | Range(lo: nat, hi: nat) {
    function Render(): string {
      match this
      case One(r) => NatText(r)
      case Range(l, h) => NatText(l) + "-" + NatText(h)
    }
    predicate InRange() {
      match this
      case One(r) => r < RANK_LIMIT
      case Range(l, h) => l < RANK_LIMIT && h < RANK_LIMIT
    }
    predicate Covers(rank: int) {
      match this
      case One(r) => rank == r
      case Range(l, h) => l <= rank <= h
    }
  }

  function RenderAll(items: seq<Item>): (ts: seq<string>)
    ensures |ts| == |items|
    ensures forall i :: 0 <= i < |items| ==> ts[i] == items[i].Render()
  {
    if items == [] then [] else [items[0].Render()] + RenderAll(items[1..])
  }

  lemma IntervalInRange(a: nat, b: nat, r: int)
    requires a < RANK_LIMIT && b < RANK_LIMIT
    ensures r in Interval(a, b) <==> a <= r <= b
  {
    if a <= r <= b { assert ToInt32(r) == r; }
  }

  lemma ItemBoundsOf(it: Item)
    requires it.InRange()
    ensures ',' !in it.Render()
    ensures ItemBounds(it.Render()) == Some(if it.One? then (it.rank, it.rank) else (it.lo, it.hi))
  {
    hide Atoi, Cut, TrimSpace, NatText;
    match it
    case One(r) =>
      AtoiNatText(r);
      DigitsAreNotSpecial(NatText(r));
      CutAtFirst(NatText(r), '-', "");
    case Range(l, h) =>
      AtoiNatText(l);
      AtoiNatText(h);
      DigitsAreNotSpecial(NatText(l));
      DigitsAreNotSpecial(NatText(h));
      CutAtFirst(NatText(l), '-', NatText(h));
  }

  lemma ItemMeaning(it: Item, r: int)
    requires it.InRange()
    ensures ',' !in it.Render()
    ensures r in ItemRanks(it.Render()) <==> it.Covers(r)
  {
    ItemBoundsOf(it);
    match it
    case One(x) => IntervalInRange(x, x, r);
    case Range(l, h) => IntervalInRange(l, h, r);
  }

  lemma {:induction false} UnionMember(sets: seq<set<int>>, r: int)
    ensures r in UnionOf(sets) <==> exists i :: 0 <= i < |sets| && r in sets[i]
  {
    if sets != [] {
      UnionMember(sets[..|sets| - 1], r);
    }
  }

  lemma JoinedMember(parts: seq<string>, r: int)
    requires parts != [] && forall p :: p in parts ==> ',' !in p
    ensures r in RankSetOf(Join(parts, ',')) <==> exists i :: 0 <= i < |parts| && r in ItemSets(parts)[i]
  {
    SplitJoin(parts, ',');
    UnionMember(ItemSets(parts), r);
  }

  lemma RenderedItem(items: seq<Item>, i: nat, r: int)
    requires i < |items| && items[i].InRange()
    ensures ',' !in RenderAll(items)[i]
    ensures r in ItemSets(RenderAll(items))[i] <==> items[i].Covers(r)
  {
    ItemMeaning(items[i], r);
  }

  /** Parsing a printed list of ranks and ranges gives exactly the ranks the items cover. */
  lemma RankSetMeaning(items: seq<Item>, r: int)
    requires items != [] && forall i :: 0 <= i < |items| ==> items[i].InRange()
    ensures r in RankSetOf(Join(RenderAll(items), ',')) <==> exists i :: 0 <= i < |items| && items[i].Covers(r)
  {
    var ts := RenderAll(items);
    var sets := ItemSets(ts);
    forall i | 0 <= i < |items|
      ensures ',' !in ts[i] && (r in sets[i] <==> items[i].Covers(r))
    {
      RenderedItem(items, i, r);
    }
    JoinedMember(ts, r);
  }

  lemma IntItemRanks(i: int)
    requires -RANK_LIMIT <= i < RANK_LIMIT
    ensures ',' !in IntText(i)
    ensures ItemRanks(IntText(i)) == if i >= 0 then {i} else {}
  {
    if i >= 0 {
      forall r ensures r in ItemRanks(IntText(i)) <==> r == i { ItemMeaning(One(i), r); }
    } else {
      DigitsAreNotSpecial(NatText(-i));
      CutAtFirst("", '-', NatText(-i));
      assert IntText(i) == "" + ['-'] + NatText(-i);
    }
  }

  lemma PrintedRank(rs: seq<int>, i: nat)
    requires i < |rs| && -RANK_LIMIT <= rs[i] < RANK_LIMIT
    ensures ',' !in NumberTexts(rs)[i]
    ensures ItemSets(NumberTexts(rs))[i] == if rs[i] >= 0 then {rs[i]} else {}
  {
    IntItemRanks(rs[i]);
  }

  lemma PrintedRanks(rs: seq<int>)
    requires forall i :: 0 <= i < |rs| ==> -RANK_LIMIT <= rs[i] < RANK_LIMIT
    ensures forall p :: p in NumberTexts(rs) ==> ',' !in p
    ensures forall i :: 0 <= i < |rs| ==> ItemSets(NumberTexts(rs))[i] == if rs[i] >= 0 then {rs[i]} else {}
  {
    forall i | 0 <= i < |rs|
      ensures ',' !in NumberTexts(rs)[i]
      ensures ItemSets(NumberTexts(rs))[i] == if rs[i] >= 0 then {rs[i]} else {}
    {
      PrintedRank(rs, i);
    }
  }

  lemma EmptyRankList()
    ensures RankSetOf("") == {}
  {
    assert Split("", ',') == [""];
    assert ItemSets([""]) == [{}];
  }

  lemma PrintedMember(rs: seq<int>, r: int)
    requires rs != [] && forall i :: 0 <= i < |rs| ==> -RANK_LIMIT <= rs[i] < RANK_LIMIT
    ensures r in RankSetOf(RankListText(rs)) <==> r in rs && r >= 0
  {
    PrintedRanks(rs);
    JoinedMember(NumberTexts(rs), r);
    var sets := ItemSets(NumberTexts(rs));
    if r in rs && r >= 0 {
      var i :| 0 <= i < |rs| && rs[i] == r;
      assert r in sets[i];
    }
  }

  /** Reading back a printed rank list gives exactly its non-negative ranks: a negative rank prints
      with the range separator in front and is dropped. */
  lemma RankListRoundTrip(rs: seq<int>)
    requires forall i :: 0 <= i < |rs| ==> -RANK_LIMIT <= rs[i] < RANK_LIMIT
    ensures RankSetOf(RankListText(rs)) == set r | r in rs && r >= 0
  {
    if rs == [] {
      EmptyRankList();
    } else {
      forall r ensures r in RankSetOf(RankListText(rs)) <==> r in rs && r >= 0 {
        PrintedMember(rs, r);
      }
    }
  }

  /** A batch with a rank in it never prints as the empty text, which the operator reads as
      "nothing in flight". */
  lemma RankListNotEmpty(rs: seq<int>)
    requires rs != []
    ensures RankListText(rs) != ""
  {
    assert NumberTexts(rs)[0] != "";
  }
}
