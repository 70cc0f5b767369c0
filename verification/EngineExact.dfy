/** What one pass of engine restart chooses and asks for, said on the membership, the recorded node configs and
    the tracks alone. */
module EngineExact {
  import opened Collections
  import opened RankSet
  import opened DaosStatus
  import opened Mailbox
  import opened EngineRestart
  import opened EngineRuns

  // ---- dead engines

  /** The last entry of the node has a workload with a ready server. */
  ghost predicate ServedNow(nodes: seq<NodeConfig>, node: string) {
    exists k :: 0 <= k < |nodes| && nodes[k].node == node && nodes[k].workload && nodes[k].serverReady &&
                forall j :: k < j < |nodes| ==> nodes[j].node != node
  }

  lemma {:induction false} ServedMeans(nodes: seq<NodeConfig>, node: string)
    ensures ServerUp(nodes, node) <==> ServedNow(nodes, node)
  {
    if nodes != [] {
      var n := |nodes| - 1;
      var init := nodes[..n];
      ServedMeans(init, node);
      if nodes[n].node != node {
        if k :| 0 <= k < n && init[k].node == node && init[k].workload && init[k].serverReady &&
                forall j :: k < j < n ==> init[j].node != node {
          assert forall j :: k < j < n ==> nodes[j] == init[j];
          assert nodes[k].node == node;
        }
        if k :| 0 <= k < |nodes| && nodes[k].node == node && nodes[k].workload && nodes[k].serverReady &&
                forall j :: k < j < |nodes| ==> nodes[j].node != node {
          assert init[k].node == node;
        }
      }
    }
  }

  /** The membership is known and no human asked for anything about ranks. */
  predicate Watching(i: Input) { i.enabled && i.known && !i.opRequested }

  ghost predicate DeadRow(m: RankStatus, nodes: seq<NodeConfig>, r: int) {
    m.rank == r && m.state in {"errored", "excluded"} && ServedNow(nodes, m.node)
  }

  /** The rows of a rank that died under a server that is fine. */
  ghost function DeadRows(members: seq<RankStatus>, nodes: seq<NodeConfig>, r: int): set<int> {
    set k | 0 <= k < |members| && DeadRow(members[k], nodes, r)
  }

  lemma {:induction false} FilteredCounts(members: seq<RankStatus>, nodes: seq<NodeConfig>, r: int)
    ensures multiset(Filtered(members, nodes))[r] == |DeadRows(members, nodes, r)|
  {
    if members == [] {
      assert DeadRows(members, nodes, r) == {};
    } else {
      var n := |members| - 1;
      FilteredCounts(members[..n], nodes, r);
      LastDeadRow(members, nodes, r);
      LastFiltered(members, nodes, r);
      hide Filtered, DeadRows;
    }
  }

  lemma LastDeadRow(members: seq<RankStatus>, nodes: seq<NodeConfig>, r: int)
    requires members != []
    ensures var n := |members| - 1;
      |DeadRows(members, nodes, r)| ==
      |DeadRows(members[..n], nodes, r)| + if DeadRow(members[n], nodes, r) then 1 else 0
  {
    hide ServedNow;
    var n := |members| - 1;
    var before := DeadRows(members[..n], nodes, r);
    assert DeadRows(members, nodes, r) == before + if DeadRow(members[n], nodes, r) then {n} else {};
    assert n !in before;
  }

  lemma LastFiltered(members: seq<RankStatus>, nodes: seq<NodeConfig>, r: int)
    requires members != []
    ensures var n := |members| - 1;
      multiset(Filtered(members, nodes))[r] ==
      multiset(Filtered(members[..n], nodes))[r] + if DeadRow(members[n], nodes, r) then 1 else 0
  {
    ServedMeans(nodes, members[|members| - 1].node);
    hide ServerUp, ServedNow;
  }

  lemma LastCount(s: seq<int>, r: int)
    requires s != []
    ensures multiset(s)[r] == multiset(s[..|s| - 1])[r] + if s[|s| - 1] == r then 1 else 0
    ensures r !in s[..|s| - 1] ==> multiset(s[..|s| - 1])[r] == 0
  {
    assert s == s[..|s| - 1] + [s[|s| - 1]];
  }

  lemma DueLast(tracks: map<int, Track>, cands: seq<int>, now: int, r: int)
    requires cands != [] && forall x :: x in cands ==> x in tracks
    ensures var n := |cands| - 1;
      multiset(DueIn(tracks, cands, now))[r] ==
      multiset(DueIn(tracks, cands[..n], now))[r] + if cands[n] == r && IsDue(tracks[r], now) then 1 else 0
  {
    hide IsDue;
  }

  lemma {:induction false} DueCounts(tracks: map<int, Track>, cands: seq<int>, now: int, r: int)
    requires forall x :: x in cands ==> x in tracks
    ensures multiset(DueIn(tracks, cands, now))[r] ==
      if r in cands && IsDue(tracks[r], now) then multiset(cands)[r] else 0
  {
    if cands == [] {
      assert DueIn(tracks, cands, now) == [];
    } else {
      hide *;
      var n := |cands| - 1;
      DueCounts(tracks, cands[..n], now, r);
      DueLast(tracks, cands, now, r);
      LastCount(cands, r);
      LastOrInit(cands, r);
    }
  }

  // ---- the batch

  /** How often a pass that watches sees the rank dead. */
  ghost function Dead(i: Input, r: int): nat { if Watching(i) then |DeadRows(i.members, i.nodes, r)| else 0 }

  /** Down for two minutes, with a start left, and none in the last five minutes. */
  ghost predicate DueNow(t: Track, now: int) {
    && now - t.downSince >= 120_000_000_000 && t.tries < 3
    && (t.tries > 0 ==> now - t.lastTry >= 300_000_000_000)
  }

  lemma DueMeans(t: Track, now: int)
    ensures IsDue(t, now) <==> DueNow(t, now)
    ensures Spent(t) <==> t.tries >= 3
  {}

  lemma CandidatesCount(i: Input, r: int)
    ensures multiset(CandidatesOf(i))[r] == Dead(i, r)
  {
    FilteredCounts(i.members, i.nodes, r);
    hide Filtered, DeadRows;
  }

  /** Everything one pass does to one rank. While a start is in flight no batch is chosen. Otherwise the rank is in
      the batch once for every dead row, if a start is due, and is given up on once it had its three starts. It is
      remembered for as long as some row of it is not joined, and what is remembered is when it was first seen
      dead, and its starts. */
  lemma BatchExactly(m: Memory, b: Box<StartAnswer>, sys: string, i: Input, r: int)
    ensures var (m', b', rep) := Pass(m, b, sys, i);
      var t := if r in m.tracks then m.tracks[r] else Track(i.now, 0, 0, false);
      var free := m.running == "";
      && SortedInts(rep.due)
      && multiset(rep.due)[r] == (if free && DueNow(t, i.now) then Dead(i, r) else 0)
      && (r in rep.gaveUp <==> free && Dead(i, r) > 0 && t.tries >= 3 && !t.gaveUp)
      && (r in m'.tracks <==>
            (r in m.tracks || Dead(i, r) > 0) && exists x :: x in i.members && x.rank == r && x.state != "joined")
      && (r in m'.tracks ==>
            && m'.tracks[r].downSince == t.downSince && m'.tracks[r].tries == t.tries + multiset(rep.due)[r]
            && m'.tracks[r].gaveUp == (t.gaveUp || r in rep.gaveUp)
            && (rep.answer.None? ==> m'.tracks[r].lastTry == if r in rep.due then i.now else t.lastTry))
  {
    hide *;
    var p := PlanOf(m, i);
    PlanExactly(m, i, r);
    ConcludeOnRank(p, b, sys, i, r);
    ConcludeParts(p, b, sys, i);
    PassIs(m, b, sys, i);
  }

  lemma PassIs(m: Memory, b: Box<StartAnswer>, sys: string, i: Input)
    ensures Pass(m, b, sys, i) == Conclude(PlanOf(m, i), b, sys, i)
  {}

  lemma ConcludeParts(p: Plan, b: Box<StartAnswer>, sys: string, i: Input)
    ensures var (m', b', rep) := Conclude(p, b, sys, i);
      rep.due == p.due && rep.gaveUp == p.gaveUp && (rep.answer.None? ==> m'.tracks == p.tracks)
  {
    hide RunJob, Aftermath, StartArgs, JOB_SUFFIX, CandidatesOf;
  }

  lemma DownMeans(members: seq<RankStatus>, r: int)
    ensures r in DownOf(members) <==> exists x :: x in members && x.rank == r && x.state != "joined"
  {
    if x :| x in members && x.rank == r && x.state != "joined" {
      var k :| 0 <= k < |members| && members[k] == x;
    }
    if r in DownOf(members) {
      var k :| 0 <= k < |members| && members[k].state != JOINED && members[k].rank == r;
      assert members[k] in members;
    }
  }

  /** The plan of a pass, for one rank. */
  lemma PlanExactly(m: Memory, i: Input, r: int)
    ensures var p := PlanOf(m, i);
      var t := if r in m.tracks then m.tracks[r] else Track(i.now, 0, 0, false);
      var free := m.running == "";
      && SortedInts(p.due)
      && multiset(p.due)[r] == (if free && DueNow(t, i.now) then Dead(i, r) else 0)
      && (r in p.gaveUp <==> free && Dead(i, r) > 0 && t.tries >= 3 && !t.gaveUp)
      && (r in p.tracks <==>
            (r in m.tracks || Dead(i, r) > 0) && exists x :: x in i.members && x.rank == r && x.state != "joined")
      && (r in p.tracks ==>
            p.tracks[r] == Track(t.downSince, if r in p.due then i.now else t.lastTry,
                                 t.tries + multiset(p.due)[r], t.gaveUp || r in p.gaveUp))
  {
    CandidatesAreDown(i);
    CandidatesCount(i, r);
    DownMeans(i.members, r);
    var cands := CandidatesOf(i);
    var tracks := Refresh(m.tracks, cands, DownOf(i.members), i.now);
    hide CandidatesOf, DownOf, Dead, DueNow, NewBatch, IsDue, Spent;
    assert r in cands <==> multiset(cands)[r] > 0;
    var t := if r in m.tracks then m.tracks[r] else Track(i.now, 0, 0, false);
    assert r in tracks ==> tracks[r] == t;
    DueMeans(t, i.now);
    if m.running == "" {
      BatchOnRank(tracks, cands, i.now, r);
      BatchCounts(tracks, cands, i.now, r);
    }
  }

  lemma BatchCounts(tracks: map<int, Track>, cands: seq<int>, now: int, r: int)
    requires forall x :: x in cands ==> x in tracks
    ensures var due := NewBatch(tracks, cands, now).due;
      && SortedInts(due)
      && multiset(due)[r] == if r in cands && IsDue(tracks[r], now) then multiset(cands)[r] else 0
  {
    DueCounts(tracks, cands, now, r);
    SortIntsSorts(DueIn(tracks, cands, now));
  }

  // ---- the Job

  /** The start Job a pass creates names the batch, one still in flight or the one just chosen, and every pass that
      waits for a Job or has read one comes back in ten seconds, unless the API failed. */
  lemma StartJobExactly(m: Memory, b: Box<StartAnswer>, sys: string, i: Input)
    ensures var (m', b', rep) := Pass(m, b, sys, i);
      var name := sys + "-dmg-enginestart";
      var ranks := if m.running != "" then m.running else if rep.due == [] then "" else RankListText(rep.due);
      && (b'.nextId > b.nextId <==>
            ranks != "" && name !in b.jobs && !i.fault.GetFails? && !i.fault.CreateFails?)
      && (b'.nextId > b.nextId ==>
            b'.jobs == b.jobs[name := Job(b.nextId, ["system", "start", "--ranks=" + ranks], Running)])
      && (rep.failed ==> rep.next == 0)
      && (ranks != "" && !rep.failed ==> rep.next == 10_000_000_000)
      && m'.running == (if rep.answer.Some? then "" else ranks)
  {
    PlanText(m, i);
    hide PlanOf, CandidatesOf, RankListText, Aftermath;
  }

  lemma PlanText(m: Memory, i: Input)
    ensures var p := PlanOf(m, i);
      p.running == if m.running != "" then m.running else if p.due == [] then "" else RankListText(p.due)
  {
    hide CandidatesOf, Refresh, DownOf, RankListText;
  }
}
