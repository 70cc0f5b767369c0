/** What engine restart keeps over every run: passes at non-decreasing times, Jobs that finish with any
    answer, and restarts of the operator, which forget everything in memory. */
module EngineRuns {
  import opened Text
  import opened Collections
  import opened RankSet
  import opened DaosStatus
  import opened Mailbox
  import opened EngineRestart

  // ---- what one pass does to one rank

  function Fresh(now: int): Track { Track(now, 0, 0, false) }

  function Before(m: Memory, r: int, now: int): Track { if r in m.tracks then m.tracks[r] else Fresh(now) }

  lemma {:induction false} DeleteKeepsTracks(tracks: map<int, Track>, nodes: seq<string>, want: set<int>, i: Input,
      r: int)
    ensures var t := RestartNodes(tracks, nodes, want, i).0;
      && (r in t <==> r in tracks)
      && (r in tracks ==> t[r] == tracks[r] || t[r] == tracks[r].(lastTry := i.later))
  {
    if nodes != [] {
      if HealthyElsewhere(i.members, want, nodes[0]) {
        DeleteKeepsTracks(tracks, nodes[1..], want, i, r);
      } else {
        var touched := Touch(tracks, RanksOn(i.members, want, nodes[0]), i.later);
        DeleteKeepsTracks(touched, nodes[1..], want, i, r);
      }
    }
  }

  ghost predicate RankEffect(m: Memory, m': Memory, rep: Report, later: int, r: int) {
    var t0 := Before(m, r, rep.now);
    && (r !in DownOf(rep.members) ==> r !in m'.tracks && r !in rep.due && r !in rep.gaveUp)
    && (r in DownOf(rep.members) ==> (r in m'.tracks <==> r in m.tracks || r in rep.cands))
    && (r in rep.due || r in rep.gaveUp ==> r in m'.tracks)
    && (r in rep.due ==> r in rep.cands && IsDue(t0, rep.now))
    && (r in rep.gaveUp ==> Spent(t0) && !t0.gaveUp)
    && (r in m'.tracks ==> var t1 := m'.tracks[r];
        && t1.downSince == t0.downSince
        && t1.tries == t0.tries + multiset(rep.due)[r]
        && t1.gaveUp == (t0.gaveUp || r in rep.gaveUp)
        && (t1.lastTry == later || t1.lastTry == if r in rep.due then rep.now else t0.lastTry))
  }

  /** What choosing a batch does to one rank. */
  lemma BatchOnRank(tracks: map<int, Track>, cands: seq<int>, now: int, r: int)
    requires forall x :: x in cands ==> x in tracks
    ensures var p := NewBatch(tracks, cands, now);
      && (r in p.due <==> r in cands && IsDue(tracks[r], now))
      && (r in p.gaveUp <==> r in cands && Spent(tracks[r]) && !tracks[r].gaveUp)
      && (r in p.tracks <==> r in tracks)
      && (r in tracks ==> p.tracks[r] == Track(tracks[r].downSince, if r in p.due then now else tracks[r].lastTry,
                                               tracks[r].tries + multiset(p.due)[r], tracks[r].gaveUp || r in p.gaveUp))
  {
    SortIntsSorts(DueIn(tracks, cands, now));
    DueInMember(tracks, cands, now, r);
    GivenUpMember(tracks, cands, r);
    var p := NewBatch(tracks, cands, now);
    assert r in p.due <==> multiset(p.due)[r] > 0;
  }

  lemma PlanOnRank(m: Memory, b: Box<StartAnswer>, sys: string, i: Input, r: int)
    ensures var p := PlanOf(m, i);
      RankEffect(m, Memory(p.tracks, p.running), Idle(p, b, sys, i), i.later, r)
  {
    CandidatesAreDown(i);
    var cands := CandidatesOf(i);
    var tracks := Refresh(m.tracks, cands, DownOf(i.members), i.now);
    assert r in tracks ==> tracks[r] == Before(m, r, i.now);
    if m.running == "" { BatchOnRank(tracks, cands, i.now, r); }
  }

  lemma EscapeOnRank(tracks: map<int, Track>, text: string, i: Input, r: int)
    ensures var t := Escape(tracks, text, i).0;
      && (r in t <==> r in tracks)
      && (r in tracks ==> t[r] == tracks[r] || t[r] == tracks[r].(lastTry := i.later))
  {
    var want := RankSetOf(text);
    DeleteKeepsTracks(tracks, SortStrings(NodesOf(i.members, want)), want, i, r);
  }

  lemma ConcludeReport(p: Plan, b: Box<StartAnswer>, sys: string, i: Input)
    ensures Conclude(p, b, sys, i).2.(next := p.next, answer := None, deleted := [], failed := false, job := None) ==
      Idle(p, b, sys, i)
  {}

  lemma AftermathOnRank(p: Plan, answer: StartAnswer, i: Input, r: int)
    ensures var t := Aftermath(p, answer, i).0;
      && (r in t <==> r in p.tracks)
      && (r in p.tracks ==> t[r] == p.tracks[r] || t[r] == p.tracks[r].(lastTry := i.later))
  {
    EscapeOnRank(p.tracks, p.running, i, r);
  }

  /** Concluding a batch moves nothing in a track but the time of its last start. */
  lemma ConcludeOnRank(p: Plan, b: Box<StartAnswer>, sys: string, i: Input, r: int)
    ensures var t := Conclude(p, b, sys, i).0.tracks;
      && (r in t <==> r in p.tracks)
      && (r in p.tracks ==> t[r] == p.tracks[r] || t[r] == p.tracks[r].(lastTry := i.later))
  {
    var out := RunJob(b, sys + JOB_SUFFIX, StartArgs(p.running), i.fault).1;
    if p.running != "" && out.Done? { AftermathOnRank(p, out.answer, i, r); }
  }

  lemma EffectMovesLastTry(m: Memory, m1: Memory, m2: Memory, rep1: Report, rep2: Report, later: int, r: int)
    requires RankEffect(m, m1, rep1, later, r)
    requires rep2.(next := rep1.next, answer := rep1.answer, deleted := rep1.deleted, failed := rep1.failed,
                   job := rep1.job) == rep1
    requires r in m2.tracks <==> r in m1.tracks
    requires r in m1.tracks ==> m2.tracks[r] == m1.tracks[r] || m2.tracks[r] == m1.tracks[r].(lastTry := later)
    ensures RankEffect(m, m2, rep2, later, r)
  {}

  lemma PassOnRank(m: Memory, b: Box<StartAnswer>, sys: string, i: Input, r: int)
    ensures var (m', b', rep) := Pass(m, b, sys, i);
      RankEffect(m, m', rep, i.later, r)
  {
    PlanOnRank(m, b, sys, i, r);
    var p := PlanOf(m, i);
    ConcludeOnRank(p, b, sys, i, r);
    ConcludeReport(p, b, sys, i);
    var rep1 := Idle(p, b, sys, i);
    var (m', b', rep) := Conclude(p, b, sys, i);
    EffectMovesLastTry(m, Memory(p.tracks, p.running), m', rep1, rep, i.later, r);
  }

  lemma ConcludeRunning(p: Plan, b: Box<StartAnswer>, sys: string, i: Input)
    ensures var (m', b', rep) := Conclude(p, b, sys, i);
      && rep.now == i.now && rep.members == i.members && rep.cands == CandidatesOf(i) && rep.due == p.due
      && (rep.answer.Some? ==> m'.running == "" && p.running != "")
      && (rep.answer.None? ==> m'.running == p.running && rep.deleted == [])
      && (rep.deleted != [] ==> Stuck(rep.answer.value) && rep.deleted == Escape(p.tracks, p.running, i).1)
  {}

  // ---- which pods a pass may delete

  lemma {:induction false} DeletedFrom(pods: seq<Pod>, node: string, undeletable: set<string>, p: Pod)
    requires p in DeletePods(pods, node, undeletable).0
    ensures p in pods && p.node == node && !p.deleting
  {
    if pods[0] != p || p.node != node || p.deleting || p.name in undeletable {
      DeletedFrom(pods[1..], node, undeletable, p);
    }
  }

  lemma {:induction false} DeletedByNodes(tracks: map<int, Track>, nodes: seq<string>, want: set<int>, i: Input, p: Pod)
    requires p in RestartNodes(tracks, nodes, want, i).1
    ensures p in i.pods && !p.deleting && p.node in nodes && !HealthyElsewhere(i.members, want, p.node)
  {
    if HealthyElsewhere(i.members, want, nodes[0]) {
      DeletedByNodes(tracks, nodes[1..], want, i, p);
    } else {
      var (gone, ok) := DeletePods(i.pods, nodes[0], i.undeletable);
      if p in gone {
        DeletedFrom(i.pods, nodes[0], i.undeletable, p);
      } else {
        DeletedByNodes(Touch(tracks, RanksOn(i.members, want, nodes[0]), i.later), nodes[1..], want, i, p);
      }
    }
  }

  ghost predicate ValidRanks(rs: seq<int>) { forall k :: 0 <= k < |rs| ==> 0 <= rs[k] < RANK_LIMIT }

  /** The node has a rank of the batch, and no joined rank outside it. */
  ghost predicate Expendable(members: seq<RankStatus>, batch: seq<int>, node: string) {
    && (exists m :: m in members && m.node == node && m.rank in batch)
    && !exists m :: m in members && m.node == node && m.rank !in batch && m.state == "joined"
  }

  /** The pod runs on such a node. */
  ghost predicate MayDelete(members: seq<RankStatus>, batch: seq<int>, p: Pod) {
    !p.deleting && Expendable(members, batch, p.node)
  }

  lemma ExpendableNodes(members: seq<RankStatus>, batch: seq<int>, node: string)
    ensures Expendable(members, batch, node) <==>
      HasRankIn(members, Elements(batch), node) && !HealthyElsewhere(members, Elements(batch), node)
  {
    var want := Elements(batch);
    forall m | m in members ensures exists k :: 0 <= k < |members| && members[k] == m {}
    if k :| 0 <= k < |members| && members[k].rank in want && members[k].node == node { assert members[k] in members; }
    if k :| 0 <= k < |members| && members[k].node == node && members[k].rank !in want && members[k].state == JOINED {
      assert members[k] in members;
    }
  }

  /** The escape reads the batch back from its text and still spares every node with a joined rank
      outside the batch. */
  lemma EscapeIsSafe(tracks: map<int, Track>, batch: seq<int>, i: Input, p: Pod)
    requires ValidRanks(batch) && p in Escape(tracks, RankListText(batch), i).1
    ensures p in i.pods && MayDelete(i.members, batch, p)
  {
    RankListRoundTrip(batch);
    var want := RankSetOf(RankListText(batch));
    assert forall k :: 0 <= k < |batch| ==> batch[k] >= 0;
    assert want == Elements(batch);
    var nodes := SortStrings(NodesOf(i.members, want));
    SortStringsSorts(NodesOf(i.members, want));
    DeletedByNodes(tracks, nodes, want, i, p);
    NodesOfMember(i.members, want, p.node);
    ExpendableNodes(i.members, batch, p.node);
    hide Expendable;
  }

  // ---- runs

  datatype Record = Restarted | Passed(rep: Report)

  datatype World = World(mem: Memory, box: Box<StartAnswer>, clock: int, trace: seq<Record>)

  /** The operator restarts, makes a pass, a Job finishes, or a deleted Job goes away. A pass whose clock
      would run backwards does not happen. */
  datatype Step = Restart | Reconcile(i: Input) | JobFinished(answer: StartAnswer) | JobGone

  function Apply(w: World, sys: string, step: Step): World {
    match step
    case Restart => w.(mem := Memory(map[], ""), trace := w.trace + [Restarted])
    case Reconcile(i) =>
      if w.clock <= i.now <= i.later then
        var (m, b, rep) := Pass(w.mem, w.box, sys, i);
        World(m, b, i.later, w.trace + [Passed(rep)])
      else w
    case JobFinished(answer) => w.(box := FinishJob(w.box, sys + JOB_SUFFIX, answer))
    case JobGone => w.(box := DropJob(w.box, sys + JOB_SUFFIX))
  }

  function Run(sys: string, start: int, steps: seq<Step>): World {
    if steps == [] then World(Memory(map[], ""), Box(map[], 0), start, [])
    else Apply(Run(sys, start, steps[..|steps| - 1]), sys, steps[|steps| - 1])
  }

  // ---- reading a trace, without looking at the operator's memory

  /** The rank was seen down in this pass (neither joined nor absent). */
  ghost predicate SeenDown(rec: Record, r: int) { rec.Passed? && r in DownOf(rec.rep.members) }

  ghost predicate StartedIn(rec: Record, r: int) { rec.Passed? && r in rec.rep.due }

  /** Starts of r since it was last seen joined or absent, or the operator restarted. */
  ghost function Starts(trace: seq<Record>, r: int): nat {
    if trace == [] then 0
    else
      var last := trace[|trace| - 1];
      if !SeenDown(last, r) then 0 else Starts(trace[..|trace| - 1], r) + if StartedIn(last, r) then 1 else 0
  }

  /** When r first was a candidate in that span. */
  ghost function Since(trace: seq<Record>, r: int): Option<int> {
    if trace == [] then None
    else
      var last := trace[|trace| - 1];
      var before := Since(trace[..|trace| - 1], r);
      if !SeenDown(last, r) then None
      else if before.Some? then before
      else if r in last.rep.cands then Some(last.rep.now)
      else None
  }

  /** Give-up events for r in that span. */
  ghost function GiveUps(trace: seq<Record>, r: int): nat {
    if trace == [] then 0
    else
      var last := trace[|trace| - 1];
      if !SeenDown(last, r) then 0 else GiveUps(trace[..|trace| - 1], r) + if r in last.rep.gaveUp then 1 else 0
  }

  /** The batch whose Job has not come back yet. */
  ghost function Outstanding(trace: seq<Record>): seq<int>
    decreases |trace|, 0
  {
    if trace == [] then []
    else
      var last := trace[|trace| - 1];
      if last.Restarted? || last.rep.answer.Some? then [] else Current(trace[..|trace| - 1], last.rep)
  }

  /** The batch a pass after prefix works on. */
  ghost function Current(prefix: seq<Record>, rep: Report): seq<int>
    decreases |prefix|, 1
  {
    if rep.due != [] then rep.due else Outstanding(prefix)
  }

  /** Every pass so far listed each rank once. */
  ghost predicate RanksListedOnce(trace: seq<Record>) {
    forall k :: 0 <= k < |trace| && trace[k].Passed? ==> NoDuplicates(Ranks(trace[k].rep.members))
  }

  function Ranks(members: seq<RankStatus>): (rs: seq<int>)
    ensures |rs| == |members| && forall k :: 0 <= k < |members| ==> rs[k] == members[k].rank
  {
    seq(|members|, k requires 0 <= k < |members| => members[k].rank)
  }

  // ---- the invariant

  ghost predicate TrackInv(trace: seq<Record>, tracks: map<int, Track>, clock: int, r: int) {
    if r !in tracks then
      Since(trace, r) == None && Starts(trace, r) == 0 && GiveUps(trace, r) == 0
    else
      var t := tracks[r];
      && Since(trace, r) == Some(t.downSince)
      && Starts(trace, r) <= t.tries && Starts(trace, r) <= MAX_STARTS
      && t.downSince <= clock
      && (t.tries > 0 ==> t.downSince + GRACE <= t.lastTry <= clock)
      && (Starts(trace, r) > 0 ==> t.downSince + GRACE + (Starts(trace, r) - 1) * INTERVAL <= t.lastTry)
      && GiveUps(trace, r) == (if t.gaveUp then 1 else 0)
      && (RanksListedOnce(trace) ==> t.tries == Starts(trace, r))
  }

  /** What each record of a trace satisfies, given what came before it. */
  ghost predicate GoodRecord(prefix: seq<Record>, rec: Record) {
    rec.Passed? ==>
      && (forall r :: r in rec.rep.due ==> GoodStart(prefix, rec, r))
      && (forall r :: r in rec.rep.gaveUp ==> GoodGiveUp(prefix, rec, r))
      && (rec.rep.due != [] ==> Outstanding(prefix) == [])
      && (rec.rep.deleted != [] ==> rec.rep.answer.Some? && Stuck(rec.rep.answer.value))
      && (ValidRanks(Current(prefix, rec.rep)) ==>
            forall p :: p in rec.rep.deleted ==> MayDelete(rec.rep.members, Current(prefix, rec.rep), p))
  }

  ghost predicate GoodGiveUp(prefix: seq<Record>, rec: Record, r: int) {
    && SeenDown(rec, r)
    && GiveUps(prefix, r) == 0
    && (RanksListedOnce(prefix + [rec]) ==> Starts(prefix, r) == MAX_STARTS)
  }

  ghost predicate GoodStart(prefix: seq<Record>, rec: Record, r: int)
    requires rec.Passed?
  {
    var since := Since(prefix + [rec], r);
    && SeenDown(rec, r)
    && Starts(prefix, r) < MAX_STARTS
    && since.Some?
    && rec.rep.now >= since.value + GRACE + Starts(prefix, r) * INTERVAL
  }

  ghost predicate Inv(w: World) {
    && (forall r :: TrackInv(w.trace, w.mem.tracks, w.clock, r))
    && w.mem.running == (if Outstanding(w.trace) == [] then "" else RankListText(Outstanding(w.trace)))
    && GoodTrace(w.trace)
  }

  ghost predicate GoodTrace(trace: seq<Record>) {
    forall k :: 0 <= k < |trace| ==> GoodRecord(trace[..k], trace[k])
  }

  lemma {:induction false} FilteredOnce(members: seq<RankStatus>, nodes: seq<NodeConfig>)
    requires NoDuplicates(Ranks(members))
    ensures NoDuplicates(Filtered(members, nodes))
  {
    if members != [] {
      var init := members[..|members| - 1];
      assert forall k :: 0 <= k < |init| ==> Ranks(init)[k] == Ranks(members)[k];
      FilteredOnce(init, nodes);
      var last := members[|members| - 1].rank;
      assert last !in Filtered(init, nodes) by {
        assert Ranks(members)[|init|] == last;
        assert forall k :: 0 <= k < |init| ==> init[k].rank == Ranks(members)[k];
      }
    }
  }

  lemma {:induction false} DueInOnce(tracks: map<int, Track>, cands: seq<int>, now: int)
    requires (forall x :: x in cands ==> x in tracks) && NoDuplicates(cands)
    ensures NoDuplicates(DueIn(tracks, cands, now))
  {
    if cands != [] {
      var init := cands[..|cands| - 1];
      var c := cands[|cands| - 1];
      DueInOnce(tracks, init, now);
      DueInMember(tracks, init, now, c);
      assert c !in init;
    }
  }

  lemma BatchOnce(tracks: map<int, Track>, cands: seq<int>, now: int, r: int)
    requires (forall x :: x in cands ==> x in tracks) && NoDuplicates(cands)
    ensures multiset(SortInts(DueIn(tracks, cands, now)))[r] <= 1
  {
    var due := DueIn(tracks, cands, now);
    DueInOnce(tracks, cands, now);
    SortIntsSorts(due);
    NoDuplicatesMultiset(due);
  }

  lemma DueOnce(m: Memory, i: Input, r: int)
    requires NoDuplicates(Ranks(i.members))
    ensures multiset(PlanOf(m, i).due)[r] <= 1
  {
    CandidatesAreDown(i);
    var cands := CandidatesOf(i);
    FilteredOnce(i.members, i.nodes);
    if m.running == "" {
      BatchOnce(Refresh(m.tracks, cands, DownOf(i.members), i.now), cands, i.now, r);
    }
  }

  /** One more pass keeps the account of one rank, and what it did to that rank was in order. */
  lemma PassKeepsTrack(trace: seq<Record>, m: Memory, clock: int, m': Memory, rep: Report, later: int, r: int)
    requires TrackInv(trace, m.tracks, clock, r)
    requires clock <= rep.now <= later && RankEffect(m, m', rep, later, r)
    requires RanksListedOnce(trace + [Passed(rep)]) ==> multiset(rep.due)[r] <= 1
    ensures TrackInv(trace + [Passed(rep)], m'.tracks, later, r)
    ensures r in rep.due ==> GoodStart(trace, Passed(rep), r)
    ensures r in rep.gaveUp ==> GoodGiveUp(trace, Passed(rep), r)
  {
    var rec := Passed(rep);
    var longer := trace + [rec];
    assert longer[..|longer| - 1] == trace && longer[|longer| - 1] == rec;
    assert RanksListedOnce(longer) ==> RanksListedOnce(trace) by {
      assert forall k :: 0 <= k < |trace| ==> longer[k] == trace[k];
    }
    assert r in rep.due <==> multiset(rep.due)[r] > 0;
  }

  lemma PassRecordGood(w: World, sys: string, i: Input)
    requires Inv(w) && w.clock <= i.now <= i.later
    ensures var (m', b', rep) := Pass(w.mem, w.box, sys, i);
      && (forall r :: TrackInv(w.trace + [Passed(rep)], m'.tracks, i.later, r))
      && (forall r :: r in rep.due ==> GoodStart(w.trace, Passed(rep), r))
      && (forall r :: r in rep.gaveUp ==> GoodGiveUp(w.trace, Passed(rep), r))
  {
    var p := PlanOf(w.mem, i);
    var (m', b', rep) := Pass(w.mem, w.box, sys, i);
    ConcludeReport(p, w.box, sys, i);
    var longer := w.trace + [Passed(rep)];
    forall r
      ensures TrackInv(longer, m'.tracks, i.later, r)
      ensures r in rep.due ==> GoodStart(w.trace, Passed(rep), r)
      ensures r in rep.gaveUp ==> GoodGiveUp(w.trace, Passed(rep), r)
    {
      PassOnRank(w.mem, w.box, sys, i, r);
      if RanksListedOnce(longer) {
        assert longer[|w.trace|] == Passed(rep);
        DueOnce(w.mem, i, r);
      }
      PassKeepsTrack(w.trace, w.mem, w.clock, m', rep, i.later, r);
    }
  }

  /** The Job part of a pass: one batch at a time, and pods deleted only for the batch just concluded. */
  lemma PassBatchGood(w: World, sys: string, i: Input)
    requires Inv(w)
    ensures var (m', b', rep) := Pass(w.mem, w.box, sys, i);
      var longer := w.trace + [Passed(rep)];
      && m'.running == (if Outstanding(longer) == [] then "" else RankListText(Outstanding(longer)))
      && (rep.due != [] ==> Outstanding(w.trace) == [])
      && (rep.deleted != [] ==> rep.answer.Some? && Stuck(rep.answer.value))
      && (ValidRanks(Current(w.trace, rep)) ==>
            forall q :: q in rep.deleted ==> MayDelete(rep.members, Current(w.trace, rep), q))
  {
    var p := PlanOf(w.mem, i);
    var (m', b', rep) := Pass(w.mem, w.box, sys, i);
    var longer := w.trace + [Passed(rep)];
    assert longer[..|longer| - 1] == w.trace && longer[|longer| - 1] == Passed(rep);
    PlanRunning(w.mem, i);
    PlanText(w.mem, i);
    ConcludeRunning(p, w.box, sys, i);
    var batch := Current(w.trace, rep);
    if Outstanding(w.trace) != [] { RankListNotEmpty(Outstanding(w.trace)); }
    if batch != [] { RankListNotEmpty(batch); }
    if ValidRanks(batch) {
      forall q | q in rep.deleted ensures MayDelete(rep.members, batch, q) {
        EscapeIsSafe(p.tracks, batch, i, q);
      }
    }
  }

  lemma PlanText(m: Memory, i: Input)
    ensures PlanOf(m, i).due != [] ==> PlanOf(m, i).running == RankListText(PlanOf(m, i).due)
  {}

  lemma PassKeepsInv(w: World, sys: string, i: Input)
    requires Inv(w)
    ensures Inv(Apply(w, sys, Reconcile(i)))
  {
    if w.clock <= i.now <= i.later {
      PassRecordGood(w, sys, i);
      PassBatchGood(w, sys, i);
      var (m', b', rep) := Pass(w.mem, w.box, sys, i);
      var longer := w.trace + [Passed(rep)];
      assert GoodRecord(w.trace, Passed(rep));
      forall k | 0 <= k < |longer| ensures GoodRecord(longer[..k], longer[k]) {
        assert longer[..k] == w.trace[..k];
        if k == |w.trace| { assert w.trace[..k] == w.trace; }
      }
    }
  }

  lemma RestartKeepsInv(w: World, sys: string)
    requires Inv(w)
    ensures Inv(Apply(w, sys, Restart))
  {
    var longer := w.trace + [Restarted];
    assert longer[..|longer| - 1] == w.trace && longer[|longer| - 1] == Restarted;
    forall k | 0 <= k < |longer| ensures GoodRecord(longer[..k], longer[k]) {
      assert longer[..k] == w.trace[..k];
    }
  }

  lemma {:induction false} RunInv(sys: string, start: int, steps: seq<Step>)
    ensures Inv(Run(sys, start, steps))
  {
    if steps != [] {
      var w := Run(sys, start, steps[..|steps| - 1]);
      RunInv(sys, start, steps[..|steps| - 1]);
      match steps[|steps| - 1]
      case Restart => RestartKeepsInv(w, sys);
      case Reconcile(i) => PassKeepsInv(w, sys, i);
      case JobFinished(_) =>
      case JobGone =>
    }
  }

  // ---- the theorems

  /** Passes in trace[i..j] that start r. */
  ghost function StartsIn(trace: seq<Record>, r: int, i: nat, j: nat): nat
    requires i <= j <= |trace|
  {
    if i == j then 0 else StartsIn(trace, r, i, j - 1) + if StartedIn(trace[j - 1], r) then 1 else 0
  }

  ghost function GiveUpsIn(trace: seq<Record>, r: int, i: nat, j: nat): nat
    requires i <= j <= |trace|
  {
    if i == j then 0
    else GiveUpsIn(trace, r, i, j - 1) + if trace[j - 1].Passed? && r in trace[j - 1].rep.gaveUp then 1 else 0
  }

  lemma {:induction false} WindowBelowSpan(trace: seq<Record>, r: int, i: nat, j: nat)
    requires i <= j <= |trace| && forall k :: i <= k < j ==> SeenDown(trace[k], r)
    ensures StartsIn(trace, r, i, j) <= Starts(trace[..j], r)
    ensures GiveUpsIn(trace, r, i, j) <= GiveUps(trace[..j], r)
  {
    if i < j {
      WindowBelowSpan(trace, r, i, j - 1);
      assert trace[..j][..j - 1] == trace[..j - 1] && trace[..j][j - 1] == trace[j - 1];
    }
  }

  lemma {:induction false} SpanBounded(trace: seq<Record>, r: int)
    requires GoodTrace(trace)
    ensures Starts(trace, r) <= MAX_STARTS && GiveUps(trace, r) <= 1
  {
    if trace != [] {
      var init := trace[..|trace| - 1];
      assert forall k :: 0 <= k < |init| ==> init[..k] == trace[..k] && init[k] == trace[k];
      SpanBounded(init, r);
      assert GoodRecord(init, trace[|trace| - 1]);
    }
  }

  /** Some run of the operator on this system leaves this trace. */
  ghost predicate IsTrace(sys: string, trace: seq<Record>) {
    exists start, steps :: Run(sys, start, steps).trace == trace
  }

  lemma TracesAreGood(sys: string, trace: seq<Record>)
    requires IsTrace(sys, trace)
    ensures GoodTrace(trace)
  {
    var start, steps :| Run(sys, start, steps).trace == trace;
    RunInv(sys, start, steps);
  }

  lemma PrefixIsGood(trace: seq<Record>, j: nat)
    requires GoodTrace(trace) && j <= |trace|
    ensures GoodTrace(trace[..j])
  {
    forall k | 0 <= k < j ensures GoodRecord(trace[..j][..k], trace[..j][k]) {
      assert trace[..j][..k] == trace[..k];
      assert GoodRecord(trace[..k], trace[k]);
    }
  }

  /** Over every run, a stretch of passes that all see a rank down, with no operator restart among them,
      starts it at most three times and gives up on it at most once. */
  lemma AtMostThreeStarts(sys: string, trace: seq<Record>, r: int, i: nat, j: nat)
    requires IsTrace(sys, trace)
    requires i <= j <= |trace| && forall k :: i <= k < j ==> SeenDown(trace[k], r)
    ensures StartsIn(trace, r, i, j) <= 3
    ensures GiveUpsIn(trace, r, i, j) <= 1
  {
    TracesAreGood(sys, trace);
    WindowBelowSpan(trace, r, i, j);
    PrefixIsGood(trace, j);
    SpanBounded(trace[..j], r);
  }

  lemma GoodAt(trace: seq<Record>, j: nat)
    requires GoodTrace(trace) && j < |trace|
    ensures GoodRecord(trace[..j], trace[j])
    ensures trace[..j] + [trace[j]] == trace[..j + 1]
  {}

  /** The start after n earlier ones comes no sooner than the grace period and n intervals after the rank
      first was a candidate, and there never is one after three. */
  lemma StartsAreSpaced(sys: string, trace: seq<Record>, r: int, j: nat)
    requires IsTrace(sys, trace) && j < |trace| && StartedIn(trace[j], r)
    ensures var n := Starts(trace[..j], r);
      var since := Since(trace[..j + 1], r);
      n < 3 && since.Some? && trace[j].rep.now >= since.value + 120_000_000_000 + n * 300_000_000_000
  {
    TracesAreGood(sys, trace);
    GoodAt(trace, j);
    assert GoodStart(trace[..j], trace[j], r);
  }

  /** While the membership lists each rank once, the give-up event comes after exactly three starts. */
  lemma GiveUpAfterThree(sys: string, trace: seq<Record>, r: int, j: nat)
    requires IsTrace(sys, trace) && j < |trace| && trace[j].Passed? && r in trace[j].rep.gaveUp
    requires RanksListedOnce(trace[..j + 1])
    ensures Starts(trace[..j], r) == 3
  {
    TracesAreGood(sys, trace);
    GoodAt(trace, j);
    assert GoodGiveUp(trace[..j], trace[j], r);
  }

  lemma {:induction false} AnsweredBetween(trace: seq<Record>, i: nat, j: nat)
    requires i < j <= |trace| && trace[i].Passed? && trace[i].rep.due != []
    requires (forall k :: i <= k < j ==> trace[k].Passed?) && Outstanding(trace[..j]) == []
    ensures exists k :: i <= k < j && trace[k].rep.answer.Some?
  {
    assert trace[..j][..j - 1] == trace[..j - 1] && trace[..j][j - 1] == trace[j - 1];
    if trace[j - 1].rep.answer.None? {
      assert i < j - 1;
      AnsweredBetween(trace, i, j - 1);
    }
  }

  /** At most one batch is in flight: between two batches of one operator lifetime a start result was read
      and taken for that of the first; whose it is, `EngineAnswers` says. */
  lemma OneBatchInFlight(sys: string, trace: seq<Record>, i: nat, j: nat)
    requires IsTrace(sys, trace)
    requires i < j < |trace| && (forall k :: i <= k <= j ==> trace[k].Passed?)
    requires trace[i].rep.due != [] && trace[j].rep.due != []
    ensures exists k :: i <= k < j && trace[k].rep.answer.Some?
  {
    TracesAreGood(sys, trace);
    GoodAt(trace, j);
    AnsweredBetween(trace, i, j);
  }

  /** A server pod is deleted only by a pass that reads a timed-out or per-rank-failed start, only on a node
      with a rank of the batch the result is taken for, and never on a node where a rank outside that batch is
      joined. */
  lemma PodDeletesAreSafe(sys: string, trace: seq<Record>, j: nat, p: Pod)
    requires IsTrace(sys, trace) && j < |trace| && trace[j].Passed? && p in trace[j].rep.deleted
    requires ValidRanks(Current(trace[..j], trace[j].rep))
    ensures trace[j].rep.answer.Some?
    ensures var answer := trace[j].rep.answer.value;
      answer == DmgError(true) || (answer.RankResults? && true in answer.errored)
    ensures MayDelete(trace[j].rep.members, Current(trace[..j], trace[j].rep), p)
  {
    TracesAreGood(sys, trace);
    GoodAt(trace, j);
  }

  // ---- the requeue delay

  /** The tracks of a reachable state: a track that was started already is past its grace period. */
  ghost predicate Settled(t: Track, now: int) {
    t.downSince <= now && (t.tries > 0 ==> t.downSince + GRACE <= t.lastTry <= now)
  }

  lemma WaitIsExact(t: Track, now: int, d: nat)
    requires Settled(t, now) && !Spent(t) && !IsDue(t, now)
    ensures Wait(t, now) > 0
    ensures IsDue(t, now + d) <==> d >= Wait(t, now)
  {}

  lemma {:induction false} NextIsLeast(tracks: map<int, Track>, cands: seq<int>, now: int)
    requires forall r :: r in cands ==> r in tracks && Settled(tracks[r], now) && !IsDue(tracks[r], now)
    ensures var next := NextIn(tracks, cands, now);
      && next >= 0
      && (next == 0 <==> forall r :: r in cands ==> Spent(tracks[r]))
      && (forall r :: r in cands && !Spent(tracks[r]) ==> next <= Wait(tracks[r], now))
      && (next > 0 ==> exists r :: r in cands && !Spent(tracks[r]) && Wait(tracks[r], now) == next)
  {
    if cands != [] {
      var init := cands[..|cands| - 1];
      var c := cands[|cands| - 1];
      assert c in cands;
      assert forall r :: r in cands <==> r in init || r == c;
      NextIsLeast(tracks, init, now);
      var rest := NextIn(tracks, init, now);
      if !Spent(tracks[c]) {
        WaitIsExact(tracks[c], now, 0);
        if 0 < rest < Wait(tracks[c], now) {
          var r :| r in init && !Spent(tracks[r]) && Wait(tracks[r], now) == rest;
          assert r in cands;
        }
      } else if rest > 0 {
        var r :| r in init && !Spent(tracks[r]) && Wait(tracks[r], now) == rest;
        assert r in cands;
      }
    }
  }

  lemma {:induction false} NoneDue(tracks: map<int, Track>, cands: seq<int>, now: int)
    requires forall x :: x in cands ==> x in tracks
    ensures NewBatch(tracks, cands, now).due == [] <==> forall r :: r in cands ==> !IsDue(tracks[r], now)
  {
    var p := NewBatch(tracks, cands, now);
    forall r ensures r in p.due <==> r in cands && IsDue(tracks[r], now) { BatchOnRank(tracks, cands, now, r); }
    if p.due != [] { assert p.due[0] in p.due; }
  }

  /** The delay a pass asks for is exact: with the membership unchanged, a batch is due d later if and
      only if d has reached it; and it asks for none only when every candidate is given up on. */
  lemma DelayIsExact(tracks: map<int, Track>, cands: seq<int>, now: int, d: nat)
    requires forall r :: r in cands ==> r in tracks && Settled(tracks[r], now)
    requires NewBatch(tracks, cands, now).due == []
    ensures var p := NewBatch(tracks, cands, now);
      && (forall r :: r in cands ==> r in p.tracks)
      && (p.next == 0 <==> forall r :: r in cands ==> Spent(p.tracks[r]))
      && (p.next > 0 ==> (NewBatch(p.tracks, cands, now + d).due != [] <==> d >= p.next))
  {
    var p := NewBatch(tracks, cands, now);
    NoneDue(tracks, cands, now);
    NextIsLeast(tracks, cands, now);
    forall r | r in cands
      ensures r in p.tracks && (IsDue(p.tracks[r], now + d) <==> IsDue(tracks[r], now + d))
      ensures Spent(p.tracks[r]) == Spent(tracks[r])
    {
      BatchOnRank(tracks, cands, now, r);
      assert multiset(p.due)[r] == 0;
    }
    NoneDue(p.tracks, cands, now + d);
    if p.next > 0 {
      var least :| least in cands && !Spent(tracks[least]) && Wait(tracks[least], now) == p.next;
      WaitIsExact(tracks[least], now, d);
      forall r | r in cands && IsDue(tracks[r], now + d) ensures d >= p.next {
        WaitIsExact(tracks[r], now, d);
      }
    }
  }

  ghost predicate Reachable(sys: string, w: World) {
    exists start, steps :: Run(sys, start, steps) == w
  }

  lemma InvSettles(w: World, i: Input, r: int)
    requires Inv(w) && w.clock <= i.now
    requires r in Refresh(w.mem.tracks, CandidatesOf(i), DownOf(i.members), i.now)
    ensures Settled(Refresh(w.mem.tracks, CandidatesOf(i), DownOf(i.members), i.now)[r], i.now)
  {
    assert TrackInv(w.trace, w.mem.tracks, w.clock, r);
  }

  lemma ReachableInv(sys: string, w: World)
    requires Reachable(sys, w)
    ensures Inv(w)
  {
    var start, steps :| Run(sys, start, steps) == w;
    RunInv(sys, start, steps);
  }

  lemma SettledWhenReachable(sys: string, w: World, i: Input)
    requires Reachable(sys, w) && w.clock <= i.now
    ensures var tracks := Refresh(w.mem.tracks, CandidatesOf(i), DownOf(i.members), i.now);
      && (forall r :: r in CandidatesOf(i) ==> r in tracks)
      && (forall r :: r in tracks ==> Settled(tracks[r], i.now))
  {
    hide Run, Reachable;
    ReachableInv(sys, w);
    CandidatesAreDown(i);
    var tracks := Refresh(w.mem.tracks, CandidatesOf(i), DownOf(i.members), i.now);
    forall r | r in tracks ensures Settled(tracks[r], i.now) { InvSettles(w, i, r); }
  }

  /** In every reachable state the delay of an idle pass is exact: with the membership unchanged, the next
      batch is due d later if and only if d has reached the delay; and there is no delay exactly when
      every candidate had all its starts. */
  lemma IdlePassWakesInTime(sys: string, w: World, i: Input, d: nat)
    requires Reachable(sys, w) && w.clock <= i.now && w.mem.running == "" && PlanOf(w.mem, i).due == []
    ensures var p := PlanOf(w.mem, i);
      var cands := CandidatesOf(i);
      && (forall r :: r in cands ==> r in p.tracks)
      && (p.next == 0 <==> forall r :: r in cands ==> Spent(p.tracks[r]))
      && (p.next > 0 ==> (NewBatch(p.tracks, cands, i.now + d).due != [] <==> d >= p.next))
  {
    hide Run, Reachable, Settled, NewBatch, Refresh, Spent, CandidatesOf, DownOf;
    SettledWhenReachable(sys, w, i);
    DelayIsExact(Refresh(w.mem.tracks, CandidatesOf(i), DownOf(i.members), i.now), CandidatesOf(i), i.now, d);
  }
}
