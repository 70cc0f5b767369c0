/** Restarting dead engines whose server pod is fine (internal/controller/daossystem_enginerestart.go). */
module EngineRestart {
  import opened Text
  import opened Collections
  import opened RankSet
  import opened DaosStatus
  import opened Mailbox

  const GRACE: int := 2 * MINUTE
  const INTERVAL: int := 5 * MINUTE
  const MAX_STARTS: nat := 3
  const JOB_SUFFIX := "-dmg-enginestart"

  datatype Track = Track(downSince: int, lastTry: int, tries: nat, gaveUp: bool)

  /** A finished `dmg system start`: nothing readable, a dmg error, a payload that does not decode, or
      one result per rank. */
  datatype StartAnswer = Unreadable | DmgError(timedOut: bool) | BadPayload | RankResults(errored: seq<bool>)

  /** The start got nowhere, or not everywhere: server pods may be deleted for it. */
  predicate Stuck(a: StartAnswer) {
    a == DmgError(true) || (a.RankResults? && true in a.errored)
  }

  /** What the operator remembers of one system; running is the text of the ranks last
      asked to start, "" for none. */
  datatype Memory = Memory(tracks: map<int, Track>, running: string)

  /** What one pass sees. `later` is the clock when a finished batch is handled. */
  datatype Input = Input(
    now: int, later: int, enabled: bool, known: bool, opRequested: bool,
    nodes: seq<NodeConfig>, members: seq<RankStatus>,
    fault: Fault, pods: seq<Pod>, podListFails: bool, undeletable: set<string>)

  /** What a pass found and did: the batch it chose, the start result it read and the Job that came from (its
      number and arguments), and the mailbox it found (the next number, and whether a start Job was open). */
  datatype Report = Report(
    now: int, members: seq<RankStatus>, cands: seq<int>, due: seq<int>, gaveUp: seq<int>,
    next: int, answer: Option<StartAnswer>, deleted: seq<Pod>, failed: bool, job: Option<(nat, seq<string>)>,
    nextId: nat, startOpen: bool)

  // ---- candidates

  /** The last NodeConfig of a node decides, as in the source's map. */
  predicate ServerUp(nodes: seq<NodeConfig>, node: string) {
    nodes != [] &&
    var nc := nodes[|nodes| - 1];
    if nc.node == node then nc.workload && nc.serverReady else ServerUp(nodes[..|nodes| - 1], node)
  }

  predicate MayHaveDied(state: string) { state == "errored" || state == "excluded" }

  function Filtered(members: seq<RankStatus>, nodes: seq<NodeConfig>): (out: seq<int>)
    ensures forall r :: r in out <==> exists k :: 0 <= k < |members| && members[k].rank == r
                                                  && MayHaveDied(members[k].state) && ServerUp(nodes, members[k].node)
  {
    if members == [] then []
    else
      var init := members[..|members| - 1];
      var m := members[|members| - 1];
      var rest := Filtered(init, nodes);
      assert forall k :: 0 <= k < |init| ==> init[k] == members[k];
      if MayHaveDied(m.state) && ServerUp(nodes, m.node) then rest + [m.rank] else rest
  }

  function CandidatesOf(i: Input): seq<int> {
    if !i.enabled || !i.known || i.opRequested then [] else Filtered(i.members, i.nodes)
  }

  /** Ranks with a row that is not joined. */
  function DownOf(members: seq<RankStatus>): set<int> {
    set k | 0 <= k < |members| && members[k].state != JOINED :: members[k].rank
  }

  lemma CandidatesAreDown(i: Input)
    ensures forall r :: r in CandidatesOf(i) ==> r in DownOf(i.members)
  {
    forall r | r in CandidatesOf(i) ensures r in DownOf(i.members) {
      var k :| 0 <= k < |i.members| && i.members[k].rank == r && MayHaveDied(i.members[k].state);
      assert i.members[k].state != JOINED;
    }
  }

  // ---- planning a batch

  /** Candidates without a track get a fresh one; only ranks with a row that is not joined keep theirs. */
  function Refresh(tracks: map<int, Track>, cands: seq<int>, down: set<int>, now: int): map<int, Track> {
    map r | r in (tracks.Keys + Elements(cands)) * down :: if r in tracks then tracks[r] else Track(now, 0, 0, false)
  }

  /** How long until the track is due: 0 when it is. */
  function Wait(t: Track, now: int): int {
    if now - t.downSince < GRACE then GRACE - (now - t.downSince)
    else if t.tries > 0 && now - t.lastTry < INTERVAL then INTERVAL - (now - t.lastTry)
    else 0
  }

  predicate Spent(t: Track) { t.tries >= MAX_STARTS }

  predicate IsDue(t: Track, now: int) { !Spent(t) && Wait(t, now) == 0 }

  function DueIn(tracks: map<int, Track>, cands: seq<int>, now: int): (due: seq<int>)
    requires forall r :: r in cands ==> r in tracks
  {
    if cands == [] then []
    else
      var c := cands[|cands| - 1];
      DueIn(tracks, cands[..|cands| - 1], now) + if IsDue(tracks[c], now) then [c] else []
  }

  function GivenUpIn(tracks: map<int, Track>, cands: seq<int>): (out: seq<int>)
    requires forall r :: r in cands ==> r in tracks
  {
    if cands == [] then []
    else
      var c := cands[|cands| - 1];
      var rest := GivenUpIn(tracks, cands[..|cands| - 1]);
      if Spent(tracks[c]) && !tracks[c].gaveUp && c !in rest then rest + [c] else rest
  }

  lemma LastOrInit(s: seq<int>, r: int)
    requires s != []
    ensures r in s <==> r in s[..|s| - 1] || r == s[|s| - 1]
  {
    assert s == s[..|s| - 1] + [s[|s| - 1]];
  }

  lemma {:induction false} DueInMember(tracks: map<int, Track>, cands: seq<int>, now: int, r: int)
    requires forall x :: x in cands ==> x in tracks
    ensures r in DueIn(tracks, cands, now) <==> r in cands && IsDue(tracks[r], now)
  {
    if cands != [] {
      DueInMember(tracks, cands[..|cands| - 1], now, r);
      LastOrInit(cands, r);
    }
  }

  lemma {:induction false} GivenUpMember(tracks: map<int, Track>, cands: seq<int>, r: int)
    requires forall x :: x in cands ==> x in tracks
    ensures r in GivenUpIn(tracks, cands) <==> r in cands && Spent(tracks[r]) && !tracks[r].gaveUp
  {
    if cands != [] {
      GivenUpMember(tracks, cands[..|cands| - 1], r);
      LastOrInit(cands, r);
    }
  }

  lemma {:induction false} GivenUpOnce(tracks: map<int, Track>, cands: seq<int>)
    requires forall r :: r in cands ==> r in tracks
    ensures NoDuplicates(GivenUpIn(tracks, cands))
  {
    if cands != [] { GivenUpOnce(tracks, cands[..|cands| - 1]); }
  }

  function NextIn(tracks: map<int, Track>, cands: seq<int>, now: int): int
    requires forall r :: r in cands ==> r in tracks
  {
    if cands == [] then 0
    else
      var c := cands[|cands| - 1];
      var rest := NextIn(tracks, cands[..|cands| - 1], now);
      if Spent(tracks[c]) then rest else MinRequeue(rest, Wait(tracks[c], now))
  }

  function Mark(tracks: map<int, Track>, gaveUp: seq<int>): map<int, Track> {
    map r | r in tracks :: if r in gaveUp then tracks[r].(gaveUp := true) else tracks[r]
  }

  /** A chosen batch counts as a start of each of its ranks; a rank the membership lists twice counts
      twice. */
  function Charge(tracks: map<int, Track>, due: seq<int>, now: int): map<int, Track> {
    map r | r in tracks :: Charged(tracks[r], due, r, now)
  }

  function Charged(t: Track, due: seq<int>, r: int, now: int): Track {
    if r in due then t.(tries := t.tries + multiset(due)[r], lastTry := now) else t
  }

  datatype Plan = Plan(tracks: map<int, Track>, running: string, due: seq<int>, gaveUp: seq<int>, next: int)

  /** The next batch when nothing is in flight. */
  function NewBatch(tracks: map<int, Track>, cands: seq<int>, now: int): Plan
    requires forall r :: r in cands ==> r in tracks
  {
    var due := SortInts(DueIn(tracks, cands, now));
    var gaveUp := GivenUpIn(tracks, cands);
    Plan(Charge(Mark(tracks, gaveUp), due, now), if due == [] then "" else RankListText(due),
         due, gaveUp, NextIn(tracks, cands, now))
  }

  function PlanOf(m: Memory, i: Input): Plan {
    CandidatesAreDown(i);
    var cands := CandidatesOf(i);
    var tracks := Refresh(m.tracks, cands, DownOf(i.members), i.now);
    if m.running != "" then Plan(tracks, m.running, [], [], 0) else NewBatch(tracks, cands, i.now)
  }

  /** The text of the Job in flight: unchanged without a new batch, and not empty with one. */
  lemma PlanRunning(m: Memory, i: Input)
    ensures PlanOf(m, i).due == [] ==> PlanOf(m, i).running == m.running
    ensures PlanOf(m, i).due != [] ==> m.running == "" && PlanOf(m, i).running != ""
  {
    var p := PlanOf(m, i);
    if p.due != [] { RankListNotEmpty(p.due); }
  }

  // ---- the pod-delete escape

  /** The nodes with a row in want, each once. */
  function NodesOf(members: seq<RankStatus>, want: set<int>): seq<string> {
    if members == [] then []
    else
      var m := members[|members| - 1];
      var rest := NodesOf(members[..|members| - 1], want);
      if m.rank in want && m.node !in rest then rest + [m.node] else rest
  }

  predicate HasRankIn(members: seq<RankStatus>, want: set<int>, node: string) {
    exists k :: 0 <= k < |members| && members[k].rank in want && members[k].node == node
  }

  lemma {:induction false} NodesOfMember(members: seq<RankStatus>, want: set<int>, node: string)
    ensures node in NodesOf(members, want) <==> HasRankIn(members, want, node)
  {
    if members != [] {
      var init := members[..|members| - 1];
      NodesOfMember(init, want, node);
      assert forall k :: 0 <= k < |init| ==> init[k] == members[k];
    }
  }

  lemma {:induction false} NodesOfOnce(members: seq<RankStatus>, want: set<int>)
    ensures NoDuplicates(NodesOf(members, want))
  {
    if members != [] { NodesOfOnce(members[..|members| - 1], want); }
  }

  predicate HealthyElsewhere(members: seq<RankStatus>, want: set<int>, node: string) {
    exists k :: 0 <= k < |members| && members[k].node == node && members[k].rank !in want && members[k].state == JOINED
  }

  function RanksOn(members: seq<RankStatus>, want: set<int>, node: string): set<int> {
    set k | 0 <= k < |members| && members[k].node == node && members[k].rank in want :: members[k].rank
  }

  /** Deleting the pods of one node in order, until one delete fails. */
  function DeletePods(pods: seq<Pod>, node: string, undeletable: set<string>): (r: (seq<Pod>, bool)) {
    if pods == [] then ([], true)
    else
      var p := pods[0];
      if p.node != node || p.deleting then DeletePods(pods[1..], node, undeletable)
      else if p.name in undeletable then ([], false)
      else
        var (rest, ok) := DeletePods(pods[1..], node, undeletable);
        ([p] + rest, ok)
  }

  function Touch(tracks: map<int, Track>, ranks: set<int>, later: int): map<int, Track> {
    map r | r in tracks :: if r in ranks then tracks[r].(lastTry := later) else tracks[r]
  }

  function RestartNodes(tracks: map<int, Track>, nodes: seq<string>, want: set<int>, i: Input):
      (r: (map<int, Track>, seq<Pod>, bool))
  {
    if nodes == [] then (tracks, [], true)
    else if HealthyElsewhere(i.members, want, nodes[0]) then RestartNodes(tracks, nodes[1..], want, i)
    else
      var (gone, ok) := DeletePods(i.pods, nodes[0], i.undeletable);
      if !ok then (tracks, gone, false)
      else
        var touched := Touch(tracks, RanksOn(i.members, want, nodes[0]), i.later);
        var (t, rest, all) := RestartNodes(touched, nodes[1..], want, i);
        (t, gone + rest, all)
  }

  /** `restartStuckServers`; the flag is false when the API failed on the way. */
  function Escape(tracks: map<int, Track>, text: string, i: Input): (r: (map<int, Track>, seq<Pod>, bool)) {
    if i.podListFails then (tracks, [], false)
    else
      var want := RankSetOf(text);
      RestartNodes(tracks, SortStrings(NodesOf(i.members, want)), want, i)
  }

  // ---- one pass

  function StartArgs(ranks: string): seq<string> { ["system", "start", "--ranks=" + ranks] }

  function Aftermath(p: Plan, answer: StartAnswer, i: Input): (r: (map<int, Track>, seq<Pod>, bool)) {
    if Stuck(answer) then Escape(p.tracks, p.running, i) else (p.tracks, [], true)
  }

  /** What a pass found, before it asks for the Job. */
  function Idle(p: Plan, b: Box<StartAnswer>, sys: string, i: Input): Report {
    Report(i.now, i.members, CandidatesOf(i), p.due, p.gaveUp, p.next, None, [], false, None, b.nextId,
           b.Open(sys + JOB_SUFFIX))
  }

  function Answered(rep: Report, id: nat, args: seq<string>, answer: StartAnswer, deleted: seq<Pod>, ok: bool): Report {
    rep.(next := if ok then 10 * SECOND else 0, answer := Some(answer), deleted := deleted, failed := !ok,
         job := Some((id, args)))
  }

  /** The rest of a pass, once the batch is planned: run or poll its Job and act on the result. */
  function Conclude(p: Plan, b: Box<StartAnswer>, sys: string, i: Input): (r: (Memory, Box<StartAnswer>, Report)) {
    var rep := Idle(p, b, sys, i);
    if p.running == "" then (Memory(p.tracks, ""), b, rep)
    else
      var (b', out) := RunJob(b, sys + JOB_SUFFIX, StartArgs(p.running), i.fault);
      match out
      case ApiError => (Memory(p.tracks, p.running), b', rep.(next := 0, failed := true))
      case Pending => (Memory(p.tracks, p.running), b', rep.(next := 10 * SECOND))
      case Done(id, args, answer) =>
        var (tracks, deleted, ok) := Aftermath(p, answer, i);
        (Memory(tracks, ""), b', Answered(rep, id, args, answer, deleted, ok))
  }

  function Pass(m: Memory, b: Box<StartAnswer>, sys: string, i: Input): (r: (Memory, Box<StartAnswer>, Report)) {
    Conclude(PlanOf(m, i), b, sys, i)
  }

  // ---- the controller

  lemma MarkExt(t: map<int, Track>, before: map<int, Track>, gaveUp: seq<int>)
    requires forall r :: r in t <==> r in before
    requires forall r :: r in t ==> t[r] == if r in gaveUp then before[r].(gaveUp := true) else before[r]
    ensures t == Mark(before, gaveUp)
  {
    var m := Mark(before, gaveUp);
    assert forall r :: r in t <==> r in m;
    assert forall r :: r in m ==> m[r] == t[r];
  }

  lemma ChargeExt(t: map<int, Track>, before: map<int, Track>, due: seq<int>, now: int)
    requires forall r :: r in t <==> r in before
    requires forall r :: r in t ==> t[r] == Charged(before[r], due, r, now)
    ensures t == Charge(before, due, now)
  {
    var m := Charge(before, due, now);
    assert forall r :: r in t <==> r in m;
    assert forall r :: r in m ==> m[r] == t[r];
  }

  lemma TouchExt(t: map<int, Track>, before: map<int, Track>, order: seq<int>, ranks: set<int>, later: int)
    requires forall r :: r in order <==> r in ranks
    requires forall r :: r in t <==> r in before
    requires forall r :: r in t ==> t[r] == if r in order then before[r].(lastTry := later) else before[r]
    ensures t == Touch(before, ranks, later)
  {
    var m := Touch(before, ranks, later);
    assert forall r :: r in t <==> r in m;
    assert forall r :: r in m ==> m[r] == t[r];
  }

  lemma RefreshExt(t: map<int, Track>, before: map<int, Track>, cands: seq<int>, down: set<int>, now: int)
    requires forall r :: r in t <==> (r in before || r in cands) && r in down
    requires forall r :: r in t ==> t[r] == if r in before then before[r] else Track(now, 0, 0, false)
    ensures t == Refresh(before, cands, down, now)
  {
    var m := Refresh(before, cands, down, now);
    assert forall r :: r in t <==> r in m;
    assert forall r :: r in m ==> m[r] == t[r];
  }

  method Candidates(i: Input) returns (out: seq<int>)
    ensures out == CandidatesOf(i)
  {
    out := [];
    if !i.enabled || !i.known { return; }
    if i.opRequested { return; }
    var ready: map<string, bool> := map[];
    for k := 0 to |i.nodes|
      invariant forall n :: ServerUp(i.nodes[..k], n) == (n in ready && ready[n])
    {
      assert i.nodes[..k + 1][..k] == i.nodes[..k];
      ready := ready[i.nodes[k].node := i.nodes[k].workload && i.nodes[k].serverReady];
    }
    assert i.nodes[..|i.nodes|] == i.nodes;
    for k := 0 to |i.members|
      invariant out == Filtered(i.members[..k], i.nodes)
    {
      assert i.members[..k + 1][..k] == i.members[..k];
      var m := i.members[k];
      if MayHaveDied(m.state) && m.node in ready && ready[m.node] { out := out + [m.rank]; }
    }
    assert i.members[..|i.members|] == i.members;
  }

  method StillDown(members: seq<RankStatus>) returns (down: set<int>)
    ensures down == DownOf(members)
  {
    down := {};
    for k := 0 to |members|
      invariant down == set j | 0 <= j < k && members[j].state != JOINED :: members[j].rank
    {
      if members[k].state != JOINED { down := down + {members[k].rank}; }
    }
  }

  method AddTracks(before: map<int, Track>, cands: seq<int>, now: int) returns (tracks: map<int, Track>)
    ensures forall r :: r in tracks <==> r in before || r in cands
    ensures forall r :: r in tracks ==> tracks[r] == if r in before then before[r] else Track(now, 0, 0, false)
  {
    tracks := before;
    for k := 0 to |cands|
      invariant forall r :: r in tracks <==> r in before || r in cands[..k]
      invariant forall r :: r in tracks ==> tracks[r] == if r in before then before[r] else Track(now, 0, 0, false)
    {
      var rank := cands[k];
      assert cands[..k + 1] == cands[..k] + [rank];
      if rank !in tracks { tracks := tracks[rank := Track(now, 0, 0, false)]; }
    }
    assert cands[..|cands|] == cands;
  }

  method DropTracks(before: map<int, Track>, down: set<int>) returns (tracks: map<int, Track>)
    ensures forall r :: r in tracks <==> r in before && r in down
    ensures forall r :: r in tracks ==> tracks[r] == before[r]
  {
    tracks := before;
    var order := Walk(before.Keys);
    for k := 0 to |order|
      invariant forall r :: r in tracks <==> r in before && (r in down || r !in order[..k])
      invariant forall r :: r in tracks ==> tracks[r] == before[r]
    {
      if order[k] !in down { tracks := tracks - {order[k]}; }
    }
    assert order[..|order|] == order;
    assert forall r :: r in before ==> r in order;
  }

  /** One walk over the candidates: who is due, who is given up on, and how long until the next. */
  method Choose(before: map<int, Track>, cands: seq<int>, now: int)
    returns (tracks: map<int, Track>, due: seq<int>, gaveUp: seq<int>, next: int)
    requires forall r :: r in cands ==> r in before
    ensures due == DueIn(before, cands, now)
    ensures gaveUp == GivenUpIn(before, cands)
    ensures next == NextIn(before, cands, now)
    ensures tracks == Mark(before, gaveUp)
  {
    tracks, due, gaveUp, next := before, [], [], 0;
    for k := 0 to |cands|
      invariant forall r :: r in cands[..k] ==> r in before
      invariant forall r :: r in tracks <==> r in before
      invariant due == DueIn(before, cands[..k], now)
      invariant gaveUp == GivenUpIn(before, cands[..k])
      invariant next == NextIn(before, cands[..k], now)
      invariant forall r :: r in tracks ==> tracks[r] == if r in gaveUp then before[r].(gaveUp := true) else before[r]
    {
      assert cands[..k + 1][..k] == cands[..k];
      var rank := cands[k];
      assert rank in cands;
      var t := tracks[rank];
      if t.tries >= MAX_STARTS {
        if !t.gaveUp {
          tracks := tracks[rank := t.(gaveUp := true)];
          gaveUp := gaveUp + [rank];
        }
      } else if now - t.downSince < GRACE {
        next := MinRequeue(next, GRACE - (now - t.downSince));
      } else if t.tries > 0 && now - t.lastTry < INTERVAL {
        next := MinRequeue(next, INTERVAL - (now - t.lastTry));
      } else {
        due := due + [rank];
      }
    }
    assert cands[..|cands|] == cands;
    MarkExt(tracks, before, gaveUp);
  }

  method CountStarts(before: map<int, Track>, due: seq<int>, now: int) returns (tracks: map<int, Track>)
    requires forall r :: r in due ==> r in before
    ensures tracks == Charge(before, due, now)
  {
    tracks := before;
    for k := 0 to |due|
      invariant forall r :: r in tracks <==> r in before
      invariant forall r :: r in tracks ==> tracks[r] == Charged(before[r], due[..k], r, now)
    {
      var rank := due[k];
      assert rank in due;
      assert due[..k + 1] == due[..k] + [rank];
      var t := tracks[rank];
      tracks := tracks[rank := t.(tries := t.tries + 1, lastTry := now)];
    }
    assert due[..|due|] == due;
    ChargeExt(tracks, before, due, now);
  }

  /** The two maps `restartStuckServers` fills from the membership. */
  method Classify(members: seq<RankStatus>, want: set<int>) returns (stuck: map<string, set<int>>, healthy: set<string>)
    ensures forall n :: n in stuck <==> HasRankIn(members, want, n)
    ensures forall n :: n in stuck ==> stuck[n] == RanksOn(members, want, n)
    ensures forall n :: n in healthy <==> HealthyElsewhere(members, want, n)
  {
    stuck, healthy := map[], {};
    for k := 0 to |members|
      invariant forall n :: n in stuck <==> exists j :: 0 <= j < k && members[j].rank in want && members[j].node == n
      invariant forall n :: n in stuck ==>
        stuck[n] == set j | 0 <= j < k && members[j].node == n && members[j].rank in want :: members[j].rank
      invariant forall n :: n in healthy <==>
        exists j :: 0 <= j < k && members[j].node == n && members[j].rank !in want && members[j].state == JOINED
    {
      var m := members[k];
      if m.rank in want {
        var sofar := if m.node in stuck then stuck[m.node] else {};
        stuck := stuck[m.node := sofar + {m.rank}];
      } else if m.state == JOINED {
        healthy := healthy + {m.node};
      }
    }
  }

  method DeletePodsOf(pods: seq<Pod>, node: string, undeletable: set<string>) returns (gone: seq<Pod>, ok: bool)
    ensures (gone, ok) == DeletePods(pods, node, undeletable)
  {
    gone, ok := [], true;
    var k := 0;
    assert pods[0..] == pods;
    while k < |pods|
      invariant k <= |pods| && ok
      invariant DeletePods(pods, node, undeletable).0 == gone + DeletePods(pods[k..], node, undeletable).0
      invariant DeletePods(pods, node, undeletable).1 == DeletePods(pods[k..], node, undeletable).1
    {
      var p := pods[k];
      assert pods[k..][1..] == pods[k + 1..];
      if p.node == node && !p.deleting {
        if p.name in undeletable {
          ok := false;
          assert gone + [] == gone;
          return;
        }
        gone := gone + [p];
      }
      k := k + 1;
    }
    assert pods[k..] == [] && gone + [] == gone;
  }

  /** Per node, in the order given: delete its pods unless a rank outside the batch is joined there. */
  method RestartEach(before: map<int, Track>, nodes: seq<string>, stuck: map<string, set<int>>, healthy: set<string>,
                     ghost want: set<int>, i: Input)
    returns (tracks: map<int, Track>, deleted: seq<Pod>, ok: bool)
    requires forall n :: n in nodes ==> n in stuck && stuck[n] == RanksOn(i.members, want, n)
    requires forall n :: n in healthy <==> HealthyElsewhere(i.members, want, n)
    ensures tracks == RestartNodes(before, nodes, want, i).0
    ensures deleted == RestartNodes(before, nodes, want, i).1
    ensures ok == RestartNodes(before, nodes, want, i).2
    decreases |nodes|
  {
    if nodes == [] { return before, [], true; }
    var node := nodes[0];
    if node in healthy {
      tracks, deleted, ok := RestartEach(before, nodes[1..], stuck, healthy, want, i);
      return;
    }
    var gone, all := DeletePodsOf(i.pods, node, i.undeletable);
    if !all { return before, gone, false; }
    tracks := TouchRanks(before, stuck[node], i.later);
    tracks, deleted, ok := RestartEach(tracks, nodes[1..], stuck, healthy, want, i);
    deleted := gone + deleted;
  }

  /** `restartStuckServers`. */
  method RestartStuckServers(before: map<int, Track>, text: string, i: Input)
    returns (tracks: map<int, Track>, deleted: seq<Pod>, ok: bool)
    ensures (tracks, deleted, ok) == Escape(before, text, i)
  {
    var want := ParseRankSet(text);
    var stuck, healthy := Classify(i.members, want);
    if i.podListFails { return before, [], false; }
    var order := Walk(stuck.Keys);
    forall n ensures n in order <==> n in NodesOf(i.members, want) { NodesOfMember(i.members, want, n); }
    NodesOfOnce(i.members, want);
    SortIgnoresWalkOrder(order, NodesOf(i.members, want));
    SortStringsSorts(order);
    tracks, deleted, ok := RestartEach(before, SortStrings(order), stuck, healthy, want, i);
  }

  method TouchRanks(before: map<int, Track>, ranks: set<int>, later: int) returns (tracks: map<int, Track>)
    ensures tracks == Touch(before, ranks, later)
  {
    tracks := before;
    var order := Walk(ranks);
    for k := 0 to |order|
      invariant forall r :: r in tracks <==> r in before
      invariant forall r :: r in tracks ==>
        tracks[r] == if r in order[..k] then before[r].(lastTry := later) else before[r]
    {
      var rank := order[k];
      assert order[..k + 1] == order[..k] + [rank];
      if rank in tracks { tracks := tracks[rank := tracks[rank].(lastTry := later)]; }
    }
    assert order[..|order|] == order;
    TouchExt(tracks, before, order, ranks, later);
  }

  /** The part of a pass done under the lock: refresh the tracks and, with nothing in flight, choose and
      count the next batch. */
  method PlanBatch(m: Memory, i: Input, cands: seq<int>) returns (p: Plan)
    requires cands == CandidatesOf(i)
    ensures p == PlanOf(m, i)
  {
    CandidatesAreDown(i);
    var down := StillDown(i.members);
    var added := AddTracks(m.tracks, cands, i.now);
    var refreshed := DropTracks(added, down);
    RefreshExt(refreshed, m.tracks, cands, down, i.now);
    if m.running != "" { return Plan(refreshed, m.running, [], [], 0); }
    var tracks, due, gaveUp, next := Choose(refreshed, cands, i.now);
    SortIntsSorts(due);
    due := SortInts(due);
    forall r | r in due ensures r in tracks { DueInMember(refreshed, cands, i.now, r); }
    tracks := CountStarts(tracks, due, i.now);
    var running := "";
    if due != [] { running := RankList(due); }
    p := Plan(tracks, running, due, gaveUp, next);
  }

  /** The package-level maps and the Jobs of every system. */
  class EngineRestarts {
    var ranks: map<string, map<int, Track>>
    var running: map<string, string>
    var box: Box<StartAnswer>

    ghost function View(sys: string): Memory
      reads this
    {
      Memory(if sys in ranks then ranks[sys] else map[], if sys in running then running[sys] else "")
    }

    constructor ()
      ensures forall sys :: View(sys) == Memory(map[], "")
      ensures box == Box(map[], 0)
    {
      ranks, running, box := map[], map[], Box(map[], 0);
    }

    /** The batch came back: nothing is in flight any more, and a stuck one may cost its nodes their pods. */
    method Settle(sys: string, p: Plan, answer: StartAnswer, i: Input) returns (deleted: seq<Pod>, ok: bool)
      requires View(sys) == Memory(p.tracks, p.running)
      modifies this
      ensures View(sys) == Memory(Aftermath(p, answer, i).0, "") && box == old(box)
      ensures deleted == Aftermath(p, answer, i).1 && ok == Aftermath(p, answer, i).2
      ensures forall other :: other != sys ==> View(other) == old(View(other))
    {
      hide Escape;
      running := running - {sys};
      deleted, ok := [], true;
      if Stuck(answer) {
        var tracks;
        tracks, deleted, ok := RestartStuckServers(p.tracks, p.running, i);
        ranks := ranks[sys := tracks];
      }
    }

    /** Run or poll the Job of the planned batch and act on its result. */
    method Finish(sys: string, p: Plan, i: Input, cands: seq<int>) returns (rep: Report)
      requires View(sys) == Memory(p.tracks, p.running) && cands == CandidatesOf(i)
      modifies this
      ensures (View(sys), box, rep) == Conclude(p, old(box), sys, i)
      ensures forall other :: other != sys ==> View(other) == old(View(other))
    {
      rep := Report(i.now, i.members, cands, p.due, p.gaveUp, p.next, None, [], false, None, box.nextId,
                    box.Open(sys + JOB_SUFFIX));
      if p.running == "" { return; }
      var (b, out) := RunJob(box, sys + JOB_SUFFIX, StartArgs(p.running), i.fault);
      box := b;
      match out
      case ApiError => rep := rep.(next := 0, failed := true);
      case Pending => rep := rep.(next := 10 * SECOND);
      case Done(id, args, answer) =>
        var deleted, ok := Settle(sys, p, answer, i);
        rep := Answered(rep, id, args, answer, deleted, ok);
    }

    method Load(sys: string) returns (m: Memory)
      ensures m == View(sys)
    {
      m := Memory(if sys in ranks then ranks[sys] else map[], if sys in running then running[sys] else "");
    }

    method Store(sys: string, p: Plan)
      requires p.due == [] ==> p.running == View(sys).running
      modifies this
      ensures View(sys) == Memory(p.tracks, p.running) && box == old(box)
      ensures forall other :: other != sys ==> View(other) == old(View(other))
    {
      ranks := ranks[sys := p.tracks];
      if p.due != [] { running := running[sys := p.running]; }
    }

    /** `reconcileEngineRestart`: one pass over one system; the memory of every other system stays. */
    method Reconcile(sys: string, i: Input) returns (rep: Report)
      modifies this
      ensures (View(sys), box, rep) == Pass(old(View(sys)), old(box), sys, i)
      ensures forall other :: other != sys ==> View(other) == old(View(other))
    {
      var cands := Candidates(i);
      var m := Load(sys);
      var p := PlanBatch(m, i, cands);
      PlanRunning(m, i);
      Store(sys, p);
      rep := Finish(sys, p, i, cands);
    }
  }
}
