/** When a DaosSystem calls itself Ready (internal/controller/daossystem_engines.go and step 9 of
    internal/controller/daossystem_controller.go), and why counting ranks makes that honest. */
module Readiness {
  import opened Collections
  import opened DaosStatus
  import opened Mailbox
  import opened Format
  import opened FormatRuns

  /** The EnginesReady condition: Unknown, False with its reason, or True. */
  datatype Engines = MembershipUnknown | ServersNotReady | ServersDisabled | StaleMembers | EnginesDown | AllJoined

  predicate IsUnknown(e: Engines) { e.MembershipUnknown? || e.ServersNotReady? }

  predicate IsFalse(e: Engines) { e.ServersDisabled? || e.StaleMembers? || e.EnginesDown? }

  predicate MembershipKnown(st: Status) { st.condition == True(false) }

  predicate Served(configs: seq<NodeConfig>, node: string) {
    exists nc :: nc in configs && nc.node == node && nc.workload
  }

  function JoinedOn(ranks: seq<RankStatus>, node: string): nat {
    if ranks == [] then 0
    else
      var last := ranks[|ranks| - 1];
      JoinedOn(ranks[..|ranks| - 1], node) + if last.state == JOINED && last.node == node then 1 else 0
  }

  predicate AllServed(configs: seq<NodeConfig>, ranks: seq<RankStatus>) {
    forall r :: r in ranks ==> Served(configs, r.node)
  }

  predicate EnginesUp(configs: seq<NodeConfig>, ranks: seq<RankStatus>, want: nat) {
    forall nc :: nc in configs && nc.workload && nc.serverReady ==> JoinedOn(ranks, nc.node) >= want
  }

  function EnginesOf(enabled: bool, configs: seq<NodeConfig>, st: Status, want: nat): Engines {
    if !enabled then ServersDisabled
    else if !AllServersReady(enabled, configs) then ServersNotReady
    else if !MembershipKnown(st) then MembershipUnknown
    else if !AllServed(configs, st.ranks) then StaleMembers
    else if !EnginesUp(configs, st.ranks, want) then EnginesDown
    else AllJoined
  }

  /** Step 9 of `Reconcile`. */
  predicate IsReady(enabled: bool, configs: seq<NodeConfig>, st: Status, e: Engines) {
    && enabled && AllServersReady(enabled, configs) && st.formatted && !e.StaleMembers?
    && !(st.total > 0 && st.joined == st.total && IsFalse(e))
    && st.total > 0 && st.joined >= st.total
  }

  // ---- the controller

  method StaleRanks(configs: seq<NodeConfig>, ranks: seq<RankStatus>) returns (stale: seq<RankStatus>)
    ensures stale == [] <==> AllServed(configs, ranks)
  {
    var served: set<string> := {};
    for k := 0 to |configs|
      invariant forall n :: n in served <==> Served(configs[..k], n)
    {
      var nc := configs[k];
      ghost var longer := configs[..k + 1];
      assert longer == configs[..k] + [nc];
      assert forall x :: x in longer <==> x in configs[..k] || x == nc;
      if nc.workload { served := served + {nc.node}; }
    }
    assert configs[..|configs|] == configs;
    stale := [];
    for k := 0 to |ranks|
      invariant stale == [] <==> forall j :: 0 <= j < k ==> Served(configs, ranks[j].node)
    {
      if ranks[k].node !in served { stale := stale + [ranks[k]]; }
    }
  }

  method CountJoined(ranks: seq<RankStatus>) returns (joined: map<string, nat>)
    ensures forall n :: JoinedOn(ranks, n) == if n in joined then joined[n] else 0
  {
    joined := map[];
    for k := 0 to |ranks|
      invariant forall n :: JoinedOn(ranks[..k], n) == if n in joined then joined[n] else 0
    {
      assert ranks[..k + 1][..k] == ranks[..k];
      if ranks[k].state == JOINED {
        var n := ranks[k].node;
        joined := joined[n := (if n in joined then joined[n] else 0) + 1];
      }
    }
    assert ranks[..|ranks|] == ranks;
  }

  method NodesDown(configs: seq<NodeConfig>, ranks: seq<RankStatus>, want: nat) returns (down: seq<string>)
    ensures down == [] <==> EnginesUp(configs, ranks, want)
  {
    var joined := CountJoined(ranks);
    hide JoinedOn;
    down := [];
    for k := 0 to |configs|
      invariant down == [] <==>
        forall j :: 0 <= j < k && configs[j].workload && configs[j].serverReady ==>
          JoinedOn(ranks, configs[j].node) >= want
    {
      var nc := configs[k];
      if !nc.workload || !nc.serverReady { continue; }
      var n := if nc.node in joined then joined[nc.node] else 0;
      assert n == JoinedOn(ranks, nc.node);
      if n >= want { continue; }
      down := down + [nc.node];
    }
  }

  /** `setEnginesCondition` */
  method CheckEngines(enabled: bool, configs: seq<NodeConfig>, st: Status, want: nat) returns (e: Engines)
    ensures e == EnginesOf(enabled, configs, st, want)
  {
    if !enabled { return ServersDisabled; }
    if !AllServersReady(enabled, configs) { return ServersNotReady; }
    if !MembershipKnown(st) { return MembershipUnknown; }
    var stale := StaleRanks(configs, st.ranks);
    if stale != [] { return StaleMembers; }
    var down := NodesDown(configs, st.ranks, want);
    if down != [] { return EnginesDown; }
    e := AllJoined;
  }

  // ---- counting

  /** Node configurations as the rendering loop leaves them: a server workload exactly on the rendered nodes
      of a system with servers, and each node once. */
  ghost predicate Built(enabled: bool, configs: seq<NodeConfig>) {
    && (forall nc :: nc in configs ==> (nc.workload <==> nc.ready && enabled))
    && NoDuplicates(ServedNodes(configs))
  }

  function ServedNodes(configs: seq<NodeConfig>): seq<string> {
    if configs == [] then []
    else
      var nc := configs[|configs| - 1];
      ServedNodes(configs[..|configs| - 1]) + if nc.workload then [nc.node] else []
  }

  function JoinedOnAll(ranks: seq<RankStatus>, nodes: seq<string>): nat {
    if nodes == [] then 0 else JoinedOnAll(ranks, nodes[..|nodes| - 1]) + JoinedOn(ranks, nodes[|nodes| - 1])
  }

  /** One more rank adds at most one to the sum over distinct nodes. */
  lemma {:induction false} OneMoreOnAll(ranks: seq<RankStatus>, nodes: seq<string>)
    requires ranks != [] && NoDuplicates(nodes)
    ensures var last := ranks[|ranks| - 1];
      JoinedOnAll(ranks, nodes) == JoinedOnAll(ranks[..|ranks| - 1], nodes) +
                                   if last.state == JOINED && last.node in nodes then 1 else 0
  {
    if nodes != [] {
      var init := nodes[..|nodes| - 1];
      var n := nodes[|nodes| - 1];
      assert nodes == init + [n];
      OneMoreOnAll(ranks, init);
      assert n !in init;
    }
  }

  /** Distinct nodes together have at most all joined ranks. */
  lemma {:induction false} JoinedOnAllBelow(ranks: seq<RankStatus>, nodes: seq<string>)
    requires NoDuplicates(nodes)
    ensures JoinedOnAll(ranks, nodes) <= JoinedCount(ranks)
  {
    if ranks == [] {
      NoneJoined(nodes);
    } else {
      JoinedOnAllBelow(ranks[..|ranks| - 1], nodes);
      OneMoreOnAll(ranks, nodes);
    }
  }

  lemma {:induction false} NoneJoined(nodes: seq<string>)
    ensures JoinedOnAll([], nodes) == 0
  {
    if nodes != [] { NoneJoined(nodes[..|nodes| - 1]); }
  }

  lemma {:induction false} EnoughOnAll(ranks: seq<RankStatus>, nodes: seq<string>, want: nat)
    requires forall n :: n in nodes ==> JoinedOn(ranks, n) >= want
    ensures JoinedOnAll(ranks, nodes) >= want * |nodes|
  {
    if nodes != [] {
      var init := nodes[..|nodes| - 1];
      assert nodes == init + [nodes[|nodes| - 1]];
      EnoughOnAll(ranks, init, want);
      assert want * |nodes| == want * |init| + want;
    }
  }

  lemma {:induction false} ServedNodeHasWorkload(configs: seq<NodeConfig>, n: string)
    requires n in ServedNodes(configs)
    ensures Served(configs, n)
  {
    var init := configs[..|configs| - 1];
    var last := configs[|configs| - 1];
    assert configs == init + [last];
    assert last in configs;
    if n in ServedNodes(init) {
      ServedNodeHasWorkload(init, n);
      var nc :| nc in init && nc.node == n && nc.workload;
      assert nc in configs;
    }
  }

  lemma {:induction false} EveryRankJoined(ranks: seq<RankStatus>)
    ensures JoinedCount(ranks) <= |ranks|
    ensures JoinedCount(ranks) == |ranks| ==> forall r :: r in ranks ==> r.state == JOINED
  {
    if ranks != [] {
      var init := ranks[..|ranks| - 1];
      EveryRankJoined(init);
      assert ranks == init + [ranks[|ranks| - 1]];
    }
  }

  /** What Ready promises: every rank joined from a node this system serves, every served node has all its
      engines joined, and so there are at least engines times servers joined ranks. */
  ghost predicate Honest(configs: seq<NodeConfig>, st: Status, want: nat) {
    && st.joined == st.total == |st.ranks| && st.ranks != []
    && (forall r :: r in st.ranks ==> r.state == JOINED && Served(configs, r.node))
    && (forall nc :: nc in configs && nc.workload ==> nc.serverReady && JoinedOn(st.ranks, nc.node) >= want)
    && st.joined >= want * |ServedNodes(configs)|
  }

  lemma HonestByCounting(enabled: bool, configs: seq<NodeConfig>, st: Status, want: nat)
    requires Built(enabled, configs) && st.joined == JoinedCount(st.ranks) && st.total == |st.ranks|
    requires EnginesOf(enabled, configs, st, want) == AllJoined && IsReady(enabled, configs, st, AllJoined)
    ensures Honest(configs, st, want)
  {
    EveryRankJoined(st.ranks);
    var nodes := ServedNodes(configs);
    hide JoinedOn, JoinedCount, ServedNodes, Rendered;
    forall nc | nc in configs && nc.workload ensures nc.serverReady && JoinedOn(st.ranks, nc.node) >= want {}
    forall n | n in nodes ensures JoinedOn(st.ranks, n) >= want {
      ServedNodeHasWorkload(configs, n);
    }
    EnoughOnAll(st.ranks, nodes, want);
    JoinedOnAllBelow(st.ranks, nodes);
  }

  /** The status a pass works with when it decides Ready, after any run. */
  ghost predicate WorkingStatus(steps: seq<Step>, i: Input, st: Status) {
    var s := Run(steps).s;
    st == Decide(s, i, Blank(s, i)).s.status
  }

  lemma WorkingStatusCounts(steps: seq<Step>, i: Input, st: Status)
    requires WorkingStatus(steps, i, st)
    ensures st.joined == JoinedCount(st.ranks) && st.total == |st.ranks|
  {
    var w := Run(steps);
    RunInv(steps);
    hide Run, Decide, JoinedCount, StatusInv, GoodTrace, Covered, GoodRecord;
    DecideGood(w.trace, w.s, i);
  }

  /** In every run, whatever dmg answers and whichever calls fail: a pass that sets Ready while EnginesReady
      is not Unknown is honest. */
  lemma ReadyIsHonest(steps: seq<Step>, i: Input, st: Status, want: nat)
    requires WorkingStatus(steps, i, st) && Built(i.enabled, i.configs)
    requires IsReady(i.enabled, i.configs, st, EnginesOf(i.enabled, i.configs, st, want))
    requires !IsUnknown(EnginesOf(i.enabled, i.configs, st, want))
    ensures Honest(i.configs, st, want)
  {
    WorkingStatusCounts(steps, i, st);
    EveryRankJoined(st.ranks);
    hide WorkingStatus, Honest, EnginesUp, AllServed, AllServersReady, Built, JoinedCount;
    HonestByCounting(i.enabled, i.configs, st, want);
  }

  // ---- said on the rows

  ghost function JoinedPlaces(rows: seq<RankStatus>, node: string): set<int> {
    set k | 0 <= k < |rows| && rows[k].state == "joined" && rows[k].node == node
  }

  lemma {:induction false} JoinedOnCounts(rows: seq<RankStatus>, node: string)
    ensures JoinedOn(rows, node) == |JoinedPlaces(rows, node)|
  {
    if rows == [] {
      assert JoinedPlaces(rows, node) == {};
    } else {
      var n := |rows| - 1;
      JoinedOnCounts(rows[..n], node);
      var before := JoinedPlaces(rows[..n], node);
      assert JoinedPlaces(rows, node) ==
             before + if rows[n].state == "joined" && rows[n].node == node then {n} else {};
      assert n !in before;
    }
  }

  /** Every row is on a node with a server workload. */
  ghost predicate RowsServed(configs: seq<NodeConfig>, rows: seq<RankStatus>) {
    forall r :: r in rows ==> exists nc :: nc in configs && nc.node == r.node && nc.workload
  }

  /** Every node with a ready server has as many joined rows as it has engines. */
  ghost predicate RowsSuffice(configs: seq<NodeConfig>, rows: seq<RankStatus>, want: nat) {
    forall nc :: nc in configs && nc.workload && nc.serverReady ==> |JoinedPlaces(rows, nc.node)| >= want
  }

  lemma RowsMean(configs: seq<NodeConfig>, rows: seq<RankStatus>, want: nat)
    ensures AllServed(configs, rows) <==> RowsServed(configs, rows)
    ensures EnginesUp(configs, rows, want) <==> RowsSuffice(configs, rows, want)
  {
    forall n { JoinedOnCounts(rows, n); }
    hide JoinedOn, JoinedPlaces;
  }

  /** What EnginesReady says, value by value: the first of its five reasons that applies. */
  lemma EnginesExactly(enabled: bool, configs: seq<NodeConfig>, st: Status, want: nat)
    ensures var e := EnginesOf(enabled, configs, st, want);
      var up := ServersUp(enabled, configs);
      var known := st.condition == True(false);
      && (e.ServersDisabled? <==> !enabled)
      && (e.ServersNotReady? <==> enabled && !up)
      && (e.MembershipUnknown? <==> up && !known)
      && (e.StaleMembers? <==> up && known && !RowsServed(configs, st.ranks))
      && (e.EnginesDown? <==>
            up && known && RowsServed(configs, st.ranks) && !RowsSuffice(configs, st.ranks, want))
  {
    ServersUpMeans(enabled, configs);
    RowsMean(configs, st.ranks, want);
    hide AllServersReady, AllServed, EnginesUp, RowsServed, RowsSuffice;
  }

  /** When Ready is set, exactly. The rows count for it only while the membership is known. */
  lemma ReadyExactly(enabled: bool, configs: seq<NodeConfig>, st: Status, want: nat)
    ensures IsReady(enabled, configs, st, EnginesOf(enabled, configs, st, want)) <==>
      && ServersUp(enabled, configs) && st.formatted && st.total > 0 && st.joined >= st.total
      && (st.condition == True(false) ==>
            RowsServed(configs, st.ranks) && (st.joined == st.total ==> RowsSuffice(configs, st.ranks, want)))
  {
    EnginesExactly(enabled, configs, st, want);
    ServersUpMeans(enabled, configs);
    hide EnginesOf, AllServersReady, RowsServed, RowsSuffice;
  }

  // ---- a run that is Ready on an old answer

  const STRANGER: Member := Member(0, "n2", JOINED)

  const LISTED: seq<Step> := [] + [Reconcile(PassAt(0, false, false)), JobFinished(QUERY_JOB, Members([STRANGER]))]

  lemma AfterList()
    ensures var s := Run(LISTED).s;
      && s.approval.None? && s.hold.None? && s.status.condition == Unknown
      && QUERY_JOB in s.box.jobs && s.box.jobs[QUERY_JOB].phase == Finished(Members([STRANGER]))
  {
    OneServer();
    RunMore([], Reconcile(PassAt(0, false, false)), JobFinished(QUERY_JOB, Members([STRANGER])));
    hide Rendered;
  }

  /** The stranger's row is on record, whatever else the status says. */
  ghost predicate Holds(s: State) {
    && s.approval.None? && s.status.formatted && s.status.ranks == [RankStatus(0, "n2", JOINED)]
    && s.status.joined == 1 && s.status.total == 1
  }

  lemma StrangerRow()
    ensures RanksOf([STRANGER], map[]) == [RankStatus(0, "n2", JOINED)]
    ensures JoinedCount([RankStatus(0, "n2", JOINED)]) == 1
  {
    assert [STRANGER][..0] == [] && RanksOf([], map[]) == [];
    assert "n2"[..1] == "n" && "n"[..0] == "";
    assert LastColon("") == -1 && LastColon("n") == -1 && LastColon("n2") == -1;
    var rows := [RankStatus(0, "n2", JOINED)];
    assert rows[..0] == [] && JoinedCount([]) == 0;
  }

  const RECORDED: seq<Step> := LISTED + [Reconcile(PassAt(1, false, false)), JobGone(QUERY_JOB)]

  lemma AfterRecord()
    ensures Holds(Run(RECORDED).s) && QUERY_JOB !in Run(RECORDED).s.box.jobs
  {
    OneServer();
    AfterList();
    StrangerRow();
    RunMore(LISTED, Reconcile(PassAt(1, false, false)), JobGone(QUERY_JOB));
    hide Rendered, Run, FormatHosts, AwaitingCount, RanksOf, JoinedCount;
  }

  const ASKED_AGAIN: seq<Step> := RECORDED + [OperatorRestart, Reconcile(PassAt(2, false, false))]

  lemma AfterAskingAgain()
    ensures var s := Run(ASKED_AGAIN).s;
      Holds(s) && s.hold.None? && QUERY_JOB in s.box.jobs && s.box.jobs[QUERY_JOB].phase.Running?
  {
    OneServer();
    AfterRecord();
    RunMore(RECORDED, OperatorRestart, Reconcile(PassAt(2, false, false)));
    hide Rendered, Run, FormatHosts;
  }

  /** While EnginesReady is Unknown, Ready can rest on an old answer. In this run the management service lists
      one joined rank, on a node this system does not serve, and is out of reach afterwards. */
  lemma UnknownEnginesCanBeReady() returns (steps: seq<Step>, i: Input, st: Status)
    ensures WorkingStatus(steps, i, st) && Built(i.enabled, i.configs)
    ensures IsUnknown(EnginesOf(i.enabled, i.configs, st, 1))
    ensures IsReady(i.enabled, i.configs, st, EnginesOf(i.enabled, i.configs, st, 1))
    ensures !Honest(i.configs, st, 1)
  {
    steps := ASKED_AGAIN + [JobFinished(QUERY_JOB, Unreachable), OperatorRestart];
    i := PassAt(3, false, false);
    var s := Run(steps).s;
    st := Decide(s, i, Blank(s, i)).s.status;
    AfterAskingAgain();
    RunMore(ASKED_AGAIN, JobFinished(QUERY_JOB, Unreachable), OperatorRestart);
    OneServer();
    hide Run, Rendered, FormatHosts;
    assert st.ranks == [RankStatus(0, "n2", JOINED)] && st.formatted && st.condition == Unknown;
    NotServed(st);
  }

  lemma NotServed(st: Status)
    requires st.ranks == [RankStatus(0, "n2", JOINED)]
    ensures !Honest(CONFIGS, st, 1) && Built(true, CONFIGS)
  {
    var r := st.ranks[0];
    assert r in st.ranks && "n2"[1] != "n1"[1];
    assert CONFIGS[..0] == [] && ServedNodes([]) == [];
  }
}
