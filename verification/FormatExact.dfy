/** What one pass of the format gate leaves, answer by answer, said on dmg's member list and the recorded node
    configs alone. */
module FormatExact {
  import opened Text
  import opened DaosStatus
  import opened Mailbox
  import opened Format
  import opened FormatRuns

  /** A format was approved and is pending, and on a formatted system some node is to be formatted. */
  ghost predicate WillFormat(s: State, i: Input) {
    && s.approval == Some("true") && !i.external && s.status.pending
    && (s.status.formatted ==> exists nc :: nc in i.configs && ToFormat(s.status.ranks, nc))
  }

  /** The pass gets as far as the gate: some server is rendered, and an approval on an external system, which is
      removed first, could be. */
  ghost predicate ReachesGate(s: State, i: Input) {
    && (i.external || (i.enabled && exists nc :: nc in i.configs && nc.ready))
    && (i.external && s.approval == Some("true") ==> !i.clearFails)
  }

  /** The API lets the pass read a finished Job. */
  predicate Readable(fault: Fault) { fault.NoFault? || fault.CreateFails? }

  ghost predicate ReadsQuery(s: State, i: Input, answer: Answer) {
    && ReachesGate(s, i) && !WillFormat(s, i) && (s.hold.Some? ==> s.hold.value <= i.now)
    && QUERY_JOB in s.box.jobs && s.box.jobs[QUERY_JOB].phase == Finished(answer) && Readable(i.fault)
  }

  ghost predicate ReadsFormat(s: State, i: Input, answer: Answer) {
    && ReachesGate(s, i) && WillFormat(s, i) && ServersUp(i.enabled, i.configs)
    && FORMAT_JOB in s.box.jobs && s.box.jobs[FORMAT_JOB].phase == Finished(answer) && Readable(i.fault)
  }

  // ---- the gate

  lemma HostsMeans(rows: seq<RankStatus>, configs: seq<NodeConfig>)
    ensures FormatHosts(rows, configs) != [] <==> exists nc :: nc in configs && ToFormat(rows, nc)
  {
    var hosts := FormatHosts(rows, configs);
    hide FormatHosts, ToFormat;
    if hosts != [] { FormatHostsExact(rows, configs, hosts[0]); }
    if nc :| nc in configs && ToFormat(rows, nc) { FormatHostsExact(rows, configs, nc.controlAddr); }
  }

  /** What the gate sees: an external system's approval is gone. */
  function AtGate(s: State, i: Input): State {
    if i.external && s.approval == Some("true") then s.(approval := None) else s
  }

  lemma GateMeans(s: State, i: Input)
    requires ReachesGate(s, i)
    ensures var s1 := AtGate(s, i);
      Decide(s, i, Blank(s, i)) ==
      if WillFormat(s, i) then
        FormatStep(s1, i, if s.status.formatted then FormatHosts(s.status.ranks, i.configs) else [], Blank(s, i))
      else QueryStep(s1, i, s1.approval == Some("true"), Blank(s, i))
  {
    RenderedMeans(i.configs);
    HostsMeans(s.status.ranks, i.configs);
    hide Rendered, FormatHosts, FormatStep, QueryStep, ToFormat;
  }

  // ---- what a query says

  lemma QueryRead(s: State, i: Input, answer: Answer)
    requires ReadsQuery(s, i, answer)
    ensures var s1 := AtGate(s, i);
      var b := RunJob(s.box, QUERY_JOB, ["system", "query", "-v"], i.fault).0;
      Decide(s, i, Blank(s, i)) == QueryResult(s1.(box := b), i, s1.approval == Some("true"), Blank(s, i), answer)
  {
    GateMeans(s, i);
    hide Decide, QueryResult, WillFormat, ReachesGate, QUERY_JOB;
  }

  lemma AwaitingMeans(rows: seq<RankStatus>)
    ensures AwaitingCount(rows) > 0 <==> exists r :: r in rows && r.state == "awaitformat"
  {
    if rows != [] {
      var init, last := rows[..|rows| - 1], rows[|rows| - 1];
      AwaitingMeans(init);
      assert rows == init + [last];
      assert forall r :: r in rows <==> r in init || r == last;
    }
  }

  /** Something is left to format. */
  ghost predicate StillPending(rows: seq<RankStatus>, configs: seq<NodeConfig>) {
    (exists r :: r in rows && r.state == "awaitformat") || exists nc :: nc in configs && ToFormat(rows, nc)
  }

  lemma MirrorLeaves(s: State, i: Input, approved: bool, rec: Record, members: seq<Member>)
    ensures var rows := RanksOf(members, i.nodeByAddr);
      var pending := StillPending(rows, i.configs);
      var w := Mirror(s, i, approved, rec, members);
      && w.err == (approved && !pending && s.approval.Some? && i.clearFails) && w.s.hold == s.hold
      && w.s.status == Status(true, pending, rows, |Joined(rows)|, |members|, True(false))
      && w.s.approval == if approved && !pending && !i.clearFails then None else s.approval
  {
    hide RanksOf, JoinedCount, FormatHosts, AwaitingCount, Joined, ToFormat;
    var rows := RanksOf(members, i.nodeByAddr);
    HostsMeans(rows, i.configs);
    AwaitingMeans(rows);
    JoinedCountCounts(rows);
  }

  /** A member list becomes the status row by row. What is then left to format keeps an approval for the next
      pass; where nothing is, the approval is removed, and when that fails the pass keeps nothing of the list. */
  lemma MembersRead(s: State, i: Input, members: seq<Member>) returns (rows: seq<RankStatus>)
    requires ReadsQuery(s, i, Members(members))
    ensures |rows| == |members| && forall k :: 0 <= k < |rows| ==>
      && rows[k].rank == members[k].rank && rows[k].state == members[k].state
      && StandsFor(members[k].addr, i.nodeByAddr, rows[k].node)
    ensures var s' := Pass(s, i).0;
      var approved := s.approval == Some("true") && !i.external;
      var pending := StillPending(rows, i.configs);
      && s'.hold == Some(i.now + if pending then 30_000_000_000 else 60_000_000_000)
      && s'.status == (if i.lost || (approved && !pending && i.clearFails) then s.status
                       else Status(true, pending, rows, |Joined(rows)|, |members|, True(false)))
      && s'.approval == (if approved && !pending && !i.clearFails then None else AtGate(s, i).approval)
  {
    hide ReadsQuery, Decide, RanksOf, RunJob, StandsFor, Joined, StillPending, Mirror;
    rows := RanksOf(members, i.nodeByAddr);
    QueryRead(s, i, Members(members));
    RowsOfMembers(members, i.nodeByAddr);
    var s1 := AtGate(s, i);
    var b := RunJob(s.box, QUERY_JOB, ["system", "query", "-v"], i.fault).0;
    MirrorLeaves(s1.(box := b), i, s1.approval == Some("true"), Blank(s, i), members);
  }

  lemma UnformattedRead(s: State, i: Input)
    requires ReadsQuery(s, i, Unformatted)
    ensures var s' := Pass(s, i).0;
      && s'.hold == Some(i.now + 30_000_000_000) && s'.approval == AtGate(s, i).approval
      && s'.status == if i.lost then s.status else Status(false, true, [], 0, 0, False)
  {
    QueryRead(s, i, Unformatted);
    hide ReadsQuery, Decide, RunJob;
  }

  /** Any other answer, or none that can be read, leaves what is known. */
  lemma NothingRead(s: State, i: Input, answer: Answer)
    requires ReadsQuery(s, i, answer) && !answer.Members? && !answer.Unformatted? && !answer.TimedOut?
    ensures var s' := Pass(s, i).0;
      && s'.hold == Some(i.now + 30_000_000_000) && s'.approval == AtGate(s, i).approval
      && s'.status == if i.lost then s.status else s.status.(condition := Unknown)
  {
    QueryRead(s, i, answer);
    hide ReadsQuery, Decide, RunJob;
  }

  // ---- a query that timed out

  /** The last node recorded under the host's address. */
  ghost predicate RecordedAt(configs: seq<NodeConfig>, host: string, node: string) {
    exists k :: 0 <= k < |configs| && IsHostOf(configs[k].controlAddr, host) && configs[k].node == node &&
                forall j :: k < j < |configs| ==> !IsHostOf(configs[j].controlAddr, host)
  }

  lemma RecordedEarlier(configs: seq<NodeConfig>, host: string, node: string)
    requires configs != [] && !IsHostOf(configs[|configs| - 1].controlAddr, host)
    requires RecordedAt(configs[..|configs| - 1], host, node)
    ensures RecordedAt(configs, host, node)
  {
    hide IsHostOf;
    var n := |configs| - 1;
    var init := configs[..n];
    var k :| 0 <= k < n && IsHostOf(init[k].controlAddr, host) && init[k].node == node &&
             forall j :: k < j < n ==> !IsHostOf(init[j].controlAddr, host);
    hide RecordedAt;
    assert configs[k] == init[k];
    forall j | k < j < |configs| ensures !IsHostOf(configs[j].controlAddr, host) {
      if j < n { assert configs[j] == init[j]; }
    }
    RecordedBy(configs, host, node, k);
  }

  lemma RecordedBy(configs: seq<NodeConfig>, host: string, node: string, k: nat)
    requires k < |configs| && IsHostOf(configs[k].controlAddr, host) && configs[k].node == node
    requires forall j :: k < j < |configs| ==> !IsHostOf(configs[j].controlAddr, host)
    ensures RecordedAt(configs, host, node)
  {
    hide IsHostOf;
  }

  lemma RecordedLast(configs: seq<NodeConfig>, host: string, node: string)
    requires configs != []
    ensures var last := configs[|configs| - 1];
      RecordedAt(configs, host, node) <==>
      if IsHostOf(last.controlAddr, host) then last.node == node else RecordedAt(configs[..|configs| - 1], host, node)
  {
    hide IsHostOf;
    var n := |configs| - 1;
    if RecordedAt(configs, host, node) {
      var k :| 0 <= k < |configs| && IsHostOf(configs[k].controlAddr, host) && configs[k].node == node &&
               forall j :: k < j < |configs| ==> !IsHostOf(configs[j].controlAddr, host);
      hide RecordedAt;
      if k < n { RecordedBy(configs[..n], host, node, k); }
    } else if IsHostOf(configs[n].controlAddr, host) {
      hide RecordedAt;
      if configs[n].node == node { RecordedBy(configs, host, node, n); }
    } else if RecordedAt(configs[..n], host, node) {
      hide RecordedAt;
      RecordedEarlier(configs, host, node);
    }
  }

  lemma {:induction false} NodeAtMeans(configs: seq<NodeConfig>, host: string, node: string)
    requires node != ""
    ensures NodeAt(configs, host) == node <==> RecordedAt(configs, host, node)
  {
    hide IsHostOf, Host;
    if configs != [] {
      NodeAtMeans(configs[..|configs| - 1], host, node);
      HostIsHost(configs[|configs| - 1].controlAddr);
      RecordedLast(configs, host, node);
      hide RecordedAt;
    }
  }

  /** The node has a workload without a ready server, or is the node of a replica dmg listed as down. */
  ghost predicate KnownDown(configs: seq<NodeConfig>, down: Option<seq<string>>, node: string) {
    || (exists nc :: nc in configs && nc.node == node && nc.workload && !nc.serverReady)
    || (node != "" && down.Some? &&
        exists a, host :: a in down.value && IsHostOf(a, host) && RecordedAt(configs, host, node))
  }

  lemma ReplicaMeans(configs: seq<NodeConfig>, a: string, node: string)
    requires node != ""
    ensures NodeAt(configs, Host(a)) == node <==> exists host :: IsHostOf(a, host) && RecordedAt(configs, host, node)
  {
    hide *;
    HostIsHost(a);
    NodeAtMeans(configs, Host(a), node);
  }

  lemma KnownDownMeans(configs: seq<NodeConfig>, down: Option<seq<string>>, node: string)
    ensures IsDown(configs, Replicas(down), node) <==> KnownDown(configs, down, node)
  {
    hide NodeAt, RecordedAt, IsHostOf, Host;
    if node != "" && down.Some? {
      forall a { ReplicaMeans(configs, a, node); }
    }
  }

  lemma {:induction false} MarkByRow(rows: seq<RankStatus>, configs: seq<NodeConfig>, down: Option<seq<string>>, k: nat)
    requires k < |rows|
    ensures Mark(rows, configs, Replicas(down))[k] ==
      if KnownDown(configs, down, rows[k].node) then rows[k].(state := "unresponsive") else rows[k]
  {
    var n := |rows| - 1;
    KnownDownMeans(configs, down, rows[n].node);
    hide IsDown, KnownDown, Replicas;
    if k < n { MarkByRow(rows[..n], configs, down, k); }
  }

  /** A timeout keeps every row, but shows those on nodes known to be down as unresponsive, and no others. */
  lemma TimeoutRead(s: State, i: Input, down: Option<seq<string>>) returns (rows: seq<RankStatus>)
    requires ReadsQuery(s, i, TimedOut(down))
    ensures |rows| == |s.status.ranks| && forall k :: 0 <= k < |rows| ==>
      var row := s.status.ranks[k];
      rows[k] == if KnownDown(i.configs, down, row.node) then row.(state := "unresponsive") else row
    ensures var s' := Pass(s, i).0;
      && s'.hold == Some(i.now + if s.status.pending then 30_000_000_000 else 60_000_000_000)
      && s'.approval == AtGate(s, i).approval
      && s'.status == if i.lost then s.status
                      else s.status.(ranks := rows, joined := |Joined(rows)|, condition := True(false))
  {
    rows := Mark(s.status.ranks, i.configs, Replicas(down));
    QueryRead(s, i, TimedOut(down));
    forall k | 0 <= k < |rows| { MarkByRow(s.status.ranks, i.configs, down, k); }
    JoinedCountCounts(rows);
    hide ReadsQuery, Decide, Mark, JoinedCount, RunJob, Joined, KnownDown, Replicas;
  }

  // ---- a format

  /** A finished format uses its approval up; where that cannot be removed the pass keeps nothing. Only a format
      that dmg says went well formats the system, and the next pass asks at once. */
  lemma FormatRead(s: State, i: Input, answer: Answer)
    requires ReadsFormat(s, i, answer)
    ensures var s' := Pass(s, i).0;
      && s'.approval == (if i.clearFails then s.approval else None)
      && s'.hold == (if answer == FormatDone(true) && !i.clearFails then None else s.hold)
      && s'.status == if i.lost || i.clearFails then s.status
                      else if answer == FormatDone(true) then
                        s.status.(formatted := true, pending := false, condition := True(true))
                      else s.status.(condition := False)
  {
    GateMeans(s, i);
    ServersUpMeans(i.enabled, i.configs);
    hide ReachesGate, Decide, FormatHosts, FormatArgs, AllServersReady, ServersUp, FORMAT_JOB, ToFormat;
  }

  /** A format Job is created exactly when one is due, every rendered server is ready, the name is free and the API
      goes along. */
  lemma FormatCreatedExactly(s: State, i: Input)
    ensures Pass(s, i).1.created.Some? <==>
      && ReachesGate(s, i) && WillFormat(s, i) && ServersUp(i.enabled, i.configs)
      && FORMAT_JOB !in s.box.jobs && !i.fault.GetFails? && !i.fault.CreateFails?
  {
    PassCreates(s, i);
    if ReachesGate(s, i) {
      GateMeans(s, i);
      QueryCreatesNone(AtGate(s, i), i, AtGate(s, i).approval == Some("true"), Blank(s, i));
      FormatCreates(AtGate(s, i), i, if s.status.formatted then FormatHosts(s.status.ranks, i.configs) else [],
                    Blank(s, i));
      hide Decide, ReachesGate, WillFormat, FormatHosts, ServersUp, FORMAT_JOB, FormatStep, QueryStep, Pass;
    } else {
      RenderedMeans(i.configs);
      hide Rendered, Gate, ServersUp, WillFormat, Pass;
    }
  }

  lemma PassCreates(s: State, i: Input)
    ensures Pass(s, i).1.created == Decide(s, i, Blank(s, i)).rec.created
  {
    hide Decide;
  }

  lemma QueryCreatesNone(s: State, i: Input, approved: bool, rec: Record)
    requires rec.created.None?
    ensures QueryStep(s, i, approved, rec).rec.created.None?
  {
    hide RunJob, RanksOf, FormatHosts, AwaitingCount, JoinedCount, Mark;
  }

  lemma FormatCreates(s: State, i: Input, only: seq<string>, rec: Record)
    requires rec.created.None?
    ensures FormatStep(s, i, only, rec).rec.created.Some? <==>
      ServersUp(i.enabled, i.configs) && FORMAT_JOB !in s.box.jobs && !i.fault.GetFails? && !i.fault.CreateFails?
  {
    ServersUpMeans(i.enabled, i.configs);
    forall s1: State, rec1: Record, a: Answer | rec1.created.None?
      ensures FormatResult(s1, i, rec1, a).rec.created.None? {}
    hide FormatArgs, AllServersReady, ServersUp, FORMAT_JOB, FormatResult;
  }

  // ---- a pass that reads nothing

  /** No server is rendered: nothing is known. */
  lemma NoServersKnowNothing(s: State, i: Input)
    requires !i.external && !(i.enabled && exists nc :: nc in i.configs && nc.ready)
    ensures Pass(s, i).0 == if i.lost then s else s.(status := s.status.(condition := Unknown))
  {
    RenderedMeans(i.configs);
    hide Rendered, Gate;
  }

  /** A format is due, but some rendered server is not ready: it waits, and the pass says so. */
  lemma FormatWaitsForServers(s: State, i: Input)
    requires ReachesGate(s, i) && WillFormat(s, i) && !ServersUp(i.enabled, i.configs)
    ensures Pass(s, i).0 == if i.lost then s else s.(status := s.status.(condition := False))
  {
    GateMeans(s, i);
    ServersUpMeans(i.enabled, i.configs);
    hide ReachesGate, Decide, FormatHosts, AllServersReady, ServersUp, ToFormat;
  }

  /** Before its time no query is asked for, and nothing moves. */
  lemma HeldPassRests(s: State, i: Input)
    requires ReachesGate(s, i) && !WillFormat(s, i) && s.hold.Some? && s.hold.value > i.now
    ensures Pass(s, i).0 == AtGate(s, i)
  {
    GateMeans(s, i);
    hide ReachesGate, WillFormat, Decide, ToFormat;
  }

  /** A query that is not answered yet is asked for where there is none, and changes what is known only when
      nothing was said so far. */
  lemma UnansweredQuery(s: State, i: Input)
    requires ReachesGate(s, i) && !WillFormat(s, i) && (s.hold.Some? ==> s.hold.value <= i.now)
    requires i.fault.NoFault? && (QUERY_JOB in s.box.jobs ==> !s.box.jobs[QUERY_JOB].phase.Finished?)
    ensures var s1 := AtGate(s, i);
      var jobs := if QUERY_JOB in s.box.jobs then s.box.jobs
          else s.box.jobs[QUERY_JOB := Job(s.box.nextId, ["system", "query", "-v"], Running)];
      && Pass(s, i).0.(box := s.box, status := s.status) == s1 && Pass(s, i).0.box.jobs == jobs
      && Pass(s, i).0.status ==
         if s.status.condition.Unset? && !i.lost then s.status.(condition := Unknown) else s.status
  {
    GateMeans(s, i);
    hide ReachesGate, WillFormat, Decide, ToFormat, QUERY_JOB;
  }
}
