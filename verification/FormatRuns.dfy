/** What the format gate keeps over every run: approvals come and go at any time, dmg answers anything, and
    any API call or status write of a pass may fail. */
module FormatRuns {
  import opened Collections
  import opened Text
  import opened DaosStatus
  import opened Mailbox
  import opened Format

  /** approvals counts how often a human set the annotation to "true" where it was not. */
  datatype World = World(s: State, approvals: nat, trace: seq<Record>)

  datatype Step =
    | SetApproval(value: Option<string>)
    | OperatorRestart
    | Reconcile(i: Input)
    | JobFinished(name: string, answer: Answer)
    | JobGone(name: string)

  function Apply(w: World, step: Step): World {
    match step
    case SetApproval(v) =>
      World(w.s.(approval := v), w.approvals + (if v == Some("true") && w.s.approval != v then 1 else 0), w.trace)
    case OperatorRestart => w.(s := w.s.(hold := None))
    case Reconcile(i) => var (s, rec) := Pass(w.s, i); World(s, w.approvals, w.trace + [rec])
    case JobFinished(name, answer) => w.(s := w.s.(box := FinishJob(w.s.box, name, answer)))
    case JobGone(name) => w.(s := w.s.(box := DropJob(w.s.box, name)))
  }

  const Initial: World := World(State(Status(false, false, [], 0, 0, Unset), None, None, Box(map[], 0)), 0, [])

  function Run(steps: seq<Step>): World {
    if steps == [] then Initial else Apply(Run(steps[..|steps| - 1]), steps[|steps| - 1])
  }

  // ---- reading a trace

  /** The last conclusive event of a pass that was stored. */
  ghost function LastEvent(trace: seq<Record>): Option<Event> {
    if trace == [] then None
    else
      var last := trace[|trace| - 1];
      if last.stored && last.event.Some? then last.event else LastEvent(trace[..|trace| - 1])
  }

  /** The last member list, with the nodes known by address then; an answer "not formatted" empties it. */
  ghost function LastMembers(trace: seq<Record>): (seq<Member>, map<string, string>) {
    if trace == [] then ([], map[])
    else
      var last := trace[|trace| - 1];
      if last.stored && last.event == Some(SawUnformatted) then ([], map[])
      else if last.stored && last.event.Some? && last.event.value.SawMembers? then
        (last.event.value.members, last.event.value.nodeByAddr)
      else LastMembers(trace[..|trace| - 1])
  }

  ghost function Creates(trace: seq<Record>): nat {
    if trace == [] then 0 else Creates(trace[..|trace| - 1]) + if trace[|trace| - 1].created.Some? then 1 else 0
  }

  /** Removals of the approval that failed after a format Job had come back. */
  ghost function FailedClears(trace: seq<Record>): nat {
    if trace == [] then 0 else FailedClears(trace[..|trace| - 1]) + if trace[|trace| - 1].clearFailed then 1 else 0
  }

  lemma Extend(trace: seq<Record>, rec: Record)
    ensures LastEvent(trace + [rec]) == if rec.stored && rec.event.Some? then rec.event else LastEvent(trace)
    ensures LastMembers(trace + [rec]) ==
      if rec.stored && rec.event == Some(SawUnformatted) then ([], map[])
      else if rec.stored && rec.event.Some? && rec.event.value.SawMembers? then
        (rec.event.value.members, rec.event.value.nodeByAddr)
      else LastMembers(trace)
    ensures Creates(trace + [rec]) == Creates(trace) + if rec.created.Some? then 1 else 0
    ensures FailedClears(trace + [rec]) == FailedClears(trace) + if rec.clearFailed then 1 else 0
  {
    assert (trace + [rec])[..|trace|] == trace;
  }

  // ---- the invariant

  /** The address without its port: up to the last colon, unless that comes first or there is none. */
  ghost predicate IsHostOf(addr: string, host: string) {
    if exists p :: 0 < p < |addr| && addr[p] == ':' then
      0 < |host| < |addr| && host == addr[..|host|] && addr[|host|] == ':' && ':' !in addr[|host| + 1..]
    else host == addr
  }

  /** The node an address stands for: the one known by its host, or else the host itself. */
  ghost predicate StandsFor(addr: string, nodeByAddr: map<string, string>, node: string) {
    exists host ::
      IsHostOf(addr, host) && node == if host in nodeByAddr && nodeByAddr[host] != "" then nodeByAddr[host] else host
  }

  /** The row of a member, except that it may be marked unresponsive. */
  ghost predicate IsRow(m: Member, nodeByAddr: map<string, string>, r: RankStatus) {
    r.rank == m.rank && (r.state == m.state || r.state == "unresponsive") && StandsFor(m.addr, nodeByAddr, r.node)
  }

  /** Recorded ranks are those of the member list, row by row. */
  ghost predicate RanksFrom(from: (seq<Member>, map<string, string>), ranks: seq<RankStatus>) {
    |ranks| == |from.0| && forall k :: 0 <= k < |ranks| ==> IsRow(from.0[k], from.1, ranks[k])
  }

  lemma {:induction false} LastColonIsLast(addr: string)
    ensures var c := LastColon(addr);
      && (c >= 0 ==> addr[c] == ':') && forall p :: c < p < |addr| ==> addr[p] != ':'
  {
    if addr != "" && addr[|addr| - 1] != ':' { LastColonIsLast(addr[..|addr| - 1]); }
  }

  lemma HostIsHost(addr: string)
    ensures IsHostOf(addr, Host(addr)) && forall h :: IsHostOf(addr, h) ==> h == Host(addr)
  {
    LastColonIsLast(addr);
    var c := LastColon(addr);
    hide LastColon;
    forall h | IsHostOf(addr, h) ensures h == Host(addr) {
      if exists p :: 0 < p < |addr| && addr[p] == ':' {
        var p :| 0 < p < |addr| && addr[p] == ':';
        assert c >= p;
      }
    }
  }

  /** `dmg.Host` takes the port off, whatever the host looks like. */
  lemma HostTakesPortOff(host: string, port: string)
    requires host != "" && ':' !in port
    ensures Host(host + ":" + port) == host
  {
    var addr := host + ":" + port;
    assert addr[|host|] == ':' && addr[|host| + 1..] == port && addr[..|host|] == host;
    HostIsHost(addr);
    assert IsHostOf(addr, host);
  }

  lemma RowOfMember(m: Member, nodeByAddr: map<string, string>)
    ensures IsRow(m, nodeByAddr, RankOf(m, nodeByAddr))
    ensures forall n :: StandsFor(m.addr, nodeByAddr, n) ==> n == RankOf(m, nodeByAddr).node
  {
    HostIsHost(m.addr);
    hide IsHostOf, Host;
    assert IsHostOf(m.addr, Host(m.addr));
  }

  lemma {:induction false} RowByRow(members: seq<Member>, nodeByAddr: map<string, string>, k: nat)
    requires k < |members|
    ensures RanksOf(members, nodeByAddr)[k] == RankOf(members[k], nodeByAddr)
  {
    var n := |members| - 1;
    hide RankOf;
    if k < n { RowByRow(members[..n], nodeByAddr, k); }
  }

  lemma RowsOfMembers(members: seq<Member>, nodeByAddr: map<string, string>)
    ensures RanksFrom((members, nodeByAddr), RanksOf(members, nodeByAddr))
    ensures forall k :: 0 <= k < |members| ==> RanksOf(members, nodeByAddr)[k].state == members[k].state
  {
    var rows := RanksOf(members, nodeByAddr);
    hide RanksOf, Host, StandsFor;
    forall k | 0 <= k < |members|
      ensures IsRow(members[k], nodeByAddr, rows[k]) && rows[k].state == members[k].state
    {
      RowByRow(members, nodeByAddr, k);
      RowOfMember(members[k], nodeByAddr);
    }
  }

  ghost predicate Counted(st: Status) { st.joined == JoinedCount(st.ranks) && st.total == |st.ranks| }

  ghost predicate StatusInv(trace: seq<Record>, st: Status) {
    && Counted(st)
    && (st.pending && !st.formatted <==> LastEvent(trace) == Some(SawUnformatted))
    && (st.formatted <==> LastEvent(trace).Some? && LastEvent(trace) != Some(SawUnformatted))
    && RanksFrom(LastMembers(trace), st.ranks)
  }

  /** What a pass that runs the format Job needs, and the arguments it runs it with. */
  ghost predicate GoodRecord(prefix: seq<Record>, rec: Record) {
    && (rec.created.Some? ==> rec.created == rec.asked) && (rec.taken.Some? ==> rec.asked.Some?)
    && (rec.asked.Some? ==>
          && rec.approval == Some("true") && !rec.external && AllServersReady(rec.enabled, rec.configs)
          && RanksFrom(LastMembers(prefix), rec.ranks)
          && (if LastEvent(prefix) == Some(SawUnformatted) then rec.asked.value == FormatArgs([])
              else LastEvent(prefix).Some? && FormatHosts(rec.ranks, rec.configs) != []
                   && rec.asked.value == FormatArgs(FormatHosts(rec.ranks, rec.configs))))
  }

  predicate MayCreate(s: State) { s.approval == Some("true") && !s.box.Open(FORMAT_JOB) }

  ghost predicate Covered(w: World) {
    Creates(w.trace) + (if MayCreate(w.s) then 1 else 0) <= w.approvals + FailedClears(w.trace)
  }

  // ---- one pass

  /** What a step does, on the working copy s of the state before. */
  ghost predicate Good(trace: seq<Record>, before: State, w: Work) {
    && w.rec.stored && Counted(w.s.status) && (!w.err ==> StatusInv(trace + [w.rec], w.s.status))
    && GoodRecord(trace, w.rec)
    && (MayCreate(w.s) ==> MayCreate(before) || w.rec.clearFailed)
    && (w.rec.created.Some? ==> MayCreate(before) && !MayCreate(w.s) && !w.rec.clearFailed)
  }

  lemma MarkKeeps(ranks: seq<RankStatus>, configs: seq<NodeConfig>, replicas: seq<string>,
                  from: (seq<Member>, map<string, string>))
    requires RanksFrom(from, ranks)
    ensures RanksFrom(from, Mark(ranks, configs, replicas))
  {
    hide StandsFor;
    forall k | 0 <= k < |ranks|
      ensures Mark(ranks, configs, replicas)[k] == ranks[k]
        || Mark(ranks, configs, replicas)[k] == ranks[k].(state := UNRESPONSIVE)
    {
      MarkAt(ranks, configs, replicas, k);
    }
  }

  /** `markUnresponsive` touches exactly the ranks on nodes that are down. */
  lemma {:induction false} MarkAt(ranks: seq<RankStatus>, configs: seq<NodeConfig>, replicas: seq<string>, k: nat)
    requires k < |ranks|
    ensures Mark(ranks, configs, replicas)[k] ==
      if IsDown(configs, replicas, ranks[k].node) then ranks[k].(state := UNRESPONSIVE) else ranks[k]
  {
    if k < |ranks| - 1 { MarkAt(ranks[..|ranks| - 1], configs, replicas, k); }
  }

  lemma JobKeepsFormat(b: Box<Answer>, args: seq<string>, fault: Fault)
    ensures RunJob(b, QUERY_JOB, args, fault).0.Open(FORMAT_JOB) == b.Open(FORMAT_JOB)
  {
    assert QUERY_JOB[5] != FORMAT_JOB[5];
  }

  lemma FormatJobRun(b: Box<Answer>, args: seq<string>, fault: Fault)
    ensures var (b', out) := RunJob(b, FORMAT_JOB, args, fault);
      && (b'.nextId > b.nextId ==> out.Pending? && b'.Open(FORMAT_JOB) && !b.Open(FORMAT_JOB))
      && (b'.Open(FORMAT_JOB) ==> b.Open(FORMAT_JOB) || b'.nextId > b.nextId)
      && (!out.Done? && b.Open(FORMAT_JOB) ==> b'.Open(FORMAT_JOB))
  {}

  lemma FormatResultGood(trace: seq<Record>, before: State, s: State, i: Input, rec: Record, answer: Answer)
    requires StatusInv(trace, s.status) && s.approval == before.approval == Some("true")
    requires rec == Blank(before, i).(asked := rec.asked, taken := rec.taken) && GoodRecord(trace, rec)
    ensures Good(trace, before, FormatResult(s, i, rec, answer))
  {
    var w := FormatResult(s, i, rec, answer);
    Extend(trace, w.rec);
    hide LastEvent, LastMembers, Creates, FailedClears, RanksFrom, JoinedCount, FormatHosts, FormatArgs,
         AllServersReady;
  }

  lemma FormatStepGood(trace: seq<Record>, s: State, i: Input, only: seq<string>, rec: Record)
    requires StatusInv(trace, s.status) && rec == Blank(s, i) && s.approval == Some("true") && !i.external
    requires s.status.pending && only == (if s.status.formatted then FormatHosts(s.status.ranks, i.configs) else [])
    requires s.status.formatted ==> only != []
    ensures Good(trace, s, FormatStep(s, i, only, rec))
  {
    var w := FormatStep(s, i, only, rec);
    Extend(trace, w.rec);
    FormatJobRun(s.box, FormatArgs(only), i.fault);
    var (b, out) := RunJob(s.box, FORMAT_JOB, FormatArgs(only), i.fault);
    hide LastEvent, LastMembers, Creates, FailedClears, RanksFrom, JoinedCount, RunJob, FormatResult, FormatHosts,
         FormatArgs,
         AllServersReady;
    if AllServersReady(i.enabled, i.configs) && out.Done? {
      var rec' := rec.(asked := Some(FormatArgs(only)), taken := Some((out.id, out.args)));
      FormatResultGood(trace, s, s.(box := b), i, rec', out.answer);
    }
  }

  /** before is the stored state; s is the working copy, of which only Jobs other than format changed. */
  ghost predicate From(trace: seq<Record>, before: State, s: State) {
    && StatusInv(trace, s.status) && (s.approval == Some("true") ==> before.approval == Some("true"))
    && s.box.Open(FORMAT_JOB) == before.box.Open(FORMAT_JOB)
  }

  lemma MirrorGood(trace: seq<Record>, before: State, s: State, i: Input, approved: bool, rec: Record,
      members: seq<Member>)
    requires From(trace, before, s) && rec == Blank(before, i)
    ensures Good(trace, before, Mirror(s, i, approved, rec, members))
  {
    Extend(trace, Mirror(s, i, approved, rec, members).rec);
    RowsOfMembers(members, i.nodeByAddr);
    hide LastEvent, LastMembers, Creates, FailedClears, JoinedCount, FormatHosts, AwaitingCount, RanksOf, RanksFrom;
  }

  lemma HoldKeeps(trace: seq<Record>, before: State, w: Work, now: int)
    requires Good(trace, before, w)
    ensures Good(trace, before, SetHold(w, now))
  {
    hide StatusInv, GoodRecord;
  }

  lemma StaleGood(trace: seq<Record>, before: State, s: State, i: Input, down: Option<seq<string>>)
    requires From(trace, before, s)
    ensures Good(trace, before, Work(s.(status := Stale(s.status, i.configs, down)), Blank(before, i), false))
  {
    Extend(trace, Blank(before, i));
    MarkKeeps(s.status.ranks, i.configs, Replicas(down), LastMembers(trace));
    hide LastEvent, LastMembers, Creates, FailedClears, JoinedCount, RanksFrom, Mark;
  }

  lemma QueryResultGood(trace: seq<Record>, before: State, s: State, i: Input, approved: bool, rec: Record,
      answer: Answer)
    requires From(trace, before, s) && rec == Blank(before, i)
    ensures Good(trace, before, QueryResult(s, i, approved, rec, answer))
  {
    Extend(trace, rec.(event := Some(SawUnformatted)));
    Extend(trace, rec);
    assert JoinedCount([]) == 0;
    hide LastEvent, LastMembers, Creates, FailedClears, JoinedCount, Mirror, Stale, SetHold, RanksOf;
    match answer
    case Unformatted =>
      var w := Work(s.(status := Status(false, true, [], 0, 0, False)), rec.(event := Some(SawUnformatted)), false);
      HoldKeeps(trace, before, w, i.now);
    case TimedOut(down) =>
      StaleGood(trace, before, s, i, down);
      HoldKeeps(trace, before, Work(s.(status := Stale(s.status, i.configs, down)), rec, false), i.now);
    case Members(members) =>
      MirrorGood(trace, before, s, i, approved, rec, members);
      HoldKeeps(trace, before, Mirror(s, i, approved, rec, members), i.now);
    case _ =>
      HoldKeeps(trace, before, Work(s.(status := s.status.(condition := Unknown)), rec, false), i.now);
  }

  lemma QueryStepGood(trace: seq<Record>, before: State, s: State, i: Input, approved: bool, rec: Record)
    requires From(trace, before, s) && rec == Blank(before, i)
    ensures Good(trace, before, QueryStep(s, i, approved, rec))
  {
    Extend(trace, QueryStep(s, i, approved, rec).rec);
    JobKeepsFormat(s.box, ["system", "query", "-v"], i.fault);
    var (b, out) := RunJob(s.box, QUERY_JOB, ["system", "query", "-v"], i.fault);
    hide LastEvent, LastMembers, Creates, FailedClears, JoinedCount, RanksFrom, RunJob, QueryResult;
    if !(s.hold.Some? && s.hold.value > i.now) && out.Done? {
      QueryResultGood(trace, before, s.(box := b), i, approved, rec, out.answer);
    }
  }

  lemma DecideGood(trace: seq<Record>, s: State, i: Input)
    requires StatusInv(trace, s.status)
    ensures Good(trace, s, Decide(s, i, Blank(s, i)))
  {
    var rec := Blank(s, i);
    Extend(trace, rec);
    hide LastEvent, LastMembers, Creates, FailedClears, JoinedCount, RanksFrom, QueryStep, FormatStep, FormatHosts,
         Rendered;
    if !i.external && (!i.enabled || Rendered(i.configs) == 0) {
    } else if i.external && s.approval == Some("true") {
      QueryStepGood(trace, s, s.(approval := None), i, false, rec);
    } else {
      var approved := s.approval == Some("true") && !i.external;
      if Formats(s, i, approved) {
        FormatStepGood(trace, s, i, if s.status.formatted then FormatHosts(s.status.ranks, i.configs) else [], rec);
      } else {
        QueryStepGood(trace, s, s, i, approved, rec);
      }
    }
  }

  // ---- runs

  ghost predicate GoodTrace(trace: seq<Record>) {
    forall k :: 0 <= k < |trace| ==> GoodRecord(trace[..k], trace[k])
  }

  ghost predicate Inv(w: World) { StatusInv(w.trace, w.s.status) && Covered(w) && GoodTrace(w.trace) }

  lemma AppendGood(trace: seq<Record>, rec: Record)
    requires GoodTrace(trace) && GoodRecord(trace, rec)
    ensures GoodTrace(trace + [rec])
  {
    var longer := trace + [rec];
    forall k | 0 <= k < |longer| ensures GoodRecord(longer[..k], longer[k]) {
      assert longer[..k] == trace[..k];
      if k == |trace| { assert trace[..k] == trace; }
    }
  }

  lemma StoreGood(w: World, i: Input, d: Work, s: State, rec: Record)
    requires StatusInv(w.trace, w.s.status) && Covered(w) && Good(w.trace, w.s, d)
    requires (s, rec) == if d.err || i.lost then (d.s.(status := w.s.status), d.rec.(stored := false)) else (d.s, d.rec)
    ensures StatusInv(w.trace + [rec], s.status) && GoodRecord(w.trace, rec)
    ensures Covered(World(s, w.approvals, w.trace + [rec]))
  {
    Extend(w.trace, rec);
    Extend(w.trace, d.rec);
    hide LastEvent, LastMembers, Creates, FailedClears, JoinedCount, RanksFrom, FormatHosts, AllServersReady,
         FormatArgs;
  }

  lemma PassKeepsInv(w: World, i: Input)
    requires Inv(w)
    ensures Inv(Apply(w, Reconcile(i)))
  {
    var d := Decide(w.s, i, Blank(w.s, i));
    var (s, rec) := Pass(w.s, i);
    DecideGood(w.trace, w.s, i);
    hide Decide, StatusInv, GoodRecord, Covered, Good, GoodTrace;
    StoreGood(w, i, d, s, rec);
    AppendGood(w.trace, rec);
  }

  lemma {:induction false} RunInv(steps: seq<Step>)
    ensures Inv(Run(steps))
  {
    if steps != [] {
      var w := Run(steps[..|steps| - 1]);
      RunInv(steps[..|steps| - 1]);
      var step := steps[|steps| - 1];
      hide Pass, GoodTrace, StatusInv, Creates, FailedClears;
      if step.Reconcile? { PassKeepsInv(w, step.i); }
    }
  }

  ghost predicate Reachable(w: World) { exists steps :: Run(steps) == w }

  lemma ReachableInv(w: World)
    requires Reachable(w)
    ensures Inv(w)
  {
    var steps :| Run(steps) == w;
    RunInv(steps);
  }

  ghost predicate IsTrace(trace: seq<Record>) { exists steps :: Run(steps).trace == trace }

  lemma GoodAt(trace: seq<Record>, j: nat)
    requires IsTrace(trace) && j < |trace|
    ensures GoodRecord(trace[..j], trace[j])
  {
    var steps :| Run(steps).trace == trace;
    RunInv(steps);
  }

  /** Some node is rendered, and every rendered node has a ready server. */
  ghost predicate ServersUp(enabled: bool, configs: seq<NodeConfig>) {
    && enabled && (exists nc :: nc in configs && nc.ready)
    && forall nc :: nc in configs && nc.ready ==> nc.serverReady
  }

  lemma {:induction false} RenderedMeans(configs: seq<NodeConfig>)
    ensures Rendered(configs) > 0 <==> exists nc :: nc in configs && nc.ready
  {
    if configs != [] {
      var init, last := configs[..|configs| - 1], configs[|configs| - 1];
      RenderedMeans(init);
      assert configs == init + [last];
      assert forall nc :: nc in configs <==> nc in init || nc == last;
    }
  }

  lemma ServersUpMeans(enabled: bool, configs: seq<NodeConfig>)
    ensures AllServersReady(enabled, configs) <==> ServersUp(enabled, configs)
  {
    RenderedMeans(configs);
    hide Rendered;
  }

  /** The whole system is formatted only on an approval, with every rendered server ready, and only while
      the last conclusive answer on record is that storage is not formatted. */
  lemma WholeFormatIsGated(trace: seq<Record>, j: nat)
    requires IsTrace(trace) && j < |trace| && trace[j].created == Some(["storage", "format"])
    ensures trace[j].approval == Some("true") && !trace[j].external
    ensures ServersUp(trace[j].enabled, trace[j].configs)
    ensures LastEvent(trace[..j]) == Some(SawUnformatted)
  {
    GoodAt(trace, j);
    ServersUpMeans(trace[j].enabled, trace[j].configs);
  }

  lemma {:induction false} HostsOfMembers(ranks: seq<RankStatus>, configs: seq<NodeConfig>, h: string)
    ensures h in HostsOf(ranks, configs) <==>
      exists nc :: nc in configs && NeedsFormat(ranks, nc) && nc.controlAddr == h
  {
    if configs != [] {
      var init := configs[..|configs| - 1];
      var last := configs[|configs| - 1];
      HostsOfMembers(ranks, init, h);
      assert configs == init + [last];
      hide NeedsFormat, HostsOf;
      assert forall nc :: nc in configs <==> nc in init || nc == last;
      HostsOfLast(ranks, configs, h);
    }
  }

  lemma HostsOfLast(ranks: seq<RankStatus>, configs: seq<NodeConfig>, h: string)
    requires configs != []
    ensures var last := configs[|configs| - 1];
      h in HostsOf(ranks, configs) <==>
        h in HostsOf(ranks, configs[..|configs| - 1]) || (NeedsFormat(ranks, last) && last.controlAddr == h)
  {
    hide NeedsFormat;
  }

  /** A node to format: ready, with a ready server and an address, and with no row of its own or one that
      awaits format. */
  ghost predicate ToFormat(rows: seq<RankStatus>, nc: NodeConfig) {
    && nc.ready && nc.serverReady && nc.controlAddr != ""
    && (|| (forall r :: r in rows ==> r.node != nc.node)
        || (exists r :: r in rows && r.node == nc.node && r.state == "awaitformat"))
  }

  /** `formatHosts` is sorted and lists exactly the addresses of the nodes to format. */
  lemma FormatHostsExact(ranks: seq<RankStatus>, configs: seq<NodeConfig>, h: string)
    ensures SortedStrings(FormatHosts(ranks, configs))
    ensures h in FormatHosts(ranks, configs) <==>
      exists nc :: nc in configs && ToFormat(ranks, nc) && nc.controlAddr == h
  {
    forall nc ensures NeedsFormat(ranks, nc) <==> ToFormat(ranks, nc) {}
    hide ToFormat;
    SortStringsSorts(HostsOf(ranks, configs));
    MultisetMembers(FormatHosts(ranks, configs), HostsOf(ranks, configs));
    HostsOfMembers(ranks, configs, h);
    hide NeedsFormat, SortedStrings, HostsOf, SortStrings;
  }

  /** Some member's address stands for the node. */
  ghost predicate IsMember(from: (seq<Member>, map<string, string>), node: string) {
    exists m :: m in from.0 && StandsFor(m.addr, from.1, node)
  }

  ghost predicate AwaitsFormat(from: (seq<Member>, map<string, string>), node: string) {
    exists m :: m in from.0 && StandsFor(m.addr, from.1, node) && m.state == "awaitformat"
  }

  lemma MemberHasRow(from: (seq<Member>, map<string, string>), ranks: seq<RankStatus>, node: string)
    requires RanksFrom(from, ranks) && IsMember(from, node)
    ensures exists r :: r in ranks && r.node == node
  {
    hide StandsFor;
    var members := from.0;
    var m :| m in members && StandsFor(m.addr, from.1, node);
    var k :| 0 <= k < |members| && members[k] == m;
    OneNode(m.addr, from.1, node, ranks[k].node);
    assert ranks[k] in ranks;
  }

  lemma RowHasMember(from: (seq<Member>, map<string, string>), ranks: seq<RankStatus>, r: RankStatus)
    requires RanksFrom(from, ranks) && r in ranks
    ensures IsMember(from, r.node) && (r.state == "awaitformat" ==> AwaitsFormat(from, r.node))
  {
    hide StandsFor;
    assert "unresponsive"[0] != "awaitformat"[0];
    var k :| 0 <= k < |ranks| && ranks[k] == r;
    assert IsRow(from.0[k], from.1, r) && from.0[k] in from.0;
  }

  lemma UnresponsiveHidesNothing(from: (seq<Member>, map<string, string>), ranks: seq<RankStatus>, node: string)
    requires RanksFrom(from, ranks)
    ensures (exists r :: r in ranks && r.node == node) <==> IsMember(from, node)
    ensures (exists r :: r in ranks && r.node == node && r.state == "awaitformat") ==> AwaitsFormat(from, node)
  {
    hide *;
    if IsMember(from, node) { MemberHasRow(from, ranks, node); }
    forall r | r in ranks
      ensures IsMember(from, r.node) && (r.state == "awaitformat" ==> AwaitsFormat(from, r.node))
    {
      RowHasMember(from, ranks, r);
    }
  }

  lemma OneNode(addr: string, nodeByAddr: map<string, string>, a: string, b: string)
    requires StandsFor(addr, nodeByAddr, a) && StandsFor(addr, nodeByAddr, b)
    ensures a == b
  {
    RowOfMember(Member(0, addr, ""), nodeByAddr);
  }

  /** Any other format names its hosts: exactly the nodes to format by the recorded rows, so each has no member
      in the last list on record, or has one awaiting format. */
  lemma HostFormatIsGated(trace: seq<Record>, j: nat, h: string) returns (hosts: seq<string>, nc: NodeConfig)
    requires IsTrace(trace) && j < |trace| && trace[j].created.Some? && trace[j].created != Some(["storage", "format"])
    ensures trace[j].approval == Some("true") && !trace[j].external
    ensures ServersUp(trace[j].enabled, trace[j].configs)
    ensures LastEvent(trace[..j]).Some? && LastEvent(trace[..j]) != Some(SawUnformatted)
    ensures hosts != [] && SortedStrings(hosts)
    ensures trace[j].created == Some(["-l", Join(hosts, ','), "storage", "format"])
    ensures h in hosts <==> exists n :: n in trace[j].configs && ToFormat(trace[j].ranks, n) && n.controlAddr == h
    ensures RanksFrom(LastMembers(trace[..j]), trace[j].ranks)
    ensures h in hosts ==>
      && nc in trace[j].configs && nc.ready && nc.serverReady && nc.controlAddr == h
      && (!IsMember(LastMembers(trace[..j]), nc.node) || AwaitsFormat(LastMembers(trace[..j]), nc.node))
  {
    GoodAt(trace, j);
    var rec := trace[j];
    ServersUpMeans(rec.enabled, rec.configs);
    hosts := FormatHosts(rec.ranks, rec.configs);
    FormatHostsExact(rec.ranks, rec.configs, h);
    nc := NodeConfig("", "", false, false, false);
    hide HasRank, Awaits, AllServersReady, ServersUp, FormatHosts, Join, LastEvent, LastMembers, IsTrace, RanksFrom,
         IsMember, AwaitsFormat;
    if h in hosts {
      nc :| nc in rec.configs && ToFormat(rec.ranks, nc) && nc.controlAddr == h;
      UnresponsiveHidesNothing(LastMembers(trace[..j]), rec.ranks, nc.node);
    }
  }

  /** Approval accounting: the format Jobs created never outnumber the approvals given, plus the times the
      approval could not be removed after a Job had come back. */
  lemma FormatsNeedApprovals(w: World)
    requires Reachable(w)
    ensures Creates(w.trace) <= w.approvals + FailedClears(w.trace)
  {
    ReachableInv(w);
  }

  ghost function Joined(rows: seq<RankStatus>): set<int> {
    set k | 0 <= k < |rows| && rows[k].state == "joined"
  }

  lemma {:induction false} JoinedCountCounts(rows: seq<RankStatus>)
    ensures JoinedCount(rows) == |Joined(rows)|
  {
    if rows == [] {
      assert Joined(rows) == {};
    } else {
      var n := |rows| - 1;
      JoinedCountCounts(rows[..n]);
      assert Joined(rows) == Joined(rows[..n]) + if rows[n].state == "joined" then {n} else {};
      assert n !in Joined(rows[..n]);
    }
  }

  /** The status mirrors the last member list, and counts it honestly. */
  lemma StatusMirrorsMembers(w: World)
    requires Reachable(w)
    ensures var st := w.s.status;
      && st.joined == |Joined(st.ranks)| && st.total == |LastMembers(w.trace).0|
      && RanksFrom(LastMembers(w.trace), st.ranks)
      && (st.formatted <==> LastEvent(w.trace).Some? && LastEvent(w.trace) != Some(SawUnformatted))
  {
    ReachableInv(w);
    JoinedCountCounts(w.s.status.ranks);
    hide Joined;
  }

  // ---- answers that were never stored

  /** The last conclusive event any pass saw, stored or not. */
  ghost function LastSeen(trace: seq<Record>): Option<Event> {
    if trace == [] then None
    else if trace[|trace| - 1].event.Some? then trace[|trace| - 1].event
    else LastSeen(trace[..|trace| - 1])
  }

  /** What the passes of a run were given, in the order of its trace. */
  function Inputs(steps: seq<Step>): seq<Input> {
    if steps == [] then []
    else Inputs(steps[..|steps| - 1]) + if steps[|steps| - 1].Reconcile? then [steps[|steps| - 1].i] else []
  }

  /** The pass was to remove an approval, used up by a finished format or left over by a member list that leaves
      nothing to format, and cannot. */
  predicate PatchFails(rec: Record, i: Input) {
    && rec.approval == Some("true") && !i.external && i.clearFails && rec.event.Some?
    && match rec.event.value
       case Formatted => true
       case SawMembers(members, nodeByAddr) =>
         var ranks := RanksOf(members, nodeByAddr);
         AwaitingCount(ranks) == 0 && FormatHosts(ranks, i.configs) == []
       case SawUnformatted => false
  }

  /** The pass cannot keep what it saw: its status write fails, or that patch. */
  predicate Unsaved(rec: Record, i: Input) { i.lost || PatchFails(rec, i) }

  ghost predicate Saved(s: State, i: Input, w: Work) {
    w.rec.event.Some? ==> w.rec.stored && w.rec.approval == s.approval && (w.err <==> PatchFails(w.rec, i))
  }

  lemma FormatSaved(s: State, i: Input, only: seq<string>)
    requires s.approval == Some("true") && !i.external
    ensures Saved(s, i, FormatStep(s, i, only, Blank(s, i)))
  {
    hide RunJob, FormatArgs, AllServersReady, FormatHosts, AwaitingCount;
  }

  lemma MirrorSaved(s: State, s': State, i: Input, approved: bool, members: seq<Member>)
    requires s'.approval == (if i.external && s.approval == Some("true") then None else s.approval)
    requires approved == (s'.approval == Some("true") && !i.external)
    ensures Saved(s, i, Mirror(s', i, approved, Blank(s, i), members))
  {
    hide FormatHosts, AwaitingCount, JoinedCount;
  }

  lemma QuerySaved(s: State, s': State, i: Input, approved: bool)
    requires s'.approval == (if i.external && s.approval == Some("true") then None else s.approval)
    requires approved == (s'.approval == Some("true") && !i.external)
    ensures Saved(s, i, QueryStep(s', i, approved, Blank(s, i)))
  {
    var (b, out) := RunJob(s'.box, QUERY_JOB, ["system", "query", "-v"], i.fault);
    hide RunJob, FormatHosts, AwaitingCount, Mirror, Stale, RanksOf;
    if out.Done? && out.answer.Members? {
      MirrorSaved(s, s'.(box := b), i, approved, out.answer.members);
    }
  }

  lemma PassSaved(s: State, i: Input)
    requires Pass(s, i).1.event.Some?
    ensures Pass(s, i).1.stored <==> !Unsaved(Pass(s, i).1, i)
  {
    var approved := s.approval == Some("true") && !i.external;
    if approved { FormatSaved(s, i, if s.status.formatted then FormatHosts(s.status.ranks, i.configs) else []); }
    if i.external && s.approval == Some("true") {
      QuerySaved(s, s.(approval := None), i, false);
    } else {
      QuerySaved(s, s, i, approved);
    }
    hide FormatStep, QueryStep, FormatHosts, Rendered, AwaitingCount;
  }

  /** The last pass that saw anything conclusive saw members or a finished format, and could not keep it. */
  ghost predicate NewsLost(trace: seq<Record>, ins: seq<Input>)
    requires |ins| == |trace|
  {
    trace != [] &&
    var n := |trace| - 1;
    if trace[n].event.Some? then trace[n].event != Some(SawUnformatted) && Unsaved(trace[n], ins[n])
    else NewsLost(trace[..n], ins[..n])
  }

  /** Whether an event is stored depends on what the pass was given, as Unsaved says. */
  lemma {:induction false} StoredByInput(steps: seq<Step>)
    ensures var trace, ins := Run(steps).trace, Inputs(steps);
      && |ins| == |trace|
      && forall k :: 0 <= k < |trace| && trace[k].event.Some? ==> (trace[k].stored <==> !Unsaved(trace[k], ins[k]))
  {
    if steps != [] {
      var before := steps[..|steps| - 1];
      var step := steps[|steps| - 1];
      StoredByInput(before);
      hide Pass, Unsaved;
      if step.Reconcile? && Pass(Run(before).s, step.i).1.event.Some? { PassSaved(Run(before).s, step.i); }
    }
  }

  lemma {:induction false} SeenOrLost(trace: seq<Record>, ins: seq<Input>)
    requires LastEvent(trace) == Some(SawUnformatted) && |ins| == |trace|
    requires forall k :: 0 <= k < |trace| && trace[k].event.Some? ==> (trace[k].stored <==> !Unsaved(trace[k], ins[k]))
    ensures LastSeen(trace) == Some(SawUnformatted) <==> !NewsLost(trace, ins)
  {
    hide Unsaved;
    if trace[|trace| - 1].event.None? { SeenOrLost(trace[..|trace| - 1], ins[..|ins| - 1]); }
  }

  /** When pass j of a run formats the whole system, the last conclusive answer seen before is "not formatted",
      unless the pass that saw the last one saw members or a finished format, and its status write failed or
      its removal of the approval did. */
  lemma WholeFormatSeesLatest(steps: seq<Step>, j: nat)
    requires j < |Run(steps).trace| && Run(steps).trace[j].created == Some(["storage", "format"])
    ensures |Inputs(steps)| == |Run(steps).trace|
    ensures LastSeen(Run(steps).trace[..j]) == Some(SawUnformatted) <==>
      !NewsLost(Run(steps).trace[..j], Inputs(steps)[..j])
  {
    assert IsTrace(Run(steps).trace);
    WholeFormatIsGated(Run(steps).trace, j);
    StoredByInput(steps);
    hide Run, Inputs, Unsaved, IsTrace;
    SeenOrLost(Run(steps).trace[..j], Inputs(steps)[..j]);
  }

  // ---- runs that show what failing writes cost

  const CONFIGS: seq<NodeConfig> := [NodeConfig("n1", "10.0.0.1", true, true, true)]

  function PassAt(now: int, clearFails: bool, lost: bool): Input {
    Input(now, false, true, CONFIGS, map[], NoFault, clearFails, lost)
  }

  lemma RunMore(steps: seq<Step>, a: Step, b: Step)
    ensures Run(steps + [a, b]) == Apply(Apply(Run(steps), a), b)
  {
    assert (steps + [a, b])[..|steps| + 1] == steps + [a];
    assert (steps + [a])[..|steps|] == steps;
  }

  lemma OneServer()
    ensures Rendered(CONFIGS) == 1 && AllServersReady(true, CONFIGS)
  {
    assert CONFIGS[..0] == [];
    assert Rendered(CONFIGS[..0]) == 0;
  }

  const ASKED: seq<Step> := [] + [Reconcile(PassAt(0, false, false)), JobFinished(QUERY_JOB, Unformatted)]

  lemma AfterAsking()
    ensures Run(ASKED).s == State(Status(false, false, [], 0, 0, Unknown), None, None,
                                  Box(map[QUERY_JOB := Job(0, ["system", "query", "-v"], Finished(Unformatted))], 1))
    ensures Run(ASKED).approvals == 0 && |Run(ASKED).trace| == 1 && Run(ASKED).trace[0].created.None?
    ensures !Run(ASKED).trace[0].clearFailed
  {
    OneServer();
    RunMore([], Reconcile(PassAt(0, false, false)), JobFinished(QUERY_JOB, Unformatted));
    hide Rendered;
  }

  const APPROVED: seq<Step> := ASKED + [Reconcile(PassAt(1, false, false)), SetApproval(Some("true"))]

  lemma AfterApproval()
    ensures var w := Run(APPROVED);
      && w.s.status == Status(false, true, [], 0, 0, False) && w.s.approval == Some("true") && !w.s.box.Open(FORMAT_JOB)
      && FORMAT_JOB !in w.s.box.jobs && !w.s.box.Open(QUERY_JOB)
      && w.approvals == 1 && Creates(w.trace) == 0 && FailedClears(w.trace) == 0
  {
    OneServer();
    AfterAsking();
    RunMore(ASKED, Reconcile(PassAt(1, false, false)), SetApproval(Some("true")));
    hide Rendered, Run;
    var w := Run(ASKED);
    assert QUERY_JOB[5] != FORMAT_JOB[5];
    Extend([], w.trace[0]);
    assert [] + [w.trace[0]] == w.trace;
    Extend(w.trace, Pass(w.s, PassAt(1, false, false)).1);
  }

  const FORMATTED: seq<Step> := APPROVED + [Reconcile(PassAt(2, false, false)),
                                            JobFinished(FORMAT_JOB, FormatDone(true))]

  lemma AfterFormat()
    ensures var w := Run(FORMATTED);
      && w.s.status == Status(false, true, [], 0, 0, False) && w.s.approval == Some("true") && w.approvals == 1
      && FORMAT_JOB in w.s.box.jobs && w.s.box.jobs[FORMAT_JOB].phase == Finished(FormatDone(true))
      && Creates(w.trace) == 1 && FailedClears(w.trace) == 0
  {
    OneServer();
    AfterApproval();
    RunMore(APPROVED, Reconcile(PassAt(2, false, false)), JobFinished(FORMAT_JOB, FormatDone(true)));
    var w := Run(APPROVED);
    Extend(w.trace, Pass(w.s, PassAt(2, false, false)).1);
    hide Rendered, Run, Creates, FailedClears, AllServersReady;
  }

  const UNCLEARED: seq<Step> := FORMATTED + [Reconcile(PassAt(3, true, false)), JobGone(FORMAT_JOB)]

  lemma AfterFailedClear()
    ensures var w := Run(UNCLEARED);
      && w.s.status == Status(false, true, [], 0, 0, False) && w.s.approval == Some("true") && w.approvals == 1
      && FORMAT_JOB !in w.s.box.jobs && Creates(w.trace) == 1
      && w.trace != [] && w.trace[|w.trace| - 1].event == Some(Formatted)
  {
    OneServer();
    AfterFormat();
    RunMore(FORMATTED, Reconcile(PassAt(3, true, false)), JobGone(FORMAT_JOB));
    var w := Run(FORMATTED);
    Extend(w.trace, Pass(w.s, PassAt(3, true, false)).1);
    hide Rendered, Run, Creates, FailedClears, AllServersReady;
  }

  /** One approval, two format Jobs: removing the annotation failed after the first had succeeded, and the second
      goes out although a finished format was the last thing seen. */
  lemma FailedClearFormatsTwice() returns (steps: seq<Step>, j: nat)
    ensures Run(steps).approvals == 1 && Creates(Run(steps).trace) == 2
    ensures j < |Run(steps).trace| && Run(steps).trace[j].created == Some(["storage", "format"])
    ensures LastSeen(Run(steps).trace[..j]) == Some(Formatted)
  {
    var again := Reconcile(PassAt(4, false, false));
    steps := UNCLEARED + [again, OperatorRestart];
    OneServer();
    AfterFailedClear();
    RunMore(UNCLEARED, again, OperatorRestart);
    var w := Run(UNCLEARED);
    Extend(w.trace, Pass(w.s, again.i).1);
    hide Rendered, Run, Creates, FailedClears, AllServersReady;
    j := |w.trace|;
    assert Run(steps).trace[..j] == w.trace;
  }

  /** A status write lost after a successful format leaves "not formatted" on record, and the next approval
      formats the whole system again. */
  lemma LostWriteFormatsAgain() returns (steps: seq<Step>, j: nat)
    ensures j < |Run(steps).trace| && Run(steps).trace[j].created == Some(["storage", "format"])
    ensures LastSeen(Run(steps).trace[..j]) == Some(Formatted)
  {
    var lost := Reconcile(PassAt(3, false, true));
    var middle := FORMATTED + [lost, JobGone(FORMAT_JOB)];
    steps := middle + [SetApproval(Some("true")), Reconcile(PassAt(4, false, false))];
    OneServer();
    AfterFormat();
    RunMore(FORMATTED, lost, JobGone(FORMAT_JOB));
    RunMore(middle, SetApproval(Some("true")), Reconcile(PassAt(4, false, false)));
    hide Rendered, Run, Creates, FailedClears, AllServersReady;
    var w := Run(FORMATTED);
    var w' := Run(middle);
    assert w'.trace[|w.trace|].event == Some(Formatted);
    j := |w'.trace|;
    assert Run(steps).trace[..j] == w'.trace;
  }
}
