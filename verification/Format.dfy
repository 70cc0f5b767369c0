/** The format gate and the membership mirror (internal/controller/daossystem_format.go): the operator asks
    `dmg system query`, reports that storage is not formatted, and formats only on a human's approval. */
module Format {
  import opened Collections
  import opened Text
  import opened DaosStatus
  import opened Mailbox

  const FORMAT_JOB := "-dmg-format"
  const QUERY_JOB := "-dmg-query"
  const SLOW: int := 30 * SECOND
  const MEMBERSHIP: int := 60 * SECOND

  datatype Member = Member(rank: int, addr: string, state: string)

  /** What a finished Job says. A query that timed out may carry what the leader query listed as down. */
  datatype Answer =
    | Unreadable
    | Unformatted
    | Unreachable
    | TimedOut(downReplicas: Option<seq<string>>)
    | OtherError
    | Members(members: seq<Member>)
    | FormatDone(ok: bool)

  /** The Formatted condition; placeholder marks the message left right after a format. */
  datatype Condition = Unset | Unknown | False | True(placeholder: bool)

  datatype Status = Status(
    formatted: bool, pending: bool, ranks: seq<RankStatus>, joined: nat, total: nat, condition: Condition)

  /** hold is the operator's own memory: no query before that time. */
  datatype State = State(status: Status, approval: Option<string>, hold: Option<int>, box: Box<Answer>)

  /** What one pass sees. lost says that a later step or the status write of the pass fails. */
  datatype Input = Input(
    now: int, external: bool, enabled: bool, configs: seq<NodeConfig>, nodeByAddr: map<string, string>,
    fault: Fault, clearFails: bool, lost: bool)

  datatype Event = SawUnformatted | SawMembers(members: seq<Member>, nodeByAddr: map<string, string>) | Formatted

  /** What one pass found and did: asked holds the arguments it ran the format Job with, created those of one it
      created, taken the number and the arguments of one whose result it read. nextId is the number of the next
      Job to be created. */
  datatype Record = Record(
    stored: bool, external: bool, approval: Option<string>, ranks: seq<RankStatus>, configs: seq<NodeConfig>,
    enabled: bool, nextId: nat, asked: Option<seq<string>>, created: Option<seq<string>>,
    taken: Option<(nat, seq<string>)>, event: Option<Event>, clearFailed: bool)

  datatype Work = Work(s: State, rec: Record, err: bool)

  // ---- what the step before found

  function Rendered(configs: seq<NodeConfig>): nat {
    if configs == [] then 0
    else Rendered(configs[..|configs| - 1]) + if configs[|configs| - 1].ready then 1 else 0
  }

  /** Some node is rendered, and all rendered nodes have a ready server. */
  predicate AllServersReady(enabled: bool, configs: seq<NodeConfig>) {
    enabled && Rendered(configs) > 0 && forall nc :: nc in configs && nc.ready ==> nc.serverReady
  }

  // ---- which hosts need a format

  predicate HasRank(ranks: seq<RankStatus>, node: string) { exists r :: r in ranks && r.node == node }

  predicate Awaits(ranks: seq<RankStatus>, node: string) {
    exists r :: r in ranks && r.node == node && r.state == AWAIT_FORMAT
  }

  predicate NeedsFormat(ranks: seq<RankStatus>, nc: NodeConfig) {
    nc.ready && nc.serverReady && nc.controlAddr != "" && (!HasRank(ranks, nc.node) || Awaits(ranks, nc.node))
  }

  function HostsOf(ranks: seq<RankStatus>, configs: seq<NodeConfig>): seq<string> {
    if configs == [] then []
    else
      var nc := configs[|configs| - 1];
      HostsOf(ranks, configs[..|configs| - 1]) + if NeedsFormat(ranks, nc) then [nc.controlAddr] else []
  }

  function FormatHosts(ranks: seq<RankStatus>, configs: seq<NodeConfig>): seq<string> {
    SortStrings(HostsOf(ranks, configs))
  }

  function FormatArgs(only: seq<string>): seq<string> {
    if only == [] then ["storage", "format"] else ["-l", Join(only, ','), "storage", "format"]
  }

  // ---- membership

  /** `dmg.Host`: the address before its last colon, unless the colon comes first. */
  function LastColon(addr: string): int
    ensures -1 <= LastColon(addr) < |addr|
  {
    if addr == "" then -1 else if addr[|addr| - 1] == ':' then |addr| - 1 else LastColon(addr[..|addr| - 1])
  }

  function Host(addr: string): string { if LastColon(addr) > 0 then addr[..LastColon(addr)] else addr }

  function RankOf(m: Member, nodeByAddr: map<string, string>): RankStatus {
    var host := Host(m.addr);
    var node := if host in nodeByAddr then nodeByAddr[host] else "";
    RankStatus(m.rank, if node == "" then host else node, m.state)
  }

  function RanksOf(members: seq<Member>, nodeByAddr: map<string, string>): (r: seq<RankStatus>)
    ensures |r| == |members|
  {
    if members == [] then []
    else RanksOf(members[..|members| - 1], nodeByAddr) + [RankOf(members[|members| - 1], nodeByAddr)]
  }

  function AwaitingCount(ranks: seq<RankStatus>): nat {
    if ranks == [] then 0
    else AwaitingCount(ranks[..|ranks| - 1]) + if ranks[|ranks| - 1].state == AWAIT_FORMAT then 1 else 0
  }

  /** The node recorded for a control address, the last one winning. */
  function NodeAt(configs: seq<NodeConfig>, host: string): string {
    if configs == [] then ""
    else if Host(configs[|configs| - 1].controlAddr) == host then configs[|configs| - 1].node
    else NodeAt(configs[..|configs| - 1], host)
  }

  predicate PodDown(configs: seq<NodeConfig>, node: string) {
    exists nc :: nc in configs && nc.node == node && nc.workload && !nc.serverReady
  }

  predicate ReplicaDown(configs: seq<NodeConfig>, replicas: seq<string>, node: string) {
    node != "" && exists a :: a in replicas && NodeAt(configs, Host(a)) == node
  }

  function Replicas(down: Option<seq<string>>): seq<string> { if down.Some? then down.value else [] }

  predicate IsDown(configs: seq<NodeConfig>, replicas: seq<string>, node: string) {
    PodDown(configs, node) || ReplicaDown(configs, replicas, node)
  }

  function Mark(ranks: seq<RankStatus>, configs: seq<NodeConfig>, replicas: seq<string>): (r: seq<RankStatus>)
    ensures |r| == |ranks|
  {
    if ranks == [] then []
    else
      var last := ranks[|ranks| - 1];
      Mark(ranks[..|ranks| - 1], configs, replicas) +
      [if IsDown(configs, replicas, last.node) then last.(state := UNRESPONSIVE) else last]
  }

  // ---- one pass

  function ClearApproval(s: State, fails: bool): (r: (State, bool)) {
    if s.approval.None? then (s, true) else if fails then (s, false) else (s.(approval := None), true)
  }

  function FormatStep(s: State, i: Input, only: seq<string>, rec: Record): Work {
    if !AllServersReady(i.enabled, i.configs) then Work(s.(status := s.status.(condition := False)), rec, false)
    else
      var args := FormatArgs(only);
      var (b, out) := RunJob(s.box, FORMAT_JOB, args, i.fault);
      var s1 := s.(box := b);
      match out
      case ApiError => Work(s1, rec.(asked := Some(args)), true)
      case Pending =>
        Work(s1.(status := s1.status.(condition := False)),
             rec.(asked := Some(args), created := if b.nextId > s.box.nextId then Some(args) else None), false)
      case Done(id, made, answer) => FormatResult(s1, i, rec.(asked := Some(args), taken := Some((id, made))), answer)
  }

  function FormatResult(s: State, i: Input, rec: Record, answer: Answer): Work {
    var (s', ok) := ClearApproval(s, i.clearFails);
    var rec' := rec.(event := if answer == FormatDone(true) then Some(Formatted) else None, clearFailed := !ok);
    if !ok then Work(s', rec', true)
    else if answer != FormatDone(true) then Work(s'.(status := s'.status.(condition := False)), rec', false)
    else
      var st := s'.status.(formatted := true, pending := false, condition := True(true));
      Work(s'.(status := st, hold := None), rec', false)
  }

  /** No query before this time: a minute for a known, formatted system, half a minute otherwise. */
  function HoldUntil(now: int, st: Status): int { now + if st.condition.True? && !st.pending then MEMBERSHIP else SLOW }

  function QueryStep(s: State, i: Input, approved: bool, rec: Record): Work {
    if s.hold.Some? && s.hold.value > i.now then Work(s, rec, false)
    else
      var (b, out) := RunJob(s.box, QUERY_JOB, ["system", "query", "-v"], i.fault);
      var s1 := s.(box := b);
      match out
      case ApiError => Work(s1, rec, true)
      case Pending =>
        Work(if s.status.condition.Unset? then s1.(status := s1.status.(condition := Unknown)) else s1, rec, false)
      case Done(_, _, answer) => QueryResult(s1, i, approved, rec, answer)
  }

  function SetHold(w: Work, now: int): Work { w.(s := w.s.(hold := Some(HoldUntil(now, w.s.status)))) }

  function QueryResult(s: State, i: Input, approved: bool, rec: Record, answer: Answer): Work {
    SetHold(
      match answer
      case Unformatted =>
        Work(s.(status := Status(false, true, [], 0, 0, False)), rec.(event := Some(SawUnformatted)), false)
      case TimedOut(down) => Work(s.(status := Stale(s.status, i.configs, down)), rec, false)
      case Members(members) => Mirror(s, i, approved, rec, members)
      case _ => Work(s.(status := s.status.(condition := Unknown)), rec, false),
      i.now)
  }

  /** `markUnresponsive`: the last answer stays, except for ranks on nodes known to be down. */
  function Stale(st: Status, configs: seq<NodeConfig>, down: Option<seq<string>>): Status {
    var ranks := Mark(st.ranks, configs, Replicas(down));
    st.(ranks := ranks, joined := JoinedCount(ranks), condition := True(false))
  }

  function Mirror(s: State, i: Input, approved: bool, rec: Record, members: seq<Member>): Work {
    var ranks := RanksOf(members, i.nodeByAddr);
    var pending := AwaitingCount(ranks) > 0 || FormatHosts(ranks, i.configs) != [];
    var s1 := s.(status := Status(true, pending, ranks, JoinedCount(ranks), |ranks|, True(false)));
    var rec1 := rec.(event := Some(SawMembers(members, i.nodeByAddr)));
    if approved && !pending then
      var (s2, ok) := ClearApproval(s1, i.clearFails);
      Work(s2, rec1, !ok)
    else Work(s1, rec1, false)
  }

  /** A format was approved, is pending, and on a formatted system some host needs one. */
  predicate Formats(s: State, i: Input, approved: bool) {
    approved && s.status.pending && (s.status.formatted ==> FormatHosts(s.status.ranks, i.configs) != [])
  }

  function Gate(s: State, i: Input, rec: Record): Work {
    var approved := s.approval == Some("true") && !i.external;
    if Formats(s, i, approved) then
      FormatStep(s, i, if s.status.formatted then FormatHosts(s.status.ranks, i.configs) else [], rec)
    else QueryStep(s, i, approved, rec)
  }

  function Decide(s: State, i: Input, rec: Record): Work {
    if !i.external && (!i.enabled || Rendered(i.configs) == 0) then
      Work(s.(status := s.status.(condition := Unknown)), rec, false)
    else if i.external && s.approval == Some("true") then
      var (s1, ok) := ClearApproval(s, i.clearFails);
      if ok then Gate(s1, i, rec) else Work(s1, rec, true)
    else Gate(s, i, rec)
  }

  function Blank(s: State, i: Input): Record {
    Record(true, i.external, s.approval, s.status.ranks, i.configs, i.enabled, s.box.nextId, None, None, None, None,
           false)
  }

  function Pass(s: State, i: Input): (r: (State, Record)) {
    var w := Decide(s, i, Blank(s, i));
    if w.err || i.lost then (w.s.(status := s.status), w.rec.(stored := false)) else (w.s, w.rec)
  }

  // ---- the controller

  /** `formatHosts` */
  method FindHosts(ranks: seq<RankStatus>, configs: seq<NodeConfig>) returns (out: seq<string>)
    ensures out == FormatHosts(ranks, configs)
  {
    var member: set<string>, waiting: set<string> := {}, {};
    for k := 0 to |ranks|
      invariant forall n :: n in member <==> HasRank(ranks[..k], n)
      invariant forall n :: n in waiting <==> Awaits(ranks[..k], n)
    {
      RanksGrow(ranks, k);
      member := member + {ranks[k].node};
      if ranks[k].state == AWAIT_FORMAT { waiting := waiting + {ranks[k].node}; }
    }
    assert ranks[..|ranks|] == ranks;
    out := [];
    for k := 0 to |configs|
      invariant out == HostsOf(ranks, configs[..k])
    {
      var nc := configs[k];
      assert configs[..k + 1][..k] == configs[..k];
      if !nc.ready || !nc.serverReady || nc.controlAddr == "" { continue; }
      if nc.node !in member || nc.node in waiting { out := out + [nc.controlAddr]; }
    }
    assert configs[..|configs|] == configs;
    out := SortStrings(out);
  }

  lemma RanksGrow(ranks: seq<RankStatus>, k: nat)
    requires k < |ranks|
    ensures forall n :: HasRank(ranks[..k + 1], n) <==> HasRank(ranks[..k], n) || n == ranks[k].node
    ensures forall n :: Awaits(ranks[..k + 1], n) <==>
      Awaits(ranks[..k], n) || (n == ranks[k].node && ranks[k].state == AWAIT_FORMAT)
  {
    var last := ranks[k];
    var longer := ranks[..k + 1];
    assert longer == ranks[..k] + [last];
    forall n
      ensures HasRank(longer, n) <==> HasRank(ranks[..k], n) || n == last.node
      ensures Awaits(longer, n) <==> Awaits(ranks[..k], n) || (n == last.node && last.state == AWAIT_FORMAT)
    {
      if HasRank(ranks[..k], n) {
        var r :| r in ranks[..k] && r.node == n;
        assert r in longer;
      }
      if Awaits(ranks[..k], n) {
        var r :| r in ranks[..k] && r.node == n && r.state == AWAIT_FORMAT;
        assert r in longer;
      }
      assert last in longer;
    }
  }

  lemma OneMoreRank(ranks: seq<RankStatus>, entry: RankStatus)
    ensures JoinedCount(ranks + [entry]) == JoinedCount(ranks) + if entry.state == JOINED then 1 else 0
    ensures AwaitingCount(ranks + [entry]) == AwaitingCount(ranks) + if entry.state == AWAIT_FORMAT then 1 else 0
    ensures entry.state == JOINED ==> entry.state != AWAIT_FORMAT
  {
    assert JOINED[0] != AWAIT_FORMAT[0];
    assert (ranks + [entry])[..|ranks|] == ranks;
  }

  lemma OneMoreMember(members: seq<Member>, k: nat, nodeByAddr: map<string, string>)
    requires k < |members|
    ensures RanksOf(members[..k + 1], nodeByAddr) ==
      RanksOf(members[..k], nodeByAddr) + [RankOf(members[k], nodeByAddr)]
  {
    assert members[..k + 1][..k] == members[..k];
  }

  /** The membership loop of `reconcileFormat`. */
  method ReadMembers(members: seq<Member>, nodeByAddr: map<string, string>)
    returns (ranks: seq<RankStatus>, joined: nat, awaiting: nat)
    ensures ranks == RanksOf(members, nodeByAddr) && joined == JoinedCount(ranks) && awaiting == AwaitingCount(ranks)
  {
    ranks, joined, awaiting := [], 0, 0;
    for k := 0 to |members|
      invariant ranks == RanksOf(members[..k], nodeByAddr)
      invariant joined == JoinedCount(ranks) && awaiting == AwaitingCount(ranks)
    {
      hide *;
      var entry := ReadMember(members[k], nodeByAddr);
      OneMoreMember(members, k, nodeByAddr);
      OneMoreRank(ranks, entry);
      ranks := ranks + [entry];
      if entry.state == JOINED {
        joined := joined + 1;
      } else if entry.state == AWAIT_FORMAT {
        awaiting := awaiting + 1;
      }
    }
    assert members[..|members|] == members;
  }

  method ReadMember(m: Member, nodeByAddr: map<string, string>) returns (entry: RankStatus)
    ensures entry == RankOf(m, nodeByAddr)
  {
    var host := Host(m.addr);
    var node := if host in nodeByAddr then nodeByAddr[host] else "";
    if node == "" { node := host; }
    entry := RankStatus(m.rank, node, m.state);
  }

  /** The node set of `markUnresponsive`. */
  method FindDown(configs: seq<NodeConfig>, replicas: seq<string>) returns (down: set<string>)
    ensures forall n :: n in down <==> IsDown(configs, replicas, n)
  {
    down := {};
    for k := 0 to |configs|
      invariant forall n :: n in down <==> PodDown(configs[..k], n)
    {
      ghost var longer := configs[..k + 1];
      assert forall nc :: nc in longer <==> nc in configs[..k] || nc == configs[k];
      if configs[k].workload && !configs[k].serverReady { down := down + {configs[k].node}; }
    }
    assert configs[..|configs|] == configs;
    var byAddr: map<string, string> := map[];
    for k := 0 to |configs|
      invariant forall h :: NodeAt(configs[..k], h) == if h in byAddr then byAddr[h] else ""
    {
      assert configs[..k + 1][..k] == configs[..k];
      byAddr := byAddr[Host(configs[k].controlAddr) := configs[k].node];
    }
    for k := 0 to |replicas|
      invariant forall n :: n in down <==> PodDown(configs, n) || ReplicaDown(configs, replicas[..k], n)
    {
      ghost var longer := replicas[..k + 1];
      assert forall a :: a in longer <==> a in replicas[..k] || a == replicas[k];
      var host := Host(replicas[k]);
      var node := if host in byAddr then byAddr[host] else "";
      assert node == NodeAt(configs, host);
      if node != "" { down := down + {node}; }
    }
    assert replicas[..|replicas|] == replicas;
  }

  method MarkDown(ranks: seq<RankStatus>, configs: seq<NodeConfig>, replicas: seq<string>)
    returns (marked: seq<RankStatus>, joined: nat)
    ensures marked == Mark(ranks, configs, replicas) && joined == JoinedCount(marked)
  {
    var down := FindDown(configs, replicas);
    marked, joined := [], 0;
    for k := 0 to |ranks|
      invariant marked == Mark(ranks[..k], configs, replicas) && joined == JoinedCount(marked)
    {
      var entry := if ranks[k].node in down then ranks[k].(state := UNRESPONSIVE) else ranks[k];
      assert ranks[..k + 1][..k] == ranks[..k];
      OneMoreRank(marked, entry);
      marked := marked + [entry];
      if entry.state == JOINED { joined := joined + 1; }
    }
    assert ranks[..|ranks|] == ranks;
  }

  class FormatGate {
    var status: Status
    var approval: Option<string>
    var hold: Option<int>
    var box: Box<Answer>

    ghost function View(): State
      reads this
    {
      State(status, approval, hold, box)
    }

    method Clear(fails: bool) returns (ok: bool)
      modifies this`approval
      ensures (View(), ok) == ClearApproval(old(View()), fails)
    {
      if approval.None? { return true; }
      if fails { return false; }
      approval := None;
      ok := true;
    }

    method ReadFormat(i: Input, rec: Record, answer: Answer) returns (rec': Record, err: bool)
      modifies this
      ensures Work(View(), rec', err) == FormatResult(old(View()), i, rec, answer)
    {
      var ok := Clear(i.clearFails);
      rec', err := rec.(event := if answer == FormatDone(true) then Some(Formatted) else None, clearFailed := !ok), !ok;
      if err { return; }
      if answer != FormatDone(true) {
        status := status.(condition := False);
        return;
      }
      status := status.(formatted := true, pending := false, condition := True(true));
      hold := None;
    }

    method RunFormat(i: Input, only: seq<string>, rec: Record) returns (rec': Record, err: bool)
      modifies this
      ensures Work(View(), rec', err) == FormatStep(old(View()), i, only, rec)
    {
      rec', err := rec, false;
      if !AllServersReady(i.enabled, i.configs) {
        status := status.(condition := False);
        return;
      }
      hide FormatArgs, FormatResult, RunJob, AllServersReady;
      ghost var was := View();
      var args := FormatArgs(only);
      var (b, out) := RunJob(box, FORMAT_JOB, args, i.fault);
      var grew := b.nextId > box.nextId;
      box := b;
      assert View() == was.(box := b);
      match out
      case ApiError => rec', err := rec.(asked := Some(args)), true;
      case Pending =>
        status := status.(condition := False);
        rec' := rec.(asked := Some(args), created := if grew then Some(args) else None);
      case Done(id, made, answer) =>
        rec', err := ReadFormat(i, rec.(asked := Some(args), taken := Some((id, made))), answer);
    }

    method CopyMembers(i: Input, approved: bool, rec: Record, members: seq<Member>) returns (rec': Record, err: bool)
      modifies this`status, this`approval
      ensures Work(View(), rec', err) == Mirror(old(View()), i, approved, rec, members)
    {
      var ranks, joined, awaiting := ReadMembers(members, i.nodeByAddr);
      var hosts := FindHosts(ranks, i.configs);
      status := Status(true, awaiting > 0 || hosts != [], ranks, joined, |members|, True(false));
      rec', err := rec.(event := Some(SawMembers(members, i.nodeByAddr))), false;
      if approved && !status.pending {
        var ok := Clear(i.clearFails);
        err := !ok;
      }
    }

    method ReadQuery(i: Input, approved: bool, rec: Record, answer: Answer) returns (rec': Record, err: bool)
      modifies this
      ensures Work(View(), rec', err) == QueryResult(old(View()), i, approved, rec, answer)
    {
      hide Mirror;
      rec', err := rec, false;
      match answer {
        case Unformatted =>
          status := Status(false, true, [], 0, 0, False);
          rec' := rec.(event := Some(SawUnformatted));
        case TimedOut(down) =>
          var ranks, joined := MarkDown(status.ranks, i.configs, Replicas(down));
          status := status.(ranks := ranks, joined := joined, condition := True(false));
        case Members(members) =>
          rec', err := CopyMembers(i, approved, rec, members);
        case _ =>
          status := status.(condition := Unknown);
      }
      hold := Some(HoldUntil(i.now, status));
    }

    method RunQuery(i: Input, approved: bool, rec: Record) returns (rec': Record, err: bool)
      modifies this
      ensures Work(View(), rec', err) == QueryStep(old(View()), i, approved, rec)
    {
      rec', err := rec, false;
      if hold.Some? && hold.value > i.now { return; }
      var (b, out) := RunJob(box, QUERY_JOB, ["system", "query", "-v"], i.fault);
      box := b;
      match out
      case ApiError => err := true;
      case Pending => if status.condition.Unset? { status := status.(condition := Unknown); }
      case Done(_, _, answer) => rec', err := ReadQuery(i, approved, rec, answer);
    }

    method RunGate(i: Input, rec: Record) returns (rec': Record, err: bool)
      modifies this
      ensures Work(View(), rec', err) == Gate(old(View()), i, rec)
    {
      hide FormatStep, QueryStep, FormatHosts;
      var approved := approval == Some("true") && !i.external;
      var needFormat := approved && status.pending;
      var only: seq<string> := [];
      if needFormat && status.formatted {
        only := FindHosts(status.ranks, i.configs);
        if only == [] { needFormat := false; }
      }
      if needFormat {
        rec', err := RunFormat(i, only, rec);
      } else {
        rec', err := RunQuery(i, approved, rec);
      }
    }

    /** `reconcileFormat` on the working copy of the status. */
    method ReconcileFormat(i: Input, rec: Record) returns (rec': Record, err: bool)
      modifies this
      ensures Work(View(), rec', err) == Decide(old(View()), i, rec)
    {
      hide Gate;
      if !i.external && (!i.enabled || Rendered(i.configs) == 0) {
        status := status.(condition := Unknown);
        return rec, false;
      }
      if i.external && approval == Some("true") {
        var ok := Clear(i.clearFails);
        if !ok { return rec, true; }
      }
      rec', err := RunGate(i, rec);
    }

    /** One pass: an error, of this step or a later one, leaves the stored status as it was. */
    method Reconcile(i: Input) returns (rec: Record)
      modifies this
      ensures (View(), rec) == Pass(old(View()), i)
    {
      var stored := status;
      var err;
      rec, err := ReconcileFormat(i, Record(true, i.external, approval, status.ranks, i.configs, i.enabled, box.nextId,
                                             None, None, None, None, false));
      if err || i.lost {
        status := stored;
        rec := rec.(stored := false);
      }
    }
  }
}
