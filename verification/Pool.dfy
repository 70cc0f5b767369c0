/** One DaosPool (internal/controller/daospool_controller.go): query, create, repair drift one operation at
    a time, and decide on deletion whether the DAOS pool goes too. */
module Pool {
  import opened Collections
  import opened Text
  import opened DaosStatus
  import opened Mailbox
  import opened RankSet

  const QUERY_JOB := "dmg-query"
  const WAIT: int := 30 * SECOND
  const STALL_AFTER: nat := 3

  datatype Op = Create | Extend | Acl | ReintMode | SelfHeal | Destroy

  function JobOf(op: Op): string {
    match op
    case Create => "dmg-create"
    case Extend => "dmg-extend"
    case Acl => "dmg-acl"
    case ReintMode => "dmg-reintmode"
    case SelfHeal => "dmg-selfheal"
    case Destroy => "dmg-destroy"
  }

  /** The operation's name with a capital letter, then "Failed". */
  function FailedReason(op: Op): string {
    match op
    case Create => "CreateFailed"
    case Extend => "ExtendFailed"
    case Acl => "AclFailed"
    case ReintMode => "ReintmodeFailed"
    case SelfHeal => "SelfhealFailed"
    case Destroy => "DestroyFailed"
  }

  datatype Spec = Spec(
    generation: nat, ranks: seq<int>, acl: seq<string>, kvcache: bool, redundancy: string, rf: Option<int>,
    reintegration: Option<string>)

  /** A pool query: started is when its container started, if Kubernetes says so; mode and heal are the two
      properties of the get-prop that follows, if it answered. */
  datatype Info = Info(
    uuid: string, state: string, rebuild: string, disabled: int, enabled: seq<int>, mode: Option<string>,
    heal: Option<string>, healthOnly: bool, started: Option<int>)

  datatype Answer =
    | Unreadable
    | NotFound
    | OtherError
    | Queried(info: Info)
    | CreatedPool(uuid: string, ranks: seq<int>)
    | Applied

  /** dmg answered without an error. */
  predicate Succeeded(a: Answer) { !a.Unreadable? && !a.NotFound? && !a.OtherError? }

  /** lastQuery is kept in whole seconds, as Kubernetes stores times; reason is that of the Ready condition. */
  datatype Status = Status(
    uuid: string, state: string, rebuild: string, disabled: int, lastQuery: Option<int>, enabled: seq<int>,
    mode: string, heal: string, aclHash: string, operation: Option<Op>, observed: nat, reason: string, attempts: nat)

  datatype State = State(
    spec: Spec, status: Status, deleting: bool, approved: bool, finalizer: bool, hold: Option<int>, box: Box<Answer>)

  datatype Input = Input(now: int, systemFound: bool, formatted: bool, fault: Fault, updateFails: bool, lost: bool)

  /** What one pass found (spec, found) and did: the query it read and at what time, or that there was no pool
      to query; the operation it started, or polled to its end with the number and arguments of the Job; the
      operation whose Job it created, with the Job's number. after is the status it came to, err says that a
      call failed. */
  datatype Record = Record(
    stored: bool, spec: Spec, found: Status, deleting: bool, approved: bool, read: Option<(int, Info)>, missing: bool,
    started: Option<Op>, sent: Option<(Op, nat)>, polled: Option<(Op, seq<string>, Answer)>, polledId: nat,
    destroyRun: bool, destroyed: Option<Answer>, stalled: bool, released: bool, after: Status, err: bool)

  datatype Work = Work(s: State, rec: Record, err: bool)

  // ---- what the spec asks for

  function Redundancy(spec: Spec): string { if spec.redundancy != "" then spec.redundancy else "none" }

  function RedundancyFactor(spec: Spec): int {
    if spec.kvcache then (if Redundancy(spec) == "ec" then 1 else 0) else if spec.rf.Some? then spec.rf.value else 2
  }

  function PinnedReintegration(spec: Spec): Option<string> {
    if spec.reintegration.Some? then spec.reintegration
    else if RedundancyFactor(spec) == 0 then Some("incremental") else None
  }

  function ReintegrationMode(spec: Spec): string {
    if PinnedReintegration(spec).Some? then PinnedReintegration(spec).value else "data_sync"
  }

  function PinnedSelfHeal(spec: Spec): Option<string> {
    if spec.kvcache && Redundancy(spec) == "none" then Some("none") else None
  }

  /** The pinned value, "" when nothing is pinned. */
  function Pin(p: Option<string>): string { if p.Some? then p.value else "" }

  /** A stand-in for the truncated SHA-256 of the joined entries: the joined entries. */
  function AclHash(acl: seq<string>): string { if acl == [] then "" else Join(acl, '\n') }

  /** The ranks of want not seen yet, each once, in the order of want. */
  function Unseen(want: seq<int>, seen: set<int>): seq<int> {
    if want == [] then []
    else if want[0] in seen then Unseen(want[1..], seen)
    else [want[0]] + Unseen(want[1..], seen + {want[0]})
  }

  function MissingRanks(want: seq<int>, have: seq<int>): seq<int> { SortInts(Unseen(want, set r | r in have)) }

  function Args(spec: Spec, op: Op, enabled: seq<int>): seq<string> {
    match op
    case Create => ["pool", "create"] + spec.acl
    case Extend => ["pool", "extend", "--ranks=" + RankListText(MissingRanks(spec.ranks, enabled))]
    case Acl => ["pool", "overwrite-acl"] + spec.acl
    case ReintMode => ["pool", "set-prop", "reintegration:" + Pin(PinnedReintegration(spec))]
    case SelfHeal => ["pool", "set-prop", "self_heal:" + Pin(PinnedSelfHeal(spec))]
    case Destroy => ["pool", "destroy", "--recursive"]
  }

  // ---- drift

  predicate FailedForSpec(spec: Spec, st: Status, reason: string) {
    st.reason == reason && st.observed == spec.generation
  }

  predicate NeedsExtend(spec: Spec, st: Status) {
    spec.ranks != [] && st.enabled != [] && MissingRanks(spec.ranks, st.enabled) != []
  }

  predicate NeedsAcl(spec: Spec, st: Status) { AclHash(spec.acl) != "" && AclHash(spec.acl) != st.aclHash }

  predicate NeedsMode(spec: Spec, st: Status) {
    PinnedReintegration(spec).Some? && st.mode != "" && st.mode != PinnedReintegration(spec).value
  }

  predicate NeedsHeal(spec: Spec, st: Status) {
    PinnedSelfHeal(spec).Some? && st.heal != "" && st.heal != PinnedSelfHeal(spec).value
  }

  /** The one operation a pass starts for the drift it sees. */
  function Drift(spec: Spec, st: Status): Option<Op> {
    if NeedsExtend(spec, st) && !FailedForSpec(spec, st, "ExtendFailed") then Some(Extend)
    else if NeedsAcl(spec, st) && !FailedForSpec(spec, st, "ACLFailed") then Some(Acl)
    else if NeedsMode(spec, st) && !FailedForSpec(spec, st, "ReintmodeFailed") then Some(ReintMode)
    else if NeedsHeal(spec, st) && !FailedForSpec(spec, st, "SelfhealFailed") then Some(SelfHeal)
    else None
  }

  // ---- one pass

  function Seconds(t: int): int { t - t % SECOND }

  function QueriedAt(info: Info, now: int): int { if info.started.Some? then info.started.value else now }

  /** A pool query is copied as a whole. */
  function Copied(st: Status, info: Info, now: int): Status {
    st.(uuid := info.uuid, state := info.state, rebuild := info.rebuild, disabled := info.disabled,
        enabled := info.enabled, lastQuery := Some(Seconds(QueriedAt(info, now))),
        mode := if info.mode.Some? then info.mode.value else st.mode,
        heal := if info.heal.Some? then info.heal.value else st.heal)
  }

  function SetReason(s: State, reason: string): State { s.(status := s.status.(reason := reason)) }

  /** The Job of an operation and its number, if running it created it. */
  function Created(op: Op, before: Box<Answer>, b: Box<Answer>): Option<(Op, nat)> {
    if b.nextId > before.nextId then Some((op, before.nextId)) else None
  }

  function StartOp(s: State, i: Input, op: Op, rec: Record): Work {
    var (b, out) := RunJob(s.box, JobOf(op), Args(s.spec, op, s.status.enabled), i.fault);
    var s' := s.(box := b);
    if out.ApiError? then Work(s', rec, true)
    else
      Work(s'.(status := s'.status.(operation := Some(op), reason := "InProgress")),
           rec.(started := Some(op), sent := Created(op, s.box, b)), false)
  }

  function Mirror(s: State, i: Input, info: Info, rec: Record): Work {
    var s' := s.(status := Copied(s.status, info, i.now));
    var rec' := rec.(read := Some((i.now, info)));
    if info.healthOnly then
        Work(SetReason(s', if info.state == "Ready" then "ReadyHealthOnly" else "State"), rec', false)
    else
      match Drift(s'.spec, s'.status)
      case Some(op) => StartOp(s', i, op, rec')
      case None => Work(SetReason(s', if info.state == "Ready" then "Ready" else "State"), rec', false)
  }

  function Missing(s: State, i: Input, rec: Record): Work {
    if s.status.uuid != "" then Work(SetReason(s, "PoolMissing"), rec, false)
    else if FailedForSpec(s.spec, s.status, "CreateFailed") then Work(s, rec, false)
    else StartOp(s, i, Create, rec)
  }

  function Probe(s: State, i: Input, rec: Record): Work {
    if s.hold.Some? && s.hold.value > i.now then Work(s, rec, false)
    else
      var (b, out) := RunJob(s.box, QUERY_JOB, ["pool", "query"], i.fault);
      var s' := s.(box := b);
      match out
      case ApiError => Work(s', rec, true)
      case Pending => Work(if s.status.reason == "" then SetReason(s', "Probing") else s', rec, false)
      case Done(_, _, answer) =>
        var s1 := s'.(hold := Some(i.now + WAIT));
        match answer
        case NotFound => Missing(s1, i, rec.(missing := true))
        case Queried(info) => Mirror(s1, i, info, rec)
        case OtherError => Work(SetReason(s1, "QueryError"), rec, false)
        case _ => Work(SetReason(s1, "ProbeFailed"), rec, false)
  }

  function Poll(s: State, i: Input, op: Op, rec: Record): Work {
    var (b, out) := RunJob(s.box, JobOf(op), Args(s.spec, op, s.status.enabled), i.fault);
    var s' := s.(box := b);
    match out
    case ApiError => Work(s', rec, true)
    case Pending => Work(s', rec.(sent := Created(op, s.box, b)), false)
    case Done(id, args, answer) => Finish(s', op, rec.(polled := Some((op, args, answer)), polledId := id), answer)
  }

  function Finish(s: State, op: Op, rec: Record, answer: Answer): Work {
    var st := s.status.(operation := None, observed := s.spec.generation);
    if !Succeeded(answer) || (op.Create? && !answer.CreatedPool?) then
      Work(s.(status := st.(reason := FailedReason(op))), rec, false)
    else
      var st' :=
        match op
        case Create =>
          st.(uuid := answer.uuid, enabled := answer.ranks, mode := ReintegrationMode(s.spec),
              aclHash := AclHash(s.spec.acl))
        case Acl => st.(aclHash := AclHash(s.spec.acl))
        case ReintMode => st.(mode := Pin(PinnedReintegration(s.spec)))
        case SelfHeal => st.(heal := Pin(PinnedSelfHeal(s.spec)))
        case _ => st;
      Work(s.(status := st'.(reason := "Querying"), hold := None), rec, false)
  }

  function Release(s: State, i: Input, rec: Record): Work {
    if i.updateFails then Work(s, rec, true) else Work(s.(finalizer := false), rec.(released := true), false)
  }

  function Finalize(s: State, i: Input, rec: Record): Work {
    if !s.finalizer then Work(s, rec, false)
    else if !s.approved || s.status.uuid == "" then Release(s, i, rec)
    else RunDestroy(s, i, rec)
  }

  function RunDestroy(s: State, i: Input, rec: Record): Work {
    var (b, out) := RunJob(s.box, JobOf(Destroy), Args(s.spec, Destroy, s.status.enabled), i.fault);
    var s' := s.(box := b);
    match out
    case ApiError => Work(s', rec, true)
    case Pending =>
      var reason := if s.status.attempts < STALL_AFTER then "Destroying" else s.status.reason;
      Work(if s.status.operation == Some(Destroy) then s'
           else s'.(status := s'.status.(operation := Some(Destroy), reason := reason)),
           rec.(destroyRun := b.nextId > s.box.nextId), false)
    case Done(_, _, answer) => Destroyed(s', i, rec.(destroyed := Some(answer)), answer)
  }

  function Destroyed(s: State, i: Input, rec: Record, answer: Answer): Work {
    if Succeeded(answer) || answer.NotFound? then Release(s, i, rec)
    else
      var n := s.status.attempts + 1;
      Work(s.(status := s.status.(operation := None, attempts := n,
                                  reason := if n >= STALL_AFTER then "DestroyStalled" else "DestroyFailed")),
           rec.(stalled := n == STALL_AFTER), false)
  }

  function Decide(s: State, i: Input, rec: Record): Work {
    if !i.systemFound then Work(SetReason(s, "SystemNotFound"), rec, false)
    else if !s.deleting && !s.finalizer then
      if i.updateFails then Work(s, rec, true) else Work(s.(finalizer := true), rec, false)
    else if s.deleting then Finalize(s, i, rec)
    else if !i.formatted then Work(SetReason(s, "SystemNotFormatted"), rec, false)
    else
      match s.status.operation
      case Some(op) => Poll(s, i, op, rec)
      case None => Probe(s, i, rec)
  }

  function Blank(s: State): Record {
    Record(true, s.spec, s.status, s.deleting, s.approved, None, false, None, None, None, 0, false, None, false, false,
           s.status, false)
  }

  function Sealed(w: Work): Record { w.rec.(after := w.s.status, err := w.err) }

  function Pass(s: State, i: Input): (r: (State, Record)) {
    var w := Decide(s, i, Blank(s));
    if w.err || i.lost then (w.s.(status := s.status), Sealed(w).(stored := false)) else (w.s, Sealed(w))
  }

  // ---- the controller

  /** `missingRanks` */
  method FindMissing(want: seq<int>, have: seq<int>) returns (out: seq<int>)
    ensures out == MissingRanks(want, have)
  {
    var seen: set<int> := {};
    for k := 0 to |have|
      invariant seen == set r | r in have[..k]
    {
      assert have[..k + 1] == have[..k] + [have[k]];
      seen := seen + {have[k]};
    }
    assert have[..|have|] == have;
    ghost var start := seen;
    out := [];
    assert want[0..] == want;
    for k := 0 to |want|
      invariant Unseen(want, start) == out + Unseen(want[k..], seen)
    {
      assert want[k..][1..] == want[k + 1..];
      if want[k] !in seen {
        out := out + [want[k]];
        seen := seen + {want[k]};
      }
    }
    assert want[|want|..] == [] && out + [] == out;
    out := SortInts(out);
  }

  class PoolController {
    const spec: Spec
    var status: Status
    const deleting: bool
    const approved: bool
    var finalizer: bool
    var hold: Option<int>
    var box: Box<Answer>

    constructor (s: State)
      ensures View() == s
    {
      spec, status, deleting, approved, finalizer, hold, box :=
        s.spec, s.status, s.deleting, s.approved, s.finalizer, s.hold, s.box;
    }

    ghost function View(): State
      reads this
    {
      State(spec, status, deleting, approved, finalizer, hold, box)
    }

    method RunStartOp(i: Input, op: Op, rec: Record) returns (rec': Record, err: bool)
      modifies this`status, this`box
      ensures Work(View(), rec', err) == StartOp(old(View()), i, op, rec)
    {
      var (b, out) := RunJob(box, JobOf(op), Args(spec, op, status.enabled), i.fault);
      var sent := Created(op, box, b);
      box := b;
      if out.ApiError? { return rec, true; }
      status := status.(operation := Some(op), reason := "InProgress");
      rec', err := rec.(started := Some(op), sent := sent), false;
    }

    method FindDrift() returns (op: Option<Op>)
      ensures op == Drift(spec, status)
    {
      var missing := FindMissing(spec.ranks, status.enabled);
      if spec.ranks != [] && status.enabled != [] && missing != [] && !FailedForSpec(spec, status, "ExtendFailed") {
        return Some(Extend);
      }
      var h := AclHash(spec.acl);
      if h != "" && h != status.aclHash && !FailedForSpec(spec, status, "ACLFailed") { return Some(Acl); }
      var mode := PinnedReintegration(spec);
      if mode.Some? && status.mode != "" && status.mode != mode.value
          && !FailedForSpec(spec, status, "ReintmodeFailed") {
        return Some(ReintMode);
      }
      var heal := PinnedSelfHeal(spec);
      if heal.Some? && status.heal != "" && status.heal != heal.value
          && !FailedForSpec(spec, status, "SelfhealFailed") {
        return Some(SelfHeal);
      }
      op := None;
    }

    method CopyQuery(i: Input, info: Info, rec: Record) returns (rec': Record, err: bool)
      modifies this
      ensures Work(View(), rec', err) == Mirror(old(View()), i, info, rec)
    {
      hide StartOp, Drift;
      status := Copied(status, info, i.now);
      rec', err := rec.(read := Some((i.now, info))), false;
      if info.healthOnly {
        status := status.(reason := if info.state == "Ready" then "ReadyHealthOnly" else "State");
        return;
      }
      var op := FindDrift();
      if op.Some? {
        rec', err := RunStartOp(i, op.value, rec');
      } else {
        status := status.(reason := if info.state == "Ready" then "Ready" else "State");
      }
    }

    method NotFoundByQuery(i: Input, rec: Record) returns (rec': Record, err: bool)
      modifies this
      ensures Work(View(), rec', err) == Missing(old(View()), i, rec)
    {
      hide StartOp;
      rec', err := rec, false;
      if status.uuid != "" {
        status := status.(reason := "PoolMissing");
      } else if !(status.reason == "CreateFailed" && status.observed == spec.generation) {
        rec', err := RunStartOp(i, Create, rec);
      }
    }

    method RunProbe(i: Input, rec: Record) returns (rec': Record, err: bool)
      modifies this
      ensures Work(View(), rec', err) == Probe(old(View()), i, rec)
    {
      hide Mirror, Missing;
      rec', err := rec, false;
      if hold.Some? && hold.value > i.now { return; }
      var (b, out) := RunJob(box, QUERY_JOB, ["pool", "query"], i.fault);
      box := b;
      if out.ApiError? { return rec, true; }
      if out.Pending? {
        if status.reason == "" { status := status.(reason := "Probing"); }
        return;
      }
      hold := Some(i.now + WAIT);
      match out.answer
      case NotFound => rec', err := NotFoundByQuery(i, rec.(missing := true));
      case Queried(info) => rec', err := CopyQuery(i, info, rec);
      case OtherError => status := status.(reason := "QueryError");
      case _ => status := status.(reason := "ProbeFailed");
    }

    method FinishOp(op: Op, rec: Record, answer: Answer)
      modifies this`status, this`hold
      ensures Work(View(), rec, false) == Finish(old(View()), op, rec, answer)
    {
      status := status.(operation := None, observed := spec.generation);
      if !Succeeded(answer) || (op.Create? && !answer.CreatedPool?) {
        status := status.(reason := FailedReason(op));
        return;
      }
      match op {
        case Create =>
          status := status.(uuid := answer.uuid, enabled := answer.ranks, mode := ReintegrationMode(spec),
                            aclHash := AclHash(spec.acl));
        case Acl => status := status.(aclHash := AclHash(spec.acl));
        case ReintMode => status := status.(mode := Pin(PinnedReintegration(spec)));
        case SelfHeal => status := status.(heal := Pin(PinnedSelfHeal(spec)));
        case _ =>
      }
      status := status.(reason := "Querying");
      hold := None;
    }

    method RunPoll(i: Input, op: Op, rec: Record) returns (rec': Record, err: bool)
      modifies this
      ensures Work(View(), rec', err) == Poll(old(View()), i, op, rec)
    {
      hide Finish, RunJob, JobOf, Args;
      ghost var was := View();
      var (b, out) := RunJob(box, JobOf(op), Args(spec, op, status.enabled), i.fault);
      rec', err := rec, out.ApiError?;
      if out.Pending? { rec' := rec.(sent := Created(op, box, b)); }
      box := b;
      assert View() == was.(box := b);
      if out.Done? {
        rec' := rec.(polled := Some((op, out.args, out.answer)), polledId := out.id);
        FinishOp(op, rec', out.answer);
      }
    }

    method RemoveFinalizer(i: Input, rec: Record) returns (rec': Record, err: bool)
      modifies this`finalizer
      ensures Work(View(), rec', err) == Release(old(View()), i, rec)
    {
      if i.updateFails { return rec, true; }
      finalizer := false;
      rec', err := rec.(released := true), false;
    }

    method ReadDestroy(i: Input, rec: Record, answer: Answer) returns (rec': Record, err: bool)
      modifies this
      ensures Work(View(), rec', err) == Destroyed(old(View()), i, rec, answer)
    {
      if Succeeded(answer) || answer.NotFound? {
        rec', err := RemoveFinalizer(i, rec);
        return;
      }
      var n := status.attempts + 1;
      var reason := if n >= STALL_AFTER then "DestroyStalled" else "DestroyFailed";
      status := status.(operation := None, attempts := n, reason := reason);
      rec', err := rec.(stalled := n == STALL_AFTER), false;
    }

    method RunFinalize(i: Input, rec: Record) returns (rec': Record, err: bool)
      modifies this
      ensures Work(View(), rec', err) == Finalize(old(View()), i, rec)
    {
      hide Release, RunDestroy;
      rec', err := rec, false;
      if !finalizer { return; }
      if !approved || status.uuid == "" {
        rec', err := RemoveFinalizer(i, rec);
        return;
      }
      rec', err := PollDestroy(i, rec);
    }

    method PollDestroy(i: Input, rec: Record) returns (rec': Record, err: bool)
      modifies this
      ensures Work(View(), rec', err) == RunDestroy(old(View()), i, rec)
    {
      hide Destroyed, RunJob, JobOf, Args;
      ghost var was := View();
      var (b, out) := RunJob(box, JobOf(Destroy), Args(spec, Destroy, status.enabled), i.fault);
      var grew := b.nextId > box.nextId;
      box := b;
      assert View() == was.(box := b);
      match out
      case ApiError => rec', err := rec, true;
      case Pending =>
        rec', err := rec.(destroyRun := grew), false;
        if status.operation != Some(Destroy) {
          var reason := if status.attempts < STALL_AFTER then "Destroying" else status.reason;
          status := status.(operation := Some(Destroy), reason := reason);
        }
      case Done(_, _, answer) => rec', err := ReadDestroy(i, rec.(destroyed := Some(answer)), answer);
    }

    method RunDecide(i: Input, rec: Record) returns (rec': Record, err: bool)
      modifies this
      ensures Work(View(), rec', err) == Decide(old(View()), i, rec)
    {
      hide Finalize, Poll, Probe;
      rec', err := rec, false;
      if !i.systemFound {
        status := status.(reason := "SystemNotFound");
      } else if !deleting && !finalizer {
        if i.updateFails { return rec, true; }
        finalizer := true;
      } else if deleting {
        rec', err := RunFinalize(i, rec);
      } else if !i.formatted {
        status := status.(reason := "SystemNotFormatted");
      } else if status.operation.Some? {
        rec', err := RunPoll(i, status.operation.value, rec);
      } else {
        rec', err := RunProbe(i, rec);
      }
    }

    /** `Reconcile`: an error, or a failed status write, leaves the stored status as it was. */
    method Reconcile(i: Input) returns (rec: Record)
      modifies this
      ensures (View(), rec) == Pass(old(View()), i)
    {
      hide Decide;
      var stored := status;
      var err;
      rec := Record(true, spec, status, deleting, approved, None, false, None, None, None, 0, false, None, false, false,
                    status, false);
      rec, err := RunDecide(i, rec);
      rec := rec.(after := status, err := err);
      if err || i.lost {
        status := stored;
        rec := rec.(stored := false);
      }
    }
  }
}
