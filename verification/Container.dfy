/** One DaosContainer (internal/controller/daoscontainer_controller.go): query, create, ACL, deletion, and the
    protocol that clears a refused container (DER_RF) once its pool is known to be whole again. */
module Container {
  import opened Text
  import opened DaosStatus
  import opened Mailbox

  const QUERY_JOB := "daos-query"
  const WAIT: int := 30 * SECOND
  /** The longest a refusal is kept without a newer pool query. */
  const PENDING_MAX: int := 3 * MINUTE

  datatype Op = Create | Acl | Heal | Destroy

  function JobOf(op: Op): string {
    match op
    case Create => "daos-create"
    case Acl => "daos-acl"
    case Heal => "daos-heal"
    case Destroy => "daos-destroy"
  }

  function FailedReason(op: Op): string {
    match op
    case Create => "CreateFailed"
    case Acl => "AclFailed"
    case Heal => "HealFailed"
    case Destroy => "DestroyFailed"
  }

  /** The DaosPool as this controller reads it: a copy, possibly an old one. */
  datatype PoolView = PoolView(
    uuid: string, optedIn: bool, mode: string, state: string, rebuild: string, disabled: int, lastQuery: Option<int>)

  /** Refused is DER_RF; started is when the query's container started, if Kubernetes says so. */
  datatype Answer =
    | Unreadable
    | NotFound
    | OtherError
    | Refused(started: Option<int>)
    | Queried(uuid: string, health: string)
    | Applied

  predicate Succeeded(a: Answer) { !a.Unreadable? && !a.NotFound? && !a.OtherError? && !a.Refused? }

  datatype Status = Status(uuid: string, aclHash: string, operation: Option<Op>, observed: nat, reason: string)

  /** mark is the operator's own memory: when the refused query ran that waits for a fresher pool status. */
  datatype State = State(
    generation: nat, acl: string, status: Status, deleting: bool, approved: bool, finalizer: bool,
    mark: Option<int>, hold: Option<int>, box: Box<Answer>)

  /** pool is None when there is no DaosPool, systemFound is about its DaosSystem; acl is a hash. */
  datatype Input = Input(now: int, pool: Option<PoolView>, systemFound: bool, fault: Fault, updateFails: bool,
      lost: bool)

  /** What one pass found (uuid, operation, mark) and did: queried says it asked for the query Job, refused
      holds what Kubernetes says on when a refused query it read ran, decided the time and the pool it judged a
      refused query by. sent and taken name the operation whose Job it created and whose result it took; left and
      kept are the operation and the mark at its end. */
  datatype Record = Record(
    stored: bool, uuid: string, operation: Option<Op>, now: int, mark: Option<int>, queried: bool,
    refused: Option<Option<int>>,
    decided: Option<(int, PoolView)>, timedOut: bool, started: Option<Op>, sent: Option<Op>, taken: Option<Op>,
    uuidRead: Option<string>, deleting: bool, approved: bool, destroyRun: bool, destroyed: Option<Answer>,
    released: bool,
    left: Option<Op>, kept: Option<int>)

  datatype Work = Work(s: State, rec: Record, err: bool)

  function SetReason(s: State, reason: string): State { s.(status := s.status.(reason := reason)) }

  /** The operation, if running its Job created the Job. */
  function Created(op: Op, before: Box<Answer>, b: Box<Answer>): Option<Op> {
    if b.nextId > before.nextId then Some(op) else None
  }

  /** The result of a Job that was there already is dropped. */
  function StartOp(s: State, i: Input, op: Op, rec: Record): Work {
    var (b, out) := RunJob(s.box, JobOf(op), [s.acl], i.fault);
    var s' := s.(box := b);
    if out.ApiError? then Work(s', rec, true)
    else
      Work(s'.(status := s'.status.(operation := Some(op), reason := "InProgress")),
           rec.(started := Some(op), sent := Created(op, s.box, b), taken := if out.Done? then Some(op) else None),
               false)
  }

  /** The pool is known to be whole and to have kept its data, apart from how fresh that knowledge is. */
  predicate Whole(v: PoolView) {
    v.optedIn && v.mode == "incremental" && v.disabled == 0 && v.state == "Ready"
    && (v.rebuild == "done" || v.rebuild == "idle")
  }

  predicate Fresh(v: PoolView, queried: int) { v.lastQuery.Some? && v.lastQuery.value >= queried }

  /** `rfExceeded` */
  function Judge(s: State, i: Input, v: PoolView, queried: int, rec: Record): Work {
    var s' := s.(mark := None);
    var rec' := rec.(decided := Some((queried, v)));
    if !Whole(v) then Work(SetReason(s', "FailuresExceedRF"), rec', false)
    else if !Fresh(v, queried) then
      if i.now - queried < PENDING_MAX then Work(SetReason(s'.(mark := Some(queried)), "FailuresExceedRF"), rec', false)
      else Work(SetReason(s', "FailuresExceedRF"), rec'.(timedOut := true), false)
    else StartOp(s', i, Heal, rec')
  }

  function QueriedAt(started: Option<int>, now: int): int { if started.Some? then started.value else now }

  function NotThere(s: State, i: Input, rec: Record): Work {
    if s.status.uuid != "" then Work(SetReason(s, "ContainerMissing"), rec, false)
    else if s.status.reason == "CreateFailed" && s.status.observed == s.generation then Work(s, rec, false)
    else StartOp(s, i, Create, rec)
  }

  function Mirror(s: State, i: Input, rec: Record, uuid: string, health: string): Work {
    var s' := s.(status := s.status.(uuid := uuid));
    var rec' := rec.(uuidRead := Some(uuid));
    if s.acl != "" && s.acl != s.status.aclHash
        && !(s.status.reason == "AclFailed" && s.status.observed == s.generation) then
      StartOp(s', i, Acl, rec')
    else Work(SetReason(s', if health == "HEALTHY" || health == "" then "Ready" else "Health"), rec', false)
  }

  function Probe(s: State, i: Input, v: PoolView, rec: Record): Work {
    if s.hold.Some? && s.hold.value > i.now then Work(s, rec, false)
    else
      var (b, out) := RunJob(s.box, QUERY_JOB, [], i.fault);
      var s' := s.(box := b);
      var rec' := rec.(queried := true);
      match out
      case ApiError => Work(s', rec', true)
      case Pending => Work(if s.status.reason == "" then SetReason(s', "Probing") else s', rec', false)
      case Done(_, _, answer) => Read(s'.(hold := Some(i.now + WAIT)), i, v, rec', answer)
  }

  function Read(s: State, i: Input, v: PoolView, rec: Record, answer: Answer): Work {
    match answer
    case Refused(started) =>
      var at := QueriedAt(started, i.now);
      Judge(s, i, v, at, rec.(refused := Some(started)))
    case NotFound => NotThere(s, i, rec)
    case Queried(uuid, health) => Mirror(s, i, rec, uuid, health)
    case OtherError => Work(SetReason(s, "QueryError"), rec, false)
    case _ => Work(SetReason(s, "ProbeFailed"), rec, false)
  }

  function Poll(s: State, i: Input, op: Op, rec: Record): Work {
    var (b, out) := RunJob(s.box, JobOf(op), [s.acl], i.fault);
    var s' := s.(box := b);
    match out
    case ApiError => Work(s', rec, true)
    case Pending => Work(s', rec.(sent := Created(op, s.box, b)), false)
    case Done(_, _, answer) => Finish(s', op, rec.(taken := Some(op)), answer)
  }

  function Finish(s: State, op: Op, rec: Record, answer: Answer): Work {
    var st := s.status.(operation := None, observed := s.generation);
    if !Succeeded(answer) then Work(s.(status := st.(reason := FailedReason(op))), rec, false)
    else
      var created := op.Create? && answer.Queried?;
      var st' := st.(
        uuid := if created then answer.uuid else st.uuid,
        aclHash := if op.Create? || op.Acl? then s.acl else st.aclHash,
        reason := "Querying");
      Work(s.(status := st', hold := None), rec.(uuidRead := if created then Some(answer.uuid) else rec.uuidRead),
           false)
  }

  function Release(s: State, i: Input, rec: Record): Work {
    if i.updateFails then Work(s, rec, true) else Work(s.(finalizer := false), rec.(released := true), false)
  }

  function Finalize(s: State, i: Input, v: PoolView, rec: Record): Work {
    if !s.finalizer then Work(s, rec, false)
    else if !s.approved || s.status.uuid == "" || v.uuid == "" then Release(s, i, rec)
    else if s.hold.Some? && s.hold.value > i.now then Work(s, rec, false)
    else RunDestroy(s, i, rec)
  }

  function RunDestroy(s: State, i: Input, rec: Record): Work {
    var (b, out) := RunJob(s.box, JobOf(Destroy), [s.acl], i.fault);
    var s' := s.(box := b);
    var rec' := rec.(destroyRun := b.nextId > s.box.nextId);
    match out
    case ApiError => Work(s', rec', true)
    case Pending =>
      if s.status.operation == Some(Destroy) then Work(s', rec', false)
      else Work(s'.(status := s'.status.(operation := Some(Destroy), reason := "Destroying")), rec', false)
    case Done(_, _, answer) => Destroyed(s', i, rec'.(destroyed := Some(answer)), answer)
  }

  function Destroyed(s: State, i: Input, rec: Record, answer: Answer): Work {
    if Succeeded(answer) || answer.NotFound? then Release(s, i, rec)
    else Work(s.(status := s.status.(operation := None, reason := "DestroyFailed"), hold := Some(i.now + WAIT)), rec,
              false)
  }

  function Decide(s: State, i: Input, rec: Record): Work {
    if i.pool.None? || !i.systemFound then
      if !s.deleting then Work(SetReason(s, if i.pool.None? then "PoolNotFound" else "SystemNotFound"), rec, false)
      else if !s.finalizer then Work(s, rec, false)
      else Release(s, i, rec)
    else if !s.deleting && !s.finalizer then
      if i.updateFails then Work(s, rec, true) else Work(s.(finalizer := true), rec, false)
    else if s.deleting then Finalize(s.(mark := None), i, i.pool.value, rec)
    else if i.pool.value.uuid == "" then Work(SetReason(s, "PoolNotReady"), rec, false)
    else Serve(s, i, i.pool.value, rec)
  }

  /** The part of a pass that looks after an existing container. */
  function Serve(s: State, i: Input, v: PoolView, rec: Record): Work {
    match s.status.operation
    case Some(op) => Poll(s, i, op, rec)
    case None => if s.mark.Some? then Judge(s, i, v, s.mark.value, rec) else Probe(s, i, v, rec)
  }

  function Blank(s: State, i: Input): Record {
    Record(true, s.status.uuid, s.status.operation, i.now, s.mark, false, None, None, false, None, None, None, None,
           s.deleting, s.approved, false, None, false, None, None)
  }

  function Sealed(w: Work): Record { w.rec.(left := w.s.status.operation, kept := w.s.mark) }

  function Pass(s: State, i: Input): (r: (State, Record)) {
    var w := Decide(s, i, Blank(s, i));
    if w.err || i.lost then (w.s.(status := s.status), Sealed(w).(stored := false)) else (w.s, Sealed(w))
  }

  // ---- the controller

  class ContainerController {
    const generation: nat
    const acl: string
    const deleting: bool
    const approved: bool
    var status: Status
    var finalizer: bool
    var mark: Option<int>
    var hold: Option<int>
    var box: Box<Answer>

    constructor (s: State)
      ensures View() == s
    {
      generation, acl, deleting, approved := s.generation, s.acl, s.deleting, s.approved;
      status, finalizer, mark, hold, box := s.status, s.finalizer, s.mark, s.hold, s.box;
    }

    ghost function View(): State
      reads this
    {
      State(generation, acl, status, deleting, approved, finalizer, mark, hold, box)
    }

    method RunStartOp(i: Input, op: Op, rec: Record) returns (rec': Record, err: bool)
      modifies this`status, this`box
      ensures Work(View(), rec', err) == StartOp(old(View()), i, op, rec)
    {
      var (b, out) := RunJob(box, JobOf(op), [acl], i.fault);
      var sent := Created(op, box, b);
      box := b;
      if out.ApiError? { return rec, true; }
      status := status.(operation := Some(op), reason := "InProgress");
      rec', err := rec.(started := Some(op), sent := sent, taken := if out.Done? then Some(op) else None), false;
    }

    method RfExceeded(i: Input, v: PoolView, queried: int, rec: Record) returns (rec': Record, err: bool)
      modifies this
      ensures Work(View(), rec', err) == Judge(old(View()), i, v, queried, rec)
    {
      hide StartOp;
      mark := None;
      rec', err := rec.(decided := Some((queried, v))), false;
      var refuse := true;
      if !v.optedIn || v.mode != "incremental" || v.disabled != 0 || v.state != "Ready" {
      } else if v.rebuild != "done" && v.rebuild != "idle" {
      } else if v.lastQuery.None? || v.lastQuery.value < queried {
        if i.now - queried < PENDING_MAX { mark := Some(queried); } else { rec' := rec'.(timedOut := true); }
      } else {
        refuse := false;
      }
      if refuse {
        status := status.(reason := "FailuresExceedRF");
      } else {
        rec', err := RunStartOp(i, Heal, rec');
      }
    }

    method RunMirror(i: Input, rec: Record, uuid: string, health: string) returns (rec': Record, err: bool)
      modifies this`status, this`box
      ensures Work(View(), rec', err) == Mirror(old(View()), i, rec, uuid, health)
    {
      hide StartOp;
      var failed := status.reason == "AclFailed" && status.observed == generation;
      status := status.(uuid := uuid);
      rec', err := rec.(uuidRead := Some(uuid)), false;
      if acl != "" && acl != status.aclHash && !failed {
        rec', err := RunStartOp(i, Acl, rec');
      } else {
        status := status.(reason := if health == "HEALTHY" || health == "" then "Ready" else "Health");
      }
    }

    method RunNotThere(i: Input, rec: Record) returns (rec': Record, err: bool)
      modifies this`status, this`box
      ensures Work(View(), rec', err) == NotThere(old(View()), i, rec)
    {
      hide StartOp;
      rec', err := rec, false;
      if status.uuid != "" {
        status := status.(reason := "ContainerMissing");
      } else if !(status.reason == "CreateFailed" && status.observed == generation) {
        rec', err := RunStartOp(i, Create, rec);
      }
    }

    method RunProbe(i: Input, v: PoolView, rec: Record) returns (rec': Record, err: bool)
      modifies this
      ensures Work(View(), rec', err) == Probe(old(View()), i, v, rec)
    {
      hide Judge, Mirror, NotThere;
      rec', err := rec, false;
      if hold.Some? && hold.value > i.now { return; }
      var (b, out) := RunJob(box, QUERY_JOB, [], i.fault);
      box := b;
      rec' := rec.(queried := true);
      if out.ApiError? { return rec', true; }
      if out.Pending? {
        if status.reason == "" { status := status.(reason := "Probing"); }
        return;
      }
      hold := Some(i.now + WAIT);
      match out.answer
      case Refused(started) =>
        var at := QueriedAt(started, i.now);
        rec', err := RfExceeded(i, v, at, rec'.(refused := Some(started)));
      case NotFound => rec', err := RunNotThere(i, rec');
      case Queried(uuid, health) => rec', err := RunMirror(i, rec', uuid, health);
      case OtherError => status := status.(reason := "QueryError");
      case _ => status := status.(reason := "ProbeFailed");
    }

    method RunPoll(i: Input, op: Op, rec: Record) returns (rec': Record, err: bool)
      modifies this
      ensures Work(View(), rec', err) == Poll(old(View()), i, op, rec)
    {
      hide Finish, RunJob, JobOf;
      ghost var was := View();
      var (b, out) := RunJob(box, JobOf(op), [acl], i.fault);
      rec', err := rec, out.ApiError?;
      if out.Pending? { rec' := rec.(sent := Created(op, box, b)); }
      box := b;
      assert View() == was.(box := b);
      if out.Done? { rec', err := RunFinish(op, rec.(taken := Some(op)), out.answer); }
    }

    method RunFinish(op: Op, rec: Record, answer: Answer) returns (rec': Record, err: bool)
      modifies this`status, this`hold
      ensures Work(View(), rec', err) == Finish(old(View()), op, rec, answer)
    {
      rec', err := rec, false;
      status := status.(operation := None, observed := generation);
      if !Succeeded(answer) {
        status := status.(reason := FailedReason(op));
        return;
      }
      if op.Create? && answer.Queried? {
        status := status.(uuid := answer.uuid);
        rec' := rec.(uuidRead := Some(answer.uuid));
      }
      if op.Create? || op.Acl? { status := status.(aclHash := acl); }
      status := status.(reason := "Querying");
      hold := None;
    }

    method RemoveFinalizer(i: Input, rec: Record) returns (rec': Record, err: bool)
      modifies this`finalizer
      ensures Work(View(), rec', err) == Release(old(View()), i, rec)
    {
      if i.updateFails { return rec, true; }
      finalizer := false;
      rec', err := rec.(released := true), false;
    }

    method RunFinalize(i: Input, v: PoolView, rec: Record) returns (rec': Record, err: bool)
      modifies this
      ensures Work(View(), rec', err) == Finalize(old(View()), i, v, rec)
    {
      hide Release, RunDestroy;
      rec', err := rec, false;
      if !finalizer { return; }
      if !approved || status.uuid == "" || v.uuid == "" {
        rec', err := RemoveFinalizer(i, rec);
        return;
      }
      if hold.Some? && hold.value > i.now { return; }
      rec', err := PollDestroy(i, rec);
    }

    method PollDestroy(i: Input, rec: Record) returns (rec': Record, err: bool)
      modifies this
      ensures Work(View(), rec', err) == RunDestroy(old(View()), i, rec)
    {
      hide Destroyed, RunJob, JobOf, Release;
      ghost var was := View();
      err := false;
      var (b, out) := RunJob(box, JobOf(Destroy), [acl], i.fault);
      rec' := rec.(destroyRun := b.nextId > box.nextId);
      box := b;
      assert View() == was.(box := b);
      match out
      case ApiError => err := true;
      case Pending =>
        if status.operation != Some(Destroy) { status := status.(operation := Some(Destroy), reason := "Destroying"); }
      case Done(_, _, answer) => rec', err := ReadDestroy(i, rec'.(destroyed := Some(answer)), answer);
    }

    method ReadDestroy(i: Input, rec: Record, answer: Answer) returns (rec': Record, err: bool)
      modifies this
      ensures Work(View(), rec', err) == Destroyed(old(View()), i, rec, answer)
    {
      rec', err := rec, false;
      if Succeeded(answer) || answer.NotFound? {
        rec', err := RemoveFinalizer(i, rec);
      } else {
        status := status.(operation := None, reason := "DestroyFailed");
        hold := Some(i.now + WAIT);
      }
    }

    method RunServe(i: Input, v: PoolView, rec: Record) returns (rec': Record, err: bool)
      modifies this
      ensures Work(View(), rec', err) == Serve(old(View()), i, v, rec)
    {
      hide Poll, Judge, Probe;
      if status.operation.Some? {
        rec', err := RunPoll(i, status.operation.value, rec);
      } else if mark.Some? {
        rec', err := RfExceeded(i, v, mark.value, rec);
      } else {
        rec', err := RunProbe(i, v, rec);
      }
    }

    method RunDecide(i: Input, rec: Record) returns (rec': Record, err: bool)
      modifies this
      ensures Work(View(), rec', err) == Decide(old(View()), i, rec)
    {
      hide Finalize, Serve, Release;
      rec', err := rec, false;
      if i.pool.None? || !i.systemFound {
        if !deleting {
          status := status.(reason := if i.pool.None? then "PoolNotFound" else "SystemNotFound");
        } else if finalizer {
          rec', err := RemoveFinalizer(i, rec);
        }
      } else if !deleting && !finalizer {
        if i.updateFails { return rec, true; }
        finalizer := true;
      } else if deleting {
        mark := None;
        rec', err := RunFinalize(i, i.pool.value, rec);
      } else if i.pool.value.uuid == "" {
        status := status.(reason := "PoolNotReady");
      } else {
        rec', err := RunServe(i, i.pool.value, rec);
      }
    }

    /** `Reconcile`: an error, or a failed status write, leaves the stored status as it was; the operator's
        own memory and the Jobs keep what the pass did. */
    method Reconcile(i: Input) returns (rec: Record)
      modifies this
      ensures (View(), rec) == Pass(old(View()), i)
    {
      hide Decide;
      var stored := status;
      var err;
      rec := Record(true, status.uuid, status.operation, i.now, mark, false, None, None, false, None, None, None, None,
                    deleting, approved, false, None, false, None, None);
      rec, err := RunDecide(i, rec);
      rec := rec.(left := status.operation, kept := mark);
      if err || i.lost {
        status := stored;
        rec := rec.(stored := false);
      }
    }
  }
}
