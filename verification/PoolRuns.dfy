/** What a DaosPool keeps over every run: the spec and the approval change at any time, dmg answers anything,
    and any API call or status write of a pass may fail. */
module PoolRuns {
  import opened Collections
  import opened Text
  import opened Mailbox
  import opened Pool

  datatype World = World(s: State, trace: seq<Record>)

  datatype Step =
    | Edit(spec: Spec)
    | Delete
    | SetApproved(yes: bool)
    | OperatorRestart
    | Reconcile(i: Input)
    | JobFinished(name: string, answer: Answer)
    | JobGone(name: string)

  function Apply(w: World, step: Step): World {
    match step
    case Edit(spec) => w.(s := w.s.(spec := spec.(generation := w.s.spec.generation + 1)))
    case Delete => w.(s := w.s.(deleting := true))
    case SetApproved(v) => w.(s := w.s.(approved := v))
    case OperatorRestart => w.(s := w.s.(hold := None))
    case Reconcile(i) => var (s, rec) := Pass(w.s, i); World(s, w.trace + [rec])
    case JobFinished(name, answer) => w.(s := w.s.(box := FinishJob(w.s.box, name, answer)))
    case JobGone(name) => w.(s := w.s.(box := DropJob(w.s.box, name)))
  }

  const NewStatus: Status := Status("", "", "", 0, None, [], "", "", "", None, 0, "", 0)

  function Initial(spec: Spec): World {
    World(State(spec, NewStatus, false, false, false, None, Box(map[], 0)), [])
  }

  function Run(spec: Spec, steps: seq<Step>): World {
    if steps == [] then Initial(spec) else Apply(Run(spec, steps[..|steps| - 1]), steps[|steps| - 1])
  }

  // ---- missing ranks

  lemma {:induction false} UnseenExact(want: seq<int>, seen: set<int>, r: int)
    ensures r in Unseen(want, seen) <==> r in want && r !in seen
    ensures multiset(Unseen(want, seen))[r] <= 1
  {
    if want != [] {
      assert want == [want[0]] + want[1..];
      if want[0] in seen {
        UnseenExact(want[1..], seen, r);
      } else {
        UnseenExact(want[1..], seen + {want[0]}, r);
      }
    }
  }

  /** `missingRanks` is sorted, has no duplicates, and is exactly the wanted ranks that are not there. */
  lemma MissingRanksExact(want: seq<int>, have: seq<int>)
    ensures SortedInts(MissingRanks(want, have))
    ensures forall r :: r in MissingRanks(want, have) <==> r in want && r !in have
    ensures forall r :: multiset(MissingRanks(want, have))[r] <= 1
  {
    var seen := set r | r in have;
    SortIntsSorts(Unseen(want, seen));
    hide SortInts;
    forall r
      ensures r in MissingRanks(want, have) <==> r in want && r !in have
      ensures multiset(MissingRanks(want, have))[r] <= 1
    {
      UnseenExact(want, seen, r);
    }
  }

  // ---- reading a trace

  ghost predicate CreateAnswered(rec: Record) {
    rec.polled.Some? && rec.polled.value.0.Create? && rec.polled.value.2.CreatedPool?
  }

  /** The pass wrote a UUID: that of a query or that of a create. */
  ghost function UuidWritten(rec: Record): Option<string> {
    if !rec.stored then None
    else if CreateAnswered(rec) then Some(rec.polled.value.2.uuid)
    else if rec.read.Some? then Some(rec.read.value.1.uuid)
    else None
  }

  /** The UUID on record. */
  ghost function Uuid(trace: seq<Record>): string {
    if trace == [] then ""
    else if UuidWritten(trace[|trace| - 1]).Some? then UuidWritten(trace[|trace| - 1]).value
    else Uuid(trace[..|trace| - 1])
  }

  /** The last pool query a stored pass read, and when that pass was. */
  ghost function LastRead(trace: seq<Record>): Option<(int, Info)> {
    if trace == [] then None
    else if trace[|trace| - 1].stored && trace[|trace| - 1].read.Some? then trace[|trace| - 1].read
    else LastRead(trace[..|trace| - 1])
  }

  ghost predicate DestroyFailed(rec: Record) {
    rec.destroyed.Some? && !Succeeded(rec.destroyed.value) && !rec.destroyed.value.NotFound?
  }

  /** Failed destroys that were recorded. */
  ghost function Failures(trace: seq<Record>): nat {
    if trace == [] then 0
    else Failures(trace[..|trace| - 1]) + if trace[|trace| - 1].stored && DestroyFailed(trace[|trace| - 1]) then 1
        else 0
  }

  ghost function Stalls(trace: seq<Record>): nat {
    if trace == [] then 0
    else Stalls(trace[..|trace| - 1]) + if trace[|trace| - 1].stored && trace[|trace| - 1].stalled then 1 else 0
  }

  lemma Extend(trace: seq<Record>, rec: Record)
    ensures Uuid(trace + [rec]) == if UuidWritten(rec).Some? then UuidWritten(rec).value else Uuid(trace)
    ensures LastRead(trace + [rec]) == if rec.stored && rec.read.Some? then rec.read else LastRead(trace)
    ensures Failures(trace + [rec]) == Failures(trace) + if rec.stored && DestroyFailed(rec) then 1 else 0
    ensures Stalls(trace + [rec]) == Stalls(trace) + if rec.stored && rec.stalled then 1 else 0
  {
    assert (trace + [rec])[..|trace|] == trace;
  }

  // ---- one pass

  /** When a query ran that a pass read: when its container started, or else the time of the pass. */
  ghost function RanAt(read: (int, Info)): int { if read.1.started.Some? then read.1.started.value else read.0 }

  /** State, rebuild, disabled targets and query time, in whole seconds, are written together. */
  ghost predicate FromRead(st: Status, read: (int, Info)) {
    && st.state == read.1.state && st.rebuild == read.1.rebuild && st.disabled == read.1.disabled
    && st.lastQuery == Some(RanAt(read) - RanAt(read) % 1_000_000_000)
  }

  ghost predicate SameRead(a: Status, b: Status) {
    a.state == b.state && a.rebuild == b.rebuild && a.disabled == b.disabled && a.lastQuery == b.lastQuery
  }

  ghost predicate Gates(s: State, rec: Record) {
    && rec.stored && rec.found == s.status && rec.deleting == s.deleting && rec.approved == s.approved
    && (rec.started.Some? ==> !s.deleting && s.status.operation.None?)
    && (rec.started == Some(Create) ==> s.status.uuid == "" && rec.read.None?)
    && (rec.sent.Some? && rec.sent.value.0 == Create ==> s.status.uuid == "")
    && (rec.destroyRun ==> s.deleting && s.approved && s.status.uuid != "")
    && (rec.destroyed.Some? ==> s.deleting && s.approved && s.status.uuid != "")
    && (rec.released ==>
          s.deleting && (!s.approved || s.status.uuid == "" || (rec.destroyed.Some? && !DestroyFailed(rec))))
  }

  ghost predicate Writes(s: State, w: Work) {
    && (if w.rec.read.Some? then FromRead(w.s.status, w.rec.read.value) else SameRead(w.s.status, s.status))
    && w.s.status.uuid == (if UuidWritten(w.rec).Some? then UuidWritten(w.rec).value else s.status.uuid)
    && w.s.status.attempts == s.status.attempts + (if DestroyFailed(w.rec) then 1 else 0)
    && (w.rec.stalled <==> DestroyFailed(w.rec) && w.s.status.attempts == STALL_AFTER)
    && (w.s.status.operation == Some(Create) ==> w.s.status.uuid == "")
    && w.s.spec == s.spec && w.s.deleting == s.deleting && w.s.approved == s.approved
  }

  ghost predicate Effects(s: State, w: Work) { Gates(s, w.rec) && Writes(s, w) }

  lemma FinalizeEffects(s: State, i: Input)
    requires s.deleting && (s.status.operation == Some(Create) ==> s.status.uuid == "")
    ensures Effects(s, Finalize(s, i, Blank(s)))
  {
    hide RunJob, Args;
  }

  lemma FinishEffects(s: State, b: Box<Answer>, op: Op, id: nat, args: seq<string>, answer: Answer)
    ensures Effects(s, Finish(s.(box := b), op, Blank(s).(polled := Some((op, args, answer)), polledId := id), answer))
  {
    hide AclHash, ReintegrationMode, PinnedReintegration, PinnedSelfHeal, FailedReason;
  }

  lemma PollEffects(s: State, i: Input, op: Op)
    requires s.status.operation == Some(op) && (op.Create? ==> s.status.uuid == "")
    ensures Effects(s, Poll(s, i, op, Blank(s)))
  {
    var (b, out) := RunJob(s.box, JobOf(op), Args(s.spec, op, s.status.enabled), i.fault);
    hide RunJob, JobOf, Args, Finish;
    if out.Done? { FinishEffects(s, b, op, out.id, out.args, out.answer); }
  }

  /** Starting an operation changes nothing but the operation and the condition. */
  lemma StartKeeps(s: State, i: Input, op: Op, rec: Record)
    requires rec.started.None? && rec.sent.None?
    ensures var w := StartOp(s, i, op, rec);
      && w.s.status == s.status.(operation := w.s.status.operation, reason := w.s.status.reason)
      && w.s == s.(box := w.s.box, status := w.s.status)
      && w.rec == rec.(started := w.rec.started, sent := w.rec.sent)
      && (w.rec.sent.Some? ==> w.rec.sent == Some((op, s.box.nextId)) && w.rec.started == Some(op))
      && (if w.err then w.rec.started.None? && w.s.status == s.status
          else w.rec.started == w.s.status.operation == Some(op))
  {
    hide RunJob, JobOf, Args;
  }

  lemma MirrorEffects(s: State, s': State, i: Input, info: Info)
    requires !s.deleting && s.status.operation.None? && s' == s.(box := s'.box, hold := s'.hold)
    ensures Effects(s, Mirror(s', i, info, Blank(s)))
  {
    var copied := s'.(status := Copied(s'.status, info, i.now));
    NoCreateForDrift(s'.spec, copied.status);
    hide StartOp, Drift;
    match Drift(copied.spec, copied.status)
    case Some(op) => StartKeeps(copied, i, op, Blank(s).(read := Some((i.now, info))));
    case None =>
  }

  lemma MissingEffects(s: State, s': State, i: Input)
    requires !s.deleting && s.status.operation.None? && s' == s.(box := s'.box, hold := s'.hold)
    ensures Effects(s, Missing(s', i, Blank(s).(missing := true)))
  {
    StartKeeps(s', i, Create, Blank(s).(missing := true));
    hide StartOp;
  }

  lemma ProbeEffects(s: State, i: Input)
    requires !s.deleting && s.status.operation.None?
    ensures Effects(s, Probe(s, i, Blank(s)))
  {
    var (b, out) := RunJob(s.box, QUERY_JOB, ["pool", "query"], i.fault);
    hide RunJob, Mirror, Missing;
    var s1 := s.(box := b, hold := Some(i.now + WAIT));
    if out.Done? && out.answer.Queried? {
      MirrorEffects(s, s1, i, out.answer.info);
    } else if out.Done? && out.answer.NotFound? {
      MissingEffects(s, s1, i);
    }
  }

  lemma NoCreateForDrift(spec: Spec, st: Status)
    ensures Drift(spec, st) != Some(Create) && Drift(spec, st) != Some(Destroy)
  {}

  lemma DecideEffects(s: State, i: Input)
    requires s.status.operation == Some(Create) ==> s.status.uuid == ""
    ensures Effects(s, Decide(s, i, Blank(s)))
  {
    hide Finalize, Poll, Probe;
    if s.deleting { FinalizeEffects(s, i); }
    else {
      match s.status.operation
      case Some(op) => PollEffects(s, i, op);
      case None => ProbeEffects(s, i);
    }
  }

  // ---- runs

  ghost predicate Inv(w: World) {
    var st := w.s.status;
    && st.uuid == Uuid(w.trace) && (st.operation == Some(Create) ==> st.uuid == "")
    && (LastRead(w.trace).Some? ==> FromRead(st, LastRead(w.trace).value))
    && (LastRead(w.trace).None? ==> st.lastQuery.None?)
    && st.attempts == Failures(w.trace)
    && Stalls(w.trace) == (if Failures(w.trace) >= STALL_AFTER then 1 else 0)
    && GoodTrace(w.trace)
  }

  ghost predicate GoodRecord(prefix: seq<Record>, rec: Record) {
    && rec.found.uuid == Uuid(prefix)
    && (rec.started.Some? ==> !rec.deleting)
    && (rec.started == Some(Create) || (rec.sent.Some? && rec.sent.value.0 == Create) ==> rec.found.uuid == "")
    && (rec.destroyRun || rec.destroyed.Some? ==> rec.deleting && rec.approved && rec.found.uuid != "")
    && (rec.released ==>
          rec.deleting && (!rec.approved || rec.found.uuid == "" || (rec.destroyed.Some? && !DestroyFailed(rec))))
    && (rec.stalled <==> DestroyFailed(rec) && Failures(prefix) == STALL_AFTER - 1)
  }

  ghost predicate GoodTrace(trace: seq<Record>) {
    forall k :: 0 <= k < |trace| ==> GoodRecord(trace[..k], trace[k])
  }

  lemma AppendGood(trace: seq<Record>, rec: Record)
    requires GoodTrace(trace) && GoodRecord(trace, rec)
    ensures GoodTrace(trace + [rec])
  {
    var longer := trace + [rec];
    forall k | 0 <= k < |longer| ensures GoodRecord(longer[..k], longer[k]) {
      assert longer[..k] == trace[..k];
      if k == |trace| { assert trace[..k] == trace; }
    }
  }

  lemma StoreGood(w: World, d: Work, lost: bool, s: State, rec: Record)
    requires Inv(w) && Effects(w.s, d)
    requires (s, rec) == if d.err || lost then (d.s.(status := w.s.status), Sealed(d).(stored := false))
      else (d.s, Sealed(d))
    ensures Inv(World(s, w.trace + [rec]))
  {
    Extend(w.trace, rec);
    Extend(w.trace, Sealed(d));
    hide Uuid, LastRead, Failures, Stalls, GoodTrace;
    AppendGood(w.trace, rec);
  }

  lemma PassKeepsInv(w: World, i: Input)
    requires Inv(w)
    ensures Inv(Apply(w, Reconcile(i)))
  {
    DecideEffects(w.s, i);
    hide Decide, Inv, Effects;
    var (s, rec) := Pass(w.s, i);
    StoreGood(w, Decide(w.s, i, Blank(w.s)), i.lost, s, rec);
  }

  lemma StepKeepsInv(w: World, step: Step)
    requires Inv(w)
    ensures Inv(Apply(w, step))
  {
    if step.Reconcile? { PassKeepsInv(w, step.i); }
    hide Uuid, LastRead, Failures, Stalls, GoodTrace, Pass;
  }

  lemma {:induction false} RunInv(spec: Spec, steps: seq<Step>)
    ensures Inv(Run(spec, steps))
  {
    if steps != [] {
      RunInv(spec, steps[..|steps| - 1]);
      StepKeepsInv(Run(spec, steps[..|steps| - 1]), steps[|steps| - 1]);
      hide Inv, Apply;
    }
  }

  ghost predicate IsTrace(trace: seq<Record>) { exists spec, steps :: Run(spec, steps).trace == trace }

  lemma TraceInv(trace: seq<Record>)
    requires IsTrace(trace)
    ensures GoodTrace(trace) && Stalls(trace) == (if Failures(trace) >= STALL_AFTER then 1 else 0)
  {
    var spec, steps :| Run(spec, steps).trace == trace;
    RunInv(spec, steps);
  }

  lemma {:induction false} EmptyUuidBetween(trace: seq<Record>, k: nat, j: nat) returns (m: nat)
    requires k <= j <= |trace| && Uuid(trace[..k]) != "" && Uuid(trace[..j]) == ""
    ensures k <= m < j && UuidWritten(trace[m]) == Some("")
  {
    assert k < j;
    assert trace[..j][..j - 1] == trace[..j - 1];
    if UuidWritten(trace[j - 1]) == Some("") { m := j - 1; } else { m := EmptyUuidBetween(trace, k, j - 1); }
  }

  /** Once a UUID is on record, no pass starts a create again, nor sends a create Job while polling, unless dmg
      in between answered a query or a create with an empty UUID. */
  lemma NoSecondCreate(trace: seq<Record>, k: nat, j: nat) returns (m: nat)
    requires IsTrace(trace) && k <= j < |trace| && Uuid(trace[..k]) != ""
    requires trace[j].started == Some(Create) || (trace[j].sent.Some? && trace[j].sent.value.0 == Create)
    ensures k <= m < j && UuidWritten(trace[m]) == Some("")
  {
    TraceInv(trace);
    assert GoodRecord(trace[..j], trace[j]);
    m := EmptyUuidBetween(trace, k, j);
  }

  /** `dmg pool destroy` runs only for an object being deleted, with the approval there and a UUID on
      record. */
  lemma DestroyIsGated(trace: seq<Record>, j: nat)
    requires IsTrace(trace) && j < |trace| && (trace[j].destroyRun || trace[j].destroyed.Some?)
    ensures trace[j].deleting && trace[j].approved && Uuid(trace[..j]) != ""
  {
    TraceInv(trace);
    assert GoodRecord(trace[..j], trace[j]);
  }

  /** An approved pool with a UUID loses its finalizer only in a pass that read a destroy that succeeded or
      found no pool. */
  lemma FinalizerOutlivesPool(trace: seq<Record>, j: nat)
    requires IsTrace(trace) && j < |trace| && trace[j].released && trace[j].approved && Uuid(trace[..j]) != ""
    ensures trace[j].deleting && trace[j].destroyed.Some?
    ensures trace[j].destroyed.value.NotFound? || Succeeded(trace[j].destroyed.value)
  {
    TraceInv(trace);
    assert GoodRecord(trace[..j], trace[j]);
  }

  /** The event DestroyStalled, which a pass sends before it writes its status. */
  ghost function Fired(trace: seq<Record>): nat {
    if trace == [] then 0 else Fired(trace[..|trace| - 1]) + if trace[|trace| - 1].stalled then 1 else 0
  }

  /** Passes that sent it and then lost their status. */
  ghost function LostStalls(trace: seq<Record>): nat {
    if trace == [] then 0
    else LostStalls(trace[..|trace| - 1]) + if trace[|trace| - 1].stalled && !trace[|trace| - 1].stored then 1 else 0
  }

  lemma {:induction false} FiredSplit(trace: seq<Record>)
    ensures Fired(trace) == Stalls(trace) + LostStalls(trace)
  {
    if trace != [] { FiredSplit(trace[..|trace| - 1]); }
  }

  /** DestroyStalled is sent exactly in the passes that read a failed destroy with two failures on record. Over every
      run that is once from the third recorded failure on, and once more for each such pass that lost its status. */
  lemma StalledOnceAtThird(trace: seq<Record>)
    requires IsTrace(trace)
    ensures Fired(trace) == (if Failures(trace) >= 3 then 1 else 0) + LostStalls(trace)
    ensures forall j :: 0 <= j < |trace| ==>
      (trace[j].stalled <==> DestroyFailed(trace[j]) && Failures(trace[..j]) == 2)
  {
    TraceInv(trace);
    FiredSplit(trace);
    hide Failures, Stalls, LostStalls, Fired, DestroyFailed, IsTrace;
    forall j | 0 <= j < |trace| ensures trace[j].stalled <==> DestroyFailed(trace[j]) && Failures(trace[..j]) == 2 {
      assert GoodRecord(trace[..j], trace[j]);
    }
  }

  /** State, rebuild state, disabled targets and query time in the status always come from one query. */
  lemma StatusIsOneQuery(w: World)
    requires Reachable(w)
    ensures if LastRead(w.trace).Some? then FromRead(w.s.status, LastRead(w.trace).value)
      else w.s.status.lastQuery.None?
  {
    var spec, steps :| Run(spec, steps) == w;
    RunInv(spec, steps);
  }

  ghost predicate Reachable(w: World) { exists spec, steps :: Run(spec, steps) == w }
}
