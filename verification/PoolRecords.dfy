/** What the records of a DaosPool's passes say: the status each found and left, why its Ready condition has the
    reason it has, which operation it started for that, and which Job it read. */
module PoolRecords {
  import opened Text
  import opened Mailbox
  import opened Pool
  import opened PoolRuns

  // ---- reasons

  /** The reasons that are not a failed operation's. */
  const OTHER: set<string> := {
    "", "InProgress", "Ready", "ReadyHealthOnly", "State", "PoolMissing", "Probing", "QueryError", "ProbeFailed",
    "Querying",
    "SystemNotFound", "SystemNotFormatted", "Destroying", "DestroyStalled", "DestroyFailed" }

  lemma OtherIsOther(op: Op)
    requires op != Destroy
    ensures FailedReason(op) !in OTHER
  {
    var r := FailedReason(op);
    assert "Ready"[1] == 'e' && "Ready"[2] == 'a' && "ReadyHealthOnly"[2] == 'a' && "State"[1] == 't'
        && "SystemNotFound"[1] == 'y';
    assert "SystemNotFormatted"[1] == 'y' && "InProgress"[0] == 'I' && "PoolMissing"[0] == 'P' && "Probing"[0] == 'P';
    assert "QueryError"[0] == 'Q' && "ProbeFailed"[0] == 'P' && "Querying"[0] == 'Q';
    assert "Destroying"[0] == 'D' && "DestroyStalled"[0] == 'D' && "DestroyFailed"[0] == 'D';
    match op
    case Create => assert r[0] == 'C';
    case Extend => assert r[0] == 'E';
    case Acl => assert r[0] == 'A';
    case ReintMode => assert r[0] == 'R' && r[2] == 'i';
    case SelfHeal => assert r[0] == 'S' && r[1] == 'e';
  }

  lemma ReasonsDiffer(a: Op, b: Op)
    requires a != b
    ensures FailedReason(a) != FailedReason(b)
  {
    assert "CreateFailed"[0] == 'C' && "ExtendFailed"[0] == 'E' && "AclFailed"[0] == 'A' && "ReintmodeFailed"[0] == 'R';
    assert "SelfhealFailed"[0] == 'S' && "DestroyFailed"[0] == 'D';
  }

  /** No reason the operator writes is the one the ACL check looks for. */
  lemma AclReasonUnwritten(op: Op)
    ensures FailedReason(op) != "ACLFailed" && "ACLFailed" !in OTHER
  {
    assert "ACLFailed"[0] == 'A' && "ACLFailed"[1] == 'C' && "AclFailed"[1] == 'c';
    assert "CreateFailed"[0] == 'C' && "ExtendFailed"[0] == 'E' && "ReintmodeFailed"[0] == 'R'
        && "SelfhealFailed"[0] == 'S';
    assert forall r :: r in OTHER ==> r == "" || r[0] != 'A';
  }

  // ---- what a record says

  /** The pass read the Job of op to its end, and it failed. */
  ghost predicate FailedPoll(rec: Record, op: Op) {
    rec.polled.Some? && rec.polled.value.0 == op &&
    (!Succeeded(rec.polled.value.2) || (op.Create? && !rec.polled.value.2.CreatedPool?))
  }

  /** The pass recorded an ACL as applied. */
  ghost predicate Stamps(rec: Record) {
    rec.polled.Some? && rec.polled.value.0 in {Create, Acl} && !FailedPoll(rec, rec.polled.value.0)
  }

  /** The reason comes from a failure just read, from before, or is none of a failure. */
  ghost predicate Reasoned(rec: Record, after: Status) {
    if rec.polled.Some? then
      && after.observed == rec.spec.generation
      && (if FailedPoll(rec, rec.polled.value.0) then after.reason == FailedReason(rec.polled.value.0)
          else after.reason in OTHER)
    else after.observed == rec.found.observed && (after.reason == rec.found.reason || after.reason in OTHER)
  }

  /** An operation starts for the drift that the answer just read shows, or for a pool that is not there. */
  ghost predicate Starts(rec: Record, after: Status, err: bool) {
    && (rec.started.Some? ==> !err && (rec.missing || (rec.read.Some? && !rec.read.value.1.healthOnly)))
    && (rec.missing ==> rec.read.None?) && (rec.polled.Some? ==> rec.read.None? && !rec.missing)
    && (!err && rec.read.Some? && !rec.read.value.1.healthOnly ==>
          rec.started == Drift(rec.spec, after.(reason := rec.found.reason)))
    && (!err && rec.missing ==>
          var create := rec.found.uuid == "" && !FailedForSpec(rec.spec, rec.found, "CreateFailed");
          rec.started == if create then Some(Create) else None)
  }

  ghost predicate Stamped(rec: Record, after: Status) {
    after.aclHash == if Stamps(rec) then AclHash(rec.spec.acl) else rec.found.aclHash
  }

  ghost predicate Told(rec: Record, after: Status, err: bool) {
    Reasoned(rec, after) && Starts(rec, after, err) && Stamped(rec, after)
  }

  // ---- one pass

  lemma FinalizeTold(s: State, i: Input)
    ensures var w := Finalize(s, i, Blank(s)); Told(w.rec, w.s.status, w.err)
  {
    hide RunJob, JobOf, Args, AclHash, Drift;
  }

  lemma FinishTold(s: State, b: Box<Answer>, op: Op, id: nat, args: seq<string>, answer: Answer)
    ensures var w := Finish(s.(box := b), op, Blank(s).(polled := Some((op, args, answer)), polledId := id), answer);
      Told(w.rec, w.s.status, w.err)
  {
    hide AclHash, ReintegrationMode, PinnedReintegration, PinnedSelfHeal, FailedReason, Drift;
  }

  lemma PollTold(s: State, i: Input, op: Op)
    ensures var w := Poll(s, i, op, Blank(s)); Told(w.rec, w.s.status, w.err)
  {
    var (b, out) := RunJob(s.box, JobOf(op), Args(s.spec, op, s.status.enabled), i.fault);
    hide RunJob, JobOf, Args, Finish, Drift, AclHash;
    if out.Done? { FinishTold(s, b, op, out.id, out.args, out.answer); }
  }

  /** The drift checks do not look at the operation, nor at the time of the query. */
  lemma SameDrift(spec: Spec, st: Status, after: Status)
    requires after.enabled == st.enabled && after.aclHash == st.aclHash && after.mode == st.mode
    requires after.heal == st.heal
    requires after.reason == st.reason && after.observed == st.observed
    ensures Drift(spec, after) == Drift(spec, st)
  {
    hide MissingRanks, AclHash, PinnedReintegration, PinnedSelfHeal;
  }

  lemma MirrorTold(s: State, s': State, i: Input, info: Info)
    requires s' == s.(box := s'.box, hold := s'.hold)
    ensures var w := Mirror(s', i, info, Blank(s)); Told(w.rec, w.s.status, w.err)
  {
    var st := Copied(s.status, info, i.now);
    var copied := s'.(status := st);
    var rec := Blank(s).(read := Some((i.now, info)));
    var w := Mirror(s', i, info, Blank(s));
    hide StartOp, Drift, AclHash;
    match Drift(s.spec, st) {
      case Some(op) =>
        StartKeeps(copied, i, op, rec);
        StartReason(copied, i, op, rec);
      case None =>
    }
    SameDrift(s.spec, st, w.s.status.(reason := s.status.reason));
  }

  lemma MissingTold(s: State, s': State, i: Input)
    requires s' == s.(box := s'.box, hold := s'.hold)
    ensures var w := Missing(s', i, Blank(s).(missing := true)); Told(w.rec, w.s.status, w.err)
  {
    StartKeeps(s', i, Create, Blank(s).(missing := true));
    StartReason(s', i, Create, Blank(s).(missing := true));
    hide StartOp, Drift, AclHash;
  }

  lemma StartReason(s: State, i: Input, op: Op, rec: Record)
    ensures var w := StartOp(s, i, op, rec);
      w.s.status.reason == s.status.reason || w.s.status.reason == "InProgress"
  {
    hide RunJob, JobOf, Args;
  }

  lemma ProbeTold(s: State, i: Input)
    ensures var w := Probe(s, i, Blank(s)); Told(w.rec, w.s.status, w.err)
  {
    var (b, out) := RunJob(s.box, QUERY_JOB, ["pool", "query"], i.fault);
    var s1 := s.(box := b, hold := Some(i.now + WAIT));
    hide RunJob, Mirror, Missing, Drift, AclHash;
    if out.Done? && out.answer.Queried? {
      MirrorTold(s, s1, i, out.answer.info);
    } else if out.Done? && out.answer.NotFound? {
      MissingTold(s, s1, i);
    }
  }

  lemma DecideTold(s: State, i: Input)
    ensures var w := Decide(s, i, Blank(s)); Told(w.rec, w.s.status, w.err)
  {
    hide Finalize, Poll, Probe, Drift, AclHash;
    if s.deleting { FinalizeTold(s, i); }
    else {
      match s.status.operation
      case Some(op) => PollTold(s, i, op);
      case None => ProbeTold(s, i);
    }
  }

  // ---- the Jobs that write an ACL

  lemma JobNamesDiffer(a: Op, b: Op)
    requires a != b
    ensures JobOf(a) != JobOf(b) && JobOf(a) != QUERY_JOB
  {
    assert JobOf(a)[4] != JobOf(b)[4] && JobOf(a)[4] != QUERY_JOB[4];
  }

  /** An open Job after a call of the runner was there before, or is the one just created. */
  lemma RunStep(b: Box<Answer>, ran: string, args: seq<string>, fault: Fault, name: string)
    ensures var (b', out) := RunJob(b, ran, args, fault);
      && (b'.Open(name) ==>
            || (b.Open(name) && b'.jobs[name].id == b.jobs[name].id && b'.jobs[name].args == b.jobs[name].args)
            || (ran == name && b'.nextId > b.nextId && b'.jobs[name].id == b.nextId && b'.jobs[name].args == args
                && out.Pending?))
      && (out.Done? && ran == name ==> b.Open(name) && out.id == b.jobs[name].id && out.args == b.jobs[name].args)
  {}

  /** The Job of op in b, if open, was there before, or was created for this spec. */
  ghost predicate SlotStep(before: Box<Answer>, b: Box<Answer>, spec: Spec, sent: Option<(Op, nat)>, op: Op) {
    var name := JobOf(op);
    b.Open(name) ==>
      || (before.Open(name) && b.jobs[name].id == before.jobs[name].id && b.jobs[name].args == before.jobs[name].args)
      || (sent == Some((op, b.jobs[name].id)) && b.jobs[name].args == Args(spec, op, []))
  }

  /** What is read of the Job of op is what it was created with. */
  ghost predicate ReadStep(before: Box<Answer>, polled: Option<(Op, seq<string>, Answer)>, id: nat, op: Op) {
    var name := JobOf(op);
    polled.Some? && polled.value.0 == op ==>
      before.Open(name) && id == before.jobs[name].id && polled.value.1 == before.jobs[name].args
  }

  ghost predicate JobStep(s: State, w: Work, op: Op) {
    SlotStep(s.box, w.s.box, s.spec, w.rec.sent, op) && ReadStep(s.box, w.rec.polled, w.rec.polledId, op)
  }

  lemma AclArgs(spec: Spec, op: Op, enabled: seq<int>)
    requires op in {Create, Acl}
    ensures Args(spec, op, enabled) == Args(spec, op, [])
  {}

  lemma RunSlot(before: Box<Answer>, b: Box<Answer>, spec: Spec, ran: Op, enabled: seq<int>, fault: Fault, op: Op)
    requires op in {Create, Acl} && SlotStep(before, b, spec, None, op)
    ensures var (b', out) := RunJob(b, JobOf(ran), Args(spec, ran, enabled), fault);
      && SlotStep(before, b', spec, Created(ran, b, b'), op) && (!out.Pending? ==> SlotStep(before, b', spec, None, op))
      && (out.Done? && ran == op ==>
            b.Open(JobOf(op)) && out.id == b.jobs[JobOf(op)].id && out.args == b.jobs[JobOf(op)].args)
  {
    AclArgs(spec, op, enabled);
    RunStep(b, JobOf(ran), Args(spec, ran, enabled), fault, JobOf(op));
    if ran != op { JobNamesDiffer(ran, op); }
    hide RunJob, JobOf, Args;
  }

  lemma Unchanged(b: Box<Answer>, spec: Spec, op: Op)
    ensures SlotStep(b, b, spec, None, op)
  {}

  lemma QuerySlot(b: Box<Answer>, spec: Spec, fault: Fault, op: Op)
    ensures SlotStep(b, RunJob(b, QUERY_JOB, ["pool", "query"], fault).0, spec, None, op)
  {
    RunStep(b, QUERY_JOB, ["pool", "query"], fault, JobOf(op));
    JobNamesDiffer(op, if op == Destroy then Create else Destroy);
    hide RunJob, JobOf, Args;
  }

  /** before is the box the pass found, s1 the state the operation is started in. */
  lemma StartSlot(before: Box<Answer>, s1: State, i: Input, started: Op, rec: Record, op: Op)
    requires op in {Create, Acl} && SlotStep(before, s1.box, s1.spec, None, op) && rec.sent.None?
    ensures var w := StartOp(s1, i, started, rec);
      SlotStep(before, w.s.box, s1.spec, w.rec.sent, op) && w.rec.polled == rec.polled
  {
    hide *;
    RunSlot(before, s1.box, s1.spec, started, s1.status.enabled, i.fault, op);
    StartIs(s1, i, started, rec);
  }

  lemma StartIs(s: State, i: Input, op: Op, rec: Record)
    requires rec.sent.None?
    ensures var w := StartOp(s, i, op, rec);
      var (b, out) := RunJob(s.box, JobOf(op), Args(s.spec, op, s.status.enabled), i.fault);
      && w.s.box == b && w.rec.polled == rec.polled
      && w.rec.sent == if out.ApiError? then None else Created(op, s.box, b)
  {
    hide RunJob, JobOf, Args, Created;
  }

  lemma MirrorSlot(before: Box<Answer>, s1: State, i: Input, info: Info, rec: Record, op: Op)
    requires op in {Create, Acl} && SlotStep(before, s1.box, s1.spec, None, op) && rec.sent.None?
    ensures var w := Mirror(s1, i, info, rec);
      SlotStep(before, w.s.box, s1.spec, w.rec.sent, op) && w.rec.polled == rec.polled
  {
    var s2 := s1.(status := Copied(s1.status, info, i.now));
    var rec' := rec.(read := Some((i.now, info)));
    hide StartOp, Drift, SlotStep, Copied;
    match Drift(s2.spec, s2.status)
    case Some(started) => StartSlot(before, s2, i, started, rec', op);
    case None =>
  }

  lemma MissingSlot(before: Box<Answer>, s1: State, i: Input, rec: Record, op: Op)
    requires op in {Create, Acl} && SlotStep(before, s1.box, s1.spec, None, op) && rec.sent.None?
    ensures var w := Missing(s1, i, rec);
      SlotStep(before, w.s.box, s1.spec, w.rec.sent, op) && w.rec.polled == rec.polled
  {
    StartSlot(before, s1, i, Create, rec, op);
    hide StartOp, SlotStep;
  }

  lemma ProbeStep(s: State, i: Input, op: Op)
    requires op in {Create, Acl}
    ensures JobStep(s, Probe(s, i, Blank(s)), op)
  {
    Unchanged(s.box, s.spec, op);
    QuerySlot(s.box, s.spec, i.fault, op);
    var (b, out) := RunJob(s.box, QUERY_JOB, ["pool", "query"], i.fault);
    var s1 := s.(box := b, hold := Some(i.now + WAIT));
    hide RunJob, Mirror, Missing, JobOf, Args, SlotStep;
    if out.Done? && out.answer.Queried? {
      MirrorSlot(s.box, s1, i, out.answer.info, Blank(s), op);
    } else if out.Done? && out.answer.NotFound? {
      MissingSlot(s.box, s1, i, Blank(s).(missing := true), op);
    }
  }

  lemma PollStep(s: State, i: Input, polled: Op, op: Op)
    requires op in {Create, Acl}
    ensures JobStep(s, Poll(s, i, polled, Blank(s)), op)
  {
    Unchanged(s.box, s.spec, op);
    RunSlot(s.box, s.box, s.spec, polled, s.status.enabled, i.fault, op);
    var (b, out) := RunJob(s.box, JobOf(polled), Args(s.spec, polled, s.status.enabled), i.fault);
    hide RunJob, JobOf, Args, Poll, SlotStep, Created, Blank;
    PollIs(s, i, polled);
  }

  lemma PollIs(s: State, i: Input, op: Op)
    ensures var w := Poll(s, i, op, Blank(s));
      var (b, out) := RunJob(s.box, JobOf(op), Args(s.spec, op, s.status.enabled), i.fault);
      && w.s.box == b && w.rec.sent == (if out.Pending? then Created(op, s.box, b) else None)
      && (if out.Done? then w.rec.polled == Some((op, out.args, out.answer)) && w.rec.polledId == out.id
          else w.rec.polled.None?)
  {
    var (b, out) := RunJob(s.box, JobOf(op), Args(s.spec, op, s.status.enabled), i.fault);
    hide RunJob, JobOf, Args, Finish, Created;
    if out.Done? {
      FinishFrame(s.(box := b), op, Blank(s).(polled := Some((op, out.args, out.answer)), polledId := out.id),
                  out.answer);
    }
  }

  lemma FinishFrame(s: State, op: Op, rec: Record, answer: Answer)
    ensures var w := Finish(s, op, rec, answer); w.s.spec == s.spec && w.s.box == s.box && w.rec == rec
  {}

  lemma FinalizeStep(s: State, i: Input, op: Op)
    requires op in {Create, Acl}
    ensures JobStep(s, Finalize(s, i, Blank(s)), op)
  {
    Unchanged(s.box, s.spec, op);
    RunStep(s.box, JobOf(Destroy), Args(s.spec, Destroy, s.status.enabled), i.fault, JobOf(op));
    JobNamesDiffer(Destroy, op);
    assert SlotStep(s.box, RunJob(s.box, JobOf(Destroy), Args(s.spec, Destroy, s.status.enabled), i.fault).0, s.spec,
                    None, op);
    hide RunJob, JobOf, Args, SlotStep;
  }

  lemma DecideStep(s: State, i: Input, op: Op)
    requires op in {Create, Acl}
    ensures JobStep(s, Decide(s, i, Blank(s)), op)
  {
    Unchanged(s.box, s.spec, op);
    hide Finalize, Poll, Probe, JobOf, Args, SlotStep;
    if s.deleting { FinalizeStep(s, i, op); }
    else {
      match s.status.operation
      case Some(polled) => PollStep(s, i, polled, op);
      case None => ProbeStep(s, i, op);
    }
  }

  // ---- runs

  /** The status on record: the one the last stored pass came to. */
  ghost function OnRecord(trace: seq<Record>): Status {
    if trace == [] then NewStatus else if trace[|trace| - 1].stored then trace[|trace| - 1].after
    else OnRecord(trace[..|trace| - 1])
  }

  /** The pass created this Job of op. */
  ghost predicate Made(rec: Record, op: Op, id: nat, args: seq<string>) {
    rec.sent == Some((op, id)) && args == Args(rec.spec, op, [])
  }

  ghost predicate MadeIn(trace: seq<Record>, op: Op, id: nat, args: seq<string>) {
    exists k :: 0 <= k < |trace| && Made(trace[k], op, id, args)
  }

  ghost predicate JobInv(trace: seq<Record>, b: Box<Answer>, op: Op) {
    b.Open(JobOf(op)) ==> MadeIn(trace, op, b.jobs[JobOf(op)].id, b.jobs[JobOf(op)].args)
  }

  ghost predicate GoodEntry(prefix: seq<Record>, rec: Record) {
    && rec.found == OnRecord(prefix) && rec.found.reason != "ACLFailed" && Told(rec, rec.after, rec.err)
    && (prefix != [] ==> prefix[|prefix| - 1].spec.generation <= rec.spec.generation)
    && (rec.polled.Some? && rec.polled.value.0 in {Create, Acl} ==>
          MadeIn(prefix, rec.polled.value.0, rec.polledId, rec.polled.value.1))
  }

  ghost predicate GoodEntries(trace: seq<Record>) { forall k :: 0 <= k < |trace| ==> GoodEntry(trace[..k], trace[k]) }

  ghost predicate RecInv(w: World) {
    && w.s.status == OnRecord(w.trace) && w.s.status.reason != "ACLFailed"
    && (w.trace != [] ==> w.trace[|w.trace| - 1].spec.generation <= w.s.spec.generation)
    && JobInv(w.trace, w.s.box, Create) && JobInv(w.trace, w.s.box, Acl)
    && GoodEntries(w.trace)
  }

  lemma MadeGrows(trace: seq<Record>, rec: Record, op: Op, id: nat, args: seq<string>)
    requires MadeIn(trace, op, id, args) || Made(rec, op, id, args)
    ensures MadeIn(trace + [rec], op, id, args)
  {
    var longer := trace + [rec];
    hide Made;
    if MadeIn(trace, op, id, args) {
      var k :| 0 <= k < |trace| && Made(trace[k], op, id, args);
      assert Made(longer[k], op, id, args);
    } else {
      assert Made(longer[|trace|], op, id, args);
    }
  }

  lemma JobsKept(trace: seq<Record>, before: State, d: Work, b: Box<Answer>, rec: Record, op: Op)
    requires JobInv(trace, before.box, op) && JobStep(before, d, op) && b == d.s.box
    requires rec.sent == d.rec.sent && rec.spec == before.spec && rec.polled == d.rec.polled
    requires rec.polledId == d.rec.polledId
    ensures JobInv(trace + [rec], b, op)
    ensures rec.polled.Some? && rec.polled.value.0 == op ==> MadeIn(trace, op, rec.polledId, rec.polled.value.1)
  {
    hide JobOf, Args, MadeIn;
    if b.Open(JobOf(op)) { MadeGrows(trace, rec, op, b.jobs[JobOf(op)].id, b.jobs[JobOf(op)].args); }
  }

  lemma ReasonStaysWritten(rec: Record, after: Status)
    requires Reasoned(rec, after) && rec.found.reason != "ACLFailed"
    ensures after.reason != "ACLFailed"
  {
    AclReasonUnwritten(if rec.polled.Some? then rec.polled.value.0 else Acl);
    hide FailedReason, OTHER;
  }

  lemma AppendEntry(trace: seq<Record>, rec: Record)
    requires GoodEntries(trace) && GoodEntry(trace, rec)
    ensures GoodEntries(trace + [rec])
  {
    var longer := trace + [rec];
    hide GoodEntry;
    forall k | 0 <= k < |longer| ensures GoodEntry(longer[..k], longer[k]) {
      assert longer[..k] == trace[..k];
      if k == |trace| { assert trace[..k] == trace; }
    }
  }

  /** The record of a pass over a state found so. */
  ghost predicate FoundIn(rec: Record, s: State, d: Work) {
    && rec.spec == s.spec && rec.found == s.status && rec.after == d.s.status && rec.err == d.err
    && rec.sent == d.rec.sent && rec.polled == d.rec.polled && rec.polledId == d.rec.polledId
    && Told(rec, rec.after, rec.err)
  }

  lemma SealTold(s: State, i: Input)
    ensures FoundIn(Pass(s, i).1, s, Decide(s, i, Blank(s)))
    ensures Pass(s, i).0.box == Decide(s, i, Blank(s)).s.box && Pass(s, i).0.spec == s.spec
    ensures Pass(s, i).0.status == if Pass(s, i).1.stored then Pass(s, i).1.after else s.status
  {
    DecideTold(s, i);
    DecideFrame(s, i);
    hide Decide, Drift, AclHash, FailedReason;
    var w := Decide(s, i, Blank(s));
    assert Told(w.rec, w.s.status, w.err);
    SameTold(w.rec, Pass(s, i).1, w.s.status, w.err);
  }

  lemma SameTold(a: Record, b: Record, after: Status, err: bool)
    requires b == a.(after := b.after, err := b.err, stored := b.stored) && Told(a, after, err)
    ensures Told(b, after, err)
  {
    hide Drift, AclHash, FailedReason;
  }

  lemma DecideFrame(s: State, i: Input)
    ensures var w := Decide(s, i, Blank(s));
      w.rec.spec == s.spec && w.rec.found == s.status && w.s.spec == s.spec && w.rec.stored
  {
    FinalizeFrame(s, i);
    ProbeFrame(s, i);
    if s.status.operation.Some? { PollFrame(s, i, s.status.operation.value); }
    hide Finalize, Poll, Probe;
  }

  ghost predicate Framed(s: State, w: Work) {
    w.rec.spec == s.spec && w.rec.found == s.status && w.s.spec == s.spec && w.rec.stored
  }

  lemma FinalizeFrame(s: State, i: Input)
    ensures Framed(s, Finalize(s, i, Blank(s)))
  {
    hide RunJob, JobOf, Args;
  }

  lemma PollFrame(s: State, i: Input, op: Op)
    ensures Framed(s, Poll(s, i, op, Blank(s)))
  {
    var (b, out) := RunJob(s.box, JobOf(op), Args(s.spec, op, s.status.enabled), i.fault);
    hide RunJob, JobOf, Args, Finish;
    if out.Done? {
      FinishFrame(s.(box := b), op, Blank(s).(polled := Some((op, out.args, out.answer)), polledId := out.id),
                  out.answer);
    }
  }

  lemma ProbeFrame(s: State, i: Input)
    ensures Framed(s, Probe(s, i, Blank(s)))
  {
    var (b, out) := RunJob(s.box, QUERY_JOB, ["pool", "query"], i.fault);
    var s1 := s.(box := b, hold := Some(i.now + WAIT));
    hide RunJob, StartOp, Drift, Copied;
    StartKeeps(s1, i, Create, Blank(s).(missing := true));
    if out.Done? && out.answer.Queried? {
      var info := out.answer.info;
      var s2 := s1.(status := Copied(s1.status, info, i.now));
      if Drift(s2.spec, s2.status).Some? {
        StartKeeps(s2, i, Drift(s2.spec, s2.status).value, Blank(s).(read := Some((i.now, info))));
      }
    }
  }

  lemma PassJobs(w: World, i: Input)
    requires RecInv(w)
    ensures var (s, rec) := Pass(w.s, i);
      && JobInv(w.trace + [rec], s.box, Create) && JobInv(w.trace + [rec], s.box, Acl)
      && (rec.polled.Some? && rec.polled.value.0 in {Create, Acl} ==>
            MadeIn(w.trace, rec.polled.value.0, rec.polledId, rec.polled.value.1))
  {
    hide Pass, Decide, Told, JobInv, JobStep, GoodEntries, MadeIn, OnRecord;
    SealTold(w.s, i);
    DecideStep(w.s, i, Create);
    DecideStep(w.s, i, Acl);
    var (s, rec) := Pass(w.s, i);
    JobsKept(w.trace, w.s, Decide(w.s, i, Blank(w.s)), s.box, rec, Create);
    JobsKept(w.trace, w.s, Decide(w.s, i, Blank(w.s)), s.box, rec, Acl);
  }

  lemma PassKeepsRecInv(w: World, i: Input)
    requires RecInv(w)
    ensures RecInv(Apply(w, Reconcile(i)))
  {
    hide Pass, Decide, Starts, Stamped, JobInv, GoodEntries, MadeIn, Reasoned;
    var (s, rec) := Pass(w.s, i);
    SealTold(w.s, i);
    PassJobs(w, i);
    ReasonStaysWritten(rec, rec.after);
    assert (w.trace + [rec])[..|w.trace|] == w.trace;
    AppendEntry(w.trace, rec);
  }

  lemma StepKeepsRecInv(w: World, step: Step)
    requires RecInv(w)
    ensures RecInv(Apply(w, step))
  {
    if step.Reconcile? {
      PassKeepsRecInv(w, step.i);
      hide RecInv, Apply;
    } else {
      QuietStep(w, step);
    }
  }

  /** Everything but a pass leaves status and trace alone, the open Jobs what they are, and no older spec. */
  lemma QuietStep(w: World, step: Step)
    requires !step.Reconcile? && RecInv(w)
    ensures RecInv(Apply(w, step))
  {
    hide OnRecord, GoodEntries, Pass, RunJob;
    JobMoves(w, step, Create);
    JobMoves(w, step, Acl);
    hide JobInv;
  }

  lemma JobMoves(w: World, step: Step, op: Op)
    requires !step.Reconcile? && JobInv(w.trace, w.s.box, op)
    ensures JobInv(w.trace, Apply(w, step).s.box, op)
  {
    hide MadeIn, JobOf, Pass;
  }

  lemma {:induction false} RunRecInv(spec: Spec, steps: seq<Step>)
    ensures RecInv(Run(spec, steps))
  {
    if steps == [] {
      assert "ACLFailed"[0] == 'A';
    } else {
      RunRecInv(spec, steps[..|steps| - 1]);
      StepKeepsRecInv(Run(spec, steps[..|steps| - 1]), steps[|steps| - 1]);
      hide RecInv, Apply;
    }
  }

  lemma EntryAt(trace: seq<Record>, k: nat)
    requires IsTrace(trace) && k < |trace|
    ensures GoodEntry(trace[..k], trace[k])
  {
    var spec, steps :| Run(spec, steps).trace == trace;
    RunRecInv(spec, steps);
    hide GoodEntry, Run;
  }
}
