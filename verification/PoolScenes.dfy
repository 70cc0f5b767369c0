/** Runs of a DaosPool, step by step, in which the edges of its promises are reached. */
module PoolScenes {
  import opened Text
  import opened Mailbox
  import opened Pool
  import opened PoolRuns
  import opened PoolRecords
  import opened PoolEdges

  function Calm(now: int): Input { Input(now, true, true, NoFault, false, false) }

  // ---- rounds of steps

  /** A query is asked, answered, and the answer read. */
  function Round(t: int, a: Answer): seq<Step> {
    [JobGone(QUERY_JOB), Reconcile(Calm(t)), JobFinished(QUERY_JOB, a), Reconcile(Calm(t))]
  }

  /** Nothing is in flight, and the next query may go. */
  predicate AtRest(s: State, t: int) {
    && !s.deleting && s.finalizer && s.status.operation.None? && (s.hold.None? || s.hold.value <= t)
    && !s.box.Open(QUERY_JOB) && s.status.reason != ""
  }

  /** The state in which the answer of a round is judged. */
  function Reading(s: State, t: int): State {
    s.(hold := Some(t + WAIT),
       box := Box(s.box.jobs[QUERY_JOB := Job(s.box.nextId, ["pool", "query"], Deleting)], s.box.nextId + 1))
  }

  function Judged(s: State, t: int, a: Answer): Work
    requires a.Queried? || a.NotFound?
  {
    if a.Queried? then Mirror(Reading(s, t), Calm(t), a.info, Blank(s))
    else Missing(Reading(s, t), Calm(t), Blank(s).(missing := true))
  }

  function Waiting(s: State, phase: Phase<Answer>): State {
    s.(box := Box(s.box.jobs[QUERY_JOB := Job(s.box.nextId, ["pool", "query"], phase)], s.box.nextId + 1))
  }

  lemma Asks(s: State, t: int)
    requires AtRest(s, t) && QUERY_JOB !in s.box.jobs
    ensures Pass(s, Calm(t)).0 == Waiting(s, Running) && Pass(s, Calm(t)).1.started.None?
    ensures Pass(s, Calm(t)).1.polled.None?
    ensures UuidWritten(Pass(s, Calm(t)).1).None? && Pass(s, Calm(t)).1.stored && Pass(s, Calm(t)).1.after == s.status
  {
    hide QUERY_JOB;
  }

  lemma Judges(s: State, t: int, a: Answer)
    requires AtRest(s, t) && (a.Queried? || a.NotFound?) && !Judged(s, t, a).err
    ensures Pass(Waiting(s, Finished(a)), Calm(t)) == (Judged(s, t, a).s, Sealed(Judged(s, t, a)))
  {
    var s2 := Waiting(s, Finished(a));
    assert s2.box.jobs[QUERY_JOB := s2.box.jobs[QUERY_JOB].(phase := Deleting)] == Reading(s, t).box.jobs;
    assert Blank(s2) == Blank(s);
    hide Mirror, Missing, QUERY_JOB;
    assert s2.(box := Reading(s, t).box, hold := Some(t + WAIT)) == Reading(s, t);
  }

  lemma RunOne(spec: Spec, steps: seq<Step>, a: Step)
    ensures Run(spec, steps + [a]) == Apply(Run(spec, steps), a)
  {
    hide Apply;
    assert (steps + [a])[..|steps|] == steps;
  }

  lemma RunTwo(spec: Spec, steps: seq<Step>, a: Step, b: Step)
    ensures Run(spec, steps + [a, b]) == Apply(Apply(Run(spec, steps), a), b)
  {
    hide Apply, Run;
    RunOne(spec, steps, a);
    RunOne(spec, steps + [a], b);
    assert steps + [a] + [b] == steps + [a, b];
  }

  lemma AsksFirst(spec: Spec, steps: seq<Step>, t: int) returns (rec: Record)
    requires AtRest(Run(spec, steps).s, t)
    ensures var w := Run(spec, steps);
      && Run(spec, steps + [JobGone(QUERY_JOB), Reconcile(Calm(t))]) == World(Waiting(w.s, Running), w.trace + [rec])
      && rec.started.None? && rec.polled.None? && rec.stored && rec.after == w.s.status && UuidWritten(rec).None?
  {
    hide Pass, Run, QUERY_JOB;
    var w := Run(spec, steps);
    RunTwo(spec, steps, JobGone(QUERY_JOB), Reconcile(Calm(t)));
    var gone := w.s.(box := DropJob(w.s.box, QUERY_JOB));
    assert gone.box.jobs[QUERY_JOB := Job(w.s.box.nextId, ["pool", "query"], Running)] ==
           w.s.box.jobs[QUERY_JOB := Job(w.s.box.nextId, ["pool", "query"], Running)];
    Asks(gone, t);
    rec := Pass(gone, Calm(t)).1;
  }

  lemma JudgesLast(spec: Spec, steps: seq<Step>, w: World, s: State, t: int, a: Answer)
    requires Run(spec, steps) == w && w.s == Waiting(s, Running)
    requires AtRest(s, t) && (a.Queried? || a.NotFound?) && !Judged(s, t, a).err
    ensures Run(spec, steps + [JobFinished(QUERY_JOB, a), Reconcile(Calm(t))]) ==
      World(Judged(s, t, a).s, w.trace + [Sealed(Judged(s, t, a))])
  {
    hide Pass, Run, Judged, QUERY_JOB, Sealed;
    RunTwo(spec, steps, JobFinished(QUERY_JOB, a), Reconcile(Calm(t)));
    Judges(s, t, a);
    assert FinishJob(w.s.box, QUERY_JOB, a).jobs == Waiting(s, Finished(a)).box.jobs;
    assert w.s.(box := FinishJob(w.s.box, QUERY_JOB, a)) == Waiting(s, Finished(a));
  }

  lemma RoundReads(spec: Spec, steps: seq<Step>, t: int, a: Answer) returns (rec: Record)
    requires AtRest(Run(spec, steps).s, t) && (a.Queried? || a.NotFound?) && !Judged(Run(spec, steps).s, t, a).err
    ensures var w := Run(spec, steps);
      var d := Judged(w.s, t, a);
      && Run(spec, steps + Round(t, a)) == World(d.s, w.trace + [rec, Sealed(d)])
      && rec.started.None? && rec.polled.None? && rec.stored && rec.after == w.s.status && UuidWritten(rec).None?
  {
    hide Run, Judged, QUERY_JOB, Sealed, Waiting, Calm;
    var w := Run(spec, steps);
    var half := steps + [JobGone(QUERY_JOB), Reconcile(Calm(t))];
    rec := AsksFirst(spec, steps, t);
    JudgesLast(spec, half, Run(spec, half), w.s, t, a);
    assert half + [JobFinished(QUERY_JOB, a), Reconcile(Calm(t))] == steps + Round(t, a);
    assert w.trace + [rec] + [Sealed(Judged(w.s, t, a))] == w.trace + [rec, Sealed(Judged(w.s, t, a))];
  }

  /** The Job of an operation ends, its result is read, and the Job goes. */
  function OpRound(t: int, op: Op, a: Answer): seq<Step> {
    [JobFinished(JobOf(op), a), Reconcile(Calm(t)), JobGone(JobOf(op))]
  }

  predicate InFlight(s: State, op: Op) {
    && !s.deleting && s.finalizer && s.status.operation == Some(op)
    && JobOf(op) in s.box.jobs && s.box.jobs[JobOf(op)].phase.Running?
  }

  /** What reading the result of the Job in flight comes to. */
  function Polled(s: State, op: Op, a: Answer): Work
    requires InFlight(s, op)
  {
    var job := s.box.jobs[JobOf(op)];
    Finish(s.(box := s.box.(jobs := s.box.jobs[JobOf(op) := job.(phase := Deleting)])), op,
           Blank(s).(polled := Some((op, job.args, a)), polledId := job.id), a)
  }

  lemma Polls(s: State, op: Op, t: int, a: Answer)
    requires InFlight(s, op)
    ensures Pass(s.(box := FinishJob(s.box, JobOf(op), a)), Calm(t)) == (Polled(s, op, a).s, Sealed(Polled(s, op, a)))
  {
    hide Finish, JobOf, Args;
    var s2 := s.(box := FinishJob(s.box, JobOf(op), a));
    var job := s.box.jobs[JobOf(op)];
    assert Blank(s2) == Blank(s);
    assert s2.box.jobs[JobOf(op) := s2.box.jobs[JobOf(op)].(phase := Deleting)] ==
        s.box.jobs[JobOf(op) := job.(phase := Deleting)];
    assert RunJob(s2.box, JobOf(op), Args(s2.spec, op, s2.status.enabled), NoFault) ==
           (s.box.(jobs := s.box.jobs[JobOf(op) := job.(phase := Deleting)]), Done(job.id, job.args, a));
    FinishErrs(s.(box := s.box.(jobs := s.box.jobs[JobOf(op) := job.(phase := Deleting)])), op,
               Blank(s).(polled := Some((op, job.args, a)), polledId := job.id), a);
    hide RunJob;
  }

  lemma FinishErrs(s: State, op: Op, rec: Record, a: Answer)
    ensures !Finish(s, op, rec, a).err
  {}

  lemma OpRoundReads(spec: Spec, steps: seq<Step>, t: int, op: Op, a: Answer)
    requires InFlight(Run(spec, steps).s, op)
    ensures var w := Run(spec, steps);
      var d := Polled(w.s, op, a);
      Run(spec, steps + OpRound(t, op, a)) ==
        World(d.s.(box := w.s.box.(jobs := w.s.box.jobs - {JobOf(op)})), w.trace + [Sealed(d)])
  {
    hide Run, Pass, JobOf, Finish, Sealed, Calm;
    var w := Run(spec, steps);
    var d := Polled(w.s, op, a);
    RunTwo(spec, steps, JobFinished(JobOf(op), a), Reconcile(Calm(t)));
    Polls(w.s, op, t, a);
    var most := steps + [JobFinished(JobOf(op), a), Reconcile(Calm(t))];
    RunOne(spec, most, JobGone(JobOf(op)));
    assert most + [JobGone(JobOf(op))] == steps + OpRound(t, op, a);
    var job := w.s.box.jobs[JobOf(op)];
    FinishFrame(w.s.(box := w.s.box.(jobs := w.s.box.jobs[JobOf(op) := job.(phase := Deleting)])), op,
                Blank(w.s).(polled := Some((op, job.args, a)), polledId := job.id), a);
    assert w.s.box.jobs[JobOf(op) := job.(phase := Deleting)] - {JobOf(op)} == w.s.box.jobs - {JobOf(op)};
    assert DropJob(d.s.box, JobOf(op)) == w.s.box.(jobs := w.s.box.jobs - {JobOf(op)});
  }

  /** The finalizer is set, and a pass sees a system that is not formatted yet. */
  const BEGUN: seq<Step> := [Reconcile(Calm(0)), Reconcile(Calm(0).(formatted := false))]

  const FIRST: Status := NewStatus.(reason := "SystemNotFormatted")

  lemma Begins(spec: Spec)
    ensures Run(spec, BEGUN).s == State(spec, FIRST, false, false, true, None, Box(map[], 0))
    ensures |Run(spec, BEGUN).trace| == 2
    ensures forall k :: 0 <= k < 2 ==> Run(spec, BEGUN).trace[k].spec == spec
  {
    assert [] + BEGUN == BEGUN;
    RunTwo(spec, [], Reconcile(Calm(0)), Reconcile(Calm(0).(formatted := false)));
  }

  // ---- a failed repair is started again

  /** A spec that differs from what the query says in the one thing op repairs. */
  function SpecFor(op: Op): Spec {
    Spec(0, if op.Extend? then [0, 1] else [], if op.Acl? then ["A"] else [], op.SelfHeal?, "", None,
         if op.ReintMode? then Some("data_sync") else None)
  }

  const INFO: Info := Info("u", "Ready", "idle", 0, [0], Some("incremental"), Some("exclude"), false, None)

  lemma DriftsFor(op: Op, st: Status)
    requires op in {Extend, Acl, ReintMode, SelfHeal}
    requires st.enabled == [0] && st.mode == "incremental" && st.heal == "exclude" && st.aclHash == ""
    ensures Drift(SpecFor(op), st) ==
      if FailedForSpec(SpecFor(op), st, if op.Acl? then "ACLFailed" else FailedReason(op)) then None else Some(op)
  {
    MissingRanksExact([0, 1], [0]);
    assert 1 in [0, 1] && 1 !in [0];
    assert "incremental"[0] == 'i' && "data_sync"[0] == 'd' && "exclude"[0] == 'e' && "none"[0] == 'n'
        && "ec"[0] == 'e';
    hide MissingRanks;
    assert NeedsExtend(SpecFor(op), st) <==> op.Extend?;
    assert NeedsAcl(SpecFor(op), st) <==> op.Acl?;
    assert NeedsMode(SpecFor(op), st) <==> op.ReintMode?;
    assert NeedsHeal(SpecFor(op), st) <==> op.SelfHeal?;
  }

  lemma JobNotQuery(op: Op)
    ensures JobOf(op) != QUERY_JOB
  {
    assert JobOf(op)[4] != QUERY_JOB[4];
  }

  lemma ReadStarts(s: State, t: int, op: Op)
    requires op in {Extend, Acl, ReintMode, SelfHeal} && AtRest(s, t) && s.spec == SpecFor(op)
    requires JobOf(op) !in s.box.jobs
    requires s.status.aclHash == "" && !FailedForSpec(s.spec, s.status, FailedReason(op))
    requires s.status.reason != "ACLFailed"
    ensures var d := Judged(s, t, Queried(INFO));
      && !d.err && InFlight(d.s, op) && d.rec.started == Some(op) && d.rec.spec == s.spec
      && d.rec.sent == Some((op, s.box.nextId + 1))
      && d.s.status == Copied(s.status, INFO, t).(operation := Some(op), reason := "InProgress")
      && d.s.hold == Some(t + WAIT)
      && d.s.spec == s.spec
      && d.s.box.jobs == s.box.jobs[QUERY_JOB := Job(s.box.nextId, ["pool", "query"], Deleting)]
                                   [JobOf(op) := Job(s.box.nextId + 1, Args(s.spec, op, [0]), Running)]
  {
    JobNotQuery(op);
    DriftsFor(op, Copied(s.status, INFO, t));
    hide Drift, Args, JobOf, SpecFor, FailedReason;
  }

  lemma ReadHeld(s: State, t: int, op: Op)
    requires op in {Extend, ReintMode, SelfHeal} && AtRest(s, t) && s.spec == SpecFor(op)
    requires s.status.aclHash == "" && FailedForSpec(s.spec, s.status, FailedReason(op))
    ensures var d := Judged(s, t, Queried(INFO));
      && !d.err && d.rec.started.None? && d.rec.polled.None?
      && d.s == Reading(s, t).(status := Copied(s.status, INFO, t).(reason := "Ready"))
  {
    DriftsFor(op, Copied(s.status, INFO, t));
    hide Drift, JobOf, SpecFor, FailedReason, QUERY_JOB;
  }

  lemma Fails(s: State, op: Op)
    requires op in {Extend, ReintMode, SelfHeal} && InFlight(s, op)
    ensures var d := Polled(s, op, OtherError);
      && FailedPoll(d.rec, op) && d.rec.stored && d.rec.spec == s.spec
      && d.s == s.(box := d.s.box, status := d.s.status)
      && d.s.status == s.status.(operation := None, observed := s.spec.generation, reason := FailedReason(op))
  {
    hide JobOf, FailedReason;
  }

  function Failing(op: Op): seq<Step> { BEGUN + Round(0, Queried(INFO)) + OpRound(1, op, OtherError) }

  lemma Repairing(op: Op)
    requires op in {Extend, Acl, ReintMode, SelfHeal}
    ensures var w := Run(SpecFor(op), BEGUN + Round(0, Queried(INFO)));
      && InFlight(w.s, op) && w.s.spec == SpecFor(op) && w.s.hold == Some(WAIT) && !w.s.box.Open(QUERY_JOB)
      && w.s.status.aclHash == "" && w.s.box.jobs[JobOf(op)].args == Args(SpecFor(op), op, [0])
      && |w.trace| == 4
  {
    hide *;
    var w := Run(SpecFor(op), BEGUN);
    FirstIsFree(op);
    ReadStarts(w.s, 0, op);
    var rec := RoundReads(SpecFor(op), BEGUN, 0, Queried(INFO));
    RepairInFlight(w.s, op, Judged(w.s, 0, Queried(INFO)).s);
  }

  lemma FirstIsFree(op: Op)
    requires op in {Extend, Acl, ReintMode, SelfHeal}
    ensures var w := Run(SpecFor(op), BEGUN);
      && AtRest(w.s, 0) && w.s.spec == SpecFor(op) && JobOf(op) !in w.s.box.jobs && |w.trace| == 2
      && w.s.status.aclHash == "" && !FailedForSpec(w.s.spec, w.s.status, FailedReason(op))
      && w.s.status.reason != "ACLFailed"
  {
    Begins(SpecFor(op));
    OtherIsOther(op);
    assert "SystemNotFormatted"[0] == 'S' && "ACLFailed"[0] == 'A';
    assert FIRST.reason in OTHER;
    hide Run, OTHER, FailedReason, SpecFor, JobOf;
  }

  lemma RepairInFlight(s: State, op: Op, s': State)
    requires InFlight(s', op) && s'.hold == Some(0 + WAIT) && s.status.aclHash == "" && s'.spec == s.spec
    requires s'.status == Copied(s.status, INFO, 0).(operation := Some(op), reason := "InProgress")
    requires s'.box.jobs == s.box.jobs[QUERY_JOB := Job(s.box.nextId, ["pool", "query"], Deleting)]
                                      [JobOf(op) := Job(s.box.nextId + 1, Args(s.spec, op, [0]), Running)]
    ensures s'.hold == Some(WAIT) && !s'.box.Open(QUERY_JOB) && s'.status.aclHash == ""
    ensures s'.box.jobs[JobOf(op)].args == Args(s.spec, op, [0])
  {
    JobNotQuery(op);
    hide JobOf, Args, QUERY_JOB;
  }

  /** The state a failed repair leaves, with the next query due at t. */
  ghost predicate FailedAt(s: State, op: Op, t: int) {
    && AtRest(s, t) && s.spec == SpecFor(op) && s.status.aclHash == "" && JobOf(op) !in s.box.jobs
    && FailedForSpec(s.spec, s.status, FailedReason(op))
  }

  lemma RepairFails(op: Op)
    requires op in {Extend, ReintMode, SelfHeal}
    ensures var w := Run(SpecFor(op), Failing(op));
      FailedAt(w.s, op, WAIT) && |w.trace| == 5 && Failure(w.trace[4], op) && w.trace[4].spec == SpecFor(op)
  {
    hide *;
    Repairing(op);
    var steps := BEGUN + Round(0, Queried(INFO));
    var w := Run(SpecFor(op), steps);
    Fails(w.s, op);
    OpRoundReads(SpecFor(op), steps, 1, op, OtherError);
    SealedFailure(Polled(w.s, op, OtherError), op);
    FailingIs(op);
    FailedRests(w.s, op, Run(SpecFor(op), Failing(op)).s);
  }

  lemma FailingIs(op: Op)
    ensures Failing(op) == BEGUN + Round(0, Queried(INFO)) + OpRound(1, op, OtherError)
  {}

  lemma FailedRests(s: State, op: Op, s': State)
    requires InFlight(s, op) && s.spec == SpecFor(op) && s.hold == Some(WAIT) && !s.box.Open(QUERY_JOB)
    requires s.status.aclHash == ""
    requires s' == s.(box := s.box.(jobs := s.box.jobs - {JobOf(op)}), status := s'.status)
    requires s'.status == s.status.(operation := None, observed := s.spec.generation, reason := FailedReason(op))
    ensures FailedAt(s', op, WAIT)
  {
    JobNotQuery(op);
    assert FailedReason(op) != "";
    hide JobOf, SpecFor, FailedReason, QUERY_JOB;
  }

  lemma SealedFailure(d: Work, op: Op)
    requires FailedPoll(d.rec, op) && d.rec.stored
    ensures Failure(Sealed(d), op) && Sealed(d).spec == d.rec.spec
  {}

  lemma RepairHeld(op: Op, steps: seq<Step>, t: int) returns (rec: Record, rec': Record)
    requires op in {Extend, ReintMode, SelfHeal} && FailedAt(Run(SpecFor(op), steps).s, op, t)
    ensures var w, w' := Run(SpecFor(op), steps), Run(SpecFor(op), steps + Round(t, Queried(INFO)));
      && w'.trace == w.trace + [rec, rec'] && rec.started.None? && rec'.started.None? && rec.polled.None?
      && rec'.polled.None?
      && AtRest(w'.s, t + WAIT) && w'.s.spec == SpecFor(op) && w'.s.status.aclHash == "" && JobOf(op) !in w'.s.box.jobs
      && w'.s.status.reason == "Ready"
  {
    JobNotQuery(op);
    hide Run, Round, SpecFor, JobOf, FailedReason, QUERY_JOB;
    var w := Run(SpecFor(op), steps);
    ReadHeld(w.s, t, op);
    hide Judged;
    rec := RoundReads(SpecFor(op), steps, t, Queried(INFO));
    rec' := Sealed(Judged(w.s, t, Queried(INFO)));
  }

  lemma RepairAgain(op: Op, steps: seq<Step>, t: int) returns (rec: Record, rec': Record)
    requires var s := Run(SpecFor(op), steps).s;
      && op in {Extend, ReintMode, SelfHeal} && AtRest(s, t) && s.spec == SpecFor(op) && s.status.aclHash == ""
      && JobOf(op) !in s.box.jobs && s.status.reason == "Ready"
    ensures Run(SpecFor(op), steps + Round(t, Queried(INFO))).trace == Run(SpecFor(op), steps).trace + [rec, rec']
    ensures rec.started.None? && rec.polled.None? && rec'.started == Some(op) && rec'.spec == SpecFor(op)
  {
    OtherIsOther(op);
    assert "Ready" in OTHER && "Ready"[0] == 'R' && "ACLFailed"[0] == 'A';
    hide Run, Round, SpecFor, JobOf, FailedReason, QUERY_JOB, OTHER;
    var w := Run(SpecFor(op), steps);
    ReadStarts(w.s, t, op);
    hide Judged;
    rec := RoundReads(SpecFor(op), steps, t, Queried(INFO));
    rec' := Sealed(Judged(w.s, t, Queried(INFO)));
  }

  function Rearming(op: Op): seq<Step> { Failing(op) + Round(WAIT, Queried(INFO)) + Round(2 * WAIT, Queried(INFO)) }

  /** A real run for each of the three repairs: it fails, one query later the pass holds it back and records
      "Ready", and the query after that starts it again, all in one generation. */
  lemma FailedRepairRearms(op: Op) returns (j: nat, k: nat)
    requires op in {Extend, ReintMode, SelfHeal}
    ensures var trace := Run(SpecFor(op), Rearming(op)).trace;
      && j < k < |trace| && Failure(trace[j], op) && trace[k].started == Some(op)
      && trace[k].spec.generation == trace[j].spec.generation
      && forall m :: j < m < k ==> trace[m].started.None? && trace[m].polled.None?
  {
    hide Run, Round, SpecFor, JobOf, FailedReason, QUERY_JOB, AtRest, FailedForSpec, Failing, Failure;
    RepairFails(op);
    var held := Failing(op) + Round(WAIT, Queried(INFO));
    var r5, r6 := RepairHeld(op, Failing(op), WAIT);
    var r7, r8 := RepairAgain(op, held, 2 * WAIT);
    var w := Run(SpecFor(op), Failing(op));
    assert Run(SpecFor(op), Rearming(op)).trace == w.trace + [r5, r6] + [r7, r8];
    j, k := 4, 8;
  }

  // ---- an ACL recorded without being written

  const ACL_STEPS: seq<Step> :=
    BEGUN + Round(0, Queried(INFO)) + [Edit(SpecFor(Acl).(acl := ["B"]))] + OpRound(1, Acl, Applied)

  lemma AclApplied(s: State)
    requires InFlight(s, Acl)
    ensures var d := Polled(s, Acl, Applied);
      && d.s.status.aclHash == AclHash(s.spec.acl) && d.s.spec == s.spec && d.rec.stored
      && d.rec.polled == Some((Acl, s.box.jobs[JobOf(Acl)].args, Applied))
  {
    hide JobOf, AclHash;
  }

  /** A real run: the ACL is edited while the Job of the old one runs. What the Job wrote is not what is recorded,
      and no drift is left to see. */
  lemma EditedAclIsRecordedUnwritten()
    ensures var w := Run(SpecFor(Acl), ACL_STEPS);
      && w.trace != [] && var rec := w.trace[|w.trace| - 1];
      && rec.stored && rec.polled == Some((Acl, ["pool", "overwrite-acl", "A"], Applied))
      && w.s.status.aclHash == AclHash(["B"]) != AclHash(["A"]) && !NeedsAcl(w.s.spec, w.s.status)
  {
    var spec := SpecFor(Acl);
    assert Args(spec, Acl, [0]) == ["pool", "overwrite-acl", "A"];
    assert AclHash(["B"]) == "B" && AclHash(["A"]) == "A" && "A"[0] != "B"[0];
    hide Run, Round, OpRound, JobOf, Args, Polled, AclHash;
    Repairing(Acl);
    var steps := BEGUN + Round(0, Queried(INFO));
    var edit := Edit(spec.(acl := ["B"]));
    RunOne(spec, steps, edit);
    var w := Run(spec, steps + [edit]);
    AclApplied(w.s);
    OpRoundReads(spec, steps + [edit], 1, Acl, Applied);
    assert steps + [edit] + OpRound(1, Acl, Applied) == ACL_STEPS;
  }

  // ---- a pool created twice

  const PLAIN: Spec := Spec(0, [], [], false, "", None, None)

  function Health(uuid: string): Info { Info(uuid, "Ready", "idle", 0, [0], None, None, true, None) }

  lemma ReadHealth(s: State, t: int, uuid: string)
    requires AtRest(s, t)
    ensures var d := Judged(s, t, Queried(Health(uuid)));
      && !d.err && d.s == Reading(s, t).(status := d.s.status) && AtRest(d.s, t + WAIT)
      && d.s.status.uuid == uuid && d.s.status.reason == "ReadyHealthOnly" && UuidWritten(Sealed(d)) == Some(uuid)
  {
    hide QUERY_JOB;
  }

  lemma ReadMissing(s: State, t: int)
    requires AtRest(s, t) && s.status.uuid == "" && s.status.reason == "ReadyHealthOnly"
    ensures var d := Judged(s, t, NotFound); !d.err && d.rec.started == Some(Create)
  {
    assert "ReadyHealthOnly"[0] == 'R' && "CreateFailed"[0] == 'C';
    hide RunJob, Args, JobOf, QUERY_JOB;
    NoFaultNoError(Reading(s, t), Create);
  }

  lemma NoFaultNoError(s: State, op: Op)
    ensures !RunJob(s.box, JobOf(op), Args(s.spec, op, s.status.enabled), NoFault).1.ApiError?
  {}

  const TWICE: seq<Step> :=
    BEGUN + Round(0, Queried(Health("u"))) + Round(WAIT, Queried(Health(""))) + Round(2 * WAIT, NotFound)

  /** A real run: a UUID is on record, a query answers with an empty one, and the next answer "not found" starts a
      create. */
  lemma EmptyUuidAllowsCreate() returns (k: nat, j: nat)
    ensures var trace := Run(PLAIN, TWICE).trace;
      k < j < |trace| && Uuid(trace[..k]) == "u" && trace[j].started == Some(Create)
  {
    Begins(PLAIN);
    assert FIRST.reason != "";
    hide Run, Round, Judged, Uuid, AtRest;
    var s0 := Run(PLAIN, BEGUN);
    assert AtRest(s0.s, 0) by { AtRestFirst(s0.s); }
    ReadHealth(s0.s, 0, "u");
    var r0 := RoundReads(PLAIN, BEGUN, 0, Queried(Health("u")));
    var one := BEGUN + Round(0, Queried(Health("u")));
    var s1 := Run(PLAIN, one);
    ReadHealth(s1.s, WAIT, "");
    var r1 := RoundReads(PLAIN, one, WAIT, Queried(Health("")));
    var two := one + Round(WAIT, Queried(Health("")));
    var s2 := Run(PLAIN, two);
    ReadMissing(s2.s, 2 * WAIT);
    var r2 := RoundReads(PLAIN, two, 2 * WAIT, NotFound);
    k, j := 4, 7;
    var trace := Run(PLAIN, TWICE).trace;
    assert |s1.trace| == 4 && trace[..4] == s1.trace;
    UuidOf(s0.trace, r0, Sealed(Judged(s0.s, 0, Queried(Health("u")))));
  }

  lemma AtRestFirst(s: State)
    requires s == State(PLAIN, FIRST, false, false, true, None, Box(map[], 0))
    ensures AtRest(s, 0)
  {
    assert FIRST.reason != "";
  }

  lemma UuidOf(trace: seq<Record>, a: Record, b: Record)
    requires UuidWritten(b).Some?
    ensures Uuid(trace + [a, b]) == UuidWritten(b).value
  {
    hide UuidWritten;
    var longer := trace + [a, b];
    assert longer[|longer| - 1] == b;
  }

  // ---- an event sent twice

  /** A destroy is sent, fails, is read by a pass that may lose its status, and the Job goes. */
  function DestroyRound(lost: bool): seq<Step> {
    [Reconcile(Calm(0)), JobFinished(JobOf(Destroy), OtherError)]
    + [Reconcile(Calm(0).(lost := lost)), JobGone(JobOf(Destroy))]
  }

  /** The pool is to be destroyed, with so many failures on record and no destroy in flight. */
  ghost predicate Doomed(s: State, failures: nat) {
    && s.deleting && s.approved && s.finalizer && s.status.uuid != "" && s.status.attempts == failures
    && JobOf(Destroy) !in s.box.jobs
  }

  /** The same, with the destroy Job in this phase. */
  ghost predicate Destroying(s: State, failures: nat, phase: Phase<Answer>) {
    && s.deleting && s.approved && s.finalizer && s.status.uuid != "" && s.status.attempts == failures
    && JobOf(Destroy) in s.box.jobs && s.box.jobs[JobOf(Destroy)].phase == phase
  }

  lemma SendsDestroy(s: State, failures: nat)
    requires Doomed(s, failures)
    ensures Destroying(Pass(s, Calm(0)).0, failures, Running) && !Pass(s, Calm(0)).1.stalled
  {
    hide JobOf, Args;
  }

  lemma ReadsDestroy(s: State, failures: nat, lost: bool)
    requires Destroying(s, failures, Finished(OtherError))
    ensures var (s', rec) := Pass(s, Calm(0).(lost := lost));
      && Destroying(s', if lost then failures else failures + 1, Deleting)
      && (rec.stalled <==> failures == 2)
  {
    hide JobOf, Args;
  }

  lemma DestroyFails(spec: Spec, steps: seq<Step>, failures: nat, lost: bool) returns (sent: Record, read: Record)
    requires Doomed(Run(spec, steps).s, failures)
    ensures var w, w' := Run(spec, steps), Run(spec, steps + DestroyRound(lost));
      && Doomed(w'.s, if lost then failures else failures + 1) && w'.trace == w.trace + [sent] + [read]
      && !sent.stalled && (read.stalled <==> failures == 2)
  {
    hide Run, Pass, JobOf;
    var w := Run(spec, steps);
    var first := [Reconcile(Calm(0)), JobFinished(JobOf(Destroy), OtherError)];
    var last := [Reconcile(Calm(0).(lost := lost)), JobGone(JobOf(Destroy))];
    assert steps + DestroyRound(lost) == steps + first + last;
    RunTwo(spec, steps, Reconcile(Calm(0)), JobFinished(JobOf(Destroy), OtherError));
    RunTwo(spec, steps + first, Reconcile(Calm(0).(lost := lost)), JobGone(JobOf(Destroy)));
    SendsDestroy(w.s, failures);
    sent := Pass(w.s, Calm(0)).1;
    var half := Run(spec, steps + first);
    assert Destroying(half.s, failures, Finished(OtherError));
    ReadsDestroy(half.s, failures, lost);
    read := Pass(half.s, Calm(0).(lost := lost)).1;
  }

  const CREATED: seq<Step> := BEGUN + Round(0, Queried(Health("u")))

  lemma CreatedPool()
    ensures var w := Run(PLAIN, CREATED + [SetApproved(true), Delete]); Doomed(w.s, 0)
  {
    Begins(PLAIN);
    JobNotQuery(Destroy);
    hide Run, Round, Judged, QUERY_JOB, JobOf;
    var w := Run(PLAIN, BEGUN);
    assert AtRest(w.s, 0) by { AtRestFirst(w.s); }
    HealthKeeps(w.s, 0);
    var rec := RoundReads(PLAIN, BEGUN, 0, Queried(Health("u")));
    RunTwo(PLAIN, CREATED, SetApproved(true), Delete);
  }

  lemma HealthKeeps(s: State, t: int)
    requires AtRest(s, t)
    ensures var d := Judged(s, t, Queried(Health("u")));
      && !d.err && d.s.status.uuid == "u" && d.s.status.attempts == s.status.attempts && d.s.finalizer
      && d.s.box.jobs == s.box.jobs[QUERY_JOB := Job(s.box.nextId, ["pool", "query"], Deleting)]
  {
    hide QUERY_JOB;
  }

  lemma {:induction false} FiredOne(trace: seq<Record>, a: Record, b: Record)
    ensures Fired(trace + [a] + [b]) == Fired(trace) + (if a.stalled then 1 else 0) + if b.stalled then 1 else 0
  {
    assert (trace + [a] + [b])[..|trace| + 1] == trace + [a];
    assert (trace + [a])[..|trace|] == trace;
  }

  /** A real run: the pass that reads the third failure sends DestroyStalled and loses its status, and the next one
      sends it again. */
  lemma StalledTwice() returns (steps: seq<Step>)
    ensures Fired(Run(PLAIN, steps).trace) >= 2 && Doomed(Run(PLAIN, steps).s, 3)
  {
    hide Run, Fired, Doomed, DestroyRound, CREATED;
    CreatedPool();
    var s0 := CREATED + [SetApproved(true), Delete];
    var a1, b1 := DestroyFails(PLAIN, s0, 0, false);
    var s1 := s0 + DestroyRound(false);
    var a2, b2 := DestroyFails(PLAIN, s1, 1, false);
    var s2 := s1 + DestroyRound(false);
    var a3, b3 := DestroyFails(PLAIN, s2, 2, true);
    var s3 := s2 + DestroyRound(true);
    var a4, b4 := DestroyFails(PLAIN, s3, 2, false);
    steps := s3 + DestroyRound(false);
    FiredOne(Run(PLAIN, s2).trace, a3, b3);
    FiredOne(Run(PLAIN, s3).trace, a4, b4);
  }
}
