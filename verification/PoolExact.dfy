/** What one pass over a DaosPool leaves, answer by answer, said on the spec, the status and dmg's answer alone. */
module PoolExact {
  import opened Text
  import opened Mailbox
  import opened Pool
  import PoolRuns
  import PoolDrift

  /** The pool is to be looked after: not deleted, held by its finalizer, on a formatted system. */
  predicate Serving(s: State, i: Input) { i.systemFound && i.formatted && s.finalizer && !s.deleting }

  /** A finished Job of that name, and an API that goes along. */
  predicate Finds(s: State, i: Input, name: string, answer: Answer) {
    i.fault.NoFault? && name in s.box.jobs && s.box.jobs[name].phase == Finished(answer)
  }

  predicate ReadsQuery(s: State, i: Input, answer: Answer) {
    && Serving(s, i) && s.status.operation.None? && (s.hold.Some? ==> s.hold.value <= i.now)
    && Finds(s, i, QUERY_JOB, answer)
  }

  /** The Jobs once a finished one was read. */
  function Taken(jobs: map<string, Job<Answer>>, name: string): map<string, Job<Answer>>
    requires name in jobs
  {
    jobs[name := jobs[name].(phase := Deleting)]
  }

  /** The Jobs once an operation was asked for that was not there. */
  function Asked(jobs: map<string, Job<Answer>>, op: Op, id: nat, args: seq<string>): map<string, Job<Answer>> {
    jobs[JobOf(op) := Job(id, args, Running)]
  }

  // ---- a query

  /** The status with what one query says in place of what was known; properties it did not get stay. */
  ghost function Told(st: Status, info: Info, now: int): Status {
    var t := PoolRuns.RanAt((now, info));
    Status(info.uuid, info.state, info.rebuild, info.disabled, Some(t - t % 1_000_000_000), info.enabled,
           if info.mode.Some? then info.mode.value else st.mode, if info.heal.Some? then info.heal.value else st.heal,
           st.aclHash, st.operation, st.observed, st.reason, st.attempts)
  }

  /** The last attempt for this spec failed, with that reason on record. */
  predicate Failed(spec: Spec, st: Status, reason: string) { st.reason == reason && st.observed == spec.generation }

  ghost predicate LacksRank(spec: Spec, st: Status) {
    st.enabled != [] && exists r :: r in spec.ranks && r !in st.enabled
  }

  predicate Differs(want: Option<string>, have: string) { want.Some? && have != "" && have != want.value }

  /** The repair a pass starts: ranks first, then the ACL, the reintegration mode and self-healing. */
  ghost function Repair(spec: Spec, st: Status): Option<Op> {
    if LacksRank(spec, st) && !Failed(spec, st, "ExtendFailed") then Some(Extend)
    else if AclHash(spec.acl) != "" && AclHash(spec.acl) != st.aclHash && !Failed(spec, st, "ACLFailed") then Some(Acl)
    else if Differs(PoolDrift.WantedMode(spec), st.mode) && !Failed(spec, st, "ReintmodeFailed") then Some(ReintMode)
    else if Differs(PoolDrift.WantedHeal(spec), st.heal) && !Failed(spec, st, "SelfhealFailed") then Some(SelfHeal)
    else None
  }

  lemma RepairMeans(spec: Spec, st: Status)
    ensures Drift(spec, st) == Repair(spec, st)
  {
    PoolDrift.MissingMeansOff(spec.ranks, st.enabled);
    PoolDrift.WantedMeans(spec);
    hide MissingRanks, PinnedReintegration, PinnedSelfHeal, PoolDrift.WantedMode, PoolDrift.WantedHeal, AclHash;
    if spec.ranks != [] && st.enabled != [] && MissingRanks(spec.ranks, st.enabled) != [] {
      assert LacksRank(spec, st);
    }
  }

  /** The arguments of a repair name exactly what the status lacks. */
  ghost predicate Names(spec: Spec, st: Status, op: Op, args: seq<string>) {
    PoolDrift.NamesDrift(spec, PoolDrift.Daos((iset r | r in st.enabled), st.mode, st.heal), op, args)
  }

  lemma RepairNamed(s: State, st: Status, op: Op)
    requires Repair(s.spec, st) == Some(op)
    ensures Names(s.spec, st, op, Args(s.spec, op, st.enabled))
  {
    var daos := PoolDrift.Daos((iset r | r in st.enabled), st.mode, st.heal);
    hide AclHash, PoolDrift.WantedMode, PoolDrift.WantedHeal, Args, PoolDrift.NamesDrift;
    if st.enabled != [] {
      var first: int := st.enabled[0];
      assert first in st.enabled && first in daos.ranks;
    }
    PoolDrift.ArgsNameDrift(PoolDrift.Loop(s.(status := st), daos, 0), op, st.enabled);
  }

  lemma CopiedMeans(st: Status, info: Info, now: int)
    ensures Copied(st, info, now) == Told(st, info, now)
  {}

  lemma QueryRead(s: State, i: Input, answer: Answer)
    requires ReadsQuery(s, i, answer)
    ensures var s1 := s.(box := s.box.(jobs := Taken(s.box.jobs, QUERY_JOB)), hold := Some(i.now + 30_000_000_000));
      Decide(s, i, Blank(s)) ==
      match answer
      case NotFound => Missing(s1, i, Blank(s).(missing := true))
      case Queried(info) => Mirror(s1, i, info, Blank(s))
      case OtherError => Work(SetReason(s1, "QueryError"), Blank(s), false)
      case _ => Work(SetReason(s1, "ProbeFailed"), Blank(s), false)
  {
    hide Missing, Mirror, Finalize, Poll, QUERY_JOB;
  }

  /** What the pass left for later, in the status and out of it. */
  predicate Leaves(s: State, i: Input, s': State, status: Status, jobs: map<string, Job<Answer>>, hold: Option<int>) {
    && s'.status == (if i.lost then s.status else status) && s'.box.jobs == jobs && s'.hold == hold
    && s'.spec == s.spec && s'.finalizer == s.finalizer
  }

  lemma StartLeaves(s: State, i: Input, op: Op, rec: Record)
    requires i.fault.NoFault? && JobOf(op) !in s.box.jobs
    ensures var w := StartOp(s, i, op, rec);
      && !w.err && w.rec.started == Some(op)
      && w.s == s.(status := s.status.(operation := Some(op), reason := "InProgress"),
                   box := Box(Asked(s.box.jobs, op, s.box.nextId, Args(s.spec, op, s.status.enabled)),
                              s.box.nextId + 1))
  {
    hide Args;
  }

  lemma PassLeaves(s: State, i: Input, w: Work)
    requires w == Decide(s, i, Blank(s)) && !w.err
    ensures Pass(s, i).0 == if i.lost then w.s.(status := s.status) else w.s
    ensures Pass(s, i).1.started == w.rec.started
  {
    hide Decide;
  }

  /** A query that finds the pool is copied as a whole. Where the pool then falls short of its spec one repair
      starts, with the arguments that name it, unless only the health was asked; otherwise the reason says how the
      pool is. */
  lemma QueriedExactly(s: State, i: Input, info: Info)
    requires ReadsQuery(s, i, Queried(info))
    ensures var (s', rec) := Pass(s, i);
      var st := Told(s.status, info, i.now);
      var op := if info.healthOnly then None else Repair(s.spec, st);
      var jobs := Taken(s.box.jobs, QUERY_JOB);
      var hold := Some(i.now + 30_000_000_000);
      && rec.started == op
      && (op.None? ==>
            Leaves(s, i, s', st.(reason := if info.state != "Ready" then "State"
                                           else if info.healthOnly then "ReadyHealthOnly" else "Ready"), jobs, hold))
      && (op.Some? && JobOf(op.value) !in jobs ==>
            Leaves(s, i, s', st.(operation := op, reason := "InProgress"),
                   Asked(jobs, op.value, s.box.nextId, Args(s.spec, op.value, info.enabled)), hold))
      && (op.Some? ==> Names(s.spec, st, op.value, Args(s.spec, op.value, info.enabled)))
  {
    var s1 := s.(box := s.box.(jobs := Taken(s.box.jobs, QUERY_JOB)), hold := Some(i.now + 30_000_000_000));
    var st := Told(s.status, info, i.now);
    QueryRead(s, i, Queried(info));
    CopiedMeans(s.status, info, i.now);
    RepairMeans(s.spec, st);
    ToldKeeps(s.status, info, i.now);
    if Repair(s.spec, st).Some? { RepairNamed(s, st, Repair(s.spec, st).value); }
    hide Decide, ReadsQuery, Drift, Repair, StartOp, Args, QUERY_JOB, Copied, Told, JobOf, Names;
    var w := Mirror(s1, i, info, Blank(s));
    if !info.healthOnly && Repair(s.spec, st).Some? {
      var op := Repair(s.spec, st).value;
      var s2, rec := s1.(status := st), Blank(s).(read := Some((i.now, info)));
      StartGoes(s2, i, op, rec);
      if JobOf(op) !in s2.box.jobs { StartLeaves(s2, i, op, rec); }
    }
    PassLeaves(s, i, w);
  }

  lemma ToldKeeps(st: Status, info: Info, now: int)
    ensures Told(st, info, now).enabled == info.enabled
  {}

  lemma StartGoes(s: State, i: Input, op: Op, rec: Record)
    requires i.fault.NoFault?
    ensures !StartOp(s, i, op, rec).err && StartOp(s, i, op, rec).rec.started == Some(op)
  {
    hide Args, JobOf;
  }

  /** A pool that is not there is created only if none was ever known and the last create for this spec did not
      fail. */
  lemma MissingExactly(s: State, i: Input)
    requires ReadsQuery(s, i, NotFound)
    ensures var (s', rec) := Pass(s, i);
      var st := s.status;
      var jobs := Taken(s.box.jobs, QUERY_JOB);
      var hold := Some(i.now + 30_000_000_000);
      var creates := st.uuid == "" && !Failed(s.spec, st, "CreateFailed");
      && rec.started == (if creates then Some(Create) else None)
      && (!creates ==> Leaves(s, i, s', if st.uuid != "" then st.(reason := "PoolMissing") else st, jobs, hold))
      && (creates && JobOf(Create) !in jobs ==>
            Leaves(s, i, s', st.(operation := Some(Create), reason := "InProgress"),
                   Asked(jobs, Create, s.box.nextId, ["pool", "create"] + s.spec.acl), hold))
  {
    var s1 := s.(box := s.box.(jobs := Taken(s.box.jobs, QUERY_JOB)), hold := Some(i.now + 30_000_000_000));
    QueryRead(s, i, NotFound);
    var rec := Blank(s).(missing := true);
    StartGoes(s1, i, Create, rec);
    if JobOf(Create) !in s1.box.jobs { StartLeaves(s1, i, Create, rec); }
    hide Decide, ReadsQuery, StartOp, QUERY_JOB, JobOf;
    PassLeaves(s, i, Missing(s1, i, rec));
  }

  /** Any other answer changes only the reason. */
  lemma NothingRead(s: State, i: Input, answer: Answer)
    requires ReadsQuery(s, i, answer) && !answer.Queried? && !answer.NotFound?
    ensures var (s', rec) := Pass(s, i);
      && rec.started.None?
      && Leaves(s, i, s', s.status.(reason := if answer.OtherError? then "QueryError" else "ProbeFailed"),
                Taken(s.box.jobs, QUERY_JOB), Some(i.now + 30_000_000_000))
  {
    QueryRead(s, i, answer);
    hide Decide, ReadsQuery, QUERY_JOB;
    PassLeaves(s, i, Decide(s, i, Blank(s)));
  }

  // ---- an operation comes back

  /** dmg did it; a create must say so with the pool's UUID. */
  predicate Worked(op: Op, answer: Answer) {
    && !answer.Unreadable? && !answer.NotFound? && !answer.OtherError?
    && (op.Create? ==> answer.CreatedPool?)
  }

  function FailedText(op: Op): string {
    match op
    case Create => "CreateFailed"
    case Extend => "ExtendFailed"
    case Acl => "AclFailed"
    case ReintMode => "ReintmodeFailed"
    case SelfHeal => "SelfhealFailed"
    case Destroy => "DestroyFailed"
  }

  /** The status with what the operation achieved. */
  function Achieved(spec: Spec, st: Status, op: Op, answer: Answer): Status
    requires Worked(op, answer)
  {
    match op
    case Create =>
      st.(uuid := answer.uuid, enabled := answer.ranks, aclHash := AclHash(spec.acl),
          mode := if PoolDrift.WantedMode(spec).Some? then PoolDrift.WantedMode(spec).value else "data_sync")
    case Acl => st.(aclHash := AclHash(spec.acl))
    case ReintMode => st.(mode := if PoolDrift.WantedMode(spec).Some? then PoolDrift.WantedMode(spec).value else "")
    case SelfHeal => st.(heal := if PoolDrift.WantedHeal(spec).Some? then PoolDrift.WantedHeal(spec).value else "")
    case _ => st
  }

  /** The result of the operation on record is read: the operation is over, its spec is noted, and either its
      failure is on record or its effect is, and the next pass asks at once. */
  lemma FinishedExactly(s: State, i: Input, op: Op, answer: Answer)
    requires Serving(s, i) && s.status.operation == Some(op) && Finds(s, i, JobOf(op), answer)
    ensures var (s', rec) := Pass(s, i);
      var st := s.status.(operation := None, observed := s.spec.generation);
      && rec.started.None?
      && if Worked(op, answer) then
           Leaves(s, i, s', Achieved(s.spec, st, op, answer).(reason := "Querying"), Taken(s.box.jobs, JobOf(op)), None)
         else Leaves(s, i, s', st.(reason := FailedText(op)), Taken(s.box.jobs, JobOf(op)), s.hold)
  {
    PoolDrift.WantedMeans(s.spec);
    PollFinds(s, i, op, answer);
    hide Decide, JobOf, Args, AclHash, PinnedReintegration, PinnedSelfHeal, PoolDrift.WantedMode, PoolDrift.WantedHeal;
    PassLeaves(s, i, Decide(s, i, Blank(s)));
  }

  lemma PollFinds(s: State, i: Input, op: Op, answer: Answer)
    requires Serving(s, i) && s.status.operation == Some(op) && Finds(s, i, JobOf(op), answer)
    ensures exists rec: Record ::
      && rec.started.None?
      && Decide(s, i, Blank(s)) == Finish(s.(box := s.box.(jobs := Taken(s.box.jobs, JobOf(op)))), op, rec, answer)
  {
    hide Finish, JobOf, Args, Finalize, Probe;
    var job := s.box.jobs[JobOf(op)];
    var rec := Blank(s).(polled := Some((op, job.args, answer)), polledId := job.id);
    assert Decide(s, i, Blank(s)) ==
           Finish(s.(box := s.box.(jobs := Taken(s.box.jobs, JobOf(op)))), op, rec, answer);
  }

  // ---- deletion

  /** A deleted object lets go at once unless a destroy was approved and there is a pool to destroy. */
  lemma ReleasedAtOnce(s: State, i: Input)
    requires i.systemFound && s.deleting && s.finalizer && (!s.approved || s.status.uuid == "")
    ensures var (s', rec) := Pass(s, i);
      rec.released == !i.updateFails && s' == s.(finalizer := i.updateFails)
  {}

  /** The result of a destroy is read: the object is let go if the pool is gone, and else the attempt counts, from
      the third on as stalled. */
  lemma DestroyedExactly(s: State, i: Input, answer: Answer)
    requires i.systemFound && s.deleting && s.finalizer && s.approved && s.status.uuid != ""
    requires Finds(s, i, JobOf(Destroy), answer)
    ensures var (s', rec) := Pass(s, i);
      var gone := !answer.Unreadable? && !answer.OtherError?;
      var n := s.status.attempts + 1;
      && rec.destroyed == Some(answer) && s'.box.jobs == Taken(s.box.jobs, JobOf(Destroy)) && s'.hold == s.hold
      && s'.finalizer == (!gone || i.updateFails) && rec.released == (gone && !i.updateFails)
      && rec.stalled == (!gone && n == 3)
      && s'.status == if gone || i.lost then s.status
                      else s.status.(operation := None, attempts := n,
                                     reason := if n >= 3 then "DestroyStalled" else "DestroyFailed")
  {
    hide JobOf, Args;
  }

  /** The destroy that is asked for is recursive, and on record until it stalls. */
  lemma DestroyAsked(s: State, i: Input)
    requires i.systemFound && s.deleting && s.finalizer && s.approved && s.status.uuid != ""
    requires i.fault.NoFault? && JobOf(Destroy) !in s.box.jobs
    ensures var (s', rec) := Pass(s, i);
      && rec.destroyRun && s'.finalizer && s'.hold == s.hold
      && s'.box.jobs == Asked(s.box.jobs, Destroy, s.box.nextId, ["pool", "destroy", "--recursive"])
      && s'.status == if i.lost || s.status.operation == Some(Destroy) then s.status
                      else s.status.(operation := Some(Destroy),
                                     reason := if s.status.attempts < 3 then "Destroying" else s.status.reason)
  {
    hide JobOf;
  }

  // ---- a pass that asks nothing

  /** Without its system, without its finalizer, or on a system that is not formatted, the pass asks dmg nothing. */
  lemma NotServed(s: State, i: Input)
    requires !i.systemFound || (!s.deleting && (!s.finalizer || !i.formatted)) || (s.deleting && !s.finalizer)
    ensures var s' := Pass(s, i).0;
      if !i.systemFound then s' == s.(status := if i.lost then s.status else s.status.(reason := "SystemNotFound"))
      else if s.deleting then s' == s
      else if !s.finalizer then s' == s.(finalizer := !i.updateFails)
      else s' == s.(status := if i.lost then s.status else s.status.(reason := "SystemNotFormatted"))
  {
    hide Probe, Poll, RunDestroy;
  }

  /** Before its time no query is asked for. */
  lemma HeldPassRests(s: State, i: Input)
    requires Serving(s, i) && s.status.operation.None? && s.hold.Some? && s.hold.value > i.now
    ensures Pass(s, i).0 == s
  {
    hide Poll, Finalize;
  }

  /** A query that is not answered yet is asked for where there is none, and changes the reason only when nothing was
      said so far. */
  lemma UnansweredQuery(s: State, i: Input)
    requires Serving(s, i) && s.status.operation.None? && (s.hold.Some? ==> s.hold.value <= i.now) && i.fault.NoFault?
    requires QUERY_JOB in s.box.jobs ==> !s.box.jobs[QUERY_JOB].phase.Finished?
    ensures var s' := Pass(s, i).0;
      Leaves(s, i, s', if s.status.reason == "" then s.status.(reason := "Probing") else s.status,
             if QUERY_JOB in s.box.jobs then s.box.jobs
             else s.box.jobs[QUERY_JOB := Job(s.box.nextId, ["pool", "query"], Running)], s.hold)
  {
    hide Poll, Finalize, QUERY_JOB, Mirror, Missing;
  }
}
