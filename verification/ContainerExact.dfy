/** What one pass over a DaosContainer leaves, answer by answer, said on its status, the pool it reads and the
    answer alone. */
module ContainerExact {
  import opened Text
  import opened Mailbox
  import opened Container
  import opened ContainerSteps

  /** A finished Job of that name, and an API that goes along. */
  predicate Finds(s: State, i: Input, name: string, answer: Answer) {
    i.fault.NoFault? && name in s.box.jobs && s.box.jobs[name].phase == Finished(answer)
  }

  predicate ReadsQuery(s: State, i: Input, answer: Answer) {
    && Serves(s, i) && s.status.operation.None? && s.mark.None? && (s.hold.Some? ==> s.hold.value <= i.now)
    && Finds(s, i, QUERY_JOB, answer)
  }

  /** The Jobs once a finished one was read. */
  function Taken(jobs: map<string, Job<Answer>>, name: string): map<string, Job<Answer>>
    requires name in jobs
  {
    jobs[name := jobs[name].(phase := Deleting)]
  }

  /** The Jobs once an operation was asked for: with a new one where there was none, and a finished one read. */
  function Asked(jobs: map<string, Job<Answer>>, op: Op, id: nat, acl: string): map<string, Job<Answer>> {
    if JobOf(op) !in jobs then jobs[JobOf(op) := Job(id, [acl], Running)]
    else if jobs[JobOf(op)].phase.Finished? then Taken(jobs, JobOf(op))
    else jobs
  }

  /** What the pass left: in the status, which may be lost, and in the operator's memory and the Jobs. */
  predicate Leaves(s: State, i: Input, s': State, status: Status, mark: Option<int>, hold: Option<int>,
                   jobs: map<string, Job<Answer>>) {
    && s'.status == (if i.lost then s.status else status) && s'.mark == mark && s'.hold == hold && s'.box.jobs == jobs
    && s'.finalizer == s.finalizer
  }

  /** The operation is started. */
  predicate Starts(s: State, i: Input, s': State, rec: Record, status: Status, op: Op, hold: Option<int>,
                   jobs: map<string, Job<Answer>>, id: nat) {
    && rec.started == Some(op)
    && Leaves(s, i, s', status.(operation := Some(op), reason := "InProgress"), None, hold, Asked(jobs, op, id, s.acl))
  }

  lemma StartLeaves(s: State, i: Input, op: Op, rec: Record)
    requires i.fault.NoFault?
    ensures var w := StartOp(s, i, op, rec);
      && !w.err && w.rec.started == Some(op)
      && w.s == s.(status := s.status.(operation := Some(op), reason := "InProgress"), box := w.s.box)
      && w.s.box.jobs == Asked(s.box.jobs, op, s.box.nextId, s.acl)
  {
    hide JobOf;
  }

  lemma PassLeaves(s: State, i: Input, w: Work)
    requires w == Decide(s, i, Blank(s, i)) && !w.err
    ensures Pass(s, i).0 == if i.lost then w.s.(status := s.status) else w.s
    ensures Pass(s, i).1.started == w.rec.started && Pass(s, i).1.timedOut == w.rec.timedOut
  {
    hide Decide;
  }

  // ---- a query

  const HALF_MINUTE := 30_000_000_000

  /** The state just after the query was read. */
  function Read1(s: State, i: Input): State
    requires QUERY_JOB in s.box.jobs
  {
    s.(box := s.box.(jobs := Taken(s.box.jobs, QUERY_JOB)), hold := Some(i.now + HALF_MINUTE))
  }

  lemma QueryRead(s: State, i: Input, answer: Answer)
    requires ReadsQuery(s, i, answer)
    ensures Decide(s, i, Blank(s, i)) == Read(Read1(s, i), i, i.pool.value, Blank(s, i).(queried := true), answer)
  {
    hide Read, Finalize, Poll, Judge, QUERY_JOB;
  }

  /** A container that is not there is created only if none was ever known and the last create for this object did
      not fail. */
  lemma MissingExactly(s: State, i: Input)
    requires ReadsQuery(s, i, NotFound)
    ensures var (s', rec) := Pass(s, i);
      var jobs, hold := Taken(s.box.jobs, QUERY_JOB), Some(i.now + HALF_MINUTE);
      if s.status.uuid != "" then
        rec.started.None? && Leaves(s, i, s', s.status.(reason := "ContainerMissing"), None, hold, jobs)
      else if s.status.reason == "CreateFailed" && s.status.observed == s.generation then
        rec.started.None? && Leaves(s, i, s', s.status, None, hold, jobs)
      else Starts(s, i, s', rec, s.status, Create, hold, jobs, s.box.nextId)
  {
    QueryRead(s, i, NotFound);
    StartLeaves(Read1(s, i), i, Create, Blank(s, i).(queried := true));
    hide Decide, StartOp, QUERY_JOB, Asked;
    PassLeaves(s, i, Decide(s, i, Blank(s, i)));
  }

  /** A container that is there: its UUID is noted, and an ACL that differs from the one applied is applied, unless
      that failed for this object; otherwise the reason tells its health. */
  lemma QueriedExactly(s: State, i: Input, uuid: string, health: string)
    requires ReadsQuery(s, i, Queried(uuid, health))
    ensures var (s', rec) := Pass(s, i);
      var jobs, hold := Taken(s.box.jobs, QUERY_JOB), Some(i.now + HALF_MINUTE);
      var st := s.status.(uuid := uuid);
      var held := st.reason == "AclFailed" && st.observed == s.generation;
      if s.acl != "" && s.acl != st.aclHash && !held then
        Starts(s, i, s', rec, st, Acl, hold, jobs, s.box.nextId)
      else
        && rec.started.None?
        && Leaves(s, i, s', st.(reason := if health in {"", "HEALTHY"} then "Ready" else "Health"), None, hold, jobs)
  {
    QueryRead(s, i, Queried(uuid, health));
    var s1 := Read1(s, i);
    StartLeaves(s1.(status := s1.status.(uuid := uuid)), i, Acl,
                Blank(s, i).(queried := true, uuidRead := Some(uuid)));
    hide Decide, StartOp, QUERY_JOB, Asked;
    PassLeaves(s, i, Decide(s, i, Blank(s, i)));
  }

  /** Any other answer changes only the reason. */
  lemma NothingRead(s: State, i: Input, answer: Answer)
    requires ReadsQuery(s, i, answer) && !answer.Refused? && !answer.NotFound? && !answer.Queried?
    ensures var (s', rec) := Pass(s, i);
      && rec.started.None?
      && Leaves(s, i, s', s.status.(reason := if answer.OtherError? then "QueryError" else "ProbeFailed"), None,
                Some(i.now + HALF_MINUTE), Taken(s.box.jobs, QUERY_JOB))
  {
    QueryRead(s, i, answer);
    hide Decide, QUERY_JOB;
    PassLeaves(s, i, Decide(s, i, Blank(s, i)));
  }

  // ---- a refused container

  /** What a judgement of a query refused at m leaves, from the status, the hold and the Jobs it starts with. */
  ghost predicate Judged(s: State, i: Input, m: int, s': State, rec: Record, hold: Option<int>,
                         jobs: map<string, Job<Answer>>)
    requires i.pool.Some?
  {
    var v := i.pool.value;
    if SeenWhole(v) && KnownSince(v, m) then Starts(s, i, s', rec, s.status, Heal, hold, jobs, s.box.nextId)
    else
      var waits := SeenWhole(v) && i.now - m < 180_000_000_000;
      && rec.started.None? && rec.timedOut == (SeenWhole(v) && !waits)
      && Leaves(s, i, s', s.status.(reason := "FailuresExceedRF"), if waits then Some(m) else None, hold, jobs)
  }

  lemma JudgeLeaves(s: State, s1: State, i: Input, m: int, rec: Record)
    requires i.pool.Some? && i.fault.NoFault? && s1 == s.(box := s1.box, hold := s1.hold)
    requires s1.box.nextId == s.box.nextId && rec.started.None? && !rec.timedOut
    ensures var w := Judge(s1, i, i.pool.value, m, rec);
      !w.err && Judged(s, i, m, if i.lost then w.s.(status := s.status) else w.s, w.rec, s1.hold, s1.box.jobs)
  {
    WholeMeans(i.pool.value, m);
    StartLeaves(s1.(mark := None), i, Heal, rec.(decided := Some((m, i.pool.value))));
    hide StartOp, Whole, Fresh, SeenWhole, KnownSince, Asked;
  }

  /** A refusal is judged at once: the query ran when its container started, or else just now. */
  lemma RefusedExactly(s: State, i: Input, started: Option<int>)
    requires ReadsQuery(s, i, Refused(started))
    ensures var (s', rec) := Pass(s, i);
      Judged(s, i, if started.Some? then started.value else i.now, s', rec, Some(i.now + HALF_MINUTE),
             Taken(s.box.jobs, QUERY_JOB))
  {
    var m := if started.Some? then started.value else i.now;
    QueryRead(s, i, Refused(started));
    JudgeLeaves(s, Read1(s, i), i, m, Blank(s, i).(queried := true, refused := Some(started)));
    hide Decide, Judge, QUERY_JOB, Judged, Serves;
    PassLeaves(s, i, Decide(s, i, Blank(s, i)));
    JudgedRecord(s, i, m, Pass(s, i).0, Decide(s, i, Blank(s, i)).rec, Pass(s, i).1, Some(i.now + HALF_MINUTE),
                 Taken(s.box.jobs, QUERY_JOB));
  }

  lemma JudgedRecord(s: State, i: Input, m: int, s': State, a: Record, b: Record, hold: Option<int>,
                     jobs: map<string, Job<Answer>>)
    requires i.pool.Some? && a.started == b.started && a.timedOut == b.timedOut
    ensures Judged(s, i, m, s', a, hold, jobs) <==> Judged(s, i, m, s', b, hold, jobs)
  {
    hide SeenWhole, KnownSince, Asked, Leaves;
  }

  /** So is one that waits, whatever the time of the next query. */
  lemma MarkedExactly(s: State, i: Input)
    requires Serves(s, i) && s.status.operation.None? && s.mark.Some? && i.fault.NoFault?
    ensures var (s', rec) := Pass(s, i); Judged(s, i, s.mark.value, s', rec, s.hold, s.box.jobs)
  {
    JudgeLeaves(s, s, i, s.mark.value, Blank(s, i));
    DecidesToJudge(s, i);
    hide Decide, Judge, Judged, Serves;
    PassLeaves(s, i, Decide(s, i, Blank(s, i)));
    JudgedRecord(s, i, s.mark.value, Pass(s, i).0, Decide(s, i, Blank(s, i)).rec, Pass(s, i).1, s.hold, s.box.jobs);
  }

  lemma DecidesToJudge(s: State, i: Input)
    requires Serves(s, i) && s.status.operation.None? && s.mark.Some?
    ensures Decide(s, i, Blank(s, i)) == Judge(s, i, i.pool.value, s.mark.value, Blank(s, i))
  {
    hide Judge, Finalize, Probe, Poll;
  }

  // ---- an operation comes back

  function FailedText(op: Op): string {
    match op
    case Create => "CreateFailed"
    case Acl => "AclFailed"
    case Heal => "HealFailed"
    case Destroy => "DestroyFailed"
  }

  /** The result of the operation on record is read: the operation is over, the object's generation is noted, and
      either its failure is on record or its effect is, and the next pass asks at once. */
  lemma FinishedExactly(s: State, i: Input, op: Op, answer: Answer)
    requires Serves(s, i) && s.status.operation == Some(op) && Finds(s, i, JobOf(op), answer)
    ensures var (s', rec) := Pass(s, i);
      var st := s.status.(operation := None, observed := s.generation);
      var jobs := Taken(s.box.jobs, JobOf(op));
      && rec.started.None?
      && if answer.Queried? || answer.Applied? then
           Leaves(s, i, s',
                  st.(uuid := if op.Create? && answer.Queried? then answer.uuid else st.uuid,
                      aclHash := if op.Create? || op.Acl? then s.acl else st.aclHash, reason := "Querying"),
                  s.mark, None, jobs)
         else Leaves(s, i, s', st.(reason := FailedText(op)), s.mark, s.hold, jobs)
  {
    PollFinds(s, i, op, answer);
    hide Decide, JobOf, Serves;
    PassLeaves(s, i, Decide(s, i, Blank(s, i)));
  }

  lemma PollFinds(s: State, i: Input, op: Op, answer: Answer)
    requires Serves(s, i) && s.status.operation == Some(op) && Finds(s, i, JobOf(op), answer)
    ensures Decide(s, i, Blank(s, i)) ==
      Finish(s.(box := s.box.(jobs := Taken(s.box.jobs, JobOf(op)))), op, Blank(s, i).(taken := Some(op)), answer)
  {
    hide Finish, JobOf, Finalize, Probe, Judge;
  }

  // ---- deletion

  /** There is nothing to destroy, or nobody allowed it, or nothing left to ask: the object is let go. */
  lemma ReleasedAtOnce(s: State, i: Input)
    requires s.deleting && s.finalizer
    requires i.pool.None? || !i.systemFound || !s.approved || s.status.uuid == "" || i.pool.value.uuid == ""
    ensures var (s', rec) := Pass(s, i);
      && rec.released == !i.updateFails
      && s' == s.(finalizer := i.updateFails, mark := if i.pool.Some? && i.systemFound then None else s.mark)
  {
    hide RunDestroy, Serve;
  }

  predicate Destroys(s: State, i: Input) {
    && s.deleting && s.finalizer && s.approved && s.status.uuid != "" && (s.hold.Some? ==> s.hold.value <= i.now)
    && i.pool.Some? && i.systemFound && i.pool.value.uuid != ""
  }

  /** The result of a destroy is read: the object is let go if the container is gone, and else the destroy is
      asked again half a minute later. */
  lemma DestroyedExactly(s: State, i: Input, answer: Answer)
    requires Destroys(s, i) && Finds(s, i, JobOf(Destroy), answer)
    ensures var (s', rec) := Pass(s, i);
      var gone := answer.Queried? || answer.Applied? || answer.NotFound?;
      && rec.destroyed == Some(answer) && rec.released == (gone && !i.updateFails)
      && s'.box.jobs == Taken(s.box.jobs, JobOf(Destroy)) && s'.mark.None?
      && s'.finalizer == (!gone || i.updateFails)
      && s'.hold == (if gone then s.hold else Some(i.now + HALF_MINUTE))
      && s'.status == if gone || i.lost then s.status else s.status.(operation := None, reason := "DestroyFailed")
  {
    DestroyFinds(s, i, answer);
    hide Decide, JobOf;
  }

  lemma DestroyFinds(s: State, i: Input, answer: Answer)
    requires Destroys(s, i) && Finds(s, i, JobOf(Destroy), answer)
    ensures Decide(s, i, Blank(s, i)) ==
      Destroyed(s.(mark := None, box := s.box.(jobs := Taken(s.box.jobs, JobOf(Destroy)))), i,
                Blank(s, i).(destroyed := Some(answer)), answer)
  {
    hide Destroyed, JobOf, Serve;
  }

  // ---- a pass that asks nothing

  /** Without its pool or system, without its finalizer, or with a pool that has no UUID yet, a pass over an object
      that is not deleted asks nothing. */
  lemma NotServed(s: State, i: Input)
    requires !s.deleting && !Serves(s, i)
    ensures var s' := Pass(s, i).0;
      if i.pool.None? || !i.systemFound then
        s' == s.(status := if i.lost then s.status
                           else s.status.(reason := if i.pool.None? then "PoolNotFound" else "SystemNotFound"))
      else if !s.finalizer then s' == s.(finalizer := !i.updateFails)
      else s' == s.(status := if i.lost then s.status else s.status.(reason := "PoolNotReady"))
  {
    hide Serve, Finalize;
  }

  /** The destroy is asked for and put on record. */
  lemma DestroyAsked(s: State, i: Input)
    requires Destroys(s, i) && i.fault.NoFault? && JobOf(Destroy) !in s.box.jobs
    ensures var (s', rec) := Pass(s, i);
      && rec.destroyRun && s'.finalizer && s'.hold == s.hold && s'.mark.None?
      && s'.box.jobs == Asked(s.box.jobs, Destroy, s.box.nextId, s.acl)
      && s'.status == if i.lost || s.status.operation == Some(Destroy) then s.status
                      else s.status.(operation := Some(Destroy), reason := "Destroying")
  {
    hide JobOf, Serve, Destroyed;
  }

  /** Before its time no query is asked for. */
  lemma HeldPassRests(s: State, i: Input)
    requires Serves(s, i) && s.status.operation.None? && s.mark.None? && s.hold.Some? && s.hold.value > i.now
    ensures Pass(s, i).0 == s
  {
    hide Poll, Finalize, Judge;
  }

  /** A query that is not answered yet is asked for where there is none, and changes the reason only when nothing was
      said so far. */
  lemma UnansweredQuery(s: State, i: Input)
    requires Serves(s, i) && s.status.operation.None? && s.mark.None? && (s.hold.Some? ==> s.hold.value <= i.now)
    requires i.fault.NoFault? && (QUERY_JOB in s.box.jobs ==> !s.box.jobs[QUERY_JOB].phase.Finished?)
    ensures var s' := Pass(s, i).0;
      Leaves(s, i, s', if s.status.reason == "" then s.status.(reason := "Probing") else s.status, None, s.hold,
             if QUERY_JOB in s.box.jobs then s.box.jobs
             else s.box.jobs[QUERY_JOB := Job(s.box.nextId, [], Running)])
  {
    hide Poll, Finalize, Judge, QUERY_JOB, Read;
  }
}
