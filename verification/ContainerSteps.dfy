/** What one pass over a DaosContainer does to the mark of a refused query, to the record of the operation in
    flight, and to the Jobs. */
module ContainerSteps {
  import opened Text
  import opened Mailbox
  import opened Container

  // ---- marks and gates

  /** Opted in, and last seen Ready with nothing disabled or rebuilding, under incremental reintegration. */
  ghost predicate SeenWhole(v: PoolView) {
    && v.optedIn && v.mode == "incremental" && v.state == "Ready" && v.disabled == 0
    && v.rebuild in {"done", "idle"}
  }

  /** The last pool query on record ran no earlier than that. */
  ghost predicate KnownSince(v: PoolView, m: int) { v.lastQuery.Some? && v.lastQuery.value >= m }

  /** When the refused query ran that the pass read: when its container started, or else the time of the pass. */
  ghost function RefusalTime(rec: Record): Option<int> {
    if rec.refused.None? then None
    else Some(if rec.refused.value.Some? then rec.refused.value.value else rec.now)
  }

  ghost predicate Waits(i: Input, v: PoolView, m: int) {
    SeenWhole(v) && !KnownSince(v, m) && i.now - m < 180_000_000_000
  }

  /** What a pass asked, what it judged, and what it left as the mark. */
  ghost predicate Marks(s: State, i: Input, w: Work) {
    && w.rec.mark == s.mark && w.rec.now == i.now
    && (w.rec.queried ==> s.mark.None? && s.status.operation.None?)
    && (w.rec.refused.Some? ==> w.rec.queried)
    && (w.s.mark.Some? ==>
          w.s.mark == s.mark || (w.rec.queried && RefusalTime(w.rec) == w.s.mark && w.rec.decided.Some?))
    && (w.s.mark.Some? && s.status.operation.None? ==> w.s.status.operation.None?)
    && (w.rec.started == Some(Heal) ==> w.rec.decided.Some? && w.s.mark.None?)
    && (w.rec.decided.Some? ==> Some(w.rec.decided.value.0) == (if w.rec.queried then RefusalTime(w.rec) else s.mark))
  }

  /** A judgement is made by the pool the pass reads; it keeps a mark exactly while it waits, clears only on a
      fresh and whole pool, and gives up only on a stale one out of time. */
  ghost predicate Judges(i: Input, w: Work) {
    w.rec.decided.Some? ==>
      var (m, v) := w.rec.decided.value;
      && i.pool == Some(v)
      && (w.s.mark.Some? <==> Waits(i, v, m))
      && (w.rec.started == Some(Heal) ==> SeenWhole(v) && KnownSince(v, m))
      && (w.rec.timedOut <==> SeenWhole(v) && !KnownSince(v, m) && i.now - m >= 180_000_000_000)
  }

  ghost predicate Gates(s: State, i: Input, w: Work) {
    && w.rec.stored && w.rec.uuid == s.status.uuid && w.rec.deleting == s.deleting && w.rec.approved == s.approved
    && (w.rec.started.Some? ==> !s.deleting)
    && (w.rec.started == Some(Create) ==> s.status.uuid == "")
    && (w.rec.destroyRun || w.rec.destroyed.Some? ==> s.deleting && s.approved && s.status.uuid != "")
    && w.s.status.uuid == (if w.rec.uuidRead.Some? then w.rec.uuidRead.value else s.status.uuid)
  }

  ghost predicate Effects(s: State, i: Input, w: Work) { Marks(s, i, w) && Judges(i, w) && Gates(s, i, w) }

  lemma StartKeeps(s: State, i: Input, op: Op, rec: Record)
    ensures var w := StartOp(s, i, op, rec);
      && w.s == s.(box := w.s.box, status := w.s.status) && w.s.status.uuid == s.status.uuid
      && w.rec == rec.(started := w.rec.started, sent := w.rec.sent, taken := w.rec.taken)
      && (w.rec.started == rec.started || w.rec.started == Some(op))
      && (w.err ==> w.s.status == s.status)
  {
    hide RunJob, JobOf;
  }

  lemma WholeMeans(v: PoolView, m: int)
    ensures (Whole(v) <==> SeenWhole(v)) && (Fresh(v, m) <==> KnownSince(v, m))
  {}

  lemma JudgeEffects(s: State, s': State, i: Input, v: PoolView, m: int, rec: Record)
    requires s' == s.(box := s'.box, hold := s'.hold) && !s.deleting && i.pool == Some(v)
    requires s.status.operation.None?
    requires (s.mark == Some(m) && rec == Blank(s, i))
      || (s.mark.None? && rec == Blank(s, i).(queried := true, refused := rec.refused) && RefusalTime(rec) == Some(m))
    ensures Effects(s, i, Judge(s', i, v, m, rec))
  {
    StartKeeps(s'.(mark := None), i, Heal, rec.(decided := Some((m, v))));
    WholeMeans(v, m);
    hide StartOp, Whole, Fresh, SeenWhole, KnownSince;
  }

  lemma ReadEffects(s: State, s': State, i: Input, v: PoolView, answer: Answer)
    requires s' == s.(box := s'.box, hold := s'.hold) && !s.deleting && i.pool == Some(v)
    requires s.status.operation.None? && s.mark.None?
    ensures Effects(s, i, Read(s', i, v, Blank(s, i).(queried := true), answer))
  {
    var rec := Blank(s, i).(queried := true);
    hide StartOp, Judge;
    match answer
    case Refused(started) =>
      var at := QueriedAt(started, i.now);
      JudgeEffects(s, s', i, v, at, rec.(refused := Some(started)));
    case NotFound => StartKeeps(s', i, Create, rec);
    case Queried(uuid, _) => StartKeeps(s'.(status := s'.status.(uuid := uuid)), i, Acl, rec.(uuidRead := Some(uuid)));
    case _ =>
  }

  lemma ProbeEffects(s: State, i: Input, v: PoolView)
    requires !s.deleting && i.pool == Some(v) && s.mark.None? && s.status.operation.None?
    ensures Effects(s, i, Probe(s, i, v, Blank(s, i)))
  {
    var (b, out) := RunJob(s.box, QUERY_JOB, [], i.fault);
    hide RunJob, Read;
    if out.Done? { ReadEffects(s, s.(box := b, hold := Some(i.now + WAIT)), i, v, out.answer); }
  }

  lemma PollEffects(s: State, i: Input, op: Op)
    requires !s.deleting && s.status.operation == Some(op) && s.mark.None?
    ensures Effects(s, i, Poll(s, i, op, Blank(s, i)))
  {
    hide RunJob, JobOf;
  }

  lemma ServeEffects(s: State, i: Input, v: PoolView)
    requires !s.deleting && i.pool == Some(v) && (s.mark.Some? ==> s.status.operation.None?)
    ensures Effects(s, i, Serve(s, i, v, Blank(s, i)))
  {
    hide Poll, Judge, Probe, Effects;
    if s.status.operation.Some? {
      PollEffects(s, i, s.status.operation.value);
    } else if s.mark.Some? {
      JudgeEffects(s, s, i, v, s.mark.value, Blank(s, i));
    } else {
      ProbeEffects(s, i, v);
    }
  }

  lemma DestroyEffects(s: State, i: Input)
    requires s.deleting && s.approved && s.status.uuid != ""
    ensures Effects(s, i, RunDestroy(s.(mark := None), i, Blank(s, i)))
  {
    hide RunJob, JobOf;
  }

  lemma FinalizeEffects(s: State, i: Input, v: PoolView)
    requires s.deleting
    ensures Effects(s, i, Finalize(s.(mark := None), i, v, Blank(s, i)))
  {
    hide RunDestroy;
    if s.approved && s.status.uuid != "" { DestroyEffects(s, i); }
  }

  lemma DecideEffects(s: State, i: Input)
    requires s.mark.Some? ==> s.status.operation.None?
    ensures Effects(s, i, Decide(s, i, Blank(s, i)))
  {
    hide Serve, Finalize;
    if i.pool.Some? && i.systemFound {
      if s.deleting { FinalizeEffects(s, i, i.pool.value); } else { ServeEffects(s, i, i.pool.value); }
    }
  }

  // ---- the Jobs of the operations

  const HEAL_JOB := JobOf(Heal)

  lemma HealJobIsItsOwn(op: Op)
    ensures QUERY_JOB != HEAL_JOB && (JobOf(op) == HEAL_JOB <==> op == Heal)
  {
    assert QUERY_JOB[5] == 'q' && HEAL_JOB[5] == 'h' && JobOf(Create)[5] == 'c' && JobOf(Acl)[5] == 'a'
        && JobOf(Destroy)[5] == 'd';
  }

  /** How Jobs sent and results taken move the heal Job. */
  ghost predicate HealBox(before: Box<Answer>, w: Work) {
    && (w.s.box.Open(HEAL_JOB) <==> w.rec.sent == Some(Heal) || (before.Open(HEAL_JOB) && w.rec.taken != Some(Heal)))
    && (w.rec.sent == Some(Heal) ==> !before.Open(HEAL_JOB))
    && (w.rec.taken == Some(Heal) ==> before.Open(HEAL_JOB))
  }

  /** A pass sends and takes for the operation it starts, or for the one it found on record: in the first case
      having judged or read, in the second without. */
  ghost predicate Ops(s: State, w: Work) {
    && w.rec.operation == s.status.operation
    && (w.rec.started.Some? ==> s.status.operation.None? && w.s.status.operation == w.rec.started)
    && (w.rec.sent.Some? ==> !s.deleting)
    && (w.rec.sent.Some? ==>
          if s.status.operation.None? then w.rec.started == w.rec.sent
          else w.rec.sent == s.status.operation && w.rec.started.None? && w.rec.decided.None?)
    && (w.rec.taken.Some? ==>
          if s.status.operation.None? then w.rec.started == w.rec.taken
          else w.rec.taken == s.status.operation && w.s.status.operation.None?)
    && (w.s.status.operation == Some(Heal) ==>
          w.rec.started == Some(Heal) || (s.status.operation == Some(Heal) && w.rec.taken.None?))
    && (w.s.status.operation == Some(Create) ==> w.s.status.uuid == "")
    && (w.rec.sent == Some(Create) ==> s.status.uuid == "")
  }

  ghost predicate Sends(s: State, w: Work) { Ops(s, w) && HealBox(s.box, w) }

  lemma JobNoted(b: Box<Answer>, op: Op, args: seq<string>, fault: Fault)
    ensures var (b', out) := RunJob(b, JobOf(op), args, fault);
      var sent := Created(op, b, b');
      && (sent.Some? ==> sent == Some(op) && out.Pending?)
      && (b'.Open(HEAL_JOB) <==> sent == Some(Heal) || (b.Open(HEAL_JOB) && !(out.Done? && op == Heal)))
      && (sent == Some(Heal) ==> !b.Open(HEAL_JOB))
      && (out.Done? && op == Heal ==> b.Open(HEAL_JOB))
  {
    HealJobIsItsOwn(op);
    hide JobOf, HEAL_JOB;
  }

  lemma QueryKeepsHeal(b: Box<Answer>, fault: Fault)
    ensures RunJob(b, QUERY_JOB, [], fault).0.Open(HEAL_JOB) == b.Open(HEAL_JOB)
  {
    HealJobIsItsOwn(Heal);
    hide HEAL_JOB;
  }

  /** The working state is as far as the one the pass found: nothing is in flight, and nothing was sent. */
  ghost predicate Idle(s: State, s': State, rec: Record) {
    && !s.deleting && s.status.operation.None? && s'.status.operation.None?
    && s'.box.Open(HEAL_JOB) == s.box.Open(HEAL_JOB)
    && rec.operation.None? && rec.sent.None? && rec.taken.None? && rec.started.None?
  }

  /** What starting an operation leaves in the fields that matter here. */
  lemma StartFields(s: State, i: Input, op: Op, rec: Record)
    requires rec.sent.None? && rec.taken.None? && rec.started.None? && s.status.operation.None?
    ensures var w := StartOp(s, i, op, rec);
      && w.rec.operation == rec.operation && w.rec.decided == rec.decided && w.s.status.uuid == s.status.uuid
      && w.s.status.operation == w.rec.started && (w.rec.started.Some? ==> w.rec.started == Some(op))
      && (w.rec.sent.Some? ==> w.rec.sent == w.rec.started) && (w.rec.taken.Some? ==> w.rec.taken == w.rec.started)
      && HealBox(s.box, w)
  {
    JobNoted(s.box, op, [s.acl], i.fault);
    hide RunJob, JobOf, HEAL_JOB, Created;
  }

  lemma StartSends(s: State, s': State, i: Input, op: Op, rec: Record)
    requires Idle(s, s', rec) && (op.Create? ==> s.status.uuid == "" && s'.status.uuid == "")
    ensures Sends(s, StartOp(s', i, op, rec))
  {
    StartFields(s', i, op, rec);
    hide StartOp, HEAL_JOB;
  }

  /** A pass that starts, sends and takes nothing. */
  lemma QuietSends(s: State, w: Work)
    requires w.rec.operation == s.status.operation && w.rec.sent.None? && w.rec.taken.None? && w.rec.started.None?
    requires w.s.box.Open(HEAL_JOB) == s.box.Open(HEAL_JOB)
    requires w.s.status.operation == s.status.operation || w.s.status.operation == None
      || w.s.status.operation == Some(Destroy)
    requires s.status.operation == Some(Create) ==> w.s.status.uuid == ""
    ensures Sends(s, w)
  {
    hide HEAL_JOB;
  }

  lemma JudgeSends(s: State, s': State, i: Input, v: PoolView, m: int, rec: Record)
    requires Idle(s, s', rec)
    ensures Sends(s, Judge(s', i, v, m, rec))
  {
    hide StartOp, Whole, Fresh, HEAL_JOB, Sends;
    if Whole(v) && Fresh(v, m) {
      StartSends(s, s'.(mark := None), i, Heal, rec.(decided := Some((m, v))));
    } else {
      QuietSends(s, Judge(s', i, v, m, rec));
    }
  }

  lemma ReadSends(s: State, s': State, i: Input, v: PoolView, rec: Record, answer: Answer)
    requires Idle(s, s', rec) && s'.status.uuid == s.status.uuid
    ensures Sends(s, Read(s', i, v, rec, answer))
  {
    hide StartOp, Judge, HEAL_JOB;
    match answer
    case Refused(started) =>
      var at := QueriedAt(started, i.now);
      JudgeSends(s, s', i, v, at, rec.(refused := Some(started)));
    case NotFound => if s'.status.uuid == "" { StartSends(s, s', i, Create, rec); }
    case Queried(uuid, _) => StartSends(s, s'.(status := s'.status.(uuid := uuid)), i, Acl,
                                        rec.(uuidRead := Some(uuid)));
    case _ =>
  }

  lemma ProbeSends(s: State, i: Input, v: PoolView)
    requires !s.deleting && s.status.operation.None?
    ensures Sends(s, Probe(s, i, v, Blank(s, i)))
  {
    var (b, out) := RunJob(s.box, QUERY_JOB, [], i.fault);
    QueryKeepsHeal(s.box, i.fault);
    hide RunJob, Read, HEAL_JOB;
    if out.Done? {
      ReadSends(s, s.(box := b, hold := Some(i.now + WAIT)), i, v, Blank(s, i).(queried := true), out.answer);
    }
  }

  lemma FinishIs(s: State, op: Op, rec: Record, answer: Answer)
    ensures var w := Finish(s, op, rec, answer);
      && w.s.box == s.box && w.rec == rec.(uuidRead := w.rec.uuidRead) && w.s.status.operation.None?
  {
    hide FailedReason, Succeeded;
  }

  lemma PollSends(s: State, i: Input, op: Op)
    requires !s.deleting && s.status.operation == Some(op) && (op.Create? ==> s.status.uuid == "")
    ensures Sends(s, Poll(s, i, op, Blank(s, i)))
  {
    JobNoted(s.box, op, [s.acl], i.fault);
    var (b, out) := RunJob(s.box, JobOf(op), [s.acl], i.fault);
    hide RunJob, JobOf, HEAL_JOB, Created, Finish;
    if out.Done? { FinishIs(s.(box := b), op, Blank(s, i).(taken := Some(op)), out.answer); }
  }

  lemma ServeSends(s: State, i: Input, v: PoolView)
    requires !s.deleting && (s.status.operation == Some(Create) ==> s.status.uuid == "")
    ensures Sends(s, Serve(s, i, v, Blank(s, i)))
  {
    hide Poll, Judge, Probe, Sends;
    if s.status.operation.Some? {
      PollSends(s, i, s.status.operation.value);
    } else if s.mark.Some? {
      JudgeSends(s, s, i, v, s.mark.value, Blank(s, i));
    } else {
      ProbeSends(s, i, v);
    }
  }

  lemma DestroySends(s: State, i: Input)
    requires s.deleting && (s.status.operation == Some(Create) ==> s.status.uuid == "")
    ensures Sends(s, RunDestroy(s.(mark := None), i, Blank(s, i)))
  {
    DestroyKeepsHeal(s.box, [s.acl], i.fault);
    hide RunJob, JobOf, HEAL_JOB, Succeeded, Sends;
    QuietSends(s, RunDestroy(s.(mark := None), i, Blank(s, i)));
  }

  lemma DestroyKeepsHeal(b: Box<Answer>, args: seq<string>, fault: Fault)
    ensures RunJob(b, JobOf(Destroy), args, fault).0.Open(HEAL_JOB) == b.Open(HEAL_JOB)
  {
    HealJobIsItsOwn(Destroy);
    hide JobOf, HEAL_JOB;
  }

  lemma DecideSends(s: State, i: Input)
    requires s.status.operation == Some(Create) ==> s.status.uuid == ""
    ensures Sends(s, Decide(s, i, Blank(s, i)))
  {
    hide Serve, RunDestroy, HEAL_JOB, Sends;
    if i.pool.Some? && i.systemFound && s.deleting {
      FinalizeSends(s, i, i.pool.value);
    } else if i.pool.Some? && i.systemFound && s.finalizer && i.pool.value.uuid != "" {
      ServeSends(s, i, i.pool.value);
    } else {
      QuietSends(s, Decide(s, i, Blank(s, i)));
    }
  }

  lemma FinalizeSends(s: State, i: Input, v: PoolView)
    requires s.deleting && (s.status.operation == Some(Create) ==> s.status.uuid == "")
    ensures Sends(s, Finalize(s.(mark := None), i, v, Blank(s, i)))
  {
    hide RunDestroy, HEAL_JOB, Sends;
    if s.finalizer && s.approved && s.status.uuid != "" && v.uuid != "" && !(s.hold.Some? && s.hold.value > i.now) {
      DestroySends(s, i);
    } else {
      QuietSends(s, Finalize(s.(mark := None), i, v, Blank(s, i)));
    }
  }

  // ---- when a mark survives

  /** The pass gets to judge or to query: the pool and its system are there. */
  predicate Serves(s: State, i: Input) {
    i.pool.Some? && i.systemFound && s.finalizer && !s.deleting && i.pool.value.uuid != ""
  }

  lemma JudgeExact(s: State, i: Input, v: PoolView, m: int, rec: Record)
    requires rec == Blank(s, i)
    ensures var w := Judge(s, i, v, m, rec);
      && !w.rec.queried && (w.s.mark.None? || w.s.mark == Some(m)) && (w.s.mark.Some? <==> Waits(i, v, m))
      && (w.rec.started == Some(Heal) <==>
            SeenWhole(v) && KnownSince(v, m) && !RunJob(s.box, JobOf(Heal), [s.acl], i.fault).1.ApiError?)
      && (w.rec.timedOut <==> SeenWhole(v) && !KnownSince(v, m) && i.now >= m + 180_000_000_000)
  {
    WholeMeans(v, m);
    hide Whole, Fresh, SeenWhole, KnownSince, RunJob, JobOf;
  }

  /** What becomes of the mark of s in a pass. */
  ghost predicate Settles(s: State, i: Input, mark: Option<int>, rec: Record)
    requires s.mark.Some?
  {
    var m := s.mark.value;
    && !rec.queried && (mark.None? || mark == Some(m))
    && (mark.Some? <==>
          i.pool.None? || !i.systemFound ||
          (!s.deleting && (!s.finalizer || i.pool.value.uuid == "" || Waits(i, i.pool.value, m))))
    && (rec.started == Some(Heal) <==>
          Serves(s, i) && SeenWhole(i.pool.value) && KnownSince(i.pool.value, m)
          && !RunJob(s.box, JobOf(Heal), [s.acl], i.fault).1.ApiError?)
    && (rec.timedOut <==>
          Serves(s, i) && SeenWhole(i.pool.value) && !KnownSince(i.pool.value, m) && i.now >= m + 180_000_000_000)
  }

  lemma DecideSettles(s: State, i: Input)
    requires s.mark.Some? && s.status.operation.None?
    ensures var w := Decide(s, i, Blank(s, i)); Settles(s, i, w.s.mark, w.rec)
  {
    hide Waits, SeenWhole, KnownSince, JobOf, RunJob, Finalize, Judge;
    if i.pool.Some? && i.systemFound && s.deleting {
      NoMarkLeft(s, i, i.pool.value);
    } else if Serves(s, i) {
      JudgeExact(s, i, i.pool.value, s.mark.value, Blank(s, i));
    } else {
      var w := Decide(s, i, Blank(s, i));
      assert w.s.mark == s.mark && !w.rec.queried && w.rec.started.None? && !w.rec.timedOut;
    }
  }

  lemma MarkSurvives(s: State, i: Input)
    requires s.mark.Some? && s.status.operation.None?
    ensures var (s', rec) := Pass(s, i); Settles(s, i, s'.mark, rec)
  {
    DecideSettles(s, i);
    hide Decide, Waits, SeenWhole, KnownSince, JobOf, RunJob, Serves;
    var w := Decide(s, i, Blank(s, i));
    var (s', rec) := Pass(s, i);
    assert s'.mark == w.s.mark && rec.queried == w.rec.queried && rec.started == w.rec.started
        && rec.timedOut == w.rec.timedOut;
  }

  lemma NoMarkLeft(s: State, i: Input, v: PoolView)
    ensures var w := Finalize(s.(mark := None), i, v, Blank(s, i));
      w.s.mark.None? && w.rec.started.None? && !w.rec.timedOut && !w.rec.queried
  {
    hide RunJob, JobOf;
  }
}
