/** Two runs of a DaosContainer beside its DaosPool: a wait that outlives its time because the pool is not
    there to judge by, and a heal Job sent again with nothing judged. */
module ContainerEdges {
  import opened Text
  import opened DaosStatus
  import opened Mailbox
  import opened Container
  import opened ContainerSteps
  import opened ContainerRuns
  import Pool
  import PoolRuns
  import PoolScenes

  // ---- the pool is queried, and opted in

  function Lift(steps: seq<PoolRuns.Step>): seq<Step> {
    seq(|steps|, k requires 0 <= k < |steps| => PoolMoves(steps[k]))
  }

  lemma RunOne(spec: Pool.Spec, steps: seq<Step>, a: Step)
    ensures Run(spec, "", steps + [a]) == Apply(Run(spec, "", steps), a)
  {
    hide Apply;
    assert (steps + [a])[..|steps|] == steps;
  }

  lemma {:induction false} Lifted(spec: Pool.Spec, steps: seq<PoolRuns.Step>)
    ensures var w := Run(spec, "", Lift(steps));
      w.pool == PoolRuns.Run(spec, steps) && w.cont == Initial(spec, "").cont && |w.views| == |steps| && !w.optedIn
      && w.trace == []
  {
    hide PoolRuns.Apply;
    if steps != [] {
      var n := |steps| - 1;
      Lifted(spec, steps[..n]);
      assert Lift(steps) == Lift(steps[..n]) + [PoolMoves(steps[n])];
      RunOne(spec, Lift(steps[..n]), PoolMoves(steps[n]));
      hide Run;
    }
  }

  const SPEC := PoolScenes.PLAIN
  const INFO := PoolScenes.INFO
  const POOL_STEPS: seq<PoolRuns.Step> := PoolScenes.BEGUN + PoolScenes.Round(0, Pool.Queried(INFO))
  const WHOLE: PoolView := PoolView("u", true, "incremental", "Ready", "idle", 0, Some(0))

  lemma PlainPool()
    ensures |POOL_STEPS| == 6 && ViewOf(PoolRuns.Run(SPEC, POOL_STEPS).s, true) == WHOLE
    ensures ViewOf(PoolRuns.Run(SPEC, POOL_STEPS).s, false) == WHOLE.(optedIn := false)
  {
    PoolScenes.Begins(SPEC);
    var s := PoolRuns.Run(SPEC, PoolScenes.BEGUN).s;
    PoolScenes.AtRestFirst(s);
    PlainRead(s);
    hide PoolRuns.Run, PoolScenes.Judged;
    var rec := PoolScenes.RoundReads(SPEC, PoolScenes.BEGUN, 0, Pool.Queried(INFO));
  }

  lemma PlainRead(s: Pool.State)
    requires PoolScenes.AtRest(s, 0) && s.spec == SPEC && s.status == PoolScenes.FIRST
    ensures var d := PoolScenes.Judged(s, 0, Pool.Queried(INFO));
      !d.err && ViewOf(d.s, true) == WHOLE && ViewOf(d.s, false) == WHOLE.(optedIn := false)
  {
    assert Pool.Drift(SPEC, Pool.Copied(s.status, INFO, 0)).None?;
    hide Pool.Drift, Pool.StartOp;
  }

  const OPTED: seq<Step> := Lift(POOL_STEPS) + [OptIn(true)]

  lemma Opted()
    ensures var w := Run(SPEC, "", OPTED);
      && |w.views| == 7 && w.views[6] == WHOLE && w.cont == Initial(SPEC, "").cont && w.trace == []
      && ViewOf(w.pool.s, false) == WHOLE.(optedIn := false)
  {
    Lifted(SPEC, POOL_STEPS);
    PlainPool();
    hide PoolRuns.Run, POOL_STEPS;
    RunOne(SPEC, Lift(POOL_STEPS), OptIn(true));
  }

  // ---- the container is refused

  function See(now: int, version: nat): Look { Look(now, Some(version), true, NoFault, false, false) }

  /** The operator's view of a container that is there and was asked about. */
  function Asking(phase: Phase<Answer>, hold: Option<int>, reason: string): State {
    State(0, "", Status("", "", None, 0, reason), false, false, true, None, hold,
          Box(map[QUERY_JOB := Job(0, [], phase)], 1))
  }

  const REFUSAL: seq<Step> := OPTED + [Reconcile(See(0, 6))] + [Reconcile(See(0, 6))]

  lemma Asked()
    ensures var w := Run(SPEC, "", REFUSAL);
      && w.cont == Asking(Running, None, "Probing") && |w.views| == 7 && w.views[6] == WHOLE && |w.trace| == 2
      && ViewOf(w.pool.s, false) == WHOLE.(optedIn := false)
  {
    hide Run, OPTED;
    Opted();
    RunOne(SPEC, OPTED, Reconcile(See(0, 6)));
    RunOne(SPEC, OPTED + [Reconcile(See(0, 6))], Reconcile(See(0, 6)));
    var s0 := Initial(SPEC, "").cont;
    var i := Input(0, Some(WHOLE), true, NoFault, false, false);
    GetsFinalizer(s0, i);
    AsksQuery(s0.(finalizer := true), i);
    hide Pass;
  }

  lemma GetsFinalizer(s: State, i: Input)
    requires i == Input(0, Some(WHOLE), true, NoFault, false, false) && s == Initial(SPEC, "").cont
    ensures Pass(s, i).0 == s.(finalizer := true)
  {
    hide Serve, Finalize;
  }

  lemma AsksQuery(s: State, i: Input)
    requires i == Input(0, Some(WHOLE), true, NoFault, false, false) && s == Initial(SPEC, "").cont.(finalizer := true)
    ensures Pass(s, i).0 == Asking(Running, None, "Probing")
  {
    hide Finalize, Read, Poll, Judge, QUERY_JOB;
    assert RunJob(s.box, QUERY_JOB, [], NoFault).0 == Box(map[QUERY_JOB := Job(0, [], Running)], 1);
  }

  /** The query is refused; it ran at time at. */
  function Refusing(at: int): seq<Step> {
    REFUSAL + [JobFinished(QUERY_JOB, Refused(Some(at)))] + [Reconcile(See(at, 6))]
  }

  lemma RefusedAt(at: int)
    ensures var w := Run(SPEC, "", Refusing(at));
      var i := Input(at, Some(WHOLE), true, NoFault, false, false);
      var (s, rec) := Pass(Asking(Finished(Refused(Some(at))), None, "Probing"), i);
      && w.cont == s && |w.views| == 7 && w.views[6] == WHOLE && w.trace[|w.trace| - 1..] == [rec] && |w.trace| == 3
      && ViewOf(w.pool.s, false) == WHOLE.(optedIn := false)
  {
    hide Run, REFUSAL, Pass, QUERY_JOB;
    Asked();
    var finish := JobFinished(QUERY_JOB, Refused(Some(at)));
    RunOne(SPEC, REFUSAL, finish);
    RunOne(SPEC, REFUSAL + [finish], Reconcile(See(at, 6)));
    var w := Run(SPEC, "", REFUSAL);
    assert FinishJob(w.cont.box, QUERY_JOB, Refused(Some(at))).jobs ==
        map[QUERY_JOB := Job(0, [], Finished(Refused(Some(at))))];
    assert w.cont.(box := FinishJob(w.cont.box, QUERY_JOB, Refused(Some(at)))) ==
        Asking(Finished(Refused(Some(at))), None, "Probing");
  }

  lemma ReadsRefusal(at: int)
    ensures var s := Asking(Finished(Refused(Some(at))), None, "Probing");
      var i := Input(at, Some(WHOLE), true, NoFault, false, false);
      var s' := Asking(Deleting, Some(at + WAIT), "Probing");
      var rec := Blank(s, i).(queried := true, refused := Some(Some(at)));
      Decide(s, i, Blank(s, i)) == Judge(s', i, WHOLE, at, rec)
  {
    hide Judge, QUERY_JOB, Finalize, Poll;
    var s := Asking(Finished(Refused(Some(at))), None, "Probing");
    assert s.box.jobs[QUERY_JOB := s.box.jobs[QUERY_JOB].(phase := Deleting)] == map[QUERY_JOB := Job(0, [], Deleting)];
  }

  // ---- a wait past its time

  const LATE: int := MINUTE + PENDING_MAX

  lemma RefusalWaits()
    ensures var s := Asking(Finished(Refused(Some(MINUTE))), None, "Probing");
      var i := Input(MINUTE, Some(WHOLE), true, NoFault, false, false);
      Pass(s, i).0 == Asking(Deleting, Some(MINUTE + WAIT), "FailuresExceedRF").(mark := Some(MINUTE))
  {
    ReadsRefusal(MINUTE);
    hide Decide, QUERY_JOB, StartOp;
  }

  lemma NoPoolKeepsMark(s: State, i: Input)
    requires i == Input(LATE, None, true, NoFault, false, false) && !s.deleting
    ensures Pass(s, i).0.mark == s.mark && Pass(s, i).1.kept == s.mark && Pass(s, i).1.now == LATE
  {
    hide Finalize, Serve;
  }

  /** A real run: a query is refused while the pool is whole and its status older, and three minutes later the pass
      finds no DaosPool. The wait goes on. */
  lemma WaitOutlivesItsTime() returns (steps: seq<Step>)
    ensures var w := Run(SPEC, "", steps);
      && w.cont.mark == Some(MINUTE) && w.trace != []
      && var rec := w.trace[|w.trace| - 1]; rec.kept == Some(MINUTE) && rec.now >= MINUTE + 3 * MINUTE
  {
    hide Run, Refusing, Pass, QUERY_JOB;
    RefusedAt(MINUTE);
    RefusalWaits();
    var look := See(LATE, 6).(version := None);
    steps := Refusing(MINUTE) + [Reconcile(look)];
    RunOne(SPEC, Refusing(MINUTE), Reconcile(look));
    var w := Run(SPEC, "", Refusing(MINUTE));
    NoPoolKeepsMark(w.cont, InputOf(w, look));
  }

  // ---- a heal Job sent again

  /** The container with the heal on record, and these Jobs. */
  function Healing(jobs: map<string, Job<Answer>>, nextId: nat, hold: Option<int>): State {
    State(0, "", Status("", "", Some(Heal), 0, "InProgress"), false, false, true, None, hold, Box(jobs, nextId))
  }

  function HealJob(id: nat, phase: Phase<Answer>): Job<Answer> { Job(id, [""], phase) }

  const ASKED: map<string, Job<Answer>> := map[QUERY_JOB := Job(0, [], Deleting)]

  lemma RefusalHeals()
    ensures var s := Asking(Finished(Refused(Some(0))), None, "Probing");
      var i := Input(0, Some(WHOLE), true, NoFault, false, false);
      Pass(s, i).0 == Healing(ASKED[HEAL_JOB := HealJob(1, Running)], 2, Some(0 + WAIT))
  {
    ReadsRefusal(0);
    HealJobIsItsOwn(Heal);
    hide Decide, QUERY_JOB, JobOf;
  }

  lemma LostRead(s: State, i: Input)
    requires s == Healing(ASKED[HEAL_JOB := HealJob(1, Finished(Applied))], 2, Some(WAIT))
    requires i == Input(0, Some(WHOLE), true, NoFault, false, true)
    ensures Pass(s, i).0 == Healing(ASKED[HEAL_JOB := HealJob(1, Deleting)], 2, None)
    ensures Pass(s, i).1.taken == Some(Heal) && !Pass(s, i).1.stored
  {
    HealJobIsItsOwn(Heal);
    hide Judge, Probe, Finalize, QUERY_JOB, JobOf;
    assert s.box.jobs[HEAL_JOB := HealJob(1, Deleting)] == ASKED[HEAL_JOB := HealJob(1, Deleting)];
  }

  lemma SendsAgain(s: State, i: Input)
    requires s == Healing(ASKED, 2, None) && i == Input(0, Some(WHOLE.(optedIn := false)), true, NoFault, false, false)
    ensures Pass(s, i).1.sent == Some(Heal) && Pass(s, i).1.decided.None? && Pass(s, i).1.stored
  {
    HealJobIsItsOwn(Heal);
    hide Judge, Probe, Finalize, QUERY_JOB, JobOf;
    assert HEAL_JOB !in ASKED;
  }

  const READ_LOST: seq<Step> := Refusing(0) + [JobFinished(HEAL_JOB, Applied)] + [Reconcile(See(0, 6).(lost := true))]

  lemma ResultIsLost()
    ensures var w := Run(SPEC, "", READ_LOST);
      && w.cont == Healing(ASKED[HEAL_JOB := HealJob(1, Deleting)], 2, None) && |w.views| == 7
      && w.trace != [] && w.trace[|w.trace| - 1].taken == Some(Heal) && !w.trace[|w.trace| - 1].stored
      && ViewOf(w.pool.s, false) == WHOLE.(optedIn := false)
  {
    hide Run, Refusing, Pass, QUERY_JOB, JobOf;
    RefusedAt(0);
    RefusalHeals();
    var finish := JobFinished(HEAL_JOB, Applied);
    var look := See(0, 6).(lost := true);
    RunOne(SPEC, Refusing(0), finish);
    RunOne(SPEC, Refusing(0) + [finish], Reconcile(look));
    var w := Run(SPEC, "", Refusing(0) + [finish]);
    assert w.cont.box.jobs == ASKED[HEAL_JOB := HealJob(1, Finished(Applied))];
    LostRead(w.cont, InputOf(w, look));
  }

  /** A real run: the heal succeeds, the pass that reads this loses its status, the Job goes, and the pool is no
      longer opted in. The next pass judges nothing and sends a heal Job again, though the pool it reads would not
      do. */
  lemma HealIsSentAgain() returns (steps: seq<Step>)
    ensures var w := Run(SPEC, "", steps);
      && w.trace != [] && var rec := w.trace[|w.trace| - 1];
      && rec.sent == Some(Heal) && rec.decided.None? && w.views != [] && !SeenWhole(w.views[|w.views| - 1])
  {
    hide Run, READ_LOST, Pass, QUERY_JOB, JobOf;
    ResultIsLost();
    HealJobIsItsOwn(Heal);
    var a, b, c := READ_LOST + [JobGone(HEAL_JOB)], OptIn(false), Reconcile(See(0, 7));
    RunOne(SPEC, READ_LOST, JobGone(HEAL_JOB));
    RunOne(SPEC, a, b);
    RunOne(SPEC, a + [b], c);
    steps := a + [b] + [c];
    var w := Run(SPEC, "", a + [b]);
    assert ASKED[HEAL_JOB := HealJob(1, Deleting)] - {HEAL_JOB} == ASKED;
    assert w.cont == Healing(ASKED, 2, None) && w.views[7] == WHOLE.(optedIn := false);
    SendsAgain(w.cont, InputOf(w, c.look));
  }

  // ---- a container created twice

  /** A container nothing is in flight for but its query, the n-th Job. */
  function Known(uuid: string, reason: string, n: nat, hold: Option<int>, phase: Phase<Answer>): State {
    State(0, "", Status(uuid, "", None, 0, reason), false, false, true, None, hold,
          Box(map[QUERY_JOB := Job(n, [], phase)], n + 1))
  }

  ghost predicate At(w: World, s: State) { w.cont == s && |w.views| == 7 && w.views[6] == WHOLE }

  function SeenAt(t: int): Input { Input(t, Some(WHOLE), true, NoFault, false, false) }

  lemma ReadsUuid(s: State, t: int, uuid: string, n: nat)
    requires s == Known(s.status.uuid, s.status.reason, n, s.hold, Finished(Queried(uuid, "HEALTHY")))
    requires s.hold.None? || s.hold.value <= t
    ensures Pass(s, SeenAt(t)).0 == Known(uuid, "Ready", n, Some(t + WAIT), Deleting)
    ensures Pass(s, SeenAt(t)).1.stored && Pass(s, SeenAt(t)).1.uuidRead == Some(uuid)
  {
    assert s.box.jobs[QUERY_JOB := Job(n, [], Deleting)] == map[QUERY_JOB := Job(n, [], Deleting)];
    hide QUERY_JOB, Judge, StartOp, Finalize, Poll;
  }

  lemma AsksAgain(s: State, t: int, uuid: string, n: nat)
    requires s == Known(uuid, "Ready", n, Some(t), Deleting).(box := Box(map[], n + 1))
    ensures Pass(s, SeenAt(t)).0 == Known(uuid, "Ready", n + 1, Some(t), Running)
    ensures Pass(s, SeenAt(t)).1.uuidRead.None?
  {
    hide QUERY_JOB, Judge, Read, Finalize, Poll;
    assert RunJob(s.box, QUERY_JOB, [], NoFault).0 == Box(map[QUERY_JOB := Job(n + 1, [], Running)], n + 2);
  }

  lemma ReadsMissing(s: State, t: int, n: nat)
    requires s == Known("", "Ready", n, Some(t), Finished(NotFound))
    ensures Pass(s, SeenAt(t)).1.started == Some(Create)
  {
    assert "Ready"[0] != "CreateFailed"[0];
    hide QUERY_JOB, Judge, JobOf, Finalize, Poll;
    assert s.box.jobs[QUERY_JOB := Job(n, [], Deleting)] == map[QUERY_JOB := Job(n, [], Deleting)];
    NoError(Box(map[QUERY_JOB := Job(n, [], Deleting)], n + 1));
  }

  lemma NoError(b: Box<Answer>)
    ensures !RunJob(b, JobOf(Create), [""], NoFault).1.ApiError?
  {}

  /** The old query goes and the next is asked. */
  function Asks(t: int): seq<Step> { [JobGone(QUERY_JOB)] + [Reconcile(See(t, 6))] }

  function Answers(t: int, a: Answer): seq<Step> { [JobFinished(QUERY_JOB, a)] + [Reconcile(See(t, 6))] }

  lemma RunTwo(steps: seq<Step>, a: Step, b: Step)
    ensures Run(SPEC, "", steps + ([a] + [b])) == Apply(Apply(Run(SPEC, "", steps), a), b)
  {
    hide Apply, Run;
    RunOne(SPEC, steps, a);
    RunOne(SPEC, steps + [a], b);
    assert steps + ([a] + [b]) == steps + [a] + [b];
  }

  lemma AskRound(steps: seq<Step>, t: int, uuid: string, n: nat) returns (rec: Record)
    requires At(Run(SPEC, "", steps), Known(uuid, "Ready", n, Some(t), Deleting))
    ensures var w, w' := Run(SPEC, "", steps), Run(SPEC, "", steps + Asks(t));
      At(w', Known(uuid, "Ready", n + 1, Some(t), Running)) && w'.trace == w.trace + [rec] && rec.uuidRead.None?
  {
    hide Run, Pass, QUERY_JOB;
    RunTwo(steps, JobGone(QUERY_JOB), Reconcile(See(t, 6)));
    var w := Run(SPEC, "", steps);
    var s := w.cont.(box := DropJob(w.cont.box, QUERY_JOB));
    assert s.box.jobs == map[];
    AsksAgain(s, t, uuid, n);
    rec := Pass(s, SeenAt(t)).1;
  }

  lemma AnswerRound(steps: seq<Step>, t: int, s: State, uuid: string, n: nat) returns (rec: Record)
    requires At(Run(SPEC, "", steps), s) && s == Known(s.status.uuid, s.status.reason, n, s.hold, Running)
    requires s.hold.None? || s.hold.value <= t
    ensures var w, w' := Run(SPEC, "", steps), Run(SPEC, "", steps + Answers(t, Queried(uuid, "HEALTHY")));
      && At(w', Known(uuid, "Ready", n, Some(t + WAIT), Deleting)) && w'.trace == w.trace + [rec]
      && rec.stored && rec.uuidRead == Some(uuid)
  {
    hide Run, Pass, QUERY_JOB;
    var a := Queried(uuid, "HEALTHY");
    RunTwo(steps, JobFinished(QUERY_JOB, a), Reconcile(See(t, 6)));
    var s' := s.(box := FinishJob(s.box, QUERY_JOB, a));
    assert s'.box.jobs == map[QUERY_JOB := Job(n, [], Finished(a))];
    ReadsUuid(s', t, uuid, n);
    rec := Pass(s', SeenAt(t)).1;
  }

  lemma LastRound(steps: seq<Step>, t: int, n: nat) returns (rec: Record)
    requires At(Run(SPEC, "", steps), Known("", "Ready", n, Some(t), Running))
    ensures Run(SPEC, "", steps + Answers(t, NotFound)).trace == Run(SPEC, "", steps).trace + [rec]
    ensures rec.started == Some(Create)
  {
    hide Run, Pass, QUERY_JOB;
    RunTwo(steps, JobFinished(QUERY_JOB, NotFound), Reconcile(See(t, 6)));
    var s := Run(SPEC, "", steps).cont;
    var s' := s.(box := FinishJob(s.box, QUERY_JOB, NotFound));
    assert s'.box.jobs == map[QUERY_JOB := Job(n, [], Finished(NotFound))];
    ReadsMissing(s', t, n);
    rec := Pass(s', SeenAt(t)).1;
  }

  /** A real run: a UUID is on record, a query answers with an empty one, and the next answer "not found" starts a
      create. */
  lemma EmptyUuidAllowsCreate() returns (steps: seq<Step>, k: nat, j: nat)
    ensures var trace := Run(SPEC, "", steps).trace;
      k <= j < |trace| && Uuid(trace[..k]) == "c" && trace[j].started == Some(Create)
  {
    hide Run, QUERY_JOB, REFUSAL, Asks, Answers, Uuid;
    Asked();
    var first := REFUSAL + Answers(0, Queried("c", "HEALTHY"));
    var r := AnswerRound(REFUSAL, 0, Asking(Running, None, "Probing"), "c", 0);
    var w := Run(SPEC, "", first);
    Extend(Run(SPEC, "", REFUSAL).trace, r);
    var r1 := AskRound(first, WAIT, "c", 0);
    var second := first + Asks(WAIT);
    var r2 := AnswerRound(second, WAIT, Known("c", "Ready", 1, Some(WAIT), Running), "", 1);
    var third := second + Answers(WAIT, Queried("", "HEALTHY"));
    var r3 := AskRound(third, 2 * WAIT, "", 1);
    var fourth := third + Asks(2 * WAIT);
    var r4 := LastRound(fourth, 2 * WAIT, 2);
    steps := fourth + Answers(2 * WAIT, NotFound);
    k, j := |w.trace|, |w.trace| + 3;
    assert Run(SPEC, "", steps).trace == w.trace + [r1] + [r2] + [r3] + [r4];
    assert Run(SPEC, "", steps).trace[..k] == w.trace;
  }
}
