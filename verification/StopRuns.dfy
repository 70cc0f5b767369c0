/** How many `dmg system stop` Jobs the restarts send: one for each approval, and one more for each pass that sent
    or read one and lost its status. */
module StopRuns {
  import opened Text
  import opened Mailbox
  import opened FullStop
  import opened FullStopRuns
  import opened FullStopEdges

  /** Stop Jobs created. */
  ghost function StopJobs(trace: seq<Record>): nat {
    if trace == [] then 0 else StopJobs(trace[..|trace| - 1]) + One(trace[|trace| - 1].stopSent)
  }

  /** The pass sent a stop, or read the result of one, and lost its status. */
  ghost predicate LosesStop(rec: Record) { !rec.stored && (rec.stopSent || rec.stop.Some?) }

  ghost function LostStops(trace: seq<Record>): nat {
    if trace == [] then 0 else LostStops(trace[..|trace| - 1]) + One(LosesStop(trace[|trace| - 1]))
  }

  ghost function One(b: bool): nat { if b then 1 else 0 }

  /** A restart on record has a stop still to send. */
  ghost predicate Owes(s: State) { IsStopping(s.upgrade) && !s.box.Open(STOP_JOB) }

  lemma ExtendStops(trace: seq<Record>, rec: Record)
    ensures StopJobs(trace + [rec]) == StopJobs(trace) + One(rec.stopSent)
    ensures LostStops(trace + [rec]) == LostStops(trace) + One(LosesStop(rec))
  {
    assert (trace + [rec])[..|trace|] == trace;
  }

  /** Every pass pays for the stop it sends or still owes. */
  lemma PassPays(s: State, i: Input)
    ensures var (s', rec) := Pass(s, i);
      One(rec.stopSent) + One(Owes(s')) <= One(Owes(s)) + One(Begins(rec)) + One(LosesStop(rec))
  {
    DecideEffects(s, i);
    hide Decide, SwapEffect;
  }

  ghost predicate Paid(w: World) {
    StopJobs(w.trace) + One(Owes(w.s)) <= Begun(w.trace) + LostStops(w.trace)
  }

  lemma StepPays(w: World, step: Step)
    requires Paid(w)
    ensures Paid(Apply(w, step))
  {
    hide Pass, StopJobs, LostStops, Begun, LosesStop;
    if step.Reconcile? {
      PassPays(w.s, step.i);
      ExtendStops(w.trace, Pass(w.s, step.i).1);
      Extend(w.trace, Pass(w.s, step.i).1);
      hide Owes, Begins, BeginOf, Stopped, PodsUp, Ends;
    }
  }

  lemma {:induction false} RunPays(steps: seq<Step>)
    ensures Paid(Run(steps))
  {
    if steps != [] {
      RunPays(steps[..|steps| - 1]);
      hide Paid, Apply;
      StepPays(Run(steps[..|steps| - 1]), steps[|steps| - 1]);
    }
  }

  /** Over every run, whichever patches and writes fail: the stop Jobs created never outnumber the approvals humans
      gave plus the passes that sent or read a stop and lost their status. */
  lemma StopsNeedApprovals(w: World)
    requires Reachable(w)
    ensures StopJobs(w.trace) <= w.approvals + LostStops(w.trace)
  {
    var steps :| Run(steps) == w;
    RunPays(steps);
    RestartsNeedApprovals(w);
    hide Run, Reachable, StopJobs, LostStops, Begun;
  }

  // ---- a run with more stops than approvals

  const SENT: seq<Step> := [] + [SetApproved(true), Reconcile(PassAt(0, {}))]

  lemma AfterSending()
    ensures var w := Run(SENT);
      && w.s.upgrade == Some(Upgrade(ImageChange, Stopping, Some(0))) && w.approvals == 1 && StopJobs(w.trace) == 1
      && w.s.box == Box(map[STOP_JOB := Job(0, ["system", "stop"], Running)], 1)
  {
    RunMore([], SetApproved(true), Reconcile(PassAt(0, {})));
    assert IsStale([OLD_POD][0], "new");
    var w := Run(SENT);
    assert |w.trace| == 1 && w.trace[0].stopSent;
    ExtendStops([], w.trace[0]);
    assert [] + [w.trace[0]] == w.trace;
  }

  /** The system stops; the pass that reads this loses its status. */
  const READ_LOST: seq<Step> :=
    SENT + [JobFinished(STOP_JOB, Members([])), Reconcile(PassAt(1, {}).(writeFails := true))]

  lemma AfterLostRead()
    ensures var w := Run(READ_LOST);
      && w.s.upgrade == Some(Upgrade(ImageChange, Stopping, Some(0))) && w.approvals == 1 && StopJobs(w.trace) == 1
      && w.s.box == Box(map[STOP_JOB := Job(0, ["system", "stop"], Deleting)], 1)
  {
    var lost := Reconcile(PassAt(1, {}).(writeFails := true));
    AfterSending();
    RunMore(SENT, JobFinished(STOP_JOB, Members([])), lost);
    hide Run, StopJobs;
    var w := Apply(Run(SENT), JobFinished(STOP_JOB, Members([])));
    assert w.s.box == Box(map[STOP_JOB := Job(0, ["system", "stop"], Finished(Members([])))], 1);
    var rec := Pass(w.s, lost.i).1;
    assert !rec.stopSent;
    ExtendStops(w.trace, rec);
  }

  /** A real run: one approval, two stop Jobs. */
  lemma LostStopIsSentAgain() returns (steps: seq<Step>)
    ensures Run(steps).approvals == 1 && StopJobs(Run(steps).trace) == 2
  {
    var again := Reconcile(PassAt(2, {}));
    steps := READ_LOST + [JobGone(STOP_JOB), again];
    AfterLostRead();
    RunMore(READ_LOST, JobGone(STOP_JOB), again);
    hide Run, StopJobs;
    var w := Run(READ_LOST);
    var gone := Apply(w, JobGone(STOP_JOB));
    assert STOP_JOB !in gone.s.box.jobs && gone.s.upgrade == w.s.upgrade;
    var rec := Pass(gone.s, again.i).1;
    assert rec.stopSent;
    ExtendStops(w.trace, rec);
  }
}
