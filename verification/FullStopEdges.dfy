/** Two promises of the full-stop restart that hold only sometimes, and exactly when: that the stop it
    acts on is its own, and that the certificate backup holds the bundle from before the rotation. */
module FullStopEdges {
  import opened Text
  import opened DaosStatus
  import opened Mailbox
  import opened FullStop
  import opened FullStopRuns

  // ---- what one pass does to the Jobs and to the Secrets

  /** The stop Job of a pass that delivers none is kept, or is a new one. */
  ghost predicate StopEffect(s: State, w: Work) {
    var b := w.s.box;
    && s.box.nextId <= b.nextId
    && (w.rec.stop.Some? ==> s.box.Open(STOP_JOB) && w.rec.stopId == s.box.jobs[STOP_JOB].id && !b.Open(STOP_JOB))
    && (w.rec.stop.None? && s.box.Open(STOP_JOB) ==> b.Open(STOP_JOB) && b.jobs[STOP_JOB].id == s.box.jobs[STOP_JOB].id)
    && (!s.box.Open(STOP_JOB) && b.Open(STOP_JOB) ==> s.box.nextId <= b.jobs[STOP_JOB].id < b.nextId)
    && (w.rec.stopSent <==> !s.box.Open(STOP_JOB) && b.Open(STOP_JOB))
  }

  ghost predicate SwapEffect(s: State, w: Work) {
    && (w.rec.backedUp ==> s.secret.Some? && InProgress(s.upgrade) && s.upgrade.value.stage == Updating)
    && w.s.previous == (if w.rec.backedUp then s.secret else s.previous)
    && (w.rec.swapped ==> w.rec.backedUp)
    && w.s.secret == (if w.rec.swapped then Some(s.bundle) else s.secret)
    && w.s.bundle == (if w.rec.swapped then s.bundle + 1 else s.bundle)
  }

  /** The stages after Updating are never left backwards. */
  ghost predicate PastUpdating(u: Option<Upgrade>) {
    u.Some? && u.value.stage in {Starting, StartingSystem, Verifying, Completed, Failed}
  }

  ghost predicate StageEffect(s: State, w: Work) {
    && (InProgress(s.upgrade) && PastUpdating(s.upgrade) ==> PastUpdating(w.s.upgrade))
    && (w.rec.swapped && !w.err ==> PastUpdating(w.s.upgrade))
    && (w.rec.ended.None? ==> w.rec.active || !InProgress(w.s.upgrade))
    && (!InProgress(s.upgrade) && InProgress(w.s.upgrade) ==> w.rec.began)
    && (w.rec.began ==> !w.rec.swapped)
    && (IsStopping(w.s.upgrade) ==> w.rec.began || (IsStopping(s.upgrade) && w.rec.stop.None?))
    && (w.rec.stopSent ==> w.rec.began || IsStopping(s.upgrade))
  }

  ghost predicate IsStopping(u: Option<Upgrade>) { u.Some? && u.value.stage == Stopping }

  ghost predicate Found(s: State, rec: Record) {
    rec.stored && rec.nextId == s.box.nextId && rec.stopOpen == s.box.Open(STOP_JOB) && rec.secret == s.secret
  }

  ghost predicate Effects(s: State, w: Work) {
    StopEffect(s, w) && SwapEffect(s, w) && StageEffect(s, w) && Found(s, w.rec)
  }

  /** A record that says only what the pass found. */
  ghost predicate Plain(s: State, rec: Record) {
    && rec.stop.None? && !rec.backedUp && !rec.swapped && rec.ended.None? && rec.active && Found(s, rec)
    && (rec.began <==> !InProgress(s.upgrade)) && !rec.stopSent
  }

  /** s is what the step works on: the stored state, or a restart just begun. */
  ghost predicate From(before: State, s: State) {
    && InProgress(s.upgrade) && s.(upgrade := before.upgrade) == before
    && (s == before || (!InProgress(before.upgrade) && s.upgrade.value.stage == Stopping))
  }

  lemma EndKeeps(s: State, i: Input, rec: Record, completed: bool)
    requires s.upgrade.Some?
    ensures var w := End(s, i, rec, completed);
      && w.s.box == s.box && w.s.secret == s.secret && w.s.previous == s.previous && w.s.bundle == s.bundle
      && w.s.upgrade == Some(s.upgrade.value.(stage := if completed then Completed else Failed))
      && w.rec == rec.(ended := Some(completed), active := false)
  {}

  /** The stop Job is the same in both mailboxes. */
  ghost predicate SameStop(b: Box<Answer>, b': Box<Answer>) {
    && b.nextId <= b'.nextId && (STOP_JOB in b.jobs <==> STOP_JOB in b'.jobs)
    && (STOP_JOB in b.jobs ==> b'.jobs[STOP_JOB] == b.jobs[STOP_JOB])
  }

  lemma OtherJobs(b: Box<Answer>, name: string, args: seq<string>, fault: Fault)
    requires name != STOP_JOB
    ensures SameStop(b, RunJob(b, name, args, fault).0)
  {}

  lemma StopJobRun(b: Box<Answer>, args: seq<string>, fault: Fault)
    ensures var (b', out) := RunJob(b, STOP_JOB, args, fault);
      && b.nextId <= b'.nextId
      && (out.Done? ==> b.Open(STOP_JOB) && out.id == b.jobs[STOP_JOB].id && !b'.Open(STOP_JOB))
      && (!out.Done? && b.Open(STOP_JOB) ==> b'.Open(STOP_JOB) && b'.jobs[STOP_JOB].id == b.jobs[STOP_JOB].id)
      && (!b.Open(STOP_JOB) && b'.Open(STOP_JOB) ==> b.nextId <= b'.jobs[STOP_JOB].id < b'.nextId)
      && (b'.nextId > b.nextId <==> !b.Open(STOP_JOB) && b'.Open(STOP_JOB)) && (b'.nextId > b.nextId ==> out.Pending?)
  {}

  lemma StopEffects(before: State, s: State, i: Input, rec: Record)
    requires From(before, s) && s.upgrade.value.stage == Stopping && Plain(before, rec)
    ensures Effects(before, Stop(s, i, rec))
  {
    StopJobRun(s.box, ["system", "stop"], i.fault);
    var (b, out) := RunJob(s.box, STOP_JOB, ["system", "stop"], i.fault);
    hide RunJob, End;
    if out.Done? && !Succeeded(out.answer) {
      EndKeeps(s.(box := b), i, rec.(stop := Some(out.answer), stopId := out.id), false);
    }
  }

  lemma UpdateEffects(s: State, i: Input, rec: Record)
    requires InProgress(s.upgrade) && s.upgrade.value.stage == Updating && Plain(s, rec)
    ensures Effects(s, Update(s, i, rec))
  {
    hide Replace, End;
    if s.upgrade.value.trigger.CertificateRotation? && !Rotate(s, i.rotate).1 {
      EndKeeps(Rotate(s, i.rotate).0, i, rec.(backedUp := BacksUp(s, i.rotate), swapped := false), false);
    }
  }

  /** Ending a restart after running no Job, or another Job than stop. */
  lemma EndEffects(before: State, s: State, b: Box<Answer>, i: Input, rec: Record, completed: bool)
    requires From(before, s) && Plain(before, rec) && SameStop(s.box, b)
    ensures Effects(before, End(s.(box := b), i, rec, completed))
  {
    EndKeeps(s.(box := b), i, rec, completed);
    hide End;
  }

  /** Moving on, or waiting, after running no Job, or another Job than stop. */
  lemma MoveEffects(s: State, b: Box<Answer>, stage: Stage, rec: Record, err: bool)
    requires InProgress(s.upgrade) && PastUpdating(s.upgrade) && Plain(s, rec) && SameStop(s.box, b)
    requires stage in {Starting, StartingSystem, Verifying}
    ensures Effects(s, Work(SetStage(s.(box := b), stage), rec, err))
  {}

  lemma AwaitEffects(s: State, i: Input, rec: Record)
    requires InProgress(s.upgrade) && s.upgrade.value.stage == Starting && Plain(s, rec)
    ensures Effects(s, AwaitPods(s, i, rec))
  {
    var w := AwaitPods(s, i, rec);
    MoveEffects(s, s.box, w.s.upgrade.value.stage, w.rec, false);
  }

  lemma StartEffects(s: State, i: Input, rec: Record)
    requires InProgress(s.upgrade) && s.upgrade.value.stage == StartingSystem && Plain(s, rec)
    ensures Effects(s, Start(s, i, rec))
  {
    OtherJobs(s.box, START_JOB, ["system", "start"], i.fault);
    var (b, out) := RunJob(s.box, START_JOB, ["system", "start"], i.fault);
    hide RunJob, End, Effects;
    var w := Start(s, i, rec);
    if out.Done? && !Succeeded(out.answer) {
      EndEffects(s, s, b, i, rec.(startCalled := true), false);
    } else {
      MoveEffects(s, b, w.s.upgrade.value.stage, w.rec, w.err);
    }
  }

  lemma VerifyEffects(s: State, i: Input, rec: Record)
    requires InProgress(s.upgrade) && s.upgrade.value.stage == Verifying && Plain(s, rec)
    ensures Effects(s, Verify(s, i, rec))
  {
    OtherJobs(s.box, VERIFY_JOB, ["system", "query", "-v"], i.fault);
    var (b, out) := RunJob(s.box, VERIFY_JOB, ["system", "query", "-v"], i.fault);
    hide RunJob, End, AllJoined, Effects;
    var w := Verify(s, i, rec);
    if out.Done? && out.answer.Undecodable? {
      EndEffects(s, s, b, i, rec, false);
    } else if out.Done? && out.answer.Members? && AllJoined(out.answer.states) {
      EndEffects(s, s, b, i, rec.(verified := Some(out.answer.states)), true);
    } else {
      MoveEffects(s, b, Verifying, w.rec, w.err);
    }
  }

  lemma AdvanceEffects(before: State, s: State, i: Input, rec: Record)
    requires From(before, s) && Plain(before, rec)
    ensures Effects(before, Advance(s, i, rec))
  {
    hide Stop, Update, Start, Verify, Effects;
    var u := s.upgrade.value;
    if u.startedAt.Some? && i.now - u.startedAt.value > Timeout(i) {
      EndEffects(before, s, s.box, i, rec, false);
    } else {
      match u.stage
      case Stopping => StopEffects(before, s, i, rec);
      case Updating => UpdateEffects(s, i, rec);
      case Starting => AwaitEffects(s, i, rec);
      case StartingSystem => StartEffects(s, i, rec);
      case Verifying => VerifyEffects(s, i, rec);
    }
  }

  lemma DecideEffects(s: State, i: Input)
    ensures Effects(s, Decide(s, i, Blank(s, i)))
  {
    hide Advance;
    var rec := Blank(s, i);
    if InProgress(s.upgrade) {
      AdvanceEffects(s, s, i, rec.(active := true));
    } else if CertsApproved(s, i) {
      AdvanceEffects(s, s.(upgrade := Some(Upgrade(CertificateRotation, Stopping, Some(i.now)))), i,
                     rec.(active := true, began := true));
    } else if HasStale(i.pods, i.want) && s.approved {
      AdvanceEffects(s, s.(upgrade := Some(Upgrade(ImageChange, Stopping, Some(i.now)))), i,
                     rec.(active := true, began := true));
    }
  }

  // ---- whose stop it was

  /** A stop result was delivered in the restart now running, by a stored pass or not. */
  ghost predicate Asked(trace: seq<Record>) {
    trace != [] &&
    var last := trace[|trace| - 1];
    !Ends(last) && (last.stop.Some? || (!Begins(last) && Asked(trace[..|trace| - 1])))
  }

  /** An undelivered stop Job is older than the running restart exactly when the restart found it there
      and has not been given it. */
  ghost predicate FreshInv(trace: seq<Record>, b: Box<Answer>) {
    && (b.Open(STOP_JOB) ==> b.jobs[STOP_JOB].id < b.nextId)
    && (BeginOf(trace).Some? ==>
          var begin := BeginOf(trace).value;
          && begin.nextId <= b.nextId
          && (begin.stopOpen && !Asked(trace) ==> b.Open(STOP_JOB))
          && (b.Open(STOP_JOB) ==> (b.jobs[STOP_JOB].id < begin.nextId <==> begin.stopOpen && !Asked(trace))))
  }

  ghost predicate FreshRecord(prefix: seq<Record>, rec: Record) {
    && (rec.stop.Some? && rec.began ==> rec.stopOpen && rec.stopId < rec.nextId)
    && (rec.stop.Some? && !rec.began && Restarting(prefix) ==>
          (rec.stopId < BeginOf(prefix).value.nextId <==> BeginOf(prefix).value.stopOpen && !Asked(prefix)))
  }

  lemma FreshStore(trace: seq<Record>, s: State, i: Input)
    requires FreshInv(trace, s.box)
    ensures var (s', rec) := Pass(s, i); FreshInv(trace + [rec], s'.box) && FreshRecord(trace, rec)
  {
    var (s', rec) := Pass(s, i);
    assert (trace + [rec])[..|trace|] == trace;
    Extend(trace, rec);
    DecideEffects(s, i);
    hide Decide, BeginOf, Begun, Stopped, PodsUp;
  }

  ghost predicate FreshTrace(trace: seq<Record>) {
    forall k :: 0 <= k < |trace| ==> FreshRecord(trace[..k], trace[k])
  }

  lemma AppendFresh(trace: seq<Record>, rec: Record)
    requires FreshTrace(trace) && FreshRecord(trace, rec)
    ensures FreshTrace(trace + [rec])
  {
    var longer := trace + [rec];
    forall k | 0 <= k < |longer| ensures FreshRecord(longer[..k], longer[k]) {
      assert longer[..k] == trace[..k];
      if k == |trace| { assert trace[..k] == trace; }
    }
  }

  lemma FreshStep(w: World, step: Step)
    requires FreshInv(w.trace, w.s.box) && FreshTrace(w.trace)
    ensures FreshInv(Apply(w, step).trace, Apply(w, step).s.box) && FreshTrace(Apply(w, step).trace)
  {
    hide Pass, FreshTrace, FreshRecord;
    if step.Reconcile? {
      FreshStore(w.trace, w.s, step.i);
      AppendFresh(w.trace, Pass(w.s, step.i).1);
    }
  }

  lemma {:induction false} RunFresh(steps: seq<Step>)
    ensures FreshInv(Run(steps).trace, Run(steps).s.box) && FreshTrace(Run(steps).trace)
  {
    if steps != [] {
      RunFresh(steps[..|steps| - 1]);
      hide FreshInv, FreshTrace, Apply;
      FreshStep(Run(steps[..|steps| - 1]), steps[|steps| - 1]);
    }
  }

  lemma TracesAreFresh(trace: seq<Record>)
    requires IsTrace(trace)
    ensures FreshTrace(trace)
  {
    var steps :| Run(steps).trace == trace;
    RunFresh(steps);
  }

  ghost predicate StopDeliveredIn(trace: seq<Record>, b: nat, j: nat)
    requires b <= j <= |trace|
  {
    exists k :: b <= k < j && trace[k].stop.Some?
  }

  lemma {:induction false} AskedWithin(trace: seq<Record>, b: nat, j: nat)
    requires OneRestart(trace, b, j)
    ensures Asked(trace[..j + 1]) <==> StopDeliveredIn(trace, b, j + 1)
    ensures BeginOf(trace[..j + 1]) == Some(trace[b])
  {
    assert trace[..j + 1][..j] == trace[..j];
    if b < j { AskedWithin(trace, b, j - 1); }
  }

  /** The stop result a restart acts on comes from a Job made before it began exactly when an undelivered
      stop Job was lying around at that moment, and only for the first result. */
  lemma StopIsOldExactlyWhenLeftOver(trace: seq<Record>, b: nat, j: nat)
    requires IsTrace(trace) && OneRestart(trace, b, j) && trace[j].stop.Some?
    ensures trace[j].stopId < trace[b].nextId <==> trace[b].stopOpen && !StopDeliveredIn(trace, b, j)
  {
    TracesAreFresh(trace);
    assert FreshRecord(trace[..j], trace[j]);
    if b < j {
      AskedWithin(trace, b, j - 1);
      TracesAreGood(trace);
      assert GoodRecord(trace[..j], trace[j]);
    }
  }

  // ---- what the backup holds

  /** The bundle the restart begun last swapped out first, whether it still runs or has ended. */
  ghost function FirstSwap(trace: seq<Record>): Option<nat> {
    if trace == [] then None
    else
      var last := trace[|trace| - 1];
      var before := if Begins(last) then None else FirstSwap(trace[..|trace| - 1]);
      if before.Some? then before else if last.swapped then last.secret else None
  }

  /** A pass wrote the backup again after that first swap, and no other restart has begun. */
  ghost predicate BackedUpAgain(trace: seq<Record>) {
    trace != [] &&
    var last := trace[|trace| - 1];
    var init := trace[..|trace| - 1];
    !Begins(last) && (BackedUpAgain(init) || (FirstSwap(init).Some? && last.backedUp))
  }

  /** A stored pass of the restart begun last swapped. */
  ghost predicate SwapStored(trace: seq<Record>) {
    trace != [] &&
    var last := trace[|trace| - 1];
    (last.stored && last.swapped) || (!Begins(last) && SwapStored(trace[..|trace| - 1]))
  }

  /** No certificates are about to be swapped. */
  ghost predicate SwapOver(u: Option<Upgrade>) { InProgress(u) ==> PastUpdating(u) }

  ghost predicate BackupInv(trace: seq<Record>, s: State) {
    && (s.secret.Some? ==> s.secret.value < s.bundle)
    && (BackedUpAgain(trace) ==> FirstSwap(trace).Some?)
    && (FirstSwap(trace).Some? ==>
          var x := FirstSwap(trace).value;
          && x < s.bundle && s.previous.Some? && (s.secret.Some? ==> x < s.secret.value)
          && (if BackedUpAgain(trace) then x < s.previous.value else s.previous.value == x))
    && (SwapStored(trace) ==> SwapOver(s.upgrade))
  }

  lemma BackupStore(w: World, i: Input)
    requires BackupInv(w.trace, w.s)
    ensures var (s', rec) := Pass(w.s, i);
      BackupInv(w.trace + [rec], s') && (SwapStored(w.trace) ==> !rec.backedUp)
  {
    var (s', rec) := Pass(w.s, i);
    assert (w.trace + [rec])[..|w.trace|] == w.trace;
    DecideEffects(w.s, i);
    hide Decide, FirstSwap, BackedUpAgain, SwapStored;
    BackupExtend(w.trace, rec);
  }

  lemma BackupExtend(trace: seq<Record>, rec: Record)
    ensures var before := if Begins(rec) then None else FirstSwap(trace);
      FirstSwap(trace + [rec]) == (if before.Some? then before else if rec.swapped then rec.secret else None)
    ensures BackedUpAgain(trace + [rec]) ==
      (!Begins(rec) && (BackedUpAgain(trace) || (FirstSwap(trace).Some? && rec.backedUp)))
    ensures SwapStored(trace + [rec]) == ((rec.stored && rec.swapped) || (!Begins(rec) && SwapStored(trace)))
  {
    assert (trace + [rec])[..|trace|] == trace;
  }

  ghost predicate NoBackupAfterStoredSwap(trace: seq<Record>) {
    forall k :: 0 <= k < |trace| && SwapStored(trace[..k]) ==> !trace[k].backedUp
  }

  lemma AppendBackup(trace: seq<Record>, rec: Record)
    requires NoBackupAfterStoredSwap(trace) && (SwapStored(trace) ==> !rec.backedUp)
    ensures NoBackupAfterStoredSwap(trace + [rec])
  {
    var longer := trace + [rec];
    forall k | 0 <= k < |longer| && SwapStored(longer[..k]) ensures !longer[k].backedUp {
      assert longer[..k] == trace[..k];
      if k == |trace| { assert trace[..k] == trace; }
    }
  }

  lemma BackupStep(w: World, step: Step)
    requires BackupInv(w.trace, w.s) && NoBackupAfterStoredSwap(w.trace)
    ensures BackupInv(Apply(w, step).trace, Apply(w, step).s) && NoBackupAfterStoredSwap(Apply(w, step).trace)
  {
    hide Pass, NoBackupAfterStoredSwap, FirstSwap, BackedUpAgain, SwapStored;
    if step.Reconcile? {
      BackupStore(w, step.i);
      AppendBackup(w.trace, Pass(w.s, step.i).1);
    }
  }

  lemma {:induction false} RunBackup(steps: seq<Step>)
    ensures BackupInv(Run(steps).trace, Run(steps).s) && NoBackupAfterStoredSwap(Run(steps).trace)
  {
    if steps != [] {
      RunBackup(steps[..|steps| - 1]);
      hide BackupInv, NoBackupAfterStoredSwap, Apply;
      BackupStep(Run(steps[..|steps| - 1]), steps[|steps| - 1]);
    }
  }

  lemma BackupOrAgain(w: World)
    requires Reachable(w) && FirstSwap(w.trace).Some?
    ensures w.s.previous == FirstSwap(w.trace) <==> !BackedUpAgain(w.trace)
  {
    var steps :| Run(steps) == w;
    RunBackup(steps);
  }

  /** A pass that swapped and was stored is the last of its restart to write the backup. */
  lemma StoredSwapIsLastBackup(trace: seq<Record>, k: nat)
    requires IsTrace(trace) && k < |trace| && SwapStored(trace[..k])
    ensures !trace[k].backedUp
  {
    var steps :| Run(steps).trace == trace;
    RunBackup(steps);
  }

  // ---- runs that show both happen

  const OLD_POD: Pod := Pod("server-0", "n1", "old", true, false)

  function PassAt(now: int, undeletable: set<string>): Input {
    Input(now, true, 1, [OLD_POD], false, "new", true, 30, NoFault, undeletable, RotateOk, false, false, false)
  }

  lemma RunOneMore(steps: seq<Step>, step: Step)
    ensures Run(steps + [step]) == Apply(Run(steps), step)
  {
    assert (steps + [step])[..|steps|] == steps;
  }

  lemma RunMore(steps: seq<Step>, a: Step, b: Step)
    ensures Run(steps + [a, b]) == Apply(Apply(Run(steps), a), b)
  {
    assert steps + [a, b] == steps + [a] + [b];
    RunOneMore(steps, a);
    RunOneMore(steps + [a], b);
  }

  lemma OneReplaced()
    ensures Replace([OLD_POD], false, "new", {}) == ([OLD_POD], true)
  {
    assert "old"[0] != "new"[0];
    assert [OLD_POD][1..] == [];
    assert Replace([], false, "new", {}) == ([], true);
    assert Replace([OLD_POD][1..], false, "new", {}) == ([], true);
    assert [OLD_POD] + [] == [OLD_POD];
  }

  const TIMED_OUT: seq<Step> :=
    [SetApproved(true), Reconcile(PassAt(0, {}))]
    + [Reconcile(PassAt(31 * MINUTE, {})), JobFinished(STOP_JOB, Members([]))]

  lemma AfterTimeout()
    ensures var w := Run(TIMED_OUT);
      && w.s.upgrade == Some(Upgrade(ImageChange, Failed, Some(0))) && !w.s.approved && w.s.certs.None?
      && w.s.box == Box(map[STOP_JOB := Job(0, ["system", "stop"], Finished(Members([])))], 1) && |w.trace| == 2
  {
    RunMore([], SetApproved(true), Reconcile(PassAt(0, {})));
    assert [] + [SetApproved(true), Reconcile(PassAt(0, {}))] == [SetApproved(true), Reconcile(PassAt(0, {}))];
    RunMore([SetApproved(true), Reconcile(PassAt(0, {}))], Reconcile(PassAt(31 * MINUTE, {})),
            JobFinished(STOP_JOB, Members([])));
    assert IsStale([OLD_POD][0], "new");
    var w := Run([SetApproved(true), Reconcile(PassAt(0, {}))]);
    assert w.s.upgrade == Some(Upgrade(ImageChange, Stopping, Some(0)));
  }

  /** A restart that times out leaves its stop Job behind; the next restart takes that Job's result for its
      own and deletes pods, although only one stop Job was ever made. */
  lemma LeftOverStopIsTaken() returns (steps: seq<Step>)
    ensures var w := Run(steps);
      |w.trace| == 4 && w.trace[2].began && w.trace[2].stop == Some(Members([])) && w.trace[3].deleted != []
      && w.s.box.nextId == 1
  {
    steps := TIMED_OUT + [SetApproved(true), Reconcile(PassAt(40 * MINUTE, {}))] + [Reconcile(PassAt(41 * MINUTE, {}))];
    AfterTimeout();
    RunMore(TIMED_OUT, SetApproved(true), Reconcile(PassAt(40 * MINUTE, {})));
    RunOneMore(TIMED_OUT + [SetApproved(true), Reconcile(PassAt(40 * MINUTE, {}))], Reconcile(PassAt(41 * MINUTE, {})));
    hide Run;
    assert IsStale([OLD_POD][0], "new");
    var w := Run(TIMED_OUT + [SetApproved(true), Reconcile(PassAt(40 * MINUTE, {}))]);
    assert w.s.upgrade == Some(Upgrade(ImageChange, Updating, Some(40 * MINUTE)));
    assert w.trace[2].stop == Some(Members([])) && |w.trace| == 3;
    OneReplaced();
  }

  const ROTATING: seq<Step> :=
    [SupplySecret, SetCerts(Some("true"))] + [Reconcile(PassAt(0, {})), JobFinished(STOP_JOB, Members([]))]

  lemma AfterBegin()
    ensures var w := Run(ROTATING);
      && w.s == State(Some(Upgrade(CertificateRotation, Stopping, Some(0))), false, Some("true"), Some(0), None, 1,
                      Box(map[STOP_JOB := Job(0, ["system", "stop"], Finished(Members([])))], 1))
      && |w.trace| == 1 && Begins(w.trace[0]) && !w.trace[0].swapped
  {
    RunMore([], SupplySecret, SetCerts(Some("true")));
    assert [] + [SupplySecret, SetCerts(Some("true"))] == [SupplySecret, SetCerts(Some("true"))];
    RunMore([SupplySecret, SetCerts(Some("true"))], Reconcile(PassAt(0, {})), JobFinished(STOP_JOB, Members([])));
  }

  const STOPPED: seq<Step> := ROTATING + [Reconcile(PassAt(1, {}))]

  lemma AfterStop()
    ensures var w := Run(STOPPED);
      && w.s.upgrade == Some(Upgrade(CertificateRotation, Updating, Some(0))) && w.s.secret == Some(0)
      && w.s.bundle == 1
      && w.s.certs == Some("true") && |w.trace| == 2 && FirstSwap(w.trace).None? && !BackedUpAgain(w.trace)
  {
    AfterBegin();
    RunOneMore(ROTATING, Reconcile(PassAt(1, {})));
    hide Run;
    var w := Run(ROTATING);
    BackupExtend([], w.trace[0]);
    assert [] + [w.trace[0]] == w.trace;
    BackupExtend(w.trace, Run(STOPPED).trace[1]);
  }

  /** One pod that cannot be deleted makes the rotation swap twice, and the backup then holds the bundle
      of the first swap instead of the one from before the restart. */
  lemma SecondSwapLosesOriginal() returns (steps: seq<Step>)
    ensures var w := Run(steps); FirstSwap(w.trace) == Some(0) && w.s.previous == Some(1) && BackedUpAgain(w.trace)
  {
    var held := Reconcile(PassAt(2, {"server-0"}));
    steps := STOPPED + [held, held];
    AfterStop();
    RunMore(STOPPED, held, held);
    hide Run;
    var w0 := Run(STOPPED);
    var w1 := Apply(w0, held);
    assert Replace([OLD_POD], true, "new", {"server-0"}) == ([], false);
    assert w1.s.secret == Some(1) && w1.s.bundle == 2 && w1.s.upgrade == w0.s.upgrade;
    BackupExtend(w0.trace, w1.trace[2]);
    BackupExtend(w1.trace, Apply(w1, held).trace[3]);
  }
}
