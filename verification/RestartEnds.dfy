/** How a pass leaves a full-stop restart: still active and on record in progress, or ended, and then with an
    error exactly if the removal of an approval failed. */
module RestartEnds {
  import opened Text
  import opened Mailbox
  import opened DaosStatus
  import opened FullStop

  /** Removing one of the approvals fails. */
  predicate PatchFails(s: State, i: Input) { (s.approved && i.resetFails) || (s.certs.Some? && i.clearFails) }

  /** A step of a restart goes on being active unless it ends the restart, and ending fails exactly with a
      patch. */
  ghost predicate EndsCleanly(s: State, i: Input, w: Work) {
    && (w.rec.active <==> InProgress(w.s.upgrade)) && (w.rec.active <==> w.rec.ended.None?)
    && (w.rec.ended.Some? ==> (w.err <==> PatchFails(s, i)))
  }

  ghost predicate Fresh(rec: Record) { rec.active && rec.ended.None? }

  lemma EndEnds(s: State, s': State, i: Input, rec: Record, completed: bool)
    requires s'.upgrade.Some? && s'.approved == s.approved && s'.certs == s.certs
    ensures EndsCleanly(s, i, End(s', i, rec, completed))
  {}

  lemma StopEnds(s: State, i: Input, rec: Record)
    requires s.upgrade.Some? && s.upgrade.value.stage == Stopping && Fresh(rec)
    ensures EndsCleanly(s, i, Stop(s, i, rec))
  {
    var (b, out) := RunJob(s.box, STOP_JOB, ["system", "stop"], i.fault);
    hide RunJob, End, PatchFails;
    if out.Done? { EndEnds(s, s.(box := b), i, rec.(stop := Some(out.answer), stopId := out.id), false); }
  }

  lemma UpdateEnds(s: State, i: Input, rec: Record)
    requires s.upgrade.Some? && s.upgrade.value.stage == Updating && Fresh(rec)
    ensures EndsCleanly(s, i, Update(s, i, rec))
  {
    var (s', ok) := Rotate(s, i.rotate);
    var rec' := rec.(backedUp := BacksUp(s, i.rotate), swapped := ok);
    assert s'.upgrade == s.upgrade && s'.approved == s.approved && s'.certs == s.certs;
    hide End, ReplacePods, Rotate, BacksUp, PatchFails;
    EndEnds(s, s', i, rec', false);
    ReplaceEnds(s, s', i, rec', true);
    ReplaceEnds(s, s, i, rec, false);
  }

  lemma ReplaceEnds(s: State, s': State, i: Input, rec: Record, all: bool)
    requires s'.upgrade.Some? && s'.upgrade.value.stage == Updating && Fresh(rec)
    ensures EndsCleanly(s, i, ReplacePods(s', i, rec, all))
  {
    hide Replace, PatchFails;
  }

  lemma StartEnds(s: State, i: Input, rec: Record)
    requires s.upgrade.Some? && s.upgrade.value.stage == StartingSystem && Fresh(rec)
    ensures EndsCleanly(s, i, Start(s, i, rec))
  {
    var (b, out) := RunJob(s.box, START_JOB, ["system", "start"], i.fault);
    hide RunJob, End, PatchFails;
    if out.Done? { EndEnds(s, s.(box := b), i, rec.(startCalled := true, start := Some(out.answer)), false); }
  }

  lemma VerifyEnds(s: State, i: Input, rec: Record)
    requires s.upgrade.Some? && s.upgrade.value.stage == Verifying && Fresh(rec)
    ensures EndsCleanly(s, i, Verify(s, i, rec))
  {
    var (b, out) := RunJob(s.box, VERIFY_JOB, ["system", "query", "-v"], i.fault);
    hide RunJob, End, AllJoined, PatchFails;
    EndEnds(s, s.(box := b), i, rec, false);
    if out.Done? && out.answer.Members? {
      EndEnds(s, s.(box := b), i, rec.(verified := Some(out.answer.states)), true);
    }
  }

  lemma AwaitEnds(s: State, i: Input, rec: Record)
    requires s.upgrade.Some? && s.upgrade.value.stage == Starting && Fresh(rec)
    ensures EndsCleanly(s, i, AwaitPods(s, i, rec))
  {
    hide ReadyCount, PatchFails;
  }

  lemma AdvanceEnds(s: State, i: Input, rec: Record)
    requires InProgress(s.upgrade) && Fresh(rec)
    ensures EndsCleanly(s, i, Advance(s, i, rec))
  {
    hide Stop, Update, AwaitPods, Start, Verify, End, EndsCleanly;
    var u := s.upgrade.value;
    if u.startedAt.Some? && i.now - u.startedAt.value > Timeout(i) {
      EndEnds(s, s, i, rec, false);
    } else {
      match u.stage
      case Stopping => StopEnds(s, i, rec);
      case Updating => UpdateEnds(s, i, rec);
      case Starting => AwaitEnds(s, i, rec);
      case StartingSystem => StartEnds(s, i, rec);
      case Verifying => VerifyEnds(s, i, rec);
    }
  }

  // ---- what ends a restart

  /** The answer of a finished Job that can be read. */
  function Readable(b: Box<Answer>, name: string, fault: Fault): Option<Answer> {
    if name in b.jobs && b.jobs[name].phase.Finished? && (fault.NoFault? || fault.CreateFails?) then
      Some(b.jobs[name].phase.answer)
    else None
  }

  lemma ReadableIsRead(b: Box<Answer>, name: string, args: seq<string>, fault: Fault)
    ensures var out := RunJob(b, name, args, fault).1;
      Readable(b, name, fault) == if out.Done? then Some(out.answer) else None
  {}

  /** The minutes asked for, or half an hour, have passed since the restart began. */
  predicate Late(u: Upgrade, i: Input) {
    u.startedAt.Some? &&
    i.now > u.startedAt.value + (if i.timeoutMinutes > 0 then i.timeoutMinutes else 30) * 60_000_000_000
  }

  /** The stage comes to an end that ends the restart: a stop or start that failed, certificates that could not be
      swapped, or a member list that cannot be read or is all joined. */
  predicate StageOver(s: State, i: Input)
    requires s.upgrade.Some?
  {
    match s.upgrade.value.stage
    case Stopping =>
      var a := Readable(s.box, STOP_JOB, i.fault);
      a.Some? && (a.value.Unreadable? || a.value.DmgError?)
    case Updating => s.upgrade.value.trigger.CertificateRotation? && (s.secret.None? || !i.rotate.RotateOk?)
    case StartingSystem =>
      var a := Readable(s.box, START_JOB, i.fault);
      a.Some? && (a.value.Unreadable? || a.value.DmgError?)
    case Verifying =>
      var a := Readable(s.box, VERIFY_JOB, i.fault);
      a.Some? && (a.value.Undecodable? || (a.value.Members? && a.value.states != []
                                           && forall k :: 0 <= k < |a.value.states| ==> a.value.states[k] == "joined"))
    case _ => false
  }

  /** No restart runs, and one is approved. */
  predicate BeginsNow(s: State, i: Input) {
    && !InProgress(s.upgrade)
    && ((i.tls && s.certs == Some("true"))
        || (s.approved && exists p :: p in i.pods && p.image != "" && p.image != i.want))
  }

  /** The pass finds a restart in progress, or begins one. */
  predicate Engaged(s: State, i: Input) { InProgress(s.upgrade) || BeginsNow(s, i) }

  /** The restart found is over in this pass: its time has passed or its stage ends it. One just begun is over
      exactly if a stop Job left over from before has failed. */
  predicate Over(s: State, i: Input) {
    if InProgress(s.upgrade) then Late(s.upgrade.value, i) || StageOver(s, i)
    else
      var a := Readable(s.box, STOP_JOB, i.fault);
      a.Some? && (a.value.Unreadable? || a.value.DmgError?)
  }

  /** A step leaves what began alone, and ends the restart exactly if over. */
  ghost predicate Result(w: Work, rec: Record, over: bool) {
    w.rec.began == rec.began && (w.rec.ended.Some? <==> over)
  }

  lemma EndResult(s: State, i: Input, rec: Record, completed: bool)
    requires s.upgrade.Some?
    ensures Result(End(s, i, rec, completed), rec, true)
  {
    hide Consume;
  }

  lemma StopOver(s: State, i: Input, rec: Record)
    requires s.upgrade.Some? && s.upgrade.value.stage == Stopping && Fresh(rec)
    ensures Result(Stop(s, i, rec), rec, StageOver(s, i))
  {
    var (b, out) := RunJob(s.box, STOP_JOB, ["system", "stop"], i.fault);
    ReadableIsRead(s.box, STOP_JOB, ["system", "stop"], i.fault);
    hide RunJob, Readable, End;
    if out.Done? { EndResult(s.(box := b), i, rec.(stop := Some(out.answer), stopId := out.id), false); }
  }

  lemma ReplaceResult(s: State, i: Input, rec: Record, all: bool)
    requires s.upgrade.Some? && Fresh(rec)
    ensures Result(ReplacePods(s, i, rec, all), rec, false)
  {
    hide Replace;
  }

  lemma UpdateOver(s: State, i: Input, rec: Record)
    requires s.upgrade.Some? && s.upgrade.value.stage == Updating && Fresh(rec)
    ensures Result(Update(s, i, rec), rec, StageOver(s, i))
  {
    var (s', ok) := Rotate(s, i.rotate);
    var rec' := rec.(backedUp := BacksUp(s, i.rotate), swapped := ok);
    assert ok <==> s.secret.Some? && i.rotate.RotateOk?;
    assert s'.upgrade == s.upgrade;
    hide End, ReplacePods, Rotate, BacksUp;
    EndResult(s', i, rec', false);
    ReplaceResult(s', i, rec', true);
    ReplaceResult(s, i, rec, false);
  }

  lemma AwaitOver(s: State, i: Input, rec: Record)
    requires s.upgrade.Some? && s.upgrade.value.stage == Starting && Fresh(rec)
    ensures Result(AwaitPods(s, i, rec), rec, StageOver(s, i))
  {
    hide ReadyCount;
  }

  lemma StartOver(s: State, i: Input, rec: Record)
    requires s.upgrade.Some? && s.upgrade.value.stage == StartingSystem && Fresh(rec)
    ensures Result(Start(s, i, rec), rec, StageOver(s, i))
  {
    var (b, out) := RunJob(s.box, START_JOB, ["system", "start"], i.fault);
    ReadableIsRead(s.box, START_JOB, ["system", "start"], i.fault);
    hide RunJob, Readable, End;
    if out.Done? { EndResult(s.(box := b), i, rec.(startCalled := true, start := Some(out.answer)), false); }
  }

  lemma VerifyOver(s: State, i: Input, rec: Record)
    requires s.upgrade.Some? && s.upgrade.value.stage == Verifying && Fresh(rec)
    ensures Result(Verify(s, i, rec), rec, StageOver(s, i))
  {
    var (b, out) := RunJob(s.box, VERIFY_JOB, ["system", "query", "-v"], i.fault);
    ReadableIsRead(s.box, VERIFY_JOB, ["system", "query", "-v"], i.fault);
    hide RunJob, Readable, End;
    EndResult(s.(box := b), i, rec, false);
    if out.Done? && out.answer.Members? { EndResult(s.(box := b), i, rec.(verified := Some(out.answer.states)), true); }
  }

  lemma AdvanceOver(s: State, i: Input, rec: Record)
    requires InProgress(s.upgrade) && Fresh(rec)
    ensures Result(Advance(s, i, rec), rec, Late(s.upgrade.value, i) || StageOver(s, i))
  {
    hide Stop, Update, AwaitPods, Start, Verify, StageOver, End, Result, Fresh;
    if Late(s.upgrade.value, i) {
      EndResult(s, i, rec, false);
    } else {
      match s.upgrade.value.stage
      case Stopping => StopOver(s, i, rec);
      case Updating => UpdateOver(s, i, rec);
      case Starting => AwaitOver(s, i, rec);
      case StartingSystem => StartOver(s, i, rec);
      case Verifying => VerifyOver(s, i, rec);
    }
  }

  /** What the decision makes of a restart the pass is engaged in. */
  ghost predicate Decided(s: State, i: Input, w: Work) {
    && (w.rec.began <==> BeginsNow(s, i))
    && if Engaged(s, i) then EndsCleanly(s, i, w) && (w.rec.ended.Some? <==> Over(s, i))
       else !w.rec.active && !InProgress(w.s.upgrade)
  }

  lemma StaleMeans(pods: seq<Pod>, want: string)
    ensures HasStale(pods, want) <==> exists p :: p in pods && p.image != "" && p.image != want
  {
    if HasStale(pods, want) {
      var k :| 0 <= k < |pods| && IsStale(pods[k], want);
      assert pods[k] in pods;
    }
    if p :| p in pods && p.image != "" && p.image != want {
      var k :| 0 <= k < |pods| && pods[k] == p;
      assert IsStale(pods[k], want);
    }
  }

  lemma BegunDecided(s: State, i: Input, trigger: Trigger)
    requires BeginsNow(s, i)
    ensures var s' := s.(upgrade := Some(Upgrade(trigger, Stopping, Some(i.now))));
      Decided(s, i, Advance(s', i, Blank(s, i).(active := true, began := true)))
  {
    var s' := s.(upgrade := Some(Upgrade(trigger, Stopping, Some(i.now))));
    var rec := Blank(s, i).(active := true, began := true);
    AdvanceEnds(s', i, rec);
    AdvanceOver(s', i, rec);
    SamePatches(s, s', i);
    hide Advance, HasStale, PatchFails, Readable;
  }

  lemma DecideEnds(s: State, i: Input)
    ensures Decided(s, i, Decide(s, i, Blank(s, i)))
  {
    var rec := Blank(s, i).(active := true);
    StaleMeans(i.pods, i.want);
    hide HasStale, PatchFails, Advance, Readable, Over, EndsCleanly;
    if InProgress(s.upgrade) {
      AdvanceEnds(s, i, rec);
      AdvanceOver(s, i, rec);
      OverInProgress(s, i);
    } else if BeginsNow(s, i) {
      BegunDecided(s, i, if CertsApproved(s, i) then CertificateRotation else ImageChange);
    }
  }

  lemma OverInProgress(s: State, i: Input)
    requires InProgress(s.upgrade)
    ensures Over(s, i) <==> Late(s.upgrade.value, i) || StageOver(s, i)
  {}

  lemma SamePatches(s: State, s': State, i: Input)
    requires s' == s.(upgrade := s'.upgrade)
    ensures PatchFails(s', i) == PatchFails(s, i)
  {}

  lemma CleanEnd(s: State, i: Input, w: Work)
    requires EndsCleanly(s, i, w)
    ensures !w.err && !w.rec.active <==>
      w.rec.ended.Some? && !(s.approved && i.resetFails) && !(s.certs.Some? && i.clearFails)
  {}

  predicate IsWaiting(u: Option<Upgrade>) { u.Some? && u.value.stage.Waiting? }

  /** A pass that neither finds nor begins a restart. Where a pod runs another image, a restart is put on record as
      waiting for approval. Where none does, one that waited is forgotten, and an approval with nothing to do is
      dropped, unless there are no pods at all. Nothing else moves. */
  lemma IdleExactly(s: State, i: Input)
    requires i.enabled && i.rendered > 0 && !i.podListFails && !Engaged(s, i)
    ensures
      var stale := exists p :: p in i.pods && p.image != "" && p.image != i.want;
      var drops := !stale && s.approved && i.pods != [];
      var unsaved := i.writeFails || (drops && i.resetFails);
      Pass(s, i).0 == s.(
        approved := s.approved && !(drops && !i.resetFails),
        upgrade := if unsaved then s.upgrade
                   else if !stale then (if IsWaiting(s.upgrade) then None else s.upgrade)
                   else if IsWaiting(s.upgrade) then s.upgrade
                   else Some(Upgrade(ImageChange, Waiting, None)))
  {
    StaleMeans(i.pods, i.want);
    hide HasStale, Advance;
  }
}
