/** What the full-stop restart keeps over every run: humans approve and withdraw at any time, Jobs finish
    with any answer, and any API call or status write of a pass may fail. */
module FullStopRuns {
  import opened Text
  import opened DaosStatus
  import opened Mailbox
  import opened FullStop

  /** approvals counts what humans did: setting the upgrade approval, or the certificate annotation to
      "true", where it was not set before. */
  datatype World = World(s: State, approvals: nat, trace: seq<Record>)

  datatype Step =
    | SetApproved(yes: bool)
    | SetCerts(value: Option<string>)
    | RemoveSecret
    | SupplySecret
    | Reconcile(i: Input)
    | JobFinished(name: string, answer: Answer)
    | JobGone(name: string)

  function Apply(w: World, step: Step): World {
    match step
    case SetApproved(v) => World(w.s.(approved := v), w.approvals + (if v && !w.s.approved then 1 else 0), w.trace)
    case SetCerts(v) =>
      World(w.s.(certs := v), w.approvals + (if v == Some("true") && w.s.certs != Some("true") then 1 else 0), w.trace)
    case RemoveSecret => w.(s := w.s.(secret := None))
    case SupplySecret => w.(s := w.s.(secret := Some(w.s.bundle), bundle := w.s.bundle + 1))
    case Reconcile(i) => var (s, rec) := Pass(w.s, i); World(s, w.approvals, w.trace + [rec])
    case JobFinished(name, answer) => w.(s := w.s.(box := FinishJob(w.s.box, name, answer)))
    case JobGone(name) => w.(s := w.s.(box := DropJob(w.s.box, name)))
  }

  const Initial: World := World(State(None, false, None, None, None, 0, Box(map[], 0)), 0, [])

  function Run(steps: seq<Step>): World {
    if steps == [] then Initial else Apply(Run(steps[..|steps| - 1]), steps[|steps| - 1])
  }

  // ---- reading a trace

  ghost predicate Begins(rec: Record) { rec.stored && rec.began }

  ghost predicate Ends(rec: Record) { rec.stored && rec.ended.Some? }

  /** Restarts begun. */
  ghost function Begun(trace: seq<Record>): nat {
    if trace == [] then 0 else Begun(trace[..|trace| - 1]) + if Begins(trace[|trace| - 1]) then 1 else 0
  }

  /** The pass that began the restart now running. */
  ghost function BeginOf(trace: seq<Record>): Option<Record> {
    if trace == [] then None
    else
      var last := trace[|trace| - 1];
      if Ends(last) then None else if Begins(last) then Some(last) else BeginOf(trace[..|trace| - 1])
  }

  ghost predicate Restarting(trace: seq<Record>) { BeginOf(trace).Some? }

  /** dmg gave an answer that is not an error. */
  ghost predicate Accepted(a: Answer) { a.Undecodable? || a.Members? }

  ghost predicate StopSucceeded(rec: Record) { rec.stored && rec.stop.Some? && Accepted(rec.stop.value) }

  /** The pods that are ready on this image and not on their way out, by their places in the list. */
  ghost function ReadyPlaces(pods: seq<Pod>, want: string): set<int> {
    set k | 0 <= k < |pods| && pods[k].image == want && pods[k].ready && !pods[k].deleting
  }

  lemma {:induction false} ReadyCountCounts(pods: seq<Pod>, want: string)
    ensures ReadyCount(pods, want) == |ReadyPlaces(pods, want)|
  {
    if pods == [] {
      assert ReadyPlaces(pods, want) == {};
    } else {
      ReadyCountCounts(pods[..|pods| - 1], want);
      LastPlace(pods, want);
      hide ReadyPlaces;
    }
  }

  lemma LastPlace(pods: seq<Pod>, want: string)
    requires pods != []
    ensures var n := |pods| - 1;
      |ReadyPlaces(pods, want)| == |ReadyPlaces(pods[..n], want)| + if IsReady(pods[n], want) then 1 else 0
  {
    var n := |pods| - 1;
    var before := ReadyPlaces(pods[..n], want);
    assert ReadyPlaces(pods, want) == before + if IsReady(pods[n], want) then {n} else {};
    assert n !in before;
  }

  ghost predicate PodsSeenReady(rec: Record) {
    rec.stored && rec.awaited.Some? && |ReadyPlaces(rec.awaited.value, rec.want)| >= rec.rendered > 0
  }

  /** A stop or start that is not accepted ends the restart as failed, one that is goes on; either way the pass
      that reads it replaces nothing. */
  ghost predicate Heeded(rec: Record) {
    && (rec.stop.Some? ==> rec.ended == if Accepted(rec.stop.value) then None else Some(false))
    && (rec.start.Some? ==> rec.ended == if Accepted(rec.start.value) then None else Some(false))
    && (rec.stop.Some? || rec.start.Some? ==> rec.deleted == [] && !rec.swapped)
  }

  /** `dmg system stop` succeeded in the restart now running. */
  ghost predicate Stopped(trace: seq<Record>) {
    trace != [] &&
    var last := trace[|trace| - 1];
    if Ends(last) then false else StopSucceeded(last) || (!Begins(last) && Stopped(trace[..|trace| - 1]))
  }

  /** In the restart now running, a pass saw at least as many ready pods on the wanted image as there are
      rendered nodes. */
  ghost predicate PodsUp(trace: seq<Record>) {
    trace != [] &&
    var last := trace[|trace| - 1];
    if Ends(last) then false else PodsSeenReady(last) || (!Begins(last) && PodsUp(trace[..|trace| - 1]))
  }

  // ---- the invariant

  ghost predicate StageInv(trace: seq<Record>, s: State) {
    && (InProgress(s.upgrade) <==> Restarting(trace))
    && (s.upgrade.Some? && s.upgrade.value.stage in {Updating, Starting, StartingSystem, Verifying} ==> Stopped(trace))
    && (s.upgrade.Some? && s.upgrade.value.stage in {StartingSystem, Verifying} ==> PodsUp(trace))
    && (InProgress(s.upgrade) && Restarting(trace) ==> s.upgrade.value.startedAt == Some(BeginOf(trace).value.now))
  }

  ghost predicate GoodRecord(prefix: seq<Record>, rec: Record) {
    && (rec.deleted != [] || rec.swapped ==> Restarting(prefix) && Stopped(prefix))
    && (rec.startCalled ==> Restarting(prefix) && Stopped(prefix) && PodsUp(prefix))
    && (rec.ended == Some(true) ==> Restarting(prefix) && rec.verified.Some? && AllJoined(rec.verified.value))
    && (rec.began ==> !Restarting(prefix))
    && (rec.stored && rec.active ==> Restarting(prefix + [rec])) && Heeded(rec)
  }

  function Pending(s: State): nat { (if s.approved then 1 else 0) + if s.certs == Some("true") then 1 else 0 }

  /** Each restart begun is covered by an approval, and what is still pending is left over. */
  ghost predicate Covered(w: World) {
    Begun(w.trace) + (if InProgress(w.s.upgrade) then 0 else Pending(w.s)) <= w.approvals
  }

  // ---- one pass

  ghost predicate WorkGood(trace: seq<Record>, before: State, w: Work) {
    var rec := w.rec;
    && (rec.deleted != [] || rec.swapped ==> Restarting(trace) && Stopped(trace))
    && (rec.startCalled ==> Restarting(trace) && Stopped(trace) && PodsUp(trace))
    && (rec.ended == Some(true) ==> Restarting(trace) && rec.verified.Some? && AllJoined(rec.verified.value))
    && (rec.began ==> !Restarting(trace))
    && (rec.active ==> InProgress(w.s.upgrade)) && Heeded(rec)
    && rec.stored && StageInv(trace + [rec], w.s)
    && Pending(w.s) <= Pending(before)
    && (rec.began ==> Pending(before) >= 1)
    && (rec.ended.Some? && !w.err ==> Pending(w.s) == 0)
    && (InProgress(before.upgrade) && !w.err ==> InProgress(w.s.upgrade) || Pending(w.s) == 0)
    && (!rec.began && !InProgress(before.upgrade) ==> !InProgress(w.s.upgrade))
    && (rec.began && !InProgress(w.s.upgrade) && !w.err ==> Pending(w.s) == 0)
  }

  lemma Extend(trace: seq<Record>, rec: Record)
    ensures BeginOf(trace + [rec]) == if Ends(rec) then None else if Begins(rec) then Some(rec) else BeginOf(trace)
    ensures Stopped(trace + [rec]) == (!Ends(rec) && (StopSucceeded(rec) || (!Begins(rec) && Stopped(trace))))
    ensures PodsUp(trace + [rec]) == (!Ends(rec) && (PodsSeenReady(rec) || (!Begins(rec) && PodsUp(trace))))
    ensures Begun(trace + [rec]) == Begun(trace) + if Begins(rec) then 1 else 0
  {
    assert (trace + [rec])[..|trace|] == trace;
  }

  /** The working copy a step of a restart starts from: the stored one, or one that just began. */
  ghost predicate Entering(trace: seq<Record>, before: State, s: State, i: Input, rec: Record) {
    && StageInv(trace, before) && InProgress(s.upgrade) && i.rendered > 0
    && s.(upgrade := before.upgrade) == before
    && rec == Blank(before, i).(active := true, began := rec.began)
    && (!rec.began ==> s == before)
    && (rec.began ==> !InProgress(before.upgrade) && s.upgrade.value.stage == Stopping
                      && s.upgrade.value.startedAt == Some(i.now) && Pending(before) >= 1)
  }

  /** Ending a restart: only the Jobs and what the record says of this pass may have changed before. */
  lemma EndGood(trace: seq<Record>, before: State, s: State, s': State, i: Input, rec: Record, rec': Record,
      completed: bool)
    requires Entering(trace, before, s, i, rec)
    requires s' == s.(box := s'.box, secret := s'.secret, previous := s'.previous, bundle := s'.bundle)
    requires rec'.(stop := None, stopId := 0, verified := None, startCalled := false, start := None,
                   backedUp := false) == rec
    requires rec'.stop.Some? ==> !Accepted(rec'.stop.value) && !completed
    requires rec'.start.Some? ==> !Accepted(rec'.start.value) && !completed
    requires rec'.startCalled ==> Restarting(trace) && Stopped(trace) && PodsUp(trace)
    requires completed ==> Restarting(trace) && rec'.verified.Some? && AllJoined(rec'.verified.value)
    ensures WorkGood(trace, before, End(s', i, rec', completed))
  {
    Extend(trace, End(s', i, rec', completed).rec);
    hide BeginOf, Stopped, PodsUp, Begun;
  }

  lemma StopGood(trace: seq<Record>, before: State, s: State, i: Input, rec: Record)
    requires Entering(trace, before, s, i, rec) && s.upgrade.value.stage == Stopping
    ensures WorkGood(trace, before, Stop(s, i, rec))
  {
    Extend(trace, Stop(s, i, rec).rec);
    var (b, out) := RunJob(s.box, STOP_JOB, ["system", "stop"], i.fault);
    hide BeginOf, Stopped, PodsUp, Begun, RunJob;
    if out.Done? && !Succeeded(out.answer) {
      EndGood(trace, before, s, s.(box := b), i, rec, rec.(stop := Some(out.answer), stopId := out.id), false);
    }
  }

  lemma UpdateGood(trace: seq<Record>, before: State, s: State, i: Input, rec: Record)
    requires Entering(trace, before, s, i, rec) && s.upgrade.value.stage == Updating
    ensures WorkGood(trace, before, Update(s, i, rec))
  {
    Extend(trace, Update(s, i, rec).rec);
    hide BeginOf, Stopped, PodsUp, Begun, Replace;
    if s.upgrade.value.trigger.CertificateRotation? && !Rotate(s, i.rotate).1 {
      EndGood(trace, before, s, Rotate(s, i.rotate).0, i, rec, rec.(backedUp := BacksUp(s, i.rotate)), false);
    }
  }

  lemma AwaitPodsGood(trace: seq<Record>, before: State, s: State, i: Input, rec: Record)
    requires Entering(trace, before, s, i, rec) && s.upgrade.value.stage == Starting
    ensures WorkGood(trace, before, AwaitPods(s, i, rec))
  {
    Extend(trace, AwaitPods(s, i, rec).rec);
    ReadyCountCounts(i.pods, i.want);
    hide BeginOf, Stopped, PodsUp, Begun, ReadyCount;
  }

  lemma StartGood(trace: seq<Record>, before: State, s: State, i: Input, rec: Record)
    requires Entering(trace, before, s, i, rec) && s.upgrade.value.stage == StartingSystem
    ensures WorkGood(trace, before, Start(s, i, rec))
  {
    Extend(trace, Start(s, i, rec).rec);
    var (b, out) := RunJob(s.box, START_JOB, ["system", "start"], i.fault);
    hide BeginOf, Stopped, PodsUp, Begun, RunJob;
    if out.Done? && !Succeeded(out.answer) {
      var rec' := rec.(startCalled := true, start := Some(out.answer));
      EndGood(trace, before, s, s.(box := b), i, rec, rec', false);
    }
  }

  lemma VerifyGood(trace: seq<Record>, before: State, s: State, i: Input, rec: Record)
    requires Entering(trace, before, s, i, rec) && s.upgrade.value.stage == Verifying
    ensures WorkGood(trace, before, Verify(s, i, rec))
  {
    Extend(trace, Verify(s, i, rec).rec);
    var (b, out) := RunJob(s.box, VERIFY_JOB, ["system", "query", "-v"], i.fault);
    hide BeginOf, Stopped, PodsUp, Begun, RunJob;
    if out.Done? && out.answer.Undecodable? {
      EndGood(trace, before, s, s.(box := b), i, rec, rec, false);
    } else if out.Done? && out.answer.Members? && AllJoined(out.answer.states) {
      EndGood(trace, before, s, s.(box := b), i, rec, rec.(verified := Some(out.answer.states)), true);
    }
  }

  lemma AdvanceGood(trace: seq<Record>, before: State, s: State, i: Input, rec: Record)
    requires Entering(trace, before, s, i, rec)
    ensures WorkGood(trace, before, Advance(s, i, rec))
  {
    hide BeginOf, Stopped, PodsUp, Begun, WorkGood, Stop, Update, AwaitPods, Start, Verify, End;
    var u := s.upgrade.value;
    if u.startedAt.Some? && i.now - u.startedAt.value > Timeout(i) {
      EndGood(trace, before, s, s, i, rec, rec, false);
    } else {
      match u.stage
      case Stopping => StopGood(trace, before, s, i, rec);
      case Updating => UpdateGood(trace, before, s, i, rec);
      case Starting => AwaitPodsGood(trace, before, s, i, rec);
      case StartingSystem => StartGood(trace, before, s, i, rec);
      case Verifying => VerifyGood(trace, before, s, i, rec);
    }
  }

  lemma DecideGood(trace: seq<Record>, s: State, i: Input)
    requires StageInv(trace, s) && i.rendered > 0
    ensures WorkGood(trace, s, Decide(s, i, Blank(s, i)))
  {
    var rec := Blank(s, i);
    Extend(trace, Decide(s, i, rec).rec);
    hide BeginOf, Stopped, PodsUp, Begun, Advance;
    if InProgress(s.upgrade) {
      AdvanceGood(trace, s, s, i, rec.(active := true));
    } else if CertsApproved(s, i) {
      AdvanceGood(trace, s, s.(upgrade := Some(Upgrade(CertificateRotation, Stopping, Some(i.now)))), i,
                  rec.(active := true, began := true));
    } else if HasStale(i.pods, i.want) && s.approved {
      AdvanceGood(trace, s, s.(upgrade := Some(Upgrade(ImageChange, Stopping, Some(i.now)))), i,
                  rec.(active := true, began := true));
    }
  }

  // ---- runs

  ghost predicate GoodTrace(trace: seq<Record>) {
    forall k :: 0 <= k < |trace| ==> GoodRecord(trace[..k], trace[k])
  }

  ghost predicate Inv(w: World) { StageInv(w.trace, w.s) && Covered(w) && GoodTrace(w.trace) }

  lemma AppendGood(trace: seq<Record>, rec: Record)
    requires GoodTrace(trace) && GoodRecord(trace, rec)
    ensures GoodTrace(trace + [rec])
  {
    var longer := trace + [rec];
    forall k | 0 <= k < |longer| ensures GoodRecord(longer[..k], longer[k]) {
      assert longer[..k] == trace[..k];
      if k == |trace| { assert trace[..k] == trace; }
    }
  }

  /** What a pass that reached the restart stores keeps every part of the invariant. */
  lemma StoreGood(w: World, i: Input, d: Work)
    requires Inv(w) && WorkGood(w.trace, w.s, d)
    ensures var (s, rec) := Store(w.s, d, i);
      StageInv(w.trace + [rec], s) && GoodRecord(w.trace, rec) && Covered(World(s, w.approvals, w.trace + [rec]))
  {
    var (s, rec) := Store(w.s, d, i);
    Extend(w.trace, rec);
    Extend(w.trace, d.rec);
    hide BeginOf, Stopped, PodsUp, Begun, GoodTrace;
  }

  lemma PassKeepsInv(w: World, i: Input)
    requires Inv(w)
    ensures Inv(Apply(w, Reconcile(i)))
  {
    var (s, rec) := Pass(w.s, i);
    Extend(w.trace, rec);
    hide BeginOf, Stopped, PodsUp, Begun;
    if i.enabled && i.rendered > 0 && !i.podListFails {
      DecideGood(w.trace, w.s, i);
      StoreGood(w, i, Decide(w.s, i, Blank(w.s, i)));
    }
    AppendGood(w.trace, rec);
  }

  lemma {:induction false} RunInv(steps: seq<Step>)
    ensures Inv(Run(steps))
  {
    if steps != [] {
      var w := Run(steps[..|steps| - 1]);
      RunInv(steps[..|steps| - 1]);
      var step := steps[|steps| - 1];
      if step.Reconcile? { PassKeepsInv(w, step.i); }
    }
  }

  ghost predicate Reachable(w: World) { exists steps :: Run(steps) == w }

  lemma ReachableInv(w: World)
    requires Reachable(w)
    ensures Inv(w)
  {
    var steps :| Run(steps) == w;
    RunInv(steps);
  }

  /** Approval accounting: over every run, the restarts begun never outnumber the approvals humans gave,
      whichever patches and status writes fail. */
  lemma RestartsNeedApprovals(w: World)
    requires Reachable(w)
    ensures Begun(w.trace) <= w.approvals
  {
    ReachableInv(w);
  }

  // ---- theorems about every trace

  ghost predicate IsTrace(trace: seq<Record>) { exists steps :: Run(steps).trace == trace }

  lemma TracesAreGood(trace: seq<Record>)
    requires IsTrace(trace)
    ensures GoodTrace(trace)
  {
    var steps :| Run(steps).trace == trace;
    RunInv(steps);
  }

  /** Passes b to j belong to one restart: b began it, and none of them ended it or began another. */
  ghost predicate OneRestart(trace: seq<Record>, b: nat, j: nat) {
    b <= j < |trace| && Begins(trace[b]) && forall k :: b <= k <= j ==> !Ends(trace[k]) && (k > b ==> !Begins(trace[k]))
  }

  lemma {:induction false} RestartOf(trace: seq<Record>, j: nat) returns (b: nat)
    requires j < |trace| && Restarting(trace[..j + 1])
    ensures OneRestart(trace, b, j) && BeginOf(trace[..j + 1]) == Some(trace[b])
  {
    assert trace[..j + 1][..j] == trace[..j] && trace[..0] == [];
    if Begins(trace[j]) {
      b := j;
    } else {
      assert BeginOf(trace[..j]).Some?;
      b := RestartOf(trace, j - 1);
    }
  }

  lemma {:induction false} StopOf(trace: seq<Record>, b: nat, j: nat) returns (k: nat)
    requires OneRestart(trace, b, j) && Stopped(trace[..j + 1])
    ensures b <= k <= j && StopSucceeded(trace[k])
  {
    assert trace[..j + 1][..j] == trace[..j];
    if StopSucceeded(trace[j]) { k := j; } else { k := StopOf(trace, b, j - 1); }
  }

  lemma {:induction false} PodsUpOf(trace: seq<Record>, b: nat, j: nat) returns (k: nat)
    requires OneRestart(trace, b, j) && PodsUp(trace[..j + 1])
    ensures b <= k <= j && PodsSeenReady(trace[k])
  {
    assert trace[..j + 1][..j] == trace[..j];
    if PodsSeenReady(trace[j]) { k := j; } else { k := PodsUpOf(trace, b, j - 1); }
  }

  /** Pods are deleted and the certificate Secret is swapped only after `dmg system stop` succeeded in the
      same restart. */
  lemma ReplacedOnlyWhenStopped(trace: seq<Record>, j: nat) returns (b: nat, k: nat)
    requires IsTrace(trace) && j < |trace| && (trace[j].deleted != [] || trace[j].swapped)
    ensures b <= k < j && OneRestart(trace, b, j - 1) && StopSucceeded(trace[k])
  {
    TracesAreGood(trace);
    assert GoodRecord(trace[..j], trace[j]);
    assert trace[..0] == [];
    b := RestartOf(trace, j - 1);
    k := StopOf(trace, b, j - 1);
  }

  /** `dmg system start` is called only after the same restart was stopped and a pass of it saw at least as
      many ready pods on the wanted image as there are rendered nodes. */
  lemma StartedOnlyWhenPodsUp(trace: seq<Record>, j: nat) returns (b: nat, k: nat, l: nat)
    requires IsTrace(trace) && j < |trace| && trace[j].startCalled
    ensures b <= k < j && OneRestart(trace, b, j - 1) && StopSucceeded(trace[k])
    ensures b <= l < j && PodsSeenReady(trace[l])
  {
    TracesAreGood(trace);
    assert GoodRecord(trace[..j], trace[j]);
    assert trace[..0] == [];
    b := RestartOf(trace, j - 1);
    k := StopOf(trace, b, j - 1);
    l := PodsUpOf(trace, b, j - 1);
  }

  /** For every pass of every run that reads the answer of a stop or start Job: it replaces nothing, and it ends the
      restart as failed if and only if dmg gave no readable answer or an error. */
  lemma FailedAnswersEndRestart(trace: seq<Record>, j: nat)
    requires IsTrace(trace) && j < |trace| && (trace[j].stop.Some? || trace[j].start.Some?)
    ensures trace[j].deleted == [] && !trace[j].swapped
    ensures trace[j].stop.Some? ==>
      (trace[j].ended == Some(false) <==> trace[j].stop.value.Unreadable? || trace[j].stop.value.DmgError?)
    ensures trace[j].start.Some? ==>
      (trace[j].ended == Some(false) <==> trace[j].start.value.Unreadable? || trace[j].start.value.DmgError?)
  {
    TracesAreGood(trace);
    assert GoodRecord(trace[..j], trace[j]);
  }

  /** A restart completes only on a member list that is not empty and has every rank joined. */
  lemma CompletedMeansJoined(trace: seq<Record>, j: nat)
    requires IsTrace(trace) && j < |trace| && trace[j].ended == Some(true)
    ensures trace[j].verified.Some? && trace[j].verified.value != []
    ensures forall k :: 0 <= k < |trace[j].verified.value| ==> trace[j].verified.value[k] == "joined"
  {
    TracesAreGood(trace);
    assert GoodRecord(trace[..j], trace[j]);
  }

  /** No restart begins while one runs. */
  lemma RestartsDoNotOverlap(trace: seq<Record>, b: nat, j: nat)
    requires IsTrace(trace) && OneRestart(trace, b, j) && j + 1 < |trace|
    ensures !trace[j + 1].began
  {
    TracesAreGood(trace);
    assert GoodRecord(trace[..j + 1], trace[j + 1]);
    RestartingWithin(trace, b, j);
  }

  lemma {:induction false} RestartingWithin(trace: seq<Record>, b: nat, j: nat)
    requires OneRestart(trace, b, j)
    ensures Restarting(trace[..j + 1])
  {
    assert trace[..j + 1][..j] == trace[..j];
    if b < j { RestartingWithin(trace, b, j - 1); }
  }

  /** A pass made later than the timeout after the restart began does nothing but end it as failed, and it
      stays recorded as running only if a patch or the status write of that very pass failed. */
  lemma TimeoutEndsRestart(w: World, i: Input)
    requires Reachable(w) && i.enabled && i.rendered > 0 && !i.podListFails
    requires Restarting(w.trace)
    requires
      var minutes := if i.timeoutMinutes > 0 then i.timeoutMinutes else 30;
      i.now - BeginOf(w.trace).value.now > minutes * 60_000_000_000
    ensures var s := w.s;
      var (s', rec) := Pass(s, i);
      && rec.ended == Some(false) && rec.deleted == [] && !rec.swapped && !rec.startCalled && s'.box == s.box
      && (InProgress(s'.upgrade) <==> i.writeFails || (s.approved && i.resetFails) || (s.certs.Some? && i.clearFails))
  {
    ReachableInv(w);
    hide Reachable, BeginOf, GoodTrace, Stop, Update, AwaitPods, Start, Verify, Stopped, PodsUp, Begun;
  }
}
