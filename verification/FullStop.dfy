/** The full-stop restart (internal/controller/daossystem_upgrade.go) and the certificate swap it carries
    (internal/controller/daossystem_certs.go): stop the system, replace pods and certificates, wait for
    the pods, start the system, and check that every rank joined. */
module FullStop {
  import opened Text
  import opened DaosStatus
  import opened Mailbox

  const STOP_JOB := "-dmg-stop"
  const START_JOB := "-dmg-start"
  const VERIFY_JOB := "-dmg-verify"

  datatype Trigger = ImageChange | CertificateRotation

  datatype Stage = Waiting | Stopping | Updating | Starting | StartingSystem | Verifying | Completed | Failed

  datatype Upgrade = Upgrade(trigger: Trigger, stage: Stage, startedAt: Option<int>)

  /** A finished dmg Job: nothing readable, a dmg error, a payload that is no member list, or the states
      of the members. */
  datatype Answer = Unreadable | DmgError | Undecodable | Members(states: seq<string>)

  /** `dmg system stop` and `start` only look for an error. */
  predicate Succeeded(a: Answer) { !a.Unreadable? && !a.DmgError? }

  /** What the cluster stores: the recorded restart, the two approvals, the certificate Secret and its
      backup (bundles are numbered, bundle is the next unused number), and the Jobs. */
  datatype State = State(
    upgrade: Option<Upgrade>, approved: bool, certs: Option<string>,
    secret: Option<nat>, previous: Option<nat>, bundle: nat, box: Box<Answer>)

  datatype RotateFault = RotateOk | BackupFails | UpdateFails

  /** What one pass sees, and which of its API calls fail. */
  datatype Input = Input(
    now: int, enabled: bool, rendered: nat, pods: seq<Pod>, podListFails: bool, want: string,
    tls: bool, timeoutMinutes: int, fault: Fault, undeletable: set<string>, rotate: RotateFault,
    resetFails: bool, clearFails: bool, writeFails: bool)

  /** What one pass did: the answers of the stop and start Jobs it read, and the pods it waited for. began, ended
      and the stored stage count only when the status was stored; deletions, the swap and Jobs are effects either
      way. */
  datatype Record = Record(
    stored: bool, active: bool, now: int, rendered: nat, want: string,
    nextId: nat, stopOpen: bool, secret: Option<nat>,
    began: bool, stop: Option<Answer>, stopId: nat, backedUp: bool, swapped: bool, deleted: seq<Pod>,
    awaited: Option<seq<Pod>>, startCalled: bool, start: Option<Answer>, verified: Option<seq<string>>,
    ended: Option<bool>, stopSent: bool)

  predicate InProgress(u: Option<Upgrade>) {
    u.Some? && u.value.stage in {Stopping, Updating, Starting, StartingSystem, Verifying}
  }

  function Timeout(i: Input): int { if i.timeoutMinutes > 0 then i.timeoutMinutes * MINUTE else 30 * MINUTE }

  predicate CertsApproved(s: State, i: Input) { i.tls && s.certs == Some("true") }

  predicate IsStale(p: Pod, want: string) { p.image != "" && p.image != want }

  predicate HasStale(pods: seq<Pod>, want: string) { exists k :: 0 <= k < |pods| && IsStale(pods[k], want) }

  predicate IsReady(p: Pod, want: string) { p.image == want && p.ready && !p.deleting }

  function ReadyCount(pods: seq<Pod>, want: string): nat {
    if pods == [] then 0
    else ReadyCount(pods[..|pods| - 1], want) + if IsReady(pods[|pods| - 1], want) then 1 else 0
  }

  predicate AllJoined(states: seq<string>) { states != [] && forall k :: 0 <= k < |states| ==> states[k] == JOINED }

  /** The pods the Updating stage deletes, in order, until one delete fails. */
  function Replace(pods: seq<Pod>, all: bool, want: string, undeletable: set<string>): (r: (seq<Pod>, bool)) {
    if pods == [] then ([], true)
    else
      var p := pods[0];
      if p.deleting || (!all && p.image == want) then Replace(pods[1..], all, want, undeletable)
      else if p.name in undeletable then ([], false)
      else
        var (rest, ok) := Replace(pods[1..], all, want, undeletable);
        ([p] + rest, ok)
  }

  /** `rotateCerts`: back the bundle up, then write a new one. */
  function Rotate(s: State, fault: RotateFault): (r: (State, bool)) {
    if s.secret.None? || fault.BackupFails? then (s, false)
    else if fault.UpdateFails? then (s.(previous := s.secret), false)
    else (s.(previous := s.secret, secret := Some(s.bundle), bundle := s.bundle + 1), true)
  }

  /** The backup Secret is written, whatever happens to the new bundle. */
  predicate BacksUp(s: State, fault: RotateFault) { s.secret.Some? && !fault.BackupFails? }

  /** Both approvals are one-shot; the flag is false when a patch failed on the way. */
  function Consume(s: State, i: Input): (r: (State, bool)) {
    if s.approved && i.resetFails then (s, false)
    else if s.certs.Some? && i.clearFails then (s.(approved := false), false)
    else (s.(approved := false, certs := None), true)
  }

  /** A pass on the working copy of the status: the new state, its record, and whether it ended in an
      error, which leaves the stored status as it was. */
  datatype Work = Work(s: State, rec: Record, err: bool)

  function SetStage(s: State, stage: Stage): State
    requires s.upgrade.Some?
  {
    s.(upgrade := Some(s.upgrade.value.(stage := stage)))
  }

  function End(s: State, i: Input, rec: Record, completed: bool): Work
    requires s.upgrade.Some?
  {
    var (s', ok) := Consume(SetStage(s, if completed then Completed else Failed), i);
    Work(s', rec.(ended := Some(completed), active := false), !ok)
  }

  function Stop(s: State, i: Input, rec: Record): Work
    requires s.upgrade.Some?
  {
    var (b, out) := RunJob(s.box, STOP_JOB, ["system", "stop"], i.fault);
    var s' := s.(box := b);
    match out
    case ApiError => Work(s', rec, true)
    case Pending => Work(s', rec.(stopSent := b.nextId > s.box.nextId), false)
    case Done(id, _, answer) =>
      var rec' := rec.(stop := Some(answer), stopId := id);
      if Succeeded(answer) then Work(SetStage(s', Updating), rec', false) else End(s', i, rec', false)
  }

  function ReplacePods(s: State, i: Input, rec: Record, all: bool): Work
    requires s.upgrade.Some?
  {
    var (gone, ok) := Replace(i.pods, all, i.want, i.undeletable);
    var rec' := rec.(deleted := gone);
    if ok then Work(SetStage(s, Starting), rec', false) else Work(s, rec', true)
  }

  /** A rotation swaps the certificates before it replaces every pod. */
  function Swap(s: State, i: Input, rec: Record): Work
    requires s.upgrade.Some?
  {
    var (s', ok) := Rotate(s, i.rotate);
    var rec' := rec.(backedUp := BacksUp(s, i.rotate), swapped := ok);
    if ok then ReplacePods(s', i, rec', true) else End(s', i, rec', false)
  }

  function Update(s: State, i: Input, rec: Record): Work
    requires s.upgrade.Some?
  {
    if s.upgrade.value.trigger.CertificateRotation? then Swap(s, i, rec) else ReplacePods(s, i, rec, false)
  }

  function AwaitPods(s: State, i: Input, rec: Record): Work
    requires s.upgrade.Some?
  {
    var n := ReadyCount(i.pods, i.want);
    var rec' := rec.(awaited := Some(i.pods));
    if n < i.rendered then Work(s, rec', false) else Work(SetStage(s, StartingSystem), rec', false)
  }

  function Start(s: State, i: Input, rec: Record): Work
    requires s.upgrade.Some?
  {
    var (b, out) := RunJob(s.box, START_JOB, ["system", "start"], i.fault);
    var s' := s.(box := b);
    var rec' := rec.(startCalled := true);
    match out
    case ApiError => Work(s', rec', true)
    case Pending => Work(s', rec', false)
    case Done(_, _, answer) =>
      var rec1 := rec.(startCalled := true, start := Some(answer));
      if Succeeded(answer) then Work(SetStage(s', Verifying), rec1, false) else End(s', i, rec1, false)
  }

  function Verify(s: State, i: Input, rec: Record): Work
    requires s.upgrade.Some?
  {
    var (b, out) := RunJob(s.box, VERIFY_JOB, ["system", "query", "-v"], i.fault);
    var s' := s.(box := b);
    match out
    case ApiError => Work(s', rec, true)
    case Pending => Work(s', rec, false)
    case Done(_, _, answer) =>
      match answer
      case Unreadable => Work(s', rec, false)
      case DmgError => Work(s', rec, false)
      case Undecodable => End(s', i, rec, false)
      case Members(states) =>
        var rec' := rec.(verified := Some(states));
        if AllJoined(states) then End(s', i, rec', true) else Work(s', rec', false)
  }

  /** One step of a restart in progress. */
  function Advance(s: State, i: Input, rec: Record): Work
    requires InProgress(s.upgrade)
  {
    var u := s.upgrade.value;
    if u.startedAt.Some? && i.now - u.startedAt.value > Timeout(i) then End(s, i, rec, false)
    else
      match u.stage
      case Stopping => Stop(s, i, rec)
      case Updating => Update(s, i, rec)
      case Starting => AwaitPods(s, i, rec)
      case StartingSystem => Start(s, i, rec)
      case Verifying => Verify(s, i, rec)
  }

  /** Nothing to replace: a waiting upgrade is forgotten and an approval with nothing stale dropped. */
  function UpToDate(s: State, i: Input, rec: Record): Work {
    var s' := if s.upgrade.Some? && s.upgrade.value.stage.Waiting? then s.(upgrade := None) else s;
    if i.pods != [] && s.approved then
      if i.resetFails then Work(s', rec, true) else Work(s'.(approved := false), rec, false)
    else Work(s', rec, false)
  }

  function Decide(s: State, i: Input, rec: Record): Work {
    if InProgress(s.upgrade) then Advance(s, i, rec.(active := true))
    else if CertsApproved(s, i) then
      Advance(s.(upgrade := Some(Upgrade(CertificateRotation, Stopping, Some(i.now)))), i,
              rec.(active := true, began := true))
    else if !HasStale(i.pods, i.want) then UpToDate(s, i, rec)
    else if !s.approved then
      Work(if s.upgrade.Some? && s.upgrade.value.stage.Waiting? then s
           else s.(upgrade := Some(Upgrade(ImageChange, Waiting, None))),
           rec, false)
    else
      Advance(s.(upgrade := Some(Upgrade(ImageChange, Stopping, Some(i.now)))), i, rec.(active := true, began := true))
  }

  function Blank(s: State, i: Input): Record {
    Record(true, false, i.now, i.rendered, i.want, s.box.nextId, s.box.Open(STOP_JOB), s.secret,
           false, None, 0, false, false, [], None, false, None, None, None, false)
  }

  /** The status is stored only when the pass had no error and the write went through. */
  function Store(before: State, w: Work, i: Input): (r: (State, Record)) {
    if w.err || i.writeFails then (w.s.(upgrade := before.upgrade), w.rec.(stored := false)) else (w.s, w.rec)
  }

  /** One pass over the restart part of a DaosSystem. */
  function Pass(s: State, i: Input): (r: (State, Record)) {
    if !i.enabled || i.rendered == 0 then (s, Blank(s, i))
    else if i.podListFails then (s, Blank(s, i).(stored := false))
    else Store(s, Decide(s, i, Blank(s, i)), i)
  }

  // ---- the controller

  method AnyStale(pods: seq<Pod>, want: string) returns (stale: seq<string>)
    ensures stale != [] <==> HasStale(pods, want)
  {
    stale := [];
    for k := 0 to |pods|
      invariant stale != [] <==> exists j :: 0 <= j < k && IsStale(pods[j], want)
    {
      if pods[k].image != "" && pods[k].image != want { stale := stale + [pods[k].image]; }
    }
  }

  method CountReady(pods: seq<Pod>, want: string) returns (n: nat)
    ensures n == ReadyCount(pods, want)
  {
    n := 0;
    for k := 0 to |pods|
      invariant n == ReadyCount(pods[..k], want)
    {
      assert pods[..k + 1][..k] == pods[..k];
      if pods[k].image == want && pods[k].ready && !pods[k].deleting { n := n + 1; }
    }
    assert pods[..|pods|] == pods;
  }

  method NotJoined(states: seq<string>) returns (missing: seq<string>)
    ensures states != [] && missing == [] <==> AllJoined(states)
  {
    missing := [];
    for k := 0 to |states|
      invariant missing == [] <==> forall j :: 0 <= j < k ==> states[j] == JOINED
    {
      if states[k] != JOINED { missing := missing + [states[k]]; }
    }
  }

  lemma ReplaceFrom(pods: seq<Pod>, k: nat, all: bool, want: string, undeletable: set<string>)
    requires k < |pods|
    ensures var rest := Replace(pods[k + 1..], all, want, undeletable);
      Replace(pods[k..], all, want, undeletable) ==
        (if pods[k].deleting || (!all && pods[k].image == want) then rest
         else if pods[k].name in undeletable then ([], false)
         else ([pods[k]] + rest.0, rest.1))
  {
    assert pods[k..][1..] == pods[k + 1..];
  }

  method DeletePods(pods: seq<Pod>, all: bool, want: string, undeletable: set<string>)
    returns (gone: seq<Pod>, ok: bool)
    ensures (gone, ok) == Replace(pods, all, want, undeletable)
  {
    gone, ok := [], true;
    assert pods[0..] == pods && pods[|pods|..] == [];
    assert Replace([], all, want, undeletable) == ([], true);
    hide Replace;
    for k := 0 to |pods|
      invariant ok
      invariant Replace(pods, all, want, undeletable).0 == gone + Replace(pods[k..], all, want, undeletable).0
      invariant Replace(pods, all, want, undeletable).1 == Replace(pods[k..], all, want, undeletable).1
    {
      var p := pods[k];
      ReplaceFrom(pods, k, all, want, undeletable);
      if p.deleting || (!all && p.image == want) { continue; }
      if p.name in undeletable {
        assert gone + [] == gone;
        return gone, false;
      }
      gone := gone + [p];
    }
    assert gone + [] == gone;
  }

  class Controller {
    var upgrade: Option<Upgrade>
    var approved: bool
    var certs: Option<string>
    var secret: Option<nat>
    var previous: Option<nat>
    var bundle: nat
    var box: Box<Answer>

    ghost function View(): State
      reads this
    {
      State(upgrade, approved, certs, secret, previous, bundle, box)
    }

    method ResetApproval(fails: bool) returns (ok: bool)
      modifies this`approved
      ensures ok <==> !(old(approved) && fails)
      ensures approved == (old(approved) && fails)
    {
      if !approved { return true; }
      if fails { return false; }
      approved := false;
      ok := true;
    }

    method ClearCertsApproval(fails: bool) returns (ok: bool)
      modifies this`certs
      ensures ok <==> !(old(certs).Some? && fails)
      ensures certs == if ok then None else old(certs)
    {
      if certs.None? { return true; }
      if fails { return false; }
      certs := None;
      ok := true;
    }

    method RotateCerts(fault: RotateFault) returns (ok: bool)
      modifies this`secret, this`previous, this`bundle
      ensures (View(), ok) == Rotate(old(View()), fault)
      ensures upgrade == old(upgrade)
    {
      if secret.None? { return false; }
      var cur := secret;
      if fault.BackupFails? { return false; }
      previous := cur;
      if fault.UpdateFails? { return false; }
      secret, bundle := Some(bundle), bundle + 1;
      ok := true;
    }

    /** `fail` and the completed end: record the outcome and consume both approvals. */
    method Finish(i: Input, rec: Record, completed: bool) returns (rec': Record, err: bool)
      requires upgrade.Some?
      modifies this
      ensures Work(View(), rec', err) == End(old(View()), i, rec, completed)
    {
      upgrade := Some(upgrade.value.(stage := if completed then Completed else Failed));
      rec' := rec.(ended := Some(completed), active := false);
      var ok := ResetApproval(i.resetFails);
      if !ok { return rec', true; }
      ok := ClearCertsApproval(i.clearFails);
      err := !ok;
    }

    method RunStop(i: Input, rec: Record) returns (rec': Record, err: bool)
      requires upgrade.Some?
      modifies this
      ensures Work(View(), rec', err) == Stop(old(View()), i, rec)
    {
      var (b, out) := RunJob(box, STOP_JOB, ["system", "stop"], i.fault);
      var grew := b.nextId > box.nextId;
      box := b;
      rec', err := rec, false;
      match out
      case ApiError => err := true;
      case Pending => rec' := rec.(stopSent := grew);
      case Done(id, _, answer) =>
        rec' := rec.(stop := Some(answer), stopId := id);
        if Succeeded(answer) {
          upgrade := Some(upgrade.value.(stage := Updating));
        } else {
          rec', err := Finish(i, rec', false);
        }
    }

    method RunReplacePods(i: Input, rec: Record, all: bool) returns (rec': Record, err: bool)
      requires upgrade.Some?
      modifies this`upgrade
      ensures Work(View(), rec', err) == ReplacePods(old(View()), i, rec, all)
    {
      var gone, ok := DeletePods(i.pods, all, i.want, i.undeletable);
      rec', err := rec.(deleted := gone), !ok;
      if ok { upgrade := Some(upgrade.value.(stage := Starting)); }
    }

    method RunSwap(i: Input, rec: Record) returns (rec': Record, err: bool)
      requires upgrade.Some?
      modifies this
      ensures Work(View(), rec', err) == Swap(old(View()), i, rec)
    {
      var backedUp := secret.Some? && !i.rotate.BackupFails?;
      var ok := RotateCerts(i.rotate);
      rec' := rec.(backedUp := backedUp, swapped := ok);
      hide End, ReplacePods, Rotate;
      if ok {
        rec', err := RunReplacePods(i, rec', true);
      } else {
        rec', err := Finish(i, rec', false);
      }
    }

    method RunUpdate(i: Input, rec: Record) returns (rec': Record, err: bool)
      requires upgrade.Some?
      modifies this
      ensures Work(View(), rec', err) == Update(old(View()), i, rec)
    {
      hide Swap, ReplacePods;
      if upgrade.value.trigger.CertificateRotation? {
        rec', err := RunSwap(i, rec);
      } else {
        rec', err := RunReplacePods(i, rec, false);
      }
    }

    method RunAwaitPods(i: Input, rec: Record) returns (rec': Record, err: bool)
      requires upgrade.Some?
      modifies this
      ensures Work(View(), rec', err) == AwaitPods(old(View()), i, rec)
    {
      var n := CountReady(i.pods, i.want);
      rec', err := rec.(awaited := Some(i.pods)), false;
      if n >= i.rendered { upgrade := Some(upgrade.value.(stage := StartingSystem)); }
    }

    method RunStart(i: Input, rec: Record) returns (rec': Record, err: bool)
      requires upgrade.Some?
      modifies this
      ensures Work(View(), rec', err) == Start(old(View()), i, rec)
    {
      var (b, out) := RunJob(box, START_JOB, ["system", "start"], i.fault);
      box := b;
      rec', err := rec.(startCalled := true), false;
      match out
      case ApiError => err := true;
      case Pending =>
      case Done(_, _, answer) =>
        rec' := rec.(startCalled := true, start := Some(answer));
        if Succeeded(answer) {
          upgrade := Some(upgrade.value.(stage := Verifying));
        } else {
          rec', err := Finish(i, rec', false);
        }
    }

    method RunVerify(i: Input, rec: Record) returns (rec': Record, err: bool)
      requires upgrade.Some?
      modifies this
      ensures Work(View(), rec', err) == Verify(old(View()), i, rec)
    {
      var (b, out) := RunJob(box, VERIFY_JOB, ["system", "query", "-v"], i.fault);
      box := b;
      rec', err := rec, false;
      match out
      case ApiError => err := true;
      case Pending =>
      case Done(_, _, answer) =>
        if answer.Undecodable? {
          rec', err := Finish(i, rec, false);
        } else if answer.Members? {
          rec' := rec.(verified := Some(answer.states));
          var missing := NotJoined(answer.states);
          if answer.states != [] && missing == [] { rec', err := Finish(i, rec', true); }
        }
    }

    method Step(i: Input, rec: Record) returns (rec': Record, err: bool)
      requires InProgress(upgrade)
      modifies this
      ensures Work(View(), rec', err) == Advance(old(View()), i, rec)
    {
      var u := upgrade.value;
      if u.startedAt.Some? && i.now - u.startedAt.value > Timeout(i) {
        rec', err := Finish(i, rec, false);
        return;
      }
      match u.stage
      case Stopping => rec', err := RunStop(i, rec);
      case Updating => rec', err := RunUpdate(i, rec);
      case Starting => rec', err := RunAwaitPods(i, rec);
      case StartingSystem => rec', err := RunStart(i, rec);
      case Verifying => rec', err := RunVerify(i, rec);
    }

    /** `reconcileUpgrade` on the working copy of the status. */
    method ReconcileUpgrade(i: Input, rec: Record) returns (rec': Record, err: bool)
      modifies this
      ensures Work(View(), rec', err) == Decide(old(View()), i, rec)
    {
      var stale := AnyStale(i.pods, i.want);
      rec', err := rec, false;
      if !InProgress(upgrade) {
        if i.tls && certs == Some("true") {
          upgrade := Some(Upgrade(CertificateRotation, Stopping, Some(i.now)));
        } else if stale == [] {
          if upgrade.Some? && upgrade.value.stage.Waiting? { upgrade := None; }
          if i.pods != [] && approved {
            var ok := ResetApproval(i.resetFails);
            err := !ok;
          }
          return;
        } else if !approved {
          if !(upgrade.Some? && upgrade.value.stage.Waiting?) { upgrade := Some(Upgrade(ImageChange, Waiting, None)); }
          return;
        } else {
          upgrade := Some(Upgrade(ImageChange, Stopping, Some(i.now)));
        }
        rec' := rec'.(began := true);
      }
      rec', err := Step(i, rec'.(active := true));
    }

    /** The restart part of `Reconcile`: an error, or a failed status write, leaves the stored status as it
        was; everything else the pass did stays done. */
    method Reconcile(i: Input) returns (rec: Record)
      modifies this
      ensures (View(), rec) == Pass(old(View()), i)
    {
      rec := Record(true, false, i.now, i.rendered, i.want, box.nextId, box.Open(STOP_JOB), secret,
                    false, None, 0, false, false, [], None, false, None, None, None, false);
      if !i.enabled || i.rendered == 0 { return; }
      if i.podListFails { rec := rec.(stored := false); return; }
      var stored := upgrade;
      var err;
      rec, err := ReconcileUpgrade(i, rec);
      if err || i.writeFails {
        upgrade := stored;
        rec := rec.(stored := false);
      }
    }
  }
}
