/** What the certificate backup holds, told by what the passes of a restart were given: the API calls that fail,
    the time, and the Secret. */
module BackupRuns {
  import opened Text
  import opened DaosStatus
  import opened Mailbox
  import opened FullStop
  import opened FullStopRuns
  import opened FullStopEdges

  /** What the passes of a run were given, in the order of its trace. */
  function Inputs(steps: seq<Step>): seq<Input> {
    if steps == [] then []
    else Inputs(steps[..|steps| - 1]) + if steps[|steps| - 1].Reconcile? then [steps[|steps| - 1].i] else []
  }

  /** A pod has to be deleted and cannot be. */
  ghost predicate Undeletable(i: Input) { exists p :: p in i.pods && !p.deleting && p.name in i.undeletable }

  /** A pass that swaps certificates cannot put it on record. */
  ghost predicate Blocked(i: Input) { Undeletable(i) || i.writeFails }

  /** The pass gets to a restart begun at this time before it is over. */
  predicate InTime(i: Input, begun: int) {
    i.enabled && i.rendered > 0 && !i.podListFails && i.now - begun <= Timeout(i)
  }

  /** It can also read the Secret and write its backup. */
  predicate CanBackUp(i: Input, secret: Option<nat>, begun: int) {
    InTime(i, begun) && secret.Some? && !i.rotate.BackupFails?
  }

  // ---- one pass

  lemma {:induction false} ReplaceAll(pods: seq<Pod>, want: string, undeletable: set<string>)
    ensures Replace(pods, true, want, undeletable).1 <==> !exists p :: p in pods && !p.deleting && p.name in undeletable
  {
    if pods != [] {
      ReplaceAll(pods[1..], want, undeletable);
      assert pods == [pods[0]] + pods[1..];
      assert pods[0] in pods;
    }
  }

  ghost predicate Rotating(s: State, begun: int) {
    s.upgrade == Some(Upgrade(CertificateRotation, Updating, Some(begun)))
  }

  /** What a pass makes of a rotation about to swap. */
  ghost predicate SwapOutcome(s: State, i: Input, begun: int, s': State, rec: Record) {
    && (rec.backedUp <==> CanBackUp(i, s.secret, begun)) && !rec.began
    && (rec.swapped ==> (rec.stored <==> !Blocked(i)))
    && (!Ends(rec) && !(rec.stored && rec.swapped) ==> s'.upgrade == s.upgrade)
  }

  lemma SwapWork(s: State, i: Input, rec: Record)
    requires s.upgrade.Some? && rec == Blank(s, i).(active := true)
    ensures var w := Swap(s, i, rec);
      && (w.rec.backedUp <==> s.secret.Some? && !i.rotate.BackupFails?) && !w.rec.began && w.rec.stored
      && (w.rec.swapped ==> (w.err <==> Undeletable(i)) && w.rec.ended.None?)
      && (!w.rec.swapped ==> w.rec.ended.Some?)
  {
    ReplaceAll(i.pods, i.want, i.undeletable);
    hide Replace;
  }

  lemma SwapPass(s: State, i: Input, begun: int)
    requires Rotating(s, begun)
    ensures SwapOutcome(s, i, begun, Pass(s, i).0, Pass(s, i).1)
  {
    hide Undeletable, Swap;
    if InTime(i, begun) { SwapWork(s, i, Blank(s, i).(active := true)); }
  }

  lemma OnlyRotations(s: State, i: Input)
    requires Pass(s, i).1.backedUp
    ensures s.upgrade.Some? && s.upgrade.value.stage == Updating && s.upgrade.value.trigger == CertificateRotation
  {
    DecideEffects(s, i);
    hide Replace, Swap, RunJob, HasStale;
  }

  // ---- runs

  /** What the pass that swapped first, in the restart begun last, was given. */
  ghost function FirstInput(trace: seq<Record>, ins: seq<Input>): Option<Input>
    requires |ins| == |trace|
  {
    if trace == [] then None
    else
      var n := |trace| - 1;
      var before := if Begins(trace[n]) then None else FirstInput(trace[..n], ins[..n]);
      if before.Some? then before else if trace[n].swapped then Some(ins[n]) else None
  }

  /** A later pass of that restart, the one that ended it included, was in time, with a Secret to read and a backup
      to write. */
  ghost predicate TriedAgain(trace: seq<Record>, ins: seq<Input>)
    requires |ins| == |trace|
  {
    trace != [] &&
    var n := |trace| - 1;
    !Begins(trace[n]) &&
    (TriedAgain(trace[..n], ins[..n])
     || (FirstInput(trace[..n], ins[..n]).Some? && BeginOf(trace[..n]).Some?
         && CanBackUp(ins[n], trace[n].secret, BeginOf(trace[..n]).value.now)))
  }

  lemma ExtendTold(trace: seq<Record>, ins: seq<Input>, rec: Record, i: Input)
    requires |ins| == |trace|
    ensures FirstInput(trace + [rec], ins + [i]) ==
      var before := if Begins(rec) then None else FirstInput(trace, ins);
      if before.Some? then before else if rec.swapped then Some(i) else None
    ensures TriedAgain(trace + [rec], ins + [i]) <==>
      && !Begins(rec)
      && (TriedAgain(trace, ins)
          || (FirstInput(trace, ins).Some? && BeginOf(trace).Some?
              && CanBackUp(i, rec.secret, BeginOf(trace).value.now)))
  {
    assert (trace + [rec])[..|trace|] == trace && (ins + [i])[..|ins|] == ins;
  }

  ghost predicate ToldInv(trace: seq<Record>, ins: seq<Input>, s: State) {
    && |ins| == |trace|
    && (FirstInput(trace, ins).Some? <==> FirstSwap(trace).Some?)
    && (BackedUpAgain(trace) ==> FirstSwap(trace).Some?) && (TriedAgain(trace, ins) ==> FirstSwap(trace).Some?)
    && (FirstSwap(trace).Some? ==>
          var blocked := Blocked(FirstInput(trace, ins).value);
          && (BackedUpAgain(trace) <==> blocked && TriedAgain(trace, ins))
          && (blocked && !TriedAgain(trace, ins) && BeginOf(trace).Some? ==> Rotating(s, BeginOf(trace).value.now))
          && (!blocked ==> SwapStored(trace)))
  }

  /** What a pass does that matters here. */
  ghost predicate PassOutcome(trace: seq<Record>, s: State, i: Input, s': State, rec: Record) {
    && rec.secret == s.secret && (rec.swapped ==> rec.backedUp && s.secret.Some?)
    && (rec.backedUp ==> BeginOf(trace).Some? && Rotating(s, BeginOf(trace).value.now))
    && (rec.swapped ==> !Begins(rec))
    && (BeginOf(trace).Some? && Rotating(s, BeginOf(trace).value.now) ==>
          SwapOutcome(s, i, BeginOf(trace).value.now, s', rec))
  }

  lemma PassTold(w: World, i: Input)
    requires Inv(w)
    ensures PassOutcome(w.trace, w.s, i, Pass(w.s, i).0, Pass(w.s, i).1)
  {
    var (s', rec) := Pass(w.s, i);
    DecideEffects(w.s, i);
    assert rec.secret == w.s.secret && (rec.swapped ==> rec.backedUp && w.s.secret.Some?);
    if rec.backedUp { OnlyRotations(w.s, i); }
    hide Pass, SwapOutcome, BeginOf, Stopped, PodsUp, GoodTrace, Begun;
    if BeginOf(w.trace).Some? && Rotating(w.s, BeginOf(w.trace).value.now) {
      SwapPass(w.s, i, BeginOf(w.trace).value.now);
    }
  }

  lemma TellPass(trace: seq<Record>, ins: seq<Input>, s: State, i: Input, s': State, rec: Record)
    requires ToldInv(trace, ins, s) && PassOutcome(trace, s, i, s', rec) && (SwapStored(trace) ==> !rec.backedUp)
    ensures ToldInv(trace + [rec], ins + [i], s')
  {
    BackupExtend(trace, rec);
    ExtendTold(trace, ins, rec, i);
    Extend(trace, rec);
    hide FirstSwap, BackedUpAgain, SwapStored, FirstInput, TriedAgain, BeginOf, Stopped, PodsUp, Begun, Undeletable,
         InTime;
  }

  lemma {:induction false} RunTold(steps: seq<Step>)
    ensures ToldInv(Run(steps).trace, Inputs(steps), Run(steps).s)
  {
    if steps != [] {
      var before := steps[..|steps| - 1];
      var w := Run(before);
      var step := steps[|steps| - 1];
      RunTold(before);
      RunInv(before);
      RunBackup(before);
      hide Pass, FirstSwap, BackedUpAgain, SwapStored, FirstInput, TriedAgain, BeginOf, Inv, PassOutcome;
      if step.Reconcile? {
        PassTold(w, step.i);
        BackupStore(w, step.i);
        hide ToldInv;
        TellPass(w.trace, Inputs(before), w.s, step.i, Pass(w.s, step.i).0, Pass(w.s, step.i).1);
      } else {
        assert Inputs(before) + [] == Inputs(before);
        assert Run(steps).trace == w.trace && Run(steps).s.upgrade == w.s.upgrade;
      }
    }
  }

  /** In every run, from the first swap of a restart until another restart begins, whether it still runs or has
      ended: the backup Secret no longer holds the bundle that swap replaced if and only if, in the pass of that
      swap, a pod could not be deleted or the status not be written, and a later pass of the restart was in time
      with a readable Secret and a backup it could write. */
  lemma BackupHoldsOriginal(steps: seq<Step>)
    requires FirstSwap(Run(steps).trace).Some?
    ensures |Inputs(steps)| == |Run(steps).trace| && FirstInput(Run(steps).trace, Inputs(steps)).Some?
    ensures Run(steps).s.previous != FirstSwap(Run(steps).trace) <==>
      Blocked(FirstInput(Run(steps).trace, Inputs(steps)).value) && TriedAgain(Run(steps).trace, Inputs(steps))
  {
    RunTold(steps);
    assert Reachable(Run(steps));
    hide Run, FirstSwap, BackedUpAgain, SwapStored, FirstInput, TriedAgain, BeginOf, Reachable;
    BackupOrAgain(Run(steps));
  }

  /** A real run with an ended restart: a pod cannot be deleted in the pass of the swap, and the next pass writes the
      backup, cannot write the new bundle, and records the failure. The original bundle is lost. */
  lemma LastPassLosesOriginal() returns (steps: seq<Step>)
    ensures var w := Run(steps);
      && FirstSwap(w.trace) == Some(0) && w.s.previous == Some(1)
      && w.s.upgrade.Some? && w.s.upgrade.value.stage == Failed
  {
    var held := Reconcile(PassAt(2, {"server-0"}));
    var last := Reconcile(PassAt(3, {}).(rotate := UpdateFails));
    steps := STOPPED + [held, last];
    AfterStop();
    RunMore(STOPPED, held, last);
    hide Run;
    var w0 := Run(STOPPED);
    var w1 := Apply(w0, held);
    assert Replace([OLD_POD], true, "new", {"server-0"}) == ([], false);
    assert w1.s.secret == Some(1) && w1.s.bundle == 2 && w1.s.upgrade == w0.s.upgrade;
    BackupExtend(w0.trace, w1.trace[2]);
    BackupExtend(w1.trace, Apply(w1, last).trace[3]);
  }
}
