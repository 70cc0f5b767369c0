/** Whose format Job a result belongs to: Jobs are found by name, so a whole-system format left over from one
    approval can answer a format of named hosts under the next. */
module FormatAnswers {
  import opened Text
  import opened DaosStatus
  import opened Mailbox
  import opened Format
  import opened FormatRuns

  // ---- one pass

  /** What a pass does to the format Job: takes its result, keeps it, or creates it. */
  ghost predicate JobStep(b: Box<Answer>, rec: Record, b': Box<Answer>) {
    && rec.nextId == b.nextId <= b'.nextId
    && (rec.taken.Some? ==>
          && b.Open(FORMAT_JOB) && !b'.Open(FORMAT_JOB) && rec.created.None?
          && rec.taken.value == (b.jobs[FORMAT_JOB].id, b.jobs[FORMAT_JOB].args))
    && (rec.taken.None? && b.Open(FORMAT_JOB) ==>
          && b'.Open(FORMAT_JOB) && rec.created.None?
          && b'.jobs[FORMAT_JOB].id == b.jobs[FORMAT_JOB].id && b'.jobs[FORMAT_JOB].args == b.jobs[FORMAT_JOB].args)
    && (!b.Open(FORMAT_JOB) ==> (b'.Open(FORMAT_JOB) <==> rec.created.Some?))
    && (!b.Open(FORMAT_JOB) && b'.Open(FORMAT_JOB) ==>
          && rec.created == Some(b'.jobs[FORMAT_JOB].args) && b'.jobs[FORMAT_JOB].id == b.nextId < b'.nextId)
  }

  lemma FormatJobStep(b: Box<Answer>, args: seq<string>, fault: Fault)
    ensures var (b', out) := RunJob(b, FORMAT_JOB, args, fault);
      && b.nextId <= b'.nextId && (out.ApiError? ==> b' == b)
      && (out.Done? ==>
            b.Open(FORMAT_JOB) && !b'.Open(FORMAT_JOB) && out.id == b.jobs[FORMAT_JOB].id
            && out.args == b.jobs[FORMAT_JOB].args)
      && (out.Pending? && b.Open(FORMAT_JOB) ==> b' == b)
      && (out.Pending? && !b.Open(FORMAT_JOB) ==>
            if b'.nextId > b.nextId then
              b'.Open(FORMAT_JOB) && b'.jobs[FORMAT_JOB].id == b.nextId && b'.jobs[FORMAT_JOB].args == args
            else b' == b)
  {}

  lemma FormatStepJob(s: State, i: Input, only: seq<string>)
    ensures var w := FormatStep(s, i, only, Blank(s, i)); JobStep(s.box, w.rec, w.s.box)
  {
    FormatJobStep(s.box, FormatArgs(only), i.fault);
    hide RunJob, FormatArgs, AllServersReady, FORMAT_JOB, FormatResult;
    var w := FormatStep(s, i, only, Blank(s, i));
    var (b, out) := RunJob(s.box, FORMAT_JOB, FormatArgs(only), i.fault);
    if AllServersReady(i.enabled, i.configs) {
      match out
      case ApiError => assert w.rec.created.None? && w.rec.taken.None? && w.s.box == s.box;
      case Pending =>
        assert w.s.box == b && w.rec.taken.None? && w.rec.nextId == s.box.nextId;
        assert w.rec.created == if b.nextId > s.box.nextId then Some(FormatArgs(only)) else None;
      case Done(id, made, answer) =>
        ResultFrame(s.(box := b), i, Blank(s, i).(asked := Some(FormatArgs(only)), taken := Some((id, made))), answer);
    } else {
      assert w.s.box == s.box && w.rec == Blank(s, i);
    }
  }

  lemma ResultFrame(s: State, i: Input, rec: Record, answer: Answer)
    ensures var w := FormatResult(s, i, rec, answer);
      w.s.box == s.box && w.rec.nextId == rec.nextId && w.rec.created == rec.created && w.rec.taken == rec.taken
  {}

  lemma QueryStepJob(s: State, s': State, i: Input, approved: bool)
    requires s'.box == s.box
    ensures var w := QueryStep(s', i, approved, Blank(s, i)); JobStep(s.box, w.rec, w.s.box)
  {
    var (b, out) := RunJob(s.box, QUERY_JOB, ["system", "query", "-v"], i.fault);
    QueryKeepsFormat(s.box, i.fault);
    hide RunJob, FORMAT_JOB, QUERY_JOB, QueryResult, JobStep;
    var w := QueryStep(s', i, approved, Blank(s, i));
    if out.Done? { QueryFrame(s'.(box := b), i, approved, Blank(s, i), out.answer); }
    assert w.rec.created.None? && w.rec.taken.None? && w.rec.nextId == s.box.nextId;
    assert w.s.box == b || w.s.box == s.box;
    KeptJob(s.box, w.rec, b);
    KeptJob(s.box, w.rec, s.box);
  }

  ghost predicate SameFormat(b: Box<Answer>, b': Box<Answer>) {
    && b.nextId <= b'.nextId && (FORMAT_JOB in b'.jobs <==> FORMAT_JOB in b.jobs)
    && (FORMAT_JOB in b.jobs ==> b'.jobs[FORMAT_JOB] == b.jobs[FORMAT_JOB])
  }

  lemma QueryKeepsFormat(b: Box<Answer>, fault: Fault)
    ensures SameFormat(b, RunJob(b, QUERY_JOB, ["system", "query", "-v"], fault).0)
  {
    assert QUERY_JOB[5] != FORMAT_JOB[5];
  }

  lemma KeptJob(b: Box<Answer>, rec: Record, b': Box<Answer>)
    requires SameFormat(b, b') && rec.created.None? && rec.taken.None? && rec.nextId == b.nextId
    ensures JobStep(b, rec, b')
  {
    hide FORMAT_JOB;
  }

  lemma QueryFrame(s: State, i: Input, approved: bool, rec: Record, answer: Answer)
    ensures var w := QueryResult(s, i, approved, rec, answer);
      w.s.box == s.box && w.rec.nextId == rec.nextId && w.rec.created == rec.created && w.rec.taken == rec.taken
  {
    hide Stale, RanksOf, FormatHosts, AwaitingCount, JoinedCount;
  }

  lemma PassJob(s: State, i: Input)
    ensures JobStep(s.box, Pass(s, i).1, Pass(s, i).0.box)
  {
    var approved := s.approval == Some("true") && !i.external;
    FormatStepJob(s, i, if s.status.formatted then FormatHosts(s.status.ranks, i.configs) else []);
    QueryStepJob(s, s, i, approved);
    QueryStepJob(s, s.(approval := None), i, false);
    hide FormatStep, QueryStep, FormatHosts, Rendered, FORMAT_JOB;
  }

  // ---- runs

  /** The pass that created the format Job whose result no pass has read yet. */
  ghost function Creator(trace: seq<Record>): (c: Option<nat>)
    ensures c.Some? ==> c.value < |trace| && trace[c.value].created.Some?
    ensures c.Some? ==> forall m :: c.value < m < |trace| ==> trace[m].created.None? && trace[m].taken.None?
  {
    if trace == [] then None
    else
      var n := |trace| - 1;
      if trace[n].created.Some? then Some(n) else if trace[n].taken.Some? then None else Creator(trace[..n])
  }

  ghost predicate Owned(trace: seq<Record>, b: Box<Answer>) {
    && (b.Open(FORMAT_JOB) <==> Creator(trace).Some?)
    && (Creator(trace).Some? && b.Open(FORMAT_JOB) ==>
          var c := trace[Creator(trace).value];
          b.jobs[FORMAT_JOB].id == c.nextId < b.nextId && Some(b.jobs[FORMAT_JOB].args) == c.created)
  }

  ghost predicate OwnRecord(prefix: seq<Record>, rec: Record) {
    rec.taken.Some? ==>
      && Creator(prefix).Some?
      && var c := prefix[Creator(prefix).value];
         rec.taken.value.0 == c.nextId && Some(rec.taken.value.1) == c.created
  }

  lemma PassOwned(trace: seq<Record>, b: Box<Answer>, rec: Record, b': Box<Answer>)
    requires Owned(trace, b) && JobStep(b, rec, b')
    ensures OwnRecord(trace, rec) && Owned(trace + [rec], b')
  {
    assert (trace + [rec])[..|trace|] == trace;
    hide FORMAT_JOB;
  }

  ghost predicate OwnTrace(trace: seq<Record>) { forall k :: 0 <= k < |trace| ==> OwnRecord(trace[..k], trace[k]) }

  lemma AppendOwned(trace: seq<Record>, rec: Record)
    requires OwnTrace(trace) && OwnRecord(trace, rec)
    ensures OwnTrace(trace + [rec])
  {
    hide OwnRecord;
    var longer := trace + [rec];
    forall k | 0 <= k < |longer| ensures OwnRecord(longer[..k], longer[k]) {
      assert longer[..k] == trace[..k];
      if k == |trace| { assert trace[..k] == trace; }
    }
  }

  lemma StepOwned(w: World, step: Step)
    requires Owned(w.trace, w.s.box) && OwnTrace(w.trace)
    ensures Owned(Apply(w, step).trace, Apply(w, step).s.box) && OwnTrace(Apply(w, step).trace)
  {
    hide Pass, Creator, FORMAT_JOB, OwnTrace;
    if step.Reconcile? {
      hide JobStep, Owned, OwnRecord;
      PassJob(w.s, step.i);
      PassOwned(w.trace, w.s.box, Pass(w.s, step.i).1, Pass(w.s, step.i).0.box);
      AppendOwned(w.trace, Pass(w.s, step.i).1);
    }
  }

  lemma {:induction false} RunOwned(steps: seq<Step>)
    ensures Owned(Run(steps).trace, Run(steps).s.box) && OwnTrace(Run(steps).trace)
  {
    if steps != [] {
      RunOwned(steps[..|steps| - 1]);
      hide Owned, OwnTrace, Apply;
      StepOwned(Run(steps[..|steps| - 1]), steps[|steps| - 1]);
    }
  }

  /** What the status on record asks a pass to format: everything, or the hosts that need it. */
  ghost function Wanted(trace: seq<Record>, k: nat): seq<string>
    requires k < |trace|
  {
    FormatArgs(if LastEvent(trace[..k]) == Some(SawUnformatted) then []
               else FormatHosts(trace[k].ranks, trace[k].configs))
  }

  lemma AsksWanted(trace: seq<Record>, k: nat)
    requires IsTrace(trace) && k < |trace| && trace[k].asked.Some?
    ensures trace[k].asked == Some(Wanted(trace, k)) && (trace[k].created.Some? ==> trace[k].created == trace[k].asked)
  {
    GoodAt(trace, k);
    hide IsTrace, LastEvent, LastMembers, RanksFrom, FormatHosts, FormatArgs, AllServersReady;
  }

  /** In every run a format result belongs to the Job of the last pass c that created one, with no result read in
      between. It is the result of another format than pass j asks for if and only if the status on record asked
      for another in pass c. */
  lemma FormatResultIsForeignExactly(trace: seq<Record>, j: nat) returns (c: nat)
    requires IsTrace(trace) && j < |trace| && trace[j].taken.Some?
    ensures c < j && trace[c].created.Some? && trace[j].asked.Some? && trace[j].taken.value.0 == trace[c].nextId
    ensures forall m :: c < m < j ==> trace[m].created.None? && trace[m].taken.None?
    ensures trace[j].taken.value.1 != trace[j].asked.value <==> Wanted(trace, c) != Wanted(trace, j)
  {
    TakenFrom(trace, j);
    c := Creator(trace[..j]).value;
    assert trace[..j][c] == trace[c] && forall m :: c < m < j ==> trace[..j][m] == trace[m];
    GoodAt(trace, j);
    GoodAt(trace, c);
    hide *;
    AsksWanted(trace, j);
    AsksWanted(trace, c);
  }

  lemma TakenFrom(trace: seq<Record>, j: nat)
    requires IsTrace(trace) && j < |trace|
    ensures OwnRecord(trace[..j], trace[j])
  {
    var steps :| Run(steps).trace == trace;
    RunOwned(steps);
    hide Run, OwnRecord;
  }

  // ---- Jobs from before a moment

  ghost predicate TakenIn(trace: seq<Record>, a: nat, b: nat)
    requires b <= |trace|
  {
    exists k :: a <= k < b && trace[k].taken.Some?
  }

  /** How a world stands to the one at an earlier moment. */
  ghost predicate Since(before: World, w: World) {
    && before.trace <= w.trace && before.s.box.nextId <= w.s.box.nextId
    && var left := before.s.box.Open(FORMAT_JOB) && !TakenIn(w.trace, |before.trace|, |w.trace|);
       && (left ==> w.s.box.Open(FORMAT_JOB))
       && (w.s.box.Open(FORMAT_JOB) ==> (w.s.box.jobs[FORMAT_JOB].id < before.s.box.nextId <==> left))
  }

  lemma PassSince(before: World, w: World, i: Input)
    requires Since(before, w)
    ensures Since(before, Apply(w, Reconcile(i)))
  {
    PassJob(w.s, i);
    var (s, rec) := Pass(w.s, i);
    var longer := w.trace + [rec];
    hide Pass, FORMAT_JOB;
    if TakenIn(w.trace, |before.trace|, |w.trace|) {
      var k :| |before.trace| <= k < |w.trace| && w.trace[k].taken.Some?;
      assert longer[k].taken.Some?;
    }
    if rec.taken.Some? { assert longer[|w.trace|].taken.Some?; }
    assert TakenIn(longer, |before.trace|, |longer|) <==>
          TakenIn(w.trace, |before.trace|, |w.trace|) || rec.taken.Some?;
  }

  lemma QuietSince(before: World, w: World, step: Step)
    requires Since(before, w) && !step.Reconcile?
    ensures Since(before, Apply(w, step))
  {
    hide FORMAT_JOB, Pass, TakenIn;
  }

  lemma {:induction false} RunSince(steps: seq<Step>, n: nat)
    requires n <= |steps|
    ensures Since(Run(steps[..n]), Run(steps))
  {
    if n == |steps| {
      assert steps[..n] == steps;
      RunOwned(steps);
      hide Run;
    } else {
      var init := steps[..|steps| - 1];
      assert init[..n] == steps[..n];
      RunSince(init, n);
      hide Since, Apply;
      if steps[|steps| - 1].Reconcile? {
        PassSince(Run(steps[..n]), Run(init), steps[|steps| - 1].i);
      } else {
        QuietSince(Run(steps[..n]), Run(init), steps[|steps| - 1]);
      }
    }
  }

  /** For every moment n of a run, such as the one an approval is given, and every later pass m that reads a format
      result: the Job is older than that moment if and only if a format Job was open then and no result was read
      since. */
  lemma FormatResultIsOldExactly(steps: seq<Step>, n: nat, m: nat)
    requires n <= m < |steps| && steps[m].Reconcile? && Pass(Run(steps[..m]).s, steps[m].i).1.taken.Some?
    ensures |Run(steps[..n]).trace| <= |Run(steps[..m]).trace|
    ensures
      var before, w := Run(steps[..n]), Run(steps[..m]);
      Pass(w.s, steps[m].i).1.taken.value.0 < before.s.box.nextId <==>
        before.s.box.Open(FORMAT_JOB) && !TakenIn(w.trace, |before.trace|, |w.trace|)
  {
    assert steps[..m][..n] == steps[..n];
    RunSince(steps[..m], n);
    PassJob(Run(steps[..m]).s, steps[m].i);
    hide Run, Pass, FORMAT_JOB, TakenIn;
  }

  // ---- a run in which the wrong format answers

  /** A whole-system format runs or has finished, and nothing else is in flight. */
  ghost predicate WholeFormat(s: State, phase: Phase<Answer>) {
    && FORMAT_JOB in s.box.jobs && s.box.jobs[FORMAT_JOB].phase == phase
    && s.box.jobs[FORMAT_JOB].args == ["storage", "format"]
  }

  const WITHDRAWN: seq<Step> :=
    APPROVED + [Reconcile(PassAt(2, false, false)), SetApproval(None)] + [JobGone(QUERY_JOB), OperatorRestart]

  lemma CreatesWhole(s: State)
    requires s.status == Status(false, true, [], 0, 0, False) && s.approval == Some("true")
    requires FORMAT_JOB !in s.box.jobs && !s.box.Open(QUERY_JOB)
    ensures var s' := Pass(s, PassAt(2, false, false)).0;
      s'.status == s.status && !s'.box.Open(QUERY_JOB) && WholeFormat(s', Running)
  {
    OneServer();
    assert QUERY_JOB[5] != FORMAT_JOB[5];
    hide Rendered, AllServersReady, FORMAT_JOB, QUERY_JOB, QueryStep;
  }

  lemma AfterWithdrawal()
    ensures var w := Run(WITHDRAWN);
      && w.s.status == Status(false, true, [], 0, 0, False) && w.s.approval == None && w.s.hold == None
      && QUERY_JOB !in w.s.box.jobs && WholeFormat(w.s, Running)
  {
    AfterApproval();
    assert QUERY_JOB[5] != FORMAT_JOB[5];
    RunMore(APPROVED, Reconcile(PassAt(2, false, false)), SetApproval(None));
    RunMore(APPROVED + [Reconcile(PassAt(2, false, false)), SetApproval(None)], JobGone(QUERY_JOB), OperatorRestart);
    hide Run, Pass, Creates, FailedClears, FORMAT_JOB, QUERY_JOB;
    CreatesWhole(Run(APPROVED).s);
  }

  const ASKED_AGAIN: seq<Step> := WITHDRAWN + [Reconcile(PassAt(3, false, false)), JobFinished(QUERY_JOB, Members([]))]

  lemma AfterAskingAgain()
    ensures var w := Run(ASKED_AGAIN);
      && w.s.approval == None && w.s.hold == None && WholeFormat(w.s, Running)
      && QUERY_JOB in w.s.box.jobs && w.s.box.jobs[QUERY_JOB].phase == Finished(Members([]))
  {
    OneServer();
    AfterWithdrawal();
    assert QUERY_JOB[5] != FORMAT_JOB[5];
    RunMore(WITHDRAWN, Reconcile(PassAt(3, false, false)), JobFinished(QUERY_JOB, Members([])));
    hide Rendered, Run, FORMAT_JOB, QUERY_JOB, FormatHosts, AllServersReady;
  }

  const HOSTS_LEFT: seq<Step> :=
    ASKED_AGAIN + [Reconcile(PassAt(4, false, false)), JobFinished(FORMAT_JOB, FormatDone(true))]

  lemma OneHost()
    ensures FormatHosts([], CONFIGS) != []
  {
    FormatHostsExact([], CONFIGS, "10.0.0.1");
    assert CONFIGS[0] in CONFIGS && NeedsFormat([], CONFIGS[0]);
    hide FormatHosts;
  }

  lemma AfterMembers()
    ensures var w := Run(HOSTS_LEFT);
      && w.s.approval == None && w.s.status.formatted && w.s.status.pending && w.s.status.ranks == []
      && WholeFormat(w.s, Finished(FormatDone(true)))
  {
    AfterAskingAgain();
    RunMore(ASKED_AGAIN, Reconcile(PassAt(4, false, false)), JobFinished(FORMAT_JOB, FormatDone(true)));
    hide Run, Pass, FORMAT_JOB, QUERY_JOB;
    ReadsNoMembers(Run(ASKED_AGAIN).s);
  }

  lemma ReadsNoMembers(s: State)
    requires s.approval == None && s.hold == None && WholeFormat(s, Running)
    requires QUERY_JOB in s.box.jobs && s.box.jobs[QUERY_JOB].phase == Finished(Members([]))
    ensures var s' := Pass(s, PassAt(4, false, false)).0;
      && s'.approval == None && s'.status.formatted && s'.status.pending && s'.status.ranks == []
      && WholeFormat(s', Running)
  {
    OneServer();
    OneHost();
    assert QUERY_JOB[5] != FORMAT_JOB[5];
    hide Rendered, FORMAT_JOB, QUERY_JOB, FormatHosts, AllServersReady, FormatStep;
  }

  /** A real run: an approval is withdrawn while its whole-system format runs, the system then turns out to be
      formatted but for one host, and under the next approval the format of that host is answered, and recorded as
      done, by the old Job. */
  lemma LeftOverFormatIsTaken() returns (steps: seq<Step>)
    ensures var w := Run(steps);
      && w.trace != [] && var rec := w.trace[|w.trace| - 1];
      && rec.stored && rec.event == Some(Formatted) && rec.asked.Some? && rec.asked.value != ["storage", "format"]
      && rec.taken.Some? && rec.taken.value.1 == ["storage", "format"]
  {
    var last := Reconcile(PassAt(5, false, false));
    steps := HOSTS_LEFT + [SetApproval(Some("true")), last];
    OneServer();
    OneHost();
    AfterMembers();
    RunMore(HOSTS_LEFT, SetApproval(Some("true")), last);
    assert "-l"[0] != "storage"[0];
    hide Rendered, Run, FORMAT_JOB, QUERY_JOB, FormatHosts, AllServersReady;
  }
}
