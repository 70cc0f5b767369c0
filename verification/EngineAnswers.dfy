/** Whose start it was: the result a batch of engine starts is judged by comes from the Job made for it exactly
    when no start Job was lying around as the batch was chosen. */
module EngineAnswers {
  import opened Text
  import opened Collections
  import opened RankSet
  import opened DaosStatus
  import opened Mailbox
  import opened EngineRestart
  import opened EngineRuns

  /** The pass that chose the batch not answered yet. */
  ghost function Chooser(trace: seq<Record>): Option<Report> {
    if trace == [] then None
    else
      var last := trace[|trace| - 1];
      if last.Restarted? || last.rep.answer.Some? then None
      else if last.rep.due != [] then Some(last.rep)
      else Chooser(trace[..|trace| - 1])
  }

  /** The pass that chose the batch this pass works on. */
  ghost function ChosenBy(prefix: seq<Record>, rep: Report): Option<Report> {
    if rep.due != [] then Some(rep) else Chooser(prefix)
  }

  /** An open start Job is older than the unanswered batch exactly when it was there as the batch was chosen,
      and otherwise is for that batch. */
  ghost predicate OwnInv(trace: seq<Record>, b: Box<StartAnswer>, name: string) {
    && (b.Open(name) ==> b.jobs[name].id < b.nextId)
    && (Outstanding(trace) != [] ==>
          && Chooser(trace).Some?
          && var c := Chooser(trace).value;
             && c.nextId <= b.nextId
             && (c.startOpen ==> b.Open(name))
             && (b.Open(name) ==> (b.jobs[name].id < c.nextId <==> c.startOpen))
             && (b.Open(name) && !c.startOpen ==> b.jobs[name].args == StartArgs(RankListText(Outstanding(trace)))))
  }

  ghost predicate OwnRecord(prefix: seq<Record>, rec: Record) {
    rec.Passed? && rec.rep.answer.Some? ==>
      && rec.rep.job.Some? && ChosenBy(prefix, rec.rep).Some?
      && var c := ChosenBy(prefix, rec.rep).value;
         && (rec.rep.job.value.0 < c.nextId <==> c.startOpen)
         && (!c.startOpen ==> rec.rep.job.value.1 == StartArgs(RankListText(Current(prefix, rec.rep))))
  }

  lemma SlotRun(b: Box<StartAnswer>, name: string, args: seq<string>, fault: Fault)
    ensures var (b', out) := RunJob(b, name, args, fault);
      && b.nextId <= b'.nextId
      && (out.Done? ==> b.Open(name) && out.id == b.jobs[name].id && out.args == b.jobs[name].args && !b'.Open(name))
      && (!out.Done? && b.Open(name) ==>
            b'.Open(name) && b'.jobs[name].id == b.jobs[name].id && b'.jobs[name].args == b.jobs[name].args)
      && (!b.Open(name) && b'.Open(name) ==> b.nextId <= b'.jobs[name].id < b'.nextId && b'.jobs[name].args == args)
  {}

  /** The text a pass runs the Job with is that of the batch it works on. */
  lemma RunsCurrent(w: World, sys: string, i: Input)
    requires Inv(w)
    ensures var rep := Pass(w.mem, w.box, sys, i).2;
      var batch := Current(w.trace, rep);
      && PlanOf(w.mem, i).running == (if batch == [] then "" else RankListText(batch))
      && rep.due == PlanOf(w.mem, i).due
  {
    var p := PlanOf(w.mem, i);
    ConcludeRunning(p, w.box, sys, i);
    PlanRunning(w.mem, i);
    PlanText(w.mem, i);
    hide PlanOf, Conclude, Outstanding;
  }

  lemma ExtendTrace(trace: seq<Record>, rec: Record)
    ensures Chooser(trace + [rec]) ==
      if rec.Restarted? || rec.rep.answer.Some? then None else ChosenBy(trace, rec.rep)
    ensures Outstanding(trace + [rec]) ==
      if rec.Restarted? || rec.rep.answer.Some? then [] else Current(trace, rec.rep)
  {
    assert (trace + [rec])[..|trace|] == trace;
  }

  lemma ConcludeJob(p: Plan, b: Box<StartAnswer>, sys: string, i: Input)
    ensures var (m', b', rep) := Conclude(p, b, sys, i);
      var (b1, out) := RunJob(b, sys + JOB_SUFFIX, StartArgs(p.running), i.fault);
      && rep.nextId == b.nextId && rep.startOpen == b.Open(sys + JOB_SUFFIX)
      && (p.running == "" ==> b' == b && rep.answer.None?)
      && (p.running != "" ==> b' == b1 && (rep.answer.Some? <==> out.Done?))
      && (rep.answer.Some? ==> rep.job == Some((out.id, out.args)))
  {
    hide Aftermath;
  }

  lemma PassKeepsOwn(w: World, sys: string, i: Input)
    requires Inv(w) && OwnInv(w.trace, w.box, sys + JOB_SUFFIX)
    ensures var (m', b', rep) := Pass(w.mem, w.box, sys, i);
      OwnInv(w.trace + [Passed(rep)], b', sys + JOB_SUFFIX) && OwnRecord(w.trace, Passed(rep))
  {
    var (m', b', rep) := Pass(w.mem, w.box, sys, i);
    var p := PlanOf(w.mem, i);
    RunsCurrent(w, sys, i);
    ExtendTrace(w.trace, Passed(rep));
    ConcludeJob(p, w.box, sys, i);
    SlotRun(w.box, sys + JOB_SUFFIX, StartArgs(p.running), i.fault);
    var batch := Current(w.trace, rep);
    if batch != [] { RankListNotEmpty(batch); }
    hide PlanOf, Conclude, Outstanding, Chooser, RunJob, StartArgs, RankListText, Inv;
  }

  ghost predicate OwnTrace(trace: seq<Record>) {
    forall k :: 0 <= k < |trace| ==> OwnRecord(trace[..k], trace[k])
  }

  lemma AppendOwn(trace: seq<Record>, rec: Record)
    requires OwnTrace(trace) && OwnRecord(trace, rec)
    ensures OwnTrace(trace + [rec])
  {
    var longer := trace + [rec];
    forall k | 0 <= k < |longer| ensures OwnRecord(longer[..k], longer[k]) {
      assert longer[..k] == trace[..k];
      if k == |trace| { assert trace[..k] == trace; }
    }
  }

  lemma StepKeepsOwn(w: World, sys: string, step: Step)
    requires Inv(w) && OwnInv(w.trace, w.box, sys + JOB_SUFFIX) && OwnTrace(w.trace)
    ensures var w' := Apply(w, sys, step); OwnInv(w'.trace, w'.box, sys + JOB_SUFFIX) && OwnTrace(w'.trace)
  {
    hide Inv, Pass, OwnTrace, Outstanding, Chooser, StartArgs, RankListText;
    match step
    case Restart =>
      ExtendTrace(w.trace, Restarted);
      AppendOwn(w.trace, Restarted);
    case Reconcile(i) =>
      if w.clock <= i.now <= i.later {
        PassKeepsOwn(w, sys, i);
        AppendOwn(w.trace, Passed(Pass(w.mem, w.box, sys, i).2));
      }
    case _ =>
  }

  lemma {:induction false} RunOwn(sys: string, start: int, steps: seq<Step>)
    ensures var w := Run(sys, start, steps); OwnInv(w.trace, w.box, sys + JOB_SUFFIX) && OwnTrace(w.trace)
  {
    if steps != [] {
      RunOwn(sys, start, steps[..|steps| - 1]);
      RunInv(sys, start, steps[..|steps| - 1]);
      hide Inv, OwnInv, OwnTrace, Apply;
      StepKeepsOwn(Run(sys, start, steps[..|steps| - 1]), sys, steps[|steps| - 1]);
    }
  }

  /** Over every run: the start result a batch is judged by comes from a Job older than the batch if and only
      if a start Job was open as the batch was chosen; otherwise it comes from a Job made for just these
      ranks. */
  lemma AnswerIsOwnExactly(sys: string, trace: seq<Record>, j: nat)
    requires IsTrace(sys, trace) && j < |trace| && trace[j].Passed? && trace[j].rep.answer.Some?
    ensures trace[j].rep.job.Some? && ChosenBy(trace[..j], trace[j].rep).Some?
    ensures var c := ChosenBy(trace[..j], trace[j].rep).value;
      && (trace[j].rep.job.value.0 < c.nextId <==> c.startOpen)
      && (!c.startOpen ==> trace[j].rep.job.value.1 == StartArgs(RankListText(Current(trace[..j], trace[j].rep))))
  {
    var start, steps :| Run(sys, start, steps).trace == trace;
    RunOwn(sys, start, steps);
    assert OwnRecord(trace[..j], trace[j]);
  }

  lemma {:induction false} ChooserAt(trace: seq<Record>, j: nat) returns (k: nat)
    requires j < |trace| && trace[j].Passed? && ChosenBy(trace[..j], trace[j].rep).Some?
    ensures k <= j && trace[k].Passed? && trace[k].rep.due != []
    ensures ChosenBy(trace[..j], trace[j].rep) == Some(trace[k].rep)
    ensures forall l :: k <= l <= j ==>
      trace[l].Passed? && (l < j ==> trace[l].rep.answer.None?) && (l > k ==> trace[l].rep.due == [])
  {
    if trace[j].rep.due != [] {
      k := j;
    } else {
      assert trace[..j][..j - 1] == trace[..j - 1] && trace[..j][j - 1] == trace[j - 1];
      k := ChooserAt(trace, j - 1);
    }
  }

  /** Between two batches of one operator lifetime a start result was read, and it was the first batch's own
      exactly if no start Job was open as that batch was chosen. */
  lemma BatchGetsItsAnswer(sys: string, trace: seq<Record>, i: nat, j: nat) returns (k: nat)
    requires IsTrace(sys, trace)
    requires i < j < |trace| && (forall l :: i <= l <= j ==> trace[l].Passed?)
    requires trace[i].rep.due != [] && trace[j].rep.due != [] && forall l :: i < l < j ==> trace[l].rep.due == []
    ensures i <= k < j && trace[k].rep.answer.Some? && trace[k].rep.job.Some?
    ensures trace[k].rep.job.value.0 >= trace[i].rep.nextId <==> !trace[i].rep.startOpen
    ensures !trace[i].rep.startOpen ==> trace[k].rep.job.value.1 == StartArgs(RankListText(trace[i].rep.due))
  {
    OneBatchInFlight(sys, trace, i, j);
    k := FirstAnswer(trace, i, j);
    AnswerIsOwnExactly(sys, trace, k);
    var c := ChooserAt(trace, k);
    hide StartArgs, RankListText, IsTrace;
    assert c == i;
    CurrentIs(trace, i, k);
  }

  lemma {:induction false} FirstAnswer(trace: seq<Record>, i: nat, j: nat) returns (k: nat)
    requires i < j <= |trace| && (forall l :: i <= l < j ==> trace[l].Passed?)
    requires exists l :: i <= l < j && trace[l].rep.answer.Some?
    ensures i <= k < j && trace[k].rep.answer.Some? && forall l :: i <= l < k ==> trace[l].rep.answer.None?
    decreases j - i
  {
    if trace[i].rep.answer.Some? { k := i; } else { k := FirstAnswer(trace, i + 1, j); }
  }

  lemma {:induction false} CurrentIs(trace: seq<Record>, i: nat, k: nat)
    requires i <= k < |trace| && (forall l :: i <= l <= k ==> trace[l].Passed?) && trace[i].rep.due != []
    requires forall l :: i <= l <= k ==> (l < k ==> trace[l].rep.answer.None?) && (l > i ==> trace[l].rep.due == [])
    ensures Current(trace[..k], trace[k].rep) == trace[i].rep.due
  {
    if i < k {
      assert trace[..k][..k - 1] == trace[..k - 1] && trace[..k][k - 1] == trace[k - 1];
      CurrentIs(trace, i, k - 1);
    }
  }

  // ---- a run in which a batch is judged by another batch's Job

  const SYS := "s"
  const START_JOB := SYS + JOB_SUFFIX
  const NODES: seq<NodeConfig> := [NodeConfig("n1", "10.0.0.1", true, true, true),
                                   NodeConfig("n2", "10.0.0.2", true, true, true)]

  /** A pass that sees rank r down on its node and the other of ranks 1 and 2 joined. */
  function PassAt(now: int, r: int): Input {
    var members := [RankStatus(1, "n1", if r == 1 then "errored" else JOINED),
                    RankStatus(2, "n2", if r == 2 then "errored" else JOINED)];
    Input(now, now, true, true, false, NODES, members, NoFault, [], false, {})
  }

  lemma ServersUp()
    ensures ServerUp(NODES, "n1") && ServerUp(NODES, "n2")
  {
    assert "n1"[1] != "n2"[1];
    var one := NODES[..1];
    assert one == [NODES[0]];
    assert ServerUp(one, "n1");
  }

  lemma OneCandidate(now: int, r: int)
    requires r == 1 || r == 2
    ensures CandidatesOf(PassAt(now, r)) == [r] && DownOf(PassAt(now, r).members) == {r}
  {
    ServersUp();
    assert JOINED[0] != "errored"[0] && JOINED[0] != "excluded"[0];
    var members := PassAt(now, r).members;
    assert members[..1] == [members[0]] && [members[0]][..0] == [];
    assert Filtered([], NODES) == [];
    assert Filtered(members[..1], NODES) == if r == 1 then [1] else [];
    assert Filtered(members, NODES) == [r];
    var down := DownOf(members);
    assert members[r - 1].rank == r && members[r - 1].state != JOINED;
    assert forall k :: 0 <= k < |members| && members[k].state != JOINED ==> members[k].rank == r;
  }

  lemma LoneBatch(tracks: map<int, Track>, now: int, r: int)
    requires r in tracks
    ensures var p := NewBatch(tracks, [r], now);
      && r in p.tracks && p.due == (if IsDue(tracks[r], now) then [r] else [])
      && p.running == (if IsDue(tracks[r], now) then RankListText([r]) else "")
      && (!IsDue(tracks[r], now) ==>
            p.tracks[r].downSince == tracks[r].downSince && p.tracks[r].tries == tracks[r].tries)
  {
    LoneDue(tracks, now, r);
    hide RankListText, IsDue, Charge, Mark, GivenUpIn, NextIn, DueIn, SortInts;
    BatchOnRank(tracks, [r], now, r);
  }

  lemma LoneDue(tracks: map<int, Track>, now: int, r: int)
    requires r in tracks
    ensures SortInts(DueIn(tracks, [r], now)) == if IsDue(tracks[r], now) then [r] else []
  {
    assert [r][..0] == [] && DueIn(tracks, [], now) == [];
    assert SortInts([]) == [] && [r][1..] == [];
    assert SortInts([r]) == [r];
  }

  function TrackOf(m: Memory, now: int, r: int): Track {
    if r in m.tracks then m.tracks[r] else Track(now, 0, 0, false)
  }

  /** What a pass plans that sees one rank down and has nothing in flight. */
  lemma LonePlan(m: Memory, now: int, r: int)
    requires (r == 1 || r == 2) && m.running == ""
    ensures var t := TrackOf(m, now, r);
      var p := PlanOf(m, PassAt(now, r));
      && r in p.tracks && p.due == (if IsDue(t, now) then [r] else [])
      && p.running == (if IsDue(t, now) then RankListText([r]) else "")
      && (!IsDue(t, now) ==> p.tracks[r].downSince == t.downSince && p.tracks[r].tries == t.tries)
  {
    OneCandidate(now, r);
    CandidatesAreDown(PassAt(now, r));
    var tracks := Refresh(m.tracks, [r], {r}, now);
    assert r in tracks && tracks[r] == TrackOf(m, now, r);
    LoneBatch(tracks, now, r);
    hide CandidatesOf, DownOf, RankListText, NewBatch, IsDue, Refresh;
  }

  lemma QuietPass(m: Memory, b: Box<StartAnswer>, now: int, r: int)
    requires (r == 1 || r == 2) && m.running == "" && !IsDue(TrackOf(m, now, r), now)
    ensures var (m', b', rep) := Pass(m, b, SYS, PassAt(now, r));
      && b' == b && m'.running == "" && r in m'.tracks
      && m'.tracks[r].downSince == TrackOf(m, now, r).downSince && m'.tracks[r].tries == TrackOf(m, now, r).tries
  {
    LonePlan(m, now, r);
    hide PlanOf, IsDue, CandidatesOf;
  }

  lemma DuePass(m: Memory, b: Box<StartAnswer>, now: int, r: int)
    requires (r == 1 || r == 2) && m.running == "" && IsDue(TrackOf(m, now, r), now)
    ensures var (m', b', rep) := Pass(m, b, SYS, PassAt(now, r));
      var (b1, out) := RunJob(b, START_JOB, StartArgs(RankListText([r])), NoFault);
      && b' == b1 && rep.due == [r]
      && (out.Done? ==> rep.answer == Some(out.answer) && rep.job == Some((out.id, out.args)))
  {
    assert PassAt(now, r).fault.NoFault?;
    hide *;
    LonePlan(m, now, r);
    RankListNotEmpty([r]);
    PassConcludes(m, b, PassAt(now, r));
  }

  lemma PassConcludes(m: Memory, b: Box<StartAnswer>, i: Input)
    requires i.fault.NoFault? && PlanOf(m, i).running != ""
    ensures var (m', b', rep) := Pass(m, b, SYS, i);
      var p := PlanOf(m, i);
      var (b1, out) := RunJob(b, START_JOB, StartArgs(p.running), NoFault);
      && b' == b1 && rep.due == p.due
      && (out.Done? ==> rep.answer == Some(out.answer) && rep.job == Some((out.id, out.args)))
  {
    hide PlanOf, CandidatesOf, Aftermath, StartArgs, RunJob;
  }

  lemma RunMore(steps: seq<Step>, a: Step, b: Step)
    ensures Run(SYS, 0, steps + [a, b]) == Apply(Apply(Run(SYS, 0, steps), SYS, a), SYS, b)
  {
    hide Apply;
    assert (steps + [a, b])[..|steps| + 1] == steps + [a];
    assert (steps + [a])[..|steps|] == steps;
  }

  const BEGINNING: World := World(Memory(map[], ""), Box(map[], 0), 0, [])

  lemma RunBegins()
    ensures Run(SYS, 0, []) == BEGINNING
  {
    hide Apply;
  }

  const STARTED: seq<Step> := [] + [Reconcile(PassAt(0, 1)), Reconcile(PassAt(GRACE, 1))]

  lemma AfterStart()
    ensures var w := Run(SYS, 0, STARTED);
      && w.box == Box(map[START_JOB := Job(0, StartArgs(RankListText([1])), Running)], 1)
      && w.clock == GRACE && |w.trace| == 2
  {
    RunMore([], Reconcile(PassAt(0, 1)), Reconcile(PassAt(GRACE, 1)));
    RunBegins();
    hide Pass, RankListText, Run, StartArgs;
    QuietPass(BEGINNING.mem, BEGINNING.box, 0, 1);
    var w1 := Apply(BEGINNING, SYS, Reconcile(PassAt(0, 1)));
    DuePass(w1.mem, w1.box, GRACE, 1);
  }

  const LEFT_OVER: seq<Step> := STARTED + [Restart, JobFinished(DmgError(true))]

  lemma AfterRestart()
    ensures var w := Run(SYS, 0, LEFT_OVER);
      && w.mem == Memory(map[], "") && w.clock == GRACE && |w.trace| == 3
      && w.box == Box(map[START_JOB := Job(0, StartArgs(RankListText([1])), Finished(DmgError(true)))], 1)
  {
    AfterStart();
    RunMore(STARTED, Restart, JobFinished(DmgError(true)));
    hide Run, RankListText;
  }

  /** Rank 1 is asked to start and the operator restarts. Rank 1 joins, rank 2 dies, and its batch is answered
      at once, with the timed-out start of rank 1, although no Job ever asked for rank 2. */
  lemma LeftOverStartIsTaken() returns (steps: seq<Step>)
    ensures var w := Run(SYS, 0, steps);
      && |w.trace| == 5 && w.trace[4].Passed? && w.box.nextId == 1
      && var rep := w.trace[4].rep;
         rep.due == [2] && rep.answer == Some(DmgError(true)) && rep.job == Some((0, StartArgs(RankListText([1]))))
  {
    var now := 2 * GRACE + 1;
    steps := LEFT_OVER + [Reconcile(PassAt(GRACE + 1, 2)), Reconcile(PassAt(now, 2))];
    AfterRestart();
    RunMore(LEFT_OVER, Reconcile(PassAt(GRACE + 1, 2)), Reconcile(PassAt(now, 2)));
    var w := Run(SYS, 0, LEFT_OVER);
    hide Pass, RankListText, Run, StartArgs;
    QuietPass(w.mem, w.box, GRACE + 1, 2);
    var w1 := Apply(w, SYS, Reconcile(PassAt(GRACE + 1, 2)));
    DuePass(w1.mem, w1.box, now, 2);
  }
}
