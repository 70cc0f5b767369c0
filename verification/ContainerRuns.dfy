/** The two controllers together: a DaosPool keeps its status, a DaosContainer reads copies of it that may be
    old, and clears a refused container only on a pool query made after the refusal. */
module ContainerRuns {
  import opened Text
  import opened Mailbox
  import opened Container
  import opened ContainerSteps
  import Pool
  import PoolRuns

  /** views holds every stored version of the DaosPool, oldest first. */
  datatype World = World(
    pool: PoolRuns.World, optedIn: bool, views: seq<PoolView>, cont: State, trace: seq<Record>)

  /** version picks the copy of the DaosPool a pass reads; none, or one that was never stored, means that
      there is no DaosPool. */
  datatype Look = Look(now: int, version: Option<nat>, systemFound: bool, fault: Fault, updateFails: bool, lost: bool)

  datatype Step =
    | PoolMoves(step: PoolRuns.Step)
    | OptIn(yes: bool)
    | EditAcl(acl: string)
    | Delete
    | SetApproved(yes: bool)
    | OperatorRestart
    | Reconcile(look: Look)
    | JobFinished(name: string, answer: Answer)
    | JobGone(name: string)

  function ViewOf(s: Pool.State, optedIn: bool): PoolView {
    PoolView(s.status.uuid, optedIn, s.status.mode, s.status.state, s.status.rebuild, s.status.disabled,
             s.status.lastQuery)
  }

  function InputOf(w: World, look: Look): Input {
    var pool := if look.version.Some? && look.version.value < |w.views| then Some(w.views[look.version.value])
        else None;
    Input(look.now, pool, look.systemFound, look.fault, look.updateFails, look.lost)
  }

  function Apply(w: World, step: Step): World {
    match step
    case PoolMoves(step) =>
      var pool := PoolRuns.Apply(w.pool, step);
      w.(pool := pool, views := w.views + [ViewOf(pool.s, w.optedIn)])
    case OptIn(v) => w.(optedIn := v, views := w.views + [ViewOf(w.pool.s, v)])
    case EditAcl(acl) => w.(cont := w.cont.(acl := acl, generation := w.cont.generation + 1))
    case Delete => w.(cont := w.cont.(deleting := true))
    case SetApproved(v) => w.(cont := w.cont.(approved := v))
    case OperatorRestart => w.(cont := w.cont.(mark := None, hold := None),
                               pool := PoolRuns.Apply(w.pool, PoolRuns.OperatorRestart))
    case Reconcile(look) => var (s, rec) := Pass(w.cont, InputOf(w, look)); w.(cont := s, trace := w.trace + [rec])
    case JobFinished(name, answer) => w.(cont := w.cont.(box := FinishJob(w.cont.box, name, answer)))
    case JobGone(name) => w.(cont := w.cont.(box := DropJob(w.cont.box, name)))
  }

  function Initial(spec: Pool.Spec, acl: string): World {
    World(PoolRuns.Initial(spec), false, [],
          State(0, acl, Status("", "", None, 0, ""), false, false, false, None, None, Box(map[], 0)), [])
  }

  function Run(spec: Pool.Spec, acl: string, steps: seq<Step>): World {
    if steps == [] then Initial(spec, acl) else Apply(Run(spec, acl, steps[..|steps| - 1]), steps[|steps| - 1])
  }

  // ---- every copy of the pool comes from one query

  ghost predicate FromQuery(v: PoolView, rec: Pool.Record) {
    && rec.stored && rec.read.Some?
    && v.state == rec.read.value.1.state && v.rebuild == rec.read.value.1.rebuild
    && v.disabled == rec.read.value.1.disabled
    && var t := PoolRuns.RanAt(rec.read.value); v.lastQuery == Some(t - t % 1_000_000_000)
  }

  ghost predicate Sourced(v: PoolView, trace: seq<Pool.Record>) {
    v.lastQuery.Some? ==> exists k :: 0 <= k < |trace| && FromQuery(v, trace[k])
  }

  lemma {:induction false} LastReadAt(trace: seq<Pool.Record>) returns (k: nat)
    requires PoolRuns.LastRead(trace).Some?
    ensures k < |trace| && trace[k].stored && trace[k].read == PoolRuns.LastRead(trace)
  {
    var n := |trace| - 1;
    if trace[n].stored && trace[n].read.Some? { k := n; } else { k := LastReadAt(trace[..n]); }
  }

  lemma NewViewSourced(pool: PoolRuns.World, optedIn: bool)
    requires PoolRuns.Inv(pool)
    ensures Sourced(ViewOf(pool.s, optedIn), pool.trace)
  {
    if PoolRuns.LastRead(pool.trace).Some? {
      var k := LastReadAt(pool.trace);
      assert FromQuery(ViewOf(pool.s, optedIn), pool.trace[k]);
    }
  }

  lemma SourcedGrows(v: PoolView, trace: seq<Pool.Record>, longer: seq<Pool.Record>)
    requires Sourced(v, trace) && trace <= longer
    ensures Sourced(v, longer)
  {
    if v.lastQuery.Some? {
      var k :| 0 <= k < |trace| && FromQuery(v, trace[k]);
      assert FromQuery(v, longer[k]);
    }
  }

  ghost predicate ViewsSourced(w: World) { forall v :: v in w.views ==> Sourced(v, w.pool.trace) }

  /** Every pool a pass judged by was a stored version of the DaosPool. */
  ghost predicate JudgedViews(w: World) {
    forall k :: 0 <= k < |w.trace| && w.trace[k].decided.Some? ==> w.trace[k].decided.value.1 in w.views
  }

  // ---- the mark

  /** The mark is the time of the last query, which was refused. */
  ghost predicate MarkInv(trace: seq<Record>, s: State) {
    s.mark.Some? ==>
      s.status.operation.None? && LastQueryRefused(trace, s.mark.value) && trace != []
      && trace[|trace| - 1].kept == s.mark
  }

  ghost predicate LastQueryRefused(trace: seq<Record>, m: int) {
    trace != [] &&
    var last := trace[|trace| - 1];
    if last.queried then RefusalTime(last) == Some(m) else LastQueryRefused(trace[..|trace| - 1], m)
  }

  // ---- runs

  /** The UUID on record: the last one a stored pass read. */
  ghost function Uuid(trace: seq<Record>): string {
    if trace == [] then ""
    else if trace[|trace| - 1].stored && trace[|trace| - 1].uuidRead.Some? then trace[|trace| - 1].uuidRead.value
    else Uuid(trace[..|trace| - 1])
  }

  /** The operation on record: what the last stored pass left. */
  ghost function OnRecord(trace: seq<Record>): Option<Op> {
    if trace == [] then None else if trace[|trace| - 1].stored then trace[|trace| - 1].left
    else OnRecord(trace[..|trace| - 1])
  }

  /** A heal Job was sent whose result no pass took yet. */
  ghost predicate HealOpen(trace: seq<Record>) {
    trace != [] &&
    var last := trace[|trace| - 1];
    last.sent == Some(Heal) || (last.taken != Some(Heal) && HealOpen(trace[..|trace| - 1]))
  }

  lemma Extend(trace: seq<Record>, rec: Record)
    ensures Uuid(trace + [rec]) == if rec.stored && rec.uuidRead.Some? then rec.uuidRead.value else Uuid(trace)
    ensures OnRecord(trace + [rec]) == if rec.stored then rec.left else OnRecord(trace)
    ensures HealOpen(trace + [rec]) <==> rec.sent == Some(Heal) || (rec.taken != Some(Heal) && HealOpen(trace))
    ensures forall m ::
      LastQueryRefused(trace + [rec], m) == if rec.queried then RefusalTime(rec) == Some(m)
      else LastQueryRefused(trace, m)
  {
    assert (trace + [rec])[..|trace|] == trace;
  }

  ghost predicate GateRecord(prefix: seq<Record>, rec: Record) {
    && rec.uuid == Uuid(prefix) && rec.operation == OnRecord(prefix)
    && (rec.started.Some? ==> !rec.deleting)
    && (rec.started == Some(Create) || rec.sent == Some(Create) ==> rec.uuid == "")
    && (rec.destroyRun || rec.destroyed.Some? ==> rec.deleting && rec.approved && rec.uuid != "")
  }

  /** The pass judged a refused query made at m, and goes on waiting. */
  ghost predicate Waited(rec: Record, m: int) {
    rec.decided.Some? ==>
      rec.decided.value.0 == m && SeenWhole(rec.decided.value.1) && !KnownSince(rec.decided.value.1, m)
      && rec.now - m < 180_000_000_000
  }

  /** The pass judged a refused query by a pool that is whole and known later than the query. */
  ghost predicate FoundWhole(rec: Record) {
    rec.decided.Some? && SeenWhole(rec.decided.value.1) && KnownSince(rec.decided.value.1, rec.decided.value.0)
  }

  ghost predicate WaitRecord(prefix: seq<Record>, rec: Record) {
    && (rec.mark.Some? ==> !rec.queried && prefix != [] && prefix[|prefix| - 1].kept == rec.mark)
    && (rec.mark.Some? ==> rec.kept.None? || rec.kept == rec.mark)
    && (rec.mark.None? && rec.kept.Some? ==> rec.queried && RefusalTime(rec) == rec.kept && rec.decided.Some?)
    && (rec.decided.Some? ==>
          if rec.queried then RefusalTime(rec) == Some(rec.decided.value.0)
          else rec.mark == Some(rec.decided.value.0) && LastQueryRefused(prefix, rec.decided.value.0))
    && (rec.kept.Some? ==> Waited(rec, rec.kept.value))
    && (rec.decided.Some? && rec.kept.None? ==> !Waited(rec, rec.decided.value.0))
    && (rec.started == Some(Heal) ==> FoundWhole(rec))
  }

  ghost predicate HealRecord(prefix: seq<Record>, rec: Record) {
    && (rec.sent == Some(Heal) ==> !HealOpen(prefix) && !rec.deleting)
    && (rec.sent == Some(Heal) ==>
          if rec.operation.None? then rec.started == Some(Heal) else rec.operation == Some(Heal) && rec.decided.None?)
    && (rec.taken == Some(Heal) ==>
          && HealOpen(prefix)
          && if rec.operation.None? then rec.started == Some(Heal) else rec.operation == Some(Heal) && rec.left.None?)
    && (rec.left == Some(Heal) ==> rec.started == Some(Heal) || rec.operation == Some(Heal))
    && (rec.started == Some(Heal) ==> rec.operation.None?)
  }

  ghost predicate GoodRecord(prefix: seq<Record>, rec: Record) {
    GateRecord(prefix, rec) && WaitRecord(prefix, rec) && HealRecord(prefix, rec)
  }

  ghost predicate GoodTrace(trace: seq<Record>) {
    forall k :: 0 <= k < |trace| ==> GoodRecord(trace[..k], trace[k])
  }

  ghost predicate ContInv(trace: seq<Record>, s: State) {
    && MarkInv(trace, s) && s.status.uuid == Uuid(trace) && s.status.operation == OnRecord(trace)
    && (s.box.Open(HEAL_JOB) <==> HealOpen(trace))
    && (s.status.operation == Some(Create) ==> s.status.uuid == "")
  }

  ghost predicate Inv(w: World) {
    PoolRuns.Inv(w.pool) && ViewsSourced(w) && JudgedViews(w) && ContInv(w.trace, w.cont) && GoodTrace(w.trace)
  }

  lemma AppendGood(trace: seq<Record>, rec: Record)
    requires GoodTrace(trace) && GoodRecord(trace, rec)
    ensures GoodTrace(trace + [rec])
  {
    var longer := trace + [rec];
    hide GoodRecord;
    forall k | 0 <= k < |longer| ensures GoodRecord(longer[..k], longer[k]) {
      assert longer[..k] == trace[..k];
      if k == |trace| { assert trace[..k] == trace; }
    }
  }

  lemma StoreGates(trace: seq<Record>, s: State, i: Input, d: Work, rec: Record)
    requires ContInv(trace, s) && Gates(s, i, d) && Sends(s, d)
    requires (rec == Sealed(d) || rec == Sealed(d).(stored := false))
    ensures GateRecord(trace, rec) && HealRecord(trace, rec)
  {
    hide Uuid, OnRecord, HealOpen, MarkInv, HEAL_JOB;
  }

  lemma StoreWaits(trace: seq<Record>, s: State, i: Input, d: Work, rec: Record)
    requires ContInv(trace, s) && Marks(s, i, d) && Judges(i, d)
    requires (rec == Sealed(d) || rec == Sealed(d).(stored := false))
    ensures WaitRecord(trace, rec)
  {
    hide Uuid, OnRecord, HealOpen, LastQueryRefused, SeenWhole, KnownSince, HEAL_JOB;
    assert rec.mark == s.mark && rec.kept == d.s.mark && rec.decided == d.rec.decided && rec.queried == d.rec.queried;
    assert rec.refused == d.rec.refused && rec.started == d.rec.started && rec.now == i.now;
  }

  lemma StoreInv(trace: seq<Record>, before: State, i: Input, d: Work, s: State, rec: Record)
    requires ContInv(trace, before) && Effects(before, i, d) && Sends(before, d)
    requires (s, rec) == if d.err || i.lost then (d.s.(status := before.status), Sealed(d).(stored := false))
      else (d.s, Sealed(d))
    ensures ContInv(trace + [rec], s)
  {
    Extend(trace, rec);
    hide Uuid, OnRecord, HealOpen, LastQueryRefused, SeenWhole, KnownSince, HEAL_JOB, Judges;
    assert rec.kept == d.s.mark && rec.sent == d.rec.sent && rec.taken == d.rec.taken && rec.uuidRead == d.rec.uuidRead;
    assert (trace + [rec])[|trace|] == rec;
  }

  lemma PassGood(trace: seq<Record>, before: State, i: Input)
    requires ContInv(trace, before)
    ensures var (s, rec) := Pass(before, i);
      && ContInv(trace + [rec], s) && GoodRecord(trace, rec)
      && (rec.decided.Some? ==> i.pool == Some(rec.decided.value.1))
  {
    var d := Decide(before, i, Blank(before, i));
    DecideEffects(before, i);
    DecideSends(before, i);
    hide Decide, Gates, Marks, Sends, ContInv, GateRecord, WaitRecord, HealRecord, Waits;
    var (s, rec) := Pass(before, i);
    StoreGates(trace, before, i, d, rec);
    StoreWaits(trace, before, i, d, rec);
    StoreInv(trace, before, i, d, s, rec);
  }

  lemma PassKeepsInv(w: World, look: Look)
    requires Inv(w)
    ensures Inv(Apply(w, Reconcile(look)))
  {
    hide Pass, ContInv, GoodTrace, GoodRecord, PoolRuns.Inv, Sourced;
    PassGood(w.trace, w.cont, InputOf(w, look));
    AppendGood(w.trace, Pass(w.cont, InputOf(w, look)).1);
  }

  lemma PoolStepKeepsInv(w: World, step: PoolRuns.Step, optedIn: bool)
    requires Inv(w)
    ensures var pool := PoolRuns.Apply(w.pool, step);
      Inv(w.(pool := pool, optedIn := optedIn, views := w.views + [ViewOf(pool.s, optedIn)])) && Inv(w.(pool := pool))
  {
    var pool := PoolRuns.Apply(w.pool, step);
    PoolRuns.StepKeepsInv(w.pool, step);
    NewViewSourced(pool, optedIn);
    PoolTraceGrows(w.pool, step);
    hide PoolRuns.Apply, PoolRuns.Inv, Sourced, ContInv, GoodTrace;
    forall v | v in w.views ensures Sourced(v, pool.trace) { SourcedGrows(v, w.pool.trace, pool.trace); }
  }

  lemma PoolTraceGrows(w: PoolRuns.World, step: PoolRuns.Step)
    ensures w.trace <= PoolRuns.Apply(w, step).trace
  {
    hide Pool.Pass;
  }

  lemma OptInKeepsInv(w: World, v: bool)
    requires Inv(w)
    ensures Inv(Apply(w, OptIn(v)))
  {
    NewViewSourced(w.pool, v);
    hide PoolRuns.Inv, Sourced, ContInv, GoodTrace;
  }

  lemma PoolMoveKeepsInv(w: World, p: PoolRuns.Step)
    requires Inv(w)
    ensures Inv(Apply(w, PoolMoves(p)))
  {
    hide Inv, PoolRuns.Apply;
    PoolStepKeepsInv(w, p, w.optedIn);
  }

  lemma RestartKeepsInv(w: World)
    requires Inv(w)
    ensures Inv(Apply(w, OperatorRestart))
  {
    hide PoolRuns.Apply, PoolRuns.Inv, Sourced, Uuid, OnRecord, HealOpen, GoodTrace, LastQueryRefused;
    PoolStepKeepsInv(w, PoolRuns.OperatorRestart, w.optedIn);
  }

  /** What only humans and Jobs do to the container. */
  lemma ContKept(trace: seq<Record>, w: World, step: Step)
    requires ContInv(trace, w.cont)
    requires step.EditAcl? || step.Delete? || step.SetApproved? || step.JobFinished? || step.JobGone?
    ensures ContInv(trace, Apply(w, step).cont)
  {
    hide Uuid, OnRecord, HealOpen, LastQueryRefused, HEAL_JOB, Pass, PoolRuns.Apply;
  }

  lemma StepKeepsInv(w: World, step: Step)
    requires Inv(w)
    ensures Inv(Apply(w, step))
  {
    match step
    case PoolMoves(p) => hide *; PoolMoveKeepsInv(w, p);
    case OptIn(v) => hide *; OptInKeepsInv(w, v);
    case Reconcile(look) => hide *; PassKeepsInv(w, look);
    case OperatorRestart => hide *; RestartKeepsInv(w);
    case _ =>
      hide PoolRuns.Inv, Sourced, ContInv, GoodTrace, Pass, PoolRuns.Apply;
      ContKept(w.trace, w, step);
  }

  lemma {:induction false} RunInv(spec: Pool.Spec, acl: string, steps: seq<Step>)
    ensures Inv(Run(spec, acl, steps))
  {
    if steps != [] {
      RunInv(spec, acl, steps[..|steps| - 1]);
      StepKeepsInv(Run(spec, acl, steps[..|steps| - 1]), steps[|steps| - 1]);
      hide Inv, Apply;
    }
  }

  // ---- theorems

  ghost predicate Reachable(w: World) { exists spec, acl, steps :: Run(spec, acl, steps) == w }

  lemma ReachableInv(w: World)
    requires Reachable(w)
    ensures Inv(w)
  {
    var spec, acl, steps :| Run(spec, acl, steps) == w;
    RunInv(spec, acl, steps);
  }


  ghost predicate IsTrace(trace: seq<Record>) { exists spec, acl, steps :: Run(spec, acl, steps).trace == trace }

  lemma TraceGood(trace: seq<Record>)
    requires IsTrace(trace)
    ensures GoodTrace(trace)
  {
    var spec, acl, steps :| Run(spec, acl, steps).trace == trace;
    RunInv(spec, acl, steps);
  }

  lemma GoodAt(trace: seq<Record>, k: nat)
    requires IsTrace(trace) && k < |trace|
    ensures GoodRecord(trace[..k], trace[k])
  {
    TraceGood(trace);
    hide IsTrace, GoodRecord;
  }

  // ---- clearing a refused container

  /** The stored pass that put the heal on record. */
  lemma {:induction false} HealStart(trace: seq<Record>, n: nat) returns (k: nat)
    requires IsTrace(trace) && n <= |trace| && OnRecord(trace[..n]) == Some(Heal)
    ensures k < n && trace[k].stored && trace[k].started == Some(Heal)
    ensures forall m :: k < m < n ==> trace[m].operation == Some(Heal)
  {
    GoodAt(trace, n - 1);
    assert trace[..n][..n - 1] == trace[..n - 1];
    hide IsTrace, Uuid, HealOpen, LastQueryRefused, SeenWhole, KnownSince;
    var last := trace[n - 1];
    if last.stored && last.started == Some(Heal) { k := n - 1; } else { k := HealStart(trace, n - 1); }
  }

  /** Since pass k a heal Job was there already: open after it, or sent later. */
  ghost predicate SentBefore(trace: seq<Record>, k: nat, j: nat)
    requires k < j <= |trace|
  {
    HealOpen(trace[..k + 1]) || exists m :: k < m < j && trace[m].sent == Some(Heal)
  }

  /** Since pass k the result of a heal Job was taken by a pass that lost its status. */
  ghost predicate ResultLost(trace: seq<Record>, k: nat, j: nat)
    requires j <= |trace|
  {
    exists m :: k < m < j && trace[m].taken == Some(Heal) && !trace[m].stored
  }

  lemma {:induction false} OpenSince(trace: seq<Record>, k: nat, j: nat)
    requires IsTrace(trace) && k < j <= |trace| && forall m :: k < m < j ==> trace[m].operation == Some(Heal)
    requires OnRecord(trace[..j]) == Some(Heal)
    ensures HealOpen(trace[..j]) ==> SentBefore(trace, k, j)
    ensures !HealOpen(trace[..j]) ==> (SentBefore(trace, k, j) <==> ResultLost(trace, k, j))
    ensures ResultLost(trace, k, j) ==> SentBefore(trace, k, j)
  {
    hide *;
    NothingSince(trace, k);
    if k + 1 < j {
      HealAt(trace, j - 1);
      OpenSince(trace, k, j - 1);
      SinceGrows(trace, k, j);
    }
  }

  /** What pass n, which found the heal on record, did to the heal Job. */
  lemma HealAt(trace: seq<Record>, n: nat)
    requires IsTrace(trace) && n < |trace| && trace[n].operation == Some(Heal) && OnRecord(trace[..n + 1]) == Some(Heal)
    ensures OnRecord(trace[..n]) == Some(Heal)
    ensures HealOpen(trace[..n + 1]) <==>
      trace[n].sent == Some(Heal) || (trace[n].taken != Some(Heal) && HealOpen(trace[..n]))
    ensures trace[n].taken == Some(Heal) ==> !trace[n].stored && HealOpen(trace[..n]) && trace[n].sent != Some(Heal)
  {
    GoodAt(trace, n);
    assert trace[..n + 1][..n] == trace[..n] && trace[..n + 1][n] == trace[n];
    hide IsTrace, Uuid, LastQueryRefused, SeenWhole, KnownSince;
  }

  lemma NothingSince(trace: seq<Record>, k: nat)
    requires k < |trace|
    ensures SentBefore(trace, k, k + 1) <==> HealOpen(trace[..k + 1])
    ensures !ResultLost(trace, k, k + 1)
  {}

  lemma SinceGrows(trace: seq<Record>, k: nat, j: nat)
    requires k + 1 < j <= |trace|
    ensures SentBefore(trace, k, j) <==> SentBefore(trace, k, j - 1) || trace[j - 1].sent == Some(Heal)
    ensures ResultLost(trace, k, j) <==>
      ResultLost(trace, k, j - 1) || (trace[j - 1].taken == Some(Heal) && !trace[j - 1].stored)
  {
    hide HealOpen;
  }

  /** Every heal Job there is, sent by pass j: it follows from a judgement that found the pool whole and fresh,
      made in pass j itself if and only if no heal was on record before. Otherwise the judgement is that of the
      stored pass k that put the heal on record, and pass j judged nothing; and the Job then repeats an earlier
      one if and only if a pass in between took the result and lost it. */
  lemma HealJobsRest(trace: seq<Record>, j: nat) returns (k: nat)
    requires IsTrace(trace) && j < |trace| && trace[j].sent == Some(Heal)
    ensures k <= j && trace[k].started == Some(Heal) && FoundWhole(trace[k])
    ensures k == j <==> OnRecord(trace[..j]) == None
    ensures k < j ==> trace[k].stored && trace[j].decided.None? && forall m :: k < m <= j ==>
      trace[m].operation == Some(Heal)
    ensures k < j ==> (SentBefore(trace, k, j) <==> ResultLost(trace, k, j))
  {
    GoodAt(trace, j);
    hide IsTrace, Uuid, HealOpen, LastQueryRefused, SeenWhole, KnownSince, OnRecord, SentBefore, ResultLost;
    if trace[j].operation.None? {
      k := j;
    } else {
      k := HealStart(trace, j);
      GoodAt(trace, k);
      OpenSince(trace, k, j);
    }
  }

  /** Behind every heal Job: a container query that was refused at the time refused, and one pool query, made
      no earlier, that said Ready, no disabled target and rebuild finished, judged by pass k under a DaosPool
      that was opted in and last known to reintegrate incrementally. */
  lemma HealIsJustified(w: World, j: nat) returns (k: nat, refused: int, q: nat)
    requires Reachable(w) && j < |w.trace| && w.trace[j].sent == Some(Heal)
    ensures k <= j && w.trace[k].started == Some(Heal)
    ensures RefusalTime(w.trace[k]) == Some(refused) || (!w.trace[k].queried && LastQueryRefused(w.trace[..k], refused))
    ensures q < |w.pool.trace| && w.pool.trace[q].stored && w.pool.trace[q].read.Some?
    ensures var info := w.pool.trace[q].read.value.1;
      && PoolRuns.RanAt(w.pool.trace[q].read.value) >= refused && (info.started.Some? ==> info.started.value >= refused)
      && info.state == "Ready" && info.disabled == 0 && (info.rebuild == "done" || info.rebuild == "idle")
    ensures w.trace[k].decided.Some? && var v := w.trace[k].decided.value.1;
      v in w.views && v.optedIn && v.mode == "incremental"
  {
    ReachableInv(w);
    var spec, acl, steps :| Run(spec, acl, steps) == w;
    assert IsTrace(w.trace);
    hide Reachable, IsTrace, Run;
    k := HealJobsRest(w.trace, j);
    refused, q := QueryBehind(w, k);
  }

  lemma QueryBehind(w: World, k: nat) returns (refused: int, q: nat)
    requires Inv(w) && k < |w.trace| && w.trace[k].started == Some(Heal)
    ensures RefusalTime(w.trace[k]) == Some(refused) || (!w.trace[k].queried && LastQueryRefused(w.trace[..k], refused))
    ensures q < |w.pool.trace| && w.pool.trace[q].stored && w.pool.trace[q].read.Some?
    ensures var info := w.pool.trace[q].read.value.1;
      && PoolRuns.RanAt(w.pool.trace[q].read.value) >= refused && (info.started.Some? ==> info.started.value >= refused)
      && info.state == "Ready" && info.disabled == 0 && (info.rebuild == "done" || info.rebuild == "idle")
    ensures w.trace[k].decided.Some? && var v := w.trace[k].decided.value.1;
      v in w.views && v.optedIn && v.mode == "incremental"
  {
    hide PoolRuns.Inv, LastQueryRefused, Uuid, OnRecord, HealOpen, ContInv;
    assert GoodRecord(w.trace[..k], w.trace[k]);
    refused := w.trace[k].decided.value.0;
    var v := w.trace[k].decided.value.1;
    assert v in w.views;
    assert Sourced(v, w.pool.trace);
    q :| 0 <= q < |w.pool.trace| && FromQuery(v, w.pool.trace[q]);
  }

  // ---- waiting for a fresher pool status

  /** A whole wait, from the pass c that marked a refused query to pass j - 1: one mark, which is when that
      query ran; no query meanwhile; every pass that judged saw the pool whole and known only from before, with
      time left, unless it is the last, and then the mark is gone. */
  lemma {:induction false} WholeWait(trace: seq<Record>, c: nat, j: nat) returns (m: int)
    requires IsTrace(trace) && c < j <= |trace| && trace[c].mark.None? && trace[c].kept.Some?
    requires forall k :: c < k < j ==> trace[k].mark.Some?
    ensures trace[c].queried && RefusalTime(trace[c]) == Some(m) && trace[c].decided.Some?
    ensures forall k :: c < k < j ==> trace[k].mark == Some(m) && !trace[k].queried
    ensures forall k :: c <= k < j - 1 ==> trace[k].kept == Some(m) && Waited(trace[k], m)
    ensures forall k :: c <= k < j && trace[k].decided.Some? ==>
      trace[k].decided.value.0 == m && (trace[k].kept.Some? <==> Waited(trace[k], m))
  {
    hide *;
    WaitStep(trace, j - 1);
    if j == c + 1 {
      m := trace[c].kept.value;
    } else {
      m := WholeWait(trace, c, j - 1);
      WaitStep(trace, j - 2);
    }
  }

  /** How one pass takes the mark over from the pass before. */
  lemma WaitStep(trace: seq<Record>, k: nat)
    requires IsTrace(trace) && k < |trace|
    ensures var rec := trace[k];
      && (rec.mark.Some? ==> !rec.queried && k > 0 && trace[k - 1].kept == rec.mark)
      && (rec.mark.Some? ==> rec.kept.None? || rec.kept == rec.mark)
      && (rec.mark.None? && rec.kept.Some? ==> rec.queried && RefusalTime(rec) == rec.kept && rec.decided.Some?)
      && (rec.decided.Some? ==>
            Some(rec.decided.value.0) == (if rec.queried then RefusalTime(rec) else rec.mark)
            && (rec.kept.Some? <==> Waited(rec, rec.decided.value.0)))
      && (rec.kept.Some? ==> Waited(rec, rec.kept.value))
  {
    GoodAt(trace, k);
    hide IsTrace, GateRecord, HealRecord, RefusalTime, FoundWhole, LastQueryRefused, SeenWhole, KnownSince;
  }

  /** While a mark is held, for every pass: it survives exactly if the pool or its system is missing, or the
      object is not being deleted and lacks its finalizer, or its pool has no UUID, or the judgement waits. The
      judgement clears the container exactly on a whole and fresh pool, if the Job can be run, and times out
      exactly on a stale one three minutes after the refused query. */
  lemma MarkSurvivesExactly(w: World, look: Look)
    requires Reachable(w) && w.cont.mark.Some?
    ensures var i, m := InputOf(w, look), w.cont.mark.value;
      var (s, rec) := Pass(w.cont, i);
      && !rec.queried && (s.mark.None? || s.mark == Some(m))
      && (s.mark.Some? <==>
            i.pool.None? || !i.systemFound ||
            (!w.cont.deleting && (!w.cont.finalizer || i.pool.value.uuid == "" || Waits(i, i.pool.value, m))))
      && (rec.started == Some(Heal) <==>
            Serves(w.cont, i) && SeenWhole(i.pool.value) && KnownSince(i.pool.value, m)
            && !RunJob(w.cont.box, JobOf(Heal), [w.cont.acl], i.fault).1.ApiError?)
      && (rec.timedOut <==>
            Serves(w.cont, i) && SeenWhole(i.pool.value) && !KnownSince(i.pool.value, m)
            && look.now >= m + 180_000_000_000)
  {
    ReachableInv(w);
    hide Reachable, Pass, InputOf, Serves, Waits, SeenWhole, KnownSince, JobOf, RunJob, PoolRuns.Inv, GoodTrace;
    MarkSurvives(w.cont, InputOf(w, look));
  }

  // ---- creating and destroying

  lemma {:induction false} EmptyUuidBetween(trace: seq<Record>, k: nat, j: nat) returns (m: nat)
    requires k <= j <= |trace| && Uuid(trace[..k]) != "" && Uuid(trace[..j]) == ""
    ensures k <= m < j && trace[m].stored && trace[m].uuidRead == Some("")
  {
    assert k < j;
    assert trace[..j][..j - 1] == trace[..j - 1];
    if trace[j - 1].stored && trace[j - 1].uuidRead == Some("") {
      m := j - 1;
    } else {
      m := EmptyUuidBetween(trace, k, j - 1);
    }
  }

  /** Once a UUID is on record, no pass starts a create again, nor sends a create Job while polling, unless an
      answer in between carried an empty UUID. */
  lemma NoSecondCreate(trace: seq<Record>, k: nat, j: nat) returns (m: nat)
    requires IsTrace(trace) && k <= j < |trace| && Uuid(trace[..k]) != ""
    requires trace[j].started == Some(Create) || trace[j].sent == Some(Create)
    ensures k <= m < j && trace[m].stored && trace[m].uuidRead == Some("")
  {
    TraceGood(trace);
    assert GoodRecord(trace[..j], trace[j]);
    m := EmptyUuidBetween(trace, k, j);
  }

  /** `daos cont destroy` runs only for an object being deleted, with the approval there and a UUID on
      record. */
  lemma DestroyIsGated(trace: seq<Record>, j: nat)
    requires IsTrace(trace) && j < |trace| && (trace[j].destroyRun || trace[j].destroyed.Some?)
    ensures trace[j].deleting && trace[j].approved && Uuid(trace[..j]) != ""
  {
    TraceGood(trace);
    assert GoodRecord(trace[..j], trace[j]);
  }
}
