/** One pass over a DaosSystem (internal/controller/daossystem_controller.go, steps 7c to 9): the full-stop
    restart first, and only when it is idle the format gate, the rank request and the engine restart. */
module System {
  import opened Text
  import opened DaosStatus
  import opened Mailbox
  import FullStop
  import FullStopRuns
  import Format
  import FormatRuns
  import RankOp
  import RankOpRuns
  import EngineRestart
  import EngineRuns
  import EngineExact
  import opened RestartEnds
  import RankSet
  import Readiness

  datatype State = State(
    restart: FullStop.State, format: Format.State, ranks: RankOp.State,
    engines: EngineRestart.Memory, starts: Box<EngineRestart.StartAnswer>)

  /** What a pass sees, and which of its API calls fail; lost is a failure after the last step shown here. */
  datatype Input = Input(
    name: string, now: int, later: int, enabled: bool, configs: seq<NodeConfig>, pods: seq<Pod>, podListFails: bool,
    want: string, tls: bool, timeoutMinutes: int, restartFault: Fault, undeletable: set<string>,
    rotate: FullStop.RotateFault,
    resetFails: bool, certClearFails: bool, nodeByAddr: map<string, string>, formatFault: Fault, formatClearFails: bool,
    pools: seq<RankOp.PoolFact>, listFails: bool, rankFault: Fault, rankClearFails: bool,
    engineFault: Fault, enginePodListFails: bool, lost: bool)

  function RestartInput(i: Input, lost: bool): FullStop.Input {
    FullStop.Input(i.now, i.enabled, Format.Rendered(i.configs), i.pods, i.podListFails, i.want, i.tls,
                   i.timeoutMinutes,
                   i.restartFault, i.undeletable, i.rotate, i.resetFails, i.certClearFails, lost)
  }

  function FormatInput(i: Input, lost: bool): Format.Input {
    Format.Input(i.now, false, i.enabled, i.configs, i.nodeByAddr, i.formatFault, i.formatClearFails, lost)
  }

  /** The rank request is judged by the membership the format step just mirrored. */
  function RankInput(i: Input, st: Format.Status, lost: bool): RankOp.Input {
    RankOp.Input(i.now, st.formatted, st.ranks, i.configs, i.pools, i.listFails, i.rankFault, i.rankClearFails, lost)
  }

  function EngineInput(i: Input, st: Format.Status, requested: bool): EngineRestart.Input {
    EngineRestart.Input(i.now, i.later, i.enabled, Readiness.MembershipKnown(st), requested, i.configs, st.ranks,
                        i.engineFault, i.pods, i.enginePodListFails, i.undeletable)
  }

  // ---- how far a pass gets

  function RestartWork(s: State, i: Input): FullStop.Work {
    var blank := FullStop.Blank(s.restart, RestartInput(i, false));
    if !i.enabled || Format.Rendered(i.configs) == 0 then FullStop.Work(s.restart, blank, false)
    else if i.podListFails then FullStop.Work(s.restart, blank, true)
    else FullStop.Decide(s.restart, RestartInput(i, false), blank)
  }

  function FormatWork(s: State, i: Input): Format.Work {
    Format.Decide(s.format, FormatInput(i, false), Format.Blank(s.format, FormatInput(i, false)))
  }

  function RankWork(s: State, i: Input): RankOp.Work {
    RankOp.Decide(s.ranks, RankInput(i, FormatWork(s, i).s.status, false), RankOp.Blank(s.ranks))
  }

  /** What the engine step does, when it is reached. */
  function EngineWork(s: State, i: Input):
      (EngineRestart.Memory, Box<EngineRestart.StartAnswer>, EngineRestart.Report)
  {
    EngineRestart.Pass(s.engines, s.starts, i.name,
                       EngineInput(i, FormatWork(s, i).s.status, RankWork(s, i).s.request.Some?))
  }

  predicate ReachesFormat(s: State, i: Input) { !RestartWork(s, i).err && !RestartWork(s, i).rec.active }

  predicate ReachesRanks(s: State, i: Input) { ReachesFormat(s, i) && !FormatWork(s, i).err }

  predicate ReachesEngines(s: State, i: Input) { ReachesRanks(s, i) && !RankWork(s, i).err }

  /** The status is stored: the pass ended without an error, early or at its end. */
  predicate Stores(s: State, i: Input) {
    !i.lost && !RestartWork(s, i).err
    && (RestartWork(s, i).rec.active || (ReachesEngines(s, i) && !EngineWork(s, i).2.failed))
  }

  /** A rank result that could be read, and any start result, lets the next membership query go at once. */
  function Unheld(f: Format.State, rrec: RankOp.Record, rep: Option<EngineRestart.Report>): Format.State {
    var ranksRead := rrec.delivered.Some? && rrec.delivered.value.1.Results?;
    if ranksRead || (rep.Some? && rep.value.answer.Some?) then f.(hold := None) else f
  }

  datatype Record = Record(
    restart: FullStop.Record, format: Option<Format.Record>, ranks: Option<RankOp.Record>,
    engines: Option<EngineRestart.Report>)

  /** Each step is the pass of its component, stored or lost with the others. */
  function Pass(s: State, i: Input): (r: (State, Record)) {
    var lost := !Stores(s, i);
    var (restart, rec) := FullStop.Pass(s.restart, RestartInput(i, lost));
    if !ReachesFormat(s, i) then (s.(restart := restart), Record(rec, None, None, None))
    else
      var (format, frec) := Format.Pass(s.format, FormatInput(i, lost));
      if !ReachesRanks(s, i) then (s.(restart := restart, format := format), Record(rec, Some(frec), None, None))
      else
        var st := FormatWork(s, i).s.status;
        var (ranks, rrec) := RankOp.Pass(s.ranks, RankInput(i, st, lost));
        if !ReachesEngines(s, i) then
          (s.(restart := restart, format := Unheld(format, rrec, None), ranks := ranks),
           Record(rec, Some(frec), Some(rrec), None))
        else
          var (mem, starts, rep) := EngineWork(s, i);
          (State(restart, Unheld(format, rrec, Some(rep)), ranks, mem, starts),
           Record(rec, Some(frec), Some(rrec), Some(rep)))
  }

  // ---- the controller

  class Reconciler {
    var restart: FullStop.State
    var format: Format.State
    var ranks: RankOp.State
    var engines: EngineRestart.Memory
    var starts: Box<EngineRestart.StartAnswer>

    ghost function View(): State
      reads this
    {
      State(restart, format, ranks, engines, starts)
    }

    method RunRestart(i: Input) returns (ok: bool, more: bool)
      modifies this`restart
      ensures restart == RestartWork(old(View()), i).s
      ensures ok == !RestartWork(old(View()), i).err && more == ReachesFormat(old(View()), i)
    {
      hide FullStop.Decide, Format.Rendered;
      ok, more := true, true;
      if i.enabled && Format.Rendered(i.configs) > 0 {
        if i.podListFails { return false, false; }
        var w := FullStop.Decide(restart, RestartInput(i, false), FullStop.Blank(restart, RestartInput(i, false)));
        restart, ok, more := w.s, !w.err, !w.err && !w.rec.active;
      }
    }

    /** The steps after an idle restart; was is the state the pass began with. */
    method RunOthers(i: Input, ghost was: State) returns (ok: bool)
      requires was.(restart := restart) == View()
      modifies this`format, this`ranks, this`engines, this`starts
      ensures var f, r, e := FormatWork(was, i), RankWork(was, i), EngineWork(was, i);
        && ok == (!f.err && !r.err && !e.2.failed)
        && format == (if f.err then f.s else Unheld(f.s, r.rec, if r.err then None else Some(e.2)))
        && ranks == (if f.err then was.ranks else r.s)
        && (engines, starts) == (if f.err || r.err then (was.engines, was.starts) else (e.0, e.1))
    {
      hide Format.Decide, RankOp.Decide, EngineRestart.Pass;
      var f := Format.Decide(format, FormatInput(i, false), Format.Blank(format, FormatInput(i, false)));
      format := f.s;
      if f.err { return false; }
      var r := RankOp.Decide(ranks, RankInput(i, f.s.status, false), RankOp.Blank(ranks));
      ranks := r.s;
      if r.rec.delivered.Some? && r.rec.delivered.value.1.Results? { format := format.(hold := None); }
      if r.err { return false; }
      var (mem, box, rep) := EngineRestart.Pass(engines, starts, i.name, EngineInput(i, f.s.status, r.s.request.Some?));
      engines, starts := mem, box;
      if rep.answer.Some? { format := format.(hold := None); }
      ok := !rep.failed;
    }

    /** `Reconcile` from the upgrade step on: the steps in their order, each ending the pass on an error, and
        the first also while a restart runs; what they wrote to the status is stored at the end or not at
        all. */
    method Reconcile(i: Input)
      modifies this
      ensures View() == Pass(old(View()), i).0
    {
      ghost var s := View();
      ghost var lost := !Stores(s, i);
      RestartStored(s, i, lost);
      FormatStored(s, i, lost);
      RanksStored(s, i, lost);
      RankRecord(s, i, lost);
      IdleKeeps(s, i);
      hide EngineWork, FullStop.Pass, Format.Pass, RankOp.Pass, EngineRestart.Pass, RestartWork, FormatWork, RankWork,
           EngineInput, RestartInput,
           FormatInput, RankInput, Format.Rendered;
      var upgrade, status, last := restart.upgrade, format.status, ranks.last;
      var ok, more := RunRestart(i);
      if more { ok := RunOthers(i, s); }
      if !ok || i.lost {
        restart, format, ranks := restart.(upgrade := upgrade), format.(status := status), ranks.(last := last);
      }
    }
  }

  lemma IdleKeeps(s: State, i: Input)
    ensures !i.enabled || Format.Rendered(i.configs) == 0 ==> RestartWork(s, i).s == s.restart
  {}

  // ---- what a component's pass decides does not depend on whether it will be stored

  lemma StopUnaware(s: FullStop.State, i: FullStop.Input, rec: FullStop.Record, b: bool)
    requires s.upgrade.Some?
    ensures FullStop.Stop(s, i.(writeFails := b), rec) == FullStop.Stop(s, i, rec)
  {
    hide RunJob;
  }

  lemma UpdateUnaware(s: FullStop.State, i: FullStop.Input, rec: FullStop.Record, b: bool)
    requires s.upgrade.Some?
    ensures FullStop.Update(s, i.(writeFails := b), rec) == FullStop.Update(s, i, rec)
  {
    hide FullStop.Replace, FullStop.Rotate;
  }

  lemma StartUnaware(s: FullStop.State, i: FullStop.Input, rec: FullStop.Record, b: bool)
    requires s.upgrade.Some?
    ensures FullStop.Start(s, i.(writeFails := b), rec) == FullStop.Start(s, i, rec)
    ensures FullStop.Verify(s, i.(writeFails := b), rec) == FullStop.Verify(s, i, rec)
  {
    hide RunJob, FullStop.AllJoined;
  }

  lemma AdvanceUnaware(s: FullStop.State, i: FullStop.Input, rec: FullStop.Record, b: bool)
    requires FullStop.InProgress(s.upgrade)
    ensures FullStop.Advance(s, i.(writeFails := b), rec) == FullStop.Advance(s, i, rec)
  {
    StopUnaware(s, i, rec, b);
    UpdateUnaware(s, i, rec, b);
    StartUnaware(s, i, rec, b);
    hide FullStop.Stop, FullStop.Update, FullStop.Start, FullStop.Verify, FullStop.ReadyCount;
  }

  lemma RestartUnaware(s: FullStop.State, i: FullStop.Input, rec: FullStop.Record, b: bool)
    ensures FullStop.Decide(s, i.(writeFails := b), rec) == FullStop.Decide(s, i, rec)
  {
    hide FullStop.Advance, FullStop.HasStale;
    var begun := rec.(active := true, began := true);
    if FullStop.InProgress(s.upgrade) {
      AdvanceUnaware(s, i, rec.(active := true), b);
    } else {
      var rotation := FullStop.Upgrade(FullStop.CertificateRotation, FullStop.Stopping, Some(i.now));
      var image := FullStop.Upgrade(FullStop.ImageChange, FullStop.Stopping, Some(i.now));
      AdvanceUnaware(s.(upgrade := Some(rotation)), i, begun, b);
      AdvanceUnaware(s.(upgrade := Some(image)), i, begun, b);
    }
  }

  lemma FormatStepUnaware(s: Format.State, i: Format.Input, only: seq<string>, rec: Format.Record, b: bool)
    ensures Format.FormatStep(s, i.(lost := b), only, rec) == Format.FormatStep(s, i, only, rec)
  {
    hide RunJob, Format.FormatArgs, Format.AllServersReady;
  }

  lemma QueryStepUnaware(s: Format.State, i: Format.Input, approved: bool, rec: Format.Record, b: bool)
    ensures Format.QueryStep(s, i.(lost := b), approved, rec) == Format.QueryStep(s, i, approved, rec)
  {
    hide RunJob, Format.Stale, Format.FormatHosts, Format.AwaitingCount, Format.RanksOf, JoinedCount;
  }

  lemma GateUnaware(s: Format.State, i: Format.Input, rec: Format.Record, b: bool)
    ensures Format.Gate(s, i.(lost := b), rec) == Format.Gate(s, i, rec)
  {
    var approved := s.approval == Some("true") && !i.external;
    FormatStepUnaware(s, i, if s.status.formatted then Format.FormatHosts(s.status.ranks, i.configs) else [], rec, b);
    QueryStepUnaware(s, i, approved, rec, b);
    hide Format.FormatStep, Format.QueryStep, Format.FormatHosts;
  }

  lemma FormatUnaware(s: Format.State, i: Format.Input, rec: Format.Record, b: bool)
    ensures Format.Decide(s, i.(lost := b), rec) == Format.Decide(s, i, rec)
  {
    GateUnaware(s, i, rec, b);
    GateUnaware(Format.ClearApproval(s, i.clearFails).0, i, rec, b);
    hide Format.Gate, Format.Rendered;
  }

  lemma RanksUnaware(s: RankOp.State, i: RankOp.Input, rec: RankOp.Record, b: bool)
    ensures RankOp.Decide(s, i.(lost := b), rec) == RankOp.Decide(s, i, rec)
  {
    hide RunJob, RankOp.ParseRequest, RankOp.PreconditionHolds, RankOp.PoolsAllow, RankOp.AsksPools, RankOp.Args;
    if s.request.Some? && RankOp.ParseRequest(s.request.value).Some? {
      var (op, ranks) := RankOp.ParseRequest(s.request.value).value;
      SamePrecondition(op, ranks, i, b);
    }
  }

  lemma SamePrecondition(op: string, ranks: string, i: RankOp.Input, b: bool)
    ensures RankOp.PreconditionHolds(op, ranks, i.(lost := b)) == RankOp.PreconditionHolds(op, ranks, i)
  {
    hide RankOp.AdminExcluded, RankOp.EngineGone;
  }

  lemma RestartStored(s: State, i: Input, lost: bool)
    ensures var w := RestartWork(s, i);
      FullStop.Pass(s.restart, RestartInput(i, lost)).0 ==
        if w.err || (lost && i.enabled && Format.Rendered(i.configs) > 0) then w.s.(upgrade := s.restart.upgrade)
        else w.s
  {
    RestartUnaware(s.restart, RestartInput(i, false), FullStop.Blank(s.restart, RestartInput(i, false)), lost);
    assert RestartInput(i, lost) == RestartInput(i, false).(writeFails := lost);
    assert FullStop.Blank(s.restart, RestartInput(i, lost)) == FullStop.Blank(s.restart, RestartInput(i, false));
    hide FullStop.Decide, Format.Rendered;
  }

  lemma FormatStored(s: State, i: Input, lost: bool)
    ensures var w := FormatWork(s, i);
      Format.Pass(s.format, FormatInput(i, lost)).0 == if w.err || lost then w.s.(status := s.format.status) else w.s
  {
    FormatUnaware(s.format, FormatInput(i, false), Format.Blank(s.format, FormatInput(i, false)), lost);
    assert FormatInput(i, lost) == FormatInput(i, false).(lost := lost);
    hide Format.Decide;
  }

  lemma RanksStored(s: State, i: Input, lost: bool)
    ensures var w := RankWork(s, i);
      RankOp.Pass(s.ranks, RankInput(i, FormatWork(s, i).s.status, lost)).0 ==
        if w.err || lost then w.s.(last := s.ranks.last) else w.s
  {
    var st := FormatWork(s, i).s.status;
    RanksUnaware(s.ranks, RankInput(i, st, false), RankOp.Blank(s.ranks), lost);
    assert RankInput(i, st, lost) == RankInput(i, st, false).(lost := lost);
    hide RankOp.Decide, FormatWork;
  }

  lemma RankRecord(s: State, i: Input, lost: bool)
    ensures RankOp.Pass(s.ranks, RankInput(i, FormatWork(s, i).s.status, lost)).1.delivered ==
      RankWork(s, i).rec.delivered
  {
    var st := FormatWork(s, i).s.status;
    RanksUnaware(s.ranks, RankInput(i, st, false), RankOp.Blank(s.ranks), lost);
    assert RankInput(i, st, lost) == RankInput(i, st, false).(lost := lost);
    hide RankOp.Decide, FormatWork;
  }

  // ---- a running restart has the system to itself

  /** The restart step is skipped: no server is wanted, or none rendered. */
  predicate Skipped(i: Input) { !i.enabled || Format.Rendered(i.configs) == 0 }

  /** No approval is left that cannot be removed. */
  predicate CanClear(s: State, i: Input) {
    !(s.restart.approved && i.resetFails) && !(s.restart.certs.Some? && i.certClearFails)
  }

  /** A pass that finds or begins a restart gets to the format, rank and engine steps if and only if it skips
      the restart step, or can list the pods, the restart is over by what it was given, and its approvals can be
      removed. Otherwise it runs no Job of theirs and leaves all else as it was. */
  lemma RestartExcludesOthers(s: State, i: Input)
    requires Engaged(s.restart, RestartInput(i, false))
    ensures Pass(s, i).1.format.Some? <==>
      Skipped(i) || (!i.podListFails && Over(s.restart, RestartInput(i, false)) && CanClear(s, i))
    ensures Pass(s, i).1.format.None? ==>
      Pass(s, i).0 == s.(restart := Pass(s, i).0.restart) && Pass(s, i).1.ranks.None? && Pass(s, i).1.engines.None?
  {
    GetsPast(s, i);
    hide FullStop.Pass, Format.Pass, RankOp.Pass, EngineWork, FormatWork, RankWork, RestartWork, FormatInput, RankInput,
         RestartInput, Skipped, Unheld, Stores, Engaged, Over, CanClear;
  }

  lemma GetsPast(s: State, i: Input)
    requires Engaged(s.restart, RestartInput(i, false))
    ensures ReachesFormat(s, i) <==>
      Skipped(i) || (!i.podListFails && Over(s.restart, RestartInput(i, false)) && CanClear(s, i))
  {
    DecideEnds(s.restart, RestartInput(i, false));
    hide FullStop.Decide, Format.Rendered, EndsCleanly, Over, Engaged;
    if !Skipped(i) && !i.podListFails { CleanEnd(s.restart, RestartInput(i, false), RestartWork(s, i)); }
  }

  /** The failing case: a restart past its timeout is ended by a pass whose status is then lost. The pass runs
      the format step, and the restart is still in progress on record. */
  lemma LostEndRunsOthers(s: State, i: Input)
    requires FullStop.InProgress(s.restart.upgrade) && s.restart.upgrade.value.startedAt.Some? && !Skipped(i)
    requires !i.podListFails
    requires i.now - s.restart.upgrade.value.startedAt.value > FullStop.Timeout(RestartInput(i, false))
    requires !(s.restart.approved && i.resetFails) && !(s.restart.certs.Some? && i.certClearFails) && i.lost
    ensures Pass(s, i).1.format.Some? && Pass(s, i).0.restart.upgrade == s.restart.upgrade
  {
    RestartStored(s, i, true);
    var rec := FullStop.Blank(s.restart, RestartInput(i, false)).(active := true);
    assert RestartWork(s, i) == FullStop.End(s.restart, RestartInput(i, false), rec, false);
    hide FullStop.Pass, Format.Pass, RankOp.Pass, EngineWork, FormatWork, RankWork, RestartWork, FormatInput,
         RankInput, Unheld,
         Format.Rendered;
  }

  // ---- whole runs

  /** The four histories a run of the system writes. */
  datatype World = World(restart: FullStopRuns.World, format: FormatRuns.World, ranks: RankOpRuns.World,
      engines: EngineRuns.World)

  /** A pass; the operator restarting, which forgets what it kept in memory; or humans, Jobs and pods moving
      on under one component. */
  datatype Step =
    | Reconcile(i: Input)
    | OperatorRestart
    | RestartMoves(restart: FullStopRuns.Step)
    | FormatMoves(format: FormatRuns.Step)
    | RanksMove(ranks: RankOpRuns.Step)
    | EnginesMove(engines: EngineRuns.Step)

  function StateOf(w: World): State { State(w.restart.s, w.format.s, w.ranks.s, w.engines.mem, w.engines.box) }

  /** What a pass adds to the histories. */
  function Passed(w: World, i: Input): World {
    var (s, rec) := Pass(StateOf(w), i);
    World(
      FullStopRuns.World(s.restart, w.restart.approvals, w.restart.trace + [rec.restart]),
      if rec.format.Some? then FormatRuns.World(s.format, w.format.approvals, w.format.trace + [rec.format.value])
      else w.format,
      if rec.ranks.Some? then
          RankOpRuns.World(s.ranks, w.ranks.log + [RankOpRuns.Looked(i.now, rec.ranks.value, s.ranks.last)])
      else w.ranks,
      if rec.engines.Some? then
        EngineRuns.World(s.engines, s.starts, i.later, w.engines.trace + [EngineRuns.Passed(rec.engines.value)])
      else w.engines)
  }

  /** Time does not run backwards from one look at the engines to the next. */
  function Apply(w: World, name: string, step: Step): World {
    match step
    case Reconcile(i) => if i.name == name && w.engines.clock <= i.now <= i.later then Passed(w, i) else w
    case OperatorRestart =>
      w.(format := FormatRuns.Apply(w.format, FormatRuns.OperatorRestart),
         engines := EngineRuns.Apply(w.engines, name, EngineRuns.Restart))
    case RestartMoves(m) => if m.Reconcile? then w else w.(restart := FullStopRuns.Apply(w.restart, m))
    case FormatMoves(m) => if m.Reconcile? || m.OperatorRestart? then w else w.(format := FormatRuns.Apply(w.format, m))
    case RanksMove(m) => if m.Look? then w else w.(ranks := RankOpRuns.Apply(w.ranks, m))
    case EnginesMove(m) => if m.Reconcile? || m.Restart? then w else w.(engines := EngineRuns.Apply(w.engines, name, m))
  }

  function Run(name: string, start: int, steps: seq<Step>): World {
    if steps == [] then
      World(FullStopRuns.Initial, FormatRuns.Initial, RankOpRuns.Initial, EngineRuns.Run(name, start, []))
    else Apply(Run(name, start, steps[..|steps| - 1]), name, steps[|steps| - 1])
  }

  ghost predicate Reachable(name: string, w: World) { exists start, steps :: Run(name, start, steps) == w }

  /** Each component's history is that of a run of the component alone. */
  ghost predicate Projects(name: string, w: World) {
    && FullStopRuns.Reachable(w.restart) && FormatRuns.Reachable(w.format)
    && RankOpRuns.Reachable(w.ranks) && EngineRuns.Reachable(name, w.engines)
  }

  lemma RestartPasses(w: World, i: Input)
    ensures Passed(w, i).restart ==
      FullStopRuns.Apply(w.restart, FullStopRuns.Reconcile(RestartInput(i, !Stores(StateOf(w), i))))
  {
    hide FullStop.Pass, Format.Pass, RankOp.Pass, Stores, RestartWork, FormatWork, RankWork, EngineWork, RestartInput,
         FormatInput,
         RankInput, Unheld;
  }

  /** The format gate's part of a pass: nothing, a pass of its own, or one followed by the loss of its hold. */
  lemma FormatPasses(w: World, i: Input)
    ensures var alone := FormatRuns.Apply(w.format, FormatRuns.Reconcile(FormatInput(i, !Stores(StateOf(w), i))));
      var f := Passed(w, i).format;
      f == w.format || f == alone || f == FormatRuns.Apply(alone, FormatRuns.OperatorRestart)
  {
    hide FullStop.Pass, Format.Pass, RankOp.Pass, Stores, RestartWork, FormatWork, RankWork, EngineWork, RestartInput,
         FormatInput,
         RankInput;
  }

  lemma RanksPass(w: World, i: Input)
    ensures var look := RankOpRuns.Look(RankInput(i, FormatWork(StateOf(w), i).s.status, !Stores(StateOf(w), i)));
      Passed(w, i).ranks == w.ranks || Passed(w, i).ranks == RankOpRuns.Apply(w.ranks, look)
  {
    hide FullStop.Pass, Format.Pass, RankOp.Pass, Stores, RestartWork, FormatWork, RankWork, EngineWork, RestartInput,
         FormatInput,
         Unheld;
  }

  lemma EnginesPass(w: World, i: Input)
    requires w.engines.clock <= i.now <= i.later
    ensures var s := StateOf(w);
      var step := EngineRuns.Reconcile(EngineInput(i, FormatWork(s, i).s.status, RankWork(s, i).s.request.Some?));
      Passed(w, i).engines == w.engines || Passed(w, i).engines == EngineRuns.Apply(w.engines, i.name, step)
  {
    hide FullStop.Pass, Format.Pass, RankOp.Pass, EngineRestart.Pass, Stores, RestartWork, FormatWork, RankWork,
         RestartInput,
         FormatInput, RankInput, Unheld;
  }

  lemma RestartGoesOn(w: FullStopRuns.World, step: FullStopRuns.Step)
    requires FullStopRuns.Reachable(w)
    ensures FullStopRuns.Reachable(FullStopRuns.Apply(w, step))
  {
    hide FullStopRuns.Apply;
    var steps :| FullStopRuns.Run(steps) == w;
    assert (steps + [step])[..|steps|] == steps;
    assert FullStopRuns.Run(steps + [step]) == FullStopRuns.Apply(w, step);
  }

  lemma FormatGoesOn(w: FormatRuns.World, step: FormatRuns.Step)
    requires FormatRuns.Reachable(w)
    ensures FormatRuns.Reachable(FormatRuns.Apply(w, step))
  {
    hide FormatRuns.Apply;
    var steps :| FormatRuns.Run(steps) == w;
    assert (steps + [step])[..|steps|] == steps;
    assert FormatRuns.Run(steps + [step]) == FormatRuns.Apply(w, step);
  }

  lemma RanksGoOn(w: RankOpRuns.World, step: RankOpRuns.Step)
    requires RankOpRuns.Reachable(w)
    ensures RankOpRuns.Reachable(RankOpRuns.Apply(w, step))
  {
    hide RankOpRuns.Apply;
    var steps :| RankOpRuns.Run(steps) == w;
    assert (steps + [step])[..|steps|] == steps;
    assert RankOpRuns.Run(steps + [step]) == RankOpRuns.Apply(w, step);
  }

  lemma EnginesGoOn(w: EngineRuns.World, name: string, step: EngineRuns.Step)
    requires EngineRuns.Reachable(name, w)
    ensures EngineRuns.Reachable(name, EngineRuns.Apply(w, name, step))
  {
    hide EngineRuns.Apply;
    var start, steps :| EngineRuns.Run(name, start, steps) == w;
    assert (steps + [step])[..|steps|] == steps;
    assert EngineRuns.Run(name, start, steps + [step]) == EngineRuns.Apply(w, name, step);
  }

  lemma PassProjects(name: string, w: World, i: Input)
    requires Projects(name, w) && i.name == name && w.engines.clock <= i.now <= i.later
    ensures Projects(name, Passed(w, i))
  {
    var s := StateOf(w);
    var format := FormatRuns.Reconcile(FormatInput(i, !Stores(s, i)));
    RestartPasses(w, i);
    FormatPasses(w, i);
    RanksPass(w, i);
    EnginesPass(w, i);
    RestartGoesOn(w.restart, FullStopRuns.Reconcile(RestartInput(i, !Stores(s, i))));
    FormatGoesOn(w.format, format);
    FormatGoesOn(FormatRuns.Apply(w.format, format), FormatRuns.OperatorRestart);
    RanksGoOn(w.ranks, RankOpRuns.Look(RankInput(i, FormatWork(s, i).s.status, !Stores(s, i))));
    EnginesGoOn(w.engines, name,
                EngineRuns.Reconcile(EngineInput(i, FormatWork(s, i).s.status, RankWork(s, i).s.request.Some?)));
    hide Passed, FullStopRuns.Reachable, FormatRuns.Reachable, RankOpRuns.Reachable, EngineRuns.Reachable,
         FullStopRuns.Apply,
         FormatRuns.Apply, RankOpRuns.Apply, EngineRuns.Apply, Stores, FormatWork, RankWork;
  }

  lemma StepProjects(name: string, w: World, step: Step)
    requires Projects(name, w)
    ensures Projects(name, Apply(w, name, step))
  {
    hide Passed, FullStopRuns.Reachable, FormatRuns.Reachable, RankOpRuns.Reachable, EngineRuns.Reachable,
         FullStopRuns.Apply,
         FormatRuns.Apply, RankOpRuns.Apply, EngineRuns.Apply;
    match step
    case Reconcile(i) => if i.name == name && w.engines.clock <= i.now <= i.later { PassProjects(name, w, i); }
    case OperatorRestart =>
      FormatGoesOn(w.format, FormatRuns.OperatorRestart);
      EnginesGoOn(w.engines, name, EngineRuns.Restart);
    case RestartMoves(m) => RestartGoesOn(w.restart, m);
    case FormatMoves(m) => FormatGoesOn(w.format, m);
    case RanksMove(m) => RanksGoOn(w.ranks, m);
    case EnginesMove(m) => EnginesGoOn(w.engines, name, m);
  }

  lemma {:induction false} RunProjects(name: string, start: int, steps: seq<Step>)
    ensures Projects(name, Run(name, start, steps))
  {
    if steps == [] {
      assert FullStopRuns.Run([]) == FullStopRuns.Initial && FormatRuns.Run([]) == FormatRuns.Initial;
      assert RankOpRuns.Run([]) == RankOpRuns.Initial;
    } else {
      RunProjects(name, start, steps[..|steps| - 1]);
      StepProjects(name, Run(name, start, steps[..|steps| - 1]), steps[|steps| - 1]);
      hide Projects, Apply;
    }
  }

  /** In every run of the whole system, with all components sharing one status and losing it together, each
      component has a run of its own behind it, and with it every promise its module proves; here the central
      ones side by side. */
  lemma ComponentsKeepTheirPromises(name: string, w: World)
    requires Reachable(name, w)
    ensures Projects(name, w)
    ensures FullStopRuns.GoodTrace(w.restart.trace) && FullStopRuns.Begun(w.restart.trace) <= w.restart.approvals
    ensures
      && FormatRuns.GoodTrace(w.format.trace) && FormatRuns.StatusInv(w.format.trace, w.format.s.status)
      && FormatRuns.Creates(w.format.trace) <= w.format.approvals + FormatRuns.FailedClears(w.format.trace)
    ensures RankOpRuns.GoodLog(w.ranks.log)
    ensures EngineRuns.Inv(w.engines) && EngineRuns.GoodTrace(w.engines.trace)
  {
    var start, steps :| Run(name, start, steps) == w;
    RunProjects(name, start, steps);
    hide Run, Reachable, Projects;
    assert Projects(name, w);
    RestartPromises(w.restart, name, w);
    FormatPromises(w.format, name, w);
    RanksPromise(name, w);
    EnginesPromise(name, w);
  }

  lemma RestartPromises(r: FullStopRuns.World, name: string, w: World)
    requires Projects(name, w) && r == w.restart
    ensures FullStopRuns.GoodTrace(r.trace) && FullStopRuns.Begun(r.trace) <= r.approvals
  {
    FullStopRuns.ReachableInv(r);
    hide FullStopRuns.GoodTrace, FullStopRuns.Begun;
  }

  lemma FormatPromises(f: FormatRuns.World, name: string, w: World)
    requires Projects(name, w) && f == w.format
    ensures FormatRuns.GoodTrace(f.trace) && FormatRuns.StatusInv(f.trace, f.s.status)
    ensures FormatRuns.Creates(f.trace) <= f.approvals + FormatRuns.FailedClears(f.trace)
  {
    FormatRuns.ReachableInv(f);
    hide FormatRuns.GoodTrace, FormatRuns.StatusInv, FormatRuns.Creates, FormatRuns.FailedClears;
  }

  lemma RanksPromise(name: string, w: World)
    requires Projects(name, w)
    ensures RankOpRuns.GoodLog(w.ranks.log)
  {
    var steps :| RankOpRuns.Run(steps) == w.ranks;
    RankOpRuns.RunInv(steps);
    hide RankOpRuns.Run, RankOpRuns.GoodLog;
  }

  lemma EnginesPromise(name: string, w: World)
    requires Projects(name, w)
    ensures EngineRuns.Inv(w.engines) && EngineRuns.GoodTrace(w.engines.trace)
  {
    EngineRuns.ReachableInv(name, w.engines);
    hide EngineRuns.GoodTrace, EngineRuns.Reachable;
  }

  /** The steps of a pass see what the steps before them found: the engines are judged by the rows the format step
      has just mirrored, and none is started while the membership is not known, servers are off, or a rank request is
      left. */
  lemma EnginesSeeThisPass(s: State, i: Input)
    requires Pass(s, i).1.engines.Some? && Stores(s, i)
    ensures var (s', rec) := Pass(s, i);
      && rec.engines.value.members == s'.format.status.ranks
      && (rec.engines.value.due != [] ==>
            i.enabled && s'.format.status.condition == Format.True(false) && s'.ranks.request.None?)
  {
    FormatStored(s, i, false);
    RanksStored(s, i, false);
    UnheldKeeps(Format.Pass(s.format, FormatInput(i, false)).0,
                RankOp.Pass(s.ranks, RankInput(i, FormatWork(s, i).s.status, false)).1, Some(EngineWork(s, i).2));
    var e := EngineInput(i, FormatWork(s, i).s.status, RankWork(s, i).s.request.Some?);
    NothingDueUnwatched(s.engines, s.starts, i.name, e);
    hide Stores, RestartWork, FormatWork, RankWork, FullStop.Pass, Format.Pass, RankOp.Pass, EngineRestart.Pass, Unheld,
         RestartInput, FormatInput, RankInput;
  }

  lemma UnheldKeeps(f: Format.State, rrec: RankOp.Record, rep: Option<EngineRestart.Report>)
    ensures Unheld(f, rrec, rep).status == f.status
  {}

  lemma NothingDueUnwatched(m: EngineRestart.Memory, b: Box<EngineRestart.StartAnswer>, name: string,
                            i: EngineRestart.Input)
    ensures var rep := EngineRestart.Pass(m, b, name, i).2;
      rep.members == i.members && (rep.due != [] ==> i.enabled && i.known && !i.opRequested)
  {
    var rep := EngineRestart.Pass(m, b, name, i).2;
    EngineRuns.ConcludeRunning(EngineRestart.PlanOf(m, i), b, name, i);
    if rep.due != [] {
      EngineExact.BatchExactly(m, b, name, i, rep.due[0]);
      assert multiset(rep.due)[rep.due[0]] > 0;
    }
    hide EngineRestart.PlanOf, EngineRestart.Conclude;
  }

  /** After a rank result that could be read, or any start result, the next pass may ask for the members at once; after
      any other pass as the format step left it. */
  lemma QueryGoesAtOnceExactly(s: State, i: Input)
    ensures var (s', rec) := Pass(s, i);
      var news := (rec.ranks.Some? && rec.ranks.value.delivered.Some? && rec.ranks.value.delivered.value.1.Results?)
        || (rec.engines.Some? && rec.engines.value.answer.Some?);
      s'.format.hold ==
        if news then None
        else if rec.format.Some? then Format.Pass(s.format, FormatInput(i, !Stores(s, i))).0.hold
        else s.format.hold
  {
    hide Stores, ReachesFormat, ReachesRanks, ReachesEngines, FullStop.Pass, Format.Pass, RankOp.Pass, EngineWork,
         RestartInput, FormatInput, RankInput, FormatWork;
  }

  /** In every run, a reintegrate Job goes out only for ranks that dmg's latest member list gives no reason
      against: an administratively excluded rank slips through only under a row shown as unresponsive, and so
      does one without an engine, unless its server is ready. */
  lemma ReintegrateFitsMembers(name: string, w: World, i: Input) returns (op: string, ranks: string)
    requires Reachable(name, w) && Pass(StateOf(w), i).1.ranks.Some? && Pass(StateOf(w), i).1.ranks.value.created
    ensures w.ranks.s.request.Some? && RankOp.ParseRequest(w.ranks.s.request.value) == Some((op, ranks))
    ensures
      var f := FormatWork(StateOf(w), i);
      var (members, nodeByAddr) := FormatRuns.LastMembers(w.format.trace + [f.rec]);
      var rows := f.s.status.ranks;
      && f.s.status.formatted && |rows| == |members|
      && (op == "reintegrate" ==> forall k :: 0 <= k < |members| && members[k].rank in RankSet.RankSetOf(ranks) ==>
            && FormatRuns.IsRow(members[k], nodeByAddr, rows[k])
            && (|| rows[k].state == "unresponsive"
                || RankOpRuns.HasEngine(members[k].state, i.configs, rows[k].node)))
  {
    var s := StateOf(w);
    var st := FormatWork(s, i).s.status;
    RanksCreated(s, i);
    op, ranks := RankOpRuns.GuardsHoldAtCreation(s.ranks, RankInput(i, st, !Stores(s, i)));
    WorkingStatus(name, w, i);
    hide Reachable, Pass, FormatWork, Stores, RankOp.Pass, RankOp.ParseRequest, RankSet.RankSetOf,
         FormatRuns.LastMembers, FormatRuns.LastEvent, JoinedCount, RankOpRuns.HasEngine, FormatRuns.StandsFor;
    if op == "reintegrate" {
      var (members, nodeByAddr) := FormatRuns.LastMembers(w.format.trace + [FormatWork(s, i).rec]);
      forall k | 0 <= k < |members| && members[k].rank in RankSet.RankSetOf(ranks)
        ensures FormatRuns.IsRow(members[k], nodeByAddr, st.ranks[k])
        ensures st.ranks[k].state == "unresponsive"
                || RankOpRuns.HasEngine(members[k].state, i.configs, st.ranks[k].node)
      {
        assert st.ranks[k] in st.ranks;
      }
    }
  }

  lemma RanksCreated(s: State, i: Input)
    requires Pass(s, i).1.ranks.Some?
    ensures Pass(s, i).1.ranks.value == RankOp.Pass(s.ranks, RankInput(i, FormatWork(s, i).s.status, !Stores(s, i))).1
  {
    hide FullStop.Pass, Format.Pass, RankOp.Pass, Stores, RestartWork, FormatWork, RankWork, EngineWork, RestartInput,
         FormatInput,
         Unheld, RankInput;
  }

  lemma WorkingStatus(name: string, w: World, i: Input)
    requires Reachable(name, w) && !FormatWork(StateOf(w), i).err
    ensures FormatRuns.StatusInv(w.format.trace + [FormatWork(StateOf(w), i).rec], FormatWork(StateOf(w), i).s.status)
  {
    ComponentsKeepTheirPromises(name, w);
    FormatRuns.DecideGood(w.format.trace, w.format.s, FormatInput(i, false));
    hide Reachable, FormatRuns.StatusInv, Format.Decide, Projects;
  }

  const NODES: seq<NodeConfig> := [NodeConfig("n1", "10.0.0.1", true, true, true)]

  function PassAt(now: int, lost: bool): Input {
    Input("s", now, now, true, NODES, [], false, "", true, 0, NoFault, {}, FullStop.RotateOk, false, false, map[],
          NoFault, false,
          [], false, NoFault, false, NoFault, false, lost)
  }

  lemma BeginsRotation(s: State, now: int)
    requires s.restart.certs == Some("true") && !FullStop.InProgress(s.restart.upgrade)
    requires s.restart.box.Free(FullStop.STOP_JOB)
    ensures Stores(s, PassAt(now, false)) && !Skipped(PassAt(now, false))
    ensures Pass(s, PassAt(now, false)).1.format.None?
    ensures Pass(s, PassAt(now, false)).0.restart.upgrade ==
      Some(FullStop.Upgrade(FullStop.CertificateRotation, FullStop.Stopping, Some(now)))
    ensures Pass(s, PassAt(now, false)).0.restart.certs == Some("true")
    ensures Pass(s, PassAt(now, false)).0.restart.approved == s.restart.approved
  {
    var i := PassAt(now, false);
    assert NODES[..0] == [];
    assert Format.Rendered(NODES) == 1;
    hide Format.Rendered, Format.Pass, RankOp.Pass, EngineWork, FormatWork, RankWork, Unheld;
    assert RestartWork(s, i) ==
        FullStop.Decide(s.restart, RestartInput(i, false), FullStop.Blank(s.restart, RestartInput(i, false)));
  }

  function Approved(name: string): World {
    Apply(Run(name, 0, []), name, RestartMoves(FullStopRuns.SetCerts(Some("true"))))
  }

  /** A run that gets there: a certificate rotation is approved and begins, its stop never comes back, and the
      pass that gives up after half an hour loses its status. The format gate was run, and the rotation is
      still in progress. */
  lemma LostEndHappens() returns (steps: seq<Step>)
    ensures var w := Run("s", 0, steps);
      w.format.trace != [] && FullStop.InProgress(w.restart.s.upgrade)
  {
    var approve := RestartMoves(FullStopRuns.SetCerts(Some("true")));
    var first, last := PassAt(0, false), PassAt(31 * MINUTE, true);
    steps := [approve, Reconcile(first), Reconcile(last)];
    assert steps[..2] == [approve, Reconcile(first)] && steps[..2][..1] == [approve] && [approve][..0] == [];
    var w1 := Approved("s");
    var w2 := Passed(w1, first);
    assert Run("s", 0, []).engines.clock == 0;
    assert Run("s", 0, [approve]) == w1;
    BeginsRotation(StateOf(w1), 0);
    hide Pass, FullStopRuns.Apply, Approved;
    assert Run("s", 0, steps[..2]) == w2;
    LostEndRunsOthers(StateOf(w2), last);
  }


  // ---- what the rank guard sees

  lemma MarkedRows(ranks: seq<RankStatus>, configs: seq<NodeConfig>, replicas: seq<string>)
    ensures var marked := Format.Mark(ranks, configs, replicas);
      && |marked| == |ranks|
      && forall k :: 0 <= k < |ranks| ==>
           marked[k] == if Format.IsDown(configs, replicas, ranks[k].node) then ranks[k].(state := UNRESPONSIVE)
           else ranks[k]
  {
    forall k | 0 <= k < |ranks| { FormatRuns.MarkAt(ranks, configs, replicas, k); }
  }

  /** A node known to be down turns its ranks' rows "unresponsive", and with them the states the guard of a
      reintegrate looks for: after that the guard finds an administrative exclusion exactly if one is on a
      node that is not down. */
  lemma GuardSeesExclusion(ranks: seq<RankStatus>, configs: seq<NodeConfig>, replicas: seq<string>, want: set<int>)
    ensures RankOp.AdminExcluded(Format.Mark(ranks, configs, replicas), want) <==>
      exists k :: 0 <= k < |ranks| && ranks[k].rank in want && ranks[k].state == "adminexcluded"
                  && !Format.IsDown(configs, replicas, ranks[k].node)
  {
    var marked := Format.Mark(ranks, configs, replicas);
    assert UNRESPONSIVE[0] != "adminexcluded"[0];
    MarkedRows(ranks, configs, replicas);
    hide Format.Mark, Format.IsDown;
    if RankOp.AdminExcluded(marked, want) {
      var r :| r in marked && r.rank in want && r.state == "adminexcluded";
      var k :| 0 <= k < |marked| && marked[k] == r;
    }
    if k :| 0 <= k < |ranks| && ranks[k].rank in want && ranks[k].state == "adminexcluded"
            && !Format.IsDown(configs, replicas, ranks[k].node) {
      assert marked[k] in marked;
    }
  }

  /** Likewise for a rank without an engine: the guard still fires exactly for a node that is not known to be
      down and yet has no ready server, which leaves nodes without a workload or without an entry. */
  lemma GuardSeesMissingEngine(ranks: seq<RankStatus>, configs: seq<NodeConfig>, replicas: seq<string>, want: set<int>)
    ensures RankOp.EngineGone(Format.Mark(ranks, configs, replicas), configs, want) <==>
      exists k :: 0 <= k < |ranks| && ranks[k].rank in want && ranks[k].state in RankOp.WITHOUT_ENGINE
                  && !RankOp.ServerReadyOn(configs, ranks[k].node) && !Format.IsDown(configs, replicas, ranks[k].node)
  {
    var marked := Format.Mark(ranks, configs, replicas);
    UnresponsiveHasEngine();
    MarkedRows(ranks, configs, replicas);
    hide Format.Mark, Format.IsDown, RankOp.ServerReadyOn;
    if RankOp.EngineGone(marked, configs, want) {
      var r :| r in marked && r.rank in want && r.state in RankOp.WITHOUT_ENGINE
          && !RankOp.ServerReadyOn(configs, r.node);
      var k :| 0 <= k < |marked| && marked[k] == r;
    }
    if k :| 0 <= k < |ranks| && ranks[k].rank in want && ranks[k].state in RankOp.WITHOUT_ENGINE
            && !RankOp.ServerReadyOn(configs, ranks[k].node) && !Format.IsDown(configs, replicas, ranks[k].node) {
      assert marked[k] in marked;
    }
  }

  lemma UnresponsiveHasEngine()
    ensures UNRESPONSIVE !in RankOp.WITHOUT_ENGINE
  {
    assert UNRESPONSIVE[2] == 'r' && "unknown"[2] == 'k' && UNRESPONSIVE[0] == 'u';
    assert "excluded"[0] == 'e' && "errored"[0] == 'e' && "stopped"[0] == 's' && "awaitformat"[0] == 'a';
  }

  /** On such a node some entry has no workload, or there is none. */
  lemma GuardedNodeHasNoWorkload(configs: seq<NodeConfig>, replicas: seq<string>, node: string)
    requires !RankOp.ServerReadyOn(configs, node) && !Format.IsDown(configs, replicas, node)
    ensures (forall nc :: nc in configs ==> nc.node != node) ||
            exists nc :: nc in configs && nc.node == node && !nc.serverReady && !nc.workload
  {
    GuardedInit(configs, node);
  }

  lemma {:induction false} GuardedInit(configs: seq<NodeConfig>, node: string)
    requires !RankOp.ServerReadyOn(configs, node) && !Format.PodDown(configs, node)
    ensures (forall nc :: nc in configs ==> nc.node != node) ||
            exists nc :: nc in configs && nc.node == node && !nc.serverReady && !nc.workload
  {
    if configs != [] {
      var init, last := configs[..|configs| - 1], configs[|configs| - 1];
      assert configs == init + [last];
      assert last in configs;
      if last.node != node {
        assert forall nc :: nc in init ==> nc in configs;
        GuardedInit(init, node);
      }
    }
  }
}
