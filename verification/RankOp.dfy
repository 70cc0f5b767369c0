/** Rank membership operations a human requests (internal/controller/daossystem_rankop.go): one request in an
    annotation, guards against losing data, one Job, retried only while the request never reached DAOS. */
module RankOp {
  import opened Text
  import opened DaosStatus
  import opened Mailbox
  import opened RankSet
  import Pool

  const RANK_JOB := "-dmg-rankop"
  const RETRY_WINDOW: int := 3 * MINUTE

  // ---- requests

  /** One item of a rank set: a number, or two joined by a dash. */
  predicate IsItem(part: string) {
    var (lo, hi, found) := Cut(part, '-');
    lo != "" && AllDigits(lo) && (found ==> hi != "" && AllDigits(hi))
  }

  predicate IsRankSetText(text: string) { forall part :: part in Split(text, ',') ==> IsItem(part) }

  predicate IsRankOp(op: string) { op in {"drain", "exclude", "reintegrate", "clear-exclude"} }

  /** `parseRankOp`: the operation and the rank set of "<op>:<ranks>". */
  function ParseRequest(v: string): Option<(string, string)> {
    var (before, after, found) := Cut(v, ':');
    if !found || before == "" || after == "" then None
    else
      var op := TrimSpace(before);
      var ranks := TrimSpace(after);
      if IsRankOp(op) && IsRankSetText(ranks) then Some((op, ranks)) else None
  }

  // ---- guards

  const WITHOUT_ENGINE: set<string> := {"excluded", "errored", "unknown", "stopped", "awaitformat"}

  /** The last entry of a node says whether its server is ready. */
  predicate ServerReadyOn(configs: seq<NodeConfig>, node: string) {
    configs != [] &&
    if configs[|configs| - 1].node == node then configs[|configs| - 1].serverReady
    else ServerReadyOn(configs[..|configs| - 1], node)
  }

  predicate AdminExcluded(ranks: seq<RankStatus>, want: set<int>) {
    exists r :: r in ranks && r.rank in want && r.state == "adminexcluded"
  }

  predicate EngineGone(ranks: seq<RankStatus>, configs: seq<NodeConfig>, want: set<int>) {
    exists r :: r in ranks && r.rank in want && r.state in WITHOUT_ENGINE && !ServerReadyOn(configs, r.node)
  }

  /** A DaosPool of this system: its spec and its last known reintegration mode. */
  datatype PoolFact = PoolFact(spec: Pool.Spec, mode: string)

  predicate Spans(spec: Pool.Spec, want: set<int>) { spec.ranks == [] || exists r :: r in spec.ranks && r in want }

  /** Reintegrating would discard the only copy: no redundancy, and a mode that is data_sync or not known,
      unless the spec chose data_sync and it is known to be on. */
  predicate LosesData(p: PoolFact, want: set<int>) {
    && Pool.RedundancyFactor(p.spec) == 0
    && (p.mode == "" || p.mode == "data_sync")
    && !(p.spec.reintegration == Some("data_sync") && p.mode == "data_sync")
    && Spans(p.spec, want)
  }

  predicate BareCache(p: PoolFact, want: set<int>) {
    p.spec.kvcache && Pool.Redundancy(p.spec) == "none" && Spans(p.spec, want)
  }

  datatype Input = Input(
    now: int, formatted: bool, ranks: seq<RankStatus>, configs: seq<NodeConfig>, pools: seq<PoolFact>,
    listFails: bool, fault: Fault, clearFails: bool, lost: bool)

  predicate PreconditionHolds(op: string, ranks: string, i: Input) {
    op == "reintegrate" ==>
      !AdminExcluded(i.ranks, RankSetOf(ranks)) && !EngineGone(i.ranks, i.configs, RankSetOf(ranks))
  }

  predicate AsksPools(op: string, ranks: string, discard: Option<string>) {
    (op == "reintegrate" || op == "exclude") && Annotation(discard) != ranks
  }

  /** A missing annotation reads as the empty text. */
  function Annotation(a: Option<string>): string { if a.Some? then a.value else "" }

  predicate PoolsAllow(op: string, ranks: string, pools: seq<PoolFact>) {
    && (op == "exclude" ==> forall p :: p in pools ==> !BareCache(p, RankSetOf(ranks)))
    && (op == "reintegrate" ==> forall p :: p in pools ==> !LosesData(p, RankSetOf(ranks)))
  }

  // ---- one pass

  datatype Answer = Unreadable | Unreachable | NothingToDo | OtherError | Undecodable | Results(failed: bool)

  /** `status.lastRankOp`; requestedAt is kept in whole seconds, as Kubernetes stores times. */
  datatype LastOp = LastOp(op: string, ranks: string, requestedAt: int, finished: bool, ok: bool)

  datatype State = State(request: Option<string>, discard: Option<string>, last: Option<LastOp>, box: Box<Answer>)

  /** answered says the pass concluded the request, cleared that it also removed the annotations; delivered
      holds the arguments and answer of the Job it read; retried says it will ask again. */
  datatype Record = Record(
    stored: bool, request: Option<string>, discard: Option<string>, created: bool,
    delivered: Option<(seq<string>, Answer)>,
    retried: bool, answered: bool, cleared: bool)

  datatype Work = Work(s: State, rec: Record, err: bool)

  function Seconds(t: int): int { t - t % SECOND }

  function Args(op: string, ranks: string): seq<string> { ["system", op, "--ranks=" + ranks] }

  predicate Continues(last: Option<LastOp>, op: string, ranks: string) {
    last.Some? && !last.value.finished && last.value.op == op && last.value.ranks == ranks
  }

  /** The time the record already has for this unfinished request, or now. */
  function Requested(last: Option<LastOp>, op: string, ranks: string, now: int): int {
    if Continues(last, op, ranks) then last.value.requestedAt else now
  }

  /** Record the outcome and remove both annotations. */
  function Answered(s: State, i: Input, rec: Record, op: string, ranks: string, ok: bool): Work {
    var s' := s.(last := Some(LastOp(op, ranks, Seconds(Requested(s.last, op, ranks, i.now)), true, ok)));
    var rec' := rec.(answered := true, cleared := !i.clearFails);
    if s.request.None? then Work(s', rec', false)
    else if i.clearFails then Work(s', rec', true)
    else Work(s'.(request := None, discard := None), rec', false)
  }

  /** dmg says there is nothing to do for these ranks, which for two operations is a success. */
  predicate NothingIsFine(op: string, a: Answer) { a.NothingToDo? && (op == "drain" || op == "reintegrate") }

  function Read(s: State, i: Input, rec: Record, op: string, ranks: string, answer: Answer): Work {
    var since := Requested(s.last, op, ranks, i.now);
    if NothingIsFine(op, answer) then Answered(s, i, rec, op, ranks, true)
    else if answer.Unreachable? && i.now - since < RETRY_WINDOW then
      Work(s.(last := Some(LastOp(op, ranks, Seconds(since), false, false))), rec.(retried := true), false)
    else Answered(s, i, rec, op, ranks, answer == Results(false))
  }

  function RunOp(s: State, i: Input, rec: Record, op: string, ranks: string): Work {
    var (b, out) := RunJob(s.box, RANK_JOB, Args(op, ranks), i.fault);
    var s' := s.(box := b);
    var rec' := rec.(created := b.nextId > s.box.nextId);
    match out
    case ApiError => Work(s', rec', true)
    case Pending =>
      if s.last.None? || s.last.value.finished then
        Work(s'.(last := Some(LastOp(op, ranks, Seconds(i.now), false, false))), rec', false)
      else Work(s', rec', false)
    case Done(_, args, answer) => Read(s', i, rec'.(delivered := Some((args, answer))), op, ranks, answer)
  }

  function Guarded(s: State, i: Input, rec: Record, op: string, ranks: string): Work {
    if !i.formatted || !PreconditionHolds(op, ranks, i) then Answered(s, i, rec, op, ranks, false)
    else if AsksPools(op, ranks, s.discard) && i.listFails then Work(s, rec, true)
    else if AsksPools(op, ranks, s.discard) && !PoolsAllow(op, ranks, i.pools) then
      Answered(s, i, rec, op, ranks, false)
    else RunOp(s, i, rec, op, ranks)
  }

  function Decide(s: State, i: Input, rec: Record): Work {
    if s.request.None? then Work(s, rec, false)
    else
      match ParseRequest(s.request.value)
      case None => Answered(s, i, rec, s.request.value, "", false)
      case Some((op, ranks)) => Guarded(s, i, rec, op, ranks)
  }

  function Blank(s: State): Record { Record(true, s.request, s.discard, false, None, false, false, false) }

  function Pass(s: State, i: Input): (r: (State, Record)) {
    var w := Decide(s, i, Blank(s));
    if w.err || i.lost then (w.s.(last := s.last), w.rec.(stored := false)) else (w.s, w.rec)
  }

  // ---- the controller

  /** The first two loops of `rankOpPrecondition`. */
  method FindBlocked(ranks: seq<RankStatus>, configs: seq<NodeConfig>, want: set<int>)
    returns (admin: seq<int>, down: seq<int>)
    ensures admin != [] <==> AdminExcluded(ranks, want)
    ensures down != [] <==> EngineGone(ranks, configs, want)
  {
    var ready: map<string, bool> := map[];
    for k := 0 to |configs|
      invariant forall n :: ServerReadyOn(configs[..k], n) <==> n in ready && ready[n]
    {
      assert configs[..k + 1][..k] == configs[..k];
      ready := ready[configs[k].node := configs[k].serverReady];
    }
    assert configs[..|configs|] == configs;
    hide ServerReadyOn;
    admin, down := [], [];
    for k := 0 to |ranks|
      invariant admin != [] <==> exists j :: 0 <= j < k && ranks[j].rank in want && ranks[j].state == "adminexcluded"
      invariant down != [] <==>
        exists j :: 0 <= j < k && ranks[j].rank in want && ranks[j].state in WITHOUT_ENGINE
                    && !ServerReadyOn(configs, ranks[j].node)
    {
      var r := ranks[k];
      if r.rank !in want { continue; }
      if r.state == "adminexcluded" {
        AdminHasEngineState(r.state);
        admin := admin + [r.rank];
      } else if r.state in WITHOUT_ENGINE {
        if r.node in ready && ready[r.node] { continue; }
        down := down + [r.rank];
      }
    }
  }

  lemma AdminHasEngineState(state: string)
    requires state == "adminexcluded"
    ensures state !in WITHOUT_ENGINE
  {
    assert state[0] == 'a' && state[1] == 'd';
    assert "awaitformat"[1] == 'w' && "excluded"[0] == 'e' && "errored"[0] == 'e' && "unknown"[0] == 'u'
        && "stopped"[0] == 's';
  }

  method SpansRanks(spec: Pool.Spec, want: set<int>) returns (on: bool)
    ensures on <==> Spans(spec, want)
  {
    on := spec.ranks == [];
    for k := 0 to |spec.ranks|
      invariant on <==> spec.ranks == [] || exists r :: r in spec.ranks[..k] && r in want
    {
      var r := spec.ranks[k];
      assert spec.ranks[..k + 1] == spec.ranks[..k] + [r];
      assert r in spec.ranks[..k + 1];
      on := on || r in want;
    }
    assert spec.ranks[..|spec.ranks|] == spec.ranks;
  }

  /** `unprotectedPools` */
  method Unprotected(want: set<int>, pools: seq<PoolFact>) returns (out: seq<PoolFact>)
    ensures out == [] <==> forall p :: p in pools ==> !LosesData(p, want)
  {
    out := [];
    for k := 0 to |pools|
      invariant out == [] <==> forall j :: 0 <= j < k ==> !LosesData(pools[j], want)
    {
      hide Spans, Pool.RedundancyFactor;
      var p := pools[k];
      if Pool.RedundancyFactor(p.spec) != 0 { continue; }
      if p.mode != "" && p.mode != "data_sync" { continue; }
      if p.spec.reintegration == Some("data_sync") && p.mode == "data_sync" { continue; }
      var on := SpansRanks(p.spec, want);
      if on { out := out + [p]; }
    }
  }

  /** `kvcachePoolsOn` */
  method CachesOn(want: set<int>, pools: seq<PoolFact>) returns (out: seq<PoolFact>)
    ensures out == [] <==> forall p :: p in pools ==> !BareCache(p, want)
  {
    out := [];
    for k := 0 to |pools|
      invariant out == [] <==> forall j :: 0 <= j < k ==> !BareCache(pools[j], want)
    {
      hide Spans, Pool.Redundancy;
      var p := pools[k];
      if !p.spec.kvcache || Pool.Redundancy(p.spec) != "none" { continue; }
      var on := SpansRanks(p.spec, want);
      if on { out := out + [p]; }
    }
  }

  class RankOps {
    var request: Option<string>
    var discard: Option<string>
    var last: Option<LastOp>
    var box: Box<Answer>

    ghost function View(): State
      reads this
    {
      State(request, discard, last, box)
    }

    /** The `record` closure. */
    method Conclude(i: Input, rec: Record, op: string, ranks: string, ok: bool) returns (rec': Record, err: bool)
      modifies this`last, this`request, this`discard
      ensures Work(View(), rec', err) == Answered(old(View()), i, rec, op, ranks, ok)
    {
      last := Some(LastOp(op, ranks, Seconds(Requested(last, op, ranks, i.now)), true, ok));
      rec', err := rec.(answered := true, cleared := !i.clearFails), false;
      if request.None? { return; }
      if i.clearFails { return rec', true; }
      request, discard := None, None;
    }

    method ReadAnswer(i: Input, rec: Record, op: string, ranks: string, answer: Answer)
      returns (rec': Record, err: bool)
      modifies this
      ensures Work(View(), rec', err) == Read(old(View()), i, rec, op, ranks, answer)
    {
      hide Answered, Requested;
      var since := Requested(last, op, ranks, i.now);
      if NothingIsFine(op, answer) {
        rec', err := Conclude(i, rec, op, ranks, true);
      } else if answer.Unreachable? && i.now - since < RETRY_WINDOW {
        last := Some(LastOp(op, ranks, Seconds(since), false, false));
        rec', err := rec.(retried := true), false;
      } else {
        rec', err := Conclude(i, rec, op, ranks, answer == Results(false));
      }
    }

    method RunJobOf(i: Input, rec: Record, op: string, ranks: string) returns (rec': Record, err: bool)
      modifies this
      ensures Work(View(), rec', err) == RunOp(old(View()), i, rec, op, ranks)
    {
      hide Read, RunJob;
      ghost var was := View();
      var (b, out) := RunJob(box, RANK_JOB, Args(op, ranks), i.fault);
      rec', err := rec.(created := b.nextId > box.nextId), false;
      box := b;
      assert View() == was.(box := b);
      match out
      case ApiError => err := true;
      case Pending =>
        if last.None? || last.value.finished { last := Some(LastOp(op, ranks, Seconds(i.now), false, false)); }
      case Done(_, args, answer) =>
        rec', err := ReadAnswer(i, rec'.(delivered := Some((args, answer))), op, ranks, answer);
    }

    method CheckPools(op: string, ranks: string, pools: seq<PoolFact>) returns (allowed: bool)
      ensures allowed <==> PoolsAllow(op, ranks, pools)
    {
      var want := ParseRankSet(ranks);
      hide BareCache, LosesData, RankSetOf;
      var caches := CachesOn(want, pools);
      if op == "exclude" && caches != [] { return false; }
      var unprotected := Unprotected(want, pools);
      allowed := !(op == "reintegrate" && unprotected != []);
    }

    method CheckPrecondition(op: string, ranks: string, i: Input) returns (holds: bool)
      ensures holds <==> PreconditionHolds(op, ranks, i)
    {
      if op != "reintegrate" { return true; }
      var want := ParseRankSet(ranks);
      hide AdminExcluded, EngineGone, RankSetOf;
      var admin, down := FindBlocked(i.ranks, i.configs, want);
      holds := admin == [] && down == [];
    }

    method RunGuarded(i: Input, rec: Record, op: string, ranks: string) returns (rec': Record, err: bool)
      modifies this
      ensures Work(View(), rec', err) == Guarded(old(View()), i, rec, op, ranks)
    {
      hide Answered, RunOp, PreconditionHolds, PoolsAllow;
      var holds := CheckPrecondition(op, ranks, i);
      if !i.formatted || !holds {
        rec', err := Conclude(i, rec, op, ranks, false);
        return;
      }
      if (op == "reintegrate" || op == "exclude") && Annotation(discard) != ranks {
        if i.listFails { return rec, true; }
        var allowed := CheckPools(op, ranks, i.pools);
        if !allowed {
          rec', err := Conclude(i, rec, op, ranks, false);
          return;
        }
      }
      rec', err := RunJobOf(i, rec, op, ranks);
    }

    /** `reconcileRankOp`, and what becomes of it: an error or a failed status write leaves the stored
        status as it was. */
    method Reconcile(i: Input) returns (rec: Record)
      modifies this
      ensures (View(), rec) == Pass(old(View()), i)
    {
      hide Answered, Guarded, ParseRequest;
      var stored := last;
      var err := false;
      rec := Record(true, request, discard, false, None, false, false, false);
      if request.Some? {
        var parsed := ParseRequest(request.value);
        if parsed.None? {
          rec, err := Conclude(i, rec, request.value, "", false);
        } else {
          rec, err := RunGuarded(i, rec, parsed.value.0, parsed.value.1);
        }
      }
      if err || i.lost {
        last := stored;
        rec := rec.(stored := false);
      }
    }
  }
}
