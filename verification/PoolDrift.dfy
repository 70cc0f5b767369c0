/** Drift repair of a DaosPool converges: with a fixed spec, and a DAOS that answers truthfully and performs
    every operation it accepts, the operations started plus the drift left over never change in number. */
module PoolDrift {
  import opened Collections
  import opened Text
  import opened Mailbox
  import opened Pool
  import opened PoolRuns
  import opened RankSet

  /** The pool as DAOS has it. */
  datatype Daos = Daos(ranks: iset<int>, mode: string, heal: string)

  datatype Loop = Loop(s: State, daos: Daos, started: nat)

  datatype LoopStep =
    | Look(now: int)
    | Answer(info: Info)
    | Perform(op: Op)
    | Drop(name: string)
    | Restart

  /** A full answer that says what is there. */
  ghost predicate Truthful(info: Info, daos: Daos) {
    && !info.healthOnly && (forall r :: r in info.enabled <==> r in daos.ranks)
    && info.mode == Some(daos.mode) && info.heal == Some(daos.heal)
  }

  const RANKS := "--ranks="
  const REINTEGRATION := "reintegration:"
  const SELF_HEAL := "self_heal:"

  predicate HasPrefix(text: string, prefix: string) { |prefix| <= |text| && text[..|prefix|] == prefix }

  /** The ranks a comma-separated list names. */
  ghost function Named(list: string): iset<int> { iset r | IntText(r) in Split(list, ',') }

  /** What dmg makes of the arguments of a Job: it adds the ranks listed, or sets the property named. */
  ghost function Done(daos: Daos, args: seq<string>): Daos {
    if |args| != 3 || args[0] != "pool" then daos
    else if args[1] == "extend" && HasPrefix(args[2], RANKS) then
      daos.(ranks := daos.ranks + Named(args[2][|RANKS|..]))
    else if args[1] == "set-prop" && HasPrefix(args[2], REINTEGRATION) then
      daos.(mode := args[2][|REINTEGRATION|..])
    else if args[1] == "set-prop" && HasPrefix(args[2], SELF_HEAL) then
      daos.(heal := args[2][|SELF_HEAL|..])
    else daos
  }

  function NoTrouble(now: int): Input { Input(now, true, true, NoFault, false, false) }

  predicate IsRunning(b: Box<Pool.Answer>, name: string) { name in b.jobs && b.jobs[name].phase.Running? }

  ghost function Move(l: Loop, step: LoopStep): Loop {
    match step
    case Look(now) =>
      var (s, rec) := Pass(l.s, NoTrouble(now));
      Loop(s, l.daos, l.started + if rec.started.Some? then 1 else 0)
    case Answer(info) =>
      if Truthful(info, l.daos) then l.(s := l.s.(box := FinishJob(l.s.box, QUERY_JOB, Queried(info)))) else l
    case Perform(op) =>
      if IsRunning(l.s.box, JobOf(op)) then
        Loop(l.s.(box := FinishJob(l.s.box, JobOf(op), Applied)), Done(l.daos, l.s.box.jobs[JobOf(op)].args), l.started)
      else l
    case Drop(name) => l.(s := l.s.(box := DropJob(l.s.box, name)))
    case Restart => l.(s := l.s.(hold := None))
  }

  ghost function Moves(l: Loop, steps: seq<LoopStep>): Loop {
    if steps == [] then l else Move(Moves(l, steps[..|steps| - 1]), steps[|steps| - 1])
  }

  // ---- drift, measured on DAOS

  /** The mode the spec asks for: its own, or incremental where there is no second copy to sync from. */
  function WantedMode(spec: Spec): Option<string> {
    if spec.reintegration.Some? then spec.reintegration
    else if (if spec.kvcache then spec.redundancy != "ec" else spec.rf == Some(0)) then Some("incremental")
    else None
  }

  /** A cache without redundancy is not to heal itself. */
  function WantedHeal(spec: Spec): Option<string> {
    if spec.kvcache && spec.redundancy in {"", "none"} then Some("none") else None
  }

  lemma WantedMeans(spec: Spec)
    ensures PinnedReintegration(spec) == WantedMode(spec) && PinnedSelfHeal(spec) == WantedHeal(spec)
  {
    assert "none"[0] != "ec"[0];
  }

  ghost predicate Off(l: Loop, op: Op) {
    var spec := l.s.spec;
    match op
    case Extend => (exists r :: r in l.daos.ranks) && exists r :: r in spec.ranks && r !in l.daos.ranks
    case Acl => AclHash(spec.acl) != "" && AclHash(spec.acl) != l.s.status.aclHash
    case ReintMode => WantedMode(spec).Some? && l.daos.mode != "" && l.daos.mode != WantedMode(spec).value
    case SelfHeal => WantedHeal(spec).Some? && l.daos.heal != "" && l.daos.heal != WantedHeal(spec).value
    case _ => false
  }

  /** The arguments name exactly what is off: the ranks missing and no other, the mode or the healing wanted, or
      the whole list of ACL entries. */
  ghost predicate NamesDrift(spec: Spec, daos: Daos, op: Op, args: seq<string>) {
    match op
    case Extend => exists rs :: args == ["pool", "extend", "--ranks=" + RankListText(rs)] && SortedInts(rs) &&
                                forall r :: r in rs <==> r in spec.ranks && r !in daos.ranks
    case Acl => args == ["pool", "overwrite-acl"] + spec.acl
    case ReintMode => WantedMode(spec).Some? && args == ["pool", "set-prop", "reintegration:" + WantedMode(spec).value]
    case SelfHeal => WantedHeal(spec).Some? && args == ["pool", "set-prop", "self_heal:" + WantedHeal(spec).value]
    case _ => false
  }

  /** Off, and not being repaired already. */
  ghost predicate Due(l: Loop, op: Op) { Off(l, op) && l.s.status.operation != Some(op) }

  ghost function One(b: bool): nat { if b then 1 else 0 }

  ghost function DriftLeft(l: Loop): nat {
    One(Due(l, Extend)) + One(Due(l, Acl)) + One(Due(l, ReintMode)) + One(Due(l, SelfHeal))
  }

  /** The Job of the running operation is there, and once it finished, what it repairs is repaired; no other
      operation's Job is unfinished; an operation still due has no Job; a finished query is truthful. */
  ghost predicate Valid(l: Loop) {
    var b := l.s.box;
    && !l.s.deleting && l.s.finalizer
    && (QUERY_JOB in b.jobs && b.jobs[QUERY_JOB].phase.Finished? ==>
          b.jobs[QUERY_JOB].phase.answer.Queried? && Truthful(b.jobs[QUERY_JOB].phase.answer.info, l.daos))
    && (l.s.status.operation.Some? ==> l.s.status.operation.value in {Extend, Acl, ReintMode, SelfHeal})
    && (l.s.status.operation.Some? ==> QUERY_JOB !in b.jobs || b.jobs[QUERY_JOB].phase.Deleting?)
    && (forall op :: JobValid(l, op))
  }

  ghost predicate JobValid(l: Loop, op: Op) {
    var b := l.s.box;
    && (Due(l, op) ==> JobOf(op) !in b.jobs)
    && (l.s.status.operation == Some(op) ==> b.Open(JobOf(op)))
    && (b.Open(JobOf(op)) ==> l.s.status.operation == Some(op))
    && (b.Open(JobOf(op)) && b.jobs[JobOf(op)].phase.Running? ==>
          NamesDrift(l.s.spec, l.daos, op, b.jobs[JobOf(op)].args))
    && (b.Open(JobOf(op)) && b.jobs[JobOf(op)].phase.Finished? ==>
          b.jobs[JobOf(op)].phase.answer.Applied? && (!op.Acl? ==> !Off(l, op)))
  }

  lemma JobsDistinct(a: Op, b: Op)
    ensures JobOf(a) != QUERY_JOB && (JobOf(a) == JobOf(b) ==> a == b)
  {
    assert |JobOf(a)| > 4 && |JobOf(b)| > 4 && |QUERY_JOB| > 4;
    assert JobOf(a)[4] != QUERY_JOB[4];
    assert JobOf(a)[4] == JobOf(b)[4] ==> a == b;
  }

  // ---- what a truthful answer shows

  lemma MissingMeansOff(want: seq<int>, have: seq<int>)
    ensures MissingRanks(want, have) != [] <==> exists r :: r in want && r !in have
  {
    MissingRanksExact(want, have);
    hide MissingRanks, SortedInts;
    if MissingRanks(want, have) != [] {
      var r := MissingRanks(want, have)[0];
      assert r in MissingRanks(want, have);
    }
  }

  lemma AnswerShowsDrift(l: Loop, info: Info, now: int)
    requires Truthful(info, l.daos)
    ensures var st := Copied(l.s.status, info, now);
      && (NeedsExtend(l.s.spec, st) <==> Off(l, Extend)) && (NeedsAcl(l.s.spec, st) <==> Off(l, Acl))
      && (NeedsMode(l.s.spec, st) <==> Off(l, ReintMode)) && (NeedsHeal(l.s.spec, st) <==> Off(l, SelfHeal))
  {
    AnswerShowsRanks(l.s.spec.ranks, info.enabled, l.daos.ranks);
    WantedMeans(l.s.spec);
    hide MissingRanks, PinnedReintegration, PinnedSelfHeal, WantedMode, WantedHeal;
  }

  lemma AnswerShowsRanks(want: seq<int>, enabled: seq<int>, there: iset<int>)
    requires forall r :: r in enabled <==> r in there
    ensures want != [] && enabled != [] && MissingRanks(want, enabled) != [] <==>
      (exists r :: r in there) && exists r :: r in want && r !in there
  {
    MissingMeansOff(want, enabled);
    hide MissingRanks;
    if enabled != [] {
      var first: int := enabled[0];
      assert first in enabled;
      assert first in there;
    }
  }

  /** A failure on record, under one of the names the drift check looks for, holds its operation back. */
  predicate Held(spec: Spec, st: Status) {
    FailedForSpec(spec, st, "ACLFailed") || FailedForSpec(spec, st, "ExtendFailed")
    || FailedForSpec(spec, st, "ReintmodeFailed") || FailedForSpec(spec, st, "SelfhealFailed")
  }

  lemma DriftIsDue(l: Loop, info: Info, now: int)
    requires Truthful(info, l.daos) && l.s.status.operation.None?
    ensures var drift := Drift(l.s.spec, Copied(l.s.status, info, now));
      && (drift.Some? ==> Due(l, drift.value) && drift.value in {Extend, Acl, ReintMode, SelfHeal})
      && (drift.None? && !Held(l.s.spec, l.s.status) ==> DriftLeft(l) == 0)
  {
    AnswerShowsDrift(l, info, now);
    hide Off, NeedsExtend, NeedsAcl, NeedsMode, NeedsHeal;
  }

  // ---- one step

  /** Polling either changes nothing, or takes the finished Job and clears the operation. */
  lemma PollOutcome(l: Loop, now: int)
    requires Valid(l) && l.s.status.operation.Some?
    ensures var op := l.s.status.operation.value;
      var b := l.s.box;
      var l' := Move(l, Look(now));
      && l' == l.(s := l'.s)
      && (l'.s == l.s ||
          (&& b.Open(JobOf(op)) && b.jobs[JobOf(op)].phase.Finished?
           && l'.s == l.s.(box := b.(jobs := b.jobs[JobOf(op) := b.jobs[JobOf(op)].(phase := Deleting)]),
                           status := l'.s.status,
                           hold := l'.s.hold)
           && l'.s.status.operation.None?
           && l'.s.status.aclHash == (if op.Acl? then AclHash(l.s.spec.acl) else l.s.status.aclHash)))
  {
    assert JobValid(l, l.s.status.operation.value);
    hide JobOf, Args, JobValid, AclHash, PinnedReintegration, PinnedSelfHeal, ReintegrationMode, FailedReason;
  }

  lemma PollKeeps(l: Loop, now: int)
    requires Valid(l) && l.s.status.operation.Some?
    ensures Valid(Move(l, Look(now)))
    ensures Move(l, Look(now)).started == l.started && DriftLeft(Move(l, Look(now))) == DriftLeft(l)
  {
    var op := l.s.status.operation.value;
    PollOutcome(l, now);
    JobsDistinct(op, op);
    hide Move, AclHash, WantedMode, WantedHeal, NamesDrift, JobOf;
    var l' := Move(l, Look(now));
    assert JobValid(l, op);
    assert !Due(l', op);
    forall x ensures JobValid(l', x) && (Due(l', x) <==> Due(l, x)) {
      JobsDistinct(x, op);
      assert JobValid(l, x);
    }
  }

  // ---- a query read

  /** The operations' Jobs, the operation, the spec and the ACL on record are as before. */
  ghost predicate SameWork(s: State, s': State) {
    && s'.spec == s.spec && s'.deleting == s.deleting && s'.finalizer == s.finalizer
    && s'.status.operation == s.status.operation && s'.status.aclHash == s.status.aclHash
    && (forall op :: JobOf(op) in s.box.jobs <==> JobOf(op) in s'.box.jobs)
    && (forall op :: JobOf(op) in s.box.jobs ==> s'.box.jobs[JobOf(op)] == s.box.jobs[JobOf(op)])
  }

  /** The query Job, if finished, is truthful. */
  ghost predicate QueryValid(s: State, daos: Daos) {
    QUERY_JOB in s.box.jobs && s.box.jobs[QUERY_JOB].phase.Finished? ==>
      s.box.jobs[QUERY_JOB].phase.answer.Queried? && Truthful(s.box.jobs[QUERY_JOB].phase.answer.info, daos)
  }

  lemma SameWorkKeeps(l: Loop, s': State)
    requires Valid(l) && SameWork(l.s, s') && QueryValid(s', l.daos)
    requires l.s.status.operation.None? || s'.box == l.s.box
    ensures Valid(l.(s := s')) && DriftLeft(l.(s := s')) == DriftLeft(l)
  {
    var l' := l.(s := s');
    hide JobOf, AclHash, WantedMode, WantedHeal, NamesDrift, Truthful;
    forall op ensures JobValid(l', op) && (Due(l', op) <==> Due(l, op)) {
      assert JobValid(l, op);
    }
  }

  lemma ArgsNameDrift(l: Loop, op: Op, enabled: seq<int>)
    requires Off(l, op) && forall r :: r in enabled <==> r in l.daos.ranks
    ensures NamesDrift(l.s.spec, l.daos, op, Args(l.s.spec, op, enabled))
  {
    var spec := l.s.spec;
    WantedMeans(spec);
    MissingRanksExact(spec.ranks, enabled);
    hide PinnedReintegration, PinnedSelfHeal, WantedMode, WantedHeal, MissingRanks, RankListText, SortedInts;
    if op.Extend? {
      var rs := MissingRanks(spec.ranks, enabled);
      assert Args(spec, op, enabled) == ["pool", "extend", "--ranks=" + RankListText(rs)];
    }
  }

  lemma StartsJob(s: State, i: Input, op: Op, rec: Record)
    requires i.fault.NoFault? && JobOf(op) !in s.box.jobs
    ensures var w := StartOp(s, i, op, rec);
      && w.rec.started == Some(op) && !w.err
      && w.s.status == s.status.(operation := Some(op), reason := "InProgress")
      && w.s == s.(status := w.s.status, box := w.s.box)
      && exists job: Job<Pool.Answer> ::
           job.phase.Running? && job.args == Args(s.spec, op, s.status.enabled)
           && w.s.box.jobs == s.box.jobs[JobOf(op) := job]
  {
    assert RunJob(s.box, JobOf(op), Args(s.spec, op, s.status.enabled), i.fault).0.jobs ==
           s.box.jobs[JobOf(op) := Job(s.box.nextId, Args(s.spec, op, s.status.enabled), Running)];
  }

  /** s' is s with a new, running Job for an operation that was due. */
  lemma StartKeeps(l: Loop, s': State, op: Op, job: Job<Pool.Answer>)
    requires Valid(l) && l.s.status.operation.None? && Due(l, op) && op in {Extend, Acl, ReintMode, SelfHeal}
    requires QUERY_JOB in l.s.box.jobs && l.s.box.jobs[QUERY_JOB].phase.Deleting? && job.phase.Running?
    requires NamesDrift(l.s.spec, l.daos, op, job.args)
    requires s'.spec == l.s.spec && !s'.deleting && s'.finalizer && s'.status.aclHash == l.s.status.aclHash
    requires s'.status.operation == Some(op) && s'.box.jobs == l.s.box.jobs[JobOf(op) := job]
    ensures Valid(l.(s := s')) && DriftLeft(l.(s := s')) + 1 == DriftLeft(l)
  {
    var l' := l.(s := s');
    JobsDistinct(op, op);
    hide JobOf, AclHash, WantedMode, WantedHeal, NamesDrift, Truthful;
    forall x ensures JobValid(l', x) && (Due(l', x) <==> Due(l, x) && x != op) {
      JobsDistinct(x, op);
      assert JobValid(l, x);
    }
  }

  /** What a pass that read the truthful answer info leaves, from the state s1 just after reading it. */
  lemma MirrorKeeps(l: Loop, s1: State, i: Input, info: Info, rec: Record)
    requires Valid(l.(s := s1)) && s1.status.operation.None? && Truthful(info, l.daos) && i.fault.NoFault?
    requires QUERY_JOB in s1.box.jobs && s1.box.jobs[QUERY_JOB].phase.Deleting? && rec.started.None?
    ensures var w := Mirror(s1, i, info, rec);
      && !w.err && Valid(l.(s := w.s))
      && One(w.rec.started.Some?) + DriftLeft(l.(s := w.s)) == DriftLeft(l.(s := s1))
      && (w.rec.started.None? && !Held(s1.spec, s1.status) ==> DriftLeft(l.(s := w.s)) == 0)
  {
    var l1 := l.(s := s1);
    var s2 := s1.(status := Copied(s1.status, info, i.now));
    DriftIsDue(l1, info, i.now);
    var drift := Drift(s2.spec, s2.status);
    hide Drift, StartOp, JobOf, Valid, Due, Truthful, Held, DriftLeft, SameWork;
    if drift.Some? {
      CopyKeepsWork(s1, info, i.now);
      MirrorStarts(l, s1, s2, i, drift.value, rec.(read := Some((i.now, info))));
    } else {
      QuietMirror(s1, i, info, rec);
      SameWorkKeeps(l1, Mirror(s1, i, info, rec).s);
    }
  }

  lemma CopyKeepsWork(s: State, info: Info, now: int)
    ensures SameWork(s, s.(status := Copied(s.status, info, now)))
  {}

  lemma QuietMirror(s: State, i: Input, info: Info, rec: Record)
    requires Drift(s.spec, Copied(s.status, info, i.now)).None?
    ensures var w := Mirror(s, i, info, rec);
      !w.err && w.rec.started == rec.started && w.s.box == s.box && SameWork(s, w.s)
  {
    hide Drift, StartOp;
  }

  lemma MirrorStarts(l: Loop, s1: State, s2: State, i: Input, op: Op, rec: Record)
    requires Valid(l.(s := s1)) && s1.status.operation.None? && i.fault.NoFault? && rec.started.None?
    requires QUERY_JOB in s1.box.jobs && s1.box.jobs[QUERY_JOB].phase.Deleting?
    requires SameWork(s1, s2) && s2.box == s1.box && Due(l.(s := s1), op) && op in {Extend, Acl, ReintMode, SelfHeal}
    requires forall r :: r in s2.status.enabled <==> r in l.daos.ranks
    ensures var w := StartOp(s2, i, op, rec);
      !w.err && Valid(l.(s := w.s)) && w.rec.started.Some? && 1 + DriftLeft(l.(s := w.s)) == DriftLeft(l.(s := s1))
  {
    var l2 := l.(s := s2);
    DueFrame(l.(s := s1), s2, op);
    StartsJob(s2, i, op, rec);
    ArgsNameDrift(l2, op, s2.status.enabled);
    var w := StartOp(s2, i, op, rec);
    hide StartOp, JobOf, Valid, Due, DriftLeft, NamesDrift, Args;
    SameWorkKeeps(l.(s := s1), s2);
    OpenForWork(l2);
    var job: Job<Pool.Answer> :|
      job.phase.Running? && job.args == Args(s2.spec, op, s2.status.enabled)
      && w.s.box.jobs == s2.box.jobs[JobOf(op) := job];
    StartKeeps(l2, w.s, op, job);
    assert l2.(s := w.s) == l.(s := w.s);
  }

  lemma OpenForWork(l: Loop)
    requires Valid(l)
    ensures !l.s.deleting && l.s.finalizer
  {}

  lemma DueFrame(l: Loop, s': State, op: Op)
    requires Valid(l) && SameWork(l.s, s') && Due(l, op)
    ensures Due(l.(s := s'), op) && JobOf(op) !in s'.box.jobs
  {
    assert JobValid(l, op);
  }

  /** The state just after a finished query was read and its Job deleted. */
  function AfterRead(s: State, now: int): State
    requires QUERY_JOB in s.box.jobs
  {
    s.(box := s.box.(jobs := s.box.jobs[QUERY_JOB := s.box.jobs[QUERY_JOB].(phase := Deleting)]),
       hold := Some(now + WAIT))
  }

  ghost predicate ReadsQuery(s: State, now: int) {
    && !(s.hold.Some? && s.hold.value > now)
    && QUERY_JOB in s.box.jobs && s.box.jobs[QUERY_JOB].phase.Finished? && s.box.jobs[QUERY_JOB].phase.answer.Queried?
  }

  lemma ProbeOutcome(l: Loop, now: int)
    requires Valid(l) && l.s.status.operation.None?
    ensures var w := Probe(l.s, NoTrouble(now), Blank(l.s));
      if ReadsQuery(l.s, now) then
        w == Mirror(AfterRead(l.s, now), NoTrouble(now), l.s.box.jobs[QUERY_JOB].phase.answer.info, Blank(l.s))
      else
        && SameWork(l.s, w.s) && QueryValid(w.s, l.daos) && !w.err && w.rec.started.None?
  {
    hide Mirror, Truthful, JobValid, JobOf;
    forall op ensures JobOf(op) != QUERY_JOB { JobsDistinct(op, op); }
  }

  lemma AfterReadValid(l: Loop, now: int)
    requires Valid(l) && l.s.status.operation.None? && QUERY_JOB in l.s.box.jobs
    ensures Valid(l.(s := AfterRead(l.s, now))) && DriftLeft(l.(s := AfterRead(l.s, now))) == DriftLeft(l)
  {
    forall op ensures JobOf(op) != QUERY_JOB { JobsDistinct(op, op); }
    hide JobOf, Valid, Truthful;
    SameWorkKeeps(l, AfterRead(l.s, now));
  }

  lemma ProbeKeeps(l: Loop, now: int)
    requires Valid(l) && l.s.status.operation.None?
    ensures var w := Probe(l.s, NoTrouble(now), Blank(l.s));
      && !w.err && Valid(l.(s := w.s)) && One(w.rec.started.Some?) + DriftLeft(l.(s := w.s)) == DriftLeft(l)
      && (ReadsQuery(l.s, now) && w.rec.started.None? && !Held(l.s.spec, l.s.status) ==> DriftLeft(l.(s := w.s)) == 0)
  {
    ProbeOutcome(l, now);
    if ReadsQuery(l.s, now) {
      AfterReadValid(l, now);
      assert QueryValid(l.s, l.daos);
      hide Probe, Mirror, Valid, DriftLeft, Truthful, Held;
      MirrorKeeps(l, AfterRead(l.s, now), NoTrouble(now), l.s.box.jobs[QUERY_JOB].phase.answer.info, Blank(l.s));
    } else {
      hide Probe, Valid, DriftLeft, SameWork, QueryValid;
      SameWorkKeeps(l, Probe(l.s, NoTrouble(now), Blank(l.s)).s);
    }
  }

  lemma LookIsProbe(l: Loop, now: int)
    requires !l.s.deleting && l.s.finalizer && l.s.status.operation.None? && !Probe(l.s, NoTrouble(now), Blank(l.s)).err
    ensures var w := Probe(l.s, NoTrouble(now), Blank(l.s));
      Move(l, Look(now)) == Loop(w.s, l.daos, l.started + One(w.rec.started.Some?))
  {
    hide Probe;
  }

  lemma LookKeeps(l: Loop, now: int)
    requires Valid(l)
    ensures var l' := Move(l, Look(now)); Valid(l') && l'.started + DriftLeft(l') == l.started + DriftLeft(l)
  {
    if l.s.status.operation.Some? {
      PollKeeps(l, now);
    } else {
      ProbeKeeps(l, now);
      OpenForWork(l);
      LookIsProbe(l, now);
      var w := Probe(l.s, NoTrouble(now), Blank(l.s));
      StartedDoesNotMatter(l.(s := w.s), Move(l, Look(now)).started);
      hide *;
      assert Move(l, Look(now)) == l.(s := w.s).(started := Move(l, Look(now)).started);
    }
  }

  lemma StartedDoesNotMatter(l: Loop, n: nat)
    ensures (Valid(l.(started := n)) <==> Valid(l)) && DriftLeft(l.(started := n)) == DriftLeft(l)
  {
    var l' := l.(started := n);
    forall op ensures JobValid(l', op) <==> JobValid(l, op) { hide JobOf; }
  }

  lemma IntTextValue(r: int)
    ensures ',' !in IntText(r)
    ensures r >= 0 ==> AllDigits(IntText(r)) && DigitsValue(IntText(r)) == r
    ensures r < 0 ==> IntText(r)[0] == '-' && AllDigits(IntText(r)[1..]) && DigitsValue(IntText(r)[1..]) == -r
  {
    if r >= 0 {
      NatTextValue(r);
      DigitsAreNotSpecial(NatText(r));
    } else {
      NatTextValue(-r);
      DigitsAreNotSpecial(NatText(-r));
      assert IntText(r)[1..] == NatText(-r);
    }
  }

  lemma SameText(a: int, b: int)
    requires IntText(a) == IntText(b)
    ensures a == b
  {
    IntTextValue(a);
    IntTextValue(b);
    hide IntText, DigitsValue;
  }

  /** The list that `ranksCSV` prints names its ranks. */
  lemma ListNamesRanks(rs: seq<int>, r: int)
    ensures r in Named(RankListText(rs)) <==> r in rs
  {
    var ts := NumberTexts(rs);
    forall t | t in ts ensures ',' !in t {
      var k :| 0 <= k < |ts| && ts[k] == t;
      IntTextValue(rs[k]);
    }
    if rs != [] { SplitJoin(ts, ','); }
    hide Split, Join, NumberTexts;
    if r in rs {
      var k :| 0 <= k < |rs| && rs[k] == r;
      assert ts[k] == IntText(r);
    }
    if rs != [] && IntText(r) in ts {
      var k :| 0 <= k < |ts| && ts[k] == IntText(r);
      SameText(rs[k], r);
    }
  }

  /** A Job that names the drift ends it, and changes nothing else. */
  lemma JobEndsDrift(l: Loop, op: Op, args: seq<string>)
    requires NamesDrift(l.s.spec, l.daos, op, args)
    ensures var l' := l.(daos := Done(l.daos, args));
      && (!op.Acl? ==> !Off(l', op)) && (op.Acl? ==> l'.daos == l.daos)
      && forall x :: x != op ==> (Off(l', x) <==> Off(l, x))
  {
    hide WantedMode, WantedHeal, RankListText, Named, AclHash;
    if op.Extend? {
      var rs :| args == ["pool", "extend", "--ranks=" + RankListText(rs)] && SortedInts(rs) &&
                forall r :: r in rs <==> r in l.s.spec.ranks && r !in l.daos.ranks;
      var text := "--ranks=" + RankListText(rs);
      assert text[..|RANKS|] == RANKS && text[|RANKS|..] == RankListText(rs);
      forall r { ListNamesRanks(rs, r); }
    } else if op.ReintMode? {
      var text := "reintegration:" + WantedMode(l.s.spec).value;
      assert text[..|REINTEGRATION|] == REINTEGRATION && text[|REINTEGRATION|..] == WantedMode(l.s.spec).value;
      assert "set-prop"[0] != "extend"[0];
    } else if op.SelfHeal? {
      var text := "self_heal:" + WantedHeal(l.s.spec).value;
      assert text[..|SELF_HEAL|] == SELF_HEAL && text[|SELF_HEAL|..] == WantedHeal(l.s.spec).value;
      assert "set-prop"[0] != "extend"[0] && text[0] != REINTEGRATION[0];
    } else {
      assert args[1] == "overwrite-acl" && args[1][0] != "extend"[0] && args[1][0] != "set-prop"[0];
    }
  }

  lemma PerformKeeps(l: Loop, op: Op)
    requires Valid(l) && IsRunning(l.s.box, JobOf(op))
    ensures Valid(Move(l, Perform(op))) && DriftLeft(Move(l, Perform(op))) == DriftLeft(l)
  {
    var l' := Move(l, Perform(op));
    assert JobValid(l, op);
    JobsDistinct(op, op);
    JobEndsDrift(l, op, l.s.box.jobs[JobOf(op)].args);
    hide JobOf, AclHash, Done, WantedMode, WantedHeal, NamesDrift;
    forall x ensures JobValid(l', x) && (Due(l', x) <==> Due(l, x)) {
      JobsDistinct(x, op);
      assert JobValid(l, x);
    }
  }

  lemma OtherStepsKeep(l: Loop, step: LoopStep)
    requires Valid(l) && !step.Look? && !step.Perform?
    ensures Valid(Move(l, step)) && DriftLeft(Move(l, step)) == DriftLeft(l) && Move(l, step).started == l.started
  {
    var l' := Move(l, step);
    hide JobOf, AclHash, WantedMode, WantedHeal, NamesDrift, Truthful;
    forall x ensures JobValid(l', x) && (Due(l', x) <==> Due(l, x)) {
      JobsDistinct(x, x);
      assert JobValid(l, x);
    }
  }

  lemma StepKeeps(l: Loop, step: LoopStep)
    requires Valid(l)
    ensures Valid(Move(l, step)) && Move(l, step).started + DriftLeft(Move(l, step)) == l.started + DriftLeft(l)
  {
    match step
    case Look(now) => LookKeeps(l, now);
    case Perform(op) =>
      if IsRunning(l.s.box, JobOf(op)) { PerformKeeps(l, op); }
    case _ => OtherStepsKeep(l, step);
  }

  // ---- whole runs

  /** Nothing in flight: no operation on record, no Jobs. */
  ghost predicate Settled(l: Loop) {
    !l.s.deleting && l.s.finalizer && l.s.status.operation.None? && l.s.box.jobs == map[]
  }

  lemma {:induction false} MovesKeep(l: Loop, steps: seq<LoopStep>)
    requires Valid(l)
    ensures Valid(Moves(l, steps)) && Moves(l, steps).started + DriftLeft(Moves(l, steps)) == l.started + DriftLeft(l)
  {
    if steps != [] {
      MovesKeep(l, steps[..|steps| - 1]);
      hide Valid, DriftLeft, Move;
      StepKeeps(Moves(l, steps[..|steps| - 1]), steps[|steps| - 1]);
    }
  }

  /** From any existing pool, whatever is off, exactly the drift repaired was started: operations started
      plus drift left over is constant, so at most four operations are ever started. */
  lemma RepairsAreConserved(l: Loop, m: Loop)
    requires Settled(l) && Leads(l, m)
    ensures m.started + DriftLeft(m) == l.started + DriftLeft(l)
    ensures m.started <= l.started + 4
  {
    SettledIsValid(l);
    LeadsKeeps(l, m);
    hide Valid, Leads, Off, Settled;
  }

  /** In every run, a repair Job that is still to run names exactly what DAOS lacks. */
  lemma JobsNameTheDrift(l: Loop, m: Loop, op: Op)
    requires Settled(l) && Leads(l, m) && IsRunning(m.s.box, JobOf(op))
    ensures NamesDrift(m.s.spec, m.daos, op, m.s.box.jobs[JobOf(op)].args)
  {
    SettledIsValid(l);
    LeadsKeeps(l, m);
    hide Leads, Settled, DriftLeft, NamesDrift, JobOf, Off, Truthful;
    assert JobValid(m, op);
  }

  /** Some run from l ends in m. */
  ghost predicate Leads(l: Loop, m: Loop) { exists steps :: Moves(l, steps) == m }

  lemma QuietLook(m: Loop, now: int)
    requires Valid(m) && m.s.status.operation.None? && ReadsQuery(m.s, now) && !Held(m.s.spec, m.s.status)
    requires Move(m, Look(now)).started == m.started
    ensures Valid(Move(m, Look(now))) && DriftLeft(Move(m, Look(now))) == 0
  {
    ProbeKeeps(m, now);
    OpenForWork(m);
    LookIsProbe(m, now);
    assert m.(s := Move(m, Look(now)).s) == Move(m, Look(now));
    hide Move, Probe, Valid, DriftLeft, ReadsQuery, Held;
  }

  lemma SettledIsValid(l: Loop)
    requires Settled(l)
    ensures Valid(l)
  {
    forall op ensures JobValid(l, op) { hide Off; }
  }

  /** A pass that reads an answer and starts nothing, with no failure held against the spec, has found the
      pool without drift, and no operation is started ever after. */
  lemma QuietPassEndsRepair(l: Loop, m: Loop, now: int, q: Loop, later: Loop)
    requires Settled(l) && Leads(l, m) && q == Move(m, Look(now)) && Leads(q, later)
    requires m.s.status.operation.None? && ReadsQuery(m.s, now) && !Held(m.s.spec, m.s.status) && q.started == m.started
    ensures later.started == m.started
  {
    hide *;
    SettledIsValid(l);
    LeadsKeeps(l, m);
    QuietLook(m, now);
    LeadsKeeps(q, later);
  }

  lemma LeadsKeeps(l: Loop, m: Loop)
    requires Valid(l) && Leads(l, m)
    ensures Valid(m) && m.started + DriftLeft(m) == l.started + DriftLeft(l) && l.started <= m.started
  {
    var steps :| Moves(l, steps) == m;
    MovesKeep(l, steps);
    StartedGrows(l, steps);
    hide *;
  }

  lemma {:induction false} StartedGrows(l: Loop, steps: seq<LoopStep>)
    ensures l.started <= Moves(l, steps).started
  {
    if steps != [] {
      StartedGrows(l, steps[..|steps| - 1]);
      hide Pass, Truthful;
    }
  }

  /** Repair makes progress: while something is off and not held back, the pass that reads an answer starts
      one operation. */
  lemma DriftGetsRepaired(l: Loop, m: Loop, now: int)
    requires Settled(l) && Leads(l, m) && DriftLeft(m) > 0
    requires m.s.status.operation.None? && ReadsQuery(m.s, now) && !Held(m.s.spec, m.s.status)
    ensures Move(m, Look(now)).started == m.started + 1 && DriftLeft(Move(m, Look(now))) == DriftLeft(m) - 1
  {
    SettledIsValid(l);
    LeadsKeeps(l, m);
    LookKeeps(m, now);
    OneStart(m, now);
    hide Move, Valid, DriftLeft, ReadsQuery, Held, Moves, Leads;
    if Move(m, Look(now)).started == m.started { QuietLook(m, now); }
  }

  lemma OneStart(l: Loop, now: int)
    ensures l.started <= Move(l, Look(now)).started <= l.started + 1
  {
    hide Pass;
  }
}
