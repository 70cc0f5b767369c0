/** Where a DaosPool does less than it says, and exactly when: which failed operations are started again without
    a spec change, what the recorded ACL hash stands for, and how an empty UUID lets a pool be created twice. */
module PoolEdges {
  import opened Text
  import opened Pool
  import opened PoolRuns
  import opened PoolRecords

  // ---- failed operations

  /** The pass put the failure of op on record. */
  ghost predicate Failure(rec: Record, op: Op) { rec.stored && FailedPoll(rec, op) }

  ghost predicate HeldBy(rec: Record, op: Op) { FailedForSpec(rec.spec, rec.found, FailedReason(op)) }

  /** It is the turn of op: the pass learned that there is no pool to be found and none was on record, or read an
      answer that shows drift for op to repair, and none before it in the order of the checks but what is held
      back. */
  ghost predicate Turn(rec: Record, op: Op) {
    if op.Create? then rec.missing && rec.found.uuid == ""
    else
      && rec.read.Some? && !rec.read.value.1.healthOnly
      && match op
         case Extend => NeedsExtend(rec.spec, rec.after)
         case Acl => NeedsAcl(rec.spec, rec.after) && (NeedsExtend(rec.spec, rec.after) ==> HeldBy(rec, Extend))
         case ReintMode =>
           && NeedsMode(rec.spec, rec.after) && !NeedsAcl(rec.spec, rec.after)
           && (NeedsExtend(rec.spec, rec.after) ==> HeldBy(rec, Extend))
         case SelfHeal =>
           && NeedsHeal(rec.spec, rec.after) && !NeedsAcl(rec.spec, rec.after)
           && (NeedsExtend(rec.spec, rec.after) ==> HeldBy(rec, Extend))
           && (NeedsMode(rec.spec, rec.after) ==> HeldBy(rec, ReintMode))
         case _ => false
  }

  lemma TurnStarts(rec: Record, op: Op)
    requires Told(rec, rec.after, rec.err) && rec.found.reason != "ACLFailed" && op != Destroy
    ensures rec.started == Some(op) <==> !rec.err && Turn(rec, op) && (op.Acl? || !HeldBy(rec, op))
  {
    var st := rec.after.(reason := rec.found.reason);
    NoCreateForDrift(rec.spec, st);
    if rec.read.Some? {
      assert st.observed == rec.found.observed;
      SameNeeds(rec.spec, rec.after, st);
    }
    hide NeedsExtend, NeedsAcl, NeedsMode, NeedsHeal, AclHash, Stamped, Reasoned;
  }

  lemma SameNeeds(spec: Spec, a: Status, b: Status)
    requires b == a.(reason := b.reason)
    ensures NeedsExtend(spec, b) == NeedsExtend(spec, a) && NeedsAcl(spec, b) == NeedsAcl(spec, a)
    ensures NeedsMode(spec, b) == NeedsMode(spec, a) && NeedsHeal(spec, b) == NeedsHeal(spec, a)
  {
    hide MissingRanks, AclHash, PinnedReintegration, PinnedSelfHeal;
  }

  /** A stored pass between j and k replaced the reason on record by another. */
  ghost predicate Replaced(trace: seq<Record>, j: nat, k: nat, op: Op)
    requires k <= |trace|
  {
    exists m :: j < m < k && trace[m].stored && trace[m].after.reason != FailedReason(op)
  }

  lemma KeptReason(rec: Record, op: Op)
    requires Reasoned(rec, rec.after) && op != Destroy && rec.after.reason == FailedReason(op)
    requires rec.stored && !Failure(rec, op)
    ensures rec.found.reason == FailedReason(op) && rec.after.observed == rec.found.observed
  {
    OtherIsOther(op);
    if rec.polled.Some? && rec.polled.value.0 != op { ReasonsDiffer(rec.polled.value.0, op); }
    hide FailedReason, OTHER;
  }

  lemma {:induction false} FailureLasts(trace: seq<Record>, j: nat, n: nat, op: Op)
    requires IsTrace(trace) && j < n <= |trace| && op != Destroy && Failure(trace[j], op)
    requires forall m :: j < m < n ==> !Failure(trace[m], op)
    ensures OnRecord(trace[..n]).reason == FailedReason(op) <==> !Replaced(trace, j, n, op)
    ensures OnRecord(trace[..n]).reason == FailedReason(op) ==>
      OnRecord(trace[..n]).observed == trace[j].spec.generation
  {
    hide *;
    RecordAt(trace, n - 1);
    var last := trace[n - 1];
    if n == j + 1 {
      FailedNow(last, op);
      NothingBetween(trace, j, op);
    } else {
      FailureLasts(trace, j, n - 1, op);
      ReplacedGrows(trace, j, n, op);
      if last.stored && last.after.reason == FailedReason(op) {
        KeptReason(last, op);
        assert !Replaced(trace, j, n - 1, op);
      }
    }
  }

  lemma RecordAt(trace: seq<Record>, k: nat)
    requires IsTrace(trace) && k < |trace|
    ensures OnRecord(trace[..k + 1]) == if trace[k].stored then trace[k].after else OnRecord(trace[..k])
    ensures Reasoned(trace[k], trace[k].after) && trace[k].found == OnRecord(trace[..k])
  {
    EntryAt(trace, k);
    assert trace[..k + 1][..k] == trace[..k];
    hide IsTrace, Reasoned, Starts, Stamped;
  }

  lemma NothingBetween(trace: seq<Record>, j: nat, op: Op)
    requires j < |trace|
    ensures !Replaced(trace, j, j + 1, op)
  {}

  lemma ReplacedGrows(trace: seq<Record>, j: nat, n: nat, op: Op)
    requires j + 1 < n <= |trace|
    ensures Replaced(trace, j, n, op) <==>
      Replaced(trace, j, n - 1, op) || (trace[n - 1].stored && trace[n - 1].after.reason != FailedReason(op))
  {
    hide FailedReason;
  }

  lemma FailedNow(rec: Record, op: Op)
    requires Failure(rec, op) && Reasoned(rec, rec.after)
    ensures rec.stored && rec.after.reason == FailedReason(op) && rec.after.observed == rec.spec.generation
  {}

  /** For every run, with pass j the last to record a failure of op before pass k of the same generation: pass k
      starts op again if and only if no call of it fails, it is the turn of op, and op is the ACL or a stored
      pass in between replaced the reason on record. */
  lemma RetriedExactly(trace: seq<Record>, j: nat, k: nat, op: Op)
    requires IsTrace(trace) && j < k < |trace| && op != Destroy && Failure(trace[j], op)
    requires forall m :: j < m < k ==> !Failure(trace[m], op)
    requires trace[k].spec.generation == trace[j].spec.generation
    ensures trace[k].started == Some(op) <==>
      !trace[k].err && Turn(trace[k], op) && (op.Acl? || Replaced(trace, j, k, op))
  {
    EntryAt(trace, k);
    FailureLasts(trace, j, k, op);
    hide IsTrace, OnRecord, Turn, Told, Replaced, FailedReason;
    TurnStarts(trace[k], op);
  }

  /** The reason the ACL check looks for is never on record. */
  lemma AclFailureIsNeverSeen(w: World)
    requires Reachable(w)
    ensures w.s.status.reason != "ACLFailed"
  {
    var spec, steps :| Run(spec, steps) == w;
    RunRecInv(spec, steps);
    hide Run;
  }

  // ---- the ACL on record

  /** The ACL a create or overwrite Job was given. */
  function AclOf(args: seq<string>): seq<string>
    requires |args| >= 2
  {
    args[2..]
  }

  lemma GivenAcl(spec: Spec, op: Op)
    requires op in {Create, Acl}
    ensures |Args(spec, op, [])| >= 2 && AclOf(Args(spec, op, [])) == spec.acl
  {}

  /** The last stored pass that recorded an ACL as applied. */
  ghost function LastStamp(trace: seq<Record>): (j: Option<nat>)
    ensures j.Some? ==> j.value < |trace| && trace[j.value].stored && Stamps(trace[j.value])
    ensures forall m :: 0 <= m < |trace| && (j.None? || j.value < m) ==> !(trace[m].stored && Stamps(trace[m]))
  {
    if trace == [] then None
    else if trace[|trace| - 1].stored && Stamps(trace[|trace| - 1]) then Some(|trace| - 1)
    else LastStamp(trace[..|trace| - 1])
  }

  lemma {:induction false} HashOnRecord(trace: seq<Record>, n: nat)
    requires IsTrace(trace) && n <= |trace|
    ensures OnRecord(trace[..n]).aclHash ==
      var j := LastStamp(trace[..n]); if j.None? then "" else AclHash(trace[j.value].spec.acl)
  {
    if n > 0 {
      EntryAt(trace, n - 1);
      assert trace[..n][..n - 1] == trace[..n - 1] && trace[..n][n - 1] == trace[n - 1];
      hide IsTrace, AclHash, Stamps, Reasoned, Starts;
      HashOnRecord(trace, n - 1);
    }
  }

  /** In every reachable state the ACL hash on record is empty, if no create or overwrite was ever recorded as
      applied. Otherwise pass j was the last to record one, of a Job that pass k created with the ACL of the spec
      then: the hash is that of the ACL this Job wrote if and only if the ACL of the spec, by its hash, was the
      same in pass j as in pass k. */
  lemma RecordedAclExactly(w: World) returns (j: nat, k: nat)
    requires Reachable(w)
    ensures LastStamp(w.trace).None? ==> w.s.status.aclHash == ""
    ensures LastStamp(w.trace) == Some(j) ==>
      && k < j < |w.trace| && w.trace[j].polled.Some?
      && var (op, args, _) := w.trace[j].polled.value;
         && w.trace[k].sent == Some((op, w.trace[j].polledId))
         && |args| >= 2 && AclOf(args) == w.trace[k].spec.acl
         && (w.s.status.aclHash == AclHash(AclOf(args)) <==>
               AclHash(w.trace[j].spec.acl) == AclHash(w.trace[k].spec.acl))
    ensures LastStamp(w.trace).Some? ==> LastStamp(w.trace) == Some(j)
  {
    var spec, steps :| Run(spec, steps) == w;
    RunRecInv(spec, steps);
    assert IsTrace(w.trace) && w.trace[..|w.trace|] == w.trace;
    hide Run, Reachable, IsTrace, OnRecord, GoodEntries, JobInv;
    HashOnRecord(w.trace, |w.trace|);
    j, k := 0, 0;
    if LastStamp(w.trace).Some? {
      j := LastStamp(w.trace).value;
      k := JobBehind(w.trace, j);
    }
  }

  lemma JobBehind(trace: seq<Record>, j: nat) returns (k: nat)
    requires IsTrace(trace) && j < |trace| && Stamps(trace[j])
    ensures k < j && var (op, args, _) := trace[j].polled.value;
      trace[k].sent == Some((op, trace[j].polledId)) && |args| >= 2 && AclOf(args) == trace[k].spec.acl
  {
    EntryAt(trace, j);
    var (op, args, _) := trace[j].polled.value;
    hide IsTrace, Told, OnRecord;
    k :| 0 <= k < j && Made(trace[..j][k], op, trace[j].polledId, args);
    GivenAcl(trace[k].spec, op);
  }
}
