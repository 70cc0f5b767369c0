/** What one pass does about a rank request, said on the request's text, the rows, the node configs and the pools
    alone: when its Job goes out, when it is refused, and what the answer to it is. */
module RankOpExact {
  import opened Text
  import opened Mailbox
  import opened RankSet
  import opened RankOp
  import opened RankOpRuns
  import Pool

  // ---- the text of a request

  /** A number, or two joined by a dash. */
  ghost predicate IsNumbers(part: string) {
    || (part != "" && forall c :: c in part ==> '0' <= c <= '9')
    || (exists k :: 0 < k < |part| - 1 && part[k] == '-' &&
                    forall j :: 0 <= j < |part| && j != k ==> '0' <= part[j] <= '9')
  }

  lemma ItemIsNumbers(part: string)
    requires IsItem(part)
    ensures IsNumbers(part)
  {
    var (lo, hi, found) := Cut(part, '-');
    hide Cut;
    CutParts(part);
    if found { assert part[|lo|] == '-'; }
  }

  lemma CutParts(part: string)
    ensures var (lo, hi, found) := Cut(part, '-');
      if found then part == lo + "-" + hi && '-' !in lo else part == lo && '-' !in part
  {}

  lemma RangeIsItem(part: string, k: nat)
    requires 0 < k < |part| - 1 && part[k] == '-' && forall j :: 0 <= j < |part| && j != k ==> '0' <= part[j] <= '9'
    ensures IsItem(part)
  {
    hide Cut;
    CutAtFirst(part[..k], '-', part[k + 1..]);
    assert part == part[..k] + ['-'] + part[k + 1..];
  }

  lemma NumberIsItem(part: string)
    requires part != "" && forall c :: c in part ==> '0' <= c <= '9'
    ensures IsItem(part)
  {
    hide Cut;
    CutAtFirst(part, '-', "");
    forall i | 0 <= i < |part| ensures IsDigit(part[i]) { assert part[i] in part; }
  }

  lemma ItemMeans(part: string)
    ensures IsItem(part) <==> IsNumbers(part)
  {
    hide IsItem;
    if IsItem(part) { ItemIsNumbers(part); }
    if k :| 0 < k < |part| - 1 && part[k] == '-' && forall j :: 0 <= j < |part| && j != k ==> '0' <= part[j] <= '9' {
      RangeIsItem(part, k);
    }
    if part != "" && forall c :: c in part ==> '0' <= c <= '9' { NumberIsItem(part); }
  }

  /** A request is read exactly if its text has a colon, with one of the four operations before the first, and
      nothing but numbers and ranges between the commas after it; spaces around the two do not matter. */
  lemma RequestReadsExactly(v: string)
    ensures ParseRequest(v).Some? <==>
      exists op, ranks ::
        && v == op + ":" + ranks && ':' !in op
        && TrimSpace(op) in {"drain", "exclude", "reintegrate", "clear-exclude"}
        && forall part :: part in Split(TrimSpace(ranks), ',') ==> IsNumbers(part)
    ensures forall op, ranks :: v == op + ":" + ranks && ':' !in op && ParseRequest(v).Some? ==>
      ParseRequest(v).value == (TrimSpace(op), TrimSpace(ranks))
  {
    forall part { ItemMeans(part); }
    forall op, ranks | v == op + ":" + ranks && ':' !in op ensures Cut(v, ':') == (op, ranks, true) {
      CutAtFirst(op, ':', ranks);
    }
    var (before, after, found) := Cut(v, ':');
    if found { assert v == before + ":" + after; }
    EmptyIsNoRankSet();
    hide IsItem, IsNumbers, Split, Cut;
  }

  // ---- the guards

  /** The pool has no second copy of anything. */
  predicate NoCopy(spec: Pool.Spec) { if spec.kvcache then spec.redundancy != "ec" else spec.rf == Some(0) }

  ghost predicate OnRanks(spec: Pool.Spec, want: set<int>) {
    spec.ranks == [] || exists r :: r in spec.ranks && r in want
  }

  /** Reintegrating a rank of this pool would discard its only copy, and nobody asked for that. */
  ghost predicate WouldLose(p: PoolFact, want: set<int>) {
    && NoCopy(p.spec) && p.mode in {"", "data_sync"} && OnRanks(p.spec, want)
    && !(p.mode == "data_sync" && p.spec.reintegration == Some("data_sync"))
  }

  ghost predicate BareCacheOn(p: PoolFact, want: set<int>) {
    p.spec.kvcache && p.spec.redundancy in {"", "none"} && OnRanks(p.spec, want)
  }

  lemma PoolMeans(p: PoolFact, want: set<int>)
    ensures LosesData(p, want) <==> WouldLose(p, want)
    ensures BareCache(p, want) <==> BareCacheOn(p, want)
  {
    assert "none"[0] != "ec"[0];
  }

  /** The system is formatted, and a reintegrate names no rank that is barred or has no engine. */
  ghost predicate RowsAllow(i: Input, op: string, want: set<int>) {
    && i.formatted
    && (op == "reintegrate" ==> forall r :: r in i.ranks && r.rank in want ==> HasEngine(r.state, i.configs, r.node))
  }

  /** The pools have a say: over two operations, unless the human waived it by repeating the ranks. */
  predicate PoolsAsked(op: string, ranks: string, discard: Option<string>) {
    (op == "reintegrate" || op == "exclude") && discard != Some(ranks)
  }

  ghost predicate PoolsAgree(i: Input, op: string, want: set<int>) {
    forall p :: p in i.pools ==> if op == "reintegrate" then !WouldLose(p, want) else !BareCacheOn(p, want)
  }

  ghost predicate Allows(s: State, i: Input, op: string, ranks: string) {
    && RowsAllow(i, op, RankSetOf(ranks))
    && (PoolsAsked(op, ranks, s.discard) ==> !i.listFails && PoolsAgree(i, op, RankSetOf(ranks)))
  }

  ghost predicate Refuses(s: State, i: Input, op: string, ranks: string) {
    || !RowsAllow(i, op, RankSetOf(ranks))
    || (PoolsAsked(op, ranks, s.discard) && !i.listFails && !PoolsAgree(i, op, RankSetOf(ranks)))
  }

  lemma RowsMean(i: Input, op: string, ranks: string)
    ensures i.formatted && PreconditionHolds(op, ranks, i) <==> RowsAllow(i, op, RankSetOf(ranks))
  {
    forall n { ReadyMeans(i.configs, n); }
    hide RankSetOf, ServerReadyOn, ReadyNow;
  }

  lemma PoolsMean(i: Input, op: string, ranks: string)
    requires op == "reintegrate" || op == "exclude"
    ensures PoolsAllow(op, ranks, i.pools) <==> PoolsAgree(i, op, RankSetOf(ranks))
  {
    forall p { PoolMeans(p, RankSetOf(ranks)); }
    assert "reintegrate"[0] != "exclude"[0];
    hide RankSetOf, LosesData, WouldLose, BareCache, BareCacheOn;
  }

  lemma GuardedMeans(s: State, i: Input, op: string, ranks: string)
    requires Present(s, op, ranks)
    ensures Decide(s, i, Blank(s)) ==
      if Allows(s, i, op, ranks) then RunOp(s, i, Blank(s), op, ranks)
      else if Refuses(s, i, op, ranks) then Answered(s, i, Blank(s), op, ranks, false)
      else Work(s, Blank(s), true)
  {
    RowsMean(i, op, ranks);
    ParsedRanksNotEmpty(s.request.value);
    if op == "reintegrate" || op == "exclude" { PoolsMean(i, op, ranks); }
    hide ParseRequest, PreconditionHolds, RowsAllow, PoolsAllow, PoolsAgree, RunOp, Answered, RankSetOf;
  }

  // ---- what a pass does

  /** Its Job goes out exactly if the rows and the pools allow it, the name is free and the API goes along; and it
      carries the operation and the ranks of the request. */
  lemma CreatedExactly(s: State, i: Input, op: string, ranks: string)
    requires Present(s, op, ranks)
    ensures var (s', rec) := Pass(s, i);
      && (rec.created <==>
            Allows(s, i, op, ranks) && RANK_JOB !in s.box.jobs && !i.fault.GetFails? && !i.fault.CreateFails?)
      && (rec.created ==>
            s'.box.jobs ==
            s.box.jobs[RANK_JOB := Job(s.box.nextId, ["system", op, "--ranks=" + ranks], Running)])
      && (!Allows(s, i, op, ranks) ==> s'.box == s.box)
  {
    hide *;
    GuardedMeans(s, i, op, ranks);
    RunCreates(s, i, op, ranks);
    QuietAnswer(s, i, op, ranks);
    PassParts(s, i);
  }

  lemma PassParts(s: State, i: Input)
    ensures var d := Decide(s, i, Blank(s)); Pass(s, i).1.created == d.rec.created && Pass(s, i).0.box == d.s.box
    ensures !Blank(s).created
  {
    hide Decide;
  }

  lemma QuietAnswer(s: State, i: Input, op: string, ranks: string)
    ensures var d := Answered(s, i, Blank(s), op, ranks, false); !d.rec.created && d.s.box == s.box
  {
    hide Seconds, Requested;
  }

  lemma RunCreates(s: State, i: Input, op: string, ranks: string)
    ensures var d := RunOp(s, i, Blank(s), op, ranks);
      && (d.rec.created <==> RANK_JOB !in s.box.jobs && !i.fault.GetFails? && !i.fault.CreateFails?)
      && (d.rec.created ==>
            d.s.box.jobs ==
            s.box.jobs[RANK_JOB := Job(s.box.nextId, ["system", op, "--ranks=" + ranks], Running)])
  {
    hide Read, Seconds, RANK_JOB;
    var (b, out) := RunJob(s.box, RANK_JOB, Args(op, ranks), i.fault);
    if out.Done? { ReadKeeps(s.(box := b), i, op, ranks, out.args, out.answer); }
  }

  lemma ReadKeeps(s: State, i: Input, op: string, ranks: string, args: seq<string>, answer: Answer)
    ensures forall rec: Record :: !rec.created ==> !Read(s, i, rec, op, ranks, answer).rec.created
  {
    hide Seconds, Requested, NothingIsFine;
  }

  /** The time on record for the request, if the record is about it and open, and else the time of the pass. */
  function Since(last: Option<LastOp>, op: string, ranks: string, now: int): int {
    match last
    case Some(LastOp(o, rs, at, false, _)) => if o == op && rs == ranks then at else now
    case _ => now
  }

  /** The record and the annotations after an answer; where the annotations cannot be removed nothing is kept. */
  ghost predicate AnsweredWith(s: State, i: Input, s': State, op: string, ranks: string, ok: bool) {
    var at := Since(s.last, op, ranks, i.now);
    && s'.last == (if i.lost || i.clearFails then s.last
                   else Some(LastOp(op, ranks, at - at % 1_000_000_000, true, ok)))
    && s'.request == (if i.clearFails then s.request else None)
    && s'.discard == (if i.clearFails then s.discard else None)
  }

  lemma AnsweredMeans(s: State, s1: State, i: Input, rec: Record, op: string, ranks: string, ok: bool)
    requires s.request.Some? && s1 == s.(box := s1.box)
    ensures var d := Answered(s1, i, rec, op, ranks, ok);
      && AnsweredWith(s, i, if d.err || i.lost then d.s.(last := s.last) else d.s, op, ranks, ok)
      && d.rec.answered && d.rec.retried == rec.retried
  {}

  /** A refusal is a failed answer, and leaves the Jobs alone. */
  lemma RefusedExactly(s: State, i: Input, op: string, ranks: string)
    requires Present(s, op, ranks)
    ensures var (s', rec) := Pass(s, i);
      Refuses(s, i, op, ranks) ==> rec.answered && s'.box == s.box && AnsweredWith(s, i, s', op, ranks, false)
  {
    GuardedMeans(s, i, op, ranks);
    if Refuses(s, i, op, ranks) { AnsweredMeans(s, s, i, Blank(s), op, ranks, false); }
    hide Decide, ParseRequest, RowsAllow, PoolsAgree, Seconds, Requested, AnsweredWith, RunOp;
  }

  /** So is an annotation that is no request; its text stands where the operation would. */
  lemma UnreadableAnswered(s: State, i: Input)
    requires s.request.Some? && ParseRequest(s.request.value).None?
    ensures var (s', rec) := Pass(s, i);
      rec.answered && s'.box == s.box && AnsweredWith(s, i, s', s.request.value, "", false)
  {
    AnsweredMeans(s, s, i, Blank(s), s.request.value, "", false);
    hide ParseRequest, Seconds, Requested, AnsweredWith;
  }

  /** The finished Job is read. Only a result without a failed rank is a success, except that for drain and
      reintegrate there may be nothing to do. A request that never reached DAOS stays, with its time on record,
      until three minutes after that. */
  lemma ReadExactly(s: State, i: Input, op: string, ranks: string, answer: Answer)
    requires Present(s, op, ranks) && Allows(s, i, op, ranks) && (i.fault.NoFault? || i.fault.CreateFails?)
    requires RANK_JOB in s.box.jobs && s.box.jobs[RANK_JOB].phase == Finished(answer)
    ensures var (s', rec) := Pass(s, i);
      var since := Since(s.last, op, ranks, i.now);
      var again := answer.Unreachable? && i.now < since + 180_000_000_000;
      && rec.retried == again && rec.answered == !again
      && (again ==>
            && s'.request == s.request && s'.discard == s.discard
            && s'.last == if i.lost then s.last
                          else Some(LastOp(op, ranks, since - since % 1_000_000_000, false, false)))
      && (!again ==>
            AnsweredWith(s, i, s', op, ranks,
                         answer == Results(false) || (answer.NothingToDo? && op in {"drain", "reintegrate"})))
  {
    var b := RunJob(s.box, RANK_JOB, Args(op, ranks), i.fault).0;
    var rec := Blank(s).(delivered := Some((s.box.jobs[RANK_JOB].args, answer)));
    GuardedMeans(s, i, op, ranks);
    RunReads(s, i, op, ranks, answer);
    ReadLeaves(s, s.(box := b), i, rec, op, ranks, answer);
    hide Decide, ParseRequest, Allows, Refuses, RunOp, Read, AnsweredWith, RunJob, RANK_JOB, Args, Since;
  }

  lemma ReadLeaves(s: State, s1: State, i: Input, rec: Record, op: string, ranks: string, answer: Answer)
    requires s.request.Some? && s1 == s.(box := s1.box) && !rec.retried && !rec.answered
    ensures var d := Read(s1, i, rec, op, ranks, answer);
      var s' := if d.err || i.lost then d.s.(last := s.last) else d.s;
      var since := Since(s.last, op, ranks, i.now);
      var again := answer.Unreachable? && i.now < since + 180_000_000_000;
      && d.rec.retried == again && d.rec.answered == !again
      && (again ==>
            && s'.request == s.request && s'.discard == s.discard
            && s'.last == if i.lost then s.last
                          else Some(LastOp(op, ranks, since - since % 1_000_000_000, false, false)))
      && (!again ==>
            AnsweredWith(s, i, s', op, ranks,
                         answer == Results(false) || (answer.NothingToDo? && op in {"drain", "reintegrate"})))
  {
    AnsweredMeans(s, s1, i, rec, op, ranks, true);
    AnsweredMeans(s, s1, i, rec, op, ranks, false);
    hide Answered, AnsweredWith;
  }

  lemma RunReads(s: State, i: Input, op: string, ranks: string, answer: Answer)
    requires (i.fault.NoFault? || i.fault.CreateFails?)
    requires RANK_JOB in s.box.jobs && s.box.jobs[RANK_JOB].phase == Finished(answer)
    ensures var b := RunJob(s.box, RANK_JOB, Args(op, ranks), i.fault).0;
      var rec := Blank(s).(delivered := Some((s.box.jobs[RANK_JOB].args, answer)));
      RunOp(s, i, Blank(s), op, ranks) == Read(s.(box := b), i, rec, op, ranks, answer)
  {
    hide Read, RANK_JOB, Args;
  }

  /** A Job that is not back yet: the request is put on record, unless an unfinished one is. */
  lemma WaitingExactly(s: State, i: Input, op: string, ranks: string)
    requires Present(s, op, ranks) && Allows(s, i, op, ranks) && i.fault.NoFault?
    requires RANK_JOB in s.box.jobs ==> !s.box.jobs[RANK_JOB].phase.Finished?
    ensures var s' := Pass(s, i).0;
      && s'.request == s.request && s'.discard == s.discard
      && s'.last == if i.lost || (s.last.Some? && !s.last.value.finished) then s.last
                    else Some(LastOp(op, ranks, i.now - i.now % 1_000_000_000, false, false))
  {
    GuardedMeans(s, i, op, ranks);
    hide Decide, ParseRequest, Allows, Refuses, Args, RANK_JOB, Read;
  }
}
