/** What a rank request is promised: its guards, one answer, a bounded retry, and whose Job the answer is. */
module RankOpRuns {
  import opened Text
  import opened DaosStatus
  import opened Mailbox
  import opened RankSet
  import opened RankOp
  import Pool

  // ---- requests as humans write them

  lemma RenderedIsItem(it: Item)
    requires it.InRange()
    ensures IsItem(it.Render())
  {
    match it
    case One(r) =>
      DigitsAreNotSpecial(NatText(r));
      CutAtFirst(NatText(r), '-', "");
    case Range(l, h) =>
      DigitsAreNotSpecial(NatText(l));
      DigitsAreNotSpecial(NatText(h));
      CutAtFirst(NatText(l), '-', NatText(h));
  }

  /** A printed set of ranks and ranges is a rank set to the operator, and names exactly the ranks the items
      cover. */
  lemma RenderedRankSet(items: seq<Item>, r: int)
    requires items != [] && forall i :: 0 <= i < |items| ==> items[i].InRange()
    ensures IsRankSetText(Join(RenderAll(items), ','))
    ensures r in RankSetOf(Join(RenderAll(items), ',')) <==> exists i :: 0 <= i < |items| && items[i].Covers(r)
  {
    var ts := RenderAll(items);
    forall i | 0 <= i < |items| ensures ',' !in ts[i] && IsItem(ts[i]) {
      ItemBoundsOf(items[i]);
      RenderedIsItem(items[i]);
    }
    SplitJoin(ts, ',');
    RankSetMeaning(items, r);
  }

  // ---- guards

  /** The last entry of the node says its server is ready. */
  ghost predicate ReadyNow(configs: seq<NodeConfig>, node: string) {
    exists k :: 0 <= k < |configs| && configs[k].node == node && configs[k].serverReady &&
                forall j :: k < j < |configs| ==> configs[j].node != node
  }

  lemma {:induction false} ReadyMeans(configs: seq<NodeConfig>, node: string)
    ensures ServerReadyOn(configs, node) <==> ReadyNow(configs, node)
  {
    if configs != [] {
      var n := |configs| - 1;
      ReadyMeans(configs[..n], node);
      if ReadyNow(configs[..n], node) && configs[n].node != node {
        var k :| 0 <= k < n && configs[..n][k].node == node && configs[..n][k].serverReady &&
                 forall j :: k < j < n ==> configs[..n][j].node != node;
        assert forall j :: k < j < n ==> configs[j] == configs[..n][j];
        assert configs[k].node == node;
      }
      if ReadyNow(configs, node) && configs[n].node != node {
        var k :| 0 <= k < |configs| && configs[k].node == node && configs[k].serverReady &&
                 forall j :: k < j < |configs| ==> configs[j].node != node;
        assert configs[..n][k].node == node;
      }
    }
  }

  /** A rank that may be reintegrated: not excluded by an administrator, and if its state says that no engine
      runs, then the server of its node must be ready. */
  ghost predicate HasEngine(state: string, configs: seq<NodeConfig>, node: string) {
    state != "adminexcluded" &&
    (state in {"excluded", "errored", "unknown", "stopped", "awaitformat"} ==> ReadyNow(configs, node))
  }

  /** Whenever a Job is created, for every text of the request: a reintegrate names no rank that is
      administratively excluded, and none without an engine; and unless the discard annotation repeats the
      ranks, no pool loses its only copy to a reintegrate, and no bare cache a rank to an exclude. */
  lemma GuardsHoldAtCreation(s: State, i: Input) returns (op: string, ranks: string)
    requires Pass(s, i).1.created
    ensures s.request.Some? && ParseRequest(s.request.value) == Some((op, ranks)) && i.formatted
    ensures op == "reintegrate" ==>
      forall r :: r in i.ranks && r.rank in RankSetOf(ranks) ==>
        HasEngine(r.state, i.configs, r.node)
    ensures op == "reintegrate" && s.discard != Some(ranks) ==>
      forall p :: p in i.pools && Spans(p.spec, RankSetOf(ranks)) ==>
        || Pool.RedundancyFactor(p.spec) != 0 || (p.mode != "" && p.mode != "data_sync")
        || (p.spec.reintegration == Some("data_sync") && p.mode == "data_sync")
    ensures op == "exclude" && s.discard != Some(ranks) ==>
      forall p :: p in i.pools && Spans(p.spec, RankSetOf(ranks)) ==>
        !p.spec.kvcache || Pool.Redundancy(p.spec) != "none"
  {
    forall n { ReadyMeans(i.configs, n); }
    hide RunOp, Read, RankSetOf, ServerReadyOn, ReadyNow, Spans, Pool.RedundancyFactor, Pool.Redundancy;
    op, ranks := "", "";
    if s.request.Some? && ParseRequest(s.request.value).Some? {
      op, ranks := ParseRequest(s.request.value).value.0, ParseRequest(s.request.value).value.1;
      ParsedRanksNotEmpty(s.request.value);
    }
    hide ParseRequest;
  }

  lemma ParsedRanksNotEmpty(v: string)
    requires ParseRequest(v).Some?
    ensures ParseRequest(v).value.1 != ""
  {
    EmptyIsNoRankSet();
  }

  lemma EmptyIsNoRankSet()
    ensures !IsRankSetText("")
  {
    var parts := Split("", ',');
    assert parts == [""];
    assert parts[0] in parts;
    assert !IsItem("");
  }

  // ---- runs

  /** A human sets, edits or withdraws the request, and what was there then: the arguments of an open rank Job,
      and the last record. Or a pass looks, and what it leaves on record. */
  datatype Event =
    | Asked(request: Option<string>, open: Option<seq<string>>, last: Option<LastOp>)
    | Looked(now: int, rec: Record, left: Option<LastOp>)

  datatype World = World(s: State, log: seq<Event>)

  datatype Step =
    | SetRequest(request: Option<string>)
    | SetDiscard(discard: Option<string>)
    | Look(i: Input)
    | JobFinished(name: string, answer: Answer)
    | JobGone(name: string)

  function OpenJob(b: Box<Answer>): Option<seq<string>> {
    if b.Open(RANK_JOB) then Some(b.jobs[RANK_JOB].args) else None
  }

  function Apply(w: World, step: Step): World {
    match step
    case SetRequest(v) => World(w.s.(request := v), w.log + [Asked(v, OpenJob(w.s.box), w.s.last)])
    case SetDiscard(v) => w.(s := w.s.(discard := v))
    case Look(i) => var (s, rec) := Pass(w.s, i); World(s, w.log + [Looked(i.now, rec, s.last)])
    case JobFinished(name, answer) => w.(s := w.s.(box := FinishJob(w.s.box, name, answer)))
    case JobGone(name) => w.(s := w.s.(box := DropJob(w.s.box, name)))
  }

  const Initial: World := World(State(None, None, None, Box(map[], 0)), [])

  function Run(steps: seq<Step>): World {
    if steps == [] then Initial else Apply(Run(steps[..|steps| - 1]), steps[|steps| - 1])
  }

  // ---- reading a log, since the last word of a human

  ghost function LastAsked(log: seq<Event>): (a: Option<Event>)
    ensures a.Some? ==> a.value.Asked?
  {
    if log == [] then None else if log[|log| - 1].Asked? then Some(log[|log| - 1]) else LastAsked(log[..|log| - 1])
  }

  /** A result was read since then. */
  ghost predicate Delivered(log: seq<Event>) {
    log != [] && log[|log| - 1].Looked? && (log[|log| - 1].rec.delivered.Some? || Delivered(log[..|log| - 1]))
  }

  /** Answers given since then. */
  ghost function Answers(log: seq<Event>): nat {
    if log == [] || log[|log| - 1].Asked? then 0
    else Answers(log[..|log| - 1]) + if log[|log| - 1].rec.answered then 1 else 0
  }

  /** Answers since then whose patch, which removes the annotations, failed. */
  ghost function FailedClears(log: seq<Event>): nat {
    if log == [] || log[|log| - 1].Asked? then 0
    else FailedClears(log[..|log| - 1]) + if log[|log| - 1].rec.answered && !log[|log| - 1].rec.cleared then 1 else 0
  }

  /** The time on record for this request: the one found when it was made, or else the first one stored. */
  ghost function Time(log: seq<Event>, op: string, ranks: string): Option<int> {
    if log == [] then None
    else
      var last := log[|log| - 1];
      if last.Asked? then (if Continues(last.last, op, ranks) then Some(last.last.value.requestedAt) else None)
      else if Time(log[..|log| - 1], op, ranks).Some? then Time(log[..|log| - 1], op, ranks)
      else if Continues(last.left, op, ranks) then Some(last.left.value.requestedAt)
      else None
  }

  lemma Extend(log: seq<Event>, e: Event, op: string, ranks: string)
    ensures LastAsked(log + [e]) == if e.Asked? then Some(e) else LastAsked(log)
    ensures Delivered(log + [e]) == (e.Looked? && (e.rec.delivered.Some? || Delivered(log)))
    ensures Answers(log + [e]) == if e.Asked? then 0 else Answers(log) + if e.rec.answered then 1 else 0
    ensures FailedClears(log + [e]) ==
      if e.Asked? then 0 else FailedClears(log) + if e.rec.answered && !e.rec.cleared then 1 else 0
    ensures Time(log + [e], op, ranks) ==
      if e.Asked? then (if Continues(e.last, op, ranks) then Some(e.last.value.requestedAt) else None)
      else if Time(log, op, ranks).Some? then Time(log, op, ranks)
      else if Continues(e.left, op, ranks) then Some(e.left.value.requestedAt)
      else None
  {
    assert (log + [e])[..|log|] == log;
  }

  /** As the request was made, a Job for something else was open, and it was not read since. */
  ghost predicate Foreign(log: seq<Event>, op: string, ranks: string) {
    && !Delivered(log) && LastAsked(log).Some?
    && LastAsked(log).value.open.Some? && LastAsked(log).value.open.value != Args(op, ranks)
  }

  // ---- the invariant

  ghost predicate Present(s: State, op: string, ranks: string) {
    s.request.Some? && ParseRequest(s.request.value) == Some((op, ranks))
  }

  /** An open Job is the request's own, or the one that was open as the request was made. */
  ghost predicate OwnInv(w: World, op: string, ranks: string) {
    Present(w.s, op, ranks) && LastAsked(w.log).Some? ==>
      var a := LastAsked(w.log).value;
      && a.request == w.s.request
      && (!Delivered(w.log) && a.open.Some? ==> OpenJob(w.s.box) == a.open)
      && (OpenJob(w.s.box).Some? && (Delivered(w.log) || a.open.None?) ==> OpenJob(w.s.box).value == Args(op, ranks))
  }

  ghost predicate TimeInv(w: World, op: string, ranks: string) {
    Present(w.s, op, ranks) ==>
      && (Continues(w.s.last, op, ranks) <==> Time(w.log, op, ranks).Some?)
      && (Time(w.log, op, ranks).Some? ==> w.s.last.value.requestedAt == Time(w.log, op, ranks).value)
  }

  ghost predicate CountInv(w: World) {
    && (w.s.request.Some? ==> LastAsked(w.log).Some? && Answers(w.log) == FailedClears(w.log))
    && Answers(w.log) <= FailedClears(w.log) + 1
    && (LastAsked(w.log).None? ==> w.s.request.None?)
  }

  /** What a pass over a readable request does, given what came before. */
  ghost predicate GoodLook(prefix: seq<Event>, e: Event, op: string, ranks: string)
    requires e.Looked?
  {
    var rec := e.rec;
    && (rec.delivered.Some? ==> (rec.delivered.value.0 != Args(op, ranks) <==> Foreign(prefix, op, ranks)))
    && (rec.delivered.Some? ==> (rec.retried <==> !rec.answered))
    && (rec.retried ==> rec.delivered.Some? && rec.delivered.value.1.Unreachable?)
    && (rec.delivered.Some? && rec.delivered.value.1.Unreachable? ==>
          (rec.retried <==> Time(prefix, op, ranks).None? || e.now < Time(prefix, op, ranks).value + RETRY_WINDOW))
    && (Time(prefix, op, ranks).Some? ==> e.left.Some? && e.left.value.requestedAt == Time(prefix, op, ranks).value)
  }

  ghost predicate GoodEvent(prefix: seq<Event>, e: Event) {
    e.Looked? ==>
      && (e.rec.request.Some? ==> LastAsked(prefix).Some? && Answers(prefix) == FailedClears(prefix))
      && (e.rec.request.None? ==> !e.rec.created && e.rec.delivered.None? && !e.rec.retried && !e.rec.answered)
      && (e.rec.request.Some? ==>
            match ParseRequest(e.rec.request.value)
            case None => e.rec.answered && !e.rec.created && e.rec.delivered.None?
            case Some((op, ranks)) => GoodLook(prefix, e, op, ranks))
  }

  ghost predicate GoodLog(log: seq<Event>) {
    forall k :: 0 <= k < |log| ==> GoodEvent(log[..k], log[k])
  }

  // ---- one pass

  lemma SecondsTwice(t: int)
    ensures Seconds(Seconds(t)) == Seconds(t)
  {}

  /** Times on record are whole seconds. */
  ghost predicate WholeTime(last: Option<LastOp>) {
    last.Some? ==> Seconds(last.value.requestedAt) == last.value.requestedAt
  }

  ghost predicate Known(w: World, op: string, ranks: string) {
    && Present(w.s, op, ranks) && LastAsked(w.log).Some? && WholeTime(w.s.last)
    && OwnInv(w, op, ranks) && TimeInv(w, op, ranks) && CountInv(w)
  }

  /** The state and the event a pass leaves, from its work. */
  function Left(w: World, i: Input, d: Work): World {
    var s := if d.err || i.lost then d.s.(last := w.s.last) else d.s;
    var rec := if d.err || i.lost then d.rec.(stored := false) else d.rec;
    World(s, w.log + [Looked(i.now, rec, s.last)])
  }

  ghost predicate Handled(w: World, i: Input, d: Work, op: string, ranks: string) {
    var w' := Left(w, i, d);
    && GoodLook(w.log, w'.log[|w.log|], op, ranks)
    && WholeTime(w'.s.last) && OwnInv(w', op, ranks) && TimeInv(w', op, ranks) && CountInv(w')
    && d.rec.request == w.s.request
    && (w'.s.request == w.s.request || w'.s.request.None?)
  }

  /** What a read Job must be for the pass to be in order, whether it answers or retries. */
  ghost predicate Readable(w: World, b: Box<Answer>, rec: Record) {
    && !rec.retried && !rec.answered && rec.request == w.s.request
    && (if rec.delivered.Some? then !rec.created && OpenJob(w.s.box) == Some(rec.delivered.value.0) && OpenJob(b).None?
        else b == w.s.box)
  }

  ghost predicate TimeIsUp(w: World, i: Input, op: string, ranks: string) {
    Time(w.log, op, ranks).Some? && i.now >= Time(w.log, op, ranks).value + RETRY_WINDOW
  }

  lemma AnsweredLooks(w: World, i: Input, b: Box<Answer>, rec: Record, op: string, ranks: string, ok: bool)
    requires Known(w, op, ranks) && Readable(w, b, rec)
    requires rec.delivered.Some? && rec.delivered.value.1.Unreachable? ==> TimeIsUp(w, i, op, ranks)
    ensures var w' := Left(w, i, Answered(w.s.(box := b), i, rec, op, ranks, ok));
      GoodLook(w.log, w'.log[|w.log|], op, ranks)
  {
    hide LastAsked, Delivered, Answers, FailedClears, Time, ParseRequest, Args, Seconds, CountInv;
  }

  lemma AnsweredHandled(w: World, i: Input, b: Box<Answer>, rec: Record, op: string, ranks: string, ok: bool)
    requires Known(w, op, ranks) && Readable(w, b, rec)
    requires rec.delivered.Some? && rec.delivered.value.1.Unreachable? ==> TimeIsUp(w, i, op, ranks)
    ensures Handled(w, i, Answered(w.s.(box := b), i, rec, op, ranks, ok), op, ranks)
  {
    var d := Answered(w.s.(box := b), i, rec, op, ranks, ok);
    var w' := Left(w, i, d);
    AnsweredLooks(w, i, b, rec, op, ranks, ok);
    SecondsTwice(Requested(w.s.last, op, ranks, i.now));
    Extend(w.log, w'.log[|w.log|], op, ranks);
    hide LastAsked, Delivered, Answers, FailedClears, Time, ParseRequest, Args, Seconds, GoodLook;
  }

  lemma RetryHandled(w: World, i: Input, b: Box<Answer>, rec: Record, op: string, ranks: string)
    requires Known(w, op, ranks) && Readable(w, b, rec) && rec.delivered.Some? && rec.delivered.value.1.Unreachable?
    requires i.now - Requested(w.s.last, op, ranks, i.now) < RETRY_WINDOW
    ensures var since := Requested(w.s.last, op, ranks, i.now);
      Handled(w, i,
              Work(w.s.(box := b, last := Some(LastOp(op, ranks, Seconds(since), false, false))), rec.(retried := true),
                   false), op, ranks)
  {
    var since := Requested(w.s.last, op, ranks, i.now);
    var d := Work(w.s.(box := b, last := Some(LastOp(op, ranks, Seconds(since), false, false))), rec.(retried := true),
                  false);
    SecondsTwice(since);
    Extend(w.log, Left(w, i, d).log[|w.log|], op, ranks);
    hide LastAsked, Delivered, Answers, FailedClears, Time, ParseRequest, Args, Seconds;
  }

  lemma ReadHandled(w: World, i: Input, b: Box<Answer>, rec: Record, op: string, ranks: string, answer: Answer)
    requires Known(w, op, ranks) && Readable(w, b, rec) && rec.delivered.Some? && rec.delivered.value.1 == answer
    ensures Handled(w, i, Read(w.s.(box := b), i, rec, op, ranks, answer), op, ranks)
  {
    var since := Requested(w.s.last, op, ranks, i.now);
    hide LastAsked, Delivered, Time, ParseRequest, Args, Seconds, Answered, Handled;
    if NothingIsFine(op, answer) {
      AnsweredHandled(w, i, b, rec, op, ranks, true);
    } else if answer.Unreachable? && i.now - since < RETRY_WINDOW {
      RetryHandled(w, i, b, rec, op, ranks);
    } else {
      AnsweredHandled(w, i, b, rec, op, ranks, answer == Results(false));
    }
  }

  lemma RankJobRun(b: Box<Answer>, args: seq<string>, fault: Fault)
    ensures var (b', out) := RunJob(b, RANK_JOB, args, fault);
      && (out.Done? ==> OpenJob(b) == Some(out.args) && OpenJob(b').None? && b'.nextId == b.nextId)
      && (!out.Done? && OpenJob(b).Some? ==> OpenJob(b') == OpenJob(b))
      && (!out.Done? && OpenJob(b).None? ==> OpenJob(b').None? || OpenJob(b') == Some(args))
  {}

  /** A pass that only asked for the Job, or left it running. */
  lemma WaitHandled(w: World, i: Input, d: Work, op: string, ranks: string)
    requires Known(w, op, ranks)
    requires d.rec == Blank(w.s).(created := d.rec.created) && d.s.request == w.s.request
    requires OpenJob(w.s.box).Some? ==> OpenJob(d.s.box) == OpenJob(w.s.box)
    requires OpenJob(w.s.box).None? ==> OpenJob(d.s.box).None? || OpenJob(d.s.box) == Some(Args(op, ranks))
    requires d.s.last == w.s.last ||
             ((w.s.last.None? || w.s.last.value.finished)
              && d.s.last == Some(LastOp(op, ranks, Seconds(i.now), false, false)))
    ensures Handled(w, i, d, op, ranks)
  {
    SecondsTwice(i.now);
    Extend(w.log, Left(w, i, d).log[|w.log|], op, ranks);
    hide LastAsked, Delivered, Answers, FailedClears, Time, ParseRequest, Args, Seconds;
  }

  lemma RunOpHandled(w: World, i: Input, op: string, ranks: string)
    requires Known(w, op, ranks)
    ensures Handled(w, i, RunOp(w.s, i, Blank(w.s), op, ranks), op, ranks)
  {
    RankJobRun(w.s.box, Args(op, ranks), i.fault);
    var (b, out) := RunJob(w.s.box, RANK_JOB, Args(op, ranks), i.fault);
    hide RunJob, Read, Seconds, ParseRequest, Args, Handled, LastAsked, Delivered, Time;
    if out.Done? {
      ReadHandled(w, i, b, Blank(w.s).(created := false, delivered := Some((out.args, out.answer))), op, ranks,
                  out.answer);
    } else {
      WaitHandled(w, i, RunOp(w.s, i, Blank(w.s), op, ranks), op, ranks);
    }
  }

  lemma GuardedHandled(w: World, i: Input, op: string, ranks: string)
    requires Known(w, op, ranks)
    ensures Handled(w, i, Guarded(w.s, i, Blank(w.s), op, ranks), op, ranks)
  {
    hide RunOp, Answered, Known, Handled, PreconditionHolds, PoolsAllow, AsksPools, LastAsked, Delivered, Time,
         ParseRequest;
    if !i.formatted || !PreconditionHolds(op, ranks, i) {
      AnsweredHandled(w, i, w.s.box, Blank(w.s), op, ranks, false);
    } else if AsksPools(op, ranks, w.s.discard) && i.listFails {
      ListFailHandled(w, i, op, ranks);
    } else if AsksPools(op, ranks, w.s.discard) && !PoolsAllow(op, ranks, i.pools) {
      AnsweredHandled(w, i, w.s.box, Blank(w.s), op, ranks, false);
    } else {
      RunOpHandled(w, i, op, ranks);
    }
  }

  lemma ListFailHandled(w: World, i: Input, op: string, ranks: string)
    requires Known(w, op, ranks)
    ensures Handled(w, i, Work(w.s, Blank(w.s), true), op, ranks)
  {
    WaitHandled(w, i, Work(w.s, Blank(w.s), true), op, ranks);
  }

  // ---- all runs

  ghost predicate Inv(w: World) {
    && CountInv(w) && WholeTime(w.s.last) && GoodLog(w.log)
    && (w.s.request.Some? && ParseRequest(w.s.request.value).Some? ==>
          var (op, ranks) := ParseRequest(w.s.request.value).value; OwnInv(w, op, ranks) && TimeInv(w, op, ranks))
  }

  lemma AppendGood(log: seq<Event>, e: Event)
    requires GoodLog(log) && GoodEvent(log, e)
    ensures GoodLog(log + [e])
  {
    var longer := log + [e];
    forall k | 0 <= k < |longer| ensures GoodEvent(longer[..k], longer[k]) {
      assert longer[..k] == log[..k];
      if k == |log| { assert log[..k] == log; }
    }
  }

  lemma UnreadableHandled(w: World, i: Input)
    requires CountInv(w) && WholeTime(w.s.last) && w.s.request.Some? && ParseRequest(w.s.request.value).None?
    ensures var w' := Left(w, i, Answered(w.s, i, Blank(w.s), w.s.request.value, "", false));
      CountInv(w') && WholeTime(w'.s.last) && GoodEvent(w.log, w'.log[|w.log|])
      && (w'.s.request == w.s.request || w'.s.request.None?)
  {
    var w' := Left(w, i, Answered(w.s, i, Blank(w.s), w.s.request.value, "", false));
    SecondsTwice(Requested(w.s.last, w.s.request.value, "", i.now));
    Extend(w.log, w'.log[|w.log|], "", "");
    hide LastAsked, Delivered, Answers, FailedClears, Time, ParseRequest, Args, Seconds, GoodLook;
  }

  lemma LookKeepsInv(w: World, i: Input)
    requires Inv(w)
    ensures Inv(Apply(w, Look(i)))
  {
    var d := Decide(w.s, i, Blank(w.s));
    var w' := Left(w, i, d);
    assert Apply(w, Look(i)) == w';
    hide LastAsked, Delivered, Answers, FailedClears, Time, ParseRequest, Args, Seconds, GoodLook, GoodLog, Guarded,
         Answered,
         OwnInv, TimeInv, WholeTime;
    if w.s.request.None? {
      Extend(w.log, w'.log[|w.log|], "", "");
    } else if ParseRequest(w.s.request.value).None? {
      UnreadableHandled(w, i);
    } else {
      var (op, ranks) := ParseRequest(w.s.request.value).value;
      GuardedHandled(w, i, op, ranks);
    }
    AppendGood(w.log, w'.log[|w.log|]);
  }

  lemma AskKeepsInv(w: World, v: Option<string>)
    requires Inv(w)
    ensures Inv(Apply(w, SetRequest(v)))
  {
    var e := Asked(v, OpenJob(w.s.box), w.s.last);
    AppendGood(w.log, e);
    if v.Some? && ParseRequest(v.value).Some? {
      Extend(w.log, e, ParseRequest(v.value).value.0, ParseRequest(v.value).value.1);
    } else {
      Extend(w.log, e, "", "");
    }
    hide LastAsked, Delivered, Answers, FailedClears, Time, ParseRequest, Args, Seconds, GoodLog;
  }

  lemma StepKeepsInv(w: World, step: Step)
    requires Inv(w)
    ensures Inv(Apply(w, step))
  {
    match step
    case SetRequest(v) => AskKeepsInv(w, v); hide Inv;
    case Look(i) => LookKeepsInv(w, i); hide Inv, Pass;
    case _ => hide LastAsked, Delivered, Answers, FailedClears, Time, ParseRequest, Args, Seconds, GoodLog;
  }

  lemma {:induction false} RunInv(steps: seq<Step>)
    ensures Inv(Run(steps))
  {
    if steps != [] {
      RunInv(steps[..|steps| - 1]);
      StepKeepsInv(Run(steps[..|steps| - 1]), steps[|steps| - 1]);
      hide Inv, Apply;
    }
  }

  ghost predicate Reachable(w: World) { exists steps :: Run(steps) == w }

  ghost predicate IsLog(log: seq<Event>) { exists steps :: Run(steps).log == log }

  lemma GoodAt(log: seq<Event>, k: nat)
    requires IsLog(log) && k < |log|
    ensures GoodEvent(log[..k], log[k])
  {
    var steps :| Run(steps).log == log;
    RunInv(steps);
  }

  // ---- theorems

  /** Over every run a request is answered once, plus once for every answer whose patch failed: the count since
      the human last wrote the request. */
  lemma AnswersAreCounted(log: seq<Event>)
    requires IsLog(log)
    ensures Answers(log) <= 1 + FailedClears(log)
  {
    var steps :| Run(steps).log == log;
    RunInv(steps);
  }

  /** Passes j and k are two looks with nothing but other events of the same request in between. */
  ghost predicate SameRequest(log: seq<Event>, j: nat, k: nat) {
    j < k < |log| && forall l :: j <= l <= k ==> log[l].Looked?
  }

  lemma {:induction false} CountsBetween(log: seq<Event>, j: nat, k: nat)
    requires SameRequest(log, j, k) && log[j].rec.answered && log[j].rec.cleared
    requires FailedClears(log[..j]) <= Answers(log[..j])
    ensures Answers(log[..k]) >= FailedClears(log[..k]) + 1
  {
    assert log[..k][..k - 1] == log[..k - 1] && log[..k][k - 1] == log[k - 1];
    if j < k - 1 { CountsBetween(log, j, k - 1); }
  }

  lemma {:induction false} FailedAtMostAnswers(log: seq<Event>)
    ensures FailedClears(log) <= Answers(log)
  {
    if log != [] && log[|log| - 1].Looked? { FailedAtMostAnswers(log[..|log| - 1]); }
  }

  /** An answer ends the request exactly if its patch went through: then no later pass finds it, runs, reads or
      answers anything; otherwise the very next pass finds it again. */
  lemma AnswerEndsRequestExactly(log: seq<Event>, j: nat, k: nat)
    requires IsLog(log) && SameRequest(log, j, k) && log[j].rec.answered
    ensures log[j].rec.cleared ==>
      log[k].rec.request.None? && !log[k].rec.created && log[k].rec.delivered.None? && !log[k].rec.answered
    ensures k == j + 1 ==> (log[k].rec.request.Some? <==> !log[j].rec.cleared)
  {
    GoodAt(log, k);
    FailedAtMostAnswers(log[..j]);
    if log[j].rec.cleared {
      CountsBetween(log, j, k);
    } else if k == j + 1 {
      NextFindsRequest(log, j);
    }
  }

  /** A request whose removal failed is what the next pass finds. */
  lemma NextFindsRequest(log: seq<Event>, j: nat)
    requires IsLog(log) && SameRequest(log, j, j + 1) && log[j].rec.answered && !log[j].rec.cleared
    ensures log[j + 1].rec.request.Some?
  {
    GoodAt(log, j);
    var steps :| Run(steps).log == log;
    RequestsFollow(steps, j);
  }

  /** What a pass finds as the request is what the event before it left there. */
  ghost function LeftRequest(e: Event): Option<string> {
    if e.Asked? then e.request else if e.rec.answered && e.rec.cleared then None else e.rec.request
  }

  lemma {:induction false} RequestsFollow(steps: seq<Step>, j: nat)
    requires j + 1 < |Run(steps).log| && Run(steps).log[j + 1].Looked?
    ensures Run(steps).log[j + 1].rec.request == LeftRequest(Run(steps).log[j])
  {
    var init, step := steps[..|steps| - 1], steps[|steps| - 1];
    var w := Run(init);
    PresentRequest(init);
    if step.Look? { LookRecord(w.s, step.i); }
    hide Pass, Run, LeftRequest;
    if j + 1 < |w.log| { RequestsFollow(init, j); }
  }

  lemma LookRecord(s: State, i: Input)
    ensures Pass(s, i).1.request == s.request
    ensures Pass(s, i).0.request == if Pass(s, i).1.answered && Pass(s, i).1.cleared then None else s.request
  {
    hide RunJob, ParseRequest, PreconditionHolds, PoolsAllow, AsksPools, Args, Seconds;
  }

  lemma {:induction false} PresentRequest(steps: seq<Step>)
    ensures var w := Run(steps); w.s.request == if w.log == [] then None else LeftRequest(w.log[|w.log| - 1])
  {
    if steps != [] {
      var init, step := steps[..|steps| - 1], steps[|steps| - 1];
      PresentRequest(init);
      if step.Look? { LookRecord(Run(init).s, step.i); }
      hide Pass;
    }
  }

  /** Over every run, with requests edited and withdrawn at any time: the result a pass reads is another
      request's if and only if a Job for something else was open as the human wrote the request and no result
      was read since. */
  lemma ResultIsForeignExactly(log: seq<Event>, k: nat, op: string, ranks: string)
    requires IsLog(log) && k < |log| && log[k].Looked? && log[k].rec.delivered.Some? && log[k].rec.request.Some?
    requires ParseRequest(log[k].rec.request.value) == Some((op, ranks))
    ensures log[k].rec.delivered.value.0 != Args(op, ranks) <==> Foreign(log[..k], op, ranks)
  {
    GoodAt(log, k);
    hide ParseRequest, Args, IsLog;
  }

  /** A result that is not answered with is one that never reached DAOS; it is sent again exactly if no time is
      on record for the request yet, or the window from that time is still open. */
  lemma RetriedExactly(log: seq<Event>, k: nat, op: string, ranks: string)
    requires IsLog(log) && k < |log| && log[k].Looked? && log[k].rec.delivered.Some? && log[k].rec.request.Some?
    requires ParseRequest(log[k].rec.request.value) == Some((op, ranks))
    ensures log[k].rec.answered <==> !log[k].rec.retried
    ensures log[k].rec.retried <==>
      && log[k].rec.delivered.value.1.Unreachable?
      && (Time(log[..k], op, ranks).None? || log[k].now < Time(log[..k], op, ranks).value + 3 * MINUTE)
  {
    GoodAt(log, k);
    hide ParseRequest, Args, IsLog, Time;
  }

  /** Once a time is on record for a request, every later pass leaves that time, whatever is lost or fails. */
  lemma RequestTimeIsFixed(log: seq<Event>, k: nat, op: string, ranks: string)
    requires IsLog(log) && k < |log| && log[k].Looked? && log[k].rec.request.Some?
    requires ParseRequest(log[k].rec.request.value) == Some((op, ranks)) && Time(log[..k], op, ranks).Some?
    ensures log[k].left.Some? && log[k].left.value.requestedAt == Time(log[..k], op, ranks).value
    ensures Time(log[..k + 1], op, ranks) == Time(log[..k], op, ranks)
  {
    GoodAt(log, k);
    assert log[..k + 1] == log[..k] + [log[k]];
    Extend(log[..k], log[k], op, ranks);
    hide ParseRequest, Args, IsLog, Time;
  }

  // ---- requests written out

  lemma TrimKeeps(s: string)
    requires s != "" && !IsSpace(s[0]) && !IsSpace(s[|s| - 1])
    ensures TrimSpace(s) == s
  {}

  lemma RenderedHasNo(it: Item, c: char)
    requires it.InRange() && !IsDigit(c) && c != '-'
    ensures c !in it.Render()
  {
    match it
    case One(r) => DigitsAreNotSpecial(NatText(r));
    case Range(l, h) =>
      DigitsAreNotSpecial(NatText(l));
      DigitsAreNotSpecial(NatText(h));
  }

  lemma SetTextHasNo(items: seq<Item>, c: char)
    requires (forall i :: 0 <= i < |items| ==> items[i].InRange()) && !IsDigit(c) && c != '-' && c != ','
    ensures c !in Join(RenderAll(items), ',')
  {
    var ts := RenderAll(items);
    forall p | p in ts ensures c !in p {
      var i :| 0 <= i < |ts| && ts[i] == p;
      RenderedHasNo(items[i], c);
    }
    JoinHasNo(ts, ',', c);
  }

  /** A request written as operation, colon and rank set is read as just that. */
  lemma RequestIsRead(op: string, items: seq<Item>)
    requires IsRankOp(op) && items != [] && forall i :: 0 <= i < |items| ==> items[i].InRange()
    ensures ParseRequest(op + ":" + Join(RenderAll(items), ',')) == Some((op, Join(RenderAll(items), ',')))
  {
    hide IsRankSetText, TrimSpace, Cut, Join, RenderAll, RankSetOf;
    var text := Join(RenderAll(items), ',');
    RenderedRankSet(items, 0);
    EmptyIsNoRankSet();
    forall c | IsSpace(c) ensures c !in text { SetTextHasNo(items, c); }
    assert text[0] in text && text[|text| - 1] in text;
    TrimKeeps(text);
    OperationText(op);
    TrimKeeps(op);
    assert op + ":" + text == op + [':'] + text;
    CutAtFirst(op, ':', text);
  }

  lemma OperationText(op: string)
    requires IsRankOp(op)
    ensures op != "" && ':' !in op && !IsSpace(op[0]) && !IsSpace(op[|op| - 1])
  {
    if op == "drain" {} else if op == "exclude" {} else if op == "reintegrate" {} else { assert op == "clear-exclude"; }
  }

  // ---- runs that show what goes wrong

  /** The text of one rank. */
  function RankText(r: nat): string { Join(RenderAll([One(r)]), ',') }

  function RequestFor(op: string, r: nat): string { op + ":" + RankText(r) }

  function LookAt(now: int, state: string, clearFails: bool): Input {
    Input(now, true, [RankStatus(1, "n1", state)], [], [], false, NoFault, clearFails, false)
  }

  lemma ReadsBack(op: string, r: nat)
    requires IsRankOp(op) && r < RANK_LIMIT
    ensures ParseRequest(RequestFor(op, r)) == Some((op, RankText(r))) && RankText(r) != ""
    ensures forall x :: x in RankSetOf(RankText(r)) <==> x == r
  {
    var items := [One(r)];
    RequestIsRead(op, items);
    ParsedRanksNotEmpty(RequestFor(op, r));
    forall x ensures x in RankSetOf(RankText(r)) <==> x == r {
      RankSetMeaning(items, x);
      assert items[0].Covers(x) <==> x == r;
    }
  }

  lemma RunMore(steps: seq<Step>, a: Step, b: Step)
    ensures Run(steps + [a, b]) == Apply(Apply(Run(steps), a), b)
  {
    hide Apply;
    assert (steps + [a, b])[..|steps| + 1] == steps + [a];
    assert (steps + [a])[..|steps|] == steps;
  }

  /** A pass that may run the operation. */
  lemma Allowed(s: State, i: Input, op: string, ranks: string)
    requires Present(s, op, ranks) && i.formatted && i.pools == [] && !i.listFails && PreconditionHolds(op, ranks, i)
    ensures Decide(s, i, Blank(s)) == RunOp(s, i, Blank(s), op, ranks)
  {
    assert PoolsAllow(op, ranks, []);
    hide ParseRequest, PreconditionHolds, PoolsAllow, RunOp, Answered;
  }

  /** It creates the Job where there is none. */
  lemma CreatesJob(s: State, i: Input, op: string, ranks: string)
    requires Present(s, op, ranks) && i.formatted && i.pools == [] && !i.listFails && PreconditionHolds(op, ranks, i)
    requires i.fault.NoFault? && !i.lost && RANK_JOB !in s.box.jobs
    ensures var (s', rec) := Pass(s, i);
      && rec.created && s'.request == s.request && s'.discard == s.discard
      && s'.box == Box(s.box.jobs[RANK_JOB := Job(s.box.nextId, Args(op, ranks), Running)], s.box.nextId + 1)
  {
    Allowed(s, i, op, ranks);
    hide Decide, ParseRequest, PreconditionHolds, Args;
  }

  /** It reads a finished Job that DAOS performed, whatever that was made for. */
  lemma ReadsJob(s: State, i: Input, op: string, ranks: string)
    requires Present(s, op, ranks) && i.formatted && i.pools == [] && !i.listFails && PreconditionHolds(op, ranks, i)
    requires i.fault.NoFault? && !i.lost && RANK_JOB in s.box.jobs
    requires s.box.jobs[RANK_JOB].phase == Finished(Results(false))
    ensures var (s', rec) := Pass(s, i);
      && rec.answered && rec.cleared == !i.clearFails
      && rec.delivered == Some((s.box.jobs[RANK_JOB].args, Results(false)))
      && (i.clearFails ==> s'.request == s.request && s'.last == s.last)
      && (!i.clearFails ==> s'.last.Some? && s'.last.value.op == op && s'.last.value.ranks == ranks && s'.last.value.ok)
      && s'.box == s.box.(jobs := s.box.jobs[RANK_JOB := s.box.jobs[RANK_JOB].(phase := Deleting)])
  {
    Allowed(s, i, op, ranks);
    hide Decide, ParseRequest, PreconditionHolds, Args, Seconds;
  }

  /** It refuses where a guard fails, and leaves the Jobs alone. */
  lemma Refuses(s: State, i: Input, op: string, ranks: string)
    requires Present(s, op, ranks) && !PreconditionHolds(op, ranks, i) && !i.clearFails && !i.lost
    ensures var (s', rec) := Pass(s, i);
      rec.answered && rec.cleared && rec.delivered.None? && s'.request.None? && s'.box == s.box
  {
    hide ParseRequest, PreconditionHolds, RunOp, Seconds;
  }

  lemma GuardOnRow(row: RankStatus, want: set<int>)
    requires row.rank in want && (row.state == "joined" || row.state == "adminexcluded")
    ensures AdminExcluded([row], want) <==> row.state == "adminexcluded"
    ensures !EngineGone([row], [], want)
  {
    assert "joined"[0] != "adminexcluded"[0];
    assert row in [row];
    JoinedHasEngine();
    AdminHasEngineState("adminexcluded");
    hide WITHOUT_ENGINE;
  }

  lemma GuardOnOne(now: int, state: string, clearFails: bool)
    requires state == "joined" || state == "adminexcluded"
    ensures PreconditionHolds("reintegrate", RankText(1), LookAt(now, state, clearFails)) <==> state == "joined"
  {
    hide RankText, RankSetOf, ParseRequest, AdminExcluded, EngineGone;
    ReadsBack("reintegrate", 1);
    GuardOnRow(RankStatus(1, "n1", state), RankSetOf(RankText(1)));
    assert "joined"[0] != "adminexcluded"[0];
  }

  lemma JoinedHasEngine()
    ensures "joined" !in WITHOUT_ENGINE
  {
    assert "joined"[0] == 'j' && "excluded"[0] == 'e' && "errored"[0] == 'e' && "unknown"[0] == 'u';
    assert "stopped"[0] == 's' && "awaitformat"[0] == 'a';
  }

  lemma DrainIsFree(ranks: string, i: Input)
    ensures PreconditionHolds("drain", ranks, i)
  {
    assert "drain"[0] != "reintegrate"[0];
  }

  const REINTEGRATE := RequestFor("reintegrate", 1)
  const DRAIN := RequestFor("drain", 2)

  const SENT: seq<Step> := [] + [SetRequest(Some(REINTEGRATE)), Look(LookAt(0, "joined", false))]

  lemma AfterSent()
    ensures var w := Run(SENT);
      && w.s.request == Some(REINTEGRATE) && |w.log| == 2
      && w.s.box == Box(map[RANK_JOB := Job(0, Args("reintegrate", RankText(1)), Running)], 1)
  {
    RunMore([], SetRequest(Some(REINTEGRATE)), Look(LookAt(0, "joined", false)));
    ReadsBack("reintegrate", 1);
    GuardOnOne(0, "joined", false);
    hide ParseRequest, RankSetOf, Args, RequestFor, RankText, PreconditionHolds, Pass;
    CreatesJob(Apply(Initial, SetRequest(Some(REINTEGRATE))).s, LookAt(0, "joined", false), "reintegrate", RankText(1));
  }

  const REFUSED: seq<Step> := SENT + [Look(LookAt(1, "adminexcluded", false)), JobFinished(RANK_JOB, Results(false))]

  lemma AfterRefusal()
    ensures var w := Run(REFUSED);
      && w.s.request.None? && |w.log| == 3 && w.log[2].Looked? && w.log[2].rec.answered && w.log[2].rec.delivered.None?
      && w.s.box == Box(map[RANK_JOB := Job(0, Args("reintegrate", RankText(1)), Finished(Results(false)))], 1)
  {
    hide ParseRequest, RankSetOf, Args, RequestFor, RankText, PreconditionHolds, Pass, Run;
    AfterSent();
    RunMore(SENT, Look(LookAt(1, "adminexcluded", false)), JobFinished(RANK_JOB, Results(false)));
    ReadsBack("reintegrate", 1);
    assert "joined"[0] != "adminexcluded"[0];
    GuardOnOne(1, "adminexcluded", false);
    Refuses(Run(SENT).s, LookAt(1, "adminexcluded", false), "reintegrate", RankText(1));
  }

  /** A reintegrate is sent, a guard then refuses the request while its Job runs, and the next request, a drain
      of another rank, is recorded as done with the result of that Job. */
  lemma RefusedJobAnswersNextRequest() returns (steps: seq<Step>)
    ensures var w := Run(steps);
      && |w.log| == 5 && w.log[4].Looked? && w.log[4].rec.request == Some(DRAIN)
      && w.log[4].rec.delivered == Some((Args("reintegrate", RankText(1)), Results(false)))
      && w.s.last.Some? && w.s.last.value.op == "drain" && w.s.last.value.ranks == RankText(2) && w.s.last.value.ok
      && w.s.box.nextId == 1
  {
    hide ParseRequest, RankSetOf, Args, RequestFor, RankText, PreconditionHolds, Pass, Run;
    var look := Look(LookAt(2, "joined", false));
    steps := REFUSED + [SetRequest(Some(DRAIN)), look];
    AfterRefusal();
    RunMore(REFUSED, SetRequest(Some(DRAIN)), look);
    ReadsBack("drain", 2);
    DrainIsFree(RankText(2), look.i);
    var w := Apply(Run(REFUSED), SetRequest(Some(DRAIN)));
    ReadsJob(w.s, look.i, "drain", RankText(2));
    LookRecord(w.s, look.i);
  }

  const UNCLEARED: seq<Step> := SENT + [JobFinished(RANK_JOB, Results(false)), Look(LookAt(1, "joined", true))]

  lemma AfterFailedClear()
    ensures var w := Run(UNCLEARED);
      && w.s.request == Some(REINTEGRATE) && |w.log| == 3 && w.log[2].Looked? && w.log[2].rec.answered
      && !w.log[2].rec.cleared
      && w.s.box == Box(map[RANK_JOB := Job(0, Args("reintegrate", RankText(1)), Deleting)], 1)
  {
    hide ParseRequest, RankSetOf, Args, RequestFor, RankText, PreconditionHolds, Pass, Run;
    AfterSent();
    RunMore(SENT, JobFinished(RANK_JOB, Results(false)), Look(LookAt(1, "joined", true)));
    ReadsBack("reintegrate", 1);
    GuardOnOne(1, "joined", true);
    ReadsJob(Apply(Run(SENT), JobFinished(RANK_JOB, Results(false))).s, LookAt(1, "joined", true), "reintegrate",
             RankText(1));
  }

  /** A patch that fails after the result was read makes the operator send the same operation again. */
  lemma FailedClearRunsAgain() returns (steps: seq<Step>)
    ensures var w := Run(steps);
      && |w.log| == 4 && w.log[2].Looked? && w.log[2].rec.answered && w.log[3].Looked? && w.log[3].rec.created
      && RANK_JOB in w.s.box.jobs && w.s.box.jobs[RANK_JOB] == Job(1, Args("reintegrate", RankText(1)), Running)
  {
    hide ParseRequest, RankSetOf, Args, RequestFor, RankText, PreconditionHolds, Pass, Run;
    var look := Look(LookAt(2, "joined", false));
    steps := UNCLEARED + [JobGone(RANK_JOB), look];
    AfterFailedClear();
    RunMore(UNCLEARED, JobGone(RANK_JOB), look);
    ReadsBack("reintegrate", 1);
    GuardOnOne(2, "joined", false);
    CreatesJob(Apply(Run(UNCLEARED), JobGone(RANK_JOB)).s, look.i, "reintegrate", RankText(1));
  }
}
