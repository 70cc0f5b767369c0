/** Conservation of the Job mailbox over every run of calls, finishing Jobs and removals. */
module MailboxRuns {
  import opened Mailbox

  /** A call by the operator, a Job finishing with some answer, or the API server dropping a deleted
      Job. */
  datatype Step<R> =
    | Call(name: string, args: seq<string>, fault: Fault)
    | Finish(name: string, answer: R)
    | Gone(name: string)

  datatype Event<R> =
    | Created(name: string, id: nat, args: seq<string>)
    | Completed(name: string, id: nat, answer: R)
    | Delivered(name: string, id: nat, callArgs: seq<string>, jobArgs: seq<string>, answer: R)

  datatype World<R> = World(box: Box<R>, log: seq<Event<R>>)

  function StepBox<R>(b: Box<R>, step: Step<R>): (r: (Box<R>, seq<Event<R>>)) {
    match step
    case Call(name, args, fault) =>
      var (b', r) := RunJob(b, name, args, fault);
      if r.Done? then (b', [Delivered(name, r.id, args, r.args, r.answer)])
      else if b'.nextId > b.nextId then (b', [Created(name, b.nextId, args)])
      else (b', [])
    case Finish(name, answer) =>
      (FinishJob(b, name, answer),
       if name in b.jobs && b.jobs[name].phase.Running? then [Completed(name, b.jobs[name].id, answer)] else [])
    case Gone(name) => (DropJob(b, name), [])
  }

  function Apply<R>(w: World<R>, step: Step<R>): World<R> {
    var (b, events) := StepBox(w.box, step);
    World(b, w.log + events)
  }

  function Run<R>(steps: seq<Step<R>>): World<R> {
    if steps == [] then World(Box(map[], 0), [])
    else Apply(Run(steps[..|steps| - 1]), steps[|steps| - 1])
  }

  function CountCreated<R>(log: seq<Event<R>>, name: string): nat {
    if log == [] then 0
    else CountCreated(log[..|log| - 1], name) + if log[|log| - 1].Created? && log[|log| - 1].name == name then 1 else 0
  }

  function CountDelivered<R>(log: seq<Event<R>>, name: string): nat {
    if log == [] then 0
    else CountDelivered(log[..|log| - 1], name) + if log[|log| - 1].Delivered? && log[|log| - 1].name == name then 1
        else 0
  }

  /** Created at i is the one creation of Job id. */
  ghost predicate CreatedOnceAt<R>(log: seq<Event<R>>, i: nat, name: string, id: nat, args: seq<string>) {
    && i < |log| && log[i] == Created(name, id, args)
    && forall k :: 0 <= k < |log| && log[k].Created? && log[k].id == id ==> k == i
  }

  ghost predicate HasCreation<R>(log: seq<Event<R>>, limit: nat, name: string, id: nat, args: seq<string>) {
    exists i: nat :: i < limit && CreatedOnceAt(log, i, name, id, args)
  }

  ghost predicate HasCompletion<R>(log: seq<Event<R>>, limit: nat, name: string, id: nat, answer: R) {
    exists i: nat :: i < limit && i < |log| && log[i] == Completed(name, id, answer)
  }

  /** Every delivery answers one earlier creation, with that Job's arguments and answer, and no other
      delivery does. */
  ghost predicate Accounted<R>(log: seq<Event<R>>) {
    forall d :: 0 <= d < |log| && log[d].Delivered? ==>
      && HasCreation(log, d, log[d].name, log[d].id, log[d].jobArgs)
      && HasCompletion(log, d, log[d].name, log[d].id, log[d].answer)
      && forall e :: 0 <= e < |log| && log[e].Delivered? && log[e].id == log[d].id ==> e == d
  }

  ghost predicate Undelivered<R>(log: seq<Event<R>>, id: nat) {
    forall e :: 0 <= e < |log| && log[e].Delivered? ==> log[e].id != id
  }

  ghost predicate JobAccounted<R>(log: seq<Event<R>>, name: string, job: Job<R>) {
    && HasCreation(log, |log|, name, job.id, job.args)
    && (job.phase.Finished? ==> HasCompletion(log, |log|, name, job.id, job.phase.answer))
    && (!job.phase.Deleting? ==> Undelivered(log, job.id))
  }

  ghost predicate JobsAccounted<R>(w: World<R>) {
    && (forall name :: name in w.box.jobs ==>
          w.box.jobs[name].id < w.box.nextId && JobAccounted(w.log, name, w.box.jobs[name]))
    && (forall m, n :: m in w.box.jobs && n in w.box.jobs && w.box.jobs[m].id == w.box.jobs[n].id ==> m == n)
    && (forall e :: 0 <= e < |w.log| ==> w.log[e].id < w.box.nextId)
  }

  ghost predicate Inv<R>(w: World<R>) { Accounted(w.log) && JobsAccounted(w) }

  lemma ExtendCreation<R>(log: seq<Event<R>>, e: Event<R>, limit: nat, name: string, id: nat, args: seq<string>)
    requires limit <= |log| && HasCreation(log, limit, name, id, args)
    requires e.Created? ==> e.id != id
    ensures HasCreation(log + [e], limit, name, id, args)
    ensures HasCreation(log + [e], |log| + 1, name, id, args)
  {
    var i: nat :| i < limit && CreatedOnceAt(log, i, name, id, args);
    assert CreatedOnceAt(log + [e], i, name, id, args);
  }

  lemma ExtendCompletion<R>(log: seq<Event<R>>, e: Event<R>, limit: nat, name: string, id: nat, answer: R)
    requires limit <= |log| && HasCompletion(log, limit, name, id, answer)
    ensures HasCompletion(log + [e], limit, name, id, answer)
    ensures HasCompletion(log + [e], |log| + 1, name, id, answer)
  {
    var i: nat :| i < limit && i < |log| && log[i] == Completed(name, id, answer);
    assert (log + [e])[i] == Completed(name, id, answer);
  }

  lemma ExtendJob<R>(log: seq<Event<R>>, e: Event<R>, name: string, job: Job<R>)
    requires JobAccounted(log, name, job) && ((e.Created? || e.Delivered?) ==> e.id != job.id)
    ensures JobAccounted(log + [e], name, job)
  {
    ExtendCreation(log, e, |log|, name, job.id, job.args);
    if job.phase.Finished? { ExtendCompletion(log, e, |log|, name, job.id, job.phase.answer); }
  }

  /** One more event keeps the deliveries accounted for, when a delivery is of an open Job's own
      result. */
  lemma ExtendAccounted<R>(log: seq<Event<R>>, e: Event<R>)
    requires Accounted(log)
    requires e.Created? ==> forall k :: 0 <= k < |log| ==> log[k].id != e.id
    requires e.Delivered? ==> JobAccounted(log, e.name, Job(e.id, e.jobArgs, Finished(e.answer)))
    ensures Accounted(log + [e])
  {
    forall d | 0 <= d < |log| && log[d].Delivered?
      ensures HasCreation(log + [e], d, log[d].name, log[d].id, log[d].jobArgs)
      ensures HasCompletion(log + [e], d, log[d].name, log[d].id, log[d].answer)
    {
      ExtendCreation(log, e, d, log[d].name, log[d].id, log[d].jobArgs);
      ExtendCompletion(log, e, d, log[d].name, log[d].id, log[d].answer);
    }
    if e.Delivered? {
      ExtendCreation(log, e, |log|, e.name, e.id, e.jobArgs);
      ExtendCompletion(log, e, |log|, e.name, e.id, e.answer);
    }
  }

  lemma CreateKeepsInv<R>(w: World<R>, name: string, args: seq<string>)
    requires Inv(w) && name !in w.box.jobs
    ensures Inv(World(Box(w.box.jobs[name := Job(w.box.nextId, args, Running)], w.box.nextId + 1),
                      w.log + [Created(name, w.box.nextId, args)]))
  {
    var e := Event<R>.Created(name, w.box.nextId, args);
    ExtendAccounted(w.log, e);
    forall n | n in w.box.jobs ensures JobAccounted(w.log + [e], n, w.box.jobs[n]) {
      ExtendJob(w.log, e, n, w.box.jobs[n]);
    }
    assert CreatedOnceAt(w.log + [e], |w.log|, name, w.box.nextId, args);
  }

  lemma DeliverKeepsInv<R>(w: World<R>, name: string, callArgs: seq<string>)
    requires Inv(w) && name in w.box.jobs && w.box.jobs[name].phase.Finished?
    ensures var job := w.box.jobs[name];
      Inv(World(w.box.(jobs := w.box.jobs[name := job.(phase := Deleting)]),
                w.log + [Delivered(name, job.id, callArgs, job.args, job.phase.answer)]))
  {
    var job := w.box.jobs[name];
    var e := Event.Delivered(name, job.id, callArgs, job.args, job.phase.answer);
    assert JobAccounted(w.log, name, job);
    ExtendAccounted(w.log, e);
    forall n | n in w.box.jobs && n != name ensures JobAccounted(w.log + [e], n, w.box.jobs[n]) {
      ExtendJob(w.log, e, n, w.box.jobs[n]);
    }
    ExtendCreation(w.log, e, |w.log|, name, job.id, job.args);
    assert JobAccounted(w.log + [e], name, job.(phase := Deleting));
  }

  lemma CompleteKeepsInv<R>(w: World<R>, name: string, answer: R)
    requires Inv(w) && name in w.box.jobs && w.box.jobs[name].phase.Running?
    ensures var job := w.box.jobs[name];
      Inv(World(w.box.(jobs := w.box.jobs[name := job.(phase := Finished(answer))]),
                w.log + [Completed(name, job.id, answer)]))
  {
    var job := w.box.jobs[name];
    var e := Event.Completed(name, job.id, answer);
    ExtendAccounted(w.log, e);
    forall n | n in w.box.jobs ensures JobAccounted(w.log + [e], n, w.box.jobs[n]) {
      ExtendJob(w.log, e, n, w.box.jobs[n]);
    }
    assert (w.log + [e])[|w.log|] == e;
    assert JobAccounted(w.log + [e], name, job.(phase := Finished(answer)));
  }

  lemma StepKeepsInv<R>(w: World<R>, step: Step<R>)
    requires Inv(w)
    ensures Inv(Apply(w, step))
  {
    match step
    case Call(name, args, fault) =>
      var (b, r) := RunJob(w.box, name, args, fault);
      if r.Done? {
        DeliverKeepsInv(w, name, args);
      } else if b.nextId > w.box.nextId {
        CreateKeepsInv(w, name, args);
      } else {
        assert Apply(w, step) == w;
      }
    case Finish(name, answer) =>
      if name in w.box.jobs && w.box.jobs[name].phase.Running? {
        CompleteKeepsInv(w, name, answer);
      } else {
        assert Apply(w, step) == w;
      }
    case Gone(name) =>
      assert Apply(w, step).log == w.log;
  }

  lemma {:induction false} RunInv<R>(steps: seq<Step<R>>)
    ensures Inv(Run(steps))
  {
    if steps != [] {
      RunInv(steps[..|steps| - 1]);
      StepKeepsInv(Run(steps[..|steps| - 1]), steps[|steps| - 1]);
    }
  }

  /** Over every run: a delivered result belongs to exactly one earlier creation under that name,
      carries that Job's arguments and answer, and is delivered once. */
  lemma DeliveriesAnswerCreations<R>(steps: seq<Step<R>>)
    ensures Accounted(Run(steps).log)
  {
    RunInv(steps);
  }

  function CreatedIn<R>(events: seq<Event<R>>, name: string): nat {
    if |events| == 1 && events[0].Created? && events[0].name == name then 1 else 0
  }

  function DeliveredIn<R>(events: seq<Event<R>>, name: string): nat {
    if |events| == 1 && events[0].Delivered? && events[0].name == name then 1 else 0
  }

  lemma CountAppend<R>(log: seq<Event<R>>, events: seq<Event<R>>, name: string)
    requires |events| <= 1
    ensures CountCreated(log + events, name) == CountCreated(log, name) + CreatedIn(events, name)
    ensures CountDelivered(log + events, name) == CountDelivered(log, name) + DeliveredIn(events, name)
  {
    if |events| == 1 { assert (log + events)[..|log|] == log; } else { assert log + events == log; }
  }

  /** One step of the mailbox opens a name exactly when it creates under it and closes it exactly when
      it delivers. */
  lemma StepBalance<R>(b: Box<R>, step: Step<R>, name: string)
    ensures var (b', events) := StepBox(b, step);
      && |events| <= 1
      && (if b.Open(name) then 1 else 0) + CreatedIn(events, name) ==
      (if b'.Open(name) then 1 else 0) + DeliveredIn(events, name)
  {}

  /** Conservation: per name, creations minus deliveries is 1 while a Job is open and 0 otherwise. */
  lemma {:induction false} Conservation<R>(steps: seq<Step<R>>, name: string)
    ensures var w := Run(steps);
      CountCreated(w.log, name) == CountDelivered(w.log, name) + if w.box.Open(name) then 1 else 0
  {
    if steps != [] {
      var w := Run(steps[..|steps| - 1]);
      var step := steps[|steps| - 1];
      Conservation(steps[..|steps| - 1], name);
      StepBalance(w.box, step, name);
      CountAppend(w.log, StepBox(w.box, step).1, name);
    }
  }

  /** The result a call receives is for that call's arguments exactly when the call that created the
      Job had the same arguments; so a request left unedited from creation to delivery gets its own
      result. */
  lemma DeliveredForTheseArguments<R>(steps: seq<Step<R>>, c: nat, d: nat)
    requires var log := Run(steps).log; c < d < |log| && log[c].Created? && log[d].Delivered? && log[c].id == log[d].id
    ensures var log := Run(steps).log;
      && log[c].name == log[d].name
      && (log[d].jobArgs == log[d].callArgs <==> log[c].args == log[d].callArgs)
  {
    RunInv(steps);
    var log := Run(steps).log;
    var i: nat :| i < d && CreatedOnceAt(log, i, log[d].name, log[d].id, log[d].jobArgs);
    assert i == c;
  }

  /** One call, by what it comes back with. A finished Job is delivered, and goes, if it can be found, read and
      deleted. A new one is made where there is none and it can be. Any other call leaves the mailbox alone; it is an
      error exactly if a call to the API failed on the way, and pending otherwise. */
  lemma CallExactly<R>(b: Box<R>, name: string, args: seq<string>, fault: Fault)
    ensures var (b', out) := RunJob(b, name, args, fault);
      var finished := name in b.jobs && b.jobs[name].phase.Finished?;
      var delivers := finished && (fault == NoFault || fault == CreateFails);
      var creates := name !in b.jobs && fault != GetFails && fault != CreateFails;
      && (delivers ==>
            && out == Done(b.jobs[name].id, b.jobs[name].args, b.jobs[name].phase.answer)
            && b' == Box(b.jobs[name := Job(b.jobs[name].id, b.jobs[name].args, Deleting)], b.nextId))
      && (creates ==> out == Pending && b' == Box(b.jobs[name := Job(b.nextId, args, Running)], b.nextId + 1))
      && (!delivers && !creates ==>
            && b' == b
            && out == if fault == GetFails || (name !in b.jobs && fault == CreateFails)
                         || (finished && (fault == ReadFails || fault == DeleteFails)) then ApiError
                      else Pending)
  {}

  /** The name is reused: a request that changes while its Job is in flight is handed the result of
      the arguments it had before. */
  lemma EditedRequestGetsTheOldResult<R>(name: string, before: seq<string>, after: seq<string>, answer: R)
    requires before != after
    ensures var w := Run([Call(name, before, NoFault), Finish(name, answer), Call(name, after, NoFault)]);
      w.log == [Created(name, 0, before), Completed(name, 0, answer), Delivered(name, 0, after, before, answer)]
  {
    var s1 := [Step.Call(name, before, NoFault)];
    var s2 := s1 + [Finish(name, answer)];
    var s3 := s2 + [Call(name, after, NoFault)];
    assert s3 == [Call(name, before, NoFault), Finish(name, answer), Call(name, after, NoFault)];
    assert s1[..0] == [] && s2[..1] == s1 && s3[..2] == s2;
    assert Run(s1).log == [Created(name, 0, before)];
    assert Run(s2).log == [Created(name, 0, before), Completed(name, 0, answer)];
  }
}
