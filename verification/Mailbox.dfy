/** The Job mailbox every controller talks to DAOS through (internal/dmg/dmg.go, `JobRunner.Run`):
    one named Job per purpose, created when absent, polled while it runs, read once and deleted.
    Job names of different purposes are taken to be distinct. */
module Mailbox {

  datatype Phase<R> = Running | Finished(answer: R) | Deleting

  /** id numbers the Jobs in creation order, whatever their names. */
  datatype Job<R> = Job(id: nat, args: seq<string>, phase: Phase<R>)

  datatype Box<R> = Box(jobs: map<string, Job<R>>, nextId: nat) {
    /** The name holds a Job whose result was not delivered yet. */
    predicate Open(name: string) { name in jobs && !jobs[name].phase.Deleting? }
    predicate Free(name: string) { name !in jobs }
  }

  /** What the Kubernetes API does to one call. StaleMiss is a read that does not see an existing
      Job, which the create then runs into. */
  datatype Fault = NoFault | GetFails | StaleMiss | CreateFails | ReadFails | DeleteFails

  datatype Outcome<R> = ApiError | Pending | Done(id: nat, args: seq<string>, answer: R)

  /** One call of `Run`, as a function of the mailbox. */
  function RunJob<R>(b: Box<R>, name: string, args: seq<string>, fault: Fault): (r: (Box<R>, Outcome<R>)) {
    if fault.GetFails? then (b, ApiError)
    else if fault.StaleMiss? || b.Free(name) then
      if fault.CreateFails? then (b, ApiError)
      else if name in b.jobs then (b, Pending)
      else (Box(b.jobs[name := Job(b.nextId, args, Running)], b.nextId + 1), Pending)
    else
      match b.jobs[name].phase
      case Deleting => (b, Pending)
      case Running => (b, Pending)
      case Finished(answer) =>
        if fault.ReadFails? || fault.DeleteFails? then (b, ApiError)
        else (b.(jobs := b.jobs[name := b.jobs[name].(phase := Deleting)]),
              Done(b.jobs[name].id, b.jobs[name].args, answer))
  }

  /** A running Job finishes with some answer. */
  function FinishJob<R>(b: Box<R>, name: string, answer: R): Box<R> {
    if name in b.jobs && b.jobs[name].phase.Running? then
      b.(jobs := b.jobs[name := b.jobs[name].(phase := Finished(answer))])
    else b
  }

  /** The API server drops a deleted Job. */
  function DropJob<R>(b: Box<R>, name: string): Box<R> {
    if name in b.jobs && b.jobs[name].phase.Deleting? then b.(jobs := b.jobs - {name}) else b
  }

  class JobRunner<R> {
    var jobs: map<string, Job<R>>
    var nextId: nat

    ghost function View(): Box<R>
      reads this
    {
      Box(jobs, nextId)
    }

    constructor ()
      ensures View() == Box(map[], 0)
    {
      jobs, nextId := map[], 0;
    }

    /** `JobRunner.Run`: an absent Job is created, an unfinished one is Pending, a finished one is read,
        deleted and returned. */
    method Run(name: string, args: seq<string>, fault: Fault) returns (r: Outcome<R>)
      modifies this
      ensures (View(), r) == RunJob(old(View()), name, args, fault)
    {
      if fault.GetFails? { return ApiError; }
      if fault.StaleMiss? || name !in jobs {
        r := Create(name, args, fault);
        return;
      }
      var job := jobs[name];
      if job.phase.Deleting? { return Pending; }
      if job.phase.Running? { return Pending; }
      if fault.ReadFails? || fault.DeleteFails? { return ApiError; }
      jobs := jobs[name := job.(phase := Deleting)];
      r := Done(job.id, job.args, job.phase.answer);
    }

    /** `create`: an AlreadyExists answer is not an error. */
    method Create(name: string, args: seq<string>, fault: Fault) returns (r: Outcome<R>)
      modifies this
      ensures fault.CreateFails? ==> r == ApiError && View() == old(View())
      ensures !fault.CreateFails? ==> r == Pending
      ensures !fault.CreateFails? && name in old(jobs) ==> View() == old(View())
      ensures !fault.CreateFails? && name !in old(jobs) ==>
        View() == Box(old(jobs)[name := Job(old(nextId), args, Running)], old(nextId) + 1)
    {
      if fault.CreateFails? { return ApiError; }
      if name !in jobs {
        jobs := jobs[name := Job(nextId, args, Running)];
        nextId := nextId + 1;
      }
      r := Pending;
    }
  }
}
