/** Runs of the job broker, each from process start, that exhibit the outcomes `RunJob`
    promises: success, a job's own error passed through, capacity exhaustion, the single
    deadline timing out a job that did complete, and reuse of a pooled job. */
module BrokerRuns {
  import opened Wrappers
  import opened ApiErrors
  import opened JobBroker

  /** One job submitted to an idle broker, taken by worker 0 and finished within the deadline:
      the caller gets the value the work produced. */
  method Completes(x: int, finishAt: nat) returns (outcome: Option<Result<int, APIError>>)
    requires finishAt < JobTimeout
    ensures outcome == Some(Ok(x))
  {
    var b := new Broker<int>();
    var call := b.Submit(() => Produced(x));
    b.Take(0);
    b.Tick(finishAt);
    b.Finish(0);
    b.Await(call);
    outcome := call.outcome;
  }

  /** A job whose work returns an `*APIError`: the caller gets exactly that error. */
  method PassesThrough(e: APIError) returns (outcome: Option<Result<int, APIError>>)
    ensures outcome == Some(Err(e))
  {
    var b := new Broker<int>();
    var call := b.Submit(() => Failed(e));
    b.WorkerStep(0);
    b.Await(call);
    outcome := call.outcome;
  }

  /** A job admitted at once but finished at `finishAt`, at or after the deadline of its
      submission: the caller gets the time-out error although the work completed and its value
      sits in the channel. */
  method DeadlineSpansBothWaits(startAt: nat, finishAt: int) returns (outcome: Option<Result<int, APIError>>)
    requires startAt <= finishAt && JobTimeout <= finishAt
    ensures outcome == Some(Err(TimeoutError))
  {
    var b := new Broker<int>();
    var call := b.Submit(() => Produced(1));
    b.Tick(startAt);
    b.Take(0);
    b.Tick(finishAt);
    b.Finish(0);
    b.Await(call);
    outcome := call.outcome;
  }

  /** Every worker is busy and the queue is full: the next caller blocks, its timer fires at the
      deadline, it gets the capacity error and its job goes back to the pool unrun. */
  method Overloaded() returns (outcome: Option<Result<int, APIError>>, released: bool)
    ensures outcome == Some(Err(CapacityError)) && released
  {
    var b := new Broker<int>();
    var work: Work<int> := () => Produced(0);
    OccupyWorkers(b, work);
    FillQueue(b, work);
    var call := b.Submit(work);
    assert b.blocked == [call];
    b.Tick(JobTimeout);
    b.Expire();
    outcome := call.outcome;
    released := call.job in b.pool && call.job.run.None? && call.job !in b.queue;
  }

  /** One submission per worker, each taken at once: every worker is busy and the queue is
      empty. */
  method OccupyWorkers(b: Broker<int>, work: Work<int>)
    requires b.Valid() && b.clock == 0 && b.queue == [] && b.blocked == [] && b.pool == []
    requires |b.busy| == WorkerCount && forall v :: 0 <= v < WorkerCount ==> b.busy[v].None?
    modifies b, b.Repr
    ensures b.Valid() && fresh(b.Repr - old(b.Repr)) && b.clock == 0
    ensures b.queue == [] && b.blocked == [] && b.pool == [] && |b.busy| == WorkerCount
  {
    for w := 0 to WorkerCount
      invariant b.Valid() && fresh(b.Repr - old(b.Repr)) && b.clock == 0
      invariant b.queue == [] && b.blocked == [] && b.pool == []
      invariant |b.busy| == WorkerCount && forall v :: w <= v < WorkerCount ==> b.busy[v].None?
    {
      var c := b.Submit(work);
      b.Take(w);
    }
  }

  /** `WorkerCount` more submissions with no worker free: the queue is full. */
  method FillQueue(b: Broker<int>, work: Work<int>)
    requires b.Valid() && b.clock == 0 && b.queue == [] && b.blocked == [] && b.pool == []
    modifies b
    ensures b.Valid() && fresh(b.Repr - old(b.Repr)) && b.clock == 0
    ensures |b.queue| == WorkerCount && b.blocked == [] && b.pool == []
  {
    for i := 0 to WorkerCount
      invariant b.Valid() && fresh(b.Repr - old(b.Repr)) && b.clock == 0
      invariant |b.queue| == i && b.blocked == [] && b.pool == []
    {
      var c := b.Submit(work);
    }
  }

  /** A job back in the pool is handed to the next submission with a new channel: the earlier
      caller's result stays in its own channel and the new caller gets its own value. */
  method Reuse() returns (first: Option<Result<int, APIError>>, second: Option<Result<int, APIError>>, reused: bool)
    ensures first == Some(Ok(1)) && second == Some(Ok(2)) && reused
  {
    var b := new Broker<int>();
    var call1 := Serve(b, 1);
    first := call1.outcome;
    var call2 := Serve(b, 2);
    second := call2.outcome;
    reused := call2.job == call1.job && call2.channel != call1.channel;
  }

  /** One request served start to finish by worker 0 on a broker with nothing else to do. */
  method Serve(b: Broker<int>, x: int) returns (call: Call<int>)
    requires b.Valid() && b.queue == [] && b.blocked == [] && |b.busy| == WorkerCount && b.busy[0].None?
    modifies b, b.Repr
    ensures b.Valid() && b.queue == [] && b.blocked == [] && |b.busy| == WorkerCount && b.busy[0].None?
    ensures fresh(b.Repr - old(b.Repr)) && fresh(call.channel) && call.outcome == Some(Ok(x))
    ensures old(b.pool) != [] ==> call.job == old(b.pool)[|old(b.pool)| - 1]
    ensures b.pool != [] && b.pool[|b.pool| - 1] == call.job
  {
    call := b.Submit(() => Produced(x));
    b.WorkerStep(0);
    b.Await(call);
  }
}
