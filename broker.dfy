/** The job broker of database/job.go and database/worker.go, as a sequential state machine.

    `RunJob`'s two `select`s are the pure function `RunJob` below: its outcome depends only on
    when, if ever, the job was admitted to the queue and when, if ever, its result channel
    became ready, each compared with the single deadline `submittedAt + 10`.

    The class `Broker` holds the shared state that goroutines change in place: the buffered
    job queue, the 64 workers, the callers still blocked on sending into the queue, the free
    list standing for the job pool, and an explicit clock. Every step a goroutine takes is a
    method: `Submit` (the set-up of `RunJob` and its first attempt to enqueue), `Take` and
    `Finish` (the two halves of one iteration of a worker's loop), `Tick` (time passes),
    `Expire` (the admission timer of a blocked caller fires) and `Await` (the caller's second
    `select`). */
module JobBroker {
  import opened Wrappers
  import opened ApiErrors

  /** `workerCount`: the number of workers and the capacity of the job queue. */
  const WorkerCount: nat := 64

  /** The one deadline of a submission, in seconds after it. */
  const JobTimeout: int := 10

  /** What a job's `Run` returns: an `*APIError`, or any other value. */
  datatype Value<T> = Failed(err: APIError) | Produced(value: T)

  type Work<T> = () -> Value<T>

  /** What the caller's second `select` finds on the result channel: nothing yet, a value that
      became available at `at`, or a channel closed at `at` with no value in it. */
  datatype Arrival<T> = Pending | Delivered(at: int, v: Value<T>) | ClosedEmpty(at: int)

  const CapacityError: APIError := New(NoCapacity, "database workers at capacity", None)
  const ClosedEarlyError: APIError := New(UnexpectedValue, "job result channel closed early", None)
  const TimeoutError: APIError := New(TimedOut, "database job timed out after 30 seconds", None)

  function Deadline(submittedAt: int): int {
    submittedAt + JobTimeout
  }

  /** The send into the queue completed before the timer fired. At the deadline itself the
      timer is taken to win. */
  predicate AdmittedInTime(submittedAt: int, admission: Option<int>) {
    admission.Some? && admission.value < Deadline(submittedAt)
  }

  predicate ArrivedInTime<T>(submittedAt: int, arrival: Arrival<T>) {
    !arrival.Pending? && arrival.at < Deadline(submittedAt)
  }

  /** The outcome of `RunJob`, under the one deadline fixed at submission. */
  function RunJob<T>(submittedAt: int, admission: Option<int>, arrival: Arrival<T>): (r: Result<T, APIError>)
    ensures !AdmittedInTime(submittedAt, admission) ==> r == Err(CapacityError)
    ensures AdmittedInTime(submittedAt, admission) && !ArrivedInTime(submittedAt, arrival) ==> r == Err(TimeoutError)
    ensures AdmittedInTime(submittedAt, admission) && ArrivedInTime(submittedAt, arrival) && arrival.ClosedEmpty?
            ==> r == Err(ClosedEarlyError)
    ensures (AdmittedInTime(submittedAt, admission) && ArrivedInTime(submittedAt, arrival)
             && arrival.Delivered? && arrival.v.Failed?) ==> r == Err(arrival.v.err)
    ensures r.Ok? <==> AdmittedInTime(submittedAt, admission) && ArrivedInTime(submittedAt, arrival)
                       && arrival.Delivered? && arrival.v.Produced?
    ensures r.Ok? ==> r.value == arrival.v.value
  {
    var deadline := Deadline(submittedAt);
    if admission.None? || admission.value >= deadline then Err(CapacityError)
    else match arrival
      case Pending => Err(TimeoutError)
      case ClosedEmpty(at) => if at < deadline then Err(ClosedEarlyError) else Err(TimeoutError)
      case Delivered(at, v) =>
        if at >= deadline then Err(TimeoutError)
        else match v
          case Failed(e) => Err(e)
          case Produced(x) => Ok(x)
  }

  /** Deadline composition: the wait for the result is not restarted on admission. A job
      admitted at `admittedAt` whose result is ready `runTime` later is timed out as soon as
      `admittedAt + runTime` reaches the deadline, although `runTime` alone is under the limit. */
  lemma DeadlineCoversBothPhases<T>(submittedAt: int, admittedAt: int, runTime: nat, v: Value<T>)
    requires submittedAt <= admittedAt < Deadline(submittedAt)
    requires admittedAt + runTime >= Deadline(submittedAt)
    ensures RunJob(submittedAt, Some(admittedAt), Delivered(admittedAt + runTime, v)) == Err(TimeoutError)
  {
  }

  /** The broker's own errors are exactly capacity, time-out and closed-early; any other error
      is the job's own `*APIError`, passed through unchanged. */
  lemma BrokerErrors<T>(submittedAt: int, admission: Option<int>, arrival: Arrival<T>)
    ensures var r := RunJob(submittedAt, admission, arrival);
      r.Err? ==> r.error in {CapacityError, TimeoutError, ClosedEarlyError}
                 || (arrival.Delivered? && arrival.v == Failed(r.error))
  {
  }

  /** Where a job is: with the caller that set it up, in the queue, on a worker, with a
      caller blocked on sending it, or back in the pool. */
  datatype Place = Held | Queued | Running | Waiting | Pooled

  /** A Go channel of capacity 1 carrying a job's result. `readyAt` is the clock reading at
      which a receiver would first be woken (the first send or the close); `sent` counts the
      values ever sent on it; `owner` is the job it was made for. */
  class Channel<T> {
    var buffer: seq<Value<T>>
    var closed: bool
    var readyAt: Option<int>
    ghost var sent: nat
    ghost const owner: Job<T>

    /** At most one value is ever delivered, and the buffer never holds more than was sent. */
    ghost predicate Valid()
      reads this
    {
      |buffer| <= sent <= 1 && (readyAt.None? <==> (sent == 0 && !closed))
    }

    /** `make(chan interface{}, 1)`. */
    constructor (ghost owner: Job<T>)
      ensures Valid() && buffer == [] && !closed && readyAt == None && sent == 0 && this.owner == owner
    {
      buffer, closed, readyAt := [], false, None;
      sent := 0;
      this.owner := owner;
    }

    /** A send that does not block: the channel is open and nothing was sent on it before. */
    method Send(v: Value<T>, now: int)
      requires Valid() && !closed && sent == 0
      modifies this
      ensures Valid() && buffer == [v] && !closed && readyAt == Some(now) && sent == 1
    {
      buffer, readyAt := [v], Some(now);
      sent := 1;
    }

    method Close(now: int)
      requires Valid() && !closed
      modifies this
      ensures Valid() && closed && buffer == old(buffer) && sent == old(sent)
      ensures readyAt == if old(readyAt).Some? then old(readyAt) else Some(now)
    {
      closed := true;
      if readyAt.None? {
        readyAt := Some(now);
      }
    }

    /** A receive that does not block: the buffered value if there is one, else nothing (the
        channel is closed). An empty channel is left as it was. */
    method Receive() returns (v: Option<Value<T>>)
      requires Valid() && (closed || buffer != [])
      modifies this
      ensures Valid() && closed == old(closed) && readyAt == old(readyAt) && sent == old(sent)
      ensures old(buffer) != [] ==> v == Some(old(buffer)[0]) && buffer == old(buffer)[1..]
      ensures old(buffer) == [] ==> v == None && buffer == []
    {
      if buffer != [] {
        v := Some(buffer[0]);
        buffer := buffer[1..];
      } else {
        v := None;
      }
    }
  }

  /** What the caller's second `select` would find on `ch` now. */
  function ArrivalOf<T>(ch: Channel<T>): Arrival<T>
    reads ch
  {
    if ch.readyAt.None? then Pending
    else if ch.buffer != [] then Delivered(ch.readyAt.value, ch.buffer[0])
    else if ch.closed then ClosedEmpty(ch.readyAt.value)
    else Pending
  }

  /** What the caller makes of a receive from its result channel: the job's value, or the
      closed-early error when the channel was closed empty. */
  function Received<T>(v: Option<Value<T>>): Result<T, APIError> {
    match v
    case None => Err(ClosedEarlyError)
    case Some(Failed(e)) => Err(e)
    case Some(Produced(x)) => Ok(x)
  }

  /** A pooled job: the work to run and the channel its result goes to. */
  class Job<T> {
    var run: Option<Work<T>>
    var result: Channel?<T>
    ghost var place: Place

    /** `&Job{}`, what the pool makes when it has nothing to hand out. */
    constructor ()
      ensures run == None && result == null && place == Pooled
    {
      run, result := None, null;
      place := Pooled;
    }
  }

  /** A job set up by `RunJob` and not yet run: its work is present and its own channel is
      open, empty and has never carried a value. */
  ghost predicate Armed<T>(j: Job<T>, p: Place)
    reads j, j.result
  {
    j.place == p && j.run.Some? && j.result != null && j.result.owner == j && j.result.Valid()
    && j.result.buffer == [] && !j.result.closed && j.result.readyAt.None? && j.result.sent == 0
  }

  /** One call of `RunJob`: its job, the result channel it made, the time of submission (the
      deadline is fixed from it), when the job was admitted, and what the call returns. */
  class Call<T> {
    const job: Job<T>
    const channel: Channel<T>
    const submittedAt: int
    var admittedAt: Option<int>
    var outcome: Option<Result<T, APIError>>

    constructor (job: Job<T>, channel: Channel<T>, submittedAt: int)
      ensures this.job == job && this.channel == channel && this.submittedAt == submittedAt
      ensures admittedAt == None && outcome == None
    {
      this.job, this.channel, this.submittedAt := job, channel, submittedAt;
      admittedAt, outcome := None, None;
    }
  }

  /** A caller that gave up waiting to send: it returns the capacity error, its job was never
      admitted and went back to the pool without running, and its channel is closed and empty. */
  ghost predicate TurnedAway<T>(call: Call<T>)
    reads call, call.job, call.channel
  {
    && call.outcome == Some(Err(CapacityError)) && call.admittedAt == None
    && call.job.run == None && call.channel.closed && call.channel.buffer == []
  }

  class Broker<T> {
    /** `jobQueue`, oldest first. */
    var queue: seq<Job<T>>
    /** One entry per worker goroutine: the job it is running, if any. */
    var busy: seq<Option<Job<T>>>
    /** The callers blocked in their first `select`, in the order they started waiting. */
    var blocked: seq<Call<T>>
    /** The job pool, as a free list. */
    var pool: seq<Job<T>>
    var clock: int

    ghost var Repr: set<object>

    ghost predicate Valid()
      reads this, Repr
    {
      // a caller waits to send only while the queue is full
      Inv() && (blocked != [] ==> |queue| == WorkerCount)
    }

    /** Everything `Valid` demands except that a caller is blocked only on a full queue; it
        also holds between the two halves of a worker's receive. */
    ghost predicate Inv()
      reads this, Repr
    {
      && this in Repr
      && |busy| == WorkerCount && |queue| <= WorkerCount
      && QueueOk() && BusyOk() && BlockedOk() && PoolOk()
    }

    ghost predicate QueueOk()
      reads this, Repr
    {
      && (forall i :: 0 <= i < |queue| ==> queue[i] in Repr && queue[i].result in Repr && Armed(queue[i], Queued))
      && (forall i, k :: 0 <= i < k < |queue| ==> queue[i] != queue[k])
    }

    ghost predicate BusyOk()
      reads this, Repr
    {
      && (forall w :: 0 <= w < |busy| && busy[w].Some? ==>
            busy[w].value in Repr && busy[w].value.result in Repr && Armed(busy[w].value, Running))
      && (forall w, v :: 0 <= w < v < |busy| && busy[w].Some? && busy[v].Some? ==> busy[w].value != busy[v].value)
    }

    ghost predicate BlockedOk()
      reads this, Repr
    {
      && (forall i :: 0 <= i < |blocked| ==>
            && blocked[i] in Repr && blocked[i].job in Repr && blocked[i].job.result in Repr
            && Armed(blocked[i].job, Waiting) && blocked[i].channel == blocked[i].job.result
            && blocked[i].admittedAt.None? && blocked[i].outcome.None?
            && blocked[i].submittedAt <= clock <= Deadline(blocked[i].submittedAt))
      && (forall i, k :: 0 <= i < k < |blocked| ==>
            blocked[i].job != blocked[k].job && blocked[i].submittedAt <= blocked[k].submittedAt)
    }

    ghost predicate PoolOk()
      reads this, Repr
    {
      && (forall i :: 0 <= i < |pool| ==> pool[i] in Repr && pool[i].place == Pooled && pool[i].run.None?)
      && (forall i, k :: 0 <= i < k < |pool| ==> pool[i] != pool[k])
    }

    /** Process start: an empty queue and pool, and `workerCount` idle workers. */
    constructor ()
      ensures Valid() && fresh(Repr)
      ensures queue == [] && blocked == [] && pool == [] && clock == 0
      ensures |busy| == WorkerCount && forall w :: 0 <= w < |busy| ==> busy[w].None?
    {
      var workers: seq<Option<Job<T>>> := [];
      for i := 0 to WorkerCount
        invariant |workers| == i && forall w :: 0 <= w < i ==> workers[w].None?
      {
        workers := workers + [None];
      }
      queue, busy, blocked, pool, clock := [], workers, [], [], 0;
      Repr := {this};
    }

    /** `Job.Done`: clear the work, close the result channel, return the job to the pool. */
    method Done(job: Job<T>, now: int)
      requires job.result != null && job.result.Valid() && !job.result.closed
      modifies this`pool, job, job.result
      ensures job.run == None && job.result == old(job.result) && job.place == Pooled
      ensures job.result.Valid() && job.result.closed && job.result.buffer == old(job.result.buffer)
      ensures job.result.sent == old(job.result.sent)
      ensures job.result.readyAt == if old(job.result.readyAt).Some? then old(job.result.readyAt) else Some(now)
      ensures pool == old(pool) + [job]
    {
      job.run := None;
      job.place := Pooled;
      job.result.Close(now);
      pool := pool + [job];
    }

    /** The set-up of `RunJob` and its first `select`: take a job from the pool (or a new one),
        give it the work and a fresh channel, and send it into the queue if there is room;
        otherwise the caller is left blocked on the send. */
    method Submit(work: Work<T>) returns (call: Call<T>)
      requires Valid()
      modifies this, if pool != [] then {pool[|pool| - 1]} else {}
      ensures Valid() && fresh(Repr - old(Repr))
      ensures fresh(call) && fresh(call.channel) && call.submittedAt == clock && call.outcome == None
      ensures call.job.run == Some(work) && call.job.result == call.channel
      ensures call.channel.Valid() && call.channel.buffer == [] && !call.channel.closed && call.channel.readyAt.None?
      ensures old(pool) != [] ==> call.job == old(pool)[|old(pool)| - 1] && pool == old(pool)[..|old(pool)| - 1]
      ensures old(pool) == [] ==> fresh(call.job) && pool == []
      ensures old(|queue|) < WorkerCount ==>
        queue == old(queue) + [call.job] && blocked == old(blocked) && call.admittedAt == Some(clock)
      ensures old(|queue|) == WorkerCount ==>
        queue == old(queue) && blocked == old(blocked) + [call] && call.admittedAt == None
      ensures busy == old(busy) && clock == old(clock)
    {
      call := Prepare(work);
      if |queue| < WorkerCount {
        Enqueue(call);
      } else {
        Block(call);
      }
    }

    /** Lines 29-31 of `RunJob`: a job from the pool, armed with the work and a new channel. */
    method Prepare(work: Work<T>) returns (call: Call<T>)
      requires Valid()
      modifies this`pool, this`Repr, if pool != [] then {pool[|pool| - 1]} else {}
      ensures Valid() && Repr == old(Repr) + {call, call.job, call.channel}
      ensures fresh(call) && fresh(call.channel) && call.submittedAt == clock
      ensures call.admittedAt.None? && call.outcome.None?
      ensures Armed(call.job, Held) && call.job.run == Some(work) && call.job.result == call.channel
      ensures old(pool) != [] ==> call.job == old(pool)[|old(pool)| - 1] && pool == old(pool)[..|old(pool)| - 1]
      ensures old(pool) == [] ==> fresh(call.job) && pool == []
    {
      var job := Acquire();
      call := Arm(job, work);
    }

    /** `jobPool.Get()`: the job most recently put back, or a new one. */
    method Acquire() returns (job: Job<T>)
      requires Valid()
      modifies this`pool
      ensures Valid() && job.place == Pooled && job !in pool
      ensures old(pool) != [] ==> job == old(pool)[|old(pool)| - 1] && pool == old(pool)[..|old(pool)| - 1]
      ensures old(pool) == [] ==> fresh(job) && pool == []
    {
      if pool != [] {
        job := pool[|pool| - 1];
        pool := pool[..|pool| - 1];
      } else {
        job := new Job();
      }
    }

    /** `job.Run = fn` and `job.Result = make(chan interface{}, 1)`. */
    method Arm(job: Job<T>, work: Work<T>) returns (call: Call<T>)
      requires Valid() && job.place == Pooled && job !in pool
      modifies this`Repr, job
      ensures Valid() && Repr == old(Repr) + {call, job, call.channel}
      ensures fresh(call) && fresh(call.channel) && call.job == job && call.submittedAt == clock
      ensures call.admittedAt.None? && call.outcome.None?
      ensures Armed(job, Held) && job.run == Some(work) && job.result == call.channel
    {
      job.run := Some(work);
      job.place := Held;
      var ch := new Channel(job);
      job.result := ch;
      call := new Call(job, ch, clock);
      Repr := Repr + {job, ch, call};
    }

    /** The first `select` when the queue has room: the job is sent at once. */
    method Enqueue(call: Call<T>)
      requires Valid() && |queue| < WorkerCount
      requires call in Repr && call.job in Repr && call.job.result in Repr && call.channel == call.job.result
      requires Armed(call.job, Held) && call.admittedAt.None? && call.submittedAt == clock
      modifies this`queue, call, call.job
      ensures Valid() && queue == old(queue) + [call.job]
      ensures call.admittedAt == Some(clock) && call.outcome == old(call.outcome)
      ensures call.job.run == old(call.job.run) && call.job.result == old(call.job.result)
    {
      call.job.place := Queued;
      queue := queue + [call.job];
      call.admittedAt := Some(clock);
    }

    /** The first `select` when the queue is full: the caller waits to send. */
    method Block(call: Call<T>)
      requires Valid() && |queue| == WorkerCount
      requires call in Repr && call.job in Repr && call.job.result in Repr && call.channel == call.job.result
      requires Armed(call.job, Held) && call.admittedAt.None? && call.outcome.None? && call.submittedAt == clock
      modifies this`blocked, call.job
      ensures Valid() && blocked == old(blocked) + [call]
      ensures call.job.run == old(call.job.run) && call.job.result == old(call.job.result)
    {
      call.job.place := Waiting;
      blocked := blocked + [call];
    }

    /** The receive of a worker's loop, `for job := range jobQueue`: idle worker `w` takes the
        oldest queued job. The slot freed goes to the caller that has waited longest. */
    method Take(w: nat)
      requires Valid() && w < |busy| && busy[w].None? && queue != []
      requires blocked != [] ==> clock < Deadline(blocked[0].submittedAt)
      modifies this`queue, this`busy, this`blocked, queue[0]
      modifies if blocked != [] then {blocked[0], blocked[0].job} else {}
      ensures Valid()
      ensures busy == old(busy)[w := Some(old(queue)[0])]
      ensures old(blocked) == [] ==> queue == old(queue)[1..] && blocked == []
      ensures old(blocked) != [] ==>
        && queue == old(queue)[1..] + [old(blocked)[0].job] && blocked == old(blocked)[1..]
        && old(blocked)[0].admittedAt == Some(clock) && clock < Deadline(old(blocked)[0].submittedAt)
        && old(blocked)[0].outcome == old(blocked[0].outcome)
        && old(blocked)[0].job.run == old(blocked[0].job.run) && old(blocked)[0].job.result == old(blocked[0].job.result)
      ensures old(queue)[0].run == old(queue[0].run) && old(queue)[0].result == old(queue[0].result)
    {
      Dispatch(w);
      if blocked != [] {
        Admit();
      }
    }

    /** Worker `w` receives the oldest queued job. */
    method Dispatch(w: nat)
      requires Valid() && w < |busy| && busy[w].None? && queue != []
      modifies this`queue, this`busy, queue[0]
      ensures Inv()
      ensures queue == old(queue)[1..] && busy == old(busy)[w := Some(old(queue)[0])]
      ensures old(queue)[0].run == old(queue[0].run) && old(queue)[0].result == old(queue[0].result)
    {
      var job := queue[0];
      queue := queue[1..];
      busy := busy[w := Some(job)];
      job.place := Running;
    }

    /** The longest-waiting blocked caller completes its send into the slot just freed. */
    method Admit()
      requires Inv() && blocked != [] && |queue| == WorkerCount - 1 && clock < Deadline(blocked[0].submittedAt)
      modifies this`queue, this`blocked, blocked[0], blocked[0].job
      ensures Valid()
      ensures queue == old(queue) + [old(blocked)[0].job] && blocked == old(blocked)[1..]
      ensures old(blocked)[0].admittedAt == Some(clock) && clock < Deadline(old(blocked)[0].submittedAt)
      ensures old(blocked)[0].outcome == old(blocked[0].outcome)
      ensures old(blocked)[0].job.run == old(blocked[0].job.run) && old(blocked)[0].job.result == old(blocked[0].job.result)
    {
      var call := blocked[0];
      call.job.place := Queued;
      queue := queue + [call.job];
      blocked := blocked[1..];
      call.admittedAt := Some(clock);
    }

    /** One iteration of `worker`'s loop: idle worker `w` receives the oldest queued job, runs
        it once, sends what it returned on the job's own channel and calls `Done`; the worker
        is idle again. */
    method WorkerStep(w: nat)
      requires Valid() && w < |busy| && busy[w].None? && queue != []
      requires blocked != [] ==> clock < Deadline(blocked[0].submittedAt)
      modifies this`queue, this`busy, this`blocked, this`pool, queue[0], queue[0].result
      modifies if blocked != [] then {blocked[0], blocked[0].job} else {}
      ensures Valid() && busy == old(busy) && clock == old(clock)
      ensures var job := old(queue)[0];
        && job.run == None && job.result == old(job.result)
        && job.result.Valid() && job.result.buffer == [old(job.run.value)()] && job.result.closed
        && job.result.readyAt == Some(clock) && job.result.sent == 1
        && pool == old(pool) + [job]
      ensures old(blocked) == [] ==> queue == old(queue)[1..] && blocked == []
      ensures old(blocked) != [] ==>
        && queue == old(queue)[1..] + [old(blocked)[0].job] && blocked == old(blocked)[1..]
        && old(blocked)[0].admittedAt == Some(clock)
    {
      Take(w);
      Finish(w);
      assert busy == old(busy);
    }

    /** The rest of the worker's loop body: run the job once, send what it returned on its
        result channel, then `Done`. A reader sees the value and then a closed channel. */
    method Finish(w: nat)
      requires Valid() && w < |busy| && busy[w].Some?
      modifies this`busy, this`pool, busy[w].value, busy[w].value.result
      ensures Valid()
      ensures var job := old(busy[w].value);
        && job.run == None && job.result == old(job.result)
        && job.result.Valid() && job.result.buffer == [old(job.run.value)()] && job.result.closed
        && job.result.readyAt == Some(clock) && job.result.sent == 1
        && pool == old(pool) + [job]
      ensures busy == old(busy)[w := None] && queue == old(queue) && blocked == old(blocked) && clock == old(clock)
    {
      var job := busy[w].value;
      var v := job.run.value();
      job.result.Send(v, clock);
      Done(job, clock);
      busy := busy[w := None];
    }

    /** Time passes: the clock moves on to `target`, which is at most the deadline of every
        caller still blocked (a deadline reached is handled by `Expire` before time goes on). */
    method Tick(target: int)
      requires Valid() && clock <= target
      requires forall i :: 0 <= i < |blocked| ==> target <= Deadline(blocked[i].submittedAt)
      modifies this`clock
      ensures Valid() && clock == target
    {
      clock := target;
    }

    /** The timer of the longest-waiting blocked caller fires, at its deadline: its job goes back
        to the pool with a closed, empty channel and the call returns the capacity error. */
    method Expire()
      requires Valid() && blocked != [] && clock == Deadline(blocked[0].submittedAt)
      modifies this`blocked, this`pool, blocked[0], blocked[0].job, blocked[0].channel
      ensures Valid() && blocked == old(blocked)[1..] && pool == old(pool) + [old(blocked)[0].job]
      ensures TurnedAway(old(blocked)[0])
    {
      var call := blocked[0];
      Done(call.job, clock);
      call.outcome := Some(Err(CapacityError));
      blocked := blocked[1..];
    }

    /** The caller's second `select`, at the current time: it returns once the channel is
        ready before the deadline or the deadline has passed, with the outcome `RunJob`
        prescribes; otherwise it keeps waiting. The caller is the channel's only receiver, so a
        ready channel it has not yet received from still holds its value or is closed. */
    method Await(call: Call<T>)
      requires Valid() && call.channel.Valid()
      requires call.outcome.None? && call.admittedAt.Some? && call.admittedAt.value < Deadline(call.submittedAt)
      requires call.channel.readyAt.Some? ==> call.channel.closed || call.channel.buffer != []
      modifies call`outcome, call.channel
      ensures Valid() && call.channel.Valid()
      ensures call.channel.closed == old(call.channel.closed) && call.channel.readyAt == old(call.channel.readyAt)
      ensures call.channel.sent == old(call.channel.sent)
      // the value is taken out of the channel exactly when it is received in time
      ensures call.channel.buffer ==
        if old(call.channel.readyAt).Some? && old(call.channel.readyAt).value < Deadline(call.submittedAt) && old(call.channel.buffer) != []
        then old(call.channel.buffer)[1..] else old(call.channel.buffer)
      ensures var decided := old(call.channel.readyAt).Some? || clock >= Deadline(call.submittedAt);
        call.outcome == if decided then Some(RunJob(call.submittedAt, call.admittedAt, old(ArrivalOf(call.channel)))) else None
    {
      var deadline := Deadline(call.submittedAt);
      if call.channel.readyAt.Some? && call.channel.readyAt.value < deadline {
        Collect(call);
      } else if call.channel.readyAt.Some? || clock >= deadline {
        GiveUp(call);
      }
    }

    /** The result channel is ready before the deadline: receive from it. */
    method Collect(call: Call<T>)
      requires Valid() && call.channel.Valid() && call.outcome.None?
      requires call.admittedAt.Some? && call.admittedAt.value < Deadline(call.submittedAt)
      requires call.channel.readyAt.Some? && call.channel.readyAt.value < Deadline(call.submittedAt)
      requires call.channel.closed || call.channel.buffer != []
      modifies call`outcome, call.channel
      ensures Valid() && call.channel.Valid()
      ensures call.outcome == Some(RunJob(call.submittedAt, call.admittedAt, old(ArrivalOf(call.channel))))
      ensures call.channel.closed == old(call.channel.closed) && call.channel.readyAt == old(call.channel.readyAt)
      ensures call.channel.sent == old(call.channel.sent)
      ensures call.channel.buffer == if old(call.channel.buffer) != [] then old(call.channel.buffer)[1..] else []
    {
      var v := call.channel.Receive();
      call.outcome := Some(Received(v));
    }

    /** The timer fires first: the call returns the timeout error. */
    method GiveUp(call: Call<T>)
      requires Valid() && call.outcome.None? && call.admittedAt.Some?
      modifies call`outcome
      ensures Valid() && call.outcome == Some(Err(TimeoutError))
    {
      call.outcome := Some(Err(TimeoutError));
    }
  }
}
