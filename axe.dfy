/** A background task of axe/task.go: its settings, the defaults it starts
    with, and the decision it takes after running its handler once on a
    dequeued job. The queue, the store and the handler are parameters: the
    outcome of dequeuing, of decoding the job data and of each store
    transition is given as a value or a function. */
module Axe {
  import opened Wrappers
  import opened ObjectIds
  import opened Documents

  /** A duration in nanoseconds. */
  type Duration = int

  const Millisecond: Duration := 1_000_000
  const Second: Duration := 1000 * Millisecond
  const Minute: Duration := 60 * Second

  /** The error a handler returns to fail a job, possibly for a retry. */
  datatype Error = Error(reason: string, retry: bool)
  {
    /** The text of the error is its reason. */
    function Message(): string { reason }
  }

  /** Builds an error from its reason and its retry flag. */
  function E(reason: string, retry: bool): (e: Error)
    ensures e.Message() == reason
    ensures e.retry == retry
  {
    Error(reason, retry)
  }

  /** What a handler may return instead of a result: an axe error, or any
      other error. */
  datatype Failure = AxeError(error: Error) | OtherError(msg: string)

  /** A job as dequeue returns it: its id, the attempts made so far
      (including this one) and its encoded data. */
  datatype Job = Job(id: Id, attempts: int, data: map<string, Value>)

  /** The data a handler works on. */
  type Model = map<string, Value>

  /** A state change of a job in the store. */
  datatype Transition =
    | Cancel(job: Id, reason: string)
    | Fail(job: Id, reason: string, delay: Duration)
    | Complete(job: Id, result: map<string, Value>)

  /** What one execution did: the transition it asked the store for, if
      any, and the error it returned, if any. */
  datatype Report = Report(transition: Option<Transition>, err: Option<string>)

  class Task {
    const name: string
    var workers: int
    var maxAttempts: int
    var interval: Duration
    var delay: Duration
    var timeout: Duration

    constructor (name: string, workers: int, maxAttempts: int, interval: Duration, delay: Duration, timeout: Duration)
      ensures this.name == name && this.workers == workers && this.maxAttempts == maxAttempts
      ensures this.interval == interval && this.delay == delay && this.timeout == timeout
    {
      this.name := name;
      this.workers := workers;
      this.maxAttempts := maxAttempts;
      this.interval := interval;
      this.delay := delay;
      this.timeout := timeout;
    }

    /** No setting is left at zero. */
    ghost predicate Settled()
      reads this
    {
      workers != 0 && maxAttempts != 0 && interval != 0 && delay != 0 && timeout != 0
    }

    /** axe/task.go:70-94: every setting left at zero takes its default;
        the others are kept. Spawning the workers is not modelled. */
    method Start()
      modifies this
      ensures Settled()
      ensures workers == if old(workers) == 0 then 1 else old(workers)
      ensures maxAttempts == if old(maxAttempts) == 0 then 1 else old(maxAttempts)
      ensures interval == if old(interval) == 0 then 100 * Millisecond else old(interval)
      ensures delay == if old(delay) == 0 then Second else old(delay)
      ensures timeout == if old(timeout) == 0 then 10 * Minute else old(timeout)
    {
      if workers == 0 {
        workers := 1;
      }
      if maxAttempts == 0 {
        maxAttempts := 1;
      }
      if interval == 0 {
        interval := 100 * Millisecond;
      }
      if delay == 0 {
        delay := Second;
      }
      if timeout == 0 {
        timeout := 10 * Minute;
      }
    }

    /** The transition an axe error asks for: a job is cancelled when the
        error does not ask for a retry or the attempts are used up, and
        failed for a later retry otherwise. */
    function OnError(job: Job, e: Error): (t: Transition)
      reads this
      ensures !t.Complete? && t.job == job.id && t.reason == e.reason
      ensures t.Fail? <==> e.retry && job.attempts < maxAttempts
      ensures t.Cancel? <==> !e.retry || job.attempts >= maxAttempts
      ensures t.Fail? ==> t.delay == delay
    {
      if !e.retry || job.attempts >= maxAttempts then Cancel(job.id, e.reason)
      else Fail(job.id, e.reason, delay)
    }

    /** axe/task.go:136-198: one execution of a dequeued job. A store error
        of a transition is returned as is; the transition is reported even
        then, since it was attempted. */
    function Execute(
      dequeued: Result<Option<Job>, string>,
      decode: map<string, Value> -> Result<Model, string>,
      handler: Model -> Result<map<string, Value>, Failure>,
      apply: Transition -> Option<string>): (r: Report)
      reads this
      ensures dequeued.Err? ==> r == Report(None, Some(dequeued.error))
      ensures dequeued == Ok(None) ==> r == Report(None, None)
      ensures r.transition.Some? ==>
        && dequeued.Ok? && dequeued.value.Some?
        && r.transition.value.job == dequeued.value.value.id
        && decode(dequeued.value.value.data).Ok?
        && r.err == apply(r.transition.value)
      ensures dequeued.Ok? && dequeued.value.Some? ==>
        var job := dequeued.value.value;
        && (decode(job.data).Err? ==> r == Report(None, Some(decode(job.data).error)))
        && (decode(job.data).Ok? ==>
              var out := handler(decode(job.data).value);
              && (out.Err? && out.error.AxeError? ==> r.transition == Some(OnError(job, out.error.error)))
              && (out.Err? && out.error.OtherError? ==> r == Report(None, Some(out.error.msg)))
              && (out.Ok? ==> r.transition == Some(Complete(job.id, out.value))))
    {
      match dequeued
      case Err(e) => Report(None, Some(e))
      case Ok(None) => Report(None, None)
      case Ok(Some(job)) =>
        match decode(job.data)
        case Err(e) => Report(None, Some(e))
        case Ok(model) =>
          match handler(model)
          case Err(AxeError(e)) =>
            var t := OnError(job, e);
            Report(Some(t), apply(t))
          case Err(OtherError(msg)) => Report(None, Some(msg))
          case Ok(result) =>
            var t := Complete(job.id, result);
            Report(Some(t), apply(t))
    }

    /** When no job is dequeued the handler is not consulted: every handler
        gives the same report, with no transition and no error. */
    lemma NoJobSkipsHandler(
      decode: map<string, Value> -> Result<Model, string>,
      h1: Model -> Result<map<string, Value>, Failure>,
      h2: Model -> Result<map<string, Value>, Failure>,
      apply: Transition -> Option<string>)
      ensures Execute(Ok(None), decode, h1, apply) == Execute(Ok(None), decode, h2, apply) == Report(None, None)
    {
    }

    /** A job is failed for a retry only when its handler asked for one and
        the attempts are not used up; every retry keeps the configured delay. */
    lemma RetryOnlyWithinAttempts(
      dequeued: Result<Option<Job>, string>,
      decode: map<string, Value> -> Result<Model, string>,
      handler: Model -> Result<map<string, Value>, Failure>,
      apply: Transition -> Option<string>)
      requires Execute(dequeued, decode, handler, apply).transition.Some?
      requires Execute(dequeued, decode, handler, apply).transition.value.Fail?
      ensures dequeued.Ok? && dequeued.value.Some? && dequeued.value.value.attempts < maxAttempts
      ensures var out := handler(decode(dequeued.value.value.data).value);
        out.Err? && out.error.AxeError? && out.error.error.retry
      ensures Execute(dequeued, decode, handler, apply).transition.value.delay == delay
    {
    }
  }
}
