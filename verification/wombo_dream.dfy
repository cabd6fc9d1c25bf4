/** The Dream API client's task creation and the polling driver behind `generatePicture`.

    Every request the client sends first obtains a bearer token from the
    authentifier and then performs one HTTP call; what the outside world
    answers is an input (`Reply`). The progress callback and `sleep` are
    observed through an event trace instead of being run. */
module WomboDream {
  import opened Errors
  import opened Types

  /** The display frequency `configureTask`, `createTask` and `generatePicture` use when none is given. */
  const DefaultDisplayFreq: int := 10
  /** The delay in milliseconds between two status fetches when `generatePicture` is given none. */
  const DefaultCheckFreq: int := 1000

  const InitFailed: string := "Failed to initialize task"
  const ConfigureFailed: string := "Failed to configure task"
  const CreateFailed: string := "Failed to create task"
  const FetchFailed: string := "Failed to fetch task info"
  const GenerateFailed: string := "Failed to generate picture"

  /** How one Dream API request settles: the token could not be obtained, the
      HTTP call was rejected, or the server answered with a task snapshot. */
  datatype Reply =
    | AuthRejected(error: Failure)
    | HttpRejected(error: Failure)
    | Answered(task: Task)

  /** The shared shape of `initTask`, `configureTask` and `fetchTaskInfos`: the
      request agent (and so the token) is built before the `try`, so an
      authentication failure escapes as it is; only an HTTP failure is wrapped
      with the request's own reason. */
  function Request(reply: Reply, reason: string): (r: Result<Task>)
    ensures r.Ok? <==> reply.Answered?
    ensures r.Ok? ==> r.value == reply.task
  {
    match reply
    case AuthRejected(e) => Err(e)
    case HttpRejected(e) => Err(Wrapped(reason, e))
    case Answered(t) => Ok(t)
  }

  /** `initTask`: an HTTP failure is reported as 'Failed to initialize task'. */
  function InitTask(reply: Reply): (r: Result<Task>) { Request(reply, InitFailed) }

  /** `configureTask`: an HTTP failure is reported as 'Failed to configure task'. */
  function ConfigureTask(reply: Reply): (r: Result<Task>) { Request(reply, ConfigureFailed) }

  /** `fetchTaskInfos`: an HTTP failure is reported as 'Failed to fetch task info'. */
  function FetchTaskInfos(reply: Reply): (r: Result<Task>) { Request(reply, FetchFailed) }

  /** The calls the client makes, in order: `initTask`, `configureTask` and
      `fetchTaskInfos` (recorded whether or not their token step succeeded and
      the HTTP request went out), the progress callback, and `sleep`. */
  datatype Event =
    | InitRequest
    | ConfigureRequest(taskId: string, spec: InputSpec)
    | FetchRequest(taskId: string)
    | Progress(snapshot: Task)
    | Sleep(ms: int)

  /** The items a trace yields under `pick`, in order. */
  function Collect<T>(events: seq<Event>, pick: Event -> seq<T>): (r: seq<T>)
  {
    if |events| == 0 then [] else pick(events[0]) + Collect(events[1..], pick)
  }

  function PickFetch(e: Event): (r: seq<string>) { if e.FetchRequest? then [e.taskId] else [] }

  function PickProgress(e: Event): (r: seq<Task>) { if e.Progress? then [e.snapshot] else [] }

  function PickSleep(e: Event): (r: seq<int>) { if e.Sleep? then [e.ms] else [] }

  /** The task ids the status fetches asked for, in order. */
  function FetchedIds(events: seq<Event>): (r: seq<string>) { Collect(events, PickFetch) }

  /** Number of status fetches in a trace. */
  function Fetches(events: seq<Event>): (r: nat) { |FetchedIds(events)| }

  /** The snapshots handed to the progress callback, in order. */
  function Callbacks(events: seq<Event>): (r: seq<Task>) { Collect(events, PickProgress) }

  /** The delays requested from `sleep`, in order. */
  function Sleeps(events: seq<Event>): (r: seq<int>) { Collect(events, PickSleep) }

  /** Collecting distributes over concatenation of traces. */
  lemma {:induction false} CollectAppend<T>(a: seq<Event>, b: seq<Event>, pick: Event -> seq<T>)
    ensures Collect(a + b, pick) == Collect(a, pick) + Collect(b, pick)
  {
    if |a| == 0 {
      assert a + b == b;
    } else {
      assert (a + b)[0] == a[0];
      assert (a + b)[1..] == a[1..] + b;
      CollectAppend(a[1..], b, pick);
    }
  }

  lemma CollectOne<T>(e: Event, pick: Event -> seq<T>)
    ensures Collect([e], pick) == pick(e)
  {
    assert [e][1..] == [];
  }

  lemma CollectTwo<T>(e0: Event, e1: Event, pick: Event -> seq<T>)
    ensures Collect([e0, e1], pick) == pick(e0) + pick(e1)
  {
    assert [e0, e1] == [e0] + [e1];
    CollectAppend([e0], [e1], pick);
    CollectOne(e0, pick);
    CollectOne(e1, pick);
  }

  lemma CollectThree<T>(e0: Event, e1: Event, e2: Event, pick: Event -> seq<T>)
    ensures Collect([e0, e1, e2], pick) == pick(e0) + pick(e1) + pick(e2)
  {
    assert [e0, e1, e2] == [e0, e1] + [e2];
    CollectAppend([e0, e1], [e2], pick);
    CollectTwo(e0, e1, pick);
    CollectOne(e2, pick);
  }

  /** Each projection of a trace distributes over concatenation. */
  lemma ProjectionsAppend(a: seq<Event>, b: seq<Event>)
    ensures FetchedIds(a + b) == FetchedIds(a) + FetchedIds(b)
    ensures Fetches(a + b) == Fetches(a) + Fetches(b)
    ensures Callbacks(a + b) == Callbacks(a) + Callbacks(b)
    ensures Sleeps(a + b) == Sleeps(a) + Sleeps(b)
  {
    CollectAppend(a, b, PickFetch);
    CollectAppend(a, b, PickProgress);
    CollectAppend(a, b, PickSleep);
  }

  /** The projections of a two-event trace. */
  lemma PairProjections(e0: Event, e1: Event)
    ensures FetchedIds([e0, e1]) == PickFetch(e0) + PickFetch(e1)
    ensures Callbacks([e0, e1]) == PickProgress(e0) + PickProgress(e1)
    ensures Sleeps([e0, e1]) == PickSleep(e0) + PickSleep(e1)
  {
    CollectTwo(e0, e1, PickFetch);
    CollectTwo(e0, e1, PickProgress);
    CollectTwo(e0, e1, PickSleep);
  }

  /** The projections of a three-event trace. */
  lemma TripleProjections(e0: Event, e1: Event, e2: Event)
    ensures FetchedIds([e0, e1, e2]) == PickFetch(e0) + PickFetch(e1) + PickFetch(e2)
    ensures Callbacks([e0, e1, e2]) == PickProgress(e0) + PickProgress(e1) + PickProgress(e2)
    ensures Sleeps([e0, e1, e2]) == PickSleep(e0) + PickSleep(e1) + PickSleep(e2)
  {
    CollectThree(e0, e1, e2, PickFetch);
    CollectThree(e0, e1, e2, PickProgress);
    CollectThree(e0, e1, e2, PickSleep);
  }

  /** A trace of task requests alone holds no fetch, callback or sleep. */
  lemma {:induction false} RequestsOnlyProjectNothing(events: seq<Event>)
    requires forall i :: 0 <= i < |events| ==> events[i].InitRequest? || events[i].ConfigureRequest?
    ensures Fetches(events) == 0 && Callbacks(events) == [] && Sleeps(events) == []
  {
    if |events| > 0 {
      RequestsOnlyProjectNothing(events[1..]);
    }
  }

  /** Result of `createTask`: the configured task or the wrapped failure, and the requests it sent. */
  datatype Created = Created(task: Result<Task>, events: seq<Event>)

  /** The parameters `createTask` sends when configuring: the display frequency is always present. */
  function ConfigurationSpec(prompt: string, style: int, inputImage: Option<ImageInput>, displayFreq: int): (r: InputSpec)
  {
    InputSpec(style, prompt, Some(displayFreq), inputImage)
  }

  /** Initialises a task, then configures that task; a failure in either step is
      rethrown as 'Failed to create task', and no partial task is returned. */
  function CreateTask(prompt: string, style: int, inputImage: Option<ImageInput>, displayFreq: int,
                      initReply: Reply, configureReply: Reply): (r: Created)
    ensures r.task.Ok? <==> initReply.Answered? && configureReply.Answered?
    ensures r.task.Ok? ==> r.task.value == configureReply.task
    ensures r.task.Err? ==> r.task.error.Wrapped? && r.task.error.reason == CreateFailed
    ensures initReply.Answered? ==>
      r.events == [InitRequest, ConfigureRequest(initReply.task.id, ConfigurationSpec(prompt, style, inputImage, displayFreq))]
    ensures !initReply.Answered? ==> r.events == [InitRequest]
    ensures !initReply.Answered? ==> r.task == Err(Wrapped(CreateFailed, InitTask(initReply).error))
    ensures initReply.Answered? && !configureReply.Answered? ==>
      r.task == Err(Wrapped(CreateFailed, ConfigureTask(configureReply).error))
  {
    match InitTask(initReply)
    case Err(e) => Created(Err(Wrapped(CreateFailed, e)), [InitRequest])
    case Ok(initialised) =>
      var sent := [InitRequest, ConfigureRequest(initialised.id, ConfigurationSpec(prompt, style, inputImage, displayFreq))];
      match ConfigureTask(configureReply)
      case Err(e) => Created(Err(Wrapped(CreateFailed, e)), sent)
      case Ok(configured) => Created(Ok(configured), sent)
  }

  /** How `generatePicture` ends.
      - `Resolved`: the promise resolves with the task;
      - `CreateError`: `createTask` rejected, before the loop;
      - `FailedState`: a polled snapshot reported `failed`;
      - `FetchError`: a status fetch rejected;
      - `Unsettled`: still polling when the sequence of server replies ran out. */
  datatype Outcome =
    | Resolved(task: Task)
    | CreateError(error: Failure)
    | FailedState(error: Failure)
    | FetchError(error: Failure)
    | Unsettled(task: Task)
  {
    predicate Rejected() { CreateError? || FailedState? || FetchError? }
  }

  datatype Run = Run(outcome: Outcome, events: seq<Event>)

  /** The trace shape of the polling loop: whole iterations `[fetch, callback, sleep]`,
      ended either by nothing, or by a fetch whose callback got the held task forced to
      `failed` (fetch error), or by a fetch whose callback got a `failed` snapshot followed
      by its forced copy. */
  ghost predicate PollShaped(events: seq<Event>)
    decreases |events|
  {
    || |events| == 0
    || (|events| >= 3 && events[0].FetchRequest? && events[1].Progress? && events[2].Sleep?
        && PollShaped(events[3..]))
    || (|events| == 2 && events[0].FetchRequest? && events[1].Progress? && events[1].snapshot.state == Failed
        && events[1].snapshot.id == events[0].taskId)
    || (|events| == 3 && events[0].FetchRequest? && events[1].Progress? && events[1].snapshot.state == Failed
        && events[2] == Progress(MarkedFailed(events[1].snapshot)))
  }

  /** The `while (task.state !== 'completed')` loop of `generatePicture`, together
      with its `catch`, starting from the held task `task` and consuming one server
      reply per status fetch. */
  function Poll(task: Task, replies: seq<Reply>, checkFrequency: int): (r: Run)
    decreases |replies|
    ensures task.state == Completed ==> r == Run(Resolved(task), [])
    ensures !r.outcome.CreateError?
    ensures r.outcome.Resolved? ==> r.outcome.task.state == Completed
    ensures r.outcome.FailedState? ==> r.outcome.error == Wrapped(GenerateFailed, Blank)
    ensures r.outcome.FetchError? ==> r.outcome.error.Wrapped? && r.outcome.error.reason == GenerateFailed
  {
    if task.state == Completed then
      Run(Resolved(task), [])
    else if |replies| == 0 then
      Run(Unsettled(task), [])
    else
      match FetchTaskInfos(replies[0])
      case Err(e) =>
        Run(FetchError(Wrapped(GenerateFailed, e)), [FetchRequest(task.id), Progress(MarkedFailed(task))])
      case Ok(snapshot) =>
        if snapshot.state == Failed then
          Run(FailedState(Wrapped(GenerateFailed, Blank)),
              [FetchRequest(task.id), Progress(snapshot), Progress(MarkedFailed(snapshot))])
        else
          var rest := Poll(snapshot, replies[1..], checkFrequency);
          Run(rest.outcome, [FetchRequest(task.id), Progress(snapshot), Sleep(checkFrequency)] + rest.events)
  }

  /** One round of the loop on a snapshot that is not `failed`: fetch, callback, sleep,
      and the loop goes on from that snapshot with the remaining replies. */
  lemma PollIteration(task: Task, snapshot: Task, tail: seq<Reply>, checkFrequency: int)
    requires task.state != Completed
    requires snapshot.state != Failed
    ensures var full := Poll(task, [Answered(snapshot)] + tail, checkFrequency);
            var inner := Poll(snapshot, tail, checkFrequency);
            && full.outcome == inner.outcome
            && full.events == [FetchRequest(task.id), Progress(snapshot), Sleep(checkFrequency)] + inner.events
            && FetchedIds(full.events) == [task.id] + FetchedIds(inner.events)
            && Callbacks(full.events) == [snapshot] + Callbacks(inner.events)
            && Sleeps(full.events) == [checkFrequency] + Sleeps(inner.events)
  {
    assert ([Answered(snapshot)] + tail)[1..] == tail;
    var inner := Poll(snapshot, tail, checkFrequency);
    var iteration := [FetchRequest(task.id), Progress(snapshot), Sleep(checkFrequency)];
    ProjectionsAppend(iteration, inner.events);
    TripleProjections(iteration[0], iteration[1], iteration[2]);
  }

  /** How much the loop did, read off its trace: it consumes at most one reply per fetch
      (all of them when still polling), calls back once per fetch plus once more on the
      failed-state exit, and sleeps once per fetch except after the fetch that ended it
      in failure. */
  lemma {:induction false} PollTally(task: Task, replies: seq<Reply>, checkFrequency: int)
    decreases |replies|
    ensures var r := Poll(task, replies, checkFrequency);
            && Fetches(r.events) <= |replies|
            && (r.outcome.Unsettled? ==> Fetches(r.events) == |replies|)
            && |Callbacks(r.events)| == Fetches(r.events) + (if r.outcome.FailedState? then 1 else 0)
            && |Sleeps(r.events)| == Fetches(r.events) - (if r.outcome.Rejected() then 1 else 0)
  {
    if task.state != Completed && |replies| > 0 {
      var r := Poll(task, replies, checkFrequency);
      match FetchTaskInfos(replies[0])
      case Err(e) =>
        PairProjections(r.events[0], r.events[1]);
      case Ok(snapshot) =>
        if snapshot.state == Failed {
          TripleProjections(r.events[0], r.events[1], r.events[2]);
        } else {
          assert replies == [Answered(snapshot)] + replies[1..];
          PollIteration(task, snapshot, replies[1..], checkFrequency);
          PollTally(snapshot, replies[1..], checkFrequency);
        }
    }
  }

  /** Every delay the loop requests is the check frequency. */
  lemma {:induction false} PollSleepsAtCheckFrequency(task: Task, replies: seq<Reply>, checkFrequency: int)
    decreases |replies|
    ensures forall i :: 0 <= i < |Sleeps(Poll(task, replies, checkFrequency).events)| ==>
      Sleeps(Poll(task, replies, checkFrequency).events)[i] == checkFrequency
  {
    if task.state != Completed && |replies| > 0 {
      var r := Poll(task, replies, checkFrequency);
      match FetchTaskInfos(replies[0])
      case Err(e) =>
        PairProjections(r.events[0], r.events[1]);
      case Ok(snapshot) =>
        if snapshot.state == Failed {
          TripleProjections(r.events[0], r.events[1], r.events[2]);
        } else {
          assert replies == [Answered(snapshot)] + replies[1..];
          PollIteration(task, snapshot, replies[1..], checkFrequency);
          PollSleepsAtCheckFrequency(snapshot, replies[1..], checkFrequency);
        }
    }
  }

  /** The loop's effects come in whole rounds, ended by nothing or by one of the two failure endings. */
  lemma {:induction false} PollShape(task: Task, replies: seq<Reply>, checkFrequency: int)
    decreases |replies|
    ensures PollShaped(Poll(task, replies, checkFrequency).events)
  {
    if task.state != Completed && |replies| > 0 {
      match FetchTaskInfos(replies[0])
      case Err(e) =>
      case Ok(snapshot) =>
        if snapshot.state != Failed {
          var rest := Poll(snapshot, replies[1..], checkFrequency).events;
          var iteration := [FetchRequest(task.id), Progress(snapshot), Sleep(checkFrequency)];
          PollShape(snapshot, replies[1..], checkFrequency);
          assert (iteration + rest)[3..] == rest;
        }
    }
  }

  /** `generatePicture`: create the task (outside the `try`, so its failure is neither
      wrapped again nor reported to the callback), then poll it. */
  function Generation(prompt: string, style: int, inputImage: Option<ImageInput>,
                      checkFrequency: int, displayFreq: int,
                      initReply: Reply, configureReply: Reply, replies: seq<Reply>): (r: Run)
    ensures r.outcome.CreateError? <==> !(initReply.Answered? && configureReply.Answered?)
    ensures r.outcome.CreateError? ==>
      && r.outcome.error.Wrapped? && r.outcome.error.reason == CreateFailed
      && Fetches(r.events) == 0 && Callbacks(r.events) == [] && Sleeps(r.events) == []
    ensures r.outcome.Resolved? ==> r.outcome.task.state == Completed
    ensures r.outcome.FailedState? || r.outcome.FetchError? ==>
      r.outcome.error.Wrapped? && r.outcome.error.reason == GenerateFailed
    ensures |r.events| >= 1 && r.events[0] == InitRequest
  {
    var created := CreateTask(prompt, style, inputImage, displayFreq, initReply, configureReply);
    match created.task
    case Err(e) =>
      RequestsOnlyProjectNothing(created.events);
      Run(CreateError(e), created.events)
    case Ok(task) =>
      var polled := Poll(task, replies, checkFrequency);
      Run(polled.outcome, created.events + polled.events)
  }

  /** What a caller of `createTask` sees of a failed step. An HTTP failure arrives
      inside two reasons, 'Failed to create task' around the step's own; a token
      failure sits directly inside 'Failed to create task'. So the two steps can
      be told apart exactly for HTTP failures. */
  lemma CreateFailureNamesItsStep(prompt: string, style: int, inputImage: Option<ImageInput>, displayFreq: int,
                                  initReply: Reply, configureReply: Reply)
    ensures var r := CreateTask(prompt, style, inputImage, displayFreq, initReply, configureReply);
            && (initReply.HttpRejected? ==> r.task == Err(Wrapped(CreateFailed, Wrapped(InitFailed, initReply.error))))
            && (initReply.AuthRejected? ==> r.task == Err(Wrapped(CreateFailed, initReply.error)))
            && (initReply.Answered? && configureReply.HttpRejected? ==>
                  r.task == Err(Wrapped(CreateFailed, Wrapped(ConfigureFailed, configureReply.error))))
            && (initReply.Answered? && configureReply.AuthRejected? ==>
                  r.task == Err(Wrapped(CreateFailed, configureReply.error)))
    ensures forall init: Task, e1: Failure, e2: Failure ::
      CreateTask(prompt, style, inputImage, displayFreq, HttpRejected(e1), configureReply).task
      != CreateTask(prompt, style, inputImage, displayFreq, Answered(init), HttpRejected(e2)).task
  {
  }

  /** What a caller of `generatePicture` sees of a failed status fetch: an HTTP failure
      arrives as 'Failed to generate picture' around 'Failed to fetch task info'; a token
      failure sits directly inside 'Failed to generate picture'. */
  lemma FetchFailureNamesItsStep(task: Task, reply: Reply, rest: seq<Reply>, checkFrequency: int)
    requires task.state != Completed
    ensures reply.HttpRejected? ==>
      Poll(task, [reply] + rest, checkFrequency).outcome == FetchError(Wrapped(GenerateFailed, Wrapped(FetchFailed, reply.error)))
    ensures reply.AuthRejected? ==>
      Poll(task, [reply] + rest, checkFrequency).outcome == FetchError(Wrapped(GenerateFailed, reply.error))
  {
  }

  /** `generatePicture` as the source writes it: a `while` loop over the held task. */
  method GeneratePicture(prompt: string, style: int, inputImage: Option<ImageInput>,
                         checkFrequency: int, displayFreq: int,
                         initReply: Reply, configureReply: Reply, replies: seq<Reply>)
    returns (r: Run)
    ensures r == Generation(prompt, style, inputImage, checkFrequency, displayFreq, initReply, configureReply, replies)
  {
    var created := CreateTask(prompt, style, inputImage, displayFreq, initReply, configureReply);
    if created.task.Err? {
      return Run(CreateError(created.task.error), created.events);
    }
    ghost var target := Generation(prompt, style, inputImage, checkFrequency, displayFreq, initReply, configureReply, replies);
    var task := created.task.value;
    var events := created.events;
    var k := 0;
    assert replies[k..] == replies;
    while task.state != Completed
      invariant 0 <= k <= |replies|
      invariant target.outcome == Poll(task, replies[k..], checkFrequency).outcome
      invariant target.events == events + Poll(task, replies[k..], checkFrequency).events
      decreases |replies| - k
    {
      if k == |replies| {
        return Run(Unsettled(task), events);
      }
      var fetched := FetchTaskInfos(replies[k]);
      events := events + [FetchRequest(task.id)];
      if fetched.Err? {
        events := events + [Progress(MarkedFailed(task))];
        return Run(FetchError(Wrapped(GenerateFailed, fetched.error)), events);
      }
      assert replies[k..][1..] == replies[k + 1..];
      ghost var held := task;
      task := fetched.value;
      k := k + 1;
      events := events + [Progress(task)];
      if task.state == Failed {
        events := events + [Progress(MarkedFailed(task))];
        return Run(FailedState(Wrapped(GenerateFailed, Blank)), events);
      }
      events := events + [Sleep(checkFrequency)];
      assert Poll(held, replies[k - 1..], checkFrequency).events
        == [FetchRequest(held.id), Progress(task), Sleep(checkFrequency)] + Poll(task, replies[k..], checkFrequency).events;
    }
    return Run(Resolved(task), events);
  }
}
