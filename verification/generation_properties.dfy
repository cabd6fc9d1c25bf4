/** What `generatePicture` does for whole families of server behaviour: a run of
    non-terminal snapshots followed by `completed`, by `failed`, or by a failed fetch. */
module GenerationProperties {
  import opened Errors
  import opened Types
  import opened WomboDream

  /** The server answers every fetch with the next snapshot of `snapshots`. */
  function Answers(snapshots: seq<Task>): (r: seq<Reply>)
    ensures |r| == |snapshots|
    ensures forall i :: 0 <= i < |snapshots| ==> r[i] == Answered(snapshots[i])
  {
    seq(|snapshots|, i requires 0 <= i < |snapshots| => Answered(snapshots[i]))
  }

  /** Snapshots that keep the loop going: neither `completed` nor `failed`. */
  predicate StillRunning(snapshots: seq<Task>)
  {
    forall i :: 0 <= i < |snapshots| ==> snapshots[i].state != Completed && snapshots[i].state != Failed
  }

  /** `n` requested delays of `ms` each. */
  function Repeat(ms: int, n: nat): (r: seq<int>)
    ensures |r| == n
    ensures forall i :: 0 <= i < n ==> r[i] == ms
  {
    if n == 0 then [] else [ms] + Repeat(ms, n - 1)
  }

  /** The task the loop holds after the snapshots have been fetched. */
  function LastHeld(task: Task, snapshots: seq<Task>): (r: Task)
  {
    if |snapshots| == 0 then task else snapshots[|snapshots| - 1]
  }

  /** The ids the loop fetches while receiving `snapshots`: each fetch asks for the
      id of the task held at that moment. */
  function HeldIds(task: Task, snapshots: seq<Task>): (r: seq<string>)
    decreases |snapshots|
    ensures |r| == |snapshots|
  {
    if |snapshots| == 0 then [] else [task.id] + HeldIds(snapshots[0], snapshots[1..])
  }

  /** The trace of one fetch-callback-sleep round per snapshot, each fetch asking for the
      id of the task held at that moment. */
  function Rounds(task: Task, snapshots: seq<Task>, checkFrequency: int): (r: seq<Event>)
    decreases |snapshots|
  {
    if |snapshots| == 0 then []
    else [FetchRequest(task.id), Progress(snapshots[0]), Sleep(checkFrequency)]
         + Rounds(snapshots[0], snapshots[1..], checkFrequency)
  }

  /** What the rounds show: the held ids are fetched, each snapshot is called back in
      order, and each round sleeps for the check frequency. */
  lemma {:induction false} RoundsProjections(task: Task, snapshots: seq<Task>, checkFrequency: int)
    decreases |snapshots|
    ensures FetchedIds(Rounds(task, snapshots, checkFrequency)) == HeldIds(task, snapshots)
    ensures Callbacks(Rounds(task, snapshots, checkFrequency)) == snapshots
    ensures Sleeps(Rounds(task, snapshots, checkFrequency)) == Repeat(checkFrequency, |snapshots|)
  {
    if |snapshots| > 0 {
      var round := [FetchRequest(task.id), Progress(snapshots[0]), Sleep(checkFrequency)];
      var later := Rounds(snapshots[0], snapshots[1..], checkFrequency);
      RoundsProjections(snapshots[0], snapshots[1..], checkFrequency);
      ProjectionsAppend(round, later);
      TripleProjections(round[0], round[1], round[2]);
      assert snapshots == [snapshots[0]] + snapshots[1..];
    }
  }

  /** Polling through a run of snapshots that are neither `completed` nor `failed` performs
      one round per snapshot, and then the loop continues from the last snapshot with the
      remaining replies. */
  lemma {:induction false} PollThroughRunning(task: Task, snapshots: seq<Task>, tail: seq<Reply>, checkFrequency: int)
    requires task.state != Completed
    requires StillRunning(snapshots)
    decreases |snapshots|
    ensures var full := Poll(task, Answers(snapshots) + tail, checkFrequency);
            var after := Poll(LastHeld(task, snapshots), tail, checkFrequency);
            && full.outcome == after.outcome
            && full.events == Rounds(task, snapshots, checkFrequency) + after.events
  {
    if |snapshots| == 0 {
      assert Answers(snapshots) + tail == tail;
    } else {
      var first := snapshots[0];
      var later := snapshots[1..];
      assert StillRunning(later) by {
        forall i | 0 <= i < |later| ensures later[i].state != Completed && later[i].state != Failed {
          assert later[i] == snapshots[i + 1];
        }
      }
      var continued := Answers(later) + tail;
      assert snapshots == [first] + later;
      AnswersCons(first, later, tail);
      PollIteration(task, first, continued, checkFrequency);
      PollThroughRunning(first, later, tail, checkFrequency);
      assert LastHeld(first, later) == LastHeld(task, snapshots);
    }
  }

  /** Answering a non-empty run of snapshots is answering the first, then the others. */
  lemma AnswersCons(first: Task, later: seq<Task>, tail: seq<Reply>)
    ensures Answers([first] + later) + tail == [Answered(first)] + (Answers(later) + tail)
  {
    assert Answers([first] + later) == [Answered(first)] + Answers(later);
  }

  /** The iteration that fetches `completed`: the callback gets it, the loop still sleeps once, then returns it. */
  lemma PollOneCompleted(held: Task, final: Task, rest: seq<Reply>, checkFrequency: int)
    requires held.state != Completed
    requires final.state == Completed
    ensures var r := Poll(held, [Answered(final)] + rest, checkFrequency);
            && r.outcome == Resolved(final)
            && FetchedIds(r.events) == [held.id]
            && Callbacks(r.events) == [final]
            && Sleeps(r.events) == [checkFrequency]
  {
    var iteration := [FetchRequest(held.id), Progress(final), Sleep(checkFrequency)];
    assert ([Answered(final)] + rest)[1..] == rest;
    assert Poll(held, [Answered(final)] + rest, checkFrequency) == Run(Resolved(final), iteration + []);
    assert iteration + [] == iteration;
    TripleProjections(iteration[0], iteration[1], iteration[2]);
  }

  /** The iteration that fetches a `failed` snapshot: two callbacks, no sleep, rejection. */
  lemma PollOneFailed(held: Task, failed: Task, rest: seq<Reply>, checkFrequency: int)
    requires held.state != Completed
    requires failed.state == Failed
    ensures var r := Poll(held, [Answered(failed)] + rest, checkFrequency);
            && r.outcome == FailedState(Wrapped(GenerateFailed, Blank))
            && r.events == [FetchRequest(held.id), Progress(failed), Progress(MarkedFailed(failed))]
            && FetchedIds(r.events) == [held.id]
            && Callbacks(r.events) == [failed, MarkedFailed(failed)]
            && Sleeps(r.events) == []
  {
    var ending := [FetchRequest(held.id), Progress(failed), Progress(MarkedFailed(failed))];
    TripleProjections(ending[0], ending[1], ending[2]);
  }

  /** The iteration whose fetch is rejected: one callback with the held task forced to `failed`, no sleep. */
  lemma PollOneRejected(held: Task, bad: Reply, rest: seq<Reply>, checkFrequency: int)
    requires held.state != Completed
    requires !bad.Answered?
    ensures var r := Poll(held, [bad] + rest, checkFrequency);
            && r.outcome == FetchError(Wrapped(GenerateFailed, FetchTaskInfos(bad).error))
            && r.events == [FetchRequest(held.id), Progress(MarkedFailed(held))]
            && FetchedIds(r.events) == [held.id]
            && Callbacks(r.events) == [MarkedFailed(held)]
            && Sleeps(r.events) == []
  {
    var ending := [FetchRequest(held.id), Progress(MarkedFailed(held))];
    PairProjections(ending[0], ending[1]);
  }

  /** N non-terminal snapshots and then `completed`: N+1 fetches, N+1 callbacks in
      fetch order, N+1 sleeps of the check frequency, and the completed snapshot is returned. */
  lemma PollRunsToCompletion(task: Task, snapshots: seq<Task>, final: Task, rest: seq<Reply>, checkFrequency: int)
    requires task.state != Completed
    requires StillRunning(snapshots)
    requires final.state == Completed
    ensures var r := Poll(task, Answers(snapshots) + [Answered(final)] + rest, checkFrequency);
            && r.outcome == Resolved(final)
            && Fetches(r.events) == |snapshots| + 1
            && FetchedIds(r.events) == HeldIds(task, snapshots) + [LastHeld(task, snapshots).id]
            && Callbacks(r.events) == snapshots + [final]
            && Sleeps(r.events) == Repeat(checkFrequency, |snapshots| + 1)
  {
    var tail := [Answered(final)] + rest;
    assert Answers(snapshots) + [Answered(final)] + rest == Answers(snapshots) + tail;
    PollThroughRunning(task, snapshots, tail, checkFrequency);
    var after := Poll(LastHeld(task, snapshots), tail, checkFrequency);
    PollOneCompleted(LastHeld(task, snapshots), final, rest, checkFrequency);
    RoundsProjections(task, snapshots, checkFrequency);
    ProjectionsAppend(Rounds(task, snapshots, checkFrequency), after.events);
    RepeatSnoc(checkFrequency, |snapshots|);
  }

  /** N non-terminal snapshots and then `failed`: polling stops (no further fetch, no
      sleep after it), the callback gets the failed snapshot and then its forced copy,
      which is the same snapshot, and the run rejects with 'Failed to generate picture'. */
  lemma PollStopsOnFailedSnapshot(task: Task, snapshots: seq<Task>, failed: Task, rest: seq<Reply>, checkFrequency: int)
    requires task.state != Completed
    requires StillRunning(snapshots)
    requires failed.state == Failed
    ensures var r := Poll(task, Answers(snapshots) + [Answered(failed)] + rest, checkFrequency);
            && r.outcome == FailedState(Wrapped(GenerateFailed, Blank))
            && Fetches(r.events) == |snapshots| + 1
            && Callbacks(r.events) == snapshots + [failed, MarkedFailed(failed)]
            && MarkedFailed(failed) == failed
            && Sleeps(r.events) == Repeat(checkFrequency, |snapshots|)
            && r.events[|r.events| - 1] == Progress(failed)
  {
    var tail := [Answered(failed)] + rest;
    assert Answers(snapshots) + [Answered(failed)] + rest == Answers(snapshots) + tail;
    PollThroughRunning(task, snapshots, tail, checkFrequency);
    var after := Poll(LastHeld(task, snapshots), tail, checkFrequency);
    PollOneFailed(LastHeld(task, snapshots), failed, rest, checkFrequency);
    RoundsProjections(task, snapshots, checkFrequency);
    ProjectionsAppend(Rounds(task, snapshots, checkFrequency), after.events);
  }

  /** N non-terminal snapshots and then a rejected fetch: polling stops, the last callback
      gets the task held before that fetch with only its state forced to `failed`, and
      the fetch's failure is propagated inside 'Failed to generate picture'. */
  lemma PollStopsOnFetchError(task: Task, snapshots: seq<Task>, bad: Reply, rest: seq<Reply>, checkFrequency: int)
    requires task.state != Completed
    requires StillRunning(snapshots)
    requires !bad.Answered?
    ensures var r := Poll(task, Answers(snapshots) + [bad] + rest, checkFrequency);
            && r.outcome == FetchError(Wrapped(GenerateFailed, FetchTaskInfos(bad).error))
            && Fetches(r.events) == |snapshots| + 1
            && Callbacks(r.events) == snapshots + [MarkedFailed(LastHeld(task, snapshots))]
            && Sleeps(r.events) == Repeat(checkFrequency, |snapshots|)
            && r.events[|r.events| - 1] == Progress(MarkedFailed(LastHeld(task, snapshots)))
  {
    var tail := [bad] + rest;
    assert Answers(snapshots) + [bad] + rest == Answers(snapshots) + tail;
    PollThroughRunning(task, snapshots, tail, checkFrequency);
    var after := Poll(LastHeld(task, snapshots), tail, checkFrequency);
    PollOneRejected(LastHeld(task, snapshots), bad, rest, checkFrequency);
    RoundsProjections(task, snapshots, checkFrequency);
    ProjectionsAppend(Rounds(task, snapshots, checkFrequency), after.events);
  }

  lemma RepeatSnoc(ms: int, n: nat)
    ensures Repeat(ms, n + 1) == Repeat(ms, n) + [ms]
  {
  }

  /** The loop's order of effects, read off the trace: every fetch is immediately followed
      by a callback, and every sleep immediately follows a fetch and its callback. */
  lemma {:induction false} PollOrdersEffects(task: Task, replies: seq<Reply>, checkFrequency: int)
    ensures var e := Poll(task, replies, checkFrequency).events;
            && (forall i :: 0 <= i < |e| && e[i].FetchRequest? ==> i + 1 < |e| && e[i + 1].Progress?)
            && (forall i :: 0 <= i < |e| && e[i].Sleep? ==> 2 <= i && e[i - 1].Progress? && e[i - 2].FetchRequest?)
            && (|e| > 0 ==> e[0] == FetchRequest(task.id))
  {
    PollShape(task, replies, checkFrequency);
    ShapedOrdersEffects(Poll(task, replies, checkFrequency).events);
    if task.state != Completed && |replies| > 0 {
      assert Poll(task, replies, checkFrequency).events[0] == FetchRequest(task.id);
    }
  }

  lemma {:induction false} ShapedOrdersEffects(e: seq<Event>)
    requires PollShaped(e)
    ensures forall i :: 0 <= i < |e| && e[i].FetchRequest? ==> i + 1 < |e| && e[i + 1].Progress?
    ensures forall i :: 0 <= i < |e| && e[i].Sleep? ==> 2 <= i && e[i - 1].Progress? && e[i - 2].FetchRequest?
  {
    if |e| >= 3 && e[0].FetchRequest? && e[1].Progress? && e[2].Sleep? && PollShaped(e[3..]) {
      var rest := e[3..];
      ShapedOrdersEffects(rest);
      forall i | 0 <= i < |e| && e[i].FetchRequest?
        ensures i + 1 < |e| && e[i + 1].Progress?
      {
        if i >= 3 {
          assert e[i] == rest[i - 3];
        }
      }
      forall i | 0 <= i < |e| && e[i].Sleep?
        ensures 2 <= i && e[i - 1].Progress? && e[i - 2].FetchRequest?
      {
        if i >= 3 {
          assert e[i] == rest[i - 3];
          assert e[i - 1] == rest[i - 4];
        }
      }
    }
  }

  /** A task already `completed` when created is returned at once: the loop body never runs. */
  lemma CompletedAtCreation(prompt: string, style: int, inputImage: Option<ImageInput>,
                            checkFrequency: int, displayFreq: int,
                            initReply: Reply, configured: Task, replies: seq<Reply>)
    requires initReply.Answered?
    requires configured.state == Completed
    ensures var r := Generation(prompt, style, inputImage, checkFrequency, displayFreq, initReply, Answered(configured), replies);
            && r.outcome == Resolved(configured)
            && Fetches(r.events) == 0 && Callbacks(r.events) == [] && Sleeps(r.events) == []
  {
    var created := CreateTask(prompt, style, inputImage, displayFreq, initReply, Answered(configured));
    assert created.events + [] == created.events;
    RequestsOnlyProjectNothing(created.events);
  }

  /** End to end: with N non-terminal snapshots and then `completed`, `generatePicture`
      sends one init and one configure request, then behaves as `PollRunsToCompletion` says. */
  lemma GenerationCompletes(prompt: string, style: int, inputImage: Option<ImageInput>,
                            checkFrequency: int, displayFreq: int,
                            initialised: Task, configured: Task,
                            snapshots: seq<Task>, final: Task, rest: seq<Reply>)
    requires configured.state != Completed
    requires StillRunning(snapshots)
    requires final.state == Completed
    ensures var r := Generation(prompt, style, inputImage, checkFrequency, displayFreq,
                                Answered(initialised), Answered(configured),
                                Answers(snapshots) + [Answered(final)] + rest);
            && r.outcome == Resolved(final)
            && r.events[..2] == [InitRequest, ConfigureRequest(initialised.id, ConfigurationSpec(prompt, style, inputImage, displayFreq))]
            && Fetches(r.events) == |snapshots| + 1
            && Callbacks(r.events) == snapshots + [final]
            && Sleeps(r.events) == Repeat(checkFrequency, |snapshots| + 1)
  {
    var created := CreateTask(prompt, style, inputImage, displayFreq, Answered(initialised), Answered(configured));
    var polled := Poll(configured, Answers(snapshots) + [Answered(final)] + rest, checkFrequency);
    PollRunsToCompletion(configured, snapshots, final, rest, checkFrequency);
    ProjectionsAppend(created.events, polled.events);
    RequestsOnlyProjectNothing(created.events);
  }

  /** The test scenario: the created task and ten fetched snapshots are `generating`, the
      eleventh is `completed`, and there is no delay between polls. Eleven fetches, eleven
      callbacks, eleven zero-length sleeps, and the completed task is returned. */
  lemma TenGeneratingThenCompleted(task: Task)
    requires task.state == Generating
    ensures var snapshots := seq(10, i => task);
            var r := Poll(task, Answers(snapshots) + [Answered(task.(state := Completed))], 0);
            && r.outcome == Resolved(task.(state := Completed))
            && Fetches(r.events) == 11
            && Callbacks(r.events) == snapshots + [task.(state := Completed)]
            && Sleeps(r.events) == Repeat(0, 11)
  {
    var snapshots := seq(10, i => task);
    assert Answers(snapshots) + [Answered(task.(state := Completed))] + []
      == Answers(snapshots) + [Answered(task.(state := Completed))];
    PollRunsToCompletion(task, snapshots, task.(state := Completed), [], 0);
  }

  /** With the default arguments (no input image, the default display and check
      frequencies), configuring asks for a display frequency of 10 and every delay
      between two status fetches is 1000 milliseconds. */
  lemma DefaultArguments(prompt: string, style: int, initReply: Reply, configureReply: Reply, replies: seq<Reply>)
    ensures var r := Generation(prompt, style, None, DefaultCheckFreq, DefaultDisplayFreq, initReply, configureReply, replies);
            && (initReply.Answered? ==>
                  |r.events| >= 2 && r.events[1] == ConfigureRequest(initReply.task.id, InputSpec(style, prompt, Some(10), None)))
            && forall i :: 0 <= i < |Sleeps(r.events)| ==> Sleeps(r.events)[i] == 1000
  {
    var created := CreateTask(prompt, style, None, DefaultDisplayFreq, initReply, configureReply);
    if created.task.Ok? {
      var polled := Poll(created.task.value, replies, DefaultCheckFreq);
      ProjectionsAppend(created.events, polled.events);
      RequestsOnlyProjectNothing(created.events);
      PollSleepsAtCheckFrequency(created.task.value, replies, DefaultCheckFreq);
    }
  }
}
