/** Concrete interleavings: two in which a request is lost because its id had two holders, and one in
    which a request is left pending for good. */
module CompletionLosses {
  import opened Common
  import Executions
  import opened TaskManagement
  import opened Completion
  import opened CompletionProofs

  lemma Fire(s: State, step: Step, i: nat, at: Stage, e: Effect) returns (s': State)
    requires Reachable(s) && i < |s.tasks| && s.tasks[i].at == at
    requires !step.WatcherSeesProducer? && !step.WatcherWakes? && !step.WatcherChecks? && step.i == i
    requires TaskEffect(s.ledger, Head(s.queue), step, at) == Some(e)
    requires e.queue.Take? ==> s.queue != []
    ensures Reachable(s') && s' == Apply(s, i, e)
  {
    s' := Extend(s, step);
  }

  predicate Resting(t: Task) {
    Fits(t) && (t.at.Gone? || t.at.LoopWaiting?)
  }

  /** Before the watcher has looked, only task k is busy, at stage `at`; task 1 is a scheduler loop. */
  ghost predicate Only(s: State, k: nat, at: Stage) {
    && Reachable(s) && s.watcher == AwaitProducer
    && 1 < |s.tasks| && k < |s.tasks| && s.tasks[k].at == at && s.tasks[1].role == LOOP && Fits(s.tasks[k])
    && forall i :: 0 <= i < |s.tasks| && i != k ==> Resting(s.tasks[i])
  }

  lemma StaysOnly(s: State, k: nat, e: Effect)
    requires k < |s.tasks| && 1 < |s.tasks| && s.tasks[1].role == LOOP && (e.queue.Take? ==> s.queue != [])
    requires forall i :: 0 <= i < |s.tasks| && i != k ==> Resting(s.tasks[i])
    requires Fits(s.tasks[k].(at := e.at)) && (e.created.Some? ==> Fits(e.created.value) && (e.at.Gone? || e.at.LoopWaiting?))
    ensures var tasks := Apply(s, k, e).tasks;
            && tasks[1].role == LOOP && tasks[k] == s.tasks[k].(at := e.at)
            && |tasks| == |s.tasks| + (if e.created.Some? then 1 else 0)
            && (e.created.Some? ==> tasks[|s.tasks|] == e.created.value)
            && forall i :: 0 <= i < |tasks| && i != (if e.created.Some? then |s.tasks| else k) ==> Resting(tasks[i])
  {
  }

  /** The busy task moves on, or hands over to a task it creates. */
  lemma MoveOn(s: State, step: Step, k: nat, at: Stage, e: Effect) returns (s': State)
    requires Only(s, k, at) && !step.WatcherSeesProducer? && !step.WatcherWakes? && !step.WatcherChecks? && step.i == k
    requires TaskEffect(s.ledger, Head(s.queue), step, at) == Some(e)
    requires e.created.Some? ==> e.at.Gone? || e.at.LoopWaiting?
    ensures s' == Apply(s, k, e)
    ensures e.created.None? ==> Only(s', k, e.at)
    ensures e.created.Some? ==> Only(s', |s.tasks|, e.created.value.at)
  {
    EffectsFit(s.ledger, Head(s.queue), step, s.tasks[k]);
    s' := Fire(s, step, k, at, e);
    StaysOnly(s, k, e);
  }

  function Yielded(): State {
    State(EMPTY_LEDGER, [Task(PRODUCER, Producing), Task(LOOP, LoopWaiting), Task(OUTPUT, StartOutput)], [], AwaitProducer, {})
  }

  lemma OneYield() returns (s: State)
    ensures Reachable(s) && s == Yielded()
  {
    s := Initial(1);
    InitiallyReachable(1);
    assert s.tasks == [Task(PRODUCER, Producing), Task(LOOP, LoopWaiting)];
    s := Fire(s, ProducerYields(0), 0, Producing, Effect(Producing, Some(Task(OUTPUT, StartOutput)), Keep, Same, None));
  }

  /** A finite producer has yielded one start request. */
  lemma OneStartOutput() returns (s: State)
    ensures Only(s, 2, StartOutput) && |s.tasks| == 3 && s.queue == [] && s.ledger == EMPTY_LEDGER && s.shared == {}
  {
    s := OneYield();
    s := Fire(s, ProducerEnds(0), 0, Producing, Effect(Gone, None, Keep, Same, None));
  }

  lemma OneResult() returns (s: State)
    ensures Only(s, 3, Managing(None)) && |s.tasks| == 4 && s.queue == [] && s.ledger == EMPTY_LEDGER && s.shared == {}
  {
    s := OneStartOutput();
    s := Fire(s, StartEmits(2, None), 2, StartOutput, Effect(StartOutput, Some(Task(RESULT, Managing(None))), Keep, Same, None));
    s := Fire(s, StartEnds(2), 2, StartOutput, Effect(Gone, None, Keep, Same, None));
  }

  lemma OneEnqueue() returns (s: State)
    ensures Only(s, 4, Putting(1)) && |s.tasks| == 5 && s.queue == [] && s.ledger == Ledger(1, {1}, false) && s.shared == {}
  {
    s := OneResult();
    s := MoveOn(s, ResultReschedules(3), 3, Managing(None), Effect(Gone, Some(Task(ENQUEUE, Enqueueing(None))), Keep, Same, None));
    s := MoveOn(s, EnqueueTracks(4), 4, Enqueueing(None), Effect(Putting(1), None, TrackMeta(None), Same, None));
  }

  lemma OneHeldRequest() returns (s: State)
    ensures Only(s, 1, LoopHolding(1)) && |s.tasks| == 5 && s.queue == [] && s.ledger == Ledger(1, {1}, false) && s.shared == {}
  {
    s := OneEnqueue();
    s := MoveOn(s, PutAccepts(4), 4, Putting(1), Effect(Gone, None, Keep, Append(1), None));
    s := MoveOn(s, LoopGets(1), 1, LoopWaiting, Effect(LoopHolding(1), None, Keep, Take, None));
  }

  lemma OneDownload() returns (s: State)
    ensures Only(s, 6, Downloading(1)) && |s.tasks| == 7 && s.queue == [] && s.ledger == Ledger(1, {1}, false) && s.shared == {}
  {
    s := OneHeldRequest();
    s := MoveOn(s, LoopDispatches(1), 1, LoopHolding(1), Effect(LoopWaiting, Some(Task(CHAIN, Chaining(1))), Keep, Same, None));
    s := MoveOn(s, ChainDownloads(5), 5, Chaining(1), Effect(Gone, Some(Task(DOWNLOADER, Downloading(1))), Keep, Same, None));
  }

  lemma OneCallback() returns (s: State)
    ensures Only(s, 7, SourceOutput(1, false)) && s.queue == [] && s.ledger == Ledger(1, {1}, false)
  {
    s := OneDownload();
    s := MoveOn(s, DownloadAnswers(6), 6, Downloading(1), Effect(Chaining(1), None, Keep, Same, None));
    s := MoveOn(s, ChainCallsBack(6), 6, Chaining(1), Effect(Gone, Some(Task(OUTPUT, SourceOutput(1, false))), Keep, Same, None));
  }

  lemma OneReyield() returns (s: State)
    ensures Only(s, 7, SourcePutting(1, false, 1)) && s.queue == [] && s.ledger == Ledger(1, {1}, false)
  {
    s := OneCallback();
    s := MoveOn(s, SourceEmits(7, Some(1)), 7, SourceOutput(1, false),
                Effect(SourcePutting(1, false, 1), None, TrackMeta(Some(1)), Same, Some(1)));
  }

  lemma OneReyieldQueued() returns (s: State)
    ensures Only(s, 7, SourceOutput(1, false)) && s.queue == [1] && s.ledger == Ledger(1, {1}, false)
  {
    s := OneReyield();
    s := MoveOn(s, SourcePutAccepts(7), 7, SourcePutting(1, false, 1), Effect(SourceOutput(1, false), None, Keep, Append(1), None));
  }

  lemma Completed(s: State, k: nat) returns (s': State)
    requires Only(s, k, Gone) && s.ledger == Ledger(1, {}, true)
    ensures Reachable(s') && s' == s.(watcher := Returned)
  {
    CompletionIsDetected(s);
    s' := s.(watcher := Returned);
    Executions.Joins(IsInitial, CanStep, s, s');
  }

  /** A callback that yields its own response's request again: the request is accepted back into the
      queue under the id that the end of the callback then releases, and the crawl is declared
      complete with that request still queued. */
  lemma ReyieldedRequestIsLost()
    ensures exists s :: Reachable(s) && s.watcher == Returned && s.queue == [1]
  {
    var s := OneReyieldQueued();
    s := MoveOn(s, SourceEnds(7), 7, SourceOutput(1, false), Effect(Gone, None, ReleaseId(1), Same, None));
    s := Completed(s, 7);
  }

  lemma OneSocket() returns (s: State)
    ensures Only(s, 7, SocketOpen(1)) && |s.tasks| == 8 && s.queue == [] && s.ledger == Ledger(1, {1}, false)
  {
    s := OneDownload();
    s := MoveOn(s, DownloadOpensSocket(6), 6, Downloading(1), Effect(Gone, Some(Task(SOCKET, SocketOpen(1))), Keep, Same, None));
  }

  lemma OneSocketRetry() returns (s: State)
    ensures Reachable(s) && |s.tasks| == 9 && s.tasks[7].at == SocketOpen(1) && s.tasks[8].at == Enqueueing(Some(1))
    ensures s.watcher == AwaitProducer && s.queue == [] && s.ledger == Ledger(1, {1}, false) && s.tasks[1].role == LOOP
    ensures Fits(s.tasks[7]) && Fits(s.tasks[8]) && forall i :: 0 <= i < 7 ==> Resting(s.tasks[i])
  {
    s := OneSocket();
    s := Fire(s, SocketReschedules(7, Some(1)), 7, SocketOpen(1),
              Effect(SocketOpen(1), Some(Task(ENQUEUE, Enqueueing(Some(1)))), Keep, Same, Some(1)));
  }

  lemma OneQueuedRetry() returns (s: State)
    ensures Only(s, 7, SocketOpen(1)) && s.queue == [1] && s.ledger == Ledger(1, {1}, false)
  {
    s := OneSocketRetry();
    s := Fire(s, EnqueueTracks(8), 8, Enqueueing(Some(1)), Effect(Putting(1), None, TrackMeta(Some(1)), Same, None));
    s := Fire(s, PutAccepts(8), 8, Putting(1), Effect(Gone, None, Keep, Append(1), None));
  }

  /** A WebSocket whose failed connection is retried by an interceptor: the retry is queued before
      the connecting task releases the id, with the same result. */
  lemma RetriedSocketIsLost()
    ensures exists s :: Reachable(s) && s.watcher == Returned && s.queue == [1]
  {
    var s := OneQueuedRetry();
    s := MoveOn(s, SocketCloses(7), 7, SocketOpen(1), Effect(Gone, None, ReleaseId(1), Same, None));
    s := Completed(s, 7);
  }

  lemma {:induction false} RestingHoldNothing(tasks: seq<Task>, k: nat, id: Id)
    requires forall i :: 0 <= i < |tasks| && i != k ==> Resting(tasks[i])
    requires k < |tasks| ==> Holds(tasks[k].at, id) == 0
    ensures TaskHolds(tasks, id) == 0
  {
    if tasks != [] {
      RestingHoldNothing(tasks[..|tasks| - 1], k, id);
    }
  }

  /** An interceptor that answers a request with a fresh one: the request it replaces stays pending and
      nobody is left to release it. */
  lemma ReplacedRequestIsAbandoned() returns (s: State)
    ensures Reachable(s) && s.watcher != Returned && Abandoned(s, 1)
  {
    s := OneHeldRequest();
    s := MoveOn(s, LoopDispatches(1), 1, LoopHolding(1), Effect(LoopWaiting, Some(Task(CHAIN, Chaining(1))), Keep, Same, None));
    s := MoveOn(s, ChainReschedules(5, None), 5, Chaining(1), Effect(Gone, Some(Task(ENQUEUE, Enqueueing(None))), Keep, Same, None));
    RestingHoldNothing(s.tasks, 6, 1);
  }
}
