/** The process manager of scrapy_cffi/utils/ffmpeg.py: handles, their runners, the semaphore, and
    callers that stop or kill a handle at any moment. */
module FFmpeg {
  import opened Common
  import Executions

  // ------------------------------------------------------------ output tails

  /** The last `limit` bytes. */
  function Tail<T>(all: seq<T>, limit: nat): seq<T> {
    if |all| <= limit then all else all[|all| - limit..]
  }

  class TailBuffer {
    const limit: nat
    var data: seq<nat>
    ghost var all: seq<nat>

    ghost predicate Valid()
      reads this
    {
      data == Tail(all, limit)
    }

    constructor (limit: nat)
      ensures Valid() && this.limit == limit && all == []
    {
      this.limit, data, all := limit, [], [];
    }

    method Append(chunk: seq<nat>)
      requires Valid()
      modifies this
      ensures Valid() && all == old(all) + chunk
    {
      all := all + chunk;
      if limit == 0 {
        return;
      }
      data := data + chunk;
      var overflow := |data| - limit;
      if overflow > 0 {
        data := data[overflow..];
      }
    }
  }

  // ------------------------------------------------------------ handles

  datatype ProcessState = QUEUED | STARTING | RUNNING | STOPPING | SUCCEEDED | FAILED | CANCELLED | KILLED

  predicate Terminal(s: ProcessState) {
    s in {SUCCEEDED, FAILED, CANCELLED, KILLED}
  }

  datatype Process = NoProcess | Alive | Exited(code: int)

  /** Where the runner task is awaiting; the slot is held from Creating to Draining, and a runner that was
      cancelled while draining is over without having given it back: Leaked. */
  datatype Runner = Fresh | Waiting | Creating | Feeding | AwaitingExit | Gathering | Killing | Draining | Gone | Leaked

  datatype Result = Result(state: ProcessState, returncode: Option<int>)

  datatype Handle = Handle(
    state: ProcessState,
    process: Process,
    runner: Runner,
    stopRequested: bool,
    killRequested: bool,
    callbackFailed: bool,
    cancelPending: bool,          // stop() or kill() has cancelled the queued runner
    lost: bool,                   // history: cancelled from outside where the runner does not settle it
    inputFailed: bool,            // history: writing the input raised
    tracked: bool,                // in _processes
    completion: Option<Result>)

  const QUEUED_HANDLE := Handle(QUEUED, NoProcess, Fresh, false, false, false, false, false, false, true, None)

  /** _complete: the first result is the only one. */
  function Completed(h: Handle, state: ProcessState): Handle {
    if h.completion.Some? then h
    else
      h.(state := state, tracked := false,
         completion := Some(Result(state, if h.process.Exited? then Some(h.process.code) else None)))
  }

  function CompletedCancelled(h: Handle): Handle {
    Completed(h, if h.killRequested then KILLED else CANCELLED)
  }

  /** _terminal_state, then the callback check. */
  function ExitState(h: Handle): ProcessState
    requires h.process.Exited?
  {
    var state := if h.killRequested then KILLED
                 else if h.stopRequested then CANCELLED
                 else if h.process.code == 0 then SUCCEEDED
                 else FAILED;
    if h.callbackFailed && !h.stopRequested then FAILED else state
  }

  predicate Holds(r: Runner) {
    r in {Creating, Feeding, AwaitingExit, Gathering, Killing, Draining, Leaked}
  }

  // ------------------------------------------------------------ steps of one handle

  datatype Move =
    | Stop | Kill                 // a caller's stop() or kill(), up to its first await
    | Escalate                    // stop(): the process outlived both timeouts
    | Begin                       // the runner's first step
    | Grant                       // the semaphore lets the runner in
    | DeliverCancel               // the cancelled queued runner wakes up
    | Created(ok: bool)
    | Fed(ok: bool)               // the input is written, or writing it raises
    | CallbackFails
    | Exit(code: int)             // the operating system ends the process
    | SeeExit
    | Gathered(ok: bool)          // the stream tasks end, or one raises
    | Interrupt                   // the runner is cancelled from outside
    | SeeKilled
    | Drained                     // the finally block ends and releases the slot

  function Stopped(h: Handle, kill: bool): Handle {
    if Terminal(h.state) then h
    else
      var asked := h.(stopRequested := true, killRequested := h.killRequested || kill);
      if h.process.NoProcess? then
        if h.state == QUEUED then CompletedCancelled(asked.(cancelPending := true)) else asked
      else asked.(state := STOPPING)
  }

  function Granted(h: Handle): Handle {
    if h.stopRequested then CompletedCancelled(h).(runner := Draining)
    else h.(state := STARTING, runner := Creating)
  }

  function Interrupted(h: Handle): Handle {
    if h.runner == Fresh then h.(runner := Gone, lost := h.completion.None?)
    else if h.runner == Waiting then CompletedCancelled(h).(runner := Gone)
    else if h.runner == Killing then h.(runner := Draining, lost := true)
    else if h.runner == Draining then h.(runner := Leaked)
    else if h.process == Alive then h.(killRequested := true, runner := Killing)
    else CompletedCancelled(h).(runner := Draining)
  }

  /** A handle after a move that is possible for it. */
  function Moved(h: Handle, m: Move): Option<Handle> {
    match m
    case Stop => Some(Stopped(h, false))
    case Kill => Some(Stopped(h, true))
    case Escalate => if h.stopRequested && h.process != NoProcess then Some(h.(killRequested := true)) else None
    case Begin => if h.runner == Fresh && !h.cancelPending then Some(h.(runner := Waiting)) else None
    case Grant => if h.runner == Waiting && !h.cancelPending then Some(Granted(h)) else None
    case DeliverCancel =>
      if h.cancelPending && h.runner in {Fresh, Waiting} then
        Some(if h.runner == Fresh then h.(runner := Gone) else CompletedCancelled(h).(runner := Gone))
      else None
    case Created(ok) =>
      if h.runner != Creating then None
      else if ok then Some(h.(process := Alive, state := RUNNING, runner := Feeding))
      else Some(Completed(h, FAILED).(runner := Draining))
    case Fed(ok) =>
      if h.runner != Feeding then None
      else if ok then Some(h.(runner := AwaitingExit))
      else Some(Completed(h, FAILED).(runner := Draining, inputFailed := true))
    case CallbackFails =>
      if h.runner in {Feeding, AwaitingExit, Gathering, Killing, Draining} && h.process != NoProcess && h.completion.None?
      then Some(h.(callbackFailed := true)) else None
    case Exit(code) => if h.process == Alive then Some(h.(process := Exited(code))) else None
    case SeeExit => if h.runner == AwaitingExit && h.process.Exited? then Some(h.(runner := Gathering)) else None
    case Gathered(ok) =>
      if h.runner != Gathering || !h.process.Exited? then None
      else Some(Completed(h, if ok then ExitState(h) else FAILED).(runner := Draining))
    case Interrupt =>   // without a process there are no streams to await while draining
      if h.runner in {Gone, Leaked} || (h.runner == Draining && h.process == NoProcess) then None else Some(Interrupted(h))
    case SeeKilled =>
      if h.runner == Killing && h.process.Exited? then Some(CompletedCancelled(h).(runner := Draining)) else None
    case Drained => if h.runner == Draining then Some(h.(runner := Gone)) else None
  }

  // ------------------------------------------------------------ the handle in place

  /** The fields of FFmpegProcess, and how stop(), kill() and the runner change them. */
  class FFmpegProcess {
    var state: ProcessState
    var process: Process
    var stopRequested: bool
    var forceKillRequested: bool
    var cancelPending: bool
    var tracked: bool
    var completion: Option<Result>
    ghost var runner: Runner
    ghost var callbackFailed: bool
    ghost var lost: bool
    ghost var inputFailed: bool

    ghost function View(): Handle
      reads this
    {
      Handle(state, process, runner, stopRequested, forceKillRequested, callbackFailed, cancelPending, lost, inputFailed, tracked, completion)
    }

    constructor ()
      ensures View() == QUEUED_HANDLE
    {
      state, process, completion, tracked := QUEUED, NoProcess, None, true;
      stopRequested, forceKillRequested, cancelPending := false, false, false;
      runner, callbackFailed, lost, inputFailed := Fresh, false, false, false;
    }

    /** _complete */
    method Complete(terminal: ProcessState)
      modifies this`state, this`tracked, this`completion
      ensures View() == Completed(old(View()), terminal)
    {
      if completion.Some? {
        return;
      }
      state := terminal;
      completion := Some(Result(terminal, if process.Exited? then Some(process.code) else None));
      tracked := false;
    }

    /** _complete_cancelled */
    method CompleteCancelled()
      modifies this`state, this`tracked, this`completion
      ensures View() == CompletedCancelled(old(View()))
    {
      Complete(if forceKillRequested then KILLED else CANCELLED);
    }

    /** stop() and kill() up to their first await. */
    method RequestStop(kill: bool)
      modifies this`state, this`tracked, this`completion, this`stopRequested, this`forceKillRequested, this`cancelPending
      ensures View() == Stopped(old(View()), kill)
    {
      if state in {SUCCEEDED, FAILED, CANCELLED, KILLED} {
        return;
      }
      stopRequested := true;
      if kill {
        forceKillRequested := true;
      }
      if process.NoProcess? {
        if state == QUEUED {
          cancelPending := true;
          CompleteCancelled();
        }
        return;
      }
      state := STOPPING;
    }

    /** The end of _execute: the exit code is known and the streams are drained. */
    method Settle(callbackErrors: bool)
      requires runner == Gathering && process.Exited? && callbackErrors == callbackFailed
      modifies this`state, this`tracked, this`completion, this`runner
      ensures Some(View()) == Moved(old(View()), Gathered(true))
    {
      var terminal := FAILED;
      if forceKillRequested {
        terminal := KILLED;
      } else if stopRequested {
        terminal := CANCELLED;
      } else if process.code == 0 {
        terminal := SUCCEEDED;
      }
      if callbackErrors && !stopRequested {
        terminal := FAILED;
      }
      Complete(terminal);
      runner := Draining;
    }
  }

  // ------------------------------------------------------------ the manager

  datatype Manager = Manager(handles: seq<Handle>, max: Option<nat>, free: nat)

  datatype Step = Create | Move(i: nat, m: Move)

  function SlotsAfter(free: nat, before: Handle, after: Handle): int {
    free - (if Holds(after.runner) then 1 else 0) + (if Holds(before.runner) then 1 else 0)
  }

  /** With a limit, a slot is taken as the runner enters and given back as it leaves. */
  function Next(s: Manager, step: Step): Option<Manager> {
    match step
    case Create => Some(s.(handles := s.handles + [QUEUED_HANDLE]))
    case Move(i, m) =>
      if i >= |s.handles| || Moved(s.handles[i], m).None? then None
      else
        var h, t := s.handles[i], Moved(s.handles[i], m).value;
        if s.max.None? then Some(s.(handles := s.handles[i := t]))
        else if SlotsAfter(s.free, h, t) < 0 then None
        else Some(s.(handles := s.handles[i := t], free := SlotsAfter(s.free, h, t)))
  }

  function Initial(max: Option<nat>): Manager {
    Manager([], max, if max.Some? then max.value else 0)
  }

  predicate IsInitial(s: Manager) {
    s == Initial(s.max)
  }

  ghost predicate CanStep(s: Manager, t: Manager) {
    exists step :: Next(s, step) == Some(t)
  }

  ghost predicate Reachable(s: Manager) {
    Executions.Reaches(IsInitial, CanStep, s)
  }

  // ------------------------------------------------------------ one handle's invariant

  /** Terminal, settled and untracked are the same thing; a runner that has left its handle unsettled
      was cancelled before it began or a second time; any other live tracked process has a runner that
      holds a slot; and only a failed input settles a handle whose process lives. */
  predicate Consistent(h: Handle) {
    && (h.completion.Some? <==> Terminal(h.state)) && (h.tracked <==> h.completion.None?)
    && (h.completion.Some? ==> h.completion.value.state == h.state)
    && (h.completion.None? && h.runner in {Draining, Gone, Leaked} ==> h.lost)
    && (h.runner in {Fresh, Waiting, Creating} ==> h.process == NoProcess)
    && (h.runner in {Feeding, AwaitingExit, Gathering, Killing} ==> h.process != NoProcess)
    && (h.state == QUEUED ==> h.runner in {Fresh, Waiting} || h.lost)
    && (h.runner in {Creating, Feeding, AwaitingExit, Gathering, Killing} ==> h.completion.None?)
    && (h.runner in {Fresh, Waiting} && h.completion.None? ==> h.state == QUEUED && !h.cancelPending && !h.stopRequested)
    && (h.runner in {Fresh, Waiting} && h.completion.Some? ==> h.cancelPending)
    && (h.cancelPending ==> h.process == NoProcess && h.runner in {Fresh, Waiting, Gone})
    && (h.lost ==> h.runner in {Draining, Gone, Leaked})
    && (h.completion.Some? && h.process == Alive ==> h.inputFailed)
    && (h.inputFailed ==> h.completion.Some? && h.process != NoProcess)
    && (h.lost && h.process == NoProcess ==> h.runner == Gone)
    && (h.runner == Gathering ==> h.process.Exited?)
    && (h.state == KILLED ==> h.killRequested)
    && (h.state == SUCCEEDED ==>
          && h.process == Exited(0) && !h.stopRequested && !h.callbackFailed
          && h.completion == Some(Result(SUCCEEDED, Some(0))))
  }

  lemma StopKeepsConsistent(h: Handle, kill: bool)
    requires Consistent(h)
    ensures Consistent(Stopped(h, kill))
  {
  }

  lemma StartKeepsConsistent(h: Handle, ok: bool)
    requires Consistent(h) && h.runner == Creating
    ensures Consistent(Moved(h, Created(ok)).value)
  {
  }

  lemma InputKeepsConsistent(h: Handle, ok: bool)
    requires Consistent(h) && h.runner == Feeding
    ensures Consistent(Moved(h, Fed(ok)).value)
  {
  }

  lemma InterruptKeepsConsistent(h: Handle)
    requires Consistent(h) && Moved(h, Interrupt).Some?
    ensures Consistent(Interrupted(h))
  {
    match h.runner
    case Fresh =>
    case Waiting =>
    case Creating =>
    case Feeding =>
    case AwaitingExit =>
    case Gathering =>
    case Killing =>
    case Draining =>
    case _ =>
  }

  lemma QueuedKeepsConsistent(h: Handle, m: Move)
    requires Consistent(h) && Moved(h, m).Some? && (m.Begin? || m.Grant? || m.DeliverCancel?)
    ensures Consistent(Moved(h, m).value)
  {
  }

  lemma EndKeepsConsistent(h: Handle, m: Move)
    requires Consistent(h) && Moved(h, m).Some? && (m.SeeExit? || m.Gathered? || m.SeeKilled? || m.Drained?)
    ensures Consistent(Moved(h, m).value)
  {
  }

  lemma MoveKeepsConsistent(h: Handle, m: Move)
    requires Consistent(h) && Moved(h, m).Some?
    ensures Consistent(Moved(h, m).value)
  {
    match m
    case Stop => StopKeepsConsistent(h, false);
    case Kill => StopKeepsConsistent(h, true);
    case Begin => QueuedKeepsConsistent(h, m);
    case Grant => QueuedKeepsConsistent(h, m);
    case DeliverCancel => QueuedKeepsConsistent(h, m);
    case Interrupt => InterruptKeepsConsistent(h);
    case Escalate =>
    case CallbackFails =>
    case Exit(_) =>
    case SeeExit => EndKeepsConsistent(h, m);
    case Gathered(_) => EndKeepsConsistent(h, m);
    case SeeKilled => EndKeepsConsistent(h, m);
    case Drained => EndKeepsConsistent(h, m);
    case Created(ok) => StartKeepsConsistent(h, ok);
    case Fed(ok) => InputKeepsConsistent(h, ok);
  }

  // ------------------------------------------------------------ slots

  function Holding(handles: seq<Handle>): nat {
    if handles == [] then 0
    else Holding(handles[..|handles| - 1]) + (if Holds(handles[|handles| - 1].runner) then 1 else 0)
  }

  lemma {:induction false} HoldingAfter(handles: seq<Handle>, i: nat, t: Handle)
    requires i < |handles|
    ensures Holding(handles[i := t])
         == Holding(handles) - (if Holds(handles[i].runner) then 1 else 0) + (if Holds(t.runner) then 1 else 0)
  {
    var last := |handles| - 1;
    if i == last {
      assert handles[i := t][..last] == handles[..last];
    } else {
      HoldingAfter(handles[..last], i, t);
      assert handles[i := t][..last] == handles[..last][i := t];
    }
  }

  predicate LiveAndTracked(h: Handle) {
    h.tracked && h.process == Alive
  }

  /** active_count */
  function ActiveCount(handles: seq<Handle>): nat {
    if handles == [] then 0
    else ActiveCount(handles[..|handles| - 1]) + (if LiveAndTracked(handles[|handles| - 1]) then 1 else 0)
  }

  function LostCount(handles: seq<Handle>): nat {
    if handles == [] then 0 else LostCount(handles[..|handles| - 1]) + (if handles[|handles| - 1].lost then 1 else 0)
  }

  lemma {:induction false} NoneLost(handles: seq<Handle>)
    ensures (forall i :: 0 <= i < |handles| ==> !handles[i].lost) ==> LostCount(handles) == 0
  {
    if handles != [] {
      NoneLost(handles[..|handles| - 1]);
    }
  }

  lemma {:induction false} ActiveHoldSlots(handles: seq<Handle>)
    requires forall h :: h in handles ==> Consistent(h)
    ensures ActiveCount(handles) <= Holding(handles) + LostCount(handles)
  {
    if handles != [] {
      assert handles[|handles| - 1] in handles;
      ActiveHoldSlots(handles[..|handles| - 1]);
    }
  }

  /** Slots that nobody will give back. */
  function LeakedCount(handles: seq<Handle>): nat {
    if handles == [] then 0
    else LeakedCount(handles[..|handles| - 1]) + (if handles[|handles| - 1].runner == Leaked then 1 else 0)
  }

  lemma {:induction false} LeakedHoldSlots(handles: seq<Handle>)
    ensures LeakedCount(handles) <= Holding(handles)
  {
    if handles != [] {
      LeakedHoldSlots(handles[..|handles| - 1]);
    }
  }

  lemma {:induction false} LeakedAfter(handles: seq<Handle>, i: nat, t: Handle)
    requires i < |handles|
    ensures LeakedCount(handles[i := t])
         == LeakedCount(handles) - (if handles[i].runner == Leaked then 1 else 0) + (if t.runner == Leaked then 1 else 0)
  {
    var last := |handles| - 1;
    if i == last {
      assert handles[i := t][..last] == handles[..last];
    } else {
      LeakedAfter(handles[..last], i, t);
      assert handles[i := t][..last] == handles[..last][i := t];
    }
  }

  ghost predicate Invariant(s: Manager) {
    && (forall i :: 0 <= i < |s.handles| ==> Consistent(s.handles[i]))
    && (s.max.Some? ==> s.free + Holding(s.handles) == s.max.value)
  }

  lemma StepKeepsInvariant(s: Manager, step: Step)
    requires Invariant(s) && Next(s, step).Some?
    ensures Invariant(Next(s, step).value)
  {
    match step
    case Create => assert (s.handles + [QUEUED_HANDLE])[..|s.handles|] == s.handles;
    case Move(i, m) =>
      MoveKeepsConsistent(s.handles[i], m);
      HoldingAfter(s.handles, i, Moved(s.handles[i], m).value);
  }

  lemma ReachableIsInvariant(s: Manager)
    requires Reachable(s)
    ensures Invariant(s)
  {
    forall u, v | Invariant(u) && CanStep(u, v) ensures Invariant(v) {
      var step :| Next(u, step) == Some(v);
      StepKeepsInvariant(u, step);
    }
    Executions.Induction(IsInitial, CanStep, Invariant, s);
  }

  // ------------------------------------------------------------ what holds

  /** Terminal states absorb: once a handle is settled, no move of a caller, the runner or the process
      changes its state or its result. */
  lemma SettledForGood(h: Handle, m: Move)
    requires Consistent(h) && h.completion.Some? && Moved(h, m).Some?
    ensures Moved(h, m).value.completion == h.completion && Moved(h, m).value.state == h.state
  {
  }

  /** In every reachable state a handle is tracked exactly while it is unsettled, and success means
      exit code zero, no stop request and no failed callback. */
  lemma HandlesAreSound(s: Manager, i: nat)
    requires Reachable(s) && i < |s.handles|
    ensures var h := s.handles[i];
            && (h.tracked <==> h.completion.None?) && (h.completion.Some? <==> Terminal(h.state))
            && (h.state == SUCCEEDED ==>
                  h.process == Exited(0) && !h.stopRequested && !h.callbackFailed && h.completion.value.returncode == Some(0))
            && (h.state == KILLED ==> h.killRequested)
  {
    ReachableIsInvariant(s);
  }

  /** How a process that was seen to exit, with its streams drained, is reported: each state for exactly
      these stop requests, callbacks and exit codes. */
  lemma ExitIsClassified(h: Handle)
    requires Consistent(h) && h.runner == Gathering
    ensures Moved(h, Gathered(true)).Some?
    ensures var state := Moved(h, Gathered(true)).value.state;
            && (state == SUCCEEDED <==> h.process.code == 0 && !h.stopRequested && !h.killRequested && !h.callbackFailed)
            && (state == KILLED <==> h.killRequested && (h.stopRequested || !h.callbackFailed))
            && (state == CANCELLED <==> h.stopRequested && !h.killRequested)
            && (state == FAILED <==> !h.stopRequested && (h.callbackFailed || (!h.killRequested && h.process.code != 0)))
            && Moved(h, Gathered(true)).value.completion == Some(Result(state, Some(h.process.code)))
  {
  }

  lemma HeldStaysHeld(h: Handle, m: Move)
    requires Consistent(h) && Moved(h, m).Some?
    ensures !Holds(h.runner) && Holds(Moved(h, m).value.runner) ==> m == Grant
    ensures m == Grant ==> !Holds(h.runner) && Holds(Moved(h, m).value.runner)
  {
  }

  /** Every step of the manager is one of one handle, and nothing but a missing slot delays one: only a
      runner that waits for the semaphore can be held up. */
  lemma OnlyGrantsWait(s: Manager, i: nat, m: Move)
    requires Reachable(s) && i < |s.handles| && Moved(s.handles[i], m).Some?
    ensures Next(s, Step.Move(i, m)).None? <==> m == Grant && s.max.Some? && s.free == 0
    ensures Next(s, Step.Move(i, m)).Some? ==>
              var t := Next(s, Step.Move(i, m)).value;
              t.handles == s.handles[i := Moved(s.handles[i], m).value] && t.max == s.max
  {
    ReachableIsInvariant(s);
    HeldStaysHeld(s.handles[i], m);
  }

  /** The runner of an unsettled handle has left it exactly when someone other than stop() and kill()
      cancelled it in one of two phases: see LostExactlyBy. */
  lemma UnsettledHasARunner(s: Manager, i: nat)
    requires Reachable(s) && i < |s.handles|
    ensures s.handles[i].completion.None? ==> (s.handles[i].runner in {Draining, Gone, Leaked} <==> s.handles[i].lost)
  {
    ReachableIsInvariant(s);
  }

  /** The one move that leaves an unsettled handle to nobody: a cancellation from outside before the
      runner's first step, or again while it awaits the process that it has killed. */
  lemma LostExactlyBy(h: Handle, m: Move)
    requires Consistent(h) && Moved(h, m).Some?
    ensures h.lost ==> Moved(h, m).value.lost
    ensures !h.lost ==>
      (Moved(h, m).value.lost <==> m == Interrupt && h.completion.None? && h.runner in {Fresh, Killing})
  {
  }

  /** stop() and kill() are recorded: an unsettled handle knows that it is to be stopped, and by which of
      them; a running process shows as stopping; a queued one is settled on the spot. */
  lemma StopsAreRecorded(h: Handle, kill: bool)
    requires Consistent(h) && h.completion.None?
    ensures var t := Stopped(h, kill);
            && t.stopRequested && t.killRequested == (h.killRequested || kill) && t.process == h.process
            && (h.process != NoProcess ==> t == h.(stopRequested := true, killRequested := t.killRequested, state := STOPPING))
            && (h.process == NoProcess && h.state == QUEUED ==>
                  && t.state == (if t.killRequested then KILLED else CANCELLED) && !t.tracked && t.cancelPending
                  && t.completion == Some(Result(t.state, None)))
            && (h.process == NoProcess && h.state != QUEUED ==>
                  t == h.(stopRequested := true, killRequested := t.killRequested))
  {
  }

  /** A queued handle that was stopped never creates a process, whatever comes. */
  lemma StoppedWhileQueued(h: Handle, m: Move)
    requires Consistent(h) && h.cancelPending
    ensures Moved(h, Begin).None? && Moved(h, Grant).None?
    ensures Moved(h, m).Some? ==> Moved(h, m).value.cancelPending && Moved(h, m).value.process == NoProcess
  {
  }

  lemma InterruptsAreRecorded(h: Handle)
    requires Consistent(h)
    ensures Interrupted(h).stopRequested == h.stopRequested
    ensures Interrupted(h).killRequested <==>
              h.killRequested || (h.process == Alive && h.runner !in {Fresh, Waiting, Killing, Draining})
  {
    match h.runner
    case Fresh =>
    case Waiting =>
    case Killing =>
    case Draining =>
    case _ =>
  }

  /** A request to stop or to kill is never forgotten, and an untouched handle is never asked to. */
  lemma RequestsStay(h: Handle, m: Move)
    requires Consistent(h) && Moved(h, m).Some? && h.completion.None?
    ensures var t := Moved(h, m).value;
            && (t.stopRequested <==> h.stopRequested || m == Stop || m == Kill)
            && (t.killRequested <==>
                  h.killRequested || m in {Kill, Escalate} || (m == Interrupt && h.process == Alive && h.runner !in {Killing, Draining}))
  {
    match m
    case Stop => StopsAreRecorded(h, false);
    case Kill => StopsAreRecorded(h, true);
    case Interrupt => InterruptsAreRecorded(h);
    case _ =>
  }

  /** Errors raised in the runner. */
  predicate Raises(m: Move) {
    m == Created(false) || m == Fed(false) || m == Gathered(false)
  }

  /** The state with which a handle is settled, whatever settles it: failed after an error, or a failed
      callback that nobody stopped; else killed if anything asked for that; else by the exit code if
      nobody stopped it; else cancelled. A killed process is never reported as anything but killed or
      failed. */
  lemma SettlesAs(h: Handle, m: Move)
    requires Consistent(h) && Moved(h, m).Some? && h.completion.None? && Moved(h, m).value.completion.Some?
    ensures var t := Moved(h, m).value;
            t.state ==
            if Raises(m) || (m == Gathered(true) && h.callbackFailed && !h.stopRequested) then FAILED
            else if t.killRequested then KILLED
            else if m == Gathered(true) && !h.stopRequested then if h.process.code == 0 then SUCCEEDED else FAILED
            else CANCELLED
  {
    match m
    case Stop => StopsAreRecorded(h, false);
    case Kill => StopsAreRecorded(h, true);
    case Gathered(ok) =>
    case _ =>
  }

  lemma StopsSettleNoLive(h: Handle, kill: bool)
    requires Consistent(h) && h.completion.None?
    ensures Stopped(h, kill).completion.Some? ==> Stopped(h, kill).process != Alive
    ensures Interrupted(h).completion.Some? ==> Interrupted(h).process != Alive
  {
  }

  /** The one move that settles a handle whose process is alive: writing the input raises. */
  lemma SettledAliveExactlyBy(h: Handle, m: Move)
    requires Consistent(h) && Moved(h, m).Some? && h.completion.None?
    ensures Moved(h, m).value.completion.Some? && Moved(h, m).value.process == Alive
       <==> m == Fed(false) && h.process == Alive
  {
    match m
    case Stop => StopsSettleNoLive(h, false);
    case Kill => StopsSettleNoLive(h, true);
    case Interrupt => StopsSettleNoLive(h, false);
    case Grant =>
    case DeliverCancel =>
    case Fed(_) =>
    case _ =>
  }

  /** In every reachable state, a process outlives the settlement of its handle exactly when its input
      could not be written and it has not ended by itself since. */
  lemma ProcessesEndWithTheirHandles(s: Manager, i: nat)
    requires Reachable(s) && i < |s.handles|
    ensures s.handles[i].completion.Some? && s.handles[i].process == Alive <==> s.handles[i].inputFailed && s.handles[i].process == Alive
  {
    ReachableIsInvariant(s);
  }

  /** The one move that leaks a slot: a cancellation from outside while the runner of a created process
      awaits the ends of its streams; and a leaked slot is never given back. */
  lemma LeakedExactlyBy(h: Handle, m: Move)
    requires Consistent(h) && Moved(h, m).Some?
    ensures h.runner == Leaked ==> Moved(h, m).value.runner == Leaked
    ensures h.runner != Leaked ==> (Moved(h, m).value.runner == Leaked <==> m == Interrupt && h.runner == Draining)
  {
  }

  lemma LeaksAddUp(s: Manager, step: Step)
    requires Invariant(s) && Next(s, step).Some?
    ensures Next(s, step).value.max == s.max && LeakedCount(s.handles) <= LeakedCount(Next(s, step).value.handles)
  {
    match step
    case Create => assert (s.handles + [QUEUED_HANDLE])[..|s.handles|] == s.handles;
    case Move(i, m) =>
      LeakedExactlyBy(s.handles[i], m);
      LeakedAfter(s.handles, i, Moved(s.handles[i], m).value);
  }

  ghost predicate AllLeaked(s: Manager) {
    Invariant(s) && s.max.Some? && LeakedCount(s.handles) >= s.max.value
  }

  lemma LeakedSlotsAreNotFree(s: Manager)
    requires Invariant(s) && s.max.Some?
    ensures s.free + LeakedCount(s.handles) <= s.max.value
  {
    LeakedHoldSlots(s.handles);
  }

  /** Leaked slots are missing for good: at most the others are ever free, and once all of them are gone,
      no run from there lets another queued process in. */
  lemma LeakedSlotsAreGone(s: Manager, t: Manager, i: nat)
    requires Reachable(s) && s.max.Some?
    ensures s.free + LeakedCount(s.handles) <= s.max.value
    ensures LeakedCount(s.handles) == s.max.value && Executions.Reaches(u => u == s, CanStep, t)
      ==> Next(t, Step.Move(i, Grant)).None?
  {
    ReachableIsInvariant(s);
    LeakedSlotsAreNotFree(s);
    if LeakedCount(s.handles) == s.max.value && Executions.Reaches(u => u == s, CanStep, t) {
      forall u, v | AllLeaked(u) && CanStep(u, v) ensures AllLeaked(v) {
        var step :| Next(u, step) == Some(v);
        StepKeepsInvariant(u, step);
        LeaksAddUp(u, step);
      }
      Executions.Induction(u => u == s, CanStep, AllLeaked, t);
      LeakedSlotsAreNotFree(t);
    }
  }

  /** Never more live tracked processes than max_processes, but for those whose runner was cancelled
      a second time. */
  lemma LimitIsKept(s: Manager)
    requires Reachable(s) && s.max.Some?
    ensures ActiveCount(s.handles) <= s.max.value + LostCount(s.handles)
    ensures (forall i :: 0 <= i < |s.handles| ==> !s.handles[i].lost) ==> ActiveCount(s.handles) <= s.max.value
  {
    NoneLost(s.handles);
    ReachableIsInvariant(s);
    ActiveHoldSlots(s.handles);
  }

  // ------------------------------------------------------------ what does not

  lemma Extend(s: Manager, step: Step) returns (t: Manager)
    requires Reachable(s) && Next(s, step).Some?
    ensures Reachable(t) && t == Next(s, step).value
  {
    t := Next(s, step).value;
    assert CanStep(s, t);
    Executions.Continues(IsInitial, CanStep, s, t);
  }

  /** One move of the only handle. */
  lemma Act(s: Manager, m: Move) returns (t: Manager)
    requires Reachable(s) && |s.handles| == 1 && s.max.Some? && Moved(s.handles[0], m).Some?
    requires SlotsAfter(s.free, s.handles[0], Moved(s.handles[0], m).value) >= 0
    ensures Reachable(t)
    ensures t == Manager([Moved(s.handles[0], m).value], s.max, SlotsAfter(s.free, s.handles[0], Moved(s.handles[0], m).value))
  {
    t := Extend(s, Step.Move(0, m));
  }

  lemma RunningHandle(max: nat) returns (s: Manager)
    requires max >= 1
    ensures Reachable(s) && s == Manager([QUEUED_HANDLE.(state := RUNNING, runner := Feeding, process := Alive)], Some(max), max - 1)
  {
    s := Initial(Some(max));
    Executions.Starts(IsInitial, CanStep, s);
    s := Extend(s, Create);
    assert s.handles == [QUEUED_HANDLE];
    s := Act(s, Begin);
    s := Act(s, Grant);
    s := Act(s, Created(true));
  }

  /** A runner that is cancelled again while it waits for its killed process gives up its slot and leaves
      a tracked handle that nobody settles. */
  lemma CancelledTwiceIsLost(max: nat) returns (s: Manager)
    requires max >= 1
    ensures Reachable(s) && s.free == max && |s.handles| == 1
    ensures s.handles[0].completion.None? && s.handles[0].runner == Gone && LiveAndTracked(s.handles[0])
  {
    s := RunningHandle(max);
    s := Act(s, Interrupt);
    s := Act(s, Interrupt);
    s := Act(s, Drained);
  }

  /** When writing the input raises, the handle is settled and forgotten while its process lives on, and
      once the streams end its slot is free for another one. */
  lemma FailedInputLeavesAProcess(max: nat) returns (s: Manager)
    requires max >= 1
    ensures Reachable(s) && s.free == max && |s.handles| == 1
    ensures s.handles[0].process == Alive && s.handles[0].state == FAILED && !s.handles[0].tracked
  {
    s := RunningHandle(max);
    s := Act(s, Fed(false));
    s := Act(s, Drained);
  }

  lemma KilledAndCancelled(h: Handle)
    requires h.runner == Killing && h.process.Exited? && h.killRequested && h.completion.None?
    ensures var seen := Moved(h, SeeKilled);
            && seen.Some? && seen.value.runner == Draining && seen.value.process == h.process && seen.value.state == KILLED
            && Moved(seen.value, Interrupt) == Some(seen.value.(runner := Leaked))
  {
  }

  /** A runner that was cancelled from outside, and has killed its process, is cancelled once more while its
      streams drain: the handle is settled and the process has ended, but the only slot is gone. */
  lemma CancelledWhileDraining() returns (s: Manager)
    ensures Reachable(s) && s.max == Some(1) && s.free == 0 && |s.handles| == 1
    ensures s.handles[0].state == KILLED && s.handles[0].process.Exited? && s.handles[0].runner == Leaked
  {
    s := RunningHandle(1);
    s := Act(s, Interrupt);
    s := Act(s, Exit(-9));
    var killed := s.handles[0];
    KilledAndCancelled(killed);
    s := Act(s, SeeKilled);
    s := Act(s, Interrupt);
  }
}
