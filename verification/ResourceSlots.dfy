/** The ResourceSlot of scrapy_cffi/service/resilience.py, shared by concurrent operations through
    the _run wrappers of scrapy_cffi/repo/queue.py and scrapy_cffi/repo/redis.py. */
module ResourceSlots {
  import opened Common
  import Executions
  import opened Resilience

  /** A slot with its history: resources are numbered as the factory constructs them, and `closed`
      holds those whose close has been attempted. */
  datatype Slot = Slot(resource: Option<nat>, generation: nat, made: nat, closed: set<nat>)

  const EMPTY_SLOT := Slot(None, 0, 0, {})

  function Constructed(s: Slot): Slot {
    s.(made := s.made + 1)
  }

  function Closed(s: Slot, id: nat): Slot {
    s.(closed := s.closed + {id})
  }

  function Installed(s: Slot, id: nat): Slot {
    s.(resource := Some(id), generation := s.generation + 1)
  }

  predicate Stale(s: Slot, observed: Option<nat>) {
    observed.Some? && observed.value != s.generation
  }

  // ------------------------------------------------------------ one call at a time

  /** Every constructed resource is the current one, the one being connected, or has had close
      attempted; and those are different resources. */
  ghost predicate AllAccountedFor(s: Slot, connecting: Option<nat>) {
    && (forall id :: 0 <= id < s.made <==> id in s.closed || s.resource == Some(id) || connecting == Some(id))
    && (s.resource.Some? ==> s.resource.value !in s.closed && s.resource != connecting)
    && (connecting.Some? ==> connecting.value !in s.closed)
  }

  /** The methods hold the lock from their first line to their last; `connects` and the other
      parameters are what the resource's own methods do. */
  class ResourceSlot {
    var resource: Option<nat>
    var generation: nat
    ghost var made: nat
    ghost var closed: set<nat>

    ghost function View(): Slot
      reads this
    {
      Slot(resource, generation, made, closed)
    }

    ghost predicate Valid()
      reads this
    {
      AllAccountedFor(View(), None)
    }

    constructor ()
      ensures Valid() && View() == EMPTY_SLOT
    {
      resource, generation, made, closed := None, 0, 0, {};
    }

    method Start(id: nat, connects: bool) returns (ok: bool)
      requires Valid() && id == made
      modifies this
      ensures Valid()
      ensures ok <==> old(resource).Some? || connects
      ensures View() == if old(resource).Some? then old(View())
                        else if connects then Constructed(old(View())).(resource := Some(id))
                        else Closed(Constructed(old(View())), id)
    {
      if resource.Some? {
        return true;
      }
      made := made + 1;
      if !connects {
        closed := closed + {id};
        return false;
      }
      resource := Some(id);
      ok := true;
    }

    /** `cancelled` is a cancellation while the previous resource is being closed; any other error
        there is swallowed. */
    method Replace(observed: Option<nat>, id: nat, connects: bool, cancelled: bool) returns (ok: bool)
      requires Valid() && id == made
      modifies this
      ensures Valid()
      ensures ok <==> Stale(old(View()), observed) || (connects && !(old(resource).Some? && cancelled))
      ensures Stale(old(View()), observed) ==> View() == old(View())
      ensures !Stale(old(View()), observed) && !connects ==> View() == Closed(Constructed(old(View())), id)
      ensures !Stale(old(View()), observed) && connects && old(resource).None? ==>
                View() == Installed(Constructed(old(View())), id)
      ensures !Stale(old(View()), observed) && connects && old(resource).Some? ==>
                View() == Closed(Installed(Constructed(old(View())), id), old(resource).value)
    {
      if observed.Some? && observed.value != generation {
        return true;
      }
      var previous := resource;
      made := made + 1;
      if !connects {
        closed := closed + {id};
        return false;
      }
      resource := Some(id);
      generation := generation + 1;
      if previous.Some? {
        closed := closed + {previous.value};
        return !cancelled;
      }
      ok := true;
    }

    method Close()
      requires Valid()
      modifies this
      ensures Valid()
      ensures resource == None && generation == old(generation) && made == old(made)
      ensures closed == old(closed) + (if old(resource).Some? then {old(resource).value} else {})
    {
      var current := resource;
      resource := None;
      if current.Some? {
        closed := closed + {current.value};
      }
    }
  }

  // ------------------------------------------------------------ many operations at once

  type Worker = nat

  /** Who holds the lock, between two awaits. */
  datatype Job =
    | Free
    | Connecting(id: nat, replacing: bool, observed: Option<nat>, owner: Option<Worker>)
    | Discarding(owner: Option<Worker>)                 // closing a resource that failed to connect
    | Retiring(owner: Option<Worker>)                   // closing the previous resource
    | Shutting

  /** One _run: its retry policy, the observed generation, and the generation of every attempt. */
  datatype Running = Running(policy: Policy, observed: nat, used: seq<nat>)

  datatype State = State(
    slot: Slot,
    job: Job,
    runs: map<Worker, Running>,
    replacedAt: seq<Option<nat>>)    // history: what each successful replacement had observed

  datatype Config = Config(max: nat, allowed: bool)

  datatype Step =
    | Arrive(w: Worker)                                // a repository call enters _run
    | Attempt(w: Worker, stopped: bool)                // the operation starts, unless the runtime stops
    | AttemptEnds(w: Worker, outcome: Outcome)
    | Recover(w: Worker)                               // replace(observed) gets the lock
    | GiveUp(w: Worker)                                // cancelled while waiting for the lock
    | StartSlot
    | ReplaceAny(observed: Option<nat>)                // replace() called from elsewhere
    | ConnectEnds(ok: bool)
    | DiscardEnds(outcome: Outcome)                    // the connection error is raised
    | RetireEnds(cancelled: bool)
    | CloseSlot
    | CloseEnds

  function SetRun(s: State, w: Worker, r: Running): State {
    s.(runs := s.runs[w := r])
  }

  /** The recovery that `owner` awaited ends. */
  function Recovered(cfg: Config, s: State, owner: Option<Worker>, outcome: Outcome): State {
    if owner.Some? && owner.value in s.runs && s.runs[owner.value].policy.Recovering? then
      var r := s.runs[owner.value];
      SetRun(s, owner.value, r.(policy := AfterRecovery(cfg.max, r.policy, outcome)))
    else s
  }

  /** replace() once it has the lock. */
  function LockedReplace(cfg: Config, s: State, observed: Option<nat>, owner: Option<Worker>): State {
    if Stale(s.slot, observed) then Recovered(cfg, s, owner, Succeeds)
    else s.(slot := Constructed(s.slot), job := Connecting(s.slot.made, true, observed, owner))
  }

  function Connected(cfg: Config, s: State, ok: bool): State
    requires s.job.Connecting?
  {
    var Connecting(id, replacing, observed, owner) := s.job;
    if !ok then s.(slot := Closed(s.slot, id), job := Discarding(owner))
    else if !replacing then s.(slot := s.slot.(resource := Some(id)), job := Free)
    else
      var installed := s.(slot := Installed(s.slot, id), replacedAt := s.replacedAt + [observed]);
      if s.slot.resource.Some? then
        installed.(slot := Closed(installed.slot, s.slot.resource.value), job := Retiring(owner))
      else Recovered(cfg, installed.(job := Free), owner, Succeeds)
  }

  predicate Has(s: State, w: Worker) {
    w in s.runs
  }

  predicate HeldBy(job: Job, w: Worker) {
    (job.Connecting? || job.Discarding? || job.Retiring?) && job.owner == Some(w)
  }

  function Next(cfg: Config, s: State, step: Step): Option<State> {
    match step
    case Arrive(w) =>
      if w in s.runs then None else Some(SetRun(s, w, Running(Ready(1), s.slot.generation, [])))
    case Attempt(w, stopped) =>
      if w !in s.runs || !s.runs[w].policy.Ready? then None
      else
        var begun := Begin(s.runs[w].policy, stopped, cfg.allowed);
        if begun.Operating? then Some(SetRun(s, w, Running(begun, s.slot.generation, s.runs[w].used + [s.slot.generation])))
        else Some(SetRun(s, w, s.runs[w].(policy := begun)))
    case AttemptEnds(w, outcome) =>
      if w !in s.runs || !s.runs[w].policy.Operating? then None
      else Some(SetRun(s, w, s.runs[w].(policy := AfterOperation(cfg.max, s.runs[w].policy, outcome))))
    case Recover(w) =>
      if w !in s.runs || !s.runs[w].policy.Recovering? || s.job != Free then None
      else Some(LockedReplace(cfg, s, Some(s.runs[w].observed), Some(w)))
    case GiveUp(w) =>
      if w !in s.runs || !s.runs[w].policy.Recovering? || HeldBy(s.job, w) then None
      else Some(SetRun(s, w, s.runs[w].(policy := Done(RaisedCancelled))))
    case StartSlot =>
      if s.job != Free then None
      else if s.slot.resource.Some? then Some(s)
      else Some(s.(slot := Constructed(s.slot), job := Connecting(s.slot.made, false, None, None)))
    case ReplaceAny(observed) => if s.job != Free then None else Some(LockedReplace(cfg, s, observed, None))
    case ConnectEnds(ok) => if !s.job.Connecting? then None else Some(Connected(cfg, s, ok))
    case DiscardEnds(outcome) =>
      if !s.job.Discarding? || outcome.Succeeds? then None
      else Some(Recovered(cfg, s.(job := Free), s.job.owner, outcome))
    case RetireEnds(cancelled) =>
      if !s.job.Retiring? then None
      else Some(Recovered(cfg, s.(job := Free), s.job.owner, if cancelled then Cancelled else Succeeds))
    case CloseSlot =>
      if s.job != Free then None
      else if s.slot.resource.None? then Some(s)
      else Some(s.(slot := Closed(s.slot, s.slot.resource.value).(resource := None), job := Shutting))
    case CloseEnds => if !s.job.Shutting? then None else Some(s.(job := Free))
  }

  function Initial(): State {
    State(EMPTY_SLOT, Free, map[], [])
  }

  ghost predicate CanStep(cfg: Config, s: State, s': State) {
    exists step :: Next(cfg, s, step) == Some(s')
  }

  ghost predicate Reachable(cfg: Config, s: State) {
    Executions.Reaches(u => u == Initial(), (u, v) => CanStep(cfg, u, v), s)
  }
}
