/** What every interleaving of operations, replacements, starts and closes of a slot keeps. */
module ResourceSlotProofs {
  import opened Common
  import Executions
  import opened Resilience
  import opened ResourceSlots

  function ConnectingId(job: Job): Option<nat> {
    if job.Connecting? then Some(job.id) else None
  }

  /** The successful replacements, in order, are one for each generation that has passed: the g-th
      had observed generation g, or had not looked. */
  ghost predicate OnePerGeneration(s: State) {
    && |s.replacedAt| == s.slot.generation
    && forall g :: 0 <= g < |s.replacedAt| ==> s.replacedAt[g].None? || s.replacedAt[g].value == g
  }

  ghost predicate Climbing(used: seq<nat>) {
    forall j, k :: 0 <= j < k < |used| ==> used[j] < used[k]
  }

  ghost predicate RunIsSound(r: Running, generation: nat) {
    && r.observed <= generation
    && Climbing(r.used)
    && (r.used != [] ==> r.used[|r.used| - 1] == r.observed)
    && (r.policy.Ready? && r.used != [] ==> r.observed < generation)
    && (!r.policy.Ready? && !r.policy.Done? ==> r.used != [])
  }

  function OwnerOf(job: Job): Option<Worker> {
    if job.Connecting? || job.Discarding? || job.Retiring? then job.owner else None
  }

  ghost predicate JobIsSound(s: State) {
    && (s.job.Connecting? && s.job.replacing && s.job.observed.Some? ==> s.job.observed.value == s.slot.generation)
    && (s.job.Connecting? && !s.job.replacing ==> s.slot.resource.None?)
    && (OwnerOf(s.job).Some? ==> OwnerOf(s.job).value in s.runs && s.runs[OwnerOf(s.job).value].policy.Recovering?)
    && (s.job.Connecting? && s.job.replacing && s.job.owner.Some? ==>
          s.job.observed == Some(s.runs[s.job.owner.value].observed))
    && (s.job.Retiring? && s.job.owner.Some? ==> s.runs[s.job.owner.value].observed < s.slot.generation)
  }

  ghost predicate Invariant(s: State) {
    && AllAccountedFor(s.slot, ConnectingId(s.job))
    && OnePerGeneration(s)
    && JobIsSound(s)
    && forall w :: w in s.runs ==> RunIsSound(s.runs[w], s.slot.generation)
  }

  lemma RecoveredKeepsInvariant(cfg: Config, s: State, owner: Option<Worker>, outcome: Outcome)
    requires Invariant(s) && s.job == Free
    requires outcome.Succeeds? && owner.Some? && owner.value in s.runs && s.runs[owner.value].policy.Recovering? ==>
               s.runs[owner.value].observed < s.slot.generation
    ensures Invariant(Recovered(cfg, s, owner, outcome))
  {
  }

  lemma InstallKeepsInvariant(s: State)
    requires Invariant(s) && s.job.Connecting? && s.job.replacing
    ensures Invariant(s.(slot := if s.slot.resource.Some? then Closed(Installed(s.slot, s.job.id), s.slot.resource.value)
                                 else Installed(s.slot, s.job.id),
                         replacedAt := s.replacedAt + [s.job.observed], job := Free))
  {
  }

  lemma ConnectedKeepsInvariant(cfg: Config, s: State, ok: bool)
    requires Invariant(s) && s.job.Connecting?
    ensures Invariant(Connected(cfg, s, ok))
  {
    if ok && s.job.replacing {
      InstallKeepsInvariant(s);
      var Connecting(id, replacing, observed, owner) := s.job;
      var installed := s.(slot := Installed(s.slot, id), replacedAt := s.replacedAt + [observed], job := Free);
      if s.slot.resource.None? {
        RecoveredKeepsInvariant(cfg, installed, owner, Succeeds);
      }
    }
  }

  lemma LockedReplaceKeepsInvariant(cfg: Config, s: State, observed: Option<nat>, owner: Option<Worker>)
    requires Invariant(s) && s.job == Free
    requires owner.Some? ==>
               && owner.value in s.runs && s.runs[owner.value].policy.Recovering?
               && observed == Some(s.runs[owner.value].observed)
    ensures Invariant(LockedReplace(cfg, s, observed, owner))
  {
    if Stale(s.slot, observed) {
      RecoveredKeepsInvariant(cfg, s, owner, Succeeds);
    }
  }

  lemma SetRunKeepsInvariant(s: State, w: Worker, r: Running)
    requires Invariant(s) && OwnerOf(s.job) != Some(w) && RunIsSound(r, s.slot.generation)
    ensures Invariant(SetRun(s, w, r))
  {
  }

  lemma AttemptKeepsInvariant(cfg: Config, s: State, w: Worker, stopped: bool)
    requires Invariant(s) && Next(cfg, s, Attempt(w, stopped)).Some?
    ensures Invariant(Next(cfg, s, Attempt(w, stopped)).value)
  {
    SetRunKeepsInvariant(s, w, Next(cfg, s, Attempt(w, stopped)).value.runs[w]);
  }

  lemma RunStepKeepsInvariant(cfg: Config, s: State, step: Step)
    requires Invariant(s) && Next(cfg, s, step).Some?
    requires step.Arrive? || step.AttemptEnds? || step.GiveUp?
    ensures Invariant(Next(cfg, s, step).value)
  {
    SetRunKeepsInvariant(s, step.w, Next(cfg, s, step).value.runs[step.w]);
  }

  lemma SlotStepKeepsInvariant(cfg: Config, s: State, step: Step)
    requires Invariant(s) && Next(cfg, s, step).Some?
    requires step.StartSlot? || step.CloseSlot? || step.CloseEnds?
    ensures Invariant(Next(cfg, s, step).value)
  {
  }

  lemma StepKeepsInvariant(cfg: Config, s: State, step: Step)
    requires Invariant(s) && Next(cfg, s, step).Some?
    ensures Invariant(Next(cfg, s, step).value)
  {
    match step
    case Recover(w) => LockedReplaceKeepsInvariant(cfg, s, Some(s.runs[w].observed), Some(w));
    case ReplaceAny(observed) => LockedReplaceKeepsInvariant(cfg, s, observed, None);
    case ConnectEnds(ok) => ConnectedKeepsInvariant(cfg, s, ok);
    case DiscardEnds(outcome) => RecoveredKeepsInvariant(cfg, s.(job := Free), s.job.owner, outcome);
    case RetireEnds(cancelled) =>
      RecoveredKeepsInvariant(cfg, s.(job := Free), s.job.owner, if cancelled then Cancelled else Succeeds);
    case StartSlot => SlotStepKeepsInvariant(cfg, s, step);
    case CloseSlot => SlotStepKeepsInvariant(cfg, s, step);
    case CloseEnds => SlotStepKeepsInvariant(cfg, s, step);
    case Attempt(w, stopped) => AttemptKeepsInvariant(cfg, s, w, stopped);
    case _ => RunStepKeepsInvariant(cfg, s, step);
  }

  lemma ReachableIsInvariant(cfg: Config, s: State)
    requires Reachable(cfg, s)
    ensures Invariant(s)
  {
    forall u, v | Invariant(u) && CanStep(cfg, u, v) ensures Invariant(v) {
      var step :| Next(cfg, u, step) == Some(v);
      StepKeepsInvariant(cfg, u, step);
    }
    Executions.Induction(u => u == Initial(), (u, v) => CanStep(cfg, u, v), Invariant, s);
  }

  /** In every interleaving the generation counts the successful replacements, and each generation is
      replaced once, by someone who had observed it (or by a caller who observed nothing). */
  lemma GenerationsAreReplacedOnce(cfg: Config, s: State, j: nat, k: nat)
    requires Reachable(cfg, s)
    ensures |s.replacedAt| == s.slot.generation
    ensures j < |s.replacedAt| && s.replacedAt[j].Some? ==> s.replacedAt[j] == Some(j)
    ensures j < |s.replacedAt| && k < |s.replacedAt| && s.replacedAt[j].Some? && s.replacedAt[j] == s.replacedAt[k] ==> j == k
  {
    ReachableIsInvariant(cfg, s);
  }

  /** No resource is ever lost: each one constructed is current, still connecting, or has had its
      close attempted, and never two of these. */
  lemma NoResourceIsLost(cfg: Config, s: State, id: nat)
    requires Reachable(cfg, s)
    ensures id < s.slot.made <==> id in s.slot.closed || s.slot.resource == Some(id) || ConnectingId(s.job) == Some(id)
    ensures s.slot.resource == Some(id) ==> id !in s.slot.closed && ConnectingId(s.job) != Some(id)
  {
    ReachableIsInvariant(cfg, s);
  }

  /** Every retry runs on a strictly newer generation than the attempts before it. */
  lemma RetriesUseNewerResources(cfg: Config, s: State, w: Worker, j: nat, k: nat)
    requires Reachable(cfg, s) && w in s.runs && j < k < |s.runs[w].used|
    ensures s.runs[w].used[j] < s.runs[w].used[k] <= s.slot.generation
  {
    ReachableIsInvariant(cfg, s);
    var used := s.runs[w].used;
    assert k < |used| - 1 ==> used[k] < used[|used| - 1];
  }

  /** A failed operation replaces the slot's resource exactly when it had observed the generation that is
      still current; a later one changes nothing and goes on to its retry. And the generation cannot move
      on while the replacement is connecting. */
  lemma LateFailureChangesNothing(cfg: Config, s: State, w: Worker)
    requires Reachable(cfg, s) && w in s.runs
    ensures s.job == Free && s.runs[w].policy.Recovering? ==> Next(cfg, s, Recover(w)).Some?
    ensures Next(cfg, s, Recover(w)).Some? ==>
              var s' := Next(cfg, s, Recover(w)).value;
              && (s'.slot.made > s.slot.made <==> s.runs[w].observed == s.slot.generation)
              && (s.runs[w].observed != s.slot.generation ==>
                    s' == s.(runs := s'.runs) && s'.runs[w].policy.Ready? && s'.runs[w].used == s.runs[w].used)
    ensures s.job.Connecting? && s.job.replacing && s.job.owner == Some(w) ==> s.runs[w].observed == s.slot.generation
  {
    ReachableIsInvariant(cfg, s);
  }

  /** What a run that waits for its recovery is told: the next attempt once the new resource is there and
      the old one is closed, whatever that closing raised, unless it was cancelled then; and a connection
      that failed counts as a failed recovery. */
  lemma RecoveriesAreAnswered(cfg: Config, s: State, w: Worker)
    requires Reachable(cfg, s) && OwnerOf(s.job) == Some(w)
    ensures w in s.runs && s.runs[w].policy.Recovering?
    ensures var p := s.runs[w].policy;
            && (s.job.Retiring? ==>
                  && Next(cfg, s, RetireEnds(false)).value.runs[w].policy == Ready(p.attempt + 1)
                  && Next(cfg, s, RetireEnds(true)).value.runs[w].policy == Done(RaisedCancelled))
            && (s.job.Connecting? && s.job.replacing ==>
                  && Next(cfg, s, ConnectEnds(false)).value.job == Discarding(Some(w))
                  && (s.slot.resource.None? ==> Next(cfg, s, ConnectEnds(true)).value.runs[w].policy == Ready(p.attempt + 1))
                  && (s.slot.resource.Some? ==> Next(cfg, s, ConnectEnds(true)).value.job == Retiring(Some(w))))
            && (s.job.Discarding? ==>
                  && Next(cfg, s, DiscardEnds(Fatal)).value.runs[w].policy == Done(RaisedFatal)
                  && Next(cfg, s, DiscardEnds(Cancelled)).value.runs[w].policy == Done(RaisedCancelled)
                  && Next(cfg, s, DiscardEnds(Retryable)).value.runs[w].policy
                     == if p.attempt + p.failures + 1 >= cfg.max then Done(RaisedLast) else Recovering(p.attempt, p.failures + 1))
  {
    ReachableIsInvariant(cfg, s);
  }

  /** The steps of a run that touch nothing but it: a caller who is cancelled while waiting for the lock
      takes no part in the replacement any more; an attempt begins on the current generation, unless the
      runtime is stopping; and its end is answered as the policy says. */
  lemma RunsStepAlone(cfg: Config, s: State, w: Worker, outcome: Outcome)
    requires Reachable(cfg, s) && w in s.runs
    ensures var r := s.runs[w];
            && (r.policy.Recovering? && !HeldBy(s.job, w) ==>
                  Next(cfg, s, GiveUp(w)) == Some(s.(runs := s.runs[w := r.(policy := Done(RaisedCancelled))])))
            && (r.policy.Recovering? && HeldBy(s.job, w) ==> Next(cfg, s, GiveUp(w)).None?)
            && (r.policy.Ready? ==>
                  && Next(cfg, s, Attempt(w, false))
                     == Some(s.(runs := s.runs[w := Running(Operating(r.policy.attempt), s.slot.generation, r.used + [s.slot.generation])]))
                  && (!cfg.allowed ==> Next(cfg, s, Attempt(w, true)) == Some(s.(runs := s.runs[w := r.(policy := Done(Stopping))])))
                  && (cfg.allowed ==> Next(cfg, s, Attempt(w, true)) == Next(cfg, s, Attempt(w, false))))
            && (r.policy.Operating? ==>
                  Next(cfg, s, AttemptEnds(w, outcome))
                  == Some(s.(runs := s.runs[w := r.(policy := AfterOperation(cfg.max, r.policy, outcome))])))
  {
  }

  /** Only a close empties the slot: not a failing replacement, and not one that is under way. */
  lemma OnlyCloseEmpties(cfg: Config, s: State, step: Step)
    requires Next(cfg, s, step).Some? && s.slot.resource.Some?
    ensures Next(cfg, s, step).value.slot.resource.Some? <==> step != CloseSlot
  {
  }

  /** Closing does not end a generation: a failed operation fills the closed slot again exactly when
      it had observed the generation that was closed. */
  lemma CloseCanBeUndone(cfg: Config, s: State, w: Worker)
    requires s.job == Free && s.slot.resource.None? && w in s.runs && s.runs[w].policy.Recovering?
    ensures Next(cfg, s, Recover(w)).Some?
    ensures var s' := Next(cfg, s, Recover(w)).value;
            var s'' := Next(cfg, s', ConnectEnds(true));
            s''.Some? && s''.value.slot.resource.Some? <==> s.runs[w].observed == s.slot.generation
  {
  }

  lemma Extend(cfg: Config, s: State, step: Step) returns (t: State)
    requires Reachable(cfg, s) && Next(cfg, s, step).Some?
    ensures Reachable(cfg, t) && t == Next(cfg, s, step).value
  {
    t := Next(cfg, s, step).value;
    assert CanStep(cfg, s, t);
    Executions.Continues(u => u == Initial(), (u, v) => CanStep(cfg, u, v), s, t);
  }

  lemma FailedOnce(cfg: Config) returns (s: State)
    requires cfg.max >= 2
    ensures Reachable(cfg, s)
    ensures s == State(Slot(Some(0), 0, 1, {}), Free, map[0 := Running(Recovering(1, 0), 0, [0])], [])
  {
    Executions.Starts(u => u == Initial(), (u, v) => CanStep(cfg, u, v), Initial());
    s := Extend(cfg, Initial(), StartSlot);
    s := Extend(cfg, s, ConnectEnds(true));
    s := Extend(cfg, s, Arrive(0));
    s := Extend(cfg, s, Attempt(0, false));
    s := Extend(cfg, s, AttemptEnds(0, Retryable));
    assert s.runs[0].used == [0];
    assert s.runs == map[0 := Running(Recovering(1, 0), 0, [0])];
  }

  /** Such a slot is reachable: an operation fails, the slot is closed, and the recovery that was
      waiting for the lock connects a resource that nobody will close. */
  lemma ClosedSlotIsFilledAgain(cfg: Config) returns (s: State)
    requires cfg.max >= 2
    ensures Reachable(cfg, s) && s.slot == Slot(Some(1), 1, 2, {0}) && s.job == Free
  {
    s := FailedOnce(cfg);
    s := Extend(cfg, s, CloseSlot);
    s := Extend(cfg, s, CloseEnds);
    s := Extend(cfg, s, ResourceSlots.Step.Recover(0));
    s := Extend(cfg, s, ConnectEnds(true));
  }
}
