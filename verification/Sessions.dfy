/** Reference-counted session closing: SessionManager of scrapy_cffi/core/sessions.py, before freeze()
    and shutdown. */
module Sessions {
  import opened Common
  import Executions

  type Id = string

  datatype State = State(
    main: Id,                          // the default session
    live: set<Id>,                     // _sessions
    groups: map<Id, seq<Id>>,          // _group_sessions
    counts: map<Id, int>,              // _ref_counts; releases may take a count below zero
    ended: set<Id>,                    // _end_flags
    queue: seq<Id>,                    // _close_queue
    pending: set<Id>,                  // _pending_close_set
    closing: Option<Id>,               // taken from the queue by the reaper
    popped: bool,                      // ... and already taken out of _sessions
    recreated: set<Id>,                // history: created after having been ended, and not queued or closed since
    reacquired: set<Id>)               // history: acquired while pending, since they were last queued

  function Initial(main: Id): State {
    State(main, {main}, map[], map[], {}, [], {}, None, false, {}, {})
  }

  predicate Exempt(s: State, id: Id) {
    id == s.main || id == ""
  }

  function CountOf(s: State, id: Id): int {
    if id in s.counts then s.counts[id] else 0
  }

  function Queued(s: State, id: Id): State {
    s.(queue := s.queue + [id], pending := s.pending + {id}, recreated := s.recreated - {id}, reacquired := s.reacquired - {id})
  }

  function Acquired(s: State, id: Id): State {
    if Exempt(s, id) then s
    else
      s.(counts := s.counts[id := CountOf(s, id) + 1],
         reacquired := if id in s.pending then s.reacquired + {id} else s.reacquired)
  }

  function Released(s: State, id: Id): State {
    if Exempt(s, id) || id !in s.counts then s
    else
      var t := s.(counts := s.counts[id := s.counts[id] - 1]);
      if id in t.ended && t.counts[id] <= 0 && id !in t.pending then Queued(t, id) else t
  }

  function EndedSingle(s: State, id: Id): State {
    var t := s.(ended := s.ended + {id});
    if CountOf(t, id) <= 0 && id !in t.pending then Queued(t, id) else t
  }

  function EndedAll(s: State, ids: seq<Id>): State
    decreases |ids|
  {
    if ids == [] then s else EndedSingle(EndedAll(s, ids[..|ids| - 1]), ids[|ids| - 1])
  }

  function Without(ids: seq<Id>, id: Id): seq<Id> {
    if ids == [] then [] else if ids[0] == id then ids[1..] else [ids[0]] + Without(ids[1..], id)
  }

  function GroupsWithout(groups: map<Id, seq<Id>>, id: Id, home: Option<Id>): map<Id, seq<Id>> {
    if home.Some? && home.value in groups then groups[home.value := Without(groups[home.value], id)] else groups
  }

  /** mark_end of a group ends its members; `home` is the group that a single session leaves, if it is
      in one. */
  function Ended(s: State, id: Id, home: Option<Id>): State {
    if Exempt(s, id) then s
    else if id in s.groups then EndedAll(s, s.groups[id])
    else
      EndedSingle(s.(groups := GroupsWithout(s.groups, id, home)), id)
  }

  function Created(s: State, id: Id): State {
    if id in s.live then s
    else s.(live := s.live + {id}, recreated := if id in s.ended then s.recreated + {id} else s.recreated)
  }

  function Members(s: State, group: Id, ids: seq<Id>): (t: State)
    ensures group in t.groups
    decreases |ids|
  {
    if ids == [] then s.(groups := s.groups[group := []])
    else
      var t, id := Members(s, group, ids[..|ids| - 1]), ids[|ids| - 1];
      if id in t.live then t else Created(t, id).(groups := t.groups[group := t.groups[group] + [id]])
  }

  /** register_sessions_batch adds the sessions that are not there yet; an empty batch does nothing. */
  function Registered(s: State, group: Id, ids: seq<Id>): State {
    if ids == [] then s else Members(s, group, ids)
  }

  // ------------------------------------------------------------ the object

  function Taken(s: State): State
    requires s.queue != []
  {
    s.(closing := Some(s.queue[0]), queue := s.queue[1..], popped := false)
  }

  function PoppedOut(s: State): State
    requires s.closing.Some?
  {
    if Exempt(s, s.closing.value) then s.(popped := true)
    else s.(live := s.live - {s.closing.value}, recreated := s.recreated - {s.closing.value}, popped := true)
  }

  function Finished(s: State): State
    requires s.closing.Some?
  {
    s.(pending := s.pending - {s.closing.value}, closing := None)
  }

  class SessionManager {
    const main: Id
    var live: set<Id>
    var groups: map<Id, seq<Id>>
    var counts: map<Id, int>
    var ended: set<Id>
    var queue: seq<Id>
    var pending: set<Id>
    var closing: Option<Id>
    var popped: bool
    ghost var recreated: set<Id>
    ghost var reacquired: set<Id>

    ghost function View(): State
      reads this
    {
      State(main, live, groups, counts, ended, queue, pending, closing, popped, recreated, reacquired)
    }

    constructor (main: Id)
      ensures View() == Initial(main)
    {
      this.main := main;
      live, groups, counts, ended := {main}, map[], map[], {};
      queue, pending, closing, popped := [], {}, None, false;
      recreated, reacquired := {}, {};
    }

    /** The tail of get_or_create_session, for a single session. */
    method Create(id: Id)
      modifies this`live, this`recreated
      ensures View() == Created(old(View()), id)
    {
      if id !in live {
        live := live + {id};
        recreated := if id in ended then recreated + {id} else recreated;
      }
    }

    method RegisterBatch(group: Id, ids: seq<Id>)
      modifies this`live, this`recreated, this`groups
      ensures View() == Registered(old(View()), group, ids)
    {
      if ids == [] {
        return;
      }
      groups := groups[group := []];
      for i := 0 to |ids|
        invariant group in groups
        invariant View() == Members(old(View()), group, ids[..i])
      {
        assert ids[..i + 1][..i] == ids[..i];
        if ids[i] !in live {
          Create(ids[i]);
          groups := groups[group := groups[group] + [ids[i]]];
        }
      }
      assert ids[..|ids|] == ids;
    }

    method Acquire(id: Id)
      modifies this`counts, this`reacquired
      ensures View() == Acquired(old(View()), id)
    {
      if id == main || id == "" {
        return;
      }
      counts := counts[id := (if id in counts then counts[id] else 0) + 1];
      reacquired := if id in pending then reacquired + {id} else reacquired;
    }

    method Release(id: Id)
      modifies this`counts, this`queue, this`pending, this`recreated, this`reacquired
      ensures View() == Released(old(View()), id)
    {
      if id == main || id == "" || id !in counts {
        return;
      }
      counts := counts[id := counts[id] - 1];
      if id in ended && counts[id] <= 0 && id !in pending {
        queue, pending := queue + [id], pending + {id};
        recreated, reacquired := recreated - {id}, reacquired - {id};
      }
    }

    method MarkEndSingle(id: Id)
      modifies this`ended, this`queue, this`pending, this`recreated, this`reacquired
      ensures View() == EndedSingle(old(View()), id)
    {
      ended := ended + {id};
      var count := if id in counts then counts[id] else 0;
      if count <= 0 && id !in pending {
        queue, pending := queue + [id], pending + {id};
        recreated, reacquired := recreated - {id}, reacquired - {id};
      }
    }

    /** mark_end; `home` is the first group found to hold the session. */
    method MarkEnd(id: Id, home: Option<Id>)
      requires home.Some? ==> home.value in groups && id in groups[home.value]
      requires home.None? ==> forall g :: g in groups ==> id !in groups[g]
      modifies this`groups, this`ended, this`queue, this`pending, this`recreated, this`reacquired
      ensures View() == Ended(old(View()), id, home)
    {
      if id == main || id == "" {
        return;
      }
      if id in groups {
        var members := groups[id];
        for i := 0 to |members|
          invariant View() == EndedAll(old(View()), members[..i])
        {
          assert members[..i + 1][..i] == members[..i];
          MarkEndSingle(members[i]);
        }
        assert members[..|members|] == members;
      } else {
        if home.Some? {
          groups := groups[home.value := Without(groups[home.value], id)];
        }
        MarkEndSingle(id);
      }
    }

    /** The reaper's awaited get(). */
    method Take()
      requires closing.None? && queue != []
      modifies this`queue, this`closing, this`popped
      ensures View() == Taken(old(View()))
    {
      closing, queue, popped := Some(queue[0]), queue[1..], false;
    }

    /** The first lines of _safe_close. */
    method Pop()
      requires closing.Some?
      modifies this`live, this`popped, this`recreated
      ensures View() == PoppedOut(old(View()))
    {
      if closing.value != main && closing.value != "" {
        live, recreated := live - {closing.value}, recreated - {closing.value};
      }
      popped := true;
    }

    /** The `finally` of the reaper, once the session is closed or closing it failed. */
    method Finish()
      requires closing.Some?
      modifies this`pending, this`closing
      ensures View() == Finished(old(View()))
    {
      pending, closing := pending - {closing.value}, None;
    }
  }

  // ------------------------------------------------------------ every interleaving

  datatype Step =
    | Acquire(id: Id) | Release(id: Id) | MarkEnd(id: Id, home: Option<Id>)
    | Create(id: Id) | Register(group: Id, ids: seq<Id>)
    | Take | Pop | Finish

  function Next(s: State, step: Step): Option<State> {
    match step
    case Acquire(id) => Some(Acquired(s, id))
    case Release(id) => Some(Released(s, id))
    case MarkEnd(id, home) => Some(Ended(s, id, home))
    case Create(id) => Some(Created(s, id))
    case Register(group, ids) => Some(Registered(s, group, ids))
    case Take => if s.closing.None? && s.queue != [] then Some(Taken(s)) else None
    case Pop => if s.closing.Some? && !s.popped then Some(PoppedOut(s)) else None
    case Finish => if s.closing.Some? && s.popped then Some(Finished(s)) else None
  }

  predicate IsInitial(s: State) {
    s == Initial(s.main)
  }

  ghost predicate CanStep(s: State, s': State) {
    exists step :: Next(s, step) == Some(s')
  }

  ghost predicate Reachable(s: State) {
    Executions.Reaches(IsInitial, CanStep, s)
  }

  // ------------------------------------------------------------ the invariant

  ghost predicate NoRepeats(ids: seq<Id>) {
    forall i, j :: 0 <= i < j < |ids| ==> ids[i] != ids[j]
  }

  /** Pending means queued, or being closed. */
  ghost predicate PendingAgrees(s: State) {
    forall id :: id in s.pending <==> id in s.queue || s.closing == Some(id)
  }

  /** Ended, unused and alive, and nothing is going to close it. */
  predicate Missed(s: State, id: Id) {
    id in s.ended && CountOf(s, id) <= 0 && id in s.live && id !in s.pending && !Exempt(s, id)
  }

  /** Only a session created anew is missed, and only a pending one acquired again is in use. */
  ghost predicate Accounted(s: State, id: Id) {
    && (Missed(s, id) ==> id in s.recreated)
    && (id in s.recreated ==> id in s.ended && id in s.live)
    && (id in s.pending && CountOf(s, id) > 0 ==> id in s.reacquired)
  }

  ghost predicate Orderly(s: State) {
    && PendingAgrees(s) && NoRepeats(s.queue)
    && (s.closing.Some? ==> s.closing.value !in s.queue)
    && (s.closing.Some? && s.popped && s.closing.value in s.live ==> s.closing.value in s.recreated || Exempt(s, s.closing.value))
    && (forall id :: id in s.pending ==> id in s.ended && id != s.main)
    && s.main in s.live && s.main !in s.ended
    && (forall g, id :: g in s.groups && id in s.groups[g] ==> id != s.main)
  }

  ghost predicate Invariant(s: State) {
    Orderly(s) && forall id :: Accounted(s, id)
  }

  lemma QueuedKeepsInvariant(s: State, id: Id)
    requires Orderly(s) && id in s.ended && id !in s.pending && CountOf(s, id) <= 0
    requires forall other :: other != id ==> Accounted(s, other)
    ensures Invariant(Queued(s, id))
  {
    forall other ensures Accounted(Queued(s, id), other) {
      assert other != id ==> Accounted(s, other);
    }
  }

  lemma ReleasedKeepsInvariant(s: State, id: Id)
    requires Invariant(s)
    ensures Invariant(Released(s, id))
  {
    if !Exempt(s, id) && id in s.counts {
      var t := s.(counts := s.counts[id := s.counts[id] - 1]);
      assert forall other :: other != id ==> (Accounted(s, other) ==> Accounted(t, other));
      if id in t.ended && t.counts[id] <= 0 && id !in t.pending {
        QueuedKeepsInvariant(t, id);
      } else {
        assert Accounted(s, id);
      }
    }
  }

  lemma EndedSingleKeepsInvariant(s: State, id: Id)
    requires Invariant(s) && id != s.main
    ensures Invariant(EndedSingle(s, id))
    ensures EndedSingle(s, id).main == s.main && EndedSingle(s, id).groups == s.groups
  {
    var t := s.(ended := s.ended + {id});
    assert forall other :: other != id ==> (Accounted(s, other) ==> Accounted(t, other));
    if CountOf(t, id) <= 0 && id !in t.pending {
      QueuedKeepsInvariant(t, id);
    } else {
      assert Accounted(s, id);
    }
  }

  lemma {:induction false} EndedAllKeepsInvariant(s: State, ids: seq<Id>)
    requires Invariant(s) && s.main !in ids
    ensures Invariant(EndedAll(s, ids)) && EndedAll(s, ids).main == s.main
    decreases |ids|
  {
    if ids != [] {
      EndedAllKeepsInvariant(s, ids[..|ids| - 1]);
      EndedSingleKeepsInvariant(EndedAll(s, ids[..|ids| - 1]), ids[|ids| - 1]);
    }
  }

  lemma {:induction false} WithoutIsWithin(ids: seq<Id>, id: Id)
    ensures forall x :: x in Without(ids, id) ==> x in ids
  {
    if ids != [] {
      WithoutIsWithin(ids[1..], id);
    }
  }

  lemma EndedKeepsInvariant(s: State, id: Id, home: Option<Id>)
    requires Invariant(s)
    ensures Invariant(Ended(s, id, home))
  {
    if !Exempt(s, id) {
      if id in s.groups {
        EndedAllKeepsInvariant(s, s.groups[id]);
      } else {
        var t := s.(groups := GroupsWithout(s.groups, id, home));
        if home.Some? && home.value in s.groups {
          WithoutIsWithin(s.groups[home.value], id);
        }
        assert forall other :: Accounted(s, other) ==> Accounted(t, other);
        EndedSingleKeepsInvariant(t, id);
      }
    }
  }

  lemma CreatedKeepsInvariant(s: State, id: Id)
    requires Invariant(s)
    ensures Invariant(Created(s, id)) && Created(s, id).main == s.main && Created(s, id).groups == s.groups
  {
    assert forall other :: Accounted(s, other) ==> Accounted(Created(s, id), other);
  }

  lemma {:induction false} MembersKeepInvariant(s: State, group: Id, ids: seq<Id>)
    requires Invariant(s)
    ensures Invariant(Members(s, group, ids))
    decreases |ids|
  {
    if ids == [] {
      var t := Members(s, group, ids);
      assert forall other :: Accounted(s, other) ==> Accounted(t, other);
    } else {
      var t, id := Members(s, group, ids[..|ids| - 1]), ids[|ids| - 1];
      MembersKeepInvariant(s, group, ids[..|ids| - 1]);
      if id !in t.live {
        CreatedKeepsInvariant(t, id);
        var u := Created(t, id);
        var v := u.(groups := t.groups[group := t.groups[group] + [id]]);
        assert forall other :: Accounted(u, other) ==> Accounted(v, other);
      }
    }
  }

  lemma ReaperKeepsInvariant(s: State, step: Step)
    requires Invariant(s) && Next(s, step).Some? && (step.Take? || step.Pop? || step.Finish?)
    ensures Invariant(Next(s, step).value)
  {
    var t := Next(s, step).value;
    if step.Take? {
      assert s.queue == [s.queue[0]] + s.queue[1..];
    }
    forall id ensures Accounted(t, id) {
      assert Accounted(s, id);
    }
  }

  lemma StepKeepsInvariant(s: State, step: Step)
    requires Invariant(s) && Next(s, step).Some?
    ensures Invariant(Next(s, step).value)
  {
    match step
    case Acquire(id) =>
      forall other ensures Accounted(Acquired(s, id), other) {
        assert Accounted(s, other);
      }
    case Release(id) => ReleasedKeepsInvariant(s, id);
    case MarkEnd(id, home) => EndedKeepsInvariant(s, id, home);
    case Create(id) => CreatedKeepsInvariant(s, id);
    case Register(group, ids) => MembersKeepInvariant(s, group, ids);
    case _ => ReaperKeepsInvariant(s, step);
  }

  lemma ReachableIsInvariant(s: State)
    requires Reachable(s)
    ensures Invariant(s)
  {
    forall u, v | Invariant(u) && CanStep(u, v) ensures Invariant(v) {
      var step :| Next(u, step) == Some(v);
      StepKeepsInvariant(u, step);
    }
    Executions.Induction(IsInitial, CanStep, Invariant, s);
  }

  // ------------------------------------------------------------ what holds

  /** In every reachable state the pending set is exactly the queued ids and the one being closed, no
      id is queued twice, only ended sessions are, and the default session never is. */
  lemma PendingIsExact(s: State, id: Id, i: nat, j: nat)
    requires Reachable(s)
    ensures id in s.pending <==> id in s.queue || s.closing == Some(id)
    ensures i < |s.queue| && j < |s.queue| && s.queue[i] == s.queue[j] ==> i == j
    ensures s.closing.Some? ==> s.closing.value !in s.queue
    ensures id in s.pending ==> id in s.ended && id != s.main
  {
    ReachableIsInvariant(s);
  }

  /** An ended unused session is queued, being closed or gone already; or it is missed, and that is the
      case exactly when it was created anew after its end and has not been queued since. */
  lemma EndedSessionsGoAway(s: State, id: Id)
    requires Reachable(s) && id in s.ended && CountOf(s, id) <= 0 && !Exempt(s, id)
    ensures id in s.queue || s.closing == Some(id) || id !in s.live || Missed(s, id)
    ensures Missed(s, id) <==> id in s.recreated && id !in s.pending
  {
    ReachableIsInvariant(s);
    assert Accounted(s, id);
  }

  lemma {:induction false} EndedAllMisses(s: State, ids: seq<Id>, id: Id)
    ensures Missed(EndedAll(s, ids), id) ==> Missed(s, id)
    ensures EndedAll(s, ids).counts == s.counts && EndedAll(s, ids).live == s.live && EndedAll(s, ids).main == s.main
    decreases |ids|
  {
    if ids != [] {
      EndedAllMisses(s, ids[..|ids| - 1], id);
    }
  }

  lemma {:induction false} MembersChangeLive(s: State, group: Id, ids: seq<Id>)
    ensures var t := Members(s, group, ids);
            && t.counts == s.counts && t.pending == s.pending && t.ended == s.ended && t.main == s.main && s.live <= t.live
    decreases |ids|
  {
    if ids != [] {
      MembersChangeLive(s, group, ids[..|ids| - 1]);
    }
  }

  lemma CallersMiss(s: State, step: Step, id: Id)
    requires Next(s, step).Some? && (step.Acquire? || step.Release? || step.MarkEnd?)
    ensures Missed(Next(s, step).value, id) ==> Missed(s, id)
    ensures Next(s, step).value.live == s.live
  {
    if step.MarkEnd? && !Exempt(s, step.id) {
      if step.id in s.groups {
        EndedAllMisses(s, s.groups[step.id], id);
      }
    }
  }

  /** The two ways in which an ended unused session comes to be missed: it is created anew, or its
      predecessor is done closing when it has no holders. In both nothing queues it until it is acquired
      and released, or ended, once more. */
  lemma MissedExactlyBy(s: State, step: Step, id: Id)
    requires Reachable(s) && Next(s, step).Some?
    ensures var t := Next(s, step).value;
            Missed(t, id) && !Missed(s, id) <==>
              && id in s.ended && CountOf(s, id) <= 0 && !Exempt(s, id)
              && ((id !in s.live && id in t.live && id !in s.pending) || (step == Finish && s.closing == Some(id) && id in s.live))
  {
    ReachableIsInvariant(s);
    assert Accounted(s, id);
    match step
    case Create(_) =>
    case Register(group, ids) => MembersChangeLive(s, group, ids);
    case Take =>
    case Pop =>
    case Finish =>
    case _ => CallersMiss(s, step, id);
  }

  /** A session that waits to be closed, or is being closed, is in use only if it was acquired after it
      was queued. */
  lemma PendingInUse(s: State, id: Id)
    requires Reachable(s) && id in s.pending && CountOf(s, id) > 0
    ensures id in s.reacquired
  {
    ReachableIsInvariant(s);
    assert Accounted(s, id);
  }

  lemma {:induction false} EndedAllQueuesUnused(s: State, ids: seq<Id>, id: Id)
    ensures EndedAll(s, ids).counts == s.counts
    ensures id in EndedAll(s, ids).pending && id !in s.pending ==> CountOf(s, id) <= 0
    decreases |ids|
  {
    if ids != [] {
      EndedAllQueuesUnused(s, ids[..|ids| - 1], id);
    }
  }

  /** Acquiring it is the one step by which a pending session comes to be in use. */
  lemma PendingInUseExactlyBy(s: State, step: Step, id: Id)
    requires Next(s, step).Some?
    ensures var t := Next(s, step).value;
            (id in t.pending && CountOf(t, id) > 0) && !(id in s.pending && CountOf(s, id) > 0)
            <==> step == Acquire(id) && id in s.pending && CountOf(s, id) == 0 && !Exempt(s, id)
  {
    match step
    case MarkEnd(ending, _) =>
      if !Exempt(s, ending) && ending in s.groups {
        EndedAllQueuesUnused(s, s.groups[ending], id);
      }
    case Register(group, ids) => MembersChangeLive(s, group, ids);
    case _ =>
  }

  /** Whatever a step puts into the queue is ended and unused at that moment. */
  ghost predicate QueuesOnlyUnused(s: State, t: State) {
    s.queue <= t.queue && forall k :: |s.queue| <= k < |t.queue| ==> t.queue[k] in t.ended && CountOf(t, t.queue[k]) <= 0
  }

  lemma {:induction false} EndedAllQueuesOnlyUnused(s: State, ids: seq<Id>)
    ensures QueuesOnlyUnused(s, EndedAll(s, ids)) && EndedAll(s, ids).counts == s.counts && s.ended <= EndedAll(s, ids).ended
    decreases |ids|
  {
    if ids != [] {
      EndedAllQueuesOnlyUnused(s, ids[..|ids| - 1]);
    }
  }

  lemma {:induction false} MembersQueueNothing(s: State, group: Id, ids: seq<Id>)
    ensures Members(s, group, ids).queue == s.queue
    decreases |ids|
  {
    if ids != [] {
      MembersQueueNothing(s, group, ids[..|ids| - 1]);
    }
  }

  lemma QueuedWhenUnused(s: State, step: Step)
    requires Next(s, step).Some? && step != Take
    ensures QueuesOnlyUnused(s, Next(s, step).value)
  {
    match step
    case MarkEnd(id, _) =>
      if !Exempt(s, id) && id in s.groups {
        EndedAllQueuesOnlyUnused(s, s.groups[id]);
      }
    case Register(group, ids) => MembersQueueNothing(s, group, ids);
    case _ =>
  }

  /** The reaper is never stuck: undisturbed, it takes the oldest queued session, closes it, and is free for
      the next one; the default session and the empty id are passed over. */
  lemma ReaperClosesTheOldest(s: State)
    requires s.closing.None? && s.queue != []
    ensures var id := s.queue[0];
            var taken := Next(s, Take).value;
            var popped := Next(taken, Pop).value;
            && Next(s, Take).Some? && Next(taken, Pop).Some? && Next(popped, Finish).Some?
            && (var t := Next(popped, Finish).value;
                && t.queue == s.queue[1..] && t.pending == s.pending - {id} && t.closing.None?
                && t.live == (if id == s.main || id == "" then s.live else s.live - {id})
                && t.counts == s.counts && t.ended == s.ended && t.groups == s.groups)
  {
  }

  // ------------------------------------------------------------ whole groups

  /** The place where an id first occurs. */
  function FirstAt(ids: seq<Id>, id: Id): (k: nat)
    requires id in ids
    ensures k < |ids| && ids[k] == id && id !in ids[..k]
  {
    if id in ids[..|ids| - 1] then
      var k := FirstAt(ids[..|ids| - 1], id);
      assert ids[..|ids| - 1][..k] == ids[..k];
      k
    else
      |ids| - 1
  }

  /** The ids of `all` for which `chosen` holds, each once, in the order in which they first occur. */
  ghost predicate PickedFrom(all: seq<Id>, chosen: Id -> bool, picked: seq<Id>) {
    && NoRepeats(picked)
    && (forall id :: id in picked <==> id in all && chosen(id))
    && (forall i, j :: 0 <= i < j < |picked| ==> picked[i] in all && picked[j] in all && FirstAt(all, picked[i]) < FirstAt(all, picked[j]))
  }

  lemma FirstAtGrows(all: seq<Id>, last: Id, id: Id)
    requires id in all
    ensures FirstAt(all + [last], id) == FirstAt(all, id)
  {
    assert (all + [last])[..|all|] == all;
  }

  lemma PickNone(all: seq<Id>, last: Id, chosen: Id -> bool, picked: seq<Id>)
    requires PickedFrom(all, chosen, picked) && (chosen(last) ==> last in picked)
    ensures PickedFrom(all + [last], chosen, picked)
  {
    forall i, j | 0 <= i < j < |picked| ensures FirstAt(all + [last], picked[i]) < FirstAt(all + [last], picked[j]) {
      FirstAtGrows(all, last, picked[i]);
      FirstAtGrows(all, last, picked[j]);
    }
  }

  lemma PickLast(all: seq<Id>, last: Id, chosen: Id -> bool, picked: seq<Id>)
    requires PickedFrom(all, chosen, picked) && chosen(last) && last !in picked
    ensures PickedFrom(all + [last], chosen, picked + [last])
  {
    var more := picked + [last];
    assert last !in all;
    assert (all + [last])[..|all|] == all;
    forall i, j | 0 <= i < j < |more| ensures FirstAt(all + [last], more[i]) < FirstAt(all + [last], more[j]) {
      FirstAtGrows(all, last, picked[i]);
      if j < |picked| {
        FirstAtGrows(all, last, picked[j]);
      }
    }
    forall id ensures id in more <==> id in all + [last] && chosen(id) {
    }
  }

  function IdsOf(ids: seq<Id>): set<Id> {
    set id | id in ids
  }

  lemma OneMoreId(ids: seq<Id>, id: Id)
    ensures IdsOf(ids + [id]) == IdsOf(ids) + {id}
  {
  }

  /** Used by nobody, and not waiting to be closed yet. */
  function Closable(s: State): Id -> bool {
    id => CountOf(s, id) <= 0 && id !in s.pending
  }

  function AfterEnding(s: State, ended: set<Id>, added: seq<Id>): State {
    s.(ended := s.ended + ended, queue := s.queue + added, pending := s.pending + IdsOf(added),
       recreated := s.recreated - IdsOf(added), reacquired := s.reacquired - IdsOf(added))
  }

  /** `t` is `s` with these ids ended, and those of them that can be closed queued. */
  ghost predicate EndedAs(s: State, ids: seq<Id>, added: seq<Id>, t: State) {
    PickedFrom(ids, Closable(s), added) && t == AfterEnding(s, IdsOf(ids), added)
  }

  lemma EndQueued(s: State, ended: set<Id>, added: seq<Id>, id: Id)
    requires CountOf(s, id) <= 0 && id !in AfterEnding(s, ended, added).pending
    ensures EndedSingle(AfterEnding(s, ended, added), id) == AfterEnding(s, ended + {id}, added + [id])
  {
    OneMoreId(added, id);
    assert s.queue + added + [id] == s.queue + (added + [id]);
    assert s.ended + ended + {id} == s.ended + (ended + {id});
  }

  lemma EndOnly(s: State, ended: set<Id>, added: seq<Id>, id: Id)
    requires CountOf(s, id) > 0 || id in AfterEnding(s, ended, added).pending
    ensures EndedSingle(AfterEnding(s, ended, added), id) == AfterEnding(s, ended + {id}, added)
  {
    assert s.ended + ended + {id} == s.ended + (ended + {id});
  }

  lemma EndOneMore(s: State, ids: seq<Id>, added: seq<Id>, t: State, id: Id) returns (more: seq<Id>)
    requires EndedAs(s, ids, added, t)
    ensures EndedAs(s, ids + [id], more, EndedSingle(t, id))
  {
    OneMoreId(ids, id);
    if CountOf(s, id) <= 0 && id !in t.pending {
      more := added + [id];
      PickLast(ids, id, Closable(s), added);
      EndQueued(s, IdsOf(ids), added, id);
    } else {
      more := added;
      PickNone(ids, id, Closable(s), added);
      EndOnly(s, IdsOf(ids), added, id);
    }
  }

  lemma {:induction false} EndedAllIs(s: State, ids: seq<Id>) returns (added: seq<Id>)
    ensures EndedAs(s, ids, added, EndedAll(s, ids))
    decreases |ids|
  {
    if ids == [] {
      added := [];
      assert IdsOf([]) == {} && s.queue + [] == s.queue;
    } else {
      var n := |ids| - 1;
      var fewer := EndedAllIs(s, ids[..n]);
      added := EndOneMore(s, ids[..n], fewer, EndedAll(s, ids[..n]), ids[n]);
      assert ids[..n] + [ids[n]] == ids;
    }
  }

  /** mark_end of a group ends exactly its members; exactly those of them that are unused and not pending
      are queued, once each and in order; and nothing else changes. */
  lemma EndingAGroup(s: State, group: Id, home: Option<Id>) returns (added: seq<Id>)
    requires group in s.groups && group != s.main && group != ""
    ensures EndedAs(s, s.groups[group], added, Ended(s, group, home))
  {
    added := EndedAllIs(s, s.groups[group]);
  }

  lemma {:induction false} WithoutFirst(ids: seq<Id>, id: Id, k: nat)
    requires k < |ids| && ids[k] == id && id !in ids[..k]
    ensures Without(ids, id) == ids[..k] + ids[k + 1..]
    decreases k
  {
    if k > 0 {
      assert ids[0] in ids[..k] && ids[1..][..k - 1] == ids[..k][1..];
      WithoutFirst(ids[1..], id, k - 1);
      assert [ids[0]] + (ids[1..][..k - 1] + ids[1..][k..]) == ids[..k] + ids[k + 1..];
    }
  }

  /** mark_end of a single session ends it alone, and takes its first mention out of its group. */
  lemma EndingASession(s: State, id: Id, home: Option<Id>) returns (added: seq<Id>)
    requires id !in s.groups && id != s.main && id != ""
    requires home.Some? ==> home.value in s.groups && id in s.groups[home.value]
    ensures var t := Ended(s, id, home);
            && EndedAs(s.(groups := t.groups), [id], added, t) && t.groups.Keys == s.groups.Keys
            && (forall g :: g in s.groups && home != Some(g) ==> t.groups[g] == s.groups[g])
            && (home.Some? ==>
                  var all := s.groups[home.value];
                  var k := FirstAt(all, id);
                  t.groups[home.value] == all[..k] + all[k + 1..])
  {
    var u := s.(groups := GroupsWithout(s.groups, id, home));
    added := EndedAllIs(u, [id]);
    assert [id][..0] == [] && EndedAll(u, [id]) == EndedSingle(u, id);
    if home.Some? {
      WithoutFirst(s.groups[home.value], id, FirstAt(s.groups[home.value], id));
    }
  }

  function Missing(s: State): Id -> bool {
    id => id !in s.live
  }

  function AfterRegistering(s: State, group: Id, created: set<Id>, listed: seq<Id>): State {
    s.(live := s.live + created, groups := s.groups[group := listed], recreated := s.recreated + IdsOf(listed) * s.ended)
  }

  /** `t` is `s` with the missing sessions of a batch created, and listed as the group. */
  ghost predicate RegisteredAs(s: State, group: Id, ids: seq<Id>, listed: seq<Id>, t: State) {
    PickedFrom(ids, Missing(s), listed) && t == AfterRegistering(s, group, IdsOf(ids), listed)
  }

  lemma RegisterNew(s: State, group: Id, created: set<Id>, listed: seq<Id>, id: Id)
    requires id !in s.live + created
    ensures var t := AfterRegistering(s, group, created, listed);
            Created(t, id).(groups := t.groups[group := t.groups[group] + [id]])
            == AfterRegistering(s, group, created + {id}, listed + [id])
  {
    OneMoreId(listed, id);
    var t := AfterRegistering(s, group, created, listed);
    assert s.live + created + {id} == s.live + (created + {id});
    assert s.groups[group := listed][group := listed + [id]] == s.groups[group := listed + [id]];
    assert (IdsOf(listed) + {id}) * s.ended == IdsOf(listed) * s.ended + (if id in s.ended then {id} else {});
  }

  lemma RegisterOneMore(s: State, group: Id, ids: seq<Id>, listed: seq<Id>, t: State, id: Id) returns (more: seq<Id>)
    requires RegisteredAs(s, group, ids, listed, t)
    ensures RegisteredAs(s, group, ids + [id], more,
                         if id in t.live then t else Created(t, id).(groups := t.groups[group := t.groups[group] + [id]]))
  {
    OneMoreId(ids, id);
    if id in t.live {
      more := listed;
      PickNone(ids, id, Missing(s), listed);
      assert s.live + (IdsOf(ids) + {id}) == s.live + IdsOf(ids);
    } else {
      more := listed + [id];
      PickLast(ids, id, Missing(s), listed);
      RegisterNew(s, group, IdsOf(ids), listed, id);
    }
  }

  lemma {:induction false} MembersAre(s: State, group: Id, ids: seq<Id>) returns (listed: seq<Id>)
    ensures RegisteredAs(s, group, ids, listed, Members(s, group, ids))
    decreases |ids|
  {
    if ids == [] {
      listed := [];
      assert IdsOf([]) == {} && s.live + {} == s.live && s.recreated + {} * s.ended == s.recreated;
    } else {
      var n := |ids| - 1;
      var fewer := MembersAre(s, group, ids[..n]);
      listed := RegisterOneMore(s, group, ids[..n], fewer, Members(s, group, ids[..n]), ids[n]);
      assert ids[..n] + [ids[n]] == ids;
    }
  }

  /** register_sessions_batch creates exactly the sessions that are not there, and the group lists exactly
      these, once each and in order; and nothing else changes. */
  lemma RegisteringABatch(s: State, group: Id, ids: seq<Id>) returns (listed: seq<Id>)
    ensures ids == [] ==> Registered(s, group, ids) == s
    ensures ids != [] ==> RegisteredAs(s, group, ids, listed, Registered(s, group, ids))
  {
    listed := MembersAre(s, group, ids);
  }

  /** So registering a group and ending it ends every session that it created, and queues it, unless it
      is in use or pending already. */
  lemma RegisteredGroupsEnd(s: State, group: Id, ids: seq<Id>, home: Option<Id>, id: Id)
    requires group != s.main && group != "" && id in ids && id !in s.live
    ensures var t := Ended(Registered(s, group, ids), group, home);
            id in t.ended && (CountOf(s, id) <= 0 ==> id in t.pending)
  {
    var listed := RegisteringABatch(s, group, ids);
    var t := Registered(s, group, ids);
    var added := EndingAGroup(t, group, home);
    assert id in listed && t.groups[group] == listed;
    assert CountOf(t, id) == CountOf(s, id) && t.pending == s.pending;
    if CountOf(s, id) <= 0 && id !in s.pending {
      assert Closable(t)(id);
      assert id in added;
    }
  }

  // ------------------------------------------------------------ what does not

  lemma Extend(s: State, step: Step) returns (t: State)
    requires Reachable(s) && Next(s, step).Some?
    ensures Reachable(t) && t == Next(s, step).value
  {
    t := Next(s, step).value;
    assert CanStep(s, t);
    Executions.Continues(IsInitial, CanStep, s, t);
  }

  lemma Begin(main: Id) returns (s: State)
    ensures Reachable(s) && s == Initial(main)
  {
    s := Initial(main);
    Executions.Starts(IsInitial, CanStep, s);
  }

  lemma QueuedSession() returns (s: State)
    ensures Reachable(s)
    ensures s == State("main", {"main", "a"}, map[], map[], {"a"}, ["a"], {"a"}, None, false, {}, {})
  {
    s := Begin("main");
    s := Extend(s, Create("a"));
    s := Extend(s, MarkEnd("a", None));
  }

  /** A session can be closed while it is in use again: acquiring it does not take it out of the queue. */
  lemma ClosedWhileInUse() returns (s: State)
    ensures Reachable(s) && "a" in s.ended && CountOf(s, "a") == 1 && s.closing == Some("a") && "a" !in s.live
  {
    s := QueuedSession();
    s := Extend(s, Acquire("a"));
    s := Extend(s, Take);
    s := Extend(s, Pop);
  }

  /** A session that is created anew while its predecessor is being closed, and released meanwhile, is
      ended, unused and alive, and nothing will close it. */
  lemma RecreatedWhileClosing() returns (s: State)
    ensures Reachable(s) && "a" in s.ended && CountOf(s, "a") == 0 && "a" in s.live
    ensures s.queue == [] && s.closing == None && s.pending == {}
  {
    s := QueuedSession();
    s := Extend(s, Take);
    s := Extend(s, Pop);
    s := Extend(s, Create("a"));
    s := Extend(s, Acquire("a"));
    s := Extend(s, Release("a"));
    s := Extend(s, Finish);
  }

  // ------------------------------------------------------------ the request limiter

  /** What the clock shows to one waiting request: when it has the lock, and after sleeping until the
      planned start. */
  datatype Tick = Tick(now: real, awake: real)

  function StartOf(planned: real, tick: Tick): real {
    if planned > tick.now then tick.awake else tick.now
  }

  function PlannedAfter(planned: real, tick: Tick, interval: real): real {
    (if StartOf(planned, tick) >= planned then StartOf(planned, tick) else planned) + interval
  }

  /** SessionRequestLimiter: `now` and `awake` are those of a Tick. */
  class RequestLimiter {
    const interval: real
    var nextStart: real

    constructor (interval: real)
      ensures this.interval == interval && nextStart == 0.0
    {
      this.interval, nextStart := interval, 0.0;
    }

    method Wait(now: real, awake: real) returns (start: real)
      requires interval > 0.0
      modifies this
      ensures start == StartOf(old(nextStart), Tick(now, awake))
      ensures nextStart == PlannedAfter(old(nextStart), Tick(now, awake), interval)
    {
      start := now;
      var delay := nextStart - now;
      if delay > 0.0 {
        start := awake;
      }
      nextStart := (if start >= nextStart then start else nextStart) + interval;
    }
  }

  /** The starts of requests that wait one after another. */
  function Starts(planned: real, ticks: seq<Tick>, interval: real): (starts: seq<real>)
    ensures |starts| == |ticks|
    decreases |ticks|
  {
    if ticks == [] then []
    else [StartOf(planned, ticks[0])] + Starts(PlannedAfter(planned, ticks[0], interval), ticks[1..], interval)
  }

  /** No sleep ends more than `early` too soon: a timer is exact up to the resolution of its clock. */
  predicate SleepsEnough(planned: real, ticks: seq<Tick>, interval: real, early: real)
    decreases |ticks|
  {
    ticks != [] ==>
      && (planned > ticks[0].now ==> ticks[0].awake >= planned - early)
      && SleepsEnough(PlannedAfter(planned, ticks[0], interval), ticks[1..], interval, early)
  }

  function Intervals(k: nat, interval: real): real {
    if k == 0 then 0.0 else Intervals(k - 1, interval) + interval
  }

  lemma {:induction false} IntervalsAddUp(k: nat, interval: real)
    ensures Intervals(k, interval) == k as real * interval
  {
    if k > 0 {
      IntervalsAddUp(k - 1, interval);
      assert k as real * interval == ((k - 1) as real + 1.0) * interval == (k - 1) as real * interval + interval;
    }
  }

  lemma {:induction false} StartsAfterPlan(planned: real, ticks: seq<Tick>, interval: real, early: real, j: nat)
    requires interval > 0.0 && early >= 0.0 && j < |ticks| && SleepsEnough(planned, ticks, interval, early)
    ensures Starts(planned, ticks, interval)[j] >= planned + Intervals(j, interval) - early
    decreases j
  {
    if j > 0 {
      StartsAfterPlan(PlannedAfter(planned, ticks[0], interval), ticks[1..], interval, early, j - 1);
    }
  }

  lemma {:induction false} StartsFollow(planned: real, ticks: seq<Tick>, interval: real, early: real, i: nat, j: nat)
    requires interval > 0.0 && early >= 0.0 && i < j < |ticks| && SleepsEnough(planned, ticks, interval, early)
    ensures Starts(planned, ticks, interval)[j] >= Starts(planned, ticks, interval)[i] + Intervals(j - i, interval) - early
    decreases i
  {
    var next := PlannedAfter(planned, ticks[0], interval);
    if i == 0 {
      StartsAfterPlan(next, ticks[1..], interval, early, j - 1);
    } else {
      StartsFollow(next, ticks[1..], interval, early, i - 1, j - 1);
    }
  }

  /** Whatever the clock shows, and however long each request waits for the lock: any two starts are as
      far apart as the rate demands, up to the one sleep that ended early. */
  lemma StartsAreSpaced(planned: real, ticks: seq<Tick>, interval: real, early: real, i: nat, j: nat)
    requires interval > 0.0 && early >= 0.0 && i < j < |ticks| && SleepsEnough(planned, ticks, interval, early)
    ensures var starts := Starts(planned, ticks, interval);
            starts[j] >= starts[i] + (j - i) as real * interval - early
  {
    StartsFollow(planned, ticks, interval, early, i, j);
    IntervalsAddUp(j - i, interval);
  }

  /** When each request may start at the earliest. */
  function Plans(planned: real, ticks: seq<Tick>, interval: real): (plans: seq<real>)
    ensures |plans| == |ticks|
    decreases |ticks|
  {
    if ticks == [] then [] else [planned] + Plans(PlannedAfter(planned, ticks[0], interval), ticks[1..], interval)
  }

  /** No request waits longer than the rate demands: it starts at once unless its planned start is still
      to come, and that is one interval after the start before it, or later by no more than that one was
      early. */
  lemma {:induction false} NobodyWaitsLonger(planned: real, ticks: seq<Tick>, interval: real, early: real, j: nat)
    requires interval > 0.0 && early >= 0.0 && j < |ticks| && SleepsEnough(planned, ticks, interval, early)
    ensures var starts, plans := Starts(planned, ticks, interval), Plans(planned, ticks, interval);
            && starts[j] == (if plans[j] > ticks[j].now then ticks[j].awake else ticks[j].now)
            && plans[0] == planned
            && (j > 0 ==> starts[j - 1] + interval <= plans[j] <= starts[j - 1] + interval + early)
    decreases j
  {
    if j > 0 {
      var next := PlannedAfter(planned, ticks[0], interval);
      NobodyWaitsLonger(next, ticks[1..], interval, early, j - 1);
      assert Plans(next, ticks[1..], interval)[0] == next;
    }
  }
}
