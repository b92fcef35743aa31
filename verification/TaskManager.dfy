/** The managed-task counters of scrapy_cffi/core/tasks.py: every counter and event is kept in
    step with the collection of tasks that are really alive. */
module TaskManagement {
  import opened Common

  /** A task name: the bound function's name and, when it is a bound method, its object. */
  datatype Label = Label(func: string, owner: Option<nat>)

  predicate Excluded(name: Label, prefixes: seq<string>) {
    exists k :: 0 <= k < |prefixes| && prefixes[k] <= name.func
  }

  /** A name that wait_for_object_quiescent waits for. */
  predicate IsWork(name: Label, obj: nat, prefixes: seq<string>) {
    name.owner == Some(obj) && !Excluded(name, prefixes)
  }

  /** How many of `live` satisfy membership in `group`. */
  ghost function CountIn(live: seq<Label>, group: set<Label>): nat {
    if live == [] then 0
    else CountIn(live[1..], group) + (if live[0] in group then 1 else 0)
  }

  ghost function CountOwned(live: seq<Label>, obj: nat): nat {
    if live == [] then 0
    else CountOwned(live[1..], obj) + (if live[0].owner == Some(obj) then 1 else 0)
  }

  ghost function Without(live: seq<Label>, k: nat): seq<Label>
    requires k < |live|
  {
    live[..k] + live[k + 1..]
  }

  lemma {:induction false} CountOwnedAppend(a: seq<Label>, b: seq<Label>, obj: nat)
    ensures CountOwned(a + b, obj) == CountOwned(a, obj) + CountOwned(b, obj)
  {
    if a == [] {
      assert a + b == b;
    } else {
      assert (a + b)[1..] == a[1..] + b;
      CountOwnedAppend(a[1..], b, obj);
    }
  }

  lemma CountOwnedWithout(live: seq<Label>, k: nat, obj: nat)
    requires k < |live|
    ensures CountOwned(Without(live, k), obj)
         == CountOwned(live, obj) - (if live[k].owner == Some(obj) then 1 else 0)
  {
    assert live == live[..k] + ([live[k]] + live[k + 1..]);
    CountOwnedAppend(live[..k], [live[k]] + live[k + 1..], obj);
    CountOwnedAppend([live[k]], live[k + 1..], obj);
    CountOwnedAppend(live[..k], live[k + 1..], obj);
  }

  lemma {:induction false} CountOwnedPositive(live: seq<Label>, obj: nat)
    ensures CountOwned(live, obj) > 0 <==> exists k :: 0 <= k < |live| && live[k].owner == Some(obj)
  {
    if live != [] {
      CountOwnedPositive(live[1..], obj);
      if k :| 0 <= k < |live| - 1 && live[1..][k].owner == Some(obj) {
        assert live[k + 1].owner == Some(obj);
      }
      if k :| 0 < k < |live| && live[k].owner == Some(obj) {
        assert live[1..][k - 1].owner == Some(obj);
      }
    }
  }

  lemma {:induction false} CountInGrows(live: seq<Label>, group: set<Label>, name: Label)
    requires name !in group
    ensures CountIn(live, group + {name}) == CountIn(live, group) + multiset(live)[name]
  {
    if live != [] {
      assert live == [live[0]] + live[1..];
      CountInGrows(live[1..], group, name);
    }
  }

  lemma {:induction false} CountInEmpty(live: seq<Label>)
    ensures CountIn(live, {}) == 0
  {
    if live != [] {
      CountInEmpty(live[1..]);
    }
  }

  lemma WithoutMultiset(live: seq<Label>, k: nat)
    requires k < |live|
    ensures multiset(Without(live, k)) == multiset(live) - multiset{live[k]}
  {
    assert live == live[..k] + ([live[k]] + live[k + 1..]);
  }

  ghost predicate NamesAgree(live: seq<Label>, names: map<Label, int>) {
    && (forall name :: name in names <==> name in live)
    && (forall name :: name in names ==> names[name] == multiset(live)[name])
  }

  ghost predicate ObjectsAgree(live: seq<Label>, objects: map<nat, int>) {
    && (forall obj :: obj in objects <==> CountOwned(live, obj) > 0)
    && (forall obj :: obj in objects ==> objects[obj] == CountOwned(live, obj))
  }

  ghost predicate IdleAgree(live: seq<Label>, objects: map<nat, int>, idle: map<nat, bool>) {
    && objects.Keys <= idle.Keys
    && (forall obj :: obj in idle ==> (idle[obj] <==> obj !in objects))
  }

  /** active_task_names after one more task with this label. */
  function NamesPlus(names: map<Label, int>, name: Label): map<Label, int> {
    names[name := (if name in names then names[name] else 0) + 1]
  }

  /** active_task_names after one task with this label finished; a zero count is dropped. */
  function NamesMinus(names: map<Label, int>, name: Label): map<Label, int>
    requires name in names
  {
    if names[name] - 1 <= 0 then names - {name} else names[name := names[name] - 1]
  }

  /** active_object_tasks after one more task of this object. */
  function ObjectsPlus(objects: map<nat, int>, obj: nat): map<nat, int> {
    objects[obj := (if obj in objects then objects[obj] else 0) + 1]
  }

  /** active_object_tasks after one task of this object finished. */
  function ObjectsMinus(objects: map<nat, int>, obj: nat): map<nat, int>
    requires obj in objects
  {
    if objects[obj] - 1 <= 0 then objects - {obj} else objects[obj := objects[obj] - 1]
  }

  lemma NamesAfterRegister(live: seq<Label>, names: map<Label, int>, name: Label)
    requires NamesAgree(live, names)
    ensures NamesAgree(live + [name], NamesPlus(names, name))
  {
    assert multiset(live + [name]) == multiset(live) + multiset{name};
    assert forall other :: other in live <==> multiset(live)[other] > 0;
  }

  lemma NamesAfterFinish(live: seq<Label>, names: map<Label, int>, k: nat)
    requires NamesAgree(live, names) && k < |live|
    ensures live[k] in names
    ensures NamesAgree(Without(live, k), NamesMinus(names, live[k]))
  {
    WithoutMultiset(live, k);
    assert forall other :: other in live <==> multiset(live)[other] > 0;
    assert forall other :: other in Without(live, k) <==> multiset(Without(live, k))[other] > 0;
  }

  lemma ObjectsAfterRegister(live: seq<Label>, objects: map<nat, int>, idle: map<nat, bool>, name: Label)
    requires ObjectsAgree(live, objects) && IdleAgree(live, objects, idle)
    ensures name.owner.None? ==> ObjectsAgree(live + [name], objects) && IdleAgree(live + [name], objects, idle)
    ensures name.owner.Some? ==>
              var obj := name.owner.value;
              var objects' := ObjectsPlus(objects, obj);
              ObjectsAgree(live + [name], objects') && IdleAgree(live + [name], objects', idle[obj := false])
  {
    forall obj: nat
      ensures CountOwned(live + [name], obj)
           == CountOwned(live, obj) + (if name.owner == Some(obj) then 1 else 0)
    {
      CountOwnedAppend(live, [name], obj);
    }
  }

  lemma ObjectsAfterFinish(live: seq<Label>, objects: map<nat, int>, idle: map<nat, bool>, k: nat)
    requires ObjectsAgree(live, objects) && IdleAgree(live, objects, idle) && k < |live|
    ensures var owner := live[k].owner;
            && (owner.None? ==> ObjectsAgree(Without(live, k), objects) && IdleAgree(Without(live, k), objects, idle))
            && (owner.Some? ==>
                  && owner.value in objects
                  && var objects' := ObjectsMinus(objects, owner.value);
                     && ObjectsAgree(Without(live, k), objects')
                     && IdleAgree(Without(live, k), objects',
                                  if owner.value in objects' then idle else idle[owner.value := true]))
  {
    forall obj: nat
      ensures CountOwned(Without(live, k), obj)
           == CountOwned(live, obj) - (if live[k].owner == Some(obj) then 1 else 0)
    {
      CountOwnedWithout(live, k, obj);
    }
    if live[k].owner.Some? {
      CountOwnedPositive(live, live[k].owner.value);
    }
  }

  class TaskManager {
    /** 1 for a distributed crawler, which keeps one permanent unit of activity. */
    const reserved: nat
    var activeTasks: int
    var activeNames: map<Label, int>
    var activeObjects: map<nat, int>
    var objectIdle: map<nat, bool>
    var objectActivity: map<nat, bool>
    var tasksDone: bool
    /** The tasks created and not yet past their final bookkeeping. */
    ghost var live: seq<Label>

    ghost predicate Valid()
      reads this
    {
      && activeTasks == reserved + |live|
      && NamesAgree(live, activeNames)
      && ObjectsAgree(live, activeObjects)
      && IdleAgree(live, activeObjects, objectIdle)
      && (live != [] ==> !tasksDone)
      && (live == [] && reserved == 0 ==> tasksDone)
    }

    constructor (isDistributed: bool)
      ensures Valid() && live == [] && reserved == (if isDistributed then 1 else 0)
    {
      reserved := if isDistributed then 1 else 0;
      activeTasks := if isDistributed then 1 else 0;
      activeNames, activeObjects := map[], map[];
      objectIdle, objectActivity := map[], map[];
      tasksDone := true;
      live := [];
    }

    /** One task fewer under this name; the name disappears with its last task. */
    method NameDown(name: Label)
      requires name in activeNames
      modifies this`activeNames
      ensures activeNames == NamesMinus(old(activeNames), name)
    {
      activeNames := activeNames[name := activeNames[name] - 1];
      if activeNames[name] <= 0 {
        activeNames := activeNames - {name};
      }
    }

    /** One more task for an object: its count grows and both of its events are updated. */
    method OwnerUp(obj: nat)
      requires IdleAgree(live, activeObjects, objectIdle)
      modifies this`activeObjects, this`objectIdle, this`objectActivity
      ensures activeObjects == ObjectsPlus(old(activeObjects), obj)
      ensures objectIdle == old(objectIdle)[obj := false]
      ensures objectActivity == old(objectActivity)[obj := true]
    {
      if obj !in objectIdle {
        objectIdle := objectIdle[obj := false];
      }
      var owned := if obj in activeObjects then activeObjects[obj] else 0;
      activeObjects := activeObjects[obj := owned + 1];
      objectIdle := objectIdle[obj := false];
      objectActivity := objectActivity[obj := true];
    }

    /** One task fewer: the last one drops the count and publishes the idle event. */
    method OwnerDown(obj: nat)
      requires obj in activeObjects
      modifies this`activeObjects, this`objectIdle, this`objectActivity
      ensures activeObjects == ObjectsMinus(old(activeObjects), obj)
      ensures objectIdle == if obj in activeObjects then old(objectIdle) else old(objectIdle)[obj := true]
      ensures objectActivity == old(objectActivity)[obj := true]
    {
      activeObjects := activeObjects[obj := activeObjects[obj] - 1];
      if activeObjects[obj] <= 0 {
        activeObjects := activeObjects - {obj};
        objectIdle := objectIdle[obj := true];
      }
      objectActivity := objectActivity[obj := true];
    }

    /** The counting half of create(): runs under the manager's lock before the task exists. */
    method Register(name: Label)
      requires Valid()
      modifies this
      ensures Valid() && live == old(live) + [name]
      ensures name.owner.Some? ==> name.owner.value in objectActivity && objectActivity[name.owner.value]
    {
      NamesAfterRegister(live, activeNames, name);
      ObjectsAfterRegister(live, activeObjects, objectIdle, name);
      activeTasks := activeTasks + 1;
      var count := if name in activeNames then activeNames[name] else 0;
      activeNames := activeNames[name := count + 1];
      tasksDone := false;
      if name.owner.Some? {
        OwnerUp(name.owner.value);
      }
      live := live + [name];
    }

    /** The bookkeeping in wrapped()'s finally block, which also undoes a failed create(). */
    method Finish(ghost k: nat, name: Label)
      requires Valid()
      requires k < |live| && live[k] == name
      modifies this
      ensures Valid() && live == Without(old(live), k)
      ensures reserved == 0 ==> (tasksDone <==> live == [])
      ensures name.owner.Some? ==> name.owner.value in objectActivity && objectActivity[name.owner.value]
    {
      NamesAfterFinish(live, activeNames, k);
      ObjectsAfterFinish(live, activeObjects, objectIdle, k);
      activeTasks := activeTasks - 1;
      NameDown(name);
      if activeTasks <= 0 {
        tasksDone := true;
      }
      if name.owner.Some? {
        OwnerDown(name.owner.value);
      }
      live := Without(live, k);
    }

    /** The scan inside wait_for_object_quiescent. */
    method HasWork(obj: nat, excludePrefixes: seq<string>) returns (hasWork: bool)
      requires Valid()
      ensures hasWork <==> exists k :: 0 <= k < |live| && IsWork(live[k], obj, excludePrefixes)
    {
      hasWork := false;
      var rest := activeNames.Keys;
      while rest != {}
        invariant rest <= activeNames.Keys
        invariant hasWork <==> exists name :: name in activeNames.Keys - rest && IsWork(name, obj, excludePrefixes)
        decreases |rest|
      {
        var name :| name in rest;
        if activeNames[name] > 0 && IsWork(name, obj, excludePrefixes) {
          hasWork := true;
        }
        rest := rest - {name};
      }
    }

    /** One round of wait_for_object_quiescent: a busy scan arms the activity event, which the next
        Register or Finish of this object sets again, so no transition can be missed. */
    method QuiescentScan(obj: nat, excludePrefixes: seq<string>) returns (quiet: bool)
      requires Valid()
      modifies this`objectActivity
      ensures Valid()
      ensures quiet <==> !exists k :: 0 <= k < |live| && IsWork(live[k], obj, excludePrefixes)
      ensures objectActivity == if quiet then old(objectActivity) else old(objectActivity)[obj := false]
    {
      var busy := HasWork(obj, excludePrefixes);
      quiet := !busy;
      if busy {
        objectActivity := objectActivity[obj := false];
      }
    }

    /** The sum inside wait_for_object_task_count_below. */
    method CountWithPrefix(obj: nat, prefixes: seq<string>) returns (total: int)
      requires Valid()
      ensures total == CountIn(live, set name | name in live && name.owner == Some(obj) && Excluded(name, prefixes))
    {
      total := 0;
      var rest := activeNames.Keys;
      ghost var counted: set<Label> := {};
      CountInEmpty(live);
      while rest != {}
        invariant rest <= activeNames.Keys
        invariant counted == set name | name in activeNames.Keys - rest && name.owner == Some(obj) && Excluded(name, prefixes)
        invariant total == CountIn(live, counted)
        decreases |rest|
      {
        var name :| name in rest;
        if activeNames[name] > 0 && name.owner == Some(obj) && Excluded(name, prefixes) {
          CountInGrows(live, counted, name);
          total := total + activeNames[name];
          counted := counted + {name};
        }
        rest := rest - {name};
      }
      assert counted == set name | name in live && name.owner == Some(obj) && Excluded(name, prefixes);
    }
  }
}
