/**
 * The task repository: create, update and delete, each a load-modify-save
 * round trip over the "tasks" key. Form values arrive as parameters; clearing
 * and re-rendering the board afterwards is view work and not modelled.
 */
module TaskManager {
  import opened Wrappers
  import opened Text
  import opened Tasks
  import opened TaskCodec
  import opened TaskStore
  import opened Storage

  /** `Math.max(...tasks.map(t => t.id))`. */
  function MaxId(tasks: seq<Task>): (m: int)
    requires |tasks| > 0
    ensures forall i :: 0 <= i < |tasks| ==> tasks[i].id <= m
    ensures exists i :: 0 <= i < |tasks| && tasks[i].id == m
  {
    if |tasks| == 1 then tasks[0].id
    else
      var m := MaxId(tasks[1..]);
      assert forall i :: 1 <= i < |tasks| ==> tasks[i] == tasks[1..][i - 1];
      if tasks[0].id >= m then tasks[0].id else m
  }

  /** The id a new task gets: one more than the largest id, or 1 on an empty
      board. It exceeds every id in use, so it is fresh. */
  function NextId(tasks: seq<Task>): (id: int)
    ensures |tasks| == 0 ==> id == 1
    ensures forall i :: 0 <= i < |tasks| ==> tasks[i].id < id
    ensures |tasks| > 0 ==> HasId(tasks, id - 1)
  {
    if |tasks| > 0 then MaxId(tasks) + 1 else 1
  }

  /** `[...tasks, newTask]`. */
  function Appended(tasks: seq<Task>, title: string, description: string, status: string): (r: seq<Task>)
    ensures |r| == |tasks| + 1 && r[..|tasks|] == tasks
    ensures r[|tasks|] == Task(NextId(tasks), title, description, status)
  {
    tasks + [Task(NextId(tasks), title, description, status)]
  }

  /** The edit form's partial task: `id` always, the other fields only when
      given (`None` is a field the object does not have). */
  datatype TaskPatch = TaskPatch(id: int, title: Option<string>, description: Option<string>, status: Option<string>)

  /** `{ ...t, ...p }`: fields present in `p` overwrite, absent ones are kept. */
  function Merge(t: Task, p: TaskPatch): (r: Task)
    ensures r.id == p.id
    ensures r.title == (if p.title.Some? then p.title.value else t.title)
    ensures r.description == (if p.description.Some? then p.description.value else t.description)
    ensures r.status == (if p.status.Some? then p.status.value else t.status)
  {
    Task(p.id, p.title.GetOr(t.title), p.description.GetOr(t.description), p.status.GetOr(t.status))
  }

  /** Merging the same patch twice is merging it once. */
  lemma MergeIdempotent(t: Task, p: TaskPatch)
    ensures Merge(Merge(t, p), p) == Merge(t, p)
  {
  }

  /** `findIndex(t => t.id === id)`: the first position holding `id`, or -1. */
  function FirstMatch(tasks: seq<Task>, id: int): (i: int)
    ensures -1 <= i < |tasks|
    ensures i == -1 <==> !HasId(tasks, id)
    ensures i >= 0 ==> tasks[i].id == id && forall k :: 0 <= k < i ==> tasks[k].id != id
  {
    if tasks == [] then -1
    else if tasks[0].id == id then 0
    else
      var j := FirstMatch(tasks[1..], id);
      assert forall k :: 1 <= k < |tasks| ==> tasks[k] == tasks[1..][k - 1];
      if j == -1 then -1 else j + 1
  }

  /** The search loop behind `findIndex`. */
  method FindIndex(tasks: seq<Task>, id: int) returns (idx: int)
    ensures idx == FirstMatch(tasks, id)
  {
    var i := 0;
    while i < |tasks|
      invariant 0 <= i <= |tasks|
      invariant forall k :: 0 <= k < i ==> tasks[k].id != id
    {
      if tasks[i].id == id {
        return i;
      }
      i := i + 1;
    }
    return -1;
  }

  /** `tasks.filter(t => t.id !== id)`. */
  function RemoveId(tasks: seq<Task>, id: int): (r: seq<Task>)
    ensures |r| <= |tasks|
    ensures forall t :: t in r <==> t in tasks && t.id != id
  {
    if tasks == [] then []
    else (if tasks[0].id == id then [] else [tasks[0]]) + RemoveId(tasks[1..], id)
  }

  /** The filter keeps the order: it works piecewise over a concatenation. */
  lemma {:induction false} RemoveIdAppend(a: seq<Task>, b: seq<Task>, id: int)
    ensures RemoveId(a + b, id) == RemoveId(a, id) + RemoveId(b, id)
  {
    if a != [] {
      assert (a + b)[1..] == a[1..] + b;
      RemoveIdAppend(a[1..], b, id);
    } else {
      assert a + b == b;
    }
  }

  /** Deleting an id nobody has gives the same list back. */
  lemma {:induction false} RemoveIdAbsent(tasks: seq<Task>, id: int)
    requires !HasId(tasks, id)
    ensures RemoveId(tasks, id) == tasks
  {
    if tasks != [] {
      assert !HasId(tasks[1..], id) by {
        assert forall k :: 0 <= k < |tasks| - 1 ==> tasks[1..][k] == tasks[k + 1];
      }
      RemoveIdAbsent(tasks[1..], id);
    }
  }

  /** With unique ids, delete takes away exactly one task when the id is in
      use and none otherwise. */
  lemma {:induction false} RemoveIdCount(tasks: seq<Task>, id: int)
    requires UniqueIds(tasks)
    ensures |RemoveId(tasks, id)| == if HasId(tasks, id) then |tasks| - 1 else |tasks|
  {
    if tasks != [] {
      var rest := tasks[1..];
      assert forall k :: 0 <= k < |rest| ==> rest[k] == tasks[k + 1];
      assert UniqueIds(rest);
      if tasks[0].id == id {
        assert !HasId(rest, id);
        RemoveIdAbsent(rest, id);
      } else {
        assert HasId(tasks, id) <==> HasId(rest, id);
        RemoveIdCount(rest, id);
      }
    }
  }

  /** Create keeps the ids unique. */
  lemma AppendedKeepsIdsUnique(tasks: seq<Task>, title: string, description: string, status: string)
    requires UniqueIds(tasks)
    ensures UniqueIds(Appended(tasks, title, description, status))
  {
  }

  /** Update keeps the ids unique: the merged task keeps the id it was found by. */
  lemma UpdateKeepsIdsUnique(tasks: seq<Task>, p: TaskPatch)
    requires UniqueIds(tasks) && HasId(tasks, p.id)
    ensures var idx := FirstMatch(tasks, p.id);
            UniqueIds(tasks[idx := Merge(tasks[idx], p)])
  {
  }

  /** Delete keeps the ids unique. */
  lemma {:induction false} RemoveIdKeepsIdsUnique(tasks: seq<Task>, id: int)
    requires UniqueIds(tasks)
    ensures UniqueIds(RemoveId(tasks, id))
  {
    if tasks != [] {
      var rest := tasks[1..];
      assert forall k :: 0 <= k < |rest| ==> rest[k] == tasks[k + 1];
      RemoveIdKeepsIdsUnique(rest, id);
      var r := RemoveId(rest, id);
      if tasks[0].id != id {
        forall t | t in r ensures t.id != tasks[0].id {
          assert t in rest;
        }
      }
    }
  }

  /** The board: a class holding the shared storage and the seed list. The
      seed list is a field the repository can change: a load that falls back
      to it hands back that very array, so an update on that path edits it. */
  class TaskRepository {
    const store: LocalStorage
    var initialTasks: seq<Task>

    constructor (store: LocalStorage, initialTasks: seq<Task>)
      ensures this.store == store && this.initialTasks == initialTasks
    {
      this.store := store;
      this.initialTasks := initialTasks;
    }

    /** The list a load would show now. */
    ghost function Board(): seq<Task>
      reads this, store
    {
      Load(store.items, initialTasks).tasks
    }

    /** `addNewTask`: refuses a title that trims to nothing without touching
        storage; otherwise appends one task with a fresh id, the trimmed title
        and description, and the status as given, and saves the whole list. */
    method AddNewTask(titleInput: string, descriptionInput: string, status: string)
      modifies store
      ensures Trim(titleInput) == [] ==> store.items == old(store.items)
      ensures Trim(titleInput) != [] ==>
        store.items == old(store.items)[TasksKey := Encode(Appended(old(Board()), Trim(titleInput), Trim(descriptionInput), status))]
    {
      var title := Trim(titleInput);
      var description := Trim(descriptionInput);
      if title == [] {
        return;
      }
      var tasks := LoadTasksFromStorage(store, initialTasks);
      assert tasks == old(Board());
      var newTask := Task(NextId(tasks), title, description, status);
      var updatedTasks := tasks + [newTask];
      assert updatedTasks == Appended(tasks, title, description, status);
      SaveTasksToStorage(store, updatedTasks);
    }

    /** `updateTask`: merges the patch onto the first task with its id and
        saves; when no task has that id nothing is saved, so storage is as
        the load left it. When the load fell back to the seed list, the list
        being edited is the seed array itself, so the merge lands in the seed
        list as well. */
    method UpdateTask(updated: TaskPatch)
      modifies this, store
      ensures var loaded := Load(old(store.items), old(initialTasks));
              var idx := FirstMatch(loaded.tasks, updated.id);
              if idx == -1 then store.items == loaded.items
              else store.items == old(store.items)[TasksKey := Encode(loaded.tasks[idx := Merge(loaded.tasks[idx], updated)])]
      ensures var idx := FirstMatch(old(initialTasks), updated.id);
              if !HoldsList(old(store.items)) && idx != -1
              then initialTasks == old(initialTasks)[idx := Merge(old(initialTasks)[idx], updated)]
              else initialTasks == old(initialTasks)
    {
      var seeded := !HoldsList(store.items);
      var tasks := LoadTasksFromStorage(store, initialTasks);
      var idx := FindIndex(tasks, updated.id);
      if idx == -1 {
        return;
      }
      tasks := tasks[idx := Merge(tasks[idx], updated)];
      if seeded {
        // `tasks[idx] = …` writes into the shared seed array.
        initialTasks := tasks;
      }
      SaveTasksToStorage(store, tasks);
    }

    /** `deleteTask`: drops every task with the id, keeps the rest in order,
        and saves the result even when nothing matched. */
    method DeleteTask(id: int)
      modifies store
      ensures store.items == old(store.items)[TasksKey := Encode(RemoveId(old(Board()), id))]
    {
      var loaded := LoadTasksFromStorage(store, initialTasks);
      var tasks := RemoveId(loaded, id);
      SaveTasksToStorage(store, tasks);
    }
  }
}
