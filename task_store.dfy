/**
 * The durable store adapter: the task list lives, encoded, under the single
 * key "tasks". Loading seeds that key with the initial list when it is
 * missing, empty or unreadable; saving overwrites it with the whole list.
 */
module TaskStore {
  import opened Wrappers
  import opened Tasks
  import opened TaskCodec
  import opened Storage

  const TasksKey: string := "tasks"

  /** What a load hands back, and the table as the load leaves it. */
  datatype Loaded = Loaded(tasks: seq<Task>, items: map<string, string>)

  /** The table holds a non-empty, readable list under "tasks". When it does
      not, a load falls back to the seed list and hands back the seed array
      itself, not a copy. */
  predicate HoldsList(items: map<string, string>) {
    TasksKey in items && items[TasksKey] != "" && Decode(items[TasksKey]).Some?
  }

  /** `loadTasksFromStorage` as a function of the table before the call;
      `initial` is the built-in seed list. It returns either the parsed stored
      list or the seed list, and it writes, if at all, only the seed list
      under "tasks". */
  function Load(items: map<string, string>, initial: seq<Task>): (r: Loaded)
    ensures r.items == items || r.items == items[TasksKey := Encode(initial)]
    ensures r.tasks == initial || (TasksKey in items && Decode(items[TasksKey]) == Some(r.tasks))
  {
    if HoldsList(items) then
      Loaded(Decode(items[TasksKey]).value, items)
    else
      Loaded(initial, items[TasksKey := Encode(initial)])
  }

  /** Whatever path a load takes, the key "tasks" afterwards holds exactly the
      list it returned. */
  lemma LoadLeavesResultStored(items: map<string, string>, initial: seq<Task>)
    ensures var r := Load(items, initial);
            TasksKey in r.items && Decode(r.items[TasksKey]) == Some(r.tasks)
  {
    RoundTrip(initial);
  }

  /** Reads the stored list; on a missing, empty or unreadable value, writes
      the seed list under "tasks" and returns it. Never fails. */
  method LoadTasksFromStorage(st: LocalStorage, initial: seq<Task>) returns (tasks: seq<Task>)
    modifies st
    ensures Loaded(tasks, st.items) == Load(old(st.items), initial)
  {
    var stored := st.GetItem(TasksKey);
    if stored.Some? && stored.value != "" {
      var parsed := Decode(stored.value);
      if parsed.Some? {
        return parsed.value;
      }
    }
    st.SetItem(TasksKey, Encode(initial));
    tasks := initial;
  }

  /** Writes the whole list under "tasks", whatever was there before. */
  method SaveTasksToStorage(st: LocalStorage, tasks: seq<Task>)
    modifies st
    ensures st.items == old(st.items)[TasksKey := Encode(tasks)]
  {
    st.SetItem(TasksKey, Encode(tasks));
  }

  /** A load right after a save returns the saved list and writes nothing. */
  lemma LoadAfterSave(items: map<string, string>, tasks: seq<Task>, initial: seq<Task>)
    ensures var saved := items[TasksKey := Encode(tasks)];
            Load(saved, initial) == Loaded(tasks, saved)
  {
    RoundTrip(tasks);
  }

  /** A missing key, an empty string or text that does not parse: the seed
      list is written under "tasks" and returned. */
  lemma LoadSeeds(items: map<string, string>, initial: seq<Task>)
    requires TasksKey !in items || items[TasksKey] == "" || Decode(items[TasksKey]).None?
    ensures Load(items, initial) == Loaded(initial, items[TasksKey := Encode(initial)])
  {
  }

  /** Stored text that parses is returned as is, and the table is not written. */
  lemma LoadDecoded(items: map<string, string>, initial: seq<Task>, tasks: seq<Task>)
    requires TasksKey in items && Decode(items[TasksKey]) == Some(tasks)
    ensures Load(items, initial) == Loaded(tasks, items)
  {
  }

  /** A second load changes nothing the first one did not already. */
  lemma LoadIdempotent(items: map<string, string>, initial: seq<Task>)
    ensures var first := Load(items, initial);
            Load(first.items, initial) == first
  {
    LoadLeavesResultStored(items, initial);
  }
}
