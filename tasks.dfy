/** The task record the board stores, shows and edits. */
module Tasks {

  /** `{id, title, description, status}`. The status is free text: nothing in
      the repository checks it against "todo", "doing" and "done". */
  datatype Task = Task(id: int, title: string, description: string, status: string)

  /** Every id in the list occurs once. */
  ghost predicate UniqueIds(tasks: seq<Task>) {
    forall i, j :: 0 <= i < j < |tasks| ==> tasks[i].id != tasks[j].id
  }

  predicate HasId(tasks: seq<Task>, id: int) {
    exists i :: 0 <= i < |tasks| && tasks[i].id == id
  }
}
