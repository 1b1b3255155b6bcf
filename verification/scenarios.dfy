/** Concrete scenarios of the commands that pin down their observable behaviour. */
module Scenarios {
  import opened Wrappers
  import opened PyInt
  import opened Tasks
  import opened TaskStore

  /**
   * With no `tasks.json`, `add "buy milk"` reports id 1 and creates the file holding
   * that one `todo` task.
   */
  method AddToMissingFile(date: string) returns (store: Store, id: int)
    ensures id == 1
    ensures store.file == Some([Task(1, "buy milk", Todo, date, date)])
  {
    store := new Store(None);
    assert store.Load() == [];
    id := store.Add("buy milk", date);
    assert [] + [Task(1, "buy milk", Todo, date, date)] == [Task(1, "buy milk", Todo, date, date)];
  }

  /**
   * `update 2` on the tasks with ids 5 and 9 edits the second one, the task with id
   * 9, although no task has id 2 (`delete 2` finds nothing).
   */
  lemma UpdateUsesPosition(a: Task, b: Task)
    requires a.id == 5 && b.id == 9
    ensures UpdateTarget([a, b], "2") == Success(1)
    ensures DeleteTarget([a, b], "2") == Failure(NotFound)
  {
  }

  /** `update 0` selects index -1, i.e. the last task; on an empty list it finds nothing. */
  lemma UpdateZeroIsLast(ts: seq<Task>)
    ensures ts != [] ==> UpdateTarget(ts, "0") == Success(|ts| - 1)
    ensures ts == [] ==> UpdateTarget(ts, "0") == Failure(NotFound)
  {
  }

  /**
   * Ids are reused: deleting the task `add` has just appended makes the next `add`
   * hand out its id again. In general the next id is one more than the largest
   * remaining id.
   */
  lemma DeletedMaximumIsReused(ts: seq<Task>, description: string, date: string)
    ensures var withNew := Added(ts, description, date);
      NextId(Removed(withNew, |ts|)) == withNew[|ts|].id
  {
  }

  /** `delete` of the id that `add` reported restores the earlier list. */
  method AddThenDelete(store: Store, description: string, date: string) returns (id: int, outcome: Outcome)
    modifies store
    ensures outcome == Saved
    ensures store.file == Some(old(store.Load()))
  {
    ghost var before := store.Load();
    id := store.Add(description, date);
    DeleteUndoesAdd(before, description, date);
    outcome := store.Delete(Decimal(id));
  }
}
