/**
 * The three commands as they run against `tasks.json`. Each loads the list (empty
 * when the file does not exist), changes its local copy in place, and writes the
 * whole list back only when the change succeeded.
 */
module TaskStore {
  import opened Wrappers
  import opened PyInt
  import opened Tasks

  class Store {
    /** The contents of `tasks.json`; None while the file does not exist. */
    var file: Option<seq<Task>>

    constructor (initial: Option<seq<Task>>)
      ensures file == initial
    {
      file := initial;
    }

    /** The list a command starts from: the saved one, or empty when there is no file. */
    function Load(): seq<Task>
      reads this
    {
      match file
      case None => []
      case Some(ts) => ts
    }

    /** `add(task)`: always saves; returns the id it prints. */
    method Add(description: string, date: string) returns (id: int)
      modifies this
      ensures id == NextId(old(Load()))
      ensures file == Some(Added(old(Load()), description, date))
      ensures old(UniqueIds(Load())) ==> UniqueIds(Load())
      ensures old(IdsIncreasing(Load())) ==> IdsIncreasing(Load())
    {
      var tasks := Load();
      AddedKeepsIds(tasks, description, date);
      id := NextId(tasks);
      tasks := tasks + [Task(id, description, Todo, date, date)];
      file := Some(tasks);
    }

    /**
     * `update(id, task)`: edits the task at Python index `int(id) - 1`. A malformed
     * id or an index out of range writes nothing.
     */
    method Update(idText: string, description: string, date: string) returns (r: Outcome)
      modifies this
      ensures UpdateTarget(old(Load()), idText).Failure? ==>
                r == UpdateTarget(old(Load()), idText).error && file == old(file)
      ensures UpdateTarget(old(Load()), idText).Success? ==>
                r == Saved
                && file == Some(Retitled(old(Load()), UpdateTarget(old(Load()), idText).value, description, date))
      ensures old(UniqueIds(Load())) ==> UniqueIds(Load())
      ensures old(IdsIncreasing(Load())) ==> IdsIncreasing(Load())
    {
      var tasks := Load();
      var parsed := ParseInt(idText);
      if parsed.None? {
        return InvalidIdFormat;
      }
      var index := PyIndex(parsed.value - 1, |tasks|);
      if index.None? {
        return NotFound;
      }
      var k := index.value;
      RetitledKeepsIds(tasks, k, description, date);
      tasks := tasks[k := tasks[k].(description := description)];
      tasks := tasks[k := tasks[k].(updatedAt := date)];
      assert tasks == Retitled(old(Load()), k, description, date);
      file := Some(tasks);
      r := Saved;
    }

    /**
     * `delete(id)`: scans from the front and removes the first task whose `id`
     * field matches; writes the file only when it found one.
     */
    method Delete(idText: string) returns (r: Outcome)
      modifies this
      ensures DeleteTarget(old(Load()), idText).Failure? ==>
                r == DeleteTarget(old(Load()), idText).error && file == old(file)
      ensures DeleteTarget(old(Load()), idText).Success? ==>
                r == Saved
                && file == Some(Removed(old(Load()), DeleteTarget(old(Load()), idText).value))
      ensures old(UniqueIds(Load())) ==> UniqueIds(Load())
      ensures old(IdsIncreasing(Load())) ==> IdsIncreasing(Load())
    {
      var tasks := Load();
      var parsed := ParseInt(idText);
      if parsed.None? {
        return InvalidIdFormat;
      }
      var id := parsed.value;
      var found := false;
      var element := 0;
      while element < |tasks|
        invariant 0 <= element <= |tasks|
        invariant tasks == old(Load())
        invariant forall j :: 0 <= j < element ==> tasks[j].id != id
      {
        if tasks[element].id == id {
          RemovedKeepsIds(tasks, element);
          tasks := tasks[..element] + tasks[element + 1..];
          found := true;
          break;
        }
        element := element + 1;
      }
      if found {
        file := Some(tasks);
        r := Saved;
      } else {
        r := NotFound;
      }
    }
  }
}
