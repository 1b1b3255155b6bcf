/**
 * The command line: `argv[1]` names the operation and the following entries are its
 * operands. Arity is checked before any operation runs; extra entries are ignored.
 */
module Cli {
  import opened Wrappers
  import opened Tasks
  import opened TaskStore

  datatype Command =
    | AddTask(description: string)
    | UpdateTask(id: string, description: string)
    | DeleteTask(id: string)

  /** The errors that end the process before the task list is touched. */
  datatype UsageError = MissingOperation | MissingArgument(operation: string) | InvalidOperation

  /** What one invocation reports in place of its console output. */
  datatype Report = Rejected(error: UsageError) | Created(id: int) | Finished(outcome: Outcome)

  /** The operation name and operands a command is typed with, after the program name. */
  function Words(c: Command): seq<string> {
    match c
    case AddTask(d) => ["add", d]
    case UpdateTask(i, d) => ["update", i, d]
    case DeleteTask(i) => ["delete", i]
  }

  /** The fewest `argv` entries, program name included, each known operation needs. */
  function MinArgc(operation: string): Option<nat> {
    if operation == "add" then Some(3)
    else if operation == "update" then Some(4)
    else if operation == "delete" then Some(3)
    else None
  }

  /** The `__main__` guard followed by the `match` in `main(operation)`. */
  function Route(argv: seq<string>): (r: Result<Command, UsageError>)
    ensures r == Failure(MissingOperation) <==> |argv| <= 1
    ensures r == Failure(InvalidOperation) <==> |argv| > 1 && MinArgc(argv[1]).None?
    ensures (r.Failure? && r.error.MissingArgument?) <==>
              |argv| > 1 && MinArgc(argv[1]).Some? && |argv| < MinArgc(argv[1]).value
    ensures r.Failure? && r.error.MissingArgument? ==> r.error.operation == argv[1]
    ensures r.Success? ==> 1 + |Words(r.value)| <= |argv| && argv[1..1 + |Words(r.value)|] == Words(r.value)
  {
    if |argv| <= 1 then Failure(MissingOperation)
    else
      match argv[1]
      case "add" =>
        if |argv| <= 2 then Failure(MissingArgument("add")) else Success(AddTask(argv[2]))
      case "update" =>
        if |argv| <= 3 then Failure(MissingArgument("update")) else Success(UpdateTask(argv[2], argv[3]))
      case "delete" =>
        if |argv| <= 2 then Failure(MissingArgument("delete")) else Success(DeleteTask(argv[2]))
      case _ => Failure(InvalidOperation)
  }

  /** Every command, typed after any program name and followed by anything, routes back to itself. */
  lemma RouteWords(c: Command, program: string, rest: seq<string>)
    ensures Route([program] + Words(c) + rest) == Success(c)
  {
  }

  /**
   * One invocation: route the arguments, then run the chosen command against the
   * store with `date` as the current time. A usage error leaves the file untouched.
   */
  method Run(store: Store, argv: seq<string>, date: string) returns (r: Report)
    modifies store
    ensures Route(argv).Failure? ==> r == Rejected(Route(argv).error) && store.file == old(store.file)
    ensures Route(argv).Success? && Route(argv).value.AddTask? ==>
              r == Created(NextId(old(store.Load())))
              && store.file == Some(Added(old(store.Load()), Route(argv).value.description, date))
    ensures Route(argv).Success? && Route(argv).value.UpdateTask? ==>
              var target := UpdateTarget(old(store.Load()), Route(argv).value.id);
              && (target.Failure? ==> r == Finished(target.error) && store.file == old(store.file))
              && (target.Success? ==>
                    r == Finished(Saved)
                    && store.file == Some(Retitled(old(store.Load()), target.value, Route(argv).value.description, date)))
    ensures Route(argv).Success? && Route(argv).value.DeleteTask? ==>
              var target := DeleteTarget(old(store.Load()), Route(argv).value.id);
              && (target.Failure? ==> r == Finished(target.error) && store.file == old(store.file))
              && (target.Success? ==>
                    r == Finished(Saved) && store.file == Some(Removed(old(store.Load()), target.value)))
    ensures old(UniqueIds(store.Load())) ==> UniqueIds(store.Load())
    ensures old(IdsIncreasing(store.Load())) ==> IdsIncreasing(store.Load())
  {
    match Route(argv)
    case Failure(e) =>
      r := Rejected(e);
    case Success(AddTask(d)) =>
      var id := store.Add(d, date);
      r := Created(id);
    case Success(UpdateTask(i, d)) =>
      var outcome := store.Update(i, d, date);
      r := Finished(outcome);
    case Success(DeleteTask(i)) =>
      var outcome := store.Delete(i);
      r := Finished(outcome);
  }
}
