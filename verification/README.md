# Task Tracker CLI: a verified model of the task-list commands

The task tracker is a command-line program. It keeps a list of tasks in `tasks.json`. Each task has an `id`, a `description`, a `status`, a `createdAt` time and an `updatedAt` time. Every run reads the list, changes it, and writes the whole list back when the command succeeds. This project models the three commands the program implements:

- `add <description>` appends a `todo` task. Its id is one more than the largest id present, or 1 when the list is empty.
- `update <id> <description>` changes the description and update time of one task. The task is chosen by Python list index `int(id) - 1`, so the id is a 1-based **position**, not a lookup by the `id` field. `0` therefore picks the last task, and any index from `-len` to `len - 1` is accepted.
- `delete <id>` removes the first task whose `id` field equals `int(id)`.

It also models the dispatcher that checks `argv` before any command runs.

Layout:

- `wrappers.dfy`: the `Option` and `Result` types that replace Python's exceptions.
- `pyint.dfy` (module `PyInt`) covers three Python built-ins:
  - `int()` on an argument string;
  - the decimal text that an `int` prints as;
  - the position that `xs[i]` selects, including negative `i`.
- `tasks.dfy` (module `Tasks`):
  - the `Task` record and the pure list computations: next id, first index by id, the update and delete targets, and the resulting lists;
  - the invariants these computations preserve.
- `store.dfy` (module `TaskStore`): the class `Store`, whose field `file` holds the contents of `tasks.json` (`None` while the file does not exist). `Add`, `Update` and `Delete` change a local copy of the list in place and assign `file` only when the command saves.
- `cli.dfy` (module `Cli`): argument routing and one whole invocation, `Run`.
- `scenarios.dfy` (module `Scenarios`): concrete scenarios showing the positional `update`, the reuse of ids, and `delete` undoing `add`.

Two behaviours of the code are worth knowing, because a reader might expect otherwise:

- Ids can be reused. The code computes `max(ids) + 1`, so the next id is always one more than the largest remaining id. Deleting the task `add` has just appended makes the next `add` hand out its id again (`Scenarios.DeletedMaximumIsReused`). Deleting a task whose id is below the maximum leaves the next id unchanged (`Tasks.RemovedBelowMaxKeepsNextId`).
- There are no `mark-todo`, `mark-in-progress`, `mark-done` or `list` commands. `main` rejects those tokens as an invalid operation, and so does `Cli.Route`.

## Model

| member | source | states |
|---|---|---|
| `PyInt.ParseInt` | main.py:44 | `int(id)` succeeds exactly on an optionally signed, non-empty run of decimal digits; a negative result comes only from a leading `-`; None stands for the ValueError |
| `PyInt.SignedLiterals` | main.py:44 | for a non-empty run of digits, `int()` reads it as its decimal value; a leading `+` or a leading `0` does not change the value, and a leading `-` negates it |
| `PyInt.ParseDecimal` | main.py:28 | the id that `add` prints parses back through `int()` to the same id |
| `PyInt.PyIndex` | main.py:45 | `tasks[i]` on a list of length n is valid exactly when `-n <= i < n`, and then it selects position `i mod n` (the last element for `i = -1`) |
| `Tasks.MaxId` | main.py:17 | `max(ids, default=0)`: 0 for an empty list; otherwise an id that occurs in the list and is at least every id |
| `Tasks.NextId` | main.py:17 | the new id exceeds every existing id, is 1 for an empty list, and is otherwise one more than an id present |
| `Tasks.Added` | main.py:17-25 | the list `add` saves: the loaded list followed by a `todo` task with `NextId` and `date` as both timestamps (its properties are stated by `Tasks.AddedShape` and `Tasks.AddedKeepsIds`) |
| `Tasks.AddedShape` | main.py:18-25 | `add` yields the old list unchanged plus one task at the end, with the new id, the given description, status `todo` and `createdAt == updatedAt == date` |
| `Tasks.AddedKeepsIds` | main.py:17-25 | `add` preserves unique ids and preserves ids increasing in list order |
| `Tasks.Retitled` | main.py:45-46 | `update` keeps the length; every other task is unchanged; the edited task keeps its id, status and createdAt and gets the new description and updatedAt |
| `Tasks.RetitledKeepsIds` | main.py:45-46 | `update` preserves unique ids and increasing ids |
| `Tasks.FirstIndexOf` | main.py:71-76 | the scan stops at a task with the requested id, and no earlier task has that id; None exactly when no task has it |
| `Tasks.Removed` | main.py:73 | `del tasks[k]` shortens the list by one; tasks before k are kept; tasks after k move down one place in the same order |
| `Tasks.RemovedKeepsIds` | main.py:71-76 | `delete` preserves unique ids and increasing ids |
| `Tasks.RemovedIdIsGone` | main.py:71-76 | with unique ids, no task with the deleted id is left after `delete` |
| `Tasks.RemovedBelowMaxKeepsNextId` | main.py:17 | deleting a task whose id is below the maximum does not change the next id handed out |
| `Tasks.IncreasingIsUnique` | main.py:17 | a list whose ids increase in order, as `add` builds it, has unique ids |
| `Tasks.UpdateTarget` | main.py:43-50 | `update` reports an invalid format exactly when `int()` fails; it reports not-found exactly when `int(id) - 1` is outside `-len..len-1`; it finds a task exactly when the id parses and `int(id) - 1` is inside that range, and then it edits position `(int(id) - 1) mod len` |
| `Tasks.DeleteTarget` | main.py:69-84 | `delete` reports an invalid format exactly when `int()` fails; it reports not-found exactly when no task has that id; it finds a task exactly when the id parses and some task has it, and then it removes a task with that id before which none has it |
| `Tasks.DeleteUndoesAdd` | main.py:17-76 | deleting the id that `add` reported removes exactly the appended task and gives back the list as it was before `add` |
| `Tasks.PositionIsIdWhileDense` | main.py:44-72 | while ids equal positions counted from 1, the positional lookup of `update` and the id lookup of `delete` agree for every parsed id except those from `1 - len` to 0; for those, `update` edits position `len + id - 1` and `delete` reports not-found |
| `TaskStore.Store.Load` | main.py:11-16 | the list a command starts from: the saved list, or the empty list while `tasks.json` does not exist |
| `TaskStore.Store.Add` | main.py:6-28 | returns `NextId` of the loaded list and saves the loaded list with the new task appended (creating the file if absent); keeps unique and increasing ids |
| `TaskStore.Store.Update` | main.py:31-54 | on a failed target, returns the error and leaves the file unchanged (not created); otherwise saves the list with only that position retitled; keeps id invariants |
| `TaskStore.Store.Delete` | main.py:57-84 | the loop removes the first task with the parsed id and saves; with a bad id or no match, returns the error and leaves the file unchanged; keeps id invariants |
| `Cli.Route` | main.py:92-120 | no operation token gives a missing-operation error; an unknown token gives an invalid-operation error; a known one with too few arguments (`add` and `delete` need more than 2 argv entries, `update` more than 3) gives a missing-argument error naming it; otherwise the command's words are `argv[1..]` |
| `Cli.RouteWords` | main.py:92-114 | any command typed after a program name, followed by any extra arguments, routes back to exactly that command |
| `Cli.Run` | main.py:87-123 | a usage error leaves the file untouched; otherwise the routed command has the effect and the report of `add`, `update` or `delete`; unique ids and increasing ids are kept |
| `Scenarios.AddToMissingFile` | main.py:11-28 | with no file, `add "buy milk"` reports id 1 and creates the list `[{id 1, "buy milk", todo, date, date}]` |
| `Scenarios.UpdateUsesPosition` | main.py:44-45 | on tasks with ids 5 and 9, `update 2` edits the task with id 9, while `delete 2` finds nothing |
| `Scenarios.UpdateZeroIsLast` | main.py:44-49 | `update 0` edits the last task and reports not-found on an empty list |
| `Scenarios.DeletedMaximumIsReused` | main.py:17 | after deleting the task `add` just created, the next `add` hands out the same id again |
| `Scenarios.AddThenDelete` | main.py:6-84 | `add` followed by `delete` of the printed id reports success and saves the original list |

## Left out

- Reading and writing `tasks.json` as JSON, including the 4-space indentation. A load is the current `file` value, or `[]` when the file is absent. A save replaces `file`.
- Malformed stored data: broken JSON, a missing key (KeyError), or a non-integer `id`. The model assumes every stored entry is a well-formed task. JSON's `1 == 1.0` equality for ids is not modelled.
- Statuses other than `todo`, `in-progress` and `done` in a hand-edited file cannot be represented, since `Status` is an enumeration. None of the modelled commands reads the status.
- The clock: `date` (the `strftime` of the current time) is an opaque string parameter.
- Console messages and `sys.exit(1)`. They are replaced by the `Outcome`, `UsageError` and `Report` values.
- `PyInt.ParseInt`: accepts only an optional sign followed by ASCII digits. Python's `int()` also accepts surrounding whitespace, underscores between digits and non-ASCII decimal digits. Conversely, the model has no digit limit. Python 3.10.7 and later reject a decimal string of more than 4300 digits (the default `sys.get_int_max_str_digits()`). For such an id, `update` and `delete` report not-found here, where the program reports an invalid id format. The file stays unchanged in both cases.
- The `mark-*` and `list` commands: main.py does not implement them, so there is no code to model.
- Concurrent invocations racing on `tasks.json`.
- The console entry point in setup.py is not part of this model.
