/**
 * The task records kept in `tasks.json` and the list computations that the `add`,
 * `update` and `delete` commands perform on them, as values.
 */
module Tasks {
  import opened Wrappers
  import opened PyInt

  datatype Status = Todo | InProgress | Done

  /** One JSON object of the task list. */
  datatype Task = Task(id: int, description: string, status: Status, createdAt: string, updatedAt: string)

  /** What `update` and `delete` report instead of printing. */
  datatype Outcome = Saved | InvalidIdFormat | NotFound

  /** Every id occurs at most once. */
  predicate UniqueIds(ts: seq<Task>) {
    forall i, j :: 0 <= i < j < |ts| ==> ts[i].id != ts[j].id
  }

  /** Ids grow strictly in list order, as a list built only by `add` has them. */
  predicate IdsIncreasing(ts: seq<Task>) {
    forall i, j :: 0 <= i < j < |ts| ==> ts[i].id < ts[j].id
  }

  /** `max((task["id"] for task in tasks), default=0)`. */
  function MaxId(ts: seq<Task>): (m: int)
    ensures ts == [] ==> m == 0
    ensures forall k :: 0 <= k < |ts| ==> ts[k].id <= m
    ensures ts != [] ==> exists k :: 0 <= k < |ts| && ts[k].id == m
  {
    if ts == [] then 0
    else if |ts| == 1 then ts[0].id
    else
      var m := MaxId(ts[..|ts| - 1]);
      if ts[|ts| - 1].id > m then ts[|ts| - 1].id else m
  }

  /** The id `add` gives a new task. */
  function NextId(ts: seq<Task>): (id: int)
    ensures forall k :: 0 <= k < |ts| ==> ts[k].id < id
    ensures ts == [] ==> id == 1
    ensures ts != [] ==> exists k :: 0 <= k < |ts| && ts[k].id == id - 1
  {
    MaxId(ts) + 1
  }

  /** The list `add` saves: a fresh `todo` task appended after all others. */
  function Added(ts: seq<Task>, description: string, date: string): (r: seq<Task>)
    ensures |r| == |ts| + 1 && r[..|ts|] == ts
    ensures forall k :: 0 <= k < |ts| ==> r[k].id < r[|ts|].id
    ensures r[|ts|].description == description && r[|ts|].status == Todo
    ensures r[|ts|].createdAt == date && r[|ts|].updatedAt == date
  {
    ts + [Task(NextId(ts), description, Todo, date, date)]
  }

  /** The list after `update` set the description and the update time of task k. */
  function Retitled(ts: seq<Task>, k: nat, description: string, date: string): (r: seq<Task>)
    requires k < |ts|
    ensures |r| == |ts|
    ensures forall j :: 0 <= j < |ts| && j != k ==> r[j] == ts[j]
    ensures r[k].id == ts[k].id && r[k].status == ts[k].status && r[k].createdAt == ts[k].createdAt
    ensures r[k].description == description && r[k].updatedAt == date
  {
    ts[k := ts[k].(description := description, updatedAt := date)]
  }

  /** The list after `del tasks[k]`. */
  function Removed(ts: seq<Task>, k: nat): (r: seq<Task>)
    requires k < |ts|
    ensures |r| == |ts| - 1
    ensures forall j :: 0 <= j < k ==> r[j] == ts[j]
    ensures forall j :: k <= j < |r| ==> r[j] == ts[j + 1]
  {
    ts[..k] + ts[k + 1..]
  }

  /** The position of the first task whose `id` field is `id`. */
  function FirstIndexOf(ts: seq<Task>, id: int): (r: Option<nat>)
    ensures r.Some? ==> r.value < |ts| && ts[r.value].id == id
    ensures forall k :: 0 <= k < |ts| && ts[k].id == id ==> r.Some? && r.value <= k
  {
    if ts == [] then None
    else if ts[0].id == id then Some(0)
    else match FirstIndexOf(ts[1..], id)
      case None => None
      case Some(k) => Some(k + 1)
  }

  /**
   * The task `update` edits for the argument `idText`: the one at Python index
   * `int(idText) - 1`, which is a position in the list and not an `id` field.
   */
  function UpdateTarget(ts: seq<Task>, idText: string): (r: Result<nat, Outcome>)
    ensures r == Failure(InvalidIdFormat) <==> ParseInt(idText).None?
    ensures r == Failure(NotFound) <==>
      ParseInt(idText).Some? && !(-|ts| <= ParseInt(idText).value - 1 < |ts|)
    ensures r.Success? <==> ParseInt(idText).Some? && -|ts| <= ParseInt(idText).value - 1 < |ts|
    ensures r.Success? ==> r.value < |ts| && r.value == (ParseInt(idText).value - 1) % |ts|
  {
    match ParseInt(idText)
    case None => Failure(InvalidIdFormat)
    case Some(n) =>
      match PyIndex(n - 1, |ts|)
      case None => Failure(NotFound)
      case Some(k) => Success(k)
  }

  /** The task `delete` removes for the argument `idText`: the first whose `id` is `int(idText)`. */
  function DeleteTarget(ts: seq<Task>, idText: string): (r: Result<nat, Outcome>)
    ensures r == Failure(InvalidIdFormat) <==> ParseInt(idText).None?
    ensures r == Failure(NotFound) <==>
      ParseInt(idText).Some? && forall k :: 0 <= k < |ts| ==> ts[k].id != ParseInt(idText).value
    ensures r.Success? <==>
              ParseInt(idText).Some? && exists k :: 0 <= k < |ts| && ts[k].id == ParseInt(idText).value
    ensures r.Success? ==>
              && r.value < |ts| && ParseInt(idText).Some?
              && ts[r.value].id == ParseInt(idText).value
              && forall k :: 0 <= k < r.value ==> ts[k].id != ParseInt(idText).value
  {
    match ParseInt(idText)
    case None => Failure(InvalidIdFormat)
    case Some(n) =>
      match FirstIndexOf(ts, n)
      case None => Failure(NotFound)
      case Some(k) => Success(k)
  }

  // ----- What the operations preserve -----

  lemma IncreasingIsUnique(ts: seq<Task>)
    requires IdsIncreasing(ts)
    ensures UniqueIds(ts)
  {
  }

  /** `add` keeps ids unique and, on a list built by `add`, keeps them increasing. */
  lemma AddedKeepsIds(ts: seq<Task>, description: string, date: string)
    ensures UniqueIds(ts) ==> UniqueIds(Added(ts, description, date))
    ensures IdsIncreasing(ts) ==> IdsIncreasing(Added(ts, description, date))
  {
  }

  /** `add` appends exactly one task and leaves the earlier ones as they were. */
  lemma AddedShape(ts: seq<Task>, description: string, date: string)
    ensures var r := Added(ts, description, date);
      |r| == |ts| + 1 && r[..|ts|] == ts
      && r[|ts|].id == NextId(ts) && r[|ts|].description == description
      && r[|ts|].status == Todo && r[|ts|].createdAt == r[|ts|].updatedAt == date
  {
  }

  /** `update` changes no id, so it keeps every id invariant. */
  lemma RetitledKeepsIds(ts: seq<Task>, k: nat, description: string, date: string)
    requires k < |ts|
    ensures UniqueIds(ts) ==> UniqueIds(Retitled(ts, k, description, date))
    ensures IdsIncreasing(ts) ==> IdsIncreasing(Retitled(ts, k, description, date))
  {
  }

  /** `delete` keeps the remaining tasks in order, so it keeps every id invariant. */
  lemma RemovedKeepsIds(ts: seq<Task>, k: nat)
    requires k < |ts|
    ensures UniqueIds(ts) ==> UniqueIds(Removed(ts, k))
    ensures IdsIncreasing(ts) ==> IdsIncreasing(Removed(ts, k))
  {
  }

  /** With unique ids, `delete` leaves no task with the deleted id. */
  lemma RemovedIdIsGone(ts: seq<Task>, k: nat)
    requires k < |ts| && UniqueIds(ts)
    ensures forall j :: 0 <= j < |ts| - 1 ==> Removed(ts, k)[j].id != ts[k].id
  {
  }

  /** An id that occurs in the list and bounds every id is the maximum. */
  lemma MaxIdIsBound(ts: seq<Task>, i: nat, m: int)
    requires i < |ts| && ts[i].id == m
    requires forall k :: 0 <= k < |ts| ==> ts[k].id <= m
    ensures MaxId(ts) == m
  {
  }

  lemma RemovedIdsBounded(ts: seq<Task>, k: nat, m: int)
    requires k < |ts|
    requires forall p :: 0 <= p < |ts| ==> ts[p].id <= m
    ensures forall p :: 0 <= p < |ts| - 1 ==> Removed(ts, k)[p].id <= m
  {
  }

  /**
   * Deleting a task whose id is below the maximum leaves the next id unchanged, so
   * the next `add` does not hand that id out.
   */
  lemma RemovedBelowMaxKeepsNextId(ts: seq<Task>, k: nat)
    requires k < |ts| && ts[k].id < MaxId(ts)
    ensures NextId(Removed(ts, k)) == NextId(ts)
  {
    var m := MaxId(ts);
    var j :| 0 <= j < |ts| && ts[j].id == m;
    RemovedKeepsOther(ts, k, j);
  }

  /** A task other than the deleted one that carries the maximum id keeps the maximum. */
  lemma RemovedKeepsOther(ts: seq<Task>, k: nat, j: nat)
    requires k < |ts| && j < |ts| && j != k
    requires forall p :: 0 <= p < |ts| ==> ts[p].id <= ts[j].id
    ensures MaxId(Removed(ts, k)) == ts[j].id
  {
    var r := Removed(ts, k);
    var i := if j < k then j else j - 1;
    assert r[i] == ts[j];
    RemovedIdsBounded(ts, k, ts[j].id);
    MaxIdIsBound(r, i, ts[j].id);
  }

  /** `delete` on the id `add` just printed removes exactly the task `add` appended. */
  lemma DeleteUndoesAdd(ts: seq<Task>, description: string, date: string)
    ensures DeleteTarget(Added(ts, description, date), Decimal(NextId(ts))) == Success(|ts|)
    ensures Removed(Added(ts, description, date), |ts|) == ts
  {
    var r := Added(ts, description, date);
    ParseDecimal(NextId(ts));
    assert r[|ts|].id == NextId(ts);
    assert r[..|ts|] == ts;
  }

  /**
   * While the ids are exactly the positions counted from 1 (no task was ever
   * deleted), `update`'s positional lookup and `delete`'s lookup by id agree on
   * every id except 0 and the negative ones that are still valid Python indices:
   * there `update` edits a task counted from the end, while `delete` finds nothing.
   */
  lemma PositionIsIdWhileDense(ts: seq<Task>, idText: string)
    requires forall k :: 0 <= k < |ts| ==> ts[k].id == k + 1
    requires ParseInt(idText).Some?
    ensures var n := ParseInt(idText).value;
      !(1 - |ts| <= n <= 0) ==> UpdateTarget(ts, idText) == DeleteTarget(ts, idText)
    ensures var n := ParseInt(idText).value;
      1 - |ts| <= n <= 0 ==>
        UpdateTarget(ts, idText) == Success(|ts| + n - 1) && DeleteTarget(ts, idText) == Failure(NotFound)
  {
    var n := ParseInt(idText).value;
    if 1 <= n <= |ts| {
      assert ts[n - 1].id == n;
    }
  }
}
