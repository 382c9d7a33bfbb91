/** What the controller calls do to a whole batch: the queue, the allocator, the aggregate status. */
module Batch {
  import opened Tables
  import opened Transitions

  predicate WellFormed(db: Db) {
    forall t :: 0 <= t < |db.tasks| ==> |db.tasks[t].stages| == STAGE_COUNT && db.tasks[t].groups != []
  }

  function WithTask(db: Db, t: nat, task: Task): Db
    requires t < |db.tasks|
  {
    db.(tasks := db.tasks[t := task])
  }

  // ---------------------------------------------------------------- refresh and aggregate status

  function RefreshAll(db: Db): (r: Db)
    requires WellFormed(db)
    ensures WellFormed(r)
  {
    db.(tasks := seq(|db.tasks|, (t: nat) requires t < |db.tasks| => Refreshed(db.tasks[t])))
  }

  predicate LostStage(st: Stage) {
    st.state.FailedTerminal? || st.state.Rejected?
  }

  predicate AnyLost(t: Task) {
    exists i :: 0 <= i < |t.stages| && LostStage(t.stages[i])
  }

  predicate AtBoundary(t: Task)
    requires |t.stages| == STAGE_COUNT
  {
    var x := t.stages[EVALUATE_ABSOLUTE].state;
    x.Ready? || x.Succeeded? || x.Canceled?
  }

  /** Every task reached the evaluation boundary and a complete evaluation is impossible. */
  predicate MustSkip(db: Db)
    requires WellFormed(db)
  {
    && db.tasks != []
    && (forall t :: 0 <= t < |db.tasks| ==> AtBoundary(db.tasks[t]))
    && (exists t :: 0 <= t < |db.tasks| && AnyLost(db.tasks[t]))
  }

  function SkippedEvaluation(t: Task): (r: Task)
    requires |t.stages| == STAGE_COUNT
    ensures |r.stages| == STAGE_COUNT
  {
    var st := t.stages[EVALUATE_ABSOLUTE];
    if st.state.Ready? then WithStage(t, EVALUATE_ABSOLUTE, st.(state := Canceled, error := Some(EvaluationSkipped))) else t
  }

  function SkipIncomplete(db: Db): (r: Db)
    requires WellFormed(db)
    ensures WellFormed(r) && |r.tasks| == |db.tasks|
  {
    if MustSkip(db)
    then db.(tasks := seq(|db.tasks|, (t: nat) requires t < |db.tasks| => SkippedEvaluation(db.tasks[t])))
    else db
  }

  function Statuses(tasks: seq<Task>): set<TaskStatus> {
    set t | 0 <= t < |tasks| :: tasks[t].status
  }

  function BatchStatusOf(statuses: set<TaskStatus>): BatchStatus {
    if statuses == {TaskSucceeded} then BatchSucceeded
    else if statuses <= {TaskSucceeded, TaskCanceled} && TaskCanceled in statuses then BatchCanceled
    else if statuses <= {TaskSucceeded, TaskFailed, TaskRejected, TaskCanceled}
         && (TaskFailed in statuses || TaskRejected in statuses) then BatchFailed
    else BatchRunning
  }

  function Restated(db: Db): (r: Db)
    requires WellFormed(db)
    ensures WellFormed(r) && |r.tasks| == |db.tasks|
  {
    var tasks := seq(|db.tasks|, (t: nat) requires t < |db.tasks| => db.tasks[t].(status := StatusOf(db.tasks[t])));
    db.(tasks := tasks, status := BatchStatusOf(Statuses(tasks)))
  }

  function Aggregated(db: Db): (r: Db)
    requires WellFormed(db)
    ensures WellFormed(r) && |r.tasks| == |db.tasks|
  {
    Restated(SkipIncomplete(db))
  }

  // ---------------------------------------------------------------- resource allocation

  type Key = (nat, nat, nat)

  function LeaseAt(db: Db, k: Key): Option<Lease> {
    if k.0 < |db.tasks| then LeaseOf(db.tasks[k.0], k.1, k.2) else None
  }

  /** The attempts whose lease rows, revoked or not, hold `r`. */
  function Holders(db: Db, r: Resource): set<Key> {
    set t: nat, s: nat, a: nat | t < |db.tasks| && s < |db.tasks[t].stages| && a < |db.tasks[t].stages[s].attempts|
      && LeaseOf(db.tasks[t], s, a).Some? && r in LeaseOf(db.tasks[t], s, a).value.resources :: (t, s, a)
  }

  predicate LabelTaken(db: Db, r: Resource, name: nat) {
    exists k :: k in Holders(db, r) && LeaseAt(db, k).Some? && r in LeaseAt(db, k).value.resources
      && LeaseAt(db, k).value.resources[r] == name
  }

  type Capacities = map<Resource, int>

  function CapacityOf(capacities: Capacities, r: Resource): int {
    if r in capacities then capacities[r] else 0
  }

  /** The first GPU of the pool prefix that no lease names. */
  function FreeGpu(db: Db, pool: seq<nat>): (g: Option<nat>)
    ensures g.Some? ==> g.value in pool && !LabelTaken(db, RemoteGpu, g.value)
    ensures g.None? ==> forall x :: x in pool ==> LabelTaken(db, RemoteGpu, x)
  {
    if pool == [] then None
    else if !LabelTaken(db, RemoteGpu, pool[0]) then Some(pool[0])
    else FreeGpu(db, pool[1..])
  }

  function PoolPrefix(db: Db, capacity: int): seq<nat> {
    if capacity <= 0 then [] else if capacity < |db.pool| then db.pool[..capacity] else db.pool
  }

  function AllocateOne(db: Db, project: nat, r: Resource, capacities: Capacities): Option<nat> {
    if r.ProjectLock? then
      if LabelTaken(db, ProjectLock, project) then None else Some(project)
    else if CapacityOf(capacities, r) <= 0 then None
    else if r.RemoteGpu? then FreeGpu(db, PoolPrefix(db, CapacityOf(capacities, r)))
    else if |Holders(db, r)| >= CapacityOf(capacities, r) then None
    else Some(|Holders(db, r)|)
  }

  /** All resources of a stage or none. */
  function Allocate(db: Db, project: nat, resources: seq<Resource>, capacities: Capacities): (r: Option<Allocation>)
    ensures r.Some? ==> forall x :: x in r.value <==> x in resources
    ensures r.Some? ==> forall x :: x in r.value ==> AllocateOne(db, project, x, capacities) == Some(r.value[x])
  {
    if resources == [] then Some(map[])
    else
      var rest := Allocate(db, project, resources[1..], capacities);
      var one := AllocateOne(db, project, resources[0], capacities);
      if one.None? || rest.None? then None else Some(rest.value[resources[0] := one.value])
  }

  // ---------------------------------------------------------------- the queue

  datatype Filter = Filter(project: Option<nat>, task: Option<nat>, stage: Option<nat>)

  datatype Row = Row(task: nat, stage: nat)

  predicate Admits(f: Filter, db: Db, r: Row)
    requires r.task < |db.tasks|
  {
    && (f.project.Some? ==> db.tasks[r.task].project == f.project.value)
    && (f.task.Some? ==> r.task == f.task.value)
    && (f.stage.Some? ==> r.stage == f.stage.value)
  }

  predicate Eligible(db: Db, now: Time, f: Filter, r: Row) {
    && r.task < |db.tasks| && r.stage < |db.tasks[r.task].stages|
    && db.tasks[r.task].stages[r.stage].notBefore <= now
    && (var x := db.tasks[r.task].stages[r.stage].state;
        x.Ready? || (r.stage == IMAGE_EDIT && (x.Leased? || x.Running?)))
    && Admits(f, db, r)
  }

  function LastDispatch(t: Task): Time {
    if t.last.Some? then t.last.value else -1.0
  }

  /** ORDER BY last dispatch, stage index descending, project order, task order. */
  predicate Before(db: Db, r: Row, q: Row)
    requires r.task < |db.tasks| && q.task < |db.tasks|
  {
    var a, b := db.tasks[r.task], db.tasks[q.task];
    if LastDispatch(a) != LastDispatch(b) then LastDispatch(a) < LastDispatch(b)
    else if r.stage != q.stage then r.stage > q.stage
    else if a.projectOrder != b.projectOrder then a.projectOrder < b.projectOrder
    else a.order < b.order
  }

  /** `rows` is what the dispatch query returns. */
  ghost predicate IsQueue(db: Db, now: Time, f: Filter, rows: seq<Row>) {
    && (forall i :: 0 <= i < |rows| ==> Eligible(db, now, f, rows[i]))
    && (forall r: Row :: Eligible(db, now, f, r) ==> r in rows)
    && (forall i, j :: 0 <= i < j < |rows| ==> rows[i] != rows[j])
    && (forall i, j :: 0 <= i < j < |rows| ==> !Before(db, rows[j], rows[i]))
  }

  predicate RowsInRange(db: Db, rows: seq<Row>) {
    forall i :: 0 <= i < |rows| ==> rows[i].task < |db.tasks| && rows[i].stage < STAGE_COUNT
  }

  function FreshLease(db: Db, now: Time, resources: Allocation): Lease {
    Lease(db.nextToken, resources, now + db.leaseSeconds, None, false)
  }

  datatype Dispatch = Dispatch(db: Db, item: Option<Item>)

  /** The search loop over the queue: the first row that can be leased is. */
  function Scan(db: Db, rows: seq<Row>, now: Time, capacities: Capacities): (r: Dispatch)
    requires WellFormed(db)
    requires RowsInRange(db, rows)
    decreases |rows|
  {
    if rows == [] then Dispatch(db, None)
    else
      var t, s := rows[0].task, rows[0].stage;
      var resources := Allocate(db, db.tasks[t].project, StageResources(s), capacities);
      if resources.None? then Scan(db, rows[1..], now, capacities)
      else
        var lease := FreshLease(db, now, resources.value);
        match TryLease(db.tasks[t], s, now, lease, db.automatic)
        case Skipped(task) =>
          TryLeaseShape(db.tasks[t], s, now, lease, db.automatic);
          Scan(WithTask(db, t, task), rows[1..], now, capacities)
        case Granted(task, a) =>
          Dispatch(WithTask(db, t, task).(nextToken := db.nextToken + 1), Some(Item(t, s, a, db.nextToken)))
  }

  lemma TryLeaseShape(t: Task, s: nat, now: Time, lease: Lease, automatic: bool)
    requires |t.stages| == STAGE_COUNT && s < STAGE_COUNT && t.groups != []
    ensures var r := TryLease(t, s, now, lease, automatic).task; |r.stages| == STAGE_COUNT && r.groups != []
  {
  }
}
