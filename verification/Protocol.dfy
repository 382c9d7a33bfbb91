/** The controller as a state machine: its public calls, and the runs they make up. */
module Protocol {
  import opened Tables
  import opened Transitions
  import opened Batch

  // ---------------------------------------------------------------- reconciliation

  predicate ValidAt(db: Db, k: Key) {
    k.0 < |db.tasks| && ValidKey(db.tasks[k.0], k.1, k.2)
  }

  /** An intent that reconciliation picks up: recorded, not settled, and its lease not revoked. */
  predicate OpenIntent(t: Task, s: nat, a: nat) {
    && ValidKey(t, s, a)
    && OpenCommit(t.stages[s].attempts[a].commit)
    && t.stages[s].attempts[a].lease.Some? && !t.stages[s].attempts[a].lease.value.revoked
  }

  predicate Unsettled(db: Db, k: Key) {
    k.0 < |db.tasks| && OpenIntent(db.tasks[k.0], k.1, k.2)
  }

  /** `rows` is what the reconciliation query returns. */
  ghost predicate IsUnsettledList(db: Db, rows: seq<Key>) {
    && (forall i :: 0 <= i < |rows| ==> Unsettled(db, rows[i]))
    && (forall k: Key :: Unsettled(db, k) ==> k in rows)
    && (forall i, j :: 0 <= i < j < |rows| ==> rows[i] != rows[j])
  }

  /** Publish the files of one intent again and finalize it; any refusal fails the intent. */
  function ReconcileOne(db: Db, k: Key, filesAgree: bool): (r: Db)
    requires WellFormed(db)
    ensures WellFormed(r)
  {
    if !ValidAt(db, k) || db.tasks[k.0].stages[k.1].attempts[k.2].commit.None? then db
    else if !filesAgree then WithTask(db, k.0, CommitFailedTask(db.tasks[k.0], k.1, k.2))
    else
      var published := PublishedTask(db.tasks[k.0], k.1, k.2);
      if IsCommitted(published.stages[k.1].attempts[k.2]) then db
      else if CanFinalize(published, k.1, k.2, None) then Completed(db, k, published)
      else WithTask(db, k.0, CommitFailedTask(published, k.1, k.2))
  }

  function Completed(db: Db, k: Key, published: Task): (r: Db)
    requires WellFormed(db) && k.0 < |db.tasks|
    requires |published.stages| == STAGE_COUNT && published.groups != [] && CanFinalize(published, k.1, k.2, None)
    ensures WellFormed(r)
  {
    Aggregated(RefreshAll(WithTask(db, k.0, FinalizedTask(published, k.1, k.2, db.automatic))))
  }

  function Reconciled(db: Db, rows: seq<Key>, agree: set<Key>): (r: Db)
    requires WellFormed(db)
    ensures WellFormed(r)
    decreases |rows|
  {
    if rows == [] then db
    else Reconciled(ReconcileOne(db, rows[0], rows[0] in agree), rows[1..], agree)
  }

  // ---------------------------------------------------------------- expiry

  datatype Expiry = Expiry(key: Key, cleanup: bool, first: nat, second: nat)

  ghost predicate IsExpiredList(db: Db, rows: seq<Expiry>, now: Time, boot: nat) {
    && (forall i :: 0 <= i < |rows| ==> LeaseAt(db, rows[i].key).Some? && Expired(LeaseAt(db, rows[i].key).value, now, boot))
    && (forall k: Key :: LeaseAt(db, k).Some? && Expired(LeaseAt(db, k).value, now, boot) ==>
          exists i :: 0 <= i < |rows| && rows[i].key == k)
    && (forall i, j :: 0 <= i < j < |rows| ==> rows[i].key != rows[j].key)
  }

  /** Recovers one expired lease unless its row, or every row of its stage, is gone. */
  function ExpireOne(db: Db, e: Expiry): (r: Db)
    requires WellFormed(db)
    ensures WellFormed(r)
  {
    if LeaseAt(db, e.key).None? then db
    else
      var t := db.tasks[e.key.0];
      if !Seen(t, e.key.1, e.first) || !Seen(t, e.key.1, e.second) then db
      else WithTask(db, e.key.0, ExpiredTask(t, e.key.1, e.key.2, e.cleanup, e.first, e.second))
  }

  function ExpireAll(db: Db, rows: seq<Expiry>): (r: Db)
    requires WellFormed(db)
    ensures WellFormed(r)
    decreases |rows|
  {
    if rows == [] then db else ExpireAll(ExpireOne(db, rows[0]), rows[1..])
  }

  // ---------------------------------------------------------------- the calls

  datatype Op =
    | Start
    | Refresh
    | LeaseNext(now: Time, capacities: Capacities, filter: Filter, queue: seq<Row>)
    | MarkRunning(item: Item, now: Time, boot: nat)
    | Beat(item: Item, now: Time)
    | Prepare(item: Item, now: Time, artifacts: seq<Artifact>)
    | PublishFiles(key: Key)
    | Finalize(item: Item, now: Time)
    | Fail(item: Item, now: Time, report: Report)
    | Reconcile(rows: seq<Key>, agree: set<Key>)
    | RecoverExpired(rows: seq<Key>, agree: set<Key>, now: Time, boot: nat, expired: seq<Expiry>)
    | Reactivate(item: Item, now: Time)
    | Resolve(item: Item, action: Settlement)
    | CancelTasks(selected: set<nat>, outcomes: seq<seq<CancelOutcome>>)
    | Decide(task: nat, attempt: nat, verdict: Verdict)

  predicate OutcomesShaped(db: Db, outcomes: seq<seq<CancelOutcome>>) {
    |outcomes| == |db.tasks| && forall t :: 0 <= t < |outcomes| ==> |outcomes[t]| == STAGE_COUNT
  }

  predicate CancelBlocked(db: Db, selected: set<nat>) {
    exists t :: 0 <= t < |db.tasks| && t in selected && RemoteOccupied(db.tasks[t])
  }

  function CanceledTasks(db: Db, selected: set<nat>, outcomes: seq<seq<CancelOutcome>>): (r: Db)
    requires WellFormed(db) && OutcomesShaped(db, outcomes)
    ensures WellFormed(r)
  {
    db.(tasks := seq(|db.tasks|, (t: nat) requires t < |db.tasks| =>
      if t in selected then CanceledTask(db.tasks[t], outcomes[t]) else db.tasks[t]))
  }

  function StageRows(db: Db, item: Item): nat {
    if item.task < |db.tasks| && item.stage < |db.tasks[item.task].stages| then |db.tasks[item.task].stages[item.stage].attempts|
    else 0
  }

  /** The test of `_require_lease`: a lease of the stage has the token, is not revoked and not expired. */
  predicate StageHoldsToken(db: Db, item: Item, now: Time) {
    exists a: nat :: a < StageRows(db, item) && HoldsLease(db.tasks[item.task], item.(attempt := a), now)
  }

  /** That test for an item that names the lease's own attempt, as every item that was handed out does. */
  predicate OwnsItem(db: Db, item: Item, now: Time) {
    item.task < |db.tasks| && HoldsLease(db.tasks[item.task], item, now)
  }

  predicate RecoversItem(db: Db, item: Item) {
    item.task < |db.tasks| && item.stage != IMAGE_EDIT && HoldsRecovery(db.tasks[item.task], item)
  }

  function Dispatched(db: Db, now: Time, capacities: Capacities, rows: seq<Row>): (r: Dispatch)
    requires WellFormed(db)
    requires RowsInRange(db, rows)
    ensures WellFormed(r.db)
  {
    ScanShape(RefreshAll(db), rows, now, capacities);
    Scan(RefreshAll(db), rows, now, capacities)
  }

  lemma {:induction false} ScanShape(db: Db, rows: seq<Row>, now: Time, capacities: Capacities)
    requires WellFormed(db)
    requires RowsInRange(db, rows)
    ensures WellFormed(Scan(db, rows, now, capacities).db)
    decreases |rows|
  {
    if rows != [] {
      var t, s := rows[0].task, rows[0].stage;
      var resources := Allocate(db, db.tasks[t].project, StageResources(s), capacities);
      if resources.None? {
        ScanShape(db, rows[1..], now, capacities);
      } else {
        var lease := FreshLease(db, now, resources.value);
        TryLeaseShape(db.tasks[t], s, now, lease, db.automatic);
        var try := TryLease(db.tasks[t], s, now, lease, db.automatic);
        if try.Skipped? {
          ScanShape(WithTask(db, t, try.task), rows[1..], now, capacities);
        }
      }
    }
  }

  lemma FailShape(t: Task, s: nat, a: nat, now: Time, r: Report, automatic: bool)
    requires |t.stages| == STAGE_COUNT && ValidKey(t, s, a) && t.groups != []
    ensures FailTask(t, s, a, now, r, automatic).groups != []
  {
  }

  function Failed(db: Db, item: Item, now: Time, report: Report): (r: Db)
    requires WellFormed(db) && OwnsItem(db, item, now)
    ensures WellFormed(r)
  {
    FailShape(db.tasks[item.task], item.stage, item.attempt, now, report, db.automatic);
    Aggregated(WithTask(db, item.task, FailTask(db.tasks[item.task], item.stage, item.attempt, now, report, db.automatic)))
  }

  function Started(db: Db): (r: Db)
    requires WellFormed(db)
    ensures WellFormed(r)
  {
    if db.status.Planned? || db.status.BatchRunning?
    then db.(status := BatchRunning, tasks := seq(|db.tasks|, (t: nat) requires t < |db.tasks| =>
           if db.tasks[t].status.TaskPending? then db.tasks[t].(status := TaskRunning) else db.tasks[t]))
    else db
  }

  ghost function DispatchedFrom(db: Db, now: Time, capacities: Capacities, filter: Filter, queue: seq<Row>): (r: Db)
    requires WellFormed(db)
    ensures WellFormed(r)
  {
    if IsQueue(RefreshAll(db), now, filter, queue) then Dispatched(db, now, capacities, queue).db else db
  }

  ghost function ReconciledList(db: Db, rows: seq<Key>, agree: set<Key>): (r: Db)
    requires WellFormed(db)
    ensures WellFormed(r)
  {
    if IsUnsettledList(db, rows) then Reconciled(db, rows, agree) else db
  }

  ghost function RecoveredExpired(db: Db, rows: seq<Key>, agree: set<Key>, now: Time, boot: nat, expired: seq<Expiry>): (r: Db)
    requires WellFormed(db)
    ensures WellFormed(r)
  {
    if IsUnsettledList(db, rows) && IsExpiredList(Reconciled(db, rows, agree), expired, now, boot)
    then Aggregated(ExpireAll(Reconciled(db, rows, agree), expired)) else db
  }

  function ResolvedBatch(db: Db, item: Item, action: Settlement): (r: Db)
    requires WellFormed(db) && RecoversItem(db, item)
    ensures WellFormed(r)
  {
    Aggregated(RefreshAll(WithTask(db, item.task, Resolved(db.tasks[item.task], item, action))))
  }

  function DecidedBatch(db: Db, t: nat, attempt: nat, v: Verdict): (r: Db)
    requires WellFormed(db) && t < |db.tasks| && CanDecide(db.tasks[t], attempt, v)
    ensures WellFormed(r)
  {
    Aggregated(RefreshAll(WithTask(db, t, DecidedTask(db.tasks[t], attempt, v))))
  }

  /** One call. A call whose guard fails, or whose query results are not those of the tables, changes
      nothing. */
  ghost function Step(db: Db, op: Op): (r: Db)
    requires WellFormed(db)
    ensures WellFormed(r)
  {
    match op
    case Start => Started(db)
    case Refresh => Aggregated(RefreshAll(db))
    case LeaseNext(now, capacities, filter, queue) =>
      if db.status.BatchRunning? then DispatchedFrom(db, now, capacities, filter, queue) else db
    case MarkRunning(item, now, boot) =>
      if OwnsItem(db, item, now)
      then WithTask(db, item.task, MarkedRunning(db.tasks[item.task], item, now, boot, db.leaseSeconds)) else db
    case Beat(item, now) =>
      if OwnsItem(db, item, now)
      then WithTask(db, item.task, Heartbeat(db.tasks[item.task], item, now, db.leaseSeconds)) else db
    case Prepare(item, now, artifacts) =>
      if artifacts != [] && item.task < |db.tasks| && CanPrepare(db.tasks[item.task], item, now)
      then WithTask(db, item.task, PreparedTask(db.tasks[item.task], item.stage, item.attempt, artifacts)) else db
    case PublishFiles(k) =>
      if ValidAt(db, k) && db.tasks[k.0].stages[k.1].attempts[k.2].commit.Some?
      then WithTask(db, k.0, PublishedTask(db.tasks[k.0], k.1, k.2)) else db
    case Finalize(item, now) =>
      if OwnsItem(db, item, now) && CanFinalize(db.tasks[item.task], item.stage, item.attempt, Some(now))
      then Completed(db, (item.task, item.stage, item.attempt), db.tasks[item.task]) else db
    case Fail(item, now, report) =>
      if OwnsItem(db, item, now) then Failed(db, item, now, report) else db
    case Reconcile(rows, agree) => ReconciledList(db, rows, agree)
    case RecoverExpired(rows, agree, now, boot, expired) => RecoveredExpired(db, rows, agree, now, boot, expired)
    case Reactivate(item, now) =>
      if RecoversItem(db, item)
      then WithTask(db, item.task, Reactivated(db.tasks[item.task], item, now, db.leaseSeconds)) else db
    case Resolve(item, action) =>
      if RecoversItem(db, item) then ResolvedBatch(db, item, action) else db
    case CancelTasks(selected, outcomes) =>
      if OutcomesShaped(db, outcomes) && !CancelBlocked(db, selected)
      then Aggregated(CanceledTasks(db, selected, outcomes)) else db
    case Decide(t, attempt, verdict) =>
      if t < |db.tasks| && CanDecide(db.tasks[t], attempt, verdict) then DecidedBatch(db, t, attempt, verdict) else db
  }

  lemma RecoveryStep(db: Db, rows: seq<Key>, agree: set<Key>, now: Time, boot: nat, expired: seq<Expiry>)
    requires WellFormed(db)
    ensures Step(db, Op.RecoverExpired(rows, agree, now, boot, expired)) == RecoveredExpired(db, rows, agree, now, boot, expired)
  {
  }

  lemma PrepareStep(db: Db, item: Item, now: Time, artifacts: seq<Artifact>)
    requires WellFormed(db)
    ensures Step(db, Op.Prepare(item, now, artifacts))
         == if artifacts != [] && item.task < |db.tasks| && CanPrepare(db.tasks[item.task], item, now)
            then WithTask(db, item.task, PreparedTask(db.tasks[item.task], item.stage, item.attempt, artifacts)) else db
  {
  }

  lemma ReactivateStep(db: Db, item: Item, now: Time)
    requires WellFormed(db)
    ensures Step(db, Op.Reactivate(item, now))
         == if RecoversItem(db, item)
            then WithTask(db, item.task, Reactivated(db.tasks[item.task], item, now, db.leaseSeconds)) else db
  {
  }

  lemma PublishStep(db: Db, k: Key)
    requires WellFormed(db)
    ensures Step(db, Op.PublishFiles(k))
         == if ValidAt(db, k) && db.tasks[k.0].stages[k.1].attempts[k.2].commit.Some?
            then WithTask(db, k.0, PublishedTask(db.tasks[k.0], k.1, k.2)) else db
  {
  }

  lemma FailStep(db: Db, item: Item, now: Time, report: Report)
    requires WellFormed(db)
    ensures Step(db, Op.Fail(item, now, report)) == if OwnsItem(db, item, now) then Failed(db, item, now, report) else db
  {
  }

  lemma FinalizeStep(db: Db, item: Item, now: Time)
    requires WellFormed(db)
    ensures Step(db, Op.Finalize(item, now))
         == if OwnsItem(db, item, now) && CanFinalize(db.tasks[item.task], item.stage, item.attempt, Some(now))
            then Completed(db, (item.task, item.stage, item.attempt), db.tasks[item.task]) else db
  {
  }

  lemma CancelStep(db: Db, selected: set<nat>, outcomes: seq<seq<CancelOutcome>>)
    requires WellFormed(db) && OutcomesShaped(db, outcomes) && !CancelBlocked(db, selected)
    ensures Step(db, Op.CancelTasks(selected, outcomes)) == Aggregated(CanceledTasks(db, selected, outcomes))
  {
  }

  lemma DecideStep(db: Db, t: nat, attempt: nat, v: Verdict)
    requires WellFormed(db)
    ensures Step(db, Op.Decide(t, attempt, v))
         == if t < |db.tasks| && CanDecide(db.tasks[t], attempt, v)
            then Aggregated(RefreshAll(WithTask(db, t, DecidedTask(db.tasks[t], attempt, v)))) else db
  {
  }

  lemma ResolveStep(db: Db, item: Item, action: Settlement)
    requires WellFormed(db)
    ensures Step(db, Op.Resolve(item, action))
         == if RecoversItem(db, item) then Aggregated(RefreshAll(WithTask(db, item.task, Resolved(db.tasks[item.task], item, action)))) else db
  {
  }

  ghost function Run(db: Db, ops: seq<Op>): (r: Db)
    requires WellFormed(db)
    ensures WellFormed(r)
    decreases |ops|
  {
    if ops == [] then db else Step(Run(db, ops[..|ops| - 1]), ops[|ops| - 1])
  }

  predicate IsPlannedTask(t: Task) {
    t.generations > 0 && t == PlannedTask(t.project, t.projectOrder, t.order, t.generations)
  }

  /** A batch as `plan` inserts it. */
  predicate IsPlanned(db: Db) {
    && db.status.Planned? && WellFormed(db)
    && forall t :: 0 <= t < |db.tasks| ==> IsPlannedTask(db.tasks[t])
  }
}
