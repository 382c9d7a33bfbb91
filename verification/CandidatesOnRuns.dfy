/** The confluence of a generation group on runs of the whole controller: refreshes, heartbeats, dispatches
    of other rows, calls about other tasks and operator decisions may come between the steps of the group. */
module CandidatesOnRuns {
  import opened Tables
  import opened Transitions
  import opened Batch
  import opened Protocol
  import opened TaskInvariant
  import opened TaskSteps
  import opened OperatorSteps
  import opened RunInvariant
  import opened Candidates
  import Runs

  /** `CommitSuccess` is the controller's commit_success: prepare, publish and finalize without another
      call in between. */
  datatype Call = Single(op: Op) | CommitSuccess(item: Item, now: Time, artifacts: seq<Artifact>)

  predicate Accepts(db: Db, item: Item, now: Time, artifacts: seq<Artifact>) {
    artifacts != [] && item.task < |db.tasks| && CanPrepare(db.tasks[item.task], item, now)
  }

  /** A refused preparation ends the call. */
  function OpsOf(db: Db, call: Call): seq<Op> {
    match call
    case Single(op) => [op]
    case CommitSuccess(item, now, artifacts) =>
      [Op.Prepare(item, now, artifacts)]
      + if Accepts(db, item, now, artifacts) then [Op.PublishFiles(Runs.KeyOf(item)), Op.Finalize(item, now)] else []
  }

  ghost function OpsOfAll(db: Db, calls: seq<Call>): seq<Op>
    requires WellFormed(db)
    decreases |calls|
  {
    if calls == [] then []
    else
      var ops := OpsOfAll(db, calls[..|calls| - 1]);
      ops + OpsOf(Run(db, ops), calls[|calls| - 1])
  }

  predicate OfGroup(item: Item, t: nat) {
    item.task == t && item.stage == IMAGE_EDIT
  }

  /** Everything but what decides the whole image stage of task `t` at once: a commit left open, an expired
      lease, a loss that is not plain, a cancellation and a regeneration. */
  predicate InScope(call: Call, t: nat) {
    match call
    case CommitSuccess(_, _, _) => true
    case Single(op) =>
      match op
      case Prepare(item, _, _) => !OfGroup(item, t)
      case PublishFiles(k) => k.0 != t || k.1 != IMAGE_EDIT
      case Finalize(item, _) => !OfGroup(item, t)
      case Fail(item, _, report) => OfGroup(item, t) ==> PlainLoss(report)
      case RecoverExpired(_, _, _, _, expired) =>
        forall i :: 0 <= i < |expired| ==> expired[i].key.0 != t || expired[i].key.1 != IMAGE_EDIT
      case CancelTasks(selected, _) => t !in selected
      case Decide(task, _, verdict) => task != t || !verdict.RegenerateEdit?
      case _ => true
  }

  ghost predicate GroupAt(db: Db, t: nat) {
    WellFormed(db) && Inv(db) && t < |db.tasks| && GroupInv(db.tasks[t])
  }

  // ---------------------------------------------------------------- calls that leave the group alone

  /** The columns the group's state is made of. */
  predicate SameGroup(x: Task, y: Task) {
    && |x.stages| == |y.stages| == STAGE_COUNT
    && y.stages[IMAGE_EDIT] == x.stages[IMAGE_EDIT] && y.groups == x.groups
  }

  predicate GroupUntouched(db: Db, db': Db, t: nat) {
    |db'.tasks| == |db.tasks| && t < |db.tasks| && SameGroup(db.tasks[t], db'.tasks[t])
  }

  predicate Steady(db: Db, t: nat) {
    WellFormed(db) && t < |db.tasks| && !db.tasks[t].stages[IMAGE_EDIT].state.Pending?
  }

  lemma AggregatedUntouched(db: Db, t: nat)
    requires WellFormed(db) && t < |db.tasks|
    ensures GroupUntouched(db, Aggregated(db), t)
  {
  }

  lemma RefreshUntouched(db: Db, t: nat)
    requires Steady(db, t)
    ensures GroupUntouched(db, RefreshAll(db), t)
  {
    assert RefreshAll(db).tasks[t] == Refreshed(db.tasks[t]);
  }

  lemma SettledGroupUntouched(db: Db, t: nat)
    requires Steady(db, t)
    ensures GroupUntouched(db, Aggregated(RefreshAll(db)), t)
  {
    RefreshUntouched(db, t);
    AggregatedUntouched(RefreshAll(db), t);
  }

  /** Replacing a task by one with the same group, and settling the batch after it. */
  lemma ReplacedUntouched(db: Db, u: nat, task: Task, t: nat)
    requires Steady(db, t) && u < |db.tasks|
    requires |task.stages| == STAGE_COUNT && task.groups != [] && (u == t ==> SameGroup(db.tasks[t], task))
    ensures GroupUntouched(db, WithTask(db, u, task), t)
    ensures GroupUntouched(db, Aggregated(WithTask(db, u, task)), t)
    ensures GroupUntouched(db, Aggregated(RefreshAll(WithTask(db, u, task))), t)
  {
    AggregatedUntouched(WithTask(db, u, task), t);
    SettledGroupUntouched(WithTask(db, u, task), t);
  }

  lemma ReconcileOneUntouched(db: Db, k: Key, agree: bool, t: nat)
    requires Steady(db, t)
    requires k.0 != t || k.1 != IMAGE_EDIT
    ensures GroupUntouched(db, ReconcileOne(db, k, agree), t)
  {
    if ValidAt(db, k) && db.tasks[k.0].stages[k.1].attempts[k.2].commit.Some? {
      var published := PublishedTask(db.tasks[k.0], k.1, k.2);
      if agree && CanFinalize(published, k.1, k.2, None) {
        ReplacedUntouched(db, k.0, FinalizedTask(published, k.1, k.2, db.automatic), t);
      }
    }
  }

  lemma {:induction false} ReconciledUntouched(db: Db, rows: seq<Key>, agree: set<Key>, t: nat)
    requires Steady(db, t)
    requires forall i :: 0 <= i < |rows| ==> rows[i].0 != t || rows[i].1 != IMAGE_EDIT
    ensures GroupUntouched(db, Reconciled(db, rows, agree), t)
    decreases |rows|
  {
    if rows != [] {
      ReconcileOneUntouched(db, rows[0], rows[0] in agree, t);
      ReconciledUntouched(ReconcileOne(db, rows[0], rows[0] in agree), rows[1..], agree, t);
    }
  }

  lemma {:induction false} ExpireAllUntouched(db: Db, rows: seq<Expiry>, t: nat)
    requires WellFormed(db) && t < |db.tasks|
    requires forall i :: 0 <= i < |rows| ==> rows[i].key.0 != t || rows[i].key.1 != IMAGE_EDIT
    ensures GroupUntouched(db, ExpireAll(db, rows), t)
    decreases |rows|
  {
    if rows != [] {
      ExpireAllUntouched(ExpireOne(db, rows[0]), rows[1..], t);
    }
  }

  /** No candidate of an intact group has an intent that reconciliation could find open. */
  lemma NothingToReconcile(db: Db, rows: seq<Key>, t: nat)
    requires GroupAt(db, t) && IsUnsettledList(db, rows)
    ensures forall i :: 0 <= i < |rows| ==> rows[i].0 != t || rows[i].1 != IMAGE_EDIT
  {
    forall i | 0 <= i < |rows| ensures rows[i].0 != t || rows[i].1 != IMAGE_EDIT {
      assert Unsettled(db, rows[i]);
      if rows[i].0 == t && rows[i].1 == IMAGE_EDIT {
        HeldIsOpen(db.tasks[t], rows[i].2);
        assert false;
      }
    }
  }

  lemma RecoveryUntouched(db: Db, op: Op, t: nat)
    requires GroupAt(db, t) && Steady(db, t) && (op.Reconcile? || op.RecoverExpired?) && InScope(Single(op), t)
    ensures GroupUntouched(db, Step(db, op), t)
  {
    if Step(db, op) != db {
      NothingToReconcile(db, op.rows, t);
      ReconciledUntouched(db, op.rows, op.agree, t);
      if op.RecoverExpired? {
        var db1 := Reconciled(db, op.rows, op.agree);
        ExpireAllUntouched(db1, op.expired, t);
        AggregatedUntouched(ExpireAll(db1, op.expired), t);
      }
    }
  }

  lemma DecidedSame(t: Task, attempt: nat, v: Verdict)
    requires |t.stages| == STAGE_COUNT && t.groups != [] && CanDecide(t, attempt, v) && !v.RegenerateEdit?
    ensures SameGroup(t, DecidedTask(t, attempt, v))
  {
  }

  lemma DecideUntouched(db: Db, task: nat, attempt: nat, v: Verdict, t: nat)
    requires Steady(db, t) && task < |db.tasks| && CanDecide(db.tasks[task], attempt, v) && (task == t ==> !v.RegenerateEdit?)
    ensures DecidedTask(db.tasks[task], attempt, v).groups != []
    ensures GroupUntouched(db, Aggregated(RefreshAll(WithTask(db, task, DecidedTask(db.tasks[task], attempt, v)))), t)
  {
    if task == t {
      DecidedSame(db.tasks[t], attempt, v);
    }
    ReplacedUntouched(db, task, DecidedTask(db.tasks[task], attempt, v), t);
  }

  lemma CancelUntouched(db: Db, selected: set<nat>, outcomes: seq<seq<CancelOutcome>>, t: nat)
    requires Steady(db, t) && OutcomesShaped(db, outcomes) && t !in selected
    ensures GroupUntouched(db, Aggregated(CanceledTasks(db, selected, outcomes)), t)
  {
    AggregatedUntouched(CanceledTasks(db, selected, outcomes), t);
  }

  lemma FailedSame(t: Task, s: nat, a: nat, now: Time, r: Report, automatic: bool)
    requires |t.stages| == STAGE_COUNT && ValidKey(t, s, a) && s != IMAGE_EDIT
    ensures SameGroup(t, FailTask(t, s, a, now, r, automatic))
  {
  }

  lemma FailUntouched(db: Db, item: Item, now: Time, report: Report, t: nat)
    requires Steady(db, t) && OwnsItem(db, item, now) && !OfGroup(item, t)
    ensures GroupUntouched(db, Failed(db, item, now, report), t)
  {
    var task := db.tasks[item.task];
    if item.task == t {
      FailedSame(task, item.stage, item.attempt, now, report, db.automatic);
    }
    FailShape(task, item.stage, item.attempt, now, report, db.automatic);
    ReplacedUntouched(db, item.task, FailTask(task, item.stage, item.attempt, now, report, db.automatic), t);
  }

  lemma FinalizeUntouched(db: Db, k: Key, t: nat)
    requires Steady(db, t) && k.0 < |db.tasks| && CanFinalize(db.tasks[k.0], k.1, k.2, None) && (k.0 != t || k.1 != IMAGE_EDIT)
    ensures GroupUntouched(db, Completed(db, k, db.tasks[k.0]), t)
  {
    ReplacedUntouched(db, k.0, FinalizedTask(db.tasks[k.0], k.1, k.2, db.automatic), t);
  }

  lemma ResolvedSame(t: Task, item: Item, action: Settlement)
    requires |t.stages| == STAGE_COUNT && HoldsRecovery(t, item) && item.stage != IMAGE_EDIT
    ensures SameGroup(t, Resolved(t, item, action))
  {
  }

  lemma ResolveUntouched(db: Db, item: Item, action: Settlement, t: nat)
    requires Steady(db, t) && RecoversItem(db, item)
    ensures Resolved(db.tasks[item.task], item, action).groups != []
    ensures GroupUntouched(db, Aggregated(RefreshAll(WithTask(db, item.task, Resolved(db.tasks[item.task], item, action)))), t)
  {
    ResolvedSame(db.tasks[item.task], item, action);
    ReplacedUntouched(db, item.task, Resolved(db.tasks[item.task], item, action), t);
  }

  /** Calls that rewrite one row of another stage or another task. */
  lemma RowUntouched(db: Db, op: Op, t: nat)
    requires Steady(db, t) && (op.MarkRunning? || op.Beat? || op.Prepare? || op.Reactivate?) && !OfGroup(op.item, t)
    ensures GroupUntouched(db, Step(db, op), t)
  {
  }

  // ---------------------------------------------------------------- calls of the group

  /** The group stays intact and as far as it was: what every call but a delivery does. */
  ghost predicate GroupKeptBy(db: Db, db': Db, t: nat) {
    && |db'.tasks| == |db.tasks| && t < |db.tasks| && GroupInv(db'.tasks[t])
    && HasSuccess(db'.tasks[t]) == HasSuccess(db.tasks[t])
  }

  lemma UntouchedKeeps(db: Db, db': Db, t: nat)
    requires GroupAt(db, t) && GroupUntouched(db, db', t) && Inv(db')
    ensures GroupKeptBy(db, db', t)
  {
  }

  lemma BeatGroup(t: Task, item: Item, now: Time, seconds: Time)
    requires Held(t, item.attempt) && item.stage == IMAGE_EDIT && HoldsLease(t, item, now)
    requires GroupDecided(t.stages[IMAGE_EDIT], CurrentGens(t.groups)) && Open(t.stages[IMAGE_EDIT].state)
    requires t.stages[IMAGE_EDIT].attempts[item.attempt].commit.None?
    ensures GroupKept(Heartbeat(t, item, now, seconds))
  {
    var a := item.attempt;
    var g := CurrentGens(t.groups)[IndexOf(t, a)];
    var x := Heartbeat(t, item, now, seconds).stages[IMAGE_EDIT];
    SettledRows(t.stages[IMAGE_EDIT], t.groups, a, g, x);
    assert CurrentGens(t.groups)[IndexOf(t, a) := g] == CurrentGens(t.groups);
    assert t.groups[|t.groups| - 1 := CurrentGens(t.groups)] == t.groups;
    assert Unfinished(g.status);
  }

  lemma BeatKeeps(t: Task, item: Item, now: Time, seconds: Time)
    requires GroupInv(t) && item.stage == IMAGE_EDIT && HoldsLease(t, item, now)
    ensures GroupInv(Heartbeat(t, item, now, seconds))
  {
    HeldIsOpen(t, item.attempt);
    HeartbeatKeeps(t, item, now, seconds);
    BeatGroup(t, item, now, seconds);
  }

  lemma SameKeeps(x: Task, y: Task)
    requires GroupInv(x) && TaskInv(y) && SameGroup(x, y)
    ensures GroupInv(y) && HasSuccess(y) == HasSuccess(x)
  {
  }

  /** Aggregation, alone or after a refresh, follows a call that rewrote the task. */
  lemma AggregatedKeeps(db: Db, t: nat, task: Task)
    requires WellFormed(db) && t < |db.tasks| && GroupInv(task) && task.groups != [] && Inv(Aggregated(WithTask(db, t, task)))
    ensures var db' := Aggregated(WithTask(db, t, task));
            |db'.tasks| == |db.tasks| && GroupInv(db'.tasks[t]) && HasSuccess(db'.tasks[t]) == HasSuccess(task)
  {
    AggregatedUntouched(WithTask(db, t, task), t);
    SameKeeps(task, Aggregated(WithTask(db, t, task)).tasks[t]);
  }

  lemma SettledKeeps(db: Db, t: nat, task: Task)
    requires WellFormed(db) && t < |db.tasks| && GroupInv(task) && task.groups != []
    requires Inv(Aggregated(RefreshAll(WithTask(db, t, task))))
    ensures var db' := Aggregated(RefreshAll(WithTask(db, t, task)));
            |db'.tasks| == |db.tasks| && GroupInv(db'.tasks[t]) && HasSuccess(db'.tasks[t]) == HasSuccess(task)
  {
    SettledGroupUntouched(WithTask(db, t, task), t);
    SameKeeps(task, Aggregated(RefreshAll(WithTask(db, t, task))).tasks[t]);
  }

  lemma DroppedKeeps(db: Db, item: Item, now: Time, report: Report, t: nat)
    requires GroupAt(db, t) && OfGroup(item, t) && PlainLoss(report) && OwnsItem(db, item, now)
    ensures GroupKeptBy(db, Failed(db, item, now, report), t)
  {
    DropKeeps(db.tasks[t], item.attempt, now, report, db.automatic);
    FailInv(db, item, now, report);
    AggregatedKeeps(db, t, FailTask(db.tasks[t], IMAGE_EDIT, item.attempt, now, report, db.automatic));
  }

  lemma GroupItemKeeps(db: Db, op: Op, t: nat)
    requires GroupAt(db, t) && (op.MarkRunning? || op.Beat? || op.Fail?) && OfGroup(op.item, t) && InScope(Single(op), t)
    ensures GroupKeptBy(db, Step(db, op), t)
  {
    if OwnsItem(db, op.item, op.now) {
      match op
      case MarkRunning(item, now, boot) => MarkKeeps(db.tasks[t], item, now, boot, db.leaseSeconds);
      case Beat(item, now) => BeatKeeps(db.tasks[t], item, now, db.leaseSeconds);
      case Fail(item, now, report) => DroppedKeeps(db, item, now, report, t);
    }
  }

  lemma TriedKeeps(db: Db, row: Row, lease: Lease, now: Time, t: nat)
    requires GroupAt(db, t) && row.task < |db.tasks| && row.stage < STAGE_COUNT && !lease.revoked
    requires Queued(row.stage, db.tasks[row.task].stages[row.stage])
    requires Inv(WithTask(db, row.task, TryLease(db.tasks[row.task], row.stage, now, lease, db.automatic).task))
    ensures GroupKeptBy(db, WithTask(db, row.task, TryLease(db.tasks[row.task], row.stage, now, lease, db.automatic).task), t)
  {
    if row.task == t && row.stage == IMAGE_EDIT {
      TakeKeeps(db.tasks[t], now, lease, db.automatic);
    }
  }

  lemma {:induction false} ScanKeeps(db: Db, rows: seq<Row>, now: Time, capacities: Capacities, t: nat)
    requires GroupAt(db, t) && RowsQueued(db, rows)
    ensures GroupKeptBy(db, Scan(db, rows, now, capacities).db, t)
    decreases |rows|
  {
    if rows != [] {
      var u, s := rows[0].task, rows[0].stage;
      var resources := Allocate(db, db.tasks[u].project, StageResources(s), capacities);
      if resources.None? {
        ScanKeeps(db, rows[1..], now, capacities, t);
      } else {
        var try := TryLease(db.tasks[u], s, now, FreshLease(db, now, resources.value), db.automatic);
        ScanStep(db, rows[0], now, resources.value);
        TriedKeeps(db, rows[0], FreshLease(db, now, resources.value), now, t);
        if try.Skipped? {
          SkipKeepsQueue(db, rows, now, resources.value);
          ScanKeeps(WithTask(db, u, try.task), rows[1..], now, capacities, t);
        }
      }
    }
  }

  lemma RefreshKeeps(db: Db, t: nat)
    requires GroupAt(db, t)
    ensures GroupAt(RefreshAll(db), t) && GroupKeptBy(db, RefreshAll(db), t)
  {
    RefreshAllInv(db);
    RefreshUntouched(db, t);
    UntouchedKeeps(db, RefreshAll(db), t);
  }

  lemma QueueIsQueued(db: Db, now: Time, filter: Filter, queue: seq<Row>)
    requires WellFormed(db) && IsQueue(db, now, filter, queue)
    ensures RowsQueued(db, queue)
  {
  }

  lemma DispatchKeeps(db: Db, now: Time, capacities: Capacities, filter: Filter, queue: seq<Row>, t: nat)
    requires GroupAt(db, t) && IsQueue(RefreshAll(db), now, filter, queue)
    ensures GroupKeptBy(db, Dispatched(db, now, capacities, queue).db, t)
  {
    RefreshKeeps(db, t);
    QueueIsQueued(RefreshAll(db), now, filter, queue);
    ScanKeeps(RefreshAll(db), queue, now, capacities, t);
  }

  lemma SingleKeeps(db: Db, op: Op, t: nat)
    requires GroupAt(db, t) && InScope(Single(op), t)
    ensures GroupKeptBy(db, Step(db, op), t)
  {
    StepInv(db, op);
    if op.LeaseNext? {
      if IsQueue(RefreshAll(db), op.now, op.filter, op.queue) {
        DispatchKeeps(db, op.now, op.capacities, op.filter, op.queue, t);
      }
    } else if (op.MarkRunning? || op.Beat? || op.Fail?) && OfGroup(op.item, t) {
      GroupItemKeeps(db, op, t);
    } else {
      SingleUntouched(db, op, t);
      UntouchedKeeps(db, Step(db, op), t);
    }
  }

  lemma OperatorUntouched(db: Db, op: Op, t: nat)
    requires Steady(db, t) && InScope(Single(op), t) && (op.CancelTasks? || op.Decide? || op.Start? || op.Refresh?)
    ensures GroupUntouched(db, Step(db, op), t)
  {
    match op
    case Start =>
    case Refresh => SettledGroupUntouched(db, t);
    case CancelTasks(selected, outcomes) =>
      if OutcomesShaped(db, outcomes) { CancelUntouched(db, selected, outcomes, t); }
    case Decide(task, attempt, v) =>
      if task < |db.tasks| && CanDecide(db.tasks[task], attempt, v) { DecideUntouched(db, task, attempt, v, t); }
  }

  lemma SettlementUntouched(db: Db, op: Op, t: nat)
    requires Steady(db, t) && InScope(Single(op), t)
    requires (op.Fail? && !OfGroup(op.item, t)) || op.Finalize? || op.PublishFiles? || op.Resolve?
    ensures GroupUntouched(db, Step(db, op), t)
  {
    match op
    case Fail(item, now, report) => if OwnsItem(db, item, now) { FailUntouched(db, item, now, report, t); }
    case Finalize(item, now) =>
      if OwnsItem(db, item, now) && CanFinalize(db.tasks[item.task], item.stage, item.attempt, Some(now)) {
        FinalizeUntouched(db, Runs.KeyOf(item), t);
      }
    case PublishFiles(k) =>
    case Resolve(item, action) => if RecoversItem(db, item) { ResolveUntouched(db, item, action, t); }
  }

  lemma SingleUntouched(db: Db, op: Op, t: nat)
    requires GroupAt(db, t) && Steady(db, t) && InScope(Single(op), t) && !op.LeaseNext?
    requires op.MarkRunning? || op.Beat? || op.Fail? ==> !OfGroup(op.item, t)
    ensures GroupUntouched(db, Step(db, op), t)
  {
    if op.Reconcile? || op.RecoverExpired? {
      RecoveryUntouched(db, op, t);
    } else if op.CancelTasks? || op.Decide? || op.Start? || op.Refresh? {
      OperatorUntouched(db, op, t);
    } else if op.MarkRunning? || op.Beat? || op.Prepare? || op.Reactivate? {
      if op.Reactivate? && OfGroup(op.item, t) {
        assert Step(db, op) == db;
      } else {
        RowUntouched(db, op, t);
      }
    } else {
      SettlementUntouched(db, op, t);
    }
  }

  // ---------------------------------------------------------------- a whole commit

  lemma OneStep(db: Db, op: Op)
    requires WellFormed(db)
    ensures Run(db, [op]) == Step(db, op)
  {
    assert [op][..0] == [] && Run(db, []) == db;
  }

  lemma RunOfThree(db: Db, a: Op, b: Op, c: Op)
    requires WellFormed(db)
    ensures Run(db, [a] + [b] + [c]) == Run(Run(Run(db, [a]), [b]), [c])
  {
    Runs.RunConcat(db, [a], [b]);
    Runs.RunConcat(db, [a] + [b], [c]);
  }

  lemma PreparedStep(db: Db, item: Item, now: Time, artifacts: seq<Artifact>)
    requires WellFormed(db) && Accepts(db, item, now, artifacts)
    ensures var prepared := PreparedTask(db.tasks[item.task], item.stage, item.attempt, artifacts);
            && |prepared.stages| == STAGE_COUNT && prepared.groups != []
            && HoldsLease(prepared, item, now)
            && prepared.stages[item.stage].state.Committing?
            && prepared.stages[item.stage].attempts[item.attempt].commit == Some(Commit(CommitState.Prepared, artifacts))
            && Run(db, [Op.Prepare(item, now, artifacts)]) == WithTask(db, item.task, prepared)
  {
    OneStep(db, Op.Prepare(item, now, artifacts));
  }

  lemma PublishedStep(db: Db, prepared: Task, item: Item, now: Time, artifacts: seq<Artifact>)
    requires WellFormed(db) && item.task < |db.tasks| && |prepared.stages| == STAGE_COUNT && prepared.groups != []
    requires HoldsLease(prepared, item, now) && prepared.stages[item.stage].state.Committing?
    requires prepared.stages[item.stage].attempts[item.attempt].commit == Some(Commit(CommitState.Prepared, artifacts))
    ensures var published := PublishedTask(prepared, item.stage, item.attempt);
            && |published.stages| == STAGE_COUNT && published.groups != [] && HoldsLease(published, item, now)
            && CanFinalize(published, item.stage, item.attempt, Some(now))
            && Run(WithTask(db, item.task, prepared), [Op.PublishFiles(Runs.KeyOf(item))]) == WithTask(db, item.task, published)
  {
    OneStep(WithTask(db, item.task, prepared), Op.PublishFiles(Runs.KeyOf(item)));
    var published := PublishedTask(prepared, item.stage, item.attempt);
    assert WithTask(WithTask(db, item.task, prepared), item.task, published) == WithTask(db, item.task, published);
  }

  lemma FinalizedStep(db: Db, published: Task, item: Item, now: Time)
    requires WellFormed(db) && item.task < |db.tasks| && |published.stages| == STAGE_COUNT && published.groups != []
    requires HoldsLease(published, item, now) && CanFinalize(published, item.stage, item.attempt, Some(now))
    ensures var finalized := FinalizedTask(published, item.stage, item.attempt, db.automatic);
            && finalized.groups != []
            && Run(WithTask(db, item.task, published), [Op.Finalize(item, now)])
               == Aggregated(RefreshAll(WithTask(db, item.task, finalized)))
  {
    var db1 := WithTask(db, item.task, published);
    OneStep(db1, Op.Finalize(item, now));
    FinalizeStep(db1, item, now);
    assert WithTask(db1, item.task, FinalizedTask(published, item.stage, item.attempt, db.automatic))
        == WithTask(db, item.task, FinalizedTask(published, item.stage, item.attempt, db.automatic));
  }

  /** An accepted commit_success amounts to the task's delivery, settled. */
  lemma CommitSuccessRun(db: Db, item: Item, now: Time, artifacts: seq<Artifact>)
    requires WellFormed(db) && Accepts(db, item, now, artifacts)
    ensures var delivered := Delivered(db.tasks[item.task], item, artifacts, db.automatic);
            && delivered.groups != []
            && Run(db, OpsOf(db, CommitSuccess(item, now, artifacts))) == Aggregated(RefreshAll(WithTask(db, item.task, delivered)))
  {
    var prepared := PreparedTask(db.tasks[item.task], item.stage, item.attempt, artifacts);
    PreparedStep(db, item, now, artifacts);
    PublishedStep(db, prepared, item, now, artifacts);
    FinalizedStep(db, PublishedTask(prepared, item.stage, item.attempt), item, now);
    RunOfThree(db, Op.Prepare(item, now, artifacts), Op.PublishFiles(Runs.KeyOf(item)), Op.Finalize(item, now));
    OpsOfThree(db, item, now, artifacts);
  }

  lemma OpsOfThree(db: Db, item: Item, now: Time, artifacts: seq<Artifact>)
    requires Accepts(db, item, now, artifacts)
    ensures OpsOf(db, CommitSuccess(item, now, artifacts))
         == [Op.Prepare(item, now, artifacts)] + [Op.PublishFiles(Runs.KeyOf(item))] + [Op.Finalize(item, now)]
  {
  }

  lemma RefusedRun(db: Db, item: Item, now: Time, artifacts: seq<Artifact>)
    requires WellFormed(db) && !Accepts(db, item, now, artifacts)
    ensures Run(db, OpsOf(db, CommitSuccess(item, now, artifacts))) == db
  {
    OneStep(db, Op.Prepare(item, now, artifacts));
    assert OpsOf(db, CommitSuccess(item, now, artifacts)) == [Op.Prepare(item, now, artifacts)];
  }

  /** A candidate of the group is delivered by this call. */
  predicate Delivers(db: Db, call: Call, t: nat) {
    call.CommitSuccess? && OfGroup(call.item, t) && Accepts(db, call.item, call.now, call.artifacts)
  }

  lemma GroupCommitKeeps(db: Db, item: Item, now: Time, artifacts: seq<Artifact>, t: nat)
    requires GroupAt(db, t) && Accepts(db, item, now, artifacts) && OfGroup(item, t)
    requires Inv(Aggregated(RefreshAll(WithTask(db, t, Delivered(db.tasks[t], item, artifacts, db.automatic)))))
    ensures var db' := Aggregated(RefreshAll(WithTask(db, t, Delivered(db.tasks[t], item, artifacts, db.automatic))));
            |db'.tasks| == |db.tasks| && GroupInv(db'.tasks[t]) && HasSuccess(db'.tasks[t])
  {
    DeliverKeeps(db.tasks[t], item, now, artifacts, db.automatic);
    SettledKeeps(db, t, Delivered(db.tasks[t], item, artifacts, db.automatic));
  }

  lemma CommitKeeps(db: Db, item: Item, now: Time, artifacts: seq<Artifact>, db': Db, t: nat)
    requires GroupAt(db, t) && Accepts(db, item, now, artifacts) && Inv(db')
    requires Delivered(db.tasks[item.task], item, artifacts, db.automatic).groups != []
    requires db' == Aggregated(RefreshAll(WithTask(db, item.task, Delivered(db.tasks[item.task], item, artifacts, db.automatic))))
    ensures |db'.tasks| == |db.tasks| && GroupInv(db'.tasks[t])
    ensures HasSuccess(db'.tasks[t]) <==> HasSuccess(db.tasks[t]) || OfGroup(item, t)
  {
    if OfGroup(item, t) {
      GroupCommitKeeps(db, item, now, artifacts, t);
    } else {
      DeliveredElsewhere(db, item, now, artifacts, t);
      UntouchedKeeps(db, db', t);
    }
  }

  lemma DeliveredSame(t: Task, item: Item, artifacts: seq<Artifact>, automatic: bool)
    requires |t.stages| == STAGE_COUNT && ValidKey(t, item.stage, item.attempt) && item.stage != IMAGE_EDIT
    ensures SameGroup(t, Delivered(t, item, artifacts, automatic))
  {
  }

  lemma DeliveredElsewhere(db: Db, item: Item, now: Time, artifacts: seq<Artifact>, t: nat)
    requires Steady(db, t) && Accepts(db, item, now, artifacts) && !OfGroup(item, t)
    requires Delivered(db.tasks[item.task], item, artifacts, db.automatic).groups != []
    ensures var delivered := Delivered(db.tasks[item.task], item, artifacts, db.automatic);
            GroupUntouched(db, Aggregated(RefreshAll(WithTask(db, item.task, delivered))), t)
  {
    if item.task == t {
      DeliveredSame(db.tasks[t], item, artifacts, db.automatic);
    }
    ReplacedUntouched(db, item.task, Delivered(db.tasks[item.task], item, artifacts, db.automatic), t);
  }

  lemma CallKeeps(db: Db, call: Call, t: nat)
    requires GroupAt(db, t) && InScope(call, t)
    ensures var db' := Run(db, OpsOf(db, call));
            && GroupAt(db', t) && |db'.tasks| == |db.tasks|
            && (HasSuccess(db'.tasks[t]) <==> HasSuccess(db.tasks[t]) || Delivers(db, call, t))
  {
    RunKeepsInv(db, OpsOf(db, call));
    match call
    case Single(op) =>
      OneStep(db, op);
      SingleKeeps(db, op, t);
    case CommitSuccess(item, now, artifacts) =>
      if Accepts(db, item, now, artifacts) {
        CommitSuccessRun(db, item, now, artifacts);
        CommitKeeps(db, item, now, artifacts, Run(db, OpsOf(db, call)), t);
      } else {
        RefusedRun(db, item, now, artifacts);
      }
  }

  // ---------------------------------------------------------------- any run

  /** Some candidate of the group was delivered during the first `n` calls. */
  ghost predicate AnyDelivery(db: Db, calls: seq<Call>, n: nat, t: nat)
    requires WellFormed(db) && n <= |calls|
  {
    exists i :: 0 <= i < n && Delivers(Run(db, OpsOfAll(db, calls[..i])), calls[i], t)
  }

  lemma LastCall(db: Db, calls: seq<Call>, n: nat)
    requires WellFormed(db) && 0 < n <= |calls|
    ensures var before := Run(db, OpsOfAll(db, calls[..n - 1]));
            Run(db, OpsOfAll(db, calls[..n])) == Run(before, OpsOf(before, calls[n - 1]))
  {
    assert calls[..n][..n - 1] == calls[..n - 1];
    var ops := OpsOfAll(db, calls[..n - 1]);
    Runs.RunConcat(db, ops, OpsOf(Run(db, ops), calls[n - 1]));
  }

  lemma MoreDelivery(db: Db, calls: seq<Call>, n: nat, t: nat)
    requires WellFormed(db) && 0 < n <= |calls|
    ensures AnyDelivery(db, calls, n, t)
       <==> AnyDelivery(db, calls, n - 1, t) || Delivers(Run(db, OpsOfAll(db, calls[..n - 1])), calls[n - 1], t)
  {
  }

  /** The group is intact after the first `n` calls, and has a success if one was delivered. */
  ghost predicate SuccessIffDelivery(db: Db, end: Db, calls: seq<Call>, n: nat, t: nat)
    requires WellFormed(db) && n <= |calls|
  {
    && GroupAt(end, t) && |end.tasks| == |db.tasks|
    && (HasSuccess(end.tasks[t]) <==> AnyDelivery(db, calls, n, t))
  }

  lemma OneMoreCall(db: Db, before: Db, end: Db, calls: seq<Call>, n: nat, t: nat)
    requires WellFormed(db) && 0 < n <= |calls| && InScope(calls[n - 1], t)
    requires before == Run(db, OpsOfAll(db, calls[..n - 1])) && SuccessIffDelivery(db, before, calls, n - 1, t)
    requires end == Run(before, OpsOf(before, calls[n - 1]))
    ensures SuccessIffDelivery(db, end, calls, n, t)
  {
    CallKeeps(before, calls[n - 1], t);
    MoreDelivery(db, calls, n, t);
  }

  lemma {:induction false} CallsKeep(db: Db, calls: seq<Call>, n: nat, t: nat)
    requires GroupAt(db, t) && !HasSuccess(db.tasks[t]) && n <= |calls|
    requires forall i :: 0 <= i < |calls| ==> InScope(calls[i], t)
    ensures SuccessIffDelivery(db, Run(db, OpsOfAll(db, calls[..n])), calls, n, t)
    decreases n
  {
    if n > 0 {
      CallsKeep(db, calls, n - 1, t);
      LastCall(db, calls, n);
      OneMoreCall(db, Run(db, OpsOfAll(db, calls[..n - 1])), Run(db, OpsOfAll(db, calls[..n])), calls, n, t);
    }
  }

  /** What an intact group comes to. */
  ghost predicate Outcome(task: Task, delivered: bool) {
    && |task.stages| == STAGE_COUNT
    && var gens, state := CurrentGens(task.groups), task.stages[IMAGE_EDIT].state;
       if gens == [] || AnyUnfinished(gens) then Open(state) && GroupReviews(task) == {}
       else if delivered then state.Succeeded? && |GroupReviews(task)| == 1
       else state.FailedTerminal? && GroupReviews(task) == {}
  }

  lemma IntactOutcome(task: Task)
    requires GroupInv(task)
    ensures Outcome(task, HasSuccess(task))
  {
    OneReviewIfDone(task);
  }

  /** A group that starts anywhere in a run of the controller: whatever calls come between its leases and
      results, while a candidate is unfinished the image stage is open and unreviewed; once none is, it has
      succeeded with exactly one review of the group if any candidate was delivered, and has failed for good
      without one otherwise. */
  lemma ConfluenceOnRuns(db: Db, calls: seq<Call>, t: nat)
    requires WellFormed(db) && Inv(db) && t < |db.tasks| && GroupStart(db.tasks[t])
    requires forall i :: 0 <= i < |calls| ==> InScope(calls[i], t)
    ensures var end := Run(db, OpsOfAll(db, calls));
            t < |end.tasks| && Outcome(end.tasks[t], AnyDelivery(db, calls, |calls|, t))
  {
    StartIsOpen(db.tasks[t]);
    assert calls[..|calls|] == calls;
    CallsKeep(db, calls, |calls|, t);
    IntactOutcome(Run(db, OpsOfAll(db, calls)).tasks[t]);
  }
}
