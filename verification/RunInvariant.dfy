/** Every run of the controller keeps the invariant of every task. */
module RunInvariant {
  import opened Tables
  import opened Transitions
  import opened Batch
  import opened Protocol
  import opened ChainShape
  import opened TaskInvariant
  import opened TaskSteps
  import opened RecoverySteps
  import opened OperatorSteps

  ghost predicate Inv(db: Db) {
    forall t :: 0 <= t < |db.tasks| ==> TaskInv(db.tasks[t])
  }

  lemma PlannedInv(db: Db)
    requires IsPlanned(db)
    ensures Inv(db)
  {
    forall t | 0 <= t < |db.tasks| ensures TaskInv(db.tasks[t]) {
      assert IsPlannedTask(db.tasks[t]);
      PlannedTaskInv(db.tasks[t].project, db.tasks[t].projectOrder, db.tasks[t].order, db.tasks[t].generations);
    }
  }

  lemma InvShape(db: Db)
    requires Inv(db)
    ensures WellFormed(db)
  {
    forall t | 0 <= t < |db.tasks| ensures |db.tasks[t].stages| == STAGE_COUNT && db.tasks[t].groups != [] {
      assert TaskInv(db.tasks[t]);
    }
  }

  // ---------------------------------------------------------------- refresh and aggregate status

  lemma RefreshAllInv(db: Db)
    requires WellFormed(db) && Inv(db)
    ensures Inv(RefreshAll(db))
  {
    forall t | 0 <= t < |db.tasks| ensures TaskInv(RefreshAll(db).tasks[t]) {
      RefreshKeeps(db.tasks[t]);
    }
  }

  lemma StatusIrrelevant(t: Task, status: TaskStatus)
    requires TaskInv(t)
    ensures TaskInv(t.(status := status))
  {
  }

  lemma AggregatedInv(db: Db)
    requires WellFormed(db) && Inv(db)
    ensures Inv(Aggregated(db))
  {
    var skipped := SkipIncomplete(db);
    forall t | 0 <= t < |db.tasks| ensures TaskInv(Aggregated(db).tasks[t]) {
      if db.tasks[t].stages[EVALUATE_ABSOLUTE].state.Ready? {
        SkipKeeps(db.tasks[t]);
      }
      assert TaskInv(skipped.tasks[t]);
      StatusIrrelevant(skipped.tasks[t], StatusOf(skipped.tasks[t]));
    }
  }

  lemma RefreshedAggregatedInv(db: Db)
    requires WellFormed(db) && Inv(db)
    ensures Inv(Aggregated(RefreshAll(db)))
  {
    RefreshAllInv(db);
    AggregatedInv(RefreshAll(db));
  }

  /** Refresh and aggregation rewrite no attempt, and no stage that is neither pending nor a ready
      finalizer. */
  lemma SettledUntouched(db: Db, t: nat, i: nat)
    requires WellFormed(db) && t < |db.tasks| && i < STAGE_COUNT
    ensures var t' := Aggregated(RefreshAll(db)).tasks[t];
            && t'.groups == db.tasks[t].groups
            && t'.stages[i].attempts == db.tasks[t].stages[i].attempts
            && (!db.tasks[t].stages[i].state.Pending? && !db.tasks[t].stages[i].state.Ready? ==> t'.stages[i] == db.tasks[t].stages[i])
  {
    var r := Refreshed(db.tasks[t]);
    assert RefreshAll(db).tasks[t] == r;
    assert r.stages[i].attempts == db.tasks[t].stages[i].attempts;
  }

  // ---------------------------------------------------------------- leasing

  lemma TaskReplacedInv(db: Db, t: nat, task: Task)
    requires Inv(db) && t < |db.tasks| && TaskInv(task)
    ensures Inv(WithTask(db, t, task))
  {
  }

  lemma ScanStep(db: Db, row: Row, now: Time, resources: Allocation)
    requires WellFormed(db) && Inv(db) && row.task < |db.tasks| && row.stage < STAGE_COUNT
    requires Queued(row.stage, db.tasks[row.task].stages[row.stage])
    ensures var task := TryLease(db.tasks[row.task], row.stage, now, FreshLease(db, now, resources), db.automatic).task;
            && |task.stages| == STAGE_COUNT && task.groups != [] && Inv(WithTask(db, row.task, task))
            && WellFormed(WithTask(db, row.task, task))
  {
    var lease := FreshLease(db, now, resources);
    LeaseKeeps(db.tasks[row.task], row.stage, now, lease, db.automatic);
    TryLeaseShape(db.tasks[row.task], row.stage, now, lease, db.automatic);
    TaskReplacedInv(db, row.task, TryLease(db.tasks[row.task], row.stage, now, lease, db.automatic).task);
  }

  predicate RowsQueued(db: Db, rows: seq<Row>) {
    && RowsInRange(db, rows)
    && WellFormed(db)
    && (forall i :: 0 <= i < |rows| ==> Queued(rows[i].stage, db.tasks[rows[i].task].stages[rows[i].stage]))
    && (forall i, j :: 0 <= i < j < |rows| ==> rows[i] != rows[j])
  }

  lemma SkipKeepsQueue(db: Db, rows: seq<Row>, now: Time, resources: Allocation)
    requires WellFormed(db) && rows != [] && RowsQueued(db, rows)
    ensures var t := rows[0].task;
            var try := TryLease(db.tasks[t], rows[0].stage, now, FreshLease(db, now, resources), db.automatic);
            |try.task.stages| == STAGE_COUNT && try.task.groups != [] && (try.Skipped? ==> RowsQueued(WithTask(db, t, try.task), rows[1..]))
  {
    var t, s := rows[0].task, rows[0].stage;
    var lease := FreshLease(db, now, resources);
    TryLeaseShape(db.tasks[t], s, now, lease, db.automatic);
    SkipTouchesOneStage(db.tasks[t], s, now, lease, db.automatic);
    assert forall i :: 0 <= i < |rows| - 1 ==> rows[1..][i] == rows[i + 1];
  }

  lemma SkipTouchesOneStage(t: Task, s: nat, now: Time, lease: Lease, automatic: bool)
    requires |t.stages| == STAGE_COUNT && s < STAGE_COUNT && t.groups != []
    ensures var r := TryLease(t, s, now, lease, automatic).task;
            |r.stages| == STAGE_COUNT && forall i :: 0 <= i < STAGE_COUNT && i != s ==> r.stages[i] == t.stages[i]
  {
  }

  lemma {:induction false} ScanInv(db: Db, rows: seq<Row>, now: Time, capacities: Capacities)
    requires WellFormed(db) && Inv(db) && RowsQueued(db, rows)
    ensures Inv(Scan(db, rows, now, capacities).db)
    decreases |rows|
  {
    if rows != [] {
      var t, s := rows[0].task, rows[0].stage;
      var resources := Allocate(db, db.tasks[t].project, StageResources(s), capacities);
      if resources.None? {
        ScanInv(db, rows[1..], now, capacities);
      } else {
        ScanStep(db, rows[0], now, resources.value);
        SkipKeepsQueue(db, rows, now, resources.value);
        var try := TryLease(db.tasks[t], s, now, FreshLease(db, now, resources.value), db.automatic);
        if try.Skipped? {
          ScanInv(WithTask(db, t, try.task), rows[1..], now, capacities);
        }
      }
    }
  }

  lemma DispatchInv(db: Db, now: Time, capacities: Capacities, f: Filter, queue: seq<Row>)
    requires WellFormed(db) && Inv(db) && IsQueue(RefreshAll(db), now, f, queue)
    ensures Inv(Dispatched(db, now, capacities, queue).db)
  {
    RefreshAllInv(db);
    assert RowsQueued(RefreshAll(db), queue);
    ScanInv(RefreshAll(db), queue, now, capacities);
  }

  // ---------------------------------------------------------------- reconciliation

  ghost predicate AllReconcilable(db: Db, rows: seq<Key>) {
    && (forall i :: 0 <= i < |rows| ==> rows[i].0 < |db.tasks| && Reconcilable(db.tasks[rows[i].0], rows[i].1, rows[i].2))
    && (forall i, j :: 0 <= i < j < |rows| ==> rows[i] != rows[j])
  }

  /** Two rows of one task can only be two candidates of its image stage. */
  lemma ReconcilableTogether(t: Task, s: nat, a: nat, s': nat, a': nat)
    requires TaskInv(t) && Reconcilable(t, s, a) && Reconcilable(t, s', a') && (s, a) != (s', a')
    ensures s == s' == IMAGE_EDIT
  {
    if s != IMAGE_EDIT {
      HeldIsLatest(t, s, a);
      if s' != IMAGE_EDIT {
        HeldIsLatest(t, s', a');
        OneLiveStage(t.stages, s, s');
      } else {
        PlainBlocksImage(t, s, a, a');
      }
    } else if s' != IMAGE_EDIT {
      PlainBlocksImage(t, s', a', a);
    }
  }

  lemma PlainBlocksImage(t: Task, s: nat, a: nat, b: nat)
    requires TaskInv(t) && s != IMAGE_EDIT && Reconcilable(t, s, a)
    ensures !Reconcilable(t, IMAGE_EDIT, b)
  {
    HeldIsLatest(t, s, a);
    if s > EDIT_GATE {
      GateBefore(t.stages, s);
    }
    if Reconcilable(t, IMAGE_EDIT, b) {
      RunningCandidateMovable(t, b);
    }
  }

  lemma PublishedReconcilable(t: Task, s: nat, a: nat)
    requires Reconcilable(t, s, a)
    ensures Reconcilable(PublishedTask(t, s, a), s, a)
    ensures s == IMAGE_EDIT ==> forall b :: b != a && Reconcilable(t, s, b) ==> Reconcilable(PublishedTask(t, s, a), s, b)
  {
  }

  lemma ReconcileOneInv(db: Db, k: Key, agree: bool)
    requires WellFormed(db) && Inv(db) && k.0 < |db.tasks| && Reconcilable(db.tasks[k.0], k.1, k.2)
    ensures Inv(ReconcileOne(db, k, agree))
  {
    var t := db.tasks[k.0];
    if !agree {
      CommitFailedKeeps(t, k.1, k.2);
    } else {
      PublishKeeps(t, k.1, k.2);
      PublishedReconcilable(t, k.1, k.2);
      var published := PublishedTask(t, k.1, k.2);
      if !CanFinalize(published, k.1, k.2, None) {
        CommitFailedKeeps(published, k.1, k.2);
      } else {
        CompletedInv(db, k, published);
      }
    }
  }

  lemma CompletedInv(db: Db, k: Key, published: Task)
    requires WellFormed(db) && Inv(db) && k.0 < |db.tasks| && TaskInv(published) && CanFinalize(published, k.1, k.2, None)
    ensures Inv(Completed(db, k, published))
  {
    FinalizeKeeps(published, k.1, k.2, db.automatic);
    ReplacedRefreshedInv(db, k.0, FinalizedTask(published, k.1, k.2, db.automatic));
  }

  lemma ReplacedRefreshedInv(db: Db, t: nat, task: Task)
    requires WellFormed(db) && Inv(db) && t < |db.tasks| && TaskInv(task)
    ensures Inv(Aggregated(RefreshAll(WithTask(db, t, task))))
  {
    RefreshedAggregatedInv(WithTask(db, t, task));
  }

  /** Settling one candidate leaves its siblings' rows running. */
  lemma SiblingAfterFailedCommit(t: Task, a: nat, b: nat)
    requires Reconcilable(t, IMAGE_EDIT, a) && Reconcilable(t, IMAGE_EDIT, b) && a != b
    ensures Reconcilable(CommitFailedTask(t, IMAGE_EDIT, a), IMAGE_EDIT, b)
  {
  }

  lemma SiblingAfterCommit(t: Task, a: nat, b: nat, automatic: bool)
    requires Reconcilable(t, IMAGE_EDIT, a) && Reconcilable(t, IMAGE_EDIT, b) && a != b
    ensures Reconcilable(FinalizedTask(t, IMAGE_EDIT, a, automatic), IMAGE_EDIT, b)
  {
    var c, d := t.stages[IMAGE_EDIT].attempts[a].candidate.value, t.stages[IMAGE_EDIT].attempts[b].candidate.value;
    assert c.group == d.group && c.index != d.index;
  }

  lemma SettledRowStays(db: Db, q: Key)
    requires WellFormed(db) && q.0 < |db.tasks| && Reconcilable(db.tasks[q.0], q.1, q.2)
    requires q.1 != IMAGE_EDIT ==> Holding(db.tasks[q.0].stages[q.1].state)
    ensures Reconcilable(Aggregated(RefreshAll(db)).tasks[q.0], q.1, q.2)
  {
    SettledUntouched(db, q.0, q.1);
  }

  lemma SiblingStays(db: Db, k: Key, b: nat, agree: bool)
    requires WellFormed(db) && k.0 < |db.tasks| && k.1 == IMAGE_EDIT && b != k.2
    requires Reconcilable(db.tasks[k.0], IMAGE_EDIT, k.2) && Reconcilable(db.tasks[k.0], IMAGE_EDIT, b)
    ensures |ReconcileOne(db, k, agree).tasks| == |db.tasks|
    ensures Reconcilable(ReconcileOne(db, k, agree).tasks[k.0], IMAGE_EDIT, b)
  {
    var t := db.tasks[k.0];
    var published := PublishedTask(t, k.1, k.2);
    PublishedReconcilable(t, k.1, k.2);
    if !agree {
      SiblingAfterFailedCommit(t, k.2, b);
    } else if !CanFinalize(published, k.1, k.2, None) {
      SiblingAfterFailedCommit(published, k.2, b);
    } else {
      SiblingAfterCommit(published, k.2, b, db.automatic);
      SettledRowStays(WithTask(db, k.0, FinalizedTask(published, k.1, k.2, db.automatic)), (k.0, IMAGE_EDIT, b));
    }
  }

  lemma OtherTaskStays(db: Db, k: Key, q: Key, agree: bool)
    requires WellFormed(db) && k.0 < |db.tasks| && q.0 < |db.tasks| && k.0 != q.0
    requires Reconcilable(db.tasks[q.0], q.1, q.2)
    requires q.1 != IMAGE_EDIT ==> Holding(db.tasks[q.0].stages[q.1].state)
    ensures |ReconcileOne(db, k, agree).tasks| == |db.tasks|
    ensures Reconcilable(ReconcileOne(db, k, agree).tasks[q.0], q.1, q.2)
  {
    if ValidAt(db, k) && db.tasks[k.0].stages[k.1].attempts[k.2].commit.Some? {
      var published := PublishedTask(db.tasks[k.0], k.1, k.2);
      if agree && CanFinalize(published, k.1, k.2, None) {
        SettledRowStays(WithTask(db, k.0, FinalizedTask(published, k.1, k.2, db.automatic)), q);
      }
    }
  }

  lemma OtherRowStaysReconcilable(db: Db, k: Key, q: Key, agree: bool)
    requires WellFormed(db) && Inv(db) && k != q
    requires k.0 < |db.tasks| && Reconcilable(db.tasks[k.0], k.1, k.2)
    requires q.0 < |db.tasks| && Reconcilable(db.tasks[q.0], q.1, q.2)
    ensures var db' := ReconcileOne(db, k, agree);
            |db'.tasks| == |db.tasks| && Reconcilable(db'.tasks[q.0], q.1, q.2)
  {
    if k.0 == q.0 {
      ReconcilableTogether(db.tasks[k.0], k.1, k.2, q.1, q.2);
      SiblingStays(db, k, q.2, agree);
    } else {
      if q.1 != IMAGE_EDIT {
        HeldIsLatest(db.tasks[q.0], q.1, q.2);
      }
      OtherTaskStays(db, k, q, agree);
    }
  }

  lemma RestReconcilable(db: Db, rows: seq<Key>, agree: bool)
    requires WellFormed(db) && Inv(db) && rows != [] && AllReconcilable(db, rows)
    ensures AllReconcilable(ReconcileOne(db, rows[0], agree), rows[1..])
  {
    var db' := ReconcileOne(db, rows[0], agree);
    forall i | 0 <= i < |rows| - 1
      ensures rows[1..][i].0 < |db'.tasks| && Reconcilable(db'.tasks[rows[1..][i].0], rows[1..][i].1, rows[1..][i].2)
    {
      assert rows[1..][i] == rows[i + 1] && rows[0] != rows[i + 1];
      OtherRowStaysReconcilable(db, rows[0], rows[i + 1], agree);
    }
  }

  lemma {:induction false} ReconciledInv(db: Db, rows: seq<Key>, agree: set<Key>)
    requires WellFormed(db) && Inv(db) && AllReconcilable(db, rows)
    ensures Inv(Reconciled(db, rows, agree))
    decreases |rows|
  {
    if rows != [] {
      var db' := ReconcileOne(db, rows[0], rows[0] in agree);
      ReconcileOneInv(db, rows[0], rows[0] in agree);
      RestReconcilable(db, rows, rows[0] in agree);
      ReconciledInv(db', rows[1..], agree);
    }
  }

  // ---------------------------------------------------------------- expiry

  /** No call of recovery records an intent or hands a lease back. */
  ghost predicate Quieter(db: Db, db': Db) {
    && |db'.tasks| == |db.tasks|
    && forall k: Key :: Unsettled(db', k) ==> Unsettled(db, k)
  }

  lemma SettledQuieter(db: Db)
    requires WellFormed(db)
    ensures Quieter(db, Aggregated(RefreshAll(db)))
  {
    forall k: Key | Unsettled(Aggregated(RefreshAll(db)), k) ensures Unsettled(db, k) {
      SettledUntouched(db, k.0, k.1);
    }
  }

  lemma CommitFailedQuieter(db: Db, k: Key, t: Task)
    requires WellFormed(db) && k.0 < |db.tasks| && ValidKey(t, k.1, k.2) && t.stages[k.1].attempts[k.2].commit.Some?
    requires forall s, a :: OpenIntent(t, s, a) ==> OpenIntent(db.tasks[k.0], s, a)
    ensures Quieter(db, WithTask(db, k.0, CommitFailedTask(t, k.1, k.2)))
    ensures !Unsettled(WithTask(db, k.0, CommitFailedTask(t, k.1, k.2)), k)
  {
    var t' := CommitFailedTask(t, k.1, k.2);
    forall s, a | OpenIntent(t', s, a) ensures OpenIntent(t, s, a) {}
  }

  lemma FinalizedQuieter(t: Task, s: nat, a: nat, automatic: bool)
    requires |t.stages| == STAGE_COUNT && CanFinalize(t, s, a, None)
    ensures forall i, b :: OpenIntent(FinalizedTask(t, s, a, automatic), i, b) ==> OpenIntent(t, i, b)
    ensures !OpenIntent(FinalizedTask(t, s, a, automatic), s, a)
  {
  }

  lemma PublishedQuieter(t: Task, s: nat, a: nat)
    requires Reconcilable(t, s, a) && (OpenCommit(t.stages[s].attempts[a].commit) || t.stages[s].attempts[a].lease.None?)
    ensures forall i, b :: OpenIntent(PublishedTask(t, s, a), i, b) ==> OpenIntent(t, i, b)
  {
  }

  lemma CompletedSettles(db: Db, k: Key, published: Task)
    requires WellFormed(db) && k.0 < |db.tasks| && |published.stages| == STAGE_COUNT && published.groups != []
    requires CanFinalize(published, k.1, k.2, None)
    requires forall s, a :: OpenIntent(published, s, a) ==> OpenIntent(db.tasks[k.0], s, a)
    ensures Quieter(db, Completed(db, k, published)) && !Unsettled(Completed(db, k, published), k)
  {
    var db1 := WithTask(db, k.0, FinalizedTask(published, k.1, k.2, db.automatic));
    FinalizedQuieter(published, k.1, k.2, db.automatic);
    SettledQuieter(db1);
    assert Quieter(db, db1) && !Unsettled(db1, k);
  }

  lemma ReconcileOneSettles(db: Db, k: Key, agree: bool)
    requires WellFormed(db) && Inv(db) && k.0 < |db.tasks| && Reconcilable(db.tasks[k.0], k.1, k.2)
    ensures Quieter(db, ReconcileOne(db, k, agree)) && !Unsettled(ReconcileOne(db, k, agree), k)
  {
    var t := db.tasks[k.0];
    assert AttemptOk(t.stages[k.1].attempts[k.2]) by {
      if k.1 != IMAGE_EDIT {
        assert StageOk(t.stages[k.1]);
      }
    }
    if !agree {
      CommitFailedQuieter(db, k, t);
    } else {
      PublishedQuieter(t, k.1, k.2);
      var published := PublishedTask(t, k.1, k.2);
      if CanFinalize(published, k.1, k.2, None) {
        CompletedSettles(db, k, published);
      } else if !IsCommitted(published.stages[k.1].attempts[k.2]) {
        CommitFailedQuieter(db, k, published);
      }
    }
  }

  lemma {:induction false} ReconciledSettles(db: Db, rows: seq<Key>, agree: set<Key>)
    requires WellFormed(db) && Inv(db) && AllReconcilable(db, rows)
    ensures Quieter(db, Reconciled(db, rows, agree))
    ensures forall k :: k in rows ==> !Unsettled(Reconciled(db, rows, agree), k)
    decreases |rows|
  {
    if rows != [] {
      var db' := ReconcileOne(db, rows[0], rows[0] in agree);
      ReconcileOneInv(db, rows[0], rows[0] in agree);
      ReconcileOneSettles(db, rows[0], rows[0] in agree);
      RestReconcilable(db, rows, rows[0] in agree);
      ReconciledSettles(db', rows[1..], agree);
      SettledByRest(db, db', Reconciled(db', rows[1..], agree), rows);
    }
  }

  lemma SettledByRest(db: Db, db': Db, end: Db, rows: seq<Key>)
    requires rows != [] && Quieter(db, db') && Quieter(db', end) && !Unsettled(db', rows[0])
    requires forall k :: k in rows[1..] ==> !Unsettled(end, k)
    ensures Quieter(db, end) && forall k :: k in rows ==> !Unsettled(end, k)
  {
  }

  /** Reconciliation settles every recorded intent whose lease could still expire. */
  lemma ReconcileSettlesAll(db: Db, rows: seq<Key>, agree: set<Key>)
    requires WellFormed(db) && Inv(db) && IsUnsettledList(db, rows)
    ensures Inv(Reconciled(db, rows, agree))
    ensures forall k: Key :: !Unsettled(Reconciled(db, rows, agree), k)
  {
    forall i | 0 <= i < |rows| ensures rows[i].0 < |db.tasks| && Reconcilable(db.tasks[rows[i].0], rows[i].1, rows[i].2) {
      HeldIsReconcilable(db.tasks[rows[i].0], rows[i].1, rows[i].2);
    }
    ReconciledInv(db, rows, agree);
    ReconciledSettles(db, rows, agree);
  }

  predicate NoIntent(db: Db, k: Key) {
    LeaseAt(db, k).Some? ==> !OpenCommit(db.tasks[k.0].stages[k.1].attempts[k.2].commit)
  }

  lemma ExpireOneKeepsCommits(db: Db, e: Expiry, k: Key)
    requires WellFormed(db) && NoIntent(db, k)
    ensures |ExpireOne(db, e).tasks| == |db.tasks| && NoIntent(ExpireOne(db, e), k)
  {
  }

  lemma ExpireOneInv(db: Db, e: Expiry)
    requires WellFormed(db) && Inv(db) && NoIntent(db, e.key)
    ensures Inv(ExpireOne(db, e))
  {
    if ExpireOne(db, e) != db {
      ExpireKeeps(db.tasks[e.key.0], e.key.1, e.key.2, e.cleanup, e.first, e.second);
    }
  }

  lemma {:induction false} ExpireAllInv(db: Db, rows: seq<Expiry>)
    requires WellFormed(db) && Inv(db) && forall i :: 0 <= i < |rows| ==> NoIntent(db, rows[i].key)
    ensures Inv(ExpireAll(db, rows))
    decreases |rows|
  {
    if rows != [] {
      var e := rows[0];
      var db' := ExpireOne(db, e);
      ExpireOneInv(db, e);
      forall i | 0 <= i < |rows| - 1 ensures NoIntent(db', rows[1..][i].key) {
        ExpireOneKeepsCommits(db, e, rows[i + 1].key);
      }
      ExpireAllInv(db', rows[1..]);
    }
  }

  lemma RecoverExpiredInv(db: Db, rows: seq<Key>, agree: set<Key>, now: Time, boot: nat, expired: seq<Expiry>)
    requires WellFormed(db) && Inv(db) && IsUnsettledList(db, rows)
    requires IsExpiredList(Reconciled(db, rows, agree), expired, now, boot)
    ensures Inv(Aggregated(ExpireAll(Reconciled(db, rows, agree), expired)))
  {
    var db1 := Reconciled(db, rows, agree);
    ReconcileSettlesAll(db, rows, agree);
    forall i | 0 <= i < |expired| ensures NoIntent(db1, expired[i].key) {
      assert !Unsettled(db1, expired[i].key);
    }
    ExpireAllInv(db1, expired);
    AggregatedInv(ExpireAll(db1, expired));
  }

  // ---------------------------------------------------------------- every step, every run

  lemma MarkRunningInv(db: Db, item: Item, now: Time, boot: nat)
    requires Inv(db) && OwnsItem(db, item, now)
    ensures Inv(WithTask(db, item.task, MarkedRunning(db.tasks[item.task], item, now, boot, db.leaseSeconds)))
  {
    MarkRunningKeeps(db.tasks[item.task], item, now, boot, db.leaseSeconds);
    TaskReplacedInv(db, item.task, MarkedRunning(db.tasks[item.task], item, now, boot, db.leaseSeconds));
  }

  lemma BeatInv(db: Db, item: Item, now: Time)
    requires Inv(db) && OwnsItem(db, item, now)
    ensures Inv(WithTask(db, item.task, Heartbeat(db.tasks[item.task], item, now, db.leaseSeconds)))
  {
    HeartbeatKeeps(db.tasks[item.task], item, now, db.leaseSeconds);
    TaskReplacedInv(db, item.task, Heartbeat(db.tasks[item.task], item, now, db.leaseSeconds));
  }

  lemma PrepareInv(db: Db, item: Item, now: Time, artifacts: seq<Artifact>)
    requires Inv(db) && item.task < |db.tasks| && CanPrepare(db.tasks[item.task], item, now)
    ensures Inv(WithTask(db, item.task, PreparedTask(db.tasks[item.task], item.stage, item.attempt, artifacts)))
  {
    PrepareKeeps(db.tasks[item.task], item, now, artifacts);
    TaskReplacedInv(db, item.task, PreparedTask(db.tasks[item.task], item.stage, item.attempt, artifacts));
  }

  lemma PublishInv(db: Db, k: Key)
    requires Inv(db) && ValidAt(db, k) && db.tasks[k.0].stages[k.1].attempts[k.2].commit.Some?
    ensures Inv(WithTask(db, k.0, PublishedTask(db.tasks[k.0], k.1, k.2)))
  {
    PublishKeeps(db.tasks[k.0], k.1, k.2);
    TaskReplacedInv(db, k.0, PublishedTask(db.tasks[k.0], k.1, k.2));
  }

  lemma FinalizeInv(db: Db, item: Item, now: Time)
    requires WellFormed(db) && Inv(db) && item.task < |db.tasks|
    requires CanFinalize(db.tasks[item.task], item.stage, item.attempt, Some(now))
    ensures Inv(Completed(db, (item.task, item.stage, item.attempt), db.tasks[item.task]))
  {
    CompletedInv(db, (item.task, item.stage, item.attempt), db.tasks[item.task]);
  }

  lemma FailInv(db: Db, item: Item, now: Time, report: Report)
    requires WellFormed(db) && Inv(db) && OwnsItem(db, item, now)
    ensures Inv(Failed(db, item, now, report))
  {
    var t' := FailTask(db.tasks[item.task], item.stage, item.attempt, now, report, db.automatic);
    FailKeeps(db.tasks[item.task], item.stage, item.attempt, now, report, db.automatic);
    ReplacedAggregatedInv(db, item.task, t');
  }

  lemma ReplacedAggregatedInv(db: Db, t: nat, task: Task)
    requires WellFormed(db) && Inv(db) && t < |db.tasks| && TaskInv(task)
    ensures WellFormed(WithTask(db, t, task)) && Inv(Aggregated(WithTask(db, t, task)))
  {
    TaskReplacedInv(db, t, task);
    InvShape(WithTask(db, t, task));
    AggregatedInv(WithTask(db, t, task));
  }

  lemma ReactivateInv(db: Db, item: Item, now: Time)
    requires Inv(db) && RecoversItem(db, item)
    ensures Inv(WithTask(db, item.task, Reactivated(db.tasks[item.task], item, now, db.leaseSeconds)))
  {
    ReactivateKeeps(db.tasks[item.task], item, now, db.leaseSeconds);
    TaskReplacedInv(db, item.task, Reactivated(db.tasks[item.task], item, now, db.leaseSeconds));
  }

  lemma ResolveInv(db: Db, item: Item, action: Settlement)
    requires WellFormed(db) && Inv(db) && RecoversItem(db, item)
    ensures Inv(Aggregated(RefreshAll(WithTask(db, item.task, Resolved(db.tasks[item.task], item, action)))))
  {
    ResolveKeeps(db.tasks[item.task], item, action);
    TaskReplacedInv(db, item.task, Resolved(db.tasks[item.task], item, action));
    RefreshedAggregatedInv(WithTask(db, item.task, Resolved(db.tasks[item.task], item, action)));
  }

  lemma StartInv(db: Db)
    requires WellFormed(db) && Inv(db)
    ensures Inv(Step(db, Op.Start))
  {
    forall t | 0 <= t < |db.tasks| ensures TaskInv(Step(db, Op.Start).tasks[t]) {
      StatusIrrelevant(db.tasks[t], TaskRunning);
    }
  }

  lemma CancelInv(db: Db, selected: set<nat>, outcomes: seq<seq<CancelOutcome>>)
    requires WellFormed(db) && Inv(db) && OutcomesShaped(db, outcomes) && !CancelBlocked(db, selected)
    ensures Inv(Aggregated(CanceledTasks(db, selected, outcomes)))
  {
    var db1 := CanceledTasks(db, selected, outcomes);
    forall t | 0 <= t < |db.tasks| ensures TaskInv(db1.tasks[t]) {
      if t in selected {
        CancelKeeps(db.tasks[t], outcomes[t]);
      }
    }
    AggregatedInv(db1);
  }

  lemma DecideInv(db: Db, t: nat, attempt: nat, v: Verdict)
    requires WellFormed(db) && Inv(db) && t < |db.tasks| && CanDecide(db.tasks[t], attempt, v)
    ensures Inv(Aggregated(RefreshAll(WithTask(db, t, DecidedTask(db.tasks[t], attempt, v)))))
  {
    DecideKeeps(db.tasks[t], attempt, v);
    TaskReplacedInv(db, t, DecidedTask(db.tasks[t], attempt, v));
    RefreshedAggregatedInv(WithTask(db, t, DecidedTask(db.tasks[t], attempt, v)));
  }

  lemma OperatorStepInv(db: Db, op: Op)
    requires WellFormed(db) && Inv(db) && (op.CancelTasks? || op.Decide? || op.Start?)
    ensures Inv(Step(db, op))
  {
    match op
    case Start => StartInv(db);
    case CancelTasks(selected, outcomes) =>
      if OutcomesShaped(db, outcomes) && !CancelBlocked(db, selected) {
        CancelStep(db, selected, outcomes);
        CancelInv(db, selected, outcomes);
      }
    case Decide(t, attempt, verdict) =>
      DecideStep(db, t, attempt, verdict);
      if t < |db.tasks| && CanDecide(db.tasks[t], attempt, verdict) { DecideInv(db, t, attempt, verdict); }
  }

  /** The calls that go through many tasks. */
  lemma SweepInv(db: Db, op: Op)
    requires WellFormed(db) && Inv(db) && (op.Refresh? || op.LeaseNext? || op.Reconcile? || op.RecoverExpired?)
    ensures Inv(Step(db, op))
  {
    match op
    case Refresh => RefreshedAggregatedInv(db);
    case LeaseNext(now, capacities, filter, queue) =>
      if IsQueue(RefreshAll(db), now, filter, queue) { DispatchInv(db, now, capacities, filter, queue); }
    case Reconcile(rows, agree) =>
      if IsUnsettledList(db, rows) { ReconcileSettlesAll(db, rows, agree); }
    case RecoverExpired(rows, agree, now, boot, expired) =>
      if IsUnsettledList(db, rows) && IsExpiredList(Reconciled(db, rows, agree), expired, now, boot) {
        RecoverExpiredInv(db, rows, agree, now, boot, expired);
      }
  }

  lemma StepInv(db: Db, op: Op)
    requires WellFormed(db) && Inv(db)
    ensures Inv(Step(db, op))
  {
    match op
    case Refresh => SweepInv(db, op);
    case LeaseNext(_, _, _, _) => SweepInv(db, op);
    case Reconcile(_, _) => SweepInv(db, op);
    case RecoverExpired(_, _, _, _, _) => SweepInv(db, op);
    case MarkRunning(item, now, boot) =>
      if OwnsItem(db, item, now) { MarkRunningInv(db, item, now, boot); }
    case Beat(item, now) =>
      if OwnsItem(db, item, now) { BeatInv(db, item, now); }
    case Prepare(item, now, artifacts) =>
      if item.task < |db.tasks| && CanPrepare(db.tasks[item.task], item, now) { PrepareInv(db, item, now, artifacts); }
    case PublishFiles(k) =>
      if ValidAt(db, k) && db.tasks[k.0].stages[k.1].attempts[k.2].commit.Some? { PublishInv(db, k); }
    case Finalize(item, now) =>
      if item.task < |db.tasks| && CanFinalize(db.tasks[item.task], item.stage, item.attempt, Some(now)) {
        FinalizeInv(db, item, now);
      }
    case Fail(item, now, report) =>
      if OwnsItem(db, item, now) { FailInv(db, item, now, report); }
    case Reactivate(item, now) =>
      if RecoversItem(db, item) { ReactivateInv(db, item, now); }
    case Resolve(item, action) =>
      if RecoversItem(db, item) { ResolveInv(db, item, action); }
    case Start => OperatorStepInv(db, op);
    case CancelTasks(_, _) => OperatorStepInv(db, op);
    case Decide(_, _, _) => OperatorStepInv(db, op);
  }

  lemma {:induction false} RunKeepsInv(db: Db, ops: seq<Op>)
    requires WellFormed(db) && Inv(db)
    ensures Inv(Run(db, ops))
    decreases |ops|
  {
    if ops != [] {
      RunKeepsInv(db, ops[..|ops| - 1]);
      StepInv(Run(db, ops[..|ops| - 1]), ops[|ops| - 1]);
    }
  }

  lemma RunInv(db: Db, ops: seq<Op>)
    requires IsPlanned(db)
    ensures Inv(Run(db, ops))
  {
    PlannedInv(db);
    RunKeepsInv(db, ops);
  }
}
