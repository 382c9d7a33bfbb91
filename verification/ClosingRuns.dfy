/** Batches on scoped runs: nothing wedges, a batch that cannot succeed is closed, and success means that
    every stage succeeded. */
module ClosingRuns {
  import opened Tables
  import opened Transitions
  import opened Batch
  import opened Protocol
  import opened ChainShape
  import opened TaskInvariant
  import opened RecoverySteps
  import opened OperatorSteps
  import opened RunInvariant
  import opened Closing

  ghost predicate AllClose(db: Db) {
    WellFormed(db) && forall t :: 0 <= t < |db.tasks| ==> Closes(db.tasks[t])
  }

  predicate SomeLost(db: Db) {
    exists t :: 0 <= t < |db.tasks| && AnyLost(db.tasks[t])
  }

  predicate TaskAdvances(st: seq<Stage>, st': seq<Stage>, lost: bool)
    requires |st| == STAGE_COUNT == |st'|
  {
    && LostStays(st, st')
    && (SkipMarked(st'[EVALUATE_ABSOLUTE]) ==> SkipMarked(st[EVALUATE_ABSOLUTE]) || lost)
  }

  /** Lost stages stay lost, and an evaluation is skipped only when some stage of the batch is lost. */
  predicate Advances(db: Db, db': Db)
    requires WellFormed(db) && WellFormed(db')
  {
    && |db.tasks| == |db'.tasks|
    && forall t :: 0 <= t < |db.tasks| ==> TaskAdvances(db.tasks[t].stages, db'.tasks[t].stages, SomeLost(db'))
  }

  ghost predicate Onward(db: Db, db': Db)
    requires WellFormed(db)
  {
    AllClose(db') && Advances(db, db')
  }

  lemma SomeLostStays(db: Db, db': Db)
    requires WellFormed(db) && WellFormed(db') && |db.tasks| == |db'.tasks| && SomeLost(db)
    requires forall t :: 0 <= t < |db.tasks| ==> LostStays(db.tasks[t].stages, db'.tasks[t].stages)
    ensures SomeLost(db')
  {
    var t :| 0 <= t < |db.tasks| && AnyLost(db.tasks[t]);
    assert LostStays(db.tasks[t].stages, db'.tasks[t].stages);
    assert AnyLost(db'.tasks[t]);
  }

  /** Task by task steadiness is enough. */
  lemma SteadyAdvances(db: Db, db': Db)
    requires WellFormed(db) && WellFormed(db') && |db.tasks| == |db'.tasks|
    requires forall t :: 0 <= t < |db.tasks| ==> Steady(db.tasks[t].stages, db'.tasks[t].stages)
    ensures Advances(db, db')
  {
    forall t | 0 <= t < |db.tasks| ensures TaskAdvances(db.tasks[t].stages, db'.tasks[t].stages, SomeLost(db')) {
      assert Steady(db.tasks[t].stages, db'.tasks[t].stages);
    }
  }

  lemma AdvancesTransitive(a: Db, b: Db, c: Db)
    requires WellFormed(a) && WellFormed(b) && WellFormed(c) && Advances(a, b) && Advances(b, c)
    ensures Advances(a, c)
  {
    forall t | 0 <= t < |b.tasks| ensures LostStays(b.tasks[t].stages, c.tasks[t].stages) {
      assert TaskAdvances(b.tasks[t].stages, c.tasks[t].stages, SomeLost(c));
    }
    if SomeLost(b) { SomeLostStays(b, c); }
    forall t | 0 <= t < |a.tasks| ensures TaskAdvances(a.tasks[t].stages, c.tasks[t].stages, SomeLost(c)) {
      assert TaskAdvances(a.tasks[t].stages, b.tasks[t].stages, SomeLost(b));
      assert TaskAdvances(b.tasks[t].stages, c.tasks[t].stages, SomeLost(c));
    }
  }

  lemma ClosesInv(db: Db)
    requires AllClose(db)
    ensures Inv(db)
  {
  }

  lemma OnwardTransitive(a: Db, b: Db, c: Db)
    requires WellFormed(a) && WellFormed(b) && Onward(a, b) && Onward(b, c)
    ensures Onward(a, c)
  {
    AdvancesTransitive(a, b, c);
  }

  lemma StaysOnward(db: Db)
    requires AllClose(db)
    ensures Onward(db, db)
  {
    SteadyAdvances(db, db);
  }

  lemma ReplacedOnward(db: Db, t: nat, task: Task)
    requires AllClose(db) && t < |db.tasks| && Closes(task) && Steady(db.tasks[t].stages, task.stages)
    ensures Onward(db, WithTask(db, t, task))
  {
    var db' := WithTask(db, t, task);
    forall u | 0 <= u < |db'.tasks| ensures |db'.tasks[u].stages| == STAGE_COUNT && db'.tasks[u].groups != [] {
      assert Closes(db'.tasks[u]);
    }
    SteadyAdvances(db, db');
  }

  // ---------------------------------------------------------------- refresh and aggregation

  lemma RefreshAllOnward(db: Db)
    requires AllClose(db)
    ensures Onward(db, RefreshAll(db))
  {
    forall t | 0 <= t < |db.tasks|
      ensures Closes(RefreshAll(db).tasks[t]) && Steady(db.tasks[t].stages, RefreshAll(db).tasks[t].stages)
    {
      RefreshCloses(db.tasks[t]);
      RefreshRoundCloses(db.tasks[t]);
      RefreshRoundCloses(RefreshRound(db.tasks[t]));
    }
    SteadyAdvances(db, RefreshAll(db));
  }

  lemma ReadyFinalizer(st: seq<Stage>)
    requires Linked(st) && st[EVALUATE_ABSOLUTE].state.Ready?
    ensures forall i :: 0 <= i < EVALUATE_ABSOLUTE ==> st[i].state.Succeeded?
  {
    forall i | 0 <= i < EVALUATE_ABSOLUTE ensures st[i].state.Succeeded? {
      if !Diverted(st) {
        ActiveMeansSucceeded(st, EVALUATE_ABSOLUTE, i);
      }
    }
  }

  lemma SkipCloses(t: Task)
    requires Closes(t) && t.stages[EVALUATE_ABSOLUTE].state.Ready?
    ensures Closes(SkippedEvaluation(t)) && LostStays(t.stages, SkippedEvaluation(t).stages)
  {
    SkipKeeps(t);
    ReadyFinalizer(t.stages);
  }

  lemma StatusCloses(t: Task, status: TaskStatus)
    requires Closes(t)
    ensures Closes(t.(status := status))
  {
    StatusIrrelevant(t, status);
  }

  lemma AggregatedTask(db: Db, t: nat)
    requires WellFormed(db) && t < |db.tasks| && Closes(db.tasks[t])
    ensures Closes(Aggregated(db).tasks[t]) && LostStays(db.tasks[t].stages, Aggregated(db).tasks[t].stages)
    ensures !MustSkip(db) ==> Aggregated(db).tasks[t].stages == db.tasks[t].stages
  {
    var mid := SkipIncomplete(db).tasks[t];
    if db.tasks[t].stages[EVALUATE_ABSOLUTE].state.Ready? { SkipCloses(db.tasks[t]); }
    StatusCloses(mid, StatusOf(mid));
  }

  lemma AggregatedOnward(db: Db)
    requires AllClose(db)
    ensures Onward(db, Aggregated(db))
  {
    var db' := Aggregated(db);
    forall t | 0 <= t < |db.tasks|
      ensures Closes(db'.tasks[t]) && LostStays(db.tasks[t].stages, db'.tasks[t].stages)
      ensures !MustSkip(db) ==> db'.tasks[t].stages == db.tasks[t].stages
    {
      AggregatedTask(db, t);
    }
    if MustSkip(db) { SomeLostStays(db, db'); }
  }

  lemma SettledOnward(db: Db)
    requires AllClose(db)
    ensures Onward(db, Aggregated(RefreshAll(db)))
  {
    RefreshAllOnward(db);
    AggregatedOnward(RefreshAll(db));
    OnwardTransitive(db, RefreshAll(db), Aggregated(RefreshAll(db)));
  }

  lemma ReplacedSettledOnward(db: Db, t: nat, task: Task)
    requires AllClose(db) && t < |db.tasks| && Closes(task) && Steady(db.tasks[t].stages, task.stages)
    ensures WellFormed(WithTask(db, t, task))
    ensures Onward(db, Aggregated(RefreshAll(WithTask(db, t, task))))
    ensures Onward(db, Aggregated(WithTask(db, t, task)))
  {
    var mid := WithTask(db, t, task);
    ReplacedOnward(db, t, task);
    SettledOnward(mid);
    OnwardTransitive(db, mid, Aggregated(RefreshAll(mid)));
    AggregatedOnward(mid);
    OnwardTransitive(db, mid, Aggregated(mid));
  }

  // ---------------------------------------------------------------- dispatch

  lemma SkippedRow(db: Db, row: Row, now: Time, resources: Allocation)
    requires AllClose(db) && row.task < |db.tasks| && row.stage < STAGE_COUNT && Queued(row.stage, db.tasks[row.task].stages[row.stage])
    ensures Onward(db, WithTask(db, row.task,
              TryLease(db.tasks[row.task], row.stage, now, FreshLease(db, now, resources), db.automatic).task))
  {
    var lease := FreshLease(db, now, resources);
    LeaseCloses(db.tasks[row.task], row.stage, now, lease, db.automatic);
    ReplacedOnward(db, row.task, TryLease(db.tasks[row.task], row.stage, now, lease, db.automatic).task);
  }

  lemma TokenOnward(db: Db, db': Db, token: nat)
    requires WellFormed(db) && Onward(db, db')
    ensures Onward(db, db'.(nextToken := token))
  {
  }

  lemma ScanStepOnward(db: Db, rows: seq<Row>, now: Time, resources: Allocation)
    requires AllClose(db) && RowsQueued(db, rows) && rows != []
    ensures var t := rows[0].task;
            var try := TryLease(db.tasks[t], rows[0].stage, now, FreshLease(db, now, resources), db.automatic);
            var mid := WithTask(db, t, try.task);
            && Onward(db, mid) && Onward(db, mid.(nextToken := db.nextToken + 1))
            && (try.Skipped? ==> RowsQueued(mid, rows[1..]))
  {
    SkippedRow(db, rows[0], now, resources);
    SkipKeepsQueue(db, rows, now, resources);
    TokenOnward(db, WithTask(db, rows[0].task,
      TryLease(db.tasks[rows[0].task], rows[0].stage, now, FreshLease(db, now, resources), db.automatic).task), db.nextToken + 1);
  }

  lemma OnwardReflexive(db: Db)
    requires AllClose(db)
    ensures Onward(db, db)
  {
  }

  /** The tables after the scan has looked at its first row. */
  function FirstRow(db: Db, rows: seq<Row>, now: Time, capacities: Capacities): Db
    requires WellFormed(db) && RowsInRange(db, rows) && rows != []
  {
    var t, s := rows[0].task, rows[0].stage;
    var resources := Allocate(db, db.tasks[t].project, StageResources(s), capacities);
    if resources.None? then db
    else
      match TryLease(db.tasks[t], s, now, FreshLease(db, now, resources.value), db.automatic)
      case Skipped(task) => WithTask(db, t, task)
      case Granted(task, _) => WithTask(db, t, task).(nextToken := db.nextToken + 1)
  }

  lemma ScanUnfolds(db: Db, rows: seq<Row>, now: Time, capacities: Capacities)
    requires WellFormed(db) && RowsInRange(db, rows) && rows != []
    ensures var mid := FirstRow(db, rows, now, capacities);
            Scan(db, rows, now, capacities).db == mid
            || (WellFormed(mid) && RowsInRange(mid, rows[1..]) && Scan(db, rows, now, capacities) == Scan(mid, rows[1..], now, capacities))
  {
    var resources := Allocate(db, db.tasks[rows[0].task].project, StageResources(rows[0].stage), capacities);
    if resources.Some? {
      TryLeaseShape(db.tasks[rows[0].task], rows[0].stage, now, FreshLease(db, now, resources.value), db.automatic);
    }
  }

  lemma FirstRowOnward(db: Db, rows: seq<Row>, now: Time, capacities: Capacities)
    requires AllClose(db) && RowsQueued(db, rows) && rows != []
    ensures Onward(db, FirstRow(db, rows, now, capacities))
  {
    OnwardReflexive(db);
    var resources := Allocate(db, db.tasks[rows[0].task].project, StageResources(rows[0].stage), capacities);
    if resources.Some? { ScanStepOnward(db, rows, now, resources.value); }
  }

  lemma FirstRowQueue(db: Db, rows: seq<Row>, now: Time, capacities: Capacities)
    requires RowsQueued(db, rows) && rows != []
    ensures Scan(db, rows, now, capacities).db == FirstRow(db, rows, now, capacities)
            || RowsQueued(FirstRow(db, rows, now, capacities), rows[1..])
  {
    var resources := Allocate(db, db.tasks[rows[0].task].project, StageResources(rows[0].stage), capacities);
    if resources.Some? { SkipKeepsQueue(db, rows, now, resources.value); }
  }

  lemma {:induction false} ScanOnward(db: Db, rows: seq<Row>, now: Time, capacities: Capacities)
    requires AllClose(db) && RowsQueued(db, rows)
    ensures Onward(db, Scan(db, rows, now, capacities).db)
    decreases |rows|
  {
    if rows == [] {
      OnwardReflexive(db);
    } else {
      var mid := FirstRow(db, rows, now, capacities);
      ScanUnfolds(db, rows, now, capacities);
      FirstRowOnward(db, rows, now, capacities);
      FirstRowQueue(db, rows, now, capacities);
      if Scan(db, rows, now, capacities).db != mid {
        ScanOnward(mid, rows[1..], now, capacities);
        OnwardTransitive(db, mid, Scan(mid, rows[1..], now, capacities).db);
      }
    }
  }

  lemma DispatchOnward(db: Db, now: Time, capacities: Capacities, f: Filter, queue: seq<Row>)
    requires AllClose(db) && IsQueue(RefreshAll(db), now, f, queue)
    ensures Onward(db, Dispatched(db, now, capacities, queue).db)
  {
    RefreshAllOnward(db);
    assert RowsQueued(RefreshAll(db), queue);
    ScanOnward(RefreshAll(db), queue, now, capacities);
    OnwardTransitive(db, RefreshAll(db), Dispatched(db, now, capacities, queue).db);
  }

  // ---------------------------------------------------------------- reconciliation and expiry

  /** The image stage of an intent's task is still at work, or failed by a sibling of that intent. */
  predicate StillRecoverable(t: Task, s: nat, a: nat) {
    && Reconcilable(t, s, a)
    && (s == IMAGE_EDIT ==> Live(t.stages[s].state) || t.stages[s].state.FailedTerminal?)
  }

  lemma UnsettledRecoverable(t: Task, s: nat, a: nat)
    requires Closes(t) && OpenIntent(t, s, a)
    ensures StillRecoverable(t, s, a)
  {
    HeldIsReconcilable(t, s, a);
    HeldStage(t, s, a);
  }

  lemma FailedIntentOnward(db: Db, k: Key, t: Task)
    requires AllClose(db) && k.0 < |db.tasks| && Closes(t) && Steady(db.tasks[k.0].stages, t.stages)
    requires StillRecoverable(t, k.1, k.2)
    ensures Onward(db, WithTask(db, k.0, CommitFailedTask(t, k.1, k.2)))
  {
    CommitFailedCloses(t, k.1, k.2);
    ReplacedOnward(db, k.0, CommitFailedTask(t, k.1, k.2));
  }

  lemma PublishedRecoverable(t: Task, s: nat, a: nat)
    requires Closes(t) && StillRecoverable(t, s, a)
    ensures Closes(PublishedTask(t, s, a)) && Steady(t.stages, PublishedTask(t, s, a).stages)
    ensures StillRecoverable(PublishedTask(t, s, a), s, a)
  {
    PublishCloses(t, s, a);
    PublishedReconcilable(t, s, a);
    PublishedState(t, s, a);
  }

  lemma ReconcileAgreed(db: Db, k: Key)
    requires WellFormed(db) && ValidAt(db, k) && db.tasks[k.0].stages[k.1].attempts[k.2].commit.Some?
    ensures var published, db' := PublishedTask(db.tasks[k.0], k.1, k.2), ReconcileOne(db, k, true);
            || db' == db
            || (CanFinalize(published, k.1, k.2, None) && db' == Completed(db, k, published))
            || db' == WithTask(db, k.0, CommitFailedTask(published, k.1, k.2))
  {
  }

  lemma ReconcileOneOnward(db: Db, k: Key, agree: bool)
    requires AllClose(db) && k.0 < |db.tasks| && StillRecoverable(db.tasks[k.0], k.1, k.2)
    ensures Onward(db, ReconcileOne(db, k, agree))
  {
    var t := db.tasks[k.0];
    if agree {
      PublishedRecoverable(t, k.1, k.2);
      AgreedOnward(db, k, PublishedTask(t, k.1, k.2));
      ReconcileAgreed(db, k);
    } else {
      FailedIntentOnward(db, k, t);
    }
  }

  lemma AgreedOnward(db: Db, k: Key, published: Task)
    requires AllClose(db) && k.0 < |db.tasks| && Closes(published) && Steady(db.tasks[k.0].stages, published.stages)
    requires StillRecoverable(published, k.1, k.2)
    ensures CanFinalize(published, k.1, k.2, None) ==> Onward(db, Completed(db, k, published))
    ensures Onward(db, WithTask(db, k.0, CommitFailedTask(published, k.1, k.2)))
    ensures Onward(db, db)
  {
    if CanFinalize(published, k.1, k.2, None) {
      CompletedOnward(db, k, published);
    }
    FailedIntentOnward(db, k, published);
  }

  lemma PublishedState(t: Task, s: nat, a: nat)
    requires |t.stages| == STAGE_COUNT && ValidKey(t, s, a) && t.stages[s].attempts[a].commit.Some?
    ensures |PublishedTask(t, s, a).stages| == STAGE_COUNT
    ensures forall i :: 0 <= i < STAGE_COUNT ==> PublishedTask(t, s, a).stages[i].state == t.stages[i].state
  {
  }

  lemma CompletedOnward(db: Db, k: Key, published: Task)
    requires AllClose(db) && k.0 < |db.tasks| && Closes(published) && Steady(db.tasks[k.0].stages, published.stages)
    requires CanFinalize(published, k.1, k.2, None)
    ensures Onward(db, Completed(db, k, published))
  {
    FinalizeCloses(published, k.1, k.2, db.automatic);
    var finalized := FinalizedTask(published, k.1, k.2, db.automatic);
    assert Steady(db.tasks[k.0].stages, finalized.stages);
    ReplacedSettledOnward(db, k.0, finalized);
  }

  lemma SiblingRecoverable(db: Db, k: Key, q: Key, agree: bool)
    requires WellFormed(db) && Inv(db) && k != q
    requires k.0 < |db.tasks| && StillRecoverable(db.tasks[k.0], k.1, k.2)
    requires q.0 < |db.tasks| && StillRecoverable(db.tasks[q.0], q.1, q.2)
    ensures |ReconcileOne(db, k, agree).tasks| == |db.tasks|
    ensures TaskInv(ReconcileOne(db, k, agree).tasks[q.0]) ==> StillRecoverable(ReconcileOne(db, k, agree).tasks[q.0], q.1, q.2)
  {
    OtherRowStaysReconcilable(db, k, q, agree);
    if q.1 == IMAGE_EDIT && TaskInv(ReconcileOne(db, k, agree).tasks[q.0]) {
      SiblingImage(db, k, q, agree);
    }
  }

  lemma SiblingImage(db: Db, k: Key, q: Key, agree: bool)
    requires WellFormed(db) && q.0 < |db.tasks| && |ReconcileOne(db, k, agree).tasks| == |db.tasks| && q.1 == IMAGE_EDIT
    requires Live(db.tasks[q.0].stages[IMAGE_EDIT].state) || db.tasks[q.0].stages[IMAGE_EDIT].state.FailedTerminal?
    requires TaskInv(ReconcileOne(db, k, agree).tasks[q.0]) && Reconcilable(ReconcileOne(db, k, agree).tasks[q.0], IMAGE_EDIT, q.2)
    ensures StillRecoverable(ReconcileOne(db, k, agree).tasks[q.0], q.1, q.2)
  {
    ReconciledImageState(db, k, q.0, agree);
    var t' := ReconcileOne(db, k, agree).tasks[q.0];
    RunningImageUnfinished(t', q.2);
    RecoverableAgain(t', q.2, db.tasks[q.0].stages[IMAGE_EDIT].state);
  }

  lemma RecoverableAgain(t: Task, a: nat, before: StageState)
    requires Reconcilable(t, IMAGE_EDIT, a) && (Live(before) || before.FailedTerminal?)
    requires var after := t.stages[IMAGE_EDIT].state; after == before || after.FailedTerminal? || after.Ready?
    ensures StillRecoverable(t, IMAGE_EDIT, a)
  {
  }

  lemma RunningImageUnfinished(t: Task, a: nat)
    requires TaskInv(t) && Reconcilable(t, IMAGE_EDIT, a)
    ensures !t.stages[IMAGE_EDIT].state.Succeeded? && !t.stages[IMAGE_EDIT].state.Pending?
  {
    assert AnyUnfinished(CurrentGens(t.groups));
  }

  lemma ReconciledImageState(db: Db, k: Key, t: nat, agree: bool)
    requires WellFormed(db) && t < |db.tasks| && !db.tasks[t].stages[IMAGE_EDIT].state.Pending?
    ensures |ReconcileOne(db, k, agree).tasks| == |db.tasks|
    ensures var before, after := db.tasks[t].stages[IMAGE_EDIT].state, ReconcileOne(db, k, agree).tasks[t].stages[IMAGE_EDIT].state;
            after == before || after.FailedTerminal? || after.Ready? || after.Succeeded?
  {
    if ValidAt(db, k) && db.tasks[k.0].stages[k.1].attempts[k.2].commit.Some? && agree {
      var published := PublishedTask(db.tasks[k.0], k.1, k.2);
      if CanFinalize(published, k.1, k.2, None) {
        CompletedImageState(db, k, published, t);
      }
    }
  }

  lemma CompletedImageState(db: Db, k: Key, published: Task, t: nat)
    requires WellFormed(db) && k.0 < |db.tasks| && t < |db.tasks| && !db.tasks[t].stages[IMAGE_EDIT].state.Pending?
    requires |published.stages| == STAGE_COUNT && published.groups != [] && CanFinalize(published, k.1, k.2, None)
    requires published.stages[IMAGE_EDIT].state == db.tasks[k.0].stages[IMAGE_EDIT].state
    ensures |Completed(db, k, published).tasks| == |db.tasks|
    ensures var before, after := db.tasks[t].stages[IMAGE_EDIT].state, Completed(db, k, published).tasks[t].stages[IMAGE_EDIT].state;
            after == before || after.Ready? || after.Succeeded?
  {
    var finalized := FinalizedTask(published, k.1, k.2, db.automatic);
    FinalizedStates(published, k.1, k.2, db.automatic);
    ImageThroughSettling(WithTask(db, k.0, finalized), t);
  }

  lemma ImageThroughSettling(db: Db, t: nat)
    requires WellFormed(db) && t < |db.tasks| && !db.tasks[t].stages[IMAGE_EDIT].state.Pending?
    ensures |Aggregated(RefreshAll(db)).tasks| == |db.tasks|
    ensures Aggregated(RefreshAll(db)).tasks[t].stages[IMAGE_EDIT].state == db.tasks[t].stages[IMAGE_EDIT].state
  {
  }

  predicate AllRecoverable(db: Db, rows: seq<Key>) {
    && (forall i :: 0 <= i < |rows| ==> rows[i].0 < |db.tasks| && StillRecoverable(db.tasks[rows[i].0], rows[i].1, rows[i].2))
    && (forall i, j :: 0 <= i < j < |rows| ==> rows[i] != rows[j])
  }

  lemma OthersRecoverable(db: Db, rows: seq<Key>, agree: bool, db': Db)
    requires WellFormed(db) && Inv(db) && rows != [] && AllRecoverable(db, rows) && Inv(db')
    requires db' == ReconcileOne(db, rows[0], agree)
    ensures AllRecoverable(db', rows[1..])
  {
    forall i | 0 <= i < |rows| - 1
      ensures rows[1..][i].0 < |db'.tasks| && StillRecoverable(db'.tasks[rows[1..][i].0], rows[1..][i].1, rows[1..][i].2)
    {
      assert rows[1..][i] == rows[i + 1] && rows[0] != rows[i + 1];
      SiblingRecoverable(db, rows[0], rows[i + 1], agree);
    }
  }

  lemma {:induction false} ReconciledOnward(db: Db, rows: seq<Key>, agree: set<Key>)
    requires AllClose(db) && AllRecoverable(db, rows)
    ensures Onward(db, Reconciled(db, rows, agree))
    decreases |rows|
  {
    if rows != [] {
      var db' := ReconcileOne(db, rows[0], rows[0] in agree);
      ReconcileOneOnward(db, rows[0], rows[0] in agree);
      ClosesInv(db);
      ClosesInv(db');
      OthersRecoverable(db, rows, rows[0] in agree, db');
      ReconciledOnward(db', rows[1..], agree);
      OnwardTransitive(db, db', Reconciled(db', rows[1..], agree));
    }
  }

  lemma UnsettledOnward(db: Db, rows: seq<Key>, agree: set<Key>)
    requires AllClose(db) && IsUnsettledList(db, rows)
    ensures Onward(db, Reconciled(db, rows, agree))
  {
    forall i | 0 <= i < |rows| ensures rows[i].0 < |db.tasks| && StillRecoverable(db.tasks[rows[i].0], rows[i].1, rows[i].2) {
      assert Unsettled(db, rows[i]);
      UnsettledRecoverable(db.tasks[rows[i].0], rows[i].1, rows[i].2);
    }
    ReconciledOnward(db, rows, agree);
  }

  lemma {:induction false} ExpireAllOnward(db: Db, rows: seq<Expiry>)
    requires AllClose(db) && forall i :: 0 <= i < |rows| ==> NoIntent(db, rows[i].key)
    ensures Onward(db, ExpireAll(db, rows))
    decreases |rows|
  {
    if rows != [] {
      var e := rows[0];
      var db' := ExpireOne(db, e);
      if db' != db {
        ExpireCloses(db.tasks[e.key.0], e.key.1, e.key.2, e.cleanup, e.first, e.second);
        ReplacedOnward(db, e.key.0, ExpiredTask(db.tasks[e.key.0], e.key.1, e.key.2, e.cleanup, e.first, e.second));
      }
      forall i | 0 <= i < |rows| - 1 ensures NoIntent(db', rows[1..][i].key) {
        ExpireOneKeepsCommits(db, e, rows[i + 1].key);
      }
      ExpireAllOnward(db', rows[1..]);
      OnwardTransitive(db, db', ExpireAll(db', rows[1..]));
    }
  }

  lemma RecoverExpiredOnward(db: Db, rows: seq<Key>, agree: set<Key>, now: Time, boot: nat, expired: seq<Expiry>)
    requires AllClose(db) && IsUnsettledList(db, rows)
    requires IsExpiredList(Reconciled(db, rows, agree), expired, now, boot)
    ensures Onward(db, Aggregated(ExpireAll(Reconciled(db, rows, agree), expired)))
  {
    var db1 := Reconciled(db, rows, agree);
    ClosesInv(db);
    UnsettledOnward(db, rows, agree);
    ReconcileSettlesAll(db, rows, agree);
    forall i | 0 <= i < |expired| ensures NoIntent(db1, expired[i].key) {
      assert !Unsettled(db1, expired[i].key);
    }
    ExpireAllOnward(db1, expired);
    AggregatedOnward(ExpireAll(db1, expired));
    OnwardTransitive(db1, ExpireAll(db1, expired), Aggregated(ExpireAll(db1, expired)));
    OnwardTransitive(db, db1, Aggregated(ExpireAll(db1, expired)));
  }

  // ---------------------------------------------------------------- every step

  lemma RestatedOnward(db: Db, db': Db)
    requires AllClose(db) && WellFormed(db') && |db'.tasks| == |db.tasks|
    requires forall t :: 0 <= t < |db.tasks| ==> db'.tasks[t] == db.tasks[t].(status := db'.tasks[t].status)
    ensures Onward(db, db')
  {
    forall t | 0 <= t < |db.tasks| ensures Closes(db'.tasks[t]) && Steady(db.tasks[t].stages, db'.tasks[t].stages) {
      StatusCloses(db.tasks[t], db'.tasks[t].status);
    }
    SteadyAdvances(db, db');
  }

  lemma CancelOnward(db: Db, selected: set<nat>, outcomes: seq<seq<CancelOutcome>>)
    requires AllClose(db) && OutcomesShaped(db, outcomes) && !CancelBlocked(db, selected)
    ensures Onward(db, Aggregated(CanceledTasks(db, selected, outcomes)))
  {
    var db1 := CanceledTasks(db, selected, outcomes);
    forall t | 0 <= t < |db.tasks| ensures Closes(db1.tasks[t]) && Steady(db.tasks[t].stages, db1.tasks[t].stages) {
      if t in selected { CancelCloses(db.tasks[t], outcomes[t]); }
    }
    SteadyAdvances(db, db1);
    AggregatedOnward(db1);
    OnwardTransitive(db, db1, Aggregated(db1));
  }

  lemma LeaseOpOnward(db: Db, op: Op)
    requires AllClose(db) && (op.MarkRunning? || op.Beat?)
    ensures Onward(db, Step(db, op))
  {
    if OwnsItem(db, op.item, op.now) {
      match op
      case MarkRunning(item, now, boot) =>
        MarkCloses(db.tasks[item.task], item, now, boot, db.leaseSeconds);
        ReplacedOnward(db, item.task, MarkedRunning(db.tasks[item.task], item, now, boot, db.leaseSeconds));
      case Beat(item, now) =>
        BeatCloses(db.tasks[item.task], item, now, db.leaseSeconds);
        ReplacedOnward(db, item.task, Heartbeat(db.tasks[item.task], item, now, db.leaseSeconds));
    } else {
      StaysOnward(db);
    }
  }

  lemma PrepareOpOnward(db: Db, item: Item, now: Time, artifacts: seq<Artifact>)
    requires AllClose(db)
    ensures Onward(db, Step(db, Op.Prepare(item, now, artifacts)))
  {
    StaysOnward(db);
    PrepareStep(db, item, now, artifacts);
    if artifacts != [] && item.task < |db.tasks| && CanPrepare(db.tasks[item.task], item, now) {
      PrepareCloses(db.tasks[item.task], item, now, artifacts);
      ReplacedOnward(db, item.task, PreparedTask(db.tasks[item.task], item.stage, item.attempt, artifacts));
    }
  }

  lemma ReactivateOpOnward(db: Db, item: Item, now: Time)
    requires AllClose(db)
    ensures Onward(db, Step(db, Op.Reactivate(item, now)))
  {
    StaysOnward(db);
    ReactivateStep(db, item, now);
    if RecoversItem(db, item) {
      ReactivateCloses(db.tasks[item.task], item, now, db.leaseSeconds);
      ReplacedOnward(db, item.task, Reactivated(db.tasks[item.task], item, now, db.leaseSeconds));
    }
  }

  lemma PublishOpOnward(db: Db, k: Key)
    requires AllClose(db)
    ensures Onward(db, Step(db, Op.PublishFiles(k)))
  {
    StaysOnward(db);
    PublishStep(db, k);
    if ValidAt(db, k) && db.tasks[k.0].stages[k.1].attempts[k.2].commit.Some? {
      PublishCloses(db.tasks[k.0], k.1, k.2);
      ReplacedOnward(db, k.0, PublishedTask(db.tasks[k.0], k.1, k.2));
    }
  }

  lemma FailOnward(db: Db, item: Item, now: Time, r: Report)
    requires AllClose(db) && OwnsItem(db, item, now) && ScopedReport(item.stage, r)
    ensures Onward(db, Failed(db, item, now, r))
  {
    FailCloses(db.tasks[item.task], item.stage, item.attempt, now, r, db.automatic);
    ReplacedSettledOnward(db, item.task, FailTask(db.tasks[item.task], item.stage, item.attempt, now, r, db.automatic));
  }

  lemma ResolveOnward(db: Db, item: Item, action: Settlement)
    requires AllClose(db) && RecoversItem(db, item)
    ensures Onward(db, Aggregated(RefreshAll(WithTask(db, item.task, Resolved(db.tasks[item.task], item, action)))))
  {
    ResolveCloses(db.tasks[item.task], item, action);
    ReplacedSettledOnward(db, item.task, Resolved(db.tasks[item.task], item, action));
  }

  lemma DecideOnward(db: Db, t: nat, attempt: nat, v: Verdict)
    requires AllClose(db) && t < |db.tasks| && CanDecide(db.tasks[t], attempt, v)
    requires !db.tasks[t].stages[EDIT_GATE].state.Canceled?
    ensures WellFormed(WithTask(db, t, DecidedTask(db.tasks[t], attempt, v)))
    ensures Onward(db, Aggregated(RefreshAll(WithTask(db, t, DecidedTask(db.tasks[t], attempt, v)))))
  {
    DecideCloses(db.tasks[t], attempt, v);
    ReplacedSettledOnward(db, t, DecidedTask(db.tasks[t], attempt, v));
  }

  lemma FinalizeOnward(db: Db, item: Item, now: Time)
    requires AllClose(db) && item.task < |db.tasks| && CanFinalize(db.tasks[item.task], item.stage, item.attempt, Some(now))
    ensures Onward(db, Completed(db, (item.task, item.stage, item.attempt), db.tasks[item.task]))
  {
    CompletedOnward(db, (item.task, item.stage, item.attempt), db.tasks[item.task]);
  }

  lemma BatchOpOnward(db: Db, op: Op)
    requires AllClose(db) && (op.LeaseNext? || op.Reconcile? || op.RecoverExpired? || op.CancelTasks?)
    ensures Onward(db, Step(db, op))
  {
    match op
    case LeaseNext(now, capacities, filter, queue) =>
      if IsQueue(RefreshAll(db), now, filter, queue) { DispatchOnward(db, now, capacities, filter, queue); }
    case Reconcile(rows, agree) => if IsUnsettledList(db, rows) { UnsettledOnward(db, rows, agree); }
    case RecoverExpired(rows, agree, now, boot, expired) =>
      if IsUnsettledList(db, rows) && IsExpiredList(Reconciled(db, rows, agree), expired, now, boot) {
        RecoverExpiredOnward(db, rows, agree, now, boot, expired);
      }
    case CancelTasks(selected, outcomes) =>
      if OutcomesShaped(db, outcomes) && !CancelBlocked(db, selected) { CancelOnward(db, selected, outcomes); }
  }

  lemma FailOpOnward(db: Db, item: Item, now: Time, report: Report)
    requires AllClose(db) && ScopedReport(item.stage, report)
    ensures Onward(db, Step(db, Op.Fail(item, now, report)))
  {
    FailStep(db, item, now, report);
    if OwnsItem(db, item, now) {
      FailOnward(db, item, now, report);
    } else {
      StaysOnward(db);
    }
  }

  lemma FinalizeOpOnward(db: Db, item: Item, now: Time)
    requires AllClose(db)
    ensures Onward(db, Step(db, Op.Finalize(item, now)))
  {
    FinalizeStep(db, item, now);
    if OwnsItem(db, item, now) && CanFinalize(db.tasks[item.task], item.stage, item.attempt, Some(now)) {
      FinalizeOnward(db, item, now);
    } else {
      StaysOnward(db);
    }
  }

  lemma ResolveOpOnward(db: Db, item: Item, action: Settlement)
    requires AllClose(db)
    ensures Onward(db, Step(db, Op.Resolve(item, action)))
  {
    ResolveStep(db, item, action);
    if RecoversItem(db, item) {
      ResolveOnward(db, item, action);
    } else {
      StaysOnward(db);
    }
  }

  lemma DecideOpOnward(db: Db, t: nat, attempt: nat, v: Verdict)
    requires AllClose(db) && Scoped(db, Op.Decide(t, attempt, v))
    ensures Onward(db, Step(db, Op.Decide(t, attempt, v)))
  {
    DecideStep(db, t, attempt, v);
    if t < |db.tasks| && CanDecide(db.tasks[t], attempt, v) {
      DecideOnward(db, t, attempt, v);
    } else {
      StaysOnward(db);
    }
  }

  lemma ScheduleOpOnward(db: Db, op: Op)
    requires AllClose(db) && (op.Start? || op.Refresh?)
    ensures Onward(db, Step(db, op))
  {
    match op
    case Start => RestatedOnward(db, Step(db, op));
    case Refresh => SettledOnward(db);
  }

  /** Every scoped call keeps every task closing, and no lost stage comes back. */
  lemma StepOnward(db: Db, op: Op)
    requires AllClose(db) && Scoped(db, op)
    ensures Onward(db, Step(db, op))
  {
    if op.Start? || op.Refresh? {
      ScheduleOpOnward(db, op);
    } else if op.LeaseNext? || op.Reconcile? || op.RecoverExpired? || op.CancelTasks? {
      BatchOpOnward(db, op);
    } else if op.Fail? {
      FailOpOnward(db, op.item, op.now, op.report);
    } else if op.Finalize? {
      FinalizeOpOnward(db, op.item, op.now);
    } else if op.Resolve? {
      ResolveOpOnward(db, op.item, op.action);
    } else if op.Decide? {
      DecideOpOnward(db, op.task, op.attempt, op.verdict);
    } else if op.MarkRunning? || op.Beat? {
      LeaseOpOnward(db, op);
    } else if op.PublishFiles? {
      PublishOpOnward(db, op.key);
    } else if op.Prepare? {
      PrepareOpOnward(db, op.item, op.now, op.artifacts);
    } else {
      ReactivateOpOnward(db, op.item, op.now);
    }
  }
}
