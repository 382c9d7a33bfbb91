/** The number of leases a batch can hand out, on runs in which no operator grants a further attempt. */
module Budgets {
  import opened Tables
  import opened Transitions
  import opened Batch
  import opened Protocol
  import opened TaskInvariant
  import opened RunInvariant
  import opened Evolution
  import opened Fairness

  /** The two calls that raise max_attempts: an explicit remote retry and a regeneration of the edit. */
  predicate GrantsAttempts(op: Op) {
    (op.Resolve? && op.action.RetryAttempt?) || (op.Decide? && op.verdict.RegenerateEdit?)
  }

  predicate KeepsBudget(t: Task, t': Task) {
    && |t'.stages| == |t.stages| && t'.generations == t.generations && |t'.groups| == |t.groups|
    && forall s :: 0 <= s < |t.stages| ==> t'.stages[s].maxAttempts == t.stages[s].maxAttempts
  }

  predicate KeepsBudgets(db: Db, db': Db) {
    |db.tasks| == |db'.tasks| && forall t :: 0 <= t < |db.tasks| ==> KeepsBudget(db.tasks[t], db'.tasks[t])
  }

  lemma KeepsTransitive(a: Db, b: Db, c: Db)
    requires KeepsBudgets(a, b) && KeepsBudgets(b, c)
    ensures KeepsBudgets(a, c)
  {
    forall t | 0 <= t < |a.tasks| ensures KeepsBudget(a.tasks[t], c.tasks[t]) {
      assert KeepsBudget(a.tasks[t], b.tasks[t]) && KeepsBudget(b.tasks[t], c.tasks[t]);
    }
  }

  lemma SettledBudgets(db: Db)
    requires WellFormed(db)
    ensures KeepsBudgets(db, RefreshAll(db)) && KeepsBudgets(db, Aggregated(db)) && KeepsBudgets(db, Aggregated(RefreshAll(db)))
  {
    RefreshedBudgets(db);
    AggregatedBudgets(db);
    AggregatedBudgets(RefreshAll(db));
    KeepsTransitive(db, RefreshAll(db), Aggregated(RefreshAll(db)));
  }

  lemma RefreshedBudgets(db: Db)
    requires WellFormed(db)
    ensures KeepsBudgets(db, RefreshAll(db))
  {
    forall t | 0 <= t < |db.tasks| ensures KeepsBudget(db.tasks[t], RefreshAll(db).tasks[t]) {
      assert RefreshAll(db).tasks[t] == Refreshed(db.tasks[t]);
    }
  }

  lemma AggregatedBudgets(db: Db)
    requires WellFormed(db)
    ensures KeepsBudgets(db, Aggregated(db))
  {
  }

  lemma ReplacedBudgets(db: Db, t: nat, task: Task)
    requires WellFormed(db) && t < |db.tasks| && KeepsBudget(db.tasks[t], task) && task.groups != []
    ensures WellFormed(WithTask(db, t, task)) && KeepsBudgets(db, WithTask(db, t, task))
    ensures KeepsBudgets(db, Aggregated(WithTask(db, t, task)))
    ensures KeepsBudgets(db, Aggregated(RefreshAll(WithTask(db, t, task))))
  {
    var mid := WithTask(db, t, task);
    SettledBudgets(mid);
    KeepsTransitive(db, mid, Aggregated(mid));
    KeepsTransitive(db, mid, Aggregated(RefreshAll(mid)));
  }

  lemma TryLeaseBudget(t: Task, s: nat, now: Time, lease: Lease, automatic: bool)
    requires |t.stages| == STAGE_COUNT && s < STAGE_COUNT && t.groups != []
    ensures KeepsBudget(t, TryLease(t, s, now, lease, automatic).task)
  {
  }

  lemma FailBudget(t: Task, s: nat, a: nat, now: Time, r: Report, automatic: bool)
    requires |t.stages| == STAGE_COUNT && ValidKey(t, s, a) && t.groups != []
    ensures KeepsBudget(t, FailTask(t, s, a, now, r, automatic)) && FailTask(t, s, a, now, r, automatic).groups != []
  {
  }

  lemma FinalizeBudget(t: Task, s: nat, a: nat, automatic: bool)
    requires |t.stages| == STAGE_COUNT && ValidKey(t, s, a) && t.stages[s].attempts[a].commit.Some? && t.groups != []
    ensures KeepsBudget(t, FinalizedTask(t, s, a, automatic)) && FinalizedTask(t, s, a, automatic).groups != []
  {
  }

  lemma TerminateBudget(t: Task, item: Item)
    requires |t.stages| == STAGE_COUNT && HoldsRecovery(t, item)
    ensures KeepsBudget(t, Resolved(t, item, TerminateAttempt)) && Resolved(t, item, TerminateAttempt).groups == t.groups
  {
  }

  lemma DecideBudget(t: Task, attempt: nat, v: Verdict)
    requires |t.stages| == STAGE_COUNT && t.groups != [] && CanDecide(t, attempt, v) && !v.RegenerateEdit?
    ensures KeepsBudget(t, DecidedTask(t, attempt, v)) && DecidedTask(t, attempt, v).groups == t.groups
  {
  }

  lemma PublishedBudget(t: Task, s: nat, a: nat)
    requires ValidKey(t, s, a) && t.stages[s].attempts[a].commit.Some?
    ensures KeepsBudget(t, PublishedTask(t, s, a)) && KeepsBudget(t, CommitFailedTask(t, s, a))
    ensures PublishedTask(t, s, a).groups == t.groups == CommitFailedTask(t, s, a).groups
  {
  }

  lemma {:induction false} ScanBudgets(db: Db, rows: seq<Row>, now: Time, capacities: Capacities)
    requires WellFormed(db) && RowsInRange(db, rows)
    ensures KeepsBudgets(db, Scan(db, rows, now, capacities).db)
    decreases |rows|
  {
    if rows != [] {
      var t, s := rows[0].task, rows[0].stage;
      var resources := Allocate(db, db.tasks[t].project, StageResources(s), capacities);
      if resources.None? {
        ScanBudgets(db, rows[1..], now, capacities);
      } else {
        var lease := FreshLease(db, now, resources.value);
        var try := TryLease(db.tasks[t], s, now, lease, db.automatic);
        TryLeaseBudget(db.tasks[t], s, now, lease, db.automatic);
        TryLeaseShape(db.tasks[t], s, now, lease, db.automatic);
        ReplacedBudgets(db, t, try.task);
        if try.Skipped? {
          ScanBudgets(WithTask(db, t, try.task), rows[1..], now, capacities);
          KeepsTransitive(db, WithTask(db, t, try.task), Scan(db, rows, now, capacities).db);
        }
      }
    }
  }

  lemma CompletedBudgets(db: Db, k: Key, published: Task)
    requires WellFormed(db) && k.0 < |db.tasks| && KeepsBudget(db.tasks[k.0], published)
    requires |published.stages| == STAGE_COUNT && published.groups != [] && CanFinalize(published, k.1, k.2, None)
    ensures KeepsBudgets(db, Completed(db, k, published))
  {
    FinalizeBudget(published, k.1, k.2, db.automatic);
    var finalized := FinalizedTask(published, k.1, k.2, db.automatic);
    assert KeepsBudget(db.tasks[k.0], finalized);
    ReplacedBudgets(db, k.0, finalized);
  }

  lemma ReconcileOneBudgets(db: Db, k: Key, agree: bool)
    requires WellFormed(db)
    ensures KeepsBudgets(db, ReconcileOne(db, k, agree))
  {
    if ValidAt(db, k) && db.tasks[k.0].stages[k.1].attempts[k.2].commit.Some? {
      var t := db.tasks[k.0];
      PublishedBudget(t, k.1, k.2);
      var published := PublishedTask(t, k.1, k.2);
      if agree && CanFinalize(published, k.1, k.2, None) {
        CompletedBudgets(db, k, published);
      } else {
        ReplacedBudgets(db, k.0, CommitFailedTask(t, k.1, k.2));
        PublishedBudget(published, k.1, k.2);
        ReplacedBudgets(db, k.0, CommitFailedTask(published, k.1, k.2));
      }
    }
  }

  lemma {:induction false} ReconciledBudgets(db: Db, rows: seq<Key>, agree: set<Key>)
    requires WellFormed(db)
    ensures KeepsBudgets(db, Reconciled(db, rows, agree))
    decreases |rows|
  {
    if rows != [] {
      ReconcileOneBudgets(db, rows[0], rows[0] in agree);
      var mid := ReconcileOne(db, rows[0], rows[0] in agree);
      ReconciledBudgets(mid, rows[1..], agree);
      KeepsTransitive(db, mid, Reconciled(mid, rows[1..], agree));
    }
  }

  lemma ExpiredBudget(t: Task, s: nat, a: nat, cleanup: bool, first: nat, second: nat)
    requires LeaseOf(t, s, a).Some?
    ensures KeepsBudget(t, ExpiredTask(t, s, a, cleanup, first, second)) && ExpiredTask(t, s, a, cleanup, first, second).groups == t.groups
  {
  }

  lemma {:induction false} ExpireAllBudgets(db: Db, rows: seq<Expiry>)
    requires WellFormed(db)
    ensures KeepsBudgets(db, ExpireAll(db, rows))
    decreases |rows|
  {
    if rows != [] {
      var e := rows[0];
      var mid := ExpireOne(db, e);
      if mid != db {
        ExpiredBudget(db.tasks[e.key.0], e.key.1, e.key.2, e.cleanup, e.first, e.second);
      }
      assert KeepsBudgets(db, mid);
      ExpireAllBudgets(mid, rows[1..]);
      KeepsTransitive(db, mid, ExpireAll(mid, rows[1..]));
    }
  }

  lemma ReportBudgets(db: Db, op: Op)
    requires WellFormed(db) && (op.Finalize? || op.Fail? || op.Resolve?) && !GrantsAttempts(op)
    ensures KeepsBudgets(db, Step(db, op))
  {
    var t := op.item.task;
    match op
    case Finalize(item, now) =>
      if OwnsItem(db, item, now) && CanFinalize(db.tasks[t], item.stage, item.attempt, Some(now)) {
        CompletedBudgets(db, (t, item.stage, item.attempt), db.tasks[t]);
      }
    case Fail(item, now, r) =>
      if OwnsItem(db, item, now) {
        FailBudget(db.tasks[t], item.stage, item.attempt, now, r, db.automatic);
        ReplacedBudgets(db, t, FailTask(db.tasks[t], item.stage, item.attempt, now, r, db.automatic));
      }
    case Resolve(item, action) =>
      if RecoversItem(db, item) {
        TerminateBudget(db.tasks[t], item);
        ReplacedBudgets(db, t, Resolved(db.tasks[t], item, action));
      }
  }

  lemma CancelBudgets(db: Db, selected: set<nat>, outcomes: seq<seq<CancelOutcome>>)
    requires WellFormed(db) && OutcomesShaped(db, outcomes)
    ensures KeepsBudgets(db, Aggregated(CanceledTasks(db, selected, outcomes)))
  {
    var mid := CanceledTasks(db, selected, outcomes);
    assert KeepsBudgets(db, mid);
    AggregatedBudgets(mid);
    KeepsTransitive(db, mid, Aggregated(mid));
  }

  lemma RowOpBudgets(db: Db, op: Op)
    requires WellFormed(db)
    requires op.Start? || op.MarkRunning? || op.Beat? || op.Prepare? || op.PublishFiles? || op.Reactivate?
    ensures KeepsBudgets(db, Step(db, op))
  {
    if op.PublishFiles? {
      var k := op.key;
      if ValidAt(db, k) && db.tasks[k.0].stages[k.1].attempts[k.2].commit.Some? { PublishedBudget(db.tasks[k.0], k.1, k.2); }
    }
  }

  lemma DecideBudgets(db: Db, op: Op)
    requires WellFormed(db) && op.Decide? && !GrantsAttempts(op)
    ensures KeepsBudgets(db, Step(db, op))
  {
    var t := op.task;
    if t < |db.tasks| && CanDecide(db.tasks[t], op.attempt, op.verdict) {
      DecideBudget(db.tasks[t], op.attempt, op.verdict);
      ReplacedBudgets(db, t, DecidedTask(db.tasks[t], op.attempt, op.verdict));
    }
  }

  lemma BatchOpBudgets(db: Db, op: Op)
    requires WellFormed(db) && (op.LeaseNext? || op.Reconcile? || op.RecoverExpired? || op.CancelTasks?)
    ensures KeepsBudgets(db, Step(db, op))
  {
    match op
    case LeaseNext(now, capacities, filter, queue) =>
      if Calls(db, op) {
        RefreshedBudgets(db);
        ScanBudgets(RefreshAll(db), queue, now, capacities);
        KeepsTransitive(db, RefreshAll(db), Step(db, op));
      }
    case Reconcile(rows, agree) => ReconciledBudgets(db, rows, agree);
    case RecoverExpired(rows, agree, _, _, expired) =>
      var mid := Reconciled(db, rows, agree);
      ReconciledBudgets(db, rows, agree);
      ExpireAllBudgets(mid, expired);
      KeepsTransitive(db, mid, ExpireAll(mid, expired));
      AggregatedBudgets(ExpireAll(mid, expired));
      KeepsTransitive(db, ExpireAll(mid, expired), Aggregated(ExpireAll(mid, expired)));
    case CancelTasks(selected, outcomes) => if OutcomesShaped(db, outcomes) { CancelBudgets(db, selected, outcomes); }
  }

  lemma StepKeepsBudgets(db: Db, op: Op)
    requires WellFormed(db) && !GrantsAttempts(op)
    ensures KeepsBudgets(db, Step(db, op))
  {
    if op.LeaseNext? || op.Reconcile? || op.RecoverExpired? || op.CancelTasks? {
      BatchOpBudgets(db, op);
    } else if op.Finalize? || op.Fail? || op.Resolve? {
      ReportBudgets(db, op);
    } else if op.Refresh? {
      SettledBudgets(db);
    } else if op.Decide? {
      DecideBudgets(db, op);
    } else {
      RowOpBudgets(db, op);
    }
  }

  // ---------------------------------------------------------------- counting attempts

  /** Every image-edit attempt runs one of the first group's candidates. */
  predicate FirstGroupOnly(t: Task) {
    && |t.stages| == STAGE_COUNT && |t.groups| == 1
    && forall a :: 0 <= a < |t.stages[IMAGE_EDIT].attempts| ==> InFirstGroup(t.stages[IMAGE_EDIT].attempts[a], t.generations)
  }

  predicate InFirstGroup(x: Attempt, generations: nat) {
    x.candidate.Some? && x.candidate.value.group == 0 && x.candidate.value.index < generations
  }

  function Sum(xs: seq<nat>): nat {
    if xs == [] then 0 else Sum(xs[..|xs| - 1]) + xs[|xs| - 1]
  }

  lemma {:induction false} SumMonotone(xs: seq<nat>, ys: seq<nat>)
    requires |xs| == |ys| && forall i :: 0 <= i < |xs| ==> xs[i] <= ys[i]
    ensures Sum(xs) <= Sum(ys)
  {
    if xs != [] {
      SumMonotone(xs[..|xs| - 1], ys[..|ys| - 1]);
    }
  }

  lemma {:induction false} SumAfter(xs: seq<nat>, ys: seq<nat>, i: nat, d: nat)
    requires |xs| == |ys| && i < |xs| && ys[i] == xs[i] + d && forall j :: 0 <= j < |xs| && j != i ==> ys[j] == xs[j]
    ensures Sum(ys) == Sum(xs) + d
  {
    var n := |xs| - 1;
    if i < n {
      SumAfter(xs[..n], ys[..n], i, d);
    } else {
      assert ys[..n] == xs[..n];
    }
  }

  function StageCounts(t: Task): seq<nat> {
    seq(|t.stages|, (s: nat) requires s < |t.stages| => |t.stages[s].attempts|)
  }

  function StageBudgets(t: Task): seq<nat> {
    seq(|t.stages|, (s: nat) requires s < |t.stages| =>
      if s == IMAGE_EDIT then t.generations * t.stages[s].maxAttempts else t.stages[s].maxAttempts)
  }

  function TaskCounts(db: Db): seq<nat> {
    seq(|db.tasks|, (t: nat) requires t < |db.tasks| => Sum(StageCounts(db.tasks[t])))
  }

  function TaskBudgets(db: Db): seq<nat> {
    seq(|db.tasks|, (t: nat) requires t < |db.tasks| => Sum(StageBudgets(db.tasks[t])))
  }

  /** All attempts ever leased, and all attempts the budgets allow. */
  function TotalAttempts(db: Db): nat {
    Sum(TaskCounts(db))
  }

  function TotalBudget(db: Db): nat {
    Sum(TaskBudgets(db))
  }

  /** Attempts of the first `n` candidates of the first group. */
  function AttemptsBelow(attempts: seq<Attempt>, n: nat): nat {
    if n == 0 then 0 else AttemptsBelow(attempts, n - 1) + AttemptsOf(attempts, Candidate(0, n - 1))
  }

  lemma {:induction false} BelowBounded(attempts: seq<Attempt>, n: nat, max: nat)
    requires forall c: Candidate :: AttemptsOf(attempts, c) <= max
    ensures AttemptsBelow(attempts, n) <= n * max
  {
    if n > 0 {
      BelowBounded(attempts, n - 1, max);
    }
  }

  lemma {:induction false} BelowAppend(a: seq<Attempt>, x: Attempt, n: nat)
    requires x.candidate.Some? && x.candidate.value.group == 0
    ensures AttemptsBelow(a + [x], n) == AttemptsBelow(a, n) + (if x.candidate.value.index < n then 1 else 0)
  {
    if n > 0 {
      BelowAppend(a, x, n - 1);
      CountAfterAppend(a, x, Candidate(0, n - 1));
    }
  }

  lemma {:induction false} BelowCountsAll(attempts: seq<Attempt>, n: nat)
    requires forall a :: 0 <= a < |attempts| ==> InFirstGroup(attempts[a], n)
    ensures AttemptsBelow(attempts, n) == |attempts|
    decreases |attempts|
  {
    if attempts == [] {
      NoneBelow(n);
    } else {
      var m := |attempts| - 1;
      BelowCountsAll(attempts[..m], n);
      BelowAppend(attempts[..m], attempts[m], n);
      assert attempts[..m] + [attempts[m]] == attempts;
    }
  }

  lemma {:induction false} NoneBelow(n: nat)
    ensures AttemptsBelow([], n) == 0
  {
    if n > 0 {
      NoneBelow(n - 1);
    }
  }

  lemma TaskWithinBudget(t: Task)
    requires TaskInv(t) && FirstGroupOnly(t)
    ensures Sum(StageCounts(t)) <= Sum(StageBudgets(t))
  {
    var im := t.stages[IMAGE_EDIT];
    BelowCountsAll(im.attempts, t.generations);
    BelowBounded(im.attempts, t.generations, im.maxAttempts);
    forall s | 0 <= s < STAGE_COUNT ensures StageCounts(t)[s] <= StageBudgets(t)[s] {
      if s != IMAGE_EDIT { assert StageOk(t.stages[s]); }
    }
    SumMonotone(StageCounts(t), StageBudgets(t));
  }

  // ---------------------------------------------------------------- every run

  ghost predicate Counted(db: Db) {
    WellFormed(db) && Inv(db) && forall t :: 0 <= t < |db.tasks| ==> FirstGroupOnly(db.tasks[t])
  }

  /** A row of the image stage that no worker has lost runs a candidate that exists. */
  lemma LeasedInFirstGroup(t: Task, a: nat)
    requires TaskInv(t) && |t.groups| == 1 && LeaseOf(t, IMAGE_EDIT, a).Some? && !LeaseOf(t, IMAGE_EDIT, a).value.revoked
    ensures InFirstGroup(t.stages[IMAGE_EDIT].attempts[a], t.generations)
  {
    assert CandidateRuns(t.groups, a, t.stages[IMAGE_EDIT].attempts[a].candidate);
  }

  lemma GrantedFirstGroup(t: Task, t': Task, s: nat, lease: Lease, now: Time)
    requires FirstGroupOnly(t) && TaskInv(t') && |t'.groups| == 1 && RowAdded(t, t', s, lease, now) && !lease.revoked
    ensures FirstGroupOnly(t')
    ensures Sum(StageCounts(t')) == Sum(StageCounts(t)) + 1
  {
    if s == IMAGE_EDIT {
      var n := |t.stages[s].attempts|;
      LeasedInFirstGroup(t', n);
      forall a | 0 <= a < |t'.stages[s].attempts| ensures InFirstGroup(t'.stages[s].attempts[a], t'.generations) {
        if a < n { assert t'.stages[s].attempts[..n][a] == t.stages[s].attempts[a]; }
      }
    }
    SumAfter(StageCounts(t), StageCounts(t'), s, 1);
  }

  lemma EvolvedFirstGroup(t: Task, t': Task, plain: bool)
    requires FirstGroupOnly(t) && |t'.groups| == 1 && TaskEvolves(t, t', plain)
    ensures FirstGroupOnly(t') && Sum(StageCounts(t')) == Sum(StageCounts(t))
  {
    assert StageEvolves(t.stages[IMAGE_EDIT], t'.stages[IMAGE_EDIT], plain);
    forall s | 0 <= s < STAGE_COUNT ensures StageCounts(t')[s] == StageCounts(t)[s] {
      assert StageEvolves(t.stages[s], t'.stages[s], plain);
    }
    assert StageCounts(t') == StageCounts(t);
  }

  lemma SameRowsFirstGroup(t: Task, t': Task)
    requires FirstGroupOnly(t) && |t'.groups| == 1 && SameTaskRows(t, t')
    ensures FirstGroupOnly(t') && Sum(StageCounts(t')) == Sum(StageCounts(t))
  {
    assert StageCounts(t') == StageCounts(t);
  }

  lemma UngrantedCounted(db: Db, r: Db, t: nat)
    requires Counted(db) && KeepsBudgets(db, r) && t < |db.tasks| && SameTaskRows(db.tasks[t], r.tasks[t])
    ensures FirstGroupOnly(r.tasks[t]) && TaskCounts(r)[t] == TaskCounts(db)[t]
  {
    assert KeepsBudget(db.tasks[t], r.tasks[t]);
    SameRowsFirstGroup(db.tasks[t], r.tasks[t]);
  }

  lemma GrantedCounted(db: Db, r: Dispatch, capacities: Capacities, now: Time)
    requires Counted(db) && Inv(r.db) && KeepsBudgets(db, r.db) && Dispatches(db, r, capacities, now) && r.item.Some?
    ensures var t := r.item.value.task; FirstGroupOnly(r.db.tasks[t]) && TaskCounts(r.db)[t] == TaskCounts(db)[t] + 1
  {
    var k := r.item.value;
    var resources := Allocate(db, db.tasks[k.task].project, StageResources(k.stage), capacities).value;
    assert KeepsBudget(db.tasks[k.task], r.db.tasks[k.task]);
    GrantedFirstGroup(db.tasks[k.task], r.db.tasks[k.task], k.stage, FreshLease(db, now, resources), now);
  }

  predicate OneMoreAt(xs: seq<nat>, ys: seq<nat>, i: Option<nat>) {
    && |xs| == |ys| && (i.Some? ==> i.value < |xs|)
    && forall j :: 0 <= j < |xs| ==> ys[j] == xs[j] + (if i == Some(j) then 1 else 0)
  }

  lemma OneMore(xs: seq<nat>, ys: seq<nat>, i: Option<nat>)
    requires OneMoreAt(xs, ys, i)
    ensures Sum(ys) == Sum(xs) + (if i.Some? then 1 else 0)
  {
    if i.Some? { SumAfter(xs, ys, i.value, 1); } else { assert xs == ys; }
  }

  function ItemTask(r: Dispatch): Option<nat> {
    if r.item.Some? then Some(r.item.value.task) else None
  }

  lemma TaskCounted(db: Db, r: Dispatch, capacities: Capacities, now: Time, t: nat)
    requires Counted(db) && Inv(r.db) && KeepsBudgets(db, r.db) && Dispatches(db, r, capacities, now) && t < |db.tasks|
    ensures FirstGroupOnly(r.db.tasks[t]) && TaskCounts(r.db)[t] == TaskCounts(db)[t] + (if ItemTask(r) == Some(t) then 1 else 0)
  {
    if ItemTask(r) == Some(t) {
      GrantedCounted(db, r, capacities, now);
    } else {
      UngrantedCounted(db, r.db, t);
    }
  }

  /** What a call hands out is one attempt more. */
  lemma DispatchesCounted(db: Db, r: Dispatch, capacities: Capacities, now: Time)
    requires Counted(db) && WellFormed(r.db) && Inv(r.db) && KeepsBudgets(db, r.db) && Dispatches(db, r, capacities, now)
    ensures forall t :: 0 <= t < |r.db.tasks| ==> FirstGroupOnly(r.db.tasks[t])
    ensures OneMoreAt(TaskCounts(db), TaskCounts(r.db), ItemTask(r))
  {
    forall t | 0 <= t < |db.tasks|
      ensures FirstGroupOnly(r.db.tasks[t]) && TaskCounts(r.db)[t] == TaskCounts(db)[t] + (if ItemTask(r) == Some(t) then 1 else 0)
    {
      TaskCounted(db, r, capacities, now, t);
    }
  }

  lemma DispatchCounted(db: Db, op: Op)
    requires Counted(db) && Calls(db, op) && Inv(Step(db, op)) && KeepsBudgets(db, Step(db, op))
    ensures Counted(Step(db, op))
    ensures TotalAttempts(Step(db, op)) == TotalAttempts(db) + (if ItemOf(db, op).Some? then 1 else 0)
  {
    LeaseNextDispatches(db, op.now, op.capacities, op.queue);
    var r := Dispatched(db, op.now, op.capacities, op.queue);
    DispatchesCounted(db, r, op.capacities, op.now);
    OneMore(TaskCounts(db), TaskCounts(r.db), ItemTask(r));
  }

  lemma EvolvedCounted(db: Db, db': Db, plain: bool)
    requires Counted(db) && WellFormed(db') && Inv(db') && KeepsBudgets(db, db') && Evolves(db, db', plain)
    ensures Counted(db') && TotalAttempts(db') == TotalAttempts(db)
  {
    forall t | 0 <= t < |db.tasks|
      ensures FirstGroupOnly(db'.tasks[t]) && Sum(StageCounts(db'.tasks[t])) == Sum(StageCounts(db.tasks[t]))
    {
      assert KeepsBudget(db.tasks[t], db'.tasks[t]) && TaskEvolves(db.tasks[t], db'.tasks[t], plain);
      EvolvedFirstGroup(db.tasks[t], db'.tasks[t], plain);
    }
    assert TaskCounts(db') == TaskCounts(db);
  }

  lemma OtherCounted(db: Db, op: Op)
    requires Counted(db) && !op.LeaseNext? && Inv(Step(db, op)) && KeepsBudgets(db, Step(db, op))
    ensures Counted(Step(db, op)) && TotalAttempts(Step(db, op)) == TotalAttempts(db)
  {
    StepEvolves(db, op);
    EvolvedCounted(db, Step(db, op), Plain(op));
  }

  lemma StepCounted(db: Db, op: Op)
    requires Counted(db) && !GrantsAttempts(op)
    ensures Counted(Step(db, op)) && KeepsBudgets(db, Step(db, op))
    ensures TotalAttempts(Step(db, op)) == TotalAttempts(db) + (if ItemOf(db, op).Some? then 1 else 0)
  {
    StepInv(db, op);
    StepKeepsBudgets(db, op);
    if Calls(db, op) {
      DispatchCounted(db, op);
    } else if !op.LeaseNext? {
      OtherCounted(db, op);
    }
  }

  lemma SameTotalBudget(db: Db, db': Db)
    requires KeepsBudgets(db, db')
    ensures TotalBudget(db') == TotalBudget(db)
  {
    forall t | 0 <= t < |db.tasks| ensures TaskBudgets(db')[t] == TaskBudgets(db)[t] {
      assert KeepsBudget(db.tasks[t], db'.tasks[t]);
      assert StageBudgets(db'.tasks[t]) == StageBudgets(db.tasks[t]);
    }
    assert TaskBudgets(db') == TaskBudgets(db);
  }

  lemma WithinBudget(db: Db)
    requires Counted(db)
    ensures TotalAttempts(db) <= TotalBudget(db)
  {
    forall t | 0 <= t < |db.tasks| ensures TaskCounts(db)[t] <= TaskBudgets(db)[t] {
      TaskWithinBudget(db.tasks[t]);
    }
    SumMonotone(TaskCounts(db), TaskBudgets(db));
  }

  predicate NoGrants(ops: seq<Op>) {
    forall i :: 0 <= i < |ops| ==> !GrantsAttempts(ops[i])
  }

  lemma {:induction false} RunCounted(db: Db, ops: seq<Op>)
    requires Counted(db) && NoGrants(ops)
    ensures Counted(Run(db, ops)) && TotalBudget(Run(db, ops)) == TotalBudget(db)
    ensures TotalAttempts(Run(db, ops)) == TotalAttempts(db) + CountDispatches(db, ops)
    decreases |ops|
  {
    if ops != [] {
      var before := Run(db, ops[..|ops| - 1]);
      RunCounted(db, ops[..|ops| - 1]);
      StepCounted(before, ops[|ops| - 1]);
      SameTotalBudget(before, Run(db, ops));
    }
  }

  lemma PlannedCounted(db: Db)
    requires IsPlanned(db)
    ensures Counted(db)
  {
    PlannedInv(db);
    forall t | 0 <= t < |db.tasks| ensures FirstGroupOnly(db.tasks[t]) {
      assert IsPlannedTask(db.tasks[t]);
    }
  }

  /** Without operator grants a batch hands out at most as many leases as its budgets add up to, whatever
      fails, expires, is retried or recovered. */
  lemma LeasesBounded(db: Db, ops: seq<Op>)
    requires IsPlanned(db) && NoGrants(ops)
    ensures CountDispatches(db, ops) <= TotalBudget(db)
  {
    PlannedCounted(db);
    RunCounted(db, ops);
    WithinBudget(Run(db, ops));
  }

  // ---------------------------------------------------------------- the declared numbers

  /** The attempts each stage is declared with, in the order of the chain. */
  const DECLARED_ATTEMPTS := [1, 3, 1, 3, 2, 2, 2, 2, 1, 2, 2, 3, 1, 2, 3]

  predicate DeclaredTask(t: Task) {
    |t.stages| == |DECLARED_ATTEMPTS| && forall s :: 0 <= s < |t.stages| ==> t.stages[s].maxAttempts == DECLARED_ATTEMPTS[s]
  }

  lemma PlannedIsDeclared(t: Task)
    requires IsPlannedTask(t)
    ensures DeclaredTask(t)
  {
  }

  lemma {:induction false} RunIsDeclared(db: Db, ops: seq<Op>, t: nat)
    requires IsPlanned(db) && NoGrants(ops) && t < |db.tasks|
    ensures |Run(db, ops).tasks| == |db.tasks| && DeclaredTask(Run(db, ops).tasks[t])
    ensures Run(db, ops).tasks[t].generations == db.tasks[t].generations
    decreases |ops|
  {
    if ops == [] {
      assert IsPlannedTask(db.tasks[t]);
      PlannedIsDeclared(db.tasks[t]);
    } else {
      var before := Run(db, ops[..|ops| - 1]);
      RunIsDeclared(db, ops[..|ops| - 1], t);
      StepKeepsBudgets(before, ops[|ops| - 1]);
      assert KeepsBudget(before.tasks[t], Run(db, ops).tasks[t]);
    }
  }

  /** As long as no operator grants more, no stage gets more attempts than it is declared with, and no candidate
      of the image stage more than three. */
  lemma DeclaredAttemptsOnRuns(db: Db, ops: seq<Op>, t: nat, s: nat, c: Candidate)
    requires IsPlanned(db) && NoGrants(ops) && t < |db.tasks| && s < STAGE_COUNT
    ensures |Run(db, ops).tasks| == |db.tasks| && |Run(db, ops).tasks[t].stages| == STAGE_COUNT
    ensures var attempts := Run(db, ops).tasks[t].stages[s].attempts;
            if s == 1 then AttemptsOf(attempts, c) <= 3 else |attempts| <= DECLARED_ATTEMPTS[s]
  {
    Runs.AttemptBudgetOnRuns(db, ops, t, s, c);
    RunIsDeclared(db, ops, t);
    DeclaredBound(Run(db, ops).tasks[t], s);
  }

  lemma DeclaredBound(t: Task, s: nat)
    requires DeclaredTask(t) && s < STAGE_COUNT
    ensures |t.stages| == STAGE_COUNT && t.stages[s].maxAttempts == DECLARED_ATTEMPTS[s] && (s == 1 ==> t.stages[s].maxAttempts == 3)
  {
  }

  lemma {:induction false} SumParts(xs: seq<nat>, n: nat)
    requires n <= |xs|
    ensures Sum(xs) == Sum(xs[..n]) + Sum(xs[n..])
    decreases |xs|
  {
    if n < |xs| {
      var m := |xs| - 1;
      SumParts(xs[..m], n);
      assert xs[..m][..n] == xs[..n] && xs[..m][n..] == xs[n..][..m - n];
    } else {
      assert xs[..n] == xs && xs[n..] == [];
    }
  }

  lemma SumOfThree(a: nat, b: nat, c: nat)
    ensures Sum([a, b, c]) == a + b + c
  {
    assert [a, b, c][..2] == [a, b] && [a, b][..1] == [a] && [a][..0] == [];
    assert Sum([]) == 0 && Sum([a]) == a && Sum([a, b]) == a + b;
  }

  /** A task with g candidates has 27 + 3 g attempts in all. */
  lemma DeclaredSum(t: Task)
    requires DeclaredTask(t)
    ensures Sum(StageBudgets(t)) == 27 + 3 * t.generations
  {
    var xs := StageBudgets(t);
    var g := t.generations * 3;
    assert xs == [1, g, 1] + [3, 2, 2] + [2, 2, 1] + [2, 2, 3] + [1, 2, 3];
    SumParts(xs, 3);
    assert xs[3..] == [3, 2, 2] + [2, 2, 1] + [2, 2, 3] + [1, 2, 3] && xs[..3] == [1, g, 1];
    SumParts(xs[3..], 3);
    assert xs[3..][3..] == [2, 2, 1] + [2, 2, 3] + [1, 2, 3] && xs[3..][..3] == [3, 2, 2];
    SumParts(xs[3..][3..], 3);
    assert xs[3..][3..][3..] == [2, 2, 3] + [1, 2, 3] && xs[3..][3..][..3] == [2, 2, 1];
    SumParts([2, 2, 3] + [1, 2, 3], 3);
    assert ([2, 2, 3] + [1, 2, 3])[..3] == [2, 2, 3] && ([2, 2, 3] + [1, 2, 3])[3..] == [1, 2, 3];
    SumOfThree(1, g, 1);
    SumOfThree(3, 2, 2);
    SumOfThree(2, 2, 1);
    SumOfThree(2, 2, 3);
    SumOfThree(1, 2, 3);
  }

  function PlannedLeases(tasks: seq<Task>): nat {
    if tasks == [] then 0 else PlannedLeases(tasks[..|tasks| - 1]) + 27 + 3 * tasks[|tasks| - 1].generations
  }

  lemma {:induction false} DeclaredTotal(db: Db)
    requires forall t :: 0 <= t < |db.tasks| ==> DeclaredTask(db.tasks[t])
    ensures TotalBudget(db) == PlannedLeases(db.tasks)
    decreases |db.tasks|
  {
    if db.tasks != [] {
      var n := |db.tasks| - 1;
      var shorter := db.(tasks := db.tasks[..n]);
      DeclaredTotal(shorter);
      DeclaredSum(db.tasks[n]);
      assert TaskBudgets(db)[..n] == TaskBudgets(shorter);
    }
  }

  /** Without operator grants a planned batch hands out at most 27 leases per task and 3 per candidate. */
  lemma PlannedLeasesBounded(db: Db, ops: seq<Op>)
    requires IsPlanned(db) && NoGrants(ops)
    ensures CountDispatches(db, ops) <= PlannedLeases(db.tasks)
  {
    LeasesBounded(db, ops);
    forall t | 0 <= t < |db.tasks| ensures DeclaredTask(db.tasks[t]) {
      assert IsPlannedTask(db.tasks[t]);
      PlannedIsDeclared(db.tasks[t]);
    }
    DeclaredTotal(db);
  }
}
