/** Which calls can delete the lease of a remote process stage. */
module RemoteReleases {
  import opened Tables
  import opened Transitions
  import opened Batch
  import opened Protocol
  import opened TaskInvariant
  import opened TaskSteps
  import opened RecoverySteps
  import opened RunInvariant
  import opened Evolution
  import opened Runs

  predicate HasIntent(db: Db, k: Key) {
    AttemptAt(db, k).Some? && AttemptAt(db, k).value.commit.Some?
  }

  /** A settled report, a publication, an explicit resolution, or the recovery of a recorded intent. */
  predicate Releases(db: Db, op: Op, k: Key) {
    || (op.Fail? && KeyOf(op.item) == k && op.report.cleanup)
    || ((op.Finalize? || op.Resolve?) && KeyOf(op.item) == k)
    || ((op.Reconcile? || op.RecoverExpired?) && HasIntent(db, k))
  }

  predicate LeaseStays(t: Task, t': Task, s: nat, a: nat) {
    LeaseOf(t, s, a).Some? ==> LeaseOf(t', s, a).Some?
  }

  lemma FailLeaseStays(t: Task, s: nat, a: nat, now: Time, r: Report, automatic: bool, s': nat, a': nat)
    requires |t.stages| == STAGE_COUNT && LeaseOf(t, s, a).Some? && ((s', a') != (s, a) || !r.cleanup)
    ensures LeaseStays(t, FailTask(t, s, a, now, r, automatic), s', a')
  {
    if s == IMAGE_EDIT && t.stages[s].attempts[a].candidate.Some? {
    } else {
      FailPlainRows(t, s, a, now, r);
    }
  }

  lemma CancelLeaseStays(t: Task, outcomes: seq<CancelOutcome>, s: nat, a: nat)
    requires |t.stages| == STAGE_COUNT == |outcomes| && RemoteProcessStage(s) && !RemoteOccupied(t)
    ensures LeaseStays(t, CanceledTask(t, outcomes), s, a)
  {
  }

  lemma ExpireLeaseStays(t: Task, s: nat, a: nat, cleanup: bool, first: nat, second: nat, s': nat, a': nat)
    requires LeaseOf(t, s, a).Some? && RemoteProcessStage(s')
    ensures LeaseStays(t, ExpiredTask(t, s, a, cleanup, first, second), s', a')
  {
  }

  lemma FinalizeLeaseStays(t: Task, s: nat, a: nat, automatic: bool, s': nat, a': nat)
    requires |t.stages| == STAGE_COUNT && CanFinalize(t, s, a, None) && (s', a') != (s, a)
    ensures LeaseStays(t, FinalizedTask(t, s, a, automatic), s', a')
  {
  }

  lemma CommitFailedLeaseStays(t: Task, s: nat, a: nat, s': nat, a': nat)
    requires ValidKey(t, s, a) && t.stages[s].attempts[a].commit.Some? && s' != s
    ensures LeaseStays(t, CommitFailedTask(t, s, a), s', a')
  {
  }

  lemma ResolveLeaseStays(t: Task, item: Item, action: Settlement, s: nat, a: nat)
    requires |t.stages| == STAGE_COUNT && HoldsRecovery(t, item) && (s, a) != (item.stage, item.attempt)
    ensures LeaseStays(t, Resolved(t, item, action), s, a)
  {
  }

  lemma AggregatedLeases(db: Db, k: Key)
    requires WellFormed(db)
    ensures LeaseAt(Aggregated(db), k) == LeaseAt(db, k)
  {
  }

  lemma SettledLeases(db: Db, k: Key)
    requires WellFormed(db)
    ensures LeaseAt(Aggregated(RefreshAll(db)), k) == LeaseAt(db, k)
  {
    if k.0 < |db.tasks| && k.1 < STAGE_COUNT {
      SettledUntouched(db, k.0, k.1);
    }
  }

  /** A call that replaces one task and settles the batch after it. */
  lemma ReplacedLeaseStays(db: Db, t: nat, task: Task, k: Key)
    requires WellFormed(db) && t < |db.tasks| && |task.stages| == STAGE_COUNT && task.groups != [] && LeaseAt(db, k).Some?
    requires k.0 == t ==> LeaseStays(db.tasks[t], task, k.1, k.2)
    ensures LeaseAt(Aggregated(RefreshAll(WithTask(db, t, task))), k).Some?
    ensures LeaseAt(Aggregated(WithTask(db, t, task)), k).Some?
  {
    AggregatedLeases(WithTask(db, t, task), k);
    SettledLeases(WithTask(db, t, task), k);
  }

  // ---------------------------------------------------------------- reconciliation

  lemma PublishedLeases(t: Task, s: nat, a: nat, s': nat, a': nat)
    requires ValidKey(t, s, a) && t.stages[s].attempts[a].commit.Some?
    ensures LeaseOf(PublishedTask(t, s, a), s', a') == LeaseOf(t, s', a')
  {
  }

  lemma ReconcileOneLeaseStays(db: Db, q: Key, agree: bool, k: Key)
    requires WellFormed(db) && LeaseAt(db, k).Some? && (k.0, k.1) != (q.0, q.1)
    ensures LeaseAt(ReconcileOne(db, q, agree), k).Some?
  {
    if ValidAt(db, q) && db.tasks[q.0].stages[q.1].attempts[q.2].commit.Some? && k.0 == q.0 {
      var t := db.tasks[q.0];
      var published := PublishedTask(t, q.1, q.2);
      PublishedLeases(t, q.1, q.2, k.1, k.2);
      if !agree {
        CommitFailedLeaseStays(t, q.1, q.2, k.1, k.2);
      } else if CanFinalize(published, q.1, q.2, None) {
        FinalizeLeaseStays(published, q.1, q.2, db.automatic, k.1, k.2);
        SettledLeases(WithTask(db, q.0, FinalizedTask(published, q.1, q.2, db.automatic)), k);
      } else {
        CommitFailedLeaseStays(published, q.1, q.2, k.1, k.2);
      }
    } else if ValidAt(db, q) && db.tasks[q.0].stages[q.1].attempts[q.2].commit.Some? {
      var published := PublishedTask(db.tasks[q.0], q.1, q.2);
      if agree && CanFinalize(published, q.1, q.2, None) {
        SettledLeases(WithTask(db, q.0, FinalizedTask(published, q.1, q.2, db.automatic)), k);
      }
    }
  }

  /** The rows that reconciliation picks up never share a stage with a remote lease that has no intent. */
  predicate Apart(rows: seq<Key>, k: Key) {
    forall i :: 0 <= i < |rows| ==> (rows[i].0, rows[i].1) != (k.0, k.1)
  }

  lemma {:induction false} ReconciledLeaseStays(db: Db, rows: seq<Key>, agree: set<Key>, k: Key)
    requires WellFormed(db) && LeaseAt(db, k).Some? && Apart(rows, k)
    ensures LeaseAt(Reconciled(db, rows, agree), k).Some?
    decreases |rows|
  {
    if rows != [] {
      ReconcileOneLeaseStays(db, rows[0], rows[0] in agree, k);
      ReconciledLeaseStays(ReconcileOne(db, rows[0], rows[0] in agree), rows[1..], agree, k);
    }
  }

  lemma HeldAlone(t: Task, s: nat, a: nat, b: nat)
    requires TaskInv(t) && s != IMAGE_EDIT && Unrevoked(t, s, a) && LeaseOf(t, s, b).Some?
    ensures a == b
  {
    HeldIsLatest(t, s, a);
    assert StageOk(t.stages[s]);
  }

  lemma UnsettledApart(db: Db, rows: seq<Key>, k: Key)
    requires Inv(db) && IsUnsettledList(db, rows) && LeaseAt(db, k).Some? && RemoteProcessStage(k.1) && !HasIntent(db, k)
    ensures Apart(rows, k)
  {
    forall i | 0 <= i < |rows| ensures (rows[i].0, rows[i].1) != (k.0, k.1) {
      var q := rows[i];
      assert Unsettled(db, q);
      if (q.0, q.1) == (k.0, k.1) {
        HeldAlone(db.tasks[k.0], k.1, q.2, k.2);
      }
    }
  }

  lemma {:induction false} ExpireAllLeaseStays(db: Db, rows: seq<Expiry>, k: Key)
    requires WellFormed(db) && LeaseAt(db, k).Some? && RemoteProcessStage(k.1)
    ensures LeaseAt(ExpireAll(db, rows), k).Some?
    decreases |rows|
  {
    if rows != [] {
      var e := rows[0];
      if ExpireOne(db, e) != db && e.key.0 == k.0 {
        ExpireLeaseStays(db.tasks[k.0], e.key.1, e.key.2, e.cleanup, e.first, e.second, k.1, k.2);
      }
      ExpireAllLeaseStays(ExpireOne(db, e), rows[1..], k);
    }
  }

  // ---------------------------------------------------------------- every call

  lemma FailOpLeaseStays(db: Db, item: Item, now: Time, r: Report, k: Key)
    requires WellFormed(db) && LeaseAt(db, k).Some? && (KeyOf(item) != k || !r.cleanup)
    ensures LeaseAt(Step(db, Op.Fail(item, now, r)), k).Some?
  {
    FailStep(db, item, now, r);
    if OwnsItem(db, item, now) {
      var task := db.tasks[item.task];
      FailShape(task, item.stage, item.attempt, now, r, db.automatic);
      if k.0 == item.task { FailLeaseStays(task, item.stage, item.attempt, now, r, db.automatic, k.1, k.2); }
      ReplacedLeaseStays(db, item.task, FailTask(task, item.stage, item.attempt, now, r, db.automatic), k);
    }
  }

  lemma FinalizeOpLeaseStays(db: Db, item: Item, now: Time, k: Key)
    requires WellFormed(db) && LeaseAt(db, k).Some? && KeyOf(item) != k
    ensures LeaseAt(Step(db, Op.Finalize(item, now)), k).Some?
  {
    FinalizeStep(db, item, now);
    if OwnsItem(db, item, now) && CanFinalize(db.tasks[item.task], item.stage, item.attempt, Some(now)) {
      var task := db.tasks[item.task];
      if k.0 == item.task { FinalizeLeaseStays(task, item.stage, item.attempt, db.automatic, k.1, k.2); }
      ReplacedLeaseStays(db, item.task, FinalizedTask(task, item.stage, item.attempt, db.automatic), k);
    }
  }

  lemma ResolveOpLeaseStays(db: Db, item: Item, action: Settlement, k: Key)
    requires WellFormed(db) && LeaseAt(db, k).Some? && KeyOf(item) != k
    ensures LeaseAt(Step(db, Op.Resolve(item, action)), k).Some?
  {
    ResolveStep(db, item, action);
    if RecoversItem(db, item) {
      if k.0 == item.task { ResolveLeaseStays(db.tasks[item.task], item, action, k.1, k.2); }
      ReplacedLeaseStays(db, item.task, Resolved(db.tasks[item.task], item, action), k);
    }
  }

  lemma SweepLeaseStays(db: Db, op: Op, k: Key)
    requires WellFormed(db) && Inv(db) && (op.Reconcile? || op.RecoverExpired? || op.CancelTasks?)
    requires RemoteProcessStage(k.1) && LeaseAt(db, k).Some? && !Releases(db, op, k)
    ensures LeaseAt(Step(db, op), k).Some?
  {
    match op
    case Reconcile(rows, agree) =>
      if IsUnsettledList(db, rows) {
        UnsettledApart(db, rows, k);
        ReconciledLeaseStays(db, rows, agree, k);
      }
    case RecoverExpired(rows, agree, now, boot, expired) =>
      if IsUnsettledList(db, rows) {
        UnsettledApart(db, rows, k);
        ReconciledLeaseStays(db, rows, agree, k);
        ExpireAllLeaseStays(Reconciled(db, rows, agree), expired, k);
        AggregatedLeases(ExpireAll(Reconciled(db, rows, agree), expired), k);
      }
    case CancelTasks(selected, outcomes) =>
      if OutcomesShaped(db, outcomes) && !CancelBlocked(db, selected) {
        AggregatedLeases(CanceledTasks(db, selected, outcomes), k);
        if k.0 in selected { CancelLeaseStays(db.tasks[k.0], outcomes[k.0], k.1, k.2); }
      }
  }

  lemma RowLeaseStays(db: Db, op: Op, k: Key)
    requires WellFormed(db) && LeaseAt(db, k).Some? && (op.MarkRunning? || op.Beat?)
    ensures LeaseAt(Step(db, op), k).Some?
  {
  }

  lemma QuietLeaseStays(db: Db, op: Op, k: Key)
    requires WellFormed(db) && LeaseAt(db, k).Some?
    requires op.Start? || op.Refresh? || op.MarkRunning? || op.Beat? || op.Prepare? || op.PublishFiles? || op.Reactivate?
    ensures LeaseAt(Step(db, op), k).Some?
  {
    match op
    case Start =>
    case Refresh => SettledLeases(db, k);
    case Prepare(_, _, _) => PrepareTouchesOneRow(db, op, k);
    case Reactivate(item, now) => ReactivatedLeaseStays(db, item, now, k);
    case PublishFiles(q) =>
      if ValidAt(db, q) && db.tasks[q.0].stages[q.1].attempts[q.2].commit.Some? {
        PublishedLeases(db.tasks[q.0], q.1, q.2, k.1, k.2);
      }
    case _ => RowLeaseStays(db, op, k);
  }

  lemma ReactivatedLeaseStays(db: Db, item: Item, now: Time, k: Key)
    requires WellFormed(db) && LeaseAt(db, k).Some?
    ensures LeaseAt(Step(db, Op.Reactivate(item, now)), k).Some?
  {
  }

  lemma DispatchLeaseStays(db: Db, op: Op, k: Key)
    requires WellFormed(db) && op.LeaseNext? && LeaseAt(db, k).Some?
    ensures LeaseAt(Step(db, op), k).Some?
  {
    if Step(db, op) != db {
      LeaseNextDispatches(db, op.now, op.capacities, op.queue);
      var r := Dispatched(db, op.now, op.capacities, op.queue);
      if r.item.Some? {
        GrantKeepsRows(db, r.db, r.item.value, op.capacities, op.now, k);
      } else {
        SameHolders(db, r.db, RemoteGpu);
      }
    }
  }

  lemma DecidedLeases(t: Task, attempt: nat, v: Verdict, s: nat, a: nat)
    requires |t.stages| == STAGE_COUNT && t.groups != [] && CanDecide(t, attempt, v)
    ensures LeaseOf(DecidedTask(t, attempt, v), s, a) == LeaseOf(t, s, a)
    ensures DecidedTask(t, attempt, v).groups != []
  {
  }

  lemma DecideLeaseStays(db: Db, op: Op, k: Key)
    requires WellFormed(db) && op.Decide? && LeaseAt(db, k).Some?
    ensures LeaseAt(Step(db, op), k).Some?
  {
    if op.task < |db.tasks| && CanDecide(db.tasks[op.task], op.attempt, op.verdict) {
      DecidedLeases(db.tasks[op.task], op.attempt, op.verdict, k.1, k.2);
      ReplacedLeaseStays(db, op.task, DecidedTask(db.tasks[op.task], op.attempt, op.verdict), k);
    }
  }

  /** Only a settled report, a publication, an explicit resolution or the recovery of a recorded intent
      deletes the lease of a remote process stage; expiry and cancellation never do. */
  lemma OnlySettlementReleases(db: Db, op: Op, k: Key)
    requires WellFormed(db) && Inv(db)
    requires RemoteProcessStage(k.1) && LeaseAt(db, k).Some? && LeaseAt(Step(db, op), k).None?
    ensures Releases(db, op, k)
  {
    if !Releases(db, op, k) {
      match op
      case Fail(item, now, report) => FailOpLeaseStays(db, item, now, report, k);
      case Finalize(item, now) => FinalizeOpLeaseStays(db, item, now, k);
      case Resolve(item, action) => ResolveOpLeaseStays(db, item, action, k);
      case Reconcile(_, _) => SweepLeaseStays(db, op, k);
      case RecoverExpired(_, _, _, _, _) => SweepLeaseStays(db, op, k);
      case CancelTasks(_, _) => SweepLeaseStays(db, op, k);
      case LeaseNext(_, _, _, _) => DispatchLeaseStays(db, op, k);
      case Decide(_, _, _) => DecideLeaseStays(db, op, k);
      case _ => QuietLeaseStays(db, op, k);
    }
  }

  // ---------------------------------------------------------------- what a resolution leaves

  lemma ResolvedRow(t: Task, item: Item, action: Settlement)
    requires |t.stages| == STAGE_COUNT && HoldsRecovery(t, item)
    ensures var st := Resolved(t, item, action).stages[item.stage];
            && |st.attempts| == |t.stages[item.stage].attempts| && st.attempts[item.attempt].lease.None?
            && (action.RetryAttempt? ==> st.state.Ready? && item.attempt + 2 <= st.maxAttempts
                                         && st.attempts[item.attempt].status.FailedRetryable?)
            && (action.TerminateAttempt? ==> st.state.FailedTerminal? && st.attempts[item.attempt].status == InState(FailedTerminal))
    ensures Resolved(t, item, action).groups == t.groups
  {
  }

  /** Settling the batch leaves a ready stage ready, unless it is a finalizer that can no longer run. */
  lemma SettledReady(db: Db, t: nat, i: nat)
    requires WellFormed(db) && t < |db.tasks| && i < STAGE_COUNT && i != EVALUATE_ABSOLUTE
    ensures var st := Aggregated(RefreshAll(db)).tasks[t].stages[i];
            !db.tasks[t].stages[i].state.Pending? ==> st == db.tasks[t].stages[i]
  {
    assert RefreshAll(db).tasks[t] == Refreshed(db.tasks[t]);
  }

  lemma ResolvedStage(db: Db, item: Item, action: Settlement)
    requires WellFormed(db) && RecoversItem(db, item) && item.stage != EVALUATE_ABSOLUTE
    ensures var db', k := Step(db, Op.Resolve(item, action)), KeyOf(item);
            && LeaseAt(db, k).Some? && LeaseAt(db', k).None? && ValidAt(db', k)
            && db'.tasks[k.0].stages[k.1] == Resolved(db.tasks[k.0], item, action).stages[k.1]
  {
    ResolveStep(db, item, action);
    ResolvedRow(db.tasks[item.task], item, action);
    SettledReady(WithTask(db, item.task, Resolved(db.tasks[item.task], item, action)), item.task, item.stage);
  }
}
