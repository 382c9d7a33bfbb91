/** How attempt rows change over a run: rows are only appended, a row's lease keeps its token and its
    resources until it is deleted, only a row with a lease is committed, and a committed row never changes again. */
module Evolution {
  import opened Tables
  import opened Transitions
  import opened Batch
  import opened Protocol
  import opened TaskInvariant

  predicate SameLease(x: Option<Lease>, y: Option<Lease>) {
    y.Some? ==> x.Some? && y.value.token == x.value.token && y.value.resources == x.value.resources
  }

  /** `plain`: a revoked lease stays revoked and no intent is recorded. Only reactivation and preparation
      break it. */
  predicate AttemptEvolves(x: Attempt, y: Attempt, plain: bool) {
    && y.candidate == x.candidate
    && SameLease(x.lease, y.lease)
    && (plain && y.lease.Some? && x.lease.value.revoked ==> y.lease.value.revoked)
    && (plain && y.commit.Some? ==> x.commit.Some?)
    && (x.commit.Some? ==> y.commit.Some? && y.commit.value.artifacts == x.commit.value.artifacts)
    && (IsCommitted(x) && AttemptOk(x) ==> y == x)
    && (IsCommitted(y) && !IsCommitted(x) ==> x.lease.Some?)
  }

  predicate StageEvolves(x: Stage, y: Stage, plain: bool) {
    |y.attempts| == |x.attempts| && forall a :: 0 <= a < |x.attempts| ==> AttemptEvolves(x.attempts[a], y.attempts[a], plain)
  }

  predicate SameIdentity(t: Task, t': Task) {
    t'.project == t.project && t'.generations == t.generations && t'.last == t.last
  }

  /** No row is added. */
  predicate TaskEvolves(t: Task, t': Task, plain: bool) {
    && |t'.stages| == |t.stages| && SameIdentity(t, t')
    && forall s :: 0 <= s < |t.stages| ==> StageEvolves(t.stages[s], t'.stages[s], plain)
  }

  predicate SameSettings(db: Db, db': Db) {
    && |db'.tasks| == |db.tasks| && db'.pool == db.pool
    && db'.leaseSeconds == db.leaseSeconds && db'.automatic == db.automatic
  }

  predicate Evolves(db: Db, db': Db, plain: bool) {
    && SameSettings(db, db') && db'.nextToken == db.nextToken
    && forall t :: 0 <= t < |db.tasks| ==> TaskEvolves(db.tasks[t], db'.tasks[t], plain)
  }

  lemma EvolvesTransitive(a: Db, b: Db, c: Db, plain: bool := true)
    requires Evolves(a, b, plain) && Evolves(b, c, plain)
    ensures Evolves(a, c, plain)
  {
    forall t | 0 <= t < |a.tasks| ensures TaskEvolves(a.tasks[t], c.tasks[t], plain) {
      assert TaskEvolves(a.tasks[t], b.tasks[t], plain) && TaskEvolves(b.tasks[t], c.tasks[t], plain);
      forall s | 0 <= s < |a.tasks[t].stages| ensures StageEvolves(a.tasks[t].stages[s], c.tasks[t].stages[s], plain) {
        assert StageEvolves(a.tasks[t].stages[s], b.tasks[t].stages[s], plain);
        assert StageEvolves(b.tasks[t].stages[s], c.tasks[t].stages[s], plain);
      }
    }
  }

  /** Rewriting one attempt row, or only the columns of its stage. */
  lemma OneRow(t: Task, s: nat, a: nat, t': Task, plain: bool := true)
    requires ValidKey(t, s, a) && |t'.stages| == |t.stages| && SameIdentity(t, t')
    requires |t'.stages[s].attempts| == |t.stages[s].attempts|
    requires t'.stages[s].attempts == t.stages[s].attempts[a := t'.stages[s].attempts[a]]
    requires AttemptEvolves(t.stages[s].attempts[a], t'.stages[s].attempts[a], plain)
    requires forall i :: 0 <= i < |t.stages| && i != s ==> t'.stages[i].attempts == t.stages[i].attempts
    ensures TaskEvolves(t, t', plain)
  {
    assert forall b :: 0 <= b < |t.stages[s].attempts| && b != a ==> t'.stages[s].attempts[b] == t.stages[s].attempts[b];
  }

  lemma AggregatedEvolves(db: Db)
    requires WellFormed(db)
    ensures Evolves(db, Aggregated(db), true)
  {
  }

  lemma RefreshedEvolves(db: Db)
    requires WellFormed(db)
    ensures Evolves(db, RefreshAll(db), true)
  {
    forall t | 0 <= t < |db.tasks| ensures TaskEvolves(db.tasks[t], RefreshAll(db).tasks[t], true) {
      assert RefreshAll(db).tasks[t] == Refreshed(db.tasks[t]);
    }
  }

  lemma SettledEvolves(db: Db)
    requires WellFormed(db)
    ensures Evolves(db, Aggregated(RefreshAll(db)), true)
  {
    RefreshedEvolves(db);
    AggregatedEvolves(RefreshAll(db));
    EvolvesTransitive(db, RefreshAll(db), Aggregated(RefreshAll(db)));
  }

  lemma TaskReplacedEvolves(db: Db, t: nat, task: Task, plain: bool := true)
    requires t < |db.tasks| && TaskEvolves(db.tasks[t], task, plain)
    ensures Evolves(db, WithTask(db, t, task), plain)
  {
  }

  // ---------------------------------------------------------------- one task

  lemma FailEvolves(t: Task, s: nat, a: nat, now: Time, r: Report, automatic: bool)
    requires |t.stages| == STAGE_COUNT && LeaseOf(t, s, a).Some?
    ensures TaskEvolves(t, FailTask(t, s, a, now, r, automatic), true)
  {
    var t' := FailTask(t, s, a, now, r, automatic);
    if s == IMAGE_EDIT && t.stages[s].attempts[a].candidate.Some? {
      OneRow(t, s, a, t');
    } else {
      FailPlainRows(t, s, a, now, r);
      OneRow(t, s, a, t');
    }
  }

  lemma FailPlainRows(t: Task, s: nat, a: nat, now: Time, r: Report)
    requires |t.stages| == STAGE_COUNT && LeaseOf(t, s, a).Some?
    ensures var t' := FailPlain(t, s, a, now, r);
            && SameIdentity(t, t')
            && |t'.stages[s].attempts| == |t.stages[s].attempts|
            && t'.stages[s].attempts == t.stages[s].attempts[a := t'.stages[s].attempts[a]]
            && AttemptEvolves(t.stages[s].attempts[a], t'.stages[s].attempts[a], true)
            && forall i :: 0 <= i < STAGE_COUNT && i != s ==> t'.stages[i].attempts == t.stages[i].attempts
  {
  }

  lemma FinalizeEvolves(t: Task, s: nat, a: nat, automatic: bool)
    requires |t.stages| == STAGE_COUNT && CanFinalize(t, s, a, None)
    ensures TaskEvolves(t, FinalizedTask(t, s, a, automatic), true)
  {
    OneRow(t, s, a, FinalizedTask(t, s, a, automatic));
  }

  lemma PublishEvolves(t: Task, s: nat, a: nat)
    requires ValidKey(t, s, a) && t.stages[s].attempts[a].commit.Some?
    ensures TaskEvolves(t, PublishedTask(t, s, a), true)
  {
    OneRow(t, s, a, PublishedTask(t, s, a));
  }

  lemma CommitFailedEvolves(t: Task, s: nat, a: nat)
    requires ValidKey(t, s, a) && t.stages[s].attempts[a].commit.Some?
    ensures TaskEvolves(t, CommitFailedTask(t, s, a), true)
  {
  }

  /** Rewriting one stage row. */
  lemma OneStage(t: Task, s: nat, x: Stage)
    requires s < |t.stages| && StageEvolves(t.stages[s], x, true)
    ensures TaskEvolves(t, WithStage(t, s, x), true)
  {
  }

  lemma RevokedEvolves(st: Stage, a: nat, status: AttemptStatus)
    requires a < |st.attempts| && st.attempts[a].lease.Some?
    ensures var x := WithRevokedLeases(st);
            && StageEvolves(st, x, true)
            && StageEvolves(st, WithAttempt(x, a, x.attempts[a].(status := status)), true)
            && StageEvolves(st, WithoutLeases(WithAttempt(x, a, x.attempts[a].(status := status))), true)
  {
  }

  lemma ExpireEvolves(t: Task, s: nat, a: nat, cleanup: bool, first: nat, second: nat)
    requires LeaseOf(t, s, a).Some?
    ensures TaskEvolves(t, ExpiredTask(t, s, a, cleanup, first, second), true)
  {
    RevokedEvolves(t.stages[s], a, InState(Recovering));
    RevokedEvolves(t.stages[s], a, LeaseExpired);
    OneStage(t, s, t.stages[s]);
    OneStage(t, s, ExpiredTask(t, s, a, cleanup, first, second).stages[s]);
  }

  lemma ResolveEvolves(t: Task, item: Item, action: Settlement)
    requires |t.stages| == STAGE_COUNT && HoldsRecovery(t, item)
    ensures TaskEvolves(t, Resolved(t, item, action), true)
  {
    OneRow(t, item.stage, item.attempt, Resolved(t, item, action));
  }

  lemma CancelEvolves(t: Task, outcomes: seq<CancelOutcome>)
    requires |t.stages| == STAGE_COUNT == |outcomes|
    ensures TaskEvolves(t, CanceledTask(t, outcomes), true)
  {
    var t' := CanceledTask(t, outcomes);
    forall i | 0 <= i < STAGE_COUNT ensures StageEvolves(t.stages[i], t'.stages[i], true) {
      assert t'.stages[i] == CanceledStage(t.stages[i], outcomes[i]);
    }
  }

  lemma DecideEvolves(t: Task, attempt: nat, v: Verdict)
    requires |t.stages| == STAGE_COUNT && t.groups != [] && CanDecide(t, attempt, v)
    ensures TaskEvolves(t, DecidedTask(t, attempt, v), true)
  {
  }

  lemma ReconcileOneEvolves(db: Db, k: Key, agree: bool)
    requires WellFormed(db)
    ensures Evolves(db, ReconcileOne(db, k, agree), true)
  {
    if ValidAt(db, k) && db.tasks[k.0].stages[k.1].attempts[k.2].commit.Some? {
      var t := db.tasks[k.0];
      var published := PublishedTask(t, k.1, k.2);
      PublishEvolves(t, k.1, k.2);
      if !agree {
        CommitFailedEvolves(t, k.1, k.2);
        TaskReplacedEvolves(db, k.0, CommitFailedTask(t, k.1, k.2));
      } else if CanFinalize(published, k.1, k.2, None) {
        CompletedEvolves(db, k, published);
      } else if !IsCommitted(published.stages[k.1].attempts[k.2]) {
        TaskReplacedEvolves(db, k.0, published);
        var db1 := WithTask(db, k.0, published);
        CommitFailedEvolves(published, k.1, k.2);
        TaskReplacedEvolves(db1, k.0, CommitFailedTask(published, k.1, k.2));
        EvolvesTransitive(db, db1, WithTask(db1, k.0, CommitFailedTask(published, k.1, k.2)));
      }
    }
  }

  lemma CompletedEvolves(db: Db, k: Key, published: Task)
    requires WellFormed(db) && k.0 < |db.tasks| && TaskEvolves(db.tasks[k.0], published, true)
    requires |published.stages| == STAGE_COUNT && published.groups != [] && CanFinalize(published, k.1, k.2, None)
    ensures Evolves(db, Completed(db, k, published), true)
  {
    var db1 := WithTask(db, k.0, published);
    TaskReplacedEvolves(db, k.0, published);
    var finalized := FinalizedTask(published, k.1, k.2, db.automatic);
    FinalizeEvolves(published, k.1, k.2, db.automatic);
    TaskReplacedEvolves(db1, k.0, finalized);
    var db2 := WithTask(db1, k.0, finalized);
    assert db2 == WithTask(db, k.0, finalized);
    EvolvesTransitive(db, db1, db2);
    SettledEvolves(db2);
    EvolvesTransitive(db, db2, Completed(db, k, published));
  }

  lemma {:induction false} ReconciledEvolves(db: Db, rows: seq<Key>, agree: set<Key>)
    requires WellFormed(db)
    ensures Evolves(db, Reconciled(db, rows, agree), true)
    decreases |rows|
  {
    if rows == [] {
      EvolvesReflexive(db);
    } else {
      var db' := ReconcileOne(db, rows[0], rows[0] in agree);
      ReconcileOneEvolves(db, rows[0], rows[0] in agree);
      ReconciledEvolves(db', rows[1..], agree);
      EvolvesTransitive(db, db', Reconciled(db', rows[1..], agree));
    }
  }

  lemma EvolvesReflexive(db: Db)
    ensures Evolves(db, db, true)
    ensures Evolves(db, db, false)
  {
  }

  lemma {:induction false} ExpireAllEvolves(db: Db, rows: seq<Expiry>)
    requires WellFormed(db)
    ensures Evolves(db, ExpireAll(db, rows), true)
    decreases |rows|
  {
    EvolvesReflexive(db);
    if rows != [] {
      var e := rows[0];
      var db' := ExpireOne(db, e);
      if db' != db {
        ExpireEvolves(db.tasks[e.key.0], e.key.1, e.key.2, e.cleanup, e.first, e.second);
        TaskReplacedEvolves(db, e.key.0, ExpiredTask(db.tasks[e.key.0], e.key.1, e.key.2, e.cleanup, e.first, e.second));
      }
      ExpireAllEvolves(db', rows[1..]);
      EvolvesTransitive(db, db', ExpireAll(db', rows[1..]));
    }
  }

  // ---------------------------------------------------------------- every call but dispatch

  lemma ReplacedSettledEvolves(db: Db, t: nat, task: Task)
    requires WellFormed(db) && t < |db.tasks| && TaskEvolves(db.tasks[t], task, true) && |task.stages| == STAGE_COUNT && task.groups != []
    ensures Evolves(db, Aggregated(RefreshAll(WithTask(db, t, task))), true)
    ensures Evolves(db, Aggregated(WithTask(db, t, task)), true)
  {
    var db1 := WithTask(db, t, task);
    TaskReplacedEvolves(db, t, task);
    SettledEvolves(db1);
    EvolvesTransitive(db, db1, Aggregated(RefreshAll(db1)));
    AggregatedEvolves(db1);
    EvolvesTransitive(db, db1, Aggregated(db1));
  }

  lemma RecoverExpiredEvolves(db: Db, rows: seq<Key>, agree: set<Key>, expired: seq<Expiry>)
    requires WellFormed(db)
    ensures Evolves(db, Aggregated(ExpireAll(Reconciled(db, rows, agree), expired)), true)
  {
    var db1 := Reconciled(db, rows, agree);
    ReconciledEvolves(db, rows, agree);
    ExpireAllEvolves(db1, expired);
    EvolvesTransitive(db, db1, ExpireAll(db1, expired));
    AggregatedEvolves(ExpireAll(db1, expired));
    EvolvesTransitive(db, ExpireAll(db1, expired), Aggregated(ExpireAll(db1, expired)));
  }

  lemma CanceledTasksEvolve(db: Db, selected: set<nat>, outcomes: seq<seq<CancelOutcome>>)
    requires WellFormed(db) && OutcomesShaped(db, outcomes)
    ensures Evolves(db, Aggregated(CanceledTasks(db, selected, outcomes)), true)
  {
    var db1 := CanceledTasks(db, selected, outcomes);
    forall t | 0 <= t < |db.tasks| ensures TaskEvolves(db.tasks[t], db1.tasks[t], true) {
      CancelEvolves(db.tasks[t], outcomes[t]);
    }
    AggregatedEvolves(db1);
    EvolvesTransitive(db, db1, Aggregated(db1));
  }

  predicate Plain(op: Op) {
    !op.Reactivate? && !op.Prepare?
  }

  function AttemptAt(db: Db, k: Key): Option<Attempt> {
    if ValidAt(db, k) then Some(db.tasks[k.0].stages[k.1].attempts[k.2]) else None
  }

  lemma LeaseOpEvolves(t: Task, item: Item, now: Time, boot: nat, seconds: Time)
    requires HoldsLease(t, item, now)
    ensures TaskEvolves(t, MarkedRunning(t, item, now, boot, seconds), true)
    ensures TaskEvolves(t, Heartbeat(t, item, now, seconds), true)
  {
    OneRow(t, item.stage, item.attempt, MarkedRunning(t, item, now, boot, seconds));
    OneRow(t, item.stage, item.attempt, Heartbeat(t, item, now, seconds));
  }

  lemma PrepareEvolves(t: Task, item: Item, now: Time, artifacts: seq<Artifact>)
    requires CanPrepare(t, item, now)
    ensures TaskEvolves(t, PreparedTask(t, item.stage, item.attempt, artifacts), false)
  {
    OneRow(t, item.stage, item.attempt, PreparedTask(t, item.stage, item.attempt, artifacts), false);
  }

  lemma ReactivateEvolves(t: Task, item: Item, now: Time, seconds: Time)
    requires HoldsRecovery(t, item)
    ensures TaskEvolves(t, Reactivated(t, item, now, seconds), false)
  {
    OneRow(t, item.stage, item.attempt, Reactivated(t, item, now, seconds), false);
  }

  lemma RowOpEvolves(db: Db, t: nat, task: Task, db': Db, plain: bool)
    requires t < |db.tasks| && TaskEvolves(db.tasks[t], task, plain)
    requires db' == WithTask(db, t, task) || db' == db
    ensures Evolves(db, db', plain)
  {
    if db' == db {
      EvolvesReflexive(db);
    } else {
      TaskReplacedEvolves(db, t, task, plain);
    }
  }

  lemma HolderOpEvolves(db: Db, op: Op)
    requires WellFormed(db) && (op.MarkRunning? || op.Beat?)
    ensures Evolves(db, Step(db, op), true)
  {
    if OwnsItem(db, op.item, op.now) {
      var t := op.item.task;
      match op
      case MarkRunning(item, now, boot) =>
        LeaseOpEvolves(db.tasks[t], item, now, boot, db.leaseSeconds);
        RowOpEvolves(db, t, MarkedRunning(db.tasks[t], item, now, boot, db.leaseSeconds), Step(db, op), true);
      case Beat(item, now) =>
        LeaseOpEvolves(db.tasks[t], item, now, 0, db.leaseSeconds);
        RowOpEvolves(db, t, Heartbeat(db.tasks[t], item, now, db.leaseSeconds), Step(db, op), true);
    } else {
      EvolvesReflexive(db);
    }
  }

  lemma WorkerOpEvolves(db: Db, op: Op)
    requires WellFormed(db) && (op.MarkRunning? || op.Beat? || op.Prepare? || op.Reactivate?)
    ensures Evolves(db, Step(db, op), Plain(op))
  {
    EvolvesReflexive(db);
    match op
    case MarkRunning(_, _, _) => HolderOpEvolves(db, op);
    case Beat(_, _) => HolderOpEvolves(db, op);
    case Prepare(item, now, artifacts) =>
      if item.task < |db.tasks| && CanPrepare(db.tasks[item.task], item, now) {
        PrepareEvolves(db.tasks[item.task], item, now, artifacts);
        RowOpEvolves(db, item.task, PreparedTask(db.tasks[item.task], item.stage, item.attempt, artifacts), Step(db, op), false);
      }
    case Reactivate(item, now) =>
      if RecoversItem(db, item) {
        ReactivateEvolves(db.tasks[item.task], item, now, db.leaseSeconds);
        RowOpEvolves(db, item.task, Reactivated(db.tasks[item.task], item, now, db.leaseSeconds), Step(db, op), false);
      }
  }

  lemma PrepareTouchesOneRow(db: Db, op: Op, k: Key)
    requires WellFormed(db) && op.Prepare?
    ensures LeaseAt(Step(db, op), k) == LeaseAt(db, k)
    ensures k != (op.item.task, op.item.stage, op.item.attempt) ==> AttemptAt(Step(db, op), k) == AttemptAt(db, k)
  {
  }

  lemma ReactivateTouchesOneLease(db: Db, op: Op, k: Key)
    requires WellFormed(db) && op.Reactivate?
    ensures k != (op.item.task, op.item.stage, op.item.attempt) ==> AttemptAt(Step(db, op), k) == AttemptAt(db, k)
    ensures AttemptAt(db, k).Some? ==> AttemptAt(Step(db, op), k).Some?
                                       && AttemptAt(Step(db, op), k).value.commit == AttemptAt(db, k).value.commit
  {
  }

  lemma ReportOpEvolves(db: Db, op: Op)
    requires WellFormed(db) && (op.Finalize? || op.Fail? || op.Resolve?)
    ensures Evolves(db, Step(db, op), true)
  {
    EvolvesReflexive(db);
    var task := op.item.task;
    match op
    case Finalize(item, now) =>
      if OwnsItem(db, item, now) && CanFinalize(db.tasks[task], item.stage, item.attempt, Some(now)) {
        CompletedEvolves(db, (task, item.stage, item.attempt), db.tasks[task]);
      }
    case Fail(item, now, r) =>
      FailStep(db, item, now, r);
      if OwnsItem(db, item, now) {
        FailEvolves(db.tasks[task], item.stage, item.attempt, now, r, db.automatic);
        FailShape(db.tasks[task], item.stage, item.attempt, now, r, db.automatic);
        ReplacedSettledEvolves(db, task, FailTask(db.tasks[task], item.stage, item.attempt, now, r, db.automatic));
      }
    case Resolve(item, action) =>
      if RecoversItem(db, item) {
        ResolveEvolves(db.tasks[task], item, action);
        ReplacedSettledEvolves(db, task, Resolved(db.tasks[task], item, action));
      }
  }

  /** Only dispatch adds rows; every other call rewrites existing ones in these bounds. */
  lemma StepEvolves(db: Db, op: Op)
    requires WellFormed(db) && !op.LeaseNext?
    ensures Evolves(db, Step(db, op), Plain(op))
  {
    EvolvesReflexive(db);
    match op
    case Start =>
    case Refresh => SettledEvolves(db);
    case MarkRunning(_, _, _) => WorkerOpEvolves(db, op);
    case Beat(_, _) => WorkerOpEvolves(db, op);
    case Prepare(_, _, _) => WorkerOpEvolves(db, op);
    case Reactivate(_, _) => WorkerOpEvolves(db, op);
    case PublishFiles(k) =>
      if ValidAt(db, k) && db.tasks[k.0].stages[k.1].attempts[k.2].commit.Some? {
        PublishEvolves(db.tasks[k.0], k.1, k.2);
        TaskReplacedEvolves(db, k.0, PublishedTask(db.tasks[k.0], k.1, k.2));
      }
    case Finalize(_, _) => ReportOpEvolves(db, op);
    case Fail(_, _, _) => ReportOpEvolves(db, op);
    case Resolve(_, _) => ReportOpEvolves(db, op);
    case Reconcile(rows, agree) => ReconciledEvolves(db, rows, agree);
    case RecoverExpired(rows, agree, _, _, expired) => RecoverExpiredEvolves(db, rows, agree, expired);
    case CancelTasks(selected, outcomes) =>
      if OutcomesShaped(db, outcomes) { CanceledTasksEvolve(db, selected, outcomes); }
    case Decide(t, attempt, verdict) =>
      if t < |db.tasks| && CanDecide(db.tasks[t], attempt, verdict) {
        DecideEvolves(db.tasks[t], attempt, verdict);
        ReplacedSettledEvolves(db, t, DecidedTask(db.tasks[t], attempt, verdict));
      }
  }

  // ---------------------------------------------------------------- dispatch

  predicate SameTaskRows(t: Task, t': Task) {
    && |t'.stages| == |t.stages| && SameIdentity(t, t')
    && forall s :: 0 <= s < |t.stages| ==> t'.stages[s].attempts == t.stages[s].attempts
  }

  predicate SameRows(db: Db, db': Db) {
    && SameSettings(db, db') && db'.nextToken == db.nextToken
    && forall t :: 0 <= t < |db.tasks| ==> SameTaskRows(db.tasks[t], db'.tasks[t])
  }

  /** The one row a successful dispatch appends. */
  predicate RowAdded(t: Task, t': Task, s: nat, lease: Lease, now: Time) {
    && s < |t.stages| && |t'.stages| == |t.stages|
    && t'.project == t.project && t'.generations == t.generations && t'.last == Some(now)
    && (forall i :: 0 <= i < |t.stages| && i != s ==> t'.stages[i].attempts == t.stages[i].attempts)
    && |t'.stages[s].attempts| == |t.stages[s].attempts| + 1
    && t'.stages[s].attempts[..|t.stages[s].attempts|] == t.stages[s].attempts
    && var x := t'.stages[s].attempts[|t.stages[s].attempts|];
       x.lease == Some(lease) && x.commit.None? && x.artifacts == []
  }

  /** A dispatch either hands out one new row, leased with resources that were free, or adds nothing. */
  predicate Dispatches(db: Db, r: Dispatch, capacities: Capacities, now: Time) {
    if r.item.None? then SameRows(db, r.db) else Grants(db, r.db, r.item.value, capacities, now)
  }

  predicate Grants(db: Db, db': Db, k: Item, capacities: Capacities, now: Time) {
    && SameSettings(db, db') && db'.nextToken == db.nextToken + 1
    && k.task < |db.tasks| && k.stage < |db.tasks[k.task].stages|
    && k.attempt == |db.tasks[k.task].stages[k.stage].attempts| && k.token == db.nextToken
    && (forall t :: 0 <= t < |db.tasks| && t != k.task ==> SameTaskRows(db.tasks[t], db'.tasks[t]))
    && var resources := Allocate(db, db.tasks[k.task].project, StageResources(k.stage), capacities);
       resources.Some? && RowAdded(db.tasks[k.task], db'.tasks[k.task], k.stage, FreshLease(db, now, resources.value), now)
  }

  lemma SameHolders(db: Db, db': Db, r: Resource)
    requires SameRows(db, db')
    ensures Holders(db', r) == Holders(db, r)
    ensures forall k: Key :: LeaseAt(db', k) == LeaseAt(db, k)
    ensures forall name :: LabelTaken(db', r, name) <==> LabelTaken(db, r, name)
  {
    forall t: nat, s: nat, a: nat
      ensures t < |db.tasks| ==> LeaseOf(db'.tasks[t], s, a) == LeaseOf(db.tasks[t], s, a)
    {
      if t < |db.tasks| {
        assert SameTaskRows(db.tasks[t], db'.tasks[t]);
      }
    }
    assert forall k: Key :: k in Holders(db', r) <==> k in Holders(db, r);
  }

  lemma {:induction false} SameFreeGpu(db: Db, db': Db, pool: seq<nat>)
    requires SameRows(db, db')
    ensures FreeGpu(db', pool) == FreeGpu(db, pool)
  {
    if pool != [] {
      SameHolders(db, db', RemoteGpu);
      SameFreeGpu(db, db', pool[1..]);
    }
  }

  lemma SameAllocateOne(db: Db, db': Db, project: nat, r: Resource, capacities: Capacities)
    requires SameRows(db, db')
    ensures AllocateOne(db', project, r, capacities) == AllocateOne(db, project, r, capacities)
  {
    SameHolders(db, db', r);
    SameFreeGpu(db, db', PoolPrefix(db, CapacityOf(capacities, r)));
  }

  lemma {:induction false} SameAllocation(db: Db, db': Db, project: nat, resources: seq<Resource>, capacities: Capacities)
    requires SameRows(db, db')
    ensures Allocate(db', project, resources, capacities) == Allocate(db, project, resources, capacities)
  {
    if resources != [] {
      SameAllocateOne(db, db', project, resources[0], capacities);
      SameAllocation(db, db', project, resources[1..], capacities);
    }
  }

  lemma SkippedRows(t: Task, s: nat, now: Time, lease: Lease, automatic: bool)
    requires |t.stages| == STAGE_COUNT && s < STAGE_COUNT && t.groups != []
    ensures var r := TryLease(t, s, now, lease, automatic);
            if r.Skipped? then SameTaskRows(t, r.task)
            else r.attempt == |t.stages[s].attempts| && RowAdded(t, r.task, s, lease, now)
  {
  }

  lemma GrantsThroughSkips(db: Db, mid: Db, db': Db, k: Item, capacities: Capacities, now: Time)
    requires SameRows(db, mid) && Grants(mid, db', k, capacities, now)
    ensures Grants(db, db', k, capacities, now)
  {
    SameAllocation(db, mid, db.tasks[k.task].project, StageResources(k.stage), capacities);
    assert SameTaskRows(db.tasks[k.task], mid.tasks[k.task]);
    forall t | 0 <= t < |db.tasks| && t != k.task ensures SameTaskRows(db.tasks[t], db'.tasks[t]) {
      assert SameTaskRows(db.tasks[t], mid.tasks[t]) && SameTaskRows(mid.tasks[t], db'.tasks[t]);
    }
  }

  lemma {:induction false} ScanDispatches(db: Db, rows: seq<Row>, now: Time, capacities: Capacities)
    requires WellFormed(db) && RowsInRange(db, rows)
    ensures Dispatches(db, Scan(db, rows, now, capacities), capacities, now)
    decreases |rows|
  {
    if rows != [] {
      var t, s := rows[0].task, rows[0].stage;
      var resources := Allocate(db, db.tasks[t].project, StageResources(s), capacities);
      if resources.None? {
        ScanDispatches(db, rows[1..], now, capacities);
      } else {
        var lease := FreshLease(db, now, resources.value);
        SkippedRows(db.tasks[t], s, now, lease, db.automatic);
        var try := TryLease(db.tasks[t], s, now, lease, db.automatic);
        if try.Skipped? {
          TryLeaseShape(db.tasks[t], s, now, lease, db.automatic);
          var mid := WithTask(db, t, try.task);
          ScanDispatches(mid, rows[1..], now, capacities);
          ThroughSkips(db, mid, Scan(mid, rows[1..], now, capacities), capacities, now);
        }
      }
    }
  }

  lemma ThroughSkips(db: Db, mid: Db, r: Dispatch, capacities: Capacities, now: Time)
    requires SameRows(db, mid) && Dispatches(mid, r, capacities, now)
    ensures Dispatches(db, r, capacities, now)
  {
    if r.item.Some? {
      GrantsThroughSkips(db, mid, r.db, r.item.value, capacities, now);
    } else {
      forall t | 0 <= t < |db.tasks| ensures SameTaskRows(db.tasks[t], r.db.tasks[t]) {
        assert SameTaskRows(db.tasks[t], mid.tasks[t]) && SameTaskRows(mid.tasks[t], r.db.tasks[t]);
      }
    }
  }

  /** What a call to lease_next does to the rows. */
  lemma LeaseNextDispatches(db: Db, now: Time, capacities: Capacities, rows: seq<Row>)
    requires WellFormed(db) && RowsInRange(db, rows)
    ensures Dispatches(db, Dispatched(db, now, capacities, rows), capacities, now)
  {
    var mid := RefreshAll(db);
    forall t | 0 <= t < |db.tasks| ensures SameTaskRows(db.tasks[t], mid.tasks[t]) {
      assert mid.tasks[t] == Refreshed(db.tasks[t]);
    }
    ScanDispatches(mid, rows, now, capacities);
    ThroughSkips(db, mid, Dispatched(db, now, capacities, rows), capacities, now);
  }

  // ---------------------------------------------------------------- leases

  lemma EvolvesWeaker(db: Db, db': Db)
    requires Evolves(db, db', true) || Evolves(db, db', false)
    ensures Evolves(db, db', false)
  {
    if Evolves(db, db', true) {
      forall t | 0 <= t < |db.tasks| ensures TaskEvolves(db.tasks[t], db'.tasks[t], false) {
        assert TaskEvolves(db.tasks[t], db'.tasks[t], true);
        forall s | 0 <= s < |db.tasks[t].stages| ensures StageEvolves(db.tasks[t].stages[s], db'.tasks[t].stages[s], false) {
          assert StageEvolves(db.tasks[t].stages[s], db'.tasks[t].stages[s], true);
        }
      }
    }
  }

  lemma LeaseEvolves(db: Db, db': Db, k: Key)
    requires Evolves(db, db', false)
    ensures SameLease(LeaseAt(db, k), LeaseAt(db', k))
  {
    if k.0 < |db.tasks| {
      assert TaskEvolves(db.tasks[k.0], db'.tasks[k.0], false);
      if k.1 < |db.tasks[k.0].stages| {
        assert StageEvolves(db.tasks[k.0].stages[k.1], db'.tasks[k.0].stages[k.1], false);
      }
    }
  }

  lemma SameRowsEvolves(db: Db, db': Db)
    requires SameRows(db, db')
    ensures Evolves(db, db', false)
  {
    forall t | 0 <= t < |db.tasks| ensures TaskEvolves(db.tasks[t], db'.tasks[t], false) {
      assert SameTaskRows(db.tasks[t], db'.tasks[t]);
    }
  }
}
