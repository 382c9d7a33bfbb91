/** Handing the result of an execution to the controller, what it leaves in the tables, and what the other calls of
    a worker cannot change about it afterwards. */
module Submissions {
  import opened Tables
  import opened Transitions
  import opened Batch
  import opened Protocol
  import opened TaskInvariant
  import opened RunInvariant
  import opened Evolution
  import opened Controller
  import opened Statuses
  import opened Decisions
  import Reports
  import LeaseCalls
  import Runs

  /** What an execution reports: artifacts, with the state of their files and the time at which they are published,
      or a failure. */
  datatype Execution = Done(artifacts: seq<Artifact>, staged: bool, files: Publication, finished: Time) | Broken(report: Report)

  predicate MayPrepare(db: Db, item: Item, now: Time) {
    item.task < |db.tasks| && CanPrepare(db.tasks[item.task], item, now)
  }

  // ---------------------------------------------------------------- what a success comes to

  /** The attempt has succeeded with exactly these artifacts, and its lease row is gone. */
  predicate CommittedWith(db: Db, k: Key, artifacts: seq<Artifact>) {
    var x := AttemptAt(db, k);
    && x.Some? && x.value.commit == Some(Commit(Committed, artifacts)) && x.value.artifacts == artifacts
    && x.value.status == InState(Succeeded) && x.value.lease.None?
  }

  /** The intent is stored: there is an artifact, the staged files check out, and the lease is held. */
  predicate Recorded(db: Db, item: Item, now: Time, e: Execution) {
    e.Done? && e.artifacts != [] && e.staged && MayPrepare(db, item, now)
  }

  /** And the files are published before the lease runs out. */
  predicate Lands(db: Db, item: Item, now: Time, e: Execution) {
    && Recorded(db, item, now, e) && e.files.FilesPublished?
    && LeaseAt(db, Runs.KeyOf(item)).Some? && e.finished < LeaseAt(db, Runs.KeyOf(item)).value.expiresAt
  }

  /** commit_success call by call: record the intent, mark it published, finalize it. */
  ghost function AfterCommit(db: Db, item: Item, now: Time, e: Execution): (r: Db)
    requires WellFormed(db) && e.Done?
    ensures WellFormed(r)
  {
    if !Recorded(db, item, now, e) then db
    else
      var prepared := Step(db, Op.Prepare(item, now, e.artifacts));
      if !e.files.FilesPublished? then prepared
      else Step(Step(prepared, Op.PublishFiles(Runs.KeyOf(item))), Op.Finalize(item, e.finished))
  }

  /** The item's intent is open, in this state, and its lease as it was. */
  predicate LeftOpen(db: Db, r: Db, item: Item, artifacts: seq<Artifact>, state: CommitState) {
    var k := Runs.KeyOf(item);
    && AttemptAt(r, k).Some? && AttemptAt(r, k).value.commit == Some(Commit(state, artifacts))
    && LeaseAt(r, k).Some? && LeaseAt(r, k) == LeaseAt(db, k) && LeaseAt(r, k).value.token == item.token && !LeaseAt(r, k).value.revoked
    && r.tasks[item.task].stages[item.stage].state.Committing?
  }

  lemma PreparedRow(db: Db, item: Item, now: Time, artifacts: seq<Artifact>)
    requires WellFormed(db) && MayPrepare(db, item, now) && artifacts != []
    ensures LeftOpen(db, Step(db, Op.Prepare(item, now, artifacts)), item, artifacts, Prepared)
  {
    assert LeaseCalls.Current(db, item, now);
    LeaseCalls.PrepareRecords(db, item, now, artifacts);
  }

  lemma PublishedRow(db: Db, p: Db, item: Item, artifacts: seq<Artifact>)
    requires WellFormed(p) && LeftOpen(db, p, item, artifacts, Prepared)
    ensures LeftOpen(db, Step(p, Op.PublishFiles(Runs.KeyOf(item))), item, artifacts, Published)
  {
    var k := Runs.KeyOf(item);
    Runs.PublishMarks(p, k);
    assert Runs.Unmarked(p, k);
    var q := Step(p, Op.PublishFiles(k));
    assert q.tasks[k.0].stages[k.1].(attempts := []) == p.tasks[k.0].stages[k.1].(attempts := []);
  }

  /** Refreshing and restating the batch rewrites no attempt. */
  lemma SettledAttempt(db: Db, k: Key)
    requires WellFormed(db)
    ensures AttemptAt(Aggregated(RefreshAll(db)), k) == AttemptAt(db, k)
  {
    if k.0 < |db.tasks| && k.1 < STAGE_COUNT {
      RestatedTasks(RefreshAll(db), k.0);
      RefreshMeans(db.tasks[k.0], k.1);
      AttemptsUnchanged(db.tasks[k.0].stages[k.1], RefreshAll(db).tasks[k.0].stages[k.1]);
    }
  }

  lemma AttemptsUnchanged(st: Stage, x: Stage)
    requires x.(state := Pending) == st.(state := Pending)
    ensures x.attempts == st.attempts
  {
  }

  lemma FinishedInTime(db: Db, q: Db, item: Item, artifacts: seq<Artifact>, finished: Time)
    requires WellFormed(q) && LeftOpen(db, q, item, artifacts, Published) && finished < LeaseAt(q, Runs.KeyOf(item)).value.expiresAt
    ensures CommittedWith(Step(q, Op.Finalize(item, finished)), Runs.KeyOf(item), artifacts)
  {
    assert OwnsItem(q, item, finished);
    var mid := Reports.SuccessEffect(q, item, finished);
    SettledAttempt(mid, Runs.KeyOf(item));
  }

  lemma FinishedLate(db: Db, q: Db, item: Item, artifacts: seq<Artifact>, finished: Time)
    requires WellFormed(q) && LeftOpen(db, q, item, artifacts, Published) && finished >= LeaseAt(q, Runs.KeyOf(item)).value.expiresAt
    ensures Step(q, Op.Finalize(item, finished)) == q
  {
    LeaseCalls.RefusedWithoutLease(q, item, finished, Op.Finalize(item, finished));
  }

  lemma FinishesExactlyIf(db: Db, q: Db, item: Item, artifacts: seq<Artifact>, finished: Time)
    requires WellFormed(q) && LeftOpen(db, q, item, artifacts, Published)
    ensures OwnsItem(q, item, finished) && CanFinalize(q.tasks[item.task], item.stage, item.attempt, Some(finished))
            <==> finished < LeaseAt(q, Runs.KeyOf(item)).value.expiresAt
  {
  }

  /** An attempt is committed by a submission exactly if the submission lands; a recorded one that does not land
      leaves its intent open, prepared or published, under the lease it had. */
  lemma CommitMeans(db: Db, item: Item, now: Time, e: Execution)
    requires WellFormed(db) && e.Done?
    ensures var end, k := AfterCommit(db, item, now, e), Runs.KeyOf(item);
            && (CommittedWith(end, k, e.artifacts) <==> Lands(db, item, now, e) || CommittedWith(db, k, e.artifacts))
            && (Lands(db, item, now, e) ==> !CommittedWith(db, k, e.artifacts))
            && (Recorded(db, item, now, e) && !Lands(db, item, now, e) ==>
                  LeftOpen(db, end, item, e.artifacts, if e.files.FilesPublished? then Published else Prepared))
  {
    if Recorded(db, item, now, e) {
      var p := Step(db, Op.Prepare(item, now, e.artifacts));
      PreparedRow(db, item, now, e.artifacts);
      if e.files.FilesPublished? {
        var q := Step(p, Op.PublishFiles(Runs.KeyOf(item)));
        PublishedRow(db, p, item, e.artifacts);
        if e.finished < LeaseAt(q, Runs.KeyOf(item)).value.expiresAt {
          FinishedInTime(db, q, item, e.artifacts, e.finished);
        } else {
          FinishedLate(db, q, item, e.artifacts, e.finished);
        }
      }
    }
  }

  // ---------------------------------------------------------------- what stays decided

  lemma InvAttemptOk(db: Db, k: Key)
    requires Inv(db) && AttemptAt(db, k).Some?
    ensures AttemptOk(AttemptAt(db, k).value)
  {
    assert TaskInv(db.tasks[k.0]);
    if k.1 != IMAGE_EDIT {
      assert StageOk(db.tasks[k.0].stages[k.1]);
    }
  }

  /** The attempt is committed, or cannot be committed without another intent or lease. */
  predicate Decided(db: Db, k: Key) {
    AttemptAt(db, k).Some? && (IsCommitted(AttemptAt(db, k).value) || AttemptAt(db, k).value.commit.None? || LeaseAt(db, k).None?)
  }

  /** A decided attempt stays decided: a committed one as it is, another one uncommitted. */
  predicate KeepsFate(db: Db, r: Db, k: Key) {
    Decided(db, k) ==>
      && Decided(r, k)
      && if IsCommitted(AttemptAt(db, k).value) then AttemptAt(r, k) == AttemptAt(db, k) else !IsCommitted(AttemptAt(r, k).value)
  }

  /** Calls that hand back no lease and record no intent but for these attempts. */
  predicate Harmless(op: Op, keys: set<Key>) {
    !op.Reactivate? && (op.Prepare? ==> Runs.KeyOf(op.item) in keys)
  }

  lemma SameAttemptStays(db: Db, op: Op, k: Key)
    requires WellFormed(db) && AttemptAt(db, k).Some? && (op.LeaseNext? || (op.Prepare? && Runs.KeyOf(op.item) != k))
    ensures AttemptAt(Step(db, op), k) == AttemptAt(db, k)
  {
    var r := Step(db, op);
    if op.Prepare? {
      PrepareTouchesOneRow(db, op, k);
    } else if r != db {
      LeaseNextDispatches(db, op.now, op.capacities, op.queue);
      var d := Dispatched(db, op.now, op.capacities, op.queue);
      if d.item.Some? {
        Runs.GrantKeepsRows(db, r, d.item.value, op.capacities, op.now, k);
      } else {
        SameRowsSameAttempts(db, r, k);
      }
    }
  }

  lemma EvolvedAttempt(db: Db, r: Db, k: Key)
    requires Evolves(db, r, true) && AttemptAt(db, k).Some?
    ensures AttemptAt(r, k).Some? && AttemptEvolves(AttemptAt(db, k).value, AttemptAt(r, k).value, true)
  {
    assert TaskEvolves(db.tasks[k.0], r.tasks[k.0], true);
    assert StageEvolves(db.tasks[k.0].stages[k.1], r.tasks[k.0].stages[k.1], true);
  }

  lemma StepKeepsFate(db: Db, op: Op, keys: set<Key>, k: Key)
    requires WellFormed(db) && Inv(db) && Harmless(op, keys) && k !in keys
    ensures KeepsFate(db, Step(db, op), k)
  {
    if Decided(db, k) {
      if op.LeaseNext? || op.Prepare? {
        SameAttemptStays(db, op, k);
      } else {
        StepEvolves(db, op);
        EvolvedAttempt(db, Step(db, op), k);
        InvAttemptOk(db, k);
      }
    }
  }

  /** Attempt rows are never deleted. */
  lemma StepKeepsRows(db: Db, op: Op, k: Key)
    requires WellFormed(db) && AttemptAt(db, k).Some?
    ensures AttemptAt(Step(db, op), k).Some?
  {
    if op.LeaseNext? {
      SameAttemptStays(db, op, k);
    } else {
      StepEvolves(db, op);
      assert TaskEvolves(db.tasks[k.0], Step(db, op).tasks[k.0], Plain(op));
      assert StageEvolves(db.tasks[k.0].stages[k.1], Step(db, op).tasks[k.0].stages[k.1], Plain(op));
    }
  }

  lemma {:induction false} RunKeepsRows(db: Db, ops: seq<Op>, k: Key)
    requires WellFormed(db) && AttemptAt(db, k).Some?
    ensures AttemptAt(Run(db, ops), k).Some?
    decreases |ops|
  {
    if ops != [] {
      RunKeepsRows(db, ops[..|ops| - 1], k);
      StepKeepsRows(Run(db, ops[..|ops| - 1]), ops[|ops| - 1], k);
    }
  }

  lemma NoNewAttempt(db: Db, op: Op, k: Key)
    requires WellFormed(db) && !op.LeaseNext? && AttemptAt(db, k).None?
    ensures AttemptAt(Step(db, op), k).None?
  {
    StepEvolves(db, op);
    if k.0 < |db.tasks| {
      assert TaskEvolves(db.tasks[k.0], Step(db, op).tasks[k.0], Plain(op));
      if k.1 < |db.tasks[k.0].stages| {
        assert StageEvolves(db.tasks[k.0].stages[k.1], Step(db, op).tasks[k.0].stages[k.1], Plain(op));
      }
    }
  }

  lemma GrantedHasNoIntent(db: Db, r: Db, x: Item, capacities: Capacities, now: Time, k: Key)
    requires Grants(db, r, x, capacities, now) && AttemptAt(db, k).None? && AttemptAt(r, k).Some?
    ensures AttemptAt(r, k).value.commit.None?
  {
    assert k.0 < |db.tasks| && k.0 != x.task ==> SameTaskRows(db.tasks[k.0], r.tasks[k.0]);
  }

  lemma SameRowsSameAttempts(db: Db, r: Db, k: Key)
    requires SameRows(db, r)
    ensures AttemptAt(r, k) == AttemptAt(db, k)
  {
    if k.0 < |db.tasks| { assert SameTaskRows(db.tasks[k.0], r.tasks[k.0]); }
  }

  lemma NewAttemptHasNoIntent(db: Db, op: Op, k: Key)
    requires WellFormed(db) && op.LeaseNext? && AttemptAt(db, k).None? && AttemptAt(Step(db, op), k).Some?
    ensures AttemptAt(Step(db, op), k).value.commit.None?
  {
    var r := Step(db, op);
    if r != db {
      LeaseNextDispatches(db, op.now, op.capacities, op.queue);
      var d := Dispatched(db, op.now, op.capacities, op.queue);
      if d.item.Some? {
        GrantedHasNoIntent(db, r, d.item.value, op.capacities, op.now, k);
      } else {
        SameRowsSameAttempts(db, r, k);
      }
    }
  }

  /** Such a call opens no intent but those. */
  lemma StepOpensNone(db: Db, op: Op, keys: set<Key>, k: Key)
    requires WellFormed(db) && Inv(db) && Harmless(op, keys) && k !in keys && Unsettled(Step(db, op), k)
    ensures Unsettled(db, k)
  {
    if AttemptAt(db, k).None? {
      if op.LeaseNext? { NewAttemptHasNoIntent(db, op, k); } else { NoNewAttempt(db, op, k); }
    } else if op.LeaseNext? || op.Prepare? {
      SameAttemptStays(db, op, k);
    } else {
      StepEvolves(db, op);
      EvolvedAttempt(db, Step(db, op), k);
      InvAttemptOk(db, k);
    }
  }

  ghost predicate AllHarmless(ops: seq<Op>, keys: set<Key>) {
    forall i :: 0 <= i < |ops| ==> Harmless(ops[i], keys)
  }

  lemma {:induction false} RunKeepsFate(db: Db, ops: seq<Op>, keys: set<Key>, k: Key)
    requires WellFormed(db) && Inv(db) && AllHarmless(ops, keys) && k !in keys
    ensures Inv(Run(db, ops)) && KeepsFate(db, Run(db, ops), k)
    ensures Unsettled(Run(db, ops), k) ==> Unsettled(db, k)
    decreases |ops|
  {
    if ops != [] {
      var n := |ops| - 1;
      RunKeepsFate(db, ops[..n], keys, k);
      var before := Run(db, ops[..n]);
      StepInv(before, ops[n]);
      StepKeepsFate(before, ops[n], keys, k);
      if Unsettled(Run(db, ops), k) { StepOpensNone(before, ops[n], keys, k); }
    }
  }

  // ---------------------------------------------------------------- the recovery that follows

  /** No intent is waiting to be settled. */
  ghost predicate NothingOpen(db: Db) {
    forall k: Key :: !Unsettled(db, k)
  }

  /** A recovery leaves no intent open. */
  lemma RecoverySettlesAll(db: Db, op: Op)
    requires WellFormed(db) && Inv(db)
    requires op.RecoverExpired? && IsUnsettledList(db, op.rows) && IsExpiredList(Reconciled(db, op.rows, op.agree), op.expired, op.now, op.boot)
    ensures NothingOpen(Step(db, op))
  {
    ReconcileSettlesAll(db, op.rows, op.agree);
    RecoveryStep(db, op.rows, op.agree, op.now, op.boot, op.expired);
    forall q: Key ensures !Unsettled(Step(db, op), q) {
      if Unsettled(Step(db, op), q) { ExpiryOpensNone(Reconciled(db, op.rows, op.agree), op.expired, q); }
    }
  }

  lemma OnlyRow(rows: seq<Key>, k: Key)
    requires rows != [] && forall i :: 0 <= i < |rows| ==> rows[i] == k
    requires forall i, j :: 0 <= i < j < |rows| ==> rows[i] != rows[j]
    ensures rows == [k]
  {
    assert rows[0] == rows[|rows| - 1];
  }

  /** If one intent is open, a recovery settles it: it commits the attempt exactly if its files agree. */
  lemma RecoveryDecidesIntent(db: Db, k: Key, artifacts: seq<Artifact>, op: Op)
    requires WellFormed(db) && Inv(db) && Unsettled(db, k) && (forall q: Key :: q != k ==> !Unsettled(db, q))
    requires AttemptAt(db, k).value.commit.value.artifacts == artifacts && db.tasks[k.0].stages[k.1].state.Committing?
    requires op.RecoverExpired? && IsUnsettledList(db, op.rows) && IsExpiredList(Reconciled(db, op.rows, op.agree), op.expired, op.now, op.boot)
    ensures var r := Step(db, op);
            NothingOpen(r) && Decided(r, k) && (IsCommitted(AttemptAt(r, k).value) <==> k in op.agree)
            && (k in op.agree ==> CommittedWith(r, k, artifacts))
  {
    assert op.rows == [k] by {
      assert k in op.rows;
      forall i | 0 <= i < |op.rows| ensures op.rows[i] == k { assert Unsettled(db, op.rows[i]); }
      OnlyRow(op.rows, k);
    }
    var one := ReconcileOne(db, k, k in op.agree);
    assert Reconciled(db, op.rows, op.agree) == one by {
      assert op.rows[1..] == [];
      assert Reconciled(one, [], op.agree) == one;
    }
    ReconcileDecides(db, k, artifacts, k in op.agree);
    ReconcileSettlesAll(db, op.rows, op.agree);
    RecoveryStep(db, op.rows, op.agree, op.now, op.boot, op.expired);
    ExpiryKeepsFate(one, op.expired, k);
    forall q: Key ensures !Unsettled(Step(db, op), q) {
      if Unsettled(Step(db, op), q) { ExpiryOpensNone(one, op.expired, q); }
    }
  }

  lemma AgreedCommits(db: Db, k: Key, artifacts: seq<Artifact>)
    requires WellFormed(db) && Unsettled(db, k) && AttemptAt(db, k).value.commit.value.artifacts == artifacts
    requires db.tasks[k.0].stages[k.1].state.Committing?
    ensures var published := PublishedTask(db.tasks[k.0], k.1, k.2);
            && CanFinalize(published, k.1, k.2, None)
            && CommittedWith(WithTask(db, k.0, FinalizedTask(published, k.1, k.2, db.automatic)), k, artifacts)
            && ReconcileOne(db, k, true) == Aggregated(RefreshAll(WithTask(db, k.0, FinalizedTask(published, k.1, k.2, db.automatic))))
  {
    var published := PublishedTask(db.tasks[k.0], k.1, k.2);
    assert CanFinalize(published, k.1, k.2, None);
    Reports.FinalizedMeans(published, k.1, k.2, db.automatic);
  }

  lemma ReconcileDecides(db: Db, k: Key, artifacts: seq<Artifact>, agree: bool)
    requires WellFormed(db) && Unsettled(db, k) && AttemptAt(db, k).value.commit.value.artifacts == artifacts
    requires db.tasks[k.0].stages[k.1].state.Committing?
    ensures var r := ReconcileOne(db, k, agree);
            if agree then CommittedWith(r, k, artifacts)
            else AttemptAt(r, k).Some? && !IsCommitted(AttemptAt(r, k).value) && LeaseAt(r, k).None?
  {
    if agree {
      AgreedCommits(db, k, artifacts);
      SettledAttempt(WithTask(db, k.0, FinalizedTask(PublishedTask(db.tasks[k.0], k.1, k.2), k.1, k.2, db.automatic)), k);
    }
  }

  lemma ExpiryEvolves(db: Db, expired: seq<Expiry>)
    requires WellFormed(db)
    ensures Evolves(db, Aggregated(ExpireAll(db, expired)), true)
  {
    ExpireAllEvolves(db, expired);
    AggregatedEvolves(ExpireAll(db, expired));
    EvolvesTransitive(db, ExpireAll(db, expired), Aggregated(ExpireAll(db, expired)));
  }

  lemma ExpiryKeepsFate(db: Db, expired: seq<Expiry>, k: Key)
    requires WellFormed(db) && Inv(db)
    ensures KeepsFate(db, Aggregated(ExpireAll(db, expired)), k)
  {
    if Decided(db, k) {
      ExpiryEvolves(db, expired);
      EvolvedAttempt(db, Aggregated(ExpireAll(db, expired)), k);
      InvAttemptOk(db, k);
    }
  }

  lemma ExpiryOpensNone(db: Db, expired: seq<Expiry>, k: Key)
    requires WellFormed(db) && Inv(db) && Unsettled(Aggregated(ExpireAll(db, expired)), k)
    ensures Unsettled(db, k)
  {
    ExpiryEvolves(db, expired);
    var r := Aggregated(ExpireAll(db, expired));
    assert TaskEvolves(db.tasks[k.0], r.tasks[k.0], true);
    assert StageEvolves(db.tasks[k.0].stages[k.1], r.tasks[k.0].stages[k.1], true);
    InvAttemptOk(db, k);
  }

  /** One intent is open, and its stage is publishing it. */
  ghost predicate OnlyOpen(db: Db, k: Key) {
    Unsettled(db, k) && db.tasks[k.0].stages[k.1].state.Committing? && forall q: Key :: q != k ==> !Unsettled(db, q)
  }

  /** Nothing is left open, and an intent that alone was open has been committed exactly if its files agree. */
  ghost predicate Settles(db: Db, r: Db, agree: set<Key>) {
    && NothingOpen(r)
    && forall k: Key :: OnlyOpen(db, k) ==>
         && Decided(r, k) && (IsCommitted(AttemptAt(r, k).value) <==> k in agree)
         && (k in agree ==> CommittedWith(r, k, AttemptAt(db, k).value.commit.value.artifacts))
  }

  lemma RecoverySettles(db: Db, op: Op)
    requires WellFormed(db) && Inv(db)
    requires op.RecoverExpired? && IsUnsettledList(db, op.rows) && IsExpiredList(Reconciled(db, op.rows, op.agree), op.expired, op.now, op.boot)
    ensures Settles(db, Step(db, op), op.agree)
  {
    RecoverySettlesAll(db, op);
    forall k: Key | OnlyOpen(db, k)
      ensures Decided(Step(db, op), k) && (IsCommitted(AttemptAt(Step(db, op), k).value) <==> k in op.agree)
      ensures k in op.agree ==> CommittedWith(Step(db, op), k, AttemptAt(db, k).value.commit.value.artifacts)
    {
      RecoveryDecidesIntent(db, k, AttemptAt(db, k).value.commit.value.artifacts, op);
    }
  }
}
