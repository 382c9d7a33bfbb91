/** What the calls about one lease do to it: the worker's calls, expiry, the exits from a fenced attempt, and
    cancellation. */
module LeaseCalls {
  import opened Tables
  import opened Transitions
  import opened Batch
  import opened Protocol
  import opened Evolution
  import Runs

  // ---------------------------------------------------------------- the guards

  /** The item's lease row has its token, is not revoked and has not expired. */
  predicate Current(db: Db, item: Item, now: Time) {
    var l := LeaseAt(db, Runs.KeyOf(item));
    l.Some? && l.value.token == item.token && !l.value.revoked && now < l.value.expiresAt
  }

  /** The item's lease row has its token and is revoked, and stage and attempt are being recovered. */
  predicate InRecovery(db: Db, item: Item) {
    var l := LeaseAt(db, Runs.KeyOf(item));
    && l.Some? && l.value.token == item.token && l.value.revoked
    && db.tasks[item.task].stages[item.stage].state == Recovering
    && db.tasks[item.task].stages[item.stage].attempts[item.attempt].status == InState(Recovering)
  }

  /** The calls made with a token do nothing unless the lease is current; the exits from a fenced attempt do nothing
      unless the attempt is fenced. */
  lemma RefusedWithoutLease(db: Db, item: Item, now: Time, op: Op)
    requires WellFormed(db)
    requires match op
             case MarkRunning(x, at, _) => x == item && at == now && !Current(db, item, now)
             case Beat(x, at) => x == item && at == now && !Current(db, item, now)
             case Prepare(x, at, _) => x == item && at == now && !Current(db, item, now)
             case Finalize(x, at) => x == item && at == now && !Current(db, item, now)
             case Fail(x, at, _) => x == item && at == now && !Current(db, item, now)
             case Reactivate(x, _) => x == item && !InRecovery(db, item)
             case Resolve(x, _) => x == item && !InRecovery(db, item)
             case _ => false
    ensures Step(db, op) == db
  {
  }

  // ---------------------------------------------------------------- calls that rewrite one attempt

  /** The tables differ in one attempt and the state and error of its stage. */
  predicate OnlyAttempt(db: Db, r: Db, k: Key, att: Attempt, state: StageState, error: Option<ErrorCode>) {
    && r.(tasks := []) == db.(tasks := []) && |r.tasks| == |db.tasks| && ValidAt(db, k)
    && (forall t :: 0 <= t < |db.tasks| && t != k.0 ==> r.tasks[t] == db.tasks[t])
    && r.tasks[k.0].(stages := []) == db.tasks[k.0].(stages := []) && |r.tasks[k.0].stages| == |db.tasks[k.0].stages|
    && (forall s :: 0 <= s < |db.tasks[k.0].stages| && s != k.1 ==> r.tasks[k.0].stages[s] == db.tasks[k.0].stages[s])
    && r.tasks[k.0].stages[k.1].(attempts := [], state := state, error := error)
       == db.tasks[k.0].stages[k.1].(attempts := [], state := state, error := error)
    && r.tasks[k.0].stages[k.1].state == state && r.tasks[k.0].stages[k.1].error == error
    && r.tasks[k.0].stages[k.1].attempts == db.tasks[k.0].stages[k.1].attempts[k.2 := att]
  }

  /** A heartbeat moves the expiry of the lease and nothing else. */
  lemma HeartbeatRenews(db: Db, item: Item, now: Time)
    requires WellFormed(db) && Current(db, item, now)
    ensures var k, r := Runs.KeyOf(item), Step(db, Op.Beat(item, now));
            && AttemptAt(db, k).Some? && LeaseAt(r, k) == Some(LeaseAt(db, k).value.(expiresAt := now + db.leaseSeconds))
            && OnlyAttempt(db, r, k, AttemptAt(db, k).value.(lease := LeaseAt(r, k)),
                           db.tasks[item.task].stages[item.stage].state, db.tasks[item.task].stages[item.stage].error)
  {
    var st := db.tasks[item.task].stages[item.stage];
    assert OwnsItem(db, item, now);
  }

  /** Starting the process renews the lease, notes the boot it runs under, and puts attempt and stage to work. */
  lemma MarkRunningStarts(db: Db, item: Item, now: Time, boot: nat)
    requires WellFormed(db) && Current(db, item, now)
    ensures var k, r := Runs.KeyOf(item), Step(db, Op.MarkRunning(item, now, boot));
            && AttemptAt(db, k).Some?
            && LeaseAt(r, k) == Some(LeaseAt(db, k).value.(expiresAt := now + db.leaseSeconds, boot := Some(boot)))
            && OnlyAttempt(db, r, k, AttemptAt(db, k).value.(lease := LeaseAt(r, k), status := InState(Running)),
                           Running, db.tasks[item.task].stages[item.stage].error)
  {
    assert OwnsItem(db, item, now);
  }

  /** Recording an intent puts attempt and stage into publication, exactly if there is an artifact and no intent yet. */
  lemma PrepareRecords(db: Db, item: Item, now: Time, artifacts: seq<Artifact>)
    requires WellFormed(db) && Current(db, item, now)
    ensures var k, r := Runs.KeyOf(item), Step(db, Op.Prepare(item, now, artifacts));
            && AttemptAt(db, k).Some?
            && if artifacts == [] || AttemptAt(db, k).value.commit.Some? then r == db
               else OnlyAttempt(db, r, k, AttemptAt(db, k).value.(commit := Some(Commit(Prepared, artifacts)), status := InState(Committing)),
                                Committing, db.tasks[item.task].stages[item.stage].error)
  {
    PrepareStep(db, item, now, artifacts);
  }

  /** Reactivation gives the fenced attempt its own lease back for a full lease time. */
  lemma ReactivationRestores(db: Db, item: Item, now: Time)
    requires WellFormed(db) && InRecovery(db, item) && item.stage != IMAGE_EDIT
    ensures var k, r := Runs.KeyOf(item), Step(db, Op.Reactivate(item, now));
            && AttemptAt(db, k).Some?
            && LeaseAt(r, k) == Some(LeaseAt(db, k).value.(expiresAt := now + db.leaseSeconds, revoked := false))
            && OnlyAttempt(db, r, k, AttemptAt(db, k).value.(lease := LeaseAt(r, k), status := InState(Leased)), Leased, None)
  {
    ReactivateStep(db, item, now);
    assert RecoversItem(db, item);
  }

  // ---------------------------------------------------------------- expiry

  /** The recovery takes up every lease that is not revoked and whose time is over, or whose process was started
      under another boot, and each once. */
  lemma ExpiryFinds(db: Db, rows: seq<Expiry>, now: Time, boot: nat, k: Key)
    requires IsExpiredList(db, rows, now, boot)
    ensures (exists i :: 0 <= i < |rows| && rows[i].key == k) <==>
              var l := LeaseAt(db, k);
              l.Some? && !l.value.revoked && (l.value.expiresAt <= now || (l.value.boot.Some? && l.value.boot != Some(boot)))
    ensures forall i, j :: 0 <= i < |rows| && 0 <= j < |rows| && rows[i].key == rows[j].key ==> i == j
  {
    if LeaseAt(db, k).Some? {
      var l := LeaseAt(db, k).value;
      assert Expired(l, now, boot) <==> !l.revoked && (l.expiresAt <= now || (l.boot.Some? && l.boot.value != boot));
    }
  }

  /** The lease of an expired attempt, the only one of its stage, is revoked. A remote process stage is fenced with
      its lease row. Any other attempt is given up: the stage is ready again exactly if the process is gone and
      attempts are left, and the row is deleted exactly if the process is gone. */
  lemma ExpirySettles(db: Db, e: Expiry)
    requires WellFormed(db) && LeaseAt(db, e.key).Some? && !LeaseAt(db, e.key).value.revoked
    requires e.first == e.key.2 == e.second
    requires forall b :: 0 <= b < |db.tasks[e.key.0].stages[e.key.1].attempts| && b != e.key.2
               ==> db.tasks[e.key.0].stages[e.key.1].attempts[b].lease.None?
    ensures var k, l := e.key, LeaseAt(db, e.key).value;
            var att, st := AttemptAt(db, k).value, db.tasks[k.0].stages[k.1];
            if 4 <= k.1 <= 10 then
              OnlyAttempt(db, ExpireOne(db, e), k, att.(lease := Some(l.(revoked := true)), status := InState(Recovering)),
                          Recovering, Some(DeliveryUnknown))
            else
              OnlyAttempt(db, ExpireOne(db, e), k,
                          att.(lease := if e.cleanup then None else Some(l.(revoked := true)), status := LeaseExpired),
                          if e.cleanup && k.2 + 1 < st.maxAttempts then Ready else FailedTerminal, Some(WorkerLost))
  {
    var k := e.key;
    var st := db.tasks[k.0].stages[k.1];
    var r := ExpireOne(db, e);
    assert r.tasks[k.0] == ExpiredTask(db.tasks[k.0], k.1, k.2, e.cleanup, k.2, k.2);
    var x := r.tasks[k.0].stages[k.1];
    forall b | 0 <= b < |st.attempts| ensures x.attempts[b] == st.attempts[k.2 := x.attempts[k.2]][b] {
    }
  }

  // ---------------------------------------------------------------- resolution and cancellation

  /** The columns of a resolved stage: ready with an attempt left, or failed for good, and its lease row deleted. */
  predicate Ends(st: Stage, x: Stage, a: nat, action: Settlement)
    requires a < |st.attempts|
  {
    var att := st.attempts[a];
    && x.notBefore == 0.0
    && match action
       case RetryAttempt =>
         && x.attempts == st.attempts[a := att.(lease := None, status := FailedRetryable)]
         && x.state.Ready? && x.error == Some(RemoteStoppedRetry)
         && x.maxAttempts >= st.maxAttempts && x.maxAttempts >= a + 2
         && (x.maxAttempts == st.maxAttempts || x.maxAttempts == a + 2)
       case TerminateAttempt =>
         && x.attempts == st.attempts[a := att.(lease := None, status := InState(FailedTerminal))]
         && x.state.FailedTerminal? && x.error == Some(RemoteStoppedTerminal) && x.maxAttempts == st.maxAttempts
  }

  lemma ResolvedEnds(t: Task, item: Item, action: Settlement)
    requires |t.stages| == STAGE_COUNT && HoldsRecovery(t, item)
    ensures |Resolved(t, item, action).stages| == STAGE_COUNT
    ensures Ends(t.stages[item.stage], Resolved(t, item, action).stages[item.stage], item.attempt, action)
  {
  }

  /** A resolution ends the fenced attempt; then the batch is refreshed and restated. */
  lemma ResolutionEnds(db: Db, item: Item, action: Settlement) returns (mid: Db)
    requires WellFormed(db) && InRecovery(db, item) && item.stage != IMAGE_EDIT
    ensures WellFormed(mid) && Step(db, Op.Resolve(item, action)) == Aggregated(RefreshAll(mid)) && |mid.tasks| == |db.tasks|
    ensures forall t :: 0 <= t < |db.tasks| && t != item.task ==> mid.tasks[t] == db.tasks[t]
    ensures Ends(db.tasks[item.task].stages[item.stage], mid.tasks[item.task].stages[item.stage], item.attempt, action)
  {
    assert RecoversItem(db, item);
    ResolveStep(db, item, action);
    ResolvedEnds(db.tasks[item.task], item, action);
    mid := WithTask(db, item.task, Resolved(db.tasks[item.task], item, action));
  }

  /** Some selected task has a remote process stage that is not over and holds a lease row, revoked or not. */
  predicate Occupied(db: Db, selected: set<nat>) {
    exists t, s, a :: 0 <= t < |db.tasks| && t in selected && 4 <= s <= 10 && s < |db.tasks[t].stages|
      && db.tasks[t].stages[s].state !in {Succeeded, FailedTerminal, Rejected, Canceled}
      && 0 <= a < |db.tasks[t].stages[s].attempts| && db.tasks[t].stages[s].attempts[a].lease.Some?
  }

  lemma BlockedExactlyIf(db: Db, selected: set<nat>)
    requires WellFormed(db)
    ensures CancelBlocked(db, selected) <==> Occupied(db, selected)
  {
    if Occupied(db, selected) {
      var t, s, a :| 0 <= t < |db.tasks| && t in selected && 4 <= s <= 10 && s < |db.tasks[t].stages|
        && db.tasks[t].stages[s].state !in {Succeeded, FailedTerminal, Rejected, Canceled}
        && 0 <= a < |db.tasks[t].stages[s].attempts| && db.tasks[t].stages[s].attempts[a].lease.Some?;
      assert RemoteProcessStage(s) && RemoteOccupied(db.tasks[t]);
    }
    if CancelBlocked(db, selected) {
      var t :| 0 <= t < |db.tasks| && t in selected && RemoteOccupied(db.tasks[t]);
      var s, a :| 0 <= s < |db.tasks[t].stages| && 0 <= a < |db.tasks[t].stages[s].attempts|
        && RemoteProcessStage(s) && !Terminal(db.tasks[t].stages[s].state) && db.tasks[t].stages[s].attempts[a].lease.Some?;
      assert db.tasks[t].stages[s].state !in {Succeeded, FailedTerminal, Rejected, Canceled};
    }
  }

  /** A canceled stage: what was over stays; the rest is canceled with every lease revoked. An attempt whose process
      group was confirmed gone is canceled and the stage's lease rows are deleted; one whose group was not is canceled
      too, but the stage has failed and its lease rows stay. */
  predicate StageCanceled(st: Stage, x: Stage, outcome: CancelOutcome) {
    if st.state in {Succeeded, FailedTerminal, Rejected, Canceled} then x == st
    else
      && |x.attempts| == |st.attempts| && x.maxAttempts == st.maxAttempts && x.notBefore == st.notBefore
      && var settled := if !outcome.Unmatched? && outcome.a < |st.attempts| && st.attempts[outcome.a].lease.Some? then outcome.a else -1;
         && (if outcome.Residual? && settled >= 0 then x.state.FailedTerminal? && x.error == Some(CleanupFailed)
             else x.state.Canceled? && x.error == st.error)
         && forall b :: 0 <= b < |st.attempts| ==>
              && x.attempts[b].status == (if b == settled then InState(Canceled) else st.attempts[b].status)
              && x.attempts[b].lease == (if outcome.Cleaned? && settled >= 0 then None else Revoke(st.attempts[b].lease))
              && x.attempts[b].(status := st.attempts[b].status, lease := st.attempts[b].lease) == st.attempts[b]
  }

  lemma CanceledMeans(st: Stage, outcome: CancelOutcome)
    ensures StageCanceled(st, CanceledStage(st, outcome), outcome)
  {
  }

  /** Cancellation is refused while a remote process of a selected task may run; otherwise it cancels the selected
      tasks stage by stage, and the batch is restated. */
  lemma CancellationEffect(db: Db, selected: set<nat>, outcomes: seq<seq<CancelOutcome>>) returns (mid: Db)
    requires WellFormed(db) && OutcomesShaped(db, outcomes)
    ensures Occupied(db, selected) ==> Step(db, Op.CancelTasks(selected, outcomes)) == db
    ensures !Occupied(db, selected) ==>
              && WellFormed(mid) && Step(db, Op.CancelTasks(selected, outcomes)) == Aggregated(mid) && |mid.tasks| == |db.tasks|
              && forall t :: 0 <= t < |db.tasks| ==>
                   if t !in selected then mid.tasks[t] == db.tasks[t]
                   else forall s :: 0 <= s < STAGE_COUNT ==> StageCanceled(db.tasks[t].stages[s], mid.tasks[t].stages[s], outcomes[t][s])
  {
    BlockedExactlyIf(db, selected);
    mid := db;
    if !Occupied(db, selected) {
      CancelStep(db, selected, outcomes);
      mid := CanceledTasks(db, selected, outcomes);
      forall t, s | 0 <= t < |db.tasks| && t in selected && 0 <= s < STAGE_COUNT
        ensures StageCanceled(db.tasks[t].stages[s], mid.tasks[t].stages[s], outcomes[t][s])
      {
        CanceledMeans(db.tasks[t].stages[s], outcomes[t][s]);
      }
    }
  }
}
