/** Where a fenced token still writes: a run from a planned batch after which publishing marks the intent. */
module LatePublish {
  import opened Tables
  import opened Transitions
  import opened Batch
  import opened Protocol
  import opened Evolution
  import opened Runs
  import opened OneBatch

  /** The cleanup of the first stage's process fails, so its revoked lease row stays. */
  const OUTCOMES: seq<seq<CancelOutcome>> := [seq(STAGE_COUNT, (i: nat) => if i == UNITY_ANCHOR then Residual(0) else Unmatched)]
  const CANCEL := Op.CancelTasks({0}, OUTCOMES)

  const KEY: Key := (0, UNITY_ANCHOR, 0)

  lemma RecordedRow()
    ensures TaskAt(UNITY_ANCHOR, Recorded).stages[UNITY_ANCHOR] == StageAt(UNITY_ANCHOR, Recorded, UNITY_ANCHOR)
    ensures !RemoteOccupied(TaskAt(UNITY_ANCHOR, Recorded))
  {
    var t := TaskAt(UNITY_ANCHOR, Recorded);
    forall s | 0 <= s < STAGE_COUNT ensures t.stages[s] == StageAt(UNITY_ANCHOR, Recorded, s) {}
  }

  lemma CanceledRow()
    ensures var st := CanceledTask(TaskAt(UNITY_ANCHOR, Recorded), OUTCOMES[0]).stages[UNITY_ANCHOR];
            && |st.attempts| == 1 && st.attempts[0].lease == Revoke(Some(LeaseFor(UNITY_ANCHOR)))
            && st.attempts[0].commit == Some(Commit(Prepared, [IMAGE]))
  {
    RecordedRow();
  }

  lemma AggregatedAttempts(db: Db, k: Key)
    requires WellFormed(db)
    ensures AttemptAt(Aggregated(db), k) == AttemptAt(db, k)
    ensures Aggregated(db).nextToken == db.nextToken
  {
  }

  lemma CanceledBatch(db: Db)
    requires db == BatchAt(UNITY_ANCHOR, Recorded)
    ensures WellFormed(db) && OutcomesShaped(db, OUTCOMES) && !CancelBlocked(db, {0})
    ensures CanceledTasks(db, {0}, OUTCOMES).tasks == [CanceledTask(TaskAt(UNITY_ANCHOR, Recorded), OUTCOMES[0])]
  {
    RecordedRow();
  }

  lemma CancelLeaves(db: Db)
    requires db == BatchAt(UNITY_ANCHOR, Recorded)
    ensures WellFormed(db) && Fenced(Step(db, CANCEL), ItemAt(UNITY_ANCHOR)) && Unmarked(Step(db, CANCEL), KEY)
    ensures Step(db, CANCEL).nextToken == db.nextToken
  {
    CanceledBatch(db);
    CancelStep(db, {0}, OUTCOMES);
    CanceledRow();
    var db1 := CanceledTasks(db, {0}, OUTCOMES);
    assert AttemptAt(db1, KEY) == Some(db1.tasks[0].stages[UNITY_ANCHOR].attempts[0]);
    SameRowSameFence(db1, Step(db, CANCEL), db1.tasks[0].stages[UNITY_ANCHOR].attempts[0]);
  }

  lemma SameRowSameFence(db: Db, db': Db, att: Attempt)
    requires WellFormed(db) && db' == Aggregated(db) && AttemptAt(db, KEY) == Some(att)
    requires att.lease == Revoke(Some(LeaseFor(UNITY_ANCHOR))) && att.commit == Some(Commit(Prepared, [IMAGE]))
    ensures Fenced(db', ItemAt(UNITY_ANCHOR)) && Unmarked(db', KEY) && db'.nextToken == db.nextToken
  {
    AggregatedAttempts(db, KEY);
    assert LeaseAt(db', KEY) == att.lease;
  }

  const OPS := [Op.Start, LeaseOp(UNITY_ANCHOR), Op.Prepare(ItemAt(UNITY_ANCHOR), AT, [IMAGE])]

  lemma Records()
    ensures Run(BATCH, OPS) == BatchAt(UNITY_ANCHOR, Recorded)
  {
    BatchIsPlanned();
    LeaseStep(UNITY_ANCHOR);
    RecordStep(UNITY_ANCHOR);
    assert OPS[..2][..1] == OPS[..1] && OPS[..1][..0] == [] && OPS[..3] == OPS;
    assert Run(BATCH, OPS[..1]) == BatchAt(UNITY_ANCHOR, Idle);
    assert Run(BATCH, OPS[..2]) == BatchAt(UNITY_ANCHOR, Held);
  }

  /** From a planned batch: the first stage is leased and has recorded its intent; `cancel` revokes the lease
      and cannot clean up its process; publishing with that token then still marks the intent. */
  lemma FencedTokenPublishes()
    ensures var item, end := ItemAt(UNITY_ANCHOR), Run(BATCH, OPS + [CANCEL]);
            && IsPlanned(BATCH) && OwnsItem(Run(BATCH, OPS), item, AT)
            && item.token < end.nextToken && Fenced(end, item)
            && Step(end, Op.PublishFiles(KeyOf(item))) != end
  {
    BatchIsPlanned();
    Records();
    RecordedRow();
    CancelLeaves(Run(BATCH, OPS));
    assert (OPS + [CANCEL])[..3] == OPS;
    PublishMarks(Run(BATCH, OPS + [CANCEL]), KEY);
  }
}
