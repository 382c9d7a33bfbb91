/** A success that is refused and committed all the same: a run from a planned batch in which the lease runs out
    between the intent and its finalization, and the recovery that follows the refusal commits the attempt. */
module LateCommits {
  import opened Tables
  import opened Batch
  import opened Protocol
  import opened RunInvariant
  import opened Evolution
  import opened Controller
  import opened OneBatch
  import opened LatePublish
  import opened Submissions

  /** The files of the first stage are published after its lease has run out. */
  const LATE: Time := AT + 61.0
  const RESULT := Execution.Done([IMAGE], true, FilesPublished, LATE)

  /** The recovery finds the intent, and afterwards no lease that has expired. */
  const RECOVERY := Op.RecoverExpired([KEY], {KEY}, LATE, 0, [])

  lemma OneLease(k: Key)
    requires LeaseAt(BatchAt(UNITY_ANCHOR, Held), k).Some?
    ensures k == KEY
  {
    assert TaskAt(UNITY_ANCHOR, Held).stages[k.1] == StageAt(UNITY_ANCHOR, Held, k.1);
  }

  lemma HeldItem()
    ensures var db := BatchAt(UNITY_ANCHOR, Held);
            && WellFormed(db) && Submissions.Recorded(db, ItemAt(UNITY_ANCHOR), AT, RESULT) && !Lands(db, ItemAt(UNITY_ANCHOR), AT, RESULT)
            && AttemptAt(db, KEY) == Some(Working(UNITY_ANCHOR, Held))
  {
    assert TaskAt(UNITY_ANCHOR, Held).stages[UNITY_ANCHOR] == StageAt(UNITY_ANCHOR, Held, UNITY_ANCHOR);
  }

  const BEGUN := [Op.Start, LeaseOp(UNITY_ANCHOR)]

  lemma Begins()
    ensures IsPlanned(BATCH) && Run(BATCH, BEGUN) == BatchAt(UNITY_ANCHOR, Held) && Inv(BatchAt(UNITY_ANCHOR, Held))
  {
    BatchIsPlanned();
    LeaseStep(UNITY_ANCHOR);
    assert BEGUN[..1][..0] == [] && BEGUN[..2] == BEGUN;
    assert Run(BATCH, BEGUN[..1]) == BatchAt(UNITY_ANCHOR, Idle);
    RunInv(BATCH, BEGUN);
  }

  /** After the refused submission its intent is the only open one, and the only lease is its own. */
  lemma Refused()
    ensures var db := BatchAt(UNITY_ANCHOR, Held);
            WellFormed(db) && RESULT.Done? && Inv(AfterCommit(db, ItemAt(UNITY_ANCHOR), AT, RESULT))
            && OnlyOpen(AfterCommit(db, ItemAt(UNITY_ANCHOR), AT, RESULT), KEY)
            && AttemptAt(AfterCommit(db, ItemAt(UNITY_ANCHOR), AT, RESULT), KEY).value.commit.value.artifacts == [IMAGE]
            && Evolves(db, AfterCommit(db, ItemAt(UNITY_ANCHOR), AT, RESULT), false)
  {
    var db := BatchAt(UNITY_ANCHOR, Held);
    var item := ItemAt(UNITY_ANCHOR);
    Begins();
    HeldItem();
    CommitMeans(db, item, AT, RESULT);
    CommitEvolves(db, item, AT, RESULT);
    var end := AfterCommit(db, item, AT, RESULT);
    forall k: Key | Unsettled(end, k) ensures k == KEY {
      LeaseEvolves(db, end, k);
      OneLease(k);
    }
  }

  lemma CommitEvolves(db: Db, item: Item, now: Time, e: Execution)
    requires WellFormed(db) && Inv(db) && e.Done?
    ensures Inv(AfterCommit(db, item, now, e)) && Evolves(db, AfterCommit(db, item, now, e), false)
  {
    EvolvesReflexive(db);
    if Submissions.Recorded(db, item, now, e) {
      var p := Step(db, Op.Prepare(item, now, e.artifacts));
      OneOp(db, Op.Prepare(item, now, e.artifacts));
      if e.files.FilesPublished? {
        var q := Step(p, Op.PublishFiles(Runs.KeyOf(item)));
        OneOp(p, Op.PublishFiles(Runs.KeyOf(item)));
        OneOp(q, Op.Finalize(item, e.finished));
        EvolvesTransitive(db, p, q, false);
        EvolvesTransitive(db, q, AfterCommit(db, item, now, e), false);
      }
    }
  }

  lemma OneOp(db: Db, op: Op)
    requires WellFormed(db) && Inv(db) && !op.LeaseNext?
    ensures Inv(Step(db, op)) && Evolves(db, Step(db, op), false)
  {
    StepInv(db, op);
    StepEvolves(db, op);
    EvolvesWeaker(db, Step(db, op));
  }

  lemma RecoverySees(end: Db)
    requires WellFormed(end) && OnlyOpen(end, KEY) && AttemptAt(end, KEY).value.commit.value.artifacts == [IMAGE]
    requires Evolves(BatchAt(UNITY_ANCHOR, Held), end, false)
    ensures IsUnsettledList(end, RECOVERY.rows) && IsExpiredList(Reconciled(end, RECOVERY.rows, RECOVERY.agree), [], LATE, 0)
  {
    var db, r := BatchAt(UNITY_ANCHOR, Held), ReconcileOne(end, KEY, true);
    ReconcileDecides(end, KEY, [IMAGE], true);
    ReconcileOneEvolves(end, KEY, true);
    EvolvesWeaker(end, r);
    EvolvesTransitive(db, end, r, false);
    assert [KEY][1..] == [] && Reconciled(r, [], {KEY}) == r;
    forall k: Key ensures LeaseAt(r, k).None? {
      LeaseEvolves(db, r, k);
      if LeaseAt(db, k).Some? { OneLease(k); }
    }
  }

  /** From a planned batch: the first stage is leased, its success is recorded in time and published too late, and is
      refused for that; the recovery commits the attempt. The batch worker has counted it as failed. */
  lemma RefusedIsCommitted()
    ensures var db, item := Run(BATCH, BEGUN), ItemAt(UNITY_ANCHOR);
            && IsPlanned(BATCH) && OwnsItem(db, item, AT) && Submissions.Recorded(db, item, AT, RESULT) && !Lands(db, item, AT, RESULT)
            && CommittedWith(Step(AfterCommit(db, item, AT, RESULT), RECOVERY), Runs.KeyOf(item), [IMAGE])
  {
    Begins();
    HeldItem();
    Refused();
    var end := AfterCommit(BatchAt(UNITY_ANCHOR, Held), ItemAt(UNITY_ANCHOR), AT, RESULT);
    RecoverySees(end);
    RecoverySettles(end, RECOVERY);
  }
}
