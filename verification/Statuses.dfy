/** What the statuses of tasks and batches say about their stages, after any call that restates them. */
module Statuses {
  import opened Tables
  import opened Transitions
  import opened Batch

  predicate HasStage(t: Task, states: set<StageState>) {
    exists i :: 0 <= i < |t.stages| && t.stages[i].state in states
  }

  /** Only the finalizer is missing, and the controller itself skipped it. */
  predicate OnlySkipped(t: Task)
    requires |t.stages| == STAGE_COUNT
  {
    && (forall i :: 0 <= i < 14 ==> t.stages[i].state.Succeeded?)
    && t.stages[14].state.Canceled? && t.stages[14].error == Some(EvaluationSkipped)
  }

  predicate AllSucceeded(t: Task) {
    forall i :: 0 <= i < |t.stages| ==> t.stages[i].state.Succeeded?
  }

  /** A failure outweighs a rejection, both outweigh what is still to come, and a task is only canceled once
      nothing is left to come. */
  lemma StatusMeans(t: Task)
    requires |t.stages| == STAGE_COUNT
    ensures StatusOf(t).TaskSucceeded? <==> AllSucceeded(t) || OnlySkipped(t)
    ensures StatusOf(t).TaskFailed? <==> HasStage(t, {FailedTerminal})
    ensures StatusOf(t).TaskRejected? <==> HasStage(t, {Rejected}) && !HasStage(t, {FailedTerminal})
    ensures StatusOf(t).TaskCanceled?
            <==> HasStage(t, {Canceled}) && !OnlySkipped(t) && forall i :: 0 <= i < |t.stages| ==> t.stages[i].state in {Succeeded, Canceled}
    ensures StatusOf(t).TaskWaiting? <==> HasStage(t, {WaitingReview, WaitingManual}) && !HasStage(t, {FailedTerminal, Rejected})
    ensures StatusOf(t).TaskRunning?
            <==> !HasStage(t, {FailedTerminal, Rejected, WaitingReview, WaitingManual})
                 && HasStage(t, {Pending, Ready, Leased, Running, Committing, Recovering})
    ensures !StatusOf(t).TaskPending?
  {
    if OnlySkipped(t) {
      forall i | 0 <= i < STAGE_COUNT ensures t.stages[i].state in {Succeeded, Canceled} {
        assert i < 14 || i == 14;
      }
    }
    if (forall i :: 0 <= i < STAGE_COUNT ==> t.stages[i].state.Succeeded? || (i == EVALUATE_ABSOLUTE && EvaluationSkippedAt(t.stages[i]))) {
      assert AllSucceeded(t) || OnlySkipped(t);
    }
  }

  predicate SomeTask(db: Db, statuses: set<TaskStatus>) {
    exists t :: 0 <= t < |db.tasks| && db.tasks[t].status in statuses
  }

  predicate EveryTask(db: Db, statuses: set<TaskStatus>) {
    forall t :: 0 <= t < |db.tasks| ==> db.tasks[t].status in statuses
  }

  /** Every task is at the evaluation and some stage of some task is lost, so the finalizers that are ready will
      never be needed. */
  predicate NothingToEvaluate(db: Db)
    requires WellFormed(db)
  {
    && (exists t, s :: 0 <= t < |db.tasks| && 0 <= s < STAGE_COUNT && db.tasks[t].stages[s].state in {FailedTerminal, Rejected})
    && (forall t :: 0 <= t < |db.tasks| ==> db.tasks[t].stages[14].state in {Ready, Succeeded, Canceled})
  }

  lemma SkipsExactlyIf(db: Db)
    requires WellFormed(db)
    ensures MustSkip(db) <==> NothingToEvaluate(db)
  {
    if NothingToEvaluate(db) {
      var t, s :| 0 <= t < |db.tasks| && 0 <= s < STAGE_COUNT && db.tasks[t].stages[s].state in {FailedTerminal, Rejected};
      assert LostStage(db.tasks[t].stages[s]) && AnyLost(db.tasks[t]);
    }
    if MustSkip(db) {
      var t :| 0 <= t < |db.tasks| && AnyLost(db.tasks[t]);
      var s :| 0 <= s < |db.tasks[t].stages| && LostStage(db.tasks[t].stages[s]);
      assert db.tasks[t].stages[s].state in {FailedTerminal, Rejected};
    }
  }

  /** What a restatement leaves of a stage: everything, except that a ready finalizer is canceled if there is nothing
      to evaluate. */
  function Kept(db: Db, st: Stage, s: nat): Stage
    requires WellFormed(db)
  {
    if s == 14 && st.state.Ready? && NothingToEvaluate(db) then st.(state := Canceled, error := Some(EvaluationSkipped)) else st
  }

  predicate OtherColumnsSame(t: Task, t': Task) {
    t'.(stages := [], status := TaskPending) == t.(stages := [], status := TaskPending)
  }

  /** Every task's status is that of its stages as they are then. */
  lemma RestatedTasks(db: Db, t: nat)
    requires WellFormed(db) && t < |db.tasks|
    ensures var r := Aggregated(db).tasks[t];
            && OtherColumnsSame(db.tasks[t], r) && |r.stages| == STAGE_COUNT && r.status == StatusOf(r)
            && forall s :: 0 <= s < STAGE_COUNT ==> r.stages[s] == Kept(db, db.tasks[t].stages[s], s)
  {
    SkipsExactlyIf(db);
    var skipped := SkipIncomplete(db).tasks[t];
    var r := Aggregated(db).tasks[t];
    assert r == skipped.(status := StatusOf(skipped));
    assert skipped == if MustSkip(db) then SkippedEvaluation(db.tasks[t]) else db.tasks[t];
  }

  /** The batch's status is that of its tasks: succeeded or canceled only with all of them, failed only once none is
      open. */
  lemma BatchStatusMeans(db: Db)
    requires WellFormed(db)
    ensures var r := Aggregated(db);
            && (r.status.BatchSucceeded? <==> r.tasks != [] && EveryTask(r, {TaskSucceeded}))
            && (r.status.BatchCanceled? <==> SomeTask(r, {TaskCanceled}) && EveryTask(r, {TaskSucceeded, TaskCanceled}))
            && (r.status.BatchFailed?
                <==> SomeTask(r, {TaskFailed, TaskRejected}) && EveryTask(r, {TaskSucceeded, TaskFailed, TaskRejected, TaskCanceled}))
            && !r.status.Planned?
  {
    var r := Aggregated(db);
    assert r.status == BatchStatusOf(Statuses(r.tasks));
    StatusesOf(r);
  }

  lemma StatusesOf(r: Db)
    requires r.status == BatchStatusOf(Statuses(r.tasks))
    ensures r.status.BatchSucceeded? <==> r.tasks != [] && EveryTask(r, {TaskSucceeded})
    ensures r.status.BatchCanceled? <==> SomeTask(r, {TaskCanceled}) && EveryTask(r, {TaskSucceeded, TaskCanceled})
    ensures r.status.BatchFailed?
            <==> SomeTask(r, {TaskFailed, TaskRejected}) && EveryTask(r, {TaskSucceeded, TaskFailed, TaskRejected, TaskCanceled})
    ensures !r.status.Planned?
  {
    var all := Statuses(r.tasks);
    StatusFound(r, TaskCanceled);
    StatusFound(r, TaskFailed);
    StatusFound(r, TaskRejected);
    StatusesCover(r, {TaskSucceeded});
    StatusesCover(r, {TaskSucceeded, TaskCanceled});
    StatusesCover(r, {TaskSucceeded, TaskFailed, TaskRejected, TaskCanceled});
    assert r.tasks != [] ==> r.tasks[0].status in all;
    assert all == {TaskSucceeded} <==> all <= {TaskSucceeded} && r.tasks != [];
    EitherFound(r);
  }

  lemma EitherFound(db: Db)
    ensures SomeTask(db, {TaskFailed, TaskRejected}) <==> SomeTask(db, {TaskFailed}) || SomeTask(db, {TaskRejected})
  {
  }

  lemma StatusFound(db: Db, x: TaskStatus)
    ensures x in Statuses(db.tasks) <==> SomeTask(db, {x})
  {
  }

  lemma StatusesCover(db: Db, xs: set<TaskStatus>)
    ensures Statuses(db.tasks) <= xs <==> EveryTask(db, xs)
  {
    if Statuses(db.tasks) <= xs {
      forall t | 0 <= t < |db.tasks| ensures db.tasks[t].status in xs { assert db.tasks[t].status in Statuses(db.tasks); }
    }
  }
}
