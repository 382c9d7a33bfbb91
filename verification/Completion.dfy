/** What a refresh and an aggregate update establish: the refresh reaches its fixpoint, a running task can
    always move, a batch that cannot be evaluated closes, and a succeeded batch succeeded everywhere. */
module Completion {
  import opened Tables
  import opened Transitions
  import opened Batch
  import opened Protocol
  import opened ChainShape
  import opened TaskInvariant
  import opened RunInvariant
  import opened Closing
  import opened ClosingRuns

  // ---------------------------------------------------------------- scoped runs

  ghost predicate ScopedRun(db: Db, ops: seq<Op>)
    requires WellFormed(db)
  {
    forall i :: 0 <= i < |ops| ==> Scoped(Run(db, ops[..i]), ops[i])
  }

  lemma PlannedCloses(db: Db)
    requires IsPlanned(db)
    ensures AllClose(db)
  {
    PlannedInv(db);
    forall t | 0 <= t < |db.tasks| ensures Closes(db.tasks[t]) {
      assert IsPlannedTask(db.tasks[t]);
      assert TaskInv(db.tasks[t]);
    }
  }

  lemma {:induction false} RunCloses(db: Db, ops: seq<Op>)
    requires IsPlanned(db) && ScopedRun(db, ops)
    ensures AllClose(Run(db, ops)) && Advances(db, Run(db, ops))
    decreases |ops|
  {
    PlannedCloses(db);
    if ops != [] {
      var n := |ops| - 1;
      forall i | 0 <= i < n ensures Scoped(Run(db, ops[..n][..i]), ops[..n][i]) {
        assert ops[..n][..i] == ops[..i];
      }
      RunCloses(db, ops[..n]);
      StepOnward(Run(db, ops[..n]), ops[n]);
      AdvancesTransitive(db, Run(db, ops[..n]), Run(db, ops));
    }
  }

  // ---------------------------------------------------------------- the refresh loop

  /** What the refresh loop's exit condition says: the only selected stage is a gate without a review. */
  predicate NothingToPromote(t: Task)
    requires |t.stages| == STAGE_COUNT
  {
    forall i :: 0 <= i < STAGE_COUNT && DependencyMet(t, i) ==> i == EDIT_GATE && LatestReview(t.reviews).None?
  }

  lemma StableRound(t: Task)
    requires |t.stages| == STAGE_COUNT
    ensures NothingToPromote(t) <==> RefreshRound(t) == t
  {
    if NothingToPromote(t) {
      assert RefreshRound(t).stages == t.stages;
    } else {
      var i :| 0 <= i < STAGE_COUNT && DependencyMet(t, i) && !(i == EDIT_GATE && LatestReview(t.reviews).None?);
      assert RefreshRound(t).stages[i].state != t.stages[i].state;
    }
  }

  /** Two rounds reach the fixpoint of the loop, from any state. */
  lemma RefreshReachesFixpoint(t: Task)
    requires |t.stages| == STAGE_COUNT
    ensures NothingToPromote(Refreshed(t)) && RefreshRound(Refreshed(t)) == Refreshed(t)
  {
    var t1 := RefreshRound(t);
    var t2 := RefreshRound(t1);
    forall i | 0 <= i < STAGE_COUNT && DependencyMet(t2, i) ensures i == EDIT_GATE && LatestReview(t2.reviews).None? {
      assert t1.stages[i].state.Pending? && t.stages[i].state.Pending?;
      if i > 0 && i - 1 != EDIT_GATE {
        assert t2.stages[i - 1].state.Succeeded? && t1.stages[i - 1].state.Succeeded? && t.stages[i - 1].state.Succeeded?;
      }
    }
    StableRound(t2);
  }

  // ---------------------------------------------------------------- no wedged task

  predicate CanMove(t: Task) {
    exists i :: 0 <= i < |t.stages| && (t.stages[i].state.Ready? || AnyLease(t.stages[i]))
  }

  lemma BusyHoldsLease(t: Task, i: nat)
    requires TaskInv(t) && i < STAGE_COUNT && (Holding(t.stages[i].state) || t.stages[i].state.Recovering?)
    ensures AnyLease(t.stages[i])
  {
    if i != IMAGE_EDIT {
      assert StageOk(t.stages[i]);
    }
  }

  lemma DivertedIsLost(st: seq<Stage>)
    requires |st| == STAGE_COUNT && Diverted(st)
    ensures exists f :: 0 <= f < STAGE_COUNT && LostStage(st[f])
  {
    var f :| 0 <= f < STAGE_COUNT && DivertedAt(st, f);
  }

  predicate Settled(x: StageState) {
    x.Succeeded? || x.Canceled? || x.Pending?
  }

  /** A chain of settled stages with a pending one has a stage that a refresh promotes. */
  lemma PendingIsPromoted(t: Task, p: nat)
    requires Closes(t) && p < STAGE_COUNT && t.stages[p].state.Pending? && !AnyLost(t)
    requires forall i :: 0 <= i < STAGE_COUNT ==> Settled(t.stages[i].state)
    ensures !NothingToPromote(t)
  {
    var f := Frontier(t.stages, 0);
    if Diverted(t.stages) { DivertedIsLost(t.stages); }
    assert !t.stages[f].state.Canceled?;
    if f == EDIT_GATE {
      ReviewExists(t);
    }
    assert DependencyMet(t, f);
  }

  lemma ReviewExists(t: Task)
    requires TaskInv(t) && t.stages[IMAGE_EDIT].state.Succeeded?
    ensures LatestReview(t.reviews).Some?
  {
  }

  /** A running task whose dependencies are refreshed can move: it has a ready stage or one with a lease. */
  lemma RunningTaskMoves(t: Task)
    requires Closes(t) && NothingToPromote(t) && StatusOf(t).TaskRunning?
    ensures CanMove(t)
  {
    if !CanMove(t) {
      forall i | 0 <= i < STAGE_COUNT ensures Settled(t.stages[i].state) {
        if Holding(t.stages[i].state) || t.stages[i].state.Recovering? { BusyHoldsLease(t, i); }
      }
      var p :| 0 <= p < STAGE_COUNT && t.stages[p].state.Pending?;
      PendingIsPromoted(t, p);
    }
  }

  lemma SkipPromotesNothing(t: Task)
    requires Closes(t) && NothingToPromote(t)
    ensures NothingToPromote(SkippedEvaluation(t))
  {
    if t.stages[EVALUATE_ABSOLUTE].state.Ready? {
      ReadyFinalizer(t.stages);
    }
  }

  lemma RefreshedRow(db: Db, t: nat)
    requires WellFormed(db) && t < |db.tasks|
    ensures |Step(db, Refresh).tasks| == |db.tasks|
    ensures var r, t' := Refreshed(db.tasks[t]), Step(db, Refresh).tasks[t];
            exists mid :: (mid == r || mid == SkippedEvaluation(r)) && t' == mid.(status := StatusOf(mid))
  {
    var r := RefreshAll(db);
    assert r.tasks[t] == Refreshed(db.tasks[t]);
    var mid := SkipIncomplete(r).tasks[t];
    assert mid == r.tasks[t] || mid == SkippedEvaluation(r.tasks[t]);
  }

  lemma StatusPromotesNothing(t: Task, status: TaskStatus)
    requires |t.stages| == STAGE_COUNT && NothingToPromote(t)
    ensures NothingToPromote(t.(status := status)) && StatusOf(t.(status := status)) == StatusOf(t)
  {
    forall i | 0 <= i < STAGE_COUNT && DependencyMet(t.(status := status), i)
      ensures i == EDIT_GATE && LatestReview(t.reviews).None?
    {
      assert DependencyMet(t, i);
    }
  }

  lemma SettledRow(t: Task)
    requires Closes(t)
    ensures |Refreshed(t).stages| == STAGE_COUNT && NothingToPromote(Refreshed(t)) && NothingToPromote(SkippedEvaluation(Refreshed(t)))
  {
    RefreshCloses(t);
    RefreshReachesFixpoint(t);
    SkipPromotesNothing(Refreshed(t));
  }

  lemma RefreshedTask(db: Db, t: nat)
    requires WellFormed(db) && t < |db.tasks| && Closes(db.tasks[t])
    ensures |Step(db, Refresh).tasks| == |db.tasks|
    ensures NothingToPromote(Step(db, Refresh).tasks[t])
    ensures Step(db, Refresh).tasks[t].status == StatusOf(Step(db, Refresh).tasks[t])
  {
    RefreshedRow(db, t);
    SettledRow(db.tasks[t]);
    var r := Refreshed(db.tasks[t]);
    StatusPromotesNothing(r, StatusOf(r));
    StatusPromotesNothing(SkippedEvaluation(r), StatusOf(SkippedEvaluation(r)));
  }

  /** No task wedges: after a refresh, on every scoped run, a task whose status is running has a ready
      stage or a stage that holds a lease. */
  lemma NoWedgedTask(db: Db, ops: seq<Op>, t: nat)
    requires IsPlanned(db) && ScopedRun(db, ops) && t < |db.tasks|
    ensures |Step(Run(db, ops), Refresh).tasks| == |db.tasks|
    ensures Step(Run(db, ops), Refresh).tasks[t].status.TaskRunning? ==> CanMove(Step(Run(db, ops), Refresh).tasks[t])
  {
    RunCloses(db, ops);
    var end := Run(db, ops);
    RefreshedTask(end, t);
    SettledOnward(end);
    assert Closes(Step(end, Refresh).tasks[t]);
    if Step(end, Refresh).tasks[t].status.TaskRunning? {
      RunningTaskMoves(Step(end, Refresh).tasks[t]);
    }
  }

  // ---------------------------------------------------------------- batch closing

  predicate ClosedStatus(x: TaskStatus) {
    x.TaskSucceeded? || x.TaskFailed? || x.TaskRejected? || x.TaskCanceled?
  }

  lemma SucceededFinalizer(st: seq<Stage>)
    requires Linked(st) && st[EVALUATE_ABSOLUTE].state.Succeeded?
    ensures forall i :: 0 <= i < STAGE_COUNT ==> st[i].state.Succeeded?
  {
    forall i | 0 <= i < EVALUATE_ABSOLUTE ensures st[i].state.Succeeded? {
      if !Diverted(st) { ActiveMeansSucceeded(st, EVALUATE_ABSOLUTE, i); }
    }
  }

  lemma LostStatus(t: Task)
    requires |t.stages| == STAGE_COUNT && AnyLost(t)
    ensures StatusOf(t).TaskFailed? || StatusOf(t).TaskRejected?
  {
    var i :| 0 <= i < STAGE_COUNT && LostStage(t.stages[i]);
    assert !t.stages[i].state.Succeeded?;
  }

  /** At the evaluation boundary with its finalizer no longer ready, a task has a closed status. */
  lemma BoundaryStatus(t: Task)
    requires Closes(t) && AtBoundary(t)
    ensures ClosedStatus(StatusOf(SkippedEvaluation(t)))
  {
    var x := t.stages[EVALUATE_ABSOLUTE].state;
    if x.Ready? {
      ReadyFinalizer(t.stages);
    } else if x.Succeeded? {
      SucceededFinalizer(t.stages);
    } else if Diverted(t.stages) {
      DivertedIsLost(t.stages);
      LostStatus(t);
    }
  }

  lemma RestatedTask(db: Db, t: nat)
    requires WellFormed(db) && t < |db.tasks| && MustSkip(db)
    ensures Aggregated(db).tasks[t] == SkippedEvaluation(db.tasks[t]).(status := StatusOf(SkippedEvaluation(db.tasks[t])))
  {
  }

  lemma SkipKeepsLost(t: Task)
    requires |t.stages| == STAGE_COUNT && AnyLost(t)
    ensures AnyLost(SkippedEvaluation(t))
  {
    var i :| 0 <= i < STAGE_COUNT && LostStage(t.stages[i]);
    assert LostStage(SkippedEvaluation(t).stages[i]);
  }

  lemma ClosedBatch(db: Db)
    requires AllClose(db) && MustSkip(db)
    ensures Aggregated(db).status.BatchFailed?
    ensures forall t :: 0 <= t < |db.tasks| ==> !Aggregated(db).tasks[t].stages[EVALUATE_ABSOLUTE].state.Ready?
  {
    var db' := Aggregated(db);
    forall t | 0 <= t < |db.tasks|
      ensures ClosedStatus(db'.tasks[t].status)
      ensures AnyLost(db.tasks[t]) ==> db'.tasks[t].status.TaskFailed? || db'.tasks[t].status.TaskRejected?
      ensures !db'.tasks[t].stages[EVALUATE_ABSOLUTE].state.Ready?
    {
      RestatedTask(db, t);
      BoundaryStatus(db.tasks[t]);
      if AnyLost(db.tasks[t]) {
        SkipKeepsLost(db.tasks[t]);
        LostStatus(SkippedEvaluation(db.tasks[t]));
      }
    }
    var u :| 0 <= u < |db.tasks| && AnyLost(db.tasks[u]);
    FailedBatch(db'.tasks, u);
  }

  lemma FailedBatch(tasks: seq<Task>, u: nat)
    requires u < |tasks| && (tasks[u].status.TaskFailed? || tasks[u].status.TaskRejected?)
    requires forall t :: 0 <= t < |tasks| ==> ClosedStatus(tasks[t].status)
    ensures BatchStatusOf(Statuses(tasks)).BatchFailed?
  {
    assert tasks[u].status in Statuses(tasks);
  }

  /** On every scoped run: when every finalizer is ready, succeeded or canceled and some stage is lost, one
      aggregate update leaves no finalizer ready and makes the batch failed. */
  lemma BatchCloses(db: Db, ops: seq<Op>)
    requires IsPlanned(db) && ScopedRun(db, ops) && MustSkip(Run(db, ops))
    ensures var end := Aggregated(Run(db, ops));
            end.status.BatchFailed?
            && forall t :: 0 <= t < |end.tasks| ==> !end.tasks[t].stages[EVALUATE_ABSOLUTE].state.Ready?
  {
    RunCloses(db, ops);
    ClosedBatch(Run(db, ops));
  }

  // ---------------------------------------------------------------- batch success

  lemma SucceededTask(t: Task)
    requires |t.stages| == STAGE_COUNT && StatusOf(t).TaskSucceeded? && !SkipMarked(t.stages[EVALUATE_ABSOLUTE])
    ensures forall i :: 0 <= i < STAGE_COUNT ==> t.stages[i].state.Succeeded?
  {
  }

  lemma SucceededTaskIsNotLost(t: Task)
    requires |t.stages| == STAGE_COUNT && StatusOf(t).TaskSucceeded?
    ensures !AnyLost(t)
  {
    if AnyLost(t) { LostStatus(t); }
  }

  /** On every scoped run: an aggregate update that makes the batch succeeded finds every stage of every
      task succeeded; no skipped evaluation hides in it. */
  lemma SuccessMeansEverything(db: Db, ops: seq<Op>, t: nat, i: nat)
    requires IsPlanned(db) && ScopedRun(db, ops) && Aggregated(Run(db, ops)).status.BatchSucceeded?
    requires t < |db.tasks| && i < STAGE_COUNT
    ensures |Aggregated(Run(db, ops)).tasks| == |db.tasks| && Aggregated(Run(db, ops)).tasks[t].stages[i].state.Succeeded?
  {
    RunCloses(db, ops);
    AggregatedOnward(Run(db, ops));
    var end := Aggregated(Run(db, ops));
    AdvancesTransitive(db, Run(db, ops), end);
    forall u | 0 <= u < |end.tasks| ensures StatusOf(end.tasks[u]).TaskSucceeded? {
      AggregatedStatus(Run(db, ops), u);
    }
    NothingLost(end);
    assert TaskAdvances(db.tasks[t].stages, end.tasks[t].stages, SomeLost(end));
    assert IsPlannedTask(db.tasks[t]);
    SucceededTask(end.tasks[t]);
  }

  lemma AggregatedStatus(db: Db, t: nat)
    requires WellFormed(db) && t < |db.tasks| && Aggregated(db).status.BatchSucceeded?
    ensures StatusOf(Aggregated(db).tasks[t]).TaskSucceeded?
  {
    var end := Aggregated(db);
    assert end.tasks[t].status in Statuses(end.tasks);
  }

  lemma NothingLost(db: Db)
    requires WellFormed(db) && forall u :: 0 <= u < |db.tasks| ==> StatusOf(db.tasks[u]).TaskSucceeded?
    ensures !SomeLost(db)
  {
    forall u | 0 <= u < |db.tasks| ensures !AnyLost(db.tasks[u]) {
      SucceededTaskIsNotLost(db.tasks[u]);
    }
  }
}
