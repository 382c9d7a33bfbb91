/** What the result of an attempt does to its rows: a report of failure, and a finalized success. */
module Reports {
  import opened Tables
  import opened Transitions
  import opened Batch
  import opened Protocol
  import opened RunInvariant
  import opened Evolution
  import opened Fairness
  import opened Dispatching
  import opened Statuses
  import opened Decisions

  // ---------------------------------------------------------------- the verdict on a report

  /** The codes of passing troubles. */
  const PASSING := {TransientNetwork, ResourceOom, WorkerCrash, Stalled, Http429, Http503}

  /** The report leaves the next state open: it declares none, or that it may be retried. */
  predicate Open(r: Report) {
    r.status.None? || r.status == Some(StatusRetryable)
  }

  /** Run again: attempts are left, and the report says so, or says nothing and its trouble passes. */
  predicate RunAgain(r: Report, left: bool) {
    left && !r.code.DeliveryUnknown? && (r.status == Some(StatusRetryable) || (r.status.None? && r.code in PASSING))
  }

  predicate RefusedQuality(r: Report, left: bool) {
    r.status == Some(StatusRejected) || (Open(r) && r.code.QualityRejected? && !RunAgain(r, left))
  }

  /** The state a report with completed cleanup puts its attempt in. */
  predicate SettledBy(r: Report, left: bool, x: StageState) {
    && (x.Ready? <==> RunAgain(r, left))
    && (x.WaitingManual? <==> Open(r) && r.code.DeliveryUnknown?)
    && (x.Rejected? <==> RefusedQuality(r, left))
    && (x.Canceled? <==> r.status == Some(StatusCanceled))
    && (x.FailedTerminal? <==>
          r.status == Some(StatusTerminal)
          || (Open(r) && !r.code.DeliveryUnknown? && !r.code.QualityRejected? && !RunAgain(r, left)))
  }

  lemma VerdictMeans(r: Report, left: bool)
    ensures r.cleanup ==> SettledBy(r, left, FailVerdict(r.cleanup, r.status, r.code, left))
    ensures !r.cleanup ==> FailVerdict(r.cleanup, r.status, r.code, left).Recovering?
  {
    match r.status {
      case None =>
      case Some(status) => assert status.StatusRetryable? || status.StatusTerminal? || status.StatusRejected? || status.StatusCanceled?;
    }
  }

  /** Not before the announced pause is over. */
  function PauseEnd(now: Time, r: Report): Time {
    if r.retryAfter.Some? && r.retryAfter.value > 0.0 then now + r.retryAfter.value else now
  }

  /** The item runs no candidate of the image stage. */
  predicate RunsNoCandidate(db: Db, item: Item) {
    ValidAt(db, Runs.KeyOf(item)) && (item.stage != 1 || AttemptAt(db, Runs.KeyOf(item)).value.candidate.None?)
  }

  // ---------------------------------------------------------------- stages without candidates

  /** The columns of the reported stage before the batch is restated. */
  predicate StageReported(st: Stage, x: Stage, a: nat, now: Time, r: Report, left: bool)
    requires a < |st.attempts|
  {
    && |x.attempts| == |st.attempts| && x.maxAttempts == st.maxAttempts && x.error == Some(r.code)
    && (forall b :: 0 <= b < |st.attempts| && b != a ==> x.attempts[b] == st.attempts[b])
    && x.attempts[a].status == InState(x.state)
    && x.attempts[a].commit == st.attempts[a].commit && x.attempts[a].artifacts == st.attempts[a].artifacts
    && (if r.cleanup then SettledBy(r, left, x.state) && x.attempts[a].lease.None?
        else x.state.Recovering? && x.attempts[a].lease.Some? && st.attempts[a].lease.Some?
             && x.attempts[a].lease.value == st.attempts[a].lease.value.(revoked := true))
    && x.notBefore == if r.cleanup && RunAgain(r, left) then PauseEnd(now, r) else 0.0
  }

  /** A remote stage that is lost takes the task to the debug bundle: the stages between and those after the
      transfer are given up if they have not begun, and the bundle becomes ready. */
  predicate Diverts(st: Stage, x: Stage, i: nat, s: nat, code: ErrorCode) {
    if ((s < i < 10) || i >= 12) && (st.state.Pending? || st.state.Ready?)
    then x == st.(state := Canceled, error := Some(UpstreamFailed))
    else if i == 10 && st.state.Pending? then x == st.(state := Ready, error := Some(code))
    else x == st
  }

  lemma PlainReport(t: Task, s: nat, a: nat, now: Time, r: Report)
    requires |t.stages| == STAGE_COUNT && LeaseOf(t, s, a).Some? && (s != 1 || t.stages[s].attempts[a].candidate.None?)
    ensures var x, left := FailPlain(t, s, a, now, r), a + 1 < t.stages[s].maxAttempts;
            && StageReported(t.stages[s], x.stages[s], a, now, r, left)
            && x.(stages := []) == t.(stages := [])
            && forall i :: 0 <= i < STAGE_COUNT && i != s ==>
                 if 4 <= s <= 9 && x.stages[s].state in {FailedTerminal, Rejected} then Diverts(t.stages[i], x.stages[i], i, s, r.code)
                 else x.stages[i] == t.stages[i]
  {
    VerdictMeans(r, a + 1 < t.stages[s].maxAttempts);
  }

  /** The whole report: the stage's rows as reported, the other stages as they were or diverted, the other tasks as
      they were; then the batch is restated. */
  ghost predicate Reported(db: Db, mid: Db, item: Item, now: Time, r: Report)
    requires WellFormed(db) && WellFormed(mid) && ValidAt(db, Runs.KeyOf(item))
  {
    && |mid.tasks| == |db.tasks| && mid.(tasks := []) == db.(tasks := [])
    && (forall t :: 0 <= t < |db.tasks| && t != item.task ==> mid.tasks[t] == db.tasks[t])
    && var t, x := db.tasks[item.task], mid.tasks[item.task];
       && x.(stages := []) == t.(stages := [])
       && StageReported(t.stages[item.stage], x.stages[item.stage], item.attempt, now, r,
                        item.attempt + 1 < t.stages[item.stage].maxAttempts)
       && forall i :: 0 <= i < STAGE_COUNT && i != item.stage ==>
            if 4 <= item.stage <= 9 && x.stages[item.stage].state in {FailedTerminal, Rejected}
            then Diverts(t.stages[i], x.stages[i], i, item.stage, r.code) else x.stages[i] == t.stages[i]
  }

  lemma ReportEffect(db: Db, item: Item, now: Time, r: Report) returns (mid: Db)
    requires WellFormed(db) && OwnsItem(db, item, now) && RunsNoCandidate(db, item)
    ensures WellFormed(mid) && Reported(db, mid, item, now, r) && Step(db, Op.Fail(item, now, r)) == Aggregated(mid)
  {
    FailStep(db, item, now, r);
    FailShape(db.tasks[item.task], item.stage, item.attempt, now, r, db.automatic);
    mid := WithTask(db, item.task, FailTask(db.tasks[item.task], item.stage, item.attempt, now, r, db.automatic));
    PlainReport(db.tasks[item.task], item.stage, item.attempt, now, r);
  }

  /** A clean report of a stage without candidates. The attempt keeps the verdict, the stage has it too unless it is
      a finalizer that nobody needs any more, and the lease is gone. */
  lemma CleanReportSettles(db: Db, item: Item, now: Time, r: Report)
    requires WellFormed(db) && OwnsItem(db, item, now) && RunsNoCandidate(db, item) && r.cleanup
    ensures ValidAt(Step(db, Op.Fail(item, now, r)), Runs.KeyOf(item))
    ensures var st, st' := db.tasks[item.task].stages[item.stage], Step(db, Op.Fail(item, now, r)).tasks[item.task].stages[item.stage];
            var att, left := st'.attempts[item.attempt], item.attempt + 1 < st.maxAttempts;
            && att.status.InState? && SettledBy(r, left, att.status.state) && att.lease.None?
            && (st'.state == att.status.state || (item.stage == 14 && RunAgain(r, left) && EvaluationSkippedAt(st')))
            && st'.notBefore == (if RunAgain(r, left) then PauseEnd(now, r) else 0.0)
  {
    var mid := ReportEffect(db, item, now, r);
    RestatedTasks(mid, item.task);
  }

  /** A report without completed cleanup fences the attempt: its lease row stays, revoked. */
  lemma UncleanReportFences(db: Db, item: Item, now: Time, r: Report)
    requires WellFormed(db) && OwnsItem(db, item, now) && RunsNoCandidate(db, item) && !r.cleanup
    ensures ValidAt(Step(db, Op.Fail(item, now, r)), Runs.KeyOf(item))
    ensures var st' := Step(db, Op.Fail(item, now, r)).tasks[item.task].stages[item.stage];
            && st'.state.Recovering? && st'.attempts[item.attempt].status == InState(Recovering) && st'.error == Some(r.code)
            && LeaseAt(Step(db, Op.Fail(item, now, r)), Runs.KeyOf(item))
               == Some(LeaseAt(db, Runs.KeyOf(item)).value.(revoked := true))
  {
    var mid := ReportEffect(db, item, now, r);
    RestatedTasks(mid, item.task);
  }

  /** A retried stage is not handed out before the pause its report asked for is over. */
  lemma RetryWaits(db: Db, item: Item, now: Time, r: Report, op: Op)
    requires WellFormed(db) && Inv(db) && OwnsItem(db, item, now) && RunsNoCandidate(db, item) && r.cleanup
    requires RunAgain(r, item.attempt + 1 < db.tasks[item.task].stages[item.stage].maxAttempts)
    requires op.LeaseNext? && op.now < PauseEnd(now, r)
    ensures var next := ItemOf(Step(db, Op.Fail(item, now, r)), op);
            next.Some? ==> (next.value.task, next.value.stage) != (item.task, item.stage)
  {
    var after := Step(db, Op.Fail(item, now, r));
    CleanReportSettles(db, item, now, r);
    StepInv(db, Op.Fail(item, now, r));
    if ItemOf(after, op).Some? {
      HandedOutIsDue(after, op);
      RefreshKeepsPause(after, item.task, item.stage);
    }
  }

  lemma RefreshKeepsPause(db: Db, t: nat, s: nat)
    requires WellFormed(db) && t < |db.tasks| && s < STAGE_COUNT
    ensures RefreshAll(db).tasks[t].stages[s].notBefore == db.tasks[t].stages[s].notBefore
  {
    assert RefreshAll(db).tasks[t] == Refreshed(db.tasks[t]);
  }

  // ---------------------------------------------------------------- candidates of the image stage

  /** Nothing of the group is left to come, or enough has been delivered. */
  predicate GroupOver(gens: seq<Gen>, required: nat) {
    CountSucceeded(gens) >= required
    || forall i :: 0 <= i < |gens| ==> !gens[i].status.GenPending? && !gens[i].status.GenRunning? && !gens[i].status.GenRetryable?
  }

  predicate Delivered(gens: seq<Gen>) {
    exists i :: 0 <= i < |gens| && gens[i].status.GenSucceeded?
  }

  /** The newest attempt among the delivered candidates. */
  predicate NewestDelivered(gens: seq<Gen>, a: int) {
    && (exists i :: 0 <= i < |gens| && gens[i].status.GenSucceeded? && gens[i].attempt == a)
    && forall i :: 0 <= i < |gens| && gens[i].status.GenSucceeded? ==> gens[i].attempt <= a
  }

  lemma {:induction false} LatestIsNewest(gens: seq<Gen>)
    ensures forall i :: 0 <= i < |gens| && gens[i].status.GenSucceeded? ==> gens[i].attempt <= LatestSucceeded(gens)
    ensures LatestSucceeded(gens) >= 0 ==> NewestDelivered(gens, LatestSucceeded(gens))
  {
    if gens != [] {
      var n := |gens| - 1;
      LatestIsNewest(gens[..n]);
      forall i | 0 <= i < n ensures gens[..n][i] == gens[i] {}
    }
  }

  /** One row of the group has this status, and `image` says whether it can be selected; the rest stays. */
  predicate OnlyRow(gens: seq<Gen>, x: seq<Gen>, c: nat, status: GenStatus, image: bool) {
    && |x| == |gens| && (forall i :: 0 <= i < |gens| && i != c ==> x[i] == gens[i])
    && (c < |gens| ==> x[c] == gens[c].(status := status, image := image))
  }

  /** Some attempt of the image stage is up for review, decided at once by the policy of an automatic batch. */
  predicate ReviewAdded(t: Task, x: Task, automatic: bool, a: int) {
    a >= 0 && x.reviews == t.reviews + [Review(a, if automatic then AcceptedByPolicy else Undecided)]
  }

  /** The attempt of a reported candidate. */
  predicate CandidateAttempt(st: Stage, x: Stage, a: nat, now: Time, r: Report)
    requires a < |st.attempts| && st.attempts[a].candidate.Some?
  {
    && |x.attempts| == |st.attempts| && (forall b :: 0 <= b < |st.attempts| && b != a ==> x.attempts[b] == st.attempts[b])
    && x.attempts[a].status.InState? && x.error == Some(r.code)
    && var v, left := x.attempts[a].status.state, AttemptsOf(st.attempts, st.attempts[a].candidate.value) < st.maxAttempts;
    && (if r.cleanup then SettledBy(r, left, v) && x.attempts[a].lease.None?
        else v.Recovering? && x.attempts[a].lease == Revoke(st.attempts[a].lease))
    && x.notBefore == if v.Ready? then PauseEnd(now, r) else 0.0
  }

  /** The stage follows the verdict, but a lost candidate does not lose it while the group is open, and once the group
      is over its delivered candidates go to review. */
  ghost predicate StageFollows(t: Task, x: Task, v: StageState, gens: seq<Gen>, automatic: bool)
    requires |x.stages| == STAGE_COUNT
  {
    if !v.FailedTerminal? then x.stages[1].state == v && x.reviews == t.reviews
    else if !GroupOver(gens, t.generations) then x.stages[1].state.Ready? && x.reviews == t.reviews
    else if !Delivered(gens) then x.stages[1].state.FailedTerminal? && x.reviews == t.reviews
    else
      x.stages[1].state.Succeeded?
      && if exists n :: n >= 0 && NewestDelivered(gens, n) then exists n :: NewestDelivered(gens, n) && ReviewAdded(t, x, automatic, n)
         else x.reviews == t.reviews
  }

  /** A candidate's report: its row may be retried or is given up, and the stage follows. */
  ghost predicate CandidateReported(t: Task, x: Task, a: nat, now: Time, r: Report, automatic: bool)
    requires |t.stages| == STAGE_COUNT == |x.stages| && a < |t.stages[1].attempts| && t.stages[1].attempts[a].candidate.Some?
  {
    && CandidateAttempt(t.stages[1], x.stages[1], a, now, r)
    && (forall i :: 0 <= i < STAGE_COUNT && i != 1 ==> x.stages[i] == t.stages[i])
    && var c, v := t.stages[1].attempts[a].candidate.value, x.stages[1].attempts[a].status.state;
    && OnlyRow(GensOf(t, c.group), GensOf(x, c.group), c.index, if v.Ready? then GenRetryable else GenTerminal,
               c.index < |GensOf(t, c.group)| && GensOf(t, c.group)[c.index].image)
    && StageFollows(t, x, v, GensOf(x, c.group), automatic)
  }

  lemma OverMeans(gens: seq<Gen>, required: nat)
    ensures GroupDone(gens, required) <==> GroupOver(gens, required)
    ensures CountSucceeded(gens) > 0 <==> Delivered(gens)
  {
  }

  lemma CandidateAttemptReported(t: Task, a: nat, now: Time, r: Report, automatic: bool)
    requires |t.stages| == STAGE_COUNT && LeaseOf(t, 1, a).Some? && t.stages[1].attempts[a].candidate.Some?
    ensures var st, x := t.stages[1], FailCandidate(t, a, now, r, automatic);
            && CandidateAttempt(st, x.stages[1], a, now, r)
            && (forall i :: 0 <= i < STAGE_COUNT && i != 1 ==> x.stages[i] == t.stages[i])
            && x.stages[1].attempts[a].status
               == InState(FailVerdict(r.cleanup, r.status, r.code, AttemptsOf(st.attempts, st.attempts[a].candidate.value) < st.maxAttempts))
  {
    VerdictMeans(r, AttemptsOf(t.stages[1].attempts, t.stages[1].attempts[a].candidate.value) < t.stages[1].maxAttempts);
  }

  lemma CandidateStageFollows(t: Task, a: nat, now: Time, r: Report, automatic: bool)
    requires |t.stages| == STAGE_COUNT && LeaseOf(t, 1, a).Some? && t.stages[1].attempts[a].candidate.Some?
    ensures var c, x := t.stages[1].attempts[a].candidate.value, FailCandidate(t, a, now, r, automatic);
            var v := FailVerdict(r.cleanup, r.status, r.code, AttemptsOf(t.stages[1].attempts, c) < t.stages[1].maxAttempts);
            && StageFollows(t, x, v, GensOf(x, c.group), automatic)
            && OnlyRow(GensOf(t, c.group), GensOf(x, c.group), c.index, if v.Ready? then GenRetryable else GenTerminal,
                       c.index < |GensOf(t, c.group)| && GensOf(t, c.group)[c.index].image)
  {
    var x := FailCandidate(t, a, now, r, automatic);
    var gens := GensOf(x, t.stages[1].attempts[a].candidate.value.group);
    OverMeans(gens, t.generations);
    LatestIsNewest(gens);
  }

  lemma CandidateReport(t: Task, a: nat, now: Time, r: Report, automatic: bool)
    requires |t.stages| == STAGE_COUNT && LeaseOf(t, 1, a).Some? && t.stages[1].attempts[a].candidate.Some?
    ensures CandidateReported(t, FailCandidate(t, a, now, r, automatic), a, now, r, automatic)
  {
    CandidateAttemptReported(t, a, now, r, automatic);
    CandidateStageFollows(t, a, now, r, automatic);
  }

  /** The whole report on a candidate; the batch is restated afterwards. */
  lemma CandidateReportEffect(db: Db, item: Item, now: Time, r: Report) returns (mid: Db)
    requires WellFormed(db) && OwnsItem(db, item, now) && !RunsNoCandidate(db, item)
    ensures WellFormed(mid) && |mid.tasks| == |db.tasks| && Step(db, Op.Fail(item, now, r)) == Aggregated(mid)
    ensures forall t :: 0 <= t < |db.tasks| && t != item.task ==> mid.tasks[t] == db.tasks[t]
    ensures CandidateReported(db.tasks[item.task], mid.tasks[item.task], item.attempt, now, r, db.automatic)
  {
    FailStep(db, item, now, r);
    FailShape(db.tasks[item.task], item.stage, item.attempt, now, r, db.automatic);
    mid := WithTask(db, item.task, FailTask(db.tasks[item.task], item.stage, item.attempt, now, r, db.automatic));
    CandidateReport(db.tasks[item.task], item.attempt, now, r, db.automatic);
  }

  // ---------------------------------------------------------------- success

  /** The attempt's rows after its intent is settled as a success. */
  predicate AttemptSucceeds(x: Attempt, y: Attempt)
    requires x.commit.Some?
  {
    && y.status == InState(Succeeded) && y.lease.None? && y.candidate == x.candidate
    && y.artifacts == x.commit.value.artifacts && y.commit == Some(Commit(Committed, x.commit.value.artifacts))
  }

  /** A success of a stage without candidates ends the stage. A delivered candidate can be selected exactly if it
      brought an image, and ends the stage, with a review of this attempt, exactly if the group is over. */
  predicate Succeeds(t: Task, x: Task, s: nat, a: nat, automatic: bool)
    requires |t.stages| == STAGE_COUNT == |x.stages| && ValidKey(t, s, a) && t.stages[s].attempts[a].commit.Some?
  {
    var att, st, x1 := t.stages[s].attempts[a], t.stages[s], x.stages[s];
    && |x1.attempts| == |st.attempts| && AttemptSucceeds(att, x1.attempts[a]) && x1.error.None?
    && (forall b :: 0 <= b < |st.attempts| && b != a ==> x1.attempts[b] == st.attempts[b])
    && (forall i :: 0 <= i < STAGE_COUNT && i != s ==> x.stages[i] == t.stages[i])
    && if s == 1 && att.candidate.Some? then
         var gens, gens' := GensOf(t, att.candidate.value.group), GensOf(x, att.candidate.value.group);
         && OnlyRow(gens, gens', att.candidate.value.index, GenSucceeded,
                    exists j :: 0 <= j < |att.commit.value.artifacts| && att.commit.value.artifacts[j].kind.EditedImage?)
         && (if GroupOver(gens', t.generations) then x1.state.Succeeded? && ReviewAdded(t, x, automatic, a)
             else x1.state.Ready? && x.reviews == t.reviews)
       else x1.state.Succeeded? && x.groups == t.groups && if s == 1 then ReviewAdded(t, x, automatic, a) else x.reviews == t.reviews
  }

  lemma CandidateFinalizedMeans(t: Task, a: nat, automatic: bool)
    requires |t.stages| == STAGE_COUNT && CanFinalize(t, 1, a, None) && t.stages[1].attempts[a].candidate.Some?
    ensures Succeeds(t, FinalizedTask(t, 1, a, automatic), 1, a, automatic)
  {
    var att := t.stages[1].attempts[a];
    var x := FinalizedTask(t, 1, a, automatic);
    var c := att.candidate.value;
    OverMeans(GensOf(x, c.group), t.generations);
    assert GensOf(x, c.group) == if c.group < |t.groups| then WithGen(t.groups, c, GenSucceeded, HasImage(att.commit.value.artifacts))[c.group] else [];
  }

  lemma FinalizedMeans(t: Task, s: nat, a: nat, automatic: bool)
    requires |t.stages| == STAGE_COUNT && CanFinalize(t, s, a, None)
    ensures Succeeds(t, FinalizedTask(t, s, a, automatic), s, a, automatic)
  {
    if s == 1 && t.stages[s].attempts[a].candidate.Some? { CandidateFinalizedMeans(t, a, automatic); }
  }

  /** A finalization that is not refused; the batch is refreshed and restated afterwards. */
  lemma SuccessEffect(db: Db, item: Item, now: Time) returns (mid: Db)
    requires WellFormed(db) && OwnsItem(db, item, now) && CanFinalize(db.tasks[item.task], item.stage, item.attempt, Some(now))
    ensures WellFormed(mid) && |mid.tasks| == |db.tasks| && Step(db, Op.Finalize(item, now)) == Aggregated(RefreshAll(mid))
    ensures forall t :: 0 <= t < |db.tasks| && t != item.task ==> mid.tasks[t] == db.tasks[t]
    ensures Succeeds(db.tasks[item.task], mid.tasks[item.task], item.stage, item.attempt, db.automatic)
  {
    FinalizeStep(db, item, now);
    mid := WithTask(db, item.task, FinalizedTask(db.tasks[item.task], item.stage, item.attempt, db.automatic));
    FinalizedMeans(db.tasks[item.task], item.stage, item.attempt, db.automatic);
  }

  /** A success of a stage without candidates: the attempt keeps exactly the recorded artifacts and no lease, and the
      next stage, if it was waiting and is not the gate, is ready, or canceled if it is a finalizer nobody needs. */
  lemma SuccessOpensNext(db: Db, item: Item, now: Time)
    requires WellFormed(db) && OwnsItem(db, item, now) && RunsNoCandidate(db, item)
    requires CanFinalize(db.tasks[item.task], item.stage, item.attempt, Some(now))
    ensures ValidAt(Step(db, Op.Finalize(item, now)), Runs.KeyOf(item))
    ensures var t, x := db.tasks[item.task], Step(db, Op.Finalize(item, now)).tasks[item.task];
            && AttemptSucceeds(t.stages[item.stage].attempts[item.attempt], x.stages[item.stage].attempts[item.attempt])
            && x.stages[item.stage].state.Succeeded?
            && (item.stage < 14 && item.stage != 1 && t.stages[item.stage + 1].state.Pending? ==>
                  x.stages[item.stage + 1].state.Ready? || (item.stage == 13 && EvaluationSkippedAt(x.stages[14])))
  {
    var mid := SuccessEffect(db, item, now);
    RestatedTasks(RefreshAll(mid), item.task);
    RefreshMeans(mid.tasks[item.task], item.stage);
    if item.stage < 14 { RefreshMeans(mid.tasks[item.task], item.stage + 1); }
  }
}
