/** No task wedges and every batch closes, on runs in which no worker reports a cancellation, no image
    candidate is rejected, no worker uses the controller's own skip code, and no canceled gate is decided. */
module Closing {
  import opened Tables
  import opened Transitions
  import opened Batch
  import opened Protocol
  import opened ChainShape
  import opened TaskInvariant
  import opened TaskSteps
  import opened RecoverySteps
  import opened OperatorSteps

  // ---------------------------------------------------------------- the scope

  predicate ScopedReport(s: nat, r: Report) {
    && (forall mayRetry :: !FailVerdict(r.cleanup, r.status, r.code, mayRetry).Canceled?)
    && (s == IMAGE_EDIT ==> forall mayRetry :: !FailVerdict(r.cleanup, r.status, r.code, mayRetry).Rejected?)
    && !r.code.EvaluationSkipped?
  }

  predicate Scoped(db: Db, op: Op)
    requires WellFormed(db)
  {
    match op
    case Fail(item, _, report) => ScopedReport(item.stage, report)
    case Decide(t, _, _) => t < |db.tasks| ==> !db.tasks[t].stages[EDIT_GATE].state.Canceled?
    case _ => true
  }

  // ---------------------------------------------------------------- the invariant

  /** Outside a diversion everything behind a canceled stage is canceled. */
  predicate TailCanceled(st: seq<Stage>)
    requires |st| == STAGE_COUNT
  {
    forall i, j :: 0 <= i < j < STAGE_COUNT && st[i].state.Canceled? ==> st[j].state.Canceled? || Diverted(st)
  }

  predicate AllTerminal(st: seq<Stage>) {
    forall i :: 0 <= i < |st| ==> Terminal(st[i].state)
  }

  /** Once its finalizer is canceled a task is over, except for the debug bundle of a diversion. */
  predicate FinalizerLast(st: seq<Stage>)
    requires |st| == STAGE_COUNT
  {
    st[EVALUATE_ABSOLUTE].state.Canceled? ==> Diverted(st) || AllTerminal(st)
  }

  predicate SkipMarked(st: Stage) {
    st.error == Some(EvaluationSkipped)
  }

  /** No worker can still write to a finished image stage. */
  predicate ImageSettled(im: Stage) {
    Terminal(im.state) ==> forall a :: 0 <= a < |im.attempts| && im.attempts[a].lease.Some? ==> im.attempts[a].lease.value.revoked
  }

  predicate StagesClose(st: seq<Stage>)
    requires |st| == STAGE_COUNT
  {
    && TailCanceled(st) && FinalizerLast(st)
    && !st[UNITY_ANCHOR].state.Pending?
    && (forall i :: 0 <= i < STAGE_COUNT && SkipMarked(st[i]) ==> st[i].state.Canceled?)
  }

  ghost predicate Closes(t: Task) {
    TaskInv(t) && StagesClose(t.stages) && ImageSettled(t.stages[IMAGE_EDIT])
  }

  // ---------------------------------------------------------------- state-level steps

  predicate SameState(x: Stage, y: Stage) {
    y.state == x.state && (SkipMarked(y) ==> SkipMarked(x))
  }

  predicate KeptStates(st: seq<Stage>, st': seq<Stage>)
    requires |st| == STAGE_COUNT == |st'|
  {
    forall i :: 0 <= i < STAGE_COUNT ==> SameState(st[i], st'[i])
  }

  /** One live stage moved, and was neither canceled nor sent back. */
  predicate MovedAt(st: seq<Stage>, st': seq<Stage>, s: nat)
    requires |st| == STAGE_COUNT == |st'|
  {
    && s < STAGE_COUNT && Live(st[s].state)
    && !st'[s].state.Canceled? && !st'[s].state.Pending? && !SkipMarked(st'[s])
    && forall i :: 0 <= i < STAGE_COUNT && i != s ==> SameState(st[i], st'[i])
  }

  /** A live stage was lost, and the rest diverted. */
  predicate RoutedAt(st: seq<Stage>, st': seq<Stage>, s: nat)
    requires |st| == STAGE_COUNT == |st'|
  {
    && s < STAGE_COUNT && Live(st[s].state) && Lost(st'[s].state) && !SkipMarked(st'[s])
    && (forall i :: 0 <= i < s ==> SameState(st[i], st'[i]))
    && (if MODEL_GENERATION <= s <= SAGS_SEGMENT_VOTE then
          && DivertedAt(st', s)
          && (forall i :: 0 <= i < STAGE_COUNT && SkipMarked(st'[i]) ==> SameState(st[i], st'[i]))
          && Steady(st, st')
        else forall i :: s < i < STAGE_COUNT ==> SameState(st[i], st'[i]))
  }

  /** A lost stage stays lost. */
  predicate LostStays(st: seq<Stage>, st': seq<Stage>) {
    |st| == |st'| && forall i :: 0 <= i < |st| && LostStage(st[i]) ==> LostStage(st'[i])
  }

  /** A lost stage stays lost and no stage is marked as skipped. */
  predicate Steady(st: seq<Stage>, st': seq<Stage>) {
    LostStays(st, st') && forall i :: 0 <= i < |st| && SkipMarked(st'[i]) ==> SkipMarked(st[i])
  }

  lemma DivertedKept(st: seq<Stage>, st': seq<Stage>)
    requires |st| == STAGE_COUNT == |st'| && Diverted(st)
    requires forall i :: 0 <= i < STAGE_COUNT && Terminal(st[i].state) ==> st'[i].state == st[i].state
    ensures Diverted(st')
  {
    var f :| 0 <= f < STAGE_COUNT && DivertedAt(st, f);
    assert DivertedAt(st', f);
  }

  lemma KeptCloses(st: seq<Stage>, st': seq<Stage>)
    requires |st| == STAGE_COUNT == |st'| && StagesClose(st) && KeptStates(st, st')
    ensures StagesClose(st') && Steady(st, st')
  {
    assert forall i :: 0 <= i < STAGE_COUNT ==> SameState(st[i], st'[i]);
    if Diverted(st) {
      DivertedKept(st, st');
    }
  }

  lemma MovedCloses(st: seq<Stage>, st': seq<Stage>, s: nat)
    requires |st| == STAGE_COUNT == |st'| && StagesClose(st) && MovedAt(st, st', s)
    ensures StagesClose(st') && Steady(st, st')
  {
    assert forall i :: 0 <= i < STAGE_COUNT && i != s ==> SameState(st[i], st'[i]);
    if Diverted(st) {
      DivertedKept(st, st');
    }
  }

  lemma RoutedCloses(st: seq<Stage>, st': seq<Stage>, s: nat)
    requires |st| == STAGE_COUNT == |st'| && StagesClose(st) && RoutedAt(st, st', s)
    ensures StagesClose(st') && Steady(st, st')
  {
    if MODEL_GENERATION <= s <= SAGS_SEGMENT_VOTE {
      assert Diverted(st');
    } else {
      assert MovedAt(st, st', s);
      MovedCloses(st, st', s);
    }
  }

  lemma RouteStates(t: Task, s: nat, x: Stage, code: ErrorCode)
    requires |t.stages| == STAGE_COUNT && MODEL_GENERATION <= s <= SAGS_SEGMENT_VOTE && !code.EvaluationSkipped? && Lost(x.state)
    ensures var st' := RouteDebugBundle(WithStage(t, s, x), s, code).stages;
            && st'[s] == x
            && forall i :: 0 <= i < STAGE_COUNT && i != s ==>
                 && (SkipMarked(st'[i]) ==> st'[i] == t.stages[i])
                 && (LostStage(t.stages[i]) ==> st'[i] == t.stages[i])
                 && (i < s ==> st'[i] == t.stages[i])
                 && ((s < i < DEBUG_BUNDLE || DOWNLOAD_RESULTS < i) && !Active(t.stages[i].state) ==> st'[i].state.Canceled?)
  {
  }

  lemma RouteRoutes(t: Task, s: nat, x: Stage, code: ErrorCode)
    requires Linked(t.stages) && s < STAGE_COUNT && Live(t.stages[s].state) && Lost(x.state) && !SkipMarked(x)
    requires !code.EvaluationSkipped?
    ensures RoutedAt(t.stages, RouteDebugBundle(WithStage(t, s, x), s, code).stages, s)
  {
    if MODEL_GENERATION <= s <= SAGS_SEGMENT_VOTE {
      RouteStates(t, s, x, code);
      forall j | s < j < STAGE_COUNT ensures !Active(t.stages[j].state) {
        TailInactive(t.stages, s, j);
      }
    }
  }

  // ---------------------------------------------------------------- calls of workers and recovery

  lemma PlainHeldMoves(t: Task, s: nat, a: nat, t': Task)
    requires Closes(t) && TaskInv(t') && s != IMAGE_EDIT && LeaseOf(t, s, a).Some? && !LeaseOf(t, s, a).value.revoked
    requires t'.stages == t.stages[s := t'.stages[s]]
    requires !t'.stages[s].state.Canceled? && !t'.stages[s].state.Pending?
    requires !SkipMarked(t'.stages[s])
    ensures Closes(t') && Steady(t.stages, t'.stages)
  {
    HeldIsLatest(t, s, a);
    MovedCloses(t.stages, t'.stages, s);
  }

  lemma ImageHeldMoves(t: Task, a: nat, t': Task)
    requires Closes(t) && TaskInv(t') && LeaseOf(t, IMAGE_EDIT, a).Some? && !LeaseOf(t, IMAGE_EDIT, a).value.revoked
    requires t'.stages == t.stages[IMAGE_EDIT := t'.stages[IMAGE_EDIT]]
    requires !t'.stages[IMAGE_EDIT].state.Canceled? && !t'.stages[IMAGE_EDIT].state.Pending?
    requires !SkipMarked(t'.stages[IMAGE_EDIT]) && ImageSettled(t'.stages[IMAGE_EDIT])
    ensures Closes(t') && Steady(t.stages, t'.stages)
  {
    HeldCandidate(t, a);
    MovedCloses(t.stages, t'.stages, IMAGE_EDIT);
  }

  lemma HeldIsUnfinished(t: Task, a: nat)
    requires TaskInv(t) && LeaseOf(t, IMAGE_EDIT, a).Some? && !LeaseOf(t, IMAGE_EDIT, a).value.revoked
    ensures AnyUnfinished(CurrentGens(t.groups))
  {
    HeldCandidate(t, a);
  }

  /** A finished image stage without unfinished candidates has no live lease. */
  lemma FinishedIsSettled(t: Task)
    requires TaskInv(t) && (Terminal(t.stages[IMAGE_EDIT].state) ==> !AnyUnfinished(CurrentGens(t.groups)))
    ensures ImageSettled(t.stages[IMAGE_EDIT])
  {
    var im := t.stages[IMAGE_EDIT];
    forall a | 0 <= a < |im.attempts| && im.attempts[a].lease.Some? && !im.attempts[a].lease.value.revoked
      ensures AnyUnfinished(CurrentGens(t.groups))
    {
      HeldIsUnfinished(t, a);
    }
  }

  // ---------------------------------------------------------------- worker reports

  lemma MarkCloses(t: Task, item: Item, now: Time, boot: nat, seconds: Time)
    requires Closes(t) && HoldsLease(t, item, now)
    ensures Closes(MarkedRunning(t, item, now, boot, seconds)) && Steady(t.stages, MarkedRunning(t, item, now, boot, seconds).stages)
  {
    var t' := MarkedRunning(t, item, now, boot, seconds);
    MarkRunningKeeps(t, item, now, boot, seconds);
    HeldStage(t, item.stage, item.attempt);
    if item.stage == IMAGE_EDIT {
      FinishedIsSettled(t');
      ImageHeldMoves(t, item.attempt, t');
    } else {
      PlainHeldMoves(t, item.stage, item.attempt, t');
    }
  }

  /** A stage that a worker holds is live, so it carries no skip mark. */
  lemma HeldStage(t: Task, s: nat, a: nat)
    requires Closes(t) && LeaseOf(t, s, a).Some? && !LeaseOf(t, s, a).value.revoked
    ensures s < STAGE_COUNT && Live(t.stages[s].state) && !SkipMarked(t.stages[s])
  {
    if s == IMAGE_EDIT { HeldCandidate(t, a); } else { HeldIsLatest(t, s, a); }
  }

  lemma BeatStates(t: Task, item: Item, now: Time, seconds: Time)
    requires |t.stages| == STAGE_COUNT && StagesClose(t.stages) && ImageSettled(t.stages[IMAGE_EDIT])
    requires HoldsLease(t, item, now) && Live(t.stages[item.stage].state)
    ensures var t' := Heartbeat(t, item, now, seconds);
            && |t'.stages| == STAGE_COUNT && StagesClose(t'.stages) && Steady(t.stages, t'.stages)
            && ImageSettled(t'.stages[IMAGE_EDIT])
  {
    KeptCloses(t.stages, Heartbeat(t, item, now, seconds).stages);
  }

  lemma BeatCloses(t: Task, item: Item, now: Time, seconds: Time)
    requires Closes(t) && HoldsLease(t, item, now)
    ensures Closes(Heartbeat(t, item, now, seconds)) && Steady(t.stages, Heartbeat(t, item, now, seconds).stages)
  {
    HeartbeatKeeps(t, item, now, seconds);
    HeldStage(t, item.stage, item.attempt);
    BeatStates(t, item, now, seconds);
  }

  lemma PrepareCloses(t: Task, item: Item, now: Time, artifacts: seq<Artifact>)
    requires Closes(t) && CanPrepare(t, item, now)
    ensures Closes(PreparedTask(t, item.stage, item.attempt, artifacts)) && Steady(t.stages, PreparedTask(t, item.stage, item.attempt, artifacts).stages)
  {
    var t' := PreparedTask(t, item.stage, item.attempt, artifacts);
    PrepareKeeps(t, item, now, artifacts);
    HeldStage(t, item.stage, item.attempt);
    if item.stage == IMAGE_EDIT {
      ImageHeldMoves(t, item.attempt, t');
    } else {
      PlainHeldMoves(t, item.stage, item.attempt, t');
    }
  }

  lemma PublishedStates(t: Task, s: nat, a: nat)
    requires |t.stages| == STAGE_COUNT && ValidKey(t, s, a) && t.stages[s].attempts[a].commit.Some?
    ensures |PublishedTask(t, s, a).stages| == STAGE_COUNT && KeptStates(t.stages, PublishedTask(t, s, a).stages)
  {
  }

  lemma PublishCloses(t: Task, s: nat, a: nat)
    requires Closes(t) && ValidKey(t, s, a) && t.stages[s].attempts[a].commit.Some?
    ensures Closes(PublishedTask(t, s, a)) && Steady(t.stages, PublishedTask(t, s, a).stages)
  {
    PublishKeeps(t, s, a);
    PublishedStates(t, s, a);
    KeptCloses(t.stages, PublishedTask(t, s, a).stages);
  }

  lemma FinalizedStates(t: Task, s: nat, a: nat, automatic: bool)
    requires |t.stages| == STAGE_COUNT && CanFinalize(t, s, a, None)
    ensures var t' := FinalizedTask(t, s, a, automatic);
            && t'.stages == t.stages[s := t'.stages[s]] && (t'.stages[s].state.Succeeded? || t'.stages[s].state.Ready?)
            && !SkipMarked(t'.stages[s])
  {
  }

  lemma FinalizeCloses(t: Task, s: nat, a: nat, automatic: bool)
    requires Closes(t) && CanFinalize(t, s, a, None)
    ensures Closes(FinalizedTask(t, s, a, automatic)) && Steady(t.stages, FinalizedTask(t, s, a, automatic).stages)
  {
    var t' := FinalizedTask(t, s, a, automatic);
    FinalizeKeeps(t, s, a, automatic);
    FinalizedStates(t, s, a, automatic);
    if s == IMAGE_EDIT {
      FinishedIsSettled(t');
      ImageHeldMoves(t, a, t');
    } else {
      PlainHeldMoves(t, s, a, t');
    }
  }

  lemma FailPlainStates(t: Task, s: nat, a: nat, now: Time, r: Report)
    requires Linked(t.stages) && StagesClose(t.stages) && ScopedReport(s, r)
    requires s != IMAGE_EDIT && LeaseOf(t, s, a).Some? && s < STAGE_COUNT && Live(t.stages[s].state)
    ensures StagesClose(FailPlain(t, s, a, now, r).stages) && Steady(t.stages, FailPlain(t, s, a, now, r).stages)
  {
    var st := t.stages[s];
    var verdict := FailVerdict(r.cleanup, r.status, r.code, MayRetry(t, s, a));
    var att := st.attempts[a].(status := InState(verdict), lease := Released(st.attempts[a], r.cleanup));
    var x := WithAttempt(st, a, att).(state := verdict,
      notBefore := if verdict.Ready? then Backoff(now, r.retryAfter) else 0.0, error := Some(r.code));
    if Lost(verdict) {
      RouteRoutes(t, s, x, r.code);
      RoutedCloses(t.stages, FailPlain(t, s, a, now, r).stages, s);
    } else {
      MovedCloses(t.stages, WithStage(t, s, x).stages, s);
    }
  }

  lemma FailPlainImage(t: Task, s: nat, a: nat, now: Time, r: Report)
    requires |t.stages| == STAGE_COUNT && s != IMAGE_EDIT && LeaseOf(t, s, a).Some?
    ensures FailPlain(t, s, a, now, r).stages[IMAGE_EDIT].attempts == t.stages[IMAGE_EDIT].attempts
    ensures s > IMAGE_EDIT ==> FailPlain(t, s, a, now, r).stages[IMAGE_EDIT].state == t.stages[IMAGE_EDIT].state
    ensures s == UNITY_ANCHOR ==> FailPlain(t, s, a, now, r).stages[IMAGE_EDIT].state == t.stages[IMAGE_EDIT].state
  {
  }

  lemma FailPlainCloses(t: Task, s: nat, a: nat, now: Time, r: Report)
    requires Closes(t) && s != IMAGE_EDIT && ScopedReport(s, r)
    requires LeaseOf(t, s, a).Some? && !LeaseOf(t, s, a).value.revoked
    requires TaskInv(FailPlain(t, s, a, now, r))
    ensures Closes(FailPlain(t, s, a, now, r)) && Steady(t.stages, FailPlain(t, s, a, now, r).stages)
  {
    HeldStage(t, s, a);
    FailPlainStates(t, s, a, now, r);
    FailPlainImage(t, s, a, now, r);
  }

  lemma FailCandidateCloses(t: Task, a: nat, now: Time, r: Report, automatic: bool)
    requires Closes(t) && ScopedReport(IMAGE_EDIT, r)
    requires LeaseOf(t, IMAGE_EDIT, a).Some? && !LeaseOf(t, IMAGE_EDIT, a).value.revoked
    ensures Closes(FailTask(t, IMAGE_EDIT, a, now, r, automatic)) && Steady(t.stages, FailTask(t, IMAGE_EDIT, a, now, r, automatic).stages)
  {
    FailKeeps(t, IMAGE_EDIT, a, now, r, automatic);
    HeldCandidate(t, a);
    FailedCandidate(t, a, now, r, automatic);
    FinishedIsSettled(FailTask(t, IMAGE_EDIT, a, now, r, automatic));
    ImageHeldMoves(t, a, FailTask(t, IMAGE_EDIT, a, now, r, automatic));
  }

  lemma FailedCandidate(t: Task, a: nat, now: Time, r: Report, automatic: bool)
    requires |t.stages| == STAGE_COUNT && LeaseOf(t, IMAGE_EDIT, a).Some? && ScopedReport(IMAGE_EDIT, r)
    requires CandidateRuns(t.groups, a, t.stages[IMAGE_EDIT].attempts[a].candidate)
    requires |CurrentGens(t.groups)| == t.generations
    ensures var t' := FailTask(t, IMAGE_EDIT, a, now, r, automatic);
            && t'.stages == t.stages[IMAGE_EDIT := t'.stages[IMAGE_EDIT]]
            && !t'.stages[IMAGE_EDIT].state.Canceled? && !t'.stages[IMAGE_EDIT].state.Pending?
            && !SkipMarked(t'.stages[IMAGE_EDIT])
            && (Terminal(t'.stages[IMAGE_EDIT].state) ==> !AnyUnfinished(CurrentGens(t'.groups)))
  {
    var c := t.stages[IMAGE_EDIT].attempts[a].candidate.value;
    var g := GenAfter(VerdictOn(t, a, r), a, CurrentGens(t.groups)[c.index].image);
    CurrentGroupReplaced(t.groups, a, c, g.status, g.image, t.generations);
  }

  lemma FailCloses(t: Task, s: nat, a: nat, now: Time, r: Report, automatic: bool)
    requires Closes(t) && ScopedReport(s, r) && LeaseOf(t, s, a).Some? && !LeaseOf(t, s, a).value.revoked
    ensures Closes(FailTask(t, s, a, now, r, automatic)) && Steady(t.stages, FailTask(t, s, a, now, r, automatic).stages)
  {
    if s == IMAGE_EDIT {
      FailCandidateCloses(t, a, now, r, automatic);
    } else {
      FailKeeps(t, s, a, now, r, automatic);
      FailPlainCloses(t, s, a, now, r);
    }
  }

  // ---------------------------------------------------------------- recovery

  lemma CommitFailedStates(t: Task, s: nat, a: nat)
    requires |t.stages| == STAGE_COUNT && ValidKey(t, s, a) && t.stages[s].attempts[a].commit.Some?
    requires Live(t.stages[s].state) || t.stages[s].state.FailedTerminal?
    requires StagesClose(t.stages) && ImageSettled(t.stages[IMAGE_EDIT])
    ensures var t' := CommitFailedTask(t, s, a);
            StagesClose(t'.stages) && Steady(t.stages, t'.stages) && ImageSettled(t'.stages[IMAGE_EDIT])
  {
    if !IsCommitted(t.stages[s].attempts[a]) {
      var t' := CommitFailedTask(t, s, a);
      if Live(t.stages[s].state) {
        MovedCloses(t.stages, t'.stages, s);
      } else {
        KeptCloses(t.stages, t'.stages);
      }
    } else {
      KeptCloses(t.stages, t.stages);
    }
  }

  lemma CommitFailedCloses(t: Task, s: nat, a: nat)
    requires Closes(t) && Reconcilable(t, s, a)
    requires s == IMAGE_EDIT ==> Live(t.stages[s].state) || t.stages[s].state.FailedTerminal?
    ensures Closes(CommitFailedTask(t, s, a)) && Steady(t.stages, CommitFailedTask(t, s, a).stages)
  {
    CommitFailedKeeps(t, s, a);
    if s != IMAGE_EDIT { HeldStage(t, s, a); }
    CommitFailedStates(t, s, a);
  }

  lemma ExpiredStates(t: Task, s: nat, a: nat, cleanup: bool, first: nat, second: nat)
    requires |t.stages| == STAGE_COUNT && LeaseOf(t, s, a).Some? && Seen(t, s, first) && Seen(t, s, second)
    requires LeaseOf(t, s, first).value.token == LeaseOf(t, s, a).value.token && !LeaseOf(t, s, first).value.revoked
    requires Live(t.stages[s].state) && !SkipMarked(t.stages[s]) && StagesClose(t.stages)
    ensures var t' := ExpiredTask(t, s, a, cleanup, first, second);
            StagesClose(t'.stages) && Steady(t.stages, t'.stages) && (ImageSettled(t.stages[IMAGE_EDIT]) ==> ImageSettled(t'.stages[IMAGE_EDIT]))
  {
    var t' := ExpiredTask(t, s, a, cleanup, first, second);
    if LeaseOf(t, s, second).value.token != LeaseOf(t, s, a).value.token {
      KeptCloses(t.stages, t'.stages);
    } else {
      MovedCloses(t.stages, t'.stages, s);
    }
  }

  lemma ExpireCloses(t: Task, s: nat, a: nat, cleanup: bool, first: nat, second: nat)
    requires Closes(t) && LeaseOf(t, s, a).Some? && Seen(t, s, first) && Seen(t, s, second)
    requires !OpenCommit(t.stages[s].attempts[a].commit)
    ensures Closes(ExpiredTask(t, s, a, cleanup, first, second)) && Steady(t.stages, ExpiredTask(t, s, a, cleanup, first, second).stages)
  {
    ExpireKeeps(t, s, a, cleanup, first, second);
    var l := LeaseOf(t, s, first).value;
    if l.token == LeaseOf(t, s, a).value.token && !l.revoked {
      HeldStage(t, s, first);
      ExpiredStates(t, s, a, cleanup, first, second);
    }
  }

  lemma ReactivateCloses(t: Task, item: Item, now: Time, seconds: Time)
    requires Closes(t) && HoldsRecovery(t, item) && item.stage != IMAGE_EDIT
    ensures Closes(Reactivated(t, item, now, seconds)) && Steady(t.stages, Reactivated(t, item, now, seconds).stages)
  {
    ReactivateKeeps(t, item, now, seconds);
    MovedCloses(t.stages, Reactivated(t, item, now, seconds).stages, item.stage);
  }

  lemma ResolvedStates(t: Task, item: Item, action: Settlement)
    requires Linked(t.stages) && StagesClose(t.stages) && HoldsRecovery(t, item) && item.stage < STAGE_COUNT && item.stage != IMAGE_EDIT
    ensures var t' := Resolved(t, item, action);
            && StagesClose(t'.stages) && Steady(t.stages, t'.stages)
            && t'.stages[IMAGE_EDIT] == t.stages[IMAGE_EDIT]
  {
    var st := t.stages[item.stage];
    if action.RetryAttempt? {
      MovedCloses(t.stages, Resolved(t, item, action).stages, item.stage);
    } else {
      var x := WithAttempt(st, item.attempt, st.attempts[item.attempt].(status := InState(FailedTerminal), lease := None))
               .(state := FailedTerminal, notBefore := 0.0, error := Some(RemoteStoppedTerminal));
      RouteRoutes(t, item.stage, x, RemoteStoppedTerminal);
      RoutedCloses(t.stages, Resolved(t, item, action).stages, item.stage);
    }
  }

  lemma ResolveCloses(t: Task, item: Item, action: Settlement)
    requires Closes(t) && HoldsRecovery(t, item) && item.stage != IMAGE_EDIT
    ensures Closes(Resolved(t, item, action)) && Steady(t.stages, Resolved(t, item, action).stages)
  {
    ResolveKeeps(t, item, action);
    ResolvedStates(t, item, action);
  }

  // ---------------------------------------------------------------- dispatch and refresh

  lemma RefreshRoundCloses(t: Task)
    requires Closes(t)
    ensures Closes(RefreshRound(t)) && Steady(t.stages, RefreshRound(t).stages)
  {
    RefreshRoundKeeps(t);
    RoundStates(t);
    RoundCloses(t.stages, RefreshRound(t).stages);
  }

  lemma RoundCloses(st: seq<Stage>, st': seq<Stage>)
    requires |st| == STAGE_COUNT == |st'| && StagesClose(st)
    requires forall i :: 0 <= i < STAGE_COUNT ==>
               && (SkipMarked(st'[i]) <==> SkipMarked(st[i]))
               && (!st[i].state.Pending? ==> st'[i].state == st[i].state)
               && (st[i].state.Pending? ==> !st'[i].state.Canceled?)
    ensures StagesClose(st') && Steady(st, st')
  {
    if Diverted(st) {
      DivertedKept(st, st');
    }
  }

  lemma RoundStates(t: Task)
    requires |t.stages| == STAGE_COUNT
    ensures forall i :: 0 <= i < STAGE_COUNT ==>
              && (SkipMarked(RefreshRound(t).stages[i]) <==> SkipMarked(t.stages[i]))
              && RefreshRound(t).stages[i].attempts == t.stages[i].attempts
              && (!t.stages[i].state.Pending? ==> RefreshRound(t).stages[i].state == t.stages[i].state)
              && (t.stages[i].state.Pending? && i != EDIT_GATE ==>
                    RefreshRound(t).stages[i].state.Pending? || RefreshRound(t).stages[i].state.Ready?)
              && (t.stages[i].state.Pending? ==> !RefreshRound(t).stages[i].state.Canceled?)
  {
  }

  lemma RefreshCloses(t: Task)
    requires Closes(t)
    ensures Closes(Refreshed(t)) && Steady(t.stages, Refreshed(t).stages)
  {
    RefreshRoundCloses(t);
    RefreshRoundCloses(RefreshRound(t));
  }

  lemma QueuedIsLive(t: Task, s: nat)
    requires Closes(t) && s < STAGE_COUNT && Queued(s, t.stages[s])
    ensures Live(t.stages[s].state) && !SkipMarked(t.stages[s])
  {
  }

  predicate MovedTo(t: Task, s: nat, t': Task)
    requires |t.stages| == STAGE_COUNT && s < STAGE_COUNT
  {
    && |t'.stages| == STAGE_COUNT && t'.stages == t.stages[s := t'.stages[s]]
    && !t'.stages[s].state.Canceled? && !t'.stages[s].state.Pending? && !SkipMarked(t'.stages[s])
  }

  lemma CandidateStates(t: Task, now: Time, lease: Lease, automatic: bool)
    requires |t.stages| == STAGE_COUNT && t.groups != [] && Queued(IMAGE_EDIT, t.stages[IMAGE_EDIT]) && !SkipMarked(t.stages[IMAGE_EDIT])
    ensures var t' := TryCandidate(t, now, lease, automatic).task;
            && MovedTo(t, IMAGE_EDIT, t')
            && (Terminal(t'.stages[IMAGE_EDIT].state) ==> t'.groups != [] && !AnyUnfinished(CurrentGens(t'.groups)))
  {
    TryCandidateCases(t, now, lease, automatic);
  }

  lemma TakenStates(t: Task, s: nat, now: Time, lease: Lease, automatic: bool)
    requires |t.stages| == STAGE_COUNT && s < STAGE_COUNT && t.groups != [] && Queued(s, t.stages[s]) && !SkipMarked(t.stages[s])
    ensures var t' := TryLease(t, s, now, lease, automatic).task;
            && MovedTo(t, s, t')
            && (s == IMAGE_EDIT && Terminal(t'.stages[s].state) ==> t'.groups != [] && !AnyUnfinished(CurrentGens(t'.groups)))
  {
    if s == IMAGE_EDIT {
      CandidateStates(Materialized(t), now, lease, automatic);
    }
  }

  lemma LeaseCloses(t: Task, s: nat, now: Time, lease: Lease, automatic: bool)
    requires Closes(t) && s < STAGE_COUNT && Queued(s, t.stages[s]) && !lease.revoked
    ensures Closes(TryLease(t, s, now, lease, automatic).task) && Steady(t.stages, TryLease(t, s, now, lease, automatic).task.stages)
  {
    LeaseKeeps(t, s, now, lease, automatic);
    QueuedIsLive(t, s);
    TakenStates(t, s, now, lease, automatic);
    TakenCloses(t, s, TryLease(t, s, now, lease, automatic).task);
  }

  lemma TakenCloses(t: Task, s: nat, t': Task)
    requires Closes(t) && TaskInv(t') && s < STAGE_COUNT && Live(t.stages[s].state) && MovedTo(t, s, t')
    requires s == IMAGE_EDIT && Terminal(t'.stages[s].state) ==> !AnyUnfinished(CurrentGens(t'.groups))
    ensures Closes(t') && Steady(t.stages, t'.stages)
  {
    if s == IMAGE_EDIT { FinishedIsSettled(t'); }
    MovedCloses(t.stages, t'.stages, s);
  }

  // ---------------------------------------------------------------- operators

  lemma CanceledStates(st: Stage, outcome: CancelOutcome)
    ensures var x := CanceledStage(st, outcome);
            && Terminal(x.state) && (Terminal(st.state) ==> x == st) && (SkipMarked(x) ==> SkipMarked(st))
            && (!Terminal(st.state) ==> x.state.Canceled? || (x.state.FailedTerminal? && AnyLease(st)))
            && (ImageSettled(st) ==> ImageSettled(x))
  {
  }

  lemma LeasedIsActive(t: Task, i: nat)
    requires TaskInv(t) && i < STAGE_COUNT && AnyLease(t.stages[i])
    ensures !t.stages[i].state.Pending?
  {
    if i != IMAGE_EDIT { assert StageOk(t.stages[i]); }
  }

  lemma CancelCloses(t: Task, outcomes: seq<CancelOutcome>)
    requires Closes(t) && |outcomes| == STAGE_COUNT && !RemoteOccupied(t)
    ensures Closes(CanceledTask(t, outcomes)) && Steady(t.stages, CanceledTask(t, outcomes).stages)
  {
    var t' := CanceledTask(t, outcomes);
    CancelKeeps(t, outcomes);
    forall i | 0 <= i < STAGE_COUNT
      ensures Terminal(t'.stages[i].state) && (Terminal(t.stages[i].state) ==> t'.stages[i] == t.stages[i])
      ensures SkipMarked(t'.stages[i]) ==> SkipMarked(t.stages[i])
      ensures !Terminal(t.stages[i].state) ==> t'.stages[i].state.Canceled? || Live(t.stages[i].state)
    {
      CanceledStates(t.stages[i], outcomes[i]);
      if !Terminal(t.stages[i].state) && AnyLease(t.stages[i]) { LeasedIsActive(t, i); }
    }
    CanceledStates(t.stages[IMAGE_EDIT], outcomes[IMAGE_EDIT]);
    CanceledTail(t.stages, t'.stages);
  }

  lemma CanceledTail(st: seq<Stage>, st': seq<Stage>)
    requires Linked(st) && Linked(st') && StagesClose(st)
    requires forall i :: 0 <= i < STAGE_COUNT ==> Terminal(st'[i].state) && (Terminal(st[i].state) ==> st'[i] == st[i])
    requires forall i :: 0 <= i < STAGE_COUNT && SkipMarked(st'[i]) ==> SkipMarked(st[i])
    ensures StagesClose(st') && Steady(st, st')
  {
    if Diverted(st) {
      DivertedKept(st, st');
    }
    forall i, j | 0 <= i < j < STAGE_COUNT && st'[i].state.Canceled? ensures st'[j].state.Canceled? || Diverted(st') {
      if Active(st'[j].state) && !Diverted(st') {
        ActiveMeansSucceeded(st', j, i);
      }
    }
  }

  /** Outside a diversion, everything before an active stage has succeeded. */
  lemma {:induction false} ActiveMeansSucceeded(st: seq<Stage>, i: nat, j: nat)
    requires Linked(st) && !Diverted(st) && j < i < STAGE_COUNT && Active(st[i].state)
    ensures st[j].state.Succeeded?
    decreases i
  {
    if j < i - 1 {
      ActiveMeansSucceeded(st, i - 1, j);
    }
  }

  lemma DecideCloses(t: Task, attempt: nat, v: Verdict)
    requires Closes(t) && CanDecide(t, attempt, v) && !t.stages[EDIT_GATE].state.Canceled?
    ensures Closes(DecidedTask(t, attempt, v)) && Steady(t.stages, DecidedTask(t, attempt, v).stages)
  {
    DecideKeeps(t, attempt, v);
    DecideFacts(t, attempt, v);
    NotDiverted(t.stages);
    DecidedStates(t, attempt, v);
  }

  lemma DecidedStates(t: Task, attempt: nat, v: Verdict)
    requires |t.stages| == STAGE_COUNT && t.groups != [] && CanDecide(t, attempt, v)
    requires StagesClose(t.stages) && ImageSettled(t.stages[IMAGE_EDIT]) && !Diverted(t.stages)
    requires t.stages[IMAGE_EDIT].state.Succeeded? && t.stages[UNITY_ANCHOR].state.Succeeded?
    requires !Terminal(t.stages[EDIT_GATE].state)
    requires forall i :: EDIT_GATE < i < STAGE_COUNT ==> !Active(t.stages[i].state)
    ensures StagesClose(DecidedTask(t, attempt, v).stages) && Steady(t.stages, DecidedTask(t, attempt, v).stages)
    ensures ImageSettled(DecidedTask(t, attempt, v).stages[IMAGE_EDIT])
  {
  }
}
