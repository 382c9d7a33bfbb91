/** Crash recovery and lease recovery keep the task invariant. */
module RecoverySteps {
  import opened Tables
  import opened Transitions
  import opened ChainShape
  import opened TaskInvariant
  import opened TaskSteps

  // ---------------------------------------------------------------- publication

  lemma SameStateLinked(st: seq<Stage>, s: nat, x: Stage)
    requires Linked(st) && s < STAGE_COUNT && x.state == st[s].state
    ensures Linked(st[s := x])
  {
    if Diverted(st) {
      var f :| 0 <= f < STAGE_COUNT && DivertedAt(st, f);
      assert DivertedAt(st[s := x], f);
    }
  }

  /** Marking an intent published changes nothing else, whoever does it and whenever. */
  lemma PublishKeeps(t: Task, s: nat, a: nat)
    requires TaskInv(t) && ValidKey(t, s, a) && t.stages[s].attempts[a].commit.Some?
    ensures TaskInv(PublishedTask(t, s, a))
  {
    if !IsCommitted(t.stages[s].attempts[a]) {
      var x := PublishedStage(t.stages[s], a);
      SameStateLinked(t.stages, s, x);
      if s == IMAGE_EDIT {
        PublishedImage(t, a, x);
      } else {
        PublishedPlain(t.stages[s], a);
        RowsUnchanged(t, WithStage(t, s, x));
      }
    }
  }

  function PublishedStage(st: Stage, a: nat): Stage
    requires a < |st.attempts| && st.attempts[a].commit.Some?
  {
    WithAttempt(st, a, st.attempts[a].(commit := Some(st.attempts[a].commit.value.(state := Published))))
  }

  lemma PublishedPlain(st: Stage, a: nat)
    requires StageOk(st) && a < |st.attempts| && st.attempts[a].commit.Some? && !IsCommitted(st.attempts[a])
    ensures StageOk(PublishedStage(st, a))
  {
  }

  lemma PublishedImageOk(im: Stage, groups: seq<seq<Gen>>, generations: nat, a: nat)
    requires ImageOk(im, groups, generations)
    requires a < |im.attempts| && im.attempts[a].commit.Some? && !IsCommitted(im.attempts[a])
    ensures ImageOk(PublishedStage(im, a), groups, generations)
    ensures SameCandidates(im.attempts, PublishedStage(im, a).attempts)
  {
    var x := PublishedStage(im, a);
    CountsUnchanged(im.attempts, x.attempts);
    assert forall b :: 0 <= b < |im.attempts| ==> x.attempts[b].lease == im.attempts[b].lease;
    assert AnyLease(im) ==> AnyLease(x);
  }

  lemma SameReviews(a: seq<Attempt>, b: seq<Attempt>, groups: nat, reviews: seq<Review>, done: bool)
    requires |a| == |b| && SameCandidates(a, b) && ReviewsOrdered(a, groups, reviews, done)
    ensures ReviewsOrdered(b, groups, reviews, done)
  {
    forall r | 0 <= r < |reviews| ensures ReviewGroup(b, reviews[r]) == ReviewGroup(a, reviews[r]) {}
  }

  lemma PublishedImage(t: Task, a: nat, x: Stage)
    requires TaskInv(t) && ValidKey(t, IMAGE_EDIT, a) && Linked(t.stages[IMAGE_EDIT := x])
    requires t.stages[IMAGE_EDIT].attempts[a].commit.Some? && !IsCommitted(t.stages[IMAGE_EDIT].attempts[a])
    requires x == PublishedStage(t.stages[IMAGE_EDIT], a)
    ensures TaskInv(WithStage(t, IMAGE_EDIT, x))
  {
    var im := t.stages[IMAGE_EDIT];
    PublishedImageOk(im, t.groups, t.generations, a);
    SameReviews(im.attempts, x.attempts, |t.groups|, t.reviews, im.state.Succeeded?);
    ImageRowsRewritten(t, x);
  }

  /** Rewriting image-stage attempt rows without touching its state or their candidates. */
  lemma ImageRowsRewritten(t: Task, x: Stage)
    requires TaskInv(t) && Linked(t.stages[IMAGE_EDIT := x]) && x.state == t.stages[IMAGE_EDIT].state
    requires |x.attempts| == |t.stages[IMAGE_EDIT].attempts| && ImageOk(x, t.groups, t.generations)
    requires ReviewsOrdered(x.attempts, |t.groups|, t.reviews, x.state.Succeeded?)
    ensures TaskInv(WithStage(t, IMAGE_EDIT, x))
  {
  }

  predicate Unrevoked(t: Task, s: nat, a: nat) {
    LeaseOf(t, s, a).Some? && !LeaseOf(t, s, a).value.revoked
  }

  /** A row picked up by reconciliation: its stage has not moved past the intent. */
  predicate Reconcilable(t: Task, s: nat, a: nat) {
    && |t.stages| == STAGE_COUNT
    && ValidKey(t, s, a) && t.stages[s].attempts[a].commit.Some?
    && (if s == IMAGE_EDIT then CandidateRuns(t.groups, a, t.stages[s].attempts[a].candidate) else Unrevoked(t, s, a))
  }

  lemma HeldIsReconcilable(t: Task, s: nat, a: nat)
    requires TaskInv(t) && Unrevoked(t, s, a) && t.stages[s].attempts[a].commit.Some?
    ensures Reconcilable(t, s, a)
  {
    if s == IMAGE_EDIT {
      HeldCandidate(t, a);
    }
  }

  lemma RunningCandidateMovable(t: Task, a: nat)
    requires TaskInv(t) && ValidKey(t, IMAGE_EDIT, a)
    requires CandidateRuns(t.groups, a, t.stages[IMAGE_EDIT].attempts[a].candidate)
    ensures Movable(t.stages, IMAGE_EDIT) && t.stages[UNITY_ANCHOR].state.Succeeded?
    ensures |CurrentGens(t.groups)| == t.generations
  {
    assert AnyUnfinished(CurrentGens(t.groups));
  }

  function CommitFailedStage(st: Stage, a: nat): Stage
    requires a < |st.attempts| && st.attempts[a].commit.Some?
  {
    var att := st.attempts[a];
    WithoutLeases(WithAttempt(st, a, att.(status := InState(FailedTerminal),
                                          commit := Some(att.commit.value.(state := CommitFailed)))))
    .(state := FailedTerminal, error := Some(ArtifactCommitRecovery))
  }

  lemma CommitFailedPlain(st: Stage, a: nat)
    requires StageOk(st) && a < |st.attempts| && st.attempts[a].commit.Some? && !IsCommitted(st.attempts[a])
    ensures StageOk(CommitFailedStage(st, a))
  {
  }

  lemma CommitFailedImage(im: Stage, groups: seq<seq<Gen>>, generations: nat, a: nat)
    requires ImageOk(im, groups, generations)
    requires a < |im.attempts| && im.attempts[a].commit.Some? && !IsCommitted(im.attempts[a])
    ensures ImageOk(CommitFailedStage(im, a), groups, generations)
    ensures SameCandidates(im.attempts, CommitFailedStage(im, a).attempts)
  {
    var x := CommitFailedStage(im, a);
    CountsUnchanged(im.attempts, x.attempts);
    assert CandidatesOk(x, groups);
  }

  lemma CommitFailedKeeps(t: Task, s: nat, a: nat)
    requires TaskInv(t) && Reconcilable(t, s, a)
    ensures TaskInv(CommitFailedTask(t, s, a))
  {
    if !IsCommitted(t.stages[s].attempts[a]) {
      var x := CommitFailedStage(t.stages[s], a);
      if s == IMAGE_EDIT {
        RunningCandidateMovable(t, a);
        CommitFailedImage(t.stages[s], t.groups, t.generations, a);
        ImageMove(t, WithStage(t, s, x), None);
      } else {
        HeldIsLatest(t, s, a);
        assert StageOk(t.stages[s]);
        CommitFailedPlain(t.stages[s], a);
        PlainMove(t, s, x);
      }
    }
  }

  // ---------------------------------------------------------------- expiry

  lemma ExpirePlainKeeps(t: Task, s: nat, a: nat, cleanup: bool, first: nat, second: nat)
    requires TaskInv(t) && s != IMAGE_EDIT && LeaseOf(t, s, a).Some? && Seen(t, s, first) && Seen(t, s, second)
    requires !OpenCommit(t.stages[s].attempts[a].commit) && !LeaseOf(t, s, first).value.revoked
    requires LeaseOf(t, s, first).value.token == LeaseOf(t, s, a).value.token
    ensures TaskInv(ExpiredTask(t, s, a, cleanup, first, second))
  {
    var t' := ExpiredTask(t, s, a, cleanup, first, second);
    HeldIsLatest(t, s, first);
    assert StageOk(t.stages[s]);
    assert a == first == second;
    assert AttemptOk(t.stages[s].attempts[a]);
    ExpiredPlain(t.stages[s], s, a, t'.stages[s], cleanup);
    PlainMove(t, s, t'.stages[s]);
  }

  lemma ExpireKeeps(t: Task, s: nat, a: nat, cleanup: bool, first: nat, second: nat)
    requires TaskInv(t) && LeaseOf(t, s, a).Some? && Seen(t, s, first) && Seen(t, s, second)
    requires !OpenCommit(t.stages[s].attempts[a].commit)
    ensures TaskInv(ExpiredTask(t, s, a, cleanup, first, second))
  {
    var l := LeaseOf(t, s, first).value;
    if l.token == LeaseOf(t, s, a).value.token && !l.revoked {
      if s == IMAGE_EDIT {
        HeldCandidate(t, first);
        assert AttemptOk(t.stages[s].attempts[a]) && t.stages[s].attempts[a].commit.None?;
        ExpiredImage(t, a, cleanup, first, second);
        ImageMove(t, ExpiredTask(t, s, a, cleanup, first, second), None);
      } else {
        ExpirePlainKeeps(t, s, a, cleanup, first, second);
      }
    }
  }

  lemma ExpiredPlain(st: Stage, s: nat, a: nat, x: Stage, cleanup: bool)
    requires StageOk(st) && a == |st.attempts| - 1 && st.attempts[a].lease.Some? && !st.attempts[a].lease.value.revoked
    requires AttemptOk(st.attempts[a]) && !OpenCommit(st.attempts[a].commit)
    requires var st1 := WithRevokedLeases(st);
             var state := if cleanup && a + 1 < st.maxAttempts then Ready else FailedTerminal;
             var st2 := WithAttempt(st1, a, st1.attempts[a].(status := LeaseExpired)).(state := state, error := Some(WorkerLost));
             x == if RemoteProcessStage(s)
                  then WithAttempt(st1, a, st1.attempts[a].(status := InState(Recovering))).(state := Recovering, error := Some(DeliveryUnknown))
                  else if cleanup then WithoutLeases(st2) else st2
    ensures StageOk(x)
  {
  }

  lemma RevokedRows(im: Stage)
    requires forall b :: 0 <= b < |im.attempts| ==> AttemptOk(im.attempts[b])
    ensures var x := WithRevokedLeases(im);
            && SameCandidates(im.attempts, x.attempts)
            && (AnyLease(im) ==> AnyLease(x))
            && forall b :: 0 <= b < |im.attempts| ==>
                 AttemptOk(x.attempts[b]) && (x.attempts[b].lease.None? || x.attempts[b].lease.value.revoked)
  {
    if AnyLease(im) {
      var b :| 0 <= b < |im.attempts| && im.attempts[b].lease.Some?;
      assert WithRevokedLeases(im).attempts[b].lease.Some?;
    }
  }

  lemma RevokedImage(im: Stage, groups: seq<seq<Gen>>, generations: nat)
    requires ImageOk(im, groups, generations)
    ensures ImageOk(WithRevokedLeases(im), groups, generations)
    ensures forall b :: 0 <= b < |im.attempts| ==>
      WithRevokedLeases(im).attempts[b].lease.None? || WithRevokedLeases(im).attempts[b].lease.value.revoked
  {
    RevokedRows(im);
    CountsUnchanged(im.attempts, WithRevokedLeases(im).attempts);
  }

  function SettledStage(st: Stage, a: nat, cleanup: bool): Stage
    requires a < |st.attempts|
  {
    var state := if cleanup && a + 1 < st.maxAttempts then Ready else FailedTerminal;
    var st1 := WithAttempt(st, a, st.attempts[a].(status := LeaseExpired)).(state := state, error := Some(WorkerLost));
    if cleanup then WithoutLeases(st1) else st1
  }

  lemma SettledImage(im: Stage, groups: seq<seq<Gen>>, generations: nat, a: nat, cleanup: bool)
    requires ImageOk(im, groups, generations) && a < |im.attempts| && !im.state.Pending?
    requires forall b :: 0 <= b < |im.attempts| ==> im.attempts[b].lease.None? || im.attempts[b].lease.value.revoked
    requires im.attempts[a].lease.Some? && im.attempts[a].commit.None?
    ensures ImageOk(SettledStage(im, a, cleanup), groups, generations)
  {
    var x := SettledStage(im, a, cleanup);
    CountsUnchanged(im.attempts, x.attempts);
    assert forall b :: 0 <= b < |im.attempts| ==> AttemptOk(im.attempts[b]) && AttemptOk(x.attempts[b]);
  }

  lemma ExpiredImage(t: Task, a: nat, cleanup: bool, first: nat, second: nat)
    requires |t.stages| == STAGE_COUNT && ImageOk(t.stages[IMAGE_EDIT], t.groups, t.generations)
    requires !t.stages[IMAGE_EDIT].state.Succeeded? && !t.stages[IMAGE_EDIT].state.Pending?
    requires LeaseOf(t, IMAGE_EDIT, a).Some? && t.stages[IMAGE_EDIT].attempts[a].commit.None?
    ensures var t' := ExpiredTask(t, IMAGE_EDIT, a, cleanup, first, second);
            && t' == t.(stages := t.stages[IMAGE_EDIT := t'.stages[IMAGE_EDIT]])
            && SameCandidates(t.stages[IMAGE_EDIT].attempts, t'.stages[IMAGE_EDIT].attempts)
            && ImageOk(t'.stages[IMAGE_EDIT], t'.groups, t'.generations)
            && !t'.stages[IMAGE_EDIT].state.Succeeded?
  {
    var im := t.stages[IMAGE_EDIT];
    RevokedImage(im, t.groups, t.generations);
    SettledImage(WithRevokedLeases(im), t.groups, t.generations, a, cleanup);
  }

  // ---------------------------------------------------------------- explicit recovery

  lemma ReactivateKeeps(t: Task, item: Item, now: Time, seconds: Time)
    requires TaskInv(t) && HoldsRecovery(t, item) && item.stage != IMAGE_EDIT
    ensures TaskInv(Reactivated(t, item, now, seconds))
  {
    var x := Reactivated(t, item, now, seconds).stages[item.stage];
    assert StageOk(t.stages[item.stage]) && AttemptOk(t.stages[item.stage].attempts[item.attempt]);
    assert StageOk(x);
    PlainMove(t, item.stage, x);
  }

  lemma ResolveKeeps(t: Task, item: Item, action: Settlement)
    requires TaskInv(t) && HoldsRecovery(t, item) && item.stage != IMAGE_EDIT
    ensures TaskInv(Resolved(t, item, action))
  {
    var st := t.stages[item.stage];
    assert StageOk(st) && AttemptOk(st.attempts[item.attempt]);
    match action
    case RetryAttempt =>
      var x := Resolved(t, item, action).stages[item.stage];
      assert StageOk(x);
      PlainMove(t, item.stage, x);
    case TerminateAttempt =>
      var x := WithAttempt(st, item.attempt, st.attempts[item.attempt].(status := InState(FailedTerminal), lease := None))
               .(state := FailedTerminal, notBefore := 0.0, error := Some(RemoteStoppedTerminal));
      assert StageOk(x);
      LostMove(t, item.stage, x, RemoteStoppedTerminal);
  }
}
