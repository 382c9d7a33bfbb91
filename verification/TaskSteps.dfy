/** Every call of the controller keeps the invariant of the task it touches. */
module TaskSteps {
  import opened Tables
  import opened Transitions
  import opened ChainShape
  import opened TaskInvariant

  // ---------------------------------------------------------------- refresh

  /** Reviews are created in the order of their attempts, so the latest one is the last row. */
  lemma {:induction false} AttemptsOrdered(im: Stage, groups: seq<seq<Gen>>, reviews: seq<Review>, done: bool)
    requires CandidatesOk(im, groups) && ReviewsOrdered(im.attempts, |groups|, reviews, done)
    ensures forall r, q :: 0 <= r < q < |reviews| ==> reviews[r].attempt < reviews[q].attempt
  {
    forall r, q | 0 <= r < q < |reviews| ensures reviews[r].attempt < reviews[q].attempt {
      assert ReviewGroup(im.attempts, reviews[r]) < ReviewGroup(im.attempts, reviews[q]);
    }
  }

  lemma {:induction false} LatestIsLast(reviews: seq<Review>)
    requires forall r, q :: 0 <= r < q < |reviews| ==> reviews[r].attempt < reviews[q].attempt
    ensures reviews != [] ==> LatestReview(reviews) == Some(reviews[|reviews| - 1])
  {
    if |reviews| > 1 {
      LatestIsLast(reviews[..|reviews| - 1]);
    }
  }

  lemma LatestReviewIsLast(t: Task)
    requires TaskInv(t) && t.reviews != []
    ensures LatestReview(t.reviews) == Some(t.reviews[|t.reviews| - 1])
  {
    AttemptsOrdered(t.stages[IMAGE_EDIT], t.groups, t.reviews, t.stages[IMAGE_EDIT].state.Succeeded?);
    LatestIsLast(t.reviews);
  }

  lemma PromotedKeeps(t: Task, i: nat)
    requires i < |t.stages| && StageOk(t.stages[i]) && DependencyMet(t, i)
    ensures StageOk(t.stages[i].(state := Promoted(t, i)))
  {
  }

  lemma RefreshedPlain(t: Task)
    requires |t.stages| == STAGE_COUNT && PlainStagesOk(t.stages)
    ensures PlainStagesOk(RefreshRound(t).stages)
  {
    forall i | 0 <= i < STAGE_COUNT && i != IMAGE_EDIT ensures StageOk(RefreshRound(t).stages[i]) {
      if DependencyMet(t, i) {
        PromotedKeeps(t, i);
      }
    }
  }

  lemma RefreshedImage(t: Task)
    requires |t.stages| == STAGE_COUNT && ImageOk(t.stages[IMAGE_EDIT], t.groups, t.generations)
    ensures ImageOk(RefreshRound(t).stages[IMAGE_EDIT], t.groups, t.generations)
    ensures RefreshRound(t).stages[IMAGE_EDIT].attempts == t.stages[IMAGE_EDIT].attempts
    ensures RefreshRound(t).stages[IMAGE_EDIT].state.Succeeded? == t.stages[IMAGE_EDIT].state.Succeeded?
  {
  }

  lemma RefreshedReviews(t: Task)
    requires TaskInv(t)
    ensures ReviewsDecided(t.reviews, t.stages[IMAGE_EDIT].state.Succeeded?, RefreshRound(t).stages[EDIT_GATE].state)
  {
    if t.reviews != [] {
      LatestReviewIsLast(t);
    }
  }

  lemma RefreshedGate(t: Task)
    requires TaskInv(t)
    ensures GateOk(RefreshRound(t).stages, t.reviews, RefreshedAccepted(t), CurrentGens(t.groups))
  {
    if t.reviews != [] {
      LatestReviewIsLast(t);
    }
  }

  lemma RefreshRoundKeeps(t: Task)
    requires TaskInv(t)
    ensures TaskInv(RefreshRound(t))
  {
    RefreshRoundKeepsLinked(t);
    RefreshedPlain(t);
    RefreshedImage(t);
    RefreshedReviews(t);
    RefreshedGate(t);
  }

  lemma RefreshKeeps(t: Task)
    requires TaskInv(t)
    ensures TaskInv(Refreshed(t))
  {
    RefreshRoundKeeps(t);
    RefreshRoundKeeps(RefreshRound(t));
  }

  // ---------------------------------------------------------------- who may write

  /** A lease that is not revoked belongs to the newest attempt of a stage that is being worked on. */
  lemma HeldIsLatest(t: Task, s: nat, a: nat)
    requires TaskInv(t) && s != IMAGE_EDIT && LeaseOf(t, s, a).Some? && !LeaseOf(t, s, a).value.revoked
    ensures s < STAGE_COUNT && s != EDIT_GATE && a == |t.stages[s].attempts| - 1 && Holding(t.stages[s].state)
  {
    assert StageOk(t.stages[s]);
  }

  lemma HeldCandidate(t: Task, a: nat)
    requires TaskInv(t) && LeaseOf(t, IMAGE_EDIT, a).Some? && !LeaseOf(t, IMAGE_EDIT, a).value.revoked
    ensures CandidateRuns(t.groups, a, t.stages[IMAGE_EDIT].attempts[a].candidate)
    ensures Movable(t.stages, IMAGE_EDIT) && t.stages[UNITY_ANCHOR].state.Succeeded?
    ensures !t.stages[IMAGE_EDIT].state.Pending?
    ensures t.groups == t.groups[|t.groups| - 1 :=
              CurrentGens(t.groups)[t.stages[IMAGE_EDIT].attempts[a].candidate.value.index := RunningGen(t, a)]]
    ensures AttemptOk(t.stages[IMAGE_EDIT].attempts[a])
  {
    assert AnyUnfinished(CurrentGens(t.groups));
    var i := t.stages[IMAGE_EDIT].attempts[a].candidate.value.index;
    assert CurrentGens(t.groups)[i := RunningGen(t, a)] == CurrentGens(t.groups);
  }

  function RunningGen(t: Task, a: nat): Gen
    requires |t.stages| == STAGE_COUNT && ValidKey(t, IMAGE_EDIT, a)
    requires CandidateRuns(t.groups, a, t.stages[IMAGE_EDIT].attempts[a].candidate)
  {
    CurrentGens(t.groups)[t.stages[IMAGE_EDIT].attempts[a].candidate.value.index]
  }

  /** Rewriting the attempt that holds the plain stage's lease. */
  lemma HeldMove(t: Task, s: nat, a: nat, att: Attempt, x: Stage)
    requires TaskInv(t) && s != IMAGE_EDIT && LeaseOf(t, s, a).Some? && !LeaseOf(t, s, a).value.revoked
    requires x.attempts == t.stages[s].attempts[a := att] && AttemptOk(att) && |x.attempts| <= x.maxAttempts
    requires Holding(x.state) <==> att.lease.Some? && !att.lease.value.revoked
    requires x.state.Recovering? ==> att.lease.Some? && att.status == InState(Recovering)
    requires HoldsNothing(x.state) ==> att.lease.None?
    ensures TaskInv(WithStage(t, s, x))
    ensures Lost(x.state) ==> forall code :: TaskInv(RouteDebugBundle(WithStage(t, s, x), s, code))
  {
    HeldIsLatest(t, s, a);
    assert StageOk(t.stages[s]);
    assert StageOk(x);
    PlainMove(t, s, x);
    if Lost(x.state) {
      forall code ensures TaskInv(RouteDebugBundle(WithStage(t, s, x), s, code)) {
        LostMove(t, s, x, code);
      }
    }
  }

  /** `t'` differs from `t` in the image-stage attempt `a`, its generation row `g`, the state of the
      image stage, and a review exactly when the group is finished. */
  predicate CandidateRewritten(t: Task, a: nat, g: Gen, t': Task, review: Option<Review>) {
    && |t.stages| == STAGE_COUNT == |t'.stages|
    && ValidKey(t, IMAGE_EDIT, a)
    && t'.stages == t.stages[IMAGE_EDIT := t'.stages[IMAGE_EDIT]]
    && t'.generations == t.generations
    && CandidateRuns(t.groups, a, t.stages[IMAGE_EDIT].attempts[a].candidate)
    && g.attempt == a
    && t'.groups == t.groups[|t.groups| - 1 := CurrentGens(t.groups)[t.stages[IMAGE_EDIT].attempts[a].candidate.value.index := g]]
    && AttemptRewritten(t.stages[IMAGE_EDIT], t'.stages[IMAGE_EDIT], a, g)
    && (t'.stages[IMAGE_EDIT].state.Succeeded? ==> !AnyUnfinished(CurrentGens(t'.groups)))
    && (t'.stages[IMAGE_EDIT].state.Succeeded? <==> review.Some?)
    && t'.reviews == (if review.Some? then t.reviews + [review.value] else t.reviews)
    && (review.Some? ==> !review.value.decision.Accepted?)
    && (review.Some? ==> GroupOfAttempt(t'.stages[IMAGE_EDIT].attempts, review.value.attempt) == Some(|t.groups| - 1))
  }

  predicate AttemptRewritten(im: Stage, im': Stage, a: nat, g: Gen)
    requires a < |im.attempts|
  {
    && |im'.attempts| == |im.attempts| && im'.maxAttempts == im.maxAttempts
    && im'.attempts == im.attempts[a := im'.attempts[a]]
    && im'.attempts[a].candidate == im.attempts[a].candidate
    && AttemptOk(im'.attempts[a])
    && (im'.attempts[a].lease.Some? && !im'.attempts[a].lease.value.revoked ==> g.status.GenRunning?)
    && (im'.attempts[a].lease.None? ==> !Holding(im'.state) && !im'.state.Recovering?)
    && !im'.state.Pending?
  }

  /** The rows of a group after the row of the candidate that attempt `a` runs became `g`. */
  function GroupsAfter(groups: seq<seq<Gen>>, im: Stage, a: nat, g: Gen): seq<seq<Gen>>
    requires a < |im.attempts| && CandidateRuns(groups, a, im.attempts[a].candidate) && groups != []
  {
    groups[|groups| - 1 := CurrentGens(groups)[im.attempts[a].candidate.value.index := g]]
  }

  lemma RewrittenCandidates(im: Stage, groups: seq<seq<Gen>>, a: nat, g: Gen, im': Stage)
    requires groups != [] && CandidatesOk(im, groups) && a < |im.attempts| && CandidateRuns(groups, a, im.attempts[a].candidate)
    requires AttemptRewritten(im, im', a, g) && g.attempt == a
    ensures CandidatesOk(im', GroupsAfter(groups, im, a, g))
  {
    forall b | 0 <= b < |im'.attempts| && im'.attempts[b].lease.Some? && !im'.attempts[b].lease.value.revoked
      ensures CandidateRuns(GroupsAfter(groups, im, a, g), b, im'.attempts[b].candidate)
    {
      if b != a {
        assert CandidateRuns(groups, b, im.attempts[b].candidate);
      }
    }
  }

  lemma RewrittenGens(im: Stage, groups: seq<seq<Gen>>, generations: nat, a: nat, g: Gen, im': Stage)
    requires groups != [] && GensOk(im, groups, generations) && a < |im.attempts| && CandidateRuns(groups, a, im.attempts[a].candidate)
    requires AttemptRewritten(im, im', a, g) && g.attempt == a
    requires im'.state.Succeeded? ==> !AnyUnfinished(CurrentGens(GroupsAfter(groups, im, a, g)))
    ensures GensOk(im', GroupsAfter(groups, im, a, g), generations)
  {
    assert Holding(im'.state) || im'.state.Recovering? ==> im'.attempts[a].lease.Some?;
  }

  lemma RewrittenImage(im: Stage, groups: seq<seq<Gen>>, generations: nat, a: nat, g: Gen, im': Stage)
    requires ImageOk(im, groups, generations) && a < |im.attempts| && CandidateRuns(groups, a, im.attempts[a].candidate)
    requires AttemptRewritten(im, im', a, g) && g.attempt == a
    requires im'.state.Succeeded? ==> !AnyUnfinished(CurrentGens(GroupsAfter(groups, im, a, g)))
    ensures ImageOk(im', GroupsAfter(groups, im, a, g), generations) && SameCandidates(im.attempts, im'.attempts)
  {
    CountsUnchanged(im.attempts, im'.attempts);
    RewrittenCandidates(im, groups, a, g, im');
    RewrittenGens(im, groups, generations, a, g, im');
  }

  lemma HeldMovable(t: Task, a: nat)
    requires TaskInv(t) && LeaseOf(t, IMAGE_EDIT, a).Some? && !LeaseOf(t, IMAGE_EDIT, a).value.revoked
    ensures Movable(t.stages, IMAGE_EDIT) && t.stages[UNITY_ANCHOR].state.Succeeded?
  {
    HeldCandidate(t, a);
  }

  lemma HeldCandidateMove(t: Task, a: nat, g: Gen, t': Task, review: Option<Review>)
    requires TaskInv(t) && LeaseOf(t, IMAGE_EDIT, a).Some? && !LeaseOf(t, IMAGE_EDIT, a).value.revoked
    requires CandidateRewritten(t, a, g, t', review)
    ensures TaskInv(t')
  {
    HeldMovable(t, a);
    RewrittenImage(t.stages[IMAGE_EDIT], t.groups, t.generations, a, g, t'.stages[IMAGE_EDIT]);
    assert t'.groups == GroupsAfter(t.groups, t.stages[IMAGE_EDIT], a, g);
    ImageMove(t, t', review);
  }

  // ---------------------------------------------------------------- worker reports

  lemma MarkRunningKeeps(t: Task, item: Item, now: Time, boot: nat, seconds: Time)
    requires TaskInv(t) && HoldsLease(t, item, now)
    ensures TaskInv(MarkedRunning(t, item, now, boot, seconds))
  {
    var t' := MarkedRunning(t, item, now, boot, seconds);
    if item.stage == IMAGE_EDIT {
      HeldCandidate(t, item.attempt);
      HeldCandidateMove(t, item.attempt, RunningGen(t, item.attempt), t', None);
    } else {
      HeldMove(t, item.stage, item.attempt, t'.stages[item.stage].attempts[item.attempt], t'.stages[item.stage]);
    }
  }

  lemma HeartbeatKeeps(t: Task, item: Item, now: Time, seconds: Time)
    requires TaskInv(t) && HoldsLease(t, item, now)
    ensures TaskInv(Heartbeat(t, item, now, seconds))
  {
    var t' := Heartbeat(t, item, now, seconds);
    if item.stage == IMAGE_EDIT {
      HeldCandidate(t, item.attempt);
      HeldCandidateMove(t, item.attempt, RunningGen(t, item.attempt), t', None);
    } else {
      HeldIsLatest(t, item.stage, item.attempt);
      HeldMove(t, item.stage, item.attempt, t'.stages[item.stage].attempts[item.attempt], t'.stages[item.stage]);
    }
  }

  lemma FailPlainKeeps(t: Task, s: nat, a: nat, now: Time, r: Report)
    requires TaskInv(t) && s != IMAGE_EDIT && LeaseOf(t, s, a).Some? && !LeaseOf(t, s, a).value.revoked
    ensures TaskInv(FailPlain(t, s, a, now, r))
  {
    HeldIsLatest(t, s, a);
    var st := t.stages[s];
    var verdict := FailVerdict(r.cleanup, r.status, r.code, MayRetry(t, s, a));
    var att := st.attempts[a].(status := InState(verdict), lease := Released(st.attempts[a], r.cleanup));
    assert StageOk(st) && AttemptOk(st.attempts[a]);
    var x := WithAttempt(st, a, att).(state := verdict,
      notBefore := if verdict.Ready? then Backoff(now, r.retryAfter) else 0.0, error := Some(r.code));
    HeldMove(t, s, a, att, x);
  }

  lemma FailKeeps(t: Task, s: nat, a: nat, now: Time, r: Report, automatic: bool)
    requires TaskInv(t) && LeaseOf(t, s, a).Some? && !LeaseOf(t, s, a).value.revoked
    ensures TaskInv(FailTask(t, s, a, now, r, automatic))
  {
    if s == IMAGE_EDIT {
      HeldCandidate(t, a);
      FailCandidateKeeps(t, a, now, r, automatic);
    } else {
      FailPlainKeeps(t, s, a, now, r);
    }
  }

  lemma CurrentGroupReplaced(groups: seq<seq<Gen>>, a: nat, c: Candidate, status: GenStatus, image: bool, generations: nat)
    requires CandidateRuns(groups, a, Some(c)) && |CurrentGens(groups)| == generations
    ensures var gens := CurrentGens(groups)[c.index := Gen(status, a, image)];
            && WithGen(groups, c, status, image) == groups[|groups| - 1 := gens]
            && (GroupDone(gens, generations) <==> !AnyUnfinished(gens))
  {
    DoneMeansFinished(CurrentGens(groups)[c.index := Gen(status, a, image)], generations);
  }

  /** The attempt a partial review names belongs to the group being reviewed. */
  lemma LatestSucceededGroup(im: Stage, groups: seq<seq<Gen>>, generations: nat, gens: seq<Gen>, k: nat, g: Gen)
    requires GensOk(im, groups, generations) && groups != [] && k < |CurrentGens(groups)|
    requires gens == CurrentGens(groups)[k := g] && !g.status.GenSucceeded? && CountSucceeded(gens) > 0
    ensures LatestSucceeded(gens) >= 0
    ensures GroupOfAttempt(im.attempts, LatestSucceeded(gens)) == Some(|groups| - 1)
  {
    LatestSucceededExists(gens);
    var i :| 0 <= i < |gens| && gens[i].status.GenSucceeded? && gens[i].attempt == LatestSucceeded(gens);
    assert gens[i] == CurrentGens(groups)[i];
  }

  lemma {:induction false} LatestSucceededExists(gens: seq<Gen>)
    requires CountSucceeded(gens) > 0
    requires forall i :: 0 <= i < |gens| && gens[i].status.GenSucceeded? ==> gens[i].attempt >= 0
    ensures LatestSucceeded(gens) >= 0
  {
    if CountSucceeded(gens[..|gens| - 1]) > 0 {
      LatestSucceededExists(gens[..|gens| - 1]);
    }
  }

  function VerdictOn(t: Task, a: nat, r: Report): StageState
    requires ValidKey(t, IMAGE_EDIT, a)
  {
    FailVerdict(r.cleanup, r.status, r.code, MayRetry(t, IMAGE_EDIT, a))
  }

  function GenAfter(verdict: StageState, a: nat, image: bool): Gen {
    Gen(if verdict.Ready? then GenRetryable else GenTerminal, a, image)
  }

  function NewReview(attempt: int, automatic: bool): Review
    requires attempt >= 0
  {
    Review(attempt, if automatic then AcceptedByPolicy else Undecided)
  }

  lemma FailCandidateKeeps(t: Task, a: nat, now: Time, r: Report, automatic: bool)
    requires TaskInv(t) && LeaseOf(t, IMAGE_EDIT, a).Some? && !LeaseOf(t, IMAGE_EDIT, a).value.revoked
    requires t.stages[IMAGE_EDIT].attempts[a].candidate.Some?
    ensures TaskInv(FailCandidate(t, a, now, r, automatic))
  {
    HeldCandidate(t, a);
    var i := t.stages[IMAGE_EDIT].attempts[a].candidate.value.index;
    var g := GenAfter(VerdictOn(t, a, r), a, CurrentGens(t.groups)[i].image);
    var review := FailCandidateReview(t, a, now, r, automatic);
    HeldCandidateMove(t, a, g, FailCandidate(t, a, now, r, automatic), review);
  }

  lemma FailCandidateReview(t: Task, a: nat, now: Time, r: Report, automatic: bool) returns (review: Option<Review>)
    requires |t.stages| == STAGE_COUNT && LeaseOf(t, IMAGE_EDIT, a).Some?
    requires AttemptOk(t.stages[IMAGE_EDIT].attempts[a])
    requires CandidateRuns(t.groups, a, t.stages[IMAGE_EDIT].attempts[a].candidate)
    requires GensOk(t.stages[IMAGE_EDIT], t.groups, t.generations)
    ensures var i := t.stages[IMAGE_EDIT].attempts[a].candidate.value.index;
            CandidateRewritten(t, a, GenAfter(VerdictOn(t, a, r), a, CurrentGens(t.groups)[i].image),
                               FailCandidate(t, a, now, r, automatic), review)
  {
    var c := t.stages[IMAGE_EDIT].attempts[a].candidate.value;
    var g := GenAfter(VerdictOn(t, a, r), a, CurrentGens(t.groups)[c.index].image);
    CurrentGroupReplaced(t.groups, a, c, g.status, g.image, t.generations);
    var gens' := CurrentGens(t.groups)[c.index := g];
    review := None;
    if VerdictOn(t, a, r).FailedTerminal? && GroupDone(gens', t.generations) && CountSucceeded(gens') > 0 {
      LatestSucceededGroup(t.stages[IMAGE_EDIT], t.groups, t.generations, gens', c.index, g);
      review := Some(NewReview(LatestSucceeded(gens'), automatic));
    }
    FailCandidateRewrites(t, a, now, r, automatic, g, review);
  }

  lemma FailCandidateRewrites(t: Task, a: nat, now: Time, r: Report, automatic: bool, g: Gen, review: Option<Review>)
    requires |t.stages| == STAGE_COUNT && LeaseOf(t, IMAGE_EDIT, a).Some?
    requires AttemptOk(t.stages[IMAGE_EDIT].attempts[a])
    requires CandidateRuns(t.groups, a, t.stages[IMAGE_EDIT].attempts[a].candidate)
    requires var c := t.stages[IMAGE_EDIT].attempts[a].candidate.value;
             var verdict := VerdictOn(t, a, r);
             var gens' := CurrentGens(t.groups)[c.index := g];
             && g == GenAfter(verdict, a, CurrentGens(t.groups)[c.index].image)
             && WithGen(t.groups, c, g.status, g.image) == t.groups[|t.groups| - 1 := gens']
             && (GroupDone(gens', t.generations) ==> !AnyUnfinished(gens'))
             && (review.Some? <==> verdict.FailedTerminal? && GroupDone(gens', t.generations) && CountSucceeded(gens') > 0)
             && (review.Some? ==>
                   && LatestSucceeded(gens') >= 0
                   && review.value == NewReview(LatestSucceeded(gens'), automatic)
                   && GroupOfAttempt(t.stages[IMAGE_EDIT].attempts, LatestSucceeded(gens')) == Some(|t.groups| - 1))
    ensures CandidateRewritten(t, a, g, FailCandidate(t, a, now, r, automatic), review)
  {
  }

  // ---------------------------------------------------------------- publication

  lemma PrepareKeeps(t: Task, item: Item, now: Time, artifacts: seq<Artifact>)
    requires TaskInv(t) && CanPrepare(t, item, now)
    ensures TaskInv(PreparedTask(t, item.stage, item.attempt, artifacts))
  {
    var t' := PreparedTask(t, item.stage, item.attempt, artifacts);
    if item.stage == IMAGE_EDIT {
      HeldCandidate(t, item.attempt);
      HeldCandidateMove(t, item.attempt, RunningGen(t, item.attempt), t', None);
    } else {
      HeldIsLatest(t, item.stage, item.attempt);
      HeldMove(t, item.stage, item.attempt, t'.stages[item.stage].attempts[item.attempt], t'.stages[item.stage]);
    }
  }

  lemma FinalizeKeeps(t: Task, s: nat, a: nat, automatic: bool)
    requires TaskInv(t) && CanFinalize(t, s, a, None)
    ensures TaskInv(FinalizedTask(t, s, a, automatic))
  {
    var t' := FinalizedTask(t, s, a, automatic);
    if s == IMAGE_EDIT {
      HeldCandidate(t, a);
      FinalizeCandidateKeeps(t, a, automatic);
    } else {
      HeldIsLatest(t, s, a);
      HeldMove(t, s, a, t'.stages[s].attempts[a], t'.stages[s]);
    }
  }

  lemma FinalizeCandidateKeeps(t: Task, a: nat, automatic: bool)
    requires TaskInv(t) && CanFinalize(t, IMAGE_EDIT, a, None)
    requires CandidateRuns(t.groups, a, t.stages[IMAGE_EDIT].attempts[a].candidate)
    ensures TaskInv(FinalizedTask(t, IMAGE_EDIT, a, automatic))
  {
    var image := HasImage(t.stages[IMAGE_EDIT].attempts[a].commit.value.artifacts);
    var review := FinalizeReview(t, a, automatic);
    HeldCandidateMove(t, a, Gen(GenSucceeded, a, image), FinalizedTask(t, IMAGE_EDIT, a, automatic), review);
  }

  lemma FinalizeReview(t: Task, a: nat, automatic: bool) returns (review: Option<Review>)
    requires |t.stages| == STAGE_COUNT && CanFinalize(t, IMAGE_EDIT, a, None)
    requires CandidateRuns(t.groups, a, t.stages[IMAGE_EDIT].attempts[a].candidate)
    requires |CurrentGens(t.groups)| == t.generations
    ensures CandidateRewritten(t, a, Gen(GenSucceeded, a, HasImage(t.stages[IMAGE_EDIT].attempts[a].commit.value.artifacts)),
                               FinalizedTask(t, IMAGE_EDIT, a, automatic), review)
  {
    var c := t.stages[IMAGE_EDIT].attempts[a].candidate.value;
    var g := Gen(GenSucceeded, a, HasImage(t.stages[IMAGE_EDIT].attempts[a].commit.value.artifacts));
    CurrentGroupReplaced(t.groups, a, c, g.status, g.image, t.generations);
    review := if GroupDone(CurrentGens(t.groups)[c.index := g], t.generations) then Some(NewReview(a, automatic)) else None;
  }
}
