/** What every controller call keeps about the rows of one task. */
module TaskInvariant {
  import opened Tables
  import opened Transitions
  import opened ChainShape

  // ---------------------------------------------------------------- the invariant

  /** Artifact rows exist exactly for committed intents, once; expiry leaves no recorded intent open. */
  predicate AttemptOk(att: Attempt) {
    && att.artifacts == (if IsCommitted(att) then att.commit.value.artifacts else [])
    && (att.status == InState(Succeeded) <==> IsCommitted(att))
    && (att.status.LeaseExpired? ==> att.commit.None?)
    && (att.commit.Some? && !OpenCommit(att.commit) ==> att.lease.None?)
  }

  predicate Holding(x: StageState) {
    x.Leased? || x.Running? || x.Committing?
  }

  predicate HoldsNothing(x: StageState) {
    x.Pending? || x.Ready? || x.Succeeded? || x.WaitingReview? || x.WaitingManual? || x.Rejected?
  }

  function LastLease(st: Stage): Option<Lease> {
    if st.attempts == [] then None else st.attempts[|st.attempts| - 1].lease
  }

  predicate LeaseMatches(st: Stage) {
    && (forall a :: 0 <= a < |st.attempts| - 1 ==> st.attempts[a].lease.None?)
    && (Holding(st.state) ==> LastLease(st).Some? && !LastLease(st).value.revoked)
    && (st.state.Recovering? ==>
          LastLease(st).Some? && LastLease(st).value.revoked && st.attempts[|st.attempts| - 1].status == InState(Recovering))
    && (HoldsNothing(st.state) ==> LastLease(st).None?)
    && (LastLease(st).Some? && !LastLease(st).value.revoked ==> Holding(st.state))
  }

  predicate StageOk(st: Stage) {
    && LeaseMatches(st)
    && |st.attempts| <= st.maxAttempts
    && (forall a :: 0 <= a < |st.attempts| ==> AttemptOk(st.attempts[a]))
  }

  predicate CandidateRuns(groups: seq<seq<Gen>>, a: nat, c: Option<Candidate>) {
    var gens := CurrentGens(groups);
    && c.Some?
    && c.value.group == |groups| - 1
    && c.value.index < |gens|
    && gens[c.value.index].status.GenRunning?
    && gens[c.value.index].attempt == a
  }

  predicate AnyLease(st: Stage) {
    exists a :: 0 <= a < |st.attempts| && st.attempts[a].lease.Some?
  }

  /** Attempts of the image stage belong to generation groups in order, and an attempt that may still
      write runs a candidate of the current group. */
  predicate CandidatesOk(im: Stage, groups: seq<seq<Gen>>) {
    && (forall a :: 0 <= a < |im.attempts| ==>
          AttemptOk(im.attempts[a]) && im.attempts[a].candidate.Some? && im.attempts[a].candidate.value.group < |groups|)
    && (forall a, b :: 0 <= a < b < |im.attempts| ==>
          im.attempts[a].candidate.value.group <= im.attempts[b].candidate.value.group)
    && (forall a :: 0 <= a < |im.attempts| && im.attempts[a].lease.Some? && !im.attempts[a].lease.value.revoked ==>
          CandidateRuns(groups, a, im.attempts[a].candidate))
  }

  ghost predicate CandidateBudget(im: Stage) {
    forall c: Candidate :: AttemptsOf(im.attempts, c) <= im.maxAttempts
  }

  predicate GensOk(im: Stage, groups: seq<seq<Gen>>, generations: nat) {
    var gens := CurrentGens(groups);
    && (gens == [] || |gens| == generations)
    && (forall i :: 0 <= i < |gens| && gens[i].status.GenSucceeded? ==>
          0 <= gens[i].attempt < |im.attempts| && im.attempts[gens[i].attempt].candidate == Some(Candidate(|groups| - 1, i)))
    && (im.state.Succeeded? ==> !AnyUnfinished(gens))
    && (im.state.Pending? ==> im.attempts == [])
    && (Holding(im.state) || im.state.Recovering? ==> AnyLease(im))
  }

  ghost predicate ImageOk(im: Stage, groups: seq<seq<Gen>>, generations: nat) {
    groups != [] && CandidatesOk(im, groups) && CandidateBudget(im) && GensOk(im, groups, generations)
  }

  function ReviewGroup(attempts: seq<Attempt>, r: Review): int {
    var g := GroupOfAttempt(attempts, r.attempt);
    if g.Some? then g.value else -1
  }

  /** One review per completed generation group, in order. */
  predicate ReviewsOrdered(attempts: seq<Attempt>, groups: nat, reviews: seq<Review>, done: bool) {
    && (forall r :: 0 <= r < |reviews| ==> 0 <= ReviewGroup(attempts, reviews[r]) < groups)
    && (forall r, q :: 0 <= r < q < |reviews| ==> ReviewGroup(attempts, reviews[r]) < ReviewGroup(attempts, reviews[q]))
    && (done ==> reviews != [] && ReviewGroup(attempts, reviews[|reviews| - 1]) == groups - 1)
    && (!done ==> forall r :: 0 <= r < |reviews| ==> ReviewGroup(attempts, reviews[r]) < groups - 1)
  }

  /** Only the last review can await a decision, and only while the gate waits for it. */
  predicate ReviewsDecided(reviews: seq<Review>, done: bool, gate: StageState) {
    forall r :: 0 <= r < |reviews| && reviews[r].decision.Undecided? ==>
      r == |reviews| - 1 && done && (gate.Pending? || gate.WaitingReview? || gate.Canceled?)
  }

  predicate ReviewsOk(im: Stage, gate: StageState, groups: nat, reviews: seq<Review>) {
    ReviewsOrdered(im.attempts, groups, reviews, im.state.Succeeded?) && ReviewsDecided(reviews, im.state.Succeeded?, gate)
  }

  predicate LastReviewAccepted(reviews: seq<Review>, accepted: Option<nat>, gens: seq<Gen>) {
    && reviews != []
    && var d := reviews[|reviews| - 1].decision;
    && (d.Accepted? || d.AcceptedByPolicy?)
    && (d.Accepted? ==> accepted.Some? && accepted.value < |gens| && Selectable(gens[accepted.value]))
  }

  predicate GateOk(st: seq<Stage>, reviews: seq<Review>, accepted: Option<nat>, gens: seq<Gen>)
    requires |st| == STAGE_COUNT
  {
    var gate := st[EDIT_GATE];
    && gate.attempts == []
    && (gate.state.Pending? || gate.state.WaitingReview? || gate.state.Succeeded? || gate.state.Rejected? || gate.state.Canceled?)
    && (gate.state.Succeeded? ==> LastReviewAccepted(reviews, accepted, gens))
    && (reviews != [] && reviews[|reviews| - 1].decision.Accepted? ==> gate.state.Succeeded?)
    && (forall i :: EDIT_GATE < i < STAGE_COUNT && st[i].attempts != [] ==> gate.state.Succeeded?)
  }

  predicate PlainStagesOk(st: seq<Stage>)
    requires |st| == STAGE_COUNT
  {
    forall i :: 0 <= i < STAGE_COUNT && i != IMAGE_EDIT ==> StageOk(st[i])
  }

  ghost predicate TaskInv(t: Task) {
    && Linked(t.stages)
    && t.generations > 0
    && (t.stages[IMAGE_EDIT].attempts != [] ==> t.stages[UNITY_ANCHOR].state.Succeeded?)
    && PlainStagesOk(t.stages)
    && ImageOk(t.stages[IMAGE_EDIT], t.groups, t.generations)
    && ReviewsOk(t.stages[IMAGE_EDIT], t.stages[EDIT_GATE].state, |t.groups|, t.reviews)
    && GateOk(t.stages, t.reviews, t.accepted, CurrentGens(t.groups))
  }

  lemma PlannedTaskInv(project: nat, projectOrder: int, order: int, generations: nat)
    requires generations > 0
    ensures TaskInv(PlannedTask(project, projectOrder, order, generations))
  {
  }

  // ---------------------------------------------------------------- moving one stage

  /** A call that rewrites one stage other than the image stage and the gate. */
  lemma PlainMove(t: Task, s: nat, x: Stage)
    requires TaskInv(t) && s < STAGE_COUNT && s != IMAGE_EDIT && s != EDIT_GATE
    requires Live(t.stages[s].state) && StageOk(x)
    ensures TaskInv(WithStage(t, s, x))
  {
    MoveKeepsLinked(t.stages, s, x);
    if s > EDIT_GATE {
      GateBefore(t.stages, s);
    }
    RowsUnchanged(t, WithStage(t, s, x));
  }

  lemma ReroutedKeeps(st: Stage, i: nat, failed: nat, code: ErrorCode)
    requires StageOk(st)
    ensures StageOk(Rerouted(st, i, failed, code))
  {
  }

  lemma ReroutedStages(t: Task, s: nat, code: ErrorCode)
    requires |t.stages| == STAGE_COUNT && PlainStagesOk(t.stages) && MODEL_GENERATION <= s <= SAGS_SEGMENT_VOTE
    ensures PlainStagesOk(RouteDebugBundle(t, s, code).stages)
  {
    var t' := RouteDebugBundle(t, s, code);
    forall i | 0 <= i < STAGE_COUNT && i != IMAGE_EDIT ensures StageOk(t'.stages[i]) {
      ReroutedKeeps(t.stages[i], i, s, code);
    }
  }

  lemma ReroutedRows(t: Task, s: nat, code: ErrorCode)
    requires |t.stages| == STAGE_COUNT && MODEL_GENERATION <= s <= SAGS_SEGMENT_VOTE
    ensures var t' := RouteDebugBundle(t, s, code);
            && t' == t.(stages := t'.stages)
            && (forall i :: 0 <= i <= EDIT_GATE ==> t'.stages[i] == t.stages[i])
            && forall i :: 0 <= i < STAGE_COUNT ==> t'.stages[i].attempts == t.stages[i].attempts
  {
  }

  /** The diversion touches only stages that hold no lease. */
  lemma RouteKeeps(t: Task, s: nat, code: ErrorCode)
    requires TaskInv(t) && s < STAGE_COUNT && Linked(RouteDebugBundle(t, s, code).stages)
    ensures TaskInv(RouteDebugBundle(t, s, code))
  {
    if MODEL_GENERATION <= s <= SAGS_SEGMENT_VOTE {
      ReroutedStages(t, s, code);
      ReroutedRows(t, s, code);
      RowsUnchanged(t, RouteDebugBundle(t, s, code));
    }
  }

  /** Rows of the image stage and the gate that no longer depend on the other stages' states. */
  lemma RowsUnchanged(t: Task, t': Task)
    requires TaskInv(t) && Linked(t'.stages) && PlainStagesOk(t'.stages)
    requires t' == t.(stages := t'.stages)
    requires t'.stages[IMAGE_EDIT] == t.stages[IMAGE_EDIT] && t'.stages[EDIT_GATE] == t.stages[EDIT_GATE]
    requires t.stages[IMAGE_EDIT].attempts != [] ==> t'.stages[UNITY_ANCHOR].state.Succeeded?
    requires forall i :: EDIT_GATE < i < STAGE_COUNT && t'.stages[i].attempts != [] ==> t.stages[EDIT_GATE].state.Succeeded?
    ensures TaskInv(t')
  {
  }

  lemma LostMove(t: Task, s: nat, x: Stage, code: ErrorCode)
    requires TaskInv(t) && s < STAGE_COUNT && s != IMAGE_EDIT && s != EDIT_GATE
    requires Live(t.stages[s].state) && StageOk(x) && Lost(x.state)
    ensures TaskInv(RouteDebugBundle(WithStage(t, s, x), s, code))
  {
    PlainMove(t, s, x);
    RouteKeepsLinked(t, s, x, code);
    RouteKeeps(WithStage(t, s, x), s, code);
  }

  predicate SameCandidates(a: seq<Attempt>, b: seq<Attempt>) {
    |a| <= |b| && forall i :: 0 <= i < |a| ==> a[i].candidate == b[i].candidate
  }

  /** A call that rewrites the image stage and its current generation rows, without finishing the group
      or finishing it together with its one review. */
  lemma ImageMove(t: Task, t': Task, review: Option<Review>)
    requires TaskInv(t) && Movable(t.stages, IMAGE_EDIT)
    requires t.stages[UNITY_ANCHOR].state.Succeeded?
    requires |t'.stages| == STAGE_COUNT && t'.stages == t.stages[IMAGE_EDIT := t'.stages[IMAGE_EDIT]]
    requires |t'.groups| == |t.groups| && t'.generations == t.generations
    requires SameCandidates(t.stages[IMAGE_EDIT].attempts, t'.stages[IMAGE_EDIT].attempts)
    requires ImageOk(t'.stages[IMAGE_EDIT], t'.groups, t'.generations)
    requires t'.stages[IMAGE_EDIT].state.Succeeded? <==> review.Some?
    requires review.None? ==> t'.reviews == t.reviews
    requires review.Some? ==> t'.reviews == t.reviews + [review.value] && !review.value.decision.Accepted?
                              && GroupOfAttempt(t'.stages[IMAGE_EDIT].attempts, review.value.attempt) == Some(|t.groups| - 1)
    ensures TaskInv(t')
  {
    MoveKeepsLinked(t.stages, IMAGE_EDIT, t'.stages[IMAGE_EDIT]);
    assert !Active(t.stages[EDIT_GATE].state);
    assert t'.stages[EDIT_GATE] == t.stages[EDIT_GATE];
    ReviewsKept(t.stages[IMAGE_EDIT], t'.stages[IMAGE_EDIT], t.stages[EDIT_GATE].state, |t.groups|, t.reviews, review);
  }

  lemma ReviewsKept(im: Stage, im': Stage, gate: StageState, groups: nat, reviews: seq<Review>, review: Option<Review>)
    requires ReviewsOk(im, gate, groups, reviews) && !im.state.Succeeded? && !Active(gate)
    requires SameCandidates(im.attempts, im'.attempts)
    requires im'.state.Succeeded? <==> review.Some?
    requires review.Some? ==> GroupOfAttempt(im'.attempts, review.value.attempt) == Some(groups - 1)
    ensures ReviewsOk(im', gate, groups, if review.Some? then reviews + [review.value] else reviews)
  {
    var reviews' := if review.Some? then reviews + [review.value] else reviews;
    forall r | 0 <= r < |reviews| ensures ReviewGroup(im'.attempts, reviews'[r]) == ReviewGroup(im.attempts, reviews[r]) {
      assert reviews'[r] == reviews[r];
    }
  }

  lemma {:induction false} CountBySameCandidates(a: seq<Attempt>, b: seq<Attempt>, c: Candidate)
    requires |a| == |b| && SameCandidates(a, b)
    ensures AttemptsOf(a, c) == AttemptsOf(b, c)
  {
    if a != [] {
      CountBySameCandidates(a[..|a| - 1], b[..|b| - 1], c);
    }
  }

  lemma CountAfterAppend(a: seq<Attempt>, x: Attempt, c: Candidate)
    ensures AttemptsOf(a + [x], c) == AttemptsOf(a, c) + (if x.candidate == Some(c) then 1 else 0)
  {
    assert (a + [x])[..|a|] == a;
  }

  lemma {:induction false} AllSucceeded(gens: seq<Gen>, i: nat)
    requires CountSucceeded(gens) == |gens| && i < |gens|
    ensures gens[i].status.GenSucceeded?
  {
    if i < |gens| - 1 {
      AllSucceeded(gens[..|gens| - 1], i);
    }
  }

  /** With the whole group materialized, enough successes means nothing is left to run. */
  lemma DoneMeansFinished(gens: seq<Gen>, required: nat)
    requires |gens| == required
    ensures GroupDone(gens, required) <==> !AnyUnfinished(gens)
  {
    if CountSucceeded(gens) >= required {
      forall i | 0 <= i < |gens| ensures !Unfinished(gens[i].status) {
        AllSucceeded(gens, i);
      }
    }
  }

  /** Attempts keep their candidate counts when only their rows' other columns change. */
  lemma CountsUnchanged(a: seq<Attempt>, b: seq<Attempt>)
    requires |a| == |b| && SameCandidates(a, b)
    ensures forall c: Candidate :: AttemptsOf(a, c) == AttemptsOf(b, c)
  {
    forall c: Candidate ensures AttemptsOf(a, c) == AttemptsOf(b, c) {
      CountBySameCandidates(a, b, c);
    }
  }
}
