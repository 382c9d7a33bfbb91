/** Leasing, cancellation and edit decisions keep the task invariant. */
module OperatorSteps {
  import opened Tables
  import opened Transitions
  import opened ChainShape
  import opened TaskInvariant
  import opened TaskSteps

  // ---------------------------------------------------------------- leasing

  /** The states from which `lease_next` may pick a stage. */
  predicate Queued(s: nat, st: Stage) {
    st.state.Ready? || (s == IMAGE_EDIT && (st.state.Leased? || st.state.Running?))
  }

  function PlainLeased(st: Stage, lease: Lease): Stage {
    if |st.attempts| >= st.maxAttempts then st.(state := FailedTerminal, error := Some(AttemptsExhausted))
    else st.(state := Leased, attempts := st.attempts + [NewAttempt(None, lease)])
  }

  lemma PlainLeasedOk(st: Stage, lease: Lease)
    requires StageOk(st) && st.state.Ready? && !lease.revoked
    ensures StageOk(PlainLeased(st, lease))
  {
  }

  lemma PlainLeaseKeeps(t: Task, s: nat, now: Time, lease: Lease, automatic: bool)
    requires TaskInv(t) && s < STAGE_COUNT && s != IMAGE_EDIT && Queued(s, t.stages[s]) && !lease.revoked
    ensures TaskInv(TryLease(t, s, now, lease, automatic).task)
  {
    var x := PlainLeased(t.stages[s], lease);
    assert StageOk(t.stages[s]);
    PlainLeasedOk(t.stages[s], lease);
    PlainMove(t, s, x);
    LastIrrelevant(WithStage(t, s, x), Some(now));
  }

  lemma LastIrrelevant(t: Task, last: Option<Time>)
    requires TaskInv(t)
    ensures TaskInv(t.(last := last))
  {
  }

  lemma MaterializeKeeps(t: Task)
    requires TaskInv(t) && Queued(IMAGE_EDIT, t.stages[IMAGE_EDIT])
    ensures TaskInv(Materialized(t)) && |CurrentGens(Materialized(t).groups)| == t.generations
    ensures Materialized(t).stages == t.stages
  {
    var t' := Materialized(t);
    if CurrentGens(t.groups) == [] {
      assert t'.stages == t.stages[IMAGE_EDIT := t.stages[IMAGE_EDIT]];
      ImageMove(t, t', None);
    }
  }

  lemma {:induction false} LastSucceededExists(gens: seq<Gen>)
    requires CountSucceeded(gens) > 0
    ensures exists i :: 0 <= i < |gens| && gens[i].status.GenSucceeded? && gens[i].attempt == AttemptOfLastSucceeded(gens)
  {
    if !gens[|gens| - 1].status.GenSucceeded? {
      LastSucceededExists(gens[..|gens| - 1]);
      var i :| 0 <= i < |gens| - 1 && gens[i].status.GenSucceeded? && gens[i].attempt == AttemptOfLastSucceeded(gens);
      assert gens[i].status.GenSucceeded?;
    }
  }

  lemma ClosedImage(im: Stage, groups: seq<seq<Gen>>, generations: nat, x: Stage)
    requires ImageOk(im, groups, generations) && !AnyUnfinished(CurrentGens(groups))
    requires x.attempts == im.attempts && x.maxAttempts == im.maxAttempts && (x.state.Succeeded? || x.state.FailedTerminal?)
    ensures ImageOk(x, groups, generations)
  {
  }

  lemma ClosedReviewGroup(im: Stage, groups: seq<seq<Gen>>, generations: nat)
    requires GensOk(im, groups, generations) && groups != [] && CountSucceeded(CurrentGens(groups)) > 0
    ensures AttemptOfLastSucceeded(CurrentGens(groups)) >= 0
    ensures GroupOfAttempt(im.attempts, AttemptOfLastSucceeded(CurrentGens(groups))) == Some(|groups| - 1)
  {
    LastSucceededExists(CurrentGens(groups));
  }

  lemma GroupSucceededKeeps(t: Task, automatic: bool)
    requires TaskInv(t) && Queued(IMAGE_EDIT, t.stages[IMAGE_EDIT])
    requires !AnyUnfinished(CurrentGens(t.groups)) && CountSucceeded(CurrentGens(t.groups)) > 0
    ensures TaskInv(AddReview(WithStage(t, IMAGE_EDIT, t.stages[IMAGE_EDIT].(state := Succeeded)),
                              AttemptOfLastSucceeded(CurrentGens(t.groups)), automatic))
  {
    var im, gens := t.stages[IMAGE_EDIT], CurrentGens(t.groups);
    ClosedImage(im, t.groups, t.generations, im.(state := Succeeded));
    ClosedReviewGroup(im, t.groups, t.generations);
    ImageMove(t, AddReview(WithStage(t, IMAGE_EDIT, im.(state := Succeeded)), AttemptOfLastSucceeded(gens), automatic),
              Some(NewReview(AttemptOfLastSucceeded(gens), automatic)));
  }

  lemma GroupFailedKeeps(t: Task)
    requires TaskInv(t) && Queued(IMAGE_EDIT, t.stages[IMAGE_EDIT]) && !AnyUnfinished(CurrentGens(t.groups))
    ensures TaskInv(WithStage(t, IMAGE_EDIT, t.stages[IMAGE_EDIT].(state := FailedTerminal, error := Some(AttemptsExhausted))))
  {
    var x := t.stages[IMAGE_EDIT].(state := FailedTerminal, error := Some(AttemptsExhausted));
    ClosedImage(t.stages[IMAGE_EDIT], t.groups, t.generations, x);
    ImageMove(t, WithStage(t, IMAGE_EDIT, x), None);
  }

  /** With no candidate left to run the group ends, with its one review if anything succeeded. */
  lemma GroupClosedKeeps(t: Task, automatic: bool)
    requires TaskInv(t) && Queued(IMAGE_EDIT, t.stages[IMAGE_EDIT])
    requires FirstWhere(CurrentGens(t.groups), (g: GenStatus) => Waiting(g)).None?
    ensures TaskInv(GroupClosed(t, automatic))
  {
    var gens := CurrentGens(t.groups);
    if !exists i :: 0 <= i < |gens| && gens[i].status.GenRunning? {
      assert !AnyUnfinished(gens);
      if CountSucceeded(gens) > 0 {
        GroupSucceededKeeps(t, automatic);
      } else {
        GroupFailedKeeps(t);
      }
    }
  }

  lemma ExhaustedCandidateKeeps(t: Task, i: nat)
    requires TaskInv(t) && Queued(IMAGE_EDIT, t.stages[IMAGE_EDIT])
    requires i < |CurrentGens(t.groups)| && Waiting(CurrentGens(t.groups)[i].status)
    ensures TaskInv(CandidateExhausted(t, i))
  {
    var t' := CandidateExhausted(t, i);
    var im := t.stages[IMAGE_EDIT];
    assert t'.stages == t.stages[IMAGE_EDIT := im];
    forall a | 0 <= a < |im.attempts| && im.attempts[a].lease.Some? && !im.attempts[a].lease.value.revoked
      ensures CandidateRuns(t'.groups, a, im.attempts[a].candidate)
    {
      assert CandidateRuns(t.groups, a, im.attempts[a].candidate);
    }
    assert CandidatesOk(im, t'.groups);
    ImageMove(t, t', None);
  }

  function GrantedStage(im: Stage, c: Candidate, lease: Lease): Stage {
    im.(state := Running, attempts := im.attempts + [NewAttempt(Some(c), lease)])
  }

  function GrantedGroups(im: Stage, groups: seq<seq<Gen>>, i: nat): seq<seq<Gen>>
    requires i < |CurrentGens(groups)|
  {
    var gens := CurrentGens(groups);
    groups[|groups| - 1 := gens[i := gens[i].(status := GenRunning, attempt := |im.attempts|)]]
  }

  lemma GrantedCandidates(im: Stage, groups: seq<seq<Gen>>, i: nat, lease: Lease)
    requires CandidatesOk(im, groups) && i < |CurrentGens(groups)| && Waiting(CurrentGens(groups)[i].status)
    ensures CandidatesOk(GrantedStage(im, Candidate(|groups| - 1, i), lease), GrantedGroups(im, groups, i))
  {
    var x := GrantedStage(im, Candidate(|groups| - 1, i), lease);
    forall a | 0 <= a < |x.attempts| && x.attempts[a].lease.Some? && !x.attempts[a].lease.value.revoked
      ensures CandidateRuns(GrantedGroups(im, groups, i), a, x.attempts[a].candidate)
    {
      if a < |im.attempts| {
        assert CandidateRuns(groups, a, im.attempts[a].candidate);
      }
    }
  }

  lemma GrantedBudget(im: Stage, c: Candidate, lease: Lease)
    requires CandidateBudget(im) && AttemptsOf(im.attempts, c) < im.maxAttempts
    ensures CandidateBudget(GrantedStage(im, c, lease))
  {
    forall d: Candidate ensures AttemptsOf(GrantedStage(im, c, lease).attempts, d) <= im.maxAttempts {
      CountAfterAppend(im.attempts, NewAttempt(Some(c), lease), d);
    }
  }

  lemma GrantedGens(im: Stage, groups: seq<seq<Gen>>, generations: nat, i: nat, lease: Lease)
    requires GensOk(im, groups, generations) && groups != [] && i < |CurrentGens(groups)|
    ensures GensOk(GrantedStage(im, Candidate(|groups| - 1, i), lease), GrantedGroups(im, groups, i), generations)
  {
    assert GrantedStage(im, Candidate(|groups| - 1, i), lease).attempts[|im.attempts|].lease.Some?;
  }

  lemma GrantedImage(im: Stage, groups: seq<seq<Gen>>, generations: nat, i: nat, lease: Lease)
    requires ImageOk(im, groups, generations) && !lease.revoked
    requires i < |CurrentGens(groups)| && Waiting(CurrentGens(groups)[i].status)
    requires AttemptsOf(im.attempts, Candidate(|groups| - 1, i)) < im.maxAttempts
    ensures ImageOk(GrantedStage(im, Candidate(|groups| - 1, i), lease), GrantedGroups(im, groups, i), generations)
  {
    var c := Candidate(|groups| - 1, i);
    GrantedCandidates(im, groups, i, lease);
    GrantedBudget(im, c, lease);
    GrantedGens(im, groups, generations, i, lease);
  }

  lemma GrantKeeps(t: Task, i: nat, now: Time, lease: Lease)
    requires TaskInv(t) && Queued(IMAGE_EDIT, t.stages[IMAGE_EDIT]) && !lease.revoked
    requires i < |CurrentGens(t.groups)| && Waiting(CurrentGens(t.groups)[i].status)
    requires AttemptsOf(t.stages[IMAGE_EDIT].attempts, Candidate(|t.groups| - 1, i)) < t.stages[IMAGE_EDIT].maxAttempts
    ensures TaskInv(CandidateGranted(t, i, now, lease))
  {
    GrantedImage(t.stages[IMAGE_EDIT], t.groups, t.generations, i, lease);
    ImageMove(t, CandidateGranted(t, i, now, lease), None);
  }

  lemma TryCandidateCases(t: Task, now: Time, lease: Lease, automatic: bool)
    requires |t.stages| == STAGE_COUNT && t.groups != []
    ensures var pick := FirstWhere(CurrentGens(t.groups), (g: GenStatus) => Waiting(g));
            var im := t.stages[IMAGE_EDIT];
            TryCandidate(t, now, lease, automatic).task ==
              if pick.None? then GroupClosed(t, automatic)
              else if AttemptsOf(im.attempts, Candidate(|t.groups| - 1, pick.value)) >= im.maxAttempts
                then CandidateExhausted(t, pick.value)
              else CandidateGranted(t, pick.value, now, lease)
  {
  }

  lemma CandidateLeaseKeeps(t: Task, now: Time, lease: Lease, automatic: bool)
    requires TaskInv(t) && Queued(IMAGE_EDIT, t.stages[IMAGE_EDIT]) && !lease.revoked
    ensures TaskInv(TryCandidate(t, now, lease, automatic).task)
  {
    var im := t.stages[IMAGE_EDIT];
    var pick := FirstWhere(CurrentGens(t.groups), (g: GenStatus) => Waiting(g));
    TryCandidateCases(t, now, lease, automatic);
    if pick.None? {
      GroupClosedKeeps(t, automatic);
    } else if AttemptsOf(im.attempts, Candidate(|t.groups| - 1, pick.value)) >= im.maxAttempts {
      ExhaustedCandidateKeeps(t, pick.value);
    } else {
      GrantKeeps(t, pick.value, now, lease);
    }
  }

  lemma LeaseKeeps(t: Task, s: nat, now: Time, lease: Lease, automatic: bool)
    requires TaskInv(t) && s < STAGE_COUNT && Queued(s, t.stages[s]) && !lease.revoked
    ensures TaskInv(TryLease(t, s, now, lease, automatic).task)
  {
    if s == IMAGE_EDIT {
      MaterializeKeeps(t);
      CandidateLeaseKeeps(Materialized(t), now, lease, automatic);
    } else {
      PlainLeaseKeeps(t, s, now, lease, automatic);
    }
  }

  // ---------------------------------------------------------------- cancellation

  lemma CanceledPlain(st: Stage, outcome: CancelOutcome)
    requires StageOk(st)
    ensures StageOk(CanceledStage(st, outcome))
    ensures CanceledStage(st, outcome).state.Canceled? || CanceledStage(st, outcome).state.FailedTerminal?
            || CanceledStage(st, outcome).state == st.state
    ensures CanceledStage(st, outcome).state.FailedTerminal? && !st.state.FailedTerminal? ==> Live(st.state) && AnyLease(st)
  {
    if !Terminal(st.state) {
      CanceledRows(st, outcome);
      CanceledEarlier(st, outcome);
    }
  }

  lemma CanceledEarlier(st: Stage, outcome: CancelOutcome)
    requires !Terminal(st.state) && forall a :: 0 <= a < |st.attempts| - 1 ==> st.attempts[a].lease.None?
    ensures forall a :: 0 <= a < |CanceledStage(st, outcome).attempts| - 1 ==> CanceledStage(st, outcome).attempts[a].lease.None?
  {
  }

  /** What cancellation leaves of the rows of a stage that was not finished. */
  lemma CanceledRows(st: Stage, outcome: CancelOutcome)
    requires !Terminal(st.state) && forall b :: 0 <= b < |st.attempts| ==> AttemptOk(st.attempts[b])
    ensures var x := CanceledStage(st, outcome);
            && |x.attempts| == |st.attempts| && x.maxAttempts == st.maxAttempts && SameCandidates(st.attempts, x.attempts)
            && (x.state.Canceled? || (x.state.FailedTerminal? && AnyLease(st)))
            && forall b :: 0 <= b < |x.attempts| ==>
                 AttemptOk(x.attempts[b]) && (x.attempts[b].lease.None? || x.attempts[b].lease.value.revoked)
  {
    assert forall b :: 0 <= b < |st.attempts| ==> AttemptOk(st.attempts[b]);
  }

  /** An image stage that is given up with all its leases revoked. */
  lemma GivenUpImage(im: Stage, groups: seq<seq<Gen>>, generations: nat, x: Stage)
    requires ImageOk(im, groups, generations)
    requires |x.attempts| == |im.attempts| && x.maxAttempts == im.maxAttempts && SameCandidates(im.attempts, x.attempts)
    requires x.state.Canceled? || x.state.FailedTerminal?
    requires forall b :: 0 <= b < |x.attempts| ==>
               AttemptOk(x.attempts[b]) && (x.attempts[b].lease.None? || x.attempts[b].lease.value.revoked)
    ensures ImageOk(x, groups, generations)
  {
    CountsUnchanged(im.attempts, x.attempts);
  }

  lemma CanceledImage(im: Stage, groups: seq<seq<Gen>>, generations: nat, outcome: CancelOutcome)
    requires ImageOk(im, groups, generations)
    ensures ImageOk(CanceledStage(im, outcome), groups, generations)
    ensures SameCandidates(im.attempts, CanceledStage(im, outcome).attempts)
    ensures CanceledStage(im, outcome).state.Succeeded? <==> im.state.Succeeded?
    ensures Active(CanceledStage(im, outcome).state) ==> Active(im.state) || im.attempts != []
  {
    if !Terminal(im.state) {
      CanceledRows(im, outcome);
      GivenUpImage(im, groups, generations, CanceledStage(im, outcome));
    }
  }

  lemma CancelKeepsLinked(t: Task, outcomes: seq<CancelOutcome>)
    requires TaskInv(t) && |outcomes| == STAGE_COUNT && !RemoteOccupied(t)
    ensures Linked(CanceledTask(t, outcomes).stages)
  {
    var st, st' := t.stages, CanceledTask(t, outcomes).stages;
    if Diverted(st) {
      var f :| 0 <= f < STAGE_COUNT && DivertedAt(st, f);
      assert DivertedAt(st', f);
    }
    forall i | 1 <= i < STAGE_COUNT && Active(st'[i].state)
      ensures st'[i - 1].state.Succeeded? || (i == DEBUG_BUNDLE && Diverted(st'))
    {
      if i == IMAGE_EDIT {
        CanceledImage(st[i], t.groups, t.generations, outcomes[i]);
      } else {
        assert StageOk(st[i]);
        CanceledPlain(st[i], outcomes[i]);
      }
      assert st[i - 1].state.Succeeded? || (i == DEBUG_BUNDLE && Diverted(st));
    }
  }

  lemma CanceledFacts(st: Stage, outcome: CancelOutcome)
    ensures |CanceledStage(st, outcome).attempts| == |st.attempts|
    ensures Terminal(st.state) ==> CanceledStage(st, outcome) == st
    ensures st.attempts == [] && !Terminal(st.state) ==> CanceledStage(st, outcome).state.Canceled?
  {
  }

  lemma CancelKeeps(t: Task, outcomes: seq<CancelOutcome>)
    requires TaskInv(t) && |outcomes| == STAGE_COUNT && !RemoteOccupied(t)
    ensures TaskInv(CanceledTask(t, outcomes))
  {
    var t' := CanceledTask(t, outcomes);
    CancelKeepsLinked(t, outcomes);
    forall i | 0 <= i < STAGE_COUNT
      ensures |t'.stages[i].attempts| == |t.stages[i].attempts|
      ensures Terminal(t.stages[i].state) ==> t'.stages[i] == t.stages[i]
      ensures t.stages[i].attempts == [] && !Terminal(t.stages[i].state) ==> t'.stages[i].state.Canceled?
      ensures i != IMAGE_EDIT ==> StageOk(t'.stages[i])
    {
      CanceledFacts(t.stages[i], outcomes[i]);
      if i != IMAGE_EDIT {
        assert StageOk(t.stages[i]);
        CanceledPlain(t.stages[i], outcomes[i]);
      }
    }
    CanceledImage(t.stages[IMAGE_EDIT], t.groups, t.generations, outcomes[IMAGE_EDIT]);
    assert t.stages[EDIT_GATE].attempts == [];
    CanceledReviews(t, t');
  }

  lemma CanceledReviews(t: Task, t': Task)
    requires TaskInv(t) && Linked(t'.stages) && PlainStagesOk(t'.stages) && t' == t.(stages := t'.stages)
    requires ImageOk(t'.stages[IMAGE_EDIT], t.groups, t.generations)
    requires SameCandidates(t.stages[IMAGE_EDIT].attempts, t'.stages[IMAGE_EDIT].attempts)
    requires |t.stages[IMAGE_EDIT].attempts| == |t'.stages[IMAGE_EDIT].attempts|
    requires t.stages[IMAGE_EDIT].state.Succeeded? <==> t'.stages[IMAGE_EDIT].state.Succeeded?
    requires forall i :: 0 <= i < STAGE_COUNT ==> |t'.stages[i].attempts| == |t.stages[i].attempts|
    requires t'.stages[EDIT_GATE].state == t.stages[EDIT_GATE].state
             || (t'.stages[EDIT_GATE].state.Canceled? && !t.stages[EDIT_GATE].state.Succeeded?)
    requires t.stages[UNITY_ANCHOR].state.Succeeded? ==> t'.stages[UNITY_ANCHOR].state.Succeeded?
    ensures TaskInv(t')
  {
    forall r | 0 <= r < |t.reviews|
      ensures ReviewGroup(t'.stages[IMAGE_EDIT].attempts, t.reviews[r]) == ReviewGroup(t.stages[IMAGE_EDIT].attempts, t.reviews[r]) {}
  }

  // ---------------------------------------------------------------- edit decisions

  lemma DecideFacts(t: Task, attempt: nat, v: Verdict)
    requires TaskInv(t) && CanDecide(t, attempt, v)
    ensures var r := ReviewIndex(t.reviews, attempt);
            r == |t.reviews| - 1 && t.reviews[r].attempt == attempt && t.stages[IMAGE_EDIT].state.Succeeded?
    ensures GroupOfAttempt(t.stages[IMAGE_EDIT].attempts, attempt) == Some(|t.groups| - 1)
    ensures !t.stages[EDIT_GATE].state.Succeeded? && !t.stages[EDIT_GATE].state.Rejected?
    ensures forall i :: EDIT_GATE < i < STAGE_COUNT ==> !Active(t.stages[i].state) && t.stages[i].attempts == []
  {
    forall i | EDIT_GATE < i < STAGE_COUNT ensures !Active(t.stages[i].state) {
      if Active(t.stages[i].state) {
        GateBefore(t.stages, i);
      }
    }
    assert ReviewGroup(t.stages[IMAGE_EDIT].attempts, t.reviews[|t.reviews| - 1]) == |t.groups| - 1;
  }

  lemma NotDiverted(st: seq<Stage>)
    requires Linked(st) && !st[EDIT_GATE].state.Succeeded?
    ensures !Diverted(st)
  {
    if Diverted(st) {
      var f :| 0 <= f < STAGE_COUNT && DivertedAt(st, f);
      GateBefore(st, f);
    }
  }

  lemma DecideKeeps(t: Task, attempt: nat, v: Verdict)
    requires TaskInv(t) && CanDecide(t, attempt, v)
    ensures TaskInv(DecidedTask(t, attempt, v))
  {
    DecideFacts(t, attempt, v);
    NotDiverted(t.stages);
    if v.RegenerateEdit? {
      RegenerateKeeps(t, attempt);
    } else {
      SettleGateKeeps(t, attempt, v);
    }
  }

  predicate Unstarted(t: Task)
    requires |t.stages| == STAGE_COUNT
  {
    && t.stages[EDIT_GATE].attempts == []
    && forall i :: EDIT_GATE < i < STAGE_COUNT ==> !Active(t.stages[i].state) && t.stages[i].attempts == []
  }

  lemma SettledPlain(t: Task, attempt: nat, v: Verdict)
    requires |t.stages| == STAGE_COUNT && PlainStagesOk(t.stages) && Unstarted(t)
    requires t.groups != [] && CanDecide(t, attempt, v) && !v.RegenerateEdit?
    ensures PlainStagesOk(DecidedTask(t, attempt, v).stages)
  {
    forall i | 0 <= i < STAGE_COUNT && i != IMAGE_EDIT ensures StageOk(DecidedTask(t, attempt, v).stages[i]) {
      assert StageOk(t.stages[i]);
    }
  }

  lemma SettledLinked(t: Task, attempt: nat, v: Verdict)
    requires Linked(t.stages) && Unstarted(t) && !Diverted(t.stages) && t.stages[IMAGE_EDIT].state.Succeeded?
    requires t.groups != [] && CanDecide(t, attempt, v) && !v.RegenerateEdit?
    ensures Linked(DecidedTask(t, attempt, v).stages)
    ensures DecidedTask(t, attempt, v).stages[..EDIT_GATE] == t.stages[..EDIT_GATE]
    ensures forall i :: 0 <= i < STAGE_COUNT ==> DecidedTask(t, attempt, v).stages[i].attempts == t.stages[i].attempts
  {
  }

  lemma SettledReviews(t: Task, attempt: nat, v: Verdict)
    requires |t.stages| == STAGE_COUNT && t.groups != [] && CanDecide(t, attempt, v) && !v.RegenerateEdit?
    requires ReviewsOk(t.stages[IMAGE_EDIT], t.stages[EDIT_GATE].state, |t.groups|, t.reviews)
    requires ReviewIndex(t.reviews, attempt) == |t.reviews| - 1 && t.stages[IMAGE_EDIT].state.Succeeded?
    ensures var t' := DecidedTask(t, attempt, v);
            ReviewsOk(t.stages[IMAGE_EDIT], t'.stages[EDIT_GATE].state, |t'.groups|, t'.reviews)
  {
    DecidedReviews(t.stages[IMAGE_EDIT].attempts, |t.groups|, t.reviews, DecisionOf(v));
  }

  lemma SettledGate(t: Task, attempt: nat, v: Verdict)
    requires |t.stages| == STAGE_COUNT && t.groups != [] && CanDecide(t, attempt, v) && !v.RegenerateEdit?
    requires ReviewIndex(t.reviews, attempt) == |t.reviews| - 1 && Unstarted(t)
    requires GroupOfAttempt(t.stages[IMAGE_EDIT].attempts, attempt) == Some(|t.groups| - 1)
    ensures var t' := DecidedTask(t, attempt, v); GateOk(t'.stages, t'.reviews, t'.accepted, CurrentGens(t'.groups))
  {
  }

  lemma SettleGateKeeps(t: Task, attempt: nat, v: Verdict)
    requires TaskInv(t) && CanDecide(t, attempt, v) && !v.RegenerateEdit?
    requires ReviewIndex(t.reviews, attempt) == |t.reviews| - 1 && t.stages[IMAGE_EDIT].state.Succeeded?
    requires GroupOfAttempt(t.stages[IMAGE_EDIT].attempts, attempt) == Some(|t.groups| - 1)
    requires Unstarted(t) && !Diverted(t.stages)
    ensures TaskInv(DecidedTask(t, attempt, v))
  {
    SettledLinked(t, attempt, v);
    SettledPlain(t, attempt, v);
    SettledReviews(t, attempt, v);
    SettledGate(t, attempt, v);
    var t' := DecidedTask(t, attempt, v);
    assert t'.stages[..EDIT_GATE][UNITY_ANCHOR] == t.stages[UNITY_ANCHOR];
    assert t'.stages[..EDIT_GATE][IMAGE_EDIT] == t.stages[IMAGE_EDIT];
  }

  lemma DecidedReviews(attempts: seq<Attempt>, groups: nat, reviews: seq<Review>, d: Decision)
    requires ReviewsOrdered(attempts, groups, reviews, true)
    ensures ReviewsOrdered(attempts, groups, reviews[|reviews| - 1 := reviews[|reviews| - 1].(decision := d)], true)
  {
    var reviews' := reviews[|reviews| - 1 := reviews[|reviews| - 1].(decision := d)];
    forall r | 0 <= r < |reviews| ensures ReviewGroup(attempts, reviews'[r]) == ReviewGroup(attempts, reviews[r]) {}
  }

  lemma RegeneratedImage(im: Stage, groups: seq<seq<Gen>>, generations: nat, x: Stage, groups': seq<seq<Gen>>)
    requires ImageOk(im, groups, generations) && im.state.Succeeded?
    requires x.attempts == im.attempts && x.maxAttempts >= im.maxAttempts && x.state.Ready?
    requires groups' == groups[|groups| - 1 := Superseded(groups[|groups| - 1])] + [[]]
    ensures ImageOk(x, groups', generations)
  {
    assert CurrentGens(groups') == [];
    assert !AnyUnfinished(CurrentGens(groups));
  }

  lemma RegeneratedStages(t: Task, attempt: nat)
    requires Linked(t.stages) && PlainStagesOk(t.stages) && Unstarted(t) && !Diverted(t.stages)
    requires t.groups != [] && CanDecide(t, attempt, RegenerateEdit) && t.stages[IMAGE_EDIT].state.Succeeded?
    ensures var t' := DecidedTask(t, attempt, RegenerateEdit);
            && Linked(t'.stages) && PlainStagesOk(t'.stages)
            && (forall i :: 0 <= i < STAGE_COUNT ==> t'.stages[i].attempts == t.stages[i].attempts)
            && t'.stages[UNITY_ANCHOR] == t.stages[UNITY_ANCHOR]
  {
    forall i | 0 <= i < STAGE_COUNT && i != IMAGE_EDIT ensures StageOk(DecidedTask(t, attempt, RegenerateEdit).stages[i]) {
      assert StageOk(t.stages[i]);
    }
  }

  lemma RegeneratedReviews(t: Task, attempt: nat)
    requires |t.stages| == STAGE_COUNT && t.groups != [] && CanDecide(t, attempt, RegenerateEdit)
    requires ReviewsOk(t.stages[IMAGE_EDIT], t.stages[EDIT_GATE].state, |t.groups|, t.reviews)
    requires ReviewIndex(t.reviews, attempt) == |t.reviews| - 1 && t.stages[IMAGE_EDIT].state.Succeeded?
    ensures var t' := DecidedTask(t, attempt, RegenerateEdit);
            ReviewsOk(t'.stages[IMAGE_EDIT], t'.stages[EDIT_GATE].state, |t'.groups|, t'.reviews)
  {
    var t' := DecidedTask(t, attempt, RegenerateEdit);
    DecidedReviews(t.stages[IMAGE_EDIT].attempts, |t.groups|, t.reviews, Regenerate);
    assert t'.stages[IMAGE_EDIT].attempts == t.stages[IMAGE_EDIT].attempts;
    assert |t'.groups| == |t.groups| + 1;
  }

  lemma RegenerateKeeps(t: Task, attempt: nat)
    requires TaskInv(t) && CanDecide(t, attempt, RegenerateEdit)
    requires ReviewIndex(t.reviews, attempt) == |t.reviews| - 1 && t.stages[IMAGE_EDIT].state.Succeeded?
    requires GroupOfAttempt(t.stages[IMAGE_EDIT].attempts, attempt) == Some(|t.groups| - 1)
    requires Unstarted(t) && !Diverted(t.stages)
    ensures TaskInv(DecidedTask(t, attempt, RegenerateEdit))
  {
    var t' := DecidedTask(t, attempt, RegenerateEdit);
    RegeneratedStages(t, attempt);
    RegeneratedReviews(t, attempt);
    RegeneratedImage(t.stages[IMAGE_EDIT], t.groups, t.generations, t'.stages[IMAGE_EDIT], t'.groups);
    RegeneratedGate(t, attempt);
  }

  lemma RegeneratedGate(t: Task, attempt: nat)
    requires |t.stages| == STAGE_COUNT && t.groups != [] && CanDecide(t, attempt, RegenerateEdit)
    requires ReviewIndex(t.reviews, attempt) == |t.reviews| - 1 && Unstarted(t)
    ensures var t' := DecidedTask(t, attempt, RegenerateEdit);
            GateOk(t'.stages, t'.reviews, t'.accepted, CurrentGens(t'.groups))
  {
  }

  // ---------------------------------------------------------------- skipped evaluation

  lemma SkipKeeps(t: Task)
    requires TaskInv(t) && t.stages[EVALUATE_ABSOLUTE].state.Ready?
    ensures TaskInv(WithStage(t, EVALUATE_ABSOLUTE,
              t.stages[EVALUATE_ABSOLUTE].(state := Canceled, error := Some(EvaluationSkipped))))
  {
    var x := t.stages[EVALUATE_ABSOLUTE].(state := Canceled, error := Some(EvaluationSkipped));
    assert StageOk(t.stages[EVALUATE_ABSOLUTE]) && StageOk(x);
    PlainMove(t, EVALUATE_ABSOLUTE, x);
  }
}
