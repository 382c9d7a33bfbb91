/** What an operator's decision on an edit does, what the policy decides instead, and what the gate and the stages
    behind it make of it. */
module Decisions {
  import opened Tables
  import opened Transitions
  import opened Batch
  import opened Protocol
  import opened Statuses

  // ---------------------------------------------------------------- candidates of a review

  /** The candidates an attempt of the image stage was made for: the rows of its generation group. */
  function Candidates(t: Task, attempt: nat): seq<Gen>
    requires |t.stages| == STAGE_COUNT
  {
    if attempt < |t.stages[1].attempts| && t.stages[1].attempts[attempt].candidate.Some?
       && t.stages[1].attempts[attempt].candidate.value.group < |t.groups|
    then t.groups[t.stages[1].attempts[attempt].candidate.value.group] else []
  }

  /** A candidate that succeeded with an image. */
  predicate Acceptable(gens: seq<Gen>, i: nat) {
    i < |gens| && gens[i].status.GenSucceeded? && gens[i].image
  }

  predicate LowestAcceptable(gens: seq<Gen>, i: nat) {
    Acceptable(gens, i) && forall j :: 0 <= j < i ==> !Acceptable(gens, j)
  }

  /** A choice is itself, if it is acceptable; without a choice it is the lowest acceptable candidate. */
  lemma ChosenCandidate(t: Task, attempt: nat, choice: Option<nat>)
    requires |t.stages| == STAGE_COUNT
    ensures var gens, r := Candidates(t, attempt), CandidateFor(t, attempt, choice);
            && (choice.Some? ==> r == if Acceptable(gens, choice.value) then choice else None)
            && (choice.None? ==> if exists i: nat :: Acceptable(gens, i) then r.Some? && LowestAcceptable(gens, r.value) else r.None?)
  {
    var gens := Candidates(t, attempt);
    var g := GroupOfAttempt(t.stages[1].attempts, attempt);
    assert g.Some? ==> gens == GensOf(t, g.value);
    if choice.None? {
      var first := FirstSelectable(gens);
      forall i: nat ensures Acceptable(gens, i) <==> i < |gens| && Selectable(gens[i]) {}
      assert g.None? ==> gens == [];
      assert first.None? ==> forall i: nat :: i < |gens| ==> !Selectable(gens[i]);
      assert first.Some? ==> Acceptable(gens, first.value);
    }
  }

  // ---------------------------------------------------------------- the refresh

  /** The state the gate is put in by the latest review. */
  predicate GateSays(reviews: seq<Review>, x: StageState) {
    var latest := LatestReview(reviews);
    if latest.None? then x.Pending?
    else
      match latest.value.decision
      case Accepted => x.Succeeded?
      case AcceptedByPolicy => x.Succeeded?
      case RejectedEdit => x.Rejected?
      case _ => x.WaitingReview?
  }

  /** A refresh changes the states of pending stages behind a succeeded one, and nothing else but what the policy
      accepts: the gate follows the latest review, and the others become ready. */
  lemma RefreshMeans(t: Task, i: nat)
    requires |t.stages| == STAGE_COUNT && i < STAGE_COUNT
    ensures var r := Refreshed(t);
            && r.(stages := [], accepted := None) == t.(stages := [], accepted := None)
            && r.stages[i].(state := Pending) == t.stages[i].(state := Pending)
            && (!t.stages[i].state.Pending? ==> r.stages[i] == t.stages[i])
            && (t.stages[i].state.Pending? ==>
                  if i > 0 && !r.stages[i - 1].state.Succeeded? then r.stages[i].state.Pending?
                  else if i == 2 then GateSays(t.reviews, r.stages[i].state) else r.stages[i].state.Ready?)
  {
    var once := RefreshRound(t);
    assert Refreshed(t) == RefreshRound(once);
    assert once.reviews == t.reviews;
    if i > 0 {
      assert once.stages[i - 1] == if DependencyMet(t, i - 1) then t.stages[i - 1].(state := Promoted(t, i - 1)) else t.stages[i - 1];
    }
  }

  /** If the latest review was accepted by policy, the gate opens with the lowest acceptable candidate of the group
      it reviewed; otherwise a refresh accepts nothing. */
  lemma PolicyAccepts(t: Task)
    requires |t.stages| == STAGE_COUNT
    ensures var latest, r := LatestReview(t.reviews), Refreshed(t);
            if t.stages[2].state.Pending? && t.stages[1].state.Succeeded? && latest.Some? && latest.value.decision.AcceptedByPolicy?
               && exists i: nat :: Acceptable(Candidates(t, latest.value.attempt), i)
            then r.accepted.Some? && LowestAcceptable(Candidates(t, latest.value.attempt), r.accepted.value) && r.stages[2].state.Succeeded?
            else r.accepted == t.accepted
  {
    RefreshMeans(t, 1);
    RefreshMeans(t, 2);
    var once := RefreshRound(t);
    assert !DependencyMet(once, 2) || LatestReview(t.reviews).None? || !LatestReview(t.reviews).value.decision.AcceptedByPolicy?;
    if LatestReview(t.reviews).Some? { ChosenCandidate(t, LatestReview(t.reviews).value.attempt, None); }
  }

  // ---------------------------------------------------------------- the decision

  /** The review of this attempt waits for a decision. The reviews of a task name different attempts. */
  predicate Awaits(t: Task, attempt: nat) {
    exists i :: 0 <= i < |t.reviews| && t.reviews[i] == Review(attempt, Undecided)
                && forall j :: 0 <= j < i ==> t.reviews[j].attempt != attempt
  }

  ghost predicate DecisionAllowed(t: Task, attempt: nat, v: Verdict)
    requires |t.stages| == STAGE_COUNT
  {
    && Awaits(t, attempt)
    && match v
       case Accept(Some(i)) => Acceptable(Candidates(t, attempt), i)
       case Accept(None) => exists i: nat :: Acceptable(Candidates(t, attempt), i)
       case _ => true
  }

  lemma AllowedExactlyIf(t: Task, attempt: nat, v: Verdict)
    requires |t.stages| == STAGE_COUNT
    ensures CanDecide(t, attempt, v) <==> DecisionAllowed(t, attempt, v)
  {
    if v.Accept? { ChosenCandidate(t, attempt, v.choice); }
    if Awaits(t, attempt) {
      var i :| 0 <= i < |t.reviews| && t.reviews[i] == Review(attempt, Undecided) && forall j :: 0 <= j < i ==> t.reviews[j].attempt != attempt;
      assert ReviewIndex(t.reviews, attempt) == i;
    }
    var r := ReviewIndex(t.reviews, attempt);
    if r < |t.reviews| && t.reviews[r].decision.Undecided? {
      assert t.reviews[r] == Review(attempt, Undecided);
    }
  }

  /** The review is decided as asked, and the others stay. */
  predicate ReviewDecided(t: Task, x: Task, attempt: nat, d: Decision) {
    && |x.reviews| == |t.reviews|
    && exists i :: 0 <= i < |t.reviews| && t.reviews[i] == Review(attempt, Undecided) && x.reviews[i] == Review(attempt, d)
         && forall j :: 0 <= j < |t.reviews| && j != i ==> x.reviews[j] == t.reviews[j]
  }

  /** A stage behind a canceled gate that is not over yet is canceled with it. */
  predicate CanceledWithGate(st: Stage, x: Stage, i: nat) {
    if i == 2 || (i > 2 && st.state !in {Succeeded, FailedTerminal, Rejected, Canceled})
    then x == st.(state := Canceled, error := Some(EditCanceled)) else x == st
  }

  /** What the four verdicts do to the task, before it is refreshed. */
  predicate Decides(t: Task, x: Task, attempt: nat, v: Verdict)
    requires |t.stages| == STAGE_COUNT == |x.stages|
  {
    match v
    case Accept(choice) =>
      && ReviewDecided(t, x, attempt, Accepted) && x.groups == t.groups
      && x.accepted.Some? && Acceptable(Candidates(t, attempt), x.accepted.value)
      && (if choice.Some? then x.accepted == choice else LowestAcceptable(Candidates(t, attempt), x.accepted.value))
      && forall i :: 0 <= i < STAGE_COUNT ==> x.stages[i] == if i == 2 then t.stages[i].(state := Succeeded) else t.stages[i]
    case Reject =>
      && ReviewDecided(t, x, attempt, RejectedEdit) && x.groups == t.groups && x.accepted == t.accepted
      && forall i :: 0 <= i < STAGE_COUNT ==>
           x.stages[i] == if i == 2 then t.stages[i].(state := Rejected, error := Some(EditRejected)) else t.stages[i]
    case Cancel =>
      && ReviewDecided(t, x, attempt, CanceledEdit) && x.groups == t.groups && x.accepted == t.accepted
      && forall i :: 0 <= i < STAGE_COUNT ==> CanceledWithGate(t.stages[i], x.stages[i], i)
    case RegenerateEdit =>
      && ReviewDecided(t, x, attempt, Regenerate) && x.accepted == t.accepted && Regenerated(t, x, attempt)
  }

  /** The image stage is ready with an attempt left and a new, empty group; the gate waits again; and what the
      reviewed group had not delivered is superseded. */
  predicate Regenerated(t: Task, x: Task, attempt: nat)
    requires |t.stages| == STAGE_COUNT == |x.stages|
  {
    && x.stages[1].state.Ready? && x.stages[1].notBefore == 0.0 && x.stages[1].attempts == t.stages[1].attempts
    && x.stages[1].maxAttempts > |t.stages[1].attempts| && x.stages[1].maxAttempts >= t.stages[1].maxAttempts
    && (x.stages[1].maxAttempts == t.stages[1].maxAttempts || x.stages[1].maxAttempts == |t.stages[1].attempts| + 1)
    && x.stages[2] == t.stages[2].(state := Pending)
    && (forall i :: 0 <= i < STAGE_COUNT && i != 1 && i != 2 ==> x.stages[i] == t.stages[i])
    && |x.groups| == |t.groups| + 1 && x.groups[|t.groups|] == []
    && (forall g :: 0 <= g < |t.groups| && GroupOfAttempt(t.stages[1].attempts, attempt) != Some(g) ==> x.groups[g] == t.groups[g])
    && forall g :: 0 <= g < |t.groups| && GroupOfAttempt(t.stages[1].attempts, attempt) == Some(g) ==>
         && |x.groups[g]| == |t.groups[g]|
         && forall c :: 0 <= c < |t.groups[g]| ==>
              if t.groups[g][c].status.GenSucceeded? then x.groups[g][c] == t.groups[g][c]
              else x.groups[g][c] == t.groups[g][c].(status := GenSuperseded)
  }

  lemma DecidedMeans(t: Task, attempt: nat, v: Verdict)
    requires |t.stages| == STAGE_COUNT && t.groups != [] && CanDecide(t, attempt, v)
    ensures Decides(t, DecidedTask(t, attempt, v), attempt, v)
  {
    var x := DecidedTask(t, attempt, v);
    var r := ReviewIndex(t.reviews, attempt);
    assert t.reviews[r] == Review(attempt, Undecided);
    assert x.reviews == t.reviews[r := Review(attempt, DecisionOf(v))];
    if v.Accept? { ChosenCandidate(t, attempt, v.choice); }
  }

  /** A decision that is not allowed changes nothing; one that is changes its task as the verdict says, and then the
      batch is refreshed and restated. */
  lemma DecisionEffect(db: Db, t: nat, attempt: nat, v: Verdict) returns (mid: Db)
    requires WellFormed(db) && t < |db.tasks|
    ensures !DecisionAllowed(db.tasks[t], attempt, v) ==> mid == db && Step(db, Op.Decide(t, attempt, v)) == db
    ensures DecisionAllowed(db.tasks[t], attempt, v) ==>
              && WellFormed(mid) && |mid.tasks| == |db.tasks| && Decides(db.tasks[t], mid.tasks[t], attempt, v)
              && (forall u :: 0 <= u < |db.tasks| && u != t ==> mid.tasks[u] == db.tasks[u])
              && Step(db, Op.Decide(t, attempt, v)) == Aggregated(RefreshAll(mid))
  {
    AllowedExactlyIf(db.tasks[t], attempt, v);
    mid := db;
    if CanDecide(db.tasks[t], attempt, v) {
      DecideStep(db, t, attempt, v);
      DecidedMeans(db.tasks[t], attempt, v);
      mid := WithTask(db, t, DecidedTask(db.tasks[t], attempt, v));
    }
  }

  /** After an acceptance that is not refused, the tables hold the candidate the operator chose, or without a choice
      the lowest acceptable one, and the gate is open. */
  lemma AcceptanceHolds(db: Db, t: nat, attempt: nat, choice: Option<nat>)
    requires WellFormed(db) && t < |db.tasks| && DecisionAllowed(db.tasks[t], attempt, Accept(choice))
    ensures var x := Step(db, Op.Decide(t, attempt, Accept(choice)));
            && |x.tasks| == |db.tasks| && |x.tasks[t].stages| == STAGE_COUNT && x.tasks[t].accepted.Some?
            && (if choice.Some? then x.tasks[t].accepted == choice
                else LowestAcceptable(Candidates(db.tasks[t], attempt), x.tasks[t].accepted.value))
            && x.tasks[t].stages[2].state.Succeeded?
            && (db.tasks[t].stages[3].state.Pending? ==> x.tasks[t].stages[3].state.Ready?)
  {
    var mid := DecisionEffect(db, t, attempt, Accept(choice));
    RestatedTasks(RefreshAll(mid), t);
    RefreshMeans(mid.tasks[t], 2);
    RefreshMeans(mid.tasks[t], 3);
    PolicyAccepts(mid.tasks[t]);
  }
}
