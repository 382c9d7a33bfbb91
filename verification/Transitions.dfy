/** What each controller call does to the rows of one task. These functions specify the methods of
    `BatchController`; the invariants of whole runs are proved about them. */
module Transitions {
  import opened Tables

  // ---------------------------------------------------------------- leases

  /** The guard of every write a worker makes: its lease exists, is not revoked and has not expired. */
  predicate HoldsLease(t: Task, item: Item, now: Time) {
    var l := LeaseOf(t, item.stage, item.attempt);
    l.Some? && l.value.token == item.token && !l.value.revoked && now < l.value.expiresAt
  }

  /** The identity check of the recovery calls. */
  predicate HoldsRecovery(t: Task, item: Item) {
    var l := LeaseOf(t, item.stage, item.attempt);
    && l.Some? && l.value.token == item.token && l.value.revoked
    && t.stages[item.stage].state == Recovering
    && t.stages[item.stage].attempts[item.attempt].status == InState(Recovering)
  }

  function Renewed(l: Lease, now: Time, seconds: Time): Lease {
    l.(expiresAt := now + seconds)
  }

  function NewAttempt(candidate: Option<Candidate>, lease: Lease): Attempt {
    Attempt(InState(Leased), candidate, Some(lease), None, [])
  }

  /** A lookup of lease rows by stage returns one that exists. */
  predicate Seen(t: Task, s: nat, k: nat) {
    LeaseOf(t, s, k).Some?
  }

  predicate IsCommitted(att: Attempt) {
    att.commit.Some? && att.commit.value.state.Committed?
  }

  // ---------------------------------------------------------------- generation rows

  predicate Waiting(g: GenStatus) {
    g.GenPending? || g.GenRetryable?
  }

  /** The smallest index from `i` on whose status satisfies `p`. */
  function FirstWhere(gens: seq<Gen>, p: GenStatus -> bool, i: nat := 0): (r: Option<nat>)
    requires i <= |gens|
    ensures r.Some? ==> i <= r.value < |gens| && p(gens[r.value].status)
    ensures r.Some? ==> forall j :: i <= j < r.value ==> !p(gens[j].status)
    ensures r.None? ==> forall j :: i <= j < |gens| ==> !p(gens[j].status)
    decreases |gens| - i
  {
    if i == |gens| then None
    else if p(gens[i].status) then Some(i)
    else FirstWhere(gens, p, i + 1)
  }

  function CountSucceeded(gens: seq<Gen>): (n: nat)
    ensures n <= |gens|
    ensures n > 0 <==> exists i :: 0 <= i < |gens| && gens[i].status.GenSucceeded?
  {
    if gens == [] then 0
    else CountSucceeded(gens[..|gens| - 1]) + (if gens[|gens| - 1].status.GenSucceeded? then 1 else 0)
  }

  predicate AnyUnfinished(gens: seq<Gen>) {
    exists i :: 0 <= i < |gens| && Unfinished(gens[i].status)
  }

  predicate GroupDone(gens: seq<Gen>, required: nat) {
    CountSucceeded(gens) >= required || !AnyUnfinished(gens)
  }

  /** The highest attempt row among the succeeded candidates, or -1. */
  function LatestSucceeded(gens: seq<Gen>): (a: int)
    ensures a >= -1
    ensures a >= 0 ==> exists i :: 0 <= i < |gens| && gens[i].status.GenSucceeded? && gens[i].attempt == a
  {
    if gens == [] then -1
    else
      var rest := LatestSucceeded(gens[..|gens| - 1]);
      var g := gens[|gens| - 1];
      if g.status.GenSucceeded? && g.attempt > rest then g.attempt else rest
  }

  /** The attempt row of the succeeded candidate with the highest index, or -1. */
  function AttemptOfLastSucceeded(gens: seq<Gen>): int {
    if gens == [] then -1
    else if gens[|gens| - 1].status.GenSucceeded? then gens[|gens| - 1].attempt
    else AttemptOfLastSucceeded(gens[..|gens| - 1])
  }

  function AttemptsOf(attempts: seq<Attempt>, c: Candidate): (n: nat)
    ensures n <= |attempts|
  {
    if attempts == [] then 0
    else AttemptsOf(attempts[..|attempts| - 1], c) + (if attempts[|attempts| - 1].candidate == Some(c) then 1 else 0)
  }

  function GensOf(t: Task, group: nat): seq<Gen> {
    if group < |t.groups| then t.groups[group] else []
  }

  function CurrentGens(groups: seq<seq<Gen>>): seq<Gen> {
    if groups == [] then [] else groups[|groups| - 1]
  }

  function WithCurrentGens(t: Task, gens: seq<Gen>): Task
    requires t.groups != []
  {
    t.(groups := t.groups[|t.groups| - 1 := gens])
  }

  /** Rewrites one generation row, if it exists. */
  function WithGen(groups: seq<seq<Gen>>, c: Candidate, status: GenStatus, image: bool): seq<seq<Gen>> {
    if c.group < |groups| && c.index < |groups[c.group]| then
      groups[c.group := groups[c.group][c.index := groups[c.group][c.index].(status := status, image := image)]]
    else groups
  }

  /** All rows of the current group exist once a candidate has been considered. */
  function Materialized(t: Task): Task
    requires t.groups != []
  {
    if CurrentGens(t.groups) == [] then WithCurrentGens(t, seq(t.generations, _ => Gen(GenPending, -1, false)))
    else t
  }

  // ---------------------------------------------------------------- reviews

  function AddReview(t: Task, attempt: int, automatic: bool): Task {
    if attempt < 0 then t
    else t.(reviews := t.reviews + [Review(attempt, if automatic then AcceptedByPolicy else Undecided)])
  }

  /** The row that ORDER BY edit_attempt DESC LIMIT 1 returns. */
  function LatestReview(reviews: seq<Review>): (r: Option<Review>)
    ensures r.None? <==> reviews == []
    ensures r.Some? ==> r.value in reviews && forall x :: x in reviews ==> x.attempt <= r.value.attempt
  {
    if reviews == [] then None
    else
      var rest := LatestReview(reviews[..|reviews| - 1]);
      var x := reviews[|reviews| - 1];
      if rest.Some? && rest.value.attempt >= x.attempt then rest else Some(x)
  }

  function GroupOfAttempt(attempts: seq<Attempt>, a: nat): Option<nat> {
    if a < |attempts| && attempts[a].candidate.Some? then Some(attempts[a].candidate.value.group) else None
  }

  predicate Selectable(g: Gen) {
    g.status.GenSucceeded? && g.image
  }

  function FirstSelectable(gens: seq<Gen>, i: nat := 0): (r: Option<nat>)
    requires i <= |gens|
    ensures r.Some? ==> i <= r.value < |gens| && Selectable(gens[r.value])
    ensures r.Some? ==> forall j :: i <= j < r.value ==> !Selectable(gens[j])
    ensures r.None? ==> forall j :: i <= j < |gens| ==> !Selectable(gens[j])
    decreases |gens| - i
  {
    if i == |gens| then None else if Selectable(gens[i]) then Some(i) else FirstSelectable(gens, i + 1)
  }

  /** One successful candidate of the group that produced `attempt`. */
  function CandidateFor(t: Task, attempt: nat, choice: Option<nat>): (r: Option<nat>)
    requires IMAGE_EDIT < |t.stages|
  {
    var g := GroupOfAttempt(t.stages[IMAGE_EDIT].attempts, attempt);
    if g.None? then None
    else
      var gens := GensOf(t, g.value);
      if choice.None? then FirstSelectable(gens)
      else if choice.value < |gens| && Selectable(gens[choice.value]) then choice
      else None
  }

  // ---------------------------------------------------------------- dependency refresh

  predicate DependencyMet(t: Task, i: nat)
    requires i < |t.stages|
  {
    t.stages[i].state.Pending? && (i == 0 || t.stages[i - 1].state.Succeeded?)
  }

  function Promoted(t: Task, i: nat): StageState
    requires i < |t.stages|
  {
    if i != EDIT_GATE then Ready
    else
      var r := LatestReview(t.reviews);
      if r.None? then Pending
      else if r.value.decision.Accepted? || r.value.decision.AcceptedByPolicy? then Succeeded
      else if r.value.decision.RejectedEdit? then Rejected
      else WaitingReview
  }

  function RefreshedAccepted(t: Task): Option<nat>
    requires |t.stages| == STAGE_COUNT
  {
    var r := LatestReview(t.reviews);
    if DependencyMet(t, EDIT_GATE) && r.Some? && r.value.decision.AcceptedByPolicy?
       && CandidateFor(t, r.value.attempt, None).Some?
    then CandidateFor(t, r.value.attempt, None)
    else t.accepted
  }

  /** One round of the refresh loop: every stage the query selects, from the states it read. */
  function RefreshRound(t: Task): (r: Task)
    requires |t.stages| == STAGE_COUNT
    ensures |r.stages| == STAGE_COUNT
  {
    t.(stages := seq(STAGE_COUNT, (i: nat) requires i < STAGE_COUNT =>
           if DependencyMet(t, i) then t.stages[i].(state := Promoted(t, i)) else t.stages[i]),
       accepted := RefreshedAccepted(t))
  }

  /** The loop's fixpoint: only the gate can succeed while being promoted, so two rounds suffice. */
  function Refreshed(t: Task): (r: Task)
    requires |t.stages| == STAGE_COUNT
    ensures |r.stages| == STAGE_COUNT
  {
    RefreshRound(RefreshRound(t))
  }

  // ---------------------------------------------------------------- leasing

  datatype LeaseTry = Skipped(task: Task) | Granted(task: Task, attempt: nat)

  /** What `lease_next` does with one row whose resources are available. */
  function TryLease(t: Task, s: nat, now: Time, lease: Lease, automatic: bool): (r: LeaseTry)
    requires |t.stages| == STAGE_COUNT && s < STAGE_COUNT && t.groups != []
  {
    if s == IMAGE_EDIT then TryCandidate(Materialized(t), now, lease, automatic)
    else
      var st := t.stages[s];
      if |st.attempts| >= st.maxAttempts then
        Skipped(WithStage(t, s, st.(state := FailedTerminal, error := Some(AttemptsExhausted))))
      else
        Granted(WithStage(t, s, st.(state := Leased, attempts := st.attempts + [NewAttempt(None, lease)]))
                .(last := Some(now)), |st.attempts|)
  }

  function TryCandidate(t: Task, now: Time, lease: Lease, automatic: bool): (r: LeaseTry)
    requires |t.stages| == STAGE_COUNT && t.groups != []
  {
    var st := t.stages[IMAGE_EDIT];
    var pick := FirstWhere(CurrentGens(t.groups), (g: GenStatus) => Waiting(g));
    if pick.None? then Skipped(GroupClosed(t, automatic))
    else if AttemptsOf(st.attempts, Candidate(|t.groups| - 1, pick.value)) >= st.maxAttempts then
      Skipped(CandidateExhausted(t, pick.value))
    else Granted(CandidateGranted(t, pick.value, now, lease), |st.attempts|)
  }

  /** No candidate is left to lease: the group ends once nothing runs. */
  function GroupClosed(t: Task, automatic: bool): Task
    requires |t.stages| == STAGE_COUNT
  {
    var st := t.stages[IMAGE_EDIT];
    var gens := CurrentGens(t.groups);
    if exists i :: 0 <= i < |gens| && gens[i].status.GenRunning? then t
    else if CountSucceeded(gens) > 0 then
      AddReview(WithStage(t, IMAGE_EDIT, st.(state := Succeeded)), AttemptOfLastSucceeded(gens), automatic)
    else WithStage(t, IMAGE_EDIT, st.(state := FailedTerminal, error := Some(AttemptsExhausted)))
  }

  function CandidateExhausted(t: Task, i: nat): Task
    requires t.groups != [] && i < |CurrentGens(t.groups)|
  {
    var gens := CurrentGens(t.groups);
    WithCurrentGens(t, gens[i := gens[i].(status := GenTerminal)])
  }

  function CandidateGranted(t: Task, i: nat, now: Time, lease: Lease): Task
    requires |t.stages| == STAGE_COUNT && t.groups != [] && i < |CurrentGens(t.groups)|
  {
    var st := t.stages[IMAGE_EDIT];
    var gens := CurrentGens(t.groups);
    var c := Candidate(|t.groups| - 1, i);
    var t1 := WithCurrentGens(t, gens[i := gens[i].(status := GenRunning, attempt := |st.attempts|)]);
    WithStage(t1, IMAGE_EDIT, st.(state := Running, attempts := st.attempts + [NewAttempt(Some(c), lease)]))
    .(last := Some(now))
  }

  // ---------------------------------------------------------------- worker reports

  function MarkedRunning(t: Task, item: Item, now: Time, boot: nat, seconds: Time): Task
    requires HoldsLease(t, item, now)
  {
    var st := t.stages[item.stage];
    var att := st.attempts[item.attempt];
    var lease := Renewed(att.lease.value, now, seconds).(boot := Some(boot));
    WithStage(t, item.stage,
      WithAttempt(st, item.attempt, att.(status := InState(Running), lease := Some(lease))).(state := Running))
  }

  function Heartbeat(t: Task, item: Item, now: Time, seconds: Time): Task
    requires HoldsLease(t, item, now)
  {
    var st := t.stages[item.stage];
    var att := st.attempts[item.attempt];
    WithStage(t, item.stage,
      WithAttempt(st, item.attempt, att.(lease := Some(Renewed(att.lease.value, now, seconds)))))
  }

  datatype ResultStatus = StatusRetryable | StatusTerminal | StatusRejected | StatusCanceled

  function FailVerdict(cleanup: bool, status: Option<ResultStatus>, code: ErrorCode, mayRetry: bool): StageState {
    if !cleanup then Recovering
    else if status == Some(StatusCanceled) then Canceled
    else if status == Some(StatusRejected) then Rejected
    else if status == Some(StatusTerminal) then FailedTerminal
    else if code.DeliveryUnknown? then WaitingManual
    else if status == Some(StatusRetryable) && mayRetry then Ready
    else if code.QualityRejected? then Rejected
    else if TerminalError(code) then FailedTerminal
    else if RetryableError(code) && mayRetry then Ready
    else FailedTerminal
  }

  function Backoff(now: Time, retryAfter: Option<Time>): Time {
    now + (if retryAfter.Some? && retryAfter.value > 0.0 then retryAfter.value else 0.0)
  }

  datatype Report = Report(code: ErrorCode, status: Option<ResultStatus>, retryAfter: Option<Time>, cleanup: bool)

  predicate MayRetry(t: Task, s: nat, a: nat)
    requires ValidKey(t, s, a)
  {
    var st := t.stages[s];
    if s == IMAGE_EDIT && st.attempts[a].candidate.Some?
    then AttemptsOf(st.attempts, st.attempts[a].candidate.value) < st.maxAttempts
    else a + 1 < st.maxAttempts
  }

  function Released(att: Attempt, cleanup: bool): Option<Lease> {
    if cleanup || att.lease.None? then None else Some(att.lease.value.(revoked := true))
  }

  function FailPlain(t: Task, s: nat, a: nat, now: Time, r: Report): (t': Task)
    requires |t.stages| == STAGE_COUNT && ValidKey(t, s, a)
    ensures |t'.stages| == STAGE_COUNT
  {
    var st := t.stages[s];
    var verdict := FailVerdict(r.cleanup, r.status, r.code, MayRetry(t, s, a));
    var att := st.attempts[a].(status := InState(verdict), lease := Released(st.attempts[a], r.cleanup));
    var st1 := WithAttempt(st, a, att).(
      state := verdict,
      notBefore := if verdict.Ready? then Backoff(now, r.retryAfter) else 0.0,
      error := Some(r.code));
    var t1 := WithStage(t, s, st1);
    if verdict.FailedTerminal? || verdict.Rejected? then RouteDebugBundle(t1, s, r.code) else t1
  }

  function FailCandidate(t: Task, a: nat, now: Time, r: Report, automatic: bool): (t': Task)
    requires |t.stages| == STAGE_COUNT && ValidKey(t, IMAGE_EDIT, a)
    requires t.stages[IMAGE_EDIT].attempts[a].candidate.Some?
    ensures |t'.stages| == STAGE_COUNT
  {
    var st := t.stages[IMAGE_EDIT];
    var c := st.attempts[a].candidate.value;
    var verdict := FailVerdict(r.cleanup, r.status, r.code, MayRetry(t, IMAGE_EDIT, a));
    var att := st.attempts[a].(status := InState(verdict), lease := Released(st.attempts[a], r.cleanup));
    var image := c.index < |GensOf(t, c.group)| && GensOf(t, c.group)[c.index].image;
    var groups := WithGen(t.groups, c, if verdict.Ready? then GenRetryable else GenTerminal, image);
    var gens := if c.group < |groups| then groups[c.group] else [];
    var done := !verdict.WaitingManual? && GroupDone(gens, t.generations);
    var partial := done && verdict.FailedTerminal? && CountSucceeded(gens) > 0;
    var state := if partial then Succeeded
                 else if !done && verdict.FailedTerminal? then Ready
                 else verdict;
    var st1 := WithAttempt(st, a, att).(
      state := state,
      notBefore := if verdict.Ready? then Backoff(now, r.retryAfter) else 0.0,
      error := Some(r.code));
    var t1 := WithStage(t, IMAGE_EDIT, st1).(groups := groups);
    if partial then AddReview(t1, LatestSucceeded(gens), automatic) else t1
  }

  function FailTask(t: Task, s: nat, a: nat, now: Time, r: Report, automatic: bool): (t': Task)
    requires |t.stages| == STAGE_COUNT && ValidKey(t, s, a)
    ensures |t'.stages| == STAGE_COUNT
  {
    if s == IMAGE_EDIT && t.stages[s].attempts[a].candidate.Some? then FailCandidate(t, a, now, r, automatic)
    else FailPlain(t, s, a, now, r)
  }

  /** Diversion after a remote stage is lost: skip to the debug bundle and give up the Unity stages. */
  function RouteDebugBundle(t: Task, failed: nat, code: ErrorCode): (t': Task)
    requires |t.stages| == STAGE_COUNT
    ensures |t'.stages| == STAGE_COUNT
  {
    if !(MODEL_GENERATION <= failed <= SAGS_SEGMENT_VOTE) then t
    else t.(stages := seq(STAGE_COUNT, (i: nat) requires i < STAGE_COUNT => Rerouted(t.stages[i], i, failed, code)))
  }

  function Rerouted(st: Stage, i: nat, failed: nat, code: ErrorCode): Stage {
    if (failed < i < DEBUG_BUNDLE || DOWNLOAD_RESULTS < i) && (st.state.Pending? || st.state.Ready?)
    then st.(state := Canceled, error := Some(UpstreamFailed))
    else if i == DEBUG_BUNDLE && st.state.Pending? then st.(state := Ready, error := Some(code))
    else st
  }

  // ---------------------------------------------------------------- publication

  predicate CanPrepare(t: Task, item: Item, now: Time) {
    HoldsLease(t, item, now) && t.stages[item.stage].attempts[item.attempt].commit.None?
  }

  function PreparedTask(t: Task, s: nat, a: nat, artifacts: seq<Artifact>): Task
    requires ValidKey(t, s, a)
  {
    var att := t.stages[s].attempts[a].(status := InState(Committing), commit := Some(Commit(Prepared, artifacts)));
    WithStage(t, s, WithAttempt(t.stages[s], a, att).(state := Committing))
  }

  /** Publishing the files marks the intent published unless it is already committed. */
  function PublishedTask(t: Task, s: nat, a: nat): Task
    requires ValidKey(t, s, a) && t.stages[s].attempts[a].commit.Some?
  {
    var att := t.stages[s].attempts[a];
    if att.commit.value.state.Committed? then t
    else WithStage(t, s, WithAttempt(t.stages[s], a, att.(commit := Some(att.commit.value.(state := Published)))))
  }

  predicate CanFinalize(t: Task, s: nat, a: nat, now: Option<Time>) {
    && ValidKey(t, s, a)
    && t.stages[s].state.Committing?
    && t.stages[s].attempts[a].commit.Some?
    && !t.stages[s].attempts[a].commit.value.state.Committed?
    && t.stages[s].attempts[a].lease.Some?
    && !t.stages[s].attempts[a].lease.value.revoked
    && (now.Some? ==> now.value < t.stages[s].attempts[a].lease.value.expiresAt)
  }

  predicate HasImage(artifacts: seq<Artifact>) {
    exists i :: 0 <= i < |artifacts| && artifacts[i].kind.EditedImage?
  }

  function CommittedAttempt(att: Attempt): Attempt
    requires att.commit.Some?
  {
    att.(status := InState(Succeeded), lease := None,
         commit := Some(att.commit.value.(state := Committed)), artifacts := att.commit.value.artifacts)
  }

  function FinalizedTask(t: Task, s: nat, a: nat, automatic: bool): (t': Task)
    requires |t.stages| == STAGE_COUNT && ValidKey(t, s, a) && t.stages[s].attempts[a].commit.Some?
    ensures |t'.stages| == STAGE_COUNT
  {
    var st := t.stages[s];
    var att := st.attempts[a];
    var st1 := WithAttempt(st, a, CommittedAttempt(att)).(error := None);
    if s == IMAGE_EDIT && att.candidate.Some? then
      var c := att.candidate.value;
      var groups := WithGen(t.groups, c, GenSucceeded, HasImage(att.commit.value.artifacts));
      var gens := if c.group < |groups| then groups[c.group] else [];
      if GroupDone(gens, t.generations)
      then AddReview(WithStage(t, s, st1.(state := Succeeded)).(groups := groups), a, automatic)
      else WithStage(t, s, st1.(state := Ready)).(groups := groups)
    else if s == IMAGE_EDIT then AddReview(WithStage(t, s, st1.(state := Succeeded)), a, automatic)
    else WithStage(t, s, st1.(state := Succeeded))
  }

  function WithoutLeases(st: Stage): (st': Stage)
    ensures |st'.attempts| == |st.attempts|
  {
    st.(attempts := seq(|st.attempts|, (i: nat) requires i < |st.attempts| => st.attempts[i].(lease := None)))
  }

  function Revoke(l: Option<Lease>): Option<Lease> {
    if l.None? then None else Some(l.value.(revoked := true))
  }

  function WithRevokedLeases(st: Stage): (st': Stage)
    ensures |st'.attempts| == |st.attempts|
  {
    st.(attempts := seq(|st.attempts|, (i: nat) requires i < |st.attempts| =>
      st.attempts[i].(lease := Revoke(st.attempts[i].lease))))
  }

  /** Recovery of an intent whose files or lease cannot be made to agree. */
  function CommitFailedTask(t: Task, s: nat, a: nat): (t': Task)
    requires ValidKey(t, s, a) && t.stages[s].attempts[a].commit.Some?
  {
    var att := t.stages[s].attempts[a];
    if att.commit.value.state.Committed? then t
    else
      var att1 := att.(status := InState(FailedTerminal), commit := Some(att.commit.value.(state := CommitFailed)));
      WithStage(t, s, WithoutLeases(WithAttempt(t.stages[s], a, att1))
                      .(state := FailedTerminal, error := Some(ArtifactCommitRecovery)))
  }

  // ---------------------------------------------------------------- expiry and recovery

  predicate Expired(l: Lease, now: Time, boot: nat) {
    !l.revoked && (l.expiresAt <= now || (l.boot.Some? && l.boot.value != boot))
  }

  /** `firstSeen` and `secondSeen` are the attempts whose lease rows the two lookups by stage return. */
  function ExpiredTask(t: Task, s: nat, a: nat, cleanup: bool, firstSeen: nat, secondSeen: nat): (t': Task)
    requires ValidKey(t, s, a) && t.stages[s].attempts[a].lease.Some?
  {
    var l := t.stages[s].attempts[a].lease.value;
    var first := LeaseOf(t, s, firstSeen);
    if first.None? || first.value.token != l.token || first.value.revoked then t
    else
      var st := WithRevokedLeases(t.stages[s]);
      var second := LeaseOf(t, s, secondSeen);
      if second.None? || second.value.token != l.token then WithStage(t, s, st)
      else if RemoteProcessStage(s) then
        WithStage(t, s, WithAttempt(st, a, st.attempts[a].(status := InState(Recovering)))
                        .(state := Recovering, error := Some(DeliveryUnknown)))
      else
        var state := if cleanup && a + 1 < st.maxAttempts then Ready else FailedTerminal;
        var st1 := WithAttempt(st, a, st.attempts[a].(status := LeaseExpired)).(state := state, error := Some(WorkerLost));
        WithStage(t, s, if cleanup then WithoutLeases(st1) else st1)
  }

  function Reactivated(t: Task, item: Item, now: Time, seconds: Time): Task
    requires HoldsRecovery(t, item)
  {
    var st := t.stages[item.stage];
    var att := st.attempts[item.attempt];
    var lease := Renewed(att.lease.value, now, seconds).(revoked := false);
    WithStage(t, item.stage,
      WithAttempt(st, item.attempt, att.(status := InState(Leased), lease := Some(lease)))
      .(state := Leased, error := None))
  }

  datatype Settlement = RetryAttempt | TerminateAttempt

  function Resolved(t: Task, item: Item, action: Settlement): (t': Task)
    requires |t.stages| == STAGE_COUNT && HoldsRecovery(t, item)
    ensures |t'.stages| == STAGE_COUNT
  {
    var st := t.stages[item.stage];
    var att := st.attempts[item.attempt];
    match action
    case RetryAttempt =>
      WithStage(t, item.stage,
        WithAttempt(st, item.attempt, att.(status := FailedRetryable, lease := None))
        .(state := Ready, notBefore := 0.0, error := Some(RemoteStoppedRetry),
          maxAttempts := if st.maxAttempts < item.attempt + 2 then item.attempt + 2 else st.maxAttempts))
    case TerminateAttempt =>
      RouteDebugBundle(
        WithStage(t, item.stage,
          WithAttempt(st, item.attempt, att.(status := InState(FailedTerminal), lease := None))
          .(state := FailedTerminal, notBefore := 0.0, error := Some(RemoteStoppedTerminal))),
        item.stage, RemoteStoppedTerminal)
  }

  // ---------------------------------------------------------------- operator decisions

  /** How the cleanup pass of `cancel` ends for one stage: its lease row was not the one looked up, or
      the process group of attempt `a` was confirmed gone or not. */
  datatype CancelOutcome = Unmatched | Cleaned(a: nat) | Residual(a: nat)

  function CanceledStage(st: Stage, outcome: CancelOutcome): Stage {
    if Terminal(st.state) then st
    else
      var st1 := WithRevokedLeases(st).(state := Canceled);
      match outcome
      case Unmatched => st1
      case Cleaned(a) =>
        if a < |st.attempts| && st.attempts[a].lease.Some?
        then WithoutLeases(WithAttempt(st1, a, st1.attempts[a].(status := InState(Canceled)))) else st1
      case Residual(a) =>
        if a < |st.attempts| && st.attempts[a].lease.Some?
        then WithAttempt(st1, a, st1.attempts[a].(status := InState(Canceled)))
             .(state := FailedTerminal, error := Some(CleanupFailed)) else st1
  }

  /** A remote process stage that still has a lease row blocks cancellation. */
  predicate RemoteOccupied(t: Task) {
    exists s, a :: 0 <= s < |t.stages| && 0 <= a < |t.stages[s].attempts|
      && RemoteProcessStage(s) && !Terminal(t.stages[s].state) && t.stages[s].attempts[a].lease.Some?
  }

  function CanceledTask(t: Task, outcomes: seq<CancelOutcome>): (t': Task)
    requires |t.stages| == STAGE_COUNT == |outcomes|
    ensures |t'.stages| == STAGE_COUNT
  {
    t.(stages := seq(STAGE_COUNT, (i: nat) requires i < STAGE_COUNT => CanceledStage(t.stages[i], outcomes[i])))
  }

  datatype Verdict = Accept(choice: Option<nat>) | Reject | Cancel | RegenerateEdit

  /** The index of the review of this edit attempt, or |reviews|. */
  function ReviewIndex(reviews: seq<Review>, attempt: nat, i: nat := 0): (r: nat)
    requires i <= |reviews|
    ensures i <= r <= |reviews|
    ensures r < |reviews| ==> reviews[r].attempt == attempt
    ensures forall j :: i <= j < r ==> reviews[j].attempt != attempt
    decreases |reviews| - i
  {
    if i == |reviews| || reviews[i].attempt == attempt then i else ReviewIndex(reviews, attempt, i + 1)
  }

  predicate CanDecide(t: Task, attempt: nat, v: Verdict)
    requires IMAGE_EDIT < |t.stages|
  {
    var r := ReviewIndex(t.reviews, attempt);
    && r < |t.reviews| && t.reviews[r].decision.Undecided?
    && (v.Accept? ==> CandidateFor(t, attempt, v.choice).Some?)
  }

  function DecisionOf(v: Verdict): Decision {
    match v
    case Accept(_) => Accepted
    case Reject => RejectedEdit
    case Cancel => CanceledEdit
    case RegenerateEdit => Regenerate
  }

  function Superseded(gens: seq<Gen>): seq<Gen> {
    seq(|gens|, (i: nat) requires i < |gens| =>
      if gens[i].status.GenSucceeded? then gens[i] else gens[i].(status := GenSuperseded))
  }

  function DecidedTask(t: Task, attempt: nat, v: Verdict): (t': Task)
    requires |t.stages| == STAGE_COUNT && t.groups != [] && CanDecide(t, attempt, v)
    ensures |t'.stages| == STAGE_COUNT
  {
    var r := ReviewIndex(t.reviews, attempt);
    var t1 := t.(reviews := t.reviews[r := t.reviews[r].(decision := DecisionOf(v))]);
    var gate := t.stages[EDIT_GATE];
    match v
    case Accept(choice) =>
      WithStage(t1, EDIT_GATE, gate.(state := Succeeded)).(accepted := CandidateFor(t, attempt, choice))
    case Reject =>
      WithStage(t1, EDIT_GATE, gate.(state := Rejected, error := Some(EditRejected)))
    case Cancel =>
      t1.(stages := seq(STAGE_COUNT, (i: nat) requires i < STAGE_COUNT =>
        if i == EDIT_GATE || (i > EDIT_GATE && !Terminal(t.stages[i].state))
        then t.stages[i].(state := Canceled, error := Some(EditCanceled)) else t.stages[i]))
    case RegenerateEdit =>
      var image := t.stages[IMAGE_EDIT];
      var n := |image.attempts| + 1;
      var reviewed := GroupOfAttempt(t.stages[IMAGE_EDIT].attempts, attempt);
      var groups := if reviewed.Some? && reviewed.value < |t.groups|
                    then t.groups[reviewed.value := Superseded(t.groups[reviewed.value])] else t.groups;
      t1.(stages := t.stages[IMAGE_EDIT := image.(state := Ready, notBefore := 0.0,
                                                  maxAttempts := if image.maxAttempts < n then n else image.maxAttempts)]
                            [EDIT_GATE := gate.(state := Pending)],
          groups := groups + [[]])
  }

  // ---------------------------------------------------------------- aggregate status

  predicate EvaluationSkippedAt(st: Stage) {
    st.state.Canceled? && st.error == Some(EvaluationSkipped)
  }

  function StatusOf(t: Task): TaskStatus
    requires |t.stages| == STAGE_COUNT
  {
    if forall i :: 0 <= i < STAGE_COUNT ==>
         t.stages[i].state.Succeeded? || (i == EVALUATE_ABSOLUTE && EvaluationSkippedAt(t.stages[i])) then TaskSucceeded
    else if exists i :: 0 <= i < STAGE_COUNT && t.stages[i].state.FailedTerminal? then TaskFailed
    else if exists i :: 0 <= i < STAGE_COUNT && t.stages[i].state.Rejected? then TaskRejected
    else if forall i :: 0 <= i < STAGE_COUNT ==> t.stages[i].state.Succeeded? || t.stages[i].state.Canceled? then TaskCanceled
    else if exists i :: 0 <= i < STAGE_COUNT && (t.stages[i].state.WaitingReview? || t.stages[i].state.WaitingManual?)
      then TaskWaiting
    else TaskRunning
  }
}
