/** The rows the controller keeps for one batch.

    Every SQL statement of the scheduler selects its rows by (batch, project, task), by stage,
    or by attempt, so the rows are grouped that way: a task owns its fifteen stage rows, its
    image-edit generation rows and its review rows; a stage row owns its attempts; and an attempt
    owns the rows for which `attempt_id` is UNIQUE, its lease and its artifact commit. */
module Tables {

  datatype Option<+T> = None | Some(value: T)

  type Time = real

  // Positions of the stages in the fifteen-stage chain.
  const STAGE_COUNT := 15
  const UNITY_ANCHOR := 0
  const IMAGE_EDIT := 1
  const EDIT_GATE := 2
  const UPLOAD_INPUTS := 3
  const MODEL_GENERATION := 4
  const ESTIMATE_POSE := 8
  const SAGS_SEGMENT_VOTE := 9
  const DEBUG_BUNDLE := 10
  const DOWNLOAD_RESULTS := 11
  const UNITY_APPLY := 12
  const UNITY_EVAL6 := 13
  const EVALUATE_ABSOLUTE := 14

  datatype Resource =
    | UnityGpu | ProjectLock | ImageApi | SshIo | RemoteGpu | RemoteCpu | RemoteIo | EvaluationApi

  function StageResources(s: nat): seq<Resource> {
    if s == UNITY_ANCHOR || s == UNITY_APPLY || s == UNITY_EVAL6 then [UnityGpu, ProjectLock]
    else if s == IMAGE_EDIT then [ImageApi]
    else if s == UPLOAD_INPUTS || s == DOWNLOAD_RESULTS then [SshIo]
    else if s == ESTIMATE_POSE then [RemoteCpu]
    else if MODEL_GENERATION <= s <= SAGS_SEGMENT_VOTE then [RemoteGpu]
    else if s == DEBUG_BUNDLE then [RemoteIo]
    else if s == EVALUATE_ABSOLUTE then [EvaluationApi]
    else []
  }

  function StageAttempts(s: nat): nat {
    if s == UNITY_ANCHOR || s == EDIT_GATE || s == ESTIMATE_POSE || s == UNITY_APPLY then 1
    else if s == IMAGE_EDIT || s == UPLOAD_INPUTS || s == DOWNLOAD_RESULTS || s == EVALUATE_ABSOLUTE then 3
    else 2
  }

  /** Stages that run a process group on the remote host. */
  predicate RemoteProcessStage(s: nat) {
    MODEL_GENERATION <= s <= DEBUG_BUNDLE
  }

  /** Stages the SSH worker executes: the process stages and the two transfers. */
  predicate RemoteStage(s: nat) {
    UPLOAD_INPUTS <= s <= DOWNLOAD_RESULTS
  }

  datatype StageState =
    | Pending | Ready | Leased | Running | Committing | Recovering
    | WaitingReview | WaitingManual
    | Succeeded | FailedTerminal | Rejected | Canceled

  predicate Terminal(x: StageState) {
    x.Succeeded? || x.FailedTerminal? || x.Rejected? || x.Canceled?
  }

  datatype ErrorCode =
    | TransientNetwork | ResourceOom | WorkerCrash | Stalled | Http429 | Http503
    | InvalidInput | CompileOrContract | Http400 | Http403
    | DeliveryUnknown | QualityRejected | AttemptsExhausted | WorkerLost | CleanupFailed
    | UpstreamFailed | EditRejected | EditCanceled | RemoteStoppedRetry | RemoteStoppedTerminal
    | ArtifactCommitRecovery | EvaluationSkipped | OtherCode(id: nat)

  predicate RetryableError(c: ErrorCode) {
    c.TransientNetwork? || c.ResourceOom? || c.WorkerCrash? || c.Stalled? || c.Http429? || c.Http503?
  }

  predicate TerminalError(c: ErrorCode) {
    c.InvalidInput? || c.CompileOrContract? || c.Http400? || c.Http403?
  }

  // Resource -> label. A label is a GPU id, a project id, or a slot number.
  type Allocation = map<Resource, nat>

  datatype Lease = Lease(token: nat, resources: Allocation, expiresAt: Time, boot: Option<nat>, revoked: bool)

  datatype ArtifactKind = EditedImage | OtherArtifact
  datatype Artifact = Artifact(id: nat, kind: ArtifactKind, sha: nat)

  datatype CommitState = Prepared | Published | Committed | CommitFailed
  datatype Commit = Commit(state: CommitState, artifacts: seq<Artifact>)

  predicate OpenCommit(c: Option<Commit>) {
    c.Some? && (c.value.state.Prepared? || c.value.state.Published?)
  }

  datatype AttemptStatus = InState(state: StageState) | FailedRetryable | LeaseExpired

  /** A candidate of an image-edit generation group: group number and index, both from 0. */
  datatype Candidate = Candidate(group: nat, index: nat)

  /** Row `a` of `Stage.attempts` has attempt_number `a + 1`. */
  datatype Attempt = Attempt(
    status: AttemptStatus,
    candidate: Option<Candidate>,
    lease: Option<Lease>,
    commit: Option<Commit>,
    artifacts: seq<Artifact>)

  datatype Stage = Stage(
    state: StageState,
    maxAttempts: nat,
    notBefore: Time,
    error: Option<ErrorCode>,
    attempts: seq<Attempt>)

  datatype GenStatus = GenPending | GenRunning | GenSucceeded | GenRetryable | GenTerminal | GenSuperseded

  /** `attempt` is the row of the attempt that last ran this candidate, or -1; `image` says that the
      candidate's committed artifacts contain an image file that can be selected. */
  datatype Gen = Gen(status: GenStatus, attempt: int, image: bool)

  predicate Unfinished(g: GenStatus) {
    g.GenPending? || g.GenRunning? || g.GenRetryable?
  }

  datatype Decision = Undecided | Accepted | AcceptedByPolicy | RejectedEdit | CanceledEdit | Regenerate

  datatype Review = Review(attempt: nat, decision: Decision)

  datatype TaskStatus = TaskPending | TaskSucceeded | TaskFailed | TaskRejected | TaskCanceled | TaskWaiting | TaskRunning

  /** `groups` holds the generation rows by group number, the current group last; `generations` is
      num_gen_image_per_task; `accepted` is the gate's acceptedGenerationIndex. */
  datatype Task = Task(
    project: nat,
    projectOrder: int,
    order: int,
    last: Option<Time>,
    status: TaskStatus,
    generations: nat,
    stages: seq<Stage>,
    groups: seq<seq<Gen>>,
    reviews: seq<Review>,
    accepted: Option<nat>)

  datatype BatchStatus = Planned | BatchRunning | BatchSucceeded | BatchFailed | BatchCanceled

  datatype Db = Db(
    tasks: seq<Task>,
    status: BatchStatus,
    automatic: bool,
    pool: seq<nat>,
    leaseSeconds: Time,
    nextToken: nat)

  /** What a worker holds: the rows it was leased and the token that fences them. */
  datatype Item = Item(task: nat, stage: nat, attempt: nat, token: nat)

  predicate ValidKey(t: Task, s: nat, a: nat) {
    s < |t.stages| && a < |t.stages[s].attempts|
  }

  function LeaseOf(t: Task, s: nat, a: nat): Option<Lease> {
    if ValidKey(t, s, a) then t.stages[s].attempts[a].lease else None
  }

  function WithStage(t: Task, s: nat, st: Stage): Task
    requires s < |t.stages|
  {
    t.(stages := t.stages[s := st])
  }

  function WithAttempt(st: Stage, a: nat, att: Attempt): Stage
    requires a < |st.attempts|
  {
    st.(attempts := st.attempts[a := att])
  }

  /** A freshly planned task: the first stage is ready, the rest wait for their predecessor. */
  function PlannedTask(project: nat, projectOrder: int, order: int, generations: nat): Task {
    Task(project, projectOrder, order, None, TaskPending, generations,
         seq(STAGE_COUNT, (i: nat) => Stage(if i == 0 then Ready else Pending, StageAttempts(i), 0.0, None, [])),
         [[]], [], None)
  }
}
