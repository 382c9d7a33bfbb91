/** One run of the SSH wrapper, and what the executor makes of its outcome. The network is a parameter:
    `Link` holds every answer the wrapper would get. */
module RemoteWorker {
  import opened Tables
  import opened Transitions
  import opened RemoteHost

  datatype ManifestStatus = ManifestSucceeded | ManifestFailed(status: ResultStatus)

  datatype Manifest = Manifest(status: ManifestStatus, code: Option<ErrorCode>, cleanup: bool)

  /** `ok`: ssh exited with 0; `state`: the one known state among the printed lines. */
  datatype Reply = Reply(ok: bool, state: Option<RemoteState>)

  datatype Poll = Poll(timedOut: bool, reply: Reply)

  datatype Upload = Upload(copied: bool, finalized: bool)

  datatype Download = DownloadBlocked | TransferFailed | InvalidDownload | ValidDownload(manifest: Manifest)

  datatype Link = Link(localReady: bool, prepared: bool, uploads: seq<Upload>, start: Reply, polls: seq<Poll>, download: Download)

  datatype Command = PrepareCmd | CopyCmd(index: nat) | FinalizeCmd(index: nat) | StartCmd | ProbeCmd | DownloadCmd

  /** The wrapper wrote a result, or ended without one: by an exception, or because it was stopped while
      it still waited. */
  datatype RunEnd = Reported(manifest: Manifest) | NoReport

  const OTHER_CONTRACT_INVALID := OtherCode(0)
  const LOST_CONTACT := Manifest(ManifestFailed(StatusRetryable), Some(DeliveryUnknown), false)
  const TRANSIENT := Manifest(ManifestFailed(StatusRetryable), Some(TransientNetwork), true)
  const RECEIPT := Manifest(ManifestSucceeded, None, true)
  const REFUSED := Manifest(ManifestFailed(StatusTerminal), Some(OTHER_CONTRACT_INVALID), true)

  // ---------------------------------------------------------------- waiting for the remote stage

  predicate Known(r: Reply) {
    r.ok && r.state.Some?
  }

  predicate KeepsWaiting(s: RemoteState) {
    s.SawStarted? || s.SawRunning?
  }

  /** How waiting ends: contact is lost, the wrapper is stopped, or a state settles it. */
  datatype WaitEnd = LostContact | StoppedWaiting | Settled(state: RemoteState)

  /** The first poll that ends the wait decides. */
  predicate EndsWait(start: Reply, polls: seq<Poll>, end: WaitEnd) {
    if !Known(start) then end.LostContact?
    else if !KeepsWaiting(start.state.value) then end == Settled(start.state.value)
    else
      var quiet := (p: Poll) => !p.timedOut && Known(p.reply) && KeepsWaiting(p.reply.state.value);
      || (end.StoppedWaiting? && forall j :: 0 <= j < |polls| ==> quiet(polls[j]))
      || (exists i :: 0 <= i < |polls| && (forall j :: 0 <= j < i ==> quiet(polls[j])) && !quiet(polls[i])
            && end == (if polls[i].timedOut || !Known(polls[i].reply) then LostContact else Settled(polls[i].reply.state.value)))
  }

  method Wait(start: Reply, polls: seq<Poll>) returns (end: WaitEnd)
    ensures EndsWait(start, polls, end)
  {
    if !Known(start) { return LostContact; }
    var state := start.state.value;
    var i := 0;
    while KeepsWaiting(state)
      invariant 0 <= i <= |polls|
      invariant forall j :: 0 <= j < i ==> !polls[j].timedOut && Known(polls[j].reply)
      invariant i == 0 ==> state == start.state.value
      invariant i > 0 ==> state == polls[i - 1].reply.state.value
      invariant i > 0 ==> KeepsWaiting(start.state.value)
      invariant forall j :: 0 <= j < i - 1 ==> KeepsWaiting(polls[j].reply.state.value)
      decreases |polls| - i
    {
      if i == |polls| { return StoppedWaiting; }
      if polls[i].timedOut || !Known(polls[i].reply) { return LostContact; }
      state := polls[i].reply.state.value;
      i := i + 1;
    }
    end := Settled(state);
  }

  /** Only one end of the wait fits the answers. */
  lemma WaitEndUnique(start: Reply, polls: seq<Poll>, a: WaitEnd, b: WaitEnd)
    requires EndsWait(start, polls, a) && EndsWait(start, polls, b)
    ensures a == b
  {
  }

  /** Everything the wrapper hears while it waits: the answer to its start, then one to each poll; None is
      lost contact. */
  function Heard(start: Reply, polls: seq<Poll>): (answers: seq<Option<RemoteState>>)
    ensures |answers| == |polls| + 1
  {
    [if start.ok then start.state else None]
    + seq(|polls|, (i: nat) requires i < |polls| =>
        if polls[i].timedOut || !polls[i].reply.ok then None else polls[i].reply.state)
  }

  /** Answer `i` is the first that says neither that the stage was started nor that it runs. */
  predicate FirstIdle(answers: seq<Option<RemoteState>>, i: nat) {
    && i < |answers| && answers[i] != Some(SawStarted) && answers[i] != Some(SawRunning)
    && forall j :: 0 <= j < i ==> answers[j] == Some(SawStarted) || answers[j] == Some(SawRunning)
  }

  /** The wait lasts as long as the server says STARTED or RUNNING, and ends with the first other answer. */
  lemma WaitEndsWithFirstIdle(start: Reply, polls: seq<Poll>, i: nat, end: WaitEnd)
    requires FirstIdle(Heard(start, polls), i)
    ensures EndsWait(start, polls, end)
            <==> end == match Heard(start, polls)[i] case None => LostContact case Some(state) => Settled(state)
  {
    var answers := Heard(start, polls);
    forall j | 0 <= j < |polls|
      ensures answers[j + 1] == if polls[j].timedOut || !polls[j].reply.ok then None else polls[j].reply.state
    {
    }
    if i > 0 {
      var only := if answers[i].None? then LostContact else Settled(answers[i].value);
      forall j | 0 <= j < i - 1 ensures !polls[j].timedOut && Known(polls[j].reply) && KeepsWaiting(polls[j].reply.state.value) {
        assert answers[j + 1] == Some(SawStarted) || answers[j + 1] == Some(SawRunning);
      }
      assert answers[0] == Some(SawStarted) || answers[0] == Some(SawRunning);
      assert EndsWait(start, polls, only);
      if EndsWait(start, polls, end) { WaitEndUnique(start, polls, only, end); }
    }
  }

  /** While every answer says STARTED or RUNNING the wait goes on. */
  lemma BusyStageIsAwaited(start: Reply, polls: seq<Poll>, end: WaitEnd)
    requires forall i :: 0 <= i <= |polls| ==> Heard(start, polls)[i] == Some(SawStarted) || Heard(start, polls)[i] == Some(SawRunning)
    ensures EndsWait(start, polls, end) <==> end.StoppedWaiting?
  {
    assert Heard(start, polls)[0] == start.state;
    forall j | 0 <= j < |polls| ensures !polls[j].timedOut && Known(polls[j].reply) && KeepsWaiting(polls[j].reply.state.value) {
      assert Heard(start, polls)[j + 1] == Some(SawStarted) || Heard(start, polls)[j + 1] == Some(SawRunning);
    }
  }

  function DownloadEnd(d: Download): RunEnd {
    match d
    case DownloadBlocked => NoReport
    case TransferFailed => Reported(LOST_CONTACT)
    case InvalidDownload => Reported(REFUSED)
    case ValidDownload(m) => Reported(m)
  }

  function AfterWait(end: WaitEnd, d: Download): RunEnd {
    match end
    case LostContact => Reported(LOST_CONTACT)
    case StoppedWaiting => NoReport
    case Settled(state) => if state.SawResult? then DownloadEnd(d) else Reported(LOST_CONTACT)
  }

  predicate UploadsDone(uploads: seq<Upload>) {
    forall i :: 0 <= i < |uploads| ==> uploads[i].copied && uploads[i].finalized
  }

  /** The commands a run issues before it starts the remote stage. */
  predicate BeforeStart(issued: seq<Command>) {
    forall i :: 0 <= i < |issued| ==> issued[i].PrepareCmd? || issued[i].CopyCmd? || issued[i].FinalizeCmd?
  }

  /** What a run of the wrapper establishes: the start is issued exactly if everything before it succeeded;
      before it every report is clean, after it the end follows from the wait and the download. */
  ghost predicate Ran(stage: nat, link: Link, issued: seq<Command>, end: RunEnd) {
    && (StartCmd in issued <==> link.localReady && RemoteProcessStage(stage) && link.prepared && UploadsDone(link.uploads))
    && (StartCmd !in issued ==>
          end == (if !link.localReady then NoReport
                  else if stage == DOWNLOAD_RESULTS || (link.prepared && UploadsDone(link.uploads)) then Reported(RECEIPT)
                  else Reported(TRANSIENT)))
    && (StartCmd in issued ==> exists w :: EndsWait(link.start, link.polls, w) && end == AfterWait(w, link.download))
    && (DownloadCmd in issued <==> StartCmd in issued && EndsWait(link.start, link.polls, Settled(SawResult)))
  }

  class RemoteStageRunner {
    var issued: seq<Command>

    constructor ()
      ensures issued == []
    {
      issued := [];
    }

    method UploadAll(uploads: seq<Upload>) returns (ok: bool)
      requires BeforeStart(issued)
      modifies this
      ensures BeforeStart(issued)
      ensures ok <==> UploadsDone(uploads)
    {
      for i := 0 to |uploads|
        invariant BeforeStart(issued)
        invariant forall j :: 0 <= j < i ==> uploads[j].copied && uploads[j].finalized
      {
        issued := issued + [CopyCmd(i)];
        if !uploads[i].copied { return false; }
        issued := issued + [FinalizeCmd(i)];
        if !uploads[i].finalized { return false; }
      }
      ok := true;
    }

    /** Upload, start or find the remote stage, wait for it, download its result. */
    method Run(stage: nat, link: Link) returns (end: RunEnd)
      requires RemoteStage(stage) && issued == []
      modifies this
      ensures Ran(stage, link, issued, end)
    {
      if !link.localReady { return NoReport; }
      if stage == DOWNLOAD_RESULTS { return Reported(RECEIPT); }
      issued := issued + [PrepareCmd];
      if !link.prepared { return Reported(TRANSIENT); }
      var uploaded := UploadAll(link.uploads);
      if !uploaded { return Reported(TRANSIENT); }
      if stage == UPLOAD_INPUTS { return Reported(RECEIPT); }
      ghost var before := issued;
      issued := issued + [StartCmd];
      assert issued[|before|] == StartCmd;
      var w := Wait(link.start, link.polls);
      if w == Settled(SawResult) {
        ghost var started := issued;
        issued := issued + [DownloadCmd];
        assert issued[|before|] == StartCmd && issued[|started|] == DownloadCmd;
      } else if EndsWait(link.start, link.polls, Settled(SawResult)) {
        WaitEndUnique(link.start, link.polls, w, Settled(SawResult));
      }
      end := AfterWait(w, link.download);
    }
  }

  // ---------------------------------------------------------------- what the executor reports

  datatype ManifestFile = Absent | Unreadable | Foreign | Readable(manifest: Manifest)

  /** `exitCode` is None when the executor stopped the wrapper at the stage's timeout. */
  datatype Exit = Exit(exitCode: Option<int>, localCleanup: bool, file: ManifestFile)

  datatype ExecutionResult = ExecutionResult(succeeded: bool, status: Option<ResultStatus>, code: Option<ErrorCode>, cleanup: bool)

  /** The end of CommandExecutor.execute. */
  function Classified(exit: Exit): ExecutionResult {
    if exit.exitCode.None? then ExecutionResult(false, None, Some(Stalled), exit.localCleanup)
    else
      match exit.file
      case Absent => ExecutionResult(false, None, Some(if exit.exitCode.value != 0 then WorkerCrash else CompileOrContract), true)
      case Unreadable => ExecutionResult(false, None, Some(CompileOrContract), true)
      case Foreign => ExecutionResult(false, None, Some(CompileOrContract), true)
      case Readable(m) =>
        match m.status
        case ManifestSucceeded =>
          if exit.exitCode.value != 0 then ExecutionResult(false, None, Some(WorkerCrash), m.cleanup)
          else if !m.cleanup then ExecutionResult(false, None, Some(WorkerCrash), false)
          else ExecutionResult(true, None, None, true)
        case ManifestFailed(status) =>
          ExecutionResult(false, Some(status), Some(if m.code.Some? then m.code.value else WorkerCrash), m.cleanup)
  }

  /** RemoteStageExecutor: losing the wrapper proves nothing about the server. */
  function RemoteOutcome(r: ExecutionResult): ExecutionResult {
    if !r.succeeded && (r.code == Some(Stalled) || r.code == Some(WorkerCrash))
    then ExecutionResult(false, Some(StatusRetryable), Some(DeliveryUnknown), false) else r
  }

  /** The wrapper writes its result before it exits with 0, and no other program writes the file. */
  predicate Consistent(end: RunEnd, exit: Exit) {
    if end.Reported? then exit.file == Readable(end.manifest)
    else exit.file == Absent && (exit.exitCode.Some? ==> exit.exitCode.value != 0)
  }

  /** One wrapper from its start to the executor's reading of its result file. */
  datatype WrapperRun = WrapperRun(link: Link, issued: seq<Command>, end: RunEnd, exit: Exit)

  ghost predicate Happened(stage: nat, run: WrapperRun) {
    Ran(stage, run.link, run.issued, run.end) && Consistent(run.end, run.exit)
  }

  function OutcomeOf(run: WrapperRun): ExecutionResult {
    RemoteOutcome(Classified(run.exit))
  }

  /** What the worker hands to `fail` for such an outcome. */
  function FailureReport(r: ExecutionResult, retryAfter: Option<Time>): Report {
    Report(if r.code.Some? then r.code.value else WorkerCrash, r.status, retryAfter, r.cleanup)
  }

  /** What the recovery hands to `fail` for a downloaded result. */
  function ReportOf(m: Manifest): Report
    requires m.status.ManifestFailed?
  {
    Report(if m.code.Some? then m.code.value else WorkerCrash, Some(m.status.status), None, m.cleanup)
  }

  /** A run of a process stage whose inputs reached the server, told by what the server answers. It starts the
      stage. If the first answer other than STARTED and RUNNING is RESULT, the result is downloaded and becomes
      the report; if it is any other, or contact is lost, the report is that the delivery is unknown. */
  lemma FinishedStageIsReported(stage: nat, link: Link, issued: seq<Command>, end: RunEnd, i: nat)
    requires 4 <= stage <= 10 && Ran(stage, link, issued, end)
    requires link.localReady && link.prepared && forall j :: 0 <= j < |link.uploads| ==> link.uploads[j].copied && link.uploads[j].finalized
    requires FirstIdle(Heard(link.start, link.polls), i)
    ensures StartCmd in issued
    ensures DownloadCmd in issued <==> Heard(link.start, link.polls)[i] == Some(SawResult)
    ensures DownloadCmd in issued ==>
              match link.download
              case ValidDownload(m) => end == Reported(m)
              case InvalidDownload => end == Reported(Manifest(ManifestFailed(StatusTerminal), Some(OTHER_CONTRACT_INVALID), true))
              case TransferFailed => end == Reported(Manifest(ManifestFailed(StatusRetryable), Some(DeliveryUnknown), false))
              case DownloadBlocked => end.NoReport?
    ensures DownloadCmd !in issued ==> end == Reported(Manifest(ManifestFailed(StatusRetryable), Some(DeliveryUnknown), false))
  {
    var w :| EndsWait(link.start, link.polls, w) && end == AfterWait(w, link.download);
    WaitEndsWithFirstIdle(link.start, link.polls, i, w);
    WaitEndsWithFirstIdle(link.start, link.polls, i, Settled(SawResult));
  }

  /** What the worker makes of a wrapper that exits with 0: a result file is reported as it is, except that a
      crash, a stall and a success that leaves processes behind are an unknown delivery. */
  lemma ReportedResultReachesWorker(stage: nat, run: WrapperRun)
    requires Happened(stage, run) && run.end.Reported? && run.exit.exitCode == Some(0)
    ensures var m, r := run.end.manifest, OutcomeOf(run);
            && (r.succeeded <==> m.status.ManifestSucceeded? && m.cleanup)
            && (m.status.ManifestFailed? && m.code.Some? && !m.code.value.WorkerCrash? && !m.code.value.Stalled? ==>
                  r.status == Some(m.status.status) && r.code == m.code && r.cleanup == m.cleanup)
            && ((m.status.ManifestSucceeded? && !m.cleanup)
                || (m.status.ManifestFailed? && (m.code.None? || m.code.value.WorkerCrash? || m.code.value.Stalled?)) ==>
                  r == ExecutionResult(false, Some(StatusRetryable), Some(DeliveryUnknown), false))
  {
  }

  /** A stage succeeds exactly if its wrapper exits with 0 and leaves a result of its own that says succeeded
      and cleaned up. An exit with 0 and any other file is a broken contract. */
  lemma SucceedsExactlyIf(exit: Exit)
    ensures var r := RemoteOutcome(Classified(exit));
            && (r.succeeded <==> exit.exitCode == Some(0) && exit.file.Readable?
                                 && exit.file.manifest.status.ManifestSucceeded? && exit.file.manifest.cleanup)
            && (r.succeeded ==> r == ExecutionResult(true, None, None, true))
            && (exit.exitCode == Some(0) && !exit.file.Readable? ==> r == ExecutionResult(false, None, Some(CompileOrContract), true))
  {
  }

  /** A wrapper that is killed, or exits with an error and no result, proves nothing about the server. */
  lemma LostWrapperIsUnknown(run: WrapperRun)
    requires run.exit.exitCode.None? || (run.exit.exitCode != Some(0) && run.exit.file.Absent?)
    ensures OutcomeOf(run) == ExecutionResult(false, Some(StatusRetryable), Some(DeliveryUnknown), false)
  {
  }

  /** Why a report may say that nothing is left running. */
  datatype Evidence = NeverStarted | CleanResult | RefusedDownload

  /** A clean report of a process stage rests on one of three observations: the start was never issued;
      or the remote result was seen and says so itself; or it was seen and its download was refused. */
  lemma CleanReportsHaveEvidence(stage: nat, run: WrapperRun) returns (why: Evidence)
    requires RemoteProcessStage(stage) && Happened(stage, run) && OutcomeOf(run).cleanup
    ensures run.end.Reported?
    ensures why.NeverStarted? ==> StartCmd !in run.issued
    ensures !why.NeverStarted? ==> DownloadCmd in run.issued && EndsWait(run.link.start, run.link.polls, Settled(SawResult))
    ensures why.CleanResult? ==> run.link.download == ValidDownload(run.end.manifest) && run.end.manifest.cleanup
    ensures why.RefusedDownload? <==> StartCmd in run.issued && run.link.download.InvalidDownload?
  {
    if StartCmd !in run.issued {
      why := NeverStarted;
    } else {
      var w :| EndsWait(run.link.start, run.link.polls, w) && run.end == AfterWait(w, run.link.download);
      why := if run.link.download.InvalidDownload? then RefusedDownload else CleanResult;
    }
  }

  /** A success report of a process stage rests on a valid remote result that reports its cleanup. */
  lemma SuccessHasCleanResult(stage: nat, run: WrapperRun)
    requires RemoteProcessStage(stage) && Happened(stage, run) && OutcomeOf(run).succeeded
    ensures StartCmd in run.issued && DownloadCmd in run.issued
    ensures EndsWait(run.link.start, run.link.polls, Settled(SawResult))
    ensures run.end.Reported? && run.link.download == ValidDownload(run.end.manifest)
    ensures run.end.manifest.status.ManifestSucceeded? && run.end.manifest.cleanup
  {
    if StartCmd in run.issued {
      var w :| EndsWait(run.link.start, run.link.polls, w) && run.end == AfterWait(w, run.link.download);
    }
  }
}
