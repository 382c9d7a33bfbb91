/** The explicit exits from a fenced remote attempt. What the server and the file system answer are
    parameters of the commands; the lemmas behind them tie the answers to the server's state. */
module RemoteRecovery {
  import opened Tables
  import opened Transitions
  import opened Batch
  import opened Protocol
  import opened RunInvariant
  import opened RemoteHost
  import opened RemoteWorker
  import opened RemoteReleases
  import opened RemoteFencing
  import opened RemoteAftermath
  import opened Controller
  import opened Submissions

  /** What terminate_group prints; its parser also knows `Cleaned`. */
  datatype CleanupAnswer = Cleaned | GroupRemains | DescendantsUnknown | Probed(state: RemoteState)

  /** The end of the terminate script, from what its tests see. It never claims that the group is gone. */
  function TerminateAnswer(result: bool, state: RemoteState, liveAfter: bool, resultAfter: bool): (a: CleanupAnswer)
    ensures !a.Cleaned?
    ensures a == CleanupAnswer.Probed(SawResult) <==> result || state.SawResult? || (state.SawRunning? && !liveAfter && resultAfter)
    ensures a.GroupRemains? <==> !result && state.SawRunning? && liveAfter
    ensures a.Probed? && !a.state.SawResult? ==> a.state == state
  {
    if result then CleanupAnswer.Probed(SawResult)
    else if !state.SawRunning? then CleanupAnswer.Probed(state)
    else if liveAfter then GroupRemains
    else if resultAfter then CleanupAnswer.Probed(SawResult)
    else DescendantsUnknown
  }

  predicate FromScript(a: CleanupAnswer) {
    exists result, state: RemoteState, liveAfter, resultAfter :: a == TerminateAnswer(result, state, liveAfter, resultAfter)
  }

  predicate LeaseReleased(before: Db, after: Db, item: Item) {
    LeaseAt(before, Runs.KeyOf(item)).Some? && LeaseAt(after, Runs.KeyOf(item)).None?
  }

  /** The attempts that the commands accept: fenced, of a stage the SSH worker executes, and given up
      because its delivery is unknown. */
  predicate Targeted(db: Db, item: Item) {
    RecoversItem(db, item) && RemoteStage(item.stage) && db.tasks[item.task].stages[item.stage].error == Some(DeliveryUnknown)
  }

  lemma TargetedExactlyIf(db: Db, item: Item)
    requires WellFormed(db)
    ensures Targeted(db, item) <==>
              var l := LeaseAt(db, Runs.KeyOf(item));
              && 3 <= item.stage <= 11 && l.Some? && l.value.token == item.token && l.value.revoked
              && db.tasks[item.task].stages[item.stage].state.Recovering?
              && db.tasks[item.task].stages[item.stage].error == Some(DeliveryUnknown)
              && db.tasks[item.task].stages[item.stage].attempts[item.attempt].status == InState(Recovering)
  {
  }

  /** The result can be submitted: a success must report its cleanup. */
  predicate Submittable(d: Download) {
    d.ValidDownload? && (d.manifest.status.ManifestSucceeded? ==> d.manifest.cleanup)
  }

  /** The times of a recovery: of the reactivation, of the submission, and of the end of its publication. */
  datatype Times = Times(now: Time, later: Time, finished: Time)

  /** The controller calls that submit a downloaded result, in order. */
  function RecoveryOps(item: Item, at: Times, m: Manifest, artifacts: seq<Artifact>): seq<Op> {
    if m.status.ManifestSucceeded? then
      [Op.Reactivate(item, at.now), Op.Prepare(item, at.later, artifacts), Op.PublishFiles(Runs.KeyOf(item)), Op.Finalize(item, at.finished)]
    else [Op.Reactivate(item, at.now), Op.Fail(item, at.later, ReportOf(m))]
  }

  /** A submittable result as an execution handed to the controller. */
  function ExecutionOf(m: Manifest, artifacts: seq<Artifact>, staged: bool, files: Publication, finished: Time): Execution {
    if m.status.ManifestSucceeded? then Execution.Done(artifacts, staged, files, finished) else Execution.Broken(ReportOf(m))
  }

  /** The tables after that hand-over, and whether it was accepted. */
  ghost function AfterExecution(db: Db, item: Item, later: Time, e: Execution): (r: Db)
    requires WellFormed(db)
    ensures WellFormed(r)
  {
    if e.Done? then AfterCommit(db, item, later, e) else Step(db, Op.Fail(item, later, e.report))
  }

  lemma OneMoreOp(db: Db, ops: seq<Op>, n: nat)
    requires WellFormed(db) && n < |ops|
    ensures Run(db, ops[..n + 1]) == Step(Run(db, ops[..n]), ops[n])
  {
    assert ops[..n + 1][..n] == ops[..n];
  }

  class RemoteRecoveryManager {
    const controller: BatchController

    constructor (c: BatchController)
      ensures controller == c
    {
      controller := c;
    }

    /** Download and submit the result of the original attempt. `archived`: the old transport evidence could
        be moved away. The attempt is reactivated and its result handed over as if its worker did: a success is stored
        exactly if the attempt is committed with these artifacts afterwards. The calls made are a prefix of
        `RecoveryOps`, cut where one is refused or raises, and the lease is only released for a valid result that
        reports its cleanup. */
    method RecoverResult(item: Item, at: Times, probe: Option<RemoteState>, archived: bool, download: Download,
                         artifacts: seq<Artifact>, staged: bool, files: Publication)
      returns (r: Option<Submission>, ghost made: nat)
      requires WellFormed(controller.Tables()) && Inv(controller.Tables())
      modifies controller
      ensures Inv(controller.Tables())
      ensures r.Some? <==>
        && Targeted(old(controller.Tables()), item) && probe == Some(SawResult) && archived
        && download.ValidDownload? && (download.manifest.status.ManifestSucceeded? ==> download.manifest.cleanup)
      ensures r.None? ==> controller.Tables() == old(controller.Tables())
      ensures r.Some? ==>
                var reactivated := Step(old(controller.Tables()), Op.Reactivate(item, at.now));
                var e := ExecutionOf(download.manifest, artifacts, staged, files, at.finished);
                && controller.Tables() == AfterExecution(reactivated, item, at.later, e)
                && (e.Done? ==> (r.value.Stored? <==> CommittedWith(controller.Tables(), Runs.KeyOf(item), artifacts)))
                && (e.Broken? ==> (r.value.Stored? <==> OwnsItem(reactivated, item, at.later)))
      ensures r.Some? && download.manifest.status.ManifestFailed? ==>
                var m := download.manifest;
                controller.Tables() ==
                  Step(Step(old(controller.Tables()), Op.Reactivate(item, at.now)),
                       Op.Fail(item, at.later, Report(if m.code.Some? then m.code.value else WorkerCrash, Some(m.status.status), None, m.cleanup)))
      ensures r.Some? ==> made <= |RecoveryOps(item, at, download.manifest, artifacts)|
      ensures r.Some? ==> controller.Tables() == Run(old(controller.Tables()), RecoveryOps(item, at, download.manifest, artifacts)[..made])
      ensures LeaseReleased(old(controller.Tables()), controller.Tables(), item) ==> download.ValidDownload? && download.manifest.cleanup
    {
      if !Targeted(controller.Tables(), item) || probe != Some(SawResult) || !archived || !Submittable(download) { return None, 0; }
      var s;
      s, made := SubmitResult(item, at, download.manifest, artifacts, staged, files);
      r := Some(s);
    }

    /** Reactivates the attempt and submits its result. */
    method SubmitResult(item: Item, at: Times, m: Manifest, artifacts: seq<Artifact>, staged: bool, files: Publication)
      returns (r: Submission, ghost made: nat)
      requires WellFormed(controller.Tables()) && Inv(controller.Tables()) && RecoversItem(controller.Tables(), item)
      requires m.status.ManifestSucceeded? ==> m.cleanup
      modifies controller
      ensures Inv(controller.Tables())
      ensures var reactivated := Step(old(controller.Tables()), Op.Reactivate(item, at.now));
              var e := ExecutionOf(m, artifacts, staged, files, at.finished);
              && controller.Tables() == AfterExecution(reactivated, item, at.later, e)
              && (e.Done? ==> (r.Stored? <==> CommittedWith(controller.Tables(), Runs.KeyOf(item), artifacts)))
              && (e.Broken? ==> (r.Stored? <==> OwnsItem(reactivated, item, at.later)))
      ensures made <= |RecoveryOps(item, at, m, artifacts)|
      ensures controller.Tables() == Run(old(controller.Tables()), RecoveryOps(item, at, m, artifacts)[..made])
      ensures LeaseReleased(old(controller.Tables()), controller.Tables(), item) ==> m.cleanup
    {
      ghost var before := controller.Tables();
      Reactivate(item, at.now);
      ghost var reactivated := controller.Tables();
      ReactivatedLease(before, item, at.now);
      ghost var more;
      r, more := HandOver(item, at, m, artifacts, staged, files);
      RecoveryRan(before, reactivated, controller.Tables(), item, at, m, artifacts, more);
      made := more + 1;
    }

    /** Submits the result of the reactivated item. */
    method HandOver(item: Item, at: Times, m: Manifest, artifacts: seq<Artifact>, staged: bool, files: Publication)
      returns (r: Submission, ghost made: nat)
      requires WellFormed(controller.Tables()) && LeaseAt(controller.Tables(), Runs.KeyOf(item)).Some?
      requires m.status.ManifestSucceeded? ==> m.cleanup
      modifies controller
      ensures var e := ExecutionOf(m, artifacts, staged, files, at.finished);
              && controller.Tables() == AfterExecution(old(controller.Tables()), item, at.later, e)
              && (e.Done? ==> (r.Stored? <==> CommittedWith(controller.Tables(), Runs.KeyOf(item), artifacts)))
              && (e.Broken? ==> (r.Stored? <==> OwnsItem(old(controller.Tables()), item, at.later)))
      ensures made < |RecoveryOps(item, at, m, artifacts)|
      ensures controller.Tables() == Run(old(controller.Tables()), RecoveryOps(item, at, m, artifacts)[1..][..made])
      ensures LeaseReleased(old(controller.Tables()), controller.Tables(), item) ==> m.cleanup
    {
      if m.status.ManifestSucceeded? {
        r, made := CommitSuccess(item, at, artifacts, staged, files);
      } else {
        ghost var ops := [Op.Fail(item, at.later, ReportOf(m))];
        FirstOp(controller.Tables(), ops);
        r := FailAs(item, at.later, ReportOf(m));
        made := 1;
      }
    }

    method Reactivate(item: Item, now: Time)
      requires WellFormed(controller.Tables())
      modifies controller
      ensures controller.Tables() == Step(old(controller.Tables()), Op.Reactivate(item, now))
    {
      var ok := controller.ReactivateRecoveringItem(item, now);
    }

    /** commit_success of the reactivated item. */
    method CommitSuccess(item: Item, at: Times, artifacts: seq<Artifact>, staged: bool, files: Publication)
      returns (r: Submission, ghost made: nat)
      requires WellFormed(controller.Tables()) && LeaseAt(controller.Tables(), Runs.KeyOf(item)).Some?
      modifies controller
      ensures var e := Execution.Done(artifacts, staged, files, at.finished);
              && controller.Tables() == AfterCommit(old(controller.Tables()), item, at.later, e)
              && (r.Stored? <==> CommittedWith(controller.Tables(), Runs.KeyOf(item), artifacts))
      ensures made <= 3
      ensures var ops := [Op.Prepare(item, at.later, artifacts), Op.PublishFiles(Runs.KeyOf(item)), Op.Finalize(item, at.finished)];
              controller.Tables() == Run(old(controller.Tables()), ops[..made])
    {
      ghost var start := controller.Tables();
      ghost var e := Execution.Done(artifacts, staged, files, at.finished);
      ghost var ops := [Op.Prepare(item, at.later, artifacts), Op.PublishFiles(Runs.KeyOf(item)), Op.Finalize(item, at.finished)];
      CommitMeans(start, item, at.later, e);
      PrepareStep(start, item, at.later, artifacts);
      made := 0;
      r := controller.PrepareArtifactCommit(item, at.later, artifacts, staged);
      if !r.Stored? { return; }
      PreparedRow(start, item, at.later, artifacts);
      OneMoreOp(start, ops, 0);
      made := 1;
      ghost var prepared := controller.Tables();
      r := controller.PublishCommitFiles(Runs.KeyOf(item), files);
      if !r.Stored? { return; }
      PublishedRow(start, prepared, item, artifacts);
      OneMoreOp(start, ops, 1);
      FinishesExactlyIf(start, controller.Tables(), item, artifacts, at.finished);
      var ok := controller.Finalize(item, at.finished);
      OneMoreOp(start, ops, 2);
      made := 3;
      r := if ok then Stored else Refused;
    }

    method FailAs(item: Item, now: Time, report: Report) returns (r: Submission)
      requires WellFormed(controller.Tables())
      modifies controller
      ensures r.Stored? <==> OwnsItem(old(controller.Tables()), item, now)
      ensures controller.Tables() == Step(old(controller.Tables()), Op.Fail(item, now, report))
      ensures LeaseReleased(old(controller.Tables()), controller.Tables(), item) ==> report.cleanup
    {
      ghost var start := controller.Tables();
      var ok := controller.Fail(item, now, report);
      if LeaseAt(start, Runs.KeyOf(item)).Some? && !report.cleanup {
        FailOpLeaseStays(start, item, now, report, Runs.KeyOf(item));
      }
      r := if ok then Stored else Refused;
    }

    /** Retry or terminate, only after the server said EXITED or MISSING. The attempt is settled, its lease is
        gone, and the other leases stay. */
    method ResolveStopped(item: Item, probe: Option<RemoteState>, action: Settlement) returns (ok: bool)
      requires WellFormed(controller.Tables()) && Inv(controller.Tables())
      modifies controller
      ensures Inv(controller.Tables())
      ensures ok <==> Targeted(old(controller.Tables()), item) && (probe == Some(SawExited) || probe == Some(SawMissing))
      ensures controller.Tables() == if ok then Step(old(controller.Tables()), Op.Resolve(item, action)) else old(controller.Tables())
      ensures ok ==> Resolves(old(controller.Tables()), controller.Tables(), item, action)
    {
      ok := Targeted(controller.Tables(), item) && (probe == Some(SawExited) || probe == Some(SawMissing));
      if !ok { return; }
      ghost var before := controller.Tables();
      StepInv(before, Op.Resolve(item, action));
      ok := controller.ResolveRecoveringItem(item, action);
      ResolveEffect(before, item, action);
    }

    /** Cancel a running leader. Only the answer CLEANED releases the lease. The terminate script never gives
        it, so with the script's own answers no row ever changes. */
    method CancelRunning(item: Item, probe: Option<RemoteState>, answer: CleanupAnswer, action: Settlement) returns (ok: bool)
      requires WellFormed(controller.Tables()) && Inv(controller.Tables())
      modifies controller
      ensures Inv(controller.Tables())
      ensures FromScript(answer) ==> !ok && controller.Tables() == old(controller.Tables())
      ensures ok <==> Targeted(old(controller.Tables()), item) && probe == Some(SawRunning) && answer == CleanupAnswer.Cleaned
      ensures controller.Tables() == if ok then Step(old(controller.Tables()), Op.Resolve(item, action)) else old(controller.Tables())
      ensures ok ==> Resolves(old(controller.Tables()), controller.Tables(), item, action)
    {
      ok := Targeted(controller.Tables(), item) && probe == Some(SawRunning) && answer == CleanupAnswer.Cleaned;
      if !ok { return; }
      ghost var before := controller.Tables();
      StepInv(before, Op.Resolve(item, action));
      ok := controller.ResolveRecoveringItem(item, action);
      ResolveEffect(before, item, action);
    }
  }

  /** What a resolution comes to: the lease row is deleted, no other is, the attempt is settled, and the stage
      is ready again or failed for good. */
  ghost predicate Resolves(before: Db, after: Db, item: Item, action: Settlement) {
    && LeaseReleased(before, after, item) && ValidAt(after, Runs.KeyOf(item))
    && (forall q: Key :: q != Runs.KeyOf(item) && LeaseAt(before, q).Some? ==> LeaseAt(after, q).Some?)
    && var st := after.tasks[item.task].stages[item.stage];
    match action
    case RetryAttempt =>
      st.attempts[item.attempt].status.FailedRetryable? && item.attempt + 2 <= st.maxAttempts && st.state.Ready?
    case TerminateAttempt => st.attempts[item.attempt].status == InState(FailedTerminal) && st.state.FailedTerminal?
  }

  /** The reactivation and the calls after it make up one run. */
  lemma CallsMade(db: Db, ops: seq<Op>, rest: seq<Op>, n: nat)
    requires WellFormed(db) && ops != [] && ops[1..] == rest && n <= |rest|
    ensures Run(db, ops[..n + 1]) == Run(Step(db, ops[0]), rest[..n])
  {
    assert ops[..n + 1] == [ops[0]] + rest[..n];
    assert ops[..1] == [ops[0]];
    FirstOp(db, ops);
    Runs.RunConcat(db, [ops[0]], rest[..n]);
  }

  lemma RecoveryRan(before: Db, reactivated: Db, db: Db, item: Item, at: Times, m: Manifest, artifacts: seq<Artifact>, more: nat)
    requires WellFormed(before) && Inv(before) && reactivated == Step(before, Op.Reactivate(item, at.now))
    requires more < |RecoveryOps(item, at, m, artifacts)| && db == Run(reactivated, RecoveryOps(item, at, m, artifacts)[1..][..more])
    requires LeaseAt(reactivated, Runs.KeyOf(item)).Some? && (LeaseReleased(reactivated, db, item) ==> m.cleanup)
    ensures Inv(db) && db == Run(before, RecoveryOps(item, at, m, artifacts)[..more + 1])
    ensures LeaseReleased(before, db, item) ==> m.cleanup
  {
    var ops := RecoveryOps(item, at, m, artifacts);
    CallsMade(before, ops, ops[1..], more);
    RunKeepsInv(before, ops[..more + 1]);
  }

  lemma FirstOp(db: Db, ops: seq<Op>)
    requires WellFormed(db) && ops != []
    ensures Run(db, ops[..1]) == Step(db, ops[0])
  {
    assert ops[..0] == [];
    OneMoreOp(db, ops, 0);
  }

  lemma ResolveEffect(db: Db, item: Item, action: Settlement)
    requires WellFormed(db) && RecoversItem(db, item) && RemoteStage(item.stage)
    ensures Resolves(db, Step(db, Op.Resolve(item, action)), item, action)
  {
    forall q: Key | q != Runs.KeyOf(item) && LeaseAt(db, q).Some? ensures LeaseAt(Step(db, Op.Resolve(item, action)), q).Some? {
      ResolveOpLeaseStays(db, item, action, q);
    }
    ResolvedStage(db, item, action);
    ResolvedRow(db.tasks[item.task], item, action);
  }

  lemma ReactivatedLease(db: Db, item: Item, now: Time)
    requires WellFormed(db) && RecoversItem(db, item)
    ensures LeaseAt(Step(db, Op.Reactivate(item, now)), Runs.KeyOf(item)).Some?
  {
  }

  // ---------------------------------------------------------------- the commands among everything else

  /** If the probe's answer and the downloaded result are the server's, every call that RecoverResult makes
      is an event of the behaviors in which live groups stay leased, whatever has happened since. */
  lemma RecoveryCallsJustified(w: World, item: Item, at: Times, call: nat, d: Download, artifacts: seq<Artifact>, i: nat)
    requires ResultSeen(HostAt(w, Runs.KeyOf(item)), call, d) && Submittable(d)
    requires i < |RecoveryOps(item, at, d.manifest, artifacts)|
    ensures Justified(w, RecoveryOps(item, at, d.manifest, artifacts)[i], Recovered(call, d))
  {
  }

  /** The answers of the server were seen in `w`; they still justify the calls after any further events. */
  lemma RecoveryStaysJustified(db: Db, events: seq<Event>, later: seq<Event>, item: Item, at: Times, call: nat, d: Download,
                               artifacts: seq<Artifact>, i: nat)
    requires WellFormed(db) && ResultSeen(HostAt(Behavior(db, events), Runs.KeyOf(item)), call, d) && Submittable(d)
    requires i < |RecoveryOps(item, at, d.manifest, artifacts)|
    ensures ResultSeen(HostAt(Behavior(db, events + later), Runs.KeyOf(item)), call, d)
    ensures Justified(Behavior(db, events + later), RecoveryOps(item, at, d.manifest, artifacts)[i], Recovered(call, d))
  {
    ResultStaysSeen(db, events, later, Runs.KeyOf(item), call, d);
    RecoveryCallsJustified(Behavior(db, events + later), item, at, call, d, artifacts, i);
  }

  lemma {:induction false} ResultStaysSeen(db: Db, events: seq<Event>, later: seq<Event>, k: Key, call: nat, d: Download)
    requires WellFormed(db) && ResultSeen(HostAt(Behavior(db, events), k), call, d)
    ensures ResultSeen(HostAt(Behavior(db, events + later), k), call, d)
    decreases |later|
  {
    if later == [] {
      assert events + later == events;
    } else {
      ResultStaysSeen(db, events, later[..|later| - 1], k, call, d);
      LaterEvents(db, events, later);
      ResultSeenStays(Behavior(db, events + later[..|later| - 1]), later[|later| - 1], k, call, d);
    }
  }

  /** The same of ResolveStopped: the answer to its own probe justifies its call at any later time. After
      EXITED nothing of the attempt is ahead by then; after MISSING the call keeps the fencing exactly if
      nothing is. */
  lemma ResolutionStaysJustified(db: Db, events: seq<Event>, later: seq<Event>, item: Item, action: Settlement, call: nat)
    requires WellFormed(db) && RemoteProcessStage(item.stage) && StopSeen(Behavior(db, events), Runs.KeyOf(item), call)
    ensures var w, k := Behavior(db, events + later), Runs.KeyOf(item);
            var e := Control(Op.Resolve(item, action), Basis.Probed(call));
            && StopSeen(w, k, call) && Justified(w, e.op, e.basis)
            && (HostAt(w, k).calls[call] == Point.Done(SawExited) ==> NothingAhead(w, k))
            && (Cautious(w, e) <==> NothingAhead(w, k))
            && (RecoversItem(w.db, item) ==> (StaysFenced(db, events + later + [e], k) <==> NothingAhead(w, k)))
  {
    var w, k := Behavior(db, events + later), Runs.KeyOf(item);
    StopStaysSeen(db, events, later, k, call);
    HostsInv(db, events + later, k);
    if HostAt(w, k).calls[call] == Point.Done(SawExited) {
      ExitedMeansNothingAhead(w, k, call);
    }
    var e := Control(Op.Resolve(item, action), Basis.Probed(call));
    if RecoversItem(w.db, item) { ResolutionSafeExactlyIf(db, events + later, e); }
  }

  lemma {:induction false} StopStaysSeen(db: Db, events: seq<Event>, later: seq<Event>, k: Key, call: nat)
    requires WellFormed(db) && StopSeen(Behavior(db, events), k, call)
    ensures StopSeen(Behavior(db, events + later), k, call)
    decreases |later|
  {
    if later == [] {
      assert events + later == events;
    } else {
      StopStaysSeen(db, events, later[..|later| - 1], k, call);
      LaterEvents(db, events, later);
      StopSeenStays(Behavior(db, events + later[..|later| - 1]), later[|later| - 1], k, call);
    }
  }
}
