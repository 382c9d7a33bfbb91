/** Remote fencing end to end: the controller, the wrappers and the server of every remote attempt.

    Each attempt has its own control directory, and sees the server's process table through its own
    `Host`; processes of other attempts are foreign processes there. */
module RemoteFencing {
  import opened Tables
  import opened Transitions
  import opened Batch
  import opened Protocol
  import opened RunInvariant
  import opened Evolution
  import opened Resources
  import opened Runs
  import opened RemoteHost
  import opened RemoteWorker
  import opened RemoteReleases

  /** `started`: attempts whose wrapper has issued a start call. `ended`: attempts whose wrapper is over, or
      was never made. `checks`: probe calls issued by a recovery that had found its attempt fenced. */
  datatype World = World(db: Db, hosts: map<Key, Host>, started: set<Key>, ended: set<Key>, checks: set<(Key, nat)>)

  function HostAt(w: World, k: Key): Host {
    if k in w.hosts then w.hosts[k] else FRESH_HOST
  }

  predicate Unrevoked(db: Db, k: Key) {
    LeaseAt(db, k).Some? && !LeaseAt(db, k).value.revoked
  }

  // ---------------------------------------------------------------- what the programs have seen

  /** The server gave this answer to a script of the attempt. */
  predicate Answered(h: Host, state: RemoteState) {
    exists c :: c in h.calls && h.calls[c] == Done(state)
  }

  predicate Replied(h: Host, r: Reply) {
    Known(r) ==> Answered(h, r.state.value)
  }

  predicate PollRead(polls: seq<Poll>, i: nat)
    requires i < |polls|
  {
    forall j :: 0 <= j < i ==> !polls[j].timedOut && Known(polls[j].reply) && KeepsWaiting(polls[j].reply.state.value)
  }

  predicate DownloadedFrom(h: Host, d: Download) {
    d.ValidDownload? ==> h.result == Some(RemoteResult(d.manifest.cleanup))
  }

  /** The wrapper of this attempt is over and ran like this, and every answer it read and every result it
      downloaded is the server's. Nobody but the wrapper starts the attempt. */
  ghost predicate Witnessed(w: World, k: Key, run: WrapperRun) {
    && k in w.ended && Happened(k.1, run)
    && (k in w.started ==> StartCmd in run.issued)
    && (StartCmd in run.issued ==>
          && Replied(HostAt(w, k), run.link.start)
          && forall i :: 0 <= i < |run.link.polls| && PollRead(run.link.polls, i) ==> Replied(HostAt(w, k), run.link.polls[i].reply))
    && (DownloadCmd in run.issued ==> DownloadedFrom(HostAt(w, k), run.link.download))
  }

  /** A recovery's probe was answered with RESULT, and it downloaded this. */
  predicate ResultSeen(h: Host, call: nat, d: Download) {
    call in h.calls && h.calls[call] == Done(SawResult) && DownloadedFrom(h, d)
  }

  /** A recovery that had found the attempt fenced asked, and was told that nothing runs. */
  predicate StopSeen(w: World, k: Key, call: nat) {
    && (k, call) in w.checks && call in HostAt(w, k).calls
    && (HostAt(w, k).calls[call] == Done(SawExited) || HostAt(w, k).calls[call] == Done(SawMissing))
  }

  /** What a program that calls the controller for a remote attempt goes by. `NoWrapper`: the checks before
      the wrapper failed, and none was made. `Raised`: the executor raised, whatever its wrapper does. */
  datatype Basis =
    | NoBasis
    | NoWrapper
    | Raised
    | Wrapped(run: WrapperRun)
    | Recovered(call: nat, download: Download)
    | Probed(call: nat)

  const UNPREPARED := Report(InvalidInput, Some(StatusTerminal), None, true)
  const RAISED := Report(WorkerCrash, None, None, true)

  ghost predicate ReportsFailure(w: World, k: Key, report: Report, basis: Basis) {
    || (basis.NoWrapper? && k in w.ended && k !in w.started && report == UNPREPARED)
    || (basis.Raised? && report == RAISED)
    || (basis.Wrapped? && Witnessed(w, k, basis.run) && !OutcomeOf(basis.run).succeeded
        && report == FailureReport(OutcomeOf(basis.run), report.retryAfter))
    || (basis.Recovered? && ResultSeen(HostAt(w, k), basis.call, basis.download) && basis.download.ValidDownload?
        && basis.download.manifest.status.ManifestFailed? && report == ReportOf(basis.download.manifest))
  }

  ghost predicate ReportsSuccess(w: World, k: Key, basis: Basis) {
    || (basis.Wrapped? && Witnessed(w, k, basis.run) && OutcomeOf(basis.run).succeeded)
    || (basis.Recovered? && ResultSeen(HostAt(w, k), basis.call, basis.download) && basis.download.ValidDownload?
        && basis.download.manifest.status.ManifestSucceeded? && basis.download.manifest.cleanup)
  }

  /** The calls that the wrapper's worker and the recovery commands make for a remote process stage, given
      what they have seen. A report that something may still run needs no basis. */
  ghost predicate Justified(w: World, op: Op, basis: Basis) {
    match op
    case Fail(item, _, report) =>
      RemoteProcessStage(item.stage) && report.cleanup ==> ReportsFailure(w, KeyOf(item), report, basis)
    case Prepare(item, _, _) => RemoteProcessStage(item.stage) ==> ReportsSuccess(w, KeyOf(item), basis)
    case Finalize(item, _) => RemoteProcessStage(item.stage) ==> ReportsSuccess(w, KeyOf(item), basis)
    case Reactivate(item, _) =>
      RemoteProcessStage(item.stage) ==> basis.Recovered? && ResultSeen(HostAt(w, KeyOf(item)), basis.call, basis.download)
    case Resolve(item, _) => RemoteProcessStage(item.stage) ==> basis.Probed? && StopSeen(w, KeyOf(item), basis.call)
    case _ => true
  }

  // ---------------------------------------------------------------- what that means on the server

  /** Nothing of the attempt runs, and nothing will: no member of its group is alive, no start call holds the
      lock before its launch, and the lock is taken or no start call heads for it and no wrapper can make one. */
  predicate Still(h: Host, over: bool) {
    && !Alive(h) && (forall c :: c in h.calls ==> !LaunchPending(h.calls[c]))
    && (h.lock || (over && forall c :: c in h.calls ==> !HeadsForLock(h.calls[c])))
  }

  predicate NothingAhead(w: World, k: Key) {
    Still(HostAt(w, k), k in w.ended)
  }

  predicate HeadsForLock(p: Point) {
    p.TakeLock? || ((p.CheckResult? || p.CheckIdentity? || p.CheckPid?) && p.starting)
  }

  /** What holds of the server behind every attempt, whatever the controller does. */
  predicate HostSound(w: World, k: Key) {
    HostInv(HostAt(w, k)) && StartsRecorded(w, k)
  }

  predicate StartsRecorded(w: World, k: Key) {
    var h := HostAt(w, k);
    && (k in w.started ==> RemoteProcessStage(k.1) && ValidAt(w.db, k))
    && (h.lock ==> k in w.started)
    && (forall c :: c in h.calls && HeadsForLock(h.calls[c]) ==> k in w.started)
  }

  /** A refused download is what the wrapper reports. */
  predicate ReportsRefusal(op: Op, basis: Basis) {
    && op.Fail? && RemoteProcessStage(op.item.stage) && op.report.cleanup
    && basis.Wrapped? && StartCmd in basis.run.issued && basis.run.link.download.InvalidDownload?
  }

  predicate ReportsRaise(op: Op, basis: Basis) {
    op.Fail? && RemoteProcessStage(op.item.stage) && op.report.cleanup && basis.Raised?
  }

  /** MISSING says that nothing had been launched when the server was asked. */
  predicate ResolvesMissing(w: World, op: Op, basis: Basis) {
    && op.Resolve? && RemoteProcessStage(op.item.stage) && basis.Probed?
    && basis.call in HostAt(w, KeyOf(op.item)).calls && HostAt(w, KeyOf(op.item)).calls[basis.call] == Done(SawMissing)
  }

  /** The calls that release a lease on less than fencing needs. */
  predicate Unproven(w: World, op: Op, basis: Basis) {
    ReportsRefusal(op, basis) || ReportsRaise(op, basis) || ResolvesMissing(w, op, basis)
  }

  /** The facts about the server that the fencing of a remote process stage needs of a call. */
  predicate Permitted(w: World, op: Op) {
    match op
    case Fail(item, _, report) => RemoteProcessStage(item.stage) && report.cleanup ==> NothingAhead(w, KeyOf(item))
    case Prepare(item, _, _) => RemoteProcessStage(item.stage) ==> HostAt(w, KeyOf(item)).result == Some(RemoteResult(true))
    case Finalize(item, _) => RemoteProcessStage(item.stage) ==> HostAt(w, KeyOf(item)).result == Some(RemoteResult(true))
    case Reactivate(item, _) => RemoteProcessStage(item.stage) ==> HostAt(w, KeyOf(item)).result.Some?
    case Resolve(item, _) => RemoteProcessStage(item.stage) ==> NothingAhead(w, KeyOf(item))
    case _ => true
  }

  lemma LaunchedIsNotPending(h: Host)
    requires HostInv(h) && h.launches != []
    ensures forall c :: c in h.calls ==> !LaunchPending(h.calls[c])
  {
    forall c | c in h.calls ensures !LaunchPending(h.calls[c]) {
      assert PointOk(h, h.calls[c]);
    }
  }

  lemma ResultMeansNothingAhead(w: World, k: Key)
    requires HostInv(HostAt(w, k)) && HostAt(w, k).result.Some?
    ensures NothingAhead(w, k) <==> !Alive(HostAt(w, k))
    ensures HostAt(w, k).result == Some(RemoteResult(true)) ==> NothingAhead(w, k)
  {
    LaunchedIsNotPending(HostAt(w, k));
  }

  lemma NeverStartedMeansNothingAhead(w: World, k: Key)
    requires HostSound(w, k) && k in w.ended && k !in w.started
    ensures NothingAhead(w, k)
  {
    var h := HostAt(w, k);
    forall c | c in h.calls ensures !LaunchPending(h.calls[c]) {
      assert PointOk(h, h.calls[c]);
    }
  }

  lemma ExitedMeansNothingAhead(w: World, k: Key, call: nat)
    requires HostInv(HostAt(w, k)) && call in HostAt(w, k).calls && HostAt(w, k).calls[call] == Done(SawExited)
    ensures NothingAhead(w, k)
  {
    var h := HostAt(w, k);
    assert PointOk(h, h.calls[call]);
    LaunchedIsNotPending(h);
  }

  /** RESULT is only answered once there is a result. */
  lemma AnsweredResult(h: Host)
    requires HostInv(h) && Answered(h, SawResult)
    ensures h.result.Some?
  {
    var c :| c in h.calls && h.calls[c] == Done(SawResult);
    assert PointOk(h, h.calls[c]);
  }

  /** A wrapper that went on to the download had been told that there is a result. */
  lemma WaitSawResult(h: Host, link: Link)
    requires EndsWait(link.start, link.polls, Settled(SawResult)) && Replied(h, link.start)
    requires forall i :: 0 <= i < |link.polls| && PollRead(link.polls, i) ==> Replied(h, link.polls[i].reply)
    ensures Answered(h, SawResult)
  {
    if Known(link.start) && KeepsWaiting(link.start.state.value) {
      var i :| 0 <= i < |link.polls| && PollRead(link.polls, i) && link.polls[i].reply.state == Some(SawResult) && Known(link.polls[i].reply);
      assert Replied(h, link.polls[i].reply);
    }
  }

  lemma RefusalSawResult(w: World, k: Key, run: WrapperRun)
    requires RemoteProcessStage(k.1) && HostInv(HostAt(w, k)) && Witnessed(w, k, run) && OutcomeOf(run).cleanup
    requires StartCmd in run.issued && run.link.download.InvalidDownload?
    ensures HostAt(w, k).result.Some?
  {
    var why := CleanReportsHaveEvidence(k.1, run);
    WaitSawResult(HostAt(w, k), run.link);
    AnsweredResult(HostAt(w, k));
  }

  lemma WitnessedReport(w: World, k: Key, run: WrapperRun)
    requires RemoteProcessStage(k.1) && HostSound(w, k) && Witnessed(w, k, run) && OutcomeOf(run).cleanup
    requires !(StartCmd in run.issued && run.link.download.InvalidDownload?)
    ensures NothingAhead(w, k)
  {
    var why := CleanReportsHaveEvidence(k.1, run);
    if why.NeverStarted? {
      NeverStartedMeansNothingAhead(w, k);
    } else {
      WaitSawResult(HostAt(w, k), run.link);
      AnsweredResult(HostAt(w, k));
      ResultMeansNothingAhead(w, k);
    }
  }

  lemma WitnessedSuccess(w: World, k: Key, run: WrapperRun)
    requires RemoteProcessStage(k.1) && Witnessed(w, k, run) && OutcomeOf(run).succeeded
    ensures HostAt(w, k).result == Some(RemoteResult(true))
  {
    SuccessHasCleanResult(k.1, run);
  }

  lemma SuccessIsSeen(w: World, k: Key, basis: Basis)
    requires RemoteProcessStage(k.1) && ReportsSuccess(w, k, basis)
    ensures HostAt(w, k).result == Some(RemoteResult(true))
  {
    if basis.Wrapped? { WitnessedSuccess(w, k, basis.run); }
  }

  lemma FailureIsSeen(w: World, op: Op, basis: Basis)
    requires op.Fail? && RemoteProcessStage(op.item.stage) && op.report.cleanup && HostSound(w, KeyOf(op.item))
    requires ReportsFailure(w, KeyOf(op.item), op.report, basis) && !Unproven(w, op, basis)
    ensures NothingAhead(w, KeyOf(op.item))
  {
    var k := KeyOf(op.item);
    match basis
    case NoWrapper => NeverStartedMeansNothingAhead(w, k);
    case Wrapped(run) => WitnessedReport(w, k, run);
    case _ => ResultMeansNothingAhead(w, k);
  }

  /** What the programs have seen establishes what fencing needs: a clean report, a resolution or a
      publication means that nothing of the attempt runs or will, unless it is one of the calls that are
      made on less: a refused download, a raised executor, a resolution on MISSING. */
  lemma JustifiedIsPermitted(w: World, op: Op, basis: Basis)
    requires forall k: Key :: HostSound(w, k)
    requires Justified(w, op, basis) && !Unproven(w, op, basis)
    ensures Permitted(w, op)
  {
    match op
    case Fail(item, _, report) =>
      if RemoteProcessStage(item.stage) && report.cleanup { FailureIsSeen(w, op, basis); }
    case Prepare(item, _, _) => if RemoteProcessStage(item.stage) { SuccessIsSeen(w, KeyOf(item), basis); }
    case Finalize(item, _) => if RemoteProcessStage(item.stage) { SuccessIsSeen(w, KeyOf(item), basis); }
    case Reactivate(item, _) =>
      if RemoteProcessStage(item.stage) {
        assert HostSound(w, KeyOf(item));
        AnsweredResult(HostAt(w, KeyOf(item)));
      }
    case Resolve(item, _) =>
      if RemoteProcessStage(item.stage) {
        assert HostSound(w, KeyOf(item));
        ExitedMeansNothingAhead(w, KeyOf(item), basis.call);
      }
    case _ =>
  }

  // ---------------------------------------------------------------- events

  datatype Event =
    | Control(op: Op, basis: Basis)
    | StartCall(key: Key, call: nat)
    | WrapperEnds(key: Key)
    | CheckCall(item: Item, call: nat)
    | ProbeCall(key: Key, call: nat)
    | Server(host: Key, step: HostStep)

  /** One event. A wrapper of a leased attempt may start it as long as it runs, whatever has become of the
      lease; its start call goes on by itself on the server. */
  ghost function Next(w: World, e: Event): (r: World)
    requires WellFormed(w.db)
    ensures WellFormed(r.db)
  {
    match e
    case Control(op, basis) => if Justified(w, op, basis) then w.(db := Step(w.db, op)) else w
    case StartCall(k, call) =>
      if RemoteProcessStage(k.1) && ValidAt(w.db, k) && k !in w.ended
      then w.(hosts := w.hosts[k := HostNext(HostAt(w, k), Begin(call, true))], started := w.started + {k}) else w
    case WrapperEnds(k) => if ValidAt(w.db, k) then w.(ended := w.ended + {k}) else w
    case CheckCall(item, call) =>
      if RecoversItem(w.db, item) && RemoteProcessStage(item.stage) && call !in HostAt(w, KeyOf(item)).calls
      then w.(hosts := w.hosts[KeyOf(item) := HostNext(HostAt(w, KeyOf(item)), Begin(call, false))],
              checks := w.checks + {(KeyOf(item), call)}) else w
    case ProbeCall(k, call) => w.(hosts := w.hosts[k := HostNext(HostAt(w, k), Begin(call, false))])
    case Server(k, step) => if step.Begin? then w else w.(hosts := w.hosts[k := HostNext(HostAt(w, k), step)])
  }

  /** An event moves at most one step of the server behind an attempt. */
  lemma NextMovesHost(w: World, e: Event, k: Key) returns (step: Option<HostStep>)
    requires WellFormed(w.db)
    ensures HostAt(Next(w, e), k) == if step.Some? then HostNext(HostAt(w, k), step.value) else HostAt(w, k)
    ensures step.Some? && step.value.Begin? && step.value.starting ==> k !in w.ended
  {
    step := None;
    if Next(w, e).hosts != w.hosts {
      match e
      case StartCall(q, call) => if q == k { step := Some(Begin(call, true)); }
      case CheckCall(item, call) => if KeyOf(item) == k { step := Some(Begin(call, false)); }
      case ProbeCall(q, call) => if q == k { step := Some(Begin(call, false)); }
      case Server(q, x) => if q == k && !x.Begin? { step := Some(x); }
    }
  }

  // ---------------------------------------------------------------- what was seen stays seen

  lemma HostMovesOn(w: World, e: Event, k: Key)
    requires WellFormed(w.db)
    ensures var h, h' := HostAt(w, k), HostAt(Next(w, e), k);
            && (forall c :: c in h.calls && h.calls[c].Done? ==> c in h'.calls && h'.calls[c] == h.calls[c])
            && (h.result.Some? ==> h'.result == h.result)
  {
    var step := NextMovesHost(w, e, k);
    if step.Some? { AnswersStay(HostAt(w, k), step.value); }
  }

  lemma ResultSeenStays(w: World, e: Event, k: Key, call: nat, d: Download)
    requires WellFormed(w.db) && ResultSeen(HostAt(w, k), call, d)
    ensures ResultSeen(HostAt(Next(w, e), k), call, d)
  {
    HostMovesOn(w, e, k);
  }

  lemma StopSeenStays(w: World, e: Event, k: Key, call: nat)
    requires WellFormed(w.db) && StopSeen(w, k, call)
    ensures StopSeen(Next(w, e), k, call)
  {
    HostMovesOn(w, e, k);
    assert Next(w, e).checks >= w.checks;
  }

  /** Nothing that happens after the wrapper has ended takes its observations away. */
  lemma WitnessedStays(w: World, e: Event, k: Key, run: WrapperRun)
    requires WellFormed(w.db) && Witnessed(w, k, run)
    ensures Witnessed(Next(w, e), k, run)
  {
    HostMovesOn(w, e, k);
    assert k in Next(w, e).started ==> k in w.started;
    if StartCmd in run.issued {
      ReplyStays(HostAt(w, k), HostAt(Next(w, e), k), run.link.start);
      forall i | 0 <= i < |run.link.polls| && PollRead(run.link.polls, i) ensures Replied(HostAt(Next(w, e), k), run.link.polls[i].reply) {
        ReplyStays(HostAt(w, k), HostAt(Next(w, e), k), run.link.polls[i].reply);
      }
    }
  }

  lemma ReplyStays(h: Host, h': Host, r: Reply)
    requires Replied(h, r) && forall c :: c in h.calls && h.calls[c].Done? ==> c in h'.calls && h'.calls[c] == h.calls[c]
    ensures Replied(h', r)
  {
    if Known(r) {
      var c :| c in h.calls && h.calls[c] == Done(r.state.value);
      assert c in h'.calls && h'.calls[c] == Done(r.state.value);
    }
  }

  /** What the worker hands to the controller for an ended wrapper is an event of the behaviors below. */
  lemma WorkerCallsJustified(w: World, item: Item, now: Time, run: WrapperRun, retryAfter: Option<Time>, artifacts: seq<Artifact>)
    requires RemoteProcessStage(item.stage) && Witnessed(w, KeyOf(item), run)
    ensures if OutcomeOf(run).succeeded then
              Justified(w, Op.Prepare(item, now, artifacts), Wrapped(run)) && Justified(w, Op.Finalize(item, now), Wrapped(run))
            else Justified(w, Op.Fail(item, now, FailureReport(OutcomeOf(run), retryAfter)), Wrapped(run))
  {
  }

  ghost function Behavior(db: Db, events: seq<Event>): (w: World)
    requires WellFormed(db)
    ensures WellFormed(w.db)
    decreases |events|
  {
    if events == [] then World(db, map[], {}, {}, {}) else Next(Behavior(db, events[..|events| - 1]), events[|events| - 1])
  }

  // ---------------------------------------------------------------- the invariant

  ghost predicate FencedAt(w: World, k: Key) {
    && HostSound(w, k)
    && (ValidAt(w.db, k) && LeaseAt(w.db, k).None? && RemoteProcessStage(k.1) ==> NothingAhead(w, k))
    && (RemoteProcessStage(k.1) && HasIntent(w.db, k) ==> HostAt(w, k).result == Some(RemoteResult(true)))
  }

  ghost predicate WorldInv(w: World) {
    WellFormed(w.db) && Inv(w.db) && forall k: Key :: FencedAt(w, k)
  }

  // ---------------------------------------------------------------- server events

  /** Once nothing is ahead, no step of the server brings anything up. */
  lemma AdvanceKeepsStill(h: Host, call: nat, ready: bool, pid: nat, over: bool)
    requires Still(h, over) && call in h.calls
    ensures Still(Advanced(h, call, ready, pid), over)
  {
    var h' := Advanced(h, call, ready, pid);
    assert !LaunchPending(h.calls[call]);
    assert h'.procs == h.procs && !LaunchPending(h'.calls[call]);
  }

  lemma HostKeepsStill(h: Host, step: HostStep, over: bool)
    requires Still(h, over) && (step.Begin? && step.starting ==> !over || h.lock)
    ensures Still(HostNext(h, step), over)
  {
    var h' := HostNext(h, step);
    if TableEvent(step) {
      if Alive(h') {
        TableKeepsDead(h, step);
      }
    } else if step.Advance? {
      if step.call in h.calls {
        AdvanceKeepsStill(h, step.call, step.ready, step.pid, over);
      }
    } else if step.WriteResult? {
      assert h' == h;
    } else {
      assert h'.procs == h.procs || step.Reboot?;
    }
  }

  lemma HostKeepsRecords(h: Host, step: HostStep, started: bool)
    requires HostInv(h) && (step.Begin? && step.starting ==> started)
    requires (h.lock ==> started) && (forall c :: c in h.calls && HeadsForLock(h.calls[c]) ==> started)
    ensures HostNext(h, step).lock ==> started
    ensures forall c :: c in HostNext(h, step).calls && HeadsForLock(HostNext(h, step).calls[c]) ==> started
  {
  }

  /** One host moves; the tables stay. A start call comes from a wrapper that still runs. */
  lemma HostMoveKeeps(w: World, k: Key, step: HostStep, started: set<Key>)
    requires WorldInv(w) && (started == w.started || started == w.started + {k})
    requires k in started && k !in w.started ==> RemoteProcessStage(k.1) && ValidAt(w.db, k)
    requires step.Begin? && step.starting ==> k in started && k !in w.ended
    ensures WorldInv(w.(hosts := w.hosts[k := HostNext(HostAt(w, k), step)], started := started))
  {
    var w' := w.(hosts := w.hosts[k := HostNext(HostAt(w, k), step)], started := started);
    forall q: Key ensures FencedAt(w', q) {
      assert FencedAt(w, q);
      if q == k {
        MovedHost(w, k, step, started, w');
      } else {
        assert HostAt(w', q) == HostAt(w, q);
      }
    }
  }

  lemma MovedHost(w: World, k: Key, step: HostStep, started: set<Key>, w': World)
    requires FencedAt(w, k) && w' == w.(hosts := w.hosts[k := HostNext(HostAt(w, k), step)], started := started)
    requires started >= w.started && (k in started && k !in w.started ==> RemoteProcessStage(k.1) && ValidAt(w.db, k))
    requires step.Begin? && step.starting ==> k in started && k !in w.ended
    ensures FencedAt(w', k)
  {
    var h := HostAt(w, k);
    assert HostAt(w', k) == HostNext(h, step);
    HostStepKeeps(h, step);
    HostKeepsRecords(h, step, k in started);
    AnswersStay(h, step);
    if NothingAhead(w, k) {
      HostKeepsStill(h, step, k in w.ended);
    }
  }

  // ---------------------------------------------------------------- controller events

  /** A call that releases a lease on less than fencing needs is only made when nothing is ahead. */
  predicate Cautious(w: World, e: Event) {
    e.Control? && Unproven(w, e.op, e.basis) ==> NothingAhead(w, KeyOf(e.op.item))
  }

  lemma LeaseOrigin(db: Db, op: Op, k: Key)
    requires WellFormed(db) && ValidAt(db, k)
    ensures ValidAt(Step(db, op), k)
    ensures LeaseAt(Step(db, op), k).Some? ==> LeaseAt(db, k).Some?
    ensures HasIntent(Step(db, op), k) ==> HasIntent(db, k) || (op.Prepare? && KeyOf(op.item) == k)
  {
    var db' := Step(db, op);
    if op.LeaseNext? && db' != db {
      LeaseNextDispatches(db, op.now, op.capacities, op.queue);
      var r := Dispatched(db, op.now, op.capacities, op.queue);
      if r.item.Some? {
        GrantKeepsRows(db, db', r.item.value, op.capacities, op.now, k);
      } else {
        assert SameTaskRows(db.tasks[k.0], db'.tasks[k.0]);
      }
    } else if op.Reactivate? {
      ReactivateTouchesOneLease(db, op, k);
    } else if op.Prepare? {
      PrepareTouchesOneRow(db, op, k);
    } else if !op.LeaseNext? {
      StepEvolves(db, op);
      RowEvolves(db, db', k);
    }
  }

  lemma RowEvolves(db: Db, db': Db, k: Key)
    requires Evolves(db, db', true) && ValidAt(db, k)
    ensures ValidAt(db', k)
    ensures AttemptEvolves(AttemptAt(db, k).value, AttemptAt(db', k).value, true)
  {
    assert TaskEvolves(db.tasks[k.0], db'.tasks[k.0], true);
    assert StageEvolves(db.tasks[k.0].stages[k.1], db'.tasks[k.0].stages[k.1], true);
  }

  lemma NewRowHasNoIntent(db: Db, op: Op, k: Key)
    requires WellFormed(db) && !ValidAt(db, k)
    ensures !HasIntent(Step(db, op), k)
  {
    var db' := Step(db, op);
    if op.LeaseNext? && db' != db {
      LeaseNextDispatches(db, op.now, op.capacities, op.queue);
      GrantedRowHasNoIntent(db, Dispatched(db, op.now, op.capacities, op.queue), op.capacities, op.now, k);
    } else if !op.LeaseNext? {
      StepEvolves(db, op);
      NoNewRow(db, db', Plain(op), k);
    }
  }

  lemma GrantedRowHasNoIntent(db: Db, r: Dispatch, capacities: Capacities, now: Time, k: Key)
    requires Dispatches(db, r, capacities, now) && !ValidAt(db, k)
    ensures !HasIntent(r.db, k)
  {
    if r.item.None? || k.0 != r.item.value.task {
      assert k.0 < |db.tasks| ==> SameTaskRows(db.tasks[k.0], r.db.tasks[k.0]);
    }
  }

  lemma NoNewRow(db: Db, db': Db, plain: bool, k: Key)
    requires Evolves(db, db', plain) && !ValidAt(db, k)
    ensures !ValidAt(db', k)
  {
    if k.0 < |db.tasks| {
      assert TaskEvolves(db.tasks[k.0], db'.tasks[k.0], plain);
      if k.1 < |db.tasks[k.0].stages| {
        assert StageEvolves(db.tasks[k.0].stages[k.1], db'.tasks[k.0].stages[k.1], plain);
      }
    }
  }

  /** Whatever releases the lease of a remote process stage, nothing of the attempt is ahead. */
  lemma ReleasedIsStill(w: World, op: Op, k: Key)
    requires FencedAt(w, k) && Permitted(w, op) && RemoteProcessStage(k.1) && Releases(w.db, op, k)
    ensures NothingAhead(w, k)
  {
    if !op.Fail? && !op.Resolve? {
      ResultMeansNothingAhead(w, k);
    }
  }

  lemma NewRowHasLease(db: Db, op: Op, k: Key)
    requires WellFormed(db) && !ValidAt(db, k)
    ensures ValidAt(Step(db, op), k) ==> LeaseAt(Step(db, op), k).Some?
  {
    var db' := Step(db, op);
    if op.LeaseNext? && db' != db {
      LeaseNextDispatches(db, op.now, op.capacities, op.queue);
      GrantedRowHasLease(db, Dispatched(db, op.now, op.capacities, op.queue), op.capacities, op.now, k);
    } else if !op.LeaseNext? {
      StepEvolves(db, op);
      NoNewRow(db, db', Plain(op), k);
    }
  }

  lemma GrantedRowHasLease(db: Db, r: Dispatch, capacities: Capacities, now: Time, k: Key)
    requires Dispatches(db, r, capacities, now) && !ValidAt(db, k)
    ensures ValidAt(r.db, k) ==> LeaseAt(r.db, k).Some?
  {
    if r.item.None? || k.0 != r.item.value.task {
      assert k.0 < |db.tasks| ==> SameTaskRows(db.tasks[k.0], r.db.tasks[k.0]);
    }
  }

  lemma ControlKeepsKey(w: World, op: Op, k: Key)
    requires WorldInv(w) && Permitted(w, op)
    ensures FencedAt(w.(db := Step(w.db, op)), k)
  {
    var db' := Step(w.db, op);
    var w' := w.(db := db');
    assert FencedAt(w, k);
    assert HostAt(w', k) == HostAt(w, k);
    if ValidAt(w.db, k) {
      LeaseOrigin(w.db, op, k);
      if LeaseAt(db', k).None? && LeaseAt(w.db, k).Some? && RemoteProcessStage(k.1) {
        OnlySettlementReleases(w.db, op, k);
        ReleasedIsStill(w, op, k);
      }
    } else {
      NewRowHasNoIntent(w.db, op, k);
      NewRowHasLease(w.db, op, k);
    }
  }

  lemma ControlKeeps(w: World, op: Op)
    requires WorldInv(w) && Permitted(w, op)
    ensures WorldInv(w.(db := Step(w.db, op)))
  {
    StepInv(w.db, op);
    forall k: Key ensures FencedAt(w.(db := Step(w.db, op)), k) {
      ControlKeepsKey(w, op, k);
    }
  }

  lemma JustifiedKeeps(w: World, op: Op, basis: Basis)
    requires WorldInv(w) && Justified(w, op, basis) && Cautious(w, Control(op, basis))
    ensures WorldInv(w.(db := Step(w.db, op)))
  {
    forall k: Key ensures HostSound(w, k) {
      assert FencedAt(w, k);
    }
    if !Unproven(w, op, basis) {
      JustifiedIsPermitted(w, op, basis);
    }
    ControlKeeps(w, op);
  }

  lemma EndKeeps(w: World, k: Key)
    requires WorldInv(w)
    ensures WorldInv(w.(ended := w.ended + {k}))
  {
    forall q: Key ensures FencedAt(w.(ended := w.ended + {k}), q) {
      assert FencedAt(w, q);
    }
  }

  lemma CheckKeeps(w: World, checks: set<(Key, nat)>)
    requires WorldInv(w)
    ensures WorldInv(w.(checks := checks))
  {
    forall q: Key ensures FencedAt(w.(checks := checks), q) {
      assert FencedAt(w, q);
    }
  }

  lemma NextKeeps(w: World, e: Event)
    requires WorldInv(w) && Cautious(w, e)
    ensures WorldInv(Next(w, e))
  {
    match e
    case Control(op, basis) => if Justified(w, op, basis) { JustifiedKeeps(w, op, basis); }
    case StartCall(k, call) =>
      if RemoteProcessStage(k.1) && ValidAt(w.db, k) && k !in w.ended {
        HostMoveKeeps(w, k, Begin(call, true), w.started + {k});
      }
    case WrapperEnds(k) => EndKeeps(w, k);
    case CheckCall(item, call) =>
      if Next(w, e) != w {
        HostMoveKeeps(w, KeyOf(item), Begin(call, false), w.started);
        CheckKeeps(Next(w, e).(checks := w.checks), w.checks + {(KeyOf(item), call)});
      }
    case ProbeCall(k, call) => HostMoveKeeps(w, k, Begin(call, false), w.started);
    case Server(k, step) => if !step.Begin? { HostMoveKeeps(w, k, step, w.started); }
  }

  // ---------------------------------------------------------------- every behavior

  ghost predicate CautiousAt(db: Db, events: seq<Event>, i: nat)
    requires WellFormed(db) && i < |events|
  {
    Cautious(Behavior(db, events[..i]), events[i])
  }

  /** No refused download, no raised executor and no MISSING releases the lease of an attempt that still has
      something ahead. */
  ghost predicate CautiousBehavior(db: Db, events: seq<Event>)
    requires WellFormed(db)
  {
    forall i :: 0 <= i < |events| ==> CautiousAt(db, events, i)
  }

  lemma CautiousInPrefix(db: Db, events: seq<Event>, n: nat, i: nat)
    requires WellFormed(db) && i < n <= |events|
    ensures CautiousAt(db, events[..n], i) <==> CautiousAt(db, events, i)
  {
    assert events[..n][..i] == events[..i];
  }

  lemma {:induction false} BehaviorInv(db: Db, events: seq<Event>)
    requires IsPlanned(db) && CautiousBehavior(db, events)
    ensures WorldInv(Behavior(db, events))
    decreases |events|
  {
    if events == [] {
      PlannedInv(db);
      forall k: Key ensures !ValidAt(db, k) {
        if k.0 < |db.tasks| { assert IsPlannedTask(db.tasks[k.0]); }
      }
    } else {
      var n := |events| - 1;
      forall i | 0 <= i < n ensures CautiousAt(db, events[..n], i) {
        CautiousInPrefix(db, events, n, i);
      }
      assert CautiousAt(db, events, n);
      BehaviorInv(db, events[..n]);
      NextKeeps(Behavior(db, events[..n]), events[n]);
    }
  }

  /** The remote result of a refused download says itself that the group was cleaned up; the other two calls
      are only made when nothing is ahead. */
  predicate Checked(w: World, e: Event) {
    e.Control? && Unproven(w, e.op, e.basis) ==>
      if ReportsRefusal(e.op, e.basis) then HostAt(w, KeyOf(e.op.item)).result == Some(RemoteResult(true))
      else NothingAhead(w, KeyOf(e.op.item))
  }

  ghost predicate CheckedAt(db: Db, events: seq<Event>, i: nat)
    requires WellFormed(db) && i < |events|
  {
    Checked(Behavior(db, events[..i]), events[i])
  }

  ghost predicate RefusalsChecked(db: Db, events: seq<Event>)
    requires WellFormed(db)
  {
    forall i :: 0 <= i < |events| ==> CheckedAt(db, events, i)
  }

  lemma CheckedIsCautious(w: World, e: Event)
    requires WorldInv(w) && Checked(w, e)
    ensures Cautious(w, e)
  {
    if e.Control? && ReportsRefusal(e.op, e.basis) {
      assert FencedAt(w, KeyOf(e.op.item));
      ResultMeansNothingAhead(w, KeyOf(e.op.item));
    }
  }

  lemma CheckedInPrefix(db: Db, events: seq<Event>, n: nat, i: nat)
    requires WellFormed(db) && i < n <= |events| && CheckedAt(db, events, i)
    ensures CheckedAt(db, events[..n], i)
  {
    assert events[..n][..i] == events[..i];
  }

  /** Looking at the remote result before reporting a refused download is caution enough. */
  lemma {:induction false} CheckedRefusalsAreCautious(db: Db, events: seq<Event>)
    requires IsPlanned(db) && RefusalsChecked(db, events)
    ensures CautiousBehavior(db, events)
    decreases |events|
  {
    if events != [] {
      var n := |events| - 1;
      forall i | 0 <= i < n ensures CheckedAt(db, events[..n], i) {
        CheckedInPrefix(db, events, n, i);
      }
      CheckedRefusalsAreCautious(db, events[..n]);
      BehaviorInv(db, events[..n]);
      assert CheckedAt(db, events, n);
      CheckedIsCautious(Behavior(db, events[..n]), events[n]);
      forall i | 0 <= i < n ensures CautiousAt(db, events, i) {
        assert CautiousAt(db, events[..n], i);
        CautiousInPrefix(db, events, n, i);
      }
    }
  }

  /** In every behavior of lease, start, lost contact, expiry, probe, recovery, resolution and
      cancellation, with start calls in flight as long as the server lets them, a live process group's attempt
      still has its lease row, revoked or not. */
  lemma LiveGroupsAreLeased(db: Db, events: seq<Event>, k: Key)
    requires IsPlanned(db) && CautiousBehavior(db, events)
    ensures var w := Behavior(db, events); Alive(HostAt(w, k)) ==> LeaseAt(w.db, k).Some? && RemoteProcessStage(k.1)
  {
    BehaviorInv(db, events);
    assert FencedAt(Behavior(db, events), k);
  }

  // ---------------------------------------------------------------- no shared GPU

  predicate FixedCapacityEvents(events: seq<Event>, capacities: Capacities) {
    forall i :: 0 <= i < |events| && events[i].Control? && events[i].op.LeaseNext? ==> events[i].op.capacities == capacities
  }

  lemma NextKeepsResources(w: World, e: Event, capacities: Capacities)
    requires WellFormed(w.db) && ResourcesOk(w.db, capacities)
    requires e.Control? && e.op.LeaseNext? ==> e.op.capacities == capacities
    ensures ResourcesOk(Next(w, e).db, capacities)
  {
    assert Next(w, e).db == w.db || (e.Control? && Next(w, e).db == Step(w.db, e.op));
    if e.Control? {
      StepKeepsResources(w.db, e.op, capacities);
    }
  }

  lemma {:induction false} BehaviorResources(db: Db, events: seq<Event>, capacities: Capacities)
    requires IsPlanned(db) && FixedCapacityEvents(events, capacities)
    ensures ResourcesOk(Behavior(db, events).db, capacities)
    decreases |events|
  {
    if events == [] {
      RunKeepsResources(db, [], capacities);
    } else {
      var n := |events| - 1;
      BehaviorResources(db, events[..n], capacities);
      NextKeepsResources(Behavior(db, events[..n]), events[n], capacities);
    }
  }

  /** The live process groups of stages 4 to 7 and 9 each own a GPU of the pool, and no two own the same. */
  lemma LiveGroupsNeverShareGpu(db: Db, events: seq<Event>, capacities: Capacities, k: Key, q: Key)
    requires IsPlanned(db) && CautiousBehavior(db, events) && FixedCapacityEvents(events, capacities) && k != q
    requires Alive(HostAt(Behavior(db, events), k)) && Alive(HostAt(Behavior(db, events), q))
    requires k.1 in {4, 5, 6, 7, 9} && q.1 in {4, 5, 6, 7, 9}
    ensures var end := Behavior(db, events).db;
            && LeaseAt(end, k).Some? && LeaseAt(end, q).Some?
            && NamesItsResources(end, k, capacities) && NamesItsResources(end, q, capacities)
            && LeaseAt(end, k).value.resources[RemoteGpu] != LeaseAt(end, q).value.resources[RemoteGpu]
  {
    BehaviorResources(db, events, capacities);
    LiveGroupsAreLeased(db, events, k);
    LiveGroupsAreLeased(db, events, q);
    var end := Behavior(db, events).db;
    FitNames(end, k, capacities);
    FitNames(end, q, capacities);
    ExclusiveLabels(end, k, q, capacities);
  }
}
