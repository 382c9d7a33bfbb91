/** Where the code does not fence: the report of a refused download releases the lease of an attempt whose
    process group may be alive. The exact condition, and a run from a planned batch in which it happens. */
module RemoteRefusals {
  import opened Tables
  import opened Batch
  import opened Protocol
  import opened Runs
  import opened RemoteHost
  import opened RemoteWorker
  import opened RemoteFencing
  import opened RemoteAftermath
  import opened OneBatch

  // ---------------------------------------------------------------- the condition

  /** The worker of a remote stage may report that the download of its result was refused. */
  ghost predicate MayReportRefusal(w: World, e: Event) {
    MayRelease(w, e) && ReportsRefusal(e.op, e.basis)
  }

  /** In every behavior of a planned batch, a refused download may be reported when the remote result says
      `cleanup`, and its attempt is still fenced afterwards. */
  ghost predicate RefusalsSafe(cleanup: bool) {
    forall db: Db, events: seq<Event>, e: Event ::
      IsPlanned(db) && MayReportRefusal(Behavior(db, events), e)
      && HostAt(Behavior(db, events), KeyOf(e.op.item)).result == Some(RemoteResult(cleanup)) ==>
        StillLeased(Next(Behavior(db, events), e), KeyOf(e.op.item))
  }

  // ---------------------------------------------------------------- the run, event by event

  lemma OneMoreEvent(events: seq<Event>, e: Event)
    ensures Behavior(BATCH, events + [e]) == Next(Behavior(BATCH, events), e)
  {
    OneLater(BATCH, events, e);
  }

  /** A call that concerns no remote process stage is the controller's alone. */
  lemma OneMoreCall(events: seq<Event>, w: World, op: Op) returns (more: seq<Event>)
    requires Behavior(BATCH, events) == w && Justified(w, op, NoBasis)
    ensures Behavior(BATCH, more) == w.(db := Step(w.db, op))
  {
    more := events + [Control(op, NoBasis)];
    OneMoreEvent(events, Control(op, NoBasis));
  }

  function BatchWorld(s: nat, phase: Phase): World {
    World(BatchAt(s, phase), map[], {}, {}, {})
  }

  lemma ThroughStage(events: seq<Event>, s: nat) returns (more: seq<Event>)
    requires OnTheWay(s) && s != MODEL_GENERATION && Behavior(BATCH, events) == BatchWorld(s, Idle)
    ensures Behavior(BATCH, more) == BatchWorld(After(s), Idle)
  {
    LeaseStep(s);
    more := OneMoreCall(events, BatchWorld(s, Idle), LeaseOp(s));
    RecordStep(s);
    more := OneMoreCall(more, BatchWorld(s, Held), Op.Prepare(ItemAt(s), AT, [IMAGE]));
    MarkStep(s);
    more := OneMoreCall(more, BatchWorld(s, Recorded), Op.PublishFiles((0, s, 0)));
    FinishStep(s);
    more := OneMoreCall(more, BatchWorld(s, Marked), Op.Finalize(ItemAt(s), AT));
  }

  /** Unity views, image edit, gate and upload succeed, and the model generation is leased. */
  lemma ToModelGeneration() returns (events: seq<Event>)
    ensures Behavior(BATCH, events) == BatchWorld(MODEL_GENERATION, Held)
  {
    BatchIsPlanned();
    events := OneMoreCall([], World(BATCH, map[], {}, {}, {}), Op.Start);
    events := ThroughStage(events, UNITY_ANCHOR);
    events := ThroughStage(events, IMAGE_EDIT);
    events := ThroughStage(events, UPLOAD_INPUTS);
    LeaseStep(MODEL_GENERATION);
    events := OneMoreCall(events, BatchWorld(MODEL_GENERATION, Idle), LeaseOp(MODEL_GENERATION));
  }

  const GENERATION: Key := (0, MODEL_GENERATION, 0)

  /** The server after `n` commands of the start script, which launches process 7. */
  function Starting(n: nat): Host {
    if n == 0 then HostNext(FRESH_HOST, Begin(0, true)) else HostNext(Starting(n - 1), Advance(0, true, 7))
  }

  const LAUNCHED := Host(None, true, Some(Identity(7, 7, 0, Some(0))), true, 0, 1, map[7 := Proc(7, 0, false, true)],
                         [Launch(7, 0, 0)], map[0 := Done(SawStarted)])

  lemma StartingLocks()
    ensures Starting(3) == FRESH_HOST.(calls := map[0 := TakeLock])
    ensures Starting(5) == FRESH_HOST.(lock := true, calls := map[0 := Launching])
  {
    assert Starting(0) == FRESH_HOST.(calls := map[0 := CheckResult(true)]);
    assert Starting(1) == FRESH_HOST.(calls := map[0 := CheckIdentity(true)]);
    assert Starting(2) == FRESH_HOST.(calls := map[0 := CheckPid(true)]);
    assert Starting(3) == FRESH_HOST.(calls := map[0 := TakeLock]);
    assert Starting(4) == FRESH_HOST.(lock := true, calls := map[0 := Preflight]);
  }

  lemma StartingLaunches()
    ensures Starting(9) == LAUNCHED
  {
    StartingLocks();
    var launched := FRESH_HOST.(lock := true, clock := 1, procs := map[7 := Proc(7, 0, false, true)], launches := [Launch(7, 0, 0)]);
    var id := Identity(7, 7, 0, Some(0));
    assert Starting(6) == launched.(calls := map[0 := ReadStart(7)]);
    assert Starting(7) == launched.(calls := map[0 := WritePid(id)]);
    assert Starting(8) == launched.(pidFile := true, calls := map[0 := WriteIdentity(id)]);
  }

  function ServerWorld(h: Host): World {
    World(BatchAt(MODEL_GENERATION, Held), map[GENERATION := h], {GENERATION}, {}, {})
  }

  lemma GenerationLeased()
    ensures ValidAt(BatchAt(MODEL_GENERATION, Held), GENERATION)
    ensures OwnsItem(BatchAt(MODEL_GENERATION, Held), ItemAt(MODEL_GENERATION), AT)
  {
    assert TaskAt(MODEL_GENERATION, Held).stages[MODEL_GENERATION] == StageAt(MODEL_GENERATION, Held, MODEL_GENERATION);
  }

  lemma ServerWorldMoves(h: Host, step: HostStep)
    requires !step.Begin?
    ensures Next(ServerWorld(h), Server(GENERATION, step)) == ServerWorld(HostNext(h, step))
  {
    GenerationLeased();
    assert ServerWorld(h).hosts[GENERATION := HostNext(h, step)] == ServerWorld(HostNext(h, step)).hosts;
  }

  lemma OneMoreServerStep(events: seq<Event>, h: Host, step: HostStep) returns (more: seq<Event>)
    requires Behavior(BATCH, events) == ServerWorld(h) && !step.Begin?
    ensures Behavior(BATCH, more) == ServerWorld(HostNext(h, step))
  {
    more := events + [Server(GENERATION, step)];
    OneMoreEvent(events, Server(GENERATION, step));
    ServerWorldMoves(h, step);
  }

  lemma StartIsCalled(events: seq<Event>) returns (more: seq<Event>)
    requires Behavior(BATCH, events) == BatchWorld(MODEL_GENERATION, Held)
    ensures Behavior(BATCH, more) == ServerWorld(Starting(0))
  {
    GenerationLeased();
    more := events + [StartCall(GENERATION, 0)];
    OneMoreEvent(events, StartCall(GENERATION, 0));
    StartWorld();
  }

  lemma StartWorld()
    ensures Next(BatchWorld(MODEL_GENERATION, Held), StartCall(GENERATION, 0)) == ServerWorld(Starting(0))
  {
    GenerationLeased();
    var w := Next(BatchWorld(MODEL_GENERATION, Held), StartCall(GENERATION, 0));
    assert w.hosts == ServerWorld(Starting(0)).hosts;
  }

  lemma {:induction false} StartRuns(events: seq<Event>, n: nat) returns (more: seq<Event>)
    requires Behavior(BATCH, events) == BatchWorld(MODEL_GENERATION, Held)
    ensures Behavior(BATCH, more) == ServerWorld(Starting(n))
    decreases n
  {
    if n == 0 {
      more := StartIsCalled(events);
    } else {
      more := StartRuns(events, n - 1);
      more := OneMoreServerStep(more, Starting(n - 1), Advance(0, true, 7));
    }
  }

  lemma ProbeIsCalled(events: seq<Event>, h: Host) returns (more: seq<Event>)
    requires Behavior(BATCH, events) == ServerWorld(h)
    ensures Behavior(BATCH, more) == ServerWorld(HostNext(h, Begin(1, false)))
  {
    more := events + [ProbeCall(GENERATION, 1)];
    OneMoreEvent(events, ProbeCall(GENERATION, 1));
    assert ServerWorld(h).hosts[GENERATION := HostNext(h, Begin(1, false))] == ServerWorld(HostNext(h, Begin(1, false))).hosts;
  }

  /** The group has written a result that does not claim its cleanup, and a poll has seen it. */
  const REPORTED := LAUNCHED.(result := Some(RemoteResult(false)), calls := map[0 := Done(SawStarted), 1 := Done(SawResult)])

  lemma PollSeesResult()
    ensures var written := HostNext(LAUNCHED, WriteResult(7, false));
            var probing := HostNext(written, Begin(1, false));
            HostNext(probing, Advance(1, true, 0)) == REPORTED
  {
    var written := LAUNCHED.(result := Some(RemoteResult(false)));
    assert HostNext(LAUNCHED, WriteResult(7, false)) == written;
    var probing := written.(calls := map[0 := Done(SawStarted), 1 := CheckResult(false)]);
    assert HostNext(written, Begin(1, false)) == probing;
  }

  /** The wrapper of the model generation is over. */
  function OverWorld(h: Host): World {
    ServerWorld(h).(ended := {GENERATION})
  }

  lemma OverNow(events: seq<Event>, h: Host) returns (more: seq<Event>)
    requires Behavior(BATCH, events) == ServerWorld(h)
    ensures Behavior(BATCH, more) == OverWorld(h)
  {
    more := events + [WrapperEnds(GENERATION)];
    GenerationLeased();
    OneMoreEvent(events, WrapperEnds(GENERATION));
  }

  lemma ResultIsSeen() returns (events: seq<Event>)
    ensures Behavior(BATCH, events) == OverWorld(REPORTED)
  {
    events := ToModelGeneration();
    events := StartRuns(events, 9);
    StartingLaunches();
    events := OneMoreServerStep(events, LAUNCHED, WriteResult(7, false));
    var written := HostNext(LAUNCHED, WriteResult(7, false));
    events := ProbeIsCalled(events, written);
    events := OneMoreServerStep(events, HostNext(written, Begin(1, false)), Advance(1, true, 0));
    PollSeesResult();
    events := OverNow(events, REPORTED);
  }

  // ---------------------------------------------------------------- the refused report

  /** The wrapper started the stage, saw RESULT at its first poll, and refused what it downloaded. */
  const REFUSING := WrapperRun(
    Link(true, true, [], Reply(true, Some(SawStarted)), [Poll(false, Reply(true, Some(SawResult)))], InvalidDownload),
    [PrepareCmd, StartCmd, DownloadCmd], Reported(REFUSED), Exit(Some(0), true, Readable(REFUSED)))

  lemma RefusingHappened()
    ensures Happened(MODEL_GENERATION, REFUSING)
  {
    var link, issued := REFUSING.link, REFUSING.issued;
    assert issued[1] == StartCmd && issued[2] == DownloadCmd;
    assert EndsWait(link.start, link.polls, Settled(SawResult)) by {
      assert link.polls[0].reply.state == Some(SawResult);
    }
    assert AfterWait(Settled(SawResult), link.download) == Reported(REFUSED);
  }

  const REFUSAL := Control(Fail(ItemAt(MODEL_GENERATION), AT, FailureReport(OutcomeOf(REFUSING), None)), Wrapped(REFUSING))

  lemma RefusingWitnessed()
    ensures Witnessed(OverWorld(REPORTED), GENERATION, REFUSING)
  {
    RefusingHappened();
    var h := HostAt(OverWorld(REPORTED), GENERATION);
    assert h == REPORTED && h.calls[0] == Done(SawStarted) && h.calls[1] == Done(SawResult);
    assert REFUSING.issued[1] == StartCmd;
    assert Replied(h, REFUSING.link.start) && Replied(h, REFUSING.link.polls[0].reply);
  }

  lemma RefusalMayBeReported()
    ensures MayReportRefusal(OverWorld(REPORTED), REFUSAL)
    ensures Alive(HostAt(OverWorld(REPORTED), GENERATION))
  {
    RefusingWitnessed();
    GenerationLeased();
    assert REPORTED.procs[7].ours && !REPORTED.procs[7].zombie;
  }

  /** From a planned batch: one task runs up to the model generation, whose process group writes a result
      without claiming its cleanup; the download is refused, and the report releases the GPU of the group
      that is still alive. */
  lemma RefusalBreaksFencing() returns (events: seq<Event>)
    ensures IsPlanned(BATCH) && MayReportRefusal(Behavior(BATCH, events), REFUSAL)
    ensures HostAt(Behavior(BATCH, events), GENERATION).result == Some(RemoteResult(false))
    ensures var end := Behavior(BATCH, events + [REFUSAL]);
            end == Next(Behavior(BATCH, events), REFUSAL) && Alive(HostAt(end, GENERATION)) && LeaseAt(end.db, GENERATION).None?
  {
    BatchIsPlanned();
    events := ResultIsSeen();
    OneMoreEvent(events, REFUSAL);
    RefusalMayBeReported();
    ReleaseTakesLease(OverWorld(REPORTED), REFUSAL);
  }

  /** A refused download keeps the attempt fenced in every reachable situation exactly if its remote result
      reports the cleanup completed, which the wrapper does not look at. */
  lemma RefusalsSafeExactlyIf(cleanup: bool)
    ensures RefusalsSafe(cleanup) <==> cleanup
  {
    if cleanup {
      forall db: Db, events: seq<Event>, e: Event
        | IsPlanned(db) && MayReportRefusal(Behavior(db, events), e)
          && HostAt(Behavior(db, events), KeyOf(e.op.item)).result == Some(RemoteResult(true))
        ensures StillLeased(Next(Behavior(db, events), e), KeyOf(e.op.item))
      {
        ReleaseTakesLease(Behavior(db, events), e);
        HostsInv(db, events, KeyOf(e.op.item));
      }
    } else {
      var events := RefusalBreaksFencing();
      assert !StillLeased(Next(Behavior(BATCH, events), REFUSAL), KeyOf(REFUSAL.op.item));
    }
  }
}
