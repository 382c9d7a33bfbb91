/** The other two releases on less than fencing needs, each in a run from a planned batch: a resolution on
    MISSING while a start call that lost its wrapper is still under way, and an executor that raises. */
module RemoteLateStarts {
  import opened Tables
  import opened Transitions
  import opened Batch
  import opened Protocol
  import opened RemoteHost
  import opened RemoteWorker
  import opened RemoteFencing
  import opened RemoteAftermath
  import opened OneBatch
  import opened RemoteRefusals

  // ---------------------------------------------------------------- the attempt is given up

  /** The start call was cut off before it answered; the wrapper cannot tell and reports that. */
  const CUT_OFF := WrapperRun(
    Link(true, true, [], Reply(false, None), [], DownloadBlocked),
    [PrepareCmd, StartCmd], Reported(LOST_CONTACT), Exit(Some(0), true, Readable(LOST_CONTACT)))

  lemma CutOffHappened()
    ensures Happened(MODEL_GENERATION, CUT_OFF)
  {
    assert CUT_OFF.issued[1] == StartCmd;
    assert EndsWait(CUT_OFF.link.start, CUT_OFF.link.polls, LostContact);
  }

  /** It saw nothing of the server. */
  lemma CutOffIsWitnessed()
    ensures Witnessed(OverWorld(Starting(0)), GENERATION, CUT_OFF)
  {
    CutOffHappened();
  }

  const GIVING_UP := Op.Fail(ItemAt(MODEL_GENERATION), AT, FailureReport(OutcomeOf(CUT_OFF), None))

  function GivenUp(): (db: Db)
    ensures WellFormed(db)
  {
    GenerationLeased();
    Failed(BatchAt(MODEL_GENERATION, Held), GIVING_UP.item, AT, GIVING_UP.report)
  }

  lemma AggregatedStage(db: Db, t: nat, s: nat)
    requires WellFormed(db) && t < |db.tasks| && s < STAGE_COUNT && s != EVALUATE_ABSOLUTE
    ensures Aggregated(db).tasks[t].stages[s] == db.tasks[t].stages[s]
  {
  }

  /** The lease is revoked and kept. */
  lemma GivenUpIsFenced()
    ensures WellFormed(BatchAt(MODEL_GENERATION, Held)) && Step(BatchAt(MODEL_GENERATION, Held), GIVING_UP) == GivenUp()
    ensures RecoversItem(GivenUp(), ItemAt(MODEL_GENERATION))
    ensures GivenUp().tasks[0].stages[MODEL_GENERATION].error == Some(DeliveryUnknown)
  {
    GenerationLeased();
    var held := BatchAt(MODEL_GENERATION, Held);
    var t := held.tasks[0];
    assert t.stages[MODEL_GENERATION] == StageAt(MODEL_GENERATION, Held, MODEL_GENERATION);
    FailStep(held, GIVING_UP.item, AT, GIVING_UP.report);
    var failed := FailTask(t, MODEL_GENERATION, 0, AT, GIVING_UP.report, true);
    AggregatedStage(WithTask(held, 0, failed), 0, MODEL_GENERATION);
  }

  /** The world once the attempt was given up; `db` are the tables. */
  function FencedWorld(db: Db, h: Host, checks: set<(Key, nat)>): World {
    World(db, map[GENERATION := h], {GENERATION}, {GENERATION}, checks)
  }

  lemma GivingUpNext(h: Host, db: Db)
    requires db == Step(BatchAt(MODEL_GENERATION, Held), GIVING_UP) && Witnessed(OverWorld(h), GENERATION, CUT_OFF)
    ensures Next(OverWorld(h), Control(GIVING_UP, Wrapped(CUT_OFF))) == FencedWorld(db, h, {})
  {
    assert !GIVING_UP.report.cleanup;
  }

  lemma WrapperGivesUp(events: seq<Event>, h: Host, db: Db) returns (more: seq<Event>)
    requires Behavior(BATCH, events) == OverWorld(h) && db == Step(BatchAt(MODEL_GENERATION, Held), GIVING_UP)
    requires Witnessed(OverWorld(h), GENERATION, CUT_OFF)
    ensures Behavior(BATCH, more) == FencedWorld(db, h, {})
  {
    more := events + [Control(GIVING_UP, Wrapped(CUT_OFF))];
    OneMoreEvent(events, Control(GIVING_UP, Wrapped(CUT_OFF)));
    GivingUpNext(h, db);
  }

  /** Its script is still at its first command. */
  lemma StartIsGivenUp() returns (events: seq<Event>)
    ensures Behavior(BATCH, events) == FencedWorld(GivenUp(), Starting(0), {})
  {
    events := ToModelGeneration();
    events := StartRuns(events, 0);
    events := OverNow(events, Starting(0));
    GivenUpIsFenced();
    CutOffIsWitnessed();
    events := WrapperGivesUp(events, Starting(0), GivenUp());
  }

  // ---------------------------------------------------------------- the server says MISSING

  function Asked(n: nat): Host {
    if n == 0 then HostNext(Starting(0), Begin(1, false)) else HostNext(Asked(n - 1), Advance(1, true, 0))
  }

  const MISSING := FRESH_HOST.(calls := map[0 := CheckResult(true), 1 := Done(SawMissing)])

  lemma AskedIsMissing()
    ensures Asked(4) == MISSING
  {
    var h := FRESH_HOST.(calls := map[0 := CheckResult(true)]);
    assert Starting(0) == h;
    assert Asked(0) == h.(calls := h.calls[1 := CheckResult(false)]);
    assert Asked(1) == h.(calls := h.calls[1 := CheckIdentity(false)]);
    assert Asked(2) == h.(calls := h.calls[1 := CheckPid(false)]);
    assert Asked(3) == h.(calls := h.calls[1 := CheckLock]);
    assert Asked(4).calls == MISSING.calls;
  }

  const CHECKS := {(GENERATION, 1)}

  lemma CheckIsCalled(events: seq<Event>, db: Db, h: Host) returns (more: seq<Event>)
    requires Behavior(BATCH, events) == FencedWorld(db, h, {}) && RecoversItem(db, ItemAt(MODEL_GENERATION)) && 1 !in h.calls
    ensures Behavior(BATCH, more) == FencedWorld(db, HostNext(h, Begin(1, false)), CHECKS)
  {
    var e := CheckCall(ItemAt(MODEL_GENERATION), 1);
    more := events + [e];
    OneMoreEvent(events, e);
    assert FencedWorld(db, h, {}).hosts[GENERATION := HostNext(h, Begin(1, false))]
        == FencedWorld(db, HostNext(h, Begin(1, false)), CHECKS).hosts;
  }

  lemma FencedWorldMoves(db: Db, h: Host, step: HostStep)
    requires !step.Begin? && WellFormed(db)
    ensures Next(FencedWorld(db, h, CHECKS), Server(GENERATION, step)) == FencedWorld(db, HostNext(h, step), CHECKS)
  {
    assert FencedWorld(db, h, CHECKS).hosts[GENERATION := HostNext(h, step)] == FencedWorld(db, HostNext(h, step), CHECKS).hosts;
  }

  lemma OneMoreProbe(events: seq<Event>, db: Db, h: Host) returns (more: seq<Event>)
    requires Behavior(BATCH, events) == FencedWorld(db, h, CHECKS)
    ensures Behavior(BATCH, more) == FencedWorld(db, HostNext(h, Advance(1, true, 0)), CHECKS)
  {
    var e := Server(GENERATION, Advance(1, true, 0));
    more := events + [e];
    OneMoreEvent(events, e);
    FencedWorldMoves(db, h, Advance(1, true, 0));
  }

  lemma {:induction false} CheckRuns(events: seq<Event>, db: Db, n: nat) returns (more: seq<Event>)
    requires Behavior(BATCH, events) == FencedWorld(db, Asked(0), CHECKS)
    ensures Behavior(BATCH, more) == FencedWorld(db, Asked(n), CHECKS)
    decreases n
  {
    if n == 0 {
      more := events;
    } else {
      more := CheckRuns(events, db, n - 1);
      more := OneMoreProbe(more, db, Asked(n - 1));
    }
  }

  const RESOLUTION := Control(Op.Resolve(ItemAt(MODEL_GENERATION), RetryAttempt), Basis.Probed(1))

  lemma ResolutionIsMade(db: Db)
    requires WellFormed(db) && RecoversItem(db, ItemAt(MODEL_GENERATION))
    ensures MayRelease(FencedWorld(db, MISSING, CHECKS), RESOLUTION)
    ensures ResolvesMissing(FencedWorld(db, MISSING, CHECKS), RESOLUTION.op, RESOLUTION.basis)
  {
    assert MISSING.calls[1] == Done(SawMissing);
  }

  lemma MissingIsAnswered() returns (events: seq<Event>)
    ensures Behavior(BATCH, events) == FencedWorld(GivenUp(), MISSING, CHECKS)
  {
    events := StartIsGivenUp();
    GivenUpIsFenced();
    assert Starting(0) == FRESH_HOST.(calls := map[0 := CheckResult(true)]);
    events := CheckIsCalled(events, GivenUp(), Starting(0));
    events := CheckRuns(events, GivenUp(), 4);
    AskedIsMissing();
  }

  /** From a planned batch: the start call of a model generation loses its wrapper before its script has
      reached the lock. The attempt is given up, its lease kept; the server, asked by the recovery, says
      MISSING, and the attempt is retried, which deletes the lease. Then the script goes on, takes the lock and
      launches: a live group without a lease row. */
  lemma LateStartBreaksFencing() returns (events: seq<Event>, later: seq<Event>)
    ensures IsPlanned(BATCH) && MayRelease(Behavior(BATCH, events), RESOLUTION)
    ensures ResolvesMissing(Behavior(BATCH, events), RESOLUTION.op, RESOLUTION.basis)
    ensures var end := Behavior(BATCH, events + [RESOLUTION] + later);
            Alive(HostAt(end, GENERATION)) && LeaseAt(end.db, GENERATION).None?
  {
    BatchIsPlanned();
    events := MissingIsAnswered();
    GivenUpIsFenced();
    ResolutionIsMade(GivenUp());
    later := LaunchesAnyway(events, GivenUp());
  }

  lemma LaunchesAnyway(events: seq<Event>, db: Db) returns (later: seq<Event>)
    requires Behavior(BATCH, events) == FencedWorld(db, MISSING, CHECKS) && MayRelease(Behavior(BATCH, events), RESOLUTION)
    ensures var end := Behavior(BATCH, events + [RESOLUTION] + later);
            Alive(HostAt(end, GENERATION)) && LeaseAt(end.db, GENERATION).None?
  {
    OneMoreEvent(events, RESOLUTION);
    ReleaseTakesLease(Behavior(BATCH, events), RESOLUTION);
    assert OnItsWay(MISSING, 0);
    later := LaunchFollows(BATCH, events + [RESOLUTION], GENERATION, 0);
  }

  // ---------------------------------------------------------------- the executor raises

  const RAISE := Control(Op.Fail(ItemAt(MODEL_GENERATION), AT, RAISED), Basis.Raised)

  /** From a planned batch: the executor of a model generation raises while its wrapper waits for the live
      group, and the worker reports a clean failure. */
  lemma RaisedExecutorBreaksFencing() returns (events: seq<Event>)
    ensures IsPlanned(BATCH) && MayRelease(Behavior(BATCH, events), RAISE)
    ensures var end := Behavior(BATCH, events + [RAISE]);
            Alive(HostAt(end, GENERATION)) && LeaseAt(end.db, GENERATION).None?
  {
    BatchIsPlanned();
    events := ToModelGeneration();
    events := StartRuns(events, 9);
    StartingLaunches();
    RaiseIsReported();
    OneMoreEvent(events, RAISE);
    ReleaseTakesLease(ServerWorld(LAUNCHED), RAISE);
  }

  lemma RaiseIsReported()
    ensures MayRelease(ServerWorld(LAUNCHED), RAISE) && Alive(HostAt(ServerWorld(LAUNCHED), GENERATION))
  {
    GenerationLeased();
    assert LAUNCHED.procs[7].ours && !LAUNCHED.procs[7].zombie;
  }
}
