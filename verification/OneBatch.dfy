/** One concrete batch on its way to the first remote process stage, phase by phase: what the runs that show
    a failure go through. */
module OneBatch {
  import opened Tables
  import opened Transitions
  import opened Batch
  import opened Protocol
  import opened OperatorSteps
  import opened Completion
  import opened Fairness

  const AT: Time := 1.0
  const LIMITS: Capacities := map[UnityGpu := 1, ImageApi := 1, SshIo := 1, RemoteGpu := 1]
  const BATCH := Db([PlannedTask(0, 0, 0, 1)], Planned, true, [7], 60.0, 0)
  const IMAGE := Artifact(0, EditedImage, 0)

  datatype Phase = Idle | Held | Recorded | Marked

  /** The stages that are leased on the way to the first remote process stage; the gate needs no worker. */
  predicate OnTheWay(s: nat) {
    s == UNITY_ANCHOR || s == IMAGE_EDIT || s == UPLOAD_INPUTS || s == MODEL_GENERATION
  }

  function After(s: nat): nat {
    if s == IMAGE_EDIT then UPLOAD_INPUTS else s + 1
  }

  function TokenOf(s: nat): nat {
    if s > EDIT_GATE then s - 1 else s
  }

  function CandidateAt(s: nat): Option<Candidate> {
    if s == IMAGE_EDIT then Some(Candidate(0, 0)) else None
  }

  function LabelsAt(s: nat): Allocation {
    if s == UNITY_ANCHOR then map[ProjectLock := 0, UnityGpu := 0]
    else if s == IMAGE_EDIT then map[ImageApi := 0]
    else if s == UPLOAD_INPUTS then map[SshIo := 0]
    else map[RemoteGpu := 7]
  }

  function Finished(s: nat): Attempt {
    Attempt(InState(Succeeded), CandidateAt(s), None, Some(Commit(Committed, [IMAGE])), [IMAGE])
  }

  function Working(s: nat, phase: Phase): Attempt {
    Attempt(InState(if phase.Held? then Leased else Committing), CandidateAt(s),
            Some(Lease(TokenOf(s), LabelsAt(s), AT + 60.0, None, false)),
            if phase.Held? then None else Some(Commit(if phase.Recorded? then Prepared else Published, [IMAGE])), [])
  }

  /** Stage `i` while stage `s` is in this phase. */
  function StageAt(s: nat, phase: Phase, i: nat): Stage {
    Stage(if i < s then Succeeded else if i > s then Pending
          else if phase.Idle? then Ready else if phase.Held? then (if s == IMAGE_EDIT then StageState.Running else StageState.Leased)
          else Committing,
          StageAttempts(i), 0.0, None,
          if i < s && i != EDIT_GATE then [Finished(i)] else if i == s && !phase.Idle? then [Working(s, phase)] else [])
  }

  function TaskAt(s: nat, phase: Phase): Task {
    Task(0, 0, 0, if s == UNITY_ANCHOR && phase.Idle? then None else Some(AT), TaskRunning, 1,
         seq(STAGE_COUNT, (i: nat) => StageAt(s, phase, i)),
         if s > IMAGE_EDIT then [[Gen(GenSucceeded, 0, true)]]
         else if s == IMAGE_EDIT && !phase.Idle? then [[Gen(GenRunning, 0, false)]] else [[]],
         if s > IMAGE_EDIT then [Review(0, AcceptedByPolicy)] else [],
         if s > IMAGE_EDIT then Some(0) else None)
  }

  function BatchAt(s: nat, phase: Phase): Db {
    Db([TaskAt(s, phase)], BatchRunning, true, [7], 60.0, if phase.Idle? then TokenOf(s) else TokenOf(s) + 1)
  }

  lemma StagesAre(stages: seq<Stage>, s: nat, phase: Phase)
    requires |stages| == STAGE_COUNT && forall i :: 0 <= i < STAGE_COUNT ==> stages[i] == StageAt(s, phase, i)
    ensures stages == TaskAt(s, phase).stages
  {
  }

  /** Only the row of the stage itself differs between its phases. */
  lemma OneStageMoves(t: Task, s: nat, from: Phase, to: Phase)
    requires |t.stages| == STAGE_COUNT && s < STAGE_COUNT
    requires t.stages == TaskAt(s, from).stages[s := t.stages[s]] && t.stages[s] == StageAt(s, to, s)
    ensures t.stages == TaskAt(s, to).stages
  {
    StagesAre(t.stages, s, to);
  }

  lemma BatchIsPlanned()
    ensures IsPlanned(BATCH) && Step(BATCH, Op.Start) == BatchAt(UNITY_ANCHOR, Idle)
  {
    assert Step(BATCH, Op.Start).tasks[0].stages == TaskAt(UNITY_ANCHOR, Idle).stages;
    assert Step(BATCH, Op.Start).tasks == [TaskAt(UNITY_ANCHOR, Idle)];
  }

  // ---------------------------------------------------------------- one stage of it

  lemma NothingLeased(s: nat)
    ensures forall k: Key :: LeaseAt(BatchAt(s, Idle), k).None?
    ensures forall r :: Holders(BatchAt(s, Idle), r) == {}
  {
    forall k: Key ensures LeaseAt(BatchAt(s, Idle), k).None? {
      if k.0 == 0 && k.1 < STAGE_COUNT { assert TaskAt(s, Idle).stages[k.1] == StageAt(s, Idle, k.1); }
    }
  }

  lemma Allocates(s: nat)
    requires OnTheWay(s)
    ensures Allocate(BatchAt(s, Idle), 0, StageResources(s), LIMITS) == Some(LabelsAt(s))
  {
    var db := BatchAt(s, Idle);
    NothingLeased(s);
    assert forall r, name :: !LabelTaken(db, r, name);
    if s == MODEL_GENERATION {
      assert PoolPrefix(db, 1) == [7];
      OneResource(db, RemoteGpu, 7);
    } else if s == UNITY_ANCHOR {
      OneResource(db, ProjectLock, 0);
      assert [UnityGpu, ProjectLock][1..] == [ProjectLock];
    } else if s == IMAGE_EDIT {
      OneResource(db, ImageApi, 0);
    } else {
      OneResource(db, SshIo, 0);
    }
  }

  lemma OneResource(db: Db, r: Resource, name: nat)
    requires AllocateOne(db, 0, r, LIMITS) == Some(name)
    ensures Allocate(db, 0, [r], LIMITS) == Some(map[r := name])
  {
    assert [r][1..] == [];
  }

  lemma NextIsStable(s: nat)
    requires OnTheWay(s)
    ensures RefreshRound(TaskAt(s, Idle)) == TaskAt(s, Idle)
  {
    var t := TaskAt(s, Idle);
    forall i | 0 <= i < STAGE_COUNT ensures t.stages[i] == StageAt(s, Idle, i) {}
    assert NothingToPromote(t);
    StableRound(t);
  }

  lemma IdleIsStable(s: nat)
    requires OnTheWay(s)
    ensures RefreshAll(BatchAt(s, Idle)) == BatchAt(s, Idle)
  {
    NextIsStable(s);
    assert RefreshAll(BatchAt(s, Idle)).tasks == [TaskAt(s, Idle)];
  }

  lemma IdleQueue(s: nat)
    requires OnTheWay(s)
    ensures IsQueue(BatchAt(s, Idle), AT, UNFILTERED, [Row(0, s)])
  {
    var db := BatchAt(s, Idle);
    forall i | 0 <= i < STAGE_COUNT ensures db.tasks[0].stages[i] == StageAt(s, Idle, i) {}
    forall r: Row | Eligible(db, AT, UNFILTERED, r) ensures r in [Row(0, s)] {
      assert db.tasks[0].stages[r.stage] == StageAt(s, Idle, r.stage);
    }
  }

  function LeaseFor(s: nat): Lease {
    Lease(TokenOf(s), LabelsAt(s), AT + 60.0, None, false)
  }

  lemma LeasedRow(s: nat)
    requires OnTheWay(s)
    ensures TaskAt(s, Idle).stages[s] == StageAt(s, Idle, s) && StageAt(s, Idle, s).attempts == []
    ensures StageAt(s, Idle, s).attempts + [NewAttempt(CandidateAt(s), LeaseFor(s))] == StageAt(s, Held, s).attempts
  {
  }

  lemma GrantsCandidate()
    ensures TryLease(TaskAt(IMAGE_EDIT, Idle), IMAGE_EDIT, AT, LeaseFor(IMAGE_EDIT), true) == Granted(TaskAt(IMAGE_EDIT, Held), 0)
  {
    var t := TaskAt(IMAGE_EDIT, Idle);
    LeasedRow(IMAGE_EDIT);
    var m := Materialized(t);
    assert CurrentGens(m.groups) == [Gen(GenPending, -1, false)];
    TryCandidateCases(m, AT, LeaseFor(IMAGE_EDIT), true);
    var pick := FirstWhere(CurrentGens(m.groups), (g: GenStatus) => Waiting(g));
    assert Waiting(CurrentGens(m.groups)[0].status);
    assert pick == Some(0);
    var r := CandidateGranted(m, 0, AT, LeaseFor(IMAGE_EDIT));
    assert |m.groups| == 1 && m.stages[IMAGE_EDIT].attempts == [];
    assert CurrentGens(m.groups)[0 := Gen(GenRunning, 0, false)] == [Gen(GenRunning, 0, false)];
    assert r.groups == [[Gen(GenRunning, 0, false)]];
    OneStageMoves(r, IMAGE_EDIT, Idle, Held);
  }

  lemma GrantsPlain(s: nat)
    requires OnTheWay(s) && s != IMAGE_EDIT
    ensures TryLease(TaskAt(s, Idle), s, AT, LeaseFor(s), true) == Granted(TaskAt(s, Held), 0)
  {
    LeasedRow(s);
    OneStageMoves(TryLease(TaskAt(s, Idle), s, AT, LeaseFor(s), true).task, s, Idle, Held);
  }

  function LeaseOp(s: nat): Op {
    Op.LeaseNext(AT, LIMITS, UNFILTERED, [Row(0, s)])
  }

  lemma ScanGrants(s: nat)
    requires OnTheWay(s) && WellFormed(BatchAt(s, Idle))
    ensures Scan(BatchAt(s, Idle), [Row(0, s)], AT, LIMITS).db == BatchAt(s, Held)
  {
    Allocates(s);
    assert FreshLease(BatchAt(s, Idle), AT, LabelsAt(s)) == LeaseFor(s);
    if s == IMAGE_EDIT { GrantsCandidate(); } else { GrantsPlain(s); }
  }

  lemma LeaseNextWrites(db: Db, queue: seq<Row>)
    requires WellFormed(db) && db.status.BatchRunning? && RefreshAll(db) == db && IsQueue(db, AT, UNFILTERED, queue)
    requires RowsInRange(db, queue)
    ensures Step(db, Op.LeaseNext(AT, LIMITS, UNFILTERED, queue)) == Scan(db, queue, AT, LIMITS).db
  {
  }

  lemma LeaseStep(s: nat)
    requires OnTheWay(s)
    ensures Step(BatchAt(s, Idle), LeaseOp(s)) == BatchAt(s, Held)
  {
    IdleIsStable(s);
    IdleQueue(s);
    ScanGrants(s);
    LeaseNextWrites(BatchAt(s, Idle), [Row(0, s)]);
  }

  function ItemAt(s: nat): Item {
    Item(0, s, 0, TokenOf(s))
  }

  lemma RecordStep(s: nat)
    requires OnTheWay(s)
    ensures Step(BatchAt(s, Held), Op.Prepare(ItemAt(s), AT, [IMAGE])) == BatchAt(s, Recorded)
  {
    assert TaskAt(s, Held).stages[s] == StageAt(s, Held, s);
    OneStageMoves(PreparedTask(TaskAt(s, Held), s, 0, [IMAGE]), s, Held, Recorded);
  }

  lemma MarkStep(s: nat)
    requires OnTheWay(s)
    ensures Step(BatchAt(s, Recorded), Op.PublishFiles((0, s, 0))) == BatchAt(s, Marked)
  {
    assert TaskAt(s, Recorded).stages[s] == StageAt(s, Recorded, s);
    OneStageMoves(PublishedTask(TaskAt(s, Recorded), s, 0), s, Recorded, Marked);
  }

  /** The task after the stage succeeded and before the dependencies are refreshed. */
  function SettledAt(s: nat): Task {
    TaskAt(s, Marked).(
      stages := seq(STAGE_COUNT, (i: nat) =>
        if i == s then Stage(Succeeded, StageAttempts(s), 0.0, None, [Finished(s)]) else StageAt(s, Marked, i)),
      groups := if s == IMAGE_EDIT then [[Gen(GenSucceeded, 0, true)]] else TaskAt(s, Marked).groups,
      reviews := if s == IMAGE_EDIT then [Review(0, AcceptedByPolicy)] else TaskAt(s, Marked).reviews)
  }

  lemma Finalizes(s: nat)
    requires OnTheWay(s)
    ensures ValidKey(TaskAt(s, Marked), s, 0) && CanFinalize(TaskAt(s, Marked), s, 0, Some(AT))
    ensures FinalizedTask(TaskAt(s, Marked), s, 0, true) == SettledAt(s)
  {
    var t := TaskAt(s, Marked);
    assert t.stages[s] == StageAt(s, Marked, s);
    assert CommittedAttempt(Working(s, Marked)) == Finished(s);
    if s == IMAGE_EDIT { FinalizesCandidate(t); }
    var r := FinalizedTask(t, s, 0, true);
    forall i | 0 <= i < STAGE_COUNT ensures r.stages[i] == SettledAt(s).stages[i] {
      SettledStage(s, i);
    }
    assert r.stages == SettledAt(s).stages;
  }

  lemma FinalizesCandidate(t: Task)
    requires t == TaskAt(IMAGE_EDIT, Marked)
    ensures WithGen(t.groups, Candidate(0, 0), GenSucceeded, HasImage([IMAGE])) == [[Gen(GenSucceeded, 0, true)]]
    ensures GroupDone([Gen(GenSucceeded, 0, true)], 1)
  {
    assert [IMAGE][0].kind.EditedImage?;
    var gens := [Gen(GenSucceeded, 0, true)];
    assert !AnyUnfinished(gens);
    assert t.groups[0][0 := gens[0]] == gens;
  }

  lemma SettledStage(s: nat, i: nat)
    requires OnTheWay(s) && i < STAGE_COUNT
    ensures SettledAt(s).stages[i]
         == if i == s then Stage(Succeeded, StageAttempts(s), 0.0, None, [Finished(s)]) else StageAt(s, Marked, i)
  {
  }

  lemma PromotesNext(s: nat)
    requires s == UNITY_ANCHOR || s == UPLOAD_INPUTS
    ensures Refreshed(SettledAt(s)) == TaskAt(After(s), Idle)
  {
    var t := SettledAt(s);
    forall i | 0 <= i < STAGE_COUNT ensures RefreshRound(t).stages[i] == StageAt(After(s), Idle, i) {
      SettledStage(s, i);
      if i > 0 { SettledStage(s, i - 1); }
    }
    StagesAre(RefreshRound(t).stages, After(s), Idle);
    assert RefreshRound(t).accepted == t.accepted by { SettledStage(s, EDIT_GATE); }
    NextIsStable(After(s));
  }

  lemma ReviewAccepts()
    ensures var t := SettledAt(IMAGE_EDIT);
            && LatestReview(t.reviews) == Some(Review(0, AcceptedByPolicy)) && CandidateFor(t, 0, None) == Some(0)
            && DependencyMet(t, EDIT_GATE)
  {
    var t := SettledAt(IMAGE_EDIT);
    SettledStage(IMAGE_EDIT, IMAGE_EDIT);
    SettledStage(IMAGE_EDIT, EDIT_GATE);
    assert t.reviews == [Review(0, AcceptedByPolicy)] && t.reviews[..0] == [];
    assert LatestReview(t.reviews[..0]) == None;
    assert FirstSelectable([Gen(GenSucceeded, 0, true)]) == Some(0);
  }

  /** The image stage's review is accepted by policy, which lets the gate and then the upload through. */
  lemma PromotesGate()
    ensures Refreshed(SettledAt(IMAGE_EDIT)) == TaskAt(UPLOAD_INPUTS, Idle)
  {
    var t := SettledAt(IMAGE_EDIT);
    var r := RefreshRound(t);
    ReviewAccepts();
    forall i | 0 <= i < STAGE_COUNT
      ensures r.stages[i] == if i == EDIT_GATE then Stage(Succeeded, StageAttempts(i), 0.0, None, []) else t.stages[i]
    {
      SettledStage(IMAGE_EDIT, i);
      if i > 0 { SettledStage(IMAGE_EDIT, i - 1); }
    }
    forall i | 0 <= i < STAGE_COUNT ensures RefreshRound(r).stages[i] == StageAt(UPLOAD_INPUTS, Idle, i) {
      SettledStage(IMAGE_EDIT, i);
      if i > 0 { SettledStage(IMAGE_EDIT, i - 1); }
    }
    StagesAre(RefreshRound(r).stages, UPLOAD_INPUTS, Idle);
  }

  lemma IdleStatus(s: nat)
    requires OnTheWay(s)
    ensures !AtBoundary(TaskAt(s, Idle)) && StatusOf(TaskAt(s, Idle)).TaskRunning?
  {
    var t := TaskAt(s, Idle);
    forall i | 0 <= i < STAGE_COUNT ensures t.stages[i] == StageAt(s, Idle, i) {}
    assert t.stages[EVALUATE_ABSOLUTE].state.Pending?;
  }

  lemma IdleIsAggregated(s: nat)
    requires OnTheWay(s)
    ensures Aggregated(BatchAt(s, Idle)) == BatchAt(s, Idle)
  {
    var db := BatchAt(s, Idle);
    IdleStatus(s);
    assert !AtBoundary(db.tasks[0]);
    assert SkipIncomplete(db) == db;
    assert Restated(db).tasks == [TaskAt(s, Idle)];
    assert Statuses([TaskAt(s, Idle)]) == {TaskRunning};
  }

  lemma SettledRefreshes(s: nat)
    requires OnTheWay(s) && s != MODEL_GENERATION
    ensures Refreshed(SettledAt(s)) == TaskAt(After(s), Idle)
  {
    if s == IMAGE_EDIT { PromotesGate(); } else { PromotesNext(s); }
  }

  lemma CompletesStage(s: nat)
    requires OnTheWay(s) && s != MODEL_GENERATION
    ensures WellFormed(WithTask(BatchAt(s, Marked), 0, SettledAt(s)))
    ensures Aggregated(RefreshAll(WithTask(BatchAt(s, Marked), 0, SettledAt(s)))) == BatchAt(After(s), Idle)
  {
    var settled := WithTask(BatchAt(s, Marked), 0, SettledAt(s));
    SettledRefreshes(s);
    assert RefreshAll(settled).tasks == [TaskAt(After(s), Idle)];
    IdleIsAggregated(After(s));
  }

  lemma OwnsMarked(s: nat)
    requires OnTheWay(s)
    ensures OwnsItem(BatchAt(s, Marked), ItemAt(s), AT)
  {
    assert TaskAt(s, Marked).stages[s] == StageAt(s, Marked, s);
  }

  lemma FinalizeWrites(db: Db, item: Item, now: Time, t: Task)
    requires WellFormed(db) && OwnsItem(db, item, now)
    requires CanFinalize(db.tasks[item.task], item.stage, item.attempt, Some(now))
    requires t == FinalizedTask(db.tasks[item.task], item.stage, item.attempt, db.automatic)
    requires WellFormed(WithTask(db, item.task, t))
    ensures Step(db, Op.Finalize(item, now)) == Aggregated(RefreshAll(WithTask(db, item.task, t)))
  {
    FinalizeStep(db, item, now);
  }

  lemma FinishStep(s: nat)
    requires OnTheWay(s) && s != MODEL_GENERATION
    ensures WellFormed(BatchAt(s, Marked))
    ensures Step(BatchAt(s, Marked), Op.Finalize(ItemAt(s), AT)) == BatchAt(After(s), Idle)
  {
    OwnsMarked(s);
    Finalizes(s);
    CompletesStage(s);
    FinalizeWrites(BatchAt(s, Marked), ItemAt(s), AT, SettledAt(s));
  }
}
