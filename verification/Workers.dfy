/** The two loops that drive the controller: the wave runner and the batch worker. */
module Workers {
  import opened Tables
  import opened Transitions
  import opened Batch
  import opened Protocol
  import opened RunInvariant
  import opened Evolution
  import opened Resources
  import opened Fairness
  import opened Budgets
  import opened Controller
  import opened RemoteReleases
  import opened Submissions

  /** The fake executor's outcome names. */
  datatype FakeOutcome = FakeSuccess | Fake429 | Fake503 | FakeTimeout | FakeOom | FakeCrash | FakeStall | FakeInvalid | FakeRejected

  const FAKE_RESULT := Artifact(0, OtherArtifact, 0)

  function FakeExecution(o: FakeOutcome, now: Time): Execution {
    match o
    case FakeSuccess => Done([FAKE_RESULT], true, FilesPublished, now)
    case Fake429 => Broken(Report(Http429, None, Some(0.0), true))
    case Fake503 => Broken(Report(Http503, None, Some(0.0), true))
    case FakeTimeout => Broken(Report(DeliveryUnknown, None, None, true))
    case FakeOom => Broken(Report(ResourceOom, None, Some(0.0), true))
    case FakeCrash => Broken(Report(WorkerCrash, None, Some(0.0), true))
    case FakeStall => Broken(Report(Stalled, None, Some(0.0), true))
    case FakeInvalid => Broken(Report(InvalidInput, None, None, true))
    case FakeRejected => Broken(Report(QualityRejected, None, None, true))
  }

  // ---------------------------------------------------------------- what every call keeps

  /** The controller's tables are reachable, within budget and within capacity. */
  ghost predicate Sound(db: Db, capacities: Capacities) {
    Counted(db) && ResourcesOk(db, capacities)
  }

  /** The same batch, with `n` more attempts leased. */
  ghost predicate Leads(db: Db, db': Db, capacities: Capacities, n: nat) {
    Sound(db', capacities) && TotalBudget(db') == TotalBudget(db) && TotalAttempts(db') == TotalAttempts(db) + n
  }

  // ---------------------------------------------------------------- runs of a worker's calls

  /** Calls that grant no further attempts, hand back no lease, and record intents for `keys` alone, with one set of
      capacities. */
  ghost predicate WorkerOps(ops: seq<Op>, capacities: Capacities, keys: set<Key>) {
    NoGrants(ops) && FixedCapacities(ops, capacities) && AllHarmless(ops, keys)
  }

  /** Such calls lead from one state to the other and hand out `n` leases. */
  ghost predicate Reaches(db: Db, db': Db, capacities: Capacities, n: nat, keys: set<Key>)
    requires WellFormed(db)
  {
    WellFormed(db') && exists ops :: WorkerOps(ops, capacities, keys) && Run(db, ops) == db' && CountDispatches(db, ops) == n
  }

  lemma StepReaches(db: Db, op: Op, capacities: Capacities, keys: set<Key>)
    requires WellFormed(db) && !GrantsAttempts(op) && (op.LeaseNext? ==> op.capacities == capacities) && Harmless(op, keys)
    ensures Reaches(db, Step(db, op), capacities, if ItemOf(db, op).Some? then 1 else 0, keys)
  {
    var ops := [op];
    assert ops[..|ops| - 1] == [] && ops[|ops| - 1] == op;
    assert Run(db, []) == db && CountDispatches(db, []) == 0;
    assert CountDispatches(db, ops) == if ItemOf(db, op).Some? then 1 else 0;
    assert WorkerOps(ops, capacities, keys) && Run(db, ops) == Step(db, op);
  }

  lemma StaysReaches(db: Db, capacities: Capacities, keys: set<Key>)
    requires WellFormed(db)
    ensures Reaches(db, db, capacities, 0, keys)
  {
    assert WorkerOps([], capacities, keys) && Run(db, []) == db && CountDispatches(db, []) == 0;
  }

  lemma {:induction false} CountConcat(db: Db, a: seq<Op>, b: seq<Op>)
    requires WellFormed(db)
    ensures CountDispatches(db, a + b) == CountDispatches(db, a) + CountDispatches(Run(db, a), b)
    decreases |b|
  {
    if b == [] {
      assert a + b == a;
    } else {
      CountConcat(db, a, b[..|b| - 1]);
      Runs.RunConcat(db, a, b[..|b| - 1]);
      assert (a + b)[..|a + b| - 1] == a + b[..|b| - 1];
    }
  }

  lemma JoinedOps(x: seq<Op>, y: seq<Op>, capacities: Capacities, keys: set<Key>, more: set<Key>)
    requires WorkerOps(x, capacities, keys) && WorkerOps(y, capacities, more)
    ensures WorkerOps(x + y, capacities, keys + more)
  {
  }

  lemma ReachesTransitive(a: Db, b: Db, c: Db, capacities: Capacities, n: nat, m: nat, keys: set<Key>, more: set<Key>)
    requires WellFormed(a) && Reaches(a, b, capacities, n, keys) && Reaches(b, c, capacities, m, more)
    ensures Reaches(a, c, capacities, n + m, keys + more)
  {
    var x :| WorkerOps(x, capacities, keys) && Run(a, x) == b && CountDispatches(a, x) == n;
    var y :| WorkerOps(y, capacities, more) && Run(b, y) == c && CountDispatches(b, y) == m;
    Runs.RunConcat(a, x, y);
    CountConcat(a, x, y);
    JoinedOps(x, y, capacities, keys, more);
  }

  lemma ReachesWithin(a: Db, b: Db, c: Db, capacities: Capacities, n: nat, m: nat, keys: set<Key>)
    requires WellFormed(a) && Reaches(a, b, capacities, n, keys) && Reaches(b, c, capacities, m, keys)
    ensures Reaches(a, c, capacities, n + m, keys)
  {
    ReachesTransitive(a, b, c, capacities, n, m, keys, keys);
    assert keys + keys == keys;
  }

  lemma ReachesMore(db: Db, db': Db, capacities: Capacities, n: nat, keys: set<Key>, more: set<Key>)
    requires WellFormed(db) && Reaches(db, db', capacities, n, keys) && keys <= more
    ensures Reaches(db, db', capacities, n, more)
  {
    var ops :| WorkerOps(ops, capacities, keys) && Run(db, ops) == db' && CountDispatches(db, ops) == n;
    assert WorkerOps(ops, capacities, more);
  }

  lemma {:induction false} RunResources(db: Db, ops: seq<Op>, capacities: Capacities)
    requires WellFormed(db) && ResourcesOk(db, capacities) && FixedCapacities(ops, capacities)
    ensures ResourcesOk(Run(db, ops), capacities)
    decreases |ops|
  {
    if ops != [] {
      RunResources(db, ops[..|ops| - 1], capacities);
      StepKeepsResources(Run(db, ops[..|ops| - 1]), ops[|ops| - 1], capacities);
    }
  }

  lemma ReachesLeads(db: Db, db': Db, capacities: Capacities, n: nat, keys: set<Key>)
    requires Sound(db, capacities) && Reaches(db, db', capacities, n, keys)
    ensures Leads(db, db', capacities, n)
  {
    var ops :| WorkerOps(ops, capacities, keys) && Run(db, ops) == db' && CountDispatches(db, ops) == n;
    RunCounted(db, ops);
    RunResources(db, ops, capacities);
  }

  /** The invariant is kept, every attempt but these keeps its fate, and no other intent is opened. */
  lemma ReachesKeeps(db: Db, db': Db, capacities: Capacities, n: nat, keys: set<Key>)
    requires WellFormed(db) && Inv(db) && Reaches(db, db', capacities, n, keys)
    ensures Inv(db')
    ensures forall k: Key :: k !in keys ==> KeepsFate(db, db', k)
    ensures forall k: Key :: k !in keys && Unsettled(db', k) ==> Unsettled(db, k)
    ensures forall k: Key :: AttemptAt(db, k).Some? ==> AttemptAt(db', k).Some?
  {
    var ops :| WorkerOps(ops, capacities, keys) && Run(db, ops) == db' && CountDispatches(db, ops) == n;
    RunKeepsInv(db, ops);
    forall k: Key | AttemptAt(db, k).Some? ensures AttemptAt(db', k).Some? {
      RunKeepsRows(db, ops, k);
    }
    forall k: Key | k !in keys ensures KeepsFate(db, db', k) && (Unsettled(db', k) ==> Unsettled(db, k)) {
      RunKeepsFate(db, ops, keys, k);
    }
  }

  // ---------------------------------------------------------------- submitting one result

  /** The submissions whose error the worker's handler does not catch: no artifact, a staged file that does
      not check out, or, once the intent is recorded, files that cannot be published. */
  predicate Escapes(db: Db, item: Item, now: Time, e: Execution) {
    e.Done? && (e.artifacts == [] || !e.staged || (e.files.FilesUnusable? && MayPrepare(db, item, now)))
  }

  method Prepare(controller: BatchController, item: Item, now: Time, artifacts: seq<Artifact>, staged: bool, ghost capacities: Capacities)
    returns (r: Submission)
    requires WellFormed(controller.Tables())
    modifies controller
    ensures Reaches(old(controller.Tables()), controller.Tables(), capacities, 0, {Runs.KeyOf(item)})
    ensures r.Escaped? <==> artifacts == [] || !staged
    ensures r.Stored? <==> artifacts != [] && staged && MayPrepare(old(controller.Tables()), item, now)
    ensures controller.Tables() == if r.Stored? then Step(old(controller.Tables()), Op.Prepare(item, now, artifacts)) else old(controller.Tables())
  {
    ghost var start := controller.Tables();
    StaysReaches(start, capacities, {Runs.KeyOf(item)});
    PrepareStep(start, item, now, artifacts);
    r := controller.PrepareArtifactCommit(item, now, artifacts, staged);
    StepReaches(start, Op.Prepare(item, now, artifacts), capacities, {Runs.KeyOf(item)});
  }

  method Publish(controller: BatchController, item: Item, files: Publication, ghost capacities: Capacities) returns (r: Submission)
    requires WellFormed(controller.Tables())
    modifies controller
    ensures Reaches(old(controller.Tables()), controller.Tables(), capacities, 0, {})
    ensures r.Stored? <==> files.FilesPublished? && HasCommit(old(controller.Tables()), Runs.KeyOf(item))
    ensures r.Escaped? <==> files.FilesUnusable? && HasCommit(old(controller.Tables()), Runs.KeyOf(item))
    ensures controller.Tables() == if files.FilesPublished? then Step(old(controller.Tables()), Op.PublishFiles(Runs.KeyOf(item)))
                                  else old(controller.Tables())
  {
    ghost var start := controller.Tables();
    StaysReaches(start, capacities, {});
    r := controller.PublishCommitFiles(Runs.KeyOf(item), files);
    StepReaches(start, Op.PublishFiles(Runs.KeyOf(item)), capacities, {});
  }

  method Finish(controller: BatchController, item: Item, now: Time, ghost capacities: Capacities) returns (ok: bool)
    requires WellFormed(controller.Tables())
    modifies controller
    ensures Reaches(old(controller.Tables()), controller.Tables(), capacities, 0, {})
    ensures ok <==>
      && OwnsItem(old(controller.Tables()), item, now)
      && CanFinalize(old(controller.Tables()).tasks[item.task], item.stage, item.attempt, Some(now))
    ensures controller.Tables() == Step(old(controller.Tables()), Op.Finalize(item, now))
  {
    ghost var start := controller.Tables();
    ok := controller.Finalize(item, now);
    StepReaches(start, Op.Finalize(item, now), capacities, {});
  }

  /** The leases of all other attempts. */
  ghost predicate SparesOthers(db: Db, db': Db, k: Key) {
    forall q: Key :: q != k ==> LeaseAt(db', q) == LeaseAt(db, q)
  }

  lemma SparesTransitive(a: Db, b: Db, c: Db, k: Key)
    requires SparesOthers(a, b, k) && SparesOthers(b, c, k)
    ensures SparesOthers(a, c, k)
  {
  }

  lemma PlainCallSpares(db: Db, op: Op, k: Key)
    requires WellFormed(db) && ((op.Prepare? && k == Runs.KeyOf(op.item)) || (op.PublishFiles? && k == op.key))
    ensures SparesOthers(db, Step(db, op), k)
  {
    forall q: Key | q != k ensures LeaseAt(Step(db, op), q) == LeaseAt(db, q) {
      if op.Prepare? {
        PrepareTouchesOneRow(db, op, q);
      } else if HasCommit(db, k) {
        PublishedLeases(db.tasks[k.0], k.1, k.2, q.1, q.2);
      }
    }
  }

  lemma FailCallSpares(db: Db, item: Item, now: Time, r: Report, q: Key)
    requires WellFormed(db) && OwnsItem(db, item, now) && q != Runs.KeyOf(item)
    ensures LeaseAt(Failed(db, item, now, r), q) == LeaseAt(db, q)
  {
    var t := db.tasks[item.task];
    FailShape(t, item.stage, item.attempt, now, r, db.automatic);
    AggregatedLeases(WithTask(db, item.task, FailTask(t, item.stage, item.attempt, now, r, db.automatic)), q);
    if q.0 == item.task { FailSpares(t, item.stage, item.attempt, now, r, db.automatic, q.1, q.2); }
  }

  lemma FinalizeCallSpares(db: Db, item: Item, now: Time, q: Key)
    requires WellFormed(db) && OwnsItem(db, item, now) && q != Runs.KeyOf(item)
    requires CanFinalize(db.tasks[item.task], item.stage, item.attempt, Some(now))
    ensures LeaseAt(Completed(db, Runs.KeyOf(item), db.tasks[item.task]), q) == LeaseAt(db, q)
  {
    var t := db.tasks[item.task];
    SettledLeases(WithTask(db, item.task, FinalizedTask(t, item.stage, item.attempt, db.automatic)), q);
    if q.0 == item.task { FinalizeSpares(t, item.stage, item.attempt, db.automatic, q.1, q.2); }
  }

  lemma ReportSpares(db: Db, op: Op, q: Key)
    requires WellFormed(db) && (op.Finalize? || op.Fail?) && q != Runs.KeyOf(op.item)
    ensures LeaseAt(Step(db, op), q) == LeaseAt(db, q)
  {
    if OwnsItem(db, op.item, op.now) {
      if op.Fail? {
        FailCallSpares(db, op.item, op.now, op.report, q);
      } else if CanFinalize(db.tasks[op.item.task], op.item.stage, op.item.attempt, Some(op.now)) {
        FinalizeCallSpares(db, op.item, op.now, q);
      }
    }
  }

  lemma ReportSparesOthers(db: Db, op: Op)
    requires WellFormed(db) && (op.Finalize? || op.Fail?)
    ensures SparesOthers(db, Step(db, op), Runs.KeyOf(op.item))
  {
    forall q: Key | q != Runs.KeyOf(op.item) ensures LeaseAt(Step(db, op), q) == LeaseAt(db, q) {
      ReportSpares(db, op, q);
    }
  }

  lemma FailSpares(t: Task, s: nat, a: nat, now: Time, r: Report, automatic: bool, s': nat, a': nat)
    requires |t.stages| == STAGE_COUNT && LeaseOf(t, s, a).Some? && (s', a') != (s, a)
    ensures LeaseOf(FailTask(t, s, a, now, r, automatic), s', a') == LeaseOf(t, s', a')
  {
    if !(s == IMAGE_EDIT && t.stages[s].attempts[a].candidate.Some?) { FailPlainRows(t, s, a, now, r); }
  }

  lemma FinalizeSpares(t: Task, s: nat, a: nat, automatic: bool, s': nat, a': nat)
    requires |t.stages| == STAGE_COUNT && CanFinalize(t, s, a, None) && (s', a') != (s, a)
    ensures LeaseOf(FinalizedTask(t, s, a, automatic), s', a') == LeaseOf(t, s', a')
  {
  }

  /** publish_prepared_commit: publish the files of the recorded intent, then finalize it. */
  method PublishPrepared(controller: BatchController, item: Item, finished: Time, files: Publication, ghost capacities: Capacities)
    returns (r: Submission)
    requires WellFormed(controller.Tables()) && HasCommit(controller.Tables(), Runs.KeyOf(item))
    modifies controller
    ensures Reaches(old(controller.Tables()), controller.Tables(), capacities, 0, {})
    ensures SparesOthers(old(controller.Tables()), controller.Tables(), Runs.KeyOf(item))
    ensures r.Escaped? <==> files.FilesUnusable?
    ensures var published := Step(old(controller.Tables()), Op.PublishFiles(Runs.KeyOf(item)));
            && (r.Stored? <==>
                  && files.FilesPublished? && OwnsItem(published, item, finished)
                  && CanFinalize(published.tasks[item.task], item.stage, item.attempt, Some(finished)))
            && controller.Tables() == if files.FilesPublished? then Step(published, Op.Finalize(item, finished)) else old(controller.Tables())
  {
    ghost var start := controller.Tables();
    r := Publish(controller, item, files, capacities);
    PlainCallSpares(start, Op.PublishFiles(Runs.KeyOf(item)), Runs.KeyOf(item));
    if !r.Stored? { return; }
    ghost var published := controller.Tables();
    var ok := Finish(controller, item, finished, capacities);
    ReachesTransitive(start, published, controller.Tables(), capacities, 0, 0, {}, {});
    ReportSparesOthers(published, Op.Finalize(item, finished));
    SparesTransitive(start, published, controller.Tables(), Runs.KeyOf(item));
    r := if ok then Stored else Refused;
  }

  /** commit_success: record the intent, then publish it. It is stored exactly if it lands; then the attempt is
      committed with exactly its artifacts and without a lease, and not otherwise. */
  method CommitSuccess(controller: BatchController, item: Item, now: Time, e: Execution, ghost capacities: Capacities)
    returns (r: Submission)
    requires WellFormed(controller.Tables()) && e.Done?
    modifies controller
    ensures Reaches(old(controller.Tables()), controller.Tables(), capacities, 0, {Runs.KeyOf(item)})
    ensures SparesOthers(old(controller.Tables()), controller.Tables(), Runs.KeyOf(item))
    ensures r.Escaped? <==> Escapes(old(controller.Tables()), item, now, e)
    ensures r.Stored? <==> Lands(old(controller.Tables()), item, now, e)
    ensures controller.Tables() == AfterCommit(old(controller.Tables()), item, now, e)
    ensures r.Stored? <==>
      && CommittedWith(controller.Tables(), Runs.KeyOf(item), e.artifacts)
      && !CommittedWith(old(controller.Tables()), Runs.KeyOf(item), e.artifacts)
  {
    ghost var start := controller.Tables();
    r := Prepare(controller, item, now, e.artifacts, e.staged, capacities);
    CommitMeans(start, item, now, e);
    if !r.Stored? { return; }
    PlainCallSpares(start, Op.Prepare(item, now, e.artifacts), Runs.KeyOf(item));
    PreparedRow(start, item, now, e.artifacts);
    ghost var prepared := controller.Tables();
    r := PublishPrepared(controller, item, e.finished, e.files, capacities);
    if e.files.FilesPublished? {
      PublishedRow(start, prepared, item, e.artifacts);
      FinishesExactlyIf(start, Step(prepared, Op.PublishFiles(Runs.KeyOf(item))), item, e.artifacts, e.finished);
    }
    ReachesTransitive(start, prepared, controller.Tables(), capacities, 0, 0, {Runs.KeyOf(item)}, {});
    SparesTransitive(start, prepared, controller.Tables(), Runs.KeyOf(item));
  }

  /** The intents that a submission may record. */
  function Records(item: Item, e: Execution): set<Key> {
    if e.Done? then {Runs.KeyOf(item)} else {}
  }

  /** Hands an execution's result to the controller: a success as far as it gets, a failure as one report. */
  method Submit(controller: BatchController, item: Item, now: Time, e: Execution, ghost capacities: Capacities) returns (r: Submission)
    requires WellFormed(controller.Tables())
    modifies controller
    ensures Reaches(old(controller.Tables()), controller.Tables(), capacities, 0, Records(item, e))
    ensures SparesOthers(old(controller.Tables()), controller.Tables(), Runs.KeyOf(item))
    ensures r.Escaped? <==> Escapes(old(controller.Tables()), item, now, e)
    ensures e.Done? ==> controller.Tables() == AfterCommit(old(controller.Tables()), item, now, e)
    ensures e.Done? ==> (r.Stored? <==> Lands(old(controller.Tables()), item, now, e))
    ensures e.Done? && r.Stored? ==> CommittedWith(controller.Tables(), Runs.KeyOf(item), e.artifacts)
    ensures e.Broken? ==> controller.Tables() == Step(old(controller.Tables()), Op.Fail(item, now, e.report))
    ensures e.Broken? ==> (r.Stored? <==> OwnsItem(old(controller.Tables()), item, now))
  {
    match e {
      case Done(_, _, _, _) => r := CommitSuccess(controller, item, now, e, capacities);
      case Broken(report) =>
        ghost var start := controller.Tables();
        var ok := controller.Fail(item, now, report);
        StepReaches(start, Op.Fail(item, now, report), capacities, {});
        ReportSparesOthers(start, Op.Fail(item, now, report));
        r := if ok then Stored else Refused;
    }
  }

  lemma CallGrants(db: Db, op: Op)
    requires WellFormed(db) && op.LeaseNext?
    ensures ItemOf(db, op).Some? ==> Grants(db, Step(db, op), ItemOf(db, op).value, op.capacities, op.now)
    ensures ItemOf(db, op).None? ==> SameRows(db, Step(db, op))
  {
    if Calls(db, op) { LeaseNextDispatches(db, op.now, op.capacities, op.queue); }
  }

  method LeaseOne(controller: BatchController, now: Time, capacities: Capacities, f: Filter) returns (item: Option<Item>)
    requires WellFormed(controller.Tables())
    modifies controller
    ensures Reaches(old(controller.Tables()), controller.Tables(), capacities, if item.Some? then 1 else 0, {})
    ensures item.Some? ==> Grants(old(controller.Tables()), controller.Tables(), item.value, capacities, now)
    ensures item.None? ==> SameRows(old(controller.Tables()), controller.Tables())
  {
    ghost var start := controller.Tables();
    ghost var queue;
    item, queue := controller.LeaseNext(now, capacities, f);
    ghost var op := Op.LeaseNext(now, capacities, f, queue);
    CallGrants(start, op);
    StepReaches(start, op, capacities, {});
  }

  // ---------------------------------------------------------------- attempts that were just handed out

  /** The attempt exists and is not committed, nor has it an intent or lease with which it could be. */
  predicate Undone(db: Db, k: Key) {
    Decided(db, k) && !IsCommitted(AttemptAt(db, k).value)
  }

  ghost function KeysOf(wave: seq<Item>): (keys: set<Key>)
    ensures forall k :: k in keys <==> exists i :: 0 <= i < |wave| && Runs.KeyOf(wave[i]) == k
  {
    set i | 0 <= i < |wave| :: Runs.KeyOf(wave[i])
  }

  predicate AllUndone(db: Db, wave: seq<Item>, from: nat := 0) {
    forall i :: from <= i < |wave| ==> Undone(db, Runs.KeyOf(wave[i]))
  }

  /** None of these attempts existed before. */
  predicate AllNew(db: Db, wave: seq<Item>) {
    forall i :: 0 <= i < |wave| ==> AttemptAt(db, Runs.KeyOf(wave[i])).None?
  }

  lemma GrantedIsNew(db: Db, db': Db, x: Item, capacities: Capacities, now: Time)
    requires Grants(db, db', x, capacities, now)
    ensures AttemptAt(db, Runs.KeyOf(x)).None? && Undone(db', Runs.KeyOf(x))
    ensures forall q: Key :: AttemptAt(db, q).Some? ==> AttemptAt(db', q) == AttemptAt(db, q)
  {
    forall q: Key | AttemptAt(db, q).Some? ensures AttemptAt(db', q) == AttemptAt(db, q) {
      Runs.GrantKeepsRows(db, db', x, capacities, now, q);
    }
  }

  // ---------------------------------------------------------------- the wave runner

  /** Blocked: nothing can be leased. Raised: the controller refused a result. RetryStorm: the wave limit. */
  datatype RunnerEnd = Blocked | Raised | RetryStorm

  predicate Distinct(wave: seq<Item>) {
    forall i, j :: 0 <= i < j < |wave| ==> Runs.KeyOf(wave[i]) != Runs.KeyOf(wave[j])
  }

  /** Every item of the wave still holds its lease row. */
  predicate WaveLeased(db: Db, wave: seq<Item>) {
    Distinct(wave) && forall i :: 0 <= i < |wave| ==> LeaseAt(db, Runs.KeyOf(wave[i])).Some?
  }

  function Using(wave: seq<Item>, r: Resource): nat {
    if wave == [] then 0
    else Using(wave[..|wave| - 1], r) + (if r in StageResources(wave[|wave| - 1].stage) then 1 else 0)
  }

  ghost function UsingKeys(wave: seq<Item>, r: Resource): (s: set<Key>)
    ensures forall k :: k in s <==> exists i :: 0 <= i < |wave| && Runs.KeyOf(wave[i]) == k && r in StageResources(wave[i].stage)
  {
    set i | 0 <= i < |wave| && r in StageResources(wave[i].stage) :: Runs.KeyOf(wave[i])
  }

  lemma UsingKeysLast(wave: seq<Item>, r: Resource)
    requires wave != []
    ensures var n := |wave| - 1;
            UsingKeys(wave, r) == UsingKeys(wave[..n], r) + (if r in StageResources(wave[n].stage) then {Runs.KeyOf(wave[n])} else {})
  {
    var n := |wave| - 1;
    forall k ensures k in UsingKeys(wave, r)
                <==> k in UsingKeys(wave[..n], r) || (k == Runs.KeyOf(wave[n]) && r in StageResources(wave[n].stage))
    {
      if k in UsingKeys(wave, r) {
        var i :| 0 <= i < |wave| && Runs.KeyOf(wave[i]) == k && r in StageResources(wave[i].stage);
        if i < n { assert wave[..n][i] == wave[i]; }
      }
    }
  }

  lemma {:induction false} UsingCounts(wave: seq<Item>, r: Resource)
    requires Distinct(wave)
    ensures Using(wave, r) == |UsingKeys(wave, r)|
    decreases |wave|
  {
    if wave != [] {
      var n := |wave| - 1;
      UsingCounts(wave[..n], r);
      UsingKeysLast(wave, r);
      assert Runs.KeyOf(wave[n]) !in UsingKeys(wave[..n], r);
    }
  }

  /** A wave uses no counted resource beyond its capacity. */
  lemma WaveWithinCapacity(db: Db, wave: seq<Item>, r: Resource, capacities: Capacities)
    requires ResourcesOk(db, capacities) && WaveLeased(db, wave) && !Exclusive(r)
    ensures Using(wave, r) <= (if CapacityOf(capacities, r) > 0 then CapacityOf(capacities, r) else 0)
  {
    UsingCounts(wave, r);
    forall k | k in UsingKeys(wave, r) ensures k in Holders(db, r) {
      var i :| 0 <= i < |wave| && Runs.KeyOf(wave[i]) == k && r in StageResources(wave[i].stage);
      LeaseHolds(db, k, r);
    }
    SubsetSize(UsingKeys(wave, r), Holders(db, r));
    assert WithinCapacity(db, r, capacities);
  }

  lemma WaveGrows(db: Db, db': Db, wave: seq<Item>, k: Item, capacities: Capacities, now: Time)
    requires WaveLeased(db, wave) && Grants(db, db', k, capacities, now)
    ensures WaveLeased(db', wave + [k])
  {
    GrantedLeases(db, db', k, capacities, now);
    forall i | 0 <= i < |wave| ensures Runs.KeyOf(wave[i]) != Runs.KeyOf(k) {
      assert LeaseAt(db, Runs.KeyOf(wave[i])).Some?;
    }
  }

  const ALL_RESOURCES := [UnityGpu, ProjectLock, ImageApi, SshIo, RemoteGpu, RemoteCpu, RemoteIo, EvaluationApi]

  predicate Listed(r: Resource) {
    exists i :: 0 <= i < |ALL_RESOURCES| && ALL_RESOURCES[i] == r
  }

  lemma EveryResource(r: Resource)
    ensures Listed(r)
  {
    match r
    case UnityGpu => assert ALL_RESOURCES[0] == r;
    case ProjectLock => assert ALL_RESOURCES[1] == r;
    case ImageApi => assert ALL_RESOURCES[2] == r;
    case SshIo => assert ALL_RESOURCES[3] == r;
    case RemoteGpu => assert ALL_RESOURCES[4] == r;
    case RemoteCpu => assert ALL_RESOURCES[5] == r;
    case RemoteIo => assert ALL_RESOURCES[6] == r;
    case EvaluationApi => assert ALL_RESOURCES[7] == r;
  }

  predicate PeakCovers(peak: map<Resource, nat>, wave: seq<Item>, r: Resource) {
    Using(wave, r) > 0 ==> r in peak && peak[r] >= Using(wave, r)
  }

  datatype Executed = Executed(item: Item, outcome: FakeOutcome)

  /** The attempt is committed, with the fake result, exactly if its outcome was a success. */
  predicate HasOutcome(db: Db, x: Executed) {
    var k := Runs.KeyOf(x.item);
    if x.outcome.FakeSuccess? then CommittedWith(db, k, [FAKE_RESULT]) else Undone(db, k)
  }

  predicate AllHaveOutcomes(db: Db, log: seq<Executed>) {
    forall i :: 0 <= i < |log| ==> HasOutcome(db, log[i])
  }

  /** An item without an entry succeeds. */
  predicate OutcomesFrom(log: seq<Executed>, outcomes: map<Key, FakeOutcome>) {
    forall i :: 0 <= i < |log| ==>
      var k := Runs.KeyOf(log[i].item);
      log[i].outcome == if k in outcomes then outcomes[k] else FakeSuccess
  }

  lemma OutcomesStay(db: Db, db': Db, log: seq<Executed>, keys: set<Key>)
    requires AllHaveOutcomes(db, log) && forall i :: 0 <= i < |log| ==> Runs.KeyOf(log[i].item) !in keys
    requires forall k: Key :: k !in keys ==> KeepsFate(db, db', k)
    ensures AllHaveOutcomes(db', log)
  {
    forall i | 0 <= i < |log| ensures HasOutcome(db', log[i]) {
      assert HasOutcome(db, log[i]) && KeepsFate(db, db', Runs.KeyOf(log[i].item));
    }
  }

  /** A wave of new attempts leaves the earlier ones alone. */
  lemma OldOutcomesStay(start: Db, filled: Db, end: Db, log: seq<Executed>, wave: seq<Item>)
    requires AllHaveOutcomes(start, log) && AllHaveOutcomes(filled, log) && AllNew(start, wave)
    requires forall k: Key :: k !in KeysOf(wave) ==> KeepsFate(filled, end, k)
    ensures AllHaveOutcomes(end, log)
  {
    forall i | 0 <= i < |log| ensures Runs.KeyOf(log[i].item) !in KeysOf(wave) {
      assert HasOutcome(start, log[i]);
    }
    OutcomesStay(filled, end, log, KeysOf(wave));
  }

  /** The wave leased so far: new attempts, all of them leased and undone. */
  ghost predicate Filling(start: Db, db: Db, capacities: Capacities, wave: seq<Item>)
    requires WellFormed(start)
  {
    && Reaches(start, db, capacities, |wave|, {}) && Sound(db, capacities)
    && AllNew(start, wave) && WaveLeased(db, wave) && AllUndone(db, wave)
  }

  lemma NextIsNew(start: Db, here: Db, db: Db, capacities: Capacities, n: nat, x: Item, now: Time)
    requires WellFormed(start) && Inv(start) && Reaches(start, here, capacities, n, {}) && Grants(here, db, x, capacities, now)
    ensures AttemptAt(start, Runs.KeyOf(x)).None? && Undone(db, Runs.KeyOf(x))
  {
    ReachesKeeps(start, here, capacities, n, {});
    GrantedIsNew(here, db, x, capacities, now);
  }

  lemma StillUndone(here: Db, db: Db, wave: seq<Item>, x: Item, capacities: Capacities, now: Time)
    requires AllUndone(here, wave) && Grants(here, db, x, capacities, now)
    ensures AllUndone(db, wave)
  {
    GrantedIsNew(here, db, x, capacities, now);
    forall i | 0 <= i < |wave| ensures Undone(db, Runs.KeyOf(wave[i])) {
      assert Undone(here, Runs.KeyOf(wave[i]));
      assert LeaseAt(db, Runs.KeyOf(wave[i])) == LeaseAt(here, Runs.KeyOf(wave[i]));
    }
  }

  lemma OneMoreNew(start: Db, here: Db, db: Db, capacities: Capacities, wave: seq<Item>, x: Item, now: Time)
    requires WellFormed(start) && Inv(start) && Reaches(start, here, capacities, |wave|, {}) && Grants(here, db, x, capacities, now)
    requires AllNew(start, wave) && AllUndone(here, wave)
    ensures AllNew(start, wave + [x]) && AllUndone(db, wave + [x])
  {
    NextIsNew(start, here, db, capacities, |wave|, x, now);
    StillUndone(here, db, wave, x, capacities, now);
  }

  lemma FillingGrows(start: Db, here: Db, db: Db, capacities: Capacities, wave: seq<Item>, x: Item, now: Time)
    requires WellFormed(start) && Inv(start) && Filling(start, here, capacities, wave)
    requires Grants(here, db, x, capacities, now) && Reaches(here, db, capacities, 1, {})
    ensures Filling(start, db, capacities, wave + [x])
  {
    OneMoreNew(start, here, db, capacities, wave, x, now);
    WaveGrows(here, db, wave, x, capacities, now);
    ReachesLeads(here, db, capacities, 1, {});
    ReachesWithin(start, here, db, capacities, |wave|, 1, {});
    assert |wave + [x]| == |wave| + 1;
  }

  lemma FillingStays(start: Db, here: Db, db: Db, capacities: Capacities, wave: seq<Item>)
    requires WellFormed(start) && Filling(start, here, capacities, wave)
    requires SameRows(here, db) && Reaches(here, db, capacities, 0, {})
    ensures Filling(start, db, capacities, wave)
  {
    ReachesLeads(here, db, capacities, 0, {});
    ReachesWithin(start, here, db, capacities, |wave|, 0, {});
    SameHolders(here, db, RemoteGpu);
    forall i | 0 <= i < |wave| ensures Undone(db, Runs.KeyOf(wave[i])) {
      assert Undone(here, Runs.KeyOf(wave[i]));
      SameRowsSameAttempts(here, db, Runs.KeyOf(wave[i]));
    }
  }

  lemma FillingWithinBudget(start: Db, db: Db, capacities: Capacities, wave: seq<Item>)
    requires WellFormed(start) && Sound(start, capacities) && Filling(start, db, capacities, wave)
    ensures Leads(start, db, capacities, |wave|) && TotalAttempts(start) + |wave| <= TotalBudget(start)
  {
    ReachesLeads(start, db, capacities, |wave|, {});
    WithinBudget(db);
  }

  /** A stored submission of an undone item has the outcome that was executed. */
  lemma SubmittedOutcome(start: Db, marked: Db, db: Db, item: Item, o: FakeOutcome, now: Time, capacities: Capacities)
    requires WellFormed(start) && Inv(start) && Undone(start, Runs.KeyOf(item))
    requires WellFormed(marked) && marked == Step(start, Op.MarkRunning(item, now, 0))
    requires o.FakeSuccess? ==> CommittedWith(db, Runs.KeyOf(item), [FAKE_RESULT])
    requires Reaches(marked, db, capacities, 0, Records(item, FakeExecution(o, now)))
    ensures HasOutcome(db, Executed(item, o))
  {
    StepReaches(start, Op.MarkRunning(item, now, 0), capacities, {});
    ReachesKeeps(start, marked, capacities, 0, {});
    assert KeepsFate(start, marked, Runs.KeyOf(item));
    ReachesKeeps(marked, db, capacities, 0, Records(item, FakeExecution(o, now)));
    assert !o.FakeSuccess? ==> KeepsFate(marked, db, Runs.KeyOf(item));
  }

  /** The wave executed as far as the log goes. */
  ghost predicate Executing(start: Db, db: Db, capacities: Capacities, wave: seq<Item>, log: seq<Executed>)
    requires WellFormed(start)
  {
    && |log| <= |wave| && Reaches(start, db, capacities, 0, KeysOf(wave)) && Inv(db)
    && (forall j :: 0 <= j < |log| ==> log[j].item == wave[j])
    && AllHaveOutcomes(db, log) && AllUndone(db, wave, |log|)
  }

  lemma UndoneStay(db: Db, db': Db, wave: seq<Item>, from: nat, keys: set<Key>)
    requires AllUndone(db, wave, from) && forall i :: from <= i < |wave| ==> Runs.KeyOf(wave[i]) !in keys
    requires forall k: Key :: k !in keys ==> KeepsFate(db, db', k)
    ensures AllUndone(db', wave, from)
  {
    forall i | from <= i < |wave| ensures Undone(db', Runs.KeyOf(wave[i])) {
      assert Undone(db, Runs.KeyOf(wave[i])) && KeepsFate(db, db', Runs.KeyOf(wave[i]));
    }
  }

  lemma ExecutedOne(start: Db, here: Db, db: Db, capacities: Capacities, wave: seq<Item>, log: seq<Executed>, o: FakeOutcome, ok: bool)
    requires WellFormed(start) && Executing(start, here, capacities, wave, log) && |log| < |wave| && Distinct(wave)
    requires Reaches(here, db, capacities, 0, {Runs.KeyOf(wave[|log|])})
    requires ok ==> HasOutcome(db, Executed(wave[|log|], o))
    ensures Reaches(start, db, capacities, 0, KeysOf(wave)) && AllHaveOutcomes(db, log)
    ensures ok ==> Executing(start, db, capacities, wave, log + [Executed(wave[|log|], o)])
  {
    var keys := {Runs.KeyOf(wave[|log|])};
    ReachesKeeps(here, db, capacities, 0, keys);
    ReachesMore(here, db, capacities, 0, keys, KeysOf(wave));
    ReachesWithin(start, here, db, capacities, 0, 0, KeysOf(wave));
    OutcomesStay(here, db, log, keys);
    UndoneStay(here, db, wave, |log| + 1, keys);
  }

  /** The tables are sound, and of the recorded attempts exactly those whose outcome was a success are committed. */
  ghost predicate Ended(db: Db, capacities: Capacities, log: seq<Executed>, outcomes: map<Key, FakeOutcome>) {
    Sound(db, capacities) && AllHaveOutcomes(db, log) && OutcomesFrom(log, outcomes)
  }

  /** Besides, the recorded attempts are all that were leased since. */
  ghost predicate Waves(start: Db, db: Db, capacities: Capacities, log: seq<Executed>, outcomes: map<Key, FakeOutcome>) {
    Ended(db, capacities, log, outcomes) && Leads(start, db, capacities, |log|)
  }

  lemma WaveFilled(start: Db, filled: Db, capacities: Capacities, wave: seq<Item>, done: seq<Executed>)
    requires Sound(start, capacities) && Filling(start, filled, capacities, wave) && AllHaveOutcomes(start, done)
    ensures Leads(start, filled, capacities, |wave|) && AllHaveOutcomes(filled, done)
  {
    ReachesLeads(start, filled, capacities, |wave|, {});
    ReachesKeeps(start, filled, capacities, |wave|, {});
    OutcomesStay(start, filled, done, {});
  }

  lemma WaveExecuted(start: Db, filled: Db, end: Db, capacities: Capacities, wave: seq<Item>, done: seq<Executed>)
    requires Sound(start, capacities) && Filling(start, filled, capacities, wave) && AllHaveOutcomes(start, done)
    requires Reaches(filled, end, capacities, 0, KeysOf(wave))
    ensures Leads(start, end, capacities, |wave|) && AllHaveOutcomes(end, done)
  {
    WaveFilled(start, filled, capacities, wave, done);
    ReachesLeads(filled, end, capacities, 0, KeysOf(wave));
    ReachesKeeps(filled, end, capacities, 0, KeysOf(wave));
    OldOutcomesStay(start, filled, end, done, wave);
  }

  lemma WaveAdded(start: Db, here: Db, end: Db, capacities: Capacities, done: seq<Executed>, more: seq<Executed>, outcomes: map<Key, FakeOutcome>, n: nat)
    requires Waves(start, here, capacities, done, outcomes) && Leads(here, end, capacities, n)
    requires AllHaveOutcomes(end, done) && AllHaveOutcomes(end, more) && OutcomesFrom(more, outcomes)
    ensures Ended(end, capacities, done + more, outcomes)
    ensures |more| == n ==> Waves(start, end, capacities, done + more, outcomes)
  {
  }

  class FakeRunner {
    const controller: BatchController
    const capacities: Capacities
    var peak: map<Resource, nat>

    constructor (c: BatchController, limits: Capacities)
      ensures controller == c && capacities == limits && peak == map[]
    {
      controller, capacities, peak := c, limits, map[];
    }

    /** No recorded peak of a counted resource exceeds its capacity. */
    predicate PeaksWithin()
      reads this
    {
      forall r :: r in peak && !Exclusive(r) ==> peak[r] <= (if CapacityOf(capacities, r) > 0 then CapacityOf(capacities, r) else 0)
    }

    /** One more item for the wave, if any. */
    method ExtendWave(now: Time, wave: seq<Item>, ghost start: Db) returns (longer: seq<Item>)
      requires WellFormed(start) && Inv(start) && Filling(start, controller.Tables(), capacities, wave)
      modifies controller
      ensures longer == wave || |longer| == |wave| + 1
      ensures Filling(start, controller.Tables(), capacities, longer)
    {
      ghost var here := controller.Tables();
      var item := LeaseOne(controller, now, capacities, UNFILTERED);
      longer := wave;
      if item.Some? {
        FillingGrows(start, here, controller.Tables(), capacities, wave, item.value, now);
        longer := wave + [item.value];
      } else {
        FillingStays(start, here, controller.Tables(), capacities, wave);
      }
    }

    /** Lease until nothing more can be had. */
    method FillWave(now: Time) returns (wave: seq<Item>)
      requires Sound(controller.Tables(), capacities)
      modifies controller
      ensures Filling(old(controller.Tables()), controller.Tables(), capacities, wave)
    {
      ghost var start := controller.Tables();
      wave := [];
      WithinBudget(start);
      StaysReaches(start, capacities, {});
      var more := true;
      while more
        invariant Filling(start, controller.Tables(), capacities, wave)
        invariant TotalAttempts(start) + |wave| <= TotalBudget(start)
        decreases TotalBudget(start) - TotalAttempts(start) - |wave|, more
      {
        var n := |wave|;
        wave := ExtendWave(now, wave, start);
        FillingWithinBudget(start, controller.Tables(), capacities, wave);
        more := |wave| > n;
      }
    }

    /** Count what the wave holds and raise the recorded peaks. */
    method RecordPeaks(wave: seq<Item>)
      requires ResourcesOk(controller.Tables(), capacities) && WaveLeased(controller.Tables(), wave) && PeaksWithin()
      modifies this`peak
      ensures PeaksWithin()
      ensures forall r :: PeakCovers(peak, wave, r)
    {
      for i := 0 to |ALL_RESOURCES|
        invariant PeaksWithin()
        invariant forall j :: 0 <= j < i ==> PeakCovers(peak, wave, ALL_RESOURCES[j])
      {
        RecordPeak(wave, ALL_RESOURCES[i]);
      }
      forall r ensures PeakCovers(peak, wave, r) {
        EveryResource(r);
      }
    }

    method RecordPeak(wave: seq<Item>, r: Resource)
      requires ResourcesOk(controller.Tables(), capacities) && WaveLeased(controller.Tables(), wave) && PeaksWithin()
      modifies this`peak
      ensures PeaksWithin()
      ensures PeakCovers(peak, wave, r)
      ensures forall q :: q in old(peak) ==> q in peak && peak[q] >= old(peak)[q]
    {
      var count := Using(wave, r);
      if !Exclusive(r) { WaveWithinCapacity(controller.Tables(), wave, r, capacities); }
      if count > 0 {
        peak := peak[r := if r in peak && peak[r] > count then peak[r] else count];
      }
    }

    /** Runs one leased item; false stands for a raised error. */
    method ExecuteItem(item: Item, now: Time, o: FakeOutcome) returns (ok: bool)
      requires WellFormed(controller.Tables()) && Inv(controller.Tables()) && Undone(controller.Tables(), Runs.KeyOf(item))
      modifies controller
      ensures Reaches(old(controller.Tables()), controller.Tables(), capacities, 0, {Runs.KeyOf(item)})
      ensures ok ==> HasOutcome(controller.Tables(), Executed(item, o))
    {
      ghost var start := controller.Tables();
      ghost var keys := {Runs.KeyOf(item)};
      ok := controller.MarkRunning(item, now, 0);
      StepReaches(start, Op.MarkRunning(item, now, 0), capacities, {});
      ghost var marked := controller.Tables();
      ReachesMore(start, marked, capacities, 0, {}, keys);
      if !ok { return; }
      var r := Submit(controller, item, now, FakeExecution(o, now), capacities);
      ReachesMore(marked, controller.Tables(), capacities, 0, Records(item, FakeExecution(o, now)), keys);
      ReachesWithin(start, marked, controller.Tables(), capacities, 0, 0, keys);
      if r.Stored? { SubmittedOutcome(start, marked, controller.Tables(), item, o, now, capacities); }
      ok := r.Stored?;
    }

    /** Runs item `i` of a wave after those that the log records. */
    method ExecuteNext(wave: seq<Item>, i: nat, now: Time, o: FakeOutcome, ghost start: Db, ghost log: seq<Executed>) returns (ok: bool)
      requires WellFormed(start) && i == |log| < |wave| && Distinct(wave) && Executing(start, controller.Tables(), capacities, wave, log)
      modifies controller
      ensures Reaches(start, controller.Tables(), capacities, 0, KeysOf(wave)) && AllHaveOutcomes(controller.Tables(), log)
      ensures ok ==> Executing(start, controller.Tables(), capacities, wave, log + [Executed(wave[i], o)])
    {
      ghost var here := controller.Tables();
      ok := ExecuteItem(wave[i], now, o);
      ExecutedOne(start, here, controller.Tables(), capacities, wave, log, o, ok);
    }

    /** Runs the items of a wave in order until one raises. */
    method ExecuteWave(wave: seq<Item>, now: Time, outcomes: map<Key, FakeOutcome>) returns (raised: bool, ghost log: seq<Executed>)
      requires Sound(controller.Tables(), capacities) && Distinct(wave) && AllUndone(controller.Tables(), wave)
      modifies controller
      ensures Reaches(old(controller.Tables()), controller.Tables(), capacities, 0, KeysOf(wave))
      ensures AllHaveOutcomes(controller.Tables(), log) && OutcomesFrom(log, outcomes) && (!raised ==> |log| == |wave|)
    {
      ghost var start := controller.Tables();
      StaysReaches(start, capacities, KeysOf(wave));
      raised, log := false, [];
      for i := 0 to |wave|
        invariant !raised && |log| == i && Executing(start, controller.Tables(), capacities, wave, log)
        invariant OutcomesFrom(log, outcomes)
      {
        var k := Runs.KeyOf(wave[i]);
        var o := if k in outcomes then outcomes[k] else FakeSuccess;
        var ok := ExecuteNext(wave, i, now, o, start, log);
        if !ok { return true, log; }
        log := log + [Executed(wave[i], o)];
      }
    }

    /** One wave after those that `done` records. */
    method NextWave(now: Time, outcomes: map<Key, FakeOutcome>, ghost start: Db, ghost done: seq<Executed>)
      returns (blocked: bool, raised: bool, ghost log: seq<Executed>)
      requires PeaksWithin() && Waves(start, controller.Tables(), capacities, done, outcomes)
      modifies this`peak, controller
      ensures PeaksWithin() && |log| >= |done|
      ensures !raised ==> Waves(start, controller.Tables(), capacities, log, outcomes)
      ensures Ended(controller.Tables(), capacities, log, outcomes)
      ensures blocked ==> !raised
      ensures !blocked && !raised ==> |log| > |done|
    {
      ghost var here := controller.Tables();
      var wave := FillWave(now);
      ghost var filled := controller.Tables();
      WaveFilled(here, filled, capacities, wave, done);
      WaveAdded(start, here, filled, capacities, done, [], outcomes, |wave|);
      assert done + [] == done;
      if wave == [] { return true, false, done; }
      RecordPeaks(wave);
      ghost var more;
      blocked := false;
      raised, more := ExecuteWave(wave, now, outcomes);
      WaveExecuted(here, filled, controller.Tables(), capacities, wave, done);
      WaveAdded(start, here, controller.Tables(), capacities, done, more, outcomes, |wave|);
      log := done + more;
    }

    /** Waves until nothing can be leased. With a wave limit above what the budgets still allow, the
        runner never gives up as a retry storm, whatever the outcomes. Unless it raises, every lease it took is
        recorded; and of the recorded attempts exactly those whose outcome was a success are committed at the end. */
    method RunUntilBlocked(clock: nat -> Time, outcomes: map<Key, FakeOutcome>, maxWaves: nat)
      returns (end: RunnerEnd, ghost log: seq<Executed>)
      requires Sound(controller.Tables(), capacities) && PeaksWithin()
      modifies this`peak, controller
      ensures PeaksWithin()
      ensures end.RetryStorm? ==> maxWaves <= TotalBudget(old(controller.Tables())) - TotalAttempts(old(controller.Tables()))
      ensures Ended(controller.Tables(), capacities, log, outcomes)
      ensures !end.Raised? ==> Waves(old(controller.Tables()), controller.Tables(), capacities, log, outcomes)
    {
      ghost var start := controller.Tables();
      log := [];
      for w := 0 to maxWaves
        invariant PeaksWithin() && w <= |log| && Waves(start, controller.Tables(), capacities, log, outcomes)
      {
        var blocked, raised;
        blocked, raised, log := NextWave(clock(w), outcomes, start, log);
        if blocked { return Blocked, log; }
        if raised { return Raised, log; }
      }
      WithinBudget(controller.Tables());
      end := RetryStorm;
    }
  }

  // ---------------------------------------------------------------- the batch worker

  datatype WorkerReport = WorkerReport(processed: nat, succeeded: nat, failed: nat)

  function Tallied(report: WorkerReport, success: bool): WorkerReport {
    if success then WorkerReport(report.processed + 1, report.succeeded + 1, report.failed)
    else WorkerReport(report.processed + 1, report.succeeded, report.failed + 1)
  }

  /** NotRunning: refused before anything is done. Interrupted: an error of a submission left the loop, and
      there is no report. */
  datatype WorkerEnd = NotRunning | Finished(report: WorkerReport) | Interrupted

  /** A submission; `recorded` says that its intent was stored, `landed` that it was published and finalized too. */
  datatype Submitted = Submitted(item: Item, execution: Execution, recorded: bool, landed: bool)

  predicate EscapesAt(x: Submitted) {
    x.execution.Done? && (x.execution.artifacts == [] || !x.execution.staged || (x.recorded && x.execution.files.FilesUnusable?))
  }

  predicate NoneEscapes(log: seq<Submitted>) {
    forall i :: 0 <= i < |log| ==> !EscapesAt(log[i])
  }

  /** Only the last submission escapes. */
  predicate LastEscapes(log: seq<Submitted>) {
    log != [] && EscapesAt(log[|log| - 1]) && forall i :: 0 <= i < |log| - 1 ==> !EscapesAt(log[i])
  }

  /** The items of the wave were submitted in order, each with its own result. */
  predicate Logged(log: seq<Submitted>, wave: seq<Item>, results: seq<Execution>, from: nat) {
    |log| <= |wave| && OwnResults(log, results, from) && forall i :: 0 <= i < |log| ==> log[i].item == wave[i]
  }

  predicate OwnResults(log: seq<Submitted>, results: seq<Execution>, from: nat := 0) {
    from + |log| <= |results| && forall i :: 0 <= i < |log| ==> log[i].execution == results[from + i]
  }

  lemma LogStep(log: seq<Submitted>, x: Submitted, wave: seq<Item>, results: seq<Execution>, from: nat)
    requires Logged(log, wave, results, from) && NoneEscapes(log) && |log| < |wave| && from + |log| < |results|
    requires x.item == wave[|log|] && x.execution == results[from + |log|]
    ensures Logged(log + [x], wave, results, from)
    ensures if EscapesAt(x) then LastEscapes(log + [x]) else NoneEscapes(log + [x])
  {
  }

  lemma LogsJoin(log: seq<Submitted>, more: seq<Submitted>, results: seq<Execution>)
    requires NoneEscapes(log) && OwnResults(log, results) && OwnResults(more, results, |log|)
    ensures OwnResults(log + more, results)
    ensures NoneEscapes(more) ==> NoneEscapes(log + more)
    ensures LastEscapes(more) ==> LastEscapes(log + more) && !NoneEscapes(log + more) && (log + more)[|log + more| - 1] == more[|more| - 1]
  {
    if LastEscapes(more) { assert EscapesAt((log + more)[|log + more| - 1]); }
  }

  /** The intent of a submission that escaped after recording it stays, prepared. */
  predicate LeavesIntent(db: Db, x: Submitted) {
    x.recorded && x.execution.Done? ==>
      HasCommit(db, Runs.KeyOf(x.item)) && AttemptAt(db, Runs.KeyOf(x.item)).value.commit == Some(Commit(Prepared, x.execution.artifacts))
  }

  /** The attempt's fate: committed exactly if the submission landed, or its intent was recorded and its files agree
      with it at the recovery that follows the refusal. */
  predicate Accounted(db: Db, x: Submitted, agree: set<Key>) {
    var k := Runs.KeyOf(x.item);
    && Decided(db, k)
    && (IsCommitted(AttemptAt(db, k).value) <==> x.landed || (x.recorded && k in agree))
    && (IsCommitted(AttemptAt(db, k).value) ==> x.execution.Done? && CommittedWith(db, k, x.execution.artifacts))
  }

  predicate AllAccounted(db: Db, log: seq<Submitted>, agree: set<Key>) {
    forall i :: 0 <= i < |log| ==> Accounted(db, log[i], agree)
  }

  function CountLanded(log: seq<Submitted>): nat {
    if log == [] then 0 else CountLanded(log[..|log| - 1]) + (if log[|log| - 1].landed then 1 else 0)
  }

  /** The recorded submissions whose attempts are committed. */
  function CountCommitted(db: Db, log: seq<Submitted>): nat {
    if log == [] then 0
    else
      var k := Runs.KeyOf(log[|log| - 1].item);
      CountCommitted(db, log[..|log| - 1]) + (if AttemptAt(db, k).Some? && IsCommitted(AttemptAt(db, k).value) then 1 else 0)
  }

  /** A recorded submission was refused, because its directories clashed or its lease had run out, and its files agree
      with the intent at the recovery that follows. */
  predicate Rescued(x: Submitted, agree: set<Key>) {
    x.recorded && !x.landed && Runs.KeyOf(x.item) in agree
  }

  /** Every landed submission is committed; the others are not, but for the rescued ones. */
  lemma {:induction false} LandedAreCommitted(db: Db, log: seq<Submitted>, agree: set<Key>)
    requires AllAccounted(db, log, agree)
    ensures CountLanded(log) <= CountCommitted(db, log)
    ensures CountLanded(log) == CountCommitted(db, log) <==> forall i :: 0 <= i < |log| ==> !Rescued(log[i], agree)
  {
    if log != [] {
      var n := |log| - 1;
      LandedAreCommitted(db, log[..n], agree);
      assert Accounted(db, log[n], agree);
      if forall i :: 0 <= i < |log[..n]| ==> !Rescued(log[..n][i], agree) {
        forall i | 0 <= i < n ensures !Rescued(log[i], agree) { assert log[..n][i] == log[i]; }
      }
    }
  }

  lemma AccountsStay(db: Db, db': Db, log: seq<Submitted>, agree: set<Key>, keys: set<Key>)
    requires AllAccounted(db, log, agree) && forall i :: 0 <= i < |log| ==> Runs.KeyOf(log[i].item) !in keys
    requires forall k: Key :: k !in keys ==> KeepsFate(db, db', k)
    ensures AllAccounted(db', log, agree)
  {
    forall i | 0 <= i < |log| ensures Accounted(db', log[i], agree) {
      assert Accounted(db, log[i], agree) && KeepsFate(db, db', Runs.KeyOf(log[i].item));
    }
  }

  /** Attempts that did not exist have no account. */
  lemma OldAccountsStay(start: Db, db': Db, log: seq<Submitted>, agree: set<Key>)
    requires AllAccounted(start, log, agree) && forall k: Key :: AttemptAt(start, k).Some? ==> KeepsFate(start, db', k)
    ensures AllAccounted(db', log, agree)
  {
    forall i | 0 <= i < |log| ensures Accounted(db', log[i], agree) {
      assert Accounted(start, log[i], agree) && KeepsFate(start, db', Runs.KeyOf(log[i].item));
    }
  }

  /** Outcomes of the process cleanup and of file checks that a resume will see. */
  datatype Surroundings = Surroundings(agree: set<Key>, boot: nat, cleaned: set<Key>)

  /** The item's lease is there, with its token and not revoked. */
  predicate Holds(db: Db, x: Item) {
    var l := LeaseAt(db, Runs.KeyOf(x));
    l.Some? && l.value.token == x.token && !l.value.revoked
  }

  predicate AllHold(db: Db, wave: seq<Item>, from: nat := 0) {
    forall i :: from <= i < |wave| ==> Holds(db, wave[i])
  }

  /** A call handed out this new item and touched no other lease. */
  ghost predicate Hands(db: Db, db': Db, x: Item) {
    var k := Runs.KeyOf(x);
    && LeaseAt(db, k).None? && Holds(db', x) && SparesOthers(db, db', k)
    && AttemptAt(db, k).None? && Undone(db', k)
  }

  ghost predicate SameAttempts(db: Db, db': Db) {
    forall q: Key :: AttemptAt(db', q) == AttemptAt(db, q) && LeaseAt(db', q) == LeaseAt(db, q)
  }

  lemma UnchangedRows(db: Db, db': Db)
    requires SameRows(db, db')
    ensures SameAttempts(db, db')
  {
    SameHolders(db, db', RemoteGpu);
    forall q: Key ensures AttemptAt(db', q) == AttemptAt(db, q) {
      SameRowsSameAttempts(db, db', q);
    }
  }

  lemma GrantHands(db: Db, db': Db, x: Item, capacities: Capacities, now: Time)
    requires Grants(db, db', x, capacities, now)
    ensures Hands(db, db', x)
  {
    GrantedLeases(db, db', x, capacities, now);
    Runs.GrantedToken(db, db', x, capacities, now);
    GrantedIsNew(db, db', x, capacities, now);
  }

  lemma MoreHold(db: Db, db': Db, wave: seq<Item>, x: Item)
    requires AllHold(db, wave) && Distinct(wave) && Hands(db, db', x)
    ensures AllHold(db', wave + [x]) && Distinct(wave + [x])
  {
    forall i | 0 <= i < |wave| ensures Holds(db', wave[i]) && Runs.KeyOf(wave[i]) != Runs.KeyOf(x) {
      assert Holds(db, wave[i]);
    }
  }

  /** Unless a recovery ran in between, the items of the wave from this one on hold their leases. */
  predicate Kept(db: Db, wave: seq<Item>, from: nat, resumed: bool) {
    !resumed ==> AllHold(db, wave, from)
  }

  /** Submitting one item of a wave leaves the later ones their leases. */
  lemma RestHolds(db: Db, db': Db, wave: seq<Item>, i: nat)
    requires i < |wave| && Distinct(wave) && AllHold(db, wave, i) && SparesOthers(db, db', Runs.KeyOf(wave[i]))
    ensures AllHold(db', wave, i + 1)
  {
    forall j | i + 1 <= j < |wave| ensures Holds(db', wave[j]) {
      assert Holds(db, wave[j]);
    }
  }

  /** The escaping submission leaves every lease alone, and the intent prepared if it recorded it. */
  lemma EscapeLeaves(db: Db, item: Item, now: Time, e: Execution)
    requires WellFormed(db) && Escapes(db, item, now, e)
    ensures LeaseAt(AfterCommit(db, item, now, e), Runs.KeyOf(item)) == LeaseAt(db, Runs.KeyOf(item))
    ensures LeavesIntent(AfterCommit(db, item, now, e), Submitted(item, e, Recorded(db, item, now, e), false))
  {
    CommitMeans(db, item, now, e);
  }

  lemma EscapeKeepsLeases(db: Db, db': Db, wave: seq<Item>, i: nat)
    requires i < |wave| && AllHold(db, wave, i) && SparesOthers(db, db', Runs.KeyOf(wave[i]))
    requires LeaseAt(db', Runs.KeyOf(wave[i])) == LeaseAt(db, Runs.KeyOf(wave[i]))
    ensures AllHold(db', wave, i)
  {
    forall j | i <= j < |wave| ensures Holds(db', wave[j]) {
      assert Holds(db, wave[j]);
    }
  }

  /** What an escape leaves: its intent, if it was recorded, and the leases of its item and of the rest of its
      wave, unless a recovery ran in between. */
  predicate LeftBehind(db: Db, log: seq<Submitted>, rest: seq<Item>, resumed: bool) {
    && LastEscapes(log) && LeavesIntent(db, log[|log| - 1])
    && (!resumed ==> Holds(db, log[|log| - 1].item) && AllHold(db, rest))
  }

  lemma WaveLeftBehind(db: Db, wave: seq<Item>, log: seq<Submitted>, resumed: bool)
    requires LastEscapes(log) && LeavesIntent(db, log[|log| - 1]) && |log| <= |wave| && log[|log| - 1].item == wave[|log| - 1]
    requires Kept(db, wave, |log| - 1, resumed)
    ensures LeftBehind(db, log, wave[|log|..], resumed)
  {
    var rest := wave[|log|..];
    if !resumed {
      assert Holds(db, wave[|log| - 1]);
      forall i | 0 <= i < |rest| ensures Holds(db, rest[i]) {
        assert rest[i] == wave[|log| + i];
      }
    }
  }

  lemma LeftBehindAfter(db: Db, log: seq<Submitted>, more: seq<Submitted>, rest: seq<Item>, resumed: bool)
    requires NoneEscapes(log) && LeftBehind(db, more, rest, resumed)
    ensures LeftBehind(db, log + more, rest, resumed)
  {
  }

  lemma WorkerBudget(db: Db, db': Db, capacities: Capacities, n: nat)
    requires Sound(db, capacities) && ReachesAny(db, db', capacities, n)
    ensures Leads(db, db', capacities, n) && n <= TotalBudget(db) - TotalAttempts(db)
  {
    var keys :| Reaches(db, db', capacities, n, keys);
    ReachesLeads(db, db', capacities, n, keys);
    WithinBudget(db');
  }

  // ---------------------------------------------------------------- one submission and the recovery after a refusal

  /** Whatever intents are recorded on the way. */
  ghost predicate ReachesAny(db: Db, db': Db, capacities: Capacities, n: nat)
    requires WellFormed(db)
  {
    exists keys :: Reaches(db, db', capacities, n, keys)
  }

  lemma AnyTransitive(a: Db, b: Db, c: Db, capacities: Capacities, n: nat, m: nat, total: nat)
    requires WellFormed(a) && ReachesAny(a, b, capacities, n) && WellFormed(b) && ReachesAny(b, c, capacities, m)
    requires total == n + m
    ensures ReachesAny(a, c, capacities, total)
  {
    var keys :| Reaches(a, b, capacities, n, keys);
    var more :| Reaches(b, c, capacities, m, more);
    ReachesTransitive(a, b, c, capacities, n, m, keys, more);
    assert Reaches(a, c, capacities, total, keys + more);
  }

  /** What a submission leaves: a landed one is committed, a recorded one that did not land is the only open intent,
      and otherwise the attempt is as undone as it was. */
  ghost predicate Left(db: Db, x: Submitted) {
    var k := Runs.KeyOf(x.item);
    if x.landed then x.recorded && x.execution.Done? && CommittedWith(db, k, x.execution.artifacts) && NothingOpen(db)
    else if x.recorded then
      x.execution.Done? && OnlyOpen(db, k) && AttemptAt(db, k).value.commit.value.artifacts == x.execution.artifacts
    else Undone(db, k) && NothingOpen(db)
  }

  lemma QuietBut(here: Db, db: Db, k: Key)
    requires NothingOpen(here) && forall q: Key :: q != k && Unsettled(db, q) ==> Unsettled(here, q)
    ensures forall q: Key :: q != k ==> !Unsettled(db, q)
  {
  }

  lemma SuccessLeaves(here: Db, db: Db, item: Item, now: Time, e: Execution)
    requires WellFormed(here) && e.Done? && NothingOpen(here) && Undone(here, Runs.KeyOf(item))
    requires db == AfterCommit(here, item, now, e)
    requires forall q: Key :: q != Runs.KeyOf(item) && Unsettled(db, q) ==> Unsettled(here, q)
    ensures Left(db, Submitted(item, e, Recorded(here, item, now, e), Lands(here, item, now, e)))
  {
    CommitMeans(here, item, now, e);
    QuietBut(here, db, Runs.KeyOf(item));
  }

  lemma SubmissionLeaves(here: Db, db: Db, item: Item, now: Time, e: Execution, capacities: Capacities)
    requires WellFormed(here) && Inv(here) && NothingOpen(here) && Undone(here, Runs.KeyOf(item))
    requires Reaches(here, db, capacities, 0, Records(item, e))
    requires e.Done? ==> db == AfterCommit(here, item, now, e)
    ensures Left(db, Submitted(item, e, Recorded(here, item, now, e), Lands(here, item, now, e)))
  {
    ReachesKeeps(here, db, capacities, 0, Records(item, e));
    if e.Done? {
      SuccessLeaves(here, db, item, now, e);
    } else {
      assert KeepsFate(here, db, Runs.KeyOf(item));
    }
  }

  /** After the recovery, or without one if the submission was not refused, the attempt is accounted for. */
  lemma LeftIsAccounted(left: Db, db: Db, x: Submitted, agree: set<Key>, recovered: bool)
    requires Left(left, x)
    requires if recovered then !x.landed && Settles(left, db, agree) && KeepsFate(left, db, Runs.KeyOf(x.item))
             else db == left && (x.landed || !x.recorded)
    ensures Accounted(db, x, agree) && NothingOpen(db)
  {
  }

  lemma StaysSettled(start: Db, recovered: Db, db: Db, agree: set<Key>)
    requires Settles(start, recovered, agree) && forall k: Key :: KeepsFate(recovered, db, k)
    requires forall k: Key :: Unsettled(db, k) ==> Unsettled(recovered, k)
    ensures Settles(start, db, agree)
  {
    forall k: Key | OnlyOpen(start, k)
      ensures Decided(db, k) && (IsCommitted(AttemptAt(db, k).value) <==> k in agree)
      ensures k in agree ==> CommittedWith(db, k, AttemptAt(start, k).value.commit.value.artifacts)
    {
      assert KeepsFate(recovered, db, k);
    }
  }

  // ---------------------------------------------------------------- a wave, a turn, a run

  /** The wave leased so far: new attempts, each holding its own lease, and all of them undone. */
  ghost predicate Leasing(start: Db, db: Db, capacities: Capacities, wave: seq<Item>)
    requires WellFormed(start)
  {
    && Reaches(start, db, capacities, |wave|, {}) && AllHold(db, wave) && Distinct(wave)
    && AllNew(start, wave) && AllUndone(db, wave)
  }

  lemma LeasingStays(start: Db, here: Db, db: Db, capacities: Capacities, wave: seq<Item>)
    requires WellFormed(start) && Leasing(start, here, capacities, wave)
    requires Reaches(here, db, capacities, 0, {}) && SameAttempts(here, db)
    ensures Leasing(start, db, capacities, wave)
  {
    ReachesWithin(start, here, db, capacities, |wave|, 0, {});
    forall i | 0 <= i < |wave| ensures Holds(db, wave[i]) && Undone(db, Runs.KeyOf(wave[i])) {
      assert Holds(here, wave[i]) && Undone(here, Runs.KeyOf(wave[i]));
    }
  }

  lemma HandedIsNew(start: Db, here: Db, db: Db, capacities: Capacities, wave: seq<Item>, x: Item)
    requires WellFormed(start) && Inv(start) && Reaches(start, here, capacities, |wave|, {}) && Hands(here, db, x)
    requires Reaches(here, db, capacities, 1, {}) && AllNew(start, wave) && AllUndone(here, wave)
    ensures AllNew(start, wave + [x]) && AllUndone(db, wave + [x])
  {
    ReachesKeeps(start, here, capacities, |wave|, {});
    ReachesKeeps(here, db, capacities, 1, {});
    UndoneStay(here, db, wave, 0, {});
  }

  lemma LeasingGrows(start: Db, here: Db, db: Db, capacities: Capacities, wave: seq<Item>, x: Item)
    requires WellFormed(start) && Inv(start) && Leasing(start, here, capacities, wave)
    requires Reaches(here, db, capacities, 1, {}) && Hands(here, db, x)
    ensures Leasing(start, db, capacities, wave + [x])
  {
    HandedIsNew(start, here, db, capacities, wave, x);
    MoreHold(here, db, wave, x);
    ReachesWithin(start, here, db, capacities, |wave|, 1, {});
    assert |wave + [x]| == |wave| + 1;
  }

  /** The wave submitted as far as the log goes. */
  ghost predicate Submitting(start: Db, db: Db, capacities: Capacities, wave: seq<Item>, log: seq<Submitted>, agree: set<Key>)
    requires WellFormed(start)
  {
    && |log| <= |wave| && Reaches(start, db, capacities, 0, KeysOf(wave)) && Inv(db) && NothingOpen(db)
    && (forall j :: 0 <= j < |log| ==> log[j].item == wave[j])
    && AllAccounted(db, log, agree) && AllUndone(db, wave, |log|)
  }

  lemma SubmittedMore(start: Db, here: Db, db: Db, capacities: Capacities, wave: seq<Item>, log: seq<Submitted>, agree: set<Key>)
    requires WellFormed(start) && Submitting(start, here, capacities, wave, log, agree) && |log| < |wave| && Distinct(wave)
    requires Reaches(here, db, capacities, 0, {Runs.KeyOf(wave[|log|])})
    ensures Reaches(start, db, capacities, 0, KeysOf(wave)) && AllAccounted(db, log, agree)
  {
    var keys := {Runs.KeyOf(wave[|log|])};
    ReachesKeeps(here, db, capacities, 0, keys);
    ReachesMore(here, db, capacities, 0, keys, KeysOf(wave));
    ReachesWithin(start, here, db, capacities, 0, 0, KeysOf(wave));
    AccountsStay(here, db, log, agree, keys);
  }

  lemma SubmittedOne(start: Db, here: Db, db: Db, capacities: Capacities, wave: seq<Item>, log: seq<Submitted>, x: Submitted, agree: set<Key>)
    requires WellFormed(start) && Submitting(start, here, capacities, wave, log, agree) && |log| < |wave| && Distinct(wave)
    requires Reaches(here, db, capacities, 0, {Runs.KeyOf(wave[|log|])})
    requires x.item == wave[|log|] && Accounted(db, x, agree) && NothingOpen(db)
    ensures Submitting(start, db, capacities, wave, log + [x], agree)
  {
    var keys := {Runs.KeyOf(wave[|log|])};
    SubmittedMore(start, here, db, capacities, wave, log, agree);
    ReachesKeeps(here, db, capacities, 0, keys);
    UndoneStay(here, db, wave, |log| + 1, keys);
  }

  /** The counters say how many were submitted, and how many of them landed. */
  predicate Tallies(log: seq<Submitted>, before: WorkerReport, report: WorkerReport) {
    && NoneEscapes(log) && report.processed == before.processed + |log| == report.succeeded + report.failed
    && report.succeeded == before.succeeded + CountLanded(log)
  }

  lemma TallyStep(log: seq<Submitted>, x: Submitted, before: WorkerReport, report: WorkerReport)
    requires log != [] && log[|log| - 1] == x && Tallies(log[..|log| - 1], before, report) && NoneEscapes(log)
    ensures Tallies(log, before, Tallied(report, x.landed))
  {
  }

  /** Every submission of the log has been dealt with. */
  ghost predicate DealtWith(db: Db, log: seq<Submitted>, before: WorkerReport, report: WorkerReport, agree: set<Key>) {
    Tallies(log, before, report) && AllAccounted(db, log, agree) && NothingOpen(db)
  }

  /** The last submission of the log escaped; the ones before it have been dealt with. */
  predicate CutShort(db: Db, log: seq<Submitted>, agree: set<Key>) {
    LastEscapes(log) && LeavesIntent(db, log[|log| - 1]) && AllAccounted(db, log[..|log| - 1], agree)
  }

  lemma LastOne(db: Db, log: seq<Submitted>, x: Submitted, agree: set<Key>)
    requires NoneEscapes(log) && EscapesAt(x) && LeavesIntent(db, x) && AllAccounted(db, log, agree)
    ensures CutShort(db, log + [x], agree)
  {
    assert (log + [x])[..|log|] == log;
  }

  /** Attempts that were there before keep their fate. */
  ghost predicate OldFates(start: Db, db: Db) {
    forall k: Key :: AttemptAt(start, k).Some? ==> KeepsFate(start, db, k)
  }

  lemma FatesThrough(start: Db, leased: Db, db: Db, wave: seq<Item>)
    requires AllNew(start, wave) && (forall k: Key :: KeepsFate(start, leased, k))
    requires forall k: Key :: k !in KeysOf(wave) ==> KeepsFate(leased, db, k)
    ensures OldFates(start, db)
  {
    forall k: Key | AttemptAt(start, k).Some? ensures KeepsFate(start, db, k) {
      assert k !in KeysOf(wave);
      assert KeepsFate(start, leased, k) && KeepsFate(leased, db, k);
    }
  }

  lemma WaveSubmitted(start: Db, leased: Db, db: Db, capacities: Capacities, wave: seq<Item>)
    requires WellFormed(start) && Inv(start) && Leasing(start, leased, capacities, wave)
    requires Reaches(leased, db, capacities, 0, KeysOf(wave))
    ensures ReachesAny(start, db, capacities, |wave|) && Inv(db) && OldFates(start, db)
  {
    ReachesKeeps(start, leased, capacities, |wave|, {});
    ReachesKeeps(leased, db, capacities, 0, KeysOf(wave));
    FatesThrough(start, leased, db, wave);
    assert Reaches(start, leased, capacities, |wave|, {});
    AnyTransitive(start, leased, db, capacities, |wave|, 0, |wave|);
  }

  lemma CutShortAfter(db: Db, done: seq<Submitted>, more: seq<Submitted>, agree: set<Key>)
    requires NoneEscapes(done) && AllAccounted(db, done, agree) && CutShort(db, more, agree)
    ensures CutShort(db, done + more, agree)
  {
    assert (done + more)[..|done + more| - 1] == done + more[..|more| - 1];
  }

  lemma {:induction false} CountJoined(log: seq<Submitted>, more: seq<Submitted>)
    ensures CountLanded(log + more) == CountLanded(log) + CountLanded(more)
    decreases |more|
  {
    if more == [] {
      assert log + more == log;
    } else {
      CountJoined(log, more[..|more| - 1]);
      assert (log + more)[..|log + more| - 1] == log + more[..|more| - 1];
    }
  }

  const NO_REPORT := WorkerReport(0, 0, 0)

  lemma DealtWithAfter(db: Db, done: seq<Submitted>, more: seq<Submitted>, before: WorkerReport, report: WorkerReport, agree: set<Key>)
    requires Tallies(done, NO_REPORT, before) && AllAccounted(db, done, agree) && DealtWith(db, more, before, report, agree)
    ensures DealtWith(db, done + more, NO_REPORT, report, agree)
  {
    CountJoined(done, more);
  }

  /** The loop between two turns. */
  ghost predicate Working(start: Db, db: Db, capacities: Capacities, leased: nat, log: seq<Submitted>, report: WorkerReport,
                          agree: set<Key>, results: seq<Execution>)
    requires WellFormed(start)
  {
    && WellFormed(db) && Inv(db) && ReachesAny(start, db, capacities, leased) && leased == |log|
    && DealtWith(db, log, NO_REPORT, report, agree) && OwnResults(log, results)
  }

  lemma IdleTurn(start: Db, idle: Db, db: Db, capacities: Capacities, leased: nat, log: seq<Submitted>, report: WorkerReport,
                 agree: set<Key>, results: seq<Execution>)
    requires WellFormed(start) && Working(start, idle, capacities, leased, log, report, agree, results) && Reaches(idle, db, capacities, 0, {})
    ensures Working(start, db, capacities, leased, log, report, agree, results)
  {
    ReachesKeeps(idle, db, capacities, 0, {});
    AnyTransitive(start, idle, db, capacities, leased, 0, leased);
    AccountsStay(idle, db, log, agree, {});
  }

  class BatchWorker {
    const controller: BatchController
    const capacities: Capacities
    const stages: Option<seq<nat>>
    const maxParallel: nat
    const maxIdlePolls: nat

    constructor (c: BatchController, limits: Capacities, names: Option<seq<nat>>, parallel: nat, idle: nat)
      requires parallel > 0 && idle > 0
      ensures controller == c && capacities == limits && stages == names && maxParallel == parallel && maxIdlePolls == idle
    {
      controller, capacities, stages, maxParallel, maxIdlePolls := c, limits, names, parallel, idle;
    }

    /** Recover what has expired and refresh. */
    method Resume(now: Time, env: Surroundings)
      requires WellFormed(controller.Tables()) && Inv(controller.Tables())
      modifies controller
      ensures Reaches(old(controller.Tables()), controller.Tables(), capacities, 0, {})
      ensures Inv(controller.Tables()) && Settles(old(controller.Tables()), controller.Tables(), env.agree)
    {
      ghost var start := controller.Tables();
      RecoverLeases(now, env);
      ghost var recovered := controller.Tables();
      RefreshTables();
      ReachesWithin(start, recovered, controller.Tables(), capacities, 0, 0, {});
      ReachesKeeps(start, recovered, capacities, 0, {});
      ReachesKeeps(recovered, controller.Tables(), capacities, 0, {});
      StaysSettled(start, recovered, controller.Tables(), env.agree);
    }

    method RecoverLeases(now: Time, env: Surroundings)
      requires WellFormed(controller.Tables()) && Inv(controller.Tables())
      modifies controller
      ensures Reaches(old(controller.Tables()), controller.Tables(), capacities, 0, {})
      ensures Settles(old(controller.Tables()), controller.Tables(), env.agree)
    {
      ghost var start := controller.Tables();
      ghost var rows, expired;
      rows, expired := controller.RecoverExpired(env.agree, now, env.boot, env.cleaned, map[], map[]);
      RecoverySettles(start, Op.RecoverExpired(rows, env.agree, now, env.boot, expired));
      StepReaches(start, Op.RecoverExpired(rows, env.agree, now, env.boot, expired), capacities, {});
    }

    method RefreshTables()
      requires WellFormed(controller.Tables())
      modifies controller
      ensures Reaches(old(controller.Tables()), controller.Tables(), capacities, 0, {})
    {
      ghost var start := controller.Tables();
      controller.Refresh();
      StepReaches(start, Op.Refresh, capacities, {});
    }

    /** One lease, restricted to the worker's stages in their order. */
    method LeaseNext(now: Time) returns (item: Option<Item>)
      requires WellFormed(controller.Tables())
      modifies controller
      ensures Reaches(old(controller.Tables()), controller.Tables(), capacities, if item.Some? then 1 else 0, {})
      ensures item.Some? ==> Hands(old(controller.Tables()), controller.Tables(), item.value)
      ensures item.None? ==> SameAttempts(old(controller.Tables()), controller.Tables())
    {
      if stages.None? {
        item := LeaseHeld(now, UNFILTERED);
        return;
      }
      ghost var start := controller.Tables();
      item := None;
      StaysReaches(start, capacities, {});
      var i := 0;
      while i < |stages.value| && item.None?
        invariant Reaches(start, controller.Tables(), capacities, if item.Some? then 1 else 0, {})
        invariant item.Some? ==> Hands(start, controller.Tables(), item.value)
        invariant item.None? ==> SameAttempts(start, controller.Tables())
        decreases |stages.value| - i
      {
        ghost var here := controller.Tables();
        item := LeaseHeld(now, Filter(None, None, Some(stages.value[i])));
        ReachesWithin(start, here, controller.Tables(), capacities, 0, if item.Some? then 1 else 0, {});
        i := i + 1;
      }
    }

    method LeaseHeld(now: Time, f: Filter) returns (item: Option<Item>)
      requires WellFormed(controller.Tables())
      modifies controller
      ensures Reaches(old(controller.Tables()), controller.Tables(), capacities, if item.Some? then 1 else 0, {})
      ensures item.Some? ==> Hands(old(controller.Tables()), controller.Tables(), item.value)
      ensures item.None? ==> SameAttempts(old(controller.Tables()), controller.Tables())
    {
      ghost var start := controller.Tables();
      item := LeaseOne(controller, now, capacities, f);
      if item.Some? {
        GrantHands(start, controller.Tables(), item.value, capacities, now);
      } else {
        UnchangedRows(start, controller.Tables());
      }
    }

    /** Lease up to `size` items. */
    method LeaseWave(now: Time, size: nat) returns (wave: seq<Item>)
      requires WellFormed(controller.Tables()) && Inv(controller.Tables())
      modifies controller
      ensures Leasing(old(controller.Tables()), controller.Tables(), capacities, wave) && |wave| <= size
    {
      ghost var start := controller.Tables();
      StaysReaches(start, capacities, {});
      wave := [];
      var more := true;
      while |wave| < size && more
        invariant Leasing(start, controller.Tables(), capacities, wave) && |wave| <= size
        decreases size - |wave|, more
      {
        ghost var here := controller.Tables();
        var item := LeaseNext(now);
        if item.None? {
          LeasingStays(start, here, controller.Tables(), capacities, wave);
          more := false;
        } else {
          LeasingGrows(start, here, controller.Tables(), capacities, wave, item.value);
          wave := wave + [item.value];
        }
      }
    }

    /** One submission of a wave; a refused one is followed by a recovery, which may expire the others. */
    method SubmitOne(wave: seq<Item>, i: nat, now: Time, e: Execution, env: Surroundings, ghost before: bool)
      returns (r: Submission, ghost x: Submitted, ghost resumed: bool)
      requires WellFormed(controller.Tables()) && Inv(controller.Tables()) && NothingOpen(controller.Tables())
      requires i < |wave| && Distinct(wave) && Kept(controller.Tables(), wave, i, before) && Undone(controller.Tables(), Runs.KeyOf(wave[i]))
      modifies controller
      ensures Reaches(old(controller.Tables()), controller.Tables(), capacities, 0, {Runs.KeyOf(wave[i])})
      ensures x == Submitted(wave[i], e, Recorded(old(controller.Tables()), wave[i], now, e), Lands(old(controller.Tables()), wave[i], now, e))
      ensures r.Escaped? <==> EscapesAt(x)
      ensures r.Stored? && e.Done? <==> x.landed
      ensures r.Escaped? ==> LeavesIntent(controller.Tables(), x)
      ensures !r.Escaped? ==> Accounted(controller.Tables(), x, env.agree) && NothingOpen(controller.Tables())
      ensures resumed <==> before || r.Refused?
      ensures Kept(controller.Tables(), wave, if r.Escaped? then i else i + 1, resumed)
    {
      ghost var here := controller.Tables();
      ghost var key := Runs.KeyOf(wave[i]);
      x := Submitted(wave[i], e, Recorded(here, wave[i], now, e), Lands(here, wave[i], now, e));
      r := Submit(controller, wave[i], now, e, capacities);
      ghost var left := controller.Tables();
      SubmissionLeaves(here, left, wave[i], now, e, capacities);
      ReachesKeeps(here, left, capacities, 0, Records(wave[i], e));
      ReachesMore(here, left, capacities, 0, Records(wave[i], e), {key});
      resumed := before || r.Refused?;
      if r.Refused? {
        Resume(now, env);
        ReachesKeeps(left, controller.Tables(), capacities, 0, {});
        LeftIsAccounted(left, controller.Tables(), x, env.agree, true);
        ReachesMore(left, controller.Tables(), capacities, 0, {}, {key});
        ReachesWithin(here, left, controller.Tables(), capacities, 0, 0, {key});
      } else if r.Escaped? {
        EscapeLeaves(here, wave[i], now, e);
        if !before { EscapeKeepsLeases(here, left, wave, i); }
      } else {
        LeftIsAccounted(left, left, x, env.agree, false);
        if !before { RestHolds(here, left, wave, i); }
      }
    }

    /** One more submission of a wave after those that the log records. */
    method SubmitNext(wave: seq<Item>, i: nat, now: Time, e: Execution, env: Surroundings, ghost start: Db, ghost log: seq<Submitted>, ghost before: bool)
      returns (r: Submission, ghost x: Submitted, ghost resumed: bool)
      requires WellFormed(start) && i == |log| < |wave| && Distinct(wave)
      requires Submitting(start, controller.Tables(), capacities, wave, log, env.agree) && Kept(controller.Tables(), wave, i, before)
      modifies controller
      ensures x.item == wave[i] && x.execution == e
      ensures r.Escaped? <==> EscapesAt(x)
      ensures r.Stored? && e.Done? <==> x.landed
      ensures Kept(controller.Tables(), wave, if r.Escaped? then i else i + 1, resumed)
      ensures Reaches(start, controller.Tables(), capacities, 0, KeysOf(wave)) && AllAccounted(controller.Tables(), log, env.agree)
      ensures r.Escaped? ==> LeavesIntent(controller.Tables(), x)
      ensures !r.Escaped? ==> Submitting(start, controller.Tables(), capacities, wave, log + [x], env.agree)
    {
      ghost var here := controller.Tables();
      assert Undone(here, Runs.KeyOf(wave[i]));
      r, x, resumed := SubmitOne(wave, i, now, e, env, before);
      SubmittedMore(start, here, controller.Tables(), capacities, wave, log, env.agree);
      if !r.Escaped? { SubmittedOne(start, here, controller.Tables(), capacities, wave, log, x, env.agree); }
    }

    /** Submits item `i` of a wave with its result and counts it. */
    method SubmitCounted(wave: seq<Item>, i: nat, now: Time, results: seq<Execution>, env: Surroundings, before: WorkerReport,
                         counted: WorkerReport, ghost start: Db, ghost done: seq<Submitted>, ghost earlier: bool)
      returns (report: WorkerReport, escaped: bool, ghost log: seq<Submitted>, ghost resumed: bool)
      requires WellFormed(start) && i == |done| < |wave| && Distinct(wave) && before.processed + |wave| <= |results|
      requires Submitting(start, controller.Tables(), capacities, wave, done, env.agree) && Kept(controller.Tables(), wave, i, earlier)
      requires Logged(done, wave, results, before.processed) && Tallies(done, before, counted)
      modifies controller
      ensures |log| == i + 1 && Logged(log, wave, results, before.processed)
      ensures Reaches(start, controller.Tables(), capacities, 0, KeysOf(wave))
      ensures Kept(controller.Tables(), wave, if escaped then i else i + 1, resumed)
      ensures escaped ==> CutShort(controller.Tables(), log, env.agree)
      ensures !escaped ==> Submitting(start, controller.Tables(), capacities, wave, log, env.agree) && Tallies(log, before, report)
    {
      var e := results[before.processed + i];
      var r;
      ghost var x;
      r, x, resumed := SubmitNext(wave, i, now, e, env, start, done, earlier);
      LogStep(done, x, wave, results, before.processed);
      log := done + [x];
      escaped := r.Escaped?;
      report := counted;
      if escaped {
        LastOne(controller.Tables(), done, x, env.agree);
      } else {
        TallyStep(log, x, before, report);
        report := Tallied(report, r.Stored? && e.Done?);
      }
    }

    /** Submits a wave in order until one escapes. */
    method SubmitWave(wave: seq<Item>, now: Time, results: seq<Execution>, env: Surroundings, before: WorkerReport)
      returns (report: WorkerReport, escaped: bool, ghost log: seq<Submitted>, ghost resumed: bool)
      requires WellFormed(controller.Tables()) && Inv(controller.Tables()) && NothingOpen(controller.Tables())
      requires Kept(controller.Tables(), wave, 0, false) && Distinct(wave) && AllUndone(controller.Tables(), wave)
      requires before.processed == before.succeeded + before.failed && before.processed + |wave| <= |results|
      modifies controller
      ensures Reaches(old(controller.Tables()), controller.Tables(), capacities, 0, KeysOf(wave))
      ensures Logged(log, wave, results, before.processed)
      ensures !escaped ==> DealtWith(controller.Tables(), log, before, report, env.agree) && |log| == |wave|
      ensures escaped ==> CutShort(controller.Tables(), log, env.agree) && Kept(controller.Tables(), wave, |log| - 1, resumed)
    {
      ghost var start := controller.Tables();
      StaysReaches(start, capacities, KeysOf(wave));
      report, escaped, log, resumed := before, false, [], false;
      for i := 0 to |wave|
        invariant !escaped && |log| == i && Logged(log, wave, results, before.processed)
        invariant Submitting(start, controller.Tables(), capacities, wave, log, env.agree)
        invariant Tallies(log, before, report)
        invariant Kept(controller.Tables(), wave, i, resumed)
      {
        report, escaped, log, resumed := SubmitCounted(wave, i, now, results, env, before, report, start, log, resumed);
        if escaped { return; }
      }
    }

    /** Leases a wave and submits it. */
    method RunWave(now: Time, size: nat, results: seq<Execution>, env: Surroundings, before: WorkerReport)
      returns (report: WorkerReport, escaped: bool, ghost log: seq<Submitted>, ghost rest: seq<Item>, ghost resumed: bool, ghost leased: nat)
      requires WellFormed(controller.Tables()) && Inv(controller.Tables()) && NothingOpen(controller.Tables())
      requires before.processed == before.succeeded + before.failed && before.processed + size <= |results|
      modifies controller
      ensures ReachesAny(old(controller.Tables()), controller.Tables(), capacities, leased) && leased == |log| + |rest| <= size
      ensures WellFormed(controller.Tables()) && Inv(controller.Tables()) && OldFates(old(controller.Tables()), controller.Tables())
      ensures OwnResults(log, results, before.processed)
      ensures !escaped ==> DealtWith(controller.Tables(), log, before, report, env.agree) && rest == []
      ensures escaped ==> CutShort(controller.Tables(), log, env.agree) && LeftBehind(controller.Tables(), log, rest, resumed)
    {
      ghost var start := controller.Tables();
      var wave := LeaseWave(now, size);
      ghost var filled := controller.Tables();
      leased := |wave|;
      ReachesKeeps(start, filled, capacities, |wave|, {});
      report, escaped, log, resumed := SubmitWave(wave, now, results, env, before);
      WaveSubmitted(start, filled, controller.Tables(), capacities, wave);
      rest := if escaped then wave[|log|..] else [];
      if escaped { WaveLeftBehind(controller.Tables(), wave, log, resumed); }
    }

    /** One turn of the loop: a wave, accounted for together with what came before. */
    method RunTurn(now: Time, size: nat, results: seq<Execution>, env: Surroundings, before: WorkerReport,
                   ghost start: Db, ghost done: seq<Submitted>, ghost sofar: nat)
      returns (report: WorkerReport, escaped: bool, ghost log: seq<Submitted>, ghost rest: seq<Item>, ghost resumed: bool, ghost leased: nat)
      requires WellFormed(start) && Working(start, controller.Tables(), capacities, sofar, done, before, env.agree, results)
      requires before.processed + size <= |results|
      modifies controller
      ensures leased == |log| + |rest| <= |done| + size && |log| >= |done|
      ensures WellFormed(controller.Tables()) && ReachesAny(start, controller.Tables(), capacities, leased)
      ensures !escaped ==> Working(start, controller.Tables(), capacities, leased, log, report, env.agree, results) && rest == []
      ensures escaped ==> OwnResults(log, results) && CutShort(controller.Tables(), log, env.agree)
      ensures escaped ==> LeftBehind(controller.Tables(), log, rest, resumed)
    {
      ghost var here := controller.Tables();
      ghost var more, taken;
      report, escaped, more, rest, resumed, taken := RunWave(now, size, results, env, before);
      leased := sofar + taken;
      AnyTransitive(start, here, controller.Tables(), capacities, sofar, taken, leased);
      OldAccountsStay(here, controller.Tables(), done, env.agree);
      LogsJoin(done, more, results);
      if escaped {
        LeftBehindAfter(controller.Tables(), done, more, rest, resumed);
        CutShortAfter(controller.Tables(), done, more, env.agree);
      } else {
        DealtWithAfter(controller.Tables(), done, more, before, report, env.agree);
      }
      log := done + more;
    }

    /** The lease, execute, submit loop of a running batch. */
    method RunLoop(clock: nat -> Time, results: seq<Execution>, env: Surroundings, limit: nat, once: bool)
      returns (report: WorkerReport, escaped: bool, ghost log: seq<Submitted>, ghost rest: seq<Item>, ghost resumed: bool, ghost leased: nat)
      requires WellFormed(controller.Tables()) && Inv(controller.Tables()) && NothingOpen(controller.Tables())
      requires maxParallel > 0 && maxIdlePolls > 0 && |results| >= limit
      modifies controller
      ensures WellFormed(controller.Tables()) && leased == |log| + |rest| <= limit
      ensures ReachesAny(old(controller.Tables()), controller.Tables(), capacities, leased)
      ensures !escaped ==> Working(old(controller.Tables()), controller.Tables(), capacities, leased, log, report, env.agree, results)
      ensures !escaped ==> rest == []
      ensures escaped ==> OwnResults(log, results) && CutShort(controller.Tables(), log, env.agree)
      ensures escaped ==> LeftBehind(controller.Tables(), log, rest, resumed)
    {
      ghost var start := controller.Tables();
      StaysReaches(start, capacities, {});
      log, rest, resumed, leased := [], [], false, 0;
      report, escaped := WorkerReport(0, 0, 0), false;
      var idlePolls, turn := 0, 1;
      while report.processed < limit
        invariant !escaped && Working(start, controller.Tables(), capacities, leased, log, report, env.agree, results)
        invariant |log| <= limit && idlePolls <= maxIdlePolls && rest == []
        decreases limit - report.processed, maxIdlePolls - idlePolls
      {
        var now := clock(turn);
        turn := turn + 1;
        var size := if maxParallel < limit - report.processed then maxParallel else limit - report.processed;
        var done := report.processed;
        report, escaped, log, rest, resumed, leased := RunTurn(now, size, results, env, report, start, log, leased);
        if escaped { return; }
        if report.processed == done {
          idlePolls := idlePolls + 1;
          if once || idlePolls >= maxIdlePolls { break; }
          ghost var idle := controller.Tables();
          RefreshTables();
          IdleTurn(start, idle, controller.Tables(), capacities, leased, log, report, env.agree, results);
        } else {
          idlePolls := 0;
        }
      }
    }

    /** A run of the worker. It returns a report exactly if no submission escapes its handler: an empty
        success, a staged file that does not check out, or, once the intent is recorded, files that cannot be
        published. A report accounts for every leased item exactly once, after at most `maxSteps` of them and
        within the budgets. What it counts as succeeded are the submissions that landed, all of them committed at the
        end; these are exactly the committed ones if and only if no refused submission was rescued by a recovery. An
        escape leaves a recorded intent prepared; its item and the items of its wave that were not submitted stay
        leased, unless a recovery in the same wave has expired them. */
    method Run(clock: nat -> Time, results: seq<Execution>, env: Surroundings, maxSteps: nat, once: bool)
      returns (end: WorkerEnd, ghost log: seq<Submitted>, ghost rest: seq<Item>, ghost resumed: bool)
      requires Sound(controller.Tables(), capacities) && maxSteps > 0 && maxParallel > 0 && maxIdlePolls > 0
      requires |results| >= maxSteps
      modifies controller
      ensures end.NotRunning? <==> !old(controller.status).BatchRunning?
      ensures end.NotRunning? ==> controller.Tables() == old(controller.Tables()) && log == []
      ensures end.Finished? <==> old(controller.status).BatchRunning? && NoneEscapes(log)
      ensures end.Finished? ==> end.report.processed == end.report.succeeded + end.report.failed == |log| && rest == []
      ensures end.Finished? ==> AllAccounted(controller.Tables(), log, env.agree)
      ensures end.Finished? ==> end.report.succeeded == CountLanded(log) <= CountCommitted(controller.Tables(), log)
      ensures end.Finished? ==> (end.report.succeeded == CountCommitted(controller.Tables(), log)
                                 <==> forall i :: 0 <= i < |log| ==> !Rescued(log[i], env.agree))
      ensures end.Interrupted? ==> LeftBehind(controller.Tables(), log, rest, resumed)
      ensures OwnResults(log, results)
      ensures |log| + |rest| <= (if once then 1 else maxSteps)
      ensures Leads(old(controller.Tables()), controller.Tables(), capacities, |log| + |rest|)
      ensures |log| + |rest| <= TotalBudget(old(controller.Tables())) - TotalAttempts(old(controller.Tables()))
    {
      if controller.status != BatchRunning {
        StaysReaches(controller.Tables(), capacities, {});
        WorkerBudget(controller.Tables(), controller.Tables(), capacities, 0);
        return NotRunning, [], [], false;
      }
      var report, escaped;
      report, escaped, log, rest, resumed := Work(clock, results, env, maxSteps, once);
      end := if escaped then Interrupted else Finished(report);
    }

    /** Resumes a running batch and works on it. */
    method Work(clock: nat -> Time, results: seq<Execution>, env: Surroundings, maxSteps: nat, once: bool)
      returns (report: WorkerReport, escaped: bool, ghost log: seq<Submitted>, ghost rest: seq<Item>, ghost resumed: bool)
      requires Sound(controller.Tables(), capacities) && maxSteps > 0 && maxParallel > 0 && maxIdlePolls > 0
      requires |results| >= maxSteps && controller.Tables().status.BatchRunning?
      modifies controller
      ensures escaped <==> !NoneEscapes(log)
      ensures !escaped ==> report.processed == report.succeeded + report.failed == |log| && rest == []
      ensures !escaped ==> AllAccounted(controller.Tables(), log, env.agree)
      ensures !escaped ==> report.succeeded == CountLanded(log) <= CountCommitted(controller.Tables(), log)
      ensures !escaped ==> (report.succeeded == CountCommitted(controller.Tables(), log)
                            <==> forall i :: 0 <= i < |log| ==> !Rescued(log[i], env.agree))
      ensures escaped ==> LeftBehind(controller.Tables(), log, rest, resumed)
      ensures OwnResults(log, results)
      ensures |log| + |rest| <= (if once then 1 else maxSteps)
      ensures Leads(old(controller.Tables()), controller.Tables(), capacities, |log| + |rest|)
      ensures |log| + |rest| <= TotalBudget(old(controller.Tables())) - TotalAttempts(old(controller.Tables()))
    {
      ghost var start := controller.Tables();
      Resume(clock(0), env);
      ghost var recovered := controller.Tables();
      ghost var leased;
      report, escaped, log, rest, resumed, leased := RunLoop(clock, results, env, if once then 1 else maxSteps, once);
      AnyTransitive(start, recovered, controller.Tables(), capacities, 0, leased, leased);
      WorkerBudget(start, controller.Tables(), capacities, leased);
      if !escaped { LandedAreCommitted(controller.Tables(), log, env.agree); }
    }
  }
}
