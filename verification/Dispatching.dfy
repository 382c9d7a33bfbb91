/** What a call of lease_next hands out: when a stage's resources can be had, what the new rows hold, and in
    which order the stages are served. */
module Dispatching {
  import opened Tables
  import opened Transitions
  import opened Batch
  import opened Protocol
  import opened RunInvariant
  import opened Evolution
  import opened Fairness
  import opened Resources

  // ---------------------------------------------------------------- allocation

  /** Some lease row, revoked or not, names it. */
  ghost predicate Named(db: Db, r: Resource, name: nat) {
    exists k: Key :: LeaseAt(db, k).Some? && r in LeaseAt(db, k).value.resources && LeaseAt(db, k).value.resources[r] == name
  }

  lemma TakenIsNamed(db: Db, r: Resource, name: nat)
    ensures LabelTaken(db, r, name) <==> Named(db, r, name)
  {
    if Named(db, r, name) {
      var k: Key :| LeaseAt(db, k).Some? && r in LeaseAt(db, k).value.resources && LeaseAt(db, k).value.resources[r] == name;
      InHolders(db, k, r);
    }
  }

  /** Position `i` of the pool is open to the capacity and named by no lease. */
  ghost predicate OpenGpu(db: Db, capacities: Capacities, i: int) {
    0 <= i < |db.pool| && i < CapacityOf(capacities, RemoteGpu) && !Named(db, RemoteGpu, db.pool[i])
  }

  lemma {:induction false} FirstFreeGpu(db: Db, pool: seq<nat>)
    ensures match FreeGpu(db, pool)
            case None => forall i :: 0 <= i < |pool| ==> Named(db, RemoteGpu, pool[i])
            case Some(g) => exists i :: 0 <= i < |pool| && pool[i] == g && !Named(db, RemoteGpu, g)
                                        && forall j :: 0 <= j < i ==> Named(db, RemoteGpu, pool[j])
  {
    if pool != [] {
      TakenIsNamed(db, RemoteGpu, pool[0]);
      FirstFreeGpu(db, pool[1..]);
      if !Named(db, RemoteGpu, pool[0]) {
        assert pool[0] == FreeGpu(db, pool).value;
      } else if FreeGpu(db, pool).Some? {
        var i :| 0 <= i < |pool[1..]| && pool[1..][i] == FreeGpu(db, pool).value && !Named(db, RemoteGpu, pool[1..][i])
                 && forall j :: 0 <= j < i ==> Named(db, RemoteGpu, pool[1..][j]);
        assert forall j :: 0 < j < i + 1 ==> pool[j] == pool[1..][j - 1];
        assert pool[i + 1] == FreeGpu(db, pool).value;
      } else {
        assert forall j :: 0 < j < |pool| ==> pool[j] == pool[1..][j - 1];
      }
    }
  }

  ghost predicate SlotFree(db: Db, r: Resource, capacities: Capacities) {
    |Holders(db, r)| < CapacityOf(capacities, r)
  }

  /** What a stage of this position needs is there: the remote stages but the pose and the bundle need a GPU of the
      opened pool that no lease names, the Unity stages a slot and their project unlocked, the rest a slot. */
  ghost predicate CanHave(db: Db, project: nat, s: nat, capacities: Capacities) {
    && (s in GPU_STAGES ==> exists i :: OpenGpu(db, capacities, i))
    && (s in UNITY_STAGES ==> SlotFree(db, UnityGpu, capacities) && !Named(db, ProjectLock, project))
    && (s == 1 ==> SlotFree(db, ImageApi, capacities))
    && (s == 3 || s == 11 ==> SlotFree(db, SshIo, capacities))
    && (s == 8 ==> SlotFree(db, RemoteCpu, capacities))
    && (s == 10 ==> SlotFree(db, RemoteIo, capacities))
    && (s == 14 ==> SlotFree(db, EvaluationApi, capacities))
  }

  lemma AllocatesOne(db: Db, project: nat, r: Resource, capacities: Capacities)
    ensures var one := AllocateOne(db, project, r, capacities);
            match r
            case ProjectLock => one == if Named(db, ProjectLock, project) then None else Some(project)
            case RemoteGpu =>
              && (one.Some? <==> exists i :: OpenGpu(db, capacities, i))
              && (one.Some? ==> exists i :: OpenGpu(db, capacities, i) && db.pool[i] == one.value
                                            && forall j :: 0 <= j < i ==> !OpenGpu(db, capacities, j))
            case _ => one.Some? <==> SlotFree(db, r, capacities)
  {
    if r.ProjectLock? {
      TakenIsNamed(db, r, project);
    } else if r.RemoteGpu? && CapacityOf(capacities, r) > 0 {
      var pool := PoolPrefix(db, CapacityOf(capacities, r));
      FirstFreeGpu(db, pool);
      forall i | 0 <= i < |pool| ensures pool[i] == db.pool[i] && (OpenGpu(db, capacities, i) <==> !Named(db, r, pool[i])) {}
      forall i | OpenGpu(db, capacities, i) ensures i < |pool| {}
      if FreeGpu(db, pool).Some? {
        var i :| 0 <= i < |pool| && pool[i] == FreeGpu(db, pool).value && !Named(db, r, pool[i])
                 && forall j :: 0 <= j < i ==> Named(db, r, pool[j]);
        assert OpenGpu(db, capacities, i);
        forall j | 0 <= j < i ensures !OpenGpu(db, capacities, j) {
          assert Named(db, r, pool[j]);
        }
      }
    }
  }

  lemma OneResource(db: Db, project: nat, a: Resource, capacities: Capacities)
    ensures Allocate(db, project, [a], capacities).Some? <==> AllocateOne(db, project, a, capacities).Some?
  {
    assert [a][1..] == [];
    assert Allocate(db, project, [], capacities) == Some(map[]);
  }

  lemma TwoResources(db: Db, project: nat, a: Resource, b: Resource, capacities: Capacities)
    ensures Allocate(db, project, [a, b], capacities).Some?
            <==> AllocateOne(db, project, a, capacities).Some? && AllocateOne(db, project, b, capacities).Some?
  {
    assert [a, b][1..] == [b];
    OneResource(db, project, b, capacities);
  }

  /** A stage gets its resources exactly if they are there. */
  lemma AllocatedExactlyIf(db: Db, project: nat, s: nat, capacities: Capacities)
    requires s < STAGE_COUNT
    ensures Allocate(db, project, StageResources(s), capacities).Some? <==> CanHave(db, project, s, capacities)
  {
    var needs := StageResources(s);
    forall r | r in needs ensures AllocatedOne(db, project, r, capacities) {
      AllocatesOne(db, project, r, capacities);
    }
    if |needs| == 1 {
      OneResource(db, project, needs[0], capacities);
      assert AllocatedOne(db, project, needs[0], capacities);
    } else if |needs| == 2 {
      TwoResources(db, project, needs[0], needs[1], capacities);
      assert AllocatedOne(db, project, needs[0], capacities) && AllocatedOne(db, project, needs[1], capacities);
    }
  }

  ghost predicate AllocatedOne(db: Db, project: nat, r: Resource, capacities: Capacities) {
    AllocateOne(db, project, r, capacities).Some?
    <==> match r
         case ProjectLock => !Named(db, ProjectLock, project)
         case RemoteGpu => exists i :: OpenGpu(db, capacities, i)
         case _ => SlotFree(db, r, capacities)
  }

  // ---------------------------------------------------------------- the row that is served

  /** The scan ended by leasing this row. */
  ghost predicate Served(db: Db, r: Dispatch, row: Row, now: Time, capacities: Capacities)
    requires WellFormed(db)
  {
    && row.task < |db.tasks| && row.stage < STAGE_COUNT && |r.db.tasks| == |db.tasks|
    && var resources := Allocate(db, db.tasks[row.task].project, StageResources(row.stage), capacities);
       && resources.Some?
       && var try := TryLease(db.tasks[row.task], row.stage, now, FreshLease(db, now, resources.value), db.automatic);
          try.Granted? && r.item == Some(Item(row.task, row.stage, try.attempt, db.nextToken)) && r.db.tasks[row.task] == try.task
  }

  predicate OneRowEach(rows: seq<Row>) {
    forall i, j :: 0 <= i < j < |rows| ==> rows[i].task != rows[j].task
  }

  lemma {:induction false} ScanServes(origin: Db, db: Db, rows: seq<Row>, now: Time, capacities: Capacities) returns (i: nat)
    requires WellFormed(origin) && WellFormed(db) && RowsInRange(db, rows) && SameRows(origin, db) && OneRowEach(rows)
    requires forall j :: 0 <= j < |rows| ==> db.tasks[rows[j].task] == origin.tasks[rows[j].task]
    requires Scan(db, rows, now, capacities).item.Some?
    ensures i < |rows| && Served(origin, Scan(db, rows, now, capacities), rows[i], now, capacities)
    decreases |rows|
  {
    var t, s := rows[0].task, rows[0].stage;
    SameAllocation(origin, db, db.tasks[t].project, StageResources(s), capacities);
    var resources := Allocate(db, db.tasks[t].project, StageResources(s), capacities);
    if resources.None? {
      i := ScanServes(origin, db, rows[1..], now, capacities);
      i := i + 1;
    } else {
      assert FreshLease(db, now, resources.value) == FreshLease(origin, now, resources.value);
      var try := TryLease(db.tasks[t], s, now, FreshLease(db, now, resources.value), db.automatic);
      if try.Skipped? {
        SkippedKeepsRows(origin, db, rows[0], now, resources.value);
        i := ScanServes(origin, WithTask(db, t, try.task), rows[1..], now, capacities);
        i := i + 1;
      } else {
        i := 0;
      }
    }
  }

  lemma QueueHasOneRowEach(db: Db, now: Time, f: Filter, queue: seq<Row>)
    requires WellFormed(db) && Inv(db) && IsQueue(db, now, f, queue)
    ensures OneRowEach(queue) && RowsInRange(db, queue)
  {
    forall i, j | 0 <= i < j < |queue| ensures queue[i].task != queue[j].task {
      OneRowPerTask(db, now, f, queue, i, j);
    }
    forall i | 0 <= i < |queue| ensures queue[i].task < |db.tasks| && queue[i].stage < STAGE_COUNT {
      assert Eligible(db, now, f, queue[i]);
    }
  }

  lemma CallServes(db: Db, op: Op) returns (i: nat)
    requires WellFormed(db) && Inv(db) && ItemOf(db, op).Some?
    ensures i < |op.queue| && Served(RefreshAll(db), Dispatched(db, op.now, op.capacities, op.queue), op.queue[i], op.now, op.capacities)
  {
    RefreshAllInv(db);
    QueueHasOneRowEach(RefreshAll(db), op.now, op.filter, op.queue);
    i := ScanServes(RefreshAll(db), RefreshAll(db), op.queue, op.now, op.capacities);
  }

  /** A stage is only handed out of a running batch, if it is due, and ready or, for the image stage, already
      worked on; the filter is kept; and its resources were there. */
  lemma HandedOutIsDue(db: Db, op: Op)
    requires WellFormed(db) && Inv(db) && ItemOf(db, op).Some?
    ensures var x, r := ItemOf(db, op).value, RefreshAll(db);
            && db.status.BatchRunning? && x.task < |r.tasks| && x.stage < STAGE_COUNT
            && var st := r.tasks[x.task].stages[x.stage];
               && st.notBefore <= op.now
               && (st.state.Ready? || (x.stage == 1 && (st.state.Leased? || st.state.Running?)))
               && (op.filter.task.Some? ==> op.filter.task.value == x.task)
               && (op.filter.stage.Some? ==> op.filter.stage.value == x.stage)
               && (op.filter.project.Some? ==> op.filter.project.value == r.tasks[x.task].project)
               && CanHave(r, r.tasks[x.task].project, x.stage, op.capacities)
  {
    var i := CallServes(db, op);
    assert Eligible(RefreshAll(db), op.now, op.filter, op.queue[i]);
    AllocatedExactlyIf(RefreshAll(db), RefreshAll(db).tasks[op.queue[i].task].project, op.queue[i].stage, op.capacities);
  }

  /** One more attempt, within the stage's budget, leased under this token until this time; the stage is leased. */
  predicate NewRow(t: Task, t': Task, x: Item, now: Time, expiresAt: Time)
    requires x.stage < |t.stages| == |t'.stages|
  {
    var st, st' := t.stages[x.stage], t'.stages[x.stage];
    && x.attempt == |st.attempts| < st.maxAttempts && st'.state.Leased? && t'.last == Some(now)
    && |st'.attempts| == x.attempt + 1 && st'.attempts[..x.attempt] == st.attempts
    && LeasedUntil(st'.attempts[x.attempt], x.token, expiresAt) && st'.attempts[x.attempt].candidate.None?
  }

  /** A fresh attempt under a fresh lease. */
  predicate LeasedUntil(att: Attempt, token: nat, expiresAt: Time) {
    && att.status == InState(Leased) && att.commit.None? && att.artifacts == [] && att.lease.Some?
    && var l := att.lease.value; l.token == token && l.expiresAt == expiresAt && l.boot.None? && !l.revoked
  }

  lemma GrantedRow(t: Task, s: nat, now: Time, lease: Lease, automatic: bool)
    requires |t.stages| == STAGE_COUNT && s < STAGE_COUNT && s != IMAGE_EDIT && t.groups != []
    requires lease.boot.None? && !lease.revoked
    ensures var try := TryLease(t, s, now, lease, automatic);
            try.Granted? ==> |try.task.stages| == STAGE_COUNT && NewRow(t, try.task, Item(0, s, try.attempt, lease.token), now, lease.expiresAt)
  {
  }

  /** The lowest candidate of the current group that is pending or may be retried runs under a new attempt, and has
      had less than max_attempts attempts of its own. */
  predicate NewCandidate(t: Task, t': Task, x: Item, now: Time, expiresAt: Time)
    requires |t.stages| == STAGE_COUNT == |t'.stages|
  {
    var st, st', gens, gens' := t.stages[1], t'.stages[1], CurrentGens(t.groups), CurrentGens(t'.groups);
    && x.attempt == |st.attempts| && st'.state.Running? && t'.last == Some(now)
    && |st'.attempts| == x.attempt + 1 && st'.attempts[..x.attempt] == st.attempts
    && LeasedUntil(st'.attempts[x.attempt], x.token, expiresAt)
    && st'.attempts[x.attempt].candidate.Some? && t.groups != [] && |t'.groups| == |t.groups|
    && var c := st'.attempts[x.attempt].candidate.value;
       && c.group == |t.groups| - 1 && LowestWaiting(gens, c.index) && AttemptsOf(st.attempts, c) < st.maxAttempts
       && |gens'| == (if gens == [] then t.generations else |gens|)
       && c.index < |gens'| && gens'[c.index].status.GenRunning? && gens'[c.index].attempt == x.attempt
       && forall i :: 0 <= i < |gens'| && i != c.index ==> if gens == [] then gens'[i].status.GenPending? else gens'[i] == gens[i]
  }

  lemma GrantedCandidate(t: Task, now: Time, lease: Lease, automatic: bool)
    requires |t.stages| == STAGE_COUNT && t.groups != [] && lease.boot.None? && !lease.revoked
    ensures var try := TryLease(t, IMAGE_EDIT, now, lease, automatic);
            try.Granted? ==> |try.task.stages| == STAGE_COUNT && NewCandidate(t, try.task, Item(0, 1, try.attempt, lease.token), now, lease.expiresAt)
  {
    var try := TryLease(t, IMAGE_EDIT, now, lease, automatic);
    if try.Granted? {
      var m := Materialized(t);
      var gens := CurrentGens(m.groups);
      var pick := FirstWhere(gens, (g: GenStatus) => Waiting(g));
      assert try.task == CandidateGranted(m, pick.value, now, lease);
      assert LowestWaiting(CurrentGens(t.groups), pick.value);
      assert CurrentGens(try.task.groups) == gens[pick.value := gens[pick.value].(status := GenRunning, attempt := try.attempt)];
    }
  }

  /** What a call that hands item `x` out adds to the tables `r`, as the refresh left them. */
  predicate HandsOut(r: Db, r': Db, x: Item, now: Time) {
    && x.task < |r.tasks| == |r'.tasks| && x.stage < STAGE_COUNT && x.token == r.nextToken
    && |r.tasks[x.task].stages| == STAGE_COUNT == |r'.tasks[x.task].stages|
    && if x.stage == 1 then NewCandidate(r.tasks[x.task], r'.tasks[x.task], x, now, now + r.leaseSeconds)
       else NewRow(r.tasks[x.task], r'.tasks[x.task], x, now, now + r.leaseSeconds)
  }

  lemma ServedRows(r: Db, d: Dispatch, row: Row, now: Time, capacities: Capacities)
    requires WellFormed(r) && Served(r, d, row, now, capacities)
    ensures HandsOut(r, d.db, d.item.value, now)
  {
    var resources := Allocate(r, r.tasks[row.task].project, StageResources(row.stage), capacities);
    var lease := FreshLease(r, now, resources.value);
    if row.stage == 1 {
      GrantedCandidate(r.tasks[row.task], now, lease, r.automatic);
    } else {
      GrantedRow(r.tasks[row.task], row.stage, now, lease, r.automatic);
    }
  }

  lemma CallStep(db: Db, op: Op)
    requires WellFormed(db) && ItemOf(db, op).Some?
    ensures Step(db, op) == Dispatched(db, op.now, op.capacities, op.queue).db
  {
  }

  /** An item is handed out with exactly these rows. */
  lemma HandedOutRows(db: Db, op: Op)
    requires WellFormed(db) && Inv(db) && ItemOf(db, op).Some?
    ensures HandsOut(RefreshAll(db), Step(db, op), ItemOf(db, op).value, op.now)
  {
    var i := CallServes(db, op);
    CallStep(db, op);
    ServedRows(RefreshAll(db), Dispatched(db, op.now, op.capacities, op.queue), op.queue[i], op.now, op.capacities);
  }

  /** Candidate `c` is the lowest of the group that waits to be leased; all of a group that has no rows yet wait. */
  predicate LowestWaiting(gens: seq<Gen>, c: nat) {
    if gens == [] then c == 0
    else
      && c < |gens| && (gens[c].status.GenPending? || gens[c].status.GenRetryable?)
      && forall j :: 0 <= j < c ==> !gens[j].status.GenPending? && !gens[j].status.GenRetryable?
  }

  // ---------------------------------------------------------------- the order of service

  /** Row (t, s) is served before row (u, q): by the last dispatch of the task, never first; then the later stage;
      then the order of the project and of the task. */
  predicate Precedes(db: Db, t: nat, s: nat, u: nat, q: nat)
    requires t < |db.tasks| && u < |db.tasks|
  {
    var a, b := db.tasks[t], db.tasks[u];
    var x, y := if a.last.Some? then a.last.value else -1.0, if b.last.Some? then b.last.value else -1.0;
    || x < y
    || (x == y && s > q)
    || (x == y && s == q && a.projectOrder < b.projectOrder)
    || (x == y && s == q && a.projectOrder == b.projectOrder && a.order < b.order)
  }

  lemma QueueOrder(r: Db, now: Time, queue: seq<Row>, i: nat, j: nat)
    requires IsQueue(r, now, UNFILTERED, queue) && j <= i < |queue|
    ensures queue[i].task < |r.tasks| && queue[j].task < |r.tasks|
    ensures !Precedes(r, queue[i].task, queue[i].stage, queue[j].task, queue[j].stage)
  {
    assert Eligible(r, now, UNFILTERED, queue[i]) && Eligible(r, now, UNFILTERED, queue[j]);
    assert j < i ==> !Before(r, queue[i], queue[j]);
  }

  lemma ScanServesBy(r: Db, queue: seq<Row>, i: nat, now: Time, capacities: Capacities) returns (j: nat)
    requires WellFormed(r) && RowsInRange(r, queue) && OneRowEach(queue) && i < |queue|
    requires Leasable(r, queue[i].task, queue[i].stage, now, capacities)
    ensures j <= i && Served(r, Scan(r, queue, now, capacities), queue[j], now, capacities)
  {
    ScanGrants(r, r, queue, i, now, capacities);
    j := ScanServes(r, r, queue, now, capacities);
    var j' :| 0 <= j' <= i && queue[j'].task == Scan(r, queue, now, capacities).item.value.task;
    assert queue[j].task == queue[j'].task;
  }

  lemma ScansInOrder(r: Db, queue: seq<Row>, t: nat, s: nat, now: Time, capacities: Capacities)
    requires WellFormed(r) && Inv(r) && IsQueue(r, now, UNFILTERED, queue) && RowsInRange(r, queue) && Leasable(r, t, s, now, capacities)
    ensures var x := Scan(r, queue, now, capacities).item;
            x.Some? && x.value.task < |r.tasks| && !Precedes(r, t, s, x.value.task, x.value.stage)
  {
    var i := RowInQueue(r, now, queue, t, s);
    QueueHasOneRowEach(r, now, UNFILTERED, queue);
    var j := ScanServesBy(r, queue, i, now, capacities);
    QueueOrder(r, now, queue, i, j);
  }

  /** No stage that could have been leased by an unfiltered call comes before the one that is. */
  lemma ServesInOrder(db: Db, op: Op, t: nat, s: nat)
    requires WellFormed(db) && Inv(db) && Calls(db, op) && op.filter == UNFILTERED
    requires Leasable(RefreshAll(db), t, s, op.now, op.capacities)
    ensures var x := ItemOf(db, op);
            x.Some? && x.value.task < |db.tasks| && t < |db.tasks| && !Precedes(db, t, s, x.value.task, x.value.stage)
  {
    RefreshAllInv(db);
    ScansInOrder(RefreshAll(db), op.queue, t, s, op.now, op.capacities);
    RefreshKeepsOrder(db, t);
    RefreshKeepsOrder(db, ItemOf(db, op).value.task);
  }

  lemma RefreshKeepsOrder(db: Db, u: nat)
    requires WellFormed(db) && u < |db.tasks|
    ensures var a, b := db.tasks[u], RefreshAll(db).tasks[u];
            b.last == a.last && b.projectOrder == a.projectOrder && b.order == a.order
  {
  }
}
