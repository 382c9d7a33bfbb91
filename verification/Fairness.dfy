/** Bounded waiting: a task that could be leased at every call waits for at most one dispatch of each
    other task. */
module Fairness {
  import opened Tables
  import opened Transitions
  import opened Batch
  import opened Protocol
  import opened ChainShape
  import opened RunInvariant
  import opened Evolution
  import opened Runs

  const UNFILTERED := Filter(None, None, None)

  /** Stage `s` of task `t` would be leased if the scan came to it. */
  predicate Leasable(db: Db, t: nat, s: nat, now: Time, capacities: Capacities)
    requires WellFormed(db)
  {
    && t < |db.tasks| && s < STAGE_COUNT
    && Eligible(db, now, UNFILTERED, Row(t, s))
    && var r := Allocate(db, db.tasks[t].project, StageResources(s), capacities);
       r.Some? && TryLease(db.tasks[t], s, now, FreshLease(db, now, r.value), db.automatic).Granted?
  }

  /** The call finds an allocatable stage of task `t`. */
  predicate Allocatable(db: Db, t: nat, now: Time, capacities: Capacities)
    requires WellFormed(db)
  {
    exists s :: 0 <= s < STAGE_COUNT && Leasable(RefreshAll(db), t, s, now, capacities)
  }

  // ---------------------------------------------------------------- one call

  lemma GrantedWithAnyLease(t: Task, s: nat, now: Time, a: Lease, b: Lease, automatic: bool)
    requires |t.stages| == STAGE_COUNT && s < STAGE_COUNT && t.groups != []
    ensures TryLease(t, s, now, a, automatic).Granted? <==> TryLease(t, s, now, b, automatic).Granted?
  {
  }

  lemma QueuedRowIsLive(db: Db, now: Time, f: Filter, r: Row)
    requires WellFormed(db) && Eligible(db, now, f, r)
    ensures Live(db.tasks[r.task].stages[r.stage].state)
  {
  }

  /** A task never has two rows in the queue. */
  lemma OneRowPerTask(db: Db, now: Time, f: Filter, rows: seq<Row>, i: nat, j: nat)
    requires WellFormed(db) && Inv(db) && IsQueue(db, now, f, rows) && i < j < |rows|
    ensures rows[i].task != rows[j].task
  {
    QueuedRowIsLive(db, now, f, rows[i]);
    QueuedRowIsLive(db, now, f, rows[j]);
    if rows[i].task == rows[j].task {
      OneLiveStage(db.tasks[rows[i].task].stages, rows[i].stage, rows[j].stage);
    }
  }

  /** The scan grants its row `i`, or an earlier one. */
  lemma {:induction false} ScanGrants(origin: Db, db: Db, rows: seq<Row>, i: nat, now: Time, capacities: Capacities)
    requires WellFormed(origin) && WellFormed(db) && RowsInRange(db, rows) && i < |rows| && SameRows(origin, db)
    requires Leasable(origin, rows[i].task, rows[i].stage, now, capacities)
    requires db.tasks[rows[i].task] == origin.tasks[rows[i].task]
    requires forall j :: 0 <= j < i ==> rows[j].task != rows[i].task
    ensures var r := Scan(db, rows, now, capacities);
            r.item.Some? && exists j :: 0 <= j <= i && rows[j].task == r.item.value.task
    decreases |rows|
  {
    var t, s := rows[0].task, rows[0].stage;
    var resources := Allocate(db, db.tasks[t].project, StageResources(s), capacities);
    if i == 0 {
      SameAllocation(origin, db, db.tasks[t].project, StageResources(s), capacities);
      GrantedWithAnyLease(db.tasks[t], s, now, FreshLease(db, now, resources.value), FreshLease(origin, now, resources.value), db.automatic);
    } else if resources.None? {
      ScanGrants(origin, db, rows[1..], i - 1, now, capacities);
      FoundLater(rows, i, Scan(db, rows[1..], now, capacities).item);
    } else {
      var try := TryLease(db.tasks[t], s, now, FreshLease(db, now, resources.value), db.automatic);
      if try.Skipped? {
        SkippedKeepsRows(origin, db, rows[0], now, resources.value);
        var mid := WithTask(db, t, try.task);
        ScanGrants(origin, mid, rows[1..], i - 1, now, capacities);
        FoundLater(rows, i, Scan(mid, rows[1..], now, capacities).item);
      }
    }
  }

  lemma FoundLater(rows: seq<Row>, i: nat, item: Option<Item>)
    requires 0 < i < |rows| && item.Some? && exists j :: 0 <= j <= i - 1 && rows[1..][j].task == item.value.task
    ensures exists j :: 0 <= j <= i && rows[j].task == item.value.task
  {
    var j :| 0 <= j <= i - 1 && rows[1..][j].task == item.value.task;
    assert rows[j + 1].task == item.value.task;
  }

  lemma SkippedKeepsRows(origin: Db, db: Db, row: Row, now: Time, resources: Allocation)
    requires WellFormed(db) && SameRows(origin, db) && row.task < |db.tasks| && row.stage < STAGE_COUNT
    ensures var try := TryLease(db.tasks[row.task], row.stage, now, FreshLease(db, now, resources), db.automatic);
            try.Skipped? ==> WellFormed(WithTask(db, row.task, try.task)) && SameRows(origin, WithTask(db, row.task, try.task))
  {
    var lease := FreshLease(db, now, resources);
    SkippedRows(db.tasks[row.task], row.stage, now, lease, db.automatic);
    TryLeaseShape(db.tasks[row.task], row.stage, now, lease, db.automatic);
    assert SameTaskRows(origin.tasks[row.task], db.tasks[row.task]);
  }

  ghost predicate Calls(db: Db, op: Op)
    requires WellFormed(db)
  {
    op.LeaseNext? && db.status.BatchRunning? && IsQueue(RefreshAll(db), op.now, op.filter, op.queue)
  }

  /** The item a call hands out. */
  ghost function ItemOf(db: Db, op: Op): Option<Item>
    requires WellFormed(db)
  {
    if Calls(db, op) then Dispatched(db, op.now, op.capacities, op.queue).item else None
  }

  lemma RowInQueue(db: Db, now: Time, queue: seq<Row>, t: nat, s: nat) returns (i: nat)
    requires WellFormed(db) && Inv(db) && IsQueue(db, now, UNFILTERED, queue) && Eligible(db, now, UNFILTERED, Row(t, s))
    ensures i < |queue| && queue[i] == Row(t, s) && forall j :: 0 <= j < i ==> queue[j].task != t
  {
    i :| 0 <= i < |queue| && queue[i] == Row(t, s);
    forall j | 0 <= j < i ensures queue[j].task != t {
      OneRowPerTask(db, now, UNFILTERED, queue, j, i);
    }
  }

  lemma EarlierInQueue(db: Db, now: Time, queue: seq<Row>, i: nat, j: nat)
    requires WellFormed(db) && IsQueue(db, now, UNFILTERED, queue) && j <= i < |queue|
    ensures queue[i].task < |db.tasks| && queue[j].task < |db.tasks|
    ensures LastDispatch(db.tasks[queue[j].task]) <= LastDispatch(db.tasks[queue[i].task])
  {
    assert j < i ==> !Before(db, queue[i], queue[j]);
    assert Eligible(db, now, UNFILTERED, queue[i]) && Eligible(db, now, UNFILTERED, queue[j]);
  }

  lemma QueueServes(db: Db, now: Time, capacities: Capacities, queue: seq<Row>, i: nat)
    requires WellFormed(db) && IsQueue(db, now, UNFILTERED, queue) && RowsInRange(db, queue) && i < |queue|
    requires Leasable(db, queue[i].task, queue[i].stage, now, capacities)
    requires forall j :: 0 <= j < i ==> queue[j].task != queue[i].task
    ensures var item := Scan(db, queue, now, capacities).item;
            && item.Some? && item.value.task < |db.tasks|
            && LastDispatch(db.tasks[item.value.task]) <= LastDispatch(db.tasks[queue[i].task])
  {
    ScanGrants(db, db, queue, i, now, capacities);
    var j :| 0 <= j <= i && queue[j].task == Scan(db, queue, now, capacities).item.value.task;
    EarlierInQueue(db, now, queue, i, j);
  }

  lemma RefreshKeepsLast(db: Db, u: nat)
    requires WellFormed(db) && u < |db.tasks|
    ensures RefreshAll(db).tasks[u].last == db.tasks[u].last
  {
  }

  lemma AllocatableRow(db: Db, now: Time, capacities: Capacities, queue: seq<Row>, t: nat) returns (i: nat)
    requires WellFormed(db) && Inv(db) && IsQueue(RefreshAll(db), now, UNFILTERED, queue) && Allocatable(db, t, now, capacities)
    ensures i < |queue| && queue[i].task == t && Leasable(RefreshAll(db), t, queue[i].stage, now, capacities)
    ensures forall j :: 0 <= j < i ==> queue[j].task != t
  {
    var s :| 0 <= s < STAGE_COUNT && Leasable(RefreshAll(db), t, s, now, capacities);
    RefreshAllInv(db);
    i := RowInQueue(RefreshAll(db), now, queue, t, s);
  }

  /** A call that finds an allocatable stage of task `t` leases some stage, of a task that was not
      dispatched later than `t`. */
  lemma CallServesEarlier(db: Db, op: Op, t: nat)
    requires WellFormed(db) && Inv(db) && Calls(db, op) && op.filter == UNFILTERED && t < |db.tasks|
    requires Allocatable(db, t, op.now, op.capacities)
    ensures var item := ItemOf(db, op);
            && item.Some? && item.value.task < |db.tasks|
            && LastDispatch(db.tasks[item.value.task]) <= LastDispatch(db.tasks[t])
  {
    var i := AllocatableRow(db, op.now, op.capacities, op.queue, t);
    ServesRow(db, op.now, op.capacities, op.queue, i);
  }

  lemma ServesRow(db: Db, now: Time, capacities: Capacities, queue: seq<Row>, i: nat)
    requires WellFormed(db) && IsQueue(RefreshAll(db), now, UNFILTERED, queue) && RowsInRange(RefreshAll(db), queue)
    requires i < |queue| && queue[i].task < |db.tasks|
    requires Leasable(RefreshAll(db), queue[i].task, queue[i].stage, now, capacities)
    requires forall j :: 0 <= j < i ==> queue[j].task != queue[i].task
    ensures var item := Dispatched(db, now, capacities, queue).item;
            && item.Some? && item.value.task < |db.tasks|
            && LastDispatch(db.tasks[item.value.task]) <= LastDispatch(db.tasks[queue[i].task])
  {
    QueueServes(RefreshAll(db), now, capacities, queue, i);
    RefreshKeepsLast(db, queue[i].task);
    RefreshKeepsLast(db, Dispatched(db, now, capacities, queue).item.value.task);
  }

  // ---------------------------------------------------------------- over a run

  /** The other tasks that were not dispatched later than `t`. */
  function Ahead(db: Db, t: nat): set<nat>
    requires t < |db.tasks|
  {
    set u: nat | u < |db.tasks| && u != t && LastDispatch(db.tasks[u]) <= LastDispatch(db.tasks[t])
  }

  ghost predicate ClockAhead(db: Db, now: Time) {
    forall u :: 0 <= u < |db.tasks| ==> LastDispatch(db.tasks[u]) < now
  }

  /** A call that never reaches task `t` although it could. */
  ghost predicate PassesBy(db: Db, op: Op, t: nat)
    requires WellFormed(db)
  {
    && (op.LeaseNext? ==> op.filter == UNFILTERED && ClockAhead(db, op.now))
    && (Calls(db, op) ==> Allocatable(db, t, op.now, op.capacities))
    && (ItemOf(db, op).Some? ==> ItemOf(db, op).value.task != t)
  }

  lemma LastUnchanged(db: Db, op: Op)
    requires WellFormed(db) && (!op.LeaseNext? || ItemOf(db, op).None?)
    ensures |Step(db, op).tasks| == |db.tasks|
    ensures forall u :: 0 <= u < |db.tasks| ==> Step(db, op).tasks[u].last == db.tasks[u].last
  {
    var db' := Step(db, op);
    if !op.LeaseNext? {
      StepEvolves(db, op);
      forall u | 0 <= u < |db.tasks| ensures db'.tasks[u].last == db.tasks[u].last {
        assert TaskEvolves(db.tasks[u], db'.tasks[u], Plain(op));
      }
    } else if Calls(db, op) {
      LeaseNextDispatches(db, op.now, op.capacities, op.queue);
      forall u | 0 <= u < |db.tasks| ensures db'.tasks[u].last == db.tasks[u].last {
        assert SameTaskRows(db.tasks[u], db'.tasks[u]);
      }
    }
  }

  lemma LastDispatched(db: Db, op: Op)
    requires WellFormed(db) && ItemOf(db, op).Some?
    ensures var k := ItemOf(db, op).value;
            && |Step(db, op).tasks| == |db.tasks| && k.task < |db.tasks|
            && forall u :: 0 <= u < |db.tasks| ==> Step(db, op).tasks[u].last == if u == k.task then Some(op.now) else db.tasks[u].last
  {
    LeaseNextDispatches(db, op.now, op.capacities, op.queue);
    var db' := Step(db, op);
    var k := ItemOf(db, op).value;
    forall u | 0 <= u < |db.tasks| && u != k.task ensures db'.tasks[u].last == db.tasks[u].last {
      assert SameTaskRows(db.tasks[u], db'.tasks[u]);
    }
  }

  lemma AheadAfter(db: Db, db': Db, t: nat, u: nat, now: Time)
    requires t < |db.tasks| == |db'.tasks| && u < |db.tasks| && u != t && ClockAhead(db, now)
    requires LastDispatch(db.tasks[u]) <= LastDispatch(db.tasks[t])
    requires forall v :: 0 <= v < |db.tasks| ==> db'.tasks[v].last == if v == u then Some(now) else db.tasks[v].last
    ensures |Ahead(db', t)| == |Ahead(db, t)| - 1
  {
    assert Ahead(db', t) == Ahead(db, t) - {u};
  }

  lemma AheadUnchanged(db: Db, db': Db, t: nat)
    requires t < |db.tasks| == |db'.tasks| && forall u :: 0 <= u < |db.tasks| ==> db'.tasks[u].last == db.tasks[u].last
    ensures Ahead(db', t) == Ahead(db, t)
  {
  }

  lemma AheadAfterDispatch(db: Db, db': Db, op: Op, t: nat)
    requires WellFormed(db) && Inv(db) && t < |db.tasks| && PassesBy(db, op, t) && ItemOf(db, op).Some? && db' == Step(db, op)
    ensures |db'.tasks| == |db.tasks| && |Ahead(db', t)| + 1 <= |Ahead(db, t)|
  {
    CallServesEarlier(db, op, t);
    LastDispatched(db, op);
    AheadAfter(db, db', t, ItemOf(db, op).value.task, op.now);
  }

  lemma AheadWithoutDispatch(db: Db, db': Db, op: Op, t: nat)
    requires WellFormed(db) && t < |db.tasks| && ItemOf(db, op).None? && db' == Step(db, op)
    ensures |db'.tasks| == |db.tasks| && Ahead(db', t) == Ahead(db, t)
  {
    LastUnchanged(db, op);
    AheadUnchanged(db, db', t);
  }

  /** Each dispatch that passes `t` by takes one task out of the way. */
  lemma AheadShrinks(db: Db, op: Op, t: nat)
    requires WellFormed(db) && Inv(db) && t < |db.tasks| && PassesBy(db, op, t)
    ensures |Step(db, op).tasks| == |db.tasks|
    ensures |Ahead(Step(db, op), t)| + (if ItemOf(db, op).Some? then 1 else 0) <= |Ahead(db, t)|
  {
    if ItemOf(db, op).Some? {
      AheadAfterDispatch(db, Step(db, op), op, t);
    } else {
      AheadWithoutDispatch(db, Step(db, op), op, t);
    }
  }

  ghost function CountDispatches(db: Db, ops: seq<Op>): nat
    requires WellFormed(db)
    decreases |ops|
  {
    if ops == [] then 0
    else
      CountDispatches(db, ops[..|ops| - 1])
      + (if ItemOf(Run(db, ops[..|ops| - 1]), ops[|ops| - 1]).Some? then 1 else 0)
  }

  ghost predicate AllPassBy(db: Db, ops: seq<Op>, t: nat)
    requires WellFormed(db)
  {
    forall i :: 0 <= i < |ops| ==> PassesBy(Run(db, ops[..i]), ops[i], t)
  }

  lemma {:induction false} WaitingShrinks(db: Db, ops: seq<Op>, t: nat)
    requires WellFormed(db) && Inv(db) && t < |db.tasks| && AllPassBy(db, ops, t)
    ensures Inv(Run(db, ops)) && |Run(db, ops).tasks| == |db.tasks|
    ensures CountDispatches(db, ops) + |Ahead(Run(db, ops), t)| <= |Ahead(db, t)|
    decreases |ops|
  {
    if ops != [] {
      var n := |ops| - 1;
      forall i | 0 <= i < n ensures PassesBy(Run(db, ops[..n][..i]), ops[..n][i], t) {
        assert ops[..n][..i] == ops[..i];
      }
      WaitingShrinks(db, ops[..n], t);
      AheadShrinks(Run(db, ops[..n]), ops[n], t);
      StepInv(Run(db, ops[..n]), ops[n]);
    }
  }

  lemma {:induction false} UpTo(n: nat) returns (s: set<nat>)
    ensures forall u: nat :: u in s <==> u < n
    ensures |s| == n
  {
    if n == 0 {
      s := {};
    } else {
      s := UpTo(n - 1);
      s := s + {n - 1};
    }
  }

  lemma {:induction false} SubsetBound(a: set<nat>, b: set<nat>)
    requires a <= b
    ensures |a| <= |b|
  {
    if a != {} {
      var x :| x in a;
      SubsetBound(a - {x}, b - {x});
    }
  }

  lemma AheadBound(db: Db, t: nat)
    requires t < |db.tasks|
    ensures |Ahead(db, t)| <= |db.tasks| - 1
  {
    var all := UpTo(|db.tasks|);
    SubsetBound(Ahead(db, t), all - {t});
  }

  /** From any reachable state, with a strictly increasing clock and unfiltered calls: as long as task `t`
      has an allocatable stage at every call, fewer than n dispatches pass it by. */
  lemma BoundedWaiting(db: Db, before: seq<Op>, ops: seq<Op>, t: nat)
    requires IsPlanned(db) && t < |db.tasks|
    requires AllPassBy(Run(db, before), ops, t)
    ensures CountDispatches(Run(db, before), ops) <= |db.tasks| - 1
  {
    RunInv(db, before);
    RunSettings(db, before);
    WaitingShrinks(Run(db, before), ops, t);
    AheadBound(Run(db, before), t);
  }
}
