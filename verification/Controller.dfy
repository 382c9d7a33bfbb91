/** The controller's calls as methods that rewrite its tables row by row. Each is proved to make the step
    that `Protocol.Step` describes, so everything proved about runs holds of any sequence of these calls. */
module Controller {
  import opened Tables
  import opened Transitions
  import opened Batch
  import opened Protocol
  import opened Completion
  import opened Fairness

  // ---------------------------------------------------------------- ordering the queue

  lemma BeforeTransitive(db: Db, a: Row, b: Row, c: Row)
    requires a.task < |db.tasks| && b.task < |db.tasks| && c.task < |db.tasks|
    ensures !Before(db, b, a) && !Before(db, c, b) ==> !Before(db, c, a)
    ensures Before(db, a, b) ==> !Before(db, b, a)
  {
  }

  predicate QueueSorted(db: Db, rows: seq<Row>) {
    && RowsInRange(db, rows)
    && forall i, j :: 0 <= i < j < |rows| ==> !Before(db, rows[j], rows[i])
  }

  predicate PairwiseDistinct(rows: seq<Row>) {
    forall i, j :: 0 <= i < j < |rows| ==> rows[i] != rows[j]
  }

  lemma SortedInsert(db: Db, rows: seq<Row>, r: Row, n: nat)
    requires QueueSorted(db, rows) && r.task < |db.tasks| && r.stage < STAGE_COUNT && n <= |rows|
    requires (forall i :: 0 <= i < n ==> !Before(db, r, rows[i])) && (forall i :: n <= i < |rows| ==> !Before(db, rows[i], r))
    ensures QueueSorted(db, rows[..n] + [r] + rows[n..])
  {
    var queue := rows[..n] + [r] + rows[n..];
    assert forall i :: 0 <= i < |queue| ==> queue[i] == if i < n then rows[i] else if i == n then r else rows[i - 1];
  }

  lemma DistinctInsert(rows: seq<Row>, r: Row, n: nat)
    requires PairwiseDistinct(rows) && r !in rows && n <= |rows|
    ensures PairwiseDistinct(rows[..n] + [r] + rows[n..])
  {
    var queue := rows[..n] + [r] + rows[n..];
    assert forall i :: 0 <= i < |queue| ==> queue[i] == if i < n then rows[i] else if i == n then r else rows[i - 1];
  }

  lemma MembersAfterInsert(rows: seq<Row>, r: Row, n: nat)
    requires n <= |rows|
    ensures forall x :: x in rows[..n] + [r] + rows[n..] <==> x in rows || x == r
  {
    assert rows == rows[..n] + rows[n..];
  }

  /** Where a new row goes: behind every row that it does not precede. */
  method Inserted(db: Db, rows: seq<Row>, r: Row) returns (queue: seq<Row>)
    requires QueueSorted(db, rows) && PairwiseDistinct(rows)
    requires r.task < |db.tasks| && r.stage < STAGE_COUNT && r !in rows
    ensures QueueSorted(db, queue) && PairwiseDistinct(queue)
    ensures forall x :: x in queue <==> x in rows || x == r
  {
    var n := |rows|;
    while n > 0 && Before(db, r, rows[n - 1])
      invariant 0 <= n <= |rows|
      invariant forall i :: n <= i < |rows| ==> Before(db, r, rows[i])
    {
      n := n - 1;
    }
    queue := rows[..n] + [r] + rows[n..];
    forall i | 0 <= i < n ensures !Before(db, r, rows[i]) {
      BeforeTransitive(db, rows[i], rows[n - 1], r);
    }
    forall i | n <= i < |rows| ensures !Before(db, rows[i], r) {
      BeforeTransitive(db, r, rows[i], r);
    }
    SortedInsert(db, rows, r, n);
    DistinctInsert(rows, r, n);
    MembersAfterInsert(rows, r, n);
  }

  lemma {:induction false} AllOrNothing(db: Db, project: nat, resources: seq<Resource>, capacities: Capacities, allocation: Allocation)
    requires forall x :: x in allocation <==> x in resources
    requires forall x :: x in allocation ==> AllocateOne(db, project, x, capacities) == Some(allocation[x])
    ensures Allocate(db, project, resources, capacities) == Some(allocation)
  {
    if resources != [] {
      var rest := map x | x in allocation && x in resources[1..] :: allocation[x];
      AllOrNothing(db, project, resources[1..], capacities, rest);
      assert allocation == rest[resources[0] := allocation[resources[0]]];
    } else {
      assert allocation == map[];
    }
  }

  lemma {:induction false} OneMissing(db: Db, project: nat, resources: seq<Resource>, capacities: Capacities, i: nat)
    requires i < |resources| && AllocateOne(db, project, resources[i], capacities).None?
    ensures Allocate(db, project, resources, capacities).None?
    decreases i
  {
    if i > 0 {
      OneMissing(db, project, resources[1..], capacities, i - 1);
    }
  }

  function PromotedStage(t: Task, i: nat): Stage
    requires i < |t.stages|
  {
    if DependencyMet(t, i) then t.stages[i].(state := Promoted(t, i)) else t.stages[i]
  }

  /** The round's query selects stage `i` and changes its row. */
  predicate Promotes(t: Task, i: nat)
    requires i < |t.stages|
  {
    DependencyMet(t, i) && (i == EDIT_GATE ==> LatestReview(t.reviews).Some?)
  }

  predicate PromotesBefore(t: Task, n: nat)
    requires n <= |t.stages|
  {
    n > 0 && (PromotesBefore(t, n - 1) || Promotes(t, n - 1))
  }

  lemma {:induction false} PromotesSome(t: Task, n: nat)
    requires n <= |t.stages|
    ensures PromotesBefore(t, n) <==> exists i :: 0 <= i < n && Promotes(t, i)
  {
    if n > 0 {
      PromotesSome(t, n - 1);
    }
  }

  lemma NothingPromoted(t: Task)
    requires |t.stages| == STAGE_COUNT
    ensures PromotesBefore(t, STAGE_COUNT) <==> !NothingToPromote(t)
  {
    PromotesSome(t, STAGE_COUNT);
    assert forall i :: 0 <= i < STAGE_COUNT && DependencyMet(t, i) && !Promotes(t, i) ==> i == EDIT_GATE;
    if !NothingToPromote(t) {
      var i :| 0 <= i < STAGE_COUNT && DependencyMet(t, i) && !(i == EDIT_GATE && LatestReview(t.reviews).None?);
      assert Promotes(t, i);
    }
  }

  /** What the search loop does with one row of the queue. */
  function RowOutcome(db: Db, row: Row, now: Time, capacities: Capacities): Dispatch
    requires WellFormed(db) && row.task < |db.tasks| && row.stage < STAGE_COUNT
  {
    var t, s := row.task, row.stage;
    var resources := Allocate(db, db.tasks[t].project, StageResources(s), capacities);
    if resources.None? then Dispatch(db, None)
    else
      match TryLease(db.tasks[t], s, now, FreshLease(db, now, resources.value), db.automatic)
      case Skipped(task) => Dispatch(WithTask(db, t, task), None)
      case Granted(task, a) =>
        Dispatch(WithTask(db, t, task).(nextToken := db.nextToken + 1), Some(Item(t, s, a, db.nextToken)))
  }

  lemma RowOutcomeShape(db: Db, row: Row, now: Time, capacities: Capacities)
    requires WellFormed(db) && row.task < |db.tasks| && row.stage < STAGE_COUNT
    ensures var r := RowOutcome(db, row, now, capacities); WellFormed(r.db) && |r.db.tasks| == |db.tasks|
  {
    var resources := Allocate(db, db.tasks[row.task].project, StageResources(row.stage), capacities);
    if resources.Some? {
      TryLeaseShape(db.tasks[row.task], row.stage, now, FreshLease(db, now, resources.value), db.automatic);
    }
  }

  lemma ScanByRow(db: Db, rows: seq<Row>, i: nat, now: Time, capacities: Capacities)
    requires WellFormed(db) && RowsInRange(db, rows) && i < |rows|
    ensures var r := RowOutcome(db, rows[i], now, capacities);
            && WellFormed(r.db) && RowsInRange(r.db, rows)
            && Scan(db, rows[i..], now, capacities) == if r.item.Some? then r else Scan(r.db, rows[i + 1..], now, capacities)
  {
    RowOutcomeShape(db, rows[i], now, capacities);
    assert rows[i..][0] == rows[i] && rows[i..][1..] == rows[i + 1..];
  }

  predicate OnlyRow(t: Task, s: nat, a: nat, x: Task) {
    && ValidKey(t, s, a) && ValidKey(x, s, a) && |x.stages| == |t.stages|
    && x == t.(stages := x.stages)
    && x.stages == t.stages[s := x.stages[s]]
    && x.stages[s].attempts == t.stages[s].attempts[a := x.stages[s].attempts[a]]
  }

  /** Two rewritings of one attempt row agree if they agree on that row and on its stage row. */
  lemma RowsWritten(t: Task, s: nat, a: nat, x: Task, y: Task)
    requires OnlyRow(t, s, a, x) && OnlyRow(t, s, a, y)
    requires x.stages[s].attempts[a] == y.stages[s].attempts[a]
    requires x.stages[s].(attempts := []) == y.stages[s].(attempts := [])
    ensures x == y
  {
    assert x.stages[s].attempts == y.stages[s].attempts;
  }

  /** How a submission ends: stored, refused with a StoreError, or with an error of another kind. */
  datatype Submission = Stored | Refused | Escaped

  /** What moving and checking the files comes to: published; both or neither of the two directories there,
      a StoreError; a file missing or changed, or the move refused by the system, a ContractError or OSError. */
  datatype Publication = FilesPublished | DirectoriesClash | FilesUnusable

  predicate HasCommit(db: Db, k: Key) {
    ValidAt(db, k) && db.tasks[k.0].stages[k.1].attempts[k.2].commit.Some?
  }

  /** A lease of another boot, or of no process yet, has nothing to clean up; otherwise the cleanup of its process
      group decides. */
  predicate CleanupDone(db: Db, k: Key, boot: nat, cleaned: set<Key>) {
    LeaseAt(db, k).Some? && (LeaseAt(db, k).value.boot == Some(boot) ==> k in cleaned)
  }

  class BatchController {
    var tasks: seq<Task>
    var status: BatchStatus
    var nextToken: nat
    const automatic: bool
    const pool: seq<nat>
    const leaseSeconds: Time

    function Tables(): (db: Db)
      reads this
    {
      Db(tasks, status, automatic, pool, leaseSeconds, nextToken)
    }

    constructor (planned: seq<Task>, automaticMode: bool, gpuPool: seq<nat>, seconds: Time)
      requires forall t :: 0 <= t < |planned| ==> IsPlannedTask(planned[t])
      ensures Tables() == Db(planned, Planned, automaticMode, gpuPool, seconds, 0) && IsPlanned(Tables())
    {
      tasks, status, nextToken := planned, Planned, 0;
      automatic, pool, leaseSeconds := automaticMode, gpuPool, seconds;
      new;
      assert forall t :: 0 <= t < |tasks| ==> IsPlannedTask(tasks[t]);
    }

    // -------------------------------------------------------------- refresh

    /** One selected stage, from the states that the round's query read. */
    method PromoteStage(read: Task, i: nat) returns (stage: Stage, accepted: Option<nat>, changed: bool)
      requires |read.stages| == STAGE_COUNT && i < STAGE_COUNT
      ensures stage == PromotedStage(read, i) && changed == Promotes(read, i)
      ensures accepted == if i == EDIT_GATE then RefreshedAccepted(read) else read.accepted
    {
      stage, accepted, changed := read.stages[i], read.accepted, false;
      if read.stages[i].state.Pending? && (i == 0 || read.stages[i - 1].state.Succeeded?) {
        if i != EDIT_GATE {
          stage, changed := stage.(state := Ready), true;
        } else {
          var review := LatestReview(read.reviews);
          if review.Some? {
            var d := review.value.decision;
            if d.Accepted? || d.AcceptedByPolicy? {
              if d.AcceptedByPolicy? {
                var candidate := CandidateFor(read, review.value.attempt, None);
                if candidate.Some? { accepted := candidate; }
              }
              stage := stage.(state := Succeeded);
            } else if d.RejectedEdit? {
              stage := stage.(state := Rejected);
            } else {
              stage := stage.(state := WaitingReview);
            }
            changed := true;
          }
        }
      }
    }

    /** One round for one task: every stage that the round's query selected. */
    method RefreshTask(t: nat) returns (changed: bool)
      requires t < |tasks| && |tasks[t].stages| == STAGE_COUNT
      modifies this`tasks
      ensures tasks == old(tasks)[t := RefreshRound(old(tasks)[t])]
      ensures changed <==> !NothingToPromote(old(tasks)[t])
    {
      var read := tasks[t];
      var stages := read.stages;
      var accepted := read.accepted;
      changed := false;
      for i := 0 to STAGE_COUNT
        invariant |stages| == STAGE_COUNT && tasks == old(tasks)
        invariant forall j :: 0 <= j < i ==> stages[j] == PromotedStage(read, j)
        invariant forall j :: i <= j < STAGE_COUNT ==> stages[j] == read.stages[j]
        invariant accepted == if i > EDIT_GATE then RefreshedAccepted(read) else read.accepted
        invariant changed == PromotesBefore(read, i)
      {
        var stage, choice, promoted := PromoteStage(read, i);
        stages := stages[i := stage];
        if i == EDIT_GATE { accepted := choice; }
        changed := changed || promoted;
      }
      NothingPromoted(read);
      assert stages == RefreshRound(read).stages;
      tasks := tasks[t := read.(stages := stages, accepted := accepted)];
    }

    /** One round over all tasks. */
    method RefreshOnce() returns (changed: bool)
      requires forall t :: 0 <= t < |tasks| ==> |tasks[t].stages| == STAGE_COUNT
      modifies this`tasks
      ensures |tasks| == |old(tasks)|
      ensures forall t :: 0 <= t < |tasks| ==> tasks[t] == RefreshRound(old(tasks)[t])
      ensures changed <==> exists t :: 0 <= t < |tasks| && !NothingToPromote(old(tasks)[t])
    {
      changed := false;
      for t := 0 to |tasks|
        invariant |tasks| == |old(tasks)|
        invariant forall u :: 0 <= u < t ==> tasks[u] == RefreshRound(old(tasks)[u])
        invariant forall u :: t <= u < |tasks| ==> tasks[u] == old(tasks)[u]
        invariant changed <==> exists u :: 0 <= u < t && !NothingToPromote(old(tasks)[u])
      {
        var promoted := RefreshTask(t);
        changed := changed || promoted;
      }
    }

    /** The refresh loop: rounds until one promotes nothing. */
    method RefreshReady()
      requires WellFormed(Tables())
      modifies this`tasks
      ensures Tables() == RefreshAll(old(Tables()))
    {
      ghost var before := Tables();
      var round := 0;
      var changed := true;
      while changed
        invariant |tasks| == |before.tasks| && round <= 3 && (round == 0 ==> changed)
        invariant forall t :: 0 <= t < |tasks| ==> tasks[t] == Rounds(before.tasks[t], round)
        invariant !changed ==> round > 0 && forall t :: 0 <= t < |tasks| ==> NothingToPromote(Rounds(before.tasks[t], round - 1))
        invariant changed && round == 3 ==> exists t :: 0 <= t < |tasks| && !NothingToPromote(Rounds(before.tasks[t], 2))
        decreases 3 - round, changed
      {
        if round == 3 {
          NeverThree(before);
        }
        changed := RefreshOnce();
        round := round + 1;
      }
      forall t | 0 <= t < |tasks| ensures tasks[t] == Refreshed(before.tasks[t]) {
        RoundsSettle(before.tasks[t], round);
      }
      assert tasks == RefreshAll(before).tasks;
    }

    // -------------------------------------------------------------- leasing

    /** All resources of a stage or none; the first that cannot be had ends the search. */
    method AllocateResources(project: nat, resources: seq<Resource>, capacities: Capacities) returns (r: Option<Allocation>)
      ensures r == Allocate(Tables(), project, resources, capacities)
    {
      var allocation: Allocation := map[];
      for i := 0 to |resources|
        invariant forall x :: x in allocation <==> x in resources[..i]
        invariant forall x :: x in allocation ==> AllocateOne(Tables(), project, x, capacities) == Some(allocation[x])
      {
        var one := AllocateOne(Tables(), project, resources[i], capacities);
        if one.None? {
          OneMissing(Tables(), project, resources, capacities, i);
          return None;
        }
        allocation := allocation[resources[i] := one.value];
      }
      assert resources[..|resources|] == resources;
      AllOrNothing(Tables(), project, resources, capacities, allocation);
      r := Some(allocation);
    }

    /** The dispatch query: every eligible row, in dispatch order. */
    method SelectQueue(now: Time, f: Filter) returns (queue: seq<Row>)
      requires WellFormed(Tables())
      ensures IsQueue(Tables(), now, f, queue)
    {
      queue := [];
      for t := 0 to |tasks|
        invariant QueueSorted(Tables(), queue) && PairwiseDistinct(queue)
        invariant forall x :: x in queue <==> x.task < t && Eligible(Tables(), now, f, x)
      {
        for s := 0 to STAGE_COUNT
          invariant QueueSorted(Tables(), queue) && PairwiseDistinct(queue)
          invariant forall x :: x in queue <==> (x.task < t || (x.task == t && x.stage < s)) && Eligible(Tables(), now, f, x)
        {
          if Eligible(Tables(), now, f, Row(t, s)) {
            queue := Inserted(Tables(), queue, Row(t, s));
          }
        }
      }
      forall i | 0 <= i < |queue| ensures Eligible(Tables(), now, f, queue[i]) {
        assert queue[i] in queue;
      }
    }

    /** Leases the next waiting candidate of the image stage, or settles the group. */
    method LeaseCandidate(t: nat, now: Time, lease: Lease) returns (attempt: Option<nat>)
      requires t < |tasks| && |tasks[t].stages| == STAGE_COUNT && tasks[t].groups != []
      modifies this`tasks
      ensures var r := TryLease(old(tasks)[t], IMAGE_EDIT, now, lease, automatic);
              && tasks == old(tasks)[t := r.task]
              && attempt == if r.Granted? then Some(r.attempt) else None
    {
      var task := tasks[t];
      var n := |task.groups| - 1;
      if task.groups[n] == [] {
        task := task.(groups := task.groups[n := seq(task.generations, _ => Gen(GenPending, -1, false))]);
      }
      var gens := task.groups[n];
      var image := task.stages[IMAGE_EDIT];
      attempt := None;
      var i := 0;
      while i < |gens| && !Waiting(gens[i].status)
        invariant 0 <= i <= |gens|
        invariant forall j :: 0 <= j < i ==> !Waiting(gens[j].status)
      {
        i := i + 1;
      }
      ghost var pick := FirstWhere(gens, (g: GenStatus) => Waiting(g));
      assert i == |gens| ==> pick.None?;
      assert i < |gens| ==> pick == Some(i);
      if i == |gens| {
        if !exists j :: 0 <= j < |gens| && gens[j].status.GenRunning? {
          if CountSucceeded(gens) > 0 {
            task := WithStage(task, IMAGE_EDIT, image.(state := Succeeded));
            task := AddReview(task, AttemptOfLastSucceeded(gens), automatic);
          } else {
            task := WithStage(task, IMAGE_EDIT, image.(state := FailedTerminal, error := Some(AttemptsExhausted)));
          }
        }
      } else if AttemptsOf(image.attempts, Candidate(n, i)) >= image.maxAttempts {
        task := task.(groups := task.groups[n := gens[i := gens[i].(status := GenTerminal)]]);
      } else {
        var a := |image.attempts|;
        image := image.(attempts := image.attempts + [NewAttempt(Some(Candidate(n, i)), lease)]);
        task := task.(groups := task.groups[n := gens[i := gens[i].(status := GenRunning, attempt := a)]]);
        image := image.(state := Running);
        task := WithStage(task, IMAGE_EDIT, image);
        task := task.(last := Some(now));
        attempt := Some(a);
      }
      tasks := tasks[t := task];
    }

    /** Leases a new attempt of a plain stage unless its attempts are used up. */
    method LeaseStage(t: nat, s: nat, now: Time, lease: Lease) returns (attempt: Option<nat>)
      requires t < |tasks| && |tasks[t].stages| == STAGE_COUNT && tasks[t].groups != [] && s < STAGE_COUNT && s != IMAGE_EDIT
      modifies this`tasks
      ensures var r := TryLease(old(tasks)[t], s, now, lease, automatic);
              && tasks == old(tasks)[t := r.task]
              && attempt == if r.Granted? then Some(r.attempt) else None
    {
      var task := tasks[t];
      var stage := task.stages[s];
      var number := |stage.attempts| + 1;
      if number > stage.maxAttempts {
        task := WithStage(task, s, stage.(state := FailedTerminal, error := Some(AttemptsExhausted)));
        attempt := None;
      } else {
        stage := stage.(attempts := stage.attempts + [NewAttempt(None, lease)]);
        stage := stage.(state := Leased);
        task := WithStage(task, s, stage).(last := Some(now));
        attempt := Some(number - 1);
      }
      tasks := tasks[t := task];
    }

    /** One row of the queue: allocate, then lease. */
    method TryRow(t: nat, s: nat, now: Time, capacities: Capacities) returns (item: Option<Item>)
      requires WellFormed(Tables()) && t < |tasks| && s < STAGE_COUNT
      modifies this
      ensures Dispatch(Tables(), item) == RowOutcome(old(Tables()), Row(t, s), now, capacities)
    {
      var resources := AllocateResources(tasks[t].project, StageResources(s), capacities);
      if resources.None? { return None; }
      var lease := Lease(nextToken, resources.value, now + leaseSeconds, None, false);
      var attempt: Option<nat>;
      if s == IMAGE_EDIT {
        attempt := LeaseCandidate(t, now, lease);
      } else {
        attempt := LeaseStage(t, s, now, lease);
      }
      if attempt.None? { return None; }
      item := Some(Item(t, s, attempt.value, nextToken));
      nextToken := nextToken + 1;
    }

    /** The search loop: the first row that can be leased is. */
    method ScanRows(rows: seq<Row>, now: Time, capacities: Capacities) returns (item: Option<Item>)
      requires WellFormed(Tables()) && RowsInRange(Tables(), rows)
      modifies this
      ensures Dispatch(Tables(), item) == Scan(old(Tables()), rows, now, capacities)
    {
      ghost var before := Tables();
      var i := 0;
      item := None;
      assert rows[0..] == rows;
      while i < |rows| && item.None?
        invariant 0 <= i <= |rows| && WellFormed(Tables()) && RowsInRange(Tables(), rows)
        invariant item.Some? ==> Scan(before, rows, now, capacities) == Dispatch(Tables(), item)
        invariant item.None? ==> Scan(before, rows, now, capacities) == Scan(Tables(), rows[i..], now, capacities)
        decreases |rows| - i
      {
        ScanByRow(Tables(), rows, i, now, capacities);
        item := TryRow(rows[i].task, rows[i].stage, now, capacities);
        i := i + 1;
      }
    }

    method LeaseNext(now: Time, capacities: Capacities, f: Filter) returns (item: Option<Item>, ghost queue: seq<Row>)
      requires WellFormed(Tables())
      modifies this
      ensures Tables() == Step(old(Tables()), Op.LeaseNext(now, capacities, f, queue))
      ensures item == ItemOf(old(Tables()), Op.LeaseNext(now, capacities, f, queue))
      ensures old(status).BatchRunning? ==> Calls(old(Tables()), Op.LeaseNext(now, capacities, f, queue))
    {
      if status != BatchRunning { return None, []; }
      RefreshReady();
      var rows := SelectQueue(now, f);
      queue := rows;
      QueueInRange(Tables(), now, f, rows);
      item := ScanRows(rows, now, capacities);
    }

    // -------------------------------------------------------------- aggregate status

    /** Cancel the remaining finalizers once no complete evaluation is possible. */
    method SkipIncompleteEvaluation()
      requires WellFormed(Tables())
      modifies this`tasks
      ensures Tables() == SkipIncomplete(old(Tables())) && WellFormed(Tables())
    {
      var atBoundary, lost := tasks != [], false;
      for t := 0 to |tasks|
        invariant atBoundary <==> tasks != [] && forall u :: 0 <= u < t ==> AtBoundary(tasks[u])
        invariant lost <==> exists u :: 0 <= u < t && AnyLost(tasks[u])
      {
        if !AtBoundary(tasks[t]) { atBoundary := false; }
        if AnyLost(tasks[t]) { lost := true; }
      }
      if !atBoundary || !lost { return; }
      ghost var before := Tables();
      for t := 0 to |tasks|
        invariant |tasks| == |before.tasks|
        invariant forall u :: 0 <= u < t ==> tasks[u] == SkippedEvaluation(before.tasks[u])
        invariant forall u :: t <= u < |tasks| ==> tasks[u] == before.tasks[u]
      {
        var stage := tasks[t].stages[EVALUATE_ABSOLUTE];
        if stage.state.Ready? {
          tasks := tasks[t := WithStage(tasks[t], EVALUATE_ABSOLUTE, stage.(state := Canceled, error := Some(EvaluationSkipped)))];
        }
      }
      assert tasks == SkipIncomplete(before).tasks;
    }

    method UpdateAggregateStatus()
      requires WellFormed(Tables())
      modifies this`tasks, this`status
      ensures Tables() == Aggregated(old(Tables())) && WellFormed(Tables())
    {
      SkipIncompleteEvaluation();
      ghost var skipped := Tables();
      var statuses: set<TaskStatus> := {};
      for t := 0 to |tasks|
        invariant |tasks| == |skipped.tasks| && WellFormed(Tables()) && status == skipped.status
        invariant forall u :: 0 <= u < t ==> tasks[u] == skipped.tasks[u].(status := StatusOf(skipped.tasks[u]))
        invariant forall u :: t <= u < |tasks| ==> tasks[u] == skipped.tasks[u]
        invariant statuses == set u | 0 <= u < t :: tasks[u].status
      {
        var x := StatusOf(tasks[t]);
        tasks := tasks[t := tasks[t].(status := x)];
        statuses := statuses + {x};
      }
      assert tasks == Restated(skipped).tasks;
      status := BatchStatusOf(statuses);
    }

    method Start()
      requires WellFormed(Tables())
      modifies this`tasks, this`status
      ensures Tables() == Step(old(Tables()), Op.Start)
    {
      if status != Planned && status != BatchRunning { return; }
      ghost var before := Tables();
      status := BatchRunning;
      for t := 0 to |tasks|
        invariant |tasks| == |before.tasks| && status == BatchRunning
        invariant forall u :: 0 <= u < t ==> tasks[u] == Step(before, Op.Start).tasks[u]
        invariant forall u :: t <= u < |tasks| ==> tasks[u] == before.tasks[u]
      {
        if tasks[t].status.TaskPending? { tasks := tasks[t := tasks[t].(status := TaskRunning)]; }
      }
      assert tasks == Step(before, Op.Start).tasks;
    }

    /** The end of most transactions: promote what became ready, then restate the aggregates. */
    method Settle()
      requires WellFormed(Tables())
      modifies this`tasks, this`status
      ensures Tables() == Aggregated(RefreshAll(old(Tables())))
    {
      RefreshReady();
      UpdateAggregateStatus();
    }

    method Refresh()
      requires WellFormed(Tables())
      modifies this`tasks, this`status
      ensures Tables() == Step(old(Tables()), Op.Refresh)
    {
      Settle();
    }

    // -------------------------------------------------------------- worker reports

    /** The guard of every write a worker makes: a live lease of the stage with the token. */
    method RequireLease(item: Item, now: Time) returns (held: bool)
      ensures held == StageHoldsToken(Tables(), item, now)
    {
      held := false;
      for a := 0 to StageRows(Tables(), item)
        invariant held <==> exists b: nat :: b < a && HoldsLease(tasks[item.task], item.(attempt := b), now)
      {
        var lease := tasks[item.task].stages[item.stage].attempts[a].lease;
        if lease.Some? && lease.value.token == item.token && !lease.value.revoked && now < lease.value.expiresAt {
          assert HoldsLease(tasks[item.task], item.(attempt := a), now);
          held := true;
        }
      }
    }

    method RequireItem(item: Item, now: Time) returns (held: bool)
      ensures held == OwnsItem(Tables(), item, now)
    {
      held := RequireLease(item, now);
      if held {
        held := HoldsLease(tasks[item.task], item, now);
      } else {
        assert item.(attempt := item.attempt) == item;
      }
    }

    /** UPDATE of one attempt row. */
    method UpdateAttempt(t: nat, s: nat, a: nat, x: Attempt)
      requires t < |tasks| && ValidKey(tasks[t], s, a)
      modifies this`tasks
      ensures tasks == old(tasks)[t := WithStage(old(tasks)[t], s, WithAttempt(old(tasks)[t].stages[s], a, x))]
    {
      var stage := tasks[t].stages[s];
      stage := stage.(attempts := stage.attempts[a := x]);
      tasks := tasks[t := tasks[t].(stages := tasks[t].stages[s := stage])];
    }

    /** UPDATE of one stage row. */
    method UpdateStage(t: nat, s: nat, x: Stage)
      requires t < |tasks| && s < |tasks[t].stages|
      modifies this`tasks
      ensures tasks == old(tasks)[t := WithStage(old(tasks)[t], s, x)]
    {
      tasks := tasks[t := tasks[t].(stages := tasks[t].stages[s := x])];
    }

    method MarkRunning(item: Item, now: Time, boot: nat) returns (ok: bool)
      requires WellFormed(Tables())
      modifies this`tasks
      ensures ok == OwnsItem(old(Tables()), item, now)
      ensures Tables() == Step(old(Tables()), Op.MarkRunning(item, now, boot))
    {
      ok := RequireItem(item, now);
      if !ok { return; }
      var t, s, a := item.task, item.stage, item.attempt;
      var row := tasks[t].stages[s].attempts[a];
      row := row.(lease := Some(row.lease.value.(boot := Some(boot), expiresAt := now + leaseSeconds)));
      UpdateAttempt(t, s, a, row);
      UpdateAttempt(t, s, a, row.(status := InState(Running)));
      UpdateStage(t, s, tasks[t].stages[s].(state := Running));
      RowsWritten(old(tasks)[t], s, a, tasks[t], MarkedRunning(old(tasks)[t], item, now, boot, leaseSeconds));
    }

    method Heartbeat(item: Item, now: Time) returns (ok: bool)
      requires WellFormed(Tables())
      modifies this`tasks
      ensures ok == OwnsItem(old(Tables()), item, now)
      ensures Tables() == Step(old(Tables()), Op.Beat(item, now))
    {
      ok := RequireItem(item, now);
      if !ok { return; }
      var row := tasks[item.task].stages[item.stage].attempts[item.attempt];
      UpdateAttempt(item.task, item.stage, item.attempt, row.(lease := Some(row.lease.value.(expiresAt := now + leaseSeconds))));
    }

    /** `staged`: every artifact is a file of the staging directory with the declared digest and size. An
        empty list or a file that is not raises before the lease is looked at. */
    method PrepareArtifactCommit(item: Item, now: Time, artifacts: seq<Artifact>, staged: bool) returns (r: Submission)
      requires WellFormed(Tables())
      modifies this`tasks
      ensures r.Escaped? <==> artifacts == [] || !staged
      ensures r.Stored? <==> artifacts != [] && staged && item.task < |old(tasks)| && CanPrepare(old(tasks)[item.task], item, now)
      ensures Tables() == if staged then Step(old(Tables()), Op.Prepare(item, now, artifacts)) else old(Tables())
    {
      if artifacts == [] || !staged { return Escaped; }
      var ok := RequireItem(item, now);
      if !ok { return Refused; }
      var t, s, a := item.task, item.stage, item.attempt;
      var row := tasks[t].stages[s].attempts[a];
      if row.commit.Some? { return Refused; }
      row := row.(commit := Some(Commit(Prepared, artifacts)));
      UpdateAttempt(t, s, a, row);
      UpdateAttempt(t, s, a, row.(status := InState(Committing)));
      UpdateStage(t, s, tasks[t].stages[s].(state := Committing));
      RowsWritten(old(tasks)[t], s, a, tasks[t], PreparedTask(old(tasks)[t], s, a, artifacts));
      r := Stored;
    }

    /** The mark that ends the publication of an attempt's files. */
    method MarkPublished(t: nat, s: nat, a: nat)
      requires t < |tasks| && ValidKey(tasks[t], s, a) && tasks[t].stages[s].attempts[a].commit.Some?
      modifies this`tasks
      ensures tasks == old(tasks)[t := PublishedTask(old(tasks)[t], s, a)]
    {
      var row := tasks[t].stages[s].attempts[a];
      if !row.commit.value.state.Committed? {
        UpdateAttempt(t, s, a, row.(commit := Some(row.commit.value.(state := Published))));
      }
    }

    /** Publishing the files of a recorded intent. Files that cannot be moved or do not check out raise past
        the caller's handler. */
    method PublishCommitFiles(k: Key, files: Publication) returns (r: Submission)
      requires WellFormed(Tables())
      modifies this`tasks
      ensures r.Stored? <==> files.FilesPublished? && HasCommit(old(Tables()), k)
      ensures r.Escaped? <==> files.FilesUnusable? && HasCommit(old(Tables()), k)
      ensures Tables() == if files.FilesPublished? then Step(old(Tables()), Op.PublishFiles(k)) else old(Tables())
    {
      if !HasCommit(Tables(), k) { return Refused; }
      match files {
        case FilesPublished =>
          MarkPublished(k.0, k.1, k.2);
          r := Stored;
        case DirectoriesClash => r := Refused;
        case FilesUnusable => r := Escaped;
      }
    }

    /** Record the artifacts, settle the attempt and its candidate, close the intent and drop the lease. */
    method FinalizeRow(t: nat, s: nat, a: nat)
      requires t < |tasks| && |tasks[t].stages| == STAGE_COUNT && ValidKey(tasks[t], s, a)
      requires tasks[t].stages[s].attempts[a].commit.Some?
      modifies this`tasks
      ensures tasks == old(tasks)[t := FinalizedTask(old(tasks)[t], s, a, automatic)]
    {
      var task := tasks[t];
      var stage := task.stages[s];
      var row := stage.attempts[a];
      row := row.(artifacts := row.commit.value.artifacts);
      row := row.(status := InState(Succeeded));
      var complete := true;
      if s == IMAGE_EDIT && row.candidate.Some? {
        var c := row.candidate.value;
        var gens: seq<Gen> := [];
        if c.group < |task.groups| {
          gens := task.groups[c.group];
          if c.index < |gens| {
            gens := gens[c.index := gens[c.index].(status := GenSucceeded, image := HasImage(row.commit.value.artifacts))];
            task := task.(groups := task.groups[c.group := gens]);
          }
        }
        complete := CountSucceeded(gens) >= task.generations || !AnyUnfinished(gens);
      }
      stage := stage.(state := if complete then Succeeded else Ready, error := None);
      row := row.(commit := Some(row.commit.value.(state := Committed)));
      row := row.(lease := None);
      stage := stage.(attempts := stage.attempts[a := row]);
      task := WithStage(task, s, stage);
      if s == IMAGE_EDIT && complete {
        task := AddReview(task, a, automatic);
      }
      tasks := tasks[t := task];
    }

    /** The transaction that ends a publication. Without a clock it accepts an expired lease. */
    method FinalizeArtifactCommit(t: nat, s: nat, a: nat, now: Option<Time>) returns (ok: bool)
      requires WellFormed(Tables()) && t < |tasks|
      modifies this`tasks, this`status
      ensures ok == CanFinalize(old(tasks)[t], s, a, now)
      ensures Tables() == if ok then Completed(old(Tables()), (t, s, a), old(tasks)[t]) else old(Tables())
    {
      ok := CanFinalize(tasks[t], s, a, now);
      if !ok { return; }
      FinalizeRow(t, s, a);
      Settle();
    }

    method Finalize(item: Item, now: Time) returns (ok: bool)
      requires WellFormed(Tables())
      modifies this`tasks, this`status
      ensures ok <==> OwnsItem(old(Tables()), item, now) && CanFinalize(old(tasks)[item.task], item.stage, item.attempt, Some(now))
      ensures Tables() == Step(old(Tables()), Op.Finalize(item, now))
    {
      ok := RequireItem(item, now);
      if ok { ok := FinalizeArtifactCommit(item.task, item.stage, item.attempt, Some(now)); }
    }

    /** The diversion: cancel what cannot run any more and make the debug bundle ready. */
    method RouteDebugBundle(t: nat, failed: nat, code: ErrorCode)
      requires t < |tasks| && |tasks[t].stages| == STAGE_COUNT
      modifies this`tasks
      ensures tasks == old(tasks)[t := Transitions.RouteDebugBundle(old(tasks)[t], failed, code)]
    {
      if !(MODEL_GENERATION <= failed <= SAGS_SEGMENT_VOTE) { return; }
      ghost var before := tasks[t];
      for i := 0 to STAGE_COUNT
        invariant |tasks| == |old(tasks)| && tasks == old(tasks)[t := tasks[t]]
        invariant |tasks[t].stages| == STAGE_COUNT && tasks[t] == before.(stages := tasks[t].stages)
        invariant forall j :: 0 <= j < i ==> tasks[t].stages[j] == Rerouted(before.stages[j], j, failed, code)
        invariant forall j :: i <= j < STAGE_COUNT ==> tasks[t].stages[j] == before.stages[j]
      {
        var stage := tasks[t].stages[i];
        if failed < i < DEBUG_BUNDLE || DOWNLOAD_RESULTS < i {
          if stage.state.Pending? || stage.state.Ready? {
            UpdateStage(t, i, stage.(state := Canceled, error := Some(UpstreamFailed)));
          }
        } else if i == DEBUG_BUNDLE && stage.state.Pending? {
          UpdateStage(t, i, stage.(state := Ready, error := Some(code)));
        }
      }
      assert tasks[t].stages == Transitions.RouteDebugBundle(before, failed, code).stages;
    }

    /** The cascade that turns a report into the attempt's next state. */
    method Verdict(r: Report, mayRetry: bool) returns (verdict: StageState)
      ensures verdict == FailVerdict(r.cleanup, r.status, r.code, mayRetry)
    {
      if !r.cleanup { return Recovering; }
      match r.status {
        case Some(StatusCanceled) => return Canceled;
        case Some(StatusRejected) => return Rejected;
        case Some(StatusTerminal) => return FailedTerminal;
        case _ =>
      }
      if r.code.DeliveryUnknown? { return WaitingManual; }
      if r.status == Some(StatusRetryable) && mayRetry { return Ready; }
      if r.code.QualityRejected? { return Rejected; }
      if TerminalError(r.code) { return FailedTerminal; }
      verdict := if RetryableError(r.code) && mayRetry then Ready else FailedTerminal;
    }

    /** The candidate's share of a failure: its generation row, and what becomes of the group. */
    method FailCandidateRow(t: nat, a: nat, now: Time, r: Report, verdict: StageState)
      requires t < |tasks| && |tasks[t].stages| == STAGE_COUNT && ValidKey(tasks[t], IMAGE_EDIT, a)
      requires tasks[t].stages[IMAGE_EDIT].attempts[a].candidate.Some?
      requires verdict == FailVerdict(r.cleanup, r.status, r.code, MayRetry(tasks[t], IMAGE_EDIT, a))
      modifies this`tasks
      ensures tasks == old(tasks)[t := FailCandidate(old(tasks)[t], a, now, r, automatic)]
    {
      var task := tasks[t];
      var stage := task.stages[IMAGE_EDIT];
      var row := stage.attempts[a].(status := InState(verdict));
      var notBefore := if verdict.Ready? then Transitions.Backoff(now, r.retryAfter) else 0.0;
      var c := row.candidate.value;
      var gens: seq<Gen> := [];
      if c.group < |task.groups| {
        gens := task.groups[c.group];
        if c.index < |gens| {
          gens := gens[c.index := gens[c.index].(status := if verdict.Ready? then GenRetryable else GenTerminal)];
          task := task.(groups := task.groups[c.group := gens]);
        }
      }
      var complete := CountSucceeded(gens) >= task.generations || !AnyUnfinished(gens);
      var partial := false;
      var state := verdict;
      if verdict.WaitingManual? {
        complete := false;
      } else {
        partial := complete && verdict.FailedTerminal? && CountSucceeded(gens) > 0;
        if partial { state := Succeeded; }
      }
      if !complete && state.FailedTerminal? {
        state := Ready;
        notBefore := 0.0;
      }
      row := row.(lease := Released(row, r.cleanup));
      stage := stage.(attempts := stage.attempts[a := row]);
      stage := stage.(state := state, notBefore := notBefore, error := Some(r.code));
      task := WithStage(task, IMAGE_EDIT, stage);
      if partial { task := AddReview(task, LatestSucceeded(gens), automatic); }
      tasks := tasks[t := task];
    }

    /** The attempt and stage rows of a plain failure. */
    method FailStageRow(t: nat, s: nat, a: nat, now: Time, r: Report, verdict: StageState)
      requires t < |tasks| && |tasks[t].stages| == STAGE_COUNT && ValidKey(tasks[t], s, a)
      requires verdict == FailVerdict(r.cleanup, r.status, r.code, MayRetry(tasks[t], s, a))
      modifies this`tasks
      ensures tasks == old(tasks)[t := FailedRows(old(tasks)[t], s, a, now, r)]
    {
      var row := tasks[t].stages[s].attempts[a];
      UpdateAttempt(t, s, a, row.(status := InState(verdict)));
      UpdateStage(t, s, tasks[t].stages[s].(
        state := verdict,
        notBefore := if verdict.Ready? then Transitions.Backoff(now, r.retryAfter) else 0.0,
        error := Some(r.code)));
      UpdateAttempt(t, s, a, tasks[t].stages[s].attempts[a].(lease := Released(row, r.cleanup)));
      FailedRow(old(tasks)[t], s, a, now, r, tasks[t]);
    }

    method FailRow(t: nat, s: nat, a: nat, now: Time, r: Report)
      requires t < |tasks| && |tasks[t].stages| == STAGE_COUNT && ValidKey(tasks[t], s, a)
      modifies this`tasks
      ensures tasks == old(tasks)[t := FailTask(old(tasks)[t], s, a, now, r, automatic)]
    {
      var verdict := Verdict(r, MayRetry(tasks[t], s, a));
      if s == IMAGE_EDIT && tasks[t].stages[s].attempts[a].candidate.Some? {
        FailCandidateRow(t, a, now, r, verdict);
      } else {
        FailStageRow(t, s, a, now, r, verdict);
        if verdict.FailedTerminal? || verdict.Rejected? {
          RouteDebugBundle(t, s, r.code);
        }
      }
    }

    method Fail(item: Item, now: Time, r: Report) returns (ok: bool)
      requires WellFormed(Tables())
      modifies this`tasks, this`status
      ensures ok == OwnsItem(old(Tables()), item, now)
      ensures Tables() == Step(old(Tables()), Op.Fail(item, now, r))
    {
      ok := RequireItem(item, now);
      if !ok { return; }
      FailShape(tasks[item.task], item.stage, item.attempt, now, r, automatic);
      FailRow(item.task, item.stage, item.attempt, now, r);
      UpdateAggregateStatus();
    }

    // -------------------------------------------------------------- reconciliation

    /** The reconciliation query. */
    method SelectUnsettled() returns (rows: seq<Key>)
      requires WellFormed(Tables())
      ensures IsUnsettledList(Tables(), rows)
    {
      rows := [];
      for t := 0 to |tasks|
        invariant forall k :: k in rows <==> k.0 < t && Unsettled(Tables(), k)
        invariant forall i, j :: 0 <= i < j < |rows| ==> rows[i] != rows[j]
      {
        for s := 0 to STAGE_COUNT
          invariant forall k :: k in rows <==> (k.0 < t || (k.0 == t && k.1 < s)) && Unsettled(Tables(), k)
          invariant forall i, j :: 0 <= i < j < |rows| ==> rows[i] != rows[j]
        {
          for a := 0 to |tasks[t].stages[s].attempts|
            invariant forall k :: k in rows <==> (k.0 < t || (k.0 == t && (k.1 < s || (k.1 == s && k.2 < a)))) && Unsettled(Tables(), k)
            invariant forall i, j :: 0 <= i < j < |rows| ==> rows[i] != rows[j]
          {
            if OpenIntent(tasks[t], s, a) {
              assert (t, s, a) !in rows;
              rows := rows + [(t, s, a)];
            }
          }
        }
      }
      forall i | 0 <= i < |rows| ensures Unsettled(Tables(), rows[i]) {
        assert rows[i] in rows;
      }
    }

    /** DELETE of every lease of a stage. */
    method DeleteLeases(t: nat, s: nat)
      requires t < |tasks| && s < |tasks[t].stages|
      modifies this`tasks
      ensures tasks == old(tasks)[t := WithStage(old(tasks)[t], s, WithoutLeases(old(tasks)[t].stages[s]))]
    {
      var stage := tasks[t].stages[s];
      var attempts := stage.attempts;
      for a := 0 to |attempts|
        invariant |attempts| == |stage.attempts|
        invariant forall b :: 0 <= b < a ==> attempts[b] == stage.attempts[b].(lease := None)
        invariant forall b :: a <= b < |attempts| ==> attempts[b] == stage.attempts[b]
      {
        attempts := attempts[a := attempts[a].(lease := None)];
      }
      assert attempts == WithoutLeases(stage).attempts;
      UpdateStage(t, s, stage.(attempts := attempts));
    }

    /** UPDATE of every lease of a stage: revoked. */
    method RevokeLeases(t: nat, s: nat)
      requires t < |tasks| && s < |tasks[t].stages|
      modifies this`tasks
      ensures tasks == old(tasks)[t := WithStage(old(tasks)[t], s, WithRevokedLeases(old(tasks)[t].stages[s]))]
    {
      var stage := tasks[t].stages[s];
      var attempts := stage.attempts;
      for a := 0 to |attempts|
        invariant |attempts| == |stage.attempts|
        invariant forall b :: 0 <= b < a ==> attempts[b] == stage.attempts[b].(lease := Revoke(stage.attempts[b].lease))
        invariant forall b :: a <= b < |attempts| ==> attempts[b] == stage.attempts[b]
      {
        if attempts[a].lease.Some? {
          attempts := attempts[a := attempts[a].(lease := Some(attempts[a].lease.value.(revoked := true)))];
        }
      }
      assert attempts == WithRevokedLeases(stage).attempts;
      UpdateStage(t, s, stage.(attempts := attempts));
    }

    method FailArtifactCommit(t: nat, s: nat, a: nat)
      requires t < |tasks| && ValidKey(tasks[t], s, a) && tasks[t].stages[s].attempts[a].commit.Some?
      modifies this`tasks
      ensures tasks == old(tasks)[t := CommitFailedTask(old(tasks)[t], s, a)]
    {
      var row := tasks[t].stages[s].attempts[a];
      if row.commit.value.state.Committed? { return; }
      row := row.(commit := Some(row.commit.value.(state := CommitFailed)));
      row := row.(status := InState(FailedTerminal));
      UpdateAttempt(t, s, a, row);
      DeleteLeases(t, s);
      UpdateStage(t, s, tasks[t].stages[s].(state := FailedTerminal, error := Some(ArtifactCommitRecovery)));
      assert tasks[t].stages == CommitFailedTask(old(tasks)[t], s, a).stages;
    }

    /** Finalize a published intent without a clock; a refusal fails it. */
    method CompleteOrFail(k: Key)
      requires WellFormed(Tables()) && ValidAt(Tables(), k) && tasks[k.0].stages[k.1].attempts[k.2].commit.Some?
      modifies this`tasks, this`status
      ensures Tables() == if CanFinalize(old(tasks)[k.0], k.1, k.2, None) then Completed(old(Tables()), k, old(tasks)[k.0])
                          else WithTask(old(Tables()), k.0, CommitFailedTask(old(tasks)[k.0], k.1, k.2))
    {
      var ok := FinalizeArtifactCommit(k.0, k.1, k.2, None);
      if !ok { FailArtifactCommit(k.0, k.1, k.2); }
    }

    /** Publish and finalize one intent again; a refusal fails it. */
    method ReconcileRow(k: Key, filesAgree: bool)
      requires WellFormed(Tables())
      modifies this`tasks, this`status
      ensures Tables() == ReconcileOne(old(Tables()), k, filesAgree)
    {
      if !ValidAt(Tables(), k) || tasks[k.0].stages[k.1].attempts[k.2].commit.None? { return; }
      if !filesAgree {
        FailArtifactCommit(k.0, k.1, k.2);
        return;
      }
      ghost var before := Tables();
      MarkPublished(k.0, k.1, k.2);
      if tasks[k.0].stages[k.1].attempts[k.2].commit.value.state.Committed? {
        SameTask(before, k.0);
        return;
      }
      PublishedShape(before, k);
      CompleteOrFail(k);
      PublishedFirst(before, k);
    }

    method ReconcileArtifactCommits(agree: set<Key>) returns (ghost rows: seq<Key>)
      requires WellFormed(Tables())
      modifies this`tasks, this`status
      ensures IsUnsettledList(old(Tables()), rows)
      ensures Tables() == Step(old(Tables()), Op.Reconcile(rows, agree)) == Reconciled(old(Tables()), rows, agree)
    {
      ghost var before := Tables();
      var unsettled := SelectUnsettled();
      rows := unsettled;
      assert unsettled[0..] == unsettled;
      for i := 0 to |unsettled|
        invariant WellFormed(Tables())
        invariant Reconciled(before, rows, agree) == Reconciled(Tables(), unsettled[i..], agree)
      {
        assert unsettled[i..][0] == unsettled[i] && unsettled[i..][1..] == unsettled[i + 1..];
        ReconcileRow(unsettled[i], unsettled[i] in agree);
      }
    }

    // -------------------------------------------------------------- expiry

    predicate LeaseExpiredAt(k: Key, now: Time, boot: nat)
      reads this
    {
      LeaseAt(Tables(), k).Some? && Expired(LeaseAt(Tables(), k).value, now, boot)
    }

    /** The expiry query, with what the process cleanup and the two lookups by stage will return. */
    method SelectExpired(now: Time, boot: nat, cleaned: set<Key>, first: map<Key, nat>, second: map<Key, nat>)
      returns (rows: seq<Expiry>)
      requires WellFormed(Tables())
      ensures IsExpiredList(Tables(), rows, now, boot)
      ensures forall i :: 0 <= i < |rows| ==> (rows[i].cleanup <==> CleanupDone(Tables(), rows[i].key, boot, cleaned))
    {
      rows := [];
      ghost var keys: set<Key> := {};
      for t := 0 to |tasks|
        invariant forall k :: k in keys <==> k.0 < t && LeaseExpiredAt(k, now, boot)
        invariant forall k :: k in keys <==> exists i :: 0 <= i < |rows| && rows[i].key == k
        invariant forall i, j :: 0 <= i < j < |rows| ==> rows[i].key != rows[j].key
        invariant forall i :: 0 <= i < |rows| ==> (rows[i].cleanup <==> CleanupDone(Tables(), rows[i].key, boot, cleaned))
      {
        for s := 0 to STAGE_COUNT
          invariant forall k :: k in keys <==> (k.0 < t || (k.0 == t && k.1 < s)) && LeaseExpiredAt(k, now, boot)
          invariant forall k :: k in keys <==> exists i :: 0 <= i < |rows| && rows[i].key == k
          invariant forall i, j :: 0 <= i < j < |rows| ==> rows[i].key != rows[j].key
          invariant forall i :: 0 <= i < |rows| ==> (rows[i].cleanup <==> CleanupDone(Tables(), rows[i].key, boot, cleaned))
        {
          for a := 0 to |tasks[t].stages[s].attempts|
            invariant forall k :: k in keys <==> (k.0 < t || (k.0 == t && (k.1 < s || (k.1 == s && k.2 < a)))) && LeaseExpiredAt(k, now, boot)
            invariant forall k :: k in keys <==> exists i :: 0 <= i < |rows| && rows[i].key == k
            invariant forall i, j :: 0 <= i < j < |rows| ==> rows[i].key != rows[j].key
            invariant forall i :: 0 <= i < |rows| ==> (rows[i].cleanup <==> CleanupDone(Tables(), rows[i].key, boot, cleaned))
          {
            if LeaseExpiredAt((t, s, a), now, boot) {
              var k: Key := (t, s, a);
              assert k !in keys;
              var e := Expiry(k, CleanupDone(Tables(), k, boot, cleaned), if k in first then first[k] else a, if k in second then second[k] else a);
              ghost var shorter := rows;
              rows := rows + [e];
              keys := keys + {k};
              forall q ensures q in keys <==> exists i :: 0 <= i < |rows| && rows[i].key == q {
                if q == k { assert rows[|shorter|].key == q; }
                if q in keys && q != k {
                  var i :| 0 <= i < |shorter| && shorter[i].key == q;
                  assert rows[i].key == q;
                }
              }
            }
          }
        }
      }
      forall i | 0 <= i < |rows|
        ensures LeaseAt(Tables(), rows[i].key).Some? && Expired(LeaseAt(Tables(), rows[i].key).value, now, boot)
      {
        assert rows[i].key in keys;
        assert LeaseExpiredAt(rows[i].key, now, boot);
      }
      forall k: Key | LeaseAt(Tables(), k).Some? && Expired(LeaseAt(Tables(), k).value, now, boot)
        ensures exists i :: 0 <= i < |rows| && rows[i].key == k
      {
        assert LeaseExpiredAt(k, now, boot);
        assert k in keys;
      }
    }

    /** One expired lease: revoke it, then settle or fence its attempt. */
    method ExpireRow(e: Expiry)
      requires WellFormed(Tables())
      modifies this`tasks
      ensures Tables() == ExpireOne(old(Tables()), e)
    {
      var (t, s, a) := e.key;
      if LeaseAt(Tables(), e.key).None? { return; }
      if !Seen(tasks[t], s, e.first) || !Seen(tasks[t], s, e.second) { return; }
      ghost var before := tasks[t];
      var token := tasks[t].stages[s].attempts[a].lease.value.token;
      var current := LeaseOf(tasks[t], s, e.first).value;
      if current.token != token || current.revoked { SameTask(Tables(), t); return; }
      RevokeLeases(t, s);
      current := LeaseOf(tasks[t], s, e.second).value;
      if current.token != token { return; }
      var row := tasks[t].stages[s].attempts[a];
      if RemoteProcessStage(s) {
        UpdateAttempt(t, s, a, row.(status := InState(Recovering)));
        UpdateStage(t, s, tasks[t].stages[s].(state := Recovering, error := Some(DeliveryUnknown)));
      } else {
        var next := if e.cleanup && a + 1 < tasks[t].stages[s].maxAttempts then Ready else FailedTerminal;
        UpdateAttempt(t, s, a, row.(status := LeaseExpired));
        UpdateStage(t, s, tasks[t].stages[s].(state := next, error := Some(WorkerLost)));
        if e.cleanup { DeleteLeases(t, s); }
      }
      assert tasks[t].stages == ExpiredTask(before, s, a, e.cleanup, e.first, e.second).stages;
    }

    method ExpireRows(rows: seq<Expiry>)
      requires WellFormed(Tables())
      modifies this`tasks
      ensures Tables() == ExpireAll(old(Tables()), rows)
    {
      ghost var before := Tables();
      assert rows[0..] == rows;
      for i := 0 to |rows|
        invariant WellFormed(Tables())
        invariant ExpireAll(before, rows) == ExpireAll(Tables(), rows[i..])
      {
        assert rows[i..][0] == rows[i] && rows[i..][1..] == rows[i + 1..];
        ExpireRow(rows[i]);
      }
    }

    method RecoverExpired(agree: set<Key>, now: Time, boot: nat, cleaned: set<Key>, first: map<Key, nat>, second: map<Key, nat>)
      returns (ghost rows: seq<Key>, ghost expired: seq<Expiry>)
      requires WellFormed(Tables())
      modifies this`tasks, this`status
      ensures IsUnsettledList(old(Tables()), rows) && IsExpiredList(Reconciled(old(Tables()), rows, agree), expired, now, boot)
      ensures forall i :: 0 <= i < |expired| ==>
                (expired[i].cleanup <==> CleanupDone(Reconciled(old(Tables()), rows, agree), expired[i].key, boot, cleaned))
      ensures Tables() == Step(old(Tables()), Op.RecoverExpired(rows, agree, now, boot, expired))
    {
      ghost var before := Tables();
      rows := ReconcileArtifactCommits(agree);
      var list := SelectExpired(now, boot, cleaned, first, second);
      expired := list;
      ExpireRows(list);
      UpdateAggregateStatus();
      RecoveryStep(before, rows, agree, now, boot, list);
    }

    // -------------------------------------------------------------- explicit recovery

    method ReactivateRecoveringItem(item: Item, now: Time) returns (ok: bool)
      requires WellFormed(Tables())
      modifies this`tasks
      ensures ok == RecoversItem(old(Tables()), item)
      ensures Tables() == Step(old(Tables()), Op.Reactivate(item, now))
    {
      ok := RecoversItem(Tables(), item);
      if !ok { return; }
      var t, s, a := item.task, item.stage, item.attempt;
      var row := tasks[t].stages[s].attempts[a];
      row := row.(lease := Some(row.lease.value.(revoked := false, expiresAt := now + leaseSeconds)));
      UpdateAttempt(t, s, a, row);
      UpdateAttempt(t, s, a, row.(status := InState(Leased)));
      UpdateStage(t, s, tasks[t].stages[s].(state := Leased, error := None));
      RowsWritten(old(tasks)[t], s, a, tasks[t], Reactivated(old(tasks)[t], item, now, leaseSeconds));
    }

    method ResolveRow(item: Item, action: Settlement)
      requires RecoversItem(Tables(), item) && |tasks[item.task].stages| == STAGE_COUNT
      modifies this`tasks
      ensures tasks == old(tasks)[item.task := Resolved(old(tasks)[item.task], item, action)]
    {
      var t, s, a := item.task, item.stage, item.attempt;
      ghost var before := tasks[t];
      var row := tasks[t].stages[s].attempts[a];
      if action.RetryAttempt? {
        UpdateAttempt(t, s, a, row.(status := FailedRetryable));
        var stage := tasks[t].stages[s];
        UpdateStage(t, s, stage.(state := Ready, notBefore := 0.0, error := Some(RemoteStoppedRetry),
          maxAttempts := if stage.maxAttempts < a + 2 then a + 2 else stage.maxAttempts));
        UpdateAttempt(t, s, a, row.(status := FailedRetryable, lease := None));
        RowsWritten(before, s, a, tasks[t], Resolved(before, item, action));
      } else {
        UpdateAttempt(t, s, a, row.(status := InState(FailedTerminal)));
        UpdateStage(t, s, tasks[t].stages[s].(state := FailedTerminal, notBefore := 0.0, error := Some(RemoteStoppedTerminal)));
        UpdateAttempt(t, s, a, row.(status := InState(FailedTerminal), lease := None));
        RowsWritten(before, s, a, tasks[t], TerminatedRow(before, item));
        RouteDebugBundle(t, s, RemoteStoppedTerminal);
      }
    }

    method ResolveAndSettle(item: Item, action: Settlement)
      requires WellFormed(Tables()) && RecoversItem(Tables(), item)
      modifies this`tasks, this`status
      ensures Tables() == Aggregated(RefreshAll(WithTask(old(Tables()), item.task, Resolved(old(tasks)[item.task], item, action))))
    {
      ghost var before := Tables();
      ResolveRow(item, action);
      ResolvedShape(before.tasks[item.task], item, action);
      assert Tables() == WithTask(before, item.task, Resolved(before.tasks[item.task], item, action));
      Settle();
    }

    method ResolveRecoveringItem(item: Item, action: Settlement) returns (ok: bool)
      requires WellFormed(Tables())
      modifies this`tasks, this`status
      ensures ok == RecoversItem(old(Tables()), item)
      ensures Tables() == Step(old(Tables()), Op.Resolve(item, action))
    {
      ResolveStep(Tables(), item, action);
      ok := RecoversItem(Tables(), item);
      if ok { ResolveAndSettle(item, action); }
    }

    // -------------------------------------------------------------- operators

    /** First pass of cancel over one stage: canceled, its leases revoked. */
    method CancelStage(t: nat, s: nat)
      requires t < |tasks| && s < |tasks[t].stages|
      modifies this`tasks
      ensures tasks == old(tasks)[t := WithStage(old(tasks)[t], s, CanceledStage(old(tasks)[t].stages[s], Unmatched))]
    {
      if Terminal(tasks[t].stages[s].state) {
        SameStage(tasks, t, s);
        return;
      }
      UpdateStage(t, s, tasks[t].stages[s].(state := Canceled));
      RevokeLeases(t, s);
      assert tasks[t].stages[s] == CanceledStage(old(tasks)[t].stages[s], Unmatched);
      assert tasks[t].stages == old(tasks)[t].stages[s := tasks[t].stages[s]];
    }

    /** Second pass: what became of the local process group behind a revoked lease. */
    method CleanUpStage(t: nat, s: nat, outcome: CancelOutcome, ghost before: Stage)
      requires t < |tasks| && s < |tasks[t].stages|
      requires !Terminal(before.state) && tasks[t].stages[s] == CanceledStage(before, Unmatched)
      modifies this`tasks
      ensures tasks == old(tasks)[t := WithStage(old(tasks)[t], s, CanceledStage(before, outcome))]
    {
      var stage := tasks[t].stages[s];
      assert |stage.attempts| == |before.attempts|;
      match outcome {
        case Unmatched => SameStage(tasks, t, s);
        case Cleaned(a) =>
          if a < |stage.attempts| && stage.attempts[a].lease.Some? {
            UpdateAttempt(t, s, a, stage.attempts[a].(status := InState(Canceled)));
            DeleteLeases(t, s);
            assert tasks[t].stages[s] == CanceledStage(before, outcome);
            assert tasks[t].stages == old(tasks)[t].stages[s := tasks[t].stages[s]];
          } else {
            SameStage(tasks, t, s);
          }
        case Residual(a) =>
          if a < |stage.attempts| && stage.attempts[a].lease.Some? {
            UpdateAttempt(t, s, a, stage.attempts[a].(status := InState(Canceled)));
            UpdateStage(t, s, tasks[t].stages[s].(state := FailedTerminal, error := Some(CleanupFailed)));
            assert tasks[t].stages[s] == CanceledStage(before, outcome);
            assert tasks[t].stages == old(tasks)[t].stages[s := tasks[t].stages[s]];
          } else {
            SameStage(tasks, t, s);
          }
      }
    }

    method CancelTask(t: nat, outcomes: seq<CancelOutcome>)
      requires t < |tasks| && |tasks[t].stages| == STAGE_COUNT == |outcomes|
      modifies this`tasks
      ensures tasks == old(tasks)[t := CanceledTask(old(tasks)[t], outcomes)]
    {
      ghost var before := tasks[t];
      var read := tasks[t].stages;
      for s := 0 to STAGE_COUNT
        invariant |tasks| == |old(tasks)| && tasks == old(tasks)[t := tasks[t]]
        invariant |tasks[t].stages| == STAGE_COUNT && tasks[t] == before.(stages := tasks[t].stages)
        invariant forall i :: 0 <= i < s ==> tasks[t].stages[i] == CanceledStage(before.stages[i], Unmatched)
        invariant forall i :: s <= i < STAGE_COUNT ==> tasks[t].stages[i] == before.stages[i]
      {
        CancelStage(t, s);
      }
      for s := 0 to STAGE_COUNT
        invariant |tasks| == |old(tasks)| && tasks == old(tasks)[t := tasks[t]]
        invariant |tasks[t].stages| == STAGE_COUNT && tasks[t] == before.(stages := tasks[t].stages)
        invariant forall i :: 0 <= i < s ==> tasks[t].stages[i] == CanceledStage(before.stages[i], outcomes[i])
        invariant forall i :: s <= i < STAGE_COUNT ==> tasks[t].stages[i] == CanceledStage(before.stages[i], Unmatched)
      {
        if !Terminal(read[s].state) {
          CleanUpStage(t, s, outcomes[s], before.stages[s]);
        }
      }
      assert tasks[t].stages == CanceledTask(before, outcomes).stages;
    }

    method CancelSelected(selected: set<nat>, outcomes: seq<seq<CancelOutcome>>)
      requires WellFormed(Tables()) && OutcomesShaped(Tables(), outcomes)
      modifies this`tasks
      ensures Tables() == CanceledTasks(old(Tables()), selected, outcomes)
    {
      ghost var before := Tables();
      for t := 0 to |tasks|
        invariant |tasks| == |before.tasks| && WellFormed(Tables())
        invariant forall u :: 0 <= u < t ==> tasks[u] == if u in selected then CanceledTask(before.tasks[u], outcomes[u]) else before.tasks[u]
        invariant forall u :: t <= u < |tasks| ==> tasks[u] == before.tasks[u]
      {
        if t in selected {
          CancelTask(t, outcomes[t]);
        }
      }
      assert tasks == CanceledTasks(before, selected, outcomes).tasks;
    }

    /** Refuses while a remote process stage still has a lease row; otherwise cancels the selected tasks. */
    method Cancel(selected: set<nat>, outcomes: seq<seq<CancelOutcome>>) returns (ok: bool)
      requires WellFormed(Tables()) && OutcomesShaped(Tables(), outcomes)
      modifies this`tasks, this`status
      ensures ok == !CancelBlocked(old(Tables()), selected)
      ensures Tables() == Step(old(Tables()), Op.CancelTasks(selected, outcomes))
    {
      for t := 0 to |tasks|
        invariant forall u :: 0 <= u < t && u in selected ==> !RemoteOccupied(tasks[u])
      {
        if t in selected && RemoteOccupied(tasks[t]) { return false; }
      }
      ok := true;
      CancelStep(Tables(), selected, outcomes);
      CancelSelected(selected, outcomes);
      UpdateAggregateStatus();
    }

    /** The rows that a decision writes. */
    method DecideRow(t: nat, attempt: nat, v: Verdict)
      requires t < |tasks| && |tasks[t].stages| == STAGE_COUNT && tasks[t].groups != [] && CanDecide(tasks[t], attempt, v)
      modifies this`tasks
      ensures tasks == old(tasks)[t := DecidedTask(old(tasks)[t], attempt, v)]
    {
      var task := tasks[t];
      var candidate := if v.Accept? then CandidateFor(task, attempt, v.choice) else None;
      var r := ReviewIndex(task.reviews, attempt);
      task := task.(reviews := task.reviews[r := task.reviews[r].(decision := DecisionOf(v))]);
      match v {
        case Accept(_) =>
          task := task.(accepted := candidate);
          task := WithStage(task, EDIT_GATE, task.stages[EDIT_GATE].(state := Succeeded));
        case Reject =>
          task := WithStage(task, EDIT_GATE, task.stages[EDIT_GATE].(state := Rejected, error := Some(EditRejected)));
        case Cancel =>
          var read := task.stages;
          for i := EDIT_GATE to STAGE_COUNT
            invariant |task.stages| == STAGE_COUNT && task == old(tasks)[t].(stages := task.stages, reviews := task.reviews)
            invariant task.reviews == old(tasks)[t].reviews[r := old(tasks)[t].reviews[r].(decision := CanceledEdit)]
            invariant forall j :: 0 <= j < STAGE_COUNT ==>
                        task.stages[j] == if EDIT_GATE <= j < i then DecidedTask(old(tasks)[t], attempt, v).stages[j] else read[j]
          {
            if i == EDIT_GATE || !Terminal(read[i].state) {
              task := WithStage(task, i, read[i].(state := Canceled, error := Some(EditCanceled)));
            }
          }
          assert task.stages == DecidedTask(old(tasks)[t], attempt, v).stages;
        case RegenerateEdit =>
          var image := task.stages[IMAGE_EDIT];
          var count := |image.attempts|;
          var reviewed := GroupOfAttempt(image.attempts, attempt);
          image := image.(state := Ready, notBefore := 0.0,
                          maxAttempts := if image.maxAttempts < count + 1 then count + 1 else image.maxAttempts);
          task := WithStage(task, IMAGE_EDIT, image);
          if reviewed.Some? && reviewed.value < |task.groups| {
            task := task.(groups := task.groups[reviewed.value := Superseded(task.groups[reviewed.value])]);
          }
          task := task.(groups := task.groups + [[]]);
          task := WithStage(task, EDIT_GATE, task.stages[EDIT_GATE].(state := Pending));
      }
      tasks := tasks[t := task];
    }

    method DecideAndSettle(t: nat, attempt: nat, v: Verdict)
      requires WellFormed(Tables()) && t < |tasks| && CanDecide(tasks[t], attempt, v)
      modifies this`tasks, this`status
      ensures Tables() == Aggregated(RefreshAll(WithTask(old(Tables()), t, DecidedTask(old(tasks)[t], attempt, v))))
    {
      ghost var before := Tables();
      DecideRow(t, attempt, v);
      DecidedShape(before.tasks[t], attempt, v);
      assert Tables() == WithTask(before, t, DecidedTask(before.tasks[t], attempt, v));
      Settle();
    }

    method DecideEdit(t: nat, attempt: nat, v: Verdict) returns (ok: bool)
      requires WellFormed(Tables())
      modifies this`tasks, this`status
      ensures ok <==> t < |old(tasks)| && CanDecide(old(tasks)[t], attempt, v)
      ensures Tables() == Step(old(Tables()), Op.Decide(t, attempt, v))
    {
      DecideStep(Tables(), t, attempt, v);
      ok := t < |tasks| && CanDecide(tasks[t], attempt, v);
      if ok { DecideAndSettle(t, attempt, v); }
    }
  }

  lemma ResolvedShape(t: Task, item: Item, action: Settlement)
    requires |t.stages| == STAGE_COUNT && t.groups != [] && HoldsRecovery(t, item)
    ensures |Resolved(t, item, action).stages| == STAGE_COUNT && Resolved(t, item, action).groups != []
  {
  }

  lemma DecidedShape(t: Task, attempt: nat, v: Verdict)
    requires |t.stages| == STAGE_COUNT && t.groups != [] && CanDecide(t, attempt, v)
    ensures |DecidedTask(t, attempt, v).stages| == STAGE_COUNT && DecidedTask(t, attempt, v).groups != []
  {
  }

  lemma PublishedShape(db: Db, k: Key)
    requires WellFormed(db) && ValidAt(db, k) && db.tasks[k.0].stages[k.1].attempts[k.2].commit.Some?
    ensures var published := PublishedTask(db.tasks[k.0], k.1, k.2);
            && WellFormed(WithTask(db, k.0, published)) && ValidKey(published, k.1, k.2)
            && published.stages[k.1].attempts[k.2].commit.Some?
  {
  }

  /** Rewriting a task once more forgets the first rewriting. */
  lemma PublishedFirst(db: Db, k: Key)
    requires WellFormed(db) && ValidAt(db, k) && db.tasks[k.0].stages[k.1].attempts[k.2].commit.Some?
    ensures var published := PublishedTask(db.tasks[k.0], k.1, k.2);
            var mid := WithTask(db, k.0, published);
            && WellFormed(mid)
            && (forall x: Task :: WithTask(mid, k.0, x) == WithTask(db, k.0, x))
            && (CanFinalize(published, k.1, k.2, None) ==> Completed(mid, k, published) == Completed(db, k, published))
  {
    var published := PublishedTask(db.tasks[k.0], k.1, k.2);
    var mid := WithTask(db, k.0, published);
    forall x: Task ensures WithTask(mid, k.0, x) == WithTask(db, k.0, x) {
      assert mid.tasks[k.0 := x] == db.tasks[k.0 := x];
    }
  }

  lemma SameStage(tasks: seq<Task>, t: nat, s: nat)
    requires t < |tasks| && s < |tasks[t].stages|
    ensures tasks[t := WithStage(tasks[t], s, tasks[t].stages[s])] == tasks
  {
    assert tasks[t].stages[s := tasks[t].stages[s]] == tasks[t].stages;
  }

  function TerminatedRow(t: Task, item: Item): Task
    requires HoldsRecovery(t, item)
  {
    var st := t.stages[item.stage];
    WithStage(t, item.stage,
      WithAttempt(st, item.attempt, st.attempts[item.attempt].(status := InState(FailedTerminal), lease := None))
      .(state := FailedTerminal, notBefore := 0.0, error := Some(RemoteStoppedTerminal)))
  }

  lemma SameTask(db: Db, t: nat)
    requires t < |db.tasks|
    ensures WithTask(db, t, db.tasks[t]) == db
  {
    assert db.tasks[t := db.tasks[t]] == db.tasks;
  }

  /** The rows a plain failure writes before the diversion. */
  function FailedRows(t: Task, s: nat, a: nat, now: Time, r: Report): Task
    requires ValidKey(t, s, a)
  {
    var verdict := FailVerdict(r.cleanup, r.status, r.code, MayRetry(t, s, a));
    var att := t.stages[s].attempts[a].(status := InState(verdict), lease := Released(t.stages[s].attempts[a], r.cleanup));
    WithStage(t, s, WithAttempt(t.stages[s], a, att).(
      state := verdict,
      notBefore := if verdict.Ready? then Transitions.Backoff(now, r.retryAfter) else 0.0,
      error := Some(r.code)))
  }

  lemma FailedRow(t: Task, s: nat, a: nat, now: Time, r: Report, x: Task)
    requires OnlyRow(t, s, a, x)
    requires var y := FailedRows(t, s, a, now, r);
             x.stages[s].attempts[a] == y.stages[s].attempts[a] && x.stages[s].(attempts := []) == y.stages[s].(attempts := [])
    ensures x == FailedRows(t, s, a, now, r)
  {
    RowsWritten(t, s, a, x, FailedRows(t, s, a, now, r));
  }

  lemma QueueInRange(db: Db, now: Time, f: Filter, rows: seq<Row>)
    requires WellFormed(db) && IsQueue(db, now, f, rows)
    ensures RowsInRange(db, rows)
  {
  }

  function Rounds(t: Task, n: nat): (r: Task)
    requires |t.stages| == STAGE_COUNT
    ensures |r.stages| == STAGE_COUNT
  {
    if n == 0 then t else RefreshRound(Rounds(t, n - 1))
  }

  lemma NeverThree(db: Db)
    requires WellFormed(db)
    ensures forall t :: 0 <= t < |db.tasks| ==> NothingToPromote(Rounds(db.tasks[t], 2))
  {
    forall t | 0 <= t < |db.tasks| ensures NothingToPromote(Rounds(db.tasks[t], 2)) {
      RefreshReachesFixpoint(db.tasks[t]);
      assert Rounds(db.tasks[t], 1) == RefreshRound(Rounds(db.tasks[t], 0));
    }
  }

  /** Once a round promotes nothing, the loop is where two rounds lead. */
  lemma RoundsSettle(t: Task, n: nat)
    requires |t.stages| == STAGE_COUNT && 0 < n <= 3 && NothingToPromote(Rounds(t, n - 1))
    ensures Rounds(t, n) == Refreshed(t)
  {
    StableRound(Rounds(t, n - 1));
    RefreshReachesFixpoint(t);
    assert Rounds(t, 1) == RefreshRound(t);
    assert Rounds(t, 2) == Refreshed(t);
    if n == 1 {
      assert RefreshRound(t) == t;
    } else if n == 3 {
      assert Rounds(t, 3) == RefreshRound(Rounds(t, 2));
    }
  }
}
