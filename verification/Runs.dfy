/** What holds after every run of the controller's calls. */
module Runs {
  import opened Tables
  import opened Transitions
  import opened Batch
  import opened Protocol
  import opened ChainShape
  import opened TaskInvariant
  import opened TaskSteps
  import opened RunInvariant
  import opened Evolution

  lemma StepSettings(db: Db, op: Op)
    requires WellFormed(db)
    ensures SameSettings(db, Step(db, op)) && Step(db, op).nextToken >= db.nextToken
  {
    if !op.LeaseNext? {
      StepEvolves(db, op);
    } else if Step(db, op) != db {
      LeaseNextDispatches(db, op.now, op.capacities, op.queue);
    }
  }

  lemma {:induction false} RunSettings(db: Db, ops: seq<Op>)
    requires WellFormed(db)
    ensures SameSettings(db, Run(db, ops))
    decreases |ops|
  {
    if ops != [] {
      RunSettings(db, ops[..|ops| - 1]);
      StepSettings(Run(db, ops[..|ops| - 1]), ops[|ops| - 1]);
    }
  }

  lemma {:induction false} RunConcat(db: Db, a: seq<Op>, b: seq<Op>)
    requires WellFormed(db)
    ensures Run(db, a + b) == Run(Run(db, a), b)
    decreases |b|
  {
    if b == [] {
      assert a + b == a;
    } else {
      RunConcat(db, a, b[..|b| - 1]);
      assert (a + b)[..|a + b| - 1] == a + b[..|b| - 1];
    }
  }

  // ---------------------------------------------------------------- the chain

  /** After every run each task is a chain or a diverted chain, and at most one of its stages is live. */
  lemma ChainShapeOnRuns(db: Db, ops: seq<Op>, t: nat)
    requires IsPlanned(db) && t < |db.tasks|
    ensures |Run(db, ops).tasks| == |db.tasks|
    ensures var st := Run(db, ops).tasks[t].stages;
            && |st| == STAGE_COUNT
            && (Normal(st) || exists f :: 0 <= f < STAGE_COUNT && DivertedShape(st, f))
            && forall i, j :: 0 <= i < STAGE_COUNT && 0 <= j < STAGE_COUNT && Live(st[i].state) && Live(st[j].state) ==> i == j
  {
    RunInv(db, ops);
    RunSettings(db, ops);
    assert TaskInv(Run(db, ops).tasks[t]);
    var st := Run(db, ops).tasks[t].stages;
    LinkedIsNormalOrDiverted(st);
    forall i, j | 0 <= i < STAGE_COUNT && 0 <= j < STAGE_COUNT && Live(st[i].state) && Live(st[j].state) ensures i == j {
      OneLiveStage(st, i, j);
    }
  }

  // ---------------------------------------------------------------- leases

  function LeasedRows(st: Stage): (r: set<nat>)
    ensures forall a: nat :: a in r <==> a < |st.attempts| && st.attempts[a].lease.Some?
  {
    set a: nat | a < |st.attempts| && st.attempts[a].lease.Some?
  }

  /** A stage being worked on has exactly one lease, on its newest attempt; a fenced one keeps exactly
      that lease revoked; an idle one has none. */
  predicate LeasesMatchState(st: Stage) {
    var n := |st.attempts|;
    && LeasedRows(st) <= {n - 1}
    && (Holding(st.state) ==> n > 0 && st.attempts[n - 1].lease.Some? && !st.attempts[n - 1].lease.value.revoked)
    && (st.state.Recovering? ==> n > 0 && st.attempts[n - 1].lease.Some? && st.attempts[n - 1].lease.value.revoked)
    && (HoldsNothing(st.state) ==> LeasedRows(st) == {})
    && (forall a :: a in LeasedRows(st) && !st.attempts[a].lease.value.revoked ==> Holding(st.state))
  }

  lemma StageOkLeases(st: Stage)
    requires StageOk(st)
    ensures LeasesMatchState(st)
  {
    forall a | a in LeasedRows(st) ensures a == |st.attempts| - 1 {}
    if st.attempts != [] {
      assert LastLease(st) == st.attempts[|st.attempts| - 1].lease;
    }
  }

  lemma LeasesMatchStateOnRuns(db: Db, ops: seq<Op>, t: nat, s: nat)
    requires IsPlanned(db) && t < |db.tasks| && s < STAGE_COUNT && s != IMAGE_EDIT
    ensures |Run(db, ops).tasks| == |db.tasks| && |Run(db, ops).tasks[t].stages| == STAGE_COUNT
    ensures LeasesMatchState(Run(db, ops).tasks[t].stages[s])
  {
    RunInv(db, ops);
    RunSettings(db, ops);
    assert TaskInv(Run(db, ops).tasks[t]);
    StageOkLeases(Run(db, ops).tasks[t].stages[s]);
  }

  /** An unrevoked image-edit lease always runs a candidate of the current generation group. */
  lemma CandidateLeasesOnRuns(db: Db, ops: seq<Op>, t: nat, a: nat)
    requires IsPlanned(db) && t < |db.tasks|
    ensures |Run(db, ops).tasks| == |db.tasks|
    ensures var task := Run(db, ops).tasks[t];
            LeaseOf(task, IMAGE_EDIT, a).Some? && !LeaseOf(task, IMAGE_EDIT, a).value.revoked ==>
              CandidateRuns(task.groups, a, task.stages[IMAGE_EDIT].attempts[a].candidate)
  {
    RunInv(db, ops);
    RunSettings(db, ops);
    var task := Run(db, ops).tasks[t];
    assert TaskInv(task);
    if LeaseOf(task, IMAGE_EDIT, a).Some? && !LeaseOf(task, IMAGE_EDIT, a).value.revoked {
      HeldCandidate(task, a);
    }
  }

  // ---------------------------------------------------------------- tokens

  /** Every token was handed out once. */
  ghost predicate TokensOk(db: Db) {
    && (forall k: Key :: LeaseAt(db, k).Some? ==> LeaseAt(db, k).value.token < db.nextToken)
    && (forall k: Key, q: Key :: LeaseAt(db, k).Some? && LeaseAt(db, q).Some? && k != q ==>
          LeaseAt(db, k).value.token != LeaseAt(db, q).value.token)
  }

  lemma GrantedToken(db: Db, db': Db, k: Item, capacities: Capacities, now: Time)
    requires Grants(db, db', k, capacities, now)
    ensures LeaseAt(db', (k.task, k.stage, k.attempt)).Some?
    ensures LeaseAt(db', (k.task, k.stage, k.attempt)).value.token == db.nextToken
    ensures forall q: Key :: q != (k.task, k.stage, k.attempt) ==> LeaseAt(db', q) == LeaseAt(db, q)
  {
    forall q: Key | q != (k.task, k.stage, k.attempt) ensures LeaseAt(db', q) == LeaseAt(db, q) {
      if q.0 < |db.tasks| && q.0 != k.task {
        assert SameTaskRows(db.tasks[q.0], db'.tasks[q.0]);
      } else if q.0 == k.task && q.1 == k.stage && q.2 < k.attempt {
        assert db'.tasks[k.task].stages[k.stage].attempts[..k.attempt][q.2] == db.tasks[k.task].stages[k.stage].attempts[q.2];
      }
    }
  }

  lemma StepTokens(db: Db, op: Op)
    requires WellFormed(db) && TokensOk(db)
    ensures TokensOk(Step(db, op))
  {
    var db' := Step(db, op);
    if op.LeaseNext? && db' != db {
      LeaseNextDispatches(db, op.now, op.capacities, op.queue);
      var r := Dispatched(db, op.now, op.capacities, op.queue);
      if r.item.Some? {
        GrantedToken(db, db', r.item.value, op.capacities, op.now);
      } else {
        SameRowsEvolves(db, db');
        forall k: Key ensures SameLease(LeaseAt(db, k), LeaseAt(db', k)) { LeaseEvolves(db, db', k); }
      }
    } else if !op.LeaseNext? {
      StepEvolves(db, op);
      EvolvesWeaker(db, db');
      forall k: Key ensures SameLease(LeaseAt(db, k), LeaseAt(db', k)) { LeaseEvolves(db, db', k); }
    }
  }

  /** After every run, a token names at most one lease row. */
  lemma {:induction false} TokensUniqueOnRuns(db: Db, ops: seq<Op>)
    requires IsPlanned(db)
    ensures TokensOk(Run(db, ops))
    decreases |ops|
  {
    if ops == [] {
      forall k: Key ensures LeaseAt(db, k).None? {
        if k.0 < |db.tasks| { assert IsPlannedTask(db.tasks[k.0]); }
      }
    } else {
      TokensUniqueOnRuns(db, ops[..|ops| - 1]);
      StepTokens(Run(db, ops[..|ops| - 1]), ops[|ops| - 1]);
    }
  }

  /** A token that was handed out names no lease row but that of its own attempt. */
  ghost predicate NamesOnly(db: Db, k: Key, token: nat) {
    token < db.nextToken && forall q: Key :: LeaseAt(db, q).Some? && LeaseAt(db, q).value.token == token ==> q == k
  }

  lemma StepNamesOnly(db: Db, op: Op, k: Key, token: nat)
    requires WellFormed(db) && NamesOnly(db, k, token)
    ensures NamesOnly(Step(db, op), k, token)
  {
    var db' := Step(db, op);
    StepSettings(db, op);
    if op.LeaseNext? && db' != db {
      LeaseNextDispatches(db, op.now, op.capacities, op.queue);
      var r := Dispatched(db, op.now, op.capacities, op.queue);
      if r.item.Some? {
        GrantedToken(db, db', r.item.value, op.capacities, op.now);
      } else {
        SameRowsEvolves(db, db');
        forall q: Key ensures SameLease(LeaseAt(db, q), LeaseAt(db', q)) { LeaseEvolves(db, db', q); }
      }
    } else if !op.LeaseNext? {
      StepEvolves(db, op);
      EvolvesWeaker(db, db');
      forall q: Key ensures SameLease(LeaseAt(db, q), LeaseAt(db', q)) { LeaseEvolves(db, db', q); }
    }
  }

  lemma {:induction false} RunNamesOnly(db: Db, ops: seq<Op>, k: Key, token: nat)
    requires WellFormed(db) && NamesOnly(db, k, token)
    ensures NamesOnly(Run(db, ops), k, token)
    decreases |ops|
  {
    if ops != [] {
      RunNamesOnly(db, ops[..|ops| - 1], k, token);
      StepNamesOnly(Run(db, ops[..|ops| - 1]), ops[|ops| - 1], k, token);
    }
  }

  /** For an item that a dispatch handed out, looking only at stage and token finds the item's own attempt,
      at any later time of any run. */
  lemma TokenNamesItsAttempt(db: Db, ops: seq<Op>, op: Op, later: seq<Op>, now: Time)
    requires IsPlanned(db) && op.LeaseNext? && Run(db, ops).status.BatchRunning?
    requires IsQueue(RefreshAll(Run(db, ops)), op.now, op.filter, op.queue)
    requires Dispatched(Run(db, ops), op.now, op.capacities, op.queue).item.Some?
    ensures var item := Dispatched(Run(db, ops), op.now, op.capacities, op.queue).item.value;
            var end := Run(Step(Run(db, ops), op), later);
            StageHoldsToken(end, item, now) <==> OwnsItem(end, item, now)
  {
    var before := Run(db, ops);
    var item := Dispatched(before, op.now, op.capacities, op.queue).item.value;
    var after := Step(before, op);
    TokensUniqueOnRuns(db, ops);
    LeaseNextDispatches(before, op.now, op.capacities, op.queue);
    GrantedToken(before, after, item, op.capacities, op.now);
    RunNamesOnly(after, later, KeyOf(item), item.token);
    HeldByItsAttempt(Run(after, later), item, now);
  }

  lemma HeldByItsAttempt(db: Db, item: Item, now: Time)
    requires NamesOnly(db, KeyOf(item), item.token)
    ensures StageHoldsToken(db, item, now) <==> OwnsItem(db, item, now)
  {
    if StageHoldsToken(db, item, now) {
      var a: nat :| a < StageRows(db, item) && HoldsLease(db.tasks[item.task], item.(attempt := a), now);
      assert LeaseAt(db, (item.task, item.stage, a)).value.token == item.token;
    }
    if OwnsItem(db, item, now) {
      assert item.(attempt := item.attempt) == item;
    }
  }

  // ---------------------------------------------------------------- fencing

  /** The calls a worker makes with its token. Publishing looks up the intent recorded with it. */
  predicate WorkerCall(op: Op, item: Item) {
    || ((op.MarkRunning? || op.Beat? || op.Prepare? || op.Finalize? || op.Fail?) && op.item == item)
    || op == Op.PublishFiles(KeyOf(item))
  }

  function KeyOf(item: Item): Key {
    (item.task, item.stage, item.attempt)
  }

  predicate Fenced(db: Db, item: Item) {
    var l := LeaseAt(db, KeyOf(item));
    l.None? || l.value.token != item.token || l.value.revoked
  }

  lemma FencedWritesNothing(db: Db, op: Op, item: Item)
    requires WellFormed(db) && !op.PublishFiles? && WorkerCall(op, item) && Fenced(db, item)
    ensures Step(db, op) == db
  {
  }

  /** The attempt has a recorded intent that is neither committed nor marked published. */
  predicate Unmarked(db: Db, k: Key) {
    && AttemptAt(db, k).Some? && AttemptAt(db, k).value.commit.Some?
    && (AttemptAt(db, k).value.commit.value.state.Prepared? || AttemptAt(db, k).value.commit.value.state.CommitFailed?)
  }

  /** The tables differ in the state of one recorded intent, which is now published, and in nothing else. */
  ghost predicate OnlyMarks(db: Db, db': Db, k: Key)
    requires Unmarked(db, k)
  {
    && db'.(tasks := []) == db.(tasks := []) && |db'.tasks| == |db.tasks|
    && (forall t :: 0 <= t < |db.tasks| ==>
          |db'.tasks[t].stages| == |db.tasks[t].stages| && db'.tasks[t].(stages := []) == db.tasks[t].(stages := []))
    && (forall t, s :: 0 <= t < |db.tasks| && 0 <= s < |db.tasks[t].stages| ==>
          db'.tasks[t].stages[s].(attempts := []) == db.tasks[t].stages[s].(attempts := []))
    && (forall q: Key :: q != k ==> AttemptAt(db', q) == AttemptAt(db, q))
    && AttemptAt(db', k) == Some(AttemptAt(db, k).value.(commit := Some(AttemptAt(db, k).value.commit.value.(state := Published))))
  }

  lemma MarkedTask(db: Db, k: Key)
    requires WellFormed(db) && Unmarked(db, k)
    ensures OnlyMarks(db, WithTask(db, k.0, PublishedTask(db.tasks[k.0], k.1, k.2)), k)
  {
  }

  /** Publishing looks at no lease. */
  lemma PublishMarks(db: Db, k: Key)
    requires WellFormed(db)
    ensures Step(db, Op.PublishFiles(k)) != db <==> Unmarked(db, k)
    ensures Unmarked(db, k) ==> OnlyMarks(db, Step(db, Op.PublishFiles(k)), k)
  {
    PublishStep(db, k);
    if Unmarked(db, k) {
      MarkedTask(db, k);
    } else if ValidAt(db, k) && db.tasks[k.0].stages[k.1].attempts[k.2].commit.Some? {
      SamePublished(db.tasks[k.0], k.1, k.2);
    }
  }

  lemma SamePublished(t: Task, s: nat, a: nat)
    requires ValidKey(t, s, a) && t.stages[s].attempts[a].commit.Some?
    requires t.stages[s].attempts[a].commit.value.state.Committed? || t.stages[s].attempts[a].commit.value.state.Published?
    ensures PublishedTask(t, s, a) == t
  {
    var att := t.stages[s].attempts[a];
    if att.commit.value.state.Published? {
      assert att.commit == Some(att.commit.value.(state := Published));
      assert t.stages[s].attempts[a := att] == t.stages[s].attempts;
      assert t.stages[s := t.stages[s]] == t.stages;
    }
  }

  lemma GrantSparesFenced(db: Db, db': Db, k: Item, capacities: Capacities, now: Time, item: Item)
    requires Grants(db, db', k, capacities, now) && Fenced(db, item) && item.token < db.nextToken
    ensures Fenced(db', item)
  {
    GrantedToken(db, db', k, capacities, now);
  }

  lemma StepKeepsFenced(db: Db, op: Op, item: Item)
    requires WellFormed(db) && Fenced(db, item) && item.token < db.nextToken
    requires op.Reactivate? ==> KeyOf(op.item) != KeyOf(item)
    ensures Fenced(Step(db, op), item)
  {
    var db' := Step(db, op);
    if op.LeaseNext? && db' != db {
      LeaseNextDispatches(db, op.now, op.capacities, op.queue);
      var r := Dispatched(db, op.now, op.capacities, op.queue);
      if r.item.Some? {
        GrantSparesFenced(db, db', r.item.value, op.capacities, op.now, item);
      } else {
        assert item.task < |db.tasks| ==> SameTaskRows(db.tasks[item.task], db'.tasks[item.task]);
      }
    } else if op.Reactivate? {
      ReactivateTouchesOneLease(db, op, KeyOf(item));
    } else if op.Prepare? {
      PrepareTouchesOneRow(db, op, KeyOf(item));
    } else if !op.LeaseNext? {
      StepEvolves(db, op);
      FencedEvolves(db, db', item);
    }
  }

  lemma FencedEvolves(db: Db, db': Db, item: Item)
    requires Evolves(db, db', true) && Fenced(db, item)
    ensures Fenced(db', item)
  {
    if item.task < |db.tasks| {
      assert TaskEvolves(db.tasks[item.task], db'.tasks[item.task], true);
      if item.stage < |db.tasks[item.task].stages| {
        assert StageEvolves(db.tasks[item.task].stages[item.stage], db'.tasks[item.task].stages[item.stage], true);
      }
    }
  }

  predicate NeverReactivated(ops: seq<Op>, k: Key) {
    forall i :: 0 <= i < |ops| && ops[i].Reactivate? ==> KeyOf(ops[i].item) != k
  }

  lemma {:induction false} RunKeepsFenced(db: Db, ops: seq<Op>, item: Item)
    requires WellFormed(db) && Fenced(db, item) && item.token < db.nextToken && NeverReactivated(ops, KeyOf(item))
    ensures Fenced(Run(db, ops), item) && Run(db, ops).nextToken >= db.nextToken
    decreases |ops|
  {
    if ops != [] {
      var before := Run(db, ops[..|ops| - 1]);
      RunKeepsFenced(db, ops[..|ops| - 1], item);
      StepKeepsFenced(before, ops[|ops| - 1], item);
      StepSettings(before, ops[|ops| - 1]);
    }
  }

  /** Once a token that was handed out no longer names an unrevoked lease of its attempt, that stays so
      whatever happens next, until that very attempt is reactivated, and no call with it changes any row, but
      for publishing: that marks a recorded intent which is neither committed nor marked yet, and only that. */
  lemma FencedForever(db: Db, ops: seq<Op>, later: seq<Op>, item: Item, op: Op)
    requires IsPlanned(db) && WorkerCall(op, item)
    requires item.token < Run(db, ops).nextToken && Fenced(Run(db, ops), item)
    requires NeverReactivated(later, KeyOf(item))
    ensures var end, k := Run(db, ops + later), KeyOf(item);
            && Fenced(end, item)
            && (Step(end, op) != end <==> op.PublishFiles? && Unmarked(end, k))
            && (Step(end, op) != end ==> OnlyMarks(end, Step(end, op), k))
  {
    RunConcat(db, ops, later);
    RunKeepsFenced(Run(db, ops), later, item);
    if op.PublishFiles? {
      PublishMarks(Run(db, ops + later), KeyOf(item));
    } else {
      FencedWritesNothing(Run(db, ops + later), op, item);
    }
  }

  /** An attempt of a non-image stage that has been superseded is fenced. */
  lemma SupersededIsFenced(db: Db, ops: seq<Op>, item: Item)
    requires IsPlanned(db) && item.task < |db.tasks| && item.stage < STAGE_COUNT && item.stage != IMAGE_EDIT
    ensures |Run(db, ops).tasks| == |db.tasks| && |Run(db, ops).tasks[item.task].stages| == STAGE_COUNT
    ensures var st := Run(db, ops).tasks[item.task].stages[item.stage];
            item.attempt + 1 < |st.attempts| || !Holding(st.state) ==> Fenced(Run(db, ops), item)
  {
    LeasesMatchStateOnRuns(db, ops, item.task, item.stage);
    var st := Run(db, ops).tasks[item.task].stages[item.stage];
    assert item.attempt in LeasedRows(st) <==> item.attempt < |st.attempts| && st.attempts[item.attempt].lease.Some?;
  }

  // ---------------------------------------------------------------- artifacts

  lemma AttemptOkOnRuns(db: Db, ops: seq<Op>, k: Key)
    requires IsPlanned(db)
    ensures AttemptAt(Run(db, ops), k).Some? ==> AttemptOk(AttemptAt(Run(db, ops), k).value)
  {
    RunInv(db, ops);
    var end := Run(db, ops);
    if ValidAt(end, k) {
      assert TaskInv(end.tasks[k.0]);
      if k.1 != IMAGE_EDIT {
        assert StageOk(end.tasks[k.0].stages[k.1]);
      }
    }
  }

  /** Artifact rows of an attempt exist exactly if its intent is committed, and are then exactly the
      recorded ones; expiry gives up only attempts without a recorded intent. */
  lemma ArtifactsIffCommitted(db: Db, ops: seq<Op>, k: Key)
    requires IsPlanned(db)
    ensures var x := AttemptAt(Run(db, ops), k);
            x.Some? ==>
              && x.value.artifacts == (if IsCommitted(x.value) then x.value.commit.value.artifacts else [])
              && (IsCommitted(x.value) <==> x.value.status == InState(Succeeded))
              && (x.value.status.LeaseExpired? ==> x.value.commit.None?)
  {
    AttemptOkOnRuns(db, ops, k);
  }

  lemma CommittedEvolves(db: Db, db': Db, k: Key)
    requires Evolves(db, db', false) && AttemptAt(db, k).Some?
    requires IsCommitted(AttemptAt(db, k).value) && AttemptOk(AttemptAt(db, k).value)
    ensures AttemptAt(db', k) == AttemptAt(db, k)
  {
    assert TaskEvolves(db.tasks[k.0], db'.tasks[k.0], false);
    assert StageEvolves(db.tasks[k.0].stages[k.1], db'.tasks[k.0].stages[k.1], false);
  }

  lemma GrantKeepsRows(db: Db, db': Db, g: Item, capacities: Capacities, now: Time, k: Key)
    requires Grants(db, db', g, capacities, now) && AttemptAt(db, k).Some?
    ensures AttemptAt(db', k) == AttemptAt(db, k)
  {
    if k.0 != g.task {
      assert SameTaskRows(db.tasks[k.0], db'.tasks[k.0]);
    } else if k.1 == g.stage {
      assert db'.tasks[g.task].stages[g.stage].attempts[..g.attempt][k.2] == db.tasks[g.task].stages[g.stage].attempts[k.2];
    }
  }

  lemma StepKeepsCommitted(db: Db, op: Op, k: Key)
    requires WellFormed(db) && AttemptAt(db, k).Some?
    requires IsCommitted(AttemptAt(db, k).value) && AttemptOk(AttemptAt(db, k).value)
    ensures AttemptAt(Step(db, op), k) == AttemptAt(db, k)
  {
    var db' := Step(db, op);
    if op.LeaseNext? && db' != db {
      LeaseNextDispatches(db, op.now, op.capacities, op.queue);
      var r := Dispatched(db, op.now, op.capacities, op.queue);
      if r.item.Some? {
        GrantKeepsRows(db, db', r.item.value, op.capacities, op.now, k);
      } else {
        SameRowsEvolves(db, db');
        CommittedEvolves(db, db', k);
      }
    } else if !op.LeaseNext? {
      StepEvolves(db, op);
      EvolvesWeaker(db, db');
      CommittedEvolves(db, db', k);
    }
  }

  /** Publication happens once: nothing that follows changes a committed attempt or its artifacts. */
  lemma {:induction false} CommittedForever(db: Db, ops: seq<Op>, later: seq<Op>, k: Key)
    requires IsPlanned(db) && AttemptAt(Run(db, ops), k).Some? && IsCommitted(AttemptAt(Run(db, ops), k).value)
    ensures AttemptAt(Run(db, ops + later), k) == AttemptAt(Run(db, ops), k)
    decreases |later|
  {
    if later == [] {
      assert ops + later == ops;
    } else {
      var shorter := later[..|later| - 1];
      CommittedForever(db, ops, shorter, k);
      AttemptOkOnRuns(db, ops, k);
      assert (ops + later)[..|ops + later| - 1] == ops + shorter;
      StepKeepsCommitted(Run(db, ops + shorter), later[|later| - 1], k);
    }
  }

  // ---------------------------------------------------------------- the review gate

  /** The latest review accepted the edit, and a manually accepted index names a selectable candidate
      of the reviewed group. */
  predicate GateOpen(t: Task)
    requires |t.stages| == STAGE_COUNT
  {
    && LatestReview(t.reviews).Some?
    && var r := LatestReview(t.reviews).value;
    && (r.decision.Accepted? || r.decision.AcceptedByPolicy?)
    && GroupOfAttempt(t.stages[IMAGE_EDIT].attempts, r.attempt) == Some(|t.groups| - 1)
    && (r.decision.Accepted? ==>
          && t.accepted.Some? && t.accepted.value < |CurrentGens(t.groups)|
          && Selectable(CurrentGens(t.groups)[t.accepted.value]))
  }

  lemma SucceededGateIsOpen(t: Task)
    requires TaskInv(t) && t.stages[EDIT_GATE].state.Succeeded?
    ensures GateOpen(t)
  {
    LatestReviewIsLast(t);
    PrefixSucceeded(t.stages, EDIT_GATE, IMAGE_EDIT);
    assert ReviewGroup(t.stages[IMAGE_EDIT].attempts, t.reviews[|t.reviews| - 1]) == |t.groups| - 1;
  }

  /** No attempt runs behind the gate, on any run, before the gate is open. */
  lemma GateGuardsEveryRun(db: Db, ops: seq<Op>, t: nat, s: nat)
    requires IsPlanned(db) && t < |db.tasks| && EDIT_GATE < s < STAGE_COUNT
    ensures |Run(db, ops).tasks| == |db.tasks| && |Run(db, ops).tasks[t].stages| == STAGE_COUNT
    ensures Run(db, ops).tasks[t].stages[s].attempts != [] ==> GateOpen(Run(db, ops).tasks[t])
  {
    RunInv(db, ops);
    RunSettings(db, ops);
    var task := Run(db, ops).tasks[t];
    assert TaskInv(task);
    if task.stages[s].attempts != [] {
      SucceededGateIsOpen(task);
    }
  }

  // ---------------------------------------------------------------- budgets

  /** Attempts never exceed max_attempts: per stage, and per candidate of the image stage. */
  lemma AttemptBudgetOnRuns(db: Db, ops: seq<Op>, t: nat, s: nat, c: Candidate)
    requires IsPlanned(db) && t < |db.tasks| && s < STAGE_COUNT
    ensures |Run(db, ops).tasks| == |db.tasks| && |Run(db, ops).tasks[t].stages| == STAGE_COUNT
    ensures var st := Run(db, ops).tasks[t].stages[s];
            if s == IMAGE_EDIT then AttemptsOf(st.attempts, c) <= st.maxAttempts else |st.attempts| <= st.maxAttempts
  {
    RunInv(db, ops);
    RunSettings(db, ops);
    assert TaskInv(Run(db, ops).tasks[t]);
    var st := Run(db, ops).tasks[t].stages[s];
    if s != IMAGE_EDIT {
      assert StageOk(st);
    }
  }
}
