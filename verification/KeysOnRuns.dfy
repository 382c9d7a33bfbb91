/** The idempotency keys of a batch over its runs: which rows of the tables go into a key, and when a call
    computes one anew. */
module KeysOnRuns {
  import opened Tables
  import opened Transitions
  import opened Batch
  import opened Protocol
  import opened ChainShape
  import opened Idempotency
  import opened InputRows
  import Runs

  /** How the key of each stage of each task came about. */
  type Keys = seq<seq<Derivation>>

  // ---------------------------------------------------------------- a key from the tables

  function KeyAt(n: Naming, t: nat, stages: seq<Stage>, ks: seq<Derivation>, s: nat, config: Config, accepted: Option<nat>): Derivation
    requires s <= |stages| == |ks|
  {
    var artifacts := UpstreamArtifacts(n, t, stages, s);
    var upstream := UpstreamKeys(stages, ks, s);
    Derivation(t, s, n.contract(s), config, accepted, artifacts, upstream,
               Sorted(artifacts + Idempotency.StageRows(n.hash, n.configHash, upstream)))
  }

  function PlannedKey(n: Naming, t: nat, s: nat): Derivation {
    Derivation(t, s, n.contract(s), n.config(t, s), None, [], [], [])
  }

  /** The file of the accepted candidate, which the gate's configuration names. */
  function AcceptedFile(n: Naming, t: nat, groups: seq<seq<Gen>>, accepted: Option<nat>): Option<nat> {
    var gens := CurrentGens(groups);
    if accepted.Some? && accepted.value < |gens| && gens[accepted.value].attempt >= 0
    then Some(n.image(t, gens[accepted.value].attempt)) else None
  }

  /** The gate's configuration once the edit is accepted. */
  function GateConfig(n: Naming, t: nat, groups: seq<seq<Gen>>, r: Review, accepted: Option<nat>): Config {
    var file := AcceptedFile(n, t, groups, accepted);
    n.config(t, EDIT_GATE) + [r.attempt, if r.decision.AcceptedByPolicy? then 1 else 0]
    + (if file.Some? then [accepted.value, file.value] else [])
  }

  function GateKey(n: Naming, t: nat, task: Task, ks: seq<Derivation>, r: Review, accepted: Option<nat>): Derivation
    requires |task.stages| == STAGE_COUNT == |ks|
  {
    KeyAt(n, t, task.stages, ks, EDIT_GATE, GateConfig(n, t, task.groups, r, accepted), AcceptedFile(n, t, task.groups, accepted))
  }

  /** What is accepted only matters behind the gate. */
  function AcceptedFor(n: Naming, t: nat, task: Task, s: nat): Option<nat> {
    if s > EDIT_GATE then AcceptedFile(n, t, task.groups, task.accepted) else None
  }

  /** The key of a promoted stage other than the gate. */
  function PromotedKey(n: Naming, t: nat, task: Task, ks: seq<Derivation>, s: nat): Derivation
    requires |task.stages| == STAGE_COUNT == |ks| && s < STAGE_COUNT
  {
    KeyAt(n, t, task.stages, ks, s, n.config(t, s), AcceptedFor(n, t, task, s))
  }

  // ---------------------------------------------------------------- the calls that compute keys

  function KeysAfterRound(n: Naming, t: nat, task: Task, ks: seq<Derivation>): (r: seq<Derivation>)
    requires |task.stages| == STAGE_COUNT == |ks|
    ensures |r| == STAGE_COUNT
  {
    seq(STAGE_COUNT, (s: nat) requires s < STAGE_COUNT =>
      if !DependencyMet(task, s) then ks[s]
      else if s != EDIT_GATE then PromotedKey(n, t, task, ks, s)
      else if Promoted(task, s).Succeeded? then GateKey(n, t, task, ks, LatestReview(task.reviews).value, RefreshedAccepted(task))
      else ks[s])
  }

  /** A round promotes at most one stage of a task, so it does not matter that the loop goes through them one
      after the other. */
  lemma OnePromotion(t: Task, i: nat, j: nat)
    requires Linked(t.stages) && i < j < STAGE_COUNT && DependencyMet(t, i)
    ensures !DependencyMet(t, j)
  {
    var st := t.stages;
    if Diverted(st) && i < DEBUG_BUNDLE {
      var f :| 0 <= f < STAGE_COUNT && DivertedAt(st, f);
      if i < f { PrefixSucceeded(st, f, i); }
    }
    if i < j - 1 {
      TailInactive(st, i, j - 1);
    }
  }

  predicate Shaped(db: Db, keys: Keys) {
    |keys| == |db.tasks| && forall t :: 0 <= t < |keys| ==> |keys[t]| == STAGE_COUNT
  }

  /** `_refresh_ready` on every task. */
  function KeysAfterRefresh(n: Naming, db: Db, keys: Keys): (r: Keys)
    requires WellFormed(db) && Shaped(db, keys)
    ensures Shaped(db, r)
  {
    seq(|keys|, (t: nat) requires t < |keys| =>
      KeysAfterRound(n, t, RefreshRound(db.tasks[t]), KeysAfterRound(n, t, db.tasks[t], keys[t])))
  }

  /** The refresh after a call that rewrote one task. */
  function KeysAfterReplacing(n: Naming, db: Db, t: nat, task: Task, keys: Keys): (r: Keys)
    requires WellFormed(db) && Shaped(db, keys) && t < |db.tasks| && |task.stages| == STAGE_COUNT && task.groups != []
    ensures Shaped(db, r)
  {
    KeysAfterRefresh(n, WithTask(db, t, task), keys)
  }

  function KeysAfterReconcileOne(n: Naming, db: Db, k: Key, filesAgree: bool, keys: Keys): (r: Keys)
    requires WellFormed(db) && Shaped(db, keys)
    ensures Shaped(db, r)
  {
    if !ValidAt(db, k) || db.tasks[k.0].stages[k.1].attempts[k.2].commit.None? || !filesAgree then keys
    else
      var published := PublishedTask(db.tasks[k.0], k.1, k.2);
      if IsCommitted(published.stages[k.1].attempts[k.2]) || !CanFinalize(published, k.1, k.2, None) then keys
      else KeysAfterReplacing(n, db, k.0, FinalizedTask(published, k.1, k.2, db.automatic), keys)
  }

  function KeysAfterReconcile(n: Naming, db: Db, rows: seq<Key>, agree: set<Key>, keys: Keys): (r: Keys)
    requires WellFormed(db) && Shaped(db, keys)
    ensures Shaped(db, r)
    decreases |rows|
  {
    if rows == [] then keys
    else
      SameTaskCount(db, rows[0], rows[0] in agree);
      KeysAfterReconcile(n, ReconcileOne(db, rows[0], rows[0] in agree), rows[1..], agree,
                         KeysAfterReconcileOne(n, db, rows[0], rows[0] in agree, keys))
  }

  lemma SameTaskCount(db: Db, k: Key, filesAgree: bool)
    requires WellFormed(db)
    ensures |ReconcileOne(db, k, filesAgree).tasks| == |db.tasks|
  {
  }

  /** A manual acceptance computes the gate's key, a regeneration the image stage's. */
  function KeysAfterDecision(n: Naming, t: nat, before: Task, after: Task, ks: seq<Derivation>, attempt: nat, v: Verdict): (r: seq<Derivation>)
    requires |before.stages| == STAGE_COUNT == |after.stages| && |ks| == STAGE_COUNT
    ensures |r| == STAGE_COUNT
  {
    match v
    case Accept(_) => ks[EDIT_GATE := GateKey(n, t, after, ks, Review(attempt, Accepted), after.accepted)]
    case RegenerateEdit =>
      ks[IMAGE_EDIT := KeyAt(n, t, before.stages, ks, IMAGE_EDIT, n.config(t, IMAGE_EDIT) + [|after.groups|, attempt], None)]
    case _ => ks
  }

  function KeysAfterDecide(n: Naming, db: Db, t: nat, after: Task, attempt: nat, v: Verdict, keys: Keys): (r: Keys)
    requires WellFormed(db) && Shaped(db, keys) && t < |db.tasks| && |after.stages| == STAGE_COUNT && after.groups != []
    ensures Shaped(db, r)
  {
    KeysAfterReplacing(n, db, t, after, keys[t := KeysAfterDecision(n, t, db.tasks[t], after, keys[t], attempt, v)])
  }

  ghost function StepKeys(n: Naming, db: Db, op: Op, keys: Keys): (r: Keys)
    requires WellFormed(db) && Shaped(db, keys)
    ensures Shaped(db, r)
  {
    match op
    case Refresh => KeysAfterRefresh(n, db, keys)
    case LeaseNext(now, _, filter, queue) =>
      if db.status.BatchRunning? && IsQueue(RefreshAll(db), now, filter, queue) then KeysAfterRefresh(n, db, keys) else keys
    case Finalize(item, now) =>
      if OwnsItem(db, item, now) && CanFinalize(db.tasks[item.task], item.stage, item.attempt, Some(now))
      then KeysAfterReplacing(n, db, item.task, FinalizedTask(db.tasks[item.task], item.stage, item.attempt, db.automatic), keys)
      else keys
    case Reconcile(rows, agree) => if IsUnsettledList(db, rows) then KeysAfterReconcile(n, db, rows, agree, keys) else keys
    case RecoverExpired(rows, agree, now, boot, expired) =>
      if IsUnsettledList(db, rows) && IsExpiredList(Reconciled(db, rows, agree), expired, now, boot)
      then KeysAfterReconcile(n, db, rows, agree, keys) else keys
    case Resolve(item, action) =>
      if RecoversItem(db, item)
      then KeysAfterReplacing(n, db, item.task, Resolved(db.tasks[item.task], item, action), keys) else keys
    case Decide(t, attempt, v) =>
      if t < |db.tasks| && CanDecide(db.tasks[t], attempt, v)
      then KeysAfterDecide(n, db, t, DecidedTask(db.tasks[t], attempt, v), attempt, v, keys) else keys
    case _ => keys
  }

  /** The keys that `plan` writes, and every call after it. */
  ghost function RunKeys(n: Naming, db: Db, ops: seq<Op>): (r: Keys)
    requires WellFormed(db)
    ensures Shaped(Run(db, ops), r)
    decreases |ops|
  {
    if ops == [] then
      seq(|db.tasks|, (t: nat) => seq(STAGE_COUNT, (s: nat) => PlannedKey(n, t, s)))
    else
      var before := Run(db, ops[..|ops| - 1]);
      Runs.StepSettings(before, ops[|ops| - 1]);
      StepKeys(n, before, ops[|ops| - 1], RunKeys(n, db, ops[..|ops| - 1]))
  }

  // ---------------------------------------------------------------- every key of every run is derived

  ghost predicate KeyOk(n: Naming, t: nat, s: nat, d: Derivation) {
    d.task == t && d.stage == s && Derived(n.hash, n.configHash, d)
  }

  ghost predicate TaskKeysOk(n: Naming, t: nat, ks: seq<Derivation>) {
    |ks| == STAGE_COUNT && forall s :: 0 <= s < STAGE_COUNT ==> KeyOk(n, t, s, ks[s])
  }

  ghost predicate KeysOk(n: Naming, keys: Keys) {
    forall t :: 0 <= t < |keys| ==> TaskKeysOk(n, t, keys[t])
  }

  lemma {:induction false} UpstreamKeysOk(n: Naming, t: nat, stages: seq<Stage>, ks: seq<Derivation>, s: nat)
    requires TaskKeysOk(n, t, ks) && s <= |stages| == STAGE_COUNT
    ensures var ds := UpstreamKeys(stages, ks, s);
            && Rising(ds) && forall i :: 0 <= i < |ds| ==> ds[i].stage < s && Derived(n.hash, n.configHash, ds[i])
  {
    if s > 0 {
      UpstreamKeysOk(n, t, stages, ks, s - 1);
      assert KeyOk(n, t, s - 1, ks[s - 1]);
    }
  }

  lemma KeyAtOk(n: Naming, t: nat, stages: seq<Stage>, ks: seq<Derivation>, s: nat, config: Config, accepted: Option<nat>)
    requires TaskKeysOk(n, t, ks) && s < |stages| == STAGE_COUNT
    ensures KeyOk(n, t, s, KeyAt(n, t, stages, ks, s, config, accepted))
  {
    UpstreamKeysOk(n, t, stages, ks, s);
    var d := KeyAt(n, t, stages, ks, s, config, accepted);
    assert multiset(d.artifacts + Idempotency.StageRows(n.hash, n.configHash, d.upstream))
        == multiset(d.artifacts) + multiset(Idempotency.StageRows(n.hash, n.configHash, d.upstream));
  }

  lemma RoundKeysOk(n: Naming, t: nat, task: Task, ks: seq<Derivation>)
    requires |task.stages| == STAGE_COUNT && TaskKeysOk(n, t, ks)
    ensures TaskKeysOk(n, t, KeysAfterRound(n, t, task, ks))
  {
    var r := KeysAfterRound(n, t, task, ks);
    forall s | 0 <= s < STAGE_COUNT ensures KeyOk(n, t, s, r[s]) {
      if DependencyMet(task, s) && s != EDIT_GATE {
        KeyAtOk(n, t, task.stages, ks, s, n.config(t, s), AcceptedFor(n, t, task, s));
      } else if DependencyMet(task, s) && Promoted(task, s).Succeeded? {
        GateKeyOk(n, t, task, ks, LatestReview(task.reviews).value, RefreshedAccepted(task));
      }
    }
  }

  lemma GateKeyOk(n: Naming, t: nat, task: Task, ks: seq<Derivation>, r: Review, accepted: Option<nat>)
    requires |task.stages| == STAGE_COUNT && TaskKeysOk(n, t, ks)
    ensures KeyOk(n, t, EDIT_GATE, GateKey(n, t, task, ks, r, accepted))
  {
    KeyAtOk(n, t, task.stages, ks, EDIT_GATE, GateConfig(n, t, task.groups, r, accepted), AcceptedFile(n, t, task.groups, accepted));
  }

  lemma RefreshKeysOk(n: Naming, db: Db, keys: Keys)
    requires WellFormed(db) && Shaped(db, keys) && KeysOk(n, keys)
    ensures KeysOk(n, KeysAfterRefresh(n, db, keys))
  {
    forall t | 0 <= t < |keys| ensures TaskKeysOk(n, t, KeysAfterRefresh(n, db, keys)[t]) {
      assert TaskKeysOk(n, t, keys[t]);
      RoundKeysOk(n, t, db.tasks[t], keys[t]);
      RoundKeysOk(n, t, RefreshRound(db.tasks[t]), KeysAfterRound(n, t, db.tasks[t], keys[t]));
    }
  }

  lemma ReplacingKeysOk(n: Naming, db: Db, t: nat, task: Task, keys: Keys)
    requires WellFormed(db) && Shaped(db, keys) && KeysOk(n, keys)
    requires t < |db.tasks| && |task.stages| == STAGE_COUNT && task.groups != []
    ensures KeysOk(n, KeysAfterReplacing(n, db, t, task, keys))
  {
    RefreshKeysOk(n, WithTask(db, t, task), keys);
  }

  lemma {:induction false} ReconcileKeysOk(n: Naming, db: Db, rows: seq<Key>, agree: set<Key>, keys: Keys)
    requires WellFormed(db) && Shaped(db, keys) && KeysOk(n, keys)
    ensures KeysOk(n, KeysAfterReconcile(n, db, rows, agree, keys))
    decreases |rows|
  {
    if rows != [] {
      var k := rows[0];
      var next := KeysAfterReconcileOne(n, db, k, k in agree, keys);
      if next != keys {
        var published := PublishedTask(db.tasks[k.0], k.1, k.2);
        ReplacingKeysOk(n, db, k.0, FinalizedTask(published, k.1, k.2, db.automatic), keys);
      }
      SameTaskCount(db, k, k in agree);
      ReconcileKeysOk(n, ReconcileOne(db, k, k in agree), rows[1..], agree, next);
    }
  }

  lemma ReplacedKeyOk(n: Naming, t: nat, ks: seq<Derivation>, s: nat, d: Derivation)
    requires TaskKeysOk(n, t, ks) && s < STAGE_COUNT && KeyOk(n, t, s, d)
    ensures TaskKeysOk(n, t, ks[s := d])
  {
  }

  lemma DecisionKeysOk(n: Naming, t: nat, before: Task, after: Task, ks: seq<Derivation>, attempt: nat, v: Verdict)
    requires |before.stages| == STAGE_COUNT == |after.stages| && TaskKeysOk(n, t, ks)
    ensures TaskKeysOk(n, t, KeysAfterDecision(n, t, before, after, ks, attempt, v))
  {
    match v
    case Accept(_) =>
      GateKeyOk(n, t, after, ks, Review(attempt, Accepted), after.accepted);
      ReplacedKeyOk(n, t, ks, EDIT_GATE, GateKey(n, t, after, ks, Review(attempt, Accepted), after.accepted));
    case RegenerateEdit =>
      var config := n.config(t, IMAGE_EDIT) + [|after.groups|, attempt];
      KeyAtOk(n, t, before.stages, ks, IMAGE_EDIT, config, None);
      ReplacedKeyOk(n, t, ks, IMAGE_EDIT, KeyAt(n, t, before.stages, ks, IMAGE_EDIT, config, None));
    case _ =>
  }

  lemma DecideKeysOk(n: Naming, db: Db, t: nat, after: Task, attempt: nat, v: Verdict, keys: Keys)
    requires WellFormed(db) && Shaped(db, keys) && KeysOk(n, keys)
    requires t < |db.tasks| && |after.stages| == STAGE_COUNT && after.groups != []
    ensures KeysOk(n, KeysAfterDecide(n, db, t, after, attempt, v, keys))
  {
    assert TaskKeysOk(n, t, keys[t]);
    DecisionKeysOk(n, t, db.tasks[t], after, keys[t], attempt, v);
    ReplacingKeysOk(n, db, t, after, keys[t := KeysAfterDecision(n, t, db.tasks[t], after, keys[t], attempt, v)]);
  }

  lemma SettlementKeysOk(n: Naming, db: Db, op: Op, keys: Keys)
    requires WellFormed(db) && Shaped(db, keys) && KeysOk(n, keys) && (op.Finalize? || op.Resolve? || op.Decide?)
    ensures KeysOk(n, StepKeys(n, db, op, keys))
  {
    match op
    case Finalize(item, now) =>
      if OwnsItem(db, item, now) && CanFinalize(db.tasks[item.task], item.stage, item.attempt, Some(now)) {
        ReplacingKeysOk(n, db, item.task, FinalizedTask(db.tasks[item.task], item.stage, item.attempt, db.automatic), keys);
      }
    case Resolve(item, action) =>
      if RecoversItem(db, item) { ReplacingKeysOk(n, db, item.task, Resolved(db.tasks[item.task], item, action), keys); }
    case Decide(t, attempt, v) =>
      if t < |db.tasks| && CanDecide(db.tasks[t], attempt, v) {
        DecideKeysOk(n, db, t, DecidedTask(db.tasks[t], attempt, v), attempt, v, keys);
      }
  }

  lemma StepKeysOk(n: Naming, db: Db, op: Op, keys: Keys)
    requires WellFormed(db) && Shaped(db, keys) && KeysOk(n, keys)
    ensures KeysOk(n, StepKeys(n, db, op, keys))
  {
    if op.Finalize? || op.Resolve? || op.Decide? {
      SettlementKeysOk(n, db, op, keys);
    } else if op.Refresh? || op.LeaseNext? {
      RefreshKeysOk(n, db, keys);
    } else if op.Reconcile? || op.RecoverExpired? {
      ReconcileKeysOk(n, db, op.rows, op.agree, keys);
    }
  }

  lemma {:induction false} RunKeysOk(n: Naming, db: Db, ops: seq<Op>)
    requires WellFormed(db)
    ensures KeysOk(n, RunKeys(n, db, ops))
    decreases |ops|
  {
    if ops != [] {
      var before := Run(db, ops[..|ops| - 1]);
      RunKeysOk(n, db, ops[..|ops| - 1]);
      StepKeysOk(n, before, ops[|ops| - 1], RunKeys(n, db, ops[..|ops| - 1]));
    } else {
      forall t | 0 <= t < |db.tasks| ensures TaskKeysOk(n, t, RunKeys(n, db, [])[t]) {
        forall s | 0 <= s < STAGE_COUNT ensures KeyOk(n, t, s, PlannedKey(n, t, s)) {
          assert PlannedKey(n, t, s).rows == [] && Idempotency.StageRows(n.hash, n.configHash, []) == [];
        }
      }
    }
  }

  // ---------------------------------------------------------------- what equal keys mean

  function StoredKey(n: Naming, d: Derivation): nat {
    KeyOf(n.hash, n.configHash, d)
  }

  /** The keys of any two stages in any two states of the runs of one batch: with injective hashes they are
      equal exactly if the same things went in, all the way down the chain. */
  lemma EqualKeysOnRuns(n: Naming, db: Db, ops: seq<Op>, other: seq<Op>, t: nat, s: nat, u: nat, r: nat)
    requires WellFormed(db) && Injective(n.hash) && Injective(n.configHash)
    requires t < |db.tasks| && s < STAGE_COUNT && u < |db.tasks| && r < STAGE_COUNT
    ensures |RunKeys(n, db, ops)| == |db.tasks| == |RunKeys(n, db, other)|
    ensures var d, e := RunKeys(n, db, ops)[t][s], RunKeys(n, db, other)[u][r];
            && d.task == t && d.stage == s && e.task == u && e.stage == r
            && (StoredKey(n, d) == StoredKey(n, e) <==> SameOrigin(d, e))
  {
    RunKeysOk(n, db, ops);
    RunKeysOk(n, db, other);
    RunTaskCount(db, ops);
    RunTaskCount(db, other);
    var d, e := RunKeys(n, db, ops)[t][s], RunKeys(n, db, other)[u][r];
    assert TaskKeysOk(n, t, RunKeys(n, db, ops)[t]) && TaskKeysOk(n, u, RunKeys(n, db, other)[u]);
    assert KeyOk(n, t, s, d) && KeyOk(n, u, r, e);
    if StoredKey(n, d) == StoredKey(n, e) { EqualKeysSameOrigin(n.hash, n.configHash, d, e); }
    if SameOrigin(d, e) { SameOriginEqualKeys(n.hash, n.configHash, d, e); }
  }

  lemma {:induction false} RunTaskCount(db: Db, ops: seq<Op>)
    requires WellFormed(db)
    ensures |Run(db, ops).tasks| == |db.tasks|
    decreases |ops|
  {
    if ops != [] {
      RunTaskCount(db, ops[..|ops| - 1]);
      Runs.StepSettings(Run(db, ops[..|ops| - 1]), ops[|ops| - 1]);
    }
  }

  /** The tables, as they are at two refreshes, give a stage the same inputs: the same accepted file, under each
      digest as many artifacts made upstream, and the same succeeded stages before it, key by key. */
  ghost predicate SameInputs(n: Naming, t: nat, x: Task, y: Task, kx: seq<Derivation>, ky: seq<Derivation>, s: nat)
    requires |x.stages| == STAGE_COUNT == |kx| && |y.stages| == STAGE_COUNT == |ky| && s < STAGE_COUNT
  {
    && AcceptedFor(n, t, x, s) == AcceptedFor(n, t, y, s)
    && SameIngredients(n, t, x.stages, y.stages, s, AcceptedFor(n, t, x, s))
    && SameUpstream(n.hash, n.configHash, x.stages, kx, y.stages, ky, s)
  }

  /** Two refreshes of one stage, in any two states of the runs of one batch, compute the same key exactly if
      the tables give it the same inputs. */
  lemma RefreshKeepsKeyExactlyIf(n: Naming, db: Db, ops: seq<Op>, other: seq<Op>, t: nat, s: nat)
    requires WellFormed(db) && Injective(n.hash) && Injective(n.configHash) && t < |db.tasks| && s < STAGE_COUNT
    ensures |Run(db, ops).tasks| == |db.tasks| == |Run(db, other).tasks|
    ensures |RunKeys(n, db, ops)| == |db.tasks| == |RunKeys(n, db, other)|
    ensures var x, y := Run(db, ops).tasks[t], Run(db, other).tasks[t];
            var kx, ky := RunKeys(n, db, ops)[t], RunKeys(n, db, other)[t];
            StoredKey(n, PromotedKey(n, t, x, kx, s)) == StoredKey(n, PromotedKey(n, t, y, ky, s))
            <==> SameInputs(n, t, x, y, kx, ky, s)
  {
    RunKeysOk(n, db, ops);
    RunKeysOk(n, db, other);
    RunTaskCount(db, ops);
    RunTaskCount(db, other);
    assert TaskKeysOk(n, t, RunKeys(n, db, ops)[t]) && TaskKeysOk(n, t, RunKeys(n, db, other)[t]);
    SameKeyExactlyIf(n, t, Run(db, ops).tasks[t], Run(db, other).tasks[t], RunKeys(n, db, ops)[t], RunKeys(n, db, other)[t], s);
  }

  lemma OkOwnStages(n: Naming, t: nat, ks: seq<Derivation>)
    requires TaskKeysOk(n, t, ks)
    ensures OwnStages(ks)
  {
    forall i | 0 <= i < |ks| ensures ks[i].stage == i {
      assert KeyOk(n, t, i, ks[i]);
    }
  }

  lemma EqualKeysSameInputs(n: Naming, d: Derivation, e: Derivation)
    requires Injective(n.hash) && Injective(n.configHash)
    requires Derived(n.hash, n.configHash, d) && Derived(n.hash, n.configHash, e) && StoredKey(n, d) == StoredKey(n, e)
    ensures d.accepted == e.accepted && multiset(Kept(d.artifacts, d.accepted)) == multiset(Kept(e.artifacts, e.accepted))
    ensures KeysAgree(n.hash, n.configHash, d.upstream, e.upstream)
  {
    KeyNamesStage(n.hash, n.configHash, d, e);
    InputsDetermine(n.hash, n.configHash, d, e);
    SameKept(n.hash, n.configHash, d.upstream, d.accepted);
    SameKept(n.hash, n.configHash, e.upstream, e.accepted);
    UpstreamAgrees(n.hash, n.configHash, d.upstream, e.upstream);
  }

  lemma SameKeyExactlyIf(n: Naming, t: nat, x: Task, y: Task, kx: seq<Derivation>, ky: seq<Derivation>, s: nat)
    requires Injective(n.hash) && Injective(n.configHash) && TaskKeysOk(n, t, kx) && TaskKeysOk(n, t, ky)
    requires s < STAGE_COUNT == |x.stages| && |y.stages| == STAGE_COUNT
    ensures StoredKey(n, PromotedKey(n, t, x, kx, s)) == StoredKey(n, PromotedKey(n, t, y, ky, s))
            <==> SameInputs(n, t, x, y, kx, ky, s)
  {
    var d, e := PromotedKey(n, t, x, kx, s), PromotedKey(n, t, y, ky, s);
    KeyAtOk(n, t, x.stages, kx, s, n.config(t, s), AcceptedFor(n, t, x, s));
    KeyAtOk(n, t, y.stages, ky, s, n.config(t, s), AcceptedFor(n, t, y, s));
    OkOwnStages(n, t, kx);
    OkOwnStages(n, t, ky);
    SameKeptExactlyIf(n, t, x.stages, y.stages, s, d.accepted);
    UpstreamAgreesExactlyIf(n.hash, n.configHash, x.stages, kx, y.stages, ky, s);
    if StoredKey(n, d) == StoredKey(n, e) { EqualKeysSameInputs(n, d, e); }
    if SameInputs(n, t, x, y, kx, ky, s) { SameIngredientsEqualKeys(n.hash, n.configHash, d, e); }
  }

  /** The file of the candidate that the gate's index names in the current group. */
  predicate AcceptedIs(n: Naming, t: nat, task: Task, file: nat) {
    && task.accepted.Some? && task.groups != [] && task.accepted.value < |task.groups[|task.groups| - 1]|
    && var attempt := task.groups[|task.groups| - 1][task.accepted.value].attempt;
       attempt >= 0 && n.image(t, attempt) == file
  }

  lemma DifferentFiles(n: Naming, t: nat, x: Task, y: Task, kx: seq<Derivation>, ky: seq<Derivation>, s: nat, file: nat, different: nat)
    requires |x.stages| == STAGE_COUNT == |kx| && |y.stages| == STAGE_COUNT == |ky| && EDIT_GATE < s < STAGE_COUNT
    requires AcceptedIs(n, t, x, file) && AcceptedIs(n, t, y, different) && file != different
    ensures !SameInputs(n, t, x, y, kx, ky, s)
  {
  }

  /** Accepting another picture changes the key of every stage behind the gate. */
  lemma ChoicesSeparateKeys(n: Naming, db: Db, ops: seq<Op>, other: seq<Op>, t: nat, s: nat, file: nat, different: nat)
    requires WellFormed(db) && Injective(n.hash) && Injective(n.configHash) && t < |db.tasks| && EDIT_GATE < s < STAGE_COUNT
    requires |Run(db, ops).tasks| == |db.tasks| == |Run(db, other).tasks| && file != different
    requires AcceptedIs(n, t, Run(db, ops).tasks[t], file) && AcceptedIs(n, t, Run(db, other).tasks[t], different)
    ensures |RunKeys(n, db, ops)| == |db.tasks| == |RunKeys(n, db, other)|
    ensures StoredKey(n, PromotedKey(n, t, Run(db, ops).tasks[t], RunKeys(n, db, ops)[t], s))
         != StoredKey(n, PromotedKey(n, t, Run(db, other).tasks[t], RunKeys(n, db, other)[t], s))
  {
    var x, y := Run(db, ops).tasks[t], Run(db, other).tasks[t];
    RefreshKeepsKeyExactlyIf(n, db, ops, other, t, s);
    DifferentFiles(n, t, x, y, RunKeys(n, db, ops)[t], RunKeys(n, db, other)[t], s, file, different);
  }
}
