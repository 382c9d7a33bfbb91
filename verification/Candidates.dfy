/** One generation group of the image-edit stage: any number of candidates, leased and settled in any
    order. A sibling's commit_success is one step; expiry, unknown deliveries, rejections and
    cancellations are out of scope here. */
module Candidates {
  import opened Tables
  import opened Transitions
  import opened TaskInvariant
  import opened TaskSteps
  import opened RecoverySteps
  import opened OperatorSteps

  datatype GroupStep =
    | Take(now: Time, lease: Lease)
    | Mark(item: Item, now: Time, boot: nat, seconds: Time)
    | Deliver(item: Item, now: Time, artifacts: seq<Artifact>)
    | Drop(item: Item, now: Time, report: Report)

  /** A retryable or terminal result: nothing rejected, canceled, unknown or left running. */
  predicate PlainLoss(r: Report) {
    forall mayRetry :: var v := FailVerdict(r.cleanup, r.status, r.code, mayRetry); v.Ready? || v.FailedTerminal?
  }

  predicate Enabled(t: Task, step: GroupStep)
    requires |t.stages| == STAGE_COUNT
  {
    match step
    case Take(_, lease) => Queued(IMAGE_EDIT, t.stages[IMAGE_EDIT]) && !lease.revoked
    case Mark(item, now, _, _) => item.stage == IMAGE_EDIT && HoldsLease(t, item, now)
    case Deliver(item, now, artifacts) => item.stage == IMAGE_EDIT && artifacts != [] && CanPrepare(t, item, now)
    case Drop(item, now, report) => item.stage == IMAGE_EDIT && HoldsLease(t, item, now) && PlainLoss(report)
  }

  /** commit_success without an interruption. */
  function Delivered(t: Task, item: Item, artifacts: seq<Artifact>, automatic: bool): (t': Task)
    requires |t.stages| == STAGE_COUNT && ValidKey(t, item.stage, item.attempt)
    ensures |t'.stages| == STAGE_COUNT
  {
    FinalizedTask(PublishedTask(PreparedTask(t, item.stage, item.attempt, artifacts), item.stage, item.attempt),
                  item.stage, item.attempt, automatic)
  }

  function After(t: Task, step: GroupStep, automatic: bool): (t': Task)
    requires |t.stages| == STAGE_COUNT && t.groups != []
  {
    if !Enabled(t, step) then t
    else
      match step
      case Take(now, lease) => TryLease(t, IMAGE_EDIT, now, lease, automatic).task
      case Mark(item, now, boot, seconds) => MarkedRunning(t, item, now, boot, seconds)
      case Deliver(item, _, artifacts) => Delivered(t, item, artifacts, automatic)
      case Drop(item, now, report) => FailTask(t, IMAGE_EDIT, item.attempt, now, report, automatic)
  }

  // ---------------------------------------------------------------- the invariant

  predicate Open(x: StageState) {
    x.Ready? || x.Leased? || x.Running?
  }

  /** A waiting candidate has attempts left; a running one has a live lease and no intent. */
  ghost predicate RowsLive(im: Stage, groups: seq<seq<Gen>>) {
    var gens := CurrentGens(groups);
    && groups != []
    && (forall i :: 0 <= i < |gens| && Waiting(gens[i].status) ==>
          AttemptsOf(im.attempts, Candidate(|groups| - 1, i)) < im.maxAttempts)
    && (forall i :: 0 <= i < |gens| && gens[i].status.GenRunning? ==>
          RunsLive(im, gens[i].attempt, Candidate(|groups| - 1, i)))
    && (gens == [] ==> forall c: Candidate :: c.group == |groups| - 1 ==> AttemptsOf(im.attempts, c) == 0)
    && im.maxAttempts > 0
  }

  predicate RunsLive(im: Stage, a: int, c: Candidate) {
    && 0 <= a < |im.attempts| && im.attempts[a].lease.Some? && !im.attempts[a].lease.value.revoked
    && im.attempts[a].commit.None? && im.attempts[a].candidate == Some(c)
  }

  /** Open exactly while a candidate is unfinished; then decided by whether any succeeded. */
  predicate GroupDecided(im: Stage, gens: seq<Gen>) {
    if gens == [] || AnyUnfinished(gens) then Open(im.state)
    else if CountSucceeded(gens) > 0 then im.state.Succeeded?
    else im.state.FailedTerminal?
  }

  ghost predicate GroupInv(t: Task) {
    && TaskInv(t)
    && GroupDecided(t.stages[IMAGE_EDIT], CurrentGens(t.groups))
    && RowsLive(t.stages[IMAGE_EDIT], t.groups)
  }

  ghost predicate GroupKept(t': Task) {
    && |t'.stages| == STAGE_COUNT
    && GroupDecided(t'.stages[IMAGE_EDIT], CurrentGens(t'.groups))
    && RowsLive(t'.stages[IMAGE_EDIT], t'.groups)
  }

  // ---------------------------------------------------------------- taking a candidate

  lemma {:induction false} NoAttemptsBelow(attempts: seq<Attempt>, c: Candidate)
    requires forall a :: 0 <= a < |attempts| ==> attempts[a].candidate != Some(c)
    ensures AttemptsOf(attempts, c) == 0
  {
    if attempts != [] {
      NoAttemptsBelow(attempts[..|attempts| - 1], c);
    }
  }

  lemma NoneSucceeded(gens: seq<Gen>)
    requires forall i :: 0 <= i < |gens| ==> !gens[i].status.GenSucceeded?
    ensures CountSucceeded(gens) == 0
  {
  }

  lemma FreshGroup(im: Stage, groups: seq<seq<Gen>>, gens: seq<Gen>)
    requires RowsLive(im, groups) && CurrentGens(groups) == [] && Open(im.state)
    requires gens != [] && forall i :: 0 <= i < |gens| ==> gens[i].status.GenPending?
    ensures RowsLive(im, groups[|groups| - 1 := gens]) && GroupDecided(im, gens)
    ensures CountSucceeded(gens) == CountSucceeded(CurrentGens(groups)) == 0
  {
    NoneSucceeded(gens);
    assert Unfinished(gens[0].status);
  }

  lemma MaterializedRows(t: Task)
    requires |t.stages| == STAGE_COUNT && Open(t.stages[IMAGE_EDIT].state) && t.generations > 0
    requires RowsLive(t.stages[IMAGE_EDIT], t.groups) && GroupDecided(t.stages[IMAGE_EDIT], CurrentGens(t.groups))
    ensures GroupKept(Materialized(t)) && CurrentGens(Materialized(t).groups) != []
    ensures CountSucceeded(CurrentGens(Materialized(t).groups)) == CountSucceeded(CurrentGens(t.groups))
  {
    if CurrentGens(t.groups) == [] {
      FreshGroup(t.stages[IMAGE_EDIT], t.groups, CurrentGens(Materialized(t).groups));
    }
  }

  lemma MaterializedGroup(t: Task)
    requires GroupInv(t) && Open(t.stages[IMAGE_EDIT].state)
    ensures GroupInv(Materialized(t)) && CurrentGens(Materialized(t).groups) != []
    ensures Materialized(t).stages == t.stages
    ensures CountSucceeded(CurrentGens(Materialized(t).groups)) == CountSucceeded(CurrentGens(t.groups))
  {
    MaterializeKeeps(t);
    MaterializedRows(t);
  }

  /** While the group is open a free candidate is granted, and otherwise one is running. */
  lemma TakeGrants(t: Task, now: Time, lease: Lease, automatic: bool)
    requires GroupInv(t) && Open(t.stages[IMAGE_EDIT].state) && CurrentGens(t.groups) != []
    ensures var r := TryCandidate(t, now, lease, automatic);
            if r.Granted? then exists i :: 0 <= i < |CurrentGens(t.groups)| && Waiting(CurrentGens(t.groups)[i].status)
                                            && r.task == CandidateGranted(t, i, now, lease)
            else r.task == t && exists i :: 0 <= i < |CurrentGens(t.groups)| && CurrentGens(t.groups)[i].status.GenRunning?
  {
  }

  lemma CountAfterUpdate(gens: seq<Gen>, i: nat, g: Gen)
    requires i < |gens| && g.status.GenSucceeded? == gens[i].status.GenSucceeded?
    ensures CountSucceeded(gens[i := g]) == CountSucceeded(gens)
    decreases |gens|
  {
    var gens' := gens[i := g];
    if i < |gens| - 1 {
      CountAfterUpdate(gens[..|gens| - 1], i, g);
      assert gens'[..|gens| - 1] == gens[..|gens| - 1][i := g];
    } else {
      assert gens'[..|gens| - 1] == gens[..|gens| - 1];
    }
  }

  lemma GrantedRows(im: Stage, groups: seq<seq<Gen>>, i: nat, lease: Lease)
    requires RowsLive(im, groups) && groups != [] && i < |CurrentGens(groups)| && Waiting(CurrentGens(groups)[i].status)
    requires !lease.revoked
    ensures var gens := CurrentGens(groups);
            RowsLive(GrantedStage(im, Candidate(|groups| - 1, i), lease),
                     groups[|groups| - 1 := gens[i := gens[i].(status := GenRunning, attempt := |im.attempts|)]])
  {
    var c := Candidate(|groups| - 1, i);
    forall d: Candidate
      ensures AttemptsOf(im.attempts + [NewAttempt(Some(c), lease)], d) == AttemptsOf(im.attempts, d) + (if d == c then 1 else 0)
    {
      CountAfterAppend(im.attempts, NewAttempt(Some(c), lease), d);
    }
  }

  lemma TakenGroup(t: Task, i: nat, now: Time, lease: Lease)
    requires |t.stages| == STAGE_COUNT && RowsLive(t.stages[IMAGE_EDIT], t.groups) && !lease.revoked
    requires i < |CurrentGens(t.groups)| && Waiting(CurrentGens(t.groups)[i].status)
    ensures var t' := CandidateGranted(t, i, now, lease);
            && GroupDecided(t'.stages[IMAGE_EDIT], CurrentGens(t'.groups)) && RowsLive(t'.stages[IMAGE_EDIT], t'.groups)
            && CountSucceeded(CurrentGens(t'.groups)) == CountSucceeded(CurrentGens(t.groups))
  {
    var gens := CurrentGens(t.groups);
    var g := gens[i].(status := GenRunning, attempt := |t.stages[IMAGE_EDIT].attempts|);
    GrantedRows(t.stages[IMAGE_EDIT], t.groups, i, lease);
    CountAfterUpdate(gens, i, g);
    assert Unfinished(gens[i := g][i].status);
  }

  lemma TakeKeeps(t: Task, now: Time, lease: Lease, automatic: bool)
    requires GroupInv(t) && Open(t.stages[IMAGE_EDIT].state) && !lease.revoked
    ensures GroupInv(TryLease(t, IMAGE_EDIT, now, lease, automatic).task)
    ensures CountSucceeded(CurrentGens(TryLease(t, IMAGE_EDIT, now, lease, automatic).task.groups)) == CountSucceeded(CurrentGens(t.groups))
  {
    var t1 := Materialized(t);
    MaterializedGroup(t);
    LeaseKeeps(t, IMAGE_EDIT, now, lease, automatic);
    TakeGrants(t1, now, lease, automatic);
    var r := TryCandidate(t1, now, lease, automatic);
    if r.Granted? {
      var i :| 0 <= i < |CurrentGens(t1.groups)| && Waiting(CurrentGens(t1.groups)[i].status) && r.task == CandidateGranted(t1, i, now, lease);
      TakenGroup(t1, i, now, lease);
    }
  }

  // ---------------------------------------------------------------- settling a candidate

  /** `x` rewrites row `a` of `im` in columns other than its candidate. */
  predicate RowRewritten(im: Stage, a: nat, x: Stage) {
    && a < |im.attempts| == |x.attempts|
    && x.attempts == im.attempts[a := x.attempts[a]]
    && x.attempts[a].candidate == im.attempts[a].candidate
    && x.maxAttempts == im.maxAttempts
  }

  /** Rewriting the row of the candidate that attempt `a` runs. */
  lemma SettledRows(im: Stage, groups: seq<seq<Gen>>, a: nat, g: Gen, x: Stage)
    requires RowsLive(im, groups) && RowRewritten(im, a, x) && CandidateRuns(groups, a, im.attempts[a].candidate)
    requires g.attempt == a && (g.status.GenRunning? ==> RunsLive(x, a, im.attempts[a].candidate.value))
    requires Waiting(g.status) ==> AttemptsOf(im.attempts, im.attempts[a].candidate.value) < im.maxAttempts
    ensures RowsLive(x, groups[|groups| - 1 := CurrentGens(groups)[im.attempts[a].candidate.value.index := g]])
  {
    var gens := CurrentGens(groups);
    var k := im.attempts[a].candidate.value.index;
    CountsUnchanged(im.attempts, x.attempts);
    forall i | 0 <= i < |gens| && i != k && gens[i].status.GenRunning?
      ensures RunsLive(x, gens[i].attempt, Candidate(|groups| - 1, i))
    {
      assert RunsLive(im, gens[i].attempt, Candidate(|groups| - 1, i));
    }
  }

  /** While a lease is out the group is open and its candidate has no intent. */
  lemma HeldIsOpen(t: Task, a: nat)
    requires GroupInv(t) && LeaseOf(t, IMAGE_EDIT, a).Some? && !LeaseOf(t, IMAGE_EDIT, a).value.revoked
    ensures Open(t.stages[IMAGE_EDIT].state) && t.stages[IMAGE_EDIT].attempts[a].commit.None?
    ensures CandidateRuns(t.groups, a, t.stages[IMAGE_EDIT].attempts[a].candidate)
    ensures |CurrentGens(t.groups)| == t.generations
  {
    HeldCandidate(t, a);
    assert AnyUnfinished(CurrentGens(t.groups));
  }

  /** What a held candidate's step needs to know about the rest of its task. */
  ghost predicate Held(t: Task, a: nat) {
    && |t.stages| == STAGE_COUNT && ValidKey(t, IMAGE_EDIT, a) && RowsLive(t.stages[IMAGE_EDIT], t.groups)
    && CandidateRuns(t.groups, a, t.stages[IMAGE_EDIT].attempts[a].candidate)
    && |CurrentGens(t.groups)| == t.generations
  }

  function IndexOf(t: Task, a: nat): nat
    requires |t.stages| == STAGE_COUNT && ValidKey(t, IMAGE_EDIT, a) && t.stages[IMAGE_EDIT].attempts[a].candidate.Some?
  {
    t.stages[IMAGE_EDIT].attempts[a].candidate.value.index
  }

  lemma MarkGroup(t: Task, item: Item, now: Time, boot: nat, seconds: Time)
    requires Held(t, item.attempt) && item.stage == IMAGE_EDIT && HoldsLease(t, item, now)
    requires GroupDecided(t.stages[IMAGE_EDIT], CurrentGens(t.groups)) && Open(t.stages[IMAGE_EDIT].state)
    requires t.stages[IMAGE_EDIT].attempts[item.attempt].commit.None?
    ensures GroupKept(MarkedRunning(t, item, now, boot, seconds))
  {
    var a := item.attempt;
    var g := CurrentGens(t.groups)[IndexOf(t, a)];
    var x := MarkedRunning(t, item, now, boot, seconds).stages[IMAGE_EDIT];
    SettledRows(t.stages[IMAGE_EDIT], t.groups, a, g, x);
    assert CurrentGens(t.groups)[IndexOf(t, a) := g] == CurrentGens(t.groups);
    assert t.groups[|t.groups| - 1 := CurrentGens(t.groups)] == t.groups;
    assert Unfinished(g.status);
  }

  lemma MarkKeeps(t: Task, item: Item, now: Time, boot: nat, seconds: Time)
    requires GroupInv(t) && item.stage == IMAGE_EDIT && HoldsLease(t, item, now)
    ensures GroupInv(MarkedRunning(t, item, now, boot, seconds))
    ensures MarkedRunning(t, item, now, boot, seconds).groups == t.groups
  {
    HeldIsOpen(t, item.attempt);
    MarkRunningKeeps(t, item, now, boot, seconds);
    MarkGroup(t, item, now, boot, seconds);
  }

  /** The state a group is in once candidate `i` has become `g`. */
  function SettledState(gens: seq<Gen>): StageState {
    if AnyUnfinished(gens) then Ready else if CountSucceeded(gens) > 0 then Succeeded else FailedTerminal
  }

  lemma DeliveredTask(t: Task, item: Item, now: Time, artifacts: seq<Artifact>, automatic: bool)
    requires Held(t, item.attempt) && item.stage == IMAGE_EDIT && CanPrepare(t, item, now)
    ensures var a := item.attempt;
            var t' := Delivered(t, item, artifacts, automatic);
            var gens := CurrentGens(t.groups)[IndexOf(t, a) := Gen(GenSucceeded, a, HasImage(artifacts))];
            && t'.groups == t.groups[|t.groups| - 1 := gens] && t'.stages[IMAGE_EDIT].state == SettledState(gens)
            && RowRewritten(t.stages[IMAGE_EDIT], a, t'.stages[IMAGE_EDIT])
  {
    var a := item.attempt;
    var c := t.stages[IMAGE_EDIT].attempts[a].candidate.value;
    CurrentGroupReplaced(t.groups, a, c, GenSucceeded, HasImage(artifacts), t.generations);
    var gens := CurrentGens(t.groups)[c.index := Gen(GenSucceeded, a, HasImage(artifacts))];
    assert gens[c.index].status.GenSucceeded?;
  }

  /** A task whose current group has row `i` replaced and whose image stage is settled accordingly. */
  lemma SettledGroup(t: Task, a: nat, g: Gen, t': Task)
    requires Held(t, a) && g.attempt == a && !g.status.GenRunning?
    requires Waiting(g.status) ==>
               AttemptsOf(t.stages[IMAGE_EDIT].attempts, t.stages[IMAGE_EDIT].attempts[a].candidate.value) < t.stages[IMAGE_EDIT].maxAttempts
    requires |t'.stages| == STAGE_COUNT && RowRewritten(t.stages[IMAGE_EDIT], a, t'.stages[IMAGE_EDIT])
    requires t'.groups == t.groups[|t.groups| - 1 := CurrentGens(t.groups)[IndexOf(t, a) := g]]
    requires t'.stages[IMAGE_EDIT].state == SettledState(CurrentGens(t.groups)[IndexOf(t, a) := g])
    ensures GroupKept(t') && CurrentGens(t'.groups) == CurrentGens(t.groups)[IndexOf(t, a) := g]
  {
    SettledRows(t.stages[IMAGE_EDIT], t.groups, a, g, t'.stages[IMAGE_EDIT]);
  }

  lemma DeliverGroup(t: Task, item: Item, now: Time, artifacts: seq<Artifact>, automatic: bool)
    requires Held(t, item.attempt) && item.stage == IMAGE_EDIT && CanPrepare(t, item, now)
    ensures GroupKept(Delivered(t, item, artifacts, automatic))
    ensures CountSucceeded(CurrentGens(Delivered(t, item, artifacts, automatic).groups)) > 0
  {
    var a := item.attempt;
    var g := Gen(GenSucceeded, a, HasImage(artifacts));
    DeliveredTask(t, item, now, artifacts, automatic);
    SettledGroup(t, a, g, Delivered(t, item, artifacts, automatic));
    assert CurrentGens(t.groups)[IndexOf(t, a) := g][IndexOf(t, a)].status.GenSucceeded?;
  }

  lemma DeliverTaskInv(t: Task, item: Item, now: Time, artifacts: seq<Artifact>, automatic: bool)
    requires TaskInv(t) && item.stage == IMAGE_EDIT && CanPrepare(t, item, now)
    ensures TaskInv(Delivered(t, item, artifacts, automatic))
  {
    var a := item.attempt;
    var prepared := PreparedTask(t, IMAGE_EDIT, a, artifacts);
    PrepareKeeps(t, item, now, artifacts);
    PublishKeeps(prepared, IMAGE_EDIT, a);
    var published := PublishedTask(prepared, IMAGE_EDIT, a);
    assert CanFinalize(published, IMAGE_EDIT, a, None);
    FinalizeKeeps(published, IMAGE_EDIT, a, automatic);
  }

  lemma DeliverKeeps(t: Task, item: Item, now: Time, artifacts: seq<Artifact>, automatic: bool)
    requires GroupInv(t) && item.stage == IMAGE_EDIT && CanPrepare(t, item, now)
    ensures GroupInv(Delivered(t, item, artifacts, automatic))
    ensures CountSucceeded(CurrentGens(Delivered(t, item, artifacts, automatic).groups)) > 0
  {
    HeldIsOpen(t, item.attempt);
    DeliverTaskInv(t, item, now, artifacts, automatic);
    DeliverGroup(t, item, now, artifacts, automatic);
  }

  function DroppedGen(t: Task, a: nat, r: Report): Gen
    requires |t.stages| == STAGE_COUNT && ValidKey(t, IMAGE_EDIT, a)
    requires CandidateRuns(t.groups, a, t.stages[IMAGE_EDIT].attempts[a].candidate)
  {
    GenAfter(VerdictOn(t, a, r), a, CurrentGens(t.groups)[IndexOf(t, a)].image)
  }

  lemma DroppedTask(t: Task, a: nat, now: Time, r: Report, automatic: bool)
    requires Held(t, a) && PlainLoss(r)
    ensures var t' := FailTask(t, IMAGE_EDIT, a, now, r, automatic);
            var gens := CurrentGens(t.groups)[IndexOf(t, a) := DroppedGen(t, a, r)];
            && t'.groups == t.groups[|t.groups| - 1 := gens] && t'.stages[IMAGE_EDIT].state == SettledState(gens)
            && RowRewritten(t.stages[IMAGE_EDIT], a, t'.stages[IMAGE_EDIT])
  {
    var c := t.stages[IMAGE_EDIT].attempts[a].candidate.value;
    var g := DroppedGen(t, a, r);
    CurrentGroupReplaced(t.groups, a, c, g.status, g.image, t.generations);
    if VerdictOn(t, a, r).Ready? {
      assert Unfinished(CurrentGens(t.groups)[c.index := g][c.index].status);
    }
  }

  lemma DropGroup(t: Task, a: nat, now: Time, r: Report, automatic: bool)
    requires Held(t, a) && PlainLoss(r)
    ensures GroupKept(FailTask(t, IMAGE_EDIT, a, now, r, automatic))
    ensures CountSucceeded(CurrentGens(FailTask(t, IMAGE_EDIT, a, now, r, automatic).groups)) == CountSucceeded(CurrentGens(t.groups))
  {
    DroppedTask(t, a, now, r, automatic);
    var g := DroppedGen(t, a, r);
    SettledGroup(t, a, g, FailTask(t, IMAGE_EDIT, a, now, r, automatic));
    CountAfterUpdate(CurrentGens(t.groups), IndexOf(t, a), g);
  }

  lemma DropKeeps(t: Task, a: nat, now: Time, r: Report, automatic: bool)
    requires GroupInv(t) && LeaseOf(t, IMAGE_EDIT, a).Some? && !LeaseOf(t, IMAGE_EDIT, a).value.revoked && PlainLoss(r)
    ensures GroupInv(FailTask(t, IMAGE_EDIT, a, now, r, automatic))
    ensures CountSucceeded(CurrentGens(FailTask(t, IMAGE_EDIT, a, now, r, automatic).groups)) == CountSucceeded(CurrentGens(t.groups))
  {
    HeldIsOpen(t, a);
    FailKeeps(t, IMAGE_EDIT, a, now, r, automatic);
    DropGroup(t, a, now, r, automatic);
  }

  // ---------------------------------------------------------------- any order, any mix

  lemma StepKeeps(t: Task, step: GroupStep, automatic: bool)
    requires GroupInv(t)
    ensures GroupInv(After(t, step, automatic))
  {
    if Enabled(t, step) {
      match step
      case Take(now, lease) => TakeKeeps(t, now, lease, automatic);
      case Mark(item, now, boot, seconds) => MarkKeeps(t, item, now, boot, seconds);
      case Deliver(item, now, artifacts) => DeliverKeeps(t, item, now, artifacts, automatic);
      case Drop(item, now, report) => DropKeeps(t, item.attempt, now, report, automatic);
    }
  }

  /** A group that is about to be run: the image stage is ready and no row of the group exists. */
  ghost predicate GroupStart(t: Task) {
    && TaskInv(t) && t.stages[IMAGE_EDIT].state.Ready? && CurrentGens(t.groups) == []
    && t.stages[IMAGE_EDIT].maxAttempts > 0
    && forall a :: 0 <= a < |t.stages[IMAGE_EDIT].attempts| ==>
         t.stages[IMAGE_EDIT].attempts[a].candidate.value.group < |t.groups| - 1
  }

  ghost function GroupRun(t: Task, steps: seq<GroupStep>, automatic: bool): (t': Task)
    requires GroupInv(t)
    ensures GroupInv(t')
    decreases |steps|
  {
    if steps == [] then t
    else
      var before := GroupRun(t, steps[..|steps| - 1], automatic);
      StepKeeps(before, steps[|steps| - 1], automatic);
      After(before, steps[|steps| - 1], automatic)
  }

  lemma StartIsOpen(t: Task)
    requires GroupStart(t)
    ensures GroupInv(t)
  {
    forall c: Candidate | c.group == |t.groups| - 1 ensures AttemptsOf(t.stages[IMAGE_EDIT].attempts, c) == 0 {
      NoAttemptsBelow(t.stages[IMAGE_EDIT].attempts, c);
    }
  }

  predicate HasSuccess(t: Task) {
    CountSucceeded(CurrentGens(t.groups)) > 0
  }

  /** The reviews of the current generation group. */
  function GroupReviews(t: Task): set<nat>
    requires |t.stages| == STAGE_COUNT
  {
    set r: nat | r < |t.reviews| && ReviewGroup(t.stages[IMAGE_EDIT].attempts, t.reviews[r]) == |t.groups| - 1
  }

  lemma OneReviewIfDone(t: Task)
    requires TaskInv(t)
    ensures GroupReviews(t) == if t.stages[IMAGE_EDIT].state.Succeeded? then {|t.reviews| - 1} else {}
  {
    var im := t.stages[IMAGE_EDIT];
    forall r | 0 <= r < |t.reviews| && ReviewGroup(im.attempts, t.reviews[r]) == |t.groups| - 1
      ensures im.state.Succeeded? && r == |t.reviews| - 1
    {
    }
  }

  // ---------------------------------------------------------------- progress

  /** An open group can always move: a candidate can be taken, or a running one still holds its lease. */
  lemma OpenGroupMoves(t: Task, now: Time, lease: Lease, automatic: bool)
    requires GroupInv(t) && Open(t.stages[IMAGE_EDIT].state)
    ensures || TryLease(t, IMAGE_EDIT, now, lease, automatic).Granted?
            || exists a :: 0 <= a < |t.stages[IMAGE_EDIT].attempts| && t.stages[IMAGE_EDIT].attempts[a].lease.Some?
                           && !t.stages[IMAGE_EDIT].attempts[a].lease.value.revoked && t.stages[IMAGE_EDIT].attempts[a].commit.None?
  {
    var t1 := Materialized(t);
    MaterializedGroup(t);
    TakeGrants(t1, now, lease, automatic);
    if TryCandidate(t1, now, lease, automatic).Skipped? {
      var i :| 0 <= i < |CurrentGens(t1.groups)| && CurrentGens(t1.groups)[i].status.GenRunning?;
      assert RunsLive(t1.stages[IMAGE_EDIT], CurrentGens(t1.groups)[i].attempt, Candidate(|t1.groups| - 1, i));
    }
  }

  function Weight(im: Stage, group: nat, i: nat, g: Gen): nat {
    var left := im.maxAttempts - AttemptsOf(im.attempts, Candidate(group, i));
    if left < 0 || !Unfinished(g.status) then 0 else if g.status.GenRunning? then 2 * left + 1 else 2 * left
  }

  /** Steps the unsettled candidates still have: two for each attempt that is left, one for a running one. */
  function StepsLeft(im: Stage, group: nat, gens: seq<Gen>): nat {
    if gens == [] then 0
    else StepsLeft(im, group, gens[..|gens| - 1]) + Weight(im, group, |gens| - 1, gens[|gens| - 1])
  }

  function Left(t: Task): nat
    requires |t.stages| == STAGE_COUNT && t.groups != []
  {
    var gens := CurrentGens(t.groups);
    if gens == [] then 2 * t.stages[IMAGE_EDIT].maxAttempts * t.generations
    else StepsLeft(t.stages[IMAGE_EDIT], |t.groups| - 1, gens)
  }

  predicate SameCounts(im: Stage, im': Stage, group: nat, n: nat, except: nat) {
    && im'.maxAttempts == im.maxAttempts
    && forall j :: 0 <= j < n && j != except ==>
         AttemptsOf(im'.attempts, Candidate(group, j)) == AttemptsOf(im.attempts, Candidate(group, j))
  }

  lemma {:induction false} LeftAfterUpdate(im: Stage, im': Stage, group: nat, gens: seq<Gen>, i: nat, g: Gen)
    requires i < |gens| && SameCounts(im, im', group, |gens|, i)
    ensures StepsLeft(im', group, gens[i := g]) + Weight(im, group, i, gens[i])
         == StepsLeft(im, group, gens) + Weight(im', group, i, g)
    decreases |gens|
  {
    var n := |gens| - 1;
    if i < n {
      LeftAfterUpdate(im, im', group, gens[..n], i, g);
      assert gens[i := g][..n] == gens[..n][i := g];
      assert AttemptsOf(im'.attempts, Candidate(group, n)) == AttemptsOf(im.attempts, Candidate(group, n));
    } else {
      assert gens[i := g][..n] == gens[..n];
      SameLeft(im, im', group, gens[..n]);
    }
  }

  lemma {:induction false} SameLeft(im: Stage, im': Stage, group: nat, gens: seq<Gen>)
    requires SameCounts(im, im', group, |gens|, |gens|)
    ensures StepsLeft(im', group, gens) == StepsLeft(im, group, gens)
    decreases |gens|
  {
    if gens != [] {
      SameLeft(im, im', group, gens[..|gens| - 1]);
      assert AttemptsOf(im'.attempts, Candidate(group, |gens| - 1)) == AttemptsOf(im.attempts, Candidate(group, |gens| - 1));
    }
  }

  lemma {:induction false} FreshLeft(im: Stage, group: nat, gens: seq<Gen>)
    requires forall i :: 0 <= i < |gens| ==> gens[i].status.GenPending?
    requires forall c: Candidate :: c.group == group ==> AttemptsOf(im.attempts, c) == 0
    ensures StepsLeft(im, group, gens) == 2 * im.maxAttempts * |gens|
    decreases |gens|
  {
    if gens != [] {
      FreshLeft(im, group, gens[..|gens| - 1]);
    }
  }

  lemma MaterializedLeft(t: Task)
    requires |t.stages| == STAGE_COUNT && RowsLive(t.stages[IMAGE_EDIT], t.groups) && t.generations > 0
    ensures Materialized(t).groups != [] && Left(Materialized(t)) == Left(t)
  {
    if CurrentGens(t.groups) == [] {
      FreshLeft(t.stages[IMAGE_EDIT], |t.groups| - 1, CurrentGens(Materialized(t).groups));
    }
  }

  lemma TakenLeft(t: Task, i: nat, now: Time, lease: Lease)
    requires |t.stages| == STAGE_COUNT && RowsLive(t.stages[IMAGE_EDIT], t.groups)
    requires i < |CurrentGens(t.groups)| && Waiting(CurrentGens(t.groups)[i].status)
    ensures CandidateGranted(t, i, now, lease).groups != [] && Left(CandidateGranted(t, i, now, lease)) < Left(t)
  {
    var t' := CandidateGranted(t, i, now, lease);
    var im, im', group := t.stages[IMAGE_EDIT], t'.stages[IMAGE_EDIT], |t.groups| - 1;
    forall d: Candidate ensures AttemptsOf(im'.attempts, d) == AttemptsOf(im.attempts, d) + (if d == Candidate(group, i) then 1 else 0) {
      CountAfterAppend(im.attempts, NewAttempt(Some(Candidate(group, i)), lease), d);
    }
    LeftAfterUpdate(im, im', group, CurrentGens(t.groups), i, CurrentGens(t'.groups)[i]);
  }

  /** Settling a running candidate: it has no step left, or two for each attempt that is left. */
  lemma SettledLeft(t: Task, a: nat, g: Gen, t': Task)
    requires Held(t, a) && |t'.stages| == STAGE_COUNT && RowRewritten(t.stages[IMAGE_EDIT], a, t'.stages[IMAGE_EDIT])
    requires t'.groups == t.groups[|t.groups| - 1 := CurrentGens(t.groups)[IndexOf(t, a) := g]]
    requires !g.status.GenRunning? && AttemptsOf(t.stages[IMAGE_EDIT].attempts, Candidate(|t.groups| - 1, IndexOf(t, a))) <= t.stages[IMAGE_EDIT].maxAttempts
    ensures Left(t') < Left(t)
  {
    var im, im', group := t.stages[IMAGE_EDIT], t'.stages[IMAGE_EDIT], |t.groups| - 1;
    CountsUnchanged(im.attempts, im'.attempts);
    LeftAfterUpdate(im, im', group, CurrentGens(t.groups), IndexOf(t, a), g);
  }

  /** Steps that take or settle a candidate. */
  predicate Moves(t: Task, step: GroupStep, automatic: bool)
    requires |t.stages| == STAGE_COUNT && t.groups != []
  {
    && Enabled(t, step) && !step.Mark?
    && (step.Take? ==> TryLease(t, IMAGE_EDIT, step.now, step.lease, automatic).Granted?)
  }

  lemma TakeShrinks(t: Task, now: Time, lease: Lease, automatic: bool)
    requires GroupInv(t) && Open(t.stages[IMAGE_EDIT].state) && !lease.revoked
    ensures var r := TryLease(t, IMAGE_EDIT, now, lease, automatic);
            |r.task.stages| == STAGE_COUNT && r.task.groups != [] && (if r.Granted? then Left(r.task) < Left(t) else Left(r.task) == Left(t))
  {
    var t1 := Materialized(t);
    MaterializedGroup(t);
    MaterializedLeft(t);
    TakeGrants(t1, now, lease, automatic);
    var r := TryCandidate(t1, now, lease, automatic);
    if r.Granted? {
      var i :| 0 <= i < |CurrentGens(t1.groups)| && Waiting(CurrentGens(t1.groups)[i].status) && r.task == CandidateGranted(t1, i, now, lease);
      TakenLeft(t1, i, now, lease);
    }
  }

  lemma MarkLeft(t: Task, item: Item, now: Time, boot: nat, seconds: Time)
    requires |t.stages| == STAGE_COUNT && t.groups != [] && item.stage == IMAGE_EDIT && HoldsLease(t, item, now)
    ensures Left(MarkedRunning(t, item, now, boot, seconds)) == Left(t)
  {
    var t' := MarkedRunning(t, item, now, boot, seconds);
    CountsUnchanged(t.stages[IMAGE_EDIT].attempts, t'.stages[IMAGE_EDIT].attempts);
    SameLeft(t.stages[IMAGE_EDIT], t'.stages[IMAGE_EDIT], |t.groups| - 1, CurrentGens(t.groups));
  }

  lemma SettleShrinks(t: Task, step: GroupStep, automatic: bool)
    requires GroupInv(t) && Enabled(t, step) && (step.Deliver? || step.Drop?)
    ensures |After(t, step, automatic).stages| == STAGE_COUNT && After(t, step, automatic).groups != []
    ensures Left(After(t, step, automatic)) < Left(t)
  {
    var a := step.item.attempt;
    HeldIsOpen(t, a);
    if step.Deliver? {
      DeliveredTask(t, step.item, step.now, step.artifacts, automatic);
      SettledLeft(t, a, Gen(GenSucceeded, a, HasImage(step.artifacts)), After(t, step, automatic));
    } else {
      DroppedTask(t, a, step.now, step.report, automatic);
      SettledLeft(t, a, DroppedGen(t, a, step.report), After(t, step, automatic));
    }
  }

  lemma StepShrinks(t: Task, step: GroupStep, automatic: bool)
    requires GroupInv(t)
    ensures |After(t, step, automatic).stages| == STAGE_COUNT && After(t, step, automatic).groups != []
    ensures Left(After(t, step, automatic)) <= Left(t) && (Moves(t, step, automatic) ==> Left(After(t, step, automatic)) < Left(t))
  {
    if Enabled(t, step) {
      match step
      case Take(now, lease) => TakeShrinks(t, now, lease, automatic);
      case Mark(item, now, boot, seconds) => MarkLeft(t, item, now, boot, seconds);
      case _ => SettleShrinks(t, step, automatic);
    }
  }

  ghost function CountMoves(t: Task, steps: seq<GroupStep>, automatic: bool): nat
    requires GroupInv(t)
    decreases |steps|
  {
    if steps == [] then 0
    else
      CountMoves(t, steps[..|steps| - 1], automatic)
      + (if Moves(GroupRun(t, steps[..|steps| - 1], automatic), steps[|steps| - 1], automatic) then 1 else 0)
  }

  lemma {:induction false} MovesBounded(t: Task, steps: seq<GroupStep>, automatic: bool)
    requires GroupInv(t)
    ensures CountMoves(t, steps, automatic) + Left(GroupRun(t, steps, automatic)) <= Left(t)
    decreases |steps|
  {
    if steps != [] {
      MovesBounded(t, steps[..|steps| - 1], automatic);
      StepShrinks(GroupRun(t, steps[..|steps| - 1], automatic), steps[|steps| - 1], automatic);
    }
  }

  /** No run of a group takes and settles candidates more often than its attempt budget allows, so with
      OpenGroupMoves every run that keeps going decides the group. */
  lemma GroupTerminates(t: Task, steps: seq<GroupStep>, automatic: bool)
    requires GroupStart(t)
    ensures GroupInv(t)
    ensures CountMoves(t, steps, automatic) <= 2 * t.stages[IMAGE_EDIT].maxAttempts * t.generations
  {
    StartIsOpen(t);
    MovesBounded(t, steps, automatic);
  }

  // ---------------------------------------------------------------- where a group gets stuck

  predicate AnyWaiting(gens: seq<Gen>) {
    exists i :: 0 <= i < |gens| && Waiting(gens[i].status)
  }

  /** Expiry of an image-edit lease makes the stage ready again but leaves its candidate's row running:
      nothing holds a lease any more, and no dispatch ever takes that candidate again. The stage can be
      leased again exactly if another candidate is waiting; otherwise every dispatch skips it unchanged. */
  lemma ExpiryStrandsCandidate(t: Task, a: nat, now: Time, lease: Lease, automatic: bool)
    requires TaskInv(t) && LeaseOf(t, IMAGE_EDIT, a).Some? && !LeaseOf(t, IMAGE_EDIT, a).value.revoked
    requires a + 1 < t.stages[IMAGE_EDIT].maxAttempts
    ensures var t' := ExpiredTask(t, IMAGE_EDIT, a, true, a, a);
            var gens := CurrentGens(t'.groups);
            && |t'.stages| == STAGE_COUNT && t'.groups == t.groups && t'.groups != []
            && t'.stages[IMAGE_EDIT].state.Ready?
            && (forall b :: 0 <= b < |t'.stages[IMAGE_EDIT].attempts| ==> t'.stages[IMAGE_EDIT].attempts[b].lease.None?)
            && t.stages[IMAGE_EDIT].attempts[a].candidate.Some?
            && IndexOf(t, a) < |gens| && gens[IndexOf(t, a)].status.GenRunning?
            && (!AnyWaiting(gens) ==> TryLease(t', IMAGE_EDIT, now, lease, automatic) == Skipped(t'))
            && (RowsLive(t.stages[IMAGE_EDIT], t.groups) ==>
                  (TryLease(t', IMAGE_EDIT, now, lease, automatic).Granted? <==> AnyWaiting(gens)))
  {
    HeldCandidate(t, a);
    ExpiredStage(t.stages[IMAGE_EDIT], a);
    StrandedDispatch(ExpiredTask(t, IMAGE_EDIT, a, true, a, a), IndexOf(t, a), now, lease, automatic);
    CountsUnchanged(t.stages[IMAGE_EDIT].attempts, ExpiredTask(t, IMAGE_EDIT, a, true, a, a).stages[IMAGE_EDIT].attempts);
  }

  /** With a row left running, a dispatch grants the first waiting candidate with attempts left, or nothing. */
  lemma StrandedDispatch(t: Task, i: nat, now: Time, lease: Lease, automatic: bool)
    requires |t.stages| == STAGE_COUNT && t.groups != []
    requires i < |CurrentGens(t.groups)| && CurrentGens(t.groups)[i].status.GenRunning?
    ensures var gens := CurrentGens(t.groups);
            var r := TryLease(t, IMAGE_EDIT, now, lease, automatic);
            && (!AnyWaiting(gens) ==> r == Skipped(t))
            && (r.Granted? ==> AnyWaiting(gens))
            && ((forall j :: 0 <= j < |gens| && Waiting(gens[j].status) ==>
                   AttemptsOf(t.stages[IMAGE_EDIT].attempts, Candidate(|t.groups| - 1, j)) < t.stages[IMAGE_EDIT].maxAttempts) ==>
                  (r.Granted? <==> AnyWaiting(gens)))
  {
  }

  lemma ExpiredStage(im: Stage, a: nat)
    requires a < |im.attempts| && a + 1 < im.maxAttempts
    ensures var x := WithRevokedLeases(im);
            var y := WithoutLeases(WithAttempt(x, a, x.attempts[a].(status := LeaseExpired)).(state := Ready, error := Some(WorkerLost)));
            forall b :: 0 <= b < |y.attempts| ==> y.attempts[b].lease.None?
  {
  }
}
