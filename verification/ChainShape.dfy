/** The shape of a task's fifteen stages: a chain, or a chain diverted to the debug bundle. */
module ChainShape {
  import opened Tables
  import opened Transitions

  /** Neither waiting for a predecessor nor given up. */
  predicate Active(x: StageState) {
    !x.Pending? && !x.Canceled?
  }

  /** Some worker, operator or timer may still move this stage. */
  predicate Live(x: StageState) {
    Active(x) && !Terminal(x)
  }

  predicate Lost(x: StageState) {
    x.FailedTerminal? || x.Rejected?
  }

  predicate DivertedAt(st: seq<Stage>, f: nat)
    requires |st| == STAGE_COUNT
  {
    && MODEL_GENERATION <= f <= SAGS_SEGMENT_VOTE
    && Lost(st[f].state)
    && (forall j :: f < j < DEBUG_BUNDLE ==> st[j].state.Canceled?)
    && (forall j :: UNITY_APPLY <= j < STAGE_COUNT ==> st[j].state.Canceled?)
  }

  predicate Diverted(st: seq<Stage>)
    requires |st| == STAGE_COUNT
  {
    exists f :: 0 <= f < STAGE_COUNT && DivertedAt(st, f)
  }

  /** The inductive form: a stage only becomes active once its predecessor succeeded, except that the
      debug bundle of a diverted task needs no successful predecessor. */
  predicate Linked(st: seq<Stage>) {
    && |st| == STAGE_COUNT
    && forall i :: 1 <= i < STAGE_COUNT && Active(st[i].state) ==>
         st[i - 1].state.Succeeded? || (i == DEBUG_BUNDLE && Diverted(st))
  }

  // ---------------------------------------------------------------- the two shapes

  /** Stages lo..hi: a succeeded prefix, any frontier stage f, then only pending or canceled. */
  predicate ChainBetween(st: seq<Stage>, lo: nat, f: nat, hi: nat)
    requires |st| == STAGE_COUNT && hi <= STAGE_COUNT
  {
    && lo <= f <= hi
    && (forall i :: lo <= i < f ==> st[i].state.Succeeded?)
    && (f < hi ==> !st[f].state.Succeeded?)
    && (forall i :: f < i < hi ==> !Active(st[i].state))
  }

  predicate Normal(st: seq<Stage>)
    requires |st| == STAGE_COUNT
  {
    exists f :: 0 <= f <= STAGE_COUNT && ChainBetween(st, 0, f, STAGE_COUNT)
  }

  /** One remote stage f was lost after a succeeded prefix; the stages up to the debug bundle and
      everything from unity_apply on are canceled; debug_bundle and download_results form the rest. */
  predicate DivertedShape(st: seq<Stage>, f: nat)
    requires |st| == STAGE_COUNT
  {
    && DivertedAt(st, f)
    && (forall i :: 0 <= i < f ==> st[i].state.Succeeded?)
    && (exists g :: 0 <= g <= STAGE_COUNT && ChainBetween(st, DEBUG_BUNDLE, g, UNITY_APPLY))
  }

  lemma {:induction false} PrefixSucceeded(st: seq<Stage>, i: nat, j: nat)
    requires Linked(st) && j < i < STAGE_COUNT && Active(st[i].state)
    requires i < DEBUG_BUNDLE || DEBUG_BUNDLE <= j
    ensures st[j].state.Succeeded?
    decreases i
  {
    if j < i - 1 {
      PrefixSucceeded(st, i - 1, j);
    }
  }

  /** Nothing behind a live stage is active. */
  lemma {:induction false} TailInactive(st: seq<Stage>, s: nat, j: nat)
    requires Linked(st) && s < j < STAGE_COUNT && !st[s].state.Succeeded?
    requires s < DEBUG_BUNDLE && Diverted(st) ==> Live(st[s].state)
    ensures !Active(st[j].state)
    decreases j
  {
    if j > s + 1 {
      TailInactive(st, s, j - 1);
    }
    if j == DEBUG_BUNDLE && Diverted(st) {
      var f :| 0 <= f < STAGE_COUNT && DivertedAt(st, f);
      if s < f {
        TailInactive(st, s, f);
      }
    }
  }

  /** Every reachable task has one of the two shapes. */
  lemma {:induction false} LinkedIsNormalOrDiverted(st: seq<Stage>)
    requires Linked(st)
    ensures Normal(st) || exists f :: 0 <= f < STAGE_COUNT && DivertedShape(st, f)
  {
    if Diverted(st) {
      var f :| 0 <= f < STAGE_COUNT && DivertedAt(st, f);
      forall i | 0 <= i < f ensures st[i].state.Succeeded? {
        PrefixSucceeded(st, f, i);
      }
      var g := if !st[DEBUG_BUNDLE].state.Succeeded? then DEBUG_BUNDLE
               else if !st[DOWNLOAD_RESULTS].state.Succeeded? then DOWNLOAD_RESULTS else UNITY_APPLY;
      assert ChainBetween(st, DEBUG_BUNDLE, g, UNITY_APPLY);
      assert DivertedShape(st, f);
    } else {
      var f := Frontier(st, 0);
      forall i | f < i < STAGE_COUNT ensures !Active(st[i].state) {
        TailInactive(st, f, i);
      }
      assert ChainBetween(st, 0, f, STAGE_COUNT);
    }
  }

  /** The first stage from i on that has not succeeded, or STAGE_COUNT. */
  function Frontier(st: seq<Stage>, i: nat): (f: nat)
    requires |st| == STAGE_COUNT && i <= STAGE_COUNT
    ensures i <= f <= STAGE_COUNT
    ensures forall j :: i <= j < f ==> st[j].state.Succeeded?
    ensures f < STAGE_COUNT ==> !st[f].state.Succeeded?
    decreases STAGE_COUNT - i
  {
    if i == STAGE_COUNT || !st[i].state.Succeeded? then i else Frontier(st, i + 1)
  }

  /** At most one stage of a task is ever live. */
  lemma {:induction false} OneLiveStage(st: seq<Stage>, i: nat, j: nat)
    requires Linked(st) && i < STAGE_COUNT && j < STAGE_COUNT
    requires Live(st[i].state) && Live(st[j].state)
    ensures i == j
  {
    if i < j {
      TailInactive(st, i, j);
    } else if j < i {
      TailInactive(st, j, i);
    }
  }

  lemma {:induction false} GateBefore(st: seq<Stage>, i: nat)
    requires Linked(st) && EDIT_GATE < i < STAGE_COUNT && Active(st[i].state)
    ensures st[EDIT_GATE].state.Succeeded?
  {
    if i < DEBUG_BUNDLE {
      PrefixSucceeded(st, i, EDIT_GATE);
    } else {
      if i > DEBUG_BUNDLE {
        PrefixSucceeded(st, i, DEBUG_BUNDLE);
      }
      if st[SAGS_SEGMENT_VOTE].state.Succeeded? {
        PrefixSucceeded(st, SAGS_SEGMENT_VOTE, EDIT_GATE);
      } else {
        var f :| 0 <= f < STAGE_COUNT && DivertedAt(st, f);
        PrefixSucceeded(st, f, EDIT_GATE);
      }
    }
  }

  // ---------------------------------------------------------------- how transitions keep the chain

  /** A stage somebody holds can move to any state: the image stage may be lost or canceled and come
      back while a sibling candidate still runs. */
  predicate Movable(st: seq<Stage>, s: nat)
    requires |st| == STAGE_COUNT && s < STAGE_COUNT
  {
    Live(st[s].state) || (s == IMAGE_EDIT && !st[s].state.Succeeded? && st[UNITY_ANCHOR].state.Succeeded?)
  }

  lemma MoveKeepsLinked(st: seq<Stage>, s: nat, x: Stage)
    requires Linked(st) && s < STAGE_COUNT && Movable(st, s)
    ensures Linked(st[s := x])
  {
    var st' := st[s := x];
    if Diverted(st) {
      var f :| 0 <= f < STAGE_COUNT && DivertedAt(st, f);
      if f < s {
        assert DivertedAt(st', f);
      } else if f > s {
        assert DivertedAt(st', f);
      }
    }
  }

  lemma RouteKeepsLinked(t: Task, s: nat, x: Stage, code: ErrorCode)
    requires Linked(t.stages) && s < STAGE_COUNT && Live(t.stages[s].state) && Lost(x.state)
    ensures Linked(RouteDebugBundle(WithStage(t, s, x), s, code).stages)
  {
    MoveKeepsLinked(t.stages, s, x);
    var t1 := WithStage(t, s, x);
    var t2 := RouteDebugBundle(t1, s, code);
    if MODEL_GENERATION <= s <= SAGS_SEGMENT_VOTE {
      forall j | s < j < STAGE_COUNT ensures !Active(t.stages[j].state) {
        TailInactive(t.stages, s, j);
      }
      assert DivertedAt(t2.stages, s);
    }
  }

  lemma RefreshRoundKeepsLinked(t: Task)
    requires Linked(t.stages)
    ensures Linked(RefreshRound(t).stages)
  {
    var t' := RefreshRound(t);
    if Diverted(t.stages) {
      var f :| 0 <= f < STAGE_COUNT && DivertedAt(t.stages, f);
      assert DivertedAt(t'.stages, f);
    }
  }
}
