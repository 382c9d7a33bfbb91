/** `retry` is not part of the runs above: it rewrites every stage behind a retried row, whatever its state,
    and can leave the chain. This is exactly when it does not. */
module ManualRetry {
  import opened Tables
  import opened ChainShape

  /** The states that retry selects. */
  predicate Retryable(x: StageState) {
    x.FailedTerminal? || x.Rejected? || x.WaitingManual?
  }

  function ResetStage(st: Stage): Stage {
    st.(state := Pending, notBefore := 0.0, error := None)
  }

  function RetriedStage(st: Stage): Stage {
    var n := |st.attempts| + 1;
    st.(state := Ready, notBefore := 0.0, error := None, maxAttempts := if st.maxAttempts < n then n else st.maxAttempts)
  }

  /** One selected row: it becomes ready and every later stage pending. */
  function RetriedRow(st: seq<Stage>, r: nat): (st': seq<Stage>)
    requires |st| == STAGE_COUNT && r < STAGE_COUNT
    ensures |st'| == STAGE_COUNT
  {
    seq(STAGE_COUNT, (i: nat) requires i < STAGE_COUNT =>
      if i < r then st[i] else if i == r then RetriedStage(st[i]) else ResetStage(st[i]))
  }

  /** The selected rows of the task, each once, in whatever order the query returns them. */
  predicate Selection(st: seq<Stage>, rows: seq<nat>)
    requires |st| == STAGE_COUNT
  {
    && (forall k :: 0 <= k < |rows| ==> rows[k] < STAGE_COUNT && Retryable(st[rows[k]].state))
    && (forall k, m :: 0 <= k < m < |rows| ==> rows[k] != rows[m])
  }

  /** The loop over the selected rows. */
  method Retry(stages: seq<Stage>, rows: seq<nat>) returns (st: seq<Stage>)
    requires |stages| == STAGE_COUNT && Selection(stages, rows)
    ensures st == Retried(stages, rows)
  {
    st := stages;
    for k := 0 to |rows|
      invariant |st| == STAGE_COUNT && st == Retried(stages, rows[..k])
    {
      st := st[rows[k] := RetriedStage(st[rows[k]])];
      for i := rows[k] + 1 to STAGE_COUNT
        invariant |st| == STAGE_COUNT
        invariant forall j :: 0 <= j < i ==> st[j] == RetriedRow(Retried(stages, rows[..k]), rows[k])[j]
        invariant forall j :: i <= j < STAGE_COUNT ==> st[j] == Retried(stages, rows[..k])[j]
      {
        st := st[i := ResetStage(st[i])];
      }
      assert rows[..k + 1][..k] == rows[..k];
      assert st == RetriedRow(Retried(stages, rows[..k]), rows[k]);
    }
    assert rows[..|rows|] == rows;
  }

  function Retried(st: seq<Stage>, rows: seq<nat>): (st': seq<Stage>)
    requires |st| == STAGE_COUNT && forall k :: 0 <= k < |rows| ==> rows[k] < STAGE_COUNT
    ensures |st'| == STAGE_COUNT
  {
    if rows == [] then st else RetriedRow(Retried(st, rows[..|rows| - 1]), rows[|rows| - 1])
  }

  /** A stage before every selected row is left alone; any other ends ready or pending. */
  lemma {:induction false} RetriedState(st: seq<Stage>, rows: seq<nat>, i: nat)
    requires |st| == STAGE_COUNT && i < STAGE_COUNT && forall k :: 0 <= k < |rows| ==> rows[k] < STAGE_COUNT
    ensures if forall k :: 0 <= k < |rows| ==> i < rows[k] then Retried(st, rows)[i] == st[i]
            else Retried(st, rows)[i].state.Ready? || Retried(st, rows)[i].state.Pending?
    decreases |rows|
  {
    if rows != [] {
      RetriedState(st, rows[..|rows| - 1], i);
    }
  }

  /** Row `k` is the last processed one that is not behind stage `i`. */
  predicate LastReach(rows: seq<nat>, i: nat, k: nat) {
    k < |rows| && rows[k] <= i && forall m :: k < m < |rows| ==> i < rows[m]
  }

  /** What retry leaves in a stage: the last processed row at or before it makes it ready or pending and clears
      its delay and error; attempts are never touched, and a retried row keeps room for one more. */
  lemma {:induction false} RetriedColumns(st: seq<Stage>, rows: seq<nat>, i: nat)
    requires |st| == STAGE_COUNT && i < STAGE_COUNT && forall k :: 0 <= k < |rows| ==> rows[k] < STAGE_COUNT
    ensures var x := Retried(st, rows)[i];
            && x.attempts == st[i].attempts
            && x.maxAttempts == (if i in rows && st[i].maxAttempts <= |st[i].attempts| then |st[i].attempts| + 1 else st[i].maxAttempts)
            && (forall k: nat :: LastReach(rows, i, k) ==>
                  x.notBefore == 0.0 && x.error.None? && (if rows[k] == i then x.state.Ready? else x.state.Pending?))
    decreases |rows|
  {
    if rows != [] {
      var n := |rows| - 1;
      RetriedColumns(st, rows[..n], i);
      assert rows == rows[..n] + [rows[n]];
      forall k: nat | LastReach(rows, i, k)
        ensures var x := Retried(st, rows)[i];
                x.notBefore == 0.0 && x.error.None? && (if rows[k] == i then x.state.Ready? else x.state.Pending?)
      {
        if k < n {
          assert i < rows[n];
          assert LastReach(rows[..n], i, k);
        }
      }
    }
  }

  /** The row processed last undoes all later ones if it is the smallest. It must sit behind a succeeded
      stage and not be the transfer of a diverted task. */
  predicate KeepsChain(st: seq<Stage>, rows: seq<nat>)
    requires |st| == STAGE_COUNT && Selection(st, rows)
  {
    rows == []
    || (var r := rows[|rows| - 1];
        && (forall k :: 0 <= k < |rows| ==> r <= rows[k])
        && (r == 0 || st[r - 1].state.Succeeded?)
        && (r == DOWNLOAD_RESULTS ==> !Diverted(st)))
  }

  lemma RetriedIsNotDiverted(st: seq<Stage>, rows: seq<nat>)
    requires |st| == STAGE_COUNT && rows != [] && Selection(st, rows)
    ensures !Diverted(Retried(st, rows))
  {
    RetriedState(st, rows, EVALUATE_ABSOLUTE);
    assert rows[0] <= EVALUATE_ABSOLUTE;
  }

  /** Processing a row after a smaller one makes it ready behind a stage that is not succeeded. */
  lemma LaterRowBreaksChain(st: seq<Stage>, rows: seq<nat>, k: nat)
    requires |st| == STAGE_COUNT && Selection(st, rows) && k < |rows| && rows[k] < rows[|rows| - 1]
    ensures !Linked(Retried(st, rows))
  {
    var r := rows[|rows| - 1];
    RetriedIsNotDiverted(st, rows);
    RetriedState(st, rows, r - 1);
    assert Retried(st, rows)[r].state.Ready? && !Retried(st, rows)[r - 1].state.Succeeded?;
  }

  /** Retry keeps the chain exactly if it selects no row of the task, or the last row it processes is the
      smallest, sits behind a succeeded stage, and is not the download of a diverted task. */
  lemma RetryKeepsChainExactlyIf(st: seq<Stage>, rows: seq<nat>)
    requires Linked(st) && Selection(st, rows)
    ensures Linked(Retried(st, rows)) <==> KeepsChain(st, rows)
  {
    if rows != [] {
      var r := rows[|rows| - 1];
      if k :| 0 <= k < |rows| && rows[k] < r {
        LaterRowBreaksChain(st, rows, k);
      } else {
        RetriedIsNotDiverted(st, rows);
        forall i | 0 <= i < r ensures Retried(st, rows)[i] == st[i] {
          RetriedState(st, rows, i);
        }
        OneRowKeepsChain(st, r, Retried(st, rows));
      }
    }
  }

  lemma OneRowKeepsChain(st: seq<Stage>, r: nat, st': seq<Stage>)
    requires Linked(st) && |st'| == STAGE_COUNT && r < STAGE_COUNT && Retryable(st[r].state) && !Diverted(st')
    requires forall i :: 0 <= i < STAGE_COUNT ==> st'[i].state == if i < r then st[i].state else if i == r then Ready else Pending
    ensures Linked(st') <==> (r == 0 || st[r - 1].state.Succeeded?) && (r == DOWNLOAD_RESULTS ==> !Diverted(st))
  {
    if Diverted(st) && r >= DOWNLOAD_RESULTS {
      var f :| 0 <= f < STAGE_COUNT && DivertedAt(st, f);
      if r == DOWNLOAD_RESULTS {
        assert st[DEBUG_BUNDLE].state.Succeeded? ==> !st[SAGS_SEGMENT_VOTE].state.Succeeded?;
      }
    } else if Diverted(st) {
      var f :| 0 <= f < STAGE_COUNT && DivertedAt(st, f);
      DivertedPrefix(st, f);
    }
  }

  lemma DivertedPrefix(st: seq<Stage>, f: nat)
    requires Linked(st) && f < STAGE_COUNT && DivertedAt(st, f)
    ensures forall i :: 0 <= i < f ==> st[i].state.Succeeded?
  {
    forall i | 0 <= i < f ensures st[i].state.Succeeded? {
      PrefixSucceeded(st, f, i);
    }
  }

  // ---------------------------------------------------------------- a diverted task, retried

  function LostTwice(i: nat): Stage {
    Stage(if i < MODEL_GENERATION then Succeeded
          else if i == MODEL_GENERATION || i == DEBUG_BUNDLE then FailedTerminal
          else if i == DOWNLOAD_RESULTS then Pending else Canceled,
          StageAttempts(i), 0.0, None, [])
  }

  lemma LostTwiceShape()
    ensures var st := seq(STAGE_COUNT, (i: nat) => LostTwice(i));
            && Linked(st) && Selection(st, [MODEL_GENERATION, DEBUG_BUNDLE]) && Selection(st, [DEBUG_BUNDLE, MODEL_GENERATION])
            && st[UPLOAD_INPUTS].state.Succeeded?
  {
    var st := seq(STAGE_COUNT, (i: nat) => LostTwice(i));
    assert forall i :: 0 <= i < STAGE_COUNT ==> st[i] == LostTwice(i);
    assert DivertedAt(st, MODEL_GENERATION);
  }

  lemma TwoRows(st: seq<Stage>, a: nat, b: nat)
    requires |st| == STAGE_COUNT && a < STAGE_COUNT && b < STAGE_COUNT
    ensures Retried(st, [a, b]) == RetriedRow(RetriedRow(st, a), b)
  {
    assert [a, b][..1] == [a] && [a][..0] == [];
    assert Retried(st, [a]) == RetriedRow(Retried(st, []), a);
  }

  /** Retrying a task whose remote stage and whose debug bundle both failed makes two stages ready if the
      query returns the remote stage first, and keeps the chain if it returns the debug bundle first. */
  lemma RetryMakesTwoReady(rows: seq<nat>)
    requires rows == [MODEL_GENERATION, DEBUG_BUNDLE] || rows == [DEBUG_BUNDLE, MODEL_GENERATION]
    ensures var st := seq(STAGE_COUNT, (i: nat) => LostTwice(i));
            && Linked(st) && Selection(st, rows) && Retried(st, rows)[MODEL_GENERATION].state.Ready?
            && (rows[0] == MODEL_GENERATION ==> !Linked(Retried(st, rows)) && Retried(st, rows)[DEBUG_BUNDLE].state.Ready?)
            && (rows[0] == DEBUG_BUNDLE ==> Linked(Retried(st, rows)) && Retried(st, rows)[DEBUG_BUNDLE].state.Pending?)
  {
    var st := seq(STAGE_COUNT, (i: nat) => LostTwice(i));
    LostTwiceShape();
    RetryKeepsChainExactlyIf(st, rows);
    TwoRows(st, rows[0], rows[1]);
    assert rows == [rows[0], rows[1]];
  }
}
