/** Publication of an attempt's files, cut off by crashes between any two of its steps. */
module Publishing {
  import opened Tables
  import opened Transitions
  import opened Batch
  import opened Protocol
  import opened RunInvariant
  import opened Evolution

  /** The staging directory and the official output directory of one attempt, with their files. */
  datatype Folder = Folder(staging: Option<set<Artifact>>, output: Option<set<Artifact>>)

  datatype Site = Site(db: Db, disk: map<Key, Folder>)

  function FolderAt(s: Site, k: Key): Folder {
    if k in s.disk then s.disk[k] else Folder(None, None)
  }

  /** Every recorded file is there, with the recorded bytes. */
  predicate Intact(files: set<Artifact>, artifacts: seq<Artifact>) {
    forall i :: 0 <= i < |artifacts| ==> artifacts[i] in files
  }

  /** Exactly one of the two directories exists, and its files are intact. */
  predicate Publishable(f: Folder, artifacts: seq<Artifact>) {
    && (f.staging.Some? <==> f.output.None?)
    && (f.staging.Some? ==> Intact(f.staging.value, artifacts))
    && (f.output.Some? ==> Intact(f.output.value, artifacts))
  }

  predicate Recorded(s: Site, k: Key) {
    ValidAt(s.db, k) && s.db.tasks[k.0].stages[k.1].attempts[k.2].commit.Some?
  }

  function CommitAt(s: Site, k: Key): Commit
    requires Recorded(s, k)
  {
    s.db.tasks[k.0].stages[k.1].attempts[k.2].commit.value
  }

  predicate CanPublish(s: Site, k: Key) {
    Recorded(s, k) && Publishable(FolderAt(s, k), CommitAt(s, k).artifacts)
  }

  // ---------------------------------------------------------------- the steps

  function Renamed(f: Folder): Folder {
    if f.staging.Some? then Folder(None, f.staging) else f
  }

  /** First step: the atomic rename. */
  function Moved(s: Site, k: Key): Site
    requires CanPublish(s, k)
  {
    s.(disk := s.disk[k := Renamed(FolderAt(s, k))])
  }

  /** Second step: the transaction that marks the intent published. */
  function Marked(s: Site, k: Key): Site
    requires Recorded(s, k)
  {
    s.(db := WithTask(s.db, k.0, PublishedTask(s.db.tasks[k.0], k.1, k.2)))
  }

  /** Reconciliation of one intent: move, mark, finalize, or fail the intent. */
  function Recovered(s: Site, k: Key): (r: Site)
    requires WellFormed(s.db)
    ensures WellFormed(r.db)
  {
    if !CanPublish(s, k) then s.(db := ReconcileOne(s.db, k, false))
    else Moved(s, k).(db := ReconcileOne(s.db, k, true))
  }

  /** The worker's own publication at time `now`; a refusal raises and changes nothing. */
  function Published(s: Site, k: Key, now: Time): Site
    requires WellFormed(s.db)
  {
    if !CanPublish(s, k) then s
    else
      var m := Marked(Moved(s, k), k);
      if CanFinalize(m.db.tasks[k.0], k.1, k.2, Some(now))
      then m.(db := Completed(s.db, k, m.db.tasks[k.0]))
      else m
  }

  datatype Cut = BeforeMove | BeforeMark | BeforeFinalize | Completely

  /** A publication or a reconciliation that a crash cuts off. */
  function CutOff(s: Site, k: Key, cut: Cut): (r: Site)
    requires WellFormed(s.db)
    ensures WellFormed(r.db)
  {
    if cut.Completely? then Recovered(s, k)
    else if cut.BeforeMove? || !CanPublish(s, k) then s
    else if cut.BeforeMark? then Moved(s, k)
    else Marked(Moved(s, k), k)
  }

  function CutOffs(s: Site, k: Key, cuts: seq<Cut>): (r: Site)
    requires WellFormed(s.db)
    ensures WellFormed(r.db)
    decreases |cuts|
  {
    if cuts == [] then s else CutOffs(CutOff(s, k, cuts[0]), k, cuts[1..])
  }

  // ---------------------------------------------------------------- repeating a step changes nothing

  lemma MovedPublishable(s: Site, k: Key)
    requires CanPublish(s, k)
    ensures CanPublish(Moved(s, k), k) && Moved(Moved(s, k), k) == Moved(s, k)
  {
    var s' := Moved(s, k);
    assert FolderAt(s', k) == Renamed(FolderAt(s, k));
    assert Moved(s', k).disk == s'.disk;
  }

  lemma MarkedTwice(t: Task, s: nat, a: nat)
    requires ValidKey(t, s, a) && t.stages[s].attempts[a].commit.Some?
    ensures var t' := PublishedTask(t, s, a);
            && ValidKey(t', s, a) && t'.stages[s].attempts[a].commit.Some?
            && t'.stages[s].attempts[a].commit.value.artifacts == t.stages[s].attempts[a].commit.value.artifacts
            && PublishedTask(t', s, a) == t'
  {
    var t' := PublishedTask(t, s, a);
    if !IsCommitted(t.stages[s].attempts[a]) {
      assert t'.stages[s].attempts[a := t'.stages[s].attempts[a]] == t'.stages[s].attempts;
      assert t'.stages[s := t'.stages[s]] == t'.stages;
    }
  }

  /** Failing an intent overwrites whatever the mark changed. */
  lemma FailAfterMark(t: Task, s: nat, a: nat)
    requires ValidKey(t, s, a) && t.stages[s].attempts[a].commit.Some? && !IsCommitted(t.stages[s].attempts[a])
    ensures ValidKey(PublishedTask(t, s, a), s, a) && PublishedTask(t, s, a).stages[s].attempts[a].commit.Some?
    ensures CommitFailedTask(PublishedTask(t, s, a), s, a) == CommitFailedTask(t, s, a)
  {
    var x, y := CommitFailedTask(PublishedTask(t, s, a), s, a), CommitFailedTask(t, s, a);
    assert x.stages[s].attempts == y.stages[s].attempts;
    assert x.stages == y.stages;
  }

  lemma FailedTwice(t: Task, s: nat, a: nat)
    requires ValidKey(t, s, a) && t.stages[s].attempts[a].commit.Some? && !IsCommitted(t.stages[s].attempts[a])
    ensures var t' := CommitFailedTask(t, s, a);
            && ValidKey(t', s, a) && t'.stages[s].attempts[a].commit.Some? && !IsCommitted(t'.stages[s].attempts[a])
            && !t'.stages[s].state.Committing?
            && t'.stages[s].attempts[a].commit.value.artifacts == t.stages[s].attempts[a].commit.value.artifacts
            && CommitFailedTask(t', s, a) == t'
  {
    var t' := CommitFailedTask(t, s, a);
    assert CommitFailedTask(t', s, a).stages[s].attempts == t'.stages[s].attempts;
    assert CommitFailedTask(t', s, a).stages == t'.stages;
  }

  lemma SameTaskBack(db: Db, t: nat)
    requires t < |db.tasks|
    ensures WithTask(db, t, db.tasks[t]) == db
  {
    assert db.tasks[t := db.tasks[t]] == db.tasks;
  }

  /** What reconciliation makes of an intent does not depend on whether it was already marked. */
  lemma ReconcileAfterMark(db: Db, k: Key, agree: bool)
    requires WellFormed(db) && ValidAt(db, k) && db.tasks[k.0].stages[k.1].attempts[k.2].commit.Some?
    ensures var db1 := WithTask(db, k.0, PublishedTask(db.tasks[k.0], k.1, k.2));
            WellFormed(db1) && ReconcileOne(db1, k, agree) == ReconcileOne(db, k, agree)
  {
    var t := db.tasks[k.0];
    var db1 := WithTask(db, k.0, PublishedTask(t, k.1, k.2));
    MarkedTwice(t, k.1, k.2);
    if IsCommitted(t.stages[k.1].attempts[k.2]) {
      SameTaskBack(db, k.0);
    } else {
      FailAfterMark(t, k.1, k.2);
      assert WithTask(db1, k.0, CommitFailedTask(t, k.1, k.2)) == WithTask(db, k.0, CommitFailedTask(t, k.1, k.2));
      var published := PublishedTask(t, k.1, k.2);
      if CanFinalize(published, k.1, k.2, None) {
        assert WithTask(db1, k.0, FinalizedTask(published, k.1, k.2, db.automatic))
            == WithTask(db, k.0, FinalizedTask(published, k.1, k.2, db.automatic));
      }
    }
  }

  lemma CompletedIsCommitted(db: Db, k: Key, published: Task)
    requires WellFormed(db) && k.0 < |db.tasks| && |published.stages| == STAGE_COUNT && published.groups != []
    requires CanFinalize(published, k.1, k.2, None)
    ensures ValidAt(Completed(db, k, published), k)
    ensures var x := Completed(db, k, published).tasks[k.0].stages[k.1].attempts[k.2];
            && IsCommitted(x) && x.commit.value.artifacts == published.stages[k.1].attempts[k.2].commit.value.artifacts
            && x.artifacts == x.commit.value.artifacts && x.lease.None? && x.status == InState(Succeeded)
  {
    var db1 := WithTask(db, k.0, FinalizedTask(published, k.1, k.2, db.automatic));
    SettledUntouched(db1, k.0, k.1);
  }

  /** Reconciling again changes nothing, whether the first time committed or failed the intent. */
  lemma ReconcileTwice(db: Db, k: Key, agree: bool)
    requires WellFormed(db) && ValidAt(db, k) && db.tasks[k.0].stages[k.1].attempts[k.2].commit.Some?
    ensures var db1 := ReconcileOne(db, k, agree);
            && ValidAt(db1, k) && db1.tasks[k.0].stages[k.1].attempts[k.2].commit.Some?
            && db1.tasks[k.0].stages[k.1].attempts[k.2].commit.value.artifacts
               == db.tasks[k.0].stages[k.1].attempts[k.2].commit.value.artifacts
            && ReconcileOne(db1, k, agree) == db1
  {
    var t := db.tasks[k.0];
    var db1 := ReconcileOne(db, k, agree);
    if !IsCommitted(t.stages[k.1].attempts[k.2]) {
      MarkedTwice(t, k.1, k.2);
      FailAfterMark(t, k.1, k.2);
      var published := PublishedTask(t, k.1, k.2);
      if agree && CanFinalize(published, k.1, k.2, None) {
        CompletedIsCommitted(db, k, published);
      } else {
        FailedTwice(t, k.1, k.2);
        assert db1.tasks[k.0] == CommitFailedTask(t, k.1, k.2);
        FailAfterMark(db1.tasks[k.0], k.1, k.2);
        SameTaskBack(db1, k.0);
        FailedStays(db1, k, agree);
      }
    } else if !agree {
      SameTaskBack(db, k.0);
    }
  }

  lemma FailedStays(db: Db, k: Key, agree: bool)
    requires WellFormed(db) && ValidAt(db, k) && db.tasks[k.0].stages[k.1].attempts[k.2].commit.Some?
    requires var t := db.tasks[k.0];
             && !IsCommitted(t.stages[k.1].attempts[k.2]) && !t.stages[k.1].state.Committing?
             && CommitFailedTask(t, k.1, k.2) == t
    ensures ReconcileOne(db, k, agree) == db
  {
    FailAfterMark(db.tasks[k.0], k.1, k.2);
    SameTaskBack(db, k.0);
  }

  // ---------------------------------------------------------------- crash safety

  lemma RecoveredAfterCut(s: Site, k: Key, cut: Cut)
    requires WellFormed(s.db) && Recorded(s, k)
    ensures Recorded(CutOff(s, k, cut), k)
    ensures Recovered(CutOff(s, k, cut), k) == Recovered(s, k)
  {
    if CanPublish(s, k) {
      MovedPublishable(s, k);
      ReconcileAfterMark(s.db, k, true);
      MarkedTwice(s.db.tasks[k.0], k.1, k.2);
    }
    if cut.Completely? {
      ReconcileTwice(s.db, k, CanPublish(s, k));
    }
  }

  /** Crashes between any two steps, any number of times, then one reconciliation: the files and every
      row end as if nothing had been cut off. */
  lemma {:induction false} CrashesChangeNothing(s: Site, k: Key, cuts: seq<Cut>)
    requires WellFormed(s.db) && Recorded(s, k)
    ensures Recovered(CutOffs(s, k, cuts), k) == Recovered(s, k)
    decreases |cuts|
  {
    if cuts != [] {
      RecoveredAfterCut(s, k, cuts[0]);
      CrashesChangeNothing(CutOff(s, k, cuts[0]), k, cuts[1..]);
    }
  }

  /** A worker that holds its lease, on a prepared intent. */
  predicate HoldsIntent(s: Site, k: Key, now: Time) {
    Recorded(s, k) && CanFinalize(s.db.tasks[k.0], k.1, k.2, Some(now))
  }

  lemma PreparedIsPublished(s: Site, k: Key, now: Time)
    requires WellFormed(s.db) && HoldsIntent(s, k, now) && CanPublish(s, k)
    ensures CanFinalize(PublishedTask(s.db.tasks[k.0], k.1, k.2), k.1, k.2, Some(now))
    ensures Published(s, k, now) == Recovered(s, k)
  {
  }

  predicate Settled(s: Site, k: Key, artifacts: seq<Artifact>) {
    && Recorded(s, k)
    && var x := s.db.tasks[k.0].stages[k.1].attempts[k.2];
    && IsCommitted(x) && x.artifacts == artifacts && x.status == InState(Succeeded) && x.lease.None?
    && FolderAt(s, k).staging.None? && FolderAt(s, k).output.Some? && Intact(FolderAt(s, k).output.value, artifacts)
  }

  /** The crash-safe publish refines the atomic one: from a prepared intent with intact files and no prior
      output directory, any crashes followed by a reconciliation end exactly where the uninterrupted
      publication ends, with the recorded artifacts published. */
  lemma CrashSafePublish(s: Site, k: Key, now: Time, cuts: seq<Cut>)
    requires WellFormed(s.db) && HoldsIntent(s, k, now)
    requires FolderAt(s, k).output.None? && FolderAt(s, k).staging.Some?
    requires Intact(FolderAt(s, k).staging.value, CommitAt(s, k).artifacts)
    ensures Recovered(CutOffs(s, k, cuts), k) == Published(s, k, now)
    ensures Settled(Published(s, k, now), k, CommitAt(s, k).artifacts)
  {
    CrashesChangeNothing(s, k, cuts);
    PreparedIsPublished(s, k, now);
    CompletedIsCommitted(s.db, k, PublishedTask(s.db.tasks[k.0], k.1, k.2));
    MarkedTwice(s.db.tasks[k.0], k.1, k.2);
  }

  lemma PublishableMeans(f: Folder, artifacts: seq<Artifact>)
    ensures Publishable(f, artifacts) <==>
              || (f.output.None? && f.staging.Some? && forall x :: x in artifacts ==> x in f.staging.value)
              || (f.staging.None? && f.output.Some? && forall x :: x in artifacts ==> x in f.output.value)
  {
  }

  /** Whatever the directories hold, recovery commits a prepared intent exactly if one of them exists and
      is intact, and otherwise fails it for good and releases its lease. */
  lemma RecoveryDecides(s: Site, k: Key, cuts: seq<Cut>)
    requires WellFormed(s.db) && Recorded(s, k) && CanFinalize(s.db.tasks[k.0], k.1, k.2, None)
    ensures var f, end := FolderAt(s, k), Recovered(CutOffs(s, k, cuts), k);
            && Recorded(end, k)
            && (CommitAt(end, k).state.Committed? <==>
                  || (f.output.None? && f.staging.Some? && forall x :: x in CommitAt(s, k).artifacts ==> x in f.staging.value)
                  || (f.staging.None? && f.output.Some? && forall x :: x in CommitAt(s, k).artifacts ==> x in f.output.value))
            && (CommitAt(end, k).state.Committed? ==>
                  && Settled(end, k, CommitAt(s, k).artifacts)
                  && end.disk == s.disk[k := Folder(None, if f.staging.Some? then f.staging else f.output)])
            && (!CommitAt(end, k).state.Committed? ==>
                  && CommitAt(end, k).state.CommitFailed? && end.disk == s.disk
                  && end.db.tasks[k.0].stages[k.1].state.FailedTerminal?
                  && LeaseAt(end.db, k).None?)
  {
    PublishableMeans(FolderAt(s, k), CommitAt(s, k).artifacts);
    CrashesChangeNothing(s, k, cuts);
    if CanPublish(s, k) {
      CompletedIsCommitted(s.db, k, PublishedTask(s.db.tasks[k.0], k.1, k.2));
      MarkedTwice(s.db.tasks[k.0], k.1, k.2);
    } else {
      FailedTwice(s.db.tasks[k.0], k.1, k.2);
    }
  }

  // ---------------------------------------------------------------- a whole reconciliation

  function RecoveredAll(s: Site, rows: seq<Key>): (r: Site)
    requires WellFormed(s.db)
    ensures WellFormed(r.db)
    decreases |rows|
  {
    if rows == [] then s else RecoveredAll(Recovered(s, rows[0]), rows[1..])
  }

  lemma {:induction false} RecoveredSplit(s: Site, a: seq<Key>, b: seq<Key>)
    requires WellFormed(s.db)
    ensures RecoveredAll(s, a + b) == RecoveredAll(RecoveredAll(s, a), b)
    decreases |a|
  {
    if a == [] {
      assert a + b == b;
    } else {
      assert (a + b)[1..] == a[1..] + b;
      RecoveredSplit(Recovered(s, a[0]), a[1..], b);
    }
  }

  lemma RecordedStays(s: Site, q: Key, k: Key)
    requires WellFormed(s.db) && Recorded(s, k)
    ensures Recorded(Recovered(s, q), k)
  {
    ReconcileOneEvolves(s.db, q, CanPublish(s, q));
    var db' := ReconcileOne(s.db, q, CanPublish(s, q));
    assert TaskEvolves(s.db.tasks[k.0], db'.tasks[k.0], true);
    assert StageEvolves(s.db.tasks[k.0].stages[k.1], db'.tasks[k.0].stages[k.1], true);
  }

  lemma {:induction false} RecordedStaysAll(s: Site, rows: seq<Key>, k: Key)
    requires WellFormed(s.db) && Recorded(s, k)
    ensures Recorded(RecoveredAll(s, rows), k)
    decreases |rows|
  {
    if rows != [] {
      RecordedStays(s, rows[0], k);
      RecordedStaysAll(Recovered(s, rows[0]), rows[1..], k);
    }
  }

  /** A reconciliation that dies in the middle of row `i` and is run again from that row ends where the
      uninterrupted one ends. */
  lemma ReconciliationRestarts(s: Site, rows: seq<Key>, i: nat, cuts: seq<Cut>)
    requires WellFormed(s.db) && i < |rows| && Recorded(s, rows[i])
    ensures RecoveredAll(CutOffs(RecoveredAll(s, rows[..i]), rows[i], cuts), rows[i..]) == RecoveredAll(s, rows)
  {
    var mid := RecoveredAll(s, rows[..i]);
    RecordedStaysAll(s, rows[..i], rows[i]);
    CrashesChangeNothing(mid, rows[i], cuts);
    assert rows[i..][0] == rows[i];
    RecoveredSplit(s, rows[..i], rows[i..]);
    assert rows[..i] + rows[i..] == rows;
  }
}
