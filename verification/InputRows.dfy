/** The rows that go into an idempotency key: which artifacts and which upstream keys the tables give a stage. */
module InputRows {
  import opened Tables
  import opened Idempotency

  /** What the tables do not hold: the hashes, the contract versions, the planned configurations, the paths of
      artifact `j` of attempt `a` of stage `s` of task `t`, and the image file of an image-edit attempt. */
  datatype Naming = Naming(
    hash: Content -> nat, configHash: Config -> nat, contract: nat -> nat, config: (nat, nat) -> Config,
    path: (nat, nat, nat, nat) -> nat, image: (nat, nat) -> nat)

  // ---------------------------------------------------------------- the rows of the query

  /** Artifacts of succeeded attempts: all of the image stage, the newest of any other. */
  predicate Feeds(s: nat, attempts: seq<Attempt>, a: nat)
    requires a < |attempts|
  {
    && attempts[a].status == InState(Succeeded)
    && (s == IMAGE_EDIT || forall b :: a < b < |attempts| ==> attempts[b].status != InState(Succeeded))
  }

  function AttemptRows(n: Naming, t: nat, s: nat, a: nat, artifacts: seq<Artifact>): (rows: seq<InputRow>)
    ensures forall i :: 0 <= i < |rows| ==> rows[i].ArtifactRow?
  {
    seq(|artifacts|, (j: nat) requires j < |artifacts| => ArtifactRow(artifacts[j].sha, s == IMAGE_EDIT, n.path(t, s, a, j)))
  }

  function StageArtifacts(n: Naming, t: nat, s: nat, attempts: seq<Attempt>, k: nat): (rows: seq<InputRow>)
    requires k <= |attempts|
    ensures forall i :: 0 <= i < |rows| ==> rows[i].ArtifactRow?
  {
    if k == 0 then []
    else
      StageArtifacts(n, t, s, attempts, k - 1)
      + (if Feeds(s, attempts, k - 1) then AttemptRows(n, t, s, k - 1, attempts[k - 1].artifacts) else [])
  }

  /** The artifacts of the stages before `s`. */
  function UpstreamArtifacts(n: Naming, t: nat, stages: seq<Stage>, s: nat): (rows: seq<InputRow>)
    requires s <= |stages|
    ensures forall i :: 0 <= i < |rows| ==> rows[i].ArtifactRow?
  {
    if s == 0 then []
    else
      UpstreamArtifacts(n, t, stages, s - 1) + StageArtifacts(n, t, s - 1, stages[s - 1].attempts, |stages[s - 1].attempts|)
  }

  /** The keys of the succeeded stages before `s`. */
  function UpstreamKeys(stages: seq<Stage>, ks: seq<Derivation>, s: nat): (ds: seq<Derivation>)
    requires s <= |stages| == |ks|
    ensures forall d :: d in ds ==> exists i :: 0 <= i < s && ks[i] == d
  {
    if s == 0 then []
    else UpstreamKeys(stages, ks, s - 1) + (if stages[s - 1].state.Succeeded? then [ks[s - 1]] else [])
  }

  // ---------------------------------------------------------------- which artifacts those are

  /** Artifact `index` of attempt `attempt` of stage `stage`. */
  datatype Place = Place(stage: nat, attempt: nat, index: nat)

  predicate Exists(stages: seq<Stage>, p: Place) {
    && p.stage < |stages| && p.attempt < |stages[p.stage].attempts|
    && p.index < |stages[p.stage].attempts[p.attempt].artifacts|
  }

  /** The artifact was made upstream of stage `s` by a succeeded attempt: by any of the image stage, by the newest of
      another. */
  predicate Upstream(stages: seq<Stage>, s: nat, p: Place) {
    && Exists(stages, p) && p.stage < s
    && stages[p.stage].attempts[p.attempt].status == InState(Succeeded)
    && (p.stage == 1
        || forall b :: p.attempt < b < |stages[p.stage].attempts| ==> stages[p.stage].attempts[b].status != InState(Succeeded))
  }

  function RowAt(n: Naming, t: nat, stages: seq<Stage>, p: Place): InputRow
    requires Exists(stages, p)
  {
    ArtifactRow(stages[p.stage].attempts[p.attempt].artifacts[p.index].sha, p.stage == 1, n.path(t, p.stage, p.attempt, p.index))
  }

  /** These rows are those of these places, each of them once. */
  predicate RowsOf(n: Naming, t: nat, stages: seq<Stage>, rows: seq<InputRow>, places: seq<Place>) {
    && |rows| == |places|
    && (forall i :: 0 <= i < |places| ==> Exists(stages, places[i]) && rows[i] == RowAt(n, t, stages, places[i]))
    && forall i, j :: 0 <= i < j < |places| ==> places[i] != places[j]
  }

  lemma RowsJoin(n: Naming, t: nat, stages: seq<Stage>, a: seq<InputRow>, x: seq<Place>, b: seq<InputRow>, y: seq<Place>)
    requires RowsOf(n, t, stages, a, x) && RowsOf(n, t, stages, b, y) && forall p :: p in x ==> p !in y
    ensures RowsOf(n, t, stages, a + b, x + y)
  {
    forall i, j | 0 <= i < j < |x + y| ensures (x + y)[i] != (x + y)[j] {
      if i < |x| <= j {
        assert x[i] in x && y[j - |x|] in y;
      }
    }
  }

  lemma AttemptPlaces(n: Naming, t: nat, stages: seq<Stage>, s: nat, a: nat) returns (places: seq<Place>)
    requires s < |stages| && a < |stages[s].attempts|
    ensures RowsOf(n, t, stages, AttemptRows(n, t, s, a, stages[s].attempts[a].artifacts), places)
    ensures forall p :: p in places <==> p.stage == s && p.attempt == a && Exists(stages, p)
  {
    var artifacts := stages[s].attempts[a].artifacts;
    places := seq(|artifacts|, (j: nat) requires j < |artifacts| => Place(s, a, j));
    forall p ensures p in places <==> p.stage == s && p.attempt == a && Exists(stages, p) {
      if p.stage == s && p.attempt == a && Exists(stages, p) { assert places[p.index] == p; }
    }
  }

  lemma {:induction false} StagePlaces(n: Naming, t: nat, stages: seq<Stage>, s: nat, k: nat) returns (places: seq<Place>)
    requires s < |stages| && k <= |stages[s].attempts|
    ensures RowsOf(n, t, stages, StageArtifacts(n, t, s, stages[s].attempts, k), places)
    ensures forall p :: p in places <==> p.stage == s && p.attempt < k && Upstream(stages, s + 1, p)
  {
    places := [];
    if k > 0 {
      places := StagePlaces(n, t, stages, s, k - 1);
      if Feeds(s, stages[s].attempts, k - 1) {
        var more := AttemptPlaces(n, t, stages, s, k - 1);
        RowsJoin(n, t, stages, StageArtifacts(n, t, s, stages[s].attempts, k - 1), places,
                 AttemptRows(n, t, s, k - 1, stages[s].attempts[k - 1].artifacts), more);
        places := places + more;
      }
    }
  }

  /** The artifact rows of a stage's key are exactly the artifacts made upstream, each of them once. */
  lemma {:induction false} ArtifactRowsAreUpstream(n: Naming, t: nat, stages: seq<Stage>, s: nat) returns (places: seq<Place>)
    requires s <= |stages|
    ensures RowsOf(n, t, stages, UpstreamArtifacts(n, t, stages, s), places)
    ensures forall p :: p in places <==> Upstream(stages, s, p)
  {
    places := [];
    if s > 0 {
      places := ArtifactRowsAreUpstream(n, t, stages, s - 1);
      var m := |stages[s - 1].attempts|;
      var more := StagePlaces(n, t, stages, s - 1, m);
      RowsJoin(n, t, stages, UpstreamArtifacts(n, t, stages, s - 1), places,
               StageArtifacts(n, t, s - 1, stages[s - 1].attempts, m), more);
      forall p ensures p in places + more <==> Upstream(stages, s, p) {
        assert Upstream(stages, s, p) <==> Upstream(stages, s - 1, p) || (p.stage == s - 1 && p.attempt < m && Upstream(stages, s, p));
      }
      places := places + more;
    }
  }

  // ---------------------------------------------------------------- what of them goes in

  /** The artifact goes into the key under this digest: with an accepted file, only that file of the image stage. */
  predicate GoesIn(n: Naming, t: nat, stages: seq<Stage>, p: Place, accepted: Option<nat>, sha: nat)
    requires Exists(stages, p)
  {
    && stages[p.stage].attempts[p.attempt].artifacts[p.index].sha == sha
    && (p.stage == 1 && accepted.Some? ==> n.path(t, p.stage, p.attempt, p.index) == accepted.value)
  }

  /** The artifacts made upstream of stage `s` that go into its key under this digest. */
  function Ingredients(n: Naming, t: nat, stages: seq<Stage>, s: nat, accepted: Option<nat>, sha: nat): set<Place>
    requires s <= |stages|
  {
    set i: nat, a: nat, j: nat
      | i < s && a < |stages[i].attempts| && j < |stages[i].attempts[a].artifacts|
        && Upstream(stages, s, Place(i, a, j)) && GoesIn(n, t, stages, Place(i, a, j), accepted, sha)
      :: Place(i, a, j)
  }

  function Matching(n: Naming, t: nat, stages: seq<Stage>, places: seq<Place>, accepted: Option<nat>, sha: nat): set<Place>
    requires forall i :: 0 <= i < |places| ==> Exists(stages, places[i])
  {
    set i | 0 <= i < |places| && GoesIn(n, t, stages, places[i], accepted, sha) :: places[i]
  }

  lemma MatchingMore(n: Naming, t: nat, stages: seq<Stage>, places: seq<Place>, accepted: Option<nat>, sha: nat)
    requires places != [] && forall i :: 0 <= i < |places| ==> Exists(stages, places[i])
    ensures var m := |places| - 1;
            Matching(n, t, stages, places, accepted, sha)
            == Matching(n, t, stages, places[..m], accepted, sha)
               + (if GoesIn(n, t, stages, places[m], accepted, sha) then {places[m]} else {})
  {
    var m := |places| - 1;
    var before, after := Matching(n, t, stages, places[..m], accepted, sha), Matching(n, t, stages, places, accepted, sha);
    forall p | p in after ensures p in before || (p == places[m] && GoesIn(n, t, stages, p, accepted, sha)) {
      var i :| 0 <= i <= m && places[i] == p && GoesIn(n, t, stages, p, accepted, sha);
      if i < m { assert places[..m][i] == p; }
    }
    forall p | p in before ensures p in after {
      var i :| 0 <= i < m && places[..m][i] == p;
      assert places[i] == p;
    }
  }

  lemma KeptMore(rows: seq<InputRow>, accepted: Option<nat>, id: Identity)
    requires rows != []
    ensures var m := |rows| - 1;
            multiset(Kept(rows, accepted))[id]
            == multiset(Kept(rows[..m], accepted))[id] + (if Keeps(rows[m], accepted) && IdentityOf(rows[m]) == id then 1 else 0)
  {
  }

  lemma RowGoesIn(n: Naming, t: nat, stages: seq<Stage>, p: Place, accepted: Option<nat>, sha: nat)
    requires Exists(stages, p)
    ensures var r := RowAt(n, t, stages, p);
            Keeps(r, accepted) && IdentityOf(r) == FromArtifact(sha) <==> GoesIn(n, t, stages, p, accepted, sha)
  {
  }

  lemma FewerRows(n: Naming, t: nat, stages: seq<Stage>, rows: seq<InputRow>, places: seq<Place>)
    requires RowsOf(n, t, stages, rows, places) && rows != []
    ensures var m := |rows| - 1;
            && RowsOf(n, t, stages, rows[..m], places[..m]) && places[m] !in places[..m]
            && Exists(stages, places[m]) && rows[m] == RowAt(n, t, stages, places[m])
  {
  }

  lemma {:induction false} KeptCounts(n: Naming, t: nat, stages: seq<Stage>, rows: seq<InputRow>, places: seq<Place>, accepted: Option<nat>, sha: nat)
    requires RowsOf(n, t, stages, rows, places)
    ensures multiset(Kept(rows, accepted))[FromArtifact(sha)] == |Matching(n, t, stages, places, accepted, sha)|
    decreases |rows|
  {
    if rows == [] {
      assert Matching(n, t, stages, places, accepted, sha) == {};
    } else {
      var m := |rows| - 1;
      FewerRows(n, t, stages, rows, places);
      KeptCounts(n, t, stages, rows[..m], places[..m], accepted, sha);
      MatchingMore(n, t, stages, places, accepted, sha);
      RowGoesIn(n, t, stages, places[m], accepted, sha);
      KeptMore(rows, accepted, FromArtifact(sha));
    }
  }

  /** A digest goes into the key of stage `s` as often as there are upstream artifacts with it. */
  lemma KeptAreIngredients(n: Naming, t: nat, stages: seq<Stage>, s: nat, accepted: Option<nat>, sha: nat)
    requires s <= |stages|
    ensures multiset(Kept(UpstreamArtifacts(n, t, stages, s), accepted))[FromArtifact(sha)] == |Ingredients(n, t, stages, s, accepted, sha)|
  {
    var places := ArtifactRowsAreUpstream(n, t, stages, s);
    KeptCounts(n, t, stages, UpstreamArtifacts(n, t, stages, s), places, accepted, sha);
    forall p ensures p in Matching(n, t, stages, places, accepted, sha) <==> p in Ingredients(n, t, stages, s, accepted, sha) {
      if p in Ingredients(n, t, stages, s, accepted, sha) {
        assert p in places;
        var i :| 0 <= i < |places| && places[i] == p;
      }
      if p in Matching(n, t, stages, places, accepted, sha) {
        assert Upstream(stages, s, Place(p.stage, p.attempt, p.index));
      }
    }
    assert Matching(n, t, stages, places, accepted, sha) == Ingredients(n, t, stages, s, accepted, sha);
  }

  /** As many artifacts of either side go in under each digest. */
  ghost predicate SameIngredients(n: Naming, t: nat, x: seq<Stage>, y: seq<Stage>, s: nat, accepted: Option<nat>)
    requires s <= |x| && s <= |y|
  {
    forall sha :: |Ingredients(n, t, x, s, accepted, sha)| == |Ingredients(n, t, y, s, accepted, sha)|
  }

  lemma SameKeptExactlyIf(n: Naming, t: nat, x: seq<Stage>, y: seq<Stage>, s: nat, accepted: Option<nat>)
    requires s <= |x| && s <= |y|
    ensures multiset(Kept(UpstreamArtifacts(n, t, x, s), accepted)) == multiset(Kept(UpstreamArtifacts(n, t, y, s), accepted))
            <==> SameIngredients(n, t, x, y, s, accepted)
  {
    var a, b := Kept(UpstreamArtifacts(n, t, x, s), accepted), Kept(UpstreamArtifacts(n, t, y, s), accepted);
    forall sha
      ensures multiset(a)[FromArtifact(sha)] == |Ingredients(n, t, x, s, accepted, sha)|
      ensures multiset(b)[FromArtifact(sha)] == |Ingredients(n, t, y, s, accepted, sha)|
    {
      KeptAreIngredients(n, t, x, s, accepted, sha);
      KeptAreIngredients(n, t, y, s, accepted, sha);
    }
    KeptArtifacts(UpstreamArtifacts(n, t, x, s), accepted);
    KeptArtifacts(UpstreamArtifacts(n, t, y, s), accepted);
    if SameIngredients(n, t, x, y, s, accepted) {
      forall id ensures multiset(a)[id] == multiset(b)[id] {
        assert id in multiset(a) <==> id in a;
        assert id in multiset(b) <==> id in b;
        if id.FromArtifact? {
          assert |Ingredients(n, t, x, s, accepted, id.sha)| == |Ingredients(n, t, y, s, accepted, id.sha)|;
        }
      }
    }
  }

  // ---------------------------------------------------------------- the upstream keys

  /** The same stages before `s` have succeeded, and their keys agree. */
  ghost predicate SameUpstream(hash: Content -> nat, configHash: Config -> nat, x: seq<Stage>, kx: seq<Derivation>, y: seq<Stage>, ky: seq<Derivation>, s: nat)
    requires s <= |x| == |kx| && s <= |y| == |ky|
  {
    forall i :: 0 <= i < s ==>
      && (x[i].state.Succeeded? <==> y[i].state.Succeeded?)
      && (x[i].state.Succeeded? ==> KeyOf(hash, configHash, kx[i]) == KeyOf(hash, configHash, ky[i]))
  }

  predicate OwnStages(ks: seq<Derivation>) {
    forall i :: 0 <= i < |ks| ==> ks[i].stage == i
  }

  lemma {:induction false} UpstreamStages(stages: seq<Stage>, ks: seq<Derivation>, s: nat)
    requires s <= |stages| == |ks| && OwnStages(ks)
    ensures forall j :: 0 <= j < |UpstreamKeys(stages, ks, s)| ==> UpstreamKeys(stages, ks, s)[j].stage < s
  {
    if s > 0 {
      UpstreamStages(stages, ks, s - 1);
    }
  }

  /** The upstream keys of two states agree as lists exactly if they agree stage by stage. */
  lemma {:induction false} UpstreamAgreesExactlyIf(hash: Content -> nat, configHash: Config -> nat, x: seq<Stage>, kx: seq<Derivation>,
                                                   y: seq<Stage>, ky: seq<Derivation>, s: nat)
    requires Injective(hash) && Injective(configHash)
    requires s <= |x| == |kx| && s <= |y| == |ky| && OwnStages(kx) && OwnStages(ky)
    ensures KeysAgree(hash, configHash, UpstreamKeys(x, kx, s), UpstreamKeys(y, ky, s)) <==> SameUpstream(hash, configHash, x, kx, y, ky, s)
  {
    if s > 0 {
      UpstreamAgreesExactlyIf(hash, configHash, x, kx, y, ky, s - 1);
      UpstreamStages(x, kx, s - 1);
      UpstreamStages(y, ky, s - 1);
      var a, b := UpstreamKeys(x, kx, s - 1), UpstreamKeys(y, ky, s - 1);
      ListsAgree(hash, configHash, a, if x[s - 1].state.Succeeded? then Some(kx[s - 1]) else None,
                 b, if y[s - 1].state.Succeeded? then Some(ky[s - 1]) else None, s - 1);
    }
  }

  function Extended(a: seq<Derivation>, d: Option<Derivation>): seq<Derivation> {
    a + (if d.Some? then [d.value] else [])
  }

  /** One more stage, on both sides or none. */
  lemma ListsAgree(hash: Content -> nat, configHash: Config -> nat, a: seq<Derivation>, d: Option<Derivation>,
                   b: seq<Derivation>, e: Option<Derivation>, s: nat)
    requires Injective(hash) && Injective(configHash)
    requires forall j :: 0 <= j < |a| ==> a[j].stage < s
    requires forall j :: 0 <= j < |b| ==> b[j].stage < s
    requires (d.Some? ==> d.value.stage == s) && (e.Some? ==> e.value.stage == s)
    ensures KeysAgree(hash, configHash, Extended(a, d), Extended(b, e))
            <==> KeysAgree(hash, configHash, a, b) && (d.Some? <==> e.Some?)
                 && (d.Some? ==> KeyOf(hash, configHash, d.value) == KeyOf(hash, configHash, e.value))
  {
    var p, q := Extended(a, d), Extended(b, e);
    if KeysAgree(hash, configHash, p, q) {
      if p != [] {
        KeyNamesStage(hash, configHash, p[|p| - 1], q[|q| - 1]);
      }
      forall j | 0 <= j < |a| ensures KeyOf(hash, configHash, a[j]) == KeyOf(hash, configHash, b[j]) {
        assert p[j] == a[j] && q[j] == b[j];
      }
    }
  }
}
