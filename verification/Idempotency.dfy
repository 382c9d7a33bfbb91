/** Idempotency keys form a Merkle tree over a task's stages. SHA-256 is an uninterpreted function; what is
    assumed of it is a hypothesis of each lemma. */
module Idempotency {
  import opened Tables

  /** One string of inputArtifactHashes; the tag is its prefix. */
  datatype Identity = FromArtifact(sha: nat) | FromStage(key: nat) | FromAccepted(path: nat)

  /** What the key of a stage is the digest of. */
  datatype Content = Content(task: nat, stage: nat, contract: nat, inputs: seq<Identity>, config: nat)

  /** A row of the query: an artifact of an upstream attempt, with its stage and path, or the key of an
      upstream stage. */
  datatype InputRow = ArtifactRow(sha: nat, ofImage: bool, path: nat) | StageRow(key: nat)

  function IdentityOf(r: InputRow): Identity {
    match r
    case ArtifactRow(sha, _, _) => FromArtifact(sha)
    case StageRow(key) => FromStage(key)
  }

  /** The order of the identity strings: artifacts before stages, digests of equal width by value. */
  predicate Before(a: Identity, b: Identity) {
    match a
    case FromArtifact(x) => (b.FromArtifact? && x < b.sha) || b.FromStage?
    case FromStage(x) => b.FromStage? && x < b.key
    case FromAccepted(_) => false
  }

  predicate Ordered(rows: seq<InputRow>) {
    forall i, j :: 0 <= i < j < |rows| ==> !Before(IdentityOf(rows[j]), IdentityOf(rows[i]))
  }

  /** With an accepted candidate, only its own file stands for the image stage. */
  predicate Keeps(r: InputRow, accepted: Option<nat>) {
    r.ArtifactRow? && r.ofImage && accepted.Some? ==> r.path == accepted.value
  }

  function Kept(rows: seq<InputRow>, accepted: Option<nat>): seq<Identity> {
    if rows == [] then []
    else
      var rest := Kept(rows[..|rows| - 1], accepted);
      if Keeps(rows[|rows| - 1], accepted) then rest + [IdentityOf(rows[|rows| - 1])] else rest
  }

  function Inputs(rows: seq<InputRow>, accepted: Option<nat>): seq<Identity> {
    Kept(rows, accepted) + (if accepted.Some? then [FromAccepted(accepted.value)] else [])
  }

  /** The loop over the query's rows. */
  method CollectInputs(rows: seq<InputRow>, accepted: Option<nat>) returns (digests: seq<Identity>)
    ensures digests == Inputs(rows, accepted)
  {
    digests := [];
    for i := 0 to |rows|
      invariant digests == Kept(rows[..i], accepted)
    {
      assert rows[..i + 1][..i] == rows[..i];
      if Keeps(rows[i], accepted) {
        digests := digests + [IdentityOf(rows[i])];
      }
    }
    assert rows[..|rows|] == rows;
    if accepted.Some? {
      digests := digests + [FromAccepted(accepted.value)];
    }
  }

  // ---------------------------------------------------------------- independence of the row order

  predicate OrderedIds(ids: seq<Identity>) {
    forall i, j :: 0 <= i < j < |ids| ==> !Before(ids[j], ids[i])
  }

  predicate FromRows(ids: seq<Identity>) {
    forall i :: 0 <= i < |ids| ==> !ids[i].FromAccepted?
  }

  lemma {:induction false} KeptOrdered(rows: seq<InputRow>, accepted: Option<nat>)
    requires Ordered(rows)
    ensures OrderedIds(Kept(rows, accepted)) && FromRows(Kept(rows, accepted))
    ensures forall x :: x in Kept(rows, accepted) ==> exists i :: 0 <= i < |rows| && IdentityOf(rows[i]) == x
    decreases |rows|
  {
    if rows != [] {
      var n := |rows| - 1;
      KeptOrdered(rows[..n], accepted);
      var rest := Kept(rows[..n], accepted);
      forall i | 0 <= i < |rest| ensures !Before(IdentityOf(rows[n]), rest[i]) {
        assert rest[i] in rest;
        var k :| 0 <= k < n && IdentityOf(rows[..n][k]) == rest[i];
        assert rows[..n][k] == rows[k];
      }
      forall x | x in Kept(rows, accepted) ensures exists i :: 0 <= i < |rows| && IdentityOf(rows[i]) == x {
        if x in rest {
          var k :| 0 <= k < n && IdentityOf(rows[..n][k]) == x;
          assert IdentityOf(rows[k]) == x;
        } else {
          assert IdentityOf(rows[n]) == x;
        }
      }
    }
  }

  lemma DropLast<T>(a: seq<T>)
    requires a != []
    ensures multiset(a[..|a| - 1]) == multiset(a) - multiset{a[|a| - 1]}
  {
    assert a[..|a| - 1] + [a[|a| - 1]] == a;
  }

  lemma SameLength<T>(a: seq<T>, b: seq<T>)
    requires multiset(a) == multiset(b)
    ensures |a| == |b|
  {
    assert |a| == |multiset(a)| == |multiset(b)| == |b|;
  }

  /** An ordered sequence is determined by its multiset. */
  lemma {:induction false} OrderedUnique(a: seq<Identity>, b: seq<Identity>)
    requires OrderedIds(a) && OrderedIds(b) && FromRows(a) && FromRows(b) && multiset(a) == multiset(b)
    ensures a == b
    decreases |a|
  {
    SameLength(a, b);
    if a != [] {
      var n := |a| - 1;
      LastIsGreatest(a, b);
      DropLast(a);
      DropLast(b);
      OrderedUnique(a[..n], b[..n]);
      assert a[..n] + [a[n]] == a && b[..n] + [b[n]] == b;
    }
  }

  lemma LastIsGreatest(a: seq<Identity>, b: seq<Identity>)
    requires a != [] && b != [] && OrderedIds(a) && OrderedIds(b) && FromRows(a) && FromRows(b) && multiset(a) == multiset(b)
    ensures a[|a| - 1] == b[|b| - 1]
  {
    var x, y := a[|a| - 1], b[|b| - 1];
    assert x in multiset(b) && y in multiset(a);
    var i :| 0 <= i < |b| && b[i] == x;
    var j :| 0 <= j < |a| && a[j] == y;
  }

  function Without(rows: seq<InputRow>, k: nat): seq<InputRow>
    requires k < |rows|
  {
    rows[..k] + rows[k + 1..]
  }

  lemma {:induction false} KeptConcat(a: seq<InputRow>, b: seq<InputRow>, accepted: Option<nat>)
    ensures Kept(a + b, accepted) == Kept(a, accepted) + Kept(b, accepted)
    decreases |b|
  {
    if b == [] {
      assert a + b == a;
    } else {
      KeptConcat(a, b[..|b| - 1], accepted);
      assert (a + b)[..|a + b| - 1] == a + b[..|b| - 1];
    }
  }

  lemma KeptWithout(rows: seq<InputRow>, k: nat, accepted: Option<nat>)
    requires k < |rows|
    ensures multiset(Kept(rows, accepted)) == multiset(Kept(Without(rows, k), accepted)) + multiset(Kept([rows[k]], accepted))
    ensures multiset(rows) == multiset(Without(rows, k)) + multiset{rows[k]}
  {
    assert rows == rows[..k] + ([rows[k]] + rows[k + 1..]);
    KeptConcat(rows[..k], [rows[k]] + rows[k + 1..], accepted);
    KeptConcat([rows[k]], rows[k + 1..], accepted);
    KeptConcat(rows[..k], rows[k + 1..], accepted);
  }

  lemma WithoutOne(rows: seq<InputRow>, k: nat)
    requires k < |rows|
    ensures multiset(Without(rows, k)) == multiset(rows) - multiset{rows[k]}
  {
    assert rows == rows[..k] + [rows[k]] + rows[k + 1..];
  }

  lemma {:induction false} KeptMultiset(a: seq<InputRow>, b: seq<InputRow>, accepted: Option<nat>)
    requires multiset(a) == multiset(b)
    ensures multiset(Kept(a, accepted)) == multiset(Kept(b, accepted))
    decreases |a|
  {
    SameLength(a, b);
    if a != [] {
      assert a[0] in multiset(b);
      var k :| 0 <= k < |b| && b[k] == a[0];
      KeptWithout(a, 0, accepted);
      KeptWithout(b, k, accepted);
      WithoutOne(a, 0);
      WithoutOne(b, k);
      KeptMultiset(Without(a, 0), Without(b, k), accepted);
    }
  }

  /** The key does not depend on the order in which the rows are stored: rows with equal identities may
      come in any order. */
  lemma InputsIgnoreRowOrder(a: seq<InputRow>, b: seq<InputRow>, accepted: Option<nat>)
    requires Ordered(a) && Ordered(b) && multiset(a) == multiset(b)
    ensures Inputs(a, accepted) == Inputs(b, accepted)
  {
    KeptMultiset(a, b, accepted);
    KeptOrdered(a, accepted);
    KeptOrdered(b, accepted);
    OrderedUnique(Kept(a, accepted), Kept(b, accepted));
  }

  // ---------------------------------------------------------------- ORDER BY identity

  function Inserted(r: InputRow, rows: seq<InputRow>): (out: seq<InputRow>)
    requires Ordered(rows)
    ensures Ordered(out) && multiset(out) == multiset(rows) + multiset{r}
    decreases |rows|
  {
    var n := |rows| - 1;
    if rows == [] || !Before(IdentityOf(r), IdentityOf(rows[n])) then
      LastInOrder(r, rows);
      rows + [r]
    else
      assert rows == rows[..n] + [rows[n]];
      var rest := Inserted(r, rows[..n]);
      LastStaysLast(r, rows, rest);
      rest + [rows[n]]
  }

  lemma LastInOrder(r: InputRow, rows: seq<InputRow>)
    requires Ordered(rows) && (rows == [] || !Before(IdentityOf(r), IdentityOf(rows[|rows| - 1])))
    ensures Ordered(rows + [r])
  {
    var out := rows + [r];
    forall i | 0 <= i < |rows| ensures !Before(IdentityOf(r), IdentityOf(rows[i])) {
      if i < |rows| - 1 { assert !Before(IdentityOf(rows[|rows| - 1]), IdentityOf(rows[i])); }
    }
  }

  lemma LastStaysLast(r: InputRow, rows: seq<InputRow>, rest: seq<InputRow>)
    requires rows != [] && Ordered(rows) && Ordered(rest) && Before(IdentityOf(r), IdentityOf(rows[|rows| - 1]))
    requires multiset(rest) == multiset(rows[..|rows| - 1]) + multiset{r}
    ensures Ordered(rest + [rows[|rows| - 1]])
  {
    var last := rows[|rows| - 1];
    forall i | 0 <= i < |rest| ensures !Before(IdentityOf(last), IdentityOf(rest[i])) {
      assert rest[i] in multiset(rest);
      if rest[i] != r {
        assert rest[i] in rows[..|rows| - 1];
      }
    }
  }

  function Sorted(rows: seq<InputRow>): (out: seq<InputRow>)
    ensures Ordered(out) && multiset(out) == multiset(rows)
  {
    if rows == [] then []
    else
      assert rows == rows[..|rows| - 1] + [rows[|rows| - 1]];
      Inserted(rows[|rows| - 1], Sorted(rows[..|rows| - 1]))
  }

  // ---------------------------------------------------------------- the tree of keys

  /** How a key came about: the stage, its configuration, the accepted candidate, the artifacts of the
      upstream attempts, and the upstream stages whose keys went in. */
  datatype Derivation = Derivation(
    task: nat, stage: nat, contract: nat, config: Config, accepted: Option<nat>,
    artifacts: seq<InputRow>, upstream: seq<Derivation>, rows: seq<InputRow>)

  type Config = seq<nat>

  ghost predicate Injective<T(!new)>(f: T -> nat) {
    forall x, y :: f(x) == f(y) ==> x == y
  }

  function KeyOf(hash: Content -> nat, configHash: Config -> nat, d: Derivation): nat {
    hash(Content(d.task, d.stage, d.contract, Inputs(d.rows, d.accepted), configHash(d.config)))
  }

  function StageRows(hash: Content -> nat, configHash: Config -> nat, upstream: seq<Derivation>): seq<InputRow> {
    seq(|upstream|, (i: nat) requires i < |upstream| => StageRow(KeyOf(hash, configHash, upstream[i])))
  }

  /** The rows are the query's: the artifacts and the keys of the upstream stages, ordered. */
  ghost predicate Derived(hash: Content -> nat, configHash: Config -> nat, d: Derivation)
    decreases d
  {
    && Ordered(d.rows)
    && multiset(d.rows) == multiset(d.artifacts) + multiset(StageRows(hash, configHash, d.upstream))
    && (forall i :: 0 <= i < |d.artifacts| ==> d.artifacts[i].ArtifactRow?)
    && (forall i :: 0 <= i < |d.upstream| ==>
          d.upstream[i].stage < d.stage && Derived(hash, configHash, d.upstream[i]))
    && (forall i, j :: 0 <= i < j < |d.upstream| ==> d.upstream[i].stage < d.upstream[j].stage)
  }

  /** Nothing that went into one key differs from what went into the other, all the way down. */
  ghost predicate SameOrigin(a: Derivation, b: Derivation)
    decreases a
  {
    && a.task == b.task && a.stage == b.stage && a.contract == b.contract && a.config == b.config
    && a.accepted == b.accepted
    && multiset(Kept(a.artifacts, a.accepted)) == multiset(Kept(b.artifacts, b.accepted))
    && |a.upstream| == |b.upstream|
    && forall i :: 0 <= i < |a.upstream| ==> SameOrigin(a.upstream[i], b.upstream[i])
  }

  lemma InputsSplit(a: seq<Identity>, x: Option<nat>, b: seq<Identity>, y: Option<nat>)
    requires FromRows(a) && FromRows(b)
    requires a + (if x.Some? then [FromAccepted(x.value)] else []) == b + (if y.Some? then [FromAccepted(y.value)] else [])
    ensures a == b && x == y
  {
    var c := a + (if x.Some? then [FromAccepted(x.value)] else []);
    var d := b + (if y.Some? then [FromAccepted(y.value)] else []);
    assert x.Some? <==> c != [] && c[|c| - 1].FromAccepted?;
    assert y.Some? <==> d != [] && d[|d| - 1].FromAccepted?;
    if x.Some? {
      assert c[|c| - 1] == FromAccepted(x.value) && d[|d| - 1] == FromAccepted(y.value);
      assert c[..|c| - 1] == a && d[..|d| - 1] == b;
    } else {
      assert c == a && d == b;
    }
  }

  /** Stage identities are kept whatever was accepted. */
  lemma {:induction false} KeptStages(hash: Content -> nat, configHash: Config -> nat, upstream: seq<Derivation>, accepted: Option<nat>)
    ensures |Kept(StageRows(hash, configHash, upstream), accepted)| == |upstream|
    ensures forall i :: 0 <= i < |upstream| ==>
              Kept(StageRows(hash, configHash, upstream), accepted)[i] == FromStage(KeyOf(hash, configHash, upstream[i]))
    decreases |upstream|
  {
    if upstream != [] {
      var n := |upstream| - 1;
      KeptStages(hash, configHash, upstream[..n], accepted);
      assert StageRows(hash, configHash, upstream)[..n] == StageRows(hash, configHash, upstream[..n]);
    }
  }

  lemma {:induction false} KeptArtifacts(artifacts: seq<InputRow>, accepted: Option<nat>)
    requires forall i :: 0 <= i < |artifacts| ==> artifacts[i].ArtifactRow?
    ensures forall x :: x in Kept(artifacts, accepted) ==> x.FromArtifact?
    decreases |artifacts|
  {
    if artifacts != [] {
      KeptArtifacts(artifacts[..|artifacts| - 1], accepted);
    }
  }

  lemma KeptOfDerived(hash: Content -> nat, configHash: Config -> nat, d: Derivation)
    requires Derived(hash, configHash, d)
    ensures multiset(Kept(d.rows, d.accepted))
         == multiset(Kept(d.artifacts, d.accepted)) + multiset(Kept(StageRows(hash, configHash, d.upstream), d.accepted))
  {
    var all := d.artifacts + StageRows(hash, configHash, d.upstream);
    KeptMultiset(d.rows, all, d.accepted);
    KeptConcat(d.artifacts, StageRows(hash, configHash, d.upstream), d.accepted);
  }

  /** Splitting a multiset by the tag of its elements. */
  lemma SplitByTag(a: seq<Identity>, s: seq<Identity>, b: seq<Identity>, t: seq<Identity>)
    requires multiset(a) + multiset(s) == multiset(b) + multiset(t)
    requires (forall x :: x in a ==> x.FromArtifact?) && (forall x :: x in b ==> x.FromArtifact?)
    requires (forall x :: x in s ==> x.FromStage?) && (forall x :: x in t ==> x.FromStage?)
    ensures multiset(a) == multiset(b) && multiset(s) == multiset(t)
  {
    forall x ensures multiset(a)[x] == multiset(b)[x] && multiset(s)[x] == multiset(t)[x] {
      assert (multiset(a) + multiset(s))[x] == (multiset(b) + multiset(t))[x];
      assert x in multiset(a) <==> x in a;
      assert x in multiset(b) <==> x in b;
      assert x in multiset(s) <==> x in s;
      assert x in multiset(t) <==> x in t;
    }
  }

  /** Equal keys come from equal stages. */
  lemma KeyNamesStage(hash: Content -> nat, configHash: Config -> nat, a: Derivation, b: Derivation)
    requires Injective(hash) && Injective(configHash) && KeyOf(hash, configHash, a) == KeyOf(hash, configHash, b)
    ensures a.task == b.task && a.stage == b.stage && a.contract == b.contract && a.config == b.config
    ensures Inputs(a.rows, a.accepted) == Inputs(b.rows, b.accepted)
  {
    var x := Content(a.task, a.stage, a.contract, Inputs(a.rows, a.accepted), configHash(a.config));
    var y := Content(b.task, b.stage, b.contract, Inputs(b.rows, b.accepted), configHash(b.config));
    assert hash(x) == hash(y) && x == y;
  }

  predicate Rising(ds: seq<Derivation>) {
    forall i, j :: 0 <= i < j < |ds| ==> ds[i].stage < ds[j].stage
  }

  function StageKeys(hash: Content -> nat, configHash: Config -> nat, upstream: seq<Derivation>): seq<Identity> {
    Kept(StageRows(hash, configHash, upstream), None)
  }

  lemma StageKeysShorter(hash: Content -> nat, configHash: Config -> nat, a: seq<Derivation>)
    requires a != []
    ensures |StageKeys(hash, configHash, a)| == |a|
    ensures StageKeys(hash, configHash, a)[..|a| - 1] == StageKeys(hash, configHash, a[..|a| - 1])
  {
    KeptStages(hash, configHash, a, None);
    assert StageRows(hash, configHash, a)[..|a| - 1] == StageRows(hash, configHash, a[..|a| - 1]);
  }

  lemma FewerKeys(hash: Content -> nat, configHash: Config -> nat, a: seq<Derivation>, b: seq<Derivation>)
    requires a != [] && |a| == |b| && KeyOf(hash, configHash, a[|a| - 1]) == KeyOf(hash, configHash, b[|b| - 1])
    requires multiset(StageKeys(hash, configHash, a)) == multiset(StageKeys(hash, configHash, b))
    ensures multiset(StageKeys(hash, configHash, a[..|a| - 1])) == multiset(StageKeys(hash, configHash, b[..|b| - 1]))
  {
    KeptStages(hash, configHash, a, None);
    KeptStages(hash, configHash, b, None);
    StageKeysShorter(hash, configHash, a);
    StageKeysShorter(hash, configHash, b);
    DropLast(StageKeys(hash, configHash, a));
    DropLast(StageKeys(hash, configHash, b));
  }

  predicate KeysAgree(hash: Content -> nat, configHash: Config -> nat, a: seq<Derivation>, b: seq<Derivation>) {
    |a| == |b| && forall i :: 0 <= i < |a| ==> KeyOf(hash, configHash, a[i]) == KeyOf(hash, configHash, b[i])
  }

  lemma AgreeToo(hash: Content -> nat, configHash: Config -> nat, a: seq<Derivation>, b: seq<Derivation>)
    requires a != [] && |a| == |b| && KeysAgree(hash, configHash, a[..|a| - 1], b[..|b| - 1])
    requires KeyOf(hash, configHash, a[|a| - 1]) == KeyOf(hash, configHash, b[|b| - 1])
    ensures KeysAgree(hash, configHash, a, b)
  {
    forall i | 0 <= i < |a| ensures KeyOf(hash, configHash, a[i]) == KeyOf(hash, configHash, b[i]) {
      if i < |a| - 1 { assert a[..|a| - 1][i] == a[i] && b[..|b| - 1][i] == b[i]; }
    }
  }

  lemma SameNumber(hash: Content -> nat, configHash: Config -> nat, a: seq<Derivation>, b: seq<Derivation>)
    requires multiset(StageKeys(hash, configHash, a)) == multiset(StageKeys(hash, configHash, b))
    ensures |a| == |b|
  {
    KeptStages(hash, configHash, a, None);
    KeptStages(hash, configHash, b, None);
    SameLength(StageKeys(hash, configHash, a), StageKeys(hash, configHash, b));
  }

  /** Two rising lists of upstream stages with the same multiset of keys agree stage by stage. */
  lemma {:induction false} UpstreamAgrees(hash: Content -> nat, configHash: Config -> nat, a: seq<Derivation>, b: seq<Derivation>)
    requires Injective(hash) && Injective(configHash) && Rising(a) && Rising(b)
    requires multiset(StageKeys(hash, configHash, a)) == multiset(StageKeys(hash, configHash, b))
    ensures KeysAgree(hash, configHash, a, b)
    decreases |a|
  {
    SameNumber(hash, configHash, a, b);
    if a != [] {
      LastStageAgrees(hash, configHash, a, b);
      FewerKeys(hash, configHash, a, b);
      UpstreamAgrees(hash, configHash, a[..|a| - 1], b[..|b| - 1]);
      AgreeToo(hash, configHash, a, b);
    }
  }

  lemma KeyFound(hash: Content -> nat, configHash: Config -> nat, a: seq<Derivation>, b: seq<Derivation>, n: nat) returns (i: nat)
    requires n < |a| && multiset(StageKeys(hash, configHash, a)) == multiset(StageKeys(hash, configHash, b))
    ensures i < |b| && KeyOf(hash, configHash, a[n]) == KeyOf(hash, configHash, b[i])
  {
    KeptStages(hash, configHash, a, None);
    KeptStages(hash, configHash, b, None);
    var s, t := StageKeys(hash, configHash, a), StageKeys(hash, configHash, b);
    assert s[n] in multiset(t);
    i :| 0 <= i < |t| && t[i] == s[n];
  }

  lemma LastStageAgrees(hash: Content -> nat, configHash: Config -> nat, a: seq<Derivation>, b: seq<Derivation>)
    requires Injective(hash) && Injective(configHash) && Rising(a) && Rising(b) && a != [] && |a| == |b|
    requires multiset(StageKeys(hash, configHash, a)) == multiset(StageKeys(hash, configHash, b))
    ensures KeyOf(hash, configHash, a[|a| - 1]) == KeyOf(hash, configHash, b[|b| - 1])
  {
    var n := |a| - 1;
    var i := KeyFound(hash, configHash, a, b, n);
    var j := KeyFound(hash, configHash, b, a, n);
    KeyNamesStage(hash, configHash, a[n], b[i]);
    KeyNamesStage(hash, configHash, b[n], a[j]);
  }

  lemma Tags(hash: Content -> nat, configHash: Config -> nat, d: Derivation)
    requires forall i :: 0 <= i < |d.artifacts| ==> d.artifacts[i].ArtifactRow?
    ensures forall x :: x in Kept(d.artifacts, d.accepted) ==> x.FromArtifact?
    ensures forall x :: x in Kept(StageRows(hash, configHash, d.upstream), d.accepted) ==> x.FromStage?
  {
    KeptArtifacts(d.artifacts, d.accepted);
    KeptStages(hash, configHash, d.upstream, d.accepted);
  }

  lemma SameInputs(a: Derivation, b: Derivation)
    requires Ordered(a.rows) && Ordered(b.rows) && Inputs(a.rows, a.accepted) == Inputs(b.rows, b.accepted)
    ensures a.accepted == b.accepted && Kept(a.rows, a.accepted) == Kept(b.rows, b.accepted)
  {
    KeptOrdered(a.rows, a.accepted);
    KeptOrdered(b.rows, b.accepted);
    InputsSplit(Kept(a.rows, a.accepted), a.accepted, Kept(b.rows, b.accepted), b.accepted);
  }

  lemma InputsDetermine(hash: Content -> nat, configHash: Config -> nat, a: Derivation, b: Derivation)
    requires Injective(hash) && Injective(configHash)
    requires Derived(hash, configHash, a) && Derived(hash, configHash, b)
    requires KeyOf(hash, configHash, a) == KeyOf(hash, configHash, b)
    ensures a.accepted == b.accepted
    ensures multiset(Kept(a.artifacts, a.accepted)) == multiset(Kept(b.artifacts, b.accepted))
    ensures multiset(Kept(StageRows(hash, configHash, a.upstream), a.accepted))
         == multiset(Kept(StageRows(hash, configHash, b.upstream), b.accepted))
  {
    KeyNamesStage(hash, configHash, a, b);
    SameInputs(a, b);
    KeptOfDerived(hash, configHash, a);
    KeptOfDerived(hash, configHash, b);
    Tags(hash, configHash, a);
    Tags(hash, configHash, b);
    SplitByTag(Kept(a.artifacts, a.accepted), Kept(StageRows(hash, configHash, a.upstream), a.accepted),
               Kept(b.artifacts, b.accepted), Kept(StageRows(hash, configHash, b.upstream), b.accepted));
  }

  lemma SameKept(hash: Content -> nat, configHash: Config -> nat, upstream: seq<Derivation>, accepted: Option<nat>)
    ensures Kept(StageRows(hash, configHash, upstream), accepted) == StageKeys(hash, configHash, upstream)
  {
    KeptStages(hash, configHash, upstream, accepted);
    KeptStages(hash, configHash, upstream, None);
  }

  /** Assuming injective hashes: equal keys mean the same accepted candidate, the same multiset of upstream
      artifact digests, the same configuration, and, down the whole chain, the same of every upstream
      stage. */
  lemma {:induction false} EqualKeysSameOrigin(hash: Content -> nat, configHash: Config -> nat, a: Derivation, b: Derivation)
    requires Injective(hash) && Injective(configHash)
    requires Derived(hash, configHash, a) && Derived(hash, configHash, b)
    requires KeyOf(hash, configHash, a) == KeyOf(hash, configHash, b)
    ensures SameOrigin(a, b)
    decreases a
  {
    KeyNamesStage(hash, configHash, a, b);
    InputsDetermine(hash, configHash, a, b);
    SameKept(hash, configHash, a.upstream, a.accepted);
    SameKept(hash, configHash, b.upstream, b.accepted);
    UpstreamAgrees(hash, configHash, a.upstream, b.upstream);
    forall i | 0 <= i < |a.upstream| ensures SameOrigin(a.upstream[i], b.upstream[i]) {
      EqualKeysSameOrigin(hash, configHash, a.upstream[i], b.upstream[i]);
    }
  }

  /** What went in, one level down, determines the key. */
  lemma SameIngredientsEqualKeys(hash: Content -> nat, configHash: Config -> nat, a: Derivation, b: Derivation)
    requires Derived(hash, configHash, a) && Derived(hash, configHash, b)
    requires a.task == b.task && a.stage == b.stage && a.contract == b.contract && a.config == b.config && a.accepted == b.accepted
    requires multiset(Kept(a.artifacts, a.accepted)) == multiset(Kept(b.artifacts, b.accepted))
    requires KeysAgree(hash, configHash, a.upstream, b.upstream)
    ensures KeyOf(hash, configHash, a) == KeyOf(hash, configHash, b)
  {
    assert StageRows(hash, configHash, a.upstream) == StageRows(hash, configHash, b.upstream);
    KeptOfDerived(hash, configHash, a);
    KeptOfDerived(hash, configHash, b);
    KeptOrdered(a.rows, a.accepted);
    KeptOrdered(b.rows, b.accepted);
    OrderedUnique(Kept(a.rows, a.accepted), Kept(b.rows, b.accepted));
  }

  /** And conversely: what went in determines the key, so a stage whose inputs did not change reuses its
      key. */
  lemma {:induction false} SameOriginEqualKeys(hash: Content -> nat, configHash: Config -> nat, a: Derivation, b: Derivation)
    requires Derived(hash, configHash, a) && Derived(hash, configHash, b) && SameOrigin(a, b)
    ensures KeyOf(hash, configHash, a) == KeyOf(hash, configHash, b)
    decreases a
  {
    forall i | 0 <= i < |a.upstream| ensures KeyOf(hash, configHash, a.upstream[i]) == KeyOf(hash, configHash, b.upstream[i]) {
      SameOriginEqualKeys(hash, configHash, a.upstream[i], b.upstream[i]);
    }
    SameIngredientsEqualKeys(hash, configHash, a, b);
  }
}
