/** Conservation of GPUs, project locks and slots over every run with fixed capacities. A lease row
    counts until it is deleted, revoked or not. */
module Resources {
  import opened Tables
  import opened Batch
  import opened Protocol
  import opened Evolution

  predicate Exclusive(r: Resource) {
    r.RemoteGpu? || r.ProjectLock?
  }

  function LabelAt(db: Db, k: Key, r: Resource): nat
    requires k in Holders(db, r)
  {
    LeaseAt(db, k).value.resources[r]
  }

  predicate NoSharedLabel(db: Db, r: Resource) {
    forall k, q :: k in Holders(db, r) && q in Holders(db, r) && k != q ==> LabelAt(db, k, r) != LabelAt(db, q, r)
  }

  predicate WithinCapacity(db: Db, r: Resource, capacities: Capacities) {
    |Holders(db, r)| <= (if CapacityOf(capacities, r) > 0 then CapacityOf(capacities, r) else 0)
  }

  predicate GpusFromPool(db: Db, capacities: Capacities) {
    forall k :: k in Holders(db, RemoteGpu) ==>
      LabelAt(db, k, RemoteGpu) in PoolPrefix(db, CapacityOf(capacities, RemoteGpu))
  }

  predicate LocksOwnProject(db: Db) {
    forall k :: k in Holders(db, ProjectLock) ==> k.0 < |db.tasks| && LabelAt(db, k, ProjectLock) == db.tasks[k.0].project
  }

  /** A lease holds exactly the resources its stage asks for. */
  ghost predicate LeasesFit(db: Db) {
    forall k: Key :: LeaseAt(db, k).Some? ==> forall r :: r in LeaseAt(db, k).value.resources <==> r in StageResources(k.1)
  }

  ghost predicate ResourcesOk(db: Db, capacities: Capacities) {
    && NoSharedLabel(db, RemoteGpu) && NoSharedLabel(db, ProjectLock)
    && (forall r :: !Exclusive(r) ==> WithinCapacity(db, r, capacities))
    && GpusFromPool(db, capacities)
    && LocksOwnProject(db)
    && LeasesFit(db)
  }

  // ---------------------------------------------------------------- deleting and rewriting rows

  lemma HoldersShrink(db: Db, db': Db, r: Resource)
    requires Evolves(db, db', false)
    ensures Holders(db', r) <= Holders(db, r) && |Holders(db', r)| <= |Holders(db, r)|
    ensures forall k :: k in Holders(db', r) ==> LabelAt(db', k, r) == LabelAt(db, k, r)
  {
    forall k | k in Holders(db', r) ensures k in Holders(db, r) && LabelAt(db', k, r) == LabelAt(db, k, r) {
      LeaseEvolves(db, db', k);
    }
    SubsetSize(Holders(db', r), Holders(db, r));
  }

  lemma {:induction false} SubsetSize(a: set<Key>, b: set<Key>)
    requires a <= b
    ensures |a| <= |b|
  {
    if a != {} {
      var x :| x in a;
      SubsetSize(a - {x}, b - {x});
    }
  }

  lemma EvolvesKeepsResources(db: Db, db': Db, capacities: Capacities)
    requires ResourcesOk(db, capacities) && Evolves(db, db', false)
    ensures ResourcesOk(db', capacities)
  {
    HoldersShrink(db, db', RemoteGpu);
    HoldersShrink(db, db', ProjectLock);
    forall r | !Exclusive(r) ensures WithinCapacity(db', r, capacities) {
      HoldersShrink(db, db', r);
      assert WithinCapacity(db, r, capacities);
    }
    forall k | k in Holders(db', ProjectLock) ensures k.0 < |db'.tasks| && LabelAt(db', k, ProjectLock) == db'.tasks[k.0].project {
      assert TaskEvolves(db.tasks[k.0], db'.tasks[k.0], false);
    }
    forall k: Key | LeaseAt(db', k).Some?
      ensures forall r :: r in LeaseAt(db', k).value.resources <==> r in StageResources(k.1)
    {
      LeaseEvolves(db, db', k);
    }
  }

  // ---------------------------------------------------------------- adding one row

  lemma GrantedLeases(db: Db, db': Db, k: Item, capacities: Capacities, now: Time)
    requires Grants(db, db', k, capacities, now)
    ensures LeaseAt(db', (k.task, k.stage, k.attempt)).Some?
    ensures Allocate(db, db.tasks[k.task].project, StageResources(k.stage), capacities)
            == Some(LeaseAt(db', (k.task, k.stage, k.attempt)).value.resources)
    ensures forall q: Key :: q != (k.task, k.stage, k.attempt) ==> LeaseAt(db', q) == LeaseAt(db, q)
    ensures LeaseAt(db, (k.task, k.stage, k.attempt)).None?
  {
    var t, t' := db.tasks[k.task], db'.tasks[k.task];
    forall q: Key | q != (k.task, k.stage, k.attempt) ensures LeaseAt(db', q) == LeaseAt(db, q) {
      if q.0 < |db.tasks| && q.0 != k.task {
        assert SameTaskRows(db.tasks[q.0], db'.tasks[q.0]);
      } else if q.0 == k.task && q.1 == k.stage && q.2 < k.attempt {
        assert t'.stages[k.stage].attempts[..k.attempt][q.2] == t.stages[k.stage].attempts[q.2];
      }
    }
  }

  /** The granted attempt now holds `r`, under the label the allocator gave it, exactly if its stage asks for it. */
  ghost predicate Grown(db: Db, db': Db, k: Item, capacities: Capacities, r: Resource) {
    var key := (k.task, k.stage, k.attempt);
    && k.task < |db.tasks|
    && key !in Holders(db, r)
    && Holders(db', r) == (if r in StageResources(k.stage) then Holders(db, r) + {key} else Holders(db, r))
    && (r in StageResources(k.stage) ==>
          AllocateOne(db, db.tasks[k.task].project, r, capacities) == Some(LabelAt(db', key, r)))
    && forall q :: q in Holders(db, r) ==> LabelAt(db', q, r) == LabelAt(db, q, r)
  }

  lemma AddedHolder(db: Db, db': Db, key: Key, r: Resource)
    requires LeaseAt(db, key).None? && LeaseAt(db', key).Some?
    requires forall q: Key :: q != key ==> LeaseAt(db', q) == LeaseAt(db, q)
    ensures key !in Holders(db, r)
    ensures Holders(db', r) == if r in LeaseAt(db', key).value.resources then Holders(db, r) + {key} else Holders(db, r)
    ensures forall q :: q in Holders(db, r) ==> LabelAt(db', q, r) == LabelAt(db, q, r)
  {
    forall q: Key
      ensures q in Holders(db', r) <==> q in Holders(db, r) || (q == key && r in LeaseAt(db', key).value.resources)
      ensures q == key ==> q !in Holders(db, r)
    {
      InHolders(db, q, r);
      InHolders(db', q, r);
    }
  }

  lemma HoldersGrow(db: Db, db': Db, k: Item, capacities: Capacities, now: Time, r: Resource)
    requires Grants(db, db', k, capacities, now)
    ensures Grown(db, db', k, capacities, r)
  {
    GrantedLeases(db, db', k, capacities, now);
    AddedHolder(db, db', (k.task, k.stage, k.attempt), r);
  }

  lemma InHolders(db: Db, k: Key, r: Resource)
    ensures k in Holders(db, r) <==> LeaseAt(db, k).Some? && r in LeaseAt(db, k).value.resources
  {
  }

  lemma FreshLabel(db: Db, db': Db, k: Item, capacities: Capacities, now: Time, r: Resource)
    requires Grants(db, db', k, capacities, now) && NoSharedLabel(db, r) && Exclusive(r)
    ensures NoSharedLabel(db', r)
  {
    HoldersGrow(db, db', k, capacities, now, r);
    var key := (k.task, k.stage, k.attempt);
    if r in StageResources(k.stage) {
      var name := LabelAt(db', key, r);
      assert !LabelTaken(db, r, name);
      forall q | q in Holders(db, r) ensures LabelAt(db, q, r) != name {
        InHolders(db, q, r);
      }
    }
  }

  lemma GrownWithin(db: Db, db': Db, k: Item, capacities: Capacities, r: Resource)
    requires Grown(db, db', k, capacities, r) && WithinCapacity(db, r, capacities) && !Exclusive(r)
    ensures WithinCapacity(db', r, capacities)
  {
  }

  lemma GrantedWithin(db: Db, db': Db, k: Item, capacities: Capacities, now: Time)
    requires Grants(db, db', k, capacities, now) && forall r :: !Exclusive(r) ==> WithinCapacity(db, r, capacities)
    ensures forall r :: !Exclusive(r) ==> WithinCapacity(db', r, capacities)
  {
    forall r | !Exclusive(r) ensures WithinCapacity(db', r, capacities) {
      HoldersGrow(db, db', k, capacities, now, r);
      GrownWithin(db, db', k, capacities, r);
    }
  }

  lemma GrownGpus(db: Db, db': Db, k: Item, capacities: Capacities)
    requires Grown(db, db', k, capacities, RemoteGpu) && GpusFromPool(db, capacities) && db'.pool == db.pool
    ensures GpusFromPool(db', capacities)
  {
  }

  lemma GrownLocks(db: Db, db': Db, k: Item, capacities: Capacities)
    requires Grown(db, db', k, capacities, ProjectLock) && LocksOwnProject(db) && |db'.tasks| == |db.tasks|
    requires forall t :: 0 <= t < |db.tasks| ==> db'.tasks[t].project == db.tasks[t].project
    ensures LocksOwnProject(db')
  {
  }

  lemma GrantKeepsResources(db: Db, db': Db, k: Item, capacities: Capacities, now: Time)
    requires ResourcesOk(db, capacities) && Grants(db, db', k, capacities, now)
    ensures ResourcesOk(db', capacities)
  {
    FreshLabel(db, db', k, capacities, now, RemoteGpu);
    FreshLabel(db, db', k, capacities, now, ProjectLock);
    GrantedWithin(db, db', k, capacities, now);
    HoldersGrow(db, db', k, capacities, now, RemoteGpu);
    GrownGpus(db, db', k, capacities);
    HoldersGrow(db, db', k, capacities, now, ProjectLock);
    GrantedProjects(db, db', k, capacities, now);
    GrownLocks(db, db', k, capacities);
    GrantedNames(db, db', k, capacities, now);
  }

  lemma GrantedNames(db: Db, db': Db, k: Item, capacities: Capacities, now: Time)
    requires LeasesFit(db) && Grants(db, db', k, capacities, now)
    ensures LeasesFit(db')
  {
    GrantedLeases(db, db', k, capacities, now);
    forall q: Key | LeaseAt(db', q).Some?
      ensures forall r :: r in LeaseAt(db', q).value.resources <==> r in StageResources(q.1)
    {
      if q != (k.task, k.stage, k.attempt) {
        assert LeaseAt(db, q).Some?;
      }
    }
  }

  lemma GrantedProjects(db: Db, db': Db, k: Item, capacities: Capacities, now: Time)
    requires Grants(db, db', k, capacities, now)
    ensures forall t :: 0 <= t < |db.tasks| ==> db'.tasks[t].project == db.tasks[t].project
  {
    forall t | 0 <= t < |db.tasks| ensures db'.tasks[t].project == db.tasks[t].project {
      if t != k.task {
        assert SameTaskRows(db.tasks[t], db'.tasks[t]);
      }
    }
  }

  // ---------------------------------------------------------------- every run

  predicate FixedCapacities(ops: seq<Op>, capacities: Capacities) {
    forall i :: 0 <= i < |ops| && ops[i].LeaseNext? ==> ops[i].capacities == capacities
  }

  lemma StepKeepsResources(db: Db, op: Op, capacities: Capacities)
    requires WellFormed(db) && ResourcesOk(db, capacities)
    requires op.LeaseNext? ==> op.capacities == capacities
    ensures ResourcesOk(Step(db, op), capacities)
  {
    if op.LeaseNext? && Step(db, op) != db {
      LeaseNextDispatches(db, op.now, capacities, op.queue);
      var r := Dispatched(db, op.now, capacities, op.queue);
      if r.item.Some? {
        GrantKeepsResources(db, r.db, r.item.value, capacities, op.now);
      } else {
        SameRowsEvolves(db, r.db);
        EvolvesKeepsResources(db, r.db, capacities);
      }
    } else {
      if !op.LeaseNext? {
        StepEvolves(db, op);
        EvolvesWeaker(db, Step(db, op));
      } else {
        EvolvesReflexive(db);
      }
      EvolvesKeepsResources(db, Step(db, op), capacities);
    }
  }

  lemma {:induction false} RunKeepsResources(db: Db, ops: seq<Op>, capacities: Capacities)
    requires IsPlanned(db) && FixedCapacities(ops, capacities)
    ensures ResourcesOk(Run(db, ops), capacities)
    decreases |ops|
  {
    if ops == [] {
      forall k: Key ensures LeaseAt(db, k).None? {
        if k.0 < |db.tasks| { assert IsPlannedTask(db.tasks[k.0]); }
      }
      forall r ensures Holders(db, r) == {} {
        forall k: Key ensures k !in Holders(db, r) { InHolders(db, k, r); }
      }
      assert forall r :: !Exclusive(r) ==> WithinCapacity(db, r, capacities);
    } else {
      RunKeepsResources(db, ops[..|ops| - 1], capacities);
      StepKeepsResources(Run(db, ops[..|ops| - 1]), ops[|ops| - 1], capacities);
    }
  }

  // ---------------------------------------------------------------- what it means

  lemma LeaseHolds(db: Db, k: Key, r: Resource)
    requires LeasesFit(db) && LeaseAt(db, k).Some? && r in StageResources(k.1)
    ensures k in Holders(db, r)
  {
    InHolders(db, k, r);
  }

  /** The stages that work on a remote GPU, and those that work in a Unity project, by their position. */
  const GPU_STAGES := {4, 5, 6, 7, 9}
  const UNITY_STAGES := {0, 12, 13}

  /** What a lease row of stage `k.1` names: stages 4 to 7 and 9 one GPU among the first ones of the pool; stages
      0, 12 and 13 a Unity slot and the lock of their own project; the others one slot of their kind, and the
      gate nothing. */
  ghost predicate NamesItsResources(db: Db, k: Key, capacities: Capacities)
    requires LeaseAt(db, k).Some?
  {
    var named := LeaseAt(db, k).value.resources;
    && (k.1 in GPU_STAGES ==>
          && named.Keys == {RemoteGpu}
          && exists i :: 0 <= i < |db.pool| && i < CapacityOf(capacities, RemoteGpu) && db.pool[i] == named[RemoteGpu])
    && (k.1 in UNITY_STAGES ==>
          named.Keys == {UnityGpu, ProjectLock} && k.0 < |db.tasks| && named[ProjectLock] == db.tasks[k.0].project)
    && (k.1 == 1 ==> named.Keys == {ImageApi})
    && (k.1 == 2 ==> named.Keys == {})
    && (k.1 == 3 || k.1 == 11 ==> named.Keys == {SshIo})
    && (k.1 == 8 ==> named.Keys == {RemoteCpu})
    && (k.1 == 10 ==> named.Keys == {RemoteIo})
    && (k.1 == 14 ==> named.Keys == {EvaluationApi})
  }

  lemma FitNames(db: Db, k: Key, capacities: Capacities)
    requires ResourcesOk(db, capacities) && LeaseAt(db, k).Some?
    ensures NamesItsResources(db, k, capacities)
  {
    var named := LeaseAt(db, k).value.resources;
    assert forall r :: r in named.Keys <==> r in StageResources(k.1);
    forall r | r in named ensures k in Holders(db, r) && LabelAt(db, k, r) == named[r] {
      InHolders(db, k, r);
    }
    if RemoteGpu in named {
      var pool := PoolPrefix(db, CapacityOf(capacities, RemoteGpu));
      assert LabelAt(db, k, RemoteGpu) in pool;
      var i :| 0 <= i < |pool| && pool[i] == named[RemoteGpu];
      assert db.pool[i] == named[RemoteGpu];
    }
  }

  /** On every run each lease row names exactly the resources its stage is declared with. */
  lemma LeasesNameTheirResources(db: Db, ops: seq<Op>, capacities: Capacities, k: Key)
    requires IsPlanned(db) && FixedCapacities(ops, capacities) && LeaseAt(Run(db, ops), k).Some?
    ensures NamesItsResources(Run(db, ops), k, capacities)
  {
    RunKeepsResources(db, ops, capacities);
    FitNames(Run(db, ops), k, capacities);
  }

  /** Two lease rows never name the same GPU or lock the same project, so two Unity stages of one
      project are never leased together. */
  lemma ExclusiveResources(db: Db, ops: seq<Op>, capacities: Capacities, k: Key, q: Key)
    requires IsPlanned(db) && FixedCapacities(ops, capacities) && k != q
    requires LeaseAt(Run(db, ops), k).Some? && LeaseAt(Run(db, ops), q).Some?
    ensures DifferentResources(Run(db, ops), k, q)
  {
    RunKeepsResources(db, ops, capacities);
    ExclusiveLabels(Run(db, ops), k, q, capacities);
  }

  ghost predicate DifferentResources(db: Db, k: Key, q: Key)
    requires LeaseAt(db, k).Some? && LeaseAt(db, q).Some?
  {
    var x, y := LeaseAt(db, k).value.resources, LeaseAt(db, q).value.resources;
    && (k.1 in GPU_STAGES && q.1 in GPU_STAGES ==> RemoteGpu in x && RemoteGpu in y && x[RemoteGpu] != y[RemoteGpu])
    && (k.1 in UNITY_STAGES && q.1 in UNITY_STAGES ==>
          k.0 < |db.tasks| && q.0 < |db.tasks| && db.tasks[k.0].project != db.tasks[q.0].project)
  }

  lemma ExclusiveLabels(db: Db, k: Key, q: Key, capacities: Capacities)
    requires ResourcesOk(db, capacities) && k != q && LeaseAt(db, k).Some? && LeaseAt(db, q).Some?
    ensures DifferentResources(db, k, q)
  {
    FitNames(db, k, capacities);
    FitNames(db, q, capacities);
    forall r | r in LeaseAt(db, k).value.resources && r in LeaseAt(db, q).value.resources
      ensures k in Holders(db, r) && q in Holders(db, r)
    {
      InHolders(db, k, r);
      InHolders(db, q, r);
    }
    if k.1 in GPU_STAGES && q.1 in GPU_STAGES { assert LabelAt(db, k, RemoteGpu) != LabelAt(db, q, RemoteGpu); }
    if k.1 in UNITY_STAGES && q.1 in UNITY_STAGES { assert LabelAt(db, k, ProjectLock) != LabelAt(db, q, ProjectLock); }
  }

  /** GPU leases never outnumber the prefix of the pool that the capacity opens. */
  lemma GpuLeasesBounded(db: Db, ops: seq<Op>, capacities: Capacities)
    requires IsPlanned(db) && FixedCapacities(ops, capacities)
    ensures var end := Run(db, ops);
            |Holders(end, RemoteGpu)| <= |PoolPrefix(end, CapacityOf(capacities, RemoteGpu))|
  {
    RunKeepsResources(db, ops, capacities);
    var end := Run(db, ops);
    var pool := PoolPrefix(end, CapacityOf(capacities, RemoteGpu));
    var names := set i | 0 <= i < |pool| :: pool[i];
    InjectionBound(end, Holders(end, RemoteGpu), RemoteGpu, names);
    NamesBound(pool);
  }

  lemma {:induction false} InjectionBound(db: Db, keys: set<Key>, r: Resource, names: set<nat>)
    requires keys <= Holders(db, r) && NoSharedLabel(db, r)
    requires forall k :: k in keys ==> LabelAt(db, k, r) in names
    ensures |keys| <= |names|
    decreases |keys|
  {
    if keys != {} {
      var k :| k in keys;
      InjectionBound(db, keys - {k}, r, names - {LabelAt(db, k, r)});
    }
  }

  lemma {:induction false} NamesBound(pool: seq<nat>)
    ensures |set i | 0 <= i < |pool| :: pool[i]| <= |pool|
  {
    var names := set i | 0 <= i < |pool| :: pool[i];
    if pool != [] {
      var shorter := pool[..|pool| - 1];
      NamesBound(shorter);
      var fewer := set i | 0 <= i < |shorter| :: shorter[i];
      forall x | x in names ensures x in fewer + {pool[|pool| - 1]} {
        var i :| 0 <= i < |pool| && pool[i] == x;
        assert i < |shorter| ==> shorter[i] in fewer;
      }
      SetSize(names, fewer + {pool[|pool| - 1]});
    }
  }

  lemma {:induction false} SetSize(a: set<nat>, b: set<nat>)
    requires a <= b
    ensures |a| <= |b|
  {
    if a != {} {
      var x :| x in a;
      SetSize(a - {x}, b - {x});
    }
  }
}
