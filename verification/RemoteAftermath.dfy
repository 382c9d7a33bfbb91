/** What can still come of a remote attempt whose lease has been released, and when the three calls that
    release it on less than fencing needs are safe. */
module RemoteAftermath {
  import opened Tables
  import opened Transitions
  import opened Batch
  import opened Protocol
  import opened Evolution
  import opened Runs
  import opened RemoteHost
  import opened RemoteReleases
  import opened RemoteFencing

  /** A live group of this attempt still has its lease row. */
  predicate StillLeased(w: World, k: Key) {
    Alive(HostAt(w, k)) ==> LeaseAt(w.db, k).Some?
  }

  /** Whatever happens from here on, it has. */
  ghost predicate StaysFenced(db: Db, events: seq<Event>, k: Key)
    requires WellFormed(db)
  {
    forall later: seq<Event> :: StillLeased(Behavior(db, events + later), k)
  }

  lemma {:induction false} HostsInv(db: Db, events: seq<Event>, k: Key)
    requires WellFormed(db)
    ensures HostInv(HostAt(Behavior(db, events), k))
    decreases |events|
  {
    if events != [] {
      var n := |events| - 1;
      HostsInv(db, events[..n], k);
      var step := NextMovesHost(Behavior(db, events[..n]), events[n], k);
      if step.Some? { HostStepKeeps(HostAt(Behavior(db, events[..n]), k), step.value); }
    }
  }

  // ---------------------------------------------------------------- nothing ahead stays nothing ahead

  lemma NextKeepsStill(w: World, e: Event, k: Key)
    requires WellFormed(w.db) && NothingAhead(w, k)
    ensures NothingAhead(Next(w, e), k)
  {
    var over, over' := k in w.ended, k in Next(w, e).ended;
    assert over ==> over';
    var step := NextMovesHost(w, e, k);
    if step.Some? {
      HostKeepsStill(HostAt(w, k), step.value, over);
    }
  }

  lemma LaterEvents(db: Db, events: seq<Event>, later: seq<Event>)
    requires WellFormed(db) && later != []
    ensures Behavior(db, events + later) == Next(Behavior(db, events + later[..|later| - 1]), later[|later| - 1])
  {
    assert (events + later)[..|events + later| - 1] == events + later[..|later| - 1];
  }

  lemma {:induction false} StaysStill(db: Db, events: seq<Event>, later: seq<Event>, k: Key)
    requires WellFormed(db) && NothingAhead(Behavior(db, events), k)
    ensures NothingAhead(Behavior(db, events + later), k)
    decreases |later|
  {
    if later == [] {
      assert events + later == events;
    } else {
      StaysStill(db, events, later[..|later| - 1], k);
      LaterEvents(db, events, later);
      NextKeepsStill(Behavior(db, events + later[..|later| - 1]), later[|later| - 1], k);
    }
  }

  // ---------------------------------------------------------------- what is ahead can come

  lemma {:induction false} Above(s: set<nat>) returns (n: nat)
    ensures forall x :: x in s ==> x < n
  {
    if s == {} {
      n := 0;
    } else {
      var x :| x in s;
      var m := Above(s - {x});
      n := if m > x then m else x + 1;
      assert forall y :: y in s ==> y == x || y in s - {x};
    }
  }

  lemma SomePidIsFree(h: Host) returns (pid: nat)
    ensures FreshPid(h, pid)
  {
    var taken := h.procs.Keys + (set q | q in h.procs :: h.procs[q].pgid);
    pid := Above(taken);
    forall q | q in h.procs ensures q < pid && h.procs[q].pgid < pid {
      assert q in taken && h.procs[q].pgid in taken;
    }
  }

  /** A start call on its way to the launch. */
  predicate OnItsWay(h: Host, call: nat) {
    call in h.calls && (LaunchPending(h.calls[call]) || (HeadsForLock(h.calls[call]) && !h.lock))
  }

  function WayLeft(p: Point): nat {
    match p
    case CheckResult(_) => 5
    case CheckIdentity(_) => 4
    case CheckPid(_) => 3
    case TakeLock => 2
    case Preflight => 1
    case _ => 0
  }

  /** Its next command succeeds and brings it nearer. */
  lemma OneCommand(h: Host, call: nat)
    requires HostInv(h) && OnItsWay(h, call) && !h.calls[call].Launching?
    ensures var h' := HostNext(h, Advance(call, true, 0));
            HostInv(h') && OnItsWay(h', call) && WayLeft(h'.calls[call]) < WayLeft(h.calls[call])
  {
    HostStepKeeps(h, Advance(call, true, 0));
    assert PointOk(h, h.calls[call]);
    assert !h.lock ==> h.launches == [];
  }

  predicate AllAdvance(steps: seq<HostStep>) {
    forall i :: 0 <= i < |steps| ==> steps[i].Advance?
  }

  lemma {:induction false} WillLaunch(h: Host, call: nat) returns (steps: seq<HostStep>)
    requires HostInv(h) && OnItsWay(h, call)
    ensures AllAdvance(steps) && Alive(HostRun(h, steps))
    decreases WayLeft(h.calls[call])
  {
    if h.calls[call].Launching? {
      var pid := SomePidIsFree(h);
      steps := [Advance(call, true, pid)];
      assert steps[..0] == [] && HostRun(h, steps) == Launched(h, call, pid);
      assert Launched(h, call, pid).procs[pid].ours;
    } else {
      OneCommand(h, call);
      var first := [Advance(call, true, 0)];
      assert first[..0] == [] && HostRun(h, first) == HostNext(h, first[0]);
      var rest := WillLaunch(HostNext(h, first[0]), call);
      steps := first + rest;
      RunAfter(h, first, rest);
    }
  }

  function OnServer(k: Key, steps: seq<HostStep>): seq<Event> {
    seq(|steps|, (i: nat) requires i < |steps| => Server(k, steps[i]))
  }

  /** The server goes on without the controller. */
  lemma {:induction false} ServerRuns(db: Db, events: seq<Event>, k: Key, steps: seq<HostStep>)
    requires WellFormed(db) && AllAdvance(steps)
    ensures Behavior(db, events + OnServer(k, steps)).db == Behavior(db, events).db
    ensures HostAt(Behavior(db, events + OnServer(k, steps)), k) == HostRun(HostAt(Behavior(db, events), k), steps)
    decreases |steps|
  {
    var later := OnServer(k, steps);
    if steps == [] {
      assert events + later == events;
    } else {
      var n := |steps| - 1;
      ServerRuns(db, events, k, steps[..n]);
      assert later[..n] == OnServer(k, steps[..n]) && later[n] == Server(k, steps[n]);
      LaterEvents(db, events, later);
    }
  }

  lemma LaunchFollows(db: Db, events: seq<Event>, k: Key, call: nat) returns (later: seq<Event>)
    requires WellFormed(db) && OnItsWay(HostAt(Behavior(db, events), k), call)
    ensures Behavior(db, events + later).db == Behavior(db, events).db && Alive(HostAt(Behavior(db, events + later), k))
  {
    HostsInv(db, events, k);
    var steps := WillLaunch(HostAt(Behavior(db, events), k), call);
    ServerRuns(db, events, k, steps);
    later := OnServer(k, steps);
  }

  /** A wrapper that still runs can start the attempt. */
  lemma WrapperStarts(w: World, k: Key) returns (call: nat)
    requires WellFormed(w.db) && RemoteProcessStage(k.1) && ValidAt(w.db, k) && k !in w.ended && !HostAt(w, k).lock
    ensures Next(w, StartCall(k, call)).db == w.db && OnItsWay(HostAt(Next(w, StartCall(k, call)), k), call)
  {
    call := Above(HostAt(w, k).calls.Keys);
    assert call !in HostAt(w, k).calls.Keys;
  }

  lemma StartFollows(db: Db, events: seq<Event>, k: Key) returns (later: seq<Event>)
    requires WellFormed(db) && RemoteProcessStage(k.1) && ValidAt(Behavior(db, events).db, k)
    requires k !in Behavior(db, events).ended && !HostAt(Behavior(db, events), k).lock
    ensures Behavior(db, events + later).db == Behavior(db, events).db && Alive(HostAt(Behavior(db, events + later), k))
  {
    var call := WrapperStarts(Behavior(db, events), k);
    var start := [StartCall(k, call)];
    OneLater(db, events, StartCall(k, call));
    var rest := LaunchFollows(db, events + start, k, call);
    later := start + rest;
    assert events + later == (events + start) + rest;
  }

  lemma OneLater(db: Db, events: seq<Event>, e: Event)
    requires WellFormed(db)
    ensures Behavior(db, events + [e]) == Next(Behavior(db, events), e)
  {
    assert (events + [e])[..|events|] == events;
  }

  lemma SomethingComes(db: Db, events: seq<Event>, k: Key) returns (later: seq<Event>)
    requires WellFormed(db) && RemoteProcessStage(k.1) && ValidAt(Behavior(db, events).db, k)
    requires !NothingAhead(Behavior(db, events), k)
    ensures Behavior(db, events + later).db == Behavior(db, events).db && Alive(HostAt(Behavior(db, events + later), k))
  {
    var w := Behavior(db, events);
    if Alive(HostAt(w, k)) {
      later := [];
      assert events + later == events;
    } else if call :| call in HostAt(w, k).calls && OnItsWay(HostAt(w, k), call) {
      later := LaunchFollows(db, events, k, call);
    } else {
      later := StartFollows(db, events, k);
    }
  }

  /** Once the lease of a remote attempt is gone, no live group of it ever appears exactly if nothing was
      ahead. */
  lemma ReleasedStaysFencedExactlyIf(db: Db, events: seq<Event>, k: Key)
    requires WellFormed(db) && RemoteProcessStage(k.1)
    requires ValidAt(Behavior(db, events).db, k) && LeaseAt(Behavior(db, events).db, k).None?
    ensures StaysFenced(db, events, k) <==> NothingAhead(Behavior(db, events), k)
  {
    if NothingAhead(Behavior(db, events), k) {
      forall later: seq<Event> ensures StillLeased(Behavior(db, events + later), k) {
        StaysStill(db, events, later, k);
      }
    } else {
      var later := SomethingComes(db, events, k);
      assert !StillLeased(Behavior(db, events + later), k);
    }
  }

  // ---------------------------------------------------------------- the three calls

  /** A worker or a recovery may now make a call that releases the lease on less than fencing needs. */
  ghost predicate MayRelease(w: World, e: Event) {
    && WellFormed(w.db) && e.Control? && Justified(w, e.op, e.basis) && Unproven(w, e.op, e.basis)
    && (e.op.Fail? ==> OwnsItem(w.db, e.op.item, e.op.now))
    && (e.op.Resolve? ==> RecoversItem(w.db, e.op.item))
  }

  lemma FailReleases(t: Task, s: nat, a: nat, now: Time, r: Report)
    requires |t.stages| == STAGE_COUNT && LeaseOf(t, s, a).Some? && r.cleanup
    ensures ValidKey(FailPlain(t, s, a, now, r), s, a) && LeaseOf(FailPlain(t, s, a, now, r), s, a).None?
  {
    FailPlainRows(t, s, a, now, r);
  }

  lemma FailDeletesLease(db: Db, item: Item, now: Time, report: Report)
    requires WellFormed(db) && OwnsItem(db, item, now) && item.stage != IMAGE_EDIT && report.cleanup
    ensures ValidAt(Step(db, Op.Fail(item, now, report)), KeyOf(item))
    ensures LeaseAt(Step(db, Op.Fail(item, now, report)), KeyOf(item)).None?
  {
    var t' := FailTask(db.tasks[item.task], item.stage, item.attempt, now, report, db.automatic);
    FailStep(db, item, now, report);
    FailShape(db.tasks[item.task], item.stage, item.attempt, now, report, db.automatic);
    FailReleases(db.tasks[item.task], item.stage, item.attempt, now, report);
    AggregatedRow(WithTask(db, item.task, t'), KeyOf(item));
  }

  lemma AggregatedRow(db: Db, k: Key)
    requires WellFormed(db)
    ensures ValidAt(Aggregated(db), k) <==> ValidAt(db, k)
    ensures LeaseAt(Aggregated(db), k) == LeaseAt(db, k)
  {
  }

  /** Each of them releases the lease, whatever is ahead. */
  lemma ReleaseTakesLease(w: World, e: Event)
    requires MayRelease(w, e)
    ensures var k, w' := KeyOf(e.op.item), Next(w, e);
            && RemoteProcessStage(k.1) && LeaseAt(w.db, k).Some? && ValidAt(w'.db, k) && LeaseAt(w'.db, k).None?
            && HostAt(w', k) == HostAt(w, k) && w'.ended == w.ended
  {
    match e.op
    case Fail(item, now, report) => FailDeletesLease(w.db, item, now, report);
    case Resolve(item, action) => ResolvedStage(w.db, item, action);
  }

  /** A refused download, a raised executor or a resolution on MISSING releases the lease for good without a
      live group left or to come exactly if nothing of the attempt is ahead on the server, in any behavior. */
  lemma ReleaseSafeExactlyIf(db: Db, events: seq<Event>, e: Event)
    requires WellFormed(db) && MayRelease(Behavior(db, events), e)
    ensures StaysFenced(db, events + [e], KeyOf(e.op.item)) <==> NothingAhead(Behavior(db, events), KeyOf(e.op.item))
  {
    ReleaseTakesLease(Behavior(db, events), e);
    OneLater(db, events, e);
    ReleasedStaysFencedExactlyIf(db, events + [e], KeyOf(e.op.item));
  }

  /** For a refused download that means: exactly if its group is dead. */
  lemma RefusalSafeExactlyIf(db: Db, events: seq<Event>, e: Event)
    requires WellFormed(db) && MayRelease(Behavior(db, events), e) && ReportsRefusal(e.op, e.basis)
    ensures StaysFenced(db, events + [e], KeyOf(e.op.item)) <==> !Alive(HostAt(Behavior(db, events), KeyOf(e.op.item)))
  {
    var w, k := Behavior(db, events), KeyOf(e.op.item);
    ReleaseSafeExactlyIf(db, events, e);
    HostsInv(db, events, k);
    RefusalSawResult(w, k, e.basis.run);
    ResultMeansNothingAhead(w, k);
  }

  /** For a resolution, on EXITED or MISSING: exactly if nothing lives, no launch is pending, and, unless the
      lock is taken already, the wrapper is over and no start call of it still heads for the lock. EXITED
      means that all of this holds, MISSING does not. */
  lemma ResolutionSafeExactlyIf(db: Db, events: seq<Event>, e: Event)
    requires WellFormed(db) && e.Control? && e.op.Resolve? && RemoteProcessStage(e.op.item.stage)
    requires Justified(Behavior(db, events), e.op, e.basis) && RecoversItem(Behavior(db, events).db, e.op.item)
    ensures var w, k := Behavior(db, events), KeyOf(e.op.item);
            var h := HostAt(w, k);
            && (StaysFenced(db, events + [e], k) <==>
                  && !Alive(h) && (forall c :: c in h.calls ==> !LaunchPending(h.calls[c]))
                  && (h.lock || (k in w.ended && forall c :: c in h.calls ==> !HeadsForLock(h.calls[c]))))
            && (h.calls[e.basis.call] == Done(SawExited) ==> StaysFenced(db, events + [e], k))
  {
    var w, k := Behavior(db, events), KeyOf(e.op.item);
    ResolvedStage(w.db, e.op.item, e.op.action);
    OneLater(db, events, e);
    assert Next(w, e).ended == w.ended && HostAt(Next(w, e), k) == HostAt(w, k);
    ReleasedStaysFencedExactlyIf(db, events + [e], k);
    assert StaysFenced(db, events + [e], k) <==> NothingAhead(w, k);
    HostsInv(db, events, k);
    if HostAt(w, k).calls[e.basis.call] == Done(SawExited) {
      ExitedMeansNothingAhead(w, k, e.basis.call);
    }
  }
}
