/** The control directory of one remote attempt, the process table of the server, and the shell scripts
    that start and probe the attempt, one shell command at a time. */
module RemoteHost {
  import opened Tables

  /** The five lines of process.identity whose owner matches; `ticks` is None if the line is empty. */
  datatype Identity = Identity(pid: nat, pgid: nat, boot: nat, ticks: Option<nat>)

  /** `ours`: a member of the process group that a start call launched. */
  datatype Proc = Proc(pgid: nat, ticks: nat, zombie: bool, ours: bool)

  datatype Launch = Launch(pid: nat, boot: nat, ticks: nat)

  datatype RemoteState = SawResult | SawStarted | SawRunning | SawGroup | SawExited | SawMissing | SawInvalid

  /** Where a running script is. `starting` tells start_or_probe from probe. */
  datatype Point =
    | CheckResult(starting: bool)
    | CheckIdentity(starting: bool)
    | CheckPid(starting: bool)
    | CheckLock
    | TakeLock
    | Preflight
    | Launching
    | ReadStart(pid: nat)
    | WritePid(id: Identity)
    | WriteIdentity(id: Identity)
    | LoadIdentity
    | ReadBoot(saved: Identity)
    | CheckLeader(saved: Identity)
    | CheckGroup(saved: Identity)
    | Done(state: RemoteState)

  datatype RemoteResult = RemoteResult(cleanup: bool)

  /** `launches` records every launch; the scripts cannot see it. */
  datatype Host = Host(
    result: Option<RemoteResult>, pidFile: bool, identity: Option<Identity>, lock: bool,
    boot: nat, clock: nat, procs: map<nat, Proc>, launches: seq<Launch>, calls: map<nat, Point>)

  const FRESH_HOST := Host(None, false, None, false, 0, 0, map[], [], map[])

  // ---------------------------------------------------------------- the scripts

  predicate FreshPid(h: Host, p: nat) {
    p !in h.procs && forall q :: q in h.procs ==> h.procs[q].pgid != p
  }

  predicate GroupLive(h: Host, pgid: nat) {
    exists q :: q in h.procs && h.procs[q].pgid == pgid && !h.procs[q].zombie
  }

  function LeaderPoint(h: Host, saved: Identity): Point {
    if saved.pid !in h.procs then CheckGroup(saved)
    else if Some(h.procs[saved.pid].ticks) != saved.ticks || h.procs[saved.pid].pgid != saved.pgid then Done(SawInvalid)
    else Done(SawRunning)
  }

  /** The next point of a script that writes nothing in this step. */
  function ReadingPoint(h: Host, p: Point): Point {
    match p
    case CheckResult(starting) => if h.result.Some? then Done(SawResult) else CheckIdentity(starting)
    case CheckIdentity(starting) => if h.identity.Some? then LoadIdentity else CheckPid(starting)
    case CheckPid(starting) => if h.pidFile then LoadIdentity else if starting then TakeLock else CheckLock
    case CheckLock => if h.lock then Done(SawInvalid) else Done(SawMissing)
    case ReadStart(pid) =>
      WritePid(Identity(pid, pid, h.boot, if pid in h.procs then Some(h.procs[pid].ticks) else None))
    case LoadIdentity =>
      if h.identity.Some? && h.identity.value.ticks.Some? then ReadBoot(h.identity.value) else Done(SawInvalid)
    case ReadBoot(saved) => if saved.boot != h.boot then Done(SawExited) else CheckLeader(saved)
    case CheckLeader(saved) => LeaderPoint(h, saved)
    case CheckGroup(saved) => if GroupLive(h, saved.pgid) then Done(SawGroup) else Done(SawExited)
    case _ => p
  }

  function Launched(h: Host, call: nat, pid: nat): Host {
    h.(procs := h.procs[pid := Proc(pid, h.clock, false, true)], clock := h.clock + 1,
       launches := h.launches + [Launch(pid, h.boot, h.clock)], calls := h.calls[call := ReadStart(pid)])
  }

  /** One command of one script. `ready`: setsid and the environment file are there; `pid`: the process
      id the server gives a launched process. */
  function Advanced(h: Host, call: nat, ready: bool, pid: nat): Host
    requires call in h.calls
  {
    var p := h.calls[call];
    match p
    case TakeLock => if h.lock then h.(calls := h.calls[call := Done(SawInvalid)])
                     else h.(lock := true, calls := h.calls[call := Preflight])
    case Preflight => h.(calls := h.calls[call := if ready then Launching else Done(SawInvalid)])
    case Launching => if FreshPid(h, pid) then Launched(h, call, pid) else h
    case WritePid(id) => h.(pidFile := true, calls := h.calls[call := WriteIdentity(id)])
    case WriteIdentity(id) => h.(identity := Some(id), calls := h.calls[call := Done(SawStarted)])
    case _ => h.(calls := h.calls[call := ReadingPoint(h, p)])
  }

  // ---------------------------------------------------------------- the server

  datatype HostStep =
    | Begin(call: nat, starting: bool)
    | Advance(call: nat, ready: bool, pid: nat)
    | Crash(call: nat)
    | Spawn(pid: nat)
    | Fork(parent: nat, pid: nat)
    | Die(pid: nat)
    | Reap(pid: nat)
    | Reboot
    | WriteResult(pid: nat, cleanup: bool)

  predicate OnlyLive(h: Host, pid: nat) {
    forall q :: q in h.procs && h.procs[q].ours && !h.procs[q].zombie ==> q == pid
  }

  /** The shell that launched `pid` still reads its record, and has not waited for it. */
  predicate ShellWaits(h: Host, pid: nat) {
    exists c :: c in h.calls && h.calls[c] == ReadStart(pid)
  }

  /** One event on the server. A result that reports its cleanup completed is the last act of the last
      live member of the group. Scripts die in crashes and reboots; an answer that was given stays given. */
  function HostNext(h: Host, step: HostStep): Host {
    match step
    case Begin(call, starting) => if call in h.calls then h else h.(calls := h.calls[call := CheckResult(starting)])
    case Advance(call, ready, pid) => if call in h.calls then Advanced(h, call, ready, pid) else h
    case Crash(call) => if call in h.calls && h.calls[call].Done? then h else h.(calls := h.calls - {call})
    case Spawn(pid) =>
      if FreshPid(h, pid) then h.(procs := h.procs[pid := Proc(pid, h.clock, false, false)], clock := h.clock + 1) else h
    case Fork(parent, pid) =>
      if parent in h.procs && !h.procs[parent].zombie && FreshPid(h, pid)
      then h.(procs := h.procs[pid := h.procs[parent].(ticks := h.clock)], clock := h.clock + 1) else h
    case Die(pid) => if pid in h.procs then h.(procs := h.procs[pid := h.procs[pid].(zombie := true)]) else h
    case Reap(pid) => if pid in h.procs && h.procs[pid].zombie && !ShellWaits(h, pid) then h.(procs := h.procs - {pid}) else h
    case Reboot => h.(boot := h.boot + 1, procs := map[], calls := map c | c in h.calls && h.calls[c].Done? :: h.calls[c])
    case WriteResult(pid, cleanup) =>
      if h.result.None? && pid in h.procs && h.procs[pid].ours && !h.procs[pid].zombie && (cleanup ==> OnlyLive(h, pid))
      then h.(result := Some(RemoteResult(cleanup)),
              procs := if cleanup then h.procs[pid := h.procs[pid].(zombie := true)] else h.procs)
      else h
  }

  function HostRun(h: Host, steps: seq<HostStep>): Host
    decreases |steps|
  {
    if steps == [] then h else HostNext(HostRun(h, steps[..|steps| - 1]), steps[|steps| - 1])
  }

  // ---------------------------------------------------------------- the invariant

  /** The attempt's process group has a member that is not a zombie. */
  predicate Alive(h: Host) {
    exists q :: q in h.procs && h.procs[q].ours && !h.procs[q].zombie
  }

  /** A start call holds the lock and has not launched yet. */
  predicate LaunchPending(p: Point) {
    p.Preflight? || p.Launching?
  }

  predicate Matches(h: Host, id: Identity) {
    && |h.launches| == 1
    && id.pid == id.pgid == h.launches[0].pid
    && id.boot == h.launches[0].boot
    && (id.ticks.Some? ==> id.ticks.value == h.launches[0].ticks)
  }

  predicate LeaderGone(h: Host) {
    && |h.launches| == 1
    && (h.launches[0].pid in h.procs ==> h.procs[h.launches[0].pid].ticks != h.launches[0].ticks)
  }

  /** The launch ended with a reboot, or its leader and its whole group are gone. */
  predicate Stopped(h: Host) {
    && h.identity.Some? && Matches(h, h.identity.value)
    && !Alive(h)
    && (h.boot != h.launches[0].boot || LeaderGone(h))
  }

  predicate PointOk(h: Host, p: Point) {
    match p
    case Preflight => h.lock && h.launches == []
    case Launching => h.lock && h.launches == []
    case ReadStart(pid) => |h.launches| == 1 && h.launches[0].pid == pid && h.launches[0].boot == h.boot
                           && pid in h.procs && h.procs[pid].ticks == h.launches[0].ticks
    case WritePid(id) => Matches(h, id)
    case WriteIdentity(id) => Matches(h, id)
    case ReadBoot(saved) => Matches(h, saved) && saved.ticks.Some? && h.identity.Some?
    case CheckLeader(saved) => Matches(h, saved) && saved.ticks.Some? && h.identity.Some? && saved.boot == h.boot
    case CheckGroup(saved) => Matches(h, saved) && saved.ticks.Some? && h.identity.Some? && saved.boot == h.boot && LeaderGone(h)
    case Done(state) => (state.SawExited? ==> Stopped(h)) && (state.SawResult? ==> h.result.Some?)
    case _ => true
  }

  predicate CallsOk(h: Host) {
    && (forall c :: c in h.calls ==> PointOk(h, h.calls[c]))
    && (forall c, d :: c in h.calls && d in h.calls && LaunchPending(h.calls[c]) && LaunchPending(h.calls[d]) ==> c == d)
  }

  predicate ProcsOk(h: Host) {
    && (forall q :: q in h.procs ==> h.procs[q].ticks < h.clock)
    && (forall q :: q in h.procs && h.procs[q].ours ==>
          |h.launches| == 1 && h.procs[q].pgid == h.launches[0].pid && h.launches[0].boot == h.boot)
  }

  predicate FilesOk(h: Host) {
    && |h.launches| <= 1
    && (h.launches != [] ==> h.lock && h.launches[0].ticks < h.clock && h.launches[0].boot <= h.boot)
    && (h.pidFile ==> h.launches != [])
    && (h.identity.Some? ==> Matches(h, h.identity.value))
    && (h.result.Some? ==> h.launches != [])
    && (h.result == Some(RemoteResult(true)) ==> !Alive(h))
  }

  predicate HostInv(h: Host) {
    CallsOk(h) && ProcsOk(h) && FilesOk(h)
  }

  // ---------------------------------------------------------------- every event keeps it

  /** A script that only reads moves to a sound point. */
  lemma ReadingPointOk(h: Host, p: Point)
    requires ProcsOk(h) && FilesOk(h) && PointOk(h, p)
    requires !p.TakeLock? && !LaunchPending(p) && !p.WritePid? && !p.WriteIdentity?
    ensures PointOk(h, ReadingPoint(h, p)) && !LaunchPending(ReadingPoint(h, p))
  {
  }

  lemma MovedCall(h: Host, call: nat, p: Point)
    requires HostInv(h) && call in h.calls && PointOk(h, p) && (LaunchPending(p) ==> LaunchPending(h.calls[call]))
    ensures HostInv(h.(calls := h.calls[call := p]))
  {
    var h' := h.(calls := h.calls[call := p]);
    forall c | c in h'.calls ensures PointOk(h', h'.calls[c]) {
      assert PointOk(h, h'.calls[c]);
    }
  }

  lemma LaunchKeeps(h: Host, call: nat, pid: nat)
    requires HostInv(h) && call in h.calls && h.calls[call].Launching? && FreshPid(h, pid)
    ensures HostInv(Launched(h, call, pid))
  {
    var h' := Launched(h, call, pid);
    forall c | c in h'.calls ensures PointOk(h', h'.calls[c]) && !LaunchPending(h'.calls[c]) {
      if c != call {
        assert PointOk(h, h.calls[c]);
        assert !LaunchPending(h.calls[c]);
      }
    }
  }

  lemma LockKeeps(h: Host, call: nat)
    requires HostInv(h) && call in h.calls && h.calls[call].TakeLock? && !h.lock
    ensures HostInv(h.(lock := true, calls := h.calls[call := Preflight]))
  {
    var h' := h.(lock := true, calls := h.calls[call := Preflight]);
    forall c | c in h'.calls ensures PointOk(h', h'.calls[c]) && (LaunchPending(h'.calls[c]) ==> c == call) {
      if c != call { assert PointOk(h, h.calls[c]); }
    }
  }

  lemma PidKeeps(h: Host, call: nat, id: Identity)
    requires HostInv(h) && call in h.calls && h.calls[call] == WritePid(id)
    ensures HostInv(h.(pidFile := true, calls := h.calls[call := WriteIdentity(id)]))
  {
    var h' := h.(pidFile := true, calls := h.calls[call := WriteIdentity(id)]);
    assert PointOk(h, h.calls[call]);
    forall c | c in h'.calls ensures PointOk(h', h'.calls[c]) && (LaunchPending(h'.calls[c]) ==> LaunchPending(h.calls[c])) {
      if c != call { assert PointOk(h, h.calls[c]); }
    }
  }

  lemma IdentityKeeps(h: Host, call: nat, id: Identity)
    requires HostInv(h) && call in h.calls && h.calls[call] == WriteIdentity(id)
    ensures HostInv(h.(identity := Some(id), calls := h.calls[call := Done(SawStarted)]))
  {
    var h' := h.(identity := Some(id), calls := h.calls[call := Done(SawStarted)]);
    assert PointOk(h, h.calls[call]);
    forall c | c in h'.calls ensures PointOk(h', h'.calls[c]) && (LaunchPending(h'.calls[c]) ==> LaunchPending(h.calls[c])) {
      if c != call { assert PointOk(h, h.calls[c]); }
    }
  }

  lemma AdvanceKeeps(h: Host, call: nat, ready: bool, pid: nat)
    requires HostInv(h) && call in h.calls
    ensures HostInv(Advanced(h, call, ready, pid))
  {
    var p := h.calls[call];
    assert PointOk(h, p);
    match p
    case TakeLock => if h.lock { MovedCall(h, call, Done(SawInvalid)); } else { LockKeeps(h, call); }
    case Preflight => MovedCall(h, call, if ready then Launching else Done(SawInvalid));
    case Launching => if FreshPid(h, pid) { LaunchKeeps(h, call, pid); }
    case WritePid(id) => PidKeeps(h, call, id);
    case WriteIdentity(id) => IdentityKeeps(h, call, id);
    case _ =>
      ReadingPointOk(h, p);
      MovedCall(h, call, ReadingPoint(h, p));
  }

  /** Events that change only the process table. */
  predicate TableEvent(step: HostStep) {
    step.Spawn? || step.Fork? || step.Die? || step.Reap?
  }

  lemma TableKeepsPoint(h: Host, step: HostStep, p: Point)
    requires HostInv(h) && TableEvent(step) && PointOk(h, p)
    requires p.ReadStart? ==> ShellWaits(h, p.pid)
    ensures PointOk(HostNext(h, step), p)
  {
    if Alive(HostNext(h, step)) {
      TableKeepsDead(h, step);
    }
  }

  lemma TableKeepsDead(h: Host, step: HostStep)
    requires TableEvent(step) && Alive(HostNext(h, step))
    ensures Alive(h)
  {
    var h' := HostNext(h, step);
    var q :| q in h'.procs && h'.procs[q].ours && !h'.procs[q].zombie;
    if step.Fork? && q == step.pid && h' != h {
      assert h.procs[step.parent].ours;
    } else {
      assert q in h.procs;
    }
  }

  lemma TableKeeps(h: Host, step: HostStep)
    requires HostInv(h) && TableEvent(step)
    ensures HostInv(HostNext(h, step))
  {
    var h' := HostNext(h, step);
    forall c | c in h'.calls ensures PointOk(h', h'.calls[c]) {
      TableKeepsPoint(h, step, h.calls[c]);
    }
    if Alive(h') {
      TableKeepsDead(h, step);
    }
  }

  lemma ResultKeeps(h: Host, pid: nat, cleanup: bool)
    requires HostInv(h)
    ensures HostInv(HostNext(h, WriteResult(pid, cleanup)))
  {
    var h' := HostNext(h, WriteResult(pid, cleanup));
    forall c | c in h'.calls ensures PointOk(h', h'.calls[c]) {
      assert PointOk(h, h.calls[c]);
    }
  }

  /** Scripts that begin, die, or die with the server. */
  lemma CallsKeep(h: Host, step: HostStep)
    requires HostInv(h) && (step.Begin? || step.Crash? || step.Reboot?)
    ensures HostInv(HostNext(h, step))
  {
    var h' := HostNext(h, step);
    forall c | c in h'.calls ensures PointOk(h', h'.calls[c]) {
      if c in h.calls { assert PointOk(h, h.calls[c]); }
    }
  }

  lemma HostStepKeeps(h: Host, step: HostStep)
    requires HostInv(h)
    ensures HostInv(HostNext(h, step))
  {
    match step
    case Advance(call, ready, pid) => if call in h.calls { AdvanceKeeps(h, call, ready, pid); }
    case WriteResult(pid, cleanup) => ResultKeeps(h, pid, cleanup);
    case Begin(_, _) => CallsKeep(h, step);
    case Crash(_) => CallsKeep(h, step);
    case Reboot => CallsKeep(h, step);
    case _ => TableKeeps(h, step);
  }

  lemma {:induction false} HostRunInv(steps: seq<HostStep>)
    ensures HostInv(HostRun(FRESH_HOST, steps))
    decreases |steps|
  {
    if steps != [] {
      HostRunInv(steps[..|steps| - 1]);
      HostStepKeeps(HostRun(FRESH_HOST, steps[..|steps| - 1]), steps[|steps| - 1]);
    }
  }

  // ---------------------------------------------------------------- single launch, sound probes

  /** Any number of start calls, interleaved, crashed or cut off by reboots, launch at most once. */
  lemma SingleLaunch(steps: seq<HostStep>)
    ensures |HostRun(FRESH_HOST, steps).launches| <= 1
  {
    HostRunInv(steps);
  }

  /** The call gives its answer in this event. */
  predicate Answers(h: Host, call: nat, ready: bool, pid: nat, state: RemoteState) {
    && call in h.calls && !h.calls[call].Done?
    && call in Advanced(h, call, ready, pid).calls && Advanced(h, call, ready, pid).calls[call] == Done(state)
  }

  /** MISSING: nothing has been launched so far, and no call holds the lock; one may still be on its way to it. */
  lemma MissingIsSound(steps: seq<HostStep>, call: nat, ready: bool, pid: nat)
    requires Answers(HostRun(FRESH_HOST, steps), call, ready, pid, SawMissing)
    ensures var h := HostRun(FRESH_HOST, steps);
            h.launches == [] && !h.lock && !Alive(h) && forall c :: c in h.calls ==> !LaunchPending(h.calls[c])
  {
    HostRunInv(steps);
    var h := HostRun(FRESH_HOST, steps);
    forall c | c in h.calls ensures !LaunchPending(h.calls[c]) {
      assert PointOk(h, h.calls[c]);
    }
  }

  /** Answers and results stay. */
  lemma AnswersStay(h: Host, step: HostStep)
    ensures forall c :: c in h.calls && h.calls[c].Done? ==> c in HostNext(h, step).calls && HostNext(h, step).calls[c] == h.calls[c]
    ensures h.result.Some? ==> HostNext(h, step).result == h.result
  {
  }

  lemma StoppedStays(h: Host, step: HostStep)
    requires HostInv(h) && Stopped(h)
    ensures Stopped(HostNext(h, step))
  {
    var h' := HostNext(h, step);
    if step.Advance? && step.call in h.calls {
      assert PointOk(h, h.calls[step.call]);
    }
    if TableEvent(step) && Alive(h') {
      TableKeepsDead(h, step);
    }
  }

  lemma {:induction false} RunAfter(h: Host, a: seq<HostStep>, b: seq<HostStep>)
    ensures HostRun(h, a + b) == HostRun(HostRun(h, a), b)
    decreases |b|
  {
    if b == [] {
      assert a + b == a;
    } else {
      RunAfter(h, a, b[..|b| - 1]);
      assert (a + b)[..|a + b| - 1] == a + b[..|b| - 1];
    }
  }

  lemma {:induction false} StoppedForever(h: Host, steps: seq<HostStep>)
    requires HostInv(h) && Stopped(h)
    ensures HostInv(HostRun(h, steps)) && Stopped(HostRun(h, steps))
    decreases |steps|
  {
    if steps != [] {
      var before := HostRun(h, steps[..|steps| - 1]);
      StoppedForever(h, steps[..|steps| - 1]);
      HostStepKeeps(before, steps[|steps| - 1]);
      StoppedStays(before, steps[|steps| - 1]);
    }
  }

  /** EXITED: the identity record names the one launch, which a reboot ended or whose leader and group
      are gone; and that stays so whatever happens on the server. */
  lemma ExitedIsSound(steps: seq<HostStep>, call: nat, ready: bool, pid: nat, later: seq<HostStep>)
    requires Answers(HostRun(FRESH_HOST, steps), call, ready, pid, SawExited)
    ensures Stopped(HostRun(FRESH_HOST, steps))
    ensures Stopped(HostRun(FRESH_HOST, steps + later))
  {
    HostRunInv(steps);
    var h := HostRun(FRESH_HOST, steps);
    AdvanceKeeps(h, call, ready, pid);
    assert PointOk(Advanced(h, call, ready, pid), Done(SawExited));
    assert PointOk(h, h.calls[call]);
    StoppedForever(h, later);
    RunAfter(FRESH_HOST, steps, later);
  }

  /** RUNNING and GROUP_RUNNING: the leader of the launch is still in the table, or something answers to
      its process group. */
  lemma RunningIsSound(steps: seq<HostStep>, call: nat, ready: bool, pid: nat, state: RemoteState)
    requires Answers(HostRun(FRESH_HOST, steps), call, ready, pid, state)
    ensures var h := HostRun(FRESH_HOST, steps);
            && (state.SawRunning? ==> |h.launches| == 1 && !LeaderGone(h))
            && (state.SawGroup? ==> |h.launches| == 1 && LeaderGone(h) && GroupLive(h, h.launches[0].pid))
            && (state.SawResult? ==> h.result.Some? && |h.launches| == 1)
            && (state.SawStarted? ==> |h.launches| == 1)
  {
    HostRunInv(steps);
    var h := HostRun(FRESH_HOST, steps);
    assert PointOk(h, h.calls[call]);
  }

  // ---------------------------------------------------------------- a script that nothing interrupts

  /** The next `n` commands of one script. */
  function Onward(h: Host, call: nat, ready: bool, pid: nat, n: nat): Host
    decreases n
  {
    if n == 0 || call !in h.calls then h else Onward(Advanced(h, call, ready, pid), call, ready, pid, n - 1)
  }

  function At(h: Host, call: nat, p: Point): Host {
    h.(calls := h.calls[call := p])
  }

  predicate OnlyReads(p: Point) {
    !p.TakeLock? && !LaunchPending(p) && !p.WritePid? && !p.WriteIdentity?
  }

  lemma OneRead(h: Host, call: nat, ready: bool, pid: nat, p: Point)
    requires OnlyReads(p)
    ensures Advanced(At(h, call, p), call, ready, pid) == At(h, call, ReadingPoint(h, p))
  {
    assert ReadingPoint(At(h, call, p), p) == ReadingPoint(h, p);
    assert At(At(h, call, p), call, ReadingPoint(h, p)) == At(h, call, ReadingPoint(h, p));
  }

  /** Where `n` reads lead from a point. */
  function Reading(h: Host, p: Point, n: nat): Point
    decreases n
  {
    if n == 0 || !OnlyReads(p) then p else Reading(h, ReadingPoint(h, p), n - 1)
  }

  lemma {:induction false} OnwardReads(h: Host, call: nat, ready: bool, pid: nat, p: Point, m: nat, n: nat)
    requires m > 0 ==> OnlyReads(Reading(h, p, m - 1))
    ensures Onward(At(h, call, p), call, ready, pid, m + n) == Onward(At(h, call, Reading(h, p, m)), call, ready, pid, n)
    decreases m
  {
    if m > 0 {
      assert OnlyReads(p);
      OneRead(h, call, ready, pid, p);
      OnwardReads(h, call, ready, pid, ReadingPoint(h, p), m - 1, n);
    }
  }

  /** The record of a launch that can be read back. */
  predicate Legible(h: Host) {
    h.identity.Some? && h.identity.value.ticks.Some?
  }

  /** The process with the recorded id has the recorded start time and group. */
  predicate LeaderFound(h: Host) {
    && h.identity.Some? && h.identity.value.pid in h.procs
    && h.identity.value.ticks == Some(h.procs[h.identity.value.pid].ticks)
    && h.identity.value.pgid == h.procs[h.identity.value.pid].pgid
  }

  /** What a script says of an attempt that has left a record. */
  predicate Tells(h: Host, state: RemoteState) {
    if !Legible(h) then state.SawInvalid?
    else if h.identity.value.boot != h.boot then state.SawExited?
    else if LeaderFound(h) then state.SawRunning?
    else if h.identity.value.pid in h.procs then state.SawInvalid?
    else if GroupLive(h, h.identity.value.pgid) then state.SawGroup?
    else state.SawExited?
  }

  lemma RecordIsRead(h: Host, n: nat)
    requires n >= 4
    ensures Reading(h, LoadIdentity, n).Done? && Tells(h, Reading(h, LoadIdentity, n).state)
  {
    var p1 := ReadingPoint(h, LoadIdentity);
    var p2 := ReadingPoint(h, p1);
    var p3 := ReadingPoint(h, p2);
    assert Reading(h, LoadIdentity, n) == Reading(h, p1, n - 1);
    assert Reading(h, p1, n - 1) == Reading(h, p2, n - 2);
    assert Reading(h, p2, n - 2) == Reading(h, p3, n - 3);
    assert Reading(h, p3, n - 3) == Reading(h, ReadingPoint(h, p3), n - 4);
    AnswerStays(h, ReadingPoint(h, p3), n - 4);
  }

  lemma {:induction false} AnswerStays(h: Host, p: Point, n: nat)
    requires p.Done?
    ensures Reading(h, p, n) == p
    decreases n
  {
    if n > 0 { AnswerStays(h, p, n - 1); }
  }

  /** The answer of a probe that nothing interrupts follows from what the server holds, and it writes nothing. */
  lemma ProbeAnswers(h: Host, call: nat, ready: bool, pid: nat) returns (state: RemoteState)
    requires call !in h.calls
    ensures Onward(HostNext(h, Begin(call, false)), call, ready, pid, 7) == At(h, call, Done(state))
    ensures if h.result.Some? then state.SawResult?
            else if h.identity.Some? || h.pidFile then Tells(h, state)
            else if h.lock then state.SawInvalid?
            else state.SawMissing?
  {
    var p := CheckResult(false);
    if h.result.Some? {
      assert Reading(h, p, 7) == Reading(h, Done(SawResult), 6);
      AnswerStays(h, Done(SawResult), 6);
    } else {
      assert Reading(h, p, 7) == Reading(h, CheckIdentity(false), 6);
      if h.identity.Some? {
        assert Reading(h, CheckIdentity(false), 6) == Reading(h, LoadIdentity, 5);
        RecordIsRead(h, 5);
      } else {
        assert Reading(h, CheckIdentity(false), 6) == Reading(h, CheckPid(false), 5);
        if h.pidFile {
          assert Reading(h, CheckPid(false), 5) == Reading(h, LoadIdentity, 4);
          RecordIsRead(h, 4);
        } else {
          assert Reading(h, CheckPid(false), 5) == Reading(h, CheckLock, 4);
          AnswerStays(h, ReadingPoint(h, CheckLock), 3);
        }
      }
    }
    state := Reading(h, p, 7).state;
    ReadToTheEnd(h, call, ready, pid, p, 7);
  }

  /** A script that reads to its answer changes nothing on the server. */
  lemma ReadToTheEnd(h: Host, call: nat, ready: bool, pid: nat, p: Point, n: nat)
    requires n > 0 && Reading(h, p, n).Done?
    ensures Onward(At(h, call, p), call, ready, pid, n) == At(h, call, Reading(h, p, n))
  {
    OnlyReadsBefore(h, p, n);
    OnwardReads(h, call, ready, pid, p, n, 0);
  }

  lemma {:induction false} OnlyReadsBefore(h: Host, p: Point, n: nat)
    requires n > 0 && OnlyReads(Reading(h, p, n))
    ensures OnlyReads(Reading(h, p, n - 1))
    decreases n
  {
    if n > 1 && OnlyReads(p) { OnlyReadsBefore(h, ReadingPoint(h, p), n - 1); }
  }

  /** A start call that finds a result or a record only reports, as a probe would. */
  lemma LaterStartsOnlyReport(h: Host, call: nat, ready: bool, pid: nat) returns (state: RemoteState)
    requires call !in h.calls && (h.result.Some? || h.identity.Some? || h.pidFile)
    ensures Onward(HostNext(h, Begin(call, true)), call, ready, pid, 7) == At(h, call, Done(state))
    ensures if h.result.Some? then state.SawResult? else Tells(h, state)
  {
    var p := CheckResult(true);
    if h.result.Some? {
      assert Reading(h, p, 7) == Reading(h, Done(SawResult), 6);
      AnswerStays(h, Done(SawResult), 6);
    } else {
      assert Reading(h, p, 7) == Reading(h, CheckIdentity(true), 6);
      if h.identity.Some? {
        assert Reading(h, CheckIdentity(true), 6) == Reading(h, LoadIdentity, 5);
        RecordIsRead(h, 5);
      } else {
        assert Reading(h, CheckIdentity(true), 6) == Reading(h, CheckPid(true), 5);
        assert Reading(h, CheckPid(true), 5) == Reading(h, LoadIdentity, 4);
        RecordIsRead(h, 4);
      }
    }
    state := Reading(h, p, 7).state;
    ReadToTheEnd(h, call, ready, pid, p, 7);
  }

  /** A start call that finds neither takes the lock, and only then launches the attempt as the leader of its own
      group, records it, and says so. With the lock taken or preparations missing it launches nothing. */
  lemma FirstStartLaunches(h: Host, call: nat, ready: bool, pid: nat)
    requires call !in h.calls && h.result.None? && h.identity.None? && !h.pidFile && FreshPid(h, pid)
    ensures var g := Onward(HostNext(h, Begin(call, true)), call, ready, pid, 9);
            if h.lock || !ready then g == At(h.(lock := true), call, Done(SawInvalid))
            else && g.calls == h.calls[call := Done(SawStarted)] && g.lock && g.pidFile && g.result.None? && g.boot == h.boot
                 && g.launches == h.launches + [Launch(pid, h.boot, h.clock)]
                 && g.identity == Some(Identity(pid, pid, h.boot, Some(h.clock)))
                 && g.procs == h.procs[pid := Proc(pid, h.clock, false, true)]
  {
    assert Reading(h, CheckResult(true), 3) == TakeLock by {
      assert Reading(h, CheckResult(true), 3) == Reading(h, CheckIdentity(true), 2);
      assert Reading(h, CheckIdentity(true), 2) == Reading(h, CheckPid(true), 1);
      assert Reading(h, CheckPid(true), 1) == Reading(h, TakeLock, 0);
    }
    assert OnlyReads(Reading(h, CheckResult(true), 2)) by {
      assert Reading(h, CheckResult(true), 2) == Reading(h, CheckIdentity(true), 1);
      assert Reading(h, CheckIdentity(true), 1) == Reading(h, CheckPid(true), 0);
    }
    OnwardReads(h, call, ready, pid, CheckResult(true), 3, 6);
    AtTheLock(h, call, ready, pid);
    if !h.lock && ready { LockHolderLaunches(h.(lock := true), call, pid); }
  }

  lemma AtTheLock(h: Host, call: nat, ready: bool, pid: nat)
    ensures var g := Onward(At(h, call, TakeLock), call, ready, pid, 6);
            if h.lock || !ready then g == At(h.(lock := true), call, Done(SawInvalid))
            else g == Onward(At(h.(lock := true), call, Preflight), call, true, pid, 5)
  {
    var locked := h.(lock := true);
    if h.lock {
      assert Advanced(At(h, call, TakeLock), call, ready, pid) == At(locked, call, Done(SawInvalid));
      AnswerStays(locked, Done(SawInvalid), 5);
      ReadToTheEnd(locked, call, ready, pid, Done(SawInvalid), 5);
    } else {
      assert Advanced(At(h, call, TakeLock), call, ready, pid) == At(locked, call, Preflight);
      if !ready {
        assert Advanced(At(locked, call, Preflight), call, ready, pid) == At(locked, call, Done(SawInvalid));
        AnswerStays(locked, Done(SawInvalid), 4);
        ReadToTheEnd(locked, call, ready, pid, Done(SawInvalid), 4);
      }
    }
  }

  lemma LockHolderLaunches(h: Host, call: nat, pid: nat)
    requires FreshPid(h, pid)
    ensures var g := Onward(At(h, call, Preflight), call, true, pid, 5);
            g == h.(pidFile := true, identity := Some(Identity(pid, pid, h.boot, Some(h.clock))), clock := h.clock + 1,
                    procs := h.procs[pid := Proc(pid, h.clock, false, true)],
                    launches := h.launches + [Launch(pid, h.boot, h.clock)], calls := h.calls[call := Done(SawStarted)])
  {
    var started := h.(clock := h.clock + 1, procs := h.procs[pid := Proc(pid, h.clock, false, true)],
                      launches := h.launches + [Launch(pid, h.boot, h.clock)]);
    assert Advanced(At(h, call, Preflight), call, true, pid) == At(h, call, Launching);
    assert Advanced(At(h, call, Launching), call, true, pid) == At(started, call, ReadStart(pid));
    LaunchIsRecorded(started, call, pid);
  }

  lemma LaunchIsRecorded(h: Host, call: nat, pid: nat)
    requires pid in h.procs
    ensures var g := Onward(At(h, call, ReadStart(pid)), call, true, pid, 3);
            g == h.(pidFile := true, identity := Some(Identity(pid, pid, h.boot, Some(h.procs[pid].ticks))),
                    calls := h.calls[call := Done(SawStarted)])
  {
    var id := Identity(pid, pid, h.boot, Some(h.procs[pid].ticks));
    OneRead(h, call, true, pid, ReadStart(pid));
    var written := h.(pidFile := true);
    assert Advanced(At(h, call, WritePid(id)), call, true, pid) == At(written, call, WriteIdentity(id));
    assert Advanced(At(written, call, WriteIdentity(id)), call, true, pid) == At(written.(identity := Some(id)), call, Done(SawStarted));
  }
}
