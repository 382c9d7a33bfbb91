/** The adaptive concurrency limit of one image API bucket. */
module ImageQueue {
  import opened Tables

  datatype Mode = Fixed | Adaptive

  datatype Settings = Settings(initial: nat, maximum: nat, mode: Mode, cleanWindow: nat)

  /** A fixed queue starts at its only limit. */
  predicate ValidSettings(s: Settings) {
    0 < s.initial <= s.maximum && (s.mode.Fixed? ==> s.initial == s.maximum)
  }

  /** The stored row, with the requests that this process has in flight. */
  datatype Bucket = Bucket(limit: nat, maximum: nat, clean: nat, cooldown: Time, inFlight: nat)

  predicate ValidBucket(b: Bucket) {
    1 <= b.limit <= b.maximum && b.inFlight <= b.maximum
  }

  /** What a queue starts from: the row that an earlier queue left, or a new one. The gate is shared by all
      queues of the process. */
  function Opened(s: Settings, stored: Option<Bucket>): Bucket {
    if stored.Some? then stored.value else Bucket(s.initial, s.maximum, 0, 0.0, 0)
  }

  datatype Outcome = Success | Busy429(retryAfter: Option<Time>) | Down503(retryAfter: Option<Time>) | OtherFailure

  function Backoff(attempt: int): Time {
    if attempt <= 0 then 5.0 else if attempt == 1 then 15.0 else 45.0
  }

  /** The pause the server asked for, or the table's; a 503 also ignores a pause of zero. */
  function Pause(o: Outcome, attempt: int): Time
    requires o.Busy429? || o.Down503?
  {
    if o.retryAfter.Some? && (o.Busy429? || o.retryAfter.value != 0.0) then o.retryAfter.value else Backoff(attempt)
  }

  predicate Admits(b: Bucket, now: Time) {
    now >= b.cooldown && b.inFlight < b.limit
  }

  function Later(a: Time, b: Time): Time {
    if a >= b then a else b
  }

  function Halved(limit: nat): nat {
    if limit / 2 > 1 then limit / 2 else 1
  }

  function Adjusted(s: Settings, b: Bucket, now: Time, o: Outcome, attempt: int, jitter: Time): Bucket {
    match o
    case Busy429(_) => b.(limit := Halved(b.limit), clean := 0, cooldown := Later(b.cooldown, now + Pause(o, attempt) + jitter))
    case Down503(_) => b.(clean := 0, cooldown := Later(b.cooldown, now + Pause(o, attempt) + jitter))
    case Success =>
      if s.mode.Fixed? then b.(clean := 0)
      else if b.clean + 1 >= s.cleanWindow && b.limit < b.maximum then b.(limit := b.limit + 1, clean := 0)
      else b.(clean := b.clean + 1)
    case OtherFailure => b.(clean := 0)
  }

  function Finished(b: Bucket): Bucket {
    b.(inFlight := if b.inFlight > 0 then b.inFlight - 1 else 0)
  }

  /** One process's queue: the bucket row, which release updates in a transaction, and the local gate that
      counts the requests in flight. Each call is one step here. */
  class AdaptiveImageQueue {
    const settings: Settings
    const maximum: nat
    var limit: nat
    var clean: nat
    var cooldown: Time
    var inFlight: nat

    function State(): Bucket
      reads this
    {
      Bucket(limit, maximum, clean, cooldown, inFlight)
    }

    /** An existing row is kept as it is, with its own limits, whatever limits are asked for. */
    constructor (s: Settings, stored: Option<Bucket>)
      requires ValidSettings(s)
      ensures settings == s && State() == Opened(s, stored)
      ensures stored.None? || ValidBucket(stored.value) ==> ValidBucket(State())
    {
      settings := s;
      var b := Opened(s, stored);
      maximum, limit, clean, cooldown, inFlight := b.maximum, b.limit, b.clean, b.cooldown, b.inFlight;
    }

    /** One look of acquire's loop at the gate. */
    method TryAcquire(now: Time) returns (ok: bool)
      modifies this
      ensures ok <==> old(cooldown) <= now && old(inFlight) < old(limit)
      ensures State() == if ok then old(State()).(inFlight := old(inFlight) + 1) else old(State())
      ensures State() == Next(settings, old(State()), Acquire(now))
    {
      ok := now >= cooldown && inFlight < limit;
      if ok { inFlight := inFlight + 1; }
    }

    method Release(now: Time, o: Outcome, attempt: int, jitter: Time)
      modifies this
      ensures State() == Finished(Adjusted(settings, old(State()), now, o, attempt, jitter))
    {
      match o {
        case Busy429(_) =>
          limit := if limit / 2 > 1 then limit / 2 else 1;
          clean := 0;
          cooldown := Later(cooldown, now + Pause(o, attempt) + jitter);
        case Down503(_) =>
          clean := 0;
          cooldown := Later(cooldown, now + Pause(o, attempt) + jitter);
        case Success =>
          if settings.mode.Adaptive? {
            clean := clean + 1;
            if clean >= settings.cleanWindow && limit < maximum {
              limit := limit + 1;
              clean := 0;
            }
          } else {
            clean := 0;
          }
        case OtherFailure =>
          clean := 0;
      }
      if inFlight > 0 { inFlight := inFlight - 1; }
    }
  }

  // ---------------------------------------------------------------- one event

  const PAUSES := [5.0, 15.0, 45.0]

  /** The pause of the n-th try when the server names none; the last one repeats. */
  function TablePause(attempt: int): Time {
    PAUSES[if attempt < 0 then 0 else if attempt > 2 then 2 else attempt]
  }

  predicate LaterOf(x: Time, a: Time, b: Time) {
    x >= a && x >= b && (x == a || x == b)
  }

  /** A 429 halves the limit, rounding down but never below one, and pauses as long as the server asked, or else by
      the table; a 503 pauses too, for which zero is no answer; only successes of an adaptive queue are counted, and
      a full window of them raises the limit by one below the maximum. Every end frees a place. */
  lemma ReleaseMeans(s: Settings, b: Bucket, now: Time, o: Outcome, attempt: int, jitter: Time)
    requires b.limit >= 1
    ensures var r := Next(s, b, Release(now, o, attempt, jitter));
            && r.maximum == b.maximum && r.inFlight == (if b.inFlight == 0 then 0 else b.inFlight - 1)
            && (o.Busy429? ==> r.limit == if b.limit == 1 then 1 else b.limit / 2)
            && (o.Busy429? && b.limit > 1 ==> 2 * r.limit == b.limit || 2 * r.limit + 1 == b.limit)
            && (o.Busy429? || o.Down503? ==>
                  && r.clean == 0
                  && var base := if o.retryAfter.Some? && !(o.Down503? && o.retryAfter.value == 0.0) then o.retryAfter.value else TablePause(attempt);
                     LaterOf(r.cooldown, b.cooldown, now + base + jitter))
            && (!o.Busy429? && !o.Down503? ==> r.cooldown == b.cooldown)
            && (o.Down503? || o.OtherFailure? || (o.Success? && s.mode.Fixed?) ==> r.limit == b.limit && r.clean == 0)
            && (o.Success? && s.mode.Adaptive? ==>
                  if b.clean + 1 < s.cleanWindow || b.limit >= b.maximum then r.limit == b.limit && r.clean == b.clean + 1
                  else r.limit == b.limit + 1 && r.clean == 0)
  {
  }

  // ---------------------------------------------------------------- traces

  datatype Event = Acquire(now: Time) | Release(now: Time, outcome: Outcome, attempt: int, jitter: Time)

  function Next(s: Settings, b: Bucket, e: Event): Bucket {
    match e
    case Acquire(now) => if Admits(b, now) then b.(inFlight := b.inFlight + 1) else b
    case Release(now, o, attempt, jitter) => Finished(Adjusted(s, b, now, o, attempt, jitter))
  }

  function After(s: Settings, start: Bucket, trace: seq<Event>): Bucket
    decreases |trace|
  {
    if trace == [] then start else Next(s, After(s, start, trace[..|trace| - 1]), trace[|trace| - 1])
  }

  predicate Admitted(s: Settings, start: Bucket, trace: seq<Event>, i: nat)
    requires i < |trace|
  {
    trace[i].Acquire? && Admits(After(s, start, trace[..i]), trace[i].now)
  }

  function Acquires(s: Settings, start: Bucket, trace: seq<Event>): nat
    decreases |trace|
  {
    if trace == [] then 0
    else Acquires(s, start, trace[..|trace| - 1]) + (if Admitted(s, start, trace, |trace| - 1) then 1 else 0)
  }

  function Releases(trace: seq<Event>): nat {
    if trace == [] then 0 else Releases(trace[..|trace| - 1]) + (if trace[|trace| - 1].Release? then 1 else 0)
  }

  function Successes(trace: seq<Event>): nat {
    if trace == [] then 0
    else Successes(trace[..|trace| - 1]) + (if trace[|trace| - 1].Release? && trace[|trace| - 1].outcome.Success? then 1 else 0)
  }

  /** Every release gives back a place that was acquired before. */
  predicate Matched(s: Settings, start: Bucket, trace: seq<Event>) {
    forall i :: 0 <= i <= |trace| ==> Releases(trace[..i]) <= start.inFlight + Acquires(s, start, trace[..i])
  }

  lemma HalvedBounds(limit: nat)
    requires limit > 0
    ensures 1 <= Halved(limit) <= limit
  {
  }

  /** Growth is paid for: a limit raised by one takes a whole window of successes. */
  predicate PaidFor(s: Settings, start: Bucket, b: Bucket, successes: nat) {
    s.cleanWindow * b.limit + b.clean <= s.cleanWindow * start.limit + start.clean + successes
  }

  lemma AdjustedPaidFor(s: Settings, start: Bucket, b: Bucket, now: Time, o: Outcome, attempt: int, jitter: Time, successes: nat)
    requires b.limit > 0 && PaidFor(s, start, b, successes)
    ensures PaidFor(s, start, Adjusted(s, b, now, o, attempt, jitter), successes + (if o.Success? then 1 else 0))
  {
    HalvedBounds(b.limit);
    if o.Busy429? {
      assert s.cleanWindow * Halved(b.limit) <= s.cleanWindow * b.limit;
    } else if o.Success? && s.mode.Adaptive? && b.clean + 1 >= s.cleanWindow && b.limit < b.maximum {
      assert s.cleanWindow * (b.limit + 1) == s.cleanWindow * b.limit + s.cleanWindow;
    }
  }

  /** Over any matched trace from any sound bucket: 1 <= limit <= maximum, which never changes; in_flight grows
      by acquires minus releases and never exceeds the maximum; growth is paid for by successes; and a fixed
      queue never raises the limit it found. */
  lemma {:induction false} TraceBounds(s: Settings, start: Bucket, trace: seq<Event>)
    requires ValidBucket(start) && Matched(s, start, trace)
    ensures var b := After(s, start, trace);
            && 1 <= b.limit <= b.maximum == start.maximum
            && b.inFlight == start.inFlight + Acquires(s, start, trace) - Releases(trace) && b.inFlight <= b.maximum
            && PaidFor(s, start, b, Successes(trace))
            && (s.mode.Fixed? ==> b.limit <= start.limit && b.clean <= start.clean)
    decreases |trace|
  {
    if trace != [] {
      var n := |trace| - 1;
      forall i | 0 <= i <= n ensures Releases(trace[..n][..i]) <= start.inFlight + Acquires(s, start, trace[..n][..i]) {
        assert trace[..n][..i] == trace[..i];
      }
      TraceBounds(s, start, trace[..n]);
      var b := After(s, start, trace[..n]);
      HalvedBounds(b.limit);
      assert trace[..n + 1] == trace;
      if trace[n].Release? {
        AdjustedPaidFor(s, start, b, trace[n].now, trace[n].outcome, trace[n].attempt, trace[n].jitter, Successes(trace[..n]));
      }
    }
  }

  /** In fixed mode no event ever raises the limit; in any mode the cooldown never moves back. */
  lemma {:induction false} Monotone(s: Settings, start: Bucket, trace: seq<Event>, i: nat)
    requires start.limit >= 1 && i <= |trace|
    ensures After(s, start, trace).cooldown >= After(s, start, trace[..i]).cooldown
    ensures s.mode.Fixed? ==> After(s, start, trace).limit <= After(s, start, trace[..i]).limit
    decreases |trace|
  {
    if i < |trace| {
      var n := |trace| - 1;
      Monotone(s, start, trace[..n], i);
      assert trace[..n][..i] == trace[..i];
      PositiveLimit(s, start, trace[..n]);
      HalvedBounds(After(s, start, trace[..n]).limit);
    } else {
      assert trace[..i] == trace;
    }
  }

  /** A fixed queue keeps to the limit it was asked for exactly if the row it found does. */
  lemma FixedLimitExactlyIf(s: Settings, start: Bucket)
    requires s.mode.Fixed? && start.limit >= 1
    ensures (forall trace: seq<Event> :: After(s, start, trace).limit <= s.initial) <==> start.limit <= s.initial
  {
    if start.limit <= s.initial {
      forall trace: seq<Event> ensures After(s, start, trace).limit <= s.initial {
        Monotone(s, start, trace, 0);
      }
    } else {
      assert After(s, start, []).limit > s.initial;
    }
  }

  lemma {:induction false} PositiveLimit(s: Settings, start: Bucket, trace: seq<Event>)
    requires start.limit >= 1
    ensures After(s, start, trace).limit >= 1
    decreases |trace|
  {
    if trace != [] {
      PositiveLimit(s, start, trace[..|trace| - 1]);
      HalvedBounds(After(s, start, trace[..|trace| - 1]).limit);
    }
  }

  /** After a 429 or 503 nothing is admitted before the announced pause is over, whatever happens between. */
  lemma NoAdmissionDuringPause(s: Settings, start: Bucket, trace: seq<Event>, i: nat, j: nat)
    requires start.limit >= 1 && i < j < |trace|
    requires trace[i].Release? && (trace[i].outcome.Busy429? || trace[i].outcome.Down503?)
    requires Admitted(s, start, trace, j)
    ensures trace[j].now >= trace[i].now + Pause(trace[i].outcome, trace[i].attempt) + trace[i].jitter
  {
    Monotone(s, start, trace[..j], i + 1);
    assert trace[..j][..i + 1] == trace[..i + 1];
    assert trace[..i + 1][..i] == trace[..i];
  }
}
