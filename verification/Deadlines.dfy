/** Deadlines: the `TimeOut` helper, the target's extension of its cutoff, the source's heartbeat and the
polling of a migration. Time is real-valued seconds. */
module Deadlines {
  class Clock {
    var now: real

    constructor (now: real)
      ensures this.now == now
    {
      this.now := now;
    }

    method Pass(seconds: real)
      modifies this
      ensures now == old(now) + seconds
    {
      now := now + seconds;
    }
  }

  /** Python's `int` of a float: truncation toward zero. */
  function Trunc(x: real): int {
    if x >= 0.0 then x.Floor else -((-x).Floor)
  }

  /** A deadline counts as passed up to one second early. */
  lemma ExpiresBelowOneSecond(x: real)
    ensures Trunc(x) <= 0 <==> x < 1.0
  {
    if x < 0.0 {
      assert (-x).Floor >= 0;
    }
  }

  function Max(a: real, b: real): real {
    if a >= b then a else b
  }

  class TimeOut {
    const clock: Clock
    var cutoff: real
    var interval: real
    var timedOut: bool
    var first: bool

    constructor (clock: Clock, timeout: real, interval: real)
      ensures this.clock == clock && cutoff == clock.now + timeout && this.interval == interval && first && !timedOut
    {
      this.clock := clock;
      cutoff := clock.now + timeout;
      this.interval := interval;
      timedOut, first := false, true;
    }

    function Remaining(): int
      reads this, clock
    {
      Trunc(cutoff - clock.now)
    }

    /** `tick`: goes on with at least a second left, after sleeping unless it is the first time. `false`
    stands for the exception as well. */
    method Tick() returns (goOn: bool)
      modifies this`timedOut, this`first, clock
      ensures goOn <==> old(cutoff - clock.now) >= 1.0
      ensures timedOut == !goOn
      ensures clock.now == old(clock.now) + if goOn && !old(first) then interval else 0.0
      ensures first == (old(first) && !goOn)
    {
      var remaining := Remaining();
      ExpiresBelowOneSecond(cutoff - clock.now);
      timedOut := remaining <= 0;
      if timedOut { return false; }
      if first {
        first := false;
      } else {
        clock.Pass(interval);
      }
      goOn := true;
    }
  }

  datatype Extension = Hard(seconds: real) | Soft(seconds: real)

  /** The cutoff a soft extension leaves. */
  function SoftlyExtended(cutoff: real, now: real, soft: real): real {
    if (Trunc(cutoff - now) as real) < soft then now + soft else cutoff
  }

  /** A soft extension is meant to move the cutoff to the later of the old one and now plus the time asked
  for. It does unless the time asked for lies between the truncated and the true remaining time. */
  lemma SoftExtensionExactly(cutoff: real, now: real, soft: real)
    requires soft > 0.0
    ensures SoftlyExtended(cutoff, now, soft) == Max(cutoff, now + soft)
       <==> !((Trunc(cutoff - now) as real) < soft < cutoff - now)
  {
    var left := cutoff - now;
    if left >= 0.0 {
      assert (left.Floor as real) <= left;
    } else {
      assert Trunc(left) <= 0;
    }
  }

  /** For whole seconds, truncation does no harm. */
  lemma WholeSoftExtensionIsMax(cutoff: real, now: real, soft: int)
    requires soft > 0
    ensures SoftlyExtended(cutoff, now, soft as real) == Max(cutoff, now + soft as real)
  {
    var left := cutoff - now;
    if left >= 0.0 && left.Floor < soft {
      assert left < (left.Floor + 1) as real;
    }
    SoftExtensionExactly(cutoff, now, soft as real);
  }

  /** `extend_cutoff_time` of the target's server. */
  method ExtendCutoffTime(t: TimeOut, e: Extension)
    requires e.seconds > 0.0
    modifies t`cutoff
    ensures e.Hard? ==> t.cutoff == t.clock.now + e.seconds
    ensures e.Soft? && e.seconds == (e.seconds.Floor as real) ==> t.cutoff == Max(old(t.cutoff), t.clock.now + e.seconds)
    ensures e.Soft? ==> t.cutoff == SoftlyExtended(old(t.cutoff), t.clock.now, e.seconds)
  {
    match e
    case Hard(seconds) =>
      t.cutoff := t.clock.now + seconds;
    case Soft(seconds) =>
      if seconds == (seconds.Floor as real) {
        WholeSoftExtensionIsMax(t.cutoff, t.clock.now, seconds.Floor);
      }
      if (t.Remaining() as real) < seconds {
        t.cutoff := t.clock.now + seconds;
      }
  }

  // ------------------------------------------------------------------------------- the heartbeat

  const PING_TIMEOUT: real := 60.0
  const PING_FREQUENCY: real := PING_TIMEOUT / 6.0
  const PING_RETRY_FREQUENCY: real := PING_FREQUENCY / 2.0
  const PING_RETRY_ATTEMPTS: int := Trunc(PING_TIMEOUT / PING_RETRY_FREQUENCY)

  /** One ping call, from its start to its end. */
  datatype Ping = Ping(start: real, end: real, ok: bool)

  /** Pings follow each other after 10 s if they succeed and after 5 s if not. */
  predicate Schedule(log: seq<Ping>) {
    && (forall i :: 0 <= i < |log| ==> log[i].start <= log[i].end)
    && forall i :: 0 <= i < |log| - 1 ==>
                     log[i + 1].start == log[i].end + if log[i].ok then PING_FREQUENCY else PING_RETRY_FREQUENCY
  }

  predicate AllFailed(log: seq<Ping>, from: nat, to: nat) {
    forall i :: from <= i < to && i < |log| ==> !log[i].ok
  }

  /** Twelve pings in a row have failed. */
  predicate TwelveFailed(log: seq<Ping>, k: nat) {
    k + 12 <= |log| && AllFailed(log, k, k + 12)
  }

  lemma TwelveInPrefix(a: seq<Ping>, b: seq<Ping>, k: nat)
    requires |a| <= |b| && b[..|a|] == a && k + 12 <= |a|
    requires TwelveFailed(b, k)
    ensures TwelveFailed(a, k)
  {
    assert forall i :: 0 <= i < |a| ==> b[i] == b[..|a|][i];
  }

  /** Twelve failures in a row come from one round, as every answered one ends with a success. */
  lemma TwelveInOneRound(a: seq<Ping>, b: seq<Ping>, from: nat, k: nat)
    requires |a| <= |b| <= |a| + 12 && b[..|a|] == a && from <= |a|
    requires |a| > from ==> a[|a| - 1].ok
    requires forall j :: from <= j ==> !TwelveFailed(a, j)
    requires from <= k && TwelveFailed(b, k)
    ensures k == |a| && |b| == |a| + 12 && !b[|b| - 1].ok
  {
    assert |a| > from ==> b[|a| - 1] == a[|a| - 1];
    if k + 12 <= |a| {
      TwelveInPrefix(a, b, k);
    }
  }

  function CallTime(log: seq<Ping>, from: nat, to: nat): real
    requires from <= to <= |log|
  {
    if from == to then 0.0 else CallTime(log, from, to - 1) + (log[to - 1].end - log[to - 1].start)
  }

  class Heartbeat {
    const clock: Clock
    var running: bool
    var failed: bool
    ghost var log: seq<Ping>

    constructor (clock: Clock)
      ensures this.clock == clock && running && !failed && log == []
    {
      this.clock := clock;
      running, failed := true, false;
      log := [];
    }

    /** When the next ping starts, once the thread has slept. */
    ghost predicate Due()
      reads this, clock
    {
      && Schedule(log)
      && (log != [] ==>
            clock.now == log[|log| - 1].end + if log[|log| - 1].ok then PING_FREQUENCY else PING_RETRY_FREQUENCY)
    }

    method PingOnce() returns (ok: bool)
      requires Due()
      modifies this`log, clock
      ensures log == old(log) + [Ping(old(clock.now), clock.now, ok)] && old(clock.now) <= clock.now
    {
      ghost var start := clock.now;
      var takes: real := *;
      clock.Pass(if takes >= 0.0 then takes else 0.0);
      ok := *;
      log := log + [Ping(start, clock.now, ok)];
    }

    /** A ping, and if it fails, the sleep after it. */
    method Attempt() returns (ok: bool)
      requires Due()
      modifies this`log, clock
      ensures |log| == |old(log)| + 1 && log[..|old(log)|] == old(log)
      ensures log[|old(log)|].ok == ok && log[|old(log)|].start == old(clock.now)
      ensures if ok then Schedule(log) && clock.now == log[|old(log)|].end else Due() && clock.now >= old(clock.now) + 5.0
    {
      assert PING_RETRY_FREQUENCY == 5.0;
      ok := PingOnce();
      if !ok { clock.Pass(PING_RETRY_FREQUENCY); }
    }

    /** One turn of `run`: up to twelve attempts, each failure followed by a sleep. It is answered at the first
    that succeeds. */
    method PingRound() returns (answered: bool)
      requires Due()
      modifies this`log, clock
      ensures |log| > |old(log)| && log[..|old(log)|] == old(log)
      ensures answered ==> Schedule(log) && log[|log| - 1].ok && clock.now == log[|log| - 1].end
      ensures answered ==> |log| <= |old(log)| + 12 && AllFailed(log, |old(log)|, |log| - 1)
      ensures !answered ==>
                && Due() && |log| == |old(log)| + 12 && AllFailed(log, |old(log)|, |log|)
                && clock.now >= log[|old(log)|].start + 60.0
    {
      hide Schedule;
      assert PING_RETRY_FREQUENCY == 5.0 && PING_RETRY_ATTEMPTS == 12;
      var attempt := 1;
      while attempt < PING_RETRY_ATTEMPTS + 1
        invariant 1 <= attempt <= 13 && Due()
        invariant |log| == |old(log)| + attempt - 1 && log[..|old(log)|] == old(log)
        invariant AllFailed(log, |old(log)|, |log|)
        invariant attempt == 1 ==> clock.now == old(clock.now)
        invariant attempt > 1 ==>
            log[|old(log)|].start == old(clock.now) && clock.now >= old(clock.now) + 5.0 * (attempt - 1) as real
      {
        answered := Attempt();
        if answered { return; }
        attempt := attempt + 1;
      }
      answered := false;
    }

    /** `run`, for at most `rounds` turns: it declares failure exactly when twelve of its pings in a row have
    failed, at once, and the first of them started at least 60 s before. It goes on pinging until then, unless
    it is stopped. */
    method Run(rounds: nat)
      requires !failed && Due()
      modifies this, clock
      ensures Due() && |log| >= |old(log)| && log[..|old(log)|] == old(log)
      ensures failed ==>
                && |log| >= |old(log)| + 12 && AllFailed(log, |log| - 12, |log|)
                && clock.now >= log[|log| - 12].start + 60.0
      ensures forall k :: |old(log)| <= k && TwelveFailed(log, k) ==> failed && k == |log| - 12
      ensures failed || !running || |log| >= |old(log)| + rounds
    {
      var round := 0;
      while running && round < rounds
        invariant !failed && Due() && |log| >= |old(log)| && log[..|old(log)|] == old(log)
        invariant |log| > |old(log)| ==> log[|log| - 1].ok
        invariant forall k :: |old(log)| <= k ==> !TwelveFailed(log, k)
        invariant round <= rounds && |log| >= |old(log)| + round
        decreases rounds - round
      {
        round := round + 1;
        ghost var before := log;
        var answered := PingRound();
        forall k | |old(log)| <= k && TwelveFailed(log, k) ensures !answered && k == |before| {
          TwelveInOneRound(before, log, |old(log)|, k);
        }
        if !answered {
          failed := true;
          return;
        }
        clock.Pass(PING_FREQUENCY);
        running := *;
      }
    }
  }

  /** After a successful ping and `k` failed ones, the next starts after 10 s, 5 s per failure, and the
  time the failed calls took. */
  lemma {:induction false} GapAfterFailures(log: seq<Ping>, i: nat, k: nat)
    requires Schedule(log) && i + k + 1 < |log| && log[i].ok && AllFailed(log, i + 1, i + k + 1)
    ensures log[i + k + 1].start == log[i].end + 10.0 + 5.0 * k as real + CallTime(log, i + 1, i + k + 1)
  {
    if k > 0 {
      GapAfterFailures(log, i, k - 1);
      assert !log[i + k].ok;
    }
  }

  lemma CallTimeIsPositive(log: seq<Ping>, from: nat, to: nat)
    requires Schedule(log) && from <= to <= |log|
    ensures CallTime(log, from, to) >= 0.0
  {
    if from < to {
      CallTimeIsPositive(log, from, to - 1);
    }
  }

  /** The target serves one ping at `u` and the next it gets at `v`, each within its call, with `k` failed
  ones between them. */
  predicate ServedAround(log: seq<Ping>, i: nat, k: nat, u: real, v: real) {
    && Schedule(log) && i + k + 1 < |log| && log[i].ok && AllFailed(log, i + 1, i + k + 1)
    && log[i].start <= u <= log[i].end && log[i + k + 1].start <= v <= log[i + k + 1].end
  }

  /** With all these calls together under 4 s, up to nine failures in a row leave the 60 s deadline that
  the first ping set alone, at any moment until the second is served. */
  lemma NineFailuresDoNotExpire(log: seq<Ping>, i: nat, k: nat, u: real, v: real, w: real)
    requires ServedAround(log, i, k, u, v) && k <= 9
    requires CallTime(log, i, i + k + 2) < 4.0
    requires u <= w <= v
    ensures Trunc(u + PING_TIMEOUT - w) > 0
  {
    GapAfterFailures(log, i, k);
    CallTimeAdds(log, i, i + 1, i + k + 1);
    ExpiresBelowOneSecond(u + PING_TIMEOUT - w);
  }

  /** Ten failures in a row always let it expire. */
  lemma TenFailuresExpire(log: seq<Ping>, i: nat, k: nat, u: real, v: real)
    requires ServedAround(log, i, k, u, v) && k >= 10
    ensures Trunc(u + PING_TIMEOUT - v) <= 0
  {
    GapAfterFailures(log, i, k);
    CallTimeIsPositive(log, i + 1, i + k + 1);
    ExpiresBelowOneSecond(u + PING_TIMEOUT - v);
  }

  lemma {:induction false} CallTimeAdds(log: seq<Ping>, a: nat, b: nat, c: nat)
    requires a <= b <= c <= |log|
    ensures CallTime(log, a, c) == CallTime(log, a, b) + CallTime(log, b, c)
  {
    if b < c {
      CallTimeAdds(log, a, b, c - 1);
    }
  }

  // ------------------------------------------------------------------- polling a migration's status

  datatype Status = Setup | Active | Completed | Other

  datatype PollEnd = StillGoing | Complete | InvalidStatus | TimedOut

  /** How polling must end, going by the reported statuses alone. */
  function Expected(statuses: seq<Status>): PollEnd {
    if statuses == [] then StillGoing
    else match statuses[0]
      case Completed => Complete
      case Other => InvalidStatus
      case _ => Expected(statuses[1..])
  }

  /** What the interval has grown to after so many queries. */
  function Interval(k: nat): (r: real)
    ensures 1.0 <= r < 14.142
  {
    if k == 0 then 1.0
    else if Interval(k - 1) < 10.0 then Interval(k - 1) * 1.4142
    else Interval(k - 1)
  }

  /** What is left of the deadline before the k-th tick: 30 s more for each query, less its cost and the sleep
  before it, of which the first has none. */
  function Slack(costs: seq<real>, k: nat): real
    requires k <= |costs|
  {
    if k == 0 then 30.0
    else Slack(costs, k - 1) + 30.0 - costs[k - 1] - if k == 1 then 0.0 else Interval(k - 1)
  }

  lemma PollStarts(costs: seq<real>)
    ensures Interval(0) == 1.0 && Slack(costs, 0) == 30.0
  {
  }

  lemma PollGoesOn(costs: seq<real>, k: nat)
    requires k < |costs|
    ensures Interval(k + 1) == if Interval(k) < 10.0 then Interval(k) * 1.4142 else Interval(k)
    ensures Slack(costs, k + 1) == Slack(costs, k) + 30.0 - costs[k] - if k == 0 then 0.0 else Interval(k)
  {
  }

  /** `poll_migration_status`, `costs` being the time each query takes together with what the consumer
  does with its result. The interval stays below 14.142 s, and while no cost exceeds 15 s, at least 30 s
  are left at every tick: then polling never times out, however long the migration takes. In general it times
  out exactly at the first tick that finds less than a second left. */
  method PollMigrationStatus(clock: Clock, statuses: seq<Status>, costs: seq<real>)
    returns (r: PollEnd, ghost slack: seq<real>, intervals: seq<real>)
    requires |costs| == |statuses|
    modifies clock
    ensures (forall i :: 0 <= i < |costs| ==> costs[i] <= 15.0) ==> r == Expected(statuses)
    ensures (forall i :: 0 <= i < |costs| ==> costs[i] <= 15.0) ==> forall i :: 0 <= i < |slack| ==> slack[i] >= 30.0
    ensures forall i :: 0 <= i < |intervals| ==> intervals[i] < 14.142 && intervals[i] == Interval(i + 1)
    ensures |slack| <= |costs| && forall i :: 0 <= i < |slack| ==> slack[i] == Slack(costs, i)
    ensures forall i :: 0 <= i < |slack| ==> (slack[i] < 1.0 <==> r == TimedOut && i == |slack| - 1)
    ensures r == TimedOut ==> slack != []
    ensures r != TimedOut ==> r == Expected(statuses)
  {
    hide Interval, Slack;
    slack, intervals := [], [];
    PollStarts(costs);
    var timeout := new TimeOut(clock, 30.0, 1.0);
    var k := 0;
    while k < |statuses|
      invariant 0 <= k <= |statuses| && timeout.clock == clock && fresh(timeout)
      invariant 0.0 < timeout.interval < 14.142
      invariant Expected(statuses[k..]) == Expected(statuses)
      invariant forall i :: 0 <= i < |intervals| ==> intervals[i] < 14.142 && intervals[i] == Interval(i + 1)
      invariant k == |slack| == |intervals| && timeout.interval == Interval(k) && timeout.first == (k == 0)
      invariant timeout.cutoff - clock.now == Slack(costs, k)
      invariant forall i :: 0 <= i < |slack| ==> slack[i] == Slack(costs, i) && slack[i] >= 1.0
      invariant (forall i :: 0 <= i < |costs| ==> costs[i] <= 15.0) ==>
          timeout.cutoff - clock.now >= 30.0 && forall i :: 0 <= i < |slack| ==> slack[i] >= 30.0
    {
      PollGoesOn(costs, k);
      slack := slack + [timeout.cutoff - clock.now];
      var goOn := timeout.Tick();
      if !goOn { return TimedOut, slack, intervals; }
      if timeout.interval < 10.0 {
        timeout.interval := timeout.interval * 1.4142;
      }
      intervals := intervals + [timeout.interval];
      clock.Pass(costs[k]);
      assert statuses[k..][1..] == statuses[k + 1..];
      match statuses[k]
      case Completed => return Complete, slack, intervals;
      case Other => return InvalidStatus, slack, intervals;
      case _ =>
      timeout.cutoff := timeout.cutoff + 30.0;
      k := k + 1;
    }
    r := StillGoing;
  }
}
