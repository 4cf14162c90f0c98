/** The program's entry: a single run, or the daemon that waits for each
    scheduled time, runs with a bounded retry of transient failures, and stops
    at the first failure it does not retry away. The clock and the schedule
    are abstract: `now(t)` is the t-th reading of a clock that moves forward,
    and the schedule is the list of upcoming fire times. */
module Daemon {
  import opened Wrappers
  import opened Options
  import opened Cdu

  /** Delays the retry strategy yields, so retries after the first attempt. */
  const MaxRetries: nat := 3

  /** Transient errors are retried; a missing zone or record, or any other
      error, is a configuration problem and is not. */
  predicate Retryable(e: CduError)
  {
    e.ApiFailure? || e.PublicIP?
  }

  /** Every reading of the clock is later than every reading before it. */
  ghost predicate Increasing(now: nat -> int)
  {
    forall t: nat, u: nat :: t < u ==> now(t) < now(u)
  }

  // ---------------------------------------------------------------------
  // Waiting for a fire time.

  /** Polls the clock from reading `t` on until a reading is strictly later
      than `fireAt`; returns the index of that reading. */
  function WaitPast(fireAt: int, now: nat -> int, t: nat): (w: nat)
    requires Increasing(now)
    ensures t <= w && now(w) > fireAt
    ensures forall u :: t <= u < w ==> now(u) <= fireAt
    decreases if now(t) > fireAt then 0 else fireAt - now(t) + 1
  {
    if now(t) > fireAt then t
    else
      assert now(t) < now(t + 1);
      WaitPast(fireAt, now, t + 1)
  }

  // ---------------------------------------------------------------------
  // Retry.

  /** Attempt number `index` of a run for the `tick`-th fire time, started at
      clock reading number `reading`. */
  datatype Attempt = Attempt(tick: nat, fireAt: int, index: nat, reading: nat, run: RunResult)

  /** The number of attempts the retry loop makes for fire time `tick` from
      attempt `index` on, attempt `k` being `runs(tick, k)`. After a failure
      the loop tries again only if the error is retryable and fewer than
      MaxRetries retries were made. */
  function Retry(runs: (nat, nat) -> RunResult, tick: nat, index: nat): (n: nat)
    requires index <= MaxRetries
    ensures 1 <= n <= MaxRetries + 1 - index
    ensures forall k :: index <= k < index + n - 1 ==>
      runs(tick, k).outcome.Fail? && Retryable(runs(tick, k).outcome.error)
    ensures var last := runs(tick, index + n - 1).outcome;
      last.Pass? || !Retryable(last.error) || index + n - 1 == MaxRetries
    decreases MaxRetries - index
  {
    var o := runs(tick, index).outcome;
    if o.Fail? && Retryable(o.error) && index < MaxRetries then 1 + Retry(runs, tick, index + 1) else 1
  }

  /** An attempt is followed by another exactly when it failed with a
      retryable error and the retry budget is not spent. */
  lemma RetryIff(runs: (nat, nat) -> RunResult, tick: nat, index: nat)
    requires index <= MaxRetries
    ensures Retry(runs, tick, index) > 1 <==>
      && runs(tick, index).outcome.Fail?
      && Retryable(runs(tick, index).outcome.error)
      && index < MaxRetries
  {
  }

  /** A run that keeps failing with a retryable error is attempted until the
      budget is spent: 1 + MaxRetries attempts from the first one. */
  lemma RetryExhausts(runs: (nat, nat) -> RunResult, tick: nat, index: nat)
    requires index <= MaxRetries
    requires forall k: nat :: index <= k <= MaxRetries ==>
      runs(tick, k).outcome.Fail? && Retryable(runs(tick, k).outcome.error)
    ensures Retry(runs, tick, index) == MaxRetries + 1 - index
  {
  }

  /** The attempts for fire time `tick` once the clock reached reading
      `start`: every attempt takes at least one clock step, so attempt `j`
      starts at reading `start + j` or later; the model takes exactly that. */
  function Attempts(runs: (nat, nat) -> RunResult, tick: nat, fireAt: int, start: nat): seq<Attempt>
  {
    var n := Retry(runs, tick, 0);
    seq(n, j requires 0 <= j < n => Attempt(tick, fireAt, j, start + j, runs(tick, j)))
  }

  // ---------------------------------------------------------------------
  // The daemon.

  datatype DaemonResult = DaemonResult(outcome: Outcome<CduError>, attempts: seq<Attempt>)

  /** `next` is what the daemon does right after `prev`: retry the same fire
      time after a retryable failure, or move to the next fire time after a
      success; and it starts later. */
  predicate Follows(prev: Attempt, next: Attempt)
  {
    && prev.reading < next.reading
    && (|| (&& next.tick == prev.tick
            && next.index == prev.index + 1
            && prev.run.outcome.Fail?
            && Retryable(prev.run.outcome.error))
        || (&& next.tick == prev.tick + 1
            && next.index == 0
            && prev.run.outcome.Pass?))
  }

  /** The attempts happen one after another, as `Follows` allows. */
  ghost predicate Sequential(atts: seq<Attempt>)
  {
    forall j :: 0 <= j < |atts| - 1 ==> Follows(atts[j], atts[j + 1])
  }

  /** Each attempt starts when the clock is strictly past its fire time, and
      within the retry budget. */
  ghost predicate Timely(atts: seq<Attempt>, now: nat -> int)
  {
    forall j :: 0 <= j < |atts| ==> now(atts[j].reading) > atts[j].fireAt && atts[j].index <= MaxRetries
  }

  /** The attempts of one retry loop are sequential, and once the clock has
      passed the fire time they are all timely. */
  lemma RetryOrdered(runs: (nat, nat) -> RunResult, tick: nat, fireAt: int, start: nat, now: nat -> int)
    requires Increasing(now)
    requires now(start) > fireAt
    ensures var atts := Attempts(runs, tick, fireAt, start);
      Sequential(atts) && Timely(atts, now)
  {
  }

  /** The last of a non-empty list of attempts. */
  function Last(atts: seq<Attempt>): Attempt
    requires |atts| > 0
  {
    atts[|atts| - 1]
  }

  /** Attempt `a` belongs to the schedule: its fire time is one of the
      upcoming ones and its run is the `index`-th attempt for that fire time. */
  predicate FromSchedule(a: Attempt, upcoming: seq<int>, runs: (nat, nat) -> RunResult)
  {
    a.tick < |upcoming| && a.fireAt == upcoming[a.tick] && a.run == runs(a.tick, a.index)
  }

  /** After the first `i` fire times, the clock being at reading `clock`:
      the attempts so far are sequential and timely, belong to those fire
      times, started before `clock`, begin with attempt 0 of the first fire
      time, end with one of fire time `i - 1`, and number at most 1 +
      MaxRetries per fire time. */
  ghost predicate Handled(atts: seq<Attempt>, upcoming: seq<int>, runs: (nat, nat) -> RunResult,
                          now: nat -> int, i: nat, clock: nat)
  {
    && i <= |upcoming|
    && Sequential(atts) && Timely(atts, now)
    && (forall j :: 0 <= j < |atts| ==>
          FromSchedule(atts[j], upcoming, runs) && atts[j].tick < i && atts[j].reading < clock)
    && (|atts| > 0 <==> i > 0)
    && (|atts| > 0 ==> atts[0].tick == 0 && atts[0].index == 0 && Last(atts).tick == i - 1)
    && |atts| <= (MaxRetries + 1) * i
  }

  /** Appending the attempts for fire time `i`, all made between readings
      `clock` and `next`, to what was handled before extends it by one fire
      time. */
  lemma HandledAppend(atts: seq<Attempt>, tick: seq<Attempt>, upcoming: seq<int>,
                      runs: (nat, nat) -> RunResult, now: nat -> int, i: nat, clock: nat, next: nat)
    requires i < |upcoming| && Handled(atts, upcoming, runs, now, i, clock)
    requires |atts| > 0 ==> Last(atts).run.outcome.Pass?
    requires 0 < |tick| <= MaxRetries + 1 && tick[0].index == 0
    requires Sequential(tick) && Timely(tick, now)
    requires forall j :: 0 <= j < |tick| ==>
      FromSchedule(tick[j], upcoming, runs) && tick[j].tick == i && clock <= tick[j].reading < next
    ensures Handled(atts + tick, upcoming, runs, now, i + 1, next)
    ensures Last(atts + tick) == Last(tick)
  {
  }

  /** One turn of the daemon loop: waiting for fire time `i` and running it
      with retries extends what was handled by one fire time. */
  lemma HandleNext(atts: seq<Attempt>, upcoming: seq<int>, runs: (nat, nat) -> RunResult,
                   now: nat -> int, i: nat, clock: nat)
    requires Increasing(now) && i < |upcoming|
    requires Handled(atts, upcoming, runs, now, i, clock)
    requires |atts| > 0 ==> Last(atts).run.outcome.Pass?
    ensures var start := WaitPast(upcoming[i], now, clock);
      var tick := Attempts(runs, i, upcoming[i], start);
      && Handled(atts + tick, upcoming, runs, now, i + 1, start + |tick|)
      && Last(atts + tick) == Last(tick)
      && var last := Last(tick).run.outcome;
         last.Fail? ==> !Retryable(last.error) || Last(tick).index == MaxRetries
  {
    var start := WaitPast(upcoming[i], now, clock);
    var tick := Attempts(runs, i, upcoming[i], start);
    RetryOrdered(runs, i, upcoming[i], start, now);
    HandledAppend(atts, tick, upcoming, runs, now, i, clock, start + |tick|);
  }

  /** What the daemon loop over `upcoming` promises of its result `r`, attempt
      `a` of fire time `t` being `runs(t, a)`. */
  ghost predicate Scheduled(upcoming: seq<int>, now: nat -> int, runs: (nat, nat) -> RunResult,
                            r: DaemonResult)
  {
    // Runs are strictly one after another, each strictly after its fire time.
    && Sequential(r.attempts) && Timely(r.attempts, now)
    && (forall j :: 0 <= j < |r.attempts| ==> FromSchedule(r.attempts[j], upcoming, runs))
    // The first fire time is handled first, and each one at most 1 + MaxRetries times.
    && (|r.attempts| > 0 <==> |upcoming| > 0)
    && (|r.attempts| > 0 ==> r.attempts[0].tick == 0 && r.attempts[0].index == 0)
    && |r.attempts| <= (MaxRetries + 1) * |upcoming|
    // The daemon ends with the outcome of its last attempt; it stops early
    // only on an error it does not retry or once the retries are spent.
    && (|r.attempts| > 0 ==> Last(r.attempts).run.outcome == r.outcome)
    && (r.outcome.Fail? ==>
          |r.attempts| > 0 && (!Retryable(r.outcome.error) || Last(r.attempts).index == MaxRetries))
    && (r.outcome.Pass? && |upcoming| > 0 ==> Last(r.attempts).tick == |upcoming| - 1)
  }

  /** The daemon loop over the upcoming fire times: wait until the clock is
      past the fire time, run with retries, and stop at the first failure the
      retries do not clear; running out of fire times is a success. */
  method Schedule(upcoming: seq<int>, now: nat -> int, runs: (nat, nat) -> RunResult)
    returns (r: DaemonResult)
    requires Increasing(now)
    ensures Scheduled(upcoming, now, runs, r)
  {
    var atts: seq<Attempt> := [];
    var clock: nat := 0;
    var i := 0;
    while i < |upcoming|
      invariant Handled(atts, upcoming, runs, now, i, clock)
      invariant |atts| > 0 ==> Last(atts).run.outcome.Pass?
    {
      var start := WaitPast(upcoming[i], now, clock);
      var tick := Attempts(runs, i, upcoming[i], start);
      HandleNext(atts, upcoming, runs, now, i, clock);
      atts := atts + tick;
      if Last(tick).run.outcome.Fail? {
        return DaemonResult(Last(tick).run.outcome, atts);
      }
      clock := start + |tick|;
      i := i + 1;
    }
    return DaemonResult(Pass, atts);
  }

  /** Attempt `a` of fire time `t` is one run of the configured zone and
      record names against the world as it is at that attempt. */
  function Configured(opts: Opts, world: (nat, nat) -> Provider): (nat, nat) -> RunResult
  {
    (t: nat, a: nat) => Run(opts.zone, RecordNameList(opts), world(t, a))
  }

  /** What the daemon promises: a cron string that does not parse fails
      before any run; otherwise the loop over its fire times runs the
      configured zone and names, as `Scheduled` says. */
  ghost predicate DaemonRan(opts: Opts, parseCron: string -> Option<seq<int>>,
                            now: nat -> int, world: (nat, nat) -> Provider, r: DaemonResult)
  {
    match parseCron(opts.cron)
    case None => r == DaemonResult(Fail(Other), [])
    case Some(upcoming) => Scheduled(upcoming, now, Configured(opts, world), r)
  }

  /** The daemon: parse the schedule, then handle every fire time in turn.
      `parseCron` stands for the cron library; `None` is a parse error. */
  method RunDaemon(opts: Opts, parseCron: string -> Option<seq<int>>,
                   now: nat -> int, world: (nat, nat) -> Provider) returns (r: DaemonResult)
    requires Increasing(now)
    ensures DaemonRan(opts, parseCron, now, world, r)
    ensures forall j :: 0 <= j < |r.attempts| ==>
      r.attempts[j].run == Run(opts.zone, RecordNameList(opts), world(r.attempts[j].tick, r.attempts[j].index))
  {
    match parseCron(opts.cron)
    case None =>
      return DaemonResult(Fail(Other), []);
    case Some(upcoming) =>
      r := Schedule(upcoming, now, Configured(opts, world));
  }

  /** What the program ends with: the single run, or the daemon's attempts. */
  datatype Exit =
    | Once(outcome: Outcome<CduError>, run: RunResult)
    | Daemonised(outcome: Outcome<CduError>, attempts: seq<Attempt>)

  /** The program: one run, or the daemon, as the options say; the program's
      outcome is that of what it ran. */
  method Launch(opts: Opts, parseCron: string -> Option<seq<int>>,
                now: nat -> int, world: (nat, nat) -> Provider) returns (r: Exit)
    requires Increasing(now)
    ensures !opts.daemon ==>
      var run := Run(opts.zone, RecordNameList(opts), world(0, 0));
      r == Once(run.outcome, run)
    ensures opts.daemon ==>
      && r.Daemonised?
      && DaemonRan(opts, parseCron, now, world, DaemonResult(r.outcome, r.attempts))
      && forall j :: 0 <= j < |r.attempts| ==>
           r.attempts[j].run == Run(opts.zone, RecordNameList(opts), world(r.attempts[j].tick, r.attempts[j].index))
  {
    if opts.daemon {
      var d := RunDaemon(opts, parseCron, now, world);
      r := Daemonised(d.outcome, d.attempts);
    } else {
      var run := Run(opts.zone, RecordNameList(opts), world(0, 0));
      r := Once(run.outcome, run);
    }
  }
}
