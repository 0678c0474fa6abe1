/** The poll driver of main.go: exponential backoff, one iteration of the unbounded poll
    loop as a state transition, and the setup that must succeed before the loop starts. */
module Poller {
  import opened Values
  import opened Requests
  import opened Client

  const MaxAttempts: int := 20
  /** The steady-state sleep at the end of a logged poll, in milliseconds. */
  const PollIntervalMs: nat := 2000
  const ChargeStatus: string := "CHARGE_STATUS"
  /** The CHARGE_STATUS text that means the sock is on its charger. */
  const Charging: string := "2"

  function Pow2(n: nat): (r: nat)
    ensures r >= 1
  {
    if n == 0 then 1 else 2 * Pow2(n - 1)
  }

  function Min(a: int, b: int): int
  {
    if a <= b then a else b
  }

  /** The counter backoff hands back: the attempt, capped at one below the maximum, plus one. */
  function NextAttempt(attempt: int): (next: int)
    ensures next == Min(attempt + 1, MaxAttempts)
  {
    (if attempt >= MaxAttempts then MaxAttempts - 1 else attempt) + 1
  }

  /** The sleep of backoff in milliseconds: 2^attempt from the uncapped input. A negative
      exponent gives a fraction of a millisecond, which the duration conversion truncates. */
  function BackoffDelay(attempt: int): (ms: nat)
    ensures attempt < 0 ==> ms == 0
    ensures attempt >= 0 ==> ms >= 1
  {
    if attempt < 0 then 0 else Pow2(attempt)
  }

  /** The longest sleep a counter kept within [1, MaxAttempts] can cause. */
  function MaxDelay(): nat
  {
    Pow2(MaxAttempts)
  }

  /** backoff: sleeps for 2^attempt milliseconds, then returns min(attempt + 1, 20). */
  method Backoff(attempt: int) returns (next: int, delayMs: nat)
    ensures next == Min(attempt + 1, MaxAttempts)
    ensures delayMs == BackoffDelay(attempt)
  {
    delayMs := BackoffDelay(attempt);
    next := attempt;
    if next >= MaxAttempts {
      next := MaxAttempts - 1;
    }
    next := next + 1;
  }

  lemma {:induction false} Pow2Monotone(a: nat, b: nat)
    requires a <= b
    ensures Pow2(a) <= Pow2(b)
  {
    if a < b {
      Pow2Monotone(a, b - 1);
    }
  }

  /** Over every integer exponent, negative ones included, a larger exponent never gives a
      shorter sleep. */
  lemma BackoffDelayMonotone(a: int, b: int)
    requires a <= b
    ensures BackoffDelay(a) <= BackoffDelay(b)
  {
    if 0 <= a {
      Pow2Monotone(a, b);
    }
  }

  /** Delays never shrink as the counter advances, and a counter in [1, 20] never sleeps
      longer than 2^20 milliseconds. */
  lemma BackoffDelayBounds(attempt: int)
    ensures 1 <= attempt <= MaxAttempts ==>
      BackoffDelay(attempt) <= BackoffDelay(NextAttempt(attempt)) && BackoffDelay(attempt) <= MaxDelay()
  {
    if 1 <= attempt <= MaxAttempts {
      Pow2Monotone(attempt, NextAttempt(attempt));
      Pow2Monotone(attempt, MaxAttempts);
    }
  }

  /** The counter after n consecutive backoffs. */
  function AttemptsAfter(start: int, n: nat): int
  {
    if n == 0 then start else NextAttempt(AttemptsAfter(start, n - 1))
  }

  /** From a fresh counter, n consecutive failures leave it at min(1 + n, 20): it climbs
      by one per failure and then stays at the cap. */
  lemma {:induction false} ConsecutiveFailures(n: nat)
    ensures AttemptsAfter(1, n) == Min(1 + n, MaxAttempts)
  {
    if n > 0 {
      ConsecutiveFailures(n - 1);
    }
  }

  /** What one iteration of the loop learns from outside: the property fetch failed, or it
      returned a map together with the outcome of marshalling that map to JSON. */
  datatype Poll =
    | FetchFailed(err: Error)
    | Fetched(properties: map<string, Property>, encoded: Result<string>)

  /** The loop's state: the two backoff counters, the lines appended to the log file, how
      many times SetAppActiveStatus was called, and every sleep taken, in milliseconds. */
  datatype LoopState = LoopState(
    attempts: int,
    propAttempts: int,
    log: seq<string>,
    activeCalls: nat,
    sleeps: seq<nat>)

  const Initial: LoopState := LoopState(1, 1, [], 0, [])

  /** Go reads `properties["CHARGE_STATUS"].Value` through a pointer, which is nil when the
      entry is missing; a marshalled fetch must therefore carry that entry. */
  predicate Dereferences(p: Poll)
  {
    p.Fetched? && p.encoded.Ok? ==> ChargeStatus in p.properties
  }

  predicate IsCharging(p: Poll)
    requires Dereferences(p)
  {
    p.Fetched? && p.encoded.Ok? && p.properties[ChargeStatus].value == Charging
  }

  /** Both counters in [1, 20] and every sleep at most 2^20 milliseconds. */
  ghost predicate InRange(s: LoopState)
  {
    && 1 <= s.attempts <= MaxAttempts
    && 1 <= s.propAttempts <= MaxAttempts
    && forall i :: 0 <= i < |s.sleeps| ==> s.sleeps[i] <= MaxDelay()
  }

  /** One iteration of the `for` loop of main. */
  function Next(s: LoopState, p: Poll): (t: LoopState)
    requires Dereferences(p)
    ensures p.FetchFailed? ==>
      t.propAttempts == NextAttempt(s.propAttempts) &&
      t.attempts == s.attempts && t.log == s.log && t.activeCalls == s.activeCalls &&
      t.sleeps == s.sleeps + [BackoffDelay(s.propAttempts)]
    ensures p.Fetched? ==> t.propAttempts == 1
    ensures p.Fetched? && p.encoded.Err? ==> t == s.(propAttempts := 1)
    ensures IsCharging(p) ==>
      t.attempts == NextAttempt(s.attempts) && t.log == s.log && t.activeCalls == s.activeCalls &&
      t.sleeps == s.sleeps + [BackoffDelay(s.attempts)]
    ensures p.Fetched? && p.encoded.Ok? && !IsCharging(p) ==>
      t.attempts == 1 && t.log == s.log + [p.encoded.value] && t.activeCalls == s.activeCalls + 1 &&
      t.sleeps == s.sleeps + [PollIntervalMs]
    ensures |t.log| - |s.log| == t.activeCalls - s.activeCalls
    ensures InRange(s) ==> InRange(t)
  {
    match p
    case FetchFailed(_) =>
      BackoffDelayBounds(s.propAttempts);
      s.(propAttempts := NextAttempt(s.propAttempts), sleeps := s.sleeps + [BackoffDelay(s.propAttempts)])
    case Fetched(properties, Err(_)) =>
      s.(propAttempts := 1)
    case Fetched(properties, Ok(line)) =>
      if properties[ChargeStatus].value == Charging then
        BackoffDelayBounds(s.attempts);
        s.(propAttempts := 1, attempts := NextAttempt(s.attempts), sleeps := s.sleeps + [BackoffDelay(s.attempts)])
      else
        assert PollIntervalMs <= MaxDelay() by { Pow2Monotone(11, MaxAttempts); }
        s.(propAttempts := 1, attempts := 1, log := s.log + [line], activeCalls := s.activeCalls + 1,
           sleeps := s.sleeps + [PollIntervalMs])
  }

  predicate AllDereference(polls: seq<Poll>)
  {
    forall i :: 0 <= i < |polls| ==> Dereferences(polls[i])
  }

  /** The state after the loop has run through `polls`, in order. */
  function Run(s: LoopState, polls: seq<Poll>): LoopState
    requires AllDereference(polls)
    decreases |polls|
  {
    if polls == [] then s else Run(Next(s, polls[0]), polls[1..])
  }

  /** From the initial counters, however the fetches turn out, both counters stay in
      [1, 20] and no sleep exceeds 2^20 milliseconds. */
  lemma {:induction false} RunStaysInRange(s: LoopState, polls: seq<Poll>)
    requires AllDereference(polls) && InRange(s)
    ensures InRange(Run(s, polls))
    decreases |polls|
  {
    if polls != [] {
      RunStaysInRange(Next(s, polls[0]), polls[1..]);
    }
  }

  /** The loop as main starts it: whatever the polls, the counters stay in [1, 20]. */
  lemma CountersFromStart(polls: seq<Poll>)
    requires AllDereference(polls)
    ensures 1 <= Run(Initial, polls).attempts <= MaxAttempts
    ensures 1 <= Run(Initial, polls).propAttempts <= MaxAttempts
  {
    RunStaysInRange(Initial, polls);
  }

  /** Every line appended to the log comes with exactly one SetAppActiveStatus call. */
  lemma {:induction false} LoggedLinesMatchActiveCalls(s: LoopState, polls: seq<Poll>)
    requires AllDereference(polls)
    ensures |Run(s, polls).log| - |s.log| == Run(s, polls).activeCalls - s.activeCalls
    ensures |Run(s, polls).log| >= |s.log| && Run(s, polls).log[..|s.log|] == s.log
    decreases |polls|
  {
    if polls != [] {
      var t := Next(s, polls[0]);
      LoggedLinesMatchActiveCalls(t, polls[1..]);
      assert Run(s, polls) == Run(t, polls[1..]);
      assert t.log[..|s.log|] == s.log;
    }
  }

  /** A run of charging polls appends nothing, calls SetAppActiveStatus never, and
      advances the charging counter by one per poll up to the cap. */
  lemma {:induction false} ChargingLogsNothing(s: LoopState, polls: seq<Poll>)
    requires AllDereference(polls)
    requires forall i :: 0 <= i < |polls| ==> IsCharging(polls[i])
    requires s.attempts == 1
    ensures Run(s, polls).log == s.log && Run(s, polls).activeCalls == s.activeCalls
    ensures Run(s, polls).attempts == Min(1 + |polls|, MaxAttempts)
  {
    ChargingCounter(s, polls, 0);
  }

  lemma {:induction false} ChargingCounter(s: LoopState, polls: seq<Poll>, done: nat)
    requires AllDereference(polls)
    requires forall i :: 0 <= i < |polls| ==> IsCharging(polls[i])
    requires s.attempts == AttemptsAfter(1, done)
    ensures Run(s, polls).log == s.log && Run(s, polls).activeCalls == s.activeCalls
    ensures Run(s, polls).attempts == AttemptsAfter(1, done + |polls|)
    ensures Run(s, polls).attempts == Min(1 + done + |polls|, MaxAttempts)
    decreases |polls|
  {
    if polls != [] {
      ChargingCounter(Next(s, polls[0]), polls[1..], done + 1);
    } else {
      ConsecutiveFailures(done);
    }
  }

  /** Three charging polls and then a normal one: only the fourth is logged and signals
      activity, after backoff sleeps of 2, 4 and 8 milliseconds. */
  lemma ChargingThenNormal(charging: map<string, Property>, normal: map<string, Property>, lines: seq<string>)
    requires ChargeStatus in charging && charging[ChargeStatus].value == Charging
    requires ChargeStatus in normal && normal[ChargeStatus].value == "0"
    requires |lines| == 4
    ensures var polls := [Fetched(charging, Ok(lines[0])), Fetched(charging, Ok(lines[1])),
                          Fetched(charging, Ok(lines[2])), Fetched(normal, Ok(lines[3]))];
      AllDereference(polls) &&
      Run(Initial, polls) == LoopState(1, 1, [lines[3]], 1, [2, 4, 8, PollIntervalMs])
  {
    var polls := [Fetched(charging, Ok(lines[0])), Fetched(charging, Ok(lines[1])),
                  Fetched(charging, Ok(lines[2])), Fetched(normal, Ok(lines[3]))];
    var s1 := Next(Initial, polls[0]);
    var s2 := Next(s1, polls[1]);
    var s3 := Next(s2, polls[2]);
    var s4 := Next(s3, polls[3]);
    assert s1 == LoopState(2, 1, [], 0, [2]);
    assert s2 == LoopState(3, 1, [], 0, [2, 4]);
    assert s3 == LoopState(4, 1, [], 0, [2, 4, 8]);
    assert Run(Initial, polls) == Run(s1, polls[1..]);
    assert Run(s1, polls[1..]) == Run(s2, polls[2..]);
    assert Run(s2, polls[2..]) == Run(s3, polls[3..]);
    assert Run(s3, polls[3..]) == Run(s4, []);
  }

  /** The loop variables of main, updated in place by each iteration. */
  class PollDriver {
    var attempts: int
    var propAttempts: int
    var log: seq<string>
    var activeCalls: nat
    var sleeps: seq<nat>

    function State(): LoopState
      reads this
    {
      LoopState(attempts, propAttempts, log, activeCalls, sleeps)
    }

    constructor ()
      ensures State() == Initial
    {
      attempts, propAttempts := 1, 1;
      log, activeCalls, sleeps := [], 0, [];
    }

    /** One iteration of the `for` loop. */
    method Step(p: Poll)
      requires Dereferences(p)
      modifies this
      ensures State() == Next(old(State()), p)
    {
      match p {
        case FetchFailed(_) =>
          var next, delay := Backoff(propAttempts);
          propAttempts := next;
          sleeps := sleeps + [delay];
        case Fetched(properties, encoded) =>
          propAttempts := 1;
          if encoded.Err? {
            return;
          }
          var chargeStatus := properties[ChargeStatus].value;
          if chargeStatus == Charging {
            var next, delay := Backoff(attempts);
            attempts := next;
            sleeps := sleeps + [delay];
            return;
          }
          attempts := 1;
          log := log + [encoded.value];
          activeCalls := activeCalls + 1;
          sleeps := sleeps + [PollIntervalMs];
      }
    }

    /** The loop run for as many iterations as there are polls. */
    method Drive(polls: seq<Poll>)
      requires AllDereference(polls)
      modifies this
      ensures State() == Run(old(State()), polls)
    {
      var i := 0;
      while i < |polls|
        invariant 0 <= i <= |polls|
        invariant Run(old(State()), polls) == Run(State(), polls[i..])
      {
        assert polls[i..][1..] == polls[i + 1..];
        Step(polls[i]);
        i := i + 1;
      }
    }
  }

  /** The setup of main: create the client (which logs in), select the first device, open
      the log file. Any failure ends main before the loop; otherwise the loop starts from
      fresh counters and an empty log. */
  method Launch(email: string, password: string, http: Transport,
                decodeAuth: string -> Decoded<Authentication>,
                decodeDevices: string -> Decoded<seq<DeviceRoot>>,
                openErr: Option<Error>) returns (c: Client, driver: PollDriver?)
    requires var login := LoginOutcome(http.answer(|http.sent|, SignInRequest(email, password)), None, decodeAuth);
      login.1.None? ==>
        var d := RequestOutcome(http.answer(|http.sent| + 1,
                   NewRequestWithAuthorization(login.0, "GET", DataSubdomain, DevicesEndpoint, NoBody)), [], decodeDevices);
        d.err.None? ==> |d.value| > 0
    modifies http
    ensures fresh(c) && c.http == http
    ensures var login := LoginOutcome(http.answer(|old(http.sent)|, SignInRequest(email, password)), None, decodeAuth);
      && (login.1.Some? ==> driver == null && http.sent == old(http.sent) + [SignInRequest(email, password)])
      && (login.1.None? ==>
            var req := NewRequestWithAuthorization(login.0, "GET", DataSubdomain, DevicesEndpoint, NoBody);
            var d := RequestOutcome(http.answer(|old(http.sent)| + 1, req), [], decodeDevices);
            && http.sent == old(http.sent) + [SignInRequest(email, password), req]
            && (driver == null <==> d.err.Some? || openErr.Some?)
            && (d.err.None? ==> c.device == Some(d.value[0].device)))
    ensures driver != null ==> fresh(driver) && driver.State() == Initial
  {
    var err;
    c, err := New(email, password, http, decodeAuth);
    if err.Some? {
      return c, null;
    }
    err := c.SetFirstDevice(decodeDevices);
    if err.Some? {
      return c, null;
    }
    if openErr.Some? {
      return c, null;
    }
    driver := new PollDriver();
  }
}
