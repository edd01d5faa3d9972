/** Exponential backoff with full jitter, the random draw being a parameter in [0, 1). */
module Backoff {
  import opened Prelude

  function Pow2(n: nat): real {
    if n == 0 then 1.0 else 2.0 * Pow2(n - 1)
  }

  // The powers of two, by their law.
  ghost predicate Doubling(pow: nat -> real) {
    pow(0) == 1.0 && forall n: nat :: pow(n + 1) == 2.0 * pow(n)
  }

  lemma {:induction false} DoublingIsPow2(pow: nat -> real, n: nat)
    requires Doubling(pow)
    ensures pow(n) == Pow2(n)
  {
    if n > 0 {
      DoublingIsPow2(pow, n - 1);
      assert pow(n - 1 + 1) == 2.0 * pow(n - 1);
    }
  }

  function Ceiling(attempt: nat, base: real, cap: real): real {
    MinReal(cap, base * Pow2(attempt))
  }

  function Scaled(draw: real, ceiling: real): real {
    draw * ceiling
  }

  // `None` is the source's ValueError for a negative attempt.
  function FullJitter(attempt: int, base: real, cap: real, draw: real): Option<real> {
    if attempt < 0 then None else Some(Scaled(draw, Ceiling(attempt, base, cap)))
  }

  // The ceiling never exceeds the cap, never decreases with the attempt unless the base is
  // negative, and is not negative unless the base or the cap is.
  lemma CeilingGrows(attempt: nat, base: real, cap: real)
    ensures Ceiling(attempt, base, cap) <= cap
    ensures base >= 0.0 ==> Ceiling(attempt, base, cap) <= Ceiling(attempt + 1, base, cap)
    ensures base >= 0.0 && cap >= 0.0 ==> 0.0 <= Ceiling(attempt, base, cap)
  {
    if base >= 0.0 {
      Pow2Positive(attempt);
      Scale(base, Pow2(attempt));
    }
  }

  lemma Scale(base: real, p: real)
    requires base >= 0.0 && p >= 0.0
    ensures 0.0 <= base * p <= base * (2.0 * p)
  {
    assert base * (2.0 * p) == base * p + base * p;
  }

  lemma {:induction false} Pow2Positive(n: nat)
    ensures Pow2(n) >= 1.0
  {
    if n > 0 {
      Pow2Positive(n - 1);
    }
  }

  function Product(a: real, b: real): real {
    a * b
  }

  // The delay of attempt `n` is the drawn share of min(cap, base * 2^n).
  lemma DelayIsDrawnShare(attempt: nat, base: real, cap: real, draw: real, pow: nat -> real)
    requires Doubling(pow)
    ensures Ceiling(attempt, base, cap) == MinReal(cap, Product(base, pow(attempt)))
    ensures FullJitter(attempt, base, cap, draw)
         == Some(Product(draw, MinReal(cap, Product(base, pow(attempt)))))
  {
    DoublingIsPow2(pow, attempt);
    CeilingIs(attempt, base, cap);
    JitterIs(attempt, base, cap, draw);
    hide FullJitter, Ceiling, Product;
  }

  lemma CeilingIs(attempt: nat, base: real, cap: real)
    ensures Ceiling(attempt, base, cap) == MinReal(cap, Product(base, Pow2(attempt)))
  {
  }

  lemma JitterIs(attempt: nat, base: real, cap: real, draw: real)
    ensures FullJitter(attempt, base, cap, draw) == Some(Product(draw, Ceiling(attempt, base, cap)))
  {
    hide Ceiling;
  }

  // Exactly the negative attempts are refused. The delay lies between zero and the ceiling, and
  // short of the ceiling unless that is zero.
  lemma DelayWithinCeiling(attempt: int, base: real, cap: real, draw: real)
    requires 0.0 <= draw < 1.0
    ensures attempt < 0 <==> FullJitter(attempt, base, cap, draw).None?
    ensures attempt >= 0 ==>
              var delay, ceiling := FullJitter(attempt, base, cap, draw).value, Ceiling(attempt, base, cap);
              && (ceiling > 0.0 ==> 0.0 <= delay < ceiling)
              && (ceiling == 0.0 ==> delay == 0.0)
              && (ceiling < 0.0 ==> ceiling < delay <= 0.0)
  {
    hide Ceiling, Scaled;
    if attempt >= 0 {
      Fraction(draw, Ceiling(attempt, base, cap));
    }
  }

  // So the half-open interval that the documentation promises holds for every draw if and only
  // if the ceiling is positive.
  lemma HalfOpenIffCeilingPositive(attempt: nat, base: real, cap: real)
    ensures (forall draw: real | 0.0 <= draw < 1.0 ::
               0.0 <= FullJitter(attempt, base, cap, draw).value < Ceiling(attempt, base, cap))
            <==> Ceiling(attempt, base, cap) > 0.0
  {
    hide Ceiling;
    var ceiling := Ceiling(attempt, base, cap);
    if ceiling > 0.0 {
      forall draw: real | 0.0 <= draw < 1.0
        ensures 0.0 <= FullJitter(attempt, base, cap, draw).value < ceiling
      {
        Fraction(draw, ceiling);
      }
    } else {
      Fraction(0.0, ceiling);
      assert FullJitter(attempt, base, cap, 0.0).value >= ceiling;
    }
  }

  lemma Fraction(draw: real, c: real)
    requires 0.0 <= draw < 1.0
    ensures c > 0.0 ==> 0.0 <= Scaled(draw, c) < c
    ensures c == 0.0 ==> Scaled(draw, c) == 0.0
    ensures c < 0.0 ==> c < Scaled(draw, c) <= 0.0
  {
    assert (1.0 - draw) * c == c - draw * c;
    if c > 0.0 {
      assert (1.0 - draw) * c > 0.0;
    } else if c < 0.0 {
      assert (1.0 - draw) * c < 0.0;
    }
  }

  // The sum of the ceilings of the attempts below `n`.
  function CeilingSum(n: nat, base: real, cap: real): real {
    if n == 0 then 0.0 else CeilingSum(n - 1, base, cap) + Ceiling(n - 1, base, cap)
  }

  lemma {:induction false} CeilingSumGrows(m: nat, n: nat, base: real, cap: real)
    requires m <= n && base >= 0.0 && cap >= 0.0
    ensures 0.0 <= CeilingSum(m, base, cap) <= CeilingSum(n, base, cap)
  {
    if m < n {
      CeilingSumGrows(m, n - 1, base, cap);
      CeilingGrows(n - 1, base, cap);
    } else if n > 0 {
      CeilingSumGrows(m - 1, n - 1, base, cap);
      CeilingGrows(n - 1, base, cap);
    }
  }
}

/**
 * The reconnect supervisor. One iteration of its loop is driven by one `Epoch` of the
 * environment: how the open went, what the connection read, how it ended, what the caller did to
 * the channel set meanwhile, and the random draw.
 */
module SupervisorSpec {
  import opened Prelude
  import opened Backoff
  import SseSpec

  datatype Config = Config(reconnect: bool, attempts: int, base: real, cap: real)

  datatype ClientState = Disconnected | Connected | Reconnecting | Error

  // A wake of a parked supervisor: the channel set it finds, and whether it should still run.
  datatype Wake = Wake(desired: set<string>, running: bool)

  datatype Epoch =
    | OpenFails(running: bool, draw: real, desiredNext: set<string>, runningNext: bool)
    | Lives(
        sse: bool,                  // receive-only transport: channels are fixed at connect time
        lines: seq<string>,         // the SSE lines the epoch consumed
        terminal: bool,             // it ended with a terminal error
        running: bool,              // the client should still run at its end
        bounced: bool,              // the close was deliberate
        desired: set<string>,       // the channel set at its end
        wakes: seq<Wake>,           // wakes while parked
        draw: real,                 // the backoff draw, if it backs off
        desiredNext: set<string>,   // the channel set after that sleep
        runningNext: bool)

  datatype Act =
    | Dial(channels: set<string>, cursor: Option<string>)
    | Opened
    | Sleep(attempt: nat, delay: real)

  datatype Status = Looping | Parked | Stopped

  datatype Supervisor = Supervisor(
    status: Status,
    state: ClientState,
    attempt: nat,
    cursor: Option<string>,
    desired: set<string>,
    log: seq<Act>)

  function Begin(desired: set<string>): Supervisor {
    Supervisor(Looping, Disconnected, 0, None, desired, [])
  }

  predicate ShouldRetry(cfg: Config, attempt: nat) {
    cfg.reconnect && (cfg.attempts == 0 || attempt < cfg.attempts)
  }

  // Sleep out a backoff, count it, and go round the loop if still wanted.
  function BackOff(cfg: Config, s: Supervisor, draw: real, desired: set<string>, running: bool): Supervisor {
    var delay := FullJitter(s.attempt, cfg.base, cfg.cap, draw).value;
    Again(s.(attempt := s.attempt + 1, log := s.log + [Sleep(s.attempt, delay)], desired := desired), running)
  }

  function Again(s: Supervisor, running: bool): Supervisor {
    if running then s else s.(status := Stopped, state := Disconnected)
  }

  // The parking loop: re-check the channel set on every wake.
  function Park(s: Supervisor, wakes: seq<Wake>): Supervisor
    decreases |wakes|
  {
    if s.desired != {} then s
    else if wakes == [] then s.(status := Parked)
    else if !wakes[0].running then s.(status := Stopped, state := Disconnected, desired := wakes[0].desired)
    else Park(s.(desired := wakes[0].desired), wakes[1..])
  }

  function Harvest(s: Supervisor, ep: Epoch): Option<string> {
    if ep.Lives? && ep.sse then SseSpec.LastId(s.cursor, ep.lines) else s.cursor
  }

  predicate Deliberate(ep: Epoch) {
    ep.Lives? && (ep.bounced || (ep.sse && ep.desired == {}))
  }

  // One iteration of the loop.
  function Iterate(cfg: Config, s: Supervisor, ep: Epoch): Supervisor {
    var dialed := s.(log := s.log + [Dial(s.desired, s.cursor)]);
    match ep
    case OpenFails(running, draw, desiredNext, runningNext) =>
      if !running then dialed.(status := Stopped)
      else if ShouldRetry(cfg, s.attempt)
      then BackOff(cfg, dialed.(state := Reconnecting), draw, desiredNext, runningNext)
      else dialed.(status := Stopped, state := Error)
    case Lives(sse, lines, terminal, running, bounced, desired, wakes, draw, desiredNext, runningNext) =>
      var ended := dialed.(log := dialed.log + [Opened], attempt := 0,
                           cursor := Harvest(s, ep), desired := desired, state := Connected);
      if !running || terminal then ended.(status := Stopped, state := Disconnected)
      else if Deliberate(ep)
      then if sse then Park(ended.(state := Reconnecting), wakes) else ended.(state := Reconnecting)
      else if !cfg.reconnect then ended.(status := Stopped, state := Disconnected)
      else BackOff(cfg, ended.(state := Reconnecting), draw, desiredNext, runningNext)
  }

  function RunAll(cfg: Config, desired: set<string>, script: seq<Epoch>): Supervisor {
    if script == [] then Begin(desired)
    else
      var s := RunAll(cfg, desired, script[..|script| - 1]);
      if s.status == Looping then Iterate(cfg, s, script[|script| - 1]) else s
  }

  // ---------------------------------------------------------------- the retry bound

  // The backoffs slept since the last successful open, oldest first.
  function SleepsSinceOpen(log: seq<Act>): seq<Act> {
    if log == [] then []
    else
      var n := |log| - 1;
      match log[n]
      case Opened => []
      case Sleep(_, _) => SleepsSinceOpen(log[..n]) + [log[n]]
      case Dial(_, _) => SleepsSinceOpen(log[..n])
  }

  function TotalDelay(sleeps: seq<Act>): real {
    if sleeps == [] then 0.0
    else
      var last := sleeps[|sleeps| - 1];
      TotalDelay(sleeps[..|sleeps| - 1]) + if last.Sleep? then last.delay else 0.0
  }

  // Sleep number `k` since the last open is the backoff of attempt `k`, and there are exactly
  // `attempt` of them.
  ghost predicate CounterCountsSleeps(s: Supervisor) {
    var sleeps := SleepsSinceOpen(s.log);
    && |sleeps| == s.attempt
    && (forall k | 0 <= k < |sleeps| :: sleeps[k].Sleep? && sleeps[k].attempt == k)
  }

  ghost predicate Draws(script: seq<Epoch>) {
    forall i | 0 <= i < |script| :: 0.0 <= script[i].draw < 1.0
  }

  ghost predicate SupInv(cfg: Config, s: Supervisor) {
    && CounterCountsSleeps(s)
    && (cfg.attempts > 0 ==> s.attempt <= cfg.attempts)
    && (cfg.base >= 0.0 && cfg.cap >= 0.0 ==>
          TotalDelay(SleepsSinceOpen(s.log)) <= CeilingSum(s.attempt, cfg.base, cfg.cap))
  }

  lemma SleepsStep(log: seq<Act>, a: Act)
    ensures SleepsSinceOpen(log + [a]) ==
      match a case Opened => [] case Sleep(_, _) => SleepsSinceOpen(log) + [a] case Dial(_, _) => SleepsSinceOpen(log)
  {
    assert (log + [a])[..|log|] == log;
  }

  lemma TotalStep(sleeps: seq<Act>, a: Act)
    ensures TotalDelay(sleeps + [a]) == TotalDelay(sleeps) + if a.Sleep? then a.delay else 0.0
  {
    assert (sleeps + [a])[..|sleeps|] == sleeps;
  }

  lemma BackOffKeepsInv(cfg: Config, s: Supervisor, draw: real, desired: set<string>, running: bool)
    requires SupInv(cfg, s) && 0.0 <= draw < 1.0
    requires cfg.attempts > 0 ==> s.attempt < cfg.attempts
    ensures SupInv(cfg, BackOff(cfg, s, draw, desired, running))
  {
    hide SleepsSinceOpen, TotalDelay, FullJitter, Ceiling;
    assert FullJitter(s.attempt, cfg.base, cfg.cap, draw).Some? by { SomeDelay(s.attempt, cfg, draw); }
    var delay := FullJitter(s.attempt, cfg.base, cfg.cap, draw).value;
    SleepsStep(s.log, Sleep(s.attempt, delay));
    TotalStep(SleepsSinceOpen(s.log), Sleep(s.attempt, delay));
    if cfg.base >= 0.0 && cfg.cap >= 0.0 {
      CeilingGrows(s.attempt, cfg.base, cfg.cap);
      DelayWithinCeiling(s.attempt, cfg.base, cfg.cap, draw);
    }
  }

  lemma SomeDelay(attempt: nat, cfg: Config, draw: real)
    ensures FullJitter(attempt, cfg.base, cfg.cap, draw).Some?
  {
  }

  lemma {:induction false} ParkOnlyWatches(s: Supervisor, wakes: seq<Wake>)
    ensures var p := Park(s, wakes);
            && p.log == s.log && p.attempt == s.attempt && p.cursor == s.cursor
            && (s.status == Looping && p.status == Looping ==> p.desired != {})
    decreases |wakes|
  {
    if s.desired == {} && wakes != [] && wakes[0].running {
      ParkOnlyWatches(s.(desired := wakes[0].desired), wakes[1..]);
    }
  }

  lemma DialKeepsInv(cfg: Config, s: Supervisor, dial: Act, state: ClientState)
    requires SupInv(cfg, s) && dial.Dial?
    ensures SupInv(cfg, s.(log := s.log + [dial], state := state))
  {
    hide TotalDelay;
    SleepsStep(s.log, dial);
  }

  lemma OpenedInv(cfg: Config, s: Supervisor)
    requires s.attempt == 0 && s.log != [] && s.log[|s.log| - 1] == Opened
    ensures SupInv(cfg, s)
  {
  }

  lemma InvReadsLog(cfg: Config, s: Supervisor, s': Supervisor)
    requires SupInv(cfg, s) && s'.log == s.log && s'.attempt == s.attempt
    ensures SupInv(cfg, s')
  {
  }

  lemma IterateKeepsInv(cfg: Config, s: Supervisor, ep: Epoch)
    requires SupInv(cfg, s) && 0.0 <= ep.draw < 1.0
    ensures SupInv(cfg, Iterate(cfg, s, ep))
  {
    hide SupInv, BackOff, Park, Harvest;
    var dial := Dial(s.desired, s.cursor);
    match ep
    case OpenFails(running, draw, desiredNext, runningNext) =>
      DialKeepsInv(cfg, s, dial, s.state);
      DialKeepsInv(cfg, s, dial, Reconnecting);
      var dialed := s.(log := s.log + [dial]);
      if running && ShouldRetry(cfg, s.attempt) {
        BackOffKeepsInv(cfg, dialed.(state := Reconnecting), draw, desiredNext, runningNext);
      }
      InvReadsLog(cfg, dialed, dialed.(status := Stopped));
      InvReadsLog(cfg, dialed, dialed.(status := Stopped, state := Error));
    case Lives(sse, lines, terminal, running, bounced, desired, wakes, draw, desiredNext, runningNext) =>
      var ended := s.(log := s.log + [dial] + [Opened], attempt := 0, cursor := Harvest(s, ep),
                      desired := desired, state := Reconnecting);
      OpenedInv(cfg, ended);
      InvReadsLog(cfg, ended, ended.(status := Stopped, state := Disconnected));
      ParkOnlyWatches(ended, wakes);
      InvReadsLog(cfg, ended, Park(ended, wakes));
      BackOffKeepsInv(cfg, ended, draw, desiredNext, runningNext);
  }

  lemma {:induction false} RetryIsBounded(cfg: Config, desired: set<string>, script: seq<Epoch>)
    requires Draws(script)
    ensures SupInv(cfg, RunAll(cfg, desired, script))
  {
    if script != [] {
      hide SupInv, Iterate;
      var n := |script| - 1;
      RetryIsBounded(cfg, desired, script[..n]);
      if RunAll(cfg, desired, script[..n]).status == Looping {
        IterateKeepsInv(cfg, RunAll(cfg, desired, script[..n]), script[n]);
      }
    }
  }

  // With N > 0 attempts configured: in every run the counter stays in 0..N, it is exactly the
  // number of backoffs slept since the last successful open, those backoffs are for attempts
  // 0, 1, 2, ..., and together they sleep no longer than the sum of the first N ceilings.
  lemma AtMostNBackoffsBetweenOpens(cfg: Config, desired: set<string>, script: seq<Epoch>)
    requires Draws(script) && cfg.attempts > 0 && cfg.base >= 0.0 && cfg.cap >= 0.0
    ensures var s := RunAll(cfg, desired, script);
            var sleeps := SleepsSinceOpen(s.log);
            && |sleeps| == s.attempt <= cfg.attempts
            && (forall k | 0 <= k < |sleeps| :: sleeps[k].Sleep? && sleeps[k].attempt == k)
            && TotalDelay(sleeps) <= CeilingSum(cfg.attempts, cfg.base, cfg.cap)
  {
    hide RunAll, SleepsSinceOpen, TotalDelay, CeilingSum;
    RetryIsBounded(cfg, desired, script);
    CeilingSumGrows(RunAll(cfg, desired, script).attempt, cfg.attempts, cfg.base, cfg.cap);
  }

  // ---------------------------------------------------------------- giving up

  predicate KeepsFailing(script: seq<Epoch>) {
    forall i | 0 <= i < |script| :: script[i].OpenFails? && script[i].running && script[i].runningNext
  }

  function Continue(cfg: Config, s: Supervisor, script: seq<Epoch>): Supervisor
    decreases |script|
  {
    if script == [] || s.status != Looping then s else Continue(cfg, Iterate(cfg, s, script[0]), script[1..])
  }

  lemma {:induction false} ContinueIsRunAll(cfg: Config, desired: set<string>, a: seq<Epoch>, b: seq<Epoch>)
    ensures RunAll(cfg, desired, a + b) == Continue(cfg, RunAll(cfg, desired, a), b)
    decreases |b|
  {
    hide Iterate;
    if b == [] {
      assert a + b == a;
    } else {
      assert a + b == (a + [b[0]]) + b[1..];
      assert (a + [b[0]])[..|a|] == a;
      ContinueIsRunAll(cfg, desired, a + [b[0]], b[1..]);
      StoppedStays(cfg, RunAll(cfg, desired, a), b[1..]);
    }
  }

  lemma StoppedStays(cfg: Config, s: Supervisor, script: seq<Epoch>)
    ensures s.status != Looping ==> Continue(cfg, s, script) == s
  {
  }

  // If opens keep failing, a client with retries left at attempt `a` is still trying after
  // `N - a` failures and gives up in ERROR with the next one, never earlier and never later.
  lemma {:induction false} FailingOpensEndInError(cfg: Config, s: Supervisor, script: seq<Epoch>)
    requires cfg.reconnect && s.status == Looping && cfg.attempts > 0 && s.attempt <= cfg.attempts
    requires KeepsFailing(script)
    ensures var r := Continue(cfg, s, script);
            if |script| <= cfg.attempts - s.attempt
            then r.status == Looping && r.attempt == s.attempt + |script|
            else r.status == Stopped && r.state == Error && r.attempt == cfg.attempts
    decreases |script|
  {
    if script != [] {
      var next := Iterate(cfg, s, script[0]);
      if s.attempt < cfg.attempts {
        FailingOpensEndInError(cfg, next, script[1..]);
      } else {
        StoppedStays(cfg, next, script[1..]);
      }
    }
  }

  // With unlimited attempts no number of failing opens stops the loop.
  lemma {:induction false} UnlimitedNeverGivesUp(cfg: Config, s: Supervisor, script: seq<Epoch>)
    requires cfg.reconnect && s.status == Looping && cfg.attempts == 0 && KeepsFailing(script)
    ensures Continue(cfg, s, script).status == Looping
    ensures Continue(cfg, s, script).attempt == s.attempt + |script|
    decreases |script|
  {
    if script != [] {
      UnlimitedNeverGivesUp(cfg, Iterate(cfg, s, script[0]), script[1..]);
    }
  }

  // ERROR is entered only by a failed open with no retry left.
  lemma ErrorMeansRetriesExhausted(cfg: Config, s: Supervisor, ep: Epoch)
    requires s.status == Looping && s.state != Error
    ensures Iterate(cfg, s, ep).state == Error <==>
            ep.OpenFails? && ep.running && !ShouldRetry(cfg, s.attempt)
  {
    if ep.Lives? {
      ParkStates(s.(log := s.log + [Dial(s.desired, s.cursor)] + [Opened], attempt := 0, cursor := Harvest(s, ep),
                    desired := ep.desired, state := Reconnecting), ep.wakes);
    }
  }

  lemma {:induction false} ParkStates(s: Supervisor, wakes: seq<Wake>)
    ensures Park(s, wakes).state == s.state || Park(s, wakes).state == Disconnected
    decreases |wakes|
  {
    if s.desired == {} && wakes != [] && wakes[0].running {
      ParkStates(s.(desired := wakes[0].desired), wakes[1..]);
    }
  }

  // ---------------------------------------------------------------- stopping

  // A connection that ends with a terminal error, or after the client was told to stop, ends the
  // run: whatever the environment offers afterwards, there is no other sleep and no other dial.
  lemma EndedForGood(cfg: Config, desired: set<string>, script: seq<Epoch>, ep: Epoch, later: seq<Epoch>)
    requires RunAll(cfg, desired, script).status == Looping
    requires ep.Lives? && (ep.terminal || !ep.running)
    ensures var s := RunAll(cfg, desired, script);
            var r := RunAll(cfg, desired, script + [ep] + later);
            && r.status == Stopped && r.state == Disconnected
            && r.log == s.log + [Dial(s.desired, s.cursor), Opened]
  {
    hide Iterate, Harvest;
    var s := RunAll(cfg, desired, script);
    assert (script + [ep])[..|script|] == script;
    TerminalStops(cfg, s, ep);
    ContinueIsRunAll(cfg, desired, script + [ep], later);
    StoppedStays(cfg, Iterate(cfg, s, ep), later);
  }

  lemma TerminalStops(cfg: Config, s: Supervisor, ep: Epoch)
    requires ep.Lives? && (ep.terminal || !ep.running)
    ensures var r := Iterate(cfg, s, ep);
            && r.status == Stopped && r.state == Disconnected
            && r.log == s.log + [Dial(s.desired, s.cursor), Opened]
  {
    hide Harvest;
    assert s.log + [Dial(s.desired, s.cursor)] + [Opened] == s.log + [Dial(s.desired, s.cursor), Opened];
  }

  ghost predicate NeverSleeps(log: seq<Act>) {
    forall i | 0 <= i < |log| :: !log[i].Sleep?
  }

  // With reconnect disabled a run goes on past a connection only when that connection was
  // closed on purpose; so a run that still goes on has never slept and never failed to open.
  lemma {:induction false} NoReconnectFollowsOnlyBounces(cfg: Config, desired: set<string>, script: seq<Epoch>)
    requires !cfg.reconnect && RunAll(cfg, desired, script).status == Looping
    ensures forall i | 0 <= i < |script| :: Deliberate(script[i]) && script[i].running && !script[i].terminal
    ensures NeverSleeps(RunAll(cfg, desired, script).log)
  {
    if script != [] {
      hide Iterate, Deliberate;
      var n := |script| - 1;
      LoopingBefore(cfg, desired, script);
      NoReconnectFollowsOnlyBounces(cfg, desired, script[..n]);
      NoReconnectStep(cfg, RunAll(cfg, desired, script[..n]), script[n]);
    }
  }

  lemma NoReconnectStep(cfg: Config, s: Supervisor, ep: Epoch)
    requires !cfg.reconnect && s.status == Looping && Iterate(cfg, s, ep).status == Looping
    ensures Deliberate(ep) && ep.running && !ep.terminal
    ensures Iterate(cfg, s, ep).log == s.log + [Dial(s.desired, s.cursor), Opened]
  {
    if Deliberate(ep) && ep.running && !ep.terminal {
      BounceNeverBacksOff(cfg, s, ep);
    }
  }

  // ---------------------------------------------------------------- bounces and parking

  // A deliberate change of the channel set never sleeps and never moves the counter, whatever
  // the reconnect policy; and a receive-only transport is redialled only with channels, after
  // any number of stray wakes.
  lemma BounceNeverBacksOff(cfg: Config, s: Supervisor, ep: Epoch)
    requires s.status == Looping && ep.Lives? && ep.running && !ep.terminal
    requires ep.bounced || (ep.sse && ep.desired == {})
    ensures var r := Iterate(cfg, s, ep);
            && r.log == s.log + [Dial(s.desired, s.cursor), Opened]
            && r.attempt == 0
            && (ep.sse && r.status == Looping ==> r.desired != {})
            && (!ep.sse || ep.desired != {} ==>
                  r.status == Looping && r.state == Reconnecting && r.desired == ep.desired)
            && (ep.sse && ep.desired == {} && ep.wakes == [] ==> r.status == Parked && r.state == Reconnecting)
  {
    ParkOnlyWatches(s.(log := s.log + [Dial(s.desired, s.cursor)] + [Opened], attempt := 0, cursor := Harvest(s, ep),
                       desired := ep.desired, state := Reconnecting), ep.wakes);
    assert s.log + [Dial(s.desired, s.cursor)] + [Opened] == s.log + [Dial(s.desired, s.cursor), Opened];
  }

  // Parked wakes with an empty set change nothing: the first wake that finds channels redials.
  lemma {:induction false} StrayWakesStayParked(s: Supervisor, stray: nat, wakes: seq<Wake>)
    requires s.status == Looping && s.desired == {} && stray < |wakes|
    requires forall i | 0 <= i < stray :: wakes[i].running && wakes[i].desired == {}
    requires wakes[stray].running && wakes[stray].desired != {}
    ensures Park(s, wakes) == s.(desired := wakes[stray].desired)
    ensures Park(s, wakes[..stray]).status == Parked
    decreases stray
  {
    if stray > 0 {
      assert wakes[..stray][1..] == wakes[1..][..stray - 1];
      StrayWakesStayParked(s, stray - 1, wakes[1..]);
    }
  }

  // While parked, a wake that finds the client stopped ends the run, whatever the channel set.
  lemma {:induction false} StoppedWakeEndsTheRun(s: Supervisor, stray: nat, wakes: seq<Wake>)
    requires s.status == Looping && s.desired == {} && stray < |wakes| && !wakes[stray].running
    requires forall i | 0 <= i < stray :: wakes[i].running && wakes[i].desired == {}
    ensures Park(s, wakes).status == Stopped && Park(s, wakes).state == Disconnected
    decreases stray
  {
    if stray > 0 {
      StoppedWakeEndsTheRun(s, stray - 1, wakes[1..]);
    }
  }

  // ---------------------------------------------------------------- no redial without a sleep

  // The connection was given up on purpose: bounced, or receive-only with no channel left.
  predicate OnPurpose(ep: Epoch) {
    ep.Lives? && (ep.bounced || (ep.sse && ep.desired == {}))
  }

  // A connection that was lost sleeps out exactly one backoff, of attempt 0, and counts it.
  lemma LostConnectionBacksOff(
      cfg: Config, desired: set<string>, script: seq<Epoch>, ep: Epoch, pow: nat -> real)
    requires Doubling(pow) && cfg.reconnect && RunAll(cfg, desired, script).status == Looping
    requires ep.Lives? && ep.running && !ep.terminal && !OnPurpose(ep)
    ensures var (s, r) := (RunAll(cfg, desired, script), RunAll(cfg, desired, script + [ep]));
            && r.log == s.log + [Dial(s.desired, s.cursor), Opened,
                                 Sleep(0, Product(ep.draw, MinReal(cfg.cap, Product(cfg.base, pow(0)))))]
            && r.attempt == 1 && r.desired == ep.desiredNext
            && (r.status, r.state) == if ep.runningNext then (Looping, Reconnecting) else (Stopped, Disconnected)
  {
    var s := RunAll(cfg, desired, script);
    assert (script + [ep])[..|script|] == script;
    DelayIsDrawnShare(0, cfg.base, cfg.cap, ep.draw, pow);
    hide FullJitter, Ceiling, Product, Harvest;
    var delay := FullJitter(0, cfg.base, cfg.cap, ep.draw).value;
    assert s.log + [Dial(s.desired, s.cursor)] + [Opened] + [Sleep(0, delay)]
        == s.log + [Dial(s.desired, s.cursor), Opened, Sleep(0, delay)];
  }

  // An open that fails while a retry is left sleeps out exactly one backoff, of the current
  // attempt, and counts it.
  lemma FailedOpenBacksOff(
      cfg: Config, desired: set<string>, script: seq<Epoch>, ep: Epoch, pow: nat -> real)
    requires Doubling(pow) && cfg.reconnect && RunAll(cfg, desired, script).status == Looping
    requires ep.OpenFails? && ep.running
    requires cfg.attempts == 0 || RunAll(cfg, desired, script).attempt < cfg.attempts
    ensures var (s, r) := (RunAll(cfg, desired, script), RunAll(cfg, desired, script + [ep]));
            && r.log == s.log + [Dial(s.desired, s.cursor),
                                 Sleep(s.attempt, Product(ep.draw,
                                                          MinReal(cfg.cap, Product(cfg.base, pow(s.attempt)))))]
            && r.attempt == s.attempt + 1 && r.cursor == s.cursor && r.desired == ep.desiredNext
            && (r.status, r.state) == if ep.runningNext then (Looping, Reconnecting) else (Stopped, Disconnected)
  {
    var s := RunAll(cfg, desired, script);
    assert (script + [ep])[..|script|] == script;
    DelayIsDrawnShare(s.attempt, cfg.base, cfg.cap, ep.draw, pow);
    hide FullJitter, Ceiling, Product;
    var delay := FullJitter(s.attempt, cfg.base, cfg.cap, ep.draw).value;
    assert s.log + [Dial(s.desired, s.cursor)] + [Sleep(s.attempt, delay)]
        == s.log + [Dial(s.desired, s.cursor), Sleep(s.attempt, delay)];
  }

  // An open that fails after the client was stopped, or a lost connection with reconnect disabled,
  // ends the run without a sleep; the first leaves the connection state as it was.
  lemma EndsWithoutASleep(cfg: Config, desired: set<string>, script: seq<Epoch>, ep: Epoch)
    requires RunAll(cfg, desired, script).status == Looping
    requires (ep.OpenFails? && !ep.running)
             || (ep.Lives? && ep.running && !ep.terminal && !OnPurpose(ep) && !cfg.reconnect)
    ensures var (s, r) := (RunAll(cfg, desired, script), RunAll(cfg, desired, script + [ep]));
            && r.status == Stopped && r.state == (if ep.OpenFails? then s.state else Disconnected)
            && r.log == s.log + [Dial(s.desired, s.cursor)] + if ep.Lives? then [Opened] else []
  {
    var s := RunAll(cfg, desired, script);
    assert (script + [ep])[..|script|] == script;
    hide Harvest;
    assert s.log + [Dial(s.desired, s.cursor)] + [] == s.log + [Dial(s.desired, s.cursor)];
  }

  function Dials(log: seq<Act>): nat {
    if log == [] then 0 else Dials(log[..|log| - 1]) + if log[|log| - 1].Dial? then 1 else 0
  }

  lemma DialsStep(log: seq<Act>, a: Act)
    ensures Dials(log + [a]) == Dials(log) + if a.Dial? then 1 else 0
  {
    assert (log + [a])[..|log|] == log;
  }

  // The log ends in a dial with no sleep behind it.
  predicate Unslept(log: seq<Act>) {
    log != [] && (log[|log| - 1].Dial? || (log[|log| - 1].Opened? && Unslept(log[..|log| - 1])))
  }

  // Dial number `n`, counting from 0, follows a dial with no sleep in between.
  predicate DialsAtOnce(log: seq<Act>, n: nat) {
    log != [] &&
    var k := |log| - 1;
    || DialsAtOnce(log[..k], n)
    || (log[k].Dial? && Dials(log[..k]) == n && Unslept(log[..k]))
  }

  // Every redial without a sleep follows a connection given up on purpose.
  ghost predicate RedialsOk(s: Supervisor, script: seq<Epoch>) {
    && (s.status == Looping ==> Dials(s.log) == |script|)
    && (forall n: nat | DialsAtOnce(s.log, n) :: 0 < n <= |script| && OnPurpose(script[n - 1]))
    && (s.status == Looping && Unslept(s.log) ==> script != [] && OnPurpose(script[|script| - 1]))
  }

  lemma LogStep(log: seq<Act>, a: Act, n: nat)
    ensures Unslept(log + [a]) <==> a.Dial? || (a.Opened? && Unslept(log))
    ensures DialsAtOnce(log + [a], n) <==> DialsAtOnce(log, n) || (a.Dial? && Dials(log) == n && Unslept(log))
  {
    assert (log + [a])[..|log|] == log && (log + [a])[|log|] == a;
  }

  // What one iteration appends to the log.
  lemma IterateAppends(cfg: Config, s: Supervisor, ep: Epoch) returns (tail: seq<Act>)
    ensures Iterate(cfg, s, ep).log == s.log + [Dial(s.desired, s.cursor)] + tail
    ensures tail == [] || (|tail| == 1 && !tail[0].Dial?)
            || (|tail| == 2 && tail[0].Opened? && tail[1].Sleep?)
    ensures (tail == [] || tail == [Opened]) && Iterate(cfg, s, ep).status == Looping && s.status == Looping ==>
              OnPurpose(ep)
  {
    SomeDelay(s.attempt, cfg, ep.draw);
    SomeDelay(0, cfg, ep.draw);
    hide FullJitter, Harvest;
    var first := s.log + [Dial(s.desired, s.cursor)];
    match ep
    case OpenFails(running, draw, _, _) =>
      if running && ShouldRetry(cfg, s.attempt) {
        tail := [Sleep(s.attempt, FullJitter(s.attempt, cfg.base, cfg.cap, draw).value)];
      } else {
        tail := [];
        assert first + [] == first;
      }
    case Lives(sse, _, terminal, running, _, desired, wakes, draw, _, _) =>
      ParkOnlyWatches(s.(log := first + [Opened], attempt := 0, cursor := Harvest(s, ep),
                         desired := desired, state := Reconnecting), wakes);
      if running && !terminal && !OnPurpose(ep) && cfg.reconnect {
        var delay := FullJitter(0, cfg.base, cfg.cap, draw).value;
        tail := [Opened, Sleep(0, delay)];
        assert first + [Opened] + [Sleep(0, delay)] == first + [Opened, Sleep(0, delay)];
      } else {
        tail := [Opened];
      }
  }

  lemma AppendedTail(log: seq<Act>, tail: seq<Act>, n: nat)
    requires log != [] && log[|log| - 1].Dial?
    requires tail == [] || (|tail| == 1 && !tail[0].Dial?)
             || (|tail| == 2 && tail[0].Opened? && tail[1].Sleep?)
    ensures Dials(log + tail) == Dials(log)
    ensures DialsAtOnce(log + tail, n) <==> DialsAtOnce(log, n)
    ensures Unslept(log + tail) <==> tail == [] || tail == [Opened]
  {
    if tail == [] {
      assert log + tail == log;
    } else {
      DialsStep(log, tail[0]);
      LogStep(log, tail[0], n);
      if |tail| == 2 {
        assert log + tail == log + [tail[0]] + [tail[1]];
        DialsStep(log + [tail[0]], tail[1]);
        LogStep(log + [tail[0]], tail[1], n);
      } else {
        assert log + tail == log + [tail[0]];
      }
      hide Dials, DialsAtOnce, Unslept;
    }
  }

  lemma IterateRedials(cfg: Config, s: Supervisor, ep: Epoch, script: seq<Epoch>)
    requires s.status == Looping && RedialsOk(s, script)
    ensures RedialsOk(Iterate(cfg, s, ep), script + [ep])
  {
    var r := Iterate(cfg, s, ep);
    var dial := Dial(s.desired, s.cursor);
    var tail := IterateAppends(cfg, s, ep);
    hide Iterate, OnPurpose, Dials, DialsAtOnce, Unslept;
    DialsStep(s.log, dial);
    AppendedTail(s.log + [dial], tail, 0);
    forall n: nat | DialsAtOnce(r.log, n) ensures 0 < n <= |script + [ep]| && OnPurpose((script + [ep])[n - 1]) {
      AppendedTail(s.log + [dial], tail, n);
      LogStep(s.log, dial, n);
    }
  }

  // In every run, a dial follows another without a sleep in between only if the connection in
  // between was given up on purpose.
  lemma {:induction false} RedialsAreSpacedBySleeps(cfg: Config, desired: set<string>, script: seq<Epoch>)
    ensures forall n: nat | DialsAtOnce(RunAll(cfg, desired, script).log, n) ::
              0 < n <= |script| && OnPurpose(script[n - 1])
    ensures RedialsOk(RunAll(cfg, desired, script), script)
  {
    if script != [] {
      hide Iterate, RedialsOk, OnPurpose, DialsAtOnce;
      var k := |script| - 1;
      var s := RunAll(cfg, desired, script[..k]);
      RedialsAreSpacedBySleeps(cfg, desired, script[..k]);
      assert script == script[..k] + [script[k]];
      if s.status == Looping {
        IterateRedials(cfg, s, script[k], script[..k]);
      } else {
        StoppedRedials(s, script[..k], script[k]);
      }
      RedialsMean(RunAll(cfg, desired, script), script);
    }
  }

  lemma StoppedRedials(s: Supervisor, script: seq<Epoch>, ep: Epoch)
    requires s.status != Looping && RedialsOk(s, script)
    ensures RedialsOk(s, script + [ep])
  {
    hide DialsAtOnce, OnPurpose, Unslept;
  }

  lemma RedialsMean(s: Supervisor, script: seq<Epoch>)
    requires RedialsOk(s, script)
    ensures forall n: nat | DialsAtOnce(s.log, n) :: 0 < n <= |script| && OnPurpose(script[n - 1])
  {
    hide DialsAtOnce, OnPurpose, Unslept;
  }

  // ---------------------------------------------------------------- the cursor across epochs

  // Every line consumed by every opened SSE epoch of the script, in order.
  function LinesRead(script: seq<Epoch>): seq<string> {
    if script == [] then []
    else
      var n := |script| - 1;
      LinesRead(script[..n]) + if script[n].Lives? && script[n].sse then script[n].lines else []
  }

  lemma IterateCursor(cfg: Config, s: Supervisor, ep: Epoch)
    ensures Iterate(cfg, s, ep).cursor == Harvest(s, ep)
    ensures var r := Iterate(cfg, s, ep);
            |r.log| > |s.log| && r.log[..|s.log|] == s.log && r.log[|s.log|] == Dial(s.desired, s.cursor)
  {
    hide FullJitter;
    if ep.Lives? {
      ParkOnlyWatches(s.(log := s.log + [Dial(s.desired, s.cursor)] + [Opened], attempt := 0, cursor := Harvest(s, ep),
                         desired := ep.desired, state := Reconnecting), ep.wakes);
    }
  }

  // The cursor presented to each new epoch is the last id in all the lines consumed so far by all
  // earlier epochs: failed opens, epochs without an id and other transports never lose it.
  lemma {:induction false} CursorIsLastIdEverRead(cfg: Config, desired: set<string>, script: seq<Epoch>)
    requires script != [] ==> RunAll(cfg, desired, script[..|script| - 1]).status == Looping
    ensures RunAll(cfg, desired, script).cursor == SseSpec.LastId(None, LinesRead(script))
  {
    if script != [] {
      hide Iterate, SseSpec.LastId, RunAll;
      var n := |script| - 1;
      var s := RunAll(cfg, desired, script[..n]);
      if n > 0 {
        LoopingBefore(cfg, desired, script[..n]);
      }
      CursorIsLastIdEverRead(cfg, desired, script[..n]);
      LastRun(cfg, desired, script);
      IterateCursor(cfg, s, script[n]);
      if script[n].Lives? && script[n].sse {
        SseSpec.LastIdAppend(None, LinesRead(script[..n]), script[n].lines);
      } else {
        assert LinesRead(script) == LinesRead(script[..n]);
      }
    } else {
      hide Iterate;
    }
  }

  lemma LastRun(cfg: Config, desired: set<string>, script: seq<Epoch>)
    requires script != []
    ensures var s := RunAll(cfg, desired, script[..|script| - 1]);
            RunAll(cfg, desired, script)
            == if s.status == Looping then Iterate(cfg, s, script[|script| - 1]) else s
  {
    hide Iterate;
  }

  lemma LoopingBefore(cfg: Config, desired: set<string>, script: seq<Epoch>)
    requires script != [] && RunAll(cfg, desired, script).status == Looping
    ensures RunAll(cfg, desired, script[..|script| - 1]).status == Looping
  {
    hide Iterate;
  }

  // The dial that opens an iteration carries that cursor and the current channel set.
  lemma DialCarriesLastId(cfg: Config, desired: set<string>, script: seq<Epoch>, ep: Epoch)
    requires RunAll(cfg, desired, script).status == Looping
    ensures var s := RunAll(cfg, desired, script);
            var r := Iterate(cfg, s, ep);
            && |s.log| < |r.log|
            && r.log[|s.log|] == Dial(s.desired, SseSpec.LastId(None, LinesRead(script)))
  {
    if script != [] {
      LoopingBefore(cfg, desired, script);
    }
    hide RunAll, Iterate, SseSpec.LastId;
    CursorIsLastIdEverRead(cfg, desired, script);
    IterateCursor(cfg, RunAll(cfg, desired, script), ep);
  }
}

/** The supervisor's loop over the client's fields. */
module SupervisorObject {
  import opened Prelude
  import opened Backoff
  import opened SupervisorSpec
  import opened SseSpec
  import opened SseObject

  class Client {
    const cfg: Config
    var state: ClientState
    var desired: set<string>
    var log: seq<Act>
    var delivered: seq<string>

    constructor (cfg: Config, desired: set<string>)
      ensures this.cfg == cfg && state == Disconnected && this.desired == desired
      ensures log == [] && delivered == []
    {
      this.cfg, this.state, this.desired, this.log := cfg, Disconnected, desired, [];
      delivered := [];
    }

    ghost function View(status: Status, attempt: nat, cursor: Option<string>): Supervisor
      reads this
    {
      Supervisor(status, state, attempt, cursor, desired, log)
    }

    // Reads one SSE epoch to its end through the transport, and harvests its cursor.
    method ReadEpoch(cursor: Option<string>, lines: seq<string>) returns (harvested: Option<string>)
      modifies this`delivered
      ensures delivered == old(delivered) + RecvAll(cursor, lines).0
      ensures harvested == LastId(cursor, lines)
    {
      var transport := new SseTransport(cursor);
      transport.Open(lines);
      CallByCallIsOnePass(cursor, lines);
      CursorIsLastId(Fresh(cursor), lines);
      hide FeedAll, Scan, LastId;
      var open := true;
      ghost var got: seq<string> := [];
      assert got + RecvAll(cursor, lines).0 == RecvAll(cursor, lines).0;
      while open
        invariant fresh(transport) && transport.lines.Some?
        invariant delivered == old(delivered) + got
        invariant open ==>
          var later := RecvAll(transport.lastEventId, transport.lines.value);
          RecvAll(cursor, lines) == (got + later.0, later.1)
        invariant !open ==> (got, transport.lastEventId) == RecvAll(cursor, lines)
        decreases open, |transport.lines.value|
      {
        ghost var later := RecvAll(transport.lastEventId, transport.lines.value);
        ScanConsumes(Fresh(transport.lastEventId), transport.lines.value);
        var r := transport.Recv();
        assert got + [] == got;
        if r.Frame? {
          ghost var after := RecvAll(transport.lastEventId, transport.lines.value);
          assert later == ([r.payload] + after.0, after.1);
          assert got + ([r.payload] + after.0) == got + [r.payload] + after.0;
          delivered := delivered + [r.payload];
          got := got + [r.payload];
        } else {
          open := false;
        }
      }
      harvested := transport.lastEventId;
    }

    method BackOffFor(attempt: nat, draw: real)
      modifies this`log
      ensures log == old(log) + [Sleep(attempt, FullJitter(attempt, cfg.base, cfg.cap, draw).value)]
    {
      var delay := FullJitter(attempt, cfg.base, cfg.cap, draw);
      log := log + [Sleep(attempt, delay.value)];
    }

    // The parking loop; `status` says how it was left.
    method ParkWhileEmpty(wakes: seq<Wake>, ghost attempt: nat, ghost cursor: Option<string>)
      returns (status: Status)
      modifies this`state, this`desired
      ensures View(status, attempt, cursor) == Park(old(View(Looping, attempt, cursor)), wakes)
    {
      var i := 0;
      while desired == {}
        invariant 0 <= i <= |wakes| && state == old(state)
        invariant Park(old(View(Looping, attempt, cursor)), wakes) == Park(View(Looping, attempt, cursor), wakes[i..])
        decreases |wakes| - i
      {
        if i == |wakes| {
          return Parked;
        }
        var wake := wakes[i];
        assert wakes[i..][1..] == wakes[i + 1..];
        desired := wake.desired;
        if !wake.running {
          state := Disconnected;
          return Stopped;
        }
        i := i + 1;
      }
      status := Looping;
    }

    // The supervisor, driven by the environment's script.
    method Run(script: seq<Epoch>) returns (status: Status, ghost attempt: nat, ghost cursor: Option<string>)
      requires state == Disconnected && log == []
      modifies this
      ensures View(status, attempt, cursor) == RunAll(cfg, old(desired), script)
    {
      var tries: nat := 0;
      var resume: Option<string> := None;
      status := Looping;
      var i := 0;
      while i < |script| && status == Looping
        invariant 0 <= i <= |script|
        invariant View(status, tries, resume) == RunAll(cfg, old(desired), script[..i])
      {
        assert script[..i + 1][..i] == script[..i];
        status, tries, resume := RunEpoch(script[i], tries, resume);
        i := i + 1;
      }
      StoppedRunStays(cfg, old(desired), script, i);
      attempt, cursor := tries, resume;
    }

    method RunEpoch(ep: Epoch, tries: nat, resume: Option<string>)
      returns (status: Status, tries': nat, resume': Option<string>)
      modifies this
      ensures View(status, tries', resume') == Iterate(cfg, old(View(Looping, tries, resume)), ep)
    {
      status, tries', resume' := Looping, tries, resume;
      log := log + [Dial(desired, resume)];
      if ep.OpenFails? {
        if !ep.running {
          return Stopped, tries', resume';
        }
        if cfg.reconnect && (cfg.attempts == 0 || tries < cfg.attempts) {
          state := Reconnecting;
          BackOffFor(tries, ep.draw);
          tries' := tries + 1;
          desired := ep.desiredNext;
          if !ep.runningNext {
            status, state := Stopped, Disconnected;
          }
          return;
        }
        state := Error;
        return Stopped, tries', resume';
      }
      state := Connected;
      log := log + [Opened];
      tries' := 0;
      if ep.sse {
        resume' := ReadEpoch(resume, ep.lines);
      }
      desired := ep.desired;
      if !ep.running || ep.terminal {
        state := Disconnected;
        return Stopped, tries', resume';
      }
      if ep.bounced || (ep.sse && desired == {}) {
        state := Reconnecting;
        if ep.sse {
          status := ParkWhileEmpty(ep.wakes, tries', resume');
        }
        return;
      }
      if !cfg.reconnect {
        state := Disconnected;
        return Stopped, tries', resume';
      }
      state := Reconnecting;
      BackOffFor(tries', ep.draw);
      tries' := tries' + 1;
      desired := ep.desiredNext;
      if !ep.runningNext {
        status, state := Stopped, Disconnected;
      }
    }
  }

  lemma {:induction false} StoppedRunStays(cfg: Config, desired: set<string>, script: seq<Epoch>, i: nat)
    requires i <= |script|
    requires i == |script| || RunAll(cfg, desired, script[..i]).status != Looping
    ensures RunAll(cfg, desired, script) == RunAll(cfg, desired, script[..i])
    decreases |script| - i
  {
    hide Iterate;
    if i == |script| {
      assert script[..i] == script;
    } else {
      assert script[..i + 1][..i] == script[..i];
      StoppedRunStays(cfg, desired, script, i + 1);
    }
  }
}
