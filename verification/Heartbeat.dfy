/**
 * The heartbeat: sleep an interval, send a heartbeat, wait for the timeout, and close the
 * connection if nothing was read since the heartbeat was sent. Sleeps are exact and sends
 * instant; `heard` are the times at which frames were read, the first being the connect time.
 */
module Heartbeat {
  datatype Pace = Pace(start: real, interval: real, timeout: real)

  // The time of heartbeat number `k`, and of the check that follows it.
  function SentAt(p: Pace, k: nat): real {
    p.start + p.interval + k as real * (p.interval + p.timeout)
  }

  function CheckedAt(p: Pace, k: nat): real {
    SentAt(p, k) + p.timeout
  }

  ghost predicate Sorted(heard: seq<real>) {
    forall i, j | 0 <= i <= j < |heard| :: heard[i] <= heard[j]
  }

  // The latest read at or before `t`.
  function LastRead(heard: seq<real>, t: real): real
    requires heard != []
  {
    if |heard| == 1 || heard[|heard| - 1] <= t then heard[|heard| - 1]
    else LastRead(heard[..|heard| - 1], t)
  }

  lemma {:induction false} LastReadIs(heard: seq<real>, t: real)
    requires heard != [] && Sorted(heard) && heard[0] <= t
    ensures LastRead(heard, t) in heard && LastRead(heard, t) <= t
    ensures forall r | r in heard && r <= t :: r <= LastRead(heard, t)
    decreases |heard|
  {
    var n := |heard| - 1;
    if |heard| > 1 && heard[n] > t {
      LastReadIs(heard[..n], t);
      assert heard == heard[..n] + [heard[n]];
    }
  }

  // Check number `k` finds the connection silent.
  predicate Silent(p: Pace, heard: seq<real>, k: nat)
    requires heard != []
  {
    LastRead(heard, CheckedAt(p, k)) < SentAt(p, k)
  }

  // A check closes the connection exactly when no frame was read between its heartbeat and it.
  lemma SilentIffNothingRead(p: Pace, heard: seq<real>, k: nat)
    requires heard != [] && Sorted(heard) && heard[0] == p.start
    requires p.interval >= 0.0 && p.timeout >= 0.0
    ensures Silent(p, heard, k) <==> forall r | r in heard :: !(SentAt(p, k) <= r <= CheckedAt(p, k))
  {
    ChecksAdvance(p, k);
    LastReadIs(heard, CheckedAt(p, k));
  }

  lemma ChecksAdvance(p: Pace, k: nat)
    requires p.interval >= 0.0 && p.timeout >= 0.0
    ensures p.start <= SentAt(p, k) <= CheckedAt(p, k)
    ensures SentAt(p, k + 1) == CheckedAt(p, k) + p.interval
    ensures SentAt(p, 0) == p.start + p.interval
  {
    Multiple(k, p.interval + p.timeout);
  }

  lemma Multiple(k: nat, period: real)
    requires period >= 0.0
    ensures 0.0 <= k as real * period
    ensures (k + 1) as real * period == k as real * period + period
  {
  }

  // Check number `k` is the first that finds the connection silent.
  ghost predicate FirstSilent(p: Pace, heard: seq<real>, k: nat)
    requires heard != []
  {
    Silent(p, heard, k) && forall i: nat | i < k :: !Silent(p, heard, i)
  }

  // The connection closed by check `k` had been silent for at least a timeout, and at most an
  // interval and two timeouts, since the last frame read before the check.
  lemma ClosedInTime(p: Pace, heard: seq<real>, k: nat)
    requires heard != [] && Sorted(heard) && heard[0] == p.start
    requires p.interval >= 0.0 && p.timeout >= 0.0
    requires FirstSilent(p, heard, k)
    ensures var last := LastRead(heard, CheckedAt(p, k));
            last + p.timeout < CheckedAt(p, k) <= last + p.interval + 2.0 * p.timeout
  {
    ChecksAdvance(p, k);
    LastReadIs(heard, CheckedAt(p, k));
    hide LastRead, SentAt, Sorted;
    if k > 0 {
      assert !Silent(p, heard, k - 1);
      ChecksAdvance(p, k - 1);
      LastReadGrows(p, heard, k);
    }
  }

  lemma LastReadGrows(p: Pace, heard: seq<real>, k: nat)
    requires k > 0 && heard != [] && Sorted(heard) && heard[0] == p.start
    requires p.interval >= 0.0 && p.timeout >= 0.0
    ensures LastRead(heard, CheckedAt(p, k - 1)) <= LastRead(heard, CheckedAt(p, k))
  {
    ChecksAdvance(p, k - 1);
    ChecksAdvance(p, k);
    LastReadIs(heard, CheckedAt(p, k - 1));
    LastReadIs(heard, CheckedAt(p, k));
  }

  // With a positive period every connection that heard no more frames is closed: the first
  // heartbeat after the last frame is checked silent.
  lemma SilenceIsNoticed(p: Pace, heard: seq<real>) returns (k: nat)
    requires heard != [] && Sorted(heard) && heard[0] == p.start
    requires p.interval >= 0.0 && p.timeout >= 0.0 && p.interval + p.timeout > 0.0
    ensures Silent(p, heard, k)
  {
    var last := heard[|heard| - 1];
    k := Beyond(last - p.start, p.interval + p.timeout);
    assert SentAt(p, k) > last;
    forall r | r in heard ensures r <= last {
      var i :| 0 <= i < |heard| && heard[i] == r;
    }
    SilentIffNothingRead(p, heard, k);
  }

  lemma Beyond(distance: real, period: real) returns (k: nat)
    requires period > 0.0
    ensures k as real * period > distance
  {
    var q := distance / period;
    k := if q < 0.0 then 1 else q.Floor + 1;
    assert q * period == distance;
    assert (k as real - q) * period > 0.0;
    assert (k as real - q) * period == k as real * period - q * period;
  }

  // The loop, run against the frames the pump heard: it ends, at the first silent check.
  method Run(p: Pace, heard: seq<real>) returns (closedAt: real, ghost k: nat)
    requires heard != [] && Sorted(heard) && heard[0] == p.start
    requires p.interval >= 0.0 && p.timeout >= 0.0 && p.interval + p.timeout > 0.0
    ensures FirstSilent(p, heard, k) && closedAt == CheckedAt(p, k)
    ensures var last := LastRead(heard, closedAt);
            last + p.timeout < closedAt <= last + p.interval + 2.0 * p.timeout
  {
    ghost var limit := SilenceIsNoticed(p, heard);
    var now := p.start;
    k := 0;
    ChecksAdvance(p, 0);
    while true
      invariant now + p.interval == SentAt(p, k)
      invariant k <= limit && forall i: nat | i < k :: !Silent(p, heard, i)
      decreases limit - k
    {
      now := now + p.interval;
      var sentAt := now;
      now := now + p.timeout;
      if LastRead(heard, now) < sentAt {
        ClosedInTime(p, heard, k);
        return now, k;
      }
      ChecksAdvance(p, k);
      k := k + 1;
    }
  }
}
