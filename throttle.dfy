/** The minimum-interval gate that rate-limits accepted GPS fixes. */
module Throttle {

  /** The drop condition of the gate: `now` falls less than `interval`
      milliseconds after the last accepted update. */
  predicate WithinWindow(last: int, now: int, interval: int)
  {
    now - last < interval
  }

  /** Every time in `ts` passes the gate against the time before it, the
      first one against `last`: the accepted times of one session. */
  predicate Spaced(last: int, ts: seq<int>, interval: int)
    decreases |ts|
  {
    ts == [] || (!WithinWindow(last, ts[0], interval) && Spaced(ts[0], ts[1..], interval))
  }

  /** The gate's reference time after the times `ts` were accepted from `last`. */
  function LastOr(last: int, ts: seq<int>): int
  {
    if ts == [] then last else ts[|ts| - 1]
  }

  /** Appending a time that passes the gate against the latest time keeps the
      sequence spaced. */
  lemma {:induction false} SpacedSnoc(last: int, ts: seq<int>, now: int, interval: int)
    requires Spaced(last, ts, interval)
    requires !WithinWindow(LastOr(last, ts), now, interval)
    ensures Spaced(last, ts + [now], interval)
    decreases |ts|
  {
    if ts != [] {
      assert (ts + [now])[0] == ts[0];
      assert (ts + [now])[1..] == ts[1..] + [now];
      SpacedSnoc(ts[0], ts[1..], now, interval);
    }
  }

  /** Consecutive accepted times are at least one interval apart, and the
      first is at least one interval after the reference time. */
  lemma {:induction false} SpacedStep(last: int, ts: seq<int>, interval: int, k: nat)
    requires Spaced(last, ts, interval)
    requires k < |ts|
    ensures (if k == 0 then last else ts[k - 1]) + interval <= ts[k]
    decreases k
  {
    if k > 0 {
      SpacedStep(ts[0], ts[1..], interval, k - 1);
    }
  }

  /** The k-th accepted time lies at least `k + 1` whole intervals after the
      reference time the sequence started from. */
  lemma {:induction false} SpacedSpan(last: int, ts: seq<int>, interval: int, k: nat)
    requires Spaced(last, ts, interval)
    requires k < |ts|
    ensures last + (k + 1) * interval <= ts[k]
    decreases k
  {
    if k > 0 {
      SpacedSpan(ts[0], ts[1..], interval, k - 1);
      assert (k + 1) * interval == k * interval + interval;
    }
  }

  /** With a positive interval, `m` accepted times that span `e`
      milliseconds satisfy `m - 1 <= e / interval`: after the first, at most
      one accepted time per whole interval. */
  lemma AcceptedCountBound(last: int, ts: seq<int>, interval: int)
    requires Spaced(last, ts, interval) && interval > 0 && ts != []
    ensures forall i, j :: 0 <= i <= j < |ts| ==> ts[i] <= ts[j]
    ensures |ts| - 1 <= (ts[|ts| - 1] - ts[0]) / interval
  {
    forall i, j | 0 <= i <= j < |ts|
      ensures ts[i] <= ts[j]
    {
      SpacedPairs(last, ts, interval, i, j);
      MulNonNegative(j - i, interval);
    }
    var m := |ts| - 1;
    var e := ts[m] - ts[0];
    if m > 0 {
      SpacedSpan(ts[0], ts[1..], interval, m - 1);
      assert ts[1..][m - 1] == ts[m];
    }
    assert m * interval <= e;
    DivLowerBound(m, interval, e);
  }

  /** Any two accepted times `i <= j` lie at least `j - i` intervals apart. */
  lemma {:induction false} SpacedPairs(last: int, ts: seq<int>, interval: int, i: nat, j: nat)
    requires Spaced(last, ts, interval)
    requires i <= j < |ts|
    ensures ts[i] + (j - i) * interval <= ts[j]
    decreases i
  {
    if i == 0 {
      if j > 0 {
        SpacedSpan(ts[0], ts[1..], interval, j - 1);
      }
    } else {
      SpacedPairs(ts[0], ts[1..], interval, i - 1, j - 1);
    }
  }

  lemma MulNonNegative(a: int, b: int)
    requires a >= 0 && b >= 0
    ensures a * b >= 0
  {
  }

  lemma DivLowerBound(m: nat, d: int, e: int)
    requires d > 0 && m * d <= e
    ensures m <= e / d
  {
    var q := e / d;
    assert e < (q + 1) * d by {
      assert e == q * d + e % d && e % d < d;
      assert (q + 1) * d == q * d + d;
    }
    MulCancelLess(m, q + 1, d);
  }

  lemma MulCancelLess(a: int, b: int, d: int)
    requires d > 0 && a * d < b * d
    ensures a < b
  {
  }
}
