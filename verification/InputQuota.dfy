/**
 The sliding-window quota of the input saga. Under the session's row lock it counts the accepted inputs whose
 `created_at` lies in the last minute. `created_at` is the start of the accepting transaction, `checked` the
 moment of the count; between the two the transaction may have waited for the row lock.
 */
module InputQuota {
  const WINDOW: real := 60.0

  datatype Accepted = Accepted(created: real, checked: real, bytes: nat)

  /** The accepted inputs among the first `n` with created_at >= since: how many, and how many bytes. */
  function RecentCount(h: seq<Accepted>, n: nat, since: real): (c: nat)
    requires n <= |h|
  {
    if n == 0 then 0 else RecentCount(h, n - 1, since) + if h[n - 1].created >= since then 1 else 0
  }

  function RecentBytes(h: seq<Accepted>, n: nat, since: real): nat
    requires n <= |h|
  {
    if n == 0 then 0 else RecentBytes(h, n - 1, since) + if h[n - 1].created >= since then h[n - 1].bytes else 0
  }

  ghost function SumBytes(h: seq<Accepted>, i: nat, j: nat): nat
    requires i <= j <= |h|
  {
    if i == j then 0 else SumBytes(h, i, j - 1) + h[j - 1].bytes
  }

  /** The saga's test, for an input of `bytes` bytes checked at `now` after the first `n` inputs of `h`. */
  predicate Admits(maxMessages: nat, maxBytes: nat, h: seq<Accepted>, n: nat, now: real, bytes: nat)
    requires n <= |h|
  {
    && RecentCount(h, n, now - WINDOW) < maxMessages
    && RecentBytes(h, n, now - WINDOW) + bytes <= maxBytes
  }

  /** A history of accepted inputs of one session: each passed the test, checks are in order (one monotone clock
      under one row lock), and no transaction waited longer than `wait`. */
  ghost predicate History(maxMessages: nat, maxBytes: nat, wait: real, h: seq<Accepted>) {
    && (forall j :: 0 <= j < |h| ==> Admits(maxMessages, maxBytes, h, j, h[j].checked, h[j].bytes))
    && (forall i, j :: 0 <= i <= j < |h| ==> h[i].checked <= h[j].checked)
    && (forall j :: 0 <= j < |h| ==> h[j].created <= h[j].checked <= h[j].created + wait)
  }

  lemma {:induction false} AllRecentAreCounted(h: seq<Accepted>, i: nat, n: nat, since: real)
    requires i <= n <= |h| && forall k :: i <= k < n ==> h[k].created >= since
    ensures RecentCount(h, n, since) >= n - i && RecentBytes(h, n, since) >= SumBytes(h, i, n)
    decreases n
  {
    if i < n {
      AllRecentAreCounted(h, i, n - 1, since);
    }
  }

  lemma {:induction false} RecentPrefix(h: seq<Accepted>, e: Accepted, n: nat, since: real)
    requires n <= |h|
    ensures RecentCount(h + [e], n, since) == RecentCount(h, n, since)
    ensures RecentBytes(h + [e], n, since) == RecentBytes(h, n, since)
  {
    if n > 0 {
      RecentPrefix(h, e, n - 1, since);
    }
  }

  lemma Extend(maxMessages: nat, maxBytes: nat, wait: real, h: seq<Accepted>, e: Accepted)
    requires History(maxMessages, maxBytes, wait, h) && Admits(maxMessages, maxBytes, h, |h|, e.checked, e.bytes)
    requires e.created <= e.checked <= e.created + wait && forall i :: 0 <= i < |h| ==> h[i].checked <= e.checked
    ensures History(maxMessages, maxBytes, wait, h + [e])
  {
    hide RecentCount, RecentBytes;
    var h' := h + [e];
    forall j | 0 <= j < |h'| ensures Admits(maxMessages, maxBytes, h', j, h'[j].checked, h'[j].bytes) {
      RecentPrefix(h, e, j, h'[j].checked - WINDOW);
      if j < |h| {
        assert Admits(maxMessages, maxBytes, h, j, h[j].checked, h[j].bytes);
      }
    }
  }

  /** Every window of one minute, less the longest lock wait, holds at most the configured messages and bytes. */
  lemma WindowBound(maxMessages: nat, maxBytes: nat, wait: real, h: seq<Accepted>, i: nat, j: nat)
    requires History(maxMessages, maxBytes, wait, h) && i <= j < |h|
    requires h[j].checked - h[i].checked <= WINDOW - wait
    ensures j - i + 1 <= maxMessages
    ensures SumBytes(h, i, j + 1) <= maxBytes
  {
    hide RecentCount, RecentBytes;
    var since := h[j].checked - WINDOW;
    forall k | i <= k < j ensures h[k].created >= since {
      assert h[i].checked <= h[k].checked <= h[k].created + wait;
    }
    AllRecentAreCounted(h, i, j, since);
    assert Admits(maxMessages, maxBytes, h, j, h[j].checked, h[j].bytes);
  }

  // ---- The bound is exact ---------------------------------------------------------------------

  /** `n` inputs that all waited for the lock, and one more that came when the window had just passed. */
  ghost function Burst(wait: real, window: real, n: nat, bytes: nat): (h: seq<Accepted>)
    ensures |h| == n + 1
  {
    seq(n, _ => Accepted(0.0, wait, bytes)) + [Accepted(wait + window, wait + window, bytes)]
  }

  /** Before the last one, the burst counts in full within the minute and not at all after it. */
  lemma {:induction false} BurstCounts(wait: real, window: real, n: nat, bytes: nat, m: nat, since: real)
    requires m <= n
    ensures var h := Burst(wait, window, n, bytes);
            && RecentCount(h, m, since) == (if since <= 0.0 then m else 0)
            && RecentBytes(h, m, since) == (if since <= 0.0 then m * bytes else 0)
            && SumBytes(h, 0, m) == m * bytes
  {
    if m > 0 {
      BurstCounts(wait, window, n, bytes, m - 1, since);
      assert m * bytes == (m - 1) * bytes + bytes;
    }
  }

  lemma Fits(m: nat, n: nat, bytes: nat)
    requires m < n
    ensures m * bytes + bytes <= n * bytes
  {
    assert (n - m - 1) * bytes >= 0;
    assert n * bytes == m * bytes + bytes + (n - m - 1) * bytes;
  }

  /** The saga accepts the whole burst, for every configuration that admits `n` inputs of that size in a minute. */
  lemma BurstIsAccepted(maxMessages: nat, maxBytes: nat, wait: real, window: real, n: nat, bytes: nat)
    requires 0.0 <= wait && 0.0 <= window && WINDOW - wait < window && 1 <= n <= maxMessages && n * bytes <= maxBytes
    ensures History(maxMessages, maxBytes, wait, Burst(wait, window, n, bytes))
  {
    hide RecentCount, RecentBytes;
    var h := Burst(wait, window, n, bytes);
    forall j | 0 <= j < |h| ensures Admits(maxMessages, maxBytes, h, j, h[j].checked, h[j].bytes) {
      BurstCounts(wait, window, n, bytes, j, h[j].checked - WINDOW);
      if j < n {
        Fits(j, n, bytes);
      } else {
        Fits(0, n, bytes);
      }
    }
  }

  /** For every window longer than a minute less the wait, every configuration and every size of input that it accepts at
      all, some history of inputs of that size has too many messages or too many bytes in such a window. */
  lemma BoundIsTight(maxMessages: nat, maxBytes: nat, wait: real, window: real, bytes: nat) returns (h: seq<Accepted>)
    requires 0.0 <= wait && 0.0 <= window && WINDOW - wait < window && 1 <= maxMessages && 1 <= bytes <= maxBytes
    ensures History(maxMessages, maxBytes, wait, h) && h != []
    ensures h[|h| - 1].checked - h[0].checked == window && forall i :: 0 <= i < |h| ==> h[i].bytes == bytes
    ensures maxMessages * bytes <= maxBytes ==> |h| > maxMessages
    ensures maxMessages * bytes > maxBytes ==> SumBytes(h, 0, |h|) > maxBytes
  {
    hide History, Burst, SumBytes;
    var n := HowMany(maxMessages, maxBytes, bytes);
    h := Burst(wait, window, n, bytes);
    BurstIsAccepted(maxMessages, maxBytes, wait, window, n, bytes);
    BurstShape(wait, window, n, bytes);
  }

  lemma BurstShape(wait: real, window: real, n: nat, bytes: nat)
    requires n >= 1
    ensures var h := Burst(wait, window, n, bytes);
            && h[n].checked - h[0].checked == window && (forall i :: 0 <= i < |h| ==> h[i].bytes == bytes)
            && SumBytes(h, 0, |h|) == n * bytes + bytes
  {
    BurstCounts(wait, window, n, bytes, n, 0.0);
  }

  /** The number of inputs of one size that fit into an empty minute. */
  lemma HowMany(maxMessages: nat, maxBytes: nat, bytes: nat) returns (n: nat)
    requires 1 <= maxMessages && 1 <= bytes <= maxBytes
    ensures 1 <= n <= maxMessages && n * bytes <= maxBytes
    ensures maxMessages * bytes <= maxBytes ==> n == maxMessages
    ensures maxMessages * bytes > maxBytes ==> n * bytes + bytes > maxBytes
  {
    n := 1;
    while n < maxMessages && n * bytes + bytes <= maxBytes
      invariant 1 <= n <= maxMessages && n * bytes <= maxBytes
    {
      assert (n + 1) * bytes == n * bytes + bytes;
      n := n + 1;
    }
    if n < maxMessages {
      Fits(n, maxMessages, bytes);
    }
  }

  /** No history whose transactions wait at most `wait` exceeds the quota within `window`. */
  ghost predicate Bounded(maxMessages: nat, maxBytes: nat, wait: real, window: real) {
    forall h: seq<Accepted>, i: nat, j: nat ::
      History(maxMessages, maxBytes, wait, h) && i <= j < |h| && h[j].checked - h[i].checked <= window ==>
        j - i + 1 <= maxMessages && SumBytes(h, i, j + 1) <= maxBytes
  }

  /** The exact condition, for every configuration that accepts anything. */
  lemma QuotaHoldsUpTo(maxMessages: nat, maxBytes: nat, wait: real, window: real)
    requires 0.0 <= wait && 0.0 <= window && 1 <= maxMessages && 1 <= maxBytes
    ensures Bounded(maxMessages, maxBytes, wait, window) <==> window <= 60.0 - wait
  {
    hide History, SumBytes;
    if window <= WINDOW - wait {
      forall h: seq<Accepted>, i: nat, j: nat
        | History(maxMessages, maxBytes, wait, h) && i <= j < |h| && h[j].checked - h[i].checked <= window
        ensures j - i + 1 <= maxMessages && SumBytes(h, i, j + 1) <= maxBytes
      {
        WindowBound(maxMessages, maxBytes, wait, h, i, j);
      }
    } else {
      var h := BoundIsTight(maxMessages, maxBytes, wait, window, 1);
      var i: nat, j: nat := 0, |h| - 1;
      assert History(maxMessages, maxBytes, wait, h) && h[j].checked - h[i].checked <= window;
      assert !(j - i + 1 <= maxMessages && SumBytes(h, i, j + 1) <= maxBytes);
    }
  }

  class Quota {
    const maxMessages: nat
    const maxBytes: nat
    var events: seq<Accepted>

    constructor (maxMessages: nat, maxBytes: nat)
      ensures this.maxMessages == maxMessages && this.maxBytes == maxBytes && events == []
    {
      this.maxMessages, this.maxBytes, events := maxMessages, maxBytes, [];
    }

    /** The quota test of the input saga; an accepted input is recorded in the same transaction. */
    method TryAccept(created: real, now: real, bytes: nat, ghost wait: real) returns (ok: bool)
      requires History(maxMessages, maxBytes, wait, events)
      requires created <= now <= created + wait
      requires forall i :: 0 <= i < |events| ==> events[i].checked <= now
      modifies this
      ensures History(maxMessages, maxBytes, wait, events)
      ensures ok <==> Admits(maxMessages, maxBytes, old(events), |old(events)|, now, bytes)
      ensures events == if ok then old(events) + [Accepted(created, now, bytes)] else old(events)
    {
      hide History;
      var count, total := 0, 0;
      for i := 0 to |events|
        invariant count == RecentCount(events, i, now - WINDOW)
        invariant total == RecentBytes(events, i, now - WINDOW)
      {
        if events[i].created >= now - WINDOW {
          count := count + 1;
          total := total + events[i].bytes;
        }
      }
      ok := count < maxMessages && total + bytes <= maxBytes;
      if ok {
        Extend(maxMessages, maxBytes, wait, events, Accepted(created, now, bytes));
        events := events + [Accepted(created, now, bytes)];
      }
    }
  }
}
