/** The per-buyer fixed-window rate limiter of src/middleware/rateLimiter.ts:
    at most `MaxRequests` allowed requests per window, the window starting at
    the first request after the previous one ran out. */
module BuyerRateLimit {
  import opened Wrappers

  const MaxRequests := 100
  /** One minute, in milliseconds. */
  const Window := 60 * 1000

  /** A stored row of the rate-limit table. */
  datatype Entry = Entry(requestCount: int, lastRequestTime: int)

  /** Whether the request is allowed, and the row written for the buyer
      (`None` when nothing is written). */
  datatype Decision = Decision(allowed: bool, write: Option<Entry>)

  /** A row the limiter could have written. */
  predicate InBounds(e: Entry) {
    1 <= e.requestCount <= MaxRequests
  }

  /** The decision for a request at time `now` given the buyer's row. */
  function Decide(prior: Option<Entry>, now: int): (d: Decision)
    ensures d.allowed <==> d.write.Some?
    ensures (prior.Some? ==> InBounds(prior.value)) ==> (d.write.Some? ==> InBounds(d.write.value))
    ensures d.write.Some? ==> d.write.value.requestCount <= MaxRequests
    ensures prior.None? ==> d == Decision(true, Some(Entry(1, now)))
  {
    match prior
    case None => Decision(true, Some(Entry(1, now)))
    case Some(e) =>
      if now - e.lastRequestTime > Window then Decision(true, Some(Entry(1, now)))
      else if e.requestCount < MaxRequests then
        Decision(true, Some(e.(requestCount := e.requestCount + 1)))
      else Decision(false, None)
  }

  /** Inside a running window the count goes up by one and the window start
      is kept, until the count reaches `MaxRequests`; then the request is
      refused and nothing is written. */
  lemma InWindow(count: int, start: int, now: int)
    requires now - start <= Window
    ensures count < MaxRequests ==>
      Decide(Some(Entry(count, start)), now) == Decision(true, Some(Entry(count + 1, start)))
    ensures count >= MaxRequests ==> Decide(Some(Entry(count, start)), now) == Decision(false, None)
  {
  }

  function Lookup(entries: map<string, Entry>, buyerId: string): Option<Entry> {
    if buyerId in entries then Some(entries[buyerId]) else None
  }

  /** The table after one request of `buyerId` at time `now`. */
  function After(entries: map<string, Entry>, buyerId: string, now: int): (m: map<string, Entry>)
    ensures m.Keys == entries.Keys + {buyerId} || m == entries
    ensures forall b | b in entries && b != buyerId :: b in m && m[b] == entries[b]
  {
    match Decide(Lookup(entries, buyerId), now).write
    case None => entries
    case Some(e) => entries[buyerId := e]
  }

  /** Every stored count lies between 1 and `MaxRequests`. */
  ghost predicate TableInBounds(entries: map<string, Entry>) {
    forall b | b in entries :: InBounds(entries[b])
  }

  /** The bounds hold after every request, whatever the buyer and the time. */
  lemma AfterInBounds(entries: map<string, Entry>, buyerId: string, now: int)
    requires TableInBounds(entries)
    ensures TableInBounds(After(entries, buyerId, now))
  {
    assert Lookup(entries, buyerId).Some? ==> InBounds(Lookup(entries, buyerId).value);
  }

  /** The decisions for a run of requests of one buyer. */
  function Replay(entries: map<string, Entry>, buyerId: string, times: seq<int>): (allowed: seq<bool>)
    ensures |allowed| == |times|
    decreases |times|
  {
    if times == [] then []
    else
      var first := Decide(Lookup(entries, buyerId), times[0]).allowed;
      [first] + Replay(After(entries, buyerId, times[0]), buyerId, times[1..])
  }

  /** Within a window started at `start` with `count` requests so far, the
      next requests are allowed until the count reaches `MaxRequests`. */
  lemma {:induction false} ReplayInWindow(entries: map<string, Entry>, buyerId: string, times: seq<int>,
                                          count: int, start: int)
    requires buyerId in entries && entries[buyerId] == Entry(count, start)
    requires 1 <= count <= MaxRequests
    requires forall i | 0 <= i < |times| :: times[i] - start <= Window
    ensures forall i | 0 <= i < |times| :: Replay(entries, buyerId, times)[i] <==> count + i < MaxRequests
    decreases |times|
  {
    if times != [] {
      var next := After(entries, buyerId, times[0]);
      var count' := if count < MaxRequests then count + 1 else count;
      assert next[buyerId] == Entry(count', start);
      ReplayInWindow(next, buyerId, times[1..], count', start);
      var r := Replay(entries, buyerId, times);
      forall i | 0 <= i < |times|
        ensures r[i] <==> count + i < MaxRequests
      {
        if i > 0 {
          assert r[i] == Replay(next, buyerId, times[1..])[i - 1];
        }
      }
    }
  }

  /** A buyer with no row who sends requests all within one window of the
      first gets exactly the first `MaxRequests` of them allowed: the 101st
      and every later one in that window is refused. */
  lemma FirstHundredInWindow(entries: map<string, Entry>, buyerId: string, times: seq<int>)
    requires buyerId !in entries && |times| > 0
    requires forall i | 0 <= i < |times| :: times[i] - times[0] <= Window
    ensures forall i | 0 <= i < |times| :: Replay(entries, buyerId, times)[i] <==> i < MaxRequests
  {
    var next := After(entries, buyerId, times[0]);
    assert next[buyerId] == Entry(1, times[0]);
    ReplayInWindow(next, buyerId, times[1..], 1, times[0]);
    var r := Replay(entries, buyerId, times);
    forall i | 0 <= i < |times|
      ensures r[i] <==> i < MaxRequests
    {
      if i > 0 {
        assert r[i] == Replay(next, buyerId, times[1..])[i - 1];
      }
    }
  }

  /** Once more than a window has passed since the row's window started, a
      request is allowed again and opens a new window. */
  lemma NewWindowAllows(e: Entry, now: int)
    requires now - e.lastRequestTime > Window
    ensures Decide(Some(e), now) == Decision(true, Some(Entry(1, now)))
  {
  }

  /** Exactly one window after its start, the window still runs: a full
      window refuses, and a request that is allowed keeps the window's start. */
  lemma WindowIncludesItsEnd(e: Entry)
    ensures Decide(Some(e), e.lastRequestTime + Window).allowed <==> e.requestCount < MaxRequests
    ensures Decide(Some(e), e.lastRequestTime + Window).allowed ==>
      Decide(Some(e), e.lastRequestTime + Window).write == Some(Entry(e.requestCount + 1, e.lastRequestTime))
  {
  }

  /** The rate-limit table, keyed by buyer id. */
  class RateLimitStore {
    var entries: map<string, Entry>

    ghost predicate Valid()
      reads this
    {
      TableInBounds(entries)
    }

    constructor ()
      ensures Valid() && entries == map[]
    {
      entries := map[];
    }

    /** `rateLimit(buyerId)` with `Date.now()` passed in as `now`. */
    method RateLimit(buyerId: string, now: int) returns (allowed: bool)
      requires Valid()
      modifies this
      ensures Valid()
      ensures allowed == Decide(Lookup(old(entries), buyerId), now).allowed
      ensures entries == After(old(entries), buyerId, now)
    {
      AfterInBounds(entries, buyerId, now);
      if buyerId !in entries {
        entries := entries[buyerId := Entry(1, now)];
        return true;
      }
      var entry := entries[buyerId];
      var timeDiff := now - entry.lastRequestTime;
      if timeDiff > Window {
        entries := entries[buyerId := Entry(1, now)];
        return true;
      } else if entry.requestCount < MaxRequests {
        entries := entries[buyerId := entry.(requestCount := entry.requestCount + 1)];
        return true;
      }
      return false;
    }
  }
}
