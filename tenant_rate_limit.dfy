/** The per-tenant fixed-window rate limiter of src/services/rateLimiter.ts,
    which keeps its counter on the tenant row. */
module TenantRateLimit {
  import opened Wrappers

  const MaxRequests := 100
  /** One minute, in milliseconds. */
  const Window := 60 * 1000
  const TenantNotFound := "Tenant not found"

  /** The rate-limit columns of a tenant row; `None` is a null or missing
      value. */
  datatype TenantRow = TenantRow(requestCount: Option<int>, lastRequestTime: Option<int>)

  /** JavaScript truthiness of a nullable number. */
  predicate Truthy(v: Option<int>) {
    v.Some? && v.value != 0
  }

  /** The working count and window start after the two resets. */
  datatype Working = Working(count: int, start: int)

  function Normalize(row: TenantRow, now: int): (w: Working)
    ensures now - w.start <= Window
    ensures w.count == 0 || (Truthy(row.requestCount) && w.count == row.requestCount.value)
    ensures w.start == now || (Truthy(row.lastRequestTime) && w.start == row.lastRequestTime.value)
    ensures !Truthy(row.requestCount) || !Truthy(row.lastRequestTime) || now - row.lastRequestTime.value > Window
            ==> w == Working(0, now)
    ensures Truthy(row.requestCount) && Truthy(row.lastRequestTime) && now - row.lastRequestTime.value <= Window
            ==> w == Working(row.requestCount.value, row.lastRequestTime.value)
  {
    var w := if !Truthy(row.lastRequestTime) || !Truthy(row.requestCount) then Working(0, now)
             else Working(row.requestCount.value, row.lastRequestTime.value);
    if now - w.start > Window then Working(0, now) else w
  }

  /** Whether the request is allowed, and the row written (`None`: no write). */
  datatype Check = Check(allowed: bool, write: Option<TenantRow>)

  /** `checkRateLimit` for a tenant row, or the error it throws. */
  function Decide(row: Option<TenantRow>, now: int): (r: Result<Check>)
    ensures r.Err? <==> row.None?
    ensures r.Err? ==> r.error == TenantNotFound
    ensures r.Ok? ==> (r.value.allowed <==> r.value.write.Some?)
    ensures r.Ok? && r.value.write.Some? ==>
      var w := r.value.write.value;
      w.requestCount.Some? && w.lastRequestTime.Some? &&
      w.requestCount.value <= MaxRequests && now - w.lastRequestTime.value <= Window
  {
    match row
    case None => Err(TenantNotFound)
    case Some(t) =>
      var w := Normalize(t, now);
      if w.count >= MaxRequests then Ok(Check(false, None))
      else Ok(Check(true, Some(TenantRow(Some(w.count + 1), Some(w.start)))))
  }

  /** The tenant table after one call (unchanged on error or refusal). */
  function After(rows: map<string, TenantRow>, tenantId: string, now: int): (m: map<string, TenantRow>)
    ensures forall t | t in rows && t != tenantId :: t in m && m[t] == rows[t]
    ensures m.Keys == rows.Keys
  {
    match Decide(Lookup(rows, tenantId), now)
    case Err(_) => rows
    case Ok(c) => if c.write.Some? then rows[tenantId := c.write.value] else rows
  }

  function Lookup(rows: map<string, TenantRow>, tenantId: string): Option<TenantRow> {
    if tenantId in rows then Some(rows[tenantId]) else None
  }

  /** A stored count that is null, zero or below the bound stays within it. */
  ghost predicate RowInBounds(r: TenantRow) {
    r.requestCount.Some? ==> r.requestCount.value <= MaxRequests
  }

  /** The bound is kept by every call: a row the limiter writes never holds
      more than `MaxRequests`, and a row it does not write is unchanged. */
  lemma AfterInBounds(rows: map<string, TenantRow>, tenantId: string, now: int)
    requires forall t | t in rows :: RowInBounds(rows[t])
    ensures forall t | t in After(rows, tenantId, now) :: RowInBounds(After(rows, tenantId, now)[t])
  {
  }

  /** A row with a null or zero count, or a window that has run out, starts a
      new window at `now` with count 1. */
  lemma ResetStartsNewWindow(row: TenantRow, now: int)
    requires !Truthy(row.requestCount) || !Truthy(row.lastRequestTime)
             || now - row.lastRequestTime.value > Window
    ensures Decide(Some(row), now) == Ok(Check(true, Some(TenantRow(Some(1), Some(now)))))
  {
  }

  /** Inside a running window the count goes up by one and the window start
      is kept, until the count reaches `MaxRequests`; then requests are
      refused and nothing is written. */
  lemma InWindow(count: int, start: int, now: int)
    requires count != 0 && start != 0 && now - start <= Window
    ensures count < MaxRequests ==>
      Decide(Some(TenantRow(Some(count), Some(start))), now) == Ok(Check(true, Some(TenantRow(Some(count + 1), Some(start)))))
    ensures count >= MaxRequests ==>
      Decide(Some(TenantRow(Some(count), Some(start))), now) == Ok(Check(false, None))
  {
  }

  /** The decisions for a run of calls for one tenant. */
  function Replay(rows: map<string, TenantRow>, tenantId: string, times: seq<int>): (allowed: seq<bool>)
    requires tenantId in rows
    ensures |allowed| == |times|
    decreases |times|
  {
    if times == [] then []
    else
      var first := Decide(Lookup(rows, tenantId), times[0]);
      [first.Ok? && first.value.allowed] + Replay(After(rows, tenantId, times[0]), tenantId, times[1..])
  }

  lemma {:induction false} ReplayInWindow(rows: map<string, TenantRow>, tenantId: string, times: seq<int>,
                                          count: int, start: int)
    requires tenantId in rows && rows[tenantId] == TenantRow(Some(count), Some(start))
    requires 1 <= count <= MaxRequests && start != 0
    requires forall i | 0 <= i < |times| :: times[i] - start <= Window
    ensures forall i | 0 <= i < |times| :: Replay(rows, tenantId, times)[i] <==> count + i < MaxRequests
    decreases |times|
  {
    if times != [] {
      var next := After(rows, tenantId, times[0]);
      var count' := if count < MaxRequests then count + 1 else count;
      InWindow(count, start, times[0]);
      assert next[tenantId] == TenantRow(Some(count'), Some(start));
      ReplayInWindow(next, tenantId, times[1..], count', start);
      var r := Replay(rows, tenantId, times);
      forall i | 0 <= i < |times|
        ensures r[i] <==> count + i < MaxRequests
      {
        if i > 0 {
          assert r[i] == Replay(next, tenantId, times[1..])[i - 1];
        }
      }
    }
  }

  /** A tenant whose row has no running window, calling repeatedly within one
      window of the first call (at a nonzero time), is allowed exactly the
      first `MaxRequests` calls. */
  lemma FirstHundredInWindow(rows: map<string, TenantRow>, tenantId: string, times: seq<int>)
    requires tenantId in rows && !Truthy(rows[tenantId].requestCount)
    requires |times| > 0 && times[0] != 0
    requires forall i | 0 <= i < |times| :: times[i] - times[0] <= Window
    ensures forall i | 0 <= i < |times| :: Replay(rows, tenantId, times)[i] <==> i < MaxRequests
  {
    var next := After(rows, tenantId, times[0]);
    ResetStartsNewWindow(rows[tenantId], times[0]);
    assert next[tenantId] == TenantRow(Some(1), Some(times[0]));
    ReplayInWindow(next, tenantId, times[1..], 1, times[0]);
    var r := Replay(rows, tenantId, times);
    forall i | 0 <= i < |times|
      ensures r[i] <==> i < MaxRequests
    {
      if i > 0 {
        assert r[i] == Replay(next, tenantId, times[1..])[i - 1];
      }
    }
  }

  /** The tenant table, keyed by tenant id. */
  class TenantStore {
    var rows: map<string, TenantRow>

    constructor (initial: map<string, TenantRow>)
      ensures rows == initial
    {
      rows := initial;
    }

    /** `checkRateLimit(tenantId)` with `Date.now()` passed in as `now`; the
        thrown error becomes `Err`. */
    method CheckRateLimit(tenantId: string, now: int) returns (r: Result<bool>)
      modifies this
      ensures r == (match Decide(Lookup(old(rows), tenantId), now)
                    case Err(e) => Err(e) case Ok(c) => Ok(c.allowed))
      ensures rows == After(old(rows), tenantId, now)
    {
      if tenantId !in rows {
        return Err(TenantNotFound);
      }
      var tenant := rows[tenantId];
      var requestCount := tenant.requestCount;
      var lastRequestTime := tenant.lastRequestTime;
      if !Truthy(lastRequestTime) || !Truthy(requestCount) {
        requestCount := Some(0);
        lastRequestTime := Some(now);
      }
      if now - lastRequestTime.value > Window {
        requestCount := Some(0);
        lastRequestTime := Some(now);
      }
      if requestCount.value >= MaxRequests {
        return Ok(false);
      }
      rows := rows[tenantId := TenantRow(Some(requestCount.value + 1), lastRequestTime)];
      return Ok(true);
    }
  }
}
