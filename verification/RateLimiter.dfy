/** The per-tenant rate limiter: one-minute windows counted in keys that expire and are refreshed. */
module RateLimiter {
  import opened Prelude

  /** Times here are in milliseconds. */
  const MINUTE := 60 * 1000
  const TTL := 120 * 1000

  /** One call: when it read the clock, and when the store executed its pipeline. */
  datatype Call = Call(tenant: Uuid, route: string, readAt: Time, execAt: Time)

  datatype Bucket = Bucket(tenant: Uuid, route: string, window: int)

  datatype Counter = Counter(count: nat, expiresAt: Time)

  type Store = map<Bucket, Counter>

  function Window(t: Time): int { t / MINUTE }

  function BucketOf(c: Call): Bucket { Bucket(c.tenant, c.route, Window(c.readAt)) }

  /** What `incr` returns: an expired key counts from zero again. */
  function Incremented(store: Store, c: Call): nat {
    var b := BucketOf(c);
    if b in store && c.execAt <= store[b].expiresAt then store[b].count + 1 else 1
  }

  /** `incr` and `expire`, executed together. */
  function Executed(store: Store, c: Call): Store {
    store[BucketOf(c) := Counter(Incremented(store, c), c.execAt + TTL)]
  }

  /** The store after calls in the order it executed them. */
  function Run(calls: seq<Call>): Store {
    if calls == [] then map[] else Executed(Run(calls[..|calls| - 1]), calls[|calls| - 1])
  }

  /** The plain counter: how many of the calls fell into the window. */
  function Plain(calls: seq<Call>, b: Bucket): nat {
    if calls == [] then 0
    else Plain(calls[..|calls| - 1], b) + if BucketOf(calls[|calls| - 1]) == b then 1 else 0
  }

  /** Executed in order, each call at most `delay` after it read the clock. */
  predicate Timely(calls: seq<Call>, delay: int) {
    && (forall i :: 0 <= i < |calls| ==> calls[i].readAt <= calls[i].execAt <= calls[i].readAt + delay)
    && (forall i, j :: 0 <= i < j < |calls| ==> calls[i].execAt <= calls[j].execAt)
  }

  /** The longest delay under which no window is ever forgotten: a minute, and the millisecond that is left
      because a window's last reading is before its end. */
  const SLACK := MINUTE + 1

  /** The store holds exactly the plain counts, each of them alive long enough. */
  ghost predicate Agrees(store: Store, calls: seq<Call>) {
    && (forall b :: b in store <==> Plain(calls, b) > 0)
    && (forall b :: b in store ==> store[b].count == Plain(calls, b) && b.window * MINUTE + TTL <= store[b].expiresAt)
  }

  lemma TimelyBefore(calls: seq<Call>, delay: int)
    requires calls != [] && Timely(calls, delay)
    ensures Timely(calls[..|calls| - 1], delay)
  {}

  lemma WindowBounds(t: Time)
    ensures Window(t) * MINUTE <= t < Window(t) * MINUTE + MINUTE
  {}

  lemma CallAgrees(store: Store, calls: seq<Call>, c: Call)
    requires Agrees(store, calls) && c.readAt <= c.execAt <= c.readAt + SLACK
    ensures Incremented(store, c) == Plain(calls, BucketOf(c)) + 1
    ensures Agrees(Executed(store, c), calls + [c])
  {
    WindowBounds(c.readAt);
    var after := calls + [c];
    assert after[..|after| - 1] == calls;
    forall b: Bucket ensures Plain(after, b) == Plain(calls, b) + if BucketOf(c) == b then 1 else 0 {}
  }

  /** The expiring store is the plain counter, whatever tenants, routes and windows interleave. */
  lemma {:induction false} RunAgrees(calls: seq<Call>)
    requires Timely(calls, SLACK)
    ensures Agrees(Run(calls), calls)
  {
    if calls != [] {
      var front, last := calls[..|calls| - 1], calls[|calls| - 1];
      TimelyBefore(calls, SLACK);
      RunAgrees(front);
      CallAgrees(Run(front), front, last);
      assert front + [last] == calls;
    }
  }

  /** The decision on each call is the one a per-window counter that never forgets would make. */
  lemma CountsEveryCall(calls: seq<Call>, c: Call)
    requires Timely(calls + [c], SLACK)
    ensures Incremented(Run(calls), c) == Plain(calls, BucketOf(c)) + 1
  {
    TimelyBefore(calls + [c], SLACK);
    assert (calls + [c])[..|calls|] == calls;
    RunAgrees(calls);
    assert (calls + [c])[|calls|] == c;
    CallAgrees(Run(calls), calls, c);
  }

  // ----- in place -----

  /** What becomes of one pipeline. */
  datatype Fault = Answered | ReplyLost | NotExecuted

  class TenantRateLimiter {
    var store: Store
    ghost var history: seq<Call>

    ghost predicate Valid()
      reads this
    {
      Timely(history, SLACK) && store == Run(history)
    }

    constructor ()
      ensures Valid() && history == []
    {
      store, history := map[], [];
    }

    /** `allow`. A call that the store answers is admitted exactly when fewer than `limit` calls have been
        executed before it in its window. A call that the store fails is admitted (it fails open), whether or
        not the store executed it. */
    method Allow(c: Call, limit: nat, fault: Fault) returns (allowed: bool)
      requires Valid() && (fault.NotExecuted? || Timely(history + [c], SLACK))
      modifies this
      ensures Valid() && history == if fault.NotExecuted? then old(history) else old(history) + [c]
      ensures allowed <==> !fault.Answered? || Plain(old(history), BucketOf(c)) < limit
    {
      if fault.NotExecuted? { return true; }
      CountsEveryCall(history, c);
      assert (history + [c])[..|history|] == history;
      var key := BucketOf(c);
      var live := key in store && c.execAt <= store[key].expiresAt;
      var count := (if live then store[key].count else 0) + 1;
      store := store[key := Counter(count, c.execAt + TTL)];
      history := history + [c];
      if fault.ReplyLost? { return true; }
      allowed := count <= limit;
    }
  }

  // ----- how much is admitted -----

  predicate Admits(calls: seq<Call>, limit: nat, c: Call) { Incremented(Run(calls), c) <= limit }

  /** How many calls of a window were admitted. */
  function Admitted(calls: seq<Call>, limit: nat, b: Bucket): nat {
    if calls == [] then 0
    else
      var front, last := calls[..|calls| - 1], calls[|calls| - 1];
      Admitted(front, limit, b) + if BucketOf(last) == b && Admits(front, limit, last) then 1 else 0
  }

  /** Of the calls in a window exactly the first `limit` are admitted. */
  lemma {:induction false} WindowAdmitsUpToLimit(calls: seq<Call>, limit: nat, b: Bucket)
    requires Timely(calls, SLACK)
    ensures Admitted(calls, limit, b) == if Plain(calls, b) < limit then Plain(calls, b) else limit
  {
    if calls != [] {
      var front, last := calls[..|calls| - 1], calls[|calls| - 1];
      TimelyBefore(calls, SLACK);
      WindowAdmitsUpToLimit(front, limit, b);
      assert calls == front + [last];
      CountsEveryCall(front, last);
    }
  }

  predicate InSpan(c: Call, tenant: Uuid, route: string, from: Time) {
    c.tenant == tenant && c.route == route && from <= c.readAt <= from + MINUTE
  }

  /** How many calls of one tenant and route that read the clock within a minute of `from` were admitted. */
  function AdmittedInSpan(calls: seq<Call>, limit: nat, tenant: Uuid, route: string, from: Time): nat {
    if calls == [] then 0
    else
      var front, last := calls[..|calls| - 1], calls[|calls| - 1];
      AdmittedInSpan(front, limit, tenant, route, from) +
      if InSpan(last, tenant, route, from) && Admits(front, limit, last) then 1 else 0
  }

  lemma {:induction false} SpanMeetsTwoWindows(calls: seq<Call>, limit: nat, tenant: Uuid, route: string, from: Time)
    ensures AdmittedInSpan(calls, limit, tenant, route, from) <=
            Admitted(calls, limit, Bucket(tenant, route, Window(from))) +
            Admitted(calls, limit, Bucket(tenant, route, Window(from) + 1))
  {
    if calls != [] {
      SpanMeetsTwoWindows(calls[..|calls| - 1], limit, tenant, route, from);
      var last := calls[|calls| - 1];
      if InSpan(last, tenant, route, from) {
        WindowBounds(from);
        WindowBounds(last.readAt);
        assert Window(last.readAt) == Window(from) || Window(last.readAt) == Window(from) + 1;
      }
    }
  }

  /** Any minute of clock readings admits at most twice the limit. */
  lemma AnyMinuteAdmitsTwiceTheLimit(calls: seq<Call>, limit: nat, tenant: Uuid, route: string, from: Time)
    requires Timely(calls, SLACK)
    ensures AdmittedInSpan(calls, limit, tenant, route, from) <= 2 * limit
  {
    SpanMeetsTwoWindows(calls, limit, tenant, route, from);
    WindowAdmitsUpToLimit(calls, limit, Bucket(tenant, route, Window(from)));
    WindowAdmitsUpToLimit(calls, limit, Bucket(tenant, route, Window(from) + 1));
  }

  /** With any longer delay the store can forget a window: two calls of one window both count as the first. */
  lemma SlowerCallsAreForgotten(tenant: Uuid, route: string, delay: int)
    requires delay > SLACK
    ensures var calls := [Call(tenant, route, 0, 0), Call(tenant, route, MINUTE - 1, MINUTE - 1 + delay)];
            && Timely(calls, delay)
            && Plain(calls[..1], BucketOf(calls[1])) == 1
            && Incremented(Run(calls[..1]), calls[1]) == 1
  {
    var calls := [Call(tenant, route, 0, 0), Call(tenant, route, MINUTE - 1, MINUTE - 1 + delay)];
    assert calls[..1][..0] == [];
    assert Run(calls[..1]) == map[BucketOf(calls[0]) := Counter(1, TTL)];
  }
}
