/** The per-key token bucket limiter, over exact reals: seconds for times, tokens for budgets. */
module TokenBucket {
  type Client = string

  datatype Bucket = Bucket(tokens: real, last: real)

  const IDLE_LIMIT := 600.0

  datatype Allowance = Allowance(rate: real, burst: real)

  /** Tokens per second and the most a bucket holds: a minute's worth, and at least one. */
  type Limits = l: Allowance | 1.0 <= l.burst == 60.0 * l.rate
    witness Allowance(1.0, 60.0)

  /** A configured allowance below one falls back to ten a minute. */
  function LimitsFor(perMinute: int): (l: Limits)
    ensures perMinute > 0 ==> l.burst == perMinute as real
  {
    var n := if perMinute <= 0 then 10.0 else perMinute as real;
    Allowance(n / 60.0, n)
  }

  function Gain(l: Limits, seconds: real): (g: real)
    ensures seconds >= 0.0 ==> g >= 0.0
  {
    seconds * l.rate
  }

  lemma GainAdds(l: Limits, t: real, u: real, v: real)
    ensures Gain(l, v - t) == Gain(l, u - t) + Gain(l, v - u)
  {}

  /** Refill for `elapsed` seconds, up to the burst. A clock that went back refills nothing. */
  function Refilled(l: Limits, b: Bucket, now: real): real {
    if now <= b.last then b.tokens
    else if b.tokens + Gain(l, now - b.last) > l.burst then l.burst
    else b.tokens + Gain(l, now - b.last)
  }

  /** What a client may spend at `now`; an unknown client has a full bucket. */
  function Budget(l: Limits, m: map<Client, Bucket>, client: Client, now: real): real {
    if client in m then Refilled(l, m[client], now) else l.burst
  }

  predicate Admits(l: Limits, m: map<Client, Bucket>, client: Client, now: real) {
    Budget(l, m, client, now) >= 1.0
  }

  function AfterCall(l: Limits, m: map<Client, Bucket>, client: Client, now: real): map<Client, Bucket> {
    var budget := Budget(l, m, client, now);
    m[client := Bucket(if Admits(l, m, client, now) then budget - 1.0 else budget, now)]
  }

  function Swept(m: map<Client, Bucket>, now: real): map<Client, Bucket> {
    map c | c in m && now - m[c].last <= IDLE_LIMIT :: m[c]
  }

  class RateLimiter {
    var buckets: map<Client, Bucket>
    const l: Limits

    constructor (perMinute: int)
      ensures buckets == map[] && l == LimitsFor(perMinute) && forall c, now :: Budget(l, buckets, c, now) == l.burst
    {
      buckets, l := map[], LimitsFor(perMinute);
    }

    method Allow(client: Client, now: real) returns (allowed: bool)
      modifies this
      ensures allowed == Admits(l, old(buckets), client, now)
      ensures buckets == AfterCall(l, old(buckets), client, now)
    {
      if client !in buckets {
        buckets := buckets[client := Bucket(l.burst, now)];
      }
      var b := buckets[client];
      var elapsed := now - b.last;
      if elapsed > 0.0 {
        b := b.(tokens := b.tokens + Gain(l, elapsed));
        if b.tokens > l.burst {
          b := b.(tokens := l.burst);
        }
      }
      b := b.(last := now);
      allowed := b.tokens >= 1.0;
      if allowed {
        b := b.(tokens := b.tokens - 1.0);
      }
      buckets := buckets[client := b];
    }

    /** The eviction of buckets nobody has touched for ten minutes. */
    method EvictIdle(now: real)
      modifies this
      ensures buckets == Swept(old(buckets), now)
    {
      var rest := buckets.Keys;
      while rest != {}
        invariant rest <= old(buckets).Keys
        invariant forall c :: c in rest ==> c in buckets
        invariant forall c :: c in buckets <==> c in old(buckets) && (c in rest || now - old(buckets)[c].last <= IDLE_LIMIT)
        invariant forall c :: c in buckets ==> buckets[c] == old(buckets)[c]
        decreases rest
      {
        var c :| c in rest;
        if now - buckets[c].last > IDLE_LIMIT {
          buckets := buckets - {c};
        }
        rest := rest - {c};
      }
    }
  }

  // ---------------------------------------------------------------- runs

  datatype Event = Call(client: Client, at: real) | Sweep(at: real)

  ghost predicate Ordered(events: seq<Event>, from: real) {
    && (forall i :: 0 <= i < |events| ==> from <= events[i].at)
    && (forall i, j :: 0 <= i < j < |events| ==> events[i].at <= events[j].at)
  }

  function After(l: Limits, m: map<Client, Bucket>, e: Event, evicting: bool): map<Client, Bucket> {
    match e
    case Call(client, at) => AfterCall(l, m, client, at)
    case Sweep(at) => if evicting then Swept(m, at) else m
  }

  predicate Decision(l: Limits, m: map<Client, Bucket>, e: Event) {
    e.Call? && Admits(l, m, e.client, e.at)
  }

  /** Which of the events are admitted calls. */
  function Decisions(l: Limits, m: map<Client, Bucket>, events: seq<Event>, evicting: bool): (d: seq<bool>)
    ensures |d| == |events|
    decreases |events|
  {
    if events == [] then []
    else [Decision(l, m, events[0])] + Decisions(l, After(l, m, events[0], evicting), events[1..], evicting)
  }

  /** Budgets within bounds, whatever times the buckets carry. */
  ghost predicate Funded(l: Limits, m: map<Client, Bucket>) {
    forall c :: c in m ==> 0.0 <= m[c].tokens <= l.burst
  }

  // ---------------------------------------------------------------- eviction is invisible

  /** A minute refills any bucket, so a call may carry a time this much before a sweep that came first. */
  const MAX_LAG := IDLE_LIMIT - 60.0

  /** No call carries a time more than nine minutes before that of an earlier sweep. Nothing is asked of
      the order of calls among themselves. */
  ghost predicate LagsLittle(events: seq<Event>) {
    forall i, j :: 0 <= i < j < |events| && events[i].Sweep? && events[j].Call? ==> events[i].at - MAX_LAG <= events[j].at
  }

  ghost predicate CallsFrom(events: seq<Event>, mark: real) {
    forall i :: 0 <= i < |events| && events[i].Call? ==> mark <= events[i].at
  }

  /** Same budgets from `mark` on: equal buckets, or one that is full by then and one that is forgotten. */
  ghost predicate Alike(l: Limits, e: map<Client, Bucket>, f: map<Client, Bucket>, mark: real) {
    && Funded(l, f)
    && (forall c :: c in e ==> c in f && e[c] == f[c])
    && (forall c :: c in f && c !in e ==> FullBy(l, f[c], mark))
  }

  predicate FullBy(l: Limits, b: Bucket, mark: real) {
    b.last < mark && b.tokens + Gain(l, mark - b.last) >= l.burst
  }

  lemma FullStays(l: Limits, b: Bucket, mark: real, now: real)
    requires FullBy(l, b, mark) && mark <= now
    ensures FullBy(l, b, now) && Refilled(l, b, now) == l.burst
  {
    GainAdds(l, b.last, mark, now);
  }

  /** A bucket idle for ten minutes was full nine minutes ago. */
  lemma IdleIsFull(l: Limits, b: Bucket, now: real)
    requires 0.0 <= b.tokens && now - b.last > IDLE_LIMIT
    ensures FullBy(l, b, now - MAX_LAG)
  {
    GainAdds(l, b.last, b.last + 60.0, now - MAX_LAG);
  }

  lemma CallKeepsAlike(l: Limits, e: map<Client, Bucket>, f: map<Client, Bucket>, mark: real, client: Client, at: real)
    requires Alike(l, e, f, mark) && mark <= at
    ensures Admits(l, e, client, at) == Admits(l, f, client, at)
    ensures Alike(l, AfterCall(l, e, client, at), AfterCall(l, f, client, at), mark)
  {
    if client in f && client !in e {
      FullStays(l, f[client], mark, at);
    }
  }

  lemma SweepKeepsAlike(l: Limits, e: map<Client, Bucket>, f: map<Client, Bucket>, mark: real, at: real)
    requires Alike(l, e, f, mark)
    ensures Alike(l, Swept(e, at), f, if mark <= at - MAX_LAG then at - MAX_LAG else mark)
  {
    var next := if mark <= at - MAX_LAG then at - MAX_LAG else mark;
    forall c | c in f && c !in Swept(e, at) ensures FullBy(l, f[c], next) {
      if c in e {
        IdleIsFull(l, f[c], at);
        FullStays(l, f[c], at - MAX_LAG, next);
      } else {
        FullStays(l, f[c], mark, next);
      }
    }
  }

  lemma {:induction false} EvictionIsInvisible(l: Limits, e: map<Client, Bucket>, f: map<Client, Bucket>, events: seq<Event>, mark: real)
    requires LagsLittle(events) && CallsFrom(events, mark) && Alike(l, e, f, mark)
    ensures Decisions(l, e, events, true) == Decisions(l, f, events, false)
    decreases |events|
  {
    if events != [] {
      match events[0] {
        case Call(client, at) =>
          CallKeepsAlike(l, e, f, mark, client, at);
          EvictionIsInvisible(l, AfterCall(l, e, client, at), AfterCall(l, f, client, at), events[1..], mark);
        case Sweep(at) =>
          SweepKeepsAlike(l, e, f, mark, at);
          EvictionIsInvisible(l, Swept(e, at), f, events[1..], if mark <= at - MAX_LAG then at - MAX_LAG else mark);
      }
    }
  }

  /** A time before all calls. */
  function Earliest(events: seq<Event>): (mark: real)
    ensures CallsFrom(events, mark)
  {
    if events == [] then 0.0 else
      var rest := Earliest(events[1..]);
      assert forall i :: 0 < i < |events| ==> events[i] == events[1..][i - 1];
      if events[0].at < rest then events[0].at else rest
  }

  /** From a fresh limiter, no run can tell whether idle buckets are evicted, as long as no call lags more
      than nine minutes behind a sweep. */
  lemma FreshEvictionIsInvisible(l: Limits, events: seq<Event>)
    requires LagsLittle(events)
    ensures Decisions(l, map[], events, true) == Decisions(l, map[], events, false)
  {
    EvictionIsInvisible(l, map[], map[], events, Earliest(events));
  }

  /** Nondecreasing times never lag. */
  lemma OrderedLagsLittle(events: seq<Event>, from: real)
    requires Ordered(events, from)
    ensures LagsLittle(events)
  {}

  /** Nine minutes is exact: for any longer lag there is a run in which the lagging call can tell. */
  lemma LaggingCallTells(client: Client, lag: real)
    requires lag > MAX_LAG
    ensures var l, sweep := LimitsFor(1), IDLE_LIMIT + (lag - MAX_LAG) / 2.0;
            var events := [Call(client, 0.0), Sweep(sweep), Call(client, sweep - lag)];
            Decisions(l, map[], events, true) != Decisions(l, map[], events, false)
  {
    var l, sweep := LimitsFor(1), IDLE_LIMIT + (lag - MAX_LAG) / 2.0;
    var at := sweep - lag;
    var events := [Call(client, 0.0), Sweep(sweep), Call(client, at)];
    var spent: map<Client, Bucket> := map[client := Bucket(0.0, 0.0)];
    assert AfterCall(l, map[], client, 0.0) == spent && Swept(spent, sweep) == map[];
    assert events[1..] == [Sweep(sweep), Call(client, at)] && events[1..][1..] == [Call(client, at)];
    assert Admits(l, map[], client, at) && !Admits(l, spent, client, at);
    assert Decisions(l, map[], events, true)[2] == Decisions(l, map[], [Call(client, at)], true)[0];
    assert Decisions(l, map[], events, false)[2] == Decisions(l, spent, [Call(client, at)], false)[0];
  }

  // ---------------------------------------------------------------- how much a window admits

  /** Admitted calls of one client. */
  function Admitted(l: Limits, m: map<Client, Bucket>, events: seq<Event>, evicting: bool, client: Client): nat
    decreases |events|
  {
    if events == [] then 0
    else (if events[0].Call? && events[0].client == client && Decision(l, m, events[0]) then 1 else 0)
         + Admitted(l, After(l, m, events[0], evicting), events[1..], evicting, client)
  }

  function AfterAll(l: Limits, m: map<Client, Bucket>, events: seq<Event>, evicting: bool): map<Client, Bucket>
    decreases |events|
  {
    if events == [] then m else AfterAll(l, After(l, m, events[0], evicting), events[1..], evicting)
  }

  /** The seconds by which the events' times move forward, each step counted from the time before it. */
  function Forward(events: seq<Event>, from: real): (f: real)
    ensures f >= 0.0
    decreases |events|
  {
    if events == [] then 0.0 else Ahead(from, events[0].at) + Forward(events[1..], events[0].at)
  }

  function Ahead(t: real, u: real): real {
    if t <= u then u - t else 0.0
  }

  lemma EventKeepsFunded(l: Limits, m: map<Client, Bucket>, event: Event, evicting: bool)
    requires Funded(l, m)
    ensures Funded(l, After(l, m, event, evicting))
  {}

  lemma RefillGrows(l: Limits, b: Bucket, t: real, u: real)
    requires 0.0 <= b.tokens <= l.burst
    ensures 0.0 <= Refilled(l, b, u) <= l.burst
    ensures Refilled(l, b, u) <= Refilled(l, b, t) + Gain(l, Ahead(t, u))
  {
    if u > b.last {
      if t <= b.last {
        GainAdds(l, t, b.last, u);
        assert Gain(l, b.last - t) >= 0.0;
      } else if t <= u {
        GainAdds(l, b.last, t, u);
      } else {
        GainAdds(l, b.last, u, t);
        assert Gain(l, t - u) >= 0.0;
      }
    }
  }

  /** A budget grows at most by what the time moved forward, and not beyond the burst. */
  lemma BudgetGrows(l: Limits, m: map<Client, Bucket>, client: Client, t: real, u: real)
    requires Funded(l, m)
    ensures 0.0 <= Budget(l, m, client, u) <= l.burst
    ensures Budget(l, m, client, u) <= Budget(l, m, client, t) + Gain(l, Ahead(t, u))
  {
    if client in m {
      RefillGrows(l, m[client], t, u);
    }
  }

  /** An admitted call costs one token, and nothing else changes a budget. */
  lemma EventSpends(l: Limits, m: map<Client, Bucket>, event: Event, evicting: bool, client: Client)
    requires Funded(l, m)
    ensures Budget(l, After(l, m, event, evicting), client, event.at) ==
            Budget(l, m, client, event.at)
            - (if event.Call? && event.client == client && Decision(l, m, event) then 1.0 else 0.0)
  {
    if event.Sweep? && client in m && event.at - m[client].last > IDLE_LIMIT {
      IdleIsFull(l, m[client], event.at);
      FullStays(l, m[client], event.at - MAX_LAG, event.at);
    }
  }

  /** For every sequence of times, in order or not: calls are paid for by the budget at the start and by
      the seconds the times move forward. */
  lemma {:induction false} SpendingBound(l: Limits, m: map<Client, Bucket>, events: seq<Event>, evicting: bool, client: Client, from: real)
    requires Funded(l, m)
    ensures Admitted(l, m, events, evicting, client) as real <= Budget(l, m, client, from) + Gain(l, Forward(events, from))
    decreases |events|
  {
    BudgetGrows(l, m, client, from, from);
    if events != [] {
      var event := events[0];
      BudgetGrows(l, m, client, from, event.at);
      EventSpends(l, m, event, evicting, client);
      EventKeepsFunded(l, m, event, evicting);
      SpendingBound(l, After(l, m, event, evicting), events[1..], evicting, client, event.at);
      GainAdds(l, 0.0, Ahead(from, event.at), Forward(events, from));
    }
  }

  lemma {:induction false} RunKeepsFunded(l: Limits, m: map<Client, Bucket>, events: seq<Event>, evicting: bool)
    requires Funded(l, m)
    ensures Funded(l, AfterAll(l, m, events, evicting))
    decreases |events|
  {
    if events != [] {
      EventKeepsFunded(l, m, events[0], evicting);
      RunKeepsFunded(l, After(l, m, events[0], evicting), events[1..], evicting);
    }
  }

  /** Whatever happened before and in whatever order the times come, a window admits at most
      burst + rate * (the seconds its times move forward) calls of one client. */
  lemma AnyOrderBound(l: Limits, before: seq<Event>, window: seq<Event>, evicting: bool, client: Client, from: real)
    ensures Admitted(l, AfterAll(l, map[], before, evicting), window, evicting, client) as real
            <= l.burst + Gain(l, Forward(window, from))
  {
    var m := AfterAll(l, map[], before, evicting);
    RunKeepsFunded(l, map[], before, evicting);
    BudgetGrows(l, m, client, from, from);
    SpendingBound(l, m, window, evicting, client, from);
  }

  /** In order, the steps forward add up to no more than the window. */
  lemma {:induction false} OrderedMovesOnce(events: seq<Event>, from: real, end: real)
    requires Ordered(events, from) && from <= end && forall i :: 0 <= i < |events| ==> events[i].at <= end
    ensures Forward(events, from) <= end - from
    decreases |events|
  {
    if events != [] {
      OrderedMovesOnce(events[1..], events[0].at, end);
    }
  }

  /** So a window of `length` seconds with nondecreasing times admits at most burst + rate * length calls
      of one client, whatever happened before. */
  lemma WindowBound(l: Limits, before: seq<Event>, window: seq<Event>, evicting: bool, client: Client, start: real, length: real)
    requires Ordered(window, start) && length >= 0.0 && (forall i :: 0 <= i < |window| ==> window[i].at <= start + length)
    ensures Admitted(l, AfterAll(l, map[], before, evicting), window, evicting, client) as real <= l.burst + Gain(l, length)
  {
    AnyOrderBound(l, before, window, evicting, client, start);
    OrderedMovesOnce(window, start, start + length);
    GainAdds(l, 0.0, Forward(window, start), length);
  }

  /** Out of order the window's length is not enough: a call that carries an earlier time moves the
      bucket's clock back, and the same seconds are refilled twice. Here one a minute admits three within a minute. */
  lemma BackwardTimesOverspend(client: Client)
    ensures var l := LimitsFor(1);
            var window := [Call(client, 60.0), Call(client, 0.0), Call(client, 60.0), Call(client, 0.0), Call(client, 60.0)];
            && (forall e :: e in window ==> 0.0 <= e.at <= 60.0)
            && Admitted(l, map[], window, true, client) as real > l.burst + Gain(l, 60.0)
  {
    var l := LimitsFor(1);
    var high, low := Call(client, 60.0), Call(client, 0.0);
    var spent, back := map[client := Bucket(0.0, 60.0)], map[client := Bucket(0.0, 0.0)];
    assert After(l, map[], high, true) == spent && Decision(l, map[], high);
    assert After(l, spent, low, true) == back && !Decision(l, spent, low);
    assert After(l, back, high, true) == spent && Decision(l, back, high);
    var last := [high];
    var three := [high, low, high];
    assert three[1..] == [low, high] && [low, high][1..] == last;
    assert Admitted(l, back, last, true, client) == 1;
    assert Admitted(l, spent, [low, high], true, client) == 1;
    assert Admitted(l, back, three, true, client) == 2;
    var window := [high, low, high, low, high];
    assert window[1..] == [low] + three && ([low] + three)[1..] == three;
    assert Admitted(l, spent, [low] + three, true, client) == 2;
    assert Admitted(l, map[], window, true, client) == 3;
  }
}
