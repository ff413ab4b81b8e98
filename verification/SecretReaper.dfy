/** The reaper's batches and why no reclaimable secret starves behind a backlog. */
module SecretReaper {
  import opened Common
  import opened SecretProtocol
  import opened Batches

  // ---------------------------------------------------------------- the claim order

  /** datetime() shows whole seconds of a value kept in milliseconds. */
  function Seconds(t: Time): int {
    Millis(t) / 1000
  }

  /** The second since which a row is reclaimable, as the claim query orders by it. */
  function Since(row: Row, ttl: Time): int {
    var expiry := Seconds(row.expires);
    if row.state.PendingUpload? && Seconds(row.created) + ttl / SECOND < expiry
    then Seconds(row.created) + ttl / SECOND else expiry
  }

  lemma SecondsShift(t: Time, n: int)
    ensures Seconds(t + n * SECOND) == Seconds(t) + n
  {}

  /** A row is not ordered after the second in which it became reclaimable. */
  lemma SinceAtMost(row: Row, ttl: Time, now: Time)
    requires ttl >= SECOND && Reclaimable(row, ttl, now)
    ensures Since(row, ttl) <= Seconds(now)
  {}

  /** A row created at or after that moment is ordered strictly later. */
  lemma NewRowsSortAfter(row: Row, ttl: Time, since: Time, clock: Time)
    requires ttl >= SECOND && NewRow(row, clock) && since <= row.created
    ensures Seconds(since) < Since(row, ttl)
  {}

  /** That needs a pending window of at least a second: the query adds whole seconds only, so with a
      shorter one a new upload can tie with a row that is already reclaimable. */
  lemma NewRowsSortAfterIff(ttl: Time, since: Time)
    requires ttl > 0
    ensures (forall row, clock :: NewRow(row, clock) && since <= row.created ==> Seconds(since) < Since(row, ttl)) <==> ttl >= SECOND
  {
    if ttl >= SECOND {
      forall row, clock | NewRow(row, clock) && since <= row.created ensures Seconds(since) < Since(row, ttl) {
        NewRowsSortAfter(row, ttl, since, clock);
      }
    } else {
      var row := Row(S3, PendingUpload, None, 32, since, since + SECOND, None, 0);
      assert NewRow(row, since);
      SecondsShift(since, 1);
    }
  }

  /** Finalizing only moves a row back in the order. */
  lemma FinalizingRaises(row: Row, ttl: Time)
    ensures Since(row, ttl) <= Since(row.(state := Active), ttl)
  {}

  // ---------------------------------------------------------------- batches

  function Candidates(rows: map<SecretId, Row>, ttl: Time, now: Time): map<SecretId, int> {
    map id | id in rows && Reclaimable(rows[id], ttl, now) :: Since(rows[id], ttl)
  }

  /** One committed claim: the batch leaves, nothing else that is unconsumed does. */
  ghost predicate ClaimsBatch(s: State, t: State, now: Time, batch: seq<SecretId>, limit: nat) {
    && Picks(Candidates(s.rows, s.pendingTtl, now), batch, limit)
    && t.clock >= s.clock && t.pendingTtl == s.pendingTtl && s.past.Keys <= t.past.Keys
    && (forall id :: id in t.rows ==> id in s.rows && id !in batch && t.rows[id] == s.rows[id])
    && (forall id :: id in s.rows && id !in batch && s.rows[id].consumed.None? ==> id in t.rows)
    && (forall id :: id in batch && id in s.rows && s.rows[id].backend.S3? ==> id in t.jobs)
  }

  // ---------------------------------------------------------------- no starvation

  /** Rows that could still be claimed no later than key `k`. */
  ghost function Ahead(s: State, k: int): set<SecretId> {
    set id | id in s.rows && s.rows[id].consumed.None? && Since(s.rows[id], s.pendingTtl) <= k
  }

  /** A create whose row lands among those ordered no later than `k`: its clock reading was stale. */
  predicate Late(m: Move, ttl: Time, k: int) {
    m.Create? && Since(m.row, ttl) <= k
  }

  /** A committed tick that read its clock no earlier than `since`. */
  ghost predicate Claim(s: State, t: State, since: Time, limit: nat) {
    exists now, batch :: since <= now && ClaimsBatch(s, t, now, batch, limit)
  }

  /** How many ticks and how many late creates a run has seen. */
  datatype Tally = Tally(claims: nat, late: nat)

  /** Any move at all, single reclaims by ticks with an older reading included, or a tick. */
  ghost predicate Step(r: State, before: Tally, t: State, after: Tally, k: int, since: Time, limit: nat) {
    || (exists m :: Allowed(r, m) && t == Apply(r, m)
                    && after == before.(late := before.late + (if Late(m, r.pendingTtl, k) then 1 else 0)))
    || (after == before.(claims := before.claims + 1) && Claim(r, t, since, limit))
  }

  /** `t` follows `s` by `length` steps of anyone. */
  ghost predicate Run(s: State, length: nat, t: State, tally: Tally, k: int, since: Time, limit: nat)
    decreases length
  {
    if length == 0 then s == t && tally == Tally(0, 0)
    else exists r, before :: Run(s, length - 1, r, before, k, since, limit) && Step(r, before, t, tally, k, since, limit)
  }

  /** What holds of the waiting secret and its backlog. */
  ghost predicate Waiting(s: State, t: State, x: SecretId, since: Time, limit: nat, tally: Tally)
    requires x in s.rows
  {
    var k := Since(s.rows[x], s.pendingTtl);
    && x in t.past && since <= t.clock && t.pendingTtl == s.pendingTtl
    && (x in t.rows ==>
          && t.rows[x] == s.rows[x]
          && |Ahead(t, k)| + tally.claims * limit <= |Ahead(s, k)| + tally.late)
  }

  lemma MoveAhead(s: State, m: Move, k: int, id: SecretId)
    requires Allowed(s, m) && id in Ahead(Apply(s, m), k) && !(m.Create? && id == m.id)
    ensures id in Ahead(s, k)
  {
    if !m.Tick? && id != m.id {
      MoveElsewhere(s, m, id);
    } else if m.Activate? {
      FinalizingRaises(s.rows[id], s.pendingTtl);
    }
  }

  /** Only a late create adds to those ahead, and only itself. */
  lemma MovesAhead(s: State, m: Move, k: int)
    requires Allowed(s, m)
    ensures Ahead(Apply(s, m), k) <= Ahead(s, k) + (if Late(m, s.pendingTtl, k) then {m.id} else {})
  {
    forall id | id in Ahead(Apply(s, m), k) && !(m.Create? && id == m.id) ensures id in Ahead(s, k) {
      MoveAhead(s, m, k, id);
    }
  }

  /** No move but its own reclaim touches a reclaimable row. */
  lemma MovesLeaveWaiting(s: State, m: Move, x: SecretId)
    requires Allowed(s, m) && x in s.past && (x in s.rows ==> Reclaimable(s.rows[x], s.pendingTtl, s.clock))
    ensures x in Apply(s, m).past && Apply(s, m).clock >= s.clock && Apply(s, m).pendingTtl == s.pendingTtl
    ensures x in Apply(s, m).rows ==> x in s.rows && Apply(s, m).rows[x] == s.rows[x]
  {
    if !m.Tick? && m.id != x {
      MoveElsewhere(s, m, x);
    }
  }

  lemma ClaimTakesAhead(s: State, t: State, x: SecretId, now: Time, batch: seq<SecretId>, limit: nat)
    requires ClaimsBatch(s, t, now, batch, limit) && x in t.rows && Reclaimable(s.rows[x], s.pendingTtl, now)
    ensures var k := Since(s.rows[x], s.pendingTtl); |Ahead(t, k)| + limit <= |Ahead(s, k)|
  {
    var k := Since(s.rows[x], s.pendingTtl);
    assert x in Candidates(s.rows, s.pendingTtl, now) && x !in batch;
    forall id | id in batch ensures id in Ahead(s, k) && id !in Ahead(t, k) {}
    WithoutBatch(Ahead(t, k), Ahead(s, k), batch);
  }

  lemma MoveKeepsWaiting(s: State, r: State, m: Move, x: SecretId, since: Time, limit: nat, tally: Tally)
    requires x in s.rows && Reclaimable(s.rows[x], s.pendingTtl, since) && Waiting(s, r, x, since, limit, tally) && Allowed(r, m)
    ensures var late := if Late(m, r.pendingTtl, Since(s.rows[x], s.pendingTtl)) then 1 else 0;
            Waiting(s, Apply(r, m), x, since, limit, tally.(late := tally.late + late))
  {
    var k := Since(s.rows[x], s.pendingTtl);
    MovesAhead(r, m, k);
    MovesLeaveWaiting(r, m, x);
    SubsetSize(Ahead(Apply(r, m), k), Ahead(r, k) + (if Late(m, r.pendingTtl, k) then {m.id} else {}));
  }

  lemma ClaimKeepsWaiting(s: State, r: State, t: State, x: SecretId, since: Time, limit: nat, tally: Tally)
    requires x in s.rows && Reclaimable(s.rows[x], s.pendingTtl, since)
    requires Waiting(s, r, x, since, limit, tally) && Claim(r, t, since, limit)
    ensures Waiting(s, t, x, since, limit, tally.(claims := tally.claims + 1))
  {
    var now, batch :| since <= now && ClaimsBatch(r, t, now, batch, limit);
    if x in t.rows {
      ClaimTakesAhead(r, t, x, now, batch, limit);
      assert (tally.claims + 1) * limit == tally.claims * limit + limit;
    }
  }

  lemma StepKeepsWaiting(s: State, r: State, before: Tally, t: State, after: Tally, x: SecretId, since: Time, limit: nat)
    requires x in s.rows && Reclaimable(s.rows[x], s.pendingTtl, since) && Waiting(s, r, x, since, limit, before)
    requires Step(r, before, t, after, Since(s.rows[x], s.pendingTtl), since, limit)
    ensures Waiting(s, t, x, since, limit, after)
  {
    var k := Since(s.rows[x], s.pendingTtl);
    if after == before.(claims := before.claims + 1) && Claim(r, t, since, limit) {
      ClaimKeepsWaiting(s, r, t, x, since, limit, before);
    } else {
      var m :| Allowed(r, m) && t == Apply(r, m)
               && after == before.(late := before.late + (if Late(m, r.pendingTtl, k) then 1 else 0));
      MoveKeepsWaiting(s, r, m, x, since, limit, before);
    }
  }

  /** While a reclaimable secret waits, every tick takes a full batch of those ahead of it, and only late
      creates add to them. */
  lemma {:induction false} BacklogShrinks(s: State, length: nat, t: State, tally: Tally, x: SecretId, since: Time, limit: nat)
    requires x in s.rows && x in s.past && since <= s.clock && Reclaimable(s.rows[x], s.pendingTtl, since)
    requires Run(s, length, t, tally, Since(s.rows[x], s.pendingTtl), since, limit)
    ensures Waiting(s, t, x, since, limit, tally)
    decreases length
  {
    if length == 0 {
      assert tally.claims * limit == 0;
    } else {
      var k := Since(s.rows[x], s.pendingTtl);
      var r, before :| Run(s, length - 1, r, before, k, since, limit) && Step(r, before, t, tally, k, since, limit);
      BacklogShrinks(s, length - 1, r, before, x, since, limit);
      StepKeepsWaiting(s, r, before, t, tally, x, since, limit);
    }
  }

  /** A reclaimable secret that `n` live rows are not ordered after, itself included, is gone once
      `claims` ticks have room for those and for the creates that came late: whatever else happens. */
  lemma NoStarvation(s: State, length: nat, t: State, tally: Tally, x: SecretId, since: Time, limit: nat)
    requires Reachable(s) && x in s.rows && since <= s.clock && Reclaimable(s.rows[x], s.pendingTtl, since)
    requires Run(s, length, t, tally, Since(s.rows[x], s.pendingTtl), since, limit)
    requires |Ahead(s, Since(s.rows[x], s.pendingTtl))| + tally.late <= tally.claims * limit
    ensures x !in t.rows
  {
    ReachableInv(s);
    assert IdOk(s, x);
    BacklogShrinks(s, length, t, tally, x, since, limit);
    assert x in t.rows ==> x in Ahead(t, Since(s.rows[x], s.pendingTtl));
  }

  /** A create that read its clock no earlier than the moment the secret became reclaimable is never late,
      given a pending window of at least a second. */
  lemma OnTimeIsNotLate(waiting: Row, m: Move, ttl: Time, since: Time, clock: Time)
    requires ttl >= SECOND && Reclaimable(waiting, ttl, since)
    requires m.Create? && NewRow(m.row, clock) && since <= m.row.created
    ensures !Late(m, ttl, Since(waiting, ttl))
  {
    SinceAtMost(waiting, ttl, since);
    NewRowsSortAfter(m.row, ttl, since, clock);
  }

  lemma LateThenClaim(s: State, m: Move, t: State, k: int, since: Time, limit: nat)
    requires Allowed(s, m) && Late(m, s.pendingTtl, k) && Claim(Apply(s, m), t, since, limit)
    ensures Run(s, 2, t, Tally(1, 1), k, since, limit)
  {
    var r := Apply(s, m);
    assert Run(s, 0, s, Tally(0, 0), k, since, limit) && Step(s, Tally(0, 0), r, Tally(0, 1), k, since, limit);
    assert Run(s, 1, r, Tally(0, 1), k, since, limit) && Step(r, Tally(0, 1), t, Tally(1, 1), k, since, limit);
  }

  lemma TakesTheEarlier(r: State, t: State, now: Time)
    requires r.rows.Keys == {0, 1} && Reclaimable(r.rows[1], r.pendingTtl, now) && r.rows[1].backend.Inline?
    requires Since(r.rows[1], r.pendingTtl) <= Since(r.rows[0], r.pendingTtl)
    requires t.rows == r.rows - {1} && t.clock == r.clock && t.pendingTtl == r.pendingTtl && t.past.Keys == r.past.Keys
    ensures Claim(r, t, now, 1)
  {
    assert Picks(Candidates(r.rows, r.pendingTtl, now), [1], 1);
    assert ClaimsBatch(r, t, now, [1], 1);
  }

  /** One inline secret, created at 0 and expired at 10 seconds, which is now. */
  const AloneAndExpired := State(
    10 * SECOND, 15 * MINUTE, map[0 := Row(Inline, Active, None, 32, 0, 10 * SECOND, None, 0)], {0},
    map[0 := Management(0, 10 * SECOND, None)], map[], {}, {}, map[], map[], map[0 := []])

  lemma AloneIsReachable()
    ensures Reachable(AloneAndExpired)
  {
    var start := State(10 * SECOND, 15 * MINUTE, map[], {}, map[], map[], {}, {}, map[], map[], map[]);
    ReachesSelf(start);
    var m := Create(0, AloneAndExpired.rows[0], 0);
    OneMove(start, m);
    assert Apply(start, m).payloads == {0};
    assert Apply(start, m) == AloneAndExpired;
  }

  /** Late creates do count: a secret waits alone, a create that read its clock five seconds earlier
      commits with a lifetime of two, and the next tick, with room for one, takes the newcomer. */
  lemma StaleCreateDelays() returns (t: State)
    ensures var s := AloneAndExpired;
            && Reachable(s) && Reclaimable(s.rows[0], s.pendingTtl, s.clock)
            && |Ahead(s, Since(s.rows[0], s.pendingTtl))| == 1
            && Run(s, 2, t, Tally(1, 1), Since(s.rows[0], s.pendingTtl), s.clock, 1) && 0 in t.rows
  {
    var s := AloneAndExpired;
    AloneIsReachable();
    var k := Since(s.rows[0], s.pendingTtl);
    assert Ahead(s, k) == {0};
    var m := Create(1, Row(Inline, Active, None, 32, 5 * SECOND, 7 * SECOND, None, 0), 0);
    var r := Apply(s, m);
    t := Apply(r, Reclaim(1, s.clock));
    assert r.rows.Keys == {0, 1};
    TakesTheEarlier(r, t, s.clock);
    LateThenClaim(s, m, t, k, s.clock, 1);
  }
}
