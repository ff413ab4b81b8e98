/** One-time secrets: every committed transaction and every effect on the bucket as an atomic move.
    A run is any interleaving of senders, recipients, the reaper, the reconciliation scanner, the
    open handlers and arbitrarily delayed worker deletes. */
module SecretProtocol {
  import opened Common
  import R = Runs

  type SecretId = nat
  type JobId = nat

  const MAX_FAILED_ACCESSES := 5
  const OPEN_STREAM_TIMEOUT: Time := 30 * MINUTE
  const OPEN_OBJECT_GRACE: Time := OPEN_STREAM_TIMEOUT + 5 * MINUTE

  datatype Backend = Inline | S3

  datatype UploadState = Active | PendingUpload

  datatype Outcome = Opened | Locked | Cancelled | Unavailable

  datatype Row = Row(
    backend: Backend, state: UploadState, proof: Option<Digest>, size: nat,
    created: Time, expires: Time, consumed: Option<Time>, failed: nat)

  datatype Management = Management(token: Digest, expires: Time, outcome: Option<Outcome>)

  /** An opened object's body on its way to the recipient, cut off at the deadline. */
  datatype Stream = Stream(deadline: Time, ended: bool)

  /** The tables, the bucket, and what has happened. A secret's object key is derived from its id,
      so both are named by the id. `jobs` are the ids whose object ever got a delete job, `purges`
      those whose payload did; `past` lists what became of each id ever issued. */
  datatype State = State(
    clock: Time, pendingTtl: Time, rows: map<SecretId, Row>, payloads: set<SecretId>,
    management: map<SecretId, Management>, claims: map<SecretId, JobId>, jobs: set<SecretId>, purges: set<SecretId>,
    bucket: map<SecretId, nat>, streams: map<SecretId, Stream>, past: map<SecretId, seq<Outcome>>)

  predicate Start(s: State) {
    && s.rows == map[] && s.payloads == {} && s.management == map[] && s.claims == map[] && s.jobs == {}
    && s.purges == {} && s.bucket == map[] && s.streams == map[] && s.past == map[]
  }

  // ---------------------------------------------------------------- what the rows mean

  /** When a row stops being able to lead to an open. */
  function Deadline(row: Row, ttl: Time): Time {
    if row.state.PendingUpload? && row.created + ttl < row.expires then row.created + ttl else row.expires
  }

  /** The secret can still be opened, at once or after its upload is finalized. */
  predicate CanOpen(s: State, id: SecretId) {
    id in s.rows && s.rows[id].consumed.None? && s.clock < Deadline(s.rows[id], s.pendingTtl)
  }

  /** The object is needed for that. */
  predicate Needed(s: State, id: SecretId) {
    CanOpen(s, id) && s.rows[id].backend.S3?
  }

  /** The payload is needed for that. */
  predicate NeedsPayload(s: State, id: SecretId) {
    id in s.rows && s.rows[id].backend.Inline? && s.rows[id].consumed.None?
  }

  /** The opened body may still be streaming. */
  predicate InWindow(s: State, id: SecretId) {
    id in s.streams && !s.streams[id].ended && s.clock < s.streams[id].deadline
  }

  /** The scanner's decision about a listed object. */
  predicate Protected(s: State, id: SecretId) {
    id in s.rows && s.rows[id].backend.S3? &&
    var row := s.rows[id];
    if row.consumed.Some? then s.clock < row.consumed.value + OPEN_OBJECT_GRACE
    else s.clock < row.expires && (row.state.Active? || s.clock < row.created + s.pendingTtl)
  }

  /** The reaper's claim condition, at the clock reading it took. */
  predicate Reclaimable(row: Row, ttl: Time, now: Time) {
    row.consumed.None? && (row.expires <= now || (row.state.PendingUpload? && row.created <= now - ttl))
  }

  /** julianday() keeps whole milliseconds, rounded to the nearest, but never into the next second. */
  function Millis(t: Time): int {
    var rounded := (t % SECOND + 500_000) / 1_000_000;
    t / SECOND * 1000 + (if rounded > 999 then 999 else rounded)
  }

  /** The purge leaves the row of an object that was opened within the grace. */
  predicate MayStream(row: Row, now: Time) {
    row.backend.S3? && row.consumed.Some? && Millis(row.consumed.value) > Millis(now - OPEN_OBJECT_GRACE)
  }

  predicate Unused(s: State, id: SecretId) {
    && id !in s.past && id !in s.rows && id !in s.payloads && id !in s.management && id !in s.claims && id !in s.jobs
    && id !in s.purges && id !in s.bucket && id !in s.streams
  }

  // ---------------------------------------------------------------- moves

  datatype Move =
    | Tick(to: Time)
    | Create(id: SecretId, row: Row, token: Digest)
    | Upload(id: SecretId, size: nat)
    | Activate(id: SecretId)
    | Open(id: SecretId, began: Time)
    | EndStream(id: SecretId)
    | EnqueueOpened(id: SecretId)
    | FailAccess(id: SecretId)
    | Revoke(id: SecretId)
    | Reclaim(id: SecretId, now: Time)
    | Purge(id: SecretId, now: Time)
    | Scan(id: SecretId, job: JobId)
    | Acknowledge(id: SecretId, job: JobId)
    | CleanPayload(id: SecretId)
    | DeleteObject(id: SecretId)

  predicate NewRow(row: Row, clock: Time) {
    && row.consumed.None? && row.failed == 0 && row.created <= clock && row.created + SECOND <= row.expires
    && (row.backend.S3? <==> row.state.PendingUpload?)
  }

  predicate Allowed(s: State, m: Move) {
    match m
    case Tick(to) => s.clock <= to
    case Create(id, row, token) => Unused(s, id) && NewRow(row, s.clock)
    case Upload(id, size) => true
    case Activate(id) => id in s.rows && s.rows[id].state.PendingUpload? && CanOpen(s, id) && id in s.bucket
    case Open(id, began) =>
      && CanOpen(s, id) && s.rows[id].state.Active? && began <= s.clock
      && (s.rows[id].backend.S3? ==> id in s.bucket)
    case EndStream(id) => id in s.streams
    case EnqueueOpened(id) => id in s.streams && s.streams[id].ended
    case FailAccess(id) => CanOpen(s, id) && s.rows[id].state.Active? && s.rows[id].proof.Some?
    case Revoke(id) => id in s.management && s.management[id].outcome.None? && CanOpen(s, id)
    case Reclaim(id, now) => id in s.rows && now <= s.clock && Reclaimable(s.rows[id], s.pendingTtl, now)
    case Purge(id, now) =>
      && id in s.management && now <= s.clock && s.management[id].expires <= now
      && !(id in s.rows && MayStream(s.rows[id], now))
    case Scan(id, job) => id !in s.claims && !Protected(s, id)
    case Acknowledge(id, job) => true
    case CleanPayload(id) => !NeedsPayload(s, id)
    case DeleteObject(id) => id in s.jobs
  }

  /** The outcome column is written only while it is null; the log takes every outcome. */
  function Recorded(s: State, id: SecretId, outcome: Outcome): State {
    s.(management := if id in s.management && s.management[id].outcome.None?
                     then s.management[id := s.management[id].(outcome := Some(outcome))] else s.management,
       past := s.past[id := (if id in s.past then s.past[id] else []) + [outcome]])
  }

  /** The delete job for a row's object, queued in the same transaction. */
  function JobsWith(s: State, id: SecretId): set<SecretId>
    requires id in s.rows
  {
    if s.rows[id].backend.S3? then s.jobs + {id} else s.jobs
  }

  function Dropped(s: State, id: SecretId): State {
    s.(rows := s.rows - {id}, payloads := s.payloads - {id})
  }

  function AfterFailure(s: State, id: SecretId): State
    requires id in s.rows
  {
    var row := s.rows[id];
    if row.failed + 1 < MAX_FAILED_ACCESSES then s.(rows := s.rows[id := row.(failed := row.failed + 1)])
    else Recorded(s.(rows := s.rows[id := row.(failed := row.failed + 1, consumed := Some(s.clock))],
                     jobs := JobsWith(s, id),
                     payloads := if row.backend.Inline? then s.payloads - {id} else s.payloads), id, Locked)
  }

  function AfterOpen(s: State, id: SecretId, began: Time): State
    requires id in s.rows
  {
    var row := s.rows[id];
    Recorded(s.(rows := s.rows[id := row.(consumed := Some(s.clock))], purges := s.purges + {id},
                streams := if row.backend.S3? then s.streams[id := Stream(began + OPEN_STREAM_TIMEOUT, false)] else s.streams),
             id, Opened)
  }

  function Apply(s: State, m: Move): State
    requires Allowed(s, m)
  {
    match m
    case Tick(to) => s.(clock := to)
    case Create(id, row, token) =>
      s.(rows := s.rows[id := row], payloads := if row.backend.Inline? then s.payloads + {id} else s.payloads,
         management := s.management[id := Management(token, row.expires, None)], past := s.past[id := []])
    case Upload(id, size) => s.(bucket := s.bucket[id := size])
    case Activate(id) => s.(rows := s.rows[id := s.rows[id].(state := Active)])
    case Open(id, began) => AfterOpen(s, id, began)
    case EndStream(id) => s.(streams := s.streams[id := s.streams[id].(ended := true)])
    case EnqueueOpened(id) => s.(jobs := s.jobs + {id})
    case FailAccess(id) => AfterFailure(s, id)
    case Revoke(id) => Recorded(Dropped(s, id).(jobs := JobsWith(s, id)), id, Cancelled)
    case Reclaim(id, now) =>
      var t := Dropped(s, id).(jobs := JobsWith(s, id));
      if s.rows[id].state.PendingUpload? then Recorded(t, id, Unavailable) else t
    case Purge(id, now) =>
      var t := if id in s.rows && s.rows[id].consumed.Some? then Dropped(s, id) else s;
      t.(management := t.management - {id})
    case Scan(id, job) => s.(claims := s.claims[id := job], jobs := s.jobs + {id})
    case Acknowledge(id, job) =>
      if id in s.claims && s.claims[id] == job then s.(claims := s.claims - {id}) else s
    case CleanPayload(id) => s.(payloads := s.payloads - {id})
    case DeleteObject(id) => s.(bucket := s.bucket - {id})
  }

  // ---------------------------------------------------------------- invariant

  predicate RowOk(s: State, id: SecretId)
    requires id in s.rows && id in s.past
  {
    var row := s.rows[id];
    && row.failed <= MAX_FAILED_ACCESSES && (row.failed == MAX_FAILED_ACCESSES <==> s.past[id] == [Locked])
    && (row.consumed.Some? <==> s.past[id] != []) && s.past[id] in {[], [Opened], [Locked]}
    && (row.consumed.Some? ==> row.consumed.value <= s.clock)
    && (row.state.PendingUpload? ==> row.backend.S3? && row.consumed.None? && row.failed == 0)
    && (row.backend.Inline? && row.consumed.None? ==> id in s.payloads)
    && (row.backend.S3? && row.state.Active? && CanOpen(s, id) ==> id in s.bucket)
  }

  predicate ManagementOk(s: State, id: SecretId)
    requires id in s.management && id in s.past
  {
    var m := s.management[id];
    && m.outcome == (if s.past[id] == [] then None else Some(s.past[id][0]))
    && (id in s.rows ==> m.expires == s.rows[id].expires)
    && (id !in s.rows && m.outcome.None? ==> m.expires <= s.clock)
  }

  predicate StreamOk(s: State, id: SecretId)
    requires id in s.streams
  {
    && id in s.past && s.past[id] == [Opened]
    && (InWindow(s, id) ==>
          && id in s.bucket && id in s.rows && s.rows[id].backend.S3? && s.rows[id].consumed.Some?
          && s.streams[id].deadline <= s.rows[id].consumed.value + OPEN_STREAM_TIMEOUT)
  }

  predicate IdOk(s: State, id: SecretId) {
    && (id in s.past ==> |s.past[id]| <= 1)
    && (id in s.rows ==> id in s.past && RowOk(s, id))
    && (id in s.management ==> id in s.past && ManagementOk(s, id))
    && (id in s.streams ==> StreamOk(s, id))
    && (id in s.jobs ==> !Needed(s, id) && !InWindow(s, id))
    && (id in s.purges ==> id in s.past && s.past[id] == [Opened])
  }

  ghost predicate Inv(s: State) {
    forall id :: IdOk(s, id)
  }

  /** A move concerns one secret. */
  predicate SameEntry(s: State, t: State, x: SecretId) {
    && (x in t.rows <==> x in s.rows) && (x in s.rows ==> t.rows[x] == s.rows[x])
    && (x in t.management <==> x in s.management) && (x in s.management ==> t.management[x] == s.management[x])
    && (x in t.streams <==> x in s.streams) && (x in s.streams ==> t.streams[x] == s.streams[x])
    && (x in t.past <==> x in s.past) && (x in s.past ==> t.past[x] == s.past[x])
    && (x in t.payloads <==> x in s.payloads) && (x in t.bucket <==> x in s.bucket)
    && (x in t.jobs <==> x in s.jobs) && (x in t.purges <==> x in s.purges)
  }

  lemma SameEntryOk(s: State, t: State, x: SecretId)
    requires IdOk(s, x) && SameEntry(s, t, x) && s.clock == t.clock && s.pendingTtl == t.pendingTtl
    ensures IdOk(t, x)
  {}

  lemma OpenElsewhere(s: State, id: SecretId, began: Time, x: SecretId)
    requires id in s.rows && x != id
    ensures SameEntry(s, AfterOpen(s, id, began), x)
  {}

  lemma FailureElsewhere(s: State, id: SecretId, x: SecretId)
    requires id in s.rows && x != id
    ensures SameEntry(s, AfterFailure(s, id), x)
  {}

  lemma EndElsewhere(s: State, m: Move, x: SecretId)
    requires m.Revoke? || m.Reclaim?
    requires Allowed(s, m) && x != m.id
    ensures SameEntry(s, Apply(s, m), x)
  {}

  lemma MoveElsewhere(s: State, m: Move, x: SecretId)
    requires !m.Tick? && Allowed(s, m) && x != m.id
    ensures SameEntry(s, Apply(s, m), x)
  {
    if m.Open? {
      OpenElsewhere(s, m.id, m.began, x);
    } else if m.FailAccess? {
      FailureElsewhere(s, m.id, x);
    } else if m.Revoke? || m.Reclaim? {
      EndElsewhere(s, m, x);
    }
  }

  lemma TickKeeps(s: State, to: Time, id: SecretId)
    requires IdOk(s, id) && s.clock <= to
    ensures IdOk(s.(clock := to), id)
  {}

  lemma LifeKeeps(s: State, m: Move)
    requires m.Create? || m.Upload? || m.Activate? || m.Open? || m.EndStream? || m.EnqueueOpened?
    requires IdOk(s, m.id) && Allowed(s, m)
    ensures IdOk(Apply(s, m), m.id)
  {
    assert [] + [Opened] == [Opened];
  }

  lemma FailureKeeps(s: State, id: SecretId)
    requires IdOk(s, id) && Allowed(s, FailAccess(id))
    ensures IdOk(Apply(s, FailAccess(id)), id)
  {}

  lemma EndKeeps(s: State, m: Move)
    requires m.Revoke? || m.Reclaim? || m.Purge?
    requires IdOk(s, m.id) && Allowed(s, m)
    ensures IdOk(Apply(s, m), m.id)
  {}

  lemma CleanupKeeps(s: State, m: Move)
    requires m.Scan? || m.Acknowledge? || m.CleanPayload? || m.DeleteObject?
    requires IdOk(s, m.id) && Allowed(s, m)
    ensures IdOk(Apply(s, m), m.id)
  {}

  lemma EntryKeeps(s: State, m: Move)
    requires !m.Tick? && IdOk(s, m.id) && Allowed(s, m)
    ensures IdOk(Apply(s, m), m.id)
  {
    if m.Create? || m.Upload? || m.Activate? || m.Open? || m.EndStream? || m.EnqueueOpened? {
      LifeKeeps(s, m);
    } else if m.FailAccess? {
      FailureKeeps(s, m.id);
    } else if m.Revoke? || m.Reclaim? || m.Purge? {
      EndKeeps(s, m);
    } else {
      CleanupKeeps(s, m);
    }
  }

  lemma MoveKeeps(s: State, m: Move)
    requires Inv(s) && Allowed(s, m)
    ensures Inv(Apply(s, m))
  {
    forall x ensures IdOk(Apply(s, m), x) {
      assert IdOk(s, x);
      if m.Tick? {
        TickKeeps(s, m.to, x);
      } else if x == m.id {
        EntryKeeps(s, m);
      } else {
        MoveElsewhere(s, m, x);
        SameEntryOk(s, Apply(s, m), x);
      }
    }
  }

  // ---------------------------------------------------------------- runs

  ghost predicate Next(s: State, t: State) {
    exists m :: Allowed(s, m) && t == Apply(s, m)
  }

  ghost predicate Reaches(s: State, t: State) {
    R.Reaches(Next, s, t)
  }

  ghost predicate Reachable(t: State) {
    exists s :: Start(s) && Reaches(s, t)
  }

  /** Identity and deadlines of a row are fixed; being finalized, consumed or failed is not undone. */
  predicate RowLater(r: Row, r': Row) {
    && r'.backend == r.backend && r'.proof == r.proof && r'.size == r.size && r'.created == r.created && r'.expires == r.expires
    && (r.state.Active? ==> r'.state.Active?) && (r.consumed.Some? ==> r'.consumed == r.consumed && r'.failed == r.failed)
    && r.failed <= r'.failed
  }

  predicate IdLater(s: State, t: State, id: SecretId) {
    && (id in s.past ==> id in t.past && s.past[id] <= t.past[id])
    && (id in s.jobs ==> id in t.jobs)
    && (id in s.past && id in t.rows ==> id in s.rows && RowLater(s.rows[id], t.rows[id]))
    && (id in s.past && id in t.management ==>
          && id in s.management && t.management[id].expires == s.management[id].expires
          && (s.management[id].outcome.Some? ==> t.management[id] == s.management[id]))
    && (id in s.past && !CanOpen(s, id) ==> !CanOpen(t, id))
  }

  ghost predicate Later(s: State, t: State) {
    s.clock <= t.clock && s.pendingTtl == t.pendingTtl && forall id :: IdLater(s, t, id)
  }

  lemma MoveLater(s: State, m: Move)
    requires Inv(s) && Allowed(s, m)
    ensures Later(s, Apply(s, m))
  {
    forall id ensures IdLater(s, Apply(s, m), id) {
      assert IdOk(s, id);
      if !m.Tick? && id != m.id {
        MoveElsewhere(s, m, id);
      } else if !m.Tick? {
        EntryLater(s, m);
      }
    }
  }

  lemma FailureLater(s: State, id: SecretId)
    requires IdOk(s, id) && Allowed(s, FailAccess(id))
    ensures IdLater(s, Apply(s, FailAccess(id)), id)
  {}

  lemma EntryLater(s: State, m: Move)
    requires !m.Tick? && IdOk(s, m.id) && Allowed(s, m)
    ensures IdLater(s, Apply(s, m), m.id)
  {
    if m.FailAccess? {
      FailureLater(s, m.id);
    }
  }

  lemma RunKeeps(s: State, t: State)
    requires Inv(s) && Reaches(s, t)
    ensures Inv(t) && Later(s, t)
  {
    forall x, y | Inv(x) && Next(x, y) ensures Inv(y) && Later(x, y) {
      var m :| Allowed(x, m) && y == Apply(x, m);
      MoveKeeps(x, m);
      MoveLater(x, m);
    }
    forall x, y, z | Inv(x) && Later(x, y) && Later(y, z) ensures Later(x, z) {
      LaterTransitive(x, y, z);
    }
    var n :| R.Steps(Next, s, n, t);
    R.Keeps(Next, Inv, Later, s, n, t);
  }

  lemma LaterTransitive(s: State, t: State, u: State)
    requires Later(s, t) && Later(t, u)
    ensures Later(s, u)
  {
    forall id ensures IdLater(s, u, id) {
      assert IdLater(s, t, id) && IdLater(t, u, id);
    }
  }

  lemma ReachableInv(s: State)
    requires Reachable(s)
    ensures Inv(s)
  {
    var start :| Start(start) && Reaches(start, s);
    RunKeeps(start, s);
  }

  lemma ReachesLater(s: State, t: State)
    requires Reachable(s) && Reaches(s, t)
    ensures Reachable(t) && Later(s, t)
  {
    ReachableInv(s);
    RunKeeps(s, t);
    var start :| Start(start) && Reaches(start, s);
    R.Transitive(Next, start, s, t);
  }

  lemma OneMove(s: State, m: Move)
    requires Reachable(s) && Allowed(s, m)
    ensures Reaches(s, Apply(s, m)) && Reachable(Apply(s, m))
  {
    ReachableInv(s);
    R.One(Next, s, Apply(s, m));
    ReachesLater(s, Apply(s, m));
  }

  lemma ReachesTransitive(s: State, t: State, u: State)
    requires Reaches(s, t) && Reaches(t, u)
    ensures Reaches(s, u)
  {
    R.Transitive(Next, s, t, u);
  }

  lemma ReachesSelf(s: State)
    ensures Reaches(s, s)
  {
    R.Self(Next, s);
  }

  // ---------------------------------------------------------------- theorems

  /** Once a delete job for a secret's object has been queued, the secret can never again be opened
      and its body is no longer streaming, in this state and in every later one. */
  lemma DeleteSafety(s: State, t: State, id: SecretId)
    requires Reachable(s) && Reaches(s, t) && id in s.jobs
    ensures !(CanOpen(t, id) && t.rows[id].backend.S3?) && !InWindow(t, id)
  {
    ReachesLater(s, t);
    ReachableInv(t);
    assert IdLater(s, t, id) && IdOk(t, id);
  }

  /** The object of a finalized secret that can be opened, and of a body that may still be
      streaming, is in the bucket; an inline secret that can be opened has its payload. */
  lemma BodyIsThere(s: State, id: SecretId)
    requires Reachable(s) && (InWindow(s, id) || (CanOpen(s, id) && s.rows[id].state.Active?))
    ensures InWindow(s, id) || s.rows[id].backend.S3? ==> id in s.bucket
    ensures !InWindow(s, id) && s.rows[id].backend.Inline? ==> id in s.payloads
  {
    ReachableInv(s);
    assert IdOk(s, id);
  }

  /** A payload cleanup is only ever queued for a secret that no longer needs its payload. */
  lemma PurgedIsSpent(s: State, t: State, id: SecretId)
    requires Reachable(s) && Reaches(s, t) && id in s.purges
    ensures !NeedsPayload(t, id)
  {
    ReachesLater(s, t);
    ReachableInv(s);
    ReachableInv(t);
    assert IdLater(s, t, id) && IdOk(s, id) && IdOk(t, id);
  }

  /** At most one of opened, locked, cancelled and unavailable ever happens to a secret; the stored
      outcome is that one, and neither changes afterwards. */
  lemma OneOutcome(s: State, t: State, id: SecretId)
    requires Reachable(s) && Reaches(s, t) && id in s.past
    ensures |s.past[id]| <= 1 && id in t.past && (s.past[id] != [] ==> t.past[id] == s.past[id])
    ensures id in s.management ==> s.management[id].outcome == (if s.past[id] == [] then None else Some(s.past[id][0]))
    ensures id in t.management && s.past[id] != [] ==> id in s.management && t.management[id] == s.management[id]
  {
    ReachesLater(s, t);
    ReachableInv(s);
    ReachableInv(t);
    assert IdLater(s, t, id) && IdOk(s, id) && IdOk(t, id);
  }

  /** Failures stop at five, and the fifth is exactly the lock. */
  lemma LockedAtFive(s: State, id: SecretId)
    requires Reachable(s) && id in s.rows
    ensures id in s.past && s.rows[id].failed <= 5 && (s.rows[id].failed == 5 <==> s.past[id] == [Locked])
    ensures s.rows[id].consumed.Some? <==> s.past[id] == [Opened] || s.past[id] == [Locked]
  {
    ReachableInv(s);
    assert IdOk(s, id);
  }

  /** Before its deadline a sender can always be told an outcome or the state of the row. */
  lemma OutcomeNeverMissing(s: State, id: SecretId)
    requires Reachable(s) && id in s.management && s.clock < s.management[id].expires
    ensures s.management[id].outcome.Some? || id in s.rows
  {
    ReachableInv(s);
    assert IdOk(s, id);
  }
}
