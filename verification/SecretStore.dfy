/** The secret tables as the code works on them. Each method is one transaction, or one call on the
    bucket; an interleaving of handlers, reaper, scanner and worker is a sequence of calls. The
    bucket and the clock also move while a transaction waits for the network. */
module SecretStore {
  import opened Common
  import opened SecretProtocol
  import opened SecretReaper
  import opened Batches
  import I = SecretInputs

  datatype FinalizeAnswer = Finalized | FinalizeNotFound | FinalizeExpired | ObjectMissing | HeadFailed

  datatype OpenAnswer =
    | Released(secret: Row)
    | ErrNotFound
    | ErrConsumed
    | ErrExpired
    | ErrInvalidAccess
    | ErrStorage

  datatype Status = StatusActive | StatusPending | StatusEnded(outcome: Outcome)

  datatype ManagementAnswer = Known(status: Status, expires: Time) | ManagementUnavailable

  datatype RevokeAnswer = Revoked | RevokeUnavailable | ErrNotCancellable(status: Status)

  /** Only the bucket and the clock have moved, and no object without a delete job has gone. */
  ghost predicate OnlyOutside(s: State, t: State) {
    && t == s.(bucket := t.bucket, clock := t.clock) && s.clock <= t.clock
    && forall id :: id in s.bucket && id !in s.jobs ==> id in t.bucket
  }

  /** What the sender is told about a delivery, from the columns and a clock reading. */
  function StatusOf(m: Management, row: Option<Row>, ttl: Time, now: Time): Status
    requires m.outcome.None? ==> row.Some?
  {
    if m.outcome.Some? then StatusEnded(m.outcome.value)
    else if row.value.state.Active? then StatusActive
    else if now < row.value.created + ttl then StatusPending
    else StatusEnded(Unavailable)
  }

  /** The token opens a record that has not expired. */
  predicate Manages(s: State, id: SecretId, token: Digest, now: Time) {
    id in s.management && s.management[id].token == token && now < s.management[id].expires
  }

  predicate CanCancel(status: Status) {
    status.StatusActive? || status.StatusPending?
  }

  function RowAt(s: State, id: SecretId): Option<Row> {
    if id in s.rows then Some(s.rows[id]) else None
  }

  /** The bucket holds an object of exactly the declared length. */
  predicate Uploaded(s: State, id: SecretId) {
    id in s.rows && id in s.bucket && s.bucket[id] == s.rows[id].size
  }

  /** The row as OpenTx loads it: finalized, and inline bodies with their ciphertext unless consumed. */
  predicate Loads(s: State, id: SecretId) {
    id in s.rows && s.rows[id].state.Active? && (s.rows[id].backend.Inline? && s.rows[id].consumed.None? ==> id in s.payloads)
  }

  predicate Authorizes(row: Row, proof: Option<Digest>) {
    row.proof.None? || row.proof == proof
  }

  /** A new secret: openable from the start if it is inline, after its upload otherwise, until its lifetime
      ends; its record carries the same deadline. */
  ghost predicate Creates(s: State, t: State, id: SecretId, input: I.CreateInput, token: Digest, now: Time) {
    && id in t.rows && t.rows == s.rows[id := t.rows[id]]
    && t.rows[id].created == now && t.rows[id].expires == now + input.ttlSeconds * SECOND
    && t.rows[id].proof == input.proof && t.rows[id].size == input.sizeBytes
    && (if input.body.Some? then t.rows[id].backend.Inline? && t.rows[id].state.Active? && id in t.payloads
        else t.rows[id].backend.S3? && t.rows[id].state.PendingUpload?)
    && t.management == s.management[id := Management(token, t.rows[id].expires, None)]
    && CanOpen(t.(clock := now), id) == (input.body.Some? || t.pendingTtl > 0)
  }

  /** What a finalize leaves behind: it activates a pending upload before its deadline and with the object in
      place, and otherwise leaves the tables as they were. */
  ghost predicate FinalizeEffect(s: State, t: State, id: SecretId, r: FinalizeAnswer) {
    && (!r.Finalized? ==> OnlyOutside(s, t))
    && (!r.FinalizeNotFound? ==> id in s.rows)
    && (r.Finalized? ==> t == s.(rows := s.rows[id := s.rows[id].(state := Active)], clock := t.clock, bucket := t.bucket))
    && (r.Finalized? && s.rows[id].state.PendingUpload? ==>
          Uploaded(s, id) && id in t.bucket && t.clock < Deadline(s.rows[id], s.pendingTtl))
    && (r.FinalizeExpired? ==> Deadline(s.rows[id], s.pendingTtl) <= t.clock)
    && (r.ObjectMissing? ==> !Uploaded(s, id))
  }

  /** What an open leaves behind: a release takes the secret at an instant before its expiry, a wrong
      proof counts, and anything else changes nothing. */
  ghost predicate OpenEffect(s: State, t: State, id: SecretId, proof: Option<Digest>, began: Time, r: OpenAnswer) {
    && s.clock <= t.clock
    && (r.ErrInvalidAccess? || r.Released? || r.ErrExpired? ==> id in s.rows)
    && (r.ErrExpired? ==> s.rows[id].expires <= t.clock)
    && (r.ErrInvalidAccess? || r.Released? ==> t.clock < s.rows[id].expires)
    && (r.ErrInvalidAccess? ==> !Authorizes(s.rows[id], proof) && t == AfterFailure(s.(clock := t.clock), id))
    && (r.Released? ==>
          && r.secret == s.rows[id] && Authorizes(r.secret, proof)
          && t == AfterOpen(s.(clock := t.clock, bucket := t.bucket), id, began)
          && (r.secret.backend.S3? ==> Uploaded(s, id) && id in t.bucket))
    && (r.ErrStorage? ==> id in s.rows && s.rows[id].backend.S3?)
    && (!r.Released? && !r.ErrInvalidAccess? ==> OnlyOutside(s, t))
  }

  lemma OpenEffectEarlier(s: State, s': State, t: State, id: SecretId, proof: Option<Digest>, began: Time, r: OpenAnswer)
    requires OpenEffect(s', t, id, proof, began, r) && s' == s.(clock := s'.clock) && s.clock <= s'.clock
    ensures OpenEffect(s, t, id, proof, began, r)
  {}

  /** The records the purge may take, with the order it takes them in. */
  function PurgeDue(s: State, now: Time): map<SecretId, int> {
    map id | id in s.management && s.management[id].expires <= now && !(id in s.rows && MayStream(s.rows[id], now))
      :: s.management[id].expires
  }

  /** The records of `done` are gone, and of their rows exactly the consumed ones. */
  ghost predicate Purged(s: State, t: State, done: seq<SecretId>) {
    && t.clock == s.clock
    && (forall id :: id in t.management <==> id in s.management && id !in done)
    && (forall id :: id in t.management ==> t.management[id] == s.management[id])
    && (forall id :: id in t.rows <==> id in s.rows && !(id in done && s.rows[id].consumed.Some?))
    && (forall id :: id in t.rows ==> t.rows[id] == s.rows[id])
  }

  lemma PurgeAllowed(s: State, t: State, ids: seq<SecretId>, i: nat, now: Time, limit: nat)
    requires i < |ids| && Picks(PurgeDue(s, now), ids, limit) && Purged(s, t, ids[..i]) && now <= s.clock
    ensures Allowed(t, Purge(ids[i], now))
  {
    var id := ids[i];
    assert id in ids && id !in ids[..i];
    assert id in PurgeDue(s, now);
    assert id in t.management && t.management[id] == s.management[id];
    assert id in t.rows ==> id in s.rows && t.rows[id] == s.rows[id];
  }

  lemma PurgedNext(s: State, t: State, u: State, ids: seq<SecretId>, i: nat)
    requires i < |ids| && Purged(s, t, ids[..i]) && u.clock == t.clock && u.management == t.management - {ids[i]}
    requires u.rows == if ids[i] in t.rows && t.rows[ids[i]].consumed.Some? then t.rows - {ids[i]} else t.rows
    ensures Purged(s, u, ids[..i + 1])
  {}

  /** The listed objects no row protects. */
  function Exposed(s: State, page: seq<SecretId>): set<SecretId> {
    set id | id in page && !Protected(s, id)
  }

  /** Each of `exposed` is claimed, and those not claimed before have a delete job. */
  ghost predicate Scanned(s: State, t: State, exposed: set<SecretId>) {
    && t == s.(claims := t.claims, jobs := t.jobs)
    && t.claims.Keys == s.claims.Keys + exposed && Submap(s.claims, t.claims)
    && t.jobs == s.jobs + (exposed - s.claims.Keys)
  }

  /** Every new claim names the job drawn for its key. */
  ghost predicate NamedBy(s: State, t: State, page: seq<SecretId>, jobIds: seq<JobId>)
    requires |page| == |jobIds|
  {
    forall id :: id in t.claims && id !in s.claims ==> DrawnFor(page, jobIds, id, t.claims[id])
  }

  ghost predicate DrawnFor(page: seq<SecretId>, jobIds: seq<JobId>, id: SecretId, job: JobId)
    requires |page| == |jobIds|
  {
    exists i :: 0 <= i < |page| && page[i] == id && jobIds[i] == job
  }

  /** The page has been looked at: its exposed keys are claimed, under the jobs drawn for them. */
  ghost predicate PageScanned(s: State, t: State, page: seq<SecretId>, jobIds: seq<JobId>)
    requires |page| == |jobIds|
  {
    Scanned(s, t, Exposed(s, page)) && NamedBy(s, t, page, jobIds)
  }

  lemma NamedNext(s: State, t: State, u: State, page: seq<SecretId>, jobIds: seq<JobId>, i: nat)
    requires i < |page| == |jobIds| && NamedBy(s, t, page, jobIds) && (u.claims == t.claims || u.claims == t.claims[page[i] := jobIds[i]])
    ensures NamedBy(s, u, page, jobIds)
  {
    assert DrawnFor(page, jobIds, page[i], jobIds[i]);
  }

  lemma ScannedNext(s: State, t: State, u: State, exposed: set<SecretId>, id: SecretId, job: JobId)
    requires Scanned(s, t, exposed)
    requires u == if Protected(t, id) || id in t.claims then t else t.(claims := t.claims[id := job], jobs := t.jobs + {id})
    ensures Scanned(s, u, exposed + (if Protected(s, id) then {} else {id}))
  {}

  lemma ExposedNext(s: State, page: seq<SecretId>, i: nat)
    requires i < |page|
    ensures Exposed(s, page[..i + 1]) == Exposed(s, page[..i]) + (if Protected(s, page[i]) then {} else {page[i]})
  {}

  /** Lost when another scanner had committed or reset the cursor first. */
  datatype PageAnswer = Committed(count: nat) | Lost

  class Store {
    var s: State
    var cursor: Option<SecretId>
    var generation: nat

    ghost predicate Valid()
      reads this
    {
      Reachable(s)
    }

    constructor (clock: Time, pendingTtl: Time)
      ensures Valid() && Start(s) && s.clock == clock && s.pendingTtl == pendingTtl && cursor.None? && generation == 0
    {
      s := State(clock, pendingTtl, map[], {}, map[], map[], {}, {}, map[], map[], map[]);
      cursor, generation := None, 0;
      new;
      ReachesSelf(s);
    }

    method Now() returns (now: Time)
      requires Valid()
      modifies this`s
      ensures Valid() && Reaches(old(s), s) && s == old(s).(clock := now) && old(s).clock <= now
    {
      var passed: nat :| true;
      now := s.clock + passed;
      OneMove(s, Tick(now));
      s := s.(clock := now);
    }

    // -------------------------------------------------------------- the bucket

    /** A PUT through a presigned URL, at any time. */
    method PutObject(id: SecretId, size: nat)
      requires Valid()
      modifies this`s
      ensures Valid() && Reaches(old(s), s) && s == old(s).(bucket := old(s).bucket[id := size])
    {
      OneMove(s, Move.Upload(id, size));
      s := s.(bucket := s.bucket[id := size]);
    }

    /** The worker runs a queued object delete, however late. */
    method RunDelete(id: SecretId)
      requires Valid() && id in s.jobs
      modifies this`s
      ensures Valid() && Reaches(old(s), s) && s == old(s).(bucket := old(s).bucket - {id})
    {
      OneMove(s, DeleteObject(id));
      s := s.(bucket := s.bucket - {id});
    }

    /** What goes on outside the database during a network call. */
    method Outside()
      requires Valid()
      modifies this`s
      ensures Valid() && Reaches(old(s), s) && OnlyOutside(old(s), s)
    {
      ReachesSelf(s);
      var steps: nat :| true;
      for i := 0 to steps
        invariant Valid() && Reaches(old(s), s) && OnlyOutside(old(s), s)
      {
        ghost var before := s;
        var id: nat, size: nat :| true;
        var deleting: bool, putting: bool := *, *;
        if deleting && id in s.jobs {
          RunDelete(id);
        } else if putting {
          PutObject(id, size);
        } else {
          var _ := Now();
        }
        ReachesTransitive(old(s), before, s);
      }
    }

    // -------------------------------------------------------------- sending

    /** Both ways to create: an inline body at once, or a pending upload into the bucket. The clock
        was read before the transaction began. */
    method Create(id: SecretId, input: I.CreateInput, l: I.Limits, token: Digest, now: Time) returns (error: Option<I.CreateError>)
      requires Valid() && Unused(s, id) && now <= s.clock && 1 <= l.minTtl <= l.maxTtl
      modifies this`s
      ensures Valid() && Reaches(old(s), s) && error == I.Validate(input, l)
      ensures error.Some? ==> s == old(s)
      ensures error.None? ==> Creates(old(s), s, id, input, token, now)
    {
      error := I.Validate(input, l);
      ReachesSelf(s);
      if error.Some? {
        return;
      }
      var inline := input.body.Some?;
      var row := Row(if inline then Inline else S3, if inline then Active else PendingUpload, input.proof, input.sizeBytes,
                     now, now + input.ttlSeconds * SECOND, None, 0);
      OneMove(s, Move.Create(id, row, token));
      s := s.(rows := s.rows[id := row], payloads := if inline then s.payloads + {id} else s.payloads,
              management := s.management[id := Management(token, row.expires, None)], past := s.past[id := []]);
    }

    /** Activates an uploaded secret before its deadline, once the object is there in full. */
    method Finalize(id: SecretId) returns (r: FinalizeAnswer)
      requires Valid()
      modifies this`s
      ensures Valid() && Reaches(old(s), s) && FinalizeEffect(old(s), s, id, r)
      ensures r.FinalizeNotFound? <==> id !in old(s).rows
    {
      ReachesSelf(s);
      if id !in s.rows {
        return FinalizeNotFound;
      }
      if s.rows[id].state.Active? {
        return Finalized;
      }
      var deadline := Deadline(s.rows[id], s.pendingTtl);
      var now := Now();
      var unanswered: bool := *;
      if now >= deadline {
        return FinalizeExpired;
      }
      if unanswered {
        return HeadFailed;
      }
      if !Uploaded(s, id) {
        return ObjectMissing;
      }
      ghost var headed := s;
      r := ActivateUploaded(id, deadline);
      ReachesTransitive(old(s), headed, s);
    }

    /** The object is there; the deadline is checked once more before the row changes. */
    method ActivateUploaded(id: SecretId, deadline: Time) returns (r: FinalizeAnswer)
      requires Valid() && id in s.rows && s.rows[id].state.PendingUpload? && Uploaded(s, id)
      requires deadline == Deadline(s.rows[id], s.pendingTtl) && s.clock < deadline
      modifies this`s
      ensures Valid() && Reaches(old(s), s) && FinalizeEffect(old(s), s, id, r) && (r.Finalized? || r.FinalizeExpired?)
    {
      NeededHasNoJob(s, id);
      Outside();
      ghost var headed := s;
      var now := Now();
      ReachesTransitive(old(s), headed, s);
      if now >= deadline {
        return FinalizeExpired;
      }
      ghost var live := s;
      OneMove(s, Activate(id));
      s := s.(rows := s.rows[id := s.rows[id].(state := Active)]);
      ReachesTransitive(old(s), live, s);
      r := Finalized;
    }

    // -------------------------------------------------------------- opening

    /** One wrong proof: the fifth locks the secret and gives up its body. */
    method RecordFailedAccess(id: SecretId)
      requires Valid() && Allowed(s, FailAccess(id))
      modifies this`s
      ensures Valid() && Reaches(old(s), s) && s == AfterFailure(old(s), id)
    {
      OneMove(s, FailAccess(id));
      var row := s.rows[id];
      var failed := row.failed + 1;
      if failed < MAX_FAILED_ACCESSES {
        s := s.(rows := s.rows[id := row.(failed := failed)]);
        return;
      }
      s := s.(rows := s.rows[id := row.(failed := failed, consumed := Some(s.clock))]);
      if row.backend.Inline? {
        s := s.(payloads := s.payloads - {id});
      } else {
        s := s.(jobs := s.jobs + {id});
      }
      RecordOutcome(id, Locked);
    }

    /** The outcome column takes only the first value written. */
    method RecordOutcome(id: SecretId, outcome: Outcome)
      modifies this`s
      ensures s == Recorded(old(s), id, outcome)
    {
      if id in s.management && s.management[id].outcome.None? {
        s := s.(management := s.management[id := s.management[id].(outcome := Some(outcome))]);
      }
      s := s.(past := s.past[id := (if id in s.past then s.past[id] else []) + [outcome]]);
    }

    /** Marks the secret opened and queues its payload cleanup; an object's body starts streaming
        under a deadline that was set when the handler began. */
    method MarkOpened(id: SecretId, began: Time)
      requires Valid() && Allowed(s, Move.Open(id, began))
      modifies this`s
      ensures Valid() && Reaches(old(s), s) && s == AfterOpen(old(s), id, began)
    {
      OneMove(s, Move.Open(id, began));
      var row := s.rows[id];
      s := s.(rows := s.rows[id := row.(consumed := Some(s.clock))], purges := s.purges + {id},
              streams := if row.backend.S3? then s.streams[id := Stream(began + OPEN_STREAM_TIMEOUT, false)] else s.streams);
      RecordOutcome(id, Opened);
    }

    /** Starts reading the body: a bucket that cannot serve it leaves the secret as it was. */
    method OpenBody(id: SecretId) returns (ok: bool)
      requires Valid() && Loads(s, id) && CanOpen(s, id)
      modifies this`s
      ensures Valid() && Reaches(old(s), s) && OnlyOutside(old(s), s)
      ensures ok && s.rows[id].backend.S3? ==> id in s.bucket && Uploaded(old(s), id)
      ensures s.rows[id].backend.Inline? ==> ok
    {
      ReachesSelf(s);
      if s.rows[id].backend.Inline? {
        return true;
      }
      var served: bool := *;
      if !served || !Uploaded(s, id) {
        return false;
      }
      ActiveHasNoJob(s, id);
      Outside();
      ok := true;
    }

    /** The open transaction. Whoever gets the body is the only one who ever does. */
    method Open(id: SecretId, proof: Option<Digest>, began: Time) returns (r: OpenAnswer)
      requires Valid() && began <= s.clock
      modifies this`s
      ensures Valid() && Reaches(old(s), s) && OpenEffect(old(s), s, id, proof, began, r)
      ensures r.ErrNotFound? <==> !Loads(old(s), id)
      ensures r.ErrConsumed? <==> Loads(old(s), id) && old(s).rows[id].consumed.Some?
    {
      ghost var start := s;
      var now := Now();
      if !Loads(s, id) {
        return ErrNotFound;
      }
      if s.rows[id].consumed.Some? {
        return ErrConsumed;
      }
      if now >= s.rows[id].expires {
        return ErrExpired;
      }
      ghost var loaded := s;
      r := OpenLoaded(id, proof, began);
      OpenEffectEarlier(start, loaded, s, id, proof, began, r);
      ReachesTransitive(start, loaded, s);
    }

    method OpenLoaded(id: SecretId, proof: Option<Digest>, began: Time) returns (r: OpenAnswer)
      requires Valid() && began <= s.clock && Loads(s, id) && CanOpen(s, id)
      modifies this`s
      ensures Valid() && Reaches(old(s), s) && OpenEffect(old(s), s, id, proof, began, r)
      ensures !r.ErrNotFound? && !r.ErrConsumed?
    {
      if !Authorizes(s.rows[id], proof) {
        RecordFailedAccess(id);
        return ErrInvalidAccess;
      }
      r := Release(id, proof, began);
    }

    method Release(id: SecretId, ghost proof: Option<Digest>, began: Time) returns (r: OpenAnswer)
      requires Valid() && began <= s.clock && Loads(s, id) && CanOpen(s, id) && Authorizes(s.rows[id], proof)
      modifies this`s
      ensures Valid() && Reaches(old(s), s) && OpenEffect(old(s), s, id, proof, began, r)
      ensures r.Released? || r.ErrExpired? || r.ErrStorage?
    {
      ghost var start := s;
      var row := s.rows[id];
      var ok := OpenBody(id);
      if !ok {
        return ErrStorage;
      }
      ghost var read := s;
      var now := Now();
      ReachesTransitive(start, read, s);
      if now >= row.expires {
        return ErrExpired;
      }
      ghost var live := s;
      MarkOpened(id, began);
      ReachesTransitive(start, live, s);
      r := Released(row);
    }

    /** The handler stopped copying the body, at its end, at the deadline or on an error. */
    method StopStreaming(id: SecretId)
      requires Valid() && id in s.streams
      modifies this`s
      ensures Valid() && Reaches(old(s), s) && s == old(s).(streams := old(s).streams[id := old(s).streams[id].(ended := true)])
    {
      OneMove(s, EndStream(id));
      s := s.(streams := s.streams[id := s.streams[id].(ended := true)]);
    }

    /** The delete job that follows the stream; if it is never queued, reconciliation finds the object. */
    method EnqueueOpenedObjectCleanup(id: SecretId)
      requires Valid() && id in s.streams && s.streams[id].ended
      modifies this`s
      ensures Valid() && Reaches(old(s), s) && s == old(s).(jobs := old(s).jobs + {id})
    {
      OneMove(s, EnqueueOpened(id));
      s := s.(jobs := s.jobs + {id});
    }

    /** Deletes the payload of any id. Called for its own jobs it takes nothing that is still needed. */
    method Cleanup(id: SecretId) returns (cleaned: bool)
      requires Valid()
      modifies this`s
      ensures s == old(s).(payloads := old(s).payloads - {id}) && (cleaned <==> id in old(s).payloads)
      ensures id in old(s).purges || !NeedsPayload(old(s), id) ==> Valid() && Reaches(old(s), s)
    {
      ReachesSelf(s);
      if id in s.purges {
        PurgedIsSpent(s, s, id);
      }
      if !NeedsPayload(s, id) {
        OneMove(s, CleanPayload(id));
      }
      cleaned := id in s.payloads;
      s := s.(payloads := s.payloads - {id});
    }

    // -------------------------------------------------------------- the sender's side

    /** The outcome is never missing: every record that can still be asked about has an outcome or a row. */
    method ManagementStatus(id: SecretId, token: Digest) returns (r: ManagementAnswer)
      requires Valid()
      modifies this`s
      ensures Valid() && Reaches(old(s), s) && s == old(s).(clock := s.clock)
      ensures r.Known? <==> Manages(s, id, token, s.clock)
      ensures r.Known? ==>
                && r.expires == s.management[id].expires && (s.management[id].outcome.None? ==> id in s.rows)
                && r.status == StatusOf(s.management[id], RowAt(s, id), s.pendingTtl, s.clock)
      ensures r.Known? && CanCancel(r.status) ==> CanOpen(s, id)
    {
      ReachesSelf(s);
      var m := if id in s.management then Some(s.management[id]) else None;
      var row := RowAt(s, id);
      var now := Now();
      if m.None? || m.value.token != token || now >= m.value.expires {
        return ManagementUnavailable;
      }
      OutcomeNeverMissing(s, id);
      CancellableIsLive(s, id);
      r := Known(StatusOf(m.value, row, s.pendingTtl, now), m.value.expires);
    }

    /** Cancels a delivery nobody has opened: row and body go, and the outcome stays. */
    method Revoke(id: SecretId, token: Digest) returns (r: RevokeAnswer)
      requires Valid()
      modifies this`s
      ensures Valid() && Reaches(old(s), s)
      ensures r.Revoked? ==> id in s.past && s.past[id] == [Cancelled] && id !in s.rows
      ensures r.Revoked? && id in old(s).rows && old(s).rows[id].backend.S3? ==> id in s.jobs
      ensures !r.Revoked? ==> s == old(s).(clock := s.clock)
      ensures r.ErrNotCancellable? ==> !CanCancel(r.status) && r.status != StatusEnded(Cancelled)
      ensures r.RevokeUnavailable? <==> !Manages(old(s), id, token, s.clock)
    {
      var start := s;
      var first := ManagementStatus(id, token);
      if first.ManagementUnavailable? {
        return RevokeUnavailable;
      }
      if first.status == StatusEnded(Cancelled) {
        CancelledHasNoRow(s, id);
        return Revoked;
      }
      if !CanCancel(first.status) {
        return ErrNotCancellable(first.status);
      }
      ghost var asked := s;
      var again := ManagementStatus(id, token);
      ReachesTransitive(start, asked, s);
      if again.ManagementUnavailable? {
        return RevokeUnavailable;
      }
      if !CanCancel(again.status) {
        return ErrNotCancellable(again.status);
      }
      ghost var live := s;
      Withdraw(id);
      ReachesTransitive(start, live, s);
      r := Revoked;
    }

    method Withdraw(id: SecretId)
      requires Valid() && id in s.management && s.management[id].outcome.None? && CanOpen(s, id)
      modifies this`s
      ensures s.clock == old(s).clock
      ensures Valid() && Reaches(old(s), s) && s.past.Keys == old(s).past.Keys
      ensures id in s.past && s.past[id] == [Cancelled] && id !in s.rows && (old(s).rows[id].backend.S3? ==> id in s.jobs)
    {
      var row := s.rows[id];
      OneMove(s, Move.Revoke(id));
      CanOpenIsBlank(s, id);
      s := s.(rows := s.rows - {id}, payloads := s.payloads - {id});
      if row.backend.S3? {
        s := s.(jobs := s.jobs + {id});
      }
      RecordOutcome(id, Cancelled);
    }

    // -------------------------------------------------------------- the reaper

    /** Deletes one claimed row and queues what its object needs. */
    method ReclaimRow(id: SecretId, now: Time)
      requires Valid() && Allowed(s, Move.Reclaim(id, now))
      modifies this`s
      ensures Valid() && Reaches(old(s), s) && s == Apply(old(s), Move.Reclaim(id, now))
    {
      OneMove(s, Move.Reclaim(id, now));
      var row := s.rows[id];
      s := s.(rows := s.rows - {id}, payloads := s.payloads - {id});
      if row.backend.S3? {
        s := s.(jobs := s.jobs + {id});
      }
      if row.state.PendingUpload? {
        RecordOutcome(id, Unavailable);
      }
    }

    /** Claims the rows that have been reclaimable longest, at a clock reading from before the
        transaction, and deletes them. */
    method ClaimExpired(now: Time, limit: nat) returns (claimed: nat, ghost batch: seq<SecretId>)
      requires Valid() && now <= s.clock
      modifies this`s
      ensures Valid() && Reaches(old(s), s)
      ensures claimed == |batch| && ClaimsBatch(old(s), s, now, batch, limit)
      ensures s.rows == old(s).rows - (set id | id in batch)
    {
      var since := Candidates(s.rows, s.pendingTtl, now);
      var ids := Pick(since, limit);
      batch, claimed := ids, |ids|;
      ReachesSelf(s);
      for i := 0 to |ids|
        invariant Valid() && Reaches(old(s), s)
        invariant s.rows == old(s).rows - (set id | id in ids[..i])
        invariant s.clock == old(s).clock && s.pendingTtl == old(s).pendingTtl
        invariant forall id :: id in ids[..i] && id in old(s).rows && old(s).rows[id].backend.S3? ==> id in s.jobs
      {
        ghost var before := s;
        assert ids[i] in ids && ids[i] !in ids[..i];
        ReclaimRow(ids[i], now);
        ReachesTransitive(old(s), before, s);
        assert ids[..i + 1] == ids[..i] + [ids[i]];
      }
      assert ids[..|ids|] == ids;
      ReachesLater(old(s), s);
      PastGrows(old(s), s);
    }

    /** Forgets one expired record: a consumed row goes with it, an unconsumed one is left for a claim. */
    method PurgeRecord(id: SecretId, now: Time)
      requires Valid() && Allowed(s, Purge(id, now))
      modifies this`s
      ensures Valid() && Reaches(old(s), s) && s.clock == old(s).clock && s.management == old(s).management - {id}
      ensures s.rows == if id in old(s).rows && old(s).rows[id].consumed.Some? then old(s).rows - {id} else old(s).rows
    {
      OneMove(s, Purge(id, now));
      if id in s.rows && s.rows[id].consumed.Some? {
        s := s.(rows := s.rows - {id}, payloads := s.payloads - {id});
      }
      s := s.(management := s.management - {id});
    }

    /** Forgets expired records, oldest first, except those whose object may still be streaming. */
    method PurgeManagement(now: Time, limit: nat) returns (ghost done: seq<SecretId>)
      requires Valid() && now <= s.clock
      modifies this`s
      ensures Valid() && Reaches(old(s), s) && Purged(old(s), s, done)
      ensures PicksInOrder(PurgeDue(old(s), now), done, limit)
    {
      var expired := PurgeDue(s, now);
      var ids := Pick(expired, limit);
      done := ids;
      ReachesSelf(s);
      for i := 0 to |ids|
        invariant Valid() && Reaches(old(s), s) && Purged(old(s), s, ids[..i])
      {
        ghost var before := s;
        PurgeAllowed(old(s), s, ids, i, now, limit);
        PurgeRecord(ids[i], now);
        ReachesTransitive(old(s), before, s);
        PurgedNext(old(s), before, s, ids, i);
      }
      assert ids[..|ids|] == ids;
    }

    method ClaimObject(id: SecretId, job: JobId)
      requires Valid() && Allowed(s, Scan(id, job))
      modifies this`s
      ensures Valid() && Reaches(old(s), s) && s == Apply(old(s), Scan(id, job))
    {
      OneMove(s, Scan(id, job));
      s := s.(claims := s.claims[id := job], jobs := s.jobs + {id});
    }

    /** The scan's loop over a listed page: every unprotected, unclaimed object gets a claim and a job.
        The clock is read once the transaction holds the write lock. */
    method ReconcilePage(page: seq<SecretId>, jobIds: seq<JobId>) returns (count: nat, ghost read: State)
      requires Valid() && |jobIds| == |page|
      modifies this`s
      ensures Valid() && Reaches(old(s), s) && read == old(s).(clock := s.clock) && old(s).clock <= s.clock
      ensures PageScanned(read, s, page, jobIds) && |s.claims| == |read.claims| + count
    {
      count := 0;
      var _ := Now();
      read := s;
      for i := 0 to |page|
        invariant Valid() && Reaches(old(s), s) && Scanned(read, s, Exposed(read, page[..i]))
        invariant NamedBy(read, s, page, jobIds) && |s.claims| == |read.claims| + count
      {
        ghost var before := s;
        ExposedNext(read, page, i);
        ReachesSelf(s);
        if !Protected(s, page[i]) && page[i] !in s.claims {
          ClaimObject(page[i], jobIds[i]);
          count := count + 1;
        }
        ReachesTransitive(old(s), before, s);
        ScannedNext(read, before, s, Exposed(read, page[..i]), page[i], jobIds[i]);
        NamedNext(read, before, s, page, jobIds, i);
      }
      assert page[..|page|] == page;
    }

    /** Commits a page that was listed when the cursor row had `read`: the first of several scanners
        that listed from the same cursor wins. */
    method CommitPage(page: seq<SecretId>, jobIds: seq<JobId>, next: Option<SecretId>, read: nat)
      returns (r: PageAnswer, ghost seen: State)
      requires Valid() && |jobIds| == |page|
      modifies this
      ensures Valid() && Reaches(old(s), s)
      ensures r.Lost? <==> old(generation) != read
      ensures r.Lost? ==> s == old(s) && cursor == old(cursor) && generation == old(generation)
      ensures r.Committed? ==>
                && cursor == next && generation == old(generation) + 1
                && seen == old(s).(clock := s.clock) && PageScanned(seen, s, page, jobIds)
                && |s.claims| == |seen.claims| + r.count
    {
      ReachesSelf(s);
      seen := s;
      if generation != read {
        return Lost, s;
      }
      cursor, generation := next, generation + 1;
      var count;
      count, seen := ReconcilePage(page, jobIds);
      r := Committed(count);
    }

    /** The bucket refused the cursor: start over, unless someone else moved it meanwhile. */
    method ResetCursor(read: nat)
      modifies this`cursor, this`generation
      ensures generation == old(generation) + (if old(generation) == read then 1 else 0)
      ensures cursor == if old(generation) == read then None else old(cursor)
    {
      if generation == read {
        cursor, generation := None, generation + 1;
      }
    }

    /** Releases the claim of exactly this job. */
    method AcknowledgeObjectCleanup(id: SecretId, job: JobId)
      requires Valid()
      modifies this`s
      ensures Valid() && Reaches(old(s), s)
      ensures s == old(s).(claims := if id in old(s).claims && old(s).claims[id] == job then old(s).claims - {id} else old(s).claims)
    {
      OneMove(s, Acknowledge(id, job));
      if id in s.claims && s.claims[id] == job {
        s := s.(claims := s.claims - {id});
      }
    }
  }

  lemma NeededHasNoJob(s: State, id: SecretId)
    requires Reachable(s) && id in s.rows && s.rows[id].state.PendingUpload? && s.clock < Deadline(s.rows[id], s.pendingTtl)
    ensures s.rows[id].consumed.None? && id !in s.jobs
  {
    ReachableInv(s);
    assert IdOk(s, id);
  }

  lemma ActiveHasNoJob(s: State, id: SecretId)
    requires Reachable(s) && CanOpen(s, id) && s.rows[id].backend.S3?
    ensures id !in s.jobs
  {
    ReachableInv(s);
    assert IdOk(s, id);
  }

  lemma CanOpenIsBlank(s: State, id: SecretId)
    requires Reachable(s) && CanOpen(s, id)
    ensures id in s.past && s.past[id] == []
  {
    ReachableInv(s);
    assert IdOk(s, id);
  }

  lemma CancelledHasNoRow(s: State, id: SecretId)
    requires Reachable(s) && id in s.management && s.management[id].outcome == Some(Cancelled)
    ensures id in s.past && s.past[id] == [Cancelled] && id !in s.rows
  {
    ReachableInv(s);
    assert IdOk(s, id);
  }

  lemma CancellableIsLive(s: State, id: SecretId)
    requires Reachable(s) && id in s.management && s.clock < s.management[id].expires
    requires s.management[id].outcome.None? ==> id in s.rows
    ensures CanCancel(StatusOf(s.management[id], RowAt(s, id), s.pendingTtl, s.clock)) ==> CanOpen(s, id)
  {
    ReachableInv(s);
    assert IdOk(s, id);
  }

  lemma PastGrows(s: State, t: State)
    requires Later(s, t)
    ensures s.past.Keys <= t.past.Keys
  {
    forall id | id in s.past ensures id in t.past {
      assert IdLater(s, t, id);
    }
  }
}
