/** The `requests` table as the store keeps it: nullable columns, payload rows, an outbox. */
module RequestTables {
  import opened Common
  import opened RequestProtocol
  import opened RequestInvariant
  import opened RequestTheorems

  datatype State = StWaiting | StUploading | StSubmitted | StConsumed | StCancelled | StUnavailable

  datatype Row = Row(
    submitHash: Digest, retrieveHash: Digest, state: State, generation: int,
    attempt: Option<Digest>, bodyHash: Option<Digest>,
    kind: Option<Kind>, size: Option<int>, envelope: Option<Digest>, backend: Backend,
    uploadKey: Option<Key>, finalKey: Option<Key>, checksum: Option<Digest>,
    reservationExpires: Option<Time>, consumedAt: Option<Time>, expires: Time)

  datatype Reason = ReasonConsumed | ReasonExpired | ReasonOrphan | ReasonManual

  /** A delete_oci_object job; its id is its position in the outbox. */
  datatype Job = Job(key: Key, reason: Reason, requestedAt: Time)

  /** The tables one transaction reads and writes: requests, payloads, outbox, and the
      reconciliation scan's pending claims and cursor. */
  datatype Tx = Tx(
    rows: map<Id, Row>, payloads: map<Id, Blob>, outbox: seq<Job>,
    claims: map<Key, nat>, cursor: Option<Key>, cursorGeneration: nat)

  /** A pending claim names the job that will delete its key. */
  ghost predicate ClaimsOk(tx: Tx) {
    forall k :: k in tx.claims ==> tx.claims[k] < |tx.outbox| && tx.outbox[tx.claims[k]].key == k
  }

  /** The keys some delete job names. */
  function QueuedIn(outbox: seq<Job>): set<Key> {
    set j | j in outbox :: j.key
  }

  lemma QueuedAppend(outbox: seq<Job>, j: Job)
    ensures QueuedIn(outbox + [j]) == QueuedIn(outbox) + {j.key}
  {}

  // ---------------------------------------------------------------- the columns of a request

  /** The one row that stands for a request. */
  function Columns(q: Request): Row {
    var blank := Row(q.submitHash, q.retrieveHash, StWaiting, q.generation, None, None, None, None, None,
                     SqliteBlob, None, None, None, None, None, q.expires);
    match q.phase
    case Waiting => blank
    case Uploading(r) =>
      blank.(state := StUploading, attempt := Some(r.claim.attempt), bodyHash := Some(r.claim.body),
      kind := Some(File), size := Some(r.spec.size), envelope := Some(r.envelope), backend := S3Object,
      uploadKey := Some(r.upload), finalKey := Some(r.final), checksum := Some(r.spec.checksum),
      reservationExpires := Some(r.deadline))
    case Submitted(claim, kind, envelope, Inline(blob)) =>
      blank.(state := StSubmitted, attempt := Some(claim.attempt), bodyHash := Some(claim.body),
      kind := Some(kind), size := Some(|blob.bytes|), envelope := Some(envelope))
    case Submitted(claim, kind, envelope, Stored(spec, final)) =>
      blank.(state := StSubmitted, attempt := Some(claim.attempt), bodyHash := Some(claim.body),
      kind := Some(kind), size := Some(spec.size), envelope := Some(envelope), backend := S3Object,
      finalKey := Some(final), checksum := Some(spec.checksum))
    case Consumed(claim, backend, at, streaming) =>
      blank.(state := StConsumed, attempt := Some(claim.attempt), bodyHash := Some(claim.body),
      backend := backend, finalKey := streaming, consumedAt := Some(at))
    case Cancelled(backend, Some(claim)) =>
      blank.(state := StCancelled, attempt := Some(claim.attempt), bodyHash := Some(claim.body), backend := backend)
    case Cancelled(backend, None) => blank.(state := StCancelled, backend := backend)
    case Unavailable => blank.(state := StUnavailable)
  }

  function PayloadOf(q: Request): Option<Blob> {
    match q.phase
    case Submitted(_, _, _, Inline(blob)) => Some(blob)
    case _ => None
  }

  /** The CHECK constraints of the requests table. */
  predicate SchemaChecks(r: Row) {
    && 1 <= r.generation <= 16
    && (r.size.Some? ==> r.size.value >= 0)
    && (r.attempt.None? <==> r.bodyHash.None?)
    && (r.state.StUploading? ==>
          && r.backend.S3Object? && r.uploadKey.Some? && r.finalKey.Some? && r.checksum.Some?
          && r.reservationExpires.Some? && r.kind == Some(File) && r.size.Some? && r.envelope.Some?
          && r.attempt.Some?)
    && (r.state.StSubmitted? && r.backend.S3Object? ==> r.finalKey.Some? && r.checksum.Some?)
    && (r.state.StSubmitted? ==> r.kind.Some? && r.size.Some? && r.envelope.Some? && r.attempt.Some?)
  }

  /** Every row of every run satisfies the CHECKs and keeps no metadata of a finished body. */
  lemma SchemaHolds(s: Sys, id: Id)
    requires Reachable(s) && id in s.requests
    ensures SchemaChecks(Columns(s.requests[id]))
    ensures var r := Columns(s.requests[id]);
            !r.state.StUploading? && !r.state.StSubmitted? ==>
              r.kind.None? && r.size.None? && r.envelope.None? && r.checksum.None? && r.uploadKey.None?
  {
    ReachableInv(s);
    assert RequestOk(s, id);
  }

  /** No two rows share an upload key or a final key. */
  lemma KeysAreUnique(s: Sys, id: Id, other: Id)
    requires Reachable(s) && id in s.requests && other in s.requests && id != other
    ensures var r, o := Columns(s.requests[id]), Columns(s.requests[other]);
            && (r.uploadKey.Some? ==> r.uploadKey != o.uploadKey)
            && (r.finalKey.Some? ==> r.finalKey != o.finalKey)
  {
    ReachableInv(s);
    assert RequestOk(s, id) && RequestOk(s, other);
  }

  /** The SQL of the reconciliation scan, over all rows. */
  predicate RowsProtect(rows: map<Id, Row>, key: Key, now: Time) {
    exists id :: id in rows && RowProtects(rows[id], key, now)
  }

  predicate RowProtects(r: Row, key: Key, now: Time) {
    || (r.state.StConsumed? && r.finalKey == Some(key) && r.consumedAt.Some? && r.consumedAt.value > now - OPEN_GRACE)
    || (&& r.expires > now
        && (|| (r.state.StSubmitted? && r.finalKey == Some(key))
            || (&& r.state.StUploading? && r.reservationExpires.Some? && r.reservationExpires.value > now
                && (r.uploadKey == Some(key) || r.finalKey == Some(key)))))
  }

  lemma RowProtectsSame(q: Request, key: Key, now: Time)
    ensures RowProtects(Columns(q), key, now) <==> Protects(q, key, now)
  {}
}
