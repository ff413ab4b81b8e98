/** The request-link protocol: what one request may go through, what every actor may do
    to it, and the invariant that every interleaving keeps.

    A request is an algebraic value here; RequestStore.dfy proves that the nullable
    columns and SQL statements of the store implement exactly these moves. */
module RequestProtocol {
  import opened Common

  const MAX_GENERATION := 16
  const RESERVATION_TTL: Time := 15 * MINUTE
  const OPEN_GRACE: Time := 35 * MINUTE

  type Id = nat

  // ---------------------------------------------------------------- data

  /** What identifies one attempt: its token hash and the digest of its immutable body. */
  datatype Claim = Claim(attempt: Digest, body: Digest)

  /** Length and checksum an uploaded age file was reserved with. */
  datatype FileSpec = FileSpec(size: int, checksum: Digest)

  datatype Reservation = Reservation(
    claim: Claim, spec: FileSpec, envelope: Digest, upload: Key, final: Key, deadline: Time)

  datatype Kind = Text | File

  datatype Content = Inline(blob: Blob) | Stored(spec: FileSpec, final: Key)

  datatype Backend = SqliteBlob | S3Object

  datatype Phase =
    | Waiting
    | Uploading(resv: Reservation)
    | Submitted(claim: Claim, kind: Kind, envelope: Digest, content: Content)
    | Consumed(taken: Claim, backend: Backend, at: Time, streaming: Option<Key>)
    | Cancelled(kept: Backend, receipt: Option<Claim>)
    | Unavailable

  datatype Request = Request(
    submitHash: Digest, retrieveHash: Digest, expires: Time, generation: int, phase: Phase)

  /** Which reservation a bucket key was drawn for. */
  datatype Origin = Origin(id: Id, generation: int, resv: Reservation)

  datatype Acceptance = Acceptance(generation: int, claim: Claim, content: Content)

  /** Tables, bucket and history. `queued` holds the keys with a delete job in the outbox;
      the last six fields only record what has happened. */
  datatype Sys = Sys(
    now: Time,
    requests: map<Id, Request>,
    queued: set<Key>,
    bucket: map<Key, Blob>,
    ids: set<Id>,
    reserved: map<Key, Origin>,
    stored: set<(Key, Blob)>,
    written: set<Key>,
    accepted: map<Id, Acceptance>,
    released: map<Id, Blob>)

  predicate Init(s: Sys) {
    && s.requests == map[] && s.queued == {} && s.bucket == map[] && s.ids == {}
    && s.reserved == map[] && s.stored == {} && s.written == {}
    && s.accepted == map[] && s.released == map[]
  }

  /** The keys a request still names. */
  function KeysOf(p: Phase): set<Key> {
    match p
    case Uploading(r) => {r.upload, r.final}
    case Submitted(_, _, _, Stored(_, final)) => {final}
    case Consumed(_, _, _, Some(key)) => {key}
    case _ => {}
  }

  /** The reconciliation query's protection clause, for one row. */
  predicate Protects(q: Request, key: Key, now: Time) {
    match q.phase
    case Uploading(r) => q.expires > now && r.deadline > now && (r.upload == key || r.final == key)
    case Submitted(_, _, _, Stored(_, final)) => q.expires > now && final == key
    case Consumed(_, _, at, Some(final)) => at > now - OPEN_GRACE && final == key
    case _ => false
  }

  ghost predicate Protected(s: Sys, key: Key) {
    exists id :: id in s.requests && Protects(s.requests[id], key, s.now)
  }

  /** What `copyVerified` checks before it writes a final key. */
  predicate Matches(b: Blob, spec: FileSpec) {
    |b.bytes| == spec.size && b.sha256 == spec.checksum && IsAgeFile(b)
  }

  // ---------------------------------------------------------------- moves

  /** One committed transaction, one bucket operation, or the passing of time.
      `t` is the clock at commit; earlier readings of the same transaction are separate. */
  datatype Move =
    | Tick(t: Time)
    | Create(id: Id, submitHash: Digest, retrieveHash: Digest, expires: Time, t: Time)
    | Reserve(id: Id, resv: Reservation, t: Time)
    | EndReservation(id: Id, t: Time)
    | AcceptInline(id: Id, claim: Claim, kind: Kind, envelope: Digest, blob: Blob, t: Time)
    | AcceptStored(id: Id, checked: Time, t: Time)
    | Take(id: Id, blob: Blob, at: Time, t: Time)
    | FinishStream(id: Id, t: Time)
    | Withdraw(id: Id, t: Time)
    | Purge(id: Id, read: Time, t: Time)
    | Sweep(keys: set<Key>, read: Time, t: Time)
    | PutUpload(key: Key, blob: Blob)
    | WriteFinal(key: Key, blob: Blob)
    | DeleteObject(key: Key)

  /** The same move, committed at `t`. */
  function At(m: Move, t: Time): Move {
    match m
    case Tick(_) => Tick(t)
    case Create(id, sub, ret, expires, _) => Create(id, sub, ret, expires, t)
    case Reserve(id, r, _) => Reserve(id, r, t)
    case EndReservation(id, _) => EndReservation(id, t)
    case AcceptInline(id, claim, kind, envelope, blob, _) => AcceptInline(id, claim, kind, envelope, blob, t)
    case AcceptStored(id, checked, _) => AcceptStored(id, checked, t)
    case Take(id, blob, at, _) => Take(id, blob, at, t)
    case FinishStream(id, _) => FinishStream(id, t)
    case Withdraw(id, _) => Withdraw(id, t)
    case Purge(id, read, _) => Purge(id, read, t)
    case Sweep(keys, read, _) => Sweep(keys, read, t)
    case _ => m
  }

  predicate Fresh(s: Sys, key: Key) {
    key !in s.reserved && key !in s.queued && key !in s.bucket
  }

  predicate ReserveAllowed(s: Sys, q: Request, r: Reservation, t: Time) {
    && q.phase.Waiting?
    && t < q.expires
    && r.deadline <= q.expires
    && 0 <= r.spec.size
    && r.upload.RequestKey? && r.upload.role.Upload? && Fresh(s, r.upload)
    && r.final.RequestKey? && r.final.role.Final? && Fresh(s, r.final)
  }

  /** What a consuming owner may receive: the stored payload, or bytes once read under the final key. */
  predicate Releasable(s: Sys, content: Content, blob: Blob) {
    match content
    case Inline(b) => blob == b
    case Stored(spec, final) => (final, blob) in s.stored
  }

  /** An expired request may go, unless its opened object may still be streaming. */
  predicate Purgeable(q: Request, read: Time) {
    && q.expires <= read
    && !(q.phase.Consumed? && q.phase.streaming.Some? && q.phase.at > read - OPEN_GRACE)
  }

  ghost predicate Allowed(s: Sys, m: Move) {
    match m
    case Tick(t) => s.now <= t
    case Create(id, _, _, _, t) => s.now <= t && id !in s.ids
    case Reserve(id, r, t) =>
      s.now <= t && id in s.requests && ReserveAllowed(s, s.requests[id], r, t)
    case EndReservation(id, t) =>
      s.now <= t && id in s.requests && s.requests[id].phase.Uploading?
    case AcceptInline(id, _, _, _, _, t) =>
      s.now <= t && id in s.requests && s.requests[id].phase.Waiting? && t < s.requests[id].expires
    case AcceptStored(id, checked, t) =>
      && s.now <= checked <= t && id in s.requests && s.requests[id].phase.Uploading?
      && checked < s.requests[id].phase.resv.deadline && t < s.requests[id].expires
      && s.requests[id].phase.resv.final in s.written
    case Take(id, blob, at, t) =>
      && s.now <= at <= t && id in s.requests && s.requests[id].phase.Submitted?
      && t < s.requests[id].expires && Releasable(s, s.requests[id].phase.content, blob)
    case FinishStream(id, t) =>
      && s.now <= t && id in s.requests && s.requests[id].phase.Consumed?
      && s.requests[id].phase.streaming.Some?
    case Withdraw(id, t) =>
      && s.now <= t && id in s.requests
      && !s.requests[id].phase.Consumed? && !s.requests[id].phase.Unavailable?
    case Purge(id, read, t) =>
      s.now <= t && read <= t && id in s.requests && Purgeable(s.requests[id], read)
    case Sweep(keys, read, t) =>
      s.now <= read <= t && forall k | k in keys :: !Protected(s.(now := read), k)
    case PutUpload(key, _) => key in s.reserved && key.RequestKey? && key.role.Upload?
    case WriteFinal(key, blob) =>
      key in s.reserved && key.RequestKey? && key.role.Final? && Matches(blob, s.reserved[key].resv.spec)
    case DeleteObject(key) => key in s.queued
  }

  /** Replace one request and queue deletes in the same transaction. */
  function Put(s: Sys, id: Id, q: Request, keys: set<Key>, t: Time): Sys {
    s.(now := t, requests := s.requests[id := q], queued := s.queued + keys)
  }

  function NextGeneration(q: Request): Request {
    if q.generation == MAX_GENERATION then q.(phase := Unavailable)
    else q.(generation := q.generation + 1, phase := Waiting)
  }

  function Accept(s: Sys, id: Id, q: Request): Sys
    requires q.phase.Submitted?
  {
    s.(accepted := s.accepted[id := Acceptance(q.generation, q.phase.claim, q.phase.content)])
  }

  function TakenPhase(p: Phase, at: Time): Phase
    requires p.Submitted?
  {
    match p.content
    case Inline(_) => Consumed(p.claim, SqliteBlob, at, None)
    case Stored(_, final) => Consumed(p.claim, S3Object, at, Some(final))
  }

  function WithdrawnPhase(p: Phase): Phase {
    match p
    case Submitted(claim, _, _, content) =>
      Cancelled(if content.Inline? then SqliteBlob else S3Object, Some(claim))
    case Uploading(_) => Cancelled(S3Object, None)
    case Waiting => Cancelled(SqliteBlob, None)
    case _ => p
  }

  function StoredPhase(r: Reservation): Phase {
    Submitted(r.claim, File, r.envelope, Stored(r.spec, r.final))
  }

  function Draw(reserved: map<Key, Origin>, id: Id, generation: int, r: Reservation): map<Key, Origin> {
    reserved[r.upload := Origin(id, generation, r)][r.final := Origin(id, generation, r)]
  }

  ghost function Apply(s: Sys, m: Move): Sys
    requires Allowed(s, m)
  {
    match m
    case Tick(t) => s.(now := t)
    case Create(id, sub, ret, expires, t) =>
      Put(s, id, Request(sub, ret, expires, 1, Waiting), {}, t).(ids := s.ids + {id})
    case Reserve(id, r, t) =>
      Put(s, id, s.requests[id].(phase := Uploading(r)), {}, t)
        .(reserved := Draw(s.reserved, id, s.requests[id].generation, r))
    case EndReservation(id, t) =>
      Put(s, id, NextGeneration(s.requests[id]), KeysOf(s.requests[id].phase), t)
    case AcceptInline(id, claim, kind, envelope, blob, t) =>
      var q := s.requests[id].(phase := Submitted(claim, kind, envelope, Inline(blob)));
      Accept(Put(s, id, q, {}, t), id, q)
    case AcceptStored(id, _, t) =>
      var r := s.requests[id].phase.resv;
      var q := s.requests[id].(phase := StoredPhase(r));
      Accept(Put(s, id, q, {r.upload}, t), id, q)
    case Take(id, blob, at, t) =>
      Put(s, id, s.requests[id].(phase := TakenPhase(s.requests[id].phase, at)), {}, t)
        .(released := s.released[id := blob])
    case FinishStream(id, t) =>
      Put(s, id, s.requests[id].(phase := s.requests[id].phase.(streaming := None)), KeysOf(s.requests[id].phase), t)
    case Withdraw(id, t) =>
      Put(s, id, s.requests[id].(phase := WithdrawnPhase(s.requests[id].phase)), KeysOf(s.requests[id].phase), t)
    case Purge(id, _, t) =>
      s.(now := t, requests := s.requests - {id}, queued := s.queued + KeysOf(s.requests[id].phase))
    case Sweep(keys, _, t) => s.(now := t, queued := s.queued + keys)
    case PutUpload(key, blob) => s.(bucket := s.bucket[key := blob], stored := s.stored + {(key, blob)})
    case WriteFinal(key, blob) =>
      s.(bucket := s.bucket[key := blob], stored := s.stored + {(key, blob)}, written := s.written + {key})
    case DeleteObject(key) => s.(bucket := s.bucket - {key})
  }
}
