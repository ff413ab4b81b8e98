/** The invariant of the request protocol, and the proof that every move keeps it. */
module RequestInvariant {
  import opened Common
  import opened RequestProtocol

  ghost predicate DrawnFor(s: Sys, key: Key, id: Id, q: Request) {
    key in s.reserved && s.reserved[key].id == id && s.reserved[key].generation == q.generation
  }

  ghost predicate AcceptedAs(s: Sys, id: Id, q: Request, claim: Claim) {
    id in s.accepted && s.accepted[id].generation == q.generation && s.accepted[id].claim == claim
  }

  /** What the tables and the history say about one request agree. */
  ghost predicate PhaseOk(s: Sys, id: Id, q: Request) {
    match q.phase
    case Waiting => id !in s.accepted && id !in s.released
    case Unavailable => id !in s.accepted && id !in s.released
    case Uploading(r) =>
      && id !in s.accepted && id !in s.released
      && DrawnFor(s, r.upload, id, q) && s.reserved[r.upload].resv == r && r.upload.RequestKey? && r.upload.role.Upload?
      && DrawnFor(s, r.final, id, q) && s.reserved[r.final].resv == r && r.final.RequestKey? && r.final.role.Final?
      && r.deadline <= q.expires && 0 <= r.spec.size
    case Submitted(claim, kind, _, content) =>
      && AcceptedAs(s, id, q, claim) && s.accepted[id].content == content && id !in s.released
      && (content.Stored? ==>
            && DrawnFor(s, content.final, id, q) && content.final in s.written && kind.File?
            && s.reserved[content.final].resv.claim == claim && s.reserved[content.final].resv.spec == content.spec
            && 0 <= content.spec.size)
    case Consumed(claim, backend, at, streaming) =>
      && AcceptedAs(s, id, q, claim) && id in s.released && at <= s.now
      && (backend.SqliteBlob? <==> s.accepted[id].content.Inline?)
      && (streaming.Some? ==>
            && s.accepted[id].content.Stored? && s.accepted[id].content.final == streaming.value
            && streaming.value in s.written && streaming.value in s.reserved
            && s.reserved[streaming.value].id == id)
    case Cancelled(_, Some(claim)) => AcceptedAs(s, id, q, claim) && id !in s.released
    case Cancelled(_, None) => id !in s.accepted && id !in s.released
  }

  ghost predicate RequestOk(s: Sys, id: Id) {
    id in s.requests ==>
      id in s.ids && 1 <= s.requests[id].generation <= MAX_GENERATION && PhaseOk(s, id, s.requests[id])
  }

  ghost predicate ProtectedByOwner(s: Sys, key: Key)
    requires key in s.reserved
  {
    s.reserved[key].id in s.requests && Protects(s.requests[s.reserved[key].id], key, s.now)
  }

  ghost predicate Named(s: Sys, key: Key)
    requires key in s.reserved
  {
    s.reserved[key].id in s.requests && key in KeysOf(s.requests[s.reserved[key].id].phase)
  }

  /** Conservation and the latch, for one key. */
  ghost predicate KeyOk(s: Sys, key: Key) {
    key in s.reserved ==>
      && s.reserved[key].id in s.ids
      && (Named(s, key) || key in s.queued)
      && (key in s.queued ==> !ProtectedByOwner(s, key))
  }

  ghost predicate BlobOk(s: Sys, key: Key, b: Blob) {
    && key in s.reserved && key.RequestKey?
    && (key.role.Final? ==> Matches(b, s.reserved[key].resv.spec))
  }

  ghost predicate ObjectOk(s: Sys, key: Key) {
    && (key in s.bucket ==> (key, s.bucket[key]) in s.stored)
    && (key in s.written ==>
          key in s.reserved && key.RequestKey? && key.role.Final? && (key in s.bucket || key in s.queued))
  }

  /** An acceptance belongs to a known request; a release matches the acceptance. */
  ghost predicate HistoryOk(s: Sys, id: Id) {
    && (id in s.accepted ==> id in s.ids)
    && (id in s.released ==>
          && id in s.accepted
          && match s.accepted[id].content
             case Inline(b) => s.released[id] == b
             case Stored(spec, _) => Matches(s.released[id], spec))
  }

  ghost predicate Inv(s: Sys) {
    && (forall id :: RequestOk(s, id))
    && (forall key :: KeyOk(s, key))
    && (forall key, b :: (key, b) in s.stored ==> BlobOk(s, key, b))
    && (forall key :: ObjectOk(s, key))
    && (forall id :: HistoryOk(s, id))
  }

  // ---------------------------------------------------------------- one row at a time

  /** `u` is `s` after one transaction that rewrote the row of `id` and queued `keys`. */
  ghost predicate OneRow(s: Sys, u: Sys, id: Id, keys: set<Key>) {
    && id in s.requests && id in u.requests
    && u.requests == s.requests[id := u.requests[id]]
    && u.queued == s.queued + keys
    && s.now <= u.now
    && u.bucket == s.bucket && u.ids == s.ids && u.stored == s.stored && u.written == s.written
    && (forall i :: i != id ==> (i in u.accepted <==> i in s.accepted))
    && (forall i :: i != id && i in s.accepted ==> u.accepted[i] == s.accepted[i])
    && (forall i :: i != id ==> (i in u.released <==> i in s.released))
    && (forall i :: i != id && i in s.released ==> u.released[i] == s.released[i])
  }

  /** The row lets go only of keys it queues, protects nothing it did not protect, and
      queues nothing it still protects. */
  ghost predicate LetsGo(s: Sys, u: Sys, id: Id, keys: set<Key>)
    requires id in s.requests && id in u.requests
  {
    && KeysOf(s.requests[id].phase) <= KeysOf(u.requests[id].phase) + keys
    && keys <= KeysOf(s.requests[id].phase)
    && (forall k :: k in keys ==> !Protects(u.requests[id], k, u.now))
    && (forall k :: Protects(u.requests[id], k, u.now) ==> Protects(s.requests[id], k, s.now))
  }

  lemma ProtectionFades(q: Request, key: Key, t: Time, u: Time)
    requires t <= u && Protects(q, key, u)
    ensures Protects(q, key, t)
  {}

  lemma NamesItsOwn(s: Sys, id: Id, key: Key)
    requires id in s.requests && RequestOk(s, id) && key in KeysOf(s.requests[id].phase)
    ensures key in s.reserved && s.reserved[key].id == id
  {}

  lemma OtherRowsKeep(s: Sys, u: Sys, id: Id, keys: set<Key>, i: Id)
    requires RequestOk(s, i) && OneRow(s, u, id, keys) && Submap(s.reserved, u.reserved) && i != id
    ensures RequestOk(u, i)
  {}

  lemma KeysKeep(s: Sys, u: Sys, id: Id, keys: set<Key>, k: Key)
    requires KeyOk(s, k) && RequestOk(s, id) && OneRow(s, u, id, keys) && LetsGo(s, u, id, keys)
    requires u.reserved == s.reserved
    ensures KeyOk(u, k)
  {}

  lemma OneRowKeeps(s: Sys, u: Sys, id: Id, keys: set<Key>)
    requires Inv(s) && OneRow(s, u, id, keys) && LetsGo(s, u, id, keys)
    requires u.reserved == s.reserved && RequestOk(u, id) && HistoryOk(u, id)
    ensures Inv(u)
  {
    forall i ensures RequestOk(u, i) {
      if i != id { OtherRowsKeep(s, u, id, keys, i); }
    }
    forall k ensures KeyOk(u, k) { KeysKeep(s, u, id, keys, k); }
    forall k ensures ObjectOk(u, k) { assert ObjectOk(s, k); }
    forall i ensures HistoryOk(u, i) { assert HistoryOk(s, i); }
    forall k, b | (k, b) in u.stored ensures BlobOk(u, k, b) { assert BlobOk(s, k, b); }
  }

  // ---------------------------------------------------------------- every move

  lemma ClockKeeps(s: Sys, t: Time)
    requires Inv(s) && s.now <= t
    ensures Inv(s.(now := t))
  {
    var u := s.(now := t);
    forall id ensures RequestOk(u, id) { assert RequestOk(s, id); }
    forall k ensures KeyOk(u, k) {
      assert KeyOk(s, k);
      if k in u.reserved && ProtectedByOwner(u, k) {
        ProtectionFades(u.requests[u.reserved[k].id], k, s.now, t);
      }
    }
    forall k ensures ObjectOk(u, k) { assert ObjectOk(s, k); }
    forall id ensures HistoryOk(u, id) { assert HistoryOk(s, id); }
    forall k, b | (k, b) in u.stored ensures BlobOk(u, k, b) { assert BlobOk(s, k, b); }
  }

  lemma CreateKeeps(s: Sys, m: Move)
    requires Inv(s) && m.Create? && Allowed(s, m)
    ensures Inv(Apply(s, m))
  {
    var u := Apply(s, m);
    assert RequestOk(s, m.id) && HistoryOk(s, m.id);
    forall i ensures RequestOk(u, i) { assert RequestOk(s, i); }
    forall k ensures KeyOk(u, k) {
      assert KeyOk(s, k);
      if k in u.reserved && ProtectedByOwner(u, k) {
        ProtectionFades(u.requests[u.reserved[k].id], k, s.now, u.now);
      }
    }
    forall k ensures ObjectOk(u, k) { assert ObjectOk(s, k); }
    forall i ensures HistoryOk(u, i) { assert HistoryOk(s, i); }
    forall k, b | (k, b) in u.stored ensures BlobOk(u, k, b) { assert BlobOk(s, k, b); }
  }

  lemma ReserveKeeps(s: Sys, m: Move)
    requires Inv(s) && m.Reserve? && Allowed(s, m)
    ensures Inv(Apply(s, m))
  {
    var u := Apply(s, m);
    assert RequestOk(s, m.id);
    forall i ensures RequestOk(u, i) {
      if i != m.id { OtherRowsKeep(s, u, m.id, {}, i); }
    }
    forall k ensures KeyOk(u, k) {
      assert KeyOk(s, k);
      if k in s.reserved && ProtectedByOwner(u, k) && u.reserved[k].id != m.id {
        ProtectionFades(u.requests[u.reserved[k].id], k, s.now, u.now);
      }
    }
    forall k ensures ObjectOk(u, k) { assert ObjectOk(s, k); }
    forall i ensures HistoryOk(u, i) { assert HistoryOk(s, i); }
    forall k, b | (k, b) in u.stored ensures BlobOk(u, k, b) { assert BlobOk(s, k, b); }
  }

  lemma EndReservationKeeps(s: Sys, m: Move)
    requires Inv(s) && m.EndReservation? && Allowed(s, m)
    ensures Inv(Apply(s, m))
  {
    assert RequestOk(s, m.id) && HistoryOk(s, m.id);
    OneRowKeeps(s, Apply(s, m), m.id, KeysOf(s.requests[m.id].phase));
  }

  lemma AcceptKeeps(s: Sys, m: Move)
    requires Inv(s) && (m.AcceptInline? || m.AcceptStored?) && Allowed(s, m)
    ensures Inv(Apply(s, m))
  {
    assert RequestOk(s, m.id) && HistoryOk(s, m.id);
    if m.AcceptStored? {
      assert ObjectOk(s, s.requests[m.id].phase.resv.final);
      OneRowKeeps(s, Apply(s, m), m.id, {s.requests[m.id].phase.resv.upload});
    } else {
      OneRowKeeps(s, Apply(s, m), m.id, {});
    }
  }

  lemma TakeKeeps(s: Sys, m: Move)
    requires Inv(s) && m.Take? && Allowed(s, m)
    ensures Inv(Apply(s, m))
  {
    assert RequestOk(s, m.id) && HistoryOk(s, m.id);
    var content := s.requests[m.id].phase.content;
    if content.Stored? {
      assert ObjectOk(s, content.final) && BlobOk(s, content.final, m.blob);
    }
    OneRowKeeps(s, Apply(s, m), m.id, {});
  }

  lemma FinishStreamKeeps(s: Sys, m: Move)
    requires Inv(s) && m.FinishStream? && Allowed(s, m)
    ensures Inv(Apply(s, m))
  {
    assert RequestOk(s, m.id) && HistoryOk(s, m.id);
    OneRowKeeps(s, Apply(s, m), m.id, KeysOf(s.requests[m.id].phase));
  }

  lemma WithdrawKeeps(s: Sys, m: Move)
    requires Inv(s) && m.Withdraw? && Allowed(s, m)
    ensures Inv(Apply(s, m))
  {
    assert RequestOk(s, m.id) && HistoryOk(s, m.id);
    OneRowKeeps(s, Apply(s, m), m.id, KeysOf(s.requests[m.id].phase));
  }

  lemma PurgeKeeps(s: Sys, m: Move)
    requires Inv(s) && m.Purge? && Allowed(s, m)
    ensures Inv(Apply(s, m))
  {
    var u := Apply(s, m);
    assert RequestOk(s, m.id);
    forall i ensures RequestOk(u, i) { assert RequestOk(s, i); }
    forall k ensures KeyOk(u, k) {
      assert KeyOk(s, k);
      if k in u.reserved && ProtectedByOwner(u, k) {
        ProtectionFades(u.requests[u.reserved[k].id], k, s.now, u.now);
        if k in KeysOf(s.requests[m.id].phase) { NamesItsOwn(s, m.id, k); }
      }
    }
    forall k ensures ObjectOk(u, k) { assert ObjectOk(s, k); }
    forall i ensures HistoryOk(u, i) { assert HistoryOk(s, i); }
    forall k, b | (k, b) in u.stored ensures BlobOk(u, k, b) { assert BlobOk(s, k, b); }
  }

  lemma SweepKeeps(s: Sys, m: Move)
    requires Inv(s) && m.Sweep? && Allowed(s, m)
    ensures Inv(Apply(s, m))
  {
    ClockKeeps(s, m.t);
    var v := s.(now := m.t);
    var u := Apply(s, m);
    forall i ensures RequestOk(u, i) { assert RequestOk(v, i); }
    forall k ensures KeyOk(u, k) {
      assert KeyOk(v, k);
      if k in m.keys && k in u.reserved && ProtectedByOwner(u, k) {
        ProtectionFades(u.requests[u.reserved[k].id], k, m.read, m.t);
      }
    }
    forall k ensures ObjectOk(u, k) { assert ObjectOk(v, k); }
    forall i ensures HistoryOk(u, i) { assert HistoryOk(v, i); }
    forall k, b | (k, b) in u.stored ensures BlobOk(u, k, b) { assert BlobOk(v, k, b); }
  }

  lemma BucketKeeps(s: Sys, m: Move)
    requires Inv(s) && (m.PutUpload? || m.WriteFinal? || m.DeleteObject?) && Allowed(s, m)
    ensures Inv(Apply(s, m))
  {
    var u := Apply(s, m);
    forall i ensures RequestOk(u, i) { assert RequestOk(s, i); }
    forall k ensures KeyOk(u, k) { assert KeyOk(s, k); }
    forall k ensures ObjectOk(u, k) { assert ObjectOk(s, k); }
    forall i ensures HistoryOk(u, i) { assert HistoryOk(s, i); }
    forall k, b | (k, b) in u.stored ensures BlobOk(u, k, b) {
      if (k, b) in s.stored { assert BlobOk(s, k, b); }
    }
  }

  /** Every move of every actor keeps the invariant. */
  lemma MoveKeeps(s: Sys, m: Move)
    requires Inv(s) && Allowed(s, m)
    ensures Inv(Apply(s, m))
  {
    match m
    case Tick(t) => ClockKeeps(s, t);
    case Create(_, _, _, _, _) => CreateKeeps(s, m);
    case Reserve(_, _, _) => ReserveKeeps(s, m);
    case EndReservation(_, _) => EndReservationKeeps(s, m);
    case AcceptInline(_, _, _, _, _, _) => AcceptKeeps(s, m);
    case AcceptStored(_, _, _) => AcceptKeeps(s, m);
    case Take(_, _, _, _) => TakeKeeps(s, m);
    case FinishStream(_, _) => FinishStreamKeeps(s, m);
    case Withdraw(_, _) => WithdrawKeeps(s, m);
    case Purge(_, _, _) => PurgeKeeps(s, m);
    case Sweep(_, _, _) => SweepKeeps(s, m);
    case PutUpload(_, _) => BucketKeeps(s, m);
    case WriteFinal(_, _) => BucketKeeps(s, m);
    case DeleteObject(_) => BucketKeeps(s, m);
  }
}
