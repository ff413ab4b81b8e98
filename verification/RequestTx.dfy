/** The statements one request transaction is made of. Each works on the transaction's own
    copy of the tables; the store publishes the copy when it commits. */
module RequestTx {
  import opened Common
  import opened RequestProtocol
  import opened RequestTables
  import opened RequestAnswers

  /** `after` is `before` with the row and payload of `id` now those of `q`, and with deletes of
      exactly `keys` added to the outbox. */
  ghost predicate Rewrites(before: Tx, after: Tx, id: Id, q: Request, keys: set<Key>) {
    && after.rows == before.rows[id := Columns(q)]
    && (match PayloadOf(q)
        case Some(blob) => after.payloads == before.payloads[id := blob]
        case None => after.payloads == before.payloads - {id})
    && QueuedIn(after.outbox) == QueuedIn(before.outbox) + keys
    && before.outbox <= after.outbox
    && SameScan(before, after)
  }

  ghost predicate SameScan(before: Tx, after: Tx) {
    after.claims == before.claims && after.cursor == before.cursor && after.cursorGeneration == before.cursorGeneration
  }

  /** The row and payload of `id` are those of `q`. */
  ghost predicate Holds(tx: Tx, id: Id, q: Request) {
    && id in tx.rows && tx.rows[id] == Columns(q)
    && (match PayloadOf(q)
        case Some(blob) => id in tx.payloads && tx.payloads[id] == blob
        case None => id !in tx.payloads)
  }

  ghost predicate ManagedKeys(q: Request) {
    forall k :: k in KeysOf(q.phase) ==> k.RequestKey?
  }

  /** Queues one object delete, refusing keys outside `managed/requests/`. */
  method EnqueueObject(tx: Tx, key: Key, reason: Reason, now: Time) returns (after: Answer<Tx>)
    ensures key.RequestKey? <==> after.Ok?
    ensures after.Err? ==> after.error.ErrStorage?
    ensures after.Ok? ==>
              && after.value.rows == tx.rows && after.value.payloads == tx.payloads && SameScan(tx, after.value)
              && after.value.outbox == tx.outbox + [Job(key, reason, now)]
              && QueuedIn(after.value.outbox) == QueuedIn(tx.outbox) + {key}
  {
    if !key.RequestKey? {
      return Err(ErrStorage);
    }
    QueuedAppend(tx.outbox, Job(key, reason, now));
    return Ok(tx.(outbox := tx.outbox + [Job(key, reason, now)]));
  }

  /** One job for each key that is there, in order. */
  function KeyJobs(keys: seq<Option<Key>>, reason: Reason, now: Time): seq<Job> {
    if keys == [] then [] else
      var rest, last := KeyJobs(keys[..|keys| - 1], reason, now), keys[|keys| - 1];
      if last.Some? then rest + [Job(last.value, reason, now)] else rest
  }

  lemma QueuedPair(outbox: seq<Job>, upload: Option<Key>, final: Option<Key>, reason: Reason, now: Time)
    ensures QueuedIn(outbox + KeyJobs([upload, final], reason, now)) ==
            QueuedIn(outbox) + (if upload.Some? then {upload.value} else {}) + (if final.Some? then {final.value} else {})
  {
    var one: seq<Option<Key>> := [upload];
    assert [upload, final][..1] == one && one[..|one| - 1] == [];
    var first := KeyJobs(one, reason, now);
    var none: seq<Option<Key>> := [];
    assert KeyJobs(none, reason, now) == [];
    if upload.Some? {
      assert first == [Job(upload.value, reason, now)];
      QueuedAppend(outbox, Job(upload.value, reason, now));
    } else {
      assert outbox + first == outbox;
    }
    if final.Some? {
      QueuedAppend(outbox + first, Job(final.value, reason, now));
      assert outbox + KeyJobs([upload, final], reason, now) == outbox + first + [Job(final.value, reason, now)];
    }
  }

  /** Queues one delete for every key the row still names. */
  method EnqueueRequestKeys(tx: Tx, id: Id, reason: Reason, now: Time, ghost q: Request) returns (after: Answer<Tx>)
    requires Holds(tx, id, q) && ManagedKeys(q)
    ensures after.Ok?
    ensures after.value == tx.(outbox := tx.outbox + KeyJobs([tx.rows[id].uploadKey, tx.rows[id].finalKey], reason, now))
    ensures QueuedIn(after.value.outbox) == QueuedIn(tx.outbox) + KeysOf(q.phase)
  {
    var keys := [tx.rows[id].uploadKey, tx.rows[id].finalKey];
    var work := tx;
    for i := 0 to |keys|
      invariant work == tx.(outbox := tx.outbox + KeyJobs(keys[..i], reason, now))
    {
      assert keys[..i + 1][..i] == keys[..i];
      if keys[i].Some? {
        var next := EnqueueObject(work, keys[i].value, reason, now);
        if next.Err? { return next; }
        work := next.value;
      }
    }
    assert keys[..|keys|] == keys;
    QueuedPair(tx.outbox, keys[0], keys[1], reason, now);
    return Ok(work);
  }

  /** Fences the current generation and queues its keys; the last generation ends the request. */
  method EndReservationTx(tx: Tx, id: Id, generation: int, now: Time, ghost q: Request) returns (after: Answer<Tx>)
    requires Holds(tx, id, q) && ManagedKeys(q)
    ensures after.Ok? <==> q.phase.Uploading? && q.generation == generation
    ensures after.Err? ==> after.error.ErrConflict?
    ensures after.Ok? ==> Rewrites(tx, after.value, id, NextGeneration(q), KeysOf(q.phase))
  {
    var queued := EnqueueRequestKeys(tx, id, ReasonOrphan, now, q);
    if queued.Err? { return queued; }
    var work := queued.value;
    var next, state := generation + 1, StWaiting;
    if generation == MAX_GENERATION {
      next, state := generation, StUnavailable;
    }
    var row := work.rows[id];
    if !(row.state.StUploading? && row.generation == generation) {
      return Err(ErrConflict);
    }
    row := row.(state := state, generation := next, backend := SqliteBlob, attempt := None, bodyHash := None,
                kind := None, size := None, envelope := None, uploadKey := None, finalKey := None,
                checksum := None, reservationExpires := None);
    return Ok(work.(rows := work.rows[id := row]));
  }

  /** Ends a request: queues its keys, drops the payload row and clears the body columns.
      Accepted attempts keep their hashes; a mere reservation loses them. */
  method ClearPayloadTx(tx: Tx, id: Id, previous: State, state: State, reason: Reason, now: Time, ghost q: Request)
    returns (after: Answer<Tx>)
    requires Holds(tx, id, q) && ManagedKeys(q)
    requires state.StCancelled? || (state.StConsumed? && q.phase.Submitted? && q.phase.content.Inline?)
    requires state.StCancelled? ==> !q.phase.Consumed? && !q.phase.Unavailable?
    ensures after.Ok? <==> Columns(q).state == previous
    ensures after.Err? ==> after.error.ErrConflict?
    ensures after.Ok? && state.StCancelled? ==>
              Rewrites(tx, after.value, id, q.(phase := WithdrawnPhase(q.phase)), KeysOf(q.phase))
    ensures after.Ok? && state.StConsumed? ==>
              Rewrites(tx, after.value, id, q.(phase := TakenPhase(q.phase, now)), {})
  {
    var queued := EnqueueRequestKeys(tx, id, reason, now, q);
    if queued.Err? { return queued; }
    var work := queued.value;
    work := work.(payloads := work.payloads - {id});
    var row := work.rows[id];
    if row.state != previous {
      return Err(ErrConflict);
    }
    row := row.(state := state,
                attempt := if row.state.StUploading? then None else row.attempt,
                bodyHash := if row.state.StUploading? then None else row.bodyHash,
                kind := None, size := None, envelope := None, uploadKey := None, finalKey := None,
                reservationExpires := None, checksum := None,
                consumedAt := if state.StConsumed? then Some(now) else row.consumedAt);
    return Ok(work.(rows := work.rows[id := row]));
  }

  /** Waiting becomes submitted, with the payload row beside it. */
  method InsertSubmission(tx: Tx, id: Id, input: SubmitInput, ghost q: Request) returns (after: Tx)
    requires Holds(tx, id, q) && q.phase.Waiting?
    requires input.attempt.Some? && input.envelope.Some? && input.ciphertext.Some?
    requires |input.ciphertext.value.bytes| == input.size
    ensures Rewrites(tx, after, id,
                     q.(phase := Submitted(Claim(input.attempt.value, input.body), input.kind, input.envelope.value,
                                           Inline(input.ciphertext.value))), {})
  {
    var row := tx.rows[id].(state := StSubmitted, attempt := input.attempt, bodyHash := Some(input.body),
                            kind := Some(input.kind), size := Some(input.size), envelope := input.envelope);
    after := tx.(rows := tx.rows[id := row], payloads := tx.payloads[id := input.ciphertext.value]);
  }

  /** Waiting becomes uploading, under two fresh keys. */
  method InsertReservation(tx: Tx, id: Id, input: UploadInput, upload: Key, final: Key, deadline: Time, ghost q: Request)
    returns (after: Tx)
    requires Holds(tx, id, q) && q.phase.Waiting?
    requires input.attempt.Some? && input.envelope.Some? && input.checksum.Some?
    ensures Rewrites(tx, after, id, q.(phase := Uploading(ReservationOf(input, upload, final, deadline))), {})
  {
    var row := tx.rows[id].(state := StUploading, backend := S3Object, attempt := input.attempt,
                            bodyHash := Some(input.body), kind := Some(File), size := Some(input.size),
                            envelope := input.envelope, checksum := input.checksum, uploadKey := Some(upload),
                            finalKey := Some(final), reservationExpires := Some(deadline));
    assert tx.payloads - {id} == tx.payloads;
    after := tx.(rows := tx.rows[id := row]);
  }

  /** Uploading becomes submitted under the copied final key; the upload key is queued for deletion. */
  method AcceptReservation(tx: Tx, id: Id, generation: int, upload: Key, final: Key, now: Time, ghost q: Request)
    returns (after: Answer<Tx>)
    requires Holds(tx, id, q) && upload.RequestKey?
    ensures after.Ok? <==> q.phase.Uploading? && q.generation == generation && q.phase.resv.final == final
    ensures after.Err? ==> after.error.ErrConflict?
    ensures after.Ok? ==> Rewrites(tx, after.value, id, q.(phase := StoredPhase(q.phase.resv)), {upload})
  {
    var row := tx.rows[id];
    if !(row.state.StUploading? && row.generation == generation && row.finalKey == Some(final)) {
      return Err(ErrConflict);
    }
    row := row.(state := StSubmitted, uploadKey := None, reservationExpires := None);
    assert tx.payloads - {id} == tx.payloads;
    after := EnqueueObject(tx.(rows := tx.rows[id := row]), upload, ReasonOrphan, now);
  }

  /** Submitted becomes consumed; the final key stays named while the body streams. */
  method ConsumeObjectTx(tx: Tx, id: Id, key: Key, now: Time, ghost q: Request) returns (after: Answer<Tx>)
    requires Holds(tx, id, q)
    ensures after.Ok? <==> q.phase.Submitted? && q.phase.content.Stored? && q.phase.content.final == key
    ensures after.Err? ==> after.error.ErrConflict?
    ensures after.Ok? ==> Rewrites(tx, after.value, id, q.(phase := TakenPhase(q.phase, now)), {})
  {
    var row := tx.rows[id];
    if !(row.state.StSubmitted? && row.finalKey == Some(key)) {
      return Err(ErrConflict);
    }
    row := row.(state := StConsumed, consumedAt := Some(now), kind := None, size := None, envelope := None, checksum := None);
    assert tx.payloads - {id} == tx.payloads;
    after := Ok(tx.(rows := tx.rows[id := row]));
  }

  /** Drops the key of an ended stream and queues its delete; None when there is nothing to do. */
  method FinishOpenTx(tx: Tx, id: Id, key: Key, now: Time, ghost q: Request) returns (after: Option<Tx>)
    requires Holds(tx, id, q) && ManagedKeys(q)
    ensures after.Some? <==> q.phase.Consumed? && q.phase.streaming == Some(key)
    ensures after.Some? ==> Rewrites(tx, after.value, id, q.(phase := q.phase.(streaming := None)), {key})
  {
    var row := tx.rows[id];
    if !(row.state.StConsumed? && row.finalKey == Some(key)) {
      return None;
    }
    assert tx.payloads - {id} == tx.payloads;
    var queued := EnqueueObject(tx.(rows := tx.rows[id := row.(finalKey := None)]), key, ReasonConsumed, now);
    after := Some(queued.value);
  }

  /** The managed keys of a page that no row protects. */
  function Unprotected(rows: map<Id, Row>, page: seq<Key>, now: Time): set<Key> {
    set k | k in page && k.RequestKey? && !RowsProtect(rows, k, now)
  }

  lemma UnprotectedNext(rows: map<Id, Row>, page: seq<Key>, key: Key, now: Time)
    ensures Unprotected(rows, page + [key], now) == Unprotected(rows, page, now) +
              (if key.RequestKey? && !RowsProtect(rows, key, now) then {key} else {})
  {}

  /** `after` adds to `tx` exactly one claim and one delete job for each of `keys` not claimed before. */
  ghost predicate Claims(tx: Tx, after: Tx, keys: set<Key>, now: Time, count: nat) {
    && after == tx.(claims := after.claims, outbox := after.outbox)
    && after.claims.Keys == tx.claims.Keys + keys
    && Submap(tx.claims, after.claims)
    && Indexed(tx, after, now)
    && QueuedIn(after.outbox) == QueuedIn(tx.outbox) + (keys - tx.claims.Keys)
    && tx.outbox <= after.outbox && |after.outbox| == |tx.outbox| + count
  }

  /** New claims and new jobs correspond one to one: each claim names the position of its own job. */
  ghost predicate Indexed(tx: Tx, after: Tx, now: Time) {
    && (forall k :: k in after.claims && k !in tx.claims ==>
          |tx.outbox| <= after.claims[k] < |after.outbox| && after.outbox[after.claims[k]] == Job(k, ReasonOrphan, now))
    && (forall i :: |tx.outbox| <= i < |after.outbox| ==>
          after.outbox[i].key in after.claims && after.claims[after.outbox[i].key] == i)
  }

  function ClaimKey(tx: Tx, key: Key, now: Time): Tx {
    tx.(claims := tx.claims[key := |tx.outbox|], outbox := tx.outbox + [Job(key, ReasonOrphan, now)])
  }

  lemma IndexNext(tx: Tx, work: Tx, key: Key, now: Time)
    requires Indexed(tx, work, now) && key !in work.claims && |tx.outbox| <= |work.outbox|
    ensures Indexed(tx, ClaimKey(work, key, now), now)
  {}

  lemma ClaimNext(tx: Tx, work: Tx, keys: set<Key>, key: Key, now: Time, count: nat)
    requires Claims(tx, work, keys, now, count) && key !in work.claims
    ensures Claims(tx, ClaimKey(work, key, now), keys + {key}, now, count + 1)
  {
    IndexNext(tx, work, key, now);
    QueuedAppend(work.outbox, Job(key, ReasonOrphan, now));
    assert keys + {key} - tx.claims.Keys == (keys - tx.claims.Keys) + {key};
  }

  lemma ClaimAgain(tx: Tx, work: Tx, keys: set<Key>, key: Key, now: Time, count: nat)
    requires Claims(tx, work, keys, now, count) && key in work.claims
    ensures Claims(tx, work, keys + {key}, now, count)
  {}

  lemma ClaimNone(tx: Tx, now: Time)
    ensures Claims(tx, tx, {}, now, 0)
  {}

  /** The scan transaction's loop over one listed page. */
  method ClaimUnprotected(tx: Tx, page: seq<Key>, now: Time) returns (after: Tx, count: nat)
    ensures Claims(tx, after, Unprotected(tx.rows, page, now), now, count)
  {
    after, count := tx, 0;
    ghost var keys := {};
    ClaimNone(tx, now);
    for i := 0 to |page|
      invariant keys == Unprotected(tx.rows, page[..i], now)
      invariant Claims(tx, after, keys, now, count)
    {
      var key := page[i];
      UnprotectedNext(tx.rows, page[..i], key, now);
      assert page[..i + 1] == page[..i] + [key];
      if key.RequestKey? && !RowsProtect(tx.rows, key, now) {
        if key in after.claims {
          ClaimAgain(tx, after, keys, key, now, count);
        } else {
          ClaimNext(tx, after, keys, key, now, count);
          after, count := ClaimKey(after, key, now), count + 1;
        }
        keys := keys + {key};
      }
    }
    assert page[..|page|] == page;
  }
}
