/** The request store: each operation as the code runs it, transaction by transaction, with every
    other process free to act whenever no transaction is open. */
module RequestStore {
  import opened Common
  import opened RequestProtocol
  import opened RequestInvariant
  import opened RequestTheorems
  import opened RequestTables
  import opened RequestAnswers
  import opened RequestTx
  import opened Batches

  /** A finalize that other callers for the same request id may wait on. */
  datatype FinalizeCall = FinalizeCall(id: Id, result: Option<Answer<Receipt>>)

  /** Everything several processes and goroutines share. */
  datatype World = World(
    clock: Time, tx: Tx, bucket: map<Key, Blob>, finalizing: map<Id, nat>, calls: map<nat, FinalizeCall>)

  /** A receipt for `id` names the generation that was really accepted. */
  ghost predicate Honest(s: Sys, id: Id, a: Answer<Receipt>) {
    a.Ok? ==> a.value.standing.IsSubmitted? && id in s.accepted && s.accepted[id].generation == a.value.generation
  }

  ghost predicate CallsHonest(w: World, s: Sys) {
    && (forall c :: c in w.calls && w.calls[c].result.Some? ==> Honest(s, w.calls[c].id, w.calls[c].result.value))
    && (forall id :: id in w.finalizing ==> w.finalizing[id] in w.calls && w.calls[w.finalizing[id]].id == id)
  }

  ghost predicate TablesFor(tx: Tx, s: Sys) {
    && tx.rows.Keys == s.requests.Keys
    && tx.payloads.Keys <= s.requests.Keys
    && (forall id :: id in s.requests ==> Holds(tx, id, s.requests[id]))
    && QueuedIn(tx.outbox) == s.queued
    && ClaimsOk(tx)
  }

  /** `w` is what the store holds when the protocol is in state `s`. */
  ghost predicate Represents(w: World, s: Sys) {
    && TablesFor(w.tx, s)
    && w.bucket == s.bucket
    && s.now <= w.clock
    && CallsHonest(w, s)
  }

  /** What the other processes act on: the shared world, and the protocol state it stands for, which also
      holds what no table shows any more, such as the ids that were ever issued. */
  datatype Shared = Shared(world: World, ghost sys: Sys)

  ghost predicate Coherent(x: Shared) {
    Reachable(x.sys) && Represents(x.world, x.sys)
  }

  /** The other processes only ever run the protocol. */
  ghost predicate Rely(others: (nat, Shared) -> Shared) {
    forall n: nat, x: Shared :: Coherent(x) ==> MayBecome(x, others(n, x))
  }

  ghost predicate MayBecome(x: Shared, next: Shared) {
    x.world.clock <= next.world.clock && Reaches(x.sys, next.sys) && Represents(next.world, next.sys)
  }

  /** An environment that does nothing is one such. */
  lemma QuietEnvironment(others: (nat, Shared) -> Shared)
    requires forall n, x :: others(n, x) == x
    ensures Rely(others)
  {
    forall n: nat, x: Shared | Coherent(x) ensures MayBecome(x, others(n, x)) {
      ReachesSelf(x.sys);
    }
  }

  // ---------------------------------------------------------------- keeping tables and protocol together

  lemma TablesStep(tx: Tx, after: Tx, s: Sys, t: Sys, id: Id, keys: set<Key>)
    requires TablesFor(tx, s) && id in t.requests && t.requests == s.requests[id := t.requests[id]]
    requires Rewrites(tx, after, id, t.requests[id], keys) && t.queued == s.queued + keys
    ensures TablesFor(after, t)
  {
    forall i | i in t.requests ensures Holds(after, i, t.requests[i]) {
      if i == id { RewrittenHolds(tx, after, id, t.requests[id], keys); }
      else { OthersHold(tx, after, id, t.requests[id], keys, i, t.requests[i]); }
    }
  }

  lemma RewrittenHolds(tx: Tx, after: Tx, id: Id, q: Request, keys: set<Key>)
    requires Rewrites(tx, after, id, q, keys)
    ensures Holds(after, id, q)
  {}

  lemma OthersHold(tx: Tx, after: Tx, id: Id, q: Request, keys: set<Key>, i: Id, p: Request)
    requires Rewrites(tx, after, id, q, keys) && i != id && Holds(tx, i, p)
    ensures Holds(after, i, p)
  {}

  lemma CallsStayHonest(w: World, s: Sys, t: Sys)
    requires CallsHonest(w, s) && Submap(s.accepted, t.accepted)
    ensures CallsHonest(w, t)
  {}

  /** `after` is `before` with one row rewritten the way `t` rewrites it. */
  ghost predicate RowMove(s: Sys, t: Sys, before: Tx, after: Tx, id: Id, keys: set<Key>) {
    && id in t.requests && t.requests == s.requests[id := t.requests[id]]
    && Rewrites(before, after, id, t.requests[id], keys) && t.queued == s.queued + keys
  }

  /** Committed at any timely moment from `clock` on, the rewritten row is a protocol move. */
  ghost predicate Committable(s: Sys, m: Move, clock: Time, expires: Option<Time>, tx: Tx, work: Tx, id: Id, keys: set<Key>) {
    forall t :: clock <= t && (expires.Some? ==> t < expires.value) ==>
      Allowed(s, At(m, t)) && RowMove(s, Apply(s, At(m, t)), tx, work, id, keys)
  }

  lemma MoveRepresents(w: World, s: Sys, m: Move, before: Tx, id: Id, keys: set<Key>)
    requires Reachable(s) && Allowed(s, m) && TablesFor(before, s)
    requires RowMove(s, Apply(s, m), before, w.tx, id, keys) && CallsHonest(w, s)
    requires w.bucket == Apply(s, m).bucket && Apply(s, m).now <= w.clock
    ensures Represents(w, Apply(s, m)) && Reaches(s, Apply(s, m)) && Reachable(Apply(s, m))
  {
    var t := Apply(s, m);
    OneMove(s, m);
    ReachesLater(s, t);
    ReachesReachable(s, t);
    TablesStep(before, w.tx, s, t, id, keys);
    CallsStayHonest(w, s, t);
  }

  lemma NamedAreManaged(s: Sys, id: Id)
    requires Reachable(s) && id in s.requests
    ensures ManagedKeys(s.requests[id])
  {
    ReachableInv(s);
    assert RequestOk(s, id);
    forall k | k in KeysOf(s.requests[id].phase) ensures k.RequestKey? {
      assert ObjectOk(s, k);
    }
  }

  lemma RankRange(s: Sys, id: Id)
    requires Reachable(s)
    ensures 0 <= Rank(s, id) <= MAX_GENERATION
  {
    ReachableInv(s);
    assert RequestOk(s, id);
  }

  lemma EndingLowersRank(s: Sys, t: Sys, id: Id)
    requires Reachable(s) && id in s.requests && s.requests[id].phase.Uploading?
    requires t.requests == s.requests[id := NextGeneration(s.requests[id])] && t.ids == s.ids
    ensures 0 <= Rank(t, id) < Rank(s, id) <= MAX_GENERATION && id in t.ids
  {
    ReachableInv(s);
    assert RequestOk(s, id);
  }

  lemma RanksFall(s: Sys, t: Sys, u: Sys, id: Id)
    requires Reachable(t) && Reaches(s, t) && Reaches(t, u) && id in t.ids && Rank(t, id) < Rank(s, id)
    ensures Reaches(s, u) && Rank(u, id) < Rank(s, id)
  {
    ReachesTransitive(s, t, u);
    ReachesLater(t, u);
    assert RequestLater(t, u, id);
  }

  // ---------------------------------------------------------------- fresh keys

  /** Every key a row, the outbox or the bucket mentions. */
  function KeysInUse(w: World): set<Key> {
    (set id | id in w.tx.rows && w.tx.rows[id].uploadKey.Some? :: w.tx.rows[id].uploadKey.value)
    + (set id | id in w.tx.rows && w.tx.rows[id].finalKey.Some? :: w.tx.rows[id].finalKey.value)
    + QueuedIn(w.tx.outbox) + w.bucket.Keys
  }

  /** Conservation makes that enough: a key drawn before is still mentioned somewhere. */
  lemma UnusedIsFresh(w: World, s: Sys, key: Key)
    requires Reachable(s) && Represents(w, s) && key !in KeysInUse(w)
    ensures Fresh(s, key)
  {
    ReachableInv(s);
    if key in s.reserved {
      assert KeyOk(s, key);
      var id := s.reserved[key].id;
      assert Holds(w.tx, id, s.requests[id]);
      NamedInColumns(s.requests[id], key);
    }
  }

  lemma NamedInColumns(q: Request, key: Key)
    requires key in KeysOf(q.phase)
    ensures Columns(q).uploadKey == Some(key) || Columns(q).finalKey == Some(key)
  {}

  lemma ReservedNow(s: Sys, t: Sys, id: Id, input: UploadInput, r: Reservation, c: Time)
    requires Allowed(s, RequestProtocol.Reserve(id, r, c)) && t == Apply(s, RequestProtocol.Reserve(id, r, c))
    requires input.attempt.Some? && input.envelope.Some? && input.checksum.Some?
    requires r == ReservationOf(input, r.upload, r.final, r.deadline) && r.deadline <= c + RESERVATION_TTL
    ensures ReservesFor(s, t, id, input) && t.requests[id].phase.resv == r
  {}

  lemma ReserveCommits(s: Sys, clock: Time, tx: Tx, work: Tx, id: Id, r: Reservation)
    requires id in s.requests && ReserveAllowed(s, s.requests[id], r, s.requests[id].expires - 1) && s.now <= clock
    requires Rewrites(tx, work, id, s.requests[id].(phase := Uploading(r)), {})
    ensures Committable(s, RequestProtocol.Reserve(id, r, 0), clock, Some(s.requests[id].expires), tx, work, id, {})
  {}

  lemma NonceExists(used: set<Key>, role: Role)
    ensures exists n: nat :: RequestKey(n, role) !in used
  {
    var nonces := set k | k in used && k.RequestKey? :: k.nonce;
    var n := Above(nonces);
    assert RequestKey(n, role) in used ==> n in nonces;
    assert RequestKey(n, role) !in used;
  }

  // ---------------------------------------------------------------- finalize

  /** The keys and contents of `a` are those of one reservation that was really made. */
  ghost predicate KnownAttempt(s: Sys, a: ObjectAttempt) {
    && a.final in s.reserved && a.final.RequestKey? && a.final.role.Final? && a.upload.RequestKey?
    && var r := s.reserved[a.final].resv;
       r.upload == a.upload && r.final == a.final && r.spec == a.spec
  }

  /** The reservation was made for this request in this generation, by this attempt. */
  ghost predicate KnownFor(s: Sys, a: ObjectAttempt, id: Id, generation: int, attempt: Digest) {
    && KnownAttempt(s, a) && s.reserved[a.final].id == id && s.reserved[a.final].generation == generation
    && s.reserved[a.final].resv.claim.attempt == attempt
  }

  /** A receipt about exactly this attempt: it was accepted, at this generation. */
  ghost predicate AnswersAttempt(s: Sys, id: Id, generation: int, attempt: Digest, answer: Answer<Receipt>) {
    && answer == Ok(Receipt(generation, IsSubmitted))
    && id in s.accepted && s.accepted[id].generation == generation && s.accepted[id].claim.attempt == attempt
  }

  lemma UploadingIsKnown(s: Sys, id: Id)
    requires Reachable(s) && id in s.requests && s.requests[id].phase.Uploading?
    ensures var r := s.requests[id].phase.resv;
            KnownFor(s, ObjectAttempt(r.upload, r.final, r.spec), id, s.requests[id].generation, r.claim.attempt)
  {
    ReachableInv(s);
    assert RequestOk(s, id);
  }

  lemma StaysKnown(s: Sys, t: Sys, a: ObjectAttempt)
    requires Reachable(s) && Reaches(s, t) && KnownAttempt(s, a)
    ensures KnownAttempt(t, a) && t.reserved[a.final] == s.reserved[a.final] && (a.final in s.written ==> a.final in t.written)
  {
    ReachesLater(s, t);
  }

  /** A request still uploading in the generation of the snapshot still has the snapshot's reservation: the
      finalize transaction's second look at key and checksum cannot fail. */
  lemma SameReservation(s: Sys, id: Id, a: ObjectAttempt, attempt: Digest)
    requires Reachable(s) && id in s.requests && s.requests[id].phase.Uploading?
    requires KnownFor(s, a, id, s.requests[id].generation, attempt)
    ensures var r := s.requests[id].phase.resv; r.upload == a.upload && r.final == a.final && r.spec == a.spec
  {
    OneReservationPerGeneration(s, a.final);
  }

  lemma RepeatIsAccepted(s: Sys, id: Id, generation: int, attempt: Digest)
    requires Reachable(s) && id in s.requests && FinalizeVerdict(s.requests[id], generation, attempt).Repeat?
    ensures AnswersAttempt(s, id, generation, attempt, Ok(Receipt(generation, IsSubmitted)))
  {
    ReachableInv(s);
    assert RequestOk(s, id);
  }

  lemma EffectAnswers(s: Sys, t: Sys, clock: Time, id: Id, generation: int, attempt: Digest, answer: Answer<Receipt>)
    requires Reachable(s) && FinalizeEffect(s, t, clock, id, generation, attempt, answer)
    ensures answer.Ok? ==> AnswersAttempt(t, id, generation, attempt, answer)
  {
    if answer.Ok? && FinalizeVerdict(s.requests[id], generation, attempt).Repeat? {
      RepeatIsAccepted(s, id, generation, attempt);
    }
  }

  lemma AcceptCommits(s: Sys, checked: Time, tx: Tx, work: Tx, id: Id)
    requires id in s.requests && s.requests[id].phase.Uploading? && s.requests[id].phase.resv.final in s.written
    requires s.now <= checked < s.requests[id].phase.resv.deadline
    requires var r := s.requests[id].phase.resv;
             Rewrites(tx, work, id, s.requests[id].(phase := StoredPhase(r)), {r.upload})
    ensures Committable(s, AcceptStored(id, checked, 0), checked, Some(s.requests[id].expires), tx, work, id,
                        {s.requests[id].phase.resv.upload})
  {}

  lemma WriteRepresents(w: World, s: Sys, key: Key, blob: Blob)
    requires Reachable(s) && Allowed(s, WriteFinal(key, blob))
    requires Represents(w.(bucket := s.bucket), s) && w.bucket == s.bucket[key := blob]
    ensures Represents(w, Apply(s, WriteFinal(key, blob)))
    ensures Reaches(s, Apply(s, WriteFinal(key, blob))) && Reachable(Apply(s, WriteFinal(key, blob)))
  {
    OneMove(s, WriteFinal(key, blob));
    ReachesReachable(s, Apply(s, WriteFinal(key, blob)));
  }

  lemma AcceptedNow(s: Sys, t: Sys, id: Id, checked: Time, c: Time)
    requires Allowed(s, AcceptStored(id, checked, c)) && t == Apply(s, AcceptStored(id, checked, c))
    ensures AcceptsStored(s, t, id)
  {}

  // ---------------------------------------------------------------- open

  lemma TakenNow(s: Sys, t: Sys, id: Id, body: Blob, at: Time, c: Time)
    requires Allowed(s, Take(id, body, at, c)) && t == Apply(s, Take(id, body, at, c))
    ensures Takes(s, t, id, body)
  {}

  lemma TakeCommits(s: Sys, at: Time, tx: Tx, work: Tx, id: Id, body: Blob)
    requires id in s.requests && s.requests[id].phase.Submitted? && s.now <= at
    requires Releasable(s, s.requests[id].phase.content, body)
    requires Rewrites(tx, work, id, s.requests[id].(phase := TakenPhase(s.requests[id].phase, at)), {})
    ensures Committable(s, Take(id, body, at, 0), at, Some(s.requests[id].expires), tx, work, id, {})
  {}

  lemma FinishCommits(s: Sys, clock: Time, tx: Tx, work: Tx, id: Id, key: Key)
    requires id in s.requests && s.requests[id].phase.Consumed? && s.requests[id].phase.streaming == Some(key)
    requires s.now <= clock
    requires Rewrites(tx, work, id, s.requests[id].(phase := s.requests[id].phase.(streaming := None)), {key})
    ensures Committable(s, FinishStream(id, 0), clock, None, tx, work, id, {key})
  {}

  lemma WithdrawCommits(s: Sys, clock: Time, tx: Tx, work: Tx, id: Id)
    requires id in s.requests && !s.requests[id].phase.Consumed? && !s.requests[id].phase.Unavailable? && s.now <= clock
    requires Rewrites(tx, work, id, s.requests[id].(phase := WithdrawnPhase(s.requests[id].phase)), KeysOf(s.requests[id].phase))
    ensures Committable(s, Withdraw(id, 0), clock, Some(s.requests[id].expires), tx, work, id, KeysOf(s.requests[id].phase))
  {}

  lemma ExpireCommits(s: Sys, clock: Time, tx: Tx, work: Tx, id: Id)
    requires id in s.requests && s.requests[id].phase.Uploading? && s.now <= clock
    requires Rewrites(tx, work, id, NextGeneration(s.requests[id]), KeysOf(s.requests[id].phase))
    ensures Committable(s, EndReservation(id, 0), clock, Some(s.requests[id].expires), tx, work, id, KeysOf(s.requests[id].phase))
  {}

  lemma ConsumedRow(q: Request)
    ensures Columns(q).state.StConsumed? <==> q.phase.Consumed?
  {}

  lemma BucketWasStored(s: Sys, key: Key)
    requires Reachable(s) && key in s.bucket
    ensures (key, s.bucket[key]) in s.stored
  {
    ReachableInv(s);
    assert ObjectOk(s, key);
  }

  /** A "submitted" answer to a submission: exactly this attempt, with this body, is the accepted one. */
  lemma SubmitIsHonest(s: Sys, t: Sys, clock: Time, id: Id, input: SubmitInput, answer: Answer<Receipt>)
    requires Reachable(s) && SubmitEffect(s, t, clock, id, input, answer) && answer.Ok?
    ensures answer.value == Receipt(input.generation, IsSubmitted) && id in t.accepted
    ensures t.accepted[id].generation == input.generation
    ensures t.accepted[id].claim == Claim(input.attempt.value, input.body)
  {
    ReachableInv(s);
    assert RequestOk(s, id);
  }

  /** The accepted submission is the object under this key. */
  ghost predicate AcceptedObject(s: Sys, id: Id, key: Key) {
    id in s.accepted && s.accepted[id].content.Stored? && s.accepted[id].content.final == key
  }

  lemma SubmittedIsAccepted(s: Sys, id: Id)
    requires Reachable(s) && id in s.requests && s.requests[id].phase.Submitted?
    ensures id in s.accepted && s.accepted[id].content == s.requests[id].phase.content
  {
    ReachableInv(s);
    assert RequestOk(s, id);
  }

  lemma AcceptedIsSubmitted(s: Sys, id: Id, key: Key)
    requires Reachable(s) && id in s.requests && AcceptedObject(s, id, key)
    ensures s.requests[id].phase.Submitted? ==> s.requests[id].phase.content.Stored? && s.requests[id].phase.content.final == key
  {
    ReachableInv(s);
    assert RequestOk(s, id);
  }

  /** The holder of the owner's token takes the body. */
  ghost predicate OwnerTakes(s: Sys, t: Sys, id: Id, token: Option<Digest>, body: Blob) {
    id in s.requests && token == Some(s.requests[id].retrieveHash) && Takes(s, t, id, body)
  }

  /** Two opens cannot both succeed, and the one that does returns the accepted submission. */
  lemma OpenedOnce(s: Sys, t: Sys, u: Sys, v: Sys, id: Id, first: Blob, second: Blob)
    requires Reachable(s) && Takes(s, t, id, first) && Reaches(t, u)
    ensures !Takes(u, v, id, second)
    ensures id in t.accepted && (t.accepted[id].content.Inline? ==> first == t.accepted[id].content.blob)
    ensures t.accepted[id].content.Stored? ==> Matches(first, t.accepted[id].content.spec)
  {
    var at, c :| Allowed(s, Take(id, first, at, c)) && t == Apply(s, Take(id, first, at, c));
    OneMove(s, Take(id, first, at, c));
    ReachesReachable(s, t);
    ReachesReachable(t, u);
    ReachesLater(t, u);
    ReachableInv(u);
    assert RequestOk(u, id);
    ReleaseMatchesAcceptance(t, id);
  }

  // ---------------------------------------------------------------- create and purge

  lemma IdIsNew(s: Sys, id: Id)
    requires Reachable(s) && id !in s.ids
    ensures id !in s.requests
  {
    ReachableInv(s);
    assert RequestOk(s, id);
  }

  lemma CreateRows(s: Sys, tx: Tx, id: Id, q: Request, t: Time)
    requires Reachable(s) && id !in s.ids && TablesFor(tx, s) && s.now <= t && q.generation == 1 && q.phase.Waiting?
    ensures var m := Create(id, q.submitHash, q.retrieveHash, q.expires, t);
            Allowed(s, m) && RowMove(s, Apply(s, m), tx, tx.(rows := tx.rows[id := Columns(q)]), id, {})
  {
    IdIsNew(s, id);
    assert tx.payloads - {id} == tx.payloads;
  }

  lemma CreateCommits(s: Sys, clock: Time, tx: Tx, id: Id, q: Request)
    requires Reachable(s) && id !in s.ids && TablesFor(tx, s) && s.now <= clock && q.generation == 1 && q.phase.Waiting?
    ensures Committable(s, Create(id, q.submitHash, q.retrieveHash, q.expires, 0), clock, None, tx,
                        tx.(rows := tx.rows[id := Columns(q)]), id, {})
  {
    forall t | clock <= t
      ensures var m := At(Create(id, q.submitHash, q.retrieveHash, q.expires, 0), t);
              Allowed(s, m) && RowMove(s, Apply(s, m), tx, tx.(rows := tx.rows[id := Columns(q)]), id, {})
    {
      CreateRows(s, tx, id, q, t);
    }
  }

  /** The world after another process has created a request. */
  ghost function WithRequest(x: Shared, id: Id, q: Request): Shared
    requires Coherent(x) && id !in x.sys.ids
  {
    Shared(x.world.(tx := x.world.tx.(rows := x.world.tx.rows[id := Columns(q)])),
           Apply(x.sys, Create(id, q.submitHash, q.retrieveHash, q.expires, x.world.clock)))
  }

  lemma OthersCreate(x: Shared, id: Id, q: Request)
    requires Coherent(x) && id !in x.sys.ids && q.generation == 1 && q.phase.Waiting?
    ensures MayBecome(x, WithRequest(x, id, q))
  {
    var m := Create(id, q.submitHash, q.retrieveHash, q.expires, x.world.clock);
    CreateRows(x.sys, x.world.tx, id, q, x.world.clock);
    MoveRepresents(WithRequest(x, id, q).world, x.sys, m, x.world.tx, id, {});
  }

  /** Not only idle environments qualify: here others create a request at every turn, wherever its id is
      still unused. */
  lemma BusyEnvironment(q: Request) returns (others: (nat, Shared) -> Shared)
    requires q.generation == 1 && q.phase.Waiting?
    ensures Rely(others)
    ensures forall n: nat, x :: Coherent(x) && n !in x.sys.ids ==>
              n !in x.world.tx.rows && n in others(n, x).world.tx.rows && others(n, x).world.tx.rows[n] == Columns(q)
  {
    others := (n: nat, x: Shared) => if Coherent(x) && n !in x.sys.ids then WithRequest(x, n, q) else x;
    forall n: nat, x: Shared | Coherent(x) ensures MayBecome(x, others(n, x)) {
      if n !in x.sys.ids {
        OthersCreate(x, n, q);
      } else {
        ReachesSelf(x.sys);
      }
    }
    forall n: nat, x: Shared | Coherent(x) && n !in x.sys.ids ensures n !in x.world.tx.rows {
      IdIsNew(x.sys, n);
    }
  }

  predicate RowReservationExpired(r: Row, now: Time) {
    r.state.StUploading? && r.reservationExpires.Some? && r.reservationExpires.value <= now && r.expires > now
  }

  predicate RowPurgeable(r: Row, now: Time) {
    && r.expires <= now
    && !(r.state.StConsumed? && r.finalKey.Some? && r.consumedAt.Some? && r.consumedAt.value > now - OPEN_GRACE)
  }

  predicate ReservationExpired(q: Request, now: Time) {
    q.phase.Uploading? && q.phase.resv.deadline <= now && q.expires > now
  }

  /** Reservations that have run out in requests that have not, by deadline. */
  ghost function Overdue(s: Sys, now: Time): map<Id, Time> {
    map id | id in s.requests && ReservationExpired(s.requests[id], now) :: s.requests[id].phase.resv.deadline
  }

  /** Requests that have run out and whose object is not being streamed, by expiry. */
  ghost function Due(s: Sys, now: Time): map<Id, Time> {
    map id | id in s.requests && Purgeable(s.requests[id], now) :: s.requests[id].expires
  }

  /** One purge: it fenced exactly `pending` and deleted exactly `expired`. */
  ghost predicate Purges(s: Sys, t: Sys, pending: seq<Id>, expired: seq<Id>) {
    && (forall id :: id in t.requests <==> id in s.requests && id !in expired)
    && (forall id :: id in t.requests ==>
          t.requests[id] == if id in pending then NextGeneration(s.requests[id]) else s.requests[id])
  }

  /** One committed row, at the level of tables only. */
  lemma MoveTables(before: Tx, after: Tx, s: Sys, m: Move, id: Id, keys: set<Key>)
    requires Reachable(s) && Allowed(s, m) && TablesFor(before, s)
    requires RowMove(s, Apply(s, m), before, after, id, keys)
    ensures TablesFor(after, Apply(s, m)) && Reaches(s, Apply(s, m)) && Reachable(Apply(s, m))
  {
    OneMove(s, m);
    ReachesReachable(s, Apply(s, m));
    TablesStep(before, after, s, Apply(s, m), id, keys);
  }

  /** The tables are those of a state some moves after `s`, not later than `c`. */
  ghost predicate Working(tx: Tx, s: Sys, t: Sys, c: Time) {
    TablesFor(tx, t) && Reaches(s, t) && Reachable(t) && t.now <= c && t.bucket == s.bucket
  }

  ghost predicate Fenced(s: Sys, t: Sys, ids: seq<Id>) {
    && t.requests.Keys == s.requests.Keys
    && (forall id :: id in s.requests ==>
          t.requests[id] == if id in ids then NextGeneration(s.requests[id]) else s.requests[id])
  }

  ghost predicate Dropped(s: Sys, t: Sys, ids: seq<Id>) {
    && (forall id :: id in t.requests <==> id in s.requests && id !in ids)
    && (forall id :: id in t.requests ==> t.requests[id] == s.requests[id])
  }

  lemma FencedReady(s: Sys, t: Sys, ids: seq<Id>, i: nat)
    requires Distinct(ids) && i < |ids| && Fenced(s, t, ids[..i]) && ids[i] in s.requests
    ensures ids[i] in t.requests && t.requests[ids[i]] == s.requests[ids[i]]
  {}

  lemma FencedNext(s: Sys, t: Sys, u: Sys, ids: seq<Id>, i: nat)
    requires Distinct(ids) && i < |ids| && Fenced(s, t, ids[..i]) && ids[i] in s.requests
    requires u.requests == t.requests[ids[i] := NextGeneration(s.requests[ids[i]])]
    ensures Fenced(s, u, ids[..i + 1])
  {}

  lemma DroppedReady(s: Sys, t: Sys, ids: seq<Id>, i: nat)
    requires Distinct(ids) && i < |ids| && Dropped(s, t, ids[..i]) && ids[i] in s.requests
    ensures ids[i] in t.requests && t.requests[ids[i]] == s.requests[ids[i]]
  {}

  lemma DroppedNext(s: Sys, t: Sys, u: Sys, ids: seq<Id>, i: nat)
    requires i < |ids| && Dropped(s, t, ids[..i]) && u.requests == t.requests - {ids[i]}
    ensures Dropped(s, u, ids[..i + 1])
  {}

  /** The purge's two queries. */
  function RowsOverdue(rows: map<Id, Row>, now: Time): map<Id, Time> {
    map id | id in rows && RowReservationExpired(rows[id], now) :: rows[id].reservationExpires.value
  }

  function RowsDue(rows: map<Id, Row>, now: Time): map<Id, Time> {
    map id | id in rows && RowPurgeable(rows[id], now) :: rows[id].expires
  }

  lemma QueriesAgreeOn(rows: map<Id, Row>, s: Sys, now: Time, id: Id)
    requires id in rows <==> id in s.requests
    requires id in s.requests ==> rows[id] == Columns(s.requests[id])
    ensures id in RowsOverdue(rows, now) <==> id in Overdue(s, now)
    ensures id in Overdue(s, now) ==> RowsOverdue(rows, now)[id] == Overdue(s, now)[id]
    ensures id in RowsDue(rows, now) <==> id in Due(s, now)
    ensures id in Due(s, now) ==> RowsDue(rows, now)[id] == Due(s, now)[id]
  {}

  lemma QueriesAgree(tx: Tx, s: Sys, now: Time)
    requires TablesFor(tx, s)
    ensures RowsOverdue(tx.rows, now) == Overdue(s, now) && RowsDue(tx.rows, now) == Due(s, now)
  {
    var rows := tx.rows;
    forall id
      ensures id in RowsOverdue(rows, now) <==> id in Overdue(s, now)
      ensures id in Overdue(s, now) ==> RowsOverdue(rows, now)[id] == Overdue(s, now)[id]
      ensures id in RowsDue(rows, now) <==> id in Due(s, now)
      ensures id in Due(s, now) ==> RowsDue(rows, now)[id] == Due(s, now)[id]
    {
      if id in s.requests {
        assert Holds(tx, id, s.requests[id]);
      }
      QueriesAgreeOn(rows, s, now, id);
    }
  }

  /** Ends every expired reservation of the batch. */
  method EndExpired(tx: Tx, ids: seq<Id>, now: Time, ghost c: Time, ghost s: Sys) returns (after: Tx, ghost t: Sys)
    requires Working(tx, s, s, c) && Distinct(ids)
    requires forall id :: id in ids ==> id in s.requests && s.requests[id].phase.Uploading?
    ensures Working(after, s, t, c) && Fenced(s, t, ids)
  {
    after, t := tx, s;
    for i := 0 to |ids|
      invariant Working(after, s, t, c) && Fenced(s, t, ids[..i])
    {
      ghost var u := t;
      assert ids[i] in ids;
      FencedReady(s, t, ids, i);
      after, t := EndOne(after, ids[i], now, c, s, t);
      FencedNext(s, u, t, ids, i);
    }
    assert ids[..|ids|] == ids;
  }

  method EndOne(tx: Tx, id: Id, now: Time, ghost c: Time, ghost s: Sys, ghost t: Sys) returns (after: Tx, ghost u: Sys)
    requires Working(tx, s, t, c) && id in t.requests && t.requests[id].phase.Uploading?
    ensures Working(after, s, u, c) && u.requests == t.requests[id := NextGeneration(t.requests[id])]
  {
    NamedAreManaged(t, id);
    var work := EndReservationTx(tx, id, tx.rows[id].generation, now, t.requests[id]);
    after := work.value;
    u := Apply(t, EndReservation(id, c));
    MoveTables(tx, after, t, EndReservation(id, c), id, KeysOf(t.requests[id].phase));
    ReachesTransitive(s, t, u);
  }

  /** Deletes every expired request of the batch, queueing its keys first; payload rows cascade. */
  method DeleteExpired(tx: Tx, ids: seq<Id>, now: Time, ghost c: Time, ghost s: Sys) returns (after: Tx, ghost t: Sys)
    requires Working(tx, s, s, c) && now <= c && Distinct(ids)
    requires forall id :: id in ids ==> id in s.requests && Purgeable(s.requests[id], now)
    ensures Working(after, s, t, c) && Dropped(s, t, ids)
  {
    after, t := tx, s;
    for i := 0 to |ids|
      invariant Working(after, s, t, c) && Dropped(s, t, ids[..i])
    {
      ghost var u := t;
      assert ids[i] in ids;
      DroppedReady(s, t, ids, i);
      after, t := DeleteOne(after, ids[i], now, c, s, t);
      DroppedNext(s, u, t, ids, i);
    }
    assert ids[..|ids|] == ids;
  }

  method DeleteOne(tx: Tx, id: Id, now: Time, ghost c: Time, ghost s: Sys, ghost t: Sys) returns (after: Tx, ghost u: Sys)
    requires Working(tx, s, t, c) && now <= c && id in t.requests && Purgeable(t.requests[id], now)
    ensures Working(after, s, u, c) && u.requests == t.requests - {id}
  {
    NamedAreManaged(t, id);
    var work := EnqueueRequestKeys(tx, id, ReasonExpired, now, t.requests[id]);
    after := work.value.(rows := tx.rows - {id}, payloads := tx.payloads - {id});
    u := Apply(t, Purge(id, now, c));
    OneMove(t, Purge(id, now, c));
    ReachesReachable(t, u);
    ReachesTransitive(s, t, u);
    DeletedTables(tx, after, t, u, id);
  }

  lemma DeletedTables(tx: Tx, after: Tx, s: Sys, t: Sys, id: Id)
    requires TablesFor(tx, s) && t.requests == s.requests - {id} && QueuedIn(after.outbox) == t.queued
    requires after.rows == tx.rows - {id} && after.payloads == tx.payloads - {id}
    requires tx.outbox <= after.outbox && after.claims == tx.claims
    ensures TablesFor(after, t)
  {
    forall i | i in t.requests ensures Holds(after, i, t.requests[i]) {
      assert Holds(tx, i, s.requests[i]);
    }
  }

  method FenceBatch(tx: Tx, now: Time, limit: nat, ghost c: Time, ghost s: Sys)
    returns (after: Tx, ghost t: Sys, ghost pending: seq<Id>)
    requires Working(tx, s, s, c)
    ensures Working(after, s, t, c) && Fenced(s, t, pending) && PicksInOrder(Overdue(s, now), pending, limit)
  {
    var ids := Pick(RowsOverdue(tx.rows, now), limit);
    QueriesAgree(tx, s, now);
    OverdueUpload(s, ids, now);
    after, t := EndExpired(tx, ids, now, c, s);
    pending := ids;
  }

  method DropBatch(tx: Tx, now: Time, limit: nat, ghost c: Time, ghost s: Sys)
    returns (after: Tx, ghost t: Sys, ghost expired: seq<Id>)
    requires Working(tx, s, s, c) && now <= c
    ensures Working(after, s, t, c) && Dropped(s, t, expired) && PicksInOrder(Due(s, now), expired, limit)
  {
    var ids := Pick(RowsDue(tx.rows, now), limit);
    QueriesAgree(tx, s, now);
    DuePurgeable(s, ids, now);
    after, t := DeleteExpired(tx, ids, now, c, s);
    expired := ids;
  }

  /** Both halves of the reaper's request purge, on one transaction's tables: it fences the reservations
      that ran out first and deletes the requests that ran out first, up to the limit each. */
  method PurgeTx(tx: Tx, now: Time, limit: nat, ghost c: Time, ghost s: Sys)
    returns (after: Tx, ghost t: Sys, ghost pending: seq<Id>, ghost expired: seq<Id>)
    requires Working(tx, s, s, c) && now <= c
    ensures Working(after, s, t, c) && Purges(s, t, pending, expired)
    ensures PicksInOrder(Overdue(s, now), pending, limit) && PicksInOrder(Due(s, now), expired, limit)
  {
    var work;
    ghost var u;
    work, u, pending := FenceBatch(tx, now, limit, c, s);
    ReachesSelf(u);
    after, t, expired := DropBatch(work, now, limit, c, u);
    ReachesTransitive(s, u, t);
    FencingLeavesDue(s, u, pending, now);
  }

  /** A request whose reservation is fenced has not run out itself. */
  lemma FencingLeavesDue(s: Sys, t: Sys, pending: seq<Id>, now: Time)
    requires Fenced(s, t, pending) && forall id :: id in pending ==> id in Overdue(s, now)
    ensures Due(t, now) == Due(s, now)
  {
    forall id | id in s.requests ensures Purgeable(t.requests[id], now) == Purgeable(s.requests[id], now) {
      assert id in pending ==> id in Overdue(s, now);
    }
  }

  /** With room for all of them, a purge leaves no request that is due and no reservation overdue. */
  lemma PurgeLeavesNothing(s: Sys, t: Sys, pending: seq<Id>, expired: seq<Id>, now: Time, limit: nat, id: Id)
    requires Purges(s, t, pending, expired) && id in t.requests
    requires PicksInOrder(Overdue(s, now), pending, limit) && PicksInOrder(Due(s, now), expired, limit)
    ensures |Due(s, now).Keys| <= limit ==> !Purgeable(t.requests[id], now)
    ensures |Overdue(s, now).Keys| <= limit ==> !ReservationExpired(t.requests[id], now)
  {
    assert id in pending ==> id in Overdue(s, now);
    if |Due(s, now).Keys| <= limit {
      PicksAll(Due(s, now), expired, limit);
    }
    if |Overdue(s, now).Keys| <= limit {
      PicksAll(Overdue(s, now), pending, limit);
    }
  }

  lemma OverdueUpload(s: Sys, ids: seq<Id>, now: Time)
    requires forall id :: id in ids ==> id in Overdue(s, now)
    ensures forall id :: id in ids ==> id in s.requests && s.requests[id].phase.Uploading?
  {}

  lemma DuePurgeable(s: Sys, ids: seq<Id>, now: Time)
    requires forall id :: id in ids ==> id in Due(s, now)
    ensures forall id :: id in ids ==> id in s.requests && Purgeable(s.requests[id], now)
  {}

  // ---------------------------------------------------------------- reconciliation

  datatype Listing = Page(keys: seq<Key>, next: Option<Key>) | InvalidCursor | ListFailed

  datatype ScanOutcome = Refused | Restarted | Lost | Scanned(count: nat)

  /** A committed page: the cursor moves on, and exactly the unprotected, unclaimed keys are claimed. */
  ghost predicate ScansPage(tx: Tx, after: Tx, page: seq<Key>, next: Option<Key>, now: Time, count: nat) {
    && after.cursor == next && after.cursorGeneration == tx.cursorGeneration + 1
    && Claims(tx, after.(cursor := tx.cursor, cursorGeneration := tx.cursorGeneration), Unprotected(tx.rows, page, now), now, count)
  }

  /** Whether a listing can be committed at all: object storage is on, the limits make sense, and the page
      is no longer than asked for and moves on. */
  predicate Usable(objects: bool, limit: int, listing: Listing, cursor: Option<Key>) {
    && objects && limit >= 1 && listing.Page? && |listing.keys| <= limit && |listing.keys| <= 1000
    && !(listing.next.Some? && listing.next == cursor)
  }

  /** What one reconciliation that read `cursor` and `generation` and got `listing` does to the tables it
      finds at its commit. */
  ghost predicate Reconciles(objects: bool, limit: int, listing: Listing, cursor: Option<Key>, generation: nat,
                             tx: Tx, after: Tx, read: Time, outcome: ScanOutcome) {
    && (outcome.Scanned? || outcome.Lost? <==> Usable(objects, limit, listing, cursor))
    && (outcome.Lost? ==> tx.cursorGeneration != generation)
    && (outcome.Scanned? ==>
          tx.cursorGeneration == generation && ScansPage(tx, after, listing.keys, listing.next, read, outcome.count))
    && (outcome.Restarted? <==>
          objects && limit >= 1 && listing.InvalidCursor? && cursor.Some? && tx.cursorGeneration == generation)
    && (outcome.Restarted? ==> after == tx.(cursor := None, cursorGeneration := generation + 1))
    && (outcome.Refused? || outcome.Lost? ==> after == tx)
  }

  lemma SweepAllowed(tx: Tx, s: Sys, page: seq<Key>, now: Time, commit: Time)
    requires TablesFor(tx, s) && s.now <= now <= commit
    ensures Allowed(s, Sweep(Unprotected(tx.rows, page, now) - tx.claims.Keys, now, commit))
  {}

  lemma SweepRepresents(w: World, s: Sys, before: Tx, work: Tx, page: seq<Key>, now: Time, commit: Time, count: nat)
    requires Reachable(s) && Represents(w, s) && w.tx == before && s.now <= now <= commit <= w.clock
    requires Claims(before, work.(cursor := before.cursor, cursorGeneration := before.cursorGeneration),
                    Unprotected(before.rows, page, now), now, count)
    ensures var m := Sweep(Unprotected(before.rows, page, now) - before.claims.Keys, now, commit);
            Allowed(s, m) && Represents(w.(tx := work), Apply(s, m)) && Reachable(Apply(s, m)) && Reaches(s, Apply(s, m))
  {
    SweepAllowed(before, s, page, now, commit);
    var m := Sweep(Unprotected(before.rows, page, now) - before.claims.Keys, now, commit);
    OneMove(s, m);
    ReachesReachable(s, Apply(s, m));
    ClaimedTables(before, work, s, Apply(s, m), Unprotected(before.rows, page, now), now, count);
  }

  lemma ClaimedTables(before: Tx, work: Tx, s: Sys, t: Sys, keys: set<Key>, now: Time, count: nat)
    requires TablesFor(before, s) && t.requests == s.requests && t.queued == s.queued + (keys - before.claims.Keys)
    requires Claims(before, work.(cursor := before.cursor, cursorGeneration := before.cursorGeneration), keys, now, count)
    ensures TablesFor(work, t)
  {}

  /** Why a caller is turned away: no such request, wrong capability, exhausted, or past its deadline. */
  ghost predicate ClosedTo(s: Sys, clock: Time, id: Id, token: Option<Digest>, owner: bool) {
    || token.None? || id !in s.requests
    || token.value != (if owner then s.requests[id].retrieveHash else s.requests[id].submitHash)
    || s.requests[id].phase.Unavailable?
    || s.requests[id].expires <= clock
  }

  /** Some body the submitter stored does not match the reservation. */
  ghost predicate Mismatched(s: Sys, a: ObjectAttempt) {
    exists b :: (a.upload, b) in s.stored && !Matches(b, a.spec)
  }

  /** The attempt had a reservation in this generation, and so an object to copy. */
  ghost predicate ReservedFor(s: Sys, id: Id, generation: int, attempt: Digest) {
    exists a :: KnownFor(s, a, id, generation, attempt)
  }

  ghost predicate MismatchedFor(s: Sys, id: Id, generation: int, attempt: Digest) {
    exists a :: KnownFor(s, a, id, generation, attempt) && Mismatched(s, a)
  }

  /** Why a finalize that led its own copy, or needed none, was refused: closed to the caller or fenced or out
      of time; another attempt in place; an upload that does not match; or object storage, for an attempt that has
      an object to copy. */
  ghost predicate FinalizeRefused(s: Sys, clock: Time, id: Id, token: Option<Digest>, generation: int, attempt: Digest, error: Error) {
    match error
    case ErrUnavailable =>
      || ClosedTo(s, clock, id, token, false) || s.requests[id].generation != generation
      || (s.requests[id].phase.Uploading? && s.requests[id].phase.resv.deadline <= clock)
    case ErrConflict => id in s.requests && FinalizeVerdict(s.requests[id], generation, attempt) == Deny(ErrConflict)
    case ErrInvalid => MismatchedFor(s, id, generation, attempt)
    case ErrStorage => ReservedFor(s, id, generation, attempt)
    case _ => false
  }

  lemma EffectRefused(s: Sys, t: Sys, clock: Time, id: Id, token: Option<Digest>, generation: int, attempt: Digest, answer: Answer<Receipt>)
    requires FinalizeEffect(s, t, clock, id, generation, attempt, answer) && answer.Err?
    ensures t == s && FinalizeRefused(t, clock, id, token, generation, attempt, answer.error)
  {}

  /** A reservation of the request, if it has one, had not run out at this reading of the clock. */
  ghost predicate LiveAt(q: Request, read: Time) {
    q.phase.Uploading? ==> read < q.phase.resv.deadline
  }

  class Store {
    var world: World
    ghost var sys: Sys
    var turn: nat
    const others: (nat, Shared) -> Shared
    const objects: bool
    const payloadInlineMaxBytes: int
    const maxObjectBytes: int
    const minTTLSeconds: int
    const maxTTLSeconds: int

    /** A store over empty tables, among processes that only run the protocol. */
    constructor (others: (nat, Shared) -> Shared, objects: bool, payloadInlineMaxBytes: int, maxObjectBytes: int,
                 minTTLSeconds: int, maxTTLSeconds: int, clock: Time)
      requires Rely(others)
      ensures Valid() && Init(sys)
    {
      this.others, this.objects := others, objects;
      this.payloadInlineMaxBytes, this.maxObjectBytes := payloadInlineMaxBytes, maxObjectBytes;
      this.minTTLSeconds, this.maxTTLSeconds := minTTLSeconds, maxTTLSeconds;
      turn := 0;
      world := World(clock, Tx(map[], map[], [], map[], None, 0), map[], map[], map[]);
      sys := Sys(clock, map[], {}, map[], {}, map[], {}, {}, map[], map[]);
      new;
      ReachesSelf(sys);
    }

    ghost predicate Valid()
      reads this
    {
      Rely(others) && Reachable(sys) && Represents(world, sys)
    }

    /** Any number of moves by anyone else. */
    method Interfere()
      requires Valid()
      modifies this
      ensures Valid() && Reaches(old(sys), sys) && old(world).clock <= world.clock
    {
      var shared := Shared(world, sys);
      assert Coherent(shared);
      var next := others(turn, shared);
      ReachesReachable(sys, next.sys);
      world, turn := next.world, turn + 1;
      sys := next.sys;
    }

    /** The clock never goes back. */
    method Now() returns (t: Time)
      requires Valid()
      modifies this`world
      ensures Valid() && t == world.clock && old(world).clock <= t && world == old(world).(clock := t)
    {
      var passed: nat :| true;
      t := world.clock + passed;
      world := world.(clock := t);
    }

    /** Commits a transaction that rewrote one row, as one protocol move at the commit clock, unless
        the request ran out while it worked. */
    method CommitRow(work: Tx, expires: Option<Time>, id: Id, ghost m: Move, ghost keys: set<Key>) returns (committed: bool)
      requires Valid() && !m.PutUpload? && !m.WriteFinal? && !m.DeleteObject?
      requires Committable(sys, m, world.clock, expires, world.tx, work, id, keys)
      modifies this
      ensures Valid() && Reaches(old(sys), sys) && old(world).clock <= world.clock
      ensures world == old(world).(clock := world.clock, tx := world.tx)
      ensures committed == (expires.Some? ==> world.clock < expires.value)
      ensures !committed ==> sys == old(sys)
      ensures committed ==> Allowed(old(sys), At(m, world.clock)) && sys == Apply(old(sys), At(m, world.clock))
    {
      var before := world.tx;
      var now := Now();
      committed := expires.Some? ==> now < expires.value;
      if committed {
        world := world.(tx := work);
        MoveRepresents(world, sys, At(m, now), before, id, keys);
        sys := Apply(sys, At(m, now));
      } else {
        ReachesSelf(sys);
      }
    }

    /** A read-only transaction still has to end before the request's deadline. */
    method CommitRead<T>(expires: Time, value: T) returns (answer: Answer<T>)
      requires Valid()
      modifies this`world
      ensures Valid() && old(world).clock <= world.clock && world == old(world).(clock := world.clock)
      ensures answer == Timely(world.clock, expires, value)
    {
      var now := Now();
      answer := if now < expires then Ok(value) else Err(ErrUnavailable);
    }

    // -------------------------------------------------------------- begin

    ghost predicate Closed(id: Id, token: Option<Digest>, owner: bool)
      reads this
    {
      ClosedTo(sys, world.clock, id, token, owner)
    }

    ghost predicate Began(id: Id, token: Option<Digest>, owner: bool)
      reads this
    {
      && token.Some? && id in sys.requests
      && token.value == (if owner then sys.requests[id].retrieveHash else sys.requests[id].submitHash)
      && !sys.requests[id].phase.Unavailable?
      && (sys.requests[id].phase.Uploading? ==> world.clock < sys.requests[id].phase.resv.deadline)
    }

    /** The owner's token is the right one. */
    ghost predicate Owns(id: Id, token: Option<Digest>)
      reads this
    {
      id in sys.requests && token == Some(sys.requests[id].retrieveHash)
    }

    /** Why an open may be refused: closed to the caller, nothing submitted to take, or an object
        request whose bucket did not serve the body. */
    ghost predicate OpenRefused(id: Id, token: Option<Digest>, error: Error)
      reads this
    {
      && (error.ErrUnavailable? || error.ErrConflict? || error.ErrStorage?)
      && (error.ErrUnavailable? ==> Closed(id, token, true))
      && (error.ErrConflict? ==> Owns(id, token) && !sys.requests[id].phase.Submitted?)
      && (error.ErrStorage? ==> id in sys.accepted && sys.accepted[id].content.Stored?)
    }

    method Authorized(id: Id, token: Option<Digest>, owner: bool) returns (refused: bool)
      requires Valid()
      modifies this`world
      ensures Valid() && world == old(world).(clock := world.clock) && old(world).clock <= world.clock
      ensures refused ==> Closed(id, token, owner)
      ensures !refused ==>
                && token.Some? && id in sys.requests && !sys.requests[id].phase.Unavailable?
                && token.value == (if owner then sys.requests[id].retrieveHash else sys.requests[id].submitHash)
                && world.clock < sys.requests[id].expires
    {
      if token.None? || id !in world.tx.rows {
        return true;
      }
      var row := world.tx.rows[id];
      if token.value != (if owner then row.retrieveHash else row.submitHash) {
        return true;
      }
      var now := Now();
      refused := row.state.StUnavailable? || !(now < row.expires);
    }

    /** Ends a reservation in its own transaction, unless the request itself ran out meanwhile. */
    method Expire(id: Id, now: Time) returns (committed: bool)
      requires Valid() && id in sys.requests && sys.requests[id].phase.Uploading?
      modifies this
      ensures Valid() && Reaches(old(sys), sys) && old(world).clock <= world.clock
      ensures committed == (world.clock < old(sys).requests[id].expires)
      ensures committed ==> sys == Apply(old(sys), EndReservation(id, world.clock))
      ensures !committed ==> sys == old(sys)
    {
      NamedAreManaged(sys, id);
      var row := world.tx.rows[id];
      var work := EndReservationTx(world.tx, id, row.generation, now, sys.requests[id]);
      ExpireCommits(sys, world.clock, world.tx, work.value, id);
      committed := CommitRow(work.value, Some(row.expires), id, EndReservation(id, 0), KeysOf(sys.requests[id].phase));
    }

    /** Takes the writer, checks the caller, and ends an expired reservation before starting over.
        However others interfere, it starts over at most once per remaining generation. */
    method Begin(id: Id, token: Option<Digest>, owner: bool) returns (refused: bool, ghost restarts: nat)
      requires Valid()
      modifies this
      ensures Valid() && Reaches(old(sys), sys) && old(world).clock <= world.clock
      ensures restarts <= Rank(old(sys), id) <= MAX_GENERATION
      ensures refused ==> Closed(id, token, owner)
      ensures !refused ==> Began(id, token, owner)
      decreases Rank(sys, id)
    {
      restarts := 0;
      ReachesSelf(sys);
      RankRange(sys, id);
      refused := Authorized(id, token, owner);
      if refused { return; }
      var row := world.tx.rows[id];
      var now := Now();
      if row.state.StUploading? && !(now < row.reservationExpires.value) {
        var committed := Expire(id, now);
        if !committed {
          return true, 0;
        }
        ghost var ended := sys;
        EndingLowersRank(old(sys), ended, id);
        Interfere();
        RanksFall(old(sys), ended, sys, id);
        ghost var resumed := sys;
        ghost var more;
        refused, more := Begin(id, token, owner);
        restarts := more + 1;
        ReachesTransitive(old(sys), resumed, sys);
      }
    }

    /** Reads a row, refreshing it first when its reservation has run out. */
    method Read(id: Id, token: Option<Digest>, owner: bool) returns (answer: Answer<Row>, ghost seen: Sys, ghost read: Time)
      requires Valid()
      modifies this
      ensures Valid() && Reaches(old(sys), seen) && sys == seen
      ensures answer.Err? ==> answer.error.ErrUnavailable? && Closed(id, token, owner)
      ensures answer.Ok? ==>
                && id in seen.requests && answer.value == Columns(seen.requests[id])
                && token == Some(if owner then seen.requests[id].retrieveHash else seen.requests[id].submitHash)
                && !seen.requests[id].phase.Unavailable? && LiveAt(seen.requests[id], read) && old(world).clock <= read <= world.clock
    {
      seen, read := sys, world.clock;
      ReachesSelf(sys);
      var refused := Authorized(id, token, owner);
      if refused {
        return Err(ErrUnavailable), seen, read;
      }
      var row := world.tx.rows[id];
      var now := Now();
      read := now;
      if !(row.state.StUploading? && !(now < row.reservationExpires.value)) {
        return Ok(row), seen, read;
      }
      ghost var stale := sys;
      Interfere();
      ReachesTransitive(old(sys), stale, sys);
      ghost var resumed := sys;
      answer, seen, read := Refresh(id, token, owner);
      ReachesTransitive(old(sys), resumed, sys);
    }

    method Refresh(id: Id, token: Option<Digest>, owner: bool) returns (answer: Answer<Row>, ghost seen: Sys, ghost read: Time)
      requires Valid()
      modifies this
      ensures Valid() && Reaches(old(sys), seen) && sys == seen
      ensures answer.Err? ==> answer.error.ErrUnavailable? && Closed(id, token, owner)
      ensures answer.Ok? ==>
                && id in seen.requests && answer.value == Columns(seen.requests[id])
                && token == Some(if owner then seen.requests[id].retrieveHash else seen.requests[id].submitHash)
                && !seen.requests[id].phase.Unavailable? && LiveAt(seen.requests[id], read) && old(world).clock <= read <= world.clock
    {
      var refused, _ := Begin(id, token, owner);
      seen, read := sys, world.clock;
      if refused {
        answer := Err(ErrUnavailable);
      } else {
        answer := CommitRead(world.tx.rows[id].expires, world.tx.rows[id]);
      }
    }

    /** The generation and whether it can be submitted to, as of some moment of the call. */
    method Instructions(id: Id, token: Option<Digest>) returns (answer: Answer<(int, bool)>, ghost seen: Sys)
      requires Valid()
      modifies this
      ensures Valid() && Reaches(old(sys), seen) && sys == seen
      ensures answer.Err? ==> answer.error.ErrUnavailable? && Closed(id, token, false)
      ensures answer.Ok? ==>
                && id in seen.requests && token == Some(seen.requests[id].submitHash)
                && answer.value == (seen.requests[id].generation, seen.requests[id].phase.Waiting?)
    {
      var row;
      ghost var read;
      row, seen, read := Read(id, token, false);
      match row {
        case Err(e) => answer := Err(e);
        case Ok(r) => answer := Ok((r.generation, r.state.StWaiting?));
      }
    }

    // -------------------------------------------------------------- submit and attempt

    /** The input checks of Submit; envelope and base64 decoding are opaque to the model. */
    function ValidateSubmission(input: SubmitInput): Option<Error> {
      if input.generation < 1 || input.generation > MAX_GENERATION || input.size < 0 || input.attempt.None? then Some(ErrInvalid)
      else if input.size > payloadInlineMaxBytes || (input.kind.File? && input.size > maxObjectBytes) then Some(ErrTooLarge)
      else if input.envelope.None? then Some(ErrInvalid)
      else if input.encodedLength > (payloadInlineMaxBytes + 2) / 3 * 4 then Some(ErrTooLarge)
      else if input.ciphertext.None? || |input.ciphertext.value.bytes| != input.size || !IsAgeFile(input.ciphertext.value) then Some(ErrInvalid)
      else None
    }

    method EnterSubmission(id: Id, input: SubmitInput) returns (answer: Answer<Receipt>)
      requires Valid() && ValidateSubmission(input).None?
      requires id in sys.requests && sys.requests[id].phase.Waiting?
      modifies this
      ensures Valid() && Reaches(old(sys), sys)
      ensures Commits(old(sys), sys, SubmitMove(id, input, world.clock), world.clock, old(sys).requests[id].expires,
                      Receipt(input.generation, IsSubmitted), answer)
    {
      var expires := world.tx.rows[id].expires;
      var work := InsertSubmission(world.tx, id, input, sys.requests[id]);
      var committed := CommitRow(work, Some(expires), id, SubmitMove(id, input, 0), {});
      answer := if committed then Ok(Receipt(input.generation, IsSubmitted)) else Err(ErrUnavailable);
    }

    method SubmitBegun(id: Id, token: Option<Digest>, input: SubmitInput) returns (answer: Answer<Receipt>)
      requires Valid() && Began(id, token, false) && ValidateSubmission(input).None?
      modifies this
      ensures Valid() && Reaches(old(sys), sys)
      ensures SubmitEffect(old(sys), sys, world.clock, id, input, answer)
    {
      ReachesSelf(sys);
      var row, claim := world.tx.rows[id], Claim(input.attempt.value, input.body);
      SubmitRowSame(sys.requests[id], input.generation, claim);
      var verdict := SubmitRow(row, input.generation, claim);
      if verdict.Deny? {
        answer := Err(verdict.error);
      } else if verdict.Enter? {
        answer := EnterSubmission(id, input);
      } else {
        answer := CommitRead(row.expires, Receipt(input.generation, IsSubmitted));
      }
    }

    /** An inline submission, judged against the request as the transaction saw it. */
    method Submit(id: Id, token: Option<Digest>, input: SubmitInput) returns (answer: Answer<Receipt>, ghost seen: Sys)
      requires Valid()
      modifies this
      ensures Valid() && Reaches(old(sys), seen) && Reaches(seen, sys)
      ensures ValidateSubmission(input).Some? ==> answer == Err(ValidateSubmission(input).value) && sys == old(sys)
      ensures ValidateSubmission(input).None? ==>
                || (answer == Err(ErrUnavailable) && sys == seen && Closed(id, token, false))
                || (&& id in seen.requests && token == Some(seen.requests[id].submitHash)
                    && SubmitEffect(seen, sys, world.clock, id, input, answer))
    {
      seen := sys;
      ReachesSelf(sys);
      if ValidateSubmission(input).Some? {
        return Err(ValidateSubmission(input).value), sys;
      }
      var refused, _ := Begin(id, token, false);
      seen := sys;
      ReachesSelf(sys);
      if refused {
        return Err(ErrUnavailable), seen;
      }
      answer := SubmitBegun(id, token, input);
    }

    function ValidateAttempt(generation: int, attempt: Option<Digest>): Option<Error> {
      if generation < 1 || generation > MAX_GENERATION || attempt.None? then Some(ErrInvalid) else None
    }

    /** Where an attempt stands; it changes nothing beyond ending an expired reservation. */
    method Attempt(id: Id, token: Option<Digest>, generation: int, attempt: Option<Digest>)
      returns (answer: Answer<Receipt>, ghost seen: Sys)
      requires Valid()
      modifies this
      ensures Valid() && Reaches(old(sys), seen) && sys == seen
      ensures ValidateAttempt(generation, attempt).Some? ==> answer == Err(ErrInvalid)
      ensures ValidateAttempt(generation, attempt).None? ==>
                || (answer == Err(ErrUnavailable) && Closed(id, token, false))
                || (&& id in seen.requests && token == Some(seen.requests[id].submitHash)
                    && (if seen.requests[id].generation != generation then answer == Err(ErrUnavailable)
                        else answer == Timely(world.clock, seen.requests[id].expires,
                                              Receipt(generation, AttemptStanding(seen.requests[id], attempt.value)))))
    {
      seen := sys;
      ReachesSelf(sys);
      if ValidateAttempt(generation, attempt).Some? {
        return Err(ErrInvalid), sys;
      }
      var refused, _ := Begin(id, token, false);
      seen := sys;
      if refused {
        return Err(ErrUnavailable), seen;
      }
      var row := world.tx.rows[id];
      AttemptRowSame(sys.requests[id], attempt.value);
      if generation != row.generation {
        answer := Err(ErrUnavailable);
      } else {
        answer := CommitRead(row.expires, Receipt(generation, AttemptRow(row, attempt.value)));
      }
    }

    // -------------------------------------------------------------- reserve

    function ValidateUpload(input: UploadInput): Option<Error> {
      if ValidateAttempt(input.generation, input.attempt).Some? then Some(ErrInvalid)
      else if !input.kind.File? || input.size < |AGE_MAGIC| then Some(ErrInvalid)
      else if input.size > maxObjectBytes then Some(ErrTooLarge)
      else if input.envelope.None? || input.checksum.None? then Some(ErrInvalid)
      else None
    }

    /** Draws two keys nobody has used. */
    method DrawKeys() returns (upload: Key, final: Key)
      requires Valid()
      ensures upload.RequestKey? && upload.role.Upload? && Fresh(sys, upload)
      ensures final.RequestKey? && final.role.Final? && Fresh(sys, final)
    {
      var used := KeysInUse(world);
      NonceExists(used, Upload);
      NonceExists(used, Final);
      var n: nat :| RequestKey(n, Upload) !in used;
      var k: nat :| RequestKey(k, Final) !in used;
      upload, final := RequestKey(n, Upload), RequestKey(k, Final);
      UnusedIsFresh(world, sys, upload);
      UnusedIsFresh(world, sys, final);
    }

    method EnterReservation(id: Id, input: UploadInput) returns (answer: Answer<UploadResult>)
      requires Valid() && ValidateUpload(input).None?
      requires id in sys.requests && sys.requests[id].phase.Waiting?
      modifies this
      ensures Valid() && Reaches(old(sys), sys)
      ensures if world.clock < old(sys).requests[id].expires
              then ReservesFor(old(sys), sys, id, input)
                && answer == Ok(HeldUpload(old(sys).requests[id].generation, sys.requests[id].phase.resv))
              else answer == Err(ErrUnavailable) && sys == old(sys)
    {
      var row := world.tx.rows[id];
      var now := Now();
      var upload, final := DrawKeys();
      var deadline := Earlier(now + RESERVATION_TTL, row.expires);
      var work := InsertReservation(world.tx, id, input, upload, final, deadline, sys.requests[id]);
      ghost var r := ReservationOf(input, upload, final, deadline);
      ReserveCommits(sys, world.clock, world.tx, work, id, r);
      var committed := CommitRow(work, Some(row.expires), id, RequestProtocol.Reserve(id, r, 0), {});
      if !committed {
        return Err(ErrUnavailable);
      }
      ReservedNow(old(sys), sys, id, input, r, world.clock);
      answer := Ok(UploadResult(Receipt(row.generation, IsUploading), Some(upload), Some(deadline)));
    }

    method ReserveBegun(id: Id, token: Option<Digest>, input: UploadInput) returns (answer: Answer<UploadResult>)
      requires Valid() && Began(id, token, false) && ValidateUpload(input).None?
      modifies this
      ensures Valid() && Reaches(old(sys), sys)
      ensures ReserveCommitted(old(sys), sys, world.clock, id, input, objects, answer)
    {
      ReachesSelf(sys);
      var row, claim := world.tx.rows[id], Claim(input.attempt.value, input.body);
      ReserveRowSame(sys.requests[id], input.generation, claim, objects);
      var verdict := ReserveRow(row, input.generation, claim, objects);
      if verdict.Deny? {
        answer := Err(verdict.error);
      } else if verdict.Enter? {
        answer := EnterReservation(id, input);
      } else if verdict.Repeat? {
        answer := CommitRead(row.expires, UploadResult(Receipt(row.generation, IsSubmitted), None, None));
      } else {
        answer := CommitRead(row.expires, UploadResult(Receipt(row.generation, IsUploading), row.uploadKey, row.reservationExpires));
      }
    }

    /** Signs the upload URL, which may fail or come too late. */
    method Presign(held: UploadResult) returns (answer: Answer<UploadResult>)
      requires Valid() && held.deadline.Some?
      modifies this`world
      ensures answer == if held.deadline.value <= world.clock then Err(ErrUnavailable) else if answer.Err? then Err(ErrStorage) else Ok(held)
      ensures Valid() && old(world).clock <= world.clock && world == old(world).(clock := world.clock)
    {
      var now := Now();
      if held.deadline.value - now <= 0 {
        return Err(ErrUnavailable);
      }
      var failed: bool := *;
      answer := if failed then Err(ErrStorage) else Ok(held);
    }

    /** A large upload's reservation, judged against the request as the transaction saw it. */
    method Reserve(id: Id, token: Option<Digest>, input: UploadInput) returns (answer: Answer<UploadResult>, ghost seen: Sys)
      requires Valid()
      modifies this
      ensures Valid() && Reaches(old(sys), seen) && Reaches(seen, sys)
      ensures ValidateUpload(input).Some? ==> answer == Err(ValidateUpload(input).value) && sys == old(sys)
      ensures ValidateUpload(input).None? ==>
                || (answer == Err(ErrUnavailable) && sys == seen && Closed(id, token, false))
                || (&& id in seen.requests && token == Some(seen.requests[id].submitHash)
                    && exists commit :: commit <= world.clock && ReserveEffect(seen, sys, commit, world.clock, id, input, objects, answer))
    {
      seen := sys;
      ReachesSelf(sys);
      if ValidateUpload(input).Some? {
        return Err(ValidateUpload(input).value), sys;
      }
      var refused, _ := Begin(id, token, false);
      seen := sys;
      ReachesSelf(sys);
      if refused {
        return Err(ErrUnavailable), seen;
      }
      answer := ReserveBegun(id, token, input);
      ghost var commit, held := world.clock, answer;
      if answer.Ok? && answer.value.receipt.standing.IsUploading? {
        answer := Presign(answer.value);
      }
      assert Signed(held, world.clock, answer);
      assert ReserveEffect(seen, sys, commit, world.clock, id, input, objects, answer);
    }

    // -------------------------------------------------------------- finalize

    /** What the first transaction of a finalize answers, or the reservation it hands on to be copied. */
    ghost predicate Snapped(id: Id, token: Option<Digest>, generation: int, attempt: Digest, answer: Answer<Receipt>, copy: Option<ObjectAttempt>)
      reads this
    {
      || (answer == Err(ErrUnavailable) && copy.None? && Closed(id, token, false))
      || (&& id in sys.requests && token == Some(sys.requests[id].submitHash)
          && match FinalizeVerdict(sys.requests[id], generation, attempt)
             case Deny(e) => answer == Err(e) && copy.None?
             case Enter =>
               var spec := sys.requests[id].phase.resv.spec;
               if !objects || spec.size > maxObjectBytes then answer == Err(ErrStorage) && copy.None?
               else copy.Some? && KnownFor(sys, copy.value, id, generation, attempt)
             case _ => answer == Ok(Receipt(generation, IsSubmitted)) && copy.None?)
    }

    /** First transaction: answer at once, or remember the reservation to copy. */
    method Snapshot(id: Id, token: Option<Digest>, generation: int, attempt: Digest)
      returns (answer: Answer<Receipt>, copy: Option<ObjectAttempt>)
      requires Valid()
      modifies this
      ensures Valid() && Reaches(old(sys), sys) && Snapped(id, token, generation, attempt, answer, copy)
      ensures copy.Some? ==> KnownFor(sys, copy.value, id, generation, attempt)
      ensures copy.None? && answer.Ok? ==> AnswersAttempt(sys, id, generation, attempt, answer)
      ensures copy.None? && answer.Err? ==> FinalizeRefused(sys, world.clock, id, token, generation, attempt, answer.error)
    {
      copy, answer := None, Err(ErrUnavailable);
      var refused, _ := Begin(id, token, false);
      if refused {
        return;
      }
      var row := world.tx.rows[id];
      FinalizeRowSame(sys.requests[id], generation, attempt);
      var verdict := FinalizeRow(row, generation, attempt);
      if verdict.Deny? {
        answer := Err(verdict.error);
      } else if verdict.Enter? {
        UploadingIsKnown(sys, id);
        if !objects || row.size.value > maxObjectBytes {
          return Err(ErrStorage), None;
        }
        var inTime := CommitRead(row.expires, ());
        if inTime.Ok? {
          copy := Some(ObjectAttempt(row.uploadKey.value, row.finalKey.value, FileSpec(row.size.value, row.checksum.value)));
        }
      } else {
        RepeatIsAccepted(sys, id, generation, attempt);
        answer := CommitRead(row.expires, Receipt(row.generation, IsSubmitted));
      }
    }

    /** Streams the upload into the server-only final key, checking it before anything is written.
        A failed response may still have written the object. */
    method CopyVerified(a: ObjectAttempt) returns (error: Option<Error>)
      requires Valid() && KnownAttempt(sys, a)
      modifies this
      ensures Valid() && Reaches(old(sys), sys)
      ensures error.None? ==> a.final in sys.written
      ensures error.Some? ==> error.value.ErrStorage? || (error.value.ErrInvalid? && Mismatched(sys, a))
    {
      Interfere();
      StaysKnown(old(sys), sys, a);
      var failed: bool := *;
      if failed || a.upload !in world.bucket {
        return Some(ErrStorage);
      }
      var body := world.bucket[a.upload];
      BucketWasStored(sys, a.upload);
      if |body.bytes| != a.spec.size {
        return Some(ErrInvalid);
      }
      ghost var downloaded := sys;
      error := PutStream(a, body);
      ReachesLater(downloaded, sys);
      ReachesTransitive(old(sys), downloaded, sys);
    }

    /** The body is written only once it is known to match; one that does not is refused. */
    method PutStream(a: ObjectAttempt, body: Blob) returns (error: Option<Error>)
      requires Valid() && KnownAttempt(sys, a) && |body.bytes| == a.spec.size
      modifies this
      ensures Valid() && Reaches(old(sys), sys)
      ensures error.None? ==> a.final in sys.written && Matches(body, a.spec)
      ensures error.Some? ==> error.value.ErrStorage? || (error.value.ErrInvalid? && !Matches(body, a.spec))
      ensures !Matches(body, a.spec) ==> error.Some?
    {
      Interfere();
      StaysKnown(old(sys), sys, a);
      if a.spec.size < 1 {
        return Some(ErrStorage);
      }
      if !IsAgeFile(body) || body.sha256 != a.spec.checksum {
        return Some(ErrInvalid);
      }
      var lost: bool := *;
      if lost {
        return Some(ErrStorage);
      }
      ghost var before := sys;
      world := world.(bucket := world.bucket[a.final := body]);
      WriteRepresents(world, sys, a.final, body);
      sys := Apply(sys, WriteFinal(a.final, body));
      ReachesTransitive(old(sys), before, sys);
      var unanswered: bool := *;
      error := if unanswered then Some(ErrStorage) else None;
    }

    /** Accepts the copied object, strictly before the reservation and the request run out. */
    method AcceptCopied(id: Id, generation: int, ghost attempt: Digest, a: ObjectAttempt) returns (answer: Answer<Receipt>)
      requires Valid() && KnownFor(sys, a, id, generation, attempt) && a.final in sys.written
      requires id in sys.requests && sys.requests[id].phase.Uploading? && sys.requests[id].generation == generation
      modifies this
      ensures Valid() && Reaches(old(sys), sys)
      ensures answer.Ok? ==> answer.value == Receipt(generation, IsSubmitted) && AcceptsStored(old(sys), sys, id)
      ensures answer.Err? ==> sys == old(sys) && answer.error.ErrUnavailable?
      ensures answer.Err? ==>
                old(sys).requests[id].phase.resv.deadline <= world.clock || old(sys).requests[id].expires <= world.clock
    {
      ReachesSelf(sys);
      var row := world.tx.rows[id];
      SameReservation(sys, id, a, attempt);
      var now := Now();
      var work := AcceptReservation(world.tx, id, generation, a.upload, a.final, now, sys.requests[id]);
      var checked := Now();
      if !(checked < row.reservationExpires.value) {
        return Err(ErrUnavailable);
      }
      AcceptCommits(sys, checked, world.tx, work.value, id);
      var committed := CommitRow(work.value, Some(row.expires), id, AcceptStored(id, checked, 0), {a.upload});
      if !committed {
        return Err(ErrUnavailable);
      }
      AcceptedNow(old(sys), sys, id, checked, world.clock);
      answer := Ok(Receipt(row.generation, IsSubmitted));
    }

    method FinalizeBegun(id: Id, token: Option<Digest>, generation: int, attempt: Digest, a: ObjectAttempt)
      returns (answer: Answer<Receipt>)
      requires Valid() && Began(id, token, false) && KnownFor(sys, a, id, generation, attempt) && a.final in sys.written
      modifies this
      ensures Valid() && Reaches(old(sys), sys)
      ensures FinalizeEffect(old(sys), sys, world.clock, id, generation, attempt, answer)
    {
      ReachesSelf(sys);
      var row := world.tx.rows[id];
      FinalizeRowSame(sys.requests[id], generation, attempt);
      var verdict := FinalizeRow(row, generation, attempt);
      if verdict.Deny? {
        answer := Err(verdict.error);
      } else if verdict.Enter? {
        answer := AcceptCopied(id, generation, attempt, a);
      } else {
        answer := CommitRead(row.expires, Receipt(row.generation, IsSubmitted));
      }
    }

    /** Last transaction of a finalize that copied its object. */
    method FinalizeAttempt(id: Id, token: Option<Digest>, generation: int, attempt: Digest, a: ObjectAttempt)
      returns (answer: Answer<Receipt>, ghost seen: Sys)
      requires Valid() && KnownFor(sys, a, id, generation, attempt) && a.final in sys.written
      modifies this
      ensures Valid() && Reaches(old(sys), seen) && Reaches(seen, sys)
      ensures || (answer == Err(ErrUnavailable) && sys == seen && Closed(id, token, false))
              || (&& id in seen.requests && token == Some(seen.requests[id].submitHash)
                  && FinalizeEffect(seen, sys, world.clock, id, generation, attempt, answer))
      ensures answer.Ok? ==> AnswersAttempt(sys, id, generation, attempt, answer)
      ensures answer.Err? ==> FinalizeRefused(sys, world.clock, id, token, generation, attempt, answer.error)
    {
      var refused, _ := Begin(id, token, false);
      seen := sys;
      ReachesSelf(sys);
      if refused {
        return Err(ErrUnavailable), seen;
      }
      StaysKnown(old(sys), sys, a);
      answer := FinalizeBegun(id, token, generation, attempt, a);
      EffectAnswers(seen, sys, world.clock, id, generation, attempt, answer);
      if answer.Err? {
        EffectRefused(seen, sys, world.clock, id, token, generation, attempt, answer);
      }
    }

    /** The copy and the acceptance, run by whoever leads the finalize of this id. */
    method LeadFinalize(id: Id, token: Option<Digest>, generation: int, attempt: Digest, a: ObjectAttempt)
      returns (answer: Answer<Receipt>)
      requires Valid() && KnownFor(sys, a, id, generation, attempt)
      modifies this
      ensures Valid() && Reaches(old(sys), sys)
      ensures answer.Ok? ==> AnswersAttempt(sys, id, generation, attempt, answer)
      ensures answer.Err? ==> FinalizeRefused(sys, world.clock, id, token, generation, attempt, answer.error)
    {
      var error := CopyVerified(a);
      StaysKnown(old(sys), sys, a);
      assert KnownFor(sys, a, id, generation, attempt);
      if error.Some? {
        return Err(error.value);
      }
      ghost var copied := sys;
      answer := FinalizeCopied(id, token, generation, attempt, a);
      ReachesTransitive(old(sys), copied, sys);
    }

    method FinalizeCopied(id: Id, token: Option<Digest>, generation: int, attempt: Digest, a: ObjectAttempt)
      returns (answer: Answer<Receipt>)
      requires Valid() && KnownFor(sys, a, id, generation, attempt) && a.final in sys.written
      modifies this
      ensures Valid() && Reaches(old(sys), sys)
      ensures answer.Ok? ==> AnswersAttempt(sys, id, generation, attempt, answer)
      ensures answer.Err? ==> FinalizeRefused(sys, world.clock, id, token, generation, attempt, answer.error)
    {
      Interfere();
      StaysKnown(old(sys), sys, a);
      ghost var resumed, seen := sys, sys;
      answer, seen := FinalizeAttempt(id, token, generation, attempt, a);
      ReachesTransitive(resumed, seen, sys);
      ReachesTransitive(old(sys), resumed, sys);
    }

    /** Concurrent finalizes of one request id share one copy, whatever generation they name: a
        follower receives the leader's answer, so its receipt is about the generation it states. */
    method Finalize(id: Id, token: Option<Digest>, generation: int, attempt: Option<Digest>)
      returns (answer: Answer<Receipt>, ghost followed: bool)
      requires Valid()
      modifies this
      ensures Valid() && Reaches(old(sys), sys)
      ensures ValidateAttempt(generation, attempt).Some? ==> answer == Err(ErrInvalid) && sys == old(sys)
      ensures answer.Ok? ==> Honest(sys, id, answer)
      ensures answer.Ok? && !followed ==> AnswersAttempt(sys, id, generation, attempt.value, answer)
      ensures answer.Err? && !followed && ValidateAttempt(generation, attempt).None? ==>
                FinalizeRefused(sys, world.clock, id, token, generation, attempt.value, answer.error)
    {
      followed := false;
      ReachesSelf(sys);
      if ValidateAttempt(generation, attempt).Some? {
        return Err(ErrInvalid), false;
      }
      var copy;
      answer, copy := Snapshot(id, token, generation, attempt.value);
      if copy.None? {
        return;
      }
      ghost var snapped := sys;
      answer, followed := FinalizeShared(id, token, generation, attempt.value, copy.value);
      ReachesTransitive(old(sys), snapped, sys);
    }

    /** Follows the finalize of this id that is in flight, or leads one. */
    method FinalizeShared(id: Id, token: Option<Digest>, generation: int, attempt: Digest, a: ObjectAttempt)
      returns (answer: Answer<Receipt>, ghost followed: bool)
      requires Valid() && KnownFor(sys, a, id, generation, attempt)
      modifies this
      ensures Valid() && Reaches(old(sys), sys) && Honest(sys, id, answer)
      ensures answer.Ok? && !followed ==> AnswersAttempt(sys, id, generation, attempt, answer)
      ensures answer.Err? && !followed ==> FinalizeRefused(sys, world.clock, id, token, generation, attempt, answer.error)
    {
      Interfere();
      StaysKnown(old(sys), sys, a);
      ghost var resumed := sys;
      followed := id in world.finalizing;
      if id in world.finalizing {
        answer := Follow(id);
      } else {
        var call := Join(id);
        answer := LeadFinalize(id, token, generation, attempt, a);
        Finish(id, call, answer);
      }
      ReachesTransitive(old(sys), resumed, sys);
    }

    method Follow(id: Id) returns (answer: Answer<Receipt>)
      requires Valid() && id in world.finalizing
      modifies this
      ensures Valid() && Reaches(old(sys), sys) && Honest(sys, id, answer)
    {
      var call := world.finalizing[id];
      Interfere();
      if call in world.calls && world.calls[call].id == id && world.calls[call].result.Some? {
        answer := world.calls[call].result.value;
      } else {
        answer := Err(ErrCancelled);
      }
    }

    method Join(id: Id) returns (call: nat)
      requires Valid()
      modifies this`world
      ensures Valid() && world == old(world).(finalizing := world.finalizing, calls := world.calls)
    {
      UnusedExists(world.calls.Keys);
      call :| call !in world.calls;
      world := world.(finalizing := world.finalizing[id := call], calls := world.calls[call := FinalizeCall(id, None)]);
    }

    method Finish(id: Id, call: nat, answer: Answer<Receipt>)
      requires Valid() && Honest(sys, id, answer)
      modifies this`world
      ensures Valid() && world == old(world).(finalizing := world.finalizing, calls := world.calls)
    {
      var finalizing := world.finalizing - {id};
      var rest := map i | i in finalizing && finalizing[i] != call :: finalizing[i];
      world := world.(finalizing := rest, calls := world.calls[call := FinalizeCall(id, Some(answer))]);
    }

    // -------------------------------------------------------------- abandon and revoke

    method AbandonBegun(id: Id, token: Option<Digest>, generation: int, attempt: Digest) returns (answer: Answer<Receipt>)
      requires Valid() && Began(id, token, false)
      modifies this
      ensures Valid() && Reaches(old(sys), sys)
      ensures AbandonEffect(old(sys), sys, world.clock, id, generation, attempt, answer)
    {
      ReachesSelf(sys);
      var row := world.tx.rows[id];
      AbandonRowSame(sys.requests[id], generation, attempt);
      var verdict := AbandonRow(row, generation, attempt);
      if verdict.Deny? {
        return Err(verdict.error);
      }
      var now := Now();
      var committed := Expire(id, now);
      if !committed || row.generation == MAX_GENERATION {
        return Err(ErrUnavailable);
      }
      answer := Ok(Receipt(row.generation + 1, IsWaiting));
    }

    /** Gives up a reservation, so that its generation is fenced for good. */
    method Abandon(id: Id, token: Option<Digest>, generation: int, attempt: Option<Digest>)
      returns (answer: Answer<Receipt>, ghost seen: Sys)
      requires Valid()
      modifies this
      ensures Valid() && Reaches(old(sys), seen) && Reaches(seen, sys)
      ensures ValidateAttempt(generation, attempt).Some? ==> answer == Err(ErrInvalid) && sys == old(sys)
      ensures ValidateAttempt(generation, attempt).None? ==>
                || (answer == Err(ErrUnavailable) && sys == seen && Closed(id, token, false))
                || (&& id in seen.requests && token == Some(seen.requests[id].submitHash)
                    && AbandonEffect(seen, sys, world.clock, id, generation, attempt.value, answer))
    {
      seen := sys;
      ReachesSelf(sys);
      if ValidateAttempt(generation, attempt).Some? {
        return Err(ErrInvalid), sys;
      }
      var refused, _ := Begin(id, token, false);
      seen := sys;
      ReachesSelf(sys);
      if refused {
        return Err(ErrUnavailable), seen;
      }
      answer := AbandonBegun(id, token, generation, attempt.value);
    }

    method WithdrawRow(id: Id) returns (committed: bool)
      requires Valid() && id in sys.requests
      requires !sys.requests[id].phase.Consumed? && !sys.requests[id].phase.Unavailable?
      modifies this
      ensures Valid() && Reaches(old(sys), sys) && committed == (world.clock < old(sys).requests[id].expires)
      ensures committed ==> Allowed(old(sys), At(Withdraw(id, 0), world.clock))
      ensures sys == if committed then Apply(old(sys), At(Withdraw(id, 0), world.clock)) else old(sys)
    {
      NamedAreManaged(sys, id);
      var row := world.tx.rows[id];
      var now := Now();
      var work := ClearPayloadTx(world.tx, id, row.state, StCancelled, ReasonManual, now, sys.requests[id]);
      WithdrawCommits(sys, world.clock, world.tx, work.value, id);
      committed := CommitRow(work.value, Some(row.expires), id, Withdraw(id, 0), KeysOf(sys.requests[id].phase));
    }

    method RevokeBegun(id: Id, token: Option<Digest>) returns (error: Option<Error>)
      requires Valid() && Began(id, token, true)
      modifies this
      ensures Valid() && Reaches(old(sys), sys)
      ensures RevokeEffect(old(sys), sys, world.clock, id, error)
    {
      ReachesSelf(sys);
      ConsumedRow(sys.requests[id]);
      if world.tx.rows[id].state.StConsumed? {
        return Some(ErrConflict);
      }
      var committed := WithdrawRow(id);
      error := if committed then None else Some(ErrUnavailable);
    }

    /** The owner withdraws a request that has not been opened. */
    method Revoke(id: Id, token: Option<Digest>) returns (error: Option<Error>, ghost seen: Sys)
      requires Valid()
      modifies this
      ensures Valid() && Reaches(old(sys), seen) && Reaches(seen, sys)
      ensures || (error == Some(ErrUnavailable) && sys == seen && Closed(id, token, true))
              || (&& id in seen.requests && token == Some(seen.requests[id].retrieveHash)
                  && RevokeEffect(seen, sys, world.clock, id, error))
    {
      var refused, _ := Begin(id, token, true);
      seen := sys;
      ReachesSelf(sys);
      if refused {
        return Some(ErrUnavailable), seen;
      }
      error := RevokeBegun(id, token);
    }

    // -------------------------------------------------------------- open

    /** Consumes an inline body in the transaction that read it. */
    method OpenInline(id: Id) returns (answer: Answer<Opened>)
      requires Valid() && id in sys.requests && sys.requests[id].phase.Submitted?
      requires sys.requests[id].phase.content.Inline?
      modifies this
      ensures Valid() && Reaches(old(sys), sys)
      ensures answer.Ok? ==> Takes(old(sys), sys, id, answer.value.blob)
      ensures answer.Err? ==> sys == old(sys) && answer.error.ErrUnavailable? && sys.requests[id].expires <= world.clock
    {
      var row, body := world.tx.rows[id], world.tx.payloads[id];
      assert |body.bytes| == row.size.value;
      NamedAreManaged(sys, id);
      var now := Now();
      var work := ClearPayloadTx(world.tx, id, row.state, StConsumed, ReasonConsumed, now, sys.requests[id]);
      TakeCommits(sys, now, world.tx, work.value, id, body);
      var committed := CommitRow(work.value, Some(row.expires), id, Take(id, body, now, 0), {});
      if !committed {
        return Err(ErrUnavailable);
      }
      TakenNow(old(sys), sys, id, body, now, world.clock);
      answer := Ok(Opened(body, None));
    }

    method ConsumeBegun(id: Id, token: Option<Digest>, key: Key, body: Blob) returns (answer: Answer<Opened>)
      requires Valid() && Began(id, token, true) && (key, body) in sys.stored && AcceptedObject(sys, id, key)
      modifies this
      ensures Valid() && Reaches(old(sys), sys)
      ensures answer.Ok? ==> answer.value == Opened(body, Some(key)) && Takes(old(sys), sys, id, body)
      ensures answer.Err? ==> sys == old(sys) && OpenRefused(id, token, answer.error)
    {
      ReachesSelf(sys);
      AcceptedIsSubmitted(sys, id, key);
      var row := world.tx.rows[id];
      if !row.state.StSubmitted? {
        return Err(ErrConflict);
      }
      var now := Now();
      var work := ConsumeObjectTx(world.tx, id, key, now, sys.requests[id]);
      TakeCommits(sys, now, world.tx, work.value, id, body);
      var committed := CommitRow(work.value, Some(row.expires), id, Take(id, body, now, 0), {});
      if !committed {
        return Err(ErrUnavailable);
      }
      TakenNow(old(sys), sys, id, body, now, world.clock);
      answer := Ok(Opened(body, Some(key)));
    }

    /** The conditional consume: whatever happened during the object read, only a row that is still
        submitted is taken. */
    method ConsumeObject(id: Id, token: Option<Digest>, key: Key, body: Blob) returns (answer: Answer<Opened>, ghost seen: Sys)
      requires Valid() && (key, body) in sys.stored && AcceptedObject(sys, id, key)
      modifies this
      ensures Valid() && Reaches(old(sys), seen) && Reaches(seen, sys)
      ensures answer.Ok? ==> OwnerTakes(seen, sys, id, token, answer.value.blob)
      ensures answer.Err? ==> sys == seen && OpenRefused(id, token, answer.error)
    {
      var refused, _ := Begin(id, token, true);
      seen := sys;
      ReachesSelf(sys);
      if refused {
        return Err(ErrUnavailable), seen;
      }
      ReachesLater(old(sys), sys);
      answer := ConsumeBegun(id, token, key, body);
    }

    /** Starts the object read outside any transaction, then consumes. */
    method OpenObject(id: Id, token: Option<Digest>, key: Key, size: int) returns (answer: Answer<Opened>, ghost seen: Sys)
      requires Valid() && AcceptedObject(sys, id, key)
      modifies this
      ensures Valid() && Reaches(old(sys), seen) && Reaches(seen, sys)
      ensures answer.Ok? ==> OwnerTakes(seen, sys, id, token, answer.value.blob)
      ensures answer.Err? ==> sys == seen && OpenRefused(id, token, answer.error)
    {
      Interfere();
      seen := sys;
      ReachesSelf(sys);
      ReachesLater(old(sys), sys);
      var failed: bool := *;
      if !objects || size < 0 || size > maxObjectBytes || failed || key !in world.bucket {
        return Err(ErrStorage), seen;
      }
      var body := world.bucket[key];
      if |body.bytes| != size {
        return Err(ErrStorage), seen;
      }
      BucketWasStored(sys, key);
      ghost var download := sys;
      Interfere();
      ReachesLater(download, sys);
      ghost var resumed := sys;
      answer, seen := ConsumeObject(id, token, key, body);
      ReachesTransitive(old(sys), download, resumed);
      ReachesTransitive(old(sys), resumed, seen);
    }

    /** The owner opens the request: at most one open ever succeeds, and it yields the body of the
        one accepted submission. */
    method Open(id: Id, token: Option<Digest>) returns (answer: Answer<Opened>, ghost seen: Sys)
      requires Valid()
      modifies this
      ensures Valid() && Reaches(old(sys), seen) && Reaches(seen, sys)
      ensures answer.Ok? ==> OwnerTakes(seen, sys, id, token, answer.value.blob)
      ensures answer.Err? ==> sys == seen && OpenRefused(id, token, answer.error)
    {
      var refused, _ := Begin(id, token, true);
      seen := sys;
      ReachesSelf(sys);
      if refused {
        return Err(ErrUnavailable), seen;
      }
      var row := world.tx.rows[id];
      if !row.state.StSubmitted? {
        return Err(ErrConflict), seen;
      }
      if !row.backend.S3Object? {
        answer := OpenInline(id);
        return;
      }
      ghost var read := sys;
      SubmittedIsAccepted(sys, id);
      answer, seen := OpenObject(id, token, row.finalKey.value, row.size.value);
      ReachesTransitive(old(sys), read, seen);
    }

    /** Queues the delete of an opened object once its stream has ended. Repeating it changes nothing. */
    method FinishOpen(id: Id, key: Key) returns (ghost seen: Sys)
      requires Valid()
      modifies this
      ensures Valid() && Reaches(old(sys), seen) && Reaches(seen, sys)
      ensures if id in seen.requests && seen.requests[id].phase.Consumed? && seen.requests[id].phase.streaming == Some(key)
              then Allowed(seen, FinishStream(id, world.clock)) && sys == Apply(seen, FinishStream(id, world.clock))
              else sys == seen
    {
      Interfere();
      seen := sys;
      ReachesSelf(sys);
      if id !in world.tx.rows {
        return;
      }
      NamedAreManaged(sys, id);
      var now := Now();
      var work := FinishOpenTx(world.tx, id, key, now, sys.requests[id]);
      if work.Some? {
        FinishCommits(sys, world.clock, world.tx, work.value, id, key);
        var committed := CommitRow(work.value, None, id, FinishStream(id, 0), {key});
      }
    }

    // -------------------------------------------------------------- create, purge, reconcile

    /** A new request under a fresh random id. */
    method Create(id: Id, submitHash: Digest, retrieveHash: Digest, ttlSeconds: int)
      returns (expires: Answer<Time>, ghost read: Time)
      requires Valid() && id !in sys.ids
      modifies this
      ensures Valid() && Reaches(old(sys), sys)
      ensures expires.Err? <==> ttlSeconds < minTTLSeconds || ttlSeconds > maxTTLSeconds
      ensures expires.Err? ==> expires.error.ErrInvalid? && sys == old(sys)
      ensures expires.Ok? ==>
                && old(world).clock <= read <= world.clock && expires.value == read + ttlSeconds * SECOND
                && var m := RequestProtocol.Create(id, submitHash, retrieveHash, expires.value, world.clock);
                   Allowed(old(sys), m) && sys == Apply(old(sys), m)
    {
      if ttlSeconds < minTTLSeconds || ttlSeconds > maxTTLSeconds {
        ReachesSelf(sys);
        return Err(ErrInvalid), world.clock;
      }
      var now := Now();
      read := now;
      expires := Ok(now + ttlSeconds * SECOND);
      CreateCommits(sys, now, world.tx, id, Request(submitHash, retrieveHash, expires.value, 1, Waiting));
      var row := Row(submitHash, retrieveHash, StWaiting, 1, None, None, None, None, None, SqliteBlob, None, None, None, None, None, expires.value);
      var work := world.tx.(rows := world.tx.rows[id := row]);
      var committed := CommitRow(work, None, id, RequestProtocol.Create(id, submitHash, retrieveHash, expires.value, 0), {});
    }

    /** The reaper's batch, in one transaction: expired reservations are fenced, expired requests go.
        `now` was read before the transaction and may be stale. */
    method PurgeExpired(now: Time, limit: nat) returns (ghost pending: seq<Id>, ghost expired: seq<Id>)
      requires Valid() && now <= world.clock
      modifies this
      ensures Valid() && Reaches(old(sys), sys) && Purges(old(sys), sys, pending, expired)
      ensures PicksInOrder(Overdue(old(sys), now), pending, limit) && PicksInOrder(Due(old(sys), now), expired, limit)
    {
      ReachesSelf(sys);
      var work;
      ghost var t;
      work, t, pending, expired := PurgeTx(world.tx, now, limit, world.clock, sys);
      ReachesLater(sys, t);
      CallsStayHonest(world, sys, t);
      world := world.(tx := work);
      sys := t;
    }

    /** Commits a listed page: advances the cursor if nobody else did, and queues a delete for every
        listed key that no row protects and no claim covers. */
    method CommitPage(keys: seq<Key>, next: Option<Key>, generation: nat)
      returns (outcome: ScanOutcome, ghost read: Time)
      requires Valid()
      modifies this
      ensures Valid() && Reaches(old(sys), sys) && old(sys).now <= read
      ensures outcome.Lost? <==> old(world).tx.cursorGeneration != generation
      ensures outcome.Lost? ==> sys == old(sys) && world.tx == old(world).tx
      ensures !outcome.Lost? ==> outcome.Scanned? && ScansPage(old(world).tx, world.tx, keys, next, read, outcome.count)
      ensures !outcome.Lost? ==>
                var m := Sweep(Unprotected(old(world).tx.rows, keys, read) - old(world).tx.claims.Keys, read, world.clock);
                Allowed(old(sys), m) && sys == Apply(old(sys), m)
    {
      ReachesSelf(sys);
      read := sys.now;
      if world.tx.cursorGeneration != generation {
        return Lost, sys.now;
      }
      var now := Now();
      read := now;
      var before := world.tx;
      var work, count := ClaimUnprotected(before, keys, now);
      work := work.(cursor := next, cursorGeneration := generation + 1);
      var commit := Now();
      SweepRepresents(world, sys, before, work, keys, now, commit, count);
      world := world.(tx := work);
      sys := Apply(sys, Sweep(Unprotected(before.rows, keys, now) - before.claims.Keys, now, commit));
      outcome := Scanned(count);
    }

    /** One reconciliation page. The listing runs outside any transaction, so it may be stale: what
        it lists is judged against the rows as they are when the page commits. */
    method ReconcileOnce(limit: int, listing: Listing) returns (outcome: ScanOutcome, ghost seen: Tx, ghost read: Time)
      requires Valid()
      modifies this
      ensures Valid() && Reaches(old(sys), sys)
      ensures Reconciles(objects, limit, listing, old(world).tx.cursor, old(world).tx.cursorGeneration, seen, world.tx, read, outcome)
    {
      seen, read := world.tx, world.clock;
      ReachesSelf(sys);
      if !objects || limit < 1 {
        return Refused, world.tx, world.clock;
      }
      var bound := if limit < 1000 then limit else 1000;
      var cursor, generation := world.tx.cursor, world.tx.cursorGeneration;
      Interfere();
      seen := world.tx;
      match listing {
        case ListFailed => outcome := Refused;
        case InvalidCursor =>
          outcome := Refused;
          if cursor.Some? && world.tx.cursorGeneration == generation {
            world := world.(tx := world.tx.(cursor := None, cursorGeneration := generation + 1));
            outcome := Restarted;
          }
        case Page(keys, next) =>
          if |keys| > bound || (next.Some? && next == cursor) {
            return Refused, seen, read;
          }
          ghost var listed := sys;
          outcome, read := CommitPage(keys, next, generation);
          ReachesTransitive(old(sys), listed, sys);
      }
    }

    /** Clears the claim of exactly this job; an old acknowledgement cannot clear a newer claim. */
    method AcknowledgeObjectCleanup(job: nat, key: Key) returns (ok: bool)
      requires Valid()
      modifies this`world
      ensures Valid() && ok == key.RequestKey?
      ensures world == old(world).(tx := old(world).tx.(claims := world.tx.claims))
      ensures world.tx.claims ==
              if ok && key in old(world).tx.claims && old(world).tx.claims[key] == job
              then old(world).tx.claims - {key} else old(world).tx.claims
    {
      ok := key.RequestKey?;
      if ok && key in world.tx.claims && world.tx.claims[key] == job {
        world := world.(tx := world.tx.(claims := world.tx.claims - {key}));
      }
    }
  }
}
