/** What holds over every run of the request protocol, whoever interleaves with whom. */
module RequestTheorems {
  import opened Common
  import opened RequestProtocol
  import opened RequestInvariant
  import R = Runs

  ghost predicate Next(s: Sys, t: Sys) {
    exists m :: Allowed(s, m) && t == Apply(s, m)
  }

  /** Moves of any actors lead from `s` to `t`. */
  ghost predicate Reaches(s: Sys, t: Sys) {
    R.Reaches(Next, s, t)
  }

  ghost predicate Reachable(t: Sys) {
    exists s :: Init(s) && Reaches(s, t)
  }

  // ---------------------------------------------------------------- what never goes back

  /** How many reservations of `id` can still be ended: 0 once it is gone or exhausted. */
  function Rank(s: Sys, id: Id): int {
    if id !in s.requests || s.requests[id].phase.Unavailable? then 0
    else MAX_GENERATION + 1 - s.requests[id].generation
  }

  ghost predicate RequestLater(s: Sys, t: Sys, id: Id) {
    && (id in s.ids ==> Rank(t, id) <= Rank(s, id))
    && (id in s.ids && id in t.requests ==>
          && id in s.requests
          && s.requests[id].generation <= t.requests[id].generation
          && s.requests[id].expires == t.requests[id].expires
          && s.requests[id].submitHash == t.requests[id].submitHash
          && s.requests[id].retrieveHash == t.requests[id].retrieveHash)
    && (id in s.requests && id in t.accepted && id !in s.accepted ==>
          s.requests[id].generation <= t.accepted[id].generation)
    && (id in s.ids && id !in s.requests && id in t.accepted ==> id in s.accepted)
  }

  ghost predicate KeyLater(s: Sys, t: Sys, key: Key) {
    key in s.reserved && !ProtectedByOwner(s, key) && key in t.reserved ==> !ProtectedByOwner(t, key)
  }

  ghost predicate Later(s: Sys, t: Sys) {
    && s.now <= t.now
    && s.ids <= t.ids && s.queued <= t.queued && s.written <= t.written && s.stored <= t.stored
    && Submap(s.reserved, t.reserved) && Submap(s.accepted, t.accepted) && Submap(s.released, t.released)
    && (forall id :: RequestLater(s, t, id))
    && (forall key :: KeyLater(s, t, key))
  }

  lemma LaterTransitive(s: Sys, t: Sys, u: Sys)
    requires Inv(s) && Later(s, t) && Later(t, u)
    ensures Later(s, u)
  {
    forall id ensures RequestLater(s, u, id) { assert RequestOk(s, id); assert RequestLater(s, t, id) && RequestLater(t, u, id); }
    forall key ensures KeyLater(s, u, key) { assert KeyLater(s, t, key) && KeyLater(t, u, key); }
  }

  lemma RowLater(s: Sys, m: Move, id: Id)
    requires Inv(s) && Allowed(s, m)
    ensures RequestLater(s, Apply(s, m), id)
  {
    assert RequestOk(s, id) && HistoryOk(s, id);
  }

  lemma LatchStep(s: Sys, m: Move, key: Key)
    requires Inv(s) && Allowed(s, m)
    ensures KeyLater(s, Apply(s, m), key)
  {}

  lemma MoveLater(s: Sys, m: Move)
    requires Inv(s) && Allowed(s, m)
    ensures Later(s, Apply(s, m))
  {
    var u := Apply(s, m);
    forall id ensures RequestLater(s, u, id) { RowLater(s, m, id); }
    forall key ensures KeyLater(s, u, key) { LatchStep(s, m, key); }
    GrowsOnly(s, m);
  }

  lemma GrowsOnly(s: Sys, m: Move)
    requires Inv(s) && Allowed(s, m)
    ensures s.now <= Apply(s, m).now
    ensures s.ids <= Apply(s, m).ids && s.queued <= Apply(s, m).queued
    ensures s.written <= Apply(s, m).written && s.stored <= Apply(s, m).stored
    ensures Submap(s.reserved, Apply(s, m).reserved)
    ensures Submap(s.accepted, Apply(s, m).accepted) && Submap(s.released, Apply(s, m).released)
  {
    if m.AcceptInline? || m.AcceptStored? || m.Take? || m.Create? { assert RequestOk(s, m.id); }
  }

  lemma LaterSelf(s: Sys)
    requires Inv(s)
    ensures Later(s, s)
  {}

  lemma RunKeeps(s: Sys, t: Sys)
    requires Inv(s) && Reaches(s, t)
    ensures Inv(t) && Later(s, t)
  {
    forall x, y | Inv(x) && Next(x, y) ensures Inv(y) && Later(x, y) {
      var m :| Allowed(x, m) && y == Apply(x, m);
      MoveKeeps(x, m);
      MoveLater(x, m);
    }
    forall x | Inv(x) ensures Later(x, x) {
      LaterSelf(x);
    }
    forall x, y, z | Inv(x) && Later(x, y) && Later(y, z) ensures Later(x, z) {
      LaterTransitive(x, y, z);
    }
    var n :| R.Steps(Next, s, n, t);
    R.Keeps(Next, Inv, Later, s, n, t);
  }

  // ---------------------------------------------------------------- theorems

  lemma ReachableInv(s: Sys)
    requires Reachable(s)
    ensures Inv(s)
  {
    var s0 :| Init(s0) && Reaches(s0, s);
    RunKeeps(s0, s);
  }

  lemma ReachesLater(s: Sys, t: Sys)
    requires Reachable(s) && Reaches(s, t)
    ensures Later(s, t)
  {
    ReachableInv(s);
    RunKeeps(s, t);
  }

  lemma OwnerProtects(s: Sys, key: Key)
    requires Inv(s)
    ensures Protected(s, key) <==> key in s.reserved && ProtectedByOwner(s, key)
  {
    forall id | id in s.requests && Protects(s.requests[id], key, s.now)
      ensures key in s.reserved && s.reserved[key].id == id
    {
      assert RequestOk(s, id);
    }
  }

  /** Protection is a one-way latch: a drawn key that is once unprotected stays unprotected. */
  lemma ProtectionLatch(s: Sys, t: Sys, key: Key)
    requires Reachable(s) && Reaches(s, t)
    requires key in s.reserved && !Protected(s, key)
    ensures !Protected(t, key)
  {
    ReachableInv(s);
    RunKeeps(s, t);
    OwnerProtects(s, key);
    OwnerProtects(t, key);
    assert KeyLater(s, t, key);
  }

  /** A delete job, however long it is delayed, is only ever for a key nobody may need again. */
  lemma QueuedMeansUnprotected(s: Sys, t: Sys, key: Key)
    requires Reachable(s) && Reaches(s, t) && key in s.queued && key in s.reserved
    ensures !Protected(t, key)
  {
    ReachableInv(s);
    assert KeyOk(s, key);
    OwnerProtects(s, key);
    ProtectionLatch(s, t, key);
  }

  /** A submitted, unexpired request still has its object, with the reserved contents. */
  lemma SubmittedObjectSurvives(s: Sys, id: Id)
    requires Reachable(s) && id in s.requests && s.requests[id].phase.Submitted?
    requires s.requests[id].phase.content.Stored? && s.now < s.requests[id].expires
    ensures s.requests[id].phase.content.final in s.bucket
    ensures Matches(s.bucket[s.requests[id].phase.content.final], s.requests[id].phase.content.spec)
  {
    ReachableInv(s);
    var key := s.requests[id].phase.content.final;
    assert RequestOk(s, id) && KeyOk(s, key) && ObjectOk(s, key);
    assert BlobOk(s, key, s.bucket[key]);
  }

  /** An opened object stays in the bucket for the whole stream grace, unless its stream ended. */
  lemma StreamingObjectSurvives(s: Sys, id: Id)
    requires Reachable(s) && id in s.requests && s.requests[id].phase.Consumed?
    requires s.requests[id].phase.streaming.Some? && s.now < s.requests[id].phase.at + OPEN_GRACE
    ensures s.requests[id].phase.streaming.value in s.bucket
  {
    ReachableInv(s);
    var key := s.requests[id].phase.streaming.value;
    assert RequestOk(s, id) && KeyOk(s, key) && ObjectOk(s, key);
  }

  /** Whatever is re-PUT and however many finalizers race, a final key only ever held the
      reserved length, checksum and age header. */
  lemma FinalKeyIntegrity(s: Sys, key: Key, b: Blob)
    requires Reachable(s) && (key, b) in s.stored
    requires key.RequestKey? && key.role.Final?
    ensures key in s.reserved && Matches(b, s.reserved[key].resv.spec)
  {
    ReachableInv(s);
    assert BlobOk(s, key, b);
  }

  /** What an owner received is the one accepted submission. */
  lemma ReleaseMatchesAcceptance(s: Sys, id: Id)
    requires Reachable(s) && id in s.released
    ensures id in s.accepted
    ensures s.accepted[id].content.Inline? ==> s.released[id] == s.accepted[id].content.blob
    ensures s.accepted[id].content.Stored? ==> Matches(s.released[id], s.accepted[id].content.spec)
  {
    ReachableInv(s);
    assert HistoryOk(s, id);
  }

  /** Every key ever drawn is still named by its request or has a delete job. */
  lemma KeyConservation(s: Sys, key: Key)
    requires Reachable(s) && key in s.reserved
    ensures key in s.queued
         || exists id :: id in s.requests && key in KeysOf(s.requests[id].phase)
  {
    ReachableInv(s);
    assert KeyOk(s, key);
  }

  /** At most one attempt is ever accepted, and at most one body released, per request. */
  lemma AcceptanceIsFinal(s: Sys, t: Sys, id: Id)
    requires Reachable(s) && Reaches(s, t)
    ensures id in s.accepted ==> id in t.accepted && t.accepted[id] == s.accepted[id]
    ensures id in s.released ==> id in t.released && t.released[id] == s.released[id]
  {
    ReachesLater(s, t);
  }

  /** Once a request has moved past generation `g`, no late reserve, submit or finalize of
      generation `g` is ever accepted. */
  lemma GenerationFence(s: Sys, t: Sys, id: Id, g: int)
    requires Reachable(s) && Reaches(s, t)
    requires id in s.requests && g < s.requests[id].generation
    ensures id in t.accepted ==> t.accepted[id].generation > g
    ensures id in t.requests ==> g < t.requests[id].generation <= MAX_GENERATION
  {
    ReachableInv(s);
    RunKeeps(s, t);
    assert RequestOk(s, id) && RequestOk(t, id) && RequestLater(s, t, id);
  }

  /** A key's reservation is fenced, or it is the one its generation has or had. */
  ghost predicate OnlyReservation(s: Sys, key: Key) {
    key in s.reserved && s.reserved[key].id in s.requests ==>
      var o, q := s.reserved[key], s.requests[s.reserved[key].id];
      || o.generation < q.generation
      || (o.generation == q.generation && !q.phase.Waiting? && (q.phase.Uploading? ==> q.phase.resv == o.resv))
  }

  lemma OnlyReservationStep(s: Sys, m: Move, key: Key)
    requires Inv(s) && OnlyReservation(s, key) && Allowed(s, m)
    ensures OnlyReservation(Apply(s, m), key)
  {
    assert KeyOk(s, key);
    if key in s.reserved && s.reserved[key].id in s.requests {
      assert RequestOk(s, s.reserved[key].id);
    }
  }

  /** A generation is reserved at most once: while a request is still uploading in the generation a key was
      drawn in, its reservation is that key's. */
  lemma OneReservationPerGeneration(s: Sys, key: Key)
    requires Reachable(s) && key in s.reserved && s.reserved[key].id in s.requests
    ensures var q := s.requests[s.reserved[key].id];
            q.generation == s.reserved[key].generation && q.phase.Uploading? ==> q.phase.resv == s.reserved[key].resv
  {
    var s0 :| Init(s0) && Reaches(s0, s);
    OnlyReservationRun(s0, s, key);
  }

  lemma OnlyReservationRun(s: Sys, t: Sys, key: Key)
    requires Inv(s) && OnlyReservation(s, key) && Reaches(s, t)
    ensures OnlyReservation(t, key)
  {
    forall x, y | Inv(x) && OnlyReservation(x, key) && Next(x, y) ensures Inv(y) && OnlyReservation(y, key) {
      var m :| Allowed(x, m) && y == Apply(x, m);
      MoveKeeps(x, m);
      OnlyReservationStep(x, m, key);
    }
    var n :| R.Steps(Next, s, n, t);
    R.Holds(Next, x => Inv(x) && OnlyReservation(x, key), s, n, t);
  }

  /** A reservation that was cancelled is never accepted afterwards. */
  lemma CancelledStaysUnaccepted(s: Sys, t: Sys, id: Id)
    requires Reachable(s) && Reaches(s, t)
    requires id in s.requests && s.requests[id].phase.Cancelled? && s.requests[id].phase.receipt.None?
    ensures id !in t.accepted
  {
    ReachableInv(s);
    assert RequestOk(s, id);
    forall x, y | CancelledOrGone(x, id) && Next(x, y) ensures CancelledOrGone(y, id) {
      var m :| Allowed(x, m) && y == Apply(x, m);
      CancelledStep(x, m, id);
    }
    var n :| R.Steps(Next, s, n, t);
    R.Holds(Next, x => CancelledOrGone(x, id), s, n, t);
  }

  ghost predicate CancelledOrGone(s: Sys, id: Id) {
    id in s.ids && id !in s.accepted && (id in s.requests ==> s.requests[id].phase.Cancelled?)
  }

  lemma CancelledStep(s: Sys, m: Move, id: Id)
    requires Allowed(s, m) && CancelledOrGone(s, id)
    ensures CancelledOrGone(Apply(s, m), id)
  {}

  // ---------------------------------------------------------------- runs compose

  lemma ReachesTransitive(s: Sys, t: Sys, u: Sys)
    requires Reaches(s, t) && Reaches(t, u)
    ensures Reaches(s, u)
  {
    R.Transitive(Next, s, t, u);
  }

  lemma ReachesSelf(s: Sys)
    ensures Reaches(s, s)
  {
    R.Self(Next, s);
  }

  lemma OneMove(s: Sys, m: Move)
    requires Allowed(s, m)
    ensures Reaches(s, Apply(s, m))
  {
    R.One(Next, s, Apply(s, m));
  }

  lemma ReachesReachable(s: Sys, t: Sys)
    requires Reachable(s) && Reaches(s, t)
    ensures Reachable(t)
  {
    var s0 :| Init(s0) && Reaches(s0, s);
    ReachesTransitive(s0, s, t);
  }
}
