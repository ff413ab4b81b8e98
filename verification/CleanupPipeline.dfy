/** Cleanup jobs from the outbox to the end of their message: an at-least-once protocol across the
    API's outbox, the broker, the worker's receipts and the reconciliation claims. */
module CleanupPipeline {
  import opened Common
  import R = Runs

  type JobId = nat
  type MessageId = nat

  datatype JobKind = DeleteSecret | DeleteObject

  datatype Event = Event(job: JobId, kind: JobKind, key: Key)

  datatype OutboxState = Pending | Published | PublishFailed

  datatype OutboxRow = OutboxRow(event: Event, state: OutboxState)

  /** Keys whose cleanup the API tracks with a claim. */
  predicate NeedsAcknowledgement(key: Key) {
    key.RequestKey? || key.SecretKey?
  }

  predicate Tracked(e: Event) {
    e.kind.DeleteObject? && NeedsAcknowledgement(e.key)
  }

  /** `broker` holds the unacknowledged messages, None for one that does not decode. `ended` are the
      jobs with a terminal receipt; `sent` the jobs the broker has ever stored a message for. */
  datatype Pipe = Pipe(
    claims: map<Key, JobId>, outbox: map<JobId, OutboxRow>, broker: map<MessageId, Option<Event>>,
    ended: set<JobId>, sent: set<JobId>)

  predicate Start(p: Pipe) {
    p.claims == map[] && p.outbox == map[] && p.broker == map[] && p.ended == {} && p.sent == {}
  }

  datatype Move =
    | Scan(key: Key, job: JobId)
    | Enqueue(event: Event)
    | Publish(job: JobId, message: MessageId)
    | Inject(message: MessageId)
    | MarkPublished(job: JobId)
    | MarkFailed(job: JobId)
    | End(job: JobId)
    | Acknowledge(key: Key, job: JobId)
    | Remove(message: MessageId)

  predicate Claimed(p: Pipe, e: Event) {
    e.key in p.claims && p.claims[e.key] == e.job
  }

  /** A message may go once its job has a terminal receipt and its own claim is released. */
  predicate Settled(p: Pipe, e: Event) {
    e.job in p.ended && (Tracked(e) ==> !Claimed(p, e))
  }

  predicate Allowed(p: Pipe, m: Move) {
    match m
    case Scan(key, job) => key !in p.claims && job !in p.outbox && NeedsAcknowledgement(key)
    case Enqueue(e) => e.job !in p.outbox
    case Publish(job, message) => job in p.outbox && message !in p.broker
    case Inject(message) => message !in p.broker
    case MarkPublished(job) => job in p.outbox && job in p.sent
    case MarkFailed(job) => job in p.outbox && !p.outbox[job].state.Published?
    case End(job) => true
    case Acknowledge(key, job) => job in p.ended
    case Remove(message) => message in p.broker && (p.broker[message].Some? ==> Settled(p, p.broker[message].value))
  }

  function Apply(p: Pipe, m: Move): Pipe
    requires Allowed(p, m)
  {
    match m
    case Scan(key, job) =>
      p.(claims := p.claims[key := job], outbox := p.outbox[job := OutboxRow(Event(job, DeleteObject, key), Pending)])
    case Enqueue(e) => p.(outbox := p.outbox[e.job := OutboxRow(e, Pending)])
    case Publish(job, message) =>
      p.(broker := p.broker[message := Some(p.outbox[job].event)], sent := p.sent + {job})
    case Inject(message) => p.(broker := p.broker[message := None])
    case MarkPublished(job) => p.(outbox := p.outbox[job := p.outbox[job].(state := Published)])
    case MarkFailed(job) => p.(outbox := p.outbox[job := p.outbox[job].(state := PublishFailed)])
    case End(job) => p.(ended := p.ended + {job})
    case Acknowledge(key, job) =>
      if key in p.claims && p.claims[key] == job then p.(claims := p.claims - {key}) else p
    case Remove(message) => p.(broker := p.broker - {message})
  }

  // ---------------------------------------------------------------- invariant

  ghost predicate Delivering(p: Pipe, e: Event) {
    exists m :: m in p.broker && p.broker[m] == Some(e)
  }

  /** A claim's job is in the outbox, for that key, and is still on its way. */
  ghost predicate ClaimOk(p: Pipe, key: Key) {
    key in p.claims ==>
      var job := p.claims[key];
      && job in p.outbox && p.outbox[job].event == Event(job, DeleteObject, key) && NeedsAcknowledgement(key)
      && (job in p.sent ==> Delivering(p, p.outbox[job].event))
  }

  ghost predicate RowOk(p: Pipe, job: JobId) {
    && (job in p.outbox ==> p.outbox[job].event.job == job && (p.outbox[job].state.Published? ==> job in p.sent))
    && (job in p.sent ==> job in p.outbox)
  }

  ghost predicate MessageOk(p: Pipe, m: MessageId) {
    m in p.broker && p.broker[m].Some? ==>
      var e := p.broker[m].value; e.job in p.outbox && p.outbox[e.job].event == e
  }

  ghost predicate Inv(p: Pipe) {
    (forall k :: ClaimOk(p, k)) && (forall j :: RowOk(p, j)) && (forall m :: MessageOk(p, m))
  }

  lemma ClaimKeeps(p: Pipe, m: Move, k: Key)
    requires Inv(p) && Allowed(p, m)
    ensures ClaimOk(Apply(p, m), k)
  {
    var q := Apply(p, m);
    assert ClaimOk(p, k);
    if k in q.claims {
      var job := q.claims[k];
      var e := q.outbox[job].event;
      if m.Scan? && m.key == k {
        assert RowOk(p, job);
      } else if job in q.sent {
        if job in p.sent {
          var w :| w in p.broker && p.broker[w] == Some(e);
          assert w in q.broker && q.broker[w] == Some(e);
        } else {
          assert q.broker[m.message] == Some(e);
        }
      }
    }
  }

  lemma MoveKeeps(p: Pipe, m: Move)
    requires Inv(p) && Allowed(p, m)
    ensures Inv(Apply(p, m))
  {
    var q := Apply(p, m);
    forall k ensures ClaimOk(q, k) { ClaimKeeps(p, m, k); }
    forall j ensures RowOk(q, j) { assert RowOk(p, j); if m.Enqueue? || m.Scan? { assert RowOk(p, if m.Enqueue? then m.event.job else m.job); } }
    forall w ensures MessageOk(q, w) { assert MessageOk(p, w); if m.Publish? { assert RowOk(p, m.job); } }
  }

  // ---------------------------------------------------------------- runs

  ghost predicate Next(p: Pipe, q: Pipe) {
    exists m :: Allowed(p, m) && q == Apply(p, m)
  }

  ghost predicate Reaches(p: Pipe, q: Pipe) {
    R.Reaches(Next, p, q)
  }

  ghost predicate Reachable(q: Pipe) {
    exists p :: Start(p) && Reaches(p, q)
  }

  /** Terminal receipts and outbox events stay; a claim goes only after its job has ended, and the
      claim of a known job never comes back. */
  ghost predicate Later(p: Pipe, q: Pipe) {
    && p.ended <= q.ended && p.sent <= q.sent
    && (forall j :: j in p.outbox ==> j in q.outbox && q.outbox[j].event == p.outbox[j].event)
    && (forall k :: k in p.claims && !(k in q.claims && q.claims[k] == p.claims[k]) ==> p.claims[k] in q.ended)
    && (forall k :: k in q.claims && q.claims[k] in p.outbox ==> k in p.claims && p.claims[k] == q.claims[k])
  }

  lemma MoveLater(p: Pipe, m: Move)
    requires Inv(p) && Allowed(p, m)
    ensures Later(p, Apply(p, m))
  {}

  lemma LaterTransitive(p: Pipe, q: Pipe, r: Pipe)
    requires Later(p, q) && Later(q, r)
    ensures Later(p, r)
  {}

  lemma RunKeeps(p: Pipe, q: Pipe)
    requires Inv(p) && Reaches(p, q)
    ensures Inv(q) && Later(p, q)
  {
    forall x, y | Inv(x) && Next(x, y) ensures Inv(y) && Later(x, y) {
      var m :| Allowed(x, m) && y == Apply(x, m);
      MoveKeeps(x, m);
      MoveLater(x, m);
    }
    forall x, y, z | Inv(x) && Later(x, y) && Later(y, z) ensures Later(x, z) {
      LaterTransitive(x, y, z);
    }
    var n :| R.Steps(Next, p, n, q);
    R.Keeps(Next, Inv, Later, p, n, q);
  }

  lemma ReachableInv(p: Pipe)
    requires Reachable(p)
    ensures Inv(p)
  {
    var s :| Start(s) && Reaches(s, p);
    RunKeeps(s, p);
  }

  lemma ReachesLater(p: Pipe, q: Pipe)
    requires Reachable(p) && Reaches(p, q)
    ensures Later(p, q)
  {
    ReachableInv(p);
    RunKeeps(p, q);
  }

  lemma ReachesTransitive(p: Pipe, q: Pipe, r: Pipe)
    requires Reaches(p, q) && Reaches(q, r)
    ensures Reaches(p, r)
  {
    R.Transitive(Next, p, q, r);
  }

  lemma ReachesSelf(p: Pipe)
    ensures Reaches(p, p)
  {
    R.Self(Next, p);
  }

  lemma OneMove(p: Pipe, m: Move)
    requires Allowed(p, m)
    ensures Reaches(p, Apply(p, m))
  {
    R.One(Next, p, Apply(p, m));
  }

  lemma ReachesReachable(p: Pipe, q: Pipe)
    requires Reachable(p) && Reaches(p, q)
    ensures Reachable(q)
  {
    var s :| Start(s) && Reaches(s, p);
    ReachesTransitive(s, p, q);
  }

  // ---------------------------------------------------------------- theorems

  /** A reconciliation claim never gets stuck: its job is unpublished in the outbox or
      unacknowledged in the broker. */
  lemma ClaimNeverStuck(p: Pipe, key: Key)
    requires Reachable(p) && key in p.claims
    ensures var job := p.claims[key];
            && job in p.outbox && p.outbox[job].event == Event(job, DeleteObject, key)
            && (!p.outbox[job].state.Published? || exists m :: m in p.broker && p.broker[m] == Some(p.outbox[job].event))
  {
    ReachableInv(p);
    assert ClaimOk(p, key) && RowOk(p, p.claims[key]);
  }

  /** A message of a decodable event that has left the broker left a terminal receipt behind, and
      its own claim is gone for good. */
  lemma GoneMeansSettled(p: Pipe, q: Pipe, m: MessageId, e: Event)
    requires Reachable(p) && Reaches(p, q) && m in p.broker && p.broker[m] == Some(e) && m !in q.broker
    ensures e.job in q.ended && (Tracked(e) ==> !Claimed(q, e))
  {
    ReachableInv(p);
    assert MessageOk(p, m);
    forall x, y | KeptOrSettled(x, m, e) && Next(x, y) ensures KeptOrSettled(y, m, e) {
      var v :| Allowed(x, v) && y == Apply(x, v);
      KeptOrSettledStep(x, v, m, e);
    }
    var n :| R.Steps(Next, p, n, q);
    R.Holds(Next, x => KeptOrSettled(x, m, e), p, n, q);
  }

  ghost predicate KeptOrSettled(p: Pipe, m: MessageId, e: Event) {
    e.job in p.outbox && ((m in p.broker && p.broker[m] == Some(e)) || Settled(p, e))
  }

  lemma KeptOrSettledStep(p: Pipe, v: Move, m: MessageId, e: Event)
    requires Allowed(p, v) && KeptOrSettled(p, m, e)
    ensures KeptOrSettled(Apply(p, v), m, e)
  {}

  /** A claim is released only after its own job has ended; acknowledging another job leaves it alone. */
  lemma ReleasedAfterEnd(p: Pipe, q: Pipe, key: Key)
    requires Reachable(p) && Reaches(p, q) && key in p.claims
    requires !(key in q.claims && q.claims[key] == p.claims[key])
    ensures p.claims[key] in q.ended
  {
    ReachesLater(p, q);
  }
}
