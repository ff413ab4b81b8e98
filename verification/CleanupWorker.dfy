/** The processes that drive the cleanup pipeline, as the code runs them: the outbox publisher, the
    job processor with its deferred acknowledgement, and the message consumer. Anyone else may act
    between any two of their transactions or network calls. */
module CleanupWorker {
  import opened Common
  import opened WorkerReceipts
  import P = CleanupPipeline
  import J = JobEvents
  import opened CleanupPipeline

  function KindCode(kind: JobKind): nat {
    if kind.DeleteSecret? then 0 else 1
  }

  datatype World = World(pipe: Pipe, tables: Tables, clock: Time, nextId: nat)

  predicate Terminal(t: Tables, job: nat) {
    job in t.receipts && (t.receipts[job].state.Succeeded? || t.receipts[job].state.Dead?)
  }

  /** The pipeline's ended jobs are those with a terminal receipt, and receipts keep their job's kind. */
  ghost predicate Coupled(p: Pipe, t: Tables) {
    && (forall j :: j in p.ended <==> Terminal(t, j))
    && (forall j :: j in t.receipts && j in p.outbox ==> t.receipts[j].kind == KindCode(p.outbox[j].event.kind))
    && (forall j :: j in t.receipts ==> j in p.outbox)
  }

  ghost predicate WorldOk(w: World, limit: nat) {
    && P.Reachable(w.pipe) && TablesOk(w.tables, limit, w.clock)
    && (forall id :: id in w.tables.index ==> id < w.nextId)
    && Coupled(w.pipe, w.tables)
  }

  ghost predicate MayBecome(w: World, next: World, limit: nat) {
    WorldOk(next, limit) && P.Reaches(w.pipe, next.pipe) && TablesLater(w.tables, next.tables) && w.clock <= next.clock
  }

  /** The other processes only ever run the pipeline. */
  ghost predicate Rely(others: (nat, World) -> World, limit: nat) {
    forall n: nat, w: World :: WorldOk(w, limit) ==> MayBecome(w, others(n, w), limit)
  }

  /** An environment that does nothing is one such. */
  lemma QuietEnvironment(others: (nat, World) -> World, limit: nat)
    requires forall n, w :: others(n, w) == w
    ensures Rely(others, limit)
  {
    forall n: nat, w: World | WorldOk(w, limit) ensures MayBecome(w, others(n, w), limit) {
      P.ReachesSelf(w.pipe);
      LaterSelf(w.tables);
    }
  }

  /** Nor only idle ones: here others enqueue an event at every turn, wherever its job id is still unused. */
  lemma BusyEnvironment(key: Key, limit: nat) returns (others: (nat, World) -> World)
    ensures Rely(others, limit)
    ensures forall n: nat, w :: WorldOk(w, limit) && n !in w.pipe.outbox ==> Known(others(n, w).pipe, Event(n, DeleteObject, key))
  {
    others := (n: nat, w: World) =>
      if n in w.pipe.outbox then w else w.(pipe := P.Apply(w.pipe, P.Enqueue(Event(n, DeleteObject, key))));
    forall n: nat, w: World | WorldOk(w, limit) ensures MayBecome(w, others(n, w), limit) {
      P.ReachesSelf(w.pipe);
      LaterSelf(w.tables);
      if n !in w.pipe.outbox {
        MoveReaches(w.pipe, P.Enqueue(Event(n, DeleteObject, key)));
      }
    }
  }

  /** The event is the one its job was enqueued with. */
  ghost predicate Known(p: Pipe, e: Event) {
    e.job in p.outbox && p.outbox[e.job].event == e
  }

  lemma StaysKnown(p: Pipe, q: Pipe, e: Event)
    requires P.Reachable(p) && P.Reaches(p, q) && Known(p, e)
    ensures Known(q, e) && (P.Settled(p, e) ==> P.Settled(q, e))
  {
    P.ReachesLater(p, q);
  }

  lemma StartCoupled(p: Pipe, t: Tables, u: Tables, e: Event, limit: nat, clock: Time, now: Time, r: StartResult)
    requires Coupled(p, t) && Known(p, e) && OnlyJob(t, u, e.job) && TablesLater(t, u)
    requires TablesOk(t, limit, clock) && StartAnswer(t, u, e.job, KindCode(e.kind), limit, now, r)
    ensures r.Claimed? || r.AlreadySucceeded? || r == NotStarted(ErrJobProcessing) || r == NotStarted(ErrJobDead)
    ensures r.Claimed? || r == NotStarted(ErrJobProcessing) ==> Coupled(p, u)
    ensures r.AlreadySucceeded? || r == NotStarted(ErrJobDead) ==>
              Terminal(u, e.job) && Coupled(p.(ended := p.ended + {e.job}), u)
  {
    assert JobHolds(t, e.job, limit, clock);
  }

  lemma FinishCoupled(p: Pipe, t: Tables, u: Tables, job: nat, i: nat, error: Option<string>, limit: nat, clock: Time, dead: bool)
    requires Coupled(p, t) && job in t.receipts && OnlyJob(t, u, job) && TablesLater(t, u) && TablesOk(t, limit, clock)
    requires Ends(t, u, job, i, error, limit, dead) && !Terminal(t, job)
    ensures error.None? || dead ==> Terminal(u, job) && Coupled(p.(ended := p.ended + {job}), u)
    ensures error.Some? && !dead ==> Coupled(p, u)
  {}

  /** The job's receipt has this terminal state. */
  predicate EndedAs(t: Tables, job: nat, state: ReceiptState) {
    job in t.receipts && t.receipts[job].state == state
  }

  lemma EndedStays(t: Tables, u: Tables, job: nat, state: ReceiptState, limit: nat, clock: Time)
    requires TablesOk(t, limit, clock) && TablesLater(t, u) && EndedAs(t, job, state) && (state.Succeeded? || state.Dead?)
    ensures EndedAs(u, job, state)
  {
    assert JobHolds(t, job, limit, clock);
  }

  datatype ProcessResult = JobSucceeded | JobDead | AlreadyProcessing | Unfinished

  datatype ProcessError = InvalidEvent | InvalidJob | OtherError

  /** A delivered message: its event, if it decodes, and the text fields it was decoded from. */
  datatype Delivery = Delivery(message: MessageId, event: Option<Event>, fields: J.JobEvent)

  /** What decodes has passed validation and keeps its kind and its place in the bucket. */
  ghost predicate Decodes(e: Event, f: J.JobEvent) {
    && J.Valid(f) && (f.kind == J.DELETE_OBJECT <==> e.kind.DeleteObject?)
    && (e.kind.DeleteObject? ==> (J.Managed(f.objectKey) <==> NeedsAcknowledgement(e.key)))
  }

  ghost predicate Fetched(p: Pipe, d: Delivery) {
    d.event.Some? ==> Known(p, d.event.value) && Decodes(d.event.value, d.fields)
  }

  /** The error a refused or failed step is reported with. */
  function ErrorOf(check: J.Refusal): ProcessError {
    if check.InvalidJob? then InvalidJob else OtherError
  }

  /** ProcessMessage and the consumer's reading of its answer: invalid events and jobs are dropped, other
      errors retried. */
  function Resolve(result: ProcessResult, error: Option<ProcessError>): Action {
    if error == Some(InvalidEvent) || error == Some(InvalidJob) then Terminate
    else if error.Some? || result.AlreadyProcessing? then Retry
    else if result.JobDead? then Terminate else Ack
  }

  /** The result names the terminal state of the event's receipt. */
  predicate Reports(t: Tables, e: Event, result: ProcessResult) {
    || (result.JobSucceeded? && EndedAs(t, e.job, Succeeded))
    || (result.JobDead? && EndedAs(t, e.job, ReceiptState.Dead))
  }

  datatype Action = Ack | Retry | Terminate

  class Cleanup {
    const store: ReceiptStore
    var pipe: Pipe
    var turn: nat
    const others: (nat, World) -> World
    const maxAttempts: nat
    const acknowledger: bool

    ghost predicate Valid()
      reads this, store
    {
      && maxAttempts >= 1 && Rely(others, maxAttempts)
      && P.Reachable(pipe) && store.Valid(maxAttempts) && Coupled(pipe, store.t)
    }

    constructor (clock: Time, others: (nat, World) -> World, maxAttempts: nat, acknowledger: bool)
      requires maxAttempts >= 1 && Rely(others, maxAttempts)
      ensures Valid() && fresh(store) && P.Start(pipe) && this.acknowledger == acknowledger
    {
      store := new ReceiptStore(clock);
      pipe, turn := Pipe(map[], map[], map[], {}, {}), 0;
      this.others, this.maxAttempts, this.acknowledger := others, maxAttempts, acknowledger;
      new;
      P.ReachesSelf(pipe);
    }

    method Interfere()
      requires Valid()
      modifies this, store
      ensures Valid() && P.Reaches(old(pipe), pipe) && TablesLater(old(store.t), store.t)
    {
      var w := World(pipe, store.t, store.clock, store.nextId);
      var next := others(turn, w);
      assert MayBecome(w, next, maxAttempts);
      pipe, turn := next.pipe, turn + 1;
      store.t, store.clock, store.nextId := next.tables, next.clock, next.nextId;
    }

    // -------------------------------------------------------------- processing one job

    /** Claims an attempt; a job that has already ended is reported as such. */
    method StartJob(e: Event) returns (r: StartResult)
      requires Valid() && Known(pipe, e)
      modifies this, store
      ensures Valid() && P.Reaches(old(pipe), pipe) && Known(pipe, e)
      ensures r.Claimed? || r.AlreadySucceeded? || r == NotStarted(ErrJobProcessing) || r == NotStarted(ErrJobDead)
      ensures r.AlreadySucceeded? || r == NotStarted(ErrJobDead) ==> e.job in pipe.ended
      ensures r.AlreadySucceeded? ==> EndedAs(store.t, e.job, Succeeded)
      ensures r == NotStarted(ErrJobDead) ==> EndedAs(store.t, e.job, ReceiptState.Dead)
      ensures r.Claimed? ==> r.attempt.id in store.t.index && store.t.index[r.attempt.id].0 == e.job
    {
      ghost var before, clock := store.t, store.clock;
      r := store.Start(e.job, KindCode(e.kind), "event", maxAttempts);
      StartCoupled(pipe, before, store.t, e, maxAttempts, clock, store.clock, r);
      MoveReaches(pipe, P.End(e.job));
      P.ReachesSelf(pipe);
      if r.AlreadySucceeded? || r == NotStarted(ErrJobDead) {
        pipe := pipe.(ended := pipe.ended + {e.job});
      }
    }

    /** Records the end of an attempt: None when the attempt had been reclaimed meanwhile. */
    method FinishJob(e: Event, id: AttemptId, error: Option<string>) returns (dead: Option<bool>)
      requires Valid() && Known(pipe, e) && id in store.t.index && store.t.index[id].0 == e.job
      modifies this, store
      ensures Valid() && P.Reaches(old(pipe), pipe) && Known(pipe, e)
      ensures dead.Some? && (error.None? || dead.value) ==> e.job in pipe.ended
      ensures dead.Some? && error.None? ==> EndedAs(store.t, e.job, Succeeded)
      ensures dead.Some? && error.Some? ==> EndedAs(store.t, e.job, if dead.value then ReceiptState.Dead else Failed)
      ensures dead.None? ==> store.t == old(store.t) && pipe == old(pipe)
    {
      ghost var before, clock := store.t, store.clock;
      var r := store.FinishAttempt(id, error, "event", maxAttempts);
      MoveReaches(pipe, P.End(e.job));
      P.ReachesSelf(pipe);
      if r.NotFinished? {
        return None;
      }
      RunningIsOpen(before, e.job, before.index[id].1, maxAttempts, clock);
      FinishCoupled(pipe, before, store.t, e.job, before.index[id].1, error, maxAttempts, clock, r.dead);
      if error.None? || r.dead {
        pipe := pipe.(ended := pipe.ended + {e.job});
      }
      dead := Some(r.dead);
    }

    /** Runs the handler and records its outcome. Shutdown leaves the lease for redelivery. */
    method RunAttempt(e: Event, f: J.JobEvent, a: Attempt) returns (result: ProcessResult, error: Option<ProcessError>)
      requires Valid() && Known(pipe, e) && Decodes(e, f) && a.id in store.t.index && store.t.index[a.id].0 == e.job
      modifies this, store
      ensures Valid() && P.Reaches(old(pipe), pipe) && Known(pipe, e)
      ensures error.None? || error.value.OtherError?
      ensures error.None? ==> Reports(store.t, e, result) && e.job in pipe.ended
    {
      ghost var before := store.t;
      assert JobHolds(before, e.job, maxAttempts, store.clock);
      ghost var start := pipe;
      ghost var position := store.t.index[a.id].1;
      Interfere();
      StaysKnown(start, pipe, e);
      AttemptStays(before, store.t, e.job, position, maxAttempts, store.clock);
      var cancelled: bool := *;
      if cancelled {
        return Unfinished, Some(OtherError);
      }
      var check := J.HandlerCheck(f);
      J.ValidEventsAreNeverRefused(f, "event", maxAttempts, true);
      var failed: bool := *;
      failed := failed || check.InvalidJob?;
      var problem: string := *;
      ghost var resumed := pipe;
      var dead := FinishJob(e, a.id, if failed then Some(problem) else None);
      P.ReachesTransitive(start, resumed, pipe);
      if dead.None? {
        return Unfinished, Some(OtherError);
      }
      if failed && !dead.value {
        return Unfinished, Some(ErrorOf(check));
      }
      result, error := if failed then JobDead else JobSucceeded, None;
    }

    /** Tells the API that a managed object's job has ended, so that it releases the claim. */
    method AcknowledgeCleanup(e: Event, f: J.JobEvent, ghost result: ProcessResult) returns (error: Option<ProcessError>)
      requires Valid() && Known(pipe, e) && Decodes(e, f) && P.Tracked(e) && e.job in pipe.ended && Reports(store.t, e, result)
      modifies this, store
      ensures Valid() && P.Reaches(old(pipe), pipe) && Known(pipe, e) && e.job in pipe.ended && Reports(store.t, e, result)
      ensures error.None? || error.value.OtherError?
      ensures error.None? ==> !P.Claimed(pipe, e)
    {
      ghost var start := pipe;
      ghost var before, clock := store.t, store.clock;
      Interfere();
      EndedStays(before, store.t, e.job, if result.JobDead? then ReceiptState.Dead else Succeeded, maxAttempts, clock);
      StaysKnown(start, pipe, e);
      P.ReachesLater(start, pipe);
      var required := J.RequiresAcknowledgement(f.objectKey);
      var check := J.AcknowledgementCheck(f, required);
      J.ValidEventsAreNeverRefused(f, "event", maxAttempts, required);
      var refused: bool := *;
      if !acknowledger || refused || check.InvalidJob? {
        return Some(ErrorOf(check));
      }
      ghost var resumed := pipe;
      MoveReaches(pipe, P.Acknowledge(e.key, e.job));
      pipe := P.Apply(pipe, P.Acknowledge(e.key, e.job));
      P.ReachesTransitive(start, resumed, pipe);
      var unanswered: bool := *;
      error := if unanswered then Some(OtherError) else None;
    }

    /** Start, handle, finish, and then, for a tracked object of an ended job, acknowledge: the
        acknowledgement's failure becomes the result's. */
    method Process(payload: Option<Event>, f: J.JobEvent) returns (result: ProcessResult, error: Option<ProcessError>)
      requires Valid() && (payload.Some? ==> Known(pipe, payload.value) && Decodes(payload.value, f))
      modifies this, store
      ensures Valid() && P.Reaches(old(pipe), pipe)
      ensures payload.None? <==> error == Some(InvalidEvent)
      ensures error != Some(InvalidJob)
      ensures error.None? ==> result.AlreadyProcessing? || P.Settled(pipe, payload.value)
      ensures error.None? && !result.AlreadyProcessing? ==> Reports(store.t, payload.value, result)
    {
      P.ReachesSelf(pipe);
      if payload.None? {
        return Unfinished, Some(InvalidEvent);
      }
      var e := payload.value;
      result, error := ProcessEvent(e, f);
      if error.Some? || result.AlreadyProcessing? || !P.Tracked(e) {
        return;
      }
      ghost var processed := pipe;
      error := AcknowledgeCleanup(e, f, result);
      P.ReachesTransitive(old(pipe), processed, pipe);
    }

    method ProcessEvent(e: Event, f: J.JobEvent) returns (result: ProcessResult, error: Option<ProcessError>)
      requires Valid() && Known(pipe, e) && Decodes(e, f)
      modifies this, store
      ensures Valid() && P.Reaches(old(pipe), pipe) && Known(pipe, e)
      ensures error.None? || error.value.OtherError?
      ensures error.None? && !result.AlreadyProcessing? ==> Reports(store.t, e, result) && e.job in pipe.ended
    {
      var started := StartJob(e);
      if started == NotStarted(ErrJobProcessing) {
        return AlreadyProcessing, None;
      }
      if started.NotStarted? {
        return JobDead, None;
      }
      if started.AlreadySucceeded? {
        return JobSucceeded, None;
      }
      ghost var claimed := pipe;
      result, error := RunAttempt(e, f, started.attempt);
      P.ReachesTransitive(old(pipe), claimed, pipe);
    }

    // -------------------------------------------------------------- consuming messages

    /** What to do with a delivered message: decodable ones go only when they are settled. */
    method Decide(payload: Option<Event>, f: J.JobEvent) returns (action: Action)
      requires Valid() && (payload.Some? ==> Known(pipe, payload.value) && Decodes(payload.value, f))
      modifies this, store
      ensures Valid() && P.Reaches(old(pipe), pipe)
      ensures payload.None? ==> action.Terminate?
      ensures payload.Some? && !action.Retry? ==> P.Settled(pipe, payload.value)
      ensures payload.Some? && action.Ack? ==> EndedAs(store.t, payload.value.job, Succeeded)
      ensures payload.Some? && action.Terminate? ==> EndedAs(store.t, payload.value.job, ReceiptState.Dead)
    {
      var result, error := Process(payload, f);
      action := Resolve(result, error);
    }

    /** Works through a fetched batch; a message leaves the broker only by Remove. */
    method ConsumeMessages(messages: seq<Delivery>) returns (acked: nat, naked: nat, terminated: nat, failed: bool)
      requires Valid()
      requires forall i :: 0 <= i < |messages| ==> Fetched(pipe, messages[i])
      modifies this, store
      ensures Valid() && P.Reaches(old(pipe), pipe)
      ensures acked + naked + terminated <= |messages| && (!failed ==> acked + naked + terminated == |messages|)
    {
      acked, naked, terminated, failed := 0, 0, 0, false;
      P.ReachesSelf(pipe);
      for i := 0 to |messages|
        invariant Valid() && P.Reaches(old(pipe), pipe)
        invariant forall k :: i <= k < |messages| ==> Fetched(pipe, messages[k])
        invariant acked + naked + terminated == i && !failed
      {
        ghost var before := pipe;
        var action := Decide(messages[i].event, messages[i].fields);
        ghost var decided := pipe;
        var lost := ApplyAction(messages[i].message, messages[i].event, action);
        P.ReachesTransitive(before, decided, pipe);
        P.ReachesTransitive(old(pipe), before, pipe);
        if lost {
          return acked, naked, terminated, true;
        }
        AllStayKnown(before, pipe, messages);
        match action {
          case Ack => acked := acked + 1;
          case Retry => naked := naked + 1;
          case Terminate => terminated := terminated + 1;
        }
      }
    }

    /** Acknowledges or terminates the message at the broker; the call may fail, before or after. */
    method ApplyAction(message: MessageId, payload: Option<Event>, action: Action) returns (failed: bool)
      requires Valid()
      requires payload.Some? && !action.Retry? ==> P.Settled(pipe, payload.value)
      modifies this
      ensures Valid() && P.Reaches(old(pipe), pipe)
      ensures pipe == old(pipe) || (!action.Retry? && pipe == old(pipe).(broker := old(pipe).broker - {message}))
    {
      P.ReachesSelf(pipe);
      var reached: bool := *;
      if reached && !action.Retry? && message in pipe.broker && pipe.broker[message] == payload {
        MoveReaches(pipe, P.Remove(message));
        pipe := P.Apply(pipe, P.Remove(message));
      }
      failed := *;
    }

    // -------------------------------------------------------------- publishing

    /** Publishes one due record and marks it; a failed publish may still have stored the message. */
    method PublishOne(job: nat) returns (published: bool, failed: bool)
      requires Valid() && job in pipe.outbox
      modifies this, store
      ensures Valid() && P.Reaches(old(pipe), pipe)
      ensures published ==> job in pipe.sent && job in pipe.outbox && pipe.outbox[job].state.Published?
    {
      ghost var start := pipe;
      Interfere();
      P.ReachesLater(start, pipe);
      ghost var resumed := pipe;
      var stored: bool, answered: bool := *, *;
      if stored || answered {
        UnusedExists(pipe.broker.Keys);
        var message: nat :| message !in pipe.broker;
        MoveReaches(pipe, P.Publish(job, message));
        pipe := P.Apply(pipe, P.Publish(job, message));
      } else {
        P.ReachesSelf(pipe);
      }
      P.ReachesTransitive(start, resumed, pipe);
      ghost var sent := pipe;
      published, failed := Mark(job, answered);
      P.ReachesTransitive(start, sent, pipe);
    }

    method Mark(job: nat, answered: bool) returns (published: bool, failed: bool)
      requires Valid() && job in pipe.outbox && (answered ==> job in pipe.sent)
      modifies this, store
      ensures Valid() && P.Reaches(old(pipe), pipe)
      ensures published ==> job in pipe.sent && job in pipe.outbox && pipe.outbox[job].state.Published?
    {
      ghost var start := pipe;
      Interfere();
      P.ReachesLater(start, pipe);
      ghost var resumed := pipe;
      published, failed := false, pipe.outbox[job].state.Published?;
      if failed {
        return;
      }
      published := answered;
      var m := if answered then P.MarkPublished(job) else P.MarkFailed(job);
      MoveReaches(pipe, m);
      pipe := P.Apply(pipe, m);
      P.ReachesTransitive(start, resumed, pipe);
    }

    /** The publisher's loop over the records that were due. */
    method PublishDue(due: seq<nat>) returns (published: nat, retried: nat, failed: bool, ghost done: seq<nat>)
      requires Valid() && forall i :: 0 <= i < |due| ==> due[i] in pipe.outbox
      modifies this, store
      ensures Valid() && P.Reaches(old(pipe), pipe)
      ensures published + retried <= |due| && (!failed ==> published + retried == |due|)
      ensures |done| == published && forall i :: 0 <= i < |done| ==> done[i] in due && done[i] in pipe.sent
    {
      published, retried, failed, done := 0, 0, false, [];
      P.ReachesSelf(pipe);
      for i := 0 to |due|
        invariant Valid() && P.Reaches(old(pipe), pipe)
        invariant forall k :: 0 <= k < |due| ==> due[k] in pipe.outbox
        invariant published + retried == i && !failed
        invariant |done| == published && forall k :: 0 <= k < |done| ==> done[k] in due && done[k] in pipe.sent
      {
        ghost var before := pipe;
        var ok, stop := PublishOne(due[i]);
        P.ReachesLater(before, pipe);
        P.ReachesTransitive(old(pipe), before, pipe);
        if stop && !ok {
          return published, retried, true, done;
        }
        if ok {
          published, done := published + 1, done + [due[i]];
        } else {
          retried := retried + 1;
        }
      }
    }
  }

  lemma MoveReaches(p: Pipe, m: P.Move)
    requires P.Reachable(p) && P.Allowed(p, m)
    ensures P.Reaches(p, P.Apply(p, m)) && P.Reachable(P.Apply(p, m))
  {
    P.OneMove(p, m);
    P.ReachesReachable(p, P.Apply(p, m));
  }

  lemma RunningIsOpen(t: Tables, job: nat, i: nat, limit: nat, clock: Time)
    requires TablesOk(t, limit, clock) && job in t.history && i < |t.history[job]| && t.history[job][i].result.Running?
    ensures job in t.receipts && !Terminal(t, job)
  {
    assert JobHolds(t, job, limit, clock);
    OneRunning(t.receipts[job], t.history[job], job in t.letters, limit, clock, i);
  }

  lemma AttemptStays(t: Tables, u: Tables, job: nat, i: nat, limit: nat, clock: Time)
    requires TablesLater(t, u) && IndexOk(u) && job in t.receipts && job in t.history && i < |t.history[job]|
    ensures t.history[job][i].id in u.index && u.index[t.history[job][i].id] == (job, i)
  {}

  lemma AllStayKnown(p: Pipe, q: Pipe, messages: seq<Delivery>)
    requires P.Reachable(p) && P.Reaches(p, q)
    ensures forall i :: 0 <= i < |messages| && Fetched(p, messages[i]) ==> Fetched(q, messages[i])
  {
    P.ReachesLater(p, q);
  }

}
