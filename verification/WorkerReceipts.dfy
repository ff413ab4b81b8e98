/** The worker's durable receipts: which attempts of a job ran, and how the job ended.
    Rolling deployments share these tables, so every method may be called by anyone at any time. */
module WorkerReceipts {
  import opened Common

  const PROCESSING_LEASE: Time := 60 * SECOND
  const JOB_TIMEOUT: Time := 30 * SECOND

  type JobId = nat
  type AttemptId = nat

  datatype ReceiptState = Processing | Succeeded | Failed | Dead

  datatype Receipt = Receipt(
    kind: nat, state: ReceiptState, attempts: nat, lastError: Option<string>,
    firstSeenAt: Time, updatedAt: Time, completedAt: Option<Time>)

  datatype AttemptResult = Running | Done | Broke

  datatype Attempt = Attempt(
    id: AttemptId, number: nat, startedAt: Time, finishedAt: Option<Time>, result: AttemptResult, error: Option<string>)

  datatype DeadLetter = DeadLetter(kind: nat, payload: string, error: string, createdAt: Time)

  datatype WorkerError = ErrInvalidJob | ErrNotFound | ErrJobDead | ErrJobProcessing | ErrStaleAttempt

  datatype StartResult = Claimed(attempt: Attempt) | AlreadySucceeded | NotStarted(error: WorkerError)

  datatype FinishResult = Finished(dead: bool) | NotFinished(error: WorkerError)

  /** Handler failures spent: attempts that ended with an error, not interruptions. */
  function Failures(h: seq<Attempt>): nat {
    if h == [] then 0
    else Failures(h[..|h| - 1]) + (if h[|h| - 1].result.Broke? && h[|h| - 1].error.Some? then 1 else 0)
  }

  lemma FailuresAppend(h: seq<Attempt>, a: Attempt)
    ensures Failures(h + [a]) == Failures(h) + (if a.result.Broke? && a.error.Some? then 1 else 0)
  {}

  // ---------------------------------------------------------------- one job

  /** `a` is over when `b` starts: it failed and was recorded, or its lease ran out. */
  ghost predicate Before(a: Attempt, b: Attempt) {
    && a.result.Broke? && a.finishedAt.Some?
    && a.startedAt <= a.finishedAt.value <= b.startedAt
    && (a.error.None? ==> a.startedAt + PROCESSING_LEASE <= b.startedAt)
  }

  function Last(h: seq<Attempt>): Attempt
    requires h != []
  {
    h[|h| - 1]
  }

  /** The receipt, the attempts and the dead letter of one job tell one story. */
  ghost predicate JobOk(r: Receipt, h: seq<Attempt>, letter: bool, limit: nat, clock: Time) {
    && h != [] && |h| == r.attempts
    && (forall i :: 0 <= i < |h| ==> h[i].number == i + 1)
    && (forall i :: 0 <= i < |h| - 1 ==> Before(h[i], h[i + 1]))
    && Last(h).startedAt <= clock
    && Failures(h) <= limit
    && (letter <==> r.state.Dead?)
    && match r.state
       case Processing => Last(h).result.Running? && r.updatedAt == Last(h).startedAt && Failures(h) < limit
       case Succeeded => Last(h).result.Done?
       case Failed => EndedWithError(Last(h), clock)
       case Dead => EndedWithError(Last(h), clock) && Failures(h) == limit
  }

  ghost predicate EndedWithError(a: Attempt, clock: Time) {
    a.result.Broke? && a.error.Some? && a.finishedAt.Some? && a.startedAt <= a.finishedAt.value <= clock
  }

  lemma JobAges(r: Receipt, h: seq<Attempt>, letter: bool, limit: nat, clock: Time, later: Time)
    requires JobOk(r, h, letter, limit, clock) && clock <= later
    ensures JobOk(r, h, letter, limit, later)
  {}

  /** At most one attempt of a job is running, and it is the last one. */
  lemma OneRunning(r: Receipt, h: seq<Attempt>, letter: bool, limit: nat, clock: Time, i: nat)
    requires JobOk(r, h, letter, limit, clock) && i < |h| && h[i].result.Running?
    ensures i == |h| - 1 && r.state.Processing?
  {
    assert i < |h| - 1 ==> Before(h[i], h[i + 1]);
  }

  /** When the handler of an attempt has certainly stopped. */
  function HandlerEnd(a: Attempt): Time {
    if a.finishedAt.Some? && (a.result.Done? || a.error.Some?) then a.finishedAt.value else a.startedAt + JOB_TIMEOUT
  }

  /** The handler windows of two attempts of one job never overlap. */
  lemma {:induction false} WindowsDisjoint(r: Receipt, h: seq<Attempt>, letter: bool, limit: nat, clock: Time, i: nat, k: nat)
    requires JobOk(r, h, letter, limit, clock) && i < k < |h|
    ensures HandlerEnd(h[i]) <= h[k].startedAt
    decreases k
  {
    assert Before(h[k - 1], h[k]);
    if i < k - 1 {
      WindowsDisjoint(r, h, letter, limit, clock, i, k - 1);
    }
  }

  /** What one job may turn into: terminal jobs stay as they are, ended attempts are never rewritten,
      and attempts are only added at the end. */
  ghost predicate JobLater(r: Receipt, h: seq<Attempt>, r': Receipt, h': seq<Attempt>) {
    && (r.state.Succeeded? || r.state.Dead? ==> r' == r && h' == h)
    && r'.kind == r.kind && r.attempts <= r'.attempts && |h| <= |h'|
    && (forall i :: 0 <= i < |h| ==> h'[i].id == h[i].id && h'[i].number == h[i].number && h'[i].startedAt == h[i].startedAt)
    && (forall i :: 0 <= i < |h| && !h[i].result.Running? ==> h'[i] == h[i])
    && Failures(h) <= Failures(h')
  }

  // ---------------------------------------------------------------- the receipt tables

  datatype Tables = Tables(
    receipts: map<JobId, Receipt>, history: map<JobId, seq<Attempt>>, letters: map<JobId, DeadLetter>,
    index: map<AttemptId, (JobId, nat)>)

  ghost predicate JobHolds(t: Tables, job: JobId, limit: nat, clock: Time) {
    && (job in t.receipts <==> job in t.history)
    && (job in t.letters ==> job in t.receipts)
    && (job in t.receipts ==> JobOk(t.receipts[job], t.history[job], job in t.letters, limit, clock))
  }

  /** The primary-key index finds each attempt where it stands. */
  ghost predicate IndexOk(t: Tables) {
    && (forall id :: id in t.index ==>
          && t.index[id].0 in t.history && t.index[id].1 < |t.history[t.index[id].0]|
          && t.history[t.index[id].0][t.index[id].1].id == id)
    && (forall job, i :: job in t.history && 0 <= i < |t.history[job]| ==>
          t.history[job][i].id in t.index && t.index[t.history[job][i].id] == (job, i))
  }

  ghost predicate TablesOk(t: Tables, limit: nat, clock: Time) {
    (forall job :: JobHolds(t, job, limit, clock)) && IndexOk(t)
  }

  ghost predicate TablesLater(t: Tables, u: Tables) {
    forall job :: job in t.receipts && job in t.history ==>
      job in u.receipts && job in u.history && JobLater(t.receipts[job], t.history[job], u.receipts[job], u.history[job])
  }

  /** What the tables say of every job: numbered attempts without gaps, one of them running at most, no
      more handler failures than the limit, and a dead letter exactly when the job is dead. */
  lemma ReceiptGuarantees(t: Tables, limit: nat, clock: Time, job: JobId)
    requires TablesOk(t, limit, clock) && job in t.receipts
    ensures job in t.history && |t.history[job]| == t.receipts[job].attempts && Failures(t.history[job]) <= limit
    ensures forall i :: 0 <= i < |t.history[job]| ==> t.history[job][i].number == i + 1
    ensures forall i, k :: 0 <= i < k < |t.history[job]| ==>
              && !(t.history[job][i].result.Running?) && HandlerEnd(t.history[job][i]) <= t.history[job][k].startedAt
    ensures t.receipts[job].state.Dead? <==> job in t.letters
  {
    assert JobHolds(t, job, limit, clock);
    var r, h, letter := t.receipts[job], t.history[job], job in t.letters;
    forall i, k | 0 <= i < k < |h| ensures !h[i].result.Running? && HandlerEnd(h[i]) <= h[k].startedAt {
      assert Before(h[i], h[i + 1]);
      WindowsDisjoint(r, h, letter, limit, clock, i, k);
    }
  }

  /** Over any number of calls: a succeeded or dead job stays exactly as it is, and an attempt that has
      ended is never rewritten. */
  lemma LaterTransitive(t: Tables, u: Tables, v: Tables)
    requires TablesLater(t, u) && TablesLater(u, v)
    ensures TablesLater(t, v)
  {}

  /** `u` is `t` except for one job. */
  ghost predicate OnlyJob(t: Tables, u: Tables, job: JobId) {
    && (forall j :: j != job ==> (j in u.receipts <==> j in t.receipts) && (j in u.history <==> j in t.history) && (j in u.letters <==> j in t.letters))
    && (forall j :: j != job && j in t.receipts ==> u.receipts[j] == t.receipts[j])
    && (forall j :: j != job && j in t.history ==> u.history[j] == t.history[j])
  }

  lemma OnlyJobHolds(t: Tables, u: Tables, job: JobId, limit: nat, clock: Time, later: Time)
    requires TablesOk(t, limit, clock) && OnlyJob(t, u, job) && clock <= later
    requires JobHolds(u, job, limit, later)
    ensures forall j :: JobHolds(u, j, limit, later)
  {
    forall j ensures JobHolds(u, j, limit, later) {
      assert JobHolds(t, j, limit, clock);
      if j != job && j in t.receipts {
        JobAges(t.receipts[j], t.history[j], j in t.letters, limit, clock, later);
      }
    }
  }

  // ---------------------------------------------------------------- steps of one job

  function Interrupted(a: Attempt, now: Time): Attempt {
    if a.result.Running? then a.(result := Broke, finishedAt := Some(now), error := None) else a
  }

  /** Every running attempt of the job becomes interrupted: failed, with no error. */
  function InterruptRunning(h: seq<Attempt>, now: Time): seq<Attempt> {
    seq(|h|, i requires 0 <= i < |h| => Interrupted(h[i], now))
  }

  lemma InterruptLast(r: Receipt, h: seq<Attempt>, letter: bool, limit: nat, clock: Time, now: Time)
    requires JobOk(r, h, letter, limit, clock)
    ensures InterruptRunning(h, now) == h[..|h| - 1] + [Interrupted(Last(h), now)]
    ensures Failures(InterruptRunning(h, now)) == Failures(h)
  {
    var k := InterruptRunning(h, now);
    forall i | 0 <= i < |h| - 1 ensures k[i] == h[i] { assert Before(h[i], h[i + 1]); }
    FailuresAppend(h[..|h| - 1], Interrupted(Last(h), now));
    assert k == h[..|h| - 1] + [Interrupted(Last(h), now)];
  }

  /** Nothing of the job is running any more, so a next attempt may follow at `now`. */
  ghost predicate Idle(k: seq<Attempt>, limit: nat, now: Time) {
    && k != [] && Failures(k) < limit
    && (forall i :: 0 <= i < |k| ==> k[i].number == i + 1)
    && (forall i :: 0 <= i < |k| - 1 ==> Before(k[i], k[i + 1]))
    && Last(k).result.Broke? && Last(k).finishedAt.Some?
    && Last(k).startedAt <= Last(k).finishedAt.value <= now
    && (Last(k).error.None? ==> Last(k).startedAt + PROCESSING_LEASE <= now)
  }

  function Settled(r: Receipt, h: seq<Attempt>, now: Time): seq<Attempt> {
    if r.state.Processing? then InterruptRunning(h, now) else h
  }

  lemma SettledIsIdle(r: Receipt, h: seq<Attempt>, letter: bool, limit: nat, clock: Time, now: Time)
    requires JobOk(r, h, letter, limit, clock) && clock <= now && (r.state.Failed? || r.state.Processing?)
    requires r.state.Processing? ==> r.updatedAt + PROCESSING_LEASE <= now
    requires Failures(h) < limit
    ensures Idle(Settled(r, h, now), limit, now)
  {
    if r.state.Processing? {
      InterruptLast(r, h, letter, limit, clock, now);
      var k := InterruptRunning(h, now);
      forall i | 0 <= i < |k| - 1 ensures Before(k[i], k[i + 1]) { assert Before(h[i], h[i + 1]); }
    }
  }

  lemma IdleTakesAttempt(r: Receipt, k: seq<Attempt>, a: Attempt, limit: nat, now: Time)
    requires Idle(k, limit, now)
    requires a.number == |k| + 1 && a.startedAt == now && a.result.Running?
    requires r.state.Processing? && r.attempts == |k| + 1 && r.updatedAt == now
    ensures JobOk(r, k + [a], false, limit, now)
  {}

  lemma NextAttemptLater(r: Receipt, h: seq<Attempt>, r': Receipt, a: Attempt, letter: bool, limit: nat, clock: Time, now: Time)
    requires JobOk(r, h, letter, limit, clock) && (r.state.Failed? || r.state.Processing?)
    requires r'.kind == r.kind && r'.attempts == r.attempts + 1 && !a.result.Broke?
    ensures JobLater(r, h, r', Settled(r, h, now) + [a])
  {
    InterruptLast(r, h, letter, limit, clock, now);
    FailuresAppend(Settled(r, h, now), a);
  }

  lemma AttemptEnds(r: Receipt, h: seq<Attempt>, r': Receipt, h': seq<Attempt>, a: Attempt, limit: nat, clock: Time, now: Time)
    requires JobOk(r, h, false, limit, clock) && clock <= now && r.state.Processing?
    requires h' == h[..|h| - 1] + [a]
    requires a == Last(h).(result := if a.error.Some? then Broke else Done, finishedAt := Some(now), error := a.error)
    requires r'.kind == r.kind && r'.attempts == r.attempts
    requires r'.state == if a.error.None? then Succeeded else if Failures(h) + 1 >= limit then Dead else Failed
    ensures JobOk(r', h', r'.state.Dead?, limit, now) && JobLater(r, h, r', h')
    ensures Failures(h') == Failures(h) + (if a.error.Some? then 1 else 0)
  {}

  /** The newest recorded handler error. */
  function LastError(h: seq<Attempt>): Option<string> {
    if h == [] then None
    else if Last(h).result.Broke? && Last(h).error.Some? then Last(h).error
    else LastError(h[..|h| - 1])
  }

  lemma LastErrorExists(h: seq<Attempt>)
    requires Failures(h) > 0
    ensures LastError(h).Some?
  {}

  // ---------------------------------------------------------------- index upkeep

  lemma IndexSameIds(t: Tables, u: Tables, job: JobId)
    requires IndexOk(t) && u.index == t.index && job in t.history && job in u.history
    requires u.history == t.history[job := u.history[job]] && |u.history[job]| == |t.history[job]|
    requires forall i :: 0 <= i < |t.history[job]| ==> u.history[job][i].id == t.history[job][i].id
    ensures IndexOk(u)
  {}

  lemma IndexAppend(t: Tables, u: Tables, job: JobId, k: seq<Attempt>, a: Attempt)
    requires IndexOk(t) && a.id !in t.index
    requires k == [] ==> job !in t.history
    requires k != [] ==> job in t.history && |k| == |t.history[job]| && forall i :: 0 <= i < |k| ==> k[i].id == t.history[job][i].id
    requires u.history == t.history[job := k + [a]] && u.index == t.index[a.id := (job, |k|)]
    ensures IndexOk(u)
  {
    forall id | id in u.index
      ensures u.index[id].0 in u.history && u.index[id].1 < |u.history[u.index[id].0]|
           && u.history[u.index[id].0][u.index[id].1].id == id
    {
      if id != a.id { assert t.index[id].0 in t.history; }
    }
    forall j, i | j in u.history && 0 <= i < |u.history[j]|
      ensures u.history[j][i].id in u.index && u.index[u.history[j][i].id] == (j, i)
    {
      if j != job { assert t.history[j][i].id in t.index; }
      else if i < |k| { assert t.history[job][i].id in t.index; }
    }
  }

  // ---------------------------------------------------------------- the store

  /** Whether a delivery may claim a new attempt. */
  ghost predicate MayClaim(t: Tables, job: JobId, kind: nat, limit: nat, now: Time) {
    job in t.receipts ==>
      && job in t.history && t.receipts[job].kind == kind
      && (t.receipts[job].state.Failed? ||
          (t.receipts[job].state.Processing? && t.receipts[job].updatedAt + PROCESSING_LEASE <= now))
      && Failures(t.history[job]) < limit
  }

  /** What Start reports, judged on the tables it found. */
  ghost predicate StartAnswer(t: Tables, u: Tables, job: JobId, kind: nat, limit: nat, now: Time, r: StartResult) {
    match r
    case Claimed(a) =>
      && MayClaim(t, job, kind, limit, now)
      && job in u.receipts && u.receipts[job].state.Processing? && u.receipts[job].kind == kind
      && job in u.history && u.history[job] != []
      && a == Last(u.history[job]) && a.result.Running? && a.startedAt == now && a.id !in t.index
      && a.number == (if job in t.receipts then t.receipts[job].attempts else 0) + 1
    case AlreadySucceeded => job in t.receipts && t.receipts[job].state.Succeeded? && u == t
    case NotStarted(ErrJobProcessing) =>
      job in t.receipts && t.receipts[job].state.Processing? && now < t.receipts[job].updatedAt + PROCESSING_LEASE && u == t
    case NotStarted(ErrJobDead) => job in t.receipts && t.receipts[job].kind == kind && job in u.receipts && u.receipts[job].state.Dead?
    case NotStarted(ErrInvalidJob) => job in t.receipts && t.receipts[job].kind != kind && u == t
    case _ => false
  }

  /** The attempt at position `i` ended as reported, and the job with it. */
  ghost predicate Ends(t: Tables, u: Tables, job: JobId, i: nat, error: Option<string>, limit: nat, dead: bool) {
    && job in t.history && i < |t.history[job]| && job in u.receipts && job in u.history && i < |u.history[job]|
    && (dead <==> error.Some? && Failures(t.history[job]) + 1 >= limit)
    && Failures(u.history[job]) == Failures(t.history[job]) + (if error.Some? then 1 else 0)
    && u.receipts[job].state == (if error.None? then Succeeded else if dead then Dead else Failed)
    && u.history[job][i].result == (if error.None? then Done else Broke) && u.history[job][i].error == error
  }

  /** No job waits for a dead letter: tables that only current workers have written. */
  ghost predicate Current(t: Tables, limit: nat) {
    forall job :: job in t.receipts && job in t.history && t.receipts[job].state.Failed? ==> Failures(t.history[job]) < limit
  }

  class ReceiptStore {
    var t: Tables
    var clock: Time
    var nextId: nat

    ghost predicate Valid(limit: nat)
      reads this
    {
      TablesOk(t, limit, clock) && forall id :: id in t.index ==> id < nextId
    }

    constructor (clock: Time)
      ensures forall limit :: Valid(limit)
      ensures t == Tables(map[], map[], map[], map[])
    {
      this.t, this.clock, nextId := Tables(map[], map[], map[], map[]), clock, 0;
    }

    method Now(ghost limit: nat) returns (now: Time)
      requires Valid(limit)
      modifies this`clock
      ensures Valid(limit) && now == clock && old(clock) <= now
    {
      var passed: nat :| true;
      now := clock + passed;
      ClockMoves(t, limit, clock, now);
      clock := now;
    }

    /** Records a fresh running attempt after `k`, the job's settled history. */
    method Claim(job: JobId, receipt: Receipt, k: seq<Attempt>, now: Time, ghost limit: nat) returns (r: StartResult)
      requires TablesOk(t, limit, clock) && (forall id :: id in t.index ==> id < nextId) && clock == now && limit >= 1
      requires k == [] ==> job !in t.receipts && job !in t.history
      requires k != [] ==>
                 && job in t.receipts && (t.receipts[job].state.Failed? || t.receipts[job].state.Processing?)
                 && job in t.history && receipt == t.receipts[job] && k == Settled(receipt, t.history[job], now) && Idle(k, limit, now)
      requires receipt.attempts == |k|
      modifies this
      ensures Valid(limit) && OnlyJob(old(t), t, job) && TablesLater(old(t), t) && clock == old(clock)
      ensures r.Claimed? && job in t.receipts && t.receipts[job].state.Processing? && t.receipts[job].kind == receipt.kind
      ensures job in t.history && t.history[job] != []
      ensures r.attempt == Last(t.history[job]) && r.attempt.result.Running? && r.attempt.startedAt == now
      ensures r.attempt.number == receipt.attempts + 1 && r.attempt.id !in old(t).index
    {
      ghost var before := t;
      var a := Attempt(nextId, receipt.attempts + 1, now, None, Running, None);
      var updated := receipt.(state := Processing, attempts := receipt.attempts + 1, updatedAt := now, lastError := None);
      t := t.(receipts := t.receipts[job := updated], history := t.history[job := k + [a]], index := t.index[nextId := (job, |k|)]);
      nextId := nextId + 1;
      r := Claimed(a);
      Claimable(before, t, job, receipt, updated, k, a, limit, clock);
    }

    /** Finishes a dead-lettering that an older worker left half done, without another attempt. */
    method Bury(job: JobId, payload: string, now: Time, ghost limit: nat)
      requires Valid(limit) && clock == now && limit >= 1
      requires job in t.receipts && job in t.history && t.receipts[job].state.Failed? && Failures(t.history[job]) == limit
      modifies this`t
      ensures Valid(limit) && OnlyJob(old(t), t, job) && TablesLater(old(t), t)
      ensures job in t.receipts && t.receipts[job].state.Dead?
      ensures job in t.letters && Some(t.letters[job].error) == LastError(old(t).history[job])
    {
      ghost var before := t;
      var receipt, h := t.receipts[job], t.history[job];
      LastErrorExists(h);
      var error := LastError(h).value;
      var updated := receipt.(state := Dead, lastError := Some(error), updatedAt := now, completedAt := Some(now));
      t := t.(receipts := t.receipts[job := updated],
              letters := t.letters[job := DeadLetter(receipt.kind, payload, error, now)]);
      Buried(before, t, job, limit, clock);
    }

    /** Claims one attempt of a job, or says why not. A lease that ran out turns the running attempt
        into an interruption, which spends no failure budget. */
    method Start(job: JobId, kind: nat, payload: string, maxFailures: nat) returns (r: StartResult)
      requires Valid(maxFailures)
      modifies this
      ensures Valid(maxFailures) && OnlyJob(old(t), t, job) && TablesLater(old(t), t) && old(clock) <= clock
      ensures maxFailures < 1 ==> r == NotStarted(ErrInvalidJob) && t == old(t)
      ensures maxFailures >= 1 ==> StartAnswer(old(t), t, job, kind, maxFailures, clock, r)
      ensures maxFailures >= 1 ==> (r.Claimed? <==> MayClaim(old(t), job, kind, maxFailures, clock))
      ensures Current(old(t), maxFailures) ==> Current(t, maxFailures)
    {
      LaterSelf(t);
      if maxFailures < 1 {
        return NotStarted(ErrInvalidJob);
      }
      var now := Now(maxFailures);
      assert JobHolds(t, job, maxFailures, clock);
      if job !in t.receipts {
        r := Claim(job, Receipt(kind, Processing, 0, None, now, now, None), [], now, maxFailures);
        return;
      }
      var receipt := t.receipts[job];
      if receipt.kind != kind {
        return NotStarted(ErrInvalidJob);
      }
      if receipt.state.Succeeded? {
        return AlreadySucceeded;
      }
      if receipt.state.Dead? {
        return NotStarted(ErrJobDead);
      }
      if receipt.state.Processing? && now < receipt.updatedAt + PROCESSING_LEASE {
        return NotStarted(ErrJobProcessing);
      }
      r := Resume(job, payload, now, maxFailures);
    }

    method Resume(job: JobId, payload: string, now: Time, maxFailures: nat) returns (r: StartResult)
      requires Valid(maxFailures) && clock == now && maxFailures >= 1 && job in t.receipts && job in t.history
      requires t.receipts[job].state.Failed? ||
               (t.receipts[job].state.Processing? && t.receipts[job].updatedAt + PROCESSING_LEASE <= now)
      modifies this
      ensures Valid(maxFailures) && OnlyJob(old(t), t, job) && TablesLater(old(t), t) && clock == old(clock)
      ensures StartAnswer(old(t), t, job, old(t).receipts[job].kind, maxFailures, clock, r)
      ensures r.Claimed? <==> Failures(old(t).history[job]) < maxFailures
    {
      var receipt := t.receipts[job];
      assert JobHolds(t, job, maxFailures, clock);
      var k := Settled(receipt, t.history[job], now);
      InterruptLast(receipt, t.history[job], job in t.letters, maxFailures, clock, now);
      if Failures(k) >= maxFailures {
        Bury(job, payload, now, maxFailures);
        return NotStarted(ErrJobDead);
      }
      SettledIsIdle(receipt, t.history[job], job in t.letters, maxFailures, clock, now);
      r := Claim(job, receipt, k, now, maxFailures);
    }

    /** Records how an attempt ended, together with the receipt and, at the limit, the dead letter.
        A finish that comes after the attempt was reclaimed changes nothing. */
    method FinishAttempt(id: AttemptId, error: Option<string>, payload: string, maxFailures: nat) returns (r: FinishResult)
      requires Valid(maxFailures) && maxFailures >= 1
      modifies this
      ensures Valid(maxFailures) && TablesLater(old(t), t) && old(clock) <= clock
      ensures r == NotFinished(ErrNotFound) <==> id !in old(t).index
      ensures r.NotFinished? ==> t == old(t)
      ensures id in old(t).index ==>
                var (job, i) := old(t).index[id];
                && OnlyJob(old(t), t, job)
                && (r.Finished? <==> job in old(t).history && i < |old(t).history[job]| && old(t).history[job][i].result.Running?)
                && (r.Finished? ==> Ends(old(t), t, job, i, error, maxFailures, r.dead))
      ensures Current(old(t), maxFailures) ==> Current(t, maxFailures)
    {
      LaterSelf(t);
      if id !in t.index {
        return NotFinished(ErrNotFound);
      }
      var (job, i) := t.index[id];
      var attempt := t.history[job][i];
      assert JobHolds(t, job, maxFailures, clock);
      var receipt := t.receipts[job];
      if !attempt.result.Running? || !receipt.state.Processing? || receipt.attempts != attempt.number {
        OneRunningHere(receipt, t.history[job], job in t.letters, maxFailures, clock, i);
        return NotFinished(ErrStaleAttempt);
      }
      var now := Now(maxFailures);
      OneRunningHere(receipt, t.history[job], job in t.letters, maxFailures, clock, i);
      r := Record(job, i, error, payload, now, maxFailures);
    }

    method Record(job: JobId, i: nat, error: Option<string>, payload: string, now: Time, maxFailures: nat) returns (r: FinishResult)
      requires Valid(maxFailures) && maxFailures >= 1 && clock == now && job in t.receipts && job in t.history
      requires t.receipts[job].state.Processing? && i == |t.history[job]| - 1
      modifies this`t
      ensures Valid(maxFailures) && TablesLater(old(t), t) && OnlyJob(old(t), t, job)
      ensures r.Finished? && Ends(old(t), t, job, i, error, maxFailures, r.dead)
    {
      ghost var before := t;
      var receipt, h := t.receipts[job], t.history[job];
      assert JobHolds(t, job, maxFailures, clock);
      var ended := h[i].(result := if error.Some? then Broke else Done, finishedAt := Some(now), error := error);
      var k := h[..i] + [ended];
      FailuresAppend(h[..i], h[i]);
      FailuresAppend(h[..i], ended);
      assert h == h[..i] + [h[i]];
      var dead := error.Some? && Failures(k) >= maxFailures;
      var updated := receipt.(state := if error.None? then Succeeded else if dead then Dead else Failed,
                              lastError := error, updatedAt := now,
                              completedAt := if error.Some? && !dead then receipt.completedAt else Some(now));
      t := t.(receipts := t.receipts[job := updated], history := t.history[job := k],
              letters := if dead then t.letters[job := DeadLetter(receipt.kind, payload, error.value, now)] else t.letters);
      Recorded(before, t, job, ended, maxFailures, clock);
      r := Finished(dead);
    }
  }

  lemma LaterSelf(t: Tables)
    ensures TablesLater(t, t)
  {}

  lemma OneRunningHere(r: Receipt, h: seq<Attempt>, letter: bool, limit: nat, clock: Time, i: nat)
    requires JobOk(r, h, letter, limit, clock) && i < |h|
    ensures h[i].result.Running? ==> i == |h| - 1 && r.state.Processing? && r.attempts == h[i].number
  {
    if h[i].result.Running? { OneRunning(r, h, letter, limit, clock, i); }
  }

  lemma Buried(t: Tables, u: Tables, job: JobId, limit: nat, clock: Time)
    requires TablesOk(t, limit, clock) && job in t.receipts && job in t.history && job in u.receipts && job in u.letters
    requires t.receipts[job].state.Failed? && Failures(t.history[job]) == limit
    requires u.receipts == t.receipts[job := u.receipts[job]] && u.letters == t.letters[job := u.letters[job]]
    requires u.history == t.history && u.index == t.index
    requires u.receipts[job].state.Dead? && u.receipts[job].attempts == t.receipts[job].attempts && u.receipts[job].kind == t.receipts[job].kind
    ensures TablesOk(u, limit, clock) && OnlyJob(t, u, job) && TablesLater(t, u)
  {
    assert JobHolds(t, job, limit, clock);
    OnlyJobHolds(t, u, job, limit, clock, clock);
    SameLater(t, u, job, limit, clock);
  }

  lemma Recorded(t: Tables, u: Tables, job: JobId, ended: Attempt, limit: nat, clock: Time)
    requires TablesOk(t, limit, clock) && job in t.receipts && job in t.history && job in u.receipts
    requires t.receipts[job].state.Processing? && t.history[job] != []
    requires ended == Last(t.history[job]).(result := if ended.error.Some? then Broke else Done, finishedAt := Some(clock), error := ended.error)
    requires u.receipts == t.receipts[job := u.receipts[job]] && u.index == t.index
    requires u.history == t.history[job := t.history[job][..|t.history[job]| - 1] + [ended]]
    requires u.receipts[job].kind == t.receipts[job].kind && u.receipts[job].attempts == t.receipts[job].attempts
    requires u.receipts[job].state ==
             if ended.error.None? then Succeeded else if Failures(t.history[job]) + 1 >= limit then Dead else Failed
    requires if u.receipts[job].state.Dead? then job in u.letters && u.letters == t.letters[job := u.letters[job]] else u.letters == t.letters
    ensures TablesOk(u, limit, clock) && OnlyJob(t, u, job) && TablesLater(t, u)
  {
    assert JobHolds(t, job, limit, clock);
    AttemptEnds(t.receipts[job], t.history[job], u.receipts[job], u.history[job], ended, limit, clock, clock);
    OnlyJobHolds(t, u, job, limit, clock, clock);
    IndexSameIds(t, u, job);
    SameLater(t, u, job, limit, clock);
  }

  lemma ClockMoves(t: Tables, limit: nat, clock: Time, later: Time)
    requires TablesOk(t, limit, clock) && clock <= later
    ensures TablesOk(t, limit, later)
  {
    forall job ensures JobHolds(t, job, limit, later) { assert JobHolds(t, job, limit, clock); }
  }

  lemma Claimable(t: Tables, u: Tables, job: JobId, r: Receipt, r': Receipt, k: seq<Attempt>, a: Attempt, limit: nat, clock: Time)
    requires TablesOk(t, limit, clock) && a.id !in t.index && limit >= 1
    requires k == [] ==> job !in t.receipts && job !in t.history
    requires k != [] ==>
               && job in t.receipts && (t.receipts[job].state.Failed? || t.receipts[job].state.Processing?)
               && job in t.history && r == t.receipts[job] && k == Settled(r, t.history[job], clock) && Idle(k, limit, clock)
    requires r.attempts == |k| && a.number == |k| + 1 && a.startedAt == clock && a.result.Running?
    requires r'.state.Processing? && r'.attempts == |k| + 1 && r'.updatedAt == clock && r'.kind == r.kind
    requires u == t.(receipts := t.receipts[job := r'], history := t.history[job := k + [a]], index := t.index[a.id := (job, |k|)])
    ensures TablesOk(u, limit, clock) && OnlyJob(t, u, job) && TablesLater(t, u)
  {
    assert JobHolds(t, job, limit, clock);
    if k == [] {
      FirstAttempt(r', a, limit, clock);
    } else {
      IdleTakesAttempt(r', k, a, limit, clock);
      NextAttemptLater(r, t.history[job], r', a, false, limit, clock, clock);
    }
    OnlyJobHolds(t, u, job, limit, clock, clock);
    IndexAppend(t, u, job, k, a);
    SameLater(t, u, job, limit, clock);
  }

  lemma FirstAttempt(r: Receipt, a: Attempt, limit: nat, clock: Time)
    requires a.number == 1 && a.startedAt == clock && a.result.Running? && limit >= 1
    requires r.state.Processing? && r.attempts == 1 && r.updatedAt == clock
    ensures JobOk(r, [a], false, limit, clock)
  {}

  lemma SameLater(t: Tables, u: Tables, job: JobId, limit: nat, clock: Time)
    requires TablesOk(t, limit, clock) && OnlyJob(t, u, job)
    requires job in t.receipts && job in t.history ==>
               job in u.receipts && job in u.history && JobLater(t.receipts[job], t.history[job], u.receipts[job], u.history[job])
    ensures TablesLater(t, u)
  {}
}