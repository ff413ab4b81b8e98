/** The submitter's half of the protocol: what a browser may conclude when it inspects or cancels
    its own upload attempt. Every call is an ordinary store call; anything may happen in between,
    including late arrivals of this client's own earlier messages. */
module ClientCancel {
  import opened Common
  import opened RequestProtocol
  import opened RequestInvariant
  import opened RequestTheorems
  import opened RequestAnswers
  import RequestStore
  import R = Runs

  datatype Outcome = Renewed(generation: int) | WasAccepted | StillUploading | StillWaiting | NotAvailable | Thrown

  ghost predicate AcceptedAs(s: Sys, id: Id, generation: int, attempt: Digest) {
    id in s.accepted && s.accepted[id].generation == generation && s.accepted[id].claim.attempt == attempt
  }

  /** The attempt was not accepted and no message of it can be accepted any more. */
  ghost predicate Dead(s: Sys, id: Id, generation: int, attempt: Digest) {
    && id in s.ids && !AcceptedAs(s, id, generation, attempt)
    && (id in s.requests ==>
          && generation <= s.requests[id].generation
          && (s.requests[id].generation == generation ==>
                !s.requests[id].phase.Waiting? && HeldAttempt(s.requests[id].phase) != Some(attempt)))
  }

  lemma DeadStep(s: Sys, m: Move, id: Id, generation: int, attempt: Digest)
    requires Inv(s) && Allowed(s, m) && Dead(s, id, generation, attempt)
    ensures Dead(Apply(s, m), id, generation, attempt)
  {}

  lemma DeadForever(s: Sys, t: Sys, id: Id, generation: int, attempt: Digest)
    requires Reachable(s) && Reaches(s, t) && Dead(s, id, generation, attempt)
    ensures Dead(t, id, generation, attempt)
  {
    ReachableInv(s);
    forall x, y | Inv(x) && Dead(x, id, generation, attempt) && Next(x, y) ensures Inv(y) && Dead(y, id, generation, attempt) {
      var m :| Allowed(x, m) && y == Apply(x, m);
      MoveKeeps(x, m);
      DeadStep(x, m, id, generation, attempt);
    }
    var n :| R.Steps(Next, s, n, t);
    R.Holds(Next, x => Inv(x) && Dead(x, id, generation, attempt), s, n, t);
  }

  lemma AcceptedForever(s: Sys, t: Sys, id: Id, generation: int, attempt: Digest)
    requires Reachable(s) && Reaches(s, t) && AcceptedAs(s, id, generation, attempt)
    ensures AcceptedAs(t, id, generation, attempt)
  {
    ReachesLater(s, t);
  }

  /** What each answer proves about the attempt. */
  ghost predicate Proves(s: Sys, id: Id, generation: int, attempt: Digest, outcome: Outcome) {
    && (outcome.WasAccepted? ==> AcceptedAs(s, id, generation, attempt))
    && (outcome.Renewed? || outcome.NotAvailable? ==> Dead(s, id, generation, attempt))
    && (outcome.Renewed? ==> generation < outcome.generation)
  }

  lemma StandingProves(s: Sys, id: Id, generation: int, attempt: Digest)
    requires Reachable(s) && id in s.requests && s.requests[id].generation == generation
    ensures AttemptStanding(s.requests[id], attempt).IsAccepted? ==> AcceptedAs(s, id, generation, attempt)
    ensures AttemptStanding(s.requests[id], attempt).IsUnavailable? ==> Dead(s, id, generation, attempt)
  {
    ReachableInv(s);
    assert RequestOk(s, id);
  }

  lemma NewerIsDead(s: Sys, id: Id, generation: int, attempt: Digest)
    requires Reachable(s) && id in s.requests && generation < s.requests[id].generation && s.requests[id].phase.Waiting?
    ensures Dead(s, id, generation, attempt)
  {
    ReachableInv(s);
    assert RequestOk(s, id);
  }

  lemma AbandonedIsDead(s: Sys, t: Sys, clock: Time, id: Id, generation: int, attempt: Digest, answer: Answer<Receipt>)
    requires Reachable(s) && AbandonEffect(s, t, clock, id, generation, attempt, answer) && answer.Ok?
    ensures Dead(t, id, generation, attempt)
  {
    ReachableInv(s);
    assert RequestOk(s, id);
  }

  lemma ReservedSubmitted(s: Sys, t: Sys, commit: Time, sign: Time, id: Id, input: UploadInput, objects: bool, answer: Answer<UploadResult>)
    requires Reachable(s) && ReserveEffect(s, t, commit, sign, id, input, objects, answer)
    requires answer.Ok? && answer.value.receipt.standing.IsSubmitted?
    ensures AcceptedAs(t, id, input.generation, input.attempt.value)
  {
    ReachableInv(s);
    assert RequestOk(s, id);
  }

  /** Asks whether a newer generation is open, the only evidence that permits a new attempt. */
  method CheckRenewed(store: RequestStore.Store, id: Id, token: Option<Digest>, generation: int, ghost attempt: Digest, otherwise: Outcome)
    returns (outcome: Outcome)
    requires store.Valid() && (otherwise.Thrown? || (otherwise.NotAvailable? && Dead(store.sys, id, generation, attempt)))
    modifies store
    ensures store.Valid() && Reaches(old(store.sys), store.sys)
    ensures Proves(store.sys, id, generation, attempt, outcome)
    ensures outcome.Renewed? || outcome.Thrown? || outcome == otherwise
  {
    ghost var start := store.sys;
    store.Interfere();
    ghost var arrived := store.sys;
    var answer, seen := store.Instructions(id, token);
    ReachesTransitive(start, arrived, store.sys);
    if otherwise.NotAvailable? {
      DeadForever(start, store.sys, id, generation, attempt);
    }
    var lost: bool := *;
    if lost || answer.Err? {
      return Thrown;
    }
    if answer.value.0 > generation && answer.value.1 {
      NewerIsDead(store.sys, id, generation, attempt);
      return Renewed(answer.value.0);
    }
    outcome := otherwise;
  }

  /** Looks up where the attempt stands; a 404 is checked against the current generation. */
  method Inspect(store: RequestStore.Store, id: Id, token: Option<Digest>, input: UploadInput) returns (outcome: Outcome)
    requires store.Valid() && input.attempt.Some?
    modifies store
    ensures store.Valid() && Reaches(old(store.sys), store.sys)
    ensures Proves(store.sys, id, input.generation, input.attempt.value, outcome)
  {
    var answer, seen := store.Attempt(id, token, input.generation, input.attempt);
    var lost: bool := *;
    if lost || (answer.Err? && answer.error != ErrUnavailable) {
      return Thrown;
    }
    if answer.Err? {
      ghost var asked := store.sys;
      outcome := CheckRenewed(store, id, token, input.generation, input.attempt.value, Thrown);
      ReachesTransitive(old(store.sys), asked, store.sys);
      return;
    }
    StandingProves(store.sys, id, input.generation, input.attempt.value);
    outcome := OutcomeOf(answer.value.standing);
  }

  function OutcomeOf(standing: Standing): Outcome {
    match standing
    case IsAccepted => WasAccepted
    case IsSubmitted => WasAccepted
    case IsUploading => StillUploading
    case IsWaiting => StillWaiting
    case IsUnavailable => NotAvailable
  }

  /** Re-establishes a reservation whose response may have been lost, so that abandoning it fences
      any late server work. */
  method Establish(store: RequestStore.Store, id: Id, token: Option<Digest>, input: UploadInput) returns (outcome: Outcome)
    requires store.Valid() && input.attempt.Some?
    modifies store
    ensures store.Valid() && Reaches(old(store.sys), store.sys)
    ensures outcome.WasAccepted? || outcome.StillUploading? || outcome.Thrown?
    ensures outcome.WasAccepted? ==> AcceptedAs(store.sys, id, input.generation, input.attempt.value)
  {
    ghost var start := store.sys;
    store.Interfere();
    ghost var arrived := store.sys;
    var answer, seen := store.Reserve(id, token, input);
    ReachesTransitive(start, arrived, seen);
    ReachesTransitive(start, seen, store.sys);
    var lost: bool := *;
    if lost || answer.Err? {
      return Thrown;
    }
    if answer.value.receipt.standing.IsSubmitted? {
      ReachesReachable(arrived, seen);
      ghost var commit :| ReserveEffect(seen, store.sys, commit, store.world.clock, id, input, store.objects, answer);
      ReservedSubmitted(seen, store.sys, commit, store.world.clock, id, input, store.objects, answer);
      return WasAccepted;
    }
    outcome := StillUploading;
  }

  method GiveUp(store: RequestStore.Store, id: Id, token: Option<Digest>, input: UploadInput) returns (outcome: Outcome)
    requires store.Valid() && input.attempt.Some?
    modifies store
    ensures store.Valid() && Reaches(old(store.sys), store.sys)
    ensures outcome.Thrown? || outcome.NotAvailable?
    ensures outcome.NotAvailable? ==> Dead(store.sys, id, input.generation, input.attempt.value)
  {
    ghost var start := store.sys;
    store.Interfere();
    ghost var arrived := store.sys;
    var answer, seen := store.Abandon(id, token, input.generation, input.attempt);
    ReachesTransitive(start, arrived, seen);
    ReachesTransitive(start, seen, store.sys);
    var lost: bool := *;
    if lost || answer.Err? {
      return Thrown;
    }
    ReachesReachable(arrived, seen);
    AbandonedIsDead(seen, store.sys, store.world.clock, id, input.generation, input.attempt.value, answer);
    outcome := NotAvailable;
  }

  /** Cancels an upload. `Renewed` and `NotAvailable` mean the attempt was never accepted and never
      will be, whatever of it is still on the way; `WasAccepted` means it was. */
  method Cancel(store: RequestStore.Store, id: Id, token: Option<Digest>, input: UploadInput) returns (outcome: Outcome)
    requires store.Valid() && input.attempt.Some?
    modifies store
    ensures store.Valid() && Reaches(old(store.sys), store.sys)
    ensures outcome.Renewed? || outcome.WasAccepted? || outcome.NotAvailable? || outcome.Thrown?
    ensures Proves(store.sys, id, input.generation, input.attempt.value, outcome)
    ensures outcome.Renewed? || outcome.NotAvailable? ==>
              forall t :: Reaches(store.sys, t) ==> !AcceptedAs(t, id, input.generation, input.attempt.value)
  {
    outcome := Settle(store, id, token, input);
    if outcome.Renewed? || outcome.NotAvailable? {
      forall t | Reaches(store.sys, t) ensures !AcceptedAs(t, id, input.generation, input.attempt.value) {
        DeadForever(store.sys, t, id, input.generation, input.attempt.value);
      }
    }
  }

  method Settle(store: RequestStore.Store, id: Id, token: Option<Digest>, input: UploadInput) returns (outcome: Outcome)
    requires store.Valid() && input.attempt.Some?
    modifies store
    ensures store.Valid() && Reaches(old(store.sys), store.sys)
    ensures outcome.Renewed? || outcome.WasAccepted? || outcome.NotAvailable? || outcome.Thrown?
    ensures Proves(store.sys, id, input.generation, input.attempt.value, outcome)
  {
    outcome := Inspect(store, id, token, input);
    if outcome.Renewed? || outcome.WasAccepted? || outcome.NotAvailable? || outcome.Thrown? {
      return;
    }
    if outcome.StillWaiting? {
      ghost var inspected := store.sys;
      outcome := Establish(store, id, token, input);
      ReachesTransitive(old(store.sys), inspected, store.sys);
      if !outcome.StillUploading? {
        return;
      }
    }
    ghost var held := store.sys;
    outcome := GiveUp(store, id, token, input);
    ReachesTransitive(old(store.sys), held, store.sys);
    if outcome.Thrown? {
      return;
    }
    ghost var fenced := store.sys;
    outcome := CheckRenewed(store, id, token, input.generation, input.attempt.value, NotAvailable);
    ReachesTransitive(old(store.sys), fenced, store.sys);
  }
}
