/** What the store answers. Each decision is stated once on the request itself and once on the
    nullable columns the code reads, and the two are proved the same. */
module RequestAnswers {
  import opened Common
  import opened RequestProtocol
  import opened RequestTables

  datatype Error = ErrUnavailable | ErrConflict | ErrStorage | ErrInvalid | ErrTooLarge | ErrCancelled

  datatype Answer<+T> = Ok(value: T) | Err(error: Error)

  datatype Standing = IsSubmitted | IsAccepted | IsUploading | IsWaiting | IsUnavailable

  datatype Receipt = Receipt(generation: int, standing: Standing)

  /** Token hashes, envelopes, checksums and ciphertexts are None when they do not decode. */
  datatype SubmitInput = SubmitInput(
    generation: int, attempt: Option<Digest>, body: Digest, kind: Kind, size: int,
    envelope: Option<Digest>, encodedLength: int, ciphertext: Option<Blob>)

  datatype UploadInput = UploadInput(
    generation: int, attempt: Option<Digest>, body: Digest, kind: Kind, size: int,
    envelope: Option<Digest>, checksum: Option<Digest>)

  datatype UploadResult = UploadResult(receipt: Receipt, upload: Option<Key>, deadline: Option<Time>)

  /** What a finalize remembers of the reservation it saw. */
  datatype ObjectAttempt = ObjectAttempt(upload: Key, final: Key, spec: FileSpec)

  datatype Opened = Opened(blob: Blob, objectKey: Option<Key>)

  /** Deny: refuse. Repeat: the same attempt was accepted before. Resume: it holds the current
      reservation. Enter: make the transition. */
  datatype Verdict = Deny(error: Error) | Repeat | Resume | Enter

  /** The attempt a request has accepted, if any. */
  function AcceptedClaim(p: Phase): Option<Claim> {
    match p
    case Submitted(claim, _, _, _) => Some(claim)
    case Consumed(claim, _, _, _) => Some(claim)
    case Cancelled(_, receipt) => receipt
    case _ => None
  }

  function HeldAttempt(p: Phase): Option<Digest> {
    if p.Uploading? then Some(p.resv.claim.attempt) else None
  }

  function AcceptedAttempt(p: Phase): Option<Digest> {
    match AcceptedClaim(p)
    case Some(claim) => Some(claim.attempt)
    case None => None
  }

  // ---------------------------------------------------------------- submit

  function SubmitVerdict(q: Request, generation: int, claim: Claim): Verdict {
    if q.generation != generation then Deny(ErrUnavailable)
    else if q.phase.Waiting? then Enter
    else if AcceptedClaim(q.phase) == Some(claim) then Repeat
    else Deny(ErrConflict)
  }

  function SubmitRow(row: Row, generation: int, claim: Claim): Verdict {
    if generation != row.generation then Deny(ErrUnavailable)
    else if row.state.StUploading? then Deny(ErrConflict)
    else if row.state.StWaiting? then Enter
    else if row.attempt != Some(claim.attempt) || row.bodyHash != Some(claim.body) then Deny(ErrConflict)
    else Repeat
  }

  lemma SubmitRowSame(q: Request, generation: int, claim: Claim)
    ensures SubmitRow(Columns(q), generation, claim) == SubmitVerdict(q, generation, claim)
  {}

  // ---------------------------------------------------------------- attempt

  function AttemptStanding(q: Request, attempt: Digest): Standing {
    if AcceptedAttempt(q.phase) == Some(attempt) then IsAccepted
    else if HeldAttempt(q.phase) == Some(attempt) then IsUploading
    else if q.phase.Waiting? then IsWaiting
    else IsUnavailable
  }

  function AttemptRow(row: Row, attempt: Digest): Standing {
    if row.attempt == Some(attempt) then
      if row.state.StUploading? then IsUploading else IsAccepted
    else if row.state.StWaiting? then IsWaiting
    else IsUnavailable
  }

  lemma AttemptRowSame(q: Request, attempt: Digest)
    ensures AttemptRow(Columns(q), attempt) == AttemptStanding(q, attempt)
  {}

  // ---------------------------------------------------------------- reserve

  function ReserveVerdict(q: Request, generation: int, claim: Claim, objects: bool): Verdict {
    if q.generation != generation then Deny(ErrUnavailable)
    else if q.phase.Waiting? then if objects then Enter else Deny(ErrStorage)
    else if AcceptedClaim(q.phase) == Some(claim) then Repeat
    else if q.phase.Uploading? && q.phase.resv.claim == claim then if objects then Resume else Deny(ErrStorage)
    else Deny(ErrConflict)
  }

  function ReserveRow(row: Row, generation: int, claim: Claim, objects: bool): Verdict {
    if row.generation != generation then Deny(ErrUnavailable)
    else if !row.state.StWaiting? then
      if row.attempt != Some(claim.attempt) || row.bodyHash != Some(claim.body) then Deny(ErrConflict)
      else if !row.state.StUploading? then Repeat
      else if !objects || row.uploadKey.None? then Deny(ErrStorage)
      else Resume
    else if !objects then Deny(ErrStorage)
    else Enter
  }

  lemma ReserveRowSame(q: Request, generation: int, claim: Claim, objects: bool)
    ensures ReserveRow(Columns(q), generation, claim, objects) == ReserveVerdict(q, generation, claim, objects)
  {}

  // ---------------------------------------------------------------- finalize and abandon

  function FinalizeVerdict(q: Request, generation: int, attempt: Digest): Verdict {
    if q.generation != generation then Deny(ErrUnavailable)
    else if AcceptedAttempt(q.phase) == Some(attempt) then Repeat
    else if HeldAttempt(q.phase) == Some(attempt) then Enter
    else Deny(ErrConflict)
  }

  function FinalizeRow(row: Row, generation: int, attempt: Digest): Verdict {
    if generation != row.generation then Deny(ErrUnavailable)
    else if row.attempt != Some(attempt) then Deny(ErrConflict)
    else if row.state.StUploading? then Enter
    else if !row.state.StSubmitted? && !row.state.StConsumed? && !row.state.StCancelled? then Deny(ErrConflict)
    else Repeat
  }

  lemma FinalizeRowSame(q: Request, generation: int, attempt: Digest)
    ensures FinalizeRow(Columns(q), generation, attempt) == FinalizeVerdict(q, generation, attempt)
  {}

  function AbandonVerdict(q: Request, generation: int, attempt: Digest): Verdict {
    if q.generation != generation then Deny(ErrUnavailable)
    else if HeldAttempt(q.phase) == Some(attempt) then Enter
    else Deny(ErrConflict)
  }

  function AbandonRow(row: Row, generation: int, attempt: Digest): Verdict {
    if row.generation != generation then Deny(ErrUnavailable)
    else if !row.state.StUploading? || row.attempt != Some(attempt) then Deny(ErrConflict)
    else Enter
  }

  lemma AbandonRowSame(q: Request, generation: int, attempt: Digest)
    ensures AbandonRow(Columns(q), generation, attempt) == AbandonVerdict(q, generation, attempt)
  {}

  // ---------------------------------------------------------------- effects

  /** An answer only stands if it was committed before the request's deadline. */
  function Timely<T>(clock: Time, expires: Time, value: T): Answer<T> {
    if clock < expires then Ok(value) else Err(ErrUnavailable)
  }

  /** One timely move from `s` to `t`, or nothing and a refusal. */
  ghost predicate Commits<T(!new)>(s: Sys, t: Sys, m: Move, clock: Time, expires: Time, value: T, answer: Answer<T>) {
    && answer == Timely(clock, expires, value)
    && (answer.Ok? ==> Allowed(s, m) && t == Apply(s, m))
    && (answer.Err? ==> t == s)
  }

  ghost function SubmitMove(id: Id, input: SubmitInput, t: Time): Move
    requires input.attempt.Some? && input.envelope.Some? && input.ciphertext.Some?
  {
    AcceptInline(id, Claim(input.attempt.value, input.body), input.kind, input.envelope.value, input.ciphertext.value, t)
  }

  /** What a valid submission does to the request its transaction saw. */
  ghost predicate SubmitEffect(s: Sys, t: Sys, clock: Time, id: Id, input: SubmitInput, answer: Answer<Receipt>) {
    && id in s.requests && input.attempt.Some? && input.envelope.Some? && input.ciphertext.Some?
    && var q, receipt := s.requests[id], Receipt(input.generation, IsSubmitted);
       match SubmitVerdict(q, input.generation, Claim(input.attempt.value, input.body))
       case Deny(e) => answer == Err(e) && t == s
       case Enter => Commits(s, t, SubmitMove(id, input, clock), clock, q.expires, receipt, answer)
       case _ => answer == Timely(clock, q.expires, receipt) && t == s
  }

  function ReservationOf(input: UploadInput, upload: Key, final: Key, deadline: Time): Reservation
    requires input.attempt.Some? && input.envelope.Some? && input.checksum.Some?
  {
    Reservation(Claim(input.attempt.value, input.body), FileSpec(input.size, input.checksum.value), input.envelope.value,
                upload, final, deadline)
  }

  function Earlier(a: Time, b: Time): Time {
    if b < a then b else a
  }

  function HeldUpload(generation: int, r: Reservation): UploadResult {
    UploadResult(Receipt(generation, IsUploading), Some(r.upload), Some(r.deadline))
  }

  /** `t` is `s` with a new reservation of `input` on request `id`. */
  ghost predicate ReservesFor(s: Sys, t: Sys, id: Id, input: UploadInput)
    requires input.attempt.Some? && input.envelope.Some? && input.checksum.Some?
  {
    && id in t.requests && t.requests[id].phase.Uploading?
    && var r := t.requests[id].phase.resv;
       && r == ReservationOf(input, r.upload, r.final, r.deadline)
       && r.deadline <= t.now + RESERVATION_TTL
       && Allowed(s, Reserve(id, r, t.now)) && t == Apply(s, Reserve(id, r, t.now))
  }

  /** What a valid reserve's transaction does to the request it saw, and what it hands to signing. */
  ghost predicate ReserveCommitted(s: Sys, t: Sys, clock: Time, id: Id, input: UploadInput, objects: bool, held: Answer<UploadResult>) {
    && id in s.requests && input.attempt.Some? && input.envelope.Some? && input.checksum.Some?
    && var q := s.requests[id];
       match ReserveVerdict(q, input.generation, Claim(input.attempt.value, input.body), objects)
       case Deny(e) => held == Err(e) && t == s
       case Repeat => held == Timely(clock, q.expires, UploadResult(Receipt(q.generation, IsSubmitted), None, None)) && t == s
       case Resume => held == Timely(clock, q.expires, HeldUpload(q.generation, q.phase.resv)) && t == s
       case Enter =>
         if clock < q.expires then ReservesFor(s, t, id, input) && held == Ok(HeldUpload(q.generation, t.requests[id].phase.resv))
         else held == Err(ErrUnavailable) && t == s
  }

  /** Signing the upload URL: too late once the reservation has run out, and the signer may fail. */
  ghost predicate Signed(held: Answer<UploadResult>, clock: Time, answer: Answer<UploadResult>) {
    if held.Err? || !held.value.receipt.standing.IsUploading? || held.value.deadline.None? then answer == held
    else if held.value.deadline.value <= clock then answer == Err(ErrUnavailable)
    else answer == held || answer == Err(ErrStorage)
  }

  /** What a valid reserve does to the request its transaction saw. A reservation stays made even
      when signing its upload URL fails afterwards. */
  ghost predicate ReserveEffect(s: Sys, t: Sys, commit: Time, sign: Time, id: Id, input: UploadInput, objects: bool,
                                answer: Answer<UploadResult>) {
    exists held :: ReserveCommitted(s, t, commit, id, input, objects, held) && Signed(held, sign, answer)
  }

  /** Uploading became submitted, strictly before both deadlines. */
  ghost predicate AcceptsStored(s: Sys, t: Sys, id: Id) {
    exists checked, c :: Allowed(s, AcceptStored(id, checked, c)) && t == Apply(s, AcceptStored(id, checked, c))
  }

  /** What the last transaction of a finalize does to the request it saw. */
  ghost predicate FinalizeEffect(s: Sys, t: Sys, clock: Time, id: Id, generation: int, attempt: Digest, answer: Answer<Receipt>) {
    && id in s.requests
    && var q, receipt := s.requests[id], Receipt(generation, IsSubmitted);
       match FinalizeVerdict(q, generation, attempt)
       case Deny(e) => answer == Err(e) && t == s
       case Enter =>
         || (answer == Ok(receipt) && AcceptsStored(s, t, id))
         || (answer == Err(ErrUnavailable) && t == s && (q.phase.resv.deadline <= clock || q.expires <= clock))
       case _ => answer == Timely(clock, q.expires, receipt) && t == s
  }

  /** Giving up a reservation; the last generation has no successor to report. */
  ghost predicate AbandonEffect(s: Sys, t: Sys, clock: Time, id: Id, generation: int, attempt: Digest, answer: Answer<Receipt>) {
    && id in s.requests
    && var q := s.requests[id];
       match AbandonVerdict(q, generation, attempt)
       case Deny(e) => answer == Err(e) && t == s
       case _ =>
         && (clock < q.expires ==> Allowed(s, EndReservation(id, clock)) && t == Apply(s, EndReservation(id, clock)))
         && (clock >= q.expires ==> t == s)
         && answer == (if clock < q.expires && generation != MAX_GENERATION then Ok(Receipt(generation + 1, IsWaiting))
                       else Err(ErrUnavailable))
  }

  /** The owner takes the body, once. */
  ghost predicate Takes(s: Sys, t: Sys, id: Id, blob: Blob) {
    exists at, c :: Allowed(s, Take(id, blob, at, c)) && t == Apply(s, Take(id, blob, at, c))
  }

  /** Withdrawing a request; it is refused once the body has been taken. */
  ghost predicate RevokeEffect(s: Sys, t: Sys, clock: Time, id: Id, error: Option<Error>) {
    && id in s.requests
    && if s.requests[id].phase.Consumed? then error == Some(ErrConflict) && t == s
       else if clock < s.requests[id].expires then
         error.None? && Allowed(s, Withdraw(id, clock)) && t == Apply(s, Withdraw(id, clock))
       else error == Some(ErrUnavailable) && t == s
  }
}
