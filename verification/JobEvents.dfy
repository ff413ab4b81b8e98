/** Job events as text fields: which ones the outbox and the decoder let through, and why no event that
    got through is later refused as an invalid job, which would drop its message unsettled. */
module JobEvents {

  datatype JobEvent = JobEvent(
    jobId: string, kind: string, secretId: string, objectKey: string, reason: string, hasTime: bool)

  const DELETE_SECRET := "delete_secret"
  const DELETE_OBJECT := "delete_oci_object"

  predicate IsSpace(c: char) {
    c in {' ', '\t', '\n', '\r'} || c as int in {11, 12, 0x85, 0xA0, 0x1680, 0x2028, 0x2029, 0x202F, 0x205F, 0x3000}
    || 0x2000 <= c as int <= 0x200A
  }

  predicate Blank(s: string) {
    forall i :: 0 <= i < |s| ==> IsSpace(s[i])
  }

  predicate ValidReason(reason: string) {
    reason in {"consumed", "expired", "orphan", "manual", "retry"}
  }

  /** Validate, as enqueueing and decoding call it. */
  predicate Valid(e: JobEvent) {
    && !Blank(e.jobId) && e.hasTime
    && (e.kind == DELETE_SECRET || e.kind == DELETE_OBJECT)
    && (e.kind == DELETE_SECRET ==> !Blank(e.secretId))
    && (e.kind == DELETE_OBJECT ==> !Blank(e.objectKey))
    && (e.reason != "" ==> ValidReason(e.reason))
  }

  datatype Refusal = InvalidJob | Accepted

  /** The argument checks of the receipt store. */
  function StartCheck(e: JobEvent, payload: string, maxFailures: int): Refusal {
    if e.jobId == "" || e.kind == "" || payload == "" || maxFailures < 1 then InvalidJob else Accepted
  }

  /** The reason a delete_secret job is reported with. */
  function CleanupReason(e: JobEvent): string {
    if e.reason == "" then "consumed" else e.reason
  }

  /** The handler's checks before it calls the API or the bucket, and the client's before it sends. */
  function HandlerCheck(e: JobEvent): Refusal {
    if e.kind == DELETE_OBJECT then (if Blank(e.objectKey) then InvalidJob else Accepted)
    else if e.kind != DELETE_SECRET || (e.reason != "" && !ValidReason(e.reason)) then InvalidJob
    else if Blank(e.secretId) || Blank(e.jobId) || Blank(CleanupReason(e)) then InvalidJob
    else Accepted
  }

  const MANAGED_PREFIXES := ["managed/secrets/", "managed/requests/"]

  /** The key lies properly below one of the managed prefixes. */
  ghost predicate Managed(key: string) {
    exists p :: p in MANAGED_PREFIXES && p <= key && key != p
  }

  /** Keys whose deletion has to be acknowledged. */
  method RequiresAcknowledgement(key: string) returns (required: bool)
    ensures required <==> Managed(key)
  {
    for i := 0 to |MANAGED_PREFIXES|
      invariant forall k :: 0 <= k < i ==> !(MANAGED_PREFIXES[k] <= key && key != MANAGED_PREFIXES[k])
    {
      if MANAGED_PREFIXES[i] <= key && key != MANAGED_PREFIXES[i] {
        assert MANAGED_PREFIXES[i] in MANAGED_PREFIXES;
        return true;
      }
    }
    return false;
  }

  /** The acknowledgement client's own check. */
  function AcknowledgementCheck(e: JobEvent, required: bool): Refusal {
    if e.kind != DELETE_OBJECT || e.jobId == "" || !required then InvalidJob else Accepted
  }

  lemma ReasonsAreNotBlank(reason: string)
    requires ValidReason(reason)
    ensures !Blank(reason)
  {
    assert !IsSpace(reason[0]);
  }

  /** An event that validates passes every later check on its way: a worker's ErrInvalidJob never
      concerns it, so its message is never dropped on that account. */
  lemma ValidEventsAreNeverRefused(e: JobEvent, payload: string, maxFailures: int, required: bool)
    requires Valid(e) && payload != "" && maxFailures >= 1
    ensures StartCheck(e, payload, maxFailures) == Accepted && HandlerCheck(e) == Accepted
    ensures e.kind == DELETE_OBJECT && required ==> AcknowledgementCheck(e, required) == Accepted
  {
    assert Blank("");
    if e.kind == DELETE_SECRET {
      ReasonsAreNotBlank(CleanupReason(e));
    }
  }
}
