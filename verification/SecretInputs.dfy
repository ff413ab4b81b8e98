/** What the server accepts as a new secret, before anything is stored. */
module SecretInputs {
  import opened Common
  import A = AgeSizes

  datatype Kind = Text | File | OtherKind

  datatype CreateError = ErrPayloadTooLarge | ErrInvalidInput | ErrUnsupportedKind | ErrUnsupportedViews

  datatype Kdf = Kdf(algorithm: string, salt: string, iterations: int, keyLengthBits: int)

  /** An inline secret carries its body, a large one only its size. An optional age field is given as
      whether it decodes to an age file within its bound. */
  datatype CreateInput = CreateInput(
    kind: Kind, body: Option<Blob>, sizeBytes: int, ttlSeconds: int, maxViews: int,
    proof: Option<Digest>, kdf: Kdf, wrapped: Option<bool>, filename: Option<bool>, contentType: Option<string>)

  datatype Limits = Limits(inlineMax: int, maxObject: int, minTtl: int, maxTtl: int, objects: bool)

  const MAX_CONTENT_TYPE := 255

  /** Printable ASCII of bounded length. */
  method ValidContentType(value: string) returns (ok: bool)
    ensures ok == IsContentType(value)
  {
    if |value| > MAX_CONTENT_TYPE {
      return false;
    }
    for i := 0 to |value|
      invariant forall k :: 0 <= k < i ==> ' ' <= value[k] <= '~'
    {
      if value[i] < ' ' || value[i] > '~' {
        return false;
      }
    }
    return true;
  }

  predicate IsContentType(value: string) {
    |value| <= MAX_CONTENT_TYPE && forall i :: 0 <= i < |value| ==> ' ' <= value[i] <= '~'
  }

  /** The checks on the body and its size, which come first. */
  function BodyCheck(input: CreateInput, l: Limits): Option<CreateError> {
    match input.body
    case Some(body) =>
      if |body.bytes| > l.inlineMax then Some(ErrPayloadTooLarge)
      else if !IsAgeFile(body) || |body.bytes| != input.sizeBytes then Some(ErrInvalidInput)
      else None
    case None =>
      if !l.objects then Some(ErrPayloadTooLarge)
      else if input.kind.Text? then Some(ErrInvalidInput)
      else if input.sizeBytes > l.maxObject then Some(ErrPayloadTooLarge)
      else if input.sizeBytes < A.MaxCiphertextBytes(0) - A.HEADER_ALLOWANCE then Some(ErrInvalidInput)
      else None
  }

  /** A secret is protected by a passphrase, with proof, parameters and wrapped identity, or by its link
      alone, with none of them. */
  predicate OneModel(input: CreateInput) {
    input.proof.Some? == (input.kdf.algorithm != "") == input.wrapped.Some?
  }

  predicate GoodPassphrase(input: CreateInput) {
    && input.kdf.algorithm == "PBKDF2-SHA-256" && input.kdf.salt != "" && 600_000 <= input.kdf.iterations <= 6_000_000
    && input.kdf.keyLengthBits == 256 && input.wrapped == Some(true)
  }

  function CommonCheck(input: CreateInput, l: Limits): Option<CreateError> {
    if input.kind.OtherKind? then Some(ErrUnsupportedKind)
    else if input.ttlSeconds < l.minTtl || input.ttlSeconds > l.maxTtl then Some(ErrInvalidInput)
    else if input.maxViews != 0 && input.maxViews != 1 then Some(ErrUnsupportedViews)
    else if !OneModel(input) then Some(ErrInvalidInput)
    else if input.proof.Some? && !GoodPassphrase(input) then Some(ErrInvalidInput)
    else if input.kind.File? != input.filename.Some? || input.filename == Some(false) then Some(ErrInvalidInput)
    else if input.contentType.Some? && !IsContentType(input.contentType.value) then Some(ErrInvalidInput)
    else None
  }

  function Validate(input: CreateInput, l: Limits): Option<CreateError> {
    if BodyCheck(input, l).Some? then BodyCheck(input, l) else CommonCheck(input, l)
  }

  /** The limits a deployment runs with. */
  predicate Configured(cfg: A.Config, l: Limits) {
    l.inlineMax == cfg.inlineMax && l.objects == cfg.objectStorage && l.maxObject == A.MaxObjectBytes(cfg)
  }

  /** A file within the advertised limits, sealed under any header the clients write and sent the way the
      limits say, is never refused for its size or body. */
  lemma AdvertisedFilesPass(cfg: A.Config, l: Limits, inlineLimit: nat, fileLimit: int, header: nat, n: nat, input: CreateInput)
    requires Configured(cfg, l) && A.MaxCiphertextBytes(0) <= cfg.inlineMax && A.Inverts(cfg.inlineMax, inlineLimit)
    requires fileLimit <= cfg.maxFile && (!cfg.objectStorage ==> fileLimit <= inlineLimit)
    requires header <= A.HEADER_ALLOWANCE && n <= fileLimit && input.kind.File?
    requires input.sizeBytes == A.AgeFileBytes(header, n) && (input.body.Some? <==> n <= inlineLimit)
    requires input.body.Some? ==> IsAgeFile(input.body.value) && |input.body.value.bytes| == input.sizeBytes
    ensures BodyCheck(input, l).None?
  {
    A.AdvertisedLimitsHold(cfg, inlineLimit, fileLimit, header, n);
  }
}
