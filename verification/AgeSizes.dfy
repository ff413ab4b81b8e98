/** Size arithmetic of age files, and the limits a deployment advertises. An age file is a header, a
    payload nonce, and the plaintext in 64 KiB chunks with a tag each, at least one. */
module AgeSizes {
  const HEADER_ALLOWANCE := 4096
  const CHUNK := 65536
  const TAG := 16
  const NONCE := 16
  const MAX_INT64 := 0x7fff_ffff_ffff_ffff

  function CeilChunks(n: int): int {
    (n + CHUNK - 1) / CHUNK
  }

  function Chunks(n: int): (k: int)
    ensures k >= 1
  {
    if CeilChunks(n) < 1 then 1 else CeilChunks(n)
  }

  /** The length of the age file of `n` bytes under a header of `header` bytes. */
  function AgeFileBytes(header: nat, n: nat): int {
    header + NONCE + n + TAG * Chunks(n)
  }

  function MaxCiphertextBytes(n: int): int {
    HEADER_ALLOWANCE + NONCE + n + TAG * Chunks(n)
  }

  lemma Increasing(n: int, m: int)
    requires n < m
    ensures MaxCiphertextBytes(n) < MaxCiphertextBytes(m)
  {}

  /** Where the search starts: one tag per started chunk of the whole file. */
  function Estimate(c: int): nat {
    var n := c - HEADER_ALLOWANCE - NONCE - TAG * CeilChunks(c);
    if n < 0 then 0 else n
  }

  lemma EstimateIsLow(c: int)
    requires MaxCiphertextBytes(0) <= c
    ensures MaxCiphertextBytes(Estimate(c)) <= c
  {}

  /** `r` is the largest plaintext whose file always fits in `c` bytes. */
  ghost predicate Inverts(c: int, r: nat) {
    forall n: nat :: n <= r <==> MaxCiphertextBytes(n) <= c
  }

  lemma BracketInverts(c: int, r: nat)
    requires MaxCiphertextBytes(r) <= c < MaxCiphertextBytes(r + 1)
    ensures Inverts(c, r)
  {}

  /** The search, with the number of steps it takes: sixteen for every tag the estimate overcounted. */
  method MaxPlaintextBytes(c: int) returns (r: nat, ghost steps: nat)
    ensures c < MaxCiphertextBytes(0) ==> r == 0
    ensures MaxCiphertextBytes(0) <= c ==> Inverts(c, r) && steps <= TAG * (CeilChunks(c) - Chunks(r))
  {
    steps := 0;
    if c < MaxCiphertextBytes(0) {
      return 0, 0;
    }
    r := Estimate(c);
    EstimateIsLow(c);
    while MaxCiphertextBytes(r + 1) <= c
      invariant MaxCiphertextBytes(r) <= c && steps == r - Estimate(c)
      decreases c - r
    {
      r, steps := r + 1, steps + 1;
    }
    BracketInverts(c, r);
  }

  /** What the search computes at `n` on its way: the two rounded-up sums and the next size. */
  predicate StepFits(c: int, n: nat) {
    && c + CHUNK - 1 <= MAX_INT64 && TAG * CeilChunks(c) <= MAX_INT64
    && n + 1 + CHUNK - 1 <= MAX_INT64 && TAG * Chunks(n + 1) <= MAX_INT64 && MaxCiphertextBytes(n + 1) <= MAX_INT64
  }

  /** Nothing the search computes leaves a 64-bit integer exactly up to one chunk below the largest; above
      that its very first sum does. */
  lemma SearchFitsInt64Iff(c: int, n: nat)
    requires MaxCiphertextBytes(n) <= c <= MAX_INT64
    ensures StepFits(c, n) <==> c <= MAX_INT64 - (CHUNK - 1)
  {}

  // ---------------------------------------------------------------- advertised limits

  datatype Config = Config(inlineMax: int, maxFile: int, objectStorage: bool)

  /** The configured maximum of the large path. */
  function MaxObjectBytes(cfg: Config): int {
    MaxCiphertextBytes(cfg.maxFile)
  }

  /** What the server checks of an inline body, and of a declared upload. */
  predicate InlineAccepts(cfg: Config, size: int) {
    size <= cfg.inlineMax
  }

  predicate LargeAccepts(cfg: Config, size: int) {
    cfg.objectStorage && MaxCiphertextBytes(0) - HEADER_ALLOWANCE <= size <= MaxObjectBytes(cfg)
  }

  method EffectivePayloadInlineMaxBytes(cfg: Config) returns (r: nat)
    ensures cfg.inlineMax < MaxCiphertextBytes(0) ==> r == 0
    ensures MaxCiphertextBytes(0) <= cfg.inlineMax ==> Inverts(cfg.inlineMax, r)
  {
    ghost var steps;
    r, steps := MaxPlaintextBytes(cfg.inlineMax);
  }

  method EffectiveMaxFileBytes(cfg: Config) returns (r: int, ghost inlineLimit: nat)
    ensures cfg.inlineMax < MaxCiphertextBytes(0) ==> inlineLimit == 0
    ensures MaxCiphertextBytes(0) <= cfg.inlineMax ==> Inverts(cfg.inlineMax, inlineLimit)
    ensures r <= cfg.maxFile && (!cfg.objectStorage ==> r <= inlineLimit)
    ensures r == cfg.maxFile || (!cfg.objectStorage && r == inlineLimit)
  {
    var limit := EffectivePayloadInlineMaxBytes(cfg);
    inlineLimit := limit;
    r := if !cfg.objectStorage && cfg.maxFile > limit then limit else cfg.maxFile;
  }

  lemma HeaderAllowance(header: nat, n: nat)
    requires header <= HEADER_ALLOWANCE
    ensures MaxCiphertextBytes(0) - HEADER_ALLOWANCE <= AgeFileBytes(header, n) <= MaxCiphertextBytes(n)
  {}

  /** Within the advertised file limit, the file a client seals passes the size check of the path it is
      routed to: inline up to the advertised inline limit, the bucket above it. */
  lemma AdvertisedLimitsHold(cfg: Config, inlineLimit: nat, fileLimit: int, header: nat, n: nat)
    requires MaxCiphertextBytes(0) <= cfg.inlineMax && Inverts(cfg.inlineMax, inlineLimit)
    requires fileLimit <= cfg.maxFile && (!cfg.objectStorage ==> fileLimit <= inlineLimit)
    requires header <= HEADER_ALLOWANCE && n <= fileLimit
    ensures if n <= inlineLimit then InlineAccepts(cfg, AgeFileBytes(header, n)) else LargeAccepts(cfg, AgeFileBytes(header, n))
  {
    HeaderAllowance(header, n);
    if inlineLimit < n < cfg.maxFile {
      Increasing(n, cfg.maxFile);
    }
  }

  /** The advertised inline limit holds for every header exactly when an empty file fits: the guard the
      configuration is loaded with. Below it the search answers 0, and even 0 bytes may not fit. */
  lemma InlineLimitHoldsIff(cfg: Config, limit: nat)
    requires cfg.inlineMax < MaxCiphertextBytes(0) ==> limit == 0
    requires MaxCiphertextBytes(0) <= cfg.inlineMax ==> Inverts(cfg.inlineMax, limit)
    ensures MaxCiphertextBytes(0) <= cfg.inlineMax <==>
            forall header: nat, n: nat :: header <= HEADER_ALLOWANCE && n <= limit ==> InlineAccepts(cfg, AgeFileBytes(header, n))
  {
    if MaxCiphertextBytes(0) <= cfg.inlineMax {
      forall header: nat, n: nat | header <= HEADER_ALLOWANCE && n <= limit ensures InlineAccepts(cfg, AgeFileBytes(header, n)) {
        HeaderAllowance(header, n);
      }
    } else {
      assert !InlineAccepts(cfg, AgeFileBytes(HEADER_ALLOWANCE, 0));
    }
  }
}
