/** Reconciliation passes over the bucket. Any number of scanners read the cursor, list a page outside
    every transaction and try to commit it, while uploads, deletes, row changes and acknowledgements
    go on. The generation column decides which listing may commit. */
module ScanCoverage {
  import opened Common

  type ScannerId = nat

  /** A scanner between its steps: it holds the cursor row it read, then also the page it listed. */
  datatype Reader = HasCursor(cursor: Option<Key>, generation: nat)
                  | HasPage(cursor: Option<Key>, generation: nat, keys: seq<Key>, next: Option<Key>)

  /** The cursor row, the keys in the bucket, those no row protects now, and those with a claim. */
  datatype Scan = Scan(
    cursor: Option<Key>, generation: nat, bucket: set<Key>, exposed: iset<Key>, claimed: set<Key>,
    readers: map<ScannerId, Reader>)

  ghost predicate Start(s: Scan) {
    s.cursor.None? && s.generation == 0 && s.readers == map[]
  }

  /** `rank` is the bucket's key order. */
  ghost predicate After(rank: Key -> int, key: Key, cursor: Option<Key>) {
    cursor.Some? ==> rank(cursor.value) < rank(key)
  }

  /** What the bucket answers: its first keys after the cursor, in order, and where to go on. */
  ghost predicate Lists(rank: Key -> int, bucket: set<Key>, cursor: Option<Key>, keys: seq<Key>, next: Option<Key>) {
    && (forall k :: k in keys ==> k in bucket && After(rank, k, cursor))
    && (forall i, j :: 0 <= i < j < |keys| ==> rank(keys[i]) < rank(keys[j]))
    && (forall k, l :: k in bucket && After(rank, k, cursor) && k !in keys && l in keys ==> rank(l) < rank(k))
    && (next.None? ==> forall k :: k in bucket && After(rank, k, cursor) ==> k in keys)
    && (next.Some? ==> keys != [] && next.value == keys[|keys| - 1])
  }

  datatype Move =
    | Outside(bucket: set<Key>, exposed: iset<Key>, claimed: set<Key>)
    | ReadCursor(scanner: ScannerId)
    | List(scanner: ScannerId, keys: seq<Key>, next: Option<Key>)
    | CommitPage(scanner: ScannerId)
    | ResetCursor(scanner: ScannerId)
    | Leave(scanner: ScannerId)

  ghost predicate Allowed(rank: Key -> int, s: Scan, m: Move) {
    match m
    case Outside(_, _, _) => true
    case ReadCursor(p) => true
    case List(p, keys, next) => p in s.readers && s.readers[p].HasCursor? && Lists(rank, s.bucket, s.readers[p].cursor, keys, next)
    case CommitPage(p) => p in s.readers && s.readers[p].HasPage? && s.readers[p].generation == s.generation
    case ResetCursor(p) => p in s.readers && s.readers[p].cursor.Some? && s.readers[p].generation == s.generation
    case Leave(p) => true
  }

  /** The listed keys that the committing transaction finds unprotected. */
  ghost function Found(s: Scan, keys: seq<Key>): set<Key> {
    set k | k in keys && k in s.exposed
  }

  ghost function Apply(rank: Key -> int, s: Scan, m: Move): Scan
    requires Allowed(rank, s, m)
  {
    match m
    case Outside(bucket, exposed, claimed) => s.(bucket := bucket, exposed := exposed, claimed := claimed)
    case ReadCursor(p) => s.(readers := s.readers[p := HasCursor(s.cursor, s.generation)])
    case List(p, keys, next) =>
      s.(readers := s.readers[p := HasPage(s.readers[p].cursor, s.readers[p].generation, keys, next)])
    case CommitPage(p) =>
      s.(cursor := s.readers[p].next, generation := s.generation + 1,
         claimed := s.claimed + Found(s, s.readers[p].keys), readers := s.readers - {p})
    case ResetCursor(p) => s.(cursor := None, generation := s.generation + 1, readers := s.readers - {p})
    case Leave(p) => s.(readers := s.readers - {p})
  }

  ghost predicate Next(rank: Key -> int, s: Scan, t: Scan) {
    exists m :: Allowed(rank, s, m) && t == Apply(rank, s, m)
  }

  ghost predicate Commits(rank: Key -> int, s: Scan, t: Scan) {
    exists p :: Allowed(rank, s, CommitPage(p)) && t == Apply(rank, s, CommitPage(p))
  }

  ghost predicate StepAt(rank: Key -> int, h: seq<Scan>, i: nat)
    requires i + 1 < |h|
  {
    Next(rank, h[i], h[i + 1])
  }

  ghost predicate IsRun(rank: Key -> int, h: seq<Scan>) {
    h != [] && Start(h[0]) && forall i :: 0 <= i < |h| - 1 ==> StepAt(rank, h, i)
  }

  // ---------------------------------------------------------------- the chain of pages

  /** Whoever holds the current generation holds the current cursor. */
  ghost predicate ReaderOk(s: Scan, p: ScannerId) {
    p in s.readers ==>
      && s.readers[p].generation <= s.generation
      && (s.readers[p].generation == s.generation ==> s.readers[p].cursor == s.cursor)
  }

  ghost predicate Chained(s: Scan) {
    forall p :: ReaderOk(s, p)
  }

  lemma StepChained(rank: Key -> int, s: Scan, t: Scan)
    requires Chained(s) && Next(rank, s, t)
    ensures Chained(t) && s.generation <= t.generation <= s.generation + 1
    ensures t.generation == s.generation ==> t.cursor == s.cursor
  {
    var m :| Allowed(rank, s, m) && t == Apply(rank, s, m);
    forall p ensures ReaderOk(t, p) {
      assert ReaderOk(s, p);
    }
  }

  lemma {:induction false} RunChained(rank: Key -> int, h: seq<Scan>, i: nat)
    requires IsRun(rank, h) && i < |h|
    ensures Chained(h[i])
  {
    if i > 0 {
      RunChained(rank, h, i - 1);
      assert StepAt(rank, h, i - 1);
      StepChained(rank, h[i - 1], h[i]);
    }
  }

  /** Every page that commits starts exactly where the last one ended. */
  lemma CommittedPagesChain(rank: Key -> int, h: seq<Scan>, i: nat, p: ScannerId)
    requires IsRun(rank, h) && i < |h| && Allowed(rank, h[i], CommitPage(p))
    ensures h[i].readers[p].cursor == h[i].cursor
  {
    RunChained(rank, h, i);
    assert ReaderOk(h[i], p);
  }

  // ---------------------------------------------------------------- coverage

  /** A listing that may still commit has `k`, unless it stops before it. */
  ghost predicate Promises(rank: Key -> int, s: Scan, k: Key, p: ScannerId) {
    p in s.readers && s.readers[p].HasPage? && s.readers[p].generation == s.generation ==>
      var r := s.readers[p];
      k in r.keys || (r.next.Some? && rank(r.next.value) < rank(k))
  }

  ghost predicate StillAhead(rank: Key -> int, s: Scan, k: Key) {
    After(rank, k, s.cursor) && forall p :: Promises(rank, s, k, p)
  }

  /** The page committed at `i` left `k` claimed. */
  ghost predicate CoversAt(rank: Key -> int, h: seq<Scan>, i: nat, k: Key) {
    i + 1 < |h| && Commits(rank, h[i], h[i + 1]) && k in h[i + 1].claimed
  }

  ghost predicate Covered(rank: Key -> int, h: seq<Scan>, a: nat, b: nat, k: Key) {
    exists i :: a <= i < b && CoversAt(rank, h, i, k)
  }

  /** At `a` the cursor has just come back to the beginning, so no listing of its generation exists. */
  ghost predicate Begins(h: seq<Scan>, a: nat)
    requires a < |h|
  {
    h[a].cursor.None? && (a == 0 || h[a - 1].generation < h[a].generation)
  }

  lemma ListingPromises(rank: Key -> int, s: Scan, k: Key, p: ScannerId, keys: seq<Key>, next: Option<Key>)
    requires Allowed(rank, s, List(p, keys, next)) && ReaderOk(s, p)
    requires k in s.bucket && After(rank, k, s.cursor)
    ensures Promises(rank, Apply(rank, s, List(p, keys, next)), k, p)
  {}

  lemma StepCovers(rank: Key -> int, s: Scan, t: Scan, k: Key)
    requires Chained(s) && Next(rank, s, t) && StillAhead(rank, s, k) && k in s.bucket && k in s.exposed
    ensures StillAhead(rank, t, k) || (Commits(rank, s, t) && k in t.claimed)
    ensures Commits(rank, s, t) && t.cursor.None? ==> k in t.claimed
  {
    var m :| Allowed(rank, s, m) && t == Apply(rank, s, m);
    forall p ensures Promises(rank, t, k, p) {
      assert ReaderOk(s, p) && Promises(rank, s, k, p);
      if m.List? && m.scanner == p {
        ListingPromises(rank, s, k, p, m.keys, m.next);
      }
    }
    forall p | Allowed(rank, s, CommitPage(p)) && t == Apply(rank, s, CommitPage(p))
      ensures k in t.claimed || (t.cursor.Some? && After(rank, k, t.cursor))
    {
      assert Promises(rank, s, k, p);
    }
  }

  lemma BeginsAhead(rank: Key -> int, h: seq<Scan>, a: nat, k: Key)
    requires IsRun(rank, h) && a < |h| && Begins(h, a)
    ensures StillAhead(rank, h[a], k)
  {
    forall p ensures Promises(rank, h[a], k, p) {
      if a > 0 {
        RunChained(rank, h, a - 1);
        assert ReaderOk(h[a - 1], p) && StepAt(rank, h, a - 1);
        var m :| Allowed(rank, h[a - 1], m) && h[a] == Apply(rank, h[a - 1], m);
      }
    }
  }

  lemma {:induction false} PassProgress(rank: Key -> int, h: seq<Scan>, a: nat, b: nat, k: Key)
    requires IsRun(rank, h) && a <= b < |h| && Begins(h, a)
    requires forall i :: a <= i < b ==> k in h[i].bucket && k in h[i].exposed
    ensures StillAhead(rank, h[b], k) || Covered(rank, h, a, b, k)
    decreases b - a
  {
    if a == b {
      BeginsAhead(rank, h, a, k);
    } else {
      PassProgress(rank, h, a, b - 1, k);
      if !Covered(rank, h, a, b - 1, k) {
        RunChained(rank, h, b - 1);
        assert StepAt(rank, h, b - 1);
        StepCovers(rank, h[b - 1], h[b], k);
        assert StillAhead(rank, h[b], k) || CoversAt(rank, h, b - 1, k);
      }
    }
  }

  /** A complete pass, from the cursor's return to the beginning until a committed page has no
      successor, claims every key that was present and unprotected throughout. Resets in between
      only make the pass longer. */
  lemma PassCovers(rank: Key -> int, h: seq<Scan>, a: nat, b: nat, k: Key) returns (i: nat)
    requires IsRun(rank, h) && a < b < |h| && Begins(h, a)
    requires Commits(rank, h[b - 1], h[b]) && h[b].cursor.None?
    requires forall i :: a <= i < b ==> k in h[i].bucket && k in h[i].exposed
    ensures a <= i < b && Commits(rank, h[i], h[i + 1]) && k in h[i + 1].claimed
  {
    PassProgress(rank, h, a, b - 1, k);
    if Covered(rank, h, a, b - 1, k) {
      i :| a <= i < b - 1 && CoversAt(rank, h, i, k);
    } else {
      i := b - 1;
      RunChained(rank, h, b - 1);
      assert StepAt(rank, h, b - 1);
      StepCovers(rank, h[b - 1], h[b], k);
    }
  }
}
