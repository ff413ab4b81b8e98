/** Vocabulary shared by the models of the API, the worker and the relay. */
module Common {

  datatype Option<+T> = None | Some(value: T)

  /** Instants and durations, in nanoseconds of one global clock. */
  type Time = int

  const SECOND: Time := 1_000_000_000
  const MINUTE: Time := 60 * SECOND

  /** A SHA-256 value; only equality of digests is ever observed. */
  type Digest = nat

  datatype Role = Upload | Final

  /** Bucket keys: `managed/requests/<nonce>/<role>`, `managed/secrets/<id>`, or anything else. */
  datatype Key =
    | RequestKey(nonce: nat, role: Role)
    | SecretKey(secret: nat)
    | OtherKey(name: nat)

  /** An object or payload body. The digest is an attribute of the blob, so every
      statement below holds for every assignment of digests to bytes. */
  datatype Blob = Blob(bytes: string, sha256: Digest)

  const AGE_MAGIC := "age-encryption.org/v1\n"

  predicate IsAgeFile(b: Blob) {
    AGE_MAGIC <= b.bytes
  }

  ghost predicate Submap<K, V>(m: map<K, V>, n: map<K, V>) {
    forall k :: k in m ==> k in n && n[k] == m[k]
  }

  ghost predicate Distinct<T>(s: seq<T>) {
    forall i, j :: 0 <= i < j < |s| ==> s[i] != s[j]
  }

  lemma SubsetSize<T>(a: set<T>, b: set<T>)
    requires a <= b
    ensures |a| <= |b|
  {
    assert b == a + (b - a);
  }

  ghost function Above(used: set<nat>): (n: nat)
    ensures forall c :: c in used ==> c < n
  {
    if used == {} then 0 else
      var c :| c in used;
      var rest := Above(used - {c});
      assert forall d :: d in used ==> d == c || d in used - {c};
      if c >= rest then c + 1 else rest
  }

  /** There is always an unused number. */
  lemma UnusedExists(used: set<nat>)
    ensures exists n: nat :: n !in used
  {
    var n := Above(used);
    assert n !in used;
  }
}
