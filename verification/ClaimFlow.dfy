/** The claims and jobs in the reconcilers' tables are the pipeline's: a committed page is a series of its
    scans, so what the pipeline guarantees of a claim holds of the claims in the tables. */
module ClaimFlow {
  import opened Common
  import P = CleanupPipeline
  import Q = RequestTables
  import QT = RequestTx
  import QS = RequestStore
  import SP = SecretProtocol
  import SS = SecretStore

  /** New claims, each under a job id of its own that no outbox row has. */
  ghost predicate CanScan(p: P.Pipe, add: map<Key, nat>) {
    && (forall k :: k in add ==> k !in p.claims && P.NeedsAcknowledgement(k) && add[k] !in p.outbox)
    && (forall k, l :: k in add && l in add && add[k] == add[l] ==> k == l)
  }

  /** `q` is `p` with these claims and one pending delete for each. */
  ghost predicate ScannedInto(p: P.Pipe, add: map<Key, nat>, q: P.Pipe) {
    && q == p.(claims := p.claims + add, outbox := q.outbox)
    && (forall j :: j in p.outbox ==> j in q.outbox && q.outbox[j] == p.outbox[j])
    && (forall k :: k in add ==> add[k] in q.outbox && q.outbox[add[k]] == P.OutboxRow(P.Event(add[k], P.DeleteObject, k), P.Pending))
    && (forall j :: j in q.outbox && j !in p.outbox ==> exists k :: k in add && add[k] == j)
  }

  lemma ScanOneMore(p: P.Pipe, add: map<Key, nat>, k: Key, q: P.Pipe)
    requires CanScan(p, add) && k in add && P.Allowed(p, P.Scan(k, add[k]))
    requires ScannedInto(P.Apply(p, P.Scan(k, add[k])), add - {k}, q)
    ensures ScannedInto(p, add, q)
  {
    var r := P.Apply(p, P.Scan(k, add[k]));
    assert r.claims + (add - {k}) == p.claims + add;
    forall j | j in q.outbox && j !in p.outbox ensures exists l :: l in add && add[l] == j {
      if j in r.outbox {
        assert add[k] == j;
      } else {
        var l :| l in add - {k} && (add - {k})[l] == j;
        assert l in add && add[l] == j;
      }
    }
  }

  lemma {:induction false} ScanAll(p: P.Pipe, add: map<Key, nat>) returns (q: P.Pipe)
    requires CanScan(p, add)
    ensures P.Reaches(p, q) && ScannedInto(p, add, q)
    decreases add.Keys
  {
    if add == map[] {
      q := p;
      P.ReachesSelf(p);
      assert p.claims + add == p.claims;
    } else {
      var k :| k in add;
      var m := P.Scan(k, add[k]);
      P.OneMove(p, m);
      q := ScanAll(P.Apply(p, m), add - {k});
      P.ReachesTransitive(p, P.Apply(p, m), q);
      ScanOneMore(p, add, k, q);
    }
  }

  // ---------------------------------------------------------------- requests

  ghost predicate Names(name: nat -> nat) {
    forall i: nat, j: nat :: name(i) == name(j) ==> i == j
  }

  /** The pipeline has the claims and the jobs of the request tables, the job at position `i` of their outbox
      under the random id `name(i)`; ids not drawn yet are unused. */
  ghost predicate HasRequests(p: P.Pipe, tx: Q.Tx, name: nat -> nat) {
    && (forall k: Key :: k.RequestKey? ==> (k in p.claims <==> k in tx.claims))
    && (forall k: Key :: k.RequestKey? && k in tx.claims ==> p.claims[k] == name(tx.claims[k]))
    && (forall i :: 0 <= i < |tx.outbox| ==> HasJob(p, name(i), tx.outbox[i].key))
    && (forall i: nat :: |tx.outbox| <= i ==> name(i) !in p.outbox)
  }

  ghost predicate HasJob(p: P.Pipe, job: nat, key: Key) {
    job in p.outbox && p.outbox[job].event == P.Event(job, P.DeleteObject, key)
  }

  ghost function NewClaims(tx: Q.Tx, after: Q.Tx, name: nat -> nat): map<Key, nat> {
    map k | k in after.claims && k !in tx.claims :: name(after.claims[k])
  }

  lemma PageCanScan(p: P.Pipe, tx: Q.Tx, after: Q.Tx, name: nat -> nat, page: seq<Key>, next: Option<Key>, now: Time, count: nat)
    requires Names(name) && HasRequests(p, tx, name) && QS.ScansPage(tx, after, page, next, now, count)
    ensures CanScan(p, NewClaims(tx, after, name))
  {
    var add := NewClaims(tx, after, name);
    forall k | k in add ensures k !in p.claims && P.NeedsAcknowledgement(k) && add[k] !in p.outbox {
      assert k in QT.Unprotected(tx.rows, page, now);
      assert |tx.outbox| <= after.claims[k];
    }
    forall k, l | k in add && l in add && add[k] == add[l] ensures k == l {
      assert after.outbox[after.claims[k]].key == k && after.outbox[after.claims[l]].key == l;
    }
  }

  lemma NewJobIsClaimed(tx: Q.Tx, after: Q.Tx, page: seq<Key>, next: Option<Key>, now: Time, count: nat, i: nat)
    requires Q.ClaimsOk(tx) && QS.ScansPage(tx, after, page, next, now, count) && |tx.outbox| <= i < |after.outbox|
    ensures var k := after.outbox[i].key; k in after.claims && after.claims[k] == i && k !in tx.claims
  {
    var k := after.outbox[i].key;
    assert k in after.claims && after.claims[k] == i;
  }

  lemma PageLands(p: P.Pipe, q: P.Pipe, tx: Q.Tx, after: Q.Tx, name: nat -> nat, page: seq<Key>, next: Option<Key>, now: Time, count: nat)
    requires Names(name) && Q.ClaimsOk(tx) && HasRequests(p, tx, name) && QS.ScansPage(tx, after, page, next, now, count)
    requires ScannedInto(p, NewClaims(tx, after, name), q)
    ensures HasRequests(q, after, name)
  {
    var add := NewClaims(tx, after, name);
    forall i | 0 <= i < |after.outbox| ensures HasJob(q, name(i), after.outbox[i].key) {
      if i < |tx.outbox| {
        assert HasJob(p, name(i), tx.outbox[i].key);
      } else {
        NewJobIsClaimed(tx, after, page, next, now, count, i);
        assert after.outbox[i].key in add;
      }
    }
    forall i: nat | |after.outbox| <= i ensures name(i) !in q.outbox {
      assert name(i) !in p.outbox;
      assert forall k :: k in add ==> after.claims[k] < |after.outbox|;
    }
  }

  /** A committed page of request keys is a series of the pipeline's scans. */
  lemma RequestPageIsScans(p: P.Pipe, tx: Q.Tx, after: Q.Tx, name: nat -> nat, page: seq<Key>, next: Option<Key>, now: Time, count: nat)
    returns (q: P.Pipe)
    requires Names(name) && Q.ClaimsOk(tx) && HasRequests(p, tx, name) && QS.ScansPage(tx, after, page, next, now, count)
    ensures P.Reaches(p, q) && ScannedInto(p, NewClaims(tx, after, name), q) && HasRequests(q, after, name)
  {
    PageCanScan(p, tx, after, name, page, next, now, count);
    q := ScanAll(p, NewClaims(tx, after, name));
    PageLands(p, q, tx, after, name, page, next, now, count);
  }

  /** A transaction that queues one more delete and leaves the claims alone is an enqueue. */
  lemma RequestJobIsEnqueue(p: P.Pipe, tx: Q.Tx, after: Q.Tx, job: Q.Job, name: nat -> nat) returns (q: P.Pipe)
    requires Names(name) && HasRequests(p, tx, name) && after.claims == tx.claims && after.outbox == tx.outbox + [job]
    ensures P.Reaches(p, q) && HasRequests(q, after, name)
  {
    var m := P.Enqueue(P.Event(name(|tx.outbox|), P.DeleteObject, job.key));
    P.OneMove(p, m);
    q := P.Apply(p, m);
    forall i | 0 <= i < |after.outbox| ensures HasJob(q, name(i), after.outbox[i].key) {
      if i < |tx.outbox| {
        assert HasJob(p, name(i), tx.outbox[i].key);
      }
    }
  }

  /** The acknowledgement of an ended job is the pipeline's. */
  lemma RequestAckIsAcknowledge(p: P.Pipe, tx: Q.Tx, key: Key, job: nat, name: nat -> nat)
    requires Names(name) && HasRequests(p, tx, name) && key.RequestKey? && name(job) in p.ended
    ensures var m := P.Acknowledge(key, name(job));
            && P.Allowed(p, m)
            && HasRequests(P.Apply(p, m), tx.(claims := if key in tx.claims && tx.claims[key] == job then tx.claims - {key} else tx.claims), name)
  {
    forall i | 0 <= i < |tx.outbox| ensures HasJob(P.Apply(p, P.Acknowledge(key, name(job))), name(i), tx.outbox[i].key) {
      assert HasJob(p, name(i), tx.outbox[i].key);
    }
  }

  /** Publishing, marking, ending and removing leave the tables' claims and jobs as they are. */
  lemma WorkersKeepRequests(p: P.Pipe, m: P.Move, tx: Q.Tx, name: nat -> nat)
    requires HasRequests(p, tx, name) && P.Allowed(p, m)
    requires m.Publish? || m.Inject? || m.MarkPublished? || m.MarkFailed? || m.End? || m.Remove?
    ensures HasRequests(P.Apply(p, m), tx, name)
  {
    forall i | 0 <= i < |tx.outbox| ensures HasJob(P.Apply(p, m), name(i), tx.outbox[i].key) {
      assert HasJob(p, name(i), tx.outbox[i].key);
    }
  }

  /** A claim in the request tables is never stuck: its job is unpublished in the outbox or its message is
      still in the broker. */
  lemma RequestClaimNeverStuck(p: P.Pipe, tx: Q.Tx, name: nat -> nat, key: Key)
    requires P.Reachable(p) && HasRequests(p, tx, name) && key.RequestKey? && key in tx.claims
    ensures var job := name(tx.claims[key]);
            && HasJob(p, job, key)
            && (!p.outbox[job].state.Published? || exists m :: m in p.broker && p.broker[m] == Some(p.outbox[job].event))
  {
    P.ClaimNeverStuck(p, key);
  }

  // ---------------------------------------------------------------- secrets

  ghost predicate HasSecrets(p: P.Pipe, s: SP.State) {
    && (forall id :: SecretKey(id) in p.claims <==> id in s.claims)
    && (forall id :: id in s.claims ==> p.claims[SecretKey(id)] == s.claims[id])
  }

  ghost function NewSecretClaims(s: SP.State, t: SP.State): map<Key, nat> {
    map k: Key | k in (set id | id in t.claims && id !in s.claims :: SecretKey(id)) :: t.claims[k.secret]
  }

  lemma SecretPageCanScan(p: P.Pipe, s: SP.State, t: SP.State, page: seq<nat>, jobIds: seq<nat>)
    requires HasSecrets(p, s) && |page| == |jobIds| && SS.NamedBy(s, t, page, jobIds)
    requires Distinct(jobIds) && forall j :: j in jobIds ==> j !in p.outbox
    ensures CanScan(p, NewSecretClaims(s, t))
  {
    var add := NewSecretClaims(s, t);
    forall k | k in add ensures add[k] !in p.outbox {
      assert SS.DrawnFor(page, jobIds, k.secret, t.claims[k.secret]);
    }
    forall k, l | k in add && l in add && add[k] == add[l] ensures k == l {
      assert SS.DrawnFor(page, jobIds, k.secret, t.claims[k.secret]) && SS.DrawnFor(page, jobIds, l.secret, t.claims[l.secret]);
    }
  }

  /** A committed page of secrets is a series of the pipeline's scans, given fresh job ids. */
  lemma SecretPageIsScans(p: P.Pipe, s: SP.State, t: SP.State, page: seq<nat>, jobIds: seq<nat>) returns (q: P.Pipe)
    requires HasSecrets(p, s) && |page| == |jobIds| && SS.PageScanned(s, t, page, jobIds)
    requires Distinct(jobIds) && forall j :: j in jobIds ==> j !in p.outbox
    ensures P.Reaches(p, q) && ScannedInto(p, NewSecretClaims(s, t), q) && HasSecrets(q, t)
  {
    var add := NewSecretClaims(s, t);
    SecretPageCanScan(p, s, t, page, jobIds);
    q := ScanAll(p, add);
    forall id ensures SecretKey(id) in q.claims <==> id in t.claims {
      assert SecretKey(id) in add <==> id in t.claims && id !in s.claims;
    }
  }

  /** A claim on a secret's object is never stuck. */
  lemma SecretClaimNeverStuck(p: P.Pipe, s: SP.State, id: nat)
    requires P.Reachable(p) && HasSecrets(p, s) && id in s.claims
    ensures var job := s.claims[id];
            && HasJob(p, job, SecretKey(id))
            && (!p.outbox[job].state.Published? || exists m :: m in p.broker && p.broker[m] == Some(p.outbox[job].event))
  {
    P.ClaimNeverStuck(p, SecretKey(id));
  }
}
