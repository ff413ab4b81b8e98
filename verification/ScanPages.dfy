/** The two reconcilers commit pages as the coverage argument takes them: what their transactions do to
    the cursor row and the claims is the scan machine's commit. */
module ScanPages {
  import opened Common
  import C = ScanCoverage
  import Q = RequestTables
  import QT = RequestTx
  import QS = RequestStore
  import SP = SecretProtocol
  import SS = SecretStore

  /** The scan machine's view of the request tables at a clock reading. */
  ghost predicate RequestView(s: C.Scan, tx: Q.Tx, now: Time) {
    && s.cursor == tx.cursor && s.generation == tx.cursorGeneration && s.claimed == tx.claims.Keys
    && s.exposed == iset k: Key | k.RequestKey? && !Q.RowsProtect(tx.rows, k, now)
  }

  lemma RequestPageIsCommit(rank: Key -> int, s: C.Scan, p: C.ScannerId, tx: Q.Tx, after: Q.Tx, now: Time, count: nat)
    requires RequestView(s, tx, now) && C.Allowed(rank, s, C.CommitPage(p))
    requires QS.ScansPage(tx, after, s.readers[p].keys, s.readers[p].next, now, count)
    ensures RequestView(C.Apply(rank, s, C.CommitPage(p)), after, now)
  {}

  ghost function SecretKeys(ids: set<nat>): set<Key> {
    set id | id in ids :: SecretKey(id)
  }

  ghost predicate SecretView(s: C.Scan, cursor: Option<nat>, generation: nat, t: SP.State) {
    && s.cursor == (if cursor.None? then None else Some(SecretKey(cursor.value))) && s.generation == generation
    && s.claimed == SecretKeys(t.claims.Keys)
    && s.exposed == iset k: Key | k.SecretKey? && !SP.Protected(t, k.secret)
  }

  lemma SecretPageIsCommit(rank: Key -> int, s: C.Scan, p: C.ScannerId, cursor: Option<nat>, generation: nat,
                           before: SP.State, after: SP.State, page: seq<nat>, next: Option<nat>)
    requires SecretView(s, cursor, generation, before) && C.Allowed(rank, s, C.CommitPage(p))
    requires s.readers[p].keys == seq(|page|, i requires 0 <= i < |page| => SecretKey(page[i]))
    requires s.readers[p].next == (if next.None? then None else Some(SecretKey(next.value)))
    requires SS.Scanned(before, after, SS.Exposed(before, page))
    ensures SecretView(C.Apply(rank, s, C.CommitPage(p)), next, generation + 1, after)
  {
    var keys := s.readers[p].keys;
    forall id ensures SecretKey(id) in keys <==> id in page {
      if id in page {
        var i :| 0 <= i < |page| && page[i] == id;
        assert keys[i] == SecretKey(id);
      }
    }
    assert C.Found(s, keys) == SecretKeys(SS.Exposed(before, page));
    assert forall id :: SP.Protected(after, id) == SP.Protected(before, id);
  }

  /** A refused cursor: both reconcilers start over as the scan machine does. */
  lemma ResetIsReset(rank: Key -> int, s: C.Scan, p: C.ScannerId, tx: Q.Tx, now: Time, cursor: Option<nat>, t: SP.State)
    requires C.Allowed(rank, s, C.ResetCursor(p))
    ensures RequestView(s, tx, now) ==>
              RequestView(C.Apply(rank, s, C.ResetCursor(p)), tx.(cursor := None, cursorGeneration := tx.cursorGeneration + 1), now)
    ensures SecretView(s, cursor, s.generation, t) ==>
              SecretView(C.Apply(rank, s, C.ResetCursor(p)), None, s.generation + 1, t)
  {}
}
