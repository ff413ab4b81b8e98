/** Whole runs of request reconciliations: any number of callers of ReconcileOnce, each step of theirs
    interleaved with each other's and with everything else that happens to the tables and the bucket. */
module RequestScans {
  import opened Common
  import C = ScanCoverage
  import S = ScanPages
  import Q = RequestTables
  import QS = RequestStore

  /** A reconciliation in progress: it has read the cursor row, and then also got its listing. */
  datatype Call = Reading(cursor: Option<Key>, generation: nat)
                | Listed(cursor: Option<Key>, generation: nat, listing: QS.Listing)

  /** The tables, the clock, the bucket's keys, and the reconciliations in progress. */
  datatype Desk = Desk(tx: Q.Tx, now: Time, bucket: set<Key>, calls: map<C.ScannerId, Call>)

  datatype DeskMove =
    | Elsewhere(tx: Q.Tx, now: Time, bucket: set<Key>)
    | Begin(p: C.ScannerId)
    | Answer(p: C.ScannerId, listing: QS.Listing)
    | Finish(p: C.ScannerId, objects: bool, limit: int, after: Q.Tx, outcome: QS.ScanOutcome)
    | Stop(p: C.ScannerId)

  /** Everything else leaves the cursor row alone; a reconciliation begins, is answered by the bucket, and
      ends as ReconcileOnce does, or not at all. */
  ghost predicate DeskStep(rank: Key -> int, d: Desk, m: DeskMove, e: Desk) {
    match m
    case Elsewhere(tx, now, bucket) =>
      tx.cursor == d.tx.cursor && tx.cursorGeneration == d.tx.cursorGeneration && e == Desk(tx, now, bucket, d.calls)
    case Begin(p) => e == d.(calls := d.calls[p := Reading(d.tx.cursor, d.tx.cursorGeneration)])
    case Answer(p, listing) =>
      && p in d.calls && d.calls[p].Reading?
      && (listing.Page? ==> C.Lists(rank, d.bucket, d.calls[p].cursor, listing.keys, listing.next))
      && e == d.(calls := d.calls[p := Listed(d.calls[p].cursor, d.calls[p].generation, listing)])
    case Finish(p, objects, limit, after, outcome) =>
      && p in d.calls && d.calls[p].Listed?
      && QS.Reconciles(objects, limit, d.calls[p].listing, d.calls[p].cursor, d.calls[p].generation, d.tx, after, d.now, outcome)
      && e == d.(tx := after, calls := d.calls - {p})
    case Stop(p) => e == d.(calls := d.calls - {p})
  }

  ghost predicate DeskNext(rank: Key -> int, d: Desk, e: Desk) {
    exists m :: DeskStep(rank, d, m, e)
  }

  /** A reconciliation committed its page. */
  ghost predicate PageCommitted(rank: Key -> int, d: Desk, e: Desk) {
    exists m: DeskMove :: m.Finish? && m.outcome.Scanned? && DeskStep(rank, d, m, e)
  }

  ghost predicate DeskRun(rank: Key -> int, h: seq<Desk>) {
    && h != [] && h[0].tx.cursor.None? && h[0].tx.cursorGeneration == 0 && h[0].calls == map[]
    && forall i :: 0 <= i < |h| - 1 ==> DeskStepAt(rank, h, i)
  }

  ghost predicate DeskStepAt(rank: Key -> int, h: seq<Desk>, i: nat)
    requires i + 1 < |h|
  {
    DeskNext(rank, h[i], h[i + 1])
  }

  ghost function ReaderOf(c: Call): C.Reader {
    if c.Listed? && c.listing.Page? then C.HasPage(c.cursor, c.generation, c.listing.keys, c.listing.next)
    else C.HasCursor(c.cursor, c.generation)
  }

  ghost predicate Unprotected(d: Desk, k: Key) {
    k.RequestKey? && !Q.RowsProtect(d.tx.rows, k, d.now)
  }

  ghost function DeskView(d: Desk): C.Scan {
    C.Scan(d.tx.cursor, d.tx.cursorGeneration, d.bucket, (iset k: Key | Unprotected(d, k)), d.tx.claims.Keys,
           map p | p in d.calls :: ReaderOf(d.calls[p]))
  }

  lemma FinishIsStep(rank: Key -> int, d: Desk, m: DeskMove, e: Desk)
    requires m.Finish? && DeskStep(rank, d, m, e)
    ensures C.Next(rank, DeskView(d), DeskView(e))
    ensures m.outcome.Scanned? ==> C.Commits(rank, DeskView(d), DeskView(e))
  {
    var s, t := DeskView(d), DeskView(e);
    assert t.readers == s.readers - {m.p};
    if m.outcome.Scanned? {
      var v := C.CommitPage(m.p);
      assert C.Allowed(rank, s, v);
      S.RequestPageIsCommit(rank, s, m.p, d.tx, e.tx, d.now, m.outcome.count);
      assert t == C.Apply(rank, s, v);
    } else if m.outcome.Restarted? {
      var v := C.ResetCursor(m.p);
      assert C.Allowed(rank, s, v) && t == C.Apply(rank, s, v);
    } else {
      var v := C.Leave(m.p);
      assert C.Allowed(rank, s, v) && t == C.Apply(rank, s, v);
    }
  }

  lemma DeskStepIsStep(rank: Key -> int, d: Desk, m: DeskMove, e: Desk)
    requires DeskStep(rank, d, m, e)
    ensures C.Next(rank, DeskView(d), DeskView(e))
  {
    var s, t := DeskView(d), DeskView(e);
    match m {
      case Elsewhere(_, _, _) =>
        var v := C.Outside(t.bucket, t.exposed, t.claimed);
        assert C.Allowed(rank, s, v) && t == C.Apply(rank, s, v);
      case Begin(p) =>
        var v := C.ReadCursor(p);
        assert C.Allowed(rank, s, v) && t == C.Apply(rank, s, v);
      case Answer(p, listing) =>
        var v := if listing.Page? then C.List(p, listing.keys, listing.next) else C.Outside(s.bucket, s.exposed, s.claimed);
        assert C.Allowed(rank, s, v) && t == C.Apply(rank, s, v);
      case Finish(_, _, _, _, _) => FinishIsStep(rank, d, m, e);
      case Stop(p) =>
        var v := C.Leave(p);
        assert C.Allowed(rank, s, v) && t == C.Apply(rank, s, v);
    }
  }

  /** Only a committed page commits. */
  lemma CommitWasPage(rank: Key -> int, d: Desk, e: Desk)
    requires DeskNext(rank, d, e) && C.Commits(rank, DeskView(d), DeskView(e))
    ensures PageCommitted(rank, d, e)
  {
    var s, t := DeskView(d), DeskView(e);
    var p :| C.Allowed(rank, s, C.CommitPage(p)) && t == C.Apply(rank, s, C.CommitPage(p));
    var m :| DeskStep(rank, d, m, e);
    assert t.generation == s.generation + 1 && t.readers == s.readers - {p};
    assert p in d.calls && p !in e.calls && d.calls[p].Listed? && d.calls[p].listing.Page?;
  }

  ghost function Views(h: seq<Desk>): (v: seq<C.Scan>)
    ensures |v| == |h| && forall i :: 0 <= i < |h| ==> v[i] == DeskView(h[i])
  {
    seq(|h|, i requires 0 <= i < |h| => DeskView(h[i]))
  }

  lemma DeskRunIsRun(rank: Key -> int, h: seq<Desk>)
    requires DeskRun(rank, h)
    ensures C.IsRun(rank, Views(h))
  {
    forall i | 0 <= i < |h| - 1 ensures C.StepAt(rank, Views(h), i) {
      assert DeskStepAt(rank, h, i);
      var m :| DeskStep(rank, h[i], m, h[i + 1]);
      DeskStepIsStep(rank, h[i], m, h[i + 1]);
    }
    assert Views(h)[0].readers == map[];
  }

  lemma PageIsCommit(rank: Key -> int, d: Desk, e: Desk)
    requires PageCommitted(rank, d, e)
    ensures C.Commits(rank, DeskView(d), DeskView(e))
  {
    var m: DeskMove :| m.Finish? && m.outcome.Scanned? && DeskStep(rank, d, m, e);
    FinishIsStep(rank, d, m, e);
  }

  lemma PresentThroughout(h: seq<Desk>, a: nat, b: nat, k: Key)
    requires b <= |h| && forall i :: a <= i < b ==> k in h[i].bucket && Unprotected(h[i], k)
    ensures forall i :: a <= i < b ==> k in Views(h)[i].bucket && k in Views(h)[i].exposed
  {}

  /** Over any run of any number of concurrent reconciliations: a complete pass, from the cursor's return to
      the beginning until a committed page has no successor, leaves claimed at one of its pages every request
      key that was in the bucket and protected by no row throughout. */
  lemma PassCovers(rank: Key -> int, h: seq<Desk>, a: nat, b: nat, k: Key) returns (i: nat)
    requires DeskRun(rank, h) && a < b < |h|
    requires h[a].tx.cursor.None? && (a == 0 || h[a - 1].tx.cursorGeneration < h[a].tx.cursorGeneration)
    requires PageCommitted(rank, h[b - 1], h[b]) && h[b].tx.cursor.None?
    requires forall i :: a <= i < b ==> k in h[i].bucket && Unprotected(h[i], k)
    ensures a <= i < b && PageCommitted(rank, h[i], h[i + 1]) && k in h[i + 1].tx.claims
  {
    DeskRunIsRun(rank, h);
    PageIsCommit(rank, h[b - 1], h[b]);
    PresentThroughout(h, a, b, k);
    assert C.Begins(Views(h), a);
    i := C.PassCovers(rank, Views(h), a, b, k);
    assert DeskStepAt(rank, h, i);
    CommitWasPage(rank, h[i], h[i + 1]);
  }
}
