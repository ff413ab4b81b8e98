/** Whole runs of secret reconciliations: any number of scanners over one cursor row, interleaved with each
    other and with everything else that happens to the secrets and the bucket. */
module SecretScans {
  import opened Common
  import C = ScanCoverage
  import S = ScanPages
  import SP = SecretProtocol
  import SS = SecretStore

  /** A reconciliation in progress: it has read the cursor row, and then also got a page. */
  datatype Call = Reading(cursor: Option<nat>, generation: nat)
                | Listed(cursor: Option<nat>, generation: nat, page: seq<nat>, next: Option<nat>)

  datatype Desk = Desk(cursor: Option<nat>, generation: nat, s: SP.State, calls: map<C.ScannerId, Call>)

  datatype DeskMove =
    | Elsewhere(s: SP.State)
    | Begin(p: C.ScannerId)
    | Answer(p: C.ScannerId, page: seq<nat>, next: Option<nat>)
    | Commit(p: C.ScannerId, after: SP.State, jobIds: seq<nat>)
    | Reset(p: C.ScannerId)
    | Stop(p: C.ScannerId)

  function KeyOf(id: Option<nat>): Option<Key> {
    if id.None? then None else Some(SecretKey(id.value))
  }

  function PageKeys(page: seq<nat>): (keys: seq<Key>)
    ensures |keys| == |page| && forall i :: 0 <= i < |page| ==> keys[i] == SecretKey(page[i])
  {
    seq(|page|, i requires 0 <= i < |page| => SecretKey(page[i]))
  }

  /** Everything else leaves the cursor row alone. A page commits as CommitPage does, under the generation it
      was listed at; a cursor the bucket refused is reset as ResetCursor does; any other end changes nothing. */
  ghost predicate DeskStep(rank: Key -> int, d: Desk, m: DeskMove, e: Desk) {
    match m
    case Elsewhere(s) => e == d.(s := s)
    case Begin(p) => e == d.(calls := d.calls[p := Reading(d.cursor, d.generation)])
    case Answer(p, page, next) =>
      && p in d.calls && d.calls[p].Reading?
      && C.Lists(rank, S.SecretKeys(d.s.bucket.Keys), KeyOf(d.calls[p].cursor), PageKeys(page), KeyOf(next))
      && e == d.(calls := d.calls[p := Listed(d.calls[p].cursor, d.calls[p].generation, page, next)])
    case Commit(p, after, jobIds) =>
      && p in d.calls && d.calls[p].Listed? && d.calls[p].generation == d.generation && |jobIds| == |d.calls[p].page|
      && SS.PageScanned(d.s, after, d.calls[p].page, jobIds)
      && e == Desk(d.calls[p].next, d.generation + 1, after, d.calls - {p})
    case Reset(p) =>
      && p in d.calls && d.calls[p].Reading? && d.calls[p].cursor.Some? && d.calls[p].generation == d.generation
      && e == d.(cursor := None, generation := d.generation + 1, calls := d.calls - {p})
    case Stop(p) => e == d.(calls := d.calls - {p})
  }

  ghost predicate DeskNext(rank: Key -> int, d: Desk, e: Desk) {
    exists m :: DeskStep(rank, d, m, e)
  }

  ghost predicate PageCommitted(rank: Key -> int, d: Desk, e: Desk) {
    exists m: DeskMove :: m.Commit? && DeskStep(rank, d, m, e)
  }

  ghost predicate DeskStepAt(rank: Key -> int, h: seq<Desk>, i: nat)
    requires i + 1 < |h|
  {
    DeskNext(rank, h[i], h[i + 1])
  }

  ghost predicate DeskRun(rank: Key -> int, h: seq<Desk>) {
    && h != [] && h[0].cursor.None? && h[0].generation == 0 && h[0].calls == map[]
    && forall i :: 0 <= i < |h| - 1 ==> DeskStepAt(rank, h, i)
  }

  ghost function ReaderOf(c: Call): C.Reader {
    match c
    case Reading(cursor, generation) => C.HasCursor(KeyOf(cursor), generation)
    case Listed(cursor, generation, page, next) => C.HasPage(KeyOf(cursor), generation, PageKeys(page), KeyOf(next))
  }

  ghost function DeskView(d: Desk): C.Scan {
    C.Scan(KeyOf(d.cursor), d.generation, S.SecretKeys(d.s.bucket.Keys),
           (iset k: Key | k.SecretKey? && !SP.Protected(d.s, k.secret)), S.SecretKeys(d.s.claims.Keys),
           map p | p in d.calls :: ReaderOf(d.calls[p]))
  }

  lemma CommitIsCommit(rank: Key -> int, d: Desk, m: DeskMove, e: Desk)
    requires m.Commit? && DeskStep(rank, d, m, e)
    ensures C.Commits(rank, DeskView(d), DeskView(e))
  {
    var s, t, v := DeskView(d), DeskView(e), C.CommitPage(m.p);
    var call := d.calls[m.p];
    assert C.Allowed(rank, s, v);
    S.SecretPageIsCommit(rank, s, m.p, d.cursor, d.generation, d.s, e.s, call.page, call.next);
    assert t.readers == s.readers - {m.p};
    assert t == C.Apply(rank, s, v);
  }

  lemma DeskStepIsStep(rank: Key -> int, d: Desk, m: DeskMove, e: Desk)
    requires DeskStep(rank, d, m, e)
    ensures C.Next(rank, DeskView(d), DeskView(e))
  {
    var s, t := DeskView(d), DeskView(e);
    match m {
      case Elsewhere(_) =>
        var v := C.Outside(t.bucket, t.exposed, t.claimed);
        assert C.Allowed(rank, s, v) && t == C.Apply(rank, s, v);
      case Begin(p) =>
        var v := C.ReadCursor(p);
        assert C.Allowed(rank, s, v) && t == C.Apply(rank, s, v);
      case Answer(p, page, next) =>
        var v := C.List(p, PageKeys(page), KeyOf(next));
        assert C.Allowed(rank, s, v) && t == C.Apply(rank, s, v);
      case Commit(_, _, _) => CommitIsCommit(rank, d, m, e);
      case Reset(p) =>
        var v := C.ResetCursor(p);
        assert C.Allowed(rank, s, v) && t == C.Apply(rank, s, v);
      case Stop(p) =>
        var v := C.Leave(p);
        assert C.Allowed(rank, s, v) && t == C.Apply(rank, s, v);
    }
  }

  /** Only a committed page commits. */
  lemma CommitWasPage(rank: Key -> int, d: Desk, e: Desk)
    requires DeskNext(rank, d, e) && C.Commits(rank, DeskView(d), DeskView(e))
    ensures PageCommitted(rank, d, e)
  {
    var s, t := DeskView(d), DeskView(e);
    var p :| C.Allowed(rank, s, C.CommitPage(p)) && t == C.Apply(rank, s, C.CommitPage(p));
    var m :| DeskStep(rank, d, m, e);
    assert t.generation == s.generation + 1 && t.readers == s.readers - {p};
    assert p in d.calls && p !in e.calls && d.calls[p].Listed?;
  }

  ghost function Views(h: seq<Desk>): (v: seq<C.Scan>)
    ensures |v| == |h| && forall i :: 0 <= i < |h| ==> v[i] == DeskView(h[i])
  {
    seq(|h|, i requires 0 <= i < |h| => DeskView(h[i]))
  }

  lemma DeskRunIsRun(rank: Key -> int, h: seq<Desk>)
    requires DeskRun(rank, h)
    ensures C.IsRun(rank, Views(h))
  {
    forall i | 0 <= i < |h| - 1 ensures C.StepAt(rank, Views(h), i) {
      assert DeskStepAt(rank, h, i);
      var m :| DeskStep(rank, h[i], m, h[i + 1]);
      DeskStepIsStep(rank, h[i], m, h[i + 1]);
    }
    assert Views(h)[0].readers == map[];
  }

  lemma PresentThroughout(h: seq<Desk>, a: nat, b: nat, id: nat)
    requires b <= |h| && forall i :: a <= i < b ==> id in h[i].s.bucket && !SP.Protected(h[i].s, id)
    ensures forall i :: a <= i < b ==> SecretKey(id) in Views(h)[i].bucket && SecretKey(id) in Views(h)[i].exposed
  {}

  lemma PageIsCommit(rank: Key -> int, d: Desk, e: Desk)
    requires PageCommitted(rank, d, e)
    ensures C.Commits(rank, DeskView(d), DeskView(e))
  {
    var m: DeskMove :| m.Commit? && DeskStep(rank, d, m, e);
    CommitIsCommit(rank, d, m, e);
  }

  /** Over any run of any number of concurrent scanners: a complete pass leaves claimed, at one of its pages,
      every secret's object that was in the bucket and protected by no row throughout. */
  lemma PassCovers(rank: Key -> int, h: seq<Desk>, a: nat, b: nat, id: nat) returns (i: nat)
    requires DeskRun(rank, h) && a < b < |h|
    requires h[a].cursor.None? && (a == 0 || h[a - 1].generation < h[a].generation)
    requires PageCommitted(rank, h[b - 1], h[b]) && h[b].cursor.None?
    requires forall i :: a <= i < b ==> id in h[i].s.bucket && !SP.Protected(h[i].s, id)
    ensures a <= i < b && PageCommitted(rank, h[i], h[i + 1]) && id in h[i + 1].s.claims
  {
    DeskRunIsRun(rank, h);
    PageIsCommit(rank, h[b - 1], h[b]);
    PresentThroughout(h, a, b, id);
    assert C.Begins(Views(h), a);
    i := C.PassCovers(rank, Views(h), a, b, SecretKey(id));
    assert SecretKey(id) in S.SecretKeys(h[i + 1].s.claims.Keys);
    assert DeskStepAt(rank, h, i);
    CommitWasPage(rank, h[i], h[i + 1]);
  }
}
