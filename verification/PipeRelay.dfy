/** The live relay's rendezvous table. Each method is one critical section of the coordinator, or one
    once-guarded close; handlers hold on to session objects between them, so an interleaving of senders,
    receivers, attempts and the cleaner is a sequence of calls. */
module PipeRelay {
  import opened Common

  type CodeHash = nat

  const MAX_FAILED_ATTEMPTS := 3
  const CODE_TRIES := 10

  datatype Metadata = Metadata(kind: string, encryptedFilename: string)

  datatype Connection = Connected(session: Session) | NotFound | AlreadyConnected

  datatype InitAnswer = Created(session: Session) | CapacityExceeded | NoUniqueCode

  datatype AttemptAnswer = Recorded | Burned | UnknownCode

  /** The once-flags and what they let through: how often each guarded step really ran. */
  class Session {
    const hash: CodeHash
    const expiresAt: Time
    var failedAttempts: nat
    var burned: bool
    var meta: Metadata
    var receiverReady: bool
    var senderReady: bool
    var done: bool
    var receivers: nat
    var senders: nat
    var closes: nat

    /** Each once-flag has let its step through exactly when it is set. */
    predicate Ok()
      reads this
    {
      && receivers == (if receiverReady then 1 else 0) && senders == (if senderReady then 1 else 0)
      && closes == (if done then 1 else 0)
    }

    constructor (hash: CodeHash, expiresAt: Time)
      ensures this.hash == hash && this.expiresAt == expiresAt && Ok()
      ensures !burned && failedAttempts == 0 && !receiverReady && !senderReady && !done
    {
      this.hash, this.expiresAt, failedAttempts, burned, meta := hash, expiresAt, 0, false, Metadata("", "");
      receiverReady, senderReady, done, receivers, senders, closes := false, false, false, 0, 0, 0;
    }

    method CloseOnce()
      requires Ok()
      modifies this`done, this`closes
      ensures Ok() && done
    {
      if !done {
        done, closes := true, closes + 1;
      }
    }
  }

  class Coordinator {
    var sessions: map<CodeHash, Session>
    var stopped: bool
    const maxConcurrent: nat
    const ttl: Time
    ghost var created: set<Session>

    ghost predicate InTable(s: Session)
      reads this
    {
      s.hash in sessions && sessions[s.hash] == s
    }

    predicate WithinCap()
      reads this
    {
      |sessions| <= maxConcurrent
    }

    /** The session the code names, if any. */
    ghost function Named(hash: CodeHash): set<Session>
      reads this
    {
      if hash in sessions then {sessions[hash]} else {}
    }

    /** A session is closed or still in the table. */
    ghost predicate Tracked(s: Session)
      reads this, s
    {
      s.Ok() && (!InTable(s) ==> s.done)
    }

    ghost predicate Usable(s: Session)
      reads s
    {
      !s.burned && s.failedAttempts < MAX_FAILED_ATTEMPTS
    }

    ghost predicate Consistent()
      reads this, created
    {
      && (forall h :: h in sessions ==> sessions[h] in created && sessions[h].hash == h)
      && (forall s :: s in created ==> Tracked(s))
    }

    /** Nothing in the table is burned or has used up its attempts, except under `hash`. */
    ghost predicate UsableBut(hash: Option<CodeHash>)
      requires Consistent()
      reads this, created
    {
      forall h :: h in sessions && Some(h) != hash ==> Usable(sessions[h])
    }

    ghost predicate Valid()
      reads this, created
    {
      Consistent() && UsableBut(None)
    }

    constructor (maxConcurrent: int, ttl: Time)
      ensures Valid() && WithinCap() && sessions == map[] && created == {} && !stopped
      ensures this.maxConcurrent == if maxConcurrent <= 0 then 100 else maxConcurrent
    {
      sessions, created, stopped := map[], {}, false;
      this.maxConcurrent := if maxConcurrent <= 0 then 100 else maxConcurrent;
      this.ttl := if ttl <= 0 then 3 * MINUTE else ttl;
    }

    /** Opens a session under the first of at most ten random codes that is free. */
    method Init(codes: seq<CodeHash>, now: Time) returns (r: InitAnswer)
      requires Valid() && WithinCap() && |codes| == CODE_TRIES
      modifies this`sessions, this`created
      ensures Valid() && WithinCap()
      ensures r.CapacityExceeded? <==> |old(sessions)| >= maxConcurrent
      ensures r.NoUniqueCode? <==> |old(sessions)| < maxConcurrent && forall h :: h in codes ==> h in old(sessions)
      ensures r.Created? ==>
                && fresh(r.session) && r.session.hash in codes && r.session.hash !in old(sessions)
                && sessions == old(sessions)[r.session.hash := r.session] && created == old(created) + {r.session}
                && r.session.expiresAt == now + ttl
      ensures !r.Created? ==> sessions == old(sessions) && created == old(created)
    {
      if |sessions| >= maxConcurrent {
        return CapacityExceeded;
      }
      var i := 0;
      while i < |codes| && codes[i] in sessions
        invariant i <= |codes| && forall k :: 0 <= k < i ==> codes[k] in sessions
      {
        i := i + 1;
      }
      if i == |codes| {
        return NoUniqueCode;
      }
      var s := new Session(codes[i], now + ttl);
      sessions := sessions[codes[i] := s];
      created := created + {s};
      r := Created(s);
    }

    /** The receiver's turn at the table. A session found there is never burned, so the first receiver
        gets it and every other is refused. */
    method ConnectReceiver(hash: CodeHash) returns (r: Connection)
      requires Valid()
      modifies Named(hash)
      ensures Valid() && (r.NotFound? <==> hash !in sessions)
      ensures r.Connected? ==> hash in sessions && r.session == sessions[hash] && !old(r.session.receiverReady) && r.session.receiverReady
      ensures r.AlreadyConnected? <==> hash in sessions && old(sessions[hash].receiverReady)
    {
      if hash !in sessions {
        return NotFound;
      }
      var s := sessions[hash];
      assert Usable(s) && Tracked(s);
      if s.receiverReady {
        return AlreadyConnected;
      }
      s.receiverReady, s.receivers := true, s.receivers + 1;
      r := Connected(s);
    }

    /** The sender's turn. The metadata is written first, so a refused sender has replaced it too. */
    method ConnectSender(hash: CodeHash, meta: Metadata) returns (r: Connection)
      requires Valid()
      modifies Named(hash)
      ensures Valid() && (r.NotFound? <==> hash !in sessions)
      ensures hash in sessions ==> sessions[hash].meta == meta
      ensures r.Connected? ==> hash in sessions && r.session == sessions[hash] && !old(r.session.senderReady) && r.session.senderReady
      ensures r.AlreadyConnected? <==> hash in sessions && old(sessions[hash].senderReady)
    {
      if hash !in sessions {
        return NotFound;
      }
      var s := sessions[hash];
      assert Usable(s) && Tracked(s);
      s.meta := meta;
      if s.senderReady {
        return AlreadyConnected;
      }
      s.senderReady, s.senders := true, s.senders + 1;
      r := Connected(s);
    }

    /** A receiver that leaves closes its own session, in or out of the table. */
    method CloseSession(s: Session)
      requires Valid() && s in created
      modifies s`done, s`closes
      ensures Valid() && s.done
    {
      assert Tracked(s);
      s.CloseOnce();
    }

    /** Takes whatever session the code names now out of the table, closing it if nobody has. */
    method Remove(hash: CodeHash)
      requires Consistent() && UsableBut(Some(hash))
      modifies this`sessions, Named(hash)`done, Named(hash)`closes
      ensures Valid() && sessions == old(sessions) - {hash}
      ensures hash in old(sessions) ==> old(sessions)[hash].done
    {
      if hash !in sessions {
        assert sessions - {hash} == sessions;
        return;
      }
      var s := sessions[hash];
      assert Tracked(s);
      s.CloseOnce();
      sessions := sessions - {hash};
    }

    /** burnSession: by code, so a handler that outlived its session may take out a newer one. */
    method BurnSession(hash: CodeHash)
      requires Valid() && WithinCap()
      modifies this`sessions, Named(hash)`done, Named(hash)`closes
      ensures Valid() && WithinCap() && sessions == old(sessions) - {hash}
      ensures hash in old(sessions) ==> old(sessions)[hash].done
    {
      Remove(hash);
      RemovalKeepsCap(this, old(sessions), {hash});
    }

    /** The third wrong attempt burns the session and takes it out in the same critical section. */
    method RecordFailedAttempt(hash: CodeHash) returns (r: AttemptAnswer)
      requires Valid() && WithinCap()
      modifies this`sessions, Named(hash)
      ensures Valid() && WithinCap() && (r.UnknownCode? <==> hash !in old(sessions))
      ensures r.Burned? <==> hash in old(sessions) && old(sessions[hash].failedAttempts) == MAX_FAILED_ATTEMPTS - 1
      ensures r.Burned? ==> sessions == old(sessions) - {hash} && old(sessions)[hash].burned && old(sessions)[hash].done
      ensures !r.Burned? ==> sessions == old(sessions)
      ensures r.Recorded? ==> sessions[hash].failedAttempts == old(sessions[hash].failedAttempts) + 1
    {
      if hash !in sessions {
        return UnknownCode;
      }
      var s := sessions[hash];
      assert Usable(s) && Tracked(s);
      s.failedAttempts := s.failedAttempts + 1;
      if s.failedAttempts < MAX_FAILED_ATTEMPTS {
        return Recorded;
      }
      Burn(hash);
      r := Burned;
    }

    /** The session has used up its attempts: it is burned and leaves the table. */
    method Burn(hash: CodeHash)
      requires Consistent() && UsableBut(Some(hash)) && WithinCap() && hash in sessions
      modifies this`sessions, Named(hash)`burned, Named(hash)`done, Named(hash)`closes
      ensures Valid() && WithinCap() && sessions == old(sessions) - {hash}
      ensures old(sessions)[hash].burned && old(sessions)[hash].done
    {
      sessions[hash].burned := true;
      Remove(hash);
      RemovalKeepsCap(this, old(sessions), {hash});
    }

    /** Every named session goes, closed. */
    method RemoveAll(hashes: set<CodeHash>)
      requires Valid()
      modifies this`sessions, created
      ensures Valid() && sessions == old(sessions) - hashes
      ensures forall h :: h in hashes && h in old(sessions) ==> old(sessions)[h].done
    {
      var rest := hashes;
      while rest != {}
        invariant Valid() && rest <= hashes
        invariant sessions == old(sessions) - (hashes - rest)
        invariant forall s :: s in created && old(s.done) ==> s.done
        invariant forall h :: h in hashes && h !in rest && h in old(sessions) ==> old(sessions)[h].done
        decreases rest
      {
        var hash :| hash in rest;
        RemoveNext(hash);
        rest := rest - {hash};
      }
      assert hashes - rest == hashes;
    }

    method RemoveNext(hash: CodeHash)
      requires Valid()
      modifies this`sessions, created
      ensures Valid() && sessions == old(sessions) - {hash}
      ensures hash in old(sessions) ==> old(sessions)[hash].done
      ensures forall s :: s in created && old(s.done) ==> s.done
    {
      Remove(hash);
    }

    /** The cleaner's pass. */
    method CleanExpired(now: Time)
      requires Valid() && WithinCap()
      modifies this`sessions, created
      ensures Valid() && WithinCap()
      ensures forall h :: h in sessions <==> h in old(sessions) && now <= old(sessions[h].expiresAt)
      ensures forall h :: h in sessions ==> sessions[h] == old(sessions)[h]
      ensures forall h :: h in old(sessions) && h !in sessions ==> old(sessions)[h].done
    {
      var expired := set h | h in sessions && now > sessions[h].expiresAt;
      RemoveAll(expired);
      RemovalKeepsCap(this, old(sessions), expired);
    }

    /** Shutdown: afterwards every session there ever was has been closed exactly once. A second call finds
        the coordinator stopped and leaves the table alone, whatever was opened since. */
    method Close()
      requires Valid() && WithinCap()
      modifies this`sessions, this`stopped, created
      ensures Valid() && WithinCap() && stopped
      ensures !old(stopped) ==> sessions == map[] && forall s :: s in created ==> s.done && s.closes == 1
      ensures old(stopped) ==> sessions == old(sessions) && forall s :: s in created ==> unchanged(s)
    {
      if stopped {
        return;
      }
      stopped := true;
      RemoveAll(sessions.Keys);
      assert forall s :: s in created ==> Tracked(s);
    }
  }

  /** What the table promises in every state: one receiver and one sender a session at most, exactly one
      close for a session that has left the table, and nothing burned or used up left inside it. */
  lemma RendezvousGuarantees(c: Coordinator, s: Session)
    requires c.Valid() && s in c.created
    ensures s.receivers <= 1 && s.senders <= 1 && s.closes <= 1
    ensures !c.InTable(s) ==> s.closes == 1
    ensures c.InTable(s) ==> !s.burned && s.failedAttempts < 3
  {}

  /** Taking sessions out never exceeds the cap. */
  lemma RemovalKeepsCap(c: Coordinator, before: map<CodeHash, Session>, hashes: set<CodeHash>)
    requires |before| <= c.maxConcurrent && c.sessions == before - hashes
    ensures c.WithinCap()
  {}
}
