/**
 Which requests are accepted, said without the service's state: by the registrations and acceptances that
 came before. Nothing that ought to be accepted is refused, and no idle session or replayed nonce gets through.
 */
module SigningSessions {
  import opened Options
  import opened SigningMessages
  import opened Signing

  /** The event counts as use of the session: it registers it, or it is an accepted request of it. */
  ghost predicate Uses(c: Crypto, offset: nat, events: seq<Event>, u: nat, id: Uuid)
    requires u < |events|
  {
    if events[u].Register? then events[u].id == id
    else events[u].request.sig.session == id && Accepted(c, offset, events, u)
  }

  ghost predicate LastUse(c: Crypto, offset: nat, events: seq<Event>, k: nat, id: Uuid, u: nat)
    requires k <= |events|
  {
    u < k && Uses(c, offset, events, u, id) && forall m :: u < m < k ==> !Uses(c, offset, events, m, id)
  }

  /** When a session was used: a registration counts from when it read the clock. */
  function UseTime(e: Event): Instant {
    if e.Verify? then e.clock.used else e.at
  }

  lemma LastUseUnique(c: Crypto, offset: nat, events: seq<Event>, k: nat, id: Uuid, u: nat, v: nat)
    requires k <= |events| && LastUse(c, offset, events, k, id, u) && LastUse(c, offset, events, k, id, v)
    ensures u == v
  {
  }

  lemma RegistrationUnique(events: seq<Event>, k: nat, id: Uuid, i: nat, j: nat)
    requires k <= |events| && RegisteredBy(events, k, id, i) && RegisteredBy(events, k, id, j)
    ensures i == j
  {
    assert forall m :: i < m < k ==> !(events[m].Register? && events[m].id == id);
    assert forall m :: j < m < k ==> !(events[m].Register? && events[m].id == id);
  }

  lemma UsedStep(c: Crypto, offset: nat, events: seq<Event>, k: nat, id: Uuid)
    requires 0 < k <= |events| && id in After(c, offset, events[..k])
    ensures var now, before := After(c, offset, events[..k])[id], After(c, offset, events[..k - 1]);
            if Uses(c, offset, events, k - 1, id) then now.lastUsedAt == UseTime(events[k - 1])
            else id in before && now.lastUsedAt == before[id].lastUsedAt
  {
    AfterStep(c, offset, events, k);
  }

  /** A session that is present was last used when its record says. */
  lemma {:induction false} PresentWasUsed(c: Crypto, offset: nat, events: seq<Event>, k: nat, id: Uuid) returns (u: nat)
    requires k <= |events| && id in After(c, offset, events[..k])
    ensures LastUse(c, offset, events, k, id, u)
    ensures After(c, offset, events[..k])[id].lastUsedAt == UseTime(events[u])
  {
    assert k > 0;
    hide After, Uses;
    UsedStep(c, offset, events, k, id);
    if Uses(c, offset, events, k - 1, id) {
      u := k - 1;
    } else {
      u := PresentWasUsed(c, offset, events, k - 1, id);
    }
  }

  predicate FreshAt(now: Instant, registered: Instant, used: Instant) {
    now - registered <= 3600 * SECOND && now - used <= 900 * SECOND
  }

  /** One step on a session that is present: it stays, unless it has expired when the step looks. */
  lemma StaysUnlessExpired(c: Crypto, offset: nat, sessions: Sessions, e: Event, id: Uuid)
    requires id in sessions
    requires e.Verify? ==> Live(sessions[id], e.clock.locked)
    ensures id in Step(c, offset, sessions, e)
  {
  }

  lemma UseIsPresent(c: Crypto, offset: nat, events: seq<Event>, u: nat, id: Uuid)
    requires u < |events| && Uses(c, offset, events, u, id)
    ensures id in After(c, offset, events[..u + 1])
  {
    AfterStep(c, offset, events, u + 1);
  }

  /** What is fresh now was fresh before, as far as the service can tell from the session's record. */
  lemma FreshIsLive(s: Session, before: Instant, now: Instant)
    requires before <= now && FreshAt(now, s.createdAt, s.lastUsedAt)
    ensures Live(s, before)
  {
  }

  lemma BeforeLast(c: Crypto, offset: nat, events: seq<Event>, k: nat, id: Uuid, i: nat, u: nat)
    requires 0 < k <= |events| && RegisteredBy(events, k, id, i) && LastUse(c, offset, events, k, id, u) && u < k - 1
    ensures RegisteredBy(events, k - 1, id, i) && LastUse(c, offset, events, k - 1, id, u)
  {
    hide Accepted;
    assert Uses(c, offset, events, i, id);
    assert i != k - 1;
    assert forall m :: i < m < k ==> !(events[m].Register? && events[m].id == id);
  }

  /** A session that has not expired by now has never been dropped. */
  lemma {:induction false} FreshIsPresent(c: Crypto, offset: nat, events: seq<Event>, k: nat, id: Uuid, i: nat, u: nat, now: Instant)
    requires k <= |events| && Timely(events)
    requires RegisteredBy(events, k, id, i) && LastUse(c, offset, events, k, id, u)
    requires FreshAt(now, events[i].at, UseTime(events[u]))
    requires forall m :: 0 <= m < k ==> LockedAt(events[m]) <= now
    ensures id in After(c, offset, events[..k])
    decreases k
  {
    hide Verified, Step, After, Uses, Live, FreshAt, Timely;
    if u == k - 1 {
      UseIsPresent(c, offset, events, u, id);
    } else {
      BeforeLast(c, offset, events, k, id, i, u);
      hide RegisteredBy, LastUse;
      FreshIsPresent(c, offset, events, k - 1, id, i, u, now);
      var j := SessionOrigin(c, offset, events, k - 1, id);
      RegistrationUnique(events, k - 1, id, i, j);
      var v := PresentWasUsed(c, offset, events, k - 1, id);
      LastUseUnique(c, offset, events, k - 1, id, u, v);
      var before := After(c, offset, events[..k - 1]);
      FreshIsLive(before[id], LockedAt(events[k - 1]), now);
      StaysUnlessExpired(c, offset, before, events[k - 1], id);
      AfterStep(c, offset, events, k);
    }
  }

  lemma NonceStep(c: Crypto, offset: nat, sessions: Sessions, e: Event, id: Uuid, nonce: Uuid)
    requires id in Step(c, offset, sessions, e) && nonce in Step(c, offset, sessions, e)[id].seen
    ensures !(e.Register? && e.id == id)
    ensures var now := Step(c, offset, sessions, e)[id].seen[nonce];
            || (e.Verify? && Verified(c, offset, sessions, e.clock, e.request).1.Ok? && e.request.sig.session == id
                && e.request.sig.nonce == nonce && now == e.clock.remembered)
            || (id in sessions && nonce in sessions[id].seen && now == sessions[id].seen[nonce])
  {
  }

  /** Every remembered nonce was accepted since the session's registration, at the time remembered with it. */
  lemma {:induction false} NonceOrigin(c: Crypto, offset: nat, events: seq<Event>, k: nat, id: Uuid, nonce: Uuid, i: nat)
    returns (m: nat)
    requires k <= |events| && RegisteredBy(events, k, id, i) && id in After(c, offset, events[..k])
    requires nonce in After(c, offset, events[..k])[id].seen
    ensures i < m < k && AcceptedWith(c, offset, events, m, id, nonce)
    ensures After(c, offset, events[..k])[id].seen[nonce] == events[m].clock.remembered
    decreases k
  {
    AfterStep(c, offset, events, k);
    NonceStep(c, offset, After(c, offset, events[..k - 1]), events[k - 1], id, nonce);
    hide Verified, Step, After;
    if AcceptedWith(c, offset, events, k - 1, id, nonce)
       && After(c, offset, events[..k])[id].seen[nonce] == events[k - 1].clock.remembered {
      m := k - 1;
    } else {
      assert !RegistersBetween(events, i, k - 1, id);
      m := NonceOrigin(c, offset, events, k - 1, id, nonce, i);
    }
  }

  predicate AcceptedWith(c: Crypto, offset: nat, events: seq<Event>, m: nat, id: Uuid, nonce: Uuid)
    requires m < |events|
  {
    Accepted(c, offset, events, m) && events[m].request.sig.session == id && events[m].request.sig.nonce == nonce
  }

  /** A request of the session with this nonce was accepted less than the nonce lifetime ago. */
  ghost predicate NonceTaken(c: Crypto, offset: nat, events: seq<Event>, j: nat, i: nat)
    requires j < |events| && events[j].Verify?
  {
    exists m :: i < m < j && AcceptedWith(c, offset, events, m, events[j].request.sig.session, events[j].request.sig.nonce)
                && events[j].clock.pruned - events[m].clock.remembered <= 120 * SECOND
  }

  lemma NonceTakenExactly(c: Crypto, offset: nat, events: seq<Event>, j: nat, i: nat)
    requires j < |events| && events[j].Verify? && Timely(events)
    requires RegisteredBy(events, j, events[j].request.sig.session, i)
    requires events[j].request.sig.session in After(c, offset, events[..j])
    ensures var s := After(c, offset, events[..j])[events[j].request.sig.session];
            NonceTaken(c, offset, events, j, i) <==>
            events[j].request.sig.nonce in PruneNonces(s.seen, events[j].clock.pruned)
  {
    var id, nonce, now := events[j].request.sig.session, events[j].request.sig.nonce, events[j].clock.pruned;
    var s := After(c, offset, events[..j])[id];
    forall m | i < m < j && AcceptedWith(c, offset, events, m, id, nonce) && now - events[m].clock.remembered <= 120 * SECOND
      ensures nonce in PruneNonces(s.seen, now)
    {
      assert !RegistersBetween(events, m, j, id);
      forall q | m < q < j && events[q].Verify?
        ensures events[q].clock.pruned <= now
      {
        assert ReleasedAt(events[q]) <= LockedAt(events[j]);
      }
      assert ReleasedAt(events[m]) <= LockedAt(events[j]);
      NonceRemembered(c, offset, events, m, j, now);
    }
    if nonce in PruneNonces(s.seen, now) {
      var m := NonceOrigin(c, offset, events, j, id, nonce, i);
      assert now - events[m].clock.remembered <= 120 * SECOND;
    }
  }

  /** The session of this request has been registered with a key, is neither too old nor idle, and the nonce is free. */
  ghost predicate Welcome(c: Crypto, offset: nat, events: seq<Event>, j: nat, i: nat, u: nat)
    requires j < |events| && events[j].Verify?
  {
    var id := events[j].request.sig.session;
    && i < j && RegisteredBy(events, j, id, i) && LastUse(c, offset, events, j, id, u)
    && FreshAt(events[j].clock.locked, events[i].at, UseTime(events[u]))
    && !NonceTaken(c, offset, events, j, i)
  }

  /** The checks on the request alone, and its signature under a registered key. */
  predicate WellSigned(c: Crypto, offset: nat, e: Event, key: PublicKey)
    requires e.Verify?
  {
    var signature := c.parse(e.request.sig.signatureB64);
    && -30 <= (offset + e.clock.checked) / SECOND - e.request.sig.timestamp <= 30 && (offset + e.clock.checked) / SECOND <= I64_MAX
    && signature.Some? && c.verify(key, MessageOf(c, e.request), signature.value)
  }

  lemma WelcomeIsAccepted(c: Crypto, offset: nat, events: seq<Event>, j: nat, i: nat, u: nat)
    requires j < |events| && events[j].Verify? && Timely(events)
    requires Welcome(c, offset, events, j, i, u) && WellSigned(c, offset, events[j], events[i].key)
    ensures Accepted(c, offset, events, j)
  {
    FreshAnswer(c, offset, events, j, i, u);
    hide RegisteredBy, LastUse, FreshAt, NonceTaken, Verified, After, Timely;
  }

  lemma AcceptedIsWelcome(c: Crypto, offset: nat, events: seq<Event>, j: nat) returns (i: nat, u: nat)
    requires j < |events| && Timely(events) && Accepted(c, offset, events, j)
    ensures Welcome(c, offset, events, j, i, u) && WellSigned(c, offset, events[j], events[i].key)
  {
    var id := events[j].request.sig.session;
    i := SessionOrigin(c, offset, events, j, id);
    u := PresentWasUsed(c, offset, events, j, id);
    NonceTakenExactly(c, offset, events, j, i);
  }

  /**
   Acceptance, exactly, in every timely run: the timestamp is in the window, the signature verifies under the
   key of the session's last registration, that registration is at most an hour old, the last registration
   or accepted request of the session at most fifteen minutes, and no request of the session with the
   same nonce has been accepted within two minutes since that registration.
   */
  lemma AcceptedExactlyWhen(c: Crypto, offset: nat, events: seq<Event>, j: nat)
    requires j < |events| && events[j].Verify? && Timely(events)
    ensures Accepted(c, offset, events, j) <==>
            exists i: nat, u: nat :: Welcome(c, offset, events, j, i, u) && WellSigned(c, offset, events[j], events[i].key)
  {
    if Accepted(c, offset, events, j) {
      var i, u := AcceptedIsWelcome(c, offset, events, j);
    }
    hide Accepted, WellSigned, RegisteredBy, LastUse, NonceTaken, FreshAt;
    forall i: nat, u: nat | Welcome(c, offset, events, j, i, u) && WellSigned(c, offset, events[j], events[i].key)
      ensures Accepted(c, offset, events, j)
    {
      WelcomeIsAccepted(c, offset, events, j, i, u);
    }
  }

  // ---------------------------------------------------------------- every answer

  predicate InWindow(offset: nat, e: Event)
    requires e.Verify?
  {
    var seconds := (offset + e.clock.checked) / SECOND;
    -30 <= seconds - e.request.sig.timestamp <= 30 && seconds <= I64_MAX
  }

  ghost predicate FreshSession(c: Crypto, offset: nat, events: seq<Event>, j: nat, i: nat, u: nat)
    requires j < |events| && events[j].Verify?
  {
    var id := events[j].request.sig.session;
    && i < j && RegisteredBy(events, j, id, i) && LastUse(c, offset, events, j, id, u)
    && FreshAt(events[j].clock.locked, events[i].at, UseTime(events[u]))
  }

  function Answer(c: Crypto, offset: nat, events: seq<Event>, j: nat): Result<(), ValidationError>
    requires j < |events| && events[j].Verify?
  {
    Verified(c, offset, After(c, offset, events[..j]), events[j].clock, events[j].request).1
  }

  /** Which answer a request gets, once its timestamp and its signature's text are in order. */
  ghost predicate AnswersLate(c: Crypto, offset: nat, events: seq<Event>, j: nat, i: nat, signature: Signature)
    requires j < |events| && events[j].Verify? && i < |events| && events[i].Register?
  {
    Answer(c, offset, events, j)
      == if NonceTaken(c, offset, events, j, i) then Err(ReplayNonce)
         else if c.verify(events[i].key, MessageOf(c, events[j].request), signature) then Ok(())
         else Err(InvalidSignature)
  }

  /** Every answer in terms of the events before it: the checks in their order, each with its error. */
  lemma AnswersExactly(c: Crypto, offset: nat, events: seq<Event>, j: nat)
    requires j < |events| && events[j].Verify? && Timely(events)
    ensures !InWindow(offset, events[j]) ==> Answer(c, offset, events, j) == Err(TimestampOutOfDrift)
    ensures var signature := c.parse(events[j].request.sig.signatureB64);
            && (InWindow(offset, events[j]) && signature.None? ==> Answer(c, offset, events, j) == Err(InvalidSignature))
            && (InWindow(offset, events[j]) && signature.Some? ==>
                  && ((forall i: nat, u: nat :: !FreshSession(c, offset, events, j, i, u)) ==>
                        Answer(c, offset, events, j) == Err(MissingSigningSession))
                  && (forall i: nat, u: nat :: FreshSession(c, offset, events, j, i, u) ==>
                        AnswersLate(c, offset, events, j, i, signature.value)))
  {
    AnswerFrom(c, offset, After(c, offset, events[..j]), events[j].clock, events[j].request);
    var e := events[j];
    if InWindow(offset, e) && c.parse(e.request.sig.signatureB64).Some? {
      if e.request.sig.session in PruneSessions(After(c, offset, events[..j]), e.clock.locked) {
        var i, u := PresentIsFresh(c, offset, events, j);
      }
      hide Verified, AnswersLate, After, RegisteredBy, LastUse, FreshAt;
      forall i: nat, u: nat | FreshSession(c, offset, events, j, i, u)
        ensures AnswersLate(c, offset, events, j, i, c.parse(e.request.sig.signatureB64).value)
      {
        FreshAnswer(c, offset, events, j, i, u);
      }
    }
  }

  /** The answer in terms of the service's state. */
  lemma AnswerFrom(c: Crypto, offset: nat, sessions: Sessions, t: Clock, r: Request)
    ensures var answer, signature := Verified(c, offset, sessions, t, r).1, c.parse(r.sig.signatureB64);
            if !TimestampOk(WallSecs(offset, t.checked), r.sig.timestamp) then answer == Err(TimestampOutOfDrift)
            else if signature.None? then answer == Err(InvalidSignature)
            else if !(r.sig.session in sessions && Live(sessions[r.sig.session], t.locked)) then answer == Err(MissingSigningSession)
            else if r.sig.nonce in PruneNonces(sessions[r.sig.session].seen, t.pruned) then answer == Err(ReplayNonce)
            else if c.verify(sessions[r.sig.session].key, MessageOf(c, r), signature.value) then answer == Ok(())
            else answer == Err(InvalidSignature)
  {
    hide TimestampOk, WallSecs, MessageOf, PruneNonces, Live;
  }

  lemma PresentIsFresh(c: Crypto, offset: nat, events: seq<Event>, j: nat) returns (i: nat, u: nat)
    requires j < |events| && events[j].Verify? && Timely(events)
    requires events[j].request.sig.session in PruneSessions(After(c, offset, events[..j]), events[j].clock.locked)
    ensures FreshSession(c, offset, events, j, i, u)
  {
    var id := events[j].request.sig.session;
    i := SessionOrigin(c, offset, events, j, id);
    u := PresentWasUsed(c, offset, events, j, id);
  }

  lemma FreshRecord(c: Crypto, offset: nat, events: seq<Event>, j: nat, i: nat, u: nat)
    requires j < |events| && events[j].Verify? && Timely(events) && FreshSession(c, offset, events, j, i, u)
    ensures var s, id := After(c, offset, events[..j]), events[j].request.sig.session;
            && id in s && Live(s[id], events[j].clock.locked) && s[id].key == events[i].key
            && (NonceTaken(c, offset, events, j, i) <==> events[j].request.sig.nonce in PruneNonces(s[id].seen, events[j].clock.pruned))
  {
    var id := events[j].request.sig.session;
    forall m | 0 <= m < j
      ensures LockedAt(events[m]) <= events[j].clock.locked
    {
      assert ReleasedAt(events[m]) <= LockedAt(events[j]);
    }
    FreshIsPresent(c, offset, events, j, id, i, u, events[j].clock.locked);
    var i' := SessionOrigin(c, offset, events, j, id);
    RegistrationUnique(events, j, id, i, i');
    var u' := PresentWasUsed(c, offset, events, j, id);
    LastUseUnique(c, offset, events, j, id, u, u');
    NonceTakenExactly(c, offset, events, j, i);
    hide PruneNonces, NonceTaken, RegisteredBy, LastUse, After, Timely;
  }

  lemma FreshAnswer(c: Crypto, offset: nat, events: seq<Event>, j: nat, i: nat, u: nat)
    requires j < |events| && events[j].Verify? && Timely(events) && FreshSession(c, offset, events, j, i, u)
    requires InWindow(offset, events[j]) && c.parse(events[j].request.sig.signatureB64).Some?
    ensures AnswersLate(c, offset, events, j, i, c.parse(events[j].request.sig.signatureB64).value)
  {
    FreshRecord(c, offset, events, j, i, u);
    AnswerFrom(c, offset, After(c, offset, events[..j]), events[j].clock, events[j].request);
    hide Verified, NonceTaken, PruneNonces, MessageOf, After, Live, LastUse, FreshAt, Timely;
  }
}
