/**
 The server side of relay request signing (crates/relay-control/src/signing.rs): sessions, remembered
 nonces and the three time windows that together stop replays.

 Instants are nanoseconds of a monotonic clock. The wall clock runs with it at a fixed offset, and is
 read in whole seconds. One verification reads the clock five times: for the timestamp check, and then,
 once it has waited for the sessions lock, for pruning sessions, pruning nonces, remembering the nonce and
 marking the session as used.
 */
module Signing {
  import opened Options
  import opened SigningMessages

  type Instant = nat

  const SECOND: nat := 1_000_000_000
  const MAX_DRIFT_SECS: nat := 30
  const SESSION_TTL: nat := 60 * 60 * SECOND
  const IDLE_TTL: nat := 15 * 60 * SECOND
  const NONCE_TTL: nat := 2 * 60 * SECOND

  datatype PublicKey = PublicKey(bytes: seq<nat>)

  datatype Signature = Signature(bytes: seq<nat>)

  /** The library primitives: signature parsing, signature verification, and the base64 body digest. */
  datatype Crypto = Crypto(
    parse: string -> Option<Signature>,
    verify: (PublicKey, string, Signature) -> bool,
    digest: seq<nat> -> string)

  datatype RequestSignature = RequestSignature(session: Uuid, timestamp: I64, nonce: Uuid, signatureB64: string)

  datatype Request = Request(sig: RequestSignature, method_: string, path: string, body: seq<nat>)

  datatype Session = Session(key: PublicKey, createdAt: Instant, lastUsedAt: Instant, seen: map<Uuid, Instant>)

  type Sessions = map<Uuid, Session>

  datatype ValidationError = TimestampOutOfDrift | MissingSigningSession | ReplayNonce | InvalidSignature

  datatype Clock = Clock(checked: Instant, locked: Instant, pruned: Instant, remembered: Instant, used: Instant)

  // ---------------------------------------------------------------- time windows

  /** Instant::duration_since, which saturates at zero. */
  function Since(now: Instant, then_: Instant): nat {
    if then_ <= now then now - then_ else 0
  }

  /** i64::saturating_sub. */
  function SaturatingSub(a: I64, b: I64): I64 {
    if a - b > I64_MAX then I64_MAX else if a - b < I64_MIN then I64_MIN else a - b
  }

  /** i64::abs overflows for I64_MIN alone. */
  predicate AbsDefined(d: I64) {
    d != I64_MIN
  }

  function Abs(d: I64): I64
    requires AbsDefined(d)
  {
    if d < 0 then -d else d
  }

  /** The subtraction from a non-negative clock never reaches the one value abs cannot take. */
  lemma DriftNeverOverflows(nowSecs: I64, timestamp: I64)
    requires 0 <= nowSecs
    ensures AbsDefined(SaturatingSub(nowSecs, timestamp))
  {
  }

  /** validate_timestamp, once the wall clock has been read as whole seconds. */
  function TimestampOk(nowSecs: nat, timestamp: I64): bool {
    if nowSecs > I64_MAX then false
    else
      DriftNeverOverflows(nowSecs, timestamp);
      Abs(SaturatingSub(nowSecs, timestamp)) <= MAX_DRIFT_SECS
  }

  /** Saturation never changes the verdict: the window is the mathematical one, for every i64 timestamp. */
  lemma TimestampWindow(nowSecs: nat, timestamp: I64)
    ensures TimestampOk(nowSecs, timestamp)
       <==> nowSecs <= I64_MAX && timestamp - 30 <= nowSecs <= timestamp + 30
  {
  }

  function WallSecs(offset: nat, now: Instant): nat {
    (offset + now) / SECOND
  }

  predicate Live(s: Session, now: Instant) {
    Since(now, s.createdAt) <= SESSION_TTL && Since(now, s.lastUsedAt) <= IDLE_TTL
  }

  function PruneSessions(sessions: Sessions, now: Instant): Sessions {
    map id | id in sessions && Live(sessions[id], now) :: sessions[id]
  }

  function PruneNonces(seen: map<Uuid, Instant>, now: Instant): map<Uuid, Instant> {
    map n | n in seen && Since(now, seen[n]) <= NONCE_TTL :: seen[n]
  }

  // ---------------------------------------------------------------- the two operations on values

  function Registered(sessions: Sessions, id: Uuid, key: PublicKey, now: Instant): Sessions {
    sessions[id := Session(key, now, now, map[])]
  }

  function MessageOf(c: Crypto, r: Request): string {
    RequestMessage(r.sig.timestamp, r.method_, r.path, r.sig.session, r.sig.nonce, c.digest(r.body))
  }

  function Verified(c: Crypto, offset: nat, sessions: Sessions, t: Clock, r: Request): (Sessions, Result<(), ValidationError>) {
    if !TimestampOk(WallSecs(offset, t.checked), r.sig.timestamp) then (sessions, Err(TimestampOutOfDrift))
    else if c.parse(r.sig.signatureB64).None? then (sessions, Err(InvalidSignature))
    else
      var live := PruneSessions(sessions, t.locked);
      if r.sig.session !in live then (live, Err(MissingSigningSession))
      else
        var s := live[r.sig.session];
        var seen := PruneNonces(s.seen, t.pruned);
        var kept := live[r.sig.session := s.(seen := seen)];
        if r.sig.nonce in seen then (kept, Err(ReplayNonce))
        else if !c.verify(s.key, MessageOf(c, r), c.parse(r.sig.signatureB64).value) then (kept, Err(InvalidSignature))
        else (live[r.sig.session := s.(seen := seen[r.sig.nonce := t.remembered], lastUsedAt := t.used)], Ok(()))
  }

  // ---------------------------------------------------------------- the service

  class RelaySigningService {
    var sessions: Sessions
    const crypto: Crypto
    const offset: nat

    constructor (crypto: Crypto, offset: nat)
      ensures sessions == map[] && this.crypto == crypto && this.offset == offset
    {
      this.crypto := crypto;
      this.offset := offset;
      sessions := map[];
    }

    method RegisterSession(id: Uuid, key: PublicKey, now: Instant)
      modifies this`sessions
      ensures sessions == Registered(old(sessions), id, key, now)
    {
      sessions := sessions[id := Session(key, now, now, map[])];
    }

    /** get_valid_session: drops every expired session, then looks this one up. */
    method GetValidSession(id: Uuid, now: Instant) returns (r: Result<Session, ValidationError>)
      modifies this`sessions
      ensures sessions == PruneSessions(old(sessions), now)
      ensures r == if id in sessions then Ok(sessions[id]) else Err(MissingSigningSession)
    {
      sessions := map i | i in sessions && Live(sessions[i], now) :: sessions[i];
      if id in sessions {
        return Ok(sessions[id]);
      }
      return Err(MissingSigningSession);
    }

    method VerifyRequest(t: Clock, request: Request) returns (r: Result<(), ValidationError>)
      modifies this`sessions
      ensures (sessions, r) == Verified(crypto, offset, old(sessions), t, request)
    {
      var sig := request.sig;
      if !TimestampOk(WallSecs(offset, t.checked), sig.timestamp) {
        return Err(TimestampOutOfDrift);
      }
      var signature := crypto.parse(sig.signatureB64);
      if signature.None? {
        return Err(InvalidSignature);
      }
      var found := GetValidSession(sig.session, t.locked);
      if found.Err? {
        return Err(found.error);
      }
      var session := found.value;
      session := session.(seen := PruneNonces(session.seen, t.pruned));
      sessions := sessions[sig.session := session];
      if sig.nonce in session.seen {
        return Err(ReplayNonce);
      }
      if !crypto.verify(session.key, MessageOf(crypto, request), signature.value) {
        return Err(InvalidSignature);
      }
      session := session.(seen := session.seen[sig.nonce := t.remembered], lastUsedAt := t.used);
      sessions := sessions[sig.session := session];
      assert sessions == PruneSessions(old(sessions), t.locked)[sig.session := session];
      return Ok(());
    }
  }

  // ---------------------------------------------------------------- runs

  /**
   The sessions lock orders registrations and verifications; a run lists them in that order. A registration
   reads the clock before it waits for the lock.
   */
  datatype Event =
    | Register(id: Uuid, key: PublicKey, at: Instant, locked: Instant)
    | Verify(clock: Clock, request: Request)

  function Step(c: Crypto, offset: nat, sessions: Sessions, e: Event): Sessions {
    match e
    case Register(id, key, at, _) => Registered(sessions, id, key, at)
    case Verify(t, r) => Verified(c, offset, sessions, t, r).0
  }

  /** The sessions after all events of a run. */
  function After(c: Crypto, offset: nat, events: seq<Event>): Sessions {
    if |events| == 0 then map[]
    else Step(c, offset, After(c, offset, events[..|events| - 1]), events[|events| - 1])
  }

  predicate Accepted(c: Crypto, offset: nat, events: seq<Event>, i: nat)
    requires i < |events|
  {
    events[i].Verify? && Verified(c, offset, After(c, offset, events[..i]), events[i].clock, events[i].request).1.Ok?
  }

  function LockedAt(e: Event): Instant {
    if e.Verify? then e.clock.locked else e.locked
  }

  function ReleasedAt(e: Event): Instant {
    if e.Verify? then e.clock.used else e.locked
  }

  predicate ClockRuns(t: Clock) {
    t.checked <= t.locked <= t.pruned <= t.remembered <= t.used
  }

  /** Clocks are monotonic, within one verification and from one holder of the sessions lock to the next. */
  ghost predicate Timely(events: seq<Event>) {
    && (forall i :: 0 <= i < |events| && events[i].Verify? ==> ClockRuns(events[i].clock))
    && (forall i :: 0 <= i < |events| && events[i].Register? ==> events[i].at <= events[i].locked)
    && (forall i, j :: 0 <= i < j < |events| ==> ReleasedAt(events[i]) <= LockedAt(events[j]))
  }

  /** From the timestamp check to the nonce check, waiting for the lock included, no verification takes longer than d. */
  ghost predicate WithinDelay(events: seq<Event>, d: nat) {
    forall i :: 0 <= i < |events| && events[i].Verify? ==> events[i].clock.pruned - events[i].clock.checked <= d
  }

  predicate RegistersBetween(events: seq<Event>, i: nat, j: nat, id: Uuid)
    requires j <= |events|
  {
    exists k :: i < k < j && events[k].Register? && events[k].id == id
  }

  /** The longest delay for which no replay is possible: the nonce lifetime less the 61 seconds the drift window spans. */
  const MAX_DELAY: nat := NONCE_TTL - 61 * SECOND + 1

  /** Two clock readings that both pass the timestamp check for one timestamp are less than 61 seconds apart. */
  lemma DriftWindowSpan(offset: nat, a: Instant, b: Instant, timestamp: I64)
    requires TimestampOk(WallSecs(offset, a), timestamp) && TimestampOk(WallSecs(offset, b), timestamp)
    ensures b - a < 61 * SECOND
  {
    TimestampWindow(WallSecs(offset, a), timestamp);
    TimestampWindow(WallSecs(offset, b), timestamp);
  }

  /** A verification that is not of this nonce's own acceptance keeps the nonce as long as it is young enough. */
  lemma NonceKept(c: Crypto, offset: nat, sessions: Sessions, e: Event, id: Uuid, nonce: Uuid, since: Instant, until: Instant)
    requires id in sessions ==> nonce in sessions[id].seen && sessions[id].seen[nonce] >= since
    requires e.Register? ==> e.id != id
    requires e.Verify? ==> ClockRuns(e.clock) && since <= e.clock.locked && e.clock.pruned <= until
    requires until - since <= NONCE_TTL
    ensures var after := Step(c, offset, sessions, e);
            id in after ==> nonce in after[id].seen && after[id].seen[nonce] >= since
  {
  }

  lemma NonceInserted(c: Crypto, offset: nat, sessions: Sessions, t: Clock, r: Request)
    requires Verified(c, offset, sessions, t, r).1.Ok?
    ensures var after := Verified(c, offset, sessions, t, r).0;
            && r.sig.session in after && r.sig.nonce in after[r.sig.session].seen
            && after[r.sig.session].seen[r.sig.nonce] == t.remembered
  {
  }

  lemma AfterStep(c: Crypto, offset: nat, events: seq<Event>, k: nat)
    requires 0 < k <= |events|
    ensures After(c, offset, events[..k]) == Step(c, offset, After(c, offset, events[..k - 1]), events[k - 1])
  {
    assert events[..k][..k - 1] == events[..k - 1];
  }

  lemma {:induction false} NonceRemembered(c: Crypto, offset: nat, events: seq<Event>, i: nat, k: nat, until: Instant)
    requires i < k <= |events| && Timely(events) && Accepted(c, offset, events, i)
    requires !RegistersBetween(events, i, k, events[i].request.sig.session)
    requires until - events[i].clock.remembered <= NONCE_TTL
    requires forall m :: i < m < k && events[m].Verify? ==> events[m].clock.pruned <= until
    ensures var sig := events[i].request.sig;
            var now := After(c, offset, events[..k]);
            sig.session in now ==>
              sig.nonce in now[sig.session].seen && now[sig.session].seen[sig.nonce] >= events[i].clock.remembered
    decreases k
  {
    hide Verified, After;
    AfterStep(c, offset, events, k);
    var before, sig := After(c, offset, events[..k - 1]), events[i].request.sig;
    if k == i + 1 {
      NonceInserted(c, offset, before, events[i].clock, events[i].request);
    } else {
      NonceRemembered(c, offset, events, i, k - 1, until);
      assert ReleasedAt(events[i]) <= LockedAt(events[k - 1]);
      assert events[k - 1].Register? ==> events[k - 1].id != sig.session;
      NonceKept(c, offset, before, events[k - 1], sig.session, sig.nonce, events[i].clock.remembered, until);
    }
  }

  /**
   At most once: in any run whose verifications reach their nonce check within MAX_DELAY of their
   timestamp check, a signed request is not accepted twice between two registrations of its session,
   whatever else is registered and verified in between.
   */
  lemma AtMostOnce(c: Crypto, offset: nat, events: seq<Event>, i: nat, j: nat)
    requires i < j < |events| && Timely(events) && WithinDelay(events, MAX_DELAY)
    requires events[i].Verify? && events[j].Verify? && events[i].request.sig == events[j].request.sig
    requires !RegistersBetween(events, i, j, events[i].request.sig.session)
    ensures !(Accepted(c, offset, events, i) && Accepted(c, offset, events, j))
  {
    if Accepted(c, offset, events, i) && TimestampOk(WallSecs(offset, events[j].clock.checked), events[j].request.sig.timestamp) {
      DriftWindowSpan(offset, events[i].clock.checked, events[j].clock.checked, events[i].request.sig.timestamp);
      forall m | i < m < j && events[m].Verify?
        ensures events[m].clock.pruned <= events[j].clock.pruned
      {
        assert ReleasedAt(events[m]) <= LockedAt(events[j]);
      }
      assert ReleasedAt(events[i]) <= LockedAt(events[j]);
      NonceRemembered(c, offset, events, i, j, events[j].clock.pruned);
    }
  }

  // ---------------------------------------------------------------- the bound is exact

  /** In no run within delay d is one signed request accepted twice without a registration of its session in between. */
  ghost predicate ReplayFree(c: Crypto, offset: nat, d: nat) {
    forall events: seq<Event>, i: nat, j: nat ::
      i < j < |events| && Timely(events) && WithinDelay(events, d) && events[i].Verify? && events[j].Verify?
      && events[i].request == events[j].request && !RegistersBetween(events, i, j, events[i].request.sig.session)
      ==> !(Accepted(c, offset, events, i) && Accepted(c, offset, events, j))
  }

  /** A request that some key signs validly, stamped at least 30 seconds after the service's clock began. */
  predicate ValidlySigned(c: Crypto, offset: nat, key: PublicKey, r: Request) {
    && (r.sig.timestamp - MAX_DRIFT_SECS) * SECOND >= offset && r.sig.timestamp + MAX_DRIFT_SECS <= I64_MAX
    && c.parse(r.sig.signatureB64).Some? && c.verify(key, MessageOf(c, r), c.parse(r.sig.signatureB64).value)
  }

  /** The earliest instant at which the request's timestamp is acceptable. */
  function Earliest(offset: nat, r: Request): int {
    (r.sig.timestamp - MAX_DRIFT_SECS) * SECOND - offset
  }

  /** Register, verify at once, and verify again: stamped in time, but held up one nanosecond too long before the nonce check. */
  function LateReplay(offset: nat, key: PublicKey, r: Request): seq<Event>
    requires Earliest(offset, r) >= 0
  {
    var first: nat := Earliest(offset, r);
    var late := first + NONCE_TTL + 1;
    [Register(r.sig.session, key, first, first), Verify(Clock(first, first, first, first, first), r),
     Verify(Clock(first + 61 * SECOND - 1, late, late, late, late), r)]
  }

  /** Both clock readings fall into seconds at the two ends of the timestamp's window. */
  lemma WindowEnds(offset: nat, r: Request, first: nat)
    requires first == Earliest(offset, r) && r.sig.timestamp + MAX_DRIFT_SECS <= I64_MAX
    ensures TimestampOk(WallSecs(offset, first), r.sig.timestamp)
    ensures TimestampOk(WallSecs(offset, first + 61 * SECOND - 1), r.sig.timestamp)
  {
    var start := r.sig.timestamp - MAX_DRIFT_SECS;
    assert offset + first == start * SECOND;
    assert WallSecs(offset, first) == start;
    assert offset + (first + 61 * SECOND - 1) == (start + 60) * SECOND + (SECOND - 1);
    assert WallSecs(offset, first + 61 * SECOND - 1) == start + 60;
    TimestampWindow(start, r.sig.timestamp);
    TimestampWindow(start + 60, r.sig.timestamp);
  }

  /** A first verification right after a registration is accepted if its own checks pass. */
  lemma FirstAccepted(c: Crypto, offset: nat, sessions: Sessions, key: PublicKey, r: Request, at: Instant)
    requires TimestampOk(WallSecs(offset, at), r.sig.timestamp)
    requires c.parse(r.sig.signatureB64).Some? && c.verify(key, MessageOf(c, r), c.parse(r.sig.signatureB64).value)
    ensures var (after, result) := Verified(c, offset, Registered(sessions, r.sig.session, key, at), Clock(at, at, at, at, at), r);
            && result == Ok(()) && r.sig.session in after
            && after[r.sig.session] == Session(key, at, at, map[r.sig.nonce := at])
  {
    assert PruneNonces(map[], at) == map[];
  }

  lemma LateReplayAccepted(c: Crypto, offset: nat, key: PublicKey, r: Request)
    requires ValidlySigned(c, offset, key, r)
    ensures var run := LateReplay(offset, key, r);
            && Timely(run) && WithinDelay(run, MAX_DELAY + 1) && !RegistersBetween(run, 1, 2, r.sig.session)
            && Accepted(c, offset, run, 1) && Accepted(c, offset, run, 2)
  {
    var run := LateReplay(offset, key, r);
    var first: nat := Earliest(offset, r);
    var late := first + NONCE_TTL + 1;
    WindowEnds(offset, r, first);
    FirstAccepted(c, offset, map[], key, r, first);
    assert run[..0] == [] && run[..1][..0] == [] && run[..2][..1] == run[..1];
    var registered := Registered(map[], r.sig.session, key, first);
    assert After(c, offset, run[..1]) == registered;
    var second := Verified(c, offset, registered, run[1].clock, r);
    assert After(c, offset, run[..2]) == second.0;
    hide TimestampOk, WallSecs, MessageOf, After;
    var s := second.0[r.sig.session];
    assert Live(s, late);
    assert r.sig.session in PruneSessions(second.0, late);
    assert r.sig.nonce !in PruneNonces(s.seen, late);
  }

  /** Whatever the clock's offset, requests are replay-free exactly up to a delay of MAX_DELAY nanoseconds. */
  lemma DelayBoundIsExact(c: Crypto, offset: nat, key: PublicKey, r: Request, d: nat)
    requires ValidlySigned(c, offset, key, r)
    ensures ReplayFree(c, offset, d) <==> d <= MAX_DELAY
  {
    if d <= MAX_DELAY {
      forall events: seq<Event>, i: nat, j: nat |
        i < j < |events| && Timely(events) && WithinDelay(events, d) && events[i].Verify? && events[j].Verify?
        && events[i].request == events[j].request && !RegistersBetween(events, i, j, events[i].request.sig.session)
        ensures !(Accepted(c, offset, events, i) && Accepted(c, offset, events, j))
      {
        AtMostOnce(c, offset, events, i, j);
      }
    } else {
      LateReplayAccepted(c, offset, key, r);
      var run := LateReplay(offset, key, r);
      assert WithinDelay(run, d) && run[1].request == run[2].request;
    }
  }

  /**
   Registering a session forgets its nonces, and nothing else stands in the way: an accepted request is
   accepted again at once if its session is registered anew with the same key.
   */
  lemma RegistrationForgetsNonces(c: Crypto, offset: nat, key: PublicKey, r: Request, at: Instant)
    requires TimestampOk(WallSecs(offset, at), r.sig.timestamp)
    requires c.parse(r.sig.signatureB64).Some? && c.verify(key, MessageOf(c, r), c.parse(r.sig.signatureB64).value)
    ensures var verify := Verify(Clock(at, at, at, at, at), r);
            var run := [Register(r.sig.session, key, at, at), verify, Register(r.sig.session, key, at, at), verify];
            Timely(run) && Accepted(c, offset, run, 1) && Accepted(c, offset, run, 3)
  {
    var register, verify := Register(r.sig.session, key, at, at), Verify(Clock(at, at, at, at, at), r);
    var run := [register, verify, register, verify];
    AfterStep(c, offset, run, 1);
    AfterStep(c, offset, run, 3);
    FirstAccepted(c, offset, After(c, offset, run[..0]), key, r, at);
    FirstAccepted(c, offset, After(c, offset, run[..2]), key, r, at);
    hide Verified, After;
  }

  // ---------------------------------------------------------------- acceptance rests on a registration

  /** The index of the last registration of a session before position k, if any. */
  ghost predicate RegisteredBy(events: seq<Event>, k: nat, id: Uuid, i: nat)
    requires k <= |events|
  {
    i < k && events[i].Register? && events[i].id == id && !RegistersBetween(events, i, k, id)
  }

  /** Every session present stems from its last registration: the key and the creation time are that event's. */
  lemma {:induction false} SessionOrigin(c: Crypto, offset: nat, events: seq<Event>, k: nat, id: Uuid) returns (i: nat)
    requires k <= |events| && id in After(c, offset, events[..k])
    ensures RegisteredBy(events, k, id, i)
    ensures var s := After(c, offset, events[..k])[id]; s.key == events[i].key && s.createdAt == events[i].at
  {
    assert k > 0;
    assert events[..k][..k - 1] == events[..k - 1];
    var e := events[k - 1];
    if e.Register? && e.id == id {
      i := k - 1;
    } else {
      i := SessionOrigin(c, offset, events, k - 1, id);
    }
  }

  /** An accepted request was signed with the key of its session's last registration, less than the session lifetime ago. */
  lemma AcceptedUnderRegistration(c: Crypto, offset: nat, events: seq<Event>, j: nat) returns (i: nat)
    requires j < |events| && Timely(events) && Accepted(c, offset, events, j)
    ensures RegisteredBy(events, j, events[j].request.sig.session, i)
    ensures var r := events[j].request;
            && c.parse(r.sig.signatureB64).Some?
            && c.verify(events[i].key, MessageOf(c, r), c.parse(r.sig.signatureB64).value)
    ensures events[j].clock.locked - events[i].at <= SESSION_TTL
  {
    i := SessionOrigin(c, offset, events, j, events[j].request.sig.session);
  }

  // ---------------------------------------------------------------- what a signature covers

  /** Bar-free method and body hash: the former is the client's choice, the latter base64. */
  predicate BarFree(c: Crypto, r: Request) {
    '|' !in r.method_ && '|' !in c.digest(r.body)
  }

  /** Everything about a request that its signature is to vouch for. */
  predicate Agree(c: Crypto, q: Request, r: Request) {
    && q.sig.timestamp == r.sig.timestamp && q.sig.session == r.sig.session && q.sig.nonce == r.sig.nonce
    && q.method_ == r.method_ && q.path == r.path && c.digest(q.body) == c.digest(r.body)
  }

  /** Two requests have one signing message exactly if they agree in all it covers. */
  lemma MessageCovers(c: Crypto, q: Request, r: Request)
    requires BarFree(c, q) && BarFree(c, r)
    ensures MessageOf(c, q) == MessageOf(c, r) <==> Agree(c, q, r)
  {
    if MessageOf(c, q) == MessageOf(c, r) {
      RequestMessageInjective(q.sig.timestamp, q.method_, q.path, q.sig.session, q.sig.nonce, c.digest(q.body),
                              r.sig.timestamp, r.method_, r.path, r.sig.session, r.sig.nonce, c.digest(r.body));
    }
  }

  /** Under this key the signature is good for at most one message. */
  ghost predicate SignsOne(c: Crypto, key: PublicKey, signature: Signature) {
    forall m, n :: c.verify(key, m, signature) && c.verify(key, n, signature) ==> m == n
  }

  /** Of two requests with one signature that differ in anything it covers, the service accepts at most one. */
  lemma TamperedIsRefused(c: Crypto, offset: nat, before: Sessions, t: Clock, q: Request, later: Sessions, u: Clock, r: Request)
    requires BarFree(c, q) && BarFree(c, r) && q.sig.signatureB64 == r.sig.signatureB64 && !Agree(c, q, r)
    requires q.sig.session in before && r.sig.session in later && before[q.sig.session].key == later[r.sig.session].key
    requires c.parse(q.sig.signatureB64).Some? ==> SignsOne(c, before[q.sig.session].key, c.parse(q.sig.signatureB64).value)
    ensures !(Verified(c, offset, before, t, q).1.Ok? && Verified(c, offset, later, u, r).1.Ok?)
  {
    MessageCovers(c, q, r);
  }

  /** The same over a run: two accepted requests with one signature, under sessions of one key, agree in all it covers. */
  lemma AcceptedAgree(c: Crypto, offset: nat, events: seq<Event>, i: nat, j: nat) returns (p: nat, q: nat)
    requires i < |events| && j < |events| && Timely(events) && Accepted(c, offset, events, i) && Accepted(c, offset, events, j)
    requires BarFree(c, events[i].request) && BarFree(c, events[j].request)
    requires events[i].request.sig.signatureB64 == events[j].request.sig.signatureB64
    ensures RegisteredBy(events, i, events[i].request.sig.session, p) && RegisteredBy(events, j, events[j].request.sig.session, q)
    ensures var signature := c.parse(events[i].request.sig.signatureB64);
            && signature.Some?
            && (events[p].key == events[q].key && SignsOne(c, events[p].key, signature.value) ==>
                  Agree(c, events[i].request, events[j].request))
  {
    p := AcceptedUnderRegistration(c, offset, events, i);
    q := AcceptedUnderRegistration(c, offset, events, j);
    MessageCovers(c, events[i].request, events[j].request);
  }
}
