/**
 Signed service requests, internal/dolthubauth/service_auth.go: authentication, the
 freshness window, and the nonces of store.go behind it.
 */
module ServiceAuth {
  import opened Sequences
  import opened Texts
  import opened Timestamps
  import opened Wrappers
  import Runs

  const MAX_CLOCK_SKEW := 5 * 60 * 1_000_000_000

  datatype Headers = Headers(
    authorization: Text, timestamp: Text, nonce: Text, bodySha: Text,
    tenant: Text, environment: Text, subject: Text, connection: Text)

  /** `target` is the escaped path with its canonical query. */
  datatype Request = Request(headers: Headers, verb: Text, target: Text, body: Text)

  /** The configuration, with time parsing, hash and MAC as deterministic functions. */
  datatype Server = Server(
    tenant: Text, environment: Text, secretOf: Text -> Option<Text>, parseTime: Text -> Option<int>,
    sha256: Text -> Text, hmac: (Text, Text) -> Text)

  // ------------------------------------------------------------ authentication

  const PREFIX: Text := "Wasteland-HMAC "

  datatype Credentials = Credentials(keyId: Text, signature: Text)

  function ParseAuthorization(raw: Text): Option<Credentials> {
    if !(PREFIX <= raw) then None
    else
      var rest := raw[|PREFIX|..];
      var i := IndexOf(rest, ':');
      if i == 0 || i + 1 >= |rest| then None else Some(Credentials(rest[..i], rest[i + 1..]))
  }

  /** The ten fields that are signed. */
  function SignedFields(server: Server, keyId: Text, r: Request): seq<Text> {
    var h := r.headers;
    [keyId, TrimSpace(h.timestamp), TrimSpace(h.nonce), r.verb, r.target, server.sha256(r.body),
     TrimSpace(h.tenant), TrimSpace(h.environment), TrimSpace(h.subject), TrimSpace(h.connection)]
  }

  function BaseString(fields: seq<Text>): Text {
    Join(fields, '\n')
  }

  datatype NonceKey = NonceKey(keyId: Text, nonce: Text)

  /** What an authentic request is known by. */
  datatype Signed = Signed(key: NonceKey, timestamp: int)

  predicate Timely(timestamp: int, now: int) {
    -MAX_CLOCK_SKEW <= now - timestamp <= MAX_CLOCK_SKEW
  }

  /** Every check before the nonce is used; None is ErrServiceUnauthorized. */
  function Authenticated(server: Server, r: Request, now: int): Option<Signed> {
    var h := r.headers;
    var credentials := ParseAuthorization(h.authorization);
    if credentials.None? then None
    else
      var keyId := credentials.value.keyId;
      var secret, timestamp := server.secretOf(keyId), server.parseTime(TrimSpace(h.timestamp));
      if secret.None? || timestamp.None? || !Timely(timestamp.value, now) || TrimSpace(h.nonce) == "" then None
      else if server.sha256(r.body) != TrimSpace(h.bodySha) then None
      else if TrimSpace(h.tenant) != server.tenant || TrimSpace(h.environment) != server.environment then None
      else if credentials.value.signature != server.hmac(secret.value, BaseString(SignedFields(server, keyId, r)))
      then None
      else Some(Signed(NonceKey(keyId, TrimSpace(h.nonce)), timestamp.value))
  }

  /** The base string keeps its fields apart: headers hold no line breaks, so a MAC that
      separates the two strings separates the two requests. */
  lemma SignatureCoversTheRequest(server: Server, k: Text, a: Request, l: Text, b: Request)
    requires AllWithout(SignedFields(server, k, a), '\n') && AllWithout(SignedFields(server, l, b), '\n')
    ensures BaseString(SignedFields(server, k, a)) == BaseString(SignedFields(server, l, b)) <==>
            SignedFields(server, k, a) == SignedFields(server, l, b)
  {
    if BaseString(SignedFields(server, k, a)) == BaseString(SignedFields(server, l, b)) {
      JoinInjective(SignedFields(server, k, a), SignedFields(server, l, b), '\n');
    }
  }

  // ------------------------------------------------------------ nonces

  /** The expiry that is on record for each nonce. */
  type Nonces = map<NonceKey, int>

  /** The last instant at which a request with this timestamp is timely. */
  function Closes(signed: Signed): int {
    signed.timestamp + MAX_CLOCK_SKEW
  }

  datatype Verdict = Accepted | Unauthorized | Replay

  /** The query cuts `now` off too, which changes nothing (Timestamps.ComparesWithStored). */
  function Reaped(nonces: Nonces, now: int): Nonces {
    map k | k in nonces && now < nonces[k] :: nonces[k]
  }

  function Verified(server: Server, nonces: Nonces, r: Request, now: int): (Nonces, Verdict) {
    var signed := Authenticated(server, r, now);
    if signed.None? then (nonces, Unauthorized)
    else
      var kept := Reaped(nonces, now);
      var key := signed.value.key;
      if key in kept then (kept, Replay) else (kept[key := Stored(Closes(signed.value))], Accepted)
  }

  class NonceStore {
    var nonces: Nonces

    constructor ()
      ensures nonces == map[]
    {
      nonces := map[];
    }

    /** Reap, then insert; a taken key is a conflict. */
    method UseServiceNonce(key: NonceKey, now: int, expiresAt: int) returns (conflict: bool)
      modifies this
      ensures var kept := Reaped(old(nonces), now);
              conflict == (key in kept) && nonces == if conflict then kept else kept[key := Stored(expiresAt)]
    {
      nonces := Reaped(nonces, now);
      if key in nonces {
        return true;
      }
      nonces := nonces[key := Stored(expiresAt)];
      return false;
    }

    method VerifyServiceRequest(server: Server, r: Request, now: int) returns (verdict: Verdict)
      modifies this
      ensures (nonces, verdict) == Verified(server, old(nonces), r, now)
    {
      var credentials := ParseAuthorization(r.headers.authorization);
      if credentials.None? {
        return Unauthorized;
      }
      var keyId := credentials.value.keyId;
      var secret := server.secretOf(keyId);
      if secret.None? {
        return Unauthorized;
      }
      var timestamp := server.parseTime(TrimSpace(r.headers.timestamp));
      if timestamp.None? {
        return Unauthorized;
      }
      var delta := now - timestamp.value;
      if delta > MAX_CLOCK_SKEW || delta < -MAX_CLOCK_SKEW {
        return Unauthorized;
      }
      var nonce := TrimSpace(r.headers.nonce);
      if nonce == "" {
        return Unauthorized;
      }
      if server.sha256(r.body) != TrimSpace(r.headers.bodySha) {
        return Unauthorized;
      }
      if TrimSpace(r.headers.tenant) != server.tenant || TrimSpace(r.headers.environment) != server.environment {
        return Unauthorized;
      }
      var expected := server.hmac(secret.value, BaseString(SignedFields(server, keyId, r)));
      if credentials.value.signature != expected {
        return Unauthorized;
      }
      var conflict := UseServiceNonce(NonceKey(keyId, nonce), now, timestamp.value + MAX_CLOCK_SKEW);
      return if conflict then Replay else Accepted;
    }
  }

  // ------------------------------------------------------------ histories

  datatype Event = Event(request: Request, now: int)

  /** The state remembers the time of its last request. */
  datatype State = State(nonces: Nonces, clock: int)

  predicate Next(server: Server, s: State, e: Event, t: State) {
    s.clock <= e.now && t == State(Verified(server, s.nonces, e.request, e.now).0, e.now)
  }

  function Steps(server: Server): (State, Event, State) -> bool {
    (s: State, e: Event, t: State) => Next(server, s, e, t)
  }

  /** The request is accepted, as one known by `signed`. */
  predicate Accepts(server: Server, s: State, e: Event, signed: Signed) {
    && Verified(server, s.nonces, e.request, e.now).1 == Accepted
    && Authenticated(server, e.request, e.now) == Some(signed)
  }

  /** The nonce is on record until the last microsecond of its window. */
  predicate Guarded(s: State, signed: Signed) {
    s.clock < Stored(Closes(signed)) ==> signed.key in s.nonces && s.nonces[signed.key] == Stored(Closes(signed))
  }

  lemma StepKeepsGuard(server: Server, s: State, e: Event, t: State, signed: Signed)
    requires Guarded(s, signed) && Next(server, s, e, t)
    ensures Guarded(t, signed)
  {
  }

  lemma AcceptanceGuards(server: Server, s: State, e: Event, t: State, signed: Signed)
    requires Accepts(server, s, e, signed) && Next(server, s, e, t)
    ensures Guarded(t, signed)
  {
  }

  function GuardedAt(signed: Signed): (nat, State) -> bool {
    (i: nat, s: State) => Guarded(s, signed)
  }

  lemma GuardStays(server: Server, states: seq<State>, events: seq<Event>, i: nat, j: nat, signed: Signed)
    requires Runs.Path(Steps(server), states, events) && i <= j < |states| && Guarded(states[i], signed)
    ensures Guarded(states[j], signed)
  {
    forall k: nat, a, e, b | GuardedAt(signed)(k, a) && Steps(server)(a, e, b) ensures GuardedAt(signed)(k + 1, b) {
      StepKeepsGuard(server, a, e, b, signed);
    }
    Runs.Kept(Steps(server), GuardedAt(signed), states, events, i, j);
  }

  lemma GuardedSinceAcceptance(
    server: Server, states: seq<State>, events: seq<Event>, i: nat, j: nat, signed: Signed)
    requires Runs.Path(Steps(server), states, events) && i < j < |states|
    requires Accepts(server, states[i], events[i], signed)
    ensures Guarded(states[j], signed)
  {
    assert Steps(server)(states[i], events[i], states[i + 1]);
    AcceptanceGuards(server, states[i], events[i], states[i + 1], signed);
    GuardStays(server, states, events, i + 1, j, signed);
  }

  lemma LateAcceptance(server: Server, s: State, e: Event, t: State, signed: Signed)
    requires Next(server, s, e, t) && Guarded(s, signed) && Accepts(server, s, e, signed)
    ensures Stored(Closes(signed)) <= e.now <= Closes(signed)
  {
  }

  /** Two requests with one key, nonce and timestamp are both accepted, if at all, only when
      the second comes in the microsecond in which its window closes: reaping never drops a
      nonce still needed before. A timestamp in whole microseconds leaves one instant of it. */
  lemma ReplayOnlyInTheLastMicrosecond(
    server: Server, states: seq<State>, events: seq<Event>, i: nat, j: nat, signed: Signed)
    requires Runs.Path(Steps(server), states, events) && i < j < |events|
    requires Accepts(server, states[i], events[i], signed) && Accepts(server, states[j], events[j], signed)
    ensures Stored(Closes(signed)) <= events[j].now <= Closes(signed)
    ensures signed.timestamp % MICROSECOND == 0 ==> events[j].now == Closes(signed)
  {
    GuardedSinceAcceptance(server, states, events, i, j, signed);
    assert Steps(server)(states[j], events[j], states[j + 1]);
    LateAcceptance(server, states[j], events[j], states[j + 1], signed);
  }

  /** Sent again right after it was accepted, a request is a replay before that microsecond,
      accepted in it up to the close of its window, and stale after that. */
  lemma ReplayVerdict(server: Server, s: State, e: Event, t: State, signed: Signed, again: int)
    requires Next(server, s, e, t) && Accepts(server, s, e, signed) && e.now <= again
    ensures Verified(server, t.nonces, e.request, again).1 ==
            if again < Stored(Closes(signed)) then Replay
            else if again <= Closes(signed) then Accepted else Unauthorized
  {
    assert signed.key in t.nonces;
  }

  const EXAMPLE_SERVER := Server(
    "t", "e", (k: Text) => Some("secret"), (t: Text) => Some(0), (b: Text) => "sum", (k: Text, x: Text) => "mac")

  const EXAMPLE := Request(Headers("Wasteland-HMAC svc:mac", "0", "n1", "sum", "t", "e", "", ""), "GET", "/", "")

  lemma ExampleParses()
    ensures ParseAuthorization(EXAMPLE.headers.authorization) == Some(Credentials("svc", "mac"))
  {
    var rest := EXAMPLE.headers.authorization[|PREFIX|..];
    assert EXAMPLE.headers.authorization[..|PREFIX|] == PREFIX;
    assert rest == "svc:mac" && rest[..3] == "svc" && rest[4..] == "mac";
    IndexIs(rest, ':', 3);
  }

  lemma ExampleIsAuthentic()
    ensures Authenticated(EXAMPLE_SERVER, EXAMPLE, MAX_CLOCK_SKEW) == Some(Signed(NonceKey("svc", "n1"), 0))
  {
    ExampleParses();
    TrimKeeps("n1");
    TrimKeeps("sum");
    TrimKeeps("t");
    TrimKeeps("e");
  }

  predicate AcceptedTwice(server: Server, r: Request, now: int) {
    var first := Verified(server, map[], r, now);
    first.1 == Accepted && Verified(server, first.0, r, now).1 == Accepted
  }

  lemma ClosingWindowAcceptsTwice(server: Server, r: Request, signed: Signed, now: int)
    requires Authenticated(server, r, now) == Some(signed) && Stored(Closes(signed)) <= now
    ensures AcceptedTwice(server, r, now)
  {
    var kept := Reaped(map[], now);
    assert kept == map[];
    assert signed.key !in Reaped(kept[signed.key := Stored(Closes(signed))], now);
  }

  /** The instant exists: both copies of this request are accepted. */
  lemma LastInstantReplayed()
    ensures AcceptedTwice(EXAMPLE_SERVER, EXAMPLE, MAX_CLOCK_SKEW)
  {
    ExampleIsAuthentic();
    ClosingWindowAcceptsTwice(EXAMPLE_SERVER, EXAMPLE, Signed(NonceKey("svc", "n1"), 0), MAX_CLOCK_SKEW);
  }
}
