/**
 Connection records and connect tokens: internal/dolthubauth/store.go and types.go.
 A database transaction is one atomic step.
 */
module ConnectionSpec {
  import opened Texts
  import opened Sequences
  import opened Timestamps
  import opened Wrappers

  // ------------------------------------------------------------ metadata

  datatype Wasteland = Wasteland(upstream: Text, forkOrg: Text, forkDb: Text, mode: Text, signing: bool)

  datatype Metadata = Metadata(rigHandle: Text, wastelands: seq<Wasteland>)

  function Find(ws: seq<Wasteland>, upstream: Text): Option<Wasteland> {
    if ws == [] then None
    else if ws[0].upstream == upstream then Some(ws[0])
    else Find(ws[1..], upstream)
  }

  function Upsert(ws: seq<Wasteland>, w: Wasteland): seq<Wasteland> {
    if ws == [] then [w]
    else if ws[0].upstream == w.upstream then [w] + ws[1..]
    else [ws[0]] + Upsert(ws[1..], w)
  }

  function UpsertAll(ws: seq<Wasteland>, updates: seq<Wasteland>): seq<Wasteland> {
    if updates == [] then ws else Upsert(UpsertAll(ws, updates[..|updates| - 1]), updates[|updates| - 1])
  }

  function Remove(ws: seq<Wasteland>, upstream: Text): seq<Wasteland> {
    if ws == [] then []
    else if ws[0].upstream == upstream then ws[1..]
    else [ws[0]] + Remove(ws[1..], upstream)
  }

  function MergedWith(m: Metadata, update: Metadata): Metadata {
    Metadata(
      if update.rigHandle == "" then m.rigHandle else update.rigHandle,
      UpsertAll(m.wastelands, update.wastelands))
  }

  predicate IsAlphanumeric(c: char) { 'a' <= c <= 'z' || 'A' <= c <= 'Z' || '0' <= c <= '9' }

  predicate ValidSlug(value: Text) {
    var s := TrimSpace(value);
    && 1 <= |s| <= 64 && IsAlphanumeric(s[0])
    && forall i :: 0 < i < |s| ==> IsAlphanumeric(s[i]) || s[i] == '_' || s[i] == '-'
  }

  predicate ValidUpstream(value: Text) {
    var i := IndexOf(value, '/');
    0 < i && i + 1 < |value| && ValidSlug(value[..i]) && ValidSlug(value[i + 1..])
  }

  predicate ValidMode(mode: Text) {
    var m := TrimSpace(mode);
    m == "" || m == "pr" || m == "wild-west"
  }

  predicate ValidWasteland(w: Wasteland) {
    ValidSlug(w.forkOrg) && ValidSlug(w.forkDb) && ValidUpstream(w.upstream) && ValidMode(w.mode)
  }

  predicate AllValid(ws: seq<Wasteland>) {
    forall w :: w in ws ==> ValidWasteland(w)
  }

  predicate ValidMetadata(m: Metadata) {
    ValidSlug(m.rigHandle) && m.wastelands != [] && AllValid(m.wastelands)
  }

  // ------------------------------------------------------------ tables

  type Mac = seq<int>

  /** The unique key of a connection row. */
  datatype Subject = Subject(tenant: Text, environment: Text, id: Text)

  datatype Status = Active | Invalid | Degraded

  /** An encrypted key, with what decrypting it takes. */
  datatype Credential = Credential(ciphertext: Text, keyVersion: Text, backend: Text)

  datatype Connection = Connection(
    id: Text, metadata: Metadata, credential: Credential, status: Status, validationError: Option<Text>,
    lastProxyErrorAt: Option<int>, credentialVersion: int, recordVersion: int,
    lastValidatedAt: int, createdAt: int, updatedAt: int)

  datatype Token = Token(
    secretMac: Mac, subject: Subject, approved: Metadata, expiresAt: int, usedAt: Option<int>, createdAt: int)

  /** One line of the audit log for each redemption. */
  datatype AuditRow = AuditRow(subject: Subject, connectionId: Text)

  datatype Tables = Tables(connections: map<Subject, Connection>, tokens: map<Mac, Token>, audit: seq<AuditRow>)

  datatype Error =
    | InvalidConnectToken | ExpiredConnectToken | MetadataMismatch | ValidationFailed(code: Text)
    | EncryptionFailed | NotFound | VersionConflict | LastWasteland | WastelandNotFound | InvalidMetadata | DuplicateKey

  // ------------------------------------------------------------ transactions

  /** The query cuts `now` off too, which changes nothing (Timestamps.ComparesWithStored). */
  function Reaped(tokens: map<Mac, Token>, now: int): map<Mac, Token> {
    map m | m in tokens && now < tokens[m].expiresAt :: tokens[m]
  }

  datatype CreateInput = CreateInput(
    mac: Mac, secretMac: Mac, subject: Subject, metadata: Metadata, expiresAt: int, now: int)

  function NewToken(i: CreateInput): Token {
    Token(i.secretMac, i.subject, i.metadata, Stored(i.expiresAt), None, Stored(i.now))
  }

  /** The reap stays even when the insert then fails on a known MAC. */
  function Created(t: Tables, i: CreateInput): (Tables, Option<Error>) {
    var tokens := Reaped(t.tokens, i.now);
    if i.mac in tokens then (t.(tokens := tokens), Some(DuplicateKey))
    else (t.(tokens := tokens[i.mac := NewToken(i)]), None)
  }

  /** `validation` is the error code of the credential check and `encrypted` the result
      of encrypting the key; `newId` is the identifier a new connection would get. */
  datatype RedeemInput = RedeemInput(
    tenant: Text, environment: Text, mac: Mac, secretMac: Mac, metadata: Metadata, now: int,
    validation: Option<Text>, encrypted: Option<Credential>, newId: Text)

  predicate IdTaken(connections: map<Subject, Connection>, id: Text) {
    exists s :: s in connections && connections[s].id == id
  }

  function RedeemError(t: Tables, i: RedeemInput): Option<Error> {
    if i.mac !in t.tokens || t.tokens[i.mac].usedAt.Some? then Some(InvalidConnectToken)
    else
      var token := t.tokens[i.mac];
      if token.expiresAt <= i.now then Some(ExpiredConnectToken)
      else if token.subject.tenant != i.tenant || token.subject.environment != i.environment
      then Some(InvalidConnectToken)
      else if token.secretMac != i.secretMac then Some(InvalidConnectToken)
      else if token.approved != i.metadata then Some(MetadataMismatch)
      else if i.validation.Some? then Some(ValidationFailed(i.validation.value))
      else if i.encrypted.None? then Some(EncryptionFailed)
      else if token.subject !in t.connections && IdTaken(t.connections, i.newId) then Some(DuplicateKey)
      else None
  }

  function RedeemedConnection(existing: Option<Connection>, i: RedeemInput): Connection
    requires i.encrypted.Some?
  {
    var now := Stored(i.now);
    match existing
    case None => Connection(i.newId, i.metadata, i.encrypted.value, Active, None, None, 1, 1, now, now, now)
    case Some(c) =>
      c.(metadata := MergedWith(c.metadata, i.metadata), credential := i.encrypted.value,
         status := Active, validationError := None,
         credentialVersion := c.credentialVersion + 1, recordVersion := c.recordVersion + 1,
         lastValidatedAt := now, updatedAt := now)
  }

  function Lookup(t: Tables, s: Subject): Option<Connection> {
    if s in t.connections then Some(t.connections[s]) else None
  }

  function Redeemed(t: Tables, i: RedeemInput): (Tables, Result<Connection, Error>) {
    var error := RedeemError(t, i);
    if error.Some? then (t, Err(error.value))
    else
      var token := t.tokens[i.mac];
      var c := RedeemedConnection(Lookup(t, token.subject), i);
      (Tables(t.connections[token.subject := c], t.tokens[i.mac := token.(usedAt := Some(Stored(i.now)))],
              t.audit + [AuditRow(token.subject, c.id)]),
       Ok(c))
  }

  datatype Patch =
    | SetRigHandle(rigHandle: Text)
    | UpsertEntry(wasteland: Wasteland)
    | DeleteEntry(upstream: Text)
    | SetSettings(upstream: Text, mode: Text, signing: bool)

  function Patched(m: Metadata, p: Patch): Result<Metadata, Error> {
    match p
    case SetRigHandle(h) => Ok(m.(rigHandle := h))
    case UpsertEntry(w) => Ok(m.(wastelands := Upsert(m.wastelands, w)))
    case DeleteEntry(u) =>
      if |m.wastelands| <= 1 then Err(LastWasteland)
      else if Find(m.wastelands, u).None? then Err(WastelandNotFound)
      else Ok(m.(wastelands := Remove(m.wastelands, u)))
    case SetSettings(u, mode, signing) =>
      var entry := Find(m.wastelands, u);
      if entry.None? then Err(WastelandNotFound)
      else Ok(m.(wastelands := Upsert(m.wastelands, entry.value.(mode := mode, signing := signing))))
  }

  datatype PatchInput = PatchInput(subject: Subject, connectionId: Text, patch: Patch, expectedVersion: int, now: int)

  function PatchedConnection(t: Tables, i: PatchInput): Result<Connection, Error> {
    if i.subject !in t.connections || t.connections[i.subject].id != i.connectionId then Err(NotFound)
    else
      var c := t.connections[i.subject];
      if c.recordVersion != i.expectedVersion then Err(VersionConflict)
      else
        var m := Patched(c.metadata, i.patch);
        if m.Err? then Err(m.error)
        else if !ValidMetadata(m.value) then Err(InvalidMetadata)
        else Ok(c.(metadata := m.value, recordVersion := c.recordVersion + 1, updatedAt := Stored(i.now)))
  }

  function AfterPatch(t: Tables, i: PatchInput): (Tables, Result<Connection, Error>) {
    var c := PatchedConnection(t, i);
    (if c.Ok? then t.(connections := t.connections[i.subject := c.value]) else t, c)
  }
}

/** What the list operations promise one another. */
module MetadataTheorems {
  import opened Texts
  import opened Wrappers
  import opened ConnectionSpec

  predicate Distinct(ws: seq<Wasteland>) {
    ws == [] || (Find(ws[1..], ws[0].upstream).None? && Distinct(ws[1..]))
  }

  lemma {:induction false} FindAfterUpsert(ws: seq<Wasteland>, w: Wasteland, upstream: Text)
    ensures Find(Upsert(ws, w), upstream) == if upstream == w.upstream then Some(w) else Find(ws, upstream)
  {
    if ws != [] && ws[0].upstream != w.upstream {
      FindAfterUpsert(ws[1..], w, upstream);
      assert Upsert(ws, w)[1..] == Upsert(ws[1..], w);
    } else if ws != [] {
      assert Upsert(ws, w)[1..] == ws[1..];
    }
  }

  lemma {:induction false} FindAfterRemove(ws: seq<Wasteland>, gone: Text, upstream: Text)
    requires Distinct(ws)
    ensures Find(Remove(ws, gone), upstream) == if upstream == gone then None else Find(ws, upstream)
  {
    if ws != [] && ws[0].upstream != gone {
      FindAfterRemove(ws[1..], gone, upstream);
      assert Remove(ws, gone)[1..] == Remove(ws[1..], gone);
    }
  }

  lemma {:induction false} UpsertKeepsDistinct(ws: seq<Wasteland>, w: Wasteland)
    requires Distinct(ws)
    ensures Distinct(Upsert(ws, w))
  {
    if ws != [] && ws[0].upstream != w.upstream {
      UpsertKeepsDistinct(ws[1..], w);
      FindAfterUpsert(ws[1..], w, ws[0].upstream);
      assert Upsert(ws, w)[1..] == Upsert(ws[1..], w);
    } else if ws != [] {
      assert Upsert(ws, w)[1..] == ws[1..];
    }
  }

  lemma {:induction false} RemoveKeepsDistinct(ws: seq<Wasteland>, gone: Text)
    requires Distinct(ws)
    ensures Distinct(Remove(ws, gone))
    ensures |Remove(ws, gone)| == |ws| - if Find(ws, gone).Some? then 1 else 0
  {
    if ws != [] && ws[0].upstream != gone {
      RemoveKeepsDistinct(ws[1..], gone);
      FindAfterRemove(ws[1..], gone, ws[0].upstream);
      assert Remove(ws, gone)[1..] == Remove(ws[1..], gone);
    }
  }

  /** The last of a list of updates to an upstream. */
  function LastUpdate(updates: seq<Wasteland>, upstream: Text): Option<Wasteland> {
    if updates == [] then None
    else if updates[|updates| - 1].upstream == upstream then Some(updates[|updates| - 1])
    else LastUpdate(updates[..|updates| - 1], upstream)
  }

  /** Merging answers every upstream with its last update, else with what was there. */
  lemma {:induction false} FindAfterMerge(ws: seq<Wasteland>, updates: seq<Wasteland>, upstream: Text)
    ensures Find(UpsertAll(ws, updates), upstream) ==
            if LastUpdate(updates, upstream).Some? then LastUpdate(updates, upstream) else Find(ws, upstream)
  {
    if updates != [] {
      FindAfterMerge(ws, updates[..|updates| - 1], upstream);
      FindAfterUpsert(UpsertAll(ws, updates[..|updates| - 1]), updates[|updates| - 1], upstream);
    }
  }

  lemma {:induction false} UpsertAllKeepsDistinct(ws: seq<Wasteland>, updates: seq<Wasteland>)
    requires Distinct(ws)
    ensures Distinct(UpsertAll(ws, updates))
  {
    if updates != [] {
      UpsertAllKeepsDistinct(ws, updates[..|updates| - 1]);
      UpsertKeepsDistinct(UpsertAll(ws, updates[..|updates| - 1]), updates[|updates| - 1]);
    }
  }

  lemma {:induction false} UpsertKeepsValid(ws: seq<Wasteland>, w: Wasteland)
    requires AllValid(ws) && ValidWasteland(w)
    ensures AllValid(Upsert(ws, w)) && Upsert(ws, w) != []
  {
    if ws != [] && ws[0].upstream != w.upstream {
      UpsertKeepsValid(ws[1..], w);
    }
  }

  lemma {:induction false} UpsertAllKeepsValid(ws: seq<Wasteland>, updates: seq<Wasteland>)
    requires AllValid(ws) && AllValid(updates)
    ensures AllValid(UpsertAll(ws, updates)) && (updates != [] ==> UpsertAll(ws, updates) != [])
  {
    if updates != [] {
      var front := updates[..|updates| - 1];
      assert forall w :: w in front ==> w in updates;
      UpsertAllKeepsValid(ws, front);
      UpsertKeepsValid(UpsertAll(ws, front), updates[|updates| - 1]);
    }
  }
}

/** Histories of the store. */
module ConnectionHistory {
  import opened Wrappers
  import opened ConnectionSpec
  import opened MetadataTheorems
  import Runs

  datatype Event = Create(create: CreateInput) | Redeem(redeem: RedeemInput) | Change(change: PatchInput)

  function After(t: Tables, e: Event): Tables {
    match e
    case Create(i) => Created(t, i).0
    case Redeem(i) => Redeemed(t, i).0
    case Change(i) => AfterPatch(t, i).0
  }

  predicate Next(s: Tables, e: Event, t: Tables) {
    t == After(s, e)
  }

  function Steps(): (Tables, Event, Tables) -> bool {
    (s: Tables, e: Event, t: Tables) => Next(s, e, t)
  }

  /** A patch of this connection that goes through. */
  predicate Patches(t: Tables, e: Event, s: Subject) {
    e.Change? && e.change.subject == s && PatchedConnection(t, e.change).Ok?
  }

  /** A redemption for this subject that goes through. */
  predicate Redeems(t: Tables, e: Event, s: Subject) {
    e.Redeem? && RedeemError(t, e.redeem).None? && t.tokens[e.redeem.mac].subject == s
  }

  // ------------------------------------------------------- versions are counters

  function PatchWeight(s: Subject): (Tables, Event) -> nat {
    (t: Tables, e: Event) => if Patches(t, e, s) then 1 else 0
  }

  function RedeemWeight(s: Subject): (Tables, Event) -> nat {
    (t: Tables, e: Event) => if Redeems(t, e, s) then 1 else 0
  }

  function CredentialVersion(s: Subject): Tables -> int {
    (t: Tables) => if s in t.connections then t.connections[s].credentialVersion else 0
  }

  function MetadataVersion(s: Subject): Tables -> int {
    (t: Tables) => if s in t.connections then t.connections[s].recordVersion - t.connections[s].credentialVersion else 0
  }

  const EMPTY := Tables(map[], map[], [])

  function AuditRows(audit: seq<AuditRow>, s: Subject): nat {
    if audit == [] then 0
    else AuditRows(audit[..|audit| - 1], s) + if audit[|audit| - 1].subject == s then 1 else 0
  }

  function Audited(s: Subject): Tables -> int {
    (t: Tables) => AuditRows(t.audit, s)
  }

  lemma StepAudits(t: Tables, e: Event, s: Subject)
    ensures Audited(s)(After(t, e)) == Audited(s)(t) + RedeemWeight(s)(t, e)
  {
    if e.Redeem? && RedeemError(t, e.redeem).None? {
      assert After(t, e).audit[..|t.audit|] == t.audit;
    }
  }

  lemma StepCounts(t: Tables, e: Event, s: Subject)
    ensures CredentialVersion(s)(After(t, e)) == CredentialVersion(s)(t) + RedeemWeight(s)(t, e)
    ensures MetadataVersion(s)(After(t, e)) == MetadataVersion(s)(t) + PatchWeight(s)(t, e)
  {
    match e
    case Create(_) =>
    case Redeem(_) =>
    case Change(_) =>
  }

  /** From an empty store, credential_version counts the redemptions of a subject, each with
      its line in the audit log, and record_version - credential_version its successful
      metadata patches. */
  lemma VersionsCount(states: seq<Tables>, events: seq<Event>, m: nat, s: Subject)
    requires Runs.Path(Steps(), states, events) && m < |states| && states[0] == EMPTY
    ensures CredentialVersion(s)(states[m]) == Runs.Total(RedeemWeight(s), states, events, 0, m)
    ensures MetadataVersion(s)(states[m]) == Runs.Total(PatchWeight(s), states, events, 0, m)
    ensures AuditRows(states[m].audit, s) == CredentialVersion(s)(states[m])
  {
    forall a, e, b | Steps()(a, e, b)
      ensures CredentialVersion(s)(b) == CredentialVersion(s)(a) + RedeemWeight(s)(a, e)
      ensures MetadataVersion(s)(b) == MetadataVersion(s)(a) + PatchWeight(s)(a, e)
      ensures Audited(s)(b) == Audited(s)(a) + RedeemWeight(s)(a, e)
    {
      StepCounts(a, e, s);
      StepAudits(a, e, s);
    }
    Runs.Measured(Steps(), CredentialVersion(s), RedeemWeight(s), states, events, 0, m);
    Runs.Measured(Steps(), MetadataVersion(s), PatchWeight(s), states, events, 0, m);
    Runs.Measured(Steps(), Audited(s), RedeemWeight(s), states, events, 0, m);
  }

  // ------------------------------------------------------- optimistic concurrency

  /** The row is the one that was read, and unchanged while its version is. */
  predicate SameUnlessNewer(read: Connection, t: Tables, s: Subject) {
    && s in t.connections && t.connections[s].id == read.id
    && t.connections[s].recordVersion >= read.recordVersion
    && (t.connections[s].recordVersion == read.recordVersion ==> t.connections[s] == read)
  }

  lemma StepKeepsRead(read: Connection, t: Tables, e: Event, s: Subject)
    requires SameUnlessNewer(read, t, s)
    ensures SameUnlessNewer(read, After(t, e), s)
  {
    match e
    case Create(_) =>
    case Redeem(_) =>
    case Change(_) =>
  }

  function SinceRead(read: Connection, s: Subject): (nat, Tables) -> bool {
    (i: nat, t: Tables) => SameUnlessNewer(read, t, s)
  }

  lemma ReadIsKept(states: seq<Tables>, events: seq<Event>, i: nat, j: nat, s: Subject)
    requires Runs.Path(Steps(), states, events) && i <= j < |states| && s in states[i].connections
    ensures SameUnlessNewer(states[i].connections[s], states[j], s)
  {
    var read := states[i].connections[s];
    forall k: nat, a, e, b | SinceRead(read, s)(k, a) && Steps()(a, e, b) ensures SinceRead(read, s)(k + 1, b) {
      StepKeepsRead(read, a, e, s);
    }
    Runs.Kept(Steps(), SinceRead(read, s), states, events, i, j);
  }

  lemma PatchEffect(t: Tables, e: Event, s: Subject)
    requires Patches(t, e, s)
    ensures s in t.connections && s in After(t, e).connections
    ensures var c, d := t.connections[s], After(t, e).connections[s];
            && e.change.expectedVersion == c.recordVersion && d.recordVersion == c.recordVersion + 1
            && Patched(c.metadata, e.change.patch) == Ok(d.metadata) && d.credential == c.credential
  {
  }

  lemma StepOfRun(states: seq<Tables>, events: seq<Event>, i: nat)
    requires Runs.Path(Steps(), states, events) && i < |events|
    ensures states[i + 1] == After(states[i], events[i])
  {
    assert Steps()(states[i], events[i], states[i + 1]);
    assert Next(states[i], events[i], states[i + 1]);
  }

  /** A client that patches with the version it read changes exactly what it read, however
      many other patches and redemptions ran in between. */
  lemma PatchesWhatItRead(states: seq<Tables>, events: seq<Event>, i: nat, j: nat, s: Subject)
    requires Runs.Path(Steps(), states, events) && i <= j < |events| && s in states[i].connections
    requires Patches(states[j], events[j], s)
    requires events[j].change.expectedVersion == states[i].connections[s].recordVersion
    ensures var read := states[i].connections[s];
            && s in states[j].connections && states[j].connections[s] == read
            && s in states[j + 1].connections
            && Patched(read.metadata, events[j].change.patch) == Ok(states[j + 1].connections[s].metadata)
            && states[j + 1].connections[s].recordVersion == read.recordVersion + 1
  {
    ReadIsKept(states, events, i, j, s);
    StepOfRun(states, events, j);
    PatchEffect(states[j], events[j], s);
  }

  /** Of two patches sent with the same version at most one goes through. */
  lemma OnePatchPerVersion(states: seq<Tables>, events: seq<Event>, i: nat, j: nat, s: Subject)
    requires Runs.Path(Steps(), states, events) && i < j < |events|
    requires Patches(states[i], events[i], s) && Patches(states[j], events[j], s)
    ensures events[i].change.expectedVersion < events[j].change.expectedVersion
  {
    StepOfRun(states, events, i);
    PatchEffect(states[i], events[i], s);
    ReadIsKept(states, events, i + 1, j, s);
    PatchEffect(states[j], events[j], s);
  }

  // ------------------------------------------------------- credentials

  predicate HoldsCredential(t: Tables, s: Subject, credential: Credential) {
    && s in t.connections && t.connections[s].credential == credential
    && t.connections[s].status == Active && t.connections[s].validationError.None?
  }

  lemma RedemptionStores(t: Tables, e: Event, u: Tables, s: Subject)
    requires Next(t, e, u) && Redeems(t, e, s)
    ensures HoldsCredential(u, s, e.redeem.encrypted.value)
  {
  }

  lemma NextKeepsCredential(t: Tables, e: Event, u: Tables, s: Subject, credential: Credential)
    requires Next(t, e, u) && HoldsCredential(t, s, credential) && !Redeems(t, e, s)
    ensures HoldsCredential(u, s, credential)
  {
    match e
    case Create(_) =>
    case Redeem(_) =>
    case Change(_) =>
  }

  /** Step i redeems for the subject, and no later step before state j does. */
  ghost predicate LastRedemption(states: seq<Tables>, events: seq<Event>, i: nat, j: nat, s: Subject)
    requires j < |states| == |events| + 1
  {
    i < j && Redeems(states[i], events[i], s) && forall k :: i < k < j ==> !Redeems(states[k], events[k], s)
  }

  /** A subject's credential is the one of its last redemption, whatever was patched, issued
      or redeemed for others since. */
  lemma {:induction false} CredentialIsTheLastRedeemed(
    states: seq<Tables>, events: seq<Event>, i: nat, j: nat, s: Subject)
    requires Runs.Path(Steps(), states, events) && j < |states| && LastRedemption(states, events, i, j, s)
    ensures HoldsCredential(states[j], s, events[i].redeem.encrypted.value)
  {
    var t, e, u := states[j - 1], events[j - 1], states[j];
    assert Steps()(t, e, u);
    if i < j - 1 {
      CredentialIsTheLastRedeemed(states, events, i, j - 1, s);
      assert !Redeems(t, e, s);
      NextKeepsCredential(t, e, u, s, events[i].redeem.encrypted.value);
    } else {
      RedemptionStores(t, e, u, s);
    }
  }

  // ------------------------------------------------------- single-use tokens

  predicate RedeemsToken(t: Tables, e: Event, mac: Mac) {
    e.Redeem? && e.redeem.mac == mac && RedeemError(t, e.redeem).None?
  }

  predicate IssuesToken(t: Tables, e: Event, mac: Mac) {
    e.Create? && e.create.mac == mac && Created(t, e.create).1.None?
  }

  predicate Spent(t: Tables, mac: Mac) {
    mac in t.tokens ==> t.tokens[mac].usedAt.Some?
  }

  lemma StepKeepsSpent(t: Tables, e: Event, mac: Mac)
    requires (Spent(t, mac) && !IssuesToken(t, e, mac)) || RedeemsToken(t, e, mac)
    ensures Spent(After(t, e), mac)
  {
    match e
    case Create(i) => assert mac in Reaped(t.tokens, i.now) ==> mac in t.tokens;
    case Redeem(_) =>
    case Change(_) =>
  }

  lemma SpentIsRefused(t: Tables, e: Event, mac: Mac)
    requires Spent(t, mac)
    ensures !RedeemsToken(t, e, mac)
  {
  }

  ghost predicate IssuedBetween(states: seq<Tables>, events: seq<Event>, i: nat, j: nat, mac: Mac)
    requires j <= |events| <= |states|
  {
    exists k :: i <= k < j && IssuesToken(states[k], events[k], mac)
  }

  lemma {:induction false} SpentUntilIssued(states: seq<Tables>, events: seq<Event>, i: nat, j: nat, mac: Mac)
    requires Runs.Path(Steps(), states, events) && i <= j < |events|
    requires Spent(states[i], mac) && RedeemsToken(states[j], events[j], mac)
    ensures IssuedBetween(states, events, i, j, mac)
    decreases j - i
  {
    SpentIsRefused(states[i], events[j], mac);
    if i < j && !IssuesToken(states[i], events[i], mac) {
      StepOfRun(states, events, i);
      StepKeepsSpent(states[i], events[i], mac);
      SpentUntilIssued(states, events, i + 1, j, mac);
    }
  }

  /** A redeemed token is not redeemed again until it is issued again. */
  lemma TokenIsSingleUse(states: seq<Tables>, events: seq<Event>, i: nat, j: nat, mac: Mac)
    requires Runs.Path(Steps(), states, events) && i < j < |events|
    requires RedeemsToken(states[i], events[i], mac) && RedeemsToken(states[j], events[j], mac)
    ensures IssuedBetween(states, events, i + 1, j, mac)
  {
    StepOfRun(states, events, i);
    StepKeepsSpent(states[i], events[i], mac);
    SpentUntilIssued(states, events, i + 1, j, mac);
  }

  predicate WasIssued(states: seq<Tables>, events: seq<Event>, k: nat, mac: Mac, token: Token) {
    && |states| == |events| + 1 && k < |events| && IssuesToken(states[k], events[k], mac)
    && token.(usedAt := None) == NewToken(events[k].create)
  }

  /** The only new tokens of a step are the issued ones; the others keep what was approved. */
  lemma StepKeepsApproval(t: Tables, e: Event, mac: Mac)
    requires mac in After(t, e).tokens && !IssuesToken(t, e, mac)
    ensures mac in t.tokens && t.tokens[mac].(usedAt := None) == After(t, e).tokens[mac].(usedAt := None)
  {
    match e
    case Create(_) =>
    case Redeem(_) =>
    case Change(_) =>
  }

  lemma {:induction false} TokensWereIssued(states: seq<Tables>, events: seq<Event>, m: nat, mac: Mac)
    requires Runs.Path(Steps(), states, events) && m < |states| && states[0] == EMPTY && mac in states[m].tokens
    ensures exists k: nat :: k < m && WasIssued(states, events, k, mac, states[m].tokens[mac])
  {
    if m > 0 {
      var e := events[m - 1];
      StepOfRun(states, events, m - 1);
      if IssuesToken(states[m - 1], e, mac) {
        assert WasIssued(states, events, m - 1, mac, states[m].tokens[mac]);
      } else {
        StepKeepsApproval(states[m - 1], e, mac);
        TokensWereIssued(states, events, m - 1, mac);
        var k: nat :| k < m - 1 && WasIssued(states, events, k, mac, states[m - 1].tokens[mac]);
        assert WasIssued(states, events, k, mac, states[m].tokens[mac]);
      }
    }
  }

  predicate Approves(c: CreateInput, r: RedeemInput) {
    c.metadata == r.metadata && r.now < c.expiresAt && c.secretMac == r.secretMac
    && c.subject.tenant == r.tenant && c.subject.environment == r.environment
  }

  lemma RedeemEffect(t: Tables, e: Event, mac: Mac)
    requires RedeemsToken(t, e, mac)
    ensures mac in t.tokens && var token := t.tokens[mac];
            && token.usedAt.None? && e.redeem.now < token.expiresAt && token.approved == e.redeem.metadata
            && token.secretMac == e.redeem.secretMac && token.subject in After(t, e).connections
            && token.subject.tenant == e.redeem.tenant && token.subject.environment == e.redeem.environment
  {
  }

  /** Every redemption goes back to an earlier issue of that token, which approved the
      same metadata and had not expired, and connects the subject it was issued for. */
  lemma RedemptionWasApproved(states: seq<Tables>, events: seq<Event>, j: nat, mac: Mac)
    requires Runs.Path(Steps(), states, events) && j < |events| && states[0] == EMPTY
    requires RedeemsToken(states[j], events[j], mac)
    ensures exists k: nat :: k < j && IssuesToken(states[k], events[k], mac)
                             && Approves(events[k].create, events[j].redeem)
                             && events[k].create.subject in states[j + 1].connections
  {
    RedeemEffect(states[j], events[j], mac);
    TokensWereIssued(states, events, j, mac);
    var k: nat :| k < j && WasIssued(states, events, k, mac, states[j].tokens[mac]);
    StepOfRun(states, events, j);
    assert IssuesToken(states[k], events[k], mac);
  }

  // ------------------------------------------------------- stored metadata

  predicate StoredOk(t: Tables, s: Subject)
    requires s in t.connections
  {
    ValidMetadata(t.connections[s].metadata)
  }

  ghost predicate AllStoredOk(t: Tables) {
    forall s {:trigger StoredOk(t, s)} :: s in t.connections ==> StoredOk(t, s)
  }

  lemma MergeKeepsValid(m: Metadata, u: Metadata)
    requires ValidMetadata(m) && ValidMetadata(u)
    ensures ValidMetadata(MergedWith(m, u))
  {
    UpsertAllKeepsValid(m.wastelands, u.wastelands);
  }

  lemma StepKeepsStoredOk(t: Tables, e: Event)
    requires AllStoredOk(t) && (e.Redeem? ==> ValidMetadata(e.redeem.metadata))
    ensures AllStoredOk(After(t, e))
  {
    forall s | s in After(t, e).connections ensures StoredOk(After(t, e), s) {
      if s in t.connections {
        assert StoredOk(t, s);
        if Redeems(t, e, s) { MergeKeepsValid(t.connections[s].metadata, e.redeem.metadata); }
      }
    }
  }

  /** The server checks submitted metadata before redeeming with it; every stored
      connection then has valid metadata. */
  lemma StoredMetadataIsValid(states: seq<Tables>, events: seq<Event>, m: nat)
    requires Runs.Path(Steps(), states, events) && m < |states| && states[0] == EMPTY
    requires forall k :: 0 <= k < |events| && events[k].Redeem? ==> ValidMetadata(events[k].redeem.metadata)
    ensures AllStoredOk(states[m])
  {
    if m > 0 {
      StoredMetadataIsValid(states, events, m - 1);
      StepOfRun(states, events, m - 1);
      StepKeepsStoredOk(states[m - 1], events[m - 1]);
    }
  }
}

/** The mutable objects: metadata edited in place, and the store's transactions. */
module ConnectionImpl {
  import opened Texts
  import opened Timestamps
  import opened Wrappers
  import opened ConnectionSpec

  /** Where FindWasteland stops: the length of the list when it finds nothing. */
  function IndexFor(ws: seq<Wasteland>, upstream: Text): (i: nat)
    ensures i <= |ws|
  {
    if ws == [] || ws[0].upstream == upstream then 0 else IndexFor(ws[1..], upstream) + 1
  }

  lemma {:induction false} FindAtIndex(ws: seq<Wasteland>, upstream: Text)
    ensures var i := IndexFor(ws, upstream);
            Find(ws, upstream) == (if i < |ws| then Some(ws[i]) else None) && (i < |ws| ==> ws[i].upstream == upstream)
  {
    if ws != [] && ws[0].upstream != upstream { FindAtIndex(ws[1..], upstream); }
  }

  lemma UpdateBehindHead<T>(s: seq<T>, j: nat, x: T)
    requires j + 1 < |s|
    ensures s[j + 1 := x] == [s[0]] + s[1..][j := x]
  {
  }

  lemma {:induction false} UpsertAtIndex(ws: seq<Wasteland>, w: Wasteland)
    ensures var i := IndexFor(ws, w.upstream); Upsert(ws, w) == if i < |ws| then ws[i := w] else ws + [w]
  {
    if ws == [] {
    } else if ws[0].upstream == w.upstream {
      assert ws[0 := w] == [w] + ws[1..];
    } else {
      var rest := ws[1..];
      var j := IndexFor(rest, w.upstream);
      UpsertAtIndex(rest, w);
      assert IndexFor(ws, w.upstream) == j + 1;
      assert Upsert(ws, w) == [ws[0]] + Upsert(rest, w);
      if j < |rest| {
        UpdateBehindHead(ws, j, w);
      } else {
        assert ws + [w] == [ws[0]] + (rest + [w]);
      }
    }
  }

  lemma CutBehindHead<T>(s: seq<T>, j: nat)
    requires j + 1 < |s|
    ensures s[..j + 1] + s[j + 2..] == [s[0]] + (s[1..][..j] + s[1..][j + 1..])
  {
  }

  lemma {:induction false} RemoveAtIndex(ws: seq<Wasteland>, upstream: Text)
    ensures var i := IndexFor(ws, upstream); Remove(ws, upstream) == if i < |ws| then ws[..i] + ws[i + 1..] else ws
  {
    if ws == [] {
    } else if ws[0].upstream == upstream {
      assert ws[..0] + ws[1..] == ws[1..];
    } else {
      var rest := ws[1..];
      var j := IndexFor(rest, upstream);
      RemoveAtIndex(rest, upstream);
      assert IndexFor(ws, upstream) == j + 1;
      assert Remove(ws, upstream) == [ws[0]] + Remove(rest, upstream);
      if j < |rest| {
        CutBehindHead(ws, j);
      } else {
        assert ws == [ws[0]] + rest;
      }
    }
  }

  lemma UpsertAllOneMore(ws: seq<Wasteland>, updates: seq<Wasteland>, i: nat)
    requires i < |updates|
    ensures UpsertAll(ws, updates[..i + 1]) == Upsert(UpsertAll(ws, updates[..i]), updates[i])
  {
    assert updates[..i + 1][..i] == updates[..i];
  }

  /** The entries are a slice: the first `len` places of an array that may have more. */
  class UserMetadata {
    var rigHandle: Text
    var backing: array<Wasteland>
    var len: nat

    ghost predicate Valid()
      reads this
    {
      len <= backing.Length
    }

    function Wastelands(): seq<Wasteland>
      requires Valid()
      reads this, backing
    {
      backing[..len]
    }

    function Value(): Metadata
      requires Valid()
      reads this, backing
    {
      Metadata(rigHandle, Wastelands())
    }

    constructor (m: Metadata)
      ensures Valid() && fresh(backing) && Value() == m
    {
      var ws := m.wastelands;
      rigHandle, len := m.rigHandle, |ws|;
      backing := new Wasteland[|ws|](i requires 0 <= i < |ws| => ws[i]);
    }

    /** The place a pointer into the slice would have. */
    method FindWasteland(upstream: Text) returns (i: nat)
      requires Valid()
      ensures i == IndexFor(Wastelands(), upstream)
      ensures Find(Wastelands(), upstream) == if i < len then Some(backing[i]) else None
    {
      i := 0;
      ghost var ws := Wastelands();
      assert ws[0..] == ws;
      while i < len
        invariant i <= len
        invariant IndexFor(ws, upstream) == i + IndexFor(ws[i..], upstream)
      {
        assert ws[i] == backing[i];
        if backing[i].upstream == upstream {
          break;
        }
        assert ws[i..][1..] == ws[i + 1..];
        i := i + 1;
      }
      FindAtIndex(ws, upstream);
    }

    /** An append without room moves the entries to a larger array. */
    method Grow()
      requires Valid()
      modifies this`backing
      ensures Valid() && fresh(backing) && len < backing.Length && Wastelands() == old(Wastelands())
    {
      var larger := new Wasteland[2 * len + 1];
      forall i | 0 <= i < len {
        larger[i] := backing[i];
      }
      assert larger[..len] == backing[..len];
      backing := larger;
    }

    /** Writes in place where it can. */
    method UpsertWasteland(w: Wasteland)
      requires Valid()
      modifies this`backing, this`len, backing
      ensures Valid() && (backing == old(backing) || fresh(backing))
      ensures Wastelands() == Upsert(old(Wastelands()), w)
    {
      var i := FindWasteland(w.upstream);
      UpsertAtIndex(Wastelands(), w);
      if i < len {
        backing[i] := w;
        assert Wastelands() == old(Wastelands())[i := w];
      } else {
        if len == backing.Length {
          Grow();
        }
        backing[len] := w;
        len := len + 1;
        assert Wastelands() == old(Wastelands()) + [w];
      }
    }

    /** The entries behind the removed one move up in place. */
    method CutOut(i: nat)
      requires Valid() && i < len
      modifies this`len, backing
      ensures Valid() && Wastelands() == old(Wastelands())[..i] + old(Wastelands())[i + 1..]
    {
      ghost var ws := Wastelands();
      forall j | i <= j < len - 1 {
        backing[j] := backing[j + 1];
      }
      len := len - 1;
      assert backing[..i] == ws[..i] && backing[i..len] == ws[i + 1..];
    }

    method RemoveWasteland(upstream: Text) returns (found: bool)
      requires Valid()
      modifies this`len, backing
      ensures Valid() && Wastelands() == Remove(old(Wastelands()), upstream)
      ensures found == Find(old(Wastelands()), upstream).Some?
    {
      ghost var ws := Wastelands();
      var i := FindWasteland(upstream);
      RemoveAtIndex(ws, upstream);
      found := i < len;
      if found {
        CutOut(i);
      }
    }

    /** A fresh object with an array of its own, so that no update is written into the
        array of the original; a copy of the slice alone would share it. */
    method Merged(update: Metadata) returns (m: UserMetadata)
      requires Valid()
      ensures fresh(m) && fresh(m.backing) && m.Valid() && m.Value() == MergedWith(Value(), update)
    {
      ghost var ws := Wastelands();
      m := new UserMetadata(Metadata(update.rigHandle, Wastelands()));
      if m.rigHandle == "" {
        m.rigHandle := rigHandle;
      }
      ghost var handle := m.rigHandle;
      var i := 0;
      while i < |update.wastelands|
        invariant 0 <= i <= |update.wastelands|
        invariant fresh(m) && fresh(m.backing) && m.Valid()
        invariant m.rigHandle == handle && m.Wastelands() == UpsertAll(ws, update.wastelands[..i])
      {
        m.UpsertWasteland(update.wastelands[i]);
        UpsertAllOneMore(ws, update.wastelands, i);
        i := i + 1;
      }
      assert update.wastelands[..|update.wastelands|] == update.wastelands;
    }

    /** The callbacks of the four patch operations. */
    method Mutate(p: Patch) returns (error: Option<Error>)
      requires Valid()
      modifies this, backing
      ensures Valid() && (backing == old(backing) || fresh(backing))
      ensures match Patched(old(Value()), p)
              case Ok(m) => error.None? && Value() == m
              case Err(e) => error == Some(e)
    {
      error := None;
      match p
      case SetRigHandle(h) =>
        rigHandle := h;
      case UpsertEntry(w) =>
        UpsertWasteland(w);
      case DeleteEntry(upstream) =>
        if len <= 1 {
          return Some(LastWasteland);
        }
        var found := RemoveWasteland(upstream);
        if !found {
          return Some(WastelandNotFound);
        }
      case SetSettings(upstream, mode, signing) =>
        var i := FindWasteland(upstream);
        if i == len {
          return Some(WastelandNotFound);
        }
        FindAtIndex(Wastelands(), upstream);
        UpsertAtIndex(Wastelands(), backing[i].(mode := mode, signing := signing));
        backing[i] := backing[i].(mode := mode, signing := signing);
        assert Wastelands() == old(Wastelands()[i := backing[i].(mode := mode, signing := signing)]);
    }
  }

  class ConnectionStore {
    var connections: map<Subject, Connection>
    var tokens: map<Mac, Token>
    var audit: seq<AuditRow>

    constructor ()
      ensures Value() == Tables(map[], map[], [])
    {
      connections, tokens, audit := map[], map[], [];
    }

    function Value(): Tables
      reads this
    {
      Tables(connections, tokens, audit)
    }

    method CreateConnectToken(i: CreateInput) returns (error: Option<Error>)
      modifies this
      ensures (Value(), error) == Created(old(Value()), i)
    {
      tokens := Reaped(tokens, i.now);
      if i.mac in tokens {
        return Some(DuplicateKey);
      }
      tokens := tokens[i.mac := Token(i.secretMac, i.subject, i.metadata, Stored(i.expiresAt), None, Stored(i.now))];
      return None;
    }

    method RedeemConnectToken(i: RedeemInput) returns (r: Result<Connection, Error>)
      modifies this
      ensures (Value(), r) == Redeemed(old(Value()), i)
    {
      if i.mac !in tokens {
        return Err(InvalidConnectToken);
      }
      var token := tokens[i.mac];
      if token.usedAt.Some? {
        return Err(InvalidConnectToken);
      }
      if !(i.now < token.expiresAt) {
        return Err(ExpiredConnectToken);
      }
      if token.subject.tenant != i.tenant || token.subject.environment != i.environment {
        return Err(InvalidConnectToken);
      }
      if token.secretMac != i.secretMac {
        return Err(InvalidConnectToken);
      }
      if token.approved != i.metadata {
        return Err(MetadataMismatch);
      }
      if i.validation.Some? {
        return Err(ValidationFailed(i.validation.value));
      }
      if i.encrypted.None? {
        return Err(EncryptionFailed);
      }
      var now := Stored(i.now);
      var connection: Connection;
      if token.subject !in connections {
        if IdTaken(connections, i.newId) {
          return Err(DuplicateKey);
        }
        connection := Connection(i.newId, i.metadata, i.encrypted.value, Active, None, None, 1, 1, now, now, now);
      } else {
        var existing := connections[token.subject];
        var stored := new UserMetadata(existing.metadata);
        var merged := stored.Merged(i.metadata);
        connection := existing.(
          metadata := merged.Value(), credential := i.encrypted.value, status := Active, validationError := None,
          credentialVersion := existing.credentialVersion + 1, recordVersion := existing.recordVersion + 1,
          lastValidatedAt := now, updatedAt := now);
      }
      connections := connections[token.subject := connection];
      tokens := tokens[i.mac := token.(usedAt := Some(now))];
      audit := audit + [AuditRow(token.subject, connection.id)];
      return Ok(connection);
    }

    method PatchMetadata(i: PatchInput) returns (r: Result<Connection, Error>)
      modifies this
      ensures (Value(), r) == AfterPatch(old(Value()), i)
    {
      if i.subject !in connections || connections[i.subject].id != i.connectionId {
        return Err(NotFound);
      }
      var c := connections[i.subject];
      if c.recordVersion != i.expectedVersion {
        return Err(VersionConflict);
      }
      var meta := new UserMetadata(c.metadata);
      var error := meta.Mutate(i.patch);
      if error.Some? {
        return Err(error.value);
      }
      if !ValidMetadata(meta.Value()) {
        return Err(InvalidMetadata);
      }
      c := c.(metadata := meta.Value(), recordVersion := c.recordVersion + 1, updatedAt := Stored(i.now));
      connections := connections[i.subject := c];
      return Ok(c);
    }
  }
}
