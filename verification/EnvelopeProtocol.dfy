/**
 Concurrent calls of Decrypt in internal/dolthubauth/kms.go. The locked Get and Set of the
 data-key cache are one step each; so are the key service's answer, the opening of the
 ciphertext and the overwriting of a working copy. Buffers are numbered cells that steps
 reach by their numbers, so overwriting a buffer that something else still uses would show.
 */
module EnvelopeProtocol {
  import opened Wrappers
  import opened EnvelopeCipher
  import opened KeyNames
  import opened Runs
  import opened Texts

  /** Who uses a cell: bookkeeping that no step looks at. */
  datatype Owner = InCache(key: string) | HeldBy(call: nat) | Nobody

  datatype Cell = Cell(bytes: seq<Octet>, owner: Owner)

  datatype Slot = Slot(buffer: nat, expiresAt: int, usedAt: int)

  datatype Request = Request(payload: Option<Payload>, keyVersion: Text, backend: Text)

  datatype Stage =
    | AtGet
    | AtUnwrap
    | AtSet(buffer: nat)
    | AtOpen(buffer: nat)
    | AtClear(buffer: nat, result: Result<seq<Octet>, Error>)
    | Answered(answer: Result<seq<Octet>, Error>)

  datatype Call = Call(request: Request, stage: Stage)

  /** `known` are the wrapped keys whose data key was ever cached. */
  datatype State = State(
    heap: map<nat, Cell>,
    entries: map<string, Slot>,
    known: set<seq<Octet>>,
    calls: map<nat, Call>)

  datatype Config = Config(crypto: Crypto, ttl: int, maxEntries: int)

  datatype Event =
    | Begin(call: nat, request: Request)
    | Recall(call: nat, now: int, copy: nat)
    | Unwrap(call: nat, copy: nat)
    | Remember(call: nat, now: int, copy: nat, gone: set<string>)
    | Unseal(call: nat)
    | Clear(call: nat)

  function Init(): State {
    State(map[], map[], {}, map[])
  }

  // ------------------------------------------------------------------- requests

  /** The checks before the cache is asked. */
  function Refused(r: Request): Option<Error> {
    if r.backend != BACKEND then Some(UnsupportedBackend)
    else if r.payload.None? then Some(BadPayload)
    else if r.payload.value.version != PAYLOAD_VERSION then Some(UnsupportedVersion)
    else None
  }

  function Wrapped(r: Request): seq<Octet> {
    if r.payload.Some? then r.payload.value.wrapped else []
  }

  function KeyOf(c: Crypto, r: Request): string {
    CacheKey(c.hash, VersionOf(c, r.keyVersion), Wrapped(r))
  }

  function DataKeyOf(c: Crypto, r: Request): Option<seq<Octet>> {
    Unwrapped(c, VersionOf(c, r.keyVersion), Wrapped(r))
  }

  function OpenWith(c: Crypto, r: Request, dek: seq<Octet>): Result<seq<Octet>, Error> {
    if r.payload.None? then Err(BadPayload) else Open(c, dek, r.payload.value, VersionOf(c, r.keyVersion))
  }

  /** What the call would return if there were no cache and no other call. */
  function Alone(c: Crypto, r: Request): Result<seq<Octet>, Error> {
    Decrypted(c, r.payload, r.keyVersion, r.backend)
  }

  // ---------------------------------------------------------------------- steps

  predicate Caches(cfg: Config) {
    cfg.ttl > 0 && cfg.maxEntries > 0
  }

  predicate IsZero(bytes: seq<Octet>) {
    forall i :: 0 <= i < |bytes| ==> bytes[i] == 0
  }

  function Bytes(heap: map<nat, Cell>, b: nat): seq<Octet> {
    if b in heap then heap[b].bytes else []
  }

  function Buffers(entries: map<string, Slot>, keys: set<string>): set<nat> {
    set k | k in keys && k in entries :: entries[k].buffer
  }

  function Overwritten(heap: map<nat, Cell>, buffers: set<nat>): map<nat, Cell> {
    map b | b in heap :: if b in buffers then Cell(seq(|heap[b].bytes|, i => 0), Nobody) else heap[b]
  }

  /** Dropping `keys` overwrites their buffers first. */
  function Drop(s: State, keys: set<string>): State {
    s.(heap := Overwritten(s.heap, Buffers(s.entries, keys)), entries := s.entries - keys)
  }

  function Advance(s: State, c: nat, stage: Stage): State
    requires c in s.calls
  {
    s.(calls := s.calls[c := s.calls[c].(stage := stage)])
  }

  function BeginStep(s: State, c: nat, r: Request): State {
    var refused := Refused(r);
    s.(calls := s.calls[c := Call(r, if refused.Some? then Answered(Err(refused.value)) else AtGet)])
  }

  /** The call goes on with bytes in a buffer of its own. */
  function Take(s: State, c: nat, stage: Stage, copy: nat, bytes: seq<Octet>): State
    requires c in s.calls
  {
    Advance(s, c, stage).(heap := s.heap[copy := Cell(bytes, HeldBy(c))])
  }

  function Renew(s: State, key: string, now: int): State
    requires key in s.entries
  {
    s.(entries := s.entries[key := s.entries[key].(usedAt := now)])
  }

  /** The locked Get: a hit takes a copy of its own, an expired key is dropped. */
  function RecallStep(cfg: Config, s: State, c: nat, now: int, copy: nat): State
    requires c in s.calls
  {
    var key := KeyOf(cfg.crypto, s.calls[c].request);
    if !Caches(cfg) || key !in s.entries then Advance(s, c, AtUnwrap)
    else if s.entries[key].expiresAt < now then Advance(Drop(s, {key}), c, AtUnwrap)
    else Renew(Take(s, c, AtOpen(copy), copy, Bytes(s.heap, s.entries[key].buffer)), key, now)
  }

  function UnwrapStep(cfg: Config, s: State, c: nat, copy: nat): State
    requires c in s.calls
  {
    var dek := DataKeyOf(cfg.crypto, s.calls[c].request);
    if dek.None? then Advance(s, c, Answered(Err(UnwrapFailed)))
    else Take(s, c, AtSet(copy), copy, dek.value)
  }

  predicate Stores(cfg: Config, key: string, dek: seq<Octet>) {
    Caches(cfg) && key != "" && dek != []
  }

  /** The locked Set up to its evictions: a copy replaces what the key had. */
  function Put(cfg: Config, s: State, r: Request, dek: seq<Octet>, now: int, copy: nat): State {
    var key := KeyOf(cfg.crypto, r);
    var t := Drop(s, {key});
    t.(heap := t.heap[copy := Cell(dek, InCache(key))],
       entries := t.entries[key := Slot(copy, now + cfg.ttl, now)],
       known := t.known + {Wrapped(r)})
  }

  /** evictLocked drops what has expired, then the least recently used down to capacity. */
  predicate LegalEviction(entries: map<string, Slot>, now: int, maxEntries: int, gone: set<string>) {
    var kept := entries - gone;
    && gone <= entries.Keys && |kept| <= maxEntries
    && (forall k :: k in kept ==> now <= kept[k].expiresAt)
    && (forall k :: k in gone && now <= entries[k].expiresAt ==>
          |kept| == maxEntries && forall j :: j in kept ==> entries[k].usedAt <= kept[j].usedAt)
  }

  function RememberStep(cfg: Config, s: State, c: nat, b: nat, now: int, copy: nat, gone: set<string>): State
    requires c in s.calls
  {
    var r, dek := s.calls[c].request, Bytes(s.heap, b);
    var t := if Stores(cfg, KeyOf(cfg.crypto, r), dek) then Drop(Put(cfg, s, r, dek, now, copy), gone) else s;
    Advance(t.(calls := s.calls), c, AtOpen(b))
  }

  function ClearStep(s: State, c: nat, b: nat, result: Result<seq<Octet>, Error>): State
    requires c in s.calls
  {
    Advance(s, c, Answered(result)).(heap := Overwritten(s.heap, {b}))
  }

  predicate Enabled(cfg: Config, s: State, e: Event) {
    match e
    case Begin(c, _) => c !in s.calls
    case Recall(c, _, copy) => c in s.calls && s.calls[c].stage.AtGet? && copy !in s.heap
    case Unwrap(c, copy) => c in s.calls && s.calls[c].stage.AtUnwrap? && copy !in s.heap
    case Remember(c, now, copy, gone) =>
      && c in s.calls && s.calls[c].stage.AtSet? && copy !in s.heap
      && var r, dek := s.calls[c].request, Bytes(s.heap, s.calls[c].stage.buffer);
      (Stores(cfg, KeyOf(cfg.crypto, r), dek) ==>
         LegalEviction(Put(cfg, s, r, dek, now, copy).entries, now, cfg.maxEntries, gone))
    case Unseal(c) => c in s.calls && s.calls[c].stage.AtOpen?
    case Clear(c) => c in s.calls && s.calls[c].stage.AtClear?
  }

  function Step(cfg: Config, s: State, e: Event): State
    requires Enabled(cfg, s, e)
  {
    match e
    case Begin(c, r) => BeginStep(s, c, r)
    case Recall(c, now, copy) => RecallStep(cfg, s, c, now, copy)
    case Unwrap(c, copy) => UnwrapStep(cfg, s, c, copy)
    case Remember(c, now, copy, gone) => RememberStep(cfg, s, c, s.calls[c].stage.buffer, now, copy, gone)
    case Unseal(c) =>
      var b := s.calls[c].stage.buffer;
      Advance(s, c, AtClear(b, OpenWith(cfg.crypto, s.calls[c].request, Bytes(s.heap, b))))
    case Clear(c) => ClearStep(s, c, s.calls[c].stage.buffer, s.calls[c].stage.result)
  }

  predicate Next(cfg: Config, s: State, e: Event, t: State) {
    Enabled(cfg, s, e) && t == Step(cfg, s, e)
  }

  function Steps(cfg: Config): (State, Event, State) -> bool {
    (s, e, t) => Next(cfg, s, e, t)
  }

  ghost predicate Run(cfg: Config, states: seq<State>, events: seq<Event>) {
    Path(Steps(cfg), states, events) && states[0] == Init()
  }

  // ------------------------------------------------------------------ invariant

  function Held(stage: Stage): Option<nat> {
    match stage
    case AtSet(b) => Some(b)
    case AtOpen(b) => Some(b)
    case AtClear(b, _) => Some(b)
    case _ => None
  }

  predicate CellOk(s: State, b: nat)
    requires b in s.heap
  {
    match s.heap[b].owner
    case InCache(k) => k in s.entries && s.entries[k].buffer == b
    case HeldBy(c) => c in s.calls && Held(s.calls[c].stage) == Some(b)
    case Nobody => IsZero(s.heap[b].bytes)
  }

  ghost predicate SlotOk(cfg: Config, s: State, k: string)
    requires k in s.entries
  {
    var b := s.entries[k].buffer;
    b in s.heap && s.heap[b].owner == InCache(k) && Genuine(cfg.crypto, s.known, k, s.heap[b].bytes)
  }

  predicate CallOk(cfg: Config, s: State, c: nat)
    requires c in s.calls
  {
    var held := Held(s.calls[c].stage);
    && (held.Some? ==> held.value in s.heap && s.heap[held.value].owner == HeldBy(c))
    && (s.calls[c].stage.AtSet? ==> DataKeyOf(cfg.crypto, s.calls[c].request) == Some(Bytes(s.heap, held.value)))
  }

  ghost predicate Inv(cfg: Config, s: State) {
    && (forall b {:trigger CellOk(s, b)} :: b in s.heap ==> CellOk(s, b))
    && (forall k {:trigger SlotOk(cfg, s, k)} :: k in s.entries ==> SlotOk(cfg, s, k))
    && (forall c {:trigger CallOk(cfg, s, c)} :: c in s.calls ==> CallOk(cfg, s, c))
  }

  /** A buffer that a call holds is not one of the cache's. */
  predicate HeldAlone(s: State, t: State) {
    forall b :: b in s.heap && s.heap[b].owner.HeldBy? ==> b in t.heap && t.heap[b] == s.heap[b]
  }

  lemma DropKeeps(cfg: Config, s: State, keys: set<string>)
    requires Inv(cfg, s)
    ensures Inv(cfg, Drop(s, keys)) && HeldAlone(s, Drop(s, keys)) && Drop(s, keys).heap.Keys == s.heap.Keys
  {
    var t := Drop(s, keys);
    forall b | b in s.heap && s.heap[b].owner.HeldBy? ensures t.heap[b] == s.heap[b] {
      forall k | k in s.entries ensures s.entries[k].buffer != b { assert SlotOk(cfg, s, k); }
    }
    forall b | b in t.heap ensures CellOk(t, b) { assert CellOk(s, b); }
    forall k | k in t.entries ensures SlotOk(cfg, t, k) {
      assert SlotOk(cfg, s, k);
      forall j | j in keys && j in s.entries ensures s.entries[j].buffer != s.entries[k].buffer {
        assert SlotOk(cfg, s, j);
      }
    }
    forall c | c in t.calls ensures CallOk(cfg, t, c) { assert CallOk(cfg, s, c); }
  }

  lemma PutKeeps(cfg: Config, s: State, r: Request, dek: seq<Octet>, now: int, copy: nat)
    requires Inv(cfg, s) && copy !in s.heap && DataKeyOf(cfg.crypto, r) == Some(dek)
    ensures Inv(cfg, Put(cfg, s, r, dek, now, copy)) && HeldAlone(s, Put(cfg, s, r, dek, now, copy))
  {
    var key := KeyOf(cfg.crypto, r);
    var d := Drop(s, {key});
    DropKeeps(cfg, s, {key});
    var t := Put(cfg, s, r, dek, now, copy);
    forall b | b in t.heap ensures CellOk(t, b) {
      if b != copy { assert CellOk(d, b); }
    }
    forall k | k in t.entries ensures SlotOk(cfg, t, k) {
      if k == key {
        assert CacheKey(cfg.crypto.hash, VersionOf(cfg.crypto, r.keyVersion), Wrapped(r)) == key;
      } else {
        assert SlotOk(cfg, d, k);
        KnowingMore(cfg.crypto, s.known, t.known, k, d.heap[d.entries[k].buffer].bytes);
      }
    }
    forall c | c in t.calls ensures CallOk(cfg, t, c) { assert CallOk(cfg, d, c); }
  }

  /** Going on with the same buffer. */
  lemma AdvanceKeeps(cfg: Config, s: State, c: nat, stage: Stage)
    requires Inv(cfg, s) && c in s.calls && Held(stage) == Held(s.calls[c].stage) && !stage.AtSet?
    ensures Inv(cfg, Advance(s, c, stage))
  {
    var t := Advance(s, c, stage);
    forall b | b in t.heap ensures CellOk(t, b) { assert CellOk(s, b); }
    forall k | k in t.entries ensures SlotOk(cfg, t, k) { assert SlotOk(cfg, s, k); }
    forall j | j in t.calls ensures CallOk(cfg, t, j) { assert CallOk(cfg, s, j); }
  }

  lemma TakeKeeps(cfg: Config, s: State, c: nat, stage: Stage, copy: nat, bytes: seq<Octet>)
    requires Inv(cfg, s) && c in s.calls && Held(s.calls[c].stage).None? && copy !in s.heap
    requires Held(stage) == Some(copy)
    requires stage.AtSet? ==> DataKeyOf(cfg.crypto, s.calls[c].request) == Some(bytes)
    ensures var t := Take(s, c, stage, copy, bytes); Inv(cfg, t) && HeldAlone(s, t)
  {
    var t := Take(s, c, stage, copy, bytes);
    forall b | b in t.heap ensures CellOk(t, b) {
      if b != copy { assert CellOk(s, b); }
    }
    forall k | k in t.entries ensures SlotOk(cfg, t, k) { assert SlotOk(cfg, s, k); }
    forall j | j in t.calls ensures CallOk(cfg, t, j) {
      if j != c { assert CallOk(cfg, s, j); }
    }
  }

  lemma RenewKeeps(cfg: Config, s: State, key: string, now: int)
    requires Inv(cfg, s) && key in s.entries
    ensures Inv(cfg, Renew(s, key, now))
  {
    var t := Renew(s, key, now);
    forall b | b in t.heap ensures CellOk(t, b) { assert CellOk(s, b); }
    forall k | k in t.entries ensures SlotOk(cfg, t, k) { assert SlotOk(cfg, s, k); }
    forall j | j in t.calls ensures CallOk(cfg, t, j) { assert CallOk(cfg, s, j); }
  }

  lemma UnwrapKeeps(cfg: Config, s: State, c: nat, copy: nat)
    requires Inv(cfg, s) && Enabled(cfg, s, Unwrap(c, copy))
    ensures var t := UnwrapStep(cfg, s, c, copy); Inv(cfg, t) && HeldAlone(s, t)
  {
    var dek := DataKeyOf(cfg.crypto, s.calls[c].request);
    if dek.None? {
      AdvanceKeeps(cfg, s, c, Answered(Err(UnwrapFailed)));
    } else {
      TakeKeeps(cfg, s, c, AtSet(copy), copy, dek.value);
    }
  }

  lemma RecallKeeps(cfg: Config, s: State, c: nat, now: int, copy: nat)
    requires Inv(cfg, s) && Enabled(cfg, s, Recall(c, now, copy))
    ensures var t := RecallStep(cfg, s, c, now, copy); Inv(cfg, t) && HeldAlone(s, t)
  {
    var key := KeyOf(cfg.crypto, s.calls[c].request);
    if !Caches(cfg) || key !in s.entries {
      AdvanceKeeps(cfg, s, c, AtUnwrap);
    } else if s.entries[key].expiresAt < now {
      DropKeeps(cfg, s, {key});
      AdvanceKeeps(cfg, Drop(s, {key}), c, AtUnwrap);
    } else {
      var bytes := Bytes(s.heap, s.entries[key].buffer);
      TakeKeeps(cfg, s, c, AtOpen(copy), copy, bytes);
      RenewKeeps(cfg, Take(s, c, AtOpen(copy), copy, bytes), key, now);
    }
  }

  lemma RememberKeeps(cfg: Config, s: State, c: nat, now: int, copy: nat, gone: set<string>)
    requires Inv(cfg, s) && Enabled(cfg, s, Remember(c, now, copy, gone))
    ensures var t := RememberStep(cfg, s, c, s.calls[c].stage.buffer, now, copy, gone); Inv(cfg, t) && HeldAlone(s, t)
  {
    assert CallOk(cfg, s, c);
    var b := s.calls[c].stage.buffer;
    var r, dek := s.calls[c].request, Bytes(s.heap, b);
    if Stores(cfg, KeyOf(cfg.crypto, r), dek) {
      PutKeeps(cfg, s, r, dek, now, copy);
      DropKeeps(cfg, Put(cfg, s, r, dek, now, copy), gone);
      AdvanceKeeps(cfg, Drop(Put(cfg, s, r, dek, now, copy), gone), c, AtOpen(b));
    } else {
      AdvanceKeeps(cfg, s, c, AtOpen(b));
    }
  }

  lemma ClearKeeps(cfg: Config, s: State, c: nat)
    requires Inv(cfg, s) && Enabled(cfg, s, Clear(c))
    ensures Inv(cfg, Step(cfg, s, Clear(c)))
  {
    assert CallOk(cfg, s, c);
    var t := Step(cfg, s, Clear(c));
    forall b | b in t.heap ensures CellOk(t, b) { assert CellOk(s, b); }
    forall k | k in t.entries ensures SlotOk(cfg, t, k) { assert SlotOk(cfg, s, k); }
    forall j | j in t.calls ensures CallOk(cfg, t, j) { assert CallOk(cfg, s, j); }
  }

  lemma BeginKeeps(cfg: Config, s: State, c: nat, r: Request)
    requires Inv(cfg, s) && c !in s.calls
    ensures Inv(cfg, BeginStep(s, c, r))
  {
    var t := BeginStep(s, c, r);
    forall b | b in t.heap ensures CellOk(t, b) { assert CellOk(s, b); }
    forall k | k in t.entries ensures SlotOk(cfg, t, k) { assert SlotOk(cfg, s, k); }
    forall j | j in t.calls ensures CallOk(cfg, t, j) {
      if j != c { assert CallOk(cfg, s, j); }
    }
  }

  /** Every step keeps each buffer with one user, cached keys genuine and dropped ones zero. */
  lemma StepKeepsInv(cfg: Config, s: State, e: Event)
    requires Inv(cfg, s) && Enabled(cfg, s, e)
    ensures Inv(cfg, Step(cfg, s, e))
  {
    match e
    case Begin(c, r) => BeginKeeps(cfg, s, c, r);
    case Recall(c, now, copy) => RecallKeeps(cfg, s, c, now, copy);
    case Unwrap(c, copy) => UnwrapKeeps(cfg, s, c, copy);
    case Remember(c, now, copy, gone) => RememberKeeps(cfg, s, c, now, copy, gone);
    case Unseal(c) => AdvanceKeeps(cfg, s, c, Step(cfg, s, e).calls[c].stage);
    case Clear(c) => ClearKeeps(cfg, s, c);
  }

  lemma {:induction false} RunKeepsInv(cfg: Config, states: seq<State>, events: seq<Event>, m: nat)
    requires Run(cfg, states, events) && m < |states|
    ensures Inv(cfg, states[m])
  {
    if m > 0 {
      RunKeepsInv(cfg, states, events, m - 1);
      assert Steps(cfg)(states[m - 1], events[m - 1], states[m]);
      StepKeepsInv(cfg, states[m - 1], events[m - 1]);
    }
  }

  // ---------------------------------------------------------- other calls' steps

  /** `c` and the buffer it holds are as they were. */
  predicate Undisturbed(s: State, t: State, c: nat)
    requires c in s.calls
  {
    && c in t.calls && t.calls[c] == s.calls[c]
    && var held := Held(s.calls[c].stage);
    held.Some? ==> Bytes(t.heap, held.value) == Bytes(s.heap, held.value)
  }

  lemma OthersDoNotDisturb(cfg: Config, s: State, e: Event, c: nat)
    requires Inv(cfg, s) && Enabled(cfg, s, e) && c in s.calls && e.call != c
    ensures Undisturbed(s, Step(cfg, s, e), c)
  {
    assert CallOk(cfg, s, c);
    match e
    case Recall(d, now, copy) => RecallKeeps(cfg, s, d, now, copy);
    case Unwrap(d, copy) => UnwrapKeeps(cfg, s, d, copy);
    case Remember(d, now, copy, gone) => RememberKeeps(cfg, s, d, now, copy, gone);
    case Clear(d) => assert CallOk(cfg, s, d);
    case _ =>
  }

  // ------------------------------------------------------------------ the result

  /** The call is on its way to the result it would have alone, or has it. */
  predicate OnTrack(cfg: Config, s: State, c: nat) {
    && c in s.calls
    && var r := s.calls[c].request;
    match s.calls[c].stage
    case AtClear(_, result) => result == Alone(cfg.crypto, r)
    case Answered(result) => result == Alone(cfg.crypto, r)
    case stage =>
      && Refused(r).None?
      && var held := Held(stage);
      held.Some? ==> held.value in s.heap && DataKeyOf(cfg.crypto, r) == Some(Bytes(s.heap, held.value))
  }

  /** No wrapped key with the same digest is in the way when the call asks the cache. */
  ghost predicate Unobstructed(cfg: Config, s: State, e: Event) {
    e.Recall? && e.call in s.calls ==> CollisionFree(cfg.crypto, s.known, Wrapped(s.calls[e.call].request))
  }

  lemma HitIsExact(cfg: Config, s: State, c: nat)
    requires Inv(cfg, s) && c in s.calls && CollisionFree(cfg.crypto, s.known, Wrapped(s.calls[c].request))
    requires KeyOf(cfg.crypto, s.calls[c].request) in s.entries
    ensures var slot := s.entries[KeyOf(cfg.crypto, s.calls[c].request)];
            DataKeyOf(cfg.crypto, s.calls[c].request) == Some(Bytes(s.heap, slot.buffer))
  {
    var r := s.calls[c].request;
    var key := KeyOf(cfg.crypto, r);
    assert SlotOk(cfg, s, key);
    var dek := Bytes(s.heap, s.entries[key].buffer);
    GenuineSharesDigest(cfg.crypto, s.known, VersionOf(cfg.crypto, r.keyVersion), Wrapped(r), dek);
    SharedDigestIsExact(cfg.crypto, s.known, VersionOf(cfg.crypto, r.keyVersion), Wrapped(r), dek);
  }

  lemma RecallIsExact(cfg: Config, s: State, c: nat, now: int, copy: nat)
    requires Inv(cfg, s) && Enabled(cfg, s, Recall(c, now, copy)) && OnTrack(cfg, s, c)
    requires CollisionFree(cfg.crypto, s.known, Wrapped(s.calls[c].request))
    ensures OnTrack(cfg, RecallStep(cfg, s, c, now, copy), c)
  {
    if KeyOf(cfg.crypto, s.calls[c].request) in s.entries {
      HitIsExact(cfg, s, c);
    }
  }

  lemma RememberIsExact(cfg: Config, s: State, c: nat, now: int, copy: nat, gone: set<string>)
    requires Inv(cfg, s) && Enabled(cfg, s, Remember(c, now, copy, gone)) && OnTrack(cfg, s, c)
    ensures OnTrack(cfg, Step(cfg, s, Remember(c, now, copy, gone)), c)
  {
    assert CallOk(cfg, s, c);
    RememberKeeps(cfg, s, c, now, copy, gone);
  }

  lemma OwnStepIsExact(cfg: Config, s: State, e: Event)
    requires Inv(cfg, s) && Enabled(cfg, s, e) && !e.Begin? && OnTrack(cfg, s, e.call)
    requires Unobstructed(cfg, s, e)
    ensures OnTrack(cfg, Step(cfg, s, e), e.call)
  {
    match e
    case Recall(c, now, copy) => RecallIsExact(cfg, s, c, now, copy);
    case Remember(c, now, copy, gone) => RememberIsExact(cfg, s, c, now, copy, gone);
    case _ =>
  }

  lemma StepKeepsOnTrack(cfg: Config, s: State, e: Event, c: nat)
    requires Inv(cfg, s) && Enabled(cfg, s, e) && OnTrack(cfg, s, c)
    requires e.call == c ==> Unobstructed(cfg, s, e)
    ensures OnTrack(cfg, Step(cfg, s, e), c)
  {
    if e.call == c {
      OwnStepIsExact(cfg, s, e);
    } else {
      assert CallOk(cfg, s, c);
      OthersDoNotDisturb(cfg, s, e, c);
      StepKeepsInv(cfg, s, e);
      assert CallOk(cfg, Step(cfg, s, e), c);
    }
  }

  /** As OnTrack, for the request the call began with. */
  predicate Serves(cfg: Config, s: State, c: nat, r: Request) {
    OnTrack(cfg, s, c) && s.calls[c].request == r
  }

  lemma RequestStays(cfg: Config, s: State, e: Event, c: nat)
    requires Enabled(cfg, s, e) && c in s.calls
    ensures c in Step(cfg, s, e).calls && Step(cfg, s, e).calls[c].request == s.calls[c].request
  {
  }

  /** Step i begins a call, and no collision is in its way before step m. */
  ghost predicate Free(cfg: Config, states: seq<State>, events: seq<Event>, i: nat, m: nat)
    requires m < |states| == |events| + 1
  {
    && i < m && events[i].Begin?
    && forall j :: i < j < m && events[j].call == events[i].call ==> Unobstructed(cfg, states[j], events[j])
  }

  lemma NextServes(cfg: Config, s: State, e: Event, t: State, c: nat, r: Request)
    requires Inv(cfg, s) && Next(cfg, s, e, t) && Serves(cfg, s, c, r)
    requires e.call == c ==> Unobstructed(cfg, s, e)
    ensures Serves(cfg, t, c, r)
  {
    StepKeepsOnTrack(cfg, s, e, c);
    RequestStays(cfg, s, e, c);
  }

  lemma BeginServes(cfg: Config, s: State, e: Event, t: State)
    requires Next(cfg, s, e, t) && e.Begin?
    ensures Serves(cfg, t, e.call, e.request)
  {
  }

  lemma {:induction false} StaysOnTrack(cfg: Config, states: seq<State>, events: seq<Event>, i: nat, m: nat)
    requires Run(cfg, states, events) && m < |states| && Free(cfg, states, events, i, m)
    ensures Serves(cfg, states[m], events[i].call, events[i].request)
  {
    var s, e, t := states[m - 1], events[m - 1], states[m];
    assert Steps(cfg)(s, e, t);
    if i < m - 1 {
      StaysOnTrack(cfg, states, events, i, m - 1);
      RunKeepsInv(cfg, states, events, m - 1);
      NextServes(cfg, s, e, t, events[i].call, events[i].request);
    } else {
      BeginServes(cfg, s, e, t);
    }
  }

  /**
   Whatever other calls do in between, whatever they cache, drop or overwrite, and however
   late its own steps come, a call that finishes returns what it would return alone: unless,
   when it asked the cache, another wrapped key cached before had the same digest.
   */
  lemma EveryCallIsExact(cfg: Config, states: seq<State>, events: seq<Event>, i: nat, m: nat)
    requires Run(cfg, states, events) && m < |states| && Free(cfg, states, events, i, m)
    ensures events[i].call in states[m].calls
    ensures var stage := states[m].calls[events[i].call].stage;
            stage.Answered? ==> stage.answer == Alone(cfg.crypto, events[i].request)
  {
    StaysOnTrack(cfg, states, events, i, m);
  }

  /** Some call was begun with this wrapped key. */
  ghost predicate Brought(events: seq<Event>, wrapped: seq<Octet>) {
    exists e :: e in events && e.Begin? && Wrapped(e.request) == wrapped
  }

  ghost predicate AllBrought(events: seq<Event>, s: State) {
    && (forall w :: w in s.known ==> Brought(events, w))
    && (forall c :: c in s.calls ==> Brought(events, Wrapped(s.calls[c].request)))
  }

  /** The hash separates the wrapped keys that calls bring. */
  ghost predicate Separated(c: Crypto, events: seq<Event>) {
    forall a, b :: Brought(events, a) && Brought(events, b) && c.hash(a) == c.hash(b) ==> a == b
  }

  lemma StepKnows(cfg: Config, s: State, e: Event)
    requires Enabled(cfg, s, e)
    ensures Step(cfg, s, e).known == s.known
            || (e.call in s.calls && Step(cfg, s, e).known == s.known + {Wrapped(s.calls[e.call].request)})
  {
  }

  lemma StepBrings(cfg: Config, s: State, e: Event, c: nat)
    requires Enabled(cfg, s, e) && c in Step(cfg, s, e).calls
    ensures if e.Begin? && c == e.call then Step(cfg, s, e).calls[c].request == e.request
            else c in s.calls && Step(cfg, s, e).calls[c].request == s.calls[c].request
  {
  }

  lemma NextBrings(cfg: Config, events: seq<Event>, s: State, e: Event, t: State)
    requires e in events && Next(cfg, s, e, t) && AllBrought(events, s)
    ensures AllBrought(events, t)
  {
    StepKnows(cfg, s, e);
    forall c | c in t.calls ensures Brought(events, Wrapped(t.calls[c].request)) {
      StepBrings(cfg, s, e, c);
    }
  }

  function StepsAmong(cfg: Config, events: seq<Event>): (State, Event, State) -> bool {
    (s, e, t) => Next(cfg, s, e, t) && e in events
  }

  ghost function BroughtBy(events: seq<Event>): (nat, State) -> bool {
    (i, s) => AllBrought(events, s)
  }

  lemma StepsBring(cfg: Config, events: seq<Event>)
    ensures Inductive(StepsAmong(cfg, events), BroughtBy(events))
  {
    forall i: nat, s, e, t | BroughtBy(events)(i, s) && StepsAmong(cfg, events)(s, e, t)
      ensures BroughtBy(events)(i + 1, t)
    {
      NextBrings(cfg, events, s, e, t);
    }
  }

  lemma RunStaysAmong(cfg: Config, states: seq<State>, events: seq<Event>)
    requires Run(cfg, states, events)
    ensures Path(StepsAmong(cfg, events), states, events)
  {
    forall i: nat | i < |events| ensures StepsAmong(cfg, events)(states[i], events[i], states[i + 1]) {
      assert Steps(cfg)(states[i], events[i], states[i + 1]);
    }
  }

  lemma KnownWereBrought(cfg: Config, states: seq<State>, events: seq<Event>, m: nat)
    requires Run(cfg, states, events) && m < |states|
    ensures AllBrought(events, states[m])
  {
    var brought := BroughtBy(events);
    assert brought(0, states[0]);
    RunStaysAmong(cfg, states, events);
    StepsBring(cfg, events);
    Kept(StepsAmong(cfg, events), brought, states, events, 0, m);
    assert brought(m, states[m]);
  }

  lemma SeparatedIsUnobstructed(cfg: Config, events: seq<Event>, s: State, e: Event)
    requires Separated(cfg.crypto, events) && AllBrought(events, s)
    ensures Unobstructed(cfg, s, e)
  {
  }

  /** A hash that separates the wrapped keys of a run makes every one of its calls exact. */
  lemma SeparatedRunIsExact(cfg: Config, states: seq<State>, events: seq<Event>, i: nat, m: nat)
    requires Run(cfg, states, events) && i < m < |states| && events[i].Begin? && Separated(cfg.crypto, events)
    ensures events[i].call in states[m].calls
    ensures var stage := states[m].calls[events[i].call].stage;
            stage.Answered? ==> stage.answer == Alone(cfg.crypto, events[i].request)
  {
    forall j | i < j < m && events[j].call == events[i].call ensures Unobstructed(cfg, states[j], events[j]) {
      KnownWereBrought(cfg, states, events, j);
      SeparatedIsUnobstructed(cfg, events, states[j], events[j]);
    }
    EveryCallIsExact(cfg, states, events, i, m);
  }

  // ------------------------------------------------------------------ the buffers

  /** A buffer that is not all zero is cached under one key or held by one call that is still
      at work, and not both: a finished call and a dropped key leave no data key behind. */
  lemma NoKeyIsLeftBehind(cfg: Config, states: seq<State>, events: seq<Event>, m: nat, b: nat)
    requires Run(cfg, states, events) && m < |states| && b in states[m].heap
    ensures var s := states[m];
            || IsZero(s.heap[b].bytes)
            || (exists k :: k in s.entries && s.entries[k].buffer == b)
            || (exists c :: c in s.calls && Held(s.calls[c].stage) == Some(b))
    ensures var s := states[m];
            forall c :: c in s.calls && Held(s.calls[c].stage) == Some(b) ==>
              && (forall k :: k in s.entries ==> s.entries[k].buffer != b)
              && (forall d :: d in s.calls && Held(s.calls[d].stage) == Some(b) ==> d == c)
  {
    var s := states[m];
    RunKeepsInv(cfg, states, events, m);
    assert CellOk(s, b);
    forall c | c in s.calls && Held(s.calls[c].stage) == Some(b)
      ensures forall k :: k in s.entries ==> s.entries[k].buffer != b
      ensures forall d :: d in s.calls && Held(s.calls[d].stage) == Some(b) ==> d == c
    {
      assert CallOk(cfg, s, c);
      forall k | k in s.entries ensures s.entries[k].buffer != b { assert SlotOk(cfg, s, k); }
      forall d | d in s.calls && Held(s.calls[d].stage) == Some(b) ensures d == c { assert CallOk(cfg, s, d); }
    }
  }

  predicate Fits(cfg: Config, s: State) {
    |s.entries| <= if Caches(cfg) then cfg.maxEntries else 0
  }

  lemma StepFits(cfg: Config, s: State, e: Event)
    requires Enabled(cfg, s, e) && Fits(cfg, s)
    ensures Fits(cfg, Step(cfg, s, e))
  {
    if e.Recall? {
      var key := KeyOf(cfg.crypto, s.calls[e.call].request);
      FewerKeys(s.entries, {key});
      if key in s.entries {
        assert s.entries[key := s.entries[key].(usedAt := e.now)].Keys == s.entries.Keys;
      }
    }
  }

  lemma {:induction false} CacheFits(cfg: Config, states: seq<State>, events: seq<Event>, m: nat)
    requires Run(cfg, states, events) && m < |states|
    ensures Fits(cfg, states[m])
  {
    if m > 0 {
      CacheFits(cfg, states, events, m - 1);
      assert Steps(cfg)(states[m - 1], events[m - 1], states[m]);
      StepFits(cfg, states[m - 1], events[m - 1]);
    }
  }
}
