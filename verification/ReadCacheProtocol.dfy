/**
 Readers, detached fetch goroutines and invalidators of internal/api/read_cache.go
 interleaved.  Every mutex-protected block is one step; so are a fetch's start and
 return, close(done) and a waiter's observation.  Fetches and requests are numbered,
 and the clock of a state is the number of steps taken so far.
 */
module ReadCacheProtocol {
  import opened Wrappers
  import opened ReadCacheSpec
  import opened Runs

  datatype Phase = Spawned | Running | Returned | Completed | Closed

  /** One call and the goroutine that runs it. */
  datatype Fetch = Fetch(
    key: Key,
    generation: nat,
    phase: Phase,
    val: Option<Bytes>,
    failed: bool,
    createdAt: nat,
    startedAt: nat)
  {
    predicate Live() { phase.Spawned? || phase.Running? || phase.Returned? }
  }

  /** `Reply` records which fetch produced the bytes. */
  datatype Answer = Reply(val: Option<Bytes>, failed: bool, from: nat) | ContextDone

  datatype Stage = AtGet | AtLock | Waiting(call: nat) | Answered(answer: Answer)

  /** One GetOrFetchContext call. */
  datatype Request = Request(key: Key, begunAt: nat, generationAtBegin: nat, retries: nat, stage: Stage)

  datatype State = State(
    cache: Cache<nat>,
    fetches: map<nat, Fetch>,
    storedBy: map<Key, nat>,  // which fetch stored each entry
    requests: map<nat, Request>,
    clock: nat)

  datatype Config = Config(maxAge: int, maxEntries: nat)

  datatype Event =
    | Begin(request: nat, key: Key)
    | FastGet(request: nat, now: int)
    | Lock(request: nat, now: int, newCall: nat)
    | FetchStart(call: nat)
    | FetchReturn(call: nat, val: Option<Bytes>, failed: bool)
    | CompleteFetch(call: nat, now: int, kept: map<Key, Entry>)
    | CloseDone(call: nat)
    | Observe(request: nat, contextDone: bool)
    | GiveUp(request: nat)
    | InvalidateMatching(covers: Key -> bool)
    | InvalidateKey(key: Key)

  function Init(): State {
    State(Cache(map[], map[], map[], {}), map[], map[], map[], 0)
  }

  predicate At(s: State, r: nat, stage: Stage) {
    r in s.requests && s.requests[r].stage == stage
  }

  predicate Enabled(cfg: Config, s: State, e: Event) {
    match e
    case Begin(r, _) => r !in s.requests
    case FastGet(r, _) => At(s, r, AtGet)
    case Lock(r, _, c) => At(s, r, AtLock) && c !in s.fetches
    case FetchStart(c) => c in s.fetches && s.fetches[c].phase == Spawned
    case FetchReturn(c, _, _) => c in s.fetches && s.fetches[c].phase == Running
    case CompleteFetch(c, now, kept) =>
      && c in s.fetches && s.fetches[c].phase == Returned
      && LegalEviction(s.cache.entries[s.fetches[c].key := Entry(s.fetches[c].val, now)], cfg.maxEntries, kept)
    case CloseDone(c) => c in s.fetches && s.fetches[c].phase == Completed
    case Observe(r, _) =>
      r in s.requests && s.requests[r].stage.Waiting? && s.requests[r].stage.call in s.fetches
      && s.fetches[s.requests[r].stage.call].phase == Closed
    case GiveUp(r) =>
      r in s.requests && s.requests[r].stage.Waiting? && s.requests[r].stage.call in s.fetches
      && s.fetches[s.requests[r].stage.call].phase != Closed
    case InvalidateMatching(_) => true
    case InvalidateKey(_) => true
  }

  function Source(s: State, key: Key): nat {
    if key in s.storedBy then s.storedBy[key] else 0
  }

  function Advance(s: State, r: nat, stage: Stage): State
    requires r in s.requests
  {
    s.(requests := s.requests[r := s.requests[r].(stage := stage)])
  }

  /** The locked block: a hit answers, otherwise the request waits on an old or new call. */
  function LockStep(cfg: Config, s: State, r: nat, now: int, c: nat): State
    requires r in s.requests
  {
    var key := s.requests[r].key;
    match LookUp(s.cache, key, now, cfg.maxAge)
    case Hit(data) => Advance(s, r, Answered(Reply(data, false, Source(s, key))))
    case Join(call) => Advance(s, r, Waiting(call))
    case Create(generation) =>
      Advance(s, r, Waiting(c)).(
        cache := StartCall(s.cache, key, c),
        fetches := s.fetches[c := Fetch(key, generation, Spawned, None, false, s.clock, 0)])
  }

  function ObserveStep(s: State, r: nat, c: nat, contextDone: bool): State
    requires r in s.requests && c in s.fetches
  {
    if c !in s.cache.flagged then Advance(s, r, Answered(Reply(s.fetches[c].val, s.fetches[c].failed, c)))
    else if contextDone then Advance(s, r, Answered(ContextDone))
    else s.(requests := s.requests[r := s.requests[r].(stage := AtGet, retries := s.requests[r].retries + 1)])
  }

  function CompleteStep(s: State, c: nat, kept: map<Key, Entry>): State
    requires c in s.fetches
  {
    var f := s.fetches[c];
    var stores := !f.failed && Generation(s.cache.generation, f.key) == f.generation;
    s.(cache := Complete(s.cache, f.key, c, f.generation, f.failed, kept),
       fetches := s.fetches[c := f.(phase := Completed)],
       storedBy := if stores then s.storedBy[f.key := c] else s.storedBy)
  }

  function Apply(cfg: Config, s: State, e: Event): State
    requires Enabled(cfg, s, e)
  {
    match e
    case Begin(r, key) =>
      s.(requests := s.requests[r := Request(key, s.clock, Generation(s.cache.generation, key), 0, AtGet)])
    case FastGet(r, now) =>
      var key := s.requests[r].key;
      var data := GetBytes(s.cache, key, now, cfg.maxAge);
      Advance(s, r, if data.Some? then Answered(Reply(data, false, Source(s, key))) else AtLock)
    case Lock(r, now, c) => LockStep(cfg, s, r, now, c)
    case FetchStart(c) => s.(fetches := s.fetches[c := s.fetches[c].(phase := Running, startedAt := s.clock)])
    case FetchReturn(c, val, failed) =>
      s.(fetches := s.fetches[c := s.fetches[c].(phase := Returned, val := val, failed := failed)])
    case CompleteFetch(c, _, kept) => CompleteStep(s, c, kept)
    case CloseDone(c) => s.(fetches := s.fetches[c := s.fetches[c].(phase := Closed)])
    case Observe(r, contextDone) => ObserveStep(s, r, s.requests[r].stage.call, contextDone)
    case GiveUp(r) => Advance(s, r, Answered(ContextDone))
    case InvalidateMatching(covers) => s.(cache := InvalidateKeys(s.cache, Seen(s.cache, covers)))
    case InvalidateKey(key) => s.(cache := InvalidateKeys(s.cache, {key}))
  }

  function Step(cfg: Config, s: State, e: Event): State
    requires Enabled(cfg, s, e)
  {
    Apply(cfg, s, e).(clock := s.clock + 1)
  }

  predicate Next(cfg: Config, s: State, e: Event, t: State) {
    Enabled(cfg, s, e) && t == Step(cfg, s, e)
  }

  function Steps(cfg: Config): (State, Event, State) -> bool {
    (s, e, t) => Next(cfg, s, e, t)
  }

  /** A run from the empty cache: `states[i]` is the state before event i. */
  ghost predicate Run(cfg: Config, states: seq<State>, events: seq<Event>) {
    Path(Steps(cfg), states, events) && states[0] == Init()
  }

  // ---------------------------------------------------------------- invariant

  /** A live fetch is the current call of its key, or overtaken and flagged. */
  predicate FetchOk(s: State, c: nat)
    requires c in s.fetches
  {
    var f := s.fetches[c];
    var current := Generation(s.cache.generation, f.key);
    && f.createdAt < s.clock
    && (f.phase != Spawned ==> f.createdAt < f.startedAt < s.clock)
    && f.generation <= current
    && (c in s.cache.flagged ==> f.generation < current)
    && (f.Live() ==> if c in s.cache.flagged then f.key in s.cache.inflight ==> s.cache.inflight[f.key] != c
                     else f.generation == current && f.key in s.cache.inflight && s.cache.inflight[f.key] == c)
  }

  predicate InflightOk(s: State, k: Key)
    requires k in s.cache.inflight
  {
    var c := s.cache.inflight[k];
    c in s.fetches && s.fetches[c].key == k && s.fetches[c].Live() && c !in s.cache.flagged
  }

  predicate EntryOk(s: State, k: Key)
    requires k in s.cache.entries
  {
    && k in s.storedBy && s.storedBy[k] in s.fetches
    && var f := s.fetches[s.storedBy[k]];
    && f.key == k && !f.Live() && !f.failed && f.val == s.cache.entries[k].data
    && f.generation == Generation(s.cache.generation, k)
  }

  predicate RequestOk(s: State, r: nat)
    requires r in s.requests
  {
    var q := s.requests[r];
    var current := Generation(s.cache.generation, q.key);
    && q.begunAt < s.clock
    && q.generationAtBegin + q.retries <= current
    && match q.stage
       case Waiting(c) => c in s.fetches && s.fetches[c].key == q.key
                          && q.generationAtBegin + q.retries <= s.fetches[c].generation
       case Answered(Reply(val, failed, c)) =>
         c in s.fetches && s.fetches[c].key == q.key && !s.fetches[c].Live()
         && s.fetches[c].val == val && s.fetches[c].failed == failed
       case _ => true
  }

  ghost predicate Inv(cfg: Config, s: State) {
    && (forall c {:trigger FetchOk(s, c)} :: c in s.fetches ==> FetchOk(s, c))
    && (forall c :: c in s.cache.flagged ==> c in s.fetches)
    && (forall k {:trigger InflightOk(s, k)} :: k in s.cache.inflight ==> InflightOk(s, k))
    && (forall k {:trigger EntryOk(s, k)} :: k in s.cache.entries ==> EntryOk(s, k))
    && (forall r {:trigger RequestOk(s, r)} :: r in s.requests ==> RequestOk(s, r))
    && |s.cache.entries| <= cfg.maxEntries
  }

  lemma InvalidatingFlags(cfg: Config, s: State, keys: set<Key>, c: nat)
    requires Inv(cfg, s) && c in Flagging(s.cache.inflight, keys)
    ensures c in s.fetches && s.fetches[c].key in keys
    ensures s.fetches[c].key in s.cache.inflight && s.cache.inflight[s.fetches[c].key] == c
  {
    var k :| k in keys && k in s.cache.inflight && s.cache.inflight[k] == c;
    assert InflightOk(s, k);
  }

  lemma InvalidatingSpares(cfg: Config, s: State, keys: set<Key>, k: Key)
    requires Inv(cfg, s) && k in s.cache.inflight && k !in keys
    ensures s.cache.inflight[k] !in Flagging(s.cache.inflight, keys)
  {
    assert InflightOk(s, k);
    forall j | j in keys && j in s.cache.inflight ensures s.cache.inflight[j] != s.cache.inflight[k] {
      assert InflightOk(s, j);
    }
  }

  function Invalidated(s: State, keys: set<Key>): State {
    s.(cache := InvalidateKeys(s.cache, keys), clock := s.clock + 1)
  }

  lemma InvalidatingKeepsFetch(cfg: Config, s: State, keys: set<Key>, c: nat)
    requires Inv(cfg, s) && c in s.fetches
    ensures FetchOk(Invalidated(s, keys), c)
  {
    assert FetchOk(s, c);
    if c in Flagging(s.cache.inflight, keys) {
      InvalidatingFlags(cfg, s, keys, c);
    }
  }

  /** Invalidation: the flagged calls are exactly those taken out of `inflight`. */
  lemma InvalidatingKeepsInv(cfg: Config, s: State, keys: set<Key>)
    requires Inv(cfg, s)
    ensures Inv(cfg, Invalidated(s, keys))
  {
    var t := Invalidated(s, keys);
    forall c | c in t.fetches ensures FetchOk(t, c) {
      InvalidatingKeepsFetch(cfg, s, keys, c);
    }
    forall k | k in t.cache.inflight ensures InflightOk(t, k) {
      assert InflightOk(s, k);
      InvalidatingSpares(cfg, s, keys, k);
    }
    forall k | k in t.cache.entries ensures EntryOk(t, k) {
      assert EntryOk(s, k);
    }
    forall r | r in t.requests ensures RequestOk(t, r) {
      assert RequestOk(s, r);
    }
    forall c | c in t.cache.flagged ensures c in t.fetches {
      if c !in s.cache.flagged {
        InvalidatingFlags(cfg, s, keys, c);
      }
    }
    FewerKeys(s.cache.entries, keys);
  }

  /** Steps that touch one request only. */
  lemma MovingKeepsInv(cfg: Config, s: State, r: nat, q: Request)
    requires Inv(cfg, s)
    requires RequestOk(s.(requests := s.requests[r := q], clock := s.clock + 1), r)
    ensures Inv(cfg, s.(requests := s.requests[r := q], clock := s.clock + 1))
  {
    var t := s.(requests := s.requests[r := q], clock := s.clock + 1);
    forall c | c in t.fetches ensures FetchOk(t, c) {
      assert FetchOk(s, c);
    }
    forall k | k in t.cache.inflight ensures InflightOk(t, k) {
      assert InflightOk(s, k);
    }
    forall k | k in t.cache.entries ensures EntryOk(t, k) {
      assert EntryOk(s, k);
    }
    forall j | j in t.requests && j != r ensures RequestOk(t, j) {
      assert RequestOk(s, j);
    }
  }

  /** Steps that move one fetch along without touching the cache. */
  lemma ProgressKeepsInv(cfg: Config, s: State, c: nat, f: Fetch)
    requires Inv(cfg, s) && c in s.fetches
    requires f.key == s.fetches[c].key && f.generation == s.fetches[c].generation
    requires f.createdAt == s.fetches[c].createdAt
    requires f.Live() == s.fetches[c].Live()
    requires !f.Live() ==> f.val == s.fetches[c].val && f.failed == s.fetches[c].failed
    requires f.phase != Spawned ==> f.createdAt < f.startedAt <= s.clock
    ensures Inv(cfg, s.(fetches := s.fetches[c := f], clock := s.clock + 1))
  {
    var t := s.(fetches := s.fetches[c := f], clock := s.clock + 1);
    forall d | d in t.fetches ensures FetchOk(t, d) {
      assert FetchOk(s, d);
    }
    forall k | k in t.cache.inflight ensures InflightOk(t, k) {
      assert InflightOk(s, k);
    }
    forall k | k in t.cache.entries ensures EntryOk(t, k) {
      assert EntryOk(s, k);
    }
    forall r | r in t.requests ensures RequestOk(t, r) {
      assert RequestOk(s, r);
    }
  }

  function Created(s: State, r: nat, c: nat): State
    requires r in s.requests
  {
    var key := s.requests[r].key;
    s.(requests := s.requests[r := s.requests[r].(stage := Waiting(c))],
       cache := StartCall(s.cache, key, c),
       fetches := s.fetches[c := Fetch(key, Generation(s.cache.generation, key), Spawned, None, false, s.clock, 0)],
       clock := s.clock + 1)
  }

  lemma CreateKeepsInv(cfg: Config, s: State, r: nat, c: nat)
    requires Inv(cfg, s) && r in s.requests && c !in s.fetches && s.requests[r].key !in s.cache.inflight
    ensures Inv(cfg, Created(s, r, c))
  {
    var t, key := Created(s, r, c), s.requests[r].key;
    forall d | d in t.fetches ensures FetchOk(t, d) {
      if d != c { assert FetchOk(s, d); }
    }
    forall k | k in t.cache.inflight ensures InflightOk(t, k) {
      if k != key { assert InflightOk(s, k); }
    }
    forall k | k in t.cache.entries ensures EntryOk(t, k) {
      assert EntryOk(s, k);
    }
    forall j | j in t.requests ensures RequestOk(t, j) {
      assert RequestOk(s, j);
    }
  }

  lemma LockKeepsInv(cfg: Config, s: State, r: nat, now: int, c: nat)
    requires Inv(cfg, s) && Enabled(cfg, s, Lock(r, now, c))
    ensures Inv(cfg, Step(cfg, s, Lock(r, now, c)))
  {
    var t := Step(cfg, s, Lock(r, now, c));
    assert RequestOk(s, r);
    var key := s.requests[r].key;
    match LookUp(s.cache, key, now, cfg.maxAge)
    case Hit(_) =>
      assert EntryOk(s, key);
      MovingKeepsInv(cfg, s, r, t.requests[r]);
    case Join(d) =>
      assert InflightOk(s, key);
      assert FetchOk(s, d);
      MovingKeepsInv(cfg, s, r, t.requests[r]);
    case Create(_) =>
      CreateKeepsInv(cfg, s, r, c);
  }

  lemma CompleteKeepsFetches(cfg: Config, s: State, c: nat, now: int, kept: map<Key, Entry>, d: nat)
    requires Inv(cfg, s) && Enabled(cfg, s, CompleteFetch(c, now, kept)) && d in s.fetches
    ensures FetchOk(Step(cfg, s, CompleteFetch(c, now, kept)), d)
  {
    assert FetchOk(s, c) && FetchOk(s, d);
  }

  lemma CompleteKeepsEntries(cfg: Config, s: State, c: nat, now: int, kept: map<Key, Entry>, k: Key)
    requires Inv(cfg, s) && Enabled(cfg, s, CompleteFetch(c, now, kept))
    requires k in Step(cfg, s, CompleteFetch(c, now, kept)).cache.entries
    ensures EntryOk(Step(cfg, s, CompleteFetch(c, now, kept)), k)
  {
    if k in s.cache.entries { assert EntryOk(s, k); }
  }

  lemma CompleteKeepsRequests(cfg: Config, s: State, c: nat, now: int, kept: map<Key, Entry>, r: nat)
    requires Inv(cfg, s) && Enabled(cfg, s, CompleteFetch(c, now, kept)) && r in s.requests
    ensures RequestOk(Step(cfg, s, CompleteFetch(c, now, kept)), r)
  {
    assert RequestOk(s, r);
  }

  lemma CompleteKeepsInflight(cfg: Config, s: State, c: nat, now: int, kept: map<Key, Entry>, k: Key)
    requires Inv(cfg, s) && Enabled(cfg, s, CompleteFetch(c, now, kept))
    requires k in Step(cfg, s, CompleteFetch(c, now, kept)).cache.inflight
    ensures InflightOk(Step(cfg, s, CompleteFetch(c, now, kept)), k)
  {
    assert InflightOk(s, k);
  }

  lemma CompleteKeepsInv(cfg: Config, s: State, c: nat, now: int, kept: map<Key, Entry>)
    requires Inv(cfg, s) && Enabled(cfg, s, CompleteFetch(c, now, kept))
    ensures Inv(cfg, Step(cfg, s, CompleteFetch(c, now, kept)))
  {
    var t := Step(cfg, s, CompleteFetch(c, now, kept));
    forall d | d in t.fetches ensures FetchOk(t, d) {
      CompleteKeepsFetches(cfg, s, c, now, kept, d);
    }
    forall k | k in t.cache.inflight ensures InflightOk(t, k) {
      CompleteKeepsInflight(cfg, s, c, now, kept, k);
    }
    forall k | k in t.cache.entries ensures EntryOk(t, k) {
      CompleteKeepsEntries(cfg, s, c, now, kept, k);
    }
    forall r | r in t.requests ensures RequestOk(t, r) {
      CompleteKeepsRequests(cfg, s, c, now, kept, r);
    }
  }

  lemma ObserveKeepsInv(cfg: Config, s: State, r: nat, contextDone: bool)
    requires Inv(cfg, s) && Enabled(cfg, s, Observe(r, contextDone))
    ensures Inv(cfg, Step(cfg, s, Observe(r, contextDone)))
  {
    assert RequestOk(s, r);
    assert FetchOk(s, s.requests[r].stage.call);
    MovingKeepsInv(cfg, s, r, Step(cfg, s, Observe(r, contextDone)).requests[r]);
  }

  lemma StepKeepsInv(cfg: Config, s: State, e: Event)
    requires Inv(cfg, s) && Enabled(cfg, s, e)
    ensures Inv(cfg, Step(cfg, s, e))
  {
    match e
    case Begin(r, _) =>
      MovingKeepsInv(cfg, s, r, Step(cfg, s, e).requests[r]);
    case FastGet(r, _) =>
      assert RequestOk(s, r);
      if s.requests[r].key in s.cache.entries { assert EntryOk(s, s.requests[r].key); }
      MovingKeepsInv(cfg, s, r, Step(cfg, s, e).requests[r]);
    case Lock(r, now, c) =>
      LockKeepsInv(cfg, s, r, now, c);
    case FetchStart(c) =>
      assert FetchOk(s, c);
      ProgressKeepsInv(cfg, s, c, Step(cfg, s, e).fetches[c]);
    case FetchReturn(c, _, _) =>
      assert FetchOk(s, c);
      ProgressKeepsInv(cfg, s, c, Step(cfg, s, e).fetches[c]);
    case CompleteFetch(c, now, kept) =>
      CompleteKeepsInv(cfg, s, c, now, kept);
    case CloseDone(c) =>
      assert FetchOk(s, c);
      ProgressKeepsInv(cfg, s, c, Step(cfg, s, e).fetches[c]);
    case Observe(r, contextDone) =>
      ObserveKeepsInv(cfg, s, r, contextDone);
    case GiveUp(r) =>
      assert RequestOk(s, r);
      MovingKeepsInv(cfg, s, r, Step(cfg, s, e).requests[r]);
    case InvalidateMatching(covers) =>
      InvalidatingKeepsInv(cfg, s, Seen(s.cache, covers));
    case InvalidateKey(key) =>
      InvalidatingKeepsInv(cfg, s, {key});
  }

  ghost function InvAt(cfg: Config): (nat, State) -> bool {
    (i, s) => Inv(cfg, s) && s.clock == i
  }

  lemma NextKeepsInv(cfg: Config)
    ensures Inductive(Steps(cfg), InvAt(cfg))
  {
    forall i: nat, s, e, t | InvAt(cfg)(i, s) && Steps(cfg)(s, e, t) ensures InvAt(cfg)(i + 1, t) {
      StepKeepsInv(cfg, s, e);
    }
  }

  lemma RunKeepsInv(cfg: Config, states: seq<State>, events: seq<Event>, i: nat)
    requires Run(cfg, states, events) && i < |states|
    ensures Inv(cfg, states[i]) && states[i].clock == i
  {
    NextKeepsInv(cfg);
    assert InvAt(cfg)(0, Init());
    Kept(Steps(cfg), InvAt(cfg), states, events, 0, i);
  }

  // ------------------------------------------------------------- single flight

  /** Two live fetches of a key never both count: at most one is unflagged, and it is
      the one in `inflight` with the current generation; the other is older and flagged. */
  lemma SingleFlight(cfg: Config, states: seq<State>, events: seq<Event>, i: nat, c: nat, d: nat)
    requires Run(cfg, states, events) && i < |states|
    requires c in states[i].fetches && d in states[i].fetches && c != d
    requires states[i].fetches[c].Live() && states[i].fetches[d].Live()
    requires states[i].fetches[c].key == states[i].fetches[d].key
    requires c !in states[i].cache.flagged
    ensures d in states[i].cache.flagged
    ensures states[i].fetches[d].generation < states[i].fetches[c].generation
    ensures states[i].fetches[c].generation == Generation(states[i].cache.generation, states[i].fetches[c].key)
    ensures states[i].fetches[c].key in states[i].cache.inflight
    ensures states[i].cache.inflight[states[i].fetches[c].key] == c
  {
    RunKeepsInv(cfg, states, events, i);
    assert FetchOk(states[i], c) && FetchOk(states[i], d);
  }

  /** A fetch that was overtaken neither stores its bytes nor ends the newer flight. */
  lemma OvertakenFetchIsHarmless(cfg: Config, s: State, c: nat, now: int, kept: map<Key, Entry>)
    requires Inv(cfg, s) && Enabled(cfg, s, CompleteFetch(c, now, kept)) && c in s.cache.flagged
    ensures Step(cfg, s, CompleteFetch(c, now, kept)).cache == s.cache
    ensures Step(cfg, s, CompleteFetch(c, now, kept)).storedBy == s.storedBy
  {
    assert FetchOk(s, c);
  }

  // ----------------------------------------------------------------- freshness

  predicate Covers(e: Event, key: Key) {
    (e.InvalidateMatching? && e.covers(key)) || (e.InvalidateKey? && e.key == key)
  }

  predicate NewerThan(s: State, c: nat, at: nat) {
    c in s.fetches && at < s.fetches[c].createdAt
  }

  /** Nothing that a request for `key` begun after step `at` can be given is older. */
  predicate CleanRequest(s: State, key: Key, at: nat, r: nat)
    requires r in s.requests
  {
    var q := s.requests[r];
    q.key == key && at < q.begunAt ==>
      && (q.stage.Waiting? ==> NewerThan(s, q.stage.call, at))
      && (q.stage.Answered? && q.stage.answer.Reply? ==> NewerThan(s, q.stage.answer.from, at))
  }

  ghost predicate Clean(s: State, key: Key, at: nat) {
    && at < s.clock
    && (key in s.cache.inflight ==> NewerThan(s, s.cache.inflight[key], at))
    && (key in s.cache.entries ==> NewerThan(s, Source(s, key), at))
    && (forall r {:trigger CleanRequest(s, key, at, r)} :: r in s.requests ==> CleanRequest(s, key, at, r))
  }

  lemma InvalidationCleans(cfg: Config, s: State, e: Event, t: State, key: Key)
    requires Inv(cfg, s) && Next(cfg, s, e, t) && Covers(e, key)
    ensures Clean(t, key, s.clock)
  {
    assert key !in t.cache.inflight && key !in t.cache.entries;
    forall r | r in t.requests ensures CleanRequest(t, key, s.clock, r) {
      assert RequestOk(s, r);
    }
  }

  lemma CreateKeepsClean(s: State, r: nat, c: nat, key: Key, at: nat)
    requires Clean(s, key, at) && r in s.requests && c !in s.fetches
    ensures Clean(Created(s, r, c), key, at)
  {
    var t := Created(s, r, c);
    forall q | q in t.requests ensures CleanRequest(t, key, at, q) {
      assert CleanRequest(s, key, at, q);
    }
  }

  /** A request that moves is given only what the cache or the closed fetch holds. */
  lemma MovingKeepsClean(s: State, r: nat, q: Request, key: Key, at: nat)
    requires Clean(s, key, at)
    requires var t := s.(requests := s.requests[r := q], clock := s.clock + 1); CleanRequest(t, key, at, r)
    ensures Clean(s.(requests := s.requests[r := q], clock := s.clock + 1), key, at)
  {
    var t := s.(requests := s.requests[r := q], clock := s.clock + 1);
    forall j | j in t.requests ensures CleanRequest(t, key, at, j) {
      if j != r { assert CleanRequest(s, key, at, j); }
    }
  }

  lemma LockKeepsClean(cfg: Config, s: State, r: nat, now: int, c: nat, key: Key, at: nat)
    requires Enabled(cfg, s, Lock(r, now, c)) && Clean(s, key, at)
    ensures Clean(Step(cfg, s, Lock(r, now, c)), key, at)
  {
    if LookUp(s.cache, s.requests[r].key, now, cfg.maxAge).Create? {
      CreateKeepsClean(s, r, c, key, at);
    } else {
      MovingKeepsClean(s, r, Step(cfg, s, Lock(r, now, c)).requests[r], key, at);
    }
  }

  lemma CompleteKeepsClean(cfg: Config, s: State, c: nat, now: int, kept: map<Key, Entry>, key: Key, at: nat)
    requires Inv(cfg, s) && Enabled(cfg, s, CompleteFetch(c, now, kept)) && Clean(s, key, at)
    ensures Clean(Step(cfg, s, CompleteFetch(c, now, kept)), key, at)
  {
    assert FetchOk(s, c);
    var t := Step(cfg, s, CompleteFetch(c, now, kept));
    forall q | q in t.requests ensures CleanRequest(t, key, at, q) {
      assert CleanRequest(s, key, at, q);
    }
  }

  lemma InvalidatingKeepsClean(s: State, keys: set<Key>, key: Key, at: nat)
    requires Clean(s, key, at)
    ensures Clean(Invalidated(s, keys), key, at)
  {
    var t := Invalidated(s, keys);
    forall q | q in t.requests ensures CleanRequest(t, key, at, q) {
      assert CleanRequest(s, key, at, q);
    }
  }

  lemma ProgressKeepsClean(s: State, c: nat, f: Fetch, key: Key, at: nat)
    requires Clean(s, key, at) && c in s.fetches && f.createdAt == s.fetches[c].createdAt
    ensures Clean(s.(fetches := s.fetches[c := f], clock := s.clock + 1), key, at)
  {
    var t := s.(fetches := s.fetches[c := f], clock := s.clock + 1);
    forall j | j in t.requests ensures CleanRequest(t, key, at, j) {
      assert CleanRequest(s, key, at, j);
    }
  }

  lemma StepKeepsClean(cfg: Config, s: State, e: Event, key: Key, at: nat)
    requires Inv(cfg, s) && Enabled(cfg, s, e) && Clean(s, key, at)
    ensures Clean(Step(cfg, s, e), key, at)
  {
    match e
    case Begin(r, _) =>
      MovingKeepsClean(s, r, Step(cfg, s, e).requests[r], key, at);
    case FastGet(r, _) =>
      assert CleanRequest(s, key, at, r);
      MovingKeepsClean(s, r, Step(cfg, s, e).requests[r], key, at);
    case Lock(r, now, c) =>
      LockKeepsClean(cfg, s, r, now, c, key, at);
    case FetchStart(c) =>
      ProgressKeepsClean(s, c, Step(cfg, s, e).fetches[c], key, at);
    case FetchReturn(c, _, _) =>
      ProgressKeepsClean(s, c, Step(cfg, s, e).fetches[c], key, at);
    case CompleteFetch(c, now, kept) =>
      CompleteKeepsClean(cfg, s, c, now, kept, key, at);
    case CloseDone(c) =>
      ProgressKeepsClean(s, c, Step(cfg, s, e).fetches[c], key, at);
    case Observe(r, _) =>
      assert CleanRequest(s, key, at, r);
      MovingKeepsClean(s, r, Step(cfg, s, e).requests[r], key, at);
    case GiveUp(r) =>
      assert CleanRequest(s, key, at, r);
      MovingKeepsClean(s, r, Step(cfg, s, e).requests[r], key, at);
    case InvalidateMatching(covers) =>
      InvalidatingKeepsClean(s, Seen(s.cache, covers), key, at);
    case InvalidateKey(k) =>
      InvalidatingKeepsClean(s, {k}, key, at);
  }

  ghost function CleanAt(cfg: Config, key: Key, at: nat): (nat, State) -> bool {
    (i, s) => Inv(cfg, s) && Clean(s, key, at)
  }

  lemma NextKeepsClean(cfg: Config, key: Key, at: nat)
    ensures Inductive(Steps(cfg), CleanAt(cfg, key, at))
  {
    forall i: nat, s, e, t | CleanAt(cfg, key, at)(i, s) && Steps(cfg)(s, e, t)
      ensures CleanAt(cfg, key, at)(i + 1, t)
    {
      StepKeepsInv(cfg, s, e);
      StepKeepsClean(cfg, s, e, key, at);
    }
  }

  lemma CleanIsKept(cfg: Config, states: seq<State>, events: seq<Event>, i: nat, m: nat, key: Key, at: nat)
    requires Path(Steps(cfg), states, events) && i <= m < |states|
    requires Inv(cfg, states[i]) && Clean(states[i], key, at)
    ensures Inv(cfg, states[m]) && Clean(states[m], key, at)
  {
    var clean := CleanAt(cfg, key, at);
    assert clean(i, states[i]);
    NextKeepsClean(cfg, key, at);
    Kept(Steps(cfg), clean, states, events, i, m);
    assert clean(m, states[m]);
  }

  lemma CleanAfterStep(cfg: Config, states: seq<State>, events: seq<Event>, i: nat, key: Key)
    requires Run(cfg, states, events) && i < |events| && Covers(events[i], key)
    ensures Inv(cfg, states[i + 1]) && Clean(states[i + 1], key, i)
  {
    RunKeepsInv(cfg, states, events, i);
    assert Steps(cfg)(states[i], events[i], states[i + 1]);
    StepKeepsInv(cfg, states[i], events[i]);
    InvalidationCleans(cfg, states[i], events[i], states[i + 1], key);
  }

  lemma StaysClean(cfg: Config, states: seq<State>, events: seq<Event>, i: nat, m: nat, key: Key)
    requires Run(cfg, states, events) && i < m < |states| && Covers(events[i], key)
    ensures Clean(states[m], key, i)
  {
    CleanAfterStep(cfg, states, events, i, key);
    CleanIsKept(cfg, states, events, i + 1, m, key, i);
  }

  /** The recorded start of a fetch is the step that started it. */
  ghost predicate Stamped(events: seq<Event>, i: nat, s: State) {
    forall c :: c in s.fetches && s.fetches[c].phase != Spawned ==>
                  s.fetches[c].startedAt < i <= |events| && events[s.fetches[c].startedAt] == FetchStart(c)
  }

  lemma StampOf(cfg: Config, s: State, e: Event, t: State, c: nat)
    requires Next(cfg, s, e, t) && c in t.fetches && t.fetches[c].phase != Spawned
    ensures if e == FetchStart(c) then t.fetches[c].startedAt == s.clock
            else c in s.fetches && s.fetches[c].phase != Spawned && t.fetches[c].startedAt == s.fetches[c].startedAt
  {
  }

  lemma StampStep(cfg: Config, events: seq<Event>, s: State, e: Event, t: State)
    requires Next(cfg, s, e, t) && s.clock < |events| && events[s.clock] == e && Stamped(events, s.clock, s)
    ensures Stamped(events, s.clock + 1, t)
  {
    forall c | c in t.fetches && t.fetches[c].phase != Spawned
      ensures t.fetches[c].startedAt <= s.clock && events[t.fetches[c].startedAt] == FetchStart(c)
    {
      StampOf(cfg, s, e, t, c);
    }
  }

  lemma {:induction false} StampsAreTrue(cfg: Config, states: seq<State>, events: seq<Event>, m: nat)
    requires Run(cfg, states, events) && m < |states|
    ensures Stamped(events, m, states[m])
  {
    if m > 0 {
      StampsAreTrue(cfg, states, events, m - 1);
      RunKeepsInv(cfg, states, events, m - 1);
      StampStep(cfg, events, states[m - 1], events[m - 1], states[m]);
    }
  }

  ghost function Holds(r: nat, key: Key, begunAt: nat, generation: nat): (nat, State) -> bool {
    (i: nat, s: State) => && r in s.requests && s.requests[r].key == key && s.requests[r].begunAt == begunAt
              && s.requests[r].generationAtBegin == generation
  }

  lemma RequestStep(cfg: Config, s: State, e: Event, t: State, r: nat)
    requires Next(cfg, s, e, t) && r in s.requests
    ensures r in t.requests
    ensures t.requests[r].key == s.requests[r].key && t.requests[r].begunAt == s.requests[r].begunAt
    ensures t.requests[r].generationAtBegin == s.requests[r].generationAtBegin
  {
  }

  lemma NextKeepsHolds(cfg: Config, r: nat, key: Key, begunAt: nat, generation: nat)
    ensures Inductive(Steps(cfg), Holds(r, key, begunAt, generation))
  {
    var holds := Holds(r, key, begunAt, generation);
    forall i: nat, s, e, t | holds(i, s) && Steps(cfg)(s, e, t) ensures holds(i + 1, t) {
      RequestStep(cfg, s, e, t, r);
    }
  }

  lemma BeginIsRecorded(cfg: Config, states: seq<State>, events: seq<Event>, j: nat, m: nat)
    requires Run(cfg, states, events) && j < m < |states| && events[j].Begin?
    ensures events[j].request in states[m].requests
    ensures var q := states[m].requests[events[j].request];
            q.key == events[j].key && q.begunAt == j
            && q.generationAtBegin == Generation(states[j].cache.generation, events[j].key)
  {
    RunKeepsInv(cfg, states, events, j);
    var generation := Generation(states[j].cache.generation, events[j].key);
    var holds := Holds(events[j].request, events[j].key, j, generation);
    assert Next(cfg, states[j], events[j], states[j + 1]);
    NextKeepsHolds(cfg, events[j].request, events[j].key, j, generation);
    Kept(Steps(cfg), holds, states, events, j + 1, m);
  }

  /** If request r has been given bytes for `key`, a fetch of `key` returned them that
      began after step i and before state m. */
  ghost predicate AnsweredSince(events: seq<Event>, s: State, r: nat, key: Key, i: nat, m: nat)
    requires m <= |events|
  {
    && r in s.requests
    && match s.requests[r].stage
       case Answered(Reply(val, failed, c)) =>
         && c in s.fetches
         && var f := s.fetches[c];
         && f.key == key && f.val == val && f.failed == failed
         && i < f.startedAt < m && events[f.startedAt] == FetchStart(c)
       case _ => true
  }

  /**
   Freshness.  Step i invalidates `key`; step j > i begins a request for it.  Whatever
   bytes that request has been given by the time of any later state were returned by a
   fetch of the same key that began after step i, in whatever way it got them.
   */
  lemma FreshAfterInvalidation(cfg: Config, states: seq<State>, events: seq<Event>, i: nat, j: nat, m: nat)
    requires Run(cfg, states, events) && i < j < m < |states|
    requires events[j].Begin? && Covers(events[i], events[j].key)
    ensures AnsweredSince(events, states[m], events[j].request, events[j].key, i, m)
  {
    BeginIsRecorded(cfg, states, events, j, m);
    RunKeepsInv(cfg, states, events, m);
    StaysClean(cfg, states, events, i, m, events[j].key);
    var r := events[j].request;
    assert CleanRequest(states[m], events[j].key, i, r) && RequestOk(states[m], r);
    match states[m].requests[r].stage
    case Answered(Reply(_, _, c)) =>
      assert FetchOk(states[m], c);
      StampsAreTrue(cfg, states, events, m);
    case _ =>
  }

  // -------------------------------------------------------------------- retries

  function Bump(s: State, e: Event, key: Key): nat {
    match e
    case InvalidateMatching(covers) => if key in Seen(s.cache, covers) then 1 else 0
    case InvalidateKey(k) => if k == key then 1 else 0
    case _ => 0
  }

  function BumpsOf(key: Key): (State, Event) -> nat {
    (s, e) => Bump(s, e, key)
  }

  function GenerationOf(key: Key): State -> int {
    (s: State) => Generation(s.cache.generation, key)
  }

  lemma InvalidatingBumps(cache: Cache<nat>, keys: set<Key>, key: Key)
    ensures Generation(InvalidateKeys(cache, keys).generation, key) ==
            Generation(cache.generation, key) + if key in keys then 1 else 0
  {
  }

  lemma LockingBumpsNothing(cfg: Config, s: State, r: nat, now: int, c: nat)
    requires r in s.requests
    ensures LockStep(cfg, s, r, now, c).cache.generation == s.cache.generation
  {
  }

  lemma CompletingBumpsNothing(s: State, c: nat, kept: map<Key, Entry>)
    requires c in s.fetches
    ensures CompleteStep(s, c, kept).cache.generation == s.cache.generation
  {
  }

  lemma BumpStep(cfg: Config, s: State, e: Event, t: State, key: Key)
    requires Next(cfg, s, e, t)
    ensures Generation(t.cache.generation, key) == Generation(s.cache.generation, key) + Bump(s, e, key)
  {
    match e
    case Lock(r, now, c) => LockingBumpsNothing(cfg, s, r, now, c);
    case CompleteFetch(c, _, kept) => CompletingBumpsNothing(s, c, kept);
    case InvalidateMatching(covers) => InvalidatingBumps(s.cache, Seen(s.cache, covers), key);
    case InvalidateKey(k) => InvalidatingBumps(s.cache, {k}, key);
    case Observe(r, contextDone) =>
      assert ObserveStep(s, r, s.requests[r].stage.call, contextDone).cache == s.cache;
    case _ => assert t.cache == s.cache;
  }

  /** The generation of a key counts the steps that bumped it. */
  lemma GenerationCountsBumps(cfg: Config, states: seq<State>, events: seq<Event>, key: Key, j: nat, m: nat)
    requires Run(cfg, states, events) && j <= m < |states|
    ensures Generation(states[m].cache.generation, key) ==
            Generation(states[j].cache.generation, key) + Total(BumpsOf(key), states, events, j, m)
  {
    forall s, e, t | Steps(cfg)(s, e, t) ensures GenerationOf(key)(t) == GenerationOf(key)(s) + BumpsOf(key)(s, e) {
      BumpStep(cfg, s, e, t, key);
    }
    Measured(Steps(cfg), GenerationOf(key), BumpsOf(key), states, events, j, m);
  }

  /** A request retries at most once for each bump of its key's generation since it began. */
  lemma RetriesAreBounded(cfg: Config, states: seq<State>, events: seq<Event>, j: nat, m: nat)
    requires Run(cfg, states, events) && j < m < |states| && events[j].Begin?
    ensures events[j].request in states[m].requests
    ensures states[m].requests[events[j].request].retries <= Total(BumpsOf(events[j].key), states, events, j, m)
  {
    BeginIsRecorded(cfg, states, events, j, m);
    RunKeepsInv(cfg, states, events, m);
    GenerationCountsBumps(cfg, states, events, events[j].key, j, m);
    assert RequestOk(states[m], events[j].request);
  }
}
