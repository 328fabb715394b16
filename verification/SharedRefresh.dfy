/**
 The shared pending-items cache of internal/hosted/shared_cache.go: one background
 refresh at a time, joined by readers, and a stop that waits for it.
 */
module SharedRefreshSpec {
  import opened Wrappers
  import PendingSpec

  type Items = map<PendingSpec.Id, seq<PendingSpec.State>>

  /** The fields under the mutex; `R` stands for a pointer to a refresh. */
  datatype Core<R> = Core(cached: Option<Items>, refreshedAt: int, inflight: Option<R>, stopped: bool, wg: int)

  datatype Started<R> = Immediate | Joined(refresh: R) | Spawned

  /** What startRefresh does: without a provider, or once stopped, it answers with what is cached. */
  function Start<R>(c: Core<R>, hasProvider: bool): Started<R> {
    if !hasProvider then Immediate
    else if c.inflight.Some? then Joined(c.inflight.value)
    else if c.stopped then Immediate
    else Spawned
  }

  function AfterStart<R>(c: Core<R>, hasProvider: bool, refresh: R): Core<R> {
    if Start(c, hasProvider).Spawned? then c.(inflight := Some(refresh), wg := c.wg + 1) else c
  }

  function AfterPublish<R>(c: Core<R>, items: Items, now: int): Core<R> {
    c.(cached := Some(items), refreshedAt := now)
  }

  function AfterClear<R(==)>(c: Core<R>, refresh: R): Core<R> {
    if c.inflight == Some(refresh) then c.(inflight := None) else c
  }

  predicate OldEnough<R>(c: Core<R>, now: int, interval: int) {
    now - c.refreshedAt >= interval
  }

  /** Get refreshes in the background, and only what is already there. */
  predicate GetRefreshes<R>(c: Core<R>, hasProvider: bool, now: int, interval: int) {
    hasProvider && c.cached.Some? && OldEnough(c, now, interval) && c.inflight.None?
  }

  /** GetContext waits for a refresh when there is nothing fresh to return. */
  predicate GetContextRefreshes<R>(c: Core<R>, hasProvider: bool, now: int, interval: int) {
    hasProvider && (c.cached.None? || OldEnough(c, now, interval))
  }
}

module SharedRefreshImpl {
  import opened Wrappers
  import opened SharedRefreshSpec

  class Refresh {
    var done: bool
    var items: Option<Items>
    var failed: bool

    constructor (done: bool, items: Option<Items>)
      ensures this.done == done && this.items == items && !failed
    {
      this.done, this.items, failed := done, items, false;
    }
  }

  datatype Waited = Answered(items: Option<Items>) | Failed | ContextDone

  /** The end of refreshSync: whichever of the refresh and the context is done. */
  method Await(refresh: Refresh, contextDone: bool) returns (w: Waited)
    requires refresh.done || contextDone
    ensures w == ContextDone ==> contextDone
    ensures w != ContextDone ==> refresh.done && w == if refresh.failed then Failed else Answered(refresh.items)
  {
    var contextFirst: bool := *;
    if refresh.done && (!contextDone || !contextFirst) {
      return if refresh.failed then Failed else Answered(refresh.items);
    }
    return ContextDone;
  }

  class PendingUpstreamCache {
    const hasProvider: bool
    const interval: int
    var cached: Option<Items>
    var refreshedAt: int
    var inflight: Refresh?
    var stopped: bool
    var wg: int

    function Value(): Core<Refresh>
      reads this
    {
      var running: Option<Refresh> := if inflight == null then None else Some(inflight);
      Core(cached, refreshedAt, running, stopped, wg)
    }

    constructor (hasProvider: bool, interval: int)
      ensures this.hasProvider == hasProvider && this.interval == interval
      ensures Value() == Core(None, 0, None, false, 0)
    {
      this.hasProvider, this.interval := hasProvider, interval;
      cached, refreshedAt, inflight, stopped, wg := None, 0, null, false, 0;
    }

    /** Under the lock; `spawned` says that a goroutine now runs the refresh. */
    method StartRefresh() returns (refresh: Refresh, spawned: bool)
      modifies this
      ensures Value() == AfterStart(old(Value()), hasProvider, refresh)
      ensures spawned == Start(old(Value()), hasProvider).Spawned?
      ensures match Start(old(Value()), hasProvider)
              case Immediate => fresh(refresh) && refresh.done && refresh.items == cached && !refresh.failed
              case Joined(r) => refresh == r
              case Spawned => fresh(refresh) && !refresh.done
    {
      if !hasProvider {
        refresh := new Refresh(true, cached);
        return refresh, false;
      }
      if inflight != null {
        return inflight, false;
      }
      if stopped {
        refresh := new Refresh(true, cached);
        return refresh, false;
      }
      refresh := new Refresh(false, None);
      inflight := refresh;
      wg := wg + 1;
      return refresh, true;
    }

    method Get(now: int) returns (items: Option<Items>, spawned: bool)
      modifies this
      ensures items == old(cached) && cached == old(cached)
      ensures spawned == (GetRefreshes(old(Value()), hasProvider, now, interval) && !stopped)
      ensures if spawned then wg == old(wg) + 1 && inflight != null && fresh(inflight) else Value() == old(Value())
    {
      items, spawned := cached, false;
      var stale := hasProvider && cached.Some? && now - refreshedAt >= interval;
      var refreshing := inflight != null;
      if stale && !refreshing {
        var refresh;
        refresh, spawned := StartRefresh();
      }
    }

    /** Either an answer at once or the refresh to wait for. */
    method GetContext(now: int) returns (items: Option<Items>, wait: Refresh?)
      modifies this
      ensures wait == null <==> !GetContextRefreshes(old(Value()), hasProvider, now, interval)
      ensures wait == null ==> items == cached && Value() == old(Value())
      ensures wait != null ==> Value() == AfterStart(old(Value()), hasProvider, wait)
      ensures wait != null && old(Value().inflight).Some? ==> wait == old(Value().inflight).value
    {
      items, wait := cached, null;
      if hasProvider && (cached.None? || now - refreshedAt >= interval) {
        var spawned;
        wait, spawned := StartRefresh();
      }
    }

    method Publish(items: Items, now: int)
      modifies this`cached, this`refreshedAt
      ensures Value() == AfterPublish(old(Value()), items, now)
    {
      cached, refreshedAt := Some(items), now;
    }

    /** The end of a run: forget the refresh, then set its result, then release its waiters. */
    method Clear(refresh: Refresh)
      modifies this`inflight
      ensures Value() == AfterClear(old(Value()), refresh)
    {
      if inflight == refresh {
        inflight := null;
      }
    }

    /** Closing a channel twice would panic. */
    method Finish(refresh: Refresh, items: Option<Items>, failed: bool)
      requires !refresh.done
      modifies refresh
      ensures refresh.done && refresh.items == items && refresh.failed == failed
    {
      refresh.items, refresh.failed := items, failed;
      refresh.done := true;
    }

    /** A refresh whose fetch has returned: publish, forget, release, in this order. */
    method RunRefresh(refresh: Refresh, fetched: Option<Items>, now: int)
      requires !refresh.done
      modifies this, refresh
      ensures var kept := if fetched.Some? then AfterPublish(old(Value()), fetched.value, now) else old(Value());
              Value() == AfterClear(kept, refresh).(wg := old(wg) - 1)
      ensures refresh.done && refresh.items == fetched && refresh.failed == fetched.None?
    {
      if fetched.Some? {
        Publish(fetched.value, now);
      }
      Clear(refresh);
      Finish(refresh, fetched, fetched.None?);
      wg := wg - 1;
    }

    method CloseStop()
      modifies this`stopped
      ensures Value() == old(Value()).(stopped := true)
    {
      stopped := true;
    }
  }
}

/** Readers, refresh goroutines and Stop interleaved, one locked block or channel
    operation a step. */
module SharedRefreshProtocol {
  import opened Wrappers
  import opened SharedRefreshSpec
  import opened Runs

  /** A refresh's goroutine, in program order. A refresh answered at once has none. */
  datatype Phase = Queued | Fetching | Fetched | Published | Cleared | ResultSet | Closed | Gone

  datatype Refresh = Refresh(
    phase: Phase, outcome: Option<Items>, failed: bool, startedAt: nat,
    items: Option<Items>, err: bool, closes: nat)

  datatype State = State(
    core: Core<nat>,
    refreshes: map<nat, Refresh>,
    running: set<nat>,      // goroutines that have not yet called wg.Done
    published: seq<nat>,    // refreshes in the order they replaced the snapshot
    stopReturned: bool,
    clock: nat)

  datatype Event =
    | StartRefresh(id: nat)
    | FetchBegin(r: nat)
    | FetchReturn(r: nat, items: Items, failed: bool)
    | Publish(r: nat, now: int)
    | Clear(r: nat)
    | SetResult(r: nat)
    | CloseDone(r: nat)
    | WgDone(r: nat)
    | StopClose
    | StopReturn

  function Init(): State {
    State(Core(None, 0, None, false, 0), map[], {}, [], false, 0)
  }

  predicate In(s: State, r: nat, p: Phase) {
    r in s.refreshes && s.refreshes[r].phase == p
  }

  predicate Enabled(s: State, e: Event) {
    match e
    case StartRefresh(id) => id !in s.refreshes
    case FetchBegin(r) => In(s, r, Queued)
    case FetchReturn(r, _, _) => In(s, r, Fetching)
    case Publish(r, _) => In(s, r, Fetched) && !s.refreshes[r].failed
    case Clear(r) => In(s, r, Published) || (In(s, r, Fetched) && s.refreshes[r].failed)
    case SetResult(r) => In(s, r, Cleared)
    case CloseDone(r) => In(s, r, ResultSet)
    case WgDone(r) => In(s, r, Closed) && r in s.running
    case StopClose => true
    case StopReturn => s.core.stopped && s.core.wg == 0
  }

  function With(s: State, r: nat, x: Refresh): State {
    s.(refreshes := s.refreshes[r := x])
  }

  function StartStep(hasProvider: bool, s: State, id: nat): State {
    var core := AfterStart(s.core, hasProvider, id);
    match Start(s.core, hasProvider)
    case Joined(_) => s
    case Immediate => With(s, id, Refresh(Closed, s.core.cached, false, s.clock, s.core.cached, false, 1))
    case Spawned =>
      With(s, id, Refresh(Queued, None, false, s.clock, None, false, 0)).(core := core, running := s.running + {id})
  }

  function Apply(hasProvider: bool, s: State, e: Event): State
    requires Enabled(s, e)
  {
    match e
    case StartRefresh(id) => StartStep(hasProvider, s, id)
    case FetchBegin(r) => With(s, r, s.refreshes[r].(phase := Fetching, startedAt := s.clock))
    case FetchReturn(r, items, failed) =>
      With(s, r, s.refreshes[r].(phase := Fetched, failed := failed, outcome := if failed then None else Some(items)))
    case Publish(r, now) =>
      With(s, r, s.refreshes[r].(phase := Published)).(
        core := AfterPublish(s.core, s.refreshes[r].outcome.GetOr(map[]), now), published := s.published + [r])
    case Clear(r) => With(s, r, s.refreshes[r].(phase := Cleared)).(core := AfterClear(s.core, r))
    case SetResult(r) =>
      With(s, r, s.refreshes[r].(phase := ResultSet, items := s.refreshes[r].outcome, err := s.refreshes[r].failed))
    case CloseDone(r) => With(s, r, s.refreshes[r].(phase := Closed, closes := s.refreshes[r].closes + 1))
    case WgDone(r) =>
      With(s, r, s.refreshes[r].(phase := Gone)).(core := s.core.(wg := s.core.wg - 1), running := s.running - {r})
    case StopClose => s.(core := s.core.(stopped := true))
    case StopReturn => s.(stopReturned := true)
  }

  predicate Next(hasProvider: bool, s: State, e: Event, t: State) {
    Enabled(s, e) && t == Apply(hasProvider, s, e).(clock := s.clock + 1)
  }

  function Steps(hasProvider: bool): (State, Event, State) -> bool {
    (s: State, e: Event, t: State) => Next(hasProvider, s, e, t)
  }

  ghost predicate Run(hasProvider: bool, states: seq<State>, events: seq<Event>) {
    Path(Steps(hasProvider), states, events) && states[0] == Init()
  }

  // ---------------------------------------------------------------- invariant

  predicate BeforeClear(p: Phase) {
    p == Queued || p == Fetching || p == Fetched || p == Published
  }

  /** A successful refresh in one of these phases has replaced the snapshot. */
  predicate PastPublish(p: Phase) { p == Published || p == Cleared || p == ResultSet || p == Gone }

  predicate DoneClosed(p: Phase) { p == Closed || p == Gone }

  predicate HasResult(p: Phase) { p == ResultSet || DoneClosed(p) }

  predicate RefreshOk(s: State, r: nat)
    requires r in s.refreshes
  {
    var x := s.refreshes[r];
    && x.startedAt < s.clock
    && (BeforeClear(x.phase) ==> s.core.inflight == Some(r))
    && (r in s.running ==> x.phase != Gone)
    && (!DoneClosed(x.phase) ==> r in s.running)
    && x.closes == (if DoneClosed(x.phase) then 1 else 0)
    && (HasResult(x.phase) ==> x.items == x.outcome && x.err == x.failed)
    && (PastPublish(x.phase) || (x.phase == Closed && r in s.running) ==> x.failed || r in s.published)
    && (x.phase == Published ==> !x.failed)
    && (x.phase == Fetched && !x.failed ==> x.outcome.Some?)
  }

  predicate InflightOk(s: State) {
    s.core.inflight.Some? ==>
      s.core.inflight.value in s.refreshes && BeforeClear(s.refreshes[s.core.inflight.value].phase)
  }

  /** The i-th published refresh: its fetch started before any later one's, and before
      that of the refresh still in flight. */
  predicate PublishedOk(s: State, i: nat)
    requires i < |s.published|
  {
    var r := s.published[i];
    && r in s.refreshes && s.refreshes[r].outcome.Some? && s.refreshes[r].phase != Queued
    && s.refreshes[r].phase != Fetching && s.refreshes[r].phase != Fetched
    && (i + 1 < |s.published| ==>
          && s.published[i + 1] in s.refreshes
          && s.refreshes[r].startedAt < s.refreshes[s.published[i + 1]].startedAt)
    && (s.core.inflight.Some? && s.core.inflight.value in s.refreshes && s.core.inflight.value != r ==>
          s.refreshes[r].startedAt < s.refreshes[s.core.inflight.value].startedAt)
  }

  predicate SnapshotOk(s: State) {
    if s.published == [] then s.core.cached == None
    else
      var last := s.published[|s.published| - 1];
      last in s.refreshes && s.core.cached == s.refreshes[last].outcome
  }

  ghost predicate RefreshesOk(s: State) {
    forall r {:trigger RefreshOk(s, r)} :: r in s.refreshes ==> RefreshOk(s, r)
  }

  ghost predicate OrderOk(s: State) {
    forall i: nat {:trigger PublishedOk(s, i)} :: i < |s.published| ==> PublishedOk(s, i)
  }

  ghost predicate Inv(s: State) {
    && RefreshesOk(s) && OrderOk(s)
    && (forall r :: r in s.running ==> r in s.refreshes)
    && InflightOk(s) && SnapshotOk(s)
    && s.core.wg == |s.running|
    && (s.stopReturned ==> s.core.stopped && s.running == {})
  }

  lemma FetchKeepsRefreshes(hasProvider: bool, s: State, e: Event, t: State)
    requires Inv(s) && Next(hasProvider, s, e, t) && (e.FetchBegin? || e.FetchReturn?)
    ensures RefreshesOk(t)
  {
    forall r | r in t.refreshes ensures RefreshOk(t, r) {
      if r in s.refreshes { assert RefreshOk(s, r); }
    }
  }

  lemma FetchKeepsOrder(hasProvider: bool, s: State, e: Event, t: State)
    requires Inv(s) && Next(hasProvider, s, e, t) && (e.FetchBegin? || e.FetchReturn?)
    ensures OrderOk(t) && SnapshotOk(t)
  {
    forall i: nat | i < |t.published| ensures PublishedOk(t, i) {
      assert PublishedOk(s, i);
      assert RefreshOk(s, s.published[i]);
      if i + 1 < |s.published| { assert PublishedOk(s, i + 1); }
    }
    if s.published != [] { assert PublishedOk(s, |s.published| - 1); }
  }

  lemma ResultKeepsRefreshes(hasProvider: bool, s: State, e: Event, t: State)
    requires Inv(s) && Next(hasProvider, s, e, t) && (e.SetResult? || e.CloseDone?)
    ensures RefreshesOk(t)
  {
    forall r | r in t.refreshes ensures RefreshOk(t, r) {
      if r in s.refreshes { assert RefreshOk(s, r); }
    }
  }

  lemma ResultKeepsOrder(hasProvider: bool, s: State, e: Event, t: State)
    requires Inv(s) && Next(hasProvider, s, e, t) && (e.SetResult? || e.CloseDone?)
    ensures OrderOk(t) && SnapshotOk(t)
  {
    forall i: nat | i < |t.published| ensures PublishedOk(t, i) {
      assert PublishedOk(s, i);
      if i + 1 < |s.published| { assert PublishedOk(s, i + 1); }
    }
    if s.published != [] { assert PublishedOk(s, |s.published| - 1); }
  }

  lemma StartKeepsRefreshes(hasProvider: bool, s: State, e: Event, t: State)
    requires Inv(s) && Next(hasProvider, s, e, t) && (e.StartRefresh?)
    ensures RefreshesOk(t)
  {
    forall r | r in t.refreshes ensures RefreshOk(t, r) {
      if r in s.refreshes { assert RefreshOk(s, r); }
    }
  }

  lemma StartKeepsOrder(hasProvider: bool, s: State, e: Event, t: State)
    requires Inv(s) && Next(hasProvider, s, e, t) && (e.StartRefresh?)
    ensures OrderOk(t) && SnapshotOk(t)
  {
    forall i: nat | i < |t.published| ensures PublishedOk(t, i) {
      assert PublishedOk(s, i);
      assert RefreshOk(s, s.published[i]);
      if i + 1 < |s.published| { assert PublishedOk(s, i + 1); }
    }
    if s.published != [] { assert PublishedOk(s, |s.published| - 1); }
  }

  lemma QuietKeepsInv(hasProvider: bool, s: State, e: Event, t: State)
    requires Inv(s) && Next(hasProvider, s, e, t)
    requires e.FetchBegin? || e.FetchReturn? || e.SetResult? || e.CloseDone? || e.StartRefresh?
    requires RefreshesOk(t) && OrderOk(t) && SnapshotOk(t)
    ensures Inv(t)
  {
    if e.StartRefresh? {
      assert e.id !in s.running;
    } else {
      assert RefreshOk(s, e.r);
    }
  }

  lemma PublishKeepsInv(hasProvider: bool, s: State, e: Event, t: State)
    requires Inv(s) && Next(hasProvider, s, e, t) && e.Publish?
    ensures Inv(t)
  {
    assert RefreshOk(s, e.r);
    forall r | r in t.refreshes ensures RefreshOk(t, r) { assert RefreshOk(s, r); }
    forall i: nat | i < |t.published| ensures PublishedOk(t, i) {
      if i < |s.published| {
        assert PublishedOk(s, i);
        if i + 1 < |s.published| { assert PublishedOk(s, i + 1); }
      }
    }
  }

  lemma ClearKeepsRefreshes(hasProvider: bool, s: State, e: Event, t: State)
    requires Inv(s) && Next(hasProvider, s, e, t) && e.Clear?
    ensures RefreshesOk(t)
  {
    assert RefreshOk(s, e.r);
    forall r | r in t.refreshes ensures RefreshOk(t, r) { assert RefreshOk(s, r); }
  }

  lemma ClearKeepsOrder(hasProvider: bool, s: State, e: Event, t: State)
    requires Inv(s) && Next(hasProvider, s, e, t) && e.Clear?
    ensures OrderOk(t) && SnapshotOk(t)
  {
    forall i: nat | i < |t.published| ensures PublishedOk(t, i) {
      assert PublishedOk(s, i);
      if i + 1 < |s.published| { assert PublishedOk(s, i + 1); }
    }
    if s.published != [] { assert PublishedOk(s, |s.published| - 1); }
  }

  lemma ClearKeepsInv(hasProvider: bool, s: State, e: Event, t: State)
    requires Inv(s) && Next(hasProvider, s, e, t) && e.Clear?
    ensures Inv(t)
  {
    assert RefreshOk(s, e.r);
    ClearKeepsRefreshes(hasProvider, s, e, t);
    ClearKeepsOrder(hasProvider, s, e, t);
  }

  lemma WgDoneKeepsRefreshes(hasProvider: bool, s: State, e: Event, t: State)
    requires Inv(s) && Next(hasProvider, s, e, t) && e.WgDone?
    ensures RefreshesOk(t)
  {
    assert RefreshOk(s, e.r);
    forall r | r in t.refreshes ensures RefreshOk(t, r) { assert RefreshOk(s, r); }
  }

  lemma WgDoneKeepsOrder(hasProvider: bool, s: State, e: Event, t: State)
    requires Inv(s) && Next(hasProvider, s, e, t) && e.WgDone?
    ensures OrderOk(t) && SnapshotOk(t)
  {
    forall i: nat | i < |t.published| ensures PublishedOk(t, i) {
      assert PublishedOk(s, i);
      if i + 1 < |s.published| { assert PublishedOk(s, i + 1); }
    }
    if s.published != [] { assert PublishedOk(s, |s.published| - 1); }
  }

  lemma WgDoneKeepsInv(hasProvider: bool, s: State, e: Event, t: State)
    requires Inv(s) && Next(hasProvider, s, e, t) && e.WgDone?
    ensures Inv(t)
  {
    assert RefreshOk(s, e.r);
    WgDoneKeepsRefreshes(hasProvider, s, e, t);
    WgDoneKeepsOrder(hasProvider, s, e, t);
  }

  lemma StopKeepsInv(hasProvider: bool, s: State, e: Event, t: State)
    requires Inv(s) && Next(hasProvider, s, e, t) && (e.StopClose? || e.StopReturn?)
    ensures Inv(t)
  {
    forall r | r in t.refreshes ensures RefreshOk(t, r) { assert RefreshOk(s, r); }
    forall i: nat | i < |t.published| ensures PublishedOk(t, i) { assert PublishedOk(s, i); }
  }

  lemma StepKeepsInv(hasProvider: bool, s: State, e: Event, t: State)
    requires Inv(s) && Next(hasProvider, s, e, t)
    ensures Inv(t)
  {
    match e
    case StartRefresh(_) =>
      StartKeepsRefreshes(hasProvider, s, e, t);
      StartKeepsOrder(hasProvider, s, e, t);
      QuietKeepsInv(hasProvider, s, e, t);
    case FetchBegin(_) =>
      FetchKeepsRefreshes(hasProvider, s, e, t);
      FetchKeepsOrder(hasProvider, s, e, t);
      QuietKeepsInv(hasProvider, s, e, t);
    case FetchReturn(_, _, _) =>
      FetchKeepsRefreshes(hasProvider, s, e, t);
      FetchKeepsOrder(hasProvider, s, e, t);
      QuietKeepsInv(hasProvider, s, e, t);
    case SetResult(_) =>
      ResultKeepsRefreshes(hasProvider, s, e, t);
      ResultKeepsOrder(hasProvider, s, e, t);
      QuietKeepsInv(hasProvider, s, e, t);
    case CloseDone(_) =>
      ResultKeepsRefreshes(hasProvider, s, e, t);
      ResultKeepsOrder(hasProvider, s, e, t);
      QuietKeepsInv(hasProvider, s, e, t);
    case Publish(_, _) => PublishKeepsInv(hasProvider, s, e, t);
    case Clear(_) => ClearKeepsInv(hasProvider, s, e, t);
    case WgDone(_) => WgDoneKeepsInv(hasProvider, s, e, t);
    case _ => StopKeepsInv(hasProvider, s, e, t);
  }

  ghost function InvAt(): (nat, State) -> bool {
    (i: nat, s: State) => Inv(s)
  }

  lemma RunKeepsInv(hasProvider: bool, states: seq<State>, events: seq<Event>, m: nat)
    requires Run(hasProvider, states, events) && m < |states|
    ensures Inv(states[m])
  {
    forall i: nat, s, e, t | InvAt()(i, s) && Steps(hasProvider)(s, e, t) ensures InvAt()(i + 1, t) {
      StepKeepsInv(hasProvider, s, e, t);
    }
    Kept(Steps(hasProvider), InvAt(), states, events, 0, m);
  }

  // ---------------------------------------------------------------- theorems

  /** At most one upstream fetch runs at a time, and it is the one readers join. */
  lemma OneFetchAtATime(hasProvider: bool, states: seq<State>, events: seq<Event>, m: nat, a: nat, b: nat)
    requires Run(hasProvider, states, events) && m < |states|
    requires In(states[m], a, Fetching) && In(states[m], b, Fetching)
    ensures a == b && states[m].core.inflight == Some(a)
  {
    RunKeepsInv(hasProvider, states, events, m);
    assert RefreshOk(states[m], a) && RefreshOk(states[m], b);
  }

  lemma {:induction false} PublishedInOrder(s: State, i: nat, j: nat)
    requires Inv(s) && i < j < |s.published|
    ensures s.published[i] in s.refreshes && s.published[j] in s.refreshes
    ensures s.refreshes[s.published[i]].startedAt < s.refreshes[s.published[j]].startedAt
    decreases j - i
  {
    assert PublishedOk(s, i);
    if i + 1 < j {
      PublishedInOrder(s, i + 1, j);
    } else {
      assert PublishedOk(s, j);
    }
  }

  /** Snapshots replace one another in the order their fetches started, each once, and
      readers see the last one. */
  lemma SnapshotsAreOrdered(hasProvider: bool, states: seq<State>, events: seq<Event>, m: nat, i: nat, j: nat)
    requires Run(hasProvider, states, events) && m < |states| && i < j < |states[m].published|
    ensures var s := states[m];
            && s.published[i] in s.refreshes && s.published[j] in s.refreshes && s.published[i] != s.published[j]
            && s.refreshes[s.published[i]].startedAt < s.refreshes[s.published[j]].startedAt
            && s.published[|s.published| - 1] in s.refreshes
            && s.core.cached == s.refreshes[s.published[|s.published| - 1]].outcome
  {
    RunKeepsInv(hasProvider, states, events, m);
    PublishedInOrder(states[m], i, j);
  }

  /** A refresh's channel is closed at most once, after its result is set to what the
      fetch returned; what a waiter then reads never changes, and a successful result
      of a goroutine has already been published. */
  lemma WaitersSeeTheResult(hasProvider: bool, states: seq<State>, events: seq<Event>, m: nat, r: nat)
    requires Run(hasProvider, states, events) && m < |states| && r in states[m].refreshes
    ensures states[m].refreshes[r].closes <= 1
    ensures states[m].refreshes[r].closes == 1 ==>
              var x := states[m].refreshes[r];
              && x.items == x.outcome && x.err == x.failed
              && (r in states[m].running || x.phase == Gone ==> x.failed || r in states[m].published)
  {
    RunKeepsInv(hasProvider, states, events, m);
    assert RefreshOk(states[m], r);
  }

  predicate SameResult(x: Refresh, y: Refresh) {
    y.closes == 1 && y.items == x.items && y.err == x.err
  }

  lemma StepKeepsResult(hasProvider: bool, s: State, e: Event, t: State, r: nat)
    requires Inv(s) && Next(hasProvider, s, e, t) && r in s.refreshes && s.refreshes[r].closes == 1
    ensures r in t.refreshes && SameResult(s.refreshes[r], t.refreshes[r])
  {
    assert RefreshOk(s, r);
  }

  lemma {:induction false} ResultIsFinal(
    hasProvider: bool, states: seq<State>, events: seq<Event>, i: nat, m: nat, r: nat)
    requires Run(hasProvider, states, events) && i <= m < |states|
    requires r in states[i].refreshes && states[i].refreshes[r].closes == 1
    ensures r in states[m].refreshes && SameResult(states[i].refreshes[r], states[m].refreshes[r])
  {
    if i < m {
      ResultIsFinal(hasProvider, states, events, i, m - 1, r);
      RunKeepsInv(hasProvider, states, events, m - 1);
      assert Steps(hasProvider)(states[m - 1], events[m - 1], states[m]);
      StepKeepsResult(hasProvider, states[m - 1], events[m - 1], states[m], r);
    }
  }

  predicate Quiet(s: State) {
    s.stopReturned && s.core.inflight.None? && s.running == {}
  }

  predicate Live(s: State, r: nat) {
    r in s.refreshes && BeforeClear(s.refreshes[r].phase)
  }

  lemma InflightRuns(s: State)
    requires Inv(s) && s.core.inflight.Some?
    ensures s.core.inflight.value in s.running
  {
    assert RefreshOk(s, s.core.inflight.value);
  }

  lemma StoppedIsQuiet(s: State, r: nat)
    requires Inv(s) && s.stopReturned
    ensures Quiet(s) && !Live(s, r)
  {
    if r in s.refreshes { assert RefreshOk(s, r); }
    if s.core.inflight.Some? { InflightRuns(s); }
  }

  lemma StoppedStaysStopped(hasProvider: bool, s: State, e: Event, t: State)
    requires Inv(s) && s.stopReturned && Next(hasProvider, s, e, t)
    ensures t.stopReturned && t.core.cached == s.core.cached && !e.FetchBegin?
  {
    match e
    case FetchBegin(r) => StoppedIsQuiet(s, r);
    case Publish(r, _) => StoppedIsQuiet(s, r);
    case _ =>
  }

  /** Once Stop has returned no refresh is running and none ever starts: no fetch begins,
      and the snapshot is the one it left. */
  lemma {:induction false} NothingAfterStop(
    hasProvider: bool, states: seq<State>, events: seq<Event>, i: nat, m: nat, r: nat)
    requires Run(hasProvider, states, events) && i <= m < |states| && states[i].stopReturned
    ensures Quiet(states[m]) && states[m].core.cached == states[i].core.cached && !Live(states[m], r)
    ensures m < |events| ==> !events[m].FetchBegin?
  {
    if i < m {
      NothingAfterStop(hasProvider, states, events, i, m - 1, r);
      assert Steps(hasProvider)(states[m - 1], events[m - 1], states[m]);
      RunKeepsInv(hasProvider, states, events, m - 1);
      StoppedStaysStopped(hasProvider, states[m - 1], events[m - 1], states[m]);
    }
    RunKeepsInv(hasProvider, states, events, m);
    StoppedIsQuiet(states[m], r);
    if m < |events| {
      assert Steps(hasProvider)(states[m], events[m], states[m + 1]);
      StoppedStaysStopped(hasProvider, states[m], events[m], states[m + 1]);
    }
  }

  function NextStep(s: State, r: nat): Event
    requires r in s.refreshes
  {
    match s.refreshes[r].phase
    case Queued => FetchBegin(r)
    case Fetching => FetchReturn(r, map[], true)
    case Fetched => if s.refreshes[r].failed then Clear(r) else Publish(r, 0)
    case Published => Clear(r)
    case Cleared => SetResult(r)
    case ResultSet => CloseDone(r)
    case Closed => WgDone(r)
    case Gone => StopClose
  }

  /** Stop is not waiting in vain: every goroutine it waits for can take its next step,
      and with none left it returns. */
  lemma StopCanReturn(hasProvider: bool, states: seq<State>, events: seq<Event>, m: nat)
    requires Run(hasProvider, states, events) && m < |states| && states[m].core.stopped
    ensures forall r :: r in states[m].running ==>
              r in states[m].refreshes && Enabled(states[m], NextStep(states[m], r))
    ensures Enabled(states[m], StopReturn) <==> states[m].running == {}
  {
    RunKeepsInv(hasProvider, states, events, m);
    forall r | r in states[m].running ensures r in states[m].refreshes && Enabled(states[m], NextStep(states[m], r)) {
      assert RefreshOk(states[m], r);
    }
  }
}
