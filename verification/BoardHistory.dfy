/** The operations in closed form, and the board's properties over every run. */
module BoardEffects {
  import opened Wrappers
  import opened BoardTables
  import opened BoardInvariant
  import opened Lifecycle

  lemma ExecCons(t: Tables, s: Stmt, rest: seq<Stmt>, now: int)
    ensures var next := ExecOne(t, s, now);
            ExecAll(t, [s] + rest, now) == if next.None? then Executed(t, true) else ExecAll(next.value, rest, now)
  {
    assert ([s] + rest)[1..] == rest;
  }

  lemma ExecSingle(t: Tables, s: Stmt, now: int)
    ensures var next := ExecOne(t, s, now);
            ExecAll(t, [s], now) == if next.None? then Executed(t, true) else Executed(next.value, false)
  {
    ExecCons(t, s, [], now);
    assert [s] + [] == [s];
  }

  lemma ExecPair(t: Tables, a: Stmt, b: Stmt, now: int)
    requires ExecOne(t, a, now).Some?
    ensures var u := ExecOne(t, a, now).value; var next := ExecOne(u, b, now);
            ExecAll(t, [a, b], now) == if next.None? then Executed(u, true) else Executed(next.value, false)
  {
    ExecCons(t, a, [b], now);
    ExecSingle(ExecOne(t, a, now).value, b, now);
    assert [a] + [b] == [a, b];
  }

  lemma ExecTriple(t: Tables, a: Stmt, b: Stmt, c: Stmt, now: int)
    requires ExecOne(t, a, now).Some? && ExecOne(ExecOne(t, a, now).value, b, now).Some?
    ensures var u := ExecOne(ExecOne(t, a, now).value, b, now).value; var next := ExecOne(u, c, now);
            ExecAll(t, [a, b, c], now) == if next.None? then Executed(u, true) else Executed(next.value, false)
  {
    ExecCons(t, a, [b, c], now);
    ExecPair(ExecOne(t, a, now).value, b, c, now);
    assert [a] + [b, c] == [a, b, c];
  }

  // ------------------------------------- the six operations safe on a stale gate

  predicate IsLocal(op: Op) {
    op.Claim? || op.Unclaim? || op.Done? || op.Close? || op.Delete? || op.Update?
  }

  function TransitionOf(op: Op): Transition
    requires IsLocal(op)
  {
    match op
    case Claim(_, _) => TClaim
    case Unclaim(_) => TUnclaim
    case Done(_, _, _, _) => TDone
    case Close(_) => TClose
    case Delete(_) => TDelete
    case Update(_, _) => TUpdate
  }

  /** The transition table applies to the row as it is now. */
  predicate Enabled(t: Tables, op: Op)
    requires IsLocal(op)
  {
    && op.id in t.wanted
    && ValidateTransition(t.wanted[op.id].status, TransitionOf(op)).Some?
    && (op.Done? ==> t.wanted[op.id].claimedBy == Some(op.rig))
    && (op.Update? ==> UpdateWantedDML(op.id, op.fields).Some?)
  }

  /** What the transition does to the row, besides moving it to the rule's target. */
  function RowAfter(w: Wanted, op: Op, now: int): Wanted
    requires IsLocal(op)
  {
    var moved := w.(status := TransitionRule(TransitionOf(op)).target, updatedAt := now);
    match op
    case Claim(_, rig) => moved.(claimedBy := Some(rig))
    case Unclaim(_) => moved.(claimedBy := None)
    case Done(_, _, _, evidence) => moved.(evidence := Some(evidence))
    case Update(_, u) => moved.(details := Updated(w.details, u))
    case _ => moved
  }

  function LocalStep(t: Tables, op: Op, now: int): Tables
    requires IsLocal(op) && Enabled(t, op)
  {
    var u := t.(wanted := t.wanted[op.id := RowAfter(t.wanted[op.id], op, now)]);
    if op.Done? then InsertIgnore(u, op.completionId, Completion(op.id, op.rig, op.evidence, None, None)) else u
  }

  lemma OneStatement(t: Tables, op: Op, now: int)
    requires IsLocal(op) && !op.Done?
    ensures Transact(t, op, now) == if Enabled(t, op) then LocalStep(t, op, now) else t
  {
    var stmts := Statements(op);
    if stmts.Some? { ExecSingle(t, stmts.value[0], now); assert stmts.value == [stmts.value[0]]; }
  }

  lemma DoneStatements(t: Tables, op: Op, now: int)
    requires Inv(t) && op.Done?
    ensures Transact(t, op, now) == if Enabled(t, op) then LocalStep(t, op, now) else t
  {
    var stmts := SubmitCompletionDML(op.completionId, op.id, op.rig, op.evidence);
    ExecPair(t, stmts[0], stmts[1], now);
    if op.id in t.wanted {
      InvMeans(t, op.id);
      if Enabled(t, op) {
        var u := ExecOne(t, stmts[0], now).value;
        assert u.wanted[op.id] == RowAfter(t.wanted[op.id], op, now);
        assert HasCompletion(u, op.id) == HasCompletion(t, op.id);
      }
    }
  }

  /** Whatever the gate believed, the statements perform exactly the transition of
      the table on the row as it is now, or nothing. */
  lemma StaleGateIsHarmless(t: Tables, op: Op, now: int)
    requires Inv(t) && IsLocal(op)
    ensures Transact(t, op, now) == if Enabled(t, op) then LocalStep(t, op, now) else t
  {
    if op.Done? { DoneStatements(t, op, now); } else { OneStatement(t, op, now); }
  }

  lemma LocalStepKeepsInv(t: Tables, op: Op, now: int)
    requires Inv(t) && IsLocal(op) && (op.Done? ==> op.completionId !in t.completions)
    ensures Inv(Transact(t, op, now))
  {
    StaleGateIsHarmless(t, op, now);
    if Enabled(t, op) {
      var w := t.wanted[op.id];
      var x := RowAfter(w, op, now);
      assert ItemOk(t, op.id);
      InvMeans(t, op.id);
      if op.Done? {
        CompletionKeepsInv(t, op.id, x, op.completionId, Completion(op.id, op.rig, op.evidence, None, None));
      } else if op.Close? {
        CompletingKeepsInv(t, op.id, x);
      } else {
        RowKeepsInv(t, op.id, x);
      }
    }
  }

  // ------------------------------------------------- the other five, in closed form

  lemma PostEffect(t: Tables, op: Op, now: int)
    requires op.Post?
    ensures Transact(t, op, now) ==
            if op.id == "" || op.details.title == "" || op.id in t.wanted then t
            else t.(wanted := t.wanted[op.id := Wanted(op.details, op.postedBy, None, Open, None, now)])
  {
    var stmts := InsertWantedDML(op.id, op.details, op.postedBy, None);
    ExecSingle(t, stmts[0], now);
  }

  function Rejected(t: Tables, id: Id, now: int): Tables {
    var u := WithoutCompletions(t, id);
    if id in t.wanted && t.wanted[id].status == InReview
    then u.(wanted := t.wanted[id := t.wanted[id].(status := Claimed, updatedAt := now)])
    else u
  }

  lemma RejectEffect(t: Tables, id: Id, now: int)
    ensures Transact(t, Reject(id), now) == Rejected(t, id, now)
  {
    var stmts := RejectCompletionDML(id);
    ExecPair(t, stmts[0], stmts[1], now);
  }

  /** The stamp goes in only when its id is fresh and it is not for its own author. */
  predicate StampFits(t: Tables, s: Id, author: string, subject: string) {
    s !in t.stamps && author != subject
  }

  function Accepted(t: Tables, op: Op, now: int): Tables
    requires op.Accept?
  {
    var stamp := Stamp(op.rig, op.subject, op.completionId);
    var u := if op.completionId in t.completions then Stamped(t, op.completionId, op.stampId, stamp)
             else t.(stamps := t.stamps[op.stampId := stamp]);
    if op.id in t.wanted && t.wanted[op.id].status == InReview
    then u.(wanted := t.wanted[op.id := t.wanted[op.id].(status := Completed, updatedAt := now)])
    else u
  }

  lemma AcceptEffect(t: Tables, op: Op, now: int)
    requires op.Accept?
    ensures Transact(t, op, now) == if StampFits(t, op.stampId, op.rig, op.subject) then Accepted(t, op, now) else t
  {
    var stmts := AcceptCompletionDML(op.id, op.completionId, op.rig, op.stampId, op.subject);
    if StampFits(t, op.stampId, op.rig, op.subject) {
      ExecTriple(t, stmts[0], stmts[1], stmts[2], now);
    } else {
      ExecCons(t, stmts[0], stmts[1..], now);
      assert [stmts[0]] + stmts[1..] == stmts;
    }
  }

  function AdoptedRow(w: Wanted, completedBy: string, evidence: string, now: int): Wanted {
    w.(status := Completed, claimedBy := Some(completedBy), evidence := Some(evidence), updatedAt := now)
  }

  /** A fork's completion replaces whatever completions the item had. */
  function Adopted(t: Tables, id: Id, c: Id, completedBy: string, evidence: string, now: int): Tables {
    var u := InsertIgnore(WithoutCompletions(t, id), c, Completion(id, completedBy, evidence, None, None));
    if id in t.wanted then u.(wanted := t.wanted[id := AdoptedRow(t.wanted[id], completedBy, evidence, now)]) else u
  }

  lemma CloseUpstreamEffect(t: Tables, op: Op, now: int)
    requires op.CloseUpstream?
    ensures Transact(t, op, now) == Adopted(t, op.id, op.completionId, op.completedBy, op.evidence, now)
  {
    var stmts := CloseUpstreamDML(op.id, op.completionId, op.completedBy, op.evidence);
    ExecTriple(t, stmts[0], stmts[1], stmts[2], now);
  }

  lemma AdoptThen(t: Tables, op: Op, now: int)
    requires op.AcceptUpstream?
    ensures var stmts := AcceptUpstreamDML(
              op.id, op.completionId, op.completedBy, op.evidence, op.rig, op.stampId, op.subject);
            ExecAll(t, stmts, now) ==
            ExecAll(Adopted(t, op.id, op.completionId, op.completedBy, op.evidence, now), [stmts[3], stmts[4]], now)
  {
    var stmts := AcceptUpstreamDML(
      op.id, op.completionId, op.completedBy, op.evidence, op.rig, op.stampId, op.subject);
    var t1 := ExecOne(t, stmts[0], now).value;
    var t2 := ExecOne(t1, stmts[1], now).value;
    ExecCons(t, stmts[0], stmts[1..], now);
    assert [stmts[0]] + stmts[1..] == stmts;
    ExecCons(t1, stmts[1], stmts[2..], now);
    assert [stmts[1]] + stmts[2..] == stmts[1..];
    ExecCons(t2, stmts[2], [stmts[3], stmts[4]], now);
    assert [stmts[2]] + [stmts[3], stmts[4]] == stmts[2..];
  }

  /** Accepting a fork's submission adopts it and then stamps it. The stamp alone can be
      turned down, and then the adoption stays: the item is closed without a stamp. */
  lemma AcceptUpstreamEffect(t: Tables, op: Op, now: int)
    requires op.AcceptUpstream?
    ensures var u := Adopted(t, op.id, op.completionId, op.completedBy, op.evidence, now);
            && op.completionId in u.completions
            && Transact(t, op, now) ==
               (if StampFits(t, op.stampId, op.rig, op.subject)
                then Stamped(u, op.completionId, op.stampId, Stamp(op.rig, op.subject, op.completionId))
                else u)
            && (OutcomeOf(t, op, now).Failed? <==> !StampFits(t, op.stampId, op.rig, op.subject))
  {
    var stmts := AcceptUpstreamDML(
      op.id, op.completionId, op.completedBy, op.evidence, op.rig, op.stampId, op.subject);
    var u := Adopted(t, op.id, op.completionId, op.completedBy, op.evidence, now);
    AdoptThen(t, op, now);
    if StampFits(t, op.stampId, op.rig, op.subject) {
      ExecPair(u, stmts[3], stmts[4], now);
    } else {
      ExecCons(u, stmts[3], [stmts[4]], now);
      assert [stmts[3]] + [stmts[4]] == [stmts[3], stmts[4]];
    }
  }

  // ------------------------------------------------- what a failure leaves behind

  predicate NeverFails(s: Stmt) {
    !s.InsertWanted? && !s.InsertStamp?
  }

  lemma {:induction false} NoneFails(t: Tables, stmts: seq<Stmt>, now: int)
    requires forall i :: 0 <= i < |stmts| ==> NeverFails(stmts[i])
    ensures !ExecAll(t, stmts, now).failed
    decreases |stmts|
  {
    if stmts != [] {
      NoneFails(ExecOne(t, stmts[0], now).value, stmts[1..], now);
    }
  }

  /** Scripts run without a transaction. One that fails has still changed nothing, except
      that an accepted submission of a fork whose stamp is turned down has been closed. */
  lemma FailuresLeaveNothingElse(t: Tables, op: Op, now: int)
    requires OutcomeOf(t, op, now).Failed?
    ensures Transact(t, op, now) ==
            if op.AcceptUpstream?
            then Transact(t, CloseUpstream(op.id, op.completionId, op.completedBy, op.evidence), now)
            else t
  {
    if op.AcceptUpstream? {
      AcceptUpstreamEffect(t, op, now);
      CloseUpstreamEffect(t, CloseUpstream(op.id, op.completionId, op.completedBy, op.evidence), now);
    } else if Statements(op).Some? {
      var stmts := Statements(op).value;
      var next := ExecOne(t, stmts[0], now);
      if next.Some? { NoneFails(next.value, stmts[1..], now); }
    }
  }
}

module BoardHistory {
  import opened Wrappers
  import opened BoardTables
  import opened BoardInvariant
  import opened BoardEffects
  import opened Lifecycle
  import Runs

  datatype Event = Event(actor: string, op: Op, now: int)

  predicate IsCompleted(t: Tables, id: Id) {
    id in t.wanted && t.wanted[id].status == Completed
  }

  predicate Allows(t: Tables, id: Id, transition: Transition, actor: string) {
    && id in t.wanted
    && ValidateTransition(t.wanted[id].status, transition).Some?
    && CanPerformTransition(t.wanted[id], transition, actor)
  }

  /** The completion id is new, or is replaced together with the item's completions. */
  predicate FreshCompletion(t: Tables, c: Id, id: Id) {
    c in t.completions ==> t.completions[c].wantedId == id
  }

  /** Adopting a fork's submission: the item is still open, claimed or under review. */
  predicate Adoptable(t: Tables, id: Id, c: Id) {
    id in t.wanted && t.wanted[id].status != Completed && t.wanted[id].status != Withdrawn && FreshCompletion(t, c, id)
  }

  /** What a client that checks the gate on the current tables sends. */
  predicate Gated(t: Tables, e: Event) {
    match e.op
    case Post(_, _, _) => true
    case Claim(id, rig) => Allows(t, id, TClaim, e.actor) && rig == e.actor
    case Unclaim(id) => Allows(t, id, TUnclaim, e.actor)
    case Done(id, c, rig, _) => Allows(t, id, TDone, e.actor) && rig == e.actor && c !in t.completions
    case Accept(id, c, rig, _, subject) =>
      && Allows(t, id, TAccept, e.actor) && rig == e.actor
      && c in t.completions && t.completions[c].wantedId == id && subject == t.completions[c].completedBy
    case Reject(id) => Allows(t, id, TReject, e.actor)
    case Close(id) => Allows(t, id, TClose, e.actor)
    case Delete(id) => Allows(t, id, TDelete, e.actor)
    case Update(id, _) => id in t.wanted && ValidateTransition(t.wanted[id].status, TUpdate).Some?
    case AcceptUpstream(id, c, completedBy, _, rig, _, subject) =>
      Adoptable(t, id, c) && rig == e.actor && subject == completedBy
    case CloseUpstream(id, c, _, _) => Adoptable(t, id, c)
  }

  ghost predicate Next(s: Tables, e: Event, t: Tables) {
    Gated(s, e) && t == Transact(s, e.op, e.now)
  }

  ghost function Steps(): (Tables, Event, Tables) -> bool {
    (s: Tables, e: Event, t: Tables) => Next(s, e, t)
  }

  // ------------------------------------------------------- what clients are offered

  lemma {:induction false} FilteredExactly(w: Wanted, actor: string, all: seq<Transition>, t: Transition)
    ensures t in Filtered(w, actor, all) <==>
            t in all && ValidateTransition(w.status, t).Some? && CanPerformTransition(w, t, actor)
  {
    if all != [] {
      FilteredExactly(w, actor, all[1..], t);
      assert all == [all[0]] + all[1..];
    }
  }

  /** The transitions offered to an actor are exactly the ones the gate lets through. */
  lemma OffersAreExact(w: Wanted, actor: string, t: Transition)
    ensures t in AvailableTransitions(w, actor) <==>
            ValidateTransition(w.status, t).Some? && CanPerformTransition(w, t, actor)
  {
    FilteredExactly(w, actor, [TClaim, TUnclaim, TDone, TAccept, TReject, TClose, TDelete], t);
  }

  // ------------------------------------------------------------ the invariant

  /** Only a completed item has stamped completions. */
  lemma NoStamped(t: Tables, id: Id)
    requires Inv(t) && !IsCompleted(t, id)
    ensures forall c :: c in t.completions && t.completions[c].wantedId == id ==> t.completions[c].stampId.None?
  {
    forall c | c in t.completions && t.completions[c].wantedId == id ensures t.completions[c].stampId.None? {
      assert CompletionOk(t, c);
    }
  }

  lemma NothingToDrop(t: Tables, id: Id)
    requires Inv(t) && (id in t.wanted ==> t.wanted[id].status != InReview && t.wanted[id].status != Completed)
    ensures WithoutCompletions(t, id) == t
  {
    forall c | c in t.completions ensures t.completions[c].wantedId != id {
      assert CompletionOk(t, c);
    }
    assert WithoutCompletions(t, id).completions == t.completions;
  }

  lemma RejectKeepsInv(t: Tables, id: Id, now: int)
    requires Inv(t) && !IsCompleted(t, id)
    ensures Inv(Transact(t, Reject(id), now))
  {
    RejectEffect(t, id, now);
    NoStamped(t, id);
    if id in t.wanted && t.wanted[id].status == InReview {
      InvMeans(t, id);
      DroppingKeepsInv(t, id, t.wanted[id].(status := Claimed, updatedAt := now));
    } else {
      NothingToDrop(t, id);
    }
  }

  /** Adopting goes through an open item: drop what it has, then complete it. */
  lemma AdoptedKeepsInv(t: Tables, id: Id, c: Id, who: string, evidence: string, now: int)
    requires Inv(t) && id in t.wanted && FreshCompletion(t, c, id)
    requires forall d :: d in t.completions && t.completions[d].wantedId == id ==> t.completions[d].stampId.None?
    ensures var u := Adopted(t, id, c, who, evidence, now);
            && Inv(u) && c in u.completions && u.completions[c] == Completion(id, who, evidence, None, None)
            && u.stamps == t.stamps
  {
    var bare := t.wanted[id].(status := Withdrawn, claimedBy := None);
    DroppingKeepsInv(t, id, bare);
    var u := WithoutCompletions(t, id).(wanted := t.wanted[id := bare]);
    var w := AdoptedRow(t.wanted[id], who, evidence, now);
    var k := Completion(id, who, evidence, None, None);
    CompletionKeepsInv(u, id, w, c, k);
    assert Adopted(t, id, c, who, evidence, now) ==
           u.(wanted := u.wanted[id := w], completions := u.completions[c := k]);
  }

  lemma AdoptionKeepsInv(t: Tables, op: Op, now: int)
    requires Inv(t) && (op.AcceptUpstream? || op.CloseUpstream?)
    requires op.id in t.wanted && FreshCompletion(t, op.completionId, op.id)
    requires op.AcceptUpstream? ==> op.subject == op.completedBy
    requires forall d :: d in t.completions && t.completions[d].wantedId == op.id ==> t.completions[d].stampId.None?
    ensures Inv(Transact(t, op, now))
  {
    AdoptedKeepsInv(t, op.id, op.completionId, op.completedBy, op.evidence, now);
    if op.CloseUpstream? {
      CloseUpstreamEffect(t, op, now);
    } else {
      AcceptUpstreamEffect(t, op, now);
      if StampFits(t, op.stampId, op.rig, op.subject) {
        var u := Adopted(t, op.id, op.completionId, op.completedBy, op.evidence, now);
        StampingKeepsInv(u, op.completionId, op.stampId, Stamp(op.rig, op.subject, op.completionId));
      }
    }
  }

  /** Accepting an unstamped completion of the item itself, or of one already completed. */
  lemma AcceptingKeepsInv(t: Tables, op: Op, now: int)
    requires Inv(t) && op.Accept? && op.completionId in t.completions
    requires t.completions[op.completionId].stampId.None? && op.rig != t.completions[op.completionId].completedBy
    requires var j := t.completions[op.completionId].wantedId;
             j == op.id || IsCompleted(t, j)
    ensures Inv(Transact(t, op, now))
  {
    AcceptEffect(t, op, now);
    assert CompletionOk(t, op.completionId);
    if StampFits(t, op.stampId, op.rig, op.subject) {
      var stamp := Stamp(op.rig, op.subject, op.completionId);
      var u := t;
      if op.id in t.wanted && t.wanted[op.id].status == InReview {
        var w := t.wanted[op.id].(status := Completed, updatedAt := now);
        CompletingKeepsInv(t, op.id, w);
        u := t.(wanted := t.wanted[op.id := w]);
      }
      StampingKeepsInv(u, op.completionId, op.stampId, stamp);
      assert Accepted(t, op, now) == Stamped(u, op.completionId, op.stampId, stamp);
    }
  }

  lemma PostKeepsInv(t: Tables, op: Op, now: int)
    requires Inv(t) && op.Post?
    ensures Inv(Transact(t, op, now))
  {
    PostEffect(t, op, now);
    if op.id !in t.wanted {
      RowKeepsInv(t, op.id, Wanted(op.details, op.postedBy, None, Open, None, now));
    }
  }

  lemma StepKeepsInv(s: Tables, e: Event, t: Tables)
    requires Inv(s) && Next(s, e, t)
    ensures Inv(t)
  {
    match e.op
    case Post(_, _, _) => PostKeepsInv(s, e.op, e.now);
    case Accept(id, c, _, _, _) =>
      assert CompletionOk(s, c);
      AcceptingKeepsInv(s, e.op, e.now);
    case Reject(id) => RejectKeepsInv(s, id, e.now);
    case AcceptUpstream(id, _, _, _, _, _, _) =>
      NoStamped(s, id);
      AdoptionKeepsInv(s, e.op, e.now);
    case CloseUpstream(id, _, _, _) =>
      NoStamped(s, id);
      AdoptionKeepsInv(s, e.op, e.now);
    case _ => LocalStepKeepsInv(s, e.op, e.now);
  }

  ghost function InvAt(): (nat, Tables) -> bool {
    (i: nat, t: Tables) => Inv(t)
  }

  /** Every run of gated operations keeps the invariant. */
  lemma RunKeepsInv(states: seq<Tables>, events: seq<Event>, m: nat)
    requires Runs.Path(Steps(), states, events) && m < |states| && Inv(states[0])
    ensures Inv(states[m])
  {
    forall i: nat, s, e, t | InvAt()(i, s) && Steps()(s, e, t) ensures InvAt()(i + 1, t) {
      StepKeepsInv(s, e, t);
    }
    Runs.Kept(Steps(), InvAt(), states, events, 0, m);
  }

  lemma EmptyBoardIsOk()
    ensures Inv(Tables(map[], map[], map[]))
  {
  }

  // --------------------------------------------------- the gate and the statements

  predicate IsTransition(op: Op) {
    IsLocal(op) || op.Accept? || op.Reject?
  }

  function Gate(op: Op): Transition
    requires IsTransition(op)
  {
    match op
    case Accept(_, _, _, _, _) => TAccept
    case Reject(_) => TReject
    case _ => TransitionOf(op)
  }

  /** The row moved where the rule says, and no other row changed. */
  predicate Followed(t: Tables, u: Tables, id: Id, transition: Transition) {
    && id in t.wanted && id in u.wanted
    && ValidateTransition(t.wanted[id].status, transition) == Some(u.wanted[id].status)
    && u.wanted == t.wanted[id := u.wanted[id]]
  }

  /** What the gate lets through always goes through, and as the transition table says:
      the statements never turn down a client whose read is current. */
  lemma GatedStepFollowsTheRule(t: Tables, e: Event)
    requires Inv(t) && Gated(t, e) && IsTransition(e.op)
    requires e.op.Accept? ==> e.op.stampId !in t.stamps
    requires e.op.Update? ==> UpdateWantedDML(e.op.id, e.op.fields).Some?
    ensures Followed(t, Transact(t, e.op, e.now), e.op.id, Gate(e.op))
  {
    assert ItemOk(t, e.op.id);
    match e.op
    case Accept(_, c, _, _, _) =>
      assert CompletionOk(t, c);
      AcceptEffect(t, e.op, e.now);
    case Reject(id) => RejectEffect(t, id, e.now);
    case _ => StaleGateIsHarmless(t, e.op, e.now);
  }

  /** What a client fills in beside the item. */
  predicate FilledIn(t: Tables, e: Event) {
    match e.op
    case Claim(_, rig) => rig == e.actor
    case Done(_, c, rig, _) => rig == e.actor && c !in t.completions
    case Accept(id, c, rig, s, subject) =>
      && rig == e.actor && s !in t.stamps
      && c in t.completions && t.completions[c].wantedId == id && subject == t.completions[c].completedBy
    case _ => true
  }

  /** Every transition offered to an actor on the current row goes through. */
  lemma OffersAreHonoured(t: Tables, e: Event)
    requires Inv(t) && IsTransition(e.op) && FilledIn(t, e) && e.op.id in t.wanted
    requires Gate(e.op) in AvailableTransitions(t.wanted[e.op.id], e.actor)
    ensures Gated(t, e) && Followed(t, Transact(t, e.op, e.now), e.op.id, Gate(e.op))
  {
    OffersAreExact(t.wanted[e.op.id], e.actor, Gate(e.op));
    GatedStepFollowsTheRule(t, e);
  }

  // --------------------------------------------------- what is never undone

  /** No statement of any operation touches a stamp once it is issued. */
  lemma StampsArePermanent(t: Tables, op: Op, now: int, s: Id)
    requires Inv(t) && s in t.stamps
    ensures var u := Transact(t, op, now); s in u.stamps && u.stamps[s] == t.stamps[s]
  {
    match op
    case Post(_, _, _) => PostEffect(t, op, now);
    case Accept(_, _, _, _, _) => AcceptEffect(t, op, now);
    case Reject(id) => RejectEffect(t, id, now);
    case AcceptUpstream(_, _, _, _, _, _, _) => AcceptUpstreamEffect(t, op, now);
    case CloseUpstream(_, _, _, _) => CloseUpstreamEffect(t, op, now);
    case _ => StaleGateIsHarmless(t, op, now);
  }

  predicate Terminal(s: Status) { s == Completed || s == Withdrawn }

  /** The row, and the completion `c` if it is the item's, are as in `was`. */
  predicate Frozen(was: Tables, t: Tables, id: Id, c: Id) {
    && id in was.wanted && id in t.wanted && t.wanted[id] == was.wanted[id]
    && (c in was.completions && was.completions[c].wantedId == id <==>
        c in t.completions && t.completions[c].wantedId == id)
    && (c in was.completions && was.completions[c].wantedId == id ==> t.completions[c] == was.completions[c])
  }

  lemma LocalFreezes(s: Tables, e: Event, id: Id, c: Id)
    requires Inv(s) && Gated(s, e) && IsLocal(e.op) && id in s.wanted && Terminal(s.wanted[id].status)
    ensures Frozen(s, Transact(s, e.op, e.now), id, c)
  {
    StaleGateIsHarmless(s, e.op, e.now);
    assert Enabled(s, e.op) ==> e.op.id != id;
  }

  lemma AcceptFreezes(s: Tables, e: Event, id: Id, c: Id)
    requires Inv(s) && Gated(s, e) && e.op.Accept? && id in s.wanted && Terminal(s.wanted[id].status)
    ensures Frozen(s, Transact(s, e.op, e.now), id, c)
  {
    AcceptEffect(s, e.op, e.now);
    assert e.op.id != id && s.completions[e.op.completionId].wantedId != id;
  }

  lemma AdoptionFreezes(s: Tables, e: Event, id: Id, c: Id)
    requires Inv(s) && Gated(s, e) && (e.op.AcceptUpstream? || e.op.CloseUpstream?)
    requires id in s.wanted && Terminal(s.wanted[id].status)
    ensures Frozen(s, Transact(s, e.op, e.now), id, c)
  {
    var u := Adopted(s, e.op.id, e.op.completionId, e.op.completedBy, e.op.evidence, e.now);
    assert Frozen(s, u, id, c);
    if e.op.CloseUpstream? {
      CloseUpstreamEffect(s, e.op, e.now);
    } else {
      AcceptUpstreamEffect(s, e.op, e.now);
    }
  }

  lemma StepFreezes(s: Tables, e: Event, t: Tables, id: Id, c: Id)
    requires Inv(s) && Next(s, e, t) && id in s.wanted && Terminal(s.wanted[id].status)
    ensures Frozen(s, t, id, c)
  {
    match e.op
    case Post(_, _, _) => PostEffect(s, e.op, e.now);
    case Accept(_, _, _, _, _) => AcceptFreezes(s, e, id, c);
    case Reject(i) => RejectEffect(s, i, e.now);
    case AcceptUpstream(_, _, _, _, _, _, _) => AdoptionFreezes(s, e, id, c);
    case CloseUpstream(_, _, _, _) => AdoptionFreezes(s, e, id, c);
    case _ => LocalFreezes(s, e, id, c);
  }

  ghost function FrozenSince(was: Tables, id: Id, c: Id): (nat, Tables) -> bool {
    (i: nat, t: Tables) => Inv(t) && Frozen(was, t, id, c)
  }

  /** Completed and withdrawn are never left: the row and its completions stay as
      they are for the rest of the run. */
  lemma TerminalIsForever(states: seq<Tables>, events: seq<Event>, i: nat, m: nat, id: Id, c: Id)
    requires Runs.Path(Steps(), states, events) && i <= m < |states| && Inv(states[0])
    requires id in states[i].wanted && Terminal(states[i].wanted[id].status)
    ensures Frozen(states[i], states[m], id, c)
  {
    RunKeepsInv(states, events, i);
    var inv := FrozenSince(states[i], id, c);
    forall k: nat, s, e, t | inv(k, s) && Steps()(s, e, t) ensures inv(k + 1, t) {
      StepKeepsInv(s, e, t);
      StepFreezes(s, e, t, id, c);
    }
    Runs.Kept(Steps(), inv, states, events, i, m);
  }

  /** A stamp of a run never changes and names a completion by someone else. */
  lemma StampsAreForever(states: seq<Tables>, events: seq<Event>, i: nat, m: nat, s: Id)
    requires Runs.Path(Steps(), states, events) && i <= m < |states| && Inv(states[0]) && s in states[i].stamps
    ensures s in states[m].stamps && states[m].stamps[s] == states[i].stamps[s]
    ensures var c := states[m].stamps[s].contextId;
            c in states[m].completions && states[m].completions[c].completedBy != states[m].stamps[s].author
    decreases m - i
  {
    if i < m {
      RunKeepsInv(states, events, i);
      assert Steps()(states[i], events[i], states[i + 1]);
      StampsArePermanent(states[i], events[i].op, events[i].now, s);
      StampsAreForever(states, events, i + 1, m, s);
    } else {
      RunKeepsInv(states, events, m);
      assert StampOk(states[m], s);
    }
  }

  // ------------------------------------------------------------- stale gates

  /** A step of one of the six, sent on the strength of any earlier read. */
  ghost predicate StaleNext(s: Tables, e: Event, t: Tables) {
    && IsLocal(e.op) && (e.op.Done? ==> e.op.completionId !in s.completions)
    && t == Transact(s, e.op, e.now)
  }

  ghost function StaleSteps(): (Tables, Event, Tables) -> bool {
    (s: Tables, e: Event, t: Tables) => StaleNext(s, e, t)
  }

  /** The invariant survives every interleaving of the six, gated or not. */
  lemma StaleRunKeepsInv(states: seq<Tables>, events: seq<Event>, m: nat)
    requires Runs.Path(StaleSteps(), states, events) && m < |states| && Inv(states[0])
    ensures Inv(states[m])
  {
    forall i: nat, s, e, t | InvAt()(i, s) && StaleSteps()(s, e, t) ensures InvAt()(i + 1, t) {
      LocalStepKeepsInv(s, e.op, e.now);
    }
    Runs.Kept(StaleSteps(), InvAt(), states, events, 0, m);
  }

  ghost predicate AreClaims(events: seq<Event>, id: Id) {
    forall i :: 0 <= i < |events| ==> events[i].op.Claim? && events[i].op.id == id
  }

  /** Of any number of racing claims on an open item exactly the first takes effect;
      every other client is told of the conflict. */
  lemma OneClaimWins(states: seq<Tables>, events: seq<Event>, id: Id, m: nat)
    requires Runs.Path(StaleSteps(), states, events) && m < |events| && AreClaims(events, id)
    requires id in states[0].wanted && states[0].wanted[id].status == Open
    ensures OutcomeOf(states[m], events[m].op, events[m].now) == if m == 0 then Committed else Conflict
    ensures states[m + 1] == states[1]
    ensures id in states[m + 1].wanted && states[m + 1].wanted[id].status == Claimed
    ensures states[m + 1].wanted[id].claimedBy == Some(events[0].op.rig)
  {
    var e := events[m];
    assert StaleSteps()(states[m], e, states[m + 1]);
    OneStatement(states[m], e.op, e.now);
    ExecSingle(states[m], ClaimWantedDML(id, e.op.rig)[0], e.now);
    if m > 0 {
      OneClaimWins(states, events, id, m - 1);
    }
  }

  // ---------------------------------- where the invariant needs its hypotheses

  /** A submission whose id is taken is ignored and leaves a review without a completion. */
  lemma DoneNeedsAFreshId(t: Tables, op: Op, now: int)
    requires Inv(t) && op.Done? && Enabled(t, op)
    ensures Inv(Transact(t, op, now)) <==> op.completionId !in t.completions
  {
    if op.completionId !in t.completions {
      LocalStepKeepsInv(t, op, now);
    } else {
      StaleGateIsHarmless(t, op, now);
      InvMeans(t, op.id);
      assert !ItemOk(Transact(t, op, now), op.id);
    }
  }

  /** A reject sent after the item was completed deletes its completion. */
  lemma RejectNeedsTheGate(t: Tables, id: Id, now: int)
    requires Inv(t)
    ensures Inv(Transact(t, Reject(id), now)) <==> !IsCompleted(t, id)
  {
    if IsCompleted(t, id) {
      RejectEffect(t, id, now);
      assert !ItemOk(Transact(t, Reject(id), now), id);
    } else {
      RejectKeepsInv(t, id, now);
    }
  }

  /** An accept that goes through keeps the invariant exactly when it stamps, for the
      first time and for someone else, a completion of its item or of a completed one. */
  lemma AcceptNeedsItsOwnCompletion(t: Tables, op: Op, now: int)
    requires Inv(t) && op.Accept? && StampFits(t, op.stampId, op.rig, op.subject)
    ensures Inv(Transact(t, op, now)) <==>
            && op.completionId in t.completions
            && var k := t.completions[op.completionId];
            && k.stampId.None? && op.rig != k.completedBy
            && (k.wantedId == op.id || IsCompleted(t, k.wantedId))
  {
    var u := Transact(t, op, now);
    AcceptEffect(t, op, now);
    if op.completionId in t.completions {
      var k := t.completions[op.completionId];
      assert CompletionOk(t, op.completionId);
      if k.stampId.None? && op.rig != k.completedBy && (k.wantedId == op.id || IsCompleted(t, k.wantedId)) {
        AcceptingKeepsInv(t, op, now);
      } else if k.stampId.Some? {
        assert k.stampId.value in u.stamps && !StampOk(u, k.stampId.value);
      } else if op.rig == k.completedBy {
        assert op.stampId in u.stamps && !StampOk(u, op.stampId);
      } else {
        assert op.completionId in u.completions && !CompletionOk(u, op.completionId);
      }
    } else {
      assert op.stampId in u.stamps && !StampOk(u, op.stampId);
    }
  }

  /** Adopting a fork's submission is safe, in any status, until the item is stamped. */
  lemma AdoptionNeedsNoStamp(t: Tables, op: Op, now: int)
    requires Inv(t) && (op.AcceptUpstream? || op.CloseUpstream?)
    requires op.id in t.wanted && FreshCompletion(t, op.completionId, op.id)
    requires op.AcceptUpstream? ==> op.subject == op.completedBy
    ensures Inv(Transact(t, op, now)) <==>
            forall c :: c in t.completions && t.completions[c].wantedId == op.id ==> t.completions[c].stampId.None?
  {
    if c :| c in t.completions && t.completions[c].wantedId == op.id && t.completions[c].stampId.Some? {
      var s := t.completions[c].stampId.value;
      assert CompletionOk(t, c);
      if op.AcceptUpstream? { AcceptUpstreamEffect(t, op, now); } else { CloseUpstreamEffect(t, op, now); }
      assert !StampOk(Transact(t, op, now), s);
    } else {
      AdoptionKeepsInv(t, op, now);
    }
  }
}
