/**
 Board scripts that are cut off and run again. The local tool runs a script with dolt up to
 three times (doltRetry of internal/commons/dolt.go); a run can be killed between two
 statements or after its commit. The remote writes of internal/backend/remote.go go out one
 by one, and an error leaves the earlier ones applied.
 */
module BoardCuts {
  import opened Wrappers
  import opened BoardTables
  import opened BoardScripts
  import opened BoardInvariant
  import opened BoardEffects

  // ------------------------------------------------------------ times do not matter

  predicate SameRow(a: Wanted, b: Wanted) {
    a.(updatedAt := b.updatedAt) == b
  }

  predicate SameButTimes(a: Tables, b: Tables) {
    && a.completions == b.completions && a.stamps == b.stamps && a.wanted.Keys == b.wanted.Keys
    && forall id :: id in a.wanted ==> SameRow(a.wanted[id], b.wanted[id])
  }

  lemma SameTrans(a: Tables, b: Tables, c: Tables)
    requires SameButTimes(a, b) && SameButTimes(b, c)
    ensures SameButTimes(a, c)
  {
    forall id | id in a.wanted ensures SameRow(a.wanted[id], c.wanted[id]) {
      assert SameRow(a.wanted[id], b.wanted[id]) && SameRow(b.wanted[id], c.wanted[id]);
    }
  }

  lemma InvIgnoresTimes(a: Tables, b: Tables)
    requires SameButTimes(b, a) && Inv(a)
    ensures Inv(b)
  {
    forall id | id in b.wanted ensures ItemOk(b, id) {
      assert ItemOk(a, id) && SameRow(b.wanted[id], a.wanted[id]);
      assert HasCompletion(a, id) == HasCompletion(b, id);
    }
    forall c | c in b.completions ensures CompletionOk(b, c) {
      assert CompletionOk(a, c) && SameRow(b.wanted[a.completions[c].wantedId], a.wanted[a.completions[c].wantedId]);
    }
    forall s | s in b.stamps ensures StampOk(b, s) {
      assert StampOk(a, s);
    }
  }

  // ------------------------------------------------------------ cut-off scripts

  function Script(op: Op): seq<Stmt> {
    Statements(op).GetOr([])
  }

  /** The tables after a run of it, which may fail before it gets there. */
  function CutOff(t: Tables, op: Op, after: nat, now: int): Tables {
    ExecAll(t, Cut(Script(op), after), now).tables
  }

  lemma UncutIsTransact(t: Tables, op: Op, after: nat, now: int)
    requires after >= |Script(op)|
    ensures CutOff(t, op, after, now) == Transact(t, op, now)
  {
  }

  lemma CutAtOnce(t: Tables, op: Op, now: int)
    ensures CutOff(t, op, 0, now) == t
  {
    assert Cut(Script(op), 0) == [];
  }

  /** The cut comes before the script has issued a stamp. */
  predicate BeforeStamp(op: Op, after: nat) {
    (op.Accept? ==> after == 0) && (op.AcceptUpstream? ==> after <= 3)
  }

  // ------------------------------------------------------------ running again

  /** A cut-off run and then a whole one leave what the whole one alone leaves. */
  predicate Heals(t: Tables, op: Op, after: nat, cut: int, now: int) {
    SameButTimes(Transact(CutOff(t, op, after, cut), op, now), Transact(t, op, now))
  }

  lemma SingleHeals(t: Tables, op: Op, cut: int, now: int)
    requires IsLocal(op) && !op.Done?
    ensures SameButTimes(Transact(Transact(t, op, cut), op, now), Transact(t, op, now))
  {
    OneStatement(t, op, cut);
    OneStatement(t, op, now);
    OneStatement(Transact(t, op, cut), op, now);
  }

  lemma PostHeals(t: Tables, op: Op, cut: int, now: int)
    requires op.Post?
    ensures SameButTimes(Transact(Transact(t, op, cut), op, now), Transact(t, op, now))
  {
    PostEffect(t, op, cut);
    PostEffect(t, op, now);
    PostEffect(Transact(t, op, cut), op, now);
  }

  function SubmittedRow(t: Tables, op: Op, now: int): Tables
    requires op.Done?
  {
    if op.id in t.wanted && Selects(t.wanted[op.id], Some(Claimed), Some(op.rig))
    then t.(wanted := t.wanted[op.id :=
                t.wanted[op.id].(status := InReview, evidence := Some(op.evidence), updatedAt := now)])
    else t
  }

  /** Submitting in closed form, in any tables. */
  function Submitted(t: Tables, op: Op, now: int): Tables
    requires op.Done?
  {
    var u := SubmittedRow(t, op, now);
    if op.id in u.wanted && Selects(u.wanted[op.id], Some(InReview), Some(op.rig)) && !HasCompletion(u, op.id)
    then InsertIgnore(u, op.completionId, Completion(op.id, op.rig, op.evidence, None, None))
    else u
  }

  lemma DoneCut(t: Tables, op: Op, now: int)
    requires op.Done?
    ensures CutOff(t, op, 1, now) == SubmittedRow(t, op, now)
    ensures Transact(t, op, now) == Submitted(t, op, now)
  {
    var stmts := SubmitCompletionDML(op.completionId, op.id, op.rig, op.evidence);
    assert stmts[..1] == [stmts[0]];
    ExecSingle(t, stmts[0], now);
    ExecPair(t, stmts[0], stmts[1], now);
    assert stmts == [stmts[0], stmts[1]];
  }

  lemma RowSubmittedAgain(t: Tables, op: Op, cut: int, now: int)
    requires op.Done?
    ensures SameButTimes(Submitted(SubmittedRow(t, op, cut), op, now), Submitted(t, op, now))
  {
    var u, v := SubmittedRow(t, op, cut), SubmittedRow(t, op, now);
    assert HasCompletion(u, op.id) == HasCompletion(v, op.id);
    assert SubmittedRow(u, op, now) == u;
  }

  lemma SubmittedAgain(t: Tables, op: Op, cut: int, now: int)
    requires op.Done?
    ensures SameButTimes(Submitted(Submitted(t, op, cut), op, now), Submitted(t, op, now))
  {
    var u := Submitted(t, op, cut);
    assert SubmittedRow(u, op, now) == u;
    assert Submitted(u, op, now) == u;
    var v, w := SubmittedRow(t, op, cut), SubmittedRow(t, op, now);
    assert HasCompletion(v, op.id) == HasCompletion(w, op.id);
  }

  lemma DoneHeals(t: Tables, op: Op, after: nat, cut: int, now: int)
    requires op.Done?
    ensures Heals(t, op, after, cut, now)
  {
    DoneCut(t, op, cut);
    DoneCut(t, op, now);
    DoneCut(CutOff(t, op, after, cut), op, now);
    if after == 0 {
      CutAtOnce(t, op, cut);
    } else if after == 1 {
      RowSubmittedAgain(t, op, cut, now);
    } else {
      UncutIsTransact(t, op, after, cut);
      SubmittedAgain(t, op, cut, now);
    }
  }

  lemma DropAgain(t: Tables, id: Id)
    ensures WithoutCompletions(WithoutCompletions(t, id), id) == WithoutCompletions(t, id)
  {
    var u := WithoutCompletions(t, id);
    assert WithoutCompletions(u, id).completions == u.completions;
  }

  lemma DropInserted(t: Tables, id: Id, c: Id, k: Completion)
    requires k.wantedId == id
    ensures WithoutCompletions(InsertIgnore(WithoutCompletions(t, id), c, k), id) == WithoutCompletions(t, id)
  {
    var u := WithoutCompletions(t, id);
    assert WithoutCompletions(InsertIgnore(u, c, k), id).completions == u.completions;
  }

  /** Dropping looks at completions alone. */
  lemma DropIgnoresRows(t: Tables, u: Tables, id: Id)
    requires t.completions == u.completions
    ensures WithoutCompletions(u, id).completions == WithoutCompletions(t, id).completions
  {
  }

  lemma RejectedAgain(t: Tables, id: Id, cut: int, now: int)
    ensures SameButTimes(Rejected(WithoutCompletions(t, id), id, now), Rejected(t, id, now))
    ensures SameButTimes(Rejected(Rejected(t, id, cut), id, now), Rejected(t, id, now))
  {
    DropAgain(t, id);
    DropIgnoresRows(WithoutCompletions(t, id), Rejected(t, id, cut), id);
  }

  lemma RejectCut(t: Tables, id: Id, now: int)
    ensures CutOff(t, Reject(id), 1, now) == WithoutCompletions(t, id)
  {
    var stmts := RejectCompletionDML(id);
    assert stmts[..1] == [stmts[0]];
    ExecSingle(t, stmts[0], now);
  }

  lemma RejectHeals(t: Tables, id: Id, after: nat, cut: int, now: int)
    ensures Heals(t, Reject(id), after, cut, now)
  {
    RejectEffect(t, id, cut);
    RejectEffect(t, id, now);
    RejectEffect(CutOff(t, Reject(id), after, cut), id, now);
    RejectedAgain(t, id, cut, now);
    if after == 0 {
      CutAtOnce(t, Reject(id), cut);
    } else if after == 1 {
      RejectCut(t, id, cut);
    } else {
      UncutIsTransact(t, Reject(id), after, cut);
    }
  }

  // ------------------------------------------------------------ adopting again

  predicate Adopts(op: Op) {
    op.AcceptUpstream? || op.CloseUpstream?
  }

  function AdoptedBy(t: Tables, op: Op, now: int): Tables
    requires Adopts(op)
  {
    Adopted(t, op.id, op.completionId, op.completedBy, op.evidence, now)
  }

  /** The completion in place of the item's own, before the row is changed. */
  function Replaced(t: Tables, op: Op): Tables
    requires Adopts(op)
  {
    InsertIgnore(WithoutCompletions(t, op.id), op.completionId,
                 Completion(op.id, op.completedBy, op.evidence, None, None))
  }

  lemma AdoptionCut(t: Tables, op: Op, now: int)
    requires Adopts(op)
    ensures CutOff(t, op, 1, now) == WithoutCompletions(t, op.id)
    ensures CutOff(t, op, 2, now) == Replaced(t, op)
    ensures CutOff(t, op, 3, now) == AdoptedBy(t, op, now)
  {
    var stmts := Script(op);
    assert stmts[..1] == [stmts[0]];
    assert stmts[..2] == [stmts[0], stmts[1]];
    assert stmts[..3] == [stmts[0], stmts[1], stmts[2]];
    ExecSingle(t, stmts[0], now);
    ExecPair(t, stmts[0], stmts[1], now);
    ExecTriple(t, stmts[0], stmts[1], stmts[2], now);
  }

  /** Wherever an adoption was cut off, the next one starts from the same completions. */
  lemma AdoptedAgain(t: Tables, u: Tables, op: Op, cut: int, now: int)
    requires Adopts(op)
    requires u == WithoutCompletions(t, op.id) || u == Replaced(t, op) || u == AdoptedBy(t, op, cut)
    ensures SameButTimes(AdoptedBy(u, op, now), AdoptedBy(t, op, now))
  {
    DropAgain(t, op.id);
    DropInserted(t, op.id, op.completionId, Completion(op.id, op.completedBy, op.evidence, None, None));
    DropIgnoresRows(Replaced(t, op), AdoptedBy(t, op, cut), op.id);
    assert WithoutCompletions(u, op.id).completions == WithoutCompletions(t, op.id).completions;
  }

  lemma AdoptionCutAgain(t: Tables, op: Op, after: nat, cut: int, now: int)
    requires Adopts(op) && after <= 3
    ensures SameButTimes(AdoptedBy(CutOff(t, op, after, cut), op, now), AdoptedBy(t, op, now))
  {
    AdoptionCut(t, op, cut);
    if after == 0 {
      CutAtOnce(t, op, cut);
    } else {
      AdoptedAgain(t, CutOff(t, op, after, cut), op, cut, now);
    }
  }

  lemma CloseUpstreamHeals(t: Tables, op: Op, after: nat, cut: int, now: int)
    requires op.CloseUpstream?
    ensures Heals(t, op, after, cut, now)
  {
    var j := if after < 3 then after else 3;
    AdoptionCutAgain(t, op, j, cut, now);
    CloseUpstreamEffect(t, op, now);
    CloseUpstreamEffect(CutOff(t, op, j, cut), op, now);
  }

  lemma StampedAlike(a: Tables, b: Tables, c: Id, s: Id, stamp: Stamp)
    requires SameButTimes(a, b) && c in a.completions
    ensures SameButTimes(Stamped(a, c, s, stamp), Stamped(b, c, s, stamp))
  {
  }

  /** Adopted, and stamped if the stamp goes in. */
  function Settled(u: Tables, op: Op): Tables
    requires op.AcceptUpstream? && op.completionId in u.completions
  {
    if StampFits(u, op.stampId, op.rig, op.subject)
    then Stamped(u, op.completionId, op.stampId, Stamp(op.rig, op.subject, op.completionId))
    else u
  }

  lemma AcceptUpstreamSettles(t: Tables, op: Op, now: int)
    requires op.AcceptUpstream?
    ensures op.completionId in AdoptedBy(t, op, now).completions
    ensures Transact(t, op, now) == Settled(AdoptedBy(t, op, now), op)
  {
    AcceptUpstreamEffect(t, op, now);
  }

  lemma SettledAlike(a: Tables, b: Tables, op: Op)
    requires op.AcceptUpstream? && SameButTimes(a, b) && op.completionId in a.completions
    ensures SameButTimes(Settled(a, op), Settled(b, op))
  {
    StampedAlike(a, b, op.completionId, op.stampId, Stamp(op.rig, op.subject, op.completionId));
  }

  lemma AcceptUpstreamHeals(t: Tables, op: Op, after: nat, cut: int, now: int)
    requires op.AcceptUpstream? && after <= 3
    ensures Heals(t, op, after, cut, now)
  {
    var u := CutOff(t, op, after, cut);
    AdoptionCutAgain(t, op, after, cut, now);
    AcceptUpstreamSettles(t, op, now);
    AcceptUpstreamSettles(u, op, now);
    SettledAlike(AdoptedBy(u, op, now), AdoptedBy(t, op, now), op);
  }

  /** Until the script has issued a stamp, a whole run makes up for one that was cut off. */
  lemma CutOffHeals(t: Tables, op: Op, after: nat, cut: int, now: int)
    requires BeforeStamp(op, after)
    ensures Heals(t, op, after, cut, now)
  {
    if after == 0 {
      CutAtOnce(t, op, cut);
    } else if op.Done? {
      DoneHeals(t, op, after, cut, now);
    } else if op.Reject? {
      RejectHeals(t, op.id, after, cut, now);
    } else if op.CloseUpstream? {
      CloseUpstreamHeals(t, op, after, cut, now);
    } else if op.AcceptUpstream? {
      AcceptUpstreamHeals(t, op, after, cut, now);
    } else {
      UncutIsTransact(t, op, after, cut);
      if op.Post? { PostHeals(t, op, cut, now); } else { SingleHeals(t, op, cut, now); }
    }
  }
}

/** Which cuts are harmless, which retries heal, and what the retried script reports. */
module BoardRetries {
  import opened Wrappers
  import opened BoardTables
  import opened BoardInvariant
  import opened BoardEffects
  import opened BoardHistory
  import opened BoardCuts

  predicate Stamps(op: Op) {
    op.Accept? || op.AcceptUpstream?
  }

  predicate Fits(t: Tables, op: Op)
    requires Stamps(op)
  {
    StampFits(t, op.stampId, op.rig, op.subject)
  }

  // ------------------------------------------------------------ cut past the stamp

  lemma AcceptCut(t: Tables, op: Op, after: nat, now: int)
    requires op.Accept? && 1 <= after <= 2
    ensures CutOff(t, op, after, now) ==
            if !Fits(t, op) then t
            else
              var stamp := Stamp(op.rig, op.subject, op.completionId);
              if after == 2 && op.completionId in t.completions then Stamped(t, op.completionId, op.stampId, stamp)
              else t.(stamps := t.stamps[op.stampId := stamp])
  {
    var stmts := Script(op);
    assert stmts[..1] == [stmts[0]];
    assert stmts[..2] == [stmts[0], stmts[1]];
    ExecSingle(t, stmts[0], now);
    if Fits(t, op) {
      ExecPair(t, stmts[0], stmts[1], now);
    } else {
      ExecCons(t, stmts[0], [stmts[1]], now);
      assert [stmts[0]] + [stmts[1]] == [stmts[0], stmts[1]];
    }
  }

  /** Once a script has issued its stamp, running it again stops at the stamp. */
  lemma AcceptAgain(t: Tables, op: Op, after: nat, cut: int, now: int)
    requires op.Accept? && 1 <= after
    ensures var u := CutOff(t, op, after, cut); Transact(u, op, now) == u
  {
    if after <= 2 {
      AcceptCut(t, op, after, cut);
    } else {
      UncutIsTransact(t, op, after, cut);
      AcceptEffect(t, op, cut);
    }
    AcceptEffect(CutOff(t, op, after, cut), op, now);
  }

  lemma AcceptCutBreaks(t: Tables, e: Event, after: nat, cut: int)
    requires Inv(t) && Gated(t, e) && e.op.Accept? && 1 <= after <= 2 && Fits(t, e.op)
    ensures !Inv(CutOff(t, e.op, after, cut))
  {
    var op := e.op;
    var u := CutOff(t, op, after, cut);
    AcceptCut(t, op, after, cut);
    assert CompletionOk(t, op.completionId);
    if after == 1 {
      assert !StampOk(u, op.stampId);
    } else {
      assert !CompletionOk(u, op.completionId);
    }
  }

  lemma AdoptionPrefix(t: Tables, op: Op, rest: seq<Stmt>, now: int)
    requires op.AcceptUpstream?
    ensures var stmts := Script(op);
            ExecAll(t, [stmts[0], stmts[1], stmts[2]] + rest, now) == ExecAll(AdoptedBy(t, op, now), rest, now)
  {
    var stmts := Script(op);
    var t1 := ExecOne(t, stmts[0], now).value;
    var t2 := ExecOne(t1, stmts[1], now).value;
    ExecCons(t, stmts[0], [stmts[1], stmts[2]] + rest, now);
    ExecCons(t1, stmts[1], [stmts[2]] + rest, now);
    ExecCons(t2, stmts[2], rest, now);
    assert [stmts[0], stmts[1], stmts[2]] + rest == [stmts[0]] + ([stmts[1], stmts[2]] + rest);
    assert [stmts[1], stmts[2]] + rest == [stmts[1]] + ([stmts[2]] + rest);
  }

  lemma AcceptUpstreamCut(t: Tables, op: Op, now: int)
    requires op.AcceptUpstream?
    ensures var u := AdoptedBy(t, op, now);
            CutOff(t, op, 4, now) ==
            if Fits(t, op) then u.(stamps := u.stamps[op.stampId := Stamp(op.rig, op.subject, op.completionId)]) else u
  {
    var stmts := Script(op);
    var u := AdoptedBy(t, op, now);
    AdoptionPrefix(t, op, [stmts[3]], now);
    assert stmts[..4] == [stmts[0], stmts[1], stmts[2]] + [stmts[3]];
    ExecSingle(u, stmts[3], now);
  }

  lemma AcceptUpstreamCutBreaks(t: Tables, e: Event, cut: int)
    requires Inv(t) && Gated(t, e) && e.op.AcceptUpstream? && Fits(t, e.op)
    ensures !Inv(CutOff(t, e.op, 4, cut))
  {
    var op := e.op;
    NoStamped(t, op.id);
    AdoptedKeepsInv(t, op.id, op.completionId, op.completedBy, op.evidence, cut);
    AcceptUpstreamCut(t, op, cut);
    assert !StampOk(CutOff(t, op, 4, cut), op.stampId);
  }

  /** The completion is inserted anew, without the stamp that was issued for the old one. */
  lemma ReadoptedLosesStamp(t: Tables, op: Op, now: int)
    requires op.AcceptUpstream? && FreshCompletion(t, op.completionId, op.id) && op.stampId in t.stamps
    requires t.stamps[op.stampId].contextId == op.completionId
    ensures !Inv(Transact(t, op, now))
  {
    AcceptUpstreamSettles(t, op, now);
    assert !StampOk(AdoptedBy(t, op, now), op.stampId);
  }

  lemma AcceptUpstreamAgainBreaks(t: Tables, e: Event, after: nat, cut: int, now: int)
    requires Inv(t) && Gated(t, e) && e.op.AcceptUpstream? && Fits(t, e.op) && after >= 4
    ensures !Inv(Transact(CutOff(t, e.op, after, cut), e.op, now))
  {
    var op := e.op;
    NoStamped(t, op.id);
    AdoptedKeepsInv(t, op.id, op.completionId, op.completedBy, op.evidence, cut);
    if after == 4 {
      AcceptUpstreamCut(t, op, cut);
    } else {
      UncutIsTransact(t, op, after, cut);
      AcceptUpstreamSettles(t, op, cut);
    }
    ReadoptedLosesStamp(CutOff(t, op, after, cut), op, now);
  }

  /** A stamp that is turned down cuts the script off itself. */
  lemma TurnedDownIsCut(t: Tables, op: Op, after: nat, now: int)
    requires op.AcceptUpstream? && !Fits(t, op) && after >= 3
    ensures CutOff(t, op, after, now) == CutOff(t, op, 3, now)
  {
    AdoptionCut(t, op, now);
    if after == 4 {
      AcceptUpstreamCut(t, op, now);
    } else if after > 4 {
      UncutIsTransact(t, op, after, now);
      AcceptUpstreamSettles(t, op, now);
    }
  }

  /** When running the whole script again makes up for a run that was cut off. */
  predicate RetryHeals(t: Tables, op: Op, after: nat) {
    BeforeStamp(op, after) || !Fits(t, op) || (op.Accept? && after >= 3)
  }

  lemma GatedKeepsInv(t: Tables, e: Event, now: int)
    requires Inv(t) && Gated(t, e)
    ensures Inv(Transact(t, e.op, now))
  {
    StepKeepsInv(t, e.(now := now), Transact(t, e.op, now));
  }

  lemma HealedKeepsInv(t: Tables, op: Op, after: nat, cut: int, now: int)
    requires Heals(t, op, after, cut, now) && Inv(Transact(t, op, now))
    ensures Inv(Transact(CutOff(t, op, after, cut), op, now))
  {
    InvIgnoresTimes(Transact(t, op, now), Transact(CutOff(t, op, after, cut), op, now));
  }

  /**
   An operation that the gate lets through is cut off behind any of its statements and then
   run again. That keeps the board invariant if and only if the cut came before the stamp
   was issued, or there was no stamp to issue, or an accept had been through to its end. In
   particular, when the reply to an accepted fork submission is lost, the second run issues
   no stamp but inserts the completion anew, unstamped.
   */
  lemma RetryKeepsInvExactly(t: Tables, e: Event, after: nat, cut: int, now: int)
    requires Inv(t) && Gated(t, e)
    ensures Inv(Transact(CutOff(t, e.op, after, cut), e.op, now)) <==> RetryHeals(t, e.op, after)
  {
    var op := e.op;
    GatedKeepsInv(t, e, now);
    if BeforeStamp(op, after) {
      CutOffHeals(t, op, after, cut, now);
      HealedKeepsInv(t, op, after, cut, now);
    } else if op.Accept? {
      AcceptAgain(t, op, after, cut, now);
      if after >= 3 {
        UncutIsTransact(t, op, after, cut);
        GatedKeepsInv(t, e, cut);
      } else if Fits(t, op) {
        AcceptCutBreaks(t, e, after, cut);
      } else {
        AcceptCut(t, op, after, cut);
      }
    } else if Fits(t, op) {
      AcceptUpstreamAgainBreaks(t, e, after, cut, now);
    } else {
      TurnedDownIsCut(t, op, after, cut);
      CutOffHeals(t, op, 3, cut, now);
      HealedKeepsInv(t, op, 3, cut, now);
    }
  }

  // ------------------------------------------------------------ one run, cut off

  lemma ReplacedKeepsInv(t: Tables, e: Event)
    requires Inv(t) && Gated(t, e) && Adopts(e.op)
    ensures var w := t.wanted[e.op.id];
            Inv(Replaced(t, e.op)) <==> w.status == InReview && w.claimedBy == Some(e.op.completedBy)
  {
    var op := e.op;
    var u, c := Replaced(t, op), op.completionId;
    NoStamped(t, op.id);
    if t.wanted[op.id].status == InReview && t.wanted[op.id].claimedBy == Some(op.completedBy) {
      var row := t.wanted[op.id];
      var bare := row.(status := Withdrawn, claimedBy := None);
      DroppingKeepsInv(t, op.id, bare);
      var v := WithoutCompletions(t, op.id).(wanted := t.wanted[op.id := bare]);
      CompletionKeepsInv(v, op.id, row, c, u.completions[c]);
      assert u == v.(wanted := v.wanted[op.id := row], completions := v.completions[c := u.completions[c]]);
    } else {
      assert !CompletionOk(u, c);
    }
  }

  lemma DroppedKeepsInv(t: Tables, id: Id)
    requires Inv(t) && id in t.wanted && t.wanted[id].status != Completed
    ensures Inv(WithoutCompletions(t, id)) <==> t.wanted[id].status != InReview
  {
    if t.wanted[id].status == InReview {
      assert !ItemOk(WithoutCompletions(t, id), id);
    } else {
      NothingToDrop(t, id);
    }
  }

  lemma AdoptionCutKeepsInv(t: Tables, e: Event, now: int)
    requires Inv(t) && Gated(t, e) && Adopts(e.op)
    ensures Inv(CutOff(t, e.op, 3, now))
  {
    NoStamped(t, e.op.id);
    AdoptionCut(t, e.op, now);
    AdoptedKeepsInv(t, e.op.id, e.op.completionId, e.op.completedBy, e.op.evidence, now);
  }

  predicate AdoptionCutIsHarmless(t: Tables, op: Op, after: nat)
    requires Adopts(op)
  {
    op.id in t.wanted ==>
      var w := t.wanted[op.id];
      && (after == 1 ==> w.status != InReview)
      && (after == 2 ==> w.status == InReview && w.claimedBy == Some(op.completedBy))
  }

  /** Whether the tables are in order between two statements of a script. */
  predicate CutIsHarmless(t: Tables, op: Op, after: nat) {
    match op
    case Done(_, _, _, _) => after != 1
    case Reject(_) => after != 1
    case Accept(_, _, _, _, _) => after == 0 || after >= 3 || !Fits(t, op)
    case AcceptUpstream(id, _, _, _, _, _, _) => AdoptionCutIsHarmless(t, op, after) && (after == 4 ==> !Fits(t, op))
    case CloseUpstream(id, _, _, _) => AdoptionCutIsHarmless(t, op, after)
    case _ => true
  }

  lemma AdoptingCutKeepsInvExactly(t: Tables, e: Event, after: nat, now: int)
    requires Inv(t) && Gated(t, e) && Adopts(e.op) && 0 < after < |Script(e.op)|
    ensures Inv(CutOff(t, e.op, after, now)) <==> CutIsHarmless(t, e.op, after)
  {
    var op := e.op;
    AdoptionCut(t, op, now);
    AdoptionCutKeepsInv(t, e, now);
    if after == 1 {
      DroppedKeepsInv(t, op.id);
    } else if after == 2 {
      ReplacedKeepsInv(t, e);
    } else if after == 4 {
      if Fits(t, op) { AcceptUpstreamCutBreaks(t, e, now); } else { TurnedDownIsCut(t, op, 4, now); }
    }
  }

  /** The writes of an operation that the gate lets through stop behind any of them. That
      keeps the board invariant if and only if the cut is harmless; otherwise the whole
      script has to run again (RetryKeepsInvExactly). */
  lemma CutKeepsInvExactly(t: Tables, e: Event, after: nat, now: int)
    requires Inv(t) && Gated(t, e)
    ensures Inv(CutOff(t, e.op, after, now)) <==> CutIsHarmless(t, e.op, after)
  {
    var op := e.op;
    if after == 0 {
      CutAtOnce(t, op, now);
    } else if after >= |Script(op)| {
      UncutIsTransact(t, op, after, now);
      GatedKeepsInv(t, e, now);
    } else if op.Done? {
      DoneCut(t, op, now);
      InvMeans(t, op.id);
      assert !ItemOk(CutOff(t, op, 1, now), op.id);
    } else if op.Reject? {
      RejectCut(t, op.id, now);
      DroppedKeepsInv(t, op.id);
    } else if op.Accept? {
      AcceptCut(t, op, after, now);
      if Fits(t, op) { AcceptCutBreaks(t, e, after, now); }
    } else {
      AdoptingCutKeepsInvExactly(t, e, after, now);
    }
  }
}

/** What the retry loop reports, and what it has done. */
module BoardReports {
  import opened Wrappers
  import opened BoardTables
  import opened BoardScripts
  import opened BoardEffects
  import opened BoardCuts
  import opened BoardRetries

  lemma OneAlike(a: Tables, b: Tables, s: Stmt, m: int, n: int)
    requires SameButTimes(a, b)
    ensures ExecOne(a, s, m).Some? == ExecOne(b, s, n).Some?
    ensures ExecOne(a, s, m).Some? ==> SameButTimes(ExecOne(a, s, m).value, ExecOne(b, s, n).value)
  {
    match s
    case InsertWanted(_, _) =>
    case UpdateWanted(id, _, _, _) => assert id in a.wanted ==> SameRow(a.wanted[id], b.wanted[id]);
    case InsertCompletionSelect(_, id, _, _) =>
      assert id in a.wanted ==> SameRow(a.wanted[id], b.wanted[id]);
      assert HasCompletion(a, id) == HasCompletion(b, id);
    case _ =>
  }

  lemma {:induction false} AllAlike(a: Tables, b: Tables, stmts: seq<Stmt>, m: int, n: int)
    requires SameButTimes(a, b)
    ensures SameButTimes(ExecAll(a, stmts, m).tables, ExecAll(b, stmts, n).tables)
    decreases |stmts|
  {
    if stmts != [] {
      OneAlike(a, b, stmts[0], m, n);
      if ExecOne(a, stmts[0], m).Some? {
        AllAlike(ExecOne(a, stmts[0], m).value, ExecOne(b, stmts[0], n).value, stmts[1..], m, n);
      }
    }
  }

  lemma {:induction false} UnstampedScript(t: Tables, stmts: seq<Stmt>, now: int)
    requires forall i :: 0 <= i < |stmts| ==> !stmts[i].InsertStamp?
    ensures ExecAll(t, stmts, now).tables.stamps == t.stamps
    decreases |stmts|
  {
    if stmts != [] && ExecOne(t, stmts[0], now).Some? {
      UnstampedScript(ExecOne(t, stmts[0], now).value, stmts[1..], now);
    }
  }

  /** No attempt was disturbed after a stamp was issued. */
  predicate Safe(op: Op, a: Attempt) {
    match a.fate
    case Undisturbed => true
    case Killed(after) => BeforeStamp(op, after)
    case ReplyLost => !Stamps(op)
  }

  lemma CutKeepsStamps(t: Tables, op: Op, after: nat, now: int)
    requires BeforeStamp(op, after)
    ensures CutOff(t, op, after, now).stamps == t.stamps
  {
    UnstampedScript(t, Cut(Script(op), after), now);
  }

  lemma AcceptFails(t: Tables, op: Op, now: int)
    requires op.Accept?
    ensures ExecAll(t, Script(op), now).failed <==> !Fits(t, op)
  {
    var stmts := Script(op);
    if Fits(t, op) {
      ExecTriple(t, stmts[0], stmts[1], stmts[2], now);
    } else {
      ExecCons(t, stmts[0], stmts[1..], now);
      assert [stmts[0]] + stmts[1..] == stmts;
    }
  }

  /** A script that fails was cut off before its stamp; one that issues a stamp has
      something to commit. */
  lemma UncommittedIsCut(d: Clone, op: Op, now: int)
    requires Stamps(op) && d.working.stamps == d.head.stamps
    requires !Try(d, Script(op), Attempt(Undisturbed, now)).1.Committed?
    ensures Try(d, Script(op), Attempt(Undisturbed, now)).0 ==
            d.(working := CutOff(d.working, op, if op.Accept? then 0 else 3, now))
  {
    var t := d.working;
    if op.Accept? {
      CutAtOnce(t, op, now);
      AcceptFails(t, op, now);
      AcceptEffect(t, op, now);
    } else {
      AdoptionCut(t, op, now);
      AcceptUpstreamEffect(t, op, now);
    }
  }

  /** An attempt that reports no commit leaves the clone where running the script has the
      same effect as before. */
  lemma TryAgain(d: Clone, op: Op, a: Attempt, now: int)
    requires d.working.stamps == d.head.stamps && Safe(op, a) && !Try(d, Script(op), a).1.Committed?
    ensures var e := Try(d, Script(op), a).0;
            && e.working.stamps == e.head.stamps
            && SameButTimes(Transact(e.working, op, now), Transact(d.working, op, now))
  {
    var t := d.working;
    if a.fate.Killed? {
      CutKeepsStamps(t, op, a.fate.after, a.now);
      CutOffHeals(t, op, a.fate.after, a.now, now);
    } else if Stamps(op) {
      var j := if op.Accept? then 0 else 3;
      UncommittedIsCut(d, op, a.now);
      CutKeepsStamps(t, op, j, a.now);
      CutOffHeals(t, op, j, a.now, now);
    } else {
      UncutIsTransact(t, op, |Script(op)|, a.now);
      CutKeepsStamps(t, op, |Script(op)|, a.now);
      CutOffHeals(t, op, |Script(op)|, a.now, now);
    }
  }

  /** An attempt that reports a commit or a conflict has committed what it did. */
  lemma TryReports(d: Clone, op: Op, a: Attempt, now: int)
    requires !Try(d, Script(op), a).1.Failed?
    ensures var e := Try(d, Script(op), a).0;
            e.working == e.head && SameButTimes(e.head, Transact(d.working, op, now))
  {
    AllAlike(d.working, d.working, Script(op), a.now, now);
  }

  lemma {:induction false} TriesReport(d: Clone, op: Op, attempts: seq<Attempt>, now: int)
    requires attempts != [] && d.working.stamps == d.head.stamps
    requires forall i :: 0 <= i < |attempts| ==> Safe(op, attempts[i])
    ensures var (e, outcome) := Tries(d, Script(op), attempts);
            outcome.Failed? || (e.working == e.head && SameButTimes(e.head, Transact(d.working, op, now)))
    decreases |attempts|
  {
    var (e, outcome) := Try(d, Script(op), attempts[0]);
    if outcome.Committed? || |attempts| == 1 {
      if !outcome.Failed? { TryReports(d, op, attempts[0], now); }
    } else {
      TryAgain(d, op, attempts[0], now);
      TriesReport(e, op, attempts[1..], now);
      var r := Tries(e, Script(op), attempts[1..]);
      if !r.1.Failed? { SameTrans(r.0.head, Transact(e.working, op, now), Transact(d.working, op, now)); }
    }
  }

  /**
   Runs may be killed behind any statement, or lose their reply, as long as no stamp was
   issued. Once the retries report a commit or a conflict, what is committed is what one
   undisturbed run of the operation does to the tables, but for the times in them.
   */
  lemma ReportedRunsAreOneRun(t: Tables, op: Op, attempts: seq<Attempt>, now: int)
    requires attempts != [] && forall i :: 0 <= i < |attempts| ==> Safe(op, attempts[i])
    ensures var (e, outcome) := Mutated(Clone(t, t), op, attempts);
            outcome.Failed? || (e.working == e.head && SameButTimes(e.head, Transact(t, op, now)))
  {
    if Statements(op).Some? { TriesReport(Clone(t, t), op, attempts, now); }
  }

  /** Unless a reply was lost, nothing is committed that is not reported; and a conflict
      means that the operation had no effect. */
  lemma {:induction false} ReportsAreHonest(d: Clone, stmts: seq<Stmt>, attempts: seq<Attempt>)
    requires attempts != [] && forall i :: 0 <= i < |attempts| ==> !attempts[i].fate.ReplyLost?
    ensures var (e, outcome) := Tries(d, stmts, attempts);
            && (!outcome.Committed? ==> e.head == d.head)
            && (outcome.Conflict? ==> e.working == e.head)
    decreases |attempts|
  {
    var (e, outcome) := Try(d, stmts, attempts[0]);
    if !outcome.Committed? && |attempts| > 1 { ReportsAreHonest(e, stmts, attempts[1..]); }
  }

  /** When the reply to a claim is lost, the next run finds nothing to do, and a claim that
      went through is reported as a conflict. */
  lemma LostReplyLooksLikeConflict(t: Tables, id: Id, rig: string, m: int, n: int, k: int)
    requires id in t.wanted && t.wanted[id].status == Open
    ensures var u := Transact(t, Claim(id, rig), m);
            && id in u.wanted && u.wanted[id].status == Claimed && u.wanted[id].claimedBy == Some(rig)
            && Mutated(Clone(t, t), Claim(id, rig),
                       [Attempt(ReplyLost, m), Attempt(Undisturbed, n), Attempt(Undisturbed, k)])
               == (Clone(u, u), Conflict)
  {
    var op := Claim(id, rig);
    var u := Transact(t, op, m);
    var stmts := Script(op);
    OneStatement(t, op, m);
    OneStatement(u, op, n);
    OneStatement(u, op, k);
    ExecSingle(t, stmts[0], m);
    ExecSingle(u, stmts[0], n);
    ExecSingle(u, stmts[0], k);
    assert u.wanted[id] != t.wanted[id];
    var a, b, c := Attempt(ReplyLost, m), Attempt(Undisturbed, n), Attempt(Undisturbed, k);
    assert Try(Clone(t, t), stmts, a) == (Clone(u, u), Failed);
    assert Try(Clone(u, u), stmts, b) == (Clone(u, u), Conflict);
    assert Try(Clone(u, u), stmts, c) == (Clone(u, u), Conflict);
    assert [a, b, c][1..] == [b, c] && [b, c][1..] == [c];
    assert Tries(Clone(u, u), stmts, [c]) == (Clone(u, u), Conflict);
    assert Tries(Clone(u, u), stmts, [b, c]) == (Clone(u, u), Conflict);
  }
}
