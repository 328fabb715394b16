/** What every run of the wanted board keeps, and what the statements guarantee alone. */
module BoardInvariant {
  import opened Wrappers
  import opened BoardTables

  /** Claimers and completions follow the status. */
  predicate ItemOk(t: Tables, id: Id)
    requires id in t.wanted
  {
    var w := t.wanted[id];
    match w.status
    case Open => w.claimedBy.None?
    case Withdrawn => w.claimedBy.None?
    case Claimed => w.claimedBy.Some?
    case InReview => HasCompletion(t, id)
    case Completed => HasCompletion(t, id)
  }

  /** A completion is the only one of an item under review or completed, is by its
      claimer, and is stamped only once the item is completed. */
  ghost predicate CompletionOk(t: Tables, c: Id)
    requires c in t.completions
  {
    var k := t.completions[c];
    && k.wantedId in t.wanted
    && var w := t.wanted[k.wantedId];
    && (w.status == InReview || w.status == Completed)
    && w.claimedBy == Some(k.completedBy)
    && (w.status == InReview ==> k.stampId.None?)
    && (k.stampId.Some? ==> k.stampId.value in t.stamps && t.stamps[k.stampId.value].contextId == c)
    && (forall d :: d in t.completions && t.completions[d].wantedId == k.wantedId ==> d == c)
  }

  /** A stamp is about a completion that names it, by someone other than the completer. */
  predicate StampOk(t: Tables, s: Id)
    requires s in t.stamps
  {
    var c := t.stamps[s].contextId;
    c in t.completions && t.completions[c].stampId == Some(s) && t.stamps[s].author != t.completions[c].completedBy
  }

  ghost predicate Inv(t: Tables) {
    && (forall id {:trigger ItemOk(t, id)} :: id in t.wanted ==> ItemOk(t, id))
    && (forall c {:trigger CompletionOk(t, c)} :: c in t.completions ==> CompletionOk(t, c))
    && (forall s {:trigger StampOk(t, s)} :: s in t.stamps ==> StampOk(t, s))
  }

  /** The invariant in the words of the design. */
  lemma InvMeans(t: Tables, id: Id)
    requires Inv(t) && id in t.wanted
    ensures var w := t.wanted[id];
            && (w.status == Open || w.status == Withdrawn ==> w.claimedBy.None? && !HasCompletion(t, id))
            && (w.status == Claimed ==> w.claimedBy.Some? && !HasCompletion(t, id))
            && (w.status == InReview || w.status == Completed ==>
                  exists c :: && c in t.completions && t.completions[c].wantedId == id
                              && w.claimedBy == Some(t.completions[c].completedBy)
                              && forall d :: d in t.completions && t.completions[d].wantedId == id ==> d == c)
  {
    assert ItemOk(t, id);
    if HasCompletion(t, id) {
      var c :| c in t.completions && t.completions[c].wantedId == id;
      assert CompletionOk(t, c);
    }
  }

  /** Stamps and stamped completions are in one-to-one correspondence. */
  lemma StampsMatchCompletions(t: Tables, s: Id, c: Id)
    requires Inv(t)
    ensures s in t.stamps && t.stamps[s].contextId == c <==>
            c in t.completions && t.completions[c].stampId == Some(s)
  {
    if s in t.stamps { assert StampOk(t, s); }
    if c in t.completions { assert CompletionOk(t, c); }
  }

  // ---------------------------------------------------------- shapes of change

  /** Replacing one row of an item that has no completion and gets none. */
  lemma RowKeepsInv(t: Tables, id: Id, w: Wanted)
    requires Inv(t) && (id in t.wanted ==> t.wanted[id].status != InReview && t.wanted[id].status != Completed)
    requires w.status == Open || w.status == Withdrawn ==> w.claimedBy.None?
    requires w.status == Claimed ==> w.claimedBy.Some?
    requires w.status != InReview && w.status != Completed
    ensures Inv(t.(wanted := t.wanted[id := w]))
  {
    var u := t.(wanted := t.wanted[id := w]);
    forall i | i in u.wanted ensures ItemOk(u, i) {
      if i != id { assert ItemOk(t, i); }
    }
    forall c | c in u.completions ensures CompletionOk(u, c) {
      assert CompletionOk(t, c);
    }
    forall s | s in u.stamps ensures StampOk(u, s) {
      assert StampOk(t, s);
    }
  }

  /** Completing an item under review, with or without other columns changing. */
  lemma CompletingKeepsInv(t: Tables, id: Id, w: Wanted)
    requires Inv(t) && id in t.wanted && t.wanted[id].status == InReview
    requires w.status == Completed && w.claimedBy == t.wanted[id].claimedBy
    ensures Inv(t.(wanted := t.wanted[id := w]))
  {
    var u := t.(wanted := t.wanted[id := w]);
    forall i | i in u.wanted ensures ItemOk(u, i) {
      assert ItemOk(t, i);
      if HasCompletion(t, i) {
        var c :| c in t.completions && t.completions[c].wantedId == i;
        assert c in u.completions;
      }
    }
    forall c | c in u.completions ensures CompletionOk(u, c) {
      assert CompletionOk(t, c);
    }
    forall s | s in u.stamps ensures StampOk(u, s) {
      assert StampOk(t, s);
    }
  }

  function WithoutCompletions(t: Tables, id: Id): Tables {
    t.(completions := map c | c in t.completions && t.completions[c].wantedId != id :: t.completions[c])
  }

  /** Dropping the unstamped completions of an item whose row is replaced. */
  lemma DroppingKeepsInv(t: Tables, id: Id, w: Wanted)
    requires Inv(t)
    requires forall c :: c in t.completions && t.completions[c].wantedId == id ==> t.completions[c].stampId.None?
    requires w.status == Open || w.status == Withdrawn ==> w.claimedBy.None?
    requires w.status == Claimed ==> w.claimedBy.Some?
    requires w.status != InReview && w.status != Completed
    ensures Inv(WithoutCompletions(t, id).(wanted := t.wanted[id := w]))
  {
    var u := WithoutCompletions(t, id).(wanted := t.wanted[id := w]);
    forall i | i in u.wanted ensures ItemOk(u, i) {
      if i != id {
        assert ItemOk(t, i);
        if HasCompletion(t, i) {
          var c :| c in t.completions && t.completions[c].wantedId == i;
          assert c in u.completions;
        }
      }
    }
    forall c | c in u.completions ensures CompletionOk(u, c) {
      assert CompletionOk(t, c);
    }
    forall s | s in u.stamps ensures StampOk(u, s) {
      assert StampOk(t, s);
    }
  }

  /** A fresh completion for an item that had none. */
  lemma CompletionKeepsInv(t: Tables, id: Id, w: Wanted, c: Id, k: Completion)
    requires Inv(t) && c !in t.completions && !HasCompletion(t, id)
    requires k.wantedId == id && k.stampId.None? && w.claimedBy == Some(k.completedBy)
    requires w.status == InReview || w.status == Completed
    ensures Inv(t.(wanted := t.wanted[id := w], completions := t.completions[c := k]))
  {
    var u := t.(wanted := t.wanted[id := w], completions := t.completions[c := k]);
    forall i | i in u.wanted ensures ItemOk(u, i) {
      if i == id {
        assert c in u.completions;
      } else {
        assert ItemOk(t, i);
        if HasCompletion(t, i) {
          var d :| d in t.completions && t.completions[d].wantedId == i;
          assert d in u.completions && u.completions[d].wantedId == i;
        }
      }
    }
    forall d | d in u.completions ensures CompletionOk(u, d) {
      if d != c { assert CompletionOk(t, d); }
    }
    forall s | s in u.stamps ensures StampOk(u, s) {
      assert StampOk(t, s);
    }
  }

  function Stamped(t: Tables, c: Id, s: Id, stamp: Stamp): Tables
    requires c in t.completions
  {
    t.(stamps := t.stamps[s := stamp],
       completions := t.completions[c := t.completions[c].(validatedBy := Some(stamp.author), stampId := Some(s))])
  }

  /** A fresh stamp on the unstamped completion of a completed item. */
  lemma StampingKeepsInv(t: Tables, c: Id, s: Id, stamp: Stamp)
    requires Inv(t) && c in t.completions && s !in t.stamps && t.completions[c].stampId.None?
    requires t.completions[c].wantedId in t.wanted && t.wanted[t.completions[c].wantedId].status == Completed
    requires stamp.contextId == c && stamp.author != t.completions[c].completedBy
    ensures Inv(Stamped(t, c, s, stamp))
  {
    var u := Stamped(t, c, s, stamp);
    forall i | i in u.wanted ensures ItemOk(u, i) {
      assert ItemOk(t, i);
      if HasCompletion(t, i) {
        var d :| d in t.completions && t.completions[d].wantedId == i;
        assert d in u.completions && u.completions[d].wantedId == i;
      }
    }
    forall d | d in u.completions ensures CompletionOk(u, d) {
      assert CompletionOk(t, d);
      forall e | e in u.completions && u.completions[e].wantedId == u.completions[d].wantedId ensures e == d {
        assert e in t.completions && t.completions[e].wantedId == t.completions[d].wantedId;
      }
    }
    forall x | x in u.stamps ensures StampOk(u, x) {
      if x != s { assert StampOk(t, x); }
    }
  }
}
