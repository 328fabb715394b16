/**
 The wanted board: the tables of schema/commons.sql, the statements built by the DML
 functions of internal/commons/commons.go, and the transition gate of
 internal/commons/lifecycle.go.
 */
module BoardTables {
  import opened Wrappers

  type Id = string

  datatype Status = Open | Claimed | InReview | Completed | Withdrawn

  datatype Details = Details(
    title: string, description: string, project: string, kind: string,
    priority: int, effort: string, tags: seq<string>)

  /** A row of `wanted`; None is NULL. */
  datatype Wanted = Wanted(
    details: Details,
    postedBy: Option<string>,
    claimedBy: Option<string>,
    status: Status,
    evidence: Option<string>,
    updatedAt: int)

  datatype Completion = Completion(
    wantedId: Id, completedBy: string, evidence: string,
    validatedBy: Option<string>, stampId: Option<Id>)

  datatype Stamp = Stamp(author: string, subject: string, contextId: Id)

  datatype Tables = Tables(
    wanted: map<Id, Wanted>, completions: map<Id, Completion>, stamps: map<Id, Stamp>)

  // ------------------------------------------------------------- statements

  /** The SET list of an UPDATE; None leaves a column alone. */
  datatype Changes = Changes(
    status: Option<Status>,
    claimedBy: Option<Option<string>>,
    evidence: Option<string>,
    details: Option<WantedUpdate>)

  /** Empty strings and negative priorities are not set. */
  datatype WantedUpdate = WantedUpdate(
    title: string, description: string, project: string, kind: string,
    priority: int, effort: string, tags: Option<seq<string>>)

  datatype Stmt =
    | InsertWanted(id: Id, row: Wanted)
    | UpdateWanted(id: Id, whereStatus: Option<Status>, whereClaimant: Option<string>, set_: Changes)
    | InsertCompletionSelect(id: Id, wantedId: Id, completedBy: string, evidence: string)
    | InsertIgnoreCompletion(id: Id, wantedId: Id, completedBy: string, evidence: string)
    | DeleteCompletions(wantedId: Id)
    | InsertStamp(id: Id, stamp: Stamp)
    | ValidateCompletion(id: Id, validatedBy: string, stampId: Id)

  function Or(new_: string, old_: string): string {
    if new_ != "" then new_ else old_
  }

  function Updated(d: Details, u: WantedUpdate): Details {
    Details(Or(u.title, d.title), Or(u.description, d.description), Or(u.project, d.project), Or(u.kind, d.kind),
            if u.priority >= 0 then u.priority else d.priority, Or(u.effort, d.effort), u.tags.GetOr(d.tags))
  }

  predicate HasCompletion(t: Tables, wantedId: Id) {
    exists c :: c in t.completions && t.completions[c].wantedId == wantedId
  }

  function Changed(w: Wanted, c: Changes, now: int): Wanted {
    Wanted(
      if c.details.Some? then Updated(w.details, c.details.value) else w.details,
      w.postedBy,
      c.claimedBy.GetOr(w.claimedBy),
      c.status.GetOr(w.status),
      if c.evidence.Some? then c.evidence else w.evidence,
      now)
  }

  predicate Selects(w: Wanted, status: Option<Status>, claimant: Option<string>) {
    (status.Some? ==> w.status == status.value) && (claimant.Some? ==> w.claimedBy == claimant)
  }

  function InsertIgnore(t: Tables, id: Id, row: Completion): Tables {
    if id in t.completions then t else t.(completions := t.completions[id := row])
  }

  /** One statement; None is an SQL error (duplicate key, or a stamp for its own author). */
  function ExecOne(t: Tables, s: Stmt, now: int): Option<Tables> {
    match s
    case InsertWanted(id, row) =>
      if id in t.wanted then None else Some(t.(wanted := t.wanted[id := row.(updatedAt := now)]))
    case UpdateWanted(id, status, claimant, c) =>
      if id in t.wanted && Selects(t.wanted[id], status, claimant)
      then Some(t.(wanted := t.wanted[id := Changed(t.wanted[id], c, now)]))
      else Some(t)
    case InsertCompletionSelect(id, wantedId, who, evidence) =>
      if wantedId in t.wanted && Selects(t.wanted[wantedId], Some(InReview), Some(who)) && !HasCompletion(t, wantedId)
      then Some(InsertIgnore(t, id, Completion(wantedId, who, evidence, None, None)))
      else Some(t)
    case InsertIgnoreCompletion(id, wantedId, who, evidence) =>
      Some(InsertIgnore(t, id, Completion(wantedId, who, evidence, None, None)))
    case DeleteCompletions(wantedId) =>
      Some(t.(completions := map c | c in t.completions && t.completions[c].wantedId != wantedId :: t.completions[c]))
    case InsertStamp(id, stamp) =>
      if id in t.stamps || stamp.author == stamp.subject then None else Some(t.(stamps := t.stamps[id := stamp]))
    case ValidateCompletion(id, who, stampId) =>
      if id in t.completions
      then
        Some(t.(completions :=
                  t.completions[id := t.completions[id].(validatedBy := Some(who), stampId := Some(stampId))]))
      else Some(t)
  }

  /** `failed` says that a statement was an error; the ones before it stay applied. */
  datatype Executed = Executed(tables: Tables, failed: bool)

  function ExecAll(t: Tables, stmts: seq<Stmt>, now: int): Executed
    decreases |stmts|
  {
    if stmts == [] then Executed(t, false)
    else
      var next := ExecOne(t, stmts[0], now);
      if next.None? then Executed(t, true) else ExecAll(next.value, stmts[1..], now)
  }

  // --------------------------------------------------------------- builders

  const NO_CHANGES := Changes(None, None, None, None)

  function InsertWantedDML(id: Id, details: Details, postedBy: Option<string>, status: Option<Status>): seq<Stmt> {
    [InsertWanted(id, Wanted(details, postedBy, None, status.GetOr(Open), None, 0))]
  }

  function ClaimWantedDML(id: Id, rig: string): seq<Stmt> {
    [UpdateWanted(id, Some(Open), None, NO_CHANGES.(claimedBy := Some(Some(rig)), status := Some(Claimed)))]
  }

  function UnclaimWantedDML(id: Id): seq<Stmt> {
    [UpdateWanted(id, Some(Claimed), None, NO_CHANGES.(claimedBy := Some(None), status := Some(Open)))]
  }

  function SubmitCompletionDML(completionId: Id, id: Id, rig: string, evidence: string): seq<Stmt> {
    [UpdateWanted(id, Some(Claimed), Some(rig), NO_CHANGES.(status := Some(InReview), evidence := Some(evidence))),
     InsertCompletionSelect(completionId, id, rig, evidence)]
  }

  function AcceptCompletionDML(id: Id, completionId: Id, rig: string, stampId: Id, subject: string): seq<Stmt> {
    [InsertStamp(stampId, Stamp(rig, subject, completionId)),
     ValidateCompletion(completionId, rig, stampId),
     UpdateWanted(id, Some(InReview), None, NO_CHANGES.(status := Some(Completed)))]
  }

  function AdoptChanges(completedBy: string, evidence: string): Changes {
    NO_CHANGES.(status := Some(Completed), claimedBy := Some(Some(completedBy)), evidence := Some(evidence))
  }

  function AcceptUpstreamDML(
    id: Id, completionId: Id, completedBy: string, evidence: string, rig: string, stampId: Id, subject: string)
    : seq<Stmt>
  {
    [DeleteCompletions(id),
     InsertIgnoreCompletion(completionId, id, completedBy, evidence),
     UpdateWanted(id, None, None, AdoptChanges(completedBy, evidence)),
     InsertStamp(stampId, Stamp(rig, subject, completionId)),
     ValidateCompletion(completionId, rig, stampId)]
  }

  function CloseUpstreamDML(id: Id, completionId: Id, completedBy: string, evidence: string): seq<Stmt> {
    [DeleteCompletions(id),
     InsertIgnoreCompletion(completionId, id, completedBy, evidence),
     UpdateWanted(id, None, None, AdoptChanges(completedBy, evidence))]
  }

  /** None when no field is set. */
  function UpdateWantedDML(id: Id, u: WantedUpdate): Option<seq<Stmt>> {
    if && u.title == "" && u.description == "" && u.project == "" && u.kind == ""
       && u.priority < 0 && u.effort == "" && u.tags.None?
    then None
    else Some([UpdateWanted(id, Some(Open), None, NO_CHANGES.(details := Some(u)))])
  }

  function CloseWantedDML(id: Id): seq<Stmt> {
    [UpdateWanted(id, Some(InReview), None, NO_CHANGES.(status := Some(Completed)))]
  }

  function DeleteWantedDML(id: Id): seq<Stmt> {
    [UpdateWanted(id, Some(Open), None, NO_CHANGES.(status := Some(Withdrawn)))]
  }

  function RejectCompletionDML(id: Id): seq<Stmt> {
    [DeleteCompletions(id), UpdateWanted(id, Some(InReview), None, NO_CHANGES.(status := Some(Claimed)))]
  }

  // ------------------------------------------------------------- operations

  datatype Op =
    | Post(id: Id, details: Details, postedBy: Option<string>)
    | Claim(id: Id, rig: string)
    | Unclaim(id: Id)
    | Done(id: Id, completionId: Id, rig: string, evidence: string)
    | Accept(id: Id, completionId: Id, rig: string, stampId: Id, subject: string)
    | Reject(id: Id)
    | Close(id: Id)
    | Update(id: Id, fields: WantedUpdate)
    | Delete(id: Id)
    | AcceptUpstream(
        id: Id, completionId: Id, completedBy: string, evidence: string, rig: string, stampId: Id, subject: string)
    | CloseUpstream(id: Id, completionId: Id, completedBy: string, evidence: string)

  /** The statements an operation runs; None when it is refused before reaching the database. */
  function Statements(op: Op): Option<seq<Stmt>> {
    match op
    case Post(id, details, who) =>
      if id == "" || details.title == "" then None else Some(InsertWantedDML(id, details, who, None))
    case Claim(id, rig) => Some(ClaimWantedDML(id, rig))
    case Unclaim(id) => Some(UnclaimWantedDML(id))
    case Done(id, c, rig, evidence) => Some(SubmitCompletionDML(c, id, rig, evidence))
    case Accept(id, c, rig, s, subject) => Some(AcceptCompletionDML(id, c, rig, s, subject))
    case Reject(id) => Some(RejectCompletionDML(id))
    case Close(id) => Some(CloseWantedDML(id))
    case Update(id, u) => UpdateWantedDML(id, u)
    case Delete(id) => Some(DeleteWantedDML(id))
    case AcceptUpstream(id, c, who, evidence, rig, s, subject) =>
      Some(AcceptUpstreamDML(id, c, who, evidence, rig, s, subject))
    case CloseUpstream(id, c, who, evidence) => Some(CloseUpstreamDML(id, c, who, evidence))
  }

  datatype Outcome = Committed | Conflict | Failed

  /** What an operation makes of the tables. */
  function Transact(t: Tables, op: Op, now: int): Tables {
    var stmts := Statements(op);
    if stmts.None? then t else ExecAll(t, stmts.value, now).tables
  }

  /** A script that changes nothing has nothing to commit. */
  function OutcomeOf(t: Tables, op: Op, now: int): Outcome {
    var stmts := Statements(op);
    if stmts.None? || ExecAll(t, stmts.value, now).failed then Failed
    else if ExecAll(t, stmts.value, now).tables == t then Conflict
    else Committed
  }
}

/** Scripts of the local tool, which runs them with dolt and retries every error: a clone of
    the database has uncommitted tables and a last commit. */
module BoardScripts {
  import opened BoardTables

  datatype Clone = Clone(working: Tables, head: Tables)

  /** A run may be killed between two statements, or behind its commit. */
  datatype Fate = Undisturbed | Killed(after: nat) | ReplyLost

  datatype Attempt = Attempt(fate: Fate, now: int)

  const MAX_ATTEMPTS := 3

  /** A script cut off behind `after` statements. */
  function Cut(stmts: seq<Stmt>, after: nat): seq<Stmt> {
    if after < |stmts| then stmts[..after] else stmts
  }

  /** One run of a script and its commit, which is an error when there is nothing to commit. */
  function Try(d: Clone, stmts: seq<Stmt>, a: Attempt): (Clone, Outcome) {
    if a.fate.Killed? then (d.(working := ExecAll(d.working, Cut(stmts, a.fate.after), a.now).tables), Failed)
    else
      var done := ExecAll(d.working, stmts, a.now);
      var c := d.(working := done.tables);
      if done.failed then (c, Failed)
      else if done.tables == d.head then (c, if a.fate.ReplyLost? then Failed else Conflict)
      else (c.(head := done.tables), if a.fate.ReplyLost? then Failed else Committed)
  }

  /** Errors of every kind are retried, and the last one is reported. */
  function Tries(d: Clone, stmts: seq<Stmt>, attempts: seq<Attempt>): (Clone, Outcome)
    requires attempts != []
    decreases |attempts|
  {
    var first := Try(d, stmts, attempts[0]);
    if first.1.Committed? || |attempts| == 1 then first else Tries(first.0, stmts, attempts[1..])
  }

  /** An operation that is refused does not reach the database. */
  function Mutated(d: Clone, op: Op, attempts: seq<Attempt>): (Clone, Outcome)
    requires attempts != []
  {
    var stmts := Statements(op);
    if stmts.None? then (d, Failed) else Tries(d, stmts.value, attempts)
  }

  /** In a clean clone and undisturbed, one run has the outcome of the operation. */
  lemma UndisturbedRun(t: Tables, op: Op, now: int)
    ensures var r := Mutated(Clone(t, t), op, [Attempt(Undisturbed, now)]);
            r.0.working == Transact(t, op, now) && r.1 == OutcomeOf(t, op, now)
  {
  }
}

module BoardImpl {
  import opened BoardTables
  import opened BoardScripts

  class Database {
    var working: Tables
    var head: Tables

    function Value(): Clone
      reads this
    {
      Clone(working, head)
    }

    constructor (t: Tables)
      ensures Value() == Clone(t, t)
    {
      working, head := t, t;
    }

    /** Statement by statement and without a transaction, up to an error. */
    method Run(stmts: seq<Stmt>, now: int) returns (failed: bool)
      modifies this`working
      ensures ExecAll(old(working), stmts, now) == Executed(working, failed)
    {
      ghost var before := working;
      var i := 0;
      assert stmts[0..] == stmts;
      while i < |stmts|
        invariant 0 <= i <= |stmts|
        invariant ExecAll(working, stmts[i..], now) == ExecAll(before, stmts, now)
      {
        var next := ExecOne(working, stmts[i], now);
        assert stmts[i..][1..] == stmts[i + 1..];
        if next.None? {
          return true;
        }
        working := next.value;
        i := i + 1;
      }
      return false;
    }

    method TryOnce(stmts: seq<Stmt>, a: Attempt) returns (outcome: Outcome)
      modifies this
      ensures (Value(), outcome) == Try(old(Value()), stmts, a)
    {
      if a.fate.Killed? {
        var _ := Run(Cut(stmts, a.fate.after), a.now);
        return Failed;
      }
      var failed := Run(stmts, a.now);
      if failed {
        return Failed;
      }
      outcome := if working == head then Conflict else Committed;
      head := working;
      if a.fate.ReplyLost? {
        outcome := Failed;
      }
    }

    method Exec(stmts: seq<Stmt>, attempts: seq<Attempt>) returns (outcome: Outcome)
      requires |attempts| == MAX_ATTEMPTS
      modifies this
      ensures (Value(), outcome) == Tries(old(Value()), stmts, attempts)
    {
      var i := 0;
      assert attempts[0..] == attempts;
      while true
        invariant 0 <= i < MAX_ATTEMPTS
        invariant Tries(Value(), stmts, attempts[i..]) == Tries(old(Value()), stmts, attempts)
        decreases MAX_ATTEMPTS - i
      {
        outcome := TryOnce(stmts, attempts[i]);
        if outcome.Committed? || i == MAX_ATTEMPTS - 1 {
          return;
        }
        assert attempts[i..][1..] == attempts[i + 1..];
        i := i + 1;
      }
    }

    /** The wrapper of one operation, which reports "nothing to commit" as a conflict. */
    method Mutate(op: Op, attempts: seq<Attempt>) returns (outcome: Outcome)
      requires |attempts| == MAX_ATTEMPTS
      modifies this
      ensures (Value(), outcome) == Mutated(old(Value()), op, attempts)
    {
      var stmts := Statements(op);
      if stmts.None? {
        return Failed;
      }
      outcome := Exec(stmts.value, attempts);
    }
  }
}

module Lifecycle {
  import opened Wrappers
  import opened BoardTables

  datatype Transition = TClaim | TUnclaim | TDone | TAccept | TReject | TClose | TDelete | TUpdate

  datatype Rule = Rule(source: Status, target: Status)

  function TransitionRule(t: Transition): Rule {
    match t
    case TClaim => Rule(Open, Claimed)
    case TUnclaim => Rule(Claimed, Open)
    case TDone => Rule(Claimed, InReview)
    case TAccept => Rule(InReview, Completed)
    case TReject => Rule(InReview, Claimed)
    case TClose => Rule(InReview, Completed)
    case TDelete => Rule(Open, Withdrawn)
    case TUpdate => Rule(Open, Open)
  }

  function ValidateTransition(current: Status, t: Transition): Option<Status> {
    if current == TransitionRule(t).source then Some(TransitionRule(t).target) else None
  }

  const ADMINS: set<string> := {"julianknutsen", "steveyegge", "csells"}

  /** NULL columns read as empty strings. */
  predicate CanPerformTransition(w: Wanted, t: Transition, actor: string) {
    var isPoster := w.postedBy.GetOr("") == actor;
    var isAdmin := actor in ADMINS;
    var isClaimer := w.claimedBy.GetOr("") == actor;
    match t
    case TClaim => true
    case TUnclaim => isClaimer || isPoster
    case TDone => isClaimer
    case TAccept => (isPoster || isAdmin) && !isClaimer
    case TReject => isPoster || isAdmin
    case TClose => isPoster || isAdmin
    case TDelete => isPoster
    case TUpdate => false
  }

  function Filtered(w: Wanted, actor: string, all: seq<Transition>): seq<Transition> {
    if all == [] then []
    else (if ValidateTransition(w.status, all[0]).Some? && CanPerformTransition(w, all[0], actor) then [all[0]] else [])
         + Filtered(w, actor, all[1..])
  }

  /** AvailableTransitions, in the source's order. */
  function AvailableTransitions(w: Wanted, actor: string): seq<Transition> {
    Filtered(w, actor, [TClaim, TUnclaim, TDone, TAccept, TReject, TClose, TDelete])
  }
}
