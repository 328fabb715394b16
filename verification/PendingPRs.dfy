/**
 The pending-submission pipeline of internal/remote/dolthub.go. The batched pipeline
 reads each source branch once, compares with one upstream snapshot, fans rows out to
 pull requests and attaches completions by branch; its meaning is what each open pull
 request gives when evaluated alone.
 */
module PendingSpec {
  import opened Wrappers

  type Id = string

  datatype Cell = Cell(status: string, claimedBy: string)

  datatype SnapshotRow = SnapshotRow(id: Id, cell: Cell)

  datatype DiffType = Added | Modified | Removed

  datatype DiffRow = DiffRow(id: Id, cell: Cell, diffType: DiffType)

  datatype CompletionRow = CompletionRow(wantedId: Id, completedBy: string, evidence: string)

  datatype Source = Source(owner: string, branch: string)

  datatype PR = PR(pullId: string, author: string, branch: string, owner: string)

  /** What the remote answers: upstream main, and each fork's main, branch diffs and
      completions. A fork that is missing has no such repository. */
  datatype World = World(
    org: string,
    upstream: map<Id, Cell>,
    forkMains: map<string, seq<SnapshotRow>>,
    diffs: map<Source, seq<DiffRow>>,
    completions: map<Source, seq<CompletionRow>>)

  datatype Row = Row(id: Id, cell: Cell, isAdded: bool)

  datatype State = State(
    rigHandle: string, cell: Cell, branch: string, pullId: string, forkOwner: string,
    completedBy: string, evidence: string)

  function SourceOf(w: World, pr: PR): Source {
    Source(if pr.owner == "" then w.org else pr.owner, pr.branch)
  }

  // ------------------------------------------------------------ rows of a branch

  function SnapshotRows(rows: seq<SnapshotRow>, upstream: map<Id, Cell>): seq<Row> {
    if rows == [] then []
    else
      var r := rows[|rows| - 1];
      SnapshotRows(rows[..|rows| - 1], upstream) +
      if r.id !in upstream || upstream[r.id] != r.cell then [Row(r.id, r.cell, r.id !in upstream)] else []
  }

  function DiffRows(rows: seq<DiffRow>): seq<Row> {
    if rows == [] then []
    else
      var r := rows[|rows| - 1];
      DiffRows(rows[..|rows| - 1]) +
      if r.id == "" || r.diffType == Removed then [] else [Row(r.id, r.cell, r.diffType == Added)]
  }

  /** A branch called main is compared with upstream main, any other with its own main. */
  function BranchRows(w: World, source: Source, upstream: map<Id, Cell>): seq<Row> {
    if source.branch == "main" then
      if source.owner in w.forkMains then SnapshotRows(w.forkMains[source.owner], upstream) else []
    else if source in w.diffs then DiffRows(w.diffs[source])
    else []
  }

  /** Upstream already has this state. */
  predicate Unchanged(source: Source, row: Row, upstream: map<Id, Cell>) {
    source.branch != "main" && row.id in upstream && upstream[row.id] == row.cell
  }

  const VALID_STATUSES: set<string> := {"open", "claimed", "in_review", "completed"}

  predicate Accepted(row: Row, pr: PR) {
    && row.cell.status in VALID_STATUSES
    && !(row.cell.status == "open" && !row.isAdded)
    && !(row.cell.status == "claimed" && row.cell.claimedBy != "" && row.cell.claimedBy != pr.author)
  }

  function StateOf(source: Source, row: Row, pr: PR): State {
    State(if row.cell.claimedBy == "" then pr.author else row.cell.claimedBy,
          row.cell, pr.branch, pr.pullId, source.owner, "", "")
  }

  // ------------------------------------------------------------ completions

  predicate PastClaiming(s: State) {
    s.cell.status != "open" && s.cell.status != "claimed" && s.forkOwner != "" && s.branch != ""
  }

  function KeyOf(s: State): Source {
    Source(s.forkOwner, s.branch)
  }

  /** The last completion row of an item on a branch; rows without an item are ignored. */
  function LastCompletion(rows: seq<CompletionRow>, id: Id): Option<CompletionRow> {
    if rows == [] || id == "" then None
    else if rows[|rows| - 1].wantedId == id then Some(rows[|rows| - 1])
    else LastCompletion(rows[..|rows| - 1], id)
  }

  function CompletionsOf(w: World, source: Source): seq<CompletionRow> {
    if source in w.completions then w.completions[source] else []
  }

  function WithCompletion(w: World, s: State, id: Id): State {
    var c := LastCompletion(CompletionsOf(w, KeyOf(s)), id);
    if PastClaiming(s) && c.Some? then s.(completedBy := c.value.completedBy, evidence := c.value.evidence) else s
  }

  // ------------------------------------------------------------ one PR alone

  function RowAlone(w: World, source: Source, row: Row, pr: PR, id: Id): seq<State> {
    if row.id == id && !Unchanged(source, row, w.upstream) && Accepted(row, pr)
    then [WithCompletion(w, StateOf(source, row, pr), id)]
    else []
  }

  function RowsAlone(w: World, source: Source, rows: seq<Row>, pr: PR, id: Id): seq<State> {
    if rows == [] then []
    else RowsAlone(w, source, rows[..|rows| - 1], pr, id) + RowAlone(w, source, rows[|rows| - 1], pr, id)
  }

  /** What one pull request proposes for an item, against the whole upstream snapshot. */
  function Alone(w: World, pr: PR, id: Id): seq<State> {
    var source := SourceOf(w, pr);
    RowsAlone(w, source, BranchRows(w, source, w.upstream), pr, id)
  }

  function AllAlone(w: World, prs: seq<PR>, id: Id): multiset<State> {
    if prs == [] then multiset{}
    else AllAlone(w, prs[..|prs| - 1], id) + multiset(Alone(w, prs[|prs| - 1], id))
  }

  // ------------------------------------------------------------ the batched form

  function GroupOf(w: World, prs: seq<PR>, source: Source): seq<PR> {
    if prs == [] then []
    else
      GroupOf(w, prs[..|prs| - 1], source) + if SourceOf(w, prs[|prs| - 1]) == source then [prs[|prs| - 1]] else []
  }

  /** Branch results come back in any order, one for each distinct source. */
  ghost predicate Arrives(w: World, prs: seq<PR>, arrival: seq<Source>) {
    && (forall s :: s in arrival <==> GroupOf(w, prs, s) != [])
    && forall i, j :: 0 <= i < j < |arrival| ==> arrival[i] != arrival[j]
  }

  function ForPRs(source: Source, row: Row, prs: seq<PR>): seq<State> {
    if prs == [] then []
    else
      ForPRs(source, row, prs[..|prs| - 1]) +
      if Accepted(row, prs[|prs| - 1]) then [StateOf(source, row, prs[|prs| - 1])] else []
  }

  function ForRow(source: Source, row: Row, prs: seq<PR>, upstream: map<Id, Cell>, id: Id): seq<State> {
    if row.id != id || Unchanged(source, row, upstream) then [] else ForPRs(source, row, prs)
  }

  function ForRows(source: Source, rows: seq<Row>, prs: seq<PR>, upstream: map<Id, Cell>, id: Id): seq<State> {
    if rows == [] then []
    else
      ForRows(source, rows[..|rows| - 1], prs, upstream, id)
      + ForRow(source, rows[|rows| - 1], prs, upstream, id)
  }

  function ForSources(w: World, arrival: seq<Source>, prs: seq<PR>, upstream: map<Id, Cell>, id: Id): seq<State> {
    if arrival == [] then []
    else
      var s := arrival[|arrival| - 1];
      ForSources(w, arrival[..|arrival| - 1], prs, upstream, id)
      + ForRows(s, BranchRows(w, s, w.upstream), GroupOf(w, prs, s), upstream, id)
  }

  function Attached(w: World, ss: seq<State>, id: Id): (r: seq<State>)
    ensures |r| == |ss| && forall i :: 0 <= i < |r| ==> r[i] == WithCompletion(w, ss[i], id)
  {
    seq(|ss|, i requires 0 <= i < |ss| => WithCompletion(w, ss[i], id))
  }
}

/** Batching does not change what the pull requests propose. */
module PendingTheorems {
  import opened PendingSpec

  lemma AttachedConcat(w: World, a: seq<State>, b: seq<State>, id: Id)
    ensures Attached(w, a + b, id) == Attached(w, a, id) + Attached(w, b, id)
  {
  }

  /** Restricting the snapshot to the compared ids decides every comparison the same way. */
  ghost predicate Covers(upstream: map<Id, Cell>, full: map<Id, Cell>, source: Source, rows: seq<Row>) {
    source.branch != "main" ==>
      forall r :: r in rows ==> (r.id in upstream <==> r.id in full) && (r.id in full ==> upstream[r.id] == full[r.id])
  }

  function RowForAll(w: World, source: Source, row: Row, prs: seq<PR>, id: Id): multiset<State> {
    if prs == [] then multiset{}
    else RowForAll(w, source, row, prs[..|prs| - 1], id) + multiset(RowAlone(w, source, row, prs[|prs| - 1], id))
  }

  function RowsForAll(w: World, source: Source, rows: seq<Row>, prs: seq<PR>, id: Id): multiset<State> {
    if prs == [] then multiset{}
    else RowsForAll(w, source, rows, prs[..|prs| - 1], id) + multiset(RowsAlone(w, source, rows, prs[|prs| - 1], id))
  }

  /** Fanning one row out is evaluating it for each pull request. */
  lemma {:induction false} FanOutRow(w: World, source: Source, row: Row, prs: seq<PR>, id: Id)
    requires row.id == id && !Unchanged(source, row, w.upstream)
    ensures multiset(Attached(w, ForPRs(source, row, prs), id)) == RowForAll(w, source, row, prs, id)
  {
    if prs != [] {
      var front, pr := prs[..|prs| - 1], prs[|prs| - 1];
      FanOutRow(w, source, row, front, id);
      var one := if Accepted(row, pr) then [StateOf(source, row, pr)] else [];
      AttachedConcat(w, ForPRs(source, row, front), one, id);
      assert Attached(w, one, id) == RowAlone(w, source, row, pr, id);
    }
  }

  lemma {:induction false} NoRow(w: World, source: Source, row: Row, prs: seq<PR>, id: Id)
    requires row.id != id || Unchanged(source, row, w.upstream)
    ensures RowForAll(w, source, row, prs, id) == multiset{}
  {
    if prs != [] { NoRow(w, source, row, prs[..|prs| - 1], id); }
  }

  lemma {:induction false} RowsForAllSnoc(w: World, source: Source, rows: seq<Row>, prs: seq<PR>, id: Id)
    requires rows != []
    ensures RowsForAll(w, source, rows, prs, id) ==
            RowsForAll(w, source, rows[..|rows| - 1], prs, id) + RowForAll(w, source, rows[|rows| - 1], prs, id)
  {
    if prs != [] {
      RowsForAllSnoc(w, source, rows, prs[..|prs| - 1], id);
    }
  }

  lemma {:induction false} RowsForAllEmpty(w: World, source: Source, prs: seq<PR>, id: Id)
    ensures RowsForAll(w, source, [], prs, id) == multiset{}
  {
    if prs != [] { RowsForAllEmpty(w, source, prs[..|prs| - 1], id); }
  }

  /** Row by row over a group of pull requests is pull request by pull request over the rows. */
  lemma {:induction false} FanOutRows(
    w: World, source: Source, rows: seq<Row>, prs: seq<PR>, upstream: map<Id, Cell>, id: Id)
    requires Covers(upstream, w.upstream, source, rows)
    ensures multiset(Attached(w, ForRows(source, rows, prs, upstream, id), id)) == RowsForAll(w, source, rows, prs, id)
  {
    if rows == [] {
      RowsForAllEmpty(w, source, prs, id);
    } else {
      var front, row := rows[..|rows| - 1], rows[|rows| - 1];
      assert forall r :: r in front ==> r in rows;
      FanOutRows(w, source, front, prs, upstream, id);
      RowsForAllSnoc(w, source, rows, prs, id);
      assert row in rows;
      assert Unchanged(source, row, upstream) == Unchanged(source, row, w.upstream);
      if row.id != id || Unchanged(source, row, w.upstream) {
        NoRow(w, source, row, prs, id);
      } else {
        FanOutRow(w, source, row, prs, id);
      }
      AttachedConcat(w, ForRows(source, front, prs, upstream, id), ForRow(source, row, prs, upstream, id), id);
    }
  }

  lemma {:induction false} GroupIsAlone(w: World, prs: seq<PR>, source: Source, id: Id)
    requires forall i :: 0 <= i < |prs| ==> SourceOf(w, prs[i]) == source
    ensures RowsForAll(w, source, BranchRows(w, source, w.upstream), prs, id) == AllAlone(w, prs, id)
  {
    if prs != [] { GroupIsAlone(w, prs[..|prs| - 1], source, id); }
  }

  lemma {:induction false} GroupHasSource(w: World, prs: seq<PR>, source: Source)
    ensures forall i :: 0 <= i < |GroupOf(w, prs, source)| ==> SourceOf(w, GroupOf(w, prs, source)[i]) == source
  {
    if prs != [] { GroupHasSource(w, prs[..|prs| - 1], source); }
  }

  // ------------------------------------------------------------ regrouping

  function Grouped(w: World, arrival: seq<Source>, prs: seq<PR>, id: Id): multiset<State> {
    if arrival == [] then multiset{}
    else
      Grouped(w, arrival[..|arrival| - 1], prs, id)
      + AllAlone(w, GroupOf(w, prs, arrival[|arrival| - 1]), id)
  }

  lemma AllAloneSnoc(w: World, prs: seq<PR>, pr: PR, id: Id)
    ensures AllAlone(w, prs + [pr], id) == AllAlone(w, prs, id) + multiset(Alone(w, pr, id))
  {
    assert (prs + [pr])[..|prs|] == prs;
  }

  lemma {:induction false} GroupedElsewhere(w: World, arrival: seq<Source>, prs: seq<PR>, id: Id)
    requires prs != [] && SourceOf(w, prs[|prs| - 1]) !in arrival
    ensures Grouped(w, arrival, prs, id) == Grouped(w, arrival, prs[..|prs| - 1], id)
  {
    if arrival != [] {
      var before, s := arrival[..|arrival| - 1], arrival[|arrival| - 1];
      assert s in arrival && forall x :: x in before ==> x in arrival;
      GroupedElsewhere(w, before, prs, id);
      assert GroupOf(w, prs, s) == GroupOf(w, prs[..|prs| - 1], s);
    }
  }

  lemma SumOnTheRight<T>(a: multiset<T>, b: multiset<T>, c: multiset<T>)
    ensures a + (b + c) == (a + b) + c
  {
  }

  lemma SumOnTheLeft<T>(a: multiset<T>, b: multiset<T>, c: multiset<T>)
    ensures (a + c) + b == (a + b) + c
  {
  }

  /** One more pull request joins the group of its source and no other. */
  lemma {:induction false} GroupedSnoc(w: World, arrival: seq<Source>, prs: seq<PR>, id: Id)
    requires prs != [] && SourceOf(w, prs[|prs| - 1]) in arrival
    requires forall i, j :: 0 <= i < j < |arrival| ==> arrival[i] != arrival[j]
    ensures Grouped(w, arrival, prs, id) ==
            Grouped(w, arrival, prs[..|prs| - 1], id) + multiset(Alone(w, prs[|prs| - 1], id))
  {
    var before, s := arrival[..|arrival| - 1], arrival[|arrival| - 1];
    var front, pr := prs[..|prs| - 1], prs[|prs| - 1];
    assert arrival == before + [s];
    var alone := multiset(Alone(w, pr, id));
    if SourceOf(w, pr) == s {
      GroupedElsewhere(w, before, prs, id);
      AllAloneSnoc(w, GroupOf(w, front, s), pr, id);
      SumOnTheRight(Grouped(w, before, front, id), AllAlone(w, GroupOf(w, front, s), id), alone);
    } else {
      GroupedSnoc(w, before, prs, id);
      assert GroupOf(w, prs, s) == GroupOf(w, front, s);
      SumOnTheLeft(Grouped(w, before, front, id), AllAlone(w, GroupOf(w, front, s), id), alone);
    }
  }

  lemma {:induction false} GroupedEmpty(w: World, arrival: seq<Source>, id: Id)
    ensures Grouped(w, arrival, [], id) == multiset{}
  {
    if arrival != [] { GroupedEmpty(w, arrival[..|arrival| - 1], id); }
  }

  /** Summing by source, in any order of the sources, is summing over the pull requests. */
  lemma {:induction false} Regrouping(w: World, arrival: seq<Source>, prs: seq<PR>, id: Id)
    requires forall i :: 0 <= i < |prs| ==> SourceOf(w, prs[i]) in arrival
    requires forall i, j :: 0 <= i < j < |arrival| ==> arrival[i] != arrival[j]
    ensures Grouped(w, arrival, prs, id) == AllAlone(w, prs, id)
  {
    if prs == [] {
      GroupedEmpty(w, arrival, id);
    } else {
      Regrouping(w, arrival, prs[..|prs| - 1], id);
      GroupedSnoc(w, arrival, prs, id);
    }
  }

  lemma {:induction false} InOwnGroup(w: World, prs: seq<PR>, i: nat)
    requires i < |prs|
    ensures GroupOf(w, prs, SourceOf(w, prs[i])) != []
  {
    if i < |prs| - 1 { InOwnGroup(w, prs[..|prs| - 1], i); }
  }

  ghost predicate CoversAll(w: World, upstream: map<Id, Cell>, arrival: seq<Source>) {
    forall s :: s in arrival ==> Covers(upstream, w.upstream, s, BranchRows(w, s, w.upstream))
  }

  lemma {:induction false} SourcesAreGroups(
    w: World, arrival: seq<Source>, prs: seq<PR>, upstream: map<Id, Cell>, id: Id)
    requires CoversAll(w, upstream, arrival)
    ensures multiset(Attached(w, ForSources(w, arrival, prs, upstream, id), id)) == Grouped(w, arrival, prs, id)
  {
    if arrival != [] {
      var before, s := arrival[..|arrival| - 1], arrival[|arrival| - 1];
      assert s in arrival && forall x :: x in before ==> x in arrival;
      SourcesAreGroups(w, before, prs, upstream, id);
      var rows, group := BranchRows(w, s, w.upstream), GroupOf(w, prs, s);
      FanOutRows(w, s, rows, group, upstream, id);
      GroupHasSource(w, prs, s);
      GroupIsAlone(w, group, s, id);
      AttachedConcat(w, ForSources(w, before, prs, upstream, id), ForRows(s, rows, group, upstream, id), id);
    }
  }

  /** The batched pipeline proposes, for every item, exactly the states that the pull
      requests propose one by one, whatever order the branches answer in. */
  lemma BatchingIsTransparent(w: World, arrival: seq<Source>, prs: seq<PR>, upstream: map<Id, Cell>, id: Id)
    requires Arrives(w, prs, arrival) && CoversAll(w, upstream, arrival)
    ensures multiset(Attached(w, ForSources(w, arrival, prs, upstream, id), id)) == AllAlone(w, prs, id)
  {
    forall i | 0 <= i < |prs| ensures SourceOf(w, prs[i]) in arrival { InOwnGroup(w, prs, i); }
    SourcesAreGroups(w, arrival, prs, upstream, id);
    Regrouping(w, arrival, prs, id);
  }

  // ------------------------------------------------------------ what is proposed

  lemma {:induction false} ProposedByRow(w: World, source: Source, rows: seq<Row>, pr: PR, id: Id, s: State)
    requires s in RowsAlone(w, source, rows, pr, id)
    ensures exists row :: row in rows && s in RowAlone(w, source, row, pr, id)
  {
    var front, last := rows[..|rows| - 1], rows[|rows| - 1];
    if s in RowsAlone(w, source, front, pr, id) {
      ProposedByRow(w, source, front, pr, id, s);
      var row :| row in front && s in RowAlone(w, source, row, pr, id);
      assert row in rows;
    } else {
      assert s in RowAlone(w, source, last, pr, id);
    }
  }

  lemma {:induction false} SnapshotRowsDiffer(rows: seq<SnapshotRow>, upstream: map<Id, Cell>)
    ensures forall r :: r in SnapshotRows(rows, upstream) ==>
              (r.isAdded <==> r.id !in upstream) && (r.id in upstream ==> upstream[r.id] != r.cell)
  {
    if rows != [] { SnapshotRowsDiffer(rows[..|rows| - 1], upstream); }
  }

  /** What a pull request proposes is its author's own doing: a lifecycle status that
      differs from upstream, never a copied open row or somebody else's claim. */
  lemma ProposalsAreIntentional(w: World, pr: PR, id: Id, s: State)
    requires s in Alone(w, pr, id)
    ensures id in w.upstream ==> w.upstream[id] != s.cell
    ensures s.cell.status in VALID_STATUSES
    ensures s.cell.status == "claimed" ==> s.rigHandle == pr.author
    ensures s.cell.status == "open" && pr.branch == "main" ==> id !in w.upstream
    ensures s.rigHandle == s.cell.claimedBy || (s.cell.claimedBy == "" && s.rigHandle == pr.author)
    ensures s.pullId == pr.pullId && KeyOf(s) == SourceOf(w, pr)
  {
    var source := SourceOf(w, pr);
    var rows := BranchRows(w, source, w.upstream);
    ProposedByRow(w, source, rows, pr, id, s);
    var row :| row in rows && s in RowAlone(w, source, row, pr, id);
    if source.branch == "main" && source.owner in w.forkMains {
      SnapshotRowsDiffer(w.forkMains[source.owner], w.upstream);
    }
  }
}

/** The loops of ListPendingWantedIDs. */
module PendingImpl {
  import opened Sequences
  import opened Wrappers
  import opened PendingSpec
  import opened PendingTheorems

  function StatesOf(ids: map<Id, seq<State>>, id: Id): seq<State> {
    if id in ids then ids[id] else []
  }

  function PullsOf(groups: map<Source, seq<PR>>, s: Source): seq<PR> {
    if s in groups then groups[s] else []
  }

  method NeedsUpstream(prs: seq<PR>) returns (needs: bool)
    ensures needs <==> exists i :: 0 <= i < |prs| && prs[i].branch == "main"
  {
    var i := 0;
    while i < |prs|
      invariant 0 <= i <= |prs|
      invariant forall k :: 0 <= k < i ==> prs[k].branch != "main"
    {
      if prs[i].branch == "main" {
        return true;
      }
      i := i + 1;
    }
    return false;
  }

  method GroupBySource(w: World, prs: seq<PR>) returns (groups: map<Source, seq<PR>>)
    ensures forall s {:trigger PullsOf(groups, s)} :: PullsOf(groups, s) == GroupOf(w, prs, s)
  {
    groups := map[];
    var i := 0;
    while i < |prs|
      invariant 0 <= i <= |prs|
      invariant forall s {:trigger PullsOf(groups, s)} :: PullsOf(groups, s) == GroupOf(w, prs[..i], s)
    {
      TakeOneMore(prs, i);
      var source := SourceOf(w, prs[i]);
      ghost var before := groups;
      groups := groups[source := PullsOf(groups, source) + [prs[i]]];
      i := i + 1;
      forall s ensures PullsOf(groups, s) == GroupOf(w, prs[..i], s) {
        assert PullsOf(before, s) == GroupOf(w, prs[..i - 1], s);
      }
    }
    TakeAll(prs);
  }

  /** One branch query and its comparison. */
  method FetchRows(w: World, source: Source, upstream: map<Id, Cell>) returns (rows: seq<Row>)
    ensures rows == BranchRows(w, source, upstream)
  {
    rows := [];
    if source.branch == "main" {
      if source.owner !in w.forkMains {
        return;
      }
      var snapshot := w.forkMains[source.owner];
      var i := 0;
      while i < |snapshot|
        invariant 0 <= i <= |snapshot|
        invariant rows == SnapshotRows(snapshot[..i], upstream)
      {
        TakeOneMore(snapshot, i);
        var r := snapshot[i];
        if r.id !in upstream || upstream[r.id] != r.cell {
          rows := rows + [Row(r.id, r.cell, r.id !in upstream)];
        }
        i := i + 1;
      }
      TakeAll(snapshot);
    } else if source in w.diffs {
      var diff := w.diffs[source];
      var i := 0;
      while i < |diff|
        invariant 0 <= i <= |diff|
        invariant rows == DiffRows(diff[..i])
      {
        TakeOneMore(diff, i);
        var r := diff[i];
        i := i + 1;
        if r.id == "" || r.diffType == Removed {
          continue;
        }
        rows := rows + [Row(r.id, r.cell, r.diffType == Added)];
      }
      TakeAll(diff);
    }
  }

  lemma {:induction false} DiffRowsNamed(rows: seq<DiffRow>)
    ensures forall r :: r in DiffRows(rows) ==> r.id != ""
  {
    if rows != [] { DiffRowsNamed(rows[..|rows| - 1]); }
  }

  ghost predicate Compared(rows: seq<Row>, ids: set<Id>) {
    forall r :: r in rows ==> r.id in ids
  }

  /** Every branch's rows, and the ids to compare with upstream. */
  method CollectRows(w: World, arrival: seq<Source>, upstream: map<Id, Cell>)
    returns (results: seq<seq<Row>>, compareIds: set<Id>)
    requires forall s :: s in arrival && s.branch == "main" ==> upstream == w.upstream
    ensures |results| == |arrival|
    ensures forall i :: 0 <= i < |arrival| ==> results[i] == BranchRows(w, arrival[i], w.upstream)
    ensures forall i :: 0 <= i < |arrival| && arrival[i].branch != "main" ==> Compared(results[i], compareIds)
  {
    results, compareIds := [], {};
    var i := 0;
    while i < |arrival|
      invariant 0 <= i <= |arrival| && |results| == i
      invariant forall k :: 0 <= k < i ==> results[k] == BranchRows(w, arrival[k], w.upstream)
      invariant forall k :: 0 <= k < i && arrival[k].branch != "main" ==> Compared(results[k], compareIds)
    {
      var source := arrival[i];
      assert source in arrival;
      var rows := FetchRows(w, source, upstream);
      results := results + [rows];
      i := i + 1;
      if source.branch == "main" {
        continue;
      }
      if source in w.diffs { DiffRowsNamed(w.diffs[source]); }
      var j := 0;
      ghost var before := compareIds;
      while j < |rows|
        invariant 0 <= j <= |rows|
        invariant before <= compareIds
        invariant Compared(rows[..j], compareIds)
      {
        if rows[j].id != "" {
          compareIds := compareIds + {rows[j].id};
        }
        j := j + 1;
      }
      TakeAll(rows);
    }
  }

  /** SELECT ... WHERE id IN (ids). */
  function SelectIn(table: map<Id, Cell>, ids: set<Id>): map<Id, Cell> {
    map id | id in table && id in ids :: table[id]
  }

  method AddRow(ids: map<Id, seq<State>>, source: Source, row: Row, prs: seq<PR>, upstream: map<Id, Cell>)
    returns (out: map<Id, seq<State>>)
    ensures forall id {:trigger StatesOf(out, id)} ::
              StatesOf(out, id) == StatesOf(ids, id) + ForRow(source, row, prs, upstream, id)
  {
    if Unchanged(source, row, upstream) {
      return ids;
    }
    out := ids;
    var states := StatesOf(ids, row.id);
    var k := 0;
    while k < |prs|
      invariant 0 <= k <= |prs|
      invariant states == StatesOf(ids, row.id) + ForPRs(source, row, prs[..k])
      invariant out == ids || out == ids[row.id := states]
      invariant StatesOf(out, row.id) == states
    {
      TakeOneMore(prs, k);
      var pr := prs[k];
      k := k + 1;
      if Accepted(row, pr) {
        Regroup(StatesOf(ids, row.id), ForPRs(source, row, prs[..k - 1]), [StateOf(source, row, pr)]);
        states := StatesOf(out, row.id) + [StateOf(source, row, pr)];
        out := out[row.id := states];
      }
    }
    TakeAll(prs);
  }

  /** `out` has what `ids` had for an item, followed by what the rows add. */
  ghost predicate Gained(
    ids: map<Id, seq<State>>, out: map<Id, seq<State>>, source: Source, rows: seq<Row>, prs: seq<PR>,
    upstream: map<Id, Cell>, id: Id)
  {
    StatesOf(out, id) == StatesOf(ids, id) + ForRows(source, rows, prs, upstream, id)
  }

  lemma OneMoreRow(
    ids: map<Id, seq<State>>, before: map<Id, seq<State>>, out: map<Id, seq<State>>, source: Source, rows: seq<Row>,
    j: nat, prs: seq<PR>, upstream: map<Id, Cell>, id: Id)
    requires j < |rows| && Gained(ids, before, source, rows[..j], prs, upstream, id)
    requires StatesOf(out, id) == StatesOf(before, id) + ForRow(source, rows[j], prs, upstream, id)
    ensures Gained(ids, out, source, rows[..j + 1], prs, upstream, id)
  {
    TakeOneMore(rows, j);
    Regroup(
      StatesOf(ids, id), ForRows(source, rows[..j], prs, upstream, id), ForRow(source, rows[j], prs, upstream, id));
  }

  method AddRows(ids: map<Id, seq<State>>, source: Source, rows: seq<Row>, prs: seq<PR>, upstream: map<Id, Cell>)
    returns (out: map<Id, seq<State>>)
    ensures forall id {:trigger Gained(ids, out, source, rows, prs, upstream, id)} ::
              Gained(ids, out, source, rows, prs, upstream, id)
  {
    out := ids;
    var j := 0;
    while j < |rows|
      invariant 0 <= j <= |rows|
      invariant forall id {:trigger Gained(ids, out, source, rows[..j], prs, upstream, id)} ::
                  Gained(ids, out, source, rows[..j], prs, upstream, id)
    {
      ghost var before := out;
      out := AddRow(out, source, rows[j], prs, upstream);
      ghost var done, more := rows[..j], rows[..j + 1];
      forall id ensures Gained(ids, out, source, more, prs, upstream, id) {
        assert Gained(ids, before, source, done, prs, upstream, id);
        OneMoreRow(ids, before, out, source, rows, j, prs, upstream, id);
      }
      j := j + 1;
    }
    TakeAll(rows);
  }

  method FanOut(w: World, arrival: seq<Source>, results: seq<seq<Row>>, groups: map<Source, seq<PR>>,
                ghost prs: seq<PR>, upstream: map<Id, Cell>)
    returns (ids: map<Id, seq<State>>)
    requires |results| == |arrival|
    requires forall i :: 0 <= i < |arrival| ==> results[i] == BranchRows(w, arrival[i], w.upstream)
    requires forall s {:trigger PullsOf(groups, s)} :: PullsOf(groups, s) == GroupOf(w, prs, s)
    ensures forall id {:trigger StatesOf(ids, id)} :: StatesOf(ids, id) == ForSources(w, arrival, prs, upstream, id)
  {
    ids := map[];
    var i := 0;
    while i < |arrival|
      invariant 0 <= i <= |arrival|
      invariant forall id {:trigger StatesOf(ids, id)} ::
                  StatesOf(ids, id) == ForSources(w, arrival[..i], prs, upstream, id)
    {
      TakeOneMore(arrival, i);
      ghost var before := ids;
      ids := AddRows(ids, arrival[i], results[i], PullsOf(groups, arrival[i]), upstream);
      forall id ensures StatesOf(ids, id) == ForSources(w, arrival[..i + 1], prs, upstream, id) {
        assert StatesOf(before, id) == ForSources(w, arrival[..i], prs, upstream, id);
        assert Gained(before, ids, arrival[i], results[i], PullsOf(groups, arrival[i]), upstream, id);
      }
      i := i + 1;
    }
    TakeAll(arrival);
  }

  // ------------------------------------------------------------ completions

  /** For each branch, the positions whose completion is to be read from it. */
  type Targets = map<Source, map<Id, set<nat>>>

  predicate Targeted(targets: Targets, key: Source, id: Id, i: nat) {
    key in targets && id in targets[key] && i in targets[key][id]
  }

  predicate Wants(ids: map<Id, seq<State>>, key: Source, id: Id, i: nat) {
    id in ids && i < |ids[id]| && PastClaiming(ids[id][i]) && KeyOf(ids[id][i]) == key
  }

  function WithTarget(targets: Targets, key: Source, id: Id, i: nat): Targets {
    var refs := if key in targets then targets[key] else map[];
    targets[key := refs[id := (if id in refs then refs[id] else {}) + {i}]]
  }

  lemma WithTargetTargets(targets: Targets, key: Source, id: Id, i: nat, k: Source, x: Id, j: nat)
    ensures Targeted(WithTarget(targets, key, id, i), k, x, j) <==>
            Targeted(targets, k, x, j) || (k == key && x == id && j == i)
  {
  }

  ghost predicate Named(targets: Targets, ids: map<Id, seq<State>>) {
    forall k :: k in targets ==> targets[k].Keys <= ids.Keys
  }

  method CollectItem(targets: Targets, ids: map<Id, seq<State>>, id: Id) returns (out: Targets)
    requires id in ids && Named(targets, ids)
    ensures Named(out, ids)
    ensures forall k, x, j {:trigger Targeted(out, k, x, j)} ::
              Targeted(out, k, x, j) <==> Targeted(targets, k, x, j) || (Wants(ids, k, x, j) && x == id)
  {
    out := targets;
    var i := 0;
    while i < |ids[id]|
      invariant 0 <= i <= |ids[id]| && Named(out, ids)
      invariant forall k, x, j: nat {:trigger Targeted(out, k, x, j)} ::
                  Targeted(out, k, x, j) <==> Targeted(targets, k, x, j) || (Wants(ids, k, x, j) && x == id && j < i)
    {
      var s := ids[id][i];
      ghost var before := out;
      if PastClaiming(s) {
        out := WithTarget(out, KeyOf(s), id, i);
      }
      i := i + 1;
      forall k, x, j: nat
        ensures Targeted(out, k, x, j) <==> Targeted(targets, k, x, j) || (Wants(ids, k, x, j) && x == id && j < i)
      {
        WithTargetTargets(before, KeyOf(s), id, i - 1, k, x, j);
        assert Targeted(before, k, x, j) <==>
               Targeted(targets, k, x, j) || (Wants(ids, k, x, j) && x == id && j < i - 1);
      }
    }
  }

  method CollectTargets(ids: map<Id, seq<State>>) returns (targets: Targets)
    ensures forall k, x, j {:trigger Targeted(targets, k, x, j)} :: Targeted(targets, k, x, j) <==> Wants(ids, k, x, j)
    ensures Named(targets, ids)
  {
    targets := map[];
    var todo := ids.Keys;
    while todo != {}
      invariant todo <= ids.Keys && Named(targets, ids)
      invariant forall k, x, j {:trigger Targeted(targets, k, x, j)} ::
                  Targeted(targets, k, x, j) <==> Wants(ids, k, x, j) && x !in todo
      decreases |todo|
    {
      var id :| id in todo;
      targets := CollectItem(targets, ids, id);
      todo := todo - {id};
    }
  }

  function RowsIn(rows: seq<CompletionRow>, ids: set<Id>): seq<CompletionRow> {
    if rows == [] then []
    else
      RowsIn(rows[..|rows| - 1], ids) + if rows[|rows| - 1].wantedId in ids then [rows[|rows| - 1]] else []
  }

  /** Asking for several items at once gives each its own last completion. */
  lemma {:induction false} BatchedCompletions(rows: seq<CompletionRow>, ids: set<Id>, id: Id)
    requires id in ids
    ensures LastCompletion(RowsIn(rows, ids), id) == LastCompletion(rows, id)
  {
    if rows != [] {
      var front := rows[..|rows| - 1];
      BatchedCompletions(front, ids, id);
      assert (RowsIn(front, ids) + [rows[|rows| - 1]])[..|RowsIn(front, ids)|] == RowsIn(front, ids);
      assert RowsIn(front, ids) + [] == RowsIn(front, ids);
    }
  }

  lemma {:induction false} RowsInAsked(rows: seq<CompletionRow>, ids: set<Id>)
    ensures forall r :: r in RowsIn(rows, ids) ==> r.wantedId in ids
  {
    if rows != [] { RowsInAsked(rows[..|rows| - 1], ids); }
  }

  lemma OnlyOne(ids: set<Id>, x: Id)
    requires x in ids && |ids| == 1
    ensures forall y :: y in ids ==> y == x
  {
    assert |ids - {x}| == 0;
    forall y | y in ids ensures y == x {
      assert y == x || y in ids - {x};
    }
  }

  function ValueOf(values: map<Id, CompletionRow>, id: Id): Option<CompletionRow> {
    if id in values then Some(values[id]) else None
  }

  /** One query per branch; a later row of the same item replaces an earlier one. A row
      that does not say its item belongs to the only item asked for. */
  method ReadCompletions(w: World, key: Source, ids: set<Id>) returns (values: map<Id, CompletionRow>)
    ensures forall id {:trigger ValueOf(values, id)} :: id in ids ==>
              ValueOf(values, id) == LastCompletion(CompletionsOf(w, key), id)
  {
    var rows := RowsIn(CompletionsOf(w, key), ids);
    RowsInAsked(CompletionsOf(w, key), ids);
    values := map[];
    var i := 0;
    while i < |rows|
      invariant 0 <= i <= |rows|
      invariant forall id {:trigger ValueOf(values, id)} :: ValueOf(values, id) == LastCompletion(rows[..i], id)
    {
      TakeOneMore(rows, i);
      var row := rows[i];
      ghost var before := values;
      var id := row.wantedId;
      if id == "" && |ids| == 1 {
        assert row in rows;
        OnlyOne(ids, "");
        id :| id in ids;
      }
      if id != "" {
        values := values[id := row];
      }
      i := i + 1;
      forall id ensures ValueOf(values, id) == LastCompletion(rows[..i], id) {
        assert ValueOf(before, id) == LastCompletion(rows[..i - 1], id);
      }
    }
    TakeAll(rows);
    forall id | id in ids ensures ValueOf(values, id) == LastCompletion(CompletionsOf(w, key), id) {
      BatchedCompletions(CompletionsOf(w, key), ids, id);
    }
  }

  /** `out` is `ids` with the completions of one branch written at the given positions. */
  ghost predicate AttachedAt(
    w: World, ids: map<Id, seq<State>>, out: map<Id, seq<State>>, done: set<Source>, x: Id)
  {
    && (x in out <==> x in ids)
    && (x in ids ==>
          && |out[x]| == |ids[x]|
          && forall i :: 0 <= i < |ids[x]| ==>
               out[x][i] == if KeyOf(ids[x][i]) in done then WithCompletion(w, ids[x][i], x) else ids[x][i])
  }

  /** Writes one item's completion at its positions. */
  method WriteBack(states: seq<State>, refs: set<nat>, value: CompletionRow) returns (out: seq<State>)
    requires forall i :: i in refs ==> i < |states|
    ensures |out| == |states|
    ensures forall i :: 0 <= i < |states| ==>
              out[i] == if i in refs then states[i].(completedBy := value.completedBy, evidence := value.evidence)
                        else states[i]
  {
    out := states;
    var todo := refs;
    while todo != {}
      invariant todo <= refs && |out| == |states|
      invariant forall i :: 0 <= i < |states| ==>
                  out[i] == if i in refs && i !in todo
                            then states[i].(completedBy := value.completedBy, evidence := value.evidence)
                            else states[i]
      decreases |todo|
    {
      var i :| i in todo;
      out := out[i := out[i].(completedBy := value.completedBy, evidence := value.evidence)];
      todo := todo - {i};
    }
  }

  /** The positions of one branch, for one item. */
  ghost predicate RefsOk(ids: map<Id, seq<State>>, refs: map<Id, set<nat>>, key: Source, x: Id) {
    && (x in refs ==> x in ids)
    && forall i: nat :: (x in refs && i in refs[x]) <==> Wants(ids, key, x, i)
  }

  lemma ItemAttached(
    w: World, ids: map<Id, seq<State>>, refs: map<Id, set<nat>>, key: Source, id: Id, states: seq<State>)
    requires RefsOk(ids, refs, key, id) && id in refs && |states| == |ids[id]|
    requires var c := LastCompletion(CompletionsOf(w, key), id);
             c.Some? && forall i :: 0 <= i < |states| ==>
               states[i] == if i in refs[id]
                            then ids[id][i].(completedBy := c.value.completedBy, evidence := c.value.evidence)
                            else ids[id][i]
    ensures forall i :: 0 <= i < |states| ==>
              states[i] == if KeyOf(ids[id][i]) == key then WithCompletion(w, ids[id][i], id) else ids[id][i]
  {
    forall i | 0 <= i < |states|
      ensures states[i] == if KeyOf(ids[id][i]) == key then WithCompletion(w, ids[id][i], id) else ids[id][i]
    {
      assert i in refs[id] <==> Wants(ids, key, id, i);
    }
  }

  /** Some items are done, the others are as they were. */
  ghost predicate Partly(
    w: World, ids: map<Id, seq<State>>, out: map<Id, seq<State>>, key: Source, finished: set<Id>, x: Id)
  {
    && (x in out <==> x in ids)
    && (if x in finished then AttachedAt(w, ids, out, {key}, x) else x in ids ==> out[x] == ids[x])
  }

  method AttachBranch(w: World, ids: map<Id, seq<State>>, key: Source, refs: map<Id, set<nat>>)
    returns (out: map<Id, seq<State>>)
    requires forall x {:trigger RefsOk(ids, refs, key, x)} :: RefsOk(ids, refs, key, x)
    ensures forall x {:trigger AttachedAt(w, ids, out, {key}, x)} :: AttachedAt(w, ids, out, {key}, x)
  {
    var values := ReadCompletions(w, key, refs.Keys);
    out := ids;
    var todo := refs.Keys;
    while todo != {}
      invariant todo <= refs.Keys
      invariant forall x {:trigger Partly(w, ids, out, key, refs.Keys - todo, x)} ::
                  Partly(w, ids, out, key, refs.Keys - todo, x)
      decreases |todo|
    {
      var id :| id in todo;
      assert RefsOk(ids, refs, key, id);
      ghost var before, finished := out, refs.Keys - todo;
      assert Partly(w, ids, before, key, finished, id);
      assert ValueOf(values, id) == LastCompletion(CompletionsOf(w, key), id);
      if id in values {
        assert forall i :: i in refs[id] ==> Wants(ids, key, id, i);
        var states := WriteBack(out[id], refs[id], values[id]);
        out := out[id := states];
        ItemAttached(w, ids, refs, key, id, states);
      }
      todo := todo - {id};
      forall x ensures Partly(w, ids, out, key, refs.Keys - todo, x) {
        assert Partly(w, ids, before, key, finished, x);
      }
    }
    forall x ensures AttachedAt(w, ids, out, {key}, x) {
      assert Partly(w, ids, out, key, refs.Keys - todo, x);
      assert RefsOk(ids, refs, key, x);
      if x !in refs && x in ids {
        forall i | 0 <= i < |ids[x]| && KeyOf(ids[x][i]) == key ensures !PastClaiming(ids[x][i]) {
          assert !Wants(ids, key, x, i);
        }
      }
    }
  }

  lemma TargetsAreRefs(
    w: World, ids: map<Id, seq<State>>, before: map<Id, seq<State>>, targets: Targets,
    done: set<Source>, key: Source, x: Id)
    requires AttachedAt(w, ids, before, done, x) && key in targets && Named(targets, ids)
    requires forall j {:trigger Targeted(targets, key, x, j)} :: Targeted(targets, key, x, j) <==> Wants(ids, key, x, j)
    ensures RefsOk(before, targets[key], key, x)
  {
    var refs := targets[key];
    forall i: nat ensures (x in refs && i in refs[x]) <==> Wants(before, key, x, i) {
      assert Targeted(targets, key, x, i) <==> Wants(ids, key, x, i);
    }
  }

  lemma EveryTargetIsKeyed(ids: map<Id, seq<State>>, targets: Targets, id: Id)
    requires forall k, j {:trigger Targeted(targets, k, id, j)} :: Targeted(targets, k, id, j) <==> Wants(ids, k, id, j)
    ensures id in ids ==>
              forall i :: 0 <= i < |ids[id]| && PastClaiming(ids[id][i]) ==> KeyOf(ids[id][i]) in targets
  {
    if id in ids {
      forall i | 0 <= i < |ids[id]| && PastClaiming(ids[id][i]) ensures KeyOf(ids[id][i]) in targets {
        assert Targeted(targets, KeyOf(ids[id][i]), id, i);
      }
    }
  }

  /** Completions are written branch by branch, in any order of the branches. */
  method AttachCompletions(w: World, ids: map<Id, seq<State>>) returns (out: map<Id, seq<State>>)
    ensures forall id {:trigger StatesOf(out, id)} :: StatesOf(out, id) == Attached(w, StatesOf(ids, id), id)
  {
    var targets := CollectTargets(ids);
    out := ids;
    var todo := targets.Keys;
    while todo != {}
      invariant todo <= targets.Keys
      invariant forall x {:trigger AttachedAt(w, ids, out, targets.Keys - todo, x)} ::
                  AttachedAt(w, ids, out, targets.Keys - todo, x)
      decreases |todo|
    {
      var key :| key in todo;
      ghost var before, done := out, targets.Keys - todo;
      forall x ensures RefsOk(before, targets[key], key, x) {
        assert AttachedAt(w, ids, before, done, x);
        TargetsAreRefs(w, ids, before, targets, done, key, x);
      }
      out := AttachBranch(w, out, key, targets[key]);
      todo := todo - {key};
      forall x ensures AttachedAt(w, ids, out, targets.Keys - todo, x) {
        assert AttachedAt(w, ids, before, done, x);
        assert AttachedAt(w, before, out, {key}, x);
      }
    }
    forall id ensures StatesOf(out, id) == Attached(w, StatesOf(ids, id), id) {
      assert AttachedAt(w, ids, out, targets.Keys - todo, id);
      EveryTargetIsKeyed(ids, targets, id);
    }
  }

  // ------------------------------------------------------------ the pipeline

  lemma {:induction false} GroupFrom(w: World, prs: seq<PR>, source: Source)
    requires GroupOf(w, prs, source) != []
    ensures exists i :: 0 <= i < |prs| && SourceOf(w, prs[i]) == source
  {
    var front, last := prs[..|prs| - 1], prs[|prs| - 1];
    if SourceOf(w, last) != source {
      GroupFrom(w, front, source);
      var i :| 0 <= i < |front| && SourceOf(w, front[i]) == source;
      assert prs[i] == front[i];
    }
  }

  /** Every item gets exactly what the open pull requests propose for it one by one. */
  method ListPendingWantedIDs(w: World, prs: seq<PR>, arrival: seq<Source>) returns (ids: map<Id, seq<State>>)
    requires Arrives(w, prs, arrival)
    ensures forall id {:trigger StatesOf(ids, id)} :: multiset(StatesOf(ids, id)) == AllAlone(w, prs, id)
  {
    var needsUpstream := NeedsUpstream(prs);
    var upstream: map<Id, Cell> := if needsUpstream then w.upstream else map[];
    forall s | s in arrival && s.branch == "main" ensures upstream == w.upstream {
      GroupFrom(w, prs, s);
      var i :| 0 <= i < |prs| && SourceOf(w, prs[i]) == s;
      assert prs[i].branch == "main";
    }
    var groups := GroupBySource(w, prs);
    var results, compareIds := CollectRows(w, arrival, upstream);
    if compareIds != {} && !needsUpstream {
      upstream := SelectIn(w.upstream, compareIds);
    }
    forall s | s in arrival ensures Covers(upstream, w.upstream, s, BranchRows(w, s, w.upstream)) {
      var i :| 0 <= i < |arrival| && arrival[i] == s;
      assert results[i] == BranchRows(w, s, w.upstream);
    }
    ids := FanOut(w, arrival, results, groups, prs, upstream);
    ghost var bare := ids;
    ids := AttachCompletions(w, ids);
    forall id ensures multiset(StatesOf(ids, id)) == AllAlone(w, prs, id) {
      assert StatesOf(bare, id) == ForSources(w, arrival, prs, upstream, id);
      BatchingIsTransparent(w, arrival, prs, upstream, id);
    }
  }
}
