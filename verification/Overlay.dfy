/**
 The branch overlay of internal/commons/queries.go: rows read from main are corrected
 by the state of each item on its mutation branch, and compared with the board a
 reader would see if every such branch were already merged.
 */
module OverlaySpec {
  import opened Sequences
  import opened Wrappers

  type Id = string

  datatype Item = Item(
    title: string, description: string, project: string, kind: string, priority: int, tags: seq<string>,
    postedBy: string, claimedBy: string, status: string, effort: string)

  datatype Repo = Repo(main: map<Id, Item>, branches: map<string, map<Id, Item>>)

  datatype Override = Override(id: Id, branch: string, status: string, claimedBy: string)

  datatype Summary = Summary(id: Id, item: Item)

  // -------------------------------------------------------------- branch names

  /** The item of `wl/<rig>/<id>`, whatever the rig. */
  function AnyRig(name: string): Option<Id> {
    if !("wl/" <= name) then None
    else
      var rest := name[3..];
      var i := IndexOf(rest, '/');
      if i == |rest| || i + 1 == |rest| then None else Some(rest[i + 1..])
  }

  function RigPrefix(rig: string): string { "wl/" + rig + "/" }

  function OneRig(rig: string): string -> Option<Id> {
    name => if RigPrefix(rig) <= name then Some(name[|RigPrefix(rig)|..]) else None
  }

  // -------------------------------------------------------------- detection

  function StatusOn(r: Repo, id: Id, branch: string): string {
    if branch in r.branches && id in r.branches[branch] then r.branches[branch][id].status else ""
  }

  function ClaimerOn(r: Repo, id: Id, branch: string): string {
    if branch in r.branches && id in r.branches[branch] then r.branches[branch][id].claimedBy else ""
  }

  function MainStatus(r: Repo, id: Id): string {
    if id in r.main then r.main[id].status else ""
  }

  predicate Differs(r: Repo, id: Id, branch: string) {
    StatusOn(r, id, branch) != "" && StatusOn(r, id, branch) != MainStatus(r, id)
  }

  /** The first listed branch of `id` whose status differs from main's. */
  function Mutation(r: Repo, names: seq<string>, idOf: string -> Option<Id>, id: Id): Option<string> {
    if names == [] then None
    else
      var earlier := Mutation(r, names[..|names| - 1], idOf, id);
      var name := names[|names| - 1];
      if earlier.Some? then earlier
      else if idOf(name) == Some(id) && Differs(r, id, name) then Some(name)
      else None
  }

  /** The board with every mutation merged. */
  function Effective(r: Repo, names: seq<string>, idOf: string -> Option<Id>, id: Id): Option<Item> {
    var m := Mutation(r, names, idOf, id);
    if m.Some? && m.value in r.branches && id in r.branches[m.value] then Some(r.branches[m.value][id])
    else if id in r.main then Some(r.main[id])
    else None
  }

  function OverrideOf(r: Repo, id: Id, branch: string): Override {
    Override(id, branch, StatusOn(r, id, branch), ClaimerOn(r, id, branch))
  }

  function Overrides(r: Repo, names: seq<string>, idOf: string -> Option<Id>): seq<Override> {
    if names == [] then []
    else
      var before := names[..|names| - 1];
      var name := names[|names| - 1];
      var id := idOf(name);
      Overrides(r, before, idOf) +
      if id.Some? && Mutation(r, before, idOf, id.value).None? && Differs(r, id.value, name)
      then [OverrideOf(r, id.value, name)] else []
  }

  function BranchCount(names: seq<string>, idOf: string -> Option<Id>, id: Id): nat {
    if names == [] then 0
    else BranchCount(names[..|names| - 1], idOf, id) + if idOf(names[|names| - 1]) == Some(id) then 1 else 0
  }

  // -------------------------------------------------------------- application

  function ById(overrides: seq<Override>): map<Id, Override> {
    if overrides == [] then map[]
    else
      var o := overrides[|overrides| - 1];
      ById(overrides[..|overrides| - 1])[o.id := o]
  }

  /** An empty claimer on the branch leaves the one read from main. */
  function Patched(item: Item, o: Override): Item {
    item.(status := o.status, claimedBy := if o.claimedBy != "" then o.claimedBy else item.claimedBy)
  }

  predicate StatusPasses(status: string, x: string) {
    status == "" || x == status
  }

  function KeptOne(s: Summary, overrides: map<Id, Override>, status: string): seq<Summary> {
    if s.id !in overrides then [s]
    else if StatusPasses(status, overrides[s.id].status) then [Summary(s.id, Patched(s.item, overrides[s.id]))]
    else []
  }

  function Kept(items: seq<Summary>, overrides: map<Id, Override>, status: string): seq<Summary> {
    if items == [] then []
    else Kept(items[..|items| - 1], overrides, status) + KeptOne(items[|items| - 1], overrides, status)
  }

  function Seen(items: seq<Summary>, overrides: map<Id, Override>): set<Id> {
    if items == [] then {}
    else
      var id := items[|items| - 1].id;
      Seen(items[..|items| - 1], overrides) + if id in overrides then {id} else {}
  }

  /** The item as its branch has it, or as main has it when the branch cannot be read. */
  function Detail(r: Repo, o: Override): Option<Item> {
    if o.branch in r.branches && o.id in r.branches[o.branch] then Some(r.branches[o.branch][o.id])
    else if o.id in r.main then Some(r.main[o.id])
    else None
  }

  function AddedOne(r: Repo, o: Override, seen: set<Id>, status: string, passes: Item -> bool): seq<Summary> {
    if o.id in seen || !StatusPasses(status, o.status) || Detail(r, o).None? then []
    else
      var item := Patched(Detail(r, o).value, o);
      if passes(item) then [Summary(o.id, item)] else []
  }

  function Added(r: Repo, overrides: seq<Override>, seen: set<Id>, status: string, passes: Item -> bool): seq<Summary> {
    if overrides == [] then []
    else
      Added(r, overrides[..|overrides| - 1], seen, status, passes)
      + AddedOne(r, overrides[|overrides| - 1], seen, status, passes)
  }

  function Overlaid(
    r: Repo, items: seq<Summary>, overrides: seq<Override>, status: string, passes: Item -> bool): seq<Summary>
  {
    if overrides == [] then items
    else
      Kept(items, ById(overrides), status) + Added(r, overrides, Seen(items, ById(overrides)), status, passes)
  }

  // ------------------------------------------------------------------ filters

  /** `priority < 0` and empty strings are unset. */
  datatype Filter = Filter(
    status: string, project: string, kind: string, priority: int, postedBy: string, claimedBy: string, search: string,
    myItems: string)

  /** The conditions of the browse query's WHERE clause. */
  datatype Condition =
    | StatusIs(value: string) | ProjectIs(value: string) | KindIs(value: string) | PriorityIs(priority: int)
    | PostedByIs(value: string) | ClaimedByIs(value: string) | PostedOrClaimedBy(value: string)

  function When(set_: bool, c: Condition): seq<Condition> {
    if set_ then [c] else []
  }

  /** Without a text search. */
  function Conditions(f: Filter): seq<Condition> {
    When(f.status != "", StatusIs(f.status)) + When(f.project != "", ProjectIs(f.project))
    + When(f.kind != "", KindIs(f.kind)) + When(f.priority >= 0, PriorityIs(f.priority))
    + if f.myItems != "" then [PostedOrClaimedBy(f.myItems)]
      else When(f.postedBy != "", PostedByIs(f.postedBy)) + When(f.claimedBy != "", ClaimedByIs(f.claimedBy))
  }

  predicate Holds(item: Item, c: Condition) {
    match c
    case StatusIs(v) => item.status == v
    case ProjectIs(v) => item.project == v
    case KindIs(v) => item.kind == v
    case PriorityIs(n) => item.priority == n
    case PostedByIs(v) => item.postedBy == v
    case ClaimedByIs(v) => item.claimedBy == v
    case PostedOrClaimedBy(v) => item.postedBy == v || item.claimedBy == v
  }

  predicate AllHold(item: Item, cs: seq<Condition>) {
    forall i :: 0 <= i < |cs| ==> Holds(item, cs[i])
  }

  predicate Selected(item: Item, f: Filter) {
    AllHold(item, Conditions(f))
  }

  function Lower(s: string): string {
    if s == "" then "" else [if 'A' <= s[0] <= 'Z' then s[0] + (32 as char) else s[0]] + Lower(s[1..])
  }

  predicate HasPart(s: string, part: string) {
    part <= s || (s != "" && HasPart(s[1..], part))
  }

  predicate AnyHasPart(tags: seq<string>, part: string) {
    tags != [] && (HasPart(Lower(tags[0]), part) || AnyHasPart(tags[1..], part))
  }

  predicate MatchesBrowseFilter(item: Item, f: Filter) {
    && (f.kind != "" ==> item.kind == f.kind)
    && (f.project != "" ==> item.project == f.project)
    && (f.priority >= 0 ==> item.priority == f.priority)
    && (f.postedBy != "" ==> item.postedBy == f.postedBy)
    && (f.claimedBy != "" ==> item.claimedBy == f.claimedBy)
    && (f.search != "" ==>
          var s := Lower(f.search);
          HasPart(Lower(item.title), s) || HasPart(Lower(item.description), s) || AnyHasPart(item.tags, s))
  }

  function Matcher(f: Filter): Item -> bool {
    item => MatchesBrowseFilter(item, f)
  }

  datatype Person = ClaimedByField | PostedByField | Either

  predicate MatchesPerson(item: Item, field: Person, who: string) {
    match field
    case ClaimedByField => item.claimedBy == who
    case PostedByField => item.postedBy == who
    case Either => item.postedBy == who || item.claimedBy == who
  }

  function PersonMatcher(field: Person, who: string): Item -> bool {
    item => MatchesPerson(item, field, who)
  }
}

/** The loops of queries.go. */
module OverlayImpl {
  import opened Sequences
  import opened OverlaySpec

  lemma {:induction false} OwnBranchBefore(r: Repo, names: seq<string>, rig: string, i: nat, n: nat)
    requires n <= i < |names|
    requires forall k :: 0 <= k < |names| ==> RigPrefix(rig) <= names[k]
    requires forall j, k :: 0 <= j < k < |names| ==> names[j] != names[k]
    ensures Mutation(r, names[..n], OneRig(rig), names[i][|RigPrefix(rig)|..]).None?
  {
    if n > 0 {
      OwnBranchBefore(r, names, rig, i, n - 1);
      TakeOneMore(names, n - 1);
      var p := |RigPrefix(rig)|;
      assert names[n - 1] == RigPrefix(rig) + names[n - 1][p..];
      assert names[i] == RigPrefix(rig) + names[i][p..];
    }
  }

  /** Within one rig an item has one branch, so no earlier one can have overridden it. */
  lemma OwnBranchOnly(r: Repo, names: seq<string>, rig: string, i: nat)
    requires i < |names|
    requires forall k :: 0 <= k < |names| ==> RigPrefix(rig) <= names[k]
    requires forall j, k :: 0 <= j < k < |names| ==> names[j] != names[k]
    ensures Mutation(r, names[..i], OneRig(rig), names[i][|RigPrefix(rig)|..]).None?
  {
    OwnBranchBefore(r, names, rig, i, i);
  }

  /** Branch names all start with the rig's prefix and are distinct, as the database lists them. */
  method DetectBranchOverrides(r: Repo, names: seq<string>, rig: string) returns (overrides: seq<Override>)
    requires forall i :: 0 <= i < |names| ==> RigPrefix(rig) <= names[i]
    requires forall i, j :: 0 <= i < j < |names| ==> names[i] != names[j]
    ensures overrides == Overrides(r, names, OneRig(rig))
  {
    overrides := [];
    var prefix := RigPrefix(rig);
    var i := 0;
    while i < |names|
      invariant 0 <= i <= |names|
      invariant overrides == Overrides(r, names[..i], OneRig(rig))
    {
      TakeOneMore(names, i);
      var branch := names[i];
      var id := branch[|prefix|..];
      OwnBranchOnly(r, names, rig, i);
      if StatusOn(r, id, branch) != "" {
        if StatusOn(r, id, branch) != MainStatus(r, id) {
          overrides := overrides + [Override(id, branch, StatusOn(r, id, branch), ClaimerOn(r, id, branch))];
        }
      }
      i := i + 1;
    }
    TakeAll(names);
  }

  function Counted(counts: map<Id, nat>, id: Id): nat {
    if id in counts then counts[id] else 0
  }

  method DetectAllBranchOverrides(r: Repo, names: seq<string>)
    returns (overrides: seq<Override>, counts: map<Id, nat>)
    ensures overrides == Overrides(r, names, AnyRig)
    ensures forall id :: Counted(counts, id) == BranchCount(names, AnyRig, id)
  {
    overrides, counts := [], map[];
    var seen: set<Id> := {};
    var i := 0;
    while i < |names|
      invariant 0 <= i <= |names|
      invariant overrides == Overrides(r, names[..i], AnyRig)
      invariant forall id {:trigger Counted(counts, id)} :: Counted(counts, id) == BranchCount(names[..i], AnyRig, id)
      invariant forall id {:trigger id in seen} :: id in seen <==> Mutation(r, names[..i], AnyRig, id).Some?
    {
      TakeOneMore(names, i);
      var branch := names[i];
      var id := AnyRig(branch);
      i := i + 1;
      if id.None? {
        continue;
      }
      counts := counts[id.value := Counted(counts, id.value) + 1];
      if id.value in seen {
        continue;
      }
      if Differs(r, id.value, branch) {
        seen := seen + {id.value};
        overrides := overrides + [OverrideOf(r, id.value, branch)];
      }
    }
    TakeAll(names);
  }

  /** The rows that only their branch brings into the list. */
  method AddMissing(r: Repo, overrides: seq<Override>, applied: set<Id>, status: string, passes: Item -> bool)
    returns (added: seq<Summary>)
    ensures added == Added(r, overrides, applied, status, passes)
  {
    added := [];
    var i := 0;
    while i < |overrides|
      invariant 0 <= i <= |overrides|
      invariant added == Added(r, overrides[..i], applied, status, passes)
    {
      TakeOneMore(overrides, i);
      var o := overrides[i];
      i := i + 1;
      if o.id in applied || (status != "" && o.status != status) {
        continue;
      }
      var item := Detail(r, o);
      if item.None? {
        continue;
      }
      var effective := item.value.(status := o.status);
      if o.claimedBy != "" {
        effective := effective.(claimedBy := o.claimedBy);
      }
      if passes(effective) {
        added := added + [Summary(o.id, effective)];
      }
    }
    TakeAll(overrides);
  }

  /** The loops both overlays share: index the overrides, then correct or drop rows. */
  method KeepOverridden(items: seq<Summary>, overrides: seq<Override>, status: string)
    returns (byId: map<Id, Override>, applied: set<Id>, kept: seq<Summary>)
    ensures byId == ById(overrides)
    ensures applied == Seen(items, byId)
    ensures kept == Kept(items, byId, status)
  {
    byId := map[];
    var i := 0;
    while i < |overrides|
      invariant 0 <= i <= |overrides|
      invariant byId == ById(overrides[..i])
    {
      TakeOneMore(overrides, i);
      byId := byId[overrides[i].id := overrides[i]];
      i := i + 1;
    }
    TakeAll(overrides);
    applied, kept := {}, [];
    i := 0;
    while i < |items|
      invariant 0 <= i <= |items|
      invariant applied == Seen(items[..i], byId)
      invariant kept == Kept(items[..i], byId, status)
    {
      TakeOneMore(items, i);
      var item := items[i];
      i := i + 1;
      if item.id in byId {
        var o := byId[item.id];
        applied := applied + {item.id};
        item := item.(item := item.item.(status := o.status));
        if o.claimedBy != "" {
          item := item.(item := item.item.(claimedBy := o.claimedBy));
        }
        if status != "" && item.item.status != status {
          continue;
        }
      }
      kept := kept + [item];
    }
    TakeAll(items);
  }

  method ApplyBranchOverrides(r: Repo, items: seq<Summary>, overrides: seq<Override>, f: Filter)
    returns (result: seq<Summary>)
    ensures result == Overlaid(r, items, overrides, f.status, Matcher(f))
  {
    if overrides == [] {
      return items;
    }
    var byId, applied, kept := KeepOverridden(items, overrides, f.status);
    var added := AddMissing(r, overrides, applied, f.status, Matcher(f));
    result := kept + added;
  }

  /** A dashboard section always filters on a status. */
  method ApplyDashboardOverrides(
    r: Repo, items: seq<Summary>, overrides: seq<Override>, status: string, field: Person, who: string)
    returns (result: seq<Summary>)
    requires status != ""
    ensures result == Overlaid(r, items, overrides, status, PersonMatcher(field, who))
  {
    if overrides == [] {
      return items;
    }
    var byId, applied, kept := KeepOverridden(items, overrides, status);
    var added := AddMissing(r, overrides, applied, status, PersonMatcher(field, who));
    result := kept + added;
  }
}

/** The overlaid list is the list of the effective board. */
module OverlayTheorems {
  import opened Sequences
  import opened Wrappers
  import opened OverlaySpec

  function Count(ss: seq<Summary>, id: Id): nat {
    if ss == [] then 0 else Count(ss[..|ss| - 1], id) + if ss[|ss| - 1].id == id then 1 else 0
  }

  lemma CountSnoc(ss: seq<Summary>, s: Summary, id: Id)
    ensures Count(ss + [s], id) == Count(ss, id) + if s.id == id then 1 else 0
  {
    assert (ss + [s])[..|ss|] == ss;
  }

  lemma {:induction false} CountConcat(a: seq<Summary>, b: seq<Summary>, id: Id)
    ensures Count(a + b, id) == Count(a, id) + Count(b, id)
  {
    if b == [] {
      assert a + b == a;
    } else {
      var front, s := b[..|b| - 1], b[|b| - 1];
      CountConcat(a, front, id);
      CountSnoc(a + front, s, id);
      assert a + b == (a + front) + [s];
    }
  }

  lemma CountFew(ss: seq<Summary>, id: Id)
    requires |ss| <= 1
    ensures Count(ss, id) == if |ss| == 1 && ss[0].id == id then 1 else 0
  {
    if |ss| == 1 { assert ss == [] + [ss[0]]; CountSnoc([], ss[0], id); }
  }

  lemma {:induction false} CountMeansListed(ss: seq<Summary>, id: Id)
    ensures Count(ss, id) > 0 <==> exists s :: s in ss && s.id == id
  {
    if ss != [] {
      var front, last := ss[..|ss| - 1], ss[|ss| - 1];
      CountMeansListed(front, id);
      assert ss == front + [last];
      if s :| s in ss && s.id == id && s !in front { assert s == last; }
    }
  }

  // ------------------------------------------------------------ what is detected

  /** One override for each mutated item, none for the others. */
  lemma {:induction false} OverridesAreMutations(r: Repo, names: seq<string>, idOf: string -> Option<Id>, id: Id)
    ensures var m := Mutation(r, names, idOf, id);
            var index := ById(Overrides(r, names, idOf));
            && (id in index <==> m.Some?)
            && (m.Some? ==> Differs(r, id, m.value) && index[id] == OverrideOf(r, id, m.value))
            && forall o :: o in Overrides(r, names, idOf) && o.id == id ==> m.Some? && o == OverrideOf(r, id, m.value)
  {
    if names != [] {
      var before, name := names[..|names| - 1], names[|names| - 1];
      OverridesAreMutations(r, before, idOf, id);
      var os := Overrides(r, before, idOf);
      var x := idOf(name);
      if x.Some? && Mutation(r, before, idOf, x.value).None? && Differs(r, x.value, name) {
        var o := OverrideOf(r, x.value, name);
        assert (os + [o])[..|os|] == os;
      } else {
        assert os + [] == os;
      }
    }
  }

  function OverrideCount(overrides: seq<Override>, id: Id): nat {
    if overrides == [] then 0
    else OverrideCount(overrides[..|overrides| - 1], id) + if overrides[|overrides| - 1].id == id then 1 else 0
  }

  lemma {:induction false} OneOverrideEach(r: Repo, names: seq<string>, idOf: string -> Option<Id>, id: Id)
    ensures OverrideCount(Overrides(r, names, idOf), id) == if Mutation(r, names, idOf, id).Some? then 1 else 0
  {
    if names != [] {
      var before, name := names[..|names| - 1], names[|names| - 1];
      OneOverrideEach(r, before, idOf, id);
      var os := Overrides(r, before, idOf);
      var x := idOf(name);
      if x.Some? && Mutation(r, before, idOf, x.value).None? && Differs(r, x.value, name) {
        assert (os + [OverrideOf(r, x.value, name)])[..|os|] == os;
      } else {
        assert os + [] == os;
      }
    }
  }

  // ------------------------------------------------------------ what is applied

  lemma {:induction false} KeptCount(items: seq<Summary>, index: map<Id, Override>, status: string, id: Id)
    ensures Count(Kept(items, index, status), id) ==
            if id in index && !StatusPasses(status, index[id].status) then 0 else Count(items, id)
    ensures id in Seen(items, index) <==> id in index && Count(items, id) > 0
  {
    if items != [] {
      var front, s := items[..|items| - 1], items[|items| - 1];
      KeptCount(front, index, status, id);
      CountConcat(Kept(front, index, status), KeptOne(s, index, status), id);
      CountFew(KeptOne(s, index, status), id);
    }
  }

  lemma {:induction false} AddedCount(
    r: Repo, overrides: seq<Override>, seen: set<Id>, status: string, passes: Item -> bool, id: Id, o: Override)
    requires o.id == id && forall x :: x in overrides && x.id == id ==> x == o
    ensures Count(Added(r, overrides, seen, status, passes), id) ==
            if AddedOne(r, o, seen, status, passes) == [] then 0 else OverrideCount(overrides, id)
  {
    if overrides != [] {
      var front, last := overrides[..|overrides| - 1], overrides[|overrides| - 1];
      assert forall x :: x in front ==> x in overrides;
      AddedCount(r, front, seen, status, passes, id, o);
      CountConcat(Added(r, front, seen, status, passes), AddedOne(r, last, seen, status, passes), id);
      CountFew(AddedOne(r, last, seen, status, passes), id);
    }
  }

  // ------------------------------------------------------------ the theorem

  /** A listed row has every column of the item but its tags and perhaps its description. */
  predicate Shows(listed: Item, row: Item) {
    listed.(tags := row.tags, description := row.description) == row
  }

  /** All the rows of main that pass, once each, in any order. */
  ghost predicate ListsMain(r: Repo, items: seq<Summary>, status: string, passes: Item -> bool) {
    && (forall id {:trigger Count(items, id)} ::
          Count(items, id) ==
          if id in r.main && StatusPasses(status, r.main[id].status) && passes(r.main[id]) then 1 else 0)
    && forall s :: s in items ==> s.id in r.main && Shows(s.item, r.main[s.id])
  }

  predicate Passes(item: Option<Item>, status: string, passes: Item -> bool) {
    item.Some? && StatusPasses(status, item.value.status) && passes(item.value)
  }

  /** A row read from main is corrected in place and not checked again. */
  predicate Unchecked(
    r: Repo, names: seq<string>, idOf: string -> Option<Id>, status: string, passes: Item -> bool, id: Id)
  {
    && status == "" && Mutation(r, names, idOf, id).Some?
    && Passes(if id in r.main then Some(r.main[id]) else None, status, passes)
  }

  /** Patching a branch's own row with its own status and claimer changes nothing. */
  lemma MergedDetail(r: Repo, id: Id, branch: string)
    requires Differs(r, id, branch)
    ensures var o := OverrideOf(r, id, branch);
            Detail(r, o) == Some(r.branches[branch][id]) && Patched(Detail(r, o).value, o) == Detail(r, o).value
  {
  }

  /** The second loop lists an id once if its mutation passes and the first loop did
      not see it. */
  lemma MissingCount(
    r: Repo, items: seq<Summary>, names: seq<string>, idOf: string -> Option<Id>,
    status: string, passes: Item -> bool, id: Id)
    ensures var os, m := Overrides(r, names, idOf), Mutation(r, names, idOf, id);
            Count(Added(r, os, Seen(items, ById(os)), status, passes), id) ==
            if && m.Some? && Count(items, id) == 0 && Differs(r, id, m.value)
               && Passes(Some(r.branches[m.value][id]), status, passes)
            then 1 else 0
  {
    var os, m := Overrides(r, names, idOf), Mutation(r, names, idOf, id);
    OverridesAreMutations(r, names, idOf, id);
    OneOverrideEach(r, names, idOf, id);
    KeptCount(items, ById(os), status, id);
    var o := if m.Some? then OverrideOf(r, id, m.value) else Override(id, "", "", "");
    AddedCount(r, os, Seen(items, ById(os)), status, passes, id, o);
    if m.Some? { MergedDetail(r, id, m.value); }
  }

  /** The rows of both loops together. */
  lemma OverlaidCount(
    r: Repo, items: seq<Summary>, overrides: seq<Override>, status: string, passes: Item -> bool, id: Id)
    requires overrides != []
    ensures Count(Overlaid(r, items, overrides, status, passes), id) ==
            Count(Kept(items, ById(overrides), status), id)
            + Count(Added(r, overrides, Seen(items, ById(overrides)), status, passes), id)
  {
    CountConcat(Kept(items, ById(overrides), status),
                Added(r, overrides, Seen(items, ById(overrides)), status, passes), id);
  }

  lemma UnmutatedCount(
    r: Repo, items: seq<Summary>, names: seq<string>, idOf: string -> Option<Id>,
    status: string, passes: Item -> bool, id: Id)
    requires Mutation(r, names, idOf, id).None?
    ensures Count(Overlaid(r, items, Overrides(r, names, idOf), status, passes), id) == Count(items, id)
  {
    var os := Overrides(r, names, idOf);
    if os != [] {
      OverlaidCount(r, items, os, status, passes, id);
      OverridesAreMutations(r, names, idOf, id);
      KeptCount(items, ById(os), status, id);
      MissingCount(r, items, names, idOf, status, passes, id);
    }
  }

  /** A listed row follows the branch's status; an unlisted one must pass the whole filter. */
  lemma MutatedCount(
    r: Repo, items: seq<Summary>, names: seq<string>, idOf: string -> Option<Id>, status: string, passes: Item -> bool,
    id: Id, branch: string)
    requires Mutation(r, names, idOf, id) == Some(branch) && Differs(r, id, branch)
    ensures Count(Overlaid(r, items, Overrides(r, names, idOf), status, passes), id) ==
            if Count(items, id) > 0
            then if StatusPasses(status, r.branches[branch][id].status) then Count(items, id) else 0
            else if Passes(Some(r.branches[branch][id]), status, passes) then 1 else 0
  {
    var os := Overrides(r, names, idOf);
    OverridesAreMutations(r, names, idOf, id);
    OneOverrideEach(r, names, idOf, id);
    OverlaidCount(r, items, os, status, passes, id);
    KeptCount(items, ById(os), status, id);
    MissingCount(r, items, names, idOf, status, passes, id);
  }

  /** Each id is listed once or not at all, and as the effective board has it, except
      that an overridden row of an unfiltered status stays even when its branch fails
      the rest of the filter. */
  lemma ListedCount(
    r: Repo, items: seq<Summary>, names: seq<string>, idOf: string -> Option<Id>,
    status: string, passes: Item -> bool, id: Id)
    requires ListsMain(r, items, status, passes)
    ensures Count(Overlaid(r, items, Overrides(r, names, idOf), status, passes), id) ==
            if Unchecked(r, names, idOf, status, passes, id) || Passes(Effective(r, names, idOf, id), status, passes)
            then 1 else 0
  {
    assert Count(items, id) <= 1;
    OverridesAreMutations(r, names, idOf, id);
    var m := Mutation(r, names, idOf, id);
    if m.Some? {
      MutatedCount(r, items, names, idOf, status, passes, id, m.value);
    } else {
      UnmutatedCount(r, items, names, idOf, status, passes, id);
    }
  }

  lemma AllHoldConcat(item: Item, a: seq<Condition>, b: seq<Condition>)
    ensures AllHold(item, a + b) <==> AllHold(item, a) && AllHold(item, b)
  {
    if AllHold(item, a + b) {
      forall i | 0 <= i < |a| ensures Holds(item, a[i]) { assert (a + b)[i] == a[i]; }
      forall i | 0 <= i < |b| ensures Holds(item, b[i]) { assert (a + b)[|a| + i] == b[i]; }
    }
  }

  lemma AllHoldWhen(item: Item, set_: bool, c: Condition)
    ensures AllHold(item, When(set_, c)) <==> (set_ ==> Holds(item, c))
  {
    if AllHold(item, When(set_, c)) && set_ { assert Holds(item, When(set_, c)[0]); }
  }

  /** The server's WHERE clause and the overlay's own filter ask for the same items,
      unless a text or my-items filter is set. */
  lemma QueryAgreesWithFilter(item: Item, f: Filter)
    requires f.search == "" && f.myItems == ""
    ensures Selected(item, f) <==> StatusPasses(f.status, item.status) && MatchesBrowseFilter(item, f)
  {
    var status, project := When(f.status != "", StatusIs(f.status)), When(f.project != "", ProjectIs(f.project));
    var kind, priority := When(f.kind != "", KindIs(f.kind)), When(f.priority >= 0, PriorityIs(f.priority));
    var poster := When(f.postedBy != "", PostedByIs(f.postedBy));
    var claimer := When(f.claimedBy != "", ClaimedByIs(f.claimedBy));
    AllHoldConcat(item, status, project);
    AllHoldConcat(item, status + project, kind);
    AllHoldConcat(item, status + project + kind, priority);
    AllHoldConcat(item, poster, claimer);
    AllHoldConcat(item, status + project + kind + priority, poster + claimer);
    AllHoldWhen(item, f.status != "", StatusIs(f.status));
    AllHoldWhen(item, f.project != "", ProjectIs(f.project));
    AllHoldWhen(item, f.kind != "", KindIs(f.kind));
    AllHoldWhen(item, f.priority >= 0, PriorityIs(f.priority));
    AllHoldWhen(item, f.postedBy != "", PostedByIs(f.postedBy));
    AllHoldWhen(item, f.claimedBy != "", ClaimedByIs(f.claimedBy));
  }

  /** The untruncated answer of the browse query: every selected row of main once, in any order. */
  ghost predicate Answers(r: Repo, items: seq<Summary>, f: Filter) {
    && (forall id {:trigger Count(items, id)} ::
          Count(items, id) == if id in r.main && Selected(r.main[id], f) then 1 else 0)
    && forall s :: s in items ==> s.id in r.main && Shows(s.item, r.main[s.id])
  }

  lemma AnswersListMain(r: Repo, items: seq<Summary>, f: Filter)
    requires Answers(r, items, f) && f.search == "" && f.myItems == ""
    ensures ListsMain(r, items, f.status, Matcher(f))
  {
    forall id
      ensures Count(items, id) ==
              if id in r.main && StatusPasses(f.status, r.main[id].status) && Matcher(f)(r.main[id]) then 1 else 0
    {
      if id in r.main { QueryAgreesWithFilter(r.main[id], f); }
    }
  }

  /** With a status filter, as in an untruncated dashboard section, the overlay is exact. */
  lemma StatusFilteredIsExact(
    r: Repo, items: seq<Summary>, names: seq<string>, idOf: string -> Option<Id>,
    status: string, passes: Item -> bool, id: Id)
    requires ListsMain(r, items, status, passes) && status != ""
    ensures Count(Overlaid(r, items, Overrides(r, names, idOf), status, passes), id) ==
            if Passes(Effective(r, names, idOf, id), status, passes) then 1 else 0
  {
    ListedCount(r, items, names, idOf, status, passes, id);
  }

  /** Mutations change nothing but the status, the claimer and the tags. */
  predicate SameDetails(a: Item, b: Item) {
    a.(status := b.status, claimedBy := b.claimedBy, tags := b.tags) == b
  }

  ghost predicate LifecycleOnly(r: Repo) {
    forall branch, id {:trigger id in r.branches[branch]} ::
      branch in r.branches && id in r.branches[branch] && id in r.main ==>
        SameDetails(r.branches[branch][id], r.main[id])
  }

  /** Main lists the item for its claimer, and its branch has another one. */
  predicate ClaimerLost(r: Repo, names: seq<string>, idOf: string -> Option<Id>, f: Filter, id: Id) {
    var m := Mutation(r, names, idOf, id);
    && f.status == "" && f.claimedBy != "" && m.Some? && id in r.main && MatchesBrowseFilter(r.main[id], f)
    && ClaimerOn(r, id, m.value) != f.claimedBy
  }

  /** Browsing without a text search is exact for every filter, until a claimer is asked
      for without a status and some mutation took an item away from that claimer. */
  lemma BrowseIsExactUnlessClaimerLost(
    r: Repo, items: seq<Summary>, names: seq<string>, idOf: string -> Option<Id>, f: Filter, id: Id)
    requires Answers(r, items, f) && LifecycleOnly(r) && f.search == "" && f.myItems == ""
    ensures Count(Overlaid(r, items, Overrides(r, names, idOf), f.status, Matcher(f)), id) <= 1
    ensures (Count(Overlaid(r, items, Overrides(r, names, idOf), f.status, Matcher(f)), id) == 1
             <==> Passes(Effective(r, names, idOf, id), f.status, Matcher(f)))
            <==> !ClaimerLost(r, names, idOf, f, id)
  {
    AnswersListMain(r, items, f);
    ListedCount(r, items, names, idOf, f.status, Matcher(f), id);
    OverridesAreMutations(r, names, idOf, id);
    var m := Mutation(r, names, idOf, id);
    if m.Some? && id in r.main {
      assert id in r.branches[m.value];
      assert SameDetails(r.branches[m.value][id], r.main[id]);
    }
  }

  /** Filters on status, type, project, priority and poster: exactly the effective board. */
  lemma BrowseIsExact(
    r: Repo, items: seq<Summary>, names: seq<string>, idOf: string -> Option<Id>, f: Filter, id: Id)
    requires Answers(r, items, f) && LifecycleOnly(r) && f.search == "" && f.myItems == "" && f.claimedBy == ""
    ensures Count(Overlaid(r, items, Overrides(r, names, idOf), f.status, Matcher(f)), id) ==
            if Passes(Effective(r, names, idOf, id), f.status, Matcher(f)) then 1 else 0
  {
    BrowseIsExactUnlessClaimerLost(r, items, names, idOf, f, id);
  }

  // ------------------------------------------------------------ what is shown

  lemma {:induction false} KeptFrom(items: seq<Summary>, index: map<Id, Override>, status: string, s: Summary)
    requires s in Kept(items, index, status)
    ensures exists x :: x in items && s in KeptOne(x, index, status)
  {
    var front, last := items[..|items| - 1], items[|items| - 1];
    if s in Kept(front, index, status) {
      KeptFrom(front, index, status, s);
      var x :| x in front && s in KeptOne(x, index, status);
      assert x in items;
    } else {
      assert s in KeptOne(last, index, status);
    }
  }

  lemma {:induction false} AddedFrom(
    r: Repo, overrides: seq<Override>, seen: set<Id>, status: string, passes: Item -> bool, s: Summary)
    requires s in Added(r, overrides, seen, status, passes)
    ensures exists o :: o in overrides && s in AddedOne(r, o, seen, status, passes)
  {
    var front, last := overrides[..|overrides| - 1], overrides[|overrides| - 1];
    if s in Added(r, front, seen, status, passes) {
      AddedFrom(r, front, seen, status, passes, s);
      var o :| o in front && s in AddedOne(r, o, seen, status, passes);
      assert o in overrides;
    } else {
      assert s in AddedOne(r, last, seen, status, passes);
    }
  }

  /** The branch has released an item that main still lists for its claimer. */
  predicate StaleClaimer(r: Repo, items: seq<Summary>, names: seq<string>, idOf: string -> Option<Id>, id: Id) {
    var m := Mutation(r, names, idOf, id);
    && m.Some? && Count(items, id) > 0 && id in r.main
    && ClaimerOn(r, id, m.value) == "" && r.main[id].claimedBy != ""
  }

  predicate RowIsEffective(r: Repo, items: seq<Summary>, names: seq<string>, idOf: string -> Option<Id>, s: Summary) {
    var e := Effective(r, names, idOf, s.id);
    && e.Some? && s.item.status == e.value.status
    && (Shows(s.item, e.value) <==> !StaleClaimer(r, items, names, idOf, s.id))
  }

  lemma CorrectedRow(r: Repo, x: Summary, id: Id, branch: string)
    requires x.id == id && id in r.main && Shows(x.item, r.main[id]) && Differs(r, id, branch) && LifecycleOnly(r)
    ensures var e, o := r.branches[branch][id], OverrideOf(r, id, branch);
            && Patched(x.item, o).status == e.status
            && (Shows(Patched(x.item, o), e) <==> !(e.claimedBy == "" && r.main[id].claimedBy != ""))
  {
    assert id in r.branches[branch];
    assert SameDetails(r.branches[branch][id], r.main[id]);
  }

  lemma KeptRowIsEffective(
    r: Repo, items: seq<Summary>, names: seq<string>, idOf: string -> Option<Id>, status: string, passes: Item -> bool,
    x: Summary, s: Summary)
    requires ListsMain(r, items, status, passes) && LifecycleOnly(r)
    requires x in items && s in KeptOne(x, ById(Overrides(r, names, idOf)), status)
    ensures RowIsEffective(r, items, names, idOf, s)
  {
    var m := Mutation(r, names, idOf, s.id);
    OverridesAreMutations(r, names, idOf, s.id);
    CountMeansListed(items, s.id);
    if m.Some? {
      CorrectedRow(r, x, s.id, m.value);
    }
  }

  lemma AddedRowIsEffective(
    r: Repo, items: seq<Summary>, names: seq<string>, idOf: string -> Option<Id>, status: string, passes: Item -> bool,
    s: Summary)
    requires s in Added(r, Overrides(r, names, idOf), Seen(items, ById(Overrides(r, names, idOf))), status, passes)
    ensures RowIsEffective(r, items, names, idOf, s)
  {
    var os := Overrides(r, names, idOf);
    var seen := Seen(items, ById(os));
    OverridesAreMutations(r, names, idOf, s.id);
    AddedFrom(r, os, seen, status, passes, s);
    var o :| o in os && s in AddedOne(r, o, seen, status, passes);
    KeptCount(items, ById(os), status, s.id);
    MergedDetail(r, s.id, o.branch);
  }

  /** Every listed row shows the effective item, down to its claimer unless the branch
      emptied that column. */
  lemma ListedRowsAreEffective(
    r: Repo, items: seq<Summary>, names: seq<string>, idOf: string -> Option<Id>, status: string, passes: Item -> bool,
    s: Summary)
    requires ListsMain(r, items, status, passes) && LifecycleOnly(r)
    requires s in Overlaid(r, items, Overrides(r, names, idOf), status, passes)
    ensures RowIsEffective(r, items, names, idOf, s)
  {
    var os := Overrides(r, names, idOf);
    CountMeansListed(items, s.id);
    OverridesAreMutations(r, names, idOf, s.id);
    if os != [] {
      if s in Kept(items, ById(os), status) {
        KeptFrom(items, ById(os), status, s);
        var x :| x in items && s in KeptOne(x, ById(os), status);
        KeptRowIsEffective(r, items, names, idOf, status, passes, x, s);
      } else {
        AddedRowIsEffective(r, items, names, idOf, status, passes, s);
      }
    }
  }

  // ------------------------------------------------------------ order

  function UntouchedOne(s: Summary, overridden: set<Id>): seq<Summary> {
    if s.id in overridden then [] else [s]
  }

  function Untouched(items: seq<Summary>, overridden: set<Id>): seq<Summary> {
    if items == [] then []
    else Untouched(items[..|items| - 1], overridden) + UntouchedOne(items[|items| - 1], overridden)
  }

  lemma UntouchedSnoc(a: seq<Summary>, s: Summary, overridden: set<Id>)
    ensures Untouched(a + [s], overridden) == Untouched(a, overridden) + UntouchedOne(s, overridden)
  {
    assert (a + [s])[..|a|] == a;
  }

  lemma {:induction false} UntouchedConcat(a: seq<Summary>, b: seq<Summary>, overridden: set<Id>)
    ensures Untouched(a + b, overridden) == Untouched(a, overridden) + Untouched(b, overridden)
  {
    if b == [] {
      assert a + b == a;
    } else {
      var front, last := b[..|b| - 1], b[|b| - 1];
      UntouchedConcat(a, front, overridden);
      assert b == front + [last];
      Regroup(a, front, [last]);
      UntouchedSnoc(a + front, last, overridden);
      Regroup(Untouched(a, overridden), Untouched(front, overridden), UntouchedOne(last, overridden));
    }
  }

  lemma UntouchedFew(one: seq<Summary>, overridden: set<Id>)
    requires |one| <= 1
    ensures Untouched(one, overridden) == if one == [] then [] else UntouchedOne(one[0], overridden)
  {
    if one != [] {
      assert one == [] + [one[0]];
      UntouchedSnoc([], one[0], overridden);
    }
  }

  lemma {:induction false} KeptUntouched(items: seq<Summary>, index: map<Id, Override>, status: string)
    ensures Untouched(Kept(items, index, status), index.Keys) == Untouched(items, index.Keys)
  {
    if items != [] {
      var front, last := items[..|items| - 1], items[|items| - 1];
      KeptUntouched(front, index, status);
      var one := KeptOne(last, index, status);
      UntouchedConcat(Kept(front, index, status), one, index.Keys);
      UntouchedFew(one, index.Keys);
      assert Untouched(one, index.Keys) == UntouchedOne(last, index.Keys);
    }
  }

  lemma {:induction false} AddedTouched(
    r: Repo, overrides: seq<Override>, seen: set<Id>, status: string, passes: Item -> bool, overridden: set<Id>)
    requires forall o :: o in overrides ==> o.id in overridden
    ensures Untouched(Added(r, overrides, seen, status, passes), overridden) == []
  {
    if overrides != [] {
      var front, last := overrides[..|overrides| - 1], overrides[|overrides| - 1];
      assert last in overrides && forall o :: o in front ==> o in overrides;
      AddedTouched(r, front, seen, status, passes, overridden);
      var one := AddedOne(r, last, seen, status, passes);
      UntouchedConcat(Added(r, front, seen, status, passes), one, overridden);
      UntouchedFew(one, overridden);
    }
  }

  lemma {:induction false} IndexedById(overrides: seq<Override>, o: Override)
    requires o in overrides
    ensures o.id in ById(overrides)
  {
    var front, last := overrides[..|overrides| - 1], overrides[|overrides| - 1];
    if o != last {
      assert o in front;
      IndexedById(front, o);
    }
  }

  /** The rows no branch overrides are untouched and keep their order. */
  lemma OrderIsKept(r: Repo, items: seq<Summary>, overrides: seq<Override>, status: string, passes: Item -> bool)
    ensures Untouched(Overlaid(r, items, overrides, status, passes), ById(overrides).Keys) ==
            Untouched(items, ById(overrides).Keys)
  {
    if overrides != [] {
      var index := ById(overrides);
      var seen := Seen(items, index);
      forall o | o in overrides ensures o.id in index.Keys { IndexedById(overrides, o); }
      KeptUntouched(items, index, status);
      AddedTouched(r, overrides, seen, status, passes, index.Keys);
      UntouchedConcat(Kept(items, index, status), Added(r, overrides, seen, status, passes), index.Keys);
    }
  }
}
