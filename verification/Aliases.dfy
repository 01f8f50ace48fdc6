/** Turning group IDs into group aliases (internal/graph/client.go): the user's
    groups are the aliases that contain one of the user's group IDs. */
module Aliases {
  import opened Common
  import opened Ordering
  import opened Policy

  const CHECK_MEMBER_GROUPS_LIMIT := 20

  /** The aliases a member of exactly these group IDs holds. */
  ghost function AliasesIn(groups: Groups, members: set<string>): set<string> {
    set alias | alias in groups && exists id :: id in groups[alias] && id in members
  }

  /** Every configured group ID. */
  ghost function AllIds(groups: Groups): set<string> {
    set alias, id | alias in groups && id in groups[alias] :: id
  }

  /** Those of the given aliases that contain id. */
  ghost function Owners(groups: Groups, aliases: set<string>, id: string): set<string> {
    set alias | alias in aliases && alias in groups && id in groups[alias]
  }

  function Lookup(index: map<string, seq<string>>, id: string): seq<string> {
    if id in index then index[id] else []
  }

  /** index maps each ID to the listed owners, and nothing else. */
  ghost predicate Indexes(index: map<string, seq<string>>, owners: string -> set<string>) {
    forall id :: Elements(Lookup(index, id)) == owners(id) && (id in index ==> index[id] != [])
  }

  /** Owners found when, besides all of done, the first IDs of alias were read. */
  ghost function OwnersSoFar(groups: Groups, done: set<string>, alias: string, ids: seq<string>): string -> set<string> {
    (id: string) => Owners(groups, done, id) + if id in ids then {alias} else {}
  }

  lemma AppendOwner(index: map<string, seq<string>>, groups: Groups, done: set<string>, alias: string,
      ids: seq<string>, j: nat)
    requires j < |ids| && Indexes(index, OwnersSoFar(groups, done, alias, ids[..j]))
    ensures Indexes(index[ids[j] := Lookup(index, ids[j]) + [alias]], OwnersSoFar(groups, done, alias, ids[..j + 1]))
  {
  }

  lemma FinishAlias(index: map<string, seq<string>>, groups: Groups, done: set<string>, alias: string)
    requires alias in groups && Indexes(index, OwnersSoFar(groups, done, alias, groups[alias]))
    ensures Indexes(index, OwnersSoFar(groups, done + {alias}, "", []))
  {
  }

  lemma StartAlias(index: map<string, seq<string>>, groups: Groups, done: set<string>, alias: string)
    requires Indexes(index, OwnersSoFar(groups, done, "", []))
    ensures Indexes(index, OwnersSoFar(groups, done, alias, []))
  {
  }

  /** The first loop of prepareGroupAliases. Go visits a map in any order. */
  method CollectOwners(groups: Groups) returns (index: map<string, seq<string>>)
    ensures Indexes(index, OwnersSoFar(groups, groups.Keys, "", []))
  {
    index := map[];
    var remaining := groups.Keys;
    while remaining != {}
      invariant remaining <= groups.Keys
      invariant Indexes(index, OwnersSoFar(groups, groups.Keys - remaining, "", []))
    {
      var alias :| alias in remaining;
      ghost var done := groups.Keys - remaining;
      StartAlias(index, groups, done, alias);
      var ids := groups[alias];
      for j := 0 to |ids|
        invariant Indexes(index, OwnersSoFar(groups, done, alias, ids[..j]))
      {
        AppendOwner(index, groups, done, alias, ids, j);
        index := index[ids[j] := Lookup(index, ids[j]) + [alias]];
      }
      assert ids[..|ids|] == ids;
      FinishAlias(index, groups, done, alias);
      remaining := remaining - {alias};
      assert groups.Keys - remaining == done + {alias};
    }
    assert groups.Keys - remaining == groups.Keys;
  }

  /** index with the lists of the given IDs sorted and compacted. */
  ghost function CompactedOn(index: map<string, seq<string>>, done: set<string>): map<string, seq<string>> {
    map id | id in index :: if id in done then UniqueSorted(index[id]) else index[id]
  }

  lemma CompactStep(index: map<string, seq<string>>, done: set<string>, id: string)
    requires id in index
    ensures CompactedOn(index, done)[id := UniqueSorted(index[id])] == CompactedOn(index, done + {id})
  {
  }

  lemma CompactStart(index: map<string, seq<string>>)
    ensures CompactedOn(index, {}) == index
  {
  }

  /** The second loop: sorts and compacts each list in place and gathers the
      IDs, again in any order. */
  method CompactOwners(index: map<string, seq<string>>) returns (groupIDs: seq<string>, aliasesByID: map<string, seq<string>>)
    ensures Elements(groupIDs) == index.Keys && |groupIDs| == |index.Keys|
    ensures aliasesByID == CompactedOn(index, index.Keys)
  {
    CompactStart(index);
    aliasesByID := index;
    groupIDs := [];
    var done := {};
    while done != index.Keys
      invariant done <= index.Keys
      invariant Elements(groupIDs) == done && |groupIDs| == |done|
      invariant aliasesByID == CompactedOn(index, done)
      decreases |index.Keys - done|
    {
      var id := PickUndone(index.Keys, done);
      ElementsAppend(groupIDs, id);
      CompactStep(index, done, id);
      aliasesByID := aliasesByID[id := UniqueSorted(index[id])];
      groupIDs := groupIDs + [id];
      done := done + {id};
    }
  }

  method PickUndone(keys: set<string>, done: set<string>) returns (id: string)
    requires done <= keys && done != keys
    ensures id in keys && id !in done
    ensures done + {id} <= keys && |done + {id}| == |done| + 1
    ensures keys - (done + {id}) == (keys - done) - {id} && |keys - (done + {id})| < |keys - done|
  {
    assert keys - done != {};
    id :| id in keys - done;
    assert keys - (done + {id}) == (keys - done) - {id};
  }

  lemma ElementsAppend(s: seq<string>, x: string)
    ensures Elements(s + [x]) == Elements(s) + {x}
  {
  }

  /** The inverse relation: for each configured ID, its aliases in order. */
  ghost function OwnerLists(groups: Groups): map<string, seq<string>> {
    map id | id in AllIds(groups) :: SortedElements(Owners(groups, groups.Keys, id))
  }

  /** The configured IDs in order, and for each ID its aliases in order. */
  method PrepareGroupAliases(groups: Groups) returns (groupIDs: seq<string>, aliasesByID: map<string, seq<string>>)
    ensures groupIDs == SortedElements(AllIds(groups))
    ensures aliasesByID == OwnerLists(groups)
  {
    var index := CollectOwners(groups);
    groupIDs, aliasesByID := CompactOwners(index);
    IndexMeaning(groups, index);
    CompactedMeaning(groups, index);
    SortDistinct(groupIDs);
    groupIDs := Sort(groupIDs, StrLe);
    StrictUnique(groupIDs, SortedElements(AllIds(groups)));
  }

  lemma CompactedMeaning(groups: Groups, index: map<string, seq<string>>)
    requires index.Keys == AllIds(groups)
    requires forall id :: id in index ==> Elements(index[id]) == Owners(groups, groups.Keys, id)
    ensures CompactedOn(index, index.Keys) == OwnerLists(groups)
  {
    forall id | id in index ensures UniqueSorted(index[id]) == SortedElements(Owners(groups, groups.Keys, id)) {
      UniqueSortedMeaning(index[id]);
      StrictUnique(UniqueSorted(index[id]), SortedElements(Owners(groups, groups.Keys, id)));
    }
  }

  lemma IndexMeaning(groups: Groups, index: map<string, seq<string>>)
    requires Indexes(index, OwnersSoFar(groups, groups.Keys, "", []))
    ensures index.Keys == AllIds(groups)
    ensures forall id :: id in index ==> Elements(index[id]) == Owners(groups, groups.Keys, id)
  {
    forall id
      ensures id in index <==> id in AllIds(groups)
      ensures id in index ==> Elements(index[id]) == Owners(groups, groups.Keys, id)
    {
      assert Elements(Lookup(index, id)) == OwnersSoFar(groups, groups.Keys, "", [])(id);
      assert OwnersSoFar(groups, groups.Keys, "", [])(id) == Owners(groups, groups.Keys, id);
      if id in index {
        assert index[id][0] in Elements(index[id]);
        assert index[id][0] in Owners(groups, groups.Keys, id);
      }
      if id in AllIds(groups) {
        var alias :| alias in groups && id in groups[alias];
        assert alias in Owners(groups, groups.Keys, id);
        assert alias in Elements(Lookup(index, id));
      }
    }
  }

  /** What Graph answers to one checkMemberGroups request: those of the IDs that
      the user is a member of, in any order; or an error. */
  type Graph = seq<string> -> Option<seq<string>>

  ghost predicate Truthful(graph: Graph, members: set<string>) {
    forall batch :: graph(batch).Some? ==> Elements(graph(batch).value) == Elements(batch) * members
  }

  function Flatten(batches: seq<seq<string>>): seq<string> {
    if batches == [] then [] else Flatten(batches[..|batches| - 1]) + batches[|batches| - 1]
  }

  /** The batches of a list of IDs: twenty at a time, and the rest. */
  function Batches(ids: seq<string>): seq<seq<string>>
    decreases |ids|
  {
    if ids == [] then []
    else if |ids| <= CHECK_MEMBER_GROUPS_LIMIT then [ids]
    else [ids[..CHECK_MEMBER_GROUPS_LIMIT]] + Batches(ids[CHECK_MEMBER_GROUPS_LIMIT..])
  }

  /** Every batch but the last is full. */
  lemma {:induction false} BatchesAreFull(ids: seq<string>, i: nat)
    requires i < |Batches(ids)|
    ensures i < |Batches(ids)| - 1 ==> |Batches(ids)[i]| == 20
    ensures 0 < |Batches(ids)[i]| <= 20
    decreases |ids|
  {
    if |ids| > CHECK_MEMBER_GROUPS_LIMIT && i > 0 {
      BatchesAreFull(ids[CHECK_MEMBER_GROUPS_LIMIT..], i - 1);
    }
  }

  lemma NextBatch(ids: seq<string>, start: nat, end: nat)
    requires start < |ids|
    requires end == if start + CHECK_MEMBER_GROUPS_LIMIT < |ids| then start + CHECK_MEMBER_GROUPS_LIMIT else |ids|
    ensures Batches(ids[start..]) == [ids[start..end]] + Batches(ids[end..])
  {
    if end == |ids| {
      assert ids[start..end] == ids[start..] && ids[end..] == [];
    } else {
      assert ids[start..][..CHECK_MEMBER_GROUPS_LIMIT] == ids[start..end];
      assert ids[start..][CHECK_MEMBER_GROUPS_LIMIT..] == ids[end..];
    }
  }

  ghost predicate Answers(graph: Graph, batches: seq<seq<string>>) {
    forall b :: b in batches ==> graph(b).Some?
  }


  /** The batches asked so far, which were all answered, and what they found. */
  ghost predicate Found(graph: Graph, members: set<string>, ids: seq<string>, start: nat,
      batches: seq<seq<string>>, found: seq<string>)
    requires start <= |ids|
  {
    && Batches(ids) == batches + Batches(ids[start..])
    && Answers(graph, batches)
    && Flatten(batches) == ids[..start]
    && Elements(found) == Elements(ids[..start]) * members
  }

  lemma FoundMore(graph: Graph, members: set<string>, ids: seq<string>, start: nat, end: nat,
      batches: seq<seq<string>>, found: seq<string>)
    requires Truthful(graph, members) && start < |ids| && Found(graph, members, ids, start, batches, found)
    requires end == if start + CHECK_MEMBER_GROUPS_LIMIT < |ids| then start + CHECK_MEMBER_GROUPS_LIMIT else |ids|
    requires graph(ids[start..end]).Some?
    ensures Found(graph, members, ids, end, batches + [ids[start..end]], found + graph(ids[start..end]).value)
  {
    var batch := ids[start..end];
    var answer := graph(batch).value;
    NextBatch(ids, start, end);
    NextInWhole(Batches(ids), batches, batch, Batches(ids[end..]));
    assert ids[..end] == ids[..start] + batch;
    assert (batches + [batch])[..|batches|] == batches;
    ElementsJoin(ids[..start], batch);
    ElementsJoin(found, answer);
    assert Elements(answer) == Elements(batch) * members;
  }

  lemma ElementsJoin(a: seq<string>, b: seq<string>)
    ensures Elements(a + b) == Elements(a) + Elements(b)
  {
  }

  lemma NextInWhole<T>(whole: seq<T>, front: seq<T>, x: T, rest: seq<T>)
    requires whole == front + ([x] + rest)
    ensures front + [x] <= whole && x in whole && whole == (front + [x]) + rest
  {
    assert whole[|front|] == x;
  }

  lemma BatchesAnswer(graph: Graph, ids: seq<string>, start: nat, end: nat, batches: seq<seq<string>>)
    requires start < |ids| && Batches(ids) == batches + Batches(ids[start..])
    requires end == if start + CHECK_MEMBER_GROUPS_LIMIT < |ids| then start + CHECK_MEMBER_GROUPS_LIMIT else |ids|
    ensures batches + [ids[start..end]] <= Batches(ids) && ids[start..end] in Batches(ids)
  {
    NextBatch(ids, start, end);
    NextInWhole(Batches(ids), batches, ids[start..end], Batches(ids[end..]));
  }

  lemma NothingFound(graph: Graph, members: set<string>, ids: seq<string>)
    ensures Found(graph, members, ids, 0, [], [])
  {
    assert ids[0..] == ids && ids[..0] == [];
  }

  lemma AllFound(graph: Graph, members: set<string>, ids: seq<string>, start: nat, batches: seq<seq<string>>, found: seq<string>)
    requires start == |ids| && Found(graph, members, ids, start, batches, found)
    ensures batches == Batches(ids) && Flatten(batches) == ids && Elements(found) == Elements(ids) * members
  {
    assert ids[..start] == ids && ids[start..] == [];
  }

  lemma BatchesInBounds(ids: seq<string>, batches: seq<seq<string>>)
    requires batches <= Batches(ids)
    ensures forall b :: b in batches ==> 0 < |b| <= CHECK_MEMBER_GROUPS_LIMIT
  {
    forall i | 0 <= i < |batches| ensures 0 < |batches[i]| <= CHECK_MEMBER_GROUPS_LIMIT {
      BatchesAreFull(ids, i);
    }
  }

  /** Asks batch by batch, up to the first that fails; also returns the batches
      asked. */
  method CheckMemberGroups(graph: Graph, ghost members: set<string>, groupIDs: seq<string>)
    returns (memberships: Option<seq<string>>, batches: seq<seq<string>>)
    requires Truthful(graph, members)
    ensures forall b :: b in batches ==> 0 < |b| <= CHECK_MEMBER_GROUPS_LIMIT
    ensures memberships.Some? ==> Flatten(batches) == groupIDs
    ensures memberships.Some? ==> Elements(memberships.value) == Elements(groupIDs) * members
    ensures memberships.None? ==> batches != [] && graph(batches[|batches| - 1]).None?
    ensures batches <= Batches(groupIDs) && (memberships.Some? ==> batches == Batches(groupIDs))
    ensures memberships.Some? <==> Answers(graph, Batches(groupIDs))
  {
    var found: seq<string> := [];
    batches := [];
    var start := 0;
    NothingFound(graph, members, groupIDs);
    while start < |groupIDs|
      invariant 0 <= start <= |groupIDs| && Found(graph, members, groupIDs, start, batches, found)
    {
      var end := if start + CHECK_MEMBER_GROUPS_LIMIT < |groupIDs| then start + CHECK_MEMBER_GROUPS_LIMIT else |groupIDs|;
      var answer := graph(groupIDs[start..end]);
      if answer.None? {
        BatchesAnswer(graph, groupIDs, start, end, batches);
        batches := batches + [groupIDs[start..end]];
        BatchesInBounds(groupIDs, batches);
        return None, batches;
      }
      FoundMore(graph, members, groupIDs, start, end, batches, found);
      batches, found, start := batches + [groupIDs[start..end]], found + answer.value, end;
    }
    AllFound(graph, members, groupIDs, start, batches, found);
    BatchesInBounds(groupIDs, batches);
    ElementsOfMultiset(Sort(found, StrLe), found);
    return Some(Sort(found, StrLe)), batches;
  }

  /** The group part of Resolve: whatever the order of map iteration and however
      the IDs fall into batches, every configured ID is asked for exactly once,
      and the result is the sorted list of aliases the user holds. */
  method ResolveGroups(graph: Graph, ghost members: set<string>, groups: Groups)
    returns (aliases: Option<seq<string>>, batches: seq<seq<string>>)
    requires Truthful(graph, members)
    ensures aliases.Some? ==> aliases.value == SortedElements(AliasesIn(groups, members))
    ensures aliases.Some? ==> Flatten(batches) == SortedElements(AllIds(groups))
    ensures aliases.None? ==> batches != [] && graph(batches[|batches| - 1]).None?
    ensures aliases.Some? <==> Answers(graph, Batches(SortedElements(AllIds(groups))))
  {
    var groupIDs, aliasesByID := PrepareGroupAliases(groups);
    var memberships;
    memberships, batches := CheckMemberGroups(graph, members, groupIDs);
    if memberships.None? {
      return None, batches;
    }
    var held := UnionOfAliases(groups, aliasesByID, memberships.value);
    assert held == AliasesIn(groups, members) by { HeldAliases(groups, members, memberships.value, held); }
    var list := ListSet(held);
    StrictUnique(list, SortedElements(held));
    return Some(list), batches;
  }

  /** The aliases of all the IDs found. */
  method UnionOfAliases(groups: Groups, aliasesByID: map<string, seq<string>>, ids: seq<string>) returns (held: set<string>)
    requires aliasesByID == OwnerLists(groups)
    requires Elements(ids) <= AllIds(groups)
    ensures held == OwnersOfAll(groups, ids)
  {
    held := {};
    for i := 0 to |ids|
      invariant held == OwnersOfAll(groups, ids[..i])
    {
      OwnersOfNext(groups, ids, i);
      held := held + set alias | alias in aliasesByID[ids[i]];
    }
    assert ids[..|ids|] == ids;
  }

  ghost function OwnersOfAll(groups: Groups, ids: seq<string>): set<string> {
    if ids == [] then {} else
    OwnersOfAll(groups, ids[..|ids| - 1]) + Owners(groups, groups.Keys, ids[|ids| - 1])
  }

  lemma {:induction false} OwnersOfAllMeaning(groups: Groups, ids: seq<string>, alias: string)
    ensures alias in OwnersOfAll(groups, ids) <==> exists id :: id in ids && alias in Owners(groups, groups.Keys, id)
  {
    if ids != [] {
      var n := |ids| - 1;
      OwnersOfAllMeaning(groups, ids[..n], alias);
      assert forall id :: id in ids <==> id in ids[..n] || id == ids[n];
    }
  }

  lemma OwnersOfNext(groups: Groups, ids: seq<string>, i: nat)
    requires i < |ids| && Elements(ids) <= AllIds(groups)
    ensures ids[i] in OwnerLists(groups)
    ensures OwnersOfAll(groups, ids[..i + 1])
         == OwnersOfAll(groups, ids[..i]) + set alias | alias in OwnerLists(groups)[ids[i]]
  {
    assert ids[i] in Elements(ids);
    assert (set alias | alias in OwnerLists(groups)[ids[i]]) == Elements(OwnerLists(groups)[ids[i]]);
    assert ids[..i + 1][..i] == ids[..i];
  }

  lemma HeldAliases(groups: Groups, members: set<string>, ids: seq<string>, held: set<string>)
    requires Elements(ids) == AllIds(groups) * members
    requires held == OwnersOfAll(groups, ids)
    ensures held == AliasesIn(groups, members)
  {
    forall alias ensures alias in held <==> alias in AliasesIn(groups, members) {
      OwnersOfAllMeaning(groups, ids, alias);
      if alias in held {
        var id :| id in ids && alias in Owners(groups, groups.Keys, id);
        assert id in Elements(ids);
      }
      if alias in AliasesIn(groups, members) {
        var id :| id in groups[alias] && id in members;
        assert id in AllIds(groups) && id in Elements(ids);
        assert alias in Owners(groups, groups.Keys, id);
      }
    }
  }

  /** sortedSet: the keys of a Go map, sorted. */
  method ListSet(values: set<string>) returns (result: seq<string>)
    ensures StrictlySorted(result) && Elements(result) == values
  {
    result := [];
    var done := {};
    while done != values
      invariant done <= values
      invariant Elements(result) == done && |result| == |done|
      decreases |values - done|
    {
      var value := PickUndone(values, done);
      ElementsAppend(result, value);
      result := result + [value];
      done := done + {value};
    }
    SortDistinct(result);
    result := Sort(result, StrLe);
  }
}
