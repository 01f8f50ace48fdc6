/** The accounting of an apply (cmd/metabasis/output.go). */
module Reporting {
  import opened Common
  import opened Planner
  import opened Convergence
  import opened Reconciliation

  datatype Status = FailedStatus | AppliedStatus | UnchangedStatus

  /** subjectStatus. */
  function StatusOf(r: Report): Status {
    if r.error.Some? then FailedStatus
    else if |r.added| + |r.removed| > 0 then AppliedStatus
    else UnchangedStatus
  }

  datatype Totals = Totals(subjects: nat, applied: nat, untouched: nat, failed: nat, added: nat, removed: nat)

  ghost function SumOf(results: seq<Report>, size: Report -> nat): nat {
    if results == [] then 0 else SumOf(results[..|results| - 1], size) + size(results[|results| - 1])
  }

  /** How many results have the status. */
  ghost function CountOf(results: seq<Report>, status: Status): nat {
    SumOf(results, (r: Report) => if StatusOf(r) == status then 1 else 0)
  }

  /** The results a report shows: all of them as JSON or on request, otherwise
      those that changed or failed. */
  function Shown(results: seq<Report>, all: bool): seq<Report> {
    if results == [] then [] else
    var last := results[|results| - 1];
    Shown(results[..|results| - 1], all) + if all || StatusOf(last) != UnchangedStatus then [last] else []
  }

  /** Failed: the run reports an error. Applied: it reports none and a write. */
  ghost predicate Failing(r: Report) { r.error != None }

  ghost predicate Changing(r: Report) { r.error == None && (r.added != [] || r.removed != []) }

  lemma StatusMeaning(r: Report)
    ensures StatusOf(r) == FailedStatus <==> Failing(r)
    ensures StatusOf(r) == AppliedStatus <==> Changing(r)
    ensures StatusOf(r) == UnchangedStatus <==> !Failing(r) && !Changing(r)
  {
  }

  /** The positions of the results with the status. */
  ghost function At(results: seq<Report>, status: Status): set<nat> {
    set i | 0 <= i < |results| && StatusOf(results[i]) == status
  }

  /** Counting along the results counts positions. */
  lemma {:induction false} CountIsSize(results: seq<Report>, status: Status)
    ensures CountOf(results, status) == |At(results, status)|
  {
    if results != [] {
      var n := |results| - 1;
      CountIsSize(results[..n], status);
      assert At(results, status) == At(results[..n], status) + if StatusOf(results[n]) == status then {n} else {};
    }
  }

  /** Who is shown: without a wish to see all, exactly those that failed or
      changed something. */
  lemma {:induction false} ShownMeaning(results: seq<Report>, all: bool, r: Report)
    ensures r in Shown(results, all) <==> r in results && (all || Failing(r) || Changing(r))
    ensures all ==> Shown(results, all) == results
  {
    if results != [] {
      var n := |results| - 1;
      ShownMeaning(results[..n], all, r);
      StatusMeaning(results[n]);
      assert results == results[..n] + [results[n]];
    }
  }

  lemma SizesBySituation(results: seq<Report>)
    ensures CountOf(results, FailedStatus) == |set i | 0 <= i < |results| && Failing(results[i])|
    ensures CountOf(results, AppliedStatus) == |set i | 0 <= i < |results| && Changing(results[i])|
  {
    CountIsSize(results, FailedStatus);
    CountIsSize(results, AppliedStatus);
    assert At(results, FailedStatus) == set i | 0 <= i < |results| && Failing(results[i]);
    assert At(results, AppliedStatus) == set i | 0 <= i < |results| && Changing(results[i]);
  }

  /** writeApplyReport: every result is counted once, under one status, and the
      totals are the sums over all results, shown or not. */
  method Summarize(results: seq<Report>, jsonOutput: bool, includeUnchanged: bool) returns (totals: Totals, shown: seq<Report>)
    ensures totals.subjects == |results| == totals.applied + totals.untouched + totals.failed
    ensures totals.failed == |set i | 0 <= i < |results| && Failing(results[i])|
    ensures totals.applied == |set i | 0 <= i < |results| && Changing(results[i])|
    ensures forall r :: r in shown <==> r in results && (jsonOutput || includeUnchanged || Failing(r) || Changing(r))
    ensures totals.applied == CountOf(results, AppliedStatus)
    ensures totals.untouched == CountOf(results, UnchangedStatus)
    ensures totals.failed == CountOf(results, FailedStatus)
    ensures totals.added == SumOf(results, (r: Report) => |r.added|)
    ensures totals.removed == SumOf(results, (r: Report) => |r.removed|)
    ensures shown == Shown(results, jsonOutput || includeUnchanged)
  {
    totals, shown := Totals(0, 0, 0, 0, 0, 0), [];
    for k := 0 to |results|
      invariant totals.subjects == k == totals.applied + totals.untouched + totals.failed
      invariant totals.applied == CountOf(results[..k], AppliedStatus)
      invariant totals.untouched == CountOf(results[..k], UnchangedStatus)
      invariant totals.failed == CountOf(results[..k], FailedStatus)
      invariant totals.added == SumOf(results[..k], (r: Report) => |r.added|)
      invariant totals.removed == SumOf(results[..k], (r: Report) => |r.removed|)
      invariant shown == Shown(results[..k], jsonOutput || includeUnchanged)
    {
      var result := results[k];
      assert results[..k + 1][..k] == results[..k];
      totals := totals.(subjects := totals.subjects + 1,
                        added := totals.added + |result.added|, removed := totals.removed + |result.removed|);
      match StatusOf(result) {
        case FailedStatus => totals := totals.(failed := totals.failed + 1);
        case AppliedStatus => totals := totals.(applied := totals.applied + 1);
        case UnchangedStatus =>
          totals := totals.(untouched := totals.untouched + 1);
          if !jsonOutput && !includeUnchanged {
            continue;
          }
      }
      shown := shown + [result];
    }
    assert results[..|results|] == results;
    SizesBySituation(results);
    forall r ensures r in shown <==> r in results && (jsonOutput || includeUnchanged || Failing(r) || Changing(r)) {
      ShownMeaning(results, jsonOutput || includeUnchanged, r);
    }
  }

  predicate Skips(action: Action, group: string, completed: seq<string>, failed: Option<MembershipOperation>) {
    group in completed || failed == Some(MembershipOperation(action, group))
  }

  function NotAttempted(action: Action, planned: seq<string>, completed: seq<string>,
      failed: Option<MembershipOperation>): seq<MembershipOperation>
  {
    if planned == [] then [] else
    var group := planned[|planned| - 1];
    NotAttempted(action, planned[..|planned| - 1], completed, failed)
    + if Skips(action, group, completed, failed) then [] else [MembershipOperation(action, group)]
  }

  /** writeOutstanding. */
  method WriteOutstanding(action: Action, planned: seq<string>, completed: seq<string>, failed: Option<MembershipOperation>)
    returns (lines: seq<MembershipOperation>)
    ensures lines == NotAttempted(action, planned, completed, failed)
  {
    lines := [];
    for i := 0 to |planned|
      invariant lines == NotAttempted(action, planned[..i], completed, failed)
    {
      assert planned[..i + 1][..i] == planned[..i];
      var group := planned[i];
      if group in completed || (failed.Some? && failed.value.action == action && failed.value.group == group) {
        continue;
      }
      lines := lines + [MembershipOperation(action, group)];
    }
    assert planned[..|planned|] == planned;
  }

  lemma OnSideConcat(action: Action, a: seq<string>, b: seq<string>)
    ensures OnSide(action, a + b) == OnSide(action, a) + OnSide(action, b)
  {
  }

  lemma {:induction false} NothingLeft(action: Action, planned: seq<string>, completed: seq<string>, failed: Option<MembershipOperation>)
    requires forall group :: group in planned ==> Skips(action, group, completed, failed)
    ensures NotAttempted(action, planned, completed, failed) == []
  {
    if planned != [] {
      NothingLeft(action, planned[..|planned| - 1], completed, failed);
    }
  }

  lemma {:induction false} AllLeft(action: Action, front: seq<string>, rest: seq<string>, completed: seq<string>,
      failed: Option<MembershipOperation>)
    requires forall group :: group in front ==> Skips(action, group, completed, failed)
    requires forall group :: group in rest ==> !Skips(action, group, completed, failed)
    ensures NotAttempted(action, front + rest, completed, failed) == OnSide(action, rest)
  {
    if rest == [] {
      assert front + rest == front;
      NothingLeft(action, front, completed, failed);
    } else {
      var n := |rest| - 1;
      AllLeft(action, front, rest[..n], completed, failed);
      assert (front + rest)[..|front + rest| - 1] == front + rest[..n];
      assert rest == rest[..n] + [rest[n]];
      OnSideConcat(action, rest[..n], [rest[n]]);
    }
  }

  /** Operations done as a prefix means adds in order first, and removes only
      after the last add. */
  lemma PrefixSplits(add: seq<string>, remove: seq<string>, added: seq<string>, removed: seq<string>)
    requires Operations(added, removed) <= Operations(add, remove)
    ensures added <= add && removed <= remove && (removed != [] ==> added == add)
  {
    var done, all := Operations(added, removed), Operations(add, remove);
    assert forall k :: 0 <= k < |done| ==> done[k] == all[k];
    assert |done| == |added| + |removed| && |all| == |add| + |remove|;
    SidesLineUp(add, remove, added, removed);
    forall i | 0 <= i < |added| ensures added[i] == add[i] { assert done[i] == all[i]; }
    forall i | 0 <= i < |removed| ensures removed[i] == remove[i] { assert done[|added| + i] == all[|add| + i]; }
  }

  lemma SidesLineUp(add: seq<string>, remove: seq<string>, added: seq<string>, removed: seq<string>)
    requires Operations(added, removed) <= Operations(add, remove)
    ensures |added| <= |add| && (removed != [] ==> |added| == |add|) && |removed| <= |remove|
  {
    var done, all := Operations(added, removed), Operations(add, remove);
    assert forall k :: 0 <= k < |done| ==> done[k].action == all[k].action;
    assert forall k :: 0 <= k < |done| ==> (done[k].action == AddMember <==> k < |added|);
    assert forall k :: 0 <= k < |all| ==> (all[k].action == AddMember <==> k < |add|);
    LineUp(|added|, |done|, |add|, |all|, seq(|done|, k requires 0 <= k < |done| => done[k].action == AddMember));
  }

  /** Two runs of marks that agree as far as the first goes. */
  lemma LineUp(i: nat, m: nat, j: nat, n: nat, marks: seq<bool>)
    requires i <= m == |marks| <= n && j <= n
    requires forall k :: 0 <= k < m ==> (marks[k] <==> k < i) && (marks[k] <==> k < j)
    ensures i <= j && (i < m ==> i == j) && m - i <= n - j
  {
    assert j < m ==> !marks[j];
    assert i < m ==> !marks[i];
  }

  /** The two lists of a subject's block, adds then removes. */
  function Outstanding(plan: Plan, r: Report): seq<MembershipOperation> {
    NotAttempted(AddMember, plan.addGroups, r.added, r.failed) + NotAttempted(RemoveMember, plan.removeGroups, r.removed, r.failed)
  }

  /** Exact accounting: the operations done, the failed one and the ones shown as
      not attempted are together exactly the planned operations, in order. */
  lemma OutstandingIsTheRest(plan: Plan, r: Report)
    requires NoRepeats(plan.addGroups) && NoRepeats(plan.removeGroups)
    requires Accounted(Operations(plan.addGroups, plan.removeGroups), Operations(r.added, r.removed), r.failed)
    ensures Operations(plan.addGroups, plan.removeGroups)
         == Operations(r.added, r.removed) + (if r.failed.Some? then [r.failed.value] else []) + Outstanding(plan, r)
  {
    var add, remove, i, j := plan.addGroups, plan.removeGroups, |r.added|, |r.removed|;
    PrefixSplits(add, remove, r.added, r.removed);
    FailedIsNext(plan, r);
    assert r.added == add[..i] && r.removed == remove[..j];
    if i < |add| {
      StoppedAtAdd(add, remove, i, r.failed);
    } else {
      assert r.added == add;
      StoppedLater(add, remove, j, r.failed);
    }
  }

  lemma StoppedAtAdd(add: seq<string>, remove: seq<string>, i: nat, failed: Option<MembershipOperation>)
    requires NoRepeats(add) && NoRepeats(remove) && i < |add| && failed == Some(MembershipOperation(AddMember, add[i]))
    ensures Operations(add, remove)
         == Operations(add[..i], []) + [failed.value]
            + (NotAttempted(AddMember, add, add[..i], failed) + NotAttempted(RemoveMember, remove, [], failed))
  {
    SideAtFailure(AddMember, add, i, failed);
    SideWithoutFailure(RemoveMember, remove, 0, failed);
    var none, left := OnSide(RemoveMember, []), NotAttempted(RemoveMember, remove, [], failed);
    assert remove[..0] == [];
    assert none == [];
    assert none + left == left;
    Regroup(OnSide(AddMember, add[..i]), none, [failed.value], NotAttempted(AddMember, add, add[..i], failed), left);
  }

  lemma StoppedLater(add: seq<string>, remove: seq<string>, j: nat, failed: Option<MembershipOperation>)
    requires NoRepeats(add) && NoRepeats(remove) && j <= |remove|
    requires match failed case None => true case Some(op) => j < |remove| && op == MembershipOperation(RemoveMember, remove[j])
    ensures Operations(add, remove)
         == Operations(add, remove[..j]) + (if failed.Some? then [failed.value] else [])
            + (NotAttempted(AddMember, add, add, failed) + NotAttempted(RemoveMember, remove, remove[..j], failed))
  {
    SideWithoutFailure(AddMember, add, |add|, failed);
    assert add[..|add|] == add;
    var op := if failed.Some? then [failed.value] else [];
    var done, left := OnSide(RemoveMember, remove[..j]), NotAttempted(RemoveMember, remove, remove[..j], failed);
    if failed.Some? {
      SideAtFailure(RemoveMember, remove, j, failed);
    } else {
      SideWithoutFailure(RemoveMember, remove, j, failed);
      assert done + op == done;
    }
    assert OnSide(RemoveMember, remove) == done + op + left;
    RegroupLate(OnSide(AddMember, add), done, op, NotAttempted(AddMember, add, add, failed), left);
  }

  lemma Regroup<T>(a: seq<T>, none: seq<T>, op: seq<T>, b: seq<T>, c: seq<T>)
    requires none == []
    ensures (a + op + b) + c == (a + none) + op + (b + c)
  {
  }

  lemma RegroupLate<T>(a: seq<T>, b: seq<T>, op: seq<T>, none: seq<T>, c: seq<T>)
    requires none == []
    ensures a + (b + op + c) == (a + b) + op + (none + c)
  {
  }

  /** One side of a plan, cut at the write that failed. */
  lemma SideAtFailure(action: Action, planned: seq<string>, k: nat, failed: Option<MembershipOperation>)
    requires NoRepeats(planned) && k < |planned| && failed == Some(MembershipOperation(action, planned[k]))
    ensures OnSide(action, planned)
         == OnSide(action, planned[..k]) + [failed.value] + NotAttempted(action, planned, planned[..k], failed)
  {
    var front, rest := planned[..k + 1], planned[k + 1..];
    Cut(planned, k);
    AllLeft(action, front, rest, planned[..k], failed);
    OnSideConcat(action, front, rest);
    OnSideConcat(action, planned[..k], [planned[k]]);
    OnSideOne(action, planned[k]);
  }

  lemma OnSideOne(action: Action, group: string)
    ensures OnSide(action, [group]) == [MembershipOperation(action, group)]
  {
  }

  lemma Cut(planned: seq<string>, k: nat)
    requires NoRepeats(planned) && k < |planned|
    ensures planned == planned[..k + 1] + planned[k + 1..] && planned[..k + 1] == planned[..k] + [planned[k]]
    ensures forall group :: group in planned[k + 1..] ==> group !in planned[..k] && group != planned[k]
  {
  }

  /** One side of a plan without a failed write, cut after the first k. */
  lemma SideWithoutFailure(action: Action, planned: seq<string>, k: nat, failed: Option<MembershipOperation>)
    requires NoRepeats(planned) && k <= |planned| && (failed.Some? ==> failed.value.action != action)
    ensures OnSide(action, planned) == OnSide(action, planned[..k]) + NotAttempted(action, planned, planned[..k], failed)
    ensures k == |planned| ==> NotAttempted(action, planned, planned[..k], failed) == []
  {
    var front, rest := planned[..k], planned[k..];
    assert planned == front + rest;
    forall group | group in rest ensures !Skips(action, group, front, failed) {
      var i :| 0 <= i < |rest| && rest[i] == group;
      assert planned[k + i] == group;
    }
    AllLeft(action, front, rest, front, failed);
    OnSideConcat(action, front, rest);
  }

  /** The failed operation is the first add not done or, once all adds are done,
      the first remove not done. */
  lemma FailedIsNext(plan: Plan, r: Report)
    requires NoRepeats(plan.addGroups) && NoRepeats(plan.removeGroups)
    requires Accounted(Operations(plan.addGroups, plan.removeGroups), Operations(r.added, r.removed), r.failed)
    ensures var add, remove, i, j := plan.addGroups, plan.removeGroups, |r.added|, |r.removed|;
      match r.failed
      case None => i == |add| && j == |remove|
      case Some(op) =>
        if i < |add| then j == 0 && op == MembershipOperation(AddMember, add[i])
        else j < |remove| && op == MembershipOperation(RemoveMember, remove[j])
  {
    PrefixSplits(plan.addGroups, plan.removeGroups, r.added, r.removed);
    assert |Operations(plan.addGroups, plan.removeGroups)| == |plan.addGroups| + |plan.removeGroups|;
  }
}
