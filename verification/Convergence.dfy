/** Applying a plan to the directory: one complete apply reaches a fixed point,
    and an incomplete one leaves exactly the rest to do. */
module Convergence {
  import opened Common
  import opened Ordering
  import opened Intents
  import opened Timeline
  import opened Policy
  import opened Aliases
  import opened Planner

  /** One membership write, on a group ID. */
  datatype Op = Add(group: string) | Remove(group: string)

  /** The group IDs a user must and must not be in. */
  datatype Goal = Goal(present: set<string>, absent: set<string>)

  ghost function TargetsOf(groups: Groups, aliases: seq<string>): set<string> {
    set alias | alias in aliases :: Target(groups, alias)
  }

  ghost function GoalOf(groups: Groups, a: GroupAssertions): Goal {
    Goal(TargetsOf(groups, a.present), TargetsOf(groups, a.absent))
  }

  ghost predicate Satisfied(goal: Goal, members: set<string>) {
    goal.present <= members && goal.absent !! members
  }

  function Apply(op: Op, members: set<string>): set<string> {
    match op
    case Add(g) => members + {g}
    case Remove(g) => members - {g}
  }

  function ApplyAll(ops: seq<Op>, members: set<string>): set<string> {
    if ops == [] then members else ApplyAll(ops[1..], Apply(ops[0], members))
  }

  /** The writes that separate a membership from the goal. */
  ghost function Todo(goal: Goal, members: set<string>): set<Op> {
    (set g | g in goal.present && g !in members :: Add(g))
    + (set g | g in goal.absent && g in members :: Remove(g))
  }

  ghost predicate NoRepeats<T>(s: seq<T>) {
    forall i, j :: 0 <= i < j < |s| ==> s[i] != s[j]
  }

  /** ops lists the missing writes, each once. */
  ghost predicate Exact(ops: seq<Op>, goal: Goal, members: set<string>) {
    NoRepeats(ops) && Elements(ops) == Todo(goal, members)
  }

  /** The writes of a plan: adds, then removes, each on its alias's group ID. */
  function PlanOps(groups: Groups, add: seq<string>, remove: seq<string>): seq<Op> {
    AddOps(groups, add) + RemoveOps(groups, remove)
  }

  function AddOps(groups: Groups, aliases: seq<string>): (r: seq<Op>)
    ensures |r| == |aliases| && forall i :: 0 <= i < |r| ==> r[i] == Add(Target(groups, aliases[i]))
  {
    seq(|aliases|, i requires 0 <= i < |aliases| => Add(Target(groups, aliases[i])))
  }

  function RemoveOps(groups: Groups, aliases: seq<string>): (r: seq<Op>)
    ensures |r| == |aliases| && forall i :: 0 <= i < |r| ==> r[i] == Remove(Target(groups, aliases[i]))
  {
    seq(|aliases|, i requires 0 <= i < |aliases| => Remove(Target(groups, aliases[i])))
  }

  /** Validated assertions never ask for a group and forbid it. */
  lemma AcceptedGoalIsConsistent(groups: Groups, a: GroupAssertions)
    requires Accepted(groups, a)
    ensures GoalOf(groups, a).present !! GoalOf(groups, a).absent
  {
    forall p, q | p in a.present && q in a.absent ensures Target(groups, p) != Target(groups, q) {
      var i :| 0 <= i < |a.present| && a.present[i] == p;
      var j :| 0 <= j < |a.absent| && a.absent[j] == q;
      assert a.All()[i] == p && a.All()[|a.present| + j] == q;
    }
  }

  /** Different accepted aliases of one side have different group IDs. */
  lemma AcceptedTargetsDiffer(groups: Groups, a: GroupAssertions, p: string, q: string)
    requires Accepted(groups, a) && p in a.All() && q in a.All() && p != q
    ensures Target(groups, p) != Target(groups, q)
  {
  }

  /** A writable alias is held exactly when its one group ID is. */
  lemma WritableHeld(groups: Groups, members: set<string>, alias: string)
    requires Writable(groups, alias)
    ensures alias in AliasesIn(groups, members) <==> Target(groups, alias) in members
  {
  }

  /** Planning from a faithfully resolved user lists exactly the missing
      writes. */
  lemma ResolvedPlanIsExact(groups: Groups, a: GroupAssertions, members: set<string>, add: seq<string>, remove: seq<string>)
    requires Accepted(groups, a) && NoRepeats(add) && NoRepeats(remove)
    requires forall alias :: alias in add <==> alias in a.present && alias !in AliasesIn(groups, members)
    requires forall alias :: alias in remove <==> alias in a.absent && alias in AliasesIn(groups, members)
    ensures Exact(PlanOps(groups, add, remove), GoalOf(groups, a), members)
  {
    var adds, removes, goal := AddOps(groups, add), RemoveOps(groups, remove), GoalOf(groups, a);
    forall alias | alias in a.present || alias in a.absent
      ensures alias in a.All() && Writable(groups, alias)
      ensures alias in AliasesIn(groups, members) <==> Target(groups, alias) in members
    {
      assert alias in a.All();
      var i :| 0 <= i < |a.All()| && a.All()[i] == alias;
      WritableHeld(groups, members, alias);
    }
    OpsOfSide(groups, a, add, adds);
    OpsOfSide(groups, a, remove, removes);
    forall op ensures op in adds + removes <==> op in Todo(goal, members) {
      match op
      case Add(g) =>
        if g in goal.present && g !in members {
          var alias :| alias in a.present && Target(groups, alias) == g;
          var i :| 0 <= i < |add| && add[i] == alias;
          assert adds[i] == op;
        }
        if op in adds {
          var i :| 0 <= i < |adds| && adds[i] == op;
          assert add[i] in a.present;
        }
      case Remove(g) =>
        if g in goal.absent && g in members {
          var alias :| alias in a.absent && Target(groups, alias) == g;
          var i :| 0 <= i < |remove| && remove[i] == alias;
          assert removes[i] == op;
        }
        if op in removes {
          var i :| 0 <= i < |removes| && removes[i] == op;
          assert remove[i] in a.absent;
        }
    }
  }

  /** Writes on different aliases of an accepted pair are different. */
  lemma OpsOfSide(groups: Groups, a: GroupAssertions, aliases: seq<string>, ops: seq<Op>)
    requires Accepted(groups, a) && NoRepeats(aliases) && forall alias :: alias in aliases ==> alias in a.All()
    requires |ops| == |aliases| && forall i :: 0 <= i < |ops| ==> ops[i].group == Target(groups, aliases[i])
    ensures NoRepeats(ops)
  {
    forall i, j | 0 <= i < j < |ops| ensures ops[i] != ops[j] {
      AcceptedTargetsDiffer(groups, a, aliases[i], aliases[j]);
    }
  }

  /** Making the first write leaves exactly the others to do. */
  lemma ExactTail(ops: seq<Op>, goal: Goal, members: set<string>)
    requires Exact(ops, goal, members) && ops != [] && goal.present !! goal.absent
    ensures Exact(ops[1..], goal, Apply(ops[0], members))
  {
    var rest, after := ops[1..], Apply(ops[0], members);
    assert ops[0] in Elements(ops);
    forall op ensures op in rest <==> op in Todo(goal, after) {
      assert ops == [ops[0]] + rest;
      assert op in rest <==> op in Elements(ops) && op != ops[0] by {
        assert forall i :: 0 <= i < |rest| ==> rest[i] == ops[i + 1];
      }
      assert op in Todo(goal, after) <==> op in Todo(goal, members) && op != ops[0];
    }
  }

  lemma ExactDone(goal: Goal, members: set<string>)
    ensures Exact([], goal, members) <==> Satisfied(goal, members)
  {
    if Exact([], goal, members) {
      assert Todo(goal, members) == {};
      forall g | g in goal.present ensures g in members {
        assert Add(g) !in Todo(goal, members);
      }
      forall g | g in goal.absent ensures g !in members {
        assert Remove(g) !in Todo(goal, members);
      }
    }
  }

  /** After the first k writes exactly the remaining ones are to do. */
  lemma {:induction false} ExactAfter(ops: seq<Op>, goal: Goal, members: set<string>, k: nat)
    requires Exact(ops, goal, members) && k <= |ops| && goal.present !! goal.absent
    ensures Exact(ops[k..], goal, ApplyAll(ops[..k], members))
    decreases k
  {
    if k > 0 {
      ExactTail(ops, goal, members);
      ExactAfter(ops[1..], goal, Apply(ops[0], members), k - 1);
      assert ops[1..][k - 1..] == ops[k..];
      assert ops[..k][1..] == ops[1..][..k - 1];
    } else {
      assert ops[0..] == ops;
    }
  }

  /** Writes touch no group but their own. */
  lemma {:induction false} WritesLeaveOthers(ops: seq<Op>, members: set<string>, g: string)
    requires Add(g) !in ops && Remove(g) !in ops
    ensures g in ApplyAll(ops, members) <==> g in members
  {
    if ops != [] {
      assert ops[0].group != g by { assert ops[0] in ops; }
      WritesLeaveOthers(ops[1..], Apply(ops[0], members), g);
    }
  }

  /** A complete apply satisfies the goal and changes no other group. */
  lemma CompleteApply(ops: seq<Op>, goal: Goal, members: set<string>)
    requires Exact(ops, goal, members) && goal.present !! goal.absent
    ensures var after := ApplyAll(ops, members);
      && Satisfied(goal, after)
      && (forall g :: g !in goal.present && g !in goal.absent ==> (g in after <==> g in members))
  {
    ExactAfter(ops, goal, members, |ops|);
    assert ops[..|ops|] == ops && ops[|ops|..] == [];
    ExactDone(goal, ApplyAll(ops, members));
    forall g | g !in goal.present && g !in goal.absent ensures g in ApplyAll(ops, members) <==> g in members {
      assert Add(g) !in Todo(goal, members) && Remove(g) !in Todo(goal, members);
      assert Add(g) !in Elements(ops) && Remove(g) !in Elements(ops);
      WritesLeaveOthers(ops, members, g);
    }
  }

  /** The aliases a member of exactly these group IDs holds, in order. */
  ghost function HeldList(groups: Groups, members: set<string>): seq<string> {
    SortedElements(AliasesIn(groups, members))
  }

  /** The writes planned for a user whose memberships are exactly these, under
      the given rule. */
  ghost function OpsFor(cfg: Config, rule: Option<nat>, state: State, members: set<string>): seq<Op> {
    var a := AssertionsFor(cfg.rules, rule, state);
    var current := HeldList(cfg.groups, members);
    PlanOps(cfg.groups, Select(UniqueSorted(a.present), current, false), Select(UniqueSorted(a.absent), current, true))
  }

  ghost function GoalFor(cfg: Config, rule: Option<nat>, state: State): Goal {
    GoalOf(cfg.groups, AssertionsFor(cfg.rules, rule, state))
  }

  /** OpsFor is what Build plans for a resolved user. */
  lemma OpsForIsThePlan(cfg: Config, user: User, rule: Option<nat>, intents: seq<Intent>, now: Time, members: set<string>)
    requires user.groups == SortedElements(AliasesIn(cfg.groups, members))
    ensures var plan := PlanWith(cfg, user, rule, intents, now);
      PlanOps(cfg.groups, plan.addGroups, plan.removeGroups)
      == OpsFor(cfg, rule, StateOf(Elements(intents), now), members)
  {
    UniqueSortedMeaning(user.groups);
    StrictUnique(UniqueSorted(user.groups), user.groups);
  }

  lemma SelectedAssertions(cfg: Config, rule: Option<nat>, state: State)
    requires ValidConfig(cfg)
    ensures Accepted(cfg.groups, AssertionsFor(cfg.rules, rule, state))
    ensures GoalFor(cfg, rule, state).present !! GoalFor(cfg, rule, state).absent
  {
    AcceptedGoalIsConsistent(cfg.groups, AssertionsFor(cfg.rules, rule, state));
  }

  /** The rule's assertions for the time that the intents are in. */
  ghost predicate Timely(a: GroupAssertions, states: States, intents: set<Intent>, now: Time) {
    if exists i :: i in intents && PhaseAt(i, now) == Active then a == states.active
    else if exists i :: i in intents && PhaseAt(i, now) == Pending then a == states.pending
    else if intents != {} then a == states.settled
    else a == NO_ASSERTIONS
  }

  /** What a goal is: the group IDs that the aliases asserted at this time stand
      for, each of them one. */
  lemma GoalMeansAssertions(cfg: Config, k: nat, intents: set<Intent>, now: Time, a: GroupAssertions, id: string)
    requires ValidConfig(cfg) && k < |cfg.rules| && Timely(a, cfg.rules[k].states, intents, now)
    ensures var goal := GoalFor(cfg, Some(k), StateOf(intents, now));
      && (id in goal.present <==> exists alias :: alias in a.present && alias in cfg.groups && cfg.groups[alias] == [id])
      && (id in goal.absent <==> exists alias :: alias in a.absent && alias in cfg.groups && cfg.groups[alias] == [id])
  {
    SelectedAssertions(cfg, Some(k), StateOf(intents, now));
    assert a == AssertionsFor(cfg.rules, Some(k), StateOf(intents, now));
    TargetsMean(cfg.groups, a, a.present, id);
    TargetsMean(cfg.groups, a, a.absent, id);
  }

  lemma TargetsMean(groups: Groups, a: GroupAssertions, aliases: seq<string>, id: string)
    requires Accepted(groups, a) && forall alias :: alias in aliases ==> alias in a.All()
    ensures id in TargetsOf(groups, aliases) <==> exists alias :: alias in aliases && alias in groups && groups[alias] == [id]
  {
    forall alias | alias in aliases ensures Writable(groups, alias) && (Target(groups, alias) == id <==> groups[alias] == [id]) {
      assert alias in a.All();
    }
    if id in TargetsOf(groups, aliases) {
      var alias :| alias in aliases && Target(groups, alias) == id;
      assert groups[alias] == [id];
    }
    if alias :| alias in aliases && alias in groups && groups[alias] == [id] {
      assert Target(groups, alias) == id;
    }
  }

  /** With a validated configuration, the planned writes are exactly the
      missing ones. */
  lemma OpsForExact(cfg: Config, rule: Option<nat>, state: State, members: set<string>)
    requires ValidConfig(cfg)
    ensures Exact(OpsFor(cfg, rule, state, members), GoalFor(cfg, rule, state), members)
    ensures GoalFor(cfg, rule, state).present !! GoalFor(cfg, rule, state).absent
  {
    SelectedAssertions(cfg, rule, state);
    var a := AssertionsFor(cfg.rules, rule, state);
    var current := SortedElements(AliasesIn(cfg.groups, members));
    var present, absent := UniqueSorted(a.present), UniqueSorted(a.absent);
    UniqueSortedMeaning(a.present);
    UniqueSortedMeaning(a.absent);
    SelectStrict(present, current, false);
    SelectStrict(absent, current, true);
    forall alias
      ensures alias in Select(present, current, false) <==> alias in a.present && alias !in AliasesIn(cfg.groups, members)
      ensures alias in Select(absent, current, true) <==> alias in a.absent && alias in AliasesIn(cfg.groups, members)
    {
      assert alias in present <==> alias in Elements(a.present);
      assert alias in absent <==> alias in Elements(a.absent);
      assert alias in current <==> alias in Elements(current);
    }
    ResolvedPlanIsExact(cfg.groups, a, members, Select(present, current, false), Select(absent, current, true));
  }

  /** Fixed point. A fully successful apply puts the user in every present
      target and out of every absent one, changes no other group ID, and leaves
      nothing to do for the same rule in the same state. */
  lemma ApplyReachesFixedPoint(cfg: Config, rule: Option<nat>, state: State, members: set<string>)
    requires ValidConfig(cfg)
    ensures var after := ApplyAll(OpsFor(cfg, rule, state, members), members);
      var goal := GoalFor(cfg, rule, state);
      && Satisfied(goal, after)
      && (forall g :: g !in goal.present && g !in goal.absent ==> (g in after <==> g in members))
      && OpsFor(cfg, rule, state, after) == []
  {
    var goal, after := GoalFor(cfg, rule, state), ApplyAll(OpsFor(cfg, rule, state, members), members);
    OpsForExact(cfg, rule, state, members);
    CompleteApply(OpsFor(cfg, rule, state, members), goal, members);
    SatisfiedMeansNothingToDo(cfg, rule, state, after);
  }

  lemma NothingListed(ops: seq<Op>, goal: Goal, members: set<string>)
    requires Exact(ops, goal, members) && Satisfied(goal, members)
    ensures ops == []
  {
    assert Todo(goal, members) == {};
    if ops != [] {
      NonemptyElements(ops);
    }
  }

  /** Nothing is planned exactly when the goal is satisfied. */
  lemma SatisfiedMeansNothingToDo(cfg: Config, rule: Option<nat>, state: State, members: set<string>)
    requires ValidConfig(cfg)
    ensures OpsFor(cfg, rule, state, members) == [] <==> Satisfied(GoalFor(cfg, rule, state), members)
  {
    var ops, goal := OpsFor(cfg, rule, state, members), GoalFor(cfg, rule, state);
    OpsForExact(cfg, rule, state, members);
    ExactDone(goal, members);
    if Satisfied(goal, members) {
      NothingListed(ops, goal, members);
    }
  }

  lemma {:induction false} ListSize<T>(a: seq<T>)
    requires NoRepeats(a)
    ensures |Elements(a)| == |a|
  {
    if a == [] {
      assert Elements(a) == {};
    } else {
      ListSize(a[1..]);
      assert a == [a[0]] + a[1..];
      assert Elements(a) == {a[0]} + Elements(a[1..]);
      assert forall i :: 0 <= i < |a[1..]| ==> a[1..][i] == a[i + 1];
    }
  }

  /** After a write on one alias, another alias of the accepted pair is held as
      before, and the written one is held exactly after an add. */
  lemma HeldAfter(groups: Groups, a: GroupAssertions, members: set<string>, op: Op, written: string, alias: string)
    requires Accepted(groups, a) && written in a.All() && alias in a.All() && op.group == Target(groups, written)
    ensures alias in AliasesIn(groups, Apply(op, members))
       <==> if alias == written then op.Add? else alias in AliasesIn(groups, members)
  {
    var i :| 0 <= i < |a.All()| && a.All()[i] == alias;
    WritableHeld(groups, members, alias);
    WritableHeld(groups, Apply(op, members), alias);
    if alias != written {
      AcceptedTargetsDiffer(groups, a, alias, written);
    }
  }

  /** An alias is not asserted on both sides. */
  lemma OneSideOnly(groups: Groups, a: GroupAssertions, alias: string)
    requires Accepted(groups, a) && alias in a.present
    ensures alias !in a.absent
  {
    AcceptedGoalIsConsistent(groups, a);
    assert Target(groups, alias) in GoalOf(groups, a).present;
    assert alias in a.absent ==> Target(groups, alias) in GoalOf(groups, a).absent;
  }

  /** A selection that only loses its first element becomes its own tail. */
  lemma SelectTail(list: seq<string>, before: seq<string>, after: seq<string>, keep: bool)
    requires StrictlySorted(list) && Select(list, before, keep) != []
    requires forall x :: x in list ==>
      ((x in after) == keep <==> (x in before) == keep && x != Select(list, before, keep)[0])
    ensures Select(list, after, keep) == Select(list, before, keep)[1..]
  {
    var first, then_ := Select(list, before, keep), Select(list, after, keep);
    SelectStrict(list, before, keep);
    SelectStrict(list, after, keep);
    forall x ensures x in then_ <==> x in first[1..] { StrictTail(first, x); }
    assert Elements(then_) == Elements(first[1..]);
    StrictUnique(then_, first[1..]);
  }

  /** A selection from which nothing is lost or gained stays. */
  lemma SelectSame(list: seq<string>, before: seq<string>, after: seq<string>, keep: bool)
    requires StrictlySorted(list) && forall x :: x in list ==> (x in after <==> x in before)
    ensures Select(list, after, keep) == Select(list, before, keep)
  {
    SelectStrict(list, before, keep);
    SelectStrict(list, after, keep);
    assert Elements(Select(list, after, keep)) == Elements(Select(list, before, keep));
    StrictUnique(Select(list, after, keep), Select(list, before, keep));
  }

  /** The first planned write moves exactly one alias. */
  lemma HeldListAfter(groups: Groups, a: GroupAssertions, members: set<string>, op: Op, written: string)
    requires Accepted(groups, a) && written in a.All() && op.group == Target(groups, written)
    ensures forall alias :: alias in a.present || alias in a.absent ==>
      (alias in HeldList(groups, Apply(op, members)) <==>
         if alias == written then op.Add? else alias in HeldList(groups, members))
  {
    var before, after := HeldList(groups, members), HeldList(groups, Apply(op, members));
    forall alias | alias in a.present || alias in a.absent
      ensures alias in after <==> if alias == written then op.Add? else alias in before
    {
      assert alias in a.All();
      HeldAfter(groups, a, members, op, written, alias);
      assert alias in before <==> alias in Elements(before);
      assert alias in after <==> alias in Elements(after);
    }
  }

  lemma OpsTailAdds(cfg: Config, rule: Option<nat>, state: State, members: set<string>)
    requires ValidConfig(cfg)
    requires var a := AssertionsFor(cfg.rules, rule, state);
      Select(UniqueSorted(a.present), HeldList(cfg.groups, members), false) != []
    ensures var ops := OpsFor(cfg, rule, state, members);
      ops != [] && OpsFor(cfg, rule, state, Apply(ops[0], members)) == ops[1..]
  {
    var a := AssertionsFor(cfg.rules, rule, state);
    var before := HeldList(cfg.groups, members);
    var present, absent := UniqueSorted(a.present), UniqueSorted(a.absent);
    var add, remove := Select(present, before, false), Select(absent, before, true);
    var after := HeldList(cfg.groups, Apply(Add(Target(cfg.groups, add[0])), members));
    SelectedAssertions(cfg, rule, state);
    UniqueSortedMeaning(a.present);
    UniqueSortedMeaning(a.absent);
    assert add[0] in Elements(present);
    assert add[0] in a.All();
    HeldListAfter(cfg.groups, a, members, Add(Target(cfg.groups, add[0])), add[0]);
    OneSideOnly(cfg.groups, a, add[0]);
    forall x ensures (x in present <==> x in a.present) && (x in absent <==> x in a.absent) {
      assert x in present <==> x in Elements(present);
      assert x in absent <==> x in Elements(absent);
    }
    SelectTail(present, before, after, false);
    SelectSame(absent, before, after, true);
    PlanOpsTail(cfg.groups, add, remove);
  }

  lemma PlanOpsTail(groups: Groups, add: seq<string>, remove: seq<string>)
    requires add != []
    ensures var ops := PlanOps(groups, add, remove);
      ops != [] && ops[0] == Add(Target(groups, add[0])) && ops[1..] == PlanOps(groups, add[1..], remove)
  {
    assert AddOps(groups, add)[1..] == AddOps(groups, add[1..]);
  }

  lemma OpsTailRemoves(cfg: Config, rule: Option<nat>, state: State, members: set<string>)
    requires ValidConfig(cfg)
    requires var a := AssertionsFor(cfg.rules, rule, state);
      && Select(UniqueSorted(a.present), HeldList(cfg.groups, members), false) == []
      && Select(UniqueSorted(a.absent), HeldList(cfg.groups, members), true) != []
    ensures var ops := OpsFor(cfg, rule, state, members);
      ops != [] && OpsFor(cfg, rule, state, Apply(ops[0], members)) == ops[1..]
  {
    var a := AssertionsFor(cfg.rules, rule, state);
    var before := HeldList(cfg.groups, members);
    var present, absent := UniqueSorted(a.present), UniqueSorted(a.absent);
    var remove := Select(absent, before, true);
    var after := HeldList(cfg.groups, Apply(Remove(Target(cfg.groups, remove[0])), members));
    SelectedAssertions(cfg, rule, state);
    UniqueSortedMeaning(a.present);
    UniqueSortedMeaning(a.absent);
    assert remove[0] in Elements(absent);
    assert remove[0] in a.All();
    HeldListAfter(cfg.groups, a, members, Remove(Target(cfg.groups, remove[0])), remove[0]);
    forall x ensures (x in present <==> x in a.present) && (x in absent <==> x in a.absent) {
      assert x in present <==> x in Elements(present);
      assert x in absent <==> x in Elements(absent);
    }
    if remove[0] in a.present { OneSideOnly(cfg.groups, a, remove[0]); }
    SelectTail(absent, before, after, true);
    SelectSame(present, before, after, false);
    PlanOpsOfRemoves(cfg.groups, remove);
  }

  lemma PlanOpsOfRemoves(groups: Groups, remove: seq<string>)
    requires remove != []
    ensures var ops := PlanOps(groups, [], remove);
      ops != [] && ops[0] == Remove(Target(groups, remove[0])) && ops[1..] == PlanOps(groups, [], remove[1..])
  {
    assert AddOps(groups, []) == [];
    assert RemoveOps(groups, remove)[1..] == RemoveOps(groups, remove[1..]);
  }

  /** After the first planned write the rest of the plan is the new plan. */
  lemma OpsForTail(cfg: Config, rule: Option<nat>, state: State, members: set<string>)
    requires ValidConfig(cfg) && OpsFor(cfg, rule, state, members) != []
    ensures var ops := OpsFor(cfg, rule, state, members);
      OpsFor(cfg, rule, state, Apply(ops[0], members)) == ops[1..]
  {
    var a := AssertionsFor(cfg.rules, rule, state);
    var current := HeldList(cfg.groups, members);
    if Select(UniqueSorted(a.present), current, false) != [] {
      OpsTailAdds(cfg, rule, state, members);
    } else {
      NoWrites(cfg.groups);
      OpsTailRemoves(cfg, rule, state, members);
    }
  }

  lemma NoWrites(groups: Groups)
    ensures PlanOps(groups, [], []) == []
  {
  }

  /** Whatever part of a plan has been made, the next plan for the same rule and
      state is exactly the rest, in the same order. */
  lemma {:induction false} RestIsPlanned(cfg: Config, rule: Option<nat>, state: State, members: set<string>, done: nat)
    requires ValidConfig(cfg) && done <= |OpsFor(cfg, rule, state, members)|
    ensures var ops := OpsFor(cfg, rule, state, members);
      OpsFor(cfg, rule, state, ApplyAll(ops[..done], members)) == ops[done..]
    decreases done
  {
    var ops := OpsFor(cfg, rule, state, members);
    if done == 0 {
      assert ops[..0] == [] && ops[0..] == ops;
    } else {
      OpsForTail(cfg, rule, state, members);
      RestIsPlanned(cfg, rule, state, Apply(ops[0], members), done - 1);
      FirstThenRest(ops, members, done);
    }
  }

  lemma FirstThenRest(ops: seq<Op>, members: set<string>, done: nat)
    requires 0 < done <= |ops|
    ensures ApplyAll(ops[..done], members) == ApplyAll(ops[1..][..done - 1], Apply(ops[0], members))
    ensures ops[1..][done - 1..] == ops[done..]
  {
    assert ops[..done][1..] == ops[1..][..done - 1];
  }

  /** Progress across retries. After k completed writes and one failed call,
      which may or may not have taken effect, the next plan for the same rule
      and state is what is left of this one: it never grows, and it shrinks by
      every completed write. */
  lemma RetryPlansTheRest(cfg: Config, rule: Option<nat>, state: State, members: set<string>, k: nat, tookEffect: bool)
    requires ValidConfig(cfg)
    requires k < |OpsFor(cfg, rule, state, members)|
    ensures var ops := OpsFor(cfg, rule, state, members);
      var done := if tookEffect then k + 1 else k;
      OpsFor(cfg, rule, state, ApplyAll(ops[..done], members)) == ops[done..]
  {
    RestIsPlanned(cfg, rule, state, members, if tookEffect then k + 1 else k);
  }
}
