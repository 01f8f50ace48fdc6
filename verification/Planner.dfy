/** Deriving a subject's membership plan (internal/planner/planner.go). */
module Planner {
  import opened Common
  import opened Ordering
  import opened Intents
  import opened Timeline
  import opened Policy

  datatype IntentPhase = IntentPhase(source: string, id: string, phase: Phase)

  datatype Plan = Plan(
    subject: string, user: User, rule: string, state: State, intents: seq<IntentPhase>,
    presentGroups: seq<string>, absentGroups: seq<string>, currentGroups: seq<string>,
    addGroups: seq<string>, removeGroups: seq<string>, nextTransition: Option<Time>)

  /** The order of plan.Intents: by source, then by ID. */
  predicate PhaseLe(a: IntentPhase, b: IntentPhase) {
    if a.source != b.source then StrLe(a.source, b.source) else StrLe(a.id, b.id)
  }

  lemma PhaseLeIsTotalPreorder()
    ensures TotalPreorder(PhaseLe)
  {
    forall x, y ensures PhaseLe(x, y) || PhaseLe(y, x) {
      StrLeTotal(x.source, y.source);
      StrLeTotal(x.id, y.id);
    }
    forall x, y, z | PhaseLe(x, y) && PhaseLe(y, z) ensures PhaseLe(x, z) {
      if x.source == y.source == z.source {
        StrLeTransitive(x.id, y.id, z.id);
      } else if x.source != y.source && y.source != z.source {
        StrLeTransitive(x.source, y.source, z.source);
        if x.source == z.source { StrLeAntisymmetric(x.source, y.source); }
      }
    }
  }

  function PhaseRecord(i: Intent, now: Time): IntentPhase {
    IntentPhase(i.source, i.id, PhaseAt(i, now))
  }

  function PhaseRecords(intents: seq<Intent>, now: Time): (r: seq<IntentPhase>)
    ensures |r| == |intents|
    ensures forall i :: 0 <= i < |r| ==> r[i] == PhaseRecord(intents[i], now)
  {
    if intents == [] then [] else
    PhaseRecords(intents[..|intents| - 1], now) + [PhaseRecord(intents[|intents| - 1], now)]
  }

  /** The elements of left that are in right, or those that are not. */
  function Select(left: seq<string>, right: seq<string>, keep: bool): (r: seq<string>)
    ensures forall x :: x in r <==> x in left && (x in right) == keep
  {
    if left == [] then [] else
    var last := left[|left| - 1];
    var front := Select(left[..|left| - 1], right, keep);
    assert forall x :: x in left <==> x in left[..|left| - 1] || x == last;
    if (last in right) == keep then front + [last] else front
  }

  lemma {:induction false} SelectStrict(left: seq<string>, right: seq<string>, keep: bool)
    requires StrictlySorted(left)
    ensures StrictlySorted(Select(left, right, keep))
  {
    if left != [] {
      var n := |left| - 1;
      SelectStrict(left[..n], right, keep);
      var front := Select(left[..n], right, keep);
      forall i | 0 <= i < |front| ensures StrLe(front[i], left[n]) && front[i] != left[n] {
        assert front[i] in left[..n];
      }
    }
  }

  method Intersection(left: seq<string>, right: seq<string>) returns (result: seq<string>)
    ensures result == Select(left, right, true)
  {
    result := [];
    for i := 0 to |left|
      invariant result == Select(left[..i], right, true)
    {
      assert left[..i + 1][..i] == left[..i];
      if left[i] in right {
        result := result + [left[i]];
      }
    }
    assert left[..|left|] == left;
  }

  method Difference(left: seq<string>, right: seq<string>) returns (result: seq<string>)
    ensures result == Select(left, right, false)
  {
    result := [];
    for i := 0 to |left|
      invariant result == Select(left[..i], right, false)
    {
      assert left[..i + 1][..i] == left[..i];
      if left[i] !in right {
        result := result + [left[i]];
      }
    }
    assert left[..|left|] == left;
  }

  /** No condition before index n matched or failed. */
  predicate NoneMatches(programs: seq<Program>, user: User, n: nat)
    requires n <= |programs|
  {
    forall j :: 0 <= j < n ==> programs[j](user) == Value(false)
  }

  /** The first rule whose condition is true; or the first condition that fails
      to evaluate, when that comes earlier. */
  ghost predicate IsFirstMatch(programs: seq<Program>, user: User, r: Result<Option<nat>, nat>) {
    match r
    case Ok(None) => NoneMatches(programs, user, |programs|)
    case Ok(Some(i)) => i < |programs| && programs[i](user) == Value(true) && NoneMatches(programs, user, i)
    case Err(i) => i < |programs| && programs[i](user) == EvaluationFailed && NoneMatches(programs, user, i)
  }

  method SelectRule(programs: seq<Program>, user: User) returns (r: Result<Option<nat>, nat>)
    ensures IsFirstMatch(programs, user, r)
  {
    for index := 0 to |programs|
      invariant NoneMatches(programs, user, index)
    {
      var outcome := programs[index](user);
      if outcome.EvaluationFailed? {
        return Err(index);
      }
      if outcome.matches {
        return Ok(Some(index));
      }
    }
    return Ok(None);
  }

  ghost function FirstMatch(programs: seq<Program>, user: User): (r: Result<Option<nat>, nat>)
    ensures IsFirstMatch(programs, user, r)
  {
    FirstMatchFrom(programs, user, 0)
  }

  ghost function FirstMatchFrom(programs: seq<Program>, user: User, k: nat): (r: Result<Option<nat>, nat>)
    requires k <= |programs| && NoneMatches(programs, user, k)
    ensures IsFirstMatch(programs, user, r)
    decreases |programs| - k
  {
    if k == |programs| then Ok(None)
    else match programs[k](user)
      case EvaluationFailed => Err(k)
      case Value(true) => Ok(Some(k))
      case Value(false) => FirstMatchFrom(programs, user, k + 1)
  }

  lemma {:induction false} FirstMatchUnique(programs: seq<Program>, user: User, k: nat, r: Result<Option<nat>, nat>)
    requires k <= |programs| && NoneMatches(programs, user, k) && IsFirstMatch(programs, user, r)
    ensures r == FirstMatchFrom(programs, user, k)
    decreases |programs| - k
  {
  }

  const NO_ASSERTIONS := GroupAssertions([], [])

  /** The assertions of one rule in one aggregate state; none without a matching
      rule and none without intents. */
  function AssertionsFor(rules: seq<Rule>, rule: Option<nat>, state: State): GroupAssertions {
    if rule.None? || rule.value >= |rules| then NO_ASSERTIONS else
    match state
    case NoIntents => NO_ASSERTIONS
    case PendingState => rules[rule.value].states.pending
    case ActiveState => rules[rule.value].states.active
    case SettledState => rules[rule.value].states.settled
  }

  /** The plan once the rule is selected. */
  ghost function PlanWith(cfg: Config, user: User, rule: Option<nat>, intents: seq<Intent>, now: Time): Plan {
    var state := StateOf(Elements(intents), now);
    var asserted := AssertionsFor(cfg.rules, rule, state);
    var present, absent := UniqueSorted(asserted.present), UniqueSorted(asserted.absent);
    var current := UniqueSorted(user.groups);
    Plan(
      if intents == [] then "" else intents[0].subject,
      user,
      if rule.Some? && rule.value < |cfg.rules| then cfg.rules[rule.value].name else "",
      state,
      Sort(PhaseRecords(intents, now), PhaseLe),
      present, absent, current,
      Select(present, current, false),
      Select(absent, current, true),
      NextOf(Elements(intents), now))
  }

  /** What Build computes: a plan, or the index of the condition that failed. */
  ghost function PlanOf(cfg: Config, user: User, intents: seq<Intent>, now: Time): Result<Plan, nat> {
    match FirstMatch(cfg.programs, user)
    case Err(index) => Err(index)
    case Ok(rule) => Ok(PlanWith(cfg, user, rule, intents, now))
  }

  ghost predicate AnyIn(intents: seq<Intent>, phase: Phase, now: Time) {
    intents != [] && (PhaseAt(intents[|intents| - 1], now) == phase || AnyIn(intents[..|intents| - 1], phase, now))
  }

  lemma {:induction false} AnyInMeaning(intents: seq<Intent>, phase: Phase, now: Time)
    ensures AnyIn(intents, phase, now) <==> exists i :: i in Elements(intents) && PhaseAt(i, now) == phase
  {
    if intents != [] {
      var n := |intents| - 1;
      AnyInMeaning(intents[..n], phase, now);
      assert forall i :: i in Elements(intents) <==> i in Elements(intents[..n]) || i == intents[n];
    }
  }

  /** Build's loop over the intents. */
  method Survey(intents: seq<Intent>, now: Time)
    returns (records: seq<IntentPhase>, next: Option<Time>, hasPending: bool, hasActive: bool)
    requires forall i :: i in intents ==> i.startsAt < i.endsAt
    ensures records == PhaseRecords(intents, now)
    ensures next == NextOf(Elements(intents), now)
    ensures hasPending <==> AnyIn(intents, Pending, now)
    ensures hasActive <==> AnyIn(intents, Active, now)
  {
    records, next, hasPending, hasActive := [], None, false, false;
    for k := 0 to |intents|
      invariant records == PhaseRecords(intents[..k], now)
      invariant IsEarliest(BoundariesOf(Elements(intents[..k])), now, next)
      invariant hasPending <==> AnyIn(intents[..k], Pending, now)
      invariant hasActive <==> AnyIn(intents[..k], Active, now)
    {
      var accepted := intents[k];
      assert intents[..k + 1][..k] == intents[..k];
      var phase := PhaseAt(accepted, now);
      records := records + [PhaseRecord(accepted, now)];
      var transition := NextTransitionAt(accepted, now);
      ExtendEarliest(intents, k, now, next, transition);
      if transition.Some? && (next.None? || transition.value < next.value) {
        next := transition;
      }
      match phase
      case Pending => hasPending := true;
      case Active => hasActive := true;
      case Ended =>
      case Cancelled =>
    }
    assert intents[..|intents|] == intents;
    EarliestUnique(BoundariesOf(Elements(intents)), now, next, NextOf(Elements(intents), now));
  }

  ghost predicate SomeIn(intents: seq<Intent>, phase: Phase, now: Time) {
    exists i :: i in intents && PhaseAt(i, now) == phase
  }

  /** What a plan may assert: nothing without a matching rule or without intents;
      otherwise the matching rule's own assertions for the time that its subject's
      intents are in. Active ones as soon as some intent is active; pending ones if
      none is but some will be; settled ones once all have ended or are
      cancelled. */
  ghost predicate Asserts(plan: Plan, rules: seq<Rule>, rule: Option<nat>, intents: seq<Intent>, now: Time)
    requires rule.Some? ==> rule.value < |rules|
  {
    match rule
    case None => plan.presentGroups == [] && plan.absentGroups == []
    case Some(k) =>
      && (intents == [] ==> plan.presentGroups == [] && plan.absentGroups == [])
      && (SomeIn(intents, Active, now) ==> AssertsOnly(plan, rules[k].states.active))
      && (!SomeIn(intents, Active, now) && SomeIn(intents, Pending, now) ==> AssertsOnly(plan, rules[k].states.pending))
      && (intents != [] && !SomeIn(intents, Active, now) && !SomeIn(intents, Pending, now) ==>
            AssertsOnly(plan, rules[k].states.settled))
  }

  ghost predicate AssertsOnly(plan: Plan, a: GroupAssertions) {
    && (forall alias :: alias in plan.presentGroups <==> alias in a.present)
    && (forall alias :: alias in plan.absentGroups <==> alias in a.absent)
  }

  lemma SomeInMeans(intents: seq<Intent>, phase: Phase, now: Time)
    ensures SomeIn(intents, phase, now) <==> exists i :: i in Elements(intents) && PhaseAt(i, now) == phase
  {
    assert forall i :: i in intents <==> i in Elements(intents);
  }

  lemma PlannedGroups(values: seq<string>)
    ensures forall alias :: alias in UniqueSorted(values) <==> alias in values
  {
    UniqueSortedMeaning(values);
    forall alias ensures alias in UniqueSorted(values) <==> alias in values {
      assert alias in Elements(UniqueSorted(values)) <==> alias in Elements(values);
    }
  }

  lemma PlannedSides(cfg: Config, user: User, rule: Option<nat>, intents: seq<Intent>, now: Time)
    ensures AssertsOnly(PlanWith(cfg, user, rule, intents, now),
                        AssertionsFor(cfg.rules, rule, StateOf(Elements(intents), now)))
  {
    var a := AssertionsFor(cfg.rules, rule, StateOf(Elements(intents), now));
    PlannedGroups(a.present);
    PlannedGroups(a.absent);
  }

  lemma StateOfPhases(intents: seq<Intent>, now: Time)
    ensures StateOf(Elements(intents), now)
         == if SomeIn(intents, Active, now) then ActiveState
            else if SomeIn(intents, Pending, now) then PendingState
            else if intents != [] then SettledState else NoIntents
  {
    SomeInMeans(intents, Active, now);
    SomeInMeans(intents, Pending, now);
    if intents != [] { assert intents[0] in Elements(intents); }
  }

  lemma PlannedAssertions(cfg: Config, user: User, rule: Option<nat>, intents: seq<Intent>, now: Time)
    requires rule.Some? ==> rule.value < |cfg.rules|
    ensures Asserts(PlanWith(cfg, user, rule, intents, now), cfg.rules, rule, intents, now)
  {
    var plan := PlanWith(cfg, user, rule, intents, now);
    StateOfPhases(intents, now);
    PlannedSides(cfg, user, rule, intents, now);
    if rule.None? || intents == [] {
      NoGroups(plan);
    }
  }

  lemma NoGroups(plan: Plan)
    requires AssertsOnly(plan, NO_ASSERTIONS)
    ensures plan.presentGroups == [] && plan.absentGroups == []
  {
    HasElement(plan.presentGroups);
    HasElement(plan.absentGroups);
  }

  lemma HasElement<T>(s: seq<T>)
    ensures s != [] ==> exists x :: x in s
  {
    if s != [] { assert s[0] in s; }
  }

  method Build(cfg: Config, user: User, intents: seq<Intent>, now: Time) returns (r: Result<Plan, nat>)
    requires |cfg.programs| == |cfg.rules|
    requires forall i :: i in intents ==> i.startsAt < i.endsAt
    ensures r == PlanOf(cfg, user, intents, now)
    ensures r.Ok? ==>
      FirstMatch(cfg.programs, user).Ok? && Asserts(r.value, cfg.rules, FirstMatch(cfg.programs, user).value, intents, now)
  {
    var rule := SelectRule(cfg.programs, user);
    FirstMatchUnique(cfg.programs, user, 0, rule);
    if rule.Err? {
      return Err(rule.error);
    }
    PlannedAssertions(cfg, user, rule.value, intents, now);
    var records, next, hasPending, hasActive := Survey(intents, now);
    var state := NoIntents;
    if |intents| != 0 {
      state := SettledState;
    }
    if hasPending {
      state := PendingState;
    }
    if hasActive {
      state := ActiveState;
    }
    SurveyedState(intents, now, hasPending, hasActive, state);
    var current := UniqueSorted(user.groups);
    var present, absent, add, remove := [], [], [], [];
    var ruleName := "";
    if rule.value.Some? {
      ruleName := cfg.rules[rule.value.value].name;
    }
    if rule.value.Some? && state != NoIntents {
      var assertions := AssertionsFor(cfg.rules, rule.value, state);
      present := UniqueSorted(assertions.present);
      absent := UniqueSorted(assertions.absent);
      add := Difference(present, current);
      remove := Intersection(absent, current);
    }
    return Ok(Plan(
      if intents == [] then "" else intents[0].subject, user, ruleName, state,
      Sort(records, PhaseLe), present, absent, current, add, remove, next));
  }

  /** The flags decide the aggregate state. */
  lemma SurveyedState(intents: seq<Intent>, now: Time, hasPending: bool, hasActive: bool, state: State)
    requires hasPending <==> AnyIn(intents, Pending, now)
    requires hasActive <==> AnyIn(intents, Active, now)
    requires state == if hasActive then ActiveState else if hasPending then PendingState
                      else if |intents| != 0 then SettledState else NoIntents
    ensures state == StateOf(Elements(intents), now)
  {
    AnyInMeaning(intents, Pending, now);
    AnyInMeaning(intents, Active, now);
    if intents != [] { assert intents[0] in Elements(intents); }
  }

  /** What the changes of a plan mean: add the missing, remove the held, in
      order, each once. */
  lemma PlannedChanges(cfg: Config, user: User, rule: Option<nat>, intents: seq<Intent>, now: Time)
    ensures var plan := PlanWith(cfg, user, rule, intents, now);
      var asserted := AssertionsFor(cfg.rules, rule, plan.state);
      && StrictlySorted(plan.presentGroups) && StrictlySorted(plan.absentGroups) && StrictlySorted(plan.currentGroups)
      && Elements(plan.presentGroups) == Elements(asserted.present) && Elements(plan.absentGroups) == Elements(asserted.absent)
      && Elements(plan.currentGroups) == Elements(user.groups)
      && StrictlySorted(plan.addGroups) && StrictlySorted(plan.removeGroups)
      && (forall alias :: alias in plan.addGroups <==> alias in asserted.present && alias !in user.groups)
      && (forall alias :: alias in plan.removeGroups <==> alias in asserted.absent && alias in user.groups)
  {
    var plan := PlanWith(cfg, user, rule, intents, now);
    var asserted := AssertionsFor(cfg.rules, rule, plan.state);
    UniqueSortedMeaning(asserted.present);
    UniqueSortedMeaning(asserted.absent);
    UniqueSortedMeaning(user.groups);
    SelectStrict(plan.presentGroups, plan.currentGroups, false);
    SelectStrict(plan.absentGroups, plan.currentGroups, true);
    forall alias
      ensures alias in plan.addGroups <==> alias in asserted.present && alias !in user.groups
      ensures alias in plan.removeGroups <==> alias in asserted.absent && alias in user.groups
    {
      assert alias in plan.presentGroups <==> alias in Elements(asserted.present);
      assert alias in plan.absentGroups <==> alias in Elements(asserted.absent);
      assert alias in plan.currentGroups <==> alias in Elements(user.groups);
    }
  }

  /** What a plan reports about the intents: the phase of each, in the order of
      source and ID, and the name of the rule. */
  lemma PlannedReport(cfg: Config, user: User, rule: Option<nat>, intents: seq<Intent>, now: Time)
    requires rule.Some? ==> rule.value < |cfg.rules|
    ensures var plan := PlanWith(cfg, user, rule, intents, now);
      && SortedBy(plan.intents, PhaseLe) && |plan.intents| == |intents|
      && (forall p :: p in plan.intents <==>
            exists i :: i in intents && p.source == i.source && p.id == i.id && p.phase == PhaseAt(i, now))
      && plan.user == user && plan.state == StateOf(Elements(intents), now)
      && IsEarliest(BoundariesOf(Elements(intents)), now, plan.nextTransition)
      && (forall i :: i in intents ==> intents != [] && (OneSubject(intents, i.subject) ==> plan.subject == i.subject))
      && plan.rule == if rule.Some? then cfg.rules[rule.value].name else ""
  {
    var plan, records := PlanWith(cfg, user, rule, intents, now), PhaseRecords(intents, now);
    PhaseLeIsTotalPreorder();
    SortSorts(records, PhaseLe);
    ElementsOfMultiset(plan.intents, records);
    forall p
      ensures p in plan.intents <==>
        exists i :: i in intents && p.source == i.source && p.id == i.id && p.phase == PhaseAt(i, now)
    {
      assert p in plan.intents <==> p in Elements(plan.intents);
      if p in records {
        var k :| 0 <= k < |records| && records[k] == p;
        assert intents[k] in intents && p == PhaseRecord(intents[k], now);
      }
      if i :| i in intents && p.source == i.source && p.id == i.id && p.phase == PhaseAt(i, now) {
        assert p == PhaseRecord(i, now);
        var k :| 0 <= k < |intents| && intents[k] == i;
        assert records[k] == p && p in Elements(records);
      }
    }
  }

  ghost predicate DistinctIdentities(intents: seq<Intent>) {
    forall i, j :: 0 <= i < j < |intents| ==> intents[i].Identity() != intents[j].Identity()
  }

  ghost predicate OneSubject(intents: seq<Intent>, subject: string) {
    forall i :: 0 <= i < |intents| ==> intents[i].subject == subject
  }

  /** Two listings of the same intents give the same phase records. */
  lemma {:induction false} RecordsOfPermutation(xs: seq<Intent>, ys: seq<Intent>, now: Time)
    requires multiset(xs) == multiset(ys)
    ensures multiset(PhaseRecords(xs, now)) == multiset(PhaseRecords(ys, now))
    decreases |xs|
  {
    assert |multiset(xs)| == |xs| && |multiset(ys)| == |ys|;
    if xs != [] {
      assert xs[0] in multiset(ys);
      var k :| 0 <= k < |ys| && ys[k] == xs[0];
      RemovedMultiset(xs, 0);
      RemovedMultiset(ys, k);
      RecordsOfPermutation(Removed(xs, 0), Removed(ys, k), now);
      RecordsWithout(xs, 0, now);
      RecordsWithout(ys, k, now);
    }
  }

  function Removed<T>(s: seq<T>, k: nat): seq<T>
    requires k < |s|
  {
    s[..k] + s[k + 1..]
  }

  lemma RemovedMultiset<T>(s: seq<T>, k: nat)
    requires k < |s|
    ensures multiset(Removed(s, k)) == multiset(s) - multiset{s[k]}
    ensures multiset(s) == multiset(Removed(s, k)) + multiset{s[k]}
  {
    assert s == s[..k] + [s[k]] + s[k + 1..];
  }

  lemma RecordsWithout(ys: seq<Intent>, k: nat, now: Time)
    requires k < |ys|
    ensures multiset(PhaseRecords(ys, now))
         == multiset(PhaseRecords(Removed(ys, k), now)) + multiset{PhaseRecord(ys[k], now)}
  {
    assert PhaseRecords(Removed(ys, k), now) == Removed(PhaseRecords(ys, now), k);
    RemovedMultiset(PhaseRecords(ys, now), k);
  }

  /** Phase records of intents with distinct identities never tie. */
  lemma RecordsNeverTie(intents: seq<Intent>, now: Time)
    requires DistinctIdentities(intents)
    ensures NoTies(Sort(PhaseRecords(intents, now), PhaseLe), PhaseLe)
  {
    var records := PhaseRecords(intents, now);
    var sorted := Sort(records, PhaseLe);
    RecordsDistinct(intents, now);
    forall i, j | 0 <= i < |sorted| && 0 <= j < |sorted| && PhaseLe(sorted[i], sorted[j]) && PhaseLe(sorted[j], sorted[i])
      ensures sorted[i] == sorted[j]
    {
      var x, y := sorted[i], sorted[j];
      if x.source != y.source { StrLeAntisymmetric(x.source, y.source); }
      if x.id != y.id { StrLeAntisymmetric(x.id, y.id); }
      assert x in multiset(sorted) && y in multiset(sorted);
      assert x in records && y in records;
    }
  }

  lemma RecordsDistinct(intents: seq<Intent>, now: Time)
    requires DistinctIdentities(intents)
    ensures var records := PhaseRecords(intents, now);
      forall x, y :: x in records && y in records && x.source == y.source && x.id == y.id ==> x == y
  {
  }

  /** The plan of a subject does not depend on the order in which its intents
      are listed. */
  lemma PlanIgnoresOrder(cfg: Config, user: User, rule: Option<nat>, xs: seq<Intent>, ys: seq<Intent>, subject: string, now: Time)
    requires multiset(xs) == multiset(ys)
    requires DistinctIdentities(xs) && DistinctIdentities(ys) && OneSubject(xs, subject) && OneSubject(ys, subject)
    ensures PlanWith(cfg, user, rule, xs, now) == PlanWith(cfg, user, rule, ys, now)
  {
    assert |multiset(xs)| == |xs| && |multiset(ys)| == |ys|;
    ElementsOfMultiset(xs, ys);
    RecordsOfPermutation(xs, ys, now);
    PhaseLeIsTotalPreorder();
    SortSorts(PhaseRecords(xs, now), PhaseLe);
    SortSorts(PhaseRecords(ys, now), PhaseLe);
    RecordsNeverTie(xs, now);
    SortedUnique(Sort(PhaseRecords(xs, now), PhaseLe), Sort(PhaseRecords(ys, now), PhaseLe), PhaseLe);
  }
}
