/** Membership policy and its validation (internal/config/schema.go,
    internal/config/validate.go). */
module Policy {
  import opened Common
  import opened Ordering

  /** Group aliases and the group IDs each stands for. */
  type Groups = map<string, seq<string>>

  /** The resolved user that rule conditions see (internal/domain/user.go). */
  datatype User = User(
    present: bool, id: string, mailNickname: string,
    userPrincipalName: string, displayName: string, groups: seq<string>)

  /** What evaluating a compiled condition gives. */
  datatype Evaluation = Value(matches: bool) | EvaluationFailed

  /** A compiled condition: deterministic, otherwise unknown. */
  type Program = User -> Evaluation

  datatype GroupAssertions = GroupAssertions(present: seq<string>, absent: seq<string>)
  {
    /** Aliases in the order validation visits them. */
    function All(): seq<string> { present + absent }
  }

  datatype States = States(pending: GroupAssertions, active: GroupAssertions, settled: GroupAssertions)

  datatype Rule = Rule(name: string, condition: string, states: States)

  datatype Side = Present | Absent

  datatype AssertionError =
    | UnknownAlias(side: Side, alias: string)
    | NotOneGroup(side: Side, alias: string)
    | DuplicateAlias(side: Side, alias: string)
    | RequiredAndForbidden(alias: string)
    | SameGroup(side: Side, first: string, second: string)

  /** The alias is known and stands for exactly one group ID. */
  predicate Writable(groups: Groups, alias: string) {
    alias in groups && |groups[alias]| == 1
  }

  /** The one group ID of a writable alias. */
  function Target(groups: Groups, alias: string): string {
    if Writable(groups, alias) then groups[alias][0] else ""
  }

  /** The first k aliases are writable and no two of them name the same group. */
  ghost predicate Consistent(groups: Groups, aliases: seq<string>, k: nat) {
    && k <= |aliases|
    && (forall i :: 0 <= i < k ==> Writable(groups, aliases[i]))
    && (forall i, j :: 0 <= i < j < k ==> Target(groups, aliases[i]) != Target(groups, aliases[j]))
  }

  /** The assertions a configuration may contain. */
  ghost predicate Accepted(groups: Groups, a: GroupAssertions) {
    Consistent(groups, a.All(), |a.All()|)
  }

  /** The assertions of a pair in the order validation visits them: the
      present aliases are the first split of all. Position k is on this side. */
  function SideOf(split: nat, k: nat): Side {
    if k < split then Present else Absent
  }

  /** Where the aliases of one side start in all. */
  function Start(split: nat, side: Side): nat { if side == Present then 0 else split }

  function End(all: seq<string>, split: nat, side: Side): nat { if side == Present then split else |all| }

  /** error is what validation must say about position k. */
  ghost predicate Blames(groups: Groups, all: seq<string>, split: nat, k: nat, error: AssertionError)
    requires k < |all|
  {
    var side := SideOf(split, k);
    if all[k] !in groups then error == UnknownAlias(side, all[k])
    else if |groups[all[k]]| != 1 then error == NotOneGroup(side, all[k])
    else if all[k] in all[Start(split, side)..k] then error == DuplicateAlias(side, all[k])
    else exists j :: 0 <= j < k && Clash(groups, all, split, j, k, error)
  }

  /** The earlier position j has the group ID of position k. */
  ghost predicate Clash(groups: Groups, all: seq<string>, split: nat, j: nat, k: nat, error: AssertionError)
    requires j < k < |all|
  {
    && Target(groups, all[j]) == Target(groups, all[k])
    && error == if SideOf(split, j) != SideOf(split, k) then RequiredAndForbidden(all[j])
                else SameGroup(SideOf(split, k), all[j], all[k])
  }

  /** Position k is the first at fault, and error says why. */
  ghost predicate FirstFault(groups: Groups, all: seq<string>, split: nat, k: nat, error: AssertionError) {
    k < |all| && Consistent(groups, all, k) && Blames(groups, all, split, k, error)
  }

  /** What the loop remembers of the first k positions: each group ID with the
      alias and side that named it. */
  ghost function Memory(groups: Groups, all: seq<string>, split: nat, k: nat): map<string, (string, Side)>
    requires k <= |all|
  {
    if k == 0 then map[]
    else Memory(groups, all, split, k - 1)[Target(groups, all[k - 1]) := (all[k - 1], SideOf(split, k - 1))]
  }

  /** None of the first k positions stops the loop. */
  ghost predicate Passed(groups: Groups, all: seq<string>, split: nat, k: nat) {
    k == 0 || (k <= |all| && Passed(groups, all, split, k - 1)
      && Writable(groups, all[k - 1]) && Target(groups, all[k - 1]) !in Memory(groups, all, split, k - 1))
  }

  /** A remembered group ID belongs to an earlier position, and the entry names
      that position. */
  lemma {:induction false} MemoryNames(groups: Groups, all: seq<string>, split: nat, k: nat, id: string) returns (j: nat)
    requires k <= |all| && id in Memory(groups, all, split, k)
    ensures j < k && Target(groups, all[j]) == id && Memory(groups, all, split, k)[id] == (all[j], SideOf(split, j))
  {
    if id == Target(groups, all[k - 1]) {
      j := k - 1;
    } else {
      j := MemoryNames(groups, all, split, k - 1, id);
    }
  }

  lemma {:induction false} MemoryHolds(groups: Groups, all: seq<string>, split: nat, k: nat, j: nat)
    requires j < k <= |all|
    ensures Target(groups, all[j]) in Memory(groups, all, split, k)
  {
    if j < k - 1 {
      MemoryHolds(groups, all, split, k - 1, j);
    }
  }

  /** The loop passes exactly the consistent prefixes. */
  lemma {:induction false} PassedMeansConsistent(groups: Groups, all: seq<string>, split: nat, k: nat)
    requires k <= |all|
    ensures Passed(groups, all, split, k) <==> Consistent(groups, all, k)
  {
    if k > 0 {
      PassedMeansConsistent(groups, all, split, k - 1);
      var id := Target(groups, all[k - 1]);
      if id in Memory(groups, all, split, k - 1) {
        var j := MemoryNames(groups, all, split, k - 1, id);
      } else {
        forall j | 0 <= j < k - 1 ensures Target(groups, all[j]) != id {
          MemoryHolds(groups, all, split, k - 1, j);
        }
      }
    }
  }

  /** A fault at k is fatal: the whole list is not acceptable. */
  lemma FaultMeansRejected(groups: Groups, all: seq<string>, split: nat, k: nat, error: AssertionError)
    requires FirstFault(groups, all, split, k, error)
    ensures !Consistent(groups, all, |all|)
  {
  }

  /** What the loop says about one alias, given what it remembers. */
  function CheckAlias(groups: Groups, side: Side, alias: string,
      seen: set<string>, targets: map<string, (string, Side)>): Option<AssertionError>
  {
    if alias !in groups then Some(UnknownAlias(side, alias))
    else if |groups[alias]| != 1 then Some(NotOneGroup(side, alias))
    else if alias in seen then Some(DuplicateAlias(side, alias))
    else if groups[alias][0] in targets then
      var previous := targets[groups[alias][0]];
      Some(if previous.1 != side then RequiredAndForbidden(previous.0) else SameGroup(side, previous.0, alias))
    else None
  }

  /** The inner loop over the aliases of one side. */
  function ScanSide(groups: Groups, side: Side, aliases: seq<string>,
      seen: set<string>, targets: map<string, (string, Side)>): Result<map<string, (string, Side)>, AssertionError>
  {
    if aliases == [] then Ok(targets) else
    match CheckAlias(groups, side, aliases[0], seen, targets)
    case Some(error) => Err(error)
    case None =>
      ScanSide(groups, side, aliases[1..], seen + {aliases[0]}, targets[Target(groups, aliases[0]) := (aliases[0], side)])
  }

  /** The alias that stops the loop is at fault, for the reason given. */
  lemma CheckBlames(groups: Groups, all: seq<string>, split: nat, k: nat)
    requires k < |all| && Passed(groups, all, split, k)
    ensures var seen := Elements(all[Start(split, SideOf(split, k))..k]);
      match CheckAlias(groups, SideOf(split, k), all[k], seen, Memory(groups, all, split, k))
      case Some(error) => FirstFault(groups, all, split, k, error)
      case None => Passed(groups, all, split, k + 1)
  {
    PassedMeansConsistent(groups, all, split, k);
    var seen := Elements(all[Start(split, SideOf(split, k))..k]);
    var error := CheckAlias(groups, SideOf(split, k), all[k], seen, Memory(groups, all, split, k));
    if Writable(groups, all[k]) && all[k] !in seen && Target(groups, all[k]) in Memory(groups, all, split, k) {
      var j := MemoryNames(groups, all, split, k, Target(groups, all[k]));
      assert Clash(groups, all, split, j, k, error.value);
    }
  }

  lemma SeenNext(all: seq<string>, start: nat, k: nat)
    requires start <= k < |all|
    ensures Elements(all[start..k + 1]) == Elements(all[start..k]) + {all[k]}
  {
  }

  /** The scan of one side passed it all, or stopped at the first fault. */
  ghost predicate Scanned(groups: Groups, all: seq<string>, split: nat, side: Side,
      result: Result<map<string, (string, Side)>, AssertionError>, fault: nat)
    requires split <= |all|
  {
    match result
    case Ok(targets) =>
      Passed(groups, all, split, End(all, split, side)) && targets == Memory(groups, all, split, End(all, split, side))
    case Err(error) => FirstFault(groups, all, split, fault, error)
  }

  /** Scanning the rest of one side either passes it all or stops at the first
      fault. */
  lemma {:induction false} ScanFindsFirstFault(groups: Groups, all: seq<string>, split: nat, side: Side, k: nat)
    returns (fault: nat)
    requires Start(split, side) <= k <= End(all, split, side) && split <= |all| && Passed(groups, all, split, k)
    ensures Scanned(groups, all, split, side,
                    ScanSide(groups, side, all[k..End(all, split, side)], Elements(all[Start(split, side)..k]),
                             Memory(groups, all, split, k)),
                    fault)
    decreases |all| - k
  {
    fault := k;
    var end := End(all, split, side);
    if k < end {
      CheckBlames(groups, all, split, k);
      SeenNext(all, Start(split, side), k);
      assert all[k..end][0] == all[k] && all[k..end][1..] == all[k + 1..end];
      var seen := Elements(all[Start(split, side)..k]);
      if CheckAlias(groups, side, all[k], seen, Memory(groups, all, split, k)).None? {
        fault := ScanFindsFirstFault(groups, all, split, side, k + 1);
      }
    }
  }

  function AliasesOf(a: GroupAssertions, side: Side): seq<string> {
    if side == Present then a.present else a.absent
  }

  lemma ScanWholeSide(groups: Groups, a: GroupAssertions, side: Side) returns (fault: nat)
    requires Passed(groups, a.All(), |a.present|, Start(|a.present|, side))
    ensures Scanned(groups, a.All(), |a.present|, side,
                    ScanSide(groups, side, AliasesOf(a, side), {}, Memory(groups, a.All(), |a.present|, Start(|a.present|, side))),
                    fault)
  {
    var all, split := a.All(), |a.present|;
    var start, end := Start(split, side), End(all, split, side);
    assert all[start..end] == AliasesOf(a, side);
    assert Elements(all[start..start]) == {};
    fault := ScanFindsFirstFault(groups, all, split, side, start);
  }

  /** The inner loop. */
  method ValidateSide(groups: Groups, side: Side, aliases: seq<string>, before: map<string, (string, Side)>)
    returns (result: Result<map<string, (string, Side)>, AssertionError>)
    ensures result == ScanSide(groups, side, aliases, {}, before)
  {
    var seen, targets := {}, before;
    for i := 0 to |aliases|
      invariant ScanSide(groups, side, aliases, {}, before) == ScanSide(groups, side, aliases[i..], seen, targets)
    {
      var alias := aliases[i];
      var error := CheckAlias(groups, side, alias, seen, targets);
      if error.Some? {
        return Err(error.value);
      }
      seen := seen + {alias};
      targets := targets[groups[alias][0] := (alias, side)];
    }
    return Ok(targets);
  }

  /** Accepts exactly the consistent assertion pairs, and otherwise reports the
      first alias at fault. */
  method ValidateGroupAssertions(groups: Groups, a: GroupAssertions) returns (error: Option<AssertionError>)
    ensures error.None? <==> Accepted(groups, a)
    ensures error.Some? ==> exists k :: FirstFault(groups, a.All(), |a.present|, k, error.value)
  {
    ghost var all, split := a.All(), |a.present|;
    var present := ValidateSide(groups, Present, a.present, map[]);
    ghost var k := ScanWholeSide(groups, a, Present);
    if present.Err? {
      FaultMeansRejected(groups, all, split, k, present.error);
      return Some(present.error);
    }
    var absent := ValidateSide(groups, Absent, a.absent, present.value);
    k := ScanWholeSide(groups, a, Absent);
    if absent.Err? {
      FaultMeansRejected(groups, all, split, k, absent.error);
      return Some(absent.error);
    }
    PassedMeansConsistent(groups, all, split, |all|);
    return None;
  }

  datatype RuleError =
    | NoRules | BadName(index: nat) | DuplicateName(index: nat) | BadCondition(index: nat)
    | BadAssertions(index: nat, error: AssertionError) | NoAssertions(index: nat)

  ghost predicate HasAssertions(r: Rule) {
    r.states.pending.All() != [] || r.states.active.All() != [] || r.states.settled.All() != []
  }

  /** One rule is acceptable, the names of earlier rules aside. */
  ghost predicate RuleAccepted(groups: Groups, r: Rule, nameOk: string -> bool, compile: string -> Option<Program>) {
    && nameOk(r.name) && compile(r.condition).Some?
    && Accepted(groups, r.states.pending) && Accepted(groups, r.states.active) && Accepted(groups, r.states.settled)
    && HasAssertions(r)
  }

  ghost predicate RulesAccepted(groups: Groups, rules: seq<Rule>, nameOk: string -> bool, compile: string -> Option<Program>) {
    && (forall i :: 0 <= i < |rules| ==> RuleAccepted(groups, rules[i], nameOk, compile))
    && (forall i, j :: 0 <= i < j < |rules| ==> rules[i].name != rules[j].name)
  }

  ghost function Names(rules: seq<Rule>): set<string> {
    set r | r in rules :: r.name
  }

  /** One program per rule, compiled from its condition. */
  ghost predicate Compiled(rules: seq<Rule>, compile: string -> Option<Program>, programs: seq<Program>) {
    |programs| == |rules| && forall i :: 0 <= i < |rules| ==> Some(programs[i]) == compile(rules[i].condition)
  }

  /** The assertions of a rule in the order of validation. */
  function Sides(r: Rule): (s: seq<GroupAssertions>)
    ensures |s| == 3
  {
    [r.states.pending, r.states.active, r.states.settled]
  }

  /** The error names the first check that the rule fails. */
  ghost predicate RuleBlamed(groups: Groups, index: nat, r: Rule, seenNames: set<string>,
      nameOk: string -> bool, compile: string -> Option<Program>, error: RuleError)
  {
    if !nameOk(r.name) then error == BadName(index)
    else if r.name in seenNames then error == DuplicateName(index)
    else if compile(r.condition).None? then error == BadCondition(index)
    else if AcceptedUpTo(groups, Sides(r), 3) then error == NoAssertions(index)
    else error.BadAssertions? && error.index == index && SideBlamed(groups, r, error.error)
  }

  /** The first assertions at fault, and their first alias at fault. */
  ghost predicate SideBlamed(groups: Groups, r: Rule, error: AssertionError) {
    exists t :: BlamedAt(groups, Sides(r), t, error)
  }

  ghost predicate BlamedAt(groups: Groups, sides: seq<GroupAssertions>, t: nat, error: AssertionError) {
    t < |sides| && AcceptedUpTo(groups, sides, t)
    && exists k :: FirstFault(groups, sides[t].All(), |sides[t].present|, k, error)
  }

  ghost predicate AcceptedUpTo(groups: Groups, sides: seq<GroupAssertions>, n: nat)
    requires n <= |sides|
  {
    forall t :: 0 <= t < n ==> Accepted(groups, sides[t])
  }

  ghost predicate AssertedUpTo(sides: seq<GroupAssertions>, n: nat)
    requires n <= |sides|
  {
    exists t :: 0 <= t < n && sides[t].All() != []
  }

  /** The loop over a rule's assertions. */
  method CheckSides(groups: Groups, rule: Rule) returns (problem: Option<AssertionError>, hasAssertions: bool)
    ensures problem.None? <==> AcceptedUpTo(groups, Sides(rule), 3)
    ensures problem.None? ==> (hasAssertions <==> HasAssertions(rule))
    ensures problem.Some? ==> SideBlamed(groups, rule, problem.value)
  {
    hasAssertions := false;
    for s := 0 to 3
      invariant hasAssertions <==> AssertedUpTo(Sides(rule), s)
      invariant AcceptedUpTo(groups, Sides(rule), s)
    {
      var asserted, error := CheckSide(groups, Sides(rule), s, hasAssertions);
      hasAssertions := asserted;
      if error.Some? {
        return error, hasAssertions;
      }
    }
    problem := None;
    AllAsserted(rule);
  }

  method CheckSide(groups: Groups, sides: seq<GroupAssertions>, s: nat, hasAssertions: bool)
    returns (asserted: bool, problem: Option<AssertionError>)
    requires s < |sides| && AcceptedUpTo(groups, sides, s) && (hasAssertions <==> AssertedUpTo(sides, s))
    ensures asserted <==> AssertedUpTo(sides, s + 1)
    ensures problem.None? <==> AcceptedUpTo(groups, sides, s + 1)
    ensures problem.Some? ==> BlamedAt(groups, sides, s, problem.value)
    ensures problem.Some? ==> !Accepted(groups, sides[s])
  {
    asserted := hasAssertions;
    if |sides[s].present| != 0 || |sides[s].absent| != 0 {
      assert sides[s].All() != [];
      asserted := true;
    }
    problem := ValidateGroupAssertions(groups, sides[s]);
  }

  lemma AllAsserted(r: Rule)
    ensures AssertedUpTo(Sides(r), 3) <==> HasAssertions(r)
  {
    assert Sides(r)[0] == r.states.pending && Sides(r)[1] == r.states.active && Sides(r)[2] == r.states.settled;
  }

  lemma SidesAre(groups: Groups, r: Rule)
    ensures AcceptedUpTo(groups, Sides(r), 3)
       <==> Accepted(groups, r.states.pending) && Accepted(groups, r.states.active) && Accepted(groups, r.states.settled)
  {
    assert Sides(r)[0] == r.states.pending && Sides(r)[1] == r.states.active && Sides(r)[2] == r.states.settled;
  }

  /** The checks of one rule, in the order the source makes them. */
  method CheckRule(groups: Groups, index: nat, rule: Rule, seenNames: set<string>,
      nameOk: string -> bool, compile: string -> Option<Program>)
    returns (error: Option<RuleError>)
    ensures error.None? <==> RuleAccepted(groups, rule, nameOk, compile) && rule.name !in seenNames
    ensures error.Some? ==> RuleBlamed(groups, index, rule, seenNames, nameOk, compile, error.value)
  {
    if !nameOk(rule.name) {
      return Some(BadName(index));
    }
    if rule.name in seenNames {
      return Some(DuplicateName(index));
    }
    if compile(rule.condition).None? {
      return Some(BadCondition(index));
    }
    SidesAre(groups, rule);
    var problem, hasAssertions := CheckSides(groups, rule);
    if problem.Some? {
      return Some(BadAssertions(index, problem.value));
    }
    return if hasAssertions then None else Some(NoAssertions(index));
  }

  /** A rule that fails its checks makes the whole list unacceptable. */
  lemma RejectedRule(groups: Groups, rules: seq<Rule>, index: nat, nameOk: string -> bool, compile: string -> Option<Program>)
    requires index < |rules|
    requires !RuleAccepted(groups, rules[index], nameOk, compile) || rules[index].name in Names(rules[..index])
    ensures !RulesAccepted(groups, rules, nameOk, compile)
  {
  }

  /** The part of the configuration that planning uses. */
  datatype Config = Config(groups: Groups, rules: seq<Rule>, programs: seq<Program>)

  /** What validation leaves behind. */
  ghost predicate ValidConfig(cfg: Config) {
    && |cfg.programs| == |cfg.rules|
    && forall i :: 0 <= i < |cfg.rules| ==>
         Accepted(cfg.groups, cfg.rules[i].states.pending)
         && Accepted(cfg.groups, cfg.rules[i].states.active)
         && Accepted(cfg.groups, cfg.rules[i].states.settled)
  }

  /** validateRules: the compiled programs when every rule is acceptable. The
      name pattern and the CEL compiler are parameters. */
  method ValidateRules(groups: Groups, rules: seq<Rule>, nameOk: string -> bool, compile: string -> Option<Program>)
    returns (result: Result<seq<Program>, RuleError>)
    ensures result.Ok? <==> rules != [] && RulesAccepted(groups, rules, nameOk, compile)
    ensures result.Err? ==> (rules == [] && result.error == NoRules) || exists index ::
      (0 <= index < |rules| && RulesAccepted(groups, rules[..index], nameOk, compile)
       && RuleBlamed(groups, index, rules[index], Names(rules[..index]), nameOk, compile, result.error))
    ensures result.Ok? ==> Compiled(rules, compile, result.value) && ValidConfig(Config(groups, rules, result.value))
  {
    if rules == [] {
      return Err(NoRules);
    }
    var programs: seq<Program> := [];
    var seenNames: set<string> := {};
    for index := 0 to |rules|
      invariant RulesAccepted(groups, rules[..index], nameOk, compile)
      invariant seenNames == Names(rules[..index])
      invariant Compiled(rules[..index], compile, programs)
    {
      var rule := rules[index];
      assert rules[..index + 1] == rules[..index] + [rule];
      var error := CheckRule(groups, index, rule, seenNames, nameOk, compile);
      if error.Some? {
        RejectedRule(groups, rules, index, nameOk, compile);
        return Err(error.value);
      }
      seenNames := seenNames + {rule.name};
      programs := programs + [compile(rule.condition).value];
    }
    assert rules[..|rules|] == rules;
    return Ok(programs);
  }
}
