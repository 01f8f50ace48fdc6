/** Why the main results need their conditions: concrete histories in which the
    row of a subject is unmarked and not due, yet the directory contradicts the
    assertions. Each breaks one condition and keeps the others. */
module Counterexamples {
  import opened Common
  import opened Ordering
  import opened Intents
  import opened Timeline
  import opened Policy
  import opened Aliases
  import opened Planner
  import opened Store
  import opened Convergence
  import opened Protocol
  import opened ProtocolInvariant
  import opened Coherence
  import opened Exactness
  import opened Undisturbed
  import opened Progress
  import opened Scenarios

  const GROUPS: Groups := map["staff" := ["g1"]]
  const MEMBER_OF := GroupAssertions(["staff"], [])
  const KEPT_OUT := GroupAssertions([], ["staff"])

  /** One rule for everybody: in the group while active, out of it afterwards. */
  const CONFIG := Config(GROUPS, [Rule("all", "true", States(NO_ASSERTIONS, MEMBER_OF, KEPT_OUT))], [(u: User) => Value(true)])

  const WANTED := Goal({"g1"}, {})
  const UNWANTED := Goal({}, {"g1"})

  function ParamsWith(userOf: string -> string): Params {
    Params(CONFIG, 1, 8, 2, (n: LockName) => if n.SubjectLock? then 1 else 0, userOf)
  }

  lemma Targets()
    ensures GoalOf(GROUPS, MEMBER_OF) == WANTED && GoalOf(GROUPS, KEPT_OUT) == UNWANTED
    ensures Accepted(GROUPS, MEMBER_OF) && Accepted(GROUPS, KEPT_OUT) && Accepted(GROUPS, NO_ASSERTIONS)
  {
    assert NO_ASSERTIONS.All() == [] && MEMBER_OF.All() == ["staff"] && KEPT_OUT.All() == ["staff"];
    assert TargetsOf(GROUPS, ["staff"]) == {"g1"} by {
      assert Target(GROUPS, "staff") == "g1";
      assert "staff" in ["staff"];
    }
    assert TargetsOf(GROUPS, []) == {};
  }

  lemma ConfigIsValid()
    ensures ValidConfig(CONFIG)
    ensures GoalFor(CONFIG, Some(0), ActiveState) == WANTED
    ensures GoalFor(CONFIG, Some(0), SettledState) == UNWANTED
  {
    Targets();
  }

  lemma OnlyRule(profile: User)
    ensures FirstMatch(CONFIG.programs, profile) == Ok(Some(0))
  {
  }

  // ----- a lost session

  lemma LosesTo(par: Params, s: Sys, pid: Pid)
    requires IsRun(s, pid) && s.procs[pid].live && s.procs[pid].run.Applying?
    ensures Enabled(par, s, OfRun(pid, LoseConnection))
    ensures Next(par, s, OfRun(pid, LoseConnection)) == s.(procs := s.procs[pid := s.procs[pid].(live := false)])
  {
  }

  lemma TicksTo(par: Params, s: Sys, to: Time)
    requires s.clock <= to
    ensures Enabled(par, s, Tick(to)) && Next(par, s, Tick(to)) == s.(clock := to)
  {
  }

  function StateOfPhase(p: Phase): State {
    match p
    case Active => ActiveState
    case Pending => PendingState
    case _ => SettledState
  }

  lemma OneIntent(e: Intent, t: Time)
    ensures StateOf({e}, t) == StateOfPhase(PhaseAt(e, t))
  {
  }

  lemma NoNext(e: Intent, t: Time)
    requires e.startsAt < e.endsAt <= t
    ensures NextOf({e}, t) == None
  {
  }

  const EMPTY := Tables(map[], map[])
  const ZOMBIE := Intent("desk", "1", "ann", 1, 10, false)

  ghost function ProfileOf(id: string, name: string, members: set<string>): User {
    User(true, id, "", "", name, SortedElements(AliasesIn(GROUPS, members)))
  }

  ghost function Interrupted(par: Params): Sys {
    var s1 := Delivered(Initial(5, map[]), 0, ZOMBIE);
    var planned := Applying(5, RowOf(s1.db, "ann"), {ZOMBIE}, Some(0), [Add("g1")]);
    At(s1, 1, Run("ann", false, planned)).(clock := 10)
  }

  /** A run that has planned loses its session, and time passes. */
  lemma LosesSession(par: Params, s: Sys, pid: Pid, x: string, at: RunAt, to: Time)
    requires at.Applying? && s.clock <= to
    ensures Takes(par, At(s, pid, Run(x, true, at)), [OfRun(pid, LoseConnection)] + [Tick(to)],
                  At(s, pid, Run(x, false, at)).(clock := to))
  {
    var s0, s1 := At(s, pid, Run(x, true, at)), At(s, pid, Run(x, false, at));
    LosesTo(par, s0, pid);
    assert Next(par, s0, OfRun(pid, LoseConnection)) == s1;
    TicksTo(par, s1, to);
    TakesOne(par, s0, OfRun(pid, LoseConnection));
    TakesOne(par, s1, Tick(to));
    JoinTakes(par, s0, [OfRun(pid, LoseConnection)], s1, [Tick(to)], s1.(clock := to));
  }

  ghost function FirstPlan(row: Option<Row>): RunAt {
    Applying(5, row, {ZOMBIE}, Some(0), [Add("g1")])
  }

  /** What a run plans for the user while the intent is active. */
  lemma PlansToAdd(par: Params, s: Sys)
    requires par.cfg == CONFIG && s.clock == 5 && IntentsOf(s.db, "ann") == {ZOMBIE} && Members(s, par.userOf("ann")) == {}
    ensures Planned(par, s, "ann", Some(0)) == FirstPlan(RowOf(s.db, "ann"))
  {
    OneIntent(ZOMBIE, 5);
    ConfigIsValid();
    assert Todo(WANTED, {}) == {Add("g1")};
    OpsForExact(CONFIG, Some(0), ActiveState, {});
    OnlyElement(OpsFor(CONFIG, Some(0), ActiveState, {}), Add("g1"));
  }

  lemma FirstFacts(par: Params)
    requires par == ParamsWith((x: string) => x)
    ensures var s1 := Delivered(Initial(5, map[]), 0, ZOMBIE);
      Idle(par, s1, 1) && IntentsOf(s1.db, "ann") == {ZOMBIE} && Members(s1, "ann") == {}
  {
  }

  lemma DeliversFirst(par: Params) returns (steps: seq<Step>)
    requires par == ParamsWith((x: string) => x)
    ensures Leads(par, Initial(5, map[]), steps, Delivered(Initial(5, map[]), 0, ZOMBIE))
  {
    NobodyConnected(par, Initial(5, map[]), 0);
    steps := Deliver(par, Initial(5, map[]), 0, ZOMBIE);
  }

  lemma PlansFirst(par: Params) returns (steps: seq<Step>)
    requires par == ParamsWith((x: string) => x)
    ensures var s1 := Delivered(Initial(5, map[]), 0, ZOMBIE);
      Leads(par, Initial(5, map[]), steps, At(s1, 1, Run("ann", true, FirstPlan(RowOf(s1.db, "ann")))))
  {
    var s0, s1 := Initial(5, map[]), Delivered(Initial(5, map[]), 0, ZOMBIE);
    steps := DeliversFirst(par);
    FirstFacts(par);
    OnlyRule(ProfileOf("ann", "", {}));
    var more := RunToPlan(par, s1, 1, "ann", ProfileOf("ann", "", {}), Some(0));
    PlansToAdd(par, s1);
    Join(par, s0, steps, s1, more, At(s1, 1, Run("ann", true, FirstPlan(RowOf(s1.db, "ann")))));
    steps := steps + more;
  }

  /** A run plans to add the user while the intent is active, and its session
      dies before the write. */
  lemma GetsInterrupted(par: Params) returns (steps: seq<Step>)
    requires par == ParamsWith((x: string) => x)
    ensures Takes(par, Initial(5, map[]), steps, Interrupted(par)) && NoEdits(steps)
  {
    var s1 := Delivered(Initial(5, map[]), 0, ZOMBIE);
    var at := FirstPlan(RowOf(s1.db, "ann"));
    steps := PlansFirst(par);
    SmoothMeans(steps);
    LosesSession(par, s1, 1, "ann", at, 10);
    var last := [OfRun(1, LoseConnection)] + [Tick(10)];
    JoinTakes(par, Initial(5, map[]), steps, At(s1, 1, Run("ann", true, at)), last, Interrupted(par));
    steps := steps + last;
  }

  lemma InterruptedFacts(par: Params)
    requires par == ParamsWith((x: string) => x)
    ensures var s := Interrupted(par);
      && Idle(par, s, 2) && IntentsOf(s.db, "ann") == {ZOMBIE} && Members(s, "ann") == {}
      && s.clock == 10 && s.spoiled == {} && 2 !in s.procs && 1 in s.procs
      && s.procs[1] == Run("ann", false, FirstPlan(RowOf(s.db, "ann")))
  {
    var s := Interrupted(par);
    FirstFacts(par);
    assert s.procs.Keys == {0, 1};
    assert UsedConnections(s) <= {1};
    SubsetAtMost(UsedConnections(s) - {2}, {1});
  }

  lemma ContradictedAtLast(par: Params, s: Sys)
    requires par.cfg == CONFIG && s.clock == 10 && IntentsOf(s.db, "ann") == {ZOMBIE}
    requires "ann" in s.db.states && s.db.states["ann"].nextRetry.None? && s.db.states["ann"].nextTransition.None?
    requires "ann" in s.seen && s.seen["ann"].rule == Some(0) && "g1" in Members(s, par.userOf("ann"))
    ensures Contradicted(par, s, "ann")
  {
    OneIntent(ZOMBIE, 10);
    ConfigIsValid();
  }

  /** A second run finds nothing to do and records its success; then the first
      one writes after all. */
  lemma ZombieWrites(par: Params) returns (steps: seq<Step>, s': Sys)
    requires par == ParamsWith((x: string) => x)
    ensures Leads(par, Interrupted(par), steps, s') && Contradicted(par, s', "ann")
  {
    var s := Interrupted(par);
    InterruptedFacts(par);
    OnlyRule(ProfileOf("ann", "", {}));
    steps := RunToPlan(par, s, 2, "ann", ProfileOf("ann", "", {}), Some(0));
    OneIntent(ZOMBIE, 10);
    ConfigIsValid();
    SatisfiedMeansNothingToDo(CONFIG, Some(0), SettledState, {});
    var s1 := At(s, 2, Run("ann", true, Planned(par, s, "ann", Some(0))));
    RecordsTo(par, s1, 2);
    Extend(par, s, steps, s1, OfRun(2, RecordSuccess));
    var s2 := Next(par, s1, OfRun(2, RecordSuccess));
    WriteLeads(par, s2, 1);
    Extend(par, s, steps + [OfRun(2, RecordSuccess)], s2, OfRun(1, Write));
    steps, s' := steps + [OfRun(2, RecordSuccess)] + [OfRun(1, Write)], Next(par, s2, OfRun(1, Write));
    NoNext(ZOMBIE, 10);
    SameIntents(s.db, s'.db);
    ContradictedAtLast(par, s');
  }

  /** A lost session breaks the main result: its run no longer holds the
      subject's lock and still writes to the directory. */
  lemma LostSessionContradicts() returns (par: Params, start: Start, steps: seq<Step>)
    ensures IsHistory(par, start, steps) && Contradicted(par, StateAfter(par, start, steps), "ann")
    ensures NoEdits(steps) && DistinctUsers(par, NamedIn(steps))
  {
    par, start := ParamsWith((x: string) => x), Start(5, map[]);
    ConfigIsValid();
    var first := GetsInterrupted(par);
    var second, s' := ZombieWrites(par);
    JoinTakes(par, Initial(5, map[]), first, Interrupted(par), second, s');
    SmoothMeans(second);
    steps := first + second;
  }

  // ----- a shared user

  /** The same user under another spelling, with an intent that has ended. */
  const ENDED := Intent("desk", "2", "Ann", 1, 3, false)

  ghost function BothDelivered(): Sys {
    Delivered(Delivered(Initial(5, map[]), 0, ZOMBIE), 1, ENDED)
  }

  lemma BothRest()
    ensures var s := BothDelivered();
      && Rests(s) && s.procs.Keys == {0, 1} && s.spoiled == {} && s.clock == 5 && s.seen == map[] && s.members == map[]
  {
  }

  lemma FirstIntents()
    ensures var db := Upserted(EMPTY, ZOMBIE, 5);
      ValidTables(db) && IntentsOf(db, "ann") == {ZOMBIE} && IntentsOf(db, "Ann") == {}
  {
    assert IntentsOf(EMPTY, "ann") == {} && IntentsOf(EMPTY, "Ann") == {};
    UpsertedIntents(EMPTY, ZOMBIE, 5, "ann");
    UpsertedIntents(EMPTY, ZOMBIE, 5, "Ann");
  }

  lemma BothIntents()
    ensures IntentsOf(BothDelivered().db, "ann") == {ZOMBIE} && IntentsOf(BothDelivered().db, "Ann") == {ENDED}
  {
    FirstIntents();
    UpsertedIntents(Upserted(EMPTY, ZOMBIE, 5), ENDED, 5, "ann");
    UpsertedIntents(Upserted(EMPTY, ZOMBIE, 5), ENDED, 5, "Ann");
  }

  lemma SecondIsNew()
    ensures var s1 := Delivered(Initial(5, map[]), 0, ZOMBIE);
      Rests(s1) && 1 !in s1.procs && PreviousSubject(s1.db, ENDED.Identity()).None?
  {
    DeliveredRests(Initial(5, map[]), 0, ZOMBIE);
    assert "1"[0] != "2"[0];
  }

  lemma DeliversNext(par: Params, s: Sys, pid: Pid, e: Intent) returns (steps: seq<Step>)
    requires par.poolSize > 0 && Rests(s) && pid !in s.procs && Valid(e) && PreviousSubject(s.db, e.Identity()).None?
    ensures Leads(par, s, steps, Delivered(s, pid, e))
  {
    NobodyConnected(par, s, pid);
    steps := Deliver(par, s, pid, e);
  }

  lemma DeliversTwo(par: Params, s: Sys, e: Intent, other: Intent) returns (steps: seq<Step>)
    requires par.poolSize > 0 && Rests(s) && s.procs == map[] && Valid(e) && Valid(other)
    requires PreviousSubject(s.db, e.Identity()).None?
    requires var s1 := Delivered(s, 0, e); Rests(s1) && 1 !in s1.procs && PreviousSubject(s1.db, other.Identity()).None?
    ensures Leads(par, s, steps, Delivered(Delivered(s, 0, e), 1, other))
  {
    var s1 := Delivered(s, 0, e);
    steps := DeliversNext(par, s, 0, e);
    var more := DeliversNext(par, s1, 1, other);
    Join(par, s, steps, s1, more, Delivered(s1, 1, other));
    steps := steps + more;
  }

  lemma DeliversBoth(par: Params) returns (steps: seq<Step>)
    requires par.poolSize > 0
    ensures Leads(par, Initial(5, map[]), steps, BothDelivered())
  {
    SecondIsNew();
    steps := DeliversTwo(par, Initial(5, map[]), ZOMBIE, ENDED);
  }

  /** From two delivered intents on: the user is added for one subject and
      removed for the other. */
  lemma RunsUndoEachOther(par: Params, s: Sys) returns (steps: seq<Step>, s': Sys)
    requires par == ParamsWith((x: string) => "u")
    requires Rests(s) && 2 !in s.procs && 3 !in s.procs && s.spoiled == {} && s.clock == 5
    requires IntentsOf(s.db, "ann") == {ZOMBIE} && IntentsOf(s.db, "Ann") == {ENDED}
    ensures Leads(par, s, steps, s') && s'.clock == 5
    ensures s'.db == Succeeded(Succeeded(s.db, "ann", 5, NextOf({ZOMBIE}, 5)), "Ann", 5, NextOf({ENDED}, 5))
    ensures "ann" in s'.seen && s'.seen["ann"].rule == Some(0) && "g1" !in Members(s', "u")
  {
    var s2, more;
    NobodyConnected(par, s, 2);
    OnlyRule(ProfileOf("u", "", Members(s, "u")));
    steps, s2 := FullRun(par, s, 2, "ann", ProfileOf("u", "", Members(s, "u")), Some(0));
    AddedFacts(par, s, s2);
    more, s' := RemovesForOther(par, s2);
    Join(par, s, steps, s2, more, s');
    steps := steps + more;
  }

  lemma AddedFacts(par: Params, s: Sys, s': Sys)
    requires par.userOf("ann") == "u" && Ran(par, s, s', 2, "ann", Some(0))
    requires Rests(s) && 3 !in s.procs && s.spoiled == {}
    ensures Rests(s') && 3 !in s'.procs && 3 !in s'.spoiled
    ensures IntentsOf(s'.db, "Ann") == IntentsOf(s.db, "Ann")
  {
  }

  lemma RemovesForOther(par: Params, s: Sys) returns (steps: seq<Step>, s': Sys)
    requires par == ParamsWith((x: string) => "u")
    requires Rests(s) && 3 !in s.procs && 3 !in s.spoiled && s.clock == 5
    requires IntentsOf(s.db, "Ann") == {ENDED} && "ann" in s.seen && s.seen["ann"].rule == Some(0)
    ensures Leads(par, s, steps, s') && s'.clock == 5
    ensures s'.db == Succeeded(s.db, "Ann", 5, NextOf({ENDED}, 5))
    ensures "ann" in s'.seen && s'.seen["ann"].rule == Some(0) && "g1" !in Members(s', "u")
  {
    NobodyConnected(par, s, 3);
    OnlyRule(ProfileOf("u", "", Members(s, "u")));
    steps, s' := FullRun(par, s, 3, "Ann", ProfileOf("u", "", Members(s, "u")), Some(0));
    ConfigIsValid();
    OneIntent(ENDED, 5);
    RanMeetsGoal(par, s, s', 3, "Ann", Some(0));
  }

  lemma ContradictedInTheEnd(par: Params, db: Tables, s: Sys)
    requires par.cfg == CONFIG && s.clock == 5 && IntentsOf(db, "ann") == {ZOMBIE}
    requires s.db == Succeeded(Succeeded(db, "ann", 5, NextOf({ZOMBIE}, 5)), "Ann", 5, NextOf({ENDED}, 5))
    requires "ann" in s.seen && s.seen["ann"].rule == Some(0) && "g1" !in Members(s, par.userOf("ann"))
    ensures Contradicted(par, s, "ann")
  {
    SameIntents(db, s.db);
    OneIntent(ZOMBIE, 5);
    ConfigIsValid();
    assert s.db.states["ann"].nextTransition == NextOf({ZOMBIE}, 5);
    assert "g1" in WANTED.present;
  }

  /** Two subjects that name one directory user undo each other's writes, and
      each row still says that all is well. */
  lemma SharedUserContradicts() returns (par: Params, start: Start, steps: seq<Step>)
    ensures IsHistory(par, start, steps) && Contradicted(par, StateAfter(par, start, steps), "ann")
    ensures NoEdits(steps) && NoLoss(steps)
  {
    par, start := ParamsWith((x: string) => "u"), Start(5, map[]);
    ConfigIsValid();
    steps := DeliversBoth(par);
    BothRest();
    BothIntents();
    var more, s' := RunsUndoEachOther(par, BothDelivered());
    Join(par, Initial(5, map[]), steps, BothDelivered(), more, s');
    steps := steps + more;
    SmoothMeans(steps);
    ContradictedInTheEnd(par, BothDelivered().db, s');
  }

  // ----- a rule selection that changes

  /** Staff belong in the group while active; everybody else stays out of it. */
  const SWITCHING :=
    Config(GROUPS,
           [Rule("staff", "staff", States(NO_ASSERTIONS, MEMBER_OF, KEPT_OUT)),
            Rule("others", "true", States(NO_ASSERTIONS, KEPT_OUT, KEPT_OUT))],
           [(u: User) => Value(u.displayName == "staff"), (u: User) => Value(true)])

  lemma SwitchingIsValid()
    ensures ValidConfig(SWITCHING)
    ensures GoalFor(SWITCHING, Some(0), ActiveState) == WANTED
    ensures GoalFor(SWITCHING, Some(1), ActiveState) == UNWANTED
  {
    Targets();
  }

  lemma Selects(profile: User)
    ensures FirstMatch(SWITCHING.programs, profile) == Ok(Some(if profile.displayName == "staff" then 0 else 1))
  {
    assert SWITCHING.programs[0](profile) == Value(profile.displayName == "staff");
    assert SWITCHING.programs[1](profile) == Value(true);
    FirstMatchUnique(SWITCHING.programs, profile, 0, Ok(Some(if profile.displayName == "staff" then 0 else 1)));
  }

  ghost predicate NoLoss(steps: seq<Step>) {
    forall i :: 0 <= i < |steps| ==> !(steps[i].OfRun? && steps[i].run.LoseConnection?)
  }

  lemma SmoothMeans(steps: seq<Step>)
    requires Smooth(steps)
    ensures NoEdits(steps) && NoLoss(steps)
  {
    forall i | 0 <= i < |steps| ensures !steps[i].ExternalEdit? && !(steps[i].OfRun? && steps[i].run.LoseConnection?) {
      assert SmoothStep(steps[i]);
    }
  }

  lemma QuitsTo(par: Params, s: Sys, pid: Pid)
    requires IsRun(s, pid) && s.procs[pid].live && s.procs[pid].run.Applying?
    ensures Enabled(par, s, OfRun(pid, Quit))
    ensures Next(par, s, OfRun(pid, Quit)) == s.(procs := s.procs[pid := s.procs[pid].(run := Closing)])
  {
    QuietSteps(par, s, OfRun(pid, Quit));
    assert EditOf(par, s, OfRun(pid, Quit)).None?;
  }

  /** A run that is cancelled after its writes and before its record. */
  lemma QuitsAfterWrites(par: Params, s: Sys, pid: Pid) returns (steps: seq<Step>, s': Sys)
    requires IsRun(s, pid) && s.procs[pid].live && s.procs[pid].run.Applying?
    ensures Takes(par, s, steps, s') && NoEdits(steps) && NoLoss(steps)
    ensures s'.clock == s.clock && s'.db == s.db && s'.seen == s.seen
    ensures s'.procs == s.procs[pid := Run(s.procs[pid].subject, true, Done)]
    ensures var user := par.userOf(s.procs[pid].subject);
      Members(s', user) == ApplyAll(s.procs[pid].run.ops, Members(s, user))
  {
    var s1;
    steps, s1 := WritesAll(par, s, pid);
    SmoothMeans(steps);
    QuitsTo(par, s1, pid);
    var s2 := Next(par, s1, OfRun(pid, Quit));
    TakesOne(par, s1, OfRun(pid, Quit));
    JoinTakes(par, s, steps, s1, [OfRun(pid, Quit)], s2);
    ClosesTo(par, s2, pid);
    s' := Next(par, s2, OfRun(pid, Close));
    TakesOne(par, s2, OfRun(pid, Close));
    JoinTakes(par, s, steps + [OfRun(pid, Quit)], s2, [OfRun(pid, Close)], s');
    steps := steps + [OfRun(pid, Quit)] + [OfRun(pid, Close)];
  }

  ghost predicate Switches(par: Params) {
    par.cfg == SWITCHING && par.userOf("ann") == "ann" && par.poolSize > 0
  }

  /** Once as staff, with a clean row to show for it. */
  lemma RunsAsStaff(par: Params, s: Sys) returns (steps: seq<Step>, s': Sys)
    requires Switches(par) && Rests(s) && 1 !in s.procs && s.spoiled == {}
    ensures Leads(par, s, steps, s') && Ran(par, s, s', 1, "ann", Some(0))
  {
    NobodyConnected(par, s, 1);
    var profile := ProfileOf("ann", "staff", Members(s, "ann"));
    Selects(profile);
    steps, s' := FullRun(par, s, 1, "ann", profile, Some(0));
  }

  lemma StaffFacts(par: Params, s: Sys, s': Sys)
    requires Ran(par, s, s', 1, "ann", Some(0)) && Rests(s) && 2 !in s.procs && s.spoiled == {}
    ensures Rests(s') && 2 !in s'.procs && 2 !in s'.spoiled && IntentsOf(s'.db, "ann") == IntentsOf(s.db, "ann")
  {
  }

  lemma PlansAsGuest(par: Params, s: Sys) returns (steps: seq<Step>)
    requires Switches(par) && Rests(s) && 2 !in s.procs && 2 !in s.spoiled
    ensures Leads(par, s, steps, At(s, 2, Run("ann", true, Planned(par, s, "ann", Some(1)))))
  {
    NobodyConnected(par, s, 2);
    var profile := ProfileOf("ann", "guest", Members(s, "ann"));
    assert "guest"[0] != "staff"[0];
    Selects(profile);
    steps := RunToPlan(par, s, 2, "ann", profile, Some(1));
  }

  /** Once as somebody else, up to the record. */
  lemma QuitsAsGuest(par: Params, s: Sys) returns (steps: seq<Step>, s': Sys)
    requires Switches(par) && Rests(s) && 2 !in s.procs && 2 !in s.spoiled
    requires s.clock == 5 && IntentsOf(s.db, "ann") == {ZOMBIE}
    ensures Takes(par, s, steps, s') && NoEdits(steps) && NoLoss(steps)
    ensures s'.clock == s.clock && s'.db == s.db && s'.seen == s.seen && "g1" !in Members(s', "ann")
    ensures s'.procs == s.procs[2 := Run("ann", true, Done)]
  {
    steps := PlansAsGuest(par, s);
    SmoothMeans(steps);
    var s1 := At(s, 2, Run("ann", true, Planned(par, s, "ann", Some(1))));
    var more;
    more, s' := QuitsAfterWrites(par, s1, 2);
    JoinTakes(par, s, steps, s1, more, s');
    steps := steps + more;
    Overwrites(s.procs, 2, s1.procs[2], Run("ann", true, Done));
    GuestIsOut(par, s);
  }

  lemma GuestIsOut(par: Params, s: Sys)
    requires par.cfg == SWITCHING && s.clock == 5 && IntentsOf(s.db, "ann") == {ZOMBIE}
    ensures "g1" !in ApplyAll(Planned(par, s, "ann", Some(1)).ops, Members(s, par.userOf("ann")))
  {
    OneIntent(ZOMBIE, 5);
    SwitchingIsValid();
    ApplyReachesFixedPoint(SWITCHING, Some(1), ActiveState, Members(s, par.userOf("ann")));
  }

  lemma StaffIsContradicted(par: Params, db: Tables, s: Sys)
    requires par.cfg == SWITCHING && s.clock == 5 && IntentsOf(db, "ann") == {ZOMBIE}
    requires s.db == Succeeded(db, "ann", 5, NextOf({ZOMBIE}, 5))
    requires "ann" in s.seen && s.seen["ann"].rule == Some(0) && "g1" !in Members(s, par.userOf("ann"))
    ensures Contradicted(par, s, "ann")
  {
    SameIntents(db, s.db);
    OneIntent(ZOMBIE, 5);
    SwitchingIsValid();
    assert s.db.states["ann"].nextTransition == NextOf({ZOMBIE}, 5);
    assert "g1" in WANTED.present;
  }

  lemma DeliversToRest(par: Params) returns (steps: seq<Step>)
    requires par.poolSize > 0
    ensures Leads(par, Initial(5, map[]), steps, Delivered(Initial(5, map[]), 0, ZOMBIE))
  {
    NobodyConnected(par, Initial(5, map[]), 0);
    steps := Deliver(par, Initial(5, map[]), 0, ZOMBIE);
  }

  lemma RestFacts()
    ensures var s1 := Delivered(Initial(5, map[]), 0, ZOMBIE);
      Rests(s1) && s1.procs.Keys == {0} && s1.spoiled == {} && s1.clock == 5 && IntentsOf(s1.db, "ann") == {ZOMBIE}
  {
    DeliveredRests(Initial(5, map[]), 0, ZOMBIE);
    FirstIntents();
  }

  /** The two runs after the delivery. */
  lemma StaffThenGuest(par: Params, s: Sys) returns (steps: seq<Step>, s': Sys)
    requires Switches(par) && Rests(s) && s.procs.Keys == {0} && s.spoiled == {}
    requires s.clock == 5 && IntentsOf(s.db, "ann") == {ZOMBIE}
    ensures Takes(par, s, steps, s') && NoEdits(steps) && NoLoss(steps)
    ensures s'.clock == 5 && s'.db == Succeeded(s.db, "ann", 5, NextOf({ZOMBIE}, 5))
    ensures "ann" in s'.seen && s'.seen["ann"].rule == Some(0) && "g1" !in Members(s', "ann")
    ensures s'.procs == s.procs[1 := Run("ann", true, Done)][2 := Run("ann", true, Done)]
  {
    var s1, more;
    steps, s1 := RunsAsStaff(par, s);
    StaffFacts(par, s, s1);
    SmoothMeans(steps);
    more, s' := QuitsAsGuest(par, s1);
    JoinTakes(par, s, steps, s1, more, s');
    steps := steps + more;
  }

  /** A rule selection that changes for one run breaks the main result too: with
      distinct users, no outside edit and no lost session, a user who is matched
      as somebody else by one run, which is cancelled before its record, is out
      of the group, while the row still rests on the first match. */
  lemma ChangedRuleContradicts() returns (par: Params, start: Start, steps: seq<Step>)
    ensures IsHistory(par, start, steps) && Contradicted(par, StateAfter(par, start, steps), "ann")
    ensures NoEdits(steps) && NoLoss(steps) && DistinctUsers(par, NamedIn(steps))
    ensures AllFinished(StateAfter(par, start, steps))
  {
    par, start := ParamsWith((x: string) => x).(cfg := SWITCHING), Start(5, map[]);
    SwitchingIsValid();
    var s0, s1 := Initial(5, map[]), Delivered(Initial(5, map[]), 0, ZOMBIE);
    var first := DeliversToRest(par);
    SmoothMeans(first);
    RestFacts();
    var more, s' := StaffThenGuest(par, s1);
    StaffIsContradicted(par, s1.db, s');
    JoinTakes(par, s0, first, s1, more, s');
    steps := first + more;
    OnesFinished(s1, s');
  }

  lemma OnesFinished(s: Sys, s': Sys)
    requires s == Delivered(Initial(5, map[]), 0, ZOMBIE)
    requires s'.procs == s.procs[1 := Run("ann", true, Done)][2 := Run("ann", true, Done)]
    ensures AllFinished(s')
  {
  }
}
